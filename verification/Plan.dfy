/** The balanced schedule of the connected campaign (`balanced_orders` and `make_plan` in
    scripts/phase16c_connected_campaign.py). */
module Plan {
  import opened Basics
  import opened Campaign

  function Other(h: Harness): Harness {
    if h == Chadex then WebCodex else Chadex
  }

  /** `balanced_orders`: which harness goes first in each pair. `draw` is the random source of the
      shuffle, which swaps each position from the last down with one at or before it. */
  method BalancedOrders(pairs: int, draw: nat -> nat) returns (r: Result<seq<Harness>>)
    ensures r.Err? <==> pairs < 2 || pairs % 2 != 0
    ensures r.Ok? ==> |r.value| == pairs && forall h :: multiset(r.value)[h] == pairs / 2
  {
    if pairs < 2 || pairs % 2 != 0 { return Err("pairs must be an even integer >= 2"); }
    var half := pairs / 2;
    var orders := Copies(half, Chadex) + Copies(half, WebCodex);
    assert multiset(orders) == multiset(Copies(half, Chadex)) + multiset(Copies(half, WebCodex));
    forall h: Harness ensures multiset(orders)[h] == half {
      assert h == Chadex || h == WebCodex;
    }
    var i := pairs - 1;
    while i > 0
      invariant |orders| == pairs && 0 <= i < pairs
      invariant forall h :: multiset(orders)[h] == half
    {
      var j := draw(i) % (i + 1);
      SwapKeeps(orders, i, j);
      orders := orders[i := orders[j]][j := orders[i]];
      i := i - 1;
    }
    return Ok(orders);
  }

  function Copies(n: nat, h: Harness): (r: seq<Harness>)
    ensures |r| == n && multiset(r) == multiset{}[h := n]
  {
    if n == 0 then [] else Copies(n - 1, h) + [h]
  }

  lemma SwapKeeps(s: seq<Harness>, i: nat, j: nat)
    requires i < |s| && j < |s|
    ensures multiset(s[i := s[j]][j := s[i]]) == multiset(s)
  {
  }

  // ------------------------------------------------------------------- names

  function DigitChar(d: nat): char
    requires d < 10
  {
    ('0' as int + d) as char
  }

  function Decimal(n: nat): string {
    if n < 10 then [DigitChar(n)] else Decimal(n / 10) + [DigitChar(n % 10)]
  }

  /** `{n:02d}`. */
  function TwoDigits(n: nat): string {
    if n < 10 then "0" + Decimal(n) else Decimal(n)
  }

  function PairId(k: nat): string {
    "pair" + TwoDigits(k)
  }

  function Name(h: Harness): string {
    if h == Chadex then "chadex" else "webcodex"
  }

  function RunId(k: nat, h: Harness): string {
    PairId(k) + "-" + Name(h)
  }

  /** The number a string of digits spells. */
  ghost function Spelled(s: string): int {
    if s == [] then 0 else 10 * Spelled(s[..|s| - 1]) + (s[|s| - 1] as int - '0' as int)
  }

  lemma {:induction false} DecimalSpells(n: nat)
    ensures Spelled(Decimal(n)) == n && Spelled(TwoDigits(n)) == n
  {
    if n < 10 {
      assert Decimal(n)[..0] == [];
      assert ("0" + Decimal(n))[..1] == "0";
      assert Spelled("0") == 0;
    } else {
      DecimalSpells(n / 10);
      assert Decimal(n)[..|Decimal(n)| - 1] == Decimal(n / 10);
    }
  }

  lemma PairIdIsUnique(j: nat, k: nat)
    requires PairId(j) == PairId(k)
    ensures j == k
  {
    assert PairId(j)[4..] == TwoDigits(j) && PairId(k)[4..] == TwoDigits(k);
    DecimalSpells(j);
    DecimalSpells(k);
  }

  lemma RunIdIsUnique(j: nat, g: Harness, k: nat, h: Harness)
    requires RunId(j, g) == RunId(k, h)
    ensures j == k && g == h
  {
    var a, b := RunId(j, g), RunId(k, h);
    assert a[|a| - 7] == (if g == Chadex then '-' else 'e');
    assert b[|b| - 7] == (if h == Chadex then '-' else 'e');
    var n := |"-" + Name(g)|;
    assert a[..|a| - n] == PairId(j) && b[..|b| - n] == PairId(k);
    PairIdIsUnique(j, k);
  }

  // -------------------------------------------------------------------- plan

  function RunOf(k: nat, order: Harness, position: nat): Planned {
    var h := if position == 1 then order else Other(order);
    Planned(RunId(k + 1, h), PairId(k + 1), h, position)
  }

  /** Pair by pair, the harness that goes first and then the other one. */
  ghost predicate IsPlan(orders: seq<Harness>, schedule: Schedule) {
    && |schedule| == 2 * |orders|
    && forall i: nat :: i < |schedule| ==> schedule[i] == RunOf(i / 2, orders[i / 2], i % 2 + 1)
  }

  /** `make_plan`: the flattened schedule. */
  method MakePlan(orders: seq<Harness>) returns (schedule: Schedule)
    ensures IsPlan(orders, schedule)
  {
    schedule := [];
    for k := 0 to |orders|
      invariant IsPlan(orders[..k], schedule)
    {
      var runs := PairRuns(k, orders[k]);
      PlanExtends(orders[..k], schedule, orders[k]);
      assert orders[..k + 1] == orders[..k] + [orders[k]];
      schedule := schedule + runs;
    }
    assert orders[..|orders|] == orders;
  }

  /** The two runs of a pair, by position. */
  method PairRuns(k: nat, order: Harness) returns (runs: seq<Planned>)
    ensures runs == [RunOf(k, order, 1), RunOf(k, order, 2)]
  {
    runs := [];
    for position := 1 to 3
      invariant |runs| == position - 1
      invariant forall i :: 0 <= i < |runs| ==> runs[i] == RunOf(k, order, i + 1)
    {
      runs := runs + [RunOf(k, order, position)];
    }
  }

  lemma PlanExtends(orders: seq<Harness>, schedule: Schedule, order: Harness)
    requires IsPlan(orders, schedule)
    ensures IsPlan(orders + [order], schedule + [RunOf(|orders|, order, 1), RunOf(|orders|, order, 2)])
  {
    var all, plan := orders + [order], schedule + [RunOf(|orders|, order, 1), RunOf(|orders|, order, 2)];
    forall i: nat | i < |plan| ensures plan[i] == RunOf(i / 2, all[i / 2], i % 2 + 1) {
      if i >= |schedule| { assert i / 2 == |orders| && i % 2 == i - |schedule|; }
    }
  }

  lemma RunsDiffer(k: nat, g: Harness, p: nat, l: nat, h: Harness, q: nat)
    requires 1 <= p <= 2 && 1 <= q <= 2 && RunOf(k, g, p).runId == RunOf(l, h, q).runId
    ensures k == l && (g == h ==> p == q)
  {
    RunIdIsUnique(k + 1, RunOf(k, g, p).harness, l + 1, RunOf(l, h, q).harness);
  }

  /** A plan names every run once. */
  lemma PlanIsDistinct(orders: seq<Harness>, schedule: Schedule)
    requires IsPlan(orders, schedule)
    ensures Distinct(schedule)
  {
    forall i: nat, j: nat | i < j < |schedule| ensures schedule[i].runId != schedule[j].runId {
      if schedule[i].runId == schedule[j].runId {
        RunsDiffer(i / 2, orders[i / 2], i % 2 + 1, j / 2, orders[j / 2], j % 2 + 1);
      }
    }
  }
}
