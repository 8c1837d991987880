/** The matched-pair comparison of scripts/phase16c_variance_profile.py, and what it yields for a
    campaign that has run to its end. */
module PairedDeltas {
  import opened Basics
  import opened Campaign
  import opened Plan

  /** One analysed run; an empty pair id stands for a missing one, and the latency may be absent. */
  datatype Measured = Measured(runId: string, pairId: string, harness: Harness, position: nat, latency: Option<real>)

  /** Rounding to three decimals, ties to the even digit. */
  function Rounded(x: real): (r: real)
    ensures -0.0005 <= r - x <= 0.0005
  {
    var down := (x * 1000.0).Floor;
    var rest := x * 1000.0 - down as real;
    (if rest < 0.5 || (rest == 0.5 && down % 2 == 0) then down else down + 1) as real / 1000.0
  }

  datatype Row = Row(pairId: string, chadex: Measured, webcodex: Measured, delta: real)

  // -------------------------------------------------------------- by pair id

  /** Two runs of one pair with the same harness. */
  ghost predicate Clash(runs: seq<Measured>, i: nat, j: nat) {
    i < j < |runs| && runs[i].pairId != "" && runs[i].pairId == runs[j].pairId && runs[i].harness == runs[j].harness
  }

  ghost predicate HasClash(runs: seq<Measured>) {
    exists i: nat, j: nat :: Clash(runs, i, j)
  }

  /** Both runs of a pair with numeric latencies. */
  ghost predicate Matched(runs: seq<Measured>, row: Row) {
    && row.pairId != "" && row.chadex in runs && row.webcodex in runs
    && row.chadex.pairId == row.pairId == row.webcodex.pairId
    && row.chadex.harness == Chadex && row.webcodex.harness == WebCodex
    && row.chadex.latency.Some? && row.webcodex.latency.Some?
    && row.delta == Rounded(row.chadex.latency.value - row.webcodex.latency.value)
  }

  function PairIds(runs: seq<Measured>): set<string> {
    set r | r in runs && r.pairId != "" :: r.pairId
  }

  function Members(runs: seq<Measured>, id: string): seq<Measured> {
    if runs == [] then []
    else Members(runs[..|runs| - 1], id) + (if runs[|runs| - 1].pairId == id then [runs[|runs| - 1]] else [])
  }

  lemma {:induction false} MembersAre(runs: seq<Measured>, id: string)
    ensures forall r :: r in Members(runs, id) <==> r in runs && r.pairId == id
  {
    if runs != [] {
      MembersAre(runs[..|runs| - 1], id);
      assert runs == runs[..|runs| - 1] + [runs[|runs| - 1]];
    }
  }

  /** The runs of each pair id, in order. */
  ghost predicate Grouped(runs: seq<Measured>, pairs: map<string, seq<Measured>>) {
    pairs.Keys == PairIds(runs) && forall id :: id in pairs ==> pairs[id] == Members(runs, id)
  }

  function Appended(pairs: map<string, seq<Measured>>, run: Measured): map<string, seq<Measured>> {
    if run.pairId == "" then pairs
    else pairs[run.pairId := (if run.pairId in pairs then pairs[run.pairId] else []) + [run]]
  }

  lemma PairIdsGrow(runs: seq<Measured>, run: Measured)
    ensures PairIds(runs + [run]) == PairIds(runs) + if run.pairId == "" then {} else {run.pairId}
  {
    assert forall r :: r in runs + [run] <==> r in runs || r == run;
  }

  lemma StrangersHaveNone(runs: seq<Measured>, id: string)
    requires id != "" && id !in PairIds(runs)
    ensures Members(runs, id) == []
  {
    MembersAre(runs, id);
    assert |Members(runs, id)| > 0 ==> Members(runs, id)[0] in Members(runs, id);
  }

  lemma GroupGrows(runs: seq<Measured>, pairs: map<string, seq<Measured>>, run: Measured)
    requires Grouped(runs, pairs)
    ensures Grouped(runs + [run], Appended(pairs, run))
  {
    PairIdsGrow(runs, run);
    assert (runs + [run])[..|runs|] == runs;
    if run.pairId != "" && run.pairId !in pairs { StrangersHaveNone(runs, run.pairId); }
  }

  /** `pairs`: the runs of each pair id. */
  method GroupByPair(runs: seq<Measured>) returns (pairs: map<string, seq<Measured>>)
    ensures Grouped(runs, pairs)
  {
    pairs := map[];
    for k := 0 to |runs|
      invariant Grouped(runs[..k], pairs)
    {
      var run := runs[k];
      GroupGrows(runs[..k], pairs, run);
      assert runs[..k + 1] == runs[..k] + [run];
      if run.pairId != "" {
        pairs := pairs[run.pairId := (if run.pairId in pairs then pairs[run.pairId] else []) + [run]];
      }
    }
    assert runs[..|runs|] == runs;
  }

  // ------------------------------------------------------------------- order

  /** The least id, as Python's `sorted` hands it out first. */
  method TakeLeast(ids: set<string>) returns (least: string)
    requires ids != {}
    ensures least in ids && forall id :: id in ids ==> LexLeq(least, id)
  {
    var pending := ids;
    least := AnyOf(ids);
    while pending != {}
      invariant pending <= ids && least in ids
      invariant forall id :: id in ids && id !in pending ==> LexLeq(least, id)
    {
      var id := AnyOf(pending);
      ghost var was := least;
      LexTrichotomy(id, least);
      if LexLess(id, least) { least := id; }
      pending := pending - {id};
      forall x | x in ids && x !in pending ensures LexLeq(least, x) {
        if x != id && LexLess(least, was) && LexLess(was, x) { LexTransitive(least, was, x); }
      }
    }
  }

  // ------------------------------------------------------------------- pairs

  ghost predicate SameHarness(members: seq<Measured>, i: nat, j: nat) {
    i < j < |members| && members[i].harness == members[j].harness
  }

  lemma {:induction false} ClashOfMembers(runs: seq<Measured>, id: string, i: nat, j: nat) returns (k: nat, l: nat)
    requires id != "" && SameHarness(Members(runs, id), i, j)
    ensures Clash(runs, k, l) && runs[k].pairId == id
  {
    var prefix := runs[..|runs| - 1];
    var before := Members(prefix, id);
    if j < |before| {
      k, l := ClashOfMembers(prefix, id, i, j);
    } else {
      MembersAre(prefix, id);
      assert before[i] in prefix;
      k :| k < |prefix| && prefix[k] == before[i];
      l := |runs| - 1;
    }
  }

  lemma {:induction false} MembersOfClash(runs: seq<Measured>, id: string, i: nat, j: nat) returns (k: nat, l: nat)
    requires id != "" && Clash(runs, i, j) && runs[i].pairId == id
    ensures SameHarness(Members(runs, id), k, l)
  {
    var prefix := runs[..|runs| - 1];
    var before := Members(prefix, id);
    if j < |prefix| {
      k, l := MembersOfClash(prefix, id, i, j);
    } else {
      MembersAre(prefix, id);
      assert prefix[i] in before;
      k :| k < |before| && before[k] == prefix[i];
      l := |before|;
    }
  }

  lemma NoClashIn(runs: seq<Measured>, id: string)
    requires id != "" && forall i: nat, j: nat :: !SameHarness(Members(runs, id), i, j)
    ensures forall i: nat, j: nat :: Clash(runs, i, j) ==> runs[i].pairId != id
  {
    forall i: nat, j: nat | Clash(runs, i, j) ensures runs[i].pairId != id {
      if runs[i].pairId == id {
        var k, l := MembersOfClash(runs, id, i, j);
      }
    }
  }

  /** `by_harness`: the run of each harness in a pair, refused when a harness occurs twice. */
  method ByHarness(members: seq<Measured>) returns (r: Result<map<Harness, Measured>>)
    ensures r.Err? <==> exists i: nat, j: nat :: SameHarness(members, i, j)
    ensures r.Ok? ==> forall h :: h in r.value ==> r.value[h] in members && r.value[h].harness == h
    ensures r.Ok? ==> forall m :: m in members ==> m.harness in r.value && r.value[m.harness] == m
  {
    var found: map<Harness, Measured> := map[];
    for k := 0 to |members|
      invariant forall h :: h in found ==> found[h] in members[..k] && found[h].harness == h
      invariant forall i :: 0 <= i < k ==> members[i].harness in found && found[members[i].harness] == members[i]
      invariant forall i: nat, j: nat :: j < k ==> !SameHarness(members, i, j)
    {
      var m := members[k];
      if m.harness in found {
        var i: nat :| i < k && members[i] == found[m.harness];
        assert SameHarness(members, i, k);
        return Err("pair contains duplicate harness");
      }
      found := found[m.harness := m];
    }
    return Ok(found);
  }

  ghost predicate Ascending(rows: seq<Row>) {
    forall i, j :: 0 <= i < j < |rows| ==> LexLess(rows[i].pairId, rows[j].pairId)
  }

  function RowOf(id: string, found: map<Harness, Measured>): seq<Row> {
    if Chadex in found && WebCodex in found && found[Chadex].latency.Some? && found[WebCodex].latency.Some? then
      [Row(id, found[Chadex], found[WebCodex], Rounded(found[Chadex].latency.value - found[WebCodex].latency.value))]
    else []
  }

  lemma RowIsMatch(runs: seq<Measured>, id: string, found: map<Harness, Measured>)
    requires id != ""
    requires forall h :: h in found ==> found[h] in runs && found[h].pairId == id && found[h].harness == h
    requires forall m :: m in runs && m.pairId == id ==> m.harness in found && found[m.harness] == m
    ensures forall row :: row in RowOf(id, found) <==> Matched(runs, row) && row.pairId == id
  {
  }

  /** `paired_deltas`: the matched pairs, in the order of their ids; a pair with a repeated harness
      is refused. */
  method Compare(runs: seq<Measured>) returns (r: Result<seq<Row>>)
    ensures r.Err? <==> HasClash(runs)
    ensures r.Ok? ==> Ascending(r.value) && forall row :: row in r.value <==> Matched(runs, row)
  {
    var pairs := GroupByPair(runs);
    var rows: seq<Row> := [];
    var pending := pairs.Keys;
    while pending != {}
      invariant pending <= PairIds(runs)
      invariant Ascending(rows)
      invariant forall row, id :: row in rows && id in pending ==> LexLess(row.pairId, id)
      invariant forall row :: row in rows <==> Matched(runs, row) && row.pairId !in pending
      invariant forall i: nat, j: nat :: Clash(runs, i, j) ==> runs[i].pairId in pending
    {
      var id := TakeLeast(pending);
      MembersAre(runs, id);
      var found := ByHarness(pairs[id]);
      if found.Err? {
        ghost var i: nat, j: nat :| SameHarness(Members(runs, id), i, j);
        ghost var k, l := ClashOfMembers(runs, id, i, j);
        return Err(found.error);
      }
      NoClashIn(runs, id);
      RowIsMatch(runs, id, found.value);
      rows := rows + RowOf(id, found.value);
      pending := pending - {id};
    }
    return Ok(rows);
  }

  // ----------------------------------------------------- a finished campaign

  /** The analysed runs are those of the schedule, all with numeric latencies. */
  ghost predicate Measures(schedule: Schedule, runs: seq<Measured>) {
    && |runs| == |schedule|
    && forall i :: 0 <= i < |runs| ==>
         && runs[i].latency.Some?
         && schedule[i] == Planned(runs[i].runId, runs[i].pairId, runs[i].harness, runs[i].position)
  }

  lemma MeasuredRun(orders: seq<Harness>, schedule: Schedule, runs: seq<Measured>, i: nat)
    requires IsPlan(orders, schedule) && Measures(schedule, runs) && i < |runs|
    ensures runs[i].pairId == PairId(i / 2 + 1) && runs[i].pairId != "" && runs[i].position == i % 2 + 1
    ensures runs[i].harness == (if i % 2 == 0 then orders[i / 2] else Other(orders[i / 2]))
  {
  }

  lemma PlanHasNoClash(orders: seq<Harness>, schedule: Schedule, runs: seq<Measured>)
    requires IsPlan(orders, schedule) && Measures(schedule, runs)
    ensures !HasClash(runs)
  {
    forall i: nat, j: nat ensures !Clash(runs, i, j) {
      if Clash(runs, i, j) {
        MeasuredRun(orders, schedule, runs, i);
        MeasuredRun(orders, schedule, runs, j);
        PairIdIsUnique(i / 2 + 1, j / 2 + 1);
      }
    }
  }

  lemma MatchIsPair(orders: seq<Harness>, schedule: Schedule, runs: seq<Measured>, row: Row) returns (k: nat)
    requires IsPlan(orders, schedule) && Measures(schedule, runs) && Matched(runs, row)
    ensures k < |orders| && row.pairId == PairId(k + 1)
    ensures row.chadex.position == if orders[k] == Chadex then 1 else 2
  {
    var i: nat :| i < |runs| && runs[i] == row.chadex;
    MeasuredRun(orders, schedule, runs, i);
    k := i / 2;
  }

  /** The run at position `p + 1` of pair `k`. */
  lemma MeasuredAt(orders: seq<Harness>, schedule: Schedule, runs: seq<Measured>, k: nat, p: nat, i: nat, id: string)
    requires IsPlan(orders, schedule) && Measures(schedule, runs) && k < |orders| && p < 2 && i == 2 * k + p && id == PairId(k + 1)
    ensures i < |runs| && runs[i].pairId == id && id != "" && runs[i].latency.Some?
    ensures runs[i].harness == if p == 0 then orders[k] else Other(orders[k])
  {
    assert i / 2 == k && i % 2 == p;
    MeasuredRun(orders, schedule, runs, i);
  }

  /** Two runs of one pair, by the two harnesses, both with numeric latencies. */
  ghost predicate Facing(first: Measured, second: Measured, id: string) {
    && first.pairId == second.pairId == id && id != "" && second.harness == Other(first.harness)
    && first.latency.Some? && second.latency.Some?
  }

  lemma FacingRunsMatch(runs: seq<Measured>, first: Measured, second: Measured, id: string) returns (row: Row)
    requires first in runs && second in runs && Facing(first, second, id)
    ensures Matched(runs, row) && row.pairId == id
  {
    var chadex, webcodex := if first.harness == Chadex then first else second, if first.harness == Chadex then second else first;
    row := Row(id, chadex, webcodex, Rounded(chadex.latency.value - webcodex.latency.value));
  }

  lemma PairFaces(orders: seq<Harness>, schedule: Schedule, runs: seq<Measured>, k: nat)
    requires IsPlan(orders, schedule) && Measures(schedule, runs) && k < |orders|
    ensures 2 * k + 1 < |runs| && Facing(runs[2 * k], runs[2 * k + 1], PairId(k + 1))
  {
    var i, id := 2 * k, PairId(k + 1);
    MeasuredAt(orders, schedule, runs, k, 0, i, id);
    MeasuredAt(orders, schedule, runs, k, 1, i + 1, id);
  }

  lemma PairIsMatched(orders: seq<Harness>, schedule: Schedule, runs: seq<Measured>, k: nat) returns (row: Row)
    requires IsPlan(orders, schedule) && Measures(schedule, runs) && k < |orders|
    ensures Matched(runs, row) && row.pairId == PairId(k + 1)
  {
    PairFaces(orders, schedule, runs, k);
    row := FacingRunsMatch(runs, runs[2 * k], runs[2 * k + 1], PairId(k + 1));
  }

  /** The rows of a finished campaign are its pairs. */
  ghost predicate RowsOf(runs: seq<Measured>, rows: seq<Row>) {
    Ascending(rows) && forall row :: row in rows <==> Matched(runs, row)
  }

  predicate ChadexLeads(row: Row) {
    row.chadex.position == 1
  }

  function Count(rows: seq<Row>, p: Row -> bool): nat {
    if rows == [] then 0 else Count(rows[..|rows| - 1], p) + (if p(rows[|rows| - 1]) then 1 else 0)
  }

  /** The ids of the rows that satisfy `p`. */
  ghost function RowIds(rows: seq<Row>, p: Row -> bool): set<string> {
    if rows == [] then {} else RowIds(rows[..|rows| - 1], p) + (if p(rows[|rows| - 1]) then {rows[|rows| - 1].pairId} else {})
  }

  /** The ids of the pairs whose first harness satisfies `q`, pair `k` being called `name(k)`. */
  ghost function OrderIds(orders: seq<Harness>, name: nat -> string, q: Harness -> bool): set<string> {
    if orders == [] then {}
    else OrderIds(orders[..|orders| - 1], name, q) + (if q(orders[|orders| - 1]) then {name(|orders| - 1)} else {})
  }

  lemma {:induction false} RowIdsAre(rows: seq<Row>, p: Row -> bool)
    ensures forall id :: id in RowIds(rows, p) <==> exists row :: row in rows && p(row) && row.pairId == id
  {
    if rows != [] {
      RowIdsAre(rows[..|rows| - 1], p);
      assert rows == rows[..|rows| - 1] + [rows[|rows| - 1]];
    }
  }

  lemma {:induction false} OrderIdsAre(orders: seq<Harness>, name: nat -> string, q: Harness -> bool)
    ensures forall id :: id in OrderIds(orders, name, q) <==> exists k: nat :: k < |orders| && q(orders[k]) && name(k) == id
  {
    if orders != [] {
      OrderIdsAre(orders[..|orders| - 1], name, q);
    }
  }

  lemma {:induction false} RowIdsCount(rows: seq<Row>, p: Row -> bool)
    requires Ascending(rows)
    ensures |RowIds(rows, p)| == Count(rows, p)
  {
    if rows != [] {
      var rest, last := rows[..|rows| - 1], rows[|rows| - 1];
      RowIdsCount(rest, p);
      RowIdsAre(rest, p);
      LexTrichotomy(last.pairId, last.pairId);
      assert last.pairId !in RowIds(rest, p);
    }
  }

  /** How many of the orders satisfy `q`. */
  ghost function Leading(orders: multiset<Harness>, q: Harness -> bool): nat {
    (if q(Chadex) then orders[Chadex] else 0) + (if q(WebCodex) then orders[WebCodex] else 0)
  }

  lemma LeadingGrows(orders: multiset<Harness>, last: Harness, q: Harness -> bool)
    ensures Leading(orders + multiset{last}, q) == Leading(orders, q) + if q(last) then 1 else 0
  {
    assert last == Chadex || last == WebCodex;
  }

  lemma {:induction false} OrderIdsCount(orders: seq<Harness>, name: nat -> string, q: Harness -> bool)
    requires forall j: nat, k: nat :: name(j) == name(k) ==> j == k
    ensures |OrderIds(orders, name, q)| == Leading(multiset(orders), q)
  {
    if orders != [] {
      var n := |orders| - 1;
      var front, last := orders[..n], orders[n];
      OrderIdsCount(front, name, q);
      assert name(n) !in OrderIds(front, name, q) by { OrderIdsAre(front, name, q); }
      assert multiset(orders) == multiset(front) + multiset{last} by { assert orders == front + [last]; }
      LeadingGrows(multiset(front), last, q);
    }
  }

  ghost predicate HasRow(rows: seq<Row>, id: string) {
    exists row :: row in rows && row.pairId == id
  }

  /** Row `row` is that of pair `k`. */
  predicate Stands(orders: seq<Harness>, name: nat -> string, row: Row, k: nat) {
    k < |orders| && row.pairId == name(k) && (row.chadex.position == 1 <==> orders[k] == Chadex)
  }

  /** Rows that stand one to one for the pairs are counted like them. */
  lemma RowsCountPairs(rows: seq<Row>, orders: seq<Harness>, name: nat -> string, p: Row -> bool, q: Harness -> bool)
    requires Ascending(rows) && forall j: nat, k: nat :: name(j) == name(k) ==> j == k
    requires forall row :: row in rows ==> exists k: nat :: Stands(orders, name, row, k)
    requires forall k: nat :: k < |orders| ==> HasRow(rows, name(k))
    requires forall row, k: nat :: row in rows && Stands(orders, name, row, k) ==> (p(row) <==> q(orders[k]))
    ensures Count(rows, p) == |OrderIds(orders, name, q)|
  {
    RowIdsAre(rows, p);
    OrderIdsAre(orders, name, q);
    forall id | id in RowIds(rows, p) ensures id in OrderIds(orders, name, q) {
      var row :| row in rows && p(row) && row.pairId == id;
      var k: nat :| Stands(orders, name, row, k);
    }
    forall id | id in OrderIds(orders, name, q) ensures id in RowIds(rows, p) {
      var k: nat :| k < |orders| && q(orders[k]) && name(k) == id;
      var row :| row in rows && row.pairId == name(k);
      var l: nat :| Stands(orders, name, row, l);
    }
    assert RowIds(rows, p) == OrderIds(orders, name, q);
    RowIdsCount(rows, p);
  }

  lemma {:induction false} CountAll(rows: seq<Row>, p: Row -> bool)
    requires forall row :: p(row)
    ensures Count(rows, p) == |rows|
  {
    if rows != [] { CountAll(rows[..|rows| - 1], p); }
  }

  lemma {:induction false} TwoHarnesses(orders: seq<Harness>)
    ensures multiset(orders)[Chadex] + multiset(orders)[WebCodex] == |orders|
  {
    if orders != [] {
      var rest, last := orders[..|orders| - 1], orders[|orders| - 1];
      TwoHarnesses(rest);
      assert orders == rest + [last] && (last == Chadex || last == WebCodex);
      assert multiset(orders) == multiset(rest) + multiset{last};
    }
  }

  function PairName(k: nat): string {
    PairId(k + 1)
  }

  lemma NamesAreUnique(name: nat -> string)
    requires forall k: nat :: name(k) == PairId(k + 1)
    ensures forall j: nat, k: nat :: name(j) == name(k) ==> j == k
  {
    forall j: nat, k: nat | name(j) == name(k) ensures j == k {
      PairIdIsUnique(j + 1, k + 1);
    }
  }

  /** The rows of a finished campaign stand one to one for its pairs. */
  lemma RowsStand(orders: seq<Harness>, schedule: Schedule, runs: seq<Measured>, rows: seq<Row>, name: nat -> string)
    requires IsPlan(orders, schedule) && Measures(schedule, runs) && RowsOf(runs, rows)
    requires forall k: nat :: name(k) == PairId(k + 1)
    ensures forall row :: row in rows ==> exists k: nat :: Stands(orders, name, row, k)
    ensures forall k: nat :: k < |orders| ==> HasRow(rows, name(k))
  {
    forall row | row in rows ensures exists k: nat :: Stands(orders, name, row, k) {
      var k := MatchIsPair(orders, schedule, runs, row);
      assert Stands(orders, name, row, k);
    }
    forall k: nat | k < |orders| ensures HasRow(rows, name(k)) {
      var row := PairIsMatched(orders, schedule, runs, k);
      assert row in rows && row.pairId == name(k);
    }
  }

  /** Rows that stand one to one for the pairs: as many, and led by Chadex as often. */
  lemma CountsAgree(rows: seq<Row>, orders: seq<Harness>, name: nat -> string)
    requires Ascending(rows) && forall j: nat, k: nat :: name(j) == name(k) ==> j == k
    requires forall row :: row in rows ==> exists k: nat :: Stands(orders, name, row, k)
    requires forall k: nat :: k < |orders| ==> HasRow(rows, name(k))
    ensures |rows| == |orders| && Count(rows, ChadexLeads) == multiset(orders)[Chadex]
  {
    var every := (row: Row) => true;
    var any, leads := (h: Harness) => true, (h: Harness) => h == Chadex;
    RowsCountPairs(rows, orders, name, every, any);
    OrderIdsCount(orders, name, any);
    CountAll(rows, every);
    TwoHarnesses(orders);
    RowsCountPairs(rows, orders, name, ChadexLeads, leads);
    OrderIdsCount(orders, name, leads);
  }

  /** A finished campaign with numeric latencies: the comparison never refuses it, gives one row
      per pair, and shows each harness first as often as the plan does. */
  lemma FinishedCampaign(orders: seq<Harness>, schedule: Schedule, runs: seq<Measured>, rows: seq<Row>)
    requires IsPlan(orders, schedule) && Measures(schedule, runs) && RowsOf(runs, rows)
    ensures !HasClash(runs) && |rows| == |orders| && Count(rows, ChadexLeads) == multiset(orders)[Chadex]
  {
    PlanHasNoClash(orders, schedule, runs);
    NamesAreUnique(PairName);
    RowsStand(orders, schedule, runs, rows, PairName);
    CountsAgree(rows, orders, PairName);
  }

  /** End to end: whatever crashes and resumptions came before, once a process has gone through a
      balanced plan, the comparison of its manifest succeeds, has one row per pair, and Chadex went
      first in half of them. */
  lemma CampaignCompares(run: Run, orders: seq<Harness>, runs: seq<Measured>, rows: seq<Row>)
    requires IsRun(run) && Now(run).process.Some? && Now(run).process.value.at == Choosing
    requires Now(run).process.value.cursor == |Now(run).process.value.schedule|
    requires Now(run).disk.plan.Some? ==> IsPlan(orders, Now(run).disk.plan.value)
    requires forall h :: multiset(orders)[h] == |orders| / 2
    requires Measures(Saved(Now(run).disk), runs) && RowsOf(runs, rows)
    ensures !HasClash(runs) && |rows| == |orders| && Count(rows, ChadexLeads) == |orders| / 2
  {
    CompletionRecordsAll(run);
    FinishedCampaign(orders, Saved(Now(run).disk), runs, rows);
  }
}
