/** The interval union of scripts/phase15_attribution.py and its use for the time outside tools. */
module IntervalUnion {
  import opened Basics

  datatype Span = Span(start: int, end: int)

  /** The tuple order `sorted` uses. */
  predicate Leq(a: Span, b: Span) {
    a.start < b.start || (a.start == b.start && a.end <= b.end)
  }

  predicate Ascending(s: seq<Span>) {
    forall i, j :: 0 <= i < j < |s| ==> Leq(s[i], s[j])
  }

  function Insert(x: Span, s: seq<Span>): (r: seq<Span>)
    ensures multiset(r) == multiset(s) + multiset{x}
  {
    if s == [] || Leq(x, s[0]) then [x] + s
    else
      assert s == [s[0]] + s[1..];
      [s[0]] + Insert(x, s[1..])
  }

  lemma {:induction false} InsertKeepsOrder(x: Span, s: seq<Span>)
    requires Ascending(s)
    ensures Ascending(Insert(x, s))
  {
    if s != [] && !Leq(x, s[0]) {
      var rest := Insert(x, s[1..]);
      InsertKeepsOrder(x, s[1..]);
      forall i | 0 <= i < |rest| ensures Leq(s[0], rest[i]) {
        assert rest[i] in multiset(s[1..]) + multiset{x};
        assert rest[i] == x || rest[i] in s[1..];
      }
    }
  }

  function Sorted(s: seq<Span>): (r: seq<Span>)
    ensures Ascending(r) && multiset(r) == multiset(s)
  {
    if s == [] then []
    else
      assert s == [s[0]] + s[1..];
      InsertKeepsOrder(s[0], Sorted(s[1..]));
      Insert(s[0], Sorted(s[1..]))
  }

  /** There is one ascending order. */
  lemma {:induction false} AscendingIsUnique(a: seq<Span>, b: seq<Span>)
    requires Ascending(a) && Ascending(b) && multiset(a) == multiset(b)
    ensures a == b
  {
    assert |a| == |multiset(a)| == |b|;
    if a != [] {
      assert a[0] in multiset(b) && b[0] in multiset(a);
      assert a[0] == b[0];
      assert a == [a[0]] + a[1..] && b == [b[0]] + b[1..];
      assert multiset(a[1..]) == multiset(a) - multiset{a[0]};
      assert multiset(b[1..]) == multiset(b) - multiset{a[0]};
      AscendingIsUnique(a[1..], b[1..]);
    }
  }

  // ---------------------------------------------------------------- measure

  /** The integer points of a half-open interval. */
  function Points(start: int, end: int): (points: set<int>)
    ensures forall x :: x in points <==> start <= x < end
    ensures |points| == if start < end then end - start else 0
    decreases end - start
  {
    if start >= end then {} else Points(start, end - 1) + {end - 1}
  }

  /** The points covered by some span. */
  function Covered(spans: seq<Span>): set<int> {
    if spans == [] then {}
    else Covered(spans[..|spans| - 1]) + Points(spans[|spans| - 1].start, spans[|spans| - 1].end)
  }

  lemma {:induction false} CoveredMeans(spans: seq<Span>, x: int)
    ensures x in Covered(spans) <==> exists s :: s in spans && s.start <= x < s.end
  {
    if spans != [] {
      var front := spans[..|spans| - 1];
      CoveredMeans(front, x);
      assert spans == front + [spans[|spans| - 1]];
    }
  }

  /** Coverage does not depend on the order of the spans. */
  lemma CoveredIgnoresOrder(a: seq<Span>, b: seq<Span>)
    requires multiset(a) == multiset(b)
    ensures Covered(a) == Covered(b)
  {
    SameMembers(a, b);
    forall x ensures x in Covered(a) <==> x in Covered(b) {
      CoveredMeans(a, x);
      CoveredMeans(b, x);
    }
  }

  /** Span `k` is reversed and starts after every span before it has ended. */
  predicate ReversedOpener(s: seq<Span>, k: nat)
    requires k < |s|
  {
    s[k].end < s[k].start && forall j :: 0 <= j < k ==> s[j].end < s[k].start
  }

  /** What the reversed openers take away. */
  function Deficit(s: seq<Span>): nat {
    if s == [] then 0
    else
      var last := |s| - 1;
      Deficit(s[..last]) + if ReversedOpener(s, last) then s[last].start - s[last].end else 0
  }

  lemma {:induction false} DeficitIsZero(s: seq<Span>)
    ensures Deficit(s) == 0 <==> forall k :: 0 <= k < |s| ==> !ReversedOpener(s, k)
  {
    if s != [] {
      var front := s[..|s| - 1];
      DeficitIsZero(front);
      assert forall k :: 0 <= k < |front| ==> (ReversedOpener(front, k) <==> ReversedOpener(s, k));
    }
  }

  // ------------------------------------------------------------------ sweep

  function Total(merged: seq<Span>): int {
    if merged == [] then 0
    else Total(merged[..|merged| - 1]) + merged[|merged| - 1].end - merged[|merged| - 1].start
  }

  lemma TotalOfUpdate(merged: seq<Span>, x: Span)
    ensures Total(merged + [x]) == Total(merged) + x.end - x.start
    ensures merged != [] ==> Total(merged[|merged| - 1 := x]) == Total(merged[..|merged| - 1]) + x.end - x.start
  {
  }

  /** How the last block stands to the spans swept so far: they have all ended, one of them where
      the block ends, and the block itself is covered. */
  ghost predicate LastBlock(swept: seq<Span>, block: Span) {
    && (forall s :: s in swept ==> s.end <= block.end || s.end < block.start)
    && (exists s :: s in swept && s.end == block.end)
    && Points(block.start, block.end) <= Covered(swept)
  }

  /** The covered points less the deficit. */
  ghost function Net(spans: seq<Span>): int {
    |Covered(spans)| - Deficit(spans)
  }

  lemma CoveredGrows(swept: seq<Span>, s: Span)
    ensures Covered(swept + [s]) == Covered(swept) + Points(s.start, s.end)
  {
    assert (swept + [s])[..|swept|] == swept;
  }

  lemma DeficitGrows(swept: seq<Span>, s: Span)
    ensures Deficit(swept + [s]) == Deficit(swept)
              + if s.end < s.start && (forall t :: t in swept ==> t.end < s.start) then s.start - s.end else 0
  {
    var all := swept + [s];
    assert all[..|swept|] == swept;
    assert ReversedOpener(all, |swept|) <==> s.end < s.start && forall t :: t in swept ==> t.end < s.start by {
      assert forall j :: 0 <= j < |swept| ==> all[j] == swept[j] && swept[j] in swept;
    }
  }

  lemma OpeningAdds(swept: seq<Span>, s: Span)
    requires forall t :: t in swept ==> t.end < s.start
    ensures Net(swept + [s]) == Net(swept) + s.end - s.start
  {
    CoveredGrows(swept, s);
    DeficitGrows(swept, s);
    forall x | x in Covered(swept) ensures x !in Points(s.start, s.end) { CoveredMeans(swept, x); }
    assert |Covered(swept) + Points(s.start, s.end)| == |Covered(swept)| + |Points(s.start, s.end)|;
  }

  lemma ExtendingCovers(swept: seq<Span>, block: Span, s: Span)
    requires LastBlock(swept, block) && block.start <= s.start <= block.end
    ensures Covered(swept + [s]) == Covered(swept) + Points(block.end, s.end)
    ensures Covered(swept) !! Points(block.end, s.end)
  {
    CoveredGrows(swept, s);
    var covered, inside, beyond := Covered(swept), Points(block.start, block.end), Points(block.end, s.end);
    forall x | x in covered ensures x !in beyond { CoveredMeans(swept, x); }
    forall x ensures x in Points(s.start, s.end) ==> x in inside || x in beyond {
    }
    forall x ensures x in beyond ==> x in Points(s.start, s.end) {
    }
  }

  lemma ExtendingAdds(swept: seq<Span>, block: Span, s: Span)
    requires LastBlock(swept, block) && block.start <= s.start <= block.end
    ensures Net(swept + [s]) == Net(swept) + (if s.end > block.end then s.end - block.end else 0)
  {
    ExtendingCovers(swept, block, s);
    assert |Covered(swept) + Points(block.end, s.end)| == |Covered(swept)| + |Points(block.end, s.end)|;
    assert exists t :: t in swept && t.end == block.end;
    DeficitGrows(swept, s);
  }

  /** The blocks after one more span. */
  function Merged(merged: seq<Span>, s: Span): seq<Span> {
    if merged == [] || s.start > merged[|merged| - 1].end then merged + [s]
    else
      var last := merged[|merged| - 1];
      merged[|merged| - 1 := Span(last.start, if s.end > last.end then s.end else last.end)]
  }

  ghost predicate Swept(sorted: seq<Span>, k: nat, merged: seq<Span>)
    requires k <= |sorted|
  {
    && Total(merged) == Net(sorted[..k])
    && (merged == [] <==> k == 0)
    && (merged != [] ==>
          var last := merged[|merged| - 1];
          LastBlock(sorted[..k], last) && forall j :: k <= j < |sorted| ==> last.start <= sorted[j].start)
  }

  lemma SweepOpens(sorted: seq<Span>, k: nat, merged: seq<Span>)
    requires Ascending(sorted) && k < |sorted| && Swept(sorted, k, merged)
    requires merged == [] || sorted[k].start > merged[|merged| - 1].end
    ensures Swept(sorted, k + 1, merged + [sorted[k]])
  {
    var swept, s := sorted[..k], sorted[k];
    assert sorted[..k + 1] == swept + [s];
    assert forall t :: t in swept ==> t.end < s.start;
    OpeningAdds(swept, s);
    TotalOfUpdate(merged, s);
    BlockOpens(swept, s);
  }

  lemma BlockOpens(swept: seq<Span>, s: Span)
    requires forall t :: t in swept ==> t.end < s.start
    ensures LastBlock(swept + [s], s)
  {
    CoveredGrows(swept, s);
    assert s in swept + [s];
  }

  lemma BlockExtends(swept: seq<Span>, last: Span, s: Span)
    requires LastBlock(swept, last) && last.start <= s.start <= last.end
    ensures LastBlock(swept + [s], Span(last.start, if s.end > last.end then s.end else last.end))
  {
    var all, block := swept + [s], Span(last.start, if s.end > last.end then s.end else last.end);
    CoveredGrows(swept, s);
    forall x ensures x in Points(block.start, block.end) ==> x in Points(last.start, last.end) || x in Points(s.start, s.end) {
    }
    var t :| t in swept && t.end == last.end;
    assert t in all && s in all;
  }

  lemma SweepExtends(sorted: seq<Span>, k: nat, merged: seq<Span>)
    requires Ascending(sorted) && k < |sorted| && Swept(sorted, k, merged)
    requires merged != [] && sorted[k].start <= merged[|merged| - 1].end
    ensures Swept(sorted, k + 1, Merged(merged, sorted[k]))
  {
    var swept, s, last := sorted[..k], sorted[k], merged[|merged| - 1];
    var block := Span(last.start, if s.end > last.end then s.end else last.end);
    assert sorted[..k + 1] == swept + [s];
    ExtendingAdds(swept, last, s);
    TotalOfUpdate(merged, block);
    BlockExtends(swept, last, s);
  }

  /** The sum of the merged blocks is the number of covered points less the deficit of the reversed
      openers. */
  method Union(intervals: seq<Span>) returns (length: int)
    ensures length == |Covered(intervals)| - Deficit(Sorted(intervals))
  {
    var sorted := Sorted(intervals);
    var merged: seq<Span> := [];
    var k := 0;
    while k < |sorted|
      invariant 0 <= k <= |sorted| && Swept(sorted, k, merged)
    {
      var s := sorted[k];
      if merged == [] || s.start > merged[|merged| - 1].end {
        SweepOpens(sorted, k, merged);
        merged := merged + [s];
      } else {
        SweepExtends(sorted, k, merged);
        var last := merged[|merged| - 1];
        merged := merged[|merged| - 1 := Span(last.start, if s.end > last.end then s.end else last.end)];
      }
      k := k + 1;
    }
    assert sorted[..k] == sorted;
    CoveredIgnoresOrder(sorted, intervals);
    length := Total(merged);
  }

  /** The result does not depend on the order of the intervals. */
  lemma OrderIsIrrelevant(a: seq<Span>, b: seq<Span>)
    requires multiset(a) == multiset(b)
    ensures |Covered(a)| - Deficit(Sorted(a)) == |Covered(b)| - Deficit(Sorted(b))
  {
    CoveredIgnoresOrder(a, b);
    AscendingIsUnique(Sorted(a), Sorted(b));
  }

  /** The span is reversed and every span up to it, in the tuple order, ends before it starts. */
  ghost predicate TakesAway(intervals: seq<Span>, s: Span) {
    s in intervals && forall t :: t in intervals && Leq(t, s) ==> t.end < s.start
  }

  lemma OpenerTakesAway(sorted: seq<Span>, k: nat)
    requires Ascending(sorted) && k < |sorted|
    ensures ReversedOpener(sorted, k) <==> TakesAway(sorted, sorted[k])
  {
  }

  lemma SameMembers(a: seq<Span>, b: seq<Span>)
    requires multiset(a) == multiset(b)
    ensures forall s :: s in a <==> s in b
  {
    assert forall s :: (s in a <==> s in multiset(a)) && (s in b <==> s in multiset(b));
  }

  /** The result is the number of covered points exactly when no interval takes any away, and never
      more. */
  lemma MeasureExactly(intervals: seq<Span>)
    ensures Deficit(Sorted(intervals)) == 0 <==> forall s :: !TakesAway(intervals, s)
  {
    var sorted := Sorted(intervals);
    DeficitIsZero(sorted);
    SameMembers(sorted, intervals);
    assert forall s :: TakesAway(intervals, s) <==> TakesAway(sorted, s);
    forall k | 0 <= k < |sorted| ensures ReversedOpener(sorted, k) <==> TakesAway(sorted, sorted[k]) {
      OpenerTakesAway(sorted, k);
    }
    forall s | TakesAway(sorted, s) ensures exists k :: 0 <= k < |sorted| && ReversedOpener(sorted, k) {
      var k :| 0 <= k < |sorted| && sorted[k] == s;
    }
  }

  /** A reversed interval on its own makes the result negative. */
  lemma ReversedIntervalCounts()
    ensures |Covered([Span(5, 3)])| - Deficit(Sorted([Span(5, 3)])) == -2
  {
  }

  // ---------------------------------------------------------- outside tools

  /** The tool spans whose end is not before their start. */
  function Forward(pairs: seq<Span>): (spans: seq<Span>)
    ensures forall s :: s in spans <==> s in pairs && s.start <= s.end
  {
    if pairs == [] then []
    else (if pairs[0].start <= pairs[0].end then [pairs[0]] else []) + Forward(pairs[1..])
  }

  lemma {:induction false} CoveredInside(spans: seq<Span>, start: int, end: int)
    requires forall s :: s in spans ==> start <= s.start && s.end <= end
    ensures Covered(spans) <= Points(start, end)
  {
    forall x | x in Covered(spans) ensures start <= x < end { CoveredMeans(spans, x); }
  }

  /** The wall time outside tools: the uncovered part of the window, less what the tools covered
      outside it and less the length of a window that ends before it starts. */
  method OutsideTools(prompt: int, final: int, pairs: seq<Span>) returns (outside: Option<int>)
    ensures outside == None <==> Forward(pairs) == []
    ensures outside.Some? ==>
              var window, covered := Points(prompt, final), Covered(Forward(pairs));
              outside.value == |window - covered| - |covered - window| - |Points(final, prompt)|
    ensures outside.Some? && (forall s :: s in Forward(pairs) ==> prompt <= s.start && s.end <= final) ==>
              0 <= outside.value == |Points(prompt, final) - Covered(Forward(pairs))|
  {
    var spans := Forward(pairs);
    if spans == [] { return None; }
    var length := Union(spans);
    outside := Some(final - prompt - length);
    assert Deficit(Sorted(spans)) == 0 by {
      forall s ensures !TakesAway(spans, s) { assert Leq(s, s); }
      MeasureExactly(spans);
    }
    ghost var window, covered := Points(prompt, final), Covered(spans);
    Split(window, covered);
    if forall s :: s in spans ==> prompt <= s.start && s.end <= final {
      CoveredInside(spans, prompt, final);
      assert covered - window == {};
      assert spans[0] in spans;
      assert Points(final, prompt) == {};
    }
  }

  lemma GapIsFree(spans: seq<Span>, i: nat, x: int)
    requires Ascending(spans) && i + 1 < |spans| && spans[i].end <= x < spans[i + 1].start
    requires forall j :: 0 <= j < i ==> spans[j].end <= spans[i].end
    ensures x !in Covered(spans)
  {
    CoveredMeans(spans, x);
    forall s | s in spans ensures !(s.start <= x < s.end) {
      var k :| 0 <= k < |spans| && spans[k] == s;
      assert k > i + 1 ==> Leq(spans[i + 1], s);
    }
  }

  /** The pause listed between two successive spans is free of tool time exactly when no earlier
      span reaches beyond the first of the two. */
  lemma GapIsIdle(spans: seq<Span>, i: nat)
    requires Ascending(spans) && (forall s :: s in spans ==> s.start <= s.end)
    requires i + 1 < |spans| && spans[i + 1].start > spans[i].end
    ensures (forall x :: x in Covered(spans) ==> !(spans[i].end <= x < spans[i + 1].start))
            <==> forall j :: 0 <= j < i ==> spans[j].end <= spans[i].end
  {
    var end := spans[i].end;
    if forall j :: 0 <= j < i ==> spans[j].end <= end {
      forall x | end <= x < spans[i + 1].start ensures x !in Covered(spans) { GapIsFree(spans, i, x); }
    } else {
      var j :| 0 <= j < i && spans[j].end > end;
      assert spans[i] in spans && Leq(spans[j], spans[i]);
      assert spans[j] in spans && spans[j].start <= end < spans[j].end;
      CoveredMeans(spans, end);
    }
  }

  /** Such a pause, at any time: the second span is enclosed by the first, and the pause after it
      lies within the first. */
  lemma GapHoldsToolTime(t: int)
    ensures var spans := [Span(t, t + 4), Span(t + 1, t + 2), Span(t + 5, t + 6)];
            && Ascending(spans) && spans[2].start > spans[1].end
            && t + 3 in Covered(spans) && spans[1].end <= t + 3 < spans[2].start
  {
    var spans := [Span(t, t + 4), Span(t + 1, t + 2), Span(t + 5, t + 6)];
    assert spans[0] in spans && spans[0].start <= t + 3 < spans[0].end;
    CoveredMeans(spans, t + 3);
  }

  lemma Split(a: set<int>, b: set<int>)
    ensures |a| - |b| == |a - b| - |b - a|
  {
  }
}
