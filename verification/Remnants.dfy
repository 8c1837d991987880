/** What a pass of `wait_gone` can and cannot see of the processes that are really there. */
module Remnants {
  import opened Basics
  import opened ProcessTree
  import opened ProcessWorld
  import opened Ownership

  // ------------------------------------------------------------- what is gone

  /** The inventory shows incarnation `i` without a creation date. */
  ghost predicate Undated(w: World, rows: Inventory, i: nat)
    requires Snapshot(w, rows) && i < |w.history|
  {
    var pid := w.history[i].pid;
    pid in rows && !Known(rows[pid]) && Holder(w, rows, pid) == i
  }

  /** A recorded incarnation that waiting reports as gone is live only if the inventory shows its
      PID without a creation date. */
  lemma GoneUnlessUndated(w: World, rows: Inventory, owned: Owned, i: nat)
    requires WorldInv(w) && Snapshot(w, rows) && Recorded(w, owned, i) && Present(owned, rows) == {}
    ensures i in w.live <==> Undated(w, rows, i)
  {
    var pid := w.history[i].pid;
    assert w.history[i] in w.history;
    if i in w.live {
      HolderIsUnique(w, rows, i);
      assert pid !in Present(owned, rows);
    }
  }

  // ------------------------------------------------------------------ orphans

  ghost predicate LiveChild(w: World, c: nat, i: nat) {
    c in w.live && c < |w.history| && w.history[c].parent == Some(i)
  }

  lemma ChildIsNoOlder(w: World, c: nat, i: nat)
    requires WorldInv(w) && c < |w.history| && w.history[c].parent == Some(i)
    ensures i < c && w.history[i].pid == w.history[c].parentPid != w.history[c].pid
    ensures LexLeq(w.history[i].created, w.history[c].created) && !LexLess(w.history[c].created, w.history[i].created)
  {
    assert ParentPrecedes(w, c);
    assert w.history[c] in w.history && w.history[i] in w.history;
    assert w.history[i].ticks <= w.history[c].ticks;
  }

  /** A live child of a live process in the tree is in the tree. */
  lemma ChildJoinsTree(w: World, rows: Inventory, roots: set<int>, c: nat, i: nat)
    requires WorldInv(w) && Snapshot(w, rows) && !Blocked(rows, roots) && LiveChild(w, c, i) && i in w.live && i < |w.history|
    requires w.history[i].pid in Tree(rows, roots)
    ensures w.history[c].pid in Tree(rows, roots)
  {
    var p, pid := w.history[i].pid, w.history[c].pid;
    HolderIsUnique(w, rows, i);
    HolderIsUnique(w, rows, c);
    ChildIsNoOlder(w, c, i);
    TreeIsClosed(rows, roots);
    assert !Blocks(rows, roots, pid);
    assert pid !in roots ==> Adopts(rows, p, pid);
  }

  /** A recorded date that the inventory shows is in the tree of the pass. */
  lemma SeenIsInTree(rows: Inventory, owned: Owned, pid: int)
    requires pid in Polled(owned, rows) && pid in rows && Known(rows[pid]) && rows[pid].created == Polled(owned, rows)[pid].created
    ensures pid in Tree(rows, Present(owned, rows))
  {
    var roots := Present(owned, rows);
    TreeIsClosed(rows, roots);
    assert pid !in Tree(rows, roots) ==> pid in roots;
  }

  /** While a recorded incarnation is shown with its date, its live children are in the tree. */
  lemma SeenKeepsChildren(w: World, rows: Inventory, owned: Owned, c: nat, i: nat)
    requires WorldInv(w) && Snapshot(w, rows) && !Blocked(rows, Present(owned, rows))
    requires LiveChild(w, c, i) && Recorded(w, Polled(owned, rows), i)
    requires w.history[i].pid in rows && Known(rows[w.history[i].pid]) && Holder(w, rows, w.history[i].pid) == i
    ensures w.history[c].pid in Polled(owned, rows)
  {
    SeenIsInTree(rows, owned, w.history[i].pid);
    ChildJoinsTree(w, rows, Present(owned, rows), c, i);
  }

  /** A PID seen under its recorded date before the pass still stands for the incarnation recorded
      by the pass. */
  lemma PresentStaysRecorded(w: World, rows: Inventory, owned: Owned, i: nat)
    requires WorldInv(w) && Snapshot(w, rows) && Recorded(w, Polled(owned, rows), i)
    requires w.history[i].pid in Present(owned, rows)
    ensures Known(rows[w.history[i].pid]) && Holder(w, rows, w.history[i].pid) == i
  {
    var pid := w.history[i].pid;
    TreeIsClosed(rows, Present(owned, rows));
    assert pid in Tree(rows, Present(owned, rows));
    SeenIsRecorded(w, rows, pid, rows[pid], i);
  }

  /** A live, unrecorded child of a recorded incarnation: its creator's PID is no longer held by the
      creator, if the inventory dates it at all. */
  lemma OrphanLostCreator(w: World, rows: Inventory, owned: Owned, c: nat, i: nat)
    requires WorldInv(w) && Snapshot(w, rows) && !Blocked(rows, Present(owned, rows))
    requires LiveChild(w, c, i) && w.history[c].pid !in Polled(owned, rows) && Recorded(w, Polled(owned, rows), i)
    ensures w.history[i].pid !in Present(owned, rows)
    ensures w.history[i].pid in rows && Known(rows[w.history[i].pid]) ==> Holder(w, rows, w.history[i].pid) != i
  {
    var p := w.history[i].pid;
    if p in Present(owned, rows) { PresentStaysRecorded(w, rows, owned, i); }
    if p in rows && Known(rows[p]) && Holder(w, rows, p) == i { SeenKeepsChildren(w, rows, owned, c, i); }
  }

  /** Exactly which live children of recorded incarnations, their PIDs not being recorded, the orphan
      check lets through: those dated like the present holder of their creator's PID. Rows whose PID
      is recorded, under whatever date, always pass. */
  lemma OrphanPassesExactly(w: World, rows: Inventory, owned: Owned, c: nat, i: nat)
    requires WorldInv(w) && Snapshot(w, rows) && !Blocked(rows, Present(owned, rows))
    requires LiveChild(w, c, i) && Recorded(w, Polled(owned, rows), i)
    ensures w.history[c].pid in rows
    ensures Inspect(Polled(owned, rows), rows, Present(owned, rows), w.history[c].pid) == Clear
            <==> w.history[c].pid in Polled(owned, rows) || SameDate(rows, w.history[c].pid)
  {
    var p, pid := w.history[i].pid, w.history[c].pid;
    HolderIsUnique(w, rows, c);
    if pid !in Polled(owned, rows) {
      ChildIsNoOlder(w, c, i);
      OrphanLostCreator(w, rows, owned, c, i);
      if p in rows && Known(rows[p]) && Known(rows[pid]) { AdoptionExact(w, rows, pid); }
    }
  }

  /** A live child of a recorded incarnation whose PID is not recorded, dated like the present holder
      of its creator's PID. */
  ghost predicate TiedOrphan(w: World, rows: Inventory, owned: Owned, c: nat, i: nat) {
    && LiveChild(w, c, i) && Recorded(w, owned, i)
    && w.history[c].pid !in owned && SameDate(rows, w.history[c].pid)
  }

  /** A live child of a recorded incarnation whose PID is recorded under another date than its own,
      the one the inventory shows if it shows any. */
  ghost predicate SkippedKey(w: World, rows: Inventory, owned: Owned, c: nat, i: nat) {
    && LiveChild(w, c, i) && Recorded(w, owned, i)
    && var pid := w.history[c].pid;
       && pid in owned && pid in rows
       && (if Known(rows[pid]) then rows[pid].created else w.history[c].created) != owned[pid].created
  }

  /** Every live child of a recorded incarnation is recorded itself. */
  ghost predicate NoChildLeft(w: World, owned: Owned) {
    forall c: nat, i: nat :: LiveChild(w, c, i) && Recorded(w, owned, i) ==> Recorded(w, owned, c)
  }

  ghost predicate Slips(w: World, rows: Inventory, owned: Owned, c: nat, i: nat) {
    TiedOrphan(w, rows, owned, c, i) || SkippedKey(w, rows, owned, c, i)
  }

  ghost predicate NoneSlips(w: World, rows: Inventory, owned: Owned) {
    forall c: nat, i: nat :: !Slips(w, rows, owned, c, i)
  }

  /** After a pass that does not raise, a live child of a recorded incarnation is recorded unless it
      is tied or its PID is recorded under another date. */
  lemma ChildRecordedExactly(w: World, rows: Inventory, owned: Owned, c: nat, i: nat)
    requires WorldInv(w) && Snapshot(w, rows) && !Blocked(rows, Present(owned, rows))
    requires NoOrphan(Polled(owned, rows), rows, Present(owned, rows))
    requires LiveChild(w, c, i) && Recorded(w, Polled(owned, rows), i)
    ensures Recorded(w, Polled(owned, rows), c) <==> !Slips(w, rows, Polled(owned, rows), c, i)
  {
    HolderIsUnique(w, rows, c);
    OrphanPassesExactly(w, rows, owned, c, i);
  }

  lemma ChildrenRecordedExactly(w: World, rows: Inventory, owned: Owned)
    requires WorldInv(w) && Snapshot(w, rows) && !Blocked(rows, Present(owned, rows))
    requires NoOrphan(Polled(owned, rows), rows, Present(owned, rows))
    ensures NoChildLeft(w, Polled(owned, rows)) <==> NoneSlips(w, rows, Polled(owned, rows))
  {
    var owned' := Polled(owned, rows);
    if c: nat, i: nat :| Slips(w, rows, owned', c, i) {
      assert LiveChild(w, c, i) && Recorded(w, owned', i);
      ChildRecordedExactly(w, rows, owned, c, i);
    } else {
      forall c: nat, i: nat | LiveChild(w, c, i) && Recorded(w, owned', i) ensures Recorded(w, owned', c) {
        ChildRecordedExactly(w, rows, owned, c, i);
      }
    }
  }

  /** A pass that does not raise leaves every live child of a recorded incarnation recorded if and
      only if no orphan is tied and none is on a PID recorded under another date. When the pass
      reports nothing remaining, no recorded incarnation is live either, unless the inventory shows
      its PID without a creation date. */
  lemma ZeroRemnant(w: World, rows: Inventory, owned: Owned)
    requires WorldInv(w) && Snapshot(w, rows) && !Blocked(rows, Present(owned, rows))
    requires NoOrphan(Polled(owned, rows), rows, Present(owned, rows))
    ensures NoChildLeft(w, Polled(owned, rows)) <==> NoneSlips(w, rows, Polled(owned, rows))
    ensures Present(Polled(owned, rows), rows) == {} ==>
              forall i: nat :: Recorded(w, Polled(owned, rows), i) ==> (i in w.live <==> Undated(w, rows, i))
  {
    var owned' := Polled(owned, rows);
    if Present(owned', rows) == {} {
      forall i: nat | Recorded(w, owned', i) ensures i in w.live <==> Undated(w, rows, i) {
        GoneUnlessUndated(w, rows, owned', i);
      }
    }
    ChildrenRecordedExactly(w, rows, owned);
  }

  /** The zero-remnant guarantee at any pass of any run. */
  lemma ZeroRemnantInRuns(t: Clock, run: Run)
    requires IsRun(t, run) && run.Then? && run.action.Waiting?
    requires NoOrphan(run.state.owned, run.action.rows, Present(run.before.state.owned, run.action.rows))
    ensures NoChildLeft(run.state.world, run.state.owned) <==> NoneSlips(run.state.world, run.action.rows, run.state.owned)
    ensures var s, rows := run.state, run.action.rows;
            && Snapshot(s.world, rows)
            && (Present(s.owned, rows) == {} ==>
                  forall i: nat :: Recorded(s.world, s.owned, i) ==> (i in s.world.live <==> Undated(s.world, rows, i)))
  {
    RunKeepsWorld(t, run);
    ZeroRemnant(run.state.world, run.action.rows, run.before.state.owned);
  }

  /** What an empty answer leaves open: a live descendant of the root, other than the root, is shown
      undated, tied, on a PID recorded under another date, or the child of an incarnation that is not
      recorded. */
  lemma EmptyAnswerLeaves(t: Clock, run: Run, root: nat, c: nat)
    requires IsRun(t, run) && run.Then? && run.action.Waiting?
    requires NoOrphan(run.state.owned, run.action.rows, Present(run.before.state.owned, run.action.rows))
    requires Present(run.state.owned, run.action.rows) == {}
    requires c in run.state.world.live && c != root && DescendsFrom(run.state.world, c, root)
    ensures var s, rows := run.state, run.action.rows;
            && c < |s.world.history| && s.world.history[c].parent.Some? && Snapshot(s.world, rows)
            && var i := s.world.history[c].parent.value;
               Undated(s.world, rows, c) || Slips(s.world, rows, s.owned, c, i) || !Recorded(s.world, s.owned, i)
  {
    RunKeepsWorld(t, run);
    var w, rows, owned := run.state.world, run.action.rows, run.before.state.owned;
    var i := w.history[c].parent.value;
    if Recorded(w, Polled(owned, rows), i) { ChildRecordedExactly(w, rows, owned, c, i); }
    if Recorded(w, Polled(owned, rows), c) { GoneUnlessUndated(w, rows, Polled(owned, rows), c); }
  }

  // ------------------------------------------------------ what a pass can see

  /** `i` is tied to one of `roots` by creators that are all still alive. */
  ghost predicate Linked(w: World, i: nat, roots: set<int>)
    decreases i
  {
    && i in w.live && i < |w.history|
    && (w.history[i].pid in roots
        || (w.history[i].parent.Some? && w.history[i].parent.value < i && Linked(w, w.history[i].parent.value, roots)))
  }

  ghost function LinkedRows(w: World, rows: Inventory, roots: set<int>): set<int>
    requires Snapshot(w, rows)
  {
    set pid | pid in rows && Linked(w, Holder(w, rows, pid), roots)
  }

  lemma {:induction false} LinkedIsInTree(w: World, rows: Inventory, roots: set<int>, i: nat)
    requires WorldInv(w) && Snapshot(w, rows) && !Blocked(rows, roots) && Linked(w, i, roots)
    ensures w.history[i].pid in Tree(rows, roots)
    decreases i
  {
    if w.history[i].pid in roots {
      HolderIsUnique(w, rows, i);
      TreeIsClosed(rows, roots);
    } else {
      var p := w.history[i].parent.value;
      LinkedIsInTree(w, rows, roots, p);
      ChildJoinsTree(w, rows, roots, i, p);
    }
  }

  lemma LinkIsInherited(w: World, rows: Inventory, roots: set<int>)
    requires WorldInv(w) && Snapshot(w, rows)
    ensures Inherited(w, rows, LinkedRows(w, rows, roots)) && roots * rows.Keys <= LinkedRows(w, rows, roots)
  {
    forall pid | TrueChild(w, rows, pid) && rows[pid].parent in LinkedRows(w, rows, roots)
      ensures pid in LinkedRows(w, rows, roots)
    {
      assert ParentPrecedes(w, Holder(w, rows, pid));
    }
  }

  /** `descendants` finds every process linked to a live root, and nothing else if and only if no
      other row is tied to its tree. */
  lemma TreeIsExact(w: World, rows: Inventory, roots: set<int>)
    requires WorldInv(w) && Snapshot(w, rows) && !Blocked(rows, roots)
    ensures LinkedRows(w, rows, roots) <= Tree(rows, roots)
    ensures Tree(rows, roots) == LinkedRows(w, rows, roots)
            <==> forall pid :: !TiedOutside(rows, roots, LinkedRows(w, rows, roots), pid)
  {
    LinkIsInherited(w, rows, roots);
    TreeStaysExactly(w, rows, roots, LinkedRows(w, rows, roots));
    forall pid | pid in LinkedRows(w, rows, roots) ensures pid in Tree(rows, roots) {
      LinkedIsInTree(w, rows, roots, Holder(w, rows, pid));
    }
  }

  /** The sample of a suspended root holds the root and nothing else, if and only if no process left
      behind by an earlier holder of its PID carries its date. */
  lemma SuspendedSample(w: World, rows: Inventory, root: nat)
    requires WorldInv(w) && Snapshot(w, rows) && root in w.live && root in w.suspended && root < |w.history|
    ensures var pid := w.history[root].pid;
            Tree(rows, {pid}) == {pid} <==> forall c :: c != pid && c in rows && rows[c].parent == pid ==> !SameDate(rows, c)
  {
    var pid := w.history[root].pid;
    HolderIsUnique(w, rows, root);
    TreeIsClosed(rows, {pid});
    forall c | c in rows && c != pid && rows[c].parent == pid ensures Adopts(rows, pid, c) <==> SameDate(rows, c) {
      assert ParentPrecedes(w, Holder(w, rows, c));
      if Known(rows[c]) && Known(rows[pid]) { AdoptionExact(w, rows, c); }
    }
    if forall c :: c != pid && c in rows && rows[c].parent == pid ==> !SameDate(rows, c) {
      TreeIsLeast(rows, {pid}, {pid});
    }
  }

  // ---------------------------------------------------------------- ambiguity

  /** `c` is a live process outside the record that has lost its creator and started no earlier, to
      the microsecond, than the incarnation `i` recorded under the creator's PID; no present holder
      of that PID shares its date. */
  ghost predicate Orphaned(w: World, rows: Inventory, owned: Owned, c: nat, i: nat) {
    && c in w.live && c < |w.history| && w.history[c].pid !in owned && !SameDate(rows, w.history[c].pid)
    && Recorded(w, owned, i) && w.history[i].pid == w.history[c].parentPid && Micros(w.history[i]) <= Micros(w.history[c])
    && (w.history[c].parent.Some? ==> w.history[c].parent.value !in w.live)
  }

  lemma OrphanIsAmbiguous(w: World, rows: Inventory, owned: Owned, c: nat, i: nat)
    requires WorldInv(w) && Snapshot(w, rows) && (forall pid :: pid in rows ==> Known(rows[pid]))
    requires Orphaned(w, rows, Polled(owned, rows), c, i)
    ensures w.history[c].pid in rows
    ensures Inspect(Polled(owned, rows), rows, Present(owned, rows), w.history[c].pid) == Ambiguous
  {
    var p, pid := w.history[i].pid, w.history[c].pid;
    HolderIsUnique(w, rows, c);
    assert w.history[c] in w.history && w.history[i] in w.history;
    if p in rows { AdoptionExact(w, rows, pid); }
    if p in Present(owned, rows) { PresentStaysRecorded(w, rows, owned, i); }
  }

  lemma AmbiguousIsOrphan(w: World, rows: Inventory, owned: Owned, live: set<int>, pid: int, i: nat)
    requires WorldInv(w) && Snapshot(w, rows) && (forall q :: q in rows ==> Known(rows[q]))
    requires pid in rows && Inspect(owned, rows, live, pid) == Ambiguous
    requires Identifies(w, rows[pid].parent, owned[rows[pid].parent], i)
    ensures Orphaned(w, rows, owned, Holder(w, rows, pid), i)
  {
    var c, p := Holder(w, rows, pid), rows[pid].parent;
    assert w.history[c] in w.history && w.history[i] in w.history;
    if p in rows { AdoptionExact(w, rows, pid); }
    if w.history[c].parent.Some? && w.history[c].parent.value in w.live {
      ChildIsNoOlder(w, c, w.history[c].parent.value);
      HolderIsUnique(w, rows, w.history[c].parent.value);
    }
  }

  /** With every date known, waiting calls ownership ambiguous exactly when there is such an
      orphan. */
  lemma AmbiguityIsExact(w: World, rows: Inventory, owned: Owned)
    requires WorldInv(w) && Snapshot(w, rows) && (forall pid :: pid in rows ==> Known(rows[pid]))
    requires Genuine(w, Polled(owned, rows))
    ensures (exists pid :: pid in rows && Inspect(Polled(owned, rows), rows, Present(owned, rows), pid) == Ambiguous)
       <==> (exists c: nat, i: nat :: Orphaned(w, rows, Polled(owned, rows), c, i))
  {
    var live, owned' := Present(owned, rows), Polled(owned, rows);
    if pid :| pid in rows && Inspect(owned', rows, live, pid) == Ambiguous {
      var parent := rows[pid].parent;
      assert Exists(w, parent, owned'[parent]);
      var i: nat :| Identifies(w, parent, owned'[parent], i);
      AmbiguousIsOrphan(w, rows, owned', live, pid, i);
      assert Orphaned(w, rows, owned', Holder(w, rows, pid), i);
    }
    if c: nat, i: nat :| Orphaned(w, rows, owned', c, i) {
      OrphanIsAmbiguous(w, rows, owned, c, i);
    }
  }

  /** The same at every pass of every run. */
  lemma AmbiguityInRuns(t: Clock, run: Run)
    requires IsRun(t, run) && run.Then? && run.action.Waiting? && (forall pid :: pid in run.action.rows ==> Known(run.action.rows[pid]))
    ensures var s, rows := run.state, run.action.rows;
            (exists pid :: pid in rows && Inspect(s.owned, rows, Present(run.before.state.owned, rows), pid) == Ambiguous)
            <==> (exists c: nat, i: nat :: Orphaned(s.world, rows, s.owned, c, i))
  {
    RunKeepsWorld(t, run);
    RunKeepsGenuine(t, run);
    AmbiguityIsExact(run.state.world, run.action.rows, run.before.state.owned);
  }
}
