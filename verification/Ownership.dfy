/** The harness and the operating system interleaved: what a process group can ever record,
    terminate or report as gone. */
module Ownership {
  import opened Basics
  import opened ProcessTree
  import opened ProcessWorld

  /** `root` is the launched incarnation, `candidate` the sample of a suspended launch, `killed`
      everything terminated through a handle so far. */
  datatype State = State(world: World, root: Option<nat>, candidate: Owned, owned: Owned, killed: set<nat>)

  /** `row` is the recorded identity of incarnation `i`. */
  ghost predicate Identifies(w: World, pid: int, row: Row, i: nat) {
    i < |w.history| && w.history[i].pid == pid && w.history[i].created == row.created
  }

  ghost predicate Recorded(w: World, owned: Owned, i: nat) {
    i < |w.history| && w.history[i].pid in owned && Identifies(w, w.history[i].pid, owned[w.history[i].pid], i)
  }

  /** The identity is that of a true descendant of the root. */
  ghost predicate Belongs(w: World, root: nat, pid: int, row: Row) {
    exists i: nat :: Identifies(w, pid, row, i) && DescendsFrom(w, i, root)
  }

  /** Everything recorded is a true descendant of the root. */
  ghost predicate Sound(w: World, root: nat, owned: Owned) {
    forall pid :: pid in owned ==> Belongs(w, root, pid, owned[pid])
  }

  /** The identity is that of some incarnation. */
  ghost predicate Exists(w: World, pid: int, row: Row) {
    exists i: nat :: Identifies(w, pid, row, i)
  }

  ghost predicate Genuine(w: World, owned: Owned) {
    forall pid :: pid in owned ==> Exists(w, pid, owned[pid])
  }

  // ------------------------------------------------------------------- steps

  ghost predicate Init(t: Clock, s: State) {
    Faithful(t, s.world.history) && WorldInv(s.world) && s.root == None && s.candidate == map[] && s.owned == map[] && s.killed == {}
  }

  /** What can happen next: the operating system acts, or the harness does. */
  datatype Action =
    | Starting(process: Process)
    | Exiting(incarnation: nat)
    | Launching(process: Process, suspended: bool)    // Popen; its handle pins the PID
    | Resuming
    | Sampling(rows: Inventory)                       // the sample of launch_owned, into an empty dictionary
    | Adopting                                        // owned.update(candidate)
    | Remembering(rows: Inventory)                    // remember_tree
    | Waiting(rows: Inventory)                        // one pass of wait_gone
    | Terminating(incarnation: nat, pid: int)         // terminate_identity on a recorded pid
    | KillingRoot                                     // Popen.kill on a failed launch

  ghost function RootPid(s: State): int
    requires s.root.Some? && s.root.value < |s.world.history|
  {
    s.world.history[s.root.value].pid
  }

  ghost predicate Launched(s: State) {
    s.root.Some? && s.root.value < |s.world.history|
  }

  /** A handle may have been opened long before it is used, so terminating is bound to any
      incarnation that ever held the pid, live or not. */
  ghost predicate Acts(t: Clock, s: State, a: Action, s': State) {
    match a
    case Starting(p) => Spawn(t, s.world, p, s'.world) && s' == s.(world := s'.world)
    case Exiting(i) => s' == s.(world := s.world.(live := s.world.live - {i}))
    case Launching(p, suspended) =>
      var r := |s.world.history|;
      && s.root == None && Starts(t, s.world, p, s'.world) && s' == s.(world := s'.world, root := Some(r))
      && s'.world.suspended == s.world.suspended + (if suspended then {r} else {})
      && s'.world.pinned == s.world.pinned + {p.pid}
    case Resuming => Launched(s) && s' == s.(world := s.world.(suspended := s.world.suspended - {s.root.value}))
    case Sampling(rows) =>
      && Launched(s) && Snapshot(s.world, rows)
      && Remembered(map[], rows, RootPid(s), s'.candidate) && s' == s.(candidate := s'.candidate)
    case Adopting => Launched(s) && s.owned == map[] && s' == s.(owned := s.candidate)
    case Remembering(rows) =>
      && Launched(s) && Snapshot(s.world, rows)
      && Remembered(s.owned, rows, RootPid(s), s'.owned) && s' == s.(owned := s'.owned)
    case Waiting(rows) =>
      && Launched(s) && Snapshot(s.world, rows) && !Blocked(rows, Present(s.owned, rows))
      && s' == s.(owned := Polled(s.owned, rows))
    case Terminating(i, pid) =>
      && Launched(s) && pid in s.owned && i < |s.world.history| && s.world.history[i].pid == pid
      && TerminateIdentity(t.ticks(s.owned[pid].created), Opened(Some(s.world.history[i].ticks), true)) == Ok(true)
      && s' == s.(world := s.world.(live := s.world.live - {i}), killed := s.killed + {i})
    case KillingRoot =>
      Launched(s) && s' == s.(world := s.world.(live := s.world.live - {s.root.value}), killed := s.killed + {s.root.value})
  }

  /** An interleaving, action by action. */
  datatype Run = Begin(state: State) | Then(before: Run, action: Action, state: State)

  ghost predicate IsRun(t: Clock, run: Run) {
    match run
    case Begin(s) => Init(t, s)
    case Then(before, a, s) => IsRun(t, before) && Acts(t, before.state, a, s)
  }

  /** `run` continues `earlier`. */
  ghost predicate Continues(run: Run, earlier: Run) {
    run == earlier || (run.Then? && Continues(run.before, earlier))
  }

  // ------------------------------------------------------------------- ties

  /** The action records what an inventory shows. */
  predicate Records(a: Action) {
    a.Sampling? || a.Remembering? || a.Waiting?
  }

  /** The record the action starts from, and the one it leaves. */
  ghost function Before(s: State, a: Action): Owned {
    if a.Sampling? then map[] else s.owned
  }

  ghost function After(a: Action, s': State): Owned {
    if a.Sampling? then s'.candidate else s'.owned
  }

  /** The roots the action hands to `descendants`. */
  ghost function RootsOf(s: State, a: Action): set<int>
    requires Launched(s) && Records(a)
  {
    if a.Waiting? then Present(s.owned, a.rows) else RememberRoots(Before(s, a), a.rows, RootPid(s))
  }

  /** A process that does not descend from the root carries the date of its parent's row, and that
      row is in the tree. */
  ghost predicate TiedStranger(w: World, rows: Inventory, roots: set<int>, root: nat, pid: int) {
    && Snapshot(w, rows) && SameDate(rows, pid) && rows[pid].parent in Tree(rows, roots)
    && !DescendsFrom(w, Holder(w, rows, pid), root)
  }

  ghost predicate Untied(w: World, rows: Inventory, roots: set<int>, root: nat) {
    forall pid :: !TiedStranger(w, rows, roots, root, pid)
  }

  /** The inventory of the step shows no tied stranger. */
  ghost predicate Clean(s: State, a: Action) {
    Launched(s) && Records(a) ==> Untied(s.world, a.rows, RootsOf(s, a), s.root.value)
  }

  ghost predicate CleanRun(run: Run) {
    run.Then? ==> CleanRun(run.before) && Clean(run.before.state, run.action)
  }

  /** The row is a tied stranger, or a true child in turn of a stray row; the root itself never is. */
  ghost predicate Stray(w: World, rows: Inventory, roots: set<int>, root: nat, pid: int)
    decreases if Snapshot(w, rows) && pid in rows then Holder(w, rows, pid) else 0
  {
    && Snapshot(w, rows) && pid in rows
    && (|| TiedStranger(w, rows, roots, root, pid)
        || (&& TrueChild(w, rows, pid) && Holder(w, rows, pid) != root
            && Holder(w, rows, rows[pid].parent) < Holder(w, rows, pid)
            && Stray(w, rows, roots, root, rows[pid].parent)))
  }

  /** The record holds no stray row of the tree. */
  ghost predicate NoStrayKept(w: World, rows: Inventory, roots: set<int>, root: nat, owned: Owned) {
    forall pid :: pid in Tree(rows, roots) && Keeps(owned, rows, pid) ==> !Stray(w, rows, roots, root, pid)
  }

  /** The step records no stray row of its tree. */
  ghost predicate StrayFree(s: State, a: Action, s': State) {
    Launched(s) && Records(a) ==> NoStrayKept(s.world, a.rows, RootsOf(s, a), s.root.value, After(a, s'))
  }

  /** The record holds the dated row. */
  ghost predicate Keeps(owned: Owned, rows: Inventory, pid: int) {
    pid in owned && pid in rows && Known(rows[pid]) && owned[pid] == rows[pid]
  }

  ghost predicate StrayFreeRun(run: Run) {
    run.Then? ==> StrayFreeRun(run.before) && StrayFree(run.before.state, run.action, run.state)
  }

  // -------------------------------------------------------------- invariant

  ghost predicate RootInv(s: State) {
    match s.root
    case None => s.candidate == map[] && s.owned == map[] && s.killed == {}
    case Some(r) =>
      && r < |s.world.history| && RootPid(s) in s.world.pinned
      && (forall j :: r < j < |s.world.history| ==> s.world.history[j].pid != RootPid(s))
      && Sound(s.world, r, s.candidate) && Sound(s.world, r, s.owned)
      && AllDescend(s.world, r, s.killed)
  }

  ghost predicate AllDescend(w: World, root: nat, incarnations: set<nat>) {
    forall i :: i in incarnations ==> i < |w.history| && DescendsFrom(w, i, root)
  }

  ghost predicate Inv(t: Clock, s: State) {
    Faithful(t, s.world.history) && WorldInv(s.world) && RootInv(s)
  }

  lemma HistoryGrows(t: Clock, s: State, a: Action, s': State)
    requires Acts(t, s, a, s')
    ensures s.world.history <= s'.world.history
  {
  }

  lemma SoundnessPersists(w: World, w': World, root: nat, owned: Owned)
    requires w.history <= w'.history && Sound(w, root, owned)
    ensures Sound(w', root, owned)
  {
    forall pid | pid in owned ensures Belongs(w', root, pid, owned[pid]) {
      assert Belongs(w, root, pid, owned[pid]);
      var i: nat :| Identifies(w, pid, owned[pid], i) && DescendsFrom(w, i, root);
      AncestryPersists(w, w', i, root);
      assert Identifies(w', pid, owned[pid], i);
    }
  }

  lemma DescentPersists(w: World, w': World, root: nat, incarnations: set<nat>)
    requires w.history <= w'.history && AllDescend(w, root, incarnations)
    ensures AllDescend(w', root, incarnations)
  {
    forall i | i in incarnations ensures i < |w'.history| && DescendsFrom(w', i, root) {
      AncestryPersists(w, w', i, root);
    }
  }

  // ---------------------------------------------------------- what is recorded

  /** A row outside `good` carries the date of its parent's row, which is in the tree. */
  ghost predicate TiedOutside(rows: Inventory, roots: set<int>, good: set<int>, pid: int) {
    SameDate(rows, pid) && rows[pid].parent in Tree(rows, roots) && pid !in good
  }

  /** True children of `good` rows are good. */
  ghost predicate Inherited(w: World, rows: Inventory, good: set<int>) {
    forall pid :: TrueChild(w, rows, pid) && rows[pid].parent in good ==> pid in good
  }

  /** Where a set that holds the roots and passes to true children ends, the tree ends too, unless a
      tie leads out of it; and then the tree does lead out. */
  lemma TreeStaysExactly(w: World, rows: Inventory, roots: set<int>, good: set<int>)
    requires WorldInv(w) && Snapshot(w, rows) && roots * rows.Keys <= good && Inherited(w, rows, good)
    ensures Tree(rows, roots) <= good <==> forall pid :: !TiedOutside(rows, roots, good, pid)
  {
    var tree := Tree(rows, roots);
    TreeIsClosed(rows, roots);
    if pid :| TiedOutside(rows, roots, good, pid) {
      assert Adopts(rows, rows[pid].parent, pid);
      assert pid in tree;
    } else {
      forall child | child in rows && rows[child].parent in tree * good && Adopts(rows, rows[child].parent, child)
        ensures child in tree * good
      {
        assert !TiedOutside(rows, roots, good, child);
        if rows[child].parent != child { AdoptionExact(w, rows, child); }
      }
      TreeIsLeast(rows, roots, tree * good);
    }
  }

  /** The rows of true descendants of the root. */
  ghost function Descended(w: World, rows: Inventory, root: nat): set<int>
    requires Snapshot(w, rows)
  {
    set pid | pid in rows && DescendsFrom(w, Holder(w, rows, pid), root)
  }

  lemma DescentIsInherited(w: World, rows: Inventory, root: nat)
    requires WorldInv(w) && Snapshot(w, rows)
    ensures Inherited(w, rows, Descended(w, rows, root))
  {
    forall pid | TrueChild(w, rows, pid) && rows[pid].parent in Descended(w, rows, root)
      ensures pid in Descended(w, rows, root)
    {
      assert ParentPrecedes(w, Holder(w, rows, pid));
    }
  }

  /** Ownership in one inventory: the tree of sound roots holds only descendants of the root if and
      only if no stranger is tied to it. */
  lemma TreeDescendsExactly(w: World, rows: Inventory, roots: set<int>, root: nat)
    requires WorldInv(w) && Snapshot(w, rows) && roots * rows.Keys <= Descended(w, rows, root)
    ensures Tree(rows, roots) <= Descended(w, rows, root) <==> Untied(w, rows, roots, root)
  {
    var good := Descended(w, rows, root);
    DescentIsInherited(w, rows, root);
    TreeStaysExactly(w, rows, roots, good);
    assert forall pid :: TiedOutside(rows, roots, good, pid) <==> TiedStranger(w, rows, roots, root, pid);
  }

  lemma {:induction false} StrayIsNoDescendant(w: World, rows: Inventory, roots: set<int>, root: nat, pid: int)
    requires Snapshot(w, rows) && pid in rows && Stray(w, rows, roots, root, pid)
    ensures !DescendsFrom(w, Holder(w, rows, pid), root)
    decreases Holder(w, rows, pid)
  {
    if !TiedStranger(w, rows, roots, root, pid) {
      StrayIsNoDescendant(w, rows, roots, root, rows[pid].parent);
    }
  }

  /** The rows of a tree that do not descend from the root are exactly the stray ones. */
  lemma StrayExactly(w: World, rows: Inventory, roots: set<int>, root: nat)
    requires WorldInv(w) && Snapshot(w, rows) && roots * rows.Keys <= Descended(w, rows, root)
    ensures forall pid :: pid in Tree(rows, roots) ==> (pid !in Descended(w, rows, root) <==> Stray(w, rows, roots, root, pid))
  {
    var tree, good := Tree(rows, roots), Descended(w, rows, root);
    var s := set pid | pid in tree && (pid in good || Stray(w, rows, roots, root, pid));
    TreeIsClosed(rows, roots);
    forall child | child in rows && rows[child].parent in s && Adopts(rows, rows[child].parent, child) ensures child in s {
      AdoptedIsGoodOrStray(w, rows, roots, root, child);
    }
    TreeIsLeast(rows, roots, s);
    forall pid | pid in tree && Stray(w, rows, roots, root, pid) ensures pid !in good {
      StrayIsNoDescendant(w, rows, roots, root, pid);
    }
  }

  lemma AdoptedIsGoodOrStray(w: World, rows: Inventory, roots: set<int>, root: nat, child: int)
    requires WorldInv(w) && Snapshot(w, rows) && child in rows && rows[child].parent in Tree(rows, roots)
    requires Adopts(rows, rows[child].parent, child)
    requires rows[child].parent in Descended(w, rows, root) || Stray(w, rows, roots, root, rows[child].parent)
    ensures child in Descended(w, rows, root) || Stray(w, rows, roots, root, child)
  {
    if rows[child].parent != child {
      AdoptionExact(w, rows, child);
      DescentIsInherited(w, rows, root);
      assert ParentPrecedes(w, Holder(w, rows, child));
    }
  }

  lemma UntiedIsStrayFree(w: World, rows: Inventory, roots: set<int>, root: nat)
    requires WorldInv(w) && Snapshot(w, rows) && roots * rows.Keys <= Descended(w, rows, root) && Untied(w, rows, roots, root)
    ensures forall pid :: pid in Tree(rows, roots) ==> !Stray(w, rows, roots, root, pid)
  {
    StrayExactly(w, rows, roots, root);
    TreeDescendsExactly(w, rows, roots, root);
  }

  lemma TreeIsKnown(rows: Inventory, roots: set<int>)
    ensures forall pid :: pid in Tree(rows, roots) ==> pid in roots || Known(rows[pid])
  {
    var s := set pid | pid in rows && (pid in roots || Known(rows[pid]));
    TreeIsLeast(rows, roots, s);
  }

  /** A recorded date seen again belongs to the recorded incarnation, not to a later one. */
  lemma SeenIsRecorded(w: World, rows: Inventory, pid: int, row: Row, i: nat)
    requires WorldInv(w) && Snapshot(w, rows) && Identifies(w, pid, row, i)
    requires pid in rows && Known(rows[pid]) && rows[pid].created == row.created
    ensures Holder(w, rows, pid) == i
  {
    var h := Holder(w, rows, pid);
    assert w.history[h] in w.history && w.history[i] in w.history;
    IdentityIsUnique(w, h, i);
  }

  /** A dated row belongs to the root exactly when its process descends from it. */
  lemma BelongsExactly(w: World, rows: Inventory, root: nat, pid: int)
    requires WorldInv(w) && Snapshot(w, rows) && pid in rows && Known(rows[pid])
    ensures Belongs(w, root, pid, rows[pid]) <==> DescendsFrom(w, Holder(w, rows, pid), root)
  {
    assert Identifies(w, pid, rows[pid], Holder(w, rows, pid));
    if Belongs(w, root, pid, rows[pid]) {
      var i: nat :| Identifies(w, pid, rows[pid], i) && DescendsFrom(w, i, root);
      SeenIsRecorded(w, rows, pid, rows[pid], i);
    }
  }

  lemma PresentDescends(w: World, rows: Inventory, owned: Owned, root: nat)
    requires WorldInv(w) && Snapshot(w, rows) && Sound(w, root, owned)
    ensures Present(owned, rows) <= Descended(w, rows, root)
  {
    forall pid | pid in Present(owned, rows) ensures DescendsFrom(w, Holder(w, rows, pid), root) {
      assert Belongs(w, root, pid, owned[pid]);
      var i: nat :| Identifies(w, pid, owned[pid], i) && DescendsFrom(w, i, root);
      SeenIsRecorded(w, rows, pid, owned[pid], i);
    }
  }

  /** Recording dated rows is sound exactly when they are all descendants. */
  lemma RecordingExactly(w: World, rows: Inventory, owned: Owned, done: set<int>, root: nat)
    requires WorldInv(w) && Snapshot(w, rows) && Sound(w, root, owned) && done <= rows.Keys
    requires forall pid :: pid in done ==> Known(rows[pid])
    ensures Sound(w, root, Record(owned, rows, done)) <==> done <= Descended(w, rows, root)
  {
    var owned', good := Record(owned, rows, done), Descended(w, rows, root);
    forall pid | pid in done ensures Belongs(w, root, pid, owned'[pid]) <==> pid in good {
      BelongsExactly(w, rows, root, pid);
    }
    assert forall pid :: pid in owned' && pid !in done ==> owned'[pid] == owned[pid] && Belongs(w, root, pid, owned[pid]);
  }

  /** The pinned PID has no later holder, and an earlier one would be dead. */
  lemma RootHoldsItsPid(s: State, rows: Inventory)
    requires ReuseIsLater(s.world) && RootInv(s) && s.root.Some? && Snapshot(s.world, rows) && RootPid(s) in rows
    ensures Holder(s.world, rows, RootPid(s)) == s.root.value
  {
    var h, r := Holder(s.world, rows, RootPid(s)), s.root.value;
    assert !(h < r) && !(r < h);
  }

  /** The roots of a recording step descend from the root. */
  lemma RootsDescend(s: State, a: Action)
    requires WorldInv(s.world) && RootInv(s) && s.root.Some? && Records(a) && Snapshot(s.world, a.rows)
    ensures RootsOf(s, a) * a.rows.Keys <= Descended(s.world, a.rows, s.root.value)
  {
    var w, rows, r, helper := s.world, a.rows, s.root.value, RootPid(s);
    var present := Present(Before(s, a), rows);
    PresentDescends(w, rows, Before(s, a), r);
    if helper in rows { RootHoldsItsPid(s, rows); }
    assert helper in rows ==> helper in Descended(w, rows, r);
    assert RootsOf(s, a) <= present + {helper};
  }

  lemma StepRecords(t: Clock, s: State, a: Action, s': State) returns (done: set<int>)
    requires Acts(t, s, a, s') && Records(a)
    ensures done <= Tree(a.rows, RootsOf(s, a)) && After(a, s') == Record(Before(s, a), a.rows, done)
    ensures forall pid :: pid in done ==> Known(a.rows[pid])
  {
    var rows, roots := a.rows, RootsOf(s, a);
    if a.Waiting? {
      done := Tree(rows, roots);
      TreeIsKnown(rows, roots);
    } else {
      assert Remembered(Before(s, a), rows, RootPid(s), After(a, s'));
      done :| RecordsPart(Before(s, a), rows, roots, done, After(a, s'));
    }
  }

  lemma SoundKeepsNoStray(w: World, rows: Inventory, roots: set<int>, root: nat, owned: Owned)
    requires WorldInv(w) && Snapshot(w, rows) && Sound(w, root, owned)
    ensures NoStrayKept(w, rows, roots, root, owned)
  {
    forall pid | pid in Tree(rows, roots) && Keeps(owned, rows, pid) ensures !Stray(w, rows, roots, root, pid) {
      assert Belongs(w, root, pid, owned[pid]);
      BelongsExactly(w, rows, root, pid);
      if Stray(w, rows, roots, root, pid) { StrayIsNoDescendant(w, rows, roots, root, pid); }
    }
  }

  lemma UnsoundKeepsStray(w: World, rows: Inventory, roots: set<int>, root: nat, owned: Owned, pid: int)
    requires WorldInv(w) && Snapshot(w, rows) && roots * rows.Keys <= Descended(w, rows, root)
    requires pid in Tree(rows, roots) && pid !in Descended(w, rows, root) && Keeps(owned, rows, pid)
    ensures !NoStrayKept(w, rows, roots, root, owned)
  {
    StrayExactly(w, rows, roots, root);
  }

  lemma RecordSoundExactly(w: World, rows: Inventory, roots: set<int>, root: nat, owned: Owned, done: set<int>)
    requires WorldInv(w) && Snapshot(w, rows) && Sound(w, root, owned) && roots * rows.Keys <= Descended(w, rows, root)
    requires done <= Tree(rows, roots) && forall pid :: pid in done ==> Known(rows[pid])
    ensures Sound(w, root, Record(owned, rows, done)) <==> NoStrayKept(w, rows, roots, root, Record(owned, rows, done))
  {
    var owned' := Record(owned, rows, done);
    if Sound(w, root, owned') {
      SoundKeepsNoStray(w, rows, roots, root, owned');
    } else {
      RecordingExactly(w, rows, owned, done, root);
      var pid :| pid in done && pid !in Descended(w, rows, root);
      UnsoundKeepsStray(w, rows, roots, root, owned', pid);
    }
  }

  /** What a step records is sound if and only if it records no stray row. */
  lemma StepSoundExactly(t: Clock, s: State, a: Action, s': State)
    requires WorldInv(s.world) && RootInv(s) && Records(a) && Acts(t, s, a, s')
    ensures Sound(s.world, s.root.value, After(a, s')) <==> StrayFree(s, a, s')
  {
    RootsDescend(s, a);
    var done := StepRecords(t, s, a, s');
    RecordSoundExactly(s.world, a.rows, RootsOf(s, a), s.root.value, Before(s, a), done);
  }

  // ------------------------------------------------------------- termination

  /** A handle passes the identity check exactly when its process started in the microsecond of
      the recorded creation date. */
  lemma IdentityCheck(t: Clock, p: Process, q: Process)
    requires Stamped(t, q)
    ensures TerminateIdentity(t.ticks(q.created), Opened(Some(p.ticks), true)) == Ok(Micros(p) == Micros(q))
  {
    assert Micros(q) * 10 / 10 == Micros(q);
  }

  lemma PassedIsSame(t: Clock, w: World, i: nat, j: nat)
    requires Faithful(t, w.history) && ReuseIsLater(w) && i < |w.history| && j < |w.history| && w.history[i].pid == w.history[j].pid
    requires TerminateIdentity(t.ticks(w.history[j].created), Opened(Some(w.history[i].ticks), true)) == Ok(true)
    ensures i == j
  {
    assert w.history[j] in w.history;
    IdentityCheck(t, w.history[i], w.history[j]);
    IdentityIsUnique(w, i, j);
  }

  /** Whatever incarnation of a recorded pid is behind a handle, only the recorded one passes. */
  lemma MatchIsRecorded(t: Clock, w: World, owned: Owned, i: nat, pid: int)
    requires Faithful(t, w.history) && ReuseIsLater(w) && Genuine(w, owned)
    requires pid in owned && i < |w.history| && w.history[i].pid == pid
    requires TerminateIdentity(t.ticks(owned[pid].created), Opened(Some(w.history[i].ticks), true)) == Ok(true)
    ensures Recorded(w, owned, i)
  {
    assert Exists(w, pid, owned[pid]);
    var j: nat :| Identifies(w, pid, owned[pid], j);
    PassedIsSame(t, w, i, j);
  }

  lemma SoundIsGenuine(w: World, root: nat, owned: Owned)
    requires Sound(w, root, owned)
    ensures Genuine(w, owned)
  {
    forall pid | pid in owned ensures Exists(w, pid, owned[pid]) {
      assert Belongs(w, root, pid, owned[pid]);
    }
  }

  /** A recorded incarnation of a sound record descends from the root. */
  lemma RecordedDescends(w: World, root: nat, owned: Owned, i: nat)
    requires WorldInv(w) && Sound(w, root, owned) && Recorded(w, owned, i)
    ensures DescendsFrom(w, i, root)
  {
    var pid := w.history[i].pid;
    assert Belongs(w, root, pid, owned[pid]);
    var j: nat :| Identifies(w, pid, owned[pid], j) && DescendsFrom(w, j, root);
    assert w.history[i] in w.history && w.history[j] in w.history;
    IdentityIsUnique(w, i, j);
  }

  /** Every handle that is opened is opened on the live holder of its pid, and a kill succeeds. */
  ghost predicate OpensOnHolders(w: World, owned: Owned, handles: map<int, Handle>) {
    forall i: nat :: i in w.live && i < |w.history| && w.history[i].pid in owned ==>
      w.history[i].pid in handles && handles[w.history[i].pid] == Opened(Some(w.history[i].ticks), true)
  }

  /** What `force_cleanup` reports of every recorded pid. */
  ghost predicate Reports(t: Clock, owned: Owned, handles: map<int, Handle>, killed: set<int>) {
    forall pid :: pid in owned && pid in handles ==>
      TerminateIdentity(t.ticks(owned[pid].created), handles[pid]) == Ok(pid in killed)
  }

  /** The counterpart: with such handles, `force_cleanup` leaves no recorded incarnation alive. */
  lemma CleanupIsComplete(t: Clock, w: World, owned: Owned, handles: map<int, Handle>, killed: set<int>, i: nat)
    requires Faithful(t, w.history) && OpensOnHolders(w, owned, handles) && Reports(t, owned, handles, killed)
    requires i in w.live && Recorded(w, owned, i)
    ensures w.history[i].pid in killed
  {
    var p := w.history[i];
    assert p in w.history;
    IdentityCheck(t, p, p);
    assert TerminateIdentity(t.ticks(owned[p.pid].created), handles[p.pid]) == Ok(p.pid in killed);
  }

  // ------------------------------------------------------------ over whole runs

  lemma LaunchKeepsRoot(t: Clock, s: State, a: Action, s': State)
    requires a.Launching? && RootInv(s) && Acts(t, s, a, s')
    ensures RootInv(s')
  {
  }

  lemma OsKeepsRoot(s: State, s': State)
    requires RootInv(s) && s' == s.(world := s'.world)
    requires s.world.history <= s'.world.history && s'.world.pinned == s.world.pinned
    requires s.root.Some? ==>
               forall j :: |s.world.history| <= j < |s'.world.history| ==> s'.world.history[j].pid != RootPid(s)
    ensures RootInv(s')
  {
    if s.root.Some? {
      var r := s.root.value;
      SoundnessPersists(s.world, s'.world, r, s.candidate);
      SoundnessPersists(s.world, s'.world, r, s.owned);
      DescentPersists(s.world, s'.world, r, s.killed);
    }
  }

  /** A step that moves no history keeps what is sound. */
  lemma SameHistoryKeepsRoot(s: State, s': State)
    requires RootInv(s) && s'.world.history == s.world.history && s'.world.pinned == s.world.pinned
    requires s'.root == s.root && s.root.Some?
    requires Sound(s.world, s.root.value, s'.candidate) && Sound(s.world, s.root.value, s'.owned)
    requires AllDescend(s.world, s.root.value, s'.killed)
    ensures RootInv(s')
  {
    var r := s.root.value;
    SoundnessPersists(s.world, s'.world, r, s'.candidate);
    SoundnessPersists(s.world, s'.world, r, s'.owned);
    DescentPersists(s.world, s'.world, r, s'.killed);
  }

  lemma HarnessKeepsRoot(t: Clock, s: State, a: Action, s': State)
    requires WorldInv(s.world) && RootInv(s) && Launched(s) && Acts(t, s, a, s') && StrayFree(s, a, s')
    requires Records(a) || a.Adopting? || a.Resuming? || a.KillingRoot?
    ensures RootInv(s')
  {
    if Records(a) { StepSoundExactly(t, s, a, s'); }
    SameHistoryKeepsRoot(s, s');
  }

  lemma ActKeepsFaithful(t: Clock, s: State, a: Action, s': State)
    requires Faithful(t, s.world.history) && Acts(t, s, a, s')
    ensures Faithful(t, s'.world.history)
  {
    if a.Starting? || a.Launching? {
      assert s'.world.history == s.world.history + [a.process];
    }
  }

  lemma ActKeepsWorld(t: Clock, s: State, a: Action, s': State)
    requires WorldInv(s.world) && Dated(s'.world.history) && Acts(t, s, a, s')
    ensures WorldInv(s'.world)
  {
    if a.Starting? || a.Launching? {
      StartKeepsWorld(s.world, a.process, s'.world);
    } else {
      ShrinkKeepsWorld(s.world, s'.world);
    }
  }

  lemma TerminationKeepsRoot(t: Clock, s: State, a: Action, s': State)
    requires a.Terminating? && Faithful(t, s.world.history) && WorldInv(s.world) && RootInv(s) && Acts(t, s, a, s')
    ensures RootInv(s')
  {
    assert DescendsFrom(s.world, a.incarnation, s.root.value) by {
      SoundIsGenuine(s.world, s.root.value, s.owned);
      MatchIsRecorded(t, s.world, s.owned, a.incarnation, a.pid);
      RecordedDescends(s.world, s.root.value, s.owned, a.incarnation);
    }
    SameHistoryKeepsRoot(s, s');
  }

  /** The pinned PID of the root is never handed out again. */
  lemma StartKeepsRoot(s: State, p: Process, s': State)
    requires RootInv(s) && Next(s.world, p) && Appends(s.world, p, s'.world)
    requires s' == s.(world := s'.world) && s'.world.pinned == s.world.pinned
    ensures RootInv(s')
  {
    if s.root.Some? {
      assert p.pid != RootPid(s);
    }
    OsKeepsRoot(s, s');
  }

  lemma ActKeepsRoot(t: Clock, s: State, a: Action, s': State)
    requires Inv(t, s) && Acts(t, s, a, s') && StrayFree(s, a, s')
    ensures RootInv(s')
  {
    match a {
      case Starting(p) => StartKeepsRoot(s, p, s');
      case Exiting(_) => OsKeepsRoot(s, s');
      case Launching(_, _) => LaunchKeepsRoot(t, s, a, s');
      case Terminating(_, _) => TerminationKeepsRoot(t, s, a, s');
      case _ => HarnessKeepsRoot(t, s, a, s');
    }
  }

  /** The assumptions about the world hold in every run. */
  lemma {:induction false} RunKeepsWorld(t: Clock, run: Run)
    requires IsRun(t, run)
    ensures Faithful(t, run.state.world.history) && WorldInv(run.state.world)
  {
    match run
    case Begin(_) =>
    case Then(before, a, s) =>
      RunKeepsWorld(t, before);
      ActKeepsFaithful(t, before.state, a, s);
      FaithfulDates(t, s.world.history);
      ActKeepsWorld(t, before.state, a, s);
  }

  lemma {:induction false} RunKeepsInv(t: Clock, run: Run)
    requires IsRun(t, run) && StrayFreeRun(run)
    ensures Inv(t, run.state)
  {
    RunKeepsWorld(t, run);
    match run
    case Begin(_) =>
    case Then(before, a, s) =>
      RunKeepsInv(t, before);
      ActKeepsRoot(t, before.state, a, s);
  }

  lemma {:induction false} CleanRunIsStrayFree(t: Clock, run: Run)
    requires IsRun(t, run) && CleanRun(run)
    ensures StrayFreeRun(run)
  {
    if run.Then? {
      var s, a := run.before.state, run.action;
      CleanRunIsStrayFree(t, run.before);
      RunKeepsInv(t, run.before);
      if Launched(s) && Records(a) {
        RootsDescend(s, a);
        UntiedIsStrayFree(s.world, a.rows, RootsOf(s, a), s.root.value);
      }
    }
  }

  /** Every interleaving whose inventories show no tied stranger: each recorded (pid, creation date)
      is an incarnation that truly descends from the launched root, and so is everything ever
      terminated. */
  lemma OwnershipSoundness(t: Clock, run: Run)
    requires IsRun(t, run) && CleanRun(run)
    ensures var s := run.state;
            && (s.owned != map[] || s.killed != {} ==> s.root.Some?)
            && (s.root.Some? ==> Sound(s.world, s.root.value, s.owned) && AllDescend(s.world, s.root.value, s.killed))
  {
    CleanRunIsStrayFree(t, run);
    RunKeepsInv(t, run);
  }

  ghost predicate RecordsSound(s: State) {
    Launched(s) ==> Sound(s.world, s.root.value, s.candidate) && Sound(s.world, s.root.value, s.owned)
  }

  ghost predicate SoundThroughout(run: Run) {
    RecordsSound(run.state) && (run.Then? ==> SoundThroughout(run.before))
  }

  lemma SoundStepIsStrayFree(t: Clock, s: State, a: Action, s': State)
    requires WorldInv(s.world) && RootInv(s) && Acts(t, s, a, s') && RecordsSound(s')
    ensures StrayFree(s, a, s')
  {
    if Launched(s) && Records(a) { StepSoundExactly(t, s, a, s'); }
  }

  /** Over every run, whatever part of its trees it recorded: the records are sound throughout if and
      only if no step records a stray row. */
  lemma {:induction false} OwnershipExactly(t: Clock, run: Run)
    requires IsRun(t, run)
    ensures SoundThroughout(run) <==> StrayFreeRun(run)
  {
    if run.Then? { OwnershipExactly(t, run.before); }
    if StrayFreeRun(run) {
      RunKeepsInv(t, run);
    } else if run.Then? && SoundThroughout(run) {
      RunKeepsInv(t, run.before);
      SoundStepIsStrayFree(t, run.before.state, run.action, run.state);
    }
  }

  // ------------------------------------------------------ whatever is recorded

  lemma GenuinePersists(w: World, w': World, owned: Owned)
    requires w.history <= w'.history && Genuine(w, owned)
    ensures Genuine(w', owned)
  {
    forall pid | pid in owned ensures Exists(w', pid, owned[pid]) {
      assert Exists(w, pid, owned[pid]);
      var i: nat :| Identifies(w, pid, owned[pid], i);
      assert Identifies(w', pid, owned[pid], i);
    }
  }

  lemma RecordingIsGenuine(w: World, rows: Inventory, owned: Owned, done: set<int>)
    requires Snapshot(w, rows) && Genuine(w, owned) && done <= rows.Keys
    requires forall pid :: pid in done ==> Known(rows[pid])
    ensures Genuine(w, Record(owned, rows, done))
  {
    var owned' := Record(owned, rows, done);
    forall pid | pid in owned' ensures Exists(w, pid, owned'[pid]) {
      if pid in done {
        assert Identifies(w, pid, rows[pid], Holder(w, rows, pid));
      } else {
        assert Exists(w, pid, owned[pid]);
      }
    }
  }

  lemma ActKeepsGenuine(t: Clock, s: State, a: Action, s': State)
    requires Acts(t, s, a, s') && Genuine(s.world, s.owned) && Genuine(s.world, s.candidate)
    ensures Genuine(s.world, s'.owned) && Genuine(s.world, s'.candidate)
  {
    if Records(a) {
      var done := StepRecords(t, s, a, s');
      RecordingIsGenuine(s.world, a.rows, Before(s, a), done);
    }
  }

  /** In every run, ties included: each recorded identity is that of some incarnation. */
  lemma {:induction false} RunKeepsGenuine(t: Clock, run: Run)
    requires IsRun(t, run)
    ensures Genuine(run.state.world, run.state.owned) && Genuine(run.state.world, run.state.candidate)
  {
    if run.Then? {
      var s, s' := run.before.state, run.state;
      RunKeepsGenuine(t, run.before);
      ActKeepsGenuine(t, s, run.action, s');
      HistoryGrows(t, s, run.action, s');
      GenuinePersists(s.world, s'.world, s'.owned);
      GenuinePersists(s.world, s'.world, s'.candidate);
    }
  }

  /** In every run, ties included: `terminate_identity` only ever terminates a recorded incarnation. */
  lemma TerminatesRecorded(t: Clock, run: Run)
    requires IsRun(t, run) && run.Then? && run.action.Terminating?
    ensures var s := run.before.state; Recorded(s.world, s.owned, run.action.incarnation)
  {
    var s := run.before.state;
    RunKeepsWorld(t, run.before);
    RunKeepsGenuine(t, run.before);
    MatchIsRecorded(t, s.world, s.owned, run.action.incarnation, run.action.pid);
  }

  // --------------------------------------------------- nothing live is forgotten

  lemma RecordingKeepsLive(w: World, rows: Inventory, owned: Owned, done: set<int>, i: nat)
    requires WorldInv(w) && Snapshot(w, rows) && done <= rows.Keys && i in w.live && Recorded(w, owned, i)
    requires forall pid :: pid in done ==> Known(rows[pid])
    ensures Recorded(w, Record(owned, rows, done), i)
  {
    HolderIsUnique(w, rows, i);
  }

  lemma ActKeepsLiveRecord(t: Clock, s: State, a: Action, s': State, i: nat)
    requires WorldInv(s.world) && Acts(t, s, a, s') && Recorded(s.world, s.owned, i) && i in s'.world.live
    ensures Recorded(s'.world, s'.owned, i)
  {
    if a.Remembering? || a.Waiting? {
      var done := StepRecords(t, s, a, s');
      RecordingKeepsLive(s.world, a.rows, s.owned, done, i);
    }
  }

  lemma LiveWasLive(t: Clock, s: State, a: Action, s': State, i: nat)
    requires Acts(t, s, a, s') && i in s'.world.live && i < |s.world.history|
    ensures i in s.world.live
  {
  }

  lemma {:induction false} RunHistoryGrows(t: Clock, run: Run, earlier: Run)
    requires IsRun(t, run) && Continues(run, earlier)
    ensures earlier.state.world.history <= run.state.world.history
  {
    if run != earlier {
      RunHistoryGrows(t, run.before, earlier);
      HistoryGrows(t, run.before.state, run.action, run.state);
    }
  }

  /** In every run: a recorded incarnation leaves the record only by exiting. */
  lemma {:induction false} NoLiveIdentityForgotten(t: Clock, run: Run, earlier: Run, i: nat)
    requires IsRun(t, run) && Continues(run, earlier)
    requires Recorded(earlier.state.world, earlier.state.owned, i) && i in run.state.world.live
    ensures Recorded(run.state.world, run.state.owned, i)
  {
    if run != earlier {
      var s, s' := run.before.state, run.state;
      RunHistoryGrows(t, run.before, earlier);
      LiveWasLive(t, s, run.action, s', i);
      NoLiveIdentityForgotten(t, run.before, earlier, i);
      RunKeepsWorld(t, run.before);
      ActKeepsLiveRecord(t, s, run.action, s', i);
    }
  }
}
