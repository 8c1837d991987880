/** The operating system the harness observes: processes start, exit and recycle PIDs at any
    moment. An incarnation is an index into the history of all processes. */
module ProcessWorld {
  import opened Basics
  import opened CreationTime
  import opened ProcessTree

  /** One incarnation: `parent` is its true creator, unless that is older than the history. */
  datatype Process = Process(pid: int, parent: Option<nat>, parentPid: int, ticks: nat, created: string)

  /** `suspended` processes have not run yet; a pid in `pinned` is kept from reuse by a handle. */
  datatype World = World(history: seq<Process>, live: set<nat>, suspended: set<nat>, pinned: set<int>)

  /** CIM dates carry microseconds. */
  function Micros(p: Process): nat {
    p.ticks / 10
  }

  /** How creation dates are written and read: which strings the operating system writes, and what
      `creation_ticks` makes of a string. */
  datatype Clock = Clock(stamp: string -> bool, ticks: string -> Result<int>)
  {
    /** On written dates the string order is the order of the instants. */
    ghost predicate Valid() {
      forall a, b :: stamp(a) && stamp(b) ==> Agrees(a, b)
    }

    ghost predicate Agrees(a: string, b: string) {
      && a != "" && ticks(a).Ok? && ticks(b).Ok?
      && (LexLess(a, b) <==> ticks(a).value < ticks(b).value)
      && (a == b <==> ticks(a) == ticks(b))
    }
  }

  /** The clock of the harness: dates in ASCII digits, read with any digits Python knows. */
  function ClockOf(digits: Alphabet): Clock {
    Clock(s => digits.Stamp(s), s => digits.CreationTicks(s))
  }

  lemma ClockIsValid(digits: Alphabet)
    requires digits.Valid()
    ensures ClockOf(digits).Valid()
  {
    var t := ClockOf(digits);
    forall a, b | t.stamp(a) && t.stamp(b) ensures t.Agrees(a, b) {
      digits.StampOrder(a, b);
    }
  }

  // ------------------------------------------------------------- invariants

  /** The creation date is the true one, to the microsecond. */
  ghost predicate Stamped(t: Clock, p: Process) {
    t.stamp(p.created) && t.ticks(p.created) == Ok(Micros(p) * 10)
  }

  ghost predicate Faithful(t: Clock, history: seq<Process>) {
    t.Valid() && forall p :: p in history ==> Stamped(t, p)
  }

  /** Compared as strings, creation dates are ordered as the microseconds they show. */
  ghost predicate Dated(history: seq<Process>) {
    forall p, q :: p in history && q in history ==>
      && p.created != ""
      && (LexLess(p.created, q.created) <==> Micros(p) < Micros(q))
      && (p.created == q.created <==> Micros(p) == Micros(q))
  }

  lemma FaithfulDates(t: Clock, history: seq<Process>)
    requires Faithful(t, history)
    ensures Dated(history)
  {
    forall p, q | p in history && q in history
      ensures p.created != "" && (LexLess(p.created, q.created) <==> Micros(p) < Micros(q))
      ensures p.created == q.created <==> Micros(p) == Micros(q)
    {
      assert t.Agrees(p.created, q.created);
    }
  }

  /** The clock never runs backwards. */
  ghost predicate ClockRuns(w: World) {
    forall i, j :: 0 <= i <= j < |w.history| ==> w.history[i].ticks <= w.history[j].ticks
  }

  /** A PID is reused only after its holder has exited, with a strictly later creation date. */
  ghost predicate ReuseIsLater(w: World) {
    && (forall i :: i in w.live ==> i < |w.history|)
    && forall i, j :: 0 <= i < j < |w.history| && w.history[i].pid == w.history[j].pid ==>
         i !in w.live && Micros(w.history[i]) < Micros(w.history[j])
  }

  /** A creator is alive when its child starts: nobody else takes its PID in between. */
  ghost predicate ParentPrecedes(w: World, c: nat)
    requires c < |w.history|
  {
    match w.history[c].parent
    case None => forall h :: 0 <= h < c ==> w.history[h].pid != w.history[c].parentPid
    case Some(p) =>
      && p < c && w.history[p].pid == w.history[c].parentPid && p !in w.suspended
      && forall h :: p < h <= c ==> w.history[h].pid != w.history[c].parentPid
  }

  ghost predicate ParentsPrecede(w: World) {
    forall c: nat :: c < |w.history| ==> ParentPrecedes(w, c)
  }

  ghost predicate WorldInv(w: World) {
    Dated(w.history) && ClockRuns(w) && ReuseIsLater(w) && ParentsPrecede(w)
  }

  // ------------------------------------------------------------------ steps

  /** `p` is the next process: its creator runs, the clock has not run back, and its PID is
      free and, if used before, was last handed out in an earlier microsecond. */
  ghost predicate Next(w: World, p: Process) {
    && p.parent.Some? && p.parent.value in w.live && p.parent.value !in w.suspended
    && p.parent.value < |w.history| && p.parentPid == w.history[p.parent.value].pid
    && (forall i :: 0 <= i < |w.history| ==> w.history[i].ticks <= p.ticks)
    && (forall i :: 0 <= i < |w.history| && w.history[i].pid == p.pid ==>
          i !in w.live && p.pid !in w.pinned && Micros(w.history[i]) < Micros(p))
  }

  ghost predicate Appends(w: World, p: Process, w': World) {
    w'.history == w.history + [p] && w'.live == w.live + {|w.history|}
  }

  /** A running process starts another one. */
  ghost predicate Starts(t: Clock, w: World, p: Process, w': World) {
    Next(w, p) && Stamped(t, p) && Appends(w, p, w')
  }

  ghost predicate Spawn(t: Clock, w: World, p: Process, w': World) {
    Starts(t, w, p, w') && w'.suspended == w.suspended && w'.pinned == w.pinned
  }

  lemma StartKeepsReuse(w: World, p: Process, w': World)
    requires ReuseIsLater(w) && Next(w, p) && Appends(w, p, w')
    ensures ReuseIsLater(w')
  {
  }

  lemma StartKeepsParents(w: World, p: Process, w': World)
    requires ReuseIsLater(w) && ParentsPrecede(w) && Next(w, p) && Appends(w, p, w')
    requires w'.suspended <= w.suspended + {|w.history|}
    ensures ParentsPrecede(w')
  {
    var n, q := |w.history|, p.parent.value;
    assert forall i :: 0 <= i < n ==> w'.history[i] == w.history[i];
    forall c: nat | c < |w'.history| ensures ParentPrecedes(w', c) {
      if c < n {
        assert ParentPrecedes(w, c);
      } else {
        forall h | q < h <= n ensures w'.history[h].pid != p.parentPid {
          assert h < n ==> w.history[h].pid != w.history[q].pid;
        }
      }
    }
  }

  lemma StartKeepsClock(w: World, p: Process, w': World)
    requires ClockRuns(w) && Next(w, p) && Appends(w, p, w')
    ensures ClockRuns(w')
  {
  }

  lemma StartKeepsWorld(w: World, p: Process, w': World)
    requires WorldInv(w) && Next(w, p) && Appends(w, p, w') && Dated(w'.history)
    requires w'.suspended <= w.suspended + {|w.history|}
    ensures WorldInv(w')
  {
    StartKeepsClock(w, p, w');
    StartKeepsReuse(w, p, w');
    StartKeepsParents(w, p, w');
  }

  /** Exits and resumptions keep the world's invariant. */
  lemma ShrinkKeepsWorld(w: World, w': World)
    requires WorldInv(w) && w'.history == w.history && w'.live <= w.live && w'.suspended <= w.suspended
    ensures WorldInv(w')
  {
    forall c: nat | c < |w'.history| ensures ParentPrecedes(w', c) {
      assert ParentPrecedes(w, c);
    }
  }

  // --------------------------------------------------------------- ancestry

  ghost predicate DescendsFrom(w: World, i: nat, root: nat)
    decreases i
  {
    i == root || (i < |w.history| && w.history[i].parent.Some? && w.history[i].parent.value < i
                  && DescendsFrom(w, w.history[i].parent.value, root))
  }

  lemma {:induction false} AncestryPersists(w: World, w': World, i: nat, root: nat)
    requires w.history <= w'.history && i < |w.history|
    ensures DescendsFrom(w', i, root) <==> DescendsFrom(w, i, root)
    decreases i
  {
    assert w'.history[i] == w.history[i];
    if i != root && w.history[i].parent.Some? && w.history[i].parent.value < i {
      AncestryPersists(w, w', w.history[i].parent.value, root);
    }
  }

  /** An atomic inventory: exactly the live processes, each with its creator's PID and, unless the
      query has none, its creation date. */
  ghost predicate Snapshot(w: World, rows: Inventory) {
    && (forall i :: i in w.live && i < |w.history| ==> w.history[i].pid in rows)
    && (forall pid :: pid in rows ==> Shown(w, pid, rows[pid]))
  }

  ghost predicate Shown(w: World, pid: int, row: Row) {
    exists i :: Shows(w, i, pid, row)
  }

  ghost predicate Shows(w: World, i: nat, pid: int, row: Row) {
    && i in w.live && i < |w.history| && w.history[i].pid == pid
    && row.parent == w.history[i].parentPid
    && (row.created == "" || row.created == w.history[i].created)
  }

  ghost function Holder(w: World, rows: Inventory, pid: int): (i: nat)
    requires Snapshot(w, rows) && pid in rows
    ensures Shows(w, i, pid, rows[pid])
  {
    assert Shown(w, pid, rows[pid]);
    var i :| Shows(w, i, pid, rows[pid]);
    i
  }

  lemma HolderIsUnique(w: World, rows: Inventory, i: nat)
    requires WorldInv(w) && Snapshot(w, rows) && i in w.live
    ensures i < |w.history| && w.history[i].pid in rows && Holder(w, rows, w.history[i].pid) == i
  {
    var h := Holder(w, rows, w.history[i].pid);
    assert !(h < i) && !(i < h);
  }

  // ------------------------------------------------------ the creation guard

  /** Two incarnations of a PID never carry the same creation date. */
  lemma IdentityIsUnique(w: World, i: nat, j: nat)
    requires ReuseIsLater(w) && i < |w.history| && j < |w.history|
    requires w.history[i].pid == w.history[j].pid && Micros(w.history[i]) == Micros(w.history[j])
    ensures i == j
  {
  }

  /** What the guard decides in every reachable world: a live holder of the parent PID passes it
      exactly when it is the true creator, or shares the child's microsecond. */
  lemma GuardExact(w: World, c: nat, h: nat)
    requires WorldInv(w) && c < |w.history| && h in w.live && c != h
    requires h < |w.history| && w.history[c].parentPid == w.history[h].pid
    ensures LexLeq(w.history[h].created, w.history[c].created)
            <==> w.history[c].parent == Some(h) || Micros(w.history[c]) == Micros(w.history[h])
    ensures w.history[c].parent != Some(h) ==> c < h
  {
    var child := w.history[c];
    assert child in w.history && w.history[h] in w.history;
    assert ParentPrecedes(w, c);
    if child.parent != Some(h) {
      if child.parent.Some? {
        var p := child.parent.value;
        assert p < h || h < p;
      }
      assert c < h;
      assert child.ticks <= w.history[h].ticks;
    } else {
      assert w.history[h].ticks <= child.ticks;
    }
  }

  /** The inventory shows a row and its parent's row with the same creation date. */
  ghost predicate SameDate(rows: Inventory, pid: int) {
    && pid in rows && rows[pid].parent in rows && Known(rows[pid])
    && rows[pid].created == rows[rows[pid].parent].created
  }

  /** The row's true creator is the process its parent's row stands for. */
  ghost predicate TrueChild(w: World, rows: Inventory, pid: int) {
    && Snapshot(w, rows) && pid in rows && rows[pid].parent in rows
    && w.history[Holder(w, rows, pid)].parent == Some(Holder(w, rows, rows[pid].parent))
  }

  /** `descendants` on an inventory of this world: a child is adopted exactly when it is a true one
      or carries its parent's date. */
  lemma AdoptionExact(w: World, rows: Inventory, pid: int)
    requires WorldInv(w) && Snapshot(w, rows) && pid in rows && rows[pid].parent in rows && rows[pid].parent != pid
    requires Known(rows[pid]) && Known(rows[rows[pid].parent])
    ensures Adopts(rows, rows[pid].parent, pid) <==> TrueChild(w, rows, pid) || SameDate(rows, pid)
  {
    var c, h := Holder(w, rows, pid), Holder(w, rows, rows[pid].parent);
    assert w.history[c] in w.history && w.history[h] in w.history;
    GuardExact(w, c, h);
  }
}
