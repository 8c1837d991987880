/** Why an empty answer of `wait_gone` needs inventories without tied orphans: a run in which it
    answers that nothing remains while a descendant of the root is alive. */
module OrphanTie {
  import opened Basics
  import opened CreationTime
  import opened ProcessTree
  import opened ProcessWorld
  import opened Ownership
  import opened Remnants
  import opened OwnershipTie

  const ORPHAN := 30

  /** The harness; the root; its child, which leaves an orphan behind; and, in the orphan's own
      microsecond, an unrelated process on the child's PID. */
  function Recent(d: Dates): Process { Process(REUSED, Some(1), ROOT, 10 * d.x, d.a) }
  function Orphan(d: Dates): Process { Process(ORPHAN, Some(2), REUSED, 10 * d.y, d.b) }
  function Newcomer(d: Dates): Process { Process(REUSED, Some(0), HARNESS, 10 * d.y, d.b) }

  function FirstRows(d: Dates): Inventory {
    map[HARNESS := Row(0, d.a), ROOT := Row(HARNESS, d.a), REUSED := Row(ROOT, d.a)]
  }

  function LastRows(d: Dates): Inventory {
    map[HARNESS := Row(0, d.a), REUSED := Row(HARNESS, d.b), ORPHAN := Row(REUSED, d.b)]
  }

  function Family(d: Dates): Owned {
    map[ROOT := Row(HARNESS, d.a), REUSED := Row(ROOT, d.a)]
  }

  function Alone(d: Dates): State {
    State(World([Harness(d)], {0}, {}, {}), None, map[], map[], {})
  }

  function At(history: seq<Process>, live: set<nat>, owned: Owned): State {
    State(World(history, live, {}, {ROOT}), Some(1), map[], owned, {})
  }

  function One(d: Dates): seq<Process> { [Harness(d), Root(d)] }
  function Two(d: Dates): seq<Process> { [Harness(d), Root(d), Recent(d)] }
  function Three(d: Dates): seq<Process> { [Harness(d), Root(d), Recent(d), Orphan(d)] }
  function Four(d: Dates): seq<Process> { [Harness(d), Root(d), Recent(d), Orphan(d), Newcomer(d)] }

  lemma Begins(t: Clock, d: Dates)
    requires True(t, d)
    ensures Init(t, Alone(d))
  {
    var w := Alone(d).world;
    assert Stamped(t, Harness(d));
    FaithfulDates(t, w.history);
    assert ParentPrecedes(w, 0);
  }

  lemma RootStarts(t: Clock, d: Dates)
    requires True(t, d)
    ensures Acts(t, Alone(d), Launching(Root(d), false), At(One(d), {0, 1}, map[]))
  {
    assert Next(Alone(d).world, Root(d));
  }

  lemma RecentStarts(t: Clock, d: Dates)
    requires True(t, d)
    ensures Acts(t, At(One(d), {0, 1}, map[]), Starting(Recent(d)), At(Two(d), {0, 1, 2}, map[]))
  {
    assert Stamped(t, Recent(d));
    assert Next(At(One(d), {0, 1}, map[]).world, Recent(d));
  }

  lemma OrphanStarts(t: Clock, d: Dates)
    requires True(t, d)
    ensures Acts(t, At(Two(d), {0, 1, 2}, Family(d)), Starting(Orphan(d)), At(Three(d), {0, 1, 2, 3}, Family(d)))
  {
    assert Stamped(t, Orphan(d));
    assert Next(At(Two(d), {0, 1, 2}, Family(d)).world, Orphan(d));
  }

  lemma NewcomerStarts(t: Clock, d: Dates)
    requires True(t, d)
    ensures Acts(t, At(Three(d), {0, 3}, Family(d)), Starting(Newcomer(d)), At(Four(d), {0, 3, 4}, Family(d)))
  {
    assert Stamped(t, Newcomer(d));
    assert Next(At(Three(d), {0, 3}, Family(d)).world, Newcomer(d));
  }

  lemma FamilyIsTree(d: Dates)
    requires d.a != ""
    ensures !Blocked(FirstRows(d), {ROOT}) && Tree(FirstRows(d), {ROOT}) == {ROOT, REUSED}
  {
    var rows := FirstRows(d);
    TreeIsClosed(rows, {ROOT});
    assert Adopts(rows, ROOT, REUSED);
    TreeIsLeast(rows, {ROOT}, {ROOT, REUSED});
  }

  lemma FamilyIsRecorded(t: Clock, d: Dates)
    requires d.a != ""
    ensures Acts(t, At(Two(d), {0, 1, 2}, map[]), Remembering(FirstRows(d)), At(Two(d), {0, 1, 2}, Family(d)))
  {
    var rows := FirstRows(d);
    FirstRowsShowAll(d);
    FamilyIsRemembered(d);
  }

  lemma FamilyIsRemembered(d: Dates)
    requires d.a != ""
    ensures Remembered(map[], FirstRows(d), ROOT, Family(d))
  {
    var rows := FirstRows(d);
    FamilyIsTree(d);
    assert RememberRoots(map[], rows, ROOT) == {ROOT};
    assert Record(map[], rows, {ROOT, REUSED}) == Family(d);
    assert RecordsPart(map[], rows, {ROOT}, {ROOT, REUSED}, Family(d));
  }

  lemma FirstRowsShowAll(d: Dates)
    ensures Snapshot(At(Two(d), {0, 1, 2}, map[]).world, FirstRows(d))
  {
    var rows, w := FirstRows(d), At(Two(d), {0, 1, 2}, map[]).world;
    assert Shows(w, 0, HARNESS, rows[HARNESS]) && Shows(w, 1, ROOT, rows[ROOT]) && Shows(w, 2, REUSED, rows[REUSED]);
  }

  /** The last inventory shows nothing recorded, and the orphan passes. */
  lemma NothingSeen(d: Dates)
    requires d.a != "" && d.b != "" && LexLess(d.a, d.b) && d.a != d.b
    ensures var rows := LastRows(d);
            && Present(Family(d), rows) == {} && !Blocked(rows, {}) && Polled(Family(d), rows) == Family(d)
            && NoOrphan(Family(d), rows, {})
  {
    var rows := LastRows(d);
    LexTrichotomy(d.a, d.b);
    TreeIsLeast(rows, {}, {});
    assert Tree(rows, {}) == {};
    assert Present(Family(d), rows) == {};
    forall pid | pid in rows ensures Inspect(Family(d), rows, {}, pid) == Clear {
      assert pid == HARNESS || pid == REUSED || pid == ORPHAN;
    }
  }

  lemma Answers(t: Clock, d: Dates)
    requires d.a != "" && d.b != "" && LexLess(d.a, d.b) && d.a != d.b
    ensures var s := At(Four(d), {0, 3, 4}, Family(d)); Acts(t, s, Waiting(LastRows(d)), s)
  {
    var rows, w := LastRows(d), At(Four(d), {0, 3, 4}, Family(d)).world;
    NothingSeen(d);
    assert Shows(w, 0, HARNESS, rows[HARNESS]) && Shows(w, 4, REUSED, rows[REUSED]) && Shows(w, 3, ORPHAN, rows[ORPHAN]);
  }

  ghost function Recording(d: Dates): Run {
    Then(Then(Then(Begin(Alone(d)),
                   Launching(Root(d), false), At(One(d), {0, 1}, map[])),
              Starting(Recent(d)), At(Two(d), {0, 1, 2}, map[])),
         Remembering(FirstRows(d)), At(Two(d), {0, 1, 2}, Family(d)))
  }

  lemma RecordingIsRun(t: Clock, d: Dates)
    requires True(t, d) && d.a != ""
    ensures IsRun(t, Recording(d))
  {
    Begins(t, d);
    RootStarts(t, d);
    RecentStarts(t, d);
    FamilyIsRecorded(t, d);
    assert IsRun(t, Recording(d).before.before);
  }

  ghost function Leaving(d: Dates): Run {
    Then(Then(Then(Then(Recording(d),
                        Starting(Orphan(d)), At(Three(d), {0, 1, 2, 3}, Family(d))),
                   Exiting(2), At(Three(d), {0, 1, 3}, Family(d))),
              Exiting(1), At(Three(d), {0, 3}, Family(d))),
         Starting(Newcomer(d)), At(Four(d), {0, 3, 4}, Family(d)))
  }

  lemma LeavingIsRun(t: Clock, d: Dates)
    requires True(t, d) && d.a != ""
    ensures IsRun(t, Leaving(d))
  {
    RecordingIsRun(t, d);
    OrphanStarts(t, d);
    assert {0, 1, 2, 3} - {2} == {0, 1, 3} && {0, 1, 3} - {1} == {0, 3};
    NewcomerStarts(t, d);
    var run := Leaving(d);
    assert IsRun(t, run.before.before.before);
    assert IsRun(t, run.before.before);
  }

  lemma OrphanIsThere(d: Dates)
    ensures var s := Leaving(d).state;
            && Recorded(s.world, s.owned, 2) && LiveChild(s.world, 3, 2) && DescendsFrom(s.world, 3, 1)
            && !NoChildLeft(s.world, s.owned)
  {
    var s := Leaving(d).state;
    assert s.world.history == Four(d);
    assert LiveChild(s.world, 3, 2) && Recorded(s.world, s.owned, 2) && s.world.history[3].pid !in s.owned;
    assert DescendsFrom(s.world, 1, 1) && DescendsFrom(s.world, 2, 1);
  }

  /** For any two dates: a run at whose end `wait_gone` answers that nothing remains, though a child
      of a recorded incarnation, and so a descendant of the root, is alive. */
  lemma TiedOrphanIsMissed(t: Clock, d: Dates) returns (run: Run)
    requires True(t, d)
    ensures IsRun(t, run) && run.Then? && run.action.Waiting? && run.state.root == Some(1)
    ensures var s, rows := run.state, run.action.rows;
            && NoOrphan(s.owned, rows, Present(run.before.state.owned, rows)) && Present(s.owned, rows) == {}
            && Recorded(s.world, s.owned, 2) && LiveChild(s.world, 3, 2) && DescendsFrom(s.world, 3, 1)
            && !NoChildLeft(s.world, s.owned)
  {
    DatesAscend(t, d);
    LeavingIsRun(t, d);
    Answers(t, d);
    NothingSeen(d);
    OrphanIsThere(d);
    run := Then(Leaving(d), Waiting(LastRows(d)), Leaving(d).state);
  }

  /** The same at two given dates, as Python reads them. */
  lemma MissedInTwoSeconds() returns (run: Run)
    ensures IsRun(ClockOf(PYTHON), run) && run.Then? && run.action.Waiting? && Present(run.state.owned, run.action.rows) == {}
    ensures LiveChild(run.state.world, 3, 2) && DescendsFrom(run.state.world, 3, 1) && run.state.root == Some(1)
  {
    assert PYTHON.Valid();
    SecondsAreTrue(PYTHON);
    run := TiedOrphanIsMissed(ClockOf(PYTHON), SECONDS);
  }
}
