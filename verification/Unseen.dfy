/** What else an empty answer of `wait_gone` can leave behind, without any tie: three runs that end in
    one while the root or a descendant of it is alive. */
module Unseen {
  import opened Basics
  import opened CreationTime
  import opened ProcessTree
  import opened ProcessWorld
  import opened Ownership
  import opened Remnants
  import opened OwnershipTie
  import opened OrphanTie

  /** The run ends in a pass that does not raise and finds nothing remaining. */
  ghost predicate EndsEmpty(t: Clock, run: Run) {
    && IsRun(t, run) && run.Then? && run.action.Waiting?
    && NoOrphan(run.state.owned, run.action.rows, Present(run.before.state.owned, run.action.rows))
    && Present(run.state.owned, run.action.rows) == {}
  }

  lemma EmptyTree(rows: Inventory)
    ensures Tree(rows, {}) == {} && !Blocked(rows, {})
  {
    TreeIsLeast(rows, {}, {});
  }

  // --------------------------------------------------------- the root, undated

  function RootRows(d: Dates): Inventory {
    map[HARNESS := Row(0, d.a), ROOT := Row(HARNESS, d.a)]
  }

  function UndatedRows(d: Dates): Inventory {
    map[HARNESS := Row(0, d.a), ROOT := Row(HARNESS, "")]
  }

  function RootOnly(d: Dates): Owned {
    map[ROOT := Row(HARNESS, d.a)]
  }

  lemma RootIsRemembered(d: Dates)
    requires d.a != ""
    ensures Remembered(map[], RootRows(d), ROOT, RootOnly(d))
  {
    var rows := RootRows(d);
    TreeIsClosed(rows, {ROOT});
    TreeIsLeast(rows, {ROOT}, {ROOT});
    assert RememberRoots(map[], rows, ROOT) == {ROOT};
    assert Record(map[], rows, {ROOT}) == RootOnly(d);
    assert RecordsPart(map[], rows, {ROOT}, {ROOT}, RootOnly(d));
  }

  lemma RootIsRecorded(t: Clock, d: Dates)
    requires d.a != ""
    ensures Acts(t, At(One(d), {0, 1}, map[]), Remembering(RootRows(d)), At(One(d), {0, 1}, RootOnly(d)))
  {
    var w, rows := At(One(d), {0, 1}, map[]).world, RootRows(d);
    assert Shows(w, 0, HARNESS, rows[HARNESS]) && Shows(w, 1, ROOT, rows[ROOT]);
    RootIsRemembered(d);
  }

  ghost function RootRecorded(d: Dates): Run {
    Then(Then(Begin(Alone(d)), Launching(Root(d), false), At(One(d), {0, 1}, map[])),
         Remembering(RootRows(d)), At(One(d), {0, 1}, RootOnly(d)))
  }

  lemma RootRecordedIsRun(t: Clock, d: Dates)
    requires True(t, d)
    ensures IsRun(t, RootRecorded(d))
  {
    DatesAscend(t, d);
    OrphanTie.Begins(t, d);
    RootStarts(t, d);
    RootIsRecorded(t, d);
  }

  lemma UndatedPasses(t: Clock, d: Dates)
    requires d.a != ""
    ensures var s, rows := At(One(d), {0, 1}, RootOnly(d)), UndatedRows(d);
            && Acts(t, s, Waiting(rows), s) && NoOrphan(RootOnly(d), rows, {}) && Present(RootOnly(d), rows) == {}
  {
    var w, rows := At(One(d), {0, 1}, RootOnly(d)).world, UndatedRows(d);
    assert Shows(w, 0, HARNESS, rows[HARNESS]) && Shows(w, 1, ROOT, rows[ROOT]);
    assert Present(RootOnly(d), rows) == {};
    EmptyTree(rows);
    assert Polled(RootOnly(d), rows) == RootOnly(d);
  }

  /** The recorded root is alive, but the inventory shows it without a date. */
  lemma UndatedIsMissed(t: Clock, d: Dates) returns (run: Run)
    requires True(t, d)
    ensures EndsEmpty(t, run) && run.state.root == Some(1)
    ensures 1 in run.state.world.live && Recorded(run.state.world, run.state.owned, 1)
  {
    DatesAscend(t, d);
    RootRecordedIsRun(t, d);
    UndatedPasses(t, d);
    run := Then(RootRecorded(d), Waiting(UndatedRows(d)), At(One(d), {0, 1}, RootOnly(d)));
  }

  // ------------------------------------------------------- an unseen creator

  const LEFT := 30

  /** What a child of the root, started and gone between two inventories, leaves behind. */
  function Heir(d: Dates): Process { Process(LEFT, Some(2), REUSED, 10 * d.y, d.b) }

  function LeftRows(d: Dates): Inventory {
    map[HARNESS := Row(0, d.a), LEFT := Row(REUSED, d.b)]
  }

  function Heirs(d: Dates): seq<Process> { [Harness(d), Root(d), Recent(d), Heir(d)] }

  lemma CreatorStarts(t: Clock, d: Dates, owned: Owned)
    requires True(t, d)
    ensures Acts(t, At(One(d), {0, 1}, owned), Starting(Recent(d)), At(Two(d), {0, 1, 2}, owned))
  {
    assert Stamped(t, Recent(d));
    assert Next(At(One(d), {0, 1}, owned).world, Recent(d));
  }

  lemma HeirStarts(t: Clock, d: Dates, owned: Owned)
    requires True(t, d)
    ensures Acts(t, At(Two(d), {0, 1, 2}, owned), Starting(Heir(d)), At(Heirs(d), {0, 1, 2, 3}, owned))
  {
    assert Stamped(t, Heir(d));
    assert Next(At(Two(d), {0, 1, 2}, owned).world, Heir(d));
  }

  ghost function CreatorGone(d: Dates): Run {
    Then(Then(Then(Then(RootRecorded(d),
                        Starting(Recent(d)), At(Two(d), {0, 1, 2}, RootOnly(d))),
                   Starting(Heir(d)), At(Heirs(d), {0, 1, 2, 3}, RootOnly(d))),
              Exiting(2), At(Heirs(d), {0, 1, 3}, RootOnly(d))),
         Exiting(1), At(Heirs(d), {0, 3}, RootOnly(d)))
  }

  lemma CreatorGoneIsRun(t: Clock, d: Dates)
    requires True(t, d)
    ensures IsRun(t, CreatorGone(d))
  {
    RootRecordedIsRun(t, d);
    CreatorStarts(t, d, RootOnly(d));
    HeirStarts(t, d, RootOnly(d));
    assert {0, 1, 2, 3} - {2} == {0, 1, 3} && {0, 1, 3} - {1} == {0, 3};
    assert IsRun(t, CreatorGone(d).before.before);
  }

  lemma HeirPasses(t: Clock, d: Dates)
    requires d.a != "" && d.b != ""
    ensures var s, rows := At(Heirs(d), {0, 3}, RootOnly(d)), LeftRows(d);
            && Acts(t, s, Waiting(rows), s) && NoOrphan(RootOnly(d), rows, {}) && Present(RootOnly(d), rows) == {}
  {
    var w, rows := At(Heirs(d), {0, 3}, RootOnly(d)).world, LeftRows(d);
    assert Shows(w, 0, HARNESS, rows[HARNESS]) && Shows(w, 3, LEFT, rows[LEFT]);
    assert Present(RootOnly(d), rows) == {};
    EmptyTree(rows);
    assert Polled(RootOnly(d), rows) == RootOnly(d);
  }

  /** A descendant of the root is alive whose creator started and exited between two inventories. */
  lemma UnseenCreatorHides(t: Clock, d: Dates) returns (run: Run)
    requires True(t, d)
    ensures EndsEmpty(t, run) && run.state.root == Some(1)
    ensures var w := run.state.world;
            && 3 in w.live && DescendsFrom(w, 3, 1) && LiveChild(w, 3, 2) && !Recorded(w, run.state.owned, 2)
  {
    DatesAscend(t, d);
    CreatorGoneIsRun(t, d);
    HeirPasses(t, d);
    run := Then(CreatorGone(d), Waiting(LeftRows(d)), At(Heirs(d), {0, 3}, RootOnly(d)));
    var w := run.state.world;
    assert DescendsFrom(w, 1, 1) && DescendsFrom(w, 2, 1);
  }

  // -------------------------------------------------------- a recycled record

  /** A second child of the root, on the PID that the first one's own child takes over later. */
  function Sibling(d: Dates): Process { Process(LEFT, Some(1), ROOT, 10 * d.x, d.a) }

  function SiblingRows(d: Dates): Inventory {
    map[HARNESS := Row(0, d.a), ROOT := Row(HARNESS, d.a), REUSED := Row(ROOT, d.a), LEFT := Row(ROOT, d.a)]
  }

  function Siblings(d: Dates): Owned {
    map[ROOT := Row(HARNESS, d.a), REUSED := Row(ROOT, d.a), LEFT := Row(ROOT, d.a)]
  }

  function Before4(d: Dates): seq<Process> { [Harness(d), Root(d), Recent(d), Sibling(d)] }
  function After4(d: Dates): seq<Process> { [Harness(d), Root(d), Recent(d), Sibling(d), Heir(d)] }

  lemma SiblingStarts(t: Clock, d: Dates)
    requires True(t, d)
    ensures Acts(t, At(Two(d), {0, 1, 2}, map[]), Starting(Sibling(d)), At(Before4(d), {0, 1, 2, 3}, map[]))
  {
    assert Stamped(t, Sibling(d));
    assert Next(At(Two(d), {0, 1, 2}, map[]).world, Sibling(d));
  }

  lemma SiblingsAreTree(d: Dates)
    requires d.a != ""
    ensures !Blocked(SiblingRows(d), {ROOT}) && Tree(SiblingRows(d), {ROOT}) == {ROOT, REUSED, LEFT}
  {
    var rows := SiblingRows(d);
    TreeIsClosed(rows, {ROOT});
    assert Adopts(rows, ROOT, REUSED) && Adopts(rows, ROOT, LEFT);
    TreeIsLeast(rows, {ROOT}, {ROOT, REUSED, LEFT});
  }

  lemma SiblingsAreRemembered(d: Dates)
    requires d.a != ""
    ensures Remembered(map[], SiblingRows(d), ROOT, Siblings(d))
  {
    var rows := SiblingRows(d);
    SiblingsAreTree(d);
    assert RememberRoots(map[], rows, ROOT) == {ROOT};
    assert Record(map[], rows, {ROOT, REUSED, LEFT}) == Siblings(d);
    assert RecordsPart(map[], rows, {ROOT}, {ROOT, REUSED, LEFT}, Siblings(d));
  }

  lemma SiblingsAreShown(d: Dates)
    ensures Snapshot(At(Before4(d), {0, 1, 2, 3}, map[]).world, SiblingRows(d))
  {
    var w, rows := At(Before4(d), {0, 1, 2, 3}, map[]).world, SiblingRows(d);
    assert Shows(w, 0, HARNESS, rows[HARNESS]) && Shows(w, 1, ROOT, rows[ROOT]);
    assert Shows(w, 2, REUSED, rows[REUSED]) && Shows(w, 3, LEFT, rows[LEFT]);
  }

  lemma SiblingsAreRecorded(t: Clock, d: Dates)
    requires d.a != ""
    ensures Acts(t, At(Before4(d), {0, 1, 2, 3}, map[]), Remembering(SiblingRows(d)), At(Before4(d), {0, 1, 2, 3}, Siblings(d)))
  {
    SiblingsAreShown(d);
    SiblingsAreRemembered(d);
  }

  lemma HeirTakesOver(t: Clock, d: Dates)
    requires True(t, d)
    ensures Acts(t, At(Before4(d), {0, 1, 2}, Siblings(d)), Starting(Heir(d)), At(After4(d), {0, 1, 2, 4}, Siblings(d)))
  {
    assert Stamped(t, Heir(d));
    assert Next(At(Before4(d), {0, 1, 2}, Siblings(d)).world, Heir(d));
  }

  ghost function SiblingsRecorded(d: Dates): Run {
    Then(Then(Then(Then(Begin(Alone(d)),
                        Launching(Root(d), false), At(One(d), {0, 1}, map[])),
                   Starting(Recent(d)), At(Two(d), {0, 1, 2}, map[])),
              Starting(Sibling(d)), At(Before4(d), {0, 1, 2, 3}, map[])),
         Remembering(SiblingRows(d)), At(Before4(d), {0, 1, 2, 3}, Siblings(d)))
  }

  lemma SiblingsRecordedIsRun(t: Clock, d: Dates)
    requires True(t, d)
    ensures IsRun(t, SiblingsRecorded(d))
  {
    DatesAscend(t, d);
    OrphanTie.Begins(t, d);
    RootStarts(t, d);
    RecentStarts(t, d);
    SiblingStarts(t, d);
    SiblingsAreRecorded(t, d);
    assert IsRun(t, SiblingsRecorded(d).before.before);
  }

  ghost function TakenOver(d: Dates): Run {
    Then(Then(Then(Then(SiblingsRecorded(d),
                        Exiting(3), At(Before4(d), {0, 1, 2}, Siblings(d))),
                   Starting(Heir(d)), At(After4(d), {0, 1, 2, 4}, Siblings(d))),
              Exiting(2), At(After4(d), {0, 1, 4}, Siblings(d))),
         Exiting(1), At(After4(d), {0, 4}, Siblings(d)))
  }

  lemma TakenOverIsRun(t: Clock, d: Dates)
    requires True(t, d)
    ensures IsRun(t, TakenOver(d))
  {
    SiblingsRecordedIsRun(t, d);
    HeirTakesOver(t, d);
    assert {0, 1, 2, 3} - {3} == {0, 1, 2} && {0, 1, 2, 4} - {2} == {0, 1, 4} && {0, 1, 4} - {1} == {0, 4};
    assert IsRun(t, TakenOver(d).before.before);
  }

  lemma TakenOverPasses(t: Clock, d: Dates)
    requires d.a != "" && d.b != "" && d.a != d.b
    ensures var s, rows := At(After4(d), {0, 4}, Siblings(d)), LeftRows(d);
            && Acts(t, s, Waiting(rows), s) && NoOrphan(Siblings(d), rows, {}) && Present(Siblings(d), rows) == {}
  {
    var w, rows := At(After4(d), {0, 4}, Siblings(d)).world, LeftRows(d);
    assert Shows(w, 0, HARNESS, rows[HARNESS]) && Shows(w, 4, LEFT, rows[LEFT]);
    assert Present(Siblings(d), rows) == {};
    EmptyTree(rows);
    assert Polled(Siblings(d), rows) == Siblings(d);
  }

  /** A child of a recorded incarnation is alive on the PID of another recorded one that has exited;
      every row is dated and none is tied. */
  lemma RecycledKeyIsSkipped(t: Clock, d: Dates) returns (run: Run)
    requires True(t, d)
    ensures EndsEmpty(t, run) && run.state.root == Some(1)
    ensures forall pid :: pid in run.action.rows ==> Known(run.action.rows[pid]) && !SameDate(run.action.rows, pid)
    ensures var w, owned := run.state.world, run.state.owned;
            LiveChild(w, 4, 2) && Recorded(w, owned, 2) && DescendsFrom(w, 4, 1) && !Recorded(w, owned, 4)
  {
    DatesAscend(t, d);
    TakenOverIsRun(t, d);
    TakenOverPasses(t, d);
    run := Then(TakenOver(d), Waiting(LeftRows(d)), At(After4(d), {0, 4}, Siblings(d)));
    var w := run.state.world;
    assert DescendsFrom(w, 1, 1) && DescendsFrom(w, 2, 1);
  }

  /** All three at two given dates, as Python reads them. */
  lemma MissedWithoutTies() returns (undated: Run, unseen: Run, recycled: Run)
    ensures EndsEmpty(ClockOf(PYTHON), undated) && 1 in undated.state.world.live
    ensures EndsEmpty(ClockOf(PYTHON), unseen) && 3 in unseen.state.world.live && DescendsFrom(unseen.state.world, 3, 1)
    ensures EndsEmpty(ClockOf(PYTHON), recycled) && 4 in recycled.state.world.live && DescendsFrom(recycled.state.world, 4, 1)
  {
    assert PYTHON.Valid();
    SecondsAreTrue(PYTHON);
    undated := UndatedIsMissed(ClockOf(PYTHON), SECONDS);
    unseen := UnseenCreatorHides(ClockOf(PYTHON), SECONDS);
    recycled := RecycledKeyIsSkipped(ClockOf(PYTHON), SECONDS);
  }
}
