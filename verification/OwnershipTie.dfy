/** Why ownership needs inventories without tied strangers: a run in which a stranger is recorded as
    owned. */
module OwnershipTie {
  import opened Basics
  import opened CreationTime
  import opened ProcessTree
  import opened ProcessWorld
  import opened Ownership

  const HARNESS := 1
  const ROOT := 10
  const REUSED := 20
  const STRANGER := 30

  /** Two dates and their microseconds, the first one earlier. */
  datatype Dates = Dates(a: string, x: nat, b: string, y: nat)

  /** The harness and an unrelated process; the root; the stranger that process starts; and, in
      the stranger's own microsecond, a child of the root on the PID the process left behind. */
  function Harness(d: Dates): Process { Process(HARNESS, None, 0, 10 * d.x, d.a) }
  function Unrelated(d: Dates): Process { Process(REUSED, Some(0), HARNESS, 10 * d.x, d.a) }
  function Root(d: Dates): Process { Process(ROOT, Some(0), HARNESS, 10 * d.x, d.a) }
  function Stranger(d: Dates): Process { Process(STRANGER, Some(1), REUSED, 10 * d.y, d.b) }
  function Child(d: Dates): Process { Process(REUSED, Some(2), ROOT, 10 * d.y, d.b) }

  /** The dates are true ones. */
  ghost predicate True(t: Clock, d: Dates) {
    t.Valid() && d.x < d.y && Stamped(t, Root(d)) && Stamped(t, Child(d))
  }

  function Rows(d: Dates): Inventory {
    map[HARNESS := Row(0, d.a), ROOT := Row(HARNESS, d.a), REUSED := Row(ROOT, d.b), STRANGER := Row(REUSED, d.b)]
  }

  /** The states of the run. */
  function Initial(d: Dates): State {
    State(World([Harness(d), Unrelated(d)], {0, 1}, {}, {}), None, map[], map[], {})
  }

  function Launched1(d: Dates): State {
    State(World([Harness(d), Unrelated(d), Root(d)], {0, 1, 2}, {}, {ROOT}), Some(2), map[], map[], {})
  }

  function Started2(d: Dates): State {
    Launched1(d).(world := World([Harness(d), Unrelated(d), Root(d), Stranger(d)], {0, 1, 2, 3}, {}, {ROOT}))
  }

  function Exited3(d: Dates): State {
    Launched1(d).(world := World([Harness(d), Unrelated(d), Root(d), Stranger(d)], {0, 2, 3}, {}, {ROOT}))
  }

  function Started4(d: Dates): State {
    Launched1(d).(world := World([Harness(d), Unrelated(d), Root(d), Stranger(d), Child(d)], {0, 2, 3, 4}, {}, {ROOT}))
  }

  lemma Begins(t: Clock, d: Dates)
    requires True(t, d)
    ensures Init(t, Initial(d))
  {
    var w := Initial(d).world;
    assert Stamped(t, Harness(d)) && Stamped(t, Unrelated(d));
    FaithfulDates(t, w.history);
    assert ParentPrecedes(w, 0) && ParentPrecedes(w, 1);
  }

  lemma Launches(t: Clock, d: Dates)
    requires True(t, d)
    ensures Acts(t, Initial(d), Launching(Root(d), false), Launched1(d))
  {
    assert Next(Initial(d).world, Root(d));
  }

  lemma StrangerStarts(t: Clock, d: Dates)
    requires True(t, d)
    ensures Acts(t, Launched1(d), Starting(Stranger(d)), Started2(d))
  {
    assert Stamped(t, Stranger(d));
    assert Next(Launched1(d).world, Stranger(d));
  }

  lemma ChildStarts(t: Clock, d: Dates)
    requires True(t, d)
    ensures Acts(t, Exited3(d), Starting(Child(d)), Started4(d))
  {
    assert Next(Exited3(d).world, Child(d));
  }

  ghost function Prelude(d: Dates): Run {
    Then(Then(Then(Then(Begin(Initial(d)),
                        Launching(Root(d), false), Launched1(d)),
                   Starting(Stranger(d)), Started2(d)),
              Exiting(1), Exited3(d)),
         Starting(Child(d)), Started4(d))
  }

  lemma PreludeIsRun(t: Clock, d: Dates)
    requires True(t, d)
    ensures IsRun(t, Prelude(d))
  {
    Begins(t, d);
    Launches(t, d);
    StrangerStarts(t, d);
    assert Exited3(d).world.live == Started2(d).world.live - {1};
    ChildStarts(t, d);
    var run := Prelude(d);
    assert IsRun(t, run.before.before.before.before);
    assert IsRun(t, run.before.before);
  }

  lemma DatesAscend(t: Clock, d: Dates)
    requires True(t, d)
    ensures d.a != "" && d.b != "" && LexLess(d.a, d.b) && d.a != d.b
  {
    assert t.Agrees(d.a, d.b) && t.Agrees(d.b, d.a);
  }

  lemma AdoptsStranger(d: Dates)
    requires d.a != "" && d.b != "" && LexLess(d.a, d.b)
    ensures !Blocked(Rows(d), {ROOT}) && STRANGER in Tree(Rows(d), {ROOT})
  {
    var rows := Rows(d);
    TreeIsClosed(rows, {ROOT});
    assert Adopts(rows, ROOT, REUSED) && Adopts(rows, REUSED, STRANGER);
  }

  lemma ShowsAll(d: Dates)
    ensures Snapshot(Started4(d).world, Rows(d))
  {
    var w, rows := Started4(d).world, Rows(d);
    assert Shows(w, 0, HARNESS, rows[HARNESS]) && Shows(w, 2, ROOT, rows[ROOT]);
    assert Shows(w, 4, REUSED, rows[REUSED]) && Shows(w, 3, STRANGER, rows[STRANGER]);
  }

  ghost function Recorded5(d: Dates): State {
    Started4(d).(owned := Record(map[], Rows(d), Tree(Rows(d), {ROOT})))
  }

  lemma TreeIsRecorded(d: Dates)
    requires d.a != "" && d.b != "" && LexLess(d.a, d.b)
    ensures RecordsPart(map[], Rows(d), {ROOT}, Tree(Rows(d), {ROOT}), Recorded5(d).owned)
    ensures STRANGER in Recorded5(d).owned
  {
    AdoptsStranger(d);
    TreeIsKnown(Rows(d), {ROOT});
  }

  lemma RemembersStranger(t: Clock, d: Dates)
    requires d.a != "" && d.b != "" && LexLess(d.a, d.b)
    ensures Acts(t, Started4(d), Remembering(Rows(d)), Recorded5(d))
  {
    TreeIsRecorded(d);
    ShowsAll(d);
    assert RememberRoots(map[], Rows(d), ROOT) == {ROOT};
    assert Remembered(map[], Rows(d), ROOT, Recorded5(d).owned);
  }

  lemma NotADescendant(d: Dates, owned: Owned)
    requires STRANGER in owned
    ensures !Sound(Started4(d).world, 2, owned)
  {
    var w := Started4(d).world;
    assert !DescendsFrom(w, 0, 2) && !DescendsFrom(w, 1, 2) && !DescendsFrom(w, 3, 2);
    assert !Belongs(w, 2, STRANGER, owned[STRANGER]);
  }

  /** For any two dates: a run whose last inventory makes `remember_tree` record a process that does
      not descend from the root. */
  lemma TiedOrphanIsAdopted(t: Clock, d: Dates) returns (run: Run)
    requires True(t, d)
    ensures IsRun(t, run) && run.state.root == Some(2) && !Sound(run.state.world, 2, run.state.owned)
  {
    PreludeIsRun(t, d);
    DatesAscend(t, d);
    RemembersStranger(t, d);
    TreeIsRecorded(d);
    run := Then(Prelude(d), Remembering(Rows(d)), Recorded5(d));
    NotADescendant(d, Recorded5(d).owned);
  }

  const SECONDS := Dates(EPOCH, 11644473600000000, SECOND, 11644473601000000)

  lemma WrittenDate(digits: Alphabet, p: Process)
    requires digits.Stamp(p.created) && digits.CreationTicks(p.created) == Ok(Micros(p) * 10)
    ensures Stamped(ClockOf(digits), p)
  {
  }

  lemma SecondsAreTrue(digits: Alphabet)
    requires digits.Valid()
    ensures True(ClockOf(digits), SECONDS)
  {
    ClockIsValid(digits);
    assert Stamped(ClockOf(digits), Root(SECONDS)) by {
      UnixEpoch(digits);
      WrittenDate(digits, Root(SECONDS));
    }
    assert Stamped(ClockOf(digits), Child(SECONDS)) by {
      UnixSecond(digits);
      WrittenDate(digits, Child(SECONDS));
    }
  }

  /** The same at two given dates, as Python reads them. */
  lemma TieInTwoSeconds() returns (run: Run)
    ensures IsRun(ClockOf(PYTHON), run) && run.state.root == Some(2) && !Sound(run.state.world, 2, run.state.owned)
  {
    assert PYTHON.Valid();
    SecondsAreTrue(PYTHON);
    run := TiedOrphanIsAdopted(ClockOf(PYTHON), SECONDS);
  }
}
