/** The single-flight Skills load of Sources/ChadexApp/AppModel.swift. Everything runs on the main
    actor: the code between two `await`s is one atomic step, and steps interleave freely. */
module SkillsLoad {
  import opened Basics

  /** The model's fields; tokens are drawn along with tasks, so a task's number serves as
      its token. */
  datatype Fields = Fields(task: Option<nat>, token: Option<nat>, project: Option<nat>, reload: bool, loading: bool)

  const IDLE := Fields(None, None, None, false, false)

  /** The fields after a call of `loadSkills` for a selected project: join the load of that
      project, or start task number `next`. */
  function Called(f: Fields, selected: nat, next: nat): Fields {
    if f.task.Some? && f.project == Some(selected) then f.(reload := true)
    else Fields(Some(next), Some(next), Some(selected), false, true)
  }

  /** Whether the load goes round again after a pass. */
  predicate Repeats(f: Fields, task: nat, project: nat, selected: Option<nat>, shuttingDown: bool) {
    f.reload && f.token == Some(task) && selected == Some(project) && !shuttingDown
  }

  /** The fields once the load has left its loop: only its own state is cleared. */
  function Finished(f: Fields, task: nat): Fields {
    if f.token == Some(task) then IDLE else f
  }

  /** The part of the model the load works on. */
  class Model {
    var skillsLoadTask: Option<nat>
    var skillsLoadToken: Option<nat>
    var skillsLoadProjectID: Option<nat>
    var skillsReloadRequested: bool
    var skillsLoading: bool

    ghost function State(): Fields
      reads this
    {
      Fields(skillsLoadTask, skillsLoadToken, skillsLoadProjectID, skillsReloadRequested, skillsLoading)
    }

    constructor ()
      ensures State() == IDLE
    {
      skillsLoadTask, skillsLoadToken, skillsLoadProjectID := None, None, None;
      skillsReloadRequested, skillsLoading := false, false;
    }

    /** `loadSkills` up to its `await`: the load to wait for, if a project is selected. */
    method LoadSkills(selected: Option<nat>, next: nat) returns (awaited: Option<nat>)
      modifies this
      ensures selected == None ==> State() == old(State()) && awaited == None
      ensures selected.Some? ==> State() == Called(old(State()), selected.value, next) && awaited == State().task
    {
      if selected == None { return None; }
      if skillsLoadTask.Some? && skillsLoadProjectID == selected {
        skillsReloadRequested := true;
        return skillsLoadTask;
      }
      skillsLoadToken, skillsLoadProjectID := Some(next), selected;
      skillsReloadRequested, skillsLoading := false, true;
      skillsLoadTask := Some(next);
      return skillsLoadTask;
    }

    /** The start of a pass. */
    method BeginPass()
      modifies this
      ensures State() == old(State()).(reload := false)
    {
      skillsReloadRequested := false;
    }

    /** The end of a pass: go round again, or leave the loop and clear the load's own state. */
    method EndPass(task: nat, project: nat, selected: Option<nat>, shuttingDown: bool) returns (again: bool)
      modifies this
      ensures again <==> Repeats(old(State()), task, project, selected, shuttingDown)
      ensures State() == if again then old(State()).(reload := false) else Finished(old(State()), task)
    {
      again := skillsReloadRequested && skillsLoadToken == Some(task) && selected == Some(project) && !shuttingDown;
      if again {
        skillsReloadRequested := false;
      } else if skillsLoadToken == Some(task) {
        skillsLoadTask, skillsLoadToken, skillsLoadProjectID := None, None, None;
        skillsReloadRequested, skillsLoading := false, false;
      }
    }
  }

  // --------------------------------------------------------- interleavings

  datatype Status = Created | Catalog(began: nat) | Inventory(began: nat) | Done

  /** A load task; `full` is when its last full pass began, one that no change of the selection cut
      short. */
  datatype Load = Load(project: nat, status: Status, full: Option<nat>)

  /** A caller of `loadSkills`; it is steady while its project stays selected and the app runs. */
  datatype Caller = Caller(project: nat, calledAt: nat, task: nat, steady: bool, returned: bool)

  datatype State = State(now: nat, selected: Option<nat>, shuttingDown: bool, fields: Fields,
                         loads: seq<Load>, callers: seq<Caller>)

  datatype Action =
    | Select(project: Option<nat>)
    | Shutdown
    | Call
    | BodyStarts(task: nat)
    | CatalogAnswers(task: nat, succeeded: bool)
    | InventoryAnswers(task: nat)
    | Returns(caller: nat)

  predicate Enabled(s: State, a: Action) {
    match a
    case BodyStarts(i) => i < |s.loads| && s.loads[i].status.Created?
    case CatalogAnswers(i, _) => i < |s.loads| && s.loads[i].status.Catalog?
    case InventoryAnswers(i) => i < |s.loads| && s.loads[i].status.Inventory?
    case Returns(c) =>
      && c < |s.callers| && !s.callers[c].returned
      && s.callers[c].task < |s.loads| && s.loads[s.callers[c].task].status.Done?
    case _ => true
  }

  /** Bodies start in creation order. */
  predicate InOrder(s: State, a: Action) {
    a.BodyStarts? ==> forall j :: 0 <= j < a.task && j < |s.loads| ==> !s.loads[j].status.Created?
  }

  function Unsettle(callers: seq<Caller>, selected: Option<nat>, shuttingDown: bool): (r: seq<Caller>)
    ensures |r| == |callers|
    ensures forall c :: 0 <= c < |r| ==>
              r[c] == callers[c].(steady := callers[c].steady && (callers[c].returned
                                            || (selected == Some(callers[c].project) && !shuttingDown)))
  {
    if callers == [] then []
    else
      var c := callers[|callers| - 1];
      Unsettle(callers[..|callers| - 1], selected, shuttingDown)
      + [c.(steady := c.steady && (c.returned || (selected == Some(c.project) && !shuttingDown)))]
  }

  /** Task `i` ends a pass begun at `began`. */
  function PassEnds(s: State, i: nat, began: nat): State
    requires i < |s.loads|
  {
    var load := s.loads[i];
    var load' := if s.selected == Some(load.project) then load.(full := Some(began)) else load;
    if Repeats(s.fields, i, load.project, s.selected, s.shuttingDown) then
      s.(now := s.now + 1, fields := s.fields.(reload := false), loads := s.loads[i := load'.(status := Catalog(s.now))])
    else
      s.(now := s.now + 1, fields := Finished(s.fields, i), loads := s.loads[i := load'.(status := Done)])
  }

  function Next(s: State, a: Action): State
    requires Enabled(s, a)
  {
    match a
    case Select(p) => s.(now := s.now + 1, selected := p, callers := Unsettle(s.callers, p, s.shuttingDown))
    case Shutdown => s.(now := s.now + 1, shuttingDown := true, callers := Unsettle(s.callers, s.selected, true))
    case Call =>
      if s.selected == None then s.(now := s.now + 1)
      else
        var p := s.selected.value;
        var joins := s.fields.task.Some? && s.fields.project == Some(p);
        var task := if joins then s.fields.task.value else |s.loads|;
        s.(now := s.now + 1, fields := Called(s.fields, p, |s.loads|),
           loads := s.loads + (if joins then [] else [Load(p, Created, None)]),
           callers := s.callers + [Caller(p, s.now, task, !s.shuttingDown, false)])
    case BodyStarts(i) =>
      var s0 := s.(fields := s.fields.(reload := false));
      if s.selected == Some(s.loads[i].project) then s0.(now := s.now + 1, loads := s.loads[i := s.loads[i].(status := Catalog(s.now))])
      else PassEnds(s0, i, s.now)
    case CatalogAnswers(i, succeeded) =>
      if s.selected == Some(s.loads[i].project) && succeeded then
        s.(now := s.now + 1, loads := s.loads[i := s.loads[i].(status := Inventory(s.loads[i].status.began))])
      else PassEnds(s, i, s.loads[i].status.began)
    case InventoryAnswers(i) => PassEnds(s, i, s.loads[i].status.began)
    case Returns(c) => s.(now := s.now + 1, callers := s.callers[c := s.callers[c].(returned := true)])
  }

  const LAUNCH := State(0, None, false, IDLE, [], [])

  datatype Run = Launch | Then(before: Run, action: Action, state: State)

  function Now(run: Run): State {
    if run.Launch? then LAUNCH else run.state
  }

  ghost predicate IsRun(run: Run) {
    run.Then? ==> IsRun(run.before) && Enabled(Now(run.before), run.action) && run.state == Next(Now(run.before), run.action)
  }

  /** Every body of the run starts in order. */
  ghost predicate Orderly(run: Run) {
    run.Then? ==> Orderly(run.before) && InOrder(Now(run.before), run.action)
  }

  // -------------------------------------------------------------- invariant

  /** The load the model points at is the newest one, still at work; nothing else is set without
      it. */
  ghost predicate FieldsInv(s: State) {
    && (s.fields.task == None ==> s.fields == IDLE)
    && (s.fields.task.Some? ==>
          var i := s.fields.task.value;
          && i + 1 == |s.loads| && !s.loads[i].status.Done?
          && s.fields.token == Some(i) && s.fields.project == Some(s.loads[i].project) && s.fields.loading)
  }

  ghost predicate Started(s: State) {
    forall i, j :: 0 <= j < i < |s.loads| && !s.loads[i].status.Created? ==> !s.loads[j].status.Created?
  }

  /** What a steady caller can count on. */
  ghost predicate CallerInv(s: State, c: Caller) {
    && c.task < |s.loads| && c.project == s.loads[c.task].project && c.calledAt < s.now
    && (c.returned ==> s.loads[c.task].status.Done?)
    && (c.steady && !c.returned ==> s.selected == Some(c.project) && !s.shuttingDown)
    && (c.steady ==>
          match s.loads[c.task].status
          case Created => s.fields.task == Some(c.task)
          case Catalog(began) => s.fields.task == Some(c.task) && (began >= c.calledAt || s.fields.reload)
          case Inventory(began) => s.fields.task == Some(c.task) && (began >= c.calledAt || s.fields.reload)
          case Done => s.loads[c.task].full.Some? && s.loads[c.task].full.value >= c.calledAt)
  }

  ghost predicate CallersInv(s: State) {
    forall c :: c in s.callers ==> CallerInv(s, c)
  }

  ghost predicate Inv(s: State) {
    FieldsInv(s) && Started(s) && CallersInv(s)
  }

  lemma NextKeepsFields(s: State, a: Action)
    requires FieldsInv(s) && Enabled(s, a)
    ensures FieldsInv(Next(s, a))
  {
  }

  /** In every run, whatever the order of the bodies. */
  lemma {:induction false} RunKeepsFields(run: Run)
    requires IsRun(run)
    ensures FieldsInv(Now(run))
  {
    if run.Then? {
      RunKeepsFields(run.before);
      NextKeepsFields(Now(run.before), run.action);
    }
  }

  lemma PassEndsKeepsInv(s: State, i: nat, began: nat)
    requires Inv(s) && i < |s.loads| && (s.loads[i].status == Catalog(began) || s.loads[i].status == Inventory(began))
    ensures Inv(PassEnds(s, i, began))
  {
  }

  lemma BodyStartsKeepsInv(s: State, i: nat)
    requires Inv(s) && Enabled(s, BodyStarts(i)) && InOrder(s, BodyStarts(i))
    ensures Inv(Next(s, BodyStarts(i)))
  {
    var s' := Next(s, BodyStarts(i));
    forall c | c in s'.callers ensures CallerInv(s', c) {
      assert CallerInv(s, c);
    }
  }

  lemma CallKeepsInv(s: State)
    requires Inv(s)
    ensures Inv(Next(s, Call))
  {
    var s' := Next(s, Call);
    forall c | c in s'.callers ensures CallerInv(s', c) {
      if c in s.callers { assert CallerInv(s, c); }
    }
  }

  lemma UnsettleKeepsInv(s: State, selected: Option<nat>, shuttingDown: bool)
    requires Inv(s)
    ensures Inv(s.(now := s.now + 1, selected := selected, shuttingDown := shuttingDown,
                   callers := Unsettle(s.callers, selected, shuttingDown)))
  {
    var callers := Unsettle(s.callers, selected, shuttingDown);
    var s' := s.(now := s.now + 1, selected := selected, shuttingDown := shuttingDown, callers := callers);
    forall c | c in s'.callers ensures CallerInv(s', c) {
      var k :| 0 <= k < |callers| && callers[k] == c;
      assert s.callers[k] in s.callers && CallerInv(s, s.callers[k]);
    }
  }

  lemma OtherStepsKeepInv(s: State, a: Action)
    requires Inv(s) && Enabled(s, a) && (a.CatalogAnswers? || a.InventoryAnswers? || a.Returns?)
    ensures Inv(Next(s, a))
  {
    var s' := Next(s, a);
    if a.InventoryAnswers? || (a.CatalogAnswers? && !(s.selected == Some(s.loads[a.task].project) && a.succeeded)) {
      PassEndsKeepsInv(s, a.task, s.loads[a.task].status.began);
    } else {
      forall c | c in s'.callers ensures CallerInv(s', c) {
        if a.Returns? && c !in s.callers { assert CallerInv(s, s.callers[a.caller]); } else { assert CallerInv(s, c); }
      }
    }
  }

  lemma NextKeepsInv(s: State, a: Action)
    requires Inv(s) && Enabled(s, a) && InOrder(s, a)
    ensures Inv(Next(s, a))
  {
    match a {
      case Select(p) => UnsettleKeepsInv(s, p, s.shuttingDown);
      case Shutdown => UnsettleKeepsInv(s, s.selected, true);
      case Call => CallKeepsInv(s);
      case BodyStarts(i) => BodyStartsKeepsInv(s, i);
      case _ => OtherStepsKeepInv(s, a);
    }
  }

  lemma {:induction false} RunKeepsInv(run: Run)
    requires IsRun(run) && Orderly(run)
    ensures Inv(Now(run))
  {
    if run.Then? {
      RunKeepsInv(run.before);
      NextKeepsInv(Now(run.before), run.action);
    }
  }

  // ------------------------------------------------------------ over all runs

  /** In every run the spinner shows exactly while a load is set, and the load set is the newest
      one. */
  lemma LoadingMeansTask(run: Run)
    requires IsRun(run)
    ensures var s := Now(run);
            && (s.fields.loading <==> s.fields.task.Some?) && s.fields.token == s.fields.task
            && (s.fields.task.Some? ==> s.fields.task.value + 1 == |s.loads| && !s.loads[s.fields.task.value].status.Done?)
  {
    RunKeepsFields(run);
  }

  /** No reload is lost: a caller whose project stayed selected while the app ran returns only
      after a complete pass that began after its call. */
  lemma NoLostReload(run: Run, k: nat)
    requires IsRun(run) && Orderly(run) && k < |Now(run).callers|
    requires Now(run).callers[k].returned && Now(run).callers[k].steady
    ensures var s, c := Now(run), Now(run).callers[k];
            && c.task < |s.loads| && s.loads[c.task].project == c.project
            && s.loads[c.task].full.Some? && s.loads[c.task].full.value >= c.calledAt
  {
    RunKeepsInv(run);
    assert CallerInv(Now(run), Now(run).callers[k]);
  }

  predicate Advances(a: Action) {
    a.BodyStarts? || a.CatalogAnswers? || a.InventoryAnswers?
  }

  /** In every run a superseded load leaves a newer load's state alone, but for a reload request that
      the first step of its body withdraws. */
  lemma SupersededLoadIsHarmless(run: Run, a: Action)
    requires IsRun(run) && Enabled(Now(run), a) && Advances(a) && a.task + 1 < |Now(run).loads|
    ensures var s := Now(run);
            Next(s, a).fields == if a.BodyStarts? then s.fields.(reload := false) else s.fields
  {
    RunKeepsFields(run);
    var s := Now(run);
    if s.fields.task.Some? { assert s.fields.task.value != a.task; }
  }

  /** When bodies start in order, a newer load has yet to begin at that point and will satisfy the
      request with its first pass. */
  lemma WithdrawnRequestIsMet(run: Run, a: Action)
    requires IsRun(run) && Orderly(run) && Enabled(Now(run), a) && InOrder(Now(run), a)
    requires Advances(a) && a.task + 1 < |Now(run).loads| && Next(Now(run), a).fields != Now(run).fields
    ensures var s := Now(run);
            a.BodyStarts? && s.fields.task == Some(|s.loads| - 1) && s.loads[|s.loads| - 1].status.Created?
  {
    RunKeepsInv(run);
    SupersededLoadIsHarmless(run, a);
  }

  // ------------------------------------------------------------ out of order

  /** Two projects called in turn, no body begun. */
  const TWO_LOADS := State(4, Some(2), false, Fields(Some(1), Some(1), Some(2), false, true),
                           [Load(1, Created, None), Load(2, Created, None)],
                           [Caller(1, 1, 0, false, false), Caller(2, 3, 1, true, false)])

  /** The second body has begun and another caller has joined it. */
  const JOINED := State(6, Some(2), false, Fields(Some(1), Some(1), Some(2), true, true),
                        [Load(1, Created, None), Load(2, Catalog(4), None)],
                        TWO_LOADS.callers + [Caller(2, 5, 1, true, false)])

  /** One project called, its body not begun. */
  const ONE_LOAD := State(2, Some(1), false, Fields(Some(0), Some(0), Some(1), false, true),
                          [Load(1, Created, None)], [Caller(1, 1, 0, true, false)])

  lemma CallOnce() returns (run: Run)
    ensures IsRun(run) && Now(run) == ONE_LOAD
  {
    var s1 := Next(LAUNCH, Select(Some(1)));
    var s2 := Next(s1, Call);
    assert s2.loads == ONE_LOAD.loads && s2.callers == ONE_LOAD.callers;
    run := Then(Then(Launch, Select(Some(1)), s1), Call, s2);
  }

  /** Another project selected since. */
  const SELECTED := ONE_LOAD.(now := 3, selected := Some(2), callers := [Caller(1, 1, 0, false, false)])

  lemma SelectOther() returns (run: Run)
    ensures IsRun(run) && Now(run) == SELECTED
  {
    var once := CallOnce();
    var s := Next(ONE_LOAD, Select(Some(2)));
    assert s.callers == SELECTED.callers;
    run := Then(once, Select(Some(2)), s);
  }

  lemma CallTwice() returns (run: Run)
    ensures IsRun(run) && Now(run) == TWO_LOADS
  {
    var selected := SelectOther();
    var s := Next(SELECTED, Call);
    assert s.loads == TWO_LOADS.loads && s.callers == TWO_LOADS.callers;
    run := Then(selected, Call, s);
  }

  lemma JoinOvertaking() returns (run: Run)
    ensures IsRun(run) && !Orderly(run) && Now(run) == JOINED
  {
    var begun := CallTwice();
    var s1 := Next(TWO_LOADS, BodyStarts(1));
    var s2 := Next(s1, Call);
    assert TWO_LOADS.loads[0].status.Created?;
    assert s2.loads == JOINED.loads && s2.callers == JOINED.callers;
    run := Then(Then(begun, BodyStarts(1), s1), Call, s2);
  }

  /** The order matters: when an overtaken body starts late, it withdraws the reload a caller of the
      newer load asked for, and that caller returns with a pass begun before its call. */
  lemma LateBodyLosesReload() returns (run: Run)
    ensures IsRun(run) && !Orderly(run)
    ensures var s := Now(run);
            && |s.callers| == 3 && s.callers[2].returned && s.callers[2].steady && s.callers[2].task == 1
            && |s.loads| == 2 && s.loads[1].full == Some(4) && s.callers[2].calledAt == 5
  {
    var joined := JoinOvertaking();
    var s1 := Next(JOINED, BodyStarts(0));
    var s2 := Next(s1, CatalogAnswers(1, false));
    assert s2.loads == [Load(1, Done, None), Load(2, Done, Some(4))];
    var s3 := Next(s2, Returns(2));
    run := Then(joined, BodyStarts(0), s1);
    assert IsRun(run) && !Orderly(run);
    run := Then(Then(run, CatalogAnswers(1, false), s2), Returns(2), s3);
  }
}
