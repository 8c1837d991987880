/** The gates of Sources/ChadexApp/AppModel.swift between connecting, disconnecting, realigning and
    switching the runtime's project. Each operation runs on the main actor and is suspended at its
    `await`s, where every other one may act. */
module RuntimeGates {
  import opened Basics

  datatype Connection = Connecting | Disconnecting

  datatype Fields = Fields(connection: Option<Connection>, realigning: bool, switching: bool, gate: Option<nat>,
                           attempted: Option<nat>, selected: Option<nat>)
  {
    predicate ConnectionActionInFlight() {
      connection.Some? || realigning
    }

    predicate MayRealign(world: World) {
      && selected.Some? && attempted != selected && world.runtimeReady && !world.bootstrapping
      && !switching && !ConnectionActionInFlight() && !world.prewarming && !world.shuttingDown
    }

    /** The switch to `id` has been let through the gate and there is something to switch. */
    predicate MaySwitch(id: nat, known: bool) {
      gate == None && selected != Some(id) && known
    }
  }

  /** What the rest of the app decides. */
  datatype World = World(runtimeReady: bool, bootstrapping: bool, prewarming: bool, shuttingDown: bool)

  const IDLE := Fields(None, false, false, None, None, None)

  /** One switch at a time. */
  class ProjectSwitchGate {
    var activeProjectID: Option<nat>

    constructor ()
      ensures activeProjectID == None
    {
      activeProjectID := None;
    }

    method Begin(id: nat) returns (admitted: bool)
      modifies this
      ensures admitted <==> old(activeProjectID) == None
      ensures activeProjectID == if admitted then Some(id) else old(activeProjectID)
    {
      if activeProjectID.Some? { return false; }
      activeProjectID := Some(id);
      return true;
    }

    method Finish(id: nat)
      modifies this
      ensures activeProjectID == if old(activeProjectID) == Some(id) then None else old(activeProjectID)
    {
      if activeProjectID == Some(id) { activeProjectID := None; }
    }
  }

  /** The atomic parts of the operations. */
  class Model {
    var connectionAction: Option<Connection>
    var isRealigningRuntimeProject: bool
    var isSwitchingProject: bool
    const projectSwitchGate: ProjectSwitchGate
    var runtimeProjectRealignAttemptedID: Option<nat>
    var selectedProjectID: Option<nat>

    ghost function State(): Fields
      reads this, projectSwitchGate
    {
      Fields(connectionAction, isRealigningRuntimeProject, isSwitchingProject, projectSwitchGate.activeProjectID,
             runtimeProjectRealignAttemptedID, selectedProjectID)
    }

    constructor ()
      ensures State() == IDLE && fresh(projectSwitchGate)
    {
      connectionAction, isRealigningRuntimeProject, isSwitchingProject := None, false, false;
      projectSwitchGate := new ProjectSwitchGate();
      runtimeProjectRealignAttemptedID, selectedProjectID := None, None;
    }

    /** `connectChatGPT` and `disconnectChatGPT` up to their first `await`. */
    method StartConnection(action: Connection) returns (started: bool)
      modifies this
      ensures started <==> !old(State()).ConnectionActionInFlight()
      ensures State() == if started then old(State()).(connection := Some(action)) else old(State())
    {
      if connectionAction.Some? || isRealigningRuntimeProject { return false; }
      connectionAction := Some(action);
      return true;
    }

    /** Their `defer`. */
    method EndConnection()
      modifies this
      ensures State() == old(State()).(connection := None)
    {
      connectionAction := None;
    }

    /** `realignRuntimeProjectIfNeeded` up to its request. */
    method StartRealign(world: World) returns (started: bool)
      modifies this
      ensures started <==> old(State()).MayRealign(world)
      ensures State() == if started then old(State()).(attempted := old(State()).selected, realigning := true) else old(State())
    {
      if selectedProjectID == None || runtimeProjectRealignAttemptedID == selectedProjectID || !world.runtimeReady
         || world.bootstrapping || isSwitchingProject || connectionAction.Some? || isRealigningRuntimeProject
         || world.prewarming || world.shuttingDown
      {
        return false;
      }
      runtimeProjectRealignAttemptedID := selectedProjectID;
      isRealigningRuntimeProject := true;
      return true;
    }

    /** Its end; a runtime that was not ready keeps the chance. */
    method EndRealign(notReady: bool)
      modifies this
      ensures State() == RealignEnded(old(State()), notReady)
    {
      if notReady { runtimeProjectRealignAttemptedID := None; }
      isRealigningRuntimeProject := false;
    }

    /** `selectProject` from the gate to its request. */
    method BeginSwitch(id: nat, known: bool) returns (switches: bool)
      modifies this, projectSwitchGate
      ensures switches <==> old(State()).MaySwitch(id, known)
      ensures State() == if switches then old(State()).(gate := Some(id), switching := true) else old(State())
    {
      var admitted := projectSwitchGate.Begin(id);
      if !admitted { return false; }
      if selectedProjectID == Some(id) || !known {
        projectSwitchGate.Finish(id);
        return false;
      }
      isSwitchingProject := true;
      return true;
    }

    /** `selectProject` from the decision to `endProjectSwitch`. */
    method EndSwitch(id: nat, adopted: bool)
      modifies this, projectSwitchGate
      ensures State() == SwitchEnded(old(State()), id, adopted)
    {
      if adopted { selectedProjectID := Some(id); }
      isSwitchingProject := false;
      projectSwitchGate.Finish(id);
    }
  }

  function RealignEnded(f: Fields, notReady: bool): Fields {
    f.(realigning := false, attempted := if notReady then None else f.attempted)
  }

  function SwitchEnded(f: Fields, id: nat, adopted: bool): Fields {
    f.(switching := false, gate := if f.gate == Some(id) then None else f.gate,
       selected := if adopted then Some(id) else f.selected)
  }

  // --------------------------------------------------------- interleavings

  /** An operation between two of its segments. A switch first waits for a realignment to finish;
      when that wait has returned, the switch is pending until its own next segment. */
  datatype Op =
    | Connection(action: Connection)
    | Realign
    | Refresh
    | Wait(id: nat)
    | Pending(id: nat)
    | Switch(id: nat)
    | Ended

  /** The history of realignments: the project of each attempt, and each result that was not
      ready. */
  datatype Event = Attempt(project: nat) | NotReady

  datatype State = State(fields: Fields, world: World, ops: seq<Op>, events: seq<Event>)

  datatype Outcome = Ready | RuntimeNotReady | Failed

  datatype Action =
    | WorldChanges(world: World)
    | SelectionChanges(selected: Option<nat>)
    | CallConnection(action: Connection)
    | ConnectionEnds(op: nat)
    | CallRealign
    | RealignAnswers(op: nat, outcome: Outcome)
    | RefreshEnds(op: nat)
    | CallSelect(id: nat)
    | WaitTurns(op: nat, givesUp: bool)
    | SwitchBegins(op: nat, known: bool)
    | SwitchEnds(op: nat, adopted: bool)

  predicate Enabled(s: State, a: Action) {
    match a
    case ConnectionEnds(i) => i < |s.ops| && s.ops[i].Connection?
    case RealignAnswers(i, _) => i < |s.ops| && s.ops[i].Realign?
    case RefreshEnds(i) => i < |s.ops| && s.ops[i].Refresh?
    case WaitTurns(i, _) => i < |s.ops| && s.ops[i].Wait?
    case SwitchBegins(i, _) => i < |s.ops| && s.ops[i].Pending?
    case SwitchEnds(i, _) => i < |s.ops| && s.ops[i].Switch?
    case _ => true
  }

  /** What becomes of a waiting switch when it looks again. */
  function Waited(s: State, id: nat, givesUp: bool): Op {
    if s.fields.realigning then (if s.world.shuttingDown || givesUp then Ended else Wait(id))
    else if s.world.shuttingDown then Ended
    else Pending(id)
  }

  function Next(s: State, a: Action): State
    requires Enabled(s, a)
  {
    match a
    case WorldChanges(w) => s.(world := w)
    case SelectionChanges(p) => s.(fields := s.fields.(selected := p))
    case CallConnection(c) =>
      if s.fields.ConnectionActionInFlight() then s
      else s.(fields := s.fields.(connection := Some(c)), ops := s.ops + [Connection(c)])
    case ConnectionEnds(i) => s.(fields := s.fields.(connection := None), ops := s.ops[i := Ended])
    case CallRealign =>
      if !s.fields.MayRealign(s.world) then s
      else s.(fields := s.fields.(attempted := s.fields.selected, realigning := true), ops := s.ops + [Realign],
              events := s.events + [Attempt(s.fields.selected.value)])
    case RealignAnswers(i, outcome) =>
      if outcome == Ready then s.(ops := s.ops[i := Refresh])
      else s.(fields := RealignEnded(s.fields, outcome == RuntimeNotReady), ops := s.ops[i := Ended],
              events := if outcome == RuntimeNotReady then s.events + [NotReady] else s.events)
    case RefreshEnds(i) => s.(fields := RealignEnded(s.fields, false), ops := s.ops[i := Ended])
    case CallSelect(id) => s.(ops := s.ops + [Wait(id)])
    case WaitTurns(i, givesUp) => s.(ops := s.ops[i := Waited(s, s.ops[i].id, givesUp)])
    case SwitchBegins(i, known) =>
      var id := s.ops[i].id;
      if s.fields.MaySwitch(id, known) then
        s.(fields := s.fields.(gate := Some(id), switching := true), ops := s.ops[i := Switch(id)])
      else s.(ops := s.ops[i := Ended])
    case SwitchEnds(i, adopted) => s.(fields := SwitchEnded(s.fields, s.ops[i].id, adopted), ops := s.ops[i := Ended])
  }

  datatype Run = Launch(world: World) | Then(before: Run, action: Action, state: State)

  function Now(run: Run): State {
    if run.Launch? then State(IDLE, run.world, [], []) else run.state
  }

  ghost predicate IsRun(run: Run) {
    run.Then? ==> IsRun(run.before) && Enabled(Now(run.before), run.action) && run.state == Next(Now(run.before), run.action)
  }

  /** A wait that has returned goes straight on: returning to a caller on the same actor does not
      suspend. */
  predicate GoesOn(s: State, a: Action) {
    forall i :: 0 <= i < |s.ops| && s.ops[i].Pending? ==> a.SwitchBegins? && a.op == i
  }

  ghost predicate Prompt(run: Run) {
    run.Then? ==> Prompt(run.before) && GoesOn(Now(run.before), run.action)
  }

  // -------------------------------------------------------------- invariant

  predicate OwnsRuntime(op: Op) {
    op.Connection? || op.Realign? || op.Refresh?
  }

  predicate Owned(f: Fields, op: Op) {
    f.realigning == !op.Connection? && f.connection == (if op.Connection? then Some(op.action) else None)
  }

  /** `owner` is the one operation behind the connection and realignment flags. */
  ghost predicate OwnerIs(s: State, owner: Option<nat>) {
    && (forall i: nat :: i < |s.ops| ==> (OwnsRuntime(s.ops[i]) <==> owner == Some(i)))
    && (owner.Some? ==> owner.value < |s.ops| && Owned(s.fields, s.ops[owner.value]))
    && (owner == None ==> !s.fields.ConnectionActionInFlight())
  }

  ghost predicate OwnerInv(s: State) {
    exists owner :: OwnerIs(s, owner)
  }

  /** `switch` is the one operation behind the switching flag and the gate. */
  ghost predicate SwitchIs(s: State, switch: Option<nat>) {
    && (forall i: nat :: i < |s.ops| ==> (s.ops[i].Switch? <==> switch == Some(i)))
    && (switch.Some? ==> switch.value < |s.ops| && s.fields.switching && s.fields.gate == Some(s.ops[switch.value].id))
    && (switch == None ==> !s.fields.switching && s.fields.gate == None)
  }

  ghost predicate SwitchInv(s: State) {
    exists switch :: SwitchIs(s, switch)
  }

  /** No switch while realigning, and none about to start. */
  ghost predicate ExclusionInv(s: State) {
    && !(s.fields.switching && s.fields.realigning)
    && (forall i :: 0 <= i < |s.ops| && s.ops[i].Pending? ==> !s.fields.realigning)
  }

  /** The remembered project is the one of the last attempt, unless that one found the runtime not
      ready; and no attempt repeats the one just before it. */
  ghost predicate AttemptsInv(s: State) {
    && s.fields.attempted == (if s.events == [] || s.events[|s.events| - 1].NotReady? then None
                              else Some(s.events[|s.events| - 1].project))
    && (forall k :: 0 <= k < |s.events| - 1 && s.events[k].Attempt? ==> s.events[k] != s.events[k + 1])
  }

  lemma NextKeepsOwner(s: State, a: Action, owner: Option<nat>) returns (owner': Option<nat>)
    requires OwnerIs(s, owner) && Enabled(s, a)
    ensures OwnerIs(Next(s, a), owner')
  {
    var s' := Next(s, a);
    match a {
      case CallConnection(_) => owner' := if s' == s then owner else Some(|s.ops|);
      case CallRealign => owner' := if s' == s then owner else Some(|s.ops|);
      case ConnectionEnds(_) => owner' := None;
      case RealignAnswers(i, outcome) => owner' := if outcome == Ready then owner else None;
      case RefreshEnds(_) => owner' := None;
      case _ => owner' := owner;
    }
  }

  lemma NextKeepsSwitch(s: State, a: Action, switch: Option<nat>) returns (switch': Option<nat>)
    requires SwitchIs(s, switch) && Enabled(s, a)
    ensures SwitchIs(Next(s, a), switch')
  {
    match a {
      case SwitchBegins(i, _) => switch' := if Next(s, a).fields == s.fields then switch else Some(i);
      case SwitchEnds(_, _) => switch' := None;
      case _ => switch' := switch;
    }
  }

  lemma NextKeepsExclusion(s: State, a: Action)
    requires OwnerInv(s) && ExclusionInv(s) && Enabled(s, a) && GoesOn(s, a)
    ensures ExclusionInv(Next(s, a))
  {
  }

  lemma NextKeepsAttempts(s: State, a: Action)
    requires OwnerInv(s) && AttemptsInv(s) && Enabled(s, a)
    ensures AttemptsInv(Next(s, a))
  {
  }

  lemma {:induction false} RunKeepsFlags(run: Run)
    requires IsRun(run)
    ensures OwnerInv(Now(run)) && SwitchInv(Now(run)) && AttemptsInv(Now(run))
  {
    if run.Launch? {
      assert OwnerIs(Now(run), None) && SwitchIs(Now(run), None);
    } else {
      RunKeepsFlags(run.before);
      var owner :| OwnerIs(Now(run.before), owner);
      var owner' := NextKeepsOwner(Now(run.before), run.action, owner);
      var switch :| SwitchIs(Now(run.before), switch);
      var switch' := NextKeepsSwitch(Now(run.before), run.action, switch);
      NextKeepsAttempts(Now(run.before), run.action);
    }
  }

  lemma {:induction false} RunKeepsExclusion(run: Run)
    requires IsRun(run) && Prompt(run)
    ensures ExclusionInv(Now(run))
  {
    if run.Then? {
      RunKeepsExclusion(run.before);
      RunKeepsFlags(run.before);
      NextKeepsExclusion(Now(run.before), run.action);
    }
  }

  // ------------------------------------------------------------ over all runs

  /** At most one operation connects, disconnects or realigns, and at most one switches. */
  lemma OneOwner(run: Run, i: nat, j: nat)
    requires IsRun(run) && i < |Now(run).ops| && j < |Now(run).ops| && i != j
    ensures !(OwnsRuntime(Now(run).ops[i]) && OwnsRuntime(Now(run).ops[j]))
    ensures !(Now(run).ops[i].Switch? && Now(run).ops[j].Switch?)
  {
    RunKeepsFlags(run);
  }

  /** No switch overlaps a realignment. */
  lemma SwitchExcludesRealign(run: Run, i: nat, j: nat)
    requires IsRun(run) && Prompt(run) && i < |Now(run).ops| && j < |Now(run).ops|
    ensures !(Now(run).ops[i].Switch? && (Now(run).ops[j].Realign? || Now(run).ops[j].Refresh?))
  {
    RunKeepsFlags(run);
    RunKeepsExclusion(run);
  }

  /** Flags never outlive their operations: when every operation has ended, all are clear. */
  lemma FlagsAreReleased(run: Run)
    requires IsRun(run) && forall i :: 0 <= i < |Now(run).ops| ==> Now(run).ops[i].Ended?
    ensures !Now(run).fields.ConnectionActionInFlight() && !Now(run).fields.switching && Now(run).fields.gate == None
  {
    RunKeepsFlags(run);
  }

  /** A project is realigned again only after another one was, or after the runtime was found not
      ready. */
  lemma AttemptsAreNotRepeated(run: Run, j: nat, k: nat)
    requires IsRun(run) && j < k < |Now(run).events|
    requires Now(run).events[j].Attempt? && Now(run).events[j] == Now(run).events[k]
    ensures exists m :: j < m < k && Now(run).events[m] != Now(run).events[j]
  {
    RunKeepsFlags(run);
    assert Now(run).events[j + 1] != Now(run).events[j];
  }

  // ------------------------------------------------------------- suspension

  /** Project 1 is selected and a switch to project 2 has just finished waiting. */
  const WAITED := State(IDLE.(selected := Some(1)), World(true, false, false, false), [Pending(2)], [])

  lemma WaitReturns() returns (run: Run)
    ensures IsRun(run) && Now(run) == WAITED
  {
    var launch := Launch(WAITED.world);
    var s1 := Next(Now(launch), SelectionChanges(Some(1)));
    var s2 := Next(s1, CallSelect(2));
    run := Then(launch, SelectionChanges(Some(1)), s1);
    assert IsRun(run);
    run := Then(run, CallSelect(2), s2);
    assert IsRun(run) && s2.ops == [Wait(2)];
    run := Then(run, WaitTurns(0, false), Next(s2, WaitTurns(0, false)));
  }

  /** Were the returning wait to suspend, a realignment could slip in before the switch begins. */
  lemma GapAllowsOverlap() returns (run: Run)
    ensures IsRun(run) && !Prompt(run) && |Now(run).ops| == 2 && Now(run).ops[0].Switch? && Now(run).ops[1].Realign?
  {
    run := WaitReturns();
    var s1 := Next(WAITED, CallRealign);
    assert WAITED.ops[0].Pending?;
    run := Then(run, CallRealign, s1);
    assert IsRun(run) && !Prompt(run);
    run := Then(run, SwitchBegins(0, true), Next(s1, SwitchBegins(0, true)));
  }
}
