/** The generation-counted overlay sync of Sources/ChadexApp/AppModel.swift. As for the Skills load,
    the code between two `await`s is one atomic main-actor step. */
module OverlaySync {
  import opened Basics

  const TWO_64: int := 0x1_0000_0000_0000_0000
  const MAX_INT: int := 0x7fff_ffff_ffff_ffff

  /** The wrapping successor of a 64-bit signed counter. */
  function Bumped(generation: int): int {
    if generation == MAX_INT then generation + 1 - TWO_64 else generation + 1
  }

  /** What the counter holds after `n` calls. */
  function Counter(n: nat): int {
    var low := n % TWO_64;
    if low <= MAX_INT then low else low - TWO_64
  }

  lemma CounterSteps(n: nat)
    ensures Counter(n + 1) == Bumped(Counter(n))
  {
  }

  /** The counter repeats exactly after a multiple of 2^64 calls. */
  lemma CounterRepeats(m: nat, n: nat)
    requires m <= n
    ensures Counter(m) == Counter(n) <==> (n - m) % TWO_64 == 0
  {
  }

  datatype Fields = Fields(task: Option<nat>, generation: int)

  /** The part of the model the sync works on. */
  class Model {
    var overlaySyncTask: Option<nat>
    var overlaySyncGeneration: int

    ghost function State(): Fields
      reads this
    {
      Fields(overlaySyncTask, overlaySyncGeneration)
    }

    constructor ()
      ensures State() == Fields(None, Counter(0))
    {
      overlaySyncTask, overlaySyncGeneration := None, 0;
    }

    /** `syncOverlayEvents` up to its `await`: the loop to wait for. */
    method SyncOverlayEvents(next: nat) returns (awaited: nat)
      modifies this
      ensures State() == Called(old(State()), next) && State().task == Some(awaited)
    {
      overlaySyncGeneration := Bumped(overlaySyncGeneration);
      if overlaySyncTask.Some? { return overlaySyncTask.value; }
      overlaySyncTask := Some(next);
      return next;
    }

    /** The loop up to its next `await`: a captured generation goes out with a request; otherwise the
        loop has ended. `answered` is the generation of the request just answered, if any. */
    method Continue(answered: Option<int>, shuttingDown: bool, running: bool) returns (captured: Option<int>)
      modifies this
      ensures captured == if Sends(old(State()), answered, shuttingDown, running) then Some(old(State()).generation) else None
      ensures State() == if captured.Some? then old(State()) else old(State()).(task := None)
    {
      if answered == Some(overlaySyncGeneration) || shuttingDown || !running {
        overlaySyncTask := None;
        return None;
      }
      return Some(overlaySyncGeneration);
    }
  }

  function Called(f: Fields, next: nat): Fields {
    Fields(if f.task.Some? then f.task else Some(next), Bumped(f.generation))
  }

  /** Whether the loop sends another request. */
  predicate Sends(f: Fields, answered: Option<int>, shuttingDown: bool, running: bool) {
    answered != Some(f.generation) && !shuttingDown && running
  }

  // --------------------------------------------------------- interleavings

  /** A loop, with the generation it captured and the number of calls made until then. */
  datatype Loop = Created | InFlight(captured: int, calls: nat) | Done

  /** A caller is the `number`th one; it is steady while the helper and the app keep running. */
  datatype Caller = Caller(number: nat, task: nat, steady: bool, returned: bool)

  /** `calls` counts the sync calls; `requests` logs how many calls preceded each request. */
  datatype State = State(fields: Fields, running: bool, shuttingDown: bool, loops: seq<Loop>,
                         callers: seq<Caller>, calls: nat, requests: seq<nat>)

  datatype Action =
    | Call
    | Shutdown
    | HelperStarts
    | HelperStops
    | LoopStarts(loop: nat)
    | Answers(loop: nat)
    | Returns(caller: nat)

  predicate Enabled(s: State, a: Action) {
    match a
    case LoopStarts(i) => i < |s.loops| && s.loops[i].Created?
    case Answers(i) => i < |s.loops| && s.loops[i].InFlight?
    case Returns(c) => c < |s.callers| && !s.callers[c].returned && s.callers[c].task < |s.loops| && s.loops[s.callers[c].task].Done?
    case _ => true
  }

  function Unsettle(callers: seq<Caller>): (r: seq<Caller>)
    ensures |r| == |callers|
    ensures forall c :: 0 <= c < |r| ==> r[c] == callers[c].(steady := callers[c].steady && callers[c].returned)
  {
    if callers == [] then []
    else
      var c := callers[|callers| - 1];
      Unsettle(callers[..|callers| - 1]) + [c.(steady := c.steady && c.returned)]
  }

  /** Loop `i` at the top of its `while`, or leaving it. */
  function LoopTurns(s: State, i: nat, answered: Option<int>): State
    requires i < |s.loops|
  {
    if Sends(s.fields, answered, s.shuttingDown, s.running) then
      s.(loops := s.loops[i := InFlight(s.fields.generation, s.calls)], requests := s.requests + [s.calls])
    else
      s.(loops := s.loops[i := Done], fields := s.fields.(task := None))
  }

  function Next(s: State, a: Action): State
    requires Enabled(s, a)
  {
    match a
    case Call =>
      var fields := Called(s.fields, |s.loops|);
      s.(fields := fields, calls := s.calls + 1,
         loops := if s.fields.task.Some? then s.loops else s.loops + [Created],
         callers := s.callers + [Caller(s.calls + 1, fields.task.value, s.running && !s.shuttingDown, false)])
    case Shutdown => s.(shuttingDown := true, callers := Unsettle(s.callers))
    case HelperStarts => s.(running := true)
    case HelperStops => s.(running := false, callers := Unsettle(s.callers))
    case LoopStarts(i) => LoopTurns(s, i, None)
    case Answers(i) => LoopTurns(s, i, Some(s.loops[i].captured))
    case Returns(c) => s.(callers := s.callers[c := s.callers[c].(returned := true)])
  }

  const LAUNCH := State(Fields(None, Counter(0)), false, false, [], [], 0, [])

  datatype Run = Launch | Then(before: Run, action: Action, state: State)

  function Now(run: Run): State {
    if run.Launch? then LAUNCH else run.state
  }

  ghost predicate IsRun(run: Run) {
    run.Then? ==> IsRun(run.before) && Enabled(Now(run.before), run.action) && run.state == Next(Now(run.before), run.action)
  }

  /** Fewer than 2^64 calls arrive while one request is in flight. */
  predicate NoWrap(s: State) {
    forall i :: 0 <= i < |s.loops| && s.loops[i].InFlight? ==> s.calls < s.loops[i].calls + TWO_64
  }

  ghost predicate Unwrapped(run: Run) {
    run.Then? ==> Unwrapped(run.before) && NoWrap(run.state)
  }

  // -------------------------------------------------------------- invariant

  /** Only the newest loop can be unfinished, and the model points at it exactly then. */
  ghost predicate LoopsInv(s: State) {
    && s.fields.generation == Counter(s.calls)
    && (forall i :: 0 <= i < |s.loops| - 1 ==> s.loops[i].Done?)
    && (s.fields.task == if s.loops == [] || s.loops[|s.loops| - 1].Done? then None else Some(|s.loops| - 1))
  }

  function LastRequest(s: State): nat {
    if s.requests == [] then 0 else s.requests[|s.requests| - 1]
  }

  ghost predicate RequestsInv(s: State) {
    && (forall j, k :: 0 <= j < k < |s.requests| ==> s.requests[j] < s.requests[k])
    && |s.requests| <= LastRequest(s) <= s.calls
    && (forall i :: 0 <= i < |s.loops| && s.loops[i].Created? ==> LastRequest(s) < s.calls)
    && (forall i :: 0 <= i < |s.loops| && s.loops[i].InFlight? ==>
          s.loops[i] == InFlight(Counter(LastRequest(s)), LastRequest(s)))
  }

  ghost predicate CallerInv(s: State, c: Caller) {
    && c.number <= s.calls && c.task < |s.loops|
    && (c.returned ==> s.loops[c.task].Done?)
    && (c.steady && !c.returned ==> s.running && !s.shuttingDown)
    && (c.steady && s.loops[c.task].Done? ==> c.number <= LastRequest(s))
  }

  ghost predicate CallersInv(s: State) {
    forall c :: c in s.callers ==> CallerInv(s, c)
  }

  lemma NextKeepsLoops(s: State, a: Action)
    requires LoopsInv(s) && Enabled(s, a)
    ensures LoopsInv(Next(s, a))
  {
  }

  lemma TurnKeepsRequests(s: State, i: nat, answered: Option<int>)
    requires LoopsInv(s) && RequestsInv(s) && i < |s.loops| && !s.loops[i].Done?
    requires answered == if s.loops[i].Created? then None else Some(s.loops[i].captured)
    ensures RequestsInv(LoopTurns(s, i, answered))
  {
  }

  lemma NextKeepsRequests(s: State, a: Action)
    requires LoopsInv(s) && RequestsInv(s) && Enabled(s, a)
    ensures RequestsInv(Next(s, a))
  {
    match a {
      case LoopStarts(i) => TurnKeepsRequests(s, i, None);
      case Answers(i) => TurnKeepsRequests(s, i, Some(s.loops[i].captured));
      case _ => assert LastRequest(Next(s, a)) == LastRequest(s);
    }
  }

  lemma TurnKeepsCallers(s: State, i: nat, answered: Option<int>)
    requires LoopsInv(s) && RequestsInv(s) && CallersInv(s) && NoWrap(s) && i < |s.loops| && !s.loops[i].Done?
    requires answered == if s.loops[i].Created? then None else Some(s.loops[i].captured)
    ensures CallersInv(LoopTurns(s, i, answered))
  {
  }

  lemma OtherStepsKeepCaller(s: State, a: Action, k: nat)
    requires LoopsInv(s) && CallersInv(s) && Enabled(s, a) && k < |s.callers| && !a.LoopStarts? && !a.Answers?
    ensures k < |Next(s, a).callers| && CallerInv(Next(s, a), Next(s, a).callers[k])
  {
    assert CallerInv(s, s.callers[k]);
    assert LastRequest(Next(s, a)) == LastRequest(s);
  }

  lemma NextKeepsCallers(s: State, a: Action)
    requires LoopsInv(s) && RequestsInv(s) && CallersInv(s) && NoWrap(s) && Enabled(s, a)
    ensures CallersInv(Next(s, a))
  {
    var s' := Next(s, a);
    match a {
      case LoopStarts(i) => TurnKeepsCallers(s, i, None);
      case Answers(i) => TurnKeepsCallers(s, i, Some(s.loops[i].captured));
      case _ =>
        forall k | 0 <= k < |s'.callers| ensures CallerInv(s', s'.callers[k]) {
          if k < |s.callers| { OtherStepsKeepCaller(s, a, k); }
        }
    }
  }

  lemma {:induction false} RunKeepsRequests(run: Run)
    requires IsRun(run)
    ensures LoopsInv(Now(run)) && RequestsInv(Now(run))
  {
    if run.Then? {
      RunKeepsRequests(run.before);
      NextKeepsLoops(Now(run.before), run.action);
      NextKeepsRequests(Now(run.before), run.action);
    }
  }

  lemma {:induction false} RunKeepsCallers(run: Run)
    requires IsRun(run) && Unwrapped(run)
    ensures CallersInv(Now(run))
  {
    if run.Then? {
      RunKeepsCallers(run.before);
      RunKeepsRequests(run.before);
      assert NoWrap(Now(run.before));
      NextKeepsCallers(Now(run.before), run.action);
    }
  }

  // ------------------------------------------------------------ over all runs

  /** At most one request is in flight. */
  lemma OneRequestInFlight(run: Run, i: nat, j: nat)
    requires IsRun(run) && i < |Now(run).loops| && j < |Now(run).loops|
    requires Now(run).loops[i].InFlight? && Now(run).loops[j].InFlight?
    ensures i == j && Now(run).fields.task == Some(i)
  {
    RunKeepsRequests(run);
    OnlyNewestIsInFlight(Now(run), i);
    OnlyNewestIsInFlight(Now(run), j);
  }

  lemma OnlyNewestIsInFlight(s: State, i: nat)
    requires LoopsInv(s) && i < |s.loops| && s.loops[i].InFlight?
    ensures i + 1 == |s.loops| && s.fields.task == Some(i)
  {
  }

  /** Each request follows a call that came after the request before it, so there are never more
      requests than calls. */
  lemma RequestsFollowCalls(run: Run)
    requires IsRun(run)
    ensures |Now(run).requests| <= Now(run).calls
    ensures forall j, k :: 0 <= j < k < |Now(run).requests| ==> Now(run).requests[j] < Now(run).requests[k]
  {
    RunKeepsRequests(run);
  }

  /** A caller that returns, the helper and the app having kept running, has had a request issued
      after its call. */
  lemma CallersAreServed(run: Run, k: nat)
    requires IsRun(run) && Unwrapped(run) && k < |Now(run).callers|
    requires Now(run).callers[k].steady && Now(run).callers[k].returned
    ensures exists r :: 0 <= r < |Now(run).requests| && Now(run).requests[r] >= Now(run).callers[k].number
  {
    RunKeepsCallers(run);
    NumbersArePositive(run);
    LastRequestServes(Now(run), k);
  }

  lemma LastRequestServes(s: State, k: nat)
    requires CallersInv(s) && k < |s.callers| && s.callers[k].steady && s.callers[k].returned && s.callers[k].number > 0
    ensures exists r :: 0 <= r < |s.requests| && s.requests[r] >= s.callers[k].number
  {
    assert CallerInv(s, s.callers[k]);
    assert s.requests[|s.requests| - 1] >= s.callers[k].number;
  }

  lemma {:induction false} NumbersArePositive(run: Run)
    requires IsRun(run)
    ensures forall k :: 0 <= k < |Now(run).callers| ==> Now(run).callers[k].number > 0
  {
    if run.Then? { NumbersArePositive(run.before); }
  }

  // ------------------------------------------------------------- wrap-around

  /** When exactly an answer ends the loop although calls arrived since its request was sent. */
  lemma AnswerMissesCalls(run: Run, i: nat)
    requires IsRun(run) && Enabled(Now(run), Answers(i)) && Now(run).running && !Now(run).shuttingDown
    ensures var s := Now(run);
            Next(s, Answers(i)).loops[i].Done? <==> (s.calls - s.loops[i].calls) % TWO_64 == 0
  {
    RunKeepsRequests(run);
    AnswerMisses(Now(run), i);
  }

  lemma AnswerMisses(s: State, i: nat)
    requires LoopsInv(s) && RequestsInv(s) && Enabled(s, Answers(i)) && s.running && !s.shuttingDown
    ensures Next(s, Answers(i)).loops[i].Done? <==> (s.calls - s.loops[i].calls) % TWO_64 == 0
  {
    AnswerCompares(s, i);
    CounterRepeats(s.loops[i].calls, s.calls);
  }

  lemma AnswerCompares(s: State, i: nat)
    requires LoopsInv(s) && RequestsInv(s) && Enabled(s, Answers(i)) && s.running && !s.shuttingDown
    ensures s.loops[i].calls <= s.calls
    ensures Next(s, Answers(i)).loops[i].Done? <==> Counter(s.loops[i].calls) == Counter(s.calls)
  {
  }

  lemma {:induction false} CallsJoin(run: Run, n: nat) returns (more: Run)
    requires IsRun(run) && Now(run).fields.task == Some(0) && n > 0
    requires Now(run).running && !Now(run).shuttingDown && |Now(run).loops| == 1
    ensures IsRun(more) && Now(more).fields.task == Some(0) && Now(more).running && !Now(more).shuttingDown
    ensures Now(more).loops == Now(run).loops && Now(more).requests == Now(run).requests
    ensures Now(more).calls == Now(run).calls + n && Now(more).callers != []
    ensures Now(more).callers[|Now(more).callers| - 1] == Caller(Now(more).calls, 0, true, false)
  {
    var before := run;
    if n > 1 { before := CallsJoin(run, n - 1); }
    more := Then(before, Call, Next(Now(before), Call));
  }

  lemma FirstRequest() returns (run: Run)
    ensures IsRun(run) && Now(run).fields.task == Some(0) && Now(run).running && !Now(run).shuttingDown
    ensures Now(run).loops == [InFlight(Counter(1), 1)] && Now(run).requests == [1] && Now(run).calls == 1
  {
    var s1 := Next(LAUNCH, HelperStarts);
    var s2 := Next(s1, Call);
    var s3 := Next(s2, LoopStarts(0));
    CounterSteps(0);
    run := Then(Launch, HelperStarts, s1);
    assert IsRun(run);
    run := Then(Then(run, Call, s2), LoopStarts(0), s3);
  }

  /** With 2^64 calls during one request, the last caller returns without one after its call. */
  lemma WrapLosesCall() returns (run: Run, k: nat)
    ensures IsRun(run) && k < |Now(run).callers| && Now(run).callers[k].steady && Now(run).callers[k].returned
    ensures forall r :: 0 <= r < |Now(run).requests| ==> Now(run).requests[r] < Now(run).callers[k].number
  {
    var first := FirstRequest();
    var joined := CallsJoin(first, TWO_64);
    k := |Now(joined).callers| - 1;
    AnswerMissesCalls(joined, 0);
    var s1 := Next(Now(joined), Answers(0));
    assert Now(joined).callers[k] == Caller(1 + TWO_64, 0, true, false);
    run := Then(joined, Answers(0), s1);
    assert IsRun(run);
    run := Then(run, Returns(k), Next(s1, Returns(k)));
  }
}
