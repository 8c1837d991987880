/** The notifications of Sources/ChadexApp/GoalNotifier.swift: a diff of two overviews, folded over
    every poll. */
module GoalNotifier {
  import opened Basics

  datatype Run = Run(id: string, state: string)

  datatype Plan = Plan(id: string, isGoalRequest: bool, state: string)

  datatype Overview = Overview(runs: seq<Run>, plans: seq<Plan>)

  datatype Event = RunSettled(run: Run) | RequestWaiting(plan: Plan)

  predicate Settled(state: string) {
    state in {"succeeded", "failed", "cancelled", "stopped", "needs_attention"}
  }

  /** The state of each run; of two entries with one id the first counts. */
  function StatesOf(runs: seq<Run>): map<string, string> {
    if runs == [] then map[]
    else
      var before, last := StatesOf(runs[..|runs| - 1]), runs[|runs| - 1];
      if last.id in before then before else before[last.id := last.state]
  }

  predicate Waiting(plan: Plan) {
    plan.isGoalRequest && plan.state == "drafting"
  }

  function RequestsOf(plans: seq<Plan>): set<string> {
    set p | p in plans && Waiting(p) :: p.id
  }

  /** What the notifier remembers; nothing before its first overview. */
  datatype Memory = Fresh | Seen(states: map<string, string>, requests: set<string>)

  /** The run was known in another state and has now settled. */
  predicate Fires(m: Memory, run: Run) {
    m.Seen? && Settled(run.state) && run.id in m.states && m.states[run.id] != run.state
  }

  function RunEvents(m: Memory, runs: seq<Run>): seq<Event> {
    if runs == [] then []
    else
      var last := runs[|runs| - 1];
      RunEvents(m, runs[..|runs| - 1]) + if Fires(m, last) then [RunSettled(last)] else []
  }

  predicate Announces(m: Memory, plan: Plan) {
    m.Seen? && Waiting(plan) && plan.id !in m.requests
  }

  function RequestEvents(m: Memory, plans: seq<Plan>): seq<Event> {
    if plans == [] then []
    else
      var last := plans[|plans| - 1];
      RequestEvents(m, plans[..|plans| - 1]) + if Announces(m, last) then [RequestWaiting(last)] else []
  }

  /** Everything but the requests after the first one. */
  function Throttled(events: seq<Event>): seq<Event> {
    if events == [] then []
    else
      var before, last := events[..|events| - 1], events[|events| - 1];
      Throttled(before) + if last.RequestWaiting? && HasRequest(before) then [] else [last]
  }

  predicate HasRequest(events: seq<Event>) {
    exists e :: e in events && e.RequestWaiting?
  }

  function Events(m: Memory, o: Overview): seq<Event> {
    RunEvents(m, o.runs) + RequestEvents(m, o.plans)
  }

  /** A poll that fails changes nothing. */
  function Remembered(m: Memory, result: Option<Overview>): Memory {
    if result == None then m else Seen(StatesOf(result.value.runs), RequestsOf(result.value.plans))
  }

  function Posted(m: Memory, result: Option<Overview>): seq<Event> {
    if result == None then [] else Throttled(Events(m, result.value))
  }

  class Notifier {
    var runStates: Option<map<string, string>>
    var waitingRequests: Option<set<string>>

    ghost predicate Valid()
      reads this
    {
      runStates.Some? <==> waitingRequests.Some?
    }

    ghost function State(): Memory
      reads this
      requires Valid()
    {
      if runStates == None then Fresh else Seen(runStates.value, waitingRequests.value)
    }

    constructor ()
      ensures Valid() && State() == Fresh
    {
      runStates, waitingRequests := None, None;
    }

    /** One poll; `result` is none when no project is selected or the request failed. */
    method Poll(result: Option<Overview>) returns (posted: seq<Event>)
      requires Valid()
      modifies this
      ensures Valid() && State() == Remembered(old(State()), result)
      ensures posted == Posted(old(State()), result)
    {
      posted := [];
      if result == None { return; }
      var o := result.value;
      var events := Diff(o, runStates, waitingRequests, State());
      runStates, waitingRequests := Some(StatesOf(o.runs)), Some(RequestsOf(o.plans));
      var postedRequest := false;
      var k := 0;
      while k < |events|
        invariant 0 <= k <= |events|
        invariant posted == Throttled(events[..k])
        invariant postedRequest <==> HasRequest(events[..k])
      {
        assert events[..k + 1] == events[..k] + [events[k]] && events[..k + 1][..k] == events[..k];
        if !(events[k].RequestWaiting? && postedRequest) { posted := posted + [events[k]]; }
        if events[k].RequestWaiting? { postedRequest := true; }
        k := k + 1;
      }
      assert events[..k] == events;
    }
  }

  /** The events between what was seen before and an overview. */
  method Diff(o: Overview, runStates: Option<map<string, string>>, waitingRequests: Option<set<string>>, ghost m: Memory)
    returns (events: seq<Event>)
    requires runStates == (if m.Fresh? then None else Some(m.states))
    requires waitingRequests == (if m.Fresh? then None else Some(m.requests))
    ensures events == Events(m, o)
  {
    events := [];
    var k := 0;
    while k < |o.runs|
      invariant 0 <= k <= |o.runs| && events == RunEvents(m, o.runs[..k])
    {
      assert o.runs[..k + 1][..k] == o.runs[..k];
      var run := o.runs[k];
      if runStates.Some? && Settled(run.state) && run.id in runStates.value && runStates.value[run.id] != run.state {
        events := events + [RunSettled(run)];
      }
      k := k + 1;
    }
    assert o.runs[..k] == o.runs;
    ghost var runEvents := events;
    k := 0;
    while k < |o.plans|
      invariant 0 <= k <= |o.plans| && events == runEvents + RequestEvents(m, o.plans[..k])
    {
      assert o.plans[..k + 1][..k] == o.plans[..k];
      var plan := o.plans[k];
      if waitingRequests.Some? && Waiting(plan) && plan.id !in waitingRequests.value {
        events := events + [RequestWaiting(plan)];
      }
      k := k + 1;
    }
    assert o.plans[..k] == o.plans;
  }

  // ------------------------------------------------------------ one overview

  /** The first run with the id. */
  ghost predicate FirstWith(runs: seq<Run>, k: nat, id: string) {
    k < |runs| && runs[k].id == id && forall j :: 0 <= j < k ==> runs[j].id != id
  }

  lemma {:induction false} FirstStateCounts(runs: seq<Run>, id: string)
    ensures id in StatesOf(runs) <==> exists k: nat :: FirstWith(runs, k, id)
    ensures forall k: nat :: FirstWith(runs, k, id) ==> id in StatesOf(runs) && StatesOf(runs)[id] == runs[k].state
  {
    if runs != [] {
      var front := runs[..|runs| - 1];
      FirstStateCounts(front, id);
      assert forall k: nat :: k < |front| ==> (FirstWith(front, k, id) <==> FirstWith(runs, k, id));
      if id !in StatesOf(front) && runs[|front|].id == id {
        LeastWith(front, id);
        assert FirstWith(runs, |front|, id);
      }
    }
  }

  lemma {:induction false} LeastWith(runs: seq<Run>, id: string)
    ensures (exists r :: r in runs && r.id == id) <==> exists k: nat :: FirstWith(runs, k, id)
  {
    if runs != [] {
      var front := runs[..|runs| - 1];
      LeastWith(front, id);
      assert runs == front + [runs[|front|]];
      assert forall k: nat :: k < |front| ==> (FirstWith(front, k, id) <==> FirstWith(runs, k, id));
      if runs[|front|].id == id && !(exists r :: r in front && r.id == id) {
        assert FirstWith(runs, |front|, id);
      }
    }
  }

  lemma {:induction false} RunEventsAre(m: Memory, runs: seq<Run>, e: Event)
    ensures e in RunEvents(m, runs) <==> e.RunSettled? && e.run in runs && Fires(m, e.run)
  {
    if runs != [] {
      RunEventsAre(m, runs[..|runs| - 1], e);
      assert runs == runs[..|runs| - 1] + [runs[|runs| - 1]];
    }
  }

  lemma {:induction false} RequestEventsAre(m: Memory, plans: seq<Plan>, e: Event)
    ensures e in RequestEvents(m, plans) <==> e.RequestWaiting? && e.plan in plans && Announces(m, e.plan)
  {
    if plans != [] {
      RequestEventsAre(m, plans[..|plans| - 1], e);
      assert plans == plans[..|plans| - 1] + [plans[|plans| - 1]];
    }
  }

  function Requests(events: seq<Event>): nat {
    if events == [] then 0
    else Requests(events[..|events| - 1]) + if events[|events| - 1].RequestWaiting? then 1 else 0
  }

  /** The first request among the events. */
  ghost predicate IsFirstRequest(events: seq<Event>, k: nat) {
    k < |events| && events[k].RequestWaiting? && forall j :: 0 <= j < k ==> !events[j].RequestWaiting?
  }

  /** Throttling posts every settled run, and one request if there is any, the first. */
  lemma {:induction false} ThrottledKeeps(events: seq<Event>)
    ensures forall e :: e in Throttled(events) ==> e in events
    ensures forall e :: e in events && e.RunSettled? ==> e in Throttled(events)
    ensures Requests(Throttled(events)) == if HasRequest(events) then 1 else 0
    ensures forall k: nat :: IsFirstRequest(events, k) ==> events[k] in Throttled(events)
  {
    if events != [] {
      var before, last := events[..|events| - 1], events[|events| - 1];
      forall k: nat | IsFirstRequest(events, k) ensures if k < |before| then IsFirstRequest(before, k) else !HasRequest(before) {
        assert k == |before| ==> forall j :: 0 <= j < k ==> before[j] == events[j];
      }
      ThrottledKeeps(before);
      assert events == before + [last];
      assert (Throttled(before) + [last])[..|Throttled(before)|] == Throttled(before);
      assert HasRequest(events) <==> HasRequest(before) || last.RequestWaiting?;
      assert Throttled(before) + [] == Throttled(before);
    }
  }

  // ------------------------------------------------------------------- fold

  function MemoryAfter(history: seq<Option<Overview>>): Memory {
    if history == [] then Fresh
    else Remembered(MemoryAfter(history[..|history| - 1]), history[|history| - 1])
  }

  /** The overview of the last poll that succeeded. */
  function LastSeen(history: seq<Option<Overview>>): Option<Overview> {
    if history == [] then None
    else if history[|history| - 1].Some? then history[|history| - 1]
    else LastSeen(history[..|history| - 1])
  }

  lemma {:induction false} MemoryIsLastSeen(history: seq<Option<Overview>>)
    ensures MemoryAfter(history) == Remembered(Fresh, LastSeen(history))
  {
    if history != [] { MemoryIsLastSeen(history[..|history| - 1]); }
  }

  /** The run stood first under its id in the overview, in another state. */
  ghost predicate WasOtherwise(o: Overview, run: Run) {
    exists k: nat :: FirstWith(o.runs, k, run.id) && o.runs[k].state != run.state
  }

  /** A settled run is posted exactly when the overview seen last showed it in another state. */
  lemma SettledExactly(history: seq<Option<Overview>>, o: Overview, run: Run)
    ensures RunSettled(run) in Posted(MemoryAfter(history), Some(o))
            <==> && run in o.runs && Settled(run.state)
                 && LastSeen(history).Some? && WasOtherwise(LastSeen(history).value, run)
  {
    var m, e := MemoryAfter(history), RunSettled(run);
    MemoryIsLastSeen(history);
    ThrottledKeeps(Events(m, o));
    RunEventsAre(m, o.runs, e);
    RequestEventsAre(m, o.plans, e);
    if LastSeen(history).Some? { FirstStateCounts(LastSeen(history).value.runs, run.id); }
  }

  ghost predicate DistinctRuns(o: Overview) {
    forall i, j :: 0 <= i < j < |o.runs| ==> o.runs[i].id != o.runs[j].id
  }

  /** With distinct run ids: a run is posted exactly when it was there before, in another state. */
  lemma SettledInDistinctRuns(history: seq<Option<Overview>>, o: Overview, run: Run)
    requires LastSeen(history).Some? ==> DistinctRuns(LastSeen(history).value)
    ensures RunSettled(run) in Posted(MemoryAfter(history), Some(o))
            <==> && run in o.runs && Settled(run.state) && LastSeen(history).Some?
                 && exists was :: was in LastSeen(history).value.runs && was.id == run.id && was.state != run.state
  {
    SettledExactly(history, o, run);
    if LastSeen(history).Some? {
      var runs := LastSeen(history).value.runs;
      forall was | was in runs && was.id == run.id ensures exists k: nat :: FirstWith(runs, k, run.id) && runs[k] == was {
        var k: nat :| k < |runs| && runs[k] == was;
        assert FirstWith(runs, k, run.id);
      }
    }
  }

  /** Nothing is posted before a first overview, nor for it. */
  lemma {:induction false} FirstOverviewIsSilent(o: Overview)
    ensures Posted(Fresh, Some(o)) == []
  {
    NoEventsWhenFresh(o.runs, o.plans);
  }

  lemma {:induction false} NoEventsWhenFresh(runs: seq<Run>, plans: seq<Plan>)
    ensures RunEvents(Fresh, runs) == [] && RequestEvents(Fresh, plans) == []
    decreases |runs| + |plans|
  {
    if runs != [] { NoEventsWhenFresh(runs[..|runs| - 1], plans); }
    if plans != [] { NoEventsWhenFresh(runs, plans[..|plans| - 1]); }
  }

  /** Some settled run follows another entry with its id that is in another state. */
  ghost predicate Contradicts(o: Overview) {
    exists run :: run in o.runs && Settled(run.state) && WasOtherwise(o, run)
  }

  /** An overview that repeats the last one is silent exactly when it does not contradict itself. */
  lemma RepeatIsSilentExactly(history: seq<Option<Overview>>, o: Overview)
    requires LastSeen(history) == Some(o)
    ensures Posted(MemoryAfter(history), Some(o)) == [] <==> !Contradicts(o)
  {
    var m := MemoryAfter(history);
    MemoryIsLastSeen(history);
    ThrottledKeeps(Events(m, o));
    var posted := Posted(m, Some(o));
    if posted != [] {
      var e := posted[0];
      assert e in Events(m, o);
      RunEventsAre(m, o.runs, e);
      RequestEventsAre(m, o.plans, e);
      SettledExactly(history, o, e.run);
    }
    if Contradicts(o) {
      var run :| run in o.runs && Settled(run.state) && WasOtherwise(o, run);
      SettledExactly(history, o, run);
    }
  }

  /** Distinct run ids cannot contradict each other. */
  lemma DistinctIsSilent(o: Overview)
    requires DistinctRuns(o)
    ensures !Contradicts(o)
  {
  }

  /** Without that, a repeated overview can post again and again. */
  lemma DuplicateRepeats(history: seq<Option<Overview>>, o: Overview)
    requires LastSeen(history) == Some(o) && o.runs == [Run("r", "running"), Run("r", "failed")]
    ensures RunSettled(Run("r", "failed")) in Posted(MemoryAfter(history), Some(o))
  {
    SettledExactly(history, o, Run("r", "failed"));
    assert FirstWith(o.runs, 0, "r");
    assert o.runs[1] in o.runs && Settled("failed");
  }
}
