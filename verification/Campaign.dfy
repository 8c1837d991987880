/** The crash-resumable campaign of scripts/phase16c_connected_campaign.py: one process at a time
    works on the output directory, may die between any two writes, and is started again. */
module Campaign {
  import opened Basics
  import opened Attempts

  datatype Harness = Chadex | WebCodex

  /** One run of the schedule. */
  datatype Planned = Planned(runId: string, pairId: string, harness: Harness, position: nat)

  type Schedule = seq<Planned>

  function Ids(runs: seq<Planned>): seq<string> {
    seq(|runs|, i requires 0 <= i < |runs| => runs[i].runId)
  }

  ghost predicate Distinct(runs: seq<Planned>) {
    forall i, j :: 0 <= i < j < |runs| ==> runs[i].runId != runs[j].runId
  }

  datatype Progress = Progress(completedRuns: nat, runs: seq<string>)

  /** The output directory; it is pristine while it holds no more than the lock and the launcher
      identity. */
  datatype Disk = Disk(pristine: bool, plan: Option<Schedule>, manifest: Option<seq<Planned>>,
                       progress: Option<Progress>, runs: map<string, RunDir>)

  datatype Stage = All | Submit | Commit

  /** Where the process stands; the numbers are attempts of the current run. */
  datatype Point =
    | PlanPending | FirstProgressPending
    | Choosing
    | Prompting(attempt: nat) | Driving(attempt: nat) | Checking(attempt: nat)
    | Turned(attempt: nat)
    | ManifestPending | ProgressPending

  datatype Process = Process(stage: Stage, resume: bool, schedule: Schedule, manifest: seq<Planned>,
                             progress: Progress, cursor: nat, at: Point)

  /** The campaign on disk and the process working on it, if one is alive. */
  datatype State = State(disk: Disk, process: Option<Process>)

  function Saved(disk: Disk): seq<Planned> {
    if disk.manifest.Some? then disk.manifest.value else []
  }

  function SavedProgress(disk: Disk): Progress {
    if disk.progress.Some? then disk.progress.value else Progress(0, [])
  }

  function DirOf(disk: Disk, id: string): RunDir {
    if id in disk.runs then disk.runs[id] else map[]
  }

  predicate Completed(p: Process, id: string) {
    id in Ids(p.manifest)
  }

  // ------------------------------------------------------------------- steps

  datatype Action =
    | Stop                                            // a crash, an exception, a kill or a return
    | Begin(stage: Stage, schedule: Schedule)
    | Litter                                          // temporary files, preflight
    | SavePlan | SaveFirstProgress
    | Resume(stage: Stage)
    | Skip
    | Recover(attempt: nat, connector: string)
    | Open(attempt: nat)
    | SavePrompt
    | DriverSaves(file: DriverFile)
    | Collect(code: int)
    | Accept(connector: string)
    | Reopen(attempt: nat, connector: string)
    | Profile
    | SaveManifest | SaveProgress

  /** The process moves on without touching the disk. */
  predicate Moves(s: State, p': Process, s': State) {
    s' == s.(process := Some(p'))
  }

  /** The process is at a run of its schedule. */
  predicate AtRun(s: State) {
    s.process.Some? && s.process.value.cursor < |s.process.value.schedule|
  }

  function CurrentId(s: State): string
    requires AtRun(s)
  {
    s.process.value.schedule[s.process.value.cursor].runId
  }

  /** The process writes one attempt of the current run and moves on. */
  predicate Writes(s: State, n: nat, a: Attempt, at: Point, s': State)
    requires AtRun(s)
  {
    var id := CurrentId(s);
    s' == State(s.disk.(runs := s.disk.runs[id := DirOf(s.disk, id)[n := a]]), Some(s.process.value.(at := at)))
  }

  /** What the driver's own writes look like: only the campaign adds the exit code. */
  predicate FromDriver(file: DriverFile) {
    file.Garbled? || (file.Written? && file.report.exitCode == None)
  }

  const NO_RESULT := Report(None, None, None, None, false, "", false, false, "", false, "", None)

  function WithExitCode(file: DriverFile, code: int): DriverFile
    requires !file.Garbled?
  {
    Written((if file.Written? then file.report else NO_RESULT).(exitCode := Some(code)))
  }

  ghost predicate Acts(s: State, a: Action, s': State) {
    match a
    case Stop => s' == s.(process := None)
    case Begin(stage, schedule) =>
      && s.process == None && s.disk.pristine && stage != Commit && Distinct(schedule)
      && s' == s.(process := Some(Process(stage, false, schedule, [], Progress(0, []), 0, PlanPending)))
    case Resume(stage) =>
      && s.process == None && s.disk.plan.Some? && Distinct(Saved(s.disk))
      && s' == s.(process := Some(Process(stage, true, s.disk.plan.value, Saved(s.disk), SavedProgress(s.disk), 0, Choosing)))
    case _ => s.process.Some? && Works(s, s.process.value, a, s')
  }

  /** The steps of a living process. */
  ghost predicate Works(s: State, p: Process, a: Action, s': State)
    requires s.process == Some(p)
  {
    var disk := s.disk;
    match a
    case Litter => p.at == PlanPending && s' == s.(disk := disk.(pristine := false))
    case SavePlan =>
      p.at == PlanPending && s' == State(disk.(pristine := false, plan := Some(p.schedule)), Some(p.(at := FirstProgressPending)))
    case SaveFirstProgress =>
      p.at == FirstProgressPending && s' == State(disk.(progress := Some(p.progress)), Some(p.(at := Choosing)))
    case Skip => p.at == Choosing && AtRun(s) && Completed(p, CurrentId(s)) && Moves(s, p.(cursor := p.cursor + 1), s')
    case Recover(n, connector) =>
      && p.at == Choosing && AtRun(s) && !Completed(p, CurrentId(s)) && p.resume
      && var dir := DirOf(disk, CurrentId(s));
      && Submitted(dir) == {n} && n in dir && ValidTurn(dir[n].driver.report, connector)
      && Moves(s, p.(at := Turned(n)), s')
    case Open(n) =>
      && p.at == Choosing && AtRun(s) && !Completed(p, CurrentId(s)) && p.stage != Commit
      && var dir := DirOf(disk, CurrentId(s));
      && (p.resume ==> Submitted(dir) == {}) && IsAvailable(dir, n) && Writes(s, n, EMPTY, Prompting(n), s')
    case SavePrompt =>
      && p.at.Prompting? && AtRun(s) && p.at.attempt in DirOf(disk, CurrentId(s))
      && Writes(s, p.at.attempt, DirOf(disk, CurrentId(s))[p.at.attempt].(prompt := true), Driving(p.at.attempt), s')
    case DriverSaves(file) =>
      && p.at.Driving? && AtRun(s) && p.at.attempt in DirOf(disk, CurrentId(s)) && FromDriver(file)
      && Writes(s, p.at.attempt, DirOf(disk, CurrentId(s))[p.at.attempt].(driver := file), p.at, s')
    case Collect(code) =>
      && p.at.Driving? && AtRun(s) && p.at.attempt in DirOf(disk, CurrentId(s))
      && var held := DirOf(disk, CurrentId(s))[p.at.attempt];
      && !held.driver.Garbled?
      && Writes(s, p.at.attempt, held.(driver := WithExitCode(held.driver, code)), Checking(p.at.attempt), s')
    case Accept(connector) =>
      && p.at.Checking? && AtRun(s) && p.at.attempt in DirOf(disk, CurrentId(s))
      && var file := DirOf(disk, CurrentId(s))[p.at.attempt].driver;
      && file.Written? && ValidTurn(file.report, connector) && Moves(s, p.(at := Turned(p.at.attempt)), s')
    case Reopen(n, connector) =>
      && p.at.Checking? && AtRun(s) && p.at.attempt in DirOf(disk, CurrentId(s))
      && var dir := DirOf(disk, CurrentId(s));
      && dir[p.at.attempt].driver.Written? && !ValidTurn(dir[p.at.attempt].driver.report, connector)
      && dir[p.at.attempt].driver.report.submittedAt == None
      && IsAvailable(dir, n) && Writes(s, n, EMPTY, Prompting(n), s')
    case Profile =>
      && p.at.Turned? && AtRun(s) && p.stage != Submit
      && var run := p.schedule[p.cursor];
         Moves(s, p.(manifest := p.manifest + [run],
                     progress := Progress(|p.manifest| + 1, p.progress.runs + [run.runId]),
                     at := ManifestPending), s')
    case SaveManifest =>
      p.at == ManifestPending && s' == State(disk.(manifest := Some(p.manifest)), Some(p.(at := ProgressPending)))
    case SaveProgress =>
      && p.at == ProgressPending
      && s' == State(disk.(progress := Some(p.progress)), Some(p.(at := Choosing, cursor := p.cursor + 1)))
    case _ => false
  }

  /** Any sequence of invocations, stages, crashes and resumptions. */
  datatype Run = Start | Then(before: Run, action: Action, state: State)

  const NOTHING := State(Disk(true, None, None, None, map[]), None)

  function Now(run: Run): State {
    if run.Start? then NOTHING else run.state
  }

  ghost predicate IsRun(run: Run) {
    run.Then? ==> IsRun(run.before) && Acts(Now(run.before), run.action, run.state)
  }

  ghost predicate Continues(run: Run, earlier: Run) {
    run == earlier || (run.Then? && Continues(run.before, earlier))
  }

  // --------------------------------------------------------------- invariant

  /** `a` can be read off `b` from left to right. */
  predicate IsSubsequence(a: seq<string>, b: seq<string>)
    decreases |b|
  {
    || a == []
    || (b != [] && (|| IsSubsequence(a, b[..|b| - 1])
                    || (a[|a| - 1] == b[|b| - 1] && IsSubsequence(a[..|a| - 1], b[..|b| - 1]))))
  }

  /** The runs on record are the first ones of the plan, and progress lists some of them. */
  ghost predicate Records(schedule: Schedule, manifest: seq<Planned>, progress: Progress) {
    && manifest <= schedule && progress.completedRuns <= |manifest|
    && IsSubsequence(progress.runs, Ids(manifest))
  }

  ghost predicate DiskInv(disk: Disk) {
    && (disk.plan == None ==> disk.manifest == None && disk.progress == None && disk.runs == map[])
    && (disk.plan.Some? ==>
          !disk.pristine && Distinct(disk.plan.value) && Records(disk.plan.value, Saved(disk), SavedProgress(disk)))
    && forall id :: id in disk.runs ==> |Submitted(disk.runs[id])| <= 1
  }

  /** What a living process knows of the disk. */
  ghost predicate ProcessInv(disk: Disk, p: Process) {
    && Distinct(p.schedule) && p.cursor <= |p.schedule|
    && (p.at == PlanPending ==> disk.plan == None && !p.resume)
    && (p.at != PlanPending ==> disk.plan == Some(p.schedule))
    && Records(p.schedule, p.manifest, p.progress)
    && (p.at.PlanPending? || p.at.FirstProgressPending? ==>
          !p.resume && p.manifest == [] && Saved(disk) == [] && p.cursor == 0 && p.progress == Progress(0, []) && disk.runs == map[])
    && (p.at != ManifestPending ==> Saved(disk) == p.manifest)
    && (p.at == ManifestPending ==> |p.manifest| > 0 && Saved(disk) == p.manifest[..|p.manifest| - 1])
    && (p.at.ManifestPending? || p.at.ProgressPending? ==> p.cursor + 1 == |p.manifest|)
    && (InAttempt(p) || p.at.Turned? ==> p.cursor == |p.manifest| < |p.schedule|)
    && (p.at.Choosing? ==> p.cursor <= |p.manifest|)
    && (InAttempt(p) ==>
          var dir := DirOf(disk, p.schedule[p.cursor].runId);
          p.at.attempt in dir && Submitted(dir) <= {p.at.attempt} && (p.at.Prompting? ==> dir[p.at.attempt] == EMPTY))
    && (!p.resume ==> Untouched(disk, p))
  }

  predicate InAttempt(p: Process) {
    p.at.Prompting? || p.at.Driving? || p.at.Checking?
  }

  /** In a first invocation the runs still to come have no directory yet. */
  ghost predicate Untouched(disk: Disk, p: Process) {
    forall i :: p.cursor <= i < |p.schedule| && (i > p.cursor || p.at.Choosing?) ==> p.schedule[i].runId !in disk.runs
  }

  ghost predicate Inv(s: State) {
    DiskInv(s.disk) && (s.process.Some? ==> ProcessInv(s.disk, s.process.value))
  }

  // ------------------------------------------------------- the steps keep it

  lemma IdsExtend(runs: seq<Planned>, run: Planned)
    ensures Ids(runs + [run]) == Ids(runs) + [run.runId]
  {
  }

  lemma SubsequenceExtends(a: seq<string>, b: seq<string>, x: string)
    requires IsSubsequence(a, b)
    ensures IsSubsequence(a, b + [x]) && IsSubsequence(a + [x], b + [x])
  {
  }

  /** In a duplicate-free schedule the first run not on record is the one after the record. */
  lemma CompletedIsPrefix(p: Process)
    requires Distinct(p.schedule) && p.manifest <= p.schedule && p.cursor < |p.schedule|
    ensures Completed(p, p.schedule[p.cursor].runId) <==> p.cursor < |p.manifest|
  {
    var id := p.schedule[p.cursor].runId;
    if p.cursor < |p.manifest| {
      assert Ids(p.manifest)[p.cursor] == id;
    }
    if id in Ids(p.manifest) {
      var i :| 0 <= i < |p.manifest| && Ids(p.manifest)[i] == id;
      assert p.manifest[i] == p.schedule[i];
      assert !(i < p.cursor) && !(p.cursor < i);
    }
  }

  /** A new attempt starts in a directory without a result, and submits nothing by itself. */
  lemma OpeningSubmitsNothing(dir: RunDir, n: nat)
    requires IsAvailable(dir, n)
    ensures n in dir ==> dir[n] == EMPTY
    ensures Submitted(dir[n := EMPTY]) == Submitted(dir)
  {
  }

  lemma AttemptSubmitsItself(dir: RunDir, n: nat, a: Attempt)
    requires Submitted(dir) <= {n}
    ensures Submitted(dir[n := a]) <= {n} && |Submitted(dir[n := a])| <= 1
  {
    SubsetIsSmaller(Submitted(dir[n := a]), {n});
  }

  lemma WriteKeepsInv(s: State, n: nat, a: Attempt, at: Point, s': State)
    requires Inv(s) && AtRun(s) && Writes(s, n, a, at, s')
    requires var p := s.process.value;
             (p.at == Choosing || InAttempt(p)) && p.cursor == |p.manifest|
             && (at.Prompting? || at.Driving? || at.Checking?) && at.attempt == n && (at.Prompting? ==> a == EMPTY)
    requires Submitted(DirOf(s.disk, CurrentId(s))) <= {n}
    ensures Inv(s')
  {
    var p, id := s.process.value, CurrentId(s);
    AttemptSubmitsItself(DirOf(s.disk, id), n, a);
  }

  lemma AttemptKeepsInv(s: State, a: Action, s': State)
    requires Inv(s) && Acts(s, a, s')
    requires Touches(a)
    ensures Inv(s')
  {
    var p, dir := s.process.value, DirOf(s.disk, CurrentId(s));
    match a {
      case Open(n) =>
        CompletedIsPrefix(p);
        WriteKeepsInv(s, n, EMPTY, Prompting(n), s');
      case SavePrompt =>
        WriteKeepsInv(s, p.at.attempt, dir[p.at.attempt].(prompt := true), Driving(p.at.attempt), s');
      case DriverSaves(file) =>
        WriteKeepsInv(s, p.at.attempt, dir[p.at.attempt].(driver := file), Driving(p.at.attempt), s');
      case Collect(code) =>
        var held := dir[p.at.attempt];
        WriteKeepsInv(s, p.at.attempt, held.(driver := WithExitCode(held.driver, code)), Checking(p.at.attempt), s');
      case Reopen(n, _) =>
        WriteKeepsInv(s, n, EMPTY, Prompting(n), s');
    }
  }

  /** The record stays a record when the next run of the schedule joins it. */
  lemma RecordExtends(schedule: Schedule, manifest: seq<Planned>, progress: Progress, completed: nat)
    requires Records(schedule, manifest, progress) && |manifest| < |schedule| && completed <= |manifest| + 1
    ensures var run := schedule[|manifest|];
            && Records(schedule, manifest + [run], progress)
            && Records(schedule, manifest + [run], Progress(completed, progress.runs + [run.runId]))
  {
    var run := schedule[|manifest|];
    IdsExtend(manifest, run);
    SubsequenceExtends(progress.runs, Ids(manifest), run.runId);
  }

  lemma ProfileKeepsInv(s: State, s': State)
    requires Inv(s) && Acts(s, Profile, s')
    ensures Inv(s')
  {
    var p := s.process.value;
    RecordExtends(p.schedule, p.manifest, p.progress, |p.manifest| + 1);
  }

  lemma SaveManifestKeepsInv(s: State, s': State)
    requires Inv(s) && Acts(s, SaveManifest, s')
    ensures Inv(s')
  {
    var p, saved := s.process.value, Saved(s.disk);
    assert Records(p.schedule, p.manifest, SavedProgress(s.disk)) by {
      assert p.manifest == saved + [p.schedule[|saved|]];
      RecordExtends(p.schedule, saved, SavedProgress(s.disk), 0);
    }
    assert s'.disk == s.disk.(manifest := Some(p.manifest)) && s'.process == Some(p.(at := ProgressPending));
  }

  lemma SaveProgressKeepsInv(s: State, s': State)
    requires Inv(s) && Acts(s, SaveProgress, s')
    ensures Inv(s')
  {
  }

  lemma MoveKeepsInv(s: State, a: Action, s': State)
    requires Inv(s) && Acts(s, a, s') && (a.Skip? || a.Recover? || a.Accept?)
    ensures Inv(s')
  {
    CompletedIsPrefix(s.process.value);
  }

  lemma StartKeepsInv(s: State, a: Action, s': State)
    requires Inv(s) && Acts(s, a, s')
    requires a.Stop? || a.Begin? || a.Resume? || a.Litter? || a.SavePlan? || a.SaveFirstProgress?
    ensures Inv(s')
  {
  }

  lemma RecordKeepsInv(s: State, a: Action, s': State)
    requires Inv(s) && Acts(s, a, s') && (a.Profile? || a.SaveManifest? || a.SaveProgress?)
    ensures Inv(s')
  {
    if a.Profile? {
      ProfileKeepsInv(s, s');
    } else if a.SaveManifest? {
      SaveManifestKeepsInv(s, s');
    } else {
      SaveProgressKeepsInv(s, s');
    }
  }

  lemma ActKeepsInv(s: State, a: Action, s': State)
    requires Inv(s) && Acts(s, a, s')
    ensures Inv(s')
  {
    if Touches(a) {
      AttemptKeepsInv(s, a, s');
    } else if a.Profile? || a.SaveManifest? || a.SaveProgress? {
      RecordKeepsInv(s, a, s');
    } else if a.Skip? || a.Recover? || a.Accept? {
      MoveKeepsInv(s, a, s');
    } else {
      StartKeepsInv(s, a, s');
    }
  }

  lemma {:induction false} RunKeepsInv(run: Run)
    requires IsRun(run)
    ensures Inv(Now(run))
  {
    if run.Then? {
      RunKeepsInv(run.before);
      ActKeepsInv(Now(run.before), run.action, run.state);
    }
  }

  // ------------------------------------------------------------ over all runs

  /** After any crashes and resumptions no run has two recoverable submissions, so a resumption
      never meets an ambiguous directory. */
  lemma AtMostOneSubmission(run: Run, id: string)
    requires IsRun(run)
    ensures |Submitted(DirOf(Now(run).disk, id))| <= 1
  {
    RunKeepsInv(run);
  }

  /** The manifest is a duplicate-free prefix of the schedule, and progress a subsequence of it. */
  lemma ManifestIsPrefix(run: Run)
    requires IsRun(run)
    ensures var disk := Now(run).disk;
            if disk.plan == None then disk.manifest == None && disk.progress == None
            else Saved(disk) <= disk.plan.value && Distinct(Saved(disk))
                 && IsSubsequence(SavedProgress(disk).runs, Ids(Saved(disk)))
                 && SavedProgress(disk).completedRuns <= |Saved(disk)|
  {
    RunKeepsInv(run);
  }

  /** An attempt of run `id` is still under way. */
  predicate Working(s: State, id: string) {
    AtRun(s) && InAttempt(s.process.value) && CurrentId(s) == id
  }

  predicate Touches(a: Action) {
    a.Open? || a.SavePrompt? || a.DriverSaves? || a.Collect? || a.Reopen?
  }

  /** The attempt such an action writes. */
  function Target(s: State, a: Action): nat
    requires Touches(a) && AtRun(s) && (a.Open? || a.Reopen? || InAttempt(s.process.value))
  {
    if a.Open? || a.Reopen? then a.attempt else s.process.value.at.attempt
  }

  lemma TouchWrites(s: State, a: Action, s': State)
    requires Acts(s, a, s') && Touches(a)
    ensures AtRun(s) && (a.Open? || a.Reopen? || InAttempt(s.process.value))
    ensures var id, n := CurrentId(s), Target(s, a);
            && n in DirOf(s'.disk, id) && s'.disk.runs == s.disk.runs[id := DirOf(s.disk, id)[n := DirOf(s'.disk, id)[n]]]
            && Working(s', id) && s'.process.value.at.attempt == n
  {
  }

  lemma OthersTouchNothing(s: State, a: Action, s': State)
    requires Acts(s, a, s') && !Touches(a)
    ensures s'.disk.runs == s.disk.runs
  {
  }

  /** No attempt is opened beside a recoverable submission. */
  lemma OpenNeedsNoSubmission(s: State, a: Action, s': State)
    requires Inv(s) && Acts(s, a, s') && a.Open?
    ensures Submitted(DirOf(s.disk, CurrentId(s))) == {}
  {
    var p := s.process.value;
    if !p.resume { assert p.schedule[p.cursor].runId !in s.disk.runs; }
  }

  lemma ActKeepsSubmission(s: State, a: Action, s': State, id: string)
    requires Inv(s) && Acts(s, a, s') && !Working(s, id) && Submitted(DirOf(s.disk, id)) != {}
    ensures DirOf(s'.disk, id) == DirOf(s.disk, id) && !Working(s', id)
  {
    if Touches(a) {
      TouchWrites(s, a, s');
      if a.Open? { OpenNeedsNoSubmission(s, a, s'); }
    } else {
      OthersTouchNothing(s, a, s');
    }
  }

  /** Once a recoverable submission stands, nothing in its run's directory ever changes again:
      every later invocation resumes from it and none submits a second time. */
  lemma {:induction false} SubmissionIsFinal(run: Run, earlier: Run, id: string)
    requires IsRun(run) && Continues(run, earlier)
    requires !Working(Now(earlier), id) && Submitted(DirOf(Now(earlier).disk, id)) != {}
    ensures DirOf(Now(run).disk, id) == DirOf(Now(earlier).disk, id) && !Working(Now(run), id)
  {
    if run != earlier {
      SubmissionIsFinal(run.before, earlier, id);
      RunKeepsInv(run.before);
      ActKeepsSubmission(Now(run.before), run.action, run.state, id);
    }
  }

  /** Attempt `n` of run `id` has a result and is not the one under way. */
  predicate Settled(s: State, id: string, n: nat) {
    && n in DirOf(s.disk, id) && DirOf(s.disk, id)[n].driver != Absent
    && !(Working(s, id) && s.process.value.at.attempt == n)
  }

  lemma ActKeepsSettled(s: State, a: Action, s': State, id: string, n: nat)
    requires Inv(s) && Acts(s, a, s') && Settled(s, id, n)
    ensures Settled(s', id, n) && DirOf(s'.disk, id)[n] == DirOf(s.disk, id)[n]
  {
    if Touches(a) {
      TouchWrites(s, a, s');
      if a.Open? || a.Reopen? { OpeningSubmitsNothing(DirOf(s.disk, CurrentId(s)), a.attempt); }
    } else {
      OthersTouchNothing(s, a, s');
    }
  }

  /** No later attempt overwrites the result of an earlier one. */
  lemma {:induction false} ResultsAreKept(run: Run, earlier: Run, id: string, n: nat)
    requires IsRun(run) && Continues(run, earlier) && Settled(Now(earlier), id, n)
    ensures Settled(Now(run), id, n) && DirOf(Now(run).disk, id)[n] == DirOf(Now(earlier).disk, id)[n]
  {
    if run != earlier {
      ResultsAreKept(run.before, earlier, id, n);
      RunKeepsInv(run.before);
      ActKeepsSettled(Now(run.before), run.action, run.state, id, n);
    }
  }

  /** A process that has gone through its whole schedule leaves every run on record, in order. */
  lemma CompletionRecordsAll(run: Run)
    requires IsRun(run) && Now(run).process.Some?
    requires Now(run).process.value.at == Choosing && Now(run).process.value.cursor == |Now(run).process.value.schedule|
    ensures Now(run).disk.plan.Some? && Saved(Now(run).disk) == Now(run).disk.plan.value
  {
    RunKeepsInv(run);
  }
}
