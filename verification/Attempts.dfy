/** The attempt directories of one planned run of the connected campaign
    (scripts/phase16c_connected_campaign.py), and how a submission is found in them again. */
module Attempts {
  import opened Basics

  /** What `driver.json` says. */
  datatype Report = Report(
    exitCode: Option<int>, submittedAt: Option<int>, acceptedAt: Option<int>,
    checkpointVersion: Option<int>, committed: bool, stage: string,
    completed: bool, accepted: bool, mode: string,
    temporaryChat: bool, connector: string, submissions: Option<int>)

  /** `durable_submission_checkpoint`. */
  predicate Durable(r: Report) {
    r.checkpointVersion == Some(1) && r.committed && r.stage == "accepted" && r.submittedAt.Some? && r.acceptedAt.Some?
  }

  predicate CleanSubmission(r: Report) {
    r.exitCode == Some(0) && r.submittedAt.Some?
  }

  predicate Recoverable(r: Report) {
    Durable(r) || CleanSubmission(r)
  }

  /** `validate_driver_turn` passes. */
  predicate ValidTurn(r: Report, connector: string) {
    && (r.exitCode == Some(0) || Durable(r))
    && (r.completed || (r.accepted && r.mode == "submission-only"))
    && r.temporaryChat && r.connector == connector && r.submissions == Some(1)
  }

  datatype DriverFile = Absent | Garbled | Written(report: Report)

  datatype Attempt = Attempt(prompt: bool, driver: DriverFile)

  /** The attempts of a run by number: 1 is the run's own directory, `n` above it `attempt-n`. */
  type RunDir = map<nat, Attempt>

  const EMPTY := Attempt(false, Absent)

  predicate BaseIsEmpty(dir: RunDir) {
    dir.Keys <= {1} && (1 in dir ==> dir[1] == EMPTY)
  }

  /** `n` is the directory the next attempt goes to. */
  ghost predicate IsAvailable(dir: RunDir, n: nat) {
    if BaseIsEmpty(dir) then n == 1
    else n >= 2 && n !in dir && forall k: nat :: 2 <= k < n ==> k in dir
  }

  /** `available_attempt_dir`: ends for every directory, with one that holds no driver result. */
  method AvailableAttemptDir(dir: RunDir) returns (n: nat)
    ensures IsAvailable(dir, n)
    ensures n in dir ==> dir[n] == EMPTY
  {
    if BaseIsEmpty(dir) { return 1; }
    n := 2;
    ghost var seen: set<nat> := {};
    while n in dir
      invariant n >= 2 && seen <= dir.Keys && |seen| == n - 2
      invariant forall k :: k in seen ==> 2 <= k < n
      invariant forall k: nat :: 2 <= k < n ==> k in seen
      decreases |dir.Keys| - |seen|
    {
      SubsetIsSmaller(seen + {n}, dir.Keys);
      seen := seen + {n};
      n := n + 1;
    }
  }

  lemma {:induction false} SubsetIsSmaller<T>(a: set<T>, b: set<T>)
    requires a <= b
    ensures |a| <= |b|
    decreases |a|
  {
    if x :| x in a {
      SubsetIsSmaller(a - {x}, b - {x});
    }
  }

  predicate Submits(a: Attempt) {
    a.driver.Written? && Recoverable(a.driver.report)
  }

  function Submitted(dir: RunDir): set<nat> {
    set n | n in dir && Submits(dir[n])
  }

  /** `submitted_attempt`: the one attempt to resume from, if any; a garbled result or a second
      submission is refused. */
  method SubmittedAttempt(dir: RunDir) returns (r: Result<Option<nat>>)
    ensures r.Err? <==> (exists n :: n in dir && dir[n].driver.Garbled?) || |Submitted(dir)| > 1
    ensures r == Ok(None) ==> Submitted(dir) == {}
    ensures r.Ok? && r.value.Some? ==> Submitted(dir) == {r.value.value}
  {
    var pending, submitted: set<nat> := dir.Keys, {};
    while pending != {}
      invariant pending <= dir.Keys
      invariant forall n :: n in dir && n !in pending ==> !dir[n].driver.Garbled?
      invariant submitted == Submitted(dir) - pending
    {
      var n := AnyOf(pending);
      if dir[n].driver.Garbled? { return Err("invalid driver result"); }
      if Submits(dir[n]) { submitted := submitted + {n}; }
      pending := pending - {n};
    }
    assert submitted == Submitted(dir);
    if |submitted| > 1 { return Err("multiple submitted attempts; refusing ambiguous resume"); }
    if submitted == {} { return Ok(None); }
    var n := AnyOf(submitted);
    SingletonSet(submitted, n);
    return Ok(Some(n));
  }

  lemma SingletonSet<T>(s: set<T>, x: T)
    requires x in s && |s| <= 1
    ensures s == {x}
  {
    SubsetIsSmaller({x}, s);
    if y :| y in s && y != x { SubsetIsSmaller({x, y}, s); }
  }
}
