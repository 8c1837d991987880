/** The process-ownership bookkeeping of scripts/windows_runtime_e2e.py and the suspended launch
    of scripts/windows_suspended_launch.py, on the inventories they see. */
module ProcessTree {
  import opened Basics

  /** One inventory row; `created` is empty when the inventory holds no creation date. */
  datatype Row = Row(parent: int, created: string)

  type Inventory = map<int, Row>
  type Owned = map<int, Row>

  const IDENTITY_MISSING := "process_creation_identity_missing"
  const OWNERSHIP_AMBIGUOUS := "process_ownership_ambiguous"

  predicate Known(row: Row) {
    row.created != ""
  }

  // ------------------------------------------------------------ descendants

  /** The child relation guarded by creation time. */
  predicate Adopts(rows: Inventory, parent: int, child: int) {
    && parent in rows && child in rows && rows[child].parent == parent
    && Known(rows[parent]) && Known(rows[child])
    && LexLeq(rows[parent].created, rows[child].created)
  }

  ghost predicate Closed(rows: Inventory, roots: set<int>, s: set<int>) {
    && roots * rows.Keys <= s
    && forall child :: child in rows && rows[child].parent in s && Adopts(rows, rows[child].parent, child) ==> child in s
  }

  /** The least set that holds the live roots and is closed under the guarded child relation. */
  ghost function Tree(rows: Inventory, roots: set<int>): set<int> {
    set pid | pid in rows && InEvery(rows, roots, pid)
  }

  ghost predicate InEvery(rows: Inventory, roots: set<int>, pid: int) {
    forall s :: Closed(rows, roots, s) ==> pid in s
  }

  /** A child of the tree whose own or whose parent's creation date is unknown. */
  ghost predicate Blocks(rows: Inventory, roots: set<int>, child: int) {
    && child in rows && child !in roots && rows[child].parent in Tree(rows, roots)
    && (!Known(rows[child]) || !Known(rows[rows[child].parent]))
  }

  ghost predicate Blocked(rows: Inventory, roots: set<int>) {
    exists child :: Blocks(rows, roots, child)
  }

  lemma TreeIsClosed(rows: Inventory, roots: set<int>)
    ensures Closed(rows, roots, Tree(rows, roots))
  {
    forall pid | pid in roots * rows.Keys ensures InEvery(rows, roots, pid) {
    }
    forall child | child in rows && rows[child].parent in Tree(rows, roots) && Adopts(rows, rows[child].parent, child)
      ensures InEvery(rows, roots, child)
    {
      assert InEvery(rows, roots, rows[child].parent);
    }
  }

  lemma TreeIsLeast(rows: Inventory, roots: set<int>, s: set<int>)
    requires Closed(rows, roots, s)
    ensures Tree(rows, roots) <= s
  {
    forall pid | pid in Tree(rows, roots) ensures pid in s {
      assert InEvery(rows, roots, pid);
    }
  }

  /** `descendants`: ends on every snapshot, cyclic parent links included, with the least closed
      set, and fails exactly when that set has a child of unknown identity. */
  method Descendants(rows: Inventory, roots: set<int>) returns (r: Result<set<int>>)
    ensures r.Ok? ==> r.value == Tree(rows, roots)
    ensures r.Err? ==> r.error == IDENTITY_MISSING
    ensures r.Err? <==> Blocked(rows, roots)
  {
    var result := roots * rows.Keys;
    TreeIsClosed(rows, roots);
    while true
      invariant roots * rows.Keys <= result <= rows.Keys
      invariant result <= Tree(rows, roots)
      invariant forall pid :: pid in result && pid !in roots ==> Adopts(rows, rows[pid].parent, pid)
      decreases rows.Keys - result
    {
      var added: set<int> := {};
      var pending := rows.Keys;
      while pending != {}
        invariant pending <= rows.Keys && added <= rows.Keys
        invariant forall pid :: pid in added ==> pid !in result && rows[pid].parent in result && Adopts(rows, rows[pid].parent, pid)
        invariant forall pid :: pid in rows.Keys && pid !in pending && pid !in result && rows[pid].parent in result ==>
                    && Known(rows[pid]) && Known(rows[rows[pid].parent])
                    && (Adopts(rows, rows[pid].parent, pid) ==> pid in added)
      {
        var pid := AnyOf(pending);
        pending := pending - {pid};
        var parent := rows[pid].parent;
        if pid !in result && parent in result {
          if !Known(rows[pid]) || !Known(rows[parent]) {
            assert Blocks(rows, roots, pid);
            return Err(IDENTITY_MISSING);
          }
          if LexLeq(rows[parent].created, rows[pid].created) {
            added := added + {pid};
          }
        }
      }
      if added == {} {
        TreeIsLeast(rows, roots, result);
        return Ok(result);
      }
      TreeIsClosed(rows, roots);
      var grown := AnyOf(added);
      assert grown in rows.Keys - result;
      result := result + added;
    }
  }

  // ---------------------------------------------------------------- ownership

  predicate SameProcess(rows: Inventory, pid: int, identity: Row) {
    pid in rows && Known(identity) && rows[pid].created == identity.created
  }

  /** The recorded processes that the snapshot still shows. */
  function Present(owned: Owned, rows: Inventory): set<int> {
    set pid | pid in owned && SameProcess(rows, pid, owned[pid])
  }

  function RememberRoots(owned: Owned, rows: Inventory, helper: int): set<int> {
    Present(owned, rows)
    + (if helper in rows && (owned == map[] || helper in Present(owned, rows)) then {helper} else {})
  }

  /** `owned` after recording the rows of `pids`. */
  function Record(owned: Owned, rows: Inventory, pids: set<int>): Owned
    requires pids <= rows.Keys
  {
    owned + map pid | pid in pids :: rows[pid]
  }

  /** `owned'` is `owned` with the rows of `done` recorded, all of them of known identity. */
  ghost predicate RecordsPart(owned: Owned, rows: Inventory, roots: set<int>, done: set<int>, owned': Owned) {
    && done <= Tree(rows, roots) && (Blocked(rows, roots) ==> done == {})
    && owned' == Record(owned, rows, done)
    && forall pid :: pid in done ==> Known(rows[pid])
  }

  /** Every state `remember_tree` can leave behind: the whole tree recorded, or, when it fails,
      nothing or only part of it. */
  ghost predicate Remembered(owned: Owned, rows: Inventory, helper: int, owned': Owned) {
    exists done :: RecordsPart(owned, rows, RememberRoots(owned, rows, helper), done, owned')
  }

  /** One pass of the waiting loop: what it records. */
  ghost function Polled(owned: Owned, rows: Inventory): Owned {
    Record(owned, rows, Tree(rows, Present(owned, rows)))
  }

  datatype Verdict = Clear | Missing | Ambiguous

  /** What the orphan check of the waiting loop says of one row; `live` are the recorded
      processes seen before this pass recorded anything. */
  function Inspect(owned: Owned, rows: Inventory, live: set<int>, pid: int): Verdict
    requires pid in rows
  {
    var parent := rows[pid].parent;
    if pid in owned || parent !in owned || parent in live then Clear
    else if !Known(rows[pid]) then Missing
    else if LexLess(rows[pid].created, owned[parent].created) then Clear
    else if parent !in rows then Ambiguous
    else if !Known(rows[parent]) then Missing
    else if LexLeq(rows[parent].created, rows[pid].created) then Clear
    else Ambiguous
  }

  ghost predicate NoOrphan(owned: Owned, rows: Inventory, live: set<int>) {
    forall pid :: pid in rows ==> Inspect(owned, rows, live, pid) == Clear
  }

  /** `owned` after waiting through some inventories. */
  ghost function Tracked(owned: Owned, polls: seq<Inventory>): Owned {
    if polls == [] then owned else Polled(Tracked(owned, polls[..|polls| - 1]), polls[|polls| - 1])
  }

  /** What `OpenProcess` and the two calls on its handle answer. */
  datatype Handle = Gone | Refused | Opened(created: Option<int>, killable: bool)

  /** `terminate_identity`: whether the process behind the handle is terminated; `expected` is
      the value of the recorded creation date. */
  function TerminateIdentity(expected: Result<int>, handle: Handle): (r: Result<bool>)
    ensures r == Ok(true) ==>
              && expected.Ok? && handle.Opened? && handle.created.Some?
              && handle.created.value / 10 == expected.value / 10
    ensures r == Ok(false) ==>
              && expected.Ok?
              && (handle.Gone? || (handle.Opened? && handle.created.Some? && handle.created.value / 10 != expected.value / 10))
    ensures r.Ok? <==> expected.Ok? && (handle.Gone? || (handle.Opened? && handle.created.Some?
                         && (handle.created.value / 10 == expected.value / 10 ==> handle.killable)))
  {
    match expected
    case Err(code) => Err(code)
    case Ok(ticks) =>
      match handle
      case Gone => Ok(false)
      case Refused => Err("process_handle_open_failed")
      case Opened(None, _) => Err("process_handle_query_failed")
      case Opened(Some(actual), killable) =>
        if actual / 10 != ticks / 10 then Ok(false)
        else if killable then Ok(true)
        else Err("process_handle_termination_failed")
  }

  /** What happens around one suspended launch: the spawned pid, whether the three polls find the
      process alive, the sample, the name comparison and the resumption. */
  datatype Launch = Launch(spawned: Result<int>, alive: bool, sample: Result<Inventory>, aliveAfterSample: bool,
                           nameMatches: bool, resumed: bool, aliveAtEnd: bool)

  /** The `owned` dictionary of one process group. */
  class Group {
    var owned: Owned

    constructor ()
      ensures owned == map[]
    {
      owned := map[];
    }

    /** `remember_tree`. */
    method RememberTree(inventory: Result<Inventory>, helper: int) returns (r: Result<Inventory>)
      modifies this
      ensures r.Ok? ==> inventory == r
      ensures r.Ok? ==> var roots := RememberRoots(old(owned), r.value, helper);
                        && !Blocked(r.value, roots)
                        && owned == Record(old(owned), r.value, Tree(r.value, roots))
      ensures inventory.Err? ==> r == inventory && owned == old(owned)
      ensures inventory.Ok? ==>
                var roots := RememberRoots(old(owned), inventory.value, helper);
                r.Ok? <==> !Blocked(inventory.value, roots)
                           && forall pid :: pid in Tree(inventory.value, roots) ==> Known(inventory.value[pid])
      ensures inventory.Ok? ==> Remembered(old(owned), inventory.value, helper, owned)
    {
      if inventory.Err? { return inventory; }
      var rows := inventory.value;
      var roots := RememberRoots(owned, rows, helper);
      var found := Descendants(rows, roots);
      if found.Err? {
        assert RecordsPart(old(owned), rows, roots, {}, owned);
        return Err(found.error);
      }
      ghost var done;
      r, done := RecordAll(rows, found.value);
      assert RecordsPart(old(owned), rows, roots, done, owned);
    }

    /** Records rows one by one, and stops at one without a creation date. */
    method RecordAll(rows: Inventory, pids: set<int>) returns (r: Result<Inventory>, ghost done: set<int>)
      requires pids <= rows.Keys
      modifies this
      ensures r.Ok? <==> forall pid :: pid in pids ==> Known(rows[pid])
      ensures r.Ok? ==> r.value == rows && owned == Record(old(owned), rows, pids)
      ensures done <= pids && owned == Record(old(owned), rows, done)
      ensures forall pid :: pid in done ==> Known(rows[pid])
    {
      var pending := pids;
      done := {};
      while pending != {}
        invariant pending + done == pids && pending !! done
        invariant owned == Record(old(owned), rows, done)
        invariant forall pid :: pid in done ==> Known(rows[pid])
      {
        var pid := AnyOf(pending);
        if !Known(rows[pid]) {
          r := Err(IDENTITY_MISSING);
          return;
        }
        owned := owned[pid := rows[pid]];
        pending, done := pending - {pid}, done + {pid};
      }
      r := Ok(rows);
    }

    /** One pass of the waiting loop: the recorded processes that remain. */
    method Pass(rows: Inventory) returns (r: Result<set<int>>)
      modifies this
      ensures var live := Present(old(owned), rows);
              if Blocked(rows, live) then r == Err(IDENTITY_MISSING) && owned == old(owned)
              else
                && owned == Polled(old(owned), rows)
                && (r.Ok? <==> NoOrphan(owned, rows, live)) && (r.Ok? ==> r.value == Present(owned, rows))
                && (r.Err? ==> exists pid :: pid in rows && Inspect(owned, rows, live, pid) == (if r.error == OWNERSHIP_AMBIGUOUS then Ambiguous else Missing))
    {
      var live := Present(owned, rows);
      var found := Descendants(rows, live);
      if found.Err? { return Err(found.error); }
      owned := Record(owned, rows, found.value);
      var verdict := CheckOrphans(rows, live);
      if verdict == Missing { return Err(IDENTITY_MISSING); }
      if verdict == Ambiguous { return Err(OWNERSHIP_AMBIGUOUS); }
      return Ok(Present(owned, rows));
    }

    /** `wait_gone`: the last inventory is the one read at or after the deadline. */
    method WaitGone(inventories: seq<Result<Inventory>>) returns (r: Result<set<int>>, ghost polls: seq<Inventory>)
      requires |inventories| > 0
      modifies this
      ensures |polls| <= |inventories| && forall k :: 0 <= k < |polls| ==> inventories[k] == Ok(polls[k])
      ensures owned == Tracked(old(owned), polls)
      ensures r.Ok? ==>
                && |polls| > 0
                && var rows := polls[|polls| - 1];
                var before := Tracked(old(owned), polls[..|polls| - 1]);
                && r.value == Present(owned, rows)
                && (r.value == {} || |polls| == |inventories|)
                && !Blocked(rows, Present(before, rows)) && NoOrphan(owned, rows, Present(before, rows))
      ensures r == Err(OWNERSHIP_AMBIGUOUS) && (forall k :: 0 <= k < |inventories| ==> inventories[k].Ok?) ==>
                && |polls| > 0
                && var rows := polls[|polls| - 1];
                var before := Tracked(old(owned), polls[..|polls| - 1]);
                exists pid :: pid in rows && Inspect(owned, rows, Present(before, rows), pid) == Ambiguous
    {
      polls := [];
      var k := 0;
      while true
        invariant 0 <= k < |inventories|
        invariant |polls| == k && forall i :: 0 <= i < k ==> inventories[i] == Ok(polls[i])
        invariant owned == Tracked(old(owned), polls)
        decreases |inventories| - k
      {
        if inventories[k].Err? { r := Err(inventories[k].error); return; }
        var rows := inventories[k].value;
        ghost var blocked := Blocked(rows, Present(owned, rows));
        r := Pass(rows);
        if !blocked {
          assert (polls + [rows])[..|polls|] == polls;
          polls := polls + [rows];
        }
        if r.Err? || r.value == {} || k == |inventories| - 1 { return; }
        k := k + 1;
      }
    }

    method CheckOrphans(rows: Inventory, live: set<int>) returns (verdict: Verdict)
      ensures verdict == Clear <==> NoOrphan(owned, rows, live)
      ensures verdict != Clear ==> exists pid :: pid in rows && Inspect(owned, rows, live, pid) == verdict
    {
      var pending := rows.Keys;
      while pending != {}
        invariant pending <= rows.Keys
        invariant forall pid :: pid in rows && pid !in pending ==> Inspect(owned, rows, live, pid) == Clear
      {
        var pid := AnyOf(pending);
        pending := pending - {pid};
        if Inspect(owned, rows, live, pid) != Clear { return Inspect(owned, rows, live, pid); }
      }
      return Clear;
    }

    /** `force_cleanup`: the pids whose process it terminated, and their number; `ticks` is
        `creation_ticks`. */
    method ForceCleanup(ticks: string -> Result<int>, handles: map<int, Handle>) returns (r: Result<nat>, killed: set<int>)
      requires owned.Keys <= handles.Keys
      ensures forall pid :: pid in killed ==> pid in owned && TerminateIdentity(ticks(owned[pid].created), handles[pid]) == Ok(true)
      ensures r.Ok? ==>
                && r.value == |killed|
                && forall pid :: pid in owned ==> TerminateIdentity(ticks(owned[pid].created), handles[pid]) == Ok(pid in killed)
      ensures r.Err? ==> exists pid :: pid in owned && TerminateIdentity(ticks(owned[pid].created), handles[pid]) == Err(r.error)
    {
      killed := {};
      var forced, pending := 0, owned.Keys;
      while pending != {}
        invariant pending <= owned.Keys && killed <= owned.Keys - pending && forced == |killed|
        invariant forall pid :: pid in owned && pid !in pending ==>
                    TerminateIdentity(ticks(owned[pid].created), handles[pid]) == Ok(pid in killed)
      {
        var pid := AnyOf(pending);
        pending := pending - {pid};
        var outcome := TerminateIdentity(ticks(owned[pid].created), handles[pid]);
        if outcome.Err? {
          r := Err(outcome.error);
          return;
        }
        if outcome.value {
          killed := killed + {pid};
          forced := forced + 1;
        }
      }
      r := Ok(forced);
    }

    /** `launch_owned`: records the sampled root before it may run; on any failure after the
        spawn a process still alive is killed through its own handle, and an untrusted sample
        never reaches `owned`. */
    method LaunchOwned(launch: Launch) returns (r: Result<int>, killed: bool)
      modifies this
      ensures old(owned) != map[] ==> r.Err? && !killed && owned == old(owned)
      ensures r.Ok? ==> launch.spawned == r && !killed && launch.resumed && r.value in owned && Known(owned[r.value])
      ensures killed <==> old(owned) == map[] && launch.spawned.Ok? && r.Err? && launch.aliveAtEnd
      ensures owned != old(owned) ==>
                && launch.spawned.Ok? && launch.sample.Ok? && launch.alive && launch.aliveAfterSample && launch.nameMatches
                && launch.spawned.value in owned
                && Remembered(map[], launch.sample.value, launch.spawned.value, owned)
    {
      killed := false;
      if owned != map[] { r := Err("initial_ownership_not_empty"); return; }
      if launch.spawned.Err? { r := launch.spawned; return; }
      var pid := launch.spawned.value;
      r := Err("initial_process_exited");
      if launch.alive {
        var candidate := new Group();
        var sampled := candidate.RememberTree(launch.sample, pid);
        if sampled.Err? {
          r := Err(sampled.error);
        } else if !launch.aliveAfterSample || pid !in candidate.owned || !Known(candidate.owned[pid]) || !launch.nameMatches {
          r := Err("initial_process_identity_invalid");
        } else {
          owned := owned + candidate.owned;
          assert owned == candidate.owned;
          if launch.resumed { r := Ok(pid); return; }
          r := Err("primary_thread_resume_failed");
        }
      }
      killed := launch.aliveAtEnd;
    }
  }
}
