/** The installer smoke of scripts/windows_installer_smoke.py: its flags, its stages and the cleanup
    that follows the main part from whichever point that stopped at. Every external call is answered
    by an oracle, so each contract holds for every combination of answers. */
module InstallerSmoke {
  datatype Status = NotRun | Running | Passed | Failed

  const STAGE_COUNT := 18
  const FIXTURE_SETUP := 4
  const BASELINE_INSTALL := 5
  const INITIAL_LAUNCH := 7
  const UPGRADE_INSTALL := 8
  const REINSTALL := 11
  const UNINSTALL := 14
  const DEFAULT_UNINSTALLER := 16
  const FIXTURE_CLEANUP := 17

  /** What has happened to the machine: how often each installer and uninstaller was launched,
      whether an installer exited with zero, and whether an installation has been verified to be gone
      since its last installer ran. */
  datatype World = World(installs: nat, installed: bool, uninstalls: nat, gone: bool,
                         defaultInstalls: nat, defaultInstalled: bool, defaultUninstalls: nat, defaultGone: bool)

  /** An owned group: how many processes it recorded, and how many of them are alive. */
  datatype Group = Group(size: nat, alive: nat)

  predicate AllGone(groups: seq<Group>) {
    forall g :: g in groups ==> g.alive == 0
  }

  predicate Small(groups: seq<Group>) {
    forall g :: g in groups ==> g.alive <= 1
  }

  predicate WithinSizes(groups: seq<Group>) {
    forall g :: g in groups ==> g.alive <= g.size
  }

  function Alive(groups: seq<Group>): nat {
    if groups == [] then 0 else Alive(groups[..|groups| - 1]) + groups[|groups| - 1].alive
  }

  function Sizes(groups: seq<Group>): nat {
    if groups == [] then 0 else Sizes(groups[..|groups| - 1]) + groups[|groups| - 1].size
  }

  lemma AliveGrows(groups: seq<Group>, g: Group)
    ensures Alive(groups + [g]) == Alive(groups) + g.alive
  {
    assert (groups + [g])[..|groups|] == groups;
  }

  lemma {:induction false} AliveWithinSizes(groups: seq<Group>)
    requires WithinSizes(groups)
    ensures Alive(groups) <= Sizes(groups)
    ensures Alive(groups) == 0 <==> AllGone(groups)
  {
    if groups != [] {
      var front, last := groups[..|groups| - 1], groups[|groups| - 1];
      assert groups == front + [last];
      AliveWithinSizes(front);
    }
  }

  /** When the temporary root may go: nothing was installed in it, or each installation there has
      been verified to be gone, or the only installer failed and left no directory. */
  predicate Safe(w: World, directoryAbsent: bool) {
    || w.installs == 0
    || (w.gone && (w.defaultInstalls > 0 ==> w.defaultGone))
    || (!w.installed && w.defaultInstalls == 0 && directoryAbsent)
  }

  /** What was known, and what was alive, when the temporary root was removed. */
  datatype Removal = Removal(world: World, directoryAbsent: bool, groups: seq<Group>)

  predicate Sanctioned(removals: seq<Removal>) {
    |removals| <= 1 && forall r :: r in removals ==> Safe(r.world, r.directoryAbsent) && AllGone(r.groups)
  }

  class Smoke {
    const oracle: nat -> nat
    var asked: nat

    // The report.
    var stages: seq<Status>
    var forced: nat
    var remaining: nat
    var passed: bool

    // The program's own flags.
    var tools: bool
    var root: bool
    var groups: seq<Group>
    var installerAttempted: bool
    var installerSucceeded: bool
    var uninstallerAttempted: bool
    var uninstallerSucceeded: bool
    var uninstallVerified: bool
    var defaultInstallerAttempted: bool
    var defaultInstallerSucceeded: bool
    var defaultUninstallerAttempted: bool
    var defaultCleanupVerified: bool

    // The machine.
    var world: World
    var removals: seq<Removal>

    constructor (oracle: nat -> nat)
      ensures this.oracle == oracle && asked == 0 && Untouched() && Ran(0) && forced == 0 && !passed
    {
      this.oracle := oracle;
      asked, forced, remaining, passed, groups := 0, 0, 0, false, [];
      stages := seq(STAGE_COUNT, _ => NotRun);
      tools, root := false, false;
      installerAttempted, installerSucceeded := false, false;
      uninstallerAttempted, uninstallerSucceeded, uninstallVerified := false, false, false;
      defaultInstallerAttempted, defaultInstallerSucceeded := false, false;
      defaultUninstallerAttempted, defaultCleanupVerified := false, false;
      world, removals := World(0, false, 0, false, 0, false, 0, false), [];
    }

    // -------------------------------------------------------------- predicates

    /** Nothing has been attempted. */
    ghost predicate Untouched()
      reads this
    {
      && !tools && !root && groups == []
      && !installerAttempted && !installerSucceeded && !uninstallerAttempted && !uninstallerSucceeded && !uninstallVerified
      && !defaultInstallerAttempted && !defaultInstallerSucceeded && !defaultUninstallerAttempted && !defaultCleanupVerified
      && world == World(0, false, 0, false, 0, false, 0, false) && removals == []
    }

    /** Exactly the first `k` stages have run, and passed. */
    ghost predicate Ran(k: nat)
      reads this
    {
      && |stages| == STAGE_COUNT
      && forall i :: 0 <= i < STAGE_COUNT ==> stages[i] == if i < k then Passed else NotRun
    }

    /** The main part is over; no stage is left running. */
    ghost predicate Stopped()
      reads this
    {
      |stages| == STAGE_COUNT && stages[FIXTURE_CLEANUP] == NotRun && Running !in stages
    }

    /** The main part has stopped at the first installation, whose installer failed. */
    ghost predicate StoppedInstalling(from: nat)
      reads this
    {
      && root && installerAttempted && !installerSucceeded && asked >= from + 7 && Small(groups)
      && world == World(1, false, 0, false, 0, false, 0, false)
    }

    /** What the flags say about the machine. */
    ghost predicate Inv()
      reads this
    {
      && WithinSizes(groups) && (groups != [] ==> tools)
      && (installerAttempted ==> root && tools)
      && (world.installs > 0 <==> installerAttempted)
      && (world.installed <==> installerSucceeded) && (installerSucceeded ==> installerAttempted)
      && (uninstallerAttempted ==> installerSucceeded) && world.uninstalls <= (if uninstallerAttempted then 1 else 0)
      && (uninstallerSucceeded ==> uninstallerAttempted) && (uninstallVerified ==> uninstallerSucceeded && world.gone)
      && (defaultInstallerAttempted ==> uninstallVerified) && (world.defaultInstalls > 0 <==> defaultInstallerAttempted)
      && (world.defaultInstalled <==> defaultInstallerSucceeded) && (defaultInstallerSucceeded ==> defaultInstallerAttempted)
      && world.defaultUninstalls <= (if defaultUninstallerAttempted then 1 else 0)
      && (defaultCleanupVerified ==> world.defaultGone)
    }

    /** From question `from` on, every answer is one. */
    ghost predicate Obliging(from: nat) {
      forall n :: n >= from ==> oracle(n) == 1
    }

    /** The first question asked after the fixture is set up, at which the exit code of the first
        installer is the answer, is the only one answered with zero. */
    ghost predicate OnlyInstallFails(from: nat) {
      (forall n :: from <= n < from + 6 ==> oracle(n) == 1) && oracle(from + 6) == 0 && Obliging(from + 7)
    }

    // ---------------------------------------------------------- external calls

    method AskCount() returns (n: nat)
      modifies `asked
      ensures n == oracle(old(asked)) && asked == old(asked) + 1
    {
      n := oracle(asked);
      asked := asked + 1;
    }

    method Ask() returns (yes: bool)
      modifies `asked
      ensures yes <==> oracle(old(asked)) > 0
      ensures asked == old(asked) + 1
    {
      var n := AskCount();
      yes := n > 0;
    }

    /** `groups` have at most one member more than `before`; after a clean end nothing of that one is
        alive. */
    ghost predicate Joined(before: seq<Group>, clean: bool)
      reads this
    {
      groups == before
      || (before < groups && |groups| == |before| + 1 && groups[|before|].alive <= groups[|before|].size
          && (clean ==> groups[|before|].alive == 0))
    }

    /** A new group of a launched process, of which any number is left alive unless it ended well. */
    method AddGroup(ok: bool)
      modifies `asked, `groups
      ensures Joined(old(groups), ok) && |groups| == |old(groups)| + 1
      ensures asked == old(asked) + 2 && groups[|old(groups)|].alive <= oracle(old(asked) + 1)
    {
      var size := AskCount();
      var alive := AskCount();
      groups := groups + [Group(size, if ok then 0 else if alive < size then alive else size)];
    }

    /** `run_owned_executable`: a new group, perhaps a forced end, and how it went; it ends well only
        with exit code zero and nothing left alive. */
    method RunOwned() returns (exitZero: bool, ok: bool)
      modifies `asked, `groups, `forced
      ensures exitZero <==> oracle(old(asked)) > 0
      ensures Joined(old(groups), ok) && forced >= old(forced)
      ensures ok ==> exitZero
      ensures asked == old(asked) + 5 && (Small(old(groups)) && Obliging(old(asked) + 1) ==> Small(groups))
    {
      exitZero := Ask();
      var kills := Ask();
      if !exitZero && kills { forced := forced + 1; }
      ok := Ask();
      ok := ok && exitZero;
      AddGroup(ok);
    }

    /** An installer run into the main directory; it may leave anything there. */
    method RunInstaller() returns (exitZero: bool, ok: bool)
      modifies `asked, `groups, `forced, `world
      ensures exitZero <==> oracle(old(asked)) > 0
      ensures world == old(world).(installs := old(world).installs + 1, gone := false,
                                   installed := old(world).installed || exitZero)
      ensures Joined(old(groups), ok) && forced >= old(forced)
      ensures ok ==> exitZero
      ensures asked == old(asked) + 5 && (Small(old(groups)) && Obliging(old(asked) + 1) ==> Small(groups))
    {
      exitZero, ok := RunOwned();
      world := world.(installs := world.installs + 1, gone := false, installed := world.installed || exitZero);
    }

    method RunDefaultInstaller() returns (exitZero: bool, ok: bool)
      modifies `asked, `groups, `forced, `world
      ensures world == old(world).(defaultInstalls := old(world).defaultInstalls + 1, defaultGone := false,
                                   defaultInstalled := old(world).defaultInstalled || exitZero)
      ensures Joined(old(groups), ok) && forced >= old(forced)
      ensures ok ==> exitZero
    {
      exitZero, ok := RunOwned();
      world := world.(defaultInstalls := world.defaultInstalls + 1, defaultGone := false,
                      defaultInstalled := world.defaultInstalled || exitZero);
    }

    /** `run_uninstaller`: not launched at all if the executable is missing. */
    method RunUninstaller() returns (ok: bool)
      modifies `asked, `groups, `forced, `world
      ensures world == old(world) || world == old(world).(uninstalls := old(world).uninstalls + 1)
      ensures Joined(old(groups), ok) && forced >= old(forced)
    {
      var present := Ask();
      if !present { return false; }
      world := world.(uninstalls := world.uninstalls + 1);
      var _, ended := RunOwned();
      ok := ended;
    }

    /** `_verify_uninstalled` and `verify_registry_removed`. */
    method VerifyGone() returns (ok: bool)
      modifies `asked, `world
      ensures world == if ok then old(world).(gone := true) else old(world)
    {
      ok := Ask();
      if ok { ok := Ask(); }
      if ok { world := world.(gone := true); }
    }

    /** No default directory and no registry entry. */
    method VerifyDefaultGone() returns (ok: bool)
      modifies `asked, `world
      ensures world == if ok then old(world).(defaultGone := true) else old(world)
    {
      ok := Ask();
      if ok { ok := Ask(); }
      if ok { world := world.(defaultGone := true); }
    }

    /** `run_default_uninstaller`, which also looks whether it worked. */
    method RunDefaultUninstaller() returns (ok: bool)
      modifies `asked, `groups, `forced, `world
      ensures world.(defaultUninstalls := 0, defaultGone := false) == old(world).(defaultUninstalls := 0, defaultGone := false)
      ensures world.defaultUninstalls <= old(world).defaultUninstalls + 1
      ensures if ok then world.defaultGone else world.defaultGone == old(world).defaultGone
      ensures Joined(old(groups), ok) && forced >= old(forced)
    {
      var present := Ask();
      if !present { return false; }
      world := world.(defaultUninstalls := world.defaultUninstalls + 1);
      var _, ended := RunOwned();
      if !ended { return false; }
      ok := VerifyDefaultGone();
    }

    method RemoveTempRoot(directoryAbsent: bool) returns (ok: bool)
      modifies `asked, `removals
      ensures removals == old(removals) + [Removal(world, directoryAbsent, groups)]
    {
      removals := removals + [Removal(world, directoryAbsent, groups)];
      ok := Ask();
    }

    // ------------------------------------------------------------------ stages

    method Enter(i: nat)
      requires i < |stages|
      modifies `stages
      ensures stages == old(stages)[i := Running]
    {
      stages := stages[i := Running];
    }

    method Leave(i: nat, ok: bool)
      requires i < |stages|
      modifies `stages
      ensures stages == old(stages)[i := if ok then Passed else Failed]
    {
      stages := stages[i := if ok then Passed else Failed];
    }

    /** A stage that only looks. */
    method Check(i: nat) returns (ok: bool)
      requires Ran(i) && i < FIXTURE_CLEANUP
      modifies `asked, `stages
      ensures if ok then Ran(i + 1) else Stopped()
      ensures asked == old(asked) + 1 && (ok <==> oracle(old(asked)) > 0)
    {
      Enter(i);
      ok := Ask();
      Leave(i, ok);
    }

    /** A stage that launches the installed app and probes it; whatever the probe says, the groups of
        the launch are cleaned up, by force if need be, and a stage that forced may still pass. */
    method LaunchAndProbe(i: nat) returns (ok: bool)
      requires Ran(i) && i < FIXTURE_CLEANUP && tools && WithinSizes(groups)
      modifies `asked, `stages, `groups, `forced, `remaining
      ensures if ok then Ran(i + 1) else Stopped()
      ensures WithinSizes(groups) && forced >= old(forced)
    {
      Enter(i);
      var first := |groups|;
      var probed := Ask();
      var killed := Ask();
      if killed { forced := forced + 1; }
      AddGroup(probed);
      assert WithinSizes(groups);
      var cleaned := CleanupGroups(first);
      ok := probed && cleaned;
      Leave(i, ok);
      if ok { ok := Ask(); }
    }

    /** A stage that installs over the main installation. */
    method Reinstall(i: nat) returns (ok: bool)
      requires Ran(i) && i < FIXTURE_CLEANUP && Inv() && installerSucceeded && !uninstallerAttempted
      modifies `asked, `stages, `groups, `forced, `world
      ensures if ok then Ran(i + 1) else Stopped()
      ensures Inv() && forced >= old(forced)
    {
      Enter(i);
      var _, ended := RunInstaller();
      ok := ended;
      if ok { ok := Ask(); }
      Leave(i, ok);
    }

    method Prepare() returns (ok: bool)
      requires Ran(0) && Untouched()
      modifies `asked, `stages, `tools, `root
      ensures if ok then Ran(FIXTURE_SETUP + 1) && tools && root else Stopped()
      ensures (forall n :: old(asked) <= n < old(asked) + 6 ==> oracle(n) == 1) ==> ok && asked == old(asked) + 6
    {
      ok := Check(0);
      if !ok { return; }
      ok := Check(1);
      if !ok { return; }
      ok := Check(2);
      if !ok { return; }
      ok := Check(3);
      if !ok { return; }
      tools := true;
      Enter(FIXTURE_SETUP);
      root := Ask();
      ok := root;
      if ok { ok := Ask(); }
      Leave(FIXTURE_SETUP, ok);
    }

    /** The first installation; an exit code of zero counts at once, whatever is found later. */
    method TryInstall() returns (ok: bool)
      requires Inv() && tools && root && !installerAttempted
      modifies `asked, `groups, `forced, `world, `installerAttempted, `installerSucceeded
      ensures Inv() && forced >= old(forced) && (ok ==> installerSucceeded)
      ensures installerAttempted && (installerSucceeded <==> world.installed) && (installerSucceeded <==> oracle(old(asked)) > 0)
      ensures world == old(world).(installs := old(world).installs + 1, gone := false, installed := world.installed)
      ensures asked > old(asked) && (Small(old(groups)) && Obliging(old(asked) + 1) ==> Small(groups))
    {
      installerAttempted := true;
      var exitZero, ended := RunInstaller();
      if exitZero { installerSucceeded := true; }
      ok := ended;
      if ok { ok := Ask(); }
    }

    /** The main uninstaller and the look whether it worked. */
    method TryUninstall() returns (ok: bool)
      requires Inv() && installerSucceeded && !uninstallerAttempted
      modifies `asked, `groups, `forced, `world, `uninstallerAttempted, `uninstallerSucceeded, `uninstallVerified
      ensures Inv() && forced >= old(forced) && (ok <==> uninstallVerified) && uninstallerAttempted
      ensures ok && AllGone(old(groups)) ==> AllGone(groups)
    {
      uninstallerAttempted := true;
      ok := RunUninstaller();
      if ok {
        uninstallerSucceeded := true;
        ok := VerifyGone();
        if ok { uninstallVerified := true; }
      }
    }

    /** A second installation elsewhere, removed by its uninstaller in its default mode. */
    method TryDefault() returns (ok: bool)
      requires Inv() && uninstallVerified && !defaultInstallerAttempted && !defaultUninstallerAttempted && !defaultCleanupVerified
      modifies `asked, `groups, `forced, `world
      modifies `defaultInstallerAttempted, `defaultInstallerSucceeded, `defaultUninstallerAttempted, `defaultCleanupVerified
      ensures Inv() && forced >= old(forced) && defaultInstallerAttempted && (ok ==> defaultCleanupVerified)
      ensures defaultInstallerSucceeded <==> world.defaultInstalled
      ensures defaultUninstallerAttempted ==> defaultInstallerSucceeded
    {
      ok := InstallDefault();
      if !ok { return; }
      defaultUninstallerAttempted := true;
      ok := RunDefaultUninstaller();
      if !ok { return; }
      defaultCleanupVerified := true;
      ok := Ask();
    }

    method InstallDefault() returns (ok: bool)
      requires Inv() && uninstallVerified && !defaultInstallerAttempted && !defaultUninstallerAttempted && !defaultCleanupVerified
      modifies `asked, `groups, `forced, `world, `defaultInstallerAttempted, `defaultInstallerSucceeded
      ensures Inv() && forced >= old(forced) && defaultInstallerAttempted && (ok ==> defaultInstallerSucceeded)
    {
      defaultInstallerAttempted := true;
      var exitZero, ended := RunDefaultInstaller();
      if exitZero { defaultInstallerSucceeded := true; }
      ok := ended;
      if ok { ok := Ask(); }
    }

    /** An installation over the main one, the look at it, and a launch. */
    method Renew(i: nat) returns (ok: bool)
      requires Ran(i) && i + 2 < FIXTURE_CLEANUP && Inv() && installerSucceeded && !uninstallerAttempted
      modifies `asked, `stages, `groups, `forced, `world, `remaining
      ensures if ok then Ran(i + 3) else Stopped()
      ensures Inv() && forced >= old(forced)
    {
      ok := Reinstall(i);
      if !ok { return; }
      ok := Check(i + 1);
      if !ok { return; }
      ok := LaunchAndProbe(i + 2);
    }

    /** The stages between the first installation and the uninstaller. */
    method Upgrade() returns (ok: bool)
      requires Ran(BASELINE_INSTALL + 1) && Inv() && installerSucceeded && !uninstallerAttempted
      modifies `asked, `stages, `groups, `forced, `world, `remaining
      ensures if ok then Ran(UNINSTALL) else Stopped()
      ensures Inv() && forced >= old(forced)
    {
      ok := Check(BASELINE_INSTALL + 1);
      if !ok { return; }
      ok := LaunchAndProbe(INITIAL_LAUNCH);
      if !ok { return; }
      ok := Renew(UPGRADE_INSTALL);
      if !ok { return; }
      ok := Renew(REINSTALL);
    }

    method BaselineInstall() returns (ok: bool)
      requires Ran(BASELINE_INSTALL) && Inv() && tools && root && !installerAttempted
      modifies `asked, `stages, `groups, `forced, `world, `installerAttempted, `installerSucceeded
      ensures if ok then Ran(BASELINE_INSTALL + 1) && installerSucceeded else Stopped()
      ensures Inv() && forced >= old(forced)
      ensures installerAttempted && (installerSucceeded <==> oracle(old(asked)) > 0)
      ensures world == old(world).(installs := old(world).installs + 1, gone := false, installed := world.installed)
      ensures asked > old(asked) && (Small(old(groups)) && Obliging(old(asked) + 1) ==> Small(groups))
    {
      Enter(BASELINE_INSTALL);
      ok := TryInstall();
      Leave(BASELINE_INSTALL, ok);
    }

    method Uninstall() returns (ok: bool)
      requires Ran(UNINSTALL) && Inv() && installerSucceeded && !uninstallerAttempted
      modifies `asked, `stages, `groups, `forced, `world, `uninstallerAttempted, `uninstallerSucceeded, `uninstallVerified
      ensures if ok then Ran(UNINSTALL + 1) && uninstallVerified else Stopped()
      ensures Inv() && forced >= old(forced)
    {
      Enter(UNINSTALL);
      ok := TryUninstall();
      Leave(UNINSTALL, ok);
    }

    method DefaultUninstallerSelfCopy() returns (ok: bool)
      requires Ran(DEFAULT_UNINSTALLER) && Inv() && uninstallVerified
      requires !defaultInstallerAttempted && !defaultUninstallerAttempted && !defaultCleanupVerified
      modifies `asked, `stages, `groups, `forced, `world
      modifies `defaultInstallerAttempted, `defaultInstallerSucceeded, `defaultUninstallerAttempted, `defaultCleanupVerified
      ensures if ok then Ran(FIXTURE_CLEANUP) && defaultCleanupVerified else Stopped()
      ensures Inv() && forced >= old(forced) && defaultInstallerAttempted
    {
      Enter(DEFAULT_UNINSTALLER);
      ok := TryDefault();
      Leave(DEFAULT_UNINSTALLER, ok);
    }

    method UninstallBoth() returns (ok: bool)
      requires Ran(UNINSTALL) && Inv() && installerSucceeded && !uninstallerAttempted
      requires !defaultInstallerAttempted && !defaultUninstallerAttempted && !defaultCleanupVerified
      modifies `asked, `stages, `groups, `forced, `world, `uninstallerAttempted, `uninstallerSucceeded, `uninstallVerified
      modifies `defaultInstallerAttempted, `defaultInstallerSucceeded, `defaultUninstallerAttempted, `defaultCleanupVerified
      ensures if ok then Ran(FIXTURE_CLEANUP) && defaultCleanupVerified && defaultInstallerAttempted else Stopped()
      ensures Inv() && forced >= old(forced)
    {
      ok := Uninstall();
      if !ok { return; }
      ok := Check(UNINSTALL + 1);
      if !ok { return; }
      ok := DefaultUninstallerSelfCopy();
    }

    method AfterInstall() returns (ok: bool)
      requires Ran(BASELINE_INSTALL + 1) && Inv() && installerSucceeded && !uninstallerAttempted
      requires !defaultInstallerAttempted && !defaultUninstallerAttempted && !defaultCleanupVerified
      modifies `asked, `stages, `groups, `forced, `world, `remaining, `uninstallerAttempted, `uninstallerSucceeded
      modifies `uninstallVerified, `defaultInstallerAttempted, `defaultInstallerSucceeded, `defaultUninstallerAttempted
      modifies `defaultCleanupVerified
      ensures if ok then Ran(FIXTURE_CLEANUP) && defaultCleanupVerified && defaultInstallerAttempted else Stopped()
      ensures Inv() && forced >= old(forced)
    {
      ok := Upgrade();
      if !ok { return; }
      ok := UninstallBoth();
    }

    method MainPart() returns (ok: bool)
      requires Ran(0) && Untouched()
      modifies this
      ensures if ok then Ran(FIXTURE_CLEANUP) && defaultCleanupVerified && defaultInstallerAttempted else Stopped()
      ensures Inv() && removals == [] && forced >= old(forced)
      ensures OnlyInstallFails(old(asked)) ==> StoppedInstalling(old(asked))
    {
      ok := Prepare();
      if !ok { return; }
      ok := BaselineInstall();
      if !ok { return; }
      ok := AfterInstall();
    }

    // ----------------------------------------------------------------- cleanup

    /** One owned group: it may end while it is waited for, or be ended by force. `seen` is false when
        a wait or the force failed; `count` is then the size of the group unless the last wait worked. */
    method CleanupGroup(group: Group) returns (left: Group, count: nat, seen: bool)
      requires group.alive <= group.size
      modifies `asked, `forced
      ensures left.size == group.size && left.alive <= group.alive && left.alive <= count
      ensures forced >= old(forced)
      ensures asked >= old(asked) && (Obliging(old(asked)) && group.alive <= 1 ==> seen && count == 0)
    {
      var alive := group.alive;
      seen, count := true, 0;
      if group.size > 0 {
        var waited := Ask();
        var ends := AskCount();
        alive := if ends < alive then alive - ends else 0;
        if waited && alive > 0 {
          seen := Ask();
          var kills := AskCount();
          kills := if kills < alive then kills else alive;
          if seen { forced := forced + kills; }
          waited := Ask();
          ends := AskCount();
          alive := if kills + ends < alive then alive - kills - ends else 0;
        }
        count := if waited then alive else group.size;
        seen := seen && waited;
      }
      left := Group(group.size, alive);
    }

    /** `_cleanup_process_groups` on the groups from `first` on: the reported number is never below the
        number alive, and it succeeds only if none is. */
    method CleanupGroups(first: nat) returns (ok: bool)
      requires first <= |groups| && WithinSizes(groups)
      modifies `asked, `forced, `remaining, `groups
      ensures |groups| == |old(groups)| && groups[..first] == old(groups)[..first] && WithinSizes(groups)
      ensures forced >= old(forced)
      ensures first < |groups| ==> remaining >= Alive(groups[first..])
      ensures ok ==> AllGone(groups[first..])
      ensures asked >= old(asked) && (tools && Small(old(groups)) && Obliging(old(asked)) ==> ok)
    {
      if first == |groups| { return true; }
      if !tools {
        AliveWithinSizes(groups[first..]);
        remaining := Sizes(groups[first..]);
        return false;
      }
      var left, failed, done := 0, false, [];
      while first + |done| < |groups|
        invariant first + |done| <= |groups| && WithinSizes(done)
        invariant groups == old(groups) && forced >= old(forced) && left >= Alive(done)
        invariant asked >= old(asked) && (Small(old(groups)) && Obliging(old(asked)) ==> !failed && left == 0)
      {
        var group, count, seen := CleanupGroup(groups[first + |done|]);
        AliveGrows(done, group);
        done := done + [group];
        left := left + count;
        failed := failed || !seen;
      }
      AliveWithinSizes(done);
      groups := groups[..first] + done;
      assert groups[first..] == done;
      remaining := left;
      ok := !failed && left == 0;
    }

    /** `_cleanup_default_install`: uninstall only what was never tried, then only look. */
    method CleanupDefaultInstall() returns (ok: bool)
      requires Inv() && defaultInstallerAttempted
      modifies `asked, `groups, `forced, `world, `defaultUninstallerAttempted
      ensures Inv() && forced >= old(forced)
      ensures ok ==> world.defaultGone
      ensures ok && AllGone(old(groups)) ==> AllGone(groups)
      ensures world.(defaultUninstalls := 0, defaultGone := false) == old(world).(defaultUninstalls := 0, defaultGone := false)
    {
      if defaultInstallerSucceeded && !defaultUninstallerAttempted {
        defaultUninstallerAttempted := true;
        ok := RunDefaultUninstaller();
        if !ok { return; }
      }
      ok := VerifyDefaultGone();
    }

    /** The temporary root, when and only when it is safe. */
    method CleanupRoot() returns (ok: bool)
      requires Inv() && removals == [] && AllGone(groups)
      modifies `asked, `removals
      ensures Sanctioned(removals)
      ensures ok && root ==> removals != []
      ensures root && installerAttempted && !installerSucceeded && oracle(old(asked)) > 0 ==>
                removals == [Removal(world, true, groups)]
    {
      if uninstallVerified {
        if defaultInstallerAttempted {
          if !defaultCleanupVerified { return false; }
          ok := Ask();
          if !ok { return; }
        }
        ok := Ask();
        if !ok { return; }
        ok := RemoveTempRoot(false);
        if !ok { return; }
      } else if installerSucceeded {
        return false;
      }
      ok := true;
      if root {
        if !installerAttempted {
          ok := RemoveTempRoot(false);
        } else {
          var absent := false;
          if !installerSucceeded { absent := Ask(); }
          if absent {
            ok := RemoveTempRoot(true);
          } else if !uninstallVerified {
            ok := false;
          }
        }
      }
    }

    /** Both installations, each uninstalled only if that was never tried. */
    method CleanupInstalls() returns (ok: bool)
      requires Inv()
      modifies `asked, `groups, `forced, `world, `uninstallerAttempted, `uninstallerSucceeded, `uninstallVerified
      modifies `defaultUninstallerAttempted, `defaultCleanupVerified
      ensures Inv() && forced >= old(forced)
      ensures ok && AllGone(old(groups)) ==> AllGone(groups)
      ensures old(uninstallVerified) ==> uninstallVerified
      ensures old(defaultCleanupVerified) ==> defaultCleanupVerified
      ensures !installerSucceeded ==> ok && asked == old(asked) && world == old(world)
    {
      ok := true;
      if defaultInstallerAttempted && !defaultCleanupVerified {
        ok := CleanupDefaultInstall();
        if !ok { return; }
        defaultCleanupVerified := true;
      }
      if installerSucceeded && !uninstallerSucceeded && !uninstallerAttempted {
        ok := TryUninstall();
      }
    }

    /** The cleanup once no owned process is left. */
    method CleanupFiles() returns (ok: bool)
      requires Inv() && removals == [] && AllGone(groups)
      modifies `asked, `groups, `forced, `world, `uninstallerAttempted, `uninstallerSucceeded, `uninstallVerified
      modifies `defaultUninstallerAttempted, `defaultCleanupVerified, `removals
      ensures Inv() && forced >= old(forced) && (ok ==> AllGone(groups))
      ensures Sanctioned(removals)
      ensures ok && root ==> removals != []
      ensures old(uninstallVerified) ==> uninstallVerified
      ensures old(defaultCleanupVerified) ==> defaultCleanupVerified
      ensures old(root && installerAttempted && !installerSucceeded) && Obliging(old(asked)) ==>
                |removals| == 1 && removals[0].world == old(world) && removals[0].directoryAbsent
    {
      ok := CleanupInstalls();
      if !ok { return; }
      if uninstallerSucceeded {
        ok := Ask();
        if !ok { return; }
      }
      ok := CleanupRoot();
    }

    method CleanupBody() returns (ok: bool)
      requires Inv() && removals == []
      modifies `asked, `groups, `forced, `remaining, `world, `uninstallerAttempted, `uninstallerSucceeded, `uninstallVerified
      modifies `defaultUninstallerAttempted, `defaultCleanupVerified, `removals
      ensures Inv() && forced >= old(forced) && (ok ==> AllGone(groups))
      ensures Sanctioned(removals)
      ensures ok && root ==> removals != []
      ensures old(uninstallVerified) ==> uninstallVerified
      ensures old(defaultCleanupVerified) ==> defaultCleanupVerified
      ensures old(root && installerAttempted && !installerSucceeded && Small(groups)) && Obliging(old(asked)) ==>
                |removals| == 1 && removals[0].world == old(world) && removals[0].directoryAbsent
    {
      ok := CleanupGroups(0);
      if !ok { return; }
      assert AllGone(groups) by { assert groups[0..] == groups; }
      ok := CleanupFiles();
    }

    // ------------------------------------------------------------------ report

    /** `finish`, after a stage has been marked for a failure outside every stage and for a forced
        end. */
    method Finish(success: bool, cleaned: bool)
      requires |stages| == STAGE_COUNT && (success && cleaned ==> forall s :: s in stages ==> s.Passed?)
      modifies `passed, `stages
      ensures |stages| == STAGE_COUNT && (Running !in old(stages) ==> Running !in stages)
      ensures passed <==> success && cleaned && forced == 0
      ensures passed <==> forall s :: s in stages ==> s.Passed?
      ensures !passed <==> Failed in stages
    {
      var failure := !success || !cleaned;
      if failure && Failed !in stages {
        stages := stages[0 := Failed];
        assert stages[0] in stages;
      }
      if forced > 0 && Failed !in stages {
        stages := stages[FIXTURE_CLEANUP := Failed];
        assert stages[FIXTURE_CLEANUP] in stages;
      }
      passed := success && !failure && forced == 0 && forall s :: s in stages ==> s.Passed?;
    }

    /** `run_smoke`. Whatever fails and wherever: neither uninstaller is launched twice, the temporary
        root is removed at most once and only when that is safe, the report passes exactly when every
        stage has passed, and otherwise names a failed one. */
    method RunSmoke()
      requires Ran(0) && Untouched() && forced == 0
      modifies this
      ensures world.uninstalls <= 1 && world.defaultUninstalls <= 1
      ensures Sanctioned(removals)
      ensures |stages| == STAGE_COUNT && Running !in stages
      ensures passed <==> forall s :: s in stages ==> s.Passed?
      ensures !passed <==> Failed in stages
      ensures passed ==> forced == 0 && removals != [] && world.gone && world.defaultGone && AllGone(groups)
      ensures world.installed && removals == [] ==> !passed
      ensures OnlyInstallFails(old(asked)) ==>
                |removals| == 1 && removals[0].world == World(1, false, 0, false, 0, false, 0, false) && removals[0].directoryAbsent
    {
      var success := MainPart();
      Enter(FIXTURE_CLEANUP);
      var cleaned := CleanupBody();
      Leave(FIXTURE_CLEANUP, cleaned);
      Finish(success, cleaned);
    }
  }

  /** A whole smoke whose first installer fails and in which everything else goes well: the temporary
      root goes although nothing has been verified to be gone. */
  method FailedInstallRemovesRoot() returns (removals: seq<Removal>)
    ensures |removals| == 1 && removals[0].world.installs == 1 && !removals[0].world.installed && !removals[0].world.gone
  {
    var smoke := new Smoke(n => if n == 6 then 0 else 1);
    smoke.RunSmoke();
    removals := smoke.removals;
  }
}
