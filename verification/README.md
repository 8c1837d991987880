# Chadex coordination models

This project models, in Dafny, the parts of Chadex whose correctness depends on order: which process
belongs to whom while PIDs are recycled, what a campaign leaves behind when it dies between two
writes, what overlapping calls on the app's main actor may do to each other, and what a cleanup may
still touch after a failure. Around them stand the computations those parts rely on: calendar
arithmetic, interval unions, graph selection, file synchronisation and notification diffs.

Verify everything with `dafny verify dfyconfig.toml`.

| file | models |
|---|---|
| `Basics.dfy` | results, options and the code point order of Python strings |
| `CreationTime.dfy` | creation dates: the pattern, the calendar, FILETIME ticks, and why comparing strings compares instants |
| `ProcessTree.dfy` | `descendants`, `remember_tree`, `wait_gone`, `force_cleanup` and `launch_owned` on the inventories they see |
| `ProcessWorld.dfy` | the operating system: incarnations, true parents, exits and PID reuse |
| `Ownership.dfy`, `Remnants.dfy` | the two interleaved in every way: what is recorded, terminated, and reported as gone |
| `OwnershipTie.dfy`, `OrphanTie.dfy`, `Unseen.dfy` | runs in which a tie of creation dates breaks ownership, and runs that end in an empty answer while something is alive |
| `Attempts.dfy`, `Campaign.dfy` | the attempt directories, and the campaign under any crashes and resumptions |
| `Plan.dfy`, `PairedDeltas.dfy` | the balanced schedule and the matched-pair comparison, up to a finished campaign |
| `SkillsLoad.dfy`, `OverlaySync.dfy`, `RuntimeGates.dfy` | main-actor coordination in the macOS app |
| `IntervalUnion.dfy` | the interval sweep and the time outside tools |
| `VaultSync.dfy`, `GraphSelection.dfy` | the Graphify to Obsidian synchronisation and its bounded selection |
| `GoalNotifier.dfy` | the notification diff, folded over all polls |
| `InstallerSmoke.dfy` | the installer smoke, its report and its cleanup |

State machines are written as a datatype of actions, a relation or function for one action, and a
datatype `Run` of all finite runs; the theorems speak of every run. Code that updates fields,
dictionaries or lists in place is a class or a method with loops, and its `ensures` ties it to the
functions the theorems are about.

## Assumptions about the world

- Processes (`ProcessWorld`): an inventory is atomic and shows exactly the live processes; a date, where shown, is the true one cut to microseconds; the clock never runs backwards; a PID is reused only after its holder has exited, with a later microsecond; a creator is alive when its child starts; a held handle pins its PID; a suspended process starts nothing.
- Campaign: replacing a file is atomic, the lock admits one process, and the driver dies with the campaign. A crash, an exception and a return are the same step, possible anywhere.
- Main actor: the code between two `await`s is atomic and everything else may happen at an `await`. Returning from a call on the same actor does not suspend; `RuntimeGates.GapAllowsOverlap` shows what depends on that. Task bodies start in creation order; `SkillsLoad.LateBodyLosesReload` shows what depends on that.
- The Python scripts write line feeds unchanged, as they do on the systems where the vault sync is used.

## Where a promise does not hold as it stands

- `creation_ticks` is not injective on all strings it accepts, because Python's `\d` and `int` take every Unicode decimal digit (`UnicodeDigitsCollide`). It identifies exactly the digit values (`TicksIdentifyDigits`), and string order is FILETIME order exactly for ASCII digits (`OrderAgreesExactly`).
- The `>=` of `descendants` adopts a process whose creator's PID has passed to a process started in the same microsecond (`TiedOrphanIsAdopted`, `TieInTwoSeconds`). Ownership holds exactly when no such tied stranger, nor a true child of one, is recorded: in one inventory `TreeDescendsExactly` and `StrayExactly`, over runs `OwnershipExactly`. What is terminated is recorded in every run (`TerminatesRecorded`).
- An empty answer of `wait_gone` does not mean that nothing of the tree is alive. What can be left of the root's descendants are the four cases of `EmptyAnswerLeaves`, and each of them happens:
  - the `>=` lets an orphan pass when the present holder of its creator's PID started in the orphan's microsecond (`TiedOrphanIsMissed`, `MissedInTwoSeconds`);
  - a row whose PID is recorded is skipped even when the recorded identity is an older, dead one (`RecycledKeyIsSkipped`, without any tie);
  - a row is not examined when its creator was never recorded, having started and exited between two inventories (`UnseenCreatorHides`);
  - a recorded process shown without its date counts as gone, and only then (`UndatedIsMissed`, `GoneUnlessUndated`).

  For the children of recorded incarnations the exact condition is `ZeroRemnant`.
- A reversed interval can make `interval_union` smaller than the covered length (`ReversedIntervalCounts`); exactly when is `MeasureExactly`. `outer_summary` filters such spans out. Its list of pauses can contain tool time when one span encloses the next (`GapHoldsToolTime`); exactly when is `GapIsIdle`.
- `sync_outputs` reports an output with a carriage return as changed on every run (`CarriageReturnRepeats`, `Converges`), though the store no longer changes (`SyncIsIdempotent`).
- An overview that lists one run twice in different states is announced again on every poll (`DuplicateRepeats`); exactly when is `RepeatIsSilentExactly`.
- The overlay generation wraps after 2^64 calls; exactly then a call can be missed (`AnswerMissesCalls`, `WrapLosesCall`). That requests never exceed calls does not depend on it.
- The installer smoke also removes the temporary root after a failed first installation that left no directory; the registry is not looked at in that case (`FailedInstallRemovesRoot`).

## Model

| member | source | states |
|---|---|---|
| `CreationTime.YearStep` | scripts/windows_runtime_e2e.py:431-439 | the closed day count before a year grows by exactly that year's days, leap years included |
| `CreationTime.MonthStep` | scripts/windows_runtime_e2e.py:431-439 | the month table grows by exactly the days of each month and fills the year |
| `CreationTime.MomentsAscend` | scripts/windows_runtime_e2e.py:431-439 | an earlier calendar moment has fewer FILETIME ticks |
| `CreationTime.Alphabet.DigitDecidesTicks` | scripts/windows_runtime_e2e.py:431-439 | of two accepted strings the first differing digit decides the order of the ticks |
| `CreationTime.Alphabet.TicksIdentifyDigits` | scripts/windows_runtime_e2e.py:431-439 | two accepted strings have equal ticks exactly when their digits have equal values |
| `CreationTime.Alphabet.StampOrder` | scripts/windows_runtime_e2e.py:376-380 | on ASCII dates string order is FILETIME order, and equal ticks mean equal strings |
| `CreationTime.RespelledDigitCollides` | scripts/windows_runtime_e2e.py:433-439 | any respelling of the first digit has the same ticks and another place in string order |
| `CreationTime.UnicodeDigitsCollide` | scripts/windows_runtime_e2e.py:433-439 | two accepted strings, one with a full-width digit, have the same ticks |
| `CreationTime.OrderAgreesExactly` | scripts/windows_runtime_e2e.py:376-380 | over all accepted strings, string order is FILETIME order exactly when every digit of the alphabet is ASCII |
| `CreationTime.UnixEpoch` | scripts/windows_runtime_e2e.py:436-439 | the Unix epoch reads as FILETIME 116444736000000000 |
| `ProcessTree.TreeIsClosed` | scripts/windows_runtime_e2e.py:365-383 | the tree holds the live roots and is closed under the date-guarded child relation |
| `ProcessTree.Descendants` | scripts/windows_runtime_e2e.py:365-383 | ends on every snapshot with the least closed set, or fails exactly when that set has a child of unknown identity |
| `ProcessTree.TerminateIdentity` | scripts/windows_runtime_e2e.py:456-479 | when it succeeds, and that it terminates only through a handle whose creation time equals the recorded one to the microsecond and spares only a gone process or another microsecond |
| `ProcessTree.Group.RememberTree` | scripts/windows_runtime_e2e.py:390-399 | records the whole tree or fails, with exactly which outcome and what is then recorded |
| `ProcessTree.Group.RecordAll` | scripts/windows_runtime_e2e.py:396-398 | records rows until one lacks a date, and succeeds exactly when none does |
| `ProcessTree.Group.Pass` | scripts/windows_runtime_e2e.py:404-425 | one pass records the tree of what is still there; it returns what remains exactly when no row is an orphan |
| `ProcessTree.Group.WaitGone` | scripts/windows_runtime_e2e.py:402-428 | the record after all passes, and that an answer rests on an unblocked last inventory without orphans |
| `ProcessTree.Group.CheckOrphans` | scripts/windows_runtime_e2e.py:410-424 | clear exactly when every row is, otherwise the verdict of some row |
| `ProcessTree.Group.ForceCleanup` | scripts/windows_runtime_e2e.py:482-487 | the count is the number of recorded processes that passed the identity check; an error is that of one of them |
| `ProcessTree.Group.LaunchOwned` | scripts/windows_suspended_launch.py:75-105 | success means a recorded root of known identity; on failure a live process is killed and an untrusted sample is not recorded |
| `ProcessWorld.StartKeepsWorld` | scripts/windows_runtime_e2e.py:375-377 | any start of a process keeps the assumptions on clock, reuse and creators |
| `ProcessWorld.ClockIsValid` | scripts/windows_runtime_e2e.py:431-439 | on the dates Windows writes, `creation_ticks` orders and identifies instants as the strings do |
| `ProcessWorld.GuardExact` | scripts/windows_runtime_e2e.py:373-380 | what the date guard decides of any live pair: true children pass, a stranger passes exactly on a tie |
| `ProcessWorld.AdoptionExact` | scripts/windows_runtime_e2e.py:373-380 | in an inventory a child is adopted exactly when its parent's row is its true creator or carries its date |
| `Ownership.OwnershipSoundness` | scripts/windows_runtime_e2e.py:365-408 | in every interleaving whose recording inventories show no tied stranger, each recorded identity is a true descendant of the launched root, and so is everything ever terminated |
| `Ownership.TreeStaysExactly` | scripts/windows_runtime_e2e.py:365-383 | a set of rows that holds the roots and passes to true children holds the whole tree exactly when no tie leads out of it |
| `Ownership.TreeDescendsExactly` | scripts/windows_runtime_e2e.py:365-383 | with sound roots, the tree holds only descendants of the root if and only if no stranger in it is dated like its parent's row |
| `Ownership.StrayExactly` | scripts/windows_runtime_e2e.py:365-383 | the rows of a tree that do not descend from the root are exactly the stray ones |
| `Ownership.StepSoundExactly` | scripts/windows_runtime_e2e.py:390-408 | what a recording step records is sound if and only if it records no stray row |
| `Ownership.OwnershipExactly` | scripts/windows_runtime_e2e.py:365-408 | over every run, whatever part of its trees it recorded, the records are sound throughout if and only if no step records a stray row: a tied stranger, or a true child in turn of one |
| `Ownership.RunKeepsWorld` | scripts/windows_runtime_e2e.py:365-408 | the assumptions about clock, reuse and creators hold in every run |
| `Ownership.RunKeepsGenuine` | scripts/windows_runtime_e2e.py:390-408 | in every run, ties included, each recorded identity is that of some incarnation |
| `Ownership.NoLiveIdentityForgotten` | scripts/windows_runtime_e2e.py:390-408 | over any continuation of any run, ties included, a recorded incarnation that is still live is still recorded |
| `Ownership.IdentityCheck` | scripts/windows_runtime_e2e.py:473-477 | a handle passes exactly when its process started in the recorded microsecond |
| `Ownership.MatchIsRecorded` | scripts/windows_runtime_e2e.py:456-487 | whatever incarnation a handle was opened on, and whether or not the record is sound, only the recorded one can pass |
| `Ownership.TerminatesRecorded` | scripts/windows_runtime_e2e.py:456-487 | in every run, ties and recycled PIDs included, only recorded incarnations are ever terminated by identity |
| `Ownership.CleanupIsComplete` | scripts/windows_runtime_e2e.py:482-487 | when handles open on the current holders and kills succeed, `force_cleanup` reaches every recorded incarnation that is alive |
| `Remnants.GoneUnlessUndated` | scripts/windows_runtime_e2e.py:425-427 | a recorded incarnation reported as gone is live exactly when shown without a date |
| `Remnants.OrphanPassesExactly` | scripts/windows_runtime_e2e.py:410-424 | a live child of a recorded incarnation passes the orphan check exactly when its PID is recorded, under whatever date, or it is dated like the present holder of its creator's PID |
| `Remnants.ChildRecordedExactly` | scripts/windows_runtime_e2e.py:402-428 | after a pass that does not raise, a live child of a recorded incarnation is recorded exactly when it is neither tied nor on a PID recorded under another date |
| `Remnants.ZeroRemnant` | scripts/windows_runtime_e2e.py:402-428 | a pass that does not raise leaves every live child of a recorded incarnation recorded if and only if no orphan is tied and none is on a PID recorded under another date; an empty answer leaves no live recorded one unless shown undated |
| `Remnants.ZeroRemnantInRuns` | scripts/windows_runtime_e2e.py:402-428 | the same at every pass of every run |
| `Remnants.EmptyAnswerLeaves` | scripts/windows_runtime_e2e.py:402-428 | after an empty answer in any run, a live descendant of the root is shown undated, tied, on a PID recorded under another date, or the child of an incarnation that is not recorded |
| `Remnants.TreeIsExact` | scripts/windows_runtime_e2e.py:365-383 | the tree holds every live process linked to a root by live creators, and nothing else if and only if no other row is tied to it |
| `Remnants.SuspendedSample` | scripts/windows_suspended_launch.py:81-98 | the sample of a suspended root is the root alone if and only if no process left by an earlier holder of its PID carries its date |
| `Remnants.AmbiguityIsExact` | scripts/windows_runtime_e2e.py:408-424 | with all dates known, ownership is ambiguous exactly when a live process outside the record lost its creator, started no earlier than the recorded holder of that PID, and is not tied with its present holder |
| `Remnants.AmbiguityInRuns` | scripts/windows_runtime_e2e.py:408-424 | the same at every pass of every run |
| `OwnershipTie.TiedOrphanIsAdopted` | scripts/windows_runtime_e2e.py:379-380 | a run, for any two dates, in which a tie makes `remember_tree` record a process that does not descend from the root |
| `OwnershipTie.TieInTwoSeconds` | scripts/windows_runtime_e2e.py:379-380 | such a run at two given dates |
| `OrphanTie.TiedOrphanIsMissed` | scripts/windows_runtime_e2e.py:420-427 | a run, for any two dates, at whose end `wait_gone` answers that nothing remains while a child of a recorded incarnation is alive |
| `OrphanTie.MissedInTwoSeconds` | scripts/windows_runtime_e2e.py:420-427 | such a run at two given dates |
| `Unseen.UndatedIsMissed` | scripts/windows_runtime_e2e.py:386-387 | a run, for any two dates, that ends in an empty answer while the recorded root is alive and shown without its date |
| `Unseen.RecycledKeyIsSkipped` | scripts/windows_runtime_e2e.py:413-414 | a run that ends in an empty answer while a child of a recorded incarnation is alive on the PID of another recorded one; all rows are dated and none is tied |
| `Unseen.UnseenCreatorHides` | scripts/windows_runtime_e2e.py:413-414 | a run that ends in an empty answer while a descendant is alive whose creator started and exited between two inventories |
| `Unseen.MissedWithoutTies` | scripts/windows_runtime_e2e.py:402-428 | the three runs at two given dates |
| `Attempts.AvailableAttemptDir` | scripts/phase16c_connected_campaign.py:393-401 | ends for every directory, with the run's own one if empty and otherwise the first free number; it holds no result |
| `Attempts.SubmittedAttempt` | scripts/phase16c_connected_campaign.py:404-433 | the one recoverable attempt, none, or an error exactly for a garbled result or a second submission |
| `Campaign.CompletedIsPrefix` | scripts/phase16c_connected_campaign.py:496-515 | of a duplicate-free schedule the runs skipped as completed are exactly those on record |
| `Campaign.AttemptKeepsInv` | scripts/phase16c_connected_campaign.py:506-567 | every write of an attempt leaves at most one recoverable submission |
| `Campaign.RunKeepsInv` | scripts/phase16c_connected_campaign.py:436-629 | the invariant of disk and process holds after any actions and crashes |
| `Campaign.AtMostOneSubmission` | scripts/phase16c_connected_campaign.py:404-433 | over all invocations, stages, crashes and resumptions no run has two recoverable submissions |
| `Campaign.ManifestIsPrefix` | scripts/phase16c_connected_campaign.py:496-629 | the manifest is a duplicate-free prefix of the schedule and progress a subsequence of it |
| `Campaign.SubmissionIsFinal` | scripts/phase16c_connected_campaign.py:506-567 | once a recoverable submission stands, its directory never changes again |
| `Campaign.ResultsAreKept` | scripts/phase16c_connected_campaign.py:393-401 | no later attempt overwrites the result of an earlier one |
| `Campaign.CompletionRecordsAll` | scripts/phase16c_connected_campaign.py:496-629 | a process through its whole schedule leaves every run on record, in order |
| `Plan.BalancedOrders` | scripts/phase16c_connected_campaign.py:94-105 | refused exactly for odd or small numbers; otherwise each harness comes first in exactly half the pairs |
| `Plan.MakePlan` | scripts/phase16c_connected_campaign.py:332-363 | the schedule lists each pair's two harnesses in its order |
| `Plan.PairIdIsUnique` | scripts/phase16c_connected_campaign.py:332-363 | zero-padded pair ids differ for different pairs, beyond two digits too |
| `Plan.RunIdIsUnique` | scripts/phase16c_connected_campaign.py:332-363 | run ids determine pair and harness |
| `Plan.PlanIsDistinct` | scripts/phase16c_connected_campaign.py:332-363 | a plan names every run once |
| `PairedDeltas.GroupByPair` | scripts/phase16c_variance_profile.py:165-169 | the runs of each pair id, in order |
| `PairedDeltas.TakeLeast` | scripts/phase16c_variance_profile.py:173-173 | the least id comes first |
| `PairedDeltas.ByHarness` | scripts/phase16c_variance_profile.py:174-179 | one run per harness, refused exactly when one occurs twice |
| `PairedDeltas.Compare` | scripts/phase16c_variance_profile.py:164-196 | refused exactly for a repeated harness; otherwise exactly the matched pairs with both latencies and their rounded difference, in id order |
| `PairedDeltas.Rounded` | scripts/phase16c_variance_profile.py:186-186 | rounding moves a difference by at most half a thousandth |
| `PairedDeltas.FinishedCampaign` | scripts/phase16c_variance_profile.py:164-196 | for a finished plan: never refused, one row per pair, each harness first as planned |
| `PairedDeltas.CampaignCompares` | scripts/phase16c_variance_profile.py:199-217 | after any crashes, a completed balanced campaign compares to one row per pair with Chadex first in half of them |
| `SkillsLoad.Model.LoadSkills` | Sources/ChadexApp/AppModel.swift:987-1022 | joins the running load of the selected project with a reload request, or starts a new one |
| `SkillsLoad.Model.EndPass` | Sources/ChadexApp/AppModel.swift:1008-1018 | goes round exactly on a request of the current load for the selected project; otherwise clears only its own state |
| `SkillsLoad.RunKeepsFields` | Sources/ChadexApp/AppModel.swift:987-1022 | the fields point at the newest, unfinished load or at nothing, in every run |
| `SkillsLoad.RunKeepsInv` | Sources/ChadexApp/AppModel.swift:987-1073 | the invariant of fields, loads and callers holds in every orderly run |
| `SkillsLoad.LoadingMeansTask` | Sources/ChadexApp/AppModel.swift:983-986 | in every run, whatever the order of the bodies, the loading flag is set exactly while a load is, and that load is the newest and unfinished |
| `SkillsLoad.NoLostReload` | Sources/ChadexApp/AppModel.swift:983-1073 | a caller whose project stays selected returns only after a full pass that began after its call |
| `SkillsLoad.SupersededLoadIsHarmless` | Sources/ChadexApp/AppModel.swift:1005-1018 | in every run a superseded load leaves a newer load's state alone, but for a reload request its first step withdraws |
| `SkillsLoad.WithdrawnRequestIsMet` | Sources/ChadexApp/AppModel.swift:1005-1011 | with bodies in creation order such a request belongs to a load that has yet to begin its first pass |
| `SkillsLoad.LateBodyLosesReload` | Sources/ChadexApp/AppModel.swift:1003-1011 | a run with bodies out of order in which a caller returns with a pass begun before its call |
| `OverlaySync.CounterRepeats` | Sources/ChadexApp/AppModel.swift:723-723 | the wrapping counter repeats exactly after multiples of 2^64 |
| `OverlaySync.Model.SyncOverlayEvents` | Sources/ChadexApp/AppModel.swift:722-735 | bumps the generation and joins the running loop or starts one |
| `OverlaySync.Model.Continue` | Sources/ChadexApp/AppModel.swift:737-756 | sends again exactly when the generation moved and the helper and the app run; otherwise the loop ends |
| `OverlaySync.RunKeepsRequests` | Sources/ChadexApp/AppModel.swift:722-756 | in every run only the newest loop is unfinished and the log of requests ascends |
| `OverlaySync.OneRequestInFlight` | Sources/ChadexApp/AppModel.swift:714-722 | at most one request is in flight, that of the loop the model points at |
| `OverlaySync.RequestsFollowCalls` | Sources/ChadexApp/AppModel.swift:722-756 | between two requests there is a call, so requests never exceed calls, even when the counter wraps |
| `OverlaySync.CallersAreServed` | Sources/ChadexApp/AppModel.swift:722-756 | a caller that returns with helper and app running has had a request issued after its call |
| `OverlaySync.AnswerMissesCalls` | Sources/ChadexApp/AppModel.swift:752-754 | an answer ends the loop exactly when the calls since its request are a multiple of 2^64 |
| `OverlaySync.WrapLosesCall` | Sources/ChadexApp/AppModel.swift:723-754 | a run with 2^64 calls in which the last caller returns unserved |
| `RuntimeGates.Model.StartConnection` | Sources/ChadexApp/AppModel.swift:2335-2341 | starts exactly when nothing connects, disconnects or realigns |
| `RuntimeGates.Model.StartRealign` | Sources/ChadexApp/AppModel.swift:953-965 | starts exactly under all its guards and remembers the project |
| `RuntimeGates.Model.EndRealign` | Sources/ChadexApp/AppModel.swift:965-980 | releases the flag and keeps the chance of a runtime that was not ready |
| `RuntimeGates.Model.BeginSwitch` | Sources/ChadexApp/AppModel.swift:516-527 | switches exactly through a free gate to another known project, and otherwise leaves no trace |
| `RuntimeGates.Model.EndSwitch` | Sources/ChadexApp/AppModel.swift:560-586 | releases flag and gate together, with the selection adopted or not |
| `RuntimeGates.RunKeepsFlags` | Sources/ChadexApp/AppModel.swift:511-600 | in every run exactly one live operation stands behind each set flag |
| `RuntimeGates.OneOwner` | Sources/ChadexApp/AppModel.swift:2335-2388 | at most one operation connects, disconnects or realigns, and at most one switches |
| `RuntimeGates.SwitchExcludesRealign` | Sources/ChadexApp/AppModel.swift:511-600 | a switch never overlaps a realignment |
| `RuntimeGates.FlagsAreReleased` | Sources/ChadexApp/AppModel.swift:582-586 | when every operation has ended, no flag and no gate is held |
| `RuntimeGates.AttemptsAreNotRepeated` | Sources/ChadexApp/AppModel.swift:945-976 | a project is realigned again only after another one or after a runtime that was not ready |
| `RuntimeGates.GapAllowsOverlap` | Sources/ChadexApp/AppModel.swift:515-516 | a run with an overlap, were the returning wait to suspend |
| `IntervalUnion.Union` | scripts/phase15_attribution.py:37-44 | the number of covered points less the deficit of the reversed openers |
| `IntervalUnion.MeasureExactly` | scripts/phase15_attribution.py:37-44 | the deficit is zero exactly when no reversed interval follows the end of every interval before it |
| `IntervalUnion.OrderIsIrrelevant` | scripts/phase15_attribution.py:39-39 | permuted intervals give the same result |
| `IntervalUnion.ReversedIntervalCounts` | scripts/phase15_attribution.py:37-44 | a single reversed interval gives a negative result |
| `IntervalUnion.OutsideTools` | scripts/phase15_attribution.py:53-70 | the time outside tools is the uncovered part of the window less what is covered outside it; non-negative when the spans lie inside |
| `IntervalUnion.GapIsIdle` | scripts/phase15_attribution.py:57-58 | a listed pause holds no tool time exactly when no earlier span reaches beyond it |
| `IntervalUnion.GapHoldsToolTime` | scripts/phase15_attribution.py:57-58 | three spans, at any time, whose listed pause holds tool time |
| `VaultSync.ReadText` | scripts/sync_graphify_obsidian.py:655-660 | a text reads back as itself exactly when it holds no carriage return |
| `VaultSync.Vault.SyncOutputs` | scripts/sync_graphify_obsidian.py:648-670 | the reported lists are those of the store before, the stale one sorted; check and dry run leave the store alone |
| `VaultSync.Sorted` | scripts/sync_graphify_obsidian.py:651-651 | exactly the given paths, in ascending order part by part |
| `VaultSync.OutputsArrive` | scripts/sync_graphify_obsidian.py:653-663 | every output is in the synced store, rewritten only if it did not already read as its content |
| `VaultSync.OthersStay` | scripts/sync_graphify_obsidian.py:633-668 | a file that is no output is removed if managed and untouched otherwise |
| `VaultSync.NothingStale` | scripts/sync_graphify_obsidian.py:651-668 | after a sync nothing is stale |
| `VaultSync.OutputIsCurrent` | scripts/sync_graphify_obsidian.py:653-661 | after a sync an output is current exactly when its content holds no carriage return |
| `VaultSync.Converges` | scripts/sync_graphify_obsidian.py:648-670 | a second run reports nothing stale, and nothing changed exactly when no content holds a carriage return |
| `VaultSync.CarriageReturnRepeats` | scripts/sync_graphify_obsidian.py:655-661 | an output with a carriage return is reported again after a sync of any store |
| `VaultSync.SyncIsIdempotent` | scripts/sync_graphify_obsidian.py:648-670 | syncing twice leaves the same store as once |
| `GraphSelection.SeedDegrees` | scripts/sync_graphify_obsidian.py:312-318 | every production file of a node has an entry |
| `GraphSelection.CountEnd` | scripts/sync_graphify_obsidian.py:327-330 | one link end adds one to its production file and to the sum |
| `GraphSelection.CountDegrees` | scripts/sync_graphify_obsidian.py:312-330 | a file's degree is the number of link ends in it, and the degrees sum to the production link ends |
| `GraphSelection.Top` | scripts/sync_graphify_obsidian.py:359-366 | the first files in the ranking by degree and path: as many as asked or there are, all before the rest |
| `GraphSelection.TopIsUnique` | scripts/sync_graphify_obsidian.py:359-366 | there is only one such choice |
| `GraphSelection.Anchors` | scripts/sync_graphify_obsidian.py:346-361 | each component's exact files and two highest-ranked matches, all production files |
| `GraphSelection.Select` | scripts/sync_graphify_obsidian.py:346-372 | production files only, exactly as many as the bound or there are, cut down or filled up by rank |
| `GraphSelection.SelectionIsUnique` | scripts/sync_graphify_obsidian.py:346-372 | graph, components and bound determine the selection |
| `GraphSelection.CountNeighbours` | scripts/sync_graphify_obsidian.py:380-399 | two selected files are neighbours as often as links join them, symmetrically; ends without a file count for nothing |
| `GoalNotifier.Notifier.Poll` | Sources/ChadexApp/GoalNotifier.swift:47-70 | remembers the overview and posts the throttled diff; a failed poll changes and posts nothing |
| `GoalNotifier.Diff` | Sources/ChadexApp/GoalNotifier.swift:74-98 | the settled runs and new requests, in order |
| `GoalNotifier.FirstStateCounts` | Sources/ChadexApp/GoalNotifier.swift:80-80 | of several entries with one id the first gives the state |
| `GoalNotifier.ThrottledKeeps` | Sources/ChadexApp/GoalNotifier.swift:59-69 | every settled run is posted, and exactly one request if there is any, the first |
| `GoalNotifier.MemoryIsLastSeen` | Sources/ChadexApp/GoalNotifier.swift:47-58 | the memory is that of the last overview seen, however many polls failed since |
| `GoalNotifier.SettledExactly` | Sources/ChadexApp/GoalNotifier.swift:74-98 | after any history a settled run is posted exactly when the overview seen last showed it first in another state |
| `GoalNotifier.SettledInDistinctRuns` | Sources/ChadexApp/GoalNotifier.swift:74-98 | with distinct ids: exactly when it was there, in another state |
| `GoalNotifier.FirstOverviewIsSilent` | Sources/ChadexApp/GoalNotifier.swift:72-73 | the first overview posts nothing |
| `GoalNotifier.RepeatIsSilentExactly` | Sources/ChadexApp/GoalNotifier.swift:74-98 | a repeated overview posts nothing exactly when it does not contradict itself |
| `GoalNotifier.DistinctIsSilent` | Sources/ChadexApp/GoalNotifier.swift:74-98 | distinct ids never contradict |
| `GoalNotifier.DuplicateRepeats` | Sources/ChadexApp/GoalNotifier.swift:80-91 | a run listed twice is posted on every repetition |
| `InstallerSmoke.Smoke.TryInstall` | scripts/windows_installer_smoke.py:1465-1478 | the success flag is set exactly when the installer exited with zero, whatever fails later |
| `InstallerSmoke.Smoke.TryUninstall` | scripts/windows_installer_smoke.py:1547-1555 | attempted whatever happens, launched at most once, verified exactly when seen to be gone |
| `InstallerSmoke.Smoke.TryDefault` | scripts/windows_installer_smoke.py:1565-1590 | its success flag is set exactly when its installer exited with zero, and its uninstaller is tried only then |
| `InstallerSmoke.Smoke.MainPart` | scripts/windows_installer_smoke.py:1420-1597 | wherever it stops, flags and machine agree, no stage runs, and the root is untouched |
| `InstallerSmoke.Smoke.CleanupGroups` | scripts/windows_installer_smoke.py:1300-1330 | the reported number is never below the number of processes alive, and it succeeds only when none is |
| `InstallerSmoke.Smoke.CleanupGroup` | scripts/windows_installer_smoke.py:1310-1326 | one group loses members by ending or by force, never gains any, and is never counted below what is alive |
| `InstallerSmoke.Smoke.LaunchAndProbe` | scripts/windows_installer_smoke.py:1163-1177 | a launch stage cleans up its own groups whatever the probe says, and may force and still pass |
| `InstallerSmoke.Smoke.CleanupDefaultInstall` | scripts/windows_installer_smoke.py:1014-1042 | launches the default uninstaller only if that was never tried; success means verified gone |
| `InstallerSmoke.Smoke.CleanupRoot` | scripts/windows_installer_smoke.py:1631-1649 | with no owned process alive, removes the temporary root at most once and only when safe; success leaves no root behind |
| `InstallerSmoke.Smoke.Finish` | scripts/windows_installer_smoke.py:1655-1668 | passed exactly without failure and force, exactly when every stage passed, exactly when none failed |
| `InstallerSmoke.Smoke.RunSmoke` | scripts/windows_installer_smoke.py:1379-1669 | for all outcomes of all external calls: each uninstaller launched at most once, the root removed only when safe and while no process of any group is alive, passed exactly when every stage passed, and then nothing was forced, nothing is alive and both installations are verified gone |
| `InstallerSmoke.FailedInstallRemovesRoot` | scripts/windows_installer_smoke.py:1646-1647 | a whole smoke whose first installer fails and leaves no directory: the root is removed although nothing was verified to be gone |

## Left out

- Subprocesses, PowerShell, ctypes, the registry, HTTP and the browser driver: their answers are parameters, actions or an oracle.
- Wall-clock deadlines, sleeps and polling intervals: waiting ends at any point.
- PairedDeltas.Compare: latencies and their differences are real numbers, not floating-point ones; the summary statistics are not modelled.
- Campaign.RunKeepsInv: the nested loops of the campaign are steps of a state machine rather than one method, because a crash may cut them anywhere; JSON encoding, profiles and prompt texts are opaque, and preflight and lock files are one step.
- ProcessTree.Group.LaunchOwned: the case-insensitive comparison of process names is an answer given to the model.
- VaultSync.Vault.SyncOutputs: undecodable files, failing writes and case-insensitive file systems are not modelled.
- GraphSelection.Select: `is_production_file` and component matching are parameters, of which only that the empty path is no production file is used; the bound is not negative, as `main` checks.
- GraphSelection.CountNeighbours: component relations and confidence counts would only repeat the same counting.
- SkillsLoad.NoLostReload: what a pass stores in the catalog is not modelled, only when passes begin and end.
- RuntimeGates.SwitchExcludesRealign: a connection may overlap a switch, as in the source; views that disable buttons are not modelled.
- InstallerSmoke.Smoke.RunSmoke: the contents of resource, data and registry checks are answers of the oracle; interruptions from the keyboard, which no handler catches, are not modelled.
- InstallerSmoke.Smoke.CleanupGroups: group members are counted, not named, and a wait that works sees all that are alive; their identities, and when a wait misses one, are the subject of `Ownership` and `Remnants`.
- Markdown and canvas rendering, digests, diagnostics, localisation and views.
- The Rust facade files, benchmark scripts and A/B reports.
