# Open Career: the verified core

Open Career is a local job-application system. It polls public job boards, decides which postings
have closed, gates the open ones against the user's policies, works the survivors through a queue,
and generates CV packages whose every statement must be traceable to a confirmed career fact. Its
hard logic sits in a few deterministic domain functions and in storage "seams" that behave like
small concurrent protocols. This project models those and proves what they are for.

`dafny verify dfyconfig.toml` checks all of it.

## How it is built

Each module carries the name of what it models. Code of the system that changes something step by
step is a class or a method with loops here; every such method is proved against a specification
function, and the theorems are about those functions. The `...Runs` modules and `Adjudication` put
the operations together into a state machine and prove what holds in every reachable state. `Cohorts`,
`Outcomes`, `Generations`, `Verdicts`, `DateLabels`, `GroundingRules`, `GateOutcomes` and `QueueOutcomes` say what
operations and tables come to without using them: in terms of rows, texts, kinds and times alone.

| modules | what they are about |
|---|---|
| `Closure`, `Opportunities`, `ClosureRuns`, `Cohorts` | when a posting counts as closed: absence streaks, the mass-closure guard, suspect cohorts |
| `Packages`, `PackageStore`, `Adjudication`, `Outcomes` | version reservation, leases, approval, Gauntlet reservations and runs |
| `Pipeline`, `PipelineRuns`, `Generations`, `Fences`, `Orphans` | the generation worker, its heartbeat, recovery, all of them interleaved, and what becomes of orphaned objects |
| `Judges`, `Gauntlet`, `Verdicts`, `GauntletRuns` | from a judge's raw output to the verdict of a run, from there to an approval, and heartbeats that keep a reservation |
| `FileSystem`, `Portability`, `ArchiveImport` | restoring an archive with an ordered undo log |
| `Dates`, `DateLabels`, `CvModel`, `Grounding`, `GroundingRules`, `Generation`, `Lexicons` | date labels, the grounding verifier and the verbatim fallback |
| `Promotion`, `Selection`, `PromotionQueue`, `QueueRuns`, `QueueOutcomes`, `QueueFairness` | fair selection, the discovery lease, fenced claims, bounded retry |
| `Gate`, `GateRules`, `GateCache`, `GateRuns`, `GateOutcomes` | the preference gate and its epoch-invalidated verdicts |
| `HttpFetch`, `Lever` | the polite fetch loop and paginated polling |
| `Onboarding`, `MarkLines`, `OnboardingReview` | marking the facts read off a CV, in two phases |

Every SQL transaction is one atomic step on in-memory tables, and the database clock is a natural
number that never runs backwards. Digests, text functions, model replies, network responses and
operating-system failures are parameters: a theorem holds for all of them.

## What turned out not to hold as promised

* **The guard is transparent for what a posting is, not for what is written down about its closing.**
  Availability, streak, last absence, reopen count, closing time and last sighting never depend on
  the guard (`ClosureRuns.GuardTransparent`). The recorded confirming snapshots do. Over whole runs, two
  histories of guard settings with the same observations record different ids for a posting if and only if,
  at its last closure, it was missing first from an ordinary poll and then from an authoritative one, and
  only one of the two settings in force at the first of these let the guard trigger (`ClosureRuns.GuardHistoriesRecord`;
  `ClosureRuns.GuardSettingRecorded` is such a pair). None of the shipped adapters sets the version token
  that makes a snapshot authoritative (`adapters/sources/base.py:51`), so until one does the recorded ids
  agree as well (`ClosureRuns.GuardTransparentThroughout`).
* **A restore that reports success may lack a bundled file.** Aliased destinations are refused, but
  nested ones are not: installing `a/b` and then `a` drops the first
  (`ArchiveImport.NestedIsBuried`). A destination that is the database file itself ends up holding the
  database. `ArchiveImport.RestoredExactly` gives all three outcomes. A failed restore always leaves
  everything as it was.
* **The verbatim fallback is not grounded for every context.** Given distinct experience ids it verifies
  if and only if three things hold of the context: some experience-backed fact is reachable through an
  experience of the context (or no fact is backed), every covered capability shows the name it is known
  by, and the names in the quoted facts are known to the corpus (`Generation.VerbatimGrounded`).
  `Generation.StrandedFails` is a context that misses the first. No shipped path builds such a context:
  `build_context` takes every experience that a reached fact hangs off (`apps/cli/package_cmd.py:63-109`),
  foreign keys are enforced (`adapters/storage/sqlite_conn.py:43`) and nothing deletes an experience. The
  third always holds where case folding commutes with tokenizing (`Generation.FoldingKeepsNames`), and it
  does not commute for every letter: the capital I with a dot, as in "ALİ", folds to an i and a combining
  dot, which no token keeps. A fact with a word that starts with an ASCII capital and has that letter in it
  is rejected when quoted word for word (`Lexicons.GrowingRejects`); a word that starts with the letter is
  not, because no token starts there.
* **Half-cap aging starves at a cap of one.** For a cap of at least two a row with k older rows is
  taken within k / (cap / 2) + 1 rounds (`Promotion.NoStarvation`); at a cap of one a row can be left
  out for any number of rounds (`Promotion.OneStarves`). On the queue's own rows, where a failed row comes
  back under its old number, the rounds are bounded by the work left ahead, at most twelve pieces a row
  (`QueueFairness.EveryRowSelected`).
* **"Re-checks the epoch is current" means the epoch read when the run started.** A claim may be
  granted on a row of an epoch already passed (`QueueRuns.StaleClaimGranted`). A row that a run enqueues, or
  merges into, is current if and only if nothing has bumped the epoch since that run started
  (`QueueRuns.RowCurrent`, and `QueueRuns.OwnRowCurrent` for the run's own claims). All a run may be granted
  is current if and only if no claimable row lies between the two epochs (`QueueRuns.GrantsCurrent`). From a
  sweep at the present epoch on, that stays so until a step bumps the epoch over unfinished rows, adds a row
  of a passed epoch, or retries one; each of these three does put a row behind (`QueueRuns.FallsBehind`,
  `QueueRuns.CurrentSinceSweep`).
* **Two edits of the strategy side by side can drop each other's allocation**, because the current version
  is read before the transaction that writes the next one. Edits that each allocate a family of their own
  all survive if and only if no version was minted between any edit's reading and its writing
  (`GateCache.CarriedForward`; `GateCache.SideBySide` is a lost one).
* **Not every object that recovery lists as an orphan is inert**, although the command prints them as such
  (`apps/cli/package_cmd.py:658-667`). In every reachable state, a listed object comes to be named by some
  row, in some continuation, if and only if its version is still generating, the lease is not over, and the
  version's worker is between storing that very object and recording it (`Orphans.OrphanFate`). From an empty
  instance, four steps lead to an object that is listed and then named (`Orphans.ListedThenNamed`), and one
  step more, an interruption of the worker, makes it inert although its version is still generating
  (`Orphans.ListedAndInert`). The orphans of a settled version are all inert
  (`PipelineRuns.SettledOrphanIsInert`).
* **Replaying stored Lever pages does not deduplicate.** The replayed list is the polled one if and only
  if no id repeats (`Lever.ReplayAgrees`); a posting listed twice comes back twice (`Lever.ReplayRepeats`).
* **A family row added through its repository does not bump the dependency epoch**
  (`adapters/storage/sqlite_entities.py:172-182`). A verdict that read as current then stays right under
  every gate if and only if the set of active target seniorities is unchanged (`GateRuns.UnbumpedExactly`),
  that is, if the row is inactive or targets a seniority some active family has (`GateRuns.HarmlessRow`);
  `GateRuns.BumpIsNeeded` is a run where it is not. No application, worker or adapter of the repository
  calls that method: families are added through the strategy service, which bumps.
* A judge that declares FAIL but can only back it with advisory findings yields the judge outcome PASS;
  the run is still never PASS (`Gauntlet.DeclaredFailNeverPasses`).

## Model

| member | source | states |
|---|---|---|
| `Closure.PlanSnapshot` | packages/domain/closure.py:68-171 | the plan files each row exactly where the closure rules put it: pending cohort members first, then presence, guard and streaks |
| `Closure.ResolveMembers` | packages/domain/closure.py:96-106 | live members that are still absent close, members that are present leave the cohort, and nothing else does |
| `Closure.SortByPresence` | packages/domain/closure.py:108-119 | rows outside the cohort are split by presence and availability without loss or repetition |
| `Closure.CountStreaks` | packages/domain/closure.py:144-158 | every ordinary absence either closes or lengthens the streak, never both, and no other row is touched |
| `Closure.CountOne` | packages/domain/closure.py:149-158 | one absence closes on authority or at the second in a row, with its confirming snapshots, and otherwise counts |
| `Closure.GuardAndStreaks` | packages/domain/closure.py:121-158 | with or without the guard every absent row gets the same streak or closure; the guard only adds the disappearance set as a cohort |
| `Closure.StreaksFit` | packages/domain/closure.py:134-158 | deferring the fresh absences to a cohort leaves every streak as the ordinary rule would |
| `Closure.GuardCounts` | packages/domain/closure.py:126-133 | the list lengths the guard compares are the sizes of the disappearance set and of the set of live rows |
| `Opportunities.OpportunityRepository.ListForSource` | adapters/storage/sqlite_opportunities.py:68-72 | every row of the source is listed once, under its own id |
| `Opportunities.OpportunityRepository.ApplyClosurePlan` | adapters/storage/sqlite_opportunities.py:98-157 | for an arbitrary plan: the new state of every row and cohort, the updates taken in the order they are issued |
| `Opportunities.OpportunityRepository.ApplyStreaks` | adapters/storage/sqlite_opportunities.py:104-121 | presence, reopening, absences and closures of a plan, row by row |
| `Opportunities.OpportunityRepository.Touch` | adapters/storage/sqlite_opportunities.py:104-108 | exactly the listed rows lose their streak and are seen now |
| `Opportunities.OpportunityRepository.Reopen` | adapters/storage/sqlite_opportunities.py:109-114 | each listing reopens the row once more; what is recorded of its last closure stays |
| `Opportunities.OpportunityRepository.Miss` | adapters/storage/sqlite_opportunities.py:115-119 | the listed rows get their streak, and keep the snapshot their absence began with |
| `Opportunities.OpportunityRepository.Close` | adapters/storage/sqlite_opportunities.py:159-172 | exactly the listed rows close, with their confirming snapshots |
| `Opportunities.OpportunityRepository.ConfirmCohort` | adapters/storage/sqlite_opportunities.py:126-133 | the confirmed members close with the pair made of the cohort's trigger and this snapshot |
| `Opportunities.OpportunityRepository.CommitPoll` | workers/discovery/run.py:743-764 | the snapshot is counted and each unseen posting is added open, no other row changed |
| `Opportunities.OpportunityRepository.ApplyPoll` | workers/discovery/run.py:739-790 | one poll moves the source from any state to the state the transition function gives, guard and cohort included |
| `Opportunities.FirstUnresolved` | adapters/storage/sqlite_opportunities.py:174-185 | the earliest cohort not resolved yet, or the fact that there is none |
| `Opportunities.PlanRow` | packages/domain/closure.py:96-158 | applying a fitting plan does to a row what the transition function says, for every row |
| `Opportunities.PlanCohorts` | packages/domain/closure.py:96-142 | applying a fitting plan resolves the pending cohort and opens a new one exactly when the guard triggers |
| `Opportunities.AdvanceByPlan` | workers/discovery/run.py:781-790 | planning and applying compose to one step of the machine, for every plan that fits |
| `ClosureRuns.InvStep` | packages/domain/closure.py:96-158 | the invariant (streaks of live rows are 0 or 1, streak 1 dates from the previous snapshot, cohort members are mid-streak, one cohort at most is open) survives every poll |
| `ClosureRuns.PendingMember` | packages/domain/closure.py:96-106 | a pending member is live, at streak one since the snapshot that triggered its cohort |
| `ClosureRuns.RowRefines` | packages/domain/closure.py:96-158 | one step of the machine is one step of the plain rule but for the confirming ids, which differ exactly when an authoritative snapshot confirms a pending member |
| `ClosureRuns.GuardTransparent` | packages/domain/closure.py:121-158 | after any sequence of polls the machine has the rows of the plain two-absences rule, which knows neither guard nor cohort |
| `ClosureRuns.GuardTransparentThroughout` | packages/domain/closure.py:121-158 | without authoritative snapshots the rows are equal, confirming ids included |
| `ClosureRuns.GuardSettingsImmaterial` | packages/domain/closure.py:74-75 | two histories with the same observations and any guard settings leave each posting alike |
| `ClosureRuns.GuardSettingRecorded` | packages/domain/closure.py:128-142 | a three-poll run in which the guard minimum decides which confirming ids are recorded |
| `ClosureRuns.HistoryDecides` | adapters/storage/sqlite_opportunities.py:98-172 | every field of every row, confirming ids and closing time of the last closure included, is a function of the sequence of polls alone |
| `ClosureRuns.ClosureDecided` | adapters/storage/sqlite_opportunities.py:126-133 | over any run the ids and the time recorded of the last closure, which survive a reopening: the first absence if authoritative, else the first two, or the second alone if it is authoritative and the guard did not trigger at the first |
| `ClosureRuns.CountsFollow` | packages/domain/closure.py:121-133 | what the guard counts follows from the polls: what vanished since the poll before, and what no polls have closed |
| `ClosureRuns.PendingIs` | packages/domain/closure.py:96-142 | after any run the pending members are exactly what vanished in the last poll, if that triggered the guard |
| `ClosureRuns.GuardHistoriesRecord` | packages/domain/closure.py:74-75 | two guard histories over the same observations leave a posting different exactly when its last closure is in dispute: lost in an ordinary poll, then in an authoritative one, the first triggering the guard in one history alone |
| `ClosureRuns.ConfirmingPair` | packages/domain/closure.py:144-158 | a closed posting's confirming pair is two consecutive snapshots that both lack it, right after one that had it |
| `ClosureRuns.NeverReopened` | adapters/storage/sqlite_opportunities.py:109-114 | a posting never seen has no reopening |
| `Cohorts.CohortsAccounted` | adapters/storage/sqlite_opportunities.py:122-157 | over any run, a cohort is pending exactly until the poll after its own, and then records Reappeared exactly for the members that poll has, and ConfirmedClosed exactly for the others |
| `Cohorts.SuspiciousOpens` | packages/domain/closure.py:126-142 | every poll that lost enough opened a cohort, and that cohort is there for good |
| `Packages.LocatorAttributes` | packages/domain/packages.py:89-95 | a locator determines the package, version, lease generation and name that made it |
| `Packages.DecimalInjective` | packages/domain/packages.py:89-95 | different numbers are written differently |
| `PackageStore.NextNumber` | adapters/storage/sqlite_packages.py:117-120 | one above every number of the package in use, and no higher than needed |
| `PackageStore.LastAttempt` | adapters/storage/sqlite_packages.py:351-354 | no run of this version and suite has a higher attempt |
| `PackageStore.PackageRepository.InsertPackage` | adapters/storage/sqlite_packages.py:75-85 | a package is created once and never reset |
| `PackageStore.PackageRepository.NextVersionNumber` | adapters/storage/sqlite_packages.py:117-120 | the loop finds the next number |
| `PackageStore.Effective` | adapters/storage/sqlite_packages.py:389-395 | a complete run of this version and suite whenever there is one |
| `PackageStore.PackageRepository.ReserveVersion` | adapters/storage/sqlite_packages.py:110-134 | a fresh id, the next number and a first-generation lease, or nothing; it fails only without the package or when all minted ids clash |
| `PackageStore.PackageRepository.RenewLease` | adapters/storage/sqlite_packages.py:136-145 | extends the lease of its live holder under its own generation and touches nothing otherwise (what that achieves: `Outcomes.LeaseLasts`) |
| `PackageStore.PackageRepository.RecordProgress` | adapters/storage/sqlite_packages.py:158-174 | stages bundle fields for the live holder only, and says which refusal it was |
| `PackageStore.PackageRepository.FinalizeVerified` | adapters/storage/sqlite_packages.py:176-194 | verifies with a complete non-empty bundle under a live lease, or changes nothing |
| `PackageStore.PackageRepository.MarkFailed` | adapters/storage/sqlite_packages.py:196-208 | fails with a report under a live lease, or changes nothing |
| `PackageStore.PackageRepository.ClaimExpiredAndFail` | adapters/storage/sqlite_packages.py:210-220 | takes a version over exactly when its lease is over, and fences the old worker out by a new generation |
| `PackageStore.PackageRepository.ApproveVersion` | adapters/storage/sqlite_packages.py:222-275 | approves a verified version on an effective run of the current suite, which may be overridden with a reason; appends the decision and moves the pointer |
| `PackageStore.PackageRepository.ClaimReservation` | adapters/storage/sqlite_packages.py:279-309 | granted when there is no complete run and no live reservation, and refused as an error when the suite is already complete |
| `PackageStore.PackageRepository.RenewReservation` | adapters/storage/sqlite_packages.py:311-319 | only the live owner extends a reservation |
| `PackageStore.PackageRepository.ReleaseReservation` | adapters/storage/sqlite_packages.py:321-328 | only the owner's reservation goes |
| `PackageStore.PackageRepository.InsertGauntletRun` | adapters/storage/sqlite_packages.py:330-376 | consumes the owner's live reservation and appends the run, both or neither |
| `PackageStore.PackageRepository.FindClash` | adapters/storage/sqlite_packages.py:371-375 | finds a row that violates one of the run table's uniqueness constraints if and only if there is one |
| `Adjudication.Always` | adapters/storage/sqlite_packages.py:222-395 | in every reachable state a reservation excludes a complete run, attempts count from one, decisions match approvals and pointers point at approved versions |
| `Adjudication.RunsStep` | adapters/storage/sqlite_packages.py:279-376 | every transaction keeps runs and reservations consistent |
| `Adjudication.ApprovalStep` | adapters/storage/sqlite_packages.py:222-275 | an approval keeps decisions, approved rows and pointers consistent |
| `Adjudication.UniquenessUnreachable` | adapters/storage/sqlite_packages.py:338-375 | while the reservation stands, appending can only clash on a reused run id: the attempt label and the one-complete-run constraint never object |
| `Adjudication.OneCompleteRun` | adapters/storage/sqlite_packages.py:330-376 | at most one complete run per version and suite ever exists, and it is the last attempt |
| `Adjudication.RunAppended` | adapters/storage/sqlite_packages.py:351-370 | appending under a reservation numbers the attempt right and puts nothing behind a complete run |
| `Adjudication.DecisionAdded` | adapters/storage/sqlite_packages.py:222-275 | every approved version keeps exactly one decision |
| `Adjudication.ApprovedMeansJudged` | adapters/storage/sqlite_packages.py:222-275 | an approved version has a decision citing a complete run of it, which passed unless overridden with a stated reason |
| `Outcomes.LeaseGranted` | adapters/storage/sqlite_packages.py:110-130 | a version reserved at some time is held by its owner for exactly the seconds asked for |
| `Outcomes.LeaseLasts` | adapters/storage/sqlite_packages.py:136-145 | over any events of any workers, a generating version whose owner renews before each deadline stays held by that owner and generation until its last renewal's time plus its seconds |
| `Outcomes.NoTakeover` | adapters/storage/sqlite_packages.py:210-220 | and no claim on it is granted before that |
| `Outcomes.LeaseDecides` | adapters/storage/sqlite_packages.py:136-220 | the owner is served exactly before that time, and a claim granted exactly from it on |
| `Outcomes.RefusedAsLost` | adapters/storage/sqlite_packages.py:411-420 | a fenced write is refused as a lost lease exactly while the version is still generating |
| `Outcomes.FinalStays` | adapters/storage/sqlite_packages.py:158-277 | a failed or approved row never changes again, over any events |
| `Outcomes.SettledStep` | adapters/storage/sqlite_packages.py:222-275 | the one change to a row that is no longer generating is the approval of a verified one |
| `Outcomes.FailureStays` | adapters/storage/sqlite_packages.py:196-220 | a failure filed by the owner or by recovery is there for good, under its own report |
| `Outcomes.BundleStays` | adapters/storage/sqlite_packages.py:176-194 | a verified bundle is there for good, field by field |
| `Outcomes.StagingAdds` | adapters/storage/sqlite_packages.py:158-174 | what is staged is what was given, on top of what was there; nothing else of the row changes |
| `Outcomes.StageableMeans` | adapters/storage/sqlite_packages.py:158-174 | any part of the audit bundle may be staged, but no failure report and no unknown field |
| `Outcomes.BundleMeans` | adapters/storage/sqlite_packages.py:176-194 | a bundle is all seven fields, none of them empty |
| `Outcomes.SuiteIsFree` | adapters/storage/sqlite_packages.py:321-376 | a reservation given up, or used by a run that did not complete, leaves the suite open to anyone |
| `Outcomes.SuiteIsClosed` | adapters/storage/sqlite_packages.py:279-376 | a complete run closes the suite for good: no claim on it and no further run is ever granted |
| `Outcomes.ApprovalGate` | adapters/storage/sqlite_packages.py:222-275 | after any run a version that is verified can be approved exactly if it has a complete run under the current suite whose verdict is PASS, without an override, or FAIL or ATTENTION, overridden for a stated reason; and the decision cites that run |
| `Outcomes.PointsAlways` | adapters/storage/sqlite_packages.py:269-275 | after any run each package points at the version its latest decision approved, or at none before the first |
| `Outcomes.ApprovalPoints` | adapters/storage/sqlite_packages.py:222-275 | a granted approval moves the pointer of its own package to its version, and no other pointer |
| `Pipeline.ObjectStorage.WriteNew` | adapters/storage/local.py:34-50 | an object is written once and never overwritten |
| `Pipeline.GenerationWorker.Guard` | packages/domain/pipeline.py:179-182 | no object write without a live lease at that moment |
| `Pipeline.GenerationWorker.Write` | packages/domain/pipeline.py:192-196 | writes the object at the locator of the worker's own lease generation, or stops without overwriting |
| `Pipeline.GenerationWorker.Stage` | packages/domain/pipeline.py:197-199 | stages fields under the lease, or gives up on losing it |
| `Pipeline.GenerationWorker.StopAndFail` | packages/domain/pipeline.py:129-137 | a raised stage files its failure if the lease still allows it, and is over either way |
| `Pipeline.GenerationWorker.StopAndReject` | packages/domain/pipeline.py:225-235 | a rejected draft fails the version under the lease, or is reported as a lost lease |
| `Pipeline.GenerationWorker.Advance` | packages/domain/pipeline.py:187-280 | the next atomic stage of the worker: tables, objects and worker afterwards, whatever the stage meets |
| `Pipeline.GenerationWorker.Beat` | packages/domain/pipeline.py:69-79 | a renewal that touches no row marks the worker lost for good |
| `Pipeline.GenerationWorker.StopAndFinalize` | packages/domain/pipeline.py:265-280 | the heartbeat stops first, then one fenced transition carries the whole bundle |
| `Pipeline.RecoverExpired` | packages/domain/pipeline.py:283-305 | claims exactly the listed generating versions whose lease is over, and lists exactly the stored objects of any generation that no row names |
| `Pipeline.Unreferenced` | packages/domain/pipeline.py:297-304 | every orphan of a version, and nothing else |
| `Pipeline.ListOrphans` | packages/domain/pipeline.py:297-305 | the orphans of all listed versions |
| `PipelineRuns.CommitMoves` | packages/domain/packages.py:19-24 | every transaction, whoever issues it, moves a status along the transition table or not at all, and freezes a settled bundle |
| `PipelineRuns.NextMoves` | packages/domain/packages.py:19-35 | the same for every step of workers, heartbeats, recovery, approval and the clock |
| `PipelineRuns.Settled` | adapters/storage/sqlite_packages.py:158-275 | over any run, a version that has left generation never changes a bundle field again |
| `PipelineRuns.AlwaysBundled` | packages/domain/pipeline.py:187-280 | in every reachable state each version row and each worker are consistent with what storage holds |
| `PipelineRuns.WorkKeeps` | packages/domain/pipeline.py:187-280 | every stage keeps its row and worker consistent and touches no other version |
| `PipelineRuns.NextBundled` | packages/domain/pipeline.py:108-305 | so does every step of anyone else |
| `PipelineRuns.VerifiedIsAudited` | packages/domain/pipeline.py:187-280 | a verified or approved version has its whole bundle, both reports passed, and its hashes are those of the objects at its locators |
| `PipelineRuns.WriteOnce` | adapters/storage/local.py:34-50 | over any run no stored object changes or disappears |
| `PipelineRuns.AlwaysNumbered` | adapters/storage/sqlite_packages.py:110-134 | version numbers of a package are distinct and positive in every reachable state |
| `PipelineRuns.SettledOrphanIsInert` | packages/domain/pipeline.py:283-305 | an orphan listed for a settled version will never be named by any row |
| `Generations.Undisturbed` | packages/domain/pipeline.py:187-280 | a generation nobody disturbs, its thirteen stages at any times within its lease, ends Failed after the draft, after the ATS check or for an empty text, under the report for that, and otherwise Verified, with exactly what it made recorded and stored |
| `Generations.StartIsFresh` | packages/domain/pipeline.py:108-122 | a granted reservation leaves a worker at its start, holding the lease for sixty seconds |
| `Fences.LostAtStage` | packages/domain/pipeline.py:108-167 | without the lease a stage stages nothing; the worker gives up if the version is still under way, and files a failure if it is not |
| `Fences.LostAtEnd` | packages/domain/pipeline.py:245-280 | nor does it file a bundle or a rejection, or go on to write an object |
| `Fences.Disturbed` | packages/domain/pipeline.py:108-167 | a worker that finds its lease gone is through two stages later, tables and objects as they were |
| `Fences.BrokenStillFiles` | packages/domain/pipeline.py:141-160 | a worker whose heartbeat broke still files its failure if the lease is its own |
| `Fences.WriteTaken` | packages/domain/pipeline.py:179-200 | a write that would overwrite ends in a filed failure, and what is stored stays |
| `Fences.BeatRenews` | packages/domain/pipeline.py:66-80 | a beat under the lease gives it sixty seconds more and does nothing else |
| `Fences.BeatTells` | packages/domain/pipeline.py:66-80 | one without it tells the worker and does nothing else |
| `Fences.ToldForGood` | packages/domain/pipeline.py:41-85 | over any run, a worker that has been told, and is not in the middle of a write, is told for good and writes no object any more |
| `Fences.RecoveredMeans` | adapters/storage/sqlite_packages.py:210-220 | a row claimed by recovery is failed under the report, its bundle kept, under a generation the old worker does not have |
| `Orphans.OrphanFate` | packages/domain/pipeline.py:283-305 | in every reachable state a listed orphan comes to be named by some row if and only if its version is generating under a lease not over and its worker has stored that object and not yet recorded it |
| `Orphans.AlwaysAttended` | packages/domain/pipeline.py:187-280 | in every reachable state a worker owns its row, and the row names each object the worker is done with |
| `Orphans.NextBlocked` | packages/domain/pipeline.py:187-280 | an object stored and not recorded, with no worker about to record it under a live lease, stays so whatever step comes next |
| `Orphans.BlockedIsInert` | packages/domain/pipeline.py:294-304 | over every continuation no row of any version names such an object |
| `Orphans.PendingIsNamed` | packages/domain/pipeline.py:187-280 | a worker that has stored an object, under a lease not over, names it in its row within its next two stages, if no other step comes between |
| `Orphans.NamesItsOwn` | packages/domain/packages.py:89-95 | a row names objects of its own package and number only |
| `Orphans.ListedThenNamed` | packages/domain/pipeline.py:294-304 | a run from the empty instance in which a listed orphan comes to be named |
| `Orphans.ListedAndInert` | packages/domain/pipeline.py:294-304 | one step more, and the orphan is inert with its version still generating |
| `Judges.ValidateFindings` | packages/domain/gauntlet_judges.py:326-349 | each finding is kept or rejected on its own evidence, in order, none lost |
| `Judges.ValidAreGrounded` | packages/domain/gauntlet_judges.py:280-323 | every kept finding quotes its element's text, and cites only facts of that element |
| `Judges.RunJudge` | packages/domain/gauntlet_judges.py:354-409 | at most three attempts, the first output that meets the schema decides, an adapter failure ends it |
| `Judges.OutcomeMeans` | packages/domain/gauntlet_judges.py:212-261 | what each outcome says about the accepted output: a fail means a blocking finding the evidence bears out, a clean pass means declared pass without findings |
| `Gauntlet.ReduceThree` | packages/domain/gauntlet.py:132-162 | verdict and completeness of three results, each as an if-and-only-if |
| `Gauntlet.PassMeans` | packages/domain/gauntlet.py:366-483 | a run is PASS exactly when stage zero is clean and all three judges ran and accuse nothing |
| `Gauntlet.FailMeans` | packages/domain/gauntlet.py:366-483 | a run is FAIL, or incomplete, exactly on these findings and silences |
| `Gauntlet.DeclaredFailNeverPasses` | packages/domain/gauntlet_judges.py:259-260 | through parsing, validation, mapping and reduction, a declared FAIL never becomes a PASS run |
| `Verdicts.ParsesExactly` | packages/domain/gauntlet_judges.py:212-261 | the parser accepts exactly the well-formed outputs, stated on the decoded JSON itself, and reads off them the verdict and findings they state |
| `Verdicts.AcceptedIs` | packages/domain/gauntlet_judges.py:354-409 | the output that decides is the first well-formed one of at most three, with no failure before it |
| `Verdicts.KeptExactly` | packages/domain/gauntlet_judges.py:280-323 | a finding is kept exactly when its JSON quotes its element and cites what its judge must, with the severity it states |
| `Verdicts.PassSaid` | packages/domain/gauntlet.py:366-483 | a run is PASS exactly when stage zero passed everything and each judge's first well-formed output has the verdict "PASS" and no findings |
| `Verdicts.FailSaid` | packages/domain/gauntlet.py:366-483 | it is FAIL exactly when stage zero failed or a deciding output has a "blocking" finding the evidence bears out, and INCOMPLETE exactly when neither is so and some judge was silent |
| `Verdicts.FailNeverPasses` | packages/domain/gauntlet_judges.py:40-48 | a deciding output with the verdict "FAIL" keeps the run from being PASS, whatever its findings are worth |
| `Verdicts.NobodyAsked` | packages/domain/gauntlet.py:366-395 | after a failed stage zero no judge is asked |
| `Verdicts.ApprovalSaid` | adapters/storage/sqlite_packages.py:222-275 | over any run of the store, an approval is an override exactly when the attempt behind its run was not spoken for by stage zero and all three judges |
| `Gauntlet.Adjudicate` | packages/domain/gauntlet.py:366-548 | what is reported is the report of the attempt; it is discarded only if the reservation was lost |
| `Gauntlet.AppendRun` | packages/domain/gauntlet.py:524-548 | the run is recorded exactly when the fenced append is granted; otherwise nothing but the reservation can have gone |
| `Gauntlet.RunClaimed` | packages/domain/gauntlet.py:366-548 | one fenced append with the reduced verdict, one release, or nothing; an undisturbed attempt whose append is granted is always recorded |
| `Gauntlet.ClaimLeadsToRun` | packages/domain/gauntlet.py:283-315 | while the first reservation lasts, nothing but a used run id keeps an undisturbed attempt from being recorded |
| `Gauntlet.RunAttempt` | packages/domain/gauntlet.py:283-315 | nothing happens for an unverified version or a suite that is already complete; otherwise at most one run is appended, and an undisturbed attempt on a claimable suite always is within the 60 seconds of its first reservation (longer ones renew: see `GauntletRuns.RenewedLeadsToRun`) |
| `GauntletRuns.RunsAreLogged` | packages/domain/gauntlet.py:366-548 | in every interleaving, each recorded run has an attempt of its own, logged under its id when it was appended, and carries the verdict and completeness that attempt reduces to |
| `GauntletRuns.PassIsCleared` | packages/domain/gauntlet.py:395-483 | a recorded run is PASS exactly when its own attempt had a clean stage zero and was cleared by all three judges, none of them skipped |
| `GauntletRuns.ApprovedMeansCleared` | adapters/storage/sqlite_packages.py:222-275 | end to end: every approved version has a decision, and each decision rests on the very attempt behind the run it cites: cleared throughout, or overridden with a reason when it was not |
| `GauntletRuns.ReservationStep` | adapters/storage/sqlite_packages.py:279-376 | while a reservation lasts nobody takes it, and only its owner's renewal moves its end |
| `GauntletRuns.RenewedInTime` | packages/domain/gauntlet.py:216-233 | over any events of any workers, a reservation renewed before each deadline stays its owner's |
| `GauntletRuns.ReservationDecides` | adapters/storage/sqlite_packages.py:279-376 | at its very end owner and claimants change places: before it the owner can renew and release and a claim is refused, from then on a claim is granted and the owner can do nothing under it |
| `GauntletRuns.RenewedLeadsToRun` | packages/domain/gauntlet.py:283-315 | however long the attempt takes, if it renews in time its append is refused if and only if the run id was used before |
| `FileSystem.Rename` | adapters/storage/portability.py:360-363 | the moved subtree is found at the destination, nothing remains at the source, all else is as it was |
| `FileSystem.Disk.Replace` | adapters/storage/portability.py:360-363 | moves when it can and otherwise leaves the disk alone |
| `FileSystem.Disk.Unlink` | adapters/storage/portability.py:366-366 | the file is gone, if it was there |
| `FileSystem.Disk.Write` | adapters/storage/portability.py:338-338 | the file holds the bytes |
| `FileSystem.Disk.RemoveTree` | adapters/storage/portability.py:372-372 | nothing at or below the directory is left, all else is |
| `Portability.UndoInstall` | adapters/storage/portability.py:364-368 | one undo entry takes back a whole installation, up to the consumed staged copy |
| `Portability.UndoBackup` | adapters/storage/portability.py:364-368 | it also takes back a backup whose installation never happened |
| `Portability.EntryUndone` | adapters/storage/portability.py:346-368 | undoing entry i in reverse order is possible and leads to the disk before operation i |
| `Portability.InstallOne` | adapters/storage/portability.py:354-362 | installs, or stops before or after the backup, with exactly the log entry that undoes it |
| `Portability.UndoEntry` | adapters/storage/portability.py:365-368 | removes the installed file and moves its backup back |
| `Portability.Rollback` | adapters/storage/portability.py:364-368 | replaying the log from any interruption restores everything outside the staging area |
| `Portability.InstallAll` | adapters/storage/portability.py:353-368 | all files or none, for any list of destinations, repeats and nesting included |
| `Portability.Restore` | adapters/storage/portability.py:346-370 | all-or-nothing for files and database under a failure at any operation; with no failure every path holds what the jobs in order put there |
| `Portability.Promoted` | adapters/storage/portability.py:363-363 | promotion replaces the database and nothing else |
| `ArchiveImport.ReadFiles` | adapters/storage/portability.py:270-290 | succeeds exactly when the archive carries the referenced files and each has its recorded hash |
| `ArchiveImport.NearestAncestor` | adapters/storage/portability.py:316-318 | the walk up ends at the nearest existing ancestor or the root |
| `ArchiveImport.CheckDestinations` | adapters/storage/portability.py:296-323 | accepts exactly when every destination is inside the root and installable and no two are the same |
| `ArchiveImport.Preflight` | adapters/storage/portability.py:262-323 | everything is proved before anything is written |
| `ArchiveImport.Stage` | adapters/storage/portability.py:332-344 | staging leaves everything outside the staging directory alone |
| `ArchiveImport.ImportArchive` | adapters/storage/portability.py:251-372 | the whole restore: it is refused unless the archive is accepted; on failure the disk is exactly as before, staging included; on success each referenced path holds its own bundled bytes, or the database or nothing if it is or lies below something later, and the rest is untouched; without obstruction or fault it succeeds |
| `ArchiveImport.StageAndInstall` | adapters/storage/portability.py:332-372 | the part after the checks: for accepted archives, the same |
| `ArchiveImport.SoundMeans` | adapters/storage/portability.py:262-323 | the checks pass exactly when every referenced path is inside the root, free to install and nobody else's, and its bundled bytes have the recorded hash |
| `ArchiveImport.RestoredMeans` | adapters/storage/portability.py:332-363 | installing the staged files in order gives exactly that disk, path by path |
| `ArchiveImport.InstalledUnlessBuried` | adapters/storage/portability.py:354-362 | a destination holds its bytes if and only if no later destination lies above it |
| `ArchiveImport.ElsewhereUntouched` | adapters/storage/portability.py:354-362 | what is not at or below a destination stays as it was |
| `ArchiveImport.RestoredExactly` | adapters/storage/portability.py:346-363 | after success a referenced path holds the database, nothing, or the bytes bundled under its own name, and when each is the case |
| `ArchiveImport.NestedIsBuried` | adapters/storage/portability.py:296-323 | an archive with "a/b" and then "a" loses its first file in every successful restore |
| `ArchiveImport.NestedIsAccepted` | adapters/storage/portability.py:296-323 | and nothing in the checks keeps such an archive out |
| `Dates.ParseYieldsDate` | packages/domain/dates.py:91-122 | whatever the label, a parsed date has a four-digit year and a month of the year |
| `Dates.AnswerAgreesWithRanks` | packages/domain/dates.py:131-172 | whenever the order question is answered, the answer is the comparison of the ranks sections are sorted by |
| `Dates.OpenEndedRanksHighest` | packages/domain/dates.py:140-148 | an open-ended end ranks strictly above every dated one |
| `Dates.IsoRoundTrip` | packages/domain/dates.py:76-122 | the iso form of any date parses to that date |
| `Dates.IsoIsCanonical` | packages/domain/dates.py:76-148 | rewriting a readable label in iso form changes neither its date nor its ranks |
| `Dates.CleanIdempotent` | packages/domain/dates.py:81-82 | cleaning a label twice is cleaning it once |
| `Dates.NameAndNumberAgree` | packages/domain/dates.py:91-122 | a month by name and the same month by number are one date, for every name and year |
| `DateLabels.MonthsAre` | packages/domain/dates.py:40-58 | a word stands for a month exactly when it is its name or its three-letter form, or "sept" |
| `DateLabels.OpenEndedAre` | packages/domain/dates.py:85-88 | a label is open-ended exactly when it is blank or one of eight words, stops and commas around them aside |
| `DateLabels.MonthThenYear` | packages/domain/dates.py:99-122 | a month number, any separators and a year read as that date, or as none if there is no such month |
| `DateLabels.YearThenMonth` | packages/domain/dates.py:91-122 | the same with the year first |
| `DateLabels.NameThenYear` | packages/domain/dates.py:99-115 | a word, any separators and a year read as the month the word names |
| `DateLabels.YearThenName` | packages/domain/dates.py:99-115 | the same with the year first, with a stop after the word or without |
| `DateLabels.NamedIs` | packages/domain/dates.py:99-115 | and a word names a month exactly when it stands for it |
| `DateLabels.CaseImmaterial` | packages/domain/dates.py:81-82 | capitals make no difference to what a label is read as |
| `DateLabels.YearAloneRanks` | packages/domain/dates.py:131-148 | a year alone ranks as its January at the start of a role and as its December at the end |
| `DateLabels.LaterRanksHigher` | packages/domain/dates.py:131-148 | of two readable labels the one of the later month ranks higher, at either side |
| `DateLabels.UnreadableRanksLowest` | packages/domain/dates.py:131-148 | a label that cannot be read ranks below every other |
| `CvModel.SortSorts` | packages/domain/generation.py:95-98 | sorting yields the same entries in descending order of rank |
| `CvModel.SortFixpoint` | packages/domain/grounding.py:360-370 | a list equals its own sort exactly when it descends |
| `Grounding.GroundingVerifier.Verify` | packages/domain/grounding.py:102-117 | a rule reports if and only if its declarative condition fails; no findings if and only if the model is grounded |
| `Grounding.GroundingVerifier.CheckMeta` | packages/domain/grounding.py:119-132 | exactly when family, strategy version or section order is not the context's |
| `Grounding.GroundingVerifier.CheckHeader` | packages/domain/grounding.py:134-160 | exactly when a header field or the set of links is not the profile's |
| `Grounding.GroundingVerifier.CheckField` | packages/domain/grounding.py:410-411 | exactly when the rendered field is not the canonical one up to character normalization |
| `Grounding.GroundingVerifier.CheckLinks` | packages/domain/grounding.py:134-160 | exactly when the links shown are not, as a set, those of the profile |
| `Grounding.GroundingVerifier.CheckHeadline` | packages/domain/grounding.py:162-178 | exactly when the headline is not the family's name |
| `Grounding.GroundingVerifier.CheckSummary` | packages/domain/grounding.py:180-191 | numbers, names and content words of the summary against the whole corpus |
| `Grounding.GroundingVerifier.CheckSkill` | packages/domain/grounding.py:203-216 | exactly when a capability is uncovered or the name shown is that of none of them |
| `Grounding.GroundingVerifier.CheckSkills` | packages/domain/grounding.py:193-217 | all skills satisfy that |
| `Grounding.GroundingVerifier.CheckRow` | packages/domain/grounding.py:227-262 | the entry's skeleton is its canonical row's, in a section its kind allows, and employment shows a bullet |
| `Grounding.GroundingVerifier.CheckEntry` | packages/domain/grounding.py:219-265 | entry and bullets together, rule by rule |
| `Grounding.GroundingVerifier.CheckEntries` | packages/domain/grounding.py:102-117 | all entries of a section, rule by rule |
| `Grounding.GroundingVerifier.CheckSources` | packages/domain/grounding.py:273-291 | every cited fact exists and attaches to the entry; the statements of those that do, in order |
| `Grounding.GroundingVerifier.CheckText` | packages/domain/grounding.py:294-313 | four independent conditions on a bullet's text against its sources |
| `Grounding.GroundingVerifier.CheckBullet` | packages/domain/grounding.py:267-314 | sources and text together, rule by rule |
| `Grounding.GroundingVerifier.CheckOnce` | packages/domain/grounding.py:322-332 | exactly when some canonical row renders twice |
| `Grounding.GroundingVerifier.CheckRowsRendered` | packages/domain/grounding.py:333-341 | exactly when a confirmed education or project row is missing from its section |
| `Grounding.GroundingVerifier.CheckCompleteness` | packages/domain/grounding.py:316-358 | the two above, and the gate against a CV that shows no fact at all |
| `Grounding.GroundingVerifier.CheckExperienceOrder` | packages/domain/grounding.py:360-370 | exactly when canonical keys do not descend |
| `Grounding.GroundingVerifier.CheckNumbers` | packages/domain/grounding.py:372-379 | exactly when some number is not allowed |
| `Grounding.GroundingVerifier.CheckEntities` | packages/domain/grounding.py:381-394 | exactly when a name-like token is in the corpus neither by form nor by lemma |
| `Grounding.GroundingVerifier.CheckScope` | packages/domain/grounding.py:396-407 | exactly when an ownership class is used that the source does not use |
| `GroundingRules.GroundedMeans` | packages/domain/grounding.py:102-407 | for a context that lists each row and fact id once, the verifier objects to nothing if and only if the model is honest: kinds, rows, citations, texts, order, coverage and header, each stated on rows and texts alone |
| `GroundingRules.KindsMean` | packages/domain/grounding.py:48-52 | every entry under projects is a Project row, every one under education an EducationKind row, and every one under experiences a Role, Venture or OtherKind row |
| `GroundingRules.FramesMean` | packages/domain/grounding.py:219-265 | title, organization, dates and location of an entry are its row's |
| `GroundingRules.TracedMeans` | packages/domain/grounding.py:219-315 | every entry is a row of the context, and every bullet cites facts of that very row, at least one |
| `GroundingRules.CoversMeans` | packages/domain/grounding.py:316-358 | every confirmed Project and EducationKind row is shown where it belongs, and some fact is shown if any is backed |
| `GroundingRules.HeaderMeans` | packages/domain/grounding.py:134-160 | each header field is the profile's, and the links shown are, as a set, the profile's link fields |
| `GroundingRules.HeadlineMeans` | packages/domain/grounding.py:119-178 | the headline, if any, is the name of the role family, and the sections come in the one fixed order |
| `GroundingRules.SkillsMean` | packages/domain/grounding.py:193-217 | every skill shows the name of a capability that a fact of the context covers |
| `GroundingRules.OrderingMeans` | packages/domain/grounding.py:360-370 | of two rows of employment the one that ended later comes first, and of two that ended together the one that began later |
| `GroundingRules.GateMeans` | packages/domain/grounding.py:219-265 | no row of employment is shown without a bullet |
| `GroundingRules.BulletMeans` | packages/domain/grounding.py:267-314 | a bullet states no number, name or content word, and claims no kind of ownership, that its cited facts and its row do not |
| `GroundingRules.BulletRules` | packages/domain/grounding.py:267-314 | the same rule by rule, so that each finding comes under its own |
| `GroundingRules.SummaryMeans` | packages/domain/grounding.py:180-191 | the summary states no number, name or content word that is nowhere in the confirmed texts |
| `GroundingRules.SummaryRules` | packages/domain/grounding.py:180-191 | and rule by rule |
| `GroundingRules.NamesMean` | packages/domain/grounding.py:381-394 | a name-like token must occur among the confirmed texts in the same form or with the same lemma |
| `GroundingRules.ClaimsMean` | packages/domain/grounding.py:26-46 | the ownership verbs, class by class |
| `GroundingRules.CorpusMeans` | packages/domain/grounding.py:90-100 | the corpus is exactly the statements, the texts of the rows, the profile and the names of the context |
| `GroundingRules.ProfileTextsAre` | packages/domain/grounding.py:81-100 | what a bullet may repeat of the profile: whatever it states |
| `Generation.BuildVerbatimModel` | packages/domain/generation.py:74-112 | the loops build the fallback defined section by section, whatever order facts come in |
| `Generation.BuildSections` | packages/domain/generation.py:84-98 | each row lands once in the section of its kind, and employment without a fact nowhere |
| `Generation.GroupFacts` | packages/domain/generation.py:80-83 | each experience's facts, in visiting order, and those of no other |
| `Generation.StampedSatisfies` | packages/domain/generation.py:55-71 | header, headline and identity stamped in code pass whatever else the model says |
| `Generation.QuotationSatisfies` | packages/domain/generation.py:92-93 | a bullet quoting one attached fact satisfies every rule, that on names exactly when the names in the fact are known to the corpus |
| `Generation.VerbatimOrder` | packages/domain/generation.py:95-98 | the fallback's employment is in the order the verifier wants |
| `Generation.VerbatimCompleteness` | packages/domain/generation.py:79-98 | the fallback covers what must be covered if and only if some backed fact is reachable |
| `Generation.VerbatimSkills` | packages/domain/generation.py:99-100 | the fallback's skills verify if and only if each shows the name its capability is known by |
| `Generation.VerbatimSatisfies` | packages/domain/generation.py:74-112 | rule by rule: all hold, but for the three exact conditions on coverage, skills and names |
| `Generation.EntryOfRowSatisfies` | packages/domain/generation.py:84-94 | an entry built from its row satisfies every rule of its section, that on names exactly when the names in its facts are known |
| `Generation.VerbatimGrounded` | packages/domain/generation.py:74-112 | the verifier accepts the fallback if and only if those three conditions, each on the context alone, hold |
| `GroundingRules.FallbackShows` | packages/domain/generation.py:74-112 | the fallback shows every Project row under projects, every EducationKind row under education, and under experiences exactly the other rows with a fact, each quoting its facts word for word; nothing else |
| `GroundingRules.HeadIs` | packages/domain/generation.py:55-71 | the head set in code, for the fallback and every draft: the profile's own fields, its links and no other, and the name of the role family unless that is blank |
| `GroundingRules.FallbackHead` | packages/domain/generation.py:74-112 | the fallback claims every evidenced capability under its own name and no other, and has no summary |
| `GroundingRules.StampedSays` | packages/domain/generation.py:154-160 | header, headline and identity of a draft are replaced by those of the context, and the rest is as drafted |
| `GroundingRules.DraftAccepted` | packages/domain/generation.py:154-171 | a draft is accepted exactly when it is honest under the context's own head, which always passes |
| `Generation.FoldingKeepsNames` | packages/domain/grounding.py:381-394 | where case folding commutes with tokenizing, the names in every quoted fact are known |
| `Generation.VerbatimAlwaysGrounded` | packages/domain/generation.py:74-78 | in particular whenever every backed fact's experience is in the context and case folding commutes with tokenizing |
| `Generation.StrandedFails` | packages/domain/generation.py:85-89 | a context whose fallback the verifier rejects, whatever the text functions do |
| `Lexicons.PlainIsLawful` | packages/domain/grounding_spec.py:152-171 | a word-splitting, lower-casing lexicon meets every assumption of the fallback theorem |
| `Lexicons.GrowingIsLawful` | packages/domain/grounding_spec.py:160-171 | a lexicon whose folding turns one letter into two, one of which no token keeps, breaks the law of folding and meets every other assumption |
| `Lexicons.GrowingRejects` | packages/domain/grounding.py:381-394 | under it the fallback is rejected for any context with a reachable fact that has a word with that letter in it that starts with an ASCII capital |
| `Generation.TryDrafts` | packages/domain/generation.py:142-174 | the first of at most three drafts the verifier passes, and no earlier one was acceptable |
| `Generation.FallBack` | packages/domain/generation.py:175-178 | the verbatim model with the verifier's findings, which are none in every context that meets the condition |
| `Generation.DraftCv` | packages/domain/generation.py:123-178 | the fallback is used exactly when no draft was acceptable; the findings are empty exactly when the model is grounded |
| `Promotion.SelectionIsExact` | packages/domain/promotion.py:56-71 | exactly min(cap, n) distinct pending rows |
| `Selection.SelectedInOrder` | packages/domain/promotion.py:56-71 | the list, place by place: the oldest rows for half of the cap, rounded down, in order of age, then the best of the others in order of key and number, up to the cap |
| `Selection.PriorityMeans` | packages/domain/promotion.py:56-71 | the order by priority: at the first difference of the keys the smaller component, and among equal keys the lower number |
| `Promotion.LeftOutFairly` | packages/domain/promotion.py:56-71 | a row left out is no older than the aged half and no better than the rest |
| `Promotion.LeftOutMovesUp` | packages/domain/promotion.py:56-71 | each round a row left out loses half a cap of the rows before it |
| `Promotion.Waiting` | packages/domain/promotion.py:56-71 | the same over any number of rounds with any arrivals |
| `Promotion.NoStarvation` | packages/domain/promotion.py:56-71 | for a cap of at least two, a row with k older ones is selected within k / (cap / 2) + 1 rounds |
| `Promotion.OneStarves` | packages/domain/promotion.py:56-71 | for a cap of one, a row can be left out any number of times |
| `Promotion.RetryOutcome` | packages/domain/promotion.py:74-81 | gives up exactly at the last attempt, and otherwise retries one or two runs later |
| `PromotionQueue.DiscoveryLease.Acquire` | adapters/storage/sqlite_discovery.py:291-306 | granted exactly when free, under a fence above every earlier one |
| `PromotionQueue.DiscoveryLease.Renew` | adapters/storage/sqlite_discovery.py:308-319 | only the holder under its own fence extends it |
| `PromotionQueue.DiscoveryLease.ClaimExpired` | adapters/storage/sqlite_discovery.py:338-347 | clears a lease that is over and no other, keeping the fence |
| `PromotionQueue.DiscoveryLease.Release` | adapters/storage/sqlite_discovery.py:349-353 | only the owner's lease goes |
| `PromotionQueue.PromotionQueueRepository.Enqueue` | adapters/storage/sqlite_opportunities.py:352-371 | survivors merge by key, and a new row is the youngest |
| `PromotionQueue.PromotionQueueRepository.Recheck` | adapters/storage/sqlite_opportunities.py:426-438 | a row passes exactly when it is unfinished, pins the current version of an open opportunity and is not behind the epoch given; a stale one is superseded |
| `PromotionQueue.PromotionQueueRepository.Claim` | adapters/storage/sqlite_opportunities.py:413-450 | with an owner and a fence it marks the row, supersedes a stale one, or does nothing, and returns a row exactly when marked; without them it only re-checks |
| `PromotionQueue.PromotionQueueRepository.Transition` | adapters/storage/sqlite_opportunities.py:452-465 | only along the stages, with coverage recorded on extraction |
| `PromotionQueue.PromotionQueueRepository.ReleaseFailed` | adapters/storage/sqlite_opportunities.py:467-482 | backs off or fails for good, by the attempts made |
| `PromotionQueue.PromotionQueueRepository.RetryFailed` | adapters/storage/sqlite_opportunities.py:484-494 | only a failed row starts over |
| `PromotionQueue.PromotionQueueRepository.Sweep` | adapters/storage/sqlite_opportunities.py:496-523 | supersedes exactly the unfinished rows that meet the condition |
| `QueueRuns.Always` | adapters/storage/sqlite_opportunities.py:352-523 | the invariant of lease, rows, keys and claims holds in every reachable state |
| `QueueRuns.EveryRow` | adapters/storage/sqlite_opportunities.py:452-482 | unfinished rows keep attempts within the backoff table, worked rows have coverage, marks stay within the lease's fence, ages are distinct |
| `QueueRuns.FencesAreUnique` | adapters/storage/sqlite_discovery.py:291-306 | each acquisition has a fence of its own |
| `QueueRuns.ClaimsExclude` | adapters/storage/sqlite_opportunities.py:413-450 | two claims on a row never share a fence across owners, and their fences never go back |
| `QueueRuns.MarksAdvance` | adapters/storage/sqlite_opportunities.py:413-450 | over any run a row's mark only moves to later fences |
| `QueueRuns.ClaimPins` | adapters/storage/sqlite_opportunities.py:413-450 | a claimed row pins the current version of an opportunity that is not closed, at an epoch no older than the one asked for |
| `QueueRuns.EnqueueAnswers` | adapters/storage/sqlite_opportunities.py:352-371 | the holder's enqueue comes to exactly one row: the one that has the key already, nothing else changed, or a new one at the end |
| `QueueRuns.RowCurrent` | workers/discovery/run.py:361-362 | over any run: a row that a run enqueues or merges into is at the current epoch if and only if no step since that run's start bumped the epoch |
| `QueueRuns.OwnRowCurrent` | workers/discovery/run.py:1143-1150 | the run's own claim of it is never refused for its epoch, and returns a stale row if and only if the epoch was bumped since the run started |
| `QueueRuns.GrantsCurrent` | adapters/storage/sqlite_opportunities.py:413-450 | all grants under an epoch read earlier are current if and only if no claimable row lies between that epoch and the present one; a sweep at the present epoch leaves none |
| `QueueRuns.FallsBehind` | adapters/storage/sqlite_opportunities.py:484-494 | with no unfinished row behind the epoch, a step leaves one behind if and only if it bumps the epoch over unfinished rows, adds a row of a passed epoch or retries one |
| `QueueRuns.CurrentSinceSweep` | workers/discovery/run.py:846-849 | from a sweep at the present epoch on, every grant under any epoch asked is current until one of those steps |
| `QueueRuns.StaleClaimGranted` | workers/discovery/run.py:1143-1150 | a run in which a row of a passed epoch is granted |
| `QueueRuns.RowsMoveOn` | adapters/storage/sqlite_opportunities.py:452-523 | a measure of stages and attempts left falls with each piece of work and rises with nothing but an explicit retry; an ended row stays ended |
| `QueueRuns.OnlyRetryRevives` | adapters/storage/sqlite_opportunities.py:484-494 | the explicit retry is the only way out of an end, and only out of failure |
| `QueueRuns.WorkIsBounded` | adapters/storage/sqlite_opportunities.py:452-482 | between explicit retries a row is worked on at most twelve times, however long the run |
| `QueueOutcomes.TransitionDoes` | adapters/storage/sqlite_opportunities.py:452-465 | a granted transition starts the next stage with no failure behind it, and with the coverage given, or the coverage it had |
| `QueueOutcomes.FailureDoes` | adapters/storage/sqlite_opportunities.py:467-482 | the first failure is retried one run later, the second two runs later, and the third is the last |
| `QueueOutcomes.RetryDoes` | adapters/storage/sqlite_opportunities.py:484-494 | a retried row starts over, claimable from this run on, under its old number |
| `QueueOutcomes.SupersedeDoes` | adapters/storage/sqlite_opportunities.py:496-510 | a closure takes out every unfinished row of the opportunity, a new version those that pin another, and nothing else changes |
| `QueueOutcomes.SweepDoes` | adapters/storage/sqlite_opportunities.py:512-518 | exactly the unfinished rows of an earlier epoch go |
| `QueueOutcomes.EnqueueDoes` | adapters/storage/sqlite_opportunities.py:352-371 | a new row waits for extraction, unclaimed, behind every other |
| `QueueOutcomes.ClaimDoes` | adapters/storage/sqlite_opportunities.py:413-450 | a claim takes an unfinished row out of the queue if its version is not the current one of an open opportunity or its epoch is behind, marks it if it is free for the claimant, and is refused otherwise |
| `QueueOutcomes.NotServed` | adapters/storage/sqlite_discovery.py:321-328 | without the lease nothing is written |
| `QueueOutcomes.StageMoves` | adapters/storage/sqlite_opportunities.py:452-523 | whatever the step, a row changes its stage along the stages, to failure on its third attempt, out of the queue when stale, or back to its start on an explicit retry, and in no other way |
| `QueueOutcomes.CoverageIsGiven` | adapters/storage/sqlite_opportunities.py:463-465 | over any run a row has the coverage its latest measuring transition gave it |
| `QueueOutcomes.AcquireDoes` | adapters/storage/sqlite_discovery.py:291-306 | an acquisition comes with a lease for so many seconds, under a fence of its own |
| `QueueOutcomes.RunLeaseLasts` | adapters/storage/sqlite_discovery.py:308-319 | over any run a lease renewed before each deadline stays its owner's, under the same fence |
| `QueueOutcomes.RunLeaseDecides` | adapters/storage/sqlite_discovery.py:291-347 | so the owner is served up to the end of its lease, and anyone else admitted from then on |
| `QueueOutcomes.GivenUpStays` | adapters/storage/sqlite_discovery.py:338-353 | a lease released or cleared is nobody's until the next acquisition, its fence kept |
| `QueueFairness.ListedAre` | adapters/storage/sqlite_opportunities.py:379-384 | a stage lists exactly its ready rows, each under an id of its own |
| `QueueFairness.OlderSelected` | packages/domain/promotion.py:56-71 | a row left out stands behind half a cap of selected rows older than it |
| `QueueFairness.LeftOutUsesWork` | adapters/storage/sqlite_opportunities.py:452-494 | a round that leaves a row out uses up half a cap of the work left ahead of it, whether the selected rows moved on, failed or came back |
| `QueueFairness.EveryRowSelected` | packages/domain/promotion.py:56-71 | on the queue's own rows, retries and backoff included, n rounds leave no row out that has less than n half caps of work ahead |
| `QueueFairness.SelectedWithin` | packages/domain/promotion.py:56-71 | the same by the number of rows ahead alone, twelve pieces of work each |
| `Gate.NormalizeUserCountries` | packages/domain/gate.py:101-118 | exactly the allowed countries, and failure exactly when something stated does not resolve |
| `Gate.UserCitiesIn` | packages/domain/gate.py:121-127 | exactly the listed cities of a country |
| `Gate.Countries` | packages/domain/gate.py:177-186 | all locations of a list, or nothing when one does not resolve |
| `Gate.CheckRemote` | packages/domain/gate.py:146-169 | passes when the restriction includes an allowed country, fails when it resolves to none |
| `Gate.CheckBase` | packages/domain/gate.py:171-203 | passes when some location fits by country and city, fails when none is in an allowed country |
| `Gate.CheckLocation` | packages/domain/gate.py:130-207 | fails exactly on a decisive conflict, passes exactly on a match |
| `GateRules.ConflictMeans` | packages/domain/gate.py:130-207 | it is a conflict exactly when both sides are known and no place the job is bound to is in a country where the user lives or would move |
| `GateRules.MatchMeans` | packages/domain/gate.py:130-207 | it is a match exactly when the user's side is known and the job is remote from anywhere, or all its places are known and one of them suits: the country is allowed and, for a job on site, the very place is listed, names no city, or no city of that country is listed |
| `Gate.CheckTimezone` | packages/domain/gate.py:210-232 | passes exactly when some offset lies both in what the posting asks for and within the bounds, fails exactly when none does (a requirement stated the wrong way round must lie within the bounds whole) |
| `Gate.EndsDecide` | packages/domain/gate.py:226-230 | comparing the ends of two intervals decides whether some offset lies in both |
| `Gate.ExclusionUpToFolding` | packages/domain/gate.py:235-251 | the verdict depends on value and list only through folding: spelling, order and repetition do not matter, and two lists together exclude what either does |
| `Gate.CheckSeniority` | packages/domain/gate.py:254-278 | passes exactly when some active family's target has the posting's band, fails exactly when some have bands and none has this one |
| `Gate.EvaluateGate` | packages/domain/gate.py:281-302 | fails exactly when some dimension is in conflict: a skip never excludes |
| `GateCache.UserState.BumpDependencyEpoch` | adapters/storage/epoch.py:10-15 | the epoch moves on by one |
| `GateCache.UserState.SetPolicy` | adapters/storage/sqlite_policies.py:28-60 | value, audit row with the value before, and epoch, in one step |
| `GateCache.UserState.SetField` | adapters/storage/sqlite_profile.py:32-68 | the same for a profile field, which may be emptied |
| `GateCache.UserState.InsertVersion` | adapters/storage/family_strategy.py:35-53 | a complete new version and a new epoch, or nothing at all |
| `GateCache.UserState.MintInitial` | adapters/storage/family_strategy.py:71-84 | families and first version together, or nothing |
| `GateCache.UserState.RequireCurrent` | adapters/storage/family_strategy.py:133-138 | the current version as it is before any transaction, its objective replaced by one given |
| `GateCache.UserState.KnowsFamily` | adapters/storage/family_strategy.py:119-120 | whether the family exists |
| `GateCache.UserState.AddFamily` | adapters/storage/family_strategy.py:86-99 | mints exactly when the family is new and the allocations as read plus its own are valid, and writes those, whatever the current version is by then |
| `GateCache.UserState.SetEmphasis` | adapters/storage/family_strategy.py:101-109 | mints exactly when the family was allocated as read and the result is valid, changing that one allocation |
| `GateCache.UserState.SetStatus` | adapters/storage/family_strategy.py:111-131 | the family is allocated only while active, in a copy of the allocations as read |
| `GateCache.EditMints` | adapters/storage/family_strategy.py:86-131 | a committed edit extends the version table by a copy of the version it had read, edited |
| `GateCache.VersionSays` | adapters/storage/family_strategy.py:86-131 | a version reflects exactly the edits on the way it was copied along, each family by the latest of them |
| `GateCache.CarriedForward` | adapters/storage/family_strategy.py:86-131 | edits that each allocate a family of their own are all carried forward if and only if no version was minted between any edit's reading and its writing |
| `GateCache.SideBySide` | adapters/storage/family_strategy.py:86-99 | two additions that read the same version, of which the second drops the first |
| `GateRuns.WritesBump` | adapters/storage/epoch.py:10-15 | whatever the services change in the tables moves the epoch on by exactly one |
| `GateRuns.Always` | workers/discovery/run.py:829-936 | what a run has read, and each stored verdict, is of the present tables whenever its epoch is the present one, as long as unbumped family rows leave the context alone |
| `GateRuns.CachedIsFresh` | apps/cli/discover.py:440-451 | a stored verdict that does not read as stale equals a fresh evaluation, over any interleaving of writes, reads and judgments in which unbumped family rows leave the context alone |
| `GateRuns.StrategiesGrow` | adapters/storage/family_strategy.py:35-53 | strategy versions are only ever added to |
| `GateRuns.UnbumpedExactly` | adapters/storage/sqlite_entities.py:172-182 | after any such run, a current verdict stays right under every gate if and only if the unbumped row leaves the set of active target seniorities unchanged |
| `GateRuns.HarmlessRow` | adapters/storage/sqlite_entities.py:172-182 | which is so exactly when the row is inactive or targets a seniority some active family already has |
| `GateRuns.BumpIsNeeded` | adapters/storage/sqlite_entities.py:172-182 | a reachable instance, judged once, in which the first active family added without a bump turns the current verdict wrong under some gate |
| `GateOutcomes.CurrentExactly` | apps/cli/discover.py:440-451 | over any run, a stored verdict reads as current exactly when nothing has been written since the run that judged it last had started and its version is the one judged, and there is none exactly when the opportunity was never judged |
| `GateOutcomes.PoliciesAreLast` | adapters/storage/sqlite_policies.py:28-60 | over any run a policy is as last written, and no other is in the table |
| `GateOutcomes.FieldsAreLast` | adapters/storage/sqlite_profile.py:32-68 | over any run a profile field is as last written, emptied or not |
| `GateOutcomes.TrailChains` | adapters/storage/sqlite_policies.py:28-60 | the audit trail has every write, each starting from the value the one before left, and ends in what the tables hold |
| `GateOutcomes.StrategyStep` | adapters/storage/family_strategy.py:35-53 | a mint adds one version and brings its families; nothing but a mint or a family row touches either |
| `GateOutcomes.MintableMeans` | adapters/storage/family_strategy.py:35-53 | an edit is refused exactly for a blank objective or an allocation that is not one of one to five |
| `GateOutcomes.ObjectiveSays` | adapters/storage/family_strategy.py:133-138 | an objective given with an edit counts, unless it is empty |
| `GateOutcomes.StatusSays` | adapters/storage/family_strategy.py:111-131 | a family is allocated exactly while active, as before or with three, and no other allocation changes |
| `HttpFetch.HttpFetcher.FetchJson` | adapters/sources/http.py:104-159 | each request goes to the host of the URL then followed, an allowed one; waits and backoffs are as long as they must be; it answers by its last response, and fails only on one not to go on from or with a limit used up, within max_retries + 6 requests and 2^(max_retries+1)-2 seconds of backoff |
| `HttpFetch.HttpFetcher.Chase` | adapters/sources/http.py:115-159 | the loop itself, from a host already allowed: the same, and it terminates |
| `HttpFetch.HttpFetcher.Ask` | adapters/sources/http.py:116-158 | one request to the URL followed, and what its response calls for within the limits still left |
| `HttpFetch.HttpFetcher.TryAgain` | adapters/sources/http.py:139-159 | the backoff before the same URL is asked again |
| `HttpFetch.RunMeans` | adapters/sources/http.py:115-159 | requests and an answer that follow the responses one by one go where, pause as long and end as the fetch promises |
| `HttpFetch.HttpFetcher.BackOff` | adapters/sources/http.py:159-159 | waits two to the attempt, and counts it |
| `HttpFetch.HttpFetcher.RespectInterval` | adapters/sources/http.py:172-178 | afterwards the interval since the last request to this host is over |
| `HttpFetch.HttpFetcher.Send` | adapters/sources/http.py:117-135 | one more request, recorded, polite and captured |
| `HttpFetch.HttpFetcher.RequireAllowed` | adapters/sources/http.py:161-170 | the host if it is on the list, and nothing otherwise |
| `HttpFetch.DecidedWell` | adapters/sources/http.py:136-158 | each response is answered, followed or retried as the result's meaning requires, within both limits |
| `HttpFetch.StatusesMean` | adapters/sources/http.py:136-158 | in plain statuses: which are followed, tried again, answers, or failures of which kind |
| `HttpFetch.BackoffsDouble` | adapters/sources/http.py:159-159 | two seconds before the first retry and twice as long before each one after |
| `HttpFetch.RequestsAreSpaced` | adapters/sources/http.py:172-178 | any two requests to one host, of any fetches, are at least the interval apart |
| `Lever.DedupeJobs` | adapters/sources/base.py:66-90 | comparing with the first record of an id detects every material collision; without one, the first of each id in order |
| `Lever.FirstsAreFirst` | adapters/sources/base.py:66-90 | deduplication keeps the first record of every id and of no other |
| `Lever.CollidesOn` | adapters/sources/base.py:74-88 | a record collides with what came before exactly when it differs from the first of its id |
| `Lever.FirstsAllOnlyOnce` | adapters/sources/base.py:66-90 | nothing is dropped exactly when no id repeats |
| `Lever.Poll` | adapters/sources/lever.py:27-50 | for any pages: it succeeds exactly when the pages up to the first short one are within the limit, each an array of well-shaped records, and no two records of an id differ; otherwise the error is that of the first page or record that is not so |
| `Lever.PollPages` | adapters/sources/lever.py:33-46 | the loop over the pages |
| `Lever.ScanMeans` | adapters/sources/lever.py:33-46 | what the loop reads and which failure it ends in, stated on the pages |
| `Lever.FeedScan` | adapters/sources/lever.py:33-46 | a feed of n postings takes n / 100 + 1 pages, and exactly those beyond the limit are oversized |
| `Lever.PollFeed` | adapters/sources/lever.py:27-50 | a static feed yields its first records in order, is oversized, or collides, each exactly when |
| `Lever.ReplayAgrees` | adapters/sources/lever.py:52-53 | replay finds the same first record of every id, and the same list exactly when no id repeats |
| `Lever.ReplayRepeats` | adapters/sources/lever.py:52-53 | a posting listed twice is polled once, collides with nothing, and is replayed twice |
| `Onboarding.ParseMarks` | apps/cli/onboarding.py:260-289 | a line is taken whole exactly when it is usable, and then says what its tokens say |
| `Onboarding.TakeNumbers` | apps/cli/onboarding.py:281-286 | the numbers of a token are taken exactly when all are waiting and new in this line |
| `MarkLines.UsableMeans` | apps/cli/onboarding.py:260-289 | a line can be used exactly when it says something, each token is a number or a range that does not run backwards with the letter of a mark, and each item named is waiting and named by one token only |
| `MarkLines.MarksMean` | apps/cli/onboarding.py:260-289 | and then each item named gets the mark of the token that names it, and no other item any |
| `Onboarding.ApplyLine` | apps/cli/onboarding.py:314-330 | the marks of a line applied one by one are the line applied at once, cascades and too-early marks included |
| `MarkLines.AppliedMeans` | apps/cli/onboarding.py:314-330 | item by item, what a usable line does: its own mark, a rejection for the facts of an experience it rejects, and nothing to any other item or to one of a later phase |
| `Onboarding.CollectMarks` | apps/cli/onboarding.py:292-340 | ends only when every item carries a mark or input ends; marks and waiting items partition the items |
| `Onboarding.OneMarkKeeps` | apps/cli/onboarding.py:320-330 | each mark and what it takes along keep that partition |
| `Onboarding.UnusableLineIgnored` | apps/cli/onboarding.py:309-313 | an unusable line might as well not have been typed, wherever it comes |
| `Onboarding.ListItems` | apps/cli/onboarding.py:385-422 | the loop lists experiences with their facts, then the facts without one |
| `Onboarding.AddFactItems` | apps/cli/onboarding.py:395-403 | the facts of one experience, in order |
| `Onboarding.ListingIsExact` | apps/cli/onboarding.py:385-422 | every fact once, and each experience not confirmed earlier once |
| `OnboardingReview.FirstPhaseMarks` | apps/cli/onboarding.py:485-491 | a completed experience phase has marked every experience and, of the facts, exactly those of rejected ones |
| `OnboardingReview.DroppedExactly` | apps/cli/onboarding.py:517-542 | the facts never persisted are exactly those whose experience was rejected |
| `OnboardingReview.ReviewStore.PersistDrafts` | apps/cli/onboarding.py:493-501 | accepted experiences together, then every fact whose experience stands, as a draft |
| `OnboardingReview.ReviewStore.SettleNext` | apps/cli/onboarding.py:545-565 | the mark of one item reaches its row and no other: Retracted on a rejection, Approved on acceptance or an edit |
| `OnboardingReview.ReviewStore.SettleFacts` | apps/cli/onboarding.py:314-330 | the marks of a line reach exactly their rows in item order, up to the first whose question is left unanswered |
| `OnboardingReview.ReviewStore.MarkLine` | apps/cli/onboarding.py:304-330 | a usable line is stored mark by mark; interrupted at a question it leaves the marks before it stored, and an unusable one changes nothing |
| `OnboardingReview.ReviewStore.MarkFacts` | apps/cli/onboarding.py:508-514 | at every point of the fact phase the rows say what the marks so far say |
| `OnboardingReview.ReviewStore.Review` | apps/cli/onboarding.py:447-514 | on return every listed item has exactly one mark; whenever it has begun to store, each stored fact is Retracted exactly if its mark is Reject, Approved exactly if it is Accept or EditMark, and Draft exactly if it has none, and the experiences stored are exactly those accepted or edited; an interruption in the first phase writes nothing, one in the second, between lines or within one, loses no mark taken |
| `OnboardingReview.ReviewConcluded` | apps/cli/onboarding.py:447-514 | with nothing left to mark, each stored fact is Retracted or Approved as its mark says, and each experience stored or not |
| `OnboardingReview.MarksAreStored` | apps/cli/onboarding.py:493-565 | the state of each stored fact by its mark, Draft without one, for any marks taken so far |

## Left out

- HTTP transport, model subprocesses, PDF rendering, text extraction and zip encoding: their results and failures are arbitrary parameters.
- SQL text, pragmas, retries on a locked database and migrations: each `with self._conn` block is one atomic transaction.
- `Dates.ParseYieldsDate`: does not model digits and letters beyond ASCII, or Unicode case folding.
- `Gauntlet.RunAttempt`: promises the recording within the reservation as first granted; `GauntletRuns.RenewedLeadsToRun` has the one renewed by heartbeats.
- `Onboarding.ParseMarks`: does not model splitting a line into tokens; a line is a list of decoded tokens.
- `Judges.RunJudge`: does not model JSON decoding; an output is decoded JSON or none.
- The text functions of the grounding verifier: opaque. The fallback theorems assume that the empty text has nothing in it and that character normalization ignores surrounding white space, and, where they say so, that tokenizing splits at a line break and commutes with case folding.
- `GroundingRules.GroundedMeans`: for contexts in which row, fact and capability ids are unique, as primary keys make them.
- `Portability.Restore`: does not model undo operations that fail by themselves, parent directories the restore creates, or directories that hold no file; undo is assumed to succeed, and a directory exists where a file lies below it.
- The name of the staging directory: assumed fresh, as `tempfile.mkdtemp` gives it.
- Database import and export (`import_db`, `export_db`): the staged database is whatever loading the dump gave, or a failure.
- The texts of findings, notes and reports, judge transcripts and prompts: only which rule or outcome is modelled.
- The order of corpus parts and of facts within an entry: any order, so the theorems hold for the sorted one.
- Company metadata of a source: fixed, because its writes do not bump the dependency epoch.
- `Promotion.SelectionIsExact`: does not model how lane and coverage keys are built; a priority key is any tuple of tuples of integers.
- `OnboardingReview.ReviewStore.SettleFacts`: does not model replacement texts, evidence edges or date questions, only where a question is left unanswered and the state each fact is left in.
- Posting versions, supersession of queue rows by a poll, run rows and source bookkeeping (`workers/discovery/run.py`): the closure machine, the queue and the gate cache are modelled separately.
- Policy and profile validators, the budget ledger, entity mapping and vendor field mapping: only easy members.
- Printing, argument parsing, the session file and process handling of the command line.
- Calibration and corpus scripts, the browser extension and the local-network probe.
