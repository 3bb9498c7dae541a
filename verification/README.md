# Verified model of the launch, profiling and service layer

The project models the stateful parts of the Python layer that launches simulations, fills the
kernel profile database and serves simulations over HTTP, and proves what those parts promise.
`dafny verify dfyconfig.toml` checks all of it.

| file | part |
|---|---|
| `WorkUnits`, `Collector`, `Allocation`, `Dispatch`, `ProfileApi` | the profiling work scheduler, from the dry walk's misses to the last completion |
| `SimQueue`, `SimRuns`, `SimRestart`, `SimOutcomes`, `SimService` | the simulation queue: its critical sections, whole runs of it, what its files keep across crashes and restarts, what a status means, and its mutable objects |
| `CacheKey`, `CachePrebuild`, `CacheAnswers` | the cache prebuild shared by any number of launchers, and what its answer means |
| `CommitMarker`, `CommitAnswers`, `CommitConfig`, `CommitSpoils`, `SweepGeometry` | one run directory's commit protocol, what a launch's answer means, what is stored beside the artifacts, and what goes wrong; where a sweep lives and the order of its leases |
| `RateLimiter` (module `RateLimits`), `Acceptance` | the sliding-window limiter; the acceptance counters and rates |
| `LabeledSequences`, `GlobalOptions`, `DottedPaths` | the folded kernel-sequence checker; the command line's global options and dotted assignments |
| `Arithmetic`, `Common`, `Names` | division facts, shared datatypes, dotted names and numbers in them |

Protocols that several processes or threads share are transition systems: a state, one step per
critical section or disk write, an inductive invariant, and theorems over every finite run. Code
that changes objects or loops over variables is a class or a method, proved equal to a
specification function; the theorems are about that function.

## Where the code and its promises part

Each of these has a lemma with a concrete run or input, and beside it the exact condition.

- `issue` neither runs nor reports a spec whose GPU count is below 1, and single-GPU specs when
  the pool is empty (`Dispatch.ZeroCountSpecIsDropped`; exact: `Dispatch.NoFailuresVerdict`).
- A deleted run can come back with a restart: when the service stops between `delete`'s pop and
  its `rmtree` (`SimRestart.CrashBringsDeletedRunBack`), or when a `get` that had found it saves
  it after its files were unlinked, however much later the service stops
  (`SimRestart.LateSaveBringsDeletedRunBack`). No other way is open
  (`SimRestart.DeletedComesBackOnlyIf`), and a run is visible after a restart exactly when its
  record could be read at the crash and has not expired (`SimRestart.RestartRecovers`).
- Two `get`s of one done run share one `.tmp` file outside the lock, and the service answers them
  from threads (public_api/app.py:138, 292-294). The second's opening it before the first renames
  it leaves an unreadable record; with a crash then, the run is lost
  (`SimRestart.OverlappingGetsLoseRun`). Such an overlap can always tear
  (`SimRestart.OverlapTears`), without one no record ever is (`SimRestart.SoloSavesKeepRecords`),
  and the step that loses a durable record is known exactly (`SimRestart.DurableTerminalKeepsStatus`).
- A launcher killed without its process group leaves its builder running while its leases are
  freed (launcher/process/supervisor.py:138-157 starts a new session, launcher/process/leases.py:1-6
  lets the kernel release the lock). From any sound state, a builder can then be started beside a
  child left behind exactly when some key misses a row (`CachePrebuild.OrphanIsOverlapped`), and a
  row can be built twice exactly when the builder left behind still had rows to write
  (`CachePrebuild.OrphanBuildsTwice`); `CachePrebuild.OrphanBreaksExclusion` is a run from the
  start. Every other step keeps the invariant (`CachePrebuild.StepKeepsInv`).
- A launcher killed without its process group also leaves its simulation running, with the run
  directory's lease free. Another launch may then run and be committed there while the first
  simulation still writes (`CommitSpoils.OrphanWritesIntoMarkedRun`). From any sound state a step
  opens the way to an accepted directory with a file of a simulation nobody saw exit exactly when
  it is such a death (`CommitSpoils.SpoiltExactlyAfterLoneDeath`); and in any run at all, a marked
  directory's required files are of one simulation that exited zero and passed validation exactly
  when no simulation left behind has written one of them since the marked one ended
  (`CommitMarker.MarkedIsCertifiedExactlyWhen`). What holds whoever dies is in
  `CommitMarker.ReachableStatesExclude`.
- The validator lists `raw/request_state.parquet` as accepted merely because it is there, and a
  simulation that admits no request writes none (simulator/src/log/parquet_writer.rs:54-57), so
  that a directory can be accepted with the file of a run that failed, of other params
  (`CommitSpoils.StaleStateIsAccepted`). The file is another run's exactly when that one had left
  it and the marked one wrote none (`CommitMarker.StaleExactlyWhen`); a required file never is.
- The config and metadata of a refreshed run are written before the old marker is unlinked: a
  death in between leaves an accepted directory with a config its artifacts were not made with
  (`CommitSpoils.DeathLeavesForeignConfig`; exact: `CommitConfig.StepKeepsConfig`).
- A single run writes its preset and git snapshot still earlier, before its prebuild: when that
  fails, or the launcher dies before the unlink, the old marker and artifacts stand beside the new
  preset (`CommitSpoils.FailedPrebuildLeavesForeignPreset`). A sweep's run writes neither in its
  run directory, and leaves there what a single run had
  (`CommitSpoils.SweepRunKeepsForeignPreset`). Exact: `CommitConfig.StepKeepsShared`.
- A sweep's first completeness check holds no lease on the run directory: another launch may
  begin between its two reads, and a running simulation's artifacts are taken for a finished run
  (`CommitSpoils.GlanceCanSkipRunningSimulation`). It skips soundly exactly when, since it saw the
  marker, no required file has been written or the last simulation to write one has been
  validated with all of them its own (`CommitMarker.GlanceIsSoundExactlyWhen`); reading the marker
  last would be sound unless a simulation was left behind
  (`CommitMarker.MarkerLastIsSoundExactlyWhen`).
- `get` lets the lock go before it reads the record: its answer may say `done` without a summary,
  or a later status with a queue position (exact: `SimRuns.AnswerAgreesExactlyWhen`).
- A sweep one of whose run directories is the file-system root would wait for the lease it holds
  (exact: `SweepGeometry.LaunchersClimb`).
- `admit` raises on an empty deque once the table is full; only `refund` leaves one
  (`RateLimits.RefundThenFullTableRaises`, `RateLimits.OnlyRefundsRaise`; exact:
  `RateLimits.AnswerIsByCount`).
- A refund takes the client's latest time, whichever request it is for, so a client may be served
  more than `limit` requests in a window (`RateLimits.RefundOfEarlierOverfillsWindow`). The limiter
  keeps the times of the requests not rejected exactly as long as each refund is for the latest
  (`RateLimits.UnrefundedIsCountedExactlyWhen`). The routes await while they hold a request open, so
  two of one client's can end in either order.
- `admit` reads the clock before it takes the lock: calls from several threads may be counted out
  of clock order, and then let too many through (`RateLimits.SwappedCallsOverfillWindow`). This
  concerns `RateLimiter` used from threads; public_api/app.py:105-123 calls it on the event loop,
  with no await in between. In any order, a window is overfilled exactly when a request was
  counted without room (`RateLimits.UnrefundedBoundedExactlyWhen`), and in clock order the limiter
  refuses exactly then (`RateLimits.RefusesExactlyWithoutRoom`).

## Model

| member | source | states |
|---|---|---|
| WorkUnits.Sliced | profiling/plan.py:83-104 | the loop returns the round-robin slices |
| WorkUnits.SliceHolds | profiling/plan.py:83-104 | element i of the unit is element i div pieces of piece i mod pieces, for every list and piece count |
| WorkUnits.SliceSizes | profiling/plan.py:83-104 | for every positive piece count there are min(pieces, size) slices, none empty, of sizes that differ by at most one |
| WorkUnits.SlicesConserve | profiling/plan.py:83-104 | the slices hold the unit's specs, each once |
| WorkUnits.SlicesInterleaveBack | profiling/plan.py:83-104 | re-interleaving the slices rebuilds the unit |
| WorkUnits.LargestFirstSorts | profiling/plan.py:160 | the sort by size is a stable, descending permutation |
| Collector.WorkCollector.Record | profiling/plan.py:115-139 | the collector's dictionaries become the recorded store, nothing else changes |
| Collector.WorkCollector.Units | profiling/plan.py:141-160 | the units are the recorded specs grouped by GPU count, largest first |
| Collector.UnseenAddsEachOnce | profiling/plan.py:131-139 | recording keeps a bucket free of duplicates and adds exactly the new specs |
| Collector.UnseenPlaces | profiling/plan.py:131-139 | the new specs stand in the order in which they were first asked |
| Collector.RecordTouchesOneBucket | profiling/plan.py:115-139 | only the bucket of the own kind, backend and GPU name grows, at its end |
| Collector.UnitsSplitWithoutLoss | profiling/plan.py:141-160 | the units hold every recorded spec once, under its own kind, backend, key and GPU count, and no unit is empty |
| Collector.CollectedOnce | profiling/plan.py:115-166 | every collected measurement occurs exactly once |
| Allocation.SliceOversized | profiling/plan.py:314-370 | the loop returns the cut and sorted queue and labels the units it cut |
| Allocation.CutOneBounds | profiling/plan.py:354-369 | cut pieces have at least 16 specs, and no unit left is above max(31, total div cards + 1) |
| Allocation.CutExactlyWhenDominant | profiling/plan.py:352-369 | a unit is cut exactly when it is above the even share and can be, into as few pieces as bring it down to a quarter of that share, no more than there are cards and none under 16 specs, dealt round-robin |
| Allocation.LabelsTell | profiling/plan.py:363-369 | one label for each unit cut, with its kind, backend and pieces; with the units left whole the pieces make up the queue |
| Allocation.QueueFacts | profiling/plan.py:352-370 | specs conserved, fewer than `cards` units cut, the size bound, largest first |
| Allocation.TakeNext | profiling/plan.py:373-402 | with fewer units than free cards and 32 specs in the head, the head becomes as many pieces of 16 specs as it holds but no more than there are free cards, the first handed out, the others in its place, and labeled; otherwise it goes out whole; the `pieces < 2` branch is dead |
| Allocation.TailSplitSizes | profiling/plan.py:392-402 | a tail split's pieces have at least 16 specs and do not outnumber the free cards |
| Allocation.NextPieceFacts | profiling/plan.py:373-402 | taking a piece conserves the specs and is paid for by the budget, the sum of max(1, size div 16) |
| Dispatch.IssueMulti | profiling/plan.py:278-290 | multi-GPU units run alone on the first cards of the pool; exactly the too large are reported |
| Dispatch.FillFreeCards | profiling/plan.py:297-301 | one such taking after the other, each with one free card fewer, the last card first, until cards or units run out; cards stay partitioned, finished, running and pending work balanced |
| Dispatch.CollectDone | profiling/plan.py:304-310 | any set of completions, in any order, returns its cards and keeps the balance |
| Dispatch.DispatchSingles | profiling/plan.py:292-311 | the dispatch loop ends with every single-GPU spec run once and all cards free, within the budget |
| Dispatch.Issue | profiling/plan.py:225-311 | every collected spec the pool can run goes to exactly one run, the too large are reported, no card is overcommitted, runs are bounded |
| Dispatch.FailuresName | profiling/plan.py:278-310 | one failure for each refusal and each run that raised or left a spec unmeasured, with its kind, backend and GPUs, and no others |
| Dispatch.NoFailuresMeansMeasured | profiling/plan.py:262-273 | no failure is reported exactly when nothing was refused and all that ran was measured |
| Dispatch.NoFailuresVerdict | profiling/plan.py:275-311 | all collected specs are measured exactly when no failure is reported and no spec is silently dropped |
| Dispatch.ZeroCountSpecIsDropped | profiling/plan.py:275-276 | a spec with GPU count 0 is neither run nor reported |
| ProfileApi.WalkChannelsAgree | profiling/facade.py:359-387 | for any walk, recorded never exceeds counted, and one is zero exactly when the other is |
| ProfileApi.NoMismatchAfterWalk | profiling/perf_api.py:93-106 | both mismatch errors are unreachable after a walk with one collector |
| ProfileApi.AbsentPlaces | profiling/facade.py:376-386 | recorded are exactly the asked specs not present, in the order asked |
| ProfileApi.WalkCollectsMissing | profiling/facade.py:367-387 | whatever a walk finds missing is among what `issue` is handed, under the kind, backend and GPU name it was missing under |
| ProfileApi.ProfileSession.CountMissing | profiling/facade.py:359-387 | the misses are counted, and recorded when a collector is installed |
| ProfileApi.ProfileSession.BeginCollect | profiling/perf_api.py:50-64 | a fresh empty collector replaces whatever was installed |
| ProfileApi.ProfileSession.IssueCollected | profiling/perf_api.py:67-134 | which error is raised when, and what a clean return says was measured |
| SimQueue.SubmittedKeeps | public_api/simulate.py:608-615 | submitting keeps the queue, worker, status and disk invariants |
| SimQueue.DeletedKeeps | public_api/simulate.py:638-646 | deleting keeps them |
| SimQueue.BegunKeeps | public_api/simulate.py:653-672 | starting the head, or failing to, keeps them |
| SimQueue.FinishedKeeps | public_api/simulate.py:682-696 | finishing keeps them, also when the run was deleted meanwhile |
| SimQueue.SweptKeeps | public_api/simulate.py:580-596 | a whole prune keeps them |
| SimQueue.LoadedKeeps | public_api/simulate.py:552-578 | reading a record back keeps them |
| SimQueue.LookupsSucceed | public_api/simulate.py:624-656 | the two lookups cannot fail, a run of the table runs iff it holds a process, at most `max_running` hold one |
| SimRuns.StepKeepsInv | public_api/simulate.py:531-696 | every step of any thread, process, disk or crash keeps the whole invariant |
| SimRuns.ReachableStatesAreSafe | public_api/simulate.py:580-696 | safety in every reachable state: the queue is exactly the queued runs, bounds, FIFO minus deleted runs, `done` only after exit 0 with a summary |
| SimRuns.StatusMovesForward | public_api/simulate.py:605-696 | a status moves only queued to running to terminal, or to failed or cancelled |
| SimRuns.TerminalStatusIsFinal | public_api/simulate.py:605-696 | over any crash-free run a terminal status never changes |
| SimRuns.AnswerAgreesExactlyWhen | public_api/simulate.py:617-634 | whatever happens after `get` lets the lock go, a summary comes only with `done`, and the answer agrees with itself exactly when the run has not moved, or has ended otherwise than `done` while running |
| SimRuns.DeletedStaysGone | public_api/simulate.py:636-649 | over any crash-free run a deleted run is never in the table again |
| SimOutcomes.StatusMeans | public_api/simulate.py:636-696 | over all runs, crashes and restarts included, in memory and on disk: timed out only by the time-out, failed only if it could not start, exited nonzero, left no summary or was interrupted by a restart, done only by exit 0 with a summary, cancelled only by a delete |
| SimOutcomes.ReasonGivesStatus | public_api/simulate.py:676-696 | each of these gives that status, in memory and on disk |
| SimOutcomes.StampsMean | public_api/simulate.py:651-696 | a run keeps its age, and its start and end but where a step is its start or end, which is then now |
| SimOutcomes.NewcomersAre | public_api/simulate.py:552-616 | a run that becomes known is a fresh queued one or its record read back, an unfinished one ended now |
| SimOutcomes.RefusedExactlyWhenFull | public_api/simulate.py:605-616 | a submission is refused exactly when as many runs wait as may, else it waits last, in the table and on disk |
| SimOutcomes.PruneTakesExactly | public_api/simulate.py:580-594 | a prune takes exactly the ended runs older than `keep_s`, and sends their directories to be removed |
| SimOutcomes.SweptKeepsExactly | public_api/simulate.py:580-597 | undisturbed it removes exactly their directories and the aged ones of no run |
| SimOutcomes.ProcessesAreSpawned | public_api/simulate.py:651-673 | a process comes into being only for the head of the queue, where it is spawned |
| SimRestart.DurableTerminalKeepsStatus | public_api/simulate.py:494-499 | a durable terminal record is lost at a step exactly when its files are unlinked or two saves of the run collide; its status is never rewritten |
| SimRestart.OnlyDeletedOrExpiredLeave | public_api/simulate.py:580-649 | a run leaves the table only by deletion or, when terminal, by age, and its directory outlives its entry |
| SimRestart.SoloSavesKeepRecords | public_api/simulate.py:494-499 | as long as no two saves of one run overlap, every run of the table has a readable record that tells of it |
| SimRestart.OverlapTears | public_api/simulate.py:625-628 | from any sound state, a `get` about to open the `.tmp` another is saving can leave an unreadable record |
| SimRestart.OverlappingGetsLoseRun | public_api/simulate.py:625-628 | a run of the service after which a done run, neither deleted nor expired, is gone |
| SimRestart.RestartRecovers | public_api/simulate.py:552-596 | after a crash at any point and any crashes while loading: nothing queued or running, exactly the runs with a readable unexpired record visible, unfinished ones failed, finished ones unchanged |
| SimRestart.DeletedComesBackOnlyIf | public_api/simulate.py:636-649 | a deleted run comes back only if its files were not unlinked yet, or a `get` saved it after they were |
| SimRestart.CrashBringsDeletedRunBack | public_api/simulate.py:639-649 | a run of the service that shows a deleted run as done after a restart |
| SimRestart.LateSaveBringsDeletedRunBack | public_api/simulate.py:625-649 | one that does so although `delete` had returned |
| SimService.Simulations.constructor | public_api/simulate.py:511-541 | a new service over any run directories holds what loading and pruning leave |
| SimService.Simulations.Submit | public_api/simulate.py:605-616 | a prune, then the step `Submitted`; refused exactly when the queue is full, or the directory is gone |
| SimService.Simulations.Get | public_api/simulate.py:617-634 | undisturbed, status and queue position are answered truly; a done run without a run id takes what the Analyzer answers, saved exactly when it names a run |
| SimService.Simulations.Delete | public_api/simulate.py:638-646 | the objects move as the step `Deleted`; the process to kill is the one the run held |
| SimService.Simulations.StartNext | public_api/simulate.py:653-672 | the objects move as the step `Begun` |
| SimService.Simulations.Finish | public_api/simulate.py:675-696 | the objects move as the step `Finished`, with the verdict by time-out, exit code and summary |
| SimService.Simulations.Prune | public_api/simulate.py:580-596 | exactly the expired runs leave the table and the disk, with the aged directories no run has |
| SimService.Simulations.Load | public_api/simulate.py:552-577 | the loop over record files loads each readable one, unfinished ones as failed |
| CacheKey.CacheKey | launcher/cache_build.py:44-66 | the loops collect the key's dotted entries, sorted |
| CacheKey.SortIsCanonical | launcher/cache_build.py:66 | two sorted lists are equal exactly when they hold the same entries |
| CacheKey.SharedBuild | launcher/cache_build.py:44-66 | over the leaves the registry's walk can find, two sets share a key exactly when they agree on deployment, tagged leaves and provider tags, whatever the roles are called |
| CacheKey.KeyMeans | launcher/cache_build.py:44-66 | sets of one key have the same deployment, set the same tagged leaves and have the same provider tags; and sets that do, no leaf found twice, have one key |
| CacheKey.SameNameSamePlace | launcher/schema/loader.py:282-344 | the dotted name tells the leaf, read from the right past a role with dots in it |
| CacheKey.UniqueByCacheKey | launcher/cache_build.py:69-80 | the loop returns the representatives |
| CacheKey.RepresentativesFacts | launcher/cache_build.py:69-80 | no key twice, none lost, only given sets |
| CacheKey.FirstIsRepresentative | launcher/cache_build.py:69-80 | each key is represented by the first set that has it |
| CachePrebuild.StepKeepsInv | launcher/cache_build.py:137-287 | a step keeps lease, coverage, work and row invariants exactly when it is not a death that leaves a builder with rows to write |
| CachePrebuild.OrphansComeFromDeaths | launcher/process/supervisor.py:138-157 | nothing comes to run outside the leases exactly when no launcher dies leaving a child |
| CachePrebuild.TrueMeansCovered | launcher/cache_build.py:164-287 | in every run, whoever dies, True means every parameter set is covered, and a simulation after it misses nothing |
| CacheAnswers.AnswerExactlyWhen | launcher/cache_build.py:137-287 | in every run, a call that answered and was not killed answered False exactly when a probe, its GPU check, a build or a verification of its failed, or a row was still missing then; True only when none did |
| CacheAnswers.WarmCacheNeedsNoExclusiveLease | launcher/cache_build.py:164-191 | a launcher that finds every row there when it arrives never wants the exclusive lease, whatever others do |
| CachePrebuild.NoRowIsBuiltTwice | launcher/cache_build.py:200-251 | builders work off what they found missing as they started, and yet no row is built twice, while no death leaves rows to write |
| CachePrebuild.BuildsRunAlone | launcher/cache_build.py:191-251 | no build overlaps a build, a probe or a simulation, while no death leaves a child |
| CachePrebuild.RepresentativesCoverAll | launcher/cache_build.py:69-80 | covering the representatives covers every parameter set |
| CachePrebuild.FillStartsWithRowsMissing | launcher/cache_build.py:200-251 | a builder starts only under the exclusive lease, alone, with rows of its key still missing |
| CachePrebuild.CoveredKeyIsNeverFilledAgain | launcher/cache_build.py:200-222 | once a key is covered no later run starts a builder for it |
| CachePrebuild.SomeoneCanMove | launcher/cache_build.py:164-191 | no deadlock: while a launcher is unfinished, some launcher or simulation can move |
| CachePrebuild.OrphanIsOverlapped | launcher/process/leases.py:1-6 | from any sound state, a builder can run beside a builder or simulation its launcher left behind exactly when some key misses a row |
| CachePrebuild.OrphanBuildsTwice | launcher/process/leases.py:1-6 | after a launcher died alone a row can be built twice exactly when its builder still had rows to write |
| CachePrebuild.OrphanBreaksExclusion | launcher/process/supervisor.py:138-157 | a run from the start in which a builder that outlived its launcher runs beside another |
| CommitMarker.StepKeepsInv | launcher/sweep.py:127-262 | lease, runs and their pasts survive every step, and the files stay traceable to the last run exactly when the step is not a death that leaves a simulation |
| CommitMarker.ReachableStatesExclude | launcher/sweep.py:60-69 | whoever dies and whatever is left behind: one launch holds the directory, no marker while it simulates, and a marker stands for the simulation started last, which exited zero and passed validation |
| CommitMarker.ReachableStatesAreSafe | launcher/sweep.py:60-69 | as long as no death leaves a simulation, none runs outside the lease and a marked directory's required files are all of that simulation |
| CommitMarker.MarkedIsCertifiedExactlyWhen | launcher/process/supervisor.py:138-157 | in any run at all, a marked directory's required files are of one simulation that exited zero and passed exactly when none left behind wrote one since the marked one ended |
| CommitMarker.StaleExactlyWhen | launcher/process/artifacts.py:21-53 | under a marker a file is of an earlier simulation exactly when that one had left it and the marked one wrote none; never a required file |
| CommitMarker.SkipUnderLeaseIsSound | launcher/sweep.py:127-136 | a launch that skips under the lease skips a complete directory whose marked simulation exited zero and passed, with all required files its own while none is left behind |
| CommitAnswers.AnswerExactlyWhen | launcher/sweep.py:127-262 | in every run, a launch not killed has skipped, failed or succeeded exactly when it has found good artifacts after the marker; had its prebuild, simulation or validation fail; or set the marker |
| CommitAnswers.SkipsExactlyComplete | launcher/sweep.py:60-69 | with the lease free a launch without refresh skips exactly over a marker and good artifacts, changing nothing, and otherwise goes on |
| CommitAnswers.RefreshNeverSkips | launcher/sweep.py:127-136 | a refresh never skips, in any run |
| CommitAnswers.ConfiguresAfterLook | launcher/sweep.py:127-136 | without a refresh a launch configures its run only from a look that found no marker or no good artifacts |
| CommitAnswers.MetadataLandsFirst | launcher/sweep.py:149-160 | in every run a launch past the start of its simulation finds its own config and metadata on disk, a single run also its own preset |
| CommitMarker.GlanceIsSoundExactlyWhen | launcher/sweep.py:440-447 | whatever runs between its two reads, the unleased check skips a certified directory exactly when no required file was written, or the last to write one was validated with all of them its own |
| CommitMarker.MarkerLastIsSoundExactlyWhen | launcher/sweep.py:60-69 | a check that read the artifacts first and the marker last would be sound without the lease exactly when no simulation left behind had written since the marked one ended |
| CommitSpoils.SpoiltExactlyAfterLoneDeath | launcher/process/leases.py:1-6 | from any sound state, a step opens the way to an accepted, uncertified directory exactly when it is a death that leaves a simulation |
| CommitSpoils.OrphanWritesIntoMarkedRun | launcher/process/supervisor.py:148-157 | a run from the start in which a simulation that outlived its launcher writes into a marked directory of other params |
| CommitSpoils.StaleStateIsAccepted | launcher/process/artifacts.py:45-52 | a run without deaths after which the accepted files hold one of a simulation that failed |
| CommitConfig.StepKeepsConfig | launcher/sweep.py:149-160 | the stored config and metadata stay the marked run's own after a step exactly when it is not a death between config write and unlink over other params |
| CommitConfig.StepKeepsShared | launcher/sweep.py:336-340 | the stored preset and git snapshot stay the marked run's own, if there are any, exactly when no launch gives up between writing its own and the unlink over other params, and no sweep's run is marked beside a foreign one |
| CommitConfig.AcceptedConfigMatches | launcher/sweep.py:149-160 | without such deaths an accepted, unleased directory's config and metadata are those of the run its marker stands for |
| CommitConfig.AcceptedPresetMatches | launcher/sweep.py:336-340 | without such steps so is its preset |
| CommitSpoils.DeathLeavesForeignConfig | launcher/sweep.py:149-160 | a run after which an accepted directory has a foreign config |
| CommitSpoils.FailedPrebuildLeavesForeignPreset | launcher/sweep.py:336-340 | a run without deaths after which an accepted directory has a foreign preset |
| CommitSpoils.SweepRunKeepsForeignPreset | launcher/metadata.py:197-199 | likewise, where a sweep's run follows a single run |
| CommitSpoils.GlanceCanSkipRunningSimulation | launcher/sweep.py:440-447 | a run in which the unleased check skips a directory being simulated |
| SweepGeometry.ExperimentRoot | launcher/sweep.py:502-512 | the loops end with the deepest directory at or above every run directory's parent |
| SweepGeometry.RootIsStrictlyAbove | launcher/sweep.py:502-512 | it is the deepest common strict ancestor exactly when no run directory is the file-system root |
| SweepGeometry.LaunchersClimb | launcher/sweep.py:425-426 | a sweep task's leases climb the order, and its root is not its run directory, exactly when the run directory is not the file-system root |
| SweepGeometry.OtherPlansClimb | launcher/sweep.py:318-340 | single runs and prebuilds take their leases in the same order |
| SweepGeometry.NoCircularWait | launcher/sweep.py:127-182 | tasks that take leases in that order never wait in a circle |
| RateLimits.RateLimiter.Admit | public_api/limits.py:29-45 | answer and table are those of the specified call, the raise included |
| RateLimits.RateLimiter.Refund | public_api/limits.py:47-51 | the client's latest stored time goes, if there is one |
| RateLimits.EachClientIsLimited | public_api/limits.py:29-51 | for calls in clock order: counted times sorted and spaced, the deque their recent end, at most `limit` long |
| RateLimits.UnrefundedIsCountedExactlyWhen | public_api/limits.py:47-51 | the times kept are those of the requests counted and not rejected exactly as long as each refund names its client's latest counted request |
| RateLimits.AtMostLimitInAnyWindow | public_api/limits.py:1-10 | calls in clock order, refunds for the latest: any half-open window holds at most `limit` requests counted and not rejected, so no more are served |
| RateLimits.CountingKeepsWindowsExactlyWhen | public_api/limits.py:34-38 | whatever came before in whatever order, counting a request keeps every window within the limit exactly when there is room |
| RateLimits.UnrefundedBoundedExactlyWhen | public_api/limits.py:29-51 | for any calls and refunds at all, no window is ever overfilled exactly when every request counted had room |
| RateLimits.TestIsRoomInOrder | public_api/limits.py:34-36 | in clock order the limiter's test is that room |
| RateLimits.RefusesExactlyWithoutRoom | public_api/limits.py:29-38 | given both conditions a client is refused exactly when there is no room |
| RateLimits.AnswerIsByCount | public_api/limits.py:34-45 | refused exactly when `limit` recent times are stored, for a positive wait; raises exactly when the full table holds an empty deque |
| RateLimits.WaitIsExact | public_api/limits.py:36-37 | an undisturbed retry is refused before the wait is over and not after, whatever others did |
| RateLimits.ForgettingChangesNoAnswer | public_api/limits.py:39-44 | forgetting idle clients changes no later answer |
| RateLimits.ForgetsExactlyIdle | public_api/limits.py:39-44 | past 10,000 clients a counted request leaves in the table exactly those with a request within the window, with their times |
| RateLimits.OnlyRefundsRaise | public_api/limits.py:42 | without refunds no deque is ever empty and no call raises |
| RateLimits.RefundThenFullTableRaises | public_api/limits.py:39-51 | a reachable call that raises |
| RateLimits.SwappedCallsOverfillWindow | public_api/limits.py:32-33 | calls counted out of clock order let three requests into a window of two |
| RateLimits.RefundOfEarlierOverfillsWindow | public_api/app.py:108-123 | a refund for the earlier of two requests lets three be served in a window of two |
| Acceptance.AcceptanceCounts | alignment/workload_input.py:15-41 | the counters count each request's trials; the first fault is raised |
| Acceptance.TrialsAre | alignment/workload_input.py:28-33 | a request's trials are its own steps that advance output, each as often as recorded |
| Acceptance.FirstFaultMeans | alignment/workload_input.py:28-36 | there is no fault exactly when every step is of a request of the trace and advances no output or accepts no more than it drafts; else it is that of the first that is not |
| Acceptance.Conditional | alignment/workload_input.py:37-40 | denominator[i+1] <= numerator[i] <= denominator[i] |
| Acceptance.NumeratorsSumToAccepted | alignment/workload_input.py:37-40 | the numerators sum to the accepted tokens counted |
| Acceptance.DenominatorsSumToTried | alignment/workload_input.py:37-40 | the denominators sum to the draft tokens tried, of each trial those accepted and the first rejected |
| Acceptance.ProductTelescopes | alignment/workload_input.py:37-40 | at full draft depth the product of rates is the fraction of trials accepting more than i tokens |
| Acceptance.PoolCountsAllTrials | alignment/workload_input.py:69-70 | the pooled counters count every trial of every request once |
| Acceptance.PooledProductTelescopes | alignment/workload_input.py:69-71 | the pooled rates telescope likewise |
| Acceptance.PrepareRates | alignment/workload_input.py:72-83 | the nested loops succeed exactly when every position can be rated, with these rates and fallbacks, and else name the first that cannot |
| Acceptance.PrepareWorkload | alignment/workload_input.py:65-84 | from the steps to the rates: at each position the fraction of the request's own trials that passed, or of all trials where it has none; exactly those are reported; it succeeds exactly when no step is at fault and the last position has evidence |
| Acceptance.PreparedProductTelescopes | alignment/workload_input.py:72-83 | at full draft depth the product of a prepared row's own rates is the fraction of its trials accepting more than i tokens |
| Acceptance.PreparedExactlyWhen | alignment/workload_input.py:72-83 | preparation succeeds exactly when the last draft position has evidence: of each request, or with the fallback of any |
| Acceptance.FallbacksAreASuffix | alignment/workload_input.py:76-80 | positions without evidence are a suffix of the chain, and exactly those are reported |
| Acceptance.RatesAreProbabilities | alignment/workload_input.py:71-83 | every rate lies between 0 and 1 |
| LabeledSequences.SequencePositions | launcher/alignment_config.py:544-580 | accepted exactly when the claims are well formed, with exactly the positions claimed |
| LabeledSequences.CheckShape | launcher/alignment_config.py:771-819 | a kernel's shape is accepted exactly when its label is well formed |
| LabeledSequences.Labels.CheckProgram | launcher/alignment_config.py:729-768 | accepted exactly when good and consistent with what is known; counts and records the unrolled program |
| LabeledSequences.Labels.CheckTracks | launcher/alignment_config.py:688-726 | dense tracks whose counts are their unrolled lengths, consistently labeled, and no others |
| LabeledSequences.Labels.CheckSequences | launcher/alignment_config.py:640-684 | distinct ids, disjoint positions, true counts and consistent labels, and no others |
| LabeledSequences.NodeFacts | launcher/alignment_config.py:738-767 | a folded node has its body's kernels, and the counted number of them |
| LabeledSequences.ConsistentBoth | launcher/alignment_config.py:819-828 | checking each part against what was recorded before decides the whole |
| LabeledSequences.LoadLabeledKernelSequences | launcher/alignment_config.py:583-685 | accepted exactly when header and all parts are good with one signature per operation across phases; records exactly the unrolled signatures and slot owners |
| LabeledSequences.AcceptedMeans | launcher/alignment_config.py:640-726 | in an accepted inventory no position has two sequences, a sequence's and each track's count is its unrolled length and the tracks' add up to the sequence's, track indices are dense |
| LabeledSequences.FitTogetherExactlyWhen | launcher/alignment_config.py:819-823 | kernels fit together exactly when each is well formed and any two of one operation agree on slots, type and role |
| LabeledSequences.RecordedAre | launcher/alignment_config.py:819-828 | recorded are exactly the operations, with the slots, type and role their kernels carry, and exactly the operations that declare a slot |
| LabeledSequences.WellFormedExactlyWhen | launcher/alignment_config.py:771-818 | a kernel is well formed exactly when its names are not blank and its label is one of three forms |
| LabeledSequences.HeaderExactlyWhen | launcher/alignment_config.py:590-626 | which version has which encoding, devices and representative |
| LabeledSequences.SequenceExactlyWhen | launcher/alignment_config.py:640-684 | what a sequence holds in which version, and its count |
| LabeledSequences.ProgramExactlyWhen | launcher/alignment_config.py:735-760 | nodes are kernels, or a body repeated at least twice, none empty |
| LabeledSequences.TracksExactlyWhen | launcher/alignment_config.py:701-726 | dense tracks of the two roles with their true counts |
| LabeledSequences.PositionsAre | launcher/alignment_config.py:544-580 | a position is an iteration up to version 3, a device's iteration from 4 on |
| LabeledSequences.NodeUnrolls | launcher/alignment_config.py:738-767 | a repeat is that many copies of its body, one after the other |
| GlobalOptions.TakeGlobalOptions | launcher/cli.py:52-85 | the loop splits the line as the recursive specification does, each error included |
| GlobalOptions.RoundTrip | launcher/cli.py:52-85 | printing the options before the rest and splitting again is the identity; the rest holds no option and is a subsequence of the line |
| GlobalOptions.ScanMerges | launcher/cli.py:60-82 | what a piece of a line says after any other is what it says alone, merged, or the conflict error |
| GlobalOptions.PiecesInEitherOrder | launcher/cli.py:52-57 | two pieces in either order give the same flags and remote, or disagree about it |
| GlobalOptions.OptionSays | launcher/cli.py:68-82 | either spelling of an option, parted at the first equals sign, gives its value, or the error for a missing or dashed value or an assignment without equals sign |
| GlobalOptions.AssignmentsNeedRemote | launcher/cli.py:83-85 | beyond that a line is refused exactly when it assigns to a remote it does not name |
| DottedPaths.GetAfterSet | launcher/cli.py:88-106 | what was set is what is read |
| DottedPaths.LastWriteWins | launcher/cli.py:88-106 | a second write to a path is as if it were the only one |
| DottedPaths.OthersUntouched | launcher/cli.py:88-106 | a disjoint path reads as before, present or missing |
| DottedPaths.DisjointSetsCommute | launcher/cli.py:88-106 | assignments to disjoint paths commute, also where dictionaries are made on the way |
| DottedPaths.NumbersNameItems | launcher/cli.py:96-104 | in a list the segment k is item k, -k the k-th from the end, setting and reading that item alone; any other number is out of range |
| DottedPaths.SegmentsNameEntries | launcher/cli.py:95-106 | in a dictionary a segment is a name, and a missing entry the path goes through starts as an empty dictionary |
| DottedPaths.AssignmentIsRead | launcher/cli.py:118-126 | of `path=value` the path is what stands before the first equals sign, spaces around it aside, split at its dots; the value is the rest |
| DottedPaths.ApplyDotted | launcher/cli.py:109-127 | the loop applies the assignments in order up to the first error |
| DottedPaths.AssignmentsCommute | launcher/cli.py:109-127 | two assignments to disjoint paths may be given in either order |

## Left out

Assumptions:

- Leases are ideal reader/writer locks and mutexes, free when their holder dies; polling, holder records and fairness are not modelled.
- A simulation that exits zero has written the files the validator requires of it; of `request_state` that says nothing. Whether a file is good is a yes/no answer.
- The validator's reads of the files are one step, and so are the writes of config, of run metadata and of shared metadata. Params stand for all that such metadata tells of a launch.
- The registry names parameters by identifiers, and none of an arch or worker block `placement`.
- Equal cache keys need the same rows, and rows are never deleted.
- `execute_profile_batch` is an oracle: it raises, or returns one result per spec, some unmeasured.
- A builder reads the database once, as it starts, and works off the rows it missed; a simulation likewise.
- `os.replace` is atomic, one `write` is one step, and a file written over other contents is taken for unreadable; a `save` under the lock, which no other save of its run can meet, is one step. Removing a directory is two steps, its files and then itself; a service that dies half-way through the files is not modelled.

What the model does not capture:

- Termination of `issue` under a completion that never comes: the oracle always answers.
- Threads waking on the condition variable, and that waiting workers eventually run: safety is proved, not liveness, apart from `CachePrebuild.SomeoneCanMove`.
- `SimService` runs each function undisturbed; what other threads do between the lock and the removal of directories, or during a `get`'s save, is in `SimRuns` and `SimRestart`.
- SimService.Simulations.Get: what it answers undisturbed; the record is read after the lock is let go, and of what others then move only the status is followed (`SimRuns.AnswerAgreesExactlyWhen`), not times, error or summary text.
- In `prune`, the check of a stray directory's age and its removal are one step.
- `record`, `request`, error texts, `summary` and the failure cause of a simulation are not modelled.
- The lookup of the Analyzer's run id is an arbitrary answer.
- Floating point: times and rates are exact numbers.
- Specs, parameter values and rows are abstract values with equality in place of their `repr` or JSON form.
- CacheKey.CacheKey: a leaf's value is a string, so that Python refuses to compare values of different types while sorting is not modelled.
- JSON shape checks of `load_labeled_kernel_sequences` (unknown or missing keys, types) are left to the typed records; only the space characters of ASCII count as blank, not those beyond.
- LabeledSequences.LoadLabeledKernelSequences: which fault is raised first, and its text, are not modelled, only that one is.
- DottedPaths.ApplyDotted: the nested tree is rebuilt rather than a deep copy written in place, so that the argument stays unchanged is immediate; JSON parsing is an arbitrary function of the text; list positions are plain decimal integers.
- `_sweep_axes`, `_manifest_member` and `_write_sweep_manifest` are not part of this model: their claims are settled by reading one loop each.
- `report_cache_coverage`, `_prebuild_log_dir`, journals, managed-run callbacks, rendering and analysis change none of the state modelled here.
- `prepare_workload`'s files, manifest and replay validation, and the other readers of configuration in `alignment_config.py`, are not modelled.
- The Rust simulator, its caches and its analyzer.
