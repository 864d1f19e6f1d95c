# A verified model of poll-ci

poll-ci polls Git branches, runs each new commit's checks in containers, posts commit
statuses, and optionally fast-forwards a deploy branch. This project models the parts of it
that are hard to get right and proves what they promise:

- **The scheduler** (`Scheduler.dfy`): `runUnits` as a transition system with one step per
  critical section. A launcher takes turns with the workers under a mutex and a condition
  variable, with a count cap and a CPU budget over positive reals; a cancellation may land
  between any two steps. Whether a unit would succeed is a parameter (`truth`), so every
  theorem is about all outcomes, schedules, caps and budgets.
- **The gate** (`Gate.dfy`): `runCommit` around the scheduler, with the exact log of posted
  statuses as its invariant.
- **The engine** (`Lifecycle.dfy`, with `LifecycleSafety.dfy`, `LifecycleVerdicts.dfy`,
  `LifecycleLoop.dfy`, `LifecycleStore.dfy`, `Recovery.dfy`, `Stranded.dfy` and
  `Coverage.dfy`): start-up reconciliation, the sweep over branches and pull requests,
  short-circuiting, promotion, marking and skipped-commit marking, over a status ledger keyed
  by commit and context and the persisted seen, last and in-flight maps. Remote heads appear and
  move, old entries are pruned, git and API calls fail, and shutdown arrives between any two
  steps; a deleted branch is one whose calls fail from then on; a crash is a run that stops
  anywhere, and a restart is a new run over the store and the ledger it left.
- **The outcome of a check** (`CheckOutcome.dfy`): what `docker start`, `inspect` and `wait`
  tell about a container that moves on its own.
- **The store and its keys** (`StateFile.dfy`, `Keys.dfy`), **the reconcile loop**
  (`Reconcile.dfy`), **skipped commits** (`Skipped.dfy`) and **the paged status listing**
  (`Statuses.dfy`), as classes and loops over the same maps the program updates.
- **Strings, bytes and directories**: shell quoting and the prime script against a lexer and a
  parser of the POSIX shell grammar it uses (`Shell.dfy`, `PrimeScript.dfy`), the golden-cache
  swap (`GoldenCache.dfy`), the output buffers (`Buffers.dfy`), secret scrubbing
  (`Scrub.dfy`), hash input framing (`Framing.dfy`), and the guarantees of the configuration
  parser that all of the above start from (`RepoConfig.dfy`), with the docker caps that its
  hints turn into (`CpuCaps.dfy`).

`Common.dfy` holds the shared vocabulary and sums over sequences. `Shell.dfy` follows
POSIX.1-2017 XCU sections 2.2.1 and 2.2.2 (quoting), 2.3 (token recognition) and 2.9 (commands).

## Where the code does less than its comments or documentation say

Each of these is a theorem of the model: the exact condition under which the claim holds, a run
in which it does not, or both.

- `state.go:167-168` says an owner/name cannot contain `@`; `parseRef` (`config.go:446-448`)
  only excludes `/`. The pruning shield protects a branch's last commit if and only if the
  repository name has no `@` (`StateFile.ShieldExact`), so a branch's last tested commit is
  sure to count as processed if and only if there is none (`StateFile.TipIsNeverForgotten`),
  and the in-flight keys of two repositories can clash if and only if one name is the other's
  with `@` and more behind it (`Keys.KeysClashExactly`).
- `README.md:894-895` says stranded statuses are resolved at the next start-up. A marker whose
  commit is still the tip is cleared at once (`runner.go:337-340`). If that branch moves before
  the next poll and no other branch of the repository is at the commit, its unit statuses stay
  pending through every sweep until a branch or a pull request comes to it, whatever is marked
  skipped; its rollup too, unless a list of skipped commits names it
  (`Stranded.MoveAfterReconcileLeaks`). In general a status left pending is closed if and only
  if a run on its commit is concluded, reconciliation posts on it, or it is a rollup that gets
  marked skipped (`Stranded.ClosedExactly`).
- `runner.go:346-348` keeps a marker "for the next start" when its statuses cannot be listed.
  It is still there then if and only if no run begins under its key first
  (`LifecycleStore.KeptMarkerLastsExactly`); the next run of the branch overwrites it
  (`LifecycleStore.KeptMarkerIsOverwritten`).
- `github.go:118-154` reads at most 300 entries of a commit's status history: a context is
  listed if and only if its newest entry is among them (`Statuses.OldContextsAreMissed`).
- `github.go:209-211` relies on a compare list of at most 250 commits; when more lie between two
  tested commits, some skipped commit is left without a status (`Coverage.LongGapsLeaveHoles`), and
  a sweep from a start gets there (`Coverage.LongGapRun`).
- `cache.go:259-260` calls the golden-cache swap atomic. Between its two renames the directory
  is absent (`GoldenCache.SwapLeavesAGap`), and the two `os.RemoveAll` calls whose errors are ignored can leave a mixture in
  it; `GoldenCache.TornExactly` says when.
- `util.go:139-141` says the lockfile hash changes exactly when dependencies change. With NUL
  bytes in a lockfile that holds if and only if at most one file is listed
  (`Framing.NoticesEverythingExactly`); without them it always does.
- `util.go:112-113` says no secret survives scrubbing. Some text lets a secret survive if and
  only if the secret starts or ends with `*` or contains `***` (`Scrub.SurvivesExactly`); all
  others are gone from every text, in any list (`Scrub.Scrub`).
- `config.go:311-322` makes check names unique, but not contexts: they are all different if and
  only if no check is called `promote`, and none `trivy` next to a scan
  (`RepoConfig.ContextsDistinctExactly`).
- `runner.go:398-401` says the sum of the running `--cpus` caps never exceeds the budget, and
  `README.md:507` that a parallel check is capped to its cost. A check without a hint costs 1
  but is capped at CHECK_CPUS or not at all, and a hint above the budget is clamped for the
  scheduler only (`runner.go:909-914`). The claim holds if and only if no set of units that can
  run together has caps above the budget (`CpuCaps.CapsHoldExactly`, with a concrete failure in
  `CpuCaps.CapsCanExceed`).

## Model

| member | source | states |
|---|---|---|
| Scheduler.SchedulerSafety | runner.go:394-443 | in every reachable state of every interleaving, `running` is the size of the live set, `used` the sum of its costs each limited to the budget, both caps hold, and a unit as heavy as the budget is alone while live |
| Scheduler.HeavyRunsAlone | runner.go:398-400 | a unit whose cost reaches the budget shares the budget with no other live unit |
| Scheduler.NoOversubscription | runner.go:394-401 | in every reachable state in which two or more units hold a slot, their costs as configured add up to at most the budget, and they are at most maxCount |
| Scheduler.HeldBackExactly | runner.go:419-436 | the launcher waits before a unit if and only if some unit holds a slot and either the count cap is reached or the running costs plus this one, each limited to the budget, exceed it; otherwise the unit starts, unless the run was cancelled |
| Scheduler.CancelStopsUnits | runner.go:432-449 | from a cancellation on, in every continuation, no unit is launched, and none that has not passed its context check by then posts a result or counts as completed |
| Scheduler.SleepIsJustified | runner.go:423-431 | no lost wake-up: a launcher that is asleep with no wake pending still has its guard true, and some live unit will wake it |
| Scheduler.NeverStuck | runner.go:418-462 | for every reachable state before the return there is an enabled step that is not a cancellation |
| Scheduler.MeasureDecreases | runner.go:418-462 | every step that is not a cancellation strictly lowers a measure bounded from below |
| Scheduler.BoundedSteps | runner.go:418-462 | so any schedule for n units has at most 14n + 3 steps besides cancellations |
| Scheduler.ParallelRefinesSerial | runner.go:394-463 | uncancelled, the failure count, the completed flags and the multiset of posted results are those of running the units one by one, whatever the schedule, cap and budget |
| Scheduler.RunUnitsContract | runner.go:402-404 | cancelled or not: the launched units form a prefix, `failed` counts the completed failures, a completed unit has posted its real result exactly once, and an incomplete one has posted nothing and implies a cancellation |
| Scheduler.StepInv | runner.go:405-463 | the counters, the launched prefix and the posted results stay consistent with the per-unit states across every step and every cancellation |
| Gate.StepInv | runner.go:474-573 | at every point of a run its status log is exactly the announcements, then the results posted so far, then the closing posts |
| Gate.GateTrace | runner.go:504-573 | for an uncut or superseded run, in every interleaving, each announced context gets `pending` and then exactly one terminal status, completed units keep their real result, nothing else is posted, and the terminal `ci` comes last: success iff every unit succeeded, error iff one was cut |
| Gate.ShutdownTrace | runner.go:564-566 | a run cut by shutdown leaves each context of a step that did not complete, and the rollup, pending, and the others with their results |
| Gate.UnitTrace | runner.go:507-511 | one unit's context receives exactly its announcement and its verdict |
| Gate.RollupMeaning | runner.go:566-572 | the final rollup is error iff some unit did not complete, success iff all completed and passed |
| Gate.PassedMeansAllOk | runner.go:566-569 | `passed` iff there was a usable configuration and every unit ran to its end uncancelled and succeeded, at least one of them existing |
| LifecycleSafety.LedgerStep | runner.go:115-202 | every step of the engine and of its environment keeps the invariant that ties the status ledger to the in-flight markers and the current run |
| LifecycleSafety.NoLeakedPending | runner.go:130-202 | in every reachable state, a context left pending since the process started belongs to a commit that a marker names and that is not marked seen |
| LifecycleSafety.IdleLeavesNothingPending | runner.go:63-72 | between two refs nothing that this process posted is pending |
| LifecycleSafety.NeverPromoteUntested | runner.go:661-688 | every fast-forward issued in any run is for a watched-branch run of a commit whose configuration names that target and at least one unit, after all its units completed uncancelled with success |
| LifecycleSafety.MarkedMeansFinished | runner.go:135-202 | a commit becomes seen if and only if its own run, of a branch or of a pull request, has just completed, or it is the sampled tip that the clone raced past |
| LifecycleSafety.CutRunsStayUnmarked | runner.go:163-179 | when a superseded run's marker is cleared its commit is still not seen, so a branch that returns to it is tested again |
| LifecycleSafety.JudgedByCompletion | runner.go:171-185 | an incomplete superseded run is resolved, a completed one is kept even when a supersession raced in at its end, and only shutdown leaves a run to the restart |
| LifecycleSafety.CompletedCloses | runner.go:566-572 | a completed run leaves none of its contexts pending and posts only on `ci` and its units' contexts |
| LifecycleVerdicts.LedgerTellsTheTruth | runner.go:504-573 | when a completed run is about to be marked, the ledger itself reads, for every step of the commit's configuration, success or failure as the step turned out, for the rollup success iff all succeeded, and error for a commit without a usable configuration |
| LifecycleVerdicts.SupersededLedger | runner.go:171-176 | and for a superseded run error on the rollup and on every step that did not complete, the real result on the others |
| LifecycleVerdicts.PromotesExactly | runner.go:661-675 | a judged run is promoted if and only if it is a branch run that was not shut down, all its units completed and succeeded, and its configuration names another branch than the watched one; `ci/promote` then reads pending |
| LifecycleVerdicts.PromotionVerdict | runner.go:675-696 | over all runs: at the end of a promotion `ci/promote` reads success iff the last fast-forward call succeeded, error iff three were made and none did, and is pending only under shutdown; no call follows a success |
| LifecycleVerdicts.CallsAreRecorded | runner.go:677-688 | the list of fast-forward calls that NeverPromoteUntested speaks about is complete: each attempt before a shutdown adds one, and nothing else does |
| LifecycleVerdicts.WhoPosts | runner.go:130-226 | every status any step of the engine changes: a gate and a promotion only on their run's commit, the promotion to success or error as its call answered; everything else the engine closes, a superseded rollup, what reconciliation resolves and a skipped commit's rollup, becomes an error |
| LifecycleVerdicts.LimitsHold | runner.go:540-541 | in every reachable engine state units that run side by side are at most CHECK_CONCURRENCY, and the costs their commit's configuration gives them at most CHECK_CPU_BUDGET together |
| LifecycleVerdicts.AfterARun | runner.go:115-127 | after a run the loop goes round again if and only if it was superseded and no shutdown is asked for, even if it completed; skipped commits are visited if and only if MARK_SKIPPED is on and another commit was tested before |
| LifecycleVerdicts.StepLeads | runner.go:92-147 | the order of the engine's stages: no promotion without a judgement, no mark before a promotion is over, no end of a ref's sweep before its pull requests had their turn |
| LifecycleVerdicts.SupersededByAnotherTip | runner.go:228-250 | a run is superseded only with short-circuiting on, and by a tip that is not the commit under test |
| LifecycleLoop.IterationsBounded | runner.go:115-127 | one call of processBranch is never beyond iteration N + 1 when its branch has moved N times since the call began |
| LifecycleLoop.LoopStep | runner.go:115-202 | the iteration count stays within the branch's moves up to the last clone, and a supersession is only seen after a later move |
| LifecycleLoop.Quiescence | runner.go:131-137 | after processBranch has returned nil for an unmoved branch, in every continuation in which the branch stays and its tip is not pruned, however many sweeps and other runs, each later poll of it changes nothing and its tip is never run again |
| LifecycleLoop.ReturnedMeansSeen | runner.go:131-147 | when processBranch returns nil the tip it last sampled is seen |
| LifecycleStore.LastTestedStaysSeen | runner.go:194-202 | in every reachable state the last tested commit of every branch counts as processed, so an idle branch is not re-run |
| LifecycleStore.IdleLeavesNoMarker | runner.go:130-202 | between two refs every in-flight marker is one the previous process left and reconciliation kept; no run of this process leaks its own |
| LifecycleStore.MarkersStep | runner.go:149-199 | at every step outside a stopped engine each marker is the current run's, with its SHA, or an inherited one |
| LifecycleStore.KeptMarkerLastsExactly | runner.go:346-348 | a marker that reconciliation kept is intact as long as no run begins under its key; from then on the key names at most the run in progress, and between two refs it is there if and only if none began |
| LifecycleStore.KeptMarkerIsOverwritten | state.go:132-138 | a run of the engine in which listing fails, the marker is kept, and the sweep's run of the new tip replaces it, the old commit still pending and no marker leading to it |
| Recovery.CrashRecovery | runner.go:317-362 | start with nothing pending, kill the engine or shut it down anywhere, and its restarts anywhere in their recovery, any number of times: once a restart that is not shut down has reconciled and swept every ref, nothing is pending but possibly a promotion, though branches and pull requests move and fail all the while, except for a branch tip that is still waiting with no marker leading to it |
| Recovery.RecoveryStep | runner.go:324-362 | during recovery each pending gate context has, after every step, an unprocessed commit and a marker still to be looked at, a watched tip still to be visited by this sweep or, once shutdown is asked for, by the next process, or a run in progress that leads to it |
| Recovery.CrashDuringRecovery | runner.go:314-323 | whatever state a recovery has reached, stopping there, by a crash or after a shutdown, leaves what the next recovery needs: each pending gate context has an unprocessed commit with a marker or a watched tip |
| Recovery.JudgedOwesNothing | runner.go:171-202 | once a run of the recovering process has been concluded its commit has no gate context pending |
| Stranded.ClosedExactly | runner.go:130-226 | from any reachable state on in which no gate is running, through any failures, moves and shutdown, a pending gate context is still pending if and only if no run on its commit was concluded, reconciliation did not post on it, and it is not a rollup that was marked skipped; while a run on its commit is under way that run's last post on it decides, and only a shutdown that cuts such a run leaves either answer |
| Stranded.NoResolvesAfterBoot | runner.go:349-360 | once reconciliation is over, only a concluded run or a skip mark can close a pending context |
| Stranded.StrandedForGood | runner.go:335-340 | a context pending on a commit that no branch is at stays pending in every reachable state for as long as no branch and no pull request comes to the commit, unless it is the rollup and a list of skipped commits names the commit |
| Stranded.MoveAfterReconcileLeaks | runner.go:335-340 | a tip that moves between reconciliation and its poll, with no other branch at the commit, leaves statuses pending with no marker, through every later sweep that brings no branch and no pull request to it: unit contexts whatever is marked skipped, the rollup unless a list of skipped commits names it |
| CheckOutcome.PassedMeansExitedZero | runner.go:1010-1047 | a check passes only if its container really exited with code 0, in every interleaving of exit, attach breakage, inspect, wait, timeout and cancellation |
| CheckOutcome.PassesExactly | runner.go:737-757 | at the step that decides it a check passes if and only if neither deadline nor cancellation has come, every docker call succeeded and inspect found the container started, and the container is over with code 0 |
| CheckOutcome.DecidedByExitCode | runner.go:1010-1047 | so a check that was neither cut nor misread is over and passes iff its exit code is 0 |
| CheckOutcome.NaiveReadingPassesFailures | runner.go:1010-1016 | for every failing exit code there is a run in which inspect reports 0 early on, so that trusting it would pass, and in which the container then exits with that code and the check fails |
| Keys.SeenKeyInjective | state.go:85-86 | two commits whose hashes have no `@` share a seen key only if they are the same, whatever their repositories are called |
| Keys.KeyNameInjective | runner.go:307-308 | two runs, branch or pull request, share an in-flight key only if they are the same run, unless one repository name is the other's with `@` and more behind it |
| Keys.KeysClashExactly | config.go:27-30 | two different repositories have runs with the same in-flight key if and only if one name is the other's with `@` and more behind it |
| Keys.RefForKey | runner.go:366-373 | the loop returns the first watched ref the key can belong to, and none exactly when no ref matches |
| Keys.MatchesExactly | runner.go:366-373 | a ref matches a run's key exactly when it is the run's branch, or the run is a pull request of its repository, for repositories whose names do not extend one another by a separator |
| Keys.ConfusedExactly | runner.go:366-373 | a run of one repository can be matched to a ref of a different one if and only if a name is the other's with `@`, or the run's is the watched one's with `#`, and more behind it |
| Keys.ResolvesExactlyWatched | runner.go:366-373 | so a key resolves exactly when its run is still watched in the sense the engine model uses |
| StateFile.Store.Keep | state.go:164-173 | the loop collects exactly one shield per branch whose key has text before its first `@` |
| StateFile.Store.Save | state.go:164-190 | the delete-while-iterating loop leaves exactly the pruned snapshot, and the file is replaced by it or untouched |
| StateFile.Store.Mark | state.go:96-105 | every non-empty SHA becomes seen at the given time, then pruned; the file follows |
| StateFile.Store.MarkBranch | state.go:107-123 | tip and tested SHA become seen and the tested one the branch's last; the file follows |
| StateFile.Store.SetInFlight | state.go:132-138 | exactly that key's marker changes, to the given commit; the file follows |
| StateFile.Store.ClearInFlight | state.go:140-149 | exactly one marker goes, and nothing at all happens without it |
| StateFile.MarkersExactly | state.go:132-149 | after any history of operations, failed writes and restarts, a key has a marker in memory iff one was set and not cleared since, under the commit last set, a restart reading back the file; and the file has those of the last operation that was written |
| StateFile.WrittenIsReadBack | state.go:62-83 | what an operation has written, a restart right after it reads back |
| StateFile.MigrateLegacy | state.go:27-46 | a boolean state file becomes the map of its true entries, seen now |
| StateFile.HasAfterMark | state.go:88-105 | Has after Mark, for every commit: those marked count, if the time is not zero, those that counted before still do, and in either case unless they are both past retention and no branch's last commit |
| StateFile.HasAfterMarkBranch | state.go:107-123 | Has after MarkBranch, for every commit: the sampled tip and the tested commit count, if the time is not zero, and those that counted before, unless past retention and no branch's last commit |
| StateFile.LastAfterMarkBranch | state.go:107-130 | LastTested after MarkBranch: the tested commit for that branch, the old answer for every other branch, of any repository whose name neither extends the marked one's by `@` nor is so extended by it |
| StateFile.FileIsSomeMemory | state.go:62-83 | after any history with failed writes the file holds the whole memory of some earlier moment, and that is what a restart reads |
| StateFile.ShieldExact | state.go:166-172 | splitting a branch's key at its first `@` protects its last commit iff the repository name has no `@`, whatever the branch is called |
| StateFile.CommitsKeptExactly | state.go:162-178 | after a save a commit, of a repository of any name, is in the seen map iff it was and is young enough or the last tested one of a branch whose string starts with a repository name without `@`, with its time unchanged |
| StateFile.TipsAlwaysSeen | state.go:96-190 | for a repository without `@`: after any history of operations, failed writes, reloads and clock jumps, each of its branches' last commits counts as processed, in memory and on disk |
| StateFile.TipIsNeverForgotten | state.go:18-21 | so it does after every history if and only if the repository's name has no `@` |
| Statuses.ListStatuses | github.go:118-154 | pages of 100 with the short-page exit return the first entry per context of the first min(300, n) entries, in order, and fail iff a page that is requested fails |
| Statuses.FirstPerContextExact | github.go:143-148 | an entry is listed iff nothing before it in the history has its context |
| Statuses.ListedIsLatest | github.go:114-117 | over a newest-first history, a context is listed with a status iff that is the last one posted |
| Statuses.OldContextsAreMissed | github.go:118-154 | an entry that is the newest of its context is listed if and only if it is among the first 300 of the history |
| Reconcile.ReconcileInFlight | runner.go:324-362 | for markers in any order, with the context found cancelled after any number of them: a marker is left iff its turn did not come, or its ref is watched, not at the commit, and the statuses cannot be listed; exactly the pending statuses of the other looked-at markers' commits, unless unwatched or still the tip, have become errors, and no other status has changed |
| Reconcile.Remote.ResolvePending | runner.go:350-356 | every pending context of the commit becomes an error, every other status stays |
| Reconcile.ResolveLoopIsResolvePending | runner.go:350-360 | the engine's resolving steps, given a complete listing, do just that to the ledger, remove the marker and change nothing else |
| Reconcile.FirstMatchExact | runner.go:366-373 | the marker's ref is the first watched one that matches |
| Reconcile.FateExactly | runner.go:324-348 | the decision on one marker in terms of the first watched ref that its key matches, that ref's head and the listing |
| Reconcile.FateIsTheEngineStep | runner.go:324-362 | the loop's decision on a key's string is the decision of the engine model's reconcile step on the run itself |
| Skipped.MarkSkipped | runner.go:210-226 | a rollup becomes an error iff its commit is listed, of the repository, not the tested one and not seen, another commit was tested before and comparing succeeded; no other status changes |
| Skipped.SkipLoopIsMarkSkipped | runner.go:210-226 | the engine's skip steps leave exactly the ledger that the method leaves |
| Coverage.EverySkippedCommitIsAccountedFor | runner.go:195-226 | over all runs of the engine in which the branch only moves forward, with supersessions, races, pull request runs, other branches and pruning: between two refs every commit from any tested one of the branch to its last tested one is tested, was processed before, carries an error rollup, or is a raced sampled tip |
| Coverage.OrderStep | runner.go:130-202 | on such a branch the last tested commit, the clone under test and the head stay in this order through every step |
| Coverage.LongGapsLeaveHoles | github.go:209-211 | when more than 250 commits lie between two tested ones, none of them accounted for, a list cut off at 250 leaves one of them so after the whole skip loop has run |
| Coverage.LongGapRun | github.go:209-211 | a process that starts with its branch more than 251 commits past the last tested one has a complete sweep, here over a tip without a configuration file, that ends between two refs with a commit in between that nothing accounts for |
| Shell.QuoteIsLiteral | cache.go:138-141 | for every string, reading its quoted form from an unquoted state adds exactly that string to the current word and ends unquoted |
| Shell.QuoteInContext | cache.go:138-141 | and so it does between any prefix that ends unquoted and any suffix |
| PrimeScript.ScriptRoundTrip | cache.go:125-134 | the joined script is parsed by the shell grammar as exactly one guarded command per module (`or true`, so that a failure does not abandon the rest), in its own directory, in order, whatever the directories are called |
| PrimeScript.DetectPlan | cache.go:113-136 | the loops over ecosystems and markers build that script and the markers in walk order; the cache paths are those of exactly the ecosystems that have a marker, each once |
| PrimeScript.OneItemPerMarker | cache.go:125-132 | grouping by ecosystem neither loses nor repeats a marker |
| PrimeScript.PrimeRunsEveryMarkerOnce | cache.go:76-81 | so the prime script of a detected plan runs every marker found once, in its directory, with its ecosystem's command |
| PrimeScript.Dedupe | cache.go:143-153 | the loop returns the first occurrences, in order |
| PrimeScript.FirstsExact | cache.go:143-153 | which are all the elements, each once |
| GoldenCache.GoldenIsNeverPartial | cache.go:259-287 | after any number of harvests with failing copies and renames and crashes between or inside any operations, the golden directory is absent or one complete harvest |
| GoldenCache.SwapLeavesAGap | cache.go:277-285 | every successful harvest over a golden directory passes a state without one, and a crash there leaves none |
| GoldenCache.Cache.Harvest | cache.go:261-287 | one call, in place, however each operation turns out: it succeeds iff the copy and the renames it needs do, and leaves in the three directories what `HarvestIsARun` and `HarvestOutcome` are about |
| GoldenCache.HarvestIsARun | cache.go:261-287 | what the call leaves is what a run of the step-by-step machine without a crash leaves |
| GoldenCache.HarvestOutcome | cache.go:277-285 | success installs the harvest; failure leaves the previous golden directory in place or restored, and only when the restoring rename fails too is it gone, and then still there as `.old` |
| GoldenCache.TornExactly | cache.go:261-285 | exactly which ignored removal failures make the golden directory a mixture |
| GoldenCache.NeedsPrime | cache.go:195-215 | no priming is needed iff every path exists, metadata exists, a non-empty hash matches, and a configured refresh window has not lapsed |
| Scrub.Scrub | util.go:112-121 | after all sequential replacements no listed non-empty secret occurs anywhere in the result, unless it starts or ends with `*` or contains `***` |
| Scrub.PieceComesThrough | util.go:114-121 | replacing a secret brings about no new occurrence of a text that neither starts nor ends with the mask's character nor contains the mask |
| Scrub.FirstReplaced | util.go:114-121 | a replacement leaves the text before the first occurrence alone, puts the mask there, and goes on behind it |
| Scrub.Untouched | util.go:114-121 | a text without the secret is left alone |
| Scrub.SurvivesExactly | util.go:114-121 | a secret is left in some scrubbed text if and only if it starts or ends with `*` or contains `***` |
| Scrub.StarsSurvive | util.go:114-121 | a concrete text in which two stars survive |
| Buffers.TailBuffer.Write | util.go:66-78 | after any writes the buffer holds the last min(max, total) bytes of everything written |
| Buffers.BlockBuffer.Write | util.go:175-184 | as the tail buffer, and `truncated` iff more than max bytes were written in all |
| Buffers.BlockBuffer.Flush | util.go:186-207 | the first flush appends one labelled block of everything written, later ones append nothing |
| Buffers.LogIsWholeBlocks | util.go:162-207 | under any interleaving of writes and flushes of any number of buffers, the log is a sequence of whole blocks, one per flushed buffer, each with its own buffer's output only |
| Buffers.HeadersStartLines | util.go:197-206 | every block header starts a line of its own |
| Framing.LockfileHash | util.go:142-160 | the loop hashes the frames of the files that can be read, in order, and is empty iff there are none |
| Framing.FramesRoundTrip | util.go:150-154 | without NUL bytes the framing can be read back: names, contents and boundaries are determined |
| Framing.LockHashExact | util.go:139-160 | without NUL bytes and hash collisions, two lists over two checkouts hash alike iff the same files with the same contents are read in the same order |
| Framing.LockHashChangesExactly | util.go:139-141 | so for one list the hash changes iff a listed file appears, disappears or changes |
| Framing.NoticesEverythingExactly | util.go:150-154 | with arbitrary bytes, it notices every change iff at most one file is listed |
| Framing.CacheKeyInputInjective | util.go:123-130 | the text whose digest names a branch's cache determines owner, repository and branch, so two watched branches share a cache only if digests of different texts collide |
| RepoConfig.ValidateChecks | config.go:308-339 | the loop accepts iff there are checks and none has a problem, and otherwise reports the first problem of the first check that has one |
| RepoConfig.AcceptedExactly | config.go:308-339 | a file is accepted iff checks exist, names and commands are non-empty, names are pairwise different, cpus hints are safe positive numbers and memory hints are safe |
| RepoConfig.ContextsDistinctExactly | runner.go:504-537 | an accepted file gives each status its own context iff no check is called `promote`, and none `trivy` next to a scan |
| RepoConfig.EngineAssumption | runner.go:516-537 | what the engine model assumes of configurations (units exist, positive costs, distinct unit contexts) holds for exactly the accepted files without a check called `trivy` next to a scan |
| RepoConfig.CpuCost | config.go:130-141 | a scheduler cost is always positive, whatever the hint |
| CpuCaps.CapsHoldExactly | runner.go:394-401 | the docker caps of the running units stay within the budget in every reachable state if and only if no set of units that can run together has caps above it |
| CpuCaps.LiveRunTogether | runner.go:419-436 | the live units of every reachable state could all join one another in launch order |
| CpuCaps.TogetherIsReached | runner.go:419-436 | every set of units that could so join is exactly the live set of some reachable state |
| CpuCaps.LowCapsHold | runner.go:394-401 | it is enough that no cap exceeds its unit's clamped cost |
| CpuCaps.EachCapMustFit | runner.go:900-914 | and needed that every unit has a cap, of at most the budget |
| CpuCaps.CapsCanExceed | runner.go:900-914 | two checks without hints, CHECK_CPUS at 2 and a budget of 2 are admitted together with caps of 4 |
| CpuCaps.HintIsCostAndCap | runner.go:909-914 | an accepted check's hint, as a number, is both its cost and its cap; without one it costs 1 and is capped at CHECK_CPUS |

## Left out

- LifecycleSafety.NoLeakedPending: status posts and store writes are atomic and succeed; the retries of `setStatus` (`runner.go:788-825`) and a post that fails three times are not modelled.
- LifecycleSafety.NeverPromoteUntested: what GitHub does with a fast-forward request (`github.go:246-290`) is not modelled, only when one is issued.
- Recovery.CrashRecovery: `ci/promote` is excluded because a promotion interrupted by shutdown is only closed if the re-run passes (`runner.go:675-679`). Markers must be of refs still watched, statuses of marked commits must be listed completely (which `Statuses.ListedIsLatest` gives for histories of at most 300 entries), the last restart is not shut down, and, except after a shutdown, a branch whose tip is waiting can be read and stays until a marker leads to the commit; `Stranded.ClosedExactly` says what happens without these.
- LifecycleLoop.Quiescence: that pruning spares the tip is a hypothesis; the store's theorems give it for a branch's last tested commit, not for a tip that a clone raced past.
- Coverage.EverySkippedCommitIsAccountedFor: one process at a time, between two refs; a run that shutdown or a crash cut short is the recovery theorem's subject. Comparing succeeds, and gaps have at most 250 commits.
- GoldenCache.GoldenIsNeverPartial: the two removals before the swap do not fail half way (a crash may cut them); `GoldenCache.TornExactly` covers their failures.
- StateFile.TipIsNeverForgotten: times are not the epoch, and no branch of a repository that shares keys with the branch's own (`Keys.KeysClashExactly`) is marked meanwhile.
- Keys.SeenKeyInjective: hashes without `@`, which git's are.
- Framing.LockHashExact: SHA-256 is a function parameter without collisions.
- Buffers.BlockBuffer.Flush: the truncation note is written with three dots for the ellipsis character, and its bytes are not counted.
- RepoConfig.ValidateChecks: the `promote:`, `scan:` and `cache:` blocks of a configuration file and YAML decoding are not modelled.
- Parallel sweeps (`CONCURRENCY` above 1): two refs of one repository may then both pass `Has` before either sets its marker (`runner.go:135-152`); the engine model sweeps serially.
- A configuration is a function of the commit; `.poll-ci.yml` fallbacks, read errors that come and go, and the image fields are not modelled.
- A check called `promote` shares `ci/promote` with the engine; the engine model keeps the two contexts apart.
- Pruning, which every save does, is a step of its own in the engine model. It may come at any point and drop anything but last tested commits and what the call in progress has just marked: the clock is assumed not to pass the whole retention period within one call of processBranch.
- Float rounding, NaN and infinities: costs, caps and the budget are positive reals.
- The compare call that lists skipped commits, `git`, HTTP, JSON, YAML, tar streams, the docker CLI and the file system appear only as their answers.
- `--once` runs (`RunOnce`), fork and repository filtering of pull requests (`runner.go:262-270`), and listing them page by page.
- `runScan` shares `dockerOutcome` with `runCheck`; only the latter's use is modelled.
- The directory walk of `detectCachePlan` (depth limit and skipped directories): the model starts from the markers it found. How `cd` treats a directory called `-` or one that starts with a dash is outside the parsed script.
- `prepareCache`, `primeCache`, `writeCacheMeta`, explicit `cache:` blocks, per-key cache locks and mounts.
- Environment parsing, log and description texts, image pulls, container labels and orphan sweeping, deploy scripts and the heartbeat monitor.
