# Verification of Active-Monitor's controller

A Dafny model of the health-check controller and proofs about it. `dafny verify dfyconfig.toml`
checks everything.

A HealthCheck runs a workflow at an interval. An *episode* submits the workflow, polls it to a
decisive observation, counts the result, perhaps runs a remedy, stores the status and re-arms a
timer. Episodes run in reconcile goroutines and in timer goroutines, and share the API server's
objects and one table of timers.

## How the model is built

`Goroutines` writes the controller as a program: one `Step` for each call that another goroutine,
the API server or the clock can observe. `Machine` runs any number of these programs, together with
users, time and crashes, as one interleaved system: versioned objects whose status and main parts
are written separately (the CRD enables the status subresource), a timer table under a lock,
answers that may be errors, conflicts or lost replies. Its runs are what the theorems range over.

`Controller` holds the controller's methods as imperative code on a HealthCheck object in place.
Each is proved to take exactly the steps of the program, for all answers. `SharedState` holds the
store and the timer table in place, tied to the machine's effects in the same way. So the theorems
about the machine speak about these methods. `StepOutcomes` says what the program's steps come to.

| module | subject |
|---|---|
| HealthChecks, StatusRules, Templates, RbacNames | entities, recording rules, remedy gate, parsing, names |
| Goroutines, Machine, Frames, Sums | the program, the system, what a step leaves alone, sums over threads |
| StepOutcomes | what each step comes to: verdicts, records, decisions, what goes on and what ends |
| Controller, SharedState | the imperative code, tied to the program and the system |
| TimerSafety, Deletion | timers and deletion under every interleaving |
| StatusInvariant, SpecSafety, SuccessWrites | what every stored status, spec and success satisfies |
| StaleReads, CurrentReads, LostCounts | what survives reads from an outdated cache, what does not, and when |
| Histories, SerialRuns, UnlimitedRemedies | the remedy limiter, what it does not limit, the counters |
| Conservation, Accounting | the fate of every run; metrics against counters |
| Spacing, SpacingLimits, PendingStarts, CronSchedules | how far apart runs are, and exactly when; checks scheduled by cron |
| Episodes, ReachableFailures | undisturbed runs, and failures reached from the start |
| PlainFailures, RetriedWrites, Restarts | failures without a remedy, writes that meet conflicts, runs after a crash |
| Polling | the polling loops, delays and deadlines |
| Rbac, RbacTheorems | get-or-create and delete-if-managed over a failing cluster |
| Gauges, DeepCopies | the custom gauge table; the generated deep copies |

## Hypotheses

- *The timer map exists* (`mapMade`) where the theorems say so. NewHealthCheckReconciler makes it.
- *Serial run* (`SerialRuns.SerialRun`): the episodes of one check do not overlap, a reconcile that
  decides to run does so on the stored status, and the object is not created anew while an episode
  of its predecessor is in flight. Status writes replace the whole status, so counters and rates need
  this; timers, deletion, specs, the status invariant and the fates of runs do not.
- *Stored times are whole seconds*, as their JSON form is.
- *The back-off iterator* grants a number of waits and then errors for good; for the bound on polls,
  each wait takes at least the shortest delay and none is granted once the timeout has passed.
- A conflict is retried up to five times in all, as the client library's default retry does.
- A created workflow gets a name no workflow had before.

## What the proofs found

- A remedy limit without a reset interval limits nothing (`SkipCondition`, `NothingLimitsThem`). The
  repository's README.md says at line 24 that a failing remedy stops further retries; the code counts
  failed and successful remedies alike and stops only at the gate, so remedies that fail run again at
  every failure of the check (`NothingLimitsThem`, for any outcomes). The model follows the code.
- A negative limit with an interval panics at the first failure (`NilDereferenceCondition`).
- cmd/main.go builds the reconciler without its timer map. The first re-arm then panics with
  TimerLock held. In a reconcile goroutine the panic is recovered and the controller is stuck. A
  template that decodes to nothing, the check's or the remedy's, does the same, and nothing else
  does (`LeaksExactly`, `UnmadeMapLeaks`, `EmptyTemplateLeaks`).
- The cancellation after a failed status write is never reached, because the request passed down is
  empty (`FailedWriteCancelsNothing`).
- Timers are keyed by bare name. Re-arming or deleting a check stops the timers of its namesakes
  in other namespaces, and after a deletion nothing re-arms them (`RearmStopsNamesakes`,
  `DeletionSilencesNamesakes`, `NamesakeIsSilenced`).
- An entry in the timer table is not enough for the spacing of runs. Between the stored finish plus
  the interval and the firing of the timer, a reconcile may start a run while the timer is pending;
  if that run ends without re-arming after its status was stored, the old timer starts the next run
  at once. This happens to every runnable check with an interval (`AnEntryIsNotEnough`). At such a
  decision, no timer is pending exactly when all serial continuations whose own later starts are
  armed with no timer pending keep the spacing (`SpacedExactlyWhenSpent`). It holds along every run
  in which no episode gives up like this (`SubmissionsAreSpaced`).
- An interval derived from a cron expression lives in memory only. A timer's goroutine reads the
  stored interval again, so a check scheduled by cron alone follows its schedule once and then runs
  back to back: its timers are due at once exactly when the stored interval is not positive
  (`TimerRearmsAtOnceExactly`, `CronChecksSpin`).
- Under the iterator's contract, a negative backoffMin takes away the bound on the number of polls,
  and nothing else does (`PollsBoundedExactly`).
- A timer's goroutine that reads an outdated object writes its outdated counters back
  (`StaleReadLosesACount`). The counters survive as long as every episode begins on the stored counts
  (`CurrentReadsKeepCounts`), and through an undisturbed run only then (`CountsExactlyWhenCurrent`).
- Without a level the account is created and never deleted (`LevelDecides`,
  `UnsetLevelKeepsTheAccount`).
- When the level, the account or the namespace of a remedy is edited after a cycle was cut short, what
  that cycle made and later plans do not name is never deleted (`LevelEditLeavesTheRole`, `EditedCyclesHeal`).

## Model

The methods of Controller, SharedState, Rbac, Gauges and DeepCopies state their whole new state.
Other rows are lemmas, or functions and methods whose contracts say what the result means.

| member | source | states |
|---|---|---|
| SerialRuns.RemediesAreLimited | internal/controllers/healthcheck_controller.go:649-720 | over every run of the whole system in which the episodes of one check do not overlap: while every spec of the check keeps a limit of at most L > 0 and a reset interval of at least I > 0 seconds, any stretch of its stored history without a success that holds more than L remedy completions spans more than I seconds — through interval resets, resets whose remedy then failed, vanished workflows, lost replies, conflicts, spec edits and crashes |
| SerialRuns.CountersCountTheHistory | internal/controllers/healthcheck_controller.go:642-643 | in a serial run the stored counters are the numbers of successes and failures in the persisted history, and the total is their sum |
| SerialRuns.RemedyCountersCountTheLatest | internal/controllers/healthcheck_controller.go:828-846 | in a serial run the stored remedy counters are the outcomes of the latest remedy completions of the history, as many as RemedyTotalRuns says, none after a reset |
| SerialRuns.ResetTracks | internal/controllers/healthcheck_controller.go:691-705 | a reset of the remedy counters by the interval happens only when every earlier completion is more than the interval old, although the stored finish has lost its fraction of a second and the comparison truncates |
| Histories.StretchIsLong | internal/controllers/healthcheck_controller.go:677-720 | the sliding window: in a history spread at every prefix, any stretch without a success and with more than L completions is longer than the interval |
| StatusRules.SkipCondition | internal/controllers/healthcheck_controller.go:677-693 | the gate holds a remedy back if and only if one is configured, limit and interval are both set, the limit is used up and less than interval + 1 whole seconds have passed: a limit without an interval limits nothing |
| UnlimitedRemedies.NothingLimitsThem | internal/controllers/healthcheck_controller.go:674-720 | the counterpart of RemediesAreLimited: for every runnable check with an interval, whose remedy has no limit, no reset interval, or a positive limit with a negative interval; for every start, every number and any outcomes of the remedies: a serial run (SerialRun) in which that many remedies complete, one at each run of the check, with no success between them |
| UnlimitedRemedies.GateIsOpen | internal/controllers/healthcheck_controller.go:677-720 | on any status such a run can store, the gate of such a spec neither skips nor panics |
| StatusRules.NilDereferenceCondition | internal/controllers/healthcheck_controller.go:677-690 | the read of RemedyFinishedAt hits nil if and only if a remedy is configured, the limit is negative, an interval is set and no remedy has completed since the last reset; a positive limit never gets there |
| StatusRules.SuccessNormalForm | internal/controllers/healthcheck_controller.go:649-660 | recording a success with a configured remedy leaves all remedy counters 0 and all remedy times nil, whether or not the reset branch runs |
| SuccessWrites.PersistedSuccessIsNormal | internal/controllers/healthcheck_controller.go:635-661 | in any run, under every interleaving: every status write that persists a success of a check with a remedy stores a status without any remedy on record, and every later gate decides on it as on a fresh object |
| StatusInvariant.EveryStatusIsConsistent | api/v1alpha1/healthcheck_types.go:47-66 | in every reachable state, with overlapping episodes and crashes: stored and in-memory totals are sums, remedy times are nil exactly at zero counts, started <= finished, failed <= finished, nothing is dated in the future |
| StatusInvariant.RemedyWriteIsOrdered | internal/controllers/healthcheck_controller.go:858-869 | the intermediate write of a remedy stores FinishedAt = LastFailedAt <= RemedyStartedAt with the remedy counted |
| StatusInvariant.PollPanicsExactly | internal/controllers/healthcheck_controller.go:664-720 | a poll panics if and only if the run failed, a remedy is configured, the limit is negative, an interval is set and no remedy is on record |
| StatusRules.RulesKeepConsistency | internal/controllers/healthcheck_controller.go:635-671 | each way of recording a result keeps the status invariant, from any status that has it |
| StatusRules.StoringKeepsConsistency | api/v1alpha1/healthcheck_types.go:50-55 | truncation of all six times to whole seconds keeps the invariant |
| TimerSafety.AtMostOnePendingPerName | internal/controllers/healthcheck_controller.go:745-752 | under every interleaving of watchers, firings, deletions and crashes, and however the reconciler was built, at most one timer is pending per name; if the map was made, it is the one the table holds |
| TimerSafety.RearmLeavesExactlyOne | internal/controllers/healthcheck_controller.go:748-752 | an episode that passes the re-arm block leaves exactly one timer pending under its name, its own, due one interval later, the lock free, and every other name as it was |
| TimerSafety.RearmStopsNamesakes | internal/controllers/healthcheck_controller.go:748-750 | keys are bare names: taking the lock to re-arm a check stops a pending timer if and only if its check has the same name, in whatever namespace |
| TimerSafety.DeletionStopsNamesakes | internal/controllers/healthcheck_controller.go:180-184 | a reconcile whose Get fails, left uninterrupted, ends with exactly the pending timers of its bare name stopped and nothing put in their place |
| Deletion.DeletionSilencesNamesakes | internal/controllers/healthcheck_controller.go:175-186 | so deleting a check silences a namesake that is between two runs: it is still stored, and along any later run the controller does nothing for it until something reconciles it |
| ReachableFailures.NamesakeIsSilenced | internal/controllers/healthcheck_controller.go:175-186 | from the start of the system, for every runnable check and every other check of its name: a run in which the check's timer is pending, the other is created and deleted, and the check, stored as before, is not run again |
| Deletion.DormantForGood | internal/controllers/healthcheck_controller.go:745-752 | a check without a pending timer or a running goroutine is never run again unless it is reconciled |
| TimerSafety.FailedWriteCancelsNothing | internal/controllers/healthcheck_controller.go:735-743 | the cancellation after a failed status write looks up the name of an empty request, so it ends without stopping any timer |
| TimerSafety.UnmadeMapWedges | cmd/main.go:110-116 | a reconciler built without its timer map leaves TimerLock held at its first re-arm |
| TimerSafety.EmptyTemplateWedges | internal/controllers/healthcheck_controller.go:934-948 | so does a health check whose template decodes to a nil map |
| TimerSafety.EmptyRemedyTemplateWedges | internal/controllers/healthcheck_controller.go:1056-1072 | so does a remedy whose template decodes to a nil map |
| TimerSafety.LeaksExactly | internal/controllers/healthcheck_controller.go:745-752 | in any reachable state an action leaks the lock for good if and only if a reconcile goroutine re-arms without a map, or parses the check's template when it is nil (or has no resource), or parses the remedy's template when it is nil |
| ReachableFailures.UnmadeMapLeaks | cmd/main.go:110-116 | from the start of the system, for every runnable check with an interval or a schedule: a run without any error that ends with the lock leaked, for a reconciler built without its map |
| ReachableFailures.EmptyTemplateLeaks | internal/controllers/healthcheck_controller.go:934-948 | the same for a template that decodes to nothing, however the reconciler was built, before anything is submitted |
| TimerSafety.WedgedForGood | internal/controllers/healthcheck_controller.go:502-534 | along any run in which the process lives, once the lock has leaked: it stays leaked, nothing is submitted for any check, no timer is started and the table stays as it is |
| TimerSafety.WedgedUntilTheProcessDies | internal/controllers/healthcheck_controller.go:1480-1485 | with the lock leaked no goroutine takes a step that needs it, and every action keeps it leaked or ends the process |
| Deletion.DeletionQuiesces | internal/controllers/healthcheck_controller.go:175-186 | from any state in which the object is gone and along any run that does not create it again: the controller's steps and firings for it number at most Measure, plus four per further reconcile request, and it submits at most what threads already past their read had pledged |
| Deletion.LateTimerEndsAtItsGet | internal/controllers/healthcheck_controller.go:483-487 | a timer that fires after the deletion ends at its Get: nothing else in the whole state changes |
| Deletion.StepRunsOut | internal/controllers/healthcheck_controller.go:607-757 | every single step for a vanished object uses up the measure, and a started timer is paid for by the step that starts it |
| SpecSafety.ControllerNeverChangesASpec | internal/controllers/healthcheck_controller.go:208-215 | in any run with any number of concurrent editors, goroutines, lost replies and crashes, the stored specs are those the users' requests alone produce |
| SpecSafety.StatusWritesAreExact | internal/controllers/healthcheck_controller.go:1445-1462 | a status write that takes effect stores exactly the given status, to the second, beside the spec stored at that moment; every other step leaves all stored statuses alone |
| StaleReads.StaleReadsAreSafe | internal/controllers/healthcheck_controller.go:208-215 | with a cache that may answer any Get with any version there has ever been, or with nothing: stored specs are the users', every status stored or held is consistent, every workflow has at most one fate, at most one timer is pending per name |
| StaleReads.BooksStillBalance | internal/controllers/healthcheck_controller.go:642-683 | the books of every check balance with such reads, kind by kind |
| LostCounts.StaleReadLosesACount | internal/controllers/healthcheck_controller.go:479-487 | the counters do not survive: for every runnable check with an interval and every start, a serial run that persists one success and fires the check's timer; one outdated read, by that timer's goroutine, of a version the cache has held; then a serial run that persists a second success, after which the object counts one |
| LostCounts.CountsExactlyWhenCurrent | internal/controllers/healthcheck_controller.go:642-643 | at one episode: the object counts the successes of its history afterwards if and only if the copy the episode began with counted those before |
| CurrentReads.CurrentReadsKeepCounts | internal/controllers/healthcheck_controller.go:230-235 | in any run with outdated or missing reads in which the episodes of a check do not overlap and each begins on a copy with the stored counts (a timer's Get, or the copy a reconcile decides on), the counters count the history, whatever else is outdated |
| Conservation.EveryRunHasOneFate | internal/controllers/healthcheck_controller.go:618-673 | a workflow name is at most one of persisted success, persisted failure and in flight, and only if it was submitted, in every reachable state |
| Conservation.AbandonedForGood | internal/controllers/healthcheck_controller.go:618-623 | what was submitted and is none of the three is never picked up again, by any action |
| Conservation.TotalCountsRuns | internal/controllers/healthcheck_controller.go:670-671 | in a serial run the stored total is the number of distinct workflows whose result was persisted, although a failure with a remedy is written twice |
| Conservation.RecordedSize | internal/controllers/healthcheck_controller.go:642-643 | a history without repetitions names as many workflows as it has successes and failures |
| Accounting.BooksBalance | internal/controllers/healthcheck_controller.go:642-683 | for each namespaced check, between any two states of any run: increments + held + stored before = stored after + held after + lost, for each of the four metrics (successes and errors of the check and of its remedy), where lost is exactly what aborted episodes, dying processes and removed objects took with them |
| Accounting.MetricsAgainstCounters | internal/controllers/healthcheck_controller.go:644-673 | for each check, in a serial run: success and error increments equal the stored counters plus what is in flight plus what was lost |
| Accounting.LabelBooksBalance | internal/controllers/healthcheck_controller.go:644-673 | the same books for the metrics as they are labelled, by bare name: summed over all the namesakes |
| Accounting.LabelAgainstCounters | internal/controllers/healthcheck_controller.go:644-673 | in a run that is serial for each namesake, the labelled metric equals the sum of their stored counters, of what they hold and of what they lost |
| Spacing.SubmissionsAreSpaced | internal/controllers/healthcheck_controller.go:230-267 | from the start of the system, with a stored interval R > 0 and serial episodes that start armed (once the check has finished), and in which no episode gives up between storing a status and re-arming while a timer of the check is pending: every submission begins at least R seconds after the last stored FinishedAt |
| Spacing.DecidesInTime | internal/controllers/healthcheck_controller.go:264-267 | the whole-second comparison of a reconcile loses nothing: a run it admits is at least R seconds after the stored finish |
| SpacingLimits.SpacedExactlyWhenSpent | internal/controllers/healthcheck_controller.go:730-752 | at the decision: for a reconcile that starts a run of an armed, runnable check, the check's timer is no longer pending if and only if all serial continuations whose own later starts are armed with no timer pending keep the spacing |
| SpacingLimits.SpentRunsAreSpaced | internal/controllers/healthcheck_controller.go:230-267 | hence, from the start of the system: in a serial run all of whose starts are armed and find no timer pending, no submission ever begins too soon |
| SpacingLimits.PendingBreaks | internal/controllers/healthcheck_controller.go:732-744 | the continuation that breaks it: the run is stored, its reply is lost, nothing is re-armed, and the old timer starts the next run at once |
| PendingStarts.PendingStartIsReachable | internal/controllers/healthcheck_controller.go:264-267 | for every runnable check with an interval and every instant, a run from a start of the system at that instant reaches such a decision with the timer pending |
| PendingStarts.AnEntryIsNotEnough | internal/controllers/healthcheck_controller.go:264-267 | hence, for every such check and instant, a serial run from that start whose runs all start armed and in which a submission begins too soon |
| CronSchedules.TimerKeepsFetchedInterval | internal/controllers/healthcheck_controller.go:479-487 | a timer's goroutine works with the interval its Get fetched, zero and negative ones too, whatever cron expression the object has |
| CronSchedules.TimerRearmsAtOnceExactly | internal/controllers/healthcheck_controller.go:747-752 | the timer it starts can fire on the spot if and only if that stored interval is not positive |
| CronSchedules.CronChecksSpin | internal/controllers/healthcheck_controller.go:250-263 | for every runnable check scheduled by cron alone, every start, derived delay and number: a run that submits once at the start, lets exactly the delay pass and then submits that many workflows without any time passing |
| CronSchedules.Spins | internal/controllers/healthcheck_controller.go:747-752 | from any state in which such a check's timer is due, any number of runs fit into one instant |
| Polling.LoopFindsFirstDecisive | internal/controllers/healthcheck_controller.go:613-727 | the polling loop passes over undecided observations without recording anything and acts on observation FirstDecisive; it records at most one result |
| Polling.RemedyLoopFindsFirstDecisive | internal/controllers/healthcheck_controller.go:801-853 | the same for the remedy's loop, one result at most included |
| Polling.FirstDecisive | internal/controllers/healthcheck_controller.go:618-635 | the first observation that decides: a lookup error before a timeout, a timeout before a phase; it exists by the time the iterator errors |
| Polling.FirstDecisiveExactly | internal/controllers/healthcheck_controller.go:618-664 | it is the first lookup that is an error, a pass or a failure, or else the one at which the iterator errs |
| Polling.DefaultDelaysInOrder | internal/controllers/healthcheck_controller.go:575-590 | with default settings 1s <= min <= max for every integer timeout, and max <= timeout/2 from two seconds on |
| Polling.DelaysInOrderExactly | internal/controllers/healthcheck_controller.go:575-590 | min <= max if and only if the settings satisfy a condition on the three numbers, for all settings |
| Polling.DelaysExactly | internal/controllers/healthcheck_controller.go:575-604 | settings are seconds; what is not set is a half or a sixtieth of the timeout, a second at least |
| Polling.RemedyBackoff | internal/controllers/healthcheck_controller.go:791-799 | the delays computed inside the remedy watch equal those of the shared function with default settings |
| Polling.DefaultPollBound | internal/controllers/healthcheck_controller.go:611-613 | under the iterator's contract there are at most 120 waits with default settings, whatever the timeout |
| Polling.PollBound | internal/controllers/healthcheck_controller.go:575-604 | for all settings: one less than the number of waits, times the shortest delay, is below the timeout |
| Polling.PollsBoundedExactly | internal/controllers/healthcheck_controller.go:586-593 | the contract bounds the number of waits at all if and only if backoffMin is not negative or the timeout is not positive |
| Polling.LoopPollsWithinBound | internal/controllers/healthcheck_controller.go:613-727 | the loop itself: if its own clock readings meet the contract, it decides within that bound, and within 120 further polls with default settings |
| Polling.RemedyLoopPollsWithinBound | internal/controllers/healthcheck_controller.go:801-853 | the remedy's loop decides within 120 further polls, whatever the settings |
| Polling.DeadlineIsPollTimeout | internal/controllers/healthcheck_controller.go:980-995 | for a template without a deadline, the deadline submitted is the time after which the poll gives up: the configured timeout, else the interval |
| Polling.ParsingKeepsTheTemplate | internal/controllers/healthcheck_controller.go:973-996 | every key the template's spec sets, other than the account, reaches the cluster unchanged |
| Templates.SubmitsTheTemplate | internal/controllers/healthcheck_controller.go:970-997 | the submitted spec key by key: the check's own account over any the template names, pod collection and a deadline by default, the template for the rest; only the timeout is filled in, in memory |
| Templates.SubmitsTheRemedyTemplate | internal/controllers/healthcheck_controller.go:1098-1121 | the same for a remedy, under its own account, with the check's interval as its default deadline |
| Templates.ParsesExactly | internal/controllers/healthcheck_controller.go:963-976 | a template is submitted if and only if it decodes to a map whose spec is a map, and panics if and only if it decodes to nothing |
| Polling.RemedyTimeoutIsDeadline | internal/controllers/healthcheck_controller.go:1107-1121 | the remedy's timeout is the deadline it was submitted with, and no delay depends on it |
| RbacTheorems.CycleHeals | internal/controllers/healthcheck_controller.go:302-474 | after any number of cycles of a plan cut short at arbitrary calls, one undisturbed cycle leaves each of its objects absent unless it pre-existed unmanaged, and everything else as it was |
| RbacTheorems.CreateConverges | internal/controllers/healthcheck_controller.go:302-415 | after any number of failed attempts at a plan, any attempt that returns without an error has reached the store of a single undisturbed attempt |
| RbacTheorems.RemedyCycleHeals | internal/controllers/healthcheck_controller.go:759-786 | the first of these for the remedy of every spec the controller accepts, at either level, after the rename |
| RbacTheorems.EditedCyclesHeal | internal/controllers/healthcheck_controller.go:302-474 | when level, account or namespace are edited between cycles: an undisturbed cycle of the last plan leaves each object of that plan as before the first cycle unless it was the controller's own, and every other object as the cycles before left it; what is left over is exactly what earlier plans made and the last does not name, all of it managed |
| RbacTheorems.UnnamedStays | internal/controllers/healthcheck_controller.go:417-474 | what later plans do not name stays for good |
| RbacTheorems.LevelEditLeavesTheRole | internal/controllers/healthcheck_controller.go:436-468 | the input: a cluster-wide cycle cut short at its binding, and a level edited to namespace; the cluster role stays through every later cycle |
| RbacTheorems.CreationConverges | internal/controllers/healthcheck_controller.go:302-415 | the second for every such spec, both workflow types and both levels; an undisturbed attempt succeeds |
| RbacTheorems.CreateIsIdempotent | internal/controllers/healthcheck_controller.go:1128-1158 | repeating a completed creation changes nothing, whatever fails |
| RbacTheorems.AttemptsDerive | internal/controllers/healthcheck_controller.go:1161-1179 | no sequence of aborted attempts touches an object that is not the workflow's, or one that others own |
| RbacTheorems.LevelDecides | internal/controllers/healthcheck_controller.go:408-411 | without a level nothing undisturbed succeeds, and the account stays behind |
| RbacTheorems.UnsetLevelKeepsTheAccount | internal/controllers/healthcheck_controller.go:408-411 | without a level the account, once there, stays through any number of cycles however they go |
| RbacTheorems.OneRemedyAccount | internal/controllers/healthcheck_controller.go:302-330 | one account through a remedy: created, bound, submitted under and deleted alike; never the health check's, no shared role or binding, and renaming is stable |
| RbacNames.RenamedExactly | internal/controllers/healthcheck_controller.go:316-320 | the rename changes nothing but a remedy's account, and that only when it is the health check's own |
| RbacNames.RefusedExactly | internal/controllers/healthcheck_controller.go:312-330 | a spec is refused, whatever the API server says, exactly for a remedy without resource or account, or a level other than the two |
| Rbac.Cluster.CreateRbacForWorkflow | internal/controllers/healthcheck_controller.go:302-415 | on the cluster in place, call by call: exactly CreateAll of the renamed spec's plan; refused without a call when the remedy's configuration is unusable. On success the workflow's own account, a role for it with the workflow's own rules, or the defaults where it has none, and a binding of that role to that account are there, at the spec's level; what was there is as it was, and nothing else is new |
| Rbac.Cluster.DeleteRbacForWorkflow | internal/controllers/healthcheck_controller.go:417-474 | exactly DeleteAll of the remedy's plan, whatever workflow it is called for; without a remedy resource it makes no call. On success what carried the managed label among the remedy's account, role and binding is gone, and everything else is as it was |
| Rbac.Cluster.GetOrCreateObject | internal/controllers/healthcheck_controller.go:1182-1231 | any error of the Get, transient or not, leads to the Create |
| Rbac.Cluster.DeleteManagedObject | internal/controllers/healthcheck_controller.go:1234-1252 | deletes only what carries the managed label; a missing object is an error |
| Controller.WatchWorkflowReschedule | internal/controllers/healthcheck_controller.go:607-757 | the loop, the remedy, the write and the re-arm in place: for every sequence of answers the program of the machine ends where the method ends, with the same object and unsaved results; StepOutcomes says what its steps come to |
| Controller.HandleFailure | internal/controllers/healthcheck_controller.go:674-720 | the nested limit and interval branches choose what RemedyGate chooses, the nil read included |
| Controller.WatchRemedyWorkflow | internal/controllers/healthcheck_controller.go:788-874 | the same for the remedy's watch |
| Controller.ProcessRemedyWorkflow | internal/controllers/healthcheck_controller.go:759-786 | the same for a remedy cycle: RBAC, submission, watch, RBAC deletion, each of which may end it |
| Controller.UpdateHealthCheckStatus | internal/controllers/healthcheck_controller.go:1445-1462 | the retry loop succeeds if and only if, for some k below five, k rounds of a read and a write meet a conflict and the next one takes, and then after exactly 2 * (k + 1) calls |
| Controller.ProcessHealthCheck | internal/controllers/healthcheck_controller.go:225-291 | the three branches before a run, and the run itself |
| Controller.UpdateResource | internal/controllers/healthcheck_controller.go:207-221 | the last write of a reconcile, which ends it; it succeeds under the same condition, after as many calls |
| Controller.CreateSubmitWorkflow | internal/controllers/healthcheck_controller.go:502-534 | parsing and submission; a failed submission still leads a timer goroutine to its watch |
| Controller.TimerHelper | internal/controllers/healthcheck_controller.go:479-500 | a timer goroutine runs the machine's program from TimerGet to its end |
| Controller.Reconcile | internal/controllers/healthcheck_controller.go:170-223 | a reconcile runs the machine's program from its Get to its end |
| Controller.BackoffIterator.Next | internal/controllers/healthcheck_controller.go:613 | the iterator is never advanced after it has errored |
| StepOutcomes.PollVerdict | internal/controllers/healthcheck_controller.go:618-664 | a run is recorded as a success if and only if it is found passed before the iterator errs, and as a failure if and only if it is found failed or the iterator has erred; anything else is waited for |
| StepOutcomes.PollLookupError | internal/controllers/healthcheck_controller.go:617-623 | a lookup error wins over both: nothing is recorded, stored or re-armed, and a missing workflow is no error to the caller |
| StepOutcomes.SuccessRecords | internal/controllers/healthcheck_controller.go:635-661 | what a success changes of the status, field by field, and nothing else; then the final write, unless the object was marked for deletion |
| StepOutcomes.FailureRecords | internal/controllers/healthcheck_controller.go:664-672 | what a failure changes of the run's own fields; a timed-out run has the message Failed |
| StepOutcomes.FailureGoesOn | internal/controllers/healthcheck_controller.go:674-752 | a failed run without a remedy, or whose remedy the limit holds back, goes on to the final write; past the interval it starts counting again and runs the remedy; below the limit it runs it; it panics only for want of a finish |
| StepOutcomes.RemedyVerdict | internal/controllers/healthcheck_controller.go:801-853 | the same verdict for a remedy: passed if and only if found passed before the iterator errs, failed if and only if found failed or the iterator has erred |
| StepOutcomes.RemedyRecords | internal/controllers/healthcheck_controller.go:820-852 | what the end of a remedy changes, field by field, and the intermediate write that follows |
| StepOutcomes.RemedyLookupError | internal/controllers/healthcheck_controller.go:805-810 | a vanished remedy counts for nothing and the episode goes on; any other lookup error ends it |
| StepOutcomes.RunsExactlyWhenDue | internal/controllers/healthcheck_controller.go:264-275 | a reconcile runs a check with an interval if and only if the interval has passed, in whole seconds, since the stored finish, or the name has no entry in the timer table; otherwise it changes nothing |
| StepOutcomes.DecidesWithoutInterval | internal/controllers/healthcheck_controller.go:238-263 | without an interval: a cron expression that parses runs the check with the derived delay, one that does not ends the reconcile, and no expression marks the check as stopped |
| StepOutcomes.NoAccessNoSubmission | internal/controllers/healthcheck_controller.go:269-274 | nothing is submitted for a run or a remedy whose access was not created |
| StepOutcomes.SubmissionGoesOn | internal/controllers/healthcheck_controller.go:276-287 | a submission leads to the watch of its workflow; a failed one ends a reconcile, and has a timer's goroutine watch the empty name |
| StepOutcomes.CleanupGoesOn | internal/controllers/healthcheck_controller.go:779-785 | the final write follows a remedy if and only if its access was deleted |
| StepOutcomes.GetGoesOn | internal/controllers/healthcheck_controller.go:483-487 | what follows a Get at each of the four places, found or not |
| StepOutcomes.PutGoesOn | internal/controllers/healthcheck_controller.go:1447-1461 | a conflict starts another round with everything kept while rounds are left, a write that took leads on, and any other answer gives up |
| Restarts.RestartRunsTheCheck | internal/controllers/healthcheck_controller.go:264-288 | from any state, for every stored, runnable check with an interval, whatever its status: after a crash, the first reconcile of it leads to a submission |
| PlainFailures.FailuresWithoutRemedyAreStored | internal/controllers/healthcheck_controller.go:722-752 | from the start of the system, for every runnable check with an interval and no remedy and every number: that many failures after a first one, each stored, with no remedy and with a timer pending after it |
| PlainFailures.HeldFailuresAreStored | internal/controllers/healthcheck_controller.go:689-752 | the same for a check whose remedy a positive limit and interval limit: as many failures with remedies as the limit allows, and then, for as long as the interval has not passed, failures that are stored without one and re-arm |
| RetriedWrites.FourConflictsAreSurvived | internal/controllers/healthcheck_controller.go:1447-1454 | from the start of the system: whatever users make of the spec in up to four edits that make the status write conflict, the run is stored and the timer is pending |
| RetriedWrites.AFifthIsNot | internal/controllers/healthcheck_controller.go:1447-1461 | and with five the run is lost: nothing is stored and no timer is started |
| SharedState.Shared.constructor | internal/controllers/healthcheck_controller.go:152-163 | a new reconciler is the machine's initial state, with the timer map made or not |
| SharedState.Shared.UpdateStatus | internal/controllers/healthcheck_controller.go:1451-1453 | a versioned status write in place: an allowed answer, and the machine's effect, of the whole shared state |
| SharedState.Shared.Update | internal/controllers/healthcheck_controller.go:208-215 | a versioned write of everything but the status, likewise |
| SharedState.Shared.LockAndStop | internal/controllers/healthcheck_controller.go:747-750 | taking the lock and stopping the old timer is the machine's effect |
| SharedState.Shared.StartAndUnlock | internal/controllers/healthcheck_controller.go:751-752 | starting the timer, storing it and unlocking, or panicking on the nil map with the lock held |
| SharedState.Shared.GetTimerByName | internal/controllers/healthcheck_controller.go:1480-1485 | every goroutine that asks for the name gets the one answer the machine allows; once the table is in order, that is the name's pending timer if there is one, and never another name's |
| SharedState.Shared.StopTimer | internal/controllers/healthcheck_controller.go:184 | stopping the timer a deletion looked up is the machine's effect |
| Gauges.GaugeTable.CreateDynamicPrometheusMetric | internal/metrics/collector.go:68-115 | over any list of parameters: each (gauge, check) pair ends with the last valid entry's value or its old one, gauges only grow, each name is offered to the registry once, and no lock stays held, panics included |
| Gauges.GaugeTable.Collect | internal/metrics/collector.go:77-110 | one entry: one without a name or that does not decode changes nothing; any other sets its pair, and a new gauge gets its help text |
| Gauges.Append | internal/metrics/collector.go:73-110 | collecting one list after another is collecting their concatenation |
| Gauges.LastValueIsNamed | internal/metrics/collector.go:90-107 | a pair has a last value exactly when some valid entry names it |
| Gauges.MangledInjective | internal/metrics/collector.go:89-90 | within a check, two metrics share a gauge only if they have the same name |
| Gauges.MangledReads | internal/metrics/collector.go:89-90 | a gauge is named after the check, with underscores for dashes, an underscore and the metric |
| Gauges.LastValueIsLast | internal/metrics/collector.go:77-107 | the last value is that of a valid entry for the gauge after which there is no other |
| Gauges.ReachesInOrder | internal/metrics/collector.go:73-114 | parameters that do not panic are collected one after the other |
| Gauges.ReachesUpToPanic | internal/metrics/collector.go:73-81 | of a parameter with a bad entry, what comes before that entry is collected, and nothing after it |
| DeepCopies.HealthCheck.DeepCopy | api/v1alpha1/zz_generated.deepcopy.go:73-89 | the copy's spec and status have the values of the source's, which are unchanged; everything reachable from them is new; its two workflows share nothing even if the source's do |
| DeepCopies.HealthCheck.RenameOnCopy | internal/controllers/healthcheck_controller.go:316-320 | the rename of the remedy's account on a copy is the rename of the value, and does not reach the source |
| DeepCopies.Spec.DeepCopyInto | api/v1alpha1/zz_generated.deepcopy.go:132-137 | the same for a spec written into a struct held by value |
| DeepCopies.Status.DeepCopyInto | api/v1alpha1/zz_generated.deepcopy.go:150-176 | the same for a status with its six time pointers |
| DeepCopies.Workflow.DeepCopyInto | api/v1alpha1/zz_generated.deepcopy.go:267-281 | the same for a workflow, its resource and its rule slice |
| DeepCopies.ResourceObject.DeepCopy | api/v1alpha1/zz_generated.deepcopy.go:216-229 | the same for a resource with its source |
| DeepCopies.ArtifactLocation.DeepCopyInto | api/v1alpha1/zz_generated.deepcopy.go:28-45 | the same for the three optional artifacts |

## Left out

- Reads from a stale cache are modelled in StaleReads, CurrentReads and LostCounts; elsewhere Get answers with the latest stored version, or with an error. Specs, the status invariant, timers, fates and books survive stale reads. The counters do as long as episodes begin on the stored counts (CurrentReads.CurrentReadsKeepCounts); nothing is shown of what rests on the stored status being current (the remedy limiter, the spacing) or on a deleted object not being read any more (DeletionQuiesces).
- Integer widths: counters, intervals and durations are unbounded; the source's are 64-bit.
- The float BackoffFactor, and with it the exact sequence of delays between the shortest and the longest.
- The shared workflowLabels map, which only accumulates keys; owner references and generated names.
- YAML, JSON and mapstructure decoding, and the reading of templates over HTTP or from files: the model starts from decoded values.
- Events, log lines, and the gauges for run time, start and finish.
- Status texts are an enumeration, and the two long messages are abbreviated; the namespace in which a remedy is looked up (the health check's own) is not distinguished from the one it was submitted to.
- Delays between conflict retries, and the requeue delay after an error.
- Other writers of the RBAC objects while a cycle is under way.
- The built-in RBAC rule lists: parameters.
- DeepCopies.HealthCheck.DeepCopy: says nothing of the object's metadata, which the Kubernetes library copies; HealthCheckList is left out.
- DeepCopies.Workflow.DeepCopyInto: a rule is a value, so sharing of a rule's own slices cannot be expressed; the Kubernetes library copies them.
- Liveness after an error exit: the source does not promise a re-arm there.
- Flag parsing, manager setup, scheme registration and TLS options.
- Spacing.SubmissionsAreSpaced: assumes that no episode gives up between storing a status and re-arming while a timer of the check is pending; PendingStarts.AnEntryIsNotEnough shows that without such an assumption the bound fails.
- SerialRuns.RemediesAreLimited: counts completions in the history of one stored object; recreating the object starts a new history, as it starts a new status.
- Polling.DefaultPollBound: rests on the assumed contract of the back-off iterator, whose code is not part of this model.
