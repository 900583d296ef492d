/** What the steps of the program come to: which observation counts as which result and what that
    result changes, what a failed run does next, when a reconcile runs a check, and which answers end
    an episode. Each is said of the step as a whole. */
module StepOutcomes {
  import opened HealthChecks
  import opened Goroutines
  import opened Machine
  import RbacNames

  /** How a goroutine comes back when nothing went wrong, and an undisturbed status write. */
  predicate ComesBack(t: Thread, pc: Pc) {
    pc == if t.origin.Reconcile? then LastGet(5) else Ended
  }

  predicate SawPhase(l: Lookup, phase: Phase) {
    l.Found? && l.phase == phase
  }

  // ---------------------------------------------------------------- the verdict of a poll

  lemma OneLonger(h: seq<Event>, e: Event, f: Event)
    ensures h != h + [e] && (h + [e] == h + [f] <==> e == f)
  {
    assert (h + [e])[|h|] == e && (h + [f])[|h|] == f;
  }

  /** A run is a success if and only if it is found passed before the iterator errs, and a failure if
      and only if it is found failed or the iterator has erred: a run still going at its timeout has
      failed, and so has one that passed just too late. Anything else is waited for. */
  lemma PollVerdict(t: Thread, now: Time, l: Lookup)
    requires t.pc.Poll? && !l.LookupError?
    ensures var t' := Step(t, now, Saw(l));
            && (t'.unsaved == t.unsaved + [RanOk(t.pc.wf, now)] <==> t.pc.left > 0 && SawPhase(l, Passed))
            && (t'.unsaved == t.unsaved + [RanFailed(t.pc.wf, now)] <==> t.pc.left == 0 || SawPhase(l, Phase.Failed))
            && (t.pc.left > 0 && !SawPhase(l, Passed) && !SawPhase(l, Phase.Failed) ==>
                  t' == t.(pc := Poll(t.pc.wf, t.pc.began, t.pc.left - 1)))
  {
    OneLonger(t.unsaved, RanOk(t.pc.wf, now), RanFailed(t.pc.wf, now));
    OneLonger(t.unsaved, RanFailed(t.pc.wf, now), RanOk(t.pc.wf, now));
  }

  /** A lookup error ends the watch with nothing recorded, stored or re-armed; not finding the
      workflow is no error to the caller. */
  lemma PollLookupError(t: Thread, now: Time, notFound: bool)
    requires t.pc.Poll?
    ensures var t' := Step(t, now, Saw(LookupError(notFound)));
            && t'.hc == t.hc && t'.unsaved == t.unsaved
            && if notFound then ComesBack(t, t'.pc) else t'.pc.Ended?
  {
  }

  /** Everything of a status but what a remedy writes. */
  function RunPart(st: Status): Status {
    st.(remedyErrorMessage := "", remedyStartedAt := None, remedyFinishedAt := None, remedyLastFailedAt := None,
        remedySuccessCount := 0, remedyFailedCount := 0, remedyTotalRuns := 0, remedyStatus := Unset)
  }

  /** Everything of a status that decides about remedies. */
  predicate SameRemedies(a: Status, b: Status) {
    && a.remedyTotalRuns == b.remedyTotalRuns
    && a.remedySuccessCount == b.remedySuccessCount && a.remedyFailedCount == b.remedyFailedCount
    && a.remedyStartedAt == b.remedyStartedAt && a.remedyFinishedAt == b.remedyFinishedAt
    && a.remedyLastFailedAt == b.remedyLastFailedAt
  }

  predicate NoRemedies(st: Status) {
    SameRemedies(st, NEW_STATUS)
  }

  /** Where a decided episode goes that has no remedy to run: to the final status write, unless its
      object was already marked for deletion when it was read. */
  predicate GoesToStore(t: Thread, t': Thread) {
    if t.hc.deleting then ComesBack(t, t'.pc) else t'.pc == WriteGet(Final, 5)
  }

  /** What a success changes: the run's own fields, and the remedies it resets. */
  lemma SuccessRecords(t: Thread, now: Time, l: Lookup)
    requires t.pc.Poll? && t.pc.left > 0 && SawPhase(l, Passed)
    ensures var st := t.hc.status;
            var t' := Step(t, now, Saw(l));
            var st' := t'.hc.status;
            && st'.status == Passed && st'.lastSuccessfulWorkflow == t.pc.wf
            && st'.startedAt == Some(t.pc.began) && st'.finishedAt == Some(now)
            && st'.successCount == st.successCount + 1
            && st'.totalHealthCheckRuns == st.successCount + 1 + st.failedCount
            && RunPart(st') == RunPart(st).(status := st'.status, lastSuccessfulWorkflow := st'.lastSuccessfulWorkflow,
                                            startedAt := st'.startedAt, finishedAt := st'.finishedAt,
                                            successCount := st'.successCount,
                                            totalHealthCheckRuns := st'.totalHealthCheckRuns)
            && (if t.hc.spec.remedyWorkflow != NO_WORKFLOW && st.remedyTotalRuns >= 1
                then NoRemedies(st') else SameRemedies(st', st))
            && t'.hc.spec == t.hc.spec && GoesToStore(t, t')
  {
  }

  /** What a failure changes of the run's own fields; the message of a timeout is "Failed". */
  lemma FailureRecords(t: Thread, now: Time, l: Lookup)
    requires t.pc.Poll? && !l.LookupError? && (t.pc.left == 0 || SawPhase(l, Phase.Failed))
    ensures var st := t.hc.status;
            var t' := Step(t, now, Saw(l));
            var st' := t'.hc.status;
            && st'.status == Phase.Failed && st'.lastFailedWorkflow == t.pc.wf
            && st'.errorMessage == (if t.pc.left == 0 then "Failed" else l.message)
            && st'.startedAt == Some(t.pc.began) && st'.finishedAt == st'.lastFailedAt == Some(now)
            && st'.failedCount == st.failedCount + 1 && st'.successCount == st.successCount
            && st'.totalHealthCheckRuns == st.successCount + st.failedCount + 1
            && RunPart(st') == RunPart(st).(status := st'.status, lastFailedWorkflow := st'.lastFailedWorkflow,
                                            errorMessage := st'.errorMessage, startedAt := st'.startedAt,
                                            finishedAt := st'.finishedAt, lastFailedAt := st'.lastFailedAt,
                                            failedCount := st'.failedCount,
                                            totalHealthCheckRuns := st'.totalHealthCheckRuns)
            && t'.hc.spec == t.hc.spec
  {
  }

  // ---------------------------------------------------------------- what a failed run does next

  predicate Limits(spec: Spec) {
    spec.remedyRunsLimit != 0 && spec.remedyResetInterval != 0
  }

  predicate UsedUp(spec: Spec, st: Status) {
    Limits(spec) && spec.remedyRunsLimit <= st.remedyTotalRuns
  }

  /** A used-up limit whose interval has not passed. */
  predicate HeldBack(spec: Spec, st: Status, now: Time) {
    && UsedUp(spec, st) && st.remedyFinishedAt.Some?
    && now - st.remedyFinishedAt.value < (spec.remedyResetInterval + 1) * SECOND
  }

  /** A failed run without a remedy, or whose remedy is held back, goes on to store its failure and
      re-arm; one with a used-up limit that is past its interval starts counting again and runs its
      remedy; one whose limit is not used up runs it. It panics only for want of a finish. */
  lemma FailureGoesOn(t: Thread, now: Time, l: Lookup)
    requires t.pc.Poll? && !l.LookupError? && (t.pc.left == 0 || SawPhase(l, Phase.Failed))
    requires t.hc.status.remedyFinishedAt.Some? ==> t.hc.status.remedyFinishedAt.value <= now
    ensures var spec := t.hc.spec;
            var st := t.hc.status;
            var t' := Step(t, now, Saw(l));
            if spec.remedyWorkflow == NO_WORKFLOW || HeldBack(spec, st, now) then
              GoesToStore(t, t') && SameRemedies(t'.hc.status, st)
            else if UsedUp(spec, st) && st.remedyFinishedAt.None? then
              t'.pc.Panicked?
            else
              t'.pc.RemedyRbac?
              && if UsedUp(spec, st) then NoRemedies(t'.hc.status) else SameRemedies(t'.hc.status, st)
  {
    var fin := t.hc.status.remedyFinishedAt;
    if fin.Some? {
      var d := now - fin.value;
      var q := Quo(d, SECOND);
      assert t.hc.spec.remedyResetInterval >= q <==> d < (t.hc.spec.remedyResetInterval + 1) * SECOND;
    }
  }

  // ---------------------------------------------------------------- the verdict on a remedy

  /** The same for a remedy, down to its outcome. */
  lemma RemedyVerdict(t: Thread, now: Time, l: Lookup)
    requires t.pc.RemedyPoll? && !l.LookupError?
    ensures var t' := Step(t, now, Saw(l));
            && (t'.unsaved == t.unsaved + [Remedied(true, now)] <==> t.pc.left > 0 && SawPhase(l, Passed))
            && (t'.unsaved == t.unsaved + [Remedied(false, now)] <==> t.pc.left == 0 || SawPhase(l, Phase.Failed))
            && (t.pc.left > 0 && !SawPhase(l, Passed) && !SawPhase(l, Phase.Failed) ==>
                  t' == t.(pc := RemedyPoll(t.pc.wf, t.pc.began, t.pc.left - 1)))
  {
    OneLonger(t.unsaved, Remedied(true, now), Remedied(false, now));
    OneLonger(t.unsaved, Remedied(false, now), Remedied(true, now));
  }

  /** A remedy that vanished counts for nothing, and the episode goes on; any other error ends it. */
  lemma RemedyLookupError(t: Thread, now: Time, notFound: bool)
    requires t.pc.RemedyPoll?
    ensures var t' := Step(t, now, Saw(LookupError(notFound)));
            && t'.hc == t.hc && t'.unsaved == t.unsaved
            && if notFound then t'.pc.RemedyCleanup? else t'.pc.Ended?
  {
  }

  /** What the end of a remedy changes. */
  lemma RemedyRecords(t: Thread, now: Time, l: Lookup)
    requires t.pc.RemedyPoll? && !l.LookupError?
    requires t.pc.left == 0 || SawPhase(l, Passed) || SawPhase(l, Phase.Failed)
    ensures var passed := t.pc.left > 0 && SawPhase(l, Passed);
            var st := t.hc.status;
            var t' := Step(t, now, Saw(l));
            var st' := t'.hc.status;
            && st'.remedyStatus == (if passed then Passed else Phase.Failed)
            && st'.remedyStartedAt == Some(t.pc.began) && st'.remedyFinishedAt == Some(now)
            && st'.remedySuccessCount == st.remedySuccessCount + (if passed then 1 else 0)
            && st'.remedyFailedCount == st.remedyFailedCount + (if passed then 0 else 1)
            && st'.remedyTotalRuns == st.remedySuccessCount + st.remedyFailedCount + 1
            && st'.remedyLastFailedAt == (if passed then st.remedyLastFailedAt else Some(now))
            && st'.remedyErrorMessage
               == (if passed then st.remedyErrorMessage else if t.pc.left == 0 then "Failed" else l.message)
            && st'.lastSuccessfulWorkflow == (if passed then t.pc.wf else st.lastSuccessfulWorkflow)
            && st'.lastFailedWorkflow == (if passed then st.lastFailedWorkflow else t.pc.wf)
            && RunPart(st') == RunPart(st).(lastSuccessfulWorkflow := st'.lastSuccessfulWorkflow,
                                            lastFailedWorkflow := st'.lastFailedWorkflow)
            && t'.hc.spec == t.hc.spec
            && t'.pc == if t.hc.deleting then RemedyCleanup else WriteGet(AfterRemedy, 5)
  {
  }

  // ---------------------------------------------------------------- the decision of a reconcile

  /** When a reconcile runs a check with an interval: if and only if the interval, in whole seconds,
      has passed since the stored finish, or the name has no entry in the timer table. Otherwise it
      comes back having changed nothing. */
  lemma RunsExactlyWhenDue(s: State, tid: nat, a: Answer)
    requires CanGo(s, tid, a) && s.threads[tid].pc.Decide?
    requires s.threads[tid].hc.spec.workflow.resource.Some? && s.threads[tid].hc.spec.repeatAfterSec > 0
    ensures var t := s.threads[tid];
            var t' := Step(t, s.now, a);
            var finish := if t.hc.status.finishedAt.Some? then t.hc.status.finishedAt.value / 1_000_000_000 else 0;
            && (t'.pc.CreateRbac? <==>
                  s.now / 1_000_000_000 - finish >= t.hc.spec.repeatAfterSec || t.key.name !in s.table)
            && (!t'.pc.CreateRbac? ==> ComesBack(t, t'.pc))
            && t'.hc == t.hc && t'.unsaved == t.unsaved
  {
    hide StepPoll, StepRemedyPoll, StepSubmit, StepRemedySubmit, StepRbac, StepWriteGet, StepWritePut, StepLast;
  }

  /** Without an interval: a cron expression that parses runs the check with the derived delay as its
      interval in memory; without one the check is marked as stopped, and nothing is run. */
  lemma DecidesWithoutInterval(s: State, tid: nat, a: Answer)
    requires CanGo(s, tid, a) && s.threads[tid].pc.Decide?
    requires s.threads[tid].hc.spec.workflow.resource.Some? && s.threads[tid].hc.spec.repeatAfterSec <= 0
    ensures var t := s.threads[tid];
            var t' := Step(t, s.now, a);
            if t.hc.spec.cron == "" then
              && t'.pc == WriteGet(Paused, 5) && t'.hc.spec == t.hc.spec && t'.unsaved == t.unsaved
              && t'.hc.status.status == Phase.Stopped && t'.hc.status.finishedAt == Some(s.now)
              && t'.hc.status == t.hc.status.(status := Phase.Stopped, finishedAt := Some(s.now),
                                              errorMessage := t'.hc.status.errorMessage)
            else
              && a.CronDelay?
              && (if a.delay.Some? then t'.pc.CreateRbac? else t'.pc.Ended?)
              && t'.hc.status == t.hc.status && t'.unsaved == t.unsaved
              && t'.hc.spec == if a.delay.Some? then t.hc.spec.(repeatAfterSec := a.delay.value) else t.hc.spec
  {
    hide StepPoll, StepRemedyPoll, StepSubmit, StepRemedySubmit, StepRbac, StepWriteGet, StepWritePut, StepLast;
  }

  /** A check without a resource is left alone. */
  lemma LeavesAloneWithoutResource(t: Thread, now: Time, a: Answer)
    requires t.pc.Decide? && t.hc.spec.workflow.resource.None?
    ensures Step(t, now, a).hc == t.hc && Step(t, now, a).unsaved == t.unsaved && ComesBack(t, Step(t, now, a).pc)
  {
  }

  // ---------------------------------------------------------------- what ends an episode

  /** Nothing is submitted for a run, or a remedy, whose access could not be created, and what was
      recorded before is not stored. */
  lemma NoAccessNoSubmission(t: Thread, now: Time, a: Answer)
    requires t.pc.CreateRbac? || t.pc.RemedyRbac?
    ensures var t' := Step(t, now, a);
            && (t'.pc.Submit? <==> t.pc.CreateRbac? && a.Done? && !RbacNames.Refused(t.hc.spec))
            && (t'.pc.RemedySubmit? <==> t.pc.RemedyRbac? && a.Done? && !RbacNames.Refused(t.hc.spec))
            && (!a.Done? || RbacNames.Refused(t.hc.spec) ==> t'.pc.Ended?)
            && t'.hc.status == t.hc.status && t'.unsaved == t.unsaved
  {
  }

  /** A submission that does not succeed ends a reconcile and every remedy; a timer's goroutine
      watches for the empty name. */
  lemma SubmissionGoesOn(t: Thread, now: Time, a: Answer)
    requires t.pc.Submit? && a.Submission? && t.hc.spec.workflow.resource.Some? && !a.decoded.NilMap?
    ensures var t' := Step(t, now, a);
            && t'.hc.status == t.hc.status && t'.unsaved == t.unsaved
            && t'.pc == if a.created.Some? then WatchStart(a.created.value)
                        else if t.origin.Timer? then WatchStart("")
                        else Ended
  {
    hide StepPoll, StepRemedyPoll, StepDecide, StepRemedySubmit, StepRbac, StepWriteGet, StepWritePut, StepLast;
  }

  lemma RemedySubmissionGoesOn(t: Thread, now: Time, a: Answer)
    requires t.pc.RemedySubmit? && a.Submission?
    requires t.hc.spec.remedyWorkflow.resource.Some? ==> !a.decoded.NilMap?
    ensures var t' := Step(t, now, a);
            && t'.hc.status == t.hc.status && t'.unsaved == t.unsaved
            && t'.pc == if t.hc.spec.remedyWorkflow.resource.Some? && a.created.Some? then RemedyStart(a.created.value)
                        else Ended
  {
    hide StepPoll, StepRemedyPoll, StepDecide, StepSubmit, StepRbac, StepWriteGet, StepWritePut, StepLast;
  }

  /** A watch begins when its iterator is made. */
  lemma WatchBegins(t: Thread, now: Time, polls: nat)
    requires t.pc.WatchStart? || t.pc.RemedyStart?
    ensures Step(t, now, Budget(polls))
            == t.(pc := if t.pc.WatchStart? then Poll(t.pc.wf, now, polls) else RemedyPoll(t.pc.wf, now, polls))
  {
  }

  /** The final write follows a remedy whose access was deleted, and no other. */
  lemma CleanupGoesOn(t: Thread, now: Time, a: Answer)
    requires t.pc.RemedyCleanup?
    ensures var t' := Step(t, now, a);
            && t'.hc == t.hc && t'.unsaved == t.unsaved
            && if a.Done? then GoesToStore(t, t') else t'.pc.Ended?
  {
  }

  // ---------------------------------------------------------------- reads and writes

  /** What follows a Get. */
  lemma GetGoesOn(t: Thread, now: Time, a: Answer)
    requires t.pc.ReconcileGet? || t.pc.TimerGet? || t.pc.WriteGet? || t.pc.LastGet?
    ensures var t' := Step(t, now, a);
            && t'.unsaved == t.unsaved
            && t'.hc == (if a.Fetched? && (t.pc.ReconcileGet? || t.pc.TimerGet?) then a.copy else t.hc)
            && (t.pc.ReconcileGet? ==> t'.pc == if a.Fetched? then Decide else CancelLookup(t.key.name))
            && (t.pc.TimerGet? ==> t'.pc == if a.Fetched? then Submit else Ended)
            && (t.pc.WriteGet? && a.Fetched? ==> t'.pc == WritePut(t.pc.write, t.pc.left, a.rv))
            && (t.pc.WriteGet? && !a.Fetched? ==> t'.pc == if t.pc.write.Paused? then Ended else CancelLookup(""))
            && (t.pc.LastGet? ==> t'.pc == if a.Fetched? then LastPut(t.pc.left, a.rv, a.copy.spec) else Ended)
  {
    hide StepPoll, StepRemedyPoll, StepDecide, StepSubmit, StepRemedySubmit, StepRbac;
  }

  /** A conflict starts another round with everything kept, while rounds are left; a write that took
      leads to the re-arm, to the rest of the remedy cycle, or back; any other answer gives up. */
  lemma PutGoesOn(t: Thread, now: Time, a: Answer)
    requires t.pc.WritePut?
    ensures var t' := Step(t, now, a);
            && t'.hc == t.hc
            && t'.unsaved == (if a.Done? then [] else t.unsaved)
            && (if a.Done? then
                  match t.pc.write
                  case Final => t'.pc.Rearm?
                  case AfterRemedy => t'.pc.RemedyCleanup?
                  case Paused => ComesBack(t, t'.pc)
                else if a.Conflict? && t.pc.left > 1 then
                  t'.pc == WriteGet(t.pc.write, t.pc.left - 1)
                else
                  t'.pc == if t.pc.write.Paused? then Ended else CancelLookup(""))
  {
    hide StepPoll, StepRemedyPoll, StepDecide, StepSubmit, StepRemedySubmit, StepRbac;
  }

  lemma LastPutGoesOn(t: Thread, now: Time, a: Answer)
    requires t.pc.LastPut?
    ensures Step(t, now, a) == t.(pc := if a.Conflict? && t.pc.left > 1 then LastGet(t.pc.left - 1) else Ended)
  {
  }

  /** Re-arming: once the new timer is in the table the episode is over. */
  lemma RearmGoesOn(t: Thread, now: Time, a: Answer)
    requires t.pc.Rearm? || t.pc.RearmStart?
    ensures var t' := Step(t, now, a);
            && t'.hc == t.hc && t'.unsaved == t.unsaved
            && (t.pc.Rearm? ==> t'.pc.RearmStart?)
            && (t.pc.RearmStart? ==> if a.Done? then ComesBack(t, t'.pc) else t'.pc.Panicked?)
  {
  }
}
