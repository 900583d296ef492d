/** How one decisive observation changes a status, and when a remedy may run:
    the branches inside watchWorkflowReschedule and watchRemedyWorkflow. */
module StatusRules {
  import opened HealthChecks

  function Stop(st: Status, now: Time, message: string): Status {
    st.(status := Phase.Stopped, errorMessage := message, finishedAt := Some(now))
  }

  function ResetRemedy(st: Status, reason: Phase): Status {
    st.(remedyTotalRuns := 0,
        remedyFinishedAt := None,
        remedyStartedAt := None,
        remedyFailedCount := 0,
        remedySuccessCount := 0,
        remedyLastFailedAt := None,
        remedyStatus := reason)
  }

  function RecordSuccess(spec: Spec, st: Status, began: Time, now: Time, wf: string): Status {
    var counted := st.(status := Passed,
                       startedAt := Some(began),
                       finishedAt := Some(now),
                       successCount := st.successCount + 1,
                       totalHealthCheckRuns := st.successCount + 1 + st.failedCount,
                       lastSuccessfulWorkflow := wf);
    if !spec.remedyWorkflow.IsEmpty() && counted.remedyTotalRuns >= 1 then
      ResetRemedy(counted, ResetByPass)
    else
      counted
  }

  function RecordFailure(st: Status, began: Time, now: Time, wf: string, message: string): Status {
    st.(status := Phase.Failed,
        startedAt := Some(began),
        finishedAt := Some(now),
        lastFailedAt := Some(now),
        errorMessage := message,
        failedCount := st.failedCount + 1,
        totalHealthCheckRuns := st.successCount + (st.failedCount + 1),
        lastFailedWorkflow := wf)
  }

  function RecordRemedySuccess(st: Status, began: Time, now: Time, wf: string): Status {
    st.(remedyStatus := Passed,
        remedyStartedAt := Some(began),
        remedyFinishedAt := Some(now),
        remedySuccessCount := st.remedySuccessCount + 1,
        remedyTotalRuns := st.remedySuccessCount + 1 + st.remedyFailedCount,
        lastSuccessfulWorkflow := wf)
  }

  function RecordRemedyFailure(st: Status, began: Time, now: Time, wf: string, message: string): Status {
    st.(remedyStatus := Phase.Failed,
        remedyStartedAt := Some(began),
        remedyFinishedAt := Some(now),
        remedyLastFailedAt := Some(now),
        remedyErrorMessage := message,
        remedyFailedCount := st.remedyFailedCount + 1,
        remedyTotalRuns := st.remedySuccessCount + (st.remedyFailedCount + 1),
        lastFailedWorkflow := wf)
  }

  /** What a failed health check does about its remedy. `NilDereference` is the
      read of RemedyFinishedAt when it is nil: the Go code panics there. */
  datatype Gate = NoRemedy | RunRemedy | SkipRemedy | ResetThenRun | NilDereference

  function RemedyGate(spec: Spec, st: Status, now: Time): Gate {
    if spec.remedyWorkflow.IsEmpty() then NoRemedy
    else if spec.remedyRunsLimit != 0 && spec.remedyResetInterval != 0 then
      if spec.remedyRunsLimit > st.remedyTotalRuns then RunRemedy
      else match st.remedyFinishedAt
           case None => NilDereference
           case Some(finished) =>
             var remedyLastRunTime := Quo(now - finished, SECOND);
             if spec.remedyResetInterval >= remedyLastRunTime then SkipRemedy else ResetThenRun
    else RunRemedy
  }

  // ---------------------------------------------------------------- the status invariant

  ghost predicate NotAfter(t: Option<Time>, bound: Time) {
    t.Some? ==> t.value <= bound
  }

  ghost predicate Ordered(a: Option<Time>, b: Option<Time>) {
    a.Some? && b.Some? ==> a.value <= b.value
  }

  /** Every status the controller holds or writes, at any instant `now` after it was computed. */
  ghost predicate Consistent(st: Status, now: Time) {
    && 0 <= st.successCount && 0 <= st.failedCount
    && st.totalHealthCheckRuns == st.successCount + st.failedCount
    && 0 <= st.remedySuccessCount && 0 <= st.remedyFailedCount
    && st.remedyTotalRuns == st.remedySuccessCount + st.remedyFailedCount
    && (st.remedyTotalRuns == 0 <==> st.remedyStartedAt == None)
    && (st.remedyTotalRuns == 0 <==> st.remedyFinishedAt == None)
    && (st.remedyFailedCount == 0 <==> st.remedyLastFailedAt == None)
    && Ordered(st.startedAt, st.finishedAt)
    && (st.startedAt.Some? ==> st.finishedAt.Some?)
    && (st.lastFailedAt.Some? ==> st.finishedAt.Some?)
    && Ordered(st.lastFailedAt, st.finishedAt)
    && Ordered(st.remedyStartedAt, st.remedyFinishedAt)
    && Ordered(st.remedyLastFailedAt, st.remedyFinishedAt)
    && NotAfter(st.finishedAt, now)
    && NotAfter(st.remedyFinishedAt, now)
  }

  lemma NewStatusIsConsistent(now: Time)
    ensures Consistent(NEW_STATUS, now)
  {
  }

  lemma WholeSecondIsMonotone(a: Time, b: Time)
    requires a <= b
    ensures WholeSecond(a) <= WholeSecond(b)
    ensures WholeSecond(b) <= b
    ensures Unix(WholeSecond(b)) == Unix(b)
  {
  }

  /** Storing a status loses fractions of seconds and nothing that the invariant says. */
  lemma StoringKeepsConsistency(st: Status, now: Time)
    requires Consistent(st, now)
    ensures Consistent(Stored(st), now)
  {
    forall a: Time, b: Time | a <= b
      ensures WholeSecond(a) <= WholeSecond(b) && WholeSecond(b) <= b
    {
      WholeSecondIsMonotone(a, b);
    }
  }

  /** Each rule keeps the invariant, whatever the status it starts from. */
  lemma RulesKeepConsistency(spec: Spec, st: Status, began: Time, now: Time, wf: string, message: string, reason: Phase)
    requires Consistent(st, now) && began <= now
    ensures Consistent(Stop(st, now, message), now)
    ensures Consistent(ResetRemedy(st, reason), now)
    ensures Consistent(RecordSuccess(spec, st, began, now, wf), now)
    ensures Consistent(RecordFailure(st, began, now, wf, message), now)
    ensures Consistent(RecordRemedySuccess(st, began, now, wf), now)
    ensures Consistent(RecordRemedyFailure(st, began, now, wf, message), now)
  {
  }

  /** The read of RemedyFinishedAt is nil exactly for a configured remedy with a negative
      limit (and a reset interval) that has not completed since its last reset.
      A positive limit never gets there. */
  lemma NilDereferenceCondition(spec: Spec, st: Status, now: Time)
    requires Consistent(st, now)
    ensures RemedyGate(spec, st, now) == NilDereference
            <==> !spec.remedyWorkflow.IsEmpty() && spec.remedyRunsLimit < 0
                 && spec.remedyResetInterval != 0 && st.remedyTotalRuns == 0
  {
  }

  /** The gate ever holds a remedy back only when both the limit and the interval are set:
      a limit alone limits nothing. */
  lemma SkipCondition(spec: Spec, st: Status, now: Time)
    requires Consistent(st, now)
    ensures RemedyGate(spec, st, now) == SkipRemedy
            <==> !spec.remedyWorkflow.IsEmpty()
                 && spec.remedyRunsLimit != 0 && spec.remedyResetInterval != 0
                 && spec.remedyRunsLimit <= st.remedyTotalRuns
                 && st.remedyFinishedAt.Some?
                 && now - st.remedyFinishedAt.value < (spec.remedyResetInterval + 1) * SECOND
  {
    if st.remedyFinishedAt.Some? {
      var d := now - st.remedyFinishedAt.value;
      assert 0 <= d;
      assert spec.remedyResetInterval >= Quo(d, SECOND) <==> d < (spec.remedyResetInterval + 1) * SECOND;
    }
  }

  /** After a recorded success with a configured remedy the remedy part of the status is as
      on a fresh object, whether or not the reset branch ran, so the next failure meets the
      gate a fresh object meets. */
  lemma SuccessNormalForm(spec: Spec, st: Status, began: Time, now: Time, wf: string, later: Time, other: Spec)
    requires Consistent(st, now) && !spec.remedyWorkflow.IsEmpty()
    ensures var after := RecordSuccess(spec, st, began, now, wf);
            && after.remedyTotalRuns == 0 && after.remedySuccessCount == 0 && after.remedyFailedCount == 0
            && after.remedyStartedAt == None && after.remedyFinishedAt == None && after.remedyLastFailedAt == None
            && RemedyGate(other, after, later) == RemedyGate(other, NEW_STATUS, later)
  {
  }
}
