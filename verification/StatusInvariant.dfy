/** The status invariant, crash by crash: every stored status and every in-memory status is
    consistent in every reachable state, under any interleaving of any number of episodes. */
module StatusInvariant {
  import opened HealthChecks
  import opened StatusRules
  import opened Goroutines
  import opened Machine
  import opened Frames

  /** The failure that started a remedy is dated no later than the remedy. */
  ghost predicate FailedAt(st: Status, bound: Time) {
    && st.finishedAt.Some? && st.lastFailedAt == st.finishedAt
    && st.finishedAt.value <= bound
  }

  ghost predicate RemedyFollowsFailure(st: Status) {
    st.remedyStartedAt.Some? && FailedAt(st, st.remedyStartedAt.value)
  }

  ghost predicate PhaseOk(t: Thread, now: Time) {
    match t.pc
    case Poll(_, began, _) => began <= now
    case RemedyRbac => FailedAt(t.hc.status, now)
    case RemedySubmit => FailedAt(t.hc.status, now)
    case RemedyStart(_) => FailedAt(t.hc.status, now)
    case RemedyPoll(_, began, _) => FailedAt(t.hc.status, began) && began <= now
    case WriteGet(w, _) => w.AfterRemedy? ==> RemedyFollowsFailure(t.hc.status)
    case WritePut(w, _, _) => w.AfterRemedy? ==> RemedyFollowsFailure(t.hc.status)
    case _ => true
  }

  ghost predicate ThreadOk(t: Thread, now: Time) {
    Consistent(t.hc.status, now) && PhaseOk(t, now)
  }

  ghost predicate Inv(s: State) {
    && (forall k :: k in s.store ==> Consistent(s.store[k].status, s.now))
    && (forall i :: 0 <= i < |s.threads| ==> ThreadOk(s.threads[i], s.now))
  }

  lemma ThreadOkLater(t: Thread, now: Time, later: Time)
    requires ThreadOk(t, now) && now <= later
    ensures ThreadOk(t, later)
  {
  }

  lemma PollKeepsOk(t: Thread, now: Time, a: Answer)
    requires ThreadOk(t, now) && t.pc.Poll?
    ensures ThreadOk(StepPoll(t, now, a), now)
  {
    hide Consistent, RecordSuccess, RecordFailure, ResetRemedy, RemedyGate;
    if a.Saw? {
      var message := match Judge(a.lookup, t.pc.left == 0) case FailedWith(m) => m case _ => "";
      RulesKeepConsistency(t.hc.spec, t.hc.status, t.pc.began, now, t.pc.wf, message, ResetByInterval);
      var failed := RecordFailure(t.hc.status, t.pc.began, now, t.pc.wf, message);
      RulesKeepConsistency(t.hc.spec, failed, t.pc.began, now, t.pc.wf, message, ResetByInterval);
      FailureIsDated(t.hc.status, t.pc.began, now, t.pc.wf, message);
    }
  }

  lemma FailureIsDated(st: Status, began: Time, now: Time, wf: string, message: string)
    ensures var failed := RecordFailure(st, began, now, wf, message);
            FailedAt(failed, now) && FailedAt(ResetRemedy(failed, ResetByInterval), now)
  {
  }

  lemma RemedyPollKeepsOk(t: Thread, now: Time, a: Answer)
    requires ThreadOk(t, now) && t.pc.RemedyPoll?
    ensures ThreadOk(StepRemedyPoll(t, now, a), now)
  {
    if a.Saw? {
      var message := match Judge(a.lookup, t.pc.left == 0) case FailedWith(m) => m case _ => "";
      RulesKeepConsistency(t.hc.spec, t.hc.status, t.pc.began, now, t.pc.wf, message, ResetByInterval);
    }
  }

  lemma DecideKeepsOk(t: Thread, now: Time, a: Answer)
    requires ThreadOk(t, now) && t.pc.Decide?
    ensures ThreadOk(StepDecide(t, now, a), now)
  {
    hide Consistent, RecordSuccess, RecordFailure, RecordRemedySuccess, RecordRemedyFailure, ResetRemedy;
    RulesKeepConsistency(t.hc.spec, t.hc.status, now, now, "", STOP_MESSAGE, Unset);
  }

  lemma OtherStepsKeepPhase(t: Thread, now: Time, a: Answer)
    requires PhaseOk(t, now) && !TouchesStatus(t.pc)
    ensures PhaseOk(Step(t, now, a), now)
  {
    hide StepPoll, StepRemedyPoll, StepDecide, Consistent;
    StepKeepsStatus(t, now, a);
  }

  /** One step of the program keeps the invariant of the status it holds. */
  lemma StepKeepsOk(t: Thread, now: Time, a: Answer)
    requires ThreadOk(t, now)
    requires a.Fetched? ==> Consistent(a.copy.status, now)
    ensures ThreadOk(Step(t, now, a), now)
  {
    hide StepPoll, StepRemedyPoll, StepDecide, Consistent;
    match t.pc {
      case Poll(_, _, _) => PollKeepsOk(t, now, a);
      case RemedyPoll(_, _, _) => RemedyPollKeepsOk(t, now, a);
      case Decide => DecideKeepsOk(t, now, a);
      case ReconcileGet =>
      case TimerGet =>
      case _ =>
        StepKeepsStatus(t, now, a);
        OtherStepsKeepPhase(t, now, a);
    }
  }

  lemma GoKeepsInv(s: State, tid: nat, a: Answer)
    requires Inv(s) && CanGo(s, tid, a)
    ensures Inv(GoNext(s, tid, a))
  {
    hide Step, Effect, Answerable, Consistent, AfterStep, PhaseOk, GoNext;
    var t := s.threads[tid];
    GoFrame(s, tid, a);
    EffectFrame(s, tid, a);
    if a.Fetched? { FetchedIsStored(s, tid, a); }
    StepKeepsOk(t, s.now, a);
    if Writes(t, a) {
      if t.pc.WritePut? {
        EffectStatusWrite(s, tid, a);
        StoringKeepsConsistency(t.hc.status, s.now);
      } else {
        EffectMainWrite(s, tid, a);
      }
    }
  }

  lemma NextKeepsInv(s: State, a: Action)
    requires Inv(s) && Enabled(s, a)
    ensures Inv(Next(s, a))
  {
    if a.Go? {
      GoKeepsInv(s, a.tid, a.answer);
    } else {
      NewStatusIsConsistent(s.now);
      if a.Tick? {
        forall i | 0 <= i < |s.threads| ensures ThreadOk(s.threads[i], s.now + a.elapsed) {
          ThreadOkLater(s.threads[i], s.now, s.now + a.elapsed);
        }
      }
    }
  }

  lemma {:induction false} RunKeepsInv(s: State, run: seq<Action>)
    requires Inv(s) && ValidRun(s, run)
    ensures Inv(Exec(s, run))
    decreases |run|
  {
    if run != [] {
      NextKeepsInv(s, run[0]);
      RunKeepsInv(Next(s, run[0]), run[1..]);
    }
  }

  /** In every reachable state, whatever the interleaving and wherever the process crashed,
      every stored status satisfies the invariant, and so does every status a goroutine holds. */
  lemma EveryStatusIsConsistent(start: Time, mapMade: bool, run: seq<Action>)
    requires ValidRun(Init(start, mapMade), run)
    ensures var s := Exec(Init(start, mapMade), run);
            && (forall k :: k in s.store ==> Consistent(s.store[k].status, s.now))
            && (forall i :: 0 <= i < |s.threads| ==> Consistent(s.threads[i].hc.status, s.now))
  {
    RunKeepsInv(Init(start, mapMade), run);
  }

  /** The intermediate write of a remedy, in any reachable state, stores a failure and a remedy
      in order, with the remedy counted. */
  lemma RemedyWriteIsOrdered(s: State, tid: nat, a: Answer)
    requires Inv(s) && CanGo(s, tid, a)
    requires var pc := s.threads[tid].pc; pc.WritePut? && pc.write.AfterRemedy? && TookEffect(a)
    ensures var key := s.threads[tid].key;
            var after := GoNext(s, tid, a);
            && key in after.store
            && RemedyFollowsFailure(after.store[key].status)
            && after.store[key].status.remedyTotalRuns >= 1
  {
    hide Step, Effect, Answerable, AfterStep, GoNext;
    var t := s.threads[tid];
    GoFrame(s, tid, a);
    EffectStatusWrite(s, tid, a);
    assert ThreadOk(t, s.now);
    WholeSecondIsMonotone(t.hc.status.finishedAt.value, t.hc.status.remedyStartedAt.value);
  }

  /** A poll panics exactly when it finds a failed run, a remedy is configured, the limit is
      negative, a reset interval is set and no remedy has completed since the last reset. */
  lemma PollPanicsExactly(t: Thread, now: Time, a: Answer)
    requires ThreadOk(t, now) && t.pc.Poll? && a.Saw?
    ensures StepPoll(t, now, a).pc.Panicked?
            <==> && Judge(a.lookup, t.pc.left == 0).FailedWith?
                 && !t.hc.spec.remedyWorkflow.IsEmpty()
                 && t.hc.spec.remedyRunsLimit < 0 && t.hc.spec.remedyResetInterval != 0
                 && t.hc.status.remedyTotalRuns == 0
  {
    var verdict := Judge(a.lookup, t.pc.left == 0);
    if verdict.FailedWith? {
      var failed := RecordFailure(t.hc.status, t.pc.began, now, t.pc.wf, verdict.message);
      RulesKeepConsistency(t.hc.spec, t.hc.status, t.pc.began, now, t.pc.wf, verdict.message, Unset);
      NilDereferenceCondition(t.hc.spec, failed, now);
    }
  }
}
