/** Runs in which the episodes of one check do not overlap, and what every such run keeps:
    the counters count the history, and the remedy limiter limits. */
module SerialRuns {
  import opened HealthChecks
  import opened StatusRules
  import opened Goroutines
  import opened Machine
  import opened Frames
  import opened Histories
  import StatusInvariant
  import SpecSafety

  // ---------------------------------------------------------------- the hypothesis

  /** From the decision to run until the last status write is over, a thread may write a status. */
  predicate InEpisode(pc: Pc) {
    pc.CreateRbac? || pc.Submit? || pc.WatchStart? || pc.Poll? || pc.RemedyRbac? || pc.RemedySubmit?
    || pc.RemedyStart? || pc.RemedyPoll? || pc.RemedyCleanup? || pc.WriteGet? || pc.WritePut?
  }

  predicate Runs(t: Thread, key: Key) {
    t.key == key && InEpisode(t.pc)
  }

  ghost predicate OneEpisode(s: State, key: Key) {
    forall i, j :: 0 <= i < |s.threads| && 0 <= j < |s.threads| && Runs(s.threads[i], key) && Runs(s.threads[j], key)
      ==> i == j
  }

  /** A reconcile that decides to run does so on the status that is stored at that moment. */
  predicate StartsCurrent(s: State, a: Action, key: Key)
    requires Enabled(s, a)
  {
    (a.Go? && s.threads[a.tid].key == key && s.threads[a.tid].pc.Decide?
     && InEpisode(Step(s.threads[a.tid], s.now, a.answer).pc) && key in s.store)
    ==> s.threads[a.tid].hc.status == s.store[key].status
  }

  /** The object is not created again while an episode of its predecessor is in flight. */
  predicate CreatesClean(s: State, a: Action, key: Key) {
    a.UserCreate? && a.key == key ==>
      forall i :: 0 <= i < |s.threads| ==> !Runs(s.threads[i], key)
  }

  ghost predicate SerialStep(s: State, a: Action, key: Key)
    requires Enabled(s, a)
  {
    OneEpisode(Next(s, a), key) && StartsCurrent(s, a, key) && CreatesClean(s, a, key)
  }

  ghost predicate SerialRun(s: State, run: seq<Action>, key: Key)
    requires ValidRun(s, run)
    decreases |run|
  {
    run == [] || (SerialStep(s, run[0], key) && SerialRun(Next(s, run[0]), run[1..], key))
  }

  /** What is assumed about the specs users give the check, and what is then tracked: nothing, and
      the counters of runs or those of remedies as well; or that they limit its remedies to at most
      `limit` runs with a reset interval of at least `interval` seconds. */
  datatype Policy = AnySpec | CountsRemedies | Limited(limit: int, interval: int)

  predicate Obeys(spec: Spec, p: Policy) {
    p.Limited? ==> 0 < spec.remedyRunsLimit <= p.limit && 0 < p.interval <= spec.remedyResetInterval
  }

  predicate UsersObey(a: Action, key: Key, p: Policy) {
    && (a.UserCreate? && a.key == key ==> Obeys(a.spec, p))
    && (a.UserEdit? && a.key == key ==> Obeys(a.spec, p))
  }

  // ---------------------------------------------------------------- one status against one history

  ghost predicate Counts(h: seq<Event>, st: Status) {
    st.successCount == Successes(h) && st.failedCount == Failures(h)
  }

  /** All completions before the last `st.remedyTotalRuns` ones are more than an interval older
      than now and than the ones that count; the recorded finish is the latest completion. */
  ghost predicate Limits(h: seq<Event>, st: Status, now: Time, p: Policy) {
    p.Limited? ==>
      && 0 < p.limit && 0 < p.interval
      && AlwaysSpread(h, p.limit, p.interval)
      && st.remedyTotalRuns <= p.limit
      && Dated(SinceSuccess(h), st, now, p.interval)
  }

  ghost predicate Dated(times: seq<Time>, st: Status, now: Time, interval: int) {
    var stale := |times| - st.remedyTotalRuns;
    && (forall i :: 0 <= i < |times| ==> times[i] <= now)
    && (forall i :: 0 <= i < |times| && i < stale ==> times[i] + interval * SECOND < now)
    && (forall i, j :: 0 <= i < stale && 0 <= j < |times| && stale <= j ==> times[i] + interval * SECOND < times[j])
    && (st.remedyTotalRuns >= 1 ==>
          && st.remedyFinishedAt.Some?
          && forall i :: 0 <= i < |times| ==> Unix(times[i]) <= Unix(st.remedyFinishedAt.value))
  }

  /** The remedy counters are the outcomes of the latest completions, as many as they count. */
  ghost predicate Recent(h: seq<Event>, st: Status) {
    var all := Outcomes(h);
    && 0 <= st.remedyTotalRuns <= |all|
    && var latest := all[|all| - st.remedyTotalRuns..];
       st.remedySuccessCount == Passes(latest) && st.remedyFailedCount == |latest| - Passes(latest)
  }

  ghost predicate Tracks(h: seq<Event>, st: Status, now: Time, p: Policy) {
    Counts(h, st) && Limits(h, st, now, p) && (p.CountsRemedies? ==> Recent(h, st))
  }

  lemma ResetIsRecent(h: seq<Event>, st: Status)
    requires st.remedyTotalRuns == 0 && st.remedySuccessCount == 0 && st.remedyFailedCount == 0
    ensures Recent(h, st)
  {
    assert Outcomes(h)[|Outcomes(h)|..] == [];
  }

  lemma RunIsRecent(h: seq<Event>, e: Event, st: Status, st': Status)
    requires Recent(h, st) && !e.Remedied?
    requires st'.remedyTotalRuns == st.remedyTotalRuns
    requires st'.remedySuccessCount == st.remedySuccessCount && st'.remedyFailedCount == st.remedyFailedCount
    ensures Recent(h + [e], st')
  {
    AppendOutcome(h, e);
    assert Outcomes(h) + [] == Outcomes(h);
  }

  lemma RemedyIsRecent(h: seq<Event>, e: Event, st: Status, st': Status)
    requires Recent(h, st) && e.Remedied? && st'.remedyTotalRuns == st.remedyTotalRuns + 1
    requires st'.remedySuccessCount == st.remedySuccessCount + if e.passed then 1 else 0
    requires st'.remedyFailedCount == st.remedyFailedCount + if e.passed then 0 else 1
    ensures Recent(h + [e], st')
  {
    hide Outcomes, Passes;
    AppendOutcome(h, e);
    var all := Outcomes(h);
    LatestGrows(all, e.passed, st.remedyTotalRuns);
    AppendPass(all[|all| - st.remedyTotalRuns..], e.passed);
  }

  lemma LatestGrows(all: seq<bool>, passed: bool, k: nat)
    requires k <= |all|
    ensures (all + [passed])[|all + [passed]| - (k + 1)..] == all[|all| - k..] + [passed]
  {
  }

  /** Room for one more remedy. */
  predicate HasRoom(st: Status, p: Policy) {
    p.Limited? ==> st.remedyTotalRuns < p.limit
  }

  lemma NothingHappened(now: Time, p: Policy)
    requires p.Limited? ==> 0 < p.limit && 0 < p.interval
    ensures Tracks([], NEW_STATUS, now, p)
  {
  }

  lemma TracksLater(h: seq<Event>, st: Status, now: Time, later: Time, p: Policy)
    requires Tracks(h, st, now, p) && now <= later
    ensures Tracks(h, st, later, p)
  {
  }

  /** Only the counters and one time of a status matter. */
  lemma TracksSame(h: seq<Event>, st: Status, st': Status, now: Time, p: Policy)
    requires Tracks(h, st, now, p)
    requires st'.successCount == st.successCount && st'.failedCount == st.failedCount
    requires st'.remedyTotalRuns == st.remedyTotalRuns
    requires st'.remedySuccessCount == st.remedySuccessCount && st'.remedyFailedCount == st.remedyFailedCount
    requires st'.remedyFinishedAt == st.remedyFinishedAt || st'.remedyFinishedAt == StoredTime(st.remedyFinishedAt)
    ensures Tracks(h, st', now, p)
  {
  }

  lemma SuccessTracks(h: seq<Event>, spec: Spec, st: Status, began: Time, now: Time, wf: string, p: Policy)
    requires Tracks(h, st, now, p) && Consistent(st, now)
    ensures Tracks(h + [RanOk(wf, now)], RecordSuccess(spec, st, began, now, wf), now, p)
  {
    AppendEvent(h, RanOk(wf, now));
    var st' := RecordSuccess(spec, st, began, now, wf);
    if st'.remedyTotalRuns == 0 {
      ResetIsRecent(h + [RanOk(wf, now)], st');
    } else if p.CountsRemedies? {
      RunIsRecent(h, RanOk(wf, now), st, st');
    }
    hide Recent;
    if p.Limited? { AppendSpread(h, RanOk(wf, now), p.limit, p.interval); }
  }

  lemma FailureTracks(h: seq<Event>, st: Status, began: Time, now: Time, wf: string, message: string, p: Policy)
    requires Tracks(h, st, now, p)
    ensures Tracks(h + [RanFailed(wf, now)], RecordFailure(st, began, now, wf, message), now, p)
  {
    AppendEvent(h, RanFailed(wf, now));
    hide Recent;
    if p.CountsRemedies? {
      RunIsRecent(h, RanFailed(wf, now), st, RecordFailure(st, began, now, wf, message));
    }
    if p.Limited? {
      SpreadSoFar(h, p);
      AppendSpread(h, RanFailed(wf, now), p.limit, p.interval);
    }
  }

  lemma SpreadSoFar(h: seq<Event>, p: Policy)
    requires p.Limited? && AlwaysSpread(h, p.limit, p.interval)
    ensures Spread(SinceSuccess(h), p.limit, p.interval)
  {
  }

  /** The reset branch: more than an interval has passed since every completion on record. The
      recorded finish may have lost its fraction of a second; the test still leaves no gap. */
  lemma ResetTracks(h: seq<Event>, spec: Spec, st: Status, now: Time, reason: Phase, p: Policy)
    requires Tracks(h, st, now, p) && Consistent(st, now) && Obeys(spec, p)
    requires RemedyGate(spec, st, now) == ResetThenRun
    ensures Tracks(h, ResetRemedy(st, reason), now, p)
    ensures HasRoom(ResetRemedy(st, reason), p)
  {
    ResetIsRecent(h, ResetRemedy(st, reason));
    hide Recent;
    if p.Limited? {
      var finished := st.remedyFinishedAt.value;
      var elapsed := now - finished;
      assert 0 <= elapsed && spec.remedyResetInterval < Quo(elapsed, SECOND);
      assert (spec.remedyResetInterval + 1) * SECOND <= elapsed;
      assert (p.interval + 1) * SECOND <= elapsed;
      var times := SinceSuccess(h);
      forall i | 0 <= i < |times| ensures times[i] + p.interval * SECOND < now {
        assert Unix(times[i]) <= Unix(finished);
        assert times[i] < (Unix(times[i]) + 1) * SECOND;
        assert Unix(finished) * SECOND <= finished;
      }
    }
  }

  /** A completed remedy, with room for it. */
  lemma RemedyTracks(h: seq<Event>, st: Status, st': Status, passed: bool, now: Time, p: Policy)
    requires Tracks(h, st, now, p) && Consistent(st, now) && HasRoom(st, p)
    requires st'.successCount == st.successCount && st'.failedCount == st.failedCount
    requires st'.remedyTotalRuns == st.remedyTotalRuns + 1 && st'.remedyFinishedAt == Some(now)
    requires st'.remedySuccessCount == st.remedySuccessCount + if passed then 1 else 0
    requires st'.remedyFailedCount == st.remedyFailedCount + if passed then 0 else 1
    ensures Tracks(h + [Remedied(passed, now)], st', now, p)
  {
    hide Recent;
    if p.CountsRemedies? { RemedyIsRecent(h, Remedied(passed, now), st, st'); }
    hide Dated, Spread, AlwaysSpread;
    var e := Remedied(passed, now);
    AppendEvent(h, e);
    if p.Limited? {
      SpreadSoFar(h, p);
      OneMoreRemedy(SinceSuccess(h), st, st', now, p);
      AppendSpread(h, e, p.limit, p.interval);
    }
  }

  lemma OneMoreRemedy(times: seq<Time>, st: Status, st': Status, now: Time, p: Policy)
    requires p.Limited? && 0 < p.limit && 0 <= st.remedyTotalRuns < p.limit
    requires Dated(times, st, now, p.interval) && Spread(times, p.limit, p.interval)
    requires st'.remedyTotalRuns == st.remedyTotalRuns + 1 && st'.remedyFinishedAt == Some(now)
    ensures Dated(times + [now], st', now, p.interval)
    ensures Spread(times + [now], p.limit, p.interval)
  {
    forall t | t in times ensures Unix(t) <= Unix(now) {
      var i :| 0 <= i < |times| && times[i] == t;
      assert times[i] <= now;
    }
  }

  // ---------------------------------------------------------------- one thread against its object

  /** A remedy is under way or about to be. */
  predicate InRemedy(pc: Pc) {
    pc.RemedyRbac? || pc.RemedySubmit? || pc.RemedyStart? || pc.RemedyPoll?
  }

  predicate Unread(pc: Pc) {
    pc.ReconcileGet? || pc.TimerGet?
  }

  /** An episode's status tracks the stored history together with its own unsaved events. */
  ghost predicate EpisodeOk(t: Thread, h: seq<Event>, now: Time, p: Policy) {
    && Tracks(h + t.unsaved, t.hc.status, now, p)
    && (InRemedy(t.pc) ==> HasRoom(t.hc.status, p))
  }

  lemma PassedPoll(t: Thread, now: Time, a: Answer)
    requires t.pc.Poll? && a.Saw? && Judge(a.lookup, t.pc.left == 0).Succeeded?
    ensures var t' := StepPoll(t, now, a);
            && t'.hc.status == RecordSuccess(t.hc.spec, t.hc.status, t.pc.began, now, t.pc.wf)
            && t'.unsaved == t.unsaved + [RanOk(t.pc.wf, now)]
            && !InRemedy(t'.pc)
  {
  }

  lemma FailedPoll(t: Thread, now: Time, a: Answer, failed: Status)
    requires t.pc.Poll? && a.Saw? && Judge(a.lookup, t.pc.left == 0).FailedWith?
    requires failed == RecordFailure(t.hc.status, t.pc.began, now, t.pc.wf, Judge(a.lookup, t.pc.left == 0).message)
    ensures var t' := StepPoll(t, now, a);
            var gate := RemedyGate(t.hc.spec, failed, now);
            && t'.hc.status == (if gate.ResetThenRun? then ResetRemedy(failed, ResetByInterval) else failed)
            && t'.unsaved == t.unsaved + [RanFailed(t.pc.wf, now)]
            && (InRemedy(t'.pc) <==> gate.RunRemedy? || gate.ResetThenRun?)
  {
    hide RemedyGate, RecordFailure, ResetRemedy;
  }

  lemma UndecidedPoll(t: Thread, now: Time, a: Answer)
    requires t.pc.Poll?
    requires a.Saw? ==> Judge(a.lookup, t.pc.left == 0).Undecided? || Judge(a.lookup, t.pc.left == 0).LookupFailed?
    ensures var t' := StepPoll(t, now, a);
            t'.hc == t.hc && t'.unsaved == t.unsaved && !InRemedy(t'.pc)
  {
  }

  lemma PollTracks(t: Thread, h: seq<Event>, now: Time, a: Answer, p: Policy)
    requires t.pc.Poll? && EpisodeOk(t, h, now, p) && Obeys(t.hc.spec, p) && StatusInvariant.ThreadOk(t, now)
    ensures EpisodeOk(StepPoll(t, now, a), h, now, p)
  {
    hide StepPoll, Tracks, Consistent, RemedyGate, RecordSuccess, RecordFailure, ResetRemedy, HasRoom;
    var all := h + t.unsaved;
    if a.Saw? && Judge(a.lookup, t.pc.left == 0).Succeeded? {
      PassedPoll(t, now, a);
      SuccessTracks(all, t.hc.spec, t.hc.status, t.pc.began, now, t.pc.wf, p);
      assert h + (t.unsaved + [RanOk(t.pc.wf, now)]) == all + [RanOk(t.pc.wf, now)];
    } else if a.Saw? && Judge(a.lookup, t.pc.left == 0).FailedWith? {
      var message := Judge(a.lookup, t.pc.left == 0).message;
      var e := RanFailed(t.pc.wf, now);
      var failed := RecordFailure(t.hc.status, t.pc.began, now, t.pc.wf, message);
      FailedPoll(t, now, a, failed);
      FailureTracks(all, t.hc.status, t.pc.began, now, t.pc.wf, message, p);
      RulesKeepConsistency(t.hc.spec, t.hc.status, t.pc.began, now, t.pc.wf, message, Unset);
      assert h + (t.unsaved + [e]) == all + [e];
      GateTracks(all + [e], t.hc.spec, failed, now, p);
    } else {
      UndecidedPoll(t, now, a);
    }
  }

  lemma GateTracks(h: seq<Event>, spec: Spec, st: Status, now: Time, p: Policy)
    requires Tracks(h, st, now, p) && Consistent(st, now) && Obeys(spec, p)
    ensures RemedyGate(spec, st, now).RunRemedy? ==> HasRoom(st, p)
    ensures RemedyGate(spec, st, now).ResetThenRun? ==>
              && Tracks(h, ResetRemedy(st, ResetByInterval), now, p)
              && HasRoom(ResetRemedy(st, ResetByInterval), p)
  {
    if RemedyGate(spec, st, now).ResetThenRun? {
      ResetTracks(h, spec, st, now, ResetByInterval, p);
    }
  }

  lemma RemedyPollTracks(t: Thread, h: seq<Event>, now: Time, a: Answer, p: Policy)
    requires t.pc.RemedyPoll? && EpisodeOk(t, h, now, p) && StatusInvariant.ThreadOk(t, now)
    ensures EpisodeOk(StepRemedyPoll(t, now, a), h, now, p)
  {
    hide StepRemedyPoll, Tracks, Consistent;
    var t' := StepRemedyPoll(t, now, a);
    if a.Saw? && (Judge(a.lookup, t.pc.left == 0).Succeeded? || Judge(a.lookup, t.pc.left == 0).FailedWith?) {
      DecidedRemedyPoll(t, now, a);
      var e := Remedied(Judge(a.lookup, t.pc.left == 0).Succeeded?, now);
      RemedyTracks(h + t.unsaved, t.hc.status, t'.hc.status, e.passed, now, p);
      assert h + (t.unsaved + [e]) == h + t.unsaved + [e];
    } else {
      UndecidedRemedyPoll(t, now, a);
    }
  }

  lemma DecidedRemedyPoll(t: Thread, now: Time, a: Answer)
    requires t.pc.RemedyPoll? && Consistent(t.hc.status, now)
    requires a.Saw? && (Judge(a.lookup, t.pc.left == 0).Succeeded? || Judge(a.lookup, t.pc.left == 0).FailedWith?)
    ensures var t' := StepRemedyPoll(t, now, a);
            && t'.unsaved == t.unsaved + [Remedied(Judge(a.lookup, t.pc.left == 0).Succeeded?, now)] && !InRemedy(t'.pc)
            && t'.hc.status.successCount == t.hc.status.successCount
            && t'.hc.status.failedCount == t.hc.status.failedCount
            && t'.hc.status.remedyTotalRuns == t.hc.status.remedyTotalRuns + 1
            && t'.hc.status.remedyFinishedAt == Some(now)
            && var passed := Judge(a.lookup, t.pc.left == 0).Succeeded?;
               && t'.hc.status.remedySuccessCount == t.hc.status.remedySuccessCount + (if passed then 1 else 0)
               && t'.hc.status.remedyFailedCount == t.hc.status.remedyFailedCount + (if passed then 0 else 1)
  {
  }

  lemma UndecidedRemedyPoll(t: Thread, now: Time, a: Answer)
    requires t.pc.RemedyPoll?
    requires !(a.Saw? && (Judge(a.lookup, t.pc.left == 0).Succeeded? || Judge(a.lookup, t.pc.left == 0).FailedWith?))
    ensures var t' := StepRemedyPoll(t, now, a);
            t'.hc == t.hc && t'.unsaved == t.unsaved
  {
  }

  lemma RemedyFollowsPoll(t: Thread, now: Time, a: Answer)
    requires InRemedy(Step(t, now, a).pc)
    ensures t.pc.Poll? || InRemedy(t.pc)
  {
    hide StepPoll, StepRemedyPoll, StepRemedySubmit, StepDecide, StepSubmit, StepWriteGet, StepWritePut, StepLast;
    EarlyIsNotRemedy(t, now, a);
    LateIsNotRemedy(t, a);
  }

  lemma EarlyIsNotRemedy(t: Thread, now: Time, a: Answer)
    ensures t.pc.Decide? ==> !InRemedy(StepDecide(t, now, a).pc)
    ensures t.pc.Submit? ==> !InRemedy(StepSubmit(t, a).pc)
  {
  }

  lemma LateIsNotRemedy(t: Thread, a: Answer)
    ensures t.pc.WriteGet? ==> !InRemedy(StepWriteGet(t, a).pc)
    ensures t.pc.WritePut? ==> !InRemedy(StepWritePut(t, a).pc)
    ensures t.pc.LastGet? || t.pc.LastPut? ==> !InRemedy(StepLast(t, a).pc)
  {
  }

  /** A step inside an episode. */
  lemma EpisodeStepTracks(t: Thread, h: seq<Event>, now: Time, a: Answer, p: Policy)
    requires InEpisode(t.pc) && EpisodeOk(t, h, now, p) && Obeys(t.hc.spec, p) && StatusInvariant.ThreadOk(t, now)
    requires InEpisode(Step(t, now, a).pc)
    ensures EpisodeOk(Step(t, now, a), if t.pc.WritePut? && a.Done? then h + t.unsaved else h, now, p)
  {
    if t.pc.Poll? {
      StepAtPoll(t, now, a);
      hide Step, StepPoll, Tracks;
      PollTracks(t, h, now, a, p);
    } else if t.pc.RemedyPoll? {
      StepAtPoll(t, now, a);
      hide Step, StepRemedyPoll, Tracks;
      RemedyPollTracks(t, h, now, a, p);
    } else {
      StepKeepsStatus(t, now, a);
      if InRemedy(Step(t, now, a).pc) { RemedyFollowsPoll(t, now, a); }
      hide Step, Tracks;
      assert h + t.unsaved + [] == h + t.unsaved;
    }
  }

  lemma StepAtPoll(t: Thread, now: Time, a: Answer)
    ensures t.pc.Poll? ==> Step(t, now, a) == StepPoll(t, now, a)
    ensures t.pc.RemedyPoll? ==> Step(t, now, a) == StepRemedyPoll(t, now, a)
  {
  }

  // ---------------------------------------------------------------- the invariant of serial runs

  ghost predicate ThreadOk(s: State, t: Thread, p: Policy) {
    && (Unread(t.pc) || t.pc.Decide? ==> t.unsaved == [])
    && (t.pc.Decide? || InEpisode(t.pc) ==> Obeys(t.hc.spec, p))
    && (InEpisode(t.pc) && t.key in s.store ==> EpisodeOk(t, s.store[t.key].history, s.now, p))
  }

  ghost predicate ObjectOk(s: State, key: Key, p: Policy) {
    key in s.store ==>
      && Obeys(s.store[key].spec, p)
      && Tracks(s.store[key].history, s.store[key].status, s.now, p)
  }

  ghost predicate SerialOk(s: State, key: Key, p: Policy) {
    && OneEpisode(s, key)
    && ObjectOk(s, key, p)
    && forall i :: 0 <= i < |s.threads| && s.threads[i].key == key ==> ThreadOk(s, s.threads[i], p)
  }

  ghost predicate Inv(s: State, key: Key, p: Policy) {
    StatusInvariant.Inv(s) && SpecSafety.Inv(s) && SerialOk(s, key, p)
  }

  lemma PolicyFieldsStay(t: Thread, now: Time, a: Answer)
    requires t.pc.Decide? || InEpisode(t.pc)
    ensures var spec' := Step(t, now, a).hc.spec;
            && spec'.remedyRunsLimit == t.hc.spec.remedyRunsLimit
            && spec'.remedyResetInterval == t.hc.spec.remedyResetInterval
  {
    if t.pc.Poll? {
    } else if t.pc.RemedyPoll? {
    } else {
      hide StepPoll, StepRemedyPoll;
    }
  }

  lemma EntersEpisode(t: Thread, now: Time, a: Answer)
    requires InEpisode(Step(t, now, a).pc) && !InEpisode(t.pc)
    ensures (t.pc.Decide? && Step(t, now, a).unsaved == t.unsaved
             && (Step(t, now, a).hc.status == t.hc.status
                 || Step(t, now, a).hc.status == Stop(t.hc.status, now, STOP_MESSAGE)))
            || (t.pc.TimerGet? && a.Fetched? && Step(t, now, a).hc == a.copy && Step(t, now, a).unsaved == t.unsaved)
  {
  }

  lemma EntersDecide(t: Thread, now: Time, a: Answer)
    requires Step(t, now, a).pc.Decide? || Unread(Step(t, now, a).pc)
    ensures t.pc.ReconcileGet? && a.Fetched? && Step(t, now, a).pc.Decide?
    ensures Step(t, now, a).hc == a.copy && Step(t, now, a).unsaved == t.unsaved
  {
    hide StepPoll, StepRemedyPoll, StepDecide, StepSubmit, StepRemedySubmit;
    NeverDecides(t, now, a);
  }

  lemma NeverDecides(t: Thread, now: Time, a: Answer)
    ensures t.pc.Decide? ==> !StepDecide(t, now, a).pc.Decide? && !Unread(StepDecide(t, now, a).pc)
    ensures t.pc.Submit? ==> !StepSubmit(t, a).pc.Decide? && !Unread(StepSubmit(t, a).pc)
    ensures t.pc.RemedySubmit? ==> !StepRemedySubmit(t, a).pc.Decide? && !Unread(StepRemedySubmit(t, a).pc)
    ensures t.pc.Poll? ==> !StepPoll(t, now, a).pc.Decide? && !Unread(StepPoll(t, now, a).pc)
    ensures t.pc.RemedyPoll? ==> !StepRemedyPoll(t, now, a).pc.Decide? && !Unread(StepRemedyPoll(t, now, a).pc)
  {
  }

  /** How the object of `key` changes in a goroutine's step. */
  lemma ObjectAfterGo(s: State, tid: nat, a: Answer, key: Key)
    requires SpecSafety.Inv(s) && CanGo(s, tid, a)
    ensures var t := s.threads[tid];
            var s' := GoNext(s, tid, a);
            && (key in s'.store <==> key in s.store)
            && (key in s.store ==>
                  && s'.store[key].spec == s.store[key].spec
                  && if t.key == key && t.pc.WritePut? && TookEffect(a) then
                       && s'.store[key].status == Stored(t.hc.status)
                       && s'.store[key].history == s.store[key].history + t.unsaved
                     else
                       && s'.store[key].status == s.store[key].status
                       && s'.store[key].history == s.store[key].history)
  {
    hide Step, Effect, Answerable, GoNext, AfterStep;
    var t := s.threads[tid];
    GoFrame(s, tid, a);
    EffectFrame(s, tid, a);
    SpecSafety.GoKeepsInv(s, tid, a);
    assert key in s.store ==> key in SpecSafety.Specs(s) && SpecSafety.Specs(s)[key] == s.store[key].spec;
    assert key in GoNext(s, tid, a).store ==>
             SpecSafety.Specs(GoNext(s, tid, a))[key] == GoNext(s, tid, a).store[key].spec;
    if Writes(t, a) {
      if t.pc.WritePut? { EffectStatusWrite(s, tid, a); } else { EffectMainWrite(s, tid, a); }
    }
  }

  lemma ObjectStaysOk(s: State, tid: nat, a: Answer, key: Key, p: Policy)
    requires Inv(s, key, p) && CanGo(s, tid, a)
    ensures ObjectOk(GoNext(s, tid, a), key, p)
  {
    hide Step, Effect, Answerable, GoNext, AfterStep, Tracks, Obeys;
    var t := s.threads[tid];
    GoFrame(s, tid, a);
    ObjectAfterGo(s, tid, a, key);
    if key in s.store && t.key == key && t.pc.WritePut? && TookEffect(a) {
      assert EpisodeOk(t, s.store[key].history, s.now, p);
      TracksSame(s.store[key].history + t.unsaved, t.hc.status, Stored(t.hc.status), s.now, p);
    }
  }

  /** The moving thread keeps up with its object. */
  lemma MovedThreadOk(s: State, tid: nat, a: Answer, key: Key, p: Policy)
    requires Inv(s, key, p) && CanGo(s, tid, a) && s.threads[tid].key == key
    requires StartsCurrent(s, Go(tid, a), key)
    ensures ThreadOk(GoNext(s, tid, a), Step(s.threads[tid], s.now, a), p)
  {
    hide Effect, Answerable, GoNext, AfterStep, Tracks, Obeys, Step, StatusInvariant.ThreadOk;
    var t := s.threads[tid];
    var t' := Step(t, s.now, a);
    GoFrame(s, tid, a);
    ObjectAfterGo(s, tid, a, key);
    if a.Fetched? { FetchedIsStored(s, tid, a); }
    if Unread(t'.pc) || t'.pc.Decide? {
      EntersDecide(t, s.now, a);
    } else if InEpisode(t'.pc) {
      if InEpisode(t.pc) {
        PolicyStays(t, s.now, a, p);
        if key in s.store {
          EpisodeStepTracks(t, s.store[key].history, s.now, a, p);
          LostWritesEnd(t, s.now, a);
        }
      } else {
        EntersEpisode(t, s.now, a);
        if t.pc.Decide? { PolicyStays(t, s.now, a, p); }
        if key in s.store { EnteringTracks(s, tid, a, key, p); }
      }
    }
  }

  lemma EnteringTracks(s: State, tid: nat, a: Answer, key: Key, p: Policy)
    requires Inv(s, key, p) && CanGo(s, tid, a) && s.threads[tid].key == key && key in s.store
    requires !InEpisode(s.threads[tid].pc) && InEpisode(Step(s.threads[tid], s.now, a).pc)
    requires StartsCurrent(s, Go(tid, a), key)
    ensures EpisodeOk(Step(s.threads[tid], s.now, a), s.store[key].history, s.now, p)
  {
    hide Step, Effect, Answerable, Tracks, Obeys, StatusInvariant.ThreadOk;
    var t := s.threads[tid];
    var t' := Step(t, s.now, a);
    EntersEpisode(t, s.now, a);
    if InRemedy(t'.pc) { RemedyFollowsPoll(t, s.now, a); }
    if a.Fetched? { FetchedIsStored(s, tid, a); }
    var o := s.store[key];
    assert o.history + [] == o.history;
    TracksSame(o.history, o.status, t'.hc.status, s.now, p);
  }

  lemma PolicyStays(t: Thread, now: Time, a: Answer, p: Policy)
    requires Obeys(t.hc.spec, p) && (t.pc.Decide? || InEpisode(t.pc))
    ensures Obeys(Step(t, now, a).hc.spec, p)
  {
    hide Step;
    PolicyFieldsStay(t, now, a);
  }

  lemma LostWritesEnd(t: Thread, now: Time, a: Answer)
    ensures t.pc.WritePut? && a.LostReply? ==> !InEpisode(Step(t, now, a).pc)
  {
  }

  /** A thread that did not move still tracks its object: only an episode of its own check could
      have written, and there is only one. */
  lemma StillThreadOk(s: State, tid: nat, a: Answer, other: nat, key: Key, p: Policy)
    requires Inv(s, key, p) && CanGo(s, tid, a)
    requires other < |s.threads| && other != tid && s.threads[other].key == key
    ensures ThreadOk(GoNext(s, tid, a), s.threads[other], p)
  {
    hide Effect, Answerable, GoNext, AfterStep, Tracks, Obeys, Step, StatusInvariant.Inv, SpecSafety.Inv;
    GoFrame(s, tid, a);
    ObjectAfterGo(s, tid, a, key);
    assert Runs(s.threads[tid], key) && Runs(s.threads[other], key) ==> tid == other;
  }

  lemma GoKeepsSerial(s: State, tid: nat, a: Answer, key: Key, p: Policy)
    requires Inv(s, key, p) && CanGo(s, tid, a)
    requires StartsCurrent(s, Go(tid, a), key) && OneEpisode(GoNext(s, tid, a), key)
    ensures SerialOk(GoNext(s, tid, a), key, p)
  {
    hide Effect, Answerable, GoNext, AfterStep, ThreadOk, ObjectOk, OneEpisode, Step, StatusInvariant.Inv;
    hide SpecSafety.Inv;
    GoFrame(s, tid, a);
    ObjectStaysOk(s, tid, a, key, p);
    if s.threads[tid].key == key { MovedThreadOk(s, tid, a, key, p); }
    var s' := GoNext(s, tid, a);
    forall i | 0 <= i < |s'.threads| && s'.threads[i].key == key ensures ThreadOk(s', s'.threads[i], p) {
      if i != tid { StillThreadOk(s, tid, a, i, key, p); }
    }
  }

  lemma TickKeepsSerial(s: State, elapsed: nat, key: Key, p: Policy)
    requires SerialOk(s, key, p)
    ensures SerialOk(Next(s, Tick(elapsed)), key, p)
  {
    hide Tracks;
    var s' := Next(s, Tick(elapsed));
    if key in s.store {
      var o := s.store[key];
      TracksLater(o.history, o.status, s.now, s'.now, p);
      forall i | 0 <= i < |s.threads| && s.threads[i].key == key ensures ThreadOk(s', s'.threads[i], p) {
        var t := s.threads[i];
        assert ThreadOk(s, t, p);
        if InEpisode(t.pc) { TracksLater(o.history + t.unsaved, t.hc.status, s.now, s'.now, p); }
      }
    }
  }

  lemma UserKeepsSerial(s: State, a: Action, key: Key, p: Policy)
    requires Enabled(s, a) && SerialStep(s, a, key) && UsersObey(a, key, p) && SerialOk(s, key, p)
    requires a.UserCreate? || a.UserEdit? || a.UserMarkDeleting? || a.UserRemove?
    ensures SerialOk(Next(s, a), key, p)
  {
    if a.UserCreate? && a.key == key { NothingHappened(s.now, p); }
    hide Tracks, EpisodeOk;
    var s' := Next(s, a);
    forall i | 0 <= i < |s.threads| && s.threads[i].key == key ensures ThreadOk(s', s'.threads[i], p) {
      assert ThreadOk(s, s.threads[i], p);
      assert a.UserCreate? && a.key == key ==> !Runs(s.threads[i], key);
    }
  }

  lemma NextKeepsInv(s: State, a: Action, key: Key, p: Policy)
    requires Inv(s, key, p) && Enabled(s, a) && SerialStep(s, a, key) && UsersObey(a, key, p)
    ensures Inv(Next(s, a), key, p)
  {
    StatusInvariant.NextKeepsInv(s, a);
    SpecSafety.NextKeepsInv(s, a);
    hide StatusInvariant.Inv, SpecSafety.Inv;
    NextKeepsSerial(s, a, key, p);
  }

  lemma NextKeepsSerial(s: State, a: Action, key: Key, p: Policy)
    requires Inv(s, key, p) && Enabled(s, a) && SerialStep(s, a, key) && UsersObey(a, key, p)
    ensures SerialOk(Next(s, a), key, p)
  {
    hide Tracks, EpisodeOk, StatusInvariant.Inv, SpecSafety.Inv;
    if a.Go? {
      GoKeepsSerial(s, a.tid, a.answer, key, p);
    } else if a.Tick? {
      TickKeepsSerial(s, a.elapsed, key, p);
    } else if a.UserCreate? || a.UserEdit? || a.UserMarkDeleting? || a.UserRemove? {
      UserKeepsSerial(s, a, key, p);
    } else {
      StartKeepsSerial(s, a, key, p);
    }
  }

  lemma StartKeepsSerial(s: State, a: Action, key: Key, p: Policy)
    requires SerialOk(s, key, p) && Enabled(s, a) && OneEpisode(Next(s, a), key)
    requires a.StartReconcile? || a.Fire? || a.Crash?
    ensures SerialOk(Next(s, a), key, p)
  {
    hide Tracks, EpisodeOk, Obeys;
  }

  ghost predicate AllObey(run: seq<Action>, key: Key, p: Policy) {
    forall i :: 0 <= i < |run| ==> UsersObey(run[i], key, p)
  }

  lemma {:induction false} RunKeepsInv(s: State, run: seq<Action>, key: Key, p: Policy)
    requires ValidRun(s, run) && Inv(s, key, p) && SerialRun(s, run, key) && AllObey(run, key, p)
    ensures Inv(Exec(s, run), key, p)
    decreases |run|
  {
    hide Inv, SerialStep, UsersObey, Enabled, Next;
    if run != [] {
      NextKeepsInv(s, run[0], key, p);
      RunKeepsInv(Next(s, run[0]), run[1..], key, p);
    }
  }

  lemma InitKeepsInv(start: Time, mapMade: bool, key: Key, p: Policy)
    ensures Inv(Init(start, mapMade), key, p)
  {
  }

  // ---------------------------------------------------------------- the theorems

  /** Serial runs conserve episodes: the stored counters are the numbers of successes and
      failures in the persisted history, each of which stands for one episode. */
  lemma CountersCountTheHistory(start: Time, mapMade: bool, run: seq<Action>, key: Key)
    requires ValidRun(Init(start, mapMade), run) && SerialRun(Init(start, mapMade), run, key)
    requires key in Exec(Init(start, mapMade), run).store
    ensures var o := Exec(Init(start, mapMade), run).store[key];
            && o.status.successCount == Successes(o.history)
            && o.status.failedCount == Failures(o.history)
            && o.status.totalHealthCheckRuns == Successes(o.history) + Failures(o.history)
  {
    InitKeepsInv(start, mapMade, key, AnySpec);
    RunKeepsInv(Init(start, mapMade), run, key, AnySpec);
  }

  /** In a serial run the stored remedy counters are the outcomes of the latest remedy completions of
      the history, as many as RemedyTotalRuns says; a reset by a success or by the interval makes it
      none. */
  lemma RemedyCountersCountTheLatest(start: Time, mapMade: bool, run: seq<Action>, key: Key)
    requires ValidRun(Init(start, mapMade), run) && SerialRun(Init(start, mapMade), run, key)
    requires key in Exec(Init(start, mapMade), run).store
    ensures var o := Exec(Init(start, mapMade), run).store[key];
            var all := Outcomes(o.history);
            && 0 <= o.status.remedyTotalRuns <= |all|
            && var latest := all[|all| - o.status.remedyTotalRuns..];
               && o.status.remedySuccessCount == Passes(latest)
               && o.status.remedyFailedCount == |latest| - Passes(latest)
  {
    InitKeepsInv(start, mapMade, key, CountsRemedies);
    RunKeepsInv(Init(start, mapMade), run, key, CountsRemedies);
  }

  /** The sliding-window limit. While every spec of the check has a limit of at most `limit` runs
      and a reset interval of at least `interval` seconds, any stretch of its persisted history
      without a success and with more than `limit` remedy completions is longer than `interval`
      seconds: through interval resets, resets whose remedy then failed, vanished workflows, lost
      replies, conflicts, edits of the spec and crashes. */
  lemma RemediesAreLimited(start: Time, mapMade: bool, run: seq<Action>, key: Key, limit: int, interval: int,
                           from: nat, to: nat)
    requires 0 < limit && 0 < interval
    requires ValidRun(Init(start, mapMade), run) && SerialRun(Init(start, mapMade), run, key)
    requires AllObey(run, key, Limited(limit, interval))
    requires key in Exec(Init(start, mapMade), run).store
    requires var h := Exec(Init(start, mapMade), run).store[key].history;
             from <= to <= |h| && NoSuccess(h[from..to]) && |Remedies(h[from..to])| > limit
    ensures var times := Remedies(Exec(Init(start, mapMade), run).store[key].history[from..to]);
            times[|times| - 1] - times[0] > interval * SECOND
  {
    var p := Limited(limit, interval);
    InitKeepsInv(start, mapMade, key, p);
    RunKeepsInv(Init(start, mapMade), run, key, p);
    var o := Exec(Init(start, mapMade), run).store[key];
    assert Limits(o.history, o.status, Exec(Init(start, mapMade), run).now, p);
    StretchIsLong(o.history, from, to, limit, interval);
  }
}
