/** Remedies that nothing limits. Unless a positive limit comes with a positive reset interval, or
    a negative limit makes the gate panic, a check that keeps failing runs its remedy at every
    failure, as often as the check itself runs, whether the remedies pass or fail. */
module UnlimitedRemedies {
  import opened HealthChecks
  import opened StatusRules
  import opened Goroutines
  import opened Machine
  import opened Histories
  import opened Spacing
  import opened Episodes
  import SerialRuns
  import opened StepOutcomes
  import opened SpacingLimits
  import RbacNames
  import Templates

  predicate Unlimited(spec: Spec) {
    spec.remedyRunsLimit == 0 || spec.remedyResetInterval == 0
    || (spec.remedyRunsLimit > 0 && spec.remedyResetInterval < 0)
  }

  /** A status on which the gate of such a spec neither skips nor panics. */
  predicate Open(st: Status, now: Time) {
    st.remedyTotalRuns <= 0 || (st.remedyFinishedAt.Some? && st.remedyFinishedAt.value <= now)
  }

  /** A status on which the gate of a spec lets the remedy run. */
  predicate Opens(spec: Spec, st: Status, now: Time) {
    || !UsedUp(spec, st)
    || (st.remedyFinishedAt.Some? && st.remedyFinishedAt.value <= now && !HeldBack(spec, st, now))
  }

  lemma GateIsOpen(spec: Spec, st: Status, now: Time)
    requires RbacNames.HasRemedy(spec) && Unlimited(spec) && Open(st, now)
    ensures RemedyGate(spec, st, now).RunRemedy? || RemedyGate(spec, st, now).ResetThenRun?
    ensures Opens(spec, st, now)
  {
  }

  lemma GateOpens(spec: Spec, st: Status, now: Time)
    requires RbacNames.HasRemedy(spec) && Opens(spec, st, now)
    ensures if UsedUp(spec, st) then RemedyGate(spec, st, now).ResetThenRun? else RemedyGate(spec, st, now).RunRemedy?
  {
    if st.remedyFinishedAt.Some? && st.remedyFinishedAt.value <= now {
      var d := now - st.remedyFinishedAt.value;
      assert spec.remedyResetInterval >= Quo(d, SECOND) <==> d < (spec.remedyResetInterval + 1) * SECOND;
    }
  }

  // ---------------------------------------------------------------- one failing episode

  /** The status a failed run takes through the gate. */
  function Failing(t: Thread, now: Time): Status
    requires t.pc.Poll?
  {
    var failed := RecordFailure(t.hc.status, t.pc.began, now, t.pc.wf, "");
    if RemedyGate(t.hc.spec, failed, now).ResetThenRun? then ResetRemedy(failed, ResetByInterval) else failed
  }

  lemma Fails(s: State, tid: nat, key: Key)
    requires Clear(s, tid, key) && s.threads[tid].pc.Poll? && s.threads[tid].pc.left == 1 && s.threads[tid].pc.wf != ""
    requires RbacNames.HasRemedy(s.threads[tid].hc.spec)
    requires Opens(s.threads[tid].hc.spec, s.threads[tid].hc.status, s.now)
    ensures var a := Go(tid, Saw(Found(Phase.Failed, "")));
            var t := s.threads[tid];
            && Enabled(s, a) && SpacedStep(s, a, key)
            && Next(s, a) == Moved(s, tid, t.(hc := t.hc.(status := Failing(t, s.now)),
                                              unsaved := t.unsaved + [RanFailed(t.pc.wf, s.now)],
                                              pc := RemedyRbac))
            && Clear(Next(s, a), tid, key)
  {
    var t := s.threads[tid];
    GateOpens(t.hc.spec, RecordFailure(t.hc.status, t.pc.began, s.now, t.pc.wf, ""), s.now);
    hide RecordFailure, ResetRemedy, RemedyGate, Opens;
    SoloStep(s, tid, Saw(Found(Phase.Failed, "")), key);
  }

  lemma Grants(s: State, tid: nat, key: Key)
    requires Clear(s, tid, key) && s.threads[tid].pc.RemedyRbac? && !RbacNames.Refused(s.threads[tid].hc.spec)
    ensures var t := s.threads[tid];
            && Enabled(s, Go(tid, Done)) && SpacedStep(s, Go(tid, Done), key)
            && Next(s, Go(tid, Done))
               == Moved(s, tid, t.(hc := t.hc.(spec := RbacNames.Renamed(t.hc.spec)), pc := RemedySubmit))
            && Clear(Next(s, Go(tid, Done)), tid, key)
  {
    hide RbacNames.Renamed;
    SoloStep(s, tid, Done, key);
  }

  function RemedyRead(spec: Spec): Spec {
    Templates.SpecAfter(spec, Templates.ParseRemedyWorkflow(spec, TEMPLATE))
  }

  lemma SubmitsRemedy(s: State, tid: nat, key: Key, wf: string)
    requires Clear(s, tid, key) && s.threads[tid].pc.RemedySubmit?
    requires s.threads[tid].hc.spec.remedyWorkflow.resource.Some? && wf != "" && wf !in s.submitted
    ensures var a := Go(tid, Submission(Some(wf), TEMPLATE));
            var t := s.threads[tid];
            && Enabled(s, a) && SpacedStep(s, a, key)
            && Next(s, a) == Moved(s.(submitted := s.submitted + {wf}), tid,
                                   t.(hc := t.hc.(spec := RemedyRead(t.hc.spec)), pc := RemedyStart(wf)))
            && Clear(Next(s, a), tid, key)
  {
    assert GoNext(s, tid, Submission(Some(wf), TEMPLATE)).threads[tid].pc.RemedyStart?;
    SoloStep(s, tid, Submission(Some(wf), TEMPLATE), key);
  }

  lemma WatchesRemedy(s: State, tid: nat, key: Key)
    requires Clear(s, tid, key) && s.threads[tid].pc.RemedyStart?
    ensures var t := s.threads[tid];
            && Enabled(s, Go(tid, Budget(1))) && SpacedStep(s, Go(tid, Budget(1)), key)
            && Next(s, Go(tid, Budget(1))) == Moved(s, tid, t.(pc := RemedyPoll(t.pc.wf, s.now, 1)))
            && Clear(Next(s, Go(tid, Budget(1))), tid, key)
  {
    SoloStep(s, tid, Budget(1), key);
  }

  function RemedyPhase(passes: bool): Phase {
    if passes then Passed else Phase.Failed
  }

  function RemedyRan(t: Thread, now: Time, passes: bool): Status
    requires t.pc.RemedyPoll?
  {
    if passes then RecordRemedySuccess(t.hc.status, t.pc.began, now, t.pc.wf)
    else RecordRemedyFailure(t.hc.status, t.pc.began, now, t.pc.wf, "")
  }

  lemma RemedyEnds(s: State, tid: nat, key: Key, passes: bool)
    requires Clear(s, tid, key) && s.threads[tid].pc.RemedyPoll? && s.threads[tid].pc.left == 1
    ensures var a := Go(tid, Saw(Found(RemedyPhase(passes), "")));
            var t := s.threads[tid];
            && Enabled(s, a) && SpacedStep(s, a, key)
            && Next(s, a) == Moved(s, tid, t.(hc := t.hc.(status := RemedyRan(t, s.now, passes)),
                                              unsaved := t.unsaved + [Remedied(passes, s.now)],
                                              pc := WriteGet(AfterRemedy, ATTEMPTS)))
            && Clear(Next(s, a), tid, key)
  {
    hide RecordRemedySuccess, RecordRemedyFailure;
    SoloStep(s, tid, Saw(Found(RemedyPhase(passes), "")), key);
  }

  lemma WritesRemedy(s: State, tid: nat, key: Key)
    requires Clear(s, tid, key) && s.threads[tid].pc.WritePut? && s.threads[tid].pc.write.AfterRemedy?
    requires s.threads[tid].pc.rv == s.store[key].rv
    ensures var t := s.threads[tid];
            && Enabled(s, Go(tid, Done)) && SpacedStep(s, Go(tid, Done), key)
            && Next(s, Go(tid, Done))
               == Moved(s.(store := s.store[key := PutStatus(s.store[key], t.hc.status, s.nextRv, t.unsaved)],
                           nextRv := s.nextRv + 1), tid, t.(unsaved := [], pc := RemedyCleanup))
            && Clear(Next(s, Go(tid, Done)), tid, key)
  {
    SoloStep(s, tid, Done, key);
  }

  lemma CleansUp(s: State, tid: nat, key: Key)
    requires Clear(s, tid, key) && s.threads[tid].pc.RemedyCleanup?
    ensures var t := s.threads[tid];
            && Enabled(s, Go(tid, Done)) && SpacedStep(s, Go(tid, Done), key)
            && Next(s, Go(tid, Done)) == Moved(s, tid, t.(pc := WriteGet(Final, ATTEMPTS)))
            && Clear(Next(s, Go(tid, Done)), tid, key)
  {
    SoloStep(s, tid, Done, key);
  }

  /** `after` is `before` with an episode of `tid` behind it that stored `st` and `events` and
      re-armed with `interval`. */
  ghost predicate Through(before: State, after: State, tid: nat, key: Key, st: Status, events: seq<Event>,
                          interval: int) {
    && after.now == before.now && after.mapMade && after.lock.None?
    && key in before.store && key in after.store
    && after.store[key].spec == before.store[key].spec && after.store[key].deleting == before.store[key].deleting
    && after.store[key].status == Stored(st)
    && after.store[key].history == before.store[key].history + events
    && |after.timers| == |before.timers| + 1
    && after.timers[|before.timers|] == RepeatTimer(key, before.now + interval * SECOND, true)
    && forall i :: 0 <= i < |after.threads| ==> !BusyFor(after.threads[i], key)
  }

  lemma StoreFinal(s: State, tid: nat, key: Key) returns (run: seq<Action>)
    requires Clear(s, tid, key) && s.threads[tid].pc.WriteGet? && s.threads[tid].pc.write.Final?
    requires s.threads[tid].unsaved == []
    ensures Good(s, run, key) && OnlySteps(run)
    ensures var t := s.threads[tid];
            Through(s, Exec(s, run), tid, key, t.hc.status, [], t.hc.spec.repeatAfterSec)
  {
    run := Store(s, tid, key);
  }

  lemma StoreRemedy(s: State, tid: nat, key: Key) returns (run: seq<Action>)
    requires Clear(s, tid, key) && s.threads[tid].pc.WriteGet? && s.threads[tid].pc.write.AfterRemedy?
    ensures Good(s, run, key) && OnlySteps(run)
    ensures var t := s.threads[tid];
            Through(s, Exec(s, run), tid, key, t.hc.status, t.unsaved, t.hc.spec.repeatAfterSec)
  {
    hide Next, Enabled, SpacedStep;
    var t := s.threads[tid];
    var read := Go(tid, Fetched(CopyOf(s.store[key]), s.store[key].rv));
    var done := Go(tid, Done);
    Reads(s, tid, key);
    var s1 := Next(s, read);
    WritesRemedy(s1, tid, key);
    var s2 := Next(s1, done);
    CleansUp(s2, tid, key);
    var s3 := Next(s2, done);
    assert s3.store[key].history == s.store[key].history + t.unsaved;
    var rest := StoreFinal(s3, tid, key);
    assert s3.store[key].history + [] == s3.store[key].history;
    Fold(s2, done, rest, key);
    Fold(s1, done, [done] + rest, key);
    Fold(s, read, [done] + ([done] + rest), key);
    run := [read] + ([done] + ([done] + rest));
  }

  /** One more remedy is on record than on `before`. */
  predicate OneMoreThan(st: Status, before: Status) {
    st.remedyTotalRuns == before.remedySuccessCount + before.remedyFailedCount + 1
    == st.remedySuccessCount + st.remedyFailedCount
  }

  lemma RemedyCycle(s: State, tid: nat, key: Key, wf: string, passes: bool) returns (run: seq<Action>, st: Status)
    requires Clear(s, tid, key) && s.threads[tid].pc.RemedyRbac? && wf != "" && wf !in s.submitted
    requires RbacNames.HasRemedy(s.threads[tid].hc.spec) && !RbacNames.Refused(s.threads[tid].hc.spec)
    ensures Good(s, run, key) && OnlySteps(run)
    ensures var t := s.threads[tid];
            && st.remedyFinishedAt == Some(s.now) && OneMoreThan(st, t.hc.status)
            && Through(s, Exec(s, run), tid, key, st, t.unsaved + [Remedied(passes, s.now)], t.hc.spec.repeatAfterSec)
  {
    hide Next, Enabled, SpacedStep, SpacedRun, SerialRuns.SerialRun, Through;
    var grant, watch := Go(tid, Done), Go(tid, Budget(1));
    var submit, end := Go(tid, Submission(Some(wf), TEMPLATE)), Go(tid, Saw(Found(RemedyPhase(passes), "")));
    Grants(s, tid, key);
    var s1 := Next(s, grant);
    RemedyIsNamed(s.threads[tid].hc.spec);
    SubmitsRemedy(s1, tid, key, wf);
    var s2 := Next(s1, submit);
    WatchesRemedy(s2, tid, key);
    var s3 := Next(s2, watch);
    RemedyEnds(s3, tid, key, passes);
    var s4 := Next(s3, end);
    var rest := StoreRemedy(s4, tid, key);
    st := s4.threads[tid].hc.status;
    ThroughSteps(s, s4, Exec(s4, rest), tid, key, st, s4.threads[tid].unsaved,
                 s4.threads[tid].hc.spec.repeatAfterSec);
    Fold(s3, end, rest, key);
    Fold(s2, watch, [end] + rest, key);
    Fold(s1, submit, [watch] + ([end] + rest), key);
    Fold(s, grant, [submit] + ([watch] + ([end] + rest)), key);
    run := [grant] + ([submit] + ([watch] + ([end] + rest)));
  }

  /** Steps that only move a goroutine and submit do not count. */
  lemma ThroughSteps(first: State, before: State, after: State, tid: nat, key: Key, st: Status, events: seq<Event>,
                     interval: int)
    requires Through(before, after, tid, key, st, events, interval)
    requires before.now == first.now && before.store == first.store && before.timers == first.timers
    ensures Through(first, after, tid, key, st, events, interval)
  {
  }

  lemma RemedyIsNamed(spec: Spec)
    requires RbacNames.HasRemedy(spec) && !RbacNames.Refused(spec)
    ensures RbacNames.Renamed(spec).remedyWorkflow.resource.Some?
    ensures RemedyRead(RbacNames.Renamed(spec)).repeatAfterSec == spec.repeatAfterSec
  {
  }

  /** What a failing episode asks of a spec. */
  predicate Remediable(spec: Spec) {
    Runnable(spec) && RbacNames.HasRemedy(spec) && Unlimited(spec)
  }

  lemma ParsedStaysRemediable(spec: Spec, st: Status, now: Time)
    requires Runnable(spec) && RbacNames.HasRemedy(spec)
    ensures var read := Templates.SpecAfter(spec, Templates.ParseWorkflow(spec, TEMPLATE));
            && Runnable(read) && RbacNames.HasRemedy(read) && read.repeatAfterSec == spec.repeatAfterSec
            && (Opens(read, st, now) <==> Opens(spec, st, now)) && (UsedUp(read, st) <==> UsedUp(spec, st))
  {
  }

  lemma FailingKeepsCounts(t: Thread, now: Time)
    requires t.pc.Poll? && RbacNames.HasRemedy(t.hc.spec) && Opens(t.hc.spec, t.hc.status, now)
    requires !UsedUp(t.hc.spec, t.hc.status)
    ensures SameRemedies(Failing(t, now), t.hc.status)
  {
    GateOpens(t.hc.spec, RecordFailure(t.hc.status, t.pc.began, now, t.pc.wf, ""), now);
  }

  /** A whole failing episode, remedy included. */
  lemma FailingEpisode(s: State, tid: nat, key: Key, passes: bool) returns (run: seq<Action>, st: Status, wf: string)
    requires Clear(s, tid, key) && s.threads[tid].pc.Submit? && s.threads[tid].unsaved == []
    requires Runnable(s.threads[tid].hc.spec) && RbacNames.HasRemedy(s.threads[tid].hc.spec)
    requires Opens(s.threads[tid].hc.spec, s.threads[tid].hc.status, s.now)
    ensures Good(s, run, key) && OnlySteps(run) && st.remedyFinishedAt == Some(s.now)
    ensures !UsedUp(s.threads[tid].hc.spec, s.threads[tid].hc.status) ==> OneMoreThan(st, s.threads[tid].hc.status)
    ensures Through(s, Exec(s, run), tid, key, st, [RanFailed(wf, s.now), Remedied(passes, s.now)],
                    s.threads[tid].hc.spec.repeatAfterSec)
  {
    hide Next, Enabled, SpacedStep, SpacedRun, SerialRuns.SerialRun, Through, Templates.ParseWorkflow, Opens, Failing;
    hide RbacNames.Refused, OneBusy, UsedUp;
    wf := FreshName(s.submitted);
    var second := FreshName(s.submitted + {wf});
    var submit, watch := Go(tid, Submission(Some(wf), TEMPLATE)), Go(tid, Budget(1));
    var fail := Go(tid, Saw(Found(Phase.Failed, "")));
    ParsedStaysRemediable(s.threads[tid].hc.spec, s.threads[tid].hc.status, s.now);
    Submits(s, tid, key, wf);
    var s1 := Next(s, submit);
    Watches(s1, tid, key);
    var s2 := Next(s1, watch);
    if !UsedUp(s2.threads[tid].hc.spec, s2.threads[tid].hc.status) { FailingKeepsCounts(s2.threads[tid], s.now); }
    Fails(s2, tid, key);
    var s3 := Next(s2, fail);
    run, st := RemedyCycle(s3, tid, key, second, passes);
    var events := [RanFailed(wf, s.now), Remedied(passes, s.now)];
    assert [] + [RanFailed(wf, s.now)] + [Remedied(passes, s.now)] == events;
    ThroughSteps(s, s3, Exec(s3, run), tid, key, st, events, s.threads[tid].hc.spec.repeatAfterSec);
    Fold(s2, fail, run, key);
    Fold(s1, watch, [fail] + run, key);
    Fold(s, submit, [watch] + ([fail] + run), key);
    run := [submit] + ([watch] + ([fail] + run));
  }

  // ---------------------------------------------------------------- failure after failure

  /** The instant of run `i`. */
  function Nth(start: Time, interval: int, i: int): Time {
    start + i * (interval * SECOND)
  }

  lemma NthNext(start: Time, interval: int, i: int)
    ensures Nth(start, interval, 0) == start
    ensures Nth(start, interval, i) + interval * SECOND == Nth(start, interval, i + 1)
  {
  }

  /** `n` failing runs, each with its remedy, an interval apart from `start` on; outcome `i` is the
      outcome of the remedy of run `i`. */
  ghost predicate AllRemedied(h: seq<Event>, start: Time, interval: int, outcomes: nat -> bool, n: nat) {
    && |h| == 2 * n
    && forall i: nat :: i < n ==>
         && h[2 * i].RanFailed? && h[2 * i].at == Nth(start, interval, i)
         && h[2 * i + 1] == Remedied(outcomes(i), Nth(start, interval, i))
  }

  /** After the latest of them: the next one is due an interval from now. */
  ghost predicate Between(s: State, id: nat, key: Key, spec: Spec) {
    && Due(s.(now := s.now + spec.repeatAfterSec * SECOND), id, key)
    && s.store[key].spec == spec && Open(s.store[key].status, s.now)
  }

  lemma ThroughIsBetween(before: State, after: State, tid: nat, key: Key, st: Status, events: seq<Event>, spec: Spec)
    requires Through(before, after, tid, key, st, events, spec.repeatAfterSec)
    requires before.store[key].spec == spec && !before.store[key].deleting && st.remedyFinishedAt == Some(before.now)
    ensures Between(after, |before.timers|, key, spec)
    ensures key in after.store && after.store[key].status.remedyFinishedAt == Some(WholeSecond(after.now))
    ensures key in after.store && (forall u :: OneMoreThan(st, u) ==> OneMoreThan(after.store[key].status, u))
  {
    WholeSecondIsMonotone(before.now, before.now);
  }

  lemma FirstFailure(start: Time, key: Key, spec: Spec, outcomes: nat -> bool) returns (run: seq<Action>, id: nat)
    requires key.name != "" && Runnable(spec) && RbacNames.HasRemedy(spec) && spec.repeatAfterSec > 0
    requires !UsedUp(spec, NEW_STATUS)
    ensures Good(Init(start, true), run, key) && AllKeepInterval(run, key, spec.repeatAfterSec)
    ensures var s := Exec(Init(start, true), run);
            && Between(s, id, key, spec) && s.now == start && key in s.store
            && AllRemedied(s.store[key].history, start, spec.repeatAfterSec, outcomes, 1)
            && OneMoreThan(s.store[key].status, NEW_STATUS)
            && s.store[key].status.remedyFinishedAt == Some(WholeSecond(s.now))
  {
    hide SpacedRun, SerialRuns.SerialRun, AllKeepInterval, OnlySteps, Between, At, Clear, Open, Opens, Through;
    hide AllRemedied, Exec, Nth, Next, Enabled, Init, RbacNames.Renamed, UsedUp, Runnable, OneMoreThan;
    var first := Starting(start, true, key, spec);
    var s := At(start, true, key, spec, RbacNames.Renamed(spec), Submit);
    FirstSubmits(start, key, spec);
    var episode, st, wf := FailingEpisode(s, 0, key, outcomes(0));
    var events := [RanFailed(wf, start), Remedied(outcomes(0), start)];
    ThroughIsBetween(s, Exec(s, episode), 0, key, st, events, spec);
    ThroughHistory(s, Exec(s, episode), 0, key, st, events, spec.repeatAfterSec);
    NoneRemedied(start, spec.repeatAfterSec, outcomes);
    OneMoreRemedied([], start, spec.repeatAfterSec, outcomes, 0, wf);
    assert [] + events == events;
    KeepingConcat(first, episode, key, spec.repeatAfterSec);
    Concat(Init(start, true), first, episode, key);
    run, id := first + episode, 0;
  }

  lemma FirstSubmits(start: Time, key: Key, spec: Spec)
    requires Runnable(spec) && RbacNames.HasRemedy(spec) && !UsedUp(spec, NEW_STATUS) && spec.repeatAfterSec > 0
    ensures var s := At(start, true, key, spec, RbacNames.Renamed(spec), Submit);
            && Edited(spec) == spec
            && Clear(s, 0, key) && s.threads[0].pc.Submit? && s.threads[0].unsaved == []
            && Runnable(s.threads[0].hc.spec) && RbacNames.HasRemedy(s.threads[0].hc.spec)
            && Opens(s.threads[0].hc.spec, s.threads[0].hc.status, s.now)
            && !UsedUp(s.threads[0].hc.spec, s.threads[0].hc.status) && s.threads[0].hc.status == NEW_STATUS
            && s.threads[0].hc.spec.repeatAfterSec == spec.repeatAfterSec
            && s.now == start && s.timers == []
            && key in s.store && s.store[key].spec == spec && !s.store[key].deleting && s.store[key].history == []
  {
    SubmitIsClear(start, true, key, spec);
    RenamedStaysRunnable(spec);
  }

  lemma ThroughHistory(before: State, after: State, tid: nat, key: Key, st: Status, events: seq<Event>, interval: int)
    requires Through(before, after, tid, key, st, events, interval)
    ensures key in before.store && key in after.store && after.now == before.now
    ensures after.store[key].history == before.store[key].history + events
  {
  }

  lemma RenamedStaysRunnable(spec: Spec)
    requires Runnable(spec) && RbacNames.HasRemedy(spec)
    ensures var renamed := RbacNames.Renamed(spec);
            && Runnable(renamed) && RbacNames.HasRemedy(renamed) && renamed.repeatAfterSec == spec.repeatAfterSec
            && renamed.remedyRunsLimit == spec.remedyRunsLimit
            && renamed.remedyResetInterval == spec.remedyResetInterval
  {
  }

  lemma NextFailure(s: State, id: nat, key: Key, spec: Spec, passes: bool) returns (run: seq<Action>, wf: string)
    requires Between(s, id, key, spec) && Runnable(spec) && RbacNames.HasRemedy(spec) && spec.repeatAfterSec > 0
    requires Opens(spec, s.store[key].status, s.now + spec.repeatAfterSec * SECOND)
    ensures Good(s, run, key) && AllKeepInterval(run, key, spec.repeatAfterSec)
    ensures key in Exec(s, run).store
            && Exec(s, run).store[key].status.remedyFinishedAt == Some(WholeSecond(Exec(s, run).now))
    ensures key in Exec(s, run).store && (!UsedUp(spec, s.store[key].status) ==>
              OneMoreThan(Exec(s, run).store[key].status, s.store[key].status))
    ensures var s' := Exec(s, run);
            && Between(s', |s.timers|, key, spec) && key in s.store && key in s'.store
            && s'.now == s.now + spec.repeatAfterSec * SECOND
            && s'.store[key].history == s.store[key].history + [RanFailed(wf, s'.now), Remedied(passes, s'.now)]
  {
    var wait := Tick(spec.repeatAfterSec * SECOND);
    var s1 := s.(now := s.now + spec.repeatAfterSec * SECOND);
    WaitsQuietly(s, wait, id, key, spec);
    var n := |s.threads|;
    var get := Go(n, Fetched(CopyOf(s1.store[key]), s1.store[key].rv));
    Fires(s1, id, key);
    var s2 := Next(s1, Fire(id));
    var s3 := Next(s2, get);
    assert s3.threads[n] == Thread(key, Timer, Submit, CopyOf(s1.store[key]), []);
    var episode, st;
    episode, st, wf := FailingEpisode(s3, n, key, passes);
    var events := [RanFailed(wf, s1.now), Remedied(passes, s1.now)];
    ThroughIsBetween(s3, Exec(s3, episode), n, key, st, events, spec);
    hide Next, Enabled, SpacedStep, SpacedRun, SerialRuns.SerialRun, Between, Due, Clear, Open, Opens, UsedUp;
    hide OneMoreThan;
    Fold(s2, get, episode, key);
    Fold(s1, Fire(id), [get] + episode, key);
    Fold(s, wait, [Fire(id)] + ([get] + episode), key);
    run := [wait] + ([Fire(id)] + ([get] + episode));
  }

  lemma WaitsQuietly(s: State, wait: Action, id: nat, key: Key, spec: Spec)
    requires Between(s, id, key, spec) && spec.repeatAfterSec > 0 && wait == Tick(spec.repeatAfterSec * SECOND)
    ensures Enabled(s, wait) && SpacedStep(s, wait, key)
            && Next(s, wait) == s.(now := s.now + spec.repeatAfterSec * SECOND)
    ensures Due(Next(s, wait), id, key) && Open(s.store[key].status, Next(s, wait).now)
  {
  }

  lemma NoneRemedied(start: Time, interval: int, outcomes: nat -> bool)
    ensures AllRemedied([], start, interval, outcomes, 0)
  {
  }

  lemma OneMoreRemedied(h: seq<Event>, start: Time, interval: int, outcomes: nat -> bool, n: nat, wf: string)
    requires AllRemedied(h, start, interval, outcomes, n)
    ensures var t := Nth(start, interval, n);
            AllRemedied(h + [RanFailed(wf, t), Remedied(outcomes(n), t)], start, interval, outcomes, n + 1)
    ensures Nth(start, interval, 0) == start
  {
  }

  lemma UnlimitedIsNotUsedUp(spec: Spec)
    requires Remediable(spec)
    ensures Runnable(spec) && RbacNames.HasRemedy(spec) && !UsedUp(spec, NEW_STATUS)
  {
  }

  lemma StaysOpen(s: State, id: nat, key: Key, spec: Spec)
    requires Between(s, id, key, spec) && Remediable(spec) && spec.repeatAfterSec > 0
    ensures Runnable(spec) && RbacNames.HasRemedy(spec)
    ensures Opens(spec, s.store[key].status, s.now + spec.repeatAfterSec * SECOND)
  {
    GateIsOpen(spec, s.store[key].status, s.now + spec.repeatAfterSec * SECOND);
  }

  lemma {:induction false} FailsThroughout(start: Time, key: Key, spec: Spec, outcomes: nat -> bool, n: nat)
      returns (run: seq<Action>, id: nat)
    requires key.name != "" && Remediable(spec) && spec.repeatAfterSec > 0
    ensures Good(Init(start, true), run, key) && AllKeepInterval(run, key, spec.repeatAfterSec)
    ensures var s := Exec(Init(start, true), run);
            && Between(s, id, key, spec) && key in s.store && s.now == Nth(start, spec.repeatAfterSec, n)
            && AllRemedied(s.store[key].history, start, spec.repeatAfterSec, outcomes, n + 1)
    decreases n
  {
    hide SpacedRun, SerialRuns.SerialRun, AllKeepInterval, Between, AllRemedied, Remediable, Exec, Nth;
    if n == 0 {
      UnlimitedIsNotUsedUp(spec);
      run, id := FirstFailure(start, key, spec, outcomes);
      NthNext(start, spec.repeatAfterSec, 0);
    } else {
      var before, timer := FailsThroughout(start, key, spec, outcomes, n - 1);
      var s := Exec(Init(start, true), before);
      StaysOpen(s, timer, key, spec);
      var rest, wf := NextFailure(s, timer, key, spec, outcomes(n));
      NthNext(start, spec.repeatAfterSec, n - 1);
      OneMoreRemedied(s.store[key].history, start, spec.repeatAfterSec, outcomes, n, wf);
      KeepingConcat(before, rest, key, spec.repeatAfterSec);
      Concat(Init(start, true), before, rest, key);
      run, id := before + rest, |s.timers|;
    }
  }

  lemma {:induction false} RemediedCounts(h: seq<Event>, start: Time, interval: int, outcomes: nat -> bool, n: nat)
    requires AllRemedied(h, start, interval, outcomes, n)
    ensures NoSuccess(h) && |Remedies(h)| == n
    ensures forall i: nat :: i < n ==> Remedies(h)[i] == Nth(start, interval, i)
    decreases n
  {
    hide Nth;
    if n > 0 {
      var m := 2 * (n - 1);
      assert h[..m + 1][..m] == h[..m];
      assert h[..|h| - 1] == h[..m + 1];
      RemediedCounts(h[..m], start, interval, outcomes, n - 1);
      assert Remedies(h[..m + 1]) == Remedies(h[..m]);
      assert Remedies(h) == Remedies(h[..m]) + [Nth(start, interval, n - 1)];
      forall i | 0 <= i < |h| ensures !h[i].RanOk? {
        if i < m {
          assert h[..m][i] == h[i];
        } else {
          assert h[2 * (n - 1)].RanFailed? && h[2 * (n - 1) + 1].Remedied?;
        }
      }
    }
  }

  /** From the start of the system at any instant, for every runnable check with an interval and such
      a remedy, every number and all outcomes: a serial run in which that many remedies complete, one
      at each run of the check, with no success between them. Remedies that fail do not stop it. */
  lemma NothingLimitsThem(start: Time, key: Key, spec: Spec, outcomes: nat -> bool, n: nat) returns (run: seq<Action>)
    requires key.name != "" && Remediable(spec) && spec.repeatAfterSec > 0 && n > 0
    ensures ValidRun(Init(start, true), run) && SerialRuns.SerialRun(Init(start, true), run, key)
    ensures SpacedRun(Init(start, true), run, key) && AllKeepInterval(run, key, spec.repeatAfterSec)
    ensures key in Exec(Init(start, true), run).store
    ensures var h := Exec(Init(start, true), run).store[key].history;
            && AllRemedied(h, start, spec.repeatAfterSec, outcomes, n)
            && NoSuccess(h) && |Remedies(h)| == n
            && Remedies(h)[n - 1] - Remedies(h)[0] == (n - 1) * (spec.repeatAfterSec * SECOND)
  {
    var id;
    run, id := FailsThroughout(start, key, spec, outcomes, n - 1);
    RemediedCounts(Exec(Init(start, true), run).store[key].history, start, spec.repeatAfterSec, outcomes, n);
  }
}
