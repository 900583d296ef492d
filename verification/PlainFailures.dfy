/** Failures without a remedy: of a check that has none, or whose remedy is held back. Each is stored,
    and a timer is pending after each. */
module PlainFailures {
  import opened HealthChecks
  import opened StatusRules
  import opened Goroutines
  import opened Machine
  import opened Histories
  import opened Spacing
  import opened SerialRuns
  import opened Episodes
  import opened StepOutcomes
  import opened SpacingLimits
  import opened UnlimitedRemedies
  import RbacNames
  import Templates

  /** A failure at `now` runs no remedy. */
  predicate Plain(spec: Spec, st: Status, now: Time) {
    spec.remedyWorkflow == NO_WORKFLOW || HeldBack(spec, st, now)
  }

  predicate PastFinish(st: Status, now: Time) {
    st.remedyFinishedAt.Some? ==> st.remedyFinishedAt.value <= now
  }

  lemma FailsPlainly(s: State, tid: nat, key: Key)
    requires Clear(s, tid, key) && s.threads[tid].pc.Poll? && s.threads[tid].pc.left == 1 && s.threads[tid].pc.wf != ""
    requires Plain(s.threads[tid].hc.spec, s.threads[tid].hc.status, s.now)
             && PastFinish(s.threads[tid].hc.status, s.now)
    ensures var a := Go(tid, Saw(Found(Phase.Failed, "")));
            var t := s.threads[tid];
            var t' := Step(t, s.now, a.answer);
            && Enabled(s, a) && SpacedStep(s, a, key) && Next(s, a) == Moved(s, tid, t')
            && t'.unsaved == t.unsaved + [RanFailed(t.pc.wf, s.now)] && t'.pc == WriteGet(Final, 5)
            && t'.hc.spec == t.hc.spec && SameRemedies(t'.hc.status, t.hc.status)
            && Clear(Next(s, a), tid, key)
  {
    var t := s.threads[tid];
    var l := Found(Phase.Failed, "");
    FailureGoesOn(t, s.now, l);
    FailureRecords(t, s.now, l);
    PollVerdict(t, s.now, l);
    hide Step, Plain, RunPart, SameRemedies, HeldBack, UsedUp;
    PollMoves(s, tid, l);
    StaysUndeleted(t, s.now, l);
    SoloStep(s, tid, Saw(l), key);
  }

  lemma StaysUndeleted(t: Thread, now: Time, l: Lookup)
    requires t.pc.Poll?
    ensures Step(t, now, Saw(l)).hc.deleting == t.hc.deleting && Step(t, now, Saw(l)).key == t.key
  {
  }

  lemma PollMoves(s: State, tid: nat, l: Lookup)
    requires tid < |s.threads| && s.threads[tid].pc.Poll? && s.threads[tid].pc.wf != ""
    requires !Step(s.threads[tid], s.now, Saw(l)).pc.Panicked?
    ensures Enabled(s, Go(tid, Saw(l)))
    ensures Next(s, Go(tid, Saw(l))) == Moved(s, tid, Step(s.threads[tid], s.now, Saw(l)))
  {
    hide Step;
  }

  lemma ParsedStaysPlain(spec: Spec, st: Status, now: Time)
    ensures var read := Templates.SpecAfter(spec, Templates.ParseWorkflow(spec, TEMPLATE));
            (Plain(read, st, now) <==> Plain(spec, st, now)) && read.repeatAfterSec == spec.repeatAfterSec
  {
  }

  lemma StoreAll(s: State, tid: nat, key: Key) returns (run: seq<Action>)
    requires Clear(s, tid, key) && s.threads[tid].pc.WriteGet? && s.threads[tid].pc.write.Final?
    ensures Good(s, run, key) && OnlySteps(run)
    ensures var t := s.threads[tid];
            Through(s, Exec(s, run), tid, key, t.hc.status, t.unsaved, t.hc.spec.repeatAfterSec)
  {
    run := Store(s, tid, key);
  }

  /** A failing episode without a remedy. */
  lemma PlainEpisode(s: State, tid: nat, key: Key) returns (run: seq<Action>, st: Status, wf: string)
    requires Clear(s, tid, key) && s.threads[tid].pc.Submit? && s.threads[tid].unsaved == []
    requires s.threads[tid].hc.spec.workflow.resource.Some?
    requires Plain(s.threads[tid].hc.spec, s.threads[tid].hc.status, s.now)
             && PastFinish(s.threads[tid].hc.status, s.now)
    ensures Good(s, run, key) && OnlySteps(run) && SameRemedies(st, s.threads[tid].hc.status)
    ensures Through(s, Exec(s, run), tid, key, st, [RanFailed(wf, s.now)], s.threads[tid].hc.spec.repeatAfterSec)
  {
    hide Next, Enabled, SpacedStep, SpacedRun, SerialRun, Through, Templates.ParseWorkflow, Plain, Step;
    wf := FreshName(s.submitted);
    var submit, watch := Go(tid, Submission(Some(wf), TEMPLATE)), Go(tid, Budget(1));
    var fail := Go(tid, Saw(Found(Phase.Failed, "")));
    ParsedStaysPlain(s.threads[tid].hc.spec, s.threads[tid].hc.status, s.now);
    Submits(s, tid, key, wf);
    var s1 := Next(s, submit);
    Watches(s1, tid, key);
    var s2 := Next(s1, watch);
    FailsPlainly(s2, tid, key);
    var s3 := Next(s2, fail);
    run := StoreAll(s3, tid, key);
    st := s3.threads[tid].hc.status;
    assert [] + [RanFailed(wf, s.now)] == [RanFailed(wf, s.now)];
    ThroughSteps(s, s3, Exec(s3, run), tid, key, st, [RanFailed(wf, s.now)], s.threads[tid].hc.spec.repeatAfterSec);
    Fold(s2, fail, run, key);
    Fold(s1, watch, [fail] + run, key);
    Fold(s, submit, [watch] + ([fail] + run), key);
    run := [submit] + ([watch] + ([fail] + run));
  }

  // ---------------------------------------------------------------- failure after failure

  /** The check between two runs: its timer is due an interval from now. */
  ghost predicate Waiting(s: State, id: nat, key: Key, spec: Spec) {
    && Due(s.(now := s.now + spec.repeatAfterSec * SECOND), id, key)
    && s.store[key].spec == spec && PastFinish(s.store[key].status, s.now)
  }

  ghost predicate HasPending(s: State, key: Key) {
    exists id :: 0 <= id < |s.timers| && s.timers[id].live && s.timers[id].key == key
  }

  /** `after` has one failure more on record than `h`, no remedy, and a timer pending. */
  ghost predicate OneMoreFailure(h: seq<Event>, after: State, key: Key) {
    && key in after.store && |after.store[key].history| == |h| + 1
    && after.store[key].history[..|h|] == h
    && after.store[key].history[|h|].RanFailed? && after.store[key].history[|h|].at == after.now
    && HasPending(after, key)
  }

  lemma ThroughIsWaiting(before: State, after: State, tid: nat, key: Key, st: Status, wf: string, spec: Spec)
    requires Through(before, after, tid, key, st, [RanFailed(wf, before.now)], spec.repeatAfterSec)
    requires before.store[key].spec == spec && !before.store[key].deleting && PastFinish(st, before.now)
    ensures Waiting(after, |before.timers|, key, spec) && OneMoreFailure(before.store[key].history, after, key)
    ensures after.store[key].status.remedyTotalRuns == st.remedyTotalRuns
    ensures after.store[key].status.remedyFinishedAt == StoredTime(st.remedyFinishedAt)
  {
    if st.remedyFinishedAt.Some? { WholeSecondIsMonotone(st.remedyFinishedAt.value, st.remedyFinishedAt.value); }
    assert after.timers[|before.timers|].live;
  }

  /** Stored times are whole seconds, and stay what they are. */
  predicate WholeRemedyFinish(st: Status) {
    st.remedyFinishedAt == StoredTime(st.remedyFinishedAt)
  }

  lemma NextPlainFailure(s: State, id: nat, key: Key, spec: Spec) returns (run: seq<Action>)
    requires Waiting(s, id, key, spec) && spec.workflow.resource.Some? && spec.repeatAfterSec > 0
    requires Plain(spec, s.store[key].status, s.now + spec.repeatAfterSec * SECOND)
             && WholeRemedyFinish(s.store[key].status)
    ensures Good(s, run, key)
    ensures var s' := Exec(s, run);
            && Waiting(s', |s.timers|, key, spec) && s'.now == s.now + spec.repeatAfterSec * SECOND
            && key in s.store && OneMoreFailure(s.store[key].history, s', key)
            && s'.store[key].status.remedyTotalRuns == s.store[key].status.remedyTotalRuns
            && s'.store[key].status.remedyFinishedAt == s.store[key].status.remedyFinishedAt
  {
    var wait := Tick(spec.repeatAfterSec * SECOND);
    var s1 := s.(now := s.now + spec.repeatAfterSec * SECOND);
    WaitsFor(s, wait, id, key, spec);
    var n := |s.threads|;
    var get := Go(n, Fetched(CopyOf(s1.store[key]), s1.store[key].rv));
    Fires(s1, id, key);
    var s2 := Next(s1, Fire(id));
    var s3 := Next(s2, get);
    assert s3.threads[n] == Thread(key, Timer, Submit, CopyOf(s1.store[key]), []);
    var episode, st, wf := PlainEpisode(s3, n, key);
    ThroughIsWaiting(s3, Exec(s3, episode), n, key, st, wf, spec);
    hide Next, Enabled, SpacedStep, SpacedRun, SerialRun, Waiting, Due, Clear, Plain, OneMoreFailure, Through;
    hide PastFinish;
    Fold(s2, get, episode, key);
    Fold(s1, Fire(id), [get] + episode, key);
    Fold(s, wait, [Fire(id)] + ([get] + episode), key);
    run := [wait] + ([Fire(id)] + ([get] + episode));
  }

  lemma WaitsFor(s: State, wait: Action, id: nat, key: Key, spec: Spec)
    requires Waiting(s, id, key, spec) && spec.repeatAfterSec > 0 && wait == Tick(spec.repeatAfterSec * SECOND)
    ensures Enabled(s, wait) && SpacedStep(s, wait, key)
    ensures Next(s, wait) == s.(now := s.now + spec.repeatAfterSec * SECOND)
    ensures Due(Next(s, wait), id, key) && PastFinish(s.store[key].status, Next(s, wait).now)
  {
  }

  /** Run after run of `runs` stores one failure more, with no remedy, and leaves a timer pending. */
  ghost predicate FailsRunByRun(s: State, runs: seq<seq<Action>>, key: Key)
    decreases |runs|
  {
    runs == []
    || (key in s.store && Good(s, runs[0], key) && OneMoreFailure(s.store[key].history, Exec(s, runs[0]), key)
        && FailsRunByRun(Exec(s, runs[0]), runs[1..], key))
  }

  /** The gate stays closed for `n` more runs. */
  predicate PlainFor(spec: Spec, st: Status, now: Time, n: nat) {
    || spec.remedyWorkflow == NO_WORKFLOW
    || (UsedUp(spec, st) && st.remedyFinishedAt.Some?
        && now + n * (spec.repeatAfterSec * SECOND) - st.remedyFinishedAt.value
           < (spec.remedyResetInterval + 1) * SECOND)
  }

  lemma PlainAtFirst(spec: Spec, st: Status, now: Time, n: nat)
    requires n > 0 && PlainFor(spec, st, now, n) && spec.repeatAfterSec > 0
    ensures Plain(spec, st, now + spec.repeatAfterSec * SECOND)
    ensures PlainFor(spec, st, now + spec.repeatAfterSec * SECOND, n - 1)
  {
    var r := spec.repeatAfterSec * SECOND;
    assert n * r == r + (n - 1) * r;
    assert (n - 1) * r >= 0;
  }

  lemma {:induction false} PlainFailuresFollow(s: State, id: nat, key: Key, spec: Spec, n: nat)
      returns (runs: seq<seq<Action>>)
    requires Waiting(s, id, key, spec) && spec.workflow.resource.Some? && spec.repeatAfterSec > 0
    requires PlainFor(spec, s.store[key].status, s.now, n) && WholeRemedyFinish(s.store[key].status)
    ensures |runs| == n && FailsRunByRun(s, runs, key)
    decreases n
  {
    if n == 0 {
      runs := [];
    } else {
      PlainAtFirst(spec, s.store[key].status, s.now, n);
      var first := NextPlainFailure(s, id, key, spec);
      var s' := Exec(s, first);
      SameGate(spec, s.store[key].status, s'.store[key].status, s'.now, n - 1);
      var rest := PlainFailuresFollow(s', |s.timers|, key, spec, n - 1);
      runs := [first] + rest;
      assert runs[0] == first && runs[1..] == rest;
    }
  }

  lemma SameGate(spec: Spec, st: Status, st': Status, now: Time, n: nat)
    requires PlainFor(spec, st, now, n) && st'.remedyTotalRuns == st.remedyTotalRuns
    requires st'.remedyFinishedAt == st.remedyFinishedAt
    ensures PlainFor(spec, st', now, n)
  {
  }

  // ---------------------------------------------------------------- from the start

  lemma FirstPlainFailure(start: Time, key: Key, spec: Spec) returns (run: seq<Action>)
    requires key.name != "" && Runnable(spec) && spec.repeatAfterSec > 0 && spec.remedyWorkflow == NO_WORKFLOW
    ensures Good(Init(start, true), run, key)
    ensures var s := Exec(Init(start, true), run);
            && Waiting(s, 0, key, spec) && OneMoreFailure([], s, key) && WholeRemedyFinish(s.store[key].status)
  {
    var first := Starting(start, true, key, spec);
    var s := At(start, true, key, spec, RbacNames.Renamed(spec), Submit);
    PlainSubmits(start, key, spec);
    var episode, st, wf := PlainEpisode(s, 0, key);
    ThroughIsWaiting(s, Exec(s, episode), 0, key, st, wf, spec);
    hide SpacedRun, SerialRun, At, Init, Exec, Clear, Plain, Runnable, Waiting, OneMoreFailure, Through;
    hide RbacNames.Renamed;
    StoredIsWhole(st.remedyFinishedAt);
    Concat(Init(start, true), first, episode, key);
    run := first + episode;
  }

  lemma StoredIsWhole(t: Option<Time>)
    ensures StoredTime(StoredTime(t)) == StoredTime(t)
  {
    if t.Some? { WholeSecondIsMonotone(t.value, t.value); }
  }

  lemma PlainSubmits(start: Time, key: Key, spec: Spec)
    requires Runnable(spec) && spec.repeatAfterSec > 0 && spec.remedyWorkflow == NO_WORKFLOW
    ensures var s := At(start, true, key, spec, RbacNames.Renamed(spec), Submit);
            && Edited(spec) == spec
            && Clear(s, 0, key) && s.threads[0].pc.Submit? && s.threads[0].unsaved == []
            && s.threads[0].hc.spec == spec && s.threads[0].hc.status == NEW_STATUS
            && Plain(spec, NEW_STATUS, s.now) && PastFinish(NEW_STATUS, s.now)
            && s.timers == [] && key in s.store && s.store[key].spec == spec && !s.store[key].deleting
            && s.store[key].history == []
  {
    SubmitIsClear(start, true, key, spec);
  }

  /** From the start of the system at any instant, for every runnable check with an interval and no
      remedy and every number: a run that stores a first failure, and that many runs after it each of
      which stores one more; a timer is pending after each. */
  lemma FailuresWithoutRemedyAreStored(start: Time, key: Key, spec: Spec, n: nat)
      returns (first: seq<Action>, runs: seq<seq<Action>>)
    requires key.name != "" && Runnable(spec) && spec.repeatAfterSec > 0 && spec.remedyWorkflow == NO_WORKFLOW
    ensures Good(Init(start, true), first, key) && OneMoreFailure([], Exec(Init(start, true), first), key)
    ensures |runs| == n && FailsRunByRun(Exec(Init(start, true), first), runs, key)
  {
    first := FirstPlainFailure(start, key, spec);
    var s := Exec(Init(start, true), first);
    runs := PlainFailuresFollow(s, 0, key, spec, n);
  }

  // ---------------------------------------------------------------- a used-up limit

  /** `limit` failures of a limited check, each with its remedy. */
  lemma {:induction false} UsesUp(start: Time, key: Key, spec: Spec, outcomes: nat -> bool, n: nat)
      returns (run: seq<Action>, id: nat)
    requires key.name != "" && Runnable(spec) && RbacNames.HasRemedy(spec) && spec.repeatAfterSec > 0
    requires 0 <= n < spec.remedyRunsLimit
    ensures Good(Init(start, true), run, key)
    ensures var s := Exec(Init(start, true), run);
            && Between(s, id, key, spec) && key in s.store
            && AllRemedied(s.store[key].history, start, spec.repeatAfterSec, outcomes, n + 1)
            && s.store[key].status.remedyTotalRuns == n + 1 && s.now == Nth(start, spec.repeatAfterSec, n)
            && s.store[key].status.remedySuccessCount + s.store[key].status.remedyFailedCount == n + 1
            && s.store[key].status.remedyFinishedAt == Some(WholeSecond(s.now))
    decreases n
  {
    hide SpacedRun, SerialRun, Between, AllRemedied, Exec, Nth, Runnable, AllKeepInterval;
    if n == 0 {
      run, id := FirstFailure(start, key, spec, outcomes);
      NthNext(start, spec.repeatAfterSec, 0);
    } else {
      var before, timer := UsesUp(start, key, spec, outcomes, n - 1);
      var s := Exec(Init(start, true), before);
      var rest, wf := NextFailure(s, timer, key, spec, outcomes(n));
      NthNext(start, spec.repeatAfterSec, n - 1);
      OneMoreRemedied(s.store[key].history, start, spec.repeatAfterSec, outcomes, n, wf);
      Concat(Init(start, true), before, rest, key);
      run, id := before + rest, |s.timers|;
    }
  }

  lemma BetweenIsWaiting(s: State, id: nat, key: Key, spec: Spec, n: nat)
    requires Between(s, id, key, spec) && s.store[key].status.remedyTotalRuns == spec.remedyRunsLimit > 0
    requires s.store[key].status.remedyFinishedAt == Some(WholeSecond(s.now))
    requires spec.remedyResetInterval > 0 && n * spec.repeatAfterSec <= spec.remedyResetInterval
    ensures Waiting(s, id, key, spec) && PlainFor(spec, s.store[key].status, s.now, n)
    ensures WholeRemedyFinish(s.store[key].status)
  {
    StoredIsWhole(Some(s.now));
    assert n * (spec.repeatAfterSec * SECOND) == (n * spec.repeatAfterSec) * SECOND;
    assert s.now - WholeSecond(s.now) < SECOND;
  }

  /** From the start of the system at any instant, for every runnable check with an interval and a
      remedy that a positive limit and a positive reset interval limit: as many failures as the limit
      allows, each with its remedy, and then one failure at each run for as long as the reset interval
      has not passed, each stored without a remedy and with a timer pending after it. */
  lemma HeldFailuresAreStored(start: Time, key: Key, spec: Spec, outcomes: nat -> bool, n: nat)
      returns (first: seq<Action>, runs: seq<seq<Action>>)
    requires key.name != "" && Runnable(spec) && RbacNames.HasRemedy(spec) && spec.repeatAfterSec > 0
    requires spec.remedyRunsLimit > 0 && spec.remedyResetInterval > 0
    requires n * spec.repeatAfterSec <= spec.remedyResetInterval
    ensures Good(Init(start, true), first, key)
    ensures var s := Exec(Init(start, true), first);
            && key in s.store
            && AllRemedied(s.store[key].history, start, spec.repeatAfterSec, outcomes, spec.remedyRunsLimit)
            && |runs| == n && FailsRunByRun(s, runs, key)
  {
    var id;
    first, id := UsesUp(start, key, spec, outcomes, spec.remedyRunsLimit - 1);
    var s := Exec(Init(start, true), first);
    BetweenIsWaiting(s, id, key, spec, n);
    runs := PlainFailuresFollow(s, id, key, spec, n);
  }
}
