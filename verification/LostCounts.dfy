/** What does not survive a stale read: the counters. A timer's goroutine that reads an old version
    starts from the old status and writes it back, under the new version number. */
module LostCounts {
  import opened HealthChecks
  import opened StatusRules
  import opened Goroutines
  import opened Machine
  import opened Histories
  import opened Spacing
  import opened Episodes
  import opened SerialRuns
  import opened StaleReads
  import RbacNames
  import Templates

  function Lift(run: seq<Action>): seq<CachedAction> {
    seq(|run|, i requires 0 <= i < |run| => Latest(run[i]))
  }

  /** A run with reads that are up to date; afterwards every stored version has been seen. */
  lemma {:induction false} Lifts(c: Cached, run: seq<Action>)
    requires ValidRun(c.system, run)
    ensures CachedRun(c, Lift(run)) && CachedExec(c, Lift(run)).system == Exec(c.system, run)
    ensures c.seen <= CachedExec(c, Lift(run)).seen
    ensures run != [] ==> Versions(Exec(c.system, run)) <= CachedExec(c, Lift(run)).seen
    decreases |run|
  {
    hide Next, Enabled, Versions;
    if run != [] {
      assert Lift(run)[1..] == Lift(run[1..]);
      Lifts(CachedNext(c, Latest(run[0])), run[1..]);
    }
  }

  function FirstVersion(key: Key, spec: Spec): Version {
    Version(key, Copy(spec, NEW_STATUS, false), 0)
  }

  /** The first run, and the firing of the timer it leaves. */
  function AfterFiring(start: Time, key: Key, spec: Spec): State {
    var s := Finished(At(start, true, key, spec, RbacNames.Renamed(spec), Submit), 0, key, "first");
    s.(now := start + spec.repeatAfterSec * SECOND,
       timers := Cancelled(s.timers, 0), threads := s.threads + [NewThread(key, Timer)])
  }

  lemma RunsOnce(start: Time, key: Key, spec: Spec) returns (run: seq<Action>)
    requires key.name != "" && Runnable(spec) && spec.repeatAfterSec > 0
    ensures Good(Init(start, true), run, key) && Exec(Init(start, true), run) == AfterFiring(start, key, spec)
    ensures FirstVersion(key, spec) in CachedExec(Cached(Init(start, true), {}), Lifted(Init(start, true), run)).seen
  {
    var s0 := Init(start, true);
    var first := Starting(start, true, key, spec);
    FirstIsSeen(start, key, spec, first);
    var rest := RunsAndFires(start, key, spec);
    hide Init, Good, Exec, ValidRun, At, AfterFiring, CachedExec, Runnable, Clear, Lifted, FirstVersion;
    hide AllKeepInterval;
    Concat(s0, first, rest, key);
    run := first + rest;
    IsSeen(s0, first, rest, FirstVersion(key, spec), key);
  }

  lemma RunsAndFires(start: Time, key: Key, spec: Spec) returns (run: seq<Action>)
    requires Runnable(spec) && spec.repeatAfterSec > 0
    ensures var s := At(start, true, key, spec, RbacNames.Renamed(spec), Submit);
            Good(s, run, key) && Exec(s, run) == AfterFiring(start, key, spec)
  {
    var s := At(start, true, key, spec, RbacNames.Renamed(spec), Submit);
    SubmitIsClear(start, true, key, spec);
    var episode := Episode(s, 0, key, "first");
    var waits := WaitsAndFires(start, key, spec);
    hide Exec, SpacedRun, SerialRun, At, Finished, AfterFiring, Runnable, Clear;
    Concat(s, episode, waits, key);
    run := episode + waits;
  }

  lemma IsSeen(s: State, first: seq<Action>, rest: seq<Action>, v: Version, key: Key)
    requires Good(s, first, key) && Good(s, first + rest, key)
    requires first != [] && v in Versions(Exec(s, first))
    ensures v in CachedExec(Cached(s, {}), Lifted(s, first + rest)).seen
  {
    hide SpacedRun, SerialRun, Versions, Exec, CachedRun, CachedExec, Lift;
    var c := Cached(s, {});
    Lifts(c, first);
    StaysSeen(c, first, rest, v);
  }

  /** `run`, as a run with reads that are up to date. */
  function Lifted(s: State, run: seq<Action>): seq<CachedAction>
    requires ValidRun(s, run)
    ensures CachedRun(Cached(s, {}), Lifted(s, run))
  {
    Lifts(Cached(s, {}), run);
    Lift(run)
  }

  lemma StaysSeen(c: Cached, first: seq<Action>, rest: seq<Action>, v: Version)
    requires ValidRun(c.system, first + rest) && ValidRun(c.system, first)
    requires CachedRun(c, Lift(first)) && v in CachedExec(c, Lift(first)).seen
    ensures CachedRun(c, Lift(first + rest)) && v in CachedExec(c, Lift(first + rest)).seen
    decreases |first|
  {
    hide Next, Enabled, Versions;
    if first == [] {
      assert first + rest == rest;
      Lifts(c, rest);
    } else {
      assert (first + rest)[1..] == first[1..] + rest;
      assert Lift(first)[1..] == Lift(first[1..]) && Lift(first + rest)[1..] == Lift(first[1..] + rest);
      StaysSeen(CachedNext(c, Latest(first[0])), first[1..], rest, v);
    }
  }

  lemma FirstIsSeen(start: Time, key: Key, spec: Spec, run: seq<Action>)
    requires ValidRun(Init(start, true), run)
    requires Exec(Init(start, true), run) == At(start, true, key, spec, RbacNames.Renamed(spec), Submit)
    ensures run != [] && FirstVersion(key, spec) in Versions(Exec(Init(start, true), run))
  {
    assert key in At(start, true, key, spec, RbacNames.Renamed(spec), Submit).store;
  }

  lemma WaitsAndFires(start: Time, key: Key, spec: Spec) returns (run: seq<Action>)
    requires Runnable(spec) && spec.repeatAfterSec > 0
    ensures var s := Finished(At(start, true, key, spec, RbacNames.Renamed(spec), Submit), 0, key, "first");
            Good(s, run, key) && Exec(s, run) == AfterFiring(start, key, spec)
  {
    var s := Finished(At(start, true, key, spec, RbacNames.Renamed(spec), Submit), 0, key, "first");
    var wait := Tick(spec.repeatAfterSec * SECOND);
    var s1 := s.(now := start + spec.repeatAfterSec * SECOND);
    AtRest(start, key, spec);
    FiresQuietly(s1, key);
    assert Next(s, wait) == s1 && SpacedStep(s, wait, key);
    hide Next, Enabled, SpacedStep, SpacedRun, SerialRun, Finished, At;
    Fold(s1, Fire(0), [], key);
    Fold(s, wait, [Fire(0)] + [], key);
    run := [wait] + ([Fire(0)] + []);
  }

  lemma FiresQuietly(s: State, key: Key)
    requires |s.timers| == 1 && s.timers[0].live && s.timers[0].key == key && s.timers[0].due <= s.now
    requires |s.threads| == 1 && s.threads[0].pc.LastGet?
    ensures Enabled(s, Fire(0)) && SpacedStep(s, Fire(0), key)
    ensures Next(s, Fire(0)) == s.(timers := Cancelled(s.timers, 0), threads := s.threads + [NewThread(key, Timer)])
  {
  }

  lemma AtRest(start: Time, key: Key, spec: Spec)
    ensures var s := Finished(At(start, true, key, spec, RbacNames.Renamed(spec), Submit), 0, key, "first");
            && s.now == start && |s.threads| == 1 && s.threads[0].pc.LastGet?
            && s.timers == [RepeatTimer(key, start + spec.repeatAfterSec * SECOND, true)]
  {
    hide RecordSuccess;
  }

  /** The goroutine of the timer reads the version from before the first run. */
  function AfterStale(start: Time, key: Key, spec: Spec): State {
    var s := AfterFiring(start, key, spec);
    s.(threads := [s.threads[0], Thread(key, Timer, Submit, Copy(spec, NEW_STATUS, false), [])])
  }

  lemma ReadsStale(start: Time, key: Key, spec: Spec)
    requires Runnable(spec)
    ensures var s := AfterFiring(start, key, spec);
            var s' := AfterStale(start, key, spec);
            && CanRead(s, 1) && s.threads[1] == NewThread(key, Timer)
            && Answered(s, 1, Fetched(FirstVersion(key, spec).copy, 0)) == s'
            && Clear(s', 1, key) && s'.threads[1].pc.Submit? && s'.threads[1].hc.spec.workflow.resource.Some?
            && "second" !in s'.submitted
  {
    hide RecordSuccess, Templates.ParseWorkflow, StepPoll, StepRemedyPoll, StepDecide, StepSubmit, StepRemedySubmit;
    hide StepRbac;
    var s := AfterFiring(start, key, spec);
    assert Answered(s, 1, Fetched(FirstVersion(key, spec).copy, 0)).threads == AfterStale(start, key, spec).threads;
  }

  /** The object after the first run. */
  lemma CountsTheFirst(start: Time, key: Key, spec: Spec)
    ensures var s := AfterFiring(start, key, spec);
            && key in s.store && s.store[key].status.successCount == 1
            && s.store[key].history == [RanOk("first", start)]
  {
    hide Templates.ParseWorkflow;
  }

  // ---------------------------------------------------------------- one episode

  /** What an undisturbed episode does to the successes: it stores one more than its copy counts, and
      the history has one more than it had. */
  lemma EpisodeCounts(s: State, tid: nat, key: Key, wf: string)
    requires tid < |s.threads| && key in s.store
    ensures var o := Finished(s, tid, key, wf).store[key];
            && o.status.successCount == s.threads[tid].hc.status.successCount + 1
            && Successes(o.history) == Successes(s.store[key].history + s.threads[tid].unsaved) + 1
  {
    hide Templates.ParseWorkflow;
    var h, unsaved := s.store[key].history, s.threads[tid].unsaved;
    var e := RanOk(wf, s.now);
    AppendEvent(h + unsaved, e);
    assert h + (unsaved + [e]) == h + unsaved + [e];
    hide Successes;
  }

  /** So the object counts its history after the episode if and only if the copy the episode began
      with counted the history there was. */
  lemma CountsExactlyWhenCurrent(s: State, tid: nat, key: Key, wf: string)
    requires tid < |s.threads| && key in s.store && s.threads[tid].unsaved == []
    ensures var o := Finished(s, tid, key, wf).store[key];
            o.status.successCount == Successes(o.history)
            <==> s.threads[tid].hc.status.successCount == Successes(s.store[key].history)
  {
    assert s.store[key].history + [] == s.store[key].history;
    EpisodeCounts(s, tid, key, wf);
    hide Successes, Finished;
  }

  // ---------------------------------------------------------------- the input

  /** From the start of the system at any instant, for every runnable check with an interval: a
      serial run `before` that persists one success and fires the check's timer; then the timer's
      goroutine reads the version from before that run, which the cache has held; then a serial run
      `after` that persists a second success. No other read is outdated and no two runs overlap, but
      the object counts one success. */
  lemma StaleReadLosesACount(start: Time, key: Key, spec: Spec) returns (before: seq<Action>, after: seq<Action>)
    requires key.name != "" && Runnable(spec) && spec.repeatAfterSec > 0
    ensures Good(Init(start, true), before, key)
    ensures var s := Exec(Init(start, true), before);
            && |s.threads| == 2 && s.threads[1] == NewThread(key, Timer) && CanRead(s, 1)
            && key in s.store && s.store[key].status.successCount == 1 && Successes(s.store[key].history) == 1
            && FirstVersion(key, spec) in CachedExec(Cached(Init(start, true), {}),
                                                     Lifted(Init(start, true), before)).seen
            && var s' := Answered(s, 1, Fetched(FirstVersion(key, spec).copy, FirstVersion(key, spec).rv));
               && Good(s', after, key)
               && key in Exec(s', after).store
               && Exec(s', after).store[key].status.successCount == 1
               && Successes(Exec(s', after).store[key].history) == 2
  {
    before := RunsOnce(start, key, spec);
    ReadsStale(start, key, spec);
    CountsOneOfTwo(start, key, spec);
    hide Init, Exec, SpacedRun, SerialRun, AfterFiring, AfterStale, Answered, Clear, Runnable, Finished, Lifted;
    hide CachedExec, Successes, CanRead;
    after := Episode(AfterStale(start, key, spec), 1, key, "second");
  }

  lemma CountsOneOfTwo(start: Time, key: Key, spec: Spec)
    ensures var s := AfterFiring(start, key, spec);
            && |s.threads| == 2 && key in s.store
            && s.store[key].status.successCount == 1 && Successes(s.store[key].history) == 1
    ensures var s := AfterStale(start, key, spec);
            && key in s.store && key in Finished(s, 1, key, "second").store
            && var o := Finished(s, 1, key, "second").store[key];
               o.status.successCount == 1 && Successes(o.history) == 2
  {
    var s := AfterStale(start, key, spec);
    CountsTheFirst(start, key, spec);
    StaleStore(start, key, spec);
    hide AfterFiring, AfterStale, Finished;
    FinishedStores(s, 1, key, "second");
    EpisodeCounts(s, 1, key, "second");
    AppendEvent([], RanOk("first", start));
    assert [] + [RanOk("first", start)] == [RanOk("first", start)] + [];
  }

  lemma StaleStore(start: Time, key: Key, spec: Spec)
    ensures AfterStale(start, key, spec).store == AfterFiring(start, key, spec).store
    ensures AfterStale(start, key, spec).threads[1] == Thread(key, Timer, Submit, Copy(spec, NEW_STATUS, false), [])
    ensures |AfterFiring(start, key, spec).threads| == 2 && |AfterStale(start, key, spec).threads| == 2
  {
  }

  lemma FinishedStores(s: State, tid: nat, key: Key, wf: string)
    requires tid < |s.threads| && key in s.store
    ensures key in Finished(s, tid, key, wf).store
  {
  }
}
