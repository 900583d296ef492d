/** The input behind SpacingLimits: from the start of the system, at any instant, a run that finds
    the check due while its timer is pending, and one that goes on to submit too soon. */
module PendingStarts {
  import opened HealthChecks
  import opened Goroutines
  import opened Machine
  import opened Spacing
  import opened SpacingLimits
  import opened Episodes
  import RbacNames

  const HALF: Time := 500_000_000

  predicate HalfPast(t: Time) {
    t == Unix(t) * SECOND + HALF
  }

  /** After a first run at half past a second. */
  lemma FirstRun(half: Time, key: Key, spec: Spec, wf: string) returns (run: seq<Action>)
    requires key.name != "" && Runnable(spec) && spec.repeatAfterSec > 0 && wf != ""
    ensures Good(Init(half, true), run, key) && AllKeepInterval(run, key, spec.repeatAfterSec)
    ensures Exec(Init(half, true), run)
            == Finished(At(half, true, key, spec, RbacNames.Renamed(spec), Submit), 0, key, wf)
  {
    var start := Starting(half, true, key, spec);
    var s := At(half, true, key, spec, RbacNames.Renamed(spec), Submit);
    SubmitIsClear(half, true, key, spec);
    var episode := Episode(s, 0, key, wf);
    hide Good, Exec, AllKeepInterval, OnlySteps, Finished, At, Clear, Runnable;
    KeepingConcat(start, episode, key, spec.repeatAfterSec);
    Concat(Init(half, true), start, episode, key);
    run := start + episode;
  }

  /** What matters of the state after the first run. */
  ghost predicate AfterFirst(s: State, half: Time, key: Key, spec: Spec) {
    && HalfPast(half) && s.now == half && s.mapMade && s.lock.None? && key.name in s.table
    && s.timers == [RepeatTimer(key, half + spec.repeatAfterSec * SECOND, true)]
    && |s.threads| == 1 && s.threads[0].pc.LastGet?
    && key in s.store && s.store[key].spec == spec && !s.store[key].deleting
    && s.store[key].status.finishedAt == Some(half - HALF)
  }

  lemma FirstRunLeaves(half: Time, key: Key, spec: Spec, wf: string)
    requires Runnable(spec) && HalfPast(half)
    ensures AfterFirst(Finished(At(half, true, key, spec, RbacNames.Renamed(spec), Submit), 0, key, wf), half, key,
                       spec)
  {
  }

  /** At the full second an interval later: the timer is pending for half a second more, and the
      check is due. */
  lemma SecondReconcile(s: State, half: Time, key: Key, spec: Spec) returns (run: seq<Action>)
    requires key.name != "" && Runnable(spec) && spec.repeatAfterSec > 0 && AfterFirst(s, half, key, spec)
    ensures Good(s, run, key) && AllKeepInterval(run, key, spec.repeatAfterSec)
    ensures StartsARun(Exec(s, run), 1, Done, key) && Exec(s, run).timers == s.timers
  {
    hide Answerable, Step, Effect;
    var wait, begin := Tick(spec.repeatAfterSec * SECOND - HALF), StartReconcile(key);
    var o := s.store[key];
    var get := Go(1, Fetched(CopyOf(o), o.rv));
    var s1 := s.(now := Later(half, spec));
    var s2 := s1.(threads := s1.threads + [NewThread(key, Reconcile)]);
    var t := NewThread(key, Reconcile).(hc := CopyOf(o), pc := Decide);
    var s3 := s1.(threads := s1.threads + [t]);
    Waits(s, half, key, spec, wait);
    BeginsQuietly(s1, key);
    FetchesDue(s2, key, get, s3);
    DueStarts(s3, half, key, spec);
    hide Next, Enabled, SpacedStep, StartsARun, Runnable;
    Fold(s2, get, [], key);
    assert [get] + [] == [get];
    Fold(s1, begin, [get], key);
    Fold(s, wait, [begin] + [get], key);
    run := [wait] + ([begin] + [get]);
  }

  lemma BeginsQuietly(s: State, key: Key)
    requires key.name != "" && |s.threads| == 1 && s.threads[0].pc.LastGet?
    ensures Enabled(s, StartReconcile(key)) && SpacedStep(s, StartReconcile(key), key)
    ensures Next(s, StartReconcile(key)) == s.(threads := s.threads + [NewThread(key, Reconcile)])
  {
  }

  function Later(half: Time, spec: Spec): Time {
    half - HALF + spec.repeatAfterSec * SECOND
  }

  lemma Waits(s: State, half: Time, key: Key, spec: Spec, wait: Action)
    requires AfterFirst(s, half, key, spec) && spec.repeatAfterSec > 0
             && wait == Tick(spec.repeatAfterSec * SECOND - HALF)
    ensures Next(s, wait) == s.(now := Later(half, spec)) && SpacedStep(s, wait, key)
  {
  }

  lemma FetchesDue(s: State, key: Key, get: Action, s': State)
    requires |s.threads| == 2 && s.threads[0].pc.LastGet? && s.threads[1] == NewThread(key, Reconcile) && key in s.store
    requires get == Go(1, Fetched(CopyOf(s.store[key]), s.store[key].rv))
    requires s' == s.(threads := [s.threads[0], s.threads[1].(hc := CopyOf(s.store[key]), pc := Decide)])
    ensures Enabled(s, get) && SpacedStep(s, get, key) && Next(s, get) == s'
  {
    hide StepPoll, StepRemedyPoll, StepDecide, StepSubmit, StepRemedySubmit, StepRbac, StepWriteGet, StepWritePut;
    hide StepLast;
    assert Next(s, get).threads == s'.threads;
  }

  lemma DueStarts(s: State, half: Time, key: Key, spec: Spec)
    requires |s.threads| == 2 && s.now == Later(half, spec)
    requires AfterFirst(s.(now := half, threads := s.threads[..1]), half, key, spec) && Runnable(spec)
             && spec.repeatAfterSec > 0
    requires s.threads[1] == Thread(key, Reconcile, Decide, CopyOf(s.store[key]), [])
    ensures StartsARun(s, 1, Done, key)
  {
    hide StepPoll, StepRemedyPoll, StepSubmit, StepRemedySubmit, StepRbac, StepWriteGet, StepWritePut, StepLast;
    assert s.threads[..1][0] == s.threads[0];
    WholeSeconds(Unix(half), spec.repeatAfterSec);
  }

  lemma WholeSeconds(a: int, b: int)
    ensures Unix(a * SECOND) == a && Unix(a * SECOND + b * SECOND) == a + b
  {
    assert a * SECOND + b * SECOND == (a + b) * SECOND;
  }

  lemma ToHalfPast(start: Time) returns (wait: nat)
    ensures HalfPast(start + wait)
  {
    wait := (HALF - start) % SECOND;
  }

  /** Nothing has happened when nothing but time has passed. */
  lemma StartLater(start: Time, wait: nat, later: Time, key: Key, run: seq<Action>, interval: int)
    requires later == start + wait
    requires Good(Init(later, true), run, key) && AllKeepInterval(run, key, interval)
    ensures ValidRun(Init(start, true), [Tick(wait)] + run)
    ensures Good(Init(start, true), [Tick(wait)] + run, key) && AllKeepInterval([Tick(wait)] + run, key, interval)
    ensures Exec(Init(start, true), [Tick(wait)] + run) == Exec(Init(later, true), run)
  {
    assert Next(Init(start, true), Tick(wait)) == Init(later, true);
    Fold(Init(start, true), Tick(wait), run, key);
  }

  /** The condition is needed, from the start of the system at any instant: for every runnable
      check with an interval there is a run in which its timer is pending when a reconcile of it
      starts a run. */
  lemma PendingStartIsReachable(start: Time, key: Key, spec: Spec, wf: string) returns (run: seq<Action>)
    requires key.name != "" && Runnable(spec) && spec.repeatAfterSec > 0 && wf != ""
    ensures Good(Init(start, true), run, key) && AllKeepInterval(run, key, spec.repeatAfterSec)
    ensures Inv(Exec(Init(start, true), run), key, spec.repeatAfterSec)
    ensures StartsARun(Exec(Init(start, true), run), 1, Done, key)
    ensures !NonePending(Exec(Init(start, true), run), key)
  {
    run := PendingLater(start, key, spec, wf);
    hide Good, Inv, AllKeepInterval, Runnable, StartsARun, NonePending, Init;
    GoodKeepsInv(start, run, key, spec.repeatAfterSec);
  }

  lemma GoodKeepsInv(start: Time, run: seq<Action>, key: Key, interval: int)
    requires interval > 0 && Good(Init(start, true), run, key) && AllKeepInterval(run, key, interval)
    ensures Inv(Exec(Init(start, true), run), key, interval)
  {
    InitInv(start, key, interval);
    RunKeepsInv(Init(start, true), run, key, interval);
  }

  lemma PendingLater(start: Time, key: Key, spec: Spec, wf: string) returns (run: seq<Action>)
    requires key.name != "" && Runnable(spec) && spec.repeatAfterSec > 0 && wf != ""
    ensures ValidRun(Init(start, true), run)
    ensures Good(Init(start, true), run, key) && AllKeepInterval(run, key, spec.repeatAfterSec)
    ensures StartsARun(Exec(Init(start, true), run), 1, Done, key)
    ensures !NonePending(Exec(Init(start, true), run), key)
  {
    hide Good, Exec, AllKeepInterval, Runnable, StartsARun, NonePending, Next, Enabled, Init, HalfPast, ValidRun;
    var wait := ToHalfPast(start);
    var half := start + wait;
    var later := PendingFromHalfPast(half, key, spec, wf);
    StartLater(start, wait, half, key, later, spec.repeatAfterSec);
    run := [Tick(wait)] + later;
  }

  lemma PendingFromHalfPast(half: Time, key: Key, spec: Spec, wf: string) returns (run: seq<Action>)
    requires HalfPast(half) && key.name != "" && Runnable(spec) && spec.repeatAfterSec > 0 && wf != ""
    ensures ValidRun(Init(half, true), run)
    ensures Good(Init(half, true), run, key) && AllKeepInterval(run, key, spec.repeatAfterSec)
    ensures StartsARun(Exec(Init(half, true), run), 1, Done, key)
    ensures !NonePending(Exec(Init(half, true), run), key)
  {
    var s := Finished(At(half, true, key, spec, RbacNames.Renamed(spec), Submit), 0, key, wf);
    var first := FirstRun(half, key, spec, wf);
    FirstRunLeaves(half, key, spec, wf);
    var second := SecondReconcile(s, half, key, spec);
    hide Exec, AllKeepInterval, Finished, At, Runnable;
    KeepingConcat(first, second, key, spec.repeatAfterSec);
    Concat(Init(half, true), first, second, key);
    run := first + second;
    assert Exec(Init(half, true), run).timers[0].live;
  }

  /** A serial run whose runs of the check all start armed: no more than that. */
  ghost predicate ArmedRun(s: State, run: seq<Action>, key: Key)
    requires ValidRun(s, run)
    decreases |run|
  {
    run == [] || (ArmedStep(s, run[0], key) && ArmedRun(Next(s, run[0]), run[1..], key))
  }

  ghost predicate ArmedStep(s: State, a: Action, key: Key)
    requires Enabled(s, a)
  {
    OneBusy(Next(s, a), key) && StartsArmed(s, a, key)
  }

  lemma {:induction false} SpentIsArmed(s: State, run: seq<Action>, key: Key)
    requires ValidRun(s, run) && SpentRun(s, run, key)
    ensures ArmedRun(s, run, key)
    decreases |run|
  {
    hide Next, Enabled, OneBusy, StartsArmed, NonePending;
    if run != [] { SpentIsArmed(Next(s, run[0]), run[1..], key); }
  }

  lemma {:induction false} ArmedConcat(s: State, first: seq<Action>, rest: seq<Action>, key: Key)
    requires Good(s, first, key) && ValidRun(Exec(s, first), rest) && ArmedRun(Exec(s, first), rest, key)
    ensures ValidRun(s, first + rest) && ArmedRun(s, first + rest, key)
    ensures Exec(s, first + rest) == Exec(Exec(s, first), rest)
    decreases |first|
  {
    hide Next, Enabled, OneBusy, StartsArmed, NonePending;
    if first == [] {
      assert first + rest == rest;
    } else {
      ArmedConcat(Next(s, first[0]), first[1..], rest, key);
      assert (first + rest)[1..] == first[1..] + rest;
    }
  }

  lemma ArmedCons(s: State, a: Action, rest: seq<Action>, key: Key)
    requires Enabled(s, a) && ArmedStep(s, a, key) && ValidRun(Next(s, a), rest) && ArmedRun(Next(s, a), rest, key)
    ensures ValidRun(s, [a] + rest) && ArmedRun(s, [a] + rest, key) && Exec(s, [a] + rest) == Exec(Next(s, a), rest)
  {
    hide Next, Enabled, ArmedStep;
    assert ([a] + rest)[0] == a && ([a] + rest)[1..] == rest;
  }

  /** From the start of the system at any instant, for every runnable check with an interval: serial episodes and
      an entry in the table do not keep its runs an interval apart. */
  lemma AnEntryIsNotEnough(start: Time, key: Key, spec: Spec) returns (run: seq<Action>)
    requires key.name != "" && Runnable(spec) && spec.repeatAfterSec > 0
    ensures ValidRun(Init(start, true), run) && ArmedRun(Init(start, true), run, key)
    ensures AllKeepInterval(run, key, spec.repeatAfterSec)
    ensures TooSoon(Exec(Init(start, true), run), key, spec.repeatAfterSec)
  {
    var before := PendingStartIsReachable(start, key, spec, "first");
    var s := Exec(Init(start, true), before);
    var begin := Go(1, Done);
    var id :| 0 <= id < |s.timers| && s.timers[id].live && s.timers[id].key == key;
    var wf := FreshName(s.submitted);
    var rest := PendingBreaks(s, 1, Done, key, spec.repeatAfterSec, id, wf);
    StartIsArmed(s, key);
    hide Next, Enabled, StartsARun, Inv, ArmedStep, TooSoon, Exec, Good, KeepsInterval, GoNext;
    SpentIsArmed(Next(s, begin), rest, key);
    ArmedCons(s, begin, rest, key);
    ArmedConcat(Init(start, true), before, [begin] + rest, key);
    KeepsStart(before, begin, rest, key, spec.repeatAfterSec);
    run := before + ([begin] + rest);
  }

  lemma StartIsArmed(s: State, key: Key)
    requires StartsARun(s, 1, Done, key)
    ensures Enabled(s, Go(1, Done)) && ArmedStep(s, Go(1, Done), key) && Next(s, Go(1, Done)) == GoNext(s, 1, Done)
  {
    hide GoNext, Step;
  }

  lemma KeepsStart(before: seq<Action>, start: Action, rest: seq<Action>, key: Key, interval: int)
    requires AllKeepInterval(before, key, interval) && AllKeepInterval(rest, key, interval) && start.Go?
    ensures AllKeepInterval(before + ([start] + rest), key, interval)
  {
  }
}
