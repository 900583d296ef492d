/** Checks scheduled by a cron expression. A reconcile derives an interval from it and keeps it in
    memory; a timer's goroutine reads the stored interval again. So a check scheduled by cron alone
    follows its schedule once, and from then on runs back to back. */
module CronSchedules {
  import opened HealthChecks
  import opened StatusRules
  import opened Goroutines
  import opened Machine
  import opened Spacing
  import opened SpacingLimits
  import opened Episodes
  import opened SerialRuns
  import RbacNames
  import Templates

  // ---------------------------------------------------------------- the interval a timer's goroutine re-arms with

  lemma KeepsInMemory(t: Thread, now: Time, a: Answer)
    requires !Unread(t.pc) && !t.pc.Decide?
    ensures Step(t, now, a).hc.spec.repeatAfterSec == t.hc.spec.repeatAfterSec
    ensures !Unread(Step(t, now, a).pc) && !Step(t, now, a).pc.Decide?
  {
    hide StepPoll, StepRemedyPoll, StepDecide;
    if t.pc.Poll? || t.pc.RemedyPoll? { PollsKeepInMemory(t, now, a); }
    if Step(t, now, a).pc.Decide? || Unread(Step(t, now, a).pc) { EntersDecide(t, now, a); }
  }

  lemma PollsKeepInMemory(t: Thread, now: Time, a: Answer)
    ensures t.pc.Poll? ==> StepPoll(t, now, a).hc.spec == t.hc.spec
    ensures t.pc.RemedyPoll? ==> StepRemedyPoll(t, now, a).hc.spec == t.hc.spec
  {
  }

  lemma {:induction false} KeepsInMemoryThroughout(t: Thread, replies: seq<Reply>)
    requires !Unread(t.pc) && !t.pc.Decide?
    ensures Run(t, replies).hc.spec.repeatAfterSec == t.hc.spec.repeatAfterSec
    decreases |replies|
  {
    hide Step;
    if replies != [] {
      KeepsInMemory(t, replies[0].now, replies[0].answer);
      KeepsInMemoryThroughout(Step(t, replies[0].now, replies[0].answer), replies[1..]);
    }
  }

  /** Whatever the answers, and whatever cron expression the object has: a timer's goroutine works
      with the interval its Get fetched, zero and negative ones too. */
  lemma TimerKeepsFetchedInterval(key: Key, replies: seq<Reply>)
    requires replies != [] && replies[0].answer.Fetched?
    ensures Run(NewThread(key, Timer), replies).hc.spec.repeatAfterSec == replies[0].answer.copy.spec.repeatAfterSec
  {
    var t := Step(NewThread(key, Timer), replies[0].now, replies[0].answer);
    KeepsInMemoryThroughout(t, replies[1..]);
    hide Step;
  }

  /** The timer that a re-arm starts can fire on the spot if and only if the interval in memory is
      not positive. */
  lemma RearmsAtOnceExactly(s: State, tid: nat, a: Answer)
    requires s.mapMade && CanGo(s, tid, a) && s.threads[tid].pc.RearmStart?
    ensures Enabled(GoNext(s, tid, a), Fire(|s.timers|)) <==> s.threads[tid].hc.spec.repeatAfterSec <= 0
  {
    hide StepPoll, StepRemedyPoll, StepDecide, StepSubmit, StepRemedySubmit, StepRbac, StepWriteGet, StepWritePut;
    hide StepLast;
    assert a.Done?;
  }

  /** Both together: a timer's goroutine re-arms with a timer that is due at once if and only if
      the stored interval it fetched is not positive. */
  lemma TimerRearmsAtOnceExactly(s: State, tid: nat, a: Answer, replies: seq<Reply>)
    requires s.mapMade && CanGo(s, tid, a) && s.threads[tid].pc.RearmStart?
    requires replies != [] && replies[0].answer.Fetched?
    requires s.threads[tid] == Run(NewThread(s.threads[tid].key, Timer), replies)
    ensures Enabled(GoNext(s, tid, a), Fire(|s.timers|)) <==> replies[0].answer.copy.spec.repeatAfterSec <= 0
  {
    TimerKeepsFetchedInterval(s.threads[tid].key, replies);
    RearmsAtOnceExactly(s, tid, a);
    hide Run, Enabled, GoNext;
  }

  // ---------------------------------------------------------------- back to back

  /** A timer of the check is due, nobody is busy with it, and the stored interval is not positive. */
  ghost predicate Spinning(s: State, id: nat, key: Key) {
    Due(s, id, key)
    && s.store[key].spec.workflow.resource.Some? && s.store[key].spec.repeatAfterSec <= 0
  }

  /** One more run, in no time: the next timer is due when this one has finished. */
  lemma SpinsOnce(s: State, id: nat, key: Key, wf: string) returns (run: seq<Action>)
    requires Spinning(s, id, key) && wf != "" && wf !in s.submitted
    ensures Good(s, run, key) && Instant(run) && Spinning(Exec(s, run), |s.timers|, key)
    ensures Exec(s, run).now == s.now && Exec(s, run).submitted == s.submitted + {wf}
  {
    var n := |s.threads|;
    var get := Go(n, Fetched(CopyOf(s.store[key]), s.store[key].rv));
    Fires(s, id, key);
    var s1 := Next(s, Fire(id));
    var s2 := Next(s1, get);
    StillSpinning(s, id, key, wf, s2);
    hide Spinning, Enabled, Next, SpacedStep, Finished;
    run := Episode(s2, n, key, wf);
    Fold(s1, get, run, key);
    Fold(s, Fire(id), [get] + run, key);
    run := [Fire(id)] + ([get] + run);
  }

  lemma StillSpinning(s: State, id: nat, key: Key, wf: string, s2: State)
    requires Spinning(s, id, key)
    requires s2 == s.(timers := Cancelled(s.timers, id),
                      threads := s.threads + [Thread(key, Timer, Submit, CopyOf(s.store[key]), [])])
    ensures s2.threads[|s.threads|].hc.spec.workflow.resource.Some?
    ensures var s' := Finished(s2, |s.threads|, key, wf);
            && Spinning(s', |s.timers|, key) && s'.now == s.now && s'.submitted == s.submitted + {wf}
  {
    hide RecordSuccess;
  }

  /** From then on the check runs as often as it likes at one instant: for every number there is a
      run that submits that many workflows without any time passing. */
  lemma {:induction false} Spins(s: State, id: nat, key: Key, times: nat) returns (run: seq<Action>)
    requires Spinning(s, id, key)
    ensures Good(s, run, key) && Instant(run)
    ensures Exec(s, run).now == s.now && |Exec(s, run).submitted| == |s.submitted| + times
    decreases times
  {
    hide Spinning, Exec, SpacedRun, SerialRun;
    if times == 0 {
      run := [];
      EmptyIsGood(s, key);
    } else {
      var wf := FreshName(s.submitted);
      var first := SpinsOnce(s, id, key, wf);
      var rest := Spins(Exec(s, first), |s.timers|, key, times - 1);
      Concat(s, first, rest, key);
      run := first + rest;
    }
  }

  lemma EmptyIsGood(s: State, key: Key)
    ensures Good(s, [], key) && Exec(s, []) == s
  {
  }

  // ---------------------------------------------------------------- the input

  /** From the start of the system, for every runnable check scheduled by cron alone: its first run
      takes place at once and re-arms after the derived delay; once that has passed, any number of
      runs follow with no time between them. */
  lemma CronChecksSpin(start: Time, key: Key, spec: Spec, delay: nat, times: nat)
      returns (first: seq<Action>, rest: seq<Action>)
    requires key.name != "" && Runnable(spec) && spec.repeatAfterSec <= 0 && spec.cron != ""
    ensures Good(Init(start, true), first + ([Tick(delay * SECOND)] + rest), key)
    ensures Good(Init(start, true), first, key) && Instant(first)
    ensures Exec(Init(start, true), first).now == start && |Exec(Init(start, true), first).submitted| == 1
    ensures var s := Next(Exec(Init(start, true), first), Tick(delay * SECOND));
            && Good(s, rest, key) && Instant(rest)
            && Exec(s, rest).now == s.now == start + delay * SECOND
            && |Exec(s, rest).submitted| == 1 + times
  {
    var edited := spec.(repeatAfterSec := delay);
    var s := Finished(At(start, true, key, spec, RbacNames.Renamed(edited), Submit), 0, key, "first");
    var wait := Tick(delay * SECOND);
    first := FirstCronRun(start, key, spec, edited, delay);
    ThenSpins(start, key, spec, edited, delay);
    rest := Spins(Next(s, wait), 0, key, times);
    hide Good, Exec, Next, Enabled, SpacedStep, Finished, At, Runnable, Spinning;
    Fold(s, wait, rest, key);
    Concat(Init(start, true), first, [wait] + rest, key);
  }

  lemma FirstCronRun(start: Time, key: Key, spec: Spec, edited: Spec, delay: nat) returns (run: seq<Action>)
    requires key.name != "" && Runnable(spec) && spec.repeatAfterSec <= 0 && spec.cron != ""
    requires edited == spec.(repeatAfterSec := delay)
    ensures Good(Init(start, true), run, key) && Instant(run)
    ensures Exec(Init(start, true), run)
            == Finished(At(start, true, key, spec, RbacNames.Renamed(edited), Submit), 0, key, "first")
  {
    var s0, s1 := Init(start, true), At(start, true, key, spec, spec, Decide);
    var s2 := At(start, true, key, spec, RbacNames.Renamed(edited), Submit);
    var fetch := Fetches(start, true, key, spec);
    CronIsAdmitted(start, key, spec, delay);
    var admit := Admits(start, true, key, spec, CronDelay(Some(delay)), edited);
    CronSubmitIsClear(start, key, spec, edited);
    var episode := Episode(s2, 0, key, "first");
    hide Good, Exec, Finished, At, Clear, Runnable;
    Concat(s0, fetch, admit, key);
    Concat(s0, fetch + admit, episode, key);
    run := fetch + admit + episode;
  }

  lemma CronIsAdmitted(start: Time, key: Key, spec: Spec, delay: nat)
    requires Runnable(spec) && spec.repeatAfterSec <= 0 && spec.cron != ""
    ensures var s := At(start, true, key, spec, spec, Decide);
            var d := CronDelay(Some(delay));
            CanGo(s, 0, d)
            && Step(s.threads[0], s.now, d)
               == At(start, true, key, spec, spec.(repeatAfterSec := delay), CreateRbac).threads[0]
  {
  }

  lemma CronSubmitIsClear(start: Time, key: Key, spec: Spec, edited: Spec)
    requires Runnable(spec) && edited == spec.(repeatAfterSec := edited.repeatAfterSec)
    ensures Clear(At(start, true, key, spec, RbacNames.Renamed(edited), Submit), 0, key)
    ensures RbacNames.Renamed(edited).workflow.resource.Some? && !RbacNames.Refused(edited)
  {
  }

  lemma ThenSpins(start: Time, key: Key, spec: Spec, edited: Spec, delay: nat)
    requires Runnable(spec) && spec.repeatAfterSec <= 0 && edited == spec.(repeatAfterSec := delay)
    ensures var s := Finished(At(start, true, key, spec, RbacNames.Renamed(edited), Submit), 0, key, "first");
            var wait := Tick(delay * SECOND);
            && SpacedStep(s, wait, key) && Spinning(Next(s, wait), 0, key)
            && s.now == start && s.submitted == {"first"}
            && Next(s, wait).now == start + delay * SECOND && Next(s, wait).submitted == {"first"}
  {
    hide RecordSuccess, Templates.ParseWorkflow;
    var t := At(start, true, key, spec, RbacNames.Renamed(edited), Submit).threads[0];
    RenamedKeepsInterval(edited);
    assert Ran(t, start, "first").hc.spec.repeatAfterSec == delay by { ParsedKeepsInterval(t.hc.spec); }
  }

  lemma RenamedKeepsInterval(spec: Spec)
    ensures RbacNames.Renamed(spec).repeatAfterSec == spec.repeatAfterSec
  {
  }

  lemma ParsedKeepsInterval(spec: Spec)
    ensures Templates.SpecAfter(spec, Templates.ParseWorkflow(spec, TEMPLATE)).repeatAfterSec == spec.repeatAfterSec
  {
  }
}
