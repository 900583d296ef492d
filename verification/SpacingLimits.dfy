/** Where the spacing of runs is decided. A reconcile may find its check due while the check's own
    timer is still pending; the run it starts can end with its status stored and nothing re-armed,
    and the old timer then starts the next run at once. */
module SpacingLimits {
  import opened HealthChecks
  import opened Goroutines
  import opened Machine
  import opened Frames
  import opened Spacing
  import StatusInvariant
  import SpecSafety
  import TimerSafety
  import RbacNames
  import Templates

  /** A goroutine is about to submit less than an interval after the last stored finish. */
  ghost predicate TooSoon(s: State, key: Key, interval: int) {
    exists tid :: 0 <= tid < |s.threads| && s.threads[tid].key == key && s.threads[tid].pc.Submit?
      && key in s.store && s.store[key].status.finishedAt.Some?
      && s.now < s.store[key].status.finishedAt.value + interval * SECOND
  }

  /** A serial continuation, all of whose own runs start armed and with no timer pending. */
  ghost predicate SpentRun(s: State, run: seq<Action>, key: Key)
    requires ValidRun(s, run)
    decreases |run|
  {
    run == []
    || (SpentStep(s, run[0], key) && SpentRun(Next(s, run[0]), run[1..], key))
  }

  ghost predicate SpentStep(s: State, a: Action, key: Key)
    requires Enabled(s, a)
  {
    OneBusy(Next(s, a), key) && StartsArmed(s, a, key) && (Starts(s, a, key) ==> NonePending(s, key))
  }

  ghost predicate Violates(s: State, run: seq<Action>, key: Key, interval: int) {
    ValidRun(s, run) && SpentRun(s, run, key) && AllKeepInterval(run, key, interval)
    && TooSoon(Exec(s, run), key, interval)
  }

  lemma Prepend(s: State, a: Action, rest: seq<Action>, key: Key, interval: int)
    requires Enabled(s, a) && OneBusy(Next(s, a), key) && !Starts(s, a, key) && KeepsInterval(a, key, interval)
    requires Violates(Next(s, a), rest, key, interval)
    ensures Violates(s, [a] + rest, key, interval)
  {
    hide Next, Enabled, OneBusy, KeepsInterval, TooSoon, Starts, NonePending;
    assert ([a] + rest)[0] == a && ([a] + rest)[1..] == rest;
  }

  /** Goroutine `tid` runs the check alone while timer `id` is pending. */
  ghost predicate Scene(s: State, tid: nat, id: nat, key: Key, interval: int) {
    && interval > 0 && s.lock.None? && "" !in s.table && key in s.store
    && tid < |s.threads| && s.threads[tid].key == key && !s.threads[tid].hc.deleting
    && id < |s.timers| && s.timers[id].live && s.timers[id].key == key
    && (forall i :: 0 <= i < |s.threads| && i != tid ==> !BusyFor(s.threads[i], key))
  }

  lemma SceneMoves(s: State, tid: nat, a: Answer, id: nat, key: Key, interval: int)
    requires Scene(s, tid, id, key, interval) && CanGo(s, tid, a)
    requires var t' := Step(s.threads[tid], s.now, a); !t'.pc.Panicked? && !t'.hc.deleting
    requires var s' := Effect(s, tid, s.threads[tid], a);
             s'.lock.None? && s'.table == s.table && s'.timers == s.timers && key in s'.store
    ensures Scene(GoNext(s, tid, a), tid, id, key, interval) && OneBusy(GoNext(s, tid, a), key)
    ensures GoNext(s, tid, a).threads[tid] == Step(s.threads[tid], s.now, a)
    ensures GoNext(s, tid, a).now == s.now && GoNext(s, tid, a).timers == s.timers
  {
    hide Step, Effect, Answerable;
  }

  lemma AfterTheEnd(s: State, tid: nat, id: nat, key: Key, interval: int) returns (run: seq<Action>)
    requires Scene(s, tid, id, key, interval) && s.threads[tid].pc.Ended? && s.timers[id].due <= s.now
    requires s.store[key].status.finishedAt == Some(WholeSecond(s.now))
    ensures Violates(s, run, key, interval)
  {
    var fired := Next(s, Fire(id));
    var rest := AfterTheFiring(fired, |s.threads|, key, interval);
    Prepend(s, Fire(id), rest, key, interval);
    run := [Fire(id)] + rest;
  }

  lemma AfterTheFiring(s: State, tid: nat, key: Key, interval: int) returns (run: seq<Action>)
    requires interval > 0 && key in s.store && s.store[key].status.finishedAt == Some(WholeSecond(s.now))
    requires tid < |s.threads| && s.threads[tid].key == key && s.threads[tid].pc.TimerGet?
    requires OneBusy(s, key)
    ensures Violates(s, run, key, interval)
  {
    var get := Fetched(CopyOf(s.store[key]), s.store[key].rv);
    var last := Next(s, Go(tid, get));
    assert last.threads[tid].pc.Submit?;
    assert TooSoon(last, key, interval);
    assert forall i :: 0 <= i < |s.threads| && BusyFor(last.threads[i], key) ==> BusyFor(s.threads[i], key);
    hide Next, Enabled, TooSoon;
    assert Violates(last, [], key, interval);
    Prepend(s, Go(tid, get), [], key, interval);
    run := [Go(tid, get)] + [];
  }

  lemma AfterTheWrite(s: State, tid: nat, id: nat, key: Key, interval: int) returns (run: seq<Action>)
    requires Scene(s, tid, id, key, interval) && s.timers[id].due <= s.now
    requires s.threads[tid].pc.WritePut? && s.threads[tid].pc.write.Final? && s.threads[tid].pc.rv == s.store[key].rv
    requires s.threads[tid].hc.status.finishedAt == Some(s.now)
    ensures Violates(s, run, key, interval)
  {
    var written := Next(s, Go(tid, LostReply));
    SceneMoves(s, tid, LostReply, id, key, interval);
    var probed := Next(written, Go(tid, Entry(None)));
    SceneMoves(written, tid, Entry(None), id, key, interval);
    var rest := AfterTheEnd(probed, tid, id, key, interval);
    Prepend(written, Go(tid, Entry(None)), rest, key, interval);
    Prepend(s, Go(tid, LostReply), [Go(tid, Entry(None))] + rest, key, interval);
    run := [Go(tid, LostReply)] + ([Go(tid, Entry(None))] + rest);
  }

  lemma AfterThePoll(s: State, tid: nat, id: nat, key: Key, interval: int) returns (run: seq<Action>)
    requires Scene(s, tid, id, key, interval) && s.timers[id].due <= s.now
    requires s.threads[tid].pc.WriteGet? && s.threads[tid].pc.write.Final?
    requires s.threads[tid].hc.status.finishedAt == Some(s.now)
    ensures Violates(s, run, key, interval)
  {
    var get := Fetched(CopyOf(s.store[key]), s.store[key].rv);
    SceneMoves(s, tid, get, id, key, interval);
    var rest := AfterTheWrite(Next(s, Go(tid, get)), tid, id, key, interval);
    Prepend(s, Go(tid, get), rest, key, interval);
    run := [Go(tid, get)] + rest;
  }

  lemma AtThePoll(s: State, tid: nat, id: nat, key: Key, interval: int) returns (run: seq<Action>)
    requires Scene(s, tid, id, key, interval) && s.timers[id].due <= s.now
    requires s.threads[tid].pc.Poll? && s.threads[tid].pc.left > 0 && s.threads[tid].pc.wf != ""
    ensures Violates(s, run, key, interval)
  {
    var saw := Saw(Found(Passed, ""));
    SceneMoves(s, tid, saw, id, key, interval);
    var rest := AfterThePoll(Next(s, Go(tid, saw)), tid, id, key, interval);
    Prepend(s, Go(tid, saw), rest, key, interval);
    run := [Go(tid, saw)] + rest;
  }

  lemma AtTheWatch(s: State, tid: nat, id: nat, key: Key, interval: int) returns (run: seq<Action>)
    requires Scene(s, tid, id, key, interval)
    requires s.threads[tid].pc.WatchStart? && s.threads[tid].pc.wf != ""
    ensures Violates(s, run, key, interval)
  {
    SceneMoves(s, tid, Budget(1), id, key, interval);
    var watched := Next(s, Go(tid, Budget(1)));
    var wait := Tick(if s.timers[id].due > s.now then s.timers[id].due - s.now else 0);
    var rest := AtThePoll(Next(watched, wait), tid, id, key, interval);
    Prepend(watched, wait, rest, key, interval);
    Prepend(s, Go(tid, Budget(1)), [wait] + rest, key, interval);
    run := [Go(tid, Budget(1))] + ([wait] + rest);
  }

  lemma AtTheSubmission(s: State, tid: nat, id: nat, key: Key, interval: int, wf: string) returns (run: seq<Action>)
    requires Scene(s, tid, id, key, interval) && s.threads[tid].pc.Submit?
    requires s.threads[tid].hc.spec.workflow.resource.Some? && wf != "" && wf !in s.submitted
    ensures Violates(s, run, key, interval)
  {
    var submission := Submission(Some(wf), Templates.Template(map["spec" := Templates.Fields(map[])]));
    SceneMoves(s, tid, submission, id, key, interval);
    var rest := AtTheWatch(Next(s, Go(tid, submission)), tid, id, key, interval);
    Prepend(s, Go(tid, submission), rest, key, interval);
    run := [Go(tid, submission)] + rest;
  }

  lemma AtTheRbac(s: State, tid: nat, id: nat, key: Key, interval: int, wf: string) returns (run: seq<Action>)
    requires Scene(s, tid, id, key, interval) && s.threads[tid].pc.CreateRbac?
    requires !RbacNames.Refused(s.threads[tid].hc.spec)
    requires s.threads[tid].hc.spec.workflow.resource.Some? && wf != "" && wf !in s.submitted
    ensures Violates(s, run, key, interval)
  {
    SceneMoves(s, tid, Done, id, key, interval);
    var rest := AtTheSubmission(Next(s, Go(tid, Done)), tid, id, key, interval, wf);
    Prepend(s, Go(tid, Done), rest, key, interval);
    run := [Go(tid, Done)] + rest;
  }

  /** A reconcile of `tid` starts a run of a live, runnable check that has been armed before. */
  ghost predicate StartsARun(s: State, tid: nat, a: Answer, key: Key) {
    && CanGo(s, tid, a) && Starts(s, Go(tid, a), key) && OneBusy(GoNext(s, tid, a), key)
    && key in s.store && s.threads[tid].hc == CopyOf(s.store[key]) && !s.store[key].deleting
    && !RbacNames.Refused(s.store[key].spec) && key.name in s.table && s.lock.None?
  }

  lemma PendingBreaks(s: State, tid: nat, a: Answer, key: Key, interval: int, id: nat, wf: string)
      returns (run: seq<Action>)
    requires Inv(s, key, interval) && StartsARun(s, tid, a, key)
    requires id < |s.timers| && s.timers[id].live && s.timers[id].key == key
    requires wf != "" && wf !in s.submitted
    ensures Violates(GoNext(s, tid, a), run, key, interval)
  {
    var s' := GoNext(s, tid, a);
    StartedScene(s, tid, a, key, interval, id);
    hide Inv, GoNext, Step, Effect, Answerable;
    run := AtTheRbac(s', tid, id, key, interval, wf);
  }

  lemma StartedScene(s: State, tid: nat, a: Answer, key: Key, interval: int, id: nat)
    requires Inv(s, key, interval) && StartsARun(s, tid, a, key)
    requires id < |s.timers| && s.timers[id].live && s.timers[id].key == key
    ensures var s' := GoNext(s, tid, a);
            && Scene(s', tid, id, key, interval) && s'.threads[tid].pc.CreateRbac? && s'.submitted == s.submitted
            && s'.threads[tid].hc.spec == s.store[key].spec && s.store[key].spec.workflow.resource.Some?
  {
    hide StatusInvariant.Inv, SpecSafety.Inv, Step, Effect, Answerable, GoNext, Starts, TimerSafety.Core;
    StarterDecides(s, tid, a, key);
    assert ThreadSpaced(s, s.threads[tid], interval);
    StartedStep(s, tid, a, key);
    var s' := GoNext(s, tid, a);
    assert BusyFor(s'.threads[tid], key);
    forall i | 0 <= i < |s'.threads| && i != tid ensures !BusyFor(s'.threads[i], key) {
      assert BusyFor(s'.threads[i], key) ==> i == tid;
    }
  }

  lemma StarterDecides(s: State, tid: nat, a: Answer, key: Key)
    requires CanGo(s, tid, a) && Starts(s, Go(tid, a), key)
    ensures s.threads[tid].key == key && s.threads[tid].pc.Decide?
  {
  }

  /** The decision itself moves the goroutine and nothing else. */
  lemma StartedStep(s: State, tid: nat, a: Answer, key: Key)
    requires CanGo(s, tid, a) && Starts(s, Go(tid, a), key) && s.threads[tid].hc.spec.repeatAfterSec > 0
    ensures var t := s.threads[tid];
            && t.key == key && t.hc.spec.workflow.resource.Some?
            && GoNext(s, tid, a) == s.(threads := s.threads[tid := t.(pc := CreateRbac)])
  {
    hide StepPoll, StepRemedyPoll, StepSubmit, StepRemedySubmit, StepRbac, StepWriteGet, StepWritePut, StepLast;
  }

  /** No finite set of names has every name in it. */
  lemma {:induction false} FreshName(taken: set<string>) returns (wf: string)
    ensures wf != "" && wf !in taken && forall n :: n in taken ==> |n| < |wf|
  {
    if taken == {} {
      wf := "w";
    } else {
      var n :| n in taken;
      var rest := FreshName(taken - {n});
      wf := if |n| < |rest| then rest else n + "w";
    }
  }

  /** For a reconcile that starts a run of a check armed before, in any state a run can reach: the
      check's timer is no longer pending if and only if all serial continuations whose own later
      starts are armed with no timer pending keep submissions an interval away from the last stored
      finish. */
  lemma SpacedExactlyWhenSpent(s: State, tid: nat, a: Answer, key: Key, interval: int)
    requires Inv(s, key, interval) && StartsARun(s, tid, a, key)
    ensures NonePending(s, key) <==> forall run :: !Violates(GoNext(s, tid, a), run, key, interval)
  {
    var s' := GoNext(s, tid, a);
    hide Inv, GoNext, StartsARun, Violates, AloneWhenBusy;
    if NonePending(s, key) {
      SpentKeepsInv(s, tid, a, key, interval);
      forall run ensures !Violates(s', run, key, interval) {
        InvPreventsViolations(s', run, key, interval);
      }
    } else {
      var id :| 0 <= id < |s.timers| && s.timers[id].live && s.timers[id].key == key;
      var wf := FreshName(s.submitted);
      var run := PendingBreaks(s, tid, a, key, interval, id, wf);
    }
  }

  lemma SpentKeepsInv(s: State, tid: nat, a: Answer, key: Key, interval: int)
    requires Inv(s, key, interval) && StartsARun(s, tid, a, key) && NonePending(s, key)
    ensures Inv(GoNext(s, tid, a), key, interval) && AloneWhenBusy(GoNext(s, tid, a), key)
  {
    hide GoNext, Step, Effect, Answerable, Inv;
    NextKeepsInv(s, Go(tid, a), key, interval);
    PendingAfterGo(s, tid, a, key);
  }

  // ---------------------------------------------------------------- spent runs are spaced

  /** While a goroutine of `key` is busy no timer of `key` is pending. */
  ghost predicate AloneWhenBusy(s: State, key: Key) {
    NonePending(s, key) || forall i :: 0 <= i < |s.threads| ==> !BusyFor(s.threads[i], key)
  }

  lemma LeavesBlock(t: Thread, now: Time, a: Answer)
    requires t.pc.RearmStart?
    ensures !Busy(Step(t, now, a).pc)
  {
  }

  lemma GoKeepsAlone(s: State, tid: nat, a: Answer, key: Key)
    requires OneBusy(s, key) && AloneWhenBusy(s, key) && CanGo(s, tid, a) && SpentStep(s, Go(tid, a), key)
    ensures AloneWhenBusy(GoNext(s, tid, a), key)
  {
    hide GoNext, Effect, Answerable, Step, Busy;
    var t := s.threads[tid];
    var s' := GoNext(s, tid, a);
    GoFrame(s, tid, a);
    if Busy(Step(t, s.now, a).pc) && !Busy(t.pc) { EntersBusy(t, s.now, a); }
    if t.pc.RearmStart? {
      LeavesBlock(t, s.now, a);
      BlockIsBusy(t);
    }
    if NonePending(s, key) && !(t.key == key && t.pc.RearmStart?) { PendingAfterGo(s, tid, a, key); }
  }

  lemma BlockIsBusy(t: Thread)
    requires t.pc.RearmStart?
    ensures Busy(t.pc)
  {
  }

  lemma NextKeepsAlone(s: State, a: Action, key: Key, interval: int)
    requires Inv(s, key, interval) && AloneWhenBusy(s, key) && Enabled(s, a) && SpentStep(s, a, key)
    ensures AloneWhenBusy(Next(s, a), key)
  {
    hide StatusInvariant.Inv, SpecSafety.Inv, GoNext;
    if a.Go? {
      hide TimerSafety.Inv;
      GoKeepsAlone(s, a.tid, a.answer, key);
    } else {
      var s' := Next(s, a);
      if a.Fire? && s.timers[a.timer].key == key { assert NonePending(s', key); }
    }
  }

  lemma {:induction false} SpentRunIsSpaced(s: State, run: seq<Action>, key: Key, interval: int)
    requires Inv(s, key, interval) && AloneWhenBusy(s, key)
    requires ValidRun(s, run) && SpentRun(s, run, key) && AllKeepInterval(run, key, interval)
    ensures SpacedRun(s, run, key)
    decreases |run|
  {
    hide Inv, Enabled, Next, AloneWhenBusy, SpentStep, SpacedStep, KeepsInterval;
    if run != [] {
      SpentStepIsSpaced(s, run[0], key);
      NextKeepsAlone(s, run[0], key, interval);
      NextKeepsInv(s, run[0], key, interval);
      SpentRunIsSpaced(Next(s, run[0]), run[1..], key, interval);
    }
  }

  lemma SpentStepIsSpaced(s: State, a: Action, key: Key)
    requires Enabled(s, a) && AloneWhenBusy(s, key) && SpentStep(s, a, key)
    ensures SpacedStep(s, a, key)
  {
    hide Next, Answerable, Busy, StartsArmed, OneBusy, Starts;
  }

  lemma InvPreventsViolations(s: State, run: seq<Action>, key: Key, interval: int)
    requires Inv(s, key, interval) && AloneWhenBusy(s, key)
    ensures !Violates(s, run, key, interval)
  {
    hide Inv, TooSoon, AloneWhenBusy;
    if Violates(s, run, key, interval) {
      SpentRunIsSpaced(s, run, key, interval);
      RunKeepsInv(s, run, key, interval);
      NotTooSoon(Exec(s, run), key, interval);
    }
  }

  /** Hence, from the start of the system: a serial run all of whose starts are armed and find no
      timer pending never has a submission begin too soon. */
  lemma SpentRunsAreSpaced(start: Time, run: seq<Action>, key: Key, interval: int)
    requires interval > 0 && ValidRun(Init(start, true), run)
    requires SpentRun(Init(start, true), run, key) && AllKeepInterval(run, key, interval)
    ensures !TooSoon(Exec(Init(start, true), run), key, interval)
  {
    InitInv(start, key, interval);
    InvPreventsViolations(Init(start, true), run, key, interval);
  }

  lemma NotTooSoon(s: State, key: Key, interval: int)
    requires Inv(s, key, interval)
    ensures !TooSoon(s, key, interval)
  {
    hide TimerSafety.Inv, StatusInvariant.Inv, SpecSafety.Inv;
    forall tid | 0 <= tid < |s.threads| && s.threads[tid].key == key && s.threads[tid].pc.Submit?
      ensures Elapsed(s, key, interval, s.now)
    {
      assert ThreadSpaced(s, s.threads[tid], interval);
    }
  }
}
