/** Deletion quiesces. Once an object is gone and not created again, whatever is still in
    flight for it dies out: a bound on everything the controller does for it from then on,
    under every interleaving with users, other checks, crashes and further reconciles. */
module Deletion {
  import opened HealthChecks
  import opened Goroutines
  import opened Machine
  import opened Frames
  import opened Sums
  import TimerSafety

  // ---------------------------------------------------------------- pending timers

  function LiveTimers(timers: seq<RepeatTimer>, key: Key): nat {
    if timers == [] then 0
    else
      var last := timers[|timers| - 1];
      LiveTimers(timers[..|timers| - 1], key) + if last.live && last.key == key then 1 else 0
  }

  lemma {:induction false} CancelTimers(timers: seq<RepeatTimer>, i: nat, key: Key)
    ensures LiveTimers(Cancelled(timers, i), key)
            == LiveTimers(timers, key) - if i < |timers| && timers[i].live && timers[i].key == key then 1 else 0
    decreases |timers|
  {
    if i < |timers| {
      var n := |timers| - 1;
      var rest := timers[..n];
      if i == n {
        assert Cancelled(timers, i)[..n] == rest;
      } else {
        assert Cancelled(timers, i)[..n] == Cancelled(rest, i);
        CancelTimers(rest, i, key);
      }
    }
  }

  lemma StartTimer(timers: seq<RepeatTimer>, timer: RepeatTimer, key: Key)
    ensures LiveTimers(timers + [timer], key)
            == LiveTimers(timers, key) + if timer.live && timer.key == key then 1 else 0
  {
    assert (timers + [timer])[..|timers|] == timers;
  }

  // ---------------------------------------------------------------- the measure

  /** Steps a thread whose object is gone can still take, counting what it may leave behind.
      Every polling loop is granted at most `polls` waits. */
  function Remaining(pc: Pc, polls: nat): nat {
    match pc
    case ReconcileGet => 4
    case CancelLookup(_) => 3
    case CancelRead => 2
    case CancelStop(_) => 1
    case TimerGet => 1
    case Decide => 14 + 2 * polls
    case CreateRbac => 13 + 2 * polls
    case Submit => 12 + 2 * polls
    case WatchStart(_) => 11 + 2 * polls
    case Poll(_, _, left) => 10 + polls + left
    case RemedyRbac => 9 + polls
    case RemedySubmit => 8 + polls
    case RemedyStart(_) => 7 + polls
    case RemedyPoll(_, _, left) => 6 + left
    case RemedyCleanup => 5
    case WriteGet(_, _) => 4
    case WritePut(_, _, _) => 4
    case Rearm => 5
    case RearmStart => 4
    case LastGet(_) => 1
    case LastPut(_, _, _) => 1
    case Ended => 0
    case Panicked => 0
  }

  function RemainingFor(t: Thread, key: Key, polls: nat): nat {
    if t.key == key then Remaining(t.pc, polls) else 0
  }

  /** A pending timer can still fire and start a thread that takes one step. */
  const TIMER_WEIGHT: nat := 2

  function Measure(s: State, key: Key, polls: nat): nat {
    Total(s.threads, (t: Thread) => RemainingFor(t, key, polls)) + TIMER_WEIGHT * LiveTimers(s.timers, key)
  }

  predicate BoundedPolls(a: Answer, polls: nat) {
    a.Budget? ==> a.polls <= polls
  }

  /** The API server never answers for an object that is gone as if it were there. */
  predicate GoneAnswer(t: Thread, a: Answer) {
    !a.Fetched? && ((t.pc.WritePut? || t.pc.LastPut?) ==> !a.Done? && !a.Conflict? && !a.LostReply?)
  }

  /** A step of a live thread of a vanished object uses up its measure; starting a timer is
      paid for by the step that does it. */
  lemma StepsRunOut(t: Thread, now: Time, a: Answer, polls: nat)
    requires GoneAnswer(t, a) && BoundedPolls(a, polls)
    requires t.pc.CancelStop? || t.pc.CancelLookup? || t.pc.CancelRead? || t.pc.ReconcileGet? || t.pc.TimerGet?
             || t.pc.WritePut? || t.pc.WriteGet? || t.pc.LastPut? || t.pc.LastGet? || t.pc.Rearm? || t.pc.RearmStart?
    ensures Remaining(Step(t, now, a).pc, polls) + 1 + (if t.pc.RearmStart? then TIMER_WEIGHT else 0)
            <= Remaining(t.pc, polls)
  {
  }

  lemma PollsRunOut(t: Thread, now: Time, a: Answer, polls: nat)
    requires (t.pc.Poll? || t.pc.RemedyPoll?) && a.Saw?
    ensures Remaining(Step(t, now, a).pc, polls) + 1 <= Remaining(t.pc, polls)
  {
  }

  lemma SubmissionsRunOut(t: Thread, now: Time, a: Answer, polls: nat)
    requires t.pc.Decide? || t.pc.CreateRbac? || t.pc.Submit? || t.pc.RemedyRbac? || t.pc.RemedySubmit?
             || t.pc.RemedyCleanup?
             || ((t.pc.WatchStart? || t.pc.RemedyStart?) && a.Budget? && a.polls <= polls)
    ensures Remaining(Step(t, now, a).pc, polls) + 1 <= Remaining(t.pc, polls)
  {
  }

  /** Submissions a thread can still make once its object is gone: the health check's workflow
      and its remedy's. A thread that has not read its object yet will never read it. */
  function Pledged(pc: Pc): nat {
    match pc
    case Decide => 2
    case CreateRbac => 2
    case Submit => 2
    case WatchStart(_) => 1
    case Poll(_, _, _) => 1
    case RemedyRbac => 1
    case RemedySubmit => 1
    case _ => 0
  }

  function PledgedFor(t: Thread, key: Key): nat {
    if t.key == key then Pledged(t.pc) else 0
  }

  function Pledge(s: State, key: Key): nat {
    Total(s.threads, (t: Thread) => PledgedFor(t, key))
  }

  /** A workflow is created for `key` by this action. */
  predicate Submits(s: State, a: Action, key: Key)
    requires Enabled(s, a)
  {
    a.Go? && s.threads[a.tid].key == key && Next(s, a).submitted != s.submitted
  }

  lemma PledgesRunOut(t: Thread, now: Time, a: Answer)
    requires GoneAnswer(t, a)
    ensures Pledged(Step(t, now, a).pc) <= Pledged(t.pc)
    ensures t.pc.Submit? || t.pc.RemedySubmit? ==> Pledged(Step(t, now, a).pc) + 1 <= Pledged(t.pc)
  {
    hide StepPoll, StepRemedyPoll, StepDecide;
    if t.pc.Poll? || t.pc.RemedyPoll? || t.pc.Decide? { EpisodePledges(t, now, a); }
  }

  lemma EpisodePledges(t: Thread, now: Time, a: Answer)
    ensures t.pc.Poll? ==> Pledged(StepPoll(t, now, a).pc) <= 1
    ensures t.pc.RemedyPoll? ==> Pledged(StepRemedyPoll(t, now, a).pc) == 0
    ensures t.pc.Decide? ==> Pledged(StepDecide(t, now, a).pc) <= 2
  {
  }

  lemma OnlySubmitsSubmit(s: State, tid: nat, a: Answer)
    requires CanGo(s, tid, a)
    requires !s.threads[tid].pc.Submit? && !s.threads[tid].pc.RemedySubmit?
    ensures Effect(s, tid, s.threads[tid], a).submitted == s.submitted
  {
  }

  lemma AnswersWhenGone(s: State, tid: nat, a: Answer)
    requires CanGo(s, tid, a) && s.threads[tid].key !in s.store
    ensures GoneAnswer(s.threads[tid], a)
    ensures !s.threads[tid].pc.Ended? && !s.threads[tid].pc.Panicked?
    ensures s.threads[tid].pc.Poll? || s.threads[tid].pc.RemedyPoll? ==> a.Saw?
    ensures s.threads[tid].pc.WatchStart? || s.threads[tid].pc.RemedyStart? ==> a.Budget?
    ensures Writes(s.threads[tid], a) ==> false
  {
  }

  lemma StepRunsOut(t: Thread, now: Time, a: Answer, polls: nat)
    requires GoneAnswer(t, a) && BoundedPolls(a, polls) && !t.pc.Ended? && !t.pc.Panicked?
    requires t.pc.Poll? || t.pc.RemedyPoll? ==> a.Saw?
    requires t.pc.WatchStart? || t.pc.RemedyStart? ==> a.Budget?
    ensures Remaining(Step(t, now, a).pc, polls) + 1 + (if t.pc.RearmStart? then TIMER_WEIGHT else 0)
            <= Remaining(t.pc, polls)
  {
    hide Step, Remaining;
    if t.pc.Poll? || t.pc.RemedyPoll? {
      PollsRunOut(t, now, a, polls);
    } else if t.pc.Decide? || t.pc.CreateRbac? || t.pc.Submit? || t.pc.RemedyRbac? || t.pc.RemedySubmit?
              || t.pc.RemedyCleanup? || t.pc.WatchStart? || t.pc.RemedyStart? {
      SubmissionsRunOut(t, now, a, polls);
    } else {
      StepsRunOut(t, now, a, polls);
    }
  }

  lemma TimersAfterEffect(s: State, tid: nat, a: Answer, key: Key)
    requires CanGo(s, tid, a)
    ensures var t := s.threads[tid];
            LiveTimers(Effect(s, tid, t, a).timers, key)
            <= LiveTimers(s.timers, key) + if t.pc.RearmStart? && t.key == key then 1 else 0
  {
    hide LiveTimers, Cancelled, WithSubmission, Answerable;
    var t := s.threads[tid];
    if t.pc.CancelStop? {
      CancelTimers(s.timers, t.pc.timer, key);
    } else if t.pc.Rearm? {
      TimerSafety.RearmEffect(s, tid, a);
      hide Effect;
      if t.key.name in s.table { CancelTimers(s.timers, s.table[t.key.name], key); }
    } else if t.pc.RearmStart? {
      StartTimer(s.timers, RepeatTimer(t.key, s.now + Interval(t), true), key);
    } else if t.pc.Submit? || t.pc.RemedySubmit? {
      TimerSafety.SubmitEffect(s, tid, a);
      hide Effect;
    } else {
      TimerSafety.MostEffectsAreQuiet(s, tid, a);
      hide Effect;
    }
  }

  lemma GoneStaysGone(s: State, tid: nat, a: Answer, key: Key)
    requires CanGo(s, tid, a) && key !in s.store
    ensures key !in GoNext(s, tid, a).store
  {
    hide Step, Effect, Answerable;
    EffectFrame(s, tid, a);
    if Writes(s.threads[tid], a) {
      if s.threads[tid].pc.WritePut? { EffectStatusWrite(s, tid, a); } else { EffectMainWrite(s, tid, a); }
    }
  }

  /** A step of any goroutine while the object of `key` is gone uses up the measure. */
  lemma GoRunsOut(s: State, tid: nat, a: Answer, key: Key, polls: nat)
    requires CanGo(s, tid, a) && key !in s.store && BoundedPolls(a, polls)
    ensures Measure(GoNext(s, tid, a), key, polls) + (if s.threads[tid].key == key then 1 else 0)
            <= Measure(s, key, polls)
  {
    hide Step, Effect, Answerable, Remaining, Pledged, GoneAnswer;
    var t := s.threads[tid];
    var t' := Step(t, s.now, a);
    var w := (t: Thread) => RemainingFor(t, key, polls);
    TimersAfterEffect(s, tid, a, key);
    TotalUpdate(s.threads, tid, t', w);
    if t.key == key {
      AnswersWhenGone(s, tid, a);
      StepRunsOut(t, s.now, a, polls);
      PartWithin(s.threads, tid, w);
    }
  }

  lemma GoUsesPledge(s: State, tid: nat, a: Answer, key: Key)
    requires CanGo(s, tid, a) && key !in s.store
    ensures var s' := GoNext(s, tid, a);
            Pledge(s', key) + (if s.threads[tid].key == key && s'.submitted != s.submitted then 1 else 0)
            <= Pledge(s, key)
  {
    hide Step, Effect, Answerable, Remaining, Pledged, GoneAnswer;
    var t := s.threads[tid];
    var t' := Step(t, s.now, a);
    TotalUpdate(s.threads, tid, t', (u: Thread) => PledgedFor(u, key));
    PartWithin(s.threads, tid, (u: Thread) => PledgedFor(u, key));
    if t.key == key {
      AnswersWhenGone(s, tid, a);
      PledgesRunOut(t, s.now, a);
      if !t.pc.Submit? && !t.pc.RemedySubmit? { OnlySubmitsSubmit(s, tid, a); }
    }
  }

  // ---------------------------------------------------------------- runs after a deletion

  /** A controller-initiated action on behalf of `key`: a step of one of its goroutines, or the
      firing of one of its timers. */
  predicate ActsFor(s: State, a: Action, key: Key)
    requires Enabled(s, a)
  {
    || (a.Go? && s.threads[a.tid].key == key)
    || (a.Fire? && s.timers[a.timer].key == key)
  }

  function Activity(s: State, run: seq<Action>, key: Key): nat
    requires ValidRun(s, run)
    decreases |run|
  {
    if run == [] then 0
    else (if ActsFor(s, run[0], key) then 1 else 0) + Activity(Next(s, run[0]), run[1..], key)
  }

  function Submissions(s: State, run: seq<Action>, key: Key): nat
    requires ValidRun(s, run)
    decreases |run|
  {
    if run == [] then 0
    else (if Submits(s, run[0], key) then 1 else 0) + Submissions(Next(s, run[0]), run[1..], key)
  }

  function Reconciles(run: seq<Action>, key: Key): nat {
    if run == [] then 0
    else (if run[0] == StartReconcile(key) then 1 else 0) + Reconciles(run[1..], key)
  }

  /** The object is not created again and no polling loop is granted more than `polls` waits. */
  predicate StaysDeleted(run: seq<Action>, key: Key, polls: nat) {
    forall i :: 0 <= i < |run| ==>
      && !(run[i].UserCreate? && run[i].key == key)
      && (run[i].Go? ==> BoundedPolls(run[i].answer, polls))
  }

  const RECONCILE_WEIGHT: nat := 4

  lemma ActionRunsOut(s: State, a: Action, key: Key, polls: nat)
    requires Enabled(s, a) && key !in s.store && StaysDeleted([a], key, polls)
    ensures var s' := Next(s, a);
            && key !in s'.store
            && Measure(s', key, polls) + (if ActsFor(s, a, key) then 1 else 0)
               <= Measure(s, key, polls) + (if a == StartReconcile(key) then RECONCILE_WEIGHT else 0)
            && Pledge(s', key) + (if Submits(s, a, key) then 1 else 0) <= Pledge(s, key)
  {
    hide Step, Effect, Answerable, GoNext;
    var w := (t: Thread) => RemainingFor(t, key, polls);
    assert [a][0] == a;
    if a.Go? {
      GoneStaysGone(s, a.tid, a.answer, key);
      GoRunsOut(s, a.tid, a.answer, key, polls);
      GoUsesPledge(s, a.tid, a.answer, key);
    } else if a.StartReconcile? {
      TotalAppend(s.threads, NewThread(a.key, Reconcile), w);
      TotalAppend(s.threads, NewThread(a.key, Reconcile), (u: Thread) => PledgedFor(u, key));
    } else if a.Fire? {
      var t := NewThread(s.timers[a.timer].key, Timer);
      TotalAppend(s.threads, t, w);
      TotalAppend(s.threads, t, (u: Thread) => PledgedFor(u, key));
      CancelTimers(s.timers, a.timer, key);
    }
  }

  /** From any state in which an object is gone, along any run in which it is not created again:
      the controller takes at most Measure(s) steps for it, plus a fixed number for each further
      reconcile request, and it submits at most the workflows that threads already in flight had
      pledged, whatever else happens in between. */
  lemma {:induction false} DeletionQuiesces(s: State, run: seq<Action>, key: Key, polls: nat)
    requires ValidRun(s, run) && key !in s.store && StaysDeleted(run, key, polls)
    ensures key !in Exec(s, run).store
    ensures Activity(s, run, key) + Measure(Exec(s, run), key, polls)
            <= Measure(s, key, polls) + RECONCILE_WEIGHT * Reconciles(run, key)
    ensures Submissions(s, run, key) + Pledge(Exec(s, run), key) <= Pledge(s, key)
    decreases |run|
  {
    hide Enabled, Next, Measure, Pledge, ActsFor, Submits;
    if run != [] {
      assert StaysDeleted([run[0]], key, polls);
      ActionRunsOut(s, run[0], key, polls);
      DeletionQuiesces(Next(s, run[0]), run[1..], key, polls);
    }
  }

  // ---------------------------------------------------------------- a namesake left behind

  /** No timer of `key` is pending and none of its goroutines is running. */
  ghost predicate Dormant(s: State, key: Key) {
    && LiveTimers(s.timers, key) == 0
    && forall i :: 0 <= i < |s.threads| && s.threads[i].key == key ==>
         s.threads[i].pc.Ended? || s.threads[i].pc.Panicked?
  }

  lemma ActionKeepsDormant(s: State, a: Action, key: Key)
    requires Dormant(s, key) && Enabled(s, a) && a != StartReconcile(key)
    ensures Dormant(Next(s, a), key) && !ActsFor(s, a, key)
  {
    if a.Go? {
      hide Step, Effect, Answerable, LiveTimers;
      TimerSafety.PanickedIsStuck(s, a.tid, a.answer);
      TimersAfterEffect(s, a.tid, a.answer, key);
      NoTimers(key);
    } else if a.Fire? {
      if s.timers[a.timer].key == key { LiveTimerCounts(s.timers, a.timer, key); }
      CancelTimers(s.timers, a.timer, key);
    }
  }

  lemma NoTimers(key: Key)
    ensures LiveTimers([], key) == 0
  {
  }

  lemma {:induction false} LiveTimerCounts(timers: seq<RepeatTimer>, i: nat, key: Key)
    requires i < |timers| && timers[i].live && timers[i].key == key
    ensures LiveTimers(timers, key) > 0
    decreases |timers|
  {
    if i < |timers| - 1 { LiveTimerCounts(timers[..|timers| - 1], i, key); }
  }

  lemma {:induction false} NoLiveTimers(timers: seq<RepeatTimer>, key: Key)
    requires forall i :: 0 <= i < |timers| && timers[i].live ==> timers[i].key != key
    ensures LiveTimers(timers, key) == 0
    decreases |timers|
  {
    if timers != [] { NoLiveTimers(timers[..|timers| - 1], key); }
  }

  /** A dormant check is never run again unless it is reconciled again. */
  lemma {:induction false} DormantForGood(s: State, run: seq<Action>, key: Key)
    requires ValidRun(s, run) && Dormant(s, key) && Reconciles(run, key) == 0
    ensures Dormant(Exec(s, run), key) && Activity(s, run, key) == 0
    decreases |run|
  {
    hide Dormant, Enabled, Next, ActsFor;
    if run != [] {
      ActionKeepsDormant(s, run[0], key);
      DormantForGood(Next(s, run[0]), run[1..], key);
    }
  }

  /** Deleting a check silences its namesakes: once the deletion's reconcile has gone through, a
      check of the same name in another namespace that is between two runs is still stored and
      is never run again, whatever else happens, until something reconciles it. */
  lemma DeletionSilencesNamesakes(s: State, tid: nat, namesake: Key) returns (run: seq<Action>)
    requires TimerSafety.Inv(s) && s.mapMade && s.lock.None? && tid < |s.threads|
    requires s.threads[tid].pc == CancelLookup(s.threads[tid].key.name)
    requires namesake != s.threads[tid].key && namesake.name == s.threads[tid].key.name && namesake in s.store
    requires forall i :: 0 <= i < |s.threads| && s.threads[i].key == namesake ==>
               s.threads[i].pc.Ended? || s.threads[i].pc.Panicked?
    ensures ValidRun(s, run) && forall i :: 0 <= i < |run| ==> run[i].Go? && run[i].tid == tid
    ensures Exec(s, run).store == s.store
    ensures forall later :: ValidRun(Exec(s, run), later) && Reconciles(later, namesake) == 0
              ==> Activity(Exec(s, run), later, namesake) == 0
  {
    run := TimerSafety.DeletionStopsNamesakes(s, tid);
    var s' := Exec(s, run);
    NoLiveTimers(s'.timers, namesake);
    hide ValidRun, Exec, TimerSafety.Inv;
    forall later | ValidRun(s', later) && Reconciles(later, namesake) == 0 ensures Activity(s', later, namesake) == 0 {
      DormantForGood(s', later, namesake);
    }
  }

  /** A timer that fires after the deletion ends at its Get: its goroutine takes one step,
      submits nothing and arms nothing. */
  lemma LateTimerEndsAtItsGet(s: State, tid: nat, a: Answer)
    requires CanGo(s, tid, a) && s.threads[tid].pc.TimerGet? && s.threads[tid].key !in s.store
    ensures GoNext(s, tid, a) == s.(threads := s.threads[tid := s.threads[tid].(pc := Ended)])
  {
  }
}
