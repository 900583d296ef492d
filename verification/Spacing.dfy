/** How far apart the runs of one check are. With a stored interval of R seconds a submission
    starts at least R seconds after the last stored FinishedAt, provided no episode gives up
    between storing a status and re-arming while an earlier timer of the check is pending. */
module Spacing {
  import opened HealthChecks
  import opened StatusRules
  import opened Goroutines
  import opened Machine
  import opened Frames
  import opened SerialRuns
  import StatusInvariant
  import SpecSafety
  import TimerSafety

  /** From the firing of its timer, or its decision to run, until it has re-armed. */
  predicate Busy(pc: Pc) {
    pc.TimerGet? || InEpisode(pc) || pc.Rearm? || pc.RearmStart?
  }

  predicate BusyFor(t: Thread, key: Key) {
    t.key == key && Busy(t.pc)
  }

  ghost predicate OneBusy(s: State, key: Key) {
    forall i, j ::
      && 0 <= i < |s.threads| && 0 <= j < |s.threads|
      && BusyFor(s.threads[i], key) && BusyFor(s.threads[j], key) ==>
        i == j
  }

  ghost predicate NonePending(s: State, key: Key) {
    forall i :: 0 <= i < |s.timers| && s.timers[i].live ==> s.timers[i].key != key
  }

  /** A goroutine of `key` decides to run. */
  predicate Starts(s: State, a: Action, key: Key)
    requires Enabled(s, a)
  {
    a.Go? && s.threads[a.tid].key == key && s.threads[a.tid].pc.Decide?
    && InEpisode(Step(s.threads[a.tid], s.now, a.answer).pc)
  }

  /** It does so on the stored status, and the check has either never finished or been armed
      before in this process. */
  ghost predicate StartsArmed(s: State, a: Action, key: Key)
    requires Enabled(s, a)
  {
    Starts(s, a, key) ==>
      && (key in s.store ==> s.threads[a.tid].hc.status == s.store[key].status)
      && (key.name in s.table || (key in s.store ==> s.store[key].status.finishedAt.None?))
  }

  /** An episode that has stored what it recorded, and goes on. */
  predicate HasStored(t: Thread) {
    || t.pc.Rearm? || t.pc.RearmStart?
    || (t.unsaved == []
        && (t.pc.RemedyCleanup? || ((t.pc.WriteGet? || t.pc.WritePut?) && t.pc.write.Final?)))
  }

  predicate Stores(t: Thread, a: Answer) {
    t.pc.WritePut? && TookEffect(a)
  }

  /** An episode of `key` ends without re-arming although it has stored a status. */
  predicate GivesUpStored(s: State, a: Action, key: Key)
    requires Enabled(s, a)
  {
    && a.Go? && BusyFor(s.threads[a.tid], key) && !s.threads[a.tid].pc.RearmStart?
    && !Busy(Step(s.threads[a.tid], s.now, a.answer).pc)
    && (HasStored(s.threads[a.tid]) || Stores(s.threads[a.tid], a.answer))
  }

  ghost predicate SpacedStep(s: State, a: Action, key: Key)
    requires Enabled(s, a)
  {
    OneBusy(Next(s, a), key) && StartsArmed(s, a, key) && (GivesUpStored(s, a, key) ==> NonePending(s, key))
  }

  ghost predicate SpacedRun(s: State, run: seq<Action>, key: Key)
    requires ValidRun(s, run)
    decreases |run|
  {
    run == [] || (SpacedStep(s, run[0], key) && SpacedRun(Next(s, run[0]), run[1..], key))
  }

  predicate KeepsInterval(a: Action, key: Key, interval: int) {
    && (a.UserCreate? && a.key == key ==> a.spec.repeatAfterSec == interval)
    && (a.UserEdit? && a.key == key ==> a.spec.repeatAfterSec == interval)
  }

  // ---------------------------------------------------------------- the invariant

  /** `t` is at least an interval after the last stored finish. */
  ghost predicate Elapsed(s: State, key: Key, interval: int, t: Time) {
    key in s.store && s.store[key].status.finishedAt.Some? ==>
      s.store[key].status.finishedAt.value + interval * SECOND <= t
  }

  predicate BeforeSubmission(pc: Pc) {
    pc.TimerGet? || pc.CreateRbac? || pc.Submit?
  }

  ghost predicate ThreadSpaced(s: State, t: Thread, interval: int) {
    && (BeforeSubmission(t.pc) ==> Elapsed(s, t.key, interval, s.now))
    && ((Busy(t.pc) && !t.pc.TimerGet?) || t.pc.Decide? ==> t.hc.spec.repeatAfterSec == interval)
  }

  ghost predicate StoredBusy(s: State, key: Key) {
    exists i :: 0 <= i < |s.threads| && s.threads[i].key == key && HasStored(s.threads[i])
  }

  ghost predicate WholeFinish(s: State, key: Key) {
    key in s.store && s.store[key].status.finishedAt.Some? ==>
      s.store[key].status.finishedAt.value == Unix(s.store[key].status.finishedAt.value) * SECOND
  }

  ghost predicate Spaced(s: State, key: Key, interval: int) {
    && OneBusy(s, key)
    && WholeFinish(s, key)
    && (key in s.store ==> s.store[key].spec.repeatAfterSec == interval)
    && (forall i :: 0 <= i < |s.timers| && s.timers[i].live && s.timers[i].key == key ==>
          Elapsed(s, key, interval, s.timers[i].due) || StoredBusy(s, key))
    && (forall i :: 0 <= i < |s.threads| && s.threads[i].key == key ==> ThreadSpaced(s, s.threads[i], interval))
  }

  ghost predicate Inv(s: State, key: Key, interval: int) {
    && interval > 0 && s.mapMade
    && TimerSafety.Inv(s) && StatusInvariant.Inv(s) && SpecSafety.Inv(s)
    && Spaced(s, key, interval)
  }

  // ---------------------------------------------------------------- steps

  lemma IntervalStays(t: Thread, now: Time, a: Answer)
    requires t.hc.spec.repeatAfterSec > 0 && !Unread(t.pc)
    ensures Step(t, now, a).hc.spec.repeatAfterSec == t.hc.spec.repeatAfterSec
  {
    if t.pc.Poll? {
    } else if t.pc.RemedyPoll? {
    } else {
      hide StepPoll, StepRemedyPoll;
    }
  }

  /** A thread gets busy by deciding to run; a timer's thread is busy from the start. */
  lemma EntersBusy(t: Thread, now: Time, a: Answer)
    requires Busy(Step(t, now, a).pc) && !Busy(t.pc)
    ensures t.pc.Decide? && InEpisode(Step(t, now, a).pc)
  {
    if InEpisode(Step(t, now, a).pc) {
      EntersEpisode(t, now, a);
      hide Step;
    } else {
      hide StepPoll, StepRemedyPoll, StepDecide, StepSubmit, StepRemedySubmit;
      if t.pc.Poll? || t.pc.RemedyPoll? || t.pc.Decide? || t.pc.Submit? || t.pc.RemedySubmit? { NotToRearm(t, now, a); }
    }
  }

  lemma NotToRearm(t: Thread, now: Time, a: Answer)
    requires t.pc.Poll? || t.pc.RemedyPoll? || t.pc.Decide? || t.pc.Submit? || t.pc.RemedySubmit?
    ensures !Step(t, now, a).pc.Rearm? && !Step(t, now, a).pc.RearmStart? && !Step(t, now, a).pc.TimerGet?
  {
  }

  lemma ComesToSubmit(t: Thread, now: Time, a: Answer)
    requires BeforeSubmission(Step(t, now, a).pc)
    ensures t.pc.Decide? || t.pc.CreateRbac? || t.pc.TimerGet?
    ensures !Step(t, now, a).pc.TimerGet?
  {
    hide StepRemedyPoll, StepPoll, StepRemedySubmit;
    if t.pc.Poll? || t.pc.RemedyPoll? || t.pc.RemedySubmit? { PollsDoNotSubmit(t, now, a); }
  }

  lemma PollsDoNotSubmit(t: Thread, now: Time, a: Answer)
    requires t.pc.Poll? || t.pc.RemedyPoll? || t.pc.RemedySubmit?
    ensures !BeforeSubmission(Step(t, now, a).pc)
  {
  }

  /** A reconcile that finds an entry in the table decides to run only when it is not too early. */
  lemma DecidesInTime(s: State, tid: nat, a: Answer, key: Key, interval: int)
    requires CanGo(s, tid, a) && s.threads[tid].key == key && s.threads[tid].pc.Decide?
    requires interval > 0 && s.threads[tid].hc.spec.repeatAfterSec == interval && WholeFinish(s, key)
    requires StartsArmed(s, Go(tid, a), key) && InEpisode(Step(s.threads[tid], s.now, a).pc)
    ensures Step(s.threads[tid], s.now, a).pc.CreateRbac?
    ensures Elapsed(s, key, interval, s.now)
  {
    var t := s.threads[tid];
    if key in s.store && s.store[key].status.finishedAt.Some? {
      assert !TooEarly(t.hc, s.now);
      var f := s.store[key].status.finishedAt.value;
      assert Unix(s.now) - Unix(f) >= interval;
      assert f == Unix(f) * SECOND;
    }
  }

  lemma TimersAfterGo(s: State, tid: nat, a: Answer, i: nat)
    requires CanGo(s, tid, a)
    requires i < |GoNext(s, tid, a).timers| && GoNext(s, tid, a).timers[i].live
    ensures var t := s.threads[tid];
            var timer := GoNext(s, tid, a).timers[i];
            || (i < |s.timers| && s.timers[i] == timer)
            || (i == |s.timers| && t.pc.RearmStart? && timer == RepeatTimer(t.key, s.now + Interval(t), true))
  {
    hide Step, Answerable, WithSubmission;
    var pc := s.threads[tid].pc;
    if pc.Submit? || pc.RemedySubmit? {
      SubmissionsArmNothing(s, tid, a);
    } else if pc.Rearm? {
      TimerSafety.RearmEffect(s, tid, a);
      hide Effect;
    } else if !pc.RearmStart? && !pc.CancelStop? {
      TimerSafety.MostEffectsAreQuiet(s, tid, a);
      hide Effect;
    }
  }

  lemma SubmissionsArmNothing(s: State, tid: nat, a: Answer)
    requires CanGo(s, tid, a) && (s.threads[tid].pc.Submit? || s.threads[tid].pc.RemedySubmit?)
    ensures Effect(s, tid, s.threads[tid], a).timers == s.timers
  {
  }

  /** Nothing is pending any more than it was, unless this thread re-armed. */
  lemma PendingAfterGo(s: State, tid: nat, a: Answer, key: Key)
    requires CanGo(s, tid, a) && NonePending(s, key)
    requires !(s.threads[tid].key == key && s.threads[tid].pc.RearmStart?)
    ensures NonePending(GoNext(s, tid, a), key)
  {
    hide GoNext;
    var s' := GoNext(s, tid, a);
    forall i | 0 <= i < |s'.timers| && s'.timers[i].live ensures s'.timers[i].key != key {
      TimersAfterGo(s, tid, a, i);
    }
  }

  lemma ElapsedAfterGo(s: State, tid: nat, a: Answer, key: Key, interval: int, t: Time)
    requires SpecSafety.Inv(s) && CanGo(s, tid, a) && Elapsed(s, key, interval, t)
    requires !(s.threads[tid].key == key && Stores(s.threads[tid], a))
    ensures Elapsed(GoNext(s, tid, a), key, interval, t)
  {
    hide GoNext;
    ObjectAfterGo(s, tid, a, key);
  }

  /** What is stored stays stored until the episode ends, and a status write that does not end
      the episode makes it so. */
  lemma StoredStays(t: Thread, now: Time, a: Answer)
    requires HasStored(t) || Stores(t, a)
    ensures Busy(t.pc)
    ensures Busy(Step(t, now, a).pc) ==> HasStored(Step(t, now, a))
  {
    hide StepPoll, StepRemedyPoll, StepDecide, StepSubmit, StepRemedySubmit, StepRbac, StepLast;
  }

  /** No timer is pending while a goroutine starts one in its name. */
  lemma NonePendingInBlock(s: State, tid: nat, key: Key)
    requires TimerSafety.Inv(s) && tid < |s.threads| && s.threads[tid].key == key && s.threads[tid].pc.RearmStart?
    ensures NonePending(s, key)
  {
  }

  /** The pending timers of `key` after a goroutine's step. */
  lemma TimersStaySpaced(s: State, tid: nat, a: Answer, key: Key, interval: int, i: nat)
    requires Inv(s, key, interval) && CanGo(s, tid, a) && SpacedStep(s, Go(tid, a), key)
    requires i < |GoNext(s, tid, a).timers|
    requires GoNext(s, tid, a).timers[i].live && GoNext(s, tid, a).timers[i].key == key
    ensures Elapsed(GoNext(s, tid, a), key, interval, GoNext(s, tid, a).timers[i].due)
            || StoredBusy(GoNext(s, tid, a), key)
  {
    hide GoNext, Effect, Answerable, Step, TimerSafety.Inv, SpecSafety.Inv, StatusInvariant.Inv, OneBusy, StartsArmed;
    TimersAfterGo(s, tid, a, i);
    if i < |s.timers| && s.timers[i] == GoNext(s, tid, a).timers[i] {
      OldTimerStaysSpaced(s, tid, a, key, interval, i);
    } else {
      NewTimerIsSpaced(s, tid, a, key, interval);
    }
  }

  lemma NewTimerIsSpaced(s: State, tid: nat, a: Answer, key: Key, interval: int)
    requires Inv(s, key, interval) && CanGo(s, tid, a) && s.threads[tid].key == key && s.threads[tid].pc.RearmStart?
    ensures Elapsed(GoNext(s, tid, a), key, interval, s.now + Interval(s.threads[tid]))
  {
    hide GoNext, Effect, Answerable, Step, TimerSafety.Inv, SpecSafety.Inv;
    ObjectAfterGo(s, tid, a, key);
    assert ThreadSpaced(s, s.threads[tid], interval);
    if key in s.store { assert Consistent(s.store[key].status, s.now); }
  }

  lemma OldTimerStaysSpaced(s: State, tid: nat, a: Answer, key: Key, interval: int, i: nat)
    requires Inv(s, key, interval) && CanGo(s, tid, a) && SpacedStep(s, Go(tid, a), key)
    requires i < |s.timers| && s.timers[i].live && s.timers[i].key == key
    requires GoNext(s, tid, a).timers != []
    ensures Elapsed(GoNext(s, tid, a), key, interval, s.timers[i].due) || StoredBusy(GoNext(s, tid, a), key)
  {
    hide GoNext, Effect, Answerable, Step, TimerSafety.Inv, SpecSafety.Inv, StatusInvariant.Inv, OneBusy;
    hide StartsArmed, HasStored;
    var t := s.threads[tid];
    var s' := GoNext(s, tid, a);
    AliveOrEmpty(s, tid, a);
    if t.key == key && (HasStored(t) || Stores(t, a)) {
      StoredStays(t, s.now, a);
      if t.pc.RearmStart? { NonePendingInBlock(s, tid, key); }
      assert HasStored(s'.threads[tid]);
    } else if StoredBusy(s, key) {
      var j :| 0 <= j < |s.threads| && s.threads[j].key == key && HasStored(s.threads[j]);
      assert s'.threads[j] == s.threads[j];
    } else {
      ElapsedAfterGo(s, tid, a, key, interval, s.timers[i].due);
    }
  }

  /** While there are timers the process is alive. */
  lemma AliveOrEmpty(s: State, tid: nat, a: Answer)
    requires CanGo(s, tid, a)
    ensures var s' := GoNext(s, tid, a);
            s'.timers == [] || s'.threads == s.threads[tid := Step(s.threads[tid], s.now, a)]
  {
    hide Step, Effect, Answerable;
  }

  lemma MovedThreadSpaced(s: State, tid: nat, a: Answer, key: Key, interval: int)
    requires Inv(s, key, interval) && CanGo(s, tid, a) && s.threads[tid].key == key
    requires StartsArmed(s, Go(tid, a), key)
    ensures ThreadSpaced(GoNext(s, tid, a), Step(s.threads[tid], s.now, a), interval)
  {
    hide GoNext, Effect, Answerable, Step, TimerSafety.Inv, SpecSafety.Inv, StatusInvariant.Inv;
    var t := s.threads[tid];
    var t' := Step(t, s.now, a);
    assert ThreadSpaced(s, t, interval);
    GoFrame(s, tid, a);
    if BeforeSubmission(t'.pc) {
      ComesToSubmit(t, s.now, a);
      if t.pc.Decide? { DecidesInTime(s, tid, a, key, interval); }
      ElapsedAfterGo(s, tid, a, key, interval, s.now);
    }
    MovedInterval(s, tid, a, key, interval);
  }

  lemma MovedInterval(s: State, tid: nat, a: Answer, key: Key, interval: int)
    requires Inv(s, key, interval) && CanGo(s, tid, a) && s.threads[tid].key == key
    ensures var t' := Step(s.threads[tid], s.now, a);
            (Busy(t'.pc) && !t'.pc.TimerGet?) || t'.pc.Decide? ==> t'.hc.spec.repeatAfterSec == interval
  {
    hide Effect, Answerable, Step, TimerSafety.Inv, SpecSafety.Inv, StatusInvariant.Inv;
    var t := s.threads[tid];
    var t' := Step(t, s.now, a);
    assert ThreadSpaced(s, t, interval);
    if Unread(t.pc) {
      ReadsStored(s, tid, a);
    } else if t'.pc.Decide? {
      EntersDecide(t, s.now, a);
    } else if Busy(t'.pc) {
      if !Busy(t.pc) { EntersBusy(t, s.now, a); }
      IntervalStays(t, s.now, a);
    }
  }

  lemma ReadsStored(s: State, tid: nat, a: Answer)
    requires CanGo(s, tid, a) && Unread(s.threads[tid].pc)
    ensures var t' := Step(s.threads[tid], s.now, a);
            if a.Fetched? then s.threads[tid].key in s.store && t'.hc.spec == s.store[s.threads[tid].key].spec
            else !Busy(t'.pc) && !t'.pc.Decide?
  {
  }

  lemma StillThreadSpaced(s: State, tid: nat, a: Answer, other: nat, key: Key, interval: int)
    requires Inv(s, key, interval) && CanGo(s, tid, a)
    requires other < |s.threads| && other != tid && s.threads[other].key == key
    ensures ThreadSpaced(GoNext(s, tid, a), s.threads[other], interval)
  {
    hide GoNext, Effect, Answerable, Step, TimerSafety.Inv, SpecSafety.Inv, StatusInvariant.Inv;
    var t := s.threads[tid];
    var u := s.threads[other];
    assert ThreadSpaced(s, u, interval);
    GoFrame(s, tid, a);
    assert BusyFor(t, key) && BusyFor(u, key) ==> tid == other;
    if Busy(u.pc) { ElapsedStays(s, tid, a, key, interval, u); }
  }

  lemma ElapsedStays(s: State, tid: nat, a: Answer, key: Key, interval: int, u: Thread)
    requires SpecSafety.Inv(s) && CanGo(s, tid, a) && u.key == key
    requires !(s.threads[tid].key == key && s.threads[tid].pc.WritePut?)
    requires BeforeSubmission(u.pc) ==> Elapsed(s, key, interval, s.now)
    ensures BeforeSubmission(u.pc) ==> Elapsed(GoNext(s, tid, a), key, interval, s.now)
  {
    if BeforeSubmission(u.pc) { ElapsedAfterGo(s, tid, a, key, interval, s.now); }
  }

  lemma ObjectSpaced(s: State, tid: nat, a: Answer, key: Key, interval: int)
    requires Inv(s, key, interval) && CanGo(s, tid, a)
    ensures var s' := GoNext(s, tid, a);
            WholeFinish(s', key) && (key in s'.store ==> s'.store[key].spec.repeatAfterSec == interval)
  {
    hide GoNext, Effect, Answerable, Step, TimerSafety.Inv, StatusInvariant.Inv;
    ObjectAfterGo(s, tid, a, key);
  }

  lemma GoKeepsSpaced(s: State, tid: nat, a: Answer, key: Key, interval: int)
    requires Inv(s, key, interval) && CanGo(s, tid, a)
    requires SpacedStep(s, Go(tid, a), key)
    ensures Spaced(GoNext(s, tid, a), key, interval)
  {
    hide GoNext, Effect, Answerable, Step, TimerSafety.Inv, SpecSafety.Inv, StatusInvariant.Inv, ThreadSpaced;
    hide OneBusy, WholeFinish, Elapsed;
    hide StoredBusy, StartsArmed, GivesUpStored;
    var s' := GoNext(s, tid, a);
    GoFrame(s, tid, a);
    ObjectSpaced(s, tid, a, key, interval);
    forall i | 0 <= i < |s'.timers| && s'.timers[i].live && s'.timers[i].key == key
      ensures Elapsed(s', key, interval, s'.timers[i].due) || StoredBusy(s', key)
    {
      TimersStaySpaced(s, tid, a, key, interval, i);
    }
    if s.threads[tid].key == key { MovedThreadSpaced(s, tid, a, key, interval); }
    forall i | 0 <= i < |s'.threads| && s'.threads[i].key == key ensures ThreadSpaced(s', s'.threads[i], interval) {
      if i != tid { StillThreadSpaced(s, tid, a, i, key, interval); }
    }
  }

  lemma FireKeepsSpaced(s: State, id: nat, key: Key, interval: int)
    requires Inv(s, key, interval) && Enabled(s, Fire(id)) && OneBusy(Next(s, Fire(id)), key)
    ensures Spaced(Next(s, Fire(id)), key, interval)
  {
    hide StatusInvariant.Inv, SpecSafety.Inv, HasStored;
    var s' := Next(s, Fire(id));
    if StoredBusy(s, key) {
      var j :| 0 <= j < |s.threads| && s.threads[j].key == key && HasStored(s.threads[j]);
      StoredIsBusy(s.threads[j]);
      assert s'.threads[j] == s.threads[j];
      assert s.timers[id].key == key ==> BusyFor(s'.threads[|s.threads|], key);
    }
  }

  lemma StoredIsBusy(t: Thread)
    requires HasStored(t)
    ensures Busy(t.pc)
  {
  }

  lemma NextKeepsInv(s: State, a: Action, key: Key, interval: int)
    requires Inv(s, key, interval) && Enabled(s, a)
    requires SpacedStep(s, a, key) && KeepsInterval(a, key, interval)
    ensures Inv(Next(s, a), key, interval)
  {
    TimerSafety.NextKeepsInv(s, a);
    StatusInvariant.NextKeepsInv(s, a);
    SpecSafety.NextKeepsInv(s, a);
    hide StatusInvariant.Inv, SpecSafety.Inv, TimerSafety.Inv;
    if a.Go? {
      GoKeepsSpaced(s, a.tid, a.answer, key, interval);
    } else if a.Fire? {
      FireKeepsSpaced(s, a.timer, key, interval);
    } else {
      OthersKeepSpaced(s, a, key, interval);
    }
  }

  lemma OthersKeepSpaced(s: State, a: Action, key: Key, interval: int)
    requires Spaced(s, key, interval) && Enabled(s, a) && !a.Go? && !a.Fire?
    requires OneBusy(Next(s, a), key) && KeepsInterval(a, key, interval)
    ensures Spaced(Next(s, a), key, interval)
  {
    hide HasStored, OneBusy, StoredBusy;
    if !a.Crash? && StoredBusy(s, key) { OthersKeepStored(s, a, key); }
    var s' := Next(s, a);
    forall i | 0 <= i < |s'.threads| && s'.threads[i].key == key ensures ThreadSpaced(s', s'.threads[i], interval) {
      assert i < |s.threads| ==> ThreadSpaced(s, s.threads[i], interval);
    }
  }

  lemma OthersKeepStored(s: State, a: Action, key: Key)
    requires Enabled(s, a) && !a.Go? && !a.Fire? && !a.Crash? && StoredBusy(s, key)
    ensures StoredBusy(Next(s, a), key)
  {
    hide HasStored;
    var s' := Next(s, a);
    var j :| 0 <= j < |s.threads| && s.threads[j].key == key && HasStored(s.threads[j]);
    assert s'.threads[j] == s.threads[j];
  }

  ghost predicate AllKeepInterval(run: seq<Action>, key: Key, interval: int) {
    forall i :: 0 <= i < |run| ==> KeepsInterval(run[i], key, interval)
  }

  lemma {:induction false} RunKeepsInv(s: State, run: seq<Action>, key: Key, interval: int)
    requires ValidRun(s, run) && Inv(s, key, interval)
    requires SpacedRun(s, run, key) && AllKeepInterval(run, key, interval)
    ensures Inv(Exec(s, run), key, interval)
    decreases |run|
  {
    hide Inv, Enabled, Next, SpacedStep, KeepsInterval;
    if run != [] {
      NextKeepsInv(s, run[0], key, interval);
      RunKeepsInv(Next(s, run[0]), run[1..], key, interval);
    }
  }

  lemma InitInv(start: Time, key: Key, interval: int)
    requires interval > 0
    ensures Inv(Init(start, true), key, interval)
  {
    TimerSafety.InitOk(start, true);
  }

  /** Along any such run from the start: whoever is about to submit a workflow of the check
      does so at least an interval after the last stored finish. */
  lemma SubmissionsAreSpaced(start: Time, run: seq<Action>, key: Key, interval: int, tid: nat)
    requires interval > 0 && ValidRun(Init(start, true), run)
    requires SpacedRun(Init(start, true), run, key) && AllKeepInterval(run, key, interval)
    requires var s := Exec(Init(start, true), run);
             && tid < |s.threads| && s.threads[tid].key == key && s.threads[tid].pc.Submit?
             && key in s.store && s.store[key].status.finishedAt.Some?
    ensures var s := Exec(Init(start, true), run);
            s.store[key].status.finishedAt.value + interval * SECOND <= s.now
  {
    InitInv(start, key, interval);
    RunKeepsInv(Init(start, true), run, key, interval);
    hide TimerSafety.Inv, StatusInvariant.Inv, SpecSafety.Inv;
    var s := Exec(Init(start, true), run);
    assert ThreadSpaced(s, s.threads[tid], interval);
  }
}
