/** Conservation of episodes under any interleaving: a submitted workflow is recorded at most
    once, by the thread that watched it, however often its status is written. */
module Conservation {
  import opened HealthChecks
  import opened Goroutines
  import opened Machine
  import opened Frames
  import opened Histories
  import opened SerialRuns

  function RunOf(e: Event): Option<string> {
    if e.Remedied? then None else Some(e.wf)
  }

  /** The health-check workflow a thread still has to account for. */
  function Claim(t: Thread): Option<string> {
    if t.pc.WatchStart? || t.pc.Poll? then
      if t.pc.wf == "" then None else Some(t.pc.wf)
    else if InEpisode(t.pc) && t.unsaved != [] then RunOf(t.unsaved[0])
    else None
  }

  predicate BeforeVerdict(pc: Pc) {
    Unread(pc) || pc.Decide? || pc.CreateRbac? || pc.Submit? || pc.WatchStart? || pc.Poll?
  }

  /** An episode records its run first and then, possibly, a remedy. */
  ghost predicate Shape(t: Thread) {
    && (BeforeVerdict(t.pc) ==> t.unsaved == [])
    && (forall i :: 1 <= i < |t.unsaved| ==> t.unsaved[i].Remedied?)
  }

  ghost predicate Records(s: State, key: Key, i: int, wf: string) {
    key in s.store && 0 <= i < |s.store[key].history| && RunOf(s.store[key].history[i]) == Some(wf)
  }

  ghost predicate RecordsOk(s: State) {
    && (forall k, i, wf :: Records(s, k, i, wf) ==> wf in s.submitted)
    && (forall k, i, l, j, wf :: Records(s, k, i, wf) && Records(s, l, j, wf) ==> k == l && i == j)
  }

  predicate SameClaim(t: Thread, u: Thread) {
    Claim(t).Some? && Claim(t) == Claim(u)
  }

  ghost predicate ClaimsOk(s: State) {
    && (forall i :: 0 <= i < |s.threads| ==> Shape(s.threads[i]))
    && (forall i :: 0 <= i < |s.threads| && Claim(s.threads[i]).Some? ==> Claim(s.threads[i]).value in s.submitted)
    && (forall i, k, j :: 0 <= i < |s.threads| && Claim(s.threads[i]).Some? ==>
          !Records(s, k, j, Claim(s.threads[i]).value))
    && (forall i, j :: 0 <= i < |s.threads| && 0 <= j < |s.threads| && SameClaim(s.threads[i], s.threads[j]) ==> i == j)
  }

  ghost predicate Inv(s: State) {
    RecordsOk(s) && ClaimsOk(s)
  }

  /** A claim is taken by submitting, kept while the run is watched or unsaved, and given up. */
  ghost predicate ClaimFollows(t: Thread, t': Thread, a: Answer) {
    && Shape(t')
    && (Claim(t') == None || Claim(t') == Claim(t)
        || (t.pc.Submit? && a.Submission? && a.created == Claim(t')))
  }

  lemma PollClaims(t: Thread, now: Time, a: Answer)
    requires Shape(t) && (t.pc.Poll? || t.pc.RemedyPoll?)
    requires t.pc.Poll? && t.pc.wf == "" ==> a == Saw(LookupError(false))
    ensures t.pc.Poll? ==> ClaimFollows(t, StepPoll(t, now, a), a)
    ensures t.pc.RemedyPoll? ==> ClaimFollows(t, StepRemedyPoll(t, now, a), a)
  {
  }

  lemma SubmitClaims(t: Thread, a: Answer)
    requires Shape(t) && t.pc.Submit?
    ensures ClaimFollows(t, StepSubmit(t, a), a)
  {
  }

  lemma StepClaims(t: Thread, now: Time, a: Answer)
    requires Shape(t)
    requires t.pc.Poll? && t.pc.wf == "" ==> a == Saw(LookupError(false))
    ensures ClaimFollows(t, Step(t, now, a), a)
  {
    if t.pc.Poll? || t.pc.RemedyPoll? {
      StepAtPoll(t, now, a);
      PollClaims(t, now, a);
      hide Step, StepPoll, StepRemedyPoll;
    } else if t.pc.Submit? {
      SubmitClaims(t, a);
    } else {
      OtherClaims(t, now, a);
      hide Step;
    }
  }

  lemma OtherClaims(t: Thread, now: Time, a: Answer)
    requires Shape(t) && !t.pc.Poll? && !t.pc.RemedyPoll? && !t.pc.Submit?
    ensures ClaimFollows(t, Step(t, now, a), a)
  {
    hide StepPoll, StepRemedyPoll, StepSubmit, StepDecide, StepRemedySubmit, StepWriteGet, StepWritePut, StepLast;
    if t.pc.Decide? || t.pc.RemedySubmit? { QuietClaims(t, now, a); }
    if t.pc.WriteGet? || t.pc.WritePut? || t.pc.LastGet? || t.pc.LastPut? { WriteClaims(t, a); }
  }

  lemma WriteClaims(t: Thread, a: Answer)
    requires Shape(t)
    ensures t.pc.WriteGet? ==> ClaimFollows(t, StepWriteGet(t, a), a)
    ensures t.pc.WritePut? ==> ClaimFollows(t, StepWritePut(t, a), a)
    ensures t.pc.LastGet? || t.pc.LastPut? ==> ClaimFollows(t, StepLast(t, a), a)
  {
  }

  lemma QuietClaims(t: Thread, now: Time, a: Answer)
    requires Shape(t)
    ensures t.pc.Decide? ==> ClaimFollows(t, StepDecide(t, now, a), a)
    ensures t.pc.RemedySubmit? ==> ClaimFollows(t, StepRemedySubmit(t, a), a)
  {
  }

  /** Once a write took effect its thread claims nothing any more. */
  lemma WrittenClaimsNothing(t: Thread, now: Time, a: Answer)
    requires t.pc.WritePut? && TookEffect(a)
    ensures Claim(Step(t, now, a)) == None
  {
  }

  lemma SubmittedGrows(s: State, tid: nat, a: Answer)
    requires CanGo(s, tid, a)
    ensures s.submitted <= Effect(s, tid, s.threads[tid], a).submitted
    ensures var t := s.threads[tid];
            t.pc.Submit? && Claim(Step(t, s.now, a)).Some? && Claim(Step(t, s.now, a)) == a.created ==>
              && a.created.value !in s.submitted
              && a.created.value in Effect(s, tid, t, a).submitted
  {
    var t := s.threads[tid];
    if !t.pc.Submit? && !t.pc.RemedySubmit? { SubmittedStays(s, tid, a); }
  }

  lemma SubmittedStays(s: State, tid: nat, a: Answer)
    requires CanGo(s, tid, a) && !s.threads[tid].pc.Submit? && !s.threads[tid].pc.RemedySubmit?
    ensures Effect(s, tid, s.threads[tid], a).submitted == s.submitted
  {
  }

  lemma BlindPollFails(s: State, tid: nat, a: Answer)
    requires CanGo(s, tid, a) && s.threads[tid].pc.Poll? && s.threads[tid].pc.wf == ""
    ensures a == Saw(LookupError(false))
  {
  }

  /** The records after a goroutine's step: those before, and its own claim if it wrote it. */
  lemma RecordsAfterGo(s: State, tid: nat, a: Answer, k: Key, i: int, wf: string)
    requires Inv(s) && CanGo(s, tid, a) && Records(GoNext(s, tid, a), k, i, wf) && !Records(s, k, i, wf)
    ensures var t := s.threads[tid];
            && t.pc.WritePut? && TookEffect(a) && k == t.key && k in s.store
            && t.unsaved != [] && Claim(t) == Some(wf) && i == |s.store[k].history|
  {
    hide Step, Effect, Answerable, GoNext, AfterStep;
    var t := s.threads[tid];
    GoFrame(s, tid, a);
    EffectFrame(s, tid, a);
    if Writes(t, a) {
      if t.pc.WritePut? { EffectStatusWrite(s, tid, a); } else { EffectMainWrite(s, tid, a); }
    }
    assert Shape(t);
  }

  lemma GoKeepsRecords(s: State, tid: nat, a: Answer)
    requires Inv(s) && CanGo(s, tid, a)
    ensures RecordsOk(GoNext(s, tid, a))
  {
    hide Step, Effect, Answerable, GoNext, AfterStep, Records, Shape;
    var s' := GoNext(s, tid, a);
    GoFrame(s, tid, a);
    SubmittedGrows(s, tid, a);
    forall k, i, wf | Records(s', k, i, wf) ensures wf in s'.submitted {
      if !Records(s, k, i, wf) { RecordsAfterGo(s, tid, a, k, i, wf); }
    }
    forall k, i, l, j, wf | Records(s', k, i, wf) && Records(s', l, j, wf) ensures k == l && i == j {
      if !Records(s, k, i, wf) { RecordsAfterGo(s, tid, a, k, i, wf); }
      if !Records(s, l, j, wf) { RecordsAfterGo(s, tid, a, l, j, wf); }
    }
  }

  lemma GoKeepsClaims(s: State, tid: nat, a: Answer)
    requires Inv(s) && CanGo(s, tid, a)
    ensures ClaimsOk(GoNext(s, tid, a))
  {
    hide Step, Effect, Answerable, GoNext, AfterStep, Records, Shape, Claim;
    var t := s.threads[tid];
    var t' := Step(t, s.now, a);
    var s' := GoNext(s, tid, a);
    GoFrame(s, tid, a);
    SubmittedGrows(s, tid, a);
    if t.pc.Poll? && t.pc.wf == "" { BlindPollFails(s, tid, a); }
    StepClaims(t, s.now, a);
    if t.pc.WritePut? && TookEffect(a) { WrittenClaimsNothing(t, s.now, a); }
    forall i, k, j | 0 <= i < |s'.threads| && Claim(s'.threads[i]).Some?
      ensures !Records(s', k, j, Claim(s'.threads[i]).value)
    {
      var wf := Claim(s'.threads[i]).value;
      var same := SameClaim(s'.threads[i], t);
      if Records(s', k, j, wf) {
        if !Records(s, k, j, wf) { RecordsAfterGo(s, tid, a, k, j, wf); }
      }
    }
  }

  lemma NextKeepsInv(s: State, a: Action)
    requires Inv(s) && Enabled(s, a)
    ensures Inv(Next(s, a))
  {
    if a.Go? {
      GoKeepsRecords(s, a.tid, a.answer);
      GoKeepsClaims(s, a.tid, a.answer);
    } else {
      OthersKeepInv(s, a);
    }
  }

  lemma OthersKeepInv(s: State, a: Action)
    requires Inv(s) && Enabled(s, a) && !a.Go?
    ensures Inv(Next(s, a))
  {
    hide Step, Effect, Answerable, GoNext, Claim, Shape;
    var s' := Next(s, a);
    assert forall k, i, wf :: Records(s', k, i, wf) ==> Records(s, k, i, wf);
    if a.StartReconcile? { NewThreadsClaimNothing(a.key, Reconcile); }
    if a.Fire? { NewThreadsClaimNothing(s.timers[a.timer].key, Timer); }
  }

  lemma NewThreadsClaimNothing(key: Key, origin: Origin)
    ensures Claim(NewThread(key, origin)) == None && Shape(NewThread(key, origin))
  {
  }

  lemma {:induction false} RunKeepsInv(s: State, run: seq<Action>)
    requires Inv(s) && ValidRun(s, run)
    ensures Inv(Exec(s, run))
    decreases |run|
  {
    hide Inv, Enabled, Next;
    if run != [] {
      NextKeepsInv(s, run[0]);
      RunKeepsInv(Next(s, run[0]), run[1..]);
    }
  }

  // ---------------------------------------------------------------- the theorems

  ghost predicate PersistedSuccess(s: State, wf: string) {
    exists k, i :: Records(s, k, i, wf) && s.store[k].history[i].RanOk?
  }

  ghost predicate PersistedFailure(s: State, wf: string) {
    exists k, i :: Records(s, k, i, wf) && s.store[k].history[i].RanFailed?
  }

  ghost predicate InFlight(s: State, wf: string) {
    exists i :: 0 <= i < |s.threads| && Claim(s.threads[i]) == Some(wf)
  }

  /** A persisted success, a persisted failure or in flight, never two of them, and only if it was
      submitted. */
  ghost predicate OneFate(s: State, wf: string) {
    && !(PersistedSuccess(s, wf) && PersistedFailure(s, wf))
    && !(PersistedSuccess(s, wf) && InFlight(s, wf))
    && !(PersistedFailure(s, wf) && InFlight(s, wf))
    && (PersistedSuccess(s, wf) || PersistedFailure(s, wf) || InFlight(s, wf) ==> wf in s.submitted)
  }

  lemma InvGivesOneFate(s: State, wf: string)
    requires Inv(s)
    ensures OneFate(s, wf)
  {
  }

  /** In every reachable state a workflow has at most one fate. What was submitted and has none is
      abandoned. */
  lemma EveryRunHasOneFate(start: Time, mapMade: bool, run: seq<Action>, wf: string)
    requires ValidRun(Init(start, mapMade), run)
    ensures OneFate(Exec(Init(start, mapMade), run), wf)
  {
    RunKeepsInv(Init(start, mapMade), run);
    InvGivesOneFate(Exec(Init(start, mapMade), run), wf);
  }

  /** Submitted, and neither recorded nor watched by anyone. */
  ghost predicate Abandoned(s: State, wf: string) {
    wf in s.submitted && !InFlight(s, wf) && forall k, i :: !Records(s, k, i, wf)
  }

  /** What is abandoned stays abandoned: no later write, watch or restart picks it up. */
  lemma AbandonedForGood(s: State, a: Action, wf: string)
    requires Inv(s) && Enabled(s, a) && Abandoned(s, wf)
    ensures Abandoned(Next(s, a), wf)
  {
    if a.Go? {
      StillAbandoned(s, a.tid, a.answer, wf);
    } else {
      var s' := Next(s, a);
      assert forall k, i :: Records(s', k, i, wf) ==> Records(s, k, i, wf);
      assert forall i :: 0 <= i < |s'.threads| && Claim(s'.threads[i]) == Some(wf) ==>
               i < |s.threads| && Claim(s.threads[i]) == Some(wf);
    }
  }

  lemma StillAbandoned(s: State, tid: nat, a: Answer, wf: string)
    requires Inv(s) && CanGo(s, tid, a) && Abandoned(s, wf)
    ensures Abandoned(GoNext(s, tid, a), wf)
  {
    hide Step, Effect, Answerable, GoNext, AfterStep, Records, Shape, Claim;
    var t := s.threads[tid];
    var s' := GoNext(s, tid, a);
    GoFrame(s, tid, a);
    SubmittedGrows(s, tid, a);
    if t.pc.Poll? && t.pc.wf == "" { BlindPollFails(s, tid, a); }
    StepClaims(t, s.now, a);
    forall k, i ensures !Records(s', k, i, wf) {
      if Records(s', k, i, wf) { RecordsAfterGo(s, tid, a, k, i, wf); }
    }
  }

  function Recorded(h: seq<Event>): set<string> {
    set i | 0 <= i < |h| && RunOf(h[i]).Some? :: RunOf(h[i]).value
  }

  ghost predicate OnceEach(h: seq<Event>) {
    forall i, j :: 0 <= i < j < |h| && RunOf(h[i]).Some? ==> RunOf(h[i]) != RunOf(h[j])
  }

  lemma {:induction false} RecordedSize(h: seq<Event>)
    requires OnceEach(h)
    ensures |Recorded(h)| == Successes(h) + Failures(h)
    decreases |h|
  {
    if h != [] {
      var n := |h| - 1;
      RecordedSize(h[..n]);
      match RunOf(h[n]) {
        case None =>
          assert Recorded(h) == Recorded(h[..n]);
        case Some(wf) =>
          assert Recorded(h) == Recorded(h[..n]) + {wf};
          assert wf !in Recorded(h[..n]);
      }
    }
  }

  /** In a serial run the stored total is the number of distinct workflows whose result was
      persisted, all of them submitted, although a failure with a remedy is written twice. */
  lemma TotalCountsRuns(start: Time, mapMade: bool, run: seq<Action>, key: Key)
    requires ValidRun(Init(start, mapMade), run) && SerialRun(Init(start, mapMade), run, key)
    requires key in Exec(Init(start, mapMade), run).store
    ensures var s := Exec(Init(start, mapMade), run);
            var o := s.store[key];
            && o.status.totalHealthCheckRuns == |Recorded(o.history)|
            && Recorded(o.history) <= s.submitted
  {
    CountersCountTheHistory(start, mapMade, run, key);
    RunKeepsInv(Init(start, mapMade), run);
    hide Inv, ValidRun, Exec, Init;
    StoredHistory(Exec(Init(start, mapMade), run), key);
  }

  lemma StoredHistory(s: State, key: Key)
    requires Inv(s) && key in s.store
    ensures var h := s.store[key].history;
            |Recorded(h)| == Successes(h) + Failures(h) && Recorded(h) <= s.submitted
  {
    var h := s.store[key].history;
    forall i, j | 0 <= i < j < |h| && RunOf(h[i]).Some? ensures RunOf(h[i]) != RunOf(h[j]) {
      assert Records(s, key, i, RunOf(h[i]).value);
      if RunOf(h[j]) == RunOf(h[i]) { assert Records(s, key, j, RunOf(h[i]).value); }
    }
    RecordedSize(h);
    forall wf | wf in Recorded(h) ensures wf in s.submitted {
      var i :| 0 <= i < |h| && RunOf(h[i]) == Some(wf);
      assert Records(s, key, i, wf);
    }
  }
}
