/** What every persisted success leaves of the remedy: nothing. */
module SuccessWrites {
  import opened HealthChecks
  import opened StatusRules
  import opened Goroutines
  import opened Machine
  import opened Frames
  import opened SerialRuns
  import StatusInvariant
  import Conservation

  /** The remedy part of a status as it is on a fresh object. */
  predicate NoRemedyYet(st: Status) {
    && st.remedyTotalRuns == 0 && st.remedySuccessCount == 0 && st.remedyFailedCount == 0
    && st.remedyStartedAt == None && st.remedyFinishedAt == None && st.remedyLastFailedAt == None
  }

  predicate HasPassed(t: Thread) {
    InEpisode(t.pc) && t.unsaved != [] && t.unsaved[0].RanOk?
  }

  /** An episode that has passed has only its last write to make, and holds the status to write. */
  ghost predicate PassedOk(t: Thread) {
    HasPassed(t) ==>
      && (t.pc.WriteGet? || t.pc.WritePut?) && t.pc.write.Final?
      && (!t.hc.spec.remedyWorkflow.IsEmpty() ==> NoRemedyYet(t.hc.status))
  }

  lemma PollPasses(t: Thread, now: Time, a: Answer)
    requires t.pc.Poll? && t.unsaved == [] && Consistent(t.hc.status, now)
    ensures PassedOk(StepPoll(t, now, a))
  {
    if !t.hc.spec.remedyWorkflow.IsEmpty() {
      SuccessNormalForm(t.hc.spec, t.hc.status, t.pc.began, now, t.pc.wf, now, t.hc.spec);
    }
    hide Consistent, RecordFailure, ResetRemedy, RemedyGate;
  }

  lemma RemedyPollPasses(t: Thread, now: Time, a: Answer)
    requires t.pc.RemedyPoll? && PassedOk(t)
    ensures PassedOk(StepRemedyPoll(t, now, a))
  {
    hide RecordRemedySuccess, RecordRemedyFailure;
  }

  lemma OtherStepPasses(t: Thread, now: Time, a: Answer)
    requires PassedOk(t) && InEpisode(t.pc) && !TouchesStatus(t.pc)
    ensures PassedOk(Step(t, now, a))
  {
    StepKeepsStatus(t, now, a);
    hide StepPoll, StepRemedyPoll, StepDecide, StepSubmit, StepRemedySubmit, StepRbac;
    if t.pc.WriteGet? || t.pc.WritePut? { WriteStays(t, now, a); }
  }

  lemma WriteStays(t: Thread, now: Time, a: Answer)
    requires t.pc.WriteGet? || t.pc.WritePut?
    ensures var t' := Step(t, now, a);
            t'.hc.spec == t.hc.spec
            && (InEpisode(t'.pc) && t'.unsaved != [] ==>
                  (t'.pc.WriteGet? || t'.pc.WritePut?) && t'.pc.write == t.pc.write)
  {
  }

  lemma StepPasses(t: Thread, now: Time, a: Answer)
    requires PassedOk(t) && StatusInvariant.ThreadOk(t, now) && Conservation.Shape(t)
    ensures PassedOk(Step(t, now, a))
  {
    if t.pc.Poll? || t.pc.RemedyPoll? {
      StepAtPoll(t, now, a);
      if t.pc.Poll? { PollPasses(t, now, a); } else { RemedyPollPasses(t, now, a); }
      hide Step, StepPoll, StepRemedyPoll;
    } else if InEpisode(t.pc) {
      OtherStepPasses(t, now, a);
      hide Step;
    } else if InEpisode(Step(t, now, a).pc) {
      EntersEpisode(t, now, a);
      hide Step;
    }
  }

  ghost predicate Passing(s: State) {
    && StatusInvariant.Inv(s) && Conservation.Inv(s)
    && forall i :: 0 <= i < |s.threads| ==> PassedOk(s.threads[i])
  }

  lemma NextKeepsInv(s: State, a: Action)
    requires Passing(s) && Enabled(s, a)
    ensures Passing(Next(s, a))
  {
    StatusInvariant.NextKeepsInv(s, a);
    Conservation.NextKeepsInv(s, a);
    if a.Go? {
      GoKeepsPassed(s, a.tid, a.answer);
    }
    hide StatusInvariant.Inv, Conservation.Inv, GoNext;
  }

  lemma GoKeepsPassed(s: State, tid: nat, a: Answer)
    requires Passing(s) && CanGo(s, tid, a)
    ensures forall i :: 0 <= i < |GoNext(s, tid, a).threads| ==> PassedOk(GoNext(s, tid, a).threads[i])
  {
    hide Step, Effect, Answerable, GoNext, PassedOk;
    GoFrame(s, tid, a);
    StepPasses(s.threads[tid], s.now, a);
  }

  lemma {:induction false} RunKeepsPassed(s: State, run: seq<Action>)
    requires Passing(s) && ValidRun(s, run)
    ensures Passing(Exec(s, run))
    decreases |run|
  {
    hide Passing, Enabled, Next;
    if run != [] {
      NextKeepsInv(s, run[0]);
      RunKeepsPassed(Next(s, run[0]), run[1..]);
    }
  }

  /** In any run, under every interleaving: a status write that persists a success of a check with a
      remedy stores a status whose remedy part is a fresh object's, reset branch or not, and whose
      next failure meets the gate that a fresh object's meets. */
  lemma PersistedSuccessIsNormal(start: Time, mapMade: bool, run: seq<Action>, tid: nat, a: Answer, later: Time,
                                 other: Spec)
    requires ValidRun(Init(start, mapMade), run) && CanGo(Exec(Init(start, mapMade), run), tid, a)
    requires var t := Exec(Init(start, mapMade), run).threads[tid];
             && t.pc.WritePut? && TookEffect(a) && !t.hc.spec.remedyWorkflow.IsEmpty()
             && exists i :: 0 <= i < |t.unsaved| && t.unsaved[i].RanOk?
    ensures var s := Exec(Init(start, mapMade), run);
            var s' := GoNext(s, tid, a);
            var key := s.threads[tid].key;
            && key in s'.store && NoRemedyYet(s'.store[key].status)
            && RemedyGate(other, s'.store[key].status, later) == RemedyGate(other, NEW_STATUS, later)
  {
    var s := Exec(Init(start, mapMade), run);
    RunKeepsPassed(Init(start, mapMade), run);
    hide Exec, ValidRun, Passing, GoNext, Answerable, RemedyGate, NoRemedyYet;
    WriteIsNormal(s, tid, a, later, other);
  }

  lemma WriteIsNormal(s: State, tid: nat, a: Answer, later: Time, other: Spec)
    requires Passing(s) && CanGo(s, tid, a)
    requires var t := s.threads[tid];
             && t.pc.WritePut? && TookEffect(a) && !t.hc.spec.remedyWorkflow.IsEmpty()
             && exists i :: 0 <= i < |t.unsaved| && t.unsaved[i].RanOk?
    ensures var s' := GoNext(s, tid, a);
            var key := s.threads[tid].key;
            && key in s'.store && NoRemedyYet(s'.store[key].status)
            && RemedyGate(other, s'.store[key].status, later) == RemedyGate(other, NEW_STATUS, later)
  {
    hide StatusInvariant.Inv, GoNext, Effect, Step, Answerable;
    var t := s.threads[tid];
    assert Conservation.Shape(t) && PassedOk(t);
    GoFrame(s, tid, a);
    EffectStatusWrite(s, tid, a);
  }
}
