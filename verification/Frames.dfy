/** What a goroutine's step leaves alone in the shared state. */
module Frames {
  import opened HealthChecks
  import opened Goroutines
  import opened Machine

  /** A step that writes to the object store: a put that took effect. */
  predicate Writes(t: Thread, a: Answer) {
    (t.pc.WritePut? || t.pc.LastPut?) && TookEffect(a)
  }

  lemma EffectFrame(s: State, tid: nat, a: Answer)
    requires CanGo(s, tid, a)
    ensures var s' := Effect(s, tid, s.threads[tid], a);
            !Writes(s.threads[tid], a) ==> s'.store == s.store && s'.nextRv == s.nextRv
  {
  }

  lemma EffectStatusWrite(s: State, tid: nat, a: Answer)
    requires CanGo(s, tid, a) && s.threads[tid].pc.WritePut? && TookEffect(a)
    ensures var t := s.threads[tid];
            var s' := Effect(s, tid, t, a);
            && t.key in s.store && s.store[t.key].rv == t.pc.rv
            && s'.nextRv == s.nextRv + 1
            && s'.store == s.store[t.key := PutStatus(s.store[t.key], t.hc.status, s.nextRv, t.unsaved)]
  {
  }

  lemma EffectMainWrite(s: State, tid: nat, a: Answer)
    requires CanGo(s, tid, a) && s.threads[tid].pc.LastPut? && TookEffect(a)
    ensures var t := s.threads[tid];
            var s' := Effect(s, tid, t, a);
            && t.key in s.store && s.store[t.key].rv == t.pc.rv
            && s'.nextRv == s.nextRv + 1
            && s'.store == s.store[t.key := PutMain(s.store[t.key], t.pc.spec, s.nextRv)]
  {
  }

  /** A successful read hands the thread the object as it is stored. */
  lemma FetchedIsStored(s: State, tid: nat, a: Answer)
    requires CanGo(s, tid, a) && a.Fetched?
    ensures var t := s.threads[tid];
            && t.key in s.store && a.copy == CopyOf(s.store[t.key]) && a.rv == s.store[t.key].rv
  {
  }

  /** Threads, store and clock after a step: only thread `tid` moved, or the process died. */
  lemma GoFrame(s: State, tid: nat, a: Answer)
    requires CanGo(s, tid, a)
    ensures var t := s.threads[tid];
            var t' := Step(t, s.now, a);
            var s' := GoNext(s, tid, a);
            && s'.now == s.now && s'.mapMade == s.mapMade
            && s'.store == Effect(s, tid, t, a).store
            && s'.nextRv == Effect(s, tid, t, a).nextRv
            && s'.submitted == Effect(s, tid, t, a).submitted
            && (s'.threads == [] || s'.threads == s.threads[tid := t'])
  {
    hide Step, Effect, Answerable;
    EffectFrame(s, tid, a);
  }

  /** The places where a thread's status changes. */
  predicate TouchesStatus(pc: Pc) {
    pc.ReconcileGet? || pc.TimerGet? || pc.Decide? || pc.Poll? || pc.RemedyPoll?
  }

  lemma StepKeepsStatus(t: Thread, now: Time, a: Answer)
    requires !TouchesStatus(t.pc)
    ensures var t' := Step(t, now, a);
            && t'.hc.status == t.hc.status && t'.hc.deleting == t.hc.deleting
            && t'.unsaved == if t.pc.WritePut? && a.Done? then [] else t.unsaved
  {
    hide StepPoll, StepRemedyPoll, StepDecide;
  }
}
