/** The repeat timers under any interleaving of goroutines, firings, deletions and crashes. */
module TimerSafety {
  import opened HealthChecks
  import opened Goroutines
  import opened Machine

  /** The thread that holds the lock has stopped the old timer of its name, so none is pending. */
  ghost predicate HolderOk(s: State) {
    s.lock.Some? ==>
      && s.lock.value < |s.threads|
      && var holder := s.threads[s.lock.value];
      && (holder.pc.RearmStart? || holder.pc.Panicked?)
      && (holder.pc.RearmStart? ==>
            forall i :: 0 <= i < |s.timers| && s.timers[i].live ==> s.timers[i].key.name != holder.key.name)
  }

  ghost predicate TableOk(s: State) {
    && (forall i :: 0 <= i < |s.timers| && s.timers[i].live ==>
          s.timers[i].key.name in s.table && s.table[s.timers[i].key.name] == i)
    && (forall n :: n in s.table ==> s.table[n] < |s.timers| && s.timers[s.table[n]].key.name == n)
  }

  ghost predicate BlockOk(s: State) {
    forall i :: 0 <= i < |s.threads| && s.threads[i].pc.RearmStart? ==> s.lock == Some(i)
  }

  /** Object names are never empty. */
  ghost predicate NamesOk(s: State) {
    && (forall i :: 0 <= i < |s.threads| ==> s.threads[i].key.name != "")
    && (forall i :: 0 <= i < |s.timers| ==> s.timers[i].key.name != "")
    && "" !in s.table
  }

  /** Without the map nothing is ever stored in it, and the one timer that is started is started
      by the goroutine that leaks the lock. */
  ghost predicate UnmadeOk(s: State) {
    s.table == map[] && |s.timers| <= 1
    && (s.timers != [] ==> s.lock.Some? && s.lock.value < |s.threads| && s.threads[s.lock.value].pc.Panicked?)
  }

  ghost predicate Core(s: State) {
    BlockOk(s) && HolderOk(s) && if s.mapMade then TableOk(s) else UnmadeOk(s)
  }

  ghost predicate Inv(s: State) {
    Core(s) && NamesOk(s)
  }

  /** What a step tells the shared state about its thread: only Rearm leads into the block
      under the lock. */
  ghost predicate PcFollows(t: Thread, t': Thread, a: Answer) {
    && t'.key == t.key && t'.origin == t.origin
    && (t'.pc.RearmStart? <==> t.pc.Rearm?)
    && (t.pc.RearmStart? ==> (t'.pc.Panicked? <==> !a.Done?))
  }

  lemma PollFollows(t: Thread, now: Time, a: Answer)
    requires t.pc.Poll? || t.pc.RemedyPoll?
    ensures PcFollows(t, Step(t, now, a), a)
  {
  }

  lemma StepFollows(t: Thread, now: Time, a: Answer)
    ensures PcFollows(t, Step(t, now, a), a)
  {
    match t.pc {
      case Poll(_, _, _) => PollFollows(t, now, a);
      case RemedyPoll(_, _, _) => PollFollows(t, now, a);
      case Submit =>
      case RemedySubmit =>
      case _ =>
    }
  }

  /** Steps that leave the lock, the table and the timers alone. */
  ghost predicate Quiet(s: State, s': State) {
    s'.mapMade == s.mapMade && s'.lock == s.lock && s'.table == s.table && s'.timers == s.timers
    && s'.threads == s.threads
  }

  lemma QuietKeepsCore(s: State, s': State, tid: nat, t': Thread, a: Answer)
    requires Core(s) && Quiet(s, s') && tid < |s.threads| && PcFollows(s.threads[tid], t', a)
    requires !s.threads[tid].pc.Rearm? && !s.threads[tid].pc.RearmStart? && !s.threads[tid].pc.Panicked?
    ensures Core(AfterStep(s', tid, t'))
  {
  }

  lemma MostEffectsAreQuiet(s: State, tid: nat, a: Answer)
    requires CanGo(s, tid, a)
    requires var pc := s.threads[tid].pc;
             !(pc.Rearm? || pc.RearmStart? || pc.CancelStop? || pc.Submit? || pc.RemedySubmit?)
    ensures Quiet(s, Effect(s, tid, s.threads[tid], a))
  {
  }

  /** Line 748-750: take the lock, stop the timer the table holds. */
  lemma RearmKeepsCore(s: State, tid: nat, a: Answer, t': Thread)
    requires Core(s) && CanGo(s, tid, a) && PcFollows(s.threads[tid], t', a) && s.threads[tid].pc.Rearm?
    ensures Core(AfterStep(Effect(s, tid, s.threads[tid], a), tid, t'))
  {
    RearmEffect(s, tid, a);
    hide Effect, Answerable;
  }

  lemma RearmEffect(s: State, tid: nat, a: Answer)
    requires CanGo(s, tid, a) && s.threads[tid].pc.Rearm?
    ensures var s' := Effect(s, tid, s.threads[tid], a);
            var name := s.threads[tid].key.name;
            && s.lock.None? && s'.lock == Some(tid)
            && s' == s.(lock := s'.lock, timers := s'.timers)
            && s'.timers == if name in s.table then Cancelled(s.timers, s.table[name]) else s.timers
  {
  }

  /** Line 751-752: start the new timer, put it in the table, release the lock. */
  lemma RearmStartKeepsCore(s: State, tid: nat, a: Answer, t': Thread)
    requires Core(s) && CanGo(s, tid, a) && PcFollows(s.threads[tid], t', a) && s.threads[tid].pc.RearmStart?
    ensures Core(AfterStep(Effect(s, tid, s.threads[tid], a), tid, t'))
  {
  }

  lemma CancelKeepsCore(s: State, tid: nat, a: Answer, t': Thread)
    requires Core(s) && CanGo(s, tid, a) && PcFollows(s.threads[tid], t', a) && s.threads[tid].pc.CancelStop?
    ensures Core(AfterStep(Effect(s, tid, s.threads[tid], a), tid, t'))
  {
  }

  /** A template that decodes to nothing panics with the lock held; any other submission
      leaves the lock as it was. */
  lemma SubmitEffect(s: State, tid: nat, a: Answer)
    requires CanGo(s, tid, a)
    requires s.threads[tid].pc.Submit? || s.threads[tid].pc.RemedySubmit?
    ensures s.lock.None?
    ensures var s' := Effect(s, tid, s.threads[tid], a);
            && Quiet(s, s'.(lock := None))
            && (s'.lock.None? || (s'.lock == Some(tid) && Step(s.threads[tid], s.now, a).pc.Panicked?))
  {
  }

  lemma SubmitKeepsCore(s: State, s': State, tid: nat, t': Thread, a: Answer)
    requires Core(s) && s.lock.None? && Quiet(s, s'.(lock := None)) && tid < |s.threads|
             && PcFollows(s.threads[tid], t', a)
    requires s'.lock.None? || (s'.lock == Some(tid) && t'.pc.Panicked?)
    requires s.threads[tid].pc.Submit? || s.threads[tid].pc.RemedySubmit?
    ensures Core(AfterStep(s', tid, t'))
  {
  }

  lemma EffectKeepsNames(s: State, tid: nat, a: Answer)
    requires NamesOk(s) && CanGo(s, tid, a)
    ensures NamesOk(Effect(s, tid, s.threads[tid], a))
  {
    var pc := s.threads[tid].pc;
    if pc.RearmStart? || pc.Rearm? {
    } else if pc.CancelStop? || pc.Submit? || pc.RemedySubmit? {
    } else {
      MostEffectsAreQuiet(s, tid, a);
    }
  }

  lemma PanickedIsStuck(s: State, tid: nat, a: Answer)
    requires CanGo(s, tid, a)
    ensures !s.threads[tid].pc.Panicked? && !s.threads[tid].pc.Ended?
  {
  }

  lemma NamesStay(s: State, tid: nat, t': Thread)
    requires NamesOk(s) && tid < |s.threads| && t'.key == s.threads[tid].key
    ensures NamesOk(AfterStep(s, tid, t'))
  {
  }

  lemma GoKeepsInv(s: State, tid: nat, a: Answer)
    requires Inv(s) && CanGo(s, tid, a)
    ensures Inv(GoNext(s, tid, a))
  {
    hide Step, Effect, Answerable, Core, NamesOk, PcFollows, Quiet, AfterStep;
    PanickedIsStuck(s, tid, a);
    var t := s.threads[tid];
    var t' := Step(t, s.now, a);
    StepFollows(t, s.now, a);
    EffectKeepsNames(s, tid, a);
    NamesStay(Effect(s, tid, t, a), tid, t');
    if t.pc.Rearm? {
      RearmKeepsCore(s, tid, a, t');
    } else if t.pc.RearmStart? {
      RearmStartKeepsCore(s, tid, a, t');
    } else if t.pc.CancelStop? {
      CancelKeepsCore(s, tid, a, t');
    } else if t.pc.Submit? || t.pc.RemedySubmit? {
      SubmitEffect(s, tid, a);
      SubmitKeepsCore(s, Effect(s, tid, t, a), tid, t', a);
    } else {
      MostEffectsAreQuiet(s, tid, a);
      QuietKeepsCore(s, Effect(s, tid, t, a), tid, t', a);
    }
  }

  lemma NextKeepsInv(s: State, a: Action)
    requires Inv(s) && Enabled(s, a)
    ensures Inv(Next(s, a)) && Next(s, a).mapMade == s.mapMade
  {
    hide GoNext, Core, NamesOk, Answerable;
    if a.Go? {
      GoKeepsInv(s, a.tid, a.answer);
      MapStays(s, a.tid, a.answer);
    } else {
      OthersKeepCore(s, a);
      OthersKeepNames(s, a);
    }
  }

  lemma MapStays(s: State, tid: nat, a: Answer)
    requires CanGo(s, tid, a)
    ensures GoNext(s, tid, a).mapMade == s.mapMade
  {
    hide Step, Effect, Answerable;
  }

  lemma OthersKeepCore(s: State, a: Action)
    requires Core(s) && Enabled(s, a) && !a.Go?
    ensures Core(Next(s, a)) && Next(s, a).mapMade == s.mapMade
  {
    hide GoNext;
  }

  lemma OthersKeepNames(s: State, a: Action)
    requires NamesOk(s) && Enabled(s, a) && !a.Go?
    ensures NamesOk(Next(s, a))
  {
    hide GoNext;
  }

  lemma {:induction false} RunKeepsInv(s: State, run: seq<Action>)
    requires Inv(s) && ValidRun(s, run)
    ensures Inv(Exec(s, run)) && Exec(s, run).mapMade == s.mapMade
    decreases |run|
  {
    if run != [] {
      NextKeepsInv(s, run[0]);
      RunKeepsInv(Next(s, run[0]), run[1..]);
    }
  }

  lemma InitOk(start: Time, mapMade: bool)
    ensures Inv(Init(start, mapMade))
  {
  }

  /** In every reachable state at most one timer is pending for a name, however the reconciler was
      built; and if its map was made, it is the one the table holds for that name. */
  lemma AtMostOnePendingPerName(start: Time, mapMade: bool, run: seq<Action>, i: nat, j: nat)
    requires ValidRun(Init(start, mapMade), run)
    requires var s := Exec(Init(start, mapMade), run);
             && i < |s.timers| && j < |s.timers| && s.timers[i].live && s.timers[j].live
             && s.timers[i].key.name == s.timers[j].key.name
    ensures i == j
    ensures mapMade ==>
              var s := Exec(Init(start, mapMade), run); TableEntry(s.table, s.timers[i].key.name) == Some(i)
  {
    InitOk(start, mapMade);
    RunKeepsInv(Init(start, mapMade), run);
  }

  /** The timers pending under a name. */
  ghost function Pending(s: State, name: string): set<nat> {
    set i | 0 <= i < |s.timers| && s.timers[i].live && s.timers[i].key.name == name
  }

  /** An episode that reaches the re-arm block leaves exactly one timer pending under its name:
      its own, due one interval from now. Every other name keeps what it had. */
  lemma RearmLeavesExactlyOne(s: State, tid: nat, a: Answer, other: string)
    requires Inv(s) && s.mapMade && CanGo(s, tid, a) && s.threads[tid].pc.RearmStart?
    ensures var t := s.threads[tid];
            var s' := GoNext(s, tid, a);
            && Pending(s', t.key.name) == {|s.timers|}
            && s'.timers[|s.timers|] == RepeatTimer(t.key, s.now + t.hc.spec.repeatAfterSec * 1_000_000_000, true)
            && s'.lock.None?
            && (other != t.key.name ==> Pending(s', other) == Pending(s, other))
  {
  }

  /** Names are bare: taking the lock to re-arm one check stops the pending timers of the checks of
      that name, in whatever namespace, and no others. */
  lemma RearmStopsNamesakes(s: State, tid: nat, a: Answer, i: nat)
    requires Inv(s) && s.mapMade && CanGo(s, tid, a) && s.threads[tid].pc.Rearm?
    requires i < |s.timers| && s.timers[i].live
    ensures |GoNext(s, tid, a).timers| == |s.timers|
    ensures GoNext(s, tid, a).timers[i].live <==> s.timers[i].key.name != s.threads[tid].key.name
  {
    RearmEffect(s, tid, a);
    hide Step, Effect, Answerable;
    StepFollows(s.threads[tid], s.now, a);
    NotPanicked(s.threads[tid], s.now, a);
  }

  lemma NotPanicked(t: Thread, now: Time, a: Answer)
    requires t.pc.Rearm? || t.pc.CancelStop?
    ensures !Step(t, now, a).pc.Panicked?
  {
  }

  /** So does a reconcile whose Get fails, because the object is gone or for any other reason
      (180-184): uninterrupted, it ends with the pending timers of its bare name stopped, and no
      others, and with nothing put in their place. */
  lemma DeletionStopsNamesakes(s: State, tid: nat) returns (run: seq<Action>)
    requires Inv(s) && s.mapMade && s.lock.None? && tid < |s.threads|
    requires s.threads[tid].pc == CancelLookup(s.threads[tid].key.name)
    ensures ValidRun(s, run)
    ensures forall i :: 0 <= i < |run| ==> run[i].Go? && run[i].tid == tid
    ensures var name := s.threads[tid].key.name;
            var s' := Exec(s, run);
            && s'.threads == s.threads[tid := s.threads[tid].(pc := Ended)]
            && s'.store == s.store && s'.table == s.table && s'.lock.None? && |s'.timers| == |s.timers|
            && forall i :: 0 <= i < |s.timers| ==>
                 s'.timers[i].key == s.timers[i].key
                 && (s'.timers[i].live <==> s.timers[i].live && s.timers[i].key.name != name)
  {
    run := CancelRun(s, tid);
    hide ValidRun, Exec;
    TableHoldsPending(s, s.threads[tid].key.name);
  }

  /** The three steps of the cancellation in a row, or the first, if there is nothing to cancel. */
  lemma CancelRun(s: State, tid: nat) returns (run: seq<Action>)
    requires s.lock.None? && tid < |s.threads|
    requires s.threads[tid].pc == CancelLookup(s.threads[tid].key.name)
    ensures ValidRun(s, run)
    ensures forall i :: 0 <= i < |run| ==> run[i].Go? && run[i].tid == tid
    ensures var entry := TableEntry(s.table, s.threads[tid].key.name);
            Exec(s, run) == s.(timers := if entry.Some? then Cancelled(s.timers, entry.value) else s.timers,
                               threads := s.threads[tid := s.threads[tid].(pc := Ended)])
  {
    var name := s.threads[tid].key.name;
    var entry := Go(tid, Entry(TableEntry(s.table, name)));
    hide Enabled, Next, Cancelled;
    CancelTakes(s, tid);
    var s1 := Next(s, entry);
    if name !in s.table {
      RunCons(s, entry, []);
      run := [entry] + [];
    } else {
      CancelTakes(s1, tid);
      var s2 := Next(s1, entry);
      CancelTakes(s2, tid);
      var stop := Go(tid, Done);
      RunCons(s2, stop, []);
      RunCons(s1, entry, [stop] + []);
      RunCons(s, entry, [entry] + ([stop] + []));
      run := [entry] + ([entry] + ([stop] + []));
    }
  }

  lemma TableHoldsPending(s: State, name: string)
    requires Inv(s) && s.mapMade
    ensures forall i :: 0 <= i < |s.timers| && s.timers[i].live ==>
              (s.timers[i].key.name == name <==> TableEntry(s.table, name) == Some(i))
    ensures name in s.table ==> s.table[name] < |s.timers|
  {
  }

  /** One step of the cancellation. */
  lemma CancelTakes(s: State, tid: nat)
    requires s.lock.None? && tid < |s.threads|
    requires var pc := s.threads[tid].pc;
             pc == CancelLookup(s.threads[tid].key.name) || pc.CancelRead? || pc.CancelStop?
    ensures var t := s.threads[tid];
            var entry := TableEntry(s.table, t.key.name);
            var a := Go(tid, if t.pc.CancelStop? then Done else Entry(entry));
            && Enabled(s, a)
            && (t.pc.CancelLookup? ==>
                  Next(s, a) == s.(threads := s.threads[tid := t.(pc := if entry.Some? then CancelRead else Ended)]))
            && (t.pc.CancelRead? && entry.Some? ==>
                  Next(s, a) == s.(threads := s.threads[tid := t.(pc := CancelStop(entry.value))]))
            && (t.pc.CancelStop? ==>
                  Next(s, a) == s.(timers := Cancelled(s.timers, t.pc.timer),
                                   threads := s.threads[tid := t.(pc := Ended)]))
  {
    hide StepPoll, StepRemedyPoll, StepDecide, StepSubmit, StepRemedySubmit, StepRbac, StepWriteGet, StepWritePut;
    hide StepLast;
    hide WithSubmission;
  }

  /** After a failed status write the two watch functions look up the name of an empty request.
      No timer is ever stored under it, so the cancellation that follows is never reached. */
  lemma FailedWriteCancelsNothing(s: State, tid: nat, a: Answer)
    requires Inv(s) && s.mapMade && CanGo(s, tid, a) && s.threads[tid].pc == CancelLookup("")
    ensures Step(s.threads[tid], s.now, a).pc.Ended?
    ensures GoNext(s, tid, a).timers == s.timers
  {
  }

  // ---------------------------------------------------------------- a lock that leaks

  /** The lock is held by a goroutine that has panicked and been recovered. */
  ghost predicate Wedged(s: State) {
    && s.lock.Some? && s.lock.value < |s.threads|
    && s.threads[s.lock.value].pc.Panicked?
    && BlockOk(s)
  }

  /** Steps that need TimerLock: submissions, re-arms and table lookups. */
  predicate NeedsLock(pc: Pc) {
    pc.Submit? || pc.RemedySubmit? || pc.Rearm? || pc.CancelLookup? || pc.CancelRead?
  }

  /** The steps that leak the lock, all of a reconcile goroutine: the re-arm of a reconciler built
      without its map, and the parsing of a template, the check's or the remedy's, that decodes to
      nothing. */
  predicate Leaks(s: State, tid: nat, a: Answer)
    requires CanGo(s, tid, a)
  {
    var t := s.threads[tid];
    && t.origin.Reconcile?
    && ((t.pc.RearmStart? && !s.mapMade)
        || (t.pc.Submit? && (t.hc.spec.workflow.resource.None? || a.decoded.NilMap?))
        || (t.pc.RemedySubmit? && t.hc.spec.remedyWorkflow.resource.Some? && a.decoded.NilMap?))
  }

  /** In any state a run can reach, an action leaks the lock if and only if it is one of them. */
  lemma LeaksExactly(s: State, a: Action)
    requires Inv(s) && !Wedged(s) && Enabled(s, a)
    ensures Wedged(Next(s, a)) <==> a.Go? && Leaks(s, a.tid, a.answer)
  {
    if a.Go? {
      hide Step, Effect, Answerable, GoNext;
      PanickedIsStuck(s, a.tid, a.answer);
      GoKeepsInv(s, a.tid, a.answer);
      if NeedsLock(s.threads[a.tid].pc) || s.threads[a.tid].pc.RearmStart? {
        LockStepLeaks(s, a.tid, a.answer);
      } else {
        OtherStepKeepsLock(s, a.tid, a.answer);
      }
    }
  }

  lemma LockStepLeaks(s: State, tid: nat, a: Answer)
    requires Inv(s) && !Wedged(s) && CanGo(s, tid, a)
    requires NeedsLock(s.threads[tid].pc) || s.threads[tid].pc.RearmStart?
    ensures Wedged(GoNext(s, tid, a)) <==> Leaks(s, tid, a)
  {
    hide Step, Effect, Answerable, Core, NamesOk;
    var t := s.threads[tid];
    var t' := Step(t, s.now, a);
    StepFollows(t, s.now, a);
    LockFreeOrHeld(s, tid, a);
    BlockStays(s, tid, a);
    if t.pc.Submit? || t.pc.RemedySubmit? {
      SubmitLeaks(s, tid, a);
    } else if t.pc.RearmStart? {
      RearmStartLeaks(s, tid, a);
    } else if t.pc.Rearm? {
      RearmEffect(s, tid, a);
    } else {
      MostEffectsAreQuiet(s, tid, a);
    }
  }

  lemma BlockStays(s: State, tid: nat, a: Answer)
    requires Inv(s) && CanGo(s, tid, a)
    ensures BlockOk(GoNext(s, tid, a))
  {
    GoKeepsInv(s, tid, a);
  }

  lemma LockFreeOrHeld(s: State, tid: nat, a: Answer)
    requires Inv(s) && CanGo(s, tid, a)
    ensures NeedsLock(s.threads[tid].pc) ==> s.lock.None?
    ensures s.threads[tid].pc.RearmStart? ==> s.lock == Some(tid)
  {
  }

  lemma RearmStartLeaks(s: State, tid: nat, a: Answer)
    requires CanGo(s, tid, a) && s.threads[tid].pc.RearmStart?
    ensures Effect(s, tid, s.threads[tid], a).lock == if s.mapMade then None else s.lock
    ensures Step(s.threads[tid], s.now, a).pc.Panicked? <==> !s.mapMade
  {
    hide StepPoll, StepRemedyPoll, StepDecide, StepSubmit, StepRemedySubmit, StepRbac, StepWriteGet, StepWritePut;
    hide StepLast;
  }

  lemma SubmitLeaks(s: State, tid: nat, a: Answer)
    requires CanGo(s, tid, a) && (s.threads[tid].pc.Submit? || s.threads[tid].pc.RemedySubmit?)
    ensures var t := s.threads[tid];
            var leaks := if t.pc.Submit? then t.hc.spec.workflow.resource.None? || a.decoded.NilMap?
                         else t.hc.spec.remedyWorkflow.resource.Some? && a.decoded.NilMap?;
            && Effect(s, tid, t, a).lock == (if leaks then Some(tid) else None)
            && (Step(t, s.now, a).pc.Panicked? <==> leaks)
  {
    hide StepPoll, StepRemedyPoll, StepDecide, StepRbac, StepWriteGet, StepWritePut, StepLast;
  }

  lemma OtherStepKeepsLock(s: State, tid: nat, a: Answer)
    requires Inv(s) && !Wedged(s) && CanGo(s, tid, a)
    requires !NeedsLock(s.threads[tid].pc) && !s.threads[tid].pc.RearmStart?
    ensures !Wedged(GoNext(s, tid, a))
  {
    hide Step, Answerable;
    PanickedIsStuck(s, tid, a);
  }

  /** A reconciler built without its timer map leaks the lock at its first re-arm. */
  lemma UnmadeMapWedges(s: State, tid: nat, a: Answer)
    requires Inv(s) && !s.mapMade && CanGo(s, tid, a)
    requires s.threads[tid].pc.RearmStart? && s.threads[tid].origin.Reconcile?
    ensures Wedged(GoNext(s, tid, a))
  {
  }

  /** So does a remedy whose template decodes to nothing. */
  lemma EmptyRemedyTemplateWedges(s: State, tid: nat, a: Answer)
    requires Inv(s) && CanGo(s, tid, a) && s.threads[tid].pc.RemedySubmit? && s.threads[tid].origin.Reconcile?
    requires s.threads[tid].hc.spec.remedyWorkflow.resource.Some? && a.decoded.NilMap?
    ensures Wedged(GoNext(s, tid, a))
  {
  }

  /** So does a health check whose template decodes to nothing. */
  lemma EmptyTemplateWedges(s: State, tid: nat, a: Answer)
    requires Inv(s) && CanGo(s, tid, a) && s.threads[tid].pc.Submit? && s.threads[tid].origin.Reconcile?
    requires a.decoded.NilMap?
    ensures Wedged(GoNext(s, tid, a))
  {
  }

  /** From then on nothing is submitted, re-armed or cancelled until the process dies: every
      action either kills the process or leaves the lock leaked. */
  lemma WedgedUntilTheProcessDies(s: State, a: Action)
    requires Wedged(s) && Enabled(s, a)
    ensures Next(s, a) == Crashed(s) || Next(s, a).threads == [] || Wedged(Next(s, a))
    ensures a.Go? ==> !NeedsLock(s.threads[a.tid].pc)
  {
    if a.Go? {
      WedgedGo(s, a.tid, a.answer);
    }
  }

  /** The process dies by a crash, or by a panic in a timer goroutine. */
  predicate Dies(s: State, a: Action)
    requires Enabled(s, a)
  {
    || a.Crash?
    || (a.Go? && s.threads[a.tid].origin.Timer? && Step(s.threads[a.tid], s.now, a.answer).pc.Panicked?)
  }

  ghost predicate Survives(s: State, run: seq<Action>)
    requires ValidRun(s, run)
    decreases |run|
  {
    run == [] || (!Dies(s, run[0]) && Survives(Next(s, run[0]), run[1..]))
  }

  /** For as long as the process lives, however long that is: the lock stays leaked, nothing is
      submitted, for any check, and no timer is put into the table. */
  lemma {:induction false} WedgedForGood(s: State, run: seq<Action>)
    requires Wedged(s) && ValidRun(s, run) && Survives(s, run)
    ensures Wedged(Exec(s, run))
    ensures Exec(s, run).submitted == s.submitted && Exec(s, run).table == s.table
    ensures |Exec(s, run).timers| == |s.timers|
    decreases |run|
  {
    hide Wedged, Enabled, Next, Dies;
    if run != [] {
      WedgedStep(s, run[0]);
      WedgedForGood(Next(s, run[0]), run[1..]);
    }
  }

  lemma WedgedStep(s: State, a: Action)
    requires Wedged(s) && Enabled(s, a) && !Dies(s, a)
    ensures var s' := Next(s, a);
            Wedged(s') && s'.submitted == s.submitted && s'.table == s.table && |s'.timers| == |s.timers|
  {
    if a.Go? {
      WedgedGo(s, a.tid, a.answer);
      WedgedEffect(s, a.tid, a.answer);
      hide Step, Effect, Answerable;
    }
  }

  lemma WedgedEffect(s: State, tid: nat, a: Answer)
    requires Wedged(s) && CanGo(s, tid, a)
    ensures var s' := Effect(s, tid, s.threads[tid], a);
            s'.submitted == s.submitted && s'.table == s.table && |s'.timers| == |s.timers|
  {
    PanickedIsStuck(s, tid, a);
  }

  lemma WedgedGo(s: State, tid: nat, a: Answer)
    requires Wedged(s) && CanGo(s, tid, a)
    ensures GoNext(s, tid, a).threads == [] || Wedged(GoNext(s, tid, a))
    ensures !NeedsLock(s.threads[tid].pc)
  {
    hide Step, Effect, Answerable;
    PanickedIsStuck(s, tid, a);
    StepFollows(s.threads[tid], s.now, a);
    WedgedBlocks(s, tid, a);
    var pc := s.threads[tid].pc;
    if pc.CancelStop? {
      StopTakesNoLock(s, tid, a);
    } else {
      MostEffectsAreQuiet(s, tid, a);
    }
  }

  lemma WedgedBlocks(s: State, tid: nat, a: Answer)
    requires Wedged(s) && CanGo(s, tid, a)
    ensures !NeedsLock(s.threads[tid].pc) && !s.threads[tid].pc.RearmStart?
  {
    PanickedIsStuck(s, tid, a);
  }

  lemma StopTakesNoLock(s: State, tid: nat, a: Answer)
    requires CanGo(s, tid, a) && s.threads[tid].pc.CancelStop?
    ensures Effect(s, tid, s.threads[tid], a).lock == s.lock
  {
  }
}
