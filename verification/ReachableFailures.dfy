/** Inputs, from the start of the system, of failures that TimerSafety and Deletion characterise. */
module ReachableFailures {
  import opened HealthChecks
  import opened StatusRules
  import opened Goroutines
  import opened Machine
  import opened Spacing
  import opened SerialRuns
  import opened Episodes
  import TimerSafety
  import Deletion
  import RbacNames
  import Templates

  // ---------------------------------------------------------------- a leaked lock

  /** An undisturbed episode up to the block under the lock, with or without a timer map. */
  lemma ToTheBlock(s: State, tid: nat, key: Key, wf: string) returns (run: seq<Action>)
    requires Free(s, tid, key) && s.threads[tid].pc.Submit? && s.threads[tid].hc.spec.workflow.resource.Some?
    requires wf != "" && wf !in s.submitted
    ensures Good(s, run, key)
    ensures var s' := Exec(s, run);
            && s'.mapMade == s.mapMade && |s'.threads| == |s.threads|
            && s'.threads[tid].pc.RearmStart? && s'.threads[tid].origin == s.threads[tid].origin
  {
    hide Next, Enabled, SpacedStep, SpacedRun, SerialRun, Templates.ParseWorkflow, RecordSuccess;
    var submit, watch := Go(tid, Submission(Some(wf), TEMPLATE)), Go(tid, Budget(1));
    var pass := Go(tid, Saw(Found(Passed, "")));
    Submits(s, tid, key, wf);
    var s1 := Next(s, submit);
    Watches(s1, tid, key);
    var s2 := Next(s1, watch);
    Passes(s2, tid, key);
    var s3 := Next(s2, pass);
    run := WritesToTheBlock(s3, tid, key);
    Fold(s2, pass, run, key);
    Fold(s1, watch, [pass] + run, key);
    Fold(s, submit, [watch] + ([pass] + run), key);
    run := [submit] + ([watch] + ([pass] + run));
  }

  lemma WritesToTheBlock(s: State, tid: nat, key: Key) returns (run: seq<Action>)
    requires Free(s, tid, key) && s.threads[tid].pc.WriteGet? && s.threads[tid].pc.write.Final?
    ensures Good(s, run, key)
    ensures var s' := Exec(s, run);
            && s'.mapMade == s.mapMade && |s'.threads| == |s.threads|
            && s'.threads[tid].pc.RearmStart? && s'.threads[tid].origin == s.threads[tid].origin
  {
    hide Next, Enabled, SpacedStep;
    var read := Go(tid, Fetched(CopyOf(s.store[key]), s.store[key].rv));
    Reads(s, tid, key);
    var s1 := Next(s, read);
    Writes(s1, tid, key);
    var s2 := Next(s1, Go(tid, Done));
    var stop := Go(tid, Entry(TableEntry(s2.table, key.name)));
    StopsOld(s2, tid, key);
    Fold(s2, stop, [], key);
    Fold(s1, Go(tid, Done), [stop] + [], key);
    Fold(s, read, [Go(tid, Done)] + ([stop] + []), key);
    run := [read] + ([Go(tid, Done)] + ([stop] + []));
  }

  /** One more step of a run. */
  lemma OneMore(s: State, run: seq<Action>, a: Action)
    requires ValidRun(s, run) && Enabled(Exec(s, run), a)
    ensures ValidRun(s, run + [a]) && Exec(s, run + [a]) == Next(Exec(s, run), a)
  {
    hide Next, Enabled;
    RunCons(Exec(s, run), a, []);
    RunConcat(s, run, [a] + []);
    assert [a] + [] == [a];
  }

  /** The reconciler that cmd/main.go builds: from the start of the system at any instant, for every
      runnable check, a run in which everything goes well and that ends with the lock leaked. */
  lemma UnmadeMapLeaks(start: Time, key: Key, spec: Spec) returns (run: seq<Action>)
    requires key.name != "" && Runnable(spec) && Scheduled(spec)
    ensures ValidRun(Init(start, false), run) && TimerSafety.Wedged(Exec(Init(start, false), run))
  {
    var s0, s := Init(start, false), At(start, false, key, spec, RbacNames.Renamed(Edited(spec)), Submit);
    var first := Starting(start, false, key, spec);
    SubmitIsClear(start, false, key, spec);
    assert s.threads[0].origin.Reconcile? && !s.mapMade && |s.threads| == 1;
    var episode := ToTheBlock(s, 0, key, "first");
    hide At, Init, SpacedRun, SerialRun, Exec, Free, Runnable, Scheduled, TimerSafety.Wedged;
    Concat(s0, first, episode, key);
    var s' := Exec(s0, first + episode);
    BlockLeaks(start, first + episode);
    OneMore(s0, first + episode, Go(0, Broken));
    run := first + episode + [Go(0, Broken)];
  }

  lemma BlockLeaks(start: Time, run: seq<Action>)
    requires ValidRun(Init(start, false), run)
    requires var s := Exec(Init(start, false), run);
             0 < |s.threads| && s.threads[0].pc.RearmStart? && s.threads[0].origin.Reconcile? && !s.mapMade
    ensures var s := Exec(Init(start, false), run);
            Enabled(s, Go(0, Broken)) && TimerSafety.Wedged(Next(s, Go(0, Broken)))
  {
    TimerSafety.InitOk(start, false);
    TimerSafety.RunKeepsInv(Init(start, false), run);
    TimerSafety.UnmadeMapWedges(Exec(Init(start, false), run), 0, Broken);
    hide TimerSafety.Inv, TimerSafety.Wedged, Step, GoNext, Effect;
  }

  /** A template that decodes to nothing: the same, however the reconciler was built, before anything
      is submitted. */
  lemma EmptyTemplateLeaks(start: Time, made: bool, key: Key, spec: Spec) returns (run: seq<Action>)
    requires key.name != "" && Runnable(spec) && Scheduled(spec)
    ensures ValidRun(Init(start, made), run) && TimerSafety.Wedged(Exec(Init(start, made), run))
    ensures Exec(Init(start, made), run).submitted == {}
  {
    var s := At(start, made, key, spec, RbacNames.Renamed(Edited(spec)), Submit);
    var a := Go(0, Submission(None, Templates.NilMap));
    run := Starting(start, made, key, spec);
    TimerSafety.InitOk(start, made);
    TimerSafety.RunKeepsInv(Init(start, made), run);
    TimerSafety.EmptyTemplateWedges(s, 0, a.answer);
    LeaksUnsubmitted(start, made, key, spec);
    hide At, Init, SpacedRun, SerialRun, Exec, TimerSafety.Wedged, TimerSafety.Inv;
    OneMore(Init(start, made), run, a);
    run := run + [a];
  }

  lemma LeaksUnsubmitted(start: Time, made: bool, key: Key, spec: Spec)
    ensures var s := At(start, made, key, spec, RbacNames.Renamed(Edited(spec)), Submit);
            var a := Go(0, Submission(None, Templates.NilMap));
            Enabled(s, a) && Next(s, a).submitted == {}
  {
    hide Step;
  }

  // ---------------------------------------------------------------- a silenced namesake

  /** After a first run of `key`, a namesake is created and removed, and the reconcile that follows
      does not find it. */
  function Missed(s: State, gone: Key): State
    requires |s.threads| == 1
  {
    s.(nextRv := s.nextRv + 1,
       threads := [s.threads[0].(pc := Ended), NewThread(gone, Reconcile).(pc := CancelLookup(gone.name))])
  }

  lemma Misses(s: State, gone: Key, spec: Spec) returns (run: seq<Action>)
    requires |s.threads| == 1 && s.threads[0].pc.LastGet? && gone !in s.store && gone.name != ""
    ensures ValidRun(s, run) && Exec(s, run) == Missed(s, gone)
    ensures forall i :: 0 <= i < |run| ==> !run[i].Crash? && !(run[i].UserRemove? && run[i].key != gone)
  {
    var s1 := s.(threads := [s.threads[0].(pc := Ended)]);
    var s2 := s1.(store := s.store[gone := Object(s.nextRv, spec, NEW_STATUS, false, [])], nextRv := s.nextRv + 1);
    var s3 := s1.(nextRv := s.nextRv + 1);
    var s4 := s3.(threads := s3.threads + [NewThread(gone, Reconcile)]);
    EndsQuietly(s, s1);
    ComesAndGoes(s1, gone, spec, s2, s3, s4);
    FindsNothing(s4, gone, Missed(s, gone));
    hide Next, Enabled;
    RunCons(s4, Go(1, NotFound), []);
    RunCons(s3, StartReconcile(gone), [Go(1, NotFound)] + []);
    RunCons(s2, UserRemove(gone), [StartReconcile(gone)] + ([Go(1, NotFound)] + []));
    run := [UserRemove(gone)] + ([StartReconcile(gone)] + ([Go(1, NotFound)] + []));
    RunCons(s1, UserCreate(gone, spec), run);
    RunCons(s, Go(0, Broken), [UserCreate(gone, spec)] + run);
    run := [Go(0, Broken)] + ([UserCreate(gone, spec)] + run);
  }

  lemma ComesAndGoes(s1: State, gone: Key, spec: Spec, s2: State, s3: State, s4: State)
    requires gone !in s1.store && gone.name != ""
    requires s2
             == s1.(store := s1.store[gone := Object(s1.nextRv, spec, NEW_STATUS, false, [])], nextRv := s1.nextRv + 1)
    requires s3 == s1.(nextRv := s1.nextRv + 1)
    requires s4 == s3.(threads := s3.threads + [NewThread(gone, Reconcile)])
    ensures Enabled(s1, UserCreate(gone, spec)) && Next(s1, UserCreate(gone, spec)) == s2
    ensures Enabled(s2, UserRemove(gone)) && Next(s2, UserRemove(gone)) == s3
    ensures Enabled(s3, StartReconcile(gone)) && Next(s3, StartReconcile(gone)) == s4
  {
    assert s2.store - {gone} == s1.store;
  }

  lemma EndsQuietly(s: State, s': State)
    requires |s.threads| == 1 && s.threads[0].pc.LastGet? && s' == s.(threads := [s.threads[0].(pc := Ended)])
    ensures Enabled(s, Go(0, Broken)) && Next(s, Go(0, Broken)) == s'
  {
    hide StepPoll, StepRemedyPoll, StepDecide, StepSubmit, StepRemedySubmit, StepRbac, StepWriteGet, StepWritePut;
  }

  lemma FindsNothing(s: State, gone: Key, s': State)
    requires |s.threads| == 2 && s.threads[1] == NewThread(gone, Reconcile) && gone !in s.store
    requires s' == s.(threads := [s.threads[0], NewThread(gone, Reconcile).(pc := CancelLookup(gone.name))])
    ensures Enabled(s, Go(1, NotFound)) && Next(s, Go(1, NotFound)) == s'
  {
    hide StepPoll, StepRemedyPoll, StepDecide, StepSubmit, StepRemedySubmit, StepRbac, StepWriteGet, StepWritePut;
    assert Next(s, Go(1, NotFound)).threads == s'.threads;
  }

  lemma FinishedIsBetween(start: Time, key: Key, spec: Spec)
    requires Runnable(spec)
    ensures var s := Finished(At(start, true, key, spec, RbacNames.Renamed(Edited(spec)), Submit), 0, key, "first");
            && |s.threads| == 1 && s.threads[0].pc.LastGet? && s.store.Keys == {key} && s.mapMade && s.lock.None?
            && !s.store[key].deleting && s.store[key].spec == spec
            && |s.timers| == 1 && s.timers[0].live && s.timers[0].key == key
  {
    hide RecordSuccess, Templates.ParseWorkflow;
  }

  /** From the start of the system at any instant, for every runnable check and every other check of
      its name: a run in which the check runs once, everything goes well and its timer is pending; the
      other is created and deleted; and from then on the check, stored as ever, is not run again. */
  lemma NamesakeIsSilenced(start: Time, key: Key, spec: Spec, gone: Key)
      returns (before: seq<Action>, after: seq<Action>)
    requires key.name != "" && Runnable(spec) && Scheduled(spec) && gone != key && gone.name == key.name
    ensures ValidRun(Init(start, true), before)
    ensures var s := Exec(Init(start, true), before);
            && |s.timers| == 1 && s.timers[0].live && s.timers[0].key == key
            && ValidRun(s, after)
            && forall i :: 0 <= i < |after| ==> !after[i].Crash? && !(after[i].UserRemove? && after[i].key == key)
    ensures var s := Exec(Exec(Init(start, true), before), after);
            && key in s.store && s.store[key].spec == spec && !s.store[key].deleting
            && forall later :: ValidRun(s, later) && Deletion.Reconciles(later, key) == 0 ==>
                 Deletion.Activity(s, later, key) == 0
  {
    var s0, s1 := Init(start, true), At(start, true, key, spec, RbacNames.Renamed(Edited(spec)), Submit);
    var s2 := Finished(s1, 0, key, "first");
    var first := Starting(start, true, key, spec);
    SubmitIsClear(start, true, key, spec);
    var episode := Episode(s1, 0, key, "first");
    FinishedIsBetween(start, key, spec);
    hide At, Init, Finished, SpacedRun, SerialRun, Exec, Free, Clear, Runnable, Scheduled, ValidRun;
    Concat(s0, first, episode, key);
    before := first + episode;
    after := SilencedAfter(start, before, s2, key, gone, spec);
  }

  lemma SilencedAfter(start: Time, before: seq<Action>, s: State, key: Key, gone: Key, spec: Spec)
      returns (after: seq<Action>)
    requires ValidRun(Init(start, true), before) && Exec(Init(start, true), before) == s
    requires key != gone && gone.name == key.name != ""
    requires |s.threads| == 1 && s.threads[0].pc.LastGet? && s.store.Keys == {key} && s.mapMade && s.lock.None?
    ensures ValidRun(s, after)
    ensures forall i :: 0 <= i < |after| ==> !after[i].Crash? && !(after[i].UserRemove? && after[i].key == key)
    ensures var s' := Exec(s, after);
            && s'.store == s.store
            && forall later :: ValidRun(s', later) && Deletion.Reconciles(later, key) == 0 ==>
                 Deletion.Activity(s', later, key) == 0
  {
    var misses := Misses(s, gone, spec);
    TimerSafety.InitOk(start, true);
    TimerSafety.RunKeepsInv(Init(start, true), before);
    TimerSafety.RunKeepsInv(s, misses);
    hide Exec, ValidRun, TimerSafety.Inv, Init;
    var silences := Deletion.DeletionSilencesNamesakes(Missed(s, gone), 1, key);
    RunConcat(s, misses, silences);
    after := misses + silences;
  }
}
