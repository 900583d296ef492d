/** Status writes that meet conflicts: edits of the object between a read and its write, any number
    of times. Four are survived and the fifth is not. */
module RetriedWrites {
  import opened HealthChecks
  import opened StatusRules
  import opened Goroutines
  import opened Machine
  import opened Spacing
  import opened SerialRuns
  import opened Episodes
  import RbacNames
  import Templates

  /** The object after an edit, with its goroutine at `pc`. */
  function EditedAt(s: State, tid: nat, key: Key, edit: Spec, pc: Pc): State
    requires tid < |s.threads| && key in s.store
  {
    Moved(s.(store := s.store[key := PutMain(s.store[key], edit, s.nextRv)], nextRv := s.nextRv + 1), tid,
          s.threads[tid].(pc := pc))
  }

  predicate AtFinalWrite(s: State, tid: nat, left: nat)
    requires tid < |s.threads|
  {
    s.threads[tid].pc == WriteGet(Final, left)
  }

  lemma EditsQuietly(s: State, key: Key, edit: Spec)
    requires key in s.store && OneBusy(s, key)
    ensures var a := UserEdit(key, edit);
            Enabled(s, a) && SpacedStep(s, a, key)
            && Next(s, a) == s.(store := s.store[key := PutMain(s.store[key], edit, s.nextRv)], nextRv := s.nextRv + 1)
  {
  }

  lemma MeetsConflict(s: State, tid: nat, key: Key, rv: nat, left: nat)
    requires Clear(s, tid, key) && s.threads[tid].pc == WritePut(Final, left, rv) && s.store[key].rv != rv
    ensures Enabled(s, Go(tid, Conflict))
    ensures Next(s, Go(tid, Conflict))
            == Moved(s, tid, s.threads[tid].(pc := if left > 1 then WriteGet(Final, left - 1) else CancelLookup("")))
    ensures left > 1 ==> SpacedStep(s, Go(tid, Conflict), key)
  {
    hide StepPoll, StepRemedyPoll, StepDecide, StepSubmit, StepRemedySubmit, StepRbac, StepLast;
    if left > 1 { SoloStep(s, tid, Conflict, key); }
  }

  function AfterConflict(left: nat): Pc {
    if left > 1 then WriteGet(Final, left - 1) else CancelLookup("")
  }

  /** One round: read, edited by a user, refused. */
  lemma Round(s: State, tid: nat, key: Key, edit: Spec, left: nat) returns (run: seq<Action>)
    requires Clear(s, tid, key) && AtFinalWrite(s, tid, left) && left > 0 && s.store[key].rv < s.nextRv
    ensures ValidRun(s, run) && Exec(s, run) == EditedAt(s, tid, key, edit, AfterConflict(left))
    ensures left > 1 ==> Good(s, run, key) && Clear(Exec(s, run), tid, key)
  {
    var read := Go(tid, Fetched(CopyOf(s.store[key]), s.store[key].rv));
    var user := UserEdit(key, edit);
    var put := Go(tid, Conflict);
    RoundSteps(s, tid, key, edit, left);
    var s1 := Next(s, read);
    var s2 := Next(s1, user);
    if left > 1 { StaysClear(s, tid, key, edit, left); }
    hide Next, Enabled, SpacedStep, EditedAt, AfterConflict, Clear;
    if left > 1 {
      Fold(s2, put, [], key);
      Fold(s1, user, [put] + [], key);
      Fold(s, read, [user] + ([put] + []), key);
    } else {
      RunCons(s2, put, []);
      RunCons(s1, user, [put] + []);
      RunCons(s, read, [user] + ([put] + []));
    }
    run := [read] + ([user] + ([put] + []));
  }

  lemma StaysClear(s: State, tid: nat, key: Key, edit: Spec, left: nat)
    requires Clear(s, tid, key) && left > 1
    ensures Clear(EditedAt(s, tid, key, edit, AfterConflict(left)), tid, key)
  {
  }

  lemma RoundSteps(s: State, tid: nat, key: Key, edit: Spec, left: nat)
    requires Clear(s, tid, key) && AtFinalWrite(s, tid, left) && left > 0 && s.store[key].rv < s.nextRv
    ensures var read := Go(tid, Fetched(CopyOf(s.store[key]), s.store[key].rv));
            var user := UserEdit(key, edit);
            var put := Go(tid, Conflict);
            && Enabled(s, read) && SpacedStep(s, read, key)
            && var s1 := Next(s, read);
               && Enabled(s1, user) && SpacedStep(s1, user, key)
               && var s2 := Next(s1, user);
                  && Enabled(s2, put) && (left > 1 ==> SpacedStep(s2, put, key))
                  && Next(s2, put) == EditedAt(s, tid, key, edit, AfterConflict(left))
  {
    hide Next, Enabled, SpacedStep, OneBusy;
    var read := Go(tid, Fetched(CopyOf(s.store[key]), s.store[key].rv));
    Reads(s, tid, key);
    var s1 := Next(s, read);
    FreeIsOneBusy(s1, tid, key);
    EditsQuietly(s1, key, edit);
    var s2 := Next(s1, UserEdit(key, edit));
    MeetsConflict(s2, tid, key, s.store[key].rv, left);
    SameEdit(s, tid, key, edit, Next(s2, Go(tid, Conflict)), AfterConflict(left));
  }

  lemma FreeIsOneBusy(s: State, tid: nat, key: Key)
    requires Free(s, tid, key)
    ensures OneBusy(s, key)
  {
  }

  lemma SameEdit(s: State, tid: nat, key: Key, edit: Spec, s': State, pc: Pc)
    requires tid < |s.threads| && key in s.store
    requires s' == s.(store := s.store[key := PutMain(s.store[key], edit, s.nextRv)], nextRv := s.nextRv + 1,
                      threads := s'.threads)
    requires s'.threads == s.threads[tid := s.threads[tid].(pc := pc)]
    ensures s' == EditedAt(s, tid, key, edit, pc)
  {
  }

  /** What the last write of an episode leaves: the status and what was unsaved are stored, and a timer
      is pending. */
  ghost predicate Persisted(s: State, s': State, tid: nat, key: Key)
    requires tid < |s.threads| && key in s.store
  {
    var t := s.threads[tid];
    && key in s'.store && s'.store[key].status == Stored(t.hc.status)
    && s'.store[key].history == s.store[key].history + t.unsaved
    && s'.lock.None? && s'.timers != []
    && s'.timers[|s'.timers| - 1] == RepeatTimer(key, s.now + Interval(t), true)
    && tid < |s'.threads| && s'.threads[tid] == Return(t.(unsaved := []))
  }

  lemma {:induction false} StoresThroughConflicts(s: State, tid: nat, key: Key, edits: seq<Spec>, left: nat)
      returns (run: seq<Action>)
    requires Clear(s, tid, key) && AtFinalWrite(s, tid, left) && |edits| < left && s.store[key].rv < s.nextRv
    ensures Good(s, run, key) && Persisted(s, Exec(s, run), tid, key)
    decreases |edits|
  {
    if edits == [] {
      run := Store(s, tid, key);
    } else {
      var round := Round(s, tid, key, edits[0], left);
      var s1 := Exec(s, round);
      AfterRound(s, tid, key, edits[0], left);
      hide SpacedRun, SerialRun, Clear, Persisted, EditedAt;
      var rest := StoresThroughConflicts(s1, tid, key, edits[1..], left - 1);
      Concat(s, round, rest, key);
      PersistedAlike(s, s1, Exec(s1, rest), tid, key, edits[0], left);
      run := round + rest;
    }
  }

  lemma AfterRound(s: State, tid: nat, key: Key, edit: Spec, left: nat)
    requires Clear(s, tid, key) && left > 1
    ensures var s1 := EditedAt(s, tid, key, edit, WriteGet(Final, left - 1));
            key in s1.store && tid < |s1.threads| && AtFinalWrite(s1, tid, left - 1) && s1.store[key].rv < s1.nextRv
  {
  }

  lemma PersistedAlike(s: State, s1: State, s2: State, tid: nat, key: Key, edit: Spec, left: nat)
    requires Clear(s, tid, key) && left > 1 && s1 == EditedAt(s, tid, key, edit, WriteGet(Final, left - 1))
    requires tid < |s1.threads| && key in s1.store && Persisted(s1, s2, tid, key)
    ensures Persisted(s, s2, tid, key)
  {
  }

  // ---------------------------------------------------------------- from the start

  /** A first run up to its status write. */
  lemma ToTheWrite(start: Time, key: Key, spec: Spec, wf: string) returns (run: seq<Action>)
    requires key.name != "" && Runnable(spec) && Scheduled(spec) && wf != ""
    ensures Good(Init(start, true), run, key)
    ensures var s := Exec(Init(start, true), run);
            && Clear(s, 0, key) && AtFinalWrite(s, 0, 5) && s.store[key].rv < s.nextRv
            && s.store[key].history == [] && s.store[key].status == NEW_STATUS && s.timers == [] && "" !in s.table
            && s.threads[0].unsaved == [RanOk(wf, start)] && s.threads[0].origin.Reconcile?
            && s.threads[0].hc.status.successCount == 1
  {
    var s := At(start, true, key, spec, RbacNames.Renamed(Edited(spec)), Submit);
    var first := Starting(start, true, key, spec);
    SubmitIsClear(start, true, key, spec);
    FreshStore(start, key, spec);
    var rest := ToTheWriteFrom(s, key, wf);
    hide At, Init, SpacedRun, SerialRun, Exec, Clear, Runnable, Scheduled;
    Concat(Init(start, true), first, rest, key);
    run := first + rest;
  }

  lemma FreshStore(start: Time, key: Key, spec: Spec)
    ensures var s := At(start, true, key, spec, RbacNames.Renamed(Edited(spec)), Submit);
            && s.now == start && key in s.store && s.store[key].rv < s.nextRv && s.store[key].history == []
            && s.store[key].status == NEW_STATUS && s.timers == [] && s.table == map[] && s.submitted == {}
            && |s.threads| == 1 && s.threads[0].pc.Submit? && s.threads[0].unsaved == []
            && s.threads[0].origin.Reconcile? && s.threads[0].hc.status == NEW_STATUS
  {
  }

  lemma ToTheWriteFrom(s: State, key: Key, wf: string) returns (run: seq<Action>)
    requires Clear(s, 0, key) && s.threads[0].pc.Submit? && s.threads[0].hc.spec.workflow.resource.Some?
    requires wf != "" && wf !in s.submitted && s.threads[0].unsaved == [] && s.threads[0].hc.status == NEW_STATUS
    ensures Good(s, run, key)
    ensures var s' := Exec(s, run);
            && Clear(s', 0, key) && AtFinalWrite(s', 0, 5)
            && s'.store == s.store && s'.nextRv == s.nextRv && s'.timers == s.timers && s'.table == s.table
            && s'.threads[0].unsaved == [RanOk(wf, s.now)] && s'.threads[0].origin == s.threads[0].origin
            && s'.threads[0].hc.status.successCount == 1
  {
    hide Next, Enabled, SpacedStep, Templates.ParseWorkflow;
    var submit, watch := Go(0, Submission(Some(wf), TEMPLATE)), Go(0, Budget(1));
    var pass := Go(0, Saw(Found(Passed, "")));
    Submits(s, 0, key, wf);
    var s1 := Next(s, submit);
    Watches(s1, 0, key);
    var s2 := Next(s1, watch);
    Passes(s2, 0, key);
    Fold(s2, pass, [], key);
    Fold(s1, watch, [pass] + [], key);
    Fold(s, submit, [watch] + ([pass] + []), key);
    run := [submit] + ([watch] + ([pass] + []));
  }

  /** From the start of the system at any instant, for every runnable check: whatever the users make of
      its spec, in up to four edits each of which makes the status write of the first run conflict, the
      run is stored and the timer is pending. */
  lemma FourConflictsAreSurvived(start: Time, key: Key, spec: Spec, edits: seq<Spec>) returns (run: seq<Action>)
    requires key.name != "" && Runnable(spec) && Scheduled(spec) && |edits| <= 4
    ensures Good(Init(start, true), run, key)
    ensures var s := Exec(Init(start, true), run);
            && key in s.store && s.store[key].history == [RanOk("first", start)]
            && s.store[key].status.successCount == 1
            && s.timers != [] && s.timers[|s.timers| - 1].live && s.timers[|s.timers| - 1].key == key
  {
    var first := ToTheWrite(start, key, spec, "first");
    var s := Exec(Init(start, true), first);
    var rest := StoresThroughConflicts(s, 0, key, edits, 5);
    hide SpacedRun, SerialRun, Clear, Init, Runnable, Scheduled;
    Concat(Init(start, true), first, rest, key);
    run := first + rest;
    assert [] + [RanOk("first", start)] == [RanOk("first", start)];
  }

  /** And a fifth loses it: the run is not stored, no timer is started, and the goroutine gives up. */
  lemma {:induction false} GivesUpAfter(s: State, tid: nat, key: Key, edits: seq<Spec>) returns (run: seq<Action>)
    requires Clear(s, tid, key) && edits != [] && AtFinalWrite(s, tid, |edits|) && s.store[key].rv < s.nextRv
    requires "" !in s.table
    ensures ValidRun(s, run)
    ensures var s' := Exec(s, run);
            && key in s'.store && s'.store[key].status == s.store[key].status
            && s'.store[key].history == s.store[key].history && s'.timers == s.timers
            && tid < |s'.threads| && s'.threads[tid].pc.Ended?
    decreases |edits|
  {
    var round := Round(s, tid, key, edits[0], |edits|);
    var s1 := Exec(s, round);
    if |edits| == 1 {
      var probe := Go(tid, Entry(None));
      ProbesNothing(s1, tid, key);
      hide Next, Enabled;
      RunCons(s1, probe, []);
      RunConcat(s, round, [probe] + []);
      run := round + ([probe] + []);
    } else {
      AfterRound(s, tid, key, edits[0], |edits|);
      hide SpacedRun, SerialRun, Next, Enabled;
      var rest := GivesUpAfter(s1, tid, key, edits[1..]);
      RunConcat(s, round, rest);
      run := round + rest;
    }
  }

  lemma ProbesNothing(s: State, tid: nat, key: Key)
    requires s.lock.None? && "" !in s.table && tid < |s.threads| && s.threads[tid].pc == CancelLookup("")
    ensures Enabled(s, Go(tid, Entry(None)))
    ensures Next(s, Go(tid, Entry(None))) == Moved(s, tid, s.threads[tid].(pc := Ended))
  {
    hide StepPoll, StepRemedyPoll, StepDecide, StepSubmit, StepRemedySubmit, StepRbac, StepWriteGet, StepWritePut;
  }

  lemma AFifthIsNot(start: Time, key: Key, spec: Spec, edits: seq<Spec>) returns (run: seq<Action>)
    requires key.name != "" && Runnable(spec) && Scheduled(spec) && |edits| == 5
    ensures ValidRun(Init(start, true), run)
    ensures var s := Exec(Init(start, true), run);
            && key in s.store && s.store[key].history == [] && s.store[key].status == NEW_STATUS && s.timers == []
            && |s.threads| > 0 && s.threads[0].pc.Ended?
  {
    var first := ToTheWrite(start, key, spec, "first");
    var s := Exec(Init(start, true), first);
    var rest := GivesUpAfter(s, 0, key, edits);
    hide SpacedRun, SerialRun, Clear, Init, Runnable, Scheduled;
    RunConcat(Init(start, true), first, rest);
    run := first + rest;
  }
}
