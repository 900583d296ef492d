/** Undisturbed episodes: what a run does when every call goes well, as an explicit sequence of
    actions from any state in which nothing stands in its way. Used to show that states other
    modules speak about can be reached. */
module Episodes {
  import opened HealthChecks
  import opened StatusRules
  import opened Goroutines
  import opened Machine
  import opened Spacing
  import opened SerialRuns
  import RbacNames
  import Templates

  ghost predicate Good(s: State, run: seq<Action>, key: Key) {
    ValidRun(s, run) && SpacedRun(s, run, key) && SerialRun(s, run, key)
  }

  /** The steps of a spaced run are those of a serial one. */
  lemma SpacedIsSerial(s: State, a: Action, key: Key)
    requires Enabled(s, a) && SpacedStep(s, a, key) && (a.UserCreate? ==> CreatesClean(s, a, key))
    ensures SerialStep(s, a, key)
  {
    hide Next, Answerable, Step;
  }

  lemma Fold(s: State, a: Action, rest: seq<Action>, key: Key)
    requires Enabled(s, a) && SpacedStep(s, a, key) && !a.UserCreate?
    requires Good(Next(s, a), rest, key)
    ensures Good(s, [a] + rest, key) && Exec(s, [a] + rest) == Exec(Next(s, a), rest)
  {
    hide Next, Enabled, SpacedStep, Good;
    FoldClean(s, a, rest, key);
  }

  lemma FoldClean(s: State, a: Action, rest: seq<Action>, key: Key)
    requires Enabled(s, a) && SpacedStep(s, a, key) && (a.UserCreate? ==> CreatesClean(s, a, key))
    requires Good(Next(s, a), rest, key)
    ensures Good(s, [a] + rest, key) && Exec(s, [a] + rest) == Exec(Next(s, a), rest)
  {
    SpacedIsSerial(s, a, key);
    hide Next, Enabled, SpacedStep, SerialStep, CreatesClean;
    assert ([a] + rest)[0] == a && ([a] + rest)[1..] == rest;
  }

  lemma {:induction false} Concat(s: State, first: seq<Action>, rest: seq<Action>, key: Key)
    requires Good(s, first, key) && Good(Exec(s, first), rest, key)
    ensures Good(s, first + rest, key) && Exec(s, first + rest) == Exec(Exec(s, first), rest)
    decreases |first|
  {
    hide Next, Enabled, SpacedStep, SerialStep;
    if first == [] {
      assert first + rest == rest;
    } else {
      Concat(Next(s, first[0]), first[1..], rest, key);
      assert (first + rest)[1..] == first[1..] + rest;
    }
  }

  predicate OnlySteps(run: seq<Action>) {
    forall i :: 0 <= i < |run| ==> run[i].Go?
  }

  /** No time passes. */
  predicate Instant(run: seq<Action>) {
    forall i :: 0 <= i < |run| ==> !run[i].Tick?
  }

  lemma {:induction false} InstantKeepsNow(s: State, run: seq<Action>)
    requires ValidRun(s, run) && Instant(run)
    ensures Exec(s, run).now == s.now
    decreases |run|
  {
    hide Step, Effect, Answerable;
    if run != [] { InstantKeepsNow(Next(s, run[0]), run[1..]); }
  }

  lemma KeepingConcat(first: seq<Action>, rest: seq<Action>, key: Key, interval: int)
    requires AllKeepInterval(first, key, interval) && (OnlySteps(rest) || AllKeepInterval(rest, key, interval))
    ensures AllKeepInterval(first + rest, key, interval)
  {
  }

  /** Nobody but `tid` is busy with the check. */
  ghost predicate Solo(s: State, tid: nat, key: Key) {
    && tid < |s.threads| && s.threads[tid].key == key
    && forall i :: 0 <= i < |s.threads| && i != tid ==> !BusyFor(s.threads[i], key)
  }

  function Moved(s: State, tid: nat, t: Thread): State
    requires tid < |s.threads|
  {
    s.(threads := s.threads[tid := t])
  }

  lemma SoloStep(s: State, tid: nat, a: Answer, key: Key)
    requires Solo(s, tid, key) && CanGo(s, tid, a) && !s.threads[tid].pc.Decide?
    requires Solo(GoNext(s, tid, a), tid, key)
    requires Busy(GoNext(s, tid, a).threads[tid].pc) || s.threads[tid].pc.RearmStart?
    requires GoNext(s, tid, a).threads[tid] == Step(s.threads[tid], s.now, a)
    ensures SpacedStep(s, Go(tid, a), key)
  {
    hide GoNext, Answerable, Step, Effect, Busy;
  }

  // ---------------------------------------------------------------- from the submission to the re-arm

  const TEMPLATE := Templates.Template(map["spec" := Templates.Fields(map[])])

  /** What stands in the way of an episode: nothing. */
  ghost predicate Clear(s: State, tid: nat, key: Key) {
    Free(s, tid, key) && s.mapMade
  }

  /** Nothing before the re-arm. */
  ghost predicate Free(s: State, tid: nat, key: Key) {
    && s.lock.None? && key in s.store && Solo(s, tid, key)
    && !s.threads[tid].hc.deleting
  }

  lemma Submits(s: State, tid: nat, key: Key, wf: string)
    requires Free(s, tid, key) && s.threads[tid].pc.Submit? && s.threads[tid].hc.spec.workflow.resource.Some?
    requires wf != "" && wf !in s.submitted
    ensures var a := Go(tid, Submission(Some(wf), TEMPLATE));
            var t := s.threads[tid];
            var read := Templates.SpecAfter(t.hc.spec, Templates.ParseWorkflow(t.hc.spec, TEMPLATE));
            && Enabled(s, a) && SpacedStep(s, a, key)
            && Next(s, a) == Moved(s.(submitted := s.submitted + {wf}), tid,
                                   t.(hc := t.hc.(spec := read), pc := WatchStart(wf)))
            && Free(Next(s, a), tid, key)
  {
    assert GoNext(s, tid, Submission(Some(wf), TEMPLATE)).threads[tid].pc.WatchStart?;
    SoloStep(s, tid, Submission(Some(wf), TEMPLATE), key);
  }

  lemma Watches(s: State, tid: nat, key: Key)
    requires Free(s, tid, key) && s.threads[tid].pc.WatchStart?
    ensures var a := Go(tid, Budget(1));
            var t := s.threads[tid];
            && Enabled(s, a) && SpacedStep(s, a, key)
            && Next(s, a) == Moved(s, tid, t.(pc := Poll(t.pc.wf, s.now, 1)))
            && Free(Next(s, a), tid, key)
  {
    SoloStep(s, tid, Budget(1), key);
  }

  lemma Passes(s: State, tid: nat, key: Key)
    requires Free(s, tid, key) && s.threads[tid].pc.Poll? && s.threads[tid].pc.left == 1 && s.threads[tid].pc.wf != ""
    ensures var a := Go(tid, Saw(Found(Passed, "")));
            var t := s.threads[tid];
            var wf := t.pc.wf;
            && Enabled(s, a) && SpacedStep(s, a, key)
            && Next(s, a) == Moved(s, tid, t.(
                 hc := t.hc.(status := RecordSuccess(t.hc.spec, t.hc.status, t.pc.began, s.now, wf)),
                 unsaved := t.unsaved + [RanOk(wf, s.now)],
                 pc := WriteGet(Final, ATTEMPTS)))
            && Free(Next(s, a), tid, key)
  {
    hide RecordSuccess;
    SoloStep(s, tid, Saw(Found(Passed, "")), key);
  }

  lemma Reads(s: State, tid: nat, key: Key)
    requires Free(s, tid, key) && s.threads[tid].pc.WriteGet?
    ensures var o := s.store[key];
            var a := Go(tid, Fetched(CopyOf(o), o.rv));
            var t := s.threads[tid];
            && Enabled(s, a) && SpacedStep(s, a, key)
            && Next(s, a) == Moved(s, tid, t.(pc := WritePut(t.pc.write, t.pc.left, o.rv)))
            && Free(Next(s, a), tid, key)
  {
    SoloStep(s, tid, Fetched(CopyOf(s.store[key]), s.store[key].rv), key);
  }

  lemma Writes(s: State, tid: nat, key: Key)
    requires Free(s, tid, key) && s.threads[tid].pc.WritePut? && s.threads[tid].pc.write.Final?
    requires s.threads[tid].pc.rv == s.store[key].rv
    ensures var a := Go(tid, Done);
            var t := s.threads[tid];
            && Enabled(s, a) && SpacedStep(s, a, key)
            && Next(s, a)
               == Moved(s.(store := s.store[key := PutStatus(s.store[key], t.hc.status, s.nextRv, t.unsaved)],
                           nextRv := s.nextRv + 1), tid, t.(unsaved := [], pc := Rearm))
            && Free(Next(s, a), tid, key)
  {
    SoloStep(s, tid, Done, key);
  }

  lemma StopsOld(s: State, tid: nat, key: Key)
    requires Free(s, tid, key) && s.threads[tid].pc.Rearm?
    ensures var entry := TableEntry(s.table, key.name);
            var a := Go(tid, Entry(entry));
            var t := s.threads[tid];
            && Enabled(s, a) && SpacedStep(s, a, key)
            && Next(s, a) == Moved(s.(timers := if entry.Some? then Cancelled(s.timers, entry.value) else s.timers,
                                      lock := Some(tid)), tid, t.(pc := RearmStart))
            && Solo(Next(s, a), tid, key)
  {
    SoloStep(s, tid, Entry(TableEntry(s.table, key.name)), key);
  }

  lemma StartsNew(s: State, tid: nat, key: Key)
    requires s.mapMade && Solo(s, tid, key) && s.threads[tid].pc.RearmStart?
    ensures var t := s.threads[tid];
            && Enabled(s, Go(tid, Done)) && SpacedStep(s, Go(tid, Done), key)
            && Next(s, Go(tid, Done))
               == Moved(s.(timers := s.timers + [RepeatTimer(key, s.now + Interval(t), true)],
                           table := s.table[key.name := |s.timers|], lock := None), tid, Return(t))
  {
    SoloStep(s, tid, Done, key);
  }

  /** The goroutine after an undisturbed episode. */
  function Ran(t: Thread, now: Time, wf: string): Thread {
    var read := Templates.SpecAfter(t.hc.spec, Templates.ParseWorkflow(t.hc.spec, TEMPLATE));
    Return(t.(hc := t.hc.(spec := read, status := RecordSuccess(read, t.hc.status, now, now, wf)), unsaved := []))
  }

  /** The state after an undisturbed episode: the result stored, the old timer of the name stopped,
      the new one started and entered in the table. */
  function Finished(s: State, tid: nat, key: Key, wf: string): State
    requires tid < |s.threads| && key in s.store
  {
    var t := s.threads[tid];
    var t' := Ran(t, s.now, wf);
    var entry := TableEntry(s.table, key.name);
    Moved(s.(submitted := s.submitted + {wf},
             store := s.store[key := PutStatus(s.store[key], t'.hc.status, s.nextRv, t.unsaved + [RanOk(wf, s.now)])],
             nextRv := s.nextRv + 1,
             timers := (if entry.Some? then Cancelled(s.timers, entry.value) else s.timers)
                       + [RepeatTimer(key, s.now + Interval(t'), true)],
             table := s.table[key.name := |s.timers|]), tid, t')
  }

  lemma Episode(s: State, tid: nat, key: Key, wf: string) returns (run: seq<Action>)
    requires Clear(s, tid, key) && s.threads[tid].pc.Submit? && s.threads[tid].hc.spec.workflow.resource.Some?
    requires wf != "" && wf !in s.submitted
    ensures Good(s, run, key) && OnlySteps(run) && Exec(s, run) == Finished(s, tid, key, wf)
  {
    hide Next, Enabled, SpacedStep, SpacedRun, SerialRun, Templates.ParseWorkflow, RecordSuccess;
    var submit, watch := Go(tid, Submission(Some(wf), TEMPLATE)), Go(tid, Budget(1));
    var pass := Go(tid, Saw(Found(Passed, "")));
    Submits(s, tid, key, wf);
    var s1 := Next(s, submit);
    Watches(s1, tid, key);
    var s2 := Next(s1, watch);
    Passes(s2, tid, key);
    var s3 := Next(s2, pass);
    run := Store(s3, tid, key);
    Fold(s2, pass, run, key);
    Fold(s1, watch, [pass] + run, key);
    Fold(s, submit, [watch] + ([pass] + run), key);
    run := [submit] + ([watch] + ([pass] + run));
  }

  lemma Store(s: State, tid: nat, key: Key) returns (run: seq<Action>)
    requires Clear(s, tid, key) && s.threads[tid].pc.WriteGet? && s.threads[tid].pc.write.Final?
    ensures Good(s, run, key) && OnlySteps(run)
    ensures var t := s.threads[tid];
            var entry := TableEntry(s.table, key.name);
            Exec(s, run) == Moved(
              s.(store := s.store[key := PutStatus(s.store[key], t.hc.status, s.nextRv, t.unsaved)],
                 nextRv := s.nextRv + 1,
                 timers := (if entry.Some? then Cancelled(s.timers, entry.value) else s.timers)
                           + [RepeatTimer(key, s.now + Interval(t), true)],
                 table := s.table[key.name := |s.timers|]), tid, Return(t.(unsaved := [])))
  {
    hide Next, Enabled, SpacedStep;
    var read := Go(tid, Fetched(CopyOf(s.store[key]), s.store[key].rv));
    var done := Go(tid, Done);
    Reads(s, tid, key);
    var s1 := Next(s, read);
    Writes(s1, tid, key);
    var s2 := Next(s1, done);
    var stop := Go(tid, Entry(TableEntry(s2.table, key.name)));
    StopsOld(s2, tid, key);
    var s3 := Next(s2, stop);
    StartsNew(s3, tid, key);
    var s4 := Next(s3, done);
    Fold(s3, done, [], key);
    assert [done] + [] == [done];
    Fold(s2, stop, [done], key);
    Fold(s1, done, [stop] + [done], key);
    Fold(s, read, [done] + ([stop] + [done]), key);
    run := [read] + ([done] + ([stop] + [done]));
  }

  // ---------------------------------------------------------------- from a timer to the submission

  /** A timer of the check is due, and nobody is busy with it. */
  ghost predicate Due(s: State, id: nat, key: Key) {
    && s.mapMade && s.lock.None? && key in s.store && !s.store[key].deleting
    && id < |s.timers| && s.timers[id].live && s.timers[id].key == key && s.timers[id].due <= s.now
    && forall i :: 0 <= i < |s.threads| ==> !BusyFor(s.threads[i], key)
  }

  lemma Fires(s: State, id: nat, key: Key)
    requires Due(s, id, key)
    ensures var n := |s.threads|;
            var o := s.store[key];
            var get := Go(n, Fetched(CopyOf(o), o.rv));
            && Enabled(s, Fire(id)) && SpacedStep(s, Fire(id), key)
            && Enabled(Next(s, Fire(id)), get) && SpacedStep(Next(s, Fire(id)), get, key)
            && Next(Next(s, Fire(id)), get)
               == s.(timers := Cancelled(s.timers, id),
                     threads := s.threads + [Thread(key, Timer, Submit, CopyOf(o), [])])
            && Clear(Next(Next(s, Fire(id)), get), n, key)
  {
    var n := |s.threads|;
    var o := s.store[key];
    var get := Go(n, Fetched(CopyOf(o), o.rv));
    var s1 := s.(timers := Cancelled(s.timers, id), threads := s.threads + [NewThread(key, Timer)]);
    FiresTimer(s, id, key, s1);
    hide Due, Enabled, Next;
    TimerFetches(s1, n, key);
  }

  lemma FiresTimer(s: State, id: nat, key: Key, s': State)
    requires Due(s, id, key)
    requires s' == s.(timers := Cancelled(s.timers, id), threads := s.threads + [NewThread(key, Timer)])
    ensures Enabled(s, Fire(id)) && SpacedStep(s, Fire(id), key) && Next(s, Fire(id)) == s'
    ensures Solo(s', |s.threads|, key) && s'.mapMade && s'.lock.None? && key in s'.store && !s'.store[key].deleting
  {
  }

  lemma TimerFetches(s: State, n: nat, key: Key)
    requires s.mapMade && s.lock.None? && key in s.store && !s.store[key].deleting
    requires Solo(s, n, key) && s.threads[n] == NewThread(key, Timer) && n == |s.threads| - 1
    ensures var o := s.store[key];
            var get := Go(n, Fetched(CopyOf(o), o.rv));
            && Enabled(s, get) && SpacedStep(s, get, key)
            && Next(s, get) == s.(threads := s.threads[..n] + [Thread(key, Timer, Submit, CopyOf(o), [])])
            && Clear(Next(s, get), n, key)
  {
    hide StepPoll, StepRemedyPoll, StepDecide, StepSubmit, StepRemedySubmit, StepRbac, StepWriteGet, StepWritePut;
    hide StepLast;
    SoloStep(s, n, Fetched(CopyOf(s.store[key]), s.store[key].rv), key);
  }

  // ---------------------------------------------------------------- from nothing to the submission

  /** The states of a first reconcile: the object is created, the reconcile is started, ... */
  function Created(start: Time, made: bool, key: Key, spec: Spec): State {
    Init(start, made).(store := map[key := Object(0, spec, NEW_STATUS, false, [])], nextRv := 1)
  }

  function Fetching(start: Time, made: bool, key: Key, spec: Spec): State {
    Created(start, made, key, spec).(threads := [NewThread(key, Reconcile)])
  }

  function At(start: Time, made: bool, key: Key, spec: Spec, edited: Spec, pc: Pc): State {
    Created(start, made, key, spec).(threads := [Thread(key, Reconcile, pc, Copy(edited, NEW_STATUS, false), [])])
  }

  /** A spec that the controller can run. */
  predicate Runnable(spec: Spec) {
    spec.workflow.resource.Some? && !RbacNames.Refused(spec)
  }

  lemma Begins(start: Time, made: bool, key: Key, spec: Spec)
    requires key.name != ""
    ensures var s0, s1 := Init(start, made), Created(start, made, key, spec);
            && Next(s0, UserCreate(key, spec)) == s1 && SpacedStep(s0, UserCreate(key, spec), key)
            && CreatesClean(s0, UserCreate(key, spec), key)
            && Next(s1, StartReconcile(key)) == Fetching(start, made, key, spec)
               && SpacedStep(s1, StartReconcile(key), key)
  {
  }

  lemma Gets(start: Time, made: bool, key: Key, spec: Spec)
    ensures var s, get := Fetching(start, made, key, spec), Go(0, Fetched(Copy(spec, NEW_STATUS, false), 0));
            Enabled(s, get) && Next(s, get) == At(start, made, key, spec, spec, Decide) && SpacedStep(s, get, key)
  {
    hide StepPoll, StepRemedyPoll, StepDecide, StepSubmit, StepRemedySubmit, StepRbac, StepWriteGet, StepWritePut;
    hide StepLast;
  }

  lemma Fetches(start: Time, made: bool, key: Key, spec: Spec) returns (run: seq<Action>)
    requires key.name != ""
    ensures Good(Init(start, made), run, key)
    ensures Exec(Init(start, made), run) == At(start, made, key, spec, spec, Decide)
    ensures AllKeepInterval(run, key, spec.repeatAfterSec) && Instant(run)
  {
    var s0, s1, s2 := Init(start, made), Created(start, made, key, spec), Fetching(start, made, key, spec);
    var create, begin := UserCreate(key, spec), StartReconcile(key);
    var get := Go(0, Fetched(Copy(spec, NEW_STATUS, false), 0));
    Begins(start, made, key, spec);
    Gets(start, made, key, spec);
    hide Next, Enabled, SpacedStep, CreatesClean, SerialStep;
    Fold(s2, get, [], key);
    assert [get] + [] == [get];
    Fold(s1, begin, [get], key);
    FoldClean(s0, create, [begin] + [get], key);
    run := [create] + ([begin] + [get]);
  }

  /** ... it decides to run on the answer `d`, and its access is granted. */
  lemma Admits(start: Time, made: bool, key: Key, spec: Spec, d: Answer, edited: Spec) returns (run: seq<Action>)
    requires key.name != "" && Runnable(spec) && !RbacNames.Refused(edited)
    requires var s := At(start, made, key, spec, spec, Decide);
             CanGo(s, 0, d) && Step(s.threads[0], s.now, d) == At(start, made, key, spec, edited, CreateRbac).threads[0]
    ensures Good(At(start, made, key, spec, spec, Decide), run, key)
    ensures Exec(At(start, made, key, spec, spec, Decide), run)
            == At(start, made, key, spec, RbacNames.Renamed(edited), Submit)
    ensures OnlySteps(run)
  {
    hide StepPoll, StepRemedyPoll, StepDecide, StepSubmit, StepRemedySubmit, StepWriteGet, StepWritePut, StepLast;
    var s0, s1 := At(start, made, key, spec, spec, Decide), At(start, made, key, spec, edited, CreateRbac);
    assert Next(s0, Go(0, d)) == s1 && SpacedStep(s0, Go(0, d), key);
    Granted(start, made, key, spec, edited);
    hide Next, Enabled, SpacedStep;
    Fold(s1, Go(0, Done), [], key);
    assert [Go(0, Done)] + [] == [Go(0, Done)];
    Fold(s0, Go(0, d), [Go(0, Done)], key);
    run := [Go(0, d)] + [Go(0, Done)];
  }

  lemma Granted(start: Time, made: bool, key: Key, spec: Spec, edited: Spec)
    requires !RbacNames.Refused(edited)
    ensures var s := At(start, made, key, spec, edited, CreateRbac);
            && Enabled(s, Go(0, Done)) && SpacedStep(s, Go(0, Done), key)
            && Next(s, Go(0, Done)) == At(start, made, key, spec, RbacNames.Renamed(edited), Submit)
  {
    hide StepPoll, StepRemedyPoll, StepDecide, StepSubmit, StepRemedySubmit, StepWriteGet, StepWritePut, StepLast;
    hide RbacNames.Renamed;
  }

  predicate Scheduled(spec: Spec) {
    spec.repeatAfterSec > 0 || spec.cron != ""
  }

  /** The table is consulted only by a clock that has not come as far as the interval; a cron
      expression may give a delay of a minute. */
  function FirstAnswer(start: Time, spec: Spec): Answer {
    if spec.repeatAfterSec <= 0 then CronDelay(Some(60))
    else if Unix(start) >= spec.repeatAfterSec then Done
    else Entry(None)
  }

  function Edited(spec: Spec): Spec {
    if spec.repeatAfterSec <= 0 then spec.(repeatAfterSec := 60) else spec
  }

  lemma FirstIsAdmitted(start: Time, made: bool, key: Key, spec: Spec)
    requires Runnable(spec) && Scheduled(spec)
    ensures var s := At(start, made, key, spec, spec, Decide);
            var d := FirstAnswer(start, spec);
            CanGo(s, 0, d)
            && Step(s.threads[0], s.now, d) == At(start, made, key, spec, Edited(spec), CreateRbac).threads[0]
    ensures Runnable(Edited(spec))
  {
  }

  lemma SubmitIsClear(start: Time, made: bool, key: Key, spec: Spec)
    requires Runnable(spec)
    ensures var s := At(start, made, key, spec, RbacNames.Renamed(Edited(spec)), Submit);
            && Free(s, 0, key) && s.threads[0].hc.spec.workflow.resource.Some?
            && (made ==> Clear(s, 0, key))
  {
  }

  /** From the start of the system to the submission of a first run. */
  lemma Starting(start: Time, made: bool, key: Key, spec: Spec) returns (run: seq<Action>)
    requires key.name != "" && Runnable(spec) && Scheduled(spec)
    ensures Good(Init(start, made), run, key) && AllKeepInterval(run, key, spec.repeatAfterSec) && Instant(run)
    ensures Exec(Init(start, made), run) == At(start, made, key, spec, RbacNames.Renamed(Edited(spec)), Submit)
  {
    var fetch := Fetches(start, made, key, spec);
    FirstIsAdmitted(start, made, key, spec);
    var admit := Admits(start, made, key, spec, FirstAnswer(start, spec), Edited(spec));
    hide Good, Exec, AllKeepInterval, At, Edited;
    KeepingConcat(fetch, admit, key, spec.repeatAfterSec);
    Concat(Init(start, made), fetch, admit, key);
    run := fetch + admit;
  }
}
