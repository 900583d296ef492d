/** The controller, the API server and the users as one interleaved system. An action is one
    atomic event: a step of one goroutine with the answer it got, a timer firing, a user
    request, the passing of time, or a crash of the controller process. */
module Machine {
  import opened HealthChecks
  import opened Goroutines
  import Templates

  /** A stored object. `rv` is its resourceVersion; `history` lists the events its status
      writes have persisted and exists for specification only. */
  datatype Object = Object(rv: nat, spec: Spec, status: Status, deleting: bool, history: seq<Event>)

  datatype RepeatTimer = RepeatTimer(key: Key, due: Time, live: bool)

  /** `mapMade` says whether RepeatTimersByName was allocated when the reconciler was built. */
  datatype State = State(
    now: Time,
    store: map<Key, Object>,
    nextRv: nat,
    submitted: set<string>,
    mapMade: bool,
    lock: Option<nat>,
    table: map<string, nat>,
    timers: seq<RepeatTimer>,
    threads: seq<Thread>)

  datatype Action =
    | Tick(elapsed: nat)
    | UserCreate(key: Key, spec: Spec)
    | UserEdit(key: Key, spec: Spec)
    | UserMarkDeleting(key: Key)
    | UserRemove(key: Key)
    | StartReconcile(key: Key)
    | Fire(timer: nat)
    | Crash
    | Go(tid: nat, answer: Answer)

  // ---------------------------------------------------------------- the object store

  function CopyOf(o: Object): Copy {
    Copy(o.spec, o.status, o.deleting)
  }

  /** A write to the status subresource: the API server takes the status and nothing else. */
  function PutStatus(o: Object, st: Status, rv: nat, events: seq<Event>): Object {
    o.(rv := rv, status := Stored(st), history := o.history + events)
  }

  /** A write to the main resource: the API server takes everything but the status. */
  function PutMain(o: Object, spec: Spec, rv: nat): Object {
    o.(rv := rv, spec := spec)
  }

  // ---------------------------------------------------------------- the timer table

  function TableEntry(table: map<string, nat>, name: string): Option<nat> {
    if name in table then Some(table[name]) else None
  }

  function Cancelled(timers: seq<RepeatTimer>, id: nat): seq<RepeatTimer> {
    if id < |timers| then timers[id := timers[id].(live := false)] else timers
  }

  // ---------------------------------------------------------------- enabledness

  predicate GetAnswer(s: State, key: Key, a: Answer) {
    match a
    case Fetched(copy, rv) => key in s.store && copy == CopyOf(s.store[key]) && rv == s.store[key].rv
    case NotFound => key !in s.store
    case Broken => true
    case _ => false
  }

  predicate PutAnswer(s: State, key: Key, rv: nat, a: Answer) {
    match a
    case Done => key in s.store && s.store[key].rv == rv
    case LostReply => key in s.store && s.store[key].rv == rv
    case Conflict => key in s.store && s.store[key].rv != rv
    case NotFound => key !in s.store
    case Broken => true
    case _ => false
  }

  /** A created workflow gets a name no workflow had before. */
  predicate SubmitAnswer(s: State, a: Answer) {
    && s.lock.None?
    && a.Submission?
    && (a.created.Some? ==> a.created.value != "" && a.created.value !in s.submitted)
  }

  /** The answers the rest of the system may give a thread in state `s`. Steps that take
      TimerLock are enabled only while it is free. */
  predicate Answerable(s: State, t: Thread, a: Answer) {
    match t.pc
    case ReconcileGet => GetAnswer(s, t.key, a)
    case TimerGet => GetAnswer(s, t.key, a)
    case WriteGet(_, _) => GetAnswer(s, t.key, a)
    case LastGet(_) => GetAnswer(s, t.key, a)
    case CancelLookup(probe) => s.lock.None? && a == Entry(TableEntry(s.table, probe))
    case CancelRead => s.lock.None? && a == Entry(TableEntry(s.table, t.key.name))
    case CancelStop(_) => a.Done?
    case Decide =>
      if ConsultsTable(t.hc, s.now) then s.lock.None? && a == Entry(TableEntry(s.table, t.key.name))
      else if t.hc.spec.workflow.resource.Some? && UsesCron(t.hc.spec) then a.CronDelay?
      else a.Done?
    case CreateRbac => a.Done? || a.Broken?
    case RemedyRbac => a.Done? || a.Broken?
    case RemedyCleanup => a.Done? || a.Broken?
    case Submit => SubmitAnswer(s, a)
    case RemedySubmit => SubmitAnswer(s, a)
    case WatchStart(_) => a.Budget?
    case RemedyStart(_) => a.Budget?
    case Poll(wf, _, _) => a.Saw? && (wf == "" ==> a.lookup == LookupError(false))
    case RemedyPoll(_, _, _) => a.Saw?
    case WritePut(_, _, rv) => PutAnswer(s, t.key, rv, a)
    case LastPut(_, rv, _) => PutAnswer(s, t.key, rv, a)
    case Rearm => s.lock.None? && a == Entry(TableEntry(s.table, t.key.name))
    case RearmStart => a == if s.mapMade then Done else Broken
    case Ended => false
    case Panicked => false
  }

  predicate CanGo(s: State, tid: nat, a: Answer) {
    tid < |s.threads| && Answerable(s, s.threads[tid], a)
  }

  predicate Enabled(s: State, a: Action) {
    match a
    case Tick(_) => true
    case UserCreate(key, _) => key !in s.store && key.name != ""
    case UserEdit(key, _) => key in s.store
    case UserMarkDeleting(key) => key in s.store
    case UserRemove(key) => key in s.store
    case StartReconcile(key) => key.name != ""
    case Fire(id) => id < |s.timers| && s.timers[id].live && s.timers[id].due <= s.now
    case Crash => true
    case Go(tid, answer) => CanGo(s, tid, answer)
  }

  // ---------------------------------------------------------------- effects

  predicate TookEffect(a: Answer) {
    a.Done? || a.LostReply?
  }

  function Interval(t: Thread): int {
    t.hc.spec.repeatAfterSec * SECOND
  }

  function WithSubmission(s: State, tid: nat, a: Answer, parsed: Templates.Parsed): State
    requires a.Submission?
  {
    if parsed.LockHeldPanic? then s.(lock := Some(tid))
    else if a.created.Some? then s.(submitted := s.submitted + {a.created.value})
    else s
  }

  /** What a step of thread `tid` does to the state it shares with the others. */
  function Effect(s: State, tid: nat, t: Thread, a: Answer): (s': State)
    requires Answerable(s, t, a)
    ensures s'.now == s.now && s'.mapMade == s.mapMade && s'.threads == s.threads
  {
    match t.pc
    case CancelStop(id) => s.(timers := Cancelled(s.timers, id))
    case Submit => WithSubmission(s, tid, a, Templates.ParseWorkflow(t.hc.spec, a.decoded))
    case RemedySubmit =>
      if t.hc.spec.remedyWorkflow.resource.None? then s
      else WithSubmission(s, tid, a, Templates.ParseRemedyWorkflow(t.hc.spec, a.decoded))
    case WritePut(_, _, _) =>
      if TookEffect(a) then
        s.(store := s.store[t.key := PutStatus(s.store[t.key], t.hc.status, s.nextRv, t.unsaved)],
           nextRv := s.nextRv + 1)
      else s
    case LastPut(_, _, spec) =>
      if TookEffect(a) then
        s.(store := s.store[t.key := PutMain(s.store[t.key], spec, s.nextRv)], nextRv := s.nextRv + 1)
      else s
    case Rearm =>
      s.(lock := Some(tid),
         timers := if a.timer.Some? then Cancelled(s.timers, a.timer.value) else s.timers)
    case RearmStart =>
      var started := s.timers + [RepeatTimer(t.key, s.now + Interval(t), true)];
      if s.mapMade then
        s.(timers := started, table := s.table[t.key.name := |s.timers|], lock := None)
      else
        s.(timers := started)
    case _ => s
  }

  /** The process is gone; a new one starts with nothing in memory. */
  function Crashed(s: State): State {
    s.(lock := None, table := map[], timers := [], threads := [])
  }

  /** A panic is recovered in a reconcile goroutine and kills the process in a timer goroutine. */
  function AfterStep(s: State, tid: nat, t: Thread): State
    requires tid < |s.threads|
  {
    if t.pc.Panicked? && t.origin.Timer? then Crashed(s) else s.(threads := s.threads[tid := t])
  }

  function GoNext(s: State, tid: nat, a: Answer): State
    requires CanGo(s, tid, a)
  {
    var t := s.threads[tid];
    AfterStep(Effect(s, tid, t, a), tid, Step(t, s.now, a))
  }

  function Next(s: State, a: Action): State
    requires Enabled(s, a)
  {
    match a
    case Tick(elapsed) => s.(now := s.now + elapsed)
    case UserCreate(key, spec) =>
      s.(store := s.store[key := Object(s.nextRv, spec, NEW_STATUS, false, [])], nextRv := s.nextRv + 1)
    case UserEdit(key, spec) =>
      s.(store := s.store[key := PutMain(s.store[key], spec, s.nextRv)], nextRv := s.nextRv + 1)
    case UserMarkDeleting(key) =>
      s.(store := s.store[key := s.store[key].(deleting := true, rv := s.nextRv)], nextRv := s.nextRv + 1)
    case UserRemove(key) => s.(store := s.store - {key})
    case StartReconcile(key) => s.(threads := s.threads + [NewThread(key, Reconcile)])
    case Fire(id) =>
      s.(timers := Cancelled(s.timers, id), threads := s.threads + [NewThread(s.timers[id].key, Timer)])
    case Crash => Crashed(s)
    case Go(tid, answer) => GoNext(s, tid, answer)
  }

  // ---------------------------------------------------------------- runs

  function Init(now: Time, mapMade: bool): State {
    State(now, map[], 0, {}, mapMade, None, map[], [], [])
  }

  predicate ValidRun(s: State, run: seq<Action>)
    decreases |run|
  {
    run == [] || (Enabled(s, run[0]) && ValidRun(Next(s, run[0]), run[1..]))
  }

  function Exec(s: State, run: seq<Action>): State
    requires ValidRun(s, run)
    decreases |run|
  {
    if run == [] then s else Exec(Next(s, run[0]), run[1..])
  }

  lemma {:induction false} RunConcat(s: State, first: seq<Action>, rest: seq<Action>)
    requires ValidRun(s, first) && ValidRun(Exec(s, first), rest)
    ensures ValidRun(s, first + rest) && Exec(s, first + rest) == Exec(Exec(s, first), rest)
    decreases |first|
  {
    hide Next, Enabled;
    if first == [] {
      assert first + rest == rest;
    } else {
      RunConcat(Next(s, first[0]), first[1..], rest);
      assert (first + rest)[1..] == first[1..] + rest;
    }
  }

  lemma RunCons(s: State, a: Action, rest: seq<Action>)
    requires Enabled(s, a) && ValidRun(Next(s, a), rest)
    ensures ValidRun(s, [a] + rest) && Exec(s, [a] + rest) == Exec(Next(s, a), rest)
  {
    assert ([a] + rest)[0] == a && ([a] + rest)[1..] == rest;
  }
}
