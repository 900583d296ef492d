/** The process's metrics against the stored counters. Every result a watch decides on is
    counted in the metrics at once and in the object only when a status write takes effect;
    this module accounts for the difference, under any interleaving. */
module Accounting {
  import opened HealthChecks
  import opened StatusRules
  import opened Goroutines
  import opened Machine
  import opened Frames
  import opened Histories
  import opened SerialRuns
  import opened Sums
  import Conservation

  /** What is counted: MonitorSuccess and MonitorError of the health check, and both of its remedy. */
  datatype Kind = OfSuccess | OfFailure | OfRemedySuccess | OfRemedyFailure

  function Tally(h: seq<Event>, kind: Kind): nat {
    match kind
    case OfSuccess => Successes(h)
    case OfFailure => Failures(h)
    case OfRemedySuccess => RemedyCount(h, true)
    case OfRemedyFailure => RemedyCount(h, false)
  }

  lemma {:induction false} TallyAppend(g: seq<Event>, h: seq<Event>, kind: Kind)
    ensures Tally(g + h, kind) == Tally(g, kind) + Tally(h, kind)
    decreases |h|
  {
    if h == [] {
      assert g + h == g;
    } else {
      var n := |h| - 1;
      TallyAppend(g, h[..n], kind);
      assert h == h[..n] + [h[n]];
      assert g + h == (g + h[..n]) + [h[n]];
      AppendEvent(g + h[..n], h[n]);
      AppendEvent(h[..n], h[n]);
    }
  }

  // ---------------------------------------------------------------- the four columns

  /** Metric increments of one poll (642-645, 670-673, 828-830, 844-846). */
  function Bumps(t: Thread, a: Answer, kind: Kind): nat {
    if a.Saw? && t.pc.Poll? then
      var verdict := Judge(a.lookup, t.pc.left == 0);
      if (kind.OfSuccess? && verdict.Succeeded?) || (kind.OfFailure? && verdict.FailedWith?) then 1 else 0
    else if a.Saw? && t.pc.RemedyPoll? then
      var verdict := Judge(a.lookup, t.pc.left == 0);
      if (kind.OfRemedySuccess? && verdict.Succeeded?) || (kind.OfRemedyFailure? && verdict.FailedWith?) then 1 else 0
    else 0
  }

  function Counted(s: State, a: Action, key: Key, kind: Kind): nat
    requires Enabled(s, a)
  {
    if a.Go? && s.threads[a.tid].key == key then Bumps(s.threads[a.tid], a.answer, kind) else 0
  }

  /** What the stored object shows. */
  function Kept(s: State, key: Key, kind: Kind): nat {
    if key in s.store then Tally(s.store[key].history, kind) else 0
  }

  /** What an episode has recorded in memory and may still write. */
  function HeldBy(t: Thread, key: Key, kind: Kind): nat {
    if t.key == key && InEpisode(t.pc) then Tally(t.unsaved, kind) else 0
  }

  function Held(s: State, key: Key, kind: Kind): nat {
    Total(s.threads, (t: Thread) => HeldBy(t, key, kind))
  }

  predicate Persists(t: Thread, a: Answer) {
    t.pc.WritePut? && TookEffect(a)
  }

  /** An episode ends with recorded events and without having written them. */
  function DroppedBy(t: Thread, t': Thread, a: Answer, key: Key, kind: Kind): nat {
    if t.key == key && InEpisode(t.pc) && !InEpisode(t'.pc) && !Persists(t, a) then Tally(t'.unsaved, kind) else 0
  }

  predicate Dies(t: Thread) {
    t.pc.Panicked? && t.origin.Timer?
  }

  /** What an action loses for good: an episode's results when it gives up, everybody's when the
      process dies, the object's own when a user removes it. */
  function Lost(s: State, a: Action, key: Key, kind: Kind): int
    requires Enabled(s, a)
  {
    match a
    case Crash => Held(s, key, kind)
    case UserRemove(k) => if k == key then Kept(s, key, kind) else 0
    case Go(tid, answer) =>
      var t := s.threads[tid];
      var t' := Step(t, s.now, answer);
      DroppedBy(t, t', answer, key, kind)
      + (if Dies(t') then Held(s, key, kind) - HeldBy(t, key, kind) else 0)
    case _ => 0
  }

  // ---------------------------------------------------------------- one goroutine's books

  lemma PollBooks(t: Thread, now: Time, a: Answer, key: Key, kind: Kind)
    requires t.pc.Poll? && t.key == key
    ensures var t' := StepPoll(t, now, a);
            HeldBy(t', key, kind) + DroppedBy(t, t', a, key, kind) == HeldBy(t, key, kind) + Bumps(t, a, kind)
  {
    hide StepPoll, Tally;
    PollRecords(t, now, a);
    if a.Saw? && Judge(a.lookup, t.pc.left == 0).Succeeded? {
      TallyOne(t.unsaved, RanOk(t.pc.wf, now), kind);
    } else if a.Saw? && Judge(a.lookup, t.pc.left == 0).FailedWith? {
      TallyOne(t.unsaved, RanFailed(t.pc.wf, now), kind);
    }
  }

  lemma PollRecords(t: Thread, now: Time, a: Answer)
    requires t.pc.Poll?
    ensures var t' := StepPoll(t, now, a);
            t'.key == t.key && t'.unsaved ==
              if a.Saw? && Judge(a.lookup, t.pc.left == 0).Succeeded? then t.unsaved + [RanOk(t.pc.wf, now)]
              else if a.Saw? && Judge(a.lookup, t.pc.left == 0).FailedWith? then t.unsaved + [RanFailed(t.pc.wf, now)]
              else t.unsaved
    ensures (!a.Saw? || Judge(a.lookup, t.pc.left == 0).Undecided?) ==> StepPoll(t, now, a).pc.Poll?
    ensures a.Saw? && Judge(a.lookup, t.pc.left == 0).LookupFailed? ==> !InEpisode(StepPoll(t, now, a).pc)
  {
    hide RecordSuccess, RecordFailure, ResetRemedy, RemedyGate;
  }

  predicate OfKind(e: Event, kind: Kind) {
    match kind
    case OfSuccess => e.RanOk?
    case OfFailure => e.RanFailed?
    case OfRemedySuccess => e.Remedied? && e.passed
    case OfRemedyFailure => e.Remedied? && !e.passed
  }

  lemma TallyOne(h: seq<Event>, e: Event, kind: Kind)
    ensures Tally(h + [e], kind) == Tally(h, kind)
            + if OfKind(e, kind) then 1 else 0
  {
    AppendEvent(h, e);
  }

  lemma RemedyPollBooks(t: Thread, now: Time, a: Answer, key: Key, kind: Kind)
    requires t.pc.RemedyPoll? && t.key == key
    ensures var t' := StepRemedyPoll(t, now, a);
            HeldBy(t', key, kind) + DroppedBy(t, t', a, key, kind) == HeldBy(t, key, kind) + Bumps(t, a, kind)
  {
    AppendEvent(t.unsaved, Remedied(true, now));
    AppendEvent(t.unsaved, Remedied(false, now));
    hide Successes, Failures, Remedies, SinceSuccess;
  }

  lemma StepBooks(t: Thread, now: Time, a: Answer, key: Key, kind: Kind)
    requires t.key == key && Conservation.Shape(t)
    ensures var t' := Step(t, now, a);
            HeldBy(t', key, kind) + DroppedBy(t, t', a, key, kind)
            + (if Persists(t, a) then Tally(t.unsaved, kind) else 0)
            == HeldBy(t, key, kind) + Bumps(t, a, kind)
  {
    hide Successes, Failures, Remedies;
    if t.pc.Poll? || t.pc.RemedyPoll? {
      StepAtPoll(t, now, a);
      if t.pc.Poll? { PollBooks(t, now, a, key, kind); } else { RemedyPollBooks(t, now, a, key, kind); }
      hide Step, StepPoll, StepRemedyPoll, DroppedBy, Bumps;
    } else if InEpisode(t.pc) {
      StepKeepsStatus(t, now, a);
      LostWritesEnd(t, now, a);
      NothingIsNothing(kind);
      hide Step, Tally;
    } else {
      if InEpisode(Step(t, now, a).pc) { EntersEpisode(t, now, a); }
      NothingIsNothing(kind);
      hide Step, Tally;
    }
  }

  lemma NothingIsNothing(kind: Kind)
    ensures Tally([], kind) == 0
  {
  }

  // ---------------------------------------------------------------- the system's books

  lemma GoKeeps(s: State, tid: nat, a: Answer, key: Key, kind: Kind)
    requires CanGo(s, tid, a)
    ensures Kept(GoNext(s, tid, a), key, kind)
            == Kept(s, key, kind)
               + if s.threads[tid].key == key && Persists(s.threads[tid], a)
                 then Tally(s.threads[tid].unsaved, kind)
                 else 0
  {
    hide Step, Effect, Answerable, GoNext, AfterStep, Tally;
    GoFrame(s, tid, a);
    EffectFrame(s, tid, a);
    var t := s.threads[tid];
    if Writes(t, a) {
      if t.pc.WritePut? {
        EffectStatusWrite(s, tid, a);
        TallyAppend(s.store[t.key].history, t.unsaved, kind);
      } else {
        EffectMainWrite(s, tid, a);
      }
    }
  }

  lemma GoHolds(s: State, tid: nat, a: Answer, key: Key, kind: Kind)
    requires CanGo(s, tid, a)
    ensures var t' := Step(s.threads[tid], s.now, a);
            Held(GoNext(s, tid, a), key, kind)
            == if Dies(t') then 0 else Held(s, key, kind) - HeldBy(s.threads[tid], key, kind) + HeldBy(t', key, kind)
  {
    hide Step, Effect, Answerable, HeldBy;
    var t' := Step(s.threads[tid], s.now, a);
    TotalUpdate(s.threads, tid, t', (t: Thread) => HeldBy(t, key, kind));
  }

  lemma GoBalances(s: State, tid: nat, a: Answer, key: Key, kind: Kind)
    requires Conservation.Inv(s) && CanGo(s, tid, a)
    ensures Held(s, key, kind) + Kept(s, key, kind) + Counted(s, Go(tid, a), key, kind)
            == Held(GoNext(s, tid, a), key, kind) + Kept(GoNext(s, tid, a), key, kind) + Lost(s, Go(tid, a), key, kind)
  {
    hide Step, Effect, Answerable, GoNext, AfterStep, Held, Kept, Tally, Bumps;
    var t := s.threads[tid];
    GoKeeps(s, tid, a, key, kind);
    GoHolds(s, tid, a, key, kind);
    assert Conservation.Shape(t);
    if t.key == key { StepBooks(t, s.now, a, key, kind); }
    DeadHoldsNothing(Step(t, s.now, a), key, kind);
  }

  lemma DeadHoldsNothing(t: Thread, key: Key, kind: Kind)
    ensures Dies(t) ==> HeldBy(t, key, kind) == 0
  {
  }

  lemma ActionBalances(s: State, a: Action, key: Key, kind: Kind)
    requires Conservation.Inv(s) && Enabled(s, a)
    ensures Held(s, key, kind) + Kept(s, key, kind) + Counted(s, a, key, kind)
            == Held(Next(s, a), key, kind) + Kept(Next(s, a), key, kind) + Lost(s, a, key, kind)
  {
    hide Step, Effect, Answerable, GoNext, Conservation.Inv;
    if a.Go? {
      GoBalances(s, a.tid, a.answer, key, kind);
    } else {
      OthersBalance(s, a, key, kind);
      hide Next, Held, Kept, Lost;
    }
  }

  lemma OthersBalance(s: State, a: Action, key: Key, kind: Kind)
    requires Enabled(s, a) && !a.Go?
    ensures Held(s, key, kind) + Kept(s, key, kind)
            == Held(Next(s, a), key, kind) + Kept(Next(s, a), key, kind) + Lost(s, a, key, kind)
  {
    hide Step, Effect, Answerable, GoNext, Tally;
    var w := (t: Thread) => HeldBy(t, key, kind);
    NothingIsNothing(kind);
    if a.StartReconcile? {
      TotalAppend(s.threads, NewThread(a.key, Reconcile), w);
    } else if a.Fire? {
      TotalAppend(s.threads, NewThread(s.timers[a.timer].key, Timer), w);
    }
  }

  function Metric(s: State, run: seq<Action>, key: Key, kind: Kind): nat
    requires ValidRun(s, run)
    decreases |run|
  {
    if run == [] then 0 else Counted(s, run[0], key, kind) + Metric(Next(s, run[0]), run[1..], key, kind)
  }

  function Losses(s: State, run: seq<Action>, key: Key, kind: Kind): int
    requires ValidRun(s, run)
    decreases |run|
  {
    if run == [] then 0 else Lost(s, run[0], key, kind) + Losses(Next(s, run[0]), run[1..], key, kind)
  }

  /** The books balance between any two states of a run: what the metrics counted is what the
      object gained, what episodes in flight still hold, and what was lost on the way. */
  lemma {:induction false} BooksBalance(s: State, run: seq<Action>, key: Key, kind: Kind)
    requires Conservation.Inv(s) && ValidRun(s, run)
    ensures Metric(s, run, key, kind) + Held(s, key, kind) + Kept(s, key, kind)
            == Kept(Exec(s, run), key, kind) + Held(Exec(s, run), key, kind) + Losses(s, run, key, kind)
    decreases |run|
  {
    hide Conservation.Inv, Enabled, Next, Held, Kept, Counted, Lost;
    if run != [] {
      ActionBalances(s, run[0], key, kind);
      Conservation.NextKeepsInv(s, run[0]);
      BooksBalance(Next(s, run[0]), run[1..], key, kind);
    }
  }

  /** In a serial run the stored counters lag behind the metrics by what is held and what was lost. */
  lemma MetricsAgainstCounters(start: Time, mapMade: bool, run: seq<Action>, key: Key)
    requires ValidRun(Init(start, mapMade), run) && SerialRun(Init(start, mapMade), run, key)
    requires key in Exec(Init(start, mapMade), run).store
    ensures var s0 := Init(start, mapMade);
            var s := Exec(s0, run);
            && Metric(s0, run, key, OfSuccess)
               == s.store[key].status.successCount + Held(s, key, OfSuccess) + Losses(s0, run, key, OfSuccess)
            && Metric(s0, run, key, OfFailure)
               == s.store[key].status.failedCount + Held(s, key, OfFailure) + Losses(s0, run, key, OfFailure)
  {
    var s0 := Init(start, mapMade);
    CountersCountTheHistory(start, mapMade, run, key);
    hide ValidRun, Exec;
    BooksBalance(s0, run, key, OfSuccess);
    BooksBalance(s0, run, key, OfFailure);
  }

  // ---------------------------------------------------------------- labels are bare names

  /** A sum over keys. */
  ghost function Sum(keys: set<Key>, f: Key -> int): int {
    if keys == {} then 0
    else
      var k :| k in keys;
      f(k) + Sum(keys - {k}, f)
  }

  lemma {:induction false} SumSplit(keys: set<Key>, k: Key, f: Key -> int)
    requires k in keys
    ensures Sum(keys, f) == f(k) + Sum(keys - {k}, f)
    decreases keys
  {
    var j :| j in keys && Sum(keys, f) == f(j) + Sum(keys - {j}, f);
    if j != k {
      SumSplit(keys - {j}, k, f);
      SumSplit(keys - {k}, j, f);
      assert keys - {j} - {k} == keys - {k} - {j};
    }
  }

  lemma {:induction false} SumAdds(keys: set<Key>, f: Key -> int, g: Key -> int, h: Key -> int)
    requires forall k :: k in keys ==> f(k) == g(k) + h(k)
    ensures Sum(keys, f) == Sum(keys, g) + Sum(keys, h)
    decreases keys
  {
    if keys != {} {
      var k :| k in keys;
      SumSplit(keys, k, f);
      SumSplit(keys, k, g);
      SumSplit(keys, k, h);
      SumAdds(keys - {k}, f, g, h);
    }
  }

  lemma {:induction false} SumZero(keys: set<Key>, f: Key -> int)
    requires forall k :: k in keys ==> f(k) == 0
    ensures Sum(keys, f) == 0
    decreases keys
  {
    if keys != {} {
      var k :| k in keys;
      SumSplit(keys, k, f);
      SumZero(keys - {k}, f);
    }
  }

  /** The increments of the metric labelled `name`, whatever the namespace. */
  function LabelCounted(s: State, a: Action, name: string, kind: Kind): nat
    requires Enabled(s, a)
  {
    if a.Go? && s.threads[a.tid].key.name == name then Bumps(s.threads[a.tid], a.answer, kind) else 0
  }

  function LabelMetric(s: State, run: seq<Action>, name: string, kind: Kind): nat
    requires ValidRun(s, run)
    decreases |run|
  {
    if run == [] then 0 else LabelCounted(s, run[0], name, kind) + LabelMetric(Next(s, run[0]), run[1..], name, kind)
  }

  /** The checks of that name whose goroutines take a step. */
  function Actors(s: State, run: seq<Action>, name: string): set<Key>
    requires ValidRun(s, run)
    decreases |run|
  {
    if run == [] then {}
    else
      (if run[0].Go? && s.threads[run[0].tid].key.name == name then {s.threads[run[0].tid].key} else {})
      + Actors(Next(s, run[0]), run[1..], name)
  }

  lemma LabelCountedIsSum(s: State, a: Action, name: string, keys: set<Key>, kind: Kind)
    requires Enabled(s, a) && Actors(s, [a], name) <= keys && forall k :: k in keys ==> k.name == name
    ensures LabelCounted(s, a, name, kind) == Sum(keys, k => Counted(s, a, k, kind))
  {
    hide Answerable, Next, Bumps;
    var f := (k: Key) => Counted(s, a, k, kind);
    assert [a][0] == a;
    if a.Go? && s.threads[a.tid].key.name == name {
      var key := s.threads[a.tid].key;
      assert key in keys;
      SumSplit(keys, key, f);
      SumZero(keys - {key}, f);
    } else {
      SumZero(keys, f);
    }
  }

  /** The labelled metric is the sum over the namesakes of what was counted for each. */
  lemma {:induction false} LabelIsSum(s: State, run: seq<Action>, name: string, keys: set<Key>, kind: Kind)
    requires ValidRun(s, run) && Actors(s, run, name) <= keys && forall k :: k in keys ==> k.name == name
    ensures LabelMetric(s, run, name, kind) == Sum(keys, k => Metric(s, run, k, kind))
    decreases |run|
  {
    hide Enabled, Next, Counted, LabelCounted;
    var all := (k: Key) => Metric(s, run, k, kind);
    if run == [] {
      SumZero(keys, all);
    } else {
      var s', rest := Next(s, run[0]), run[1..];
      assert [run[0]][1..] == [] && ValidRun(s, [run[0]]);
      LabelCountedIsSum(s, run[0], name, keys, kind);
      LabelIsSum(s', rest, name, keys, kind);
      SumAdds(keys, all, k => Counted(s, run[0], k, kind), k => Metric(s', rest, k, kind));
    }
  }

  /** The books of a label: what it counted is what the objects of its namesakes gained, what their
      episodes still hold and what they lost. */
  lemma LabelBooksBalance(s: State, run: seq<Action>, name: string, keys: set<Key>, kind: Kind)
    requires Conservation.Inv(s) && ValidRun(s, run)
    requires Actors(s, run, name) <= keys && forall k :: k in keys ==> k.name == name
    ensures LabelMetric(s, run, name, kind) + Sum(keys, k => Held(s, k, kind) + Kept(s, k, kind))
            == Sum(keys, k => Kept(Exec(s, run), k, kind) + Held(Exec(s, run), k, kind))
               + Sum(keys, k => Losses(s, run, k, kind))
  {
    hide Conservation.Inv, Held, Kept, Metric, Losses;
    var s' := Exec(s, run);
    var before := (k: Key) => Held(s, k, kind) + Kept(s, k, kind);
    var after := (k: Key) => Kept(s', k, kind) + Held(s', k, kind);
    var counted := (k: Key) => Metric(s, run, k, kind);
    var lost := (k: Key) => Losses(s, run, k, kind);
    LabelIsSum(s, run, name, keys, kind);
    forall k ensures counted(k) + before(k) == after(k) + lost(k) {
      BooksBalance(s, run, k, kind);
    }
    SumAdds(keys, k => counted(k) + before(k), counted, before);
    SumAdds(keys, k => counted(k) + before(k), after, lost);
  }

  /** What the stored counters of a check show; an object that is not there shows nothing. */
  function Shown(s: State, key: Key, kind: Kind): int {
    if key !in s.store then 0
    else
      match kind
      case OfSuccess => s.store[key].status.successCount
      case OfFailure => s.store[key].status.failedCount
      case OfRemedySuccess => RemedyCount(s.store[key].history, true)
      case OfRemedyFailure => RemedyCount(s.store[key].history, false)
  }

  lemma ShownIsKept(start: Time, mapMade: bool, run: seq<Action>, key: Key, kind: Kind)
    requires ValidRun(Init(start, mapMade), run) && SerialRun(Init(start, mapMade), run, key)
    ensures Shown(Exec(Init(start, mapMade), run), key, kind) == Kept(Exec(Init(start, mapMade), run), key, kind)
  {
    if key in Exec(Init(start, mapMade), run).store { CountersCountTheHistory(start, mapMade, run, key); }
  }

  lemma NothingAtFirst(start: Time, mapMade: bool, key: Key, kind: Kind)
    ensures Held(Init(start, mapMade), key, kind) == 0 && Kept(Init(start, mapMade), key, kind) == 0
  {
  }

  /** In a run that is serial for each of the namesakes, the metric as the source labels it equals
      the sum of their stored counters, of what they hold and of what they lost. */
  lemma LabelAgainstCounters(start: Time, mapMade: bool, run: seq<Action>, name: string, keys: set<Key>, kind: Kind)
    requires ValidRun(Init(start, mapMade), run) && Actors(Init(start, mapMade), run, name) <= keys
    requires forall k :: k in keys ==> k.name == name && SerialRun(Init(start, mapMade), run, k)
    ensures var s0 := Init(start, mapMade);
            var s := Exec(s0, run);
            LabelMetric(s0, run, name, kind)
            == Sum(keys, k => Shown(s, k, kind)) + Sum(keys, k => Held(s, k, kind))
               + Sum(keys, k => Losses(s0, run, k, kind))
  {
    var s0 := Init(start, mapMade);
    var s := Exec(s0, run);
    var before := (k: Key) => Held(s0, k, kind) + Kept(s0, k, kind);
    var after := (k: Key) => Kept(s, k, kind) + Held(s, k, kind);
    LabelBooksBalance(s0, run, name, keys, kind);
    hide Held, Kept, Losses, Shown, ValidRun, Exec, SerialRun, Actors, Init, LabelMetric;
    forall k | k in keys ensures before(k) == 0 && after(k) == Shown(s, k, kind) + Held(s, k, kind) {
      NothingAtFirst(start, mapMade, k, kind);
      ShownIsKept(start, mapMade, run, k, kind);
    }
    SumZero(keys, before);
    SumAdds(keys, after, k => Shown(s, k, kind), k => Held(s, k, kind));
  }
}
