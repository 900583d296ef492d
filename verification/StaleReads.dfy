/** The manager's client reads from a cache. Here a Get may answer with any version the API server
    has ever held, or say that an object is not there although it is. Writes are still checked
    against the stored version. What the other modules prove of specs, statuses and timers holds
    all the same. */
module StaleReads {
  import opened HealthChecks
  import opened StatusRules
  import opened Goroutines
  import opened Machine
  import opened Frames
  import SpecSafety
  import StatusInvariant
  import TimerSafety
  import Conservation
  import opened Accounting
  import Sums

  datatype Version = Version(key: Key, copy: Copy, rv: nat)

  /** A system and all the versions there have been. */
  datatype Cached = Cached(system: State, seen: set<Version>)

  datatype CachedAction =
    | Latest(action: Action)
    | Outdated(tid: nat, version: Version)
    | Missing(tid: nat)

  function Versions(s: State): set<Version> {
    set k | k in s.store :: Version(k, CopyOf(s.store[k]), s.store[k].rv)
  }

  predicate ReadsObject(pc: Pc) {
    pc.ReconcileGet? || pc.TimerGet? || pc.WriteGet? || pc.LastGet?
  }

  predicate CanRead(s: State, tid: nat) {
    tid < |s.threads| && ReadsObject(s.threads[tid].pc)
  }

  predicate CachedEnabled(c: Cached, a: CachedAction) {
    match a
    case Latest(action) => Enabled(c.system, action)
    case Outdated(tid, v) => CanRead(c.system, tid) && v in c.seen && v.key == c.system.threads[tid].key
    case Missing(tid) => CanRead(c.system, tid)
  }

  function Answered(s: State, tid: nat, a: Answer): State
    requires CanRead(s, tid)
  {
    AfterStep(s, tid, Step(s.threads[tid], s.now, a))
  }

  function CachedNext(c: Cached, a: CachedAction): Cached
    requires CachedEnabled(c, a)
  {
    match a
    case Latest(action) => Cached(Next(c.system, action), c.seen + Versions(Next(c.system, action)))
    case Outdated(tid, v) => c.(system := Answered(c.system, tid, Fetched(v.copy, v.rv)))
    case Missing(tid) => c.(system := Answered(c.system, tid, NotFound))
  }

  predicate CachedRun(c: Cached, run: seq<CachedAction>)
    decreases |run|
  {
    run == [] || (CachedEnabled(c, run[0]) && CachedRun(CachedNext(c, run[0]), run[1..]))
  }

  function CachedExec(c: Cached, run: seq<CachedAction>): Cached
    requires CachedRun(c, run)
    decreases |run|
  {
    if run == [] then c else CachedExec(CachedNext(c, run[0]), run[1..])
  }

  // ---------------------------------------------------------------- the invariant

  /** A version whose number is still stored is what is stored. */
  ghost predicate VersionOk(s: State, v: Version) {
    && v.rv < s.nextRv
    && (v.key in s.store && s.store[v.key].rv == v.rv ==> v.copy == CopyOf(s.store[v.key]))
    && Consistent(v.copy.status, s.now)
  }

  ghost predicate Inv(c: Cached) {
    && SpecSafety.Inv(c.system) && StatusInvariant.Inv(c.system) && TimerSafety.Inv(c.system)
    && Conservation.Inv(c.system)
    && forall v :: v in c.seen ==> VersionOk(c.system, v)
  }

  /** An action leaves an object as it is or gives it a number never given before. */
  ghost predicate Renewed(s: State, s': State) {
    && s.nextRv <= s'.nextRv && s.now <= s'.now
    && forall k :: k in s'.store ==>
         || s'.store[k].rv == s.nextRv
         || (k in s.store && s'.store[k].rv == s.store[k].rv && CopyOf(s'.store[k]) == CopyOf(s.store[k]))
  }

  lemma GoRenews(s: State, tid: nat, a: Answer)
    requires CanGo(s, tid, a)
    ensures Renewed(s, GoNext(s, tid, a))
  {
    hide Step, Effect, Answerable, GoNext;
    GoFrame(s, tid, a);
    EffectFrame(s, tid, a);
    if Writes(s.threads[tid], a) {
      if s.threads[tid].pc.WritePut? { EffectStatusWrite(s, tid, a); } else { EffectMainWrite(s, tid, a); }
    }
  }

  lemma ActionRenews(s: State, a: Action)
    requires Enabled(s, a)
    ensures Renewed(s, Next(s, a))
  {
    hide GoNext;
    if a.Go? { GoRenews(s, a.tid, a.answer); }
  }

  lemma VersionStaysOk(s: State, s': State, v: Version)
    requires VersionOk(s, v) && Renewed(s, s')
    ensures VersionOk(s', v)
  {
  }

  lemma LatestKeepsInv(c: Cached, a: Action)
    requires Inv(c) && Enabled(c.system, a)
    ensures Inv(CachedNext(c, Latest(a)))
    ensures SpecSafety.Specs(Next(c.system, a)) == SpecSafety.UserSpecs(SpecSafety.Specs(c.system), [a])
  {
    hide Next, Enabled, VersionOk, Renewed;
    var s' := Next(c.system, a);
    SpecSafety.NextKeepsInv(c.system, a);
    StatusInvariant.NextKeepsInv(c.system, a);
    TimerSafety.NextKeepsInv(c.system, a);
    Conservation.NextKeepsInv(c.system, a);
    hide Conservation.Inv, TimerSafety.Inv;
    ActionRenews(c.system, a);
    forall v | v in c.seen + Versions(s') ensures VersionOk(s', v) {
      if v in c.seen { VersionStaysOk(c.system, s', v); } else { StoredIsOk(s', v); }
    }
  }

  lemma StoredIsOk(s: State, v: Version)
    requires SpecSafety.Inv(s) && StatusInvariant.Inv(s) && v in Versions(s)
    ensures VersionOk(s, v)
  {
  }

  /** Reading an old version, or nothing: the thread moves, and nothing else does. */
  lemma ReadKeepsInv(c: Cached, tid: nat, a: Answer)
    requires Inv(c) && CanRead(c.system, tid)
    requires a.NotFound? || (a.Fetched? && VersionOk(c.system, Version(c.system.threads[tid].key, a.copy, a.rv)))
    ensures Inv(c.(system := Answered(c.system, tid, a)))
    ensures Answered(c.system, tid, a).store == c.system.store
  {
    hide Step, Consistent, TimerSafety.Core;
    ReadKeepsFates(c.system, tid, a);
    hide Conservation.Inv;
    var s := c.system;
    var t := s.threads[tid];
    var t' := Step(t, s.now, a);
    ReadLeaves(t, s.now, a);
    StatusInvariant.StepKeepsOk(t, s.now, a);
    TimerSafety.StepFollows(t, s.now, a);
    TimerSafety.QuietKeepsCore(s, s, tid, t', a);
    TimerSafety.NamesStay(s, tid, t');
    assert Answered(s, tid, a) == s.(threads := s.threads[tid := t']);
  }

  lemma ReadKeepsFates(s: State, tid: nat, a: Answer)
    requires Conservation.Inv(s) && CanRead(s, tid)
    ensures Conservation.Inv(Answered(s, tid, a))
  {
    hide Step, Conservation.Records, Conservation.Shape, Conservation.Claim;
    var t := s.threads[tid];
    var t' := Step(t, s.now, a);
    ReadLeaves(t, s.now, a);
    Conservation.StepClaims(t, s.now, a);
    var s' := Answered(s, tid, a);
    assert s' == s.(threads := s.threads[tid := t']);
    SameStoreSameRecords(s, s');
    assert forall i :: 0 <= i < |s'.threads| ==> s'.threads[i] == if i == tid then t' else s.threads[i];
  }

  lemma SameStoreSameRecords(s: State, s': State)
    requires s'.store == s.store
    ensures forall k, i, wf :: Conservation.Records(s', k, i, wf) <==> Conservation.Records(s, k, i, wf)
  {
  }

  lemma ReadLeaves(t: Thread, now: Time, a: Answer)
    requires ReadsObject(t.pc)
    ensures var t' := Step(t, now, a);
            && !t'.pc.Panicked?
            && (t'.pc.LastPut? ==> a.Fetched? && t'.pc.rv == a.rv && t'.pc.spec == a.copy.spec)
  {
    hide StepPoll, StepRemedyPoll, StepDecide, StepSubmit, StepRemedySubmit, StepRbac;
  }

  lemma NextKeepsInv(c: Cached, a: CachedAction)
    requires Inv(c) && CachedEnabled(c, a)
    ensures Inv(CachedNext(c, a))
    ensures SpecSafety.Specs(CachedNext(c, a).system)
            == if a.Latest? then SpecSafety.UserSpecs(SpecSafety.Specs(c.system), [a.action])
               else SpecSafety.Specs(c.system)
  {
    hide SpecSafety.Inv, StatusInvariant.Inv, TimerSafety.Inv, VersionOk, Next, Enabled, Answered;
    match a {
      case Latest(action) => LatestKeepsInv(c, action);
      case Outdated(tid, v) => ReadKeepsInv(c, tid, Fetched(v.copy, v.rv));
      case Missing(tid) => ReadKeepsInv(c, tid, NotFound);
    }
  }

  function LatestActions(run: seq<CachedAction>): seq<Action> {
    if run == [] then []
    else (if run[0].Latest? then [run[0].action] else []) + LatestActions(run[1..])
  }

  lemma {:induction false} RunKeepsInv(c: Cached, run: seq<CachedAction>)
    requires Inv(c) && CachedRun(c, run)
    ensures Inv(CachedExec(c, run))
    ensures SpecSafety.Specs(CachedExec(c, run).system)
            == SpecSafety.UserSpecs(SpecSafety.Specs(c.system), LatestActions(run))
    decreases |run|
  {
    hide Inv, CachedEnabled, CachedNext, SpecSafety.Specs;
    if run != [] {
      NextKeepsInv(c, run[0]);
      RunKeepsInv(CachedNext(c, run[0]), run[1..]);
      var rest := LatestActions(run[1..]);
      assert run[0].Latest? ==> ([run[0].action] + rest)[0] == run[0].action && ([run[0].action] + rest)[1..] == rest;
      assert !run[0].Latest? ==> [] + rest == rest;
    }
  }

  lemma InitInv(start: Time, mapMade: bool)
    ensures Inv(Cached(Init(start, mapMade), {}))
  {
    TimerSafety.InitOk(start, mapMade);
  }

  /** With reads as stale as can be, under any interleaving: the stored specs are those the users'
      requests alone produce, every stored status is consistent and so is every status in memory, and
      at most one timer is pending for a name. */
  lemma StaleReadsAreSafe(start: Time, mapMade: bool, run: seq<CachedAction>)
    requires CachedRun(Cached(Init(start, mapMade), {}), run)
    ensures var s := CachedExec(Cached(Init(start, mapMade), {}), run).system;
            && SpecSafety.Specs(s) == SpecSafety.UserSpecs(map[], LatestActions(run))
            && (forall k :: k in s.store ==> Consistent(s.store[k].status, s.now))
            && (forall i :: 0 <= i < |s.threads| ==> Consistent(s.threads[i].hc.status, s.now))
            && (forall wf :: Conservation.OneFate(s, wf))
            && (forall i, j :: 0 <= i < j < |s.timers| && s.timers[i].live && s.timers[j].live ==>
                  s.timers[i].key.name != s.timers[j].key.name)
  {
    var c := Cached(Init(start, mapMade), {});
    InitInv(start, mapMade);
    assert SpecSafety.Specs(c.system) == map[];
    RunKeepsInv(c, run);
    hide CachedRun, CachedExec, Conservation.Inv, Conservation.OneFate;
    forall wf ensures Conservation.OneFate(CachedExec(c, run).system, wf) {
      Conservation.InvGivesOneFate(CachedExec(c, run).system, wf);
    }
  }

  // ---------------------------------------------------------------- the books

  function CachedCounted(c: Cached, a: CachedAction, key: Key, kind: Kind): nat
    requires CachedEnabled(c, a)
  {
    if a.Latest? then Counted(c.system, a.action, key, kind) else 0
  }

  function CachedLost(c: Cached, a: CachedAction, key: Key, kind: Kind): int
    requires CachedEnabled(c, a)
  {
    match a
    case Latest(action) => Lost(c.system, action, key, kind)
    case Outdated(tid, v) => ReadLost(c.system, tid, Fetched(v.copy, v.rv), key, kind)
    case Missing(tid) => ReadLost(c.system, tid, NotFound, key, kind)
  }

  /** An episode that cannot read its object gives up what it has recorded. */
  function ReadLost(s: State, tid: nat, a: Answer, key: Key, kind: Kind): nat
    requires CanRead(s, tid)
  {
    DroppedBy(s.threads[tid], Step(s.threads[tid], s.now, a), a, key, kind)
  }

  lemma ReadBalances(s: State, tid: nat, a: Answer, key: Key, kind: Kind)
    requires Conservation.Inv(s) && CanRead(s, tid)
    ensures Held(s, key, kind) + Kept(s, key, kind)
            == Held(Answered(s, tid, a), key, kind) + Kept(Answered(s, tid, a), key, kind)
               + ReadLost(s, tid, a, key, kind)
  {
    hide Step, HeldBy, DroppedBy, Tally, Answered, Held, Kept, Bumps;
    var t := s.threads[tid];
    var t' := Step(t, s.now, a);
    ReadHolds(s, tid, a, key, kind);
    assert Conservation.Shape(t);
    if t.key == key { StepBooks(t, s.now, a, key, kind); } else { OthersHoldNothing(t, t', a, key, kind); }
  }

  lemma ReadHolds(s: State, tid: nat, a: Answer, key: Key, kind: Kind)
    requires CanRead(s, tid)
    ensures var t := s.threads[tid];
            && Held(Answered(s, tid, a), key, kind)
               == Held(s, key, kind) - HeldBy(t, key, kind) + HeldBy(Step(t, s.now, a), key, kind)
            && Kept(Answered(s, tid, a), key, kind) == Kept(s, key, kind)
            && Bumps(t, a, kind) == 0 && !Persists(t, a)
  {
    hide Step, HeldBy, Tally;
    var t' := Step(s.threads[tid], s.now, a);
    ReadLeaves(s.threads[tid], s.now, a);
    Sums.TotalUpdate(s.threads, tid, t', (u: Thread) => HeldBy(u, key, kind));
  }

  lemma OthersHoldNothing(t: Thread, t': Thread, a: Answer, key: Key, kind: Kind)
    requires t.key != key && t'.key == t.key
    ensures HeldBy(t, key, kind) == 0 && HeldBy(t', key, kind) == 0 && DroppedBy(t, t', a, key, kind) == 0
  {
  }

  function CachedMetric(c: Cached, run: seq<CachedAction>, key: Key, kind: Kind): nat
    requires CachedRun(c, run)
    decreases |run|
  {
    if run == [] then 0
    else CachedCounted(c, run[0], key, kind) + CachedMetric(CachedNext(c, run[0]), run[1..], key, kind)
  }

  function CachedLosses(c: Cached, run: seq<CachedAction>, key: Key, kind: Kind): int
    requires CachedRun(c, run)
    decreases |run|
  {
    if run == [] then 0 else CachedLost(c, run[0], key, kind) + CachedLosses(CachedNext(c, run[0]), run[1..], key, kind)
  }

  lemma ActionStillBalances(c: Cached, a: CachedAction, key: Key, kind: Kind)
    requires Inv(c) && CachedEnabled(c, a)
    ensures Held(c.system, key, kind) + Kept(c.system, key, kind) + CachedCounted(c, a, key, kind)
            == Held(CachedNext(c, a).system, key, kind) + Kept(CachedNext(c, a).system, key, kind)
               + CachedLost(c, a, key, kind)
  {
    hide Conservation.Inv, Held, Kept, Next, Enabled, Answered, Counted, Lost, ReadLost;
    match a {
      case Latest(action) => ActionBalances(c.system, action, key, kind);
      case Outdated(tid, v) => ReadBalances(c.system, tid, Fetched(v.copy, v.rv), key, kind);
      case Missing(tid) => ReadBalances(c.system, tid, NotFound, key, kind);
    }
  }

  /** The books of every check balance with stale reads, too. */
  lemma {:induction false} BooksStillBalance(c: Cached, run: seq<CachedAction>, key: Key, kind: Kind)
    requires Inv(c) && CachedRun(c, run)
    ensures CachedMetric(c, run, key, kind) + Held(c.system, key, kind) + Kept(c.system, key, kind)
            == Kept(CachedExec(c, run).system, key, kind) + Held(CachedExec(c, run).system, key, kind)
               + CachedLosses(c, run, key, kind)
    decreases |run|
  {
    hide Inv, CachedEnabled, CachedNext, Held, Kept, CachedCounted, CachedLost;
    if run != [] {
      ActionStillBalances(c, run[0], key, kind);
      NextKeepsInv(c, run[0]);
      BooksStillBalance(CachedNext(c, run[0]), run[1..], key, kind);
    }
  }
}
