/** Specs belong to the users. The controller edits specs in memory and writes both halves of
    an object; under any interleaving, what is stored as spec is what users put there. */
module SpecSafety {
  import opened HealthChecks
  import opened Goroutines
  import opened Machine
  import opened Frames

  /** resourceVersions are unique: a thread about to write the main resource holds the spec
      that goes with the version it read. */
  ghost predicate Inv(s: State) {
    && (forall k :: k in s.store ==> s.store[k].rv < s.nextRv)
    && (forall i :: 0 <= i < |s.threads| ==> LastPutOk(s, s.threads[i]))
  }

  ghost predicate LastPutOk(s: State, t: Thread) {
    t.pc.LastPut? ==>
      && t.pc.rv < s.nextRv
      && (t.key in s.store && s.store[t.key].rv == t.pc.rv ==> s.store[t.key].spec == t.pc.spec)
  }

  function Specs(s: State): map<Key, Spec> {
    map k | k in s.store :: s.store[k].spec
  }

  /** The specs that result when only the users' requests count. */
  function UserSpecs(specs: map<Key, Spec>, run: seq<Action>): map<Key, Spec>
    decreases |run|
  {
    if run == [] then specs
    else
      match run[0]
      case UserCreate(key, spec) => UserSpecs(specs[key := spec], run[1..])
      case UserEdit(key, spec) => UserSpecs(specs[key := spec], run[1..])
      case UserRemove(key) => UserSpecs(specs - {key}, run[1..])
      case _ => UserSpecs(specs, run[1..])
  }

  lemma LastPutComesFromGet(t: Thread, now: Time, a: Answer)
    requires Step(t, now, a).pc.LastPut?
    ensures t.pc.LastGet? && a.Fetched?
    ensures Step(t, now, a).pc == LastPut(t.pc.left, a.rv, a.copy.spec)
  {
    match t.pc {
      case Poll(_, _, _) =>
      case RemedyPoll(_, _, _) =>
      case _ =>
    }
  }

  lemma GoKeepsInv(s: State, tid: nat, a: Answer)
    requires Inv(s) && CanGo(s, tid, a)
    ensures Inv(GoNext(s, tid, a)) && Specs(GoNext(s, tid, a)) == Specs(s)
  {
    hide Step, Effect, Answerable, AfterStep, GoNext;
    var t := s.threads[tid];
    var t' := Step(t, s.now, a);
    GoFrame(s, tid, a);
    EffectFrame(s, tid, a);
    if t'.pc.LastPut? {
      LastPutComesFromGet(t, s.now, a);
      FetchedIsStored(s, tid, a);
    }
    if Writes(t, a) {
      if t.pc.WritePut? { EffectStatusWrite(s, tid, a); } else { EffectMainWrite(s, tid, a); }
    }
  }

  lemma NextKeepsInv(s: State, a: Action)
    requires Inv(s) && Enabled(s, a)
    ensures Inv(Next(s, a))
    ensures Specs(Next(s, a)) == UserSpecs(Specs(s), [a])
  {
    hide GoNext, Answerable, LastPutOk;
    if a.Go? {
      GoKeepsInv(s, a.tid, a.answer);
    } else {
      OthersKeepInv(s, a);
    }
    assert [a][1..] == [];
  }

  lemma OthersKeepInv(s: State, a: Action)
    requires Inv(s) && Enabled(s, a) && !a.Go?
    ensures Inv(Next(s, a))
  {
    hide GoNext;
  }

  lemma {:induction false} RunKeepsInv(s: State, run: seq<Action>)
    requires Inv(s) && ValidRun(s, run)
    ensures Inv(Exec(s, run))
    ensures Specs(Exec(s, run)) == UserSpecs(Specs(s), run)
    decreases |run|
  {
    if run != [] {
      NextKeepsInv(s, run[0]);
      RunKeepsInv(Next(s, run[0]), run[1..]);
      assert UserSpecs(Specs(s), run) == UserSpecs(UserSpecs(Specs(s), [run[0]]), run[1..]);
    }
  }

  /** The stored specs of any run, with any number of concurrent editors, goroutines, lost
      replies and crashes, are the specs the users' requests alone produce. */
  lemma ControllerNeverChangesASpec(start: Time, mapMade: bool, run: seq<Action>)
    requires ValidRun(Init(start, mapMade), run)
    ensures Specs(Exec(Init(start, mapMade), run)) == UserSpecs(map[], run)
  {
    RunKeepsInv(Init(start, mapMade), run);
    assert Specs(Init(start, mapMade)) == map[];
  }

  /** A status write that takes effect stores the given status, to the second, beside the spec
      that is stored at that moment; any other step of a goroutine leaves every status alone. */
  lemma StatusWritesAreExact(s: State, tid: nat, a: Answer)
    requires CanGo(s, tid, a)
    ensures var t := s.threads[tid];
            var s' := GoNext(s, tid, a);
            if t.pc.WritePut? && TookEffect(a) then
              && t.key in s.store && t.key in s'.store
              && s'.store[t.key].status == Stored(t.hc.status)
              && s'.store[t.key].spec == s.store[t.key].spec
              && s'.store - {t.key} == s.store - {t.key}
            else
              && s'.store.Keys == s.store.Keys
              && forall k :: k in s.store ==>
                   s'.store[k].status == s.store[k].status && s'.store[k].history == s.store[k].history
  {
    hide Step, Effect, Answerable, AfterStep, GoNext;
    var t := s.threads[tid];
    GoFrame(s, tid, a);
    EffectFrame(s, tid, a);
    if Writes(t, a) {
      if t.pc.WritePut? { EffectStatusWrite(s, tid, a); } else { EffectMainWrite(s, tid, a); }
    }
  }
}
