/** When the counters survive a stale cache. In a serial run with any outdated reads, as long as the
    copy every episode begins with carries the stored counts, the counters count the history; whatever
    else is outdated does not matter. */
module CurrentReads {
  import opened HealthChecks
  import opened StatusRules
  import opened Goroutines
  import opened Machine
  import opened Frames
  import opened Histories
  import opened SerialRuns
  import opened StaleReads
  import StatusInvariant
  import SpecSafety

  predicate SameCounts(st: Status, stored: Status) {
    st.successCount == stored.successCount && st.failedCount == stored.failedCount
  }

  /** Thread `tid` becomes `t'`: if it begins an episode of `key`, it does so on the stored counts. */
  predicate BeginsCounted(s: State, tid: nat, t': Thread, key: Key)
    requires tid < |s.threads|
  {
    s.threads[tid].key == key && !InEpisode(s.threads[tid].pc) && InEpisode(t'.pc) && key in s.store
    ==> SameCounts(t'.hc.status, s.store[key].status)
  }

  /** The answers under which a goroutine moves. */
  function Moves(a: CachedAction): Option<(nat, Answer)> {
    match a
    case Latest(action) => if action.Go? then Some((action.tid, action.answer)) else None
    case Outdated(tid, v) => Some((tid, Fetched(v.copy, v.rv)))
    case Missing(tid) => Some((tid, NotFound))
  }

  lemma MoversExist(c: Cached, a: CachedAction)
    requires CachedEnabled(c, a)
    ensures Moves(a).Some? ==> Moves(a).value.0 < |c.system.threads|
  {
  }

  ghost predicate CountedStep(c: Cached, a: CachedAction, key: Key)
    requires CachedEnabled(c, a)
  {
    MoversExist(c, a);
    && OneEpisode(CachedNext(c, a).system, key)
    && (a.Latest? ==> CreatesClean(c.system, a.action, key))
    && (Moves(a).Some? ==>
          var (tid, answer) := Moves(a).value;
          BeginsCounted(c.system, tid, Step(c.system.threads[tid], c.system.now, answer), key))
  }

  ghost predicate CountedRun(c: Cached, run: seq<CachedAction>, key: Key)
    requires CachedRun(c, run)
    decreases |run|
  {
    run == [] || (CountedStep(c, run[0], key) && CountedRun(CachedNext(c, run[0]), run[1..], key))
  }

  // ---------------------------------------------------------------- one goroutine

  /** The moving goroutine keeps up with the counts, whatever it has read. */
  lemma MoveCounts(t: Thread, h: seq<Event>, stored: Status, now: Time, a: Answer)
    requires InEpisode(t.pc) ==> Counts(h + t.unsaved, t.hc.status)
    requires Unread(t.pc) || t.pc.Decide? ==> t.unsaved == []
    requires Counts(h, stored) && StatusInvariant.ThreadOk(t, now)
    requires !InEpisode(t.pc) && InEpisode(Step(t, now, a).pc) ==> SameCounts(Step(t, now, a).hc.status, stored)
    ensures var t' := Step(t, now, a);
            && (InEpisode(t'.pc) ==>
                  Counts((if t.pc.WritePut? && a.Done? then h + t.unsaved else h) + t'.unsaved, t'.hc.status))
            && (Unread(t'.pc) || t'.pc.Decide? ==> t'.unsaved == [])
  {
    hide Step, StatusInvariant.ThreadOk;
    var t' := Step(t, now, a);
    if Unread(t'.pc) || t'.pc.Decide? {
      EntersDecide(t, now, a);
    } else if InEpisode(t'.pc) && InEpisode(t.pc) {
      assert EpisodeOk(t, h, now, AnySpec);
      EpisodeStepTracks(t, h, now, a, AnySpec);
    } else if InEpisode(t'.pc) {
      EntersEpisode(t, now, a);
      assert h + [] == h;
    }
  }

  // ---------------------------------------------------------------- the invariant

  ghost predicate ThreadCounts(s: State, t: Thread) {
    && (Unread(t.pc) || t.pc.Decide? ==> t.unsaved == [])
    && (InEpisode(t.pc) && t.key in s.store ==> Counts(s.store[t.key].history + t.unsaved, t.hc.status))
  }

  ghost predicate Counting(s: State, key: Key) {
    && OneEpisode(s, key)
    && (key in s.store ==> Counts(s.store[key].history, s.store[key].status))
    && forall i :: 0 <= i < |s.threads| && s.threads[i].key == key ==> ThreadCounts(s, s.threads[i])
  }

  ghost predicate CountingInv(c: Cached, key: Key) {
    StaleReads.Inv(c) && Counting(c.system, key)
  }

  lemma StoredCounts(h: seq<Event>, st: Status)
    requires Counts(h, st)
    ensures Counts(h, Stored(st))
  {
  }

  /** A step with an up-to-date answer. */
  lemma GoKeepsCounting(s: State, tid: nat, a: Answer, key: Key)
    requires SpecSafety.Inv(s) && StatusInvariant.Inv(s) && Counting(s, key) && CanGo(s, tid, a)
    requires OneEpisode(GoNext(s, tid, a), key)
    requires BeginsCounted(s, tid, Step(s.threads[tid], s.now, a), key)
    ensures Counting(GoNext(s, tid, a), key)
  {
    hide Step, Effect, Answerable, GoNext, AfterStep, SpecSafety.Inv, Counts, StatusInvariant.ThreadOk;
    var t := s.threads[tid];
    var s' := GoNext(s, tid, a);
    GoFrame(s, tid, a);
    ObjectAfterGo(s, tid, a, key);
    if t.key == key {
      assert ThreadCounts(s, t) && StatusInvariant.ThreadOk(t, s.now);
      GoMovesCounted(s, tid, a, key);
    }
    forall i | 0 <= i < |s'.threads| && s'.threads[i].key == key ensures ThreadCounts(s', s'.threads[i]) {
      if i != tid { OthersStayCounted(s, tid, a, key, i); }
    }
  }

  lemma GoMovesCounted(s: State, tid: nat, a: Answer, key: Key)
    requires SpecSafety.Inv(s) && Counting(s, key) && CanGo(s, tid, a) && s.threads[tid].key == key
    requires StatusInvariant.ThreadOk(s.threads[tid], s.now)
    requires BeginsCounted(s, tid, Step(s.threads[tid], s.now, a), key)
    ensures key in GoNext(s, tid, a).store ==>
              Counts(GoNext(s, tid, a).store[key].history, GoNext(s, tid, a).store[key].status)
    ensures ThreadCounts(GoNext(s, tid, a), Step(s.threads[tid], s.now, a))
  {
    hide Step, Effect, Answerable, GoNext, AfterStep, SpecSafety.Inv, Counts, StatusInvariant.ThreadOk;
    var t := s.threads[tid];
    assert ThreadCounts(s, t);
    ObjectAfterGo(s, tid, a, key);
    WriterIsInEpisode(t, s.now, a);
    if key in s.store {
      MoveCounts(t, s.store[key].history, s.store[key].status, s.now, a);
      if t.pc.WritePut? && TookEffect(a) { StoredCounts(s.store[key].history + t.unsaved, t.hc.status); }
    } else if Unread(Step(t, s.now, a).pc) || Step(t, s.now, a).pc.Decide? {
      EntersDecide(t, s.now, a);
    }
  }

  /** A write is part of an episode, and one whose reply is lost ends it. */
  lemma WriterIsInEpisode(t: Thread, now: Time, a: Answer)
    ensures t.pc.WritePut? ==> InEpisode(t.pc)
    ensures t.pc.WritePut? && TookEffect(a) && !a.Done? ==> !InEpisode(Step(t, now, a).pc)
  {
    LostWritesEnd(t, now, a);
    hide Step;
  }

  lemma OthersStayCounted(s: State, tid: nat, a: Answer, key: Key, other: nat)
    requires SpecSafety.Inv(s) && Counting(s, key) && CanGo(s, tid, a)
    requires other < |s.threads| && other != tid && s.threads[other].key == key
    ensures ThreadCounts(GoNext(s, tid, a), s.threads[other])
  {
    hide Step, Effect, Answerable, GoNext, AfterStep, SpecSafety.Inv, Counts;
    ObjectAfterGo(s, tid, a, key);
    assert ThreadCounts(s, s.threads[other]);
    assert Runs(s.threads[tid], key) && Runs(s.threads[other], key) ==> tid == other;
  }

  /** An outdated read, or none. */
  lemma ReadKeepsCounting(s: State, tid: nat, a: Answer, key: Key)
    requires Counting(s, key) && StatusInvariant.Inv(s) && CanRead(s, tid)
    requires OneEpisode(Answered(s, tid, a), key)
    requires BeginsCounted(s, tid, Step(s.threads[tid], s.now, a), key)
    ensures Counting(Answered(s, tid, a), key)
  {
    hide Step, Counts, StatusInvariant.ThreadOk;
    var t := s.threads[tid];
    var t' := Step(t, s.now, a);
    ReadLeaves(t, s.now, a);
    assert Answered(s, tid, a) == s.(threads := s.threads[tid := t']);
    if t.key == key {
      assert ThreadCounts(s, t) && StatusInvariant.ThreadOk(t, s.now);
      if key in s.store {
        MoveCounts(t, s.store[key].history, s.store[key].status, s.now, a);
      } else if Unread(t'.pc) || t'.pc.Decide? {
        EntersDecide(t, s.now, a);
      }
    }
  }

  lemma OthersKeepCounting(s: State, a: Action, key: Key)
    requires Counting(s, key) && Enabled(s, a) && !a.Go? && OneEpisode(Next(s, a), key) && CreatesClean(s, a, key)
    ensures Counting(Next(s, a), key)
  {
    hide GoNext;
    var s' := Next(s, a);
    forall i | 0 <= i < |s'.threads| && s'.threads[i].key == key ensures ThreadCounts(s', s'.threads[i]) {
      if i < |s.threads| {
        assert ThreadCounts(s, s.threads[i]);
        assert a.UserCreate? && a.key == key ==> !Runs(s.threads[i], key);
      }
    }
  }

  lemma NextKeepsCounting(c: Cached, a: CachedAction, key: Key)
    requires CountingInv(c, key) && CachedEnabled(c, a) && CountedStep(c, a, key)
    ensures CountingInv(CachedNext(c, a), key)
  {
    StaleReads.NextKeepsInv(c, a);
    MoversExist(c, a);
    hide Counting, OneEpisode, BeginsCounted, CreatesClean, Next, Enabled, Answered, VersionOk;
    match a {
      case Latest(action) => LatestKeepsCounting(c.system, action, key);
      case Outdated(tid, v) => ReadKeepsCounting(c.system, tid, Fetched(v.copy, v.rv), key);
      case Missing(tid) => ReadKeepsCounting(c.system, tid, NotFound, key);
    }
  }

  lemma LatestKeepsCounting(s: State, a: Action, key: Key)
    requires SpecSafety.Inv(s) && StatusInvariant.Inv(s) && Counting(s, key) && Enabled(s, a)
    requires OneEpisode(Next(s, a), key) && CreatesClean(s, a, key)
    requires a.Go? ==> BeginsCounted(s, a.tid, Step(s.threads[a.tid], s.now, a.answer), key)
    ensures Counting(Next(s, a), key)
  {
    hide Counting, OneEpisode, BeginsCounted, GoNext, SpecSafety.Inv, StatusInvariant.Inv, Step, Answerable;
    if a.Go? { GoKeepsCounting(s, a.tid, a.answer, key); } else { OthersKeepCounting(s, a, key); }
  }

  lemma {:induction false} RunKeepsCounting(c: Cached, run: seq<CachedAction>, key: Key)
    requires CountingInv(c, key) && CachedRun(c, run) && CountedRun(c, run, key)
    ensures CountingInv(CachedExec(c, run), key)
    decreases |run|
  {
    hide CountingInv, CachedEnabled, CachedNext, CountedStep;
    if run != [] {
      NextKeepsCounting(c, run[0], key);
      RunKeepsCounting(CachedNext(c, run[0]), run[1..], key);
    }
  }

  /** In any run in which the episodes of a check do not overlap and each begins with the stored
      counts, whatever else is read outdated or not found: the counters count the history. */
  lemma CurrentReadsKeepCounts(start: Time, mapMade: bool, run: seq<CachedAction>, key: Key)
    requires CachedRun(Cached(Init(start, mapMade), {}), run) && CountedRun(Cached(Init(start, mapMade), {}), run, key)
    requires key in CachedExec(Cached(Init(start, mapMade), {}), run).system.store
    ensures var o := CachedExec(Cached(Init(start, mapMade), {}), run).system.store[key];
            && o.status.successCount == Successes(o.history)
            && o.status.failedCount == Failures(o.history)
  {
    var c := Cached(Init(start, mapMade), {});
    StaleReads.InitInv(start, mapMade);
    assert Counting(c.system, key);
    RunKeepsCounting(c, run, key);
    hide StaleReads.Inv;
  }
}
