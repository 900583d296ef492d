/** The controller's methods, statement by statement, each proved to take exactly the steps of
    the program in Goroutines: whatever the outside world answers, the thread of the machine
    that got the same answers is where the method is, with the same object in memory. */
module Controller {
  import opened HealthChecks
  import opened StatusRules
  import opened Goroutines
  import RbacNames
  import Templates

  /** The in-memory object a goroutine works on. `unsaved` is its record of unpersisted events. */
  class HealthCheck {
    const key: Key
    const origin: Origin
    var spec: Spec
    var status: Status
    var deleting: bool
    ghost var unsaved: seq<Event>

    constructor (key: Key, origin: Origin)
      ensures this.key == key && this.origin == origin
      ensures ThreadAt(NewThread(key, origin).pc) == NewThread(key, origin)
    {
      this.key, this.origin := key, origin;
      spec, status, deleting := BLANK.spec, BLANK.status, BLANK.deleting;
      unsaved := [];
    }

    function Value(): Copy
      reads this
    {
      Copy(spec, status, deleting)
    }

    /** The machine's thread that works on this object and stands at `pc`. */
    ghost function ThreadAt(pc: Pc): Thread
      reads this
    {
      Thread(key, origin, pc, Value(), unsaved)
    }

    method Load(copy: Copy)
      modifies this
      ensures Value() == copy && unsaved == old(unsaved)
    {
      spec, status, deleting := copy.spec, copy.status, copy.deleting;
    }
  }

  /** The back-off iterator of one watch: it grants a number of waits and then errors for good. */
  class BackoffIterator {
    var left: nat

    constructor (polls: nat)
      ensures left == polls
    {
      left := polls;
    }

    predicate Errored()
      reads this
    {
      left == 0
    }

    /** Advancing an iterator that has errored is not part of its contract. */
    method Next()
      requires !Errored()
      modifies this
      ensures left == old(left) - 1
    {
      left := left - 1;
    }
  }

  /** How a method comes back: without an error, with one, or not at all. */
  datatype Exit = Nil | Err | Panic

  /** Everything outside one goroutine. Each call reads the clock and gets an answer nobody
      controls: the answers are arbitrary functions of the number of the call. */
  class World {
    const clock: nat -> Time
    const fetches: nat -> Answer
    const writes: nat -> Answer
    const entries: nat -> Option<nat>
    const delays: nat -> Option<int>
    const lookups: nat -> Lookup
    const grants: nat -> nat
    const allowed: nat -> bool
    const submissions: nat -> (Option<string>, Templates.Decoded)
    ghost const first: Thread
    ghost var thread: Thread
    var log: seq<Reply>

    constructor (clock: nat -> Time, fetches: nat -> Answer, writes: nat -> Answer, entries: nat -> Option<nat>,
                 delays: nat -> Option<int>, lookups: nat -> Lookup, grants: nat -> nat, allowed: nat -> bool,
                 submissions: nat -> (Option<string>, Templates.Decoded), ghost first: Thread)
      ensures Valid() && log == [] && this.first == first && thread == first
    {
      this.clock, this.fetches, this.writes, this.entries, this.delays := clock, fetches, writes, entries, delays;
      this.lookups, this.grants, this.allowed, this.submissions := lookups, grants, allowed, submissions;
      this.first, this.thread, this.log := first, first, [];
    }

    /** `thread` is the machine's thread after the answers logged so far. */
    ghost predicate Valid()
      reads this
    {
      thread == Run(first, log)
    }

    /** From call `n` on, round `i` of a read and a write meets a conflict. */
    ghost predicate Conflicts(n: nat, i: nat) {
      fetches(n + 2 * i).Fetched? && writes(n + 2 * i + 1).Conflict?
    }

    /** From call `n` on, `k` rounds meet a conflict and the next one takes. */
    ghost predicate WritesAfter(n: nat, k: nat) {
      && (forall i: nat :: i < k ==> Conflicts(n, i))
      && fetches(n + 2 * k).Fetched? && writes(n + 2 * k + 1).Done?
    }

    lemma MeetsConflict(n: nat, i: nat)
      requires fetches(n + 2 * i).Fetched? && writes(n + 2 * i + 1).Conflict?
      ensures Conflicts(n, i)
    {
    }

    lemma TakesAt(n: nat, m: nat)
      requires forall i: nat :: i < m ==> Conflicts(n, i)
      requires fetches(n + 2 * m).Fetched? && writes(n + 2 * m + 1).Done?
      ensures WritesAfter(n, m) && forall k: nat :: WritesAfter(n, k) ==> k == m
    {
      forall k: nat | WritesAfter(n, k) ensures k == m {
        var there, here := Conflicts(n, k), Conflicts(n, m);
      }
    }

    lemma GivesUpAt(n: nat, m: nat)
      requires m < 5 && forall i: nat :: i < m ==> Conflicts(n, i)
      requires fetches(n + 2 * m).Fetched? ==>
                 !writes(n + 2 * m + 1).Done? && (m < 4 ==> !writes(n + 2 * m + 1).Conflict?)
      ensures forall k: nat :: k < 5 ==> !WritesAfter(n, k)
    {
      forall k: nat | k < 5 ensures !WritesAfter(n, k) {
        var there, here := Conflicts(n, k), Conflicts(n, m);
      }
    }

    method Record(now: Time, a: Answer)
      requires Valid()
      modifies this
      ensures Valid() && log == old(log) + [Reply(now, a)] && thread == Step(old(thread), now, a)
    {
      RunAppend(first, log, [Reply(now, a)]);
      log := log + [Reply(now, a)];
      thread := Step(thread, now, a);
    }

    /** r.Get on the HealthCheck. */
    method Get() returns (now: Time, a: Answer)
      requires Valid()
      modifies this
      ensures Valid() && thread == Step(old(thread), now, a) && |log| == |old(log)| + 1
      ensures now == clock(|old(log)|) && a == fetches(|old(log)|)
    {
      now, a := clock(|log|), fetches(|log|);
      Record(now, a);
    }

    /** time.Now(); the next call reads the same instant. */
    method Now() returns (now: Time)
      ensures now == clock(|log|)
    {
      now := clock(|log|);
    }

    /** r.Status().Update or r.Update. */
    method Put() returns (now: Time, a: Answer)
      requires Valid()
      modifies this
      ensures Valid() && thread == Step(old(thread), now, a) && |log| == |old(log)| + 1
      ensures now == clock(|old(log)|) && a == writes(|old(log)|)
    {
      now, a := clock(|log|), writes(|log|);
      Record(now, a);
    }

    method GetTimerByName(name: string) returns (now: Time, timer: Option<nat>)
      requires Valid()
      modifies this
      ensures Valid() && now == clock(old(|log|)) && thread == Step(old(thread), now, Entry(timer))
    {
      now, timer := clock(|log|), entries(|log|);
      Record(now, Entry(timer));
    }

    /** schedule.Next on the cron expression, as a number of seconds; None when it does not parse. */
    method NextCron() returns (now: Time, delay: Option<int>)
      requires Valid()
      modifies this
      ensures Valid() && now == clock(old(|log|)) && thread == Step(old(thread), now, CronDelay(delay))
    {
      now, delay := clock(|log|), delays(|log|);
      Record(now, CronDelay(delay));
    }

    /** A step that nothing outside decides. */
    method Proceed() returns (now: Time)
      requires Valid()
      modifies this
      ensures Valid() && now == clock(old(|log|)) && thread == Step(old(thread), now, Done)
    {
      now := clock(|log|);
      Record(now, Done);
    }

    /** An RBAC cycle, or the re-arm block: it succeeds or it does not. */
    method Call() returns (now: Time, ok: bool)
      requires Valid()
      modifies this
      ensures Valid() && thread == Step(old(thread), now, if ok then Done else Broken)
    {
      now, ok := clock(|log|), allowed(|log|);
      Record(now, if ok then Done else Broken);
    }

    method SubmitWorkflow() returns (now: Time, created: Option<string>, decoded: Templates.Decoded)
      requires Valid()
      modifies this
      ensures Valid() && thread == Step(old(thread), now, Submission(created, decoded))
    {
      var answer := submissions(|log|);
      now, created, decoded := clock(|log|), answer.0, answer.1;
      Record(now, Submission(created, decoded));
    }

    /** time.Now() and NewIEBWithTimeout at the head of a watch. */
    method BeginWatch() returns (began: Time, iterator_: BackoffIterator)
      requires Valid()
      modifies this
      ensures Valid() && fresh(iterator_) && thread == Step(old(thread), began, Budget(iterator_.left))
    {
      began := clock(|log|);
      var polls := grants(|log|);
      iterator_ := new BackoffIterator(polls);
      Record(began, Budget(polls));
    }

    method LookupWorkflow(wf: string) returns (now: Time, l: Lookup)
      requires Valid()
      modifies this
      ensures Valid() && thread == Step(old(thread), now, Saw(l))
    {
      now, l := clock(|log|), lookups(|log|);
      Record(now, Saw(l));
    }
  }

  // ---------------------------------------------------------------- status writes

  lemma StepAtWrite(t: Thread, now: Time, a: Answer)
    ensures t.pc.WriteGet? ==> Step(t, now, a) == StepWriteGet(t, a)
    ensures t.pc.WritePut? ==> Step(t, now, a) == StepWritePut(t, a)
  {
  }

  /** Where a write leaves a goroutine does not depend on where it stood. */
  lemma EndsAlike(t: Thread, u: Thread, w: Write)
    requires u == t.(pc := u.pc)
    ensures WriteDone(u, w) == WriteDone(t, w) && WriteFailed(u, w) == WriteFailed(t, w)
  {
  }

  /** updateHealthCheckStatus (1445-1462): read, replace the status, write, again on a conflict, in
      at most five rounds of two calls. */
  method UpdateHealthCheckStatus(world: World, hc: HealthCheck, w: Write) returns (ok: bool)
    requires world.Valid() && world.thread == hc.ThreadAt(WriteGet(w, ATTEMPTS))
    modifies world, hc`unsaved
    ensures world.Valid()
    ensures hc.unsaved == if ok then [] else old(hc.unsaved)
    ensures world.thread == if ok then WriteDone(old(hc.ThreadAt(WriteGet(w, ATTEMPTS))), w)
                            else WriteFailed(old(hc.ThreadAt(WriteGet(w, ATTEMPTS))), w)
    ensures |world.log| <= |old(world.log)| + 10
    ensures ok <==> exists k: nat :: k < 5 && world.WritesAfter(|old(world.log)|, k)
    ensures forall k: nat :: k < 5 && world.WritesAfter(|old(world.log)|, k) ==>
              |world.log| == |old(world.log)| + 2 * (k + 1)
  {
    hide Step, Run, WriteDone, WriteFailed, World.WritesAfter, World.Conflicts;
    ghost var first := world.thread;
    ghost var n := |world.log|;
    var left := ATTEMPTS;
    while true
      invariant 0 < left <= ATTEMPTS
      invariant world.Valid() && world.thread == hc.ThreadAt(WriteGet(w, left))
      invariant hc.unsaved == old(hc.unsaved)
      invariant |world.log| == n + 2 * (ATTEMPTS - left)
      invariant forall i: nat :: i < ATTEMPTS - left ==> world.Conflicts(n, i)
      decreases left
    {
      ghost var reading := world.thread;
      var now, read := world.Get();
      StepAtWrite(reading, now, read);
      EndsAlike(first, reading, w);
      if !read.Fetched? {
        world.GivesUpAt(n, ATTEMPTS - left);
        return false;
      }
      assert world.thread == hc.ThreadAt(WritePut(w, left, read.rv));
      ghost var writing := world.thread;
      var later, written := world.Put();
      StepAtWrite(writing, later, written);
      EndsAlike(first, writing, w);
      if written.Done? {
        hc.unsaved := [];
        world.TakesAt(n, ATTEMPTS - left);
        return true;
      }
      if !written.Conflict? || left == 1 {
        world.GivesUpAt(n, ATTEMPTS - left);
        return false;
      }
      world.MeetsConflict(n, ATTEMPTS - left);
      left := left - 1;
    }
  }

  /** Where the two watch functions go when their status write failed (735-743, 861-869), and
      where Reconcile goes when its Get failed (180-184). */
  method CancelTimer(world: World, hc: HealthCheck, probe: string) returns (exit: Exit)
    requires world.Valid() && world.thread == hc.ThreadAt(CancelLookup(probe))
    modifies world
    ensures world.Valid() && exit != Nil
    ensures world.thread == hc.ThreadAt(if exit == Err then Ended else Panicked)
  {
    var _, entry := world.GetTimerByName(probe);
    if entry.Some? {
      var _, timer := world.GetTimerByName(hc.key.name);
      if timer.None? {
        return Panic;
      }
      assert world.thread == hc.ThreadAt(CancelStop(timer.value));
      var _ := world.Proceed();
    }
    return Err;
  }

  /** The pc after a polling loop has ended without an error. */
  function FinishPc(hc: HealthCheck): Pc
    reads hc
  {
    if hc.deleting then ReturnPc(hc) else WriteGet(Final, ATTEMPTS)
  }

  function ReturnPc(hc: HealthCheck): Pc {
    if hc.origin.Reconcile? then LastGet(ATTEMPTS) else Ended
  }

  // ---------------------------------------------------------------- the remedy

  /** watchRemedyWorkflow (788-874). */
  method WatchRemedyWorkflow(world: World, hc: HealthCheck, wf: string) returns (exit: Exit)
    requires world.Valid() && world.thread == hc.ThreadAt(RemedyStart(wf))
    modifies world, hc`status, hc`unsaved
    ensures world.Valid()
    ensures world.thread == hc.ThreadAt(match exit case Nil => RemedyCleanup case Err => Ended case Panic => Panicked)
  {
    hide StepPoll, StepDecide, StepSubmit, StepRemedySubmit, StepRbac, StepLast, Run;
    hide RecordRemedySuccess, RecordRemedyFailure;
    var began, waits := world.BeginWatch();
    while true
      invariant world.Valid() && world.thread == hc.ThreadAt(RemedyPoll(wf, began, waits.left))
      invariant fresh(waits)
      modifies world, hc`status, hc`unsaved, waits
      decreases waits.left
    {
      var now, lookup := world.LookupWorkflow(wf);
      if lookup.LookupError? {
        return if lookup.notFound then Nil else Err;
      }
      if waits.Errored() {
        hc.status := RecordRemedyFailure(hc.status, began, now, wf, TIMED_OUT);
        hc.unsaved := hc.unsaved + [Remedied(false, now)];
        break;
      }
      if lookup.Found? {
        if lookup.phase == Passed {
          hc.status := RecordRemedySuccess(hc.status, began, now, wf);
          hc.unsaved := hc.unsaved + [Remedied(true, now)];
          break;
        } else if lookup.phase == Phase.Failed {
          hc.status := RecordRemedyFailure(hc.status, began, now, wf, lookup.message);
          hc.unsaved := hc.unsaved + [Remedied(false, now)];
          break;
        }
      }
      waits.Next();
    }
    if !hc.deleting {
      var ok := UpdateHealthCheckStatus(world, hc, AfterRemedy);
      if !ok {
        exit := CancelTimer(world, hc, "");
        return;
      }
    }
    return Nil;
  }

  /** processRemedyWorkflow (759-786). */
  method ProcessRemedyWorkflow(world: World, hc: HealthCheck) returns (exit: Exit)
    requires world.Valid() && world.thread == hc.ThreadAt(RemedyRbac)
    modifies world, hc
    ensures world.Valid() && hc.deleting == old(hc.deleting)
    ensures world.thread == hc.ThreadAt(match exit case Nil => FinishPc(hc) case Err => Ended case Panic => Panicked)
  {
    hide StepPoll, StepDecide, StepSubmit, StepRemedyPoll, StepWriteGet, StepWritePut, StepLast, Run;
    hide RbacNames.Refused, RbacNames.Renamed, Templates.ParseRemedyWorkflow;
    var _, granted := world.Call();
    var refused := RbacNames.Refused(hc.spec);
    hc.spec := RbacNames.Renamed(hc.spec);
    if !granted || refused {
      return Err;
    }
    assert world.thread == hc.ThreadAt(RemedySubmit);
    var _, created, decoded := world.SubmitWorkflow();
    if hc.spec.remedyWorkflow.resource.None? {
      return Err;
    }
    var parsed := Templates.ParseRemedyWorkflow(hc.spec, decoded);
    if parsed.LockHeldPanic? {
      return Panic;
    }
    hc.spec := Templates.SpecAfter(hc.spec, parsed);
    if created.None? {
      return Err;
    }
    exit := WatchRemedyWorkflow(world, hc, created.value);
    if exit != Nil {
      return;
    }
    var _, deleted := world.Call();
    if !deleted {
      return Err;
    }
  }

  // ---------------------------------------------------------------- the health check

  /** The block under TimerLock (745-752). Its write panics when the map was never made. */
  method RearmTimer(world: World, hc: HealthCheck) returns (exit: Exit)
    requires world.Valid() && world.thread == hc.ThreadAt(Rearm)
    modifies world
    ensures world.Valid() && exit != Err
    ensures world.thread == hc.ThreadAt(if exit == Nil then ReturnPc(hc) else Panicked)
  {
    var _, previous := world.GetTimerByName(hc.key.name);
    assert world.thread == hc.ThreadAt(RearmStart);
    var _, stored := world.Call();
    return if stored then Nil else Panic;
  }

  /** The remedy part of the branch of a failed run (677-721), once the failure is recorded. */
  method HandleFailure(world: World, hc: HealthCheck, now: Time, ghost at: Pc) returns (exit: Exit)
    requires world.Valid() && world.thread == Gated(hc.ThreadAt(at), hc.spec, now)
    modifies world, hc
    ensures world.Valid() && hc.deleting == old(hc.deleting)
    ensures world.thread == hc.ThreadAt(match exit case Nil => FinishPc(hc) case Err => Ended case Panic => Panicked)
  {
    hide Step, Run, RbacNames.Refused, RbacNames.Renamed;
    if hc.spec.remedyWorkflow.IsEmpty() {
      return Nil;
    }
    if hc.spec.remedyRunsLimit != 0 && hc.spec.remedyResetInterval != 0 {
      if hc.spec.remedyRunsLimit > hc.status.remedyTotalRuns {
        exit := ProcessRemedyWorkflow(world, hc);
      } else {
        if hc.status.remedyFinishedAt.None? {
          return Panic;
        }
        var remedyLastRunTime := Quo(now - hc.status.remedyFinishedAt.value, SECOND);
        if hc.spec.remedyResetInterval >= remedyLastRunTime {
          return Nil;
        }
        hc.status := ResetRemedy(hc.status, ResetByInterval);
        exit := ProcessRemedyWorkflow(world, hc);
      }
    } else {
      exit := ProcessRemedyWorkflow(world, hc);
    }
  }

  /** watchWorkflowReschedule (607-757). */
  method WatchWorkflowReschedule(world: World, hc: HealthCheck, wf: string) returns (exit: Exit)
    requires world.Valid() && world.thread == hc.ThreadAt(WatchStart(wf))
    modifies world, hc
    ensures world.Valid()
    ensures world.thread == hc.ThreadAt(match exit case Nil => ReturnPc(hc) case Err => Ended case Panic => Panicked)
  {
    hide StepDecide, StepSubmit, StepRemedySubmit, StepRemedyPoll, StepRbac, StepLast, Run;
    hide RecordSuccess, RecordFailure, RemedyGate;
    var began, waits := world.BeginWatch();
    while true
      invariant world.Valid() && world.thread == hc.ThreadAt(Poll(wf, began, waits.left))
      invariant fresh(waits)
      modifies world, hc, waits
      decreases waits.left
    {
      var now, lookup := world.LookupWorkflow(wf);
      if lookup.LookupError? {
        return if lookup.notFound then Nil else Err;
      }
      if !waits.Errored() && lookup.Found? && lookup.phase == Passed {
        hc.status := RecordSuccess(hc.spec, hc.status, began, now, wf);
        hc.unsaved := hc.unsaved + [RanOk(wf, now)];
        break;
      } else if waits.Errored() || (lookup.Found? && lookup.phase == Phase.Failed) {
        var message := if waits.Errored() then TIMED_OUT else lookup.message;
        hc.status := RecordFailure(hc.status, began, now, wf, message);
        hc.unsaved := hc.unsaved + [RanFailed(wf, now)];
        exit := HandleFailure(world, hc, now, Poll(wf, began, waits.left));
        if exit != Nil {
          return;
        }
        break;
      }
      waits.Next();
    }
    if hc.deleting {
      return Nil;
    }
    var ok := UpdateHealthCheckStatus(world, hc, Final);
    if !ok {
      exit := CancelTimer(world, hc, "");
      return;
    }
    exit := RearmTimer(world, hc);
  }

  /** createSubmitWorkflow (502-534), called from both sides. */
  method CreateSubmitWorkflow(world: World, hc: HealthCheck) returns (exit: Exit, wf: string)
    requires world.Valid() && world.thread == hc.ThreadAt(Submit)
    modifies world, hc`spec
    ensures world.Valid()
    ensures exit == Err ==> wf == ""
    ensures world.thread == hc.ThreadAt(
        match exit
        case Nil => WatchStart(wf)
        case Err => if hc.origin.Timer? then WatchStart("") else Ended
        case Panic => Panicked)
  {
    hide StepPoll, StepDecide, StepRemedySubmit, StepRemedyPoll, StepRbac, StepLast, Run, Templates.ParseWorkflow;
    var _, created, decoded := world.SubmitWorkflow();
    var parsed := Templates.ParseWorkflow(hc.spec, decoded);
    if parsed.LockHeldPanic? {
      return Panic, "";
    }
    hc.spec := Templates.SpecAfter(hc.spec, parsed);
    match created
    case Some(name) => return Nil, name;
    case None => return Err, "";
  }

  /** The function a repeat timer calls (480-499): a failed submission is watched all the same. */
  method TimerHelper(world: World, key: Key)
    requires world.Valid() && world.log == [] && world.first == NewThread(key, Timer)
    modifies world
    ensures world.Valid()
    ensures Run(NewThread(key, Timer), world.log).pc.Ended? || Run(NewThread(key, Timer), world.log).pc.Panicked?
  {
    var hc := new HealthCheck(key, Timer);
    hide StepPoll, StepDecide, StepRemedySubmit, StepRemedyPoll, StepRbac, StepLast, StepSubmit;
    var _, read := world.Get();
    if !read.Fetched? {
      return;
    }
    hc.Load(read.copy);
    assert world.thread == hc.ThreadAt(Submit);
    var exit, wf := CreateSubmitWorkflow(world, hc);
    if exit != Panic {
      exit := WatchWorkflowReschedule(world, hc, wf);
    }
  }

  // ---------------------------------------------------------------- reconciling

  /** How processHealthCheck hands over to its caller: Nil runs the last write of the object. */
  predicate Handed(t: Thread, at: Thread, exit: Exit, back: Pc) {
    t == at.(pc := match exit case Nil => back case Err => Ended case Panic => Panicked)
  }

  /** processHealthCheck (225-291). */
  method ProcessHealthCheck(world: World, hc: HealthCheck) returns (exit: Exit)
    requires world.Valid() && world.thread == hc.ThreadAt(Decide) && hc.origin.Reconcile?
    modifies world, hc
    ensures world.Valid()
    ensures Handed(world.thread, hc.ThreadAt(Decide), exit, LastGet(ATTEMPTS))
  {
    hide StepPoll, StepRemedySubmit, StepRemedyPoll, StepSubmit, StepLast, Run, RbacNames.Refused, RbacNames.Renamed;
    if hc.spec.workflow.resource.None? {
      var _ := world.Proceed();
      return Nil;
    }
    var now := world.Now();
    if IsPaused(hc.spec) {
      var _ := world.Proceed();
      hc.status := Stop(hc.status, now, STOP_MESSAGE);
      var ok := UpdateHealthCheckStatus(world, hc, Paused);
      return if ok then Nil else Err;
    } else if UsesCron(hc.spec) {
      var _, delay := world.NextCron();
      if delay.None? {
        return Err;
      }
      hc.spec := hc.spec.(repeatAfterSec := delay.value);
    } else if TooEarly(hc.Value(), now) {
      var _, timer := world.GetTimerByName(hc.key.name);
      if timer.Some? {
        return Nil;
      }
    } else {
      var _ := world.Proceed();
    }
    assert world.thread == hc.ThreadAt(CreateRbac);
    exit := RunHealthCheck(world, hc);
  }

  /** Its second half (269-288): RBAC, submission, watch. */
  method RunHealthCheck(world: World, hc: HealthCheck) returns (exit: Exit)
    requires world.Valid() && world.thread == hc.ThreadAt(CreateRbac) && hc.origin.Reconcile?
    modifies world, hc
    ensures world.Valid()
    ensures Handed(world.thread, hc.ThreadAt(Decide), exit, LastGet(ATTEMPTS))
  {
    hide StepPoll, StepDecide, StepRemedySubmit, StepRemedyPoll, StepSubmit, StepLast, Run, RbacNames.Refused;
    hide RbacNames.Renamed;
    var _, granted := world.Call();
    var refused := RbacNames.Refused(hc.spec);
    hc.spec := RbacNames.Renamed(hc.spec);
    if !granted || refused {
      return Err;
    }
    assert world.thread == hc.ThreadAt(Submit);
    var wf;
    exit, wf := CreateSubmitWorkflow(world, hc);
    if exit != Nil {
      return;
    }
    exit := WatchWorkflowReschedule(world, hc, wf);
  }

  /** The last write of processOrRecoverHealthCheck (207-221): the whole object, whose status
      the API server ignores. */
  method UpdateResource(world: World, hc: HealthCheck) returns (ok: bool)
    requires world.Valid() && world.thread == hc.ThreadAt(LastGet(ATTEMPTS))
    modifies world
    ensures world.Valid() && world.thread == hc.ThreadAt(Ended)
    ensures |world.log| <= |old(world.log)| + 10
    ensures ok <==> exists k: nat :: k < 5 && world.WritesAfter(|old(world.log)|, k)
    ensures forall k: nat :: k < 5 && world.WritesAfter(|old(world.log)|, k) ==>
              |world.log| == |old(world.log)| + 2 * (k + 1)
  {
    hide StepPoll, StepDecide, StepRemedySubmit, StepRemedyPoll, StepSubmit, StepRbac, Run;
    hide World.WritesAfter, World.Conflicts;
    ghost var n := |world.log|;
    var left := ATTEMPTS;
    while true
      invariant 0 < left <= ATTEMPTS
      invariant world.Valid() && world.thread == hc.ThreadAt(LastGet(left))
      invariant |world.log| == n + 2 * (ATTEMPTS - left)
      invariant forall i: nat :: i < ATTEMPTS - left ==> world.Conflicts(n, i)
      decreases left
    {
      var _, read := world.Get();
      if !read.Fetched? {
        world.GivesUpAt(n, ATTEMPTS - left);
        return false;
      }
      assert world.thread == hc.ThreadAt(LastPut(left, read.rv, read.copy.spec));
      var _, written := world.Put();
      if written.Done? {
        world.TakesAt(n, ATTEMPTS - left);
        return true;
      }
      if !written.Conflict? || left == 1 {
        world.GivesUpAt(n, ATTEMPTS - left);
        return false;
      }
      world.MeetsConflict(n, ATTEMPTS - left);
      left := left - 1;
    }
  }

  /** Reconcile (170-223). */
  method Reconcile(world: World, key: Key)
    requires world.Valid() && world.log == [] && world.first == NewThread(key, Origin.Reconcile)
    modifies world
    ensures world.Valid()
    ensures var t := Run(NewThread(key, Origin.Reconcile), world.log); t.pc.Ended? || t.pc.Panicked?
  {
    var hc := new HealthCheck(key, Origin.Reconcile);
    hide StepPoll, StepDecide, StepRemedySubmit, StepRemedyPoll, StepSubmit, StepRbac, StepLast;
    var _, read := world.Get();
    if !read.Fetched? {
      var _ := CancelTimer(world, hc, key.name);
      return;
    }
    hc.Load(read.copy);
    assert world.thread == hc.ThreadAt(Decide);
    var exit := ProcessHealthCheck(world, hc);
    if exit == Nil {
      var _ := UpdateResource(world, hc);
    }
  }
}
