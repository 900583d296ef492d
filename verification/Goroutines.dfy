/** The controller's code as a program: one step per call that another goroutine, the API
    server or the clock can observe. A `Thread` is one run of Reconcile or of the function
    a repeat timer calls; `Step` is what the code does with the answer to its last call. */
module Goroutines {
  import opened HealthChecks
  import opened StatusRules
  import RbacNames
  import Templates

  datatype Key = Key(ns: string, name: string)

  /** What a status write persists about runs; a specification-only record. */
  datatype Event =
    | RanOk(wf: string, at: Time)
    | RanFailed(wf: string, at: Time)
    | Remedied(passed: bool, at: Time)

  /** The in-memory object a thread works on: what Get returned, edited in place. */
  datatype Copy = Copy(spec: Spec, status: Status, deleting: bool)

  datatype Origin = Reconcile | Timer

  /** The three calls of updateHealthCheckStatus. */
  datatype Write = Paused | AfterRemedy | Final

  /** Attempts made by retry.RetryOnConflict(retry.DefaultRetry, ...). */
  const ATTEMPTS: nat := 5

  datatype Pc =
    | ReconcileGet
    | CancelLookup(probe: string)
    | CancelRead
    | CancelStop(timer: nat)
    | Decide
    | CreateRbac
    | TimerGet
    | Submit
    | WatchStart(wf: string)
    | Poll(wf: string, began: Time, left: nat)
    | RemedyRbac
    | RemedySubmit
    | RemedyStart(wf: string)
    | RemedyPoll(wf: string, began: Time, left: nat)
    | RemedyCleanup
    | WriteGet(write: Write, left: nat)
    | WritePut(write: Write, left: nat, rv: nat)
    | Rearm
    | RearmStart
    | LastGet(left: nat)
    | LastPut(left: nat, rv: nat, spec: Spec)
    | Ended
    | Panicked

  /** `unsaved` lists the events recorded in memory and not yet persisted. */
  datatype Thread = Thread(key: Key, origin: Origin, pc: Pc, hc: Copy, unsaved: seq<Event>)

  /** The answer to one lookup of a submitted workflow. */
  datatype Lookup =
    | LookupError(notFound: bool)
    | NoStatus
    | Found(phase: Phase, message: string)

  datatype Answer =
    | Done
    | Broken                           // any other error
    | NotFound
    | Conflict
    | LostReply                        // the call took effect, the reply was an error
    | Fetched(copy: Copy, rv: nat)
    | Entry(timer: Option<nat>)
    | CronDelay(delay: Option<int>)
    | Submission(created: Option<string>, decoded: Templates.Decoded)
    | Budget(polls: nat)               // the number of waits the back-off iterator grants
    | Saw(lookup: Lookup)

  // ---------------------------------------------------------------- deciding polls

  /** The message of a timed-out run; the text set on a paused check, abbreviated. */
  const TIMED_OUT := "Failed"
  const STOP_MESSAGE := "stopped"

  datatype Verdict = Undecided | LookupFailed(notFound: bool) | Succeeded | FailedWith(message: string)

  /** One round of either polling loop: a lookup error wins over a timeout, a timeout over a phase. */
  function Judge(l: Lookup, expired: bool): Verdict {
    match l
    case LookupError(nf) => LookupFailed(nf)
    case _ =>
      if expired then FailedWith(TIMED_OUT)
      else if l.Found? && l.phase == Passed then Succeeded
      else if l.Found? && l.phase == Phase.Failed then FailedWith(l.message)
      else Undecided
  }

  // ---------------------------------------------------------------- exits

  /** Back from watchWorkflowReschedule or processHealthCheck without an error. */
  function Return(t: Thread): Thread {
    t.(pc := if t.origin.Reconcile? then LastGet(ATTEMPTS) else Ended)
  }

  function Fail(t: Thread): Thread {
    t.(pc := Ended)
  }

  /** The block after the polling loop. */
  function FinishEpisode(t: Thread): Thread {
    if t.hc.deleting then Return(t) else t.(pc := WriteGet(Final, ATTEMPTS))
  }

  /** A status write that failed for good. The two watch functions then probe the timer
      table for the name of their empty request. */
  function WriteFailed(t: Thread, w: Write): Thread {
    if w.Paused? then Fail(t) else t.(pc := CancelLookup(""))
  }

  function WriteDone(t: Thread, w: Write): Thread {
    var saved := t.(unsaved := []);
    match w
    case Paused => Return(saved)
    case AfterRemedy => saved.(pc := RemedyCleanup)
    case Final => saved.(pc := Rearm)
  }

  // ---------------------------------------------------------------- processHealthCheck

  predicate IsPaused(spec: Spec) {
    spec.repeatAfterSec <= 0 && spec.cron == ""
  }

  predicate UsesCron(spec: Spec) {
    spec.repeatAfterSec <= 0 && spec.cron != ""
  }

  function LastFinish(st: Status): int {
    match st.finishedAt
    case None => 0
    case Some(t) => Unix(t)
  }

  /** The interval since the last finish, in whole seconds, is still shorter than the configured one. */
  predicate TooEarly(hc: Copy, now: Time) {
    Unix(now) - LastFinish(hc.status) < hc.spec.repeatAfterSec
  }

  /** The timer table is consulted only on the third branch, and only when it is too early. */
  predicate ConsultsTable(hc: Copy, now: Time) {
    hc.spec.workflow.resource.Some? && hc.spec.repeatAfterSec > 0 && TooEarly(hc, now)
  }

  function StepDecide(t: Thread, now: Time, a: Answer): Thread {
    var spec := t.hc.spec;
    if spec.workflow.resource.None? then Return(t)
    else if IsPaused(spec) then
      t.(hc := t.hc.(status := Stop(t.hc.status, now, STOP_MESSAGE)),
         pc := WriteGet(Paused, ATTEMPTS))
    else if UsesCron(spec) then
      if a.CronDelay? && a.delay.Some? then
        t.(hc := t.hc.(spec := spec.(repeatAfterSec := a.delay.value)), pc := CreateRbac)
      else
        Fail(t)
    else if TooEarly(t.hc, now) && a.Entry? && a.timer.Some? then Return(t)
    else t.(pc := CreateRbac)
  }

  function StepRbac(t: Thread, a: Answer, next: Pc): Thread {
    var renamed := t.(hc := t.hc.(spec := RbacNames.Renamed(t.hc.spec)));
    if a.Done? && !RbacNames.Refused(t.hc.spec) then renamed.(pc := next) else Fail(renamed)
  }

  function StepSubmit(t: Thread, a: Answer): Thread {
    if !a.Submission? then Fail(t)
    else
      var parsed := Templates.ParseWorkflow(t.hc.spec, a.decoded);
      if parsed.LockHeldPanic? then t.(pc := Panicked)
      else
        var read := t.(hc := t.hc.(spec := Templates.SpecAfter(t.hc.spec, parsed)));
        match a.created
        case Some(wf) => read.(pc := WatchStart(wf))
        case None => if t.origin.Timer? then read.(pc := WatchStart("")) else Fail(read)
  }

  // ---------------------------------------------------------------- watchWorkflowReschedule

  /** A failed health check meets the remedy gate. */
  function Gated(t: Thread, spec: Spec, now: Time): Thread {
    match RemedyGate(spec, t.hc.status, now)
    case RunRemedy => t.(pc := RemedyRbac)
    case ResetThenRun =>
      t.(hc := t.hc.(status := ResetRemedy(t.hc.status, ResetByInterval)), pc := RemedyRbac)
    case NilDereference => t.(pc := Panicked)
    case _ => FinishEpisode(t)
  }

  function StepPoll(t: Thread, now: Time, a: Answer): Thread
    requires t.pc.Poll?
  {
    if !a.Saw? then t
    else
      match Judge(a.lookup, t.pc.left == 0)
      case Undecided => t.(pc := Poll(t.pc.wf, t.pc.began, t.pc.left - 1))
      case LookupFailed(nf) => if nf then Return(t) else Fail(t)
      case Succeeded =>
        FinishEpisode(t.(hc := t.hc.(status := RecordSuccess(t.hc.spec, t.hc.status, t.pc.began, now, t.pc.wf)),
                         unsaved := t.unsaved + [RanOk(t.pc.wf, now)]))
      case FailedWith(message) =>
        Gated(t.(hc := t.hc.(status := RecordFailure(t.hc.status, t.pc.began, now, t.pc.wf, message)),
                 unsaved := t.unsaved + [RanFailed(t.pc.wf, now)]),
              t.hc.spec, now)
  }

  // ---------------------------------------------------------------- remedy

  function StepRemedySubmit(t: Thread, a: Answer): Thread {
    if !a.Submission? || t.hc.spec.remedyWorkflow.resource.None? then Fail(t)
    else
      var parsed := Templates.ParseRemedyWorkflow(t.hc.spec, a.decoded);
      if parsed.LockHeldPanic? then t.(pc := Panicked)
      else
        var read := t.(hc := t.hc.(spec := Templates.SpecAfter(t.hc.spec, parsed)));
        match a.created
        case Some(wf) => read.(pc := RemedyStart(wf))
        case None => Fail(read)
  }

  function RemedyRecorded(t: Thread, now: Time, st: Status, passed: bool): Thread {
    t.(hc := t.hc.(status := st),
       unsaved := t.unsaved + [Remedied(passed, now)],
       pc := if t.hc.deleting then RemedyCleanup else WriteGet(AfterRemedy, ATTEMPTS))
  }

  function StepRemedyPoll(t: Thread, now: Time, a: Answer): Thread
    requires t.pc.RemedyPoll?
  {
    if !a.Saw? then t
    else
      match Judge(a.lookup, t.pc.left == 0)
      case Undecided => t.(pc := RemedyPoll(t.pc.wf, t.pc.began, t.pc.left - 1))
      case LookupFailed(nf) => if nf then t.(pc := RemedyCleanup) else Fail(t)
      case Succeeded =>
        RemedyRecorded(t, now, RecordRemedySuccess(t.hc.status, t.pc.began, now, t.pc.wf), true)
      case FailedWith(message) =>
        RemedyRecorded(t, now, RecordRemedyFailure(t.hc.status, t.pc.began, now, t.pc.wf, message), false)
  }

  // ---------------------------------------------------------------- the retry loops

  function StepWriteGet(t: Thread, a: Answer): Thread
    requires t.pc.WriteGet?
  {
    if a.Fetched? then t.(pc := WritePut(t.pc.write, t.pc.left, a.rv)) else WriteFailed(t, t.pc.write)
  }

  function StepWritePut(t: Thread, a: Answer): Thread
    requires t.pc.WritePut?
  {
    if a.Done? then WriteDone(t, t.pc.write)
    else if a.Conflict? && t.pc.left > 1 then t.(pc := WriteGet(t.pc.write, t.pc.left - 1))
    else WriteFailed(t, t.pc.write)
  }

  function StepLast(t: Thread, a: Answer): Thread
    requires t.pc.LastGet? || t.pc.LastPut?
  {
    if t.pc.LastGet? && a.Fetched? then t.(pc := LastPut(t.pc.left, a.rv, a.copy.spec))
    else if t.pc.LastPut? && a.Conflict? && t.pc.left > 1 then t.(pc := LastGet(t.pc.left - 1))
    else t.(pc := Ended)
  }

  // ---------------------------------------------------------------- one step

  function Step(t: Thread, now: Time, a: Answer): (t': Thread)
    ensures t'.key == t.key && t'.origin == t.origin
  {
    match t.pc
    case ReconcileGet =>
      if a.Fetched? then t.(hc := a.copy, pc := Decide) else t.(pc := CancelLookup(t.key.name))
    case CancelLookup(_) =>
      if a.Entry? && a.timer.Some? then t.(pc := CancelRead) else Fail(t)
    case CancelRead =>
      if a.Entry? && a.timer.Some? then t.(pc := CancelStop(a.timer.value)) else t.(pc := Panicked)
    case CancelStop(_) => Fail(t)
    case Decide => StepDecide(t, now, a)
    case CreateRbac => StepRbac(t, a, Submit)
    case TimerGet =>
      if a.Fetched? then t.(hc := a.copy, pc := Submit) else Fail(t)
    case Submit => StepSubmit(t, a)
    case WatchStart(wf) =>
      if a.Budget? then t.(pc := Poll(wf, now, a.polls)) else t
    case Poll(_, _, _) => StepPoll(t, now, a)
    case RemedyRbac => StepRbac(t, a, RemedySubmit)
    case RemedySubmit => StepRemedySubmit(t, a)
    case RemedyStart(wf) =>
      if a.Budget? then t.(pc := RemedyPoll(wf, now, a.polls)) else t
    case RemedyPoll(_, _, _) => StepRemedyPoll(t, now, a)
    case RemedyCleanup => if a.Done? then FinishEpisode(t) else Fail(t)
    case WriteGet(_, _) => StepWriteGet(t, a)
    case WritePut(_, _, _) => StepWritePut(t, a)
    case Rearm => t.(pc := RearmStart)
    case RearmStart => if a.Done? then Return(t) else t.(pc := Panicked)
    case LastGet(_) => StepLast(t, a)
    case LastPut(_, _, _) => StepLast(t, a)
    case Ended => t
    case Panicked => t
  }

  const BLANK := Copy(Spec(0, NO_WORKFLOW, "", "", NO_WORKFLOW, "", 0, 0, 0, 0), NEW_STATUS, false)

  function NewThread(key: Key, origin: Origin): Thread {
    Thread(key, origin, if origin.Reconcile? then ReconcileGet else TimerGet, BLANK, [])
  }

  /** The whole program: the answers, with the clock read that goes with each, in order. */
  datatype Reply = Reply(now: Time, answer: Answer)

  function Run(t: Thread, replies: seq<Reply>): Thread
    decreases |replies|
  {
    if replies == [] then t else Run(Step(t, replies[0].now, replies[0].answer), replies[1..])
  }

  lemma {:induction false} RunAppend(t: Thread, a: seq<Reply>, b: seq<Reply>)
    ensures Run(t, a + b) == Run(Run(t, a), b)
    decreases |a|
  {
    if a == [] {
      assert a + b == b;
    } else {
      assert (a + b)[1..] == a[1..] + b;
      RunAppend(Step(t, a[0].now, a[0].answer), a[1..], b);
    }
  }
}
