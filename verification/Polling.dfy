/** The two polling loops: which observation decides, how often they poll, how their delays
    are computed, and the deadline they share with the submitted workflow. */
module Polling {
  import opened HealthChecks
  import opened Goroutines
  import Templates

  // ---------------------------------------------------------------- the first decisive observation

  /** The index of the first observation that decides, when the iterator errors after `granted` waits. */
  function FirstDecisive(lookups: nat -> Lookup, granted: nat, k: nat): (index: nat)
    requires k <= granted
    ensures k <= index <= granted
    ensures Judge(lookups(index), index == granted) != Undecided
    ensures forall j :: k <= j < index ==> Judge(lookups(j), false) == Undecided
    decreases granted - k
  {
    if Judge(lookups(k), k == granted) != Undecided then k
    else FirstDecisive(lookups, granted, k + 1)
  }

  predicate Ends(l: Lookup) {
    l.LookupError? || (l.Found? && (l.phase == Passed || l.phase == Phase.Failed))
  }

  /** It is the first that is an error, a pass or a failure, or else the one at which the iterator
      errs. */
  lemma {:induction false} FirstDecisiveExactly(lookups: nat -> Lookup, granted: nat, k: nat)
    requires k <= granted
    ensures var index := FirstDecisive(lookups, granted, k);
            && (index == granted || Ends(lookups(index)))
            && forall j :: k <= j < index ==> !Ends(lookups(j))
    decreases granted - k
  {
    if FirstDecisive(lookups, granted, k) != k { FirstDecisiveExactly(lookups, granted, k + 1); }
  }

  /** The answers `first`, ..., `last` - 1 to the polls of one watch. */
  function Polls(lookups: nat -> Lookup, clock: nat -> Time, first: nat, last: nat): seq<Reply>
    requires first <= last
    decreases last - first
  {
    if first == last then [] else [Reply(clock(first), Saw(lookups(first)))] + Polls(lookups, clock, first + 1, last)
  }

  lemma UndecidedStep(t: Thread, now: Time, l: Lookup)
    requires t.pc.Poll? || t.pc.RemedyPoll?
    requires t.pc.left > 0 && Judge(l, false) == Undecided
    ensures Step(t, now, Saw(l))
            == if t.pc.Poll? then t.(pc := Poll(t.pc.wf, t.pc.began, t.pc.left - 1))
               else t.(pc := RemedyPoll(t.pc.wf, t.pc.began, t.pc.left - 1))
  {
  }

  /** The health-check loop waits through the undecided observations without recording anything
      and acts on the first decisive one: index for index, FirstDecisive. */
  lemma {:induction false} LoopFindsFirstDecisive(t: Thread, lookups: nat -> Lookup, clock: nat -> Time, granted: nat,
                                                  k: nat)
    requires k <= granted && t.pc.Poll? && t.pc.left == granted - k
    ensures var index := FirstDecisive(lookups, granted, k);
            var waiting := Run(t, Polls(lookups, clock, k, index));
            && waiting == t.(pc := Poll(t.pc.wf, t.pc.began, granted - index))
            && !Step(waiting, clock(index), Saw(lookups(index))).pc.Poll?
            && |Step(waiting, clock(index), Saw(lookups(index))).unsaved| <= |t.unsaved| + 1
    decreases granted - k
  {
    hide Step, Judge;
    var index := FirstDecisive(lookups, granted, k);
    if index == k {
      DecisiveStep(t, clock(k), lookups(k));
    } else {
      UndecidedStep(t, clock(k), lookups(k));
      LoopFindsFirstDecisive(Step(t, clock(k), Saw(lookups(k))), lookups, clock, granted, k + 1);
      var polls := Polls(lookups, clock, k, index);
      assert polls[1..] == Polls(lookups, clock, k + 1, index);
    }
  }

  lemma DecisiveStep(t: Thread, now: Time, l: Lookup)
    requires t.pc.Poll? && Judge(l, t.pc.left == 0) != Undecided
    ensures !Step(t, now, Saw(l)).pc.Poll? && |Step(t, now, Saw(l)).unsaved| <= |t.unsaved| + 1
  {
  }

  lemma DecisiveRemedyStep(t: Thread, now: Time, l: Lookup)
    requires t.pc.RemedyPoll? && Judge(l, t.pc.left == 0) != Undecided
    ensures !Step(t, now, Saw(l)).pc.RemedyPoll? && |Step(t, now, Saw(l)).unsaved| <= |t.unsaved| + 1
  {
  }

  /** The remedy loop, likewise. */
  lemma {:induction false} RemedyLoopFindsFirstDecisive(t: Thread, lookups: nat -> Lookup, clock: nat -> Time,
                                                        granted: nat, k: nat)
    requires k <= granted && t.pc.RemedyPoll? && t.pc.left == granted - k
    ensures var index := FirstDecisive(lookups, granted, k);
            var waiting := Run(t, Polls(lookups, clock, k, index));
            && waiting == t.(pc := RemedyPoll(t.pc.wf, t.pc.began, granted - index))
            && !Step(waiting, clock(index), Saw(lookups(index))).pc.RemedyPoll?
            && |Step(waiting, clock(index), Saw(lookups(index))).unsaved| <= |t.unsaved| + 1
    decreases granted - k
  {
    hide Step, Judge;
    var index := FirstDecisive(lookups, granted, k);
    if index == k {
      DecisiveRemedyStep(t, clock(k), lookups(k));
    } else {
      UndecidedStep(t, clock(k), lookups(k));
      RemedyLoopFindsFirstDecisive(Step(t, clock(k), Saw(lookups(k))), lookups, clock, granted, k + 1);
      var polls := Polls(lookups, clock, k, index);
      assert polls[1..] == Polls(lookups, clock, k + 1, index);
    }
  }

  // ---------------------------------------------------------------- delays

  datatype Backoff = Backoff(maxTime: Time, minTime: Time, timeout: Time)

  function Default(timeout: int, share: int): Time
    requires share > 0
  {
    var d := Quo(timeout, share) * SECOND;
    if d <= 0 then SECOND else d
  }

  /** computeBackoffParams (575-605), without the factor. */
  function ComputeBackoffParams(spec: Spec): Backoff {
    Backoff(
      if spec.backoffMax == 0 then Default(spec.workflow.timeout, 2) else spec.backoffMax * SECOND,
      if spec.backoffMin == 0 then Default(spec.workflow.timeout, 60) else spec.backoffMin * SECOND,
      spec.workflow.timeout * SECOND)
  }

  /** Settings are seconds, and what is not set is a share of the timeout, a second at least. */
  lemma DelaysExactly(spec: Spec)
    ensures var b := ComputeBackoffParams(spec);
            && b.timeout == spec.workflow.timeout * 1_000_000_000
            && (spec.backoffMax != 0 ==> b.maxTime == spec.backoffMax * 1_000_000_000)
            && (spec.backoffMin != 0 ==> b.minTime == spec.backoffMin * 1_000_000_000)
            && (spec.backoffMax == 0 ==>
                  b.maxTime == if spec.workflow.timeout >= 2 then spec.workflow.timeout / 2 * 1_000_000_000
                               else 1_000_000_000)
            && (spec.backoffMin == 0 ==>
                  b.minTime == if spec.workflow.timeout >= 60 then spec.workflow.timeout / 60 * 1_000_000_000
                               else 1_000_000_000)
  {
  }

  /** The delays watchRemedyWorkflow computes for itself (791-799). */
  method RemedyBackoff(spec: Spec) returns (b: Backoff)
    ensures b == ComputeBackoffParams(spec.(backoffMax := 0, backoffMin := 0))
  {
    var maxTime := Quo(spec.workflow.timeout, 2) * SECOND;
    if maxTime <= 0 {
      maxTime := SECOND;
    }
    var minTime := Quo(spec.workflow.timeout, 60) * SECOND;
    if minTime <= 0 {
      minTime := SECOND;
    }
    return Backoff(maxTime, minTime, spec.workflow.timeout * SECOND);
  }

  /** With the default settings the delays are in order for every timeout, negative ones too, and
      from two seconds on the longest is at most half of it. */
  lemma DefaultDelaysInOrder(spec: Spec)
    requires spec.backoffMax == 0 && spec.backoffMin == 0
    ensures var b := ComputeBackoffParams(spec);
            && SECOND <= b.minTime <= b.maxTime
            && (b.timeout >= 2 * SECOND ==> 2 * b.maxTime <= b.timeout)
  {
    var t := spec.workflow.timeout;
    if t >= 0 { assert Quo(t, 60) <= Quo(t, 2); }
  }

  /** Only the settings can put them out of order: a longest delay below the default shortest one,
      or a shortest one above the longest. */
  lemma DelaysInOrderExactly(spec: Spec)
    ensures var b := ComputeBackoffParams(spec);
            b.minTime <= b.maxTime
            <==> && (spec.backoffMax != 0 && spec.backoffMin == 0 ==>
                       1 <= spec.backoffMax && spec.workflow.timeout < 60 * (spec.backoffMax + 1))
                 && (spec.backoffMax != 0 && spec.backoffMin != 0 ==> spec.backoffMin <= spec.backoffMax)
                 && (spec.backoffMax == 0 && spec.backoffMin != 0 ==>
                       spec.backoffMin <= 1 || 2 * spec.backoffMin <= spec.workflow.timeout)
  {
    var t := spec.workflow.timeout;
    if spec.backoffMax == 0 && spec.backoffMin == 0 { DefaultDelaysInOrder(spec); }
    if t >= 0 {
      assert t / 60 * 60 <= t < (t / 60 + 1) * 60;
      assert t / 2 * 2 <= t < (t / 2 + 1) * 2;
    }
  }

  // ---------------------------------------------------------------- how often

  /** What is assumed of the iterator: no wait is granted once the timeout has elapsed, and each
      wait takes at least the shortest delay. `elapsed` lists the times at which waits begin. */
  ghost predicate IteratorContract(b: Backoff, elapsed: seq<Time>) {
    && (|elapsed| > 0 ==> 0 <= elapsed[0])
    && (forall i :: 0 <= i < |elapsed| ==> elapsed[i] < b.timeout)
    && (forall i :: 0 < i < |elapsed| ==> elapsed[i - 1] + b.minTime <= elapsed[i])
  }

  lemma {:induction false} WaitsTakeTime(b: Backoff, elapsed: seq<Time>, i: nat)
    requires IteratorContract(b, elapsed) && i < |elapsed|
    ensures i * b.minTime <= elapsed[i]
  {
    if i > 0 {
      WaitsTakeTime(b, elapsed, i - 1);
      assert i * b.minTime == (i - 1) * b.minTime + b.minTime;
    }
  }

  /** Whatever the settings: as many waits as there are begin within the timeout. */
  lemma PollBound(b: Backoff, elapsed: seq<Time>)
    requires IteratorContract(b, elapsed) && elapsed != []
    ensures (|elapsed| - 1) * b.minTime < b.timeout
  {
    WaitsTakeTime(b, elapsed, |elapsed| - 1);
  }

  ghost predicate BoundedBy(b: Backoff, bound: nat) {
    forall elapsed :: IteratorContract(b, elapsed) ==> |elapsed| <= bound
  }

  /** The iterator's contract bounds the number of waits at all if and only if the shortest delay
      is not set to a negative number, or the timeout is not positive. */
  lemma PollsBoundedExactly(spec: Spec)
    ensures (exists bound :: BoundedBy(ComputeBackoffParams(spec), bound))
            <==> spec.backoffMin >= 0 || spec.workflow.timeout <= 0
  {
    var b := ComputeBackoffParams(spec);
    if spec.backoffMin >= 0 || spec.workflow.timeout <= 0 {
      var bound := if b.timeout > 0 then b.timeout else 0;
      forall elapsed | IteratorContract(b, elapsed) ensures |elapsed| <= bound {
        if elapsed != [] {
          PollBound(b, elapsed);
          AtLeastOneEach(|elapsed| - 1, b.minTime);
        }
      }
      assert BoundedBy(b, bound);
    } else {
      forall bound: nat ensures !BoundedBy(b, bound) {
        var elapsed := seq(bound + 1, i requires 0 <= i <= bound => 0 as Time);
        assert IteratorContract(b, elapsed);
      }
    }
  }

  lemma AtLeastOneEach(n: nat, min: int)
    requires min >= 1
    ensures n <= n * min
  {
  }

  /** With the default settings a watch polls at most 120 times beyond its first, whatever the
      timeout, and never waits when the timeout is not positive. */
  lemma DefaultPollBound(spec: Spec, elapsed: seq<Time>)
    requires spec.backoffMax == 0 && spec.backoffMin == 0
    requires IteratorContract(ComputeBackoffParams(spec), elapsed)
    ensures |elapsed| <= 120
    ensures spec.workflow.timeout <= 0 ==> elapsed == []
  {
    var t := spec.workflow.timeout;
    var minSeconds := if t / 60 <= 0 then 1 else t / 60;
    if elapsed != [] {
      WaitsTakeTime(ComputeBackoffParams(spec), elapsed, |elapsed| - 1);
      FewWaits(|elapsed| - 1, minSeconds, t);
    }
  }

  lemma FewWaits(waits: nat, minSeconds: int, timeout: int)
    requires minSeconds >= 1 && timeout < 120 * minSeconds
    requires waits * (minSeconds * SECOND) < timeout * SECOND
    ensures waits < 120
  {
    assert waits * (minSeconds * SECOND) == (waits * minSeconds) * SECOND;
    assert waits >= 120 ==> waits * minSeconds >= 120 * minSeconds;
  }

  /** When the waits of a loop begin, as its own clock readings tell. */
  function WaitsBegun(polls: seq<Reply>, began: Time): seq<Time> {
    seq(|polls|, i requires 0 <= i < |polls| => polls[i].now - began)
  }

  lemma {:induction false} PollsLength(lookups: nat -> Lookup, clock: nat -> Time, first: nat, last: nat)
    requires first <= last
    ensures |Polls(lookups, clock, first, last)| == last - first
    decreases last - first
  {
    if first < last { PollsLength(lookups, clock, first + 1, last); }
  }

  /** The health-check loop itself: if the readings of its clock meet the iterator's contract, the
      first decisive observation comes after at most timeout over shortest delay further polls, and
      with default settings after at most 120. */
  lemma LoopPollsWithinBound(t: Thread, lookups: nat -> Lookup, clock: nat -> Time, granted: nat)
    requires t.pc.Poll? && t.pc.left == granted
    requires IteratorContract(ComputeBackoffParams(t.hc.spec),
                              WaitsBegun(Polls(lookups, clock, 0, FirstDecisive(lookups, granted, 0)), t.pc.began))
    ensures var index := FirstDecisive(lookups, granted, 0);
            var waiting := Run(t, Polls(lookups, clock, 0, index));
            var b := ComputeBackoffParams(t.hc.spec);
            && waiting.pc.Poll? && !Step(waiting, clock(index), Saw(lookups(index))).pc.Poll?
            && (index > 0 ==> (index - 1) * b.minTime < b.timeout)
            && (t.hc.spec.backoffMax == 0 && t.hc.spec.backoffMin == 0 ==> index <= 120)
  {
    hide Step, ComputeBackoffParams, IteratorContract;
    var index := FirstDecisive(lookups, granted, 0);
    var elapsed := WaitsBegun(Polls(lookups, clock, 0, index), t.pc.began);
    LoopFindsFirstDecisive(t, lookups, clock, granted, 0);
    PollsLength(lookups, clock, 0, index);
    if index > 0 { PollBound(ComputeBackoffParams(t.hc.spec), elapsed); }
    if t.hc.spec.backoffMax == 0 && t.hc.spec.backoffMin == 0 { DefaultPollBound(t.hc.spec, elapsed); }
  }

  /** The remedy's loop, whose delays ignore the settings. */
  lemma RemedyLoopPollsWithinBound(t: Thread, lookups: nat -> Lookup, clock: nat -> Time, granted: nat)
    requires t.pc.RemedyPoll? && t.pc.left == granted
    requires IteratorContract(ComputeBackoffParams(t.hc.spec.(backoffMax := 0, backoffMin := 0)),
                              WaitsBegun(Polls(lookups, clock, 0, FirstDecisive(lookups, granted, 0)), t.pc.began))
    ensures var index := FirstDecisive(lookups, granted, 0);
            var waiting := Run(t, Polls(lookups, clock, 0, index));
            && waiting.pc.RemedyPoll? && !Step(waiting, clock(index), Saw(lookups(index))).pc.RemedyPoll?
            && index <= 120
  {
    hide Step, ComputeBackoffParams, IteratorContract;
    var index := FirstDecisive(lookups, granted, 0);
    RemedyLoopFindsFirstDecisive(t, lookups, clock, granted, 0);
    PollsLength(lookups, clock, 0, index);
    DefaultPollBound(t.hc.spec.(backoffMax := 0, backoffMin := 0),
                     WaitsBegun(Polls(lookups, clock, 0, index), t.pc.began));
  }

  // ---------------------------------------------------------------- deadlines

  /** When a template that sets no deadline is parsed, the deadline sent with the workflow is the
      time after which the poll that follows gives up: the configured timeout, else the interval. */
  lemma DeadlineIsPollTimeout(spec: Spec, decoded: Templates.Decoded)
    requires Templates.ParseWorkflow(spec, decoded).ParsedTo?
    requires match Templates.Lookup(decoded.fields, "spec")
             case Fields(given) => Templates.Lookup(given, "activeDeadlineSeconds") == Templates.Null
             case _ => true
    ensures var parsed := Templates.ParseWorkflow(spec, decoded);
            var sent := Templates.Lookup(parsed.content, "activeDeadlineSeconds");
            && sent.Number?
            && sent.number * SECOND as real == ComputeBackoffParams(parsed.spec).timeout as real
            && parsed.spec.workflow.timeout
               == (if spec.workflow.timeout != 0 then spec.workflow.timeout else spec.repeatAfterSec)
  {
    var parsed := Templates.ParseWorkflow(spec, decoded);
    var timeout := parsed.spec.workflow.timeout;
    assert timeout as real * SECOND as real == (timeout * SECOND) as real;
  }

  /** A deadline the template sets is sent as it is, and everything else the template says is kept:
      parsing only ever adds, apart from the account. */
  lemma ParsingKeepsTheTemplate(spec: Spec, decoded: Templates.Decoded, key: string)
    requires Templates.ParseWorkflow(spec, decoded).ParsedTo?
    requires key != "serviceAccountName"
    ensures match Templates.Lookup(decoded.fields, "spec")
            case Fields(given) =>
              Templates.Lookup(given, key) != Templates.Null ==>
                Templates.Lookup(Templates.ParseWorkflow(spec, decoded).content, key) == Templates.Lookup(given, key)
            case _ => false
  {
  }

  /** The remedy's own timeout is the deadline it was submitted with, whether the template set it as
      a number or not at all; but no poll ever reads it. */
  lemma RemedyTimeoutIsDeadline(spec: Spec, decoded: Templates.Decoded)
    requires Templates.ParseRemedyWorkflow(spec, decoded).ParsedTo?
    ensures var parsed := Templates.ParseRemedyWorkflow(spec, decoded);
            var sent := Templates.Lookup(parsed.content, "activeDeadlineSeconds");
            && (sent.Number? ==> parsed.spec.remedyWorkflow.timeout == Templates.Truncate(sent.number))
            && (!sent.Number? ==> parsed.spec.remedyWorkflow.timeout == spec.repeatAfterSec)
            && ComputeBackoffParams(parsed.spec) == ComputeBackoffParams(spec)
  {
    var parsed := Templates.ParseRemedyWorkflow(spec, decoded);
    assert Templates.Truncate(spec.repeatAfterSec as real) == spec.repeatAfterSec;
  }
}
