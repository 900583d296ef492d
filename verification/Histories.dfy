/** What a history of persisted events says: counts, and the remedies since the last success. */
module Histories {
  import opened HealthChecks
  import opened Goroutines

  function Successes(h: seq<Event>): nat {
    if h == [] then 0 else Successes(h[..|h| - 1]) + if h[|h| - 1].RanOk? then 1 else 0
  }

  function Failures(h: seq<Event>): nat {
    if h == [] then 0 else Failures(h[..|h| - 1]) + if h[|h| - 1].RanFailed? then 1 else 0
  }

  /** Remedies that passed, or that did not. */
  function RemedyCount(h: seq<Event>, passed: bool): nat {
    if h == [] then 0
    else
      var last := h[|h| - 1];
      RemedyCount(h[..|h| - 1], passed) + if last.Remedied? && last.passed == passed then 1 else 0
  }

  /** The outcomes of all remedy completions, in order. */
  function Outcomes(h: seq<Event>): seq<bool> {
    if h == [] then []
    else Outcomes(h[..|h| - 1]) + if h[|h| - 1].Remedied? then [h[|h| - 1].passed] else []
  }

  function Passes(outcomes: seq<bool>): nat {
    if outcomes == [] then 0
    else Passes(outcomes[..|outcomes| - 1]) + if outcomes[|outcomes| - 1] then 1 else 0
  }

  lemma AppendOutcome(h: seq<Event>, e: Event)
    ensures Outcomes(h + [e]) == Outcomes(h) + if e.Remedied? then [e.passed] else []
  {
    assert (h + [e])[..|h|] == h;
  }

  lemma AppendPass(outcomes: seq<bool>, passed: bool)
    ensures Passes(outcomes + [passed]) == Passes(outcomes) + if passed then 1 else 0
  {
    assert (outcomes + [passed])[..|outcomes|] == outcomes;
  }

  /** The times of all remedy completions, in order. */
  function Remedies(h: seq<Event>): seq<Time> {
    if h == [] then []
    else Remedies(h[..|h| - 1]) + if h[|h| - 1].Remedied? then [h[|h| - 1].at] else []
  }

  /** The times of the remedy completions since the last success. */
  function SinceSuccess(h: seq<Event>): seq<Time> {
    if h == [] || h[|h| - 1].RanOk? then []
    else SinceSuccess(h[..|h| - 1]) + if h[|h| - 1].Remedied? then [h[|h| - 1].at] else []
  }

  /** Any `limit` + 1 consecutive completions span more than `interval` seconds. */
  ghost predicate Spread(times: seq<Time>, limit: int, interval: int) {
    forall i, j :: 0 <= i <= j < |times| && i + limit <= j ==> times[j] - times[i] > interval * SECOND
  }

  ghost predicate AlwaysSpread(h: seq<Event>, limit: int, interval: int) {
    h == [] || (AlwaysSpread(h[..|h| - 1], limit, interval) && Spread(SinceSuccess(h), limit, interval))
  }

  predicate NoSuccess(h: seq<Event>) {
    forall i :: 0 <= i < |h| ==> !h[i].RanOk?
  }

  lemma AppendEvent(h: seq<Event>, e: Event)
    ensures Successes(h + [e]) == Successes(h) + if e.RanOk? then 1 else 0
    ensures Failures(h + [e]) == Failures(h) + if e.RanFailed? then 1 else 0
    ensures forall passed ::
              RemedyCount(h + [e], passed)
              == RemedyCount(h, passed) + if e.Remedied? && e.passed == passed then 1 else 0
    ensures SinceSuccess(h + [e])
            == if e.RanOk? then [] else SinceSuccess(h) + if e.Remedied? then [e.at] else []
    ensures Remedies(h + [e]) == Remedies(h) + if e.Remedied? then [e.at] else []
  {
    assert (h + [e])[..|h|] == h;
  }

  lemma AppendSpread(h: seq<Event>, e: Event, limit: int, interval: int)
    requires AlwaysSpread(h, limit, interval) && Spread(SinceSuccess(h + [e]), limit, interval)
    ensures AlwaysSpread(h + [e], limit, interval)
  {
    assert (h + [e])[..|h|] == h;
  }

  lemma {:induction false} PrefixSpread(h: seq<Event>, n: nat, limit: int, interval: int)
    requires AlwaysSpread(h, limit, interval) && n <= |h|
    ensures AlwaysSpread(h[..n], limit, interval)
    decreases |h|
  {
    if n == |h| {
      assert h[..n] == h;
    } else {
      assert h[..|h| - 1][..n] == h[..n];
      PrefixSpread(h[..|h| - 1], n, limit, interval);
    }
  }

  /** The completions of a stretch without success are the last of those since the last success. */
  lemma {:induction false} StretchIsSuffix(h: seq<Event>, from: nat)
    requires from <= |h| && NoSuccess(h[from..])
    ensures |Remedies(h[from..])| <= |SinceSuccess(h)|
    ensures Remedies(h[from..]) == SinceSuccess(h)[|SinceSuccess(h)| - |Remedies(h[from..])|..]
    decreases |h|
  {
    if from < |h| {
      var n := |h| - 1;
      assert h[from..][..n - from] == h[..n][from..];
      assert h[from..][n - from] == h[n];
      StretchIsSuffix(h[..n], from);
    }
  }

  /** In a history that was always spread, a stretch without success and with more than `limit`
      completions is longer than `interval` seconds. */
  lemma StretchIsLong(h: seq<Event>, from: nat, to: nat, limit: int, interval: int)
    requires AlwaysSpread(h, limit, interval) && from <= to <= |h| && 0 < limit
    requires NoSuccess(h[from..to]) && |Remedies(h[from..to])| > limit
    ensures var times := Remedies(h[from..to]); times[|times| - 1] - times[0] > interval * SECOND
  {
    PrefixSpread(h, to, limit, interval);
    assert h[from..to] == h[..to][from..];
    StretchIsSuffix(h[..to], from);
    assert Spread(SinceSuccess(h[..to]), limit, interval);
  }
}
