/** The custom gauges a workflow reports in its output parameters
    (internal/metrics/collector.go, CreateDynamicPrometheusMetric). */
module Gauges {
  import opened HealthChecks

  /** One element of a parameter's "metrics" list. A list element that is not a map panics. */
  datatype Metric = NotAMap | Undecodable | Decoded(name: string, help: string, value: real)

  /** A parameter without a value panics; one that is not JSON has no metrics. */
  datatype Parameter = NoValue | Metrics(metrics: seq<Metric>)

  function Underscored(name: string): (r: string)
    ensures |r| == |name|
    ensures forall i :: 0 <= i < |name| ==> r[i] == if name[i] == '-' then '_' else name[i]
  {
    if name == "" then "" else [if name[0] == '-' then '_' else name[0]] + Underscored(name[1..])
  }

  function Mangled(check: string, metric: string): string {
    Underscored(check) + "_" + metric
  }

  /** The name of a gauge: the check's with every dash an underscore, an underscore, the metric's. */
  lemma MangledReads(check: string, metric: string)
    ensures var name := Mangled(check, metric);
            && |name| == |check| + 1 + |metric|
            && (forall i :: 0 <= i < |check| ==> name[i] == if check[i] == '-' then '_' else check[i])
            && name[|check|] == '_' && name[|check| + 1..] == metric
            && '-' !in name[..|check|]
  {
  }

  predicate IsValid(m: Metric) {
    m.Decoded? && m.name != ""
  }

  // ---------------------------------------------------------------- the entries that count

  function CutAtPanic(ms: seq<Metric>): seq<Metric> {
    if ms == [] || ms[0].NotAMap? then [] else [ms[0]] + CutAtPanic(ms[1..])
  }

  predicate Panics(ms: seq<Metric>) {
    exists i :: 0 <= i < |ms| && ms[i].NotAMap?
  }

  /** All metrics reached before the first panic, in order. */
  function Reached(ps: seq<Parameter>): seq<Metric> {
    if ps == [] || ps[0].NoValue? then []
    else if Panics(ps[0].metrics) then CutAtPanic(ps[0].metrics)
    else ps[0].metrics + Reached(ps[1..])
  }

  type Series = map<(string, string), real>

  /** Last writer wins, written from the end: the value of a pair is that of the last valid entry
      for it, or what it was. */
  function LastValue(ms: seq<Metric>, check: string, metric: string): Option<real> {
    if ms == [] then None
    else
      var last := ms[|ms| - 1];
      if IsValid(last) && Mangled(check, last.name) == metric then Some(last.value)
      else LastValue(ms[..|ms| - 1], check, metric)
  }

  /** `after` differs from `before` in nothing but the last values of `ms` for this check. */
  ghost predicate Updated(before: Series, after: Series, check: string, ms: seq<Metric>) {
    forall metric, other ::
      Entry(after, metric, other)
      == if other == check && LastValue(ms, check, metric).Some? then LastValue(ms, check, metric)
         else Entry(before, metric, other)
  }

  function Entry(values: Series, metric: string, check: string): Option<real> {
    if (metric, check) in values then Some(values[(metric, check)]) else None
  }

  /** The gauge names that valid entries of `ms` ask for. */
  function Names(ms: seq<Metric>, check: string): set<string> {
    set i | 0 <= i < |ms| && IsValid(ms[i]) :: Mangled(check, ms[i].name)
  }

  lemma {:induction false} LastValueIsNamed(ms: seq<Metric>, check: string, metric: string)
    ensures LastValue(ms, check, metric).Some? <==> metric in Names(ms, check)
    decreases |ms|
  {
    if ms != [] {
      var n := |ms| - 1;
      LastValueIsNamed(ms[..n], check, metric);
      assert forall i :: 0 <= i < n ==> ms[..n][i] == ms[i];
      if metric in Names(ms, check) && !(IsValid(ms[n]) && Mangled(check, ms[n].name) == metric) {
        var i :| 0 <= i < |ms| && IsValid(ms[i]) && Mangled(check, ms[i].name) == metric;
        assert ms[..n][i] == ms[i];
      }
    }
  }

  /** Within one check two metrics share a gauge only if they have the same name, so the last
      value of a gauge is that of the last valid entry of that name. */
  lemma MangledInjective(check: string, a: string, b: string)
    requires Mangled(check, a) == Mangled(check, b)
    ensures a == b
  {
    var n := |check| + 1;
    assert a == Mangled(check, a)[n..];
    assert b == Mangled(check, b)[n..];
  }

  /** The last value is that of a valid entry for the gauge after which there is no other. */
  lemma {:induction false} LastValueIsLast(ms: seq<Metric>, check: string, metric: string)
    ensures var last := LastValue(ms, check, metric);
            && (last.Some? ==>
                  exists i :: && 0 <= i < |ms| && ms[i].Decoded? && ms[i].name != ""
                              && Mangled(check, ms[i].name) == metric && last.value == ms[i].value
                              && NoneFrom(ms, i + 1, check, metric))
            && (last.None? ==> NoneFrom(ms, 0, check, metric))
    decreases |ms|
  {
    if ms != [] {
      var n := |ms| - 1;
      if IsValid(ms[n]) && Mangled(check, ms[n].name) == metric {
        assert NoneFrom(ms, n + 1, check, metric);
      } else {
        LastValueIsLast(ms[..n], check, metric);
        if LastValue(ms, check, metric).Some? {
          var i :| && 0 <= i < n && ms[..n][i].Decoded? && ms[..n][i].name != ""
                   && Mangled(check, ms[..n][i].name) == metric
                   && LastValue(ms, check, metric).value == ms[..n][i].value
                   && NoneFrom(ms[..n], i + 1, check, metric);
          NoneOneMore(ms, i + 1, check, metric);
          assert ms[i] == ms[..n][i];
        } else {
          NoneOneMore(ms, 0, check, metric);
        }
      }
    }
  }

  /** From entry `i` on there is no valid entry for the gauge. */
  ghost predicate NoneFrom(ms: seq<Metric>, i: nat, check: string, metric: string) {
    forall j :: i <= j < |ms| && ms[j].Decoded? && ms[j].name != "" ==> Mangled(check, ms[j].name) != metric
  }

  lemma NoneOneMore(ms: seq<Metric>, i: nat, check: string, metric: string)
    requires ms != [] && i < |ms| && NoneFrom(ms[..|ms| - 1], i, check, metric)
    requires var m := ms[|ms| - 1]; !(m.Decoded? && m.name != "" && Mangled(check, m.name) == metric)
    ensures NoneFrom(ms, i, check, metric)
  {
    forall j | i <= j < |ms| && ms[j].Decoded? && ms[j].name != "" ensures Mangled(check, ms[j].name) != metric {
      if j < |ms| - 1 { assert ms[..|ms| - 1][j] == ms[j]; }
    }
  }

  /** Parameters without a panic are collected one after the other. */
  lemma {:induction false} ReachesInOrder(ps: seq<Parameter>, rest: seq<Parameter>)
    requires forall i :: 0 <= i < |ps| ==> !PanicsAt(ps[i])
    ensures Reached(ps + rest) == Reached(ps) + Reached(rest)
    decreases |ps|
  {
    if ps == [] {
      assert ps + rest == rest;
    } else {
      ReachesInOrder(ps[1..], rest);
      assert (ps + rest)[1..] == ps[1..] + rest && (ps + rest)[0] == ps[0];
    }
  }

  /** Of a parameter without a bad entry everything is collected; of one with a bad entry what comes
      before the first such entry, and nothing of what follows the parameter. */
  lemma ReachesUpToPanic(p: Parameter, rest: seq<Parameter>, bad: nat)
    ensures p.Metrics? && (forall k :: 0 <= k < |p.metrics| ==> !p.metrics[k].NotAMap?) ==>
              Reached([p] + rest) == p.metrics + Reached(rest)
    ensures p.NoValue? ==> Reached([p] + rest) == []
    ensures p.Metrics? && bad < |p.metrics| && p.metrics[bad].NotAMap?
            && (forall k :: 0 <= k < bad ==> !p.metrics[k].NotAMap?) ==>
              Reached([p] + rest) == p.metrics[..bad]
  {
    assert ([p] + rest)[1..] == rest;
    if && p.Metrics? && bad < |p.metrics| && p.metrics[bad].NotAMap?
       && forall k :: 0 <= k < bad ==> !p.metrics[k].NotAMap? {
      CutAt(p.metrics, bad);
    }
    hide CutAtPanic;
  }

  // ---------------------------------------------------------------- the table, updated in place

  class GaugeTable {
    /** CustomGaugeMetricsMap: the gauges by mangled name, with their help texts. */
    var gauges: map<string, string>
    var values: Series
    /** Names passed to registry.Register, in order, and whether the registry took them. */
    var attempts: seq<(string, bool)>
    const accepts: nat -> bool
    var writer: bool
    var readers: nat

    /** Between entries no lock is held, and each name in the table was offered to the registry
        exactly once, whether or not the registry took it. */
    ghost predicate Valid()
      reads this
    {
      && !writer && readers == 0
      && OfferedOnce()
      && (forall name :: name in gauges <==> Offered(name))
    }

    ghost predicate Offered(name: string)
      reads this
    {
      exists i :: 0 <= i < |attempts| && attempts[i].0 == name
    }

    ghost predicate OfferedOnce()
      reads this
    {
      forall i, j :: 0 <= i < j < |attempts| ==> attempts[i].0 != attempts[j].0
    }

    constructor (accepts: nat -> bool)
      ensures Valid() && gauges == map[] && values == map[] && attempts == []
    {
      this.accepts := accepts;
      gauges, values, attempts, writer, readers := map[], map[], [], false, 0;
    }

    /** A gauge goes into the table, and is offered to the registry (93-104). */
    method Register(name: string, help: string)
      requires OfferedOnce() && (forall n :: n in gauges <==> Offered(n)) && name !in gauges
      modifies this`gauges, this`attempts
      ensures OfferedOnce() && (forall n :: n in gauges <==> Offered(n))
      ensures gauges == old(gauges)[name := help] && old(attempts) <= attempts
    {
      gauges := gauges[name := help];
      attempts := attempts + [(name, accepts(|attempts|))];
      assert attempts[|attempts| - 1].0 == name;
      forall other | old(Offered(other)) ensures Offered(other) {
        var i :| 0 <= i < |old(attempts)| && old(attempts)[i].0 == other;
        assert attempts[i].0 == other;
      }
    }

    /** One entry of a metrics list (78-110). */
    method Collect(check: string, m: Metric)
      requires Valid() && !m.NotAMap?
      modifies this
      ensures Valid()
      ensures m.Undecodable? || m.name == "" ==>
                values == old(values) && gauges == old(gauges) && attempts == old(attempts)
      ensures m.Decoded? && m.name != "" <==> IsValid(m)
      ensures IsValid(m) ==>
                && values == old(values)[(Mangled(check, m.name), check) := m.value]
                && gauges == (if Mangled(check, m.name) in old(gauges) then old(gauges)
                              else old(gauges)[Mangled(check, m.name) := m.help])
                && old(attempts) <= attempts
    {
      if m.Undecodable? || m.name == "" {
        return;
      }
      var name := Mangled(check, m.name);
      writer := true;
      if name !in gauges {
        Register(name, m.help);
      }
      writer := false;
      readers := readers + 1;
      values := values[(name, check) := m.value];
      readers := readers - 1;
    }

    /** What collecting `ms` for a check does to the table. */
    twostate predicate Collected(check: string, ms: seq<Metric>)
      reads this
    {
      && Updated(old(values), values, check, ms)
      && gauges.Keys == old(gauges).Keys + Names(ms, check)
      && old(attempts) <= attempts
    }

    /** The inner loop, over the entries of one parameter. */
    method CollectAll(check: string, ms: seq<Metric>) returns (panicked: bool)
      requires Valid()
      modifies this
      ensures Valid() && panicked == Panics(ms)
      ensures Collected(check, CutAtPanic(ms))
      ensures !panicked ==> CutAtPanic(ms) == ms
    {
      hide Valid, Updated, CutAtPanic, Mangled;
      var j := 0;
      NothingCollected(values, check);
      while j < |ms|
        invariant 0 <= j <= |ms| && Valid()
        invariant forall k :: 0 <= k < j ==> !ms[k].NotAMap?
        invariant Collected(check, ms[..j])
      {
        if ms[j].NotAMap? {
          CutAt(ms, j);
          return true;
        }
        ghost var was := values;
        Collect(check, ms[j]);
        OneMore(old(values), was, values, check, ms[..j], ms[j]);
        assert ms[..j] + [ms[j]] == ms[..j + 1];
        j := j + 1;
      }
      assert ms[..j] == ms;
      NoCut(ms);
      return false;
    }

    /** The whole function. It panics exactly at the first parameter without a value or entry that
        is not a map; what came before has been collected, what comes after has not, and no lock
        is left held either way. */
    method CreateDynamicPrometheusMetric(check: string, parameters: Option<seq<Parameter>>) returns (panicked: bool)
      requires Valid()
      modifies this
      ensures Valid()
      ensures parameters.None? ==>
                !panicked && values == old(values) && gauges == old(gauges) && attempts == old(attempts)
      ensures parameters.Some? ==>
                && (panicked <==> exists i :: 0 <= i < |parameters.value| && PanicsAt(parameters.value[i]))
                && Collected(check, Reached(parameters.value))
    {
      hide Valid, Updated, CutAtPanic, Names, Panics;
      if parameters.None? {
        return false;
      }
      var ps := parameters.value;
      ghost var done: seq<Metric> := [];
      NothingCollected(values, check);
      var i := 0;
      while i < |ps|
        invariant 0 <= i <= |ps| && Valid()
        invariant forall k :: 0 <= k < i ==> !PanicsAt(ps[k])
        invariant Reached(ps) == done + Reached(ps[i..])
        invariant Collected(check, done)
      {
        assert ps[i..][0] == ps[i] && ps[i..][1..] == ps[i + 1..];
        if ps[i].NoValue? {
          assert PanicsAt(ps[i]);
          assert done + [] == done;
          return true;
        }
        var ms := ps[i].metrics;
        label before:
        panicked := CollectAll(check, ms);
        Append(old(values), old@before(values), values, check, done, CutAtPanic(ms));
        done := done + CutAtPanic(ms);
        if panicked {
          assert PanicsAt(ps[i]);
          return true;
        }
        i := i + 1;
      }
      assert done + Reached(ps[i..]) == done;
      return false;
    }
  }

  predicate PanicsAt(p: Parameter) {
    p.NoValue? || Panics(p.metrics)
  }

  lemma NothingCollected(values: Series, check: string)
    ensures Updated(values, values, check, [])
    ensures Names([], check) == {}
  {
  }

  lemma {:induction false} NoCut(ms: seq<Metric>)
    requires forall k :: 0 <= k < |ms| ==> !ms[k].NotAMap?
    ensures CutAtPanic(ms) == ms && !Panics(ms)
    decreases |ms|
  {
    if ms != [] { NoCut(ms[1..]); }
  }

  /** Collecting one list after another is collecting their concatenation. */
  lemma {:induction false} Append(start: Series, middle: Series, end: Series, check: string, ms: seq<Metric>,
                                  more: seq<Metric>)
    requires Updated(start, middle, check, ms) && Updated(middle, end, check, more)
    ensures Updated(start, end, check, ms + more)
    ensures Names(ms + more, check) == Names(ms, check) + Names(more, check)
  {
    forall metric, other
      ensures Entry(end, metric, other)
              == if other == check && LastValue(ms + more, check, metric).Some? then LastValue(ms + more, check, metric)
                 else Entry(start, metric, other)
    {
      LastOfBoth(ms, more, check, metric);
      assert Entry(middle, metric, other) == Entry(middle, metric, other);
    }
    forall name ensures name in Names(ms + more, check) <==> name in Names(ms, check) + Names(more, check) {
      LastOfBoth(ms, more, check, name);
      LastValueIsNamed(ms, check, name);
      LastValueIsNamed(more, check, name);
      LastValueIsNamed(ms + more, check, name);
    }
  }

  lemma {:induction false} LastOfBoth(ms: seq<Metric>, more: seq<Metric>, check: string, metric: string)
    ensures LastValue(ms + more, check, metric)
            == if LastValue(more, check, metric).Some? then LastValue(more, check, metric)
               else LastValue(ms, check, metric)
    decreases |more|
  {
    if more == [] {
      assert ms + more == ms;
    } else {
      var n := |more| - 1;
      assert (ms + more)[..|ms + more| - 1] == ms + more[..n];
      LastOfBoth(ms, more[..n], check, metric);
    }
  }

  lemma {:induction false} CutAt(ms: seq<Metric>, j: nat)
    requires j < |ms| && ms[j].NotAMap? && forall k :: 0 <= k < j ==> !ms[k].NotAMap?
    ensures CutAtPanic(ms) == ms[..j]
    decreases j
  {
    if j > 0 {
      CutAt(ms[1..], j - 1);
      assert ms[..j] == [ms[0]] + ms[1..][..j - 1];
    }
  }

  lemma OneMore(start: Series, before: Series, after: Series, check: string, ms: seq<Metric>, m: Metric)
    requires Updated(start, before, check, ms)
    requires after == if IsValid(m) then before[(Mangled(check, m.name), check) := m.value] else before
    ensures Updated(start, after, check, ms + [m])
    ensures Names(ms + [m], check) == Names(ms, check) + if IsValid(m) then {Mangled(check, m.name)} else {}
  {
    assert [m][..0] == [];
    assert Updated(before, after, check, [m]);
    Append(start, before, after, check, ms, [m]);
    assert [m][0] == m;
    assert Names([m], check) == if IsValid(m) then {Mangled(check, m.name)} else {};
  }
}
