/** Sums over the threads of a state. */
module Sums {
  import opened Goroutines

  function Total(ts: seq<Thread>, w: Thread -> nat): nat {
    if ts == [] then 0 else Total(ts[..|ts| - 1], w) + w(ts[|ts| - 1])
  }

  lemma {:induction false} TotalUpdate(ts: seq<Thread>, i: nat, t: Thread, w: Thread -> nat)
    requires i < |ts|
    ensures Total(ts[i := t], w) + w(ts[i]) == Total(ts, w) + w(t)
    decreases |ts|
  {
    var n := |ts| - 1;
    if i == n {
      assert ts[i := t][..n] == ts[..n];
    } else {
      assert ts[i := t][..n] == ts[..n][i := t];
      TotalUpdate(ts[..n], i, t, w);
    }
  }

  lemma TotalAppend(ts: seq<Thread>, t: Thread, w: Thread -> nat)
    ensures Total(ts + [t], w) == Total(ts, w) + w(t)
  {
    assert (ts + [t])[..|ts|] == ts;
  }

  lemma {:induction false} PartWithin(ts: seq<Thread>, i: nat, w: Thread -> nat)
    requires i < |ts|
    ensures w(ts[i]) <= Total(ts, w)
    decreases |ts|
  {
    if i < |ts| - 1 { PartWithin(ts[..|ts| - 1], i, w); }
  }
}
