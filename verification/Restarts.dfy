/** A process that has died and come back: its timer table is empty, and the first reconcile of a
    check runs it, however recently it finished. */
module Restarts {
  import opened HealthChecks
  import opened Goroutines
  import opened Machine
  import opened Episodes
  import opened SpacingLimits
  import RbacNames

  /** The restarted process, with one reconcile of `key` at `pc`. */
  function Back(s: State, key: Key, spec: Spec, pc: Pc): State
    requires key in s.store
  {
    Crashed(s).(threads := [NewThread(key, Reconcile).(hc := CopyOf(s.store[key]).(spec := spec), pc := pc)])
  }

  /** An answer to the decision: the table has no entry for anyone. */
  function EmptyTable(s: State, key: Key): Answer
    requires key in s.store
  {
    if ConsultsTable(CopyOf(s.store[key]), s.now) then Entry(None) else Done
  }

  lemma ComesBackUp(s: State, key: Key)
    requires key in s.store && key.name != ""
    ensures var s1 := Crashed(s);
            var s2 := s1.(threads := [NewThread(key, Reconcile)]);
            var get := Go(0, Fetched(CopyOf(s.store[key]), s.store[key].rv));
            && Enabled(s, Crash) && Next(s, Crash) == s1
            && Enabled(s1, StartReconcile(key)) && Next(s1, StartReconcile(key)) == s2
            && Enabled(s2, get) && Next(s2, get) == Back(s, key, s.store[key].spec, Decide)
  {
    hide StepPoll, StepRemedyPoll, StepDecide, StepSubmit, StepRemedySubmit, StepRbac, StepWriteGet, StepWritePut;
    var s2 := Crashed(s).(threads := [NewThread(key, Reconcile)]);
    var get := Go(0, Fetched(CopyOf(s.store[key]), s.store[key].rv));
    assert Next(s2, get).threads == Back(s, key, s.store[key].spec, Decide).threads;
  }

  lemma Decides(s: State, key: Key)
    requires key in s.store && Runnable(s.store[key].spec) && s.store[key].spec.repeatAfterSec > 0
    ensures var s1 := Back(s, key, s.store[key].spec, Decide);
            var decide := Go(0, EmptyTable(s, key));
            Enabled(s1, decide) && Next(s1, decide) == Back(s, key, s.store[key].spec, CreateRbac)
  {
    hide StepPoll, StepRemedyPoll, StepSubmit, StepRemedySubmit, StepRbac, StepWriteGet, StepWritePut, StepLast;
    var s1 := Back(s, key, s.store[key].spec, Decide);
    assert Next(s1, Go(0, EmptyTable(s, key))).threads == Back(s, key, s.store[key].spec, CreateRbac).threads;
  }

  lemma GoesOnToSubmit(s: State, key: Key, wf: string)
    requires key in s.store && Runnable(s.store[key].spec) && wf != "" && wf !in s.submitted
    ensures var s1 := Back(s, key, s.store[key].spec, CreateRbac);
            var s2 := Back(s, key, RbacNames.Renamed(s.store[key].spec), Submit);
            var submit := Go(0, Submission(Some(wf), TEMPLATE));
            && Enabled(s1, Go(0, Done)) && Next(s1, Go(0, Done)) == s2
            && Enabled(s2, submit) && Next(s2, submit).submitted == s.submitted + {wf}
  {
    hide StepPoll, StepRemedyPoll, StepDecide, StepRemedySubmit, StepWriteGet, StepWritePut, StepLast;
    var s1 := Back(s, key, s.store[key].spec, CreateRbac);
    assert Next(s1, Go(0, Done)).threads == Back(s, key, RbacNames.Renamed(s.store[key].spec), Submit).threads;
  }

  lemma ThreeSteps(s: State, a: Action, b: Action, c: Action) returns (run: seq<Action>)
    requires Enabled(s, a) && Enabled(Next(s, a), b) && Enabled(Next(Next(s, a), b), c)
    ensures run == [a, b, c] && ValidRun(s, run) && Exec(s, run) == Next(Next(Next(s, a), b), c)
  {
    hide Next, Enabled;
    RunCons(Next(Next(s, a), b), c, []);
    RunCons(Next(s, a), b, [c] + []);
    RunCons(s, a, [b] + ([c] + []));
    run := [a] + ([b] + ([c] + []));
  }

  lemma DecidesToSubmit(s: State, key: Key, wf: string) returns (run: seq<Action>)
    requires key in s.store && Runnable(s.store[key].spec) && s.store[key].spec.repeatAfterSec > 0
    requires wf != "" && wf !in s.submitted
    ensures ValidRun(Back(s, key, s.store[key].spec, Decide), run)
    ensures Exec(Back(s, key, s.store[key].spec, Decide), run).submitted == s.submitted + {wf}
    ensures forall i :: 0 <= i < |run| ==> run[i].Go? && run[i].tid == 0
  {
    var spec := s.store[key].spec;
    var decide, submit := Go(0, EmptyTable(s, key)), Go(0, Submission(Some(wf), TEMPLATE));
    var s1 := Back(s, key, spec, Decide);
    Decides(s, key);
    GoesOnToSubmit(s, key, wf);
    hide Next, Enabled, Back, Crashed, EmptyTable, Runnable, RbacNames.Renamed;
    run := ThreeSteps(s1, decide, Go(0, Done), submit);
  }

  /** From any state at all, for every stored, runnable check with an interval, whatever its status
      says: after a crash, the first reconcile of the check leads to a submission. */
  lemma RestartRunsTheCheck(s: State, key: Key) returns (run: seq<Action>, wf: string)
    requires key in s.store && key.name != "" && Runnable(s.store[key].spec) && s.store[key].spec.repeatAfterSec > 0
    ensures |run| > 2 && run[0] == Crash && run[1] == StartReconcile(key)
    ensures forall i :: 2 <= i < |run| ==> run[i].Go? && run[i].tid == 0
    ensures ValidRun(s, run) && wf !in s.submitted && Exec(s, run).submitted == s.submitted + {wf}
  {
    wf := FreshName(s.submitted);
    var spec := s.store[key].spec;
    var get := Go(0, Fetched(CopyOf(s.store[key]), s.store[key].rv));
    var s1 := Crashed(s);
    var s2 := s1.(threads := [NewThread(key, Reconcile)]);
    ComesBackUp(s, key);
    hide Next, Enabled, Back, Crashed, EmptyTable, Runnable, RbacNames.Renamed, ValidRun, Exec;
    run := DecidesToSubmit(s, key, wf);
    RunCons(s2, get, run);
    RunCons(s1, StartReconcile(key), [get] + run);
    RunCons(s, Crash, [StartReconcile(key)] + ([get] + run));
    run := [Crash] + ([StartReconcile(key)] + ([get] + run));
  }
}
