/** Histories of aborted cycles heal, creation converges, and a remedy has one account. */
module RbacTheorems {
  import opened HealthChecks
  import opened RbacNames
  import opened Rbac
  import Templates

  function Refs(p: Plan): set<Ref> {
    {p.account, p.role, p.binding}
  }

  ghost predicate Distinct(p: Plan) {
    p.account != p.role && p.role != p.binding && p.account != p.binding
  }

  function Desired(p: Plan): Objects {
    map[p.account := p.AccountEntry(), p.role := p.RoleEntry(), p.binding := p.BindingEntry()]
  }

  /** What is missing is added, what is there stays. */
  function Completed(m: Objects, p: Plan): Objects {
    Desired(p) + m
  }

  /** What an undisturbed cycle leaves: the workflow's objects are gone, except those that were
      there without the managed label. */
  function Healed(m: Objects, p: Plan): Objects {
    map r | r in m && !(r in Refs(p) && Managed(m[r])) :: m[r]
  }

  /** One call of createRBACForWorkflow, and then possibly one of deleteRBACForWorkflow, each cut
      short wherever its faults say. */
  datatype Attempt = Attempt(creating: nat -> Fault, deleting: Option<nat -> Fault>)

  function AfterAttempt(m: Objects, p: Plan, level: bool, a: Attempt): Objects {
    var created := CreateAll(m, p, level, a.creating, 0);
    match a.deleting
    case None => created.objects
    case Some(faults) => if created.ok then DeleteAll(created.objects, p, level, faults, 0).objects else created.objects
  }

  function AfterAttempts(m: Objects, p: Plan, level: bool, attempts: seq<Attempt>): Objects {
    if attempts == [] then m
    else AfterAttempt(AfterAttempts(m, p, level, attempts[..|attempts| - 1]), p, level, attempts[|attempts| - 1])
  }

  // ---------------------------------------------------------------- one object through any history

  /** `m` is what the controller may have made of `m0` when it touched `touched`: other objects, and
      those that others put there, are as they were, and the rest are absent or the controller's own. */
  ghost predicate Derived(m0: Objects, m: Objects, touched: set<Ref>) {
    forall r {:trigger r in m} {:trigger r in m0} ::
      if r !in touched || (r in m0 && !Managed(m0[r])) then
        (r in m <==> r in m0) && (r in m ==> m[r] == m0[r])
      else
        r in m ==> Managed(m[r])
  }

  lemma GetOrCreateDerives(m0: Objects, m: Objects, touched: set<Ref>, ref: Ref, e: Entry, faults: nat -> Fault, n: nat)
    requires Derived(m0, m, touched) && ref in touched && Managed(e)
    ensures Derived(m0, GetOrCreate(m, ref, e, faults, n).objects, touched)
  {
  }

  lemma DeleteDerives(m0: Objects, m: Objects, touched: set<Ref>, ref: Ref, faults: nat -> Fault, n: nat)
    requires Derived(m0, m, touched) && ref in touched
    ensures Derived(m0, DeleteIfManaged(m, ref, faults, n).objects, touched)
  {
  }

  lemma CreateAllDerives(m0: Objects, m: Objects, touched: set<Ref>, p: Plan, level: bool, faults: nat -> Fault, n: nat)
    requires Derived(m0, m, touched) && Refs(p) <= touched
    ensures Derived(m0, CreateAll(m, p, level, faults, n).objects, touched)
  {
    hide Derived, GetOrCreate;
    var a := GetOrCreate(m, p.account, p.AccountEntry(), faults, n);
    GetOrCreateDerives(m0, m, touched, p.account, p.AccountEntry(), faults, n);
    var r := GetOrCreate(a.objects, p.role, p.RoleEntry(), faults, a.calls);
    GetOrCreateDerives(m0, a.objects, touched, p.role, p.RoleEntry(), faults, a.calls);
    GetOrCreateDerives(m0, r.objects, touched, p.binding, p.BindingEntry(), faults, r.calls);
  }

  lemma DeleteAllDerives(m0: Objects, m: Objects, touched: set<Ref>, p: Plan, level: bool, faults: nat -> Fault, n: nat)
    requires Derived(m0, m, touched) && Refs(p) <= touched
    ensures Derived(m0, DeleteAll(m, p, level, faults, n).objects, touched)
  {
    hide Derived, DeleteIfManaged;
    var a := DeleteIfManaged(m, p.account, faults, n);
    DeleteDerives(m0, m, touched, p.account, faults, n);
    var r := DeleteIfManaged(a.objects, p.role, faults, a.calls);
    DeleteDerives(m0, a.objects, touched, p.role, faults, a.calls);
    DeleteDerives(m0, r.objects, touched, p.binding, faults, r.calls);
  }

  lemma AttemptDerives(m0: Objects, m: Objects, touched: set<Ref>, p: Plan, level: bool, a: Attempt)
    requires Derived(m0, m, touched) && Refs(p) <= touched
    ensures Derived(m0, AfterAttempt(m, p, level, a), touched)
  {
    hide Derived, CreateAll, DeleteAll;
    CreateAllDerives(m0, m, touched, p, level, a.creating, 0);
    if a.deleting.Some? {
      DeleteAllDerives(m0, CreateAll(m, p, level, a.creating, 0).objects, touched, p, level, a.deleting.value, 0);
    }
  }

  lemma {:induction false} AttemptsDerive(m0: Objects, p: Plan, level: bool, attempts: seq<Attempt>)
    ensures Derived(m0, AfterAttempts(m0, p, level, attempts), Refs(p))
    decreases |attempts|
  {
    hide AfterAttempt;
    if attempts != [] {
      var n := |attempts| - 1;
      AttemptsDerive(m0, p, level, attempts[..n]);
      AttemptDerives(m0, AfterAttempts(m0, p, level, attempts[..n]), Refs(p), p, level, attempts[n]);
    }
  }

  // ---------------------------------------------------------------- the cycle heals

  ghost predicate AllHonest(faults: nat -> Fault) {
    forall n: nat :: faults(n).Honest?
  }

  lemma HonestCreate(m: Objects, p: Plan, faults: nat -> Fault, n: nat)
    requires AllHonest(faults) && Distinct(p)
    ensures CreateAll(m, p, true, faults, n).ok
    ensures CreateAll(m, p, true, faults, n).objects == Completed(m, p)
  {
  }

  /** With no level set nothing undisturbed succeeds, and the account that was created stays
      behind: the deletion is never reached. */
  lemma LevelDecides(m: Objects, p: Plan, level: bool, faults: nat -> Fault, n: nat)
    requires AllHonest(faults) && Distinct(p)
    ensures CreateAll(m, p, level, faults, n).ok <==> level
    ensures p.account in CreateAll(m, p, level, faults, n).objects
  {
    if level { HonestCreate(m, p, faults, n); }
  }

  /** With no level set the account stays, once it is there, through any number of cycles however they
      go: none of them ever reaches a deletion. */
  lemma {:induction false} UnsetLevelKeepsTheAccount(m: Objects, p: Plan, attempts: seq<Attempt>)
    requires p.account in m
    ensures var after := AfterAttempts(m, p, false, attempts);
            p.account in after && after[p.account] == m[p.account]
    decreases |attempts|
  {
    if attempts != [] { UnsetLevelKeepsTheAccount(m, p, attempts[..|attempts| - 1]); }
  }

  /** And any such attempt that gets as far as one honest creation leaves it there: from then on, for
      good. */
  lemma UnsetLevelLeavesTheAccount(m: Objects, p: Plan, first: Attempt, attempts: seq<Attempt>)
    requires first.creating(0).Honest? && first.creating(1).Honest?
    ensures p.account in AfterAttempts(AfterAttempt(m, p, false, first), p, false, attempts)
  {
    UnsetLevelKeepsTheAccount(AfterAttempt(m, p, false, first), p, attempts);
  }

  lemma HonestDelete(m: Objects, p: Plan, faults: nat -> Fault, n: nat)
    requires AllHonest(faults) && Distinct(p) && Refs(p) <= m.Keys
    ensures DeleteAll(m, p, true, faults, n).ok
    ensures DeleteAll(m, p, true, faults, n).objects == Healed(m, p)
  {
  }

  lemma CompletedHasAll(m: Objects, p: Plan)
    ensures Refs(p) <= Completed(m, p).Keys
  {
  }

  /** Whatever happened before: after any number of cycles cut short at arbitrary calls, one
      undisturbed cycle succeeds and leaves each object of the remedy absent, unless it was there
      to begin with and not the controller's, and every other object as it was. */
  lemma CycleHeals(m0: Objects, p: Plan, attempts: seq<Attempt>, creating: nat -> Fault, deleting: nat -> Fault)
    requires Distinct(p) && AllHonest(creating) && AllHonest(deleting)
    ensures var m := AfterAttempts(m0, p, true, attempts);
            var created := CreateAll(m, p, true, creating, 0);
            var deleted := DeleteAll(created.objects, p, true, deleting, 0);
            created.ok && deleted.ok && deleted.objects == Healed(m0, p)
  {
    hide CreateAll, DeleteAll, AfterAttempts, Derived, Healed, Completed, Refs;
    AttemptsDerive(m0, p, true, attempts);
    var m := AfterAttempts(m0, p, true, attempts);
    CompletedHasAll(m, p);
    HonestCreate(m, p, creating, 0);
    HonestDelete(Completed(m, p), p, deleting, 0);
    HealedAlike(m0, m, p);
  }

  /** Completing and healing forgets everything the controller did in between. */
  lemma HealedAlike(m0: Objects, m: Objects, p: Plan)
    requires Derived(m0, m, Refs(p))
    ensures Healed(Completed(m, p), p) == Healed(m0, p)
  {
    var c := Completed(m, p);
    forall r ensures r in Healed(c, p) <==> r in Healed(m0, p) {
      var before, after := r in m0, r in m;
    }
  }

  // ---------------------------------------------------------------- cycles of an edited spec

  /** A cycle with the plan its spec asked for at the time. */
  datatype Cycle = Cycle(plan: Plan, level: bool, attempt: Attempt)

  function AfterCycles(m: Objects, cycles: seq<Cycle>): Objects {
    if cycles == [] then m
    else
      var last := cycles[|cycles| - 1];
      AfterAttempt(AfterCycles(m, cycles[..|cycles| - 1]), last.plan, last.level, last.attempt)
  }

  function Touched(cycles: seq<Cycle>): set<Ref> {
    set i, r | 0 <= i < |cycles| && r in Refs(cycles[i].plan) :: r
  }

  lemma DerivedWithin(m0: Objects, m: Objects, touched: set<Ref>, more: set<Ref>)
    requires Derived(m0, m, touched) && touched <= more
    ensures Derived(m0, m, more)
  {
  }

  lemma {:induction false} CyclesDerive(m0: Objects, cycles: seq<Cycle>)
    ensures Derived(m0, AfterCycles(m0, cycles), Touched(cycles))
    decreases |cycles|
  {
    hide AfterAttempt, Refs;
    if cycles != [] {
      var n := |cycles| - 1;
      var m := AfterCycles(m0, cycles[..n]);
      CyclesDerive(m0, cycles[..n]);
      assert forall i :: 0 <= i < n ==> cycles[..n][i] == cycles[i];
      assert Touched(cycles[..n]) <= Touched(cycles);
      forall r | r in Refs(cycles[n].plan) ensures r in Touched(cycles) {}
      hide Derived, Touched;
      DerivedWithin(m0, m, Touched(cycles[..n]), Touched(cycles));
      AttemptDerives(m0, m, Touched(cycles), cycles[n].plan, cycles[n].level, cycles[n].attempt);
    }
  }

  /** The spec may have been edited between the cycles, in its level, its account or its namespace. An
      undisturbed cycle of the last plan heals the objects of that plan, each as it was before the
      first cycle, and leaves every other object as the cycles before left it: so what is left over is
      exactly what earlier plans made and later plans do not name, all of it the controller's own. */
  lemma EditedCyclesHeal(m0: Objects, cycles: seq<Cycle>, p: Plan, creating: nat -> Fault, deleting: nat -> Fault,
                         r: Ref)
    requires Distinct(p) && AllHonest(creating) && AllHonest(deleting)
    ensures var m := AfterCycles(m0, cycles);
            var created := CreateAll(m, p, true, creating, 0);
            var deleted := DeleteAll(created.objects, p, true, deleting, 0);
            var after := deleted.objects;
            && created.ok && deleted.ok
            && (r in Refs(p) ==>
                  && (r in after <==> r in m0 && !Managed(m0[r]))
                  && (r in after ==> after[r] == m0[r]))
            && (r !in Refs(p) ==> (r in after <==> r in m) && (r in after ==> after[r] == m[r]))
            && (r !in Refs(p) && (r !in Touched(cycles) || (r in m0 && !Managed(m0[r]))) ==>
                  (r in after <==> r in m0) && (r in after ==> after[r] == m0[r]))
            && (r in after && (r !in m0 || after[r] != m0[r]) ==>
                  r in Touched(cycles) && r !in Refs(p) && Managed(after[r]))
  {
    var m := AfterCycles(m0, cycles);
    CyclesDerive(m0, cycles);
    CompletedHasAll(m, p);
    HonestCreate(m, p, creating, 0);
    HonestDelete(Completed(m, p), p, deleting, 0);
    hide CreateAll, DeleteAll, AfterCycles, Touched, AllHonest;
    HealedAt(m0, m, p, Touched(cycles), r);
  }

  lemma HealedAt(m0: Objects, m: Objects, p: Plan, touched: set<Ref>, r: Ref)
    requires Derived(m0, m, touched)
    ensures var after := Healed(Completed(m, p), p);
            && (r in Refs(p) ==>
                  && (r in after <==> r in m && !Managed(m[r]))
                  && (r in after ==> after[r] == m[r]))
            && (r !in Refs(p) ==> (r in after <==> r in m) && (r in after ==> after[r] == m[r]))
    ensures r in m && !Managed(m[r]) ==> r in m0 && m0[r] == m[r]
    ensures r in m0 && !Managed(m0[r]) ==> r in m && m[r] == m0[r]
    ensures r !in touched ==> (r in m <==> r in m0) && (r in m ==> m[r] == m0[r])
  {
    var before, after := r in m0, r in m;
  }

  /** What later plans do not name stays for good. */
  lemma {:induction false} UnnamedStays(m: Objects, cycles: seq<Cycle>, r: Ref)
    requires r !in Touched(cycles)
    ensures (r in AfterCycles(m, cycles) <==> r in m) && (r in m ==> AfterCycles(m, cycles)[r] == m[r])
  {
    CyclesDerive(m, cycles);
    hide AfterCycles, Touched;
    var before, after := r in m, r in AfterCycles(m, cycles);
  }

  /** A plan of a spec at namespace level. */
  predicate Namespaced(p: Plan) {
    p.account.kind.ServiceAccount? && p.role.kind.Role? && p.binding.kind.RoleBinding?
  }

  lemma LevelGivesKinds(spec: Spec, wt: WorkflowType, resource: ResourceObject, defaults: seq<PolicyRule>)
    ensures spec.level == NAMESPACE_LEVEL ==> Namespaced(PlanFor(spec, wt, resource, defaults))
    ensures spec.level == CLUSTER_LEVEL ==> PlanFor(spec, wt, resource, defaults).role.kind.ClusterRole?
  {
  }

  /** An attempt cut short at its fifth call: the account and the role are there, the binding is not
      reached. */
  function CutAtBinding(): Attempt {
    Attempt((n: nat) => if n < 4 then Honest else Refuse, None)
  }

  /** The input: a cluster-wide cycle is cut short at its binding, the level is edited to namespace,
      and the cluster role stays through every later cycle, whatever else is edited. */
  lemma LevelEditLeavesTheRole(m: Objects, p: Plan, later: seq<Cycle>)
    requires p.role.kind.ClusterRole? && p.account.kind.ServiceAccount? && p.role !in m
    requires forall i :: 0 <= i < |later| ==> Namespaced(later[i].plan)
    ensures var after := AfterCycles(AfterAttempt(m, p, true, CutAtBinding()), later);
            p.role in after && after[p.role] == p.RoleEntry() && Managed(after[p.role])
  {
    CutLeavesTheRole(m, p);
    forall i | 0 <= i < |later| ensures p.role !in Refs(later[i].plan) {
      assert Namespaced(later[i].plan);
    }
    hide CreateAll, DeleteAll, AfterAttempt, AfterCycles;
    UnnamedStays(AfterAttempt(m, p, true, CutAtBinding()), later, p.role);
  }

  lemma CutLeavesTheRole(m: Objects, p: Plan)
    requires p.role.kind.ClusterRole? && p.account.kind.ServiceAccount? && p.role !in m
    ensures var after := AfterAttempt(m, p, true, CutAtBinding());
            p.role in after && after[p.role] == p.RoleEntry()
  {
  }

  // ---------------------------------------------------------------- creation converges

  /** Between `m` and its completion. */
  ghost predicate Partial(m0: Objects, m: Objects, p: Plan) {
    forall r {:trigger r in m} {:trigger r in m0} ::
      && (r in m0 ==> r in m && m[r] == m0[r])
      && (r in m && r !in m0 ==> r in Desired(p) && m[r] == Desired(p)[r])
  }

  lemma GetOrCreatePartial(m0: Objects, m: Objects, p: Plan, ref: Ref, faults: nat -> Fault, n: nat)
    requires Partial(m0, m, p) && Distinct(p) && ref in Refs(p)
    ensures var o := GetOrCreate(m, ref, Desired(p)[ref], faults, n);
            && Partial(m0, o.objects, p)
            && (o.ok ==> ref in o.objects)
            && m.Keys <= o.objects.Keys
  {
  }

  lemma CreateAllPartial(m0: Objects, m: Objects, p: Plan, level: bool, faults: nat -> Fault, n: nat)
    requires Partial(m0, m, p) && Distinct(p)
    ensures var o := CreateAll(m, p, level, faults, n);
            Partial(m0, o.objects, p) && (o.ok ==> Refs(p) <= o.objects.Keys)
  {
    hide Partial, GetOrCreate;
    var a := GetOrCreate(m, p.account, p.AccountEntry(), faults, n);
    GetOrCreatePartial(m0, m, p, p.account, faults, n);
    var r := GetOrCreate(a.objects, p.role, p.RoleEntry(), faults, a.calls);
    GetOrCreatePartial(m0, a.objects, p, p.role, faults, a.calls);
    GetOrCreatePartial(m0, r.objects, p, p.binding, faults, r.calls);
  }

  /** Attempts to create only, each cut short anywhere. */
  function AfterCreates(m: Objects, p: Plan, level: bool, attempts: seq<nat -> Fault>): Objects {
    if attempts == [] then m
    else
      var n := |attempts| - 1;
      CreateAll(AfterCreates(m, p, level, attempts[..n]), p, level, attempts[n], 0).objects
  }

  lemma {:induction false} CreatesArePartial(m0: Objects, p: Plan, level: bool, attempts: seq<nat -> Fault>)
    requires Distinct(p)
    ensures Partial(m0, AfterCreates(m0, p, level, attempts), p)
    decreases |attempts|
  {
    if attempts != [] {
      var n := |attempts| - 1;
      CreatesArePartial(m0, p, level, attempts[..n]);
      CreateAllPartial(m0, AfterCreates(m0, p, level, attempts[..n]), p, level, attempts[n], 0);
    }
  }

  /** Retries converge: after any number of failed attempts, an attempt that returns without an
      error, whatever its own faults, has reached the store a first undisturbed attempt reaches. */
  lemma CreateConverges(m0: Objects, p: Plan, level: bool, attempts: seq<nat -> Fault>, last: nat -> Fault)
    requires Distinct(p)
    requires CreateAll(AfterCreates(m0, p, level, attempts), p, level, last, 0).ok
    ensures CreateAll(AfterCreates(m0, p, level, attempts), p, level, last, 0).objects == Completed(m0, p)
  {
    CreatesArePartial(m0, p, level, attempts);
    var m := AfterCreates(m0, p, level, attempts);
    CreateAllPartial(m0, m, p, level, last, 0);
    hide CreateAll, AfterCreates;
  }

  /** Repeating a completed creation changes nothing, whatever fails. */
  lemma CreateIsIdempotent(m0: Objects, p: Plan, level: bool, faults: nat -> Fault, n: nat)
    requires Distinct(p)
    ensures CreateAll(Completed(m0, p), p, level, faults, n).objects == Completed(m0, p)
  {
  }

  // ---------------------------------------------------------------- one account per remedy

  lemma PlansAreDistinct(spec: Spec, wt: WorkflowType, resource: ResourceObject, defaults: seq<PolicyRule>)
    ensures Distinct(PlanFor(spec, wt, resource, defaults))
  {
  }

  // ---------------------------------------------------------------- for a spec

  /** What a spec asks for, for either workflow type and at either level, after the rename. */
  function SpecPlan(spec: Spec, wt: WorkflowType, defaults: seq<PolicyRule>): Plan
    requires Resource(Renamed(spec), wt).Some?
  {
    PlanFor(Renamed(spec), wt, Resource(Renamed(spec), wt).value, defaults)
  }

  /** A spec that createRBACForWorkflow does not refuse for this workflow type. */
  predicate Servable(spec: Spec, wt: WorkflowType) {
    spec.workflow.resource.Some? && !Refused(spec) && (wt.RemedyWorkflow? ==> HasRemedy(spec))
  }

  lemma ServableHasPlan(spec: Spec, wt: WorkflowType, defaults: seq<PolicyRule>)
    requires Servable(spec, wt)
    ensures Resource(Renamed(spec), wt).Some? && LevelSet(spec) && LevelSet(Renamed(spec))
    ensures Distinct(SpecPlan(spec, wt, defaults))
  {
    PlansAreDistinct(Renamed(spec), wt, Resource(Renamed(spec), wt).value, defaults);
    hide PlanFor;
  }

  /** The remedy cycle of any spec heals any history of its aborted cycles, at either level. */
  lemma RemedyCycleHeals(m0: Objects, spec: Spec, defaults: seq<PolicyRule>, attempts: seq<Attempt>,
                         creating: nat -> Fault, deleting: nat -> Fault)
    requires Servable(spec, RemedyWorkflow) && AllHonest(creating) && AllHonest(deleting)
    ensures Resource(Renamed(spec), RemedyWorkflow).Some?
    ensures var p := SpecPlan(spec, RemedyWorkflow, defaults);
            var m := AfterAttempts(m0, p, LevelSet(spec), attempts);
            var created := CreateAll(m, p, LevelSet(spec), creating, 0);
            var deleted := DeleteAll(created.objects, p, LevelSet(spec), deleting, 0);
            created.ok && deleted.ok && deleted.objects == Healed(m0, p)
  {
    ServableHasPlan(spec, RemedyWorkflow, defaults);
    hide PlanFor, CreateAll, DeleteAll, AfterAttempts, Healed;
    CycleHeals(m0, SpecPlan(spec, RemedyWorkflow, defaults), attempts, creating, deleting);
  }

  /** Creation for any spec converges, for both workflow types and at both levels: an
      undisturbed attempt succeeds, and any attempt that succeeds has completed the plan. */
  lemma CreationConverges(m0: Objects, spec: Spec, wt: WorkflowType, defaults: seq<PolicyRule>,
                          attempts: seq<nat -> Fault>, last: nat -> Fault)
    requires Servable(spec, wt)
    ensures Resource(Renamed(spec), wt).Some?
    ensures var p := SpecPlan(spec, wt, defaults);
            var tried := CreateAll(AfterCreates(m0, p, LevelSet(spec), attempts), p, LevelSet(spec), last, 0);
            && (AllHonest(last) ==> tried.ok)
            && (tried.ok ==> tried.objects == Completed(m0, p))
  {
    ServableHasPlan(spec, wt, defaults);
    var p := SpecPlan(spec, wt, defaults);
    hide PlanFor, CreateAll, AfterCreates, Completed, Distinct;
    var m := AfterCreates(m0, p, LevelSet(spec), attempts);
    if AllHonest(last) { LevelDecides(m, p, LevelSet(spec), last, 0); }
    if CreateAll(m, p, LevelSet(spec), last, 0).ok { CreateConverges(m0, p, LevelSet(spec), attempts, last); }
  }

  lemma AppendInjective(a: string, b: string, suffix: string)
    requires a + suffix == b + suffix
    ensures a == b
  {
    assert a == (a + suffix)[..|a|];
    assert b == (b + suffix)[..|b|];
  }

  /** Through a whole remedy there is one account: the one created, named in the binding, run by
      the submitted workflow and considered for deletion. It is not the health check's, even when
      both were configured with the same name, and none of the remedy's objects is one of the
      health check's. Renaming again changes nothing. */
  lemma OneRemedyAccount(spec: Spec, defaults: seq<PolicyRule>, decoded: Templates.Decoded)
    requires spec.workflow.resource.Some? && HasRemedy(spec) && !Refused(spec)
    ensures var renamed := Renamed(spec);
            && renamed.remedyWorkflow.resource.Some? && renamed.workflow == spec.workflow
            && Renamed(renamed) == renamed
            && var remedy := renamed.remedyWorkflow.resource.value;
               var own := spec.workflow.resource.value;
               var plan := PlanFor(renamed, RemedyWorkflow, remedy, defaults);
               && remedy.serviceAccount != "" && remedy.serviceAccount != own.serviceAccount
               && plan.account == Ref(ServiceAccount, remedy.ns, remedy.serviceAccount)
               && plan.BindingEntry().body.subjectName == plan.account.name
               && (forall parsed :: parsed == Templates.ParseRemedyWorkflow(renamed, decoded) && parsed.ParsedTo? ==>
                     && Templates.Lookup(parsed.content, "serviceAccountName") == Templates.Text(plan.account.name)
                     && parsed.spec.remedyWorkflow.resource == renamed.remedyWorkflow.resource
                     && PlanFor(parsed.spec, RemedyWorkflow, remedy, defaults) == plan)
               && Refs(plan) !! Refs(PlanFor(renamed, HealthCheckWorkflow, own, defaults))
  {
    var own := spec.workflow.resource.value.serviceAccount;
    assert own + "-remedy" != own by { assert |own + "-remedy"| == |own| + 7; }
    var remedy := Renamed(spec).remedyWorkflow.resource.value.serviceAccount;
    if remedy + "-cluster-role" == own + "-cluster-role" { AppendInjective(remedy, own, "-cluster-role"); }
    if remedy + "-cluster-role-binding" == own + "-cluster-role-binding" {
      AppendInjective(remedy, own, "-cluster-role-binding");
    }
    if remedy + "-ns-role" == own + "-ns-role" { AppendInjective(remedy, own, "-ns-role"); }
    if remedy + "-ns-role-binding" == own + "-ns-role-binding" { AppendInjective(remedy, own, "-ns-role-binding"); }
  }
}
