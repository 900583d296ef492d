/** Access-control objects: get-or-create before a workflow runs, delete-if-managed after a
    remedy, over a store any of whose calls may fail with or without taking effect. */
module Rbac {
  import opened HealthChecks
  import opened RbacNames

  datatype Kind = ServiceAccount | ClusterRole | ClusterRoleBinding | Role | RoleBinding

  /** Cluster-wide kinds have the empty namespace. */
  datatype Ref = Ref(kind: Kind, ns: string, name: string)

  datatype Body =
    | NoBody
    | Rules(rules: seq<PolicyRule>)
    | Binding(roleKind: Kind, roleName: string, subjectName: string, subjectNs: string)

  datatype Entry = Entry(labels: map<string, string>, body: Body)

  type Objects = map<Ref, Entry>

  const MANAGED_BY := "workflows.argoproj.io/managed-by"
  const ACTIVE_MONITOR := "active-monitor"

  predicate Managed(e: Entry) {
    MANAGED_BY in e.labels && e.labels[MANAGED_BY] == ACTIVE_MONITOR
  }

  function Own(body: Body): (e: Entry)
    ensures Managed(e)
  {
    Entry(map[MANAGED_BY := ACTIVE_MONITOR], body)
  }

  /** How an API call goes: as it should, refused, or done with the reply lost. */
  datatype Fault = Honest | Refuse | LoseReply

  // ---------------------------------------------------------------- one object

  /** Objects, number of calls made so far, and whether the helper returned without an error. */
  datatype Outcome = Outcome(objects: Objects, calls: nat, ok: bool)

  function Create(m: Objects, ref: Ref, e: Entry, f: Fault): (Objects, bool) {
    if f.Refuse? || ref in m then (m, false)
    else (m[ref := e], f.Honest?)
  }

  function Delete(m: Objects, ref: Ref, f: Fault): (Objects, bool) {
    if f.Refuse? || ref !in m then (m, false)
    else (m - {ref}, f.Honest?)
  }

  /** Any error of the Get, transient or not, leads to the Create. */
  function GetOrCreate(m: Objects, ref: Ref, e: Entry, faults: nat -> Fault, n: nat): Outcome {
    if faults(n).Honest? && ref in m then Outcome(m, n + 1, true)
    else
      var (m', ok) := Create(m, ref, e, faults(n + 1));
      Outcome(m', n + 2, ok)
  }

  function DeleteIfManaged(m: Objects, ref: Ref, faults: nat -> Fault, n: nat): Outcome {
    if !(faults(n).Honest? && ref in m) then Outcome(m, n + 1, false)
    else if !Managed(m[ref]) then Outcome(m, n + 1, true)
    else
      var (m', ok) := Delete(m, ref, faults(n + 1));
      Outcome(m', n + 2, ok)
  }

  // ---------------------------------------------------------------- what a workflow needs

  datatype WorkflowType = HealthCheckWorkflow | RemedyWorkflow

  function Resource(spec: Spec, wt: WorkflowType): Option<ResourceObject> {
    if wt.RemedyWorkflow? then spec.remedyWorkflow.resource else spec.workflow.resource
  }

  /** The three objects of a workflow, in the order in which they are created and deleted. */
  datatype Plan = Plan(account: Ref, role: Ref, binding: Ref, rules: seq<PolicyRule>)
  {
    function AccountEntry(): (e: Entry) ensures Managed(e) { Own(NoBody) }
    function RoleEntry(): (e: Entry) ensures Managed(e) { Own(Rules(rules)) }

    /** Only the cluster-wide binding names the namespace of its subject. */
    function BindingEntry(): (e: Entry) ensures Managed(e) {
      Own(Binding(role.kind, role.name, account.name, if role.kind.ClusterRole? then account.ns else ""))
    }
  }

  function ResolveRules(custom: Option<seq<PolicyRule>>, defaults: seq<PolicyRule>): seq<PolicyRule> {
    if custom.Some? && |custom.value| > 0 then custom.value else defaults
  }

  /** `defaults` are the built-in rules of the workflow type. */
  function PlanFor(spec: Spec, wt: WorkflowType, resource: ResourceObject, defaults: seq<PolicyRule>): Plan {
    var sa := resource.serviceAccount;
    var rules := ResolveRules(if wt.RemedyWorkflow? then spec.remedyWorkflow.rbacRules
                              else spec.workflow.rbacRules, defaults);
    var account := Ref(ServiceAccount, resource.ns, sa);
    if spec.level == CLUSTER_LEVEL then
      Plan(account, Ref(ClusterRole, "", ClusterRoleName(sa)), Ref(ClusterRoleBinding, "", ClusterRoleBindingName(sa)),
           rules)
    else
      Plan(account, Ref(Role, resource.ns, NsRoleName(sa)), Ref(RoleBinding, resource.ns, NsRoleBindingName(sa)), rules)
  }

  predicate LevelSet(spec: Spec) {
    spec.level == CLUSTER_LEVEL || spec.level == NAMESPACE_LEVEL
  }

  /** createRBACForWorkflow, once the remedy's configuration has been accepted and its account
      renamed. An unset level is found out only after the account has been created. */
  function CreateAll(m: Objects, p: Plan, level: bool, faults: nat -> Fault, n: nat): Outcome {
    var a := GetOrCreate(m, p.account, p.AccountEntry(), faults, n);
    if !a.ok || !level then a.(ok := false)
    else
      var r := GetOrCreate(a.objects, p.role, p.RoleEntry(), faults, a.calls);
      if !r.ok then r
      else GetOrCreate(r.objects, p.binding, p.BindingEntry(), faults, r.calls)
  }

  function DeleteAll(m: Objects, p: Plan, level: bool, faults: nat -> Fault, n: nat): Outcome {
    var a := DeleteIfManaged(m, p.account, faults, n);
    if !a.ok || !level then a.(ok := false)
    else
      var r := DeleteIfManaged(a.objects, p.role, faults, a.calls);
      if !r.ok then r
      else DeleteIfManaged(r.objects, p.binding, faults, r.calls)
  }

  // ---------------------------------------------------------------- what a success amounts to

  /** The account a workflow runs under: its own, or for a remedy configured with the health check's
      account that account with a suffix. */
  function AccountOf(spec: Spec, wt: WorkflowType): string
    requires Resource(spec, wt).Some? && spec.workflow.resource.Some?
  {
    var own := spec.workflow.resource.value.serviceAccount;
    if wt.HealthCheckWorkflow? then own
    else if spec.remedyWorkflow.resource.value.serviceAccount == own then own + "-remedy"
    else spec.remedyWorkflow.resource.value.serviceAccount
  }

  /** The access a workflow has been given: its account, a role for that account with the workflow's
      own rules, or the defaults where it has none, and a binding of that role to that account, all at
      the spec's level. What was there before stays as it was. */
  ghost predicate HasAccess(before: Objects, after: Objects, spec: Spec, wt: WorkflowType, defaults: seq<PolicyRule>)
    requires Resource(spec, wt).Some? && spec.workflow.resource.Some?
  {
    var ns := Resource(spec, wt).value.ns;
    var name := AccountOf(spec, wt);
    var own := if wt.HealthCheckWorkflow? then spec.workflow.rbacRules else spec.remedyWorkflow.rbacRules;
    var rules := if own.Some? && own.value != [] then own.value else defaults;
    var account := Ref(ServiceAccount, ns, name);
    var role := if spec.level == "cluster" then Ref(ClusterRole, "", name + "-cluster-role")
                else Ref(Role, ns, name + "-ns-role");
    var binding := if spec.level == "cluster" then Ref(ClusterRoleBinding, "", name + "-cluster-role-binding")
                   else Ref(RoleBinding, ns, name + "-ns-role-binding");
    && account in after && role in after && binding in after
    && (account !in before ==> Managed(after[account]) && after[account].body == NoBody)
    && (role !in before ==> Managed(after[role]) && after[role].body == Rules(rules))
    && (binding !in before ==>
          && Managed(after[binding]) && after[binding].body.Binding?
          && after[binding].body.roleKind == role.kind && after[binding].body.roleName == role.name
          && after[binding].body.subjectName == name
          && after[binding].body.subjectNs == if spec.level == "cluster" then ns else "")
    && (forall r :: r in before ==> r in after && after[r] == before[r])
    && (forall r :: r in after && r !in before ==> r == account || r == role || r == binding)
  }

  lemma CreateAllGivesAll(m: Objects, p: Plan, level: bool, faults: nat -> Fault, n: nat)
    requires CreateAll(m, p, level, faults, n).ok
    requires p.account != p.role && p.role != p.binding && p.account != p.binding
    ensures CreateAll(m, p, level, faults, n).objects
            == map[p.account := p.AccountEntry(), p.role := p.RoleEntry(), p.binding := p.BindingEntry()] + m
  {
    var a := GetOrCreate(m, p.account, p.AccountEntry(), faults, n);
    CreatesOrFinds(m, p.account, p.AccountEntry(), faults, n);
    var r := GetOrCreate(a.objects, p.role, p.RoleEntry(), faults, a.calls);
    CreatesOrFinds(a.objects, p.role, p.RoleEntry(), faults, a.calls);
    CreatesOrFinds(r.objects, p.binding, p.BindingEntry(), faults, r.calls);
    hide GetOrCreate;
  }

  lemma CreatesOrFinds(m: Objects, ref: Ref, e: Entry, faults: nat -> Fault, n: nat)
    requires GetOrCreate(m, ref, e, faults, n).ok
    ensures GetOrCreate(m, ref, e, faults, n).objects == if ref in m then m else m[ref := e]
  {
  }

  /** What the plan of a spec names. */
  lemma PlanIsNamed(spec: Spec, wt: WorkflowType, defaults: seq<PolicyRule>)
    requires spec.workflow.resource.Some? && !RemedyRefused(spec) && (wt.RemedyWorkflow? ==> HasRemedy(spec))
    requires Resource(Renamed(spec), wt).Some? && LevelSet(spec)
    ensures Resource(spec, wt).Some?
    ensures var p := PlanFor(Renamed(spec), wt, Resource(Renamed(spec), wt).value, defaults);
            var ns := Resource(spec, wt).value.ns;
            var name := AccountOf(spec, wt);
            var own := if wt.HealthCheckWorkflow? then spec.workflow.rbacRules else spec.remedyWorkflow.rbacRules;
            && p.account == Ref(ServiceAccount, ns, name)
            && p.role == (if spec.level == "cluster" then Ref(ClusterRole, "", name + "-cluster-role")
                          else Ref(Role, ns, name + "-ns-role"))
            && p.binding == (if spec.level == "cluster" then Ref(ClusterRoleBinding, "", name + "-cluster-role-binding")
                             else Ref(RoleBinding, ns, name + "-ns-role-binding"))
            && p.rules == if own.Some? && own.value != [] then own.value else defaults
  {
  }

  lemma CreationGivesAccess(m: Objects, spec: Spec, wt: WorkflowType, defaults: seq<PolicyRule>,
                            faults: nat -> Fault, n: nat)
    requires spec.workflow.resource.Some? && !RemedyRefused(spec) && (wt.RemedyWorkflow? ==> HasRemedy(spec))
    requires Resource(Renamed(spec), wt).Some?
    requires var p := PlanFor(Renamed(spec), wt, Resource(Renamed(spec), wt).value, defaults);
             CreateAll(m, p, LevelSet(spec), faults, n).ok
    ensures Resource(spec, wt).Some?
    ensures var p := PlanFor(Renamed(spec), wt, Resource(Renamed(spec), wt).value, defaults);
            HasAccess(m, CreateAll(m, p, LevelSet(spec), faults, n).objects, spec, wt, defaults)
  {
    hide PlanFor, CreateAll, Renamed, AccountOf, RemedyRefused;
    var p := PlanFor(Renamed(spec), wt, Resource(Renamed(spec), wt).value, defaults);
    CreateAllNeedsLevel(m, p, LevelSet(spec), faults, n);
    PlanIsNamed(spec, wt, defaults);
    CreateAllGivesAll(m, p, LevelSet(spec), faults, n);
  }

  lemma CreateAllNeedsLevel(m: Objects, p: Plan, level: bool, faults: nat -> Fault, n: nat)
    ensures CreateAll(m, p, level, faults, n).ok ==> level
  {
  }

  /** The access of a remedy taken away: of its account, role and binding what carried the managed
      label is gone, and everything else is as it was. */
  ghost predicate LostAccess(before: Objects, after: Objects, spec: Spec)
    requires spec.remedyWorkflow.resource.Some?
  {
    var ns := spec.remedyWorkflow.resource.value.ns;
    var name := spec.remedyWorkflow.resource.value.serviceAccount;
    var own := if spec.level == "cluster" then
                 {Ref(ServiceAccount, ns, name), Ref(ClusterRole, "", name + "-cluster-role"),
                  Ref(ClusterRoleBinding, "", name + "-cluster-role-binding")}
               else
                 {Ref(ServiceAccount, ns, name), Ref(Role, ns, name + "-ns-role"),
                  Ref(RoleBinding, ns, name + "-ns-role-binding")};
    && (forall r :: r in own && r in before && Managed(before[r]) ==> r !in after)
    && (forall r :: r in before && !(r in own && Managed(before[r])) ==> r in after && after[r] == before[r])
    && (forall r :: r in after ==> r in before)
  }

  lemma DeletesIfManaged(m: Objects, ref: Ref, faults: nat -> Fault, n: nat)
    requires DeleteIfManaged(m, ref, faults, n).ok
    ensures DeleteIfManaged(m, ref, faults, n).objects == if ref in m && Managed(m[ref]) then m - {ref} else m
  {
  }

  lemma DeleteAllNeedsLevel(m: Objects, p: Plan, level: bool, faults: nat -> Fault, n: nat)
    ensures DeleteAll(m, p, level, faults, n).ok ==> level
  {
  }

  lemma DeleteAllTakesAll(m: Objects, p: Plan, level: bool, faults: nat -> Fault, n: nat)
    requires DeleteAll(m, p, level, faults, n).ok
    ensures var after := DeleteAll(m, p, level, faults, n).objects;
            var own := {p.account, p.role, p.binding};
            && (forall r :: r in own && r in m && Managed(m[r]) ==> r !in after)
            && (forall r :: r in m && !(r in own && Managed(m[r])) ==> r in after && after[r] == m[r])
            && (forall r :: r in after ==> r in m)
  {
    var a := DeleteIfManaged(m, p.account, faults, n);
    DeletesIfManaged(m, p.account, faults, n);
    var r := DeleteIfManaged(a.objects, p.role, faults, a.calls);
    DeletesIfManaged(a.objects, p.role, faults, a.calls);
    DeletesIfManaged(r.objects, p.binding, faults, r.calls);
    hide DeleteIfManaged;
  }

  lemma DeletionTakesAccess(m: Objects, spec: Spec, defaults: seq<PolicyRule>, faults: nat -> Fault, n: nat)
    requires spec.remedyWorkflow.resource.Some?
    requires var p := PlanFor(spec, RemedyWorkflow, spec.remedyWorkflow.resource.value, defaults);
             DeleteAll(m, p, LevelSet(spec), faults, n).ok
    ensures var p := PlanFor(spec, RemedyWorkflow, spec.remedyWorkflow.resource.value, defaults);
            LostAccess(m, DeleteAll(m, p, LevelSet(spec), faults, n).objects, spec)
  {
    var p := PlanFor(spec, RemedyWorkflow, spec.remedyWorkflow.resource.value, defaults);
    DeleteAllNeedsLevel(m, p, LevelSet(spec), faults, n);
    DeleteAllTakesAll(m, p, LevelSet(spec), faults, n);
    hide DeleteAll;
  }

  // ---------------------------------------------------------------- the cluster, updated in place

  class Cluster {
    var objects: Objects
    const faults: nat -> Fault
    var calls: nat

    constructor (objects: Objects, faults: nat -> Fault)
      ensures this.objects == objects && this.faults == faults && calls == 0
    {
      this.objects, this.faults, calls := objects, faults, 0;
    }

    method Get(ref: Ref) returns (found: Option<Entry>)
      modifies this`calls
      ensures found == if faults(old(calls)).Honest? && ref in objects then Some(objects[ref]) else None
      ensures calls == old(calls) + 1
    {
      var f := faults(calls);
      calls := calls + 1;
      return if f.Honest? && ref in objects then Some(objects[ref]) else None;
    }

    method CreateObject(ref: Ref, e: Entry) returns (ok: bool)
      modifies this
      ensures (objects, ok) == Create(old(objects), ref, e, faults(old(calls)))
      ensures calls == old(calls) + 1
    {
      var f := faults(calls);
      calls := calls + 1;
      if f.Refuse? || ref in objects {
        return false;
      }
      objects := objects[ref := e];
      return f.Honest?;
    }

    method DeleteObject(ref: Ref) returns (ok: bool)
      modifies this
      ensures (objects, ok) == Delete(old(objects), ref, faults(old(calls)))
      ensures calls == old(calls) + 1
    {
      var f := faults(calls);
      calls := calls + 1;
      if f.Refuse? || ref !in objects {
        return false;
      }
      objects := objects - {ref};
      return f.Honest?;
    }

    /** createServiceAccount, createClusterRole, createNameSpaceRole and the other create helpers. */
    method GetOrCreateObject(ref: Ref, e: Entry) returns (ok: bool)
      modifies this
      ensures Outcome(objects, calls, ok) == GetOrCreate(old(objects), ref, e, faults, old(calls))
    {
      var found := Get(ref);
      if found.Some? {
        return true;
      }
      ok := CreateObject(ref, e);
    }

    /** DeleteServiceAccount, DeleteClusterRole, DeleteNameSpaceRole and the other delete helpers. */
    method DeleteManagedObject(ref: Ref) returns (ok: bool)
      modifies this
      ensures Outcome(objects, calls, ok) == DeleteIfManaged(old(objects), ref, faults, old(calls))
    {
      var found := Get(ref);
      if found.None? {
        return false;
      }
      if Managed(found.value) {
        ok := DeleteObject(ref);
        return;
      }
      return true;
    }

    /** createRBACForWorkflow (302-415) on a spec that it edits. */
    method CreateRbacForWorkflow(spec: Spec, wt: WorkflowType, defaults: seq<PolicyRule>)
        returns (ok: bool, renamed: Spec)
      requires spec.workflow.resource.Some?
      requires wt.RemedyWorkflow? ==> HasRemedy(spec)
      modifies this
      ensures renamed == Renamed(spec)
      ensures ok ==> !Refused(spec) && (spec.level == "cluster" || spec.level == "namespace")
      ensures if RemedyRefused(spec) then !ok && objects == old(objects) && calls == old(calls)
              else var p := PlanFor(renamed, wt, Resource(renamed, wt).value, defaults);
                   Outcome(objects, calls, ok) == CreateAll(old(objects), p, LevelSet(spec), faults, old(calls))
      ensures ok ==> HasAccess(old(objects), objects, spec, wt, defaults)
    {
      hide HasAccess, PlanFor;
      renamed := Renamed(spec);
      if RemedyRefused(spec) {
        return false, renamed;
      }
      var p := PlanFor(renamed, wt, Resource(renamed, wt).value, defaults);
      ok := GetOrCreateObject(p.account, p.AccountEntry());
      if !ok || !LevelSet(spec) {
        return false, renamed;
      }
      ok := GetOrCreateObject(p.role, p.RoleEntry());
      if ok {
        ok := GetOrCreateObject(p.binding, p.BindingEntry());
      }
      if ok {
        CreationGivesAccess(old(objects), spec, wt, defaults, faults, old(calls));
      }
    }

    /** deleteRBACForWorkflow (417-474): it deletes nothing but the remedy's objects. */
    method DeleteRbacForWorkflow(spec: Spec, defaults: seq<PolicyRule>) returns (ok: bool)
      modifies this
      ensures if spec.remedyWorkflow.resource.None? then ok && objects == old(objects) && calls == old(calls)
              else var p := PlanFor(spec, RemedyWorkflow, spec.remedyWorkflow.resource.value, defaults);
                   Outcome(objects, calls, ok) == DeleteAll(old(objects), p, LevelSet(spec), faults, old(calls))
      ensures ok && spec.remedyWorkflow.resource.Some? ==> LostAccess(old(objects), objects, spec)
    {
      hide LostAccess, PlanFor;
      if spec.remedyWorkflow.resource.None? {
        return true;
      }
      var p := PlanFor(spec, RemedyWorkflow, spec.remedyWorkflow.resource.value, defaults);
      ok := DeleteManagedObject(p.account);
      if !ok || !LevelSet(spec) {
        return false;
      }
      ok := DeleteManagedObject(p.role);
      if ok {
        ok := DeleteManagedObject(p.binding);
      }
      if ok {
        DeletionTakesAccess(old(objects), spec, defaults, faults, old(calls));
      }
    }
  }

  /** The two errors about the remedy's own configuration. */
  predicate RemedyRefused(spec: Spec) {
    HasRemedy(spec)
    && (spec.remedyWorkflow.resource.None? || spec.remedyWorkflow.resource.value.serviceAccount == "")
  }
}
