/** Names of the access-control objects, and the in-memory rename of the remedy's account
    (createRBACForWorkflow 302-330, deleteRBACForWorkflow 417-430). */
module RbacNames {
  import opened HealthChecks

  const CLUSTER_LEVEL := "cluster"
  const NAMESPACE_LEVEL := "namespace"

  function ClusterRoleName(account: string): string { account + "-cluster-role" }
  function ClusterRoleBindingName(account: string): string { account + "-cluster-role-binding" }
  function NsRoleName(account: string): string { account + "-ns-role" }
  function NsRoleBindingName(account: string): string { account + "-ns-role-binding" }

  predicate HasRemedy(spec: Spec) {
    !spec.remedyWorkflow.IsEmpty()
  }

  /** The error returns of createRBACForWorkflow that no API call decides. */
  predicate Refused(spec: Spec) {
    || (HasRemedy(spec) && spec.remedyWorkflow.resource.None?)
    || (HasRemedy(spec) && spec.remedyWorkflow.resource.value.serviceAccount == "")
    || spec.level !in {CLUSTER_LEVEL, NAMESPACE_LEVEL}
  }

  /** A remedy configured with the health check's own account gets one of its own. */
  function Renamed(spec: Spec): Spec {
    if HasRemedy(spec) && spec.remedyWorkflow.resource.Some? && spec.workflow.resource.Some? then
      var own := spec.workflow.resource.value.serviceAccount;
      var remedy := spec.remedyWorkflow.resource.value;
      if remedy.serviceAccount != "" && remedy.serviceAccount == own then
        spec.(remedyWorkflow := spec.remedyWorkflow.(resource := Some(remedy.(serviceAccount := own + "-remedy"))))
      else
        spec
    else
      spec
  }

  /** A spec is refused, whatever the API server says, exactly for a remedy without a resource or an
      account, or for a level other than the two. */
  lemma RefusedExactly(spec: Spec)
    ensures Refused(spec)
            <==> || (spec.level != "cluster" && spec.level != "namespace")
                 || (spec.remedyWorkflow != NO_WORKFLOW
                     && (spec.remedyWorkflow.resource.None?
                         || spec.remedyWorkflow.resource.value.serviceAccount == ""))
  {
  }

  /** The rename changes nothing but a remedy's account, and that only when it is the health check's
      own, into that account with a suffix. */
  lemma RenamedExactly(spec: Spec)
    requires spec.workflow.resource.Some? && spec.remedyWorkflow.resource.Some?
    ensures var own := spec.workflow.resource.value.serviceAccount;
            var remedy := spec.remedyWorkflow.resource.value;
            Renamed(spec)
            == if remedy.serviceAccount == own && own != ""
               then spec.(remedyWorkflow :=
                            spec.remedyWorkflow.(resource := Some(remedy.(serviceAccount := own + "-remedy"))))
               else spec
  {
  }
}
