/** The generated deep copies, on the heap: a copy has the value of its source and shares no
    mutable object with it (api/v1alpha1/zz_generated.deepcopy.go). A pointer field is a
    nullable reference; a struct held by value is an object its holder never replaces. */
module DeepCopies {
  import V = HealthChecks
  import RbacNames

  class Cell<T> {
    var value: T

    constructor (value: T)
      ensures this.value == value
    {
      this.value := value;
    }
  }

  function Deref<T>(p: Cell?<T>): V.Option<T>
    reads p
  {
    if p == null then V.None else V.Some(p.value)
  }

  /** new(T) and a copy of what the pointer points to, or nil. */
  method CopyCell<T>(p: Cell?<T>) returns (r: Cell?<T>)
    ensures r != null ==> fresh(r)
    ensures Deref(r) == Deref(p)
  {
    if p == null {
      return null;
    }
    r := new Cell(p.value);
  }

  class URLArtifact {
    var path: string
    var verifyCert: Cell?<bool>

    constructor ()
    {
      path, verifyCert := "", null;
    }

    function Value(): V.URLArtifact
      reads this, verifyCert
    {
      V.URLArtifact(path, Deref(verifyCert))
    }

    method DeepCopy() returns (out: URLArtifact)
      ensures fresh(out) && (out.verifyCert != null ==> fresh(out.verifyCert))
      ensures out.Value() == Value()
    {
      var copy := CopyCell(verifyCert);
      out := new URLArtifact();
      out.path, out.verifyCert := path, copy;
    }
  }

  class ArtifactLocation {
    var inline: Cell?<string>
    var file: Cell?<string>
    var url: URLArtifact?

    constructor ()
    {
      inline, file, url := null, null, null;
    }

    ghost function Deep(): set<object?>
      reads this, url
    {
      {inline, file, url} + if url == null then {} else {url.verifyCert}
    }

    function Value(): V.ArtifactLocation
      reads this, Deep()
    {
      V.ArtifactLocation(Deref(inline), Deref(file), if url == null then V.None else V.Some(url.Value()))
    }

    /** Writes into a struct the caller holds by value. */
    method DeepCopyInto(out: ArtifactLocation)
      requires out != this
      modifies out
      ensures out.Value() == Value()
      ensures forall o :: o in out.Deep() && o != null ==> fresh(o)
    {
      var i := CopyCell(inline);
      var f := CopyCell(file);
      var u: URLArtifact? := null;
      if url != null {
        u := url.DeepCopy();
      }
      out.inline, out.file, out.url := i, f, u;
    }
  }

  class ResourceObject {
    var ns: string
    var serviceAccount: string
    const source: ArtifactLocation

    constructor ()
      ensures fresh(source)
    {
      ns, serviceAccount := "", "";
      source := new ArtifactLocation();
    }

    function Value(): V.ResourceObject
      reads this, source, source.Deep()
    {
      V.ResourceObject(ns, serviceAccount, source.Value())
    }

    method DeepCopy() returns (out: ResourceObject)
      ensures fresh(out) && fresh(out.source)
      ensures forall o :: o in out.source.Deep() && o != null ==> fresh(o)
      ensures out.Value() == Value()
    {
      out := new ResourceObject();
      out.ns, out.serviceAccount := ns, serviceAccount;
      source.DeepCopyInto(out.source);
    }
  }

  /** Workflow and RemedyWorkflow. A nil rule slice is null. */
  class Workflow {
    var generateName: string
    var resource: ResourceObject?
    var timeout: int
    var rbacRules: array?<V.PolicyRule>

    constructor ()
    {
      generateName, resource, timeout, rbacRules := "", null, 0, null;
    }

    /** Everything that can be reached through the pointers of this struct. */
    ghost function Deep(): set<object?>
      reads this, resource, if resource == null then {} else {resource.source, resource.source.url}
    {
      {rbacRules, resource} + if resource == null then {} else {resource.source} + resource.source.Deep()
    }

    function Value(): V.Workflow
      reads this, Deep()
    {
      V.Workflow(
        generateName,
        if resource == null then V.None else V.Some(resource.Value()),
        timeout,
        if rbacRules == null then V.None else V.Some(rbacRules[..]))
    }

    /** Writes into a struct the caller holds by value. */
    method DeepCopyInto(out: Workflow)
      requires out != this
      modifies out
      ensures out.Value() == Value()
      ensures forall o :: o in out.Deep() && o != null ==> fresh(o)
    {
      var r, rules := CopyPointers();
      Fill(out, r, rules);
    }

    method CopyPointers() returns (r: ResourceObject?, rules: array?<V.PolicyRule>)
      ensures r == null <==> resource == null
      ensures rules == null <==> rbacRules == null
      ensures r != null ==>
                && fresh(r) && fresh(r.source) && r.Value() == resource.Value()
                && forall o :: o in r.source.Deep() && o != null ==> fresh(o)
      ensures rules != null ==> fresh(rules) && rules[..] == rbacRules[..]
    {
      r, rules := null, null;
      if rbacRules != null {
        rules := CopyRules(rbacRules);
      }
      if resource != null {
        r := resource.DeepCopy();
      }
    }

    method Fill(out: Workflow, r: ResourceObject?, rules: array?<V.PolicyRule>)
      requires out != this
      modifies out
      ensures out.generateName == generateName && out.resource == r && out.timeout == timeout && out.rbacRules == rules
    {
      out.generateName, out.resource, out.timeout, out.rbacRules := generateName, r, timeout, rules;
    }

    method DeepCopy() returns (out: Workflow)
      ensures fresh(out) && out.Value() == Value()
      ensures forall o :: o in out.Deep() && o != null ==> fresh(o)
    {
      out := new Workflow();
      DeepCopyInto(out);
    }
  }

  class Spec {
    var repeatAfterSec: int
    const workflow: Workflow
    var level: string
    var cron: string
    const remedyWorkflow: Workflow
    var backoffFactor: string
    var backoffMax: int
    var backoffMin: int
    var remedyRunsLimit: int
    var remedyResetInterval: int

    constructor ()
      ensures fresh(workflow) && fresh(remedyWorkflow) && workflow != remedyWorkflow
    {
      workflow := new Workflow();
      remedyWorkflow := new Workflow();
    }

    ghost function Deep(): set<object?>
      reads this, workflow, remedyWorkflow, workflow.Deep(), remedyWorkflow.Deep()
    {
      {workflow, remedyWorkflow} + workflow.Deep() + remedyWorkflow.Deep()
    }

    function Value(): V.Spec
      reads this, Deep()
    {
      V.Spec(repeatAfterSec, workflow.Value(), level, cron, remedyWorkflow.Value(), backoffFactor, backoffMax,
             backoffMin, remedyRunsLimit, remedyResetInterval)
    }

    /** Writes into a struct the caller holds by value. The two workflows of the copy share
        nothing either, even if those of the source do. */
    method DeepCopyInto(out: Spec)
      requires out != this && out.workflow != out.remedyWorkflow
      requires {out.workflow, out.remedyWorkflow} !! {workflow, remedyWorkflow}
      modifies out, out.workflow, out.remedyWorkflow
      ensures out.Value() == Value() == old(Value())
      ensures forall o :: o in out.workflow.Deep() + out.remedyWorkflow.Deep() && o != null ==> fresh(o)
      ensures forall o :: o in out.workflow.Deep() && o in out.remedyWorkflow.Deep() ==> o == null
    {
      hide Workflow.Value, Workflow.Deep;
      CopyFields(out);
      Unmoved(workflow);
      Unmoved(remedyWorkflow);
      CopyWorkflows(out);
    }

    method CopyWorkflows(out: Spec)
      requires out.workflow != out.remedyWorkflow
      requires {out.workflow, out.remedyWorkflow} !! {workflow, remedyWorkflow}
      modifies out.workflow, out.remedyWorkflow
      ensures out.workflow.Value() == workflow.Value() == old(workflow.Value())
      ensures out.remedyWorkflow.Value() == remedyWorkflow.Value() == old(remedyWorkflow.Value())
      ensures forall o :: o in out.workflow.Deep() + out.remedyWorkflow.Deep() && o != null ==> fresh(o)
      ensures forall o :: o in out.workflow.Deep() && o in out.remedyWorkflow.Deep() ==> o == null
    {
      hide Workflow.Value, Workflow.Deep;
      workflow.DeepCopyInto(out.workflow);
      Unmoved(workflow);
      Unmoved(remedyWorkflow);
      PointersAreAllocated(out.workflow);
      label Half:
      remedyWorkflow.DeepCopyInto(out.remedyWorkflow);
      Unmoved@Half(out.workflow);
      Unmoved@Half(workflow);
      Unmoved@Half(remedyWorkflow);
    }

    method CopyFields(out: Spec)
      requires out != this
      modifies out
      ensures out.repeatAfterSec == repeatAfterSec && out.level == level && out.cron == cron
      ensures out.backoffFactor == backoffFactor && out.backoffMax == backoffMax && out.backoffMin == backoffMin
      ensures out.remedyRunsLimit == remedyRunsLimit && out.remedyResetInterval == remedyResetInterval
    {
      out.repeatAfterSec, out.level, out.cron := repeatAfterSec, level, cron;
      out.backoffFactor, out.backoffMax, out.backoffMin := backoffFactor, backoffMax, backoffMin;
      out.remedyRunsLimit, out.remedyResetInterval := remedyRunsLimit, remedyResetInterval;
    }

    /** createRBACForWorkflow's rename, in place through the remedy's pointer. */
    method RenameRemedyAccount()
      requires workflow != remedyWorkflow
      requires forall o :: o in workflow.Deep() && o in remedyWorkflow.Deep() ==> o == null
      modifies remedyWorkflow.resource
      ensures Value() == RbacNames.Renamed(old(Value()))
    {
      hide RbacNames.Renamed;
      var own, remedy := workflow.resource, remedyWorkflow.resource;
      ghost var was := Value();
      if own != null && remedy != null && own.serviceAccount == remedy.serviceAccount != "" {
        remedy.serviceAccount := own.serviceAccount + "-remedy";
      }
      RenamedValue(was);
    }
  }

  lemma RenamedValue(spec: V.Spec)
    ensures RbacNames.Renamed(spec) ==
            if spec.workflow.resource.Some? && spec.remedyWorkflow.resource.Some?
               && spec.workflow.resource.value.serviceAccount == spec.remedyWorkflow.resource.value.serviceAccount != ""
            then spec.(remedyWorkflow := spec.remedyWorkflow.(resource := V.Some(
                        spec.remedyWorkflow.resource.value.(serviceAccount :=
                          spec.workflow.resource.value.serviceAccount + "-remedy"))))
            else spec
  {
  }

  class Status {
    var errorMessage: string
    var remedyErrorMessage: string
    var startedAt: Cell?<V.Time>
    var finishedAt: Cell?<V.Time>
    var lastFailedAt: Cell?<V.Time>
    var remedyStartedAt: Cell?<V.Time>
    var remedyFinishedAt: Cell?<V.Time>
    var remedyLastFailedAt: Cell?<V.Time>
    var lastFailedWorkflow: string
    var lastSuccessfulWorkflow: string
    var successCount: int
    var failedCount: int
    var remedySuccessCount: int
    var remedyFailedCount: int
    var remedyTotalRuns: int
    var totalHealthCheckRuns: int
    var status: V.Phase
    var remedyStatus: V.Phase

    constructor ()
    {
    }

    ghost function Deep(): set<object?>
      reads this
    {
      {startedAt as object?, finishedAt, lastFailedAt, remedyStartedAt, remedyFinishedAt, remedyLastFailedAt}
    }

    function Value(): V.Status
      reads this, Deep()
    {
      V.Status(errorMessage, remedyErrorMessage, Deref(startedAt), Deref(finishedAt), Deref(lastFailedAt),
               Deref(remedyStartedAt), Deref(remedyFinishedAt), Deref(remedyLastFailedAt),
               lastFailedWorkflow, lastSuccessfulWorkflow, successCount, failedCount, remedySuccessCount,
               remedyFailedCount, remedyTotalRuns, totalHealthCheckRuns, status, remedyStatus)
    }

    /** Writes into a struct the caller holds by value. */
    method DeepCopyInto(out: Status)
      requires out != this
      modifies out
      ensures out.Value() == Value() == old(Value())
      ensures forall o :: o in out.Deep() && o != null ==> fresh(o)
    {
      hide Deref;
      CopyFields(out);
      CopyRunTimes(out);
      CopyRemedyTimes(out);
    }

    method CopyRunTimes(out: Status)
      requires out != this
      modifies out`startedAt, out`finishedAt, out`lastFailedAt
      ensures Deref(out.startedAt) == Deref(startedAt) && (out.startedAt != null ==> fresh(out.startedAt))
      ensures Deref(out.finishedAt) == Deref(finishedAt) && (out.finishedAt != null ==> fresh(out.finishedAt))
      ensures Deref(out.lastFailedAt) == Deref(lastFailedAt) && (out.lastFailedAt != null ==> fresh(out.lastFailedAt))
    {
      var started := CopyCell(startedAt);
      var finished := CopyCell(finishedAt);
      var failed := CopyCell(lastFailedAt);
      out.startedAt, out.finishedAt, out.lastFailedAt := started, finished, failed;
    }

    method CopyRemedyTimes(out: Status)
      requires out != this
      modifies out`remedyStartedAt, out`remedyFinishedAt, out`remedyLastFailedAt
      ensures Deref(out.remedyStartedAt) == Deref(remedyStartedAt)
              && (out.remedyStartedAt != null ==> fresh(out.remedyStartedAt))
      ensures Deref(out.remedyFinishedAt) == Deref(remedyFinishedAt)
              && (out.remedyFinishedAt != null ==> fresh(out.remedyFinishedAt))
      ensures Deref(out.remedyLastFailedAt) == Deref(remedyLastFailedAt)
              && (out.remedyLastFailedAt != null ==> fresh(out.remedyLastFailedAt))
    {
      var started := CopyCell(remedyStartedAt);
      var finished := CopyCell(remedyFinishedAt);
      var failed := CopyCell(remedyLastFailedAt);
      out.remedyStartedAt, out.remedyFinishedAt, out.remedyLastFailedAt := started, finished, failed;
    }

    method CopyFields(out: Status)
      requires out != this
      modifies out
      ensures out.errorMessage == errorMessage && out.remedyErrorMessage == remedyErrorMessage
      ensures out.lastFailedWorkflow == lastFailedWorkflow && out.lastSuccessfulWorkflow == lastSuccessfulWorkflow
      ensures out.successCount == successCount && out.failedCount == failedCount
      ensures out.remedySuccessCount == remedySuccessCount && out.remedyFailedCount == remedyFailedCount
      ensures out.remedyTotalRuns == remedyTotalRuns && out.totalHealthCheckRuns == totalHealthCheckRuns
      ensures out.status == status && out.remedyStatus == remedyStatus
    {
      out.errorMessage, out.remedyErrorMessage := errorMessage, remedyErrorMessage;
      out.lastFailedWorkflow, out.lastSuccessfulWorkflow := lastFailedWorkflow, lastSuccessfulWorkflow;
      out.successCount, out.failedCount := successCount, failedCount;
      out.remedySuccessCount, out.remedyFailedCount := remedySuccessCount, remedyFailedCount;
      out.remedyTotalRuns, out.totalHealthCheckRuns := remedyTotalRuns, totalHealthCheckRuns;
      out.status, out.remedyStatus := status, remedyStatus;
    }
  }

  /** The metadata is copied by the Kubernetes library and is not part of this class. */
  class HealthCheck {
    const spec: Spec
    const status: Status

    constructor ()
      ensures fresh(spec) && fresh(spec.workflow) && fresh(spec.remedyWorkflow) && fresh(status)
      ensures spec.workflow != spec.remedyWorkflow
    {
      spec := new Spec();
      status := new Status();
    }

    /** Everything the structs of this object point to. */
    ghost function Deep(): set<object?>
      reads this, spec, status, spec.workflow, spec.remedyWorkflow, spec.workflow.Deep(), spec.remedyWorkflow.Deep()
    {
      spec.workflow.Deep() + spec.remedyWorkflow.Deep() + status.Deep()
    }

    /** The two workflows share nothing. */
    ghost predicate Untangled()
      reads this, spec, spec.workflow, spec.remedyWorkflow, spec.workflow.Deep(), spec.remedyWorkflow.Deep()
    {
      && spec.workflow != spec.remedyWorkflow
      && forall o :: o in spec.workflow.Deep() && o in spec.remedyWorkflow.Deep() ==> o == null
    }

    /** Writes into a struct the caller holds by value. */
    method DeepCopyInto(out: HealthCheck)
      requires out.spec.workflow != out.spec.remedyWorkflow
      requires {spec as object, status, spec.workflow, spec.remedyWorkflow}
               !! {out.spec as object, out.status, out.spec.workflow, out.spec.remedyWorkflow}
      modifies out.spec, out.status, out.spec.workflow, out.spec.remedyWorkflow
      ensures out.spec.Value() == old(spec.Value()) && out.status.Value() == old(status.Value())
      ensures forall o :: o in out.Deep() && o != null ==> fresh(o)
      ensures out.Untangled()
    {
      hide Workflow.Value, Workflow.Deep, Spec.Value, Status.Value, Status.Deep;
      spec.DeepCopyInto(out.spec);
      UnmovedStatus(status);
      label Half:
      status.DeepCopyInto(out.status);
      UnmovedSpec@Half(out.spec);
    }

    /** The copy has the value of the source, everything that can be reached from it is new, and
        the source is as it was. */
    method DeepCopy() returns (out: HealthCheck)
      ensures out.spec.Value() == spec.Value() == old(spec.Value())
      ensures out.status.Value() == status.Value() == old(status.Value())
      ensures fresh({out as object, out.spec, out.status, out.spec.workflow, out.spec.remedyWorkflow})
      ensures forall o :: o in out.Deep() && o != null ==> fresh(o)
      ensures out.Untangled()
    {
      hide Workflow.Value, Workflow.Deep, Spec.Value, Status.Value, Status.Deep, Deep, Untangled;
      out := new HealthCheck();
      UnmovedSpec(spec);
      UnmovedStatus(status);
      label Made:
      DeepCopyInto(out);
      UnmovedSpec@Made(spec);
      UnmovedStatus@Made(status);
    }

    /** The rename of the remedy's account on a copy does not reach the object it was copied from. */
    method RenameOnCopy() returns (out: HealthCheck)
      ensures spec.Value() == old(spec.Value()) && status.Value() == old(status.Value())
      ensures out.spec.Value() == RbacNames.Renamed(spec.Value()) && out.status.Value() == status.Value()
    {
      hide Workflow.Value, Workflow.Deep, Spec.Value, Status.Value, Status.Deep;
      out := DeepCopy();
      ResourceIsDeep(out.spec.remedyWorkflow);
      assert out.spec.remedyWorkflow.resource in out.Deep();
      label Copied:
      out.spec.RenameRemedyAccount();
      UnmovedSpec@Copied(spec);
      UnmovedStatus@Copied(status);
      UnmovedStatus@Copied(out.status);
    }
  }

  lemma ResourceIsDeep(w: Workflow)
    ensures w.resource in w.Deep()
  {
  }

  lemma PointersAreAllocated(w: Workflow)
    ensures forall o :: o in w.Deep() && o != null ==> allocated(o)
  {
  }

  /** Writing to structs held by value leaves alone what a workflow points to. */
  twostate lemma Unmoved(w: Workflow)
    requires allocated(w) && old(allocated(w)) && Still(w)
    ensures w.Value() == old(w.Value()) && w.Deep() == old(w.Deep())
  {
    var r := w.resource;
    if r != null {
      var a := r.source;
      assert a.Deep() == old(a.Deep());
      assert Deref(a.inline) == old(Deref(a.inline));
      assert Deref(a.file) == old(Deref(a.file));
      assert a.url != null ==> a.url.Value() == old(a.url.Value());
      assert a.Value() == old(a.Value());
      assert r.Value() == old(r.Value());
    }
    assert w.rbacRules != null ==> w.rbacRules[..] == old(w.rbacRules[..]);
  }

  twostate lemma UnmovedSpec(spec: Spec)
    requires allocated(spec) && old(allocated(spec)) && unchanged(spec) && Still(spec.workflow)
             && Still(spec.remedyWorkflow)
    ensures spec.Value() == old(spec.Value())
    ensures spec.workflow.Deep() == old(spec.workflow.Deep())
    ensures spec.remedyWorkflow.Deep() == old(spec.remedyWorkflow.Deep())
  {
    hide Workflow.Value, Workflow.Deep;
    Unmoved(spec.workflow);
    Unmoved(spec.remedyWorkflow);
  }

  twostate lemma UnmovedStatus(st: Status)
    requires allocated(st) && old(allocated(st)) && unchanged(st)
    requires Same(old(st.startedAt)) && Same(old(st.finishedAt)) && Same(old(st.lastFailedAt))
    requires Same(old(st.remedyStartedAt)) && Same(old(st.remedyFinishedAt)) && Same(old(st.remedyLastFailedAt))
    ensures st.Value() == old(st.Value()) && st.Deep() == old(st.Deep())
  {
  }

  twostate predicate Still(w: Workflow)
    reads w, w.rbacRules, w.resource,
          if w.resource == null then {} else
            {w.resource.source as object?, w.resource.source.inline, w.resource.source.file, w.resource.source.url,
             if w.resource.source.url == null then null else w.resource.source.url.verifyCert}
  {
    && unchanged(w) && Same(w.rbacRules) && Same(w.resource)
    && (w.resource != null ==> SameParts(w.resource.source))
  }

  twostate predicate Same(o: object?)
    reads o
  {
    o != null ==> unchanged(o)
  }

  twostate predicate SameParts(a: ArtifactLocation)
    reads a, a.inline, a.file, a.url, if a.url == null then null else a.url.verifyCert
  {
    unchanged(a) && Same(a.inline) && Same(a.file) && Same(a.url) && (a.url != null ==> Same(a.url.verifyCert))
  }

  method CopyRules(rules: array<V.PolicyRule>) returns (copy: array<V.PolicyRule>)
    ensures fresh(copy) && copy[..] == rules[..]
  {
    copy := new V.PolicyRule[rules.Length](i => V.PolicyRule([], [], [], [], []));
    for i := 0 to rules.Length
      invariant copy[..i] == rules[..i]
    {
      copy[i] := rules[i];
    }
  }
}
