/** Workflow templates after decoding, and what parsing adds to them
    (parseWorkflowFromHealthcheck and parseRemedyWorkflowFromHealthcheck). */
module Templates {
  import opened HealthChecks

  datatype Value =
    | Null
    | Text(text: string)
    | Number(number: real)
    | Fields(fields: map<string, Value>)
    | Other

  /** What reading and decoding a template source gave. Empty content decodes to a nil map. */
  datatype Decoded = Unreadable | NilMap | Template(fields: map<string, Value>)

  /** `LockHeldPanic` is the write to the nil map while TimerLock is held. */
  datatype Parsed = ParseError | LockHeldPanic | ParsedTo(spec: Spec, content: map<string, Value>)

  /** Reading a missing key of a decoded map gives nil. */
  function Lookup(m: map<string, Value>, key: string): Value {
    if key in m then m[key] else Null
  }

  function Defaulted(m: map<string, Value>, key: string, value: Value): map<string, Value> {
    if Lookup(m, key) == Null then m[key := value] else m
  }

  const POD_GC := Fields(map["strategy" := Text("OnPodCompletion")])

  function WithAccount(m: map<string, Value>, account: string): map<string, Value> {
    if account != "" then m["serviceAccountName" := Text(account)] else m
  }

  /** Go's conversion of a float64 to int. */
  function Truncate(x: real): int {
    if x >= 0.0 then x.Floor else -((-x).Floor)
  }

  function ParseWorkflow(spec: Spec, decoded: Decoded): Parsed {
    if spec.workflow.resource.None? || decoded.NilMap? then LockHeldPanic
    else if decoded.Unreadable? then ParseError
    else match Lookup(decoded.fields, "spec")
         case Fields(given) =>
           var timeout := if spec.workflow.timeout != 0 then spec.workflow.timeout else spec.repeatAfterSec;
           var collected := Defaulted(given, "podGC", POD_GC);
           var owned := WithAccount(collected, spec.workflow.resource.value.serviceAccount);
           ParsedTo(spec.(workflow := spec.workflow.(timeout := timeout)),
                    Defaulted(owned, "activeDeadlineSeconds", Number(timeout as real)))
         case _ => ParseError
  }

  function ParseRemedyWorkflow(spec: Spec, decoded: Decoded): Parsed {
    if spec.remedyWorkflow.resource.None? || decoded.NilMap? then LockHeldPanic
    else if decoded.Unreadable? then ParseError
    else match Lookup(decoded.fields, "spec")
         case Fields(given) =>
           var collected := Defaulted(given, "podGC", POD_GC);
           var owned := WithAccount(collected, spec.remedyWorkflow.resource.value.serviceAccount);
           var deadline := Lookup(owned, "activeDeadlineSeconds");
           var timeout := if deadline.Number? then Truncate(deadline.number) else spec.repeatAfterSec;
           ParsedTo(spec.(remedyWorkflow := spec.remedyWorkflow.(timeout := timeout)),
                    Defaulted(owned, "activeDeadlineSeconds", Number(timeout as real)))
         case _ => ParseError
  }

  /** The in-memory spec after an attempt to parse: a failed parse leaves it alone. */
  function SpecAfter(spec: Spec, parsed: Parsed): Spec {
    if parsed.ParsedTo? then parsed.spec else spec
  }

  // ---------------------------------------------------------------- what is submitted

  predicate SpecIsMap(decoded: Decoded) {
    decoded.Template? && "spec" in decoded.fields && decoded.fields["spec"].Fields?
  }

  /** A template is submitted if and only if it decodes to a map whose spec is a map; one that decodes
      to nothing at all panics, and any other is an error. */
  lemma ParsesExactly(spec: Spec, decoded: Decoded)
    requires spec.workflow.resource.Some?
    ensures ParseWorkflow(spec, decoded).ParsedTo? <==> SpecIsMap(decoded)
    ensures ParseWorkflow(spec, decoded).LockHeldPanic? <==> decoded.NilMap?
  {
  }

  lemma ParsesRemedyExactly(spec: Spec, decoded: Decoded)
    requires spec.remedyWorkflow.resource.Some?
    ensures ParseRemedyWorkflow(spec, decoded).ParsedTo? <==> SpecIsMap(decoded)
    ensures ParseRemedyWorkflow(spec, decoded).LockHeldPanic? <==> decoded.NilMap?
  {
  }

  /** What the template says, or a default where it says nothing. */
  function GivenOr(decoded: Decoded, key: string, otherwise: Value): Value
    requires SpecIsMap(decoded)
  {
    var given := decoded.fields["spec"].fields;
    if key in given && given[key] != Null then given[key] else otherwise
  }

  /** The submitted spec, key by key: the check's own account over any the template names, garbage
      collection of completed pods and a deadline by default, and the template for the rest. Only the
      timeout is filled in, in memory. */
  lemma SubmitsTheTemplate(spec: Spec, decoded: Decoded, key: string)
    requires spec.workflow.resource.Some? && SpecIsMap(decoded)
    ensures var parsed := ParseWorkflow(spec, decoded);
            var account := spec.workflow.resource.value.serviceAccount;
            var timeout := if spec.workflow.timeout != 0 then spec.workflow.timeout else spec.repeatAfterSec;
            && parsed.ParsedTo?
            && parsed.spec == spec.(workflow := spec.workflow.(timeout := timeout))
            && Lookup(parsed.content, key)
               == if key == "serviceAccountName" && account != "" then Text(account)
                  else if key == "podGC" then GivenOr(decoded, key, Fields(map["strategy" := Text("OnPodCompletion")]))
                  else if key == "activeDeadlineSeconds" then GivenOr(decoded, key, Number(timeout as real))
                  else GivenOr(decoded, key, Null)
  {
  }

  /** The same for a remedy, under its own account. Its deadline is the check's interval by default. */
  lemma SubmitsTheRemedyTemplate(spec: Spec, decoded: Decoded, key: string)
    requires spec.remedyWorkflow.resource.Some? && SpecIsMap(decoded)
    ensures var parsed := ParseRemedyWorkflow(spec, decoded);
            var account := spec.remedyWorkflow.resource.value.serviceAccount;
            var deadline := GivenOr(decoded, "activeDeadlineSeconds", Number(spec.repeatAfterSec as real));
            && parsed.ParsedTo?
            && parsed.spec
               == spec.(remedyWorkflow := spec.remedyWorkflow.(timeout := parsed.spec.remedyWorkflow.timeout))
            && (!deadline.Number? ==> parsed.spec.remedyWorkflow.timeout == spec.repeatAfterSec)
            && Lookup(parsed.content, key)
               == if key == "serviceAccountName" && account != "" then Text(account)
                  else if key == "podGC" then GivenOr(decoded, key, Fields(map["strategy" := Text("OnPodCompletion")]))
                  else if key == "activeDeadlineSeconds" then deadline
                  else GivenOr(decoded, key, Null)
  {
    assert Truncate(spec.repeatAfterSec as real) == spec.repeatAfterSec;
  }
}
