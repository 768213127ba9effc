/** app/orchestration/plans.py and artifact_bindings.py: the static plan, its
    version and lineage gate, command compilation and the report made from a
    receipt. */
module Plans {
  import opened Wrappers

  // ---------------------------------------------------------------- values

  /** derive_job_id hashes (plan, kind, step) with uuid5. Distinct inputs are
      taken to give distinct ids, so a derived id is the triple itself; any id
      minted elsewhere is a ForeignJob. */
  datatype JobId = StepJob(planId: string, kind: string, stepId: string) | ForeignJob(name: string)

  /** Object keys: the field names of a plan record as constructors, any other
      key by its text. */
  datatype Key =
    | PlanIdKey | VersionKey | RequestKey | StepsKey | GenerationKey | StepJobsKey
    | RequestIdKey | SourceKey | RequiredSchemasKey | DeadlineAtKey | MaxStepsKey
    | SourceIdKey | RevisionKey | SchemaKey | ChecksumKey
    | StepIdKey | WorkKindKey | FunctionIdKey | InputSchemaKey | OutputSchemaKey
    | PayloadKey | DependsOnKey | InputBindingKey | KindKey | ReferenceKey
    | Named(name: string)

  /** JSON values. asdict leaves Python tuples in place (Tup); a JSON column
      gives them back as lists (Arr). JobRef is the text of a job id. */
  datatype Json =
    | Null
    | Bool(b: bool)
    | Int(i: int)
    | Real(r: real)
    | Str(s: string)
    | JobRef(job: JobId)
    | Arr(items: seq<Json>)
    | Tup(items: seq<Json>)
    | Obj(fields: map<Key, Json>)

  datatype Source = Source(sourceId: string, revision: string, schema: string, checksum: string)

  datatype Request = Request(
    requestId: string, source: Source, requiredSchemas: seq<string>, deadlineAt: real, maxSteps: int)

  datatype Binding = Binding(kind: string, reference: string, schema: string, revision: string)

  datatype Step = Step(
    stepId: string, workKind: string, functionId: string, inputSchema: string, outputSchema: string,
    payload: Json, dependsOn: seq<string>, inputBinding: Option<Binding>)

  datatype Plan = Plan(
    planId: string, version: int, request: Request, steps: seq<Step>, generation: string)

  datatype Command = Command(
    planId: string, stepId: string, jobId: JobId, workKind: string, payload: Json, deadlineAt: real)

  datatype Status = Running | Succeeded | Failed

  datatype Report = Report(
    planId: string, stepId: string, jobId: JobId, status: Status, artifactRefs: seq<string>)

  datatype PlanError = PlanError(message: string)

  // ------------------------------------------------------- artifact bindings

  /** The characters str.strip removes. */
  predicate IsSpace(c: char) {
    || '\t' <= c <= '\r'
    || '\U{1c}' <= c <= ' '
    || c == '\U{85}' || c == '\U{a0}' || c == '\U{1680}'
    || '\U{2000}' <= c <= '\U{200a}'
    || c == '\U{2028}' || c == '\U{2029}' || c == '\U{202f}' || c == '\U{205f}' || c == '\U{3000}'
  }

  /** value == value.strip() */
  predicate Stripped(s: string) {
    s == "" || (!IsSpace(s[0]) && !IsSpace(s[|s| - 1]))
  }

  predicate BindingWellFormed(b: Binding) {
    && b.kind in {"artifact", "step"}
    && b.reference != "" && Stripped(b.reference)
    && b.schema != "" && Stripped(b.schema)
    && Stripped(b.revision)
    && (b.kind == "artifact" ==> b.revision != "")
    && (b.kind == "step" ==> b.revision == "")
  }

  // ------------------------------------------------------------- plan gate

  function StepIds(steps: seq<Step>): (ids: set<string>)
  {
    set s | s in steps :: s.stepId
  }

  /** The step a dictionary filled in plan order holds under `id` once the
      given steps are in it: the last of them so named. */
  ghost predicate LastNamed(steps: seq<Step>, id: string, step: Step) {
    exists k :: 0 <= k < |steps| && steps[k] == step && step.stepId == id
      && forall m :: k < m < |steps| ==> steps[m].stepId != id
  }

  /** A bound input names its own schema and, when produced inside the plan, a
      declared dependency that comes earlier and outputs that schema. */
  ghost predicate LineageOk(before: seq<Step>, step: Step) {
    step.inputBinding.Some? ==>
      var b := step.inputBinding.value;
      && BindingWellFormed(b)
      && b.schema == step.inputSchema
      && (b.kind == "step" ==>
            && b.reference in step.dependsOn
            && exists p :: LastNamed(before, b.reference, p) && p.outputSchema == b.schema)
  }

  ghost predicate BindingsValid(plan: Plan) {
    && (plan.version == 1 || plan.version == 2)
    && (plan.version == 1 ==> forall s :: s in plan.steps ==> s.inputBinding.None?)
    && (plan.version == 2 ==> exists s :: s in plan.steps && s.inputBinding.Some?)
    && forall k :: 0 <= k < |plan.steps| ==> LineageOk(plan.steps[..k], plan.steps[k])
  }

  ghost predicate SeenIs(seen: map<string, Step>, steps: seq<Step>) {
    && seen.Keys == StepIds(steps)
    && forall id :: id in seen ==> LastNamed(steps, id, seen[id])
  }

  lemma NoIds()
    ensures StepIds([]) == {}
  {
  }

  lemma SeenExtends(seen: map<string, Step>, steps: seq<Step>, step: Step)
    requires SeenIs(seen, steps)
    ensures SeenIs(seen[step.stepId := step], steps + [step])
  {
    var all := steps + [step];
    assert all[|steps|] == step;
    assert StepIds(all) == StepIds(steps) + {step.stepId} by {
      forall id | id in StepIds(steps) ensures id in StepIds(all) {
        var s :| s in steps && s.stepId == id;
        assert s in all;
      }
      assert step in all;
    }
    forall id | id in seen && id != step.stepId
      ensures LastNamed(all, id, seen[id])
    {
      var k :| 0 <= k < |steps| && steps[k] == seen[id] && seen[id].stepId == id
        && forall m :: k < m < |steps| ==> steps[m].stepId != id;
      assert all[k] == seen[id];
    }
  }

  lemma LastNamedUnique(steps: seq<Step>, id: string, a: Step, b: Step)
    requires LastNamed(steps, id, a) && LastNamed(steps, id, b)
    ensures a == b
  {
  }

  /** validate_plan_bindings, with its dictionary of the steps seen so far. */
  method ValidatePlanBindings(plan: Plan) returns (ok: Result<(), PlanError>)
    ensures ok.Ok? <==> BindingsValid(plan)
  {
    hide BindingWellFormed, LastNamed, StepIds;
    if plan.version != 1 && plan.version != 2 {
      return Err(PlanError("Unsupported plan version"));
    }
    var bound := exists s | s in plan.steps :: s.inputBinding.Some?;
    if (plan.version == 1 && bound) || (plan.version == 2 && !bound) {
      return Err(PlanError("Artifact input bindings require a version 2 plan"));
    }
    var seen: map<string, Step> := map[];
    assert plan.steps[..0] == [] && SeenIs(seen, []) by { NoIds(); }
    for i := 0 to |plan.steps|
      invariant SeenIs(seen, plan.steps[..i])
      invariant forall k :: 0 <= k < i ==> LineageOk(plan.steps[..k], plan.steps[k])
    {
      var step := plan.steps[i];
      if step.inputBinding.Some? {
        var b := step.inputBinding.value;
        if !BindingWellFormed(b) {
          return Err(PlanError("Malformed binding"));
        }
        if b.schema != step.inputSchema {
          return Err(PlanError("Binding schema does not match consuming step"));
        }
        if b.kind == "step" {
          if b.reference !in seen || b.reference !in step.dependsOn
             || seen[b.reference].outputSchema != b.schema {
            ProducerMissing(plan.steps[..i], seen, step);
            return Err(PlanError("Input must reference an approved matching dependency"));
          }
        }
      }
      SeenExtends(seen, plan.steps[..i], step);
      assert plan.steps[..i] + [step] == plan.steps[..i + 1];
      seen := seen[step.stepId := step];
    }
    ok := Ok(());
  }

  lemma ProducerMissing(before: seq<Step>, seen: map<string, Step>, step: Step)
    requires SeenIs(seen, before)
    requires step.inputBinding.Some? && step.inputBinding.value.kind == "step"
    requires
      var b := step.inputBinding.value;
      b.reference !in seen || b.reference !in step.dependsOn || seen[b.reference].outputSchema != b.schema
    ensures !LineageOk(before, step)
  {
  }

  // ------------------------------------------------- structure of a stored plan

  /** What load_submission re-checks on every read: identities are usable and
      distinct, and dependencies point strictly backwards. */
  ghost predicate OrderOk(steps: seq<Step>) {
    forall i :: 0 <= i < |steps| ==> InOrder(steps[..i], steps[i])
  }

  predicate InOrder(before: seq<Step>, step: Step) {
    && 0 < |step.stepId| <= 64
    && step.stepId !in StepIds(before)
    && forall d :: d in step.dependsOn ==> d in StepIds(before)
  }

  method ValidateOrder(steps: seq<Step>) returns (ok: bool)
    ensures ok <==> OrderOk(steps)
  {
    var preceding: set<string> := {};
    assert steps[..0] == [] && StepIds([]) == {} by { NoIds(); }
    hide StepIds;
    for i := 0 to |steps|
      invariant preceding == StepIds(steps[..i])
      invariant forall k :: 0 <= k < i ==> InOrder(steps[..k], steps[k])
    {
      var step := steps[i];
      if step.stepId == "" || |step.stepId| > 64 || step.stepId in preceding
         || exists d | d in step.dependsOn :: d !in preceding {
        return false;
      }
      assert steps[..i + 1] == steps[..i] + [step];
      StepIdsAppend(steps[..i], step);
      preceding := preceding + {step.stepId};
    }
    ok := true;
  }

  lemma StepIdsAppend(steps: seq<Step>, step: Step)
    ensures StepIds(steps + [step]) == StepIds(steps) + {step.stepId}
  {
  }

  lemma IdAt(steps: seq<Step>, i: nat)
    requires i < |steps|
    ensures steps[i].stepId in StepIds(steps)
  {
  }

  // ------------------------------------------------------------ commands

  function FindStep(steps: seq<Step>, id: string): (found: Option<Step>)
    ensures found.Some? ==> found.value in steps && found.value.stepId == id
    ensures found.None? <==> id !in StepIds(steps)
  {
    if steps == [] then None
    else if steps[0].stepId == id then assert steps[0] in steps; Some(steps[0])
    else
      var rest := FindStep(steps[1..], id);
      assert StepIds(steps) == {steps[0].stepId} + StepIds(steps[1..]) by {
        StepIdsCons(steps);
      }
      rest
  }

  lemma StepIdsCons(steps: seq<Step>)
    requires steps != []
    ensures StepIds(steps) == {steps[0].stepId} + StepIds(steps[1..])
  {
  }

  lemma FindIsStep(steps: seq<Step>, step: Step)
    requires OrderOk(steps) && step in steps
    ensures FindStep(steps, step.stepId) == Some(step)
  {
  }

  function JobOf(plan: Plan, step: Step): JobId {
    StepJob(plan.planId, step.workKind, step.stepId)
  }

  function TemplateCommand(plan: Plan, step: Step): Command {
    Command(plan.planId, step.stepId, JobOf(plan, step), step.workKind, step.payload, plan.request.deadlineAt)
  }

  /** command_for_step */
  function CommandForStep(plan: Plan, stepId: string): Result<Command, PlanError> {
    match FindStep(plan.steps, stepId)
    case None => Err(PlanError("Unknown plan step"))
    case Some(step) => Ok(TemplateCommand(plan, step))
  }

  /** parent_job: the job of the first dependency, or the plan itself. */
  function ParentJob(plan: Plan, step: Step): JobId {
    if step.dependsOn == [] then ForeignJob(plan.planId)
    else match FindStep(plan.steps, step.dependsOn[0])
      case Some(parent) => JobOf(plan, parent)
      case None => ForeignJob(plan.planId)
  }

  // ------------------------------------------------------ report_from_receipt

  datatype Artifact = Artifact(
    id: string, schema: string, ready: bool, stale: bool,
    sourceId: string, sourceRevision: string, sourceChecksum: string)

  predicate ArtifactUsable(plan: Plan, step: Step, a: Artifact) {
    && a.schema == step.outputSchema && a.ready && !a.stale && a.id != ""
    && a.sourceId == plan.request.source.sourceId
    && a.sourceRevision == plan.request.source.revision
    && (plan.request.source.checksum != "" ==> a.sourceChecksum == plan.request.source.checksum)
  }

  /** The receipt fields a report is made from; status None is a value outside
      running, succeeded, failed. */
  datatype ReceiptView = ReceiptView(jobId: JobId, workKind: string, status: Option<Status>)

  predicate ReportAccepted(plan: Plan, step: Step, receipt: ReceiptView, artifacts: seq<Artifact>) {
    && receipt.jobId == JobOf(plan, step) && receipt.workKind == step.workKind
    && (forall a :: a in artifacts ==> ArtifactUsable(plan, step, a))
    && receipt.status.Some?
    && (receipt.status == Some(Succeeded) ==> artifacts != [])
  }

  method ReportFromReceipt(plan: Plan, stepId: string, receipt: ReceiptView, artifacts: seq<Artifact>)
    returns (report: Result<Report, PlanError>)
    ensures report.Ok? <==>
      FindStep(plan.steps, stepId).Some?
      && ReportAccepted(plan, FindStep(plan.steps, stepId).value, receipt, artifacts)
    ensures report.Ok? ==>
      && report.value.planId == plan.planId && report.value.stepId == stepId
      && report.value.jobId == receipt.jobId && Some(report.value.status) == receipt.status
      && |report.value.artifactRefs| == |artifacts|
      && (forall k :: 0 <= k < |artifacts| ==> report.value.artifactRefs[k] == artifacts[k].id)
      && (report.value.status == Succeeded ==> report.value.artifactRefs != [])
  {
    var command :- CommandForStep(plan, stepId);
    if receipt.jobId != command.jobId || receipt.workKind != command.workKind {
      return Err(PlanError("Receipt identity does not match plan step"));
    }
    var step := FindStep(plan.steps, stepId).value;
    var refs: seq<string> := [];
    for i := 0 to |artifacts|
      invariant |refs| == i
      invariant forall k :: 0 <= k < i ==> ArtifactUsable(plan, step, artifacts[k]) && refs[k] == artifacts[k].id
    {
      if !ArtifactUsable(plan, step, artifacts[i]) {
        return Err(PlanError("Artifact schema, validity or source does not match"));
      }
      refs := refs + [artifacts[i].id];
    }
    if receipt.status.None? {
      return Err(PlanError("Unknown receipt state"));
    }
    if receipt.status == Some(Succeeded) && refs == [] {
      return Err(PlanError("Success receipt is not proof of a usable artifact"));
    }
    report := Ok(Report(plan.planId, stepId, command.jobId, receipt.status.value, refs));
  }
}
