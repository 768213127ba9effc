/** plan_record and plan_from_record (app/orchestration/plans.py), the form in
    which a plan is kept in a JSON column. */
module PlanRecords {
  import opened Wrappers
  import opened Plans

  /** What a JSON column gives back: tuples have become lists. */
  function Stored(j: Json): Json {
    match j
    case Arr(xs) => Arr(seq(|xs|, i requires 0 <= i < |xs| => Stored(xs[i])))
    case Tup(xs) => Arr(seq(|xs|, i requires 0 <= i < |xs| => Stored(xs[i])))
    case Obj(m) => Obj(map k | k in m :: Stored(m[k]))
    case _ => j
  }

  lemma {:induction false} StoredIdempotent(j: Json)
    ensures Stored(Stored(j)) == Stored(j)
  {
    match j
    case Arr(xs) => forall i | 0 <= i < |xs| { StoredIdempotent(xs[i]); }
    case Tup(xs) => forall i | 0 <= i < |xs| { StoredIdempotent(xs[i]); }
    case Obj(m) => forall k | k in m { StoredIdempotent(m[k]); }
    case _ =>
  }

  // ------------------------------------------------------------- writing

  function Texts(ss: seq<string>): seq<Json> {
    seq(|ss|, i requires 0 <= i < |ss| => Str(ss[i]))
  }

  function BindingRecord(b: Option<Binding>): Json {
    if b.None? then Null
    else Obj(map[KindKey := Str(b.value.kind), ReferenceKey := Str(b.value.reference),
                 SchemaKey := Str(b.value.schema), RevisionKey := Str(b.value.revision)])
  }

  /** asdict(step); version 1 drops the input_binding key. */
  function StepRecord(version: int, s: Step): Json {
    var fields := map[
      StepIdKey := Str(s.stepId), WorkKindKey := Str(s.workKind), FunctionIdKey := Str(s.functionId),
      InputSchemaKey := Str(s.inputSchema), OutputSchemaKey := Str(s.outputSchema),
      PayloadKey := s.payload, DependsOnKey := Tup(Texts(s.dependsOn)),
      InputBindingKey := BindingRecord(s.inputBinding)];
    Obj(if version == 1 then fields - {InputBindingKey} else fields)
  }

  function SourceRecord(s: Source): Json {
    Obj(map[SourceIdKey := Str(s.sourceId), RevisionKey := Str(s.revision),
            SchemaKey := Str(s.schema), ChecksumKey := Str(s.checksum)])
  }

  function RequestRecord(r: Request): Json {
    Obj(map[RequestIdKey := Str(r.requestId), SourceKey := SourceRecord(r.source),
            RequiredSchemasKey := Tup(Texts(r.requiredSchemas)),
            DeadlineAtKey := Real(r.deadlineAt), MaxStepsKey := Int(r.maxSteps)])
  }

  /** {step_id: job_id}, a dictionary over the plan's steps. */
  function StepJobs(plan: Plan): map<Key, Json> {
    map id | id in StepIds(plan.steps) :: Named(id) := JobRef(JobOf(plan, FindStep(plan.steps, id).value))
  }

  function StepRecords(plan: Plan): seq<Json> {
    seq(|plan.steps|, i requires 0 <= i < |plan.steps| => StepRecord(plan.version, plan.steps[i]))
  }

  /** plan_record */
  function PlanRecord(plan: Plan): Json {
    Obj(map[
      PlanIdKey := Str(plan.planId), VersionKey := Int(plan.version),
      RequestKey := RequestRecord(plan.request), StepsKey := Tup(StepRecords(plan)),
      GenerationKey := Str(plan.generation), StepJobsKey := Obj(StepJobs(plan))])
  }

  // ------------------------------------------------------------- reading

  const Malformed := PlanError("Malformed plan record")

  function Field(j: Json, key: Key): Result<Json, PlanError> {
    if j.Obj? && key in j.fields then Ok(j.fields[key]) else Err(Malformed)
  }

  function Text(j: Json): Result<string, PlanError> {
    if j.Str? then Ok(j.s) else Err(Malformed)
  }

  function TextField(j: Json, key: Key): Result<string, PlanError> {
    var v :- Field(j, key);
    Text(v)
  }

  function Items(j: Json): Result<seq<Json>, PlanError> {
    if j.Arr? || j.Tup? then Ok(j.items) else Err(Malformed)
  }

  function ReadTexts(items: seq<Json>): Result<seq<string>, PlanError> {
    if forall i :: 0 <= i < |items| ==> items[i].Str?
    then Ok(seq(|items|, i requires 0 <= i < |items| && items[i].Str? => items[i].s))
    else Err(Malformed)
  }

  /** Cls(**fields): the required keys are there, nothing unknown is, and an
      absent optional key takes its default "". */
  predicate KeywordsOk(j: Json, required: set<Key>, optional: set<Key>) {
    j.Obj? && required <= j.fields.Keys && j.fields.Keys <= required + optional
  }

  function OptionalText(j: Json, key: Key): Result<string, PlanError>
    requires j.Obj?
  {
    if key in j.fields then Text(j.fields[key]) else Ok("")
  }

  function ReadBinding(j: Json): Result<Binding, PlanError> {
    if !KeywordsOk(j, {KindKey, ReferenceKey, SchemaKey}, {RevisionKey}) then Err(Malformed) else
    var kind :- TextField(j, KindKey);
    var reference :- TextField(j, ReferenceKey);
    var schema :- TextField(j, SchemaKey);
    var revision :- OptionalText(j, RevisionKey);
    Ok(Binding(kind, reference, schema, revision))
  }

  function ReadSource(j: Json): Result<Source, PlanError> {
    if !KeywordsOk(j, {SourceIdKey, RevisionKey, SchemaKey}, {ChecksumKey}) then Err(Malformed) else
    var sourceId :- TextField(j, SourceIdKey);
    var revision :- TextField(j, RevisionKey);
    var schema :- TextField(j, SchemaKey);
    var checksum :- OptionalText(j, ChecksumKey);
    Ok(Source(sourceId, revision, schema, checksum))
  }

  function ReadRequest(j: Json): Result<Request, PlanError> {
    var sourceJson :- Field(j, SourceKey);
    var source :- ReadSource(sourceJson);
    var requestId :- TextField(j, RequestIdKey);
    var schemasJson :- Field(j, RequiredSchemasKey);
    var schemaItems :- Items(schemasJson);
    var schemas :- ReadTexts(schemaItems);
    var deadline :- Field(j, DeadlineAtKey);
    var maxSteps :- Field(j, MaxStepsKey);
    if !deadline.Real? || !maxSteps.Int? then Err(Malformed)
    else Ok(Request(requestId, source, schemas, deadline.r, maxSteps.i))
  }

  function ReadStep(j: Json): Result<Step, PlanError> {
    var stepId :- TextField(j, StepIdKey);
    var workKind :- TextField(j, WorkKindKey);
    var functionId :- TextField(j, FunctionIdKey);
    var inputSchema :- TextField(j, InputSchemaKey);
    var outputSchema :- TextField(j, OutputSchemaKey);
    var payload :- Field(j, PayloadKey);
    var dependsJson :- Field(j, DependsOnKey);
    var dependsItems :- Items(dependsJson);
    var dependsOn :- ReadTexts(dependsItems);
    if InputBindingKey in j.fields && j.fields[InputBindingKey] != Null then
      var binding :- ReadBinding(j.fields[InputBindingKey]);
      Ok(Step(stepId, workKind, functionId, inputSchema, outputSchema, payload, dependsOn, Some(binding)))
    else
      Ok(Step(stepId, workKind, functionId, inputSchema, outputSchema, payload, dependsOn, None))
  }

  function ReadSteps(items: seq<Json>): Result<seq<Step>, PlanError> {
    if items == [] then Ok([])
    else
      var head :- ReadStep(items[0]);
      var tail :- ReadSteps(items[1..]);
      Ok([head] + tail)
  }

  /** plan_from_record up to its two checks on the assembled plan. */
  function ReadPlan(j: Json): Result<Plan, PlanError> {
    var requestJson :- Field(j, RequestKey);
    var request :- ReadRequest(requestJson);
    var stepsJson :- Field(j, StepsKey);
    var stepItems :- Items(stepsJson);
    var steps :- ReadSteps(stepItems);
    var planId :- TextField(j, PlanIdKey);
    var version :- Field(j, VersionKey);
    var generation :- TextField(j, GenerationKey);
    if version.Int? then Ok(Plan(planId, version.i, request, steps, generation))
    else Err(PlanError("Unsupported plan version"))
  }

  /** plan_from_record: rebuild, gate on bindings, and compare the stored
      step-to-job map with the one the rebuilt plan derives. */
  ghost predicate Accepts(j: Json, plan: Plan) {
    && ReadPlan(j) == Ok(plan)
    && BindingsValid(plan)
    && Field(j, StepJobsKey) == Ok(Obj(StepJobs(plan)))
  }

  method PlanFromRecord(j: Json) returns (plan: Result<Plan, PlanError>)
    ensures plan.Ok? ==> Accepts(j, plan.value)
    ensures plan.Err? ==> forall p :: !Accepts(j, p)
  {
    var read :- ReadPlan(j);
    var gate := ValidatePlanBindings(read);
    if gate.Err? {
      return Err(gate.error);
    }
    var jobs :- Field(j, StepJobsKey);
    if jobs != Obj(StepJobs(read)) {
      return Err(PlanError("Stored step-job mapping changed"));
    }
    plan := Ok(read);
  }

  // ---------------------------------------------------------- round trips

  /** The plan a JSON column hands back: same plan, stored payloads. */
  function StoredStep(version: int, s: Step): Step {
    Step(s.stepId, s.workKind, s.functionId, s.inputSchema, s.outputSchema, Stored(s.payload), s.dependsOn,
         if version == 1 then None else s.inputBinding)
  }

  /** What survives writing alone: version 1 records have no bindings. */
  function WrittenStep(version: int, s: Step): Step {
    Step(s.stepId, s.workKind, s.functionId, s.inputSchema, s.outputSchema, s.payload, s.dependsOn,
         if version == 1 then None else s.inputBinding)
  }

  lemma TextsReadBack(ss: seq<string>)
    ensures ReadTexts(Texts(ss)) == Ok(ss)
    ensures Stored(Tup(Texts(ss))) == Arr(Texts(ss))
  {
    assert ReadTexts(Texts(ss)).value == ss;
    assert Stored(Tup(Texts(ss))).items == Texts(ss);
  }

  /** Reading is by key: an object that holds a step's fields reads as it. */
  lemma StepFieldsRead(j: Json, s: Step, depends: Json)
    requires j.Obj?
      && {StepIdKey, WorkKindKey, FunctionIdKey, InputSchemaKey, OutputSchemaKey, PayloadKey, DependsOnKey} <=
         j.fields.Keys
    requires j.fields[StepIdKey] == Str(s.stepId) && j.fields[WorkKindKey] == Str(s.workKind)
    requires j.fields[FunctionIdKey] == Str(s.functionId) && j.fields[InputSchemaKey] == Str(s.inputSchema)
    requires j.fields[OutputSchemaKey] == Str(s.outputSchema) && j.fields[PayloadKey] == s.payload
    requires j.fields[DependsOnKey] == depends && depends in {Tup(Texts(s.dependsOn)), Arr(Texts(s.dependsOn))}
    requires s.inputBinding.None? ==> InputBindingKey !in j.fields || j.fields[InputBindingKey] == Null
    requires s.inputBinding.Some? ==>
      InputBindingKey in j.fields && j.fields[InputBindingKey] == BindingRecord(s.inputBinding)
    ensures ReadStep(j) == Ok(s)
  {
    TextsReadBack(s.dependsOn);
  }

  lemma StepReadsBack(version: int, s: Step)
    ensures ReadStep(StepRecord(version, s)) == Ok(WrittenStep(version, s))
  {
    StepFieldsRead(StepRecord(version, s), WrittenStep(version, s), Tup(Texts(s.dependsOn)));
  }

  lemma BindingStored(b: Option<Binding>)
    ensures Stored(BindingRecord(b)) == BindingRecord(b)
  {
  }

  lemma StoredObject(m: map<Key, Json>)
    ensures Stored(Obj(m)) == Obj(map k | k in m :: Stored(m[k]))
  {
  }

  lemma StoredStepReadsBack(version: int, s: Step)
    ensures ReadStep(Stored(StepRecord(version, s))) == Ok(StoredStep(version, s))
  {
    TextsReadBack(s.dependsOn);
    BindingStored(s.inputBinding);
    hide ReadStep, ReadTexts, Texts;
    var m := StepRecord(version, s).fields;
    StoredObject(m);
    var j := Stored(Obj(m));
    assert j.fields.Keys == m.Keys;
    StepFieldsRead(j, StoredStep(version, s), Arr(Texts(s.dependsOn)));
  }

  lemma {:induction false} StepsReadBack(items: seq<Json>, steps: seq<Step>)
    requires |items| == |steps|
    requires forall i :: 0 <= i < |items| ==> ReadStep(items[i]) == Ok(steps[i])
    ensures ReadSteps(items) == Ok(steps)
  {
    if items != [] {
      StepsReadBack(items[1..], steps[1..]);
      assert steps == [steps[0]] + steps[1..];
    }
  }

  function WrittenPlan(plan: Plan): Plan {
    plan.(steps := seq(|plan.steps|, i requires 0 <= i < |plan.steps| => WrittenStep(plan.version, plan.steps[i])))
  }

  function StoredPlan(plan: Plan): Plan {
    plan.(steps := seq(|plan.steps|, i requires 0 <= i < |plan.steps| => StoredStep(plan.version, plan.steps[i])))
  }

  lemma RequestReadsBack(r: Request)
    ensures ReadRequest(RequestRecord(r)) == Ok(r)
  {
    TextsReadBack(r.requiredSchemas);
  }

  lemma StoredRequestReadsBack(r: Request)
    ensures ReadRequest(Stored(RequestRecord(r))) == Ok(r)
  {
    TextsReadBack(r.requiredSchemas);
    SourceStored(r.source);
    SourceReadsBack(r.source);
    hide SourceRecord, ReadSource, ReadTexts;
    StoredObject(RequestRecord(r).fields);
    var j := Stored(RequestRecord(r));
    assert j.fields[SourceKey] == Stored(SourceRecord(r.source));
  }

  lemma SourceStored(s: Source)
    ensures Stored(SourceRecord(s)) == SourceRecord(s)
  {
  }

  lemma SourceReadsBack(s: Source)
    ensures ReadSource(SourceRecord(s)) == Ok(s)
  {
  }

  lemma PlanReadsBack(plan: Plan)
    ensures ReadPlan(PlanRecord(plan)) == Ok(WrittenPlan(plan))
  {
    var items := StepRecords(plan);
    forall i | 0 <= i < |items| ensures ReadStep(items[i]) == Ok(WrittenPlan(plan).steps[i]) {
      StepReadsBack(plan.version, plan.steps[i]);
    }
    StepsReadBack(items, WrittenPlan(plan).steps);
    RequestReadsBack(plan.request);
    PlanFieldsRead(PlanRecord(plan), WrittenPlan(plan));
  }

  lemma PlanFieldsRead(j: Json, p: Plan)
    requires j.Obj? && {PlanIdKey, VersionKey, RequestKey, StepsKey, GenerationKey} <= j.fields.Keys
    requires j.fields[PlanIdKey] == Str(p.planId) && j.fields[VersionKey] == Int(p.version)
    requires j.fields[GenerationKey] == Str(p.generation)
    requires ReadRequest(j.fields[RequestKey]) == Ok(p.request)
    requires Items(j.fields[StepsKey]).Ok? && ReadSteps(j.fields[StepsKey].items) == Ok(p.steps)
    ensures ReadPlan(j) == Ok(p)
  {
  }

  lemma StoredStepsReadBack(plan: Plan)
    ensures Items(Stored(Tup(StepRecords(plan)))).Ok?
    ensures ReadSteps(Stored(Tup(StepRecords(plan))).items) == Ok(StoredPlan(plan).steps)
  {
    StoredSequence(StepRecords(plan));
    var items := Stored(Tup(StepRecords(plan))).items;
    forall i | 0 <= i < |items| ensures ReadStep(items[i]) == Ok(StoredPlan(plan).steps[i]) {
      StoredStepReadsBack(plan.version, plan.steps[i]);
    }
    StepsReadBack(items, StoredPlan(plan).steps);
  }

  lemma StoredJobsReadBack(jobs: map<Key, Json>)
    requires forall k :: k in jobs ==> jobs[k].JobRef?
    ensures Stored(Obj(jobs)) == Obj(jobs)
  {
  }

  lemma StoredPlanReadsBack(plan: Plan)
    ensures ReadPlan(Stored(PlanRecord(plan))) == Ok(StoredPlan(plan))
    ensures Field(Stored(PlanRecord(plan)), StepJobsKey) == Ok(Obj(StepJobs(plan)))
  {
    hide ReadPlan, ReadRequest, RequestRecord, ReadSteps, StepRecords;
    var m := PlanRecord(plan).fields;
    StoredObject(m);
    StoredStepsReadBack(plan);
    StoredRequestReadsBack(plan.request);
    StoredJobsReadBack(StepJobs(plan));
    PlanFieldsRead(Stored(Obj(m)), StoredPlan(plan));
  }

  lemma StoredSequence(xs: seq<Json>)
    ensures Stored(Tup(xs)).Arr? && |Stored(Tup(xs)).items| == |xs|
    ensures forall i :: 0 <= i < |xs| ==> Stored(Tup(xs)).items[i] == Stored(xs[i])
  {
  }

  lemma {:induction false} SameFound(xs: seq<Step>, ys: seq<Step>, id: string)
    requires |xs| == |ys|
    requires forall i :: 0 <= i < |xs| ==> xs[i].stepId == ys[i].stepId && xs[i].workKind == ys[i].workKind
    ensures FindStep(xs, id).Some? <==> FindStep(ys, id).Some?
    ensures FindStep(xs, id).Some? ==> FindStep(xs, id).value.workKind == FindStep(ys, id).value.workKind
  {
    if xs != [] && xs[0].stepId != id {
      SameFound(xs[1..], ys[1..], id);
    }
  }

  lemma WrittenIsSame(plan: Plan)
    requires BindingsValid(plan)
    ensures WrittenPlan(plan) == plan
  {
  }

  /** MAIN RESULT. A record read back gives the plan that was written exactly
      when that plan passes the version and lineage gate. */
  lemma RecordRoundTrip(plan: Plan)
    ensures Accepts(PlanRecord(plan), plan) <==> BindingsValid(plan)
  {
    PlanReadsBack(plan);
    if BindingsValid(plan) {
      WrittenIsSame(plan);
    }
  }

  /** MAIN RESULT. Through a JSON column, where tuples come back as lists, the
      plan returns unchanged exactly when it passes the gate and no payload
      holds a tuple of its own. */
  lemma StoredRoundTrip(plan: Plan)
    ensures Accepts(Stored(PlanRecord(plan)), plan) <==>
      BindingsValid(plan) && forall s :: s in plan.steps ==> Stored(s.payload) == s.payload
  {
    StoredPlanReadsBack(plan);
    var back := StoredPlan(plan);
    if BindingsValid(plan) && forall s :: s in plan.steps ==> Stored(s.payload) == s.payload {
      forall i | 0 <= i < |plan.steps| ensures back.steps[i] == plan.steps[i] {
        assert plan.steps[i] in plan.steps;
      }
      assert back.steps == plan.steps;
    }
    if Accepts(Stored(PlanRecord(plan)), plan) {
      forall s | s in plan.steps ensures Stored(s.payload) == s.payload {
        var i :| 0 <= i < |plan.steps| && plan.steps[i] == s;
        assert back.steps[i] == plan.steps[i];
      }
    }
  }

  /** Storing twice loses nothing more: what a column returned once is fixed. */
  lemma StoredRecordStable(plan: Plan)
    requires BindingsValid(plan)
    ensures Accepts(Stored(PlanRecord(StoredPlan(plan))), StoredPlan(plan))
  {
    var back := StoredPlan(plan);
    StoredGate(plan);
    forall s | s in back.steps ensures Stored(s.payload) == s.payload {
      var i :| 0 <= i < |back.steps| && back.steps[i] == s;
      StoredIdempotent(plan.steps[i].payload);
    }
    StoredRoundTrip(back);
  }

  lemma StoredGate(plan: Plan)
    requires BindingsValid(plan)
    ensures BindingsValid(StoredPlan(plan))
  {
    var back := StoredPlan(plan);
    if plan.version == 2 {
      var s :| s in plan.steps && s.inputBinding.Some?;
      var i :| 0 <= i < |plan.steps| && plan.steps[i] == s;
      assert back.steps[i].inputBinding.Some?;
    }
    forall k | 0 <= k < |back.steps| ensures LineageOk(back.steps[..k], back.steps[k]) {
      assert LineageOk(plan.steps[..k], plan.steps[k]);
      var step := back.steps[k];
      if step.inputBinding.Some? && step.inputBinding.value.kind == "step" {
        var b := step.inputBinding.value;
        var p :| LastNamed(plan.steps[..k], b.reference, p) && p.outputSchema == b.schema;
        StoredLastNamed(plan, k, b.reference, p);
      }
    }
  }

  lemma StoredLastNamed(plan: Plan, k: nat, id: string, p: Step)
    requires k <= |plan.steps| && LastNamed(plan.steps[..k], id, p)
    ensures LastNamed(StoredPlan(plan).steps[..k], id, StoredStep(plan.version, p))
  {
    var before, after := plan.steps[..k], StoredPlan(plan).steps[..k];
    var m :| 0 <= m < |before| && before[m] == p && p.stepId == id
      && forall n :: m < n < |before| ==> before[n].stepId != id;
    assert after[m] == StoredStep(plan.version, p);
    assert forall n :: m < n < |after| ==> after[n].stepId == before[n].stepId;
  }

  /** MAIN RESULT. Changing the stored step-to-job map of an accepted record in
      any way makes it unreadable. */
  lemma ChangedJobsRejected(j: Json, plan: Plan, other: Json, p: Plan)
    requires Accepts(j, plan)
    requires other != j.fields[StepJobsKey]
    ensures !Accepts(Obj(j.fields[StepJobsKey := other]), p)
  {
    var changed := Obj(j.fields[StepJobsKey := other]);
    assert ReadPlan(changed) == ReadPlan(j);
  }
}
