/** app/orchestration/submissions.py and command_inputs.py: the durable plan
    journal, compilation of consuming commands, publication and recording. */
module Submissions {
  import opened Wrappers
  import opened Plans
  import opened Control
  import opened Receipts

  // ------------------------------------------------------------------ rows

  /** ResolvedArtifact */
  datatype Resolved = Resolved(
    artifactId: string, schema: string, revision: string,
    sourceId: string, sourceRevision: string, sourceChecksum: string,
    fingerprint: string, ready: bool, stale: bool, producerJob: Option<JobId>)

  datatype Compiled = Compiled(command: Command, input: Resolved)

  /** PlanCommandDelivery */
  datatype Delivery = Delivery(jobId: JobId, publishedAt: Option<real>, publishError: string)

  /** PlanSubmission with its deliveries; `control` is spread over preparation,
      compiled, outcome and decisions. */
  datatype Row = Row(
    planId: string, requestId: string, jobId: JobId, workspace: int, createdBy: int, sourceUid: string,
    plan: Plan, preparation: bool,
    reports: map<string, Report>, proposals: map<string, seq<Proposal>>,
    compiled: map<string, Compiled>, outcome: Option<Outcome>, decisions: map<string, seq<Decision>>,
    publishedAt: Option<real>, publishError: string, deliveries: map<string, Delivery>)

  /** What the owning domains answer at one moment. Nothing ties two moments
      together: access, artifacts and inputs may change in between. */
  datatype Domain = Domain(
    registry: Registry,
    admitted: set<string>,                      // plans validate_submission and the source guard let through
    refs: map<JobId, seq<string>>,              // usable artifacts linked to a job
    refusing: set<JobId>,                       // jobs whose report port raises
    inputs: map<(string, string), Resolved>,    // resolve_input for (plan, step)
    payloads: map<(string, string), Json>,      // compile_command for (plan, step)
    approves: set<(string, string)>)            // validate_compiled_command passes for (plan, step)

  /** load_submission */
  ghost predicate LoadOk(row: Row) {
    && row.plan.steps != [] && |row.plan.steps| <= row.plan.request.maxSteps
    && BindingsValid(row.plan)
    && row.plan.planId == row.planId && row.plan.request.requestId == row.requestId
    && row.jobId == JobOf(row.plan, row.plan.steps[0])
    && row.sourceUid == row.plan.request.source.sourceId
    && OrderOk(row.plan.steps)
  }

  method LoadSubmission(row: Row) returns (ok: Result<(), PlanError>)
    ensures ok.Ok? <==> LoadOk(row)
  {
    var gate :- ValidatePlanBindings(row.plan);
    if row.plan.steps == [] || |row.plan.steps| > row.plan.request.maxSteps {
      return Err(PlanError("Plan is empty or exceeds its step budget"));
    }
    if row.plan.planId != row.planId || row.plan.request.requestId != row.requestId
       || row.jobId != JobOf(row.plan, row.plan.steps[0])
       || row.plan.request.source.sourceId != row.sourceUid {
      return Err(PlanError("Submission identity does not match the stored plan"));
    }
    var ordered := ValidateOrder(row.plan.steps);
    if !ordered {
      return Err(PlanError("Invalid step identity or dependency order"));
    }
    ok := Ok(());
  }

  // --------------------------------------------------------- reading reports

  /** The domain's translation of a receipt status into a report. Artifacts are
      looked up for a success only, and a success without one is an error. */
  function AdapterReport(plan: Plan, step: Step, status: Status, d: Domain): (r: Result<Report, PlanError>)
    ensures r.Ok? ==> r.value.stepId == step.stepId && r.value.status == status
    ensures r.Ok? && status == Succeeded ==> r.value.artifactRefs != []
  {
    var job := JobOf(plan, step);
    var refs := if status == Succeeded && job in d.refs then d.refs[job] else [];
    if job in d.refusing then Err(PlanError("Result is not accessible"))
    else if status == Succeeded && refs == [] then
      Err(PlanError("Success receipt is not proof of a usable artifact"))
    else Ok(Report(plan.planId, step.stepId, job, status, refs))
  }

  /** live_reports over the first n steps */
  function LiveUpTo(row: Row, n: nat, d: Domain): Result<seq<Report>, PlanError>
    requires n <= |row.plan.steps|
  {
    if n == 0 then Ok([])
    else
      var before :- LiveUpTo(row, n - 1, d);
      var step := row.plan.steps[n - 1];
      if step.stepId !in row.reports then Ok(before)
      else
        var stored := row.reports[step.stepId];
        if stored.planId != row.plan.planId || stored.stepId != step.stepId
          || stored.jobId != JobOf(row.plan, step) then
          Err(PlanError("Stored report identity is invalid"))
        else
          var report :- AdapterReport(row.plan, step, stored.status, d);
          Ok(before + [report])
  }

  function LiveReports(row: Row, d: Domain): Result<seq<Report>, PlanError> {
    LiveUpTo(row, |row.plan.steps|, d)
  }

  method ReadLiveReports(row: Row, d: Domain) returns (reports: Result<seq<Report>, PlanError>)
    ensures reports == LiveReports(row, d)
  {
    var out: seq<Report> := [];
    for i := 0 to |row.plan.steps|
      invariant LiveUpTo(row, i, d) == Ok(out)
    {
      var step := row.plan.steps[i];
      if LiveUpTo(row, i + 1, d).Err? {
        LiveErrorSticks(row, i + 1, d);
      }
      if step.stepId in row.reports {
        var stored := row.reports[step.stepId];
        if stored.planId != row.plan.planId || stored.stepId != step.stepId || stored.jobId != JobOf(row.plan, step) {
          return Err(PlanError("Stored report identity is invalid"));
        }
        var report := AdapterReport(row.plan, step, stored.status, d);
        if report.Err? {
          return Err(report.error);
        }
        out := out + [report.value];
      }
    }
    reports := Ok(out);
  }

  lemma {:induction false} LiveErrorSticks(row: Row, n: nat, d: Domain)
    requires n <= |row.plan.steps| && LiveUpTo(row, n, d).Err?
    ensures LiveReports(row, d) == LiveUpTo(row, n, d)
    decreases |row.plan.steps| - n
  {
    if n < |row.plan.steps| {
      LiveErrorSticks(row, n + 1, d);
    }
  }

  /** Steps with a stored success. */
  function Succ(row: Row): set<string> {
    set id | id in row.reports && row.reports[id].status == Succeeded :: id
  }

  /** The report is that of a stored step, with the stored status. */
  predicate Reflects(row: Row, r: Report) {
    Belongs(row.plan, r) && r.stepId in row.reports && r.status == row.reports[r.stepId].status
      && (r.status == Succeeded ==> r.artifactRefs != [])
  }

  ghost predicate LiveShape(row: Row, ids: set<string>, rs: seq<Report>) {
    && Distinct(rs) && (forall r :: r in rs ==> Reflects(row, r))
    && Reported(rs) == ids * row.reports.Keys && ReadySet(rs) == ids * Succ(row)
  }

  lemma LiveShapeExtends(row: Row, ids: set<string>, rs: seq<Report>, r: Report)
    requires LiveShape(row, ids, rs) && Reflects(row, r) && r.stepId !in ids
    ensures LiveShape(row, ids + {r.stepId}, rs + [r])
  {
    AppendReport(rs, r);
    forall i | 0 <= i < |rs| ensures rs[i].stepId != r.stepId {
      assert rs[i].stepId in Reported(rs);
    }
    assert Reported(rs + [r]) == (ids + {r.stepId}) * row.reports.Keys;
    assert ReadySet(rs + [r]) == (ids + {r.stepId}) * Succ(row);
  }

  /** One step of the reading loop. */
  lemma LiveStep(row: Row, n: nat, d: Domain)
    requires 0 < n <= |row.plan.steps| && OrderOk(row.plan.steps) && LiveUpTo(row, n, d).Ok?
    ensures LiveUpTo(row, n - 1, d).Ok?
    ensures
      var id := row.plan.steps[n - 1].stepId;
      var before, after := LiveUpTo(row, n - 1, d).value, LiveUpTo(row, n, d).value;
      if id in row.reports then
        exists r :: after == before + [r] && r.stepId == id && Reflects(row, r)
      else after == before
  {
  }

  lemma NothingLive(row: Row)
    ensures LiveShape(row, StepIds([]), [])
  {
  }

  lemma {:induction false} LiveUpToFacts(row: Row, n: nat, d: Domain)
    requires n <= |row.plan.steps| && OrderOk(row.plan.steps) && LiveUpTo(row, n, d).Ok?
    ensures LiveShape(row, StepIds(row.plan.steps[..n]), LiveUpTo(row, n, d).value)
  {
    hide OrderOk, LiveShape, AdapterReport, Reflects, StepIds;
    if n == 0 {
      NothingLive(row);
      assert row.plan.steps[..n] == [];
    } else {
      LiveStep(row, n, d);
      LiveUpToFacts(row, n - 1, d);
      LiveShapeGrows(row, n, LiveUpTo(row, n - 1, d).value, LiveUpTo(row, n, d).value);
    }
  }

  lemma LiveShapeGrows(row: Row, n: nat, before: seq<Report>, after: seq<Report>)
    requires 0 < n <= |row.plan.steps| && OrderOk(row.plan.steps)
    requires LiveShape(row, StepIds(row.plan.steps[..n - 1]), before)
    requires
      var id := row.plan.steps[n - 1].stepId;
      if id in row.reports then exists r :: after == before + [r] && r.stepId == id && Reflects(row, r)
      else after == before
    ensures LiveShape(row, StepIds(row.plan.steps[..n]), after)
  {
    var step := row.plan.steps[n - 1];
    var ids := StepIds(row.plan.steps[..n - 1]);
    assert row.plan.steps[..n] == row.plan.steps[..n - 1] + [step];
    StepIdsAppend(row.plan.steps[..n - 1], step);
    if step.stepId in row.reports {
      var r :| after == before + [r] && r.stepId == step.stepId && Reflects(row, r);
      LiveShapeExtends(row, ids, before, r);
    } else {
      assert (ids + {step.stepId}) * row.reports.Keys == ids * row.reports.Keys;
      assert (ids + {step.stepId}) * Succ(row) == ids * Succ(row);
    }
  }

  lemma AppendReport(rs: seq<Report>, r: Report)
    ensures Reported(rs + [r]) == Reported(rs) + {r.stepId}
    ensures ReadySet(rs + [r]) ==
      ReadySet(rs) + (if r.status == Succeeded && r.artifactRefs != [] then {r.stepId} else {})
  {
  }

  /** Reading the journal yields one report per stored step, and a step counts
      as ready exactly when its stored report is a success. */
  lemma LiveFacts(row: Row, d: Domain)
    requires OrderOk(row.plan.steps) && LiveReports(row, d).Ok?
    ensures LiveShape(row, StepIds(row.plan.steps), LiveReports(row, d).value)
  {
    LiveUpToFacts(row, |row.plan.steps|, d);
    assert row.plan.steps[..|row.plan.steps|] == row.plan.steps;
  }

  // -------------------------------------------------------- stored commands

  predicate PayloadOk(registry: Registry, kind: string, payload: Json) {
    kind in registry && payload.Obj? && payload.fields.Keys == registry[kind]
  }

  /** stored_command: the approved executable payload, never a template. */
  function StoredCommand(row: Row, step: Step, registry: Registry): Result<Command, PlanError> {
    var template := TemplateCommand(row.plan, step);
    if step.inputBinding.None? then Ok(template)
    else if step.stepId !in row.compiled then Err(PlanError("Consuming command has not been durably compiled"))
    else
      var pinned := row.compiled[step.stepId].command;
      if pinned.(payload := template.payload) != template then Err(PlanError("Pinned command identity changed"))
      else if !PayloadOk(registry, step.workKind, pinned.payload) then Err(PlanError("Invalid payload fields"))
      else Ok(template.(payload := pinned.payload))
  }

  function FindReady(reports: seq<Report>, id: string): (found: Option<Report>)
    ensures found.Some? ==> found.value in reports && found.value.stepId == id
    ensures found.Some? ==> found.value.status == Succeeded && found.value.artifactRefs != []
  {
    if reports == [] then None
    else if reports[0].stepId == id && reports[0].status == Succeeded && reports[0].artifactRefs != []
      then Some(reports[0])
    else FindReady(reports[1..], id)
  }

  predicate NonBlank(s: string) {
    s != "" && Stripped(s)
  }

  /** resolve_artifact_binding's checks on what the domain resolved. */
  predicate ResolvedOk(b: Binding, source: Source, a: Resolved, producer: Option<JobId>) {
    && a.schema == b.schema && a.ready && !a.stale
    && a.sourceId == source.sourceId && a.sourceRevision == source.revision && a.sourceChecksum == source.checksum
    && NonBlank(a.artifactId) && NonBlank(a.revision) && NonBlank(a.fingerprint)
    && (if b.kind == "artifact" then a.artifactId == b.reference && a.revision == b.revision
        else a.producerJob == producer)
  }

  /** _resolve */
  function ResolveInput(row: Row, step: Step, d: Domain): Result<Resolved, PlanError>
    requires step.inputBinding.Some?
  {
    var b := step.inputBinding.value;
    if b.kind == "step" then
      var reports :- LiveReports(row, d);
      var producing := FindReady(reports, b.reference);
      var producer := FindStep(row.plan.steps, b.reference);
      if producing.None? || producer.None? then Err(PlanError("Input producing dependency is not ready"))
      else if (row.planId, step.stepId) !in d.inputs then Err(PlanError("Input cannot be resolved"))
      else
        var a := d.inputs[(row.planId, step.stepId)];
        if !ResolvedOk(b, row.plan.request.source, a, Some(JobOf(row.plan, producer.value))) then
          Err(PlanError("Artifact is not a ready input for the authorized source"))
        else if a.artifactId !in producing.value.artifactRefs then
          Err(PlanError("Input artifact is outside the approved producing report"))
        else Ok(a)
    else if (row.planId, step.stepId) !in d.inputs then Err(PlanError("Input cannot be resolved"))
    else if !ResolvedOk(b, row.plan.request.source, d.inputs[(row.planId, step.stepId)], None) then
      Err(PlanError("Artifact is not a ready input for the authorized source"))
    else Ok(d.inputs[(row.planId, step.stepId)])
  }

  /** validate_compiled_input */
  function CompiledInput(row: Row, step: Step, d: Domain): Result<Command, PlanError>
    requires step.inputBinding.Some?
  {
    var command :- StoredCommand(row, step, d.registry);
    var artifact :- ResolveInput(row, step, d);
    if row.compiled[step.stepId].input != artifact then
      Err(PlanError("Pinned command input changed; create a new request"))
    else if (row.planId, step.stepId) !in d.approves then Err(PlanError("Compiled command rejected"))
    else Ok(command)
  }

  /** prepare_step_command, the transaction before any send. */
  function Prepare(row: Row, stepId: string, d: Domain): Result<Row, PlanError> {
    var found := FindStep(row.plan.steps, stepId);
    if found.None? then Err(PlanError("Unknown plan step"))
    else if found.value.inputBinding.None? then Ok(row)
    else if row.planId !in d.admitted then Err(PlanError("Submission is not admitted"))
    else
      var step := found.value;
      var reports :- LiveReports(row, d);
      if !Done(ReadySet(reports), step.dependsOn) then Err(PlanError("Step dependencies are not ready"))
      else if stepId in row.compiled then
        var command :- CompiledInput(row, step, d);
        Ok(row)
      else
        var artifact :- ResolveInput(row, step, d);
        if (row.planId, stepId) !in d.payloads then Err(PlanError("Command cannot be compiled"))
        else
          var payload := d.payloads[(row.planId, stepId)];
          if !PayloadOk(d.registry, step.workKind, payload) then Err(PlanError("Invalid payload fields"))
          else if (row.planId, stepId) !in d.approves then Err(PlanError("Compiled command rejected"))
          else
            var command := TemplateCommand(row.plan, step).(payload := payload);
            Ok(row.(compiled := row.compiled[stepId := Compiled(command, artifact)]))
  }

  // ------------------------------------------------------------ publication

  /** One broker message: task arguments, envelope and plan headers. */
  datatype Message = Message(
    planId: string, stepId: string, jobId: JobId, parentJobId: JobId, workKind: string, payload: Json, deadlineAt: real)

  function MessageFor(row: Row, step: Step, command: Command): Message {
    Message(row.planId, step.stepId, command.jobId, ParentJob(row.plan, step),
            command.workKind, command.payload, command.deadlineAt)
  }

  datatype Publication = Nothing | Send(message: Message)

  function ReportOf(reports: seq<Report>, id: string): (found: Option<Report>)
    ensures found.Some? ==> found.value in reports && found.value.stepId == id
    ensures found.None? ==> id !in Reported(reports)
  {
    if reports == [] then None
    else if reports[0].stepId == id then Some(reports[0])
    else
      assert forall r :: r in reports ==> r == reports[0] || r in reports[1..];
      ReportOf(reports[1..], id)
  }

  /** The locked part of publish_step up to the send. */
  function Publish(row: Row, stepId: string, replay: bool, d: Domain): Result<Publication, PlanError> {
    var found := FindStep(row.plan.steps, stepId);
    if row.preparation then Err(PlanError("Preparation plans cannot publish work"))
    else if found.None? then Err(PlanError("Unknown plan step"))
    else if stepId !in row.deliveries || row.deliveries[stepId].jobId != JobOf(row.plan, found.value) then
      Err(PlanError("Delivery identity mismatch"))
    else if row.deliveries[stepId].publishedAt.Some? && !replay then Ok(Nothing)
    else if row.planId !in d.admitted then Err(PlanError("Submission is not admitted"))
    else
      var step := found.value;
      var reports :- LiveReports(row, d);
      var current := ReportOf(reports, stepId);
      if current.Some? && (current.value.status == Succeeded || !replay) then Ok(Nothing)
      else if !Done(ReadySet(reports), step.dependsOn) then Err(PlanError("Step dependencies are not ready"))
      else
        var command :- if step.inputBinding.Some?
          then CompiledInput(row, step, d) else Ok(TemplateCommand(row.plan, step));
        if !PayloadOk(d.registry, command.workKind, command.payload) then Err(PlanError("Invalid payload fields"))
        else Ok(Send(MessageFor(row, step, command)))
  }

  /** How the send and the commit after it turn out. */
  datatype Fate = Commits | SendFails | SentThenRolledBack

  function MarkPublished(row: Row, stepId: string, now: real): Row
    requires stepId in row.deliveries
  {
    var delivery := row.deliveries[stepId].(publishedAt := Some(now), publishError := "");
    var row' := row.(deliveries := row.deliveries[stepId := delivery], publishError := "");
    if row.plan.steps != [] && stepId == row.plan.steps[0].stepId then row'.(publishedAt := Some(now)) else row'
  }

  function Clip(message: string): string {
    if |message| > 1000 then message[..1000] else message
  }

  /** The except branch: remember why, on the delivery and on the row. */
  function Noted(row: Row, stepId: string, message: string): Row {
    row.(publishError := Clip(message),
         deliveries := if stepId in row.deliveries
                       then row.deliveries[stepId := row.deliveries[stepId].(publishError := Clip(message))]
                       else row.deliveries)
  }

  type PublishResult = (Row, seq<Message>, Result<(), PlanError>)

  /** The locked transaction and, if it fails, the note left behind. */
  function SendOutcome(row: Row, stepId: string, replay: bool, d: Domain, now: real, fate: Fate): PublishResult {
    match Publish(row, stepId, replay, d)
    case Err(e) => (Noted(row, stepId, e.message), [], Err(e))
    case Ok(Nothing) => (row, [], Ok(()))
    case Ok(Send(m)) =>
      match fate
      case Commits => (MarkPublished(row, stepId, now), [m], Ok(()))
      case SendFails => (Noted(row, stepId, "Broker unavailable"), [], Err(PlanError("Broker unavailable")))
      case SentThenRolledBack => (Noted(row, stepId, "Commit failed"), [m], Err(PlanError("Commit failed")))
  }

  /** publish_step as a whole: row afterwards, messages sent, success. */
  function PublishStepOutcome(row: Row, stepId: string, replay: bool, d: Domain, now: real, fate: Fate): PublishResult {
    if row.preparation then
      (Noted(row, stepId, "Preparation plans cannot publish work"), [],
        Err(PlanError("Preparation plans cannot publish work")))
    else match Prepare(row, stepId, d)
      case Err(e) => (Noted(row, stepId, e.message), [], Err(e))
      case Ok(prepared) => SendOutcome(prepared, stepId, replay, d, now, fate)
  }

  // -------------------------------------------------------- authorization

  datatype Envelope = Envelope(
    jobId: JobId, workKind: string, payload: Json, planId: Option<string>, stepId: Option<string>,
    parentJobId: Option<JobId>, deadlineAt: Option<real>)

  function EnvelopeOf(m: Message): Envelope {
    Envelope(m.jobId, m.workKind, m.payload, Some(m.planId), Some(m.stepId), Some(m.parentJobId), Some(m.deadlineAt))
  }

  /** _approved_delivery: identity of the stored command, not permission. */
  function ApprovedDelivery(row: Row, e: Envelope, registry: Registry): (r: Result<Step, PlanError>)
    ensures r.Ok? ==> e.planId == Some(row.planId) && e.stepId == Some(r.value.stepId) && !row.preparation
    ensures r.Ok? ==> FindStep(row.plan.steps, r.value.stepId) == Some(r.value) && e.jobId == JobOf(row.plan, r.value)
  {
    if e.planId != Some(row.planId) then Err(PlanError("Reported plan identity changed"))
    else if row.preparation then Err(PlanError("Preparation plans cannot authorize execution"))
    else if e.stepId.None? || FindStep(row.plan.steps, e.stepId.value).None? then Err(PlanError("Unknown plan step"))
    else
      var step := FindStep(row.plan.steps, e.stepId.value).value;
      var command :- StoredCommand(row, step, registry);
      if e.workKind != command.workKind || e.jobId != command.jobId || e.payload != command.payload
         || e.deadlineAt != Some(command.deadlineAt)
         || (e.parentJobId.Some? && e.parentJobId.value != ParentJob(row.plan, step)) then
        Err(PlanError("Command is outside the stored approved step"))
      else if step.stepId !in row.deliveries || row.deliveries[step.stepId].jobId != command.jobId then
        Err(PlanError("Delivery does not exist"))
      else if step.dependsOn != [] && e.parentJobId != Some(ParentJob(row.plan, step)) then
        Err(PlanError("Child command is missing its approved lineage"))
      else Ok(step)
  }

  /** PlanDelivery.authorize */
  function AuthorizeRow(row: Row, e: Envelope, d: Domain): bool {
    var step := ApprovedDelivery(row, e, d.registry);
    var reports := LiveReports(row, d);
    && step.Ok? && row.planId in d.admitted
    && reports.Ok? && Done(ReadySet(reports.value), step.value.dependsOn)
  }

  type Rows = map<string, Row>

  /** The envelope carries a plan or step id. */
  predicate Marked(e: Envelope) {
    (e.planId.Some? && e.planId.value != "") || (e.stepId.Some? && e.stepId.value != "")
  }

  /** The envelope claims to be planned, or names a job the journal knows. */
  predicate Planned(rows: Rows, e: Envelope) {
    || Marked(e)
    || exists p :: p in rows && (rows[p].jobId == e.jobId
         || exists s :: s in rows[p].deliveries && rows[p].deliveries[s].jobId == e.jobId)
  }

  /** authorize_if_planned lets the envelope through. */
  predicate Authorized(rows: Rows, e: Envelope, d: Domain) {
    Planned(rows, e) ==> e.planId.Some? && e.planId.value in rows && AuthorizeRow(rows[e.planId.value], e, d)
  }

  // ---------------------------------------------------------------- recording

  /** approved_commands over the first n steps: those whose payload is final. */
  function ApprovedUpTo(row: Row, n: nat, registry: Registry): Result<seq<Command>, PlanError>
    requires n <= |row.plan.steps|
  {
    if n == 0 then Ok([])
    else
      var before :- ApprovedUpTo(row, n - 1, registry);
      var step := row.plan.steps[n - 1];
      if step.inputBinding.Some? && step.stepId !in row.compiled then Ok(before)
      else
        var command :- StoredCommand(row, step, registry);
        Ok(before + [command])
  }

  function ApprovedCommands(row: Row, registry: Registry): Result<seq<Command>, PlanError> {
    ApprovedUpTo(row, |row.plan.steps|, registry)
  }

  function WithReport(row: Row, report: Report, followups: seq<Proposal>): Row {
    row.(reports := row.reports[report.stepId := report], proposals := row.proposals[report.stepId := followups])
  }

  predicate AllFollowupsOk(registry: Registry, proposals: map<string, seq<Proposal>>) {
    forall id, p :: id in proposals && p in proposals[id] ==> FollowupOk(registry, p)
  }

  /** The first half of record_response: check the response against the stored
      step and put its report and proposals into the row. */
  function Accept(row: Row, e: Envelope, response: Receipt, d: Domain): Result<Row, PlanError> {
    var step :- ApprovedDelivery(row, e, d.registry);
    if exists p :: p in response.followups && !FollowupOk(d.registry, p) then
      Err(PlanError("Invalid executor followup envelope"))
    else if response.jobId != JobOf(row.plan, step) || response.workKind != step.workKind then
      Err(PlanError("Receipt identity does not match plan step"))
    else
      var report :- AdapterReport(row.plan, step, response.status, d);
      if step.stepId in row.reports && row.reports[step.stepId].status == Succeeded && report.status != Succeeded then
        Err(PlanError("A successful step cannot regress"))
      else Ok(WithReport(row, report, response.followups))
  }

  function Decisions(row: Row, reports: seq<Report>, commands: seq<Command>): map<string, seq<Decision>> {
    map id | id in row.proposals :: DecideAll(row.plan, row.proposals[id], Some(id), reports, commands)
  }

  /** The second half: outcome and decisions over the reports as they are now. */
  function Settle(row: Row, d: Domain): Result<Row, PlanError> {
    var reports :- LiveReports(row, d);
    var outcome :- CompletionCandidate(row.plan, reports);
    var commands :- ApprovedCommands(row, d.registry);
    if !AllFollowupsOk(d.registry, row.proposals) then Err(PlanError("Invalid executor followup envelope"))
    else Ok(row.(outcome := Some(outcome), decisions := Decisions(row, reports, commands)))
  }

  /** record_response. A response carries a receipt's identity, status and
      follow-ups. */
  function Record(row: Row, e: Envelope, response: Receipt, d: Domain): Result<Row, PlanError> {
    var accepted :- Accept(row, e, response, d);
    Settle(accepted, d)
  }

  // -------------------------------------------------------------- submission

  datatype Submission = Submission(
    plan: Plan, actor: int, workspace: int, deadlineAt: Option<real>, preparation: bool)

  function NewRow(s: Submission): Row
    requires s.plan.steps != []
  {
    Row(s.plan.planId, s.plan.request.requestId, JobOf(s.plan, s.plan.steps[0]), s.workspace, s.actor,
        s.plan.request.source.sourceId, s.plan, s.preparation,
        map[], map[], map[], None, map[], None, "", map[])
  }

  /** The requested plan is the stored one up to its id and deadline. */
  predicate SamePlan(stored: Plan, asked: Plan) {
    && stored.steps == asked.steps && stored.request.source == asked.request.source
    && stored.request.requiredSchemas == asked.request.requiredSchemas
    && stored.request.maxSteps == asked.request.maxSteps
    && stored.generation == asked.generation && stored.version == asked.version
  }

  function WithDeliveries(row: Row): Row {
    row.(deliveries := map id | id in StepIds(row.plan.steps) ::
           if id in row.deliveries then row.deliveries[id]
           else Delivery(JobOf(row.plan, FindStep(row.plan.steps, id).value), None, ""))
  }

  predicate DeliveriesMatch(row: Row) {
    forall id :: id in row.deliveries ==>
      FindStep(row.plan.steps, id).Some?
        && row.deliveries[id].jobId == JobOf(row.plan, FindStep(row.plan.steps, id).value)
  }

  /** What get_or_create finds: the row of this workspace and request id. */
  function SubmittedRow(rows: Rows, requests: map<(int, string), string>, s: Submission): Option<Row>
    requires s.plan.steps != []
  {
    var key := (s.workspace, s.plan.request.requestId);
    if key in requests then (if requests[key] in rows then Some(rows[requests[key]]) else None)
    else if s.plan.planId in rows then None
    else Some(NewRow(s))
  }

  /** submit_plan accepts `row`, found or just created, for this submission. */
  ghost predicate SubmitAccepts(row: Row, s: Submission, d: Domain) {
    && row.preparation == s.preparation
    && row.createdBy == s.actor && row.sourceUid == s.plan.request.source.sourceId
    && LoadOk(row) && SamePlan(row.plan, s.plan)
    && (s.deadlineAt.Some? ==> row.plan.request.deadlineAt == s.deadlineAt.value)
    && row.planId in d.admitted
    && DeliveriesMatch(row)
  }

  ghost predicate SubmitOk(rows: Rows, requests: map<(int, string), string>, s: Submission, d: Domain) {
    && 0 < |s.plan.request.requestId| <= 64 && s.plan.steps != []
    && SubmittedRow(rows, requests, s).Some?
    && SubmitAccepts(SubmittedRow(rows, requests, s).value, s, d)
  }
}
