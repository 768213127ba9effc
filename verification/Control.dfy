/** app/orchestration/control.py with the readiness half of plans.py and
    submissions.py: outcome of a plan, steps that may go next, and decisions on
    proposed follow-ups. */
module Control {
  import opened Wrappers
  import opened Plans

  // ------------------------------------------------------------- readiness

  /** Steps whose success comes with a usable artifact. */
  function ReadySet(reports: seq<Report>): set<string> {
    set r | r in reports && r.status == Succeeded && r.artifactRefs != [] :: r.stepId
  }

  function Reported(reports: seq<Report>): set<string> {
    set r | r in reports :: r.stepId
  }

  predicate Distinct(reports: seq<Report>) {
    forall i, j :: 0 <= i < j < |reports| ==> reports[i].stepId != reports[j].stepId
  }

  /** The report names a step of this plan and carries that step's identity. */
  predicate Belongs(plan: Plan, r: Report) {
    && r.planId == plan.planId
    && match FindStep(plan.steps, r.stepId)
       case Some(step) => r.jobId == JobOf(plan, step)
       case None => false
  }

  function Done(ready: set<string>, deps: seq<string>): bool {
    forall d :: d in deps ==> d in ready
  }

  /** requested_outputs_ready */
  function RequestedOutputsReady(plan: Plan, reports: seq<Report>): Result<bool, PlanError> {
    if !Distinct(reports) then Err(PlanError("Duplicate step report"))
    else if exists r :: r in reports && !Belongs(plan, r) then
      Err(PlanError("Report belongs to another plan or step"))
    else
      var ready := ReadySet(reports);
      if exists s :: s in plan.steps && s.stepId in ready && !Done(ready, s.dependsOn) then Ok(false)
      else Ok(forall schema :: schema in plan.request.requiredSchemas ==>
                exists s :: s in plan.steps && s.stepId in ready && s.outputSchema == schema)
  }

  datatype Outcome = Completed | FailedOutcome | Pending

  /** completion_candidate */
  function CompletionCandidate(plan: Plan, reports: seq<Report>): Result<Outcome, PlanError> {
    var ready :- RequestedOutputsReady(plan, reports);
    Ok(if ready then Completed
       else if exists r :: r in reports && r.status == Failed then FailedOutcome
       else Pending)
  }

  function Eligible(steps: seq<Step>, reported: set<string>, ready: set<string>): (out: seq<Step>)
    ensures forall s :: s in out <==> s in steps && s.stepId !in reported && Done(ready, s.dependsOn)
  {
    if steps == [] then []
    else
      var rest := Eligible(steps[1..], reported, ready);
      if steps[0].stepId !in reported && Done(ready, steps[0].dependsOn) then [steps[0]] + rest else rest
  }

  /** ready_steps */
  function ReadySteps(plan: Plan, reports: seq<Report>): Result<seq<Step>, PlanError> {
    var outcome :- CompletionCandidate(plan, reports);
    Ok(if outcome == Completed then [] else Eligible(plan.steps, Reported(reports), ReadySet(reports)))
  }

  // --------------------------------------------------------- outcome is sound

  /** chain[0] depends on chain[1], which depends on chain[2], and so on. */
  predicate DependencyChain(plan: Plan, chain: seq<string>) {
    && chain != []
    && forall k :: 0 <= k < |chain| - 1 ==>
         FindStep(plan.steps, chain[k]).Some? && chain[k + 1] in FindStep(plan.steps, chain[k]).value.dependsOn
  }

  lemma {:induction false} ChainReady(plan: Plan, reports: seq<Report>, chain: seq<string>)
    requires RequestedOutputsReady(plan, reports) == Ok(true)
    requires DependencyChain(plan, chain) && chain[0] in ReadySet(reports)
    ensures chain[|chain| - 1] in ReadySet(reports)
  {
    if |chain| > 1 {
      var step := FindStep(plan.steps, chain[0]).value;
      assert Done(ReadySet(reports), step.dependsOn);
      ChainReady(plan, reports, chain[1..]);
    }
  }

  /** The step is ready, and so is whatever any chain of dependencies reaches. */
  ghost predicate AncestryReady(plan: Plan, id: string, reports: seq<Report>) {
    && id in ReadySet(reports)
    && forall chain :: DependencyChain(plan, chain) && chain[0] == id ==>
         chain[|chain| - 1] in ReadySet(reports)
  }

  /** MAIN RESULT. "completed" means each requested schema is output by a ready
      step whose dependencies, direct and transitive, are all ready. */
  lemma CompletedIsSound(plan: Plan, reports: seq<Report>, schema: string)
    requires CompletionCandidate(plan, reports) == Ok(Completed)
    requires schema in plan.request.requiredSchemas
    ensures exists s :: s in plan.steps && s.outputSchema == schema && AncestryReady(plan, s.stepId, reports)
  {
    var s :| s in plan.steps && s.stepId in ReadySet(reports) && s.outputSchema == schema;
    forall chain | DependencyChain(plan, chain) && chain[0] == s.stepId
      ensures chain[|chain| - 1] in ReadySet(reports)
    {
      ChainReady(plan, reports, chain);
    }
  }

  // --------------------------------------------------------------- progress

  /** Every report so far is a success backed by an artifact. */
  predicate AllSucceeded(reports: seq<Report>) {
    forall r :: r in reports ==> r.status == Succeeded && r.artifactRefs != []
  }

  /** validate_plan: the requested schemas are outputs of the plan. */
  predicate ProvidesRequested(plan: Plan) {
    forall schema :: schema in plan.request.requiredSchemas ==>
      exists s :: s in plan.steps && s.outputSchema == schema
  }

  lemma {:induction false} FirstMissing(steps: seq<Step>, done: set<string>) returns (i: nat)
    requires exists s :: s in steps && s.stepId !in done
    ensures i < |steps| && steps[i].stepId !in done
    ensures forall k :: 0 <= k < i ==> steps[k].stepId in done
  {
    if steps[0].stepId !in done {
      i := 0;
    } else {
      var s :| s in steps && s.stepId !in done;
      assert s in steps[1..];
      var j := FirstMissing(steps[1..], done);
      i := j + 1;
      forall k | 0 <= k < i ensures steps[k].stepId in done {
        assert k > 0 ==> steps[k] == steps[1..][k - 1];
      }
    }
  }

  lemma ReadyIsReported(reports: seq<Report>)
    requires AllSucceeded(reports)
    ensures ReadySet(reports) == Reported(reports)
  {
  }

  lemma AllDoneCompletes(plan: Plan, reports: seq<Report>)
    requires OrderOk(plan.steps) && ProvidesRequested(plan)
    requires Distinct(reports) && (forall r :: r in reports ==> Belongs(plan, r))
    requires forall s :: s in plan.steps ==> s.stepId in ReadySet(reports)
    ensures CompletionCandidate(plan, reports) == Ok(Completed)
  {
  }

  /** The first step not done has everything it depends on behind it. */
  lemma FirstMissingIsDone(steps: seq<Step>, done: set<string>, i: nat)
    requires OrderOk(steps) && i < |steps|
    requires forall k :: 0 <= k < i ==> steps[k].stepId in done
    ensures Done(done, steps[i].dependsOn)
  {
  }

  /** MAIN RESULT. A validated plan that is not completed and has only
      successes so far always has a step to publish. */
  lemma Progress(plan: Plan, reports: seq<Report>)
    requires OrderOk(plan.steps) && ProvidesRequested(plan)
    requires Distinct(reports) && (forall r :: r in reports ==> Belongs(plan, r))
    requires AllSucceeded(reports)
    requires CompletionCandidate(plan, reports) != Ok(Completed)
    ensures ReadySteps(plan, reports).Ok? && ReadySteps(plan, reports).value != []
  {
    ReadyIsReported(reports);
    var done := ReadySet(reports);
    if forall s :: s in plan.steps ==> s.stepId in done {
      AllDoneCompletes(plan, reports);
    }
    var i := FirstMissing(plan.steps, done);
    FirstMissingIsDone(plan.steps, done, i);
    assert plan.steps[i] in Eligible(plan.steps, Reported(reports), done);
  }

  lemma SubsetCard<T>(a: set<T>, b: set<T>)
    requires a <= b
    ensures |a| <= |b|
  {
    assert b == a + (b - a);
  }

  lemma {:induction false} IdCount(steps: seq<Step>)
    ensures |StepIds(steps)| <= |steps|
  {
    if steps != [] {
      StepIdsCons(steps);
      IdCount(steps[1..]);
    }
  }

  // ------------------------------------------------------------- follow-ups

  /** A follow-up as the executor returns it; parent None is an absent key. */
  datatype Proposal = Proposal(jobId: JobId, workKind: string, payload: Json, parent: Option<JobId>)

  /** Work kinds with the exact argument fields each takes. */
  type Registry = map<string, set<Key>>

  predicate JobIdUsable(j: JobId) {
    j.ForeignJob? ==> 0 < |j.name| <= 64
  }

  /** validate_followups on one entry */
  predicate FollowupOk(registry: Registry, p: Proposal) {
    && p.workKind in registry
    && p.payload.Obj? && p.payload.fields.Keys == registry[p.workKind]
    && JobIdUsable(p.jobId)
  }

  datatype Verdict = Accepted | Rejected | Duplicate | Blocked
  datatype Decision = Decision(jobId: JobId, verdict: Verdict, reason: string)

  /** {command.job_id: command for command in commands}: the last one wins. */
  function ApprovedFor(commands: seq<Command>, job: JobId): (found: Option<Command>)
    ensures found.Some? ==> found.value in commands && found.value.jobId == job
    ensures found.None? ==> forall c :: c in commands ==> c.jobId != job
  {
    if commands == [] then None
    else if commands[|commands| - 1].jobId == job then Some(commands[|commands| - 1])
    else ApprovedFor(commands[..|commands| - 1], job)
  }

  /** The proposal repeats the approved command word for word. */
  predicate SameCommand(plan: Plan, p: Proposal, c: Command, step: Step) {
    && p.workKind == c.workKind && p.payload == c.payload
    && (p.parent.None? || p.parent.value == ParentJob(plan, step))
  }

  function Decide(
    plan: Plan, p: Proposal, fromStep: Option<string>, reports: seq<Report>, commands: seq<Command>): Decision
  {
    var command := ApprovedFor(commands, p.jobId);
    var step := if command.Some? then FindStep(plan.steps, command.value.stepId) else None;
    if step.None? || !SameCommand(plan, p, command.value, step.value) then
      Decision(p.jobId, Rejected, "OUTSIDE_APPROVED_PLAN")
    else if fromStep.None? || step.value.stepId == fromStep.value || step.value.stepId in Reported(reports) then
      Decision(p.jobId, Duplicate, "ALREADY_APPROVED_COMMAND")
    else if fromStep.value !in step.value.dependsOn then
      Decision(p.jobId, Rejected, "INVALID_STEP_LINEAGE")
    else if !Done(ReadySet(reports), step.value.dependsOn) then
      Decision(p.jobId, Blocked, "DEPENDENCIES_NOT_READY")
    else
      Decision(p.jobId, Accepted, "APPROVED_STEP_READY")
  }

  function DecideAll(
    plan: Plan, proposals: seq<Proposal>, fromStep: Option<string>, reports: seq<Report>, commands: seq<Command>)
    : seq<Decision>
  {
    seq(|proposals|, i requires 0 <= i < |proposals| => Decide(plan, proposals[i], fromStep, reports, commands))
  }

  /** decide_proposals */
  method DecideProposals(
    registry: Registry, plan: Plan, proposals: seq<Proposal>, fromStep: Option<string>,
    reports: seq<Report>, commands: seq<Command>)
    returns (decisions: Result<seq<Decision>, PlanError>)
    ensures decisions.Ok? <==> forall p :: p in proposals ==> FollowupOk(registry, p)
    ensures decisions.Ok? ==> decisions.value == DecideAll(plan, proposals, fromStep, reports, commands)
  {
    if exists p | p in proposals :: !FollowupOk(registry, p) {
      return Err(PlanError("Invalid executor followup envelope"));
    }
    var ready := ReadySet(reports);
    var reported := Reported(reports);
    var out: seq<Decision> := [];
    for i := 0 to |proposals|
      invariant out == DecideAll(plan, proposals, fromStep, reports, commands)[..i]
    {
      var p := proposals[i];
      var command := ApprovedFor(commands, p.jobId);
      var step: Option<Step> := None;
      if command.Some? {
        step := FindStep(plan.steps, command.value.stepId);
      }
      var verdict, reason := Rejected, "OUTSIDE_APPROVED_PLAN";
      if step.Some? && SameCommand(plan, p, command.value, step.value) {
        if fromStep.None? || step.value.stepId == fromStep.value || step.value.stepId in reported {
          verdict, reason := Duplicate, "ALREADY_APPROVED_COMMAND";
        } else if fromStep.value !in step.value.dependsOn {
          reason := "INVALID_STEP_LINEAGE";
        } else if !Done(ready, step.value.dependsOn) {
          verdict, reason := Blocked, "DEPENDENCIES_NOT_READY";
        } else {
          verdict, reason := Accepted, "APPROVED_STEP_READY";
        }
      }
      out := out + [Decision(p.jobId, verdict, reason)];
    }
    decisions := Ok(out);
  }

  /** Approved commands as the journal passes them: commands of steps of this
      plan, one per job. */
  predicate CommandsOfPlan(plan: Plan, commands: seq<Command>) {
    && (forall c :: c in commands ==>
          FindStep(plan.steps, c.stepId).Some?
          && c.jobId == JobOf(plan, FindStep(plan.steps, c.stepId).value))
    && forall i, j :: 0 <= i < j < |commands| ==> commands[i].jobId != commands[j].jobId
  }

  /** The follow-up repeats this approved command, of a step that depends on the
      reporting step, has no report yet and has all its dependencies ready. */
  predicate Repeats(plan: Plan, p: Proposal, from: string, reports: seq<Report>, c: Command) {
    && FindStep(plan.steps, c.stepId).Some?
    && c.jobId == p.jobId && c.workKind == p.workKind && c.payload == p.payload
    && var step := FindStep(plan.steps, c.stepId).value;
       && (p.parent.None? || p.parent.value == ParentJob(plan, step))
       && from in step.dependsOn && step.stepId != from
       && step.stepId !in Reported(reports) && Done(ReadySet(reports), step.dependsOn)
  }

  ghost predicate RepeatsOne(plan: Plan, p: Proposal, from: string, reports: seq<Report>, commands: seq<Command>) {
    exists c :: c in commands && Repeats(plan, p, from, reports, c)
  }

  /** A follow-up is accepted exactly when it repeats an approved command. */
  lemma AcceptedExactly(
    plan: Plan, p: Proposal, from: string, reports: seq<Report>, commands: seq<Command>)
    requires CommandsOfPlan(plan, commands)
    ensures Decide(plan, p, Some(from), reports, commands).verdict == Accepted <==>
      RepeatsOne(plan, p, from, reports, commands)
  {
  }
}
