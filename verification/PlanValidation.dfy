/** app/orchestration/plans.py, validate_plan: what a plan must satisfy before it
    is submitted, and that its inputs then have a source. */
module PlanValidation {
  import opened Wrappers
  import opened Plans
  import opened Control

  /** The answers of the deployment and of the owning domain. */
  datatype Checks = Checks(
    now: real,
    currentSource: Option<Source>,   // authorize_source, None if it raises
    generation: string,              // of the active deployment
    registered: set<string>,         // steps whose payload, work route, function and provider pass
    resolvable: set<string>)         // steps whose bound artifact resolves

  predicate DistinctTexts(s: seq<string>) {
    forall i, j :: 0 <= i < j < |s| ==> s[i] != s[j]
  }

  predicate HeaderOk(plan: Plan, c: Checks) {
    && plan.planId != "" && plan.request.requestId != ""
    && plan.request.deadlineAt > c.now
    && plan.request.maxSteps >= 1 && 0 < |plan.steps| <= plan.request.maxSteps
    && plan.request.requiredSchemas != [] && plan.request.source.sourceId != "" && plan.request.source.revision != ""
    && c.currentSource == Some(plan.request.source)
    && plan.generation == c.generation
  }

  /** Where an unbound step's input comes from: the source, or a dependency. */
  ghost predicate InputHasSource(plan: Plan, before: seq<Step>, step: Step) {
    if step.inputBinding.Some? then step.inputSchema == step.inputBinding.value.schema
    else if step.dependsOn == [] then step.inputSchema == plan.request.source.schema
    else exists p :: p in before && p.stepId in step.dependsOn && p.outputSchema == step.inputSchema
  }

  ghost predicate StepValid(plan: Plan, before: seq<Step>, step: Step, c: Checks) {
    && step.stepId != "" && step.stepId !in StepIds(before)
    && DistinctTexts(step.dependsOn) && (forall d :: d in step.dependsOn ==> d in StepIds(before))
    && step.stepId in c.registered
    && (step.inputBinding.Some? && step.inputBinding.value.kind == "artifact" ==> step.stepId in c.resolvable)
    && InputHasSource(plan, before, step)
  }

  ghost predicate PlanValid(plan: Plan, c: Checks) {
    && BindingsValid(plan) && HeaderOk(plan, c)
    && (forall k :: 0 <= k < |plan.steps| ==> StepValid(plan, plan.steps[..k], plan.steps[k], c))
    && ProvidesRequested(plan)
  }

  method AllDistinct(s: seq<string>) returns (ok: bool)
    ensures ok <==> DistinctTexts(s)
  {
    var seen: set<string> := {};
    for i := 0 to |s|
      invariant forall x :: x in seen <==> x in s[..i]
      invariant DistinctTexts(s[..i])
    {
      if s[i] in seen {
        return false;
      }
      seen := seen + {s[i]};
      assert s[..i + 1] == s[..i] + [s[i]];
    }
    assert s[..|s|] == s;
    ok := true;
  }

  /** validate_plan */
  method ValidatePlan(plan: Plan, c: Checks) returns (ok: Result<(), PlanError>)
    ensures ok.Ok? <==> PlanValid(plan, c)
  {
    hide BindingsValid, LastNamed, StepIds, DistinctTexts, HeaderOk, InputHasSource, UniqueIds;
    assert UniqueIds([]) by { NoneUnique(); }
    var gate := ValidatePlanBindings(plan);
    if gate.Err? {
      return Err(gate.error);
    }
    if !HeaderOk(plan, c) {
      return Err(PlanError("Plan identity, deadline, budget, source or deployment"));
    }
    var seen: map<string, Step> := map[];
    assert plan.steps[..0] == [] && SeenIs(seen, []) by { NoIds(); }
    for i := 0 to |plan.steps|
      invariant SeenIs(seen, plan.steps[..i]) && UniqueIds(plan.steps[..i])
      invariant forall k :: 0 <= k < i ==> StepValid(plan, plan.steps[..k], plan.steps[k], c)
    {
      var step := plan.steps[i];
      var distinct := AllDistinct(step.dependsOn);
      var sourced := InputFound(plan, plan.steps[..i], seen, step);
      if step.stepId == "" || step.stepId in seen || !distinct || exists d | d in step.dependsOn :: d !in seen {
        return Err(PlanError("Dependencies must reference preceding distinct steps"));
      }
      if step.stepId !in c.registered || !sourced
         || (step.inputBinding.Some? && step.inputBinding.value.kind == "artifact" && step.stepId !in c.resolvable) {
        return Err(PlanError("Work, function or input schema does not match"));
      }
      SeenExtends(seen, plan.steps[..i], step);
      UniqueExtends(plan.steps[..i], step);
      assert plan.steps[..i] + [step] == plan.steps[..i + 1];
      seen := seen[step.stepId := step];
    }
    if exists schema | schema in plan.request.requiredSchemas ::
      !exists s | s in plan.steps :: s.outputSchema == schema
    {
      return Err(PlanError("Plan does not provide requested output schemas"));
    }
    ok := Ok(());
  }

  method InputFound(plan: Plan, before: seq<Step>, seen: map<string, Step>, step: Step) returns (found: bool)
    requires SeenIs(seen, before)
    ensures (forall d :: d in step.dependsOn ==> d in seen) && UniqueIds(before) ==>
      (found <==> InputHasSource(plan, before, step))
  {
    if step.inputBinding.Some? {
      return step.inputSchema == step.inputBinding.value.schema;
    }
    if step.dependsOn == [] {
      return step.inputSchema == plan.request.source.schema;
    }
    found := exists d | d in step.dependsOn :: d in seen && seen[d].outputSchema == step.inputSchema;
    if (forall d :: d in step.dependsOn ==> d in seen) && UniqueIds(before) {
      if found {
        var d :| d in step.dependsOn && d in seen && seen[d].outputSchema == step.inputSchema;
        var k :| 0 <= k < |before| && before[k] == seen[d];
      }
      if p :| p in before && p.stepId in step.dependsOn && p.outputSchema == step.inputSchema {
        var k :| 0 <= k < |before| && before[k] == p;
        assert LastNamed(before, p.stepId, p);
        LastNamedUnique(before, p.stepId, p, seen[p.stepId]);
      }
    }
  }

  ghost predicate UniqueIds(steps: seq<Step>) {
    forall i, j :: 0 <= i < j < |steps| ==> steps[i].stepId != steps[j].stepId
  }

  lemma NoneUnique()
    ensures UniqueIds([])
  {
  }

  lemma UniqueExtends(before: seq<Step>, step: Step)
    requires UniqueIds(before) && step.stepId !in StepIds(before)
    ensures UniqueIds(before + [step])
  {
  }

  // ------------------------------------------------------------ what it gives

  /** Names as the journal stores them are at most 64 characters. */
  predicate ShortIds(plan: Plan) {
    forall s :: s in plan.steps ==> |s.stepId| <= 64
  }

  /** MAIN RESULT. A validated plan whose names fit the journal has the order and
      the outputs that progress rests on: while it only succeeds, there is always
      a step to publish until it is completed. */
  lemma ValidPlansProgress(plan: Plan, c: Checks, reports: seq<Report>)
    requires PlanValid(plan, c) && ShortIds(plan)
    requires Distinct(reports) && (forall r :: r in reports ==> Belongs(plan, r)) && AllSucceeded(reports)
    ensures OrderOk(plan.steps)
    ensures CompletionCandidate(plan, reports) != Ok(Completed) ==>
      ReadySteps(plan, reports).Ok? && ReadySteps(plan, reports).value != []
  {
    ValidIsOrdered(plan, c);
    hide PlanValid, OrderOk, ReadySteps, CompletionCandidate, ProvidesRequested, Belongs;
    Provides(plan, c);
    if CompletionCandidate(plan, reports) != Ok(Completed) {
      Progress(plan, reports);
    }
  }

  lemma Provides(plan: Plan, c: Checks)
    requires PlanValid(plan, c)
    ensures ProvidesRequested(plan)
  {
  }

  lemma ValidIsOrdered(plan: Plan, c: Checks)
    requires PlanValid(plan, c) && ShortIds(plan)
    ensures OrderOk(plan.steps)
  {
  }

  /** Each step of the chain feeds the one before it with the schema it takes; the
      last takes the plan's own source or a bound artifact. */
  ghost predicate FeedChain(plan: Plan, chain: seq<Step>) {
    && chain != [] && (forall k :: 0 <= k < |chain| ==> chain[k] in plan.steps)
    && (forall k :: 0 <= k < |chain| - 1 ==>
          chain[k + 1].stepId in chain[k].dependsOn && chain[k + 1].outputSchema == chain[k].inputSchema)
    && Grounded(plan, chain[|chain| - 1])
  }

  predicate Grounded(plan: Plan, step: Step) {
    || (step.inputBinding.None? && step.dependsOn == [] && step.inputSchema == plan.request.source.schema)
    || (step.inputBinding.Some? && step.inputBinding.value.kind == "artifact")
  }

  /** MAIN RESULT. In a validated plan the input of every step can be traced back,
      schema by schema through declared dependencies, to the authorized source or
      to an artifact the domain resolved. */
  lemma {:induction false} InputsAreGrounded(plan: Plan, c: Checks, i: nat)
    requires PlanValid(plan, c) && i < |plan.steps|
    ensures exists chain :: chain != [] && FeedChain(plan, chain) && chain[0] == plan.steps[i]
    decreases i
  {
    hide PlanValid, Grounded, FeedChain;
    var step := plan.steps[i];
    if Grounded(plan, step) {
      ChainOne(plan, step);
    } else {
      var j := Feeder(plan, c, i);
      InputsAreGrounded(plan, c, j);
      var rest :| rest != [] && FeedChain(plan, rest) && rest[0] == plan.steps[j];
      ChainCons(plan, step, rest);
    }
  }

  lemma ChainOne(plan: Plan, step: Step)
    requires step in plan.steps && Grounded(plan, step)
    ensures FeedChain(plan, [step])
  {
  }

  lemma ChainCons(plan: Plan, step: Step, rest: seq<Step>)
    requires FeedChain(plan, rest) && step in plan.steps
    requires rest[0].stepId in step.dependsOn && rest[0].outputSchema == step.inputSchema
    ensures FeedChain(plan, [step] + rest)
  {
  }

  lemma StepFacts(plan: Plan, c: Checks, i: nat)
    requires PlanValid(plan, c) && i < |plan.steps|
    ensures InputHasSource(plan, plan.steps[..i], plan.steps[i]) && LineageOk(plan.steps[..i], plan.steps[i])
  {
  }

  /** The earlier step an ungrounded step takes its input from. */
  lemma Feeder(plan: Plan, c: Checks, i: nat) returns (j: nat)
    requires PlanValid(plan, c) && i < |plan.steps| && !Grounded(plan, plan.steps[i])
    ensures j < i && plan.steps[j].stepId in plan.steps[i].dependsOn
    ensures plan.steps[j].outputSchema == plan.steps[i].inputSchema
  {
    StepFacts(plan, c, i);
    hide PlanValid;
    j := FeederIn(plan, plan.steps[..i], plan.steps[i]);
  }

  lemma FeederIn(plan: Plan, before: seq<Step>, step: Step) returns (j: nat)
    requires InputHasSource(plan, before, step) && LineageOk(before, step) && !Grounded(plan, step)
    ensures j < |before| && before[j].stepId in step.dependsOn && before[j].outputSchema == step.inputSchema
  {
    if step.inputBinding.Some? {
      var p :| LastNamed(before, step.inputBinding.value.reference, p)
        && p.outputSchema == step.inputBinding.value.schema;
      j :| 0 <= j < |before| && before[j] == p;
    } else {
      var p :| p in before && p.stepId in step.dependsOn && p.outputSchema == step.inputSchema;
      j :| 0 <= j < |before| && before[j] == p;
    }
  }
}
