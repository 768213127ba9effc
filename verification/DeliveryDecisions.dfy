/** What a plan's journal row says of proposed follow-ups, in every state of every
    run: a proposal never expands a plan. */
module DeliveryDecisions {
  import opened Wrappers
  import opened Plans
  import opened Control
  import opened Receipts
  import opened Submissions
  import opened DeliveryProtocol
  import opened DeliveryTheorems

  // ------------------------------------------------------- approved commands

  /** The step's command is final, and this one. */
  predicate Approves(row: Row, step: Step, c: Command) {
    Final(row, step) == Some(c)
  }

  /** approved_commands lists, in plan order, the final command of each step that
      has one. */
  ghost predicate ApprovedAre(row: Row, n: nat, commands: seq<Command>)
    requires n <= |row.plan.steps|
  {
    && (forall c :: c in commands ==> exists k :: 0 <= k < n && Approves(row, row.plan.steps[k], c))
    && (forall k :: 0 <= k < n && Final(row, row.plan.steps[k]).Some? ==>
         Final(row, row.plan.steps[k]).value in commands)
    && forall i, j :: 0 <= i < j < |commands| ==> commands[i].jobId != commands[j].jobId
  }

  lemma FinalNames(row: Row, step: Step)
    ensures Final(row, step).Some? ==>
      Final(row, step).value.stepId == step.stepId && Final(row, step).value.jobId == JobOf(row.plan, step)
      && Final(row, step).value.workKind == step.workKind
  {
  }

  lemma StepsDiffer(steps: seq<Step>, i: nat, j: nat)
    requires OrderOk(steps) && i < j < |steps|
    ensures steps[i].stepId != steps[j].stepId
  {
    IdAt(steps[..j], i);
    assert InOrder(steps[..j], steps[j]);
  }

  lemma ApprovedExtends(row: Row, n: nat, before: seq<Command>, c: Command)
    requires n < |row.plan.steps| && OrderOk(row.plan.steps)
    requires ApprovedAre(row, n, before) && Approves(row, row.plan.steps[n], c)
    ensures ApprovedAre(row, n + 1, before + [c])
  {
    hide Final, OrderOk;
    FinalNames(row, row.plan.steps[n]);
    forall i | 0 <= i < |before| ensures before[i].jobId != c.jobId {
      assert before[i] in before;
      var k :| 0 <= k < n && Approves(row, row.plan.steps[k], before[i]);
      FinalNames(row, row.plan.steps[k]);
      StepsDiffer(row.plan.steps, k, n);
    }
    assert c in before + [c];
    forall x | x in before + [c] ensures exists k :: 0 <= k < n + 1 && Approves(row, row.plan.steps[k], x) {
      assert x in before || x == c;
    }
  }

  lemma ApprovedSkips(row: Row, n: nat, commands: seq<Command>)
    requires n < |row.plan.steps| && ApprovedAre(row, n, commands) && Final(row, row.plan.steps[n]).None?
    ensures ApprovedAre(row, n + 1, commands)
  {
    hide Final;
  }

  lemma {:induction false} ApprovedUpToAre(row: Row, n: nat, registry: Registry)
    requires n <= |row.plan.steps| && OrderOk(row.plan.steps) && ApprovedUpTo(row, n, registry).Ok?
    ensures ApprovedAre(row, n, ApprovedUpTo(row, n, registry).value)
  {
    hide OrderOk, StoredCommand, ApprovedAre;
    if n == 0 {
      assert ApprovedAre(row, 0, []) by { NoneApproved(row); }
    } else {
      ApprovedUpToAre(row, n - 1, registry);
      var step, before := row.plan.steps[n - 1], ApprovedUpTo(row, n - 1, registry).value;
      if step.inputBinding.Some? && step.stepId !in row.compiled {
        ApprovedSkips(row, n - 1, before);
      } else {
        StoredIsFinal(row, step, registry);
        ApprovedExtends(row, n - 1, before, StoredCommand(row, step, registry).value);
      }
    }
  }

  lemma NoneApproved(row: Row)
    ensures ApprovedAre(row, 0, [])
  {
  }

  /** The command is the final one of some step. */
  ghost predicate IsFinal(row: Row, c: Command) {
    exists step :: step in row.plan.steps && Approves(row, step, c)
  }

  lemma ListedIsFinal(row: Row, commands: seq<Command>, c: Command)
    requires ApprovedAre(row, |row.plan.steps|, commands)
    ensures c in commands <==> IsFinal(row, c)
  {
    if c in commands {
      var k :| 0 <= k < |row.plan.steps| && Approves(row, row.plan.steps[k], c);
    }
  }

  /** The step of a final command is the one its id names. */
  lemma FinalStep(row: Row, c: Command) returns (step: Step)
    requires OrderOk(row.plan.steps) && IsFinal(row, c)
    ensures step in row.plan.steps && Approves(row, step, c) && FindStep(row.plan.steps, c.stepId) == Some(step)
    ensures c.jobId == JobOf(row.plan, step)
  {
    step :| step in row.plan.steps && Approves(row, step, c);
    FinalNames(row, step);
    FindIsStep(row.plan.steps, step);
  }

  /** MAIN RESULT. What record_response passes on as approved is one command for
      each step whose command is final, and that final command. */
  lemma ApprovedAreFinal(row: Row, registry: Registry)
    requires OrderOk(row.plan.steps) && ApprovedCommands(row, registry).Ok?
    ensures CommandsOfPlan(row.plan, ApprovedCommands(row, registry).value)
    ensures forall c :: c in ApprovedCommands(row, registry).value <==> IsFinal(row, c)
  {
    var commands := ApprovedCommands(row, registry).value;
    ApprovedListed(row, registry);
    hide OrderOk, ApprovedCommands, IsFinal, Approves, FindStep;
    forall c
      ensures c in commands <==> IsFinal(row, c)
      ensures c in commands ==>
        FindStep(row.plan.steps, c.stepId).Some? && c.jobId == JobOf(row.plan, FindStep(row.plan.steps, c.stepId).value)
    {
      ListedIsFinal(row, commands, c);
      if c in commands {
        var step := FinalStep(row, c);
      }
    }
  }

  lemma ApprovedListed(row: Row, registry: Registry)
    requires OrderOk(row.plan.steps) && ApprovedCommands(row, registry).Ok?
    ensures ApprovedAre(row, |row.plan.steps|, ApprovedCommands(row, registry).value)
  {
    ApprovedUpToAre(row, |row.plan.steps|, registry);
  }

  // --------------------------------------------------------- stored decisions

  /** The proposal repeats, word for word, the final command of a step of the plan
      that depends on `from`, has no stored report and has its dependencies'
      successes stored. */
  ghost predicate Sanctioned(row: Row, from: string, p: Proposal) {
    exists step :: step in row.plan.steps && SanctionedAs(row, from, p, step)
  }

  predicate SanctionedAs(row: Row, from: string, p: Proposal, step: Step) {
    && p.jobId == JobOf(row.plan, step) && Final(row, step).Some?
    && p.workKind == step.workKind && p.payload == Final(row, step).value.payload
    && (p.parent.None? || p.parent.value == ParentJob(row.plan, step))
    && from in step.dependsOn && step.stepId != from
    && step.stepId !in row.reports && Done(Succ(row), step.dependsOn)
  }

  ghost predicate DecisionOk(row: Row, from: string, p: Proposal, decision: Decision) {
    decision.jobId == p.jobId && (decision.verdict == Accepted ==> Sanctioned(row, from, p))
  }

  /** One decision for every stored proposal, and no acceptance but a sanctioned
      one; while there are decisions the outcome is that of the stored successes. */
  ghost predicate DecisionsOk(row: Row) {
    && (forall from :: from in row.decisions ==>
         from in row.proposals && |row.decisions[from]| == |row.proposals[from]|)
    && (forall from, i :: from in row.decisions && 0 <= i < |row.decisions[from]| ==>
          DecisionOk(row, from, row.proposals[from][i], row.decisions[from][i]))
    && (row.outcome.Some? ==> (row.outcome == Some(Outcome.Completed) <==> SchemasProduced(row)))
    && (row.outcome.None? ==> row.reports == map[] && row.decisions == map[])
  }

  ghost predicate DecisionsInv(rows: Rows) {
    forall p :: p in rows ==> DecisionsOk(rows[p])
  }

  /** On a row that just read its live reports, a proposal is accepted exactly if
      it is sanctioned. */
  lemma DecidedExactly(row: Row, from: string, p: Proposal, reports: seq<Report>, commands: seq<Command>)
    requires OrderOk(row.plan.steps)
    requires Reported(reports) == row.reports.Keys && ReadySet(reports) == Succ(row)
    requires CommandsOfPlan(row.plan, commands) && forall c :: c in commands <==> IsFinal(row, c)
    ensures Decide(row.plan, p, Some(from), reports, commands).verdict == Accepted <==> Sanctioned(row, from, p)
    ensures Decide(row.plan, p, Some(from), reports, commands).jobId == p.jobId
  {
    AcceptedExactly(row.plan, p, from, reports, commands);
    RepeatsExactly(row, from, p, reports, commands);
    hide RepeatsOne, Sanctioned, CommandsOfPlan, Reported, ReadySet, OrderOk;
  }

  lemma RepeatsExactly(row: Row, from: string, p: Proposal, reports: seq<Report>, commands: seq<Command>)
    requires OrderOk(row.plan.steps)
    requires Reported(reports) == row.reports.Keys && ReadySet(reports) == Succ(row)
    requires forall c :: c in commands <==> IsFinal(row, c)
    ensures RepeatsOne(row.plan, p, from, reports, commands) <==> Sanctioned(row, from, p)
  {
    hide OrderOk, Repeats, Sanctioned, IsFinal, Reported, ReadySet;
    if Sanctioned(row, from, p) {
      var c := SanctionedRepeats(row, from, p, reports);
    }
    if RepeatsOne(row.plan, p, from, reports, commands) {
      var c :| c in commands && Repeats(row.plan, p, from, reports, c);
      RepeatsSanctioned(row, from, p, reports, c);
    }
  }

  lemma SanctionedRepeats(row: Row, from: string, p: Proposal, reports: seq<Report>) returns (c: Command)
    requires OrderOk(row.plan.steps) && Sanctioned(row, from, p)
    requires Reported(reports) == row.reports.Keys && ReadySet(reports) == Succ(row)
    ensures IsFinal(row, c) && Repeats(row.plan, p, from, reports, c)
  {
    var step :| step in row.plan.steps && SanctionedAs(row, from, p, step);
    c := Final(row, step).value;
    FinalNames(row, step);
    FindIsStep(row.plan.steps, step);
    assert Approves(row, step, c);
    hide OrderOk, Reported, ReadySet, FindStep, IsFinal, Final, Approves;
  }

  lemma RepeatsSanctioned(row: Row, from: string, p: Proposal, reports: seq<Report>, c: Command)
    requires OrderOk(row.plan.steps) && IsFinal(row, c) && Repeats(row.plan, p, from, reports, c)
    requires Reported(reports) == row.reports.Keys && ReadySet(reports) == Succ(row)
    ensures Sanctioned(row, from, p)
  {
    var step := FinalStep(row, c);
    FinalNames(row, step);
    hide OrderOk, Reported, ReadySet, FindStep, Final, IsFinal;
    assert SanctionedAs(row, from, p, step);
  }

  // ------------------------------------------------------------------ recording

  /** Each stored proposal got its decision, and was accepted exactly if it is
      sanctioned. */
  ghost predicate JustDecided(row: Row) {
    && row.decisions.Keys == row.proposals.Keys
    && forall from :: from in row.decisions ==> ListDecided(row, from, row.proposals[from], row.decisions[from])
  }

  ghost predicate ListDecided(row: Row, from: string, proposals: seq<Proposal>, decisions: seq<Decision>) {
    && |decisions| == |proposals|
    && forall i :: 0 <= i < |decisions| ==>
         decisions[i].jobId == proposals[i].jobId
           && (decisions[i].verdict == Accepted <==> Sanctioned(row, from, proposals[i]))
  }

  /** Sanctioning looks at the plan, its compiled commands and the reports. */
  lemma SameSanction(a: Row, b: Row, from: string, p: Proposal)
    requires b.plan == a.plan && b.compiled == a.compiled && b.reports == a.reports
    ensures Sanctioned(a, from, p) <==> Sanctioned(b, from, p)
  {
    if Sanctioned(a, from, p) {
      var step :| step in a.plan.steps && SanctionedAs(a, from, p, step);
      assert SanctionedAs(b, from, p, step);
    }
    if Sanctioned(b, from, p) {
      var step :| step in b.plan.steps && SanctionedAs(b, from, p, step);
      assert SanctionedAs(a, from, p, step);
    }
  }

  lemma ShapeIs(row: Row, reports: seq<Report>)
    requires row.reports.Keys <= StepIds(row.plan.steps) && LiveShape(row, StepIds(row.plan.steps), reports)
    ensures Reported(reports) == row.reports.Keys && ReadySet(reports) == Succ(row)
  {
  }

  lemma DecideAllIs(row: Row, from: string, reports: seq<Report>, commands: seq<Command>, proposals: seq<Proposal>)
    requires OrderOk(row.plan.steps)
    requires Reported(reports) == row.reports.Keys && ReadySet(reports) == Succ(row)
    requires CommandsOfPlan(row.plan, commands) && forall c :: c in commands <==> IsFinal(row, c)
    ensures ListDecided(row, from, proposals, DecideAll(row.plan, proposals, Some(from), reports, commands))
  {
    hide OrderOk, Decide, Sanctioned, IsFinal, CommandsOfPlan, Reported, ReadySet;
    forall i | 0 <= i < |proposals|
      ensures Decide(row.plan, proposals[i], Some(from), reports, commands).jobId == proposals[i].jobId
      ensures Decide(row.plan, proposals[i], Some(from), reports, commands).verdict == Accepted <==>
        Sanctioned(row, from, proposals[i])
    {
      DecidedExactly(row, from, proposals[i], reports, commands);
    }
  }

  lemma SettledDecides(row: Row, d: Domain)
    requires OrderOk(row.plan.steps) && row.reports.Keys <= StepIds(row.plan.steps) && Settle(row, d).Ok?
    ensures JustDecided(Settle(row, d).value)
  {
    var reports, commands := LiveReports(row, d).value, ApprovedCommands(row, d.registry).value;
    var after := Settle(row, d).value;
    assert after == row.(outcome := after.outcome, decisions := Decisions(row, reports, commands));
    hide Settle, LiveReports, ApprovedCommands, OrderOk, DecideAll, Sanctioned, IsFinal, CommandsOfPlan, StepIds,
         LiveShape;
    LiveFacts(row, d);
    ShapeIs(row, reports);
    ApprovedAreFinal(row, d.registry);
    forall from | from in row.proposals ensures ListDecided(after, from, after.proposals[from], after.decisions[from]) {
      DecideAllIs(row, from, reports, commands, row.proposals[from]);
      forall p { SameSanction(row, after, from, p); }
    }
  }

  /** What a recorded response leaves behind. */
  lemma RecordDecides(s: State, e: Event, s': State)
    requires PlanInv(s) && Next(s, e, s') && e.RecordResponse?
    ensures e.envelope.planId.Some? && e.envelope.planId.value in s'.rows
    ensures JustDecided(s'.rows[e.envelope.planId.value]) && DecisionsOk(s'.rows[e.envelope.planId.value])
    ensures forall p :: p in s'.rows && p != e.envelope.planId.value ==> p in s.rows && s'.rows[p] == s.rows[p]
  {
    hide RowsInv, ClosedInv, BackedInv, OutcomeInv, RequestsInv, ClearedInv, ShownInv, Accept, Settle, JustDecided;
    var p := e.envelope.planId.value;
    OutcomeIsLive(s, e, s');
    RecordedDecides(s, e);
    JustDecidedOk(s'.rows[p]);
  }

  lemma RecordedDecides(s: State, e: Event)
    requires PlanInv(s) && e.RecordResponse? && e.envelope.planId.Some? && e.envelope.planId.value in s.rows
    requires Record(s.rows[e.envelope.planId.value], e.envelope, e.response, e.d).Ok?
    ensures JustDecided(Record(s.rows[e.envelope.planId.value], e.envelope, e.response, e.d).value)
  {
    var row := s.rows[e.envelope.planId.value];
    assert RowOk(row) by { PlanParts(s); }
    AcceptFacts(row, e.envelope, e.response, e.d);
    var mid := Accept(row, e.envelope, e.response, e.d).value;
    hide Accept, Settle, PlanInv, JustDecided, BindingsValid, DeliveriesMatch, OrderOk;
    SettledDecides(mid, e.d);
  }

  lemma JustDecidedOk(row: Row)
    requires JustDecided(row) && row.outcome.Some? && (row.outcome == Some(Outcome.Completed) <==> SchemasProduced(row))
    ensures DecisionsOk(row)
  {
    hide Sanctioned, SchemasProduced;
    forall from, i | from in row.decisions && 0 <= i < |row.decisions[from]|
      ensures DecisionOk(row, from, row.proposals[from][i], row.decisions[from][i])
    {
      assert ListDecided(row, from, row.proposals[from], row.decisions[from]);
    }
  }

  // ---------------------------------------------------------- everything else

  /** The row changed in nothing a decision rests on, but for more final commands. */
  ghost predicate Rests(a: Row, b: Row) {
    && b.plan == a.plan && b.reports == a.reports && b.proposals == a.proposals && b.decisions == a.decisions
    && b.outcome == a.outcome
    && forall id :: id in a.compiled ==> id in b.compiled && b.compiled[id] == a.compiled[id]
  }

  lemma RestsKeeps(a: Row, b: Row)
    requires Rests(a, b) && DecisionsOk(a)
    ensures DecisionsOk(b)
  {
    forall from, p | Sanctioned(a, from, p) ensures Sanctioned(b, from, p) {
      var step :| step in a.plan.steps && SanctionedAs(a, from, p, step);
      assert SanctionedAs(b, from, p, step);
    }
    assert SchemasProduced(a) <==> SchemasProduced(b);
    hide Sanctioned, SchemasProduced;
  }

  ghost predicate RowsRest(a: Rows, b: Rows) {
    forall p :: p in b ==>
      if p in a then Rests(a[p], b[p])
      else b[p].reports == map[] && b[p].decisions == map[] && b[p].outcome == None
  }

  lemma OthersRest(s: State, e: Event, s': State)
    requires PlanInv(s) && Next(s, e, s') && !e.RecordResponse?
    ensures RowsRest(s.rows, s'.rows)
  {
    hide PlanInv, Publish, Prepare, RecordStep, ReceiveStep, EnterStep, ReleaseStep, ClaimJobStep, FinishStep,
         AbortStep, SubmitStep, PublishStep;
    match e
    case PublishCommand(_, _, _, _, _, _) => PublishRests(s, e, s');
    case Submit(sub, d) => SubmitRests(s, sub, d, s');
    case PrepareCommand(p, id, d) => PrepareFacts(s.rows[p], id, d);
    case ClaimJob(_, _, _, _) => ClaimRows(s, e, s');
    case Finish(_, _, _) => ClaimRows(s, e, s');
    case Abort(_, _, _, _) => ClaimRows(s, e, s');
    case Receive(_, _, _) => ClaimRows(s, e, s');
    case EnterHandler(_, _, _) => ClaimRows(s, e, s');
    case Release(_) => ClaimRows(s, e, s');
    case _ =>
  }

  lemma PublishRests(s: State, e: Event, s': State)
    requires e.PublishCommand? && PublishStep(s, e, s')
    ensures RowsRest(s.rows, s'.rows)
  {
    hide Publish, MarkPublished, StoredCommand, CompiledInput, LiveReports, FindStep;
    var row := s.rows[e.planId];
    if Publish(row, e.stepId, e.replay, e.d).value.Send? && e.fate == Commits {
      PublishFacts(row, e.stepId, e.replay, e.d);
      MarkShape(row, e.stepId, e.now);
    }
  }

  lemma SubmitRests(s: State, sub: Submission, d: Domain, s': State)
    requires PlanInv(s) && SubmitStep(s, sub, d, s')
    ensures RowsRest(s.rows, s'.rows)
  {
    hide SubmitAccepts, FreshPlanId, PlanInv, WithDeliveries, Rests;
    var row := SubmittedRow(s.rows, s.requests, sub).value;
    DeliveriesOnly(row);
    forall p | p in s.rows ensures Rests(s.rows[p], s.rows[p]) {
      RestsItself(s.rows[p]);
    }
    if (sub.workspace, sub.plan.request.requestId) in s.requests {
      FoundRow(s, sub);
      assert s'.rows == s.rows;
    }
  }

  lemma RestsItself(row: Row)
    ensures Rests(row, row)
  {
  }

  lemma StepKeepsDecisions(s: State, e: Event, s': State)
    requires PlanInv(s) && DecisionsInv(s.rows) && Next(s, e, s')
    ensures DecisionsInv(s'.rows)
  {
    hide PlanInv, Next, DecisionsOk, Rests;
    if e.RecordResponse? {
      RecordDecides(s, e, s');
    } else {
      OthersRest(s, e, s');
      forall p | p in s'.rows ensures DecisionsOk(s'.rows[p]) {
        if p in s.rows {
          RestsKeeps(s.rows[p], s'.rows[p]);
        } else {
          NothingDecided(s'.rows[p]);
        }
      }
    }
  }

  lemma NothingDecided(row: Row)
    requires row.reports == map[] && row.decisions == map[] && row.outcome == None
    ensures DecisionsOk(row)
  {
  }

  lemma {:induction false} RunKeepsDecisions(states: seq<State>, events: seq<Event>, k: nat)
    requires Run(states, events) && k < |states|
    ensures DecisionsInv(states[k].rows)
  {
    hide PlanInv, OnceInv, SentInv, UnmarkedInv, Next, DecisionsOk;
    if k > 0 {
      RunKeepsDecisions(states, events, k - 1);
      RunKeeps(states, events, k - 1);
      assert Next(states[k - 1], events[k - 1], states[k]);
      StepKeepsDecisions(states[k - 1], events[k - 1], states[k]);
    }
  }

  /** Before the plan completes the step is ready for publication, whatever the
      domain answers by then. */
  ghost predicate AboutToPublish(row: Row, job: JobId) {
    exists step :: step in row.plan.steps && JobOf(row.plan, step) == job && forall d :: PublishesNow(row, step, d)
  }

  ghost predicate PublishesNow(row: Row, step: Step, d: Domain) {
    row.outcome != Some(Outcome.Completed) && LiveReports(row, d).Ok? ==>
      ReadySteps(row.plan, LiveReports(row, d).value).Ok?
        && step in ReadySteps(row.plan, LiveReports(row, d).value).value
  }

  /** MAIN RESULT. Proposals never expand a plan. In every state of every run each
      stored decision that accepts a follow-up is about one of the plan's own
      steps: the proposal repeats its final command word for word, the step depends
      on the reporting one, has no report, and everything it depends on has
      succeeded. Unless the plan is completed it is ready for publication. */
  lemma ProposalsNeverExpand(states: seq<State>, events: seq<Event>, k: nat, p: string, from: string, i: nat)
    requires Run(states, events) && k < |states| && p in states[k].rows
    requires from in states[k].rows[p].decisions && i < |states[k].rows[p].decisions[from]|
    ensures
      var row := states[k].rows[p];
      && from in row.proposals && i < |row.proposals[from]|
      && row.decisions[from][i].jobId == row.proposals[from][i].jobId
      && (row.decisions[from][i].verdict == Accepted ==>
            Sanctioned(row, from, row.proposals[from][i]) && AboutToPublish(row, row.proposals[from][i].jobId))
  {
    RunKeepsDecisions(states, events, k);
    RunKeeps(states, events, k);
    PlanParts(states[k]);
    var row := states[k].rows[p];
    assert DecisionsOk(row) && RowOk(row);
    assert DecisionOk(row, from, row.proposals[from][i], row.decisions[from][i]);
    hide Inv, RowOk, Sanctioned, AboutToPublish, DecisionsOk;
    if row.decisions[from][i].verdict == Accepted {
      SanctionedIsReady(states[k], p, from, row.proposals[from][i]);
    }
  }

  lemma SanctionedIsReady(s: State, p: string, from: string, proposal: Proposal)
    requires PlanInv(s) && p in s.rows && DecisionsOk(s.rows[p]) && s.rows[p].outcome.Some?
    requires Sanctioned(s.rows[p], from, proposal)
    ensures AboutToPublish(s.rows[p], proposal.jobId)
  {
    hide PlanInv, DecisionsOk, PublishesNow;
    var row := s.rows[p];
    var step :| step in row.plan.steps && SanctionedAs(row, from, proposal, step);
    forall d ensures PublishesNow(row, step, d) {
      SanctionedNow(s, p, from, proposal, step, d);
    }
  }

  lemma SanctionedNow(s: State, p: string, from: string, proposal: Proposal, step: Step, d: Domain)
    requires PlanInv(s) && p in s.rows && DecisionsOk(s.rows[p]) && s.rows[p].outcome.Some?
    requires step in s.rows[p].plan.steps && SanctionedAs(s.rows[p], from, proposal, step)
    ensures PublishesNow(s.rows[p], step, d)
  {
    var row := s.rows[p];
    PlanParts(s);
    assert RowOk(row) && (row.outcome == Some(Outcome.Completed) <==> SchemasProduced(row));
    hide PlanInv, SanctionedAs, LiveReports, DecisionsOk, RowsInv, ClosedInv, SchemasProduced, CompletionCandidate,
         RowOk, ReadySteps;
    if row.outcome != Some(Outcome.Completed) && LiveReports(row, d).Ok? {
      LiveDecides(s.rows, p, d);
      LiveIs(row, d);
      SanctionedStepReady(row, from, proposal, step, LiveReports(row, d).value);
    }
  }

  lemma LiveIs(row: Row, d: Domain)
    requires RowOk(row) && LiveReports(row, d).Ok?
    ensures Reported(LiveReports(row, d).value) == row.reports.Keys && ReadySet(LiveReports(row, d).value) == Succ(row)
  {
    LiveFacts(row, d);
    ShapeIs(row, LiveReports(row, d).value);
  }

  lemma SanctionedStepReady(row: Row, from: string, proposal: Proposal, step: Step, reports: seq<Report>)
    requires step in row.plan.steps && SanctionedAs(row, from, proposal, step)
    requires Reported(reports) == row.reports.Keys && ReadySet(reports) == Succ(row)
    requires CompletionCandidate(row.plan, reports).Ok?
      && CompletionCandidate(row.plan, reports).value != Outcome.Completed
    ensures ReadySteps(row.plan, reports).Ok? && step in ReadySteps(row.plan, reports).value
  {
    hide CompletionCandidate, Reported, ReadySet;
  }

  /** MAIN RESULT. Right after a response is recorded the decisions are exact: each
      proposal stored with the plan has one, and it accepts exactly the sanctioned
      ones. */
  lemma RecordedDecisions(states: seq<State>, events: seq<Event>, k: nat)
    requires Run(states, events) && k < |events| && events[k].RecordResponse?
    ensures events[k].envelope.planId.Some? && events[k].envelope.planId.value in states[k + 1].rows
    ensures JustDecided(states[k + 1].rows[events[k].envelope.planId.value])
  {
    hide Next, PlanInv, OnceInv, SentInv, UnmarkedInv;
    RunKeeps(states, events, k);
    assert Next(states[k], events[k], states[k + 1]);
    RecordDecides(states[k], events[k], states[k + 1]);
  }
}
