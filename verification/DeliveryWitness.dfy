/** Runs of the protocol: a one-step plan can be carried from submission to a
    recorded completion, and an operator's release can leave an executor behind. */
module DeliveryWitness {
  import opened Wrappers
  import opened Plans
  import opened Control
  import opened Receipts
  import opened Submissions
  import opened DeliveryProtocol
  import opened DeliveryTheorems
  import opened DeliveryExclusion

  /** A plan of one step without inputs from other steps. */
  predicate OneStep(plan: Plan) {
    && |plan.steps| == 1 && plan.version == 1 && plan.request.maxSteps >= 1 && 0 < |plan.request.requestId| <= 64
    && 0 < |plan.steps[0].stepId| <= 64 && plan.steps[0].dependsOn == [] && plan.steps[0].inputBinding.None?
    && plan.steps[0].payload.Obj?
    && forall schema :: schema in plan.request.requiredSchemas ==> schema == plan.steps[0].outputSchema
  }

  function Only(plan: Plan): Step
    requires OneStep(plan)
  {
    plan.steps[0]
  }

  /** A domain that lets this plan through and has an artifact for its job. */
  function Open(plan: Plan): Domain
    requires OneStep(plan)
  {
    Domain(map[Only(plan).workKind := Only(plan).payload.fields.Keys], {plan.planId},
           map[JobOf(plan, Only(plan)) := ["artifact"]], {}, map[], map[], {})
  }

  function Request(plan: Plan): Submission {
    Submission(plan, 0, 0, None, false)
  }

  lemma OneStepFacts(plan: Plan)
    requires OneStep(plan)
    ensures OrderOk(plan.steps) && BindingsValid(plan) && StepIds(plan.steps) == {Only(plan).stepId}
    ensures FindStep(plan.steps, Only(plan).stepId) == Some(Only(plan))
  {
    assert plan.steps == [Only(plan)] && plan.steps[..0] == [];
    assert Only(plan) in plan.steps;
    NoIds();
  }

  /** A journal row of the plan: one delivery, nothing compiled. */
  ghost predicate RowOf(row: Row, plan: Plan)
    requires OneStep(plan)
  {
    && row.plan == plan && row.planId == plan.planId && !row.preparation
    && row.deliveries.Keys == {Only(plan).stepId} && row.deliveries[Only(plan).stepId].jobId == JobOf(plan, Only(plan))
  }

  lemma NothingReported(row: Row, plan: Plan)
    requires OneStep(plan) && RowOf(row, plan) && row.reports == map[]
    ensures LiveReports(row, Open(plan)) == Ok([])
  {
    assert LiveUpTo(row, 0, Open(plan)) == Ok([]);
  }

  lemma SubmitFirst(plan: Plan) returns (row: Row, s: State)
    requires OneStep(plan)
    ensures Next(Initial, Submit(Request(plan), Open(plan)), s)
    ensures RowOf(row, plan) && row.reports == map[] && row.proposals == map[]
      && row.deliveries[Only(plan).stepId].publishedAt.None?
    ensures s.rows == map[plan.planId := row] && s.table == map[] && s.sessions == map[] && s.wins == []
      && s.starts == []
  {
    OneStepFacts(plan);
    var created := NewRow(Request(plan));
    row := WithDeliveries(created);
    assert row.deliveries.Keys == {Only(plan).stepId};
    s := Initial.(rows := Initial.rows[plan.planId := row],
                  requests := Initial.requests[(0, plan.request.requestId) := plan.planId]);
    assert SubmitAccepts(created, Request(plan), Open(plan));
    assert SubmittedRow(Initial.rows, Initial.requests, Request(plan)) == Some(created);
  }

  lemma PublishFirst(s: State, row: Row, plan: Plan) returns (m: Message, t: State, row': Row)
    requires OneStep(plan) && RowOf(row, plan) && row.reports == map[]
      && row.deliveries[Only(plan).stepId].publishedAt.None?
    requires s.rows == map[plan.planId := row]
    ensures Next(s, PublishCommand(plan.planId, Only(plan).stepId, false, Open(plan), 0.0, Commits), t)
    ensures m == MessageFor(row, Only(plan), TemplateCommand(plan, Only(plan))) && m in t.wire
    ensures RowOf(row', plan) && row'.reports == row.reports && row'.proposals == row.proposals
    ensures t.rows == map[plan.planId := row'] && t == s.(rows := t.rows, wire := t.wire, sent := t.sent)
  {
    OneStepFacts(plan);
    NothingReported(row, plan);
    var step := Only(plan);
    m := MessageFor(row, step, TemplateCommand(plan, step));
    assert Publish(row, step.stepId, false, Open(plan)) == Ok(Send(m));
    row' := MarkPublished(row, step.stepId, 0.0);
    MarkShape(row, step.stepId, 0.0);
    t := s.(rows := s.rows[plan.planId := row'], wire := s.wire + {m}, sent := s.sent + {m});
  }

  /** Whoever got the message may act on it. */
  lemma MessageAuthorizes(rows: Rows, row: Row, plan: Plan, m: Message)
    requires OneStep(plan) && RowOf(row, plan) && row.reports == map[] && rows == map[plan.planId := row]
    requires m == MessageFor(row, Only(plan), TemplateCommand(plan, Only(plan)))
    ensures Authorized(rows, EnvelopeOf(m), Open(plan))
    ensures ApprovedDelivery(row, EnvelopeOf(m), Open(plan).registry) == Ok(Only(plan))
  {
    OneStepFacts(plan);
    NothingReported(row, plan);
    assert StoredCommand(row, Only(plan), Open(plan).registry) == Ok(TemplateCommand(plan, Only(plan)));
  }

  function Ask(plan: Plan): ClaimRequest
    requires OneStep(plan)
  {
    ClaimRequest(JobOf(plan, Only(plan)), Only(plan).workKind, "target", Only(plan).payload, {}, Some(EmptySnapshot),
      None)
  }

  lemma ReceiveFirst(s: State, row: Row, plan: Plan, m: Message) returns (t: State)
    requires OneStep(plan) && RowOf(row, plan) && row.reports == map[] && s.rows == map[plan.planId := row]
    requires m == MessageFor(row, Only(plan), TemplateCommand(plan, Only(plan))) && s.sessions == map[]
    ensures Next(s, Receive(0, EnvelopeOf(m), Open(plan)), t)
    ensures t == s.(sessions := map[0 := Session(EnvelopeOf(m), Admitted)])
  {
    MessageAuthorizes(s.rows, row, plan, m);
    t := s.(sessions := s.sessions[0 := Session(EnvelopeOf(m), Admitted)]);
  }

  lemma ClaimFirst(s: State, row: Row, plan: Plan, m: Message) returns (t: State)
    requires OneStep(plan) && m == MessageFor(row, Only(plan), TemplateCommand(plan, Only(plan)))
    requires s.sessions == map[0 := Session(EnvelopeOf(m), Admitted)] && s.table == map[]
    ensures
      var receipt := Fresh(Ask(plan));
      && Next(s, ClaimJob(0, Ask(plan), map[receipt.jobId := receipt], Ok(Claim(receipt, true))), t)
      && t.rows == s.rows && t.wins == s.wins && t.starts == s.starts && t.table == map[receipt.jobId := receipt]
      && t.sessions == map[0 := Session(EnvelopeOf(m), Holding(Capture(receipt)))]
  {
    var receipt := Fresh(Ask(plan));
    assert ClaimStep(s.table, Ask(plan), s.table[receipt.jobId := receipt], Ok(Claim(receipt, true)));
    t := s.(table := map[receipt.jobId := receipt], shown := s.shown + {receipt},
            sessions := s.sessions[0 := Session(EnvelopeOf(m), Holding(Capture(receipt)))]);
  }

  lemma ExecuteFirst(s: State, row: Row, plan: Plan, m: Message) returns (t: State, u: State)
    requires OneStep(plan) && RowOf(row, plan) && row.reports == map[] && s.rows == map[plan.planId := row]
    requires m == MessageFor(row, Only(plan), TemplateCommand(plan, Only(plan)))
    requires
      var receipt := Fresh(Ask(plan));
      s.table == map[receipt.jobId := receipt]
        && s.sessions == map[0 := Session(EnvelopeOf(m), Holding(Capture(receipt)))]
    ensures Next(s, EnterHandler(0, Open(plan), m.deadlineAt - 1.0), t) && Next(t, Finish(0, Null, []), u)
    ensures u.rows == s.rows && Receipts.Completed(Fresh(Ask(plan)), Null, []) in u.shown
    ensures u.wins == s.wins + [JobOf(plan, Only(plan))]
  {
    MessageAuthorizes(s.rows, row, plan, m);
    var receipt := Fresh(Ask(plan));
    t := s.(sessions := s.sessions[0 := Session(EnvelopeOf(m), Executing(Capture(receipt)))],
            starts := s.starts + [Start(receipt.jobId, 1)]);
    var done := Receipts.Completed(receipt, Null, []);
    u := t.(sessions := t.sessions - {0}, table := t.table[receipt.jobId := done], shown := t.shown + {done},
            wins := t.wins + [receipt.jobId]);
    assert AfterComplete(receipt, Capture(receipt), Null, []) == Some(done);
  }

  lemma RecordFirst(s: State, row: Row, plan: Plan, m: Message) returns (t: State)
    requires OneStep(plan) && RowOf(row, plan) && row.reports == map[] && row.proposals == map[]
      && s.rows == map[plan.planId := row]
    requires m == MessageFor(row, Only(plan), TemplateCommand(plan, Only(plan)))
    requires Receipts.Completed(Fresh(Ask(plan)), Null, []) in s.shown
    ensures Next(s, RecordResponse(EnvelopeOf(m), Receipts.Completed(Fresh(Ask(plan)), Null, []), Open(plan)), t)
    ensures plan.planId in t.rows && t.rows[plan.planId].outcome == Some(Outcome.Completed) && t.wins == s.wins
  {
    OneStepFacts(plan);
    MessageAuthorizes(s.rows, row, plan, m);
    var step, response, d := Only(plan), Receipts.Completed(Fresh(Ask(plan)), Null, []), Open(plan);
    var report := Report(plan.planId, step.stepId, JobOf(plan, step), Succeeded, ["artifact"]);
    var mid := WithReport(row, report, []);
    assert Accept(row, EnvelopeOf(m), response, d) == Ok(mid);
    OneReport(mid, plan, report);
    var settled := Settle(mid, d).value;
    t := s.(rows := s.rows[plan.planId := settled]);
  }

  lemma OneReport(mid: Row, plan: Plan, report: Report)
    requires OneStep(plan) && RowOf(mid, plan) && mid.reports == map[Only(plan).stepId := report]
    requires mid.proposals == map[Only(plan).stepId := []]
    requires report == Report(plan.planId, Only(plan).stepId, JobOf(plan, Only(plan)), Succeeded, ["artifact"])
    ensures Settle(mid, Open(plan)).Ok? && Settle(mid, Open(plan)).value.outcome == Some(Outcome.Completed)
  {
    OneStepFacts(plan);
    var d, step := Open(plan), Only(plan);
    assert LiveUpTo(mid, 0, d) == Ok([]);
    assert AdapterReport(plan, step, Succeeded, d) == Ok(report);
    assert LiveReports(mid, d) == Ok([] + [report]);
    assert [] + [report] == [report];
    assert step in plan.steps && report in [report];
    assert ReadySet([report]) == {step.stepId};
    assert forall r :: r in [report] ==> Belongs(plan, r);
    assert RequestedOutputsReady(plan, [report]) == Ok(true);
    assert ApprovedUpTo(mid, 0, d.registry) == Ok([]);
    assert ApprovedCommands(mid, d.registry).Ok?;
  }

  /** MAIN RESULT. Every one-step plan has a run that completes it: submitted,
      sent, received, claimed, executed once and recorded. */
  lemma CanComplete(plan: Plan) returns (states: seq<State>, events: seq<Event>)
    requires OneStep(plan)
    ensures Run(states, events)
    ensures
      var last := states[|events|];
      && plan.planId in last.rows && last.rows[plan.planId].outcome == Some(Outcome.Completed)
      && last.wins == [JobOf(plan, Only(plan))]
  {
    hide Next, OneStep, RowOf;
    var row0, s1 := SubmitFirst(plan);
    var m, s2, row := PublishFirst(s1, row0, plan);
    var s3 := ReceiveFirst(s2, row, plan, m);
    var s4 := ClaimFirst(s3, row, plan, m);
    var s5, s6 := ExecuteFirst(s4, row, plan, m);
    var s7 := RecordFirst(s6, row, plan, m);
    states := [Initial, s1, s2, s3, s4, s5, s6, s7];
    var receipt := Fresh(Ask(plan));
    events := [Submit(Request(plan), Open(plan)),
               PublishCommand(plan.planId, Only(plan).stepId, false, Open(plan), 0.0, Commits),
               Receive(0, EnvelopeOf(m), Open(plan)),
               ClaimJob(0, Ask(plan), map[receipt.jobId := receipt], Ok(Claim(receipt, true))),
               EnterHandler(0, Open(plan), m.deadlineAt - 1.0), Finish(0, Null, []),
               RecordResponse(EnvelopeOf(m), Receipts.Completed(receipt, Null, []), Open(plan))];
  }

  // ------------------------------------------------- an executor left behind

  function Held(plan: Plan): Receipt
    requires OneStep(plan)
  {
    Fresh(Ask(plan))
  }

  /** The receipt as the operator gives it up. */
  function GivenUp(plan: Plan): Receipt
    requires OneStep(plan)
  {
    FailedAs(Held(plan), "MANUALLY_RELEASED", true, None)
  }

  function Again(plan: Plan): Receipt
    requires OneStep(plan)
  {
    Restarted(GivenUp(plan))
  }

  /** The receipt is released under the executor that holds it. */
  lemma ReleaseHeld(s: State, plan: Plan, m: Message) returns (t: State)
    requires OneStep(plan) && s.table == map[Held(plan).jobId := Held(plan)]
    ensures Next(s, Release(Held(plan).jobId), t)
    ensures t.table == map[Held(plan).jobId := GivenUp(plan)] && t == s.(table := t.table, shown := t.shown)
  {
    t := s.(table := s.table[Held(plan).jobId := GivenUp(plan)], shown := s.shown + {GivenUp(plan)});
  }

  /** Another executor receives the message too, and claims the job. */
  lemma SecondClaim(s: State, row: Row, plan: Plan, m: Message) returns (t: State, u: State)
    requires OneStep(plan) && RowOf(row, plan) && row.reports == map[] && s.rows == map[plan.planId := row]
    requires m == MessageFor(row, Only(plan), TemplateCommand(plan, Only(plan)))
    requires s.sessions == map[0 := Session(EnvelopeOf(m), Holding(Capture(Held(plan))))]
    requires s.table == map[Held(plan).jobId := GivenUp(plan)]
    ensures
      && Next(s, Receive(1, EnvelopeOf(m), Open(plan)), t)
      && Next(t, ClaimJob(1, Ask(plan), map[Held(plan).jobId := Again(plan)], Ok(Claim(Again(plan), true))), u)
    ensures u.rows == s.rows && u.table == map[Held(plan).jobId := Again(plan)] && u.starts == s.starts
      && u.wins == s.wins
    ensures u.sessions ==
      map[0 := Session(EnvelopeOf(m), Holding(Capture(Held(plan)))),
        1 := Session(EnvelopeOf(m), Holding(Capture(Again(plan))))]
  {
    MessageAuthorizes(s.rows, row, plan, m);
    t := s.(sessions := s.sessions[1 := Session(EnvelopeOf(m), Admitted)]);
    var table := s.table[Held(plan).jobId := Again(plan)];
    assert table == map[Held(plan).jobId := Again(plan)];
    assert ClaimStep(t.table, Ask(plan), table, Ok(Claim(Again(plan), true)));
    u := t.(table := table, shown := t.shown + {Again(plan)},
            sessions := t.sessions[1 := Session(EnvelopeOf(m), Holding(Capture(Again(plan))))]);
  }

  /** The second one finishes, and only then the first one enters the handler. */
  lemma FirstEntersLast(s: State, row: Row, plan: Plan, m: Message) returns (t: State, u: State, v: State)
    requires OneStep(plan) && RowOf(row, plan) && row.reports == map[] && s.rows == map[plan.planId := row]
    requires m == MessageFor(row, Only(plan), TemplateCommand(plan, Only(plan)))
    requires s.table == map[Held(plan).jobId := Again(plan)] && s.starts == [] && s.wins == []
    requires s.sessions ==
      map[0 := Session(EnvelopeOf(m), Holding(Capture(Held(plan)))),
        1 := Session(EnvelopeOf(m), Holding(Capture(Again(plan))))]
    ensures Next(s, EnterHandler(1, Open(plan), m.deadlineAt - 1.0), t) && Next(t, Finish(1, Null, []), u)
    ensures Next(u, EnterHandler(0, Open(plan), m.deadlineAt - 1.0), v)
    ensures v.wins == [Held(plan).jobId] && v.starts == [Start(Held(plan).jobId, 2), Start(Held(plan).jobId, 1)]
    ensures v.table == map[Held(plan).jobId := Receipts.Completed(Again(plan), Null, [])]
    ensures v.sessions == map[0 := Session(EnvelopeOf(m), Executing(Capture(Held(plan))))]
  {
    MessageAuthorizes(s.rows, row, plan, m);
    var job, done := Held(plan).jobId, Receipts.Completed(Again(plan), Null, []);
    t := s.(sessions := s.sessions[1 := Session(EnvelopeOf(m), Executing(Capture(Again(plan))))],
      starts := s.starts + [Start(job, 2)]);
    u := t.(sessions := t.sessions - {1}, table := t.table[job := done], shown := t.shown + {done},
      wins := t.wins + [job]);
    assert AfterComplete(Again(plan), Capture(Again(plan)), Null, []) == Some(done);
    v := u.(sessions := u.sessions[0 := Session(EnvelopeOf(m), Executing(Capture(Held(plan))))],
      starts := u.starts + [Start(job, 1)]);
  }

  /** MAIN RESULT. Every one-step plan has a run in which a receipt is released
      under the executor that holds it; two executors then hold the job at once,
      and the one left behind enters the handler after the other one succeeded. */
  lemma CanBeLeftBehind(plan: Plan) returns (states: seq<State>, events: seq<Event>)
    requires OneStep(plan)
    ensures Run(states, events)
    ensures
      var job, last := JobOf(plan, Only(plan)), states[|events|];
      && (exists k :: 0 <= k < |events| && Acts(states[k], 0) && Acts(states[k], 1)
            && JobOfProc(states[k], 0) == JobOfProc(states[k], 1) == job)
      && last.starts == [Start(job, 2), Start(job, 1)] && last.wins == [job]
      && Acts(last, 0) && !Owns(last, 0, job)
  {
    hide Next, OneStep, RowOf;
    var row0, s1 := SubmitFirst(plan);
    var m, s2, row := PublishFirst(s1, row0, plan);
    var s3 := ReceiveFirst(s2, row, plan, m);
    var s4 := ClaimFirst(s3, row, plan, m);
    var s5 := ReleaseHeld(s4, plan, m);
    var s6, s7 := SecondClaim(s5, row, plan, m);
    var s8, s9, s10 := FirstEntersLast(s7, row, plan, m);
    states := [Initial, s1, s2, s3, s4, s5, s6, s7, s8, s9, s10];
    var job, e, d, now := Held(plan).jobId, EnvelopeOf(m), Open(plan), m.deadlineAt - 1.0;
    events := [Submit(Request(plan), d), PublishCommand(plan.planId, Only(plan).stepId, false, d, 0.0, Commits),
               Receive(0, e, d), ClaimJob(0, Ask(plan), map[job := Held(plan)], Ok(Claim(Held(plan), true))),
               Release(job), Receive(1, e, d),
               ClaimJob(1, Ask(plan), map[job := Again(plan)], Ok(Claim(Again(plan), true))),
               EnterHandler(1, d, now), Finish(1, Null, []), EnterHandler(0, d, now)];
    assert Acts(states[7], 0) && Acts(states[7], 1);
  }
}
