/** Progress of whole runs in which a plan's steps only succeed. */
module DeliveryProgress {
  import opened Wrappers
  import opened Plans
  import opened Control
  import opened Receipts
  import opened Submissions
  import opened DeliveryProtocol
  import opened DeliveryTheorems
  import opened DeliveryDecisions

  /** The event records a response for plan p. */
  predicate RecordsFor(e: Event, p: string) {
    e.RecordResponse? && e.envelope.planId == Some(p)
  }

  /** Whatever is recorded for plan p among the first n events is a success. */
  ghost predicate OnlySuccesses(events: seq<Event>, p: string, n: nat)
    requires n <= |events|
  {
    forall k :: 0 <= k < n && RecordsFor(events[k], p) ==> events[k].response.status == Succeeded
  }

  /** The event records the first response for its step of plan p. */
  predicate RecordsFirst(s: State, e: Event, p: string) {
    && RecordsFor(e, p) && p in s.rows && e.envelope.stepId.Some? && e.envelope.stepId.value !in s.rows[p].reports
  }

  /** How many steps of plan p the first n events recorded a response for. */
  function Recorded(states: seq<State>, events: seq<Event>, p: string, n: nat): nat
    requires n <= |events| && |states| == |events| + 1
  {
    if n == 0 then 0
    else Recorded(states, events, p, n - 1) + (if RecordsFirst(states[n - 1], events[n - 1], p) then 1 else 0)
  }

  predicate AllReportsSucceeded(row: Row) {
    forall id :: id in row.reports ==> row.reports[id].status == Succeeded
  }

  /** A recorded response puts one report into the row: its step's, with its status. */
  lemma RecordedReport(row: Row, e: Envelope, response: Receipt, d: Domain)
    requires Record(row, e, response, d).Ok?
    ensures e.stepId.Some?
    ensures
      var row', id := Record(row, e, response, d).value, e.stepId.value;
      id in row'.reports && row'.reports[id].status == response.status
        && row'.reports == row.reports[id := row'.reports[id]]
  {
    var report := AcceptIs(row, e, response, d);
    SettleFacts(Accept(row, e, response, d).value, d);
    hide Accept, Settle;
  }

  lemma RecordStepReport(s: State, e: Event, s': State, p: string)
    requires Next(s, e, s') && RecordsFor(e, p)
    ensures p in s.rows && p in s'.rows && e.envelope.stepId.Some?
    ensures
      var id := e.envelope.stepId.value;
      && id in s'.rows[p].reports && s'.rows[p].reports[id].status == e.response.status
      && s'.rows[p].reports == s.rows[p].reports[id := s'.rows[p].reports[id]]
  {
    hide Record;
    RecordedReport(s.rows[p], e.envelope, e.response, e.d);
  }

  /** Any other event leaves the plan's reports alone. */
  lemma OtherStepReports(s: State, e: Event, s': State, p: string)
    requires PlanInv(s) && Next(s, e, s') && !RecordsFor(e, p)
    ensures p in s'.rows ==> s'.rows[p].reports == (if p in s.rows then s.rows[p].reports else map[])
    ensures p in s.rows ==> p in s'.rows
  {
    hide PlanInv, Next, RowGrows, RowsInv, ClosedInv, BackedInv, OutcomeInv, ClearedInv, RequestsInv, TableOk,
         TableGrows;
    PlanParts(s);
    StepGrows(s, e, s');
    if e.RecordResponse? {
      RecordShape(s, e, s');
    } else {
      OthersRest(s, e, s');
    }
  }

  lemma {:induction false} RunRecords(states: seq<State>, events: seq<Event>, p: string, n: nat)
    requires Run(states, events) && n <= |events|
    ensures p in states[n].rows ==> Recorded(states, events, p, n) == |states[n].rows[p].reports|
    ensures p !in states[n].rows ==> Recorded(states, events, p, n) == 0
    ensures p in states[n].rows && OnlySuccesses(events, p, n) ==> AllReportsSucceeded(states[n].rows[p])
  {
    hide PlanInv, OnceInv, SentInv, UnmarkedInv, Next;
    if n > 0 {
      RunRecords(states, events, p, n - 1);
      RunKeeps(states, events, n - 1);
      var s, e, s' := states[n - 1], events[n - 1], states[n];
      assert Next(s, e, s');
      assert OnlySuccesses(events, p, n) ==> OnlySuccesses(events, p, n - 1);
      if RecordsFor(e, p) {
        RecordStepReport(s, e, s', p);
      } else {
        OtherStepReports(s, e, s', p);
      }
    }
  }

  /** The live reports of a row with successes only. */
  lemma LiveSucceeded(row: Row, d: Domain)
    requires RowOk(row) && AllReportsSucceeded(row) && LiveReports(row, d).Ok?
    ensures
      var reports := LiveReports(row, d).value;
      Distinct(reports) && AllSucceeded(reports) && forall r :: r in reports ==> Belongs(row.plan, r)
  {
    LiveFacts(row, d);
    hide LiveReports, RowOk, Belongs, Distinct;
  }

  lemma CountReports(row: Row)
    requires RowOk(row)
    ensures |row.reports| <= |row.plan.steps|
  {
    hide BindingsValid, OrderOk, DeliveriesMatch, StepIds;
    SubsetCard(row.reports.Keys, StepIds(row.plan.steps));
    IdCount(row.plan.steps);
    assert |row.reports| == |row.reports.Keys|;
  }

  /** The row is ready to go on: some step without a report is to be published. */
  ghost predicate GoesOn(row: Row, d: Domain) {
    && LiveReports(row, d).Ok? && ReadySteps(row.plan, LiveReports(row, d).value).Ok?
    && exists step :: step in ReadySteps(row.plan, LiveReports(row, d).value).value && step.stepId !in row.reports
  }

  lemma UnfinishedGoesOn(s: State, p: string, d: Domain)
    requires PlanInv(s) && p in s.rows && AllReportsSucceeded(s.rows[p]) && ProvidesRequested(s.rows[p].plan)
    requires LiveReports(s.rows[p], d).Ok? && !SchemasProduced(s.rows[p])
    ensures GoesOn(s.rows[p], d)
  {
    var row := s.rows[p];
    PlanParts(s);
    assert RowOk(row);
    hide PlanInv, RowOk, SchemasProduced, ProvidesRequested, LiveReports, CompletionCandidate, AllReportsSucceeded,
         RowsInv, ClosedInv, ReadySteps;
    RowOrder(row);
    LiveDecides(s.rows, p, d);
    LiveIs(row, d);
    LiveSucceeded(row, d);
    var reports := LiveReports(row, d).value;
    hide OrderOk, Distinct, AllSucceeded, Belongs;
    Progress(row.plan, reports);
    ReadyIsUnreported(row.plan, reports);
    var step := ReadySteps(row.plan, reports).value[0];
    assert step in ReadySteps(row.plan, reports).value;
  }

  lemma ReadyIsUnreported(plan: Plan, reports: seq<Report>)
    requires ReadySteps(plan, reports).Ok?
    ensures forall step :: step in ReadySteps(plan, reports).value ==>
      step in plan.steps && step.stepId !in Reported(reports)
  {
    hide CompletionCandidate, Reported, ReadySet;
  }

  /** MAIN RESULT. In every run that records only successes for a plan which
      provides what it is asked for, at most as many steps are recorded as there
      are; as long as the requested schemas are not all produced a step without a
      report is to be published; and when none is, the plan is completed. */
  lemma RunCompletes(states: seq<State>, events: seq<Event>, n: nat, p: string, d: Domain)
    requires Run(states, events) && n <= |events| && p in states[n].rows
    requires OnlySuccesses(events, p, n) && ProvidesRequested(states[n].rows[p].plan)
    requires LiveReports(states[n].rows[p], d).Ok?
    ensures Recorded(states, events, p, n) == |states[n].rows[p].reports| <= |states[n].rows[p].plan.steps|
    ensures
      var row := states[n].rows[p];
      && (SchemasProduced(row) || GoesOn(row, d))
      && (ReadySteps(row.plan, LiveReports(row, d).value) == Ok([]) ==>
            SchemasProduced(row) && (row.outcome.Some? ==> row.outcome == Some(Outcome.Completed)))
  {
    hide Next, PlanInv, OnceInv, SentInv, UnmarkedInv, OnlySuccesses, ProvidesRequested, SchemasProduced, LiveReports,
         RowOk, AllReportsSucceeded, ReadySteps;
    RunRecords(states, events, p, n);
    RunKeeps(states, events, n);
    PlanParts(states[n]);
    RunKeepsDecisions(states, events, n);
    var row := states[n].rows[p];
    assert RowOk(row) && DecisionsOk(row);
    CountReports(row);
    if !SchemasProduced(row) {
      UnfinishedGoesOn(states[n], p, d);
    }
  }

  /** MAIN RESULT. When every step has its success recorded, such a plan is
      completed. */
  lemma AllRecordedCompletes(states: seq<State>, events: seq<Event>, n: nat, p: string, d: Domain)
    requires Run(states, events) && n <= |events| && p in states[n].rows
    requires OnlySuccesses(events, p, n) && ProvidesRequested(states[n].rows[p].plan)
    requires LiveReports(states[n].rows[p], d).Ok? && Recorded(states, events, p, n) == |states[n].rows[p].plan.steps|
    ensures states[n].rows[p].outcome == Some(Outcome.Completed)
  {
    hide Next, PlanInv, OnceInv, SentInv, UnmarkedInv, OnlySuccesses, ProvidesRequested, SchemasProduced, LiveReports;
    RunCompletes(states, events, n, p, d);
    RunKeeps(states, events, n);
    PlanParts(states[n]);
    RunKeepsDecisions(states, events, n);
    var row := states[n].rows[p];
    assert RowOk(row) && DecisionsOk(row);
    hide RowsInv, ClosedInv, RowOk, Inv, GoesOn, ReadySteps, DecisionsInv;
    EveryStepReported(row);
    NothingGoesOn(row, d);
  }

  lemma NothingGoesOn(row: Row, d: Domain)
    requires row.reports.Keys == StepIds(row.plan.steps)
    ensures !GoesOn(row, d)
  {
    hide ReadySteps, LiveReports, StepIds;
    if GoesOn(row, d) {
      var step :| step in ReadySteps(row.plan, LiveReports(row, d).value).value && step.stepId !in row.reports;
      ReadyIsUnreported(row.plan, LiveReports(row, d).value);
      var k :| 0 <= k < |row.plan.steps| && row.plan.steps[k] == step;
      IdAt(row.plan.steps, k);
    }
  }

  lemma EveryStepReported(row: Row)
    requires RowOk(row) && |row.reports| == |row.plan.steps|
    ensures row.reports.Keys == StepIds(row.plan.steps) && row.reports != map[]
  {
    hide BindingsValid, OrderOk, DeliveriesMatch, StepIds;
    IdCount(row.plan.steps);
    assert |row.reports| == |row.reports.Keys|;
    SameSize(row.reports.Keys, StepIds(row.plan.steps));
  }

  lemma SameSize<T>(a: set<T>, b: set<T>)
    requires a <= b && |b| <= |a|
    ensures a == b
  {
    assert b == a + (b - a);
  }
}
