/** Bounded plan delivery as a transition system: journal, broker, executors and
    receipts, with duplicates, losses, crashes and rollbacks at every point.

    Each database transaction is one step. The broker may hand out any message
    it still holds any number of times and in any order, and may forget it.
    Executors also accept envelopes that come from nowhere in particular. */
module DeliveryProtocol {
  import opened Wrappers
  import opened Plans
  import opened Control
  import opened Receipts
  import opened Submissions

  /** An executor process works on one request at a time (its job slot). */
  datatype Phase =
    | Admitted                        // authorize_if_planned passed
    | Holding(owner: Ownership)       // claimed, handler not yet entered
    | Executing(owner: Ownership)     // inside handler.execute

  datatype Session = Session(envelope: Envelope, phase: Phase)

  datatype State = State(
    rows: Rows, requests: map<(int, string), string>,
    wire: set<Message>,              // messages the broker may still deliver
    table: Table,
    sessions: map<int, Session>,
    sent: set<Message>,              // history: every message ever sent
    shown: set<Receipt>,             // history: receipt values a response may carry
    starts: seq<Start>,              // history: handler entries
    wins: seq<JobId>)                // history: running receipts that became succeeded

  const Initial := State(map[], map[], {}, map[], map[], {}, {}, [], [])

  datatype Event =
    | Submit(submission: Submission, d: Domain)
    | PrepareCommand(planId: string, stepId: string, d: Domain)
    | PublishCommand(planId: string, stepId: string, replay: bool, d: Domain, now: real, fate: Fate)
    | NoteError(planId: string, stepId: string, text: string)
    | Forget(message: Message)
    | Receive(proc: int, envelope: Envelope, d: Domain)
    | ClaimJob(proc: int, q: ClaimRequest, table': Table, answer: Result<Claim, ReceiptError>)
    | EnterHandler(proc: int, d: Domain, now: real)
    | Finish(proc: int, result: Json, followups: seq<Proposal>)
    | Abort(proc: int, code: string, retryable: bool, failure: Option<Json>)
    | Crash(proc: int)
    | Release(job: JobId)
    | RecordResponse(envelope: Envelope, response: Receipt, d: Domain)

  // ------------------------------------------------------------------ steps

  /** A new plan id is a fresh uuid4: nothing anywhere was derived from it. */
  ghost predicate FreshPlanId(s: State, planId: string) {
    && planId !in s.rows
    && (forall j :: j in s.table ==> !(j.StepJob? && j.planId == planId))
    && (forall p :: p in s.sessions ==>
          !(s.sessions[p].envelope.jobId.StepJob? && s.sessions[p].envelope.jobId.planId == planId))
  }

  ghost predicate SubmitStep(s: State, sub: Submission, d: Domain, s': State) {
    && SubmitOk(s.rows, s.requests, sub, d)
    && var row := SubmittedRow(s.rows, s.requests, sub).value;
       && (row.planId !in s.rows ==> FreshPlanId(s, row.planId))
       && s' == s.(rows := s.rows[row.planId := WithDeliveries(row)],
                   requests := s.requests[(sub.workspace, sub.plan.request.requestId) := row.planId])
  }

  ghost predicate PrepareStep(s: State, planId: string, stepId: string, d: Domain, s': State) {
    && planId in s.rows && Prepare(s.rows[planId], stepId, d).Ok?
    && s' == s.(rows := s.rows[planId := Prepare(s.rows[planId], stepId, d).value])
  }

  ghost predicate PublishStep(s: State, e: Event, s': State)
    requires e.PublishCommand?
  {
    && e.planId in s.rows
    && var row := s.rows[e.planId];
       && Publish(row, e.stepId, e.replay, e.d).Ok?
       && match Publish(row, e.stepId, e.replay, e.d).value
          case Nothing => s' == s
          case Send(m) =>
            match e.fate
            case Commits => s' == s.(rows := s.rows[e.planId := MarkPublished(row, e.stepId, e.now)],
                                     wire := s.wire + {m}, sent := s.sent + {m})
            case SendFails => s' == s
            case SentThenRolledBack => s' == s.(wire := s.wire + {m}, sent := s.sent + {m})
  }

  ghost predicate ReceiveStep(s: State, proc: int, e: Envelope, d: Domain, s': State) {
    && proc !in s.sessions && Authorized(s.rows, e, d)
    && s' == s.(sessions := s.sessions[proc := Session(e, Admitted)])
  }

  ghost predicate ClaimJobStep(s: State, e: Event, s': State)
    requires e.ClaimJob?
  {
    && e.proc in s.sessions && s.sessions[e.proc].phase == Admitted
    && var envelope := s.sessions[e.proc].envelope;
       && e.q.jobId == envelope.jobId && e.q.workKind == envelope.workKind && e.q.payload == envelope.payload
       && e.q.source.Some? && TargetStable(s.table, e.q)
       && ClaimStep(s.table, e.q, e.table', e.answer)
       && s' == s.(
            table := e.table',
            shown := if e.answer.Ok? then s.shown + {e.answer.value.receipt} else s.shown,
            sessions := if e.answer.Ok? && e.answer.value.shouldExecute
                        then s.sessions[e.proc := Session(envelope, Holding(Capture(e.answer.value.receipt)))]
                        else s.sessions - {e.proc})
  }

  /** validate_execution right before the handler: for a marked envelope the
      authority again, and the deadline. */
  ghost predicate EnterStep(s: State, proc: int, d: Domain, now: real, s': State) {
    && proc in s.sessions && s.sessions[proc].phase.Holding?
    && var session := s.sessions[proc];
       && (Marked(session.envelope) ==> Authorized(s.rows, session.envelope, d))
       && (session.envelope.deadlineAt.Some? ==> now < session.envelope.deadlineAt.value)
       && s' == s.(sessions := s.sessions[proc := session.(phase := Executing(session.phase.owner))],
                   starts := s.starts + [Start(session.phase.owner.jobId, session.phase.owner.attempt)])
  }

  ghost predicate FinishStep(s: State, e: Event, s': State)
    requires e.Finish?
  {
    && e.proc in s.sessions && s.sessions[e.proc].phase.Executing?
    && var owner := s.sessions[e.proc].phase.owner;
       && owner.jobId in s.table
       && var current := s.table[owner.jobId];
          match AfterComplete(current, owner, e.result, e.followups)
          case None => s' == s.(sessions := s.sessions - {e.proc})
          case Some(r) => s' == s.(
            sessions := s.sessions - {e.proc}, table := s.table[owner.jobId := r], shown := s.shown + {r},
            wins := if current.status == Running then s.wins + [owner.jobId] else s.wins)
  }

  ghost predicate AbortStep(s: State, e: Event, s': State)
    requires e.Abort?
  {
    && e.proc in s.sessions && !s.sessions[e.proc].phase.Admitted?
    && var owner := s.sessions[e.proc].phase.owner;
       && owner.jobId in s.table
       && match AfterFail(s.table[owner.jobId], owner, e.code, e.retryable, e.failure)
          case None => s' == s.(sessions := s.sessions - {e.proc})
          case Some(r) => s' == s.(
            sessions := s.sessions - {e.proc}, table := s.table[owner.jobId := r], shown := s.shown + {r})
  }

  /** release_executor_job: an operator gives a stranded receipt up. */
  ghost predicate ReleaseStep(s: State, job: JobId, s': State) {
    && job in s.table && s.table[job].status == Running
    && var r := FailedAs(s.table[job], "MANUALLY_RELEASED", true, None);
       s' == s.(table := s.table[job := r], shown := s.shown + {r})
  }

  ghost predicate RecordStep(s: State, e: Envelope, response: Receipt, d: Domain, s': State) {
    && e.planId.Some? && e.planId.value in s.rows && response in s.shown
    && Record(s.rows[e.planId.value], e, response, d).Ok?
    && s' == s.(rows := s.rows[e.planId.value := Record(s.rows[e.planId.value], e, response, d).value])
  }

  ghost predicate Next(s: State, e: Event, s': State) {
    match e
    case Submit(sub, d) => SubmitStep(s, sub, d, s')
    case PrepareCommand(p, id, d) => PrepareStep(s, p, id, d, s')
    case PublishCommand(_, _, _, _, _, _) => PublishStep(s, e, s')
    case NoteError(p, id, text) => p in s.rows && s' == s.(rows := s.rows[p := Noted(s.rows[p], id, text)])
    case Forget(m) => s' == s.(wire := s.wire - {m})
    case Receive(proc, envelope, d) => ReceiveStep(s, proc, envelope, d, s')
    case ClaimJob(_, _, _, _) => ClaimJobStep(s, e, s')
    case EnterHandler(proc, d, now) => EnterStep(s, proc, d, now, s')
    case Finish(_, _, _) => FinishStep(s, e, s')
    case Abort(_, _, _, _) => AbortStep(s, e, s')
    case Crash(proc) => s' == s.(sessions := s.sessions - {proc})
    case Release(job) => ReleaseStep(s, job, s')
    case RecordResponse(envelope, response, d) => RecordStep(s, envelope, response, d, s')
  }

  /** events[k] leads from states[k] to states[k + 1]. */
  ghost predicate Path(states: seq<State>, events: seq<Event>) {
    && |states| == |events| + 1
    && forall k :: 0 <= k < |events| ==> Next(states[k], events[k], states[k + 1])
  }

  // ------------------------------------------------------------- invariants

  /** All dependencies of the step have a stored success. */
  predicate Cleared(row: Row, id: string) {
    FindStep(row.plan.steps, id).Some? && Done(Succ(row), FindStep(row.plan.steps, id).value.dependsOn)
  }

  ghost predicate RowOk(row: Row) {
    && LoadOk(row) && DeliveriesMatch(row)
    && row.deliveries.Keys == StepIds(row.plan.steps)
    && row.reports.Keys <= StepIds(row.plan.steps)
  }

  /** The job is that of a step of a stored plan. */
  predicate KnownJob(rows: Rows, j: JobId) {
    && j.StepJob? && j.planId in rows
    && FindStep(rows[j.planId].plan.steps, j.stepId).Some?
    && JobOf(rows[j.planId].plan, FindStep(rows[j.planId].plan.steps, j.stepId).value) == j
  }

  predicate JobCleared(rows: Rows, j: JobId) {
    KnownJob(rows, j) ==> Cleared(rows[j.planId], j.stepId)
  }

  ghost predicate RowsInv(rows: Rows) {
    forall p :: p in rows ==> RowOk(rows[p]) && rows[p].planId == p
  }

  /** Stored successes are downward closed in the dependency order. */
  ghost predicate ClosedInv(rows: Rows) {
    forall p, id :: p in rows && id in Succ(rows[p]) ==> Cleared(rows[p], id)
  }

  predicate BackedBy(t: Table, row: Row, id: string) {
    && FindStep(row.plan.steps, id).Some?
    && JobOf(row.plan, FindStep(row.plan.steps, id).value) in t
    && t[JobOf(row.plan, FindStep(row.plan.steps, id).value)].status == Succeeded
  }

  /** A stored success reflects a receipt that succeeded. */
  ghost predicate BackedInv(rows: Rows, t: Table) {
    forall p, id :: p in rows && id in Succ(rows[p]) ==> BackedBy(t, rows[p], id)
  }

  /** Nothing known to the journal was claimed or admitted too early. */
  ghost predicate ClearedInv(rows: Rows, t: Table, sessions: map<int, Session>) {
    && (forall j :: j in t ==> JobCleared(rows, j))
    && (forall p :: p in sessions ==> JobCleared(rows, sessions[p].envelope.jobId))
  }

  /** Responses in circulation never claim a success that did not happen. */
  ghost predicate ShownInv(t: Table, shown: set<Receipt>) {
    && TableOk(t)
    && forall r :: r in shown ==> r.jobId in t && (r.status == Succeeded ==> t[r.jobId] == r)
  }

  /** Every requested schema is the output of a step with a stored success. */
  predicate SchemasProduced(row: Row) {
    forall schema :: schema in row.plan.request.requiredSchemas ==>
      exists st :: st in row.plan.steps && st.stepId in Succ(row) && st.outputSchema == schema
  }

  predicate OutcomeOk(row: Row) {
    row.outcome == Some(Outcome.Completed) ==> SchemasProduced(row)
  }

  ghost predicate OutcomeInv(rows: Rows) {
    forall p :: p in rows ==> OutcomeOk(rows[p])
  }

  function KeyOf(row: Row): (int, string) {
    (row.workspace, row.requestId)
  }

  /** (workspace, request_id) is unique and finds its row. */
  ghost predicate RequestsInv(rows: Rows, requests: map<(int, string), string>) {
    && (forall k :: k in requests ==> requests[k] in rows && KeyOf(rows[requests[k]]) == k)
    && (forall p :: p in rows ==> KeyOf(rows[p]) in requests && requests[KeyOf(rows[p])] == p)
  }

  ghost predicate PlanInv(s: State) {
    && RowsInv(s.rows) && ClosedInv(s.rows) && BackedInv(s.rows, s.table)
    && ClearedInv(s.rows, s.table, s.sessions) && ShownInv(s.table, s.shown)
    && OutcomeInv(s.rows) && RequestsInv(s.rows, s.requests)
  }

  // --------------------------------------------------- what one row change keeps

  /** Later versions of a journal row: same plan and identity, successes and
      compiled commands only added. */
  ghost predicate RowGrows(a: Row, b: Row) {
    && b.plan == a.plan && b.planId == a.planId && b.jobId == a.jobId && b.requestId == a.requestId
    && b.workspace == a.workspace && b.createdBy == a.createdBy && b.sourceUid == a.sourceUid
    && b.preparation == a.preparation
    && Succ(a) <= Succ(b)
    && forall id :: id in a.compiled ==> id in b.compiled && b.compiled[id] == a.compiled[id]
  }

  ghost predicate RowsGrow(a: Rows, b: Rows) {
    forall p :: p in a ==> p in b && RowGrows(a[p], b[p])
  }

  lemma ClearedMono(a: Row, b: Row, id: string)
    requires RowGrows(a, b) && Cleared(a, id)
    ensures Cleared(b, id)
  {
  }

  lemma PrepareFacts(row: Row, id: string, d: Domain)
    requires Prepare(row, id, d).Ok?
    ensures var row' := Prepare(row, id, d).value;
      row' == row.(compiled := row'.compiled) && RowGrows(row, row')
    ensures FindStep(row.plan.steps, id).value.inputBinding.Some? ==> id in Prepare(row, id, d).value.compiled
  {
  }

  lemma WithReportFacts(row: Row, report: Report, followups: seq<Proposal>)
    requires report.stepId in Succ(row) ==> report.status == Succeeded
    ensures
      var row' := WithReport(row, report, followups);
      && row' == row.(reports := row'.reports, proposals := row'.proposals)
      && row'.reports.Keys == row.reports.Keys + {report.stepId}
      && Succ(row') == Succ(row) + (if report.status == Succeeded then {report.stepId} else {})
  {
  }

  /** A response that passes the first half names the job of the envelope's step. */
  lemma AcceptIs(row: Row, e: Envelope, response: Receipt, d: Domain) returns (report: Report)
    requires Accept(row, e, response, d).Ok?
    ensures Accept(row, e, response, d).value == WithReport(row, report, response.followups)
    ensures report.status == response.status && e.stepId == Some(report.stepId)
    ensures FindStep(row.plan.steps, report.stepId).Some?
      && response.jobId == JobOf(row.plan, FindStep(row.plan.steps, report.stepId).value)
    ensures report.stepId in Succ(row) ==> report.status == Succeeded
  {
    var step := ApprovedDelivery(row, e, d.registry).value;
    report := AdapterReport(row.plan, step, response.status, d).value;
  }

  lemma AcceptFacts(row: Row, e: Envelope, response: Receipt, d: Domain)
    requires Accept(row, e, response, d).Ok?
    ensures e.stepId.Some? && FindStep(row.plan.steps, e.stepId.value).Some?
      && response.jobId == JobOf(row.plan, FindStep(row.plan.steps, e.stepId.value).value)
    ensures
      var row' := Accept(row, e, response, d).value;
      && row' == row.(reports := row'.reports, proposals := row'.proposals)
      && row'.reports.Keys == row.reports.Keys + {e.stepId.value}
      && Succ(row') == Succ(row) + (if response.status == Succeeded then {e.stepId.value} else {})
  {
    var report := AcceptIs(row, e, response, d);
    WithReportFacts(row, report, response.followups);
  }

  lemma SettleFacts(row: Row, d: Domain)
    requires Settle(row, d).Ok?
    ensures
      var row' := Settle(row, d).value;
      && row' == row.(outcome := row'.outcome, decisions := row'.decisions)
      && LiveReports(row, d).Ok? && LiveReports(row', d) == LiveReports(row, d) && row'.outcome.Some?
      && CompletionCandidate(row.plan, LiveReports(row, d).value) == Ok(row'.outcome.value)
  {
    LiveIgnores(row, Settle(row, d).value, |row.plan.steps|, d);
  }

  /** live_reports reads the plan and the stored reports and nothing else. */
  lemma {:induction false} LiveIgnores(a: Row, b: Row, n: nat, d: Domain)
    requires a.plan == b.plan && a.reports == b.reports && n <= |a.plan.steps|
    ensures LiveUpTo(a, n, d) == LiveUpTo(b, n, d)
  {
    if n > 0 {
      LiveIgnores(a, b, n - 1, d);
    }
  }

  lemma WithDeliveriesSame(row: Row)
    requires row.deliveries.Keys == StepIds(row.plan.steps)
    ensures WithDeliveries(row) == row
  {
  }

  lemma RecordGrows(row: Row, e: Envelope, response: Receipt, d: Domain)
    requires Record(row, e, response, d).Ok?
    ensures RowGrows(row, Record(row, e, response, d).value)
  {
    var accepted := Accept(row, e, response, d).value;
    AcceptFacts(row, e, response, d);
    SettleFacts(accepted, d);
  }

  // --------------------------------------------------------- rows only grow

  lemma RowsGrowRefl(rows: Rows)
    ensures RowsGrow(rows, rows)
  {
  }

  lemma RowGrowsTrans(a: Row, b: Row, c: Row)
    requires RowGrows(a, b) && RowGrows(b, c)
    ensures RowGrows(a, c)
  {
  }

  lemma RowChange(rows: Rows, p: string, row: Row)
    requires p in rows ==> RowGrows(rows[p], row)
    ensures RowsGrow(rows, rows[p := row])
  {
  }

  lemma SubmitGrows(s: State, sub: Submission, d: Domain, s': State)
    requires RowsInv(s.rows) && RequestsInv(s.rows, s.requests) && SubmitStep(s, sub, d, s')
    ensures RowsGrow(s.rows, s'.rows)
    ensures forall k :: k in s.requests ==> k in s'.requests && s'.requests[k] == s.requests[k]
    ensures s' == s.(rows := s'.rows, requests := s'.requests)
  {
    hide SubmitAccepts, LoadOk, DeliveriesMatch, FreshPlanId;
    var row := SubmittedRow(s.rows, s.requests, sub).value;
    if row.planId in s.rows {
      WithDeliveriesSame(row);
    }
    RowChange(s.rows, row.planId, WithDeliveries(row));
  }

  /** What a send by publish_step goes with, at that moment. */
  lemma PublishFacts(row: Row, id: string, replay: bool, d: Domain)
    requires Publish(row, id, replay, d).Ok? && Publish(row, id, replay, d).value.Send?
    ensures id in row.deliveries && !row.preparation && FindStep(row.plan.steps, id).Some?
    ensures row.planId in d.admitted && LiveReports(row, d).Ok?
    ensures
      var step := FindStep(row.plan.steps, id).value;
      && Done(ReadySet(LiveReports(row, d).value), step.dependsOn)
      && StoredCommand(row, step, d.registry).Ok?
      && (step.inputBinding.Some? ==> CompiledInput(row, step, d).Ok?)
      && Publish(row, id, replay, d).value.message == MessageFor(row, step, StoredCommand(row, step, d.registry).value)
  {
    hide LiveReports, ResolveInput, PayloadOk;
  }

  lemma MarkGrows(row: Row, id: string, now: real)
    requires id in row.deliveries
    ensures RowGrows(row, MarkPublished(row, id, now))
  {
  }

  lemma PublishGrows(s: State, e: Event, s': State)
    requires e.PublishCommand? && PublishStep(s, e, s')
    ensures RowsGrow(s.rows, s'.rows) && s.sent <= s'.sent && s.wire <= s'.wire
    ensures s' == s.(rows := s'.rows, wire := s'.wire, sent := s'.sent)
  {
    hide Publish, LiveReports, StoredCommand, CompiledInput, FindStep, MessageFor, MarkPublished, RowGrows, ReadySet,
         Done;
    RowsGrowRefl(s.rows);
    var row := s.rows[e.planId];
    if Publish(row, e.stepId, e.replay, e.d).value.Send? && e.fate == Commits {
      PublishFacts(row, e.stepId, e.replay, e.d);
      MarkGrows(row, e.stepId, e.now);
      RowChange(s.rows, e.planId, MarkPublished(row, e.stepId, e.now));
    }
  }

  /** Succeeded receipts stay, whole; no receipt disappears. */
  ghost predicate TableGrows(a: Table, b: Table) {
    forall j :: j in a ==> j in b && (a[j].status == Succeeded ==> b[j] == a[j])
  }

  lemma ReceiptChange(t: Table, j: JobId, r: Receipt)
    requires j in t ==> (t[j].status == Succeeded ==> r == t[j])
    ensures TableGrows(t, t[j := r])
  {
  }

  /** Claims, completions, failures and releases touch the table, the sessions
      and their histories only. */
  ghost predicate TableEvent(s: State, s': State) {
    && s' == s.(table := s'.table, shown := s'.shown, sessions := s'.sessions, wins := s'.wins)
    && TableGrows(s.table, s'.table) && s.shown <= s'.shown && TableOk(s'.table)
    && (forall r :: r in s'.shown ==> r in s.shown || (r.jobId in s'.table && s'.table[r.jobId] == r))
    && (forall j :: j in s'.table ==> j in s.table || exists p :: p in s.sessions && s.sessions[p].envelope.jobId == j)
    && (forall p :: p in s'.sessions ==> p in s.sessions && s'.sessions[p].envelope == s.sessions[p].envelope)
  }

  lemma ClaimGrows(s: State, e: Event, s': State)
    requires TableOk(s.table) && e.ClaimJob? && ClaimJobStep(s, e, s')
    ensures TableEvent(s, s')
  {
    hide ClaimStep;
    ClaimKeepsExclusion(s.table, e.q, e.table', e.answer);
  }

  lemma FinishGrows(s: State, e: Event, s': State)
    requires TableOk(s.table) && e.Finish? && FinishStep(s, e, s')
    ensures TableEvent(s, s')
  {
    var owner := s.sessions[e.proc].phase.owner;
    var after := AfterComplete(s.table[owner.jobId], owner, e.result, e.followups);
    if after.Some? {
      ReceiptChange(s.table, owner.jobId, after.value);
    }
  }

  lemma AbortGrows(s: State, e: Event, s': State)
    requires TableOk(s.table) && e.Abort? && AbortStep(s, e, s')
    ensures TableEvent(s, s')
  {
  }

  lemma ReleaseGrows(s: State, job: JobId, s': State)
    requires TableOk(s.table) && ReleaseStep(s, job, s')
    ensures TableEvent(s, s')
  {
  }

  lemma TableStepGrows(s: State, e: Event, s': State)
    requires TableOk(s.table) && Next(s, e, s')
    requires e.ClaimJob? || e.Finish? || e.Abort? || e.Release?
    ensures TableEvent(s, s')
  {
    hide ClaimJobStep, FinishStep, AbortStep, ReleaseStep, TableEvent;
    match e
    case ClaimJob(_, _, _, _) => ClaimGrows(s, e, s');
    case Finish(_, _, _) => FinishGrows(s, e, s');
    case Abort(_, _, _, _) => AbortGrows(s, e, s');
    case Release(job) => ReleaseGrows(s, job, s');
  }

  lemma PrepareStepGrows(s: State, p: string, id: string, d: Domain, s': State)
    requires PrepareStep(s, p, id, d, s')
    ensures RowsGrow(s.rows, s'.rows) && s' == s.(rows := s'.rows)
  {
    PrepareFacts(s.rows[p], id, d);
    hide Prepare;
    RowChange(s.rows, p, Prepare(s.rows[p], id, d).value);
  }

  lemma RecordStepGrows(s: State, e: Envelope, response: Receipt, d: Domain, s': State)
    requires RecordStep(s, e, response, d, s')
    ensures RowsGrow(s.rows, s'.rows) && s' == s.(rows := s'.rows)
  {
    hide Record;
    var p := e.planId.value;
    RecordGrows(s.rows[p], e, response, d);
    RowChange(s.rows, p, Record(s.rows[p], e, response, d).value);
  }

  lemma NoteGrows(s: State, p: string, id: string, text: string)
    requires p in s.rows
    ensures RowsGrow(s.rows, s.rows[p := Noted(s.rows[p], id, text)])
  {
  }

  lemma SessionsOnly(s: State, e: Event, s': State)
    requires Next(s, e, s') && (e.Receive? || e.EnterHandler?)
    ensures s' == s.(sessions := s'.sessions, starts := s'.starts)
  {
  }

  /** MAIN RESULT. No step of the system removes a plan, edits one, forgets a
      success or replaces a compiled command; receipts never leave the table,
      and a succeeded receipt keeps every field. */
  lemma StepGrows(s: State, e: Event, s': State)
    requires RowsInv(s.rows) && RequestsInv(s.rows, s.requests) && TableOk(s.table) && Next(s, e, s')
    ensures RowsGrow(s.rows, s'.rows) && TableGrows(s.table, s'.table)
    ensures forall k :: k in s.requests ==> k in s'.requests && s'.requests[k] == s.requests[k]
    ensures s.sent <= s'.sent && s.shown <= s'.shown
  {
    hide RowsInv, RequestsInv, TableOk, RowGrows, RowsGrow, SubmitStep, PrepareStep, RecordStep, PublishStep,
         ReceiveStep, ClaimJobStep, EnterStep, FinishStep, AbortStep, ReleaseStep, Noted;
    RowsGrowRefl(s.rows);
    match e
    case Submit(sub, d) => SubmitGrows(s, sub, d, s');
    case PrepareCommand(p, id, d) => PrepareStepGrows(s, p, id, d, s');
    case RecordResponse(envelope, response, d) => RecordStepGrows(s, envelope, response, d, s');
    case PublishCommand(_, _, _, _, _, _) => PublishGrows(s, e, s');
    case NoteError(p, id, text) => NoteGrows(s, p, id, text);
    case Receive(_, _, _) => SessionsOnly(s, e, s');
    case EnterHandler(_, _, _) => SessionsOnly(s, e, s');
    case ClaimJob(_, _, _, _) => TableStepGrows(s, e, s');
    case Finish(_, _, _) => TableStepGrows(s, e, s');
    case Abort(_, _, _, _) => TableStepGrows(s, e, s');
    case Release(_) => TableStepGrows(s, e, s');
    case _ =>
  }

  // -------------------------------------------------- the invariants are kept

  /** Admission of a known job needs the stored successes it depends on. */
  lemma AuthorizedClears(rows: Rows, e: Envelope, d: Domain)
    requires RowsInv(rows) && Authorized(rows, e, d)
    ensures JobCleared(rows, e.jobId)
  {
    var j := e.jobId;
    if KnownJob(rows, j) {
      assert rows[j.planId].deliveries[j.stepId].jobId == j;
      var row := rows[e.planId.value];
      AuthorizedFacts(row, e, d);
    }
  }

  /** What authorize establishes about the row it was given. */
  lemma AuthorizedFacts(row: Row, e: Envelope, d: Domain)
    requires OrderOk(row.plan.steps) && AuthorizeRow(row, e, d)
    ensures e.stepId.Some? && FindStep(row.plan.steps, e.stepId.value).Some?
    ensures
      var step := FindStep(row.plan.steps, e.stepId.value).value;
      && e.jobId == JobOf(row.plan, step) && LiveReports(row, d).Ok?
      && Done(ReadySet(LiveReports(row, d).value), step.dependsOn)
      && Done(Succ(row), step.dependsOn)
  {
    LiveFacts(row, d);
  }

  lemma ClearedKept(rows: Rows, p: string, row: Row, t: Table, sessions: map<int, Session>)
    requires p in rows && RowGrows(rows[p], row) && ClearedInv(rows, t, sessions)
    ensures ClearedInv(rows[p := row], t, sessions)
  {
  }

  lemma RequestsKept(rows: Rows, p: string, row: Row, requests: map<(int, string), string>)
    requires p in rows && RowGrows(rows[p], row) && RequestsInv(rows, requests)
    ensures RequestsInv(rows[p := row], requests)
  {
  }

  /** A row change that adds no success and leaves the outcome alone. */
  lemma QuietRowKeeps(s: State, p: string, row: Row, s': State)
    requires PlanInv(s) && p in s.rows && RowGrows(s.rows[p], row)
    requires RowOk(row) && row.reports == s.rows[p].reports && row.outcome == s.rows[p].outcome
    requires s' == s.(rows := s.rows[p := row], wire := s'.wire, sent := s'.sent)
    ensures PlanInv(s')
  {
    hide RowOk, RowGrows, ClearedInv, RequestsInv, ShownInv, SchemasProduced, Cleared, BackedBy;
    ClearedKept(s.rows, p, row, s.table, s.sessions);
    RequestsKept(s.rows, p, row, s.requests);
    SameReports(s.rows[p], row);
    assert forall id :: id in Succ(row) ==> id in Succ(s.rows[p]) && Cleared(row, id) && BackedBy(s.table, row, id);
    assert RowsInv(s'.rows);
    assert ClosedInv(s'.rows);
    assert BackedInv(s'.rows, s'.table);
    assert OutcomeInv(s'.rows);
  }

  lemma SameReports(a: Row, b: Row)
    requires RowGrows(a, b) && a.reports == b.reports
    ensures Succ(a) == Succ(b) && a.planId == b.planId && (SchemasProduced(a) ==> SchemasProduced(b))
    ensures forall id :: Cleared(a, id) ==> Cleared(b, id)
    ensures forall t, id :: BackedBy(t, a, id) ==> BackedBy(t, b, id)
  {
  }

  lemma TableEventKeeps(s: State, s': State)
    requires PlanInv(s) && TableEvent(s, s')
    ensures PlanInv(s')
  {
  }

  lemma ReceiveKeeps(s: State, proc: int, e: Envelope, d: Domain, s': State)
    requires PlanInv(s) && ReceiveStep(s, proc, e, d, s')
    ensures PlanInv(s')
  {
    hide RowsInv, ClosedInv, BackedInv, OutcomeInv, RequestsInv, ShownInv, JobCleared, Authorized;
    AuthorizedClears(s.rows, e, d);
  }

  lemma NewRowOk(row: Row, sub: Submission, d: Domain)
    requires SubmitAccepts(row, sub, d) && row.reports == map[]
    ensures RowOk(WithDeliveries(row)) && Succ(WithDeliveries(row)) == {}
  {
  }

  lemma SubmitKeeps(s: State, sub: Submission, d: Domain, s': State)
    requires PlanInv(s) && SubmitStep(s, sub, d, s')
    ensures PlanInv(s')
  {
    hide SubmitAccepts, RowsInv, ClosedInv, BackedInv, ClearedInv, ShownInv, OutcomeInv, WithDeliveries, RowOk, Succ,
         StepIds;
    var row := SubmittedRow(s.rows, s.requests, sub).value;
    if (sub.workspace, sub.plan.request.requestId) in s.requests {
      FoundRow(s, sub);
      assert s'.rows == s.rows && s'.requests == s.requests;
    } else {
      NewRowOk(row, sub, d);
      assert KeyOf(WithDeliveries(row)) == (sub.workspace, sub.plan.request.requestId) by {
        DeliveriesOnly(row);
      }
      DeliveriesOnly(row);
      NewPlanKeeps(s, WithDeliveries(row), s');
    }
  }

  lemma DeliveriesOnly(row: Row)
    ensures WithDeliveries(row) == row.(deliveries := WithDeliveries(row).deliveries)
  {
  }

  lemma FoundRow(s: State, sub: Submission)
    requires PlanInv(s) && sub.plan.steps != []
    requires (sub.workspace, sub.plan.request.requestId) in s.requests
    requires SubmittedRow(s.rows, s.requests, sub).Some?
    ensures
      var row := SubmittedRow(s.rows, s.requests, sub).value;
      row.planId == s.requests[(sub.workspace, sub.plan.request.requestId)] && row.planId in s.rows
      && s.rows[row.planId] == row && WithDeliveries(row) == row
  {
    var row := SubmittedRow(s.rows, s.requests, sub).value;
    WithDeliveriesSame(row);
  }

  lemma NewPlanCleared(s: State, row: Row)
    requires ClearedInv(s.rows, s.table, s.sessions) && FreshPlanId(s, row.planId)
    ensures ClearedInv(s.rows[row.planId := row], s.table, s.sessions)
  {
  }

  lemma NewPlanRequests(rows: Rows, row: Row, requests: map<(int, string), string>)
    requires RequestsInv(rows, requests) && row.planId !in rows && KeyOf(row) !in requests
    ensures RequestsInv(rows[row.planId := row], requests[KeyOf(row) := row.planId])
  {
  }

  /** A plan under an id nothing was derived from starts with nothing done. */
  lemma NewPlanKeeps(s: State, row: Row, s': State)
    requires PlanInv(s) && RowOk(row) && Succ(row) == {} && row.outcome == None
    requires FreshPlanId(s, row.planId) && KeyOf(row) !in s.requests
    requires s' == s.(rows := s.rows[row.planId := row], requests := s.requests[KeyOf(row) := row.planId])
    ensures PlanInv(s')
  {
    hide RowOk, ShownInv, Cleared, BackedBy, SchemasProduced, RequestsInv, ClearedInv;
    NewPlanCleared(s, row);
    NewPlanRequests(s.rows, row, s.requests);
  }

  /** With every success backed by a cleared dependency set, the readiness test
      over the live reports comes down to the requested schemas. */
  lemma LiveOutcome(row: Row, d: Domain)
    requires OrderOk(row.plan.steps) && row.reports.Keys <= StepIds(row.plan.steps) && LiveReports(row, d).Ok?
    requires forall id :: id in Succ(row) ==> Cleared(row, id)
    ensures RequestedOutputsReady(row.plan, LiveReports(row, d).value) == Ok(SchemasProduced(row))
  {
    LiveFacts(row, d);
    var reports := LiveReports(row, d).value;
    assert ReadySet(reports) == Succ(row);
    forall st | st in row.plan.steps && st.stepId in Succ(row) ensures Done(Succ(row), st.dependsOn) {
      FindIsStep(row.plan.steps, st);
      assert Cleared(row, st.stepId);
    }
  }

  lemma RecordKeeps(s: State, e: Envelope, response: Receipt, d: Domain, s': State)
    requires PlanInv(s) && RecordStep(s, e, response, d, s')
    ensures PlanInv(s')
  {
    hide RequestsInv, ClearedInv, ShownInv, Record, RowOk, OutcomeOk, Cleared, BackedBy, RowGrows;
    var p := e.planId.value;
    var row := s.rows[p];
    var row' := Record(row, e, response, d).value;
    RecordGrows(row, e, response, d);
    ClearedKept(s.rows, p, row', s.table, s.sessions);
    RequestsKept(s.rows, p, row', s.requests);
    RecordRow(s, e, response, d);
  }

  lemma RecordRow(s: State, e: Envelope, response: Receipt, d: Domain)
    requires PlanInv(s) && e.planId.Some? && e.planId.value in s.rows && response in s.shown
    requires Record(s.rows[e.planId.value], e, response, d).Ok?
    ensures
      var row' := Record(s.rows[e.planId.value], e, response, d).value;
      && RowOk(row') && row'.planId == e.planId.value && OutcomeOk(row')
      && forall id :: id in Succ(row') ==> Cleared(row', id) && BackedBy(s.table, row', id)
  {
    var row := s.rows[e.planId.value];
    AcceptFacts(row, e, response, d);
    var mid := Accept(row, e, response, d).value;
    SettleFacts(mid, d);
    RecordedSuccesses(s, e, response, mid);
    RecordedOutcome(row, mid, Record(row, e, response, d).value, d);
  }

  /** The recorded row's new success, if any, was cleared and did happen. */
  lemma RecordedSuccesses(s: State, e: Envelope, response: Receipt, mid: Row)
    requires PlanInv(s) && e.planId.Some? && e.planId.value in s.rows && response in s.shown
    requires e.stepId.Some?
    requires
      var row := s.rows[e.planId.value];
      && FindStep(row.plan.steps, e.stepId.value).Some?
      && response.jobId == JobOf(row.plan, FindStep(row.plan.steps, e.stepId.value).value)
      && mid == row.(reports := mid.reports, proposals := mid.proposals)
      && Succ(mid) == Succ(row) + (if response.status == Succeeded then {e.stepId.value} else {})
    ensures forall id :: id in Succ(mid) ==> Cleared(mid, id) && BackedBy(s.table, mid, id)
  {
    hide RequestsInv, OutcomeInv, BindingsValid, OrderOk, DeliveriesMatch;
    var row := s.rows[e.planId.value];
    assert RowGrows(row, mid);
    forall x | x in Succ(mid) ensures Cleared(mid, x) && BackedBy(s.table, mid, x) {
      if x in Succ(row) {
        assert Cleared(row, x) && BackedBy(s.table, row, x);
        ClearedMono(row, mid, x);
      } else {
        assert RowOk(row) && KnownJob(s.rows, response.jobId);
        assert JobCleared(s.rows, response.jobId);
        ClearedMono(row, mid, x);
      }
    }
  }

  lemma RecordedOutcome(row: Row, mid: Row, row': Row, d: Domain)
    requires RowOk(row) && mid == row.(reports := mid.reports, proposals := mid.proposals)
    requires mid.reports.Keys <= StepIds(row.plan.steps)
    requires row' == mid.(outcome := row'.outcome, decisions := row'.decisions)
    requires forall id :: id in Succ(mid) ==> Cleared(mid, id)
    requires LiveReports(mid, d).Ok? && row'.outcome.Some?
    requires CompletionCandidate(mid.plan, LiveReports(mid, d).value) == Ok(row'.outcome.value)
    ensures RowOk(row') && OutcomeOk(row')
  {
    hide LiveReports, Cleared, BindingsValid, OrderOk, RequestedOutputsReady;
    LiveOutcome(mid, d);
  }

  lemma PublishKeeps(s: State, e: Event, s': State)
    requires PlanInv(s) && e.PublishCommand? && PublishStep(s, e, s')
    ensures PlanInv(s')
  {
    hide Publish, MarkPublished, RowGrows, LiveReports, RowOk, StoredCommand, CompiledInput, MessageFor, ReadySet;
    var row := s.rows[e.planId];
    if Publish(row, e.stepId, e.replay, e.d).value.Send? && e.fate == Commits {
      PublishFacts(row, e.stepId, e.replay, e.d);
      MarkGrows(row, e.stepId, e.now);
      MarkKeepsRow(row, e.stepId, e.now);
      QuietRowKeeps(s, e.planId, MarkPublished(row, e.stepId, e.now), s');
    }
  }

  lemma MarkShape(row: Row, id: string, now: real)
    requires id in row.deliveries
    ensures
      var row' := MarkPublished(row, id, now);
      && row' == row.(deliveries := row'.deliveries, publishedAt := row'.publishedAt, publishError := row'.publishError)
      && row'.deliveries.Keys == row.deliveries.Keys
      && forall x :: x in row.deliveries ==> row'.deliveries[x].jobId == row.deliveries[x].jobId
  {
    assert row.deliveries[id := MarkPublished(row, id, now).deliveries[id]].Keys == row.deliveries.Keys;
  }

  lemma MarkKeepsRow(row: Row, id: string, now: real)
    requires RowOk(row) && id in row.deliveries
    ensures RowOk(MarkPublished(row, id, now))
    ensures MarkPublished(row, id, now).reports == row.reports && MarkPublished(row, id, now).outcome == row.outcome
  {
    MarkShape(row, id, now);
    hide MarkPublished, OrderOk, BindingsValid, FindStep;
  }

  lemma PreparedOk(rows: Rows, p: string, id: string, d: Domain)
    requires RowsInv(rows) && p in rows && Prepare(rows[p], id, d).Ok?
    ensures RowOk(Prepare(rows[p], id, d).value)
  {
    assert RowOk(rows[p]);
    PrepareFacts(rows[p], id, d);
    hide Prepare, OrderOk, BindingsValid, FindStep;
  }

  lemma PrepareKeeps(s: State, p: string, id: string, d: Domain, s': State)
    requires PlanInv(s) && PrepareStep(s, p, id, d, s')
    ensures PlanInv(s')
  {
    PrepareFacts(s.rows[p], id, d);
    PreparedOk(s.rows, p, id, d);
    hide Prepare, RowGrows, RowOk, PlanInv;
    QuietRowKeeps(s, p, Prepare(s.rows[p], id, d).value, s');
  }

  lemma NoteKeeps(s: State, p: string, id: string, text: string, s': State)
    requires PlanInv(s) && p in s.rows && s' == s.(rows := s.rows[p := Noted(s.rows[p], id, text)])
    ensures PlanInv(s')
  {
    hide OrderOk, BindingsValid;
    assert Noted(s.rows[p], id, text).deliveries.Keys == s.rows[p].deliveries.Keys;
    QuietRowKeeps(s, p, Noted(s.rows[p], id, text), s');
  }

  lemma DropKeeps(s: State, wire: set<Message>, proc: int)
    requires PlanInv(s)
    ensures PlanInv(s.(wire := wire)) && PlanInv(s.(sessions := s.sessions - {proc}))
  {
  }

  /** Every step of the system keeps the plan invariants. */
  lemma StepKeepsPlans(s: State, e: Event, s': State)
    requires PlanInv(s) && Next(s, e, s')
    ensures PlanInv(s')
  {
    hide SubmitStep, PrepareStep, PublishStep, ReceiveStep, ClaimJobStep, EnterStep, FinishStep, AbortStep,
         ReleaseStep, RecordStep, TableEvent, RowsInv, ClosedInv, BackedInv, ClearedInv, OutcomeInv, RequestsInv,
         TableOk, Noted;
    match e
    case Submit(sub, d) => SubmitKeeps(s, sub, d, s');
    case RecordResponse(envelope, response, d) => RecordKeeps(s, envelope, response, d, s');
    case Receive(proc, envelope, d) => ReceiveKeeps(s, proc, envelope, d, s');
    case PrepareCommand(p, id, d) => PrepareKeeps(s, p, id, d, s');
    case PublishCommand(_, _, _, _, _, _) => PublishKeeps(s, e, s');
    case NoteError(p, id, text) => NoteKeeps(s, p, id, text, s');
    case EnterHandler(proc, d, now) => EnterKeeps(s, proc, d, now, s');
    case Forget(m) => DropKeeps(s, s.wire - {m}, 0);
    case Crash(proc) => DropKeeps(s, {}, proc);
    case _ => TableStepGrows(s, e, s'); TableEventKeeps(s, s');
  }

  lemma EnterKeeps(s: State, proc: int, d: Domain, now: real, s': State)
    requires PlanInv(s) && EnterStep(s, proc, d, now, s')
    ensures PlanInv(s')
  {
  }
}
