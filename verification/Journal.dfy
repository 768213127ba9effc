/** The transactions of app/orchestration/submissions.py and command_inputs.py as
    methods of the journal that stores the rows, each proved equal to the
    function the delivery protocol steps with. */
module Journal {
  import opened Wrappers
  import opened Plans
  import opened Control
  import opened Receipts
  import opened Submissions
  import opened DeliveryProtocol

  // ------------------------------------------------ what keeps a row in order

  lemma QuietRowOk(a: Row, b: Row)
    requires RowOk(a) && RowGrows(a, b) && b.reports == a.reports && b.deliveries.Keys == a.deliveries.Keys
    requires forall id :: id in a.deliveries ==> b.deliveries[id].jobId == a.deliveries[id].jobId
    ensures RowOk(b)
  {
  }

  lemma PreparedRowOk(row: Row, stepId: string, d: Domain)
    requires RowOk(row) && Prepare(row, stepId, d).Ok?
    ensures RowOk(Prepare(row, stepId, d).value) && Prepare(row, stepId, d).value.planId == row.planId
  {
    PrepareFacts(row, stepId, d);
    hide Prepare, RowOk;
    QuietRowOk(row, Prepare(row, stepId, d).value);
  }

  lemma NotedIs(row: Row, stepId: string, message: string)
    ensures
      var noted := Noted(row, stepId, message);
      && RowGrows(row, noted) && noted.reports == row.reports && noted.deliveries.Keys == row.deliveries.Keys
      && forall id :: id in row.deliveries ==> noted.deliveries[id].jobId == row.deliveries[id].jobId
  {
  }

  lemma NotedRowOk(row: Row, stepId: string, message: string)
    requires RowOk(row)
    ensures RowOk(Noted(row, stepId, message)) && RowGrows(row, Noted(row, stepId, message))
  {
    NotedIs(row, stepId, message);
    hide RowOk, Noted;
    QuietRowOk(row, Noted(row, stepId, message));
  }

  /** The steps _publish_ready goes through. */
  function EligibleNow(row: Row, replay: bool, d: Domain): Result<seq<Step>, PlanError> {
    var reports :- LiveReports(row, d);
    var eligible :- ReadySteps(row.plan, reports);
    Ok(if replay then Eligible(row.plan.steps, Succeeding(reports), ReadySet(reports)) else eligible)
  }

  function Succeeding(reports: seq<Report>): set<string> {
    set r | r in reports && r.status == Succeeded :: r.stepId
  }

  function DeliveryFor(row: Row, id: string): (delivery: Delivery)
    ensures id in row.deliveries ==> delivery == row.deliveries[id]
  {
    if id in row.deliveries then row.deliveries[id]
    else match FindStep(row.plan.steps, id)
      case Some(step) => Delivery(JobOf(row.plan, step), None, "")
      case None => Delivery(ForeignJob(""), None, "")
  }

  predicate DeliveryAgrees(row: Row, id: string) {
    && FindStep(row.plan.steps, id).Some?
    && DeliveryFor(row, id).jobId == JobOf(row.plan, FindStep(row.plan.steps, id).value)
  }

  lemma DeliveryOfStep(row: Row, step: Step)
    requires OrderOk(row.plan.steps) && step in row.plan.steps
    ensures DeliveryFor(row, step.stepId) ==
      if step.stepId in row.deliveries then row.deliveries[step.stepId] else Delivery(JobOf(row.plan, step), None, "")
    ensures DeliveryAgrees(row, step.stepId) <==> DeliveryFor(row, step.stepId).jobId == JobOf(row.plan, step)
  {
  }

  lemma Disagrees(row: Row, step: Step)
    requires OrderOk(row.plan.steps) && step in row.plan.steps
    requires DeliveryFor(row, step.stepId).jobId != JobOf(row.plan, step)
    ensures !DeliveriesMatch(row)
  {
  }

  lemma AllAgree(row: Row, deliveries: map<string, Delivery>)
    requires row.deliveries.Keys <= StepIds(row.plan.steps) && deliveries.Keys == StepIds(row.plan.steps)
    requires forall id :: id in deliveries ==> deliveries[id] == DeliveryFor(row, id) && DeliveryAgrees(row, id)
    ensures DeliveriesMatch(row) && row.(deliveries := deliveries) == WithDeliveries(row)
  {
    forall id | id in row.deliveries
      ensures FindStep(row.plan.steps, id).Some?
      ensures row.deliveries[id].jobId == JobOf(row.plan, FindStep(row.plan.steps, id).value)
    {
      assert id in deliveries;
    }
    assert deliveries == WithDeliveries(row).deliveries;
  }

  predicate Published(row: Row, id: string) {
    id in row.deliveries && row.deliveries[id].publishedAt.Some?
  }

  predicate Resent(messages: seq<Message>, id: string) {
    exists m :: m in messages && m.stepId == id
  }

  /** The messages are this plan's, for some of these steps. */
  ghost predicate OnlyFor(planId: string, steps: seq<Step>, messages: seq<Message>) {
    forall m :: m in messages ==> m.planId == planId && exists st :: st in steps && st.stepId == m.stepId
  }

  /** Every one of these steps is published; on a replay, sent again just now. */
  ghost predicate AllOut(row: Row, steps: seq<Step>, replay: bool, messages: seq<Message>) {
    forall st :: st in steps ==> Published(row, st.stepId) && (replay ==> Resent(messages, st.stepId))
  }

  /** One publish_submission: the row only grows, what is sent is for steps that
      were eligible, and if it returns all of them are published. */
  ghost predicate GoesOut(before: Row, after: Row, replay: bool, d: Domain, messages: seq<Message>, ok: bool) {
    && RowGrows(before, after) && after.reports == before.reports
    && match EligibleNow(before, replay, d)
       case Err(_) => !ok && messages == []
       case Ok(steps) => OnlyFor(before.planId, steps, messages) && (ok ==> AllOut(after, steps, replay, messages))
  }

  lemma NothingOut(planId: string, steps: seq<Step>, row: Row, replay: bool)
    ensures OnlyFor(planId, steps, []) && AllOut(row, [], replay, [])
  {
  }

  lemma NothingSent(planId: string, steps: Result<seq<Step>, PlanError>)
    ensures steps.Ok? ==> OnlyFor(planId, steps.value, [])
  {
  }

  lemma OneMoreOut(
    before: Row, last: Row, planId: string, steps: seq<Step>, i: nat, replay: bool, log: seq<Message>,
    out: PublishResult)
    requires i < |steps| && last.planId == planId && RowGrows(before, last) && last.reports == before.reports
    requires MayPublish(before, steps[i].stepId, replay)
    requires Publishes(last, steps[i].stepId, replay, out)
    requires OnlyFor(planId, steps, log) && AllOut(last, steps[..i], replay, log)
    ensures RowGrows(before, out.0) && out.0.reports == before.reports
    ensures OnlyFor(planId, steps, log + out.1)
    ensures out.2.Ok? ==> AllOut(out.0, steps[..i + 1], replay, log + out.1)
  {
  }

  lemma RowGrowsRefl(row: Row)
    ensures RowGrows(row, row)
  {
  }

  /** The live reports name the stored ones, whatever the domain answers. */
  lemma EligibleFacts(row: Row, replay: bool, d: Domain)
    requires RowOk(row) && EligibleNow(row, replay, d).Ok?
    ensures forall st :: st in EligibleNow(row, replay, d).value ==>
      st.stepId in StepIds(row.plan.steps) && MayPublish(row, st.stepId, replay)
  {
    hide LiveReports, RowOk, StepIds;
    var reports := LiveReports(row, d).value;
    LiveSets(row, d);
    if replay {
      assert forall st :: st in Eligible(row.plan.steps, Succeeding(reports), ReadySet(reports)) ==>
        st in row.plan.steps;
    }
    forall st | st in row.plan.steps ensures st.stepId in StepIds(row.plan.steps) {
      var k :| 0 <= k < |row.plan.steps| && row.plan.steps[k] == st;
      IdAt(row.plan.steps, k);
    }
  }

  lemma LiveSets(row: Row, d: Domain)
    requires RowOk(row) && LiveReports(row, d).Ok?
    ensures Succeeding(LiveReports(row, d).value) == Succ(row)
    ensures Reported(LiveReports(row, d).value) == row.reports.Keys
  {
    LiveFacts(row, d);
    ShapeSets(row, StepIds(row.plan.steps), LiveReports(row, d).value);
  }

  lemma ShapeSets(row: Row, ids: set<string>, reports: seq<Report>)
    requires LiveShape(row, ids, reports) && row.reports.Keys <= ids
    ensures Succeeding(reports) == Succ(row) && Reported(reports) == row.reports.Keys
  {
  }

  predicate MayPublish(row: Row, id: string, replay: bool) {
    if replay then id !in Succ(row) else id !in row.reports
  }

  /** One publish_step: the row only grows, only messages of this step are sent,
      and a step that may be published ends up published. */
  ghost predicate Publishes(row: Row, id: string, replay: bool, out: PublishResult) {
    && RowGrows(row, out.0) && out.0.reports == row.reports
    && (forall x :: Published(row, x) ==> Published(out.0, x))
    && (forall m :: m in out.1 ==> m.planId == row.planId && m.stepId == id)
    && (out.2.Ok? && MayPublish(row, id, replay) ==> Published(out.0, id) && (replay ==> Resent(out.1, id)))
  }

  lemma NotedPublishes(row: Row, id: string, replay: bool, message: string, messages: seq<Message>)
    requires RowOk(row) && forall m :: m in messages ==> m.planId == row.planId && m.stepId == id
    ensures Publishes(row, id, replay, (Noted(row, id, message), messages, Err(PlanError(message))))
  {
  }

  lemma SendPublishes(row: Row, id: string, replay: bool, d: Domain, now: real, fate: Fate)
    requires RowOk(row)
    ensures Publishes(row, id, replay, SendOutcome(row, id, replay, d, now, fate))
  {
    hide Publish, MarkPublished, Noted, RowOk, RowGrows, Publishes;
    match Publish(row, id, replay, d)
    case Err(e) => NotedPublishes(row, id, replay, e.message, []);
    case Ok(Nothing) => NothingPublishes(row, id, replay, d);
    case Ok(Send(m)) =>
      PublishFacts(row, id, replay, d);
      NotedPublishes(row, id, replay, "Broker unavailable", []);
      NotedPublishes(row, id, replay, "Commit failed", [m]);
      MarkedPublishes(row, id, replay, now, m);
  }

  lemma NothingPublishes(row: Row, id: string, replay: bool, d: Domain)
    requires RowOk(row) && Publish(row, id, replay, d) == Ok(Nothing)
    ensures Publishes(row, id, replay, (row, [], Ok(())))
  {
    hide Publish, RowOk, RowGrows, MayPublish, Published, Resent;
    PublishChoice(row, id, replay, d);
    RowGrowsRefl(row);
  }

  lemma MarkedPublishes(row: Row, id: string, replay: bool, now: real, m: Message)
    requires id in row.deliveries && m.planId == row.planId && m.stepId == id
    ensures Publishes(row, id, replay, (MarkPublished(row, id, now), [m], Ok(())))
  {
    MarkGrows(row, id, now);
    MarkPublishes(row, id, now);
  }

  lemma OutcomeFacts(row: Row, id: string, replay: bool, d: Domain, now: real, fate: Fate)
    requires RowOk(row)
    ensures Publishes(row, id, replay, PublishStepOutcome(row, id, replay, d, now, fate))
  {
    hide Prepare, SendOutcome, RowOk, RowGrows, Publishes, Noted;
    NotedPublishes(row, id, replay, "Preparation plans cannot publish work", []);
    match Prepare(row, id, d)
    case Err(e) => NotedPublishes(row, id, replay, e.message, []);
    case Ok(prepared) =>
      PreparedRowOk(row, id, d);
      PrepareFacts(row, id, d);
      SendPublishes(prepared, id, replay, d, now, fate);
      AfterPrepare(row, prepared, id, replay, SendOutcome(prepared, id, replay, d, now, fate));
  }

  lemma AfterPrepare(row: Row, prepared: Row, id: string, replay: bool, out: PublishResult)
    requires RowGrows(row, prepared) && prepared == row.(compiled := prepared.compiled)
    requires Publishes(prepared, id, replay, out)
    ensures Publishes(row, id, replay, out)
  {
  }

  lemma MarkPublishes(row: Row, id: string, now: real)
    requires id in row.deliveries
    ensures Published(MarkPublished(row, id, now), id) && MarkPublished(row, id, now).reports == row.reports
    ensures forall x :: Published(row, x) ==> Published(MarkPublished(row, id, now), x)
  {
  }

  /** publish_step stays silent only about steps already sent or reported. */
  lemma PublishChoice(row: Row, id: string, replay: bool, d: Domain)
    requires RowOk(row) && Publish(row, id, replay, d).Ok?
    ensures Publish(row, id, replay, d).value.Nothing? && MayPublish(row, id, replay) ==> Published(row, id) && !replay
  {
    if Publish(row, id, replay, d).value.Nothing? {
      PublishSilent(row, id, replay, d);
    }
    if LiveReports(row, d).Ok? {
      LiveFacts(row, d);
    }
    hide LiveReports, OrderOk, BindingsValid, Publish;
  }

  lemma PublishSilent(row: Row, id: string, replay: bool, d: Domain)
    requires Publish(row, id, replay, d).Ok? && Publish(row, id, replay, d).value.Nothing?
    ensures (Published(row, id) && !replay) || (LiveReports(row, d).Ok?
      && exists r :: r in LiveReports(row, d).value && r.stepId == id && (r.status == Succeeded || !replay))
  {
  }

  class PlanJournal {
    var rows: Rows
    var requests: map<(int, string), string>
    var sent: seq<Message>

    ghost predicate Valid()
      reads this
    {
      RowsInv(rows) && RequestsInv(rows, requests)
    }

    constructor ()
      ensures Valid() && rows == map[] && requests == map[] && sent == []
    {
      rows, requests, sent := map[], map[], [];
    }

    /** The delivery rows of a submitted plan: found, or created for their step. */
    method AddDeliveries(row: Row) returns (ok: bool, full: Row)
      requires OrderOk(row.plan.steps) && row.deliveries.Keys <= StepIds(row.plan.steps)
      ensures ok <==> DeliveriesMatch(row)
      ensures ok ==> full == WithDeliveries(row)
    {
      hide OrderOk, DeliveryFor, FindStep, DeliveriesMatch, WithDeliveries, DeliveryAgrees, StepIds;
      var deliveries := row.deliveries;
      assert row.plan.steps[..0] == [] && StepIds([]) == {} by { NoIds(); }
      for i := 0 to |row.plan.steps|
        invariant deliveries.Keys == row.deliveries.Keys + StepIds(row.plan.steps[..i])
        invariant forall id :: id in deliveries ==> deliveries[id] == DeliveryFor(row, id)
        invariant forall id :: id in StepIds(row.plan.steps[..i]) ==> DeliveryAgrees(row, id)
      {
        var step := row.plan.steps[i];
        DeliveryOfStep(row, step);
        if step.stepId !in deliveries {
          deliveries := deliveries[step.stepId := Delivery(JobOf(row.plan, step), None, "")];
        } else if deliveries[step.stepId].jobId != JobOf(row.plan, step) {
          Disagrees(row, step);
          return false, row;
        }
        assert row.plan.steps[..i + 1] == row.plan.steps[..i] + [step];
        StepIdsAppend(row.plan.steps[..i], step);
      }
      assert row.plan.steps[..|row.plan.steps|] == row.plan.steps;
      full := row.(deliveries := deliveries);
      AllAgree(row, deliveries);
      ok := true;
    }

    /** submit_plan up to its commit; an exception rolls everything back. */
    method Submit(s: Submission, d: Domain) returns (result: Result<Row, PlanError>)
      requires Valid()
      modifies this
      ensures Valid() && sent == old(sent)
      ensures result.Ok? <==> SubmitOk(old(rows), old(requests), s, d)
      ensures
        if result.Ok? then
          && result.value == WithDeliveries(SubmittedRow(old(rows), old(requests), s).value)
          && rows == old(rows)[result.value.planId := result.value]
          && requests == old(requests)[(s.workspace, s.plan.request.requestId) := result.value.planId]
        else rows == old(rows) && requests == old(requests)
    {
      hide LoadOk, DeliveriesMatch, OrderOk, WithDeliveries;
      var id := s.plan.request.requestId;
      if !(0 < |id| <= 64) {
        return Err(PlanError("request_id must be a non-empty string up to 64 characters"));
      }
      if s.plan.steps == [] {
        return Err(PlanError("Plan must contain a step"));
      }
      var key := (s.workspace, id);
      var row := NewRow(s);
      if key in requests {
        row := rows[requests[key]];
      } else if s.plan.planId in rows {
        return Err(PlanError("Duplicate plan id"));
      }
      assert SubmittedRow(rows, requests, s) == Some(row);
      if row.preparation != s.preparation {
        return Err(PlanError("Request publication mode cannot change"));
      }
      if row.createdBy != s.actor || row.sourceUid != s.plan.request.source.sourceId {
        return Err(PlanError("request_id was reused for another actor or source"));
      }
      var loaded := LoadSubmission(row);
      if loaded.Err? {
        return Err(loaded.error);
      }
      if !SamePlan(row.plan, s.plan) {
        return Err(PlanError("request_id was reused for another plan"));
      }
      if s.deadlineAt.Some? && row.plan.request.deadlineAt != s.deadlineAt.value {
        return Err(PlanError("request_id was reused with another deadline"));
      }
      if row.planId !in d.admitted {
        return Err(PlanError("Submission is not admitted"));
      }
      LoadedOrder(row);
      assert row.deliveries.Keys <= StepIds(row.plan.steps);
      var matching, full := AddDeliveries(row);
      if !matching {
        return Err(PlanError("Delivery identity does not match the stored step"));
      }
      DeliveriesOnly(row);
      assert SubmitAccepts(row, s, d) && SubmitOk(rows, requests, s, d);
      SubmittedValid(rows, requests, s, d);
      rows := rows[full.planId := full];
      requests := requests[key := full.planId];
      result := Ok(full);
    }

    /** prepare_step_command */
    method PrepareStepCommand(planId: string, stepId: string, d: Domain) returns (result: Result<(), PlanError>)
      requires Valid() && planId in rows
      modifies this`rows
      ensures Valid()
      ensures
        match Prepare(old(rows)[planId], stepId, d)
        case Ok(row) => result == Ok(()) && rows == old(rows)[planId := row]
        case Err(e) => result == Err(e) && rows == old(rows)
    {
      hide RowOk, LiveReports, ResolveInput, CompiledInput, RequestsInv;
      var row := rows[planId];
      if Prepare(row, stepId, d).Ok? {
        PreparedRowOk(row, stepId, d);
        PrepareFacts(row, stepId, d);
        RequestsKept(rows, planId, Prepare(row, stepId, d).value, requests);
      }
      var found := FindStep(row.plan.steps, stepId);
      if found.None? {
        return Err(PlanError("Unknown plan step"));
      }
      var step := found.value;
      if step.inputBinding.None? {
        assert rows == rows[planId := row];
        return Ok(());
      }
      if row.planId !in d.admitted {
        return Err(PlanError("Submission is not admitted"));
      }
      var reports := ReadLiveReports(row, d);
      if reports.Err? {
        return Err(reports.error);
      }
      if !Done(ReadySet(reports.value), step.dependsOn) {
        return Err(PlanError("Step dependencies are not ready"));
      }
      if stepId in row.compiled {
        var pinned := CompiledInput(row, step, d);
        assert pinned.Ok? ==> rows == rows[planId := row];
        return if pinned.Ok? then Ok(()) else Err(pinned.error);
      }
      var artifact := ResolveInput(row, step, d);
      if artifact.Err? {
        return Err(artifact.error);
      }
      if (row.planId, stepId) !in d.payloads {
        return Err(PlanError("Command cannot be compiled"));
      }
      var payload := d.payloads[(row.planId, stepId)];
      if !PayloadOk(d.registry, step.workKind, payload) {
        return Err(PlanError("Invalid payload fields"));
      }
      if (row.planId, stepId) !in d.approves {
        return Err(PlanError("Compiled command rejected"));
      }
      var command := TemplateCommand(row.plan, step).(payload := payload);
      row := row.(compiled := row.compiled[stepId := Compiled(command, artifact.value)]);
      rows := rows[planId := row];
      result := Ok(());
    }

    /** The locked transaction of publish_step, with the send inside it. */
    method SendStep(planId: string, stepId: string, replay: bool, d: Domain, now: real, fate: Fate)
      returns (result: Result<(), PlanError>)
      requires Valid() && planId in rows && !rows[planId].preparation
      modifies this`rows, this`sent
      ensures Valid()
      ensures
        match Publish(old(rows)[planId], stepId, replay, d)
        case Err(e) => result == Err(e) && rows == old(rows) && sent == old(sent)
        case Ok(Nothing) => result == Ok(()) && rows == old(rows) && sent == old(sent)
        case Ok(Send(m)) =>
          && sent == old(sent) + (if fate == SendFails then [] else [m])
          && match fate
             case Commits => result == Ok(())
               && rows == old(rows)[planId := MarkPublished(old(rows)[planId], stepId, now)]
             case SendFails => result == Err(PlanError("Broker unavailable")) && rows == old(rows)
             case SentThenRolledBack => result == Err(PlanError("Commit failed")) && rows == old(rows)
    {
      hide RowOk, LiveReports, CompiledInput, RequestsInv, MessageFor, MarkPublished, RowGrows;
      var row := rows[planId];
      assert RowOk(row);
      var found := FindStep(row.plan.steps, stepId);
      if found.None? {
        return Err(PlanError("Unknown plan step"));
      }
      var step := found.value;
      if stepId !in row.deliveries || row.deliveries[stepId].jobId != JobOf(row.plan, step) {
        return Err(PlanError("Delivery identity mismatch"));
      }
      if row.deliveries[stepId].publishedAt.Some? && !replay {
        return Ok(());
      }
      if row.planId !in d.admitted {
        return Err(PlanError("Submission is not admitted"));
      }
      var reports := ReadLiveReports(row, d);
      if reports.Err? {
        return Err(reports.error);
      }
      var current := ReportOf(reports.value, stepId);
      if current.Some? && (current.value.status == Succeeded || !replay) {
        return Ok(());
      }
      if !Done(ReadySet(reports.value), step.dependsOn) {
        return Err(PlanError("Step dependencies are not ready"));
      }
      var command: Result<Command, PlanError> := Ok(TemplateCommand(row.plan, step));
      if step.inputBinding.Some? {
        command := CompiledInput(row, step, d);
      }
      if command.Err? {
        return Err(command.error);
      }
      if !PayloadOk(d.registry, command.value.workKind, command.value.payload) {
        return Err(PlanError("Invalid payload fields"));
      }
      assert Publish(row, stepId, replay, d) == Ok(Send(MessageFor(row, step, command.value)));
      hide Publish;
      if fate == SendFails {
        return Err(PlanError("Broker unavailable"));
      }
      sent := sent + [MessageFor(row, step, command.value)];
      if fate == SentThenRolledBack {
        return Err(PlanError("Commit failed"));
      }
      PutMarked(rows, requests, planId, stepId, now);
      rows := rows[planId := MarkPublished(row, stepId, now)];
      result := Ok(());
    }

    /** The try block of publish_step: prepare and commit, then send. */
    method TryPublish(planId: string, stepId: string, replay: bool, d: Domain, now: real, fate: Fate)
      returns (result: Result<(), PlanError>)
      requires Valid() && planId in rows
      modifies this`rows, this`sent
      ensures Valid() && planId in rows
      ensures
        var out := PublishStepOutcome(old(rows)[planId], stepId, replay, d, now, fate);
        && result == out.2 && sent == old(sent) + out.1
        && rows == old(rows)[planId := rows[planId]]
        && out.0 == if result.Ok? then rows[planId] else Noted(rows[planId], stepId, result.error.message)
    {
      hide RowOk, RequestsInv, Prepare, Publish, MarkPublished, RowGrows, Noted;
      if rows[planId].preparation {
        return Err(PlanError("Preparation plans cannot publish work"));
      }
      PreparePreserves(rows[planId], stepId, d);
      result := PrepareStepCommand(planId, stepId, d);
      if result.Ok? {
        result := SendStep(planId, stepId, replay, d, now, fate);
      }
    }

    /** publish_step: on an exception the reason is stored and it is raised on. */
    method PublishStep(planId: string, stepId: string, replay: bool, d: Domain, now: real, fate: Fate)
      returns (result: Result<(), PlanError>)
      requires Valid()
      modifies this`rows, this`sent
      ensures Valid()
      ensures
        if planId in old(rows) then
          var out := PublishStepOutcome(old(rows)[planId], stepId, replay, d, now, fate);
          rows == old(rows)[planId := out.0] && sent == old(sent) + out.1 && result == out.2
        else result.Err? && rows == old(rows) && sent == old(sent)
    {
      hide PublishStepOutcome, RowOk, RequestsInv, Noted, RowGrows;
      if planId !in rows {
        return Err(PlanError("Submission does not exist"));
      }
      result := TryPublish(planId, stepId, replay, d, now, fate);
      if result.Err? {
        var noted := Noted(rows[planId], stepId, result.error.message);
        assert RowOk(rows[planId]);
        NotedRowOk(rows[planId], stepId, result.error.message);
        assert noted.planId == planId by { NotedShape(rows[planId], stepId, result.error.message); }
        RequestsKept(rows, planId, noted, requests);
        rows := rows[planId := noted];
      }
    }

    /** The loop of _publish_ready: the first failure ends it. The domain may
        answer, and the send may fare, differently each time round. */
    method PublishEach(planId: string, steps: seq<Step>, replay: bool, world: nat -> Domain, now: real,
        fates: nat -> Fate)
      returns (result: Result<(), PlanError>)
      requires Valid() && planId in rows
      requires forall st :: st in steps ==> MayPublish(rows[planId], st.stepId, replay)
      modifies this`rows, this`sent
      ensures Valid() && planId in rows && rows == old(rows)[planId := rows[planId]] && old(sent) <= sent
      ensures RowGrows(old(rows)[planId], rows[planId]) && rows[planId].reports == old(rows)[planId].reports
      ensures OnlyFor(planId, steps, sent[|old(sent)|..])
      ensures result.Ok? ==> AllOut(rows[planId], steps, replay, sent[|old(sent)|..])
    {
      hide RowOk, PublishStepOutcome, RequestsInv, RowGrows, OnlyFor, AllOut, Publishes;
      ghost var before, earlier := rows[planId], sent;
      RowGrowsRefl(before);
      NothingOut(planId, steps, before, replay);
      assert sent[|earlier|..] == [] && steps[..0] == [];
      for i := 0 to |steps|
        invariant Valid() && planId in rows && rows == old(rows)[planId := rows[planId]] && earlier <= sent
        invariant RowGrows(before, rows[planId]) && rows[planId].reports == before.reports
        invariant OnlyFor(planId, steps, sent[|earlier|..])
        invariant AllOut(rows[planId], steps[..i], replay, sent[|earlier|..])
      {
        ghost var last, log := rows[planId], sent;
        assert RowOk(last);
        OutcomeFacts(last, steps[i].stepId, replay, world(i), now, fates(i));
        result := PublishStep(planId, steps[i].stepId, replay, world(i), now, fates(i));
        ghost var out := PublishStepOutcome(last, steps[i].stepId, replay, world(i), now, fates(i));
        assert sent[|earlier|..] == log[|earlier|..] + out.1;
        OneMoreOut(before, last, planId, steps, i, replay, log[|earlier|..], out);
        if result.Err? {
          return;
        }
      }
      assert steps[..|steps|] == steps;
      result := Ok(());
    }

    /** submit_plan: once committed, a plan that may publish and never did is
        published; failures are logged and stay with the row. */
    method SubmitPlan(s: Submission, d: Domain, next: Domain, world: nat -> Domain, now: real, fates: nat -> Fate)
      returns (result: Result<Row, PlanError>)
      requires Valid()
      modifies this
      ensures Valid()
      ensures result.Ok? <==> SubmitOk(old(rows), old(requests), s, d)
      ensures result.Err? ==> rows == old(rows) && requests == old(requests) && sent == old(sent)
      ensures result.Ok? ==>
        var row := WithDeliveries(SubmittedRow(old(rows), old(requests), s).value);
        && result.value == row && requests == old(requests)[(s.workspace, s.plan.request.requestId) := row.planId]
        && row.planId in rows && rows == old(rows)[row.planId := rows[row.planId]] && old(sent) <= sent
        && if row.preparation || row.publishedAt.Some? then rows[row.planId] == row && sent == old(sent)
           else exists ok :: GoesOut(row, rows[row.planId], false, next, sent[|old(sent)|..], ok)
    {
      hide RowsInv, RequestsInv, SubmitOk, WithDeliveries, GoesOut;
      result := Submit(s, d);
      if result.Ok? && !result.value.preparation && result.value.publishedAt.None? {
        var published := PublishReady(result.value.planId, false, next, world, now, fates);
      }
    }

    /** PlanDelivery.record_response: once committed, a success publishes what it
        made ready; a failure to do so is raised, but the record stays. */
    method RecordAndPublish(
      e: Envelope, response: Receipt, d: Domain, next: Domain, world: nat -> Domain, now: real, fates: nat -> Fate)
      returns (result: Result<Report, PlanError>)
      requires Valid()
      modifies this`rows, this`sent
      ensures Valid()
      ensures
        if e.planId.Some? && e.planId.value in old(rows) && Record(old(rows)[e.planId.value], e, response, d).Ok? then
          var p, row := e.planId.value, Record(old(rows)[e.planId.value], e, response, d).value;
          && p in rows && rows == old(rows)[p := rows[p]] && old(sent) <= sent
          && (result.Ok? ==> result.value.stepId in row.reports && row.reports[result.value.stepId] == result.value)
          && if response.status == Succeeded then GoesOut(row, rows[p], false, next, sent[|old(sent)|..], result.Ok?)
             else rows[p] == row && sent == old(sent) && result.Ok?
        else result.Err? && rows == old(rows) && sent == old(sent)
    {
      hide RowsInv, RequestsInv, Record, GoesOut;
      result := RecordResponse(e, response, d);
      if result.Ok? && result.value.status == Succeeded {
        var published := PublishReady(e.planId.value, false, next, world, now, fates);
        if published.Err? {
          result := Err(published.error);
        }
      }
    }

    /** _publish_ready inside publish_submission. */
    method PublishReady(planId: string, replay: bool, d: Domain, world: nat -> Domain, now: real, fates: nat -> Fate)
      returns (result: Result<(), PlanError>)
      requires Valid() && planId in rows
      modifies this`rows, this`sent
      ensures Valid() && planId in rows && rows == old(rows)[planId := rows[planId]] && old(sent) <= sent
      ensures GoesOut(old(rows)[planId], rows[planId], replay, d, sent[|old(sent)|..], result.Ok?)
    {
      hide RowOk, LiveReports, RequestsInv, EligibleNow, ReadySteps, RowGrows, OnlyFor, AllOut;
      RowGrowsRefl(rows[planId]);
      var row := rows[planId];
      if row.planId !in d.admitted {
        NoteRow(planId, "Submission is not admitted");
        NothingSent(planId, EligibleNow(row, replay, d));
        assert sent[|sent|..] == [];
        return Err(PlanError("Submission is not admitted"));
      }
      var eligible := EligibleNow(row, replay, d);
      if eligible.Err? {
        NoteRow(planId, eligible.error.message);
        return Err(eligible.error);
      }
      assert RowOk(row);
      EligibleFacts(row, replay, d);
      result := PublishEach(planId, eligible.value, replay, world, now, fates);
      if result.Err? {
        ghost var grown := rows[planId];
        NoteRow(planId, result.error.message);
        RowGrowsTrans(row, grown, rows[planId]);
      }
    }

    /** publish_submission's except branch. */
    method NoteRow(planId: string, message: string)
      requires Valid() && planId in rows
      modifies this`rows
      ensures Valid() && rows == old(rows)[planId := old(rows)[planId].(publishError := Clip(message))]
      ensures RowGrows(old(rows)[planId], rows[planId])
    {
      hide RowOk, RequestsInv;
      assert RowOk(rows[planId]);
      var row := rows[planId].(publishError := Clip(message));
      QuietRowOk(rows[planId], row);
      RequestsKept(rows, planId, row, requests);
      rows := rows[planId := row];
    }

    /** record_response up to its commit; an exception rolls everything back. */
    method RecordResponse(e: Envelope, response: Receipt, d: Domain) returns (result: Result<Report, PlanError>)
      requires Valid()
      modifies this`rows
      ensures Valid()
      ensures
        if e.planId.Some? && e.planId.value in old(rows) && Record(old(rows)[e.planId.value], e, response, d).Ok? then
          && rows == old(rows)[e.planId.value := Record(old(rows)[e.planId.value], e, response, d).value]
          && result.Ok? && result.value.stepId in rows[e.planId.value].reports
          && rows[e.planId.value].reports[result.value.stepId] == result.value && result.value.status == response.status
        else result.Err? && rows == old(rows)
    {
      hide ApprovedDelivery, LiveReports, RowOk, RequestsInv, CompletionCandidate, ApprovedCommands, RowGrows, Accept;
      if e.planId.None? || e.planId.value !in rows {
        return Err(PlanError("Submission does not exist"));
      }
      var row := rows[e.planId.value];
      assert RowOk(row);
      var accepted := AcceptResponse(row, e, response, d);
      if accepted.Err? {
        return Err(accepted.error);
      }
      var (current, report) := accepted.value;
      var reports := ReadLiveReports(current, d);
      if reports.Err? {
        return Err(reports.error);
      }
      var outcome :- CompletionCandidate(current.plan, reports.value);
      var commands :- ApprovedCommands(current, d.registry);
      if !AllFollowupsOk(d.registry, current.proposals) {
        return Err(PlanError("Invalid executor followup envelope"));
      }
      var settled := current.(outcome := Some(outcome), decisions := Decisions(current, reports.value, commands));
      assert Record(row, e, response, d) == Ok(settled);
      RecordedRowOk(row, e, response, d);
      hide Record, Settle;
      RequestsKept(rows, e.planId.value, settled, requests);
      rows := rows[e.planId.value := settled];
      result := Ok(report);
    }

    /** The checks of record_response and the report it puts into the row. */
    method AcceptResponse(row: Row, e: Envelope, response: Receipt, d: Domain)
      returns (result: Result<(Row, Report), PlanError>)
      ensures
        match Accept(row, e, response, d)
        case Err(_) => result.Err?
        case Ok(accepted) => result.Ok? && result.value.0 == accepted
      ensures result.Ok? ==>
        && result.value.1.stepId in result.value.0.reports
        && result.value.0.reports[result.value.1.stepId] == result.value.1
        && result.value.1.status == response.status
    {
      hide ApprovedDelivery, FollowupOk, JobOf, AdapterReport;
      var step :- ApprovedDelivery(row, e, d.registry);
      if exists p | p in response.followups :: !FollowupOk(d.registry, p) {
        return Err(PlanError("Invalid executor followup envelope"));
      }
      if response.jobId != JobOf(row.plan, step) || response.workKind != step.workKind {
        return Err(PlanError("Receipt identity does not match plan step"));
      }
      var report :- AdapterReport(row.plan, step, response.status, d);
      if step.stepId in row.reports && row.reports[step.stepId].status == Succeeded && report.status != Succeeded {
        return Err(PlanError("A successful step cannot regress"));
      }
      var current := row.(reports := row.reports[report.stepId := report]);
      current := current.(proposals := current.proposals[report.stepId := response.followups]);
      result := Ok((current, report));
    }

    /** PlanDelivery.authorize behind authorize_if_planned. */
    method AuthorizeIfPlanned(e: Envelope, d: Domain) returns (allowed: bool)
      ensures allowed <==> Authorized(rows, e, d)
    {
      hide ApprovedDelivery, LiveReports;
      if !Planned(rows, e) {
        return true;
      }
      if e.planId.None? || e.planId.value !in rows {
        return false;
      }
      var row := rows[e.planId.value];
      var step := ApprovedDelivery(row, e, d.registry);
      if step.Err? || row.planId !in d.admitted {
        return false;
      }
      var reports := ReadLiveReports(row, d);
      return reports.Ok? && Done(ReadySet(reports.value), step.value.dependsOn);
    }
  }

  /** A submission that is accepted leaves the journal in order. */
  lemma SubmittedValid(rows: Rows, requests: map<(int, string), string>, s: Submission, d: Domain)
    requires RowsInv(rows) && RequestsInv(rows, requests) && SubmitOk(rows, requests, s, d)
    ensures
      var full := WithDeliveries(SubmittedRow(rows, requests, s).value);
      && RowsInv(rows[full.planId := full])
      && RequestsInv(rows[full.planId := full], requests[(s.workspace, s.plan.request.requestId) := full.planId])
  {
    hide SubmitAccepts, RowOk, WithDeliveries, RequestsInv;
    var row, key := SubmittedRow(rows, requests, s).value, (s.workspace, s.plan.request.requestId);
    DeliveriesOnly(row);
    if key in requests {
      FoundSame(rows, requests, key);
    } else {
      NewRowOk(row, s, d);
      NewPlanRequests(rows, WithDeliveries(row), requests);
    }
  }

  lemma FoundSame(rows: Rows, requests: map<(int, string), string>, key: (int, string))
    requires RowsInv(rows) && RequestsInv(rows, requests) && key in requests
    ensures requests[key] in rows && WithDeliveries(rows[requests[key]]) == rows[requests[key]]
    ensures rows[rows[requests[key]].planId := rows[requests[key]]] == rows
      && requests[key := rows[requests[key]].planId] == requests
  {
    var row := rows[requests[key]];
    assert RowOk(row);
    WithDeliveriesSame(row);
    hide RowOk, WithDeliveries;
  }

  lemma LoadedOrder(row: Row)
    requires LoadOk(row)
    ensures OrderOk(row.plan.steps)
  {
  }

  lemma NotedShape(row: Row, stepId: string, message: string)
    ensures Noted(row, stepId, message).planId == row.planId
  {
  }

  lemma PreparePreserves(row: Row, stepId: string, d: Domain)
    ensures Prepare(row, stepId, d).Ok? ==> Prepare(row, stepId, d).value.preparation == row.preparation
  {
  }

  lemma PutMarked(rows: Rows, requests: map<(int, string), string>, planId: string, stepId: string, now: real)
    requires RowsInv(rows) && RequestsInv(rows, requests) && planId in rows && stepId in rows[planId].deliveries
    ensures RowsInv(rows[planId := MarkPublished(rows[planId], stepId, now)])
    ensures RequestsInv(rows[planId := MarkPublished(rows[planId], stepId, now)], requests)
  {
    hide RowOk, RowGrows, RequestsInv;
    var row := rows[planId];
    assert RowOk(row);
    MarkGrows(row, stepId, now);
    MarkKeepsRow(row, stepId, now);
    MarkShape(row, stepId, now);
    RequestsKept(rows, planId, MarkPublished(row, stepId, now), requests);
  }

  lemma RecordedRowOk(row: Row, e: Envelope, response: Receipt, d: Domain)
    requires RowOk(row) && Record(row, e, response, d).Ok?
    ensures RowOk(Record(row, e, response, d).value) && RowGrows(row, Record(row, e, response, d).value)
    ensures Record(row, e, response, d).value.planId == row.planId
  {
    hide OrderOk, BindingsValid, FindStep, LiveReports, ApprovedDelivery;
    RecordGrows(row, e, response, d);
    AcceptFacts(row, e, response, d);
    SettleFacts(Accept(row, e, response, d).value, d);
  }

  // ------------------------------------- the methods are steps of the protocol

  function After(s: State, planId: string, out: PublishResult): State {
    s.(rows := s.rows[planId := out.0], wire := s.wire + SetOf(out.1), sent := s.sent + SetOf(out.1))
  }

  function SetOf(messages: seq<Message>): set<Message> {
    set m | m in messages
  }

  lemma AddStep(states: seq<State>, events: seq<Event>, e: Event, s': State)
    requires Path(states, events) && Next(states[|events|], e, s')
    ensures Path(states + [s'], events + [e])
  {
    hide Next;
    var all, evs := states + [s'], events + [e];
    forall k | 0 <= k < |evs| ensures Next(all[k], evs[k], all[k + 1]) {
      if k < |events| {
        assert Next(states[k], events[k], states[k + 1]);
      }
    }
  }

  /** publish_step, with its own transactions, failures and rollbacks, is a short
      path of the protocol: what holds of every run holds of its effects. */
  lemma PublishIsProtocol(s: State, planId: string, stepId: string, replay: bool, d: Domain, now: real, fate: Fate)
    returns (states: seq<State>, events: seq<Event>)
    requires planId in s.rows
    ensures Path(states, events) && states[0] == s
    ensures states[|events|] == After(s, planId, PublishStepOutcome(s.rows[planId], stepId, replay, d, now, fate))
  {
    hide Prepare, SendOutcome, Noted;
    states, events := [s], [];
    var row := s.rows[planId];
    if row.preparation {
      states, events := NoteIsStep(states, events, planId, stepId, "Preparation plans cannot publish work");
    } else if Prepare(row, stepId, d).Err? {
      states, events := NoteIsStep(states, events, planId, stepId, Prepare(row, stepId, d).error.message);
    } else {
      var mid := s.(rows := s.rows[planId := Prepare(row, stepId, d).value]);
      AddStep(states, events, PrepareCommand(planId, stepId, d), mid);
      states, events := states + [mid], events + [PrepareCommand(planId, stepId, d)];
      states, events := SendIsPath(states, events, planId, stepId, replay, d, now, fate);
      SameAfter(s, mid, planId, SendOutcome(mid.rows[planId], stepId, replay, d, now, fate));
    }
  }

  lemma SameAfter(s: State, mid: State, planId: string, out: PublishResult)
    requires planId in s.rows && planId in mid.rows && mid == s.(rows := s.rows[planId := mid.rows[planId]])
    ensures After(mid, planId, out) == After(s, planId, out)
  {
  }

  lemma NoteIsStep(before: seq<State>, log: seq<Event>, planId: string, stepId: string, text: string)
    returns (states: seq<State>, events: seq<Event>)
    requires Path(before, log) && planId in before[|log|].rows
    ensures Path(states, events) && |states| == |events| + 1 && states[0] == before[0]
    ensures var s := before[|log|];
      states[|events|] == s.(rows := s.rows[planId := Noted(s.rows[planId], stepId, text)])
    ensures states[|events|] ==
      After(before[|log|], planId, (Noted(before[|log|].rows[planId], stepId, text), [], Err(PlanError(text))))
  {
    hide Noted;
    var s := before[|log|];
    var s' := s.(rows := s.rows[planId := Noted(s.rows[planId], stepId, text)]);
    AddStep(before, log, NoteError(planId, stepId, text), s');
    states, events := before + [s'], log + [NoteError(planId, stepId, text)];
    assert s.wire + SetOf([]) == s.wire && s.sent + SetOf([]) == s.sent;
  }

  lemma PathEnds(states: seq<State>, events: seq<Event>)
    requires Path(states, events)
    ensures |states| == |events| + 1
  {
  }

  /** The state after the send and the commit behind it, before any note. */
  lemma Sends(s: State, event: Event, choice: Publication) returns (s': State)
    requires event.PublishCommand? && event.planId in s.rows
    requires Publish(s.rows[event.planId], event.stepId, event.replay, event.d) == Ok(choice)
    requires choice.Send? ==> event.stepId in s.rows[event.planId].deliveries
    ensures Next(s, event, s')
    ensures
      var row := s.rows[event.planId];
      var messages := if choice.Send? && event.fate != SendFails then [choice.message] else [];
      s' == After(s, event.planId,
                  (if choice.Send? && event.fate == Commits
                    then MarkPublished(row, event.stepId, event.now) else row, messages, Ok(())))
  {
    hide Publish, MarkPublished, Next;
    var row := s.rows[event.planId];
    var messages := if choice.Send? && event.fate != SendFails then [choice.message] else [];
    var marked := if choice.Send? && event.fate == Commits then MarkPublished(row, event.stepId, event.now) else row;
    s' := After(s, event.planId, (marked, messages, Ok(())));
    assert s.rows[event.planId := row] == s.rows;
    assert SetOf(messages) == if choice.Send? && event.fate != SendFails then {choice.message} else {};
    assert s.wire + {} == s.wire && s.sent + {} == s.sent;
    PublishNext(s, event, choice, s');
  }

  lemma SendIsPath(
    before: seq<State>, log: seq<Event>, planId: string, stepId: string, replay: bool, d: Domain, now: real, fate: Fate)
    returns (states: seq<State>, events: seq<Event>)
    requires Path(before, log) && planId in before[|log|].rows
    ensures Path(states, events) && |states| == |events| + 1 && states[0] == before[0]
    ensures states[|events|] ==
      After(before[|log|], planId, SendOutcome(before[|log|].rows[planId], stepId, replay, d, now, fate))
  {
    hide Publish, Noted, MarkPublished, Path, Next, After;
    PathEnds(before, log);
    var s := before[|log|];
    var row := s.rows[planId];
    match Publish(row, stepId, replay, d)
    case Err(e) => states, events := NoteIsStep(before, log, planId, stepId, e.message);
    case Ok(choice) =>
      if choice.Send? {
        PublishFacts(row, stepId, replay, d);
      }
      var event := PublishCommand(planId, stepId, replay, d, now, fate);
      var s' := Sends(s, event, choice);
      AddStep(before, log, event, s');
      states, events := before + [s'], log + [event];
      PathEnds(states, events);
      if choice.Send? && fate != Commits {
        var text := if fate == SendFails then "Broker unavailable" else "Commit failed";
        var messages := if fate == SendFails then [] else [choice.message];
        NoteAfter(s, planId, row, messages, Noted(row, stepId, text), text);
        states, events := NoteIsStep(states, events, planId, stepId, text);
      }
  }

  /** Sending and then noting a failure is one change of the row. */
  lemma NoteAfter(s: State, planId: string, row: Row, messages: seq<Message>, noted: Row, text: string)
    ensures
      var sent := After(s, planId, (row, messages, Ok(())));
      && planId in sent.rows && sent.rows[planId] == row
      && After(sent, planId, (noted, [], Err(PlanError(text)))) ==
         After(s, planId, (noted, messages, Err(PlanError(text))))
  {
    var sent := After(s, planId, (row, messages, Ok(())));
    assert sent.rows[planId := noted] == s.rows[planId := noted];
    assert SetOf([]) == {};
  }

  lemma PublishNext(s: State, e: Event, choice: Publication, s': State)
    requires e.PublishCommand? && e.planId in s.rows && Publish(s.rows[e.planId], e.stepId, e.replay, e.d) == Ok(choice)
    requires choice.Send? ==> e.stepId in s.rows[e.planId].deliveries
    requires
      if choice.Nothing? || e.fate == SendFails then s' == s
      else if e.fate == SentThenRolledBack
        then s' == s.(wire := s.wire + {choice.message}, sent := s.sent + {choice.message})
      else s' == s.(rows := s.rows[e.planId := MarkPublished(s.rows[e.planId], e.stepId, e.now)],
                    wire := s.wire + {choice.message}, sent := s.sent + {choice.message})
    ensures Next(s, e, s')
  {
  }
}
