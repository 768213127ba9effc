/** The transport task inside the delivery protocol: what it observes of journal and
    receipts, and what of it reaches them. */
module DispatchProtocol {
  import opened Wrappers
  import opened Plans
  import opened Receipts
  import opened Submissions
  import opened DeliveryProtocol
  import opened DeliveryTheorems
  import Dispatch

  // ------------------------------------------------- receipts are in circulation

  /** A response may carry any receipt the table holds. */
  ghost predicate TableShown(s: State) {
    forall j :: j in s.table ==> s.table[j] in s.shown
  }

  lemma StepShows(s: State, e: Event, s': State)
    requires TableOk(s.table) && TableShown(s) && Next(s, e, s')
    ensures TableShown(s')
  {
    hide SubmitOk, Prepare, Publish, Record, Authorized, MarkPublished, Noted, ClaimStep, TargetStable;
    if e.ClaimJob? {
      ClaimShows(s.table, e.q, e.table', e.answer);
    }
  }

  lemma ClaimShows(t: Table, q: ClaimRequest, t': Table, answer: Result<Claim, ReceiptError>)
    requires TableOk(t) && ClaimStep(t, q, t', answer)
    ensures forall j :: j in t' ==> (j in t && t'[j] == t[j]) || (answer.Ok? && t'[j] == answer.value.receipt)
  {
  }

  lemma {:induction false} RunShows(states: seq<State>, events: seq<Event>, k: nat)
    requires Run(states, events) && k < |states|
    ensures TableShown(states[k])
  {
    hide PlanInv, OnceInv, SentInv, UnmarkedInv, Next, TableShown;
    if k == 0 {
      assert TableShown(Initial) by { NothingStored(); }
    } else {
      RunShows(states, events, k - 1);
      RunKeeps(states, events, k - 1);
      PlanParts(states[k - 1]);
      assert Next(states[k - 1], events[k - 1], states[k]);
      StepShows(states[k - 1], events[k - 1], states[k]);
    }
  }

  lemma NothingStored()
    ensures TableShown(Initial)
  {
  }

  // ----------------------------------------------------- what a run observes

  /** authorize_report lets the envelope through. */
  predicate Linked(rows: Rows, e: Envelope, d: Domain) {
    e.planId.Some? && e.planId.value in rows && ApprovedDelivery(rows[e.planId.value], e, d.registry).Ok?
  }

  /** PlanDelivery.authorize lets the envelope through. */
  predicate Admits(rows: Rows, e: Envelope, d: Domain) {
    e.planId.Some? && e.planId.value in rows && AuthorizeRow(rows[e.planId.value], e, d)
  }

  /** The answers of one run of a plan message: linkage, then the receipt, then
      authority, each as it was at its moment. The lookup may fail. */
  ghost predicate Observes(link: State, look: State, auth: State, t: Dispatch.Task, w: Dispatch.World, d: Domain,
      later: Domain)
  {
    var e := Dispatch.EnvelopeFor(t, w);
    && (w.linked <==> Linked(link.rows, e, d))
    && (w.lookup.Found? ==> t.jobId in look.table && w.lookup.receipt == look.table[t.jobId])
    && (w.authorized <==> Admits(auth.rows, e, later))
  }

  /** The task as publish_step sends it. */
  function TaskOf(m: Message): Dispatch.Task {
    Dispatch.Task.Task(m.jobId, m.workKind, m.payload, Some(m.parentJobId),
                       Dispatch.Headers(Some(m.deadlineAt), Some(m.planId), Some(m.stepId)), 0, false)
  }

  /** MAIN RESULT. Whatever comes of a message of the protocol, retried and
      redelivered any number of times, sends executors that message's envelope and
      nothing else, before its deadline. */
  lemma SendsTheMessage(m: Message, all: seq<Dispatch.Attempt>, k: nat, x: nat)
    requires Dispatch.Deliveries(all) && all[0].task == TaskOf(m)
    requires k < |all| && x < |all[k].added| && all[k].added[x].Sent?
    ensures all[k].added[x].envelope == EnvelopeOf(m) && all[k].world.beforeSlot < m.deadlineAt
  {
    Dispatch.OneEnvelope(all, k, x);
  }

  lemma AdmittedIsAuthorized(rows: Rows, e: Envelope, d: Domain)
    requires RowsInv(rows) && Admits(rows, e, d)
    ensures Authorized(rows, e, d) && e.stepId.Some? && ReadyNow(rows[e.planId.value], e.stepId.value, d)
  {
    assert RowOk(rows[e.planId.value]);
    RowOrder(rows[e.planId.value]);
    AuthorizedFacts(rows[e.planId.value], e, d);
    hide AuthorizeRow, LiveReports, OrderOk, BindingsValid;
  }

  /** MAIN RESULT. What a run of a plan message sends could be received at the
      moment it was authorized: the step's dependencies were ready, and it carries
      what was first sent for the step. */
  lemma SentIsReceivable(
    states: seq<State>, events: seq<Event>, link: nat, look: nat, auth: nat, t: Dispatch.Task, w: Dispatch.World,
    d: Domain, later: Domain, busy: bool, added: seq<Dispatch.Action>, x: nat, m: Message)
    requires Run(states, events) && link <= look <= auth < |states| && Dispatch.Planned(t)
    requires Observes(states[link], states[look], states[auth], t, w, d, later)
    requires Dispatch.Allowed(t, w, busy, added) && x < |added| && added[x].Sent?
    ensures
      var e := added[x].envelope;
      && Authorized(states[auth].rows, e, later) && e.planId.Some? && e.stepId.Some?
      && ReadyNow(states[auth].rows[e.planId.value], e.stepId.value, later)
      && (m in states[auth].sent && m.planId == e.planId.value && m.stepId == e.stepId.value ==>
            e.jobId == m.jobId && e.workKind == m.workKind && e.payload == m.payload
              && e.deadlineAt == Some(m.deadlineAt))
  {
    hide PlanInv, OnceInv, SentInv, UnmarkedInv, AuthorizeRow, Authorized, ReadyNow, Run;
    var e := added[x].envelope;
    assert Dispatch.SendAllowed(t, w, busy, e);
    assert Admits(states[auth].rows, e, later);
    RunKeeps(states, events, auth);
    PlanParts(states[auth]);
    AdmittedIsAuthorized(states[auth].rows, e, later);
    if m in states[auth].sent && m.planId == e.planId.value && m.stepId == e.stepId.value {
      PinnedPayload(states, events, auth, auth, m, e, AnyReceipt(m), later);
    }
  }

  /** A response nobody looks at. */
  function AnyReceipt(m: Message): Receipt {
    Receipt.Receipt(m.jobId, m.workKind, "", m.payload, EmptySnapshot, Null, Running, 1, false, Null, [], "")
  }

  /** MAIN RESULT. A plan message that is not on its first way asks for the receipt,
      and work that has succeeded by then is never sent to an executor again. */
  lemma DoneIsNotSentAgain(
    states: seq<State>, events: seq<Event>, link: nat, look: nat, auth: nat, t: Dispatch.Task, w: Dispatch.World,
    d: Domain, later: Domain, busy: bool, added: seq<Dispatch.Action>, k: nat)
    requires Run(states, events) && link <= look <= auth < |states| && Dispatch.AsksFirst(t)
    requires Observes(states[link], states[look], states[auth], t, w, d, later) && Dispatch.Allowed(t, w, busy, added)
    requires k <= look && t.jobId in states[k].table && states[k].table[t.jobId].status == Succeeded
    ensures Dispatch.NothingSent(added)
  {
    hide Run;
    SuccessIsForever(states, events, k, look, t.jobId);
  }

  /** MAIN RESULT. A receipt that was looked up and reported instead of sending is
      the stored one, and recording it is a step of the protocol whenever the
      journal accepts it, then or later. A success stays what was reported. */
  lemma LookedUpIsRecordable(
    states: seq<State>, events: seq<Event>, link: nat, look: nat, auth: nat, t: Dispatch.Task, w: Dispatch.World,
    d: Domain, later: Domain, busy: bool, added: seq<Dispatch.Action>, x: nat, k: nat)
    requires Run(states, events) && link <= look <= auth < |states| && Dispatch.NothingSent(added)
    requires Observes(states[link], states[look], states[auth], t, w, d, later) && Dispatch.Allowed(t, w, busy, added)
    requires x < |added| && added[x].Reported? && look <= k < |states|
    ensures
      var response, e := added[x].response, Dispatch.EnvelopeFor(t, w);
      && response.jobId == t.jobId && response.workKind == t.kind && Dispatch.Terminal(response)
      && t.jobId in states[look].table && response == states[look].table[t.jobId] && response in states[k].shown
      && (response.status == Succeeded ==> t.jobId in states[k].table && states[k].table[t.jobId] == response)
      && (forall now: Domain ::
            e.planId.Some? && e.planId.value in states[k].rows
              && Record(states[k].rows[e.planId.value], e, response, now).Ok? ==>
              RecordStep(states[k], e, response, now,
                states[k].(rows := states[k].rows[
                  e.planId.value := Record(states[k].rows[e.planId.value], e, response, now).value])))
  {
    hide Run, Record;
    assert Dispatch.ReportAllowed(t, w, added, x);
    assert x > 0 ==> !added[x - 1].Sent?;
    var response := added[x].response;
    RunShows(states, events, look);
    ShownStays(states, events, look, k, response);
    if response.status == Succeeded {
      SuccessIsForever(states, events, look, k, t.jobId);
    }
  }

  lemma {:induction false} ShownStays(states: seq<State>, events: seq<Event>, i: nat, k: nat, r: Receipt)
    requires Run(states, events) && i <= k < |states| && r in states[i].shown
    ensures r in states[k].shown
  {
    hide PlanInv, OnceInv, SentInv, UnmarkedInv, Next;
    if i < k {
      ShownStays(states, events, i, k - 1, r);
      RunKeeps(states, events, k - 1);
      PlanParts(states[k - 1]);
      assert Next(states[k - 1], events[k - 1], states[k]);
      StepGrows(states[k - 1], events[k - 1], states[k]);
    }
  }
}
