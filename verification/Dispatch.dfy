/** app/orchestration/celery_adapter.py: one run of the transport task that hands
    an envelope to an executor, or puts itself back on the queue. */
module Dispatch {
  import opened Wrappers
  import opened Plans
  import opened Receipts
  import Submissions

  const Patience := 1800.0

  /** Task headers. The deadline is written in on the first run. */
  datatype Headers = Headers(deadline: Option<real>, planId: Option<string>, stepId: Option<string>)

  datatype Task = Task(
    jobId: JobId, kind: string, payload: Json, parent: Option<JobId>, headers: Headers, retries: nat, redelivered: bool)

  datatype Lookup = Found(receipt: Receipt) | LookupFails(retryable: bool)
  datatype Reply = Answered(response: Receipt) | NoReply(retryable: bool)
  datatype Recording = Recorded | BadResult | Refused(retryable: bool) | Broke

  /** What the rest of the world answers during one run; `clock` is read in order. */
  datatype World = World(
    linked: bool,          // authorize_report passes
    lookup: Lookup, authorized: bool, capable: bool, reply: Reply, recording: Recording,
    start: real, retryTime: real, beforeSlot: real)

  datatype Action = Asked | Sent(envelope: Submissions.Envelope) | Reported(response: Receipt)

  datatype Outcome =
    | Finished(response: Receipt)
    | GaveUp(code: string)
    | Again(headers: Headers)       // task.retry, with these headers
    | PastDeadline                  // ExecutorDispatchError, not retryable

  function Deadline(t: Task, w: World): real {
    if t.headers.deadline.Some? then t.headers.deadline.value else w.start + Patience
  }

  predicate Planned(t: Task) {
    t.headers.planId.Some? || t.headers.stepId.Some?
  }

  function EnvelopeFor(t: Task, w: World): Submissions.Envelope {
    Submissions.Envelope.Envelope(t.jobId, t.kind, t.payload, t.headers.planId, t.headers.stepId, t.parent,
      Some(Deadline(t, w)))
  }

  predicate Terminal(r: Receipt) {
    r.status == Succeeded || (r.status == Status.Failed && !r.retryable)
  }

  /** A redelivered plan message first asks whether its work is already over. */
  predicate AsksFirst(t: Task) {
    Planned(t) && (t.retries > 0 || t.redelivered)
  }

  /** The executor is asked to work: the slot was free, the work kind is admitted,
      the deadline lies ahead, and a plan command has authority and is not over. */
  predicate SendAllowed(t: Task, w: World, busy: bool, e: Submissions.Envelope) {
    && !busy && e == EnvelopeFor(t, w) && w.capable && w.beforeSlot < Deadline(t, w)
    && (Planned(t) ==> w.authorized)
    && (AsksFirst(t) ==> w.linked && w.lookup.Found? && !Terminal(w.lookup.receipt))
  }

  /** A response is reported that answers this send, or is this job's receipt,
      found terminal with nothing sent. */
  predicate ReportAllowed(t: Task, w: World, added: seq<Action>, k: nat)
    requires k < |added| && added[k].Reported?
  {
    || (k > 0 && added[k - 1].Sent? && w.reply == Answered(added[k].response))
    || (&& AsksFirst(t) && w.lookup == Found(added[k].response) && Terminal(added[k].response)
        && added[k].response.jobId == t.jobId && added[k].response.workKind == t.kind
        && forall i :: 0 <= i < |added| ==> !added[i].Sent?)
  }

  ghost predicate Allowed(t: Task, w: World, busy: bool, added: seq<Action>) {
    && (forall k :: 0 <= k < |added| && added[k].Sent? ==> SendAllowed(t, w, busy, added[k].envelope))
    && (forall i, j :: 0 <= i < j < |added| ==> !(added[i].Sent? && added[j].Sent?))
    && forall k :: 0 <= k < |added| && added[k].Reported? ==> ReportAllowed(t, w, added, k)
  }

  /** What one run did and how it ended. */
  ghost predicate Dispatched(t: Task, w: World, busy: bool, added: seq<Action>, outcome: Outcome) {
    && Allowed(t, w, busy, added)
    && (outcome.Again? ==>
         outcome.headers == t.headers.(deadline := Some(Deadline(t, w))) && w.retryTime < Deadline(t, w))
    && (outcome.Finished? ==> added != [] && added[|added| - 1] == Reported(outcome.response))
  }

  predicate NothingSent(added: seq<Action>) {
    forall k :: 0 <= k < |added| ==> !added[k].Sent?
  }

  class Transport {
    var slotTaken: bool
    var log: seq<Action>

    constructor ()
      ensures !slotTaken && log == []
    {
      slotTaken, log := false, [];
    }

    /** retry: only while the deadline lies ahead, and with the deadline in the headers. */
    method Retry(t: Task, w: World) returns (outcome: Outcome)
      ensures outcome ==
        if w.retryTime >= Deadline(t, w) then PastDeadline else Again(t.headers.(deadline := Some(Deadline(t, w))))
    {
      if w.retryTime >= Deadline(t, w) {
        return PastDeadline;
      }
      outcome := Again(t.headers.(deadline := Some(Deadline(t, w))));
    }

    /** record: into the plan journal, or on to the follow-ups. */
    method RecordResponse(t: Task, w: World, response: Receipt) returns (outcome: Outcome)
      modifies this`log
      ensures log == old(log) + [Reported(response)]
      ensures outcome.Finished? ==> outcome == Finished(response) && w.recording == Recorded
      ensures outcome.Again? ==>
        outcome.headers == t.headers.(deadline := Some(Deadline(t, w))) && w.retryTime < Deadline(t, w)
    {
      log := log + [Reported(response)];
      match w.recording
      case Recorded => outcome := Finished(response);
      case BadResult => outcome := GaveUp(if Planned(t) then "INVALID_PLAN_RESULT" else "INVALID_FOLLOWUP");
      case Refused(retryable) =>
        if retryable {
          outcome := Retry(t, w);
        } else {
          outcome := GaveUp("CAPABILITY");
        }
      case Broke => outcome := Retry(t, w);
    }

    /** What happens to a plan message in front of the transport: a redelivered one
        asks for its receipt first. Some outcome ends the run. */
    method Admit(t: Task, w: World) returns (ended: Option<Outcome>)
      modifies this`log
      ensures ended.None? ==>
        && log == old(log) + (if AsksFirst(t) then [Asked] else [])
        && (Planned(t) ==> w.authorized)
        && (AsksFirst(t) ==> w.linked && w.lookup.Found? && !Terminal(w.lookup.receipt))
      ensures ended.Some? ==>
        exists added :: log == old(log) + added && Dispatched(t, w, false, added, ended.value) && NothingSent(added)
    {
      ghost var before := log;
      if AsksFirst(t) {
        if !w.linked {
          assert log == before + [];
          return Some(GaveUp("INVALID_PLAN_COMMAND"));
        }
        log := log + [Asked];
        if w.lookup.LookupFails? {
          if w.lookup.retryable && w.retryTime < Deadline(t, w) {
            var again := Retry(t, w);
            return Some(again);
          }
          return Some(GaveUp(""));
        }
        var existing := w.lookup.receipt;
        if Terminal(existing) {
          if existing.jobId != t.jobId || existing.workKind != t.kind {
            return Some(GaveUp("INVALID_PLAN_COMMAND"));
          }
          var recorded := RecordResponse(t, w, existing);
          assert log == before + [Asked, Reported(existing)];
          return Some(recorded);
        }
      }
      if Planned(t) && !w.authorized {
        assert log == before + (if AsksFirst(t) then [Asked] else []);
        return Some(GaveUp("INVALID_PLAN_COMMAND"));
      }
      ended := None;
    }

    /** dispatch_or_retry */
    method DispatchOrRetry(t: Task, w: World) returns (outcome: Outcome)
      modifies this
      ensures slotTaken == old(slotTaken)
      ensures exists added :: log == old(log) + added && Dispatched(t, w, old(slotTaken), added, outcome)
    {
      ghost var before, busy := log, slotTaken;
      var ended := Admit(t, w);
      if ended.Some? {
        ghost var added :| log == before + added && Dispatched(t, w, false, added, ended.value) && NothingSent(added);
        assert Dispatched(t, w, busy, added, ended.value);
        return ended.value;
      }
      ghost var asked := if AsksFirst(t) then [Asked] else [];
      assert Allowed(t, w, busy, asked);
      if !w.capable {
        outcome := GaveUp("CAPABILITY_UNAVAILABLE");
        assert Dispatched(t, w, busy, asked, outcome);
        return;
      }
      if w.beforeSlot >= Deadline(t, w) {
        outcome := GaveUp("DEADLINE");
        assert Dispatched(t, w, busy, asked, outcome);
        return;
      }
      if slotTaken {
        outcome := Retry(t, w);
        assert Dispatched(t, w, busy, asked, outcome);
        return;
      }
      slotTaken := true;
      outcome := Exchange(t, w, asked);
      ghost var added :| log == before + asked + added && Dispatched(t, w, false, asked + added, outcome);
      assert before + asked + added == before + (asked + added);
      slotTaken := false;
    }

    /** The dispatch itself, with the slot held. */
    method Exchange(t: Task, w: World, ghost asked: seq<Action>) returns (outcome: Outcome)
      requires SendAllowed(t, w, false, EnvelopeFor(t, w)) && asked == if AsksFirst(t) then [Asked] else []
      modifies this`log
      ensures exists added :: log == old(log) + added && Dispatched(t, w, false, asked + added, outcome)
    {
      ghost var before := log;
      var envelope := EnvelopeFor(t, w);
      log := log + [Sent(envelope)];
      match w.reply {
        case NoReply(retryable) =>
          assert log == before + [Sent(envelope)] && Allowed(t, w, false, asked + [Sent(envelope)]);
          if retryable {
            outcome := Retry(t, w);
          } else {
            outcome := GaveUp("");
          }
        case Answered(response) =>
          outcome := RecordResponse(t, w, response);
          assert log == before + [Sent(envelope), Reported(response)];
          assert Allowed(t, w, false, asked + [Sent(envelope), Reported(response)]);
      }
    }
  }

  // ------------------------------------------------- one message, many runs

  /** One run of the transport task, as DispatchOrRetry leaves it. */
  datatype Attempt = Attempt(task: Task, world: World, busy: bool, added: seq<Action>, outcome: Outcome)

  ghost predicate Happened(a: Attempt) {
    Dispatched(a.task, a.world, a.busy, a.added, a.outcome)
  }

  /** The broker hands out what a retry put back. */
  predicate IsRetry(a: Attempt, b: Attempt) {
    && a.outcome.Again?
    && b.task == a.task.(headers := a.outcome.headers, retries := a.task.retries + 1, redelivered := b.task.redelivered)
  }

  /** The broker hands out the same message once more, as it was. */
  predicate IsRedelivery(a: Attempt, b: Attempt) {
    b.task == a.task.(redelivered := true)
  }

  /** All runs that come of one message, in the order they happen: each later one
      retries or redelivers an earlier one. */
  ghost predicate Deliveries(all: seq<Attempt>) {
    && all != [] && (forall k :: 0 <= k < |all| ==> Happened(all[k]))
    && forall k :: 0 < k < |all| ==> exists j :: 0 <= j < k && (IsRetry(all[j], all[k]) || IsRedelivery(all[j], all[k]))
  }

  /** Everything a run has in common with the first. */
  predicate SameWork(a: Task, b: Task) {
    && b.jobId == a.jobId && b.kind == a.kind && b.payload == a.payload && b.parent == a.parent
    && b.headers.planId == a.headers.planId && b.headers.stepId == a.headers.stepId
  }

  lemma {:induction false} OneWork(all: seq<Attempt>, k: nat)
    requires Deliveries(all) && k < |all|
    ensures SameWork(all[0].task, all[k].task)
    ensures all[0].task.headers.deadline.Some? ==> all[k].task.headers.deadline == all[0].task.headers.deadline
    decreases k
  {
    if k > 0 {
      var j :| 0 <= j < k && (IsRetry(all[j], all[k]) || IsRedelivery(all[j], all[k]));
      OneWork(all, j);
      assert Happened(all[j]);
    }
  }

  /** MAIN RESULT. A message that carries its deadline, however often it puts itself
      back, is redelivered, or both: whatever any of its runs sends is the envelope
      of the first run, before that deadline, at most once a run. */
  lemma OneEnvelope(all: seq<Attempt>, k: nat, x: nat)
    requires Deliveries(all) && k < |all| && all[0].task.headers.deadline.Some?
    requires x < |all[k].added| && all[k].added[x].Sent?
    ensures all[k].added[x].envelope == EnvelopeFor(all[0].task, all[0].world)
    ensures all[k].world.beforeSlot < all[0].task.headers.deadline.value
    ensures forall y :: 0 <= y < |all[k].added| && all[k].added[y].Sent? ==> y == x
  {
    OneWork(all, k);
    assert Happened(all[k]);
  }

  /** A message without a deadline keeps its envelope as long as only its retries
      run. */
  lemma {:induction false} RetriesKeepEnvelope(all: seq<Attempt>, k: nat)
    requires k < |all| && (forall j :: 0 <= j < |all| ==> Happened(all[j]))
    requires forall j :: 0 < j < |all| ==> IsRetry(all[j - 1], all[j])
    ensures EnvelopeFor(all[k].task, all[k].world) == EnvelopeFor(all[0].task, all[0].world)
  {
    if k > 0 {
      RetriesKeepEnvelope(all, k - 1);
      assert Happened(all[k - 1]) && IsRetry(all[k - 1], all[k]);
    }
  }

  /** Redelivered before any retry it starts its patience anew: it keeps the
      envelope exactly if it carried a deadline or starts at the same moment. */
  lemma RedeliveryRestartsPatience(a: Attempt, b: Attempt)
    requires IsRedelivery(a, b)
    ensures EnvelopeFor(b.task, b.world) == EnvelopeFor(a.task, a.world)
      <==> a.task.headers.deadline.Some? || a.world.start == b.world.start
  {
  }
}
