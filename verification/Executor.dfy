/** app/orchestration/executor_views.py: one execution request, from the job slot
    through claim and handler to the terminal receipt. */
module Executor {
  import opened Wrappers
  import opened Plans
  import opened Control
  import opened Receipts
  import opened Submissions

  /** Who ends the receipt: the flow after the handler, the flow inside one
      transaction with the handler, or the handler itself. */
  datatype Policy = Plain | Atomic | SelfManaged

  datatype Work = Returns(result: Json, failed: bool, followups: seq<Proposal>) | Raises(retryable: bool)

  datatype Ending =
    | Completes(result: Json, followups: seq<Proposal>)
    | FailsWith(code: string, retryable: bool, failure: Option<Json>)
    | LeavesRunning

  /** A request and what everything outside the flow answers while it runs. */
  datatype Call = Call(
    envelope: Envelope,
    wellFormed: bool,      // token, JSON, envelope, role, registration and payload checks
    authorized: bool,      // authorize_if_planned in front of the claim
    target: string, source: Snapshot, chunks: set<int>, runtime: Json,
    deadline: real, now: real,
    stillAuthorized: bool, // authorize_if_planned, for a marked envelope, in front of the handler
    sameInputs: bool,      // input and runtime are those of the claim
    policy: Policy, work: Work, ownEnding: Ending,
    followupsOk: bool,
    validAfter: bool)      // validate_execution behind the handler

  function Query(c: Call): ClaimRequest {
    ClaimRequest(c.envelope.jobId, c.envelope.workKind, c.target, c.envelope.payload, c.chunks, Some(c.source),
      Some(c.runtime))
  }

  datatype Response =
    | Busy
    | Refused(status: int)
    | LostOwnership
    | Body(ok: bool, httpStatus: int, receipt: Receipt)

  /** The handler is entered. */
  predicate Enters(c: Call) {
    c.now < c.deadline && c.stillAuthorized && c.sameInputs
  }

  /** How the flow itself ends the receipt it has claimed; LeavesRunning only
      after a self-managing handler, whose ending it then looks at. */
  function FlowEnding(c: Call): Ending {
    if !Enters(c) then FailsWith("EXECUTION_FAILED", false, None)
    else match c.work
      case Raises(retryable) => FailsWith("EXECUTION_FAILED", retryable, None)
      case Returns(result, failed, followups) =>
        if !c.followupsOk then FailsWith("EXECUTION_FAILED", false, None)
        else if c.policy == Atomic && failed then FailsWith("EXECUTION_FAILED", true, None)
        else if c.policy == SelfManaged then LeavesRunning
        else if !c.validAfter then FailsWith("EXECUTION_FAILED", false, None)
        else if failed then FailsWith("DOMAIN_FAILURE", false, None)
        else Completes(result, followups)
  }

  /** The stored receipt after an ending by `owner`; None when it is refused. */
  function AfterEnding(current: Receipt, owner: Ownership, ending: Ending): Option<Receipt> {
    match ending
    case Completes(result, followups) => AfterComplete(current, owner, result, followups)
    case FailsWith(code, retryable, failure) => AfterFail(current, owner, code, retryable, failure)
    case LeavesRunning => if owner == Capture(current) then Some(current) else None
  }

  /** What the other processes and the operator may do to the table meanwhile. */
  ghost predicate Interferes(t: Table, t': Table) {
    && TableOk(t')
    && forall j :: j in t ==> j in t' && Overtakes(t[j], t'[j])
  }

  predicate Overtakes(r: Receipt, r': Receipt) {
    && r'.workKind == r.workKind && r'.fingerprint == r.fingerprint && r'.targetKey == r.targetKey
    && r'.attempt >= r.attempt && (r.status == Succeeded ==> r' == r)
  }

  class Process {
    const repository: ReceiptRepository
    var slotTaken: bool
    var owner: Option<Ownership>
    var entered: seq<Start>

    constructor (repository: ReceiptRepository)
      ensures this.repository == repository && !slotTaken && owner == None && entered == []
    {
      this.repository := repository;
      slotTaken, owner, entered := false, None, [];
    }

    /** execute_job: one request at a time; the slot and the context are given
        back on every path. `claim` is what claim_execution answered, if the
        request got that far, and `claimed` the table right after it; `others` act
        between the claim and the handler's checks, `during` until its ending. */
    method ExecuteJob(c: Call, others: Table -> Table, during: Table -> Table)
      returns (response: Response, ghost claim: Option<Claim>, ghost claimed: Table)
      requires TableOk(repository.table) && forall t: Table :: TableOk(t) ==> Interferes(t, others(t))
      requires forall t: Table :: TableOk(t) ==> Interferes(t, during(t))
      modifies this, repository
      ensures slotTaken == old(slotTaken) && owner == old(owner)
      ensures old(slotTaken) ==> response == Busy && claim == None
      ensures claim.None? ==> repository.table == old(repository.table) && entered == old(entered) && !response.Body?
      ensures claim.Some? ==> c.authorized && ClaimStep(old(repository.table), Query(c), claimed, Ok(claim.value))
      ensures claim.Some? && !claim.value.shouldExecute ==>
        && repository.table == claimed && entered == old(entered)
        && response == Body(claim.value.receipt.status != Failed,
             if claim.value.receipt.status == Running then 202 else 200, claim.value.receipt)
      ensures claim.Some? && claim.value.shouldExecute ==>
        Settled(c, claim.value.receipt, during(others(claimed)), repository.table, response)
      ensures claim.Some? && claim.value.shouldExecute ==>
        entered == old(entered) + (if Enters(c) then [Start(c.envelope.jobId, claim.value.receipt.attempt)] else [])
    {
      hide Settled, Interferes, TableOk, ClaimStep, Enters, Query;
      claim, claimed := None, map[];
      if slotTaken {
        return Busy, None, map[];
      }
      var before := owner;
      slotTaken, owner := true, None;
      response, claim, claimed := Execute(c, others, during);
      slotTaken, owner := false, before;
    }

    /** _execute_job */
    method Execute(c: Call, others: Table -> Table, during: Table -> Table)
      returns (response: Response, ghost claim: Option<Claim>, ghost claimed: Table)
      requires TableOk(repository.table) && forall t: Table :: TableOk(t) ==> Interferes(t, others(t))
      requires forall t: Table :: TableOk(t) ==> Interferes(t, during(t))
      modifies this`owner, this`entered, repository
      ensures !response.Busy?
      ensures claim.None? ==> repository.table == old(repository.table) && entered == old(entered) && response.Refused?
      ensures claim.Some? ==> c.authorized && ClaimStep(old(repository.table), Query(c), claimed, Ok(claim.value))
      ensures claim.Some? && !claim.value.shouldExecute ==>
        && repository.table == claimed && entered == old(entered)
        && response == Body(claim.value.receipt.status != Failed,
             if claim.value.receipt.status == Running then 202 else 200, claim.value.receipt)
      ensures claim.Some? && claim.value.shouldExecute ==>
        Settled(c, claim.value.receipt, during(others(claimed)), repository.table, response)
      ensures claim.Some? && claim.value.shouldExecute ==>
        entered == old(entered) + (if Enters(c) then [Start(c.envelope.jobId, claim.value.receipt.attempt)] else [])
    {
      hide Settled, FlowEnding, BothEndings, Interferes, TableOk, ClaimStep, Enters, Query;
      claim, claimed := None, map[];
      if !c.wellFormed || !c.authorized {
        return Refused(422), None, map[];
      }
      var answer := repository.ClaimExecution(Query(c));
      if answer.Err? {
        return Refused(409), None, map[];
      }
      claim, claimed := Some(answer.value), repository.table;
      ClaimedOk(old(repository.table), Query(c), claimed, answer);
      QueryJob(c);
      var receipt := answer.value.receipt;
      if !answer.value.shouldExecute {
        response := Body(receipt.status != Failed, if receipt.status == Running then 202 else 200, receipt);
        return;
      }
      owner := Some(Capture(receipt));
      StillThere(claimed, others(claimed), receipt.jobId);
      repository.table := others(repository.table);
      if Enters(c) {
        entered := entered + [Start(receipt.jobId, receipt.attempt)];
      }
      IsOk(claimed, others(claimed));
      StillThere(others(claimed), during(others(claimed)), receipt.jobId);
      repository.table := during(repository.table);
      response := Conclude(c, receipt);
    }

    /** From the handler on: its own ending if it manages the receipt, then the
        flow's. A refused ending is a lost ownership. */
    method Conclude(c: Call, receipt: Receipt) returns (response: Response)
      requires owner == Some(Capture(receipt)) && receipt.jobId in repository.table
      modifies repository
      ensures Settled(c, receipt, old(repository.table), repository.table, response) && !response.Busy?
    {
      hide AfterEnding, FlowEnding;
      ghost var meanwhile := repository.table;
      EndingFacts(meanwhile[receipt.jobId], Capture(receipt), c.ownEnding);
      var ending := FlowEnding(c);
      if Enters(c) && c.policy == SelfManaged {
        var own := EndReceipt(receipt, c.ownEnding);
        if own.None? {
          return LostOwnership;
        }
        if ending.LeavesRunning? {
          if own.value.status != Running {
            return Body(own.value.status == Succeeded,
              if own.value.status == Failed && own.value.retryable then 503 else 200, own.value);
          }
          ending := FailsWith("EXECUTION_FAILED", false, None);
        }
      }
      FlowDecides(c);
      ghost var current := repository.table[receipt.jobId];
      EndingFacts(current, Capture(receipt), ending);
      var done := EndReceipt(receipt, ending);
      if done.None? {
        return LostOwnership;
      }
      response := Body(done.value.status == Succeeded,
        if ending.FailsWith? && ending.code == "EXECUTION_FAILED" then 503 else 200, done.value);
    }

    /** finish_execution and fail_execution under the active ownership. */
    method EndReceipt(receipt: Receipt, ending: Ending) returns (done: Option<Receipt>)
      requires owner == Some(Capture(receipt)) && receipt.jobId in repository.table
      modifies repository
      ensures done == AfterEnding(old(repository.table)[receipt.jobId], Capture(receipt), ending)
      ensures repository.table ==
        if done.Some? then old(repository.table)[receipt.jobId := done.value] else old(repository.table)
    {
      match ending
      case Completes(result, followups) =>
        var r := repository.Complete(receipt, owner, result, followups);
        done := if r.Ok? then Some(r.value) else None;
      case FailsWith(code, retryable, failure) =>
        var r := repository.Fail(receipt, owner, code, retryable, failure);
        done := if r.Ok? then Some(r.value) else None;
      case LeavesRunning =>
        var current := repository.table[receipt.jobId];
        assert repository.table[receipt.jobId := current] == repository.table;
        done := if owner.value == Capture(current) then Some(current) else None;
    }
  }

  /** An ending that goes through is this attempt's and, unless it leaves the
      receipt running, closes it; one that is refused finds the receipt taken
      over or closed already. */
  lemma EndingFacts(current: Receipt, owner: Ownership, ending: Ending)
    ensures
      match AfterEnding(current, owner, ending)
      case Some(r) =>
        && owner == Capture(current) && Capture(r) == owner
        && (!ending.LeavesRunning? ==> r.status != Running) && (ending.LeavesRunning? ==> r == current)
      case None => owner == Capture(current) ==> current.status != Running
  {
  }

  lemma StillThere(t: Table, t': Table, job: JobId)
    requires Interferes(t, t') && job in t
    ensures job in t'
  {
  }

  lemma IsOk(t: Table, t': Table)
    requires Interferes(t, t')
    ensures TableOk(t')
  {
  }

  lemma QueryJob(c: Call)
    ensures Query(c).jobId == c.envelope.jobId
  {
  }

  lemma FlowDecides(c: Call)
    ensures FlowEnding(c).LeavesRunning? ==> Enters(c) && c.policy == SelfManaged
  {
  }

  /** A claim for execution leaves the job's running receipt in the table. */
  lemma ClaimedOk(t: Table, q: ClaimRequest, t': Table, answer: Result<Claim, ReceiptError>)
    requires TableOk(t) && ClaimStep(t, q, t', answer) && answer.Ok?
    ensures TableOk(t')
    ensures answer.value.shouldExecute ==>
      q.jobId in t' && t'[q.jobId] == answer.value.receipt && answer.value.receipt.jobId == q.jobId
      && answer.value.receipt.status == Running
  {
  }

  /** The receipt after the handler's own ending, if it has one. */
  function AfterOwn(c: Call, current: Receipt, owner: Ownership): Option<Receipt> {
    if Enters(c) && c.policy == SelfManaged then AfterEnding(current, owner, c.ownEnding) else Some(current)
  }

  /** The ending the flow falls back on when a self-managing handler left none. */
  function FlowPart(c: Call): Ending {
    if FlowEnding(c).LeavesRunning? then FailsWith("EXECUTION_FAILED", false, None) else FlowEnding(c)
  }

  /** The handler's own ending and then the flow's, each refused if another
      attempt has taken the receipt over. */
  function BothEndings(c: Call, current: Receipt, owner: Ownership): Option<Receipt> {
    var own := AfterOwn(c, current, owner);
    if own.None? then None
    else if FlowEnding(c).LeavesRunning? && own.value.status != Running then own
    else AfterEnding(own.value, owner, FlowPart(c))
  }

  /** The stored receipt in the end: a refused ending leaves what it found. */
  function Leaves(c: Call, current: Receipt, owner: Ownership): Receipt {
    var own, both := AfterOwn(c, current, owner), BothEndings(c, current, owner);
    if both.Some? then both.value else if own.Some? then own.value else current
  }

  /** How a claimed execution leaves the table, and what it tells the caller.
      `meanwhile` is the table the others left behind. */
  ghost predicate Settled(c: Call, receipt: Receipt, meanwhile: Table, after: Table, response: Response) {
    var job, mine := receipt.jobId, Capture(receipt);
    // Only this job's receipt is touched, and only while it is still this attempt's.
    && job in meanwhile && after == meanwhile[job := Leaves(c, meanwhile[job], mine)]
    && (Capture(meanwhile[job]) != mine ==> after[job] == meanwhile[job] && response == LostOwnership)
    // The claimed attempt never stays running.
    && !(Capture(after[job]) == mine && after[job].status == Running)
    // The body is the stored receipt, and says ok exactly for a success.
    && (response.Body? <==> BothEndings(c, meanwhile[job], mine).Some?)
    && (response.Body? ==> response.receipt == after[job] && (response.ok <==> after[job].status == Succeeded))
    && !response.Busy? && !response.Refused?
  }
}
