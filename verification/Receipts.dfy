/** app/orchestration/receipts.py over app/documents/services/receipt_repository.py:
    durable receipts that make handler execution effectively-once. */
module Receipts {
  import opened Wrappers
  import opened Plans
  import opened Control

  const MaxAttempts := 4

  /** handler.capture_snapshot: the nodes and chunks the work touches, and the rest. */
  datatype Snapshot = Snapshot(nodeIds: set<int>, chunkIds: set<int>, rest: Json)

  const EmptySnapshot := Snapshot({}, {}, Obj(map[]))

  /** canonical_fingerprint hashes the payload; equal fingerprints are taken to
      mean equal payloads, so the payload itself stands for it. */
  datatype Receipt = Receipt(
    jobId: JobId, workKind: string, targetKey: string, fingerprint: Json,
    source: Snapshot, runtime: Json,
    status: Status, attempt: nat, retryable: bool,
    result: Json, followups: seq<Proposal>, errorCode: string)

  datatype Ownership = Ownership(
    jobId: JobId, workKind: string, targetKey: string, fingerprint: Json, attempt: nat)

  type Table = map<JobId, Receipt>

  /** One entry of a handler: the job and the attempt that entered. */
  datatype Start = Start(job: JobId, attempt: nat)

  datatype ReceiptError = JobConflict | OwnershipLost | NoSuchReceipt

  /** ExecutionOwnership.capture */
  function Capture(r: Receipt): Ownership {
    Ownership(r.jobId, r.workKind, r.targetKey, r.fingerprint, r.attempt)
  }

  predicate TableOk(t: Table) {
    forall j :: j in t ==>
      (t[j].jobId == j && 1 <= t[j].attempt <= MaxAttempts && (t[j].retryable ==> t[j].status == Failed))
  }

  // -------------------------------------------------------- terminal changes

  /** receipt_ownership: the active execution's ownership if there is one. */
  function OwnerFor(active: Option<Ownership>, r: Receipt): Result<Ownership, ReceiptError> {
    if active.None? then Ok(Capture(r))
    else if active.value.jobId != r.jobId then Err(OwnershipLost)
    else Ok(active.value)
  }

  function Completed(r: Receipt, result: Json, followups: seq<Proposal>): Receipt {
    r.(status := Succeeded, result := result, followups := followups, errorCode := "", retryable := false)
  }

  function FailedAs(r: Receipt, code: string, retryable: bool, result: Option<Json>): Receipt {
    r.(status := Failed, errorCode := code, retryable := retryable,
       result := if result.Some? then result.value else r.result)
  }

  predicate Exhausts(current: Receipt, code: string, retryable: bool) {
    code == "RETRIES_EXHAUSTED" && current.status == Failed && current.retryable
    && current.attempt >= MaxAttempts && !retryable
  }

  /** What a completion does to the stored receipt; None when it is refused. */
  function AfterComplete(current: Receipt, owner: Ownership, result: Json, followups: seq<Proposal>): Option<Receipt> {
    if owner != Capture(current) then None
    else if current.status == Succeeded && current.result == result && current.followups == followups then Some(current)
    else if current.status == Running then Some(Completed(current, result, followups))
    else None
  }

  function AfterFail(
    current: Receipt, owner: Ownership, code: string, retryable: bool, result: Option<Json>): Option<Receipt>
  {
    if owner == Capture(current) && (current.status == Running || Exhausts(current, code, retryable))
    then Some(FailedAs(current, code, retryable, result))
    else None
  }

  /** Whoever asks, a succeeded receipt keeps every field. */
  lemma SucceededIsFinal(
    r: Receipt, owner: Ownership, result: Json, followups: seq<Proposal>,
    code: string, retryable: bool, failResult: Option<Json>)
    requires r.status == Succeeded
    ensures AfterComplete(r, owner, result, followups) in {None, Some(r)}
    ensures AfterFail(r, owner, code, retryable, failResult) == None
  {
  }

  /** An attempt that is no longer the stored one changes nothing. */
  lemma StaleAttemptIsRefused(
    r: Receipt, owner: Ownership, result: Json, followups: seq<Proposal>,
    code: string, retryable: bool, failResult: Option<Json>)
    requires owner.attempt != r.attempt
    ensures AfterComplete(r, owner, result, followups) == None
    ensures AfterFail(r, owner, code, retryable, failResult) == None
  {
  }

  // ----------------------------------------------------------------- claims

  datatype ClaimRequest = ClaimRequest(
    jobId: JobId, workKind: string, targetKey: string, payload: Json, payloadChunks: set<int>,
    source: Option<Snapshot>, runtime: Option<Json>)

  /** ExecutionClaim */
  datatype Claim = Claim(receipt: Receipt, shouldExecute: bool)

  function SourceNodes(source: Option<Snapshot>): set<int> {
    if source.Some? then source.value.nodeIds else {}
  }

  /** conflicting_job: another running job on the same target, nodes or chunks. */
  predicate Conflicts(t: Table, q: ClaimRequest, j: JobId) {
    && j in t && j != q.jobId && t[j].status == Running
    && (|| (t[j].workKind == q.workKind && t[j].targetKey == q.targetKey)
        || SourceNodes(q.source) * t[j].source.nodeIds != {}
        || q.payloadChunks * t[j].source.chunkIds != {})
  }

  /** The running receipt the unique constraint of (kind, target) points at. */
  predicate HoldsTarget(t: Table, q: ClaimRequest, j: JobId) {
    j in t && t[j].workKind == q.workKind && t[j].targetKey == q.targetKey && t[j].status == Running
  }

  function Fresh(q: ClaimRequest): Receipt {
    Receipt(q.jobId, q.workKind, q.targetKey, q.payload,
            if q.source.Some? then q.source.value else EmptySnapshot,
            if q.runtime.Some? then q.runtime.value else Obj(map[]),
            Running, 1, false, Obj(map[]), [], "")
  }

  function Restarted(r: Receipt): Receipt {
    r.(status := Running, attempt := r.attempt + 1, errorCode := "", retryable := false, result := Obj(map[]))
  }

  predicate SameWork(q: ClaimRequest, r: Receipt) {
    q.workKind == r.workKind && q.payload == r.fingerprint
  }

  predicate SameInputs(q: ClaimRequest, r: Receipt) {
    (q.source.Some? ==> q.source.value == r.source) && (q.runtime.Some? ==> q.runtime.value == r.runtime)
  }

  /** Everything claim_execution may do to the table and answer. */
  ghost predicate ClaimStep(t: Table, q: ClaimRequest, t': Table, answer: Result<Claim, ReceiptError>) {
    var known := q.jobId in t;
    if known && !SameWork(q, t[q.jobId]) then
      t' == t && answer == Err(JobConflict)
    else if known && (t[q.jobId].status != Failed || !t[q.jobId].retryable) then
      t' == t && answer == Ok(Claim(t[q.jobId], false))
    else if known && !SameInputs(q, t[q.jobId]) then
      t' == t && answer == Err(JobConflict)
    else if known && t[q.jobId].attempt >= MaxAttempts then
      var spent := FailedAs(t[q.jobId], "RETRIES_EXHAUSTED", false, None);
      t' == t[q.jobId := spent] && answer == Ok(Claim(spent, false))
    else if exists j :: Conflicts(t, q, j) then
      t' == t && exists j :: Conflicts(t, q, j) && answer == Ok(Claim(t[j], false))
    else
      var r := if known then Restarted(t[q.jobId]) else Fresh(q);
      t' == t[q.jobId := r] && answer == Ok(Claim(r, true))
  }

  /** Two running receipts never share a target, the table's partial unique
      constraint. */
  ghost predicate TargetsExclusive(t: Table) {
    forall i, j :: i in t && j in t && i != j && t[i].status == Running && t[j].status == Running ==>
      t[i].workKind != t[j].workKind || t[i].targetKey != t[j].targetKey
  }

  /** No two running receipts were captured over a common node. */
  ghost predicate NodesExclusive(t: Table) {
    forall i, j :: i in t && j in t && i != j && t[i].status == Running && t[j].status == Running ==>
      t[i].source.nodeIds !! t[j].source.nodeIds
  }

  /** The target key is a function of the work, so a retry names the same one. */
  predicate TargetStable(t: Table, q: ClaimRequest) {
    q.jobId in t && SameWork(q, t[q.jobId]) ==> t[q.jobId].targetKey == q.targetKey
  }

  /** MAIN RESULT. Claiming keeps the table well formed and its running jobs
      apart, and a job that is handed out is at an attempt nobody had before. */
  lemma ClaimKeepsExclusion(t: Table, q: ClaimRequest, t': Table, answer: Result<Claim, ReceiptError>)
    requires TableOk(t) && ClaimStep(t, q, t', answer) && TargetStable(t, q)
    ensures TableOk(t')
    ensures TargetsExclusive(t) ==> TargetsExclusive(t')
    ensures NodesExclusive(t) && q.source.Some? ==> NodesExclusive(t')
    ensures forall j :: j in t ==> j in t' && (j != q.jobId ==> t'[j] == t[j])
    ensures forall j :: j in t && t[j].status == Succeeded ==> t'[j] == t[j]
    ensures t'.Keys <= t.Keys + {q.jobId}
    ensures answer.Ok? ==> answer.value.receipt.jobId in t' && t'[answer.value.receipt.jobId] == answer.value.receipt
    ensures answer.Ok? && answer.value.shouldExecute ==>
      && q.jobId in t' && answer.value.receipt == t'[q.jobId] && t'[q.jobId].status == Running
      && t'[q.jobId].attempt == (if q.jobId in t then t[q.jobId].attempt + 1 else 1)
  {
    ClaimKeepsTargets(t, q, t', answer);
    ClaimKeepsNodes(t, q, t', answer);
    ClaimKeepsTable(t, q, t', answer);
    if answer.Ok? {
      ClaimHandsOut(t, q, t', answer);
    }
    hide ClaimStep, TargetsExclusive, NodesExclusive, TableOk, TargetStable;
  }

  lemma ClaimKeepsTable(t: Table, q: ClaimRequest, t': Table, answer: Result<Claim, ReceiptError>)
    requires TableOk(t) && ClaimStep(t, q, t', answer)
    ensures TableOk(t') && t'.Keys <= t.Keys + {q.jobId}
    ensures forall j :: j in t ==> j in t' && (j != q.jobId ==> t'[j] == t[j])
    ensures forall j :: j in t && t[j].status == Succeeded ==> t'[j] == t[j]
  {
  }

  lemma ClaimHandsOut(t: Table, q: ClaimRequest, t': Table, answer: Result<Claim, ReceiptError>)
    requires TableOk(t) && ClaimStep(t, q, t', answer) && answer.Ok?
    ensures answer.value.receipt.jobId in t' && t'[answer.value.receipt.jobId] == answer.value.receipt
    ensures answer.value.shouldExecute ==>
      && q.jobId in t' && answer.value.receipt == t'[q.jobId] && t'[q.jobId].status == Running
      && t'[q.jobId].attempt == (if q.jobId in t then t[q.jobId].attempt + 1 else 1)
  {
  }

  lemma ClaimKeepsTargets(t: Table, q: ClaimRequest, t': Table, answer: Result<Claim, ReceiptError>)
    requires ClaimStep(t, q, t', answer) && TargetStable(t, q)
    ensures TargetsExclusive(t) ==> TargetsExclusive(t')
  {
    if t' != t && TargetsExclusive(t) && t'[q.jobId].status == Running {
      forall j | j in t && j != q.jobId && t[j].status == Running
        ensures t[j].workKind != t'[q.jobId].workKind || t[j].targetKey != t'[q.jobId].targetKey
      {
        assert !Conflicts(t, q, j);
      }
    }
  }

  lemma ClaimKeepsNodes(t: Table, q: ClaimRequest, t': Table, answer: Result<Claim, ReceiptError>)
    requires ClaimStep(t, q, t', answer)
    ensures NodesExclusive(t) && q.source.Some? ==> NodesExclusive(t')
  {
    if t' != t && NodesExclusive(t) && q.source.Some? && t'[q.jobId].status == Running {
      forall j | j in t && j != q.jobId && t[j].status == Running
        ensures t[j].source.nodeIds !! t'[q.jobId].source.nodeIds
      {
        var mine := t'[q.jobId].source.nodeIds;
        assert SourceNodes(q.source) == mine;
        assert !Conflicts(t, q, j);
        assert mine * t[j].source.nodeIds == {};
        assert forall n :: n in mine && n in t[j].source.nodeIds ==> n in mine * t[j].source.nodeIds;
      }
    }
  }

  /** The receipts table. Each method is one database transaction. */
  class ReceiptRepository {
    var table: Table

    constructor ()
      ensures table == map[] && TableOk(table)
    {
      table := map[];
    }

    /** conflicting_job, a scan over the other running receipts. */
    method ConflictingJob(q: ClaimRequest) returns (active: Option<JobId>)
      ensures active.Some? ==> Conflicts(table, q, active.value)
      ensures active.None? ==> forall j :: !Conflicts(table, q, j)
    {
      var rest := table.Keys;
      while rest != {}
        invariant rest <= table.Keys
        invariant forall j :: j in table.Keys - rest ==> !Conflicts(table, q, j)
        decreases |rest|
      {
        var j :| j in rest;
        if Conflicts(table, q, j) {
          return Some(j);
        }
        rest := rest - {j};
      }
      active := None;
    }

    /** restart, on the row this transaction has locked. */
    method Restart(job: JobId) returns (r: Receipt)
      requires job in table
      modifies this
      ensures r == Restarted(old(table)[job]) && table == old(table)[job := r]
    {
      r := table[job].(status := Running);
      r := r.(attempt := r.attempt + 1);
      r := r.(errorCode := "", retryable := false, result := Obj(map[]));
      table := table[job := r];
    }

    /** create_claim: the insert, or on a unique violation the running receipt
        of the same target. */
    method CreateClaim(q: ClaimRequest) returns (claim: Result<(Receipt, bool), ReceiptError>)
      requires TableOk(table)
      modifies this
      ensures
        if q.jobId in old(table) || exists j :: HoldsTarget(old(table), q, j) then
          && table == old(table)
          && (claim.Ok? ==> !claim.value.1 && HoldsTarget(table, q, claim.value.0.jobId))
          && (claim.Ok? ==> table[claim.value.0.jobId] == claim.value.0)
        else
          claim == Ok((Fresh(q), true)) && table == old(table)[q.jobId := Fresh(q)]
    {
      var rest := table.Keys;
      var holder: Option<JobId> := None;
      while rest != {} && holder.None?
        invariant rest <= table.Keys
        invariant holder.Some? ==> HoldsTarget(table, q, holder.value)
        invariant holder.None? ==> forall j :: j in table.Keys - rest ==> !HoldsTarget(table, q, j)
        decreases |rest|, holder.None?
      {
        var j :| j in rest;
        rest := rest - {j};
        if HoldsTarget(table, q, j) {
          holder := Some(j);
        }
      }
      if holder.Some? {
        return Ok((table[holder.value], false));
      }
      if q.jobId in table {
        return Err(NoSuchReceipt);
      }
      table := table[q.jobId := Fresh(q)];
      claim := Ok((Fresh(q), true));
    }

    /** complete */
    method Complete(receipt: Receipt, active: Option<Ownership>, result: Json, followups: seq<Proposal>)
      returns (done: Result<Receipt, ReceiptError>)
      modifies this
      ensures
        var owner := OwnerFor(active, receipt);
        var after := if owner.Ok? && receipt.jobId in old(table)
                     then AfterComplete(old(table)[receipt.jobId], owner.value, result, followups) else None;
        if after.Some? then done == Ok(after.value) && table == old(table)[receipt.jobId := after.value]
        else done.Err? && table == old(table)
    {
      var owner :- OwnerFor(active, receipt);
      if receipt.jobId !in table {
        return Err(NoSuchReceipt);
      }
      var current := table[receipt.jobId];
      if owner != Capture(current) {
        return Err(OwnershipLost);
      }
      if current.status == Succeeded && current.result == result && current.followups == followups {
        assert table == table[receipt.jobId := current];
        return Ok(current);
      }
      if current.status != Running {
        return Err(OwnershipLost);
      }
      current := current.(status := Succeeded, result := result, followups := followups);
      current := current.(errorCode := "", retryable := false);
      table := table[receipt.jobId := current];
      done := Ok(current);
    }

    /** fail */
    method Fail(receipt: Receipt, active: Option<Ownership>, code: string, retryable: bool, result: Option<Json>)
      returns (done: Result<Receipt, ReceiptError>)
      modifies this
      ensures
        var owner := OwnerFor(active, receipt);
        var after := if owner.Ok? && receipt.jobId in old(table)
                     then AfterFail(old(table)[receipt.jobId], owner.value, code, retryable, result) else None;
        if after.Some? then done == Ok(after.value) && table == old(table)[receipt.jobId := after.value]
        else done.Err? && table == old(table)
    {
      var owner :- OwnerFor(active, receipt);
      if receipt.jobId !in table {
        return Err(NoSuchReceipt);
      }
      var current := table[receipt.jobId];
      if owner != Capture(current) {
        return Err(OwnershipLost);
      }
      var exhausted := code == "RETRIES_EXHAUSTED" && current.status == Failed && current.retryable
        && current.attempt >= 4 && !retryable;
      if current.status != Running && !exhausted {
        return Err(OwnershipLost);
      }
      current := current.(status := Failed, errorCode := code);
      current := current.(retryable := retryable);
      if result.Some? {
        current := current.(result := result.value);
      }
      table := table[receipt.jobId := current];
      done := Ok(current);
    }

    /** claim_execution. No execution is active while a claim is made. */
    method ClaimExecution(q: ClaimRequest) returns (answer: Result<Claim, ReceiptError>)
      requires TableOk(table)
      modifies this
      ensures ClaimStep(old(table), q, table, answer)
    {
      var known := q.jobId in table;
      if known {
        var receipt := table[q.jobId];
        if receipt.workKind != q.workKind || receipt.fingerprint != q.payload {
          return Err(JobConflict);
        }
        if receipt.status == Running || receipt.status == Succeeded || !receipt.retryable {
          return Ok(Claim(receipt, false));
        }
        if q.source.Some? && receipt.source != q.source.value {
          return Err(JobConflict);
        }
        if q.runtime.Some? && receipt.runtime != q.runtime.value {
          return Err(JobConflict);
        }
        if receipt.attempt >= 4 {
          var spent := Fail(receipt, None, "RETRIES_EXHAUSTED", false, None);
          return Ok(Claim(spent.value, false));
        }
      }
      var active := ConflictingJob(q);
      if active.Some? {
        return Ok(Claim(table[active.value], false));
      }
      if known {
        var again := Restart(q.jobId);
        return Ok(Claim(again, true));
      }
      NoHolder(table, q);
      var created := CreateClaim(q);
      answer := Ok(Claim(created.value.0, created.value.1));
    }
  }

  lemma NoHolder(t: Table, q: ClaimRequest)
    requires q.jobId !in t && forall j :: !Conflicts(t, q, j)
    ensures forall j :: !HoldsTarget(t, q, j)
  {
    forall j | HoldsTarget(t, q, j) ensures Conflicts(t, q, j) {
    }
  }
}
