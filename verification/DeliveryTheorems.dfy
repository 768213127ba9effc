/** Whole-run results about plan delivery. */
module DeliveryTheorems {
  import opened Wrappers
  import opened Plans
  import opened Control
  import opened Receipts
  import opened Submissions
  import opened DeliveryProtocol

  /** A path that starts from the empty system. */
  ghost predicate Run(states: seq<State>, events: seq<Event>) {
    Path(states, events) && states[0] == Initial
  }

  // ------------------------------------------------------ effectively-once

  predicate OwnerKnown(t: Table, owner: Ownership) {
    owner.jobId in t && 1 <= owner.attempt <= t[owner.jobId].attempt
  }

  predicate Holds(s: State, proc: int, job: JobId, attempt: nat) {
    && proc in s.sessions && !s.sessions[proc].phase.Admitted?
    && s.sessions[proc].phase.owner.jobId == job && s.sessions[proc].phase.owner.attempt == attempt
  }

  predicate SessionOk(s: State, proc: int)
    requires proc in s.sessions
  {
    match s.sessions[proc].phase
    case Admitted => true
    case Holding(owner) =>
      OwnerKnown(s.table, owner) && owner.jobId == s.sessions[proc].envelope.jobId
      && Start(owner.jobId, owner.attempt) !in s.starts
    case Executing(owner) =>
      OwnerKnown(s.table, owner) && owner.jobId == s.sessions[proc].envelope.jobId
      && Start(owner.jobId, owner.attempt) in s.starts
  }

  ghost predicate NoRepeats<T>(xs: seq<T>) {
    forall i, j :: 0 <= i < j < |xs| ==> xs[i] != xs[j]
  }

  ghost predicate StartsInv(t: Table, starts: seq<Start>) {
    && NoRepeats(starts)
    && forall x :: x in starts ==> x.job in t && 1 <= x.attempt <= t[x.job].attempt
  }

  ghost predicate WinsInv(t: Table, wins: seq<JobId>) {
    NoRepeats(wins) && forall j :: j in wins ==> j in t && t[j].status == Succeeded
  }

  ghost predicate SessionsInv(s: State) {
    && (forall p :: p in s.sessions ==> SessionOk(s, p))
    && forall p, q, job, attempt :: Holds(s, p, job, attempt) && Holds(s, q, job, attempt) ==> p == q
  }

  ghost predicate OnceInv(s: State) {
    && TableOk(s.table) && TargetsExclusive(s.table) && NodesExclusive(s.table)
    && StartsInv(s.table, s.starts) && WinsInv(s.table, s.wins) && SessionsInv(s)
  }

  lemma NoRepeatsAppend<T>(xs: seq<T>, x: T)
    requires NoRepeats(xs) && x !in xs
    ensures NoRepeats(xs + [x])
  {
  }

  lemma LeavingRunning(t: Table, job: JobId, r: Receipt)
    requires job in t && TargetsExclusive(t) && NodesExclusive(t)
    requires r.status != Running
    ensures TargetsExclusive(t[job := r]) && NodesExclusive(t[job := r])
  {
  }

  /** A receipt's attempt only grows when the receipt is handed out again. */
  lemma SameAttemptKeeps(s: State, s': State)
    requires OnceInv(s) && TableOk(s'.table) && s'.starts == s.starts
    requires TargetsExclusive(s'.table) && NodesExclusive(s'.table)
    requires forall j :: j in s.table ==> j in s'.table && s'.table[j].attempt >= s.table[j].attempt
    requires forall p :: p in s'.sessions ==>
      (p in s.sessions && s'.sessions[p] == s.sessions[p]) || s'.sessions[p].phase == Admitted
    requires WinsInv(s'.table, s'.wins)
    ensures OnceInv(s')
  {
    forall p | p in s'.sessions ensures SessionOk(s', p) {
      if p in s.sessions && s'.sessions[p] == s.sessions[p] {
        assert SessionOk(s, p);
      }
    }
    forall p, q, job, attempt | Holds(s', p, job, attempt) && Holds(s', q, job, attempt) ensures p == q {
      assert Holds(s, p, job, attempt) && Holds(s, q, job, attempt);
    }
  }

  lemma WinsKept(t: Table, t': Table, wins: seq<JobId>)
    requires WinsInv(t, wins) && TableGrows(t, t')
    ensures WinsInv(t', wins)
  {
  }

  lemma ClaimOnce(s: State, e: Event, s': State)
    requires OnceInv(s) && e.ClaimJob? && ClaimJobStep(s, e, s')
    ensures OnceInv(s')
  {
    ClaimKeepsExclusion(s.table, e.q, e.table', e.answer);
    ClaimGrows(s, e, s');
    WinsKept(s.table, s'.table, s.wins);
    hide ClaimStep, TargetsExclusive, NodesExclusive, TableGrows, TableEvent, TableOk, WinsInv;
    var j := e.q.jobId;
    assert forall k :: k in s.table ==> k in s'.table && s'.table[k].attempt >= s.table[k].attempt by {
      AttemptsGrow(s.table, e.q, e.table', e.answer);
    }
    if e.answer.Ok? && e.answer.value.shouldExecute {
      FreshAttempt(s, e, s');
      StartsKept(s.table, s'.table, s.starts);
      hide ClaimJobStep, StartsInv;
      HandedOut(s, e.proc, Capture(e.answer.value.receipt), s');
    } else {
      SameAttemptKeeps(s, s');
    }
  }

  lemma StartsKept(t: Table, t': Table, starts: seq<Start>)
    requires StartsInv(t, starts)
    requires forall j :: j in t ==> j in t' && t'[j].attempt >= t[j].attempt
    ensures StartsInv(t', starts)
  {
  }

  /** One session moves on to an attempt nobody holds and nobody has entered. */
  lemma HandedOut(s: State, proc: int, owner: Ownership, s': State)
    requires SessionsInv(s) && proc in s.sessions && s'.starts == s.starts
    requires s'.sessions == s.sessions[proc := Session(s.sessions[proc].envelope, Holding(owner))]
    requires forall j :: j in s.table ==> j in s'.table && s'.table[j].attempt >= s.table[j].attempt
    requires OwnerKnown(s'.table, owner) && owner.jobId == s.sessions[proc].envelope.jobId
    requires Start(owner.jobId, owner.attempt) !in s.starts
    requires forall p :: !Holds(s, p, owner.jobId, owner.attempt)
    ensures SessionsInv(s')
  {
    forall p | p in s'.sessions ensures SessionOk(s', p) {
      if p != proc {
        assert SessionOk(s, p);
      }
    }
    forall p, q, job, attempt | Holds(s', p, job, attempt) && Holds(s', q, job, attempt) ensures p == q {
      assert p != proc ==> Holds(s, p, job, attempt);
      assert q != proc ==> Holds(s, q, job, attempt);
    }
  }

  lemma AttemptsGrow(t: Table, q: ClaimRequest, t': Table, answer: Result<Claim, ReceiptError>)
    requires ClaimStep(t, q, t', answer)
    ensures forall k :: k in t ==> k in t' && t'[k].attempt >= t[k].attempt
  {
  }

  /** The attempt just handed out is one no session and no handler entry had. */
  lemma FreshAttempt(s: State, e: Event, s': State)
    requires OnceInv(s) && e.ClaimJob? && ClaimJobStep(s, e, s')
    requires e.answer.Ok? && e.answer.value.shouldExecute
    ensures var owner := Capture(e.answer.value.receipt);
      && OwnerKnown(s'.table, owner) && owner.jobId == e.q.jobId
      && Start(owner.jobId, owner.attempt) !in s.starts
      && forall p :: !Holds(s, p, owner.jobId, owner.attempt)
  {
  }

  lemma EnterOnce(s: State, proc: int, d: Domain, now: real, s': State)
    requires OnceInv(s) && EnterStep(s, proc, d, now, s')
    ensures OnceInv(s')
  {
    hide Authorized, TargetsExclusive, NodesExclusive, WinsInv;
    var owner := s.sessions[proc].phase.owner;
    var start := Start(owner.jobId, owner.attempt);
    assert SessionOk(s, proc);
    NoRepeatsAppend(s.starts, start);
    forall p | p in s'.sessions ensures SessionOk(s', p) {
      if p != proc {
        assert SessionOk(s, p);
        if s.sessions[p].phase.Holding? {
          assert Holds(s, proc, owner.jobId, owner.attempt);
          assert !Holds(s, p, owner.jobId, owner.attempt);
        }
      }
    }
    forall p, q, job, attempt | Holds(s', p, job, attempt) && Holds(s', q, job, attempt) ensures p == q {
      assert Holds(s, p, job, attempt) && Holds(s, q, job, attempt);
    }
  }

  lemma FinishOnce(s: State, e: Event, s': State)
    requires OnceInv(s) && e.Finish? && FinishStep(s, e, s')
    ensures OnceInv(s')
  {
    FinishGrows(s, e, s');
    WinsKept(s.table, s'.table, s.wins);
    var owner := s.sessions[e.proc].phase.owner;
    var current := s.table[owner.jobId];
    var after := AfterComplete(current, owner, e.result, e.followups);
    if after.Some? {
      LeavingRunning(s.table, owner.jobId, after.value);
      if current.status == Running {
        NoRepeatsAppend(s.wins, owner.jobId);
      }
      assert WinsInv(s'.table, s'.wins);
    }
    hide TargetsExclusive, NodesExclusive, TableGrows, TableEvent, WinsInv, FinishStep;
    FinishShape(s, e, s');
    SameAttemptKeeps(s, s');
  }

  lemma FinishShape(s: State, e: Event, s': State)
    requires e.Finish? && FinishStep(s, e, s')
    ensures s'.starts == s.starts
    ensures forall j :: j in s.table ==> j in s'.table && s'.table[j].attempt >= s.table[j].attempt
    ensures forall p :: p in s'.sessions ==> p in s.sessions && s'.sessions[p] == s.sessions[p]
  {
  }

  lemma AbortOnce(s: State, e: Event, s': State)
    requires OnceInv(s) && e.Abort? && AbortStep(s, e, s')
    ensures OnceInv(s')
  {
    AbortGrows(s, e, s');
    WinsKept(s.table, s'.table, s.wins);
    var owner := s.sessions[e.proc].phase.owner;
    var after := AfterFail(s.table[owner.jobId], owner, e.code, e.retryable, e.failure);
    if after.Some? {
      LeavingRunning(s.table, owner.jobId, after.value);
    }
    hide TargetsExclusive, NodesExclusive, TableGrows, TableEvent, WinsInv;
    SameAttemptKeeps(s, s');
  }

  lemma ReleaseOnce(s: State, job: JobId, s': State)
    requires OnceInv(s) && ReleaseStep(s, job, s')
    ensures OnceInv(s')
  {
    ReleaseGrows(s, job, s');
    WinsKept(s.table, s'.table, s.wins);
    LeavingRunning(s.table, job, FailedAs(s.table[job], "MANUALLY_RELEASED", true, None));
    hide TargetsExclusive, NodesExclusive, TableGrows, TableEvent, WinsInv;
    SameAttemptKeeps(s, s');
  }

  lemma StepKeepsOnce(s: State, e: Event, s': State)
    requires OnceInv(s) && Next(s, e, s')
    ensures OnceInv(s')
  {
    hide SubmitOk, Prepare, Publish, Record, Authorized, ClaimJobStep, EnterStep, FinishStep, AbortStep, ReleaseStep,
         TargetsExclusive, NodesExclusive, WinsInv, StartsInv;
    match e
    case ClaimJob(_, _, _, _) => ClaimOnce(s, e, s');
    case EnterHandler(proc, d, now) => EnterOnce(s, proc, d, now, s');
    case Finish(_, _, _) => FinishOnce(s, e, s');
    case Abort(_, _, _, _) => AbortOnce(s, e, s');
    case Release(job) => ReleaseOnce(s, job, s');
    case PublishCommand(_, _, _, _, _, _) =>
      PublishGrows(s, e, s');
      SameAttemptKeeps(s, s');
    case _ => SameAttemptKeeps(s, s');
  }

  // ------------------------------------------------------- pinned commands

  /** The step's command once its payload is final. */
  function Final(row: Row, step: Step): Option<Command> {
    if step.inputBinding.None? then Some(TemplateCommand(row.plan, step))
    else if step.stepId in row.compiled
    then Some(TemplateCommand(row.plan, step).(payload := row.compiled[step.stepId].command.payload))
    else None
  }

  lemma StoredIsFinal(row: Row, step: Step, registry: Registry)
    requires StoredCommand(row, step, registry).Ok?
    ensures Final(row, step) == Some(StoredCommand(row, step, registry).value)
  {
  }

  /** The message carries the final command of a step of this row whose
      dependencies have stored successes. */
  predicate SentFrom(row: Row, m: Message) {
    && FindStep(row.plan.steps, m.stepId).Some?
    && var step := FindStep(row.plan.steps, m.stepId).value;
       && Final(row, step).Some? && m == MessageFor(row, step, Final(row, step).value)
       && Cleared(row, m.stepId)
  }

  ghost predicate SentInv(rows: Rows, sent: set<Message>) {
    forall m :: m in sent ==> m.planId in rows && SentFrom(rows[m.planId], m)
  }

  lemma SentStays(a: Row, b: Row, m: Message)
    requires RowGrows(a, b) && SentFrom(a, m)
    ensures SentFrom(b, m)
  {
  }

  lemma SentKept(a: Rows, b: Rows, sent: set<Message>)
    requires RowsGrow(a, b) && SentInv(a, sent)
    ensures SentInv(b, sent)
  {
  }

  /** What publish_step puts on the wire is such a message. */
  lemma PublishedFrom(row: Row, id: string, replay: bool, d: Domain)
    requires OrderOk(row.plan.steps) && Publish(row, id, replay, d).Ok? && Publish(row, id, replay, d).value.Send?
    ensures Publish(row, id, replay, d).value.message.planId == row.planId
    ensures SentFrom(row, Publish(row, id, replay, d).value.message)
  {
    PublishFacts(row, id, replay, d);
    LiveFacts(row, d);
    var step := FindStep(row.plan.steps, id).value;
    StoredIsFinal(row, step, d.registry);
    hide Publish, LiveReports, StoredCommand, CompiledInput, OrderOk;
  }

  lemma PublishSends(s: State, e: Event, s': State)
    requires RowsInv(s.rows) && e.PublishCommand? && PublishStep(s, e, s')
    ensures forall m :: m in s'.sent && m !in s.sent ==> m.planId in s.rows && SentFrom(s.rows[m.planId], m)
  {
    hide Publish, SentFrom, MarkPublished, LoadOk, DeliveriesMatch;
    var row := s.rows[e.planId];
    assert RowOk(row);
    if Publish(row, e.stepId, e.replay, e.d).value.Send? {
      assert OrderOk(row.plan.steps) by { RowOrder(row); }
      PublishedFrom(row, e.stepId, e.replay, e.d);
    }
  }

  lemma RowOrder(row: Row)
    requires RowOk(row)
    ensures OrderOk(row.plan.steps)
  {
  }

  lemma SentOnlyByPublish(s: State, e: Event, s': State)
    requires Next(s, e, s') && !e.PublishCommand?
    ensures s'.sent == s.sent && s'.wire <= s.wire
  {
    hide SubmitOk, Prepare, Record, Authorized, ClaimStep, TargetStable, FreshPlanId;
  }

  lemma StepKeepsSent(s: State, e: Event, s': State)
    requires PlanInv(s) && SentInv(s.rows, s.sent) && Next(s, e, s')
    ensures SentInv(s'.rows, s'.sent)
  {
    hide Next, PlanInv, SentFrom, RowGrows, PublishStep;
    PlanParts(s);
    StepGrows(s, e, s');
    SentKept(s.rows, s'.rows, s.sent);
    if e.PublishCommand? {
      IsPublish(s, e, s');
      PublishSends(s, e, s');
      forall m | m in s'.sent && m !in s.sent ensures m.planId in s'.rows && SentFrom(s'.rows[m.planId], m) {
        SentStays(s.rows[m.planId], s'.rows[m.planId], m);
      }
    } else {
      SentOnlyByPublish(s, e, s');
    }
  }

  lemma IsPublish(s: State, e: Event, s': State)
    requires Next(s, e, s') && e.PublishCommand?
    ensures PublishStep(s, e, s')
  {
  }

  lemma PlanParts(s: State)
    requires PlanInv(s)
    ensures RowsInv(s.rows) && ClosedInv(s.rows) && BackedInv(s.rows, s.table) && OutcomeInv(s.rows)
    ensures ClearedInv(s.rows, s.table, s.sessions) && TableOk(s.table) && RequestsInv(s.rows, s.requests)
  {
  }

  // ------------------------------------------------- unmarked envelopes

  /** An admitted envelope without plan and step id is for no job of any plan. */
  ghost predicate UnmarkedInv(rows: Rows, sessions: map<int, Session>) {
    forall p :: p in sessions && !Marked(sessions[p].envelope) ==> !KnownJob(rows, sessions[p].envelope.jobId)
  }

  lemma KnownIsMarked(rows: Rows, e: Envelope, d: Domain)
    requires RowsInv(rows) && Authorized(rows, e, d) && KnownJob(rows, e.jobId)
    ensures Marked(e)
  {
    var j := e.jobId;
    assert rows[j.planId].deliveries[j.stepId].jobId == j;
    var steps := rows[e.planId.value].plan.steps;
    AuthorizedFacts(rows[e.planId.value], e, d);
    var step := FindStep(steps, e.stepId.value).value;
    var i :| 0 <= i < |steps| && steps[i] == step;
    assert e.stepId.value != "";
  }

  lemma KnownBefore(a: Rows, b: Rows, j: JobId)
    requires RowsGrow(a, b) && KnownJob(b, j) && j.planId in a
    ensures KnownJob(a, j)
  {
  }

  lemma StepKeepsUnmarked(s: State, e: Event, s': State)
    requires PlanInv(s) && UnmarkedInv(s.rows, s.sessions) && Next(s, e, s')
    ensures UnmarkedInv(s'.rows, s'.sessions)
  {
    hide PlanInv, Next, RowsGrow, KnownJob, RowsInv, TableGrows, ClosedInv, BackedInv, OutcomeInv, ClearedInv,
         RequestsInv, TableOk, UnmarkedInv;
    PlanParts(s);
    StepGrows(s, e, s');
    match e
    case Receive(proc, envelope, d) => ReceiveUnmarked(s, proc, envelope, d, s');
    case Submit(sub, d) => SubmitUnmarked(s, sub, d, s');
    case _ =>
      SessionsShrink(s, e, s');
      StaysUnmarked(s, s');
  }

  lemma StaysUnmarked(s: State, s': State)
    requires UnmarkedInv(s.rows, s.sessions) && RowsGrow(s.rows, s'.rows) && s'.rows.Keys == s.rows.Keys
    requires forall p :: p in s'.sessions ==> p in s.sessions && s'.sessions[p].envelope == s.sessions[p].envelope
    ensures UnmarkedInv(s'.rows, s'.sessions)
  {
  }

  lemma ReceiveUnmarked(s: State, proc: int, e: Envelope, d: Domain, s': State)
    requires RowsInv(s.rows) && UnmarkedInv(s.rows, s.sessions) && Next(s, Receive(proc, e, d), s')
    ensures UnmarkedInv(s'.rows, s'.sessions)
  {
    hide RowsInv, Authorized, KnownJob, Marked;
    if KnownJob(s.rows, e.jobId) {
      KnownIsMarked(s.rows, e, d);
    }
  }

  lemma SubmitUnmarked(s: State, sub: Submission, d: Domain, s': State)
    requires PlanInv(s) && UnmarkedInv(s.rows, s.sessions) && Next(s, Submit(sub, d), s')
    requires RowsGrow(s.rows, s'.rows)
    ensures UnmarkedInv(s'.rows, s'.sessions)
  {
    hide PlanInv, SubmitAccepts, RowGrows, Marked, WithDeliveries;
    assert SubmitStep(s, sub, d, s');
    var row := SubmittedRow(s.rows, s.requests, sub).value;
    forall p | p in s'.sessions && !Marked(s'.sessions[p].envelope)
      ensures !KnownJob(s'.rows, s'.sessions[p].envelope.jobId)
    {
      var j := s'.sessions[p].envelope.jobId;
      if KnownJob(s'.rows, j) && j.planId in s.rows {
        assert RowGrows(s.rows[j.planId], s'.rows[j.planId]);
        KnownBefore(s.rows, s'.rows, j);
      }
    }
  }

  lemma SessionsShrink(s: State, e: Event, s': State)
    requires Next(s, e, s') && !e.Receive? && !e.Submit?
    ensures s'.rows.Keys == s.rows.Keys
    ensures forall p :: p in s'.sessions ==> p in s.sessions && s'.sessions[p].envelope == s.sessions[p].envelope
  {
    hide Prepare, Publish, Record, Authorized, ClaimStep, TargetStable, AfterComplete, AfterFail, MarkPublished, Noted;
    if e.PublishCommand? {
      PublishKeys(s, e, s');
    }
  }

  lemma PublishKeys(s: State, e: Event, s': State)
    requires e.PublishCommand? && PublishStep(s, e, s')
    ensures s'.rows.Keys == s.rows.Keys && s'.sessions == s.sessions
  {
  }

  // ------------------------------------------------------------ whole runs

  ghost predicate Inv(s: State) {
    PlanInv(s) && OnceInv(s) && SentInv(s.rows, s.sent) && UnmarkedInv(s.rows, s.sessions)
  }

  lemma InitialInv()
    ensures Inv(Initial)
  {
  }

  /** Every state of every run satisfies the invariants. */
  lemma {:induction false} RunKeeps(states: seq<State>, events: seq<Event>, k: nat)
    requires Run(states, events) && k < |states|
    ensures Inv(states[k])
  {
    hide PlanInv, OnceInv, SentInv, UnmarkedInv, Next;
    if k == 0 {
      InitialInv();
    } else {
      RunKeeps(states, events, k - 1);
      assert Next(states[k - 1], events[k - 1], states[k]);
      StepKeepsPlans(states[k - 1], events[k - 1], states[k]);
      StepKeepsOnce(states[k - 1], events[k - 1], states[k]);
      StepKeepsSent(states[k - 1], events[k - 1], states[k]);
      StepKeepsUnmarked(states[k - 1], events[k - 1], states[k]);
    }
  }

  /** What later states of a run keep of earlier ones. */
  lemma {:induction false} RunGrows(states: seq<State>, events: seq<Event>, i: nat, k: nat)
    requires Run(states, events) && i <= k < |states|
    ensures RowsGrow(states[i].rows, states[k].rows) && TableGrows(states[i].table, states[k].table)
    ensures forall key :: key in states[i].requests ==>
      key in states[k].requests && states[k].requests[key] == states[i].requests[key]
    ensures states[i].sent <= states[k].sent
  {
    hide PlanInv, OnceInv, SentInv, Next, RowGrows;
    if i == k {
      RowsGrowRefl(states[i].rows);
    } else {
      RunGrows(states, events, i, k - 1);
      RunKeeps(states, events, k - 1);
      assert Next(states[k - 1], events[k - 1], states[k]);
      PlanParts(states[k - 1]);
      StepGrows(states[k - 1], events[k - 1], states[k]);
      forall p | p in states[i].rows ensures p in states[k].rows && RowGrows(states[i].rows[p], states[k].rows[p]) {
        RowGrowsTrans(states[i].rows[p], states[k - 1].rows[p], states[k].rows[p]);
      }
    }
  }

  function Entries(starts: seq<Start>, job: JobId): nat {
    if starts == [] then 0
    else Entries(starts[..|starts| - 1], job) + (if starts[|starts| - 1].job == job then 1 else 0)
  }

  function Attempts(starts: seq<Start>, job: JobId): set<nat> {
    set x | x in starts && x.job == job :: x.attempt
  }

  /** Without repeats there are as many entries as different attempts. */
  lemma {:induction false} EntriesAreAttempts(starts: seq<Start>, job: JobId)
    requires NoRepeats(starts)
    ensures Entries(starts, job) == |Attempts(starts, job)|
  {
    if starts != [] {
      var before, last := starts[..|starts| - 1], starts[|starts| - 1];
      EntriesAreAttempts(before, job);
      assert forall x :: x in starts <==> x in before || x == last;
      if last.job == job {
        assert last !in before;
        assert last.attempt !in Attempts(before, job) by {
          assert forall x :: x in before && x.job == job && x.attempt == last.attempt ==> x == last;
        }
        assert Attempts(starts, job) == Attempts(before, job) + {last.attempt};
      } else {
        assert Attempts(starts, job) == Attempts(before, job);
      }
    }
  }

  lemma AtMostFour(ns: set<nat>)
    requires forall n :: n in ns ==> 1 <= n <= MaxAttempts
    ensures |ns| <= MaxAttempts
  {
    SubsetCard(ns, {1, 2, 3, 4});
  }

  predicate Owns(s: State, proc: int, job: JobId) {
    && proc in s.sessions && !s.sessions[proc].phase.Admitted?
    && job in s.table && s.table[job].status == Running
    && s.sessions[proc].phase.owner == Capture(s.table[job])
    && s.table[job].jobId == job
  }

  /** MAIN RESULT. However messages are duplicated, lost, replayed or retried and
      executors crash: a job's handler is entered at most four times, its receipt
      succeeds at most once, and at most one process owns its running attempt. */
  lemma EffectivelyOnce(states: seq<State>, events: seq<Event>, k: nat, job: JobId)
    requires Run(states, events) && k < |states|
    ensures Entries(states[k].starts, job) <= MaxAttempts
    ensures forall i, j :: 0 <= i < j < |states[k].wins| ==> !(states[k].wins[i] == job == states[k].wins[j])
    ensures forall p, q :: Owns(states[k], p, job) && Owns(states[k], q, job) ==> p == q
  {
    RunKeeps(states, events, k);
    hide PlanInv, SentInv, TargetsExclusive, NodesExclusive;
    var s := states[k];
    EntriesAreAttempts(s.starts, job);
    AtMostFour(Attempts(s.starts, job));
    forall p, q | Owns(s, p, job) && Owns(s, q, job) ensures p == q {
      assert Holds(s, p, job, s.table[job].attempt) && Holds(s, q, job, s.table[job].attempt);
    }
  }

  /** MAIN RESULT. A success is final: every field of the receipt stays, in every
      later state of every run. */
  lemma SuccessIsForever(states: seq<State>, events: seq<Event>, i: nat, k: nat, job: JobId)
    requires Run(states, events) && i <= k < |states|
    requires job in states[i].table && states[i].table[job].status == Succeeded
    ensures job in states[k].table && states[k].table[job] == states[i].table[job]
  {
    RunGrows(states, events, i, k);
  }

  // ------------------------------------------------------- dependency safety

  /** The stored successes reach back along any chain of dependencies. */
  lemma {:induction false} ClosedChain(rows: Rows, p: string, chain: seq<string>)
    requires ClosedInv(rows) && p in rows && DependencyChain(rows[p].plan, chain)
    requires Cleared(rows[p], chain[0]) && |chain| > 1
    ensures chain[|chain| - 1] in Succ(rows[p])
  {
    assert chain[1] in FindStep(rows[p].plan.steps, chain[0]).value.dependsOn;
    assert chain[1] in Succ(rows[p]);
    if |chain| > 2 {
      ClosedChain(rows, p, chain[1..]);
    }
  }

  /** The step's job has really succeeded: stored success and succeeded receipt. */
  predicate ReallyDone(s: State, p: string, id: string)
    requires p in s.rows
  {
    id in Succ(s.rows[p]) && BackedBy(s.table, s.rows[p], id)
  }

  /** MAIN RESULT. Whatever was ever sent or entered a handler, in any state of
      any run: everything its step depends on, directly or through others, has a
      stored success and a succeeded receipt. */
  lemma DependencySafety(states: seq<State>, events: seq<Event>, k: nat, p: string, chain: seq<string>)
    requires Run(states, events) && k < |states|
    requires p in states[k].rows && DependencyChain(states[k].rows[p].plan, chain) && |chain| > 1
    requires
      || (exists m :: m in states[k].sent && m.planId == p && m.stepId == chain[0])
      || (exists x ::
           x in states[k].starts && KnownJob(states[k].rows, x.job) && x.job.planId == p && x.job.stepId == chain[0])
      || chain[0] in Succ(states[k].rows[p])
    ensures ReallyDone(states[k], p, chain[|chain| - 1])
  {
    RunKeeps(states, events, k);
    var s := states[k];
    PlanParts(s);
    assert Cleared(s.rows[p], chain[0]) by {
      if m :| m in s.sent && m.planId == p && m.stepId == chain[0] {
        assert SentFrom(s.rows[p], m);
      } else if x :| x in s.starts && KnownJob(s.rows, x.job) && x.job.planId == p && x.job.stepId == chain[0] {
        assert JobCleared(s.rows, x.job);
      }
    }
    ClosedChain(s.rows, p, chain);
  }

  /** The dependencies of the step are ready as the domain reports them now. */
  predicate ReadyNow(row: Row, id: string, d: Domain) {
    && FindStep(row.plan.steps, id).Some? && LiveReports(row, d).Ok?
    && Done(ReadySet(LiveReports(row, d).value), FindStep(row.plan.steps, id).value.dependsOn)
  }

  /** The event puts a message on the wire, a new one or one already there. */
  ghost predicate Sends(s: State, e: Event) {
    && e.PublishCommand? && e.fate != SendFails && e.planId in s.rows
    && Publish(s.rows[e.planId], e.stepId, e.replay, e.d).Ok?
    && Publish(s.rows[e.planId], e.stepId, e.replay, e.d).value.Send?
  }

  /** MAIN RESULT. At the moment a command is sent, for the first time or as a
      replay of one still on the wire, and at the moment a handler is entered for
      a job of a stored plan, all dependencies of the step are ready with
      artifacts. Nothing gets on the wire in another way. */
  lemma ReadyWhenActing(s: State, e: Event, s': State)
    requires PlanInv(s) && SessionsInv(s) && UnmarkedInv(s.rows, s.sessions) && Next(s, e, s')
    ensures Sends(s, e) ==>
      && ReadyNow(s.rows[e.planId], e.stepId, e.d)
      && Publish(s.rows[e.planId], e.stepId, e.replay, e.d).value.message in s'.wire
    ensures s'.wire <= s.wire
      || (Sends(s, e) && s'.wire == s.wire + {Publish(s.rows[e.planId], e.stepId, e.replay, e.d).value.message})
    ensures e.EnterHandler? ==>
      |s'.starts| == |s.starts| + 1
      && var job := s'.starts[|s.starts|].job;
         KnownJob(s.rows, job) ==> ReadyNow(s.rows[job.planId], job.stepId, e.d)
  {
    hide Publish, LiveReports;
    if e.PublishCommand? {
      PublishReady(s, e, s');
    } else if e.EnterHandler? {
      EnterReady(s, e, s');
      SentOnlyByPublish(s, e, s');
    } else {
      SentOnlyByPublish(s, e, s');
    }
  }

  lemma PublishReady(s: State, e: Event, s': State)
    requires e.PublishCommand? && PublishStep(s, e, s')
    ensures Sends(s, e) ==>
      && ReadyNow(s.rows[e.planId], e.stepId, e.d)
      && Publish(s.rows[e.planId], e.stepId, e.replay, e.d).value.message in s'.wire
    ensures s'.wire <= s.wire
      || (Sends(s, e) && s'.wire == s.wire + {Publish(s.rows[e.planId], e.stepId, e.replay, e.d).value.message})
  {
    hide Publish, LiveReports, StoredCommand, CompiledInput, FindStep, MarkPublished;
    if Sends(s, e) {
      PublishFacts(s.rows[e.planId], e.stepId, e.replay, e.d);
    }
  }

  lemma EnterReady(s: State, e: Event, s': State)
    requires RowsInv(s.rows) && SessionsInv(s) && UnmarkedInv(s.rows, s.sessions) && e.EnterHandler?
      && EnterStep(s, e.proc, e.d, e.now, s')
    ensures |s'.starts| == |s.starts| + 1
    ensures
      var job := s'.starts[|s.starts|].job;
      KnownJob(s.rows, job) ==> ReadyNow(s.rows[job.planId], job.stepId, e.d)
  {
  }

  // --------------------------------------------------------------- outcomes

  /** The outcome stays, or becomes Completed, or is recorded anew. */
  ghost predicate CompletedStays(a: Rows, b: Rows) {
    forall p :: p in a && a[p].outcome == Some(Outcome.Completed) ==> p in b && b[p].outcome == Some(Outcome.Completed)
  }

  /** MAIN RESULT. After every recorded response the stored outcome is the
      completion candidate of the reports as they are live; with the invariants
      that is Completed exactly when every requested schema has been produced. */
  lemma OutcomeIsLive(s: State, e: Event, s': State)
    requires PlanInv(s) && Next(s, e, s') && e.RecordResponse?
    ensures
      var row' := s'.rows[e.envelope.planId.value];
      && row'.outcome.Some? && LiveReports(row', e.d).Ok?
      && CompletionCandidate(row'.plan, LiveReports(row', e.d).value) == Ok(row'.outcome.value)
      && (row'.outcome == Some(Outcome.Completed) <==> SchemasProduced(row'))
  {
    hide PlanInv, Accept, Settle, LiveReports, CompletionCandidate, Cleared, BackedBy, RowOk;
    var row := s.rows[e.envelope.planId.value];
    var mid := Accept(row, e.envelope, e.response, e.d).value;
    SettleFacts(mid, e.d);
    RecordKeeps(s, e.envelope, e.response, e.d, s');
    PlanParts(s');
    LiveDecides(s'.rows, e.envelope.planId.value, e.d);
  }

  lemma LiveDecides(rows: Rows, p: string, d: Domain)
    requires RowsInv(rows) && ClosedInv(rows) && p in rows && LiveReports(rows[p], d).Ok?
    ensures CompletionCandidate(rows[p].plan, LiveReports(rows[p], d).value).Ok?
    ensures CompletionCandidate(rows[p].plan, LiveReports(rows[p], d).value) == Ok(Outcome.Completed)
      <==> SchemasProduced(rows[p])
  {
    assert RowOk(rows[p]);
    LiveOutcome(rows[p], d);
  }

  lemma SchemasStay(a: Row, b: Row)
    requires RowGrows(a, b) && SchemasProduced(a)
    ensures SchemasProduced(b)
  {
  }

  lemma StepKeepsCompleted(s: State, e: Event, s': State)
    requires PlanInv(s) && Next(s, e, s')
    ensures CompletedStays(s.rows, s'.rows)
  {
    hide PlanInv, Publish, Prepare, RecordStep, ReceiveStep, EnterStep, ReleaseStep, ClaimJobStep, FinishStep,
         AbortStep, RowGrows, SubmitStep, PublishStep;
    match e
    case PublishCommand(_, _, _, _, _, _) => PublishQuiet(s, e, s');
    case RecordResponse(envelope, response, d) =>
      RecordKeepsCompleted(s, e, s');
    case Submit(sub, d) =>
      SubmitQuiet(s, sub, d, s');
    case PrepareCommand(p, id, d) => PrepareFacts(s.rows[p], id, d);
    case ClaimJob(_, _, _, _) => ClaimRows(s, e, s');
    case Finish(_, _, _) => ClaimRows(s, e, s');
    case Abort(_, _, _, _) => ClaimRows(s, e, s');
    case Receive(_, _, _) => ClaimRows(s, e, s');
    case EnterHandler(_, _, _) => ClaimRows(s, e, s');
    case Release(_) => ClaimRows(s, e, s');
    case _ =>
  }

  lemma PublishQuiet(s: State, e: Event, s': State)
    requires e.PublishCommand? && PublishStep(s, e, s')
    ensures forall p :: p in s.rows ==> p in s'.rows && s'.rows[p].outcome == s.rows[p].outcome
  {
    hide Publish, MarkPublished, StoredCommand, CompiledInput, LiveReports, FindStep;
    var row := s.rows[e.planId];
    if Publish(row, e.stepId, e.replay, e.d).value.Send? && e.fate == Commits {
      PublishFacts(row, e.stepId, e.replay, e.d);
      MarkShape(row, e.stepId, e.now);
    }
  }

  lemma ClaimRows(s: State, e: Event, s': State)
    requires Next(s, e, s')
    requires e.ClaimJob? || e.Finish? || e.Abort? || e.Receive? || e.EnterHandler? || e.Release?
    ensures s'.rows == s.rows
  {
  }

  lemma SubmitQuiet(s: State, sub: Submission, d: Domain, s': State)
    requires PlanInv(s) && SubmitStep(s, sub, d, s')
    ensures forall p :: p in s.rows ==> p in s'.rows && s'.rows[p].outcome == s.rows[p].outcome
  {
    hide SubmitAccepts, FreshPlanId;
    if (sub.workspace, sub.plan.request.requestId) in s.requests {
      FoundRow(s, sub);
    }
  }

  lemma RecordKeepsCompleted(s: State, e: Event, s': State)
    requires PlanInv(s) && Next(s, e, s') && e.RecordResponse?
    ensures CompletedStays(s.rows, s'.rows)
  {
    hide PlanInv, Next, LiveReports, SchemasProduced, RowGrows, CompletionCandidate;
    OutcomeIsLive(s, e, s');
    RecordShape(s, e, s');
    var p := e.envelope.planId.value;
    if s.rows[p].outcome == Some(Outcome.Completed) {
      StoredIsProduced(s, p);
      SchemasStay(s.rows[p], s'.rows[p]);
    }
  }

  lemma StoredIsProduced(s: State, p: string)
    requires PlanInv(s) && p in s.rows && s.rows[p].outcome == Some(Outcome.Completed)
    ensures SchemasProduced(s.rows[p])
  {
  }

  lemma RecordShape(s: State, e: Event, s': State)
    requires Next(s, e, s') && e.RecordResponse?
    ensures e.envelope.planId.Some? && e.envelope.planId.value in s.rows
    ensures
      var p := e.envelope.planId.value;
      p in s'.rows && s'.rows == s.rows[p := s'.rows[p]] && RowGrows(s.rows[p], s'.rows[p])
  {
    hide Record, RowGrows;
    RecordGrows(s.rows[e.envelope.planId.value], e.envelope, e.response, e.d);
  }

  /** MAIN RESULT. Once a plan is completed it stays completed, whatever failed,
      duplicate or late responses are recorded afterwards. */
  lemma {:induction false} CompletedForever(states: seq<State>, events: seq<Event>, i: nat, k: nat, p: string)
    requires Run(states, events) && i <= k < |states|
    requires p in states[i].rows && states[i].rows[p].outcome == Some(Outcome.Completed)
    ensures p in states[k].rows && states[k].rows[p].outcome == Some(Outcome.Completed)
  {
    hide PlanInv, OnceInv, SentInv, Next;
    if i < k {
      CompletedForever(states, events, i, k - 1, p);
      RunKeeps(states, events, k - 1);
      assert Next(states[k - 1], events[k - 1], states[k]);
      StepKeepsCompleted(states[k - 1], events[k - 1], states[k]);
    }
  }

  /** The step really succeeded, and so did whatever it transitively depends on. */
  ghost predicate DoneAllTheWay(s: State, p: string, id: string)
    requires p in s.rows
  {
    && ReallyDone(s, p, id)
    && forall chain :: DependencyChain(s.rows[p].plan, chain) && chain[0] == id ==>
         ReallyDone(s, p, chain[|chain| - 1])
  }

  /** MAIN RESULT. A stored "completed" is backed all the way down: each requested
      schema is the output of a step that really succeeded, and so did every step
      any chain of dependencies leads to. */
  lemma CompletedIsReal(states: seq<State>, events: seq<Event>, k: nat, p: string, schema: string)
    requires Run(states, events) && k < |states| && p in states[k].rows
    requires states[k].rows[p].outcome == Some(Outcome.Completed)
    requires schema in states[k].rows[p].plan.request.requiredSchemas
    ensures exists st ::
      st in states[k].rows[p].plan.steps && st.outputSchema == schema && DoneAllTheWay(states[k], p, st.stepId)
  {
    RunKeeps(states, events, k);
    var s := states[k];
    PlanParts(s);
    assert OutcomeOk(s.rows[p]);
    var st :| st in s.rows[p].plan.steps && st.stepId in Succ(s.rows[p]) && st.outputSchema == schema;
    assert ReallyDone(s, p, st.stepId);
    forall chain | DependencyChain(s.rows[p].plan, chain) && chain[0] == st.stepId
      ensures ReallyDone(s, p, chain[|chain| - 1])
    {
      if |chain| > 1 {
        ClosedChain(s.rows, p, chain);
      }
    }
  }

  // ---------------------------------------------------------- one plan, one command

  lemma SentInRun(states: seq<State>, events: seq<Event>, i: nat, k: nat, m: Message)
    requires Run(states, events) && i <= k < |states| && m in states[i].sent
    ensures m.planId in states[k].rows && SentFrom(states[k].rows[m.planId], m)
  {
    RunKeeps(states, events, i);
    RunGrows(states, events, i, k);
    hide PlanInv, OnceInv, SentFrom, RowGrows;
    SentStays(states[i].rows[m.planId], states[k].rows[m.planId], m);
  }

  /** MAIN RESULT. All messages ever sent for one step of one plan are the same. */
  lemma OneCommandPerStep(states: seq<State>, events: seq<Event>, i: nat, k: nat, m: Message, n: Message)
    requires Run(states, events) && i <= k < |states| && m in states[i].sent && n in states[k].sent
    requires m.planId == n.planId && m.stepId == n.stepId
    ensures m == n
  {
    SentInRun(states, events, i, k, m);
    SentInRun(states, events, k, k, n);
  }

  /** MAIN RESULT. An envelope that is authorized or recorded for a step, at any
      later time, carries exactly what was first sent for it. */
  lemma PinnedPayload(
    states: seq<State>, events: seq<Event>, i: nat, k: nat, m: Message, e: Envelope, response: Receipt, d: Domain)
    requires Run(states, events) && i <= k < |states| && m in states[i].sent
    requires e.planId == Some(m.planId) && e.stepId == Some(m.stepId) && m.planId in states[k].rows
    requires AuthorizeRow(states[k].rows[m.planId], e, d) || Record(states[k].rows[m.planId], e, response, d).Ok?
    ensures e.jobId == m.jobId && e.workKind == m.workKind && e.payload == m.payload
    ensures e.deadlineAt == Some(m.deadlineAt) && (e.parentJobId.Some? ==> e.parentJobId.value == m.parentJobId)
  {
    SentInRun(states, events, i, k, m);
    var row := states[k].rows[m.planId];
    assert ApprovedDelivery(row, e, d.registry).Ok?;
    StoredIsFinal(row, FindStep(row.plan.steps, m.stepId).value, d.registry);
  }

  /** MAIN RESULT. A request id names one plan for ever, and resubmitting it
      changes no plan: it is refused or finds the same row again. */
  lemma RequestIsForever(
    states: seq<State>, events: seq<Event>, i: nat, k: nat, workspace: int, requestId: string)
    requires Run(states, events) && i <= k < |states| && (workspace, requestId) in states[i].requests
    ensures
      var planId := states[i].requests[(workspace, requestId)];
      && (workspace, requestId) in states[k].requests && states[k].requests[(workspace, requestId)] == planId
      && planId in states[i].rows && planId in states[k].rows
      && states[k].rows[planId].plan == states[i].rows[planId].plan
  {
    RunKeeps(states, events, i);
    RunGrows(states, events, i, k);
  }

  lemma ResubmitIsIdle(s: State, sub: Submission, d: Domain, s': State)
    requires PlanInv(s) && Next(s, Submit(sub, d), s')
    requires (sub.workspace, sub.plan.request.requestId) in s.requests
    ensures s' == s
    ensures
      var planId := s.requests[(sub.workspace, sub.plan.request.requestId)];
      SamePlan(s.rows[planId].plan, sub.plan) && s.rows[planId].createdBy == sub.actor
  {
    hide PlanInv, LoadOk, DeliveriesMatch, FreshPlanId, WithDeliveries, SamePlan;
    assert SubmitStep(s, sub, d, s');
    FoundRow(s, sub);
    var row := SubmittedRow(s.rows, s.requests, sub).value;
    assert s.rows[row.planId := row] == s.rows;
  }
}
