/** One execution request is a path of the delivery protocol: what holds of every
    run holds of what Executor.Process does. */
module ExecutorProtocol {
  import opened Wrappers
  import opened Plans
  import opened Control
  import opened Receipts
  import opened Submissions
  import opened DeliveryProtocol
  import opened DeliveryTheorems
  import opened Executor
  import Journal

  // -------------------------------------------------- the others interfere

  lemma StepOvertakes(s: State, e: Event, s': State)
    requires TableOk(s.table) && Next(s, e, s')
    ensures forall j :: j in s.table ==> j in s'.table && Overtakes(s.table[j], s'.table[j])
  {
    hide SubmitOk, Prepare, Publish, Record, Authorized, MarkPublished, Noted, ClaimStep, FinishStep, AbortStep,
         Overtakes;
    Itself(s.table);
    match e
    case ClaimJob(_, _, _, _) => ClaimOvertakes(s.table, e.q, e.table', e.answer);
    case Finish(_, _, _) => EndOvertakes(s, e, s');
    case Abort(_, _, _, _) => EndOvertakes(s, e, s');
    case Release(_) => ReleaseOvertakes(s, e, s');
    case _ =>
  }

  lemma EndOvertakes(s: State, e: Event, s': State)
    requires Next(s, e, s') && (e.Finish? || e.Abort?)
    ensures forall j :: j in s.table ==> j in s'.table && Overtakes(s.table[j], s'.table[j])
  {
  }

  lemma ReleaseOvertakes(s: State, e: Event, s': State)
    requires Next(s, e, s') && e.Release?
    ensures forall j :: j in s.table ==> j in s'.table && Overtakes(s.table[j], s'.table[j])
  {
  }

  lemma ClaimOvertakes(t: Table, q: ClaimRequest, t': Table, answer: Result<Claim, ReceiptError>)
    requires TableOk(t) && ClaimStep(t, q, t', answer)
    ensures forall j :: j in t ==> j in t' && Overtakes(t[j], t'[j])
  {
  }

  /** Whatever the rest of a run does to the receipts is interference as the
      executor allows for. */
  lemma {:induction false} RunInterferes(states: seq<State>, events: seq<Event>, i: nat, k: nat)
    requires Run(states, events) && i <= k < |states|
    ensures Interferes(states[i].table, states[k].table)
  {
    hide PlanInv, OnceInv, SentInv, UnmarkedInv, Next, TableOk, Overtakes;
    RunKeeps(states, events, k);
    PlanParts(states[k]);
    if i == k {
      Itself(states[i].table);
    } else {
      RunInterferes(states, events, i, k - 1);
      RunKeeps(states, events, k - 1);
      PlanParts(states[k - 1]);
      assert Next(states[k - 1], events[k - 1], states[k]);
      StepOvertakes(states[k - 1], events[k - 1], states[k]);
      forall j | j in states[i].table
        ensures j in states[k].table && Overtakes(states[i].table[j], states[k].table[j])
      {
        OvertakesOn(states[i].table[j], states[k - 1].table[j], states[k].table[j]);
      }
    }
  }

  lemma Itself(t: Table)
    ensures forall j :: j in t ==> Overtakes(t[j], t[j])
  {
  }

  lemma OvertakesOn(a: Receipt, b: Receipt, c: Receipt)
    requires Overtakes(a, b) && Overtakes(b, c)
    ensures Overtakes(a, c)
  {
  }

  // ------------------------------------------------------------ the ending

  function EndEvent(proc: int, ending: Ending): Event {
    match ending
    case Completes(result, followups) => Finish(proc, result, followups)
    case FailsWith(code, retryable, failure) => Abort(proc, code, retryable, failure)
    case LeavesRunning => Crash(proc)
  }

  /** The one event that ends the session. Of the handler's ending and the flow's
      at most one has an effect; where neither has, the process just leaves. */
  function LastEvent(c: Call, proc: int, current: Receipt, owner: Ownership): Event {
    if !Enters(c) || c.policy != SelfManaged then EndEvent(proc, FlowEnding(c))
    else if !c.ownEnding.LeavesRunning? then EndEvent(proc, c.ownEnding)
    else if owner != Capture(current) || (FlowEnding(c).LeavesRunning? && current.status != Running) then Crash(proc)
    else EndEvent(proc, FlowPart(c))
  }

  predicate Holder(s: State, proc: int, envelope: Envelope, owner: Ownership, entered: bool) {
    && proc in s.sessions && s.sessions[proc].envelope == envelope
    && s.sessions[proc].phase == if entered then Executing(owner) else Holding(owner)
  }

  /** The state after the session ended and left this receipt. */
  ghost predicate Ended(s: State, proc: int, job: JobId, r: Receipt, s': State) {
    && s'.table == s.table[job := r] && s'.sessions == s.sessions - {proc} && s'.starts == s.starts
    && s'.rows == s.rows && s'.requests == s.requests && s'.wire == s.wire && s'.sent == s.sent
  }

  /** An ending that the receipt takes or refuses is a step. */
  lemma EndingStep(s: State, proc: int, envelope: Envelope, owner: Ownership, entered: bool, ending: Ending)
    returns (s': State)
    requires Holder(s, proc, envelope, owner, entered) && owner.jobId in s.table
    requires !ending.LeavesRunning? && (ending.Completes? ==> entered)
    ensures Next(s, EndEvent(proc, ending), s')
    ensures
      var current := s.table[owner.jobId];
      var after := AfterEnding(current, owner, ending);
      Ended(s, proc, owner.jobId, if after.Some? then after.value else current, s')
  {
    var current := s.table[owner.jobId];
    var gone := s.(sessions := s.sessions - {proc});
    assert s.table[owner.jobId := current] == s.table;
    match AfterEnding(current, owner, ending)
    case None => s' := gone;
    case Some(r) =>
      s' := gone.(
        table := s.table[owner.jobId := r], shown := s.shown + {r},
        wins := if ending.Completes? && current.status == Running then s.wins + [owner.jobId] else s.wins);
  }

  /** A refused or idle second ending: the last event alone leaves what the
      executor leaves. */
  lemma OneEventIsEnough(c: Call, current: Receipt, owner: Ownership)
    ensures
      var e := LastEvent(c, 0, current, owner);
      && (e.Crash? ==> Leaves(c, current, owner) == current)
      && (!e.Crash? ==> exists ending: Ending :: e == EndEvent(0, ending) && EndsWith(c, current, owner, ending))
  {
    if !Enters(c) || c.policy != SelfManaged {
      FlowDecides(c);
      assert EndsWith(c, current, owner, FlowEnding(c));
    } else if !c.ownEnding.LeavesRunning? {
      EndingFacts(current, owner, c.ownEnding);
      assert EndsWith(c, current, owner, c.ownEnding);
    } else if owner == Capture(current) && (!FlowEnding(c).LeavesRunning? || current.status == Running) {
      assert EndsWith(c, current, owner, FlowPart(c));
    }
  }

  predicate EndsWith(c: Call, current: Receipt, owner: Ownership, ending: Ending) {
    && !ending.LeavesRunning? && (ending.Completes? ==> Enters(c))
    && Leaves(c, current, owner) ==
         (var after := AfterEnding(current, owner, ending); if after.Some? then after.value else current)
  }

  lemma EndsAs(s: State, proc: int, c: Call, owner: Ownership) returns (e: Event, s': State)
    requires Holder(s, proc, c.envelope, owner, Enters(c)) && owner.jobId in s.table
    ensures Next(s, e, s') && Ended(s, proc, owner.jobId, Leaves(c, s.table[owner.jobId], owner), s')
  {
    hide Leaves, Enters, Next, AfterEnding, Ended, FlowEnding;
    var current := s.table[owner.jobId];
    OneEventIsEnough(c, current, owner);
    if LastEvent(c, 0, current, owner).Crash? {
      e, s' := Crash(proc), s.(sessions := s.sessions - {proc});
      JustLeaves(s, proc, owner.jobId, s');
    } else {
      var ending: Ending :| LastEvent(c, 0, current, owner) == EndEvent(0, ending)
        && EndsWith(c, current, owner, ending);
      e := EndEvent(proc, ending);
      s' := EndingStep(s, proc, c.envelope, owner, Enters(c), ending);
    }
  }

  lemma JustLeaves(s: State, proc: int, job: JobId, s': State)
    requires s' == s.(sessions := s.sessions - {proc}) && job in s.table
    ensures Next(s, Crash(proc), s') && Ended(s, proc, job, s.table[job], s')
  {
    assert s.table[job := s.table[job]] == s.table;
  }

  // ------------------------------------------------------- the whole request

  /** The answers in the call are what the journal says: in front of the claim,
      and, for a marked envelope, in front of the handler. */
  ghost predicate AsksFirst(c: Call, rows: Rows, d: Domain) {
    c.authorized <==> Authorized(rows, c.envelope, d)
  }

  ghost predicate AsksAgain(c: Call, rows: Rows, d: Domain) {
    && (c.stillAuthorized <==> (Marked(c.envelope) ==> Authorized(rows, c.envelope, d)))
    && c.deadline == if c.envelope.deadlineAt.Some? then c.envelope.deadlineAt.value else c.now + 1800.0
  }

  function Received(s: State, proc: int, c: Call): State {
    s.(sessions := s.sessions[proc := Session(c.envelope, Admitted)])
  }

  function AfterClaim(s: State, proc: int, c: Call, claim: Claim, claimed: Table): State {
    s.(table := claimed, shown := s.shown + {claim.receipt},
       sessions := if claim.shouldExecute then s.sessions[proc := Session(c.envelope, Holding(Capture(claim.receipt)))]
                   else s.sessions)
  }

  lemma ReceiveAndClaim(s: State, proc: int, c: Call, d: Domain, claim: Claim, claimed: Table)
    requires proc !in s.sessions && c.authorized && AsksFirst(c, s.rows, d) && TargetStable(s.table, Query(c))
    requires ClaimStep(s.table, Query(c), claimed, Ok(claim))
    ensures Next(s, Receive(proc, c.envelope, d), Received(s, proc, c))
    ensures Next(Received(s, proc, c), ClaimJob(proc, Query(c), claimed, Ok(claim)),
      AfterClaim(s, proc, c, claim, claimed))
  {
    hide Authorized, ClaimStep, TargetStable;
    assert s.sessions[proc := Session(c.envelope, Admitted)] - {proc} == s.sessions;
    assert
      s.sessions[proc := Session(c.envelope, Admitted)][
        proc := Session(c.envelope, Holding(Capture(claim.receipt)))]
      == s.sessions[proc := Session(c.envelope, Holding(Capture(claim.receipt)))];
  }

  function Entered(s: State, proc: int, owner: Ownership): State
    requires proc in s.sessions
  {
    s.(sessions := s.sessions[proc := s.sessions[proc].(phase := Executing(owner))],
       starts := s.starts + [Start(owner.jobId, owner.attempt)])
  }

  /** The state and the events of the checks in front of the handler. */
  function AtHandler(s: State, proc: int, c: Call, owner: Ownership): State
    requires proc in s.sessions
  {
    if Enters(c) then Entered(s, proc, owner) else s
  }

  function EnterEvents(proc: int, c: Call, d: Domain): seq<Event> {
    if Enters(c) then [EnterHandler(proc, d, c.now)] else []
  }

  lemma EnterStepIs(s: State, proc: int, c: Call, owner: Ownership, d: Domain)
    requires Holder(s, proc, c.envelope, owner, false) && Enters(c) && AsksAgain(c, s.rows, d)
    ensures Next(s, EnterHandler(proc, d, c.now), Entered(s, proc, owner))
    ensures Holder(Entered(s, proc, owner), proc, c.envelope, owner, true)
  {
    hide Authorized, Marked;
  }

  /** The rest of the system took these steps while the claimed request waited for
      its handler, or its handler ran; the session stayed as it was. */
  ghost predicate Meanwhile(start: State, proc: int, mids: seq<State>, between: seq<Event>) {
    && Path(mids, between) && mids[0] == start && proc in start.sessions
    && proc in mids[|between|].sessions && mids[|between|].sessions[proc] == start.sessions[proc]
  }

  /** The checks in front of the handler, which is entered or not. */
  lemma ToHandler(s: State, proc: int, c: Call, owner: Ownership, d: Domain)
    requires Holder(s, proc, c.envelope, owner, false) && AsksAgain(c, s.rows, d)
    ensures Holder(AtHandler(s, proc, c, owner), proc, c.envelope, owner, Enters(c))
    ensures Path(if Enters(c) then [s, AtHandler(s, proc, c, owner)] else [s], EnterEvents(proc, c, d))
  {
    hide Next, Enters, AsksAgain;
    if Enters(c) {
      EnterStepIs(s, proc, c, owner, d);
    }
  }

  lemma StayedPut(s: State)
    ensures Path([s], [])
  {
  }

  lemma Joined(a: seq<State>, x: seq<Event>, b: seq<State>, y: seq<Event>)
    requires Path(a, x) && Path(b, y) && |a| == |x| + 1 && |b| == |y| + 1 && a[|x|] == b[0]
    ensures Path(a + b[1..], x + y) && |a + b[1..]| == |x + y| + 1
    ensures (a + b[1..])[0] == a[0] && (a + b[1..])[|x + y|] == b[|y|]
  {
    hide Next;
    var all, evs := a + b[1..], x + y;
    forall k | 0 <= k < |evs| ensures Next(all[k], evs[k], all[k + 1]) {
      if k < |x| {
        assert all[k] == a[k] && all[k + 1] == a[k + 1];
      } else {
        assert all[k] == b[k - |x|] && all[k + 1] == b[k - |x| + 1];
        assert Next(b[k - |x|], y[k - |x|], b[k - |x| + 1]);
      }
    }
  }

  /** Received and claimed. */
  function Opened(s: State, proc: int, c: Call, d: Domain, claim: Claim, claimed: Table): seq<State> {
    [s, Received(s, proc, c), AfterClaim(s, proc, c, claim, claimed)]
  }

  function Opening(proc: int, c: Call, d: Domain, claim: Claim, claimed: Table): seq<Event> {
    [Receive(proc, c.envelope, d), ClaimJob(proc, Query(c), claimed, Ok(claim))]
  }

  lemma OpeningIsPath(s: State, proc: int, c: Call, d: Domain, claim: Claim, claimed: Table)
    requires proc !in s.sessions && c.authorized && AsksFirst(c, s.rows, d) && TargetStable(s.table, Query(c))
    requires ClaimStep(s.table, Query(c), claimed, Ok(claim))
    ensures Path(Opened(s, proc, c, d, claim, claimed), Opening(proc, c, d, claim, claimed))
  {
    hide Next, ClaimStep, AsksFirst, Query, TargetStable, Received, AfterClaim;
    ReceiveAndClaim(s, proc, c, d, claim, claimed);
  }

  /** MAIN RESULT. An execution request with its claim, handler and endings is a path
      of the protocol: received, claimed, the others' steps, entered if it was, the
      others' steps again, and ended by one event. It leaves the table, and the
      handler entries, that Executor.Process leaves. */
  lemma ExecuteIsProtocol(
    s: State, proc: int, c: Call, d: Domain, claim: Claim, claimed: Table,
    mids: seq<State>, between: seq<Event>, later: Domain, ins: seq<State>, within: seq<Event>,
    after: Table, response: Response)
    returns (states: seq<State>, events: seq<Event>, last: Event)
    requires proc !in s.sessions && c.authorized && AsksFirst(c, s.rows, d) && TargetStable(s.table, Query(c))
    requires ClaimStep(s.table, Query(c), claimed, Ok(claim))
    requires !claim.shouldExecute ==> after == claimed
    requires claim.shouldExecute ==>
      && Meanwhile(AfterClaim(s, proc, c, claim, claimed), proc, mids, between)
      && AsksAgain(c, mids[|between|].rows, later)
      && Meanwhile(AtHandler(mids[|between|], proc, c, Capture(claim.receipt)), proc, ins, within)
      && Settled(c, claim.receipt, ins[|within|].table, after, response)
    ensures Path(states, events) && states[0] == s && proc !in states[|events|].sessions
    ensures states[|events|].table == after
    ensures !claim.shouldExecute ==> states[|events|] == AfterClaim(s, proc, c, claim, claimed)
    ensures claim.shouldExecute ==>
      && events == Opening(proc, c, d, claim, claimed) + between + EnterEvents(proc, c, later) + within + [last]
      && states[|events|].starts == ins[|within|].starts
  {
    hide Next, Path, ClaimStep, AsksFirst, AsksAgain, Query, Enters, TargetStable, Leaves;
    states, events := Opened(s, proc, c, d, claim, claimed), Opening(proc, c, d, claim, claimed);
    OpeningIsPath(s, proc, c, d, claim, claimed);
    last := Receive(proc, c.envelope, d);
    if claim.shouldExecute {
      var owner := Capture(claim.receipt);
      Journal.PathEnds(mids, between);
      var waiting := mids[|between|];
      Joined(states, events, mids, between);
      states, events := states + mids[1..], events + between;
      ToHandler(waiting, proc, c, owner, later);
      var check := if Enters(c) then [waiting, AtHandler(waiting, proc, c, owner)] else [waiting];
      Joined(states, events, check, EnterEvents(proc, c, later));
      states, events := states + check[1..], events + EnterEvents(proc, c, later);
      Journal.PathEnds(ins, within);
      Joined(states, events, ins, within);
      states, events := states + ins[1..], events + within;
      var e, s' := EndsAs(ins[|within|], proc, c, owner);
      Journal.AddStep(states, events, e, s');
      last, states, events := e, states + [s'], events + [e];
    }
  }

  /** So a run goes on with it, and all that was proved of runs holds behind it. */
  lemma RunGoesOn(a: seq<State>, x: seq<Event>, b: seq<State>, y: seq<Event>)
    requires Run(a, x) && Path(b, y) && a[|x|] == b[0]
    ensures Run(a + b[1..], x + y) && (a + b[1..])[|x + y|] == b[|y|] && Inv(b[|y|])
  {
    hide Next, PlanInv, OnceInv, SentInv, UnmarkedInv;
    Joined(a, x, b, y);
    RunKeeps(a + b[1..], x + y, |x + y|);
  }
}
