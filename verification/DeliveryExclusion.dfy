/** Mutual exclusion of executors over whole runs, and what exactly it rests on. */
module DeliveryExclusion {
  import opened Wrappers
  import opened Plans
  import opened Control
  import opened Receipts
  import opened Submissions
  import opened DeliveryProtocol
  import opened DeliveryTheorems

  // ---------------------------------------------------------- nobody is stale

  predicate Acts(s: State, proc: int) {
    proc in s.sessions && !s.sessions[proc].phase.Admitted?
  }

  function JobOfProc(s: State, proc: int): JobId
    requires Acts(s, proc)
  {
    s.sessions[proc].phase.owner.jobId
  }

  /** Every process that holds or executes a job owns its running receipt. */
  ghost predicate AllOwn(s: State) {
    forall proc :: Acts(s, proc) ==> Owns(s, proc, JobOfProc(s, proc))
  }

  ghost predicate LiveOwner(s: State, job: JobId) {
    exists proc :: Owns(s, proc, job)
  }

  /** The operator's own guard: only a receipt nobody works on is released. */
  ghost predicate Considerate(s: State, e: Event) {
    e.Release? ==> !LiveOwner(s, e.job)
  }

  lemma OwnersDiffer(s: State, p: int, q: int)
    requires OnceInv(s) && AllOwn(s) && Acts(s, p) && Acts(s, q) && JobOfProc(s, p) == JobOfProc(s, q)
    ensures p == q
  {
    hide TargetsExclusive, NodesExclusive, WinsInv, StartsInv, TableOk;
    var job := JobOfProc(s, p);
    assert Holds(s, p, job, s.table[job].attempt) && Holds(s, q, job, s.table[job].attempt);
  }

  /** Table and sessions are what owning rests on. */
  lemma SameOwners(s: State, s': State)
    requires AllOwn(s) && s'.table == s.table
    requires forall proc :: Acts(s', proc) ==>
      Acts(s, proc) && s'.sessions[proc].phase.owner == s.sessions[proc].phase.owner
    ensures AllOwn(s')
  {
    forall proc | Acts(s', proc) ensures Owns(s', proc, JobOfProc(s', proc)) {
      assert Owns(s, proc, JobOfProc(s, proc));
    }
  }

  /** One receipt changes, and whoever acts on its job is gone. */
  lemma OthersOwn(s: State, s': State, job: JobId)
    requires AllOwn(s) && forall j :: j in s.table && j != job ==> j in s'.table && s'.table[j] == s.table[j]
    requires forall proc :: Acts(s', proc) ==>
      && Acts(s, proc) && s'.sessions[proc].phase.owner == s.sessions[proc].phase.owner && JobOfProc(s, proc) != job
    ensures AllOwn(s')
  {
    forall proc | Acts(s', proc) ensures Owns(s', proc, JobOfProc(s', proc)) {
      assert Owns(s, proc, JobOfProc(s, proc));
    }
  }

  lemma ClaimOwns(s: State, e: Event, s': State)
    requires OnceInv(s) && AllOwn(s) && e.ClaimJob? && ClaimJobStep(s, e, s')
    ensures AllOwn(s')
  {
    ClaimKeepsExclusion(s.table, e.q, e.table', e.answer);
    assert s.sessions[e.proc].phase == Admitted;
    if e.answer.Ok? && e.answer.value.shouldExecute {
      NobodyActs(s, e);
      HandedOwns(s, e, s');
    } else if e.table' == s.table {
      SameOwners(s, s');
    } else {
      NobodyActs(s, e);
      OthersOwn(s, s', e.q.jobId);
    }
  }

  /** Where a claim changes the table nobody acts on its job. */
  lemma NobodyActs(s: State, e: Event)
    requires OnceInv(s) && AllOwn(s) && e.ClaimJob? && ClaimStep(s.table, e.q, e.table', e.answer)
    requires e.table' != s.table || (e.answer.Ok? && e.answer.value.shouldExecute)
    ensures forall proc :: Acts(s, proc) ==> JobOfProc(s, proc) != e.q.jobId
  {
    forall proc | Acts(s, proc) ensures JobOfProc(s, proc) != e.q.jobId {
      assert Owns(s, proc, JobOfProc(s, proc));
    }
  }

  lemma HandedOwns(s: State, e: Event, s': State)
    requires AllOwn(s) && e.ClaimJob? && e.answer.Ok? && e.answer.value.shouldExecute
    requires forall proc :: Acts(s, proc) ==> JobOfProc(s, proc) != e.q.jobId
    requires e.proc in s.sessions && s'.table == e.table'
    requires s'.sessions ==
      s.sessions[e.proc := Session(s.sessions[e.proc].envelope, Holding(Capture(e.answer.value.receipt)))]
    requires forall j :: j in s.table && j != e.q.jobId ==> j in s'.table && s'.table[j] == s.table[j]
    requires e.q.jobId in s'.table && e.answer.value.receipt == s'.table[e.q.jobId]
      && s'.table[e.q.jobId].status == Running
    requires s'.table[e.q.jobId].jobId == e.q.jobId
    ensures AllOwn(s')
  {
    forall proc | Acts(s', proc) ensures Owns(s', proc, JobOfProc(s', proc)) {
      if proc != e.proc {
        assert Acts(s, proc);
        assert Owns(s, proc, JobOfProc(s, proc));
      }
    }
  }

  lemma EndOwns(s: State, e: Event, s': State)
    requires OnceInv(s) && AllOwn(s) && Next(s, e, s') && (e.Finish? || e.Abort?)
    ensures AllOwn(s')
  {
    hide OnceInv;
    assert Acts(s, e.proc);
    var job := JobOfProc(s, e.proc);
    forall proc | Acts(s', proc)
      ensures Acts(s, proc) && s'.sessions[proc] == s.sessions[proc] && JobOfProc(s, proc) != job
    {
      if JobOfProc(s, proc) == job {
        OwnersDiffer(s, proc, e.proc);
      }
    }
    OthersOwn(s, s', job);
  }

  lemma ReleaseOwns(s: State, job: JobId, s': State)
    requires AllOwn(s) && ReleaseStep(s, job, s')
    ensures AllOwn(s') <==> !LiveOwner(s, job)
  {
    if LiveOwner(s, job) {
      var proc :| Owns(s, proc, job);
      assert Acts(s', proc) && !Owns(s', proc, JobOfProc(s', proc));
    } else {
      forall proc | Acts(s', proc) ensures JobOfProc(s, proc) != job {
        assert Owns(s, proc, JobOfProc(s, proc));
      }
      OthersOwn(s, s', job);
    }
  }

  /** Only a release can leave a process behind. */
  lemma StepKeepsOwners(s: State, e: Event, s': State)
    requires OnceInv(s) && AllOwn(s) && Next(s, e, s')
    ensures AllOwn(s') <==> Considerate(s, e)
  {
    hide SubmitOk, Prepare, Publish, Record, Authorized, ClaimJobStep, FinishStep, AbortStep, ReleaseStep, OnceInv,
         AllOwn, Noted;
    match e
    case ClaimJob(_, _, _, _) => ClaimOwns(s, e, s');
    case Finish(_, _, _) => EndOwns(s, e, s');
    case Abort(_, _, _, _) => EndOwns(s, e, s');
    case Release(job) => ReleaseOwns(s, job, s');
    case PublishCommand(_, _, _, _, _, _) =>
      PublishGrows(s, e, s');
      SameOwners(s, s');
    case _ => SameOwners(s, s');
  }

  /** MAIN RESULT. In a run no process is ever left behind, holding or executing a
      job whose running receipt it does not own, if and only if no receipt is
      released while a process works on it. */
  lemma {:induction false} NobodyStaleExactly(states: seq<State>, events: seq<Event>, n: nat)
    requires Run(states, events) && n <= |events|
    ensures (forall k :: 0 <= k <= n ==> AllOwn(states[k])) <==>
      forall k :: 0 <= k < n ==> Considerate(states[k], events[k])
  {
    hide Next, PlanInv, OnceInv, SentInv, UnmarkedInv, AllOwn, Considerate;
    if n == 0 {
      assert AllOwn(Initial) by { NobodyYet(); }
    } else {
      NobodyStaleExactly(states, events, n - 1);
      RunKeeps(states, events, n - 1);
      assert Next(states[n - 1], events[n - 1], states[n]);
      if AllOwn(states[n - 1]) {
        StepKeepsOwners(states[n - 1], events[n - 1], states[n]);
      }
    }
  }

  lemma NobodyYet()
    ensures AllOwn(Initial)
  {
  }

  /** MAIN RESULT. Mutual exclusion: in a run without such a release at most one
      process at a time holds or executes a job, and it is the one its running
      receipt belongs to. Whoever enters a handler does so alone. */
  lemma MutualExclusion(states: seq<State>, events: seq<Event>, k: nat, p: int, q: int)
    requires Run(states, events) && k < |states|
    requires forall j :: 0 <= j < |events| ==> Considerate(states[j], events[j])
    requires Acts(states[k], p)
    ensures Owns(states[k], p, JobOfProc(states[k], p))
    ensures Acts(states[k], q) && JobOfProc(states[k], q) == JobOfProc(states[k], p) ==> q == p
  {
    hide Next, PlanInv, OnceInv, SentInv, UnmarkedInv, Considerate;
    NobodyStaleExactly(states, events, |events|);
    RunKeeps(states, events, k);
    assert AllOwn(states[k]);
    if Acts(states[k], q) && JobOfProc(states[k], q) == JobOfProc(states[k], p) {
      OwnersDiffer(states[k], q, p);
    }
  }

  // --------------------------------------------------- who was left behind

  lemma StepAttempts(s: State, e: Event, s': State)
    requires Next(s, e, s')
    ensures forall j :: j in s.table ==> j in s'.table && s'.table[j].attempt >= s.table[j].attempt
  {
    hide SubmitOk, Prepare, Publish, Record, Authorized, ClaimStep, MarkPublished, Noted;
    match e
    case ClaimJob(_, _, _, _) => AttemptsGrow(s.table, e.q, e.table', e.answer);
    case Finish(_, _, _) => FinishShape(s, e, s');
    case _ =>
  }

  lemma {:induction false} RunAttempts(states: seq<State>, events: seq<Event>, i: nat, k: nat, job: JobId)
    requires Run(states, events) && i <= k < |states| && job in states[i].table
    ensures job in states[k].table && states[k].table[job].attempt >= states[i].table[job].attempt
  {
    hide Next;
    if i < k {
      RunAttempts(states, events, i, k - 1, job);
      assert Next(states[k - 1], events[k - 1], states[k]);
      StepAttempts(states[k - 1], events[k - 1], states[k]);
    }
  }

  /** MAIN RESULT. Once a newer attempt exists, no process of an older one can touch
      any receipt by finishing or aborting, at any later time: the table, the
      successes and what responses may carry stay as they are. */
  lemma StaleIsInert(states: seq<State>, events: seq<Event>, i: nat, k: nat, job: JobId)
    requires Run(states, events) && i <= k < |events| && job in states[i].table
    requires events[k].Finish? || events[k].Abort?
    requires Acts(states[k], events[k].proc) && JobOfProc(states[k], events[k].proc) == job
    requires states[k].sessions[events[k].proc].phase.owner.attempt < states[i].table[job].attempt
    ensures states[k + 1].table == states[k].table && states[k + 1].wins == states[k].wins
    ensures states[k + 1].shown == states[k].shown
  {
    RunAttempts(states, events, i, k, job);
    assert Next(states[k], events[k], states[k + 1]);
  }
}
