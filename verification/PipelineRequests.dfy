/** What human requests rest on: research revisions, their completion markers, and the plan gate. */
module PipelineRequests {
  import opened Stages
  import opened PipelineState
  import opened PipelineMachine
  import opened PipelineFrames
  import opened PipelineSafety

  const PLANNER_JOB: Identity := Identity(Planner, 0)

  function CurrentResearch(sh: Shared): Identity {
    Identity(Researcher, sh.revision)
  }

  function ResearchKey(revision: nat): CompletedKey {
    CompletedKey(StageName(Researcher), revision)
  }

  lemma OnlyResearchIsResearch(stage: Stage)
    ensures StageName(stage) == StageName(Researcher) ==> stage == Researcher
  {
    assert StageName(stage)[0] == 'r' ==> stage == Researcher || stage == Refactor;
    assert StageName(Refactor)[2] != StageName(Researcher)[2];
  }

  // ---- What a worker's action may change of all this ----

  /** The attempt is about to write its completion marker. */
  predicate AtMarker(p: Process) {
    p.Worker? && p.pc.Carrying? && p.pc.carry.WriteCompleted?
  }

  /** No transition leads to Planner: only a plan confirmation queues it. */
  lemma NothingLeadsToPlanner(stage: Stage, outcome: Outcome, iteration: nat)
    ensures Resolve(stage, outcome, iteration).Next? ==> Resolve(stage, outcome, iteration).stage != Planner
  {
  }

  lemma CarryingNeverPlans(sh: Shared, log: History, n: nat, p: Process, o: Outcome, step: CarryStep)
    requires p.Worker?
    ensures PLANNER_JOB in CarryingStep(sh, log, n, p, o, step).sh.jobs ==> PLANNER_JOB in sh.jobs
  {
    NothingLeadsToPlanner(p.id.stage, o, p.id.iteration);
    hide Resolve, FinishingStep;
    if step.Finishing? {
      FinishingIsFramed(sh, log, p, o, step.finish);
    }
  }

  lemma CarryingAndRequests(sh: Shared, log: History, n: nat, p: Process, o: Outcome, step: CarryStep)
    requires p.Worker? && p.pc == Carrying(o, step)
    ensures var r := CarryingStep(sh, log, n, p, o, step);
            && r.sh.revision == sh.revision && r.sh.planGate == sh.planGate
            && (PLANNER_JOB in r.sh.jobs ==> PLANNER_JOB in sh.jobs)
            && r.proc.Worker? && r.proc.id == p.id && !AtMarker(r.proc)
            && r.sh.completed == (if AtMarker(p) then MarkCompleted(sh, p.id).completed else sh.completed)
  {
    hide CarryingStep, FinishingStep;
    CarryingNeverPlans(sh, log, n, p, o, step);
    if step.Finishing? {
      FinishingIsFramed(sh, log, p, o, step.finish);
      CarryingFinishes(sh, log, n, p, o, step.finish);
    } else {
      CarryingIsFramed(sh, log, n, p, o, step);
    }
  }

  /** A worker's action leaves all of it alone, or writes its own marker, or is the commit that leads up to that. */
  lemma WorkerAndRequests(H: HashFunction, sh: Shared, log: History, n: nat, p: Process, c: Choice)
    requires p.Worker?
    ensures var r := WorkerStep(H, sh, log, n, p, c);
            && r.sh.revision == sh.revision && r.sh.planGate == sh.planGate
            && (PLANNER_JOB in r.sh.jobs ==> PLANNER_JOB in sh.jobs)
            && r.proc.Worker? && r.proc.id == p.id
            && r.sh.completed == (if AtMarker(p) then MarkCompleted(sh, p.id).completed else sh.completed)
            && (AtMarker(r.proc) ==> p.pc.Save? && p.id in sh.leases && sh.leases[p.id] == n)
  {
    hide WorkStep, EntryStepOf, CarryingStep, FinishingStep;
    match p.pc
    case Working(_) => WorkIsFramed(H, sh, log, n, p, c);
    case Entering(entry) => EntryIsFramed(sh, log, n, p, entry);
    case Carrying(o, step) => CarryingAndRequests(sh, log, n, p, o, step);
    case _ =>
  }

  // ---- The invariant, over any interleaving ----

  ghost predicate ResearchRecorded(executed: set<Identity>) {
    exists revision :: Identity(Researcher, revision) in executed
  }

  /** Every revision before the current one is marked completed, and only recorded research is marked. */
  ghost predicate MarkersInv(sh: Shared) {
    && (forall r: nat :: r < sh.revision ==> ResearchKey(r) in sh.completed)
    && (forall r: nat :: ResearchKey(r) in sh.completed ==> Identity(Researcher, r) in sh.executed)
    && CurrentResearch(sh) in sh.jobs
  }

  ghost predicate ConfirmKnown(sh: Shared, p: Process) {
    p.Confirming? ==>
      && (p.cstep.CheckResearch? ==> p.cstep.revision <= sh.revision)
      && (p.cstep.WinGate? || p.cstep.QueuePlanner? ==> ResearchRecorded(sh.executed))
  }

  /** The confirmation that won the plan gate and has yet to queue Planner, or to reopen the gate. */
  predicate HoldsGate(p: Process) {
    p.Confirming? && (p.cstep.QueuePlanner? || p.cstep.ReopenGate?)
  }

  predicate GateHeldOnce(s: System) {
    && (forall n :: n in s.procs && HoldsGate(s.procs[n]) ==> s.sh.planGate)
    && (forall m, n :: m in s.procs && n in s.procs && HoldsGate(s.procs[m]) && HoldsGate(s.procs[n]) ==> m == n)
  }

  ghost predicate RequestsInv(s: System) {
    && MarkersInv(s.sh)
    && (forall n :: n in s.procs ==> ConfirmKnown(s.sh, s.procs[n]))
    && GateHeldOnce(s)
  }

  lemma ConfirmKnownGrows(sh: Shared, sh': Shared, p: Process)
    requires ConfirmKnown(sh, p) && sh.executed <= sh'.executed && sh.revision <= sh'.revision
    ensures ConfirmKnown(sh', p)
  {
    if ResearchRecorded(sh.executed) {
      var revision :| Identity(Researcher, revision) in sh.executed;
      assert Identity(Researcher, revision) in sh'.executed;
    }
  }

  /** What one process may do to markers, revision and plan gate. */
  ghost predicate KeepsRequests(sh: Shared, p: Process, sh': Shared, q: Process) {
    && MarkersInv(sh') && ConfirmKnown(sh', q)
    && sh.executed <= sh'.executed && sh.revision <= sh'.revision
    && (HoldsGate(q) ==> sh'.planGate && (HoldsGate(p) || !sh.planGate))
    && (sh.planGate && !sh'.planGate ==> HoldsGate(p) && !HoldsGate(q))
  }

  lemma GateStaysHeldOnce(s: System, s': System, n: nat)
    requires GateHeldOnce(s) && n in s.procs && n in s'.procs && s'.procs == s.procs[n := s'.procs[n]]
    requires HoldsGate(s'.procs[n]) ==> s'.sh.planGate && (HoldsGate(s.procs[n]) || !s.sh.planGate)
    requires s.sh.planGate && !s'.sh.planGate ==> HoldsGate(s.procs[n]) && !HoldsGate(s'.procs[n])
    ensures GateHeldOnce(s')
  {
    hide HoldsGate;
  }

  lemma ProcessKeepsRequests(s: System, s': System, n: nat)
    requires RequestsInv(s) && n in s.procs && n in s'.procs && s'.procs == s.procs[n := s'.procs[n]]
    requires KeepsRequests(s.sh, s.procs[n], s'.sh, s'.procs[n])
    ensures RequestsInv(s')
  {
    GateStaysHeldOnce(s, s', n);
    hide GateHeldOnce, MarkersInv, ConfirmKnown, HoldsGate;
    forall m | m in s'.procs ensures ConfirmKnown(s'.sh, s'.procs[m]) {
      if m != n {
        ConfirmKnownGrows(s.sh, s'.sh, s.procs[m]);
      }
    }
  }

  lemma WorkerKeepsRequests(H: HashFunction, s: System, n: nat, c: Choice)
    requires RequestsInv(s) && Inv(H, s) && n in s.procs && s.procs[n].Worker?
    ensures RequestsInv(Step(H, s, Act(n, c)))
  {
    var p, s' := s.procs[n], Step(H, s, Act(n, c));
    ProcessOfInv(H, s, n);
    WorkerPreserves(H, s.sh, s.log, n, p, c);
    WorkerAndRequests(H, s.sh, s.log, n, p, c);
    hide Inv, WorkerStep, SharedInv, ProcessInv, GateHeldOnce;
    MarkersAfterWorker(s.sh, s'.sh, p);
    hide MarkersInv;
    ProcessKeepsRequests(s, s', n);
  }

  lemma ProcessOfInv(H: HashFunction, s: System, n: nat)
    requires Inv(H, s) && n in s.procs
    ensures ProcessInv(H, s.sh, s.log, n, s.procs[n]) && SharedInv(H, s.sh, s.log)
    ensures AtMarker(s.procs[n]) ==> s.procs[n].id in s.sh.executed
  {
  }

  lemma MarkersAfterWorker(sh: Shared, sh': Shared, p: Process)
    requires MarkersInv(sh) && p.Worker? && (AtMarker(p) ==> p.id in sh.executed)
    requires sh'.revision == sh.revision && sh.executed <= sh'.executed && sh.jobs <= sh'.jobs
    requires sh'.completed == if AtMarker(p) then MarkCompleted(sh, p.id).completed else sh.completed
    ensures MarkersInv(sh')
  {
    OnlyResearchIsResearch(p.id.stage);
    forall r: nat | ResearchKey(r) in sh'.completed ensures Identity(Researcher, r) in sh'.executed {
      if ResearchKey(r) !in sh.completed {
        assert p.id == Identity(Researcher, r);
      }
    }
  }

  lemma ConfirmingKeepsRequests(sh: Shared, log: History, p: Process, c: Choice)
    requires p.Confirming? && MarkersInv(sh) && ConfirmKnown(sh, p) && (HoldsGate(p) ==> sh.planGate)
    ensures var r := ConfirmingStep(sh, log, p, c); KeepsRequests(sh, p, r.sh, r.proc)
  {
    hide ResearchRecorded;
    if p.cstep.CheckResearch? && ResearchKey(p.cstep.revision) in sh.completed {
      RecordedOnce(sh.executed, p.cstep.revision);
    }
  }

  lemma RecordedOnce(executed: set<Identity>, revision: nat)
    requires Identity(Researcher, revision) in executed
    ensures ResearchRecorded(executed)
  {
  }

  lemma ApprovingKeepsRequests(sh: Shared, log: History, p: Process)
    requires p.Approving? && MarkersInv(sh)
    ensures var r := ApprovingStep(sh, log, p); KeepsRequests(sh, p, r.sh, r.proc)
  {
  }

  lemma HumanKeepsRequests(H: HashFunction, s: System, n: nat, c: Choice)
    requires RequestsInv(s) && n in s.procs && !s.procs[n].Worker?
    ensures RequestsInv(Step(H, s, Act(n, c)))
  {
    hide MarkersInv, ConfirmKnown, HoldsGate, KeepsRequests, ConfirmingStep, ApprovingStep;
    if s.procs[n].Confirming? {
      ConfirmingKeepsRequests(s.sh, s.log, s.procs[n], c);
    } else {
      ApprovingKeepsRequests(s.sh, s.log, s.procs[n]);
    }
    ProcessKeepsRequests(s, Step(H, s, Act(n, c)), n);
  }

  /** A throw, a crash or a renewal: the process moves on without holding a gate it did not hold. */
  lemma FaultKeepsRequests(s: System, n: nat, q: Process)
    requires RequestsInv(s) && n in s.procs
    requires q in {Thrown(s.procs[n]), Crashed(s.procs[n])} || (s.procs[n].Worker? && q.Worker?)
    ensures RequestsInv(s.(procs := s.procs[n := q]))
  {
    assert KeepsRequests(s.sh, s.procs[n], s.sh, q) by {
      hide MarkersInv, ResearchRecorded;
    }
    hide KeepsRequests, RequestsInv;
    ProcessKeepsRequests(s, s.(procs := s.procs[n := q]), n);
  }

  lemma StartKeepsRequests(H: HashFunction, s: System, p: Process)
    requires RequestsInv(s) && !HoldsGate(p) && ConfirmKnown(s.sh, p)
    ensures RequestsInv(Start(s, p))
  {
    hide MarkersInv, ConfirmKnown, HoldsGate;
  }

  lemma ResearchAgainKeepsRequests(H: HashFunction, s: System)
    requires RequestsInv(s)
    ensures RequestsInv(Step(H, s, ResearchAgain))
  {
    var s' := Step(H, s, ResearchAgain);
    forall m | m in s'.procs ensures ConfirmKnown(s'.sh, s'.procs[m]) {
      ConfirmKnownGrows(s.sh, s'.sh, s.procs[m]);
    }
    hide ConfirmKnown, HoldsGate;
  }

  lemma OtherKeepsRequests(H: HashFunction, s: System, action: Action)
    requires RequestsInv(s) && !action.Act?
    ensures RequestsInv(Step(H, s, action))
  {
    match action
    case Throw(n) => if n in s.procs { FaultKeepsRequests(s, n, Thrown(s.procs[n])); }
    case Crash(n) => if n in s.procs { FaultKeepsRequests(s, n, Crashed(s.procs[n])); }
    case Renew(n, _) =>
      if n in s.procs && HoldsTimer(s.procs[n]) { FaultKeepsRequests(s, n, Step(H, s, action).procs[n]); }
    case ResearchAgain => ResearchAgainKeepsRequests(H, s);
    case Expire(id) =>
      hide ResearchRecorded, HoldsGate;
    case Deliver(id) =>
      if id in s.sh.jobs { StartKeepsRequests(H, s, Step(H, s, action).procs[s.next]); }
    case Reconcile(id) => StartKeepsRequests(H, s, Worker(id, Entering(ReconcileReadExecuted), false, false));
    case RequestConfirm => if s.sh.snapshot.Running? { StartKeepsRequests(H, s, Confirming(ReadRevision)); }
    case RequestApprove(hash) => if s.sh.snapshot.Running? { StartKeepsRequests(H, s, Approving(hash, ReadRecord)); }
  }

  /** Over every run at all: markers follow research, and one confirmation at a time holds the plan gate. */
  lemma {:induction false} ReachableRequests(H: HashFunction, actions: seq<Action>)
    ensures RequestsInv(Run(H, actions))
  {
    if actions != [] {
      var before, last := actions[..|actions| - 1], actions[|actions| - 1];
      ReachableRequests(H, before);
      ReachableInv(H, before);
      var s := Run(H, before);
      hide RequestsInv, Inv;
      if !last.Act? {
        OtherKeepsRequests(H, s, last);
      } else if last.n in s.procs {
        if s.procs[last.n].Worker? {
          WorkerKeepsRequests(H, s, last.n, last.choice);
        } else {
          HumanKeepsRequests(H, s, last.n, last.choice);
        }
      }
    }
  }

  /**
   * The plan gate is a lock: at most one confirmation is between winning it and queueing Planner or reopening it,
   * and while one is, research cannot be repeated.
   */
  lemma {:induction false} OneConfirmationHoldsTheGate(H: HashFunction, actions: seq<Action>, m: nat, n: nat)
    requires m in Run(H, actions).procs && n in Run(H, actions).procs
    requires HoldsGate(Run(H, actions).procs[m]) && HoldsGate(Run(H, actions).procs[n])
    ensures m == n && Run(H, actions).sh.planGate && !CanResearchAgain(Run(H, actions).sh)
  {
    hide Run;
    ReachableRequests(H, actions);
  }
}
