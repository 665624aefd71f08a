/** When a run that waits for its plan can still go on: the exact condition, both ways. */
module PipelineBlocking {
  import opened Stages
  import opened PipelineState
  import opened PipelineMachine
  import opened PipelineLeases
  import opened PipelineRequests
  import opened PipelineRecovery
  import opened PipelineServices
  import opened PipelineProgress

  // ---- The condition ----

  /** A confirmation took the plan gate and nobody is left to queue Planner or to reopen the gate. */
  predicate GateIsStuck(s: System) {
    s.sh.planGate && forall n :: n in s.procs ==> s.procs[n] != Confirming(ReopenGate)
  }

  /** The process is about to write the marker of the current research, or is past the check that reads it. */
  predicate GetsPastMarker(sh: Shared, p: Process) {
    match p
    case Worker(id, _, _, _) => id == CurrentResearch(sh) && AtMarker(p)
    case Confirming(step) => step.WinGate? || (step.CheckResearch? && step.revision != sh.revision)
    case Approving(_, _) => false
  }

  /** The current research has its outcome but not its completion marker, and nobody is writing it. */
  predicate MarkerIsLost(s: System) {
    && CurrentResearch(s.sh) in s.sh.outcomes && ResearchKey(s.sh.revision) !in s.sh.completed
    && (forall n :: n in s.procs ==> !GetsPastMarker(s.sh, s.procs[n]))
  }

  predicate IsBlocked(s: System) {
    && PLANNER_JOB !in s.sh.jobs
    && (forall n :: n in s.procs ==> s.procs[n] != Confirming(QueuePlanner))
    && (GateIsStuck(s) || MarkerIsLost(s))
  }

  // ---- A blocked run stays blocked ----

  lemma WorkerGetsNotPast(H: HashFunction, sh: Shared, log: History, n: nat, p: Process, c: Choice)
    requires p.Worker? && !GetsPastMarker(sh, p) && (p.pc.Save? ==> p.id !in sh.outcomes)
    requires CurrentResearch(sh) in sh.outcomes && ResearchKey(sh.revision) !in sh.completed
    ensures var r := WorkerStep(H, sh, log, n, p, c);
            && r.sh.revision == sh.revision && ResearchKey(sh.revision) !in r.sh.completed
            && !GetsPastMarker(r.sh, r.proc)
  {
    OnlyResearchIsResearch(p.id.stage);
    WorkerAndRequests(H, sh, log, n, p, c);
    hide WorkerStep;
  }

  lemma WorkerLeavesMarkerLost(H: HashFunction, s: System, n: nat, c: Choice)
    requires NonOverlapInv(H, s) && MarkerIsLost(s) && n in s.procs && s.procs[n].Worker?
    ensures MarkerIsLost(Step(H, s, Act(n, c)))
  {
    if s.procs[n].pc.Save? {
      SavingIsNew(H, s, n);
    }
    hide NonOverlapInv, WorkerStep;
    WorkerGetsNotPast(H, s.sh, s.log, n, s.procs[n], c);
    OutcomesAreFenced(H, s, Act(n, c));
    var s' := Step(H, s, Act(n, c));
    SameRevisionSamePast(s, s');
    hide GetsPastMarker;
  }

  lemma SameRevisionSamePast(s: System, s': System)
    requires MarkerIsLost(s) && s'.sh.revision == s.sh.revision
    ensures forall m :: m in s.procs ==> !GetsPastMarker(s'.sh, s.procs[m])
  {
  }

  lemma SavingIsNew(H: HashFunction, s: System, n: nat)
    requires NonOverlapInv(H, s) && n in s.procs && s.procs[n].Worker? && s.procs[n].pc.Save?
    ensures s.procs[n].id !in s.sh.outcomes
  {
    assert AttemptInv(H, s.sh, s.procs[n]);
  }

  lemma WorkerLeavesGateStuck(H: HashFunction, s: System, n: nat, c: Choice)
    requires GateIsStuck(s) && n in s.procs && s.procs[n].Worker?
    ensures GateIsStuck(Step(H, s, Act(n, c)))
  {
    WorkerAndRequests(H, s.sh, s.log, n, s.procs[n], c);
    hide WorkerStep;
  }

  lemma WorkerLeavesBlocked(H: HashFunction, s: System, n: nat, c: Choice)
    requires NonOverlapInv(H, s) && IsBlocked(s) && n in s.procs && s.procs[n].Worker?
    ensures IsBlocked(Step(H, s, Act(n, c))) && Step(H, s, Act(n, c)).sh.revision == s.sh.revision
  {
    WorkerAndRequests(H, s.sh, s.log, n, s.procs[n], c);
    hide WorkerStep, NonOverlapInv, GateIsStuck, MarkerIsLost;
    if GateIsStuck(s) {
      WorkerLeavesGateStuck(H, s, n, c);
    } else {
      WorkerLeavesMarkerLost(H, s, n, c);
    }
  }

  /** The process n of a blocked run becomes q and the shared state sh', and neither lifts the block. */
  predicate LeavesBlock(s: System, sh': Shared, q: Process) {
    && sh'.revision == s.sh.revision && sh'.completed == s.sh.completed && sh'.outcomes == s.sh.outcomes
    && (PLANNER_JOB in sh'.jobs ==> PLANNER_JOB in s.sh.jobs)
    && q != Confirming(QueuePlanner)
    && (GateIsStuck(s) ==> sh'.planGate && q != Confirming(ReopenGate))
    && (MarkerIsLost(s) ==> !GetsPastMarker(sh', q))
  }

  lemma ProcessLeavesBlocked(s: System, s': System, n: nat)
    requires IsBlocked(s) && n in s.procs && n in s'.procs && s'.procs == s.procs[n := s'.procs[n]]
    requires LeavesBlock(s, s'.sh, s'.procs[n])
    ensures IsBlocked(s')
  {
  }

  lemma ConfirmingLeavesBlock(s: System, n: nat, c: Choice)
    requires IsBlocked(s) && n in s.procs && s.procs[n].Confirming?
    ensures var r := ConfirmingStep(s.sh, s.log, s.procs[n], c); LeavesBlock(s, r.sh, r.proc)
  {
  }

  lemma ApprovingLeavesBlock(s: System, n: nat)
    requires IsBlocked(s) && n in s.procs && s.procs[n].Approving?
    ensures var r := ApprovingStep(s.sh, s.log, s.procs[n]); LeavesBlock(s, r.sh, r.proc)
  {
  }

  lemma HumanLeavesBlocked(H: HashFunction, s: System, n: nat, c: Choice)
    requires IsBlocked(s) && n in s.procs && !s.procs[n].Worker?
    ensures IsBlocked(Step(H, s, Act(n, c))) && Step(H, s, Act(n, c)).sh.revision == s.sh.revision
  {
    if s.procs[n].Confirming? {
      ConfirmingLeavesBlock(s, n, c);
    } else {
      ApprovingLeavesBlock(s, n);
    }
    hide IsBlocked, ConfirmingStep, ApprovingStep, WorkerStep, GateIsStuck, MarkerIsLost, GetsPastMarker;
    ProcessLeavesBlocked(s, Step(H, s, Act(n, c)), n);
  }

  lemma FaultLeavesBlocked(s: System, n: nat, q: Process)
    requires IsBlocked(s) && n in s.procs
    requires q in {Thrown(s.procs[n]), Crashed(s.procs[n])}
             || (s.procs[n].Worker? && q.Worker? && q == s.procs[n].(leaseLost := q.leaseLost))
    ensures IsBlocked(s.(procs := s.procs[n := q]))
  {
    assert LeavesBlock(s, s.sh, q);
    hide IsBlocked, LeavesBlock;
    ProcessLeavesBlocked(s, s.(procs := s.procs[n := q]), n);
  }

  lemma StartLeavesBlocked(s: System, p: Process)
    requires IsBlocked(s) && p != Confirming(QueuePlanner) && p != Confirming(ReopenGate) && !GetsPastMarker(s.sh, p)
    ensures IsBlocked(Start(s, p))
  {
  }

  lemma StepLeavesBlocked(H: HashFunction, s: System, action: Action)
    requires NonOverlapInv(H, s) && IsBlocked(s)
    ensures IsBlocked(Step(H, s, action)) && Step(H, s, action).sh.revision == s.sh.revision
  {
    hide NonOverlapInv, ProcessStep;
    match action
    case Act(n, c) =>
      if n in s.procs && s.procs[n].Worker? {
        WorkerLeavesBlocked(H, s, n, c);
      } else if n in s.procs {
        HumanLeavesBlocked(H, s, n, c);
      }
    case Throw(n) => if n in s.procs { FaultLeavesBlocked(s, n, Thrown(s.procs[n])); }
    case Crash(n) => if n in s.procs { FaultLeavesBlocked(s, n, Crashed(s.procs[n])); }
    case Renew(n, _) =>
      if n in s.procs && HoldsTimer(s.procs[n]) { FaultLeavesBlocked(s, n, Step(H, s, action).procs[n]); }
    case Deliver(id) => if id in s.sh.jobs { StartLeavesBlocked(s, Step(H, s, action).procs[s.next]); }
    case Reconcile(id) => StartLeavesBlocked(s, Worker(id, Entering(ReconcileReadExecuted), false, false));
    case RequestConfirm => if s.sh.snapshot.Running? { StartLeavesBlocked(s, Confirming(ReadRevision)); }
    case RequestApprove(hash) => if s.sh.snapshot.Running? { StartLeavesBlocked(s, Approving(hash, ReadRecord)); }
    case ResearchAgain =>
    case Expire(id) =>
  }

  /** Until Planner is queued the queue holds research alone, and the run has not finished. */
  lemma {:induction false} BeforePlanner(H: HashFunction, actions: seq<Action>)
    requires NonOverlapping(H, actions) && PLANNER_JOB !in Run(H, actions).sh.jobs
    ensures forall id :: id in Run(H, actions).sh.jobs ==> id.stage == Researcher
    ensures Run(H, actions).sh.snapshot.Running?
  {
    hide Run;
    NonOverlappingInv(H, actions);
    CrashRefinement(H, actions);
    forall id | id in Run(H, actions).sh.jobs ensures id.stage == Researcher {
      if id.stage != Researcher {
        JobsAreCrashFreeJobs(H, actions, id);
        LaterStagesFollowPlanner(Observations(H, actions), id);
      }
    }
  }

  /**
   * A blocked run stays blocked. Over every further run without overlap no plan is confirmed, no research repeated,
   * no later stage ever queued, and the run never finishes.
   */
  lemma {:induction false} BlockedRunStaysBlocked(H: HashFunction, actions: seq<Action>, more: seq<Action>)
    requires NonOverlapping(H, actions + more) && IsBlocked(Run(H, actions))
    ensures IsBlocked(Run(H, actions + more))
    ensures Run(H, actions + more).sh.revision == Run(H, actions).sh.revision
    ensures forall id :: id in Run(H, actions + more).sh.jobs ==> id.stage == Researcher
    ensures Run(H, actions + more).sh.snapshot.Running?
    decreases |more|
  {
    var all := actions + more;
    if more == [] {
      assert all == actions;
    } else {
      var init := more[..|more| - 1];
      assert all[..|all| - 1] == actions + init;
      BlockedRunStaysBlocked(H, actions, init);
      NonOverlappingInv(H, actions + init);
      hide IsBlocked, NonOverlapInv, Step;
      StepLeavesBlocked(H, Run(H, actions + init), all[|all| - 1]);
    }
    NotYetPlanned(Run(H, all));
    BeforePlanner(H, all);
  }

  lemma NotYetPlanned(s: System)
    requires IsBlocked(s)
    ensures PLANNER_JOB !in s.sh.jobs
  {
  }

  // ---- A run that is not blocked can go on ----

  /** Planner is queued in some non-overlapping continuation. */
  ghost predicate CanPlan(H: HashFunction, actions: seq<Action>) {
    exists more :: NonOverlapping(H, actions + more) && PLANNER_JOB in Run(H, actions + more).sh.jobs
  }

  lemma CanPlanBy(H: HashFunction, actions: seq<Action>, all: seq<Action>)
    requires actions <= all && NonOverlapping(H, all) && PLANNER_JOB in Run(H, all).sh.jobs
    ensures CanPlan(H, actions)
  {
    assert actions + all[|actions|..] == all;
  }

  lemma PlannerIsQueued(H: HashFunction, actions: seq<Action>, n: nat) returns (all: seq<Action>)
    requires NonOverlapping(H, actions) && n in Run(H, actions).procs
    requires Run(H, actions).procs[n] == Confirming(QueuePlanner)
    ensures actions <= all && NonOverlapping(H, all) && PLANNER_JOB in Run(H, all).sh.jobs
  {
    hide Run, NonOverlapping, WorkerStep;
    all := ActsNext(H, actions, n);
  }

  lemma GateIsWon(H: HashFunction, actions: seq<Action>, n: nat) returns (all: seq<Action>)
    requires NonOverlapping(H, actions) && n in Run(H, actions).procs && !Run(H, actions).sh.planGate
    requires Run(H, actions).procs[n] == Confirming(WinGate)
    ensures actions <= all && NonOverlapping(H, all) && PLANNER_JOB in Run(H, all).sh.jobs
  {
    hide Run, NonOverlapping, WorkerStep;
    all := ActsNext(H, actions, n);
    all := PlannerIsQueued(H, all, n);
  }

  /** A request that read an earlier revision passes the check of that revision's marker. */
  lemma EarlierRevisionPasses(H: HashFunction, actions: seq<Action>, n: nat) returns (all: seq<Action>)
    requires NonOverlapping(H, actions) && n in Run(H, actions).procs && !Run(H, actions).sh.planGate
    requires Run(H, actions).procs[n].Confirming? && Run(H, actions).procs[n].cstep.CheckResearch?
    requires Run(H, actions).procs[n].cstep.revision != Run(H, actions).sh.revision
    ensures actions <= all && NonOverlapping(H, all) && PLANNER_JOB in Run(H, all).sh.jobs
  {
    hide Run, NonOverlapping, WorkerStep;
    ReachableRequests(H, actions);
    var revision := Run(H, actions).procs[n].cstep.revision;
    assert ConfirmKnown(Run(H, actions).sh, Run(H, actions).procs[n]);
    assert ResearchKey(revision) in Run(H, actions).sh.completed;
    hide RequestsInv;
    all := ActsNext(H, actions, n);
    all := GateIsWon(H, all, n);
  }

  lemma MarkedResearchIsConfirmed(H: HashFunction, actions: seq<Action>) returns (all: seq<Action>)
    requires NonOverlapping(H, actions) && !Run(H, actions).sh.planGate
    requires ResearchKey(Run(H, actions).sh.revision) in Run(H, actions).sh.completed
    ensures actions <= all && NonOverlapping(H, all) && PLANNER_JOB in Run(H, all).sh.jobs
  {
    hide Run, NonOverlapping;
    all := actions;
    if PLANNER_JOB !in Run(H, actions).sh.jobs {
      BeforePlanner(H, actions);
      all := ConfirmationQueuesPlanner(H, actions, NoChoice());
    }
  }

  lemma MarkerIsWritten(H: HashFunction, actions: seq<Action>, n: nat) returns (all: seq<Action>)
    requires NonOverlapping(H, actions) && n in Run(H, actions).procs && !Run(H, actions).sh.planGate
    requires AtMarker(Run(H, actions).procs[n])
    requires Run(H, actions).procs[n].id == CurrentResearch(Run(H, actions).sh)
    ensures actions <= all && NonOverlapping(H, all) && PLANNER_JOB in Run(H, all).sh.jobs
  {
    hide Run, NonOverlapping, WorkStep, EntryStepOf, FinishingStep;
    all := ActsNext(H, actions, n);
    all := MarkedResearchIsConfirmed(H, all);
  }

  /** The attempt on the current research, if one is alive, dies; its lease expires. */
  lemma ResearchIsAbandoned(H: HashFunction, actions: seq<Action>) returns (all: seq<Action>)
    requires NonOverlapping(H, actions) && CurrentResearch(Run(H, actions).sh) !in Run(H, actions).sh.outcomes
    ensures actions <= all && NonOverlapping(H, all)
    ensures var sh, sh' := Run(H, actions).sh, Run(H, all).sh;
            && IsUnstarted(Run(H, all), CurrentResearch(sh')) && sh'.revision == sh.revision
            && sh'.planGate == sh.planGate && sh'.snapshot == sh.snapshot
  {
    hide Run, NonOverlapping;
    var s := Run(H, actions);
    NonOverlappingInv(H, actions);
    ReachableRequests(H, actions);
    assert CurrentResearch(s.sh) in s.sh.jobs && CurrentResearch(s.sh) !in s.sh.marks;
    hide NonOverlapInv, RequestsInv;
    all := AttemptsEnd(H, actions, CurrentResearch(s.sh));
    UnstartedOnceEnded(H, all, CurrentResearch(s.sh));
  }

  /** Research without an outcome can be completed from any state, whatever became of its earlier attempts. */
  lemma ResearchIsCompleted(H: HashFunction, actions: seq<Action>) returns (all: seq<Action>)
    requires NonOverlapping(H, actions) && CurrentResearch(Run(H, actions).sh) !in Run(H, actions).sh.outcomes
    ensures actions <= all && NonOverlapping(H, all)
    ensures var sh, sh' := Run(H, actions).sh, Run(H, all).sh;
            sh'.planGate == sh.planGate && ResearchKey(sh'.revision) in sh'.completed
  {
    hide Run, NonOverlapping, Works;
    var before := ResearchIsAbandoned(H, actions);
    var s := Run(H, before);
    var id := CurrentResearch(s.sh);
    AdvancesAlone(H, s, id, NoChoice());
    all := StageCompletes(H, before, id, NoChoice(), Begun(s, id).sh, s.log, Advance(Plain));
  }

  /** A gate that is taken but not stuck is reopened by the request that holds it. */
  lemma GateIsReopened(H: HashFunction, actions: seq<Action>) returns (all: seq<Action>)
    requires NonOverlapping(H, actions) && !GateIsStuck(Run(H, actions))
    ensures actions <= all && NonOverlapping(H, all) && !Run(H, all).sh.planGate
    ensures var s, s' := Run(H, actions), Run(H, all);
            && s'.sh == s.sh.(planGate := false)
            && forall n :: n in s.procs ==>
                 n in s'.procs && (s'.procs[n] == s.procs[n] || s.procs[n] == Confirming(ReopenGate))
  {
    hide Run, NonOverlapping, WorkerStep;
    var s := Run(H, actions);
    all := actions;
    if s.sh.planGate {
      var n :| n in s.procs && s.procs[n] == Confirming(ReopenGate);
      all := ActsNext(H, actions, n);
    }
  }

  lemma UnblockedRunGoesOn(H: HashFunction, actions: seq<Action>) returns (all: seq<Action>)
    requires NonOverlapping(H, actions) && !IsBlocked(Run(H, actions))
    ensures actions <= all && NonOverlapping(H, all) && PLANNER_JOB in Run(H, all).sh.jobs
  {
    hide Run, NonOverlapping;
    var s := Run(H, actions);
    if PLANNER_JOB in s.sh.jobs {
      all := actions;
    } else if n :| n in s.procs && s.procs[n] == Confirming(QueuePlanner) {
      all := PlannerIsQueued(H, actions, n);
    } else {
      all := GateIsReopened(H, actions);
      all := FreeGateGoesOn(H, all);
    }
  }

  lemma FreeGateGoesOn(H: HashFunction, actions: seq<Action>) returns (all: seq<Action>)
    requires NonOverlapping(H, actions) && !Run(H, actions).sh.planGate && !MarkerIsLost(Run(H, actions))
    ensures actions <= all && NonOverlapping(H, all) && PLANNER_JOB in Run(H, all).sh.jobs
  {
    hide Run, NonOverlapping;
    var s := Run(H, actions);
    if ResearchKey(s.sh.revision) in s.sh.completed {
      all := MarkedResearchIsConfirmed(H, actions);
    } else if CurrentResearch(s.sh) !in s.sh.outcomes {
      all := ResearchIsCompleted(H, actions);
      all := MarkedResearchIsConfirmed(H, all);
    } else {
      var n :| n in s.procs && GetsPastMarker(s.sh, s.procs[n]);
      if s.procs[n].Worker? {
        all := MarkerIsWritten(H, actions, n);
      } else if s.procs[n].cstep.WinGate? {
        all := GateIsWon(H, actions, n);
      } else {
        all := EarlierRevisionPasses(H, actions, n);
      }
    }
  }

  /**
   * The exact condition, for every non-overlapping run: some continuation without overlap queues Planner if and only
   * if the run is not blocked, that is, neither has the current research lost its completion marker nor is the plan
   * gate taken while Planner is not queued and nobody is about to queue it.
   */
  lemma {:induction false} PlannerCanBeQueuedIff(H: HashFunction, actions: seq<Action>)
    requires NonOverlapping(H, actions)
    ensures CanPlan(H, actions) <==> !IsBlocked(Run(H, actions))
  {
    hide Run, NonOverlapping, IsBlocked;
    if IsBlocked(Run(H, actions)) {
      forall more | NonOverlapping(H, actions + more) ensures PLANNER_JOB !in Run(H, actions + more).sh.jobs {
        BlockedRunStaysBlocked(H, actions, more);
        NotYetPlanned(Run(H, actions + more));
      }
    } else {
      var all := UnblockedRunGoesOn(H, actions);
      CanPlanBy(H, actions, all);
    }
  }

  // ---- Both ways of being blocked are reached ----

  predicate FirstAttempt(s: System, pc: PC) {
    && s.procs == map[0 := W(Identity(Researcher, 0), pc)] && s.next == 1
    && s.sh.revision == 0 && s.sh.completed == {} && s.sh.jobs == {Identity(Researcher, 0)}
  }

  lemma FirstAttemptCommits(H: HashFunction) returns (actions: seq<Action>)
    ensures NonOverlapping(H, actions) && FirstAttempt(Run(H, actions), Carrying(Advance(Plain), WriteCompleted))
    ensures Identity(Researcher, 0) in Run(H, actions).sh.outcomes
  {
    var id := Identity(Researcher, 0);
    assert IsUnstarted(Run(H, []), id);
    actions := StageBegins(H, [], id, NoChoice());
    assert FirstAttempt(Run(H, actions), Working(Begin));
    assert id in Run(H, actions).sh.leases && Run(H, actions).sh.leases[id] == 0;
    hide Run, NonOverlapping, EntryStepOf, CarryingStep, HashStep, BuildStep;
    actions := ActsNext(H, actions, 0);
    assert FirstAttempt(Run(H, actions), Save(Advance(Plain)));
    actions := ActsNext(H, actions, 0);
  }

  /** The first attempt crashes right after its commit, before it has written the completion marker. */
  lemma CrashAfterCommitLosesTheMarker(H: HashFunction) returns (actions: seq<Action>)
    ensures NonOverlapping(H, actions) && MarkerIsLost(Run(H, actions)) && IsBlocked(Run(H, actions))
  {
    actions := FirstAttemptCommits(H);
    hide Run, NonOverlapping, ProcessStep;
    NonOverlappingExtends(H, actions, Crash(0));
    actions := actions + [Crash(0)];
  }

  /** From any run that waits for its plan, a confirmation wins the gate and crashes before it queues Planner. */
  lemma CrashAfterWinningSticksTheGate(H: HashFunction, actions: seq<Action>) returns (all: seq<Action>)
    requires NonOverlapping(H, actions) && PLANNER_JOB !in Run(H, actions).sh.jobs
    requires ResearchKey(Run(H, actions).sh.revision) in Run(H, actions).sh.completed && !Run(H, actions).sh.planGate
    ensures actions <= all && NonOverlapping(H, all)
    ensures GateIsStuck(Run(H, all)) && !MarkerIsLost(Run(H, all)) && IsBlocked(Run(H, all))
  {
    hide Run, NonOverlapping, Reaches;
    var s := Run(H, actions);
    var n, c := s.next, NoChoice();
    BeforePlanner(H, actions);
    ReachableRequests(H, actions);
    assert forall m :: m in s.procs ==> !HoldsGate(s.procs[m]);
    hide RequestsInv;
    NonOverlappingExtends(H, actions, RequestConfirm);
    all := actions + [RequestConfirm];
    WinsAlone(H, s, c);
    all := Proceeds(H, all, n, c, StepResult(s.sh.(planGate := true), s.log.(planConfirmed := true), Confirming(QueuePlanner)));
    NonOverlappingExtends(H, all, Crash(n));
    all := all + [Crash(n)];
  }
}
