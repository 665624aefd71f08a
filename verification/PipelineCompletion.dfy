/** Every run whose plan is queued can still finish; together with what blocks a run, exactly which runs can. */
module PipelineCompletion {
  import opened Wrappers
  import opened Stages
  import opened PipelineState
  import opened PipelineMachine
  import opened PipelineSafety
  import opened PipelineRequests
  import opened PipelineRecovery
  import opened PipelineServices
  import opened PipelineProgress
  import opened PipelineEvidence
  import opened PipelineOrder
  import opened PipelineBlocking

  const LAST_STAGE: Identity := Identity(Finalize, 0)

  // ---- A queued stage can be brought to an outcome ----

  /** What the stage will read is there, and a build has taken its once-only intent. */
  predicate HasInputs(sh: Shared, id: Identity) {
    && (id.stage == Confirmation ==> HasValidTriple(sh))
    && (id.stage == CreateHash ==> sh.confirmed.Some?)
    && (id.stage == Build ==> sh.builderIntent)
    && (id.stage == Finalize ==> sh.finalization.Some? || (sh.proof.Some? && sh.buildResult.Some?))
  }

  lemma SomeWorkEndsInOutcome(H: HashFunction, s: System, id: Identity)
    returns (sh: Shared, log: History, o: Outcome)
    requires InPipeline(id) && id !in s.sh.marks && HasInputs(s.sh, id)
    ensures Works(H, s, id, Mismatch(), sh, log, o)
  {
    hide Works, Begun;
    var c := Mismatch();
    sh, log, o := Begun(s, id).sh, s.log, Advance(Plain);
    match id.stage
    case TripleValidation =>
      ValidatesAlone(H, s, id, c);
      sh := sh.(triple := Some(c.triple));
    case Confirmation =>
      PackagesAlone(H, s, id, c, s.sh.triple.value);
      sh := sh.(confirmed := Some(Package(c.content, s.sh.triple.value)));
    case CreateHash =>
      HashFailsAlone(H, s, id, c, s.sh.confirmed.value);
      var proof := Proof(H(s.sh.confirmed.value), false);
      sh, log, o := sh.(proof := Some(proof)), log.(proofs := log.proofs + {proof}), Terminal(HASH_MISMATCH);
    case Build => o := RecoversAlone(H, s, id, c);
    case Finalize =>
      if s.sh.finalization.Some? {
        IntentFailsAlone(H, s, c, s.sh.finalization.value);
        o := Terminal(s.sh.finalization.value);
      } else {
        o := ComparesAlone(H, s, id, c);
      }
    case _ => AdvancesAlone(H, s, id, c);
  }

  /** Without overlap a queued stage always finds its inputs, but for the intent of a build. */
  lemma InputsAreThere(H: HashFunction, actions: seq<Action>, id: Identity)
    requires NonOverlapping(H, actions) && id in Run(H, actions).sh.jobs && InPipeline(id)
    requires id.stage == Build ==> Run(H, actions).sh.builderIntent
    ensures HasInputs(Run(H, actions).sh, id)
  {
    hide Run, NonOverlapInv;
    StagesFindTheirInputs(H, actions);
    if id.stage == Confirmation {
      ConfirmationFindsValidTriple(H, actions);
    } else if id.stage == CreateHash {
      NonOverlappingInv(H, actions);
      PartsOfInv(H, Run(H, actions));
      HashWaitsForConfirmation(Run(H, actions).sh, Run(H, actions).log);
    }
  }

  lemma PartsOfInv(H: HashFunction, s: System)
    requires NonOverlapInv(H, s)
    ensures RedisInv(s.sh, s.log) && RecoveryInv(H, s.sh, s.log)
  {
  }

  /** A build that has not taken its intent takes it and dies; what follows can only replay. */
  lemma IntentGetsTaken(H: HashFunction, actions: seq<Action>, id: Identity) returns (all: seq<Action>)
    requires NonOverlapping(H, actions) && id.stage == Build && IsUnstarted(Run(H, actions), id)
    ensures actions <= all && NonOverlapping(H, all)
    ensures var sh, sh' := Run(H, actions).sh, Run(H, all).sh;
            sh'.builderIntent && sh'.jobs == sh.jobs && sh'.outcomes == sh.outcomes
  {
    hide Run, NonOverlapping, IsUnstarted, HashStep, BuildStep, EntryStepOf, CarryingStep;
    var n := Run(H, actions).next;
    all := StageBegins(H, actions, id, Mismatch());
    all := ActsNext(H, all, n);
  }

  lemma StageIsUnstarted(H: HashFunction, actions: seq<Action>, id: Identity) returns (all: seq<Action>)
    requires NonOverlapping(H, actions) && id in Run(H, actions).sh.jobs && id !in Run(H, actions).sh.outcomes
    ensures actions <= all && NonOverlapping(H, all) && IsUnstarted(Run(H, all), id)
    ensures var sh := Run(H, actions).sh; Run(H, all).sh == sh.(leases := sh.leases - {id})
  {
    hide Run, NonOverlapping, IsUnstarted, NoneLive;
    all := AttemptsEnd(H, actions, id);
    UnstartedOnceEnded(H, all, id);
  }

  /** From any run, whatever happened to its attempts, a queued pipeline stage can get its outcome. */
  lemma StageGetsOutcome(H: HashFunction, actions: seq<Action>, id: Identity) returns (all: seq<Action>)
    requires NonOverlapping(H, actions) && id in Run(H, actions).sh.jobs && InPipeline(id)
    ensures actions <= all && NonOverlapping(H, all) && id in Run(H, all).sh.outcomes
  {
    hide Run, NonOverlapping, IsUnstarted, Works, HasInputs;
    all := actions;
    if id !in Run(H, actions).sh.outcomes {
      if id.stage == Build && !Run(H, actions).sh.builderIntent {
        all := StageIsUnstarted(H, all, id);
        all := IntentGetsTaken(H, all, id);
      }
      all := StageIsUnstarted(H, all, id);
      InputsAreThere(H, all, id);
      UnstartedHasNoMark(Run(H, all), id);
      var sh, log, o := SomeWorkEndsInOutcome(H, Run(H, all), id);
      all := OutcomeGetsRecorded(H, all, id, Mismatch(), sh, log, o);
    }
  }

  lemma UnstartedHasNoMark(s: System, id: Identity)
    requires IsUnstarted(s, id)
    ensures id !in s.sh.marks
  {
  }

  // ---- A recorded outcome can be made to take effect ----

  function Marked(sh: Shared, id: Identity): Shared {
    if id in sh.marks then sh else SetMark(sh, id, Pending)
  }

  /** A retry of a stage with an outcome and no committed transition goes straight to the effect. */
  lemma RetriesAlone(H: HashFunction, sh: Shared, log: History, n: nat, c: Choice, id: Identity, o: Outcome)
    requires id in sh.executed && id in sh.outcomes && sh.outcomes[id] == o
    requires id in sh.marks ==> sh.marks[id] == Pending
    ensures Reaches(H, StepResult(sh, log, W(id, Entering(ReadExecuted))), n, c,
                    StepResult(Marked(sh, id), log, W(id, Carrying(o, ApplyEffect))))
  {
    hide Reaches, Resolve;
    var r0 := StepResult(sh, log, W(id, Entering(ReadExecuted)));
    ReachesSelf(H, r0, n, c);
    ReachesOne(H, r0, n, c, r0);
    ReachesOne(H, r0, n, c, StepResult(sh, log, W(id, Entering(LoadOutcome))));
    ReachesOne(H, r0, n, c, StepResult(sh, log, W(id, Carrying(o, ReadMark))));
    if id !in sh.marks {
      ReachesOne(H, r0, n, c, StepResult(sh, log, W(id, Carrying(o, WritePending))));
    }
  }

  /** From agreeing on an issue to the finishing write. */
  lemma WritesAlone(H: HashFunction, sh: Shared, log: History, n: nat, c: Choice, o: Outcome, issue: Option<Issue>)
    returns (r: StepResult)
    requires sh.snapshot.Running?
    ensures Reaches(H, StepResult(sh, log, W(LAST_STAGE, Carrying(o, Finishing(ReadSnapshot(issue))))), n, c, r)
    ensures r.sh.snapshot.Finished? && r.sh.outcomes == sh.outcomes && r.sh.jobs == sh.jobs
  {
    hide Reaches, Resolve;
    var r0 := StepResult(sh, log, W(LAST_STAGE, Carrying(o, Finishing(ReadSnapshot(issue)))));
    ReachesSelf(H, r0, n, c);
    ReachesOne(H, r0, n, c, r0);
    var r1 := StepResult(sh, log, W(LAST_STAGE, Carrying(o, Finishing(WriteSnapshot(issue, true)))));
    ReachesOne(H, r0, n, c, r1);
    r := One(H, r1, n, c);
  }

  /** Finalize's transition ends in the finishing write, whatever an earlier finisher left behind. */
  lemma FinishesAlone(H: HashFunction, sh: Shared, log: History, n: nat, c: Choice, o: Outcome) returns (r: StepResult)
    requires sh.snapshot.Running? && sh.terminalState != Some(Committed)
    ensures Reaches(H, StepResult(sh, log, W(LAST_STAGE, Carrying(o, ApplyEffect))), n, c, r)
    ensures r.sh.snapshot.Finished? && r.sh.outcomes == sh.outcomes && r.sh.jobs == sh.jobs
  {
    hide Reaches;
    var r0 := StepResult(sh, log, W(LAST_STAGE, Carrying(o, ApplyEffect)));
    ReachesSelf(H, r0, n, c);
    ReachesOne(H, r0, n, c, r0);
    ReachesOne(H, r0, n, c, StepResult(sh, log, W(LAST_STAGE, Carrying(o, Finishing(ReadState)))));
    var agreed: StepResult;
    if sh.terminalState.None? {
      var won := sh.(terminalState := Some(Pending));
      var saved := won.(terminalIssue := Some(DoneIssue(o)));
      ReachesOne(H, r0, n, c, StepResult(sh, log, W(LAST_STAGE, Carrying(o, Finishing(MarkPending)))));
      ReachesOne(H, r0, n, c, StepResult(won, log, W(LAST_STAGE, Carrying(o, Finishing(SaveIssue)))));
      agreed := StepResult(saved, log, W(LAST_STAGE, Carrying(o, Finishing(ReadSnapshot(DoneIssue(o))))));
      r := WritesAlone(H, saved, log, n, c, o, DoneIssue(o));
    } else {
      ReachesOne(H, r0, n, c, StepResult(sh, log, W(LAST_STAGE, Carrying(o, Finishing(ReadIssue)))));
      agreed := StepResult(sh, log, W(LAST_STAGE, Carrying(o, Finishing(ReadSnapshot(RecordedIssue(sh))))));
      r := WritesAlone(H, sh, log, n, c, o, RecordedIssue(sh));
    }
    ReachesTransitive(H, r0, n, c, agreed, r);
  }

  /** The next job is queued, or the run is finished. */
  predicate HasTakenEffect(sh: Shared, id: Identity, o: Outcome) {
    match Resolve(id.stage, o, id.iteration)
    case Next(stage, iteration, _) => Identity(stage, iteration) in sh.jobs
    case Done(_, _) => sh.snapshot.Finished?
    case _ => true
  }

  lemma OutcomeTakesEffect(H: HashFunction, actions: seq<Action>, id: Identity) returns (all: seq<Action>)
    requires NonOverlapping(H, actions) && id in Run(H, actions).sh.outcomes && InPipeline(id)
    ensures actions <= all && NonOverlapping(H, all)
    ensures var sh, sh' := Run(H, actions).sh, Run(H, all).sh;
            && id in sh'.outcomes && sh'.outcomes[id] == sh.outcomes[id] && sh.jobs <= sh'.jobs
            && HasTakenEffect(sh', id, sh.outcomes[id])
  {
    hide Run, NonOverlapping;
    var sh := Run(H, actions).sh;
    NonOverlappingInv(H, actions);
    PartsOfInv(H, Run(H, actions));
    hide NonOverlapInv;
    if (id in sh.marks && sh.marks[id] == Committed) || HasTakenEffect(sh, id, sh.outcomes[id]) {
      all := actions;
    } else {
      hide RecoveryInv, RedisInv, HasTakenEffect;
      all := AttemptsEnd(H, actions, id);
      all := RetryTakesEffect(H, all, id);
    }
  }

  lemma OnlyFinalizeIsDone(id: Identity, o: Outcome)
    requires InPipeline(id) && Resolve(id.stage, o, id.iteration).Done?
    ensures id == LAST_STAGE
  {
  }

  lemma RetryTakesEffect(H: HashFunction, actions: seq<Action>, id: Identity) returns (all: seq<Action>)
    requires NonOverlapping(H, actions) && NoneLive(Run(H, actions), id) && InPipeline(id)
    requires var sh := Run(H, actions).sh;
             id in sh.outcomes && (id in sh.marks ==> sh.marks[id] == Pending) && !HasTakenEffect(sh, id, sh.outcomes[id])
    ensures actions <= all && NonOverlapping(H, all)
    ensures var sh, sh' := Run(H, actions).sh, Run(H, all).sh;
            && sh'.outcomes == sh.outcomes && sh.jobs <= sh'.jobs
            && HasTakenEffect(sh', id, sh.outcomes[id])
  {
    hide Run, NonOverlapping, Reaches, ProcessStep, NoneLive;
    var s, c := Run(H, actions), Mismatch();
    var o := s.sh.outcomes[id];
    NonOverlappingInv(H, actions);
    PartsOfInv(H, s);
    PinningKeepsPipelineJobs(id);
    NonOverlappingExtends(H, actions, Deliver(id));
    all := actions + [Deliver(id)];
    RetriesAlone(H, s.sh, s.log, s.next, c, id, o);
    var r0 := StepResult(s.sh, s.log, W(id, Entering(ReadExecuted)));
    var pending := StepResult(Marked(s.sh, id), s.log, W(id, Carrying(o, ApplyEffect)));
    var r: StepResult;
    if Resolve(id.stage, o, id.iteration).Done? {
      OnlyFinalizeIsDone(id, o);
      r := FinishesAlone(H, pending.sh, s.log, s.next, c, o);
    } else {
      AppliesAlone(H, pending.sh, s.log, s.next, c, id, o);
      r := StepResult(SetMark(Effected(pending.sh, Resolve(id.stage, o, id.iteration)), id, Committed), s.log, W(id, Ended));
    }
    ReachesTransitive(H, r0, s.next, c, pending, r);
    all := Proceeds(H, all, s.next, c, r);
  }

  // ---- The build's approval ----

  lemma ApprovesAlone(H: HashFunction, sh: Shared, log: History, n: nat, c: Choice, gate: Gate) returns (r: StepResult)
    requires sh.gate == Some(gate) && sh.confirmed == Some(gate.pkg)
    ensures Reaches(H, StepResult(sh, log, Approving(gate.hash, ReadRecord)), n, c, r)
    ensures r.sh == sh.(approval := r.sh.approval, jobs := sh.jobs + {Identity(Build, 0)})
    ensures r.sh.approval == (if sh.approval.Some? then sh.approval else Some(gate.hash))
    ensures r.proc == Approving(gate.hash, Approved)
  {
    hide Reaches;
    var r0 := StepResult(sh, log, Approving(gate.hash, ReadRecord));
    var approved := sh.(approval := CreateOnce(sh.approval, gate.hash));
    ReachesSelf(H, r0, n, c);
    ReachesOne(H, r0, n, c, r0);
    ReachesOne(H, r0, n, c, StepResult(sh, log, Approving(gate.hash, ReadConfirmed(gate))));
    ReachesOne(H, r0, n, c, StepResult(sh, log, Approving(gate.hash, WriteApproval)));
    var r3 := StepResult(approved, log, Approving(gate.hash, QueueBuild));
    ReachesOne(H, r0, n, c, r3);
    r := One(H, r3, n, c);
  }

  /** Once the hash stage advanced, approving the recorded hash queues Build. */
  lemma ApprovalQueuesBuild(H: HashFunction, actions: seq<Action>) returns (all: seq<Action>)
    requires NonOverlapping(H, actions) && Run(H, actions).sh.snapshot.Running?
    requires var sh := Run(H, actions).sh;
             Identity(CreateHash, 0) in sh.outcomes && sh.outcomes[Identity(CreateHash, 0)].Advance?
    ensures actions <= all && NonOverlapping(H, all) && Identity(Build, 0) in Run(H, all).sh.jobs
  {
    hide Run, NonOverlapping, Reaches, ProcessStep;
    var s := Run(H, actions);
    StagesFindTheirInputs(H, actions);
    NonOverlappingInv(H, actions);
    PartsOfInv(H, s);
    hide NonOverlapInv;
    var gate := s.sh.gate.value;
    NonOverlappingExtends(H, actions, RequestApprove(gate.hash));
    all := actions + [RequestApprove(gate.hash)];
    var r := ApprovesAlone(H, s.sh, s.log, s.next, Mismatch(), gate);
    all := Proceeds(H, all, s.next, Mismatch(), r);
  }

  // ---- To the end ----

  /** One stage further down, or finished: the measure of the lowest stage falls with every such stretch. */
  lemma Descends(H: HashFunction, actions: seq<Action>, id: Identity) returns (all: seq<Action>, next: Identity)
    requires NonOverlapping(H, actions) && id in Run(H, actions).sh.jobs && InPipeline(id)
    requires Run(H, actions).sh.snapshot.Running?
    ensures actions <= all && NonOverlapping(H, all)
    ensures || Run(H, all).sh.snapshot.Finished?
            || (next in Run(H, all).sh.jobs && InPipeline(next) && ExecutionsLeft(next) < ExecutionsLeft(id))
  {
    hide Run, NonOverlapping, ExecutionsLeft, Resolve;
    next := id;
    all := StageGetsOutcome(H, actions, id);
    all := OutcomeTakesEffect(H, all, id);
    if Run(H, all).sh.snapshot.Running? {
      var o := Run(H, all).sh.outcomes[id];
      OutcomeIsWorkers(H, all, id);
      SuccessorDecreases(id, o);
      next := Successor(id, o).value;
      if Resolve(id.stage, o, id.iteration).WaitBuild? {
        OnlyHashWaitsForBuild(id, o);
        all := ApprovalQueuesBuild(H, all);
      }
    }
  }

  lemma OutcomeIsWorkers(H: HashFunction, actions: seq<Action>, id: Identity)
    requires id in Run(H, actions).sh.outcomes
    ensures WorkerOutcome(id.stage, Run(H, actions).sh.outcomes[id])
  {
    hide Run;
    ReachableInv(H, actions);
    assert SoundOutcome(Run(H, actions).sh, Run(H, actions).log, id, Run(H, actions).sh.outcomes[id]);
  }

  lemma OnlyHashWaitsForBuild(id: Identity, o: Outcome)
    requires InPipeline(id) && WorkerOutcome(id.stage, o) && Resolve(id.stage, o, id.iteration).WaitBuild?
    ensures id == Identity(CreateHash, 0) && o.Advance?
  {
  }

  lemma {:induction false} FinishesFrom(H: HashFunction, actions: seq<Action>, id: Identity) returns (all: seq<Action>)
    requires NonOverlapping(H, actions) && id in Run(H, actions).sh.jobs && InPipeline(id)
    ensures actions <= all && NonOverlapping(H, all) && Run(H, all).sh.snapshot.Finished?
    decreases ExecutionsLeft(id)
  {
    hide Run, NonOverlapping;
    all := actions;
    if Run(H, actions).sh.snapshot.Running? {
      var next: Identity;
      all, next := Descends(H, actions, id);
      if Run(H, all).sh.snapshot.Running? {
        all := FinishesFrom(H, all, next);
      }
    }
  }

  /**
   * Nothing is ever stuck once the plan is queued: from any run without overlap, whatever crashed, threw or expired
   * in it and at whatever stage, some continuation without overlap finishes the run.
   */
  lemma {:induction false} PlannedRunCanFinish(H: HashFunction, actions: seq<Action>) returns (all: seq<Action>)
    requires NonOverlapping(H, actions) && PLANNER_JOB in Run(H, actions).sh.jobs
    ensures actions <= all && NonOverlapping(H, all) && Run(H, all).sh.snapshot.Finished?
  {
    hide Run, NonOverlapping;
    all := FinishesFrom(H, actions, PLANNER_JOB);
  }

  /** The run is finished in some non-overlapping continuation. */
  ghost predicate CanFinish(H: HashFunction, actions: seq<Action>) {
    exists more :: NonOverlapping(H, actions + more) && Run(H, actions + more).sh.snapshot.Finished?
  }

  lemma CanFinishBy(H: HashFunction, actions: seq<Action>, all: seq<Action>)
    requires actions <= all && NonOverlapping(H, all) && Run(H, all).sh.snapshot.Finished?
    ensures CanFinish(H, actions)
  {
    assert actions + all[|actions|..] == all;
  }

  /** The exact condition, for every run without overlap: it can still finish if and only if it is not blocked. */
  lemma {:induction false} RunCanFinishIff(H: HashFunction, actions: seq<Action>)
    requires NonOverlapping(H, actions)
    ensures CanFinish(H, actions) <==> !IsBlocked(Run(H, actions))
  {
    hide Run, NonOverlapping, IsBlocked;
    if IsBlocked(Run(H, actions)) {
      forall more | NonOverlapping(H, actions + more) ensures Run(H, actions + more).sh.snapshot.Running? {
        BlockedRunStaysBlocked(H, actions, more);
      }
    } else {
      var all := UnblockedRunGoesOn(H, actions);
      all := PlannedRunCanFinish(H, all);
      CanFinishBy(H, actions, all);
    }
  }
}
