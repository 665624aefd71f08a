/** What each kind of action can change at all: every field that is not named stays as it was. */
module PipelineFrames {
  import opened Stages
  import opened PipelineState
  import opened PipelineMachine

  /** The same attempt, further on. */
  predicate SameAttempt(p: Process, q: Process)
    requires p.Worker?
  {
    q.Worker? && q.id == p.id && q.leaseLost == p.leaseLost && q.stale == p.stale
  }

  /** Working on a stage writes artifacts and the build intent, and ends in an outcome to save or in a throw. */
  predicate WorkFrame(sh: Shared, log: History, p: Process, r: StepResult)
    requires p.Worker?
  {
    && r.sh == sh.(triple := r.sh.triple, confirmed := r.sh.confirmed, gate := r.sh.gate, proof := r.sh.proof,
                   buildResult := r.sh.buildResult, builderIntent := r.sh.builderIntent)
    && r.log == log.(builderOwner := r.log.builderOwner, builderRuns := r.log.builderRuns, proofs := r.log.proofs)
    && SameAttempt(p, r.proc) && (r.proc.pc.Working? || r.proc.pc.Save? || r.proc.pc.Abandon?)
  }

  lemma CheckBeginIsFramed(H: HashFunction, sh: Shared, log: History, n: nat, p: Process, c: Choice)
    requires p.Worker? && p.id.stage in {TripleValidation, Confirmation, CreateHash}
    ensures WorkFrame(sh, log, p, BeginStep(H, sh, log, n, p, c))
  {
  }

  lemma FinalBeginIsFramed(H: HashFunction, sh: Shared, log: History, n: nat, p: Process, c: Choice)
    requires p.Worker? && p.id.stage in {Build, Finalize}
    ensures WorkFrame(sh, log, p, BeginStep(H, sh, log, n, p, c))
  {
  }

  lemma BeginIsFramed(H: HashFunction, sh: Shared, log: History, n: nat, p: Process, c: Choice)
    requires p.Worker?
    ensures WorkFrame(sh, log, p, BeginStep(H, sh, log, n, p, c))
  {
    if p.id.stage in {TripleValidation, Confirmation, CreateHash} {
      hide BeginStep, WorkFrame;
      CheckBeginIsFramed(H, sh, log, n, p, c);
    } else if p.id.stage in {Build, Finalize} {
      hide BeginStep, WorkFrame;
      FinalBeginIsFramed(H, sh, log, n, p, c);
    } else {
      assert BeginStep(H, sh, log, n, p, c) == StepResult(sh, log, At(p, Save(Advance(Plain))));
    }
  }

  lemma HashIsFramed(sh: Shared, log: History, p: Process, work: HashWork)
    requires p.Worker?
    ensures WorkFrame(sh, log, p, HashStep(sh, log, p, work))
  {
  }

  lemma BuildIsFramed(H: HashFunction, sh: Shared, log: History, p: Process, work: BuildWork, c: Choice)
    requires p.Worker?
    ensures WorkFrame(sh, log, p, BuildStep(H, sh, log, p, work, c))
  {
  }

  lemma WorkIsFramed(H: HashFunction, sh: Shared, log: History, n: nat, p: Process, c: Choice)
    requires p.Worker? && p.pc.Working?
    ensures WorkFrame(sh, log, p, WorkStep(H, sh, log, n, p, c))
  {
    hide BeginStep, HashStep, BuildStep;
    match p.pc.work
    case Begin => BeginIsFramed(H, sh, log, n, p, c);
    case Hashing(hash) => HashIsFramed(sh, log, p, hash);
    case Building(build) => BuildIsFramed(H, sh, log, p, build, c);
    case _ =>
  }

  /** Finishing the run writes the terminal keys, the snapshot and the Done event. */
  predicate FinishFrame(sh: Shared, log: History, p: Process, r: StepResult)
    requires p.Worker?
  {
    && r.sh == sh.(terminalState := r.sh.terminalState, terminalIssue := r.sh.terminalIssue,
                   snapshot := r.sh.snapshot, doneEvents := r.sh.doneEvents)
    && r.log == log.(finishes := r.log.finishes, passedBy := r.log.passedBy)
    && SameAttempt(p, r.proc) && r.proc.pc.Carrying? && (r.proc.pc.carry.Finishing? || r.proc.pc.carry.WriteCommitted?)
  }

  lemma FinishingIsFramed(sh: Shared, log: History, p: Process, o: Outcome, step: FinishStep)
    requires p.Worker?
    ensures FinishFrame(sh, log, p, FinishingStep(sh, log, p, o, step))
  {
  }

  /** Carrying a transition writes its own markers, its intent and its job, and may release the lease. */
  predicate CarryFrame(sh: Shared, log: History, p: Process, r: StepResult)
    requires p.Worker?
  {
    && r.sh == sh.(completed := r.sh.completed, leases := r.sh.leases, marks := r.sh.marks, jobs := r.sh.jobs,
                   finalization := r.sh.finalization)
    && r.log == log
    && SameAttempt(p, r.proc) && (r.proc.pc.Carrying? || r.proc.pc.Ended?)
    && (r.proc.pc.Carrying? ==> !r.proc.pc.carry.WriteCompleted?)
    && (r.proc.pc.Carrying? && r.proc.pc.carry.Finishing? ==> r.proc.pc.carry.finish.ReadState?)
  }

  lemma CarryingIsFramed(sh: Shared, log: History, n: nat, p: Process, o: Outcome, step: CarryStep)
    requires p.Worker? && !step.Finishing?
    ensures CarryFrame(sh, log, p, CarryingStep(sh, log, n, p, o, step))
    ensures CarryWrites(sh, p, step, CarryingStep(sh, log, n, p, o, step).sh)
  {
    hide Resolve, FinishingStep;
    var r := CarryingStep(sh, log, n, p, o, step);
    assert CarryFrame(sh, log, p, r) by {
      hide CarryWrites;
    }
    hide CarryFrame;
  }

  /** Which step writes the completion marker, the lease and the job. */
  predicate CarryWrites(sh: Shared, p: Process, step: CarryStep, sh': Shared)
    requires p.Worker?
  {
    && sh'.completed == (if step.WriteCompleted? then MarkCompleted(sh, p.id).completed else sh.completed)
    && (!step.Release? ==> sh'.leases == sh.leases)
    && (!step.AddJob? ==> sh'.jobs == sh.jobs)
  }

  lemma CarryingFinishes(sh: Shared, log: History, n: nat, p: Process, o: Outcome, step: FinishStep)
    requires p.Worker?
    ensures CarryingStep(sh, log, n, p, o, Finishing(step)) == FinishingStep(sh, log, p, o, step)
  {
  }

  lemma EntryIsFramed(sh: Shared, log: History, n: nat, p: Process, entry: EntryStep)
    requires p.Worker?
    ensures var r := EntryStepOf(sh, log, n, p, entry);
            && r.sh == sh.(leases := r.sh.leases) && r.log == log
            && r.proc.Worker? && r.proc.id == p.id && r.proc.leaseLost == p.leaseLost
            && (r.proc.pc.Carrying? ==> r.proc.pc.carry.ReadMark?) && !r.proc.pc.Save?
            && (!entry.Acquire? ==> r.sh == sh && r.proc.stale == p.stale && !r.proc.pc.Working?)
  {
  }

  /** Confirming a plan writes the gate and the Planner job. */
  predicate ConfirmFrame(sh: Shared, r: StepResult) {
    r.sh == sh.(planGate := r.sh.planGate, jobs := r.sh.jobs) && r.proc.Confirming?
  }

  lemma GateIsFramed(sh: Shared, log: History, p: Process, c: Choice)
    requires p.Confirming? && (p.cstep.WinGate? || p.cstep.QueuePlanner?)
    ensures ConfirmFrame(sh, ConfirmingStep(sh, log, p, c))
  {
  }

  lemma ConfirmingIsFramed(sh: Shared, log: History, p: Process, c: Choice)
    requires p.Confirming?
    ensures ConfirmFrame(sh, ConfirmingStep(sh, log, p, c))
  {
    if p.cstep.WinGate? || p.cstep.QueuePlanner? {
      hide ConfirmingStep, ConfirmFrame;
      GateIsFramed(sh, log, p, c);
    }
  }

  /** Approving a build writes the approval and the Build job. */
  predicate ApproveFrame(sh: Shared, r: StepResult) {
    r.sh == sh.(approval := r.sh.approval, jobs := r.sh.jobs) && r.proc.Approving?
  }

  lemma ApprovalIsFramed(sh: Shared, log: History, p: Process)
    requires p.Approving? && (p.astep.WriteApproval? || p.astep.QueueBuild?)
    ensures ApproveFrame(sh, ApprovingStep(sh, log, p))
  {
  }

  lemma ApprovingIsFramed(sh: Shared, log: History, p: Process)
    requires p.Approving?
    ensures ApproveFrame(sh, ApprovingStep(sh, log, p))
  {
    if p.astep.WriteApproval? || p.astep.QueueBuild? {
      hide ApprovingStep, ApproveFrame;
      ApprovalIsFramed(sh, log, p);
    }
  }

  /** A human request touches only the plan gate, the approval and the queue. */
  lemma HumanIsFramed(H: HashFunction, sh: Shared, log: History, n: nat, p: Process, c: Choice)
    requires !p.Worker?
    ensures var r := ProcessStep(H, sh, log, n, p, c);
            && r.sh == sh.(planGate := r.sh.planGate, approval := r.sh.approval, jobs := r.sh.jobs)
            && !r.proc.Worker? && (p.Confirming? <==> r.proc.Confirming?)
  {
    hide WorkerStep, ConfirmingStep, ApprovingStep;
    if p.Confirming? {
      ConfirmingIsFramed(sh, log, p, c);
    } else {
      ApprovingIsFramed(sh, log, p);
    }
  }
}
