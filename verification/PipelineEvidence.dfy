/** The artifacts that a recorded outcome or a queued job implies, over every run: what later stages will find. */
module PipelineEvidence {
  import opened Wrappers
  import opened Stages
  import opened PipelineState
  import opened PipelineMachine
  import opened PipelineSafety

  /** A recorded outcome left its artifact, and Finalize is queued only with an intent or a build result. */
  ghost predicate EvidenceInv(sh: Shared, log: History) {
    && (forall id :: id in sh.outcomes && id.stage == Confirmation ==> sh.confirmed.Some?)
    && (forall id :: id in sh.outcomes && id.stage == CreateHash && sh.outcomes[id].Advance? ==> sh.gate.Some?)
    && (forall id :: id in sh.jobs && id.stage == Finalize ==> sh.finalization.Some? || sh.buildResult.Some?)
    && (log.builderRuns != [] ==> sh.proof.Some?)
  }

  /** The attempt is past loading the hash proof on its way to the Builder. */
  predicate HasProof(work: BuildWork) {
    work.ReadGate? || work.ReadApproval? || work.ReadGateAgain? || work.RunBuilder?
  }

  predicate Requests(p: Process)
    requires p.Worker? && p.pc.Carrying?
  {
    Resolve(p.id.stage, p.pc.outcome, p.id.iteration).Next? &&
    Resolve(p.id.stage, p.pc.outcome, p.id.iteration).finalization.Some?
  }

  predicate AttemptEvidence(sh: Shared, p: Process) {
    p.Worker? ==>
      && (p.pc.Working? && p.pc.work.Building? && HasProof(p.pc.work.build) ==> sh.proof.Some?)
      && (p.pc.Save? && p.id.stage == Confirmation ==> sh.confirmed.Some?)
      && (p.pc.Save? && p.id.stage == CreateHash && p.pc.result.Advance? ==> sh.gate.Some?)
      && (p.pc.Carrying? && p.pc.carry.AddJob? && Requests(p) ==> sh.finalization.Some?)
  }

  predicate EvidenceStays(sh: Shared, sh': Shared) {
    && (sh.confirmed.Some? ==> sh'.confirmed.Some?)
    && (sh.gate.Some? ==> sh'.gate.Some?)
    && (sh.proof.Some? ==> sh'.proof.Some?)
    && (sh.finalization.Some? ==> sh'.finalization.Some?)
    && (sh.buildResult.Some? ==> sh'.buildResult.Some?)
  }

  ghost predicate KeepsEvidence(sh: Shared, r: StepResult) {
    EvidenceStays(sh, r.sh) && EvidenceInv(r.sh, r.log) && AttemptEvidence(r.sh, r.proc)
  }

  /** Nothing the evidence speaks about is taken away or newly owed. */
  ghost predicate OwesNoMore(sh: Shared, log: History, sh': Shared, log': History) {
    && EvidenceStays(sh, sh') && sh'.outcomes == sh.outcomes && log'.builderRuns == log.builderRuns
    && (forall id :: id in sh'.jobs && id.stage == Finalize ==> id in sh.jobs)
  }

  lemma NothingIsOwed(sh: Shared, log: History, r: StepResult)
    requires EvidenceInv(sh, log) && OwesNoMore(sh, log, r.sh, r.log) && AttemptEvidence(r.sh, r.proc)
    ensures KeepsEvidence(sh, r)
  {
  }

  lemma BeginKeepsEvidence(H: HashFunction, sh: Shared, log: History, n: nat, p: Process, c: Choice)
    requires p.Worker? && EvidenceInv(sh, log) && BuilderInv(sh, log)
    ensures KeepsEvidence(sh, BeginStep(H, sh, log, n, p, c))
  {
    hide EvidenceInv, KeepsEvidence;
    var r := BeginStep(H, sh, log, n, p, c);
    match p.id.stage
    case TripleValidation => NothingIsOwed(sh, log, r);
    case Confirmation => NothingIsOwed(sh, log, r);
    case CreateHash => NothingIsOwed(sh, log, r);
    case Build => NothingIsOwed(sh, log, r);
    case Finalize => NothingIsOwed(sh, log, r);
    case _ => NothingIsOwed(sh, log, r);
  }

  lemma EqualProofHasGate(H: HashFunction, sh: Shared, log: History)
    requires GateInv(H, sh, log) && ProofInv(sh, log)
    ensures sh.proof.Some? && sh.proof.value.equal ==> sh.gate.Some?
  {
  }

  lemma HashOwesNoMore(sh: Shared, log: History, p: Process, work: HashWork)
    requires p.Worker?
    ensures var r := HashStep(sh, log, p, work); OwesNoMore(sh, log, r.sh, r.log)
  {
  }

  lemma HashLeavesGate(sh: Shared, log: History, p: Process, work: HashWork)
    requires p.Worker? && p.id.stage == CreateHash
    requires sh.proof.Some? && sh.proof.value.equal ==> sh.gate.Some?
    ensures var r := HashStep(sh, log, p, work); AttemptEvidence(r.sh, r.proc)
  {
  }

  lemma HashKeepsEvidence(H: HashFunction, sh: Shared, log: History, p: Process, work: HashWork)
    requires p.Worker? && EvidenceInv(sh, log) && GateInv(H, sh, log) && ProofInv(sh, log)
    requires p.id.stage == CreateHash
    ensures KeepsEvidence(sh, HashStep(sh, log, p, work))
  {
    EqualProofHasGate(H, sh, log);
    hide *;
    HashOwesNoMore(sh, log, p, work);
    HashLeavesGate(sh, log, p, work);
    NothingIsOwed(sh, log, HashStep(sh, log, p, work));
  }

  lemma BuildKeepsEvidence(H: HashFunction, sh: Shared, log: History, p: Process, work: BuildWork, c: Choice)
    requires p.Worker? && p.pc == Working(Building(work)) && EvidenceInv(sh, log) && AttemptEvidence(sh, p)
    requires p.id.stage == Build
    ensures KeepsEvidence(sh, BuildStep(H, sh, log, p, work, c))
  {
  }

  lemma WorkKeepsEvidence(H: HashFunction, sh: Shared, log: History, n: nat, p: Process, c: Choice)
    requires p.Worker? && p.pc.Working? && EvidenceInv(sh, log) && AttemptEvidence(sh, p)
    requires SharedInv(H, sh, log) && WorkerInv(H, sh, log, n, p)
    ensures KeepsEvidence(sh, WorkStep(H, sh, log, n, p, c))
  {
    hide BeginStep, HashStep, BuildStep, EvidenceInv;
    match p.pc.work
    case Begin => BeginKeepsEvidence(H, sh, log, n, p, c);
    case Hashing(hash) => HashKeepsEvidence(H, sh, log, p, hash);
    case Building(build) => BuildKeepsEvidence(H, sh, log, p, build, c);
    case ReloadTriple =>
    case SaveConfirmed(pkg) => ConfirmedKeepsEvidence(sh, log, pkg);
    case Finalizing(_) =>
  }

  lemma ConfirmedKeepsEvidence(sh: Shared, log: History, pkg: Package)
    requires EvidenceInv(sh, log)
    ensures EvidenceInv(sh.(confirmed := Some(pkg)), log)
  {
  }

  lemma FinishingKeepsEvidence(sh: Shared, log: History, p: Process, o: Outcome, step: FinishStep)
    requires p.Worker? && EvidenceInv(sh, log)
    ensures KeepsEvidence(sh, FinishingStep(sh, log, p, o, step))
  {
    hide EvidenceInv, KeepsEvidence;
    var r := FinishingStep(sh, log, p, o, step);
    assert EvidenceStays(sh, r.sh);
    assert AttemptEvidence(r.sh, r.proc);
    hide EvidenceStays, AttemptEvidence;
    NothingIsOwed(sh, log, r);
  }

  /** A transition to Finalize without an intent is that of a Build that advanced. */
  lemma FinalizeFollowsBuild(id: Identity, o: Outcome)
    requires WorkerOutcome(id.stage, o)
    ensures var t := Resolve(id.stage, o, id.iteration);
            t.Next? && t.stage == Finalize && t.finalization.None? ==> id.stage == Build && o.Advance?
  {
  }

  lemma AddJobKeepsEvidence(sh: Shared, log: History, n: nat, p: Process, o: Outcome)
    requires p.Worker? && p.pc == Carrying(o, AddJob) && EvidenceInv(sh, log) && AttemptEvidence(sh, p)
    requires SoundOutcome(sh, log, p.id, o)
    ensures KeepsEvidence(sh, CarryingStep(sh, log, n, p, o, AddJob))
  {
    FinalizeFollowsBuild(p.id, o);
    hide Resolve, WorkerOutcome, FinishingStep;
  }

  lemma CarryingKeepsEvidence(sh: Shared, log: History, n: nat, p: Process, o: Outcome, step: CarryStep)
    requires p.Worker? && p.pc == Carrying(o, step) && EvidenceInv(sh, log) && AttemptEvidence(sh, p)
    requires SoundOutcome(sh, log, p.id, o)
    ensures KeepsEvidence(sh, CarryingStep(sh, log, n, p, o, step))
  {
    if step.Finishing? {
      FinishingKeepsEvidence(sh, log, p, o, step.finish);
    } else if step.AddJob? {
      AddJobKeepsEvidence(sh, log, n, p, o);
    } else {
      hide FinishingStep, Resolve, SoundOutcome;
    }
  }

  lemma SaveKeepsEvidence(sh: Shared, log: History, n: nat, p: Process, o: Outcome)
    requires p.Worker? && p.pc == Save(o) && EvidenceInv(sh, log) && AttemptEvidence(sh, p)
    ensures KeepsEvidence(sh, SaveStep(sh, log, n, p, o))
  {
  }

  lemma WorkerKeepsEvidence(H: HashFunction, sh: Shared, log: History, n: nat, p: Process, c: Choice)
    requires p.Worker? && EvidenceInv(sh, log) && AttemptEvidence(sh, p)
    requires SharedInv(H, sh, log) && WorkerInv(H, sh, log, n, p)
    ensures KeepsEvidence(sh, WorkerStep(H, sh, log, n, p, c))
  {
    hide WorkStep, CarryingStep, SaveStep, EntryStepOf, SharedInv, SoundOutcome, EvidenceInv, KeepsEvidence;
    match p.pc
    case Working(_) => WorkKeepsEvidence(H, sh, log, n, p, c);
    case Save(o) => SaveKeepsEvidence(sh, log, n, p, o);
    case Carrying(o, step) => CarryingKeepsEvidence(sh, log, n, p, o, step);
    case Entering(entry) => EntryKeepsEvidence(sh, log, n, p, entry);
    case _ => NothingIsOwed(sh, log, WorkerStep(H, sh, log, n, p, c));
  }

  lemma EntryKeepsEvidence(sh: Shared, log: History, n: nat, p: Process, entry: EntryStep)
    requires p.Worker? && EvidenceInv(sh, log)
    ensures KeepsEvidence(sh, EntryStepOf(sh, log, n, p, entry))
  {
    hide EvidenceInv, KeepsEvidence;
    NothingIsOwed(sh, log, EntryStepOf(sh, log, n, p, entry));
  }

  lemma ConfirmingKeepsEvidence(sh: Shared, log: History, p: Process, c: Choice)
    requires p.Confirming? && EvidenceInv(sh, log)
    ensures KeepsEvidence(sh, ConfirmingStep(sh, log, p, c))
  {
    hide EvidenceInv, KeepsEvidence;
    var r := ConfirmingStep(sh, log, p, c);
    match p.cstep
    case WinGate => NothingIsOwed(sh, log, r);
    case QueuePlanner => NothingIsOwed(sh, log, r);
    case ReopenGate => NothingIsOwed(sh, log, r);
    case _ => NothingIsOwed(sh, log, r);
  }

  lemma ApprovingKeepsEvidence(sh: Shared, log: History, p: Process)
    requires p.Approving? && EvidenceInv(sh, log)
    ensures KeepsEvidence(sh, ApprovingStep(sh, log, p))
  {
    hide EvidenceInv, KeepsEvidence;
    var r := ApprovingStep(sh, log, p);
    match p.astep
    case WriteApproval => NothingIsOwed(sh, log, r);
    case QueueBuild => NothingIsOwed(sh, log, r);
    case _ => NothingIsOwed(sh, log, r);
  }

  lemma ActKeepsEvidence(H: HashFunction, sh: Shared, log: History, n: nat, p: Process, c: Choice)
    requires EvidenceInv(sh, log) && AttemptEvidence(sh, p) && SharedInv(H, sh, log) && ProcessInv(H, sh, log, n, p)
    ensures KeepsEvidence(sh, ProcessStep(H, sh, log, n, p, c))
  {
    hide WorkerStep, ConfirmingStep, ApprovingStep, EvidenceInv, SharedInv;
    match p
    case Worker(_, _, _, _) => WorkerKeepsEvidence(H, sh, log, n, p, c);
    case Confirming(_) => ConfirmingKeepsEvidence(sh, log, p, c);
    case Approving(_, _) => ApprovingKeepsEvidence(sh, log, p);
  }

  // ---- Every run ----

  ghost predicate AllEvidence(s: System) {
    EvidenceInv(s.sh, s.log) && forall n :: n in s.procs ==> AttemptEvidence(s.sh, s.procs[n])
  }

  lemma AttemptEvidenceStays(sh: Shared, sh': Shared, p: Process)
    requires AttemptEvidence(sh, p) && EvidenceStays(sh, sh')
    ensures AttemptEvidence(sh', p)
  {
  }

  lemma StepKeepsEvidence(H: HashFunction, s: System, action: Action)
    requires AllEvidence(s) && Inv(H, s)
    ensures AllEvidence(Step(H, s, action))
  {
    hide ProcessStep, EvidenceStays, EvidenceInv;
    var s' := Step(H, s, action);
    if action.Act? && action.n in s.procs {
      ActKeepsEvidence(H, s.sh, s.log, action.n, s.procs[action.n], action.choice);
      forall m | m in s'.procs ensures AttemptEvidence(s'.sh, s'.procs[m]) {
        if m != action.n {
          AttemptEvidenceStays(s.sh, s'.sh, s.procs[m]);
        }
      }
    } else {
      OtherKeepsEvidence(H, s, action);
    }
  }

  lemma OtherKeepsEvidence(H: HashFunction, s: System, action: Action)
    requires AllEvidence(s) && (action.Act? ==> action.n !in s.procs)
    ensures AllEvidence(Step(H, s, action))
  {
    var s' := Step(H, s, action);
    assert EvidenceInv(s'.sh, s'.log) && EvidenceStays(s.sh, s'.sh);
    hide EvidenceInv, EvidenceStays, ProcessStep;
    forall m | m in s'.procs ensures AttemptEvidence(s'.sh, s'.procs[m]) {
      if m in s.procs {
        AttemptEvidenceStays(s.sh, s'.sh, s.procs[m]);
      }
    }
  }

  lemma {:induction false} ReachableEvidence(H: HashFunction, actions: seq<Action>)
    ensures AllEvidence(Run(H, actions))
  {
    if actions != [] {
      ReachableEvidence(H, actions[..|actions| - 1]);
      ReachableInv(H, actions[..|actions| - 1]);
      hide AllEvidence, Inv, Step;
      StepKeepsEvidence(H, Run(H, actions[..|actions| - 1]), actions[|actions| - 1]);
    }
  }

  /**
   * Over every run a later stage finds what it needs: the package once Confirmation has an outcome, the gate once
   * CreateHash advanced, and for Finalize a failure intent or both the hash proof and the build result.
   */
  lemma {:induction false} StagesFindTheirInputs(H: HashFunction, actions: seq<Action>)
    ensures var sh := Run(H, actions).sh;
            && (Identity(Confirmation, 0) in sh.outcomes ==> sh.confirmed.Some?)
            && (Identity(CreateHash, 0) in sh.outcomes && sh.outcomes[Identity(CreateHash, 0)].Advance? ==> sh.gate.Some?)
            && (Identity(Finalize, 0) in sh.jobs ==> sh.finalization.Some? || (sh.proof.Some? && sh.buildResult.Some?))
  {
    hide Run;
    ReachableEvidence(H, actions);
    ReachableInv(H, actions);
  }
}
