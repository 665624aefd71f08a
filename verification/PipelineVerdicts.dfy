/** What the recorded verdicts mean: in every run without overlap a stage advanced exactly when its evidence says so. */
module PipelineVerdicts {
  import opened Wrappers
  import opened Stages
  import opened PipelineState
  import opened PipelineMachine
  import opened PipelineFrames
  import opened PipelineSafety
  import opened PipelineLeases
  import opened PipelineRecovery
  import opened PipelineEvidence

  /** The build result passed and its sandbox hash is the canonical hash of the confirmed package. */
  predicate BuildAgrees(H: HashFunction, sh: Shared) {
    && sh.confirmed.Some? && sh.buildResult.Some?
    && sh.buildResult.value.result == Passed
    && sh.buildResult.value.sandboxHash == Some(H(sh.confirmed.value))
  }

  /** The outcome of a stage that judges stored evidence advances exactly when that evidence is good. */
  predicate IsVerdict(H: HashFunction, sh: Shared, id: Identity, o: Outcome) {
    match id.stage
    case CreateHash => o.Advance? <==> sh.proof.Some? && sh.proof.value.equal
    case Build => o.Advance? <==> sh.buildResult.Some? && sh.buildResult.value.result == Passed
    case Finalize =>
      sh.finalization.None? ==>
        && sh.buildResult.Some? && sh.confirmed.Some? && Identity(CreateHash, 0) in sh.jobs
        && (o.Advance? <==> BuildAgrees(H, sh))
    case _ => true
  }

  predicate SavesVerdict(H: HashFunction, sh: Shared, p: Process) {
    p.Worker? && p.pc.Save? ==> IsVerdict(H, sh, p.id, p.pc.result)
  }

  ghost predicate VerdictsInv(H: HashFunction, s: System) {
    && (forall id :: id in s.sh.outcomes ==> IsVerdict(H, s.sh, id, s.sh.outcomes[id]))
    && (forall n :: n in s.procs ==> SavesVerdict(H, s.sh, s.procs[n]))
  }

  // ---- The evidence of a stage stays as it is once another stage works ----

  /** The evidence for a verdict of this stage is the same. */
  predicate SameEvidence(sh: Shared, sh': Shared, stage: Stage) {
    && (stage == CreateHash ==> sh'.proof == sh.proof)
    && (stage == Build ==> sh'.buildResult == sh.buildResult)
    && (sh.buildResult.Some? ==> sh'.buildResult == sh.buildResult)
    && (Identity(CreateHash, 0) in sh.jobs ==> sh'.confirmed == sh.confirmed)
    && (sh.finalization.Some? ==> sh'.finalization.Some?)
    && sh.jobs <= sh'.jobs
  }

  lemma VerdictStays(H: HashFunction, sh: Shared, sh': Shared, id: Identity, o: Outcome)
    requires IsVerdict(H, sh, id, o) && SameEvidence(sh, sh', id.stage)
    ensures IsVerdict(H, sh', id, o)
  {
  }

  lemma BuildLeavesEvidence(H: HashFunction, sh: Shared, log: History, p: Process, work: BuildWork, c: Choice)
    requires p.Worker?
    ensures var r := BuildStep(H, sh, log, p, work, c);
            r.sh.proof == sh.proof && r.sh.confirmed == sh.confirmed
  {
  }

  lemma HashLeavesEvidence(sh: Shared, log: History, p: Process, work: HashWork)
    requires p.Worker?
    ensures var r := HashStep(sh, log, p, work);
            r.sh.buildResult == sh.buildResult && r.sh.confirmed == sh.confirmed
  {
  }

  lemma BeginLeavesEvidence(H: HashFunction, sh: Shared, log: History, n: nat, p: Process, c: Choice)
    requires p.Worker?
    ensures var r := BeginStep(H, sh, log, n, p, c);
            r.sh.buildResult == sh.buildResult && r.sh.confirmed == sh.confirmed && r.sh.proof == sh.proof
  {
  }

  /** Working on one stage leaves the evidence of every other verdict alone. */
  lemma WorkLeavesOthers(H: HashFunction, sh: Shared, log: History, n: nat, p: Process, c: Choice, stage: Stage)
    requires p.Worker? && p.pc.Working? && WorkInv(H, sh, log, n, p.id.stage, p.pc.work)
    requires stage != p.id.stage
    requires var sh' := WorkStep(H, sh, log, n, p, c).sh;
             && (sh.buildResult.Some? ==> sh'.buildResult == sh.buildResult)
             && (Identity(CreateHash, 0) in sh.jobs ==> sh'.confirmed == sh.confirmed)
    ensures SameEvidence(sh, WorkStep(H, sh, log, n, p, c).sh, stage)
  {
    WorkIsFramed(H, sh, log, n, p, c);
    hide BeginStep, HashStep, BuildStep;
    match p.pc.work
    case Begin => BeginLeavesEvidence(H, sh, log, n, p, c);
    case Hashing(hash) => HashLeavesEvidence(sh, log, p, hash);
    case Building(build) => BuildLeavesEvidence(H, sh, log, p, build, c);
    case _ =>
  }

  // ---- The verdicts themselves ----

  lemma BeginReachesVerdict(H: HashFunction, sh: Shared, log: History, n: nat, p: Process, c: Choice)
    requires p.Worker?
    ensures var r := BeginStep(H, sh, log, n, p, c); SavesVerdict(H, r.sh, r.proc)
  {
  }

  lemma HashReachesVerdict(H: HashFunction, sh: Shared, log: History, p: Process, work: HashWork)
    requires p.Worker? && p.id.stage == CreateHash
    ensures var r := HashStep(sh, log, p, work); SavesVerdict(H, r.sh, r.proc)
  {
  }

  lemma BuildReachesVerdict(H: HashFunction, sh: Shared, log: History, p: Process, work: BuildWork, c: Choice)
    requires p.Worker? && p.id.stage == Build
    ensures var r := BuildStep(H, sh, log, p, work, c); SavesVerdict(H, r.sh, r.proc)
  {
  }

  lemma FinalReachesVerdict(H: HashFunction, sh: Shared, log: History, p: Process, work: FinalizeWork)
    requires p.Worker? && p.id.stage == Finalize && PackageInv(H, sh, log)
    requires work.LoadFinalBuild? ==> work.proof in log.proofs
    ensures var r := FinalizeStep(sh, log, p, work); SavesVerdict(H, r.sh, r.proc)
  {
  }

  lemma WorkReachesVerdict(H: HashFunction, sh: Shared, log: History, n: nat, p: Process, c: Choice)
    requires p.Worker? && p.pc.Working? && WorkInv(H, sh, log, n, p.id.stage, p.pc.work) && PackageInv(H, sh, log)
    ensures var r := WorkStep(H, sh, log, n, p, c); SavesVerdict(H, r.sh, r.proc)
  {
    hide BeginStep, HashStep, BuildStep, FinalizeStep;
    match p.pc.work
    case Begin => BeginReachesVerdict(H, sh, log, n, p, c);
    case Hashing(hash) => HashReachesVerdict(H, sh, log, p, hash);
    case Building(build) => BuildReachesVerdict(H, sh, log, p, build, c);
    case Finalizing(final) => FinalReachesVerdict(H, sh, log, p, final);
    case _ =>
  }

  // ---- Every step ----

  lemma WorkingKeepsVerdicts(H: HashFunction, s: System, n: nat, c: Choice)
    requires NonOverlapInv(H, s) && VerdictsInv(H, s)
    requires n in s.procs && s.procs[n].Worker? && s.procs[n].pc.Working?
    ensures VerdictsInv(H, Step(H, s, Act(n, c)))
  {
    var p := s.procs[n];
    var r := WorkStep(H, s.sh, s.log, n, p, c);
    WorkerKnown(H, s, n, c);
    WorkIsFramed(H, s.sh, s.log, n, p, c);
    WorkReachesVerdict(H, s.sh, s.log, n, p, c);
    forall stage: Stage | stage != p.id.stage ensures SameEvidence(s.sh, r.sh, stage) {
      WorkLeavesOthers(H, s.sh, s.log, n, p, c, stage);
    }
    forall id | id in r.sh.outcomes ensures IsVerdict(H, r.sh, id, r.sh.outcomes[id]) {
      if id.stage != p.id.stage {
        VerdictStays(H, s.sh, r.sh, id, s.sh.outcomes[id]);
      } else {
        OneOfItsStage(H, s, n, id);
      }
    }
    forall m | m in s.procs && m != n ensures SavesVerdict(H, r.sh, s.procs[m]) {
      if s.procs[m].Worker? && s.procs[m].pc.Save? {
        SaverKnown(H, s, m);
        if s.procs[m].id.stage != p.id.stage {
          VerdictStays(H, s.sh, r.sh, s.procs[m].id, s.procs[m].pc.result);
        } else if IsJudged(p.id.stage) {
          JudgedIsUnique(p.id, s.procs[m].id);
        }
      }
    }
  }

  predicate IsJudged(stage: Stage) {
    stage == CreateHash || stage == Build || stage == Finalize
  }

  lemma JudgedIsUnique(a: Identity, b: Identity)
    requires InPipeline(a) && InPipeline(b) && a.stage == b.stage && IsJudged(a.stage)
    ensures a == b
  {
  }

  /** While an attempt works on a judged stage that stage has no outcome. */
  lemma OneOfItsStage(H: HashFunction, s: System, n: nat, id: Identity)
    requires NonOverlapInv(H, s) && n in s.procs && s.procs[n].Worker? && s.procs[n].pc.Working?
    requires id in s.sh.outcomes && id.stage == s.procs[n].id.stage
    ensures !IsJudged(id.stage)
  {
    assert AttemptInv(H, s.sh, s.procs[n]) && ProcessInv(H, s.sh, s.log, n, s.procs[n]);
    assert id in s.sh.jobs && s.procs[n].id in s.sh.jobs;
    if IsJudged(id.stage) {
      JudgedIsUnique(id, s.procs[n].id);
    }
  }

  lemma SaverKnown(H: HashFunction, s: System, m: nat)
    requires NonOverlapInv(H, s) && m in s.procs && s.procs[m].Worker? && s.procs[m].pc.Save?
    ensures s.procs[m].id.stage != Researcher ==> InPipeline(s.procs[m].id)
  {
    assert ProcessInv(H, s.sh, s.log, m, s.procs[m]);
    assert s.procs[m].id in s.sh.jobs;
  }

  lemma WorkerKnown(H: HashFunction, s: System, n: nat, c: Choice)
    requires NonOverlapInv(H, s) && n in s.procs && s.procs[n].Worker? && s.procs[n].pc.Working?
    ensures var p := s.procs[n];
            var sh' := WorkStep(H, s.sh, s.log, n, p, c).sh;
            && WorkInv(H, s.sh, s.log, n, p.id.stage, p.pc.work) && PackageInv(H, s.sh, s.log)
            && (p.id.stage != Researcher ==> InPipeline(p.id))
            && (s.sh.buildResult.Some? ==> sh'.buildResult == s.sh.buildResult)
            && (Identity(CreateHash, 0) in s.sh.jobs ==> sh'.confirmed == s.sh.confirmed)
  {
    var p := s.procs[n];
    assert ProcessInv(H, s.sh, s.log, n, p) && AttemptInv(H, s.sh, p);
    assert p.id in s.sh.jobs;
    hide WorkStep;
    WorkPreserves(H, s.sh, s.log, n, p, c);
    WorkContinues(H, s.sh, s.log, n, p, c);
  }

  /** Outside the work of a stage no evidence is written and no outcome is reached. */
  lemma RestLeavesEvidence(H: HashFunction, sh: Shared, log: History, n: nat, p: Process, c: Choice)
    requires !(p.Worker? && p.pc.Working?)
    ensures var r := ProcessStep(H, sh, log, n, p, c);
            && r.sh.proof == sh.proof && r.sh.buildResult == sh.buildResult && r.sh.confirmed == sh.confirmed
            && (sh.finalization.Some? ==> r.sh.finalization.Some?)
            && !(r.proc.Worker? && r.proc.pc.Save?)
  {
    hide CarryingStep, EntryStepOf, Resolve, ConfirmingStep, ApprovingStep;
    if !p.Worker? {
      HumanIsFramed(H, sh, log, n, p, c);
    } else if p.pc.Entering? {
      EntryIsFramed(sh, log, n, p, p.pc.entry);
    } else if p.pc.Carrying? {
      CarryingLeavesEvidence(sh, log, n, p, p.pc.outcome, p.pc.carry);
    }
  }

  lemma CarryingLeavesEvidence(sh: Shared, log: History, n: nat, p: Process, o: Outcome, step: CarryStep)
    requires p.Worker?
    ensures var r := CarryingStep(sh, log, n, p, o, step);
            && r.sh.proof == sh.proof && r.sh.buildResult == sh.buildResult && r.sh.confirmed == sh.confirmed
            && (sh.finalization.Some? ==> r.sh.finalization.Some?)
            && r.proc.Worker? && !r.proc.pc.Save?
  {
    hide FinishingStep, Resolve;
    if step.Finishing? {
      FinishingIsFramed(sh, log, p, o, step.finish);
    } else {
      CarryingIsFramed(sh, log, n, p, o, step);
    }
  }

  lemma RestKeepsVerdicts(H: HashFunction, s: System, n: nat, c: Choice)
    requires NonOverlapInv(H, s) && VerdictsInv(H, s) && n in s.procs && !(s.procs[n].Worker? && s.procs[n].pc.Working?)
    ensures VerdictsInv(H, Step(H, s, Act(n, c)))
  {
    var s' := Step(H, s, Act(n, c));
    RestLeavesEvidence(H, s.sh, s.log, n, s.procs[n], c);
    OutcomesAreFenced(H, s, Act(n, c));
    JobsStay(H, s, n, c);
    hide NonOverlapInv, ProcessStep;
    AllVerdictsStay(H, s, s');
  }

  lemma JobsStay(H: HashFunction, s: System, n: nat, c: Choice)
    requires NonOverlapInv(H, s) && n in s.procs
    ensures s.sh.jobs <= Step(H, s, Act(n, c)).sh.jobs
  {
    assert ProcessInv(H, s.sh, s.log, n, s.procs[n]) && AttemptInv(H, s.sh, s.procs[n]);
    hide ProcessStep;
    ProcessContinues(H, s.sh, s.log, n, s.procs[n], c);
  }

  /** Verdicts outlive any action that leaves the evidence, whatever it adds to outcomes that attempts had reached. */
  lemma AllVerdictsStay(H: HashFunction, s: System, s': System)
    requires VerdictsInv(H, s)
    requires s'.sh.proof == s.sh.proof && s'.sh.buildResult == s.sh.buildResult && s'.sh.confirmed == s.sh.confirmed
    requires s.sh.finalization.Some? ==> s'.sh.finalization.Some?
    requires s.sh.jobs <= s'.sh.jobs
    requires s'.sh.outcomes == s.sh.outcomes
             || exists n :: n in s.procs && s.procs[n].Worker? && s.procs[n].pc.Save?
                            && s'.sh.outcomes == s.sh.outcomes[s.procs[n].id := s.procs[n].pc.result]
    requires forall m :: m in s'.procs ==>
               (m in s.procs && s'.procs[m] == s.procs[m]) || !(s'.procs[m].Worker? && s'.procs[m].pc.Save?)
               || (m in s.procs && s.procs[m].Worker? && s'.procs[m] == s.procs[m].(leaseLost := s'.procs[m].leaseLost))
    ensures VerdictsInv(H, s')
  {
    hide IsVerdict;
    forall id, o | IsVerdict(H, s.sh, id, o) ensures IsVerdict(H, s'.sh, id, o) {
      VerdictStays(H, s.sh, s'.sh, id, o);
    }
  }

  lemma StepKeepsVerdicts(H: HashFunction, s: System, action: Action)
    requires NonOverlapInv(H, s) && VerdictsInv(H, s)
    ensures VerdictsInv(H, Step(H, s, action))
  {
    hide VerdictsInv, ProcessStep;
    if action.Act? && action.n in s.procs {
      if s.procs[action.n].Worker? && s.procs[action.n].pc.Working? {
        WorkingKeepsVerdicts(H, s, action.n, action.choice);
      } else {
        RestKeepsVerdicts(H, s, action.n, action.choice);
      }
    } else {
      hide NonOverlapInv;
      AllVerdictsStay(H, s, Step(H, s, action));
    }
  }

  lemma {:induction false} RunKeepsVerdicts(H: HashFunction, actions: seq<Action>)
    requires NonOverlapping(H, actions)
    ensures VerdictsInv(H, Run(H, actions))
  {
    if actions != [] {
      var before := actions[..|actions| - 1];
      RunKeepsVerdicts(H, before);
      NonOverlappingInv(H, before);
      hide VerdictsInv, NonOverlapInv, Step;
      StepKeepsVerdicts(H, Run(H, before), actions[|actions| - 1]);
    }
  }

  /**
   * Both directions, for every run without overlap: CreateHash advanced exactly on an equal proof, Build exactly on a
   * passed result, and Finalize, unless a failed finalization was requested, exactly when the build passed with the
   * created hash in its sandbox.
   */
  lemma {:induction false} VerdictsAreExact(H: HashFunction, actions: seq<Action>)
    requires NonOverlapping(H, actions)
    ensures var sh := Run(H, actions).sh;
            && (Identity(CreateHash, 0) in sh.outcomes ==>
                  (sh.outcomes[Identity(CreateHash, 0)].Advance? <==> sh.proof.Some? && sh.proof.value.equal))
            && (Identity(Build, 0) in sh.outcomes ==>
                  (sh.outcomes[Identity(Build, 0)].Advance?
                   <==> sh.buildResult.Some? && sh.buildResult.value.result == Passed))
            && (Identity(Finalize, 0) in sh.outcomes && sh.finalization.None? ==>
                  && sh.proof.Some? && sh.buildResult.Some?
                  && (sh.outcomes[Identity(Finalize, 0)].Advance?
                      <==> && sh.buildResult.value.result == Passed
                           && sh.buildResult.value.sandboxHash == Some(sh.proof.value.created)))
  {
    hide Run;
    RunKeepsVerdicts(H, actions);
    NonOverlappingInv(H, actions);
    StagesFindTheirInputs(H, actions);
    ProofIsOfThePackage(H, Run(H, actions));
    FinalizeIsQueued(H, Run(H, actions));
    hide NonOverlapInv;
  }

  lemma FinalizeIsQueued(H: HashFunction, s: System)
    requires NonOverlapInv(H, s)
    ensures forall id :: id in s.sh.outcomes ==> id in s.sh.jobs
  {
  }

  lemma ProofIsOfThePackage(H: HashFunction, s: System)
    requires NonOverlapInv(H, s)
    ensures s.sh.proof.Some? ==> s.sh.confirmed.Some? && s.sh.proof.value.created == H(s.sh.confirmed.value)
  {
  }

  /** And so a finished run passed exactly when its one build did, with the created hash, unless it was made to fail. */
  lemma {:induction false} RunPassedIff(H: HashFunction, actions: seq<Action>)
    requires NonOverlapping(H, actions)
    requires Run(H, actions).sh.snapshot.Finished? && Run(H, actions).sh.finalization.None?
    ensures var sh := Run(H, actions).sh;
            && sh.proof.Some? && sh.buildResult.Some?
            && (sh.snapshot.result == Passed
                <==> && sh.buildResult.value.result == Passed
                     && sh.buildResult.value.sandboxHash == Some(sh.proof.value.created))
  {
    hide Run, NonOverlapping;
    VerdictsAreExact(H, actions);
    WithoutOverlapTheSnapshotIsDetermined(H, actions);
  }
}
