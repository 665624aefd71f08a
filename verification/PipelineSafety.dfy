/**
 * What holds in every reachable state of the pipeline, whatever the interleaving of attempts, crashes,
 * redeliveries, lease expiries and human requests.
 */
module PipelineSafety {
  import opened Wrappers
  import opened Stages
  import opened PipelineState
  import opened PipelineMachine

  // ---- The invariant ----

  /** The Builder result passed and its sandbox hash is the created hash of `proof`. */
  predicate ProvedBy(sh: Shared, log: History, proof: Proof) {
    && proof in log.proofs
    && sh.buildResult.Some?
    && sh.buildResult.value.result == Passed
    && sh.buildResult.value.sandboxHash == Some(proof.created)
  }

  /** An outcome the worker could have produced; an advancing Build or Finalize is backed by evidence. */
  predicate SoundOutcome(sh: Shared, log: History, id: Identity, o: Outcome) {
    && WorkerOutcome(id.stage, o)
    && (id.stage == Build && o.Advance? ==> sh.buildResult.Some? && sh.buildResult.value.result == Passed)
    && (id.stage == Finalize && o.Advance? ==> ProvedBy(sh, log, o.report.proof))
  }

  ghost predicate RedisInv(sh: Shared, log: History) {
    && sh.executed == sh.outcomes.Keys
    && sh.executed <= sh.jobs
    && (forall id :: id in sh.jobs ==>
          && (id.stage != Researcher ==> InPipeline(id) && log.planConfirmed))
    && (forall id :: id in sh.outcomes ==> SoundOutcome(sh, log, id, sh.outcomes[id]))
  }

  /** The gate is opened for one valid package and its hash, approved for that hash or not at all. */
  predicate GateInv(H: HashFunction, sh: Shared, log: History) {
    && (sh.gate.Some? ==>
          && AdmitsGate(sh.gate.value.pkg, sh.gate.value.hash)
          && sh.gate.value.hash == H(sh.gate.value.pkg)
          && log.planConfirmed)
    && (sh.approval.Some? ==> sh.gate.Some? && sh.approval.value == sh.gate.value.hash)
    && (sh.proof.Some? ==> sh.proof.value in log.proofs)
  }

  ghost predicate ProofInv(sh: Shared, log: History) {
    forall q :: q in log.proofs && q.equal ==> sh.gate.Some? && sh.gate.value.hash == q.created
  }

  predicate ApprovedRun(sh: Shared, run: BuilderRun) {
    sh.gate == Some(Gate(run.pkg, run.hash)) && sh.approval == Some(run.hash)
  }

  predicate BuilderInv(sh: Shared, log: History) {
    && sh.builderIntent == log.builderOwner.Some?
    && |log.builderRuns| <= 1
    && (log.builderRuns != [] ==> log.builderOwner.Some? && ApprovedRun(sh, log.builderRuns[0]))
    && (sh.buildResult.Some? ==> log.builderRuns != [] && log.builderRuns[0].result == sh.buildResult.value)
  }

  predicate SnapshotInv(sh: Shared, log: History) {
    sh.snapshot.Finished? ==>
      if sh.snapshot.result == Passed
      then log.passedBy.Some? && ProvedBy(sh, log, log.passedBy.value)
      else sh.snapshot.rootCause.Some? && sh.snapshot.issueType.Some?
  }

  ghost predicate SharedInv(H: HashFunction, sh: Shared, log: History) {
    && RedisInv(sh, log)
    && GateInv(H, sh, log)
    && ProofInv(sh, log)
    && BuilderInv(sh, log)
    && SnapshotInv(sh, log)
  }

  predicate OwnsBuilder(log: History, n: nat) {
    log.builderOwner == Some(n) && log.builderRuns == []
  }

  predicate HashInv(H: HashFunction, sh: Shared, work: HashWork) {
    match work
    case OpenGate(pkg, proof) => proof.equal && proof.created == H(pkg)
    case CheckGate(_, proof) => proof.equal && sh.gate.Some?
    case SaveProof(proof) => proof.equal ==> sh.gate.Some? && sh.gate.value.hash == proof.created
    case ReloadProof => true
  }

  predicate BuildInv(sh: Shared, log: History, n: nat, work: BuildWork) {
    match work
    case Recover => true
    case LoadPackage => OwnsBuilder(log, n)
    case LoadProof(_) => OwnsBuilder(log, n)
    case ReadGate(_, _) => OwnsBuilder(log, n)
    case ReadApproval(_, _, gate) => OwnsBuilder(log, n) && sh.gate == Some(gate)
    case ReadGateAgain(_, proof, gate) =>
      OwnsBuilder(log, n) && sh.gate == Some(gate) && sh.approval == Some(proof.created) && gate.hash == proof.created
    case RunBuilder(pkg, proof) =>
      OwnsBuilder(log, n) && sh.gate == Some(Gate(pkg, proof.created)) && sh.approval == Some(proof.created)
    case SaveResult(result) =>
      log.builderOwner == Some(n) && log.builderRuns != [] && log.builderRuns[0].result == result
    case ReloadResult => true
  }

  predicate WorkInv(H: HashFunction, sh: Shared, log: History, n: nat, stage: Stage, work: Work) {
    match work
    case Begin => true
    case ReloadTriple => stage == TripleValidation
    case SaveConfirmed(_) => stage == Confirmation
    case Hashing(hash) => stage == CreateHash && HashInv(H, sh, hash)
    case Building(build) => stage == Build && BuildInv(sh, log, n, build)
    case Finalizing(final) => stage == Finalize && (final.LoadFinalBuild? ==> final.proof in log.proofs)
  }

  /** What an attempt knows about its lease while the stage executes. */
  predicate LeaseKnown(sh: Shared, n: nat, p: Process)
    requires p.Worker?
  {
    && (p.id in sh.leases && sh.leases[p.id] == n && !p.stale ==> p.id !in sh.executed)
    && (p.stale ==> p.id in sh.executed)
  }

  predicate WorkerInv(H: HashFunction, sh: Shared, log: History, n: nat, p: Process)
    requires p.Worker?
  {
    match p.pc
    case Entering(entry) =>
      && (!entry.ReconcileReadExecuted? ==> p.id in sh.jobs)
      && (entry.LoadOutcome? || entry.ReconcileReadMark? ==> p.id in sh.executed)
    case Working(work) => p.id in sh.jobs && LeaseKnown(sh, n, p) && WorkInv(H, sh, log, n, p.id.stage, work)
    case Save(o) => p.id in sh.jobs && LeaseKnown(sh, n, p) && SoundOutcome(sh, log, p.id, o)
    case Carrying(o, step) =>
      && p.id in sh.executed && SoundOutcome(sh, log, p.id, o)
      && (step.Finishing? ==> p.id.stage == Finalize)
    case Abandon => true
    case Ended => true
  }

  predicate ProcessInv(H: HashFunction, sh: Shared, log: History, n: nat, p: Process) {
    match p
    case Worker(_, _, _, _) => WorkerInv(H, sh, log, n, p)
    case Confirming(step) => step.QueuePlanner? ==> log.planConfirmed
    case Approving(hash, step) =>
      && (step.ReadConfirmed? || step.WriteApproval? ==> sh.gate.Some? && sh.gate.value.hash == hash)
      && (step.QueueBuild? ==> sh.gate.Some?)
  }

  ghost predicate Inv(H: HashFunction, s: System) {
    && SharedInv(H, s.sh, s.log)
    && (forall n :: n in s.procs ==> n < s.next && ProcessInv(H, s.sh, s.log, n, s.procs[n]))
    && (forall id :: id in s.sh.leases ==> s.sh.leases[id] < s.next)
  }

  // ---- What a step of process n may change under the feet of the others ----

  ghost predicate Grows(n: nat, sh: Shared, log: History, sh': Shared, log': History) {
    && sh.jobs <= sh'.jobs
    && sh.executed <= sh'.executed
    && (forall id :: id in sh'.executed && id !in sh.executed ==> id in sh.leases && sh.leases[id] == n)
    && (forall id :: id in sh'.leases && sh'.leases[id] != n ==> id in sh.leases && sh.leases[id] == sh'.leases[id])
    && (log.planConfirmed ==> log'.planConfirmed)
    && (sh.gate.Some? ==> sh'.gate == sh.gate)
    && (sh.approval.Some? ==> sh'.approval == sh.approval)
    && log.proofs <= log'.proofs
    && (sh.buildResult.Some? ==> sh'.buildResult == sh.buildResult)
    && (log.builderOwner.Some? ==> log'.builderOwner == log.builderOwner)
    && (log.builderOwner != Some(n) ==> log'.builderRuns == log.builderRuns)
  }

  lemma GrowthKeepsOthers(H: HashFunction, n: nat, m: nat, sh: Shared, log: History, sh': Shared, log': History, p: Process)
    requires Grows(n, sh, log, sh', log') && m != n
    requires ProcessInv(H, sh, log, m, p)
    ensures ProcessInv(H, sh', log', m, p)
  {
  }

  /** What every action of process n does to the shared state. */
  ghost predicate Keeps(H: HashFunction, n: nat, sh: Shared, log: History, sh': Shared, log': History) {
    && Grows(n, sh, log, sh', log')
    && SharedInv(H, sh', log')
  }

  /** The parts of the shared state the invariant speaks about are the same. */
  predicate SameCore(sh: Shared, sh': Shared) {
    && sh'.outcomes == sh.outcomes && sh'.executed == sh.executed && sh'.leases == sh.leases
    && sh'.jobs == sh.jobs && sh'.gate == sh.gate && sh'.approval == sh.approval
    && sh'.proof == sh.proof && sh'.buildResult == sh.buildResult
    && sh'.builderIntent == sh.builderIntent && sh'.snapshot == sh.snapshot
  }

  // ---- The writes that matter, one lemma each ----

  lemma SameCoreKeeps(H: HashFunction, n: nat, sh: Shared, log: History, sh': Shared)
    requires SharedInv(H, sh, log) && SameCore(sh, sh')
    ensures Keeps(H, n, sh, log, sh', log)
  {
  }

  lemma SaveKeeps(H: HashFunction, n: nat, sh: Shared, log: History, id: Identity, o: Outcome)
    requires SharedInv(H, sh, log) && SoundOutcome(sh, log, id, o) && id in sh.jobs
    ensures Keeps(H, n, sh, log, SaveExecution(sh, id, o, Some(n)).0, log)
  {
    var (sh', ok) := SaveExecution(sh, id, o, Some(n));
    if ok {
      assert sh'.outcomes.Keys == sh.outcomes.Keys + {id};
      assert RedisInv(sh', log);
    }
  }

  lemma AcquireKeeps(H: HashFunction, n: nat, sh: Shared, log: History, id: Identity)
    requires SharedInv(H, sh, log)
    ensures Keeps(H, n, sh, log, AcquireLease(sh, id, n).0, log)
  {
    var (sh', won) := AcquireLease(sh, id, n);
    if won {
      assert RedisInv(sh', log) && GateInv(H, sh', log) && ProofInv(sh', log);
    }
  }

  lemma ReleaseKeeps(H: HashFunction, n: nat, sh: Shared, log: History, id: Identity)
    requires SharedInv(H, sh, log)
    ensures Keeps(H, n, sh, log, ReleaseLease(sh, id, n).0, log)
  {
    var (sh', won) := ReleaseLease(sh, id, n);
    if won {
      assert RedisInv(sh', log) && GateInv(H, sh', log) && ProofInv(sh', log);
    }
  }

  lemma EnqueueKeeps(H: HashFunction, n: nat, sh: Shared, log: History, id: Identity)
    requires SharedInv(H, sh, log) && (id.stage != Researcher ==> InPipeline(id) && log.planConfirmed)
    ensures Keeps(H, n, sh, log, Enqueue(sh, id), log)
    ensures Keeps(H, n, sh, log, Enqueue(sh, id), log.(requested := log.requested + {id}))
  {
  }

  lemma PlanGateKeeps(H: HashFunction, n: nat, sh: Shared, log: History)
    requires SharedInv(H, sh, log)
    ensures Keeps(H, n, sh, log, SetPlanGate(sh).0, log.(planConfirmed := true))
  {
  }

  lemma GateKeeps(H: HashFunction, n: nat, sh: Shared, log: History, pkg: Package)
    requires SharedInv(H, sh, log) && AdmitsGate(pkg, H(pkg)) && log.planConfirmed
    ensures Keeps(H, n, sh, log, sh.(gate := CreateOnce(sh.gate, Gate(pkg, H(pkg)))), log)
  {
  }

  lemma ApprovalKeeps(H: HashFunction, n: nat, sh: Shared, log: History, hash: string)
    requires SharedInv(H, sh, log) && sh.gate.Some? && sh.gate.value.hash == hash
    ensures Keeps(H, n, sh, log, sh.(approval := CreateOnce(sh.approval, hash)), log)
  {
  }

  lemma ProofKeeps(H: HashFunction, n: nat, sh: Shared, log: History, proof: Proof)
    requires SharedInv(H, sh, log) && (proof.equal ==> sh.gate.Some? && sh.gate.value.hash == proof.created)
    ensures Keeps(H, n, sh, log, sh.(proof := Some(proof)), log.(proofs := log.proofs + {proof}))
  {
  }

  lemma IntentKeeps(H: HashFunction, n: nat, sh: Shared, log: History)
    requires SharedInv(H, sh, log) && !sh.builderIntent
    ensures Keeps(H, n, sh, log, sh.(builderIntent := true), log.(builderOwner := Some(n)))
  {
  }

  lemma BuilderRunKeeps(H: HashFunction, n: nat, sh: Shared, log: History, run: BuilderRun)
    requires SharedInv(H, sh, log) && OwnsBuilder(log, n) && ApprovedRun(sh, run)
    ensures Keeps(H, n, sh, log, sh, log.(builderRuns := log.builderRuns + [run]))
  {
  }

  lemma BuildResultKeeps(H: HashFunction, n: nat, sh: Shared, log: History, result: BuildResult)
    requires SharedInv(H, sh, log) && log.builderRuns != [] && log.builderRuns[0].result == result
    ensures Keeps(H, n, sh, log, sh.(buildResult := Some(result)), log)
  {
  }

  lemma SnapshotKeeps(H: HashFunction, n: nat, sh: Shared, log: History, o: Outcome, issue: Option<Issue>)
    requires SharedInv(H, sh, log) && SoundOutcome(sh, log, Identity(Finalize, 0), o)
    ensures Keeps(H, n, sh, log, sh.(snapshot := FinishedSnapshot(DoneResult(o), issue)),
                  log.(finishes := log.finishes + 1, passedBy := ProofOf(o)))
  {
  }

  // ---- Every process keeps the shared invariant and its own ----

  ghost predicate Preserves(H: HashFunction, n: nat, sh: Shared, log: History, r: StepResult) {
    Keeps(H, n, sh, log, r.sh, r.log) && ProcessInv(H, r.sh, r.log, n, r.proc)
  }

  lemma BeginPreserves(H: HashFunction, sh: Shared, log: History, n: nat, p: Process, c: Choice)
    requires SharedInv(H, sh, log) && p.Worker? && p.pc == Working(Begin) && WorkerInv(H, sh, log, n, p)
    ensures Preserves(H, n, sh, log, BeginStep(H, sh, log, n, p, c))
  {
    hide Keeps, ProofInv, SnapshotInv;
    match p.id.stage
    case Build =>
      if sh.builderIntent {
        SameCoreKeeps(H, n, sh, log, sh);
      } else {
        IntentKeeps(H, n, sh, log);
      }
    case TripleValidation => SameCoreKeeps(H, n, sh, log, sh.(triple := Some(c.triple)));
    case _ => SameCoreKeeps(H, n, sh, log, sh);
  }

  lemma HashPreserves(H: HashFunction, sh: Shared, log: History, n: nat, p: Process, work: HashWork)
    requires SharedInv(H, sh, log) && p.Worker? && p.pc == Working(Hashing(work)) && WorkerInv(H, sh, log, n, p)
    ensures Preserves(H, n, sh, log, HashStep(sh, log, p, work))
  {
    hide Keeps;
    match work
    case OpenGate(pkg, proof) =>
      if AdmitsGate(pkg, proof.created) {
        GateKeeps(H, n, sh, log, pkg);
      } else {
        SameCoreKeeps(H, n, sh, log, sh);
      }
    case SaveProof(proof) => ProofKeeps(H, n, sh, log, proof);
    case _ => SameCoreKeeps(H, n, sh, log, sh);
  }

  lemma BuildPreserves(H: HashFunction, sh: Shared, log: History, n: nat, p: Process, work: BuildWork, c: Choice)
    requires SharedInv(H, sh, log) && p.Worker? && p.pc == Working(Building(work)) && WorkerInv(H, sh, log, n, p)
    ensures Preserves(H, n, sh, log, BuildStep(H, sh, log, p, work, c))
  {
    hide Keeps;
    match work
    case RunBuilder(pkg, proof) => BuilderRunKeeps(H, n, sh, log, BuilderRun(pkg, proof.created, c.build));
    case SaveResult(result) => BuildResultKeeps(H, n, sh, log, result);
    case _ =>
      SameCoreKeeps(H, n, sh, log, sh);
      BuildReadsPreserve(H, sh, log, n, p, work, c);
  }

  /** The build actions that only read: they write nothing and know what they have checked. */
  lemma BuildReadsPreserve(H: HashFunction, sh: Shared, log: History, n: nat, p: Process, work: BuildWork, c: Choice)
    requires GateInv(H, sh, log) && p.Worker? && p.pc == Working(Building(work)) && WorkerInv(H, sh, log, n, p)
    requires !work.RunBuilder? && !work.SaveResult?
    ensures var r := BuildStep(H, sh, log, p, work, c);
            r.sh == sh && r.log == log && ProcessInv(H, sh, log, n, r.proc)
  {
    if work.Recover? || work.ReloadResult? {
      BuildVerdictIsSound(H, sh, log, n, p, work, c);
    } else {
      hide SoundOutcome;
    }
  }

  /** The verdict of a build advances only on a recorded result that passed. */
  lemma BuildVerdictIsSound(H: HashFunction, sh: Shared, log: History, n: nat, p: Process, work: BuildWork, c: Choice)
    requires p.Worker? && p.pc == Working(Building(work)) && WorkerInv(H, sh, log, n, p)
    requires work.Recover? || work.ReloadResult?
    ensures var r := BuildStep(H, sh, log, p, work, c);
            r.sh == sh && r.log == log && ProcessInv(H, sh, log, n, r.proc)
  {
    hide BuildInv;
    if work.Recover? {
      assert BuildStep(H, sh, log, p, work, c).proc.pc.Save?;
    }
  }

  lemma WorkPreserves(H: HashFunction, sh: Shared, log: History, n: nat, p: Process, c: Choice)
    requires SharedInv(H, sh, log) && p.Worker? && p.pc.Working? && WorkerInv(H, sh, log, n, p)
    ensures Preserves(H, n, sh, log, WorkStep(H, sh, log, n, p, c))
  {
    hide Keeps, ProofInv, BuilderInv, SnapshotInv;
    match p.pc.work
    case Begin => BeginPreserves(H, sh, log, n, p, c);
    case ReloadTriple => SameCoreKeeps(H, n, sh, log, sh);
    case SaveConfirmed(pkg) => SameCoreKeeps(H, n, sh, log, sh.(confirmed := Some(pkg)));
    case Hashing(hash) => HashPreserves(H, sh, log, n, p, hash);
    case Building(build) => BuildPreserves(H, sh, log, n, p, build, c);
    case Finalizing(_) => SameCoreKeeps(H, n, sh, log, sh);
  }

  lemma FinishingPreserves(H: HashFunction, sh: Shared, log: History, n: nat, p: Process, o: Outcome, step: FinishStep)
    requires SharedInv(H, sh, log) && p.Worker? && p.pc == Carrying(o, Finishing(step)) && WorkerInv(H, sh, log, n, p)
    ensures Preserves(H, n, sh, log, FinishingStep(sh, log, p, o, step))
  {
    hide Keeps, GateInv, ProofInv, BuilderInv, SnapshotInv;
    if step.WriteSnapshot? && step.running {
      SnapshotKeeps(H, n, sh, log, o, step.issue);
    } else {
      SameCoreKeeps(H, n, sh, log, FinishingStep(sh, log, p, o, step).sh);
    }
  }

  lemma CarryingPreserves(H: HashFunction, sh: Shared, log: History, n: nat, p: Process, o: Outcome, step: CarryStep)
    requires SharedInv(H, sh, log) && p.Worker? && p.pc == Carrying(o, step) && WorkerInv(H, sh, log, n, p)
    ensures Preserves(H, n, sh, log, CarryingStep(sh, log, n, p, o, step))
  {
    hide Keeps, GateInv, ProofInv, BuilderInv, SnapshotInv, FinishingStep;
    var transition := Resolve(p.id.stage, o, p.id.iteration);
    match step
    case Release => ReleaseKeeps(H, n, sh, log, p.id);
    case Finishing(finish) => FinishingPreserves(H, sh, log, n, p, o, finish);
    case ApplyEffect =>
      if p.id.stage != Researcher {
        SuccessorDecreases(p.id, o);
      }
      SameCoreKeeps(H, n, sh, log, SaveFinalization(sh, transition));
    case AddJob =>
      if p.id.stage != Researcher {
        SuccessorDecreases(p.id, o);
      }
      if transition.Next? {
        EnqueueKeeps(H, n, sh, log, Identity(transition.stage, transition.iteration));
      } else {
        SameCoreKeeps(H, n, sh, log, sh);
      }
    case _ => SameCoreKeeps(H, n, sh, log, CarryingStep(sh, log, n, p, o, step).sh);
  }

  lemma EntryPreserves(H: HashFunction, sh: Shared, log: History, n: nat, p: Process, entry: EntryStep)
    requires SharedInv(H, sh, log) && p.Worker? && p.pc == Entering(entry) && WorkerInv(H, sh, log, n, p)
    ensures Preserves(H, n, sh, log, EntryStepOf(sh, log, n, p, entry))
  {
    hide Keeps, GateInv, ProofInv, BuilderInv, SnapshotInv;
    if entry.Acquire? {
      AcquireKeeps(H, n, sh, log, p.id);
    } else {
      SameCoreKeeps(H, n, sh, log, sh);
    }
  }

  lemma SavePreserves(H: HashFunction, sh: Shared, log: History, n: nat, p: Process, o: Outcome)
    requires SharedInv(H, sh, log) && p.Worker? && p.pc == Save(o) && WorkerInv(H, sh, log, n, p)
    ensures Preserves(H, n, sh, log, SaveStep(sh, log, n, p, o))
  {
    hide Keeps;
    if p.leaseLost {
      SameCoreKeeps(H, n, sh, log, sh);
    } else {
      SaveKeeps(H, n, sh, log, p.id, o);
    }
  }

  lemma WorkerPreserves(H: HashFunction, sh: Shared, log: History, n: nat, p: Process, c: Choice)
    requires SharedInv(H, sh, log) && p.Worker? && WorkerInv(H, sh, log, n, p)
    ensures Preserves(H, n, sh, log, WorkerStep(H, sh, log, n, p, c))
  {
    hide Keeps;
    match p.pc
    case Entering(entry) => EntryPreserves(H, sh, log, n, p, entry);
    case Working(_) => WorkPreserves(H, sh, log, n, p, c);
    case Save(o) => SavePreserves(H, sh, log, n, p, o);
    case Carrying(o, step) => CarryingPreserves(H, sh, log, n, p, o, step);
    case Abandon => ReleaseKeeps(H, n, sh, log, p.id);
    case Ended => SameCoreKeeps(H, n, sh, log, sh);
  }

  lemma HumanPreserves(H: HashFunction, sh: Shared, log: History, n: nat, p: Process, c: Choice)
    requires SharedInv(H, sh, log) && !p.Worker? && ProcessInv(H, sh, log, n, p)
    ensures Preserves(H, n, sh, log, ProcessStep(H, sh, log, n, p, c))
  {
    hide Keeps, ProofInv, BuilderInv, SnapshotInv;
    match p
    case Confirming(step) =>
      if step.WinGate? && !sh.planGate {
        PlanGateKeeps(H, n, sh, log);
      } else if step.QueuePlanner? {
        EnqueueKeeps(H, n, sh, log, Identity(Planner, 0));
        SameCoreKeeps(H, n, sh, log, sh);
      } else {
        SameCoreKeeps(H, n, sh, log, ConfirmingStep(sh, log, p, c).sh);
      }
    case Approving(hash, step) =>
      if step.WriteApproval? {
        ApprovalKeeps(H, n, sh, log, hash);
      } else if step.QueueBuild? {
        EnqueueKeeps(H, n, sh, log, Identity(Build, 0));
      } else {
        SameCoreKeeps(H, n, sh, log, sh);
      }
  }

  // ---- Every reachable state ----

  lemma ActKeepsInv(H: HashFunction, s: System, n: nat, c: Choice)
    requires Inv(H, s) && n in s.procs
    ensures Inv(H, Step(H, s, Act(n, c)))
  {
    var p := s.procs[n];
    if p.Worker? {
      WorkerPreserves(H, s.sh, s.log, n, p, c);
    } else {
      HumanPreserves(H, s.sh, s.log, n, p, c);
    }
    var r := ProcessStep(H, s.sh, s.log, n, p, c);
    forall m | m in s.procs && m != n ensures ProcessInv(H, r.sh, r.log, m, s.procs[m]) {
      GrowthKeepsOthers(H, n, m, s.sh, s.log, r.sh, r.log, s.procs[m]);
    }
  }

  /** A change made by nobody's process keeps the invariant if it keeps the shared one. */
  lemma EnvironmentKeepsInv(H: HashFunction, s: System, sh': Shared, log': History)
    requires Inv(H, s) && Keeps(H, s.next, s.sh, s.log, sh', log')
    requires forall id :: id in sh'.leases ==> sh'.leases[id] < s.next
    ensures Inv(H, s.(sh := sh', log := log'))
  {
    forall m | m in s.procs ensures ProcessInv(H, sh', log', m, s.procs[m]) {
      GrowthKeepsOthers(H, s.next, m, s.sh, s.log, sh', log', s.procs[m]);
    }
  }

  lemma ExpiryKeeps(H: HashFunction, n: nat, sh: Shared, log: History, id: Identity)
    requires SharedInv(H, sh, log)
    ensures Keeps(H, n, sh, log, sh.(leases := sh.leases - {id}), log)
  {
    assert RedisInv(sh.(leases := sh.leases - {id}), log);
  }

  lemma ResearchAgainKeepsInv(H: HashFunction, s: System)
    requires Inv(H, s)
    ensures Inv(H, Step(H, s, ResearchAgain))
  {
    hide Inv, Keeps;
    if CanResearchAgain(s.sh) {
      var again := Identity(Researcher, s.sh.revision + 1);
      var bumped := s.(sh := s.sh.(revision := s.sh.revision + 1));
      SharedOfInv(H, s);
      SameCoreKeeps(H, s.next, s.sh, s.log, bumped.sh);
      EnvironmentKeepsInv(H, s, bumped.sh, s.log);
      SharedOfInv(H, bumped);
      EnqueueKeeps(H, s.next, bumped.sh, s.log, again);
      EnvironmentKeepsInv(H, bumped, Enqueue(bumped.sh, again), s.log.(requested := s.log.requested + {again}));
    }
  }

  lemma SharedOfInv(H: HashFunction, s: System)
    requires Inv(H, s)
    ensures SharedInv(H, s.sh, s.log)
    ensures forall id :: id in s.sh.leases ==> s.sh.leases[id] < s.next
  {
  }

  lemma StepKeepsInv(H: HashFunction, s: System, action: Action)
    requires Inv(H, s)
    ensures Inv(H, Step(H, s, action))
  {
    match action
    case Act(n, c) => if n in s.procs { ActKeepsInv(H, s, n, c); }
    case Expire(id) =>
      ExpiryKeeps(H, s.next, s.sh, s.log, id);
      EnvironmentKeepsInv(H, s, s.sh.(leases := s.sh.leases - {id}), s.log);
    case ResearchAgain => ResearchAgainKeepsInv(H, s);
    case Deliver(id) => if id in s.sh.jobs && id.stage != Researcher { PinningKeepsPipelineJobs(id); }
    case _ =>
  }

  lemma {:induction false} ReachableInv(H: HashFunction, actions: seq<Action>)
    ensures Inv(H, Run(H, actions))
  {
    if actions != [] {
      ReachableInv(H, actions[..|actions| - 1]);
      StepKeepsInv(H, Run(H, actions[..|actions| - 1]), actions[|actions| - 1]);
    }
  }

  // ---- Theorems over every run ----

  /**
   * A run that finished Passed had its plan confirmed, and its one Builder execution ran exactly the
   * package and hash that a human approved: the package is valid in all three proofs, the hash is its
   * canonical hash, and the sandbox reported a created hash that the hash stage recorded.
   */
  lemma {:induction false} PassedIsSound(H: HashFunction, actions: seq<Action>)
    requires Run(H, actions).sh.snapshot.Finished? && Run(H, actions).sh.snapshot.result == Passed
    ensures var s := Run(H, actions);
            && s.log.planConfirmed
            && |s.log.builderRuns| == 1
            && var run := s.log.builderRuns[0];
            && s.sh.gate == Some(Gate(run.pkg, run.hash))
            && s.sh.approval == Some(run.hash)
            && AllValid(run.pkg.triple)
            && run.hash == H(run.pkg)
            && run.result.result == Passed
            && s.sh.buildResult == Some(run.result)
            && exists proof :: proof in s.log.proofs && run.result.sandboxHash == Some(proof.created)
                            && (proof.equal ==> proof.created == run.hash)
  {
    hide Run;
    ReachableInv(H, actions);
    var s := Run(H, actions);
    assert s.log.passedBy.value in s.log.proofs;
  }

  /** A finished Failed run always records a root cause and its type. */
  lemma {:induction false} FailedHasRootCause(H: HashFunction, actions: seq<Action>)
    requires Run(H, actions).sh.snapshot.Finished? && Run(H, actions).sh.snapshot.result == Failed
    ensures Run(H, actions).sh.snapshot.rootCause.Some? && Run(H, actions).sh.snapshot.issueType.Some?
  {
    hide Run;
    ReachableInv(H, actions);
  }

  /** No stage after Researcher is queued, and none has an outcome, unless a plan confirmation won its gate. */
  lemma {:induction false} PlannerWaitsForConfirmation(H: HashFunction, actions: seq<Action>, id: Identity)
    requires id.stage != Researcher
    requires id in Run(H, actions).sh.jobs || id in Run(H, actions).sh.outcomes
    ensures Run(H, actions).log.planConfirmed && InPipeline(id)
  {
    hide Run;
    ReachableInv(H, actions);
  }

  /** The Builder runs at most once, and only for the package and hash recorded and approved by then. */
  lemma {:induction false} BuilderRunsOnceAndApproved(H: HashFunction, actions: seq<Action>, action: Action)
    ensures var s := Run(H, actions);
            var s' := Step(H, s, action);
            s'.log.builderRuns != s.log.builderRuns ==>
              && s.log.builderRuns == []
              && |s'.log.builderRuns| == 1
              && ApprovedRun(s.sh, s'.log.builderRuns[0])
              && AdmitsGate(s'.log.builderRuns[0].pkg, s'.log.builderRuns[0].hash)
  {
    hide Run;
    ReachableInv(H, actions);
    var s := Run(H, actions);
    var s' := Step(H, s, action);
    if s'.log.builderRuns != s.log.builderRuns {
      BuilderStep(H, s, action);
    }
  }

  /** A Build outcome that advances replays the one recorded Builder execution, whichever attempt saved it. */
  lemma {:induction false} BuildReplaysTheRecordedRun(H: HashFunction, actions: seq<Action>)
    requires var outcomes := Run(H, actions).sh.outcomes;
             Identity(Build, 0) in outcomes && outcomes[Identity(Build, 0)].Advance?
    ensures var s := Run(H, actions);
            |s.log.builderRuns| == 1 && s.log.builderRuns[0].result.result == Passed
            && s.sh.buildResult == Some(s.log.builderRuns[0].result)
  {
    hide Run;
    ReachableInv(H, actions);
  }

  lemma BuilderStep(H: HashFunction, s: System, action: Action)
    requires Inv(H, s) && Step(H, s, action).log.builderRuns != s.log.builderRuns
    ensures action.Act? && action.n in s.procs && s.procs[action.n].Worker?
    ensures var p := s.procs[action.n];
            && p.pc.Working? && p.pc.work.Building? && p.pc.work.build.RunBuilder?
            && Step(H, s, action).log.builderRuns
               == s.log.builderRuns + [BuilderRun(p.pc.work.build.pkg, p.pc.work.build.proof.created, action.choice.build)]
            && OwnsBuilder(s.log, action.n)
            && s.sh.gate == Some(Gate(p.pc.work.build.pkg, p.pc.work.build.proof.created))
            && s.sh.approval == Some(p.pc.work.build.proof.created)
  {
    assert ProcessInv(H, s.sh, s.log, action.n, s.procs[action.n]);
  }

  lemma MeasureIsInjective(a: Identity, b: Identity)
    requires InPipeline(a) && InPipeline(b) && ExecutionsLeft(a) == ExecutionsLeft(b)
    ensures a == b
  {
  }

  lemma {:induction false} InjectionBoundsSize(ids: set<Identity>, n: nat)
    requires forall id :: id in ids ==> InPipeline(id) && 1 <= ExecutionsLeft(id) <= n
    ensures |ids| <= n
    decreases n
  {
    hide InPipeline, ExecutionsLeft;
    if n == 0 {
      assert ids == {};
    } else {
      var rest := set id | id in ids && ExecutionsLeft(id) < n;
      InjectionBoundsSize(rest, n - 1);
      if id :| id in ids && ExecutionsLeft(id) == n {
        forall other | other in ids && ExecutionsLeft(other) == n ensures other == id {
          MeasureIsInjective(other, id);
        }
        assert ids == rest + {id};
      } else {
        assert ids == rest;
      }
    }
  }

  /** Over any run at all, at most 18 identities after Researcher are ever queued or executed. */
  lemma {:induction false} AtMostEighteenStages(H: HashFunction, actions: seq<Action>)
    ensures var jobs := set id | id in Run(H, actions).sh.jobs && id.stage != Researcher;
            |jobs| <= MAX_STAGE_EXECUTIONS && Run(H, actions).sh.executed <= Run(H, actions).sh.jobs
  {
    hide Run;
    ReachableInv(H, actions);
    var jobs := set id | id in Run(H, actions).sh.jobs && id.stage != Researcher;
    InjectionBoundsSize(jobs, 18);
  }
}
