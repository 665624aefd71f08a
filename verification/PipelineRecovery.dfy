/**
 * Crash recovery. When attempts and reconcile calls on one identity do not overlap, every run with crashes,
 * throws, expiries and redeliveries records the outcomes and queues the jobs of a crash-free run.
 */
module PipelineRecovery {
  import opened Wrappers
  import opened Stages
  import opened PipelineState
  import opened PipelineMachine
  import opened PipelineFrames
  import opened PipelineSafety
  import opened PipelineLeases
  import opened PipelineRequests

  // ---- The crash-free pipeline ----

  /** Outcomes recorded and jobs requested from outside; every other job follows from an outcome. */
  datatype Spec = Spec(outcomes: map<Identity, Outcome>, requested: set<Identity>)

  datatype SpecAction =
    | Request(id: Identity)
    | Complete(id: Identity, outcome: Outcome)

  /** The job an outcome queues by itself; CreateHash queues none, because Build waits for a human. */
  function QueuedBy(id: Identity, o: Outcome): Option<Identity> {
    match Resolve(id.stage, o, id.iteration)
    case Next(stage, iteration, _) => Some(Identity(stage, iteration))
    case _ => None
  }

  ghost predicate Queued(spec: Spec, id: Identity) {
    id in spec.requested || exists source :: source in spec.outcomes && QueuedBy(source, spec.outcomes[source]) == Some(id)
  }

  /** Research is repeated after the revision before it, planning follows research, and a build a queued hash stage. */
  ghost predicate MayRequest(spec: Spec, id: Identity) {
    match id.stage
    case Researcher => id.iteration > 0 && Identity(Researcher, id.iteration - 1) in spec.outcomes
    case Planner => id.iteration == 0 && ResearchRecorded(spec.outcomes.Keys)
    case Build => id.iteration == 0 && Queued(spec, Identity(CreateHash, 0))
    case _ => false
  }

  /**
   * A stage completes once, when its job is queued, with an outcome its stage can return, and its transition takes
   * effect at the same instant.
   */
  ghost predicate SpecEnabled(spec: Spec, action: SpecAction) {
    match action
    case Request(id) => MayRequest(spec, id)
    case Complete(id, o) => Queued(spec, id) && id !in spec.outcomes && WorkerOutcome(id.stage, o)
  }

  function SpecStep(spec: Spec, action: SpecAction): Spec {
    match action
    case Request(id) => spec.(requested := spec.requested + {id})
    case Complete(id, o) => spec.(outcomes := spec.outcomes[id := o])
  }

  function SpecRun(actions: seq<SpecAction>): Spec {
    if actions == [] then Spec(map[], {Identity(Researcher, 0)})
    else SpecStep(SpecRun(actions[..|actions| - 1]), actions[|actions| - 1])
  }

  ghost predicate CrashFree(actions: seq<SpecAction>) {
    actions == [] || (CrashFree(actions[..|actions| - 1])
                      && SpecEnabled(SpecRun(actions[..|actions| - 1]), actions[|actions| - 1]))
  }

  predicate HasLaterStage(spec: Spec) {
    (exists id :: id in spec.outcomes && id.stage != Researcher)
    || (exists id :: id in spec.requested && id.stage != Researcher)
  }

  ghost predicate SpecInv(spec: Spec) {
    && (HasLaterStage(spec) ==> PLANNER_JOB in spec.requested)
    && (forall id :: id in spec.outcomes ==> WorkerOutcome(id.stage, spec.outcomes[id]))
  }

  lemma QueuedNeedsPlanner(spec: Spec, id: Identity)
    requires SpecInv(spec) && Queued(spec, id) && id.stage != Researcher
    ensures PLANNER_JOB in spec.requested
  {
    if id !in spec.requested {
      var source :| source in spec.outcomes && QueuedBy(source, spec.outcomes[source]) == Some(id);
      assert source.stage != Researcher;
    }
  }

  lemma SpecStepKeepsInv(spec: Spec, action: SpecAction)
    requires SpecInv(spec) && SpecEnabled(spec, action)
    ensures SpecInv(SpecStep(spec, action))
  {
    hide Queued;
    var next := SpecStep(spec, action);
    if action.id.stage != Researcher && action.id != PLANNER_JOB {
      QueuedNeedsPlanner(spec, if action.Complete? then action.id else Identity(CreateHash, 0));
    } else if HasLaterStage(next) && action.id.stage == Researcher {
      assert HasLaterStage(spec);
    } else if action.Complete? && action.id == PLANNER_JOB {
      QueuedNeedsPlanner(spec, action.id);
    }
  }

  /** A crash-free run queues a stage after Researcher only once Planner was requested. */
  lemma {:induction false} LaterStagesFollowPlanner(actions: seq<SpecAction>, id: Identity)
    requires CrashFree(actions) && Queued(SpecRun(actions), id) && id.stage != Researcher
    ensures PLANNER_JOB in SpecRun(actions).requested
  {
    CrashFreeInv(actions);
    QueuedNeedsPlanner(SpecRun(actions), id);
  }

  lemma {:induction false} CrashFreeInv(actions: seq<SpecAction>)
    requires CrashFree(actions)
    ensures SpecInv(SpecRun(actions))
  {
    if actions != [] {
      CrashFreeInv(actions[..|actions| - 1]);
      hide SpecInv, SpecEnabled, SpecStep;
      SpecStepKeepsInv(SpecRun(actions[..|actions| - 1]), actions[|actions| - 1]);
    }
  }

  function Abstract(s: System): Spec {
    Spec(s.sh.outcomes, s.log.requested)
  }

  // ---- Runs whose attempts on one identity do not overlap ----

  predicate Live(p: Process) {
    p.Worker? && !p.pc.Ended?
  }

  predicate NoneLive(s: System, id: Identity) {
    forall n :: n in s.procs && Live(s.procs[n]) ==> s.procs[n].id != id
  }

  /** An attempt or reconcile call starts only while none on its identity is still alive. */
  predicate StartsAlone(s: System, action: Action) {
    match action
    case Deliver(id) => NoneLive(s, Identity(id.stage, StageIteration(id.stage, id.iteration)))
    case Reconcile(id) => NoneLive(s, id)
    case _ => true
  }

  predicate NonOverlapping(H: HashFunction, actions: seq<Action>) {
    actions == [] || (NonOverlapping(H, actions[..|actions| - 1])
                      && StartsAlone(Run(H, actions[..|actions| - 1]), actions[|actions| - 1]))
  }

  // ---- The invariant of such runs ----

  /** The side effect of the transition of `id` has happened. */
  predicate EffectDone(sh: Shared, id: Identity, o: Outcome) {
    match Resolve(id.stage, o, id.iteration)
    case Next(stage, iteration, _) => Identity(stage, iteration) in sh.jobs
    case Done(_, _) => sh.snapshot.Finished? && sh.terminalState == Some(Committed)
    case _ => true
  }

  ghost predicate MarksInv(sh: Shared) {
    forall id :: id in sh.marks ==>
      id in sh.outcomes && (sh.marks[id] == Committed ==> EffectDone(sh, id, sh.outcomes[id]))
  }

  predicate IsRequest(id: Identity) {
    id.stage == Researcher || id == Identity(Planner, 0) || id == Identity(Build, 0)
  }

  ghost predicate JobsInv(sh: Shared, log: History) {
    && (forall id :: id in sh.jobs ==> Queued(Spec(sh.outcomes, log.requested), id))
    && log.requested <= sh.jobs
    && (forall id :: id in log.requested ==> IsRequest(id))
  }

  /** The run is finished once, with the result of the persisted Finalize outcome, and announced at most once. */
  predicate TerminalInv(sh: Shared, log: History) {
    var last := Identity(Finalize, 0);
    && (sh.snapshot.Finished? ==> last in sh.outcomes && sh.snapshot.result == DoneResult(sh.outcomes[last]))
    && log.finishes == (if sh.snapshot.Finished? then 1 else 0)
    && sh.doneEvents <= log.finishes
    && (sh.terminalState == Some(Committed) ==> sh.snapshot.Finished?)
    && IssueInv(sh)
  }

  /** A saved terminal issue is the Finalize outcome's own, and the finished snapshot records what was saved. */
  predicate IssueInv(sh: Shared) {
    var last := Identity(Finalize, 0);
    && (sh.terminalIssue.Some? ==> last in sh.outcomes && sh.terminalIssue.value == DoneIssue(sh.outcomes[last]))
    && (sh.snapshot.Finished? ==>
          && sh.terminalState.Some?
          && sh.snapshot == FinishedSnapshot(sh.snapshot.result, RecordedIssue(sh)))
  }

  /** Once the hash stage is queued the confirmed package is fixed, and every proof and the gate are about it. */
  ghost predicate PackageInv(H: HashFunction, sh: Shared, log: History) {
    && (sh.gate.Some? ==> sh.confirmed == Some(sh.gate.value.pkg) && Identity(CreateHash, 0) in sh.jobs)
    && (forall q :: q in log.proofs ==>
          sh.confirmed.Some? && q.created == H(sh.confirmed.value) && Identity(CreateHash, 0) in sh.jobs)
  }

  ghost predicate RecoveryInv(H: HashFunction, sh: Shared, log: History) {
    MarksInv(sh) && JobsInv(sh, log) && TerminalInv(sh, log) && PackageInv(H, sh, log)
  }

  predicate HashingKnown(H: HashFunction, sh: Shared, work: Work) {
    work.Hashing? ==>
      match work.hash
      case OpenGate(pkg, proof) => sh.confirmed == Some(pkg) && proof.created == H(pkg)
      case CheckGate(pkg, proof) => sh.confirmed == Some(pkg) && proof.created == H(pkg)
      case SaveProof(proof) => sh.confirmed.Some? && proof.created == H(sh.confirmed.value)
      case ReloadProof => true
  }

  predicate FinishKnown(sh: Shared, step: FinishStep) {
    && (step.SaveIssue? || step.ReadIssue? || step.ReadSnapshot? || step.WriteSnapshot? ==> sh.terminalState.Some?)
    && (step.SaveIssue? ==> sh.snapshot.Running?)
    && (step.ReadSnapshot? || step.WriteSnapshot? ==> step.issue == RecordedIssue(sh))
    && (step.WriteSnapshot? ==> step.running == sh.snapshot.Running?)
    && (step.EmitDone? ==> sh.snapshot.Finished? && sh.doneEvents == 0)
    && (step.MarkDone? ==> sh.snapshot.Finished?)
  }

  predicate AttemptInv(H: HashFunction, sh: Shared, p: Process) {
    p.Worker? ==>
      match p.pc
      case Entering(e) => e.CheckCompleted? || e.Acquire? || e.RecheckExecuted? ==> p.id !in sh.outcomes
      case Working(work) => p.id !in sh.outcomes && HashingKnown(H, sh, work)
      case Save(_) => p.id !in sh.outcomes
      case Carrying(o, step) =>
        && p.id in sh.outcomes && sh.outcomes[p.id] == o
        && (step.AddJob? ==> QueuedBy(p.id, o).Some?)
        && (step.WriteCommitted? ==> EffectDone(sh, p.id, o))
        && (step.Finishing? ==> p.id == Identity(Finalize, 0) && FinishKnown(sh, step.finish))
      case Abandon => true
      case Ended => true
  }

  predicate Alone(s: System) {
    forall m, n :: m in s.procs && n in s.procs && m != n && Live(s.procs[m]) && Live(s.procs[n]) ==>
      s.procs[m].id != s.procs[n].id
  }

  ghost predicate NonOverlapInv(H: HashFunction, s: System) {
    && Inv(H, s)
    && RecoveryInv(H, s.sh, s.log)
    && Alone(s)
    && (forall n :: n in s.procs ==> AttemptInv(H, s.sh, s.procs[n]))
  }

  // ---- What process p may change under the feet of attempts on other identities ----

  ghost predicate Respects(p: Process, sh: Shared, sh': Shared) {
    && (forall id :: id in sh.outcomes ==> id in sh'.outcomes && sh'.outcomes[id] == sh.outcomes[id])
    && (forall id :: id in sh'.outcomes && id !in sh.outcomes ==> p.Worker? && p.id == id)
    && sh.jobs <= sh'.jobs
    && (Identity(CreateHash, 0) in sh.jobs ==> sh'.confirmed == sh.confirmed)
    && (!(p.Worker? && p.id == Identity(Finalize, 0)) ==>
          && sh'.snapshot == sh.snapshot && sh'.doneEvents == sh.doneEvents
          && sh'.terminalIssue == sh.terminalIssue && sh'.terminalState == sh.terminalState)
    && (sh.snapshot.Finished? ==> sh'.snapshot == sh.snapshot)
    && (sh.terminalState == Some(Committed) ==> sh'.terminalState == sh.terminalState)
  }

  lemma RespectKeepsOthers(H: HashFunction, p: Process, q: Process, sh: Shared, log: History, n: nat, sh': Shared)
    requires Respects(p, sh, sh') && (Live(p) && Live(q) ==> p.id != q.id) && (p.Worker? ==> Live(p) || sh' == sh)
    requires AttemptInv(H, sh, q) && ProcessInv(H, sh, log, n, q) && RedisInv(sh, log)
    ensures AttemptInv(H, sh', q)
  {
    if q.Worker? && q.pc.Working? && q.pc.work.Hashing? {
      assert InPipeline(q.id);
    }
  }

  ghost predicate Recovers(H: HashFunction, p: Process, sh: Shared, log: History, sh': Shared, log': History) {
    Respects(p, sh, sh') && RecoveryInv(H, sh', log')
  }

  // ---- The writes, one lemma each ----

  predicate SameRecovery(sh: Shared, log: History, sh': Shared, log': History) {
    && sh'.outcomes == sh.outcomes && sh'.marks == sh.marks && sh'.jobs == sh.jobs
    && sh'.snapshot == sh.snapshot && sh'.doneEvents == sh.doneEvents
    && sh'.terminalState == sh.terminalState && sh'.terminalIssue == sh.terminalIssue
    && sh'.confirmed == sh.confirmed && sh'.gate == sh.gate
    && log'.requested == log.requested && log'.finishes == log.finishes && log'.proofs == log.proofs
  }

  lemma SameRecovers(H: HashFunction, p: Process, sh: Shared, log: History, sh': Shared, log': History)
    requires RecoveryInv(H, sh, log) && SameRecovery(sh, log, sh', log')
    ensures Recovers(H, p, sh, log, sh', log')
  {
  }

  lemma TerminalPendingRecovers(H: HashFunction, p: Process, sh: Shared, log: History)
    requires RecoveryInv(H, sh, log) && p.Worker? && p.id == Identity(Finalize, 0)
    ensures Recovers(H, p, sh, log, MarkTerminalPending(sh).0, log)
  {
    var sh' := MarkTerminalPending(sh).0;
    assert JobsInv(sh', log);
    forall i | i in sh'.marks && sh'.marks[i] == Committed ensures EffectDone(sh', i, sh'.outcomes[i]) {
      assert EffectDone(sh, i, sh.outcomes[i]);
    }
  }

  lemma IssueRecovers(H: HashFunction, p: Process, sh: Shared, log: History)
    requires RecoveryInv(H, sh, log) && sh.snapshot.Running?
    requires p.Worker? && p.id == Identity(Finalize, 0) && p.id in sh.outcomes
    ensures Recovers(H, p, sh, log, sh.(terminalIssue := Some(DoneIssue(sh.outcomes[p.id]))), log)
  {
    var sh' := sh.(terminalIssue := Some(DoneIssue(sh.outcomes[p.id])));
    assert MarksInv(sh') && JobsInv(sh', log);
  }

  lemma SaveRecovers(H: HashFunction, p: Process, sh: Shared, log: History, o: Outcome)
    requires RecoveryInv(H, sh, log) && p.Worker? && p.id !in sh.outcomes
    ensures Recovers(H, p, sh, log, SaveExecution(sh, p.id, o, None).0, log)
  {
    var sh' := SaveExecution(sh, p.id, o, None).0;
    forall id | id in sh'.jobs ensures Queued(Spec(sh'.outcomes, log.requested), id) {
      if id !in log.requested {
        var source :| source in sh.outcomes && QueuedBy(source, sh.outcomes[source]) == Some(id);
        assert source in sh'.outcomes && sh'.outcomes[source] == sh.outcomes[source];
      }
    }
  }

  lemma MarkRecovers(H: HashFunction, p: Process, sh: Shared, log: History, id: Identity, mark: Mark)
    requires RecoveryInv(H, sh, log) && id in sh.outcomes
    requires mark == Committed ==> EffectDone(sh, id, sh.outcomes[id])
    ensures Recovers(H, p, sh, log, SetMark(sh, id, mark), log)
  {
    var sh' := SetMark(sh, id, mark);
    forall i | i in sh'.marks && sh'.marks[i] == Committed ensures EffectDone(sh', i, sh'.outcomes[i]) {
      assert EffectDone(sh, i, sh.outcomes[i]);
    }
  }

  lemma EnqueueRecovers(H: HashFunction, p: Process, sh: Shared, log: History, source: Identity, id: Identity)
    requires RecoveryInv(H, sh, log)
    requires source in sh.outcomes && QueuedBy(source, sh.outcomes[source]) == Some(id)
    ensures Recovers(H, p, sh, log, Enqueue(sh, id), log)
  {
    var sh' := Enqueue(sh, id);
    forall j | j in sh'.jobs ensures Queued(Spec(sh'.outcomes, log.requested), j) {
      assert j in sh.jobs ==> Queued(Spec(sh.outcomes, log.requested), j);
    }
  }

  lemma RequestRecovers(H: HashFunction, p: Process, sh: Shared, log: History, id: Identity)
    requires RecoveryInv(H, sh, log) && IsRequest(id)
    ensures Recovers(H, p, sh, log, Enqueue(sh, id), log.(requested := log.requested + {id}))
  {
    var sh', log' := Enqueue(sh, id), log.(requested := log.requested + {id});
    forall j | j in sh'.jobs ensures Queued(Spec(sh'.outcomes, log'.requested), j) {
      if j in sh.jobs && j !in log.requested {
        assert Queued(Spec(sh.outcomes, log.requested), j);
        var source :| source in sh.outcomes && QueuedBy(source, sh.outcomes[source]) == Some(j);
      }
    }
  }

  /** While Confirmation has no outcome, the hash stage is not queued and the package may still change. */
  lemma HashWaitsForConfirmation(sh: Shared, log: History)
    requires RedisInv(sh, log) && JobsInv(sh, log) && Identity(CreateHash, 0) in sh.jobs
    ensures Identity(Confirmation, 0) in sh.outcomes
  {
    var source :| source in sh.outcomes && QueuedBy(source, sh.outcomes[source]) == Some(Identity(CreateHash, 0));
    assert source.stage == Confirmation;
    assert InPipeline(source);
  }

  lemma ConfirmedRecovers(H: HashFunction, p: Process, sh: Shared, log: History, pkg: Package)
    requires RedisInv(sh, log) && RecoveryInv(H, sh, log) && Identity(Confirmation, 0) !in sh.outcomes
    ensures Recovers(H, p, sh, log, sh.(confirmed := Some(pkg)), log)
  {
    if Identity(CreateHash, 0) in sh.jobs {
      HashWaitsForConfirmation(sh, log);
    }
    var sh' := sh.(confirmed := Some(pkg));
    assert MarksInv(sh') && JobsInv(sh', log);
  }

  lemma GateRecovers(H: HashFunction, p: Process, sh: Shared, log: History, gate: Gate)
    requires RecoveryInv(H, sh, log) && sh.confirmed == Some(gate.pkg) && Identity(CreateHash, 0) in sh.jobs
    ensures Recovers(H, p, sh, log, sh.(gate := CreateOnce(sh.gate, gate)), log)
  {
    var sh' := sh.(gate := CreateOnce(sh.gate, gate));
    assert MarksInv(sh') && JobsInv(sh', log);
  }

  lemma ProofRecovers(H: HashFunction, p: Process, sh: Shared, log: History, proof: Proof)
    requires RecoveryInv(H, sh, log) && Identity(CreateHash, 0) in sh.jobs
    requires sh.confirmed.Some? && proof.created == H(sh.confirmed.value)
    ensures Recovers(H, p, sh, log, sh.(proof := Some(proof)), log.(proofs := log.proofs + {proof}))
  {
    var sh', log' := sh.(proof := Some(proof)), log.(proofs := log.proofs + {proof});
    assert MarksInv(sh') && JobsInv(sh', log');
  }

  lemma SnapshotRecovers(H: HashFunction, p: Process, sh: Shared, log: History, issue: Option<Issue>, evidence: Option<Proof>)
    requires RecoveryInv(H, sh, log) && sh.snapshot.Running? && sh.terminalState.Some? && issue == RecordedIssue(sh)
    requires p.Worker? && p.id == Identity(Finalize, 0) && p.id in sh.outcomes
    ensures Recovers(H, p, sh, log, sh.(snapshot := FinishedSnapshot(DoneResult(sh.outcomes[p.id]), issue)),
                     log.(finishes := log.finishes + 1, passedBy := evidence))
  {
    var sh' := sh.(snapshot := FinishedSnapshot(DoneResult(sh.outcomes[p.id]), issue));
    assert JobsInv(sh', log.(finishes := log.finishes + 1, passedBy := evidence));
    forall i | i in sh'.marks && sh'.marks[i] == Committed ensures EffectDone(sh', i, sh'.outcomes[i]) {
      assert EffectDone(sh, i, sh.outcomes[i]);
    }
  }

  lemma DoneEventRecovers(H: HashFunction, p: Process, sh: Shared, log: History)
    requires RecoveryInv(H, sh, log) && sh.snapshot.Finished? && sh.doneEvents == 0
    requires p.Worker? && p.id == Identity(Finalize, 0)
    ensures Recovers(H, p, sh, log, sh.(doneEvents := sh.doneEvents + 1), log)
  {
    var sh' := sh.(doneEvents := sh.doneEvents + 1);
    assert MarksInv(sh') && JobsInv(sh', log);
  }

  lemma MarkDoneRecovers(H: HashFunction, p: Process, sh: Shared, log: History)
    requires RecoveryInv(H, sh, log) && sh.snapshot.Finished?
    requires p.Worker? && p.id == Identity(Finalize, 0)
    ensures Recovers(H, p, sh, log, sh.(terminalState := Some(Committed)), log)
  {
    var sh' := sh.(terminalState := Some(Committed));
    assert JobsInv(sh', log);
    forall i | i in sh'.marks && sh'.marks[i] == Committed ensures EffectDone(sh', i, sh'.outcomes[i]) {
      assert EffectDone(sh, i, sh.outcomes[i]);
    }
  }

  // ---- Every action of an attempt ----

  ghost predicate Continues(H: HashFunction, p: Process, sh: Shared, log: History, r: StepResult) {
    Recovers(H, p, sh, log, r.sh, r.log) && AttemptInv(H, r.sh, r.proc)
  }

  /** What both invariants say about one attempt and the state it acts on. */
  ghost predicate Known(H: HashFunction, sh: Shared, log: History, n: nat, p: Process) {
    && RedisInv(sh, log) && RecoveryInv(H, sh, log)
    && ProcessInv(H, sh, log, n, p) && AttemptInv(H, sh, p)
  }

  lemma HashContinues(H: HashFunction, sh: Shared, log: History, n: nat, p: Process, work: HashWork)
    requires Known(H, sh, log, n, p) && p.Worker? && p.pc == Working(Hashing(work))
    ensures Continues(H, p, sh, log, HashStep(sh, log, p, work))
  {
    hide Recovers;
    assert InPipeline(p.id) && p.id == Identity(CreateHash, 0);
    match work
    case OpenGate(pkg, proof) =>
      if AdmitsGate(pkg, proof.created) {
        GateRecovers(H, p, sh, log, Gate(pkg, proof.created));
      } else {
        SameRecovers(H, p, sh, log, sh, log);
      }
    case SaveProof(proof) => ProofRecovers(H, p, sh, log, proof);
    case _ => SameRecovers(H, p, sh, log, sh, log);
  }

  lemma BuildContinues(H: HashFunction, sh: Shared, log: History, n: nat, p: Process, work: BuildWork, c: Choice)
    requires Known(H, sh, log, n, p) && p.Worker? && p.pc == Working(Building(work))
    ensures Continues(H, p, sh, log, BuildStep(H, sh, log, p, work, c))
  {
    hide Recovers;
    match work
    case RunBuilder(pkg, proof) =>
      SameRecovers(H, p, sh, log, sh, log.(builderRuns := log.builderRuns + [BuilderRun(pkg, proof.created, c.build)]));
    case SaveResult(result) => SameRecovers(H, p, sh, log, sh.(buildResult := Some(result)), log);
    case _ =>
      SameRecovers(H, p, sh, log, sh, log);
      BuildReadsContinue(H, sh, log, p, work, c);
  }

  lemma BuildReadsContinue(H: HashFunction, sh: Shared, log: History, p: Process, work: BuildWork, c: Choice)
    requires p.Worker? && p.pc == Working(Building(work)) && AttemptInv(H, sh, p)
    requires !work.RunBuilder? && !work.SaveResult?
    ensures var r := BuildStep(H, sh, log, p, work, c);
            r.sh == sh && r.log == log && AttemptInv(H, sh, r.proc)
  {
  }

  lemma BeginContinues(H: HashFunction, sh: Shared, log: History, n: nat, p: Process, c: Choice)
    requires Known(H, sh, log, n, p) && p.Worker? && p.pc == Working(Begin)
    ensures Continues(H, p, sh, log, BeginStep(H, sh, log, n, p, c))
  {
    hide Recovers, RedisInv, ProcessInv;
    match p.id.stage
    case Build =>
      SameRecovers(H, p, sh, log, sh.(builderIntent := true), log.(builderOwner := Some(n)));
      SameRecovers(H, p, sh, log, sh, log);
    case TripleValidation => SameRecovers(H, p, sh, log, sh.(triple := Some(c.triple)), log);
    case _ => SameRecovers(H, p, sh, log, sh, log);
  }

  lemma ConfirmedContinues(H: HashFunction, sh: Shared, log: History, n: nat, p: Process, pkg: Package, c: Choice)
    requires Known(H, sh, log, n, p) && p.Worker? && p.pc == Working(SaveConfirmed(pkg))
    ensures Continues(H, p, sh, log, WorkStep(H, sh, log, n, p, c))
  {
    hide Recovers;
    assert InPipeline(p.id) && p.id == Identity(Confirmation, 0);
    ConfirmedRecovers(H, p, sh, log, pkg);
  }

  lemma WorkContinues(H: HashFunction, sh: Shared, log: History, n: nat, p: Process, c: Choice)
    requires Known(H, sh, log, n, p) && p.Worker? && p.pc.Working?
    ensures Continues(H, p, sh, log, WorkStep(H, sh, log, n, p, c))
  {
    hide Recovers, BeginStep, HashStep, BuildStep;
    match p.pc.work
    case Begin => BeginContinues(H, sh, log, n, p, c);
    case SaveConfirmed(pkg) => ConfirmedContinues(H, sh, log, n, p, pkg, c);
    case Hashing(hash) => HashContinues(H, sh, log, n, p, hash);
    case Building(build) => BuildContinues(H, sh, log, n, p, build, c);
    case _ => SameRecovers(H, p, sh, log, sh, log);
  }

  lemma FinishingContinues(H: HashFunction, sh: Shared, log: History, n: nat, p: Process, o: Outcome, step: FinishStep)
    requires Known(H, sh, log, n, p) && p.Worker? && p.pc == Carrying(o, Finishing(step))
    ensures Continues(H, p, sh, log, FinishingStep(sh, log, p, o, step))
  {
    hide Recovers, RedisInv, ProcessInv;
    match step
    case WriteSnapshot(issue, running) => SnapshotContinues(H, sh, log, n, p, o, issue, running);
    case EmitDone => DoneEventRecovers(H, p, sh, log);
    case MarkDone =>
      FinishedEffect(sh.(terminalState := Some(Committed)), p.id, o);
      MarkDoneRecovers(H, p, sh, log);
    case MarkPending => TerminalPendingRecovers(H, p, sh, log);
    case SaveIssue => IssueRecovers(H, p, sh, log);
    case _ =>
      SameRecovers(H, p, sh, log, sh, log);
      FinishingReadsContinue(H, sh, log, p, o, step);
  }

  lemma SnapshotContinues(
    H: HashFunction, sh: Shared, log: History, n: nat, p: Process, o: Outcome, issue: Option<Issue>, running: bool)
    requires Known(H, sh, log, n, p) && p.Worker? && p.pc == Carrying(o, Finishing(WriteSnapshot(issue, running)))
    ensures Continues(H, p, sh, log, FinishingStep(sh, log, p, o, WriteSnapshot(issue, running)))
  {
    hide Recovers, RedisInv, ProcessInv;
    WriteSnapshotAttempt(H, sh, log, p, o, issue, running);
    if running {
      SnapshotRecovers(H, p, sh, log, issue, ProofOf(o));
    } else {
      SameRecovers(H, p, sh, log, sh, log);
    }
  }

  lemma WriteSnapshotAttempt(
    H: HashFunction, sh: Shared, log: History, p: Process, o: Outcome, issue: Option<Issue>, running: bool)
    requires p.Worker? && p.pc == Carrying(o, Finishing(WriteSnapshot(issue, running)))
    requires AttemptInv(H, sh, p) && TerminalInv(sh, log)
    ensures var r := FinishingStep(sh, log, p, o, WriteSnapshot(issue, running));
            AttemptInv(H, r.sh, r.proc) && running == sh.snapshot.Running?
            && p.id == Identity(Finalize, 0) && p.id in sh.outcomes && sh.outcomes[p.id] == o
            && sh.terminalState.Some? && issue == RecordedIssue(sh)
  {
  }

  lemma FinishedEffect(sh: Shared, id: Identity, o: Outcome)
    requires id.stage == Finalize && sh.snapshot.Finished? && sh.terminalState == Some(Committed)
    ensures EffectDone(sh, id, o)
  {
  }

  lemma FinishingReadsContinue(H: HashFunction, sh: Shared, log: History, p: Process, o: Outcome, step: FinishStep)
    requires p.Worker? && p.pc == Carrying(o, Finishing(step)) && AttemptInv(H, sh, p) && TerminalInv(sh, log)
    requires step.ReadState? || step.ReadIssue? || step.ReadSnapshot?
    ensures var r := FinishingStep(sh, log, p, o, step);
            r.sh == sh && r.log == log && AttemptInv(H, sh, r.proc)
  {
    if step.ReadState? && sh.terminalState == Some(Committed) {
      FinishedEffect(sh, p.id, o);
    }
  }

  lemma CarryingContinues(H: HashFunction, sh: Shared, log: History, n: nat, p: Process, o: Outcome, step: CarryStep)
    requires Known(H, sh, log, n, p) && p.Worker? && p.pc == Carrying(o, step)
    ensures Continues(H, p, sh, log, CarryingStep(sh, log, n, p, o, step))
  {
    hide Known, Continues;
    match step
    case Finishing(finish) => FinishingContinues(H, sh, log, n, p, o, finish);
    case WritePending => MarkingContinues(H, sh, log, n, p, o, step);
    case WriteCommitted => MarkingContinues(H, sh, log, n, p, o, step);
    case ApplyEffect => EffectContinues(H, sh, log, n, p, o);
    case AddJob => AddJobContinues(H, sh, log, n, p, o);
    case _ => HandoffContinues(H, sh, log, n, p, o, step);
  }

  lemma MarkingContinues(H: HashFunction, sh: Shared, log: History, n: nat, p: Process, o: Outcome, step: CarryStep)
    requires Known(H, sh, log, n, p) && p.Worker? && p.pc == Carrying(o, step)
    requires step.WritePending? || step.WriteCommitted?
    ensures Continues(H, p, sh, log, CarryingStep(sh, log, n, p, o, step))
  {
    hide Recovers, RedisInv, ProcessInv;
    MarkRecovers(H, p, sh, log, p.id, if step.WritePending? then Pending else Committed);
  }

  lemma HandoffContinues(H: HashFunction, sh: Shared, log: History, n: nat, p: Process, o: Outcome, step: CarryStep)
    requires Known(H, sh, log, n, p) && p.Worker? && p.pc == Carrying(o, step)
    requires step.WriteCompleted? || step.Release? || step.ReadMark?
    ensures Continues(H, p, sh, log, CarryingStep(sh, log, n, p, o, step))
  {
    hide Recovers, RedisInv, ProcessInv;
    match step
    case WriteCompleted => SameRecovers(H, p, sh, log, MarkCompleted(sh, p.id), log);
    case Release => SameRecovers(H, p, sh, log, ReleaseLease(sh, p.id, n).0, log);
    case ReadMark => SameRecovers(H, p, sh, log, sh, log);
  }

  lemma EffectContinues(H: HashFunction, sh: Shared, log: History, n: nat, p: Process, o: Outcome)
    requires Known(H, sh, log, n, p) && p.Worker? && p.pc == Carrying(o, ApplyEffect)
    ensures Continues(H, p, sh, log, CarryingStep(sh, log, n, p, o, ApplyEffect))
  {
    hide Recovers, RedisInv;
    var transition := Resolve(p.id.stage, o, p.id.iteration);
    if transition.Done? {
      FinalizeIsLast(sh, log, p.id, o);
    }
    SameRecovers(H, p, sh, log, SaveFinalization(sh, transition), log);
  }

  lemma AddJobContinues(H: HashFunction, sh: Shared, log: History, n: nat, p: Process, o: Outcome)
    requires Known(H, sh, log, n, p) && p.Worker? && p.pc == Carrying(o, AddJob)
    ensures Continues(H, p, sh, log, CarryingStep(sh, log, n, p, o, AddJob))
  {
    hide Recovers, RedisInv, ProcessInv;
    EnqueueRecovers(H, p, sh, log, p.id, QueuedBy(p.id, o).value);
  }

  lemma FinalizeIsLast(sh: Shared, log: History, id: Identity, o: Outcome)
    requires RedisInv(sh, log) && id in sh.executed && SoundOutcome(sh, log, id, o)
    requires Resolve(id.stage, o, id.iteration).Done?
    ensures id == Identity(Finalize, 0)
  {
    assert id.stage == Finalize && InPipeline(id);
  }

  lemma EntryContinues(H: HashFunction, sh: Shared, log: History, n: nat, p: Process, entry: EntryStep)
    requires Known(H, sh, log, n, p) && p.Worker? && p.pc == Entering(entry)
    ensures Continues(H, p, sh, log, EntryStepOf(sh, log, n, p, entry))
  {
    hide Recovers;
    SameRecovers(H, p, sh, log, EntryStepOf(sh, log, n, p, entry).sh, log);
  }

  lemma SaveContinues(H: HashFunction, sh: Shared, log: History, n: nat, p: Process, o: Outcome)
    requires Known(H, sh, log, n, p) && p.Worker? && p.pc == Save(o)
    ensures Continues(H, p, sh, log, SaveStep(sh, log, n, p, o))
  {
    hide Recovers;
    SaveRecovers(H, p, sh, log, o);
    SameRecovers(H, p, sh, log, sh, log);
  }

  lemma HumanContinues(H: HashFunction, sh: Shared, log: History, n: nat, p: Process, c: Choice)
    requires Known(H, sh, log, n, p) && !p.Worker?
    ensures Continues(H, p, sh, log, ProcessStep(H, sh, log, n, p, c))
  {
    hide Recovers;
    match p
    case Confirming(step) =>
      if step.QueuePlanner? {
        RequestRecovers(H, p, sh, log, Identity(Planner, 0));
        SameRecovers(H, p, sh, log, sh, log);
      } else if step.WinGate? {
        SameRecovers(H, p, sh, log, SetPlanGate(sh).0, log);
        SameRecovers(H, p, sh, log, SetPlanGate(sh).0, log.(planConfirmed := true));
      } else if step.ReopenGate? {
        SameRecovers(H, p, sh, log, sh.(planGate := false), log);
      } else {
        SameRecovers(H, p, sh, log, sh, log);
      }
    case Approving(hash, step) =>
      if step.QueueBuild? {
        RequestRecovers(H, p, sh, log, Identity(Build, 0));
      } else if step.WriteApproval? {
        SameRecovers(H, p, sh, log, sh.(approval := CreateOnce(sh.approval, hash)), log);
      } else {
        SameRecovers(H, p, sh, log, sh, log);
      }
  }

  lemma ProcessContinues(H: HashFunction, sh: Shared, log: History, n: nat, p: Process, c: Choice)
    requires Known(H, sh, log, n, p)
    ensures Continues(H, p, sh, log, ProcessStep(H, sh, log, n, p, c))
  {
    hide Recovers;
    if !p.Worker? {
      HumanContinues(H, sh, log, n, p, c);
    } else {
      match p.pc
      case Entering(entry) => EntryContinues(H, sh, log, n, p, entry);
      case Working(_) => WorkContinues(H, sh, log, n, p, c);
      case Save(o) => SaveContinues(H, sh, log, n, p, o);
      case Carrying(o, step) => CarryingContinues(H, sh, log, n, p, o, step);
      case Abandon => SameRecovers(H, p, sh, log, ReleaseLease(sh, p.id, n).0, log);
      case Ended => SameRecovers(H, p, sh, log, sh, log);
    }
  }

  // ---- Every non-overlapping run ----

  lemma ActContinues(H: HashFunction, s: System, n: nat, c: Choice)
    requires NonOverlapInv(H, s) && n in s.procs
    ensures NonOverlapInv(H, Step(H, s, Act(n, c)))
  {
    var p := s.procs[n];
    ProcessContinues(H, s.sh, s.log, n, p, c);
    StepKeepsInv(H, s, Act(n, c));
    var r := ProcessStep(H, s.sh, s.log, n, p, c);
    EndedStays(H, s.sh, s.log, n, p, c);
    forall m | m in s.procs && m != n ensures AttemptInv(H, r.sh, s.procs[m]) {
      if !Live(s.procs[m]) {
      } else {
        RespectKeepsOthers(H, p, s.procs[m], s.sh, s.log, m, r.sh);
      }
    }
  }

  /** Acting never revives an attempt that has ended and never changes which identity it is on. */
  lemma EndedStays(H: HashFunction, sh: Shared, log: History, n: nat, p: Process, c: Choice)
    ensures var r := ProcessStep(H, sh, log, n, p, c);
            && (p.Worker? <==> r.proc.Worker?)
            && (p.Worker? ==> r.proc.id == p.id)
            && (p.Worker? && p.pc.Ended? ==> r.proc.pc.Ended? && r.sh == sh)
  {
    hide WorkStep, FinishingStep, Resolve;
    if p.Worker? && p.pc.Working? {
      WorkIsFramed(H, sh, log, n, p, c);
    } else if p.Worker? && p.pc.Carrying? && p.pc.carry.Finishing? {
      FinishingIsFramed(sh, log, p, p.pc.outcome, p.pc.carry.finish);
    }
  }

  lemma StartContinues(H: HashFunction, s: System, p: Process)
    requires NonOverlapInv(H, s) && Inv(H, Start(s, p))
    requires p.Worker? ==> NoneLive(s, p.id) && (p.pc == Entering(ReadExecuted) || p.pc == Entering(ReconcileReadExecuted))
    ensures NonOverlapInv(H, Start(s, p))
  {
  }

  /** A throw, a crash or a failed renewal only moves its own attempt, and never back to life. */
  lemma FaultContinues(H: HashFunction, s: System, n: nat, p: Process)
    requires NonOverlapInv(H, s) && n in s.procs && Inv(H, s.(procs := s.procs[n := p]))
    requires p in {Thrown(s.procs[n]), Crashed(s.procs[n])}
          || (p.Worker? && s.procs[n].Worker? && p == s.procs[n].(leaseLost := p.leaseLost))
    ensures NonOverlapInv(H, s.(procs := s.procs[n := p]))
  {
    assert AttemptInv(H, s.sh, p);
    assert Live(p) ==> Live(s.procs[n]) && p.id == s.procs[n].id;
  }

  lemma StepContinues(H: HashFunction, s: System, action: Action)
    requires NonOverlapInv(H, s) && StartsAlone(s, action)
    ensures NonOverlapInv(H, Step(H, s, action))
  {
    hide NonOverlapInv;
    match action
    case Act(n, c) => if n in s.procs { ActContinues(H, s, n, c); }
    case ResearchAgain =>
      InvOf(H, s, action);
      if CanResearchAgain(s.sh) {
        ResearchAgainContinues(H, s);
      }
    case Expire(id) =>
      InvOf(H, s, action);
      ExpiryContinues(H, s, id);
    case Throw(n) =>
      InvOf(H, s, action);
      if n in s.procs { FaultContinues(H, s, n, Thrown(s.procs[n])); }
    case Crash(n) =>
      InvOf(H, s, action);
      if n in s.procs { FaultContinues(H, s, n, Crashed(s.procs[n])); }
    case Renew(n, errored) =>
      InvOf(H, s, action);
      if n in s.procs && HoldsTimer(s.procs[n]) { FaultContinues(H, s, n, Step(H, s, action).procs[n]); }
    case Deliver(id) =>
      InvOf(H, s, action);
      if id in s.sh.jobs {
        StartContinues(H, s, Step(H, s, action).procs[s.next]);
      }
    case Reconcile(id) =>
      InvOf(H, s, action);
      StartContinues(H, s, Worker(id, Entering(ReconcileReadExecuted), false, false));
    case RequestConfirm =>
      InvOf(H, s, action);
      if s.sh.snapshot.Running? { StartContinues(H, s, Confirming(ReadRevision)); }
    case RequestApprove(hash) =>
      InvOf(H, s, action);
      if s.sh.snapshot.Running? { StartContinues(H, s, Approving(hash, ReadRecord)); }
  }

  lemma InvOf(H: HashFunction, s: System, action: Action)
    requires NonOverlapInv(H, s)
    ensures Inv(H, Step(H, s, action))
  {
    StepKeepsInv(H, s, action);
  }

  lemma ExpiryContinues(H: HashFunction, s: System, id: Identity)
    requires NonOverlapInv(H, s) && Inv(H, Step(H, s, Expire(id)))
    ensures NonOverlapInv(H, Step(H, s, Expire(id)))
  {
    var sh' := s.sh.(leases := s.sh.leases - {id});
    SameRecovers(H, Confirming(Confirmed), s.sh, s.log, sh', s.log);
  }

  lemma ResearchAgainContinues(H: HashFunction, s: System)
    requires NonOverlapInv(H, s) && CanResearchAgain(s.sh) && Inv(H, Step(H, s, ResearchAgain))
    ensures NonOverlapInv(H, Step(H, s, ResearchAgain))
  {
    var human := Confirming(Confirmed);
    var again := Identity(Researcher, s.sh.revision + 1);
    var s' := Step(H, s, ResearchAgain);
    RequestRecovers(H, human, s.sh, s.log, again);
    SameRecovers(H, human, Enqueue(s.sh, again), s'.log, s'.sh, s'.log);
    forall m | m in s.procs ensures AttemptInv(H, s'.sh, s.procs[m]) {
      RespectKeepsOthers(H, human, s.procs[m], s.sh, s.log, m, s'.sh);
    }
  }

  lemma {:induction false} NonOverlappingInv(H: HashFunction, actions: seq<Action>)
    requires NonOverlapping(H, actions)
    ensures NonOverlapInv(H, Run(H, actions))
  {
    if actions != [] {
      var before := actions[..|actions| - 1];
      NonOverlappingInv(H, before);
      StepContinues(H, Run(H, before), actions[|actions| - 1]);
    }
  }

  // ---- Crash refinement ----

  /** What an outside observer of outcomes and requests sees of one action; nothing, for a re-driven step. */
  function Observed(s: System, action: Action): seq<SpecAction> {
    match action
    case ResearchAgain => if CanResearchAgain(s.sh) then [Request(Identity(Researcher, s.sh.revision + 1))] else []
    case Act(n, c) =>
      if n !in s.procs then []
      else
        (match s.procs[n]
         case Worker(id, pc, leaseLost, _) =>
           if pc.Save? && !leaseLost && id in s.sh.leases && s.sh.leases[id] == n
           then [Complete(id, pc.result)] else []
         case Confirming(step) =>
           if step.QueuePlanner? && (c.addLands || !c.addFails) then [Request(Identity(Planner, 0))] else []
         case Approving(_, step) => if step.QueueBuild? then [Request(Identity(Build, 0))] else [])
    case _ => []
  }

  function Observations(H: HashFunction, actions: seq<Action>): seq<SpecAction> {
    if actions == [] then []
    else
      var before := actions[..|actions| - 1];
      Observations(H, before) + Observed(Run(H, before), actions[|actions| - 1])
  }

  lemma WorkerRequestsNothing(H: HashFunction, sh: Shared, log: History, n: nat, p: Process, c: Choice)
    requires p.Worker?
    ensures WorkerStep(H, sh, log, n, p, c).log.requested == log.requested
  {
    hide WorkStep, FinishingStep, Resolve;
    if p.pc.Working? {
      WorkIsFramed(H, sh, log, n, p, c);
    } else if p.pc.Carrying? && p.pc.carry.Finishing? {
      FinishingIsFramed(sh, log, p, p.pc.outcome, p.pc.carry.finish);
    }
  }

  lemma ObservedIsExact(H: HashFunction, s: System, action: Action)
    ensures |Observed(s, action)| <= 1
    ensures Abstract(Step(H, s, action))
         == if Observed(s, action) == [] then Abstract(s) else SpecStep(Abstract(s), Observed(s, action)[0])
  {
    if action.Act? && action.n in s.procs {
      var p := s.procs[action.n];
      if p.Worker? {
        OutcomesAreFenced(H, s, action);
        WorkerRequestsNothing(H, s.sh, s.log, action.n, p, action.choice);
        if !p.pc.Save? {
          assert Abstract(Step(H, s, action)) == Abstract(s);
        }
      }
    }
  }

  lemma SpecRunExtends(before: seq<SpecAction>, last: SpecAction)
    ensures SpecRun(before + [last]) == SpecStep(SpecRun(before), last)
    ensures CrashFree(before + [last]) == (CrashFree(before) && SpecEnabled(SpecRun(before), last))
  {
    assert (before + [last])[..|before|] == before;
  }

  /**
   * Crash refinement. Whatever crashes, throws, lease expiries, retries and reconcile calls a run contains,
   * it records exactly the outcomes, and is asked for exactly the jobs, of a crash-free run, in which every stage
   * completes once with an outcome of its own and every request waits for what it builds on; each action is either
   * one crash-free action or invisible.
   */
  lemma {:induction false} CrashRefinement(H: HashFunction, actions: seq<Action>)
    requires NonOverlapping(H, actions)
    ensures CrashFree(Observations(H, actions))
    ensures SpecRun(Observations(H, actions)) == Abstract(Run(H, actions))
  {
    if actions != [] {
      var before, last := actions[..|actions| - 1], actions[|actions| - 1];
      var s := Run(H, before);
      LastObservation(H, actions);
      hide *;
      CrashRefinement(H, before);
      NonOverlappingInv(H, before);
      ReachableRequests(H, before);
      ObservedIsExact(H, s, last);
      if Observed(s, last) != [] {
        ObservedIsEnabled(H, s, last);
        SpecRunExtends(Observations(H, before), Observed(s, last)[0]);
        assert Observed(s, last) == [Observed(s, last)[0]];
      } else {
        assert Observations(H, actions) == Observations(H, before);
      }
    }
  }

  lemma LastObservation(H: HashFunction, actions: seq<Action>)
    requires actions != [] && NonOverlapping(H, actions)
    ensures var before, last := actions[..|actions| - 1], actions[|actions| - 1];
            && NonOverlapping(H, before)
            && Run(H, actions) == Step(H, Run(H, before), last)
            && Observations(H, actions) == Observations(H, before) + Observed(Run(H, before), last)
  {
    hide Step, Observed, StartsAlone;
  }

  lemma ObservedIsEnabled(H: HashFunction, s: System, action: Action)
    requires NonOverlapInv(H, s) && RequestsInv(s) && Observed(s, action) != []
    ensures SpecEnabled(Abstract(s), Observed(s, action)[0])
  {
    hide Queued;
    if action.Act? && !s.procs[action.n].Worker? {
      assert ProcessInv(H, s.sh, s.log, action.n, s.procs[action.n]) && ConfirmKnown(s.sh, s.procs[action.n]);
    }
    if action.Act? && s.procs[action.n].Worker? {
      assert ProcessInv(H, s.sh, s.log, action.n, s.procs[action.n]);
      assert AttemptInv(H, s.sh, s.procs[action.n]);
    }
  }

  /** Every job in the queue is one the crash-free run queues too. */
  lemma {:induction false} JobsAreCrashFreeJobs(H: HashFunction, actions: seq<Action>, id: Identity)
    requires NonOverlapping(H, actions) && id in Run(H, actions).sh.jobs
    ensures Queued(SpecRun(Observations(H, actions)), id)
  {
    hide Run;
    NonOverlappingInv(H, actions);
    CrashRefinement(H, actions);
  }

  /** Once every executed stage has a committed transition, the queue holds exactly the crash-free jobs. */
  lemma {:induction false} SettledJobsAreExact(H: HashFunction, actions: seq<Action>, id: Identity)
    requires NonOverlapping(H, actions)
    requires forall i :: i in Run(H, actions).sh.executed ==>
               i in Run(H, actions).sh.marks && Run(H, actions).sh.marks[i] == Committed
    ensures id in Run(H, actions).sh.jobs <==> Queued(SpecRun(Observations(H, actions)), id)
  {
    hide Run;
    NonOverlappingInv(H, actions);
    CrashRefinement(H, actions);
    var s := Run(H, actions);
    if Queued(Abstract(s), id) && id !in s.log.requested {
      var source :| source in s.sh.outcomes && QueuedBy(source, s.sh.outcomes[source]) == Some(id);
      assert EffectDone(s.sh, source, s.sh.outcomes[source]);
    }
  }

  /** Once recorded, an outcome never changes, and no attempt executes that stage again. */
  lemma {:induction false} OutcomesAreFinal(H: HashFunction, actions: seq<Action>, action: Action, id: Identity)
    requires NonOverlapping(H, actions) && id in Run(H, actions).sh.outcomes
    ensures var s' := Step(H, Run(H, actions), action);
            id in s'.sh.outcomes && s'.sh.outcomes[id] == Run(H, actions).sh.outcomes[id]
    ensures forall n :: n in Run(H, actions).procs ==>
              var p := Run(H, actions).procs[n];
              (p.Worker? && p.id == id ==> !p.pc.Working? && !p.pc.Save?)
  {
    hide Run;
    NonOverlappingInv(H, actions);
    var s := Run(H, actions);
    OutcomesAreFenced(H, s, action);
    assert forall n :: n in s.procs ==> AttemptInv(H, s.sh, s.procs[n]);
  }

  /**
   * Terminalization happens once: the snapshot is finished by one write with the result of the persisted
   * Finalize outcome and never changes again, and Done is announced at most once.
   */
  lemma {:induction false} RunFinishesOnce(H: HashFunction, actions: seq<Action>, action: Action)
    requires NonOverlapping(H, actions) && StartsAlone(Run(H, actions), action)
    ensures var s := Run(H, actions);
            && s.log.finishes <= 1 && s.sh.doneEvents <= s.log.finishes
            && (s.sh.terminalState == Some(Committed) ==> s.log.finishes == 1)
            && (s.sh.snapshot.Finished? <==> s.log.finishes == 1)
            && (s.sh.snapshot.Finished? ==>
                  && Identity(Finalize, 0) in s.sh.outcomes
                  && (s.sh.snapshot.result == Failed <==> s.sh.outcomes[Identity(Finalize, 0)].Terminal?)
                  && Step(H, s, action).sh.snapshot == s.sh.snapshot)
  {
    hide Run;
    NonOverlappingInv(H, actions);
    var s := Run(H, actions);
    if s.sh.snapshot.Finished? {
      SnapshotIsFinal(H, s, action);
    }
  }

  /**
   * markTerminalPending writes its state and its issue in two steps. Without overlap the finished snapshot has the
   * result of the persisted Finalize outcome; of a failed one it carries the evidence and type exactly when the second
   * write happened.
   */
  lemma {:induction false} WithoutOverlapTheSnapshotIsDetermined(H: HashFunction, actions: seq<Action>)
    requires NonOverlapping(H, actions) && Run(H, actions).sh.snapshot.Finished?
    ensures var sh := Run(H, actions).sh;
            && Identity(Finalize, 0) in sh.outcomes
            && var o := sh.outcomes[Identity(Finalize, 0)];
            && (o.Terminal? || o.Advance?)
            && (sh.snapshot.result == Failed <==> o.Terminal?)
            && (o.Advance? ==> sh.snapshot.rootCause.None? && sh.snapshot.issueType.None?)
            && (o.Terminal? && sh.terminalIssue.Some? ==>
                  sh.snapshot.rootCause == Some(o.issue.evidence) && sh.snapshot.issueType == Some(o.issue.issueType))
            && (o.Terminal? && sh.terminalIssue.None? ==>
                  sh.snapshot.rootCause == Some(ABSENT_EVIDENCE) && sh.snapshot.issueType == Some(RootCause))
  {
    hide Run;
    NonOverlappingInv(H, actions);
    FinalizeOutcomeIsSound(Run(H, actions).sh, Run(H, actions).log);
  }

  lemma FinalizeOutcomeIsSound(sh: Shared, log: History)
    requires RedisInv(sh, log) && Identity(Finalize, 0) in sh.outcomes
    ensures sh.outcomes[Identity(Finalize, 0)].Terminal? || sh.outcomes[Identity(Finalize, 0)].Advance?
  {
    assert SoundOutcome(sh, log, Identity(Finalize, 0), sh.outcomes[Identity(Finalize, 0)]);
  }

  lemma FinishingKeepsIssue(sh: Shared, log: History, p: Process, o: Outcome, step: FinishStep)
    requires p.Worker? && sh.terminalIssue.Some?
    ensures FinishingStep(sh, log, p, o, step).sh.terminalIssue.Some?
  {
  }

  lemma SavedIssueStays(H: HashFunction, s: System, action: Action)
    requires s.sh.terminalIssue.Some?
    ensures Step(H, s, action).sh.terminalIssue.Some?
  {
    hide WorkStep, FinishingStep;
    if action.Act? && action.n in s.procs && s.procs[action.n].Worker? {
      var p := s.procs[action.n];
      if p.pc.Working? {
        WorkIsFramed(H, s.sh, s.log, action.n, p, action.choice);
      } else if p.pc.Carrying? && p.pc.carry.Finishing? {
        FinishingKeepsIssue(s.sh, s.log, p, p.pc.outcome, p.pc.carry.finish);
      }
    }
  }

  /**
   * What a reader of the terminal issue gets: none, or the issue of the persisted Finalize outcome and no other
   * attempt's; and once saved it never changes.
   */
  lemma {:induction false} SavedIssueIsFinal(H: HashFunction, actions: seq<Action>, action: Action)
    requires NonOverlapping(H, actions) && StartsAlone(Run(H, actions), action)
    ensures var sh := Run(H, actions).sh;
            RecordedIssue(sh).Some? ==>
              && Identity(Finalize, 0) in sh.outcomes
              && sh.outcomes[Identity(Finalize, 0)] == Terminal(RecordedIssue(sh).value)
    ensures var s := Run(H, actions);
            s.sh.terminalIssue.Some? ==> RecordedIssue(Step(H, s, action).sh) == RecordedIssue(s.sh)
  {
    hide Run, Step, StartsAlone;
    NonOverlappingInv(H, actions);
    var s := Run(H, actions);
    if s.sh.terminalIssue.Some? {
      var last := Identity(Finalize, 0);
      StepContinues(H, s, action);
      SavedIssueStays(H, s, action);
      OutcomesAreFinal(H, actions, action, last);
    }
  }

  lemma SnapshotIsFinal(H: HashFunction, s: System, action: Action)
    requires NonOverlapInv(H, s) && s.sh.snapshot.Finished?
    ensures Step(H, s, action).sh.snapshot == s.sh.snapshot
  {
    if action.Act? && action.n in s.procs {
      var p := s.procs[action.n];
      assert ProcessInv(H, s.sh, s.log, action.n, p) && AttemptInv(H, s.sh, p);
      ProcessContinues(H, s.sh, s.log, action.n, p, action.choice);
    }
  }

  /** In a Passed run the sandbox hash is the very hash a human approved. */
  lemma {:induction false} PassedHashIsTheApprovedHash(H: HashFunction, actions: seq<Action>)
    requires NonOverlapping(H, actions)
    requires Run(H, actions).sh.snapshot.Finished? && Run(H, actions).sh.snapshot.result == Passed
    ensures var s := Run(H, actions);
            && s.sh.approval.Some? && s.sh.gate.Some? && s.sh.buildResult.Some?
            && s.sh.buildResult.value.sandboxHash == s.sh.approval
            && s.sh.approval.value == H(s.sh.gate.value.pkg)
            && s.sh.confirmed == Some(s.sh.gate.value.pkg)
  {
    hide Run;
    PassedIsSound(H, actions);
    NonOverlappingInv(H, actions);
    var s := Run(H, actions);
    var proof :| proof in s.log.proofs && s.sh.buildResult.value.sandboxHash == Some(proof.created);
  }
}
