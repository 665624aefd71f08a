/**
 * The pipeline as a transition system. Worker attempts, reconcile calls and human requests are processes
 * that take one atomic action at a time; any of them can throw or crash between two actions, leases expire
 * at any moment, and jobs are delivered any number of times.
 */
module PipelineMachine {
  import opened Wrappers
  import opened Stages
  import opened PipelineState

  // ---- Where a worker attempt is between two durable actions ----

  datatype HashWork =
    | OpenGate(pkg: Package, proof: Proof)
    | CheckGate(pkg: Package, proof: Proof)
    | SaveProof(proof: Proof)
    | ReloadProof

  datatype BuildWork =
    | Recover
    | LoadPackage
    | LoadProof(pkg: Package)
    | ReadGate(pkg: Package, proof: Proof)
    | ReadApproval(pkg: Package, proof: Proof, gate: Gate)
    | ReadGateAgain(pkg: Package, proof: Proof, gate: Gate)
    | RunBuilder(pkg: Package, proof: Proof)
    | SaveResult(result: BuildResult)
    | ReloadResult

  datatype FinalizeWork =
    | LoadFinalProof
    | LoadFinalBuild(proof: Proof)

  datatype Work =
    | Begin
    | ReloadTriple
    | SaveConfirmed(pkg: Package)
    | Hashing(hash: HashWork)
    | Building(build: BuildWork)
    | Finalizing(final: FinalizeWork)

  /** Before the lease: the executed marker, the persisted outcome, the lease itself. */
  datatype EntryStep =
    | ReconcileReadExecuted
    | ReconcileReadMark
    | ReadExecuted
    | LoadOutcome
    | CheckCompleted
    | Acquire
    | RecheckExecuted

  datatype FinishStep =
    | ReadState
    | MarkPending
    | SaveIssue
    | ReadIssue
    | ReadSnapshot(issue: Option<Issue>)
    | WriteSnapshot(issue: Option<Issue>, running: bool)
    | EmitDone
    | MarkDone

  /** After the outcome is known: the completion marker, the release, and the durable transition. */
  datatype CarryStep =
    | WriteCompleted
    | Release
    | ReadMark
    | WritePending
    | ApplyEffect
    | AddJob
    | Finishing(finish: FinishStep)
    | WriteCommitted

  datatype PC =
    | Entering(entry: EntryStep)
    | Working(work: Work)
    | Save(result: Outcome)
    | Carrying(outcome: Outcome, carry: CarryStep)
    | Abandon
    | Ended

  datatype ConfirmStep =
    | ReadRevision
    | CheckResearch(revision: nat)
    | WinGate
    | QueuePlanner
    | ReopenGate
    | Confirmed

  datatype ApproveStep =
    | ReadRecord
    | ReadConfirmed(gate: Gate)
    | WriteApproval
    | QueueBuild
    | Approved

  /** `stale` remembers whether the lease was granted after the identity had already been executed. */
  datatype Process =
    | Worker(id: Identity, pc: PC, leaseLost: bool, stale: bool)
    | Confirming(cstep: ConfirmStep)
    | Approving(hash: string, astep: ApproveStep)

  datatype BuilderRun = BuilderRun(pkg: Package, hash: string, result: BuildResult)

  /** History the code does not store: what has happened so far, for stating properties of whole runs. */
  datatype History = History(
    planConfirmed: bool,
    requested: set<Identity>,
    builderOwner: Option<nat>,
    builderRuns: seq<BuilderRun>,
    proofs: set<Proof>,
    finishes: nat,
    passedBy: Option<Proof>)

  datatype System = System(sh: Shared, log: History, procs: map<nat, Process>, next: nat)

  /** Everything a step takes from outside: model results, validators, the sandbox, queue failures. */
  datatype Choice = Choice(
    triple: Triple, content: int, equal: bool, build: BuildResult, addFails: bool, addLands: bool)

  datatype Action =
    | Deliver(id: Identity)
    | Reconcile(id: Identity)
    | RequestConfirm
    | RequestApprove(hash: string)
    | ResearchAgain
    | Act(n: nat, choice: Choice)
    | Throw(n: nat)
    | Crash(n: nat)
    | Renew(n: nat, errored: bool)
    | Expire(id: Identity)

  /** `createHash` is the canonical hash of a package. */
  type HashFunction = Package -> string

  datatype StepResult = StepResult(sh: Shared, log: History, proc: Process)

  function Initial(): System {
    System(Submitted(), History(false, {Identity(Researcher, 0)}, None, [], {}, 0, None), map[], 0)
  }

  function SystemIssue(evidence: string): Issue {
    Issue(RootCause, evidence)
  }

  const HASH_MISMATCH: Issue := SystemIssue("hash mismatch")

  // ---- One stage execution, action by action ----

  function At(p: Process, pc: PC): Process
    requires p.Worker?
  {
    p.(pc := pc)
  }

  function WorkStep(H: HashFunction, sh: Shared, log: History, n: nat, p: Process, c: Choice): StepResult
    requires p.Worker?
    requires p.pc.Working?
  {
    match p.pc.work
    case Begin => BeginStep(H, sh, log, n, p, c)
    case ReloadTriple =>
      if sh.triple.None? then StepResult(sh, log, At(p, Abandon))
      else StepResult(sh, log, At(p, Save(
        if sh.triple.value.allValid then Advance(Plain) else Refine(Issue(Missing, "validation failed")))))
    case SaveConfirmed(pkg) => StepResult(sh.(confirmed := Some(pkg)), log, At(p, Save(Advance(Plain))))
    case Hashing(hash) => HashStep(sh, log, p, hash)
    case Building(build) => BuildStep(H, sh, log, p, build, c)
    case Finalizing(final) => FinalizeStep(sh, log, p, final)
  }

  function BeginStep(H: HashFunction, sh: Shared, log: History, n: nat, p: Process, c: Choice): StepResult
    requires p.Worker?
  {
    match p.id.stage
    case TripleValidation => StepResult(sh.(triple := Some(c.triple)), log, At(p, Working(ReloadTriple)))
    case Confirmation =>
      if sh.triple.None? || !sh.triple.value.allValid then StepResult(sh, log, At(p, Abandon))
      else StepResult(sh, log, At(p, Working(SaveConfirmed(Package(c.content, sh.triple.value)))))
    case CreateHash =>
      if sh.confirmed.None? then StepResult(sh, log, At(p, Abandon))
      else
        var pkg := sh.confirmed.value;
        var proof := Proof(H(pkg), c.equal);
        StepResult(sh, log, At(p, Working(Hashing(if c.equal then OpenGate(pkg, proof) else SaveProof(proof)))))
    case Build =>
      var (sh', first) := RecordBuilderIntent(sh);
      if first then StepResult(sh', log.(builderOwner := Some(n)), At(p, Working(Building(LoadPackage))))
      else StepResult(sh', log, At(p, Working(Building(Recover))))
    case Finalize =>
      if sh.finalization.Some? then StepResult(sh, log, At(p, Save(Terminal(sh.finalization.value))))
      else StepResult(sh, log, At(p, Working(Finalizing(LoadFinalProof))))
    case _ => StepResult(sh, log, At(p, Save(Advance(Plain))))
  }

  /** The hash stage after the proof is computed: open the gate, save the proof, judge it. */
  function HashStep(sh: Shared, log: History, p: Process, work: HashWork): StepResult
    requires p.Worker?
  {
    var throws := StepResult(sh, log, At(p, Abandon));
    match work
    case OpenGate(pkg, proof) =>
      if !AdmitsGate(pkg, proof.created) then throws
      else StepResult(sh.(gate := CreateOnce(sh.gate, Gate(pkg, proof.created))), log,
                      At(p, Working(Hashing(CheckGate(pkg, proof)))))
    case CheckGate(pkg, proof) =>
      if sh.gate != Some(Gate(pkg, proof.created)) then throws
      else StepResult(sh, log, At(p, Working(Hashing(SaveProof(proof)))))
    case SaveProof(proof) =>
      StepResult(sh.(proof := Some(proof)), log.(proofs := log.proofs + {proof}), At(p, Working(Hashing(ReloadProof))))
    case ReloadProof =>
      if sh.proof.None? then throws
      else StepResult(sh, log, At(p, Save(
        if sh.proof.value.equal then Advance(Plain) else Terminal(HASH_MISMATCH))))
  }

  /** The build stage after the once-only intent: authorize, run the Builder, record what it returned. */
  function BuildStep(H: HashFunction, sh: Shared, log: History, p: Process, work: BuildWork, c: Choice): StepResult
    requires p.Worker?
  {
    var throws := StepResult(sh, log, At(p, Abandon));
    match work
    case Recover =>
      StepResult(sh, log, At(p, Save(
        if sh.buildResult.None? then Terminal(SystemIssue("Builder execution outcome is uncertain"))
        else if sh.buildResult.value.result == Passed then Advance(Plain)
        else Terminal(SystemIssue("Recovered failed Builder evidence")))))
    case LoadPackage =>
      if sh.confirmed.None? then throws
      else StepResult(sh, log, At(p, Working(Building(LoadProof(sh.confirmed.value)))))
    case LoadProof(pkg) =>
      if sh.proof.None? then throws
      else StepResult(sh, log, At(p, Working(Building(ReadGate(pkg, sh.proof.value)))))
    case ReadGate(pkg, proof) =>
      if sh.gate.None? then throws
      else StepResult(sh, log, At(p, Working(Building(ReadApproval(pkg, proof, sh.gate.value)))))
    case ReadApproval(pkg, proof, gate) =>
      if sh.approval != Some(gate.hash) || gate.hash != proof.created then throws
      else StepResult(sh, log, At(p, Working(Building(ReadGateAgain(pkg, proof, gate)))))
    case ReadGateAgain(pkg, proof, gate) =>
      if sh.gate.None? || sh.gate.value.pkg != pkg || H(pkg) != proof.created then throws
      else StepResult(sh, log, At(p, Working(Building(RunBuilder(pkg, proof)))))
    case RunBuilder(pkg, proof) =>
      StepResult(sh, log.(builderRuns := log.builderRuns + [BuilderRun(pkg, proof.created, c.build)]),
                 At(p, Working(Building(SaveResult(c.build)))))
    case SaveResult(result) =>
      StepResult(sh.(buildResult := Some(result)), log, At(p, Working(Building(ReloadResult))))
    case ReloadResult =>
      if sh.buildResult.None? then throws
      else StepResult(sh, log, At(p, Save(
        if sh.buildResult.value.result == Passed then Advance(Plain)
        else Terminal(SystemIssue("Build verification failed")))))
  }

  /** The finalize stage when no failed finalization was requested: compare the two hashes. */
  function FinalizeStep(sh: Shared, log: History, p: Process, work: FinalizeWork): StepResult
    requires p.Worker?
  {
    match work
    case LoadFinalProof =>
      if sh.proof.None? then StepResult(sh, log, At(p, Abandon))
      else StepResult(sh, log, At(p, Working(Finalizing(LoadFinalBuild(sh.proof.value)))))
    case LoadFinalBuild(proof) =>
      if sh.buildResult.None? then StepResult(sh, log, At(p, Abandon))
      else StepResult(sh, log, At(p, Save(
        if sh.buildResult.value.result != Passed || sh.buildResult.value.sandboxHash != Some(proof.created)
        then Terminal(SystemIssue("Finalize hash verification failed"))
        else Advance(Verified(proof)))))
  }

  // ---- Terminalization ----

  function DoneResult(outcome: Outcome): TestResult {
    if outcome.Terminal? then Failed else Passed
  }

  function DoneIssue(outcome: Outcome): Option<Issue> {
    if outcome.Terminal? then Some(outcome.issue) else None
  }

  function ProofOf(outcome: Outcome): Option<Proof> {
    if outcome.Advance? && outcome.report.Verified? then Some(outcome.report.proof) else None
  }

  function RecordedIssue(sh: Shared): Option<Issue> {
    if sh.terminalIssue.Some? then sh.terminalIssue.value else None
  }

  function FinishingStep(sh: Shared, log: History, p: Process, o: Outcome, step: FinishStep): StepResult
    requires p.Worker?
  {
    match step
    case ReadState =>
      StepResult(sh, log, At(p, Carrying(o,
        if sh.terminalState.None? then Finishing(MarkPending)
        else if sh.terminalState.value.Pending? then Finishing(ReadIssue)
        else WriteCommitted)))
    case MarkPending =>
      var (sh', won) := MarkTerminalPending(sh);
      StepResult(sh', log, At(p, Carrying(o, Finishing(if won then SaveIssue else ReadIssue))))
    case SaveIssue =>
      StepResult(sh.(terminalIssue := Some(DoneIssue(o))), log,
                 At(p, Carrying(o, Finishing(ReadSnapshot(DoneIssue(o))))))
    case ReadIssue =>
      StepResult(sh, log, At(p, Carrying(o, Finishing(ReadSnapshot(RecordedIssue(sh))))))
    case ReadSnapshot(issue) =>
      StepResult(sh, log, At(p, Carrying(o, Finishing(WriteSnapshot(issue, sh.snapshot.Running?)))))
    case WriteSnapshot(issue, running) =>
      if !running then StepResult(sh, log, At(p, Carrying(o, Finishing(MarkDone))))
      else StepResult(sh.(snapshot := FinishedSnapshot(DoneResult(o), issue)),
                      log.(finishes := log.finishes + 1, passedBy := ProofOf(o)),
                      At(p, Carrying(o, Finishing(EmitDone))))
    case EmitDone =>
      StepResult(sh.(doneEvents := sh.doneEvents + 1), log, At(p, Carrying(o, Finishing(MarkDone))))
    case MarkDone =>
      StepResult(sh.(terminalState := Some(Committed)), log, At(p, Carrying(o, WriteCommitted)))
  }

  // ---- After the outcome: completion marker, release, and the pending/effect/committed transition ----

  function CarryingStep(sh: Shared, log: History, n: nat, p: Process, o: Outcome, step: CarryStep): StepResult
    requires p.Worker?
  {
    var transition := Resolve(p.id.stage, o, p.id.iteration);
    match step
    case WriteCompleted => StepResult(MarkCompleted(sh, p.id), log, At(p, Carrying(o, Release)))
    case Release => StepResult(ReleaseLease(sh, p.id, n).0, log, At(p, Carrying(o, ReadMark)))
    case ReadMark =>
      StepResult(sh, log, At(p,
        if p.id !in sh.marks then Carrying(o, WritePending)
        else if sh.marks[p.id] == Committed then Ended
        else Carrying(o, ApplyEffect)))
    case WritePending => StepResult(SetMark(sh, p.id, Pending), log, At(p, Carrying(o, ApplyEffect)))
    case ApplyEffect => StepResult(SaveFinalization(sh, transition), log, At(p, Carrying(o, EffectOf(transition))))
    case AddJob =>
      if transition.Next?
      then StepResult(Enqueue(sh, Identity(transition.stage, transition.iteration)), log, At(p, Carrying(o, WriteCommitted)))
      else StepResult(sh, log, At(p, Carrying(o, WriteCommitted)))
    case Finishing(finish) => FinishingStep(sh, log, p, o, finish)
    case WriteCommitted => StepResult(SetMark(sh, p.id, Committed), log, At(p, Ended))
  }

  function SaveFinalization(sh: Shared, transition: Transition): Shared {
    if transition.Next? && transition.finalization.Some? then sh.(finalization := transition.finalization) else sh
  }

  /** The side effect a transition needs: a job, the terminal writes, or only a notice to a human. */
  function EffectOf(transition: Transition): CarryStep {
    if transition.Next? then AddJob else if transition.Done? then Finishing(ReadState) else WriteCommitted
  }

  // ---- runStage and reconcileStage up to the lease ----

  function EntryStepOf(sh: Shared, log: History, n: nat, p: Process, entry: EntryStep): StepResult
    requires p.Worker?
  {
    match entry
    case ReconcileReadExecuted =>
      StepResult(sh, log, At(p, if p.id in sh.executed then Entering(ReconcileReadMark) else Ended))
    case ReconcileReadMark =>
      StepResult(sh, log, At(p,
        if p.id in sh.marks && sh.marks[p.id] == Committed then Ended else Entering(LoadOutcome)))
    case ReadExecuted =>
      StepResult(sh, log, At(p, Entering(if p.id in sh.executed then LoadOutcome else CheckCompleted)))
    case LoadOutcome =>
      StepResult(sh, log, At(p, if p.id in sh.outcomes then Carrying(sh.outcomes[p.id], ReadMark) else Ended))
    case CheckCompleted =>
      StepResult(sh, log, At(p, Entering(if AcquireSeesCompleted(sh, p.id) then RecheckExecuted else Acquire)))
    case Acquire =>
      var (sh', won) := AcquireLease(sh, p.id, n);
      if won then StepResult(sh', log, p.(pc := Working(Begin), stale := p.id in sh.executed))
      else StepResult(sh', log, At(p, Entering(RecheckExecuted)))
    case RecheckExecuted =>
      StepResult(sh, log, At(p, if p.id in sh.executed then Entering(LoadOutcome) else Ended))
  }

  function SaveStep(sh: Shared, log: History, n: nat, p: Process, o: Outcome): StepResult
    requires p.Worker?
  {
    if p.leaseLost then StepResult(sh, log, At(p, Abandon))
    else
      var (sh', ok) := SaveExecution(sh, p.id, o, Some(n));
      StepResult(sh', log, At(p, if ok then Carrying(o, WriteCompleted) else Abandon))
  }

  function WorkerStep(H: HashFunction, sh: Shared, log: History, n: nat, p: Process, c: Choice): StepResult
    requires p.Worker?
  {
    match p.pc
    case Entering(entry) => EntryStepOf(sh, log, n, p, entry)
    case Working(_) => WorkStep(H, sh, log, n, p, c)
    case Save(o) => SaveStep(sh, log, n, p, o)
    case Carrying(o, step) => CarryingStep(sh, log, n, p, o, step)
    case Abandon => StepResult(ReleaseLease(sh, p.id, n).0, log, At(p, Ended))
    case Ended => StepResult(sh, log, p)
  }

  // ---- The two human gates ----

  function ConfirmingStep(sh: Shared, log: History, p: Process, c: Choice): StepResult
    requires p.Confirming?
  {
    var planner := Identity(Planner, 0);
    match p.cstep
    case ReadRevision => StepResult(sh, log, p.(cstep := CheckResearch(sh.revision)))
    case CheckResearch(revision) =>
      StepResult(sh, log, p.(cstep :=
        if CompletedKey(StageName(Researcher), revision) in sh.completed then WinGate else Confirmed))
    case WinGate =>
      var (sh', won) := SetPlanGate(sh);
      if won then StepResult(sh', log.(planConfirmed := true), p.(cstep := QueuePlanner))
      else StepResult(sh', log, p.(cstep := Confirmed))
    case QueuePlanner =>
      if c.addFails && !c.addLands then StepResult(sh, log, p.(cstep := ReopenGate))
      else StepResult(Enqueue(sh, planner), log.(requested := log.requested + {planner}),
                      p.(cstep := if c.addFails then ReopenGate else Confirmed))
    case ReopenGate => StepResult(sh.(planGate := false), log, p.(cstep := Confirmed))
    case Confirmed => StepResult(sh, log, p)
  }

  function ApprovingStep(sh: Shared, log: History, p: Process): StepResult
    requires p.Approving?
  {
    var build := Identity(Build, 0);
    match p.astep
    case ReadRecord =>
      StepResult(sh, log, p.(astep :=
        if sh.gate.Some? && sh.gate.value.hash == p.hash then ReadConfirmed(sh.gate.value) else Approved))
    case ReadConfirmed(gate) =>
      StepResult(sh, log, p.(astep := if sh.confirmed == Some(gate.pkg) then WriteApproval else Approved))
    case WriteApproval =>
      StepResult(sh.(approval := CreateOnce(sh.approval, p.hash)), log, p.(astep := QueueBuild))
    case QueueBuild =>
      StepResult(Enqueue(sh, build), log.(requested := log.requested + {build}), p.(astep := Approved))
    case Approved => StepResult(sh, log, p)
  }

  function ProcessStep(H: HashFunction, sh: Shared, log: History, n: nat, p: Process, c: Choice): StepResult {
    match p
    case Worker(_, _, _, _) => WorkerStep(H, sh, log, n, p, c)
    case Confirming(_) => ConfirmingStep(sh, log, p, c)
    case Approving(_, _) => ApprovingStep(sh, log, p)
  }

  // ---- The whole system ----

  function Start(s: System, p: Process): System {
    s.(procs := s.procs[s.next := p], next := s.next + 1)
  }

  /** A stage execution that throws passes through `finally`; any other throw just ends the attempt. */
  function Thrown(p: Process): Process {
    match p
    case Worker(_, pc, _, _) =>
      At(p, if pc.Working? || pc.Save? || (pc.Carrying? && pc.carry.WriteCompleted?) then Abandon else Ended)
    case Confirming(step) => p.(cstep := if step.QueuePlanner? then ReopenGate else Confirmed)
    case Approving(_, _) => p.(astep := Approved)
  }

  function Crashed(p: Process): Process {
    match p
    case Worker(_, _, _, _) => At(p, Ended)
    case Confirming(_) => p.(cstep := Confirmed)
    case Approving(_, _) => p.(astep := Approved)
  }

  /** The renewal timer runs from the acquisition until the release. */
  predicate HoldsTimer(p: Process) {
    && p.Worker?
    && match p.pc
       case Working(_) => true
       case Save(_) => true
       case Carrying(_, step) => step.WriteCompleted? || step.Release?
       case Abandon => true
       case _ => false
  }

  predicate CanResearchAgain(sh: Shared) {
    && sh.snapshot.Running?
    && CompletedKey(StageName(Researcher), sh.revision) in sh.completed
    && !sh.planGate
  }

  /** One action. An action that is not enabled leaves the system as it is. */
  function Step(H: HashFunction, s: System, action: Action): System {
    match action
    case Deliver(id) =>
      if id in s.sh.jobs
      then Start(s, Worker(Identity(id.stage, StageIteration(id.stage, id.iteration)), Entering(ReadExecuted), false, false))
      else s
    case Reconcile(id) => Start(s, Worker(id, Entering(ReconcileReadExecuted), false, false))
    case RequestConfirm => if s.sh.snapshot.Running? then Start(s, Confirming(ReadRevision)) else s
    case RequestApprove(hash) => if s.sh.snapshot.Running? then Start(s, Approving(hash, ReadRecord)) else s
    case ResearchAgain =>
      if !CanResearchAgain(s.sh) then s
      else
        var again := Identity(Researcher, s.sh.revision + 1);
        s.(sh := Enqueue(s.sh, again).(revision := s.sh.revision + 1),
           log := s.log.(requested := s.log.requested + {again}))
    case Act(n, c) =>
      if n !in s.procs then s
      else
        var r := ProcessStep(H, s.sh, s.log, n, s.procs[n], c);
        s.(sh := r.sh, log := r.log, procs := s.procs[n := r.proc])
    case Throw(n) => if n !in s.procs then s else s.(procs := s.procs[n := Thrown(s.procs[n])])
    case Crash(n) => if n !in s.procs then s else s.(procs := s.procs[n := Crashed(s.procs[n])])
    case Renew(n, errored) =>
      if n !in s.procs || !HoldsTimer(s.procs[n]) then s
      else
        var p := s.procs[n];
        var owned := p.id in s.sh.leases && s.sh.leases[p.id] == n;
        s.(procs := s.procs[n := p.(leaseLost := p.leaseLost || errored || !owned)])
    case Expire(id) => s.(sh := s.sh.(leases := s.sh.leases - {id}))
  }

  /** The system after a whole run of actions. */
  function Run(H: HashFunction, actions: seq<Action>): System {
    if actions == [] then Initial() else Step(H, Run(H, actions[..|actions| - 1]), actions[|actions| - 1])
  }
}
