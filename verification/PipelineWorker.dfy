/** One attempt of the stage worker, and one human confirmation, as code that runs without interruption. */
module PipelineWorker {
  import opened Wrappers
  import opened Stages
  import opened PipelineMachine
  import opened PipelineServices
  import S = PipelineState

  /**
   * A worker attempt on one identity. The ghost fields follow the transition system: `start` is the state in
   * which the attempt began, and the current state is always one the attempt alone reaches from there.
   */
  class StageAttempt {
    const createHash: HashFunction
    const outside: Choice
    const redis: RunState
    const checkpoints: PipelineCheckpoints
    const lock: PipelineIdempotency
    const id: Identity
    const token: nat
    var leaseLost: bool
    ghost var log: History
    ghost var proc: Process
    ghost var start: StepResult

    ghost function Now(): StepResult
      reads this, redis
    {
      StepResult(redis.View(), log, proc)
    }

    ghost predicate Wired() {
      checkpoints.redis == redis && lock.redis == redis
    }

    ghost predicate Valid()
      reads this, redis
    {
      && Wired()
      && proc.Worker? && proc.id == id && proc.leaseLost == leaseLost
      && Reaches(createHash, start, token, outside, Now())
    }

    constructor (createHash: HashFunction, outside: Choice, redis: RunState, id: Identity, token: nat,
                 entry: EntryStep, ghost log: History)
      ensures Valid() && this.redis == redis && this.id == id && this.token == token
      ensures this.createHash == createHash && this.outside == outside
      ensures start == Now() == StepResult(redis.View(), log, Worker(id, Entering(entry), false, false))
    {
      this.createHash, this.outside, this.redis := createHash, outside, redis;
      checkpoints := new PipelineCheckpoints(redis);
      lock := new PipelineIdempotency(redis);
      this.id, this.token, leaseLost := id, token, false;
      this.log, proc := log, Worker(id, Entering(entry), false, false);
      start := StepResult(redis.View(), log, Worker(id, Entering(entry), false, false));
      new;
      ReachesSelf(createHash, start, token, outside);
    }

    /** The code has just done what the transition system's next action does. */
    ghost method Track(was: StepResult)
      requires Wired() && was.proc.Worker? && was.proc.id == id && was.proc.leaseLost == leaseLost
      requires Reaches(createHash, start, token, outside, was)
      requires redis.View() == One(createHash, was, token, outside).sh
      modifies this`log, this`proc
      ensures Valid() && Now() == One(createHash, was, token, outside)
    {
      ReachesOne(createHash, start, token, outside, was);
      OneKeepsProcess(createHash, was, token, outside);
      log, proc := One(createHash, was, token, outside).log, One(createHash, was, token, outside).proc;
    }

    // ---- Terminalization ----

    /** Reads or wins the terminal-pending marker; the issue everyone agrees on is the one saved with it. */
    method AgreeOnIssue(issue: Option<Issue>, pending: bool, ghost o: Outcome) returns (effective: Option<Issue>)
      requires Valid() && issue == DoneIssue(o)
      requires proc.pc == Carrying(o, Finishing(if pending then ReadIssue else MarkPending))
      modifies this, redis
      ensures Valid() && start == old(start) && proc.pc == Carrying(o, Finishing(ReadSnapshot(effective)))
      ensures redis.snapshot == old(redis.snapshot) && redis.doneEvents == old(redis.doneEvents)
      ensures !pending && old(redis.terminalState).None? ==> effective == issue && redis.terminalIssue == Some(issue)
      ensures pending || old(redis.terminalState).Some? ==>
                && redis.terminalIssue == old(redis.terminalIssue)
                && effective == if redis.terminalIssue.Some? then redis.terminalIssue.value else None
    {
      if !pending {
        ghost var was := Now();
        var acquired := checkpoints.SetTerminalPending();
        Track(was);
        if acquired {
          was := Now();
          checkpoints.SetTerminalIssue(issue);
          Track(was);
          return issue;
        }
      }
      effective := checkpoints.GetTerminalIssue();
      Track(Now());
    }

    method Finish(result: TestResult, issue: Option<Issue>, ghost o: Outcome)
      requires Valid() && result == DoneResult(o) && issue == DoneIssue(o)
      requires proc.pc == Carrying(o, Finishing(ReadState))
      modifies this, redis
      ensures Valid() && start == old(start) && proc.pc == Carrying(o, WriteCommitted)
      ensures redis.terminalState == Some(S.Committed)
      ensures old(redis.terminalState) == Some(S.Committed) ==> redis.View() == old(redis.View())
      ensures old(redis.snapshot).Finished? ==>
                redis.snapshot == old(redis.snapshot) && redis.doneEvents == old(redis.doneEvents)
      ensures old(redis.terminalState) != Some(S.Committed) && old(redis.snapshot).Running? ==>
                redis.snapshot.Finished? && redis.snapshot.result == result
                && redis.doneEvents == old(redis.doneEvents) + 1
      ensures old(redis.terminalState).None? && old(redis.snapshot).Running? && result == Failed ==>
                redis.snapshot.rootCause == Some(issue.value.evidence)
                && redis.snapshot.issueType == Some(issue.value.issueType)
    {
      var previous := redis.terminalState;
      Track(Now());
      if previous == Some(S.Committed) {
        return;
      }
      var effective := AgreeOnIssue(issue, previous == Some(S.Pending), o);
      WriteTerminalSnapshot(result, effective, o);
      CommitTerminal(o);
    }

    method CommitTerminal(ghost o: Outcome)
      requires Valid() && proc.pc == Carrying(o, Finishing(MarkDone))
      modifies this, redis
      ensures Valid() && start == old(start) && proc.pc == Carrying(o, WriteCommitted)
      ensures redis.View() == old(redis.View()).(terminalState := Some(S.Committed))
    {
      ghost var was := Now();
      checkpoints.MarkTerminalCommitted();
      Track(was);
    }

    method WriteTerminalSnapshot(result: TestResult, issue: Option<Issue>, ghost o: Outcome)
      requires Valid() && result == DoneResult(o)
      requires proc.pc == Carrying(o, Finishing(ReadSnapshot(issue)))
      modifies this, redis
      ensures Valid() && start == old(start) && proc.pc == Carrying(o, Finishing(MarkDone))
      ensures old(redis.snapshot).Finished? ==>
                redis.snapshot == old(redis.snapshot) && redis.doneEvents == old(redis.doneEvents)
      ensures old(redis.snapshot).Running? ==>
                redis.snapshot.Finished? && redis.snapshot.result == result
                && redis.doneEvents == old(redis.doneEvents) + 1
      ensures old(redis.snapshot).Running? && result == Passed ==>
                redis.snapshot.rootCause.None? && redis.snapshot.issueType.None?
      ensures old(redis.snapshot).Running? && result == Failed && issue.Some? ==>
                redis.snapshot.rootCause == Some(issue.value.evidence)
                && redis.snapshot.issueType == Some(issue.value.issueType)
    {
      var running := redis.snapshot.Running?;
      Track(Now());
      if running {
        FinishRun(result, issue, o);
        EmitDone(o);
      } else {
        Track(Now());
      }
    }

    method FinishRun(result: TestResult, issue: Option<Issue>, ghost o: Outcome)
      requires Valid() && result == DoneResult(o)
      requires proc.pc == Carrying(o, Finishing(WriteSnapshot(issue, true)))
      modifies this, redis
      ensures Valid() && start == old(start) && proc.pc == Carrying(o, Finishing(PipelineMachine.EmitDone))
      ensures redis.snapshot.Finished? && redis.snapshot.result == result && redis.doneEvents == old(redis.doneEvents)
      ensures result == Passed ==> redis.snapshot.rootCause.None? && redis.snapshot.issueType.None?
      ensures result == Failed && issue.Some? ==>
                redis.snapshot.rootCause == Some(issue.value.evidence)
                && redis.snapshot.issueType == Some(issue.value.issueType)
      ensures result == Failed && issue.None? ==>
                redis.snapshot.rootCause == Some(S.ABSENT_EVIDENCE) && redis.snapshot.issueType == Some(RootCause)
    {
      ghost var was := Now();
      redis.snapshot := S.FinishedSnapshot(result, issue);
      Track(was);
    }

    method EmitDone(ghost o: Outcome)
      requires Valid() && proc.pc == Carrying(o, Finishing(PipelineMachine.EmitDone))
      modifies this, redis
      ensures Valid() && start == old(start) && proc.pc == Carrying(o, Finishing(MarkDone))
      ensures redis.doneEvents == old(redis.doneEvents) + 1 && redis.snapshot == old(redis.snapshot)
    {
      ghost var was := Now();
      redis.doneEvents := redis.doneEvents + 1;
      Track(was);
    }

    // ---- The durable transition ----

    /** The side effect of a transition: its job is queued, or the run is terminal. */
    static predicate Effected(transition: Transition, sh: S.Shared) {
      match transition
      case Next(stage, iteration, finalization) =>
        Identity(stage, iteration) in sh.jobs && (finalization.Some? ==> sh.finalization == finalization)
      case Done(_, _) => sh.terminalState == Some(S.Committed)
      case _ => true
    }

    /** pending, then the side effect, then committed. */
    method ApplyTransition(transition: Transition, ghost o: Outcome)
      requires Valid() && transition == Resolve(id.stage, o, id.iteration)
      requires proc.pc == Carrying(o, ReadMark)
      modifies this, redis
      ensures Valid() && start == old(start) && proc.pc.Ended?
      ensures id in redis.marks && redis.marks[id] == S.Committed
      ensures old(id in redis.marks && redis.marks[id] == S.Committed) ==> redis.View() == old(redis.View())
      ensures !old(id in redis.marks && redis.marks[id] == S.Committed) ==> Effected(transition, redis.View())
    {
      var state := if id in redis.marks then Some(redis.marks[id]) else None;
      Track(Now());
      if state == Some(S.Committed) {
        return;
      }
      if state.None? {
        ghost var was := Now();
        checkpoints.MarkTransition(id, S.Pending);
        Track(was);
      }
      ApplyEffect(transition, o);
      CommitTransition(o);
    }

    method CommitTransition(ghost o: Outcome)
      requires Valid() && proc.pc == Carrying(o, WriteCommitted)
      modifies this, redis
      ensures Valid() && start == old(start) && proc.pc.Ended?
      ensures redis.View() == S.SetMark(old(redis.View()), id, S.Committed)
    {
      ghost var was := Now();
      checkpoints.MarkTransition(id, S.Committed);
      Track(was);
    }

    method ApplyEffect(transition: Transition, ghost o: Outcome)
      requires Valid() && transition == Resolve(id.stage, o, id.iteration)
      requires proc.pc == Carrying(o, PipelineMachine.ApplyEffect)
      modifies this, redis
      ensures Valid() && start == old(start) && proc.pc == Carrying(o, WriteCommitted)
      ensures Effected(transition, redis.View())
    {
      match transition
      case Next(_, _, _) => QueueNext(transition, o);
      case Done(result, issue) =>
        ResolvedDone(id.stage, o, id.iteration);
        Track(Now());
        Finish(result, issue, o);
      case _ =>
        Track(Now());
    }

    /** Saves a failed finalization before queueing the stage that will replay it. */
    method QueueNext(transition: Transition, ghost o: Outcome)
      requires Valid() && transition == Resolve(id.stage, o, id.iteration) && transition.Next?
      requires proc.pc == Carrying(o, PipelineMachine.ApplyEffect)
      modifies this, redis
      ensures Valid() && start == old(start) && proc.pc == Carrying(o, WriteCommitted)
      ensures Identity(transition.stage, transition.iteration) in redis.jobs
      ensures transition.finalization.Some? ==> redis.finalization == transition.finalization
    {
      ghost var was := Now();
      if transition.finalization.Some? {
        checkpoints.SaveFinalizationIntent(transition.finalization.value);
      }
      Track(was);
      AddJob(transition, o);
    }

    method AddJob(transition: Transition, ghost o: Outcome)
      requires Valid() && transition == Resolve(id.stage, o, id.iteration) && transition.Next?
      requires proc.pc == Carrying(o, PipelineMachine.AddJob)
      modifies this, redis`jobs
      ensures Valid() && start == old(start) && proc.pc == Carrying(o, WriteCommitted)
      ensures redis.jobs == old(redis.jobs) + {Identity(transition.stage, transition.iteration)}
    {
      ghost var was := Now();
      redis.jobs := redis.jobs + {Identity(transition.stage, transition.iteration)};
      Track(was);
    }

    // ---- Stage execution: the worker's switch ----

    /** Runs the stage; None stands for a throw. */
    method Execute() returns (outcome: Option<Outcome>)
      requires Valid() && proc.pc == Working(Begin)
      modifies this, redis
      ensures Valid() && start == old(start) && unchanged(`leaseLost)
      ensures proc.pc == if outcome.Some? then Save(outcome.value) else Abandon
    {
      match id.stage
      case TripleValidation => outcome := ValidateTriple();
      case Confirmation => outcome := ConfirmPackage();
      case CreateHash => outcome := ProveHash();
      case Build => outcome := BuildOnce();
      case Finalize => outcome := VerifyHashes();
      case _ =>
        Track(Now());
        outcome := Some(Advance(Plain));
    }

    method ValidateTriple() returns (outcome: Option<Outcome>)
      requires Valid() && proc.pc == Working(Begin) && id.stage == TripleValidation
      modifies this, redis
      ensures Valid() && start == old(start) && unchanged(`leaseLost)
      ensures redis.triple == Some(outside.triple)
      ensures outcome == if outside.triple.allValid then Some(Advance(Plain))
                         else Some(Refine(Issue(Missing, "validation failed")))
      ensures proc.pc == if outcome.Some? then Save(outcome.value) else Abandon
    {
      ghost var was := Now();
      redis.triple := Some(outside.triple);
      Track(was);
      Track(Now());
      outcome := Some(if redis.triple.value.allValid then Advance(Plain) else Refine(Issue(Missing, "validation failed")));
    }

    method ConfirmPackage() returns (outcome: Option<Outcome>)
      requires Valid() && proc.pc == Working(Begin) && id.stage == Confirmation
      modifies this, redis
      ensures Valid() && start == old(start) && unchanged(`leaseLost)
      ensures outcome.Some? <==> redis.triple.Some? && redis.triple.value.allValid
      ensures outcome.Some? ==>
                outcome.value == Advance(Plain) && redis.confirmed == Some(S.Package(outside.content, redis.triple.value))
      ensures proc.pc == if outcome.Some? then Save(outcome.value) else Abandon
    {
      Track(Now());
      if redis.triple.None? || !redis.triple.value.allValid {
        return None;
      }
      ghost var was := Now();
      redis.confirmed := Some(S.Package(outside.content, redis.triple.value));
      Track(was);
      return Some(Advance(Plain));
    }

    /** Computes the proof; an equal one opens the build gate before it is saved. */
    method ProveHash() returns (outcome: Option<Outcome>)
      requires Valid() && proc.pc == Working(Begin) && id.stage == CreateHash
      modifies this, redis
      ensures Valid() && start == old(start) && unchanged(`leaseLost)
      ensures outcome.Some? <==>
                && redis.confirmed.Some?
                && (outside.equal ==>
                      && S.AdmitsGate(redis.confirmed.value, createHash(redis.confirmed.value))
                      && redis.gate == Some(S.Gate(redis.confirmed.value, createHash(redis.confirmed.value))))
      ensures outcome.Some? ==>
                && redis.proof == Some(Proof(createHash(redis.confirmed.value), outside.equal))
                && (outcome.value.Advance? <==> outside.equal)
      ensures outcome.Some? && !outside.equal ==> outcome.value == Terminal(HASH_MISMATCH)
      ensures proc.pc == if outcome.Some? then Save(outcome.value) else Abandon
    {
      Track(Now());
      if redis.confirmed.None? {
        return None;
      }
      var pkg := redis.confirmed.value;
      var proof := Proof(createHash(pkg), outside.equal);
      if proof.equal {
        var isOpen := OpenBuildGate(pkg, proof);
        if !isOpen {
          return None;
        }
      }
      outcome := SaveAndJudgeProof(proof);
    }

    method SaveAndJudgeProof(proof: Proof) returns (outcome: Option<Outcome>)
      requires Valid() && proc.pc == Working(Hashing(SaveProof(proof)))
      modifies this, redis`proof
      ensures Valid() && start == old(start) && unchanged(`leaseLost)
      ensures redis.proof == Some(proof)
      ensures outcome == Some(if proof.equal then Advance(Plain) else Terminal(HASH_MISMATCH))
      ensures proc.pc == if outcome.Some? then Save(outcome.value) else Abandon
    {
      ghost var was := Now();
      redis.proof := Some(proof);
      Track(was);
      Track(Now());
      return Some(if redis.proof.value.equal then Advance(Plain) else Terminal(HASH_MISMATCH));
    }

    method OpenBuildGate(pkg: S.Package, proof: Proof) returns (isOpen: bool)
      requires Valid() && proc.pc == Working(Hashing(OpenGate(pkg, proof)))
      modifies this, redis
      ensures Valid() && start == old(start) && unchanged(`leaseLost)
      ensures redis.confirmed == old(redis.confirmed)
      ensures isOpen <==> S.AdmitsGate(pkg, proof.created) && redis.gate == Some(S.Gate(pkg, proof.created))
      ensures S.AdmitsGate(pkg, proof.created) && old(redis.gate).None? ==> isOpen
      ensures proc.pc == if isOpen then Working(Hashing(SaveProof(proof))) else Abandon
    {
      ghost var was := Now();
      if !S.AdmitsGate(pkg, proof.created) {
        Track(was);
        return false;
      }
      if redis.gate.None? {
        redis.gate := Some(S.Gate(pkg, proof.created));
      }
      Track(was);
      isOpen := redis.gate == Some(S.Gate(pkg, proof.created));
      Track(Now());
    }

    method BuildOnce() returns (outcome: Option<Outcome>)
      requires Valid() && proc.pc == Working(Begin) && id.stage == Build
      modifies this, redis
      ensures Valid() && start == old(start) && unchanged(`leaseLost)
      ensures redis.builderIntent
      ensures old(redis.builderIntent) ==> outcome.Some? && redis.buildResult == old(redis.buildResult)
      ensures !old(redis.builderIntent) && outcome.Some? ==> redis.buildResult == Some(outside.build)
      ensures outcome.Some? ==>
                (outcome.value.Advance? <==> redis.buildResult.Some? && redis.buildResult.value.result == Passed)
      ensures proc.pc == if outcome.Some? then Save(outcome.value) else Abandon
    {
      ghost var was := Now();
      var first := checkpoints.RecordBuilderIntent();
      Track(was);
      if first {
        outcome := RunApprovedBuilder();
      } else {
        Track(Now());
        outcome := Some(
          if redis.buildResult.None? then Terminal(SystemIssue("Builder execution outcome is uncertain"))
          else if redis.buildResult.value.result == Passed then Advance(Plain)
          else Terminal(SystemIssue("Recovered failed Builder evidence")));
      }
    }

    method RunApprovedBuilder() returns (outcome: Option<Outcome>)
      requires Valid() && proc.pc == Working(Building(LoadPackage)) && id.stage == Build
      modifies this, redis
      ensures Valid() && start == old(start) && unchanged(`leaseLost)
      ensures redis.builderIntent == old(redis.builderIntent)
      ensures outcome.Some? ==>
                && redis.buildResult == Some(outside.build)
                && (outcome.value.Advance? <==> outside.build.result == Passed)
      ensures proc.pc == if outcome.Some? then Save(outcome.value) else Abandon
    {
      Track(Now());
      if redis.confirmed.None? {
        return None;
      }
      Track(Now());
      if redis.proof.None? {
        return None;
      }
      var pkg, proof := redis.confirmed.value, redis.proof.value;
      var authorized := RequireApproved(pkg, proof);
      if !authorized {
        return None;
      }
      outcome := RunAndRecordBuilder(pkg, proof);
    }

    /** The recorded gate is approved for this hash and package, and the package still has this hash. */
    method RequireApproved(pkg: S.Package, proof: Proof) returns (authorized: bool)
      requires Valid() && proc.pc == Working(Building(ReadGate(pkg, proof)))
      modifies this, redis
      ensures Valid() && start == old(start) && unchanged(`leaseLost)
      ensures redis.View() == old(redis.View())
      ensures proc.pc == if authorized then Working(Building(RunBuilder(pkg, proof))) else Abandon
      ensures authorized <==>
                && redis.gate == Some(S.Gate(pkg, proof.created)) && redis.approval == Some(proof.created)
                && createHash(pkg) == proof.created
    {
      Track(Now());
      if redis.gate.None? {
        return false;
      }
      Track(Now());
      if redis.approval != Some(redis.gate.value.hash) || redis.gate.value.hash != proof.created {
        return false;
      }
      Track(Now());
      authorized := redis.gate.value.pkg == pkg && createHash(pkg) == proof.created;
    }

    method RunAndRecordBuilder(pkg: S.Package, proof: Proof) returns (outcome: Option<Outcome>)
      requires Valid() && proc.pc == Working(Building(RunBuilder(pkg, proof))) && id.stage == Build
      modifies this, redis
      ensures Valid() && start == old(start) && unchanged(`leaseLost)
      ensures redis.builderIntent == old(redis.builderIntent)
      ensures outcome.Some? ==>
                && redis.buildResult == Some(outside.build)
                && (outcome.value.Advance? <==> outside.build.result == Passed)
      ensures proc.pc == if outcome.Some? then Save(outcome.value) else Abandon
    {
      var result := outside.build;
      Track(Now());
      RecordBuildResult(result);
      Track(Now());
      outcome := Some(if redis.buildResult.value.result == Passed then Advance(Plain)
                      else Terminal(SystemIssue("Build verification failed")));
    }

    method RecordBuildResult(result: S.BuildResult)
      requires Valid() && proc.pc == Working(Building(SaveResult(result)))
      modifies this, redis`buildResult
      ensures Valid() && start == old(start) && unchanged(`leaseLost)
      ensures proc.pc == Working(Building(ReloadResult)) && redis.buildResult == Some(result)
    {
      ghost var was := Now();
      redis.buildResult := Some(result);
      Track(was);
    }

    /** Finalize: replay a failed finalization, or compare the sandbox hash with the created hash. */
    method VerifyHashes() returns (outcome: Option<Outcome>)
      requires Valid() && proc.pc == Working(Begin) && id.stage == Finalize
      modifies this, redis
      ensures Valid() && start == old(start) && unchanged(`leaseLost)
      ensures redis.View() == old(redis.View())
      ensures redis.finalization.Some? ==> outcome == Some(Terminal(redis.finalization.value))
      ensures redis.finalization.None? ==> (outcome.Some? <==> redis.proof.Some? && redis.buildResult.Some?)
      ensures redis.finalization.None? && outcome.Some? ==>
                && (outcome.value.Advance? <==>
                      && redis.buildResult.value.result == Passed
                      && redis.buildResult.value.sandboxHash == Some(redis.proof.value.created))
                && (outcome.value.Advance? ==> outcome.value == Advance(Verified(redis.proof.value)))
                && (!outcome.value.Advance? ==> outcome.value.Terminal?)
      ensures proc.pc == if outcome.Some? then Save(outcome.value) else Abandon
    {
      Track(Now());
      if redis.finalization.Some? {
        return Some(Terminal(redis.finalization.value));
      }
      Track(Now());
      if redis.proof.None? {
        return None;
      }
      var proof := redis.proof.value;
      Track(Now());
      if redis.buildResult.None? {
        return None;
      }
      return Some(
        if redis.buildResult.value.result != Passed || redis.buildResult.value.sandboxHash != Some(proof.created)
        then Terminal(SystemIssue("Finalize hash verification failed"))
        else Advance(Verified(proof)));
    }

    // ---- runStage ----

    method LoadPersistedOutcome(recheck: bool) returns (outcome: Option<Outcome>)
      requires Valid() && proc.pc == Entering(if recheck then RecheckExecuted else ReadExecuted)
      modifies `log, `proc
      ensures Valid()
      ensures outcome == if id in redis.executed && id in redis.outcomes then Some(redis.outcomes[id]) else None
      ensures outcome.Some? ==> proc.pc == Carrying(outcome.value, ReadMark)
      ensures outcome.None? ==> proc.pc == if recheck || id in redis.executed then Ended else Entering(CheckCompleted)
    {
      Track(Now());
      if id !in redis.executed {
        return None;
      }
      outcome := if id in redis.outcomes then Some(redis.outcomes[id]) else None;
      Track(Now());
    }

    /** The completed check and the SET NX of the lease. */
    method AcquireLease() returns (granted: bool)
      requires Valid() && proc.pc == Entering(CheckCompleted)
      modifies this, redis
      ensures Valid() && start == old(start) && unchanged(`leaseLost)
      ensures proc.pc == if granted then Working(Begin) else Entering(RecheckExecuted)
    {
      var done := lock.IsCompleted(S.LeaseStage(id), 0);
      Track(Now());
      if done {
        return false;
      }
      ghost var was := Now();
      granted := lock.SetLease(id, token);
      Track(was);
    }

    /** The fenced commit, the completion marker, and the release that `finally` always runs. */
    method Commit(outcome: Outcome) returns (committed: bool)
      requires Valid() && proc.pc == Save(outcome)
      modifies this, redis
      ensures Valid() && start == old(start)
      ensures if committed then proc.pc == Carrying(outcome, ReadMark) else proc.pc.Ended?
      ensures committed <==> old(!leaseLost && id in redis.leases && redis.leases[id] == token)
      ensures committed ==>
                && redis.outcomes == old(redis.outcomes)[id := outcome] && id in redis.executed
                && S.CompletedKey(StageName(id.stage), id.iteration) in redis.completed
      ensures !committed ==>
                redis.outcomes == old(redis.outcomes) && redis.executed == old(redis.executed)
                && redis.completed == old(redis.completed)
      ensures !(id in redis.leases && redis.leases[id] == token)
    {
      ghost var was := Now();
      var saved := false;
      if !leaseLost {
        saved := checkpoints.SaveExecution(id, outcome, Some(token));
      }
      Track(was);
      if saved {
        was := Now();
        lock.MarkCompleted(StageName(id.stage), id.iteration);
        Track(was);
      }
      was := Now();
      var released := lock.Release(id, token);
      Track(was);
      return saved;
    }

    /** Returns the outcome the transition continues with, or None where runStage throws. */
    method RunStage() returns (outcome: Option<Outcome>)
      requires Valid() && proc.pc == Entering(ReadExecuted)
      modifies this, redis
      ensures Valid() && start == old(start)
      ensures proc.pc == if outcome.Some? then Carrying(outcome.value, ReadMark) else Ended
      ensures old(id in redis.executed) ==>
                && redis.View() == old(redis.View())
                && outcome == if id in redis.outcomes then Some(redis.outcomes[id]) else None
    {
      outcome := LoadPersistedOutcome(false);
      if outcome.Some? || id in redis.executed {
        return;
      }
      var granted := AcquireLease();
      if granted {
        outcome := ExecuteAndCommit();
      } else {
        outcome := LoadPersistedOutcome(true);
      }
    }

    method ExecuteAndCommit() returns (outcome: Option<Outcome>)
      requires Valid() && proc.pc == Working(Begin)
      modifies this, redis
      ensures Valid() && start == old(start)
      ensures proc.pc == if outcome.Some? then Carrying(outcome.value, ReadMark) else Ended
    {
      outcome := Execute();
      if outcome.None? {
        ghost var was := Now();
        var released := lock.Release(id, token);
        Track(was);
        return;
      }
      var committed := Commit(outcome.value);
      if !committed {
        outcome := None;
      }
    }

    // ---- The job handler and crash recovery ----

    /**
     * A delivered job, start to end: it leaves the state in which the attempt, run alone, ends. An outcome that
     * was already recorded is not computed again, and any outcome's transition is committed.
     */
    method HandleJob() returns (outcome: Option<Outcome>)
      requires Valid() && start == Now() && proc.pc == Entering(ReadExecuted)
      modifies this, redis
      ensures Valid() && Reaches(createHash, old(Now()), token, outside, Now()) && proc.pc.Ended?
      ensures old(id in redis.executed && id in redis.outcomes) ==> outcome == Some(old(redis.outcomes)[id])
      ensures outcome.Some? ==> id in redis.marks && redis.marks[id] == S.Committed
    {
      outcome := RunStage();
      if outcome.Some? {
        ApplyTransition(Resolve(id.stage, outcome.value, id.iteration), outcome.value);
      }
    }

    method ReconcileStage() returns (recovered: bool)
      requires Valid() && start == Now() && proc.pc == Entering(ReconcileReadExecuted)
      modifies this, redis
      ensures Valid() && Reaches(createHash, old(Now()), token, outside, Now()) && proc.pc.Ended?
      ensures recovered <==> old(id in redis.executed && id in redis.outcomes
                                 && !(id in redis.marks && redis.marks[id] == S.Committed))
      ensures recovered ==>
                && id in redis.marks && redis.marks[id] == S.Committed
                && Effected(Resolve(id.stage, old(redis.outcomes)[id], id.iteration), redis.View())
      ensures !recovered ==> redis.View() == old(redis.View())
    {
      Track(Now());
      if id !in redis.executed {
        return false;
      }
      Track(Now());
      if id in redis.marks && redis.marks[id] == S.Committed {
        return false;
      }
      Track(Now());
      if id !in redis.outcomes {
        return false;
      }
      var outcome := redis.outcomes[id];
      ApplyTransition(Resolve(id.stage, outcome, id.iteration), outcome);
      return true;
    }

    /** The renewal timer fires: a failed or refused renewal is remembered until the commit. */
    method RenewLease(errored: bool)
      requires Valid() && HoldsTimer(proc)
      modifies this
      ensures Valid() && start == Now()
      ensures leaseLost == (old(leaseLost) || errored || !(id in redis.leases && redis.leases[id] == token))
      ensures proc == old(proc).(leaseLost := leaseLost) && log == old(log)
    {
      var owned := lock.Renew(id, token);
      leaseLost := leaseLost || errored || !owned;
      proc := proc.(leaseLost := leaseLost);
      start := Now();
      ReachesSelf(createHash, start, token, outside);
    }
  }

  /** A human request: confirming the plan, or approving the build for one hash. */
  class HumanRequest {
    const outside: Choice
    const redis: RunState
    const token: nat
    ghost const createHash: HashFunction
    ghost var log: History
    ghost var proc: Process
    ghost var start: StepResult

    ghost function Now(): StepResult
      reads this, redis
    {
      StepResult(redis.View(), log, proc)
    }

    ghost predicate Valid()
      reads this, redis
    {
      !proc.Worker? && Reaches(createHash, start, token, outside, Now())
    }

    constructor (outside: Choice, redis: RunState, token: nat,
                 ghost createHash: HashFunction, ghost log: History, ghost proc: Process)
      requires !proc.Worker?
      ensures Valid() && this.outside == outside && this.redis == redis && this.token == token
      ensures this.createHash == createHash && start == Now() == StepResult(redis.View(), log, proc)
    {
      this.outside, this.redis, this.token := outside, redis, token;
      this.createHash, this.log, this.proc := createHash, log, proc;
      start := StepResult(redis.View(), log, proc);
      new;
      ReachesSelf(createHash, start, token, outside);
    }

    ghost method Track(was: StepResult)
      requires !was.proc.Worker? && Reaches(createHash, start, token, outside, was)
      requires redis.View() == One(createHash, was, token, outside).sh
      modifies this`log, this`proc
      ensures Valid() && Now() == One(createHash, was, token, outside)
    {
      ReachesOne(createHash, start, token, outside, was);
      OneKeepsProcess(createHash, was, token, outside);
      log, proc := One(createHash, was, token, outside).log, One(createHash, was, token, outside).proc;
    }

    /** confirmPlan: Some(true) when this request won the gate, Some(false) when another had, None for a throw. */
    method ConfirmPlan() returns (status: Option<bool>)
      requires Valid() && start == Now() && proc == Confirming(ReadRevision)
      modifies this, redis
      ensures Valid() && Reaches(createHash, old(Now()), token, outside, Now()) && proc == Confirming(Confirmed)
      ensures status == Some(true) <==>
                old(S.CompletedKey(StageName(Researcher), redis.revision) in redis.completed && !redis.planGate)
                && !outside.addFails
      ensures status == Some(true) ==> Identity(Planner, 0) in redis.jobs && redis.planGate
      ensures status == Some(false) <==>
                old(S.CompletedKey(StageName(Researcher), redis.revision) in redis.completed && redis.planGate)
      ensures status == Some(false) ==> redis.View() == old(redis.View())
      ensures status.None? ==> redis.planGate == old(redis.planGate)
    {
      var revision := redis.revision;
      Track(Now());
      var researched := S.CompletedKey(StageName(Researcher), revision) in redis.completed;
      Track(Now());
      if !researched {
        return None;
      }
      ghost var was := Now();
      var won := !redis.planGate;
      redis.planGate := true;
      Track(was);
      if !won {
        return Some(false);
      }
      status := QueuePlannerJob();
    }

    /** A failed add reopens the gate, whether or not the job reached the queue. */
    method QueuePlannerJob() returns (status: Option<bool>)
      requires Valid() && proc == Confirming(QueuePlanner)
      modifies this`log, this`proc, redis`jobs, redis`planGate
      ensures Valid() && proc == Confirming(Confirmed)
      ensures if outside.addFails then status.None? && !redis.planGate
              else status == Some(true) && Identity(Planner, 0) in redis.jobs && redis.planGate == old(redis.planGate)
    {
      ghost var was := Now();
      if !outside.addFails || outside.addLands {
        redis.jobs := redis.jobs + {Identity(Planner, 0)};
      }
      Track(was);
      if outside.addFails {
        was := Now();
        redis.planGate := false;
        Track(was);
        return None;
      }
      return Some(true);
    }

    /** The build-review decision: write the approval once, then queue Build. */
    method ApproveBuild(hash: string) returns (queued: bool)
      requires Valid() && start == Now() && proc == Approving(hash, ReadRecord)
      modifies this, redis
      ensures Valid() && Reaches(createHash, old(Now()), token, outside, Now()) && proc == Approving(hash, Approved)
      ensures queued ==> Identity(Build, 0) in redis.jobs && redis.approval.Some?
      ensures queued <==> old(redis.gate.Some? && redis.gate.value.hash == hash
                              && redis.confirmed == Some(redis.gate.value.pkg))
    {
      Track(Now());
      if redis.gate.None? || redis.gate.value.hash != hash {
        return false;
      }
      Track(Now());
      if redis.confirmed != Some(redis.gate.value.pkg) {
        return false;
      }
      WriteApproval(hash);
      return true;
    }

    /** The approval is written before Build is queued. */
    method WriteApproval(hash: string)
      requires Valid() && proc == Approving(hash, PipelineMachine.WriteApproval)
      modifies this`log, this`proc, redis`approval, redis`jobs
      ensures Valid() && proc == Approving(hash, Approved)
      ensures redis.approval == S.CreateOnce(old(redis.approval), hash)
      ensures redis.jobs == old(redis.jobs) + {Identity(Build, 0)}
    {
      ghost var was := Now();
      if redis.approval.None? {
        redis.approval := Some(hash);
      }
      Track(was);
      was := Now();
      redis.jobs := redis.jobs + {Identity(Build, 0)};
      Track(was);
    }
  }

  lemma ResolvedDone(stage: Stage, o: Outcome, iteration: nat)
    requires Resolve(stage, o, iteration).Done?
    ensures Resolve(stage, o, iteration) == Done(DoneResult(o), DoneIssue(o))
  {
  }
}
