/** Whole runs from submission in which nothing throws, crashes or expires: one that passes and one that fails. */
module PipelineRuns {
  import opened Wrappers
  import opened Stages
  import opened PipelineState
  import opened PipelineMachine
  import opened PipelineRecovery
  import opened PipelineServices
  import opened PipelineProgress
  import opened PipelineCompletion

  // ---- From one poised job to the next ----

  /** The queued job is next: everything executed lies before it, no attempt is alive, the run is not terminal yet. */
  ghost predicate Poised(s: System, id: Identity) {
    && InPipeline(id) && id in s.sh.jobs && s.sh.leases == map[]
    && (forall x :: x in s.sh.executed || x in s.sh.marks ==>
          x.stage == Researcher || ExecutionsLeft(x) > ExecutionsLeft(id))
    && (forall n :: n in s.procs ==> !Live(s.procs[n]))
    && s.sh.snapshot.Running? && s.sh.terminalState.None? && s.sh.terminalIssue.None?
  }

  lemma PoisedIsUnstarted(s: System, id: Identity)
    requires Poised(s, id)
    ensures IsUnstarted(s, id)
  {
    PinningKeepsPipelineJobs(id);
  }

  /** The work of a stage wrote artifacts and the build intent only. */
  predicate WroteArtifacts(sh: Shared, sh': Shared) {
    sh' == sh.(triple := sh'.triple, confirmed := sh'.confirmed, gate := sh'.gate, proof := sh'.proof,
               builderIntent := sh'.builderIntent, buildResult := sh'.buildResult)
  }

  /** Committing a stage left its artifacts, and the terminal keys. */
  predicate KeptArtifacts(sh: Shared, sh': Shared) {
    sh' == sh.(outcomes := sh'.outcomes, executed := sh'.executed, completed := sh'.completed, marks := sh'.marks,
               leases := sh'.leases, jobs := sh'.jobs, finalization := sh'.finalization)
  }

  lemma NextIsPoised(s: System, id: Identity, sh: Shared, log: History, o: Outcome, next: Identity)
    requires Poised(s, id) && WroteArtifacts(Begun(s, id).sh, sh) && WorkerOutcome(id.stage, o)
    requires QueuedBy(id, o) == Some(next)
    ensures Poised(Completed(s, id, sh, log, o), next)
  {
    SuccessorDecreases(id, o);
    var s' := Completed(s, id, sh, log, o);
    assert s'.sh.leases == map[];
    hide InPipeline, ExecutionsLeft, WorkerOutcome, Resolve, Live;
  }

  lemma CompletedKeepsArtifacts(s: System, id: Identity, sh: Shared, log: History, o: Outcome)
    ensures var sh' := Completed(s, id, sh, log, o).sh;
            KeptArtifacts(sh, sh') && sh'.finalization == Intent(id, o, sh.finalization)
  {
    hide Resolve;
  }

  /** The finalization intent once the transition of this outcome has been applied. */
  function Intent(id: Identity, o: Outcome, before: Option<Issue>): Option<Issue> {
    var transition := Resolve(id.stage, o, id.iteration);
    if transition.Next? && transition.finalization.Some? then transition.finalization else before
  }

  /** One stage further: the next job is poised and the artifacts are what this stage wrote. */
  lemma Advances(
    H: HashFunction, actions: seq<Action>, id: Identity, c: Choice, sh: Shared, log: History, o: Outcome,
    next: Identity)
    returns (all: seq<Action>)
    requires NonOverlapping(H, actions) && Poised(Run(H, actions), id) && Works(H, Run(H, actions), id, c, sh, log, o)
    requires WroteArtifacts(Begun(Run(H, actions), id).sh, sh) && WorkerOutcome(id.stage, o)
    requires QueuedBy(id, o) == Some(next)
    ensures NonOverlapping(H, all) && Poised(Run(H, all), next) && (Faultless(actions) ==> Faultless(all))
    ensures KeptArtifacts(sh, Run(H, all).sh) && Run(H, all).sh.finalization == Intent(id, o, sh.finalization)
  {
    hide Run, NonOverlapping, Poised, Works, WroteArtifacts, KeptArtifacts;
    PoisedIsUnstarted(Run(H, actions), id);
    NextIsPoised(Run(H, actions), id, sh, log, o, next);
    CompletedKeepsArtifacts(Run(H, actions), id, sh, log, o);
    all := StageCompletes(H, actions, id, c, sh, log, o);
  }

  // ---- Up to the confirmed package ----

  /** Nothing has been proved, approved or built, and no failure was asked for. */
  predicate Unproved(sh: Shared) {
    && sh.gate.None? && sh.approval.None? && sh.proof.None? && !sh.builderIntent && sh.buildResult.None?
    && sh.finalization.None? && sh.doneEvents == 0
  }

  lemma PassesThrough(H: HashFunction, actions: seq<Action>, id: Identity, next: Identity) returns (all: seq<Action>)
    requires NonOverlapping(H, actions) && Poised(Run(H, actions), id) && Unproved(Run(H, actions).sh)
    requires JustAdvances(id.stage) && QueuedBy(id, Advance(Plain)) == Some(next)
    ensures NonOverlapping(H, all) && Poised(Run(H, all), next) && (Faultless(actions) ==> Faultless(all))
    ensures Unproved(Run(H, all).sh)
  {
    hide Run, NonOverlapping;
    var s := Run(H, actions);
    AdvancesAlone(H, s, id, Mismatch());
    hide Poised, Works;
    all := Advances(H, actions, id, Mismatch(), Begun(s, id).sh, s.log, Advance(Plain), next);
  }

  lemma PlanGetsConfirmed(H: HashFunction) returns (all: seq<Action>)
    ensures NonOverlapping(H, all) && Poised(Run(H, all), Identity(Planner, 0)) && Faultless(all)
    ensures Unproved(Run(H, all).sh)
  {
    var s, id := Run(H, []), Identity(Researcher, 0);
    assert s == Initial() && IsUnstarted(s, id);
    AdvancesAlone(H, s, id, Mismatch());
    hide Run, NonOverlapping, Works;
    all := StageCompletes(H, [], id, Mismatch(), Begun(s, id).sh, s.log, Advance(Plain));
    all := ConfirmationQueuesPlanner(H, all, Mismatch());
    assert Run(H, all).sh.leases == map[];
  }

  /** Research, a confirmed plan, and the stages up to triple validation. */
  lemma ReachesValidation(H: HashFunction) returns (all: seq<Action>)
    ensures NonOverlapping(H, all) && Poised(Run(H, all), Identity(TripleValidation, 0)) && Faultless(all)
    ensures Unproved(Run(H, all).sh)
  {
    all := PlanGetsConfirmed(H);
    hide Run, NonOverlapping, Poised, Unproved;
    all := PassesThrough(H, all, Identity(Planner, 0), Identity(Refactor, 0));
    all := PassesThrough(H, all, Identity(Refactor, 0), Identity(GapAnalysis, 0));
    all := PassesThrough(H, all, Identity(GapAnalysis, 0), Identity(Evaluation, 0));
    all := PassesThrough(H, all, Identity(Evaluation, 0), Identity(TripleValidation, 0));
  }

  /** A valid triple, packaged with this content: the run stands before the hash stage. */
  lemma ReachesHash(H: HashFunction, c: Choice) returns (all: seq<Action>)
    requires c.triple.allValid
    ensures NonOverlapping(H, all) && Poised(Run(H, all), Identity(CreateHash, 0)) && Faultless(all)
    ensures Unproved(Run(H, all).sh) && Run(H, all).sh.confirmed == Some(Package(c.content, c.triple))
  {
    hide Run, NonOverlapping, Works;
    all := ReachesValidation(H);
    var s, id := Run(H, all), Identity(TripleValidation, 0);
    ValidatesAlone(H, s, id, c);
    all := Advances(H, all, id, c, Begun(s, id).sh.(triple := Some(c.triple)), s.log, Advance(Plain),
                    Identity(Confirmation, 0));
    s, id := Run(H, all), Identity(Confirmation, 0);
    PackagesAlone(H, s, id, c, c.triple);
    hide Poised;
    all := Advances(H, all, id, c, Begun(s, id).sh.(confirmed := Some(Package(c.content, c.triple))), s.log,
                    Advance(Plain), Identity(CreateHash, 0));
  }

  // ---- A recomputed hash that differs ----

  /** A valid package whose recomputed hash differs: the run heads for a failed finalization. */
  lemma ReachesFailedFinalization(H: HashFunction) returns (all: seq<Action>)
    ensures NonOverlapping(H, all) && Poised(Run(H, all), Identity(Finalize, 0)) && Faultless(all)
    ensures Run(H, all).sh.finalization == Some(HASH_MISMATCH) && Run(H, all).sh.doneEvents == 0
  {
    var c := Mismatch();
    all := ReachesHash(H, c);
    hide Run, NonOverlapping, Works;
    var s, id := Run(H, all), Identity(CreateHash, 0);
    var pkg := Package(c.content, c.triple);
    HashFailsAlone(H, s, id, c, pkg);
    hide Poised;
    var proof := Proof(H(pkg), false);
    all := Advances(H, all, id, c, Begun(s, id).sh.(proof := Some(proof)), s.log.(proofs := s.log.proofs + {proof}),
                    Terminal(HASH_MISMATCH), Identity(Finalize, 0));
  }

  // ---- An equal hash, an approval and a build ----

  /** The gate is open for this package under its canonical hash, and the proof of that hash is recorded. */
  predicate GateIsOpen(H: HashFunction, sh: Shared, pkg: Package) {
    && sh.confirmed == Some(pkg) && sh.gate == Some(Gate(pkg, H(pkg))) && sh.proof == Some(Proof(H(pkg), true))
    && !sh.builderIntent && sh.finalization.None? && sh.doneEvents == 0
  }

  /** What the hash stage wrote for an equal proof. */
  function Proved(sh: Shared, pkg: Package, proof: Proof): Shared {
    sh.(gate := Some(Gate(pkg, proof.created)), proof := Some(proof))
  }

  lemma HashProvesAlone(H: HashFunction, s: System, id: Identity, c: Choice, pkg: Package)
    requires id.stage == CreateHash && id !in s.sh.marks && s.sh.confirmed == Some(pkg) && s.sh.gate.None? && c.equal
    requires AdmitsGate(pkg, H(pkg))
    ensures var proof := Proof(H(pkg), true);
            Works(H, s, id, c, Proved(Begun(s, id).sh, pkg, proof), s.log.(proofs := s.log.proofs + {proof}),
                  Advance(Plain))
  {
    hide Reaches, AdmitsGate;
    var proof := Proof(H(pkg), true);
    var r0 := StepResult(Begun(s, id).sh, s.log, W(id, Working(Begin)));
    var gated := r0.sh.(gate := Some(Gate(pkg, proof.created)));
    ReachesSelf(H, r0, s.next, c);
    ReachesOne(H, r0, s.next, c, r0);
    ReachesOne(H, r0, s.next, c, StepResult(r0.sh, s.log, W(id, Working(Hashing(OpenGate(pkg, proof))))));
    ReachesOne(H, r0, s.next, c, StepResult(gated, s.log, W(id, Working(Hashing(CheckGate(pkg, proof))))));
    ReachesOne(H, r0, s.next, c, StepResult(gated, s.log, W(id, Working(Hashing(SaveProof(proof))))));
    ReachesOne(H, r0, s.next, c, StepResult(gated.(proof := Some(proof)), s.log.(proofs := s.log.proofs + {proof}),
                                            W(id, Working(Hashing(ReloadProof)))));
  }

  /** Nothing is alive and nothing from Build on was executed: the run waits for the approval. */
  ghost predicate Waits(s: System) {
    && s.sh.leases == map[]
    && (forall x :: x in s.sh.executed || x in s.sh.marks ==> x.stage == Researcher || ExecutionsLeft(x) > 2)
    && (forall n :: n in s.procs ==> !Live(s.procs[n]))
    && s.sh.snapshot.Running? && s.sh.terminalState.None? && s.sh.terminalIssue.None?
  }

  lemma HashedWaits(s: System, sh: Shared, log: History)
    requires var id := Identity(CreateHash, 0); Poised(s, id) && WroteArtifacts(Begun(s, id).sh, sh)
    ensures Waits(Completed(s, Identity(CreateHash, 0), sh, log, Advance(Plain)))
  {
    var s' := Completed(s, Identity(CreateHash, 0), sh, log, Advance(Plain));
    assert s'.sh.leases == map[];
    hide Live;
  }

  lemma ReachesApproval(H: HashFunction, c: Choice, pkg: Package) returns (all: seq<Action>)
    requires pkg == Package(c.content, c.triple) && c.equal && AdmitsGate(pkg, H(pkg))
    ensures NonOverlapping(H, all) && Faultless(all) && Waits(Run(H, all)) && GateIsOpen(H, Run(H, all).sh, pkg)
    ensures Run(H, all).sh.approval.None?
  {
    hide Run, NonOverlapping, Works;
    all := ReachesHash(H, c);
    var s, id, proof := Run(H, all), Identity(CreateHash, 0), Proof(H(pkg), true);
    var sh, log := Proved(Begun(s, id).sh, pkg, proof), s.log.(proofs := s.log.proofs + {proof});
    PoisedIsUnstarted(s, id);
    HashProvesAlone(H, s, id, c, pkg);
    HashedWaits(s, sh, log);
    CompletedKeepsArtifacts(s, id, sh, log, Advance(Plain));
    hide Poised, Waits, Completed;
    all := StageCompletes(H, all, id, c, sh, log, Advance(Plain));
  }

  lemma ApprovedIsPoised(s: System, s': System)
    requires Waits(s) && s'.sh == s.sh.(approval := s'.sh.approval, jobs := s.sh.jobs + {Identity(Build, 0)})
    requires forall n :: n in s'.procs ==> (n in s.procs && s'.procs[n] == s.procs[n]) || s'.procs[n].Approving?
    ensures Poised(s', Identity(Build, 0))
  {
  }

  /** A human approves the hash on record. */
  lemma ReachesBuild(H: HashFunction, c: Choice, pkg: Package) returns (all: seq<Action>)
    requires pkg == Package(c.content, c.triple) && c.equal && AdmitsGate(pkg, H(pkg))
    ensures NonOverlapping(H, all) && Faultless(all) && Poised(Run(H, all), Identity(Build, 0))
    ensures GateIsOpen(H, Run(H, all).sh, pkg) && Run(H, all).sh.approval == Some(H(pkg))
  {
    hide Run, NonOverlapping, Reaches, ProcessStep, Waits, Poised, AdmitsGate;
    all := ReachesApproval(H, c, pkg);
    var s, gate := Run(H, all), Gate(pkg, H(pkg));
    NonOverlappingExtends(H, all, RequestApprove(gate.hash));
    WaitsIsRunning(s);
    all := all + [RequestApprove(gate.hash)];
    var r := ApprovesAlone(H, s.sh, s.log, s.next, c, gate);
    all := Proceeds(H, all, s.next, c, r);
    ApprovedIsPoised(s, Run(H, all));
  }

  lemma WaitsIsRunning(s: System)
    requires Waits(s)
    ensures s.sh.snapshot.Running?
  {
  }

  /** What a build wrote that took its intent, passed every check and ran the Builder. */
  function Built(sh: Shared, build: BuildResult): Shared {
    sh.(builderIntent := true, buildResult := Some(build))
  }

  function BuiltLog(log: History, n: nat, run: BuilderRun): History {
    log.(builderOwner := Some(n), builderRuns := log.builderRuns + [run])
  }

  lemma RunsBuilderAlone(H: HashFunction, sh: Shared, log: History, n: nat, c: Choice, id: Identity, pkg: Package)
    requires GateIsOpen(H, sh.(builderIntent := false), pkg) && sh.approval == Some(H(pkg))
    ensures var proof := Proof(H(pkg), true);
            Reaches(H, StepResult(sh, log, W(id, Working(Building(LoadPackage)))), n, c,
                    StepResult(sh, log, W(id, Working(Building(RunBuilder(pkg, proof))))))
  {
    hide Reaches;
    var proof, gate := Proof(H(pkg), true), Gate(pkg, H(pkg));
    var r0 := StepResult(sh, log, W(id, Working(Building(LoadPackage))));
    ReachesSelf(H, r0, n, c);
    ReachesOne(H, r0, n, c, r0);
    ReachesOne(H, r0, n, c, StepResult(sh, log, W(id, Working(Building(LoadProof(pkg))))));
    ReachesOne(H, r0, n, c, StepResult(sh, log, W(id, Working(Building(ReadGate(pkg, proof))))));
    ReachesOne(H, r0, n, c, StepResult(sh, log, W(id, Working(Building(ReadApproval(pkg, proof, gate))))));
    ReachesOne(H, r0, n, c, StepResult(sh, log, W(id, Working(Building(ReadGateAgain(pkg, proof, gate))))));
  }

  lemma RecordsBuildAlone(H: HashFunction, sh: Shared, log: History, n: nat, c: Choice, id: Identity, pkg: Package)
    requires c.build.result == Passed
    ensures var proof := Proof(H(pkg), true);
            Reaches(H, StepResult(sh, log, W(id, Working(Building(RunBuilder(pkg, proof))))), n, c,
                    StepResult(sh.(buildResult := Some(c.build)),
                               log.(builderRuns := log.builderRuns + [BuilderRun(pkg, H(pkg), c.build)]),
                               W(id, Save(Advance(Plain)))))
  {
    hide Reaches;
    var log' := log.(builderRuns := log.builderRuns + [BuilderRun(pkg, H(pkg), c.build)]);
    var r0 := StepResult(sh, log, W(id, Working(Building(RunBuilder(pkg, Proof(H(pkg), true))))));
    ReachesSelf(H, r0, n, c);
    ReachesOne(H, r0, n, c, r0);
    ReachesOne(H, r0, n, c, StepResult(sh, log', W(id, Working(Building(SaveResult(c.build))))));
    ReachesOne(H, r0, n, c,
               StepResult(sh.(buildResult := Some(c.build)), log', W(id, Working(Building(ReloadResult)))));
  }

  lemma BuildsAlone(H: HashFunction, s: System, id: Identity, c: Choice, pkg: Package)
    requires id.stage == Build && id !in s.sh.marks && c.build.result == Passed
    requires GateIsOpen(H, s.sh, pkg) && s.sh.approval == Some(H(pkg))
    ensures Works(H, s, id, c, Built(Begun(s, id).sh, c.build),
                  BuiltLog(s.log, s.next, BuilderRun(pkg, H(pkg), c.build)), Advance(Plain))
  {
    hide Reaches;
    var n, sh := s.next, Begun(s, id).sh;
    var r0 := StepResult(sh, s.log, W(id, Working(Begin)));
    var taken, log := sh.(builderIntent := true), s.log.(builderOwner := Some(n));
    var loading := StepResult(taken, log, W(id, Working(Building(LoadPackage))));
    var ready := StepResult(taken, log, W(id, Working(Building(RunBuilder(pkg, Proof(H(pkg), true))))));
    ReachesSelf(H, r0, n, c);
    ReachesOne(H, r0, n, c, r0);
    hide ProcessStep;
    RunsBuilderAlone(H, taken, log, n, c, id, pkg);
    RecordsBuildAlone(H, taken, log, n, c, id, pkg);
    ReachesTransitive(H, r0, n, c, loading, ready);
    ReachesTransitive(H, r0, n, c, ready,
                      StepResult(Built(sh, c.build), BuiltLog(s.log, n, BuilderRun(pkg, H(pkg), c.build)),
                                 W(id, Save(Advance(Plain)))));
  }

  lemma ReachesFinalize(H: HashFunction, c: Choice, pkg: Package) returns (all: seq<Action>)
    requires pkg == Package(c.content, c.triple) && c.equal && AdmitsGate(pkg, H(pkg)) && c.build.result == Passed
    ensures NonOverlapping(H, all) && Faultless(all) && Poised(Run(H, all), Identity(Finalize, 0))
    ensures var sh := Run(H, all).sh;
            && GateIsOpen(H, sh.(builderIntent := false), pkg) && sh.approval == Some(H(pkg))
            && sh.buildResult == Some(c.build)
  {
    hide Run, NonOverlapping, Works, AdmitsGate;
    all := ReachesBuild(H, c, pkg);
    var s, id := Run(H, all), Identity(Build, 0);
    BuildsAlone(H, s, id, c, pkg);
    hide Poised;
    all := Advances(H, all, id, c, Built(Begun(s, id).sh, c.build),
                    BuiltLog(s.log, s.next, BuilderRun(pkg, H(pkg), c.build)), Advance(Plain), Identity(Finalize, 0));
  }

  // ---- To the end of the run ----

  /** The winner of the terminal marker saves its own issue. */
  function Agreed(sh: Shared, o: Outcome): Shared {
    sh.(terminalState := Some(Pending), terminalIssue := Some(DoneIssue(o)))
  }

  lemma AgreesUndisturbed(H: HashFunction, sh: Shared, log: History, n: nat, c: Choice, o: Outcome)
    requires sh.terminalState.None?
    ensures Reaches(H, StepResult(sh, log, W(LAST_STAGE, Carrying(o, ApplyEffect))), n, c,
                    StepResult(Agreed(sh, o), log, W(LAST_STAGE, Carrying(o, Finishing(ReadSnapshot(DoneIssue(o)))))))
  {
    hide Reaches;
    var r0 := StepResult(sh, log, W(LAST_STAGE, Carrying(o, ApplyEffect)));
    var marked := sh.(terminalState := Some(Pending));
    ReachesSelf(H, r0, n, c);
    ReachesOne(H, r0, n, c, r0);
    ReachesOne(H, r0, n, c, StepResult(sh, log, W(LAST_STAGE, Carrying(o, Finishing(ReadState)))));
    ReachesOne(H, r0, n, c, StepResult(sh, log, W(LAST_STAGE, Carrying(o, Finishing(MarkPending)))));
    ReachesOne(H, r0, n, c, StepResult(marked, log, W(LAST_STAGE, Carrying(o, Finishing(SaveIssue)))));
  }

  lemma WritesUndisturbed(
    H: HashFunction, sh: Shared, log: History, n: nat, c: Choice, o: Outcome, issue: Option<Issue>)
    returns (r: StepResult)
    requires sh.snapshot.Running?
    ensures Reaches(H, StepResult(sh, log, W(LAST_STAGE, Carrying(o, Finishing(ReadSnapshot(issue))))), n, c, r)
    ensures r.sh == sh.(snapshot := FinishedSnapshot(DoneResult(o), issue), doneEvents := sh.doneEvents + 1,
                        terminalState := Some(Committed), marks := sh.marks[LAST_STAGE := Committed])
  {
    hide Reaches, FinishedSnapshot;
    var r0 := StepResult(sh, log, W(LAST_STAGE, Carrying(o, Finishing(ReadSnapshot(issue)))));
    var written := sh.(snapshot := FinishedSnapshot(DoneResult(o), issue));
    var told := written.(doneEvents := sh.doneEvents + 1);
    var log' := log.(finishes := log.finishes + 1, passedBy := ProofOf(o));
    ReachesSelf(H, r0, n, c);
    ReachesOne(H, r0, n, c, r0);
    ReachesOne(H, r0, n, c, StepResult(sh, log, W(LAST_STAGE, Carrying(o, Finishing(WriteSnapshot(issue, true))))));
    ReachesOne(H, r0, n, c, StepResult(written, log', W(LAST_STAGE, Carrying(o, Finishing(EmitDone)))));
    ReachesOne(H, r0, n, c, StepResult(told, log', W(LAST_STAGE, Carrying(o, Finishing(MarkDone)))));
    var last := StepResult(told.(terminalState := Some(Committed)), log', W(LAST_STAGE, Carrying(o, WriteCommitted)));
    ReachesOne(H, r0, n, c, last);
    r := One(H, last, n, c);
  }

  /** The one finisher of an undisturbed run: marker, issue, snapshot, Done event, committed. */
  lemma FinishesUndisturbed(H: HashFunction, sh: Shared, log: History, n: nat, c: Choice, o: Outcome)
    returns (r: StepResult)
    requires sh.snapshot.Running? && sh.terminalState.None?
    ensures Reaches(H, StepResult(sh, log, W(LAST_STAGE, Carrying(o, ApplyEffect))), n, c, r)
    ensures r.sh == sh.(terminalState := Some(Committed), terminalIssue := r.sh.terminalIssue,
                        snapshot := r.sh.snapshot, doneEvents := sh.doneEvents + 1, marks := sh.marks[LAST_STAGE := Committed])
    ensures o.Advance? ==> r.sh.snapshot == Finished(Passed, None, None)
    ensures o.Terminal? ==> r.sh.snapshot == Finished(Failed, Some(o.issue.evidence), Some(o.issue.issueType))
  {
    hide Reaches, ProcessStep;
    AgreesUndisturbed(H, sh, log, n, c, o);
    r := WritesUndisturbed(H, Agreed(sh, o), log, n, c, o, DoneIssue(o));
    var agreed := StepResult(Agreed(sh, o), log, W(LAST_STAGE, Carrying(o, Finishing(ReadSnapshot(DoneIssue(o))))));
    ReachesTransitive(H, StepResult(sh, log, W(LAST_STAGE, Carrying(o, ApplyEffect))), n, c, agreed, r);
  }

  lemma FinalizeFinishes(H: HashFunction, actions: seq<Action>, c: Choice, o: Outcome) returns (all: seq<Action>)
    requires NonOverlapping(H, actions) && Poised(Run(H, actions), LAST_STAGE) && Faultless(actions)
    requires var s := Run(H, actions); Works(H, s, LAST_STAGE, c, Begun(s, LAST_STAGE).sh, s.log, o)
    ensures NonOverlapping(H, all) && Faultless(all)
    ensures var sh, sh' := Run(H, actions).sh, Run(H, all).sh;
            && LAST_STAGE in sh'.outcomes && sh'.outcomes[LAST_STAGE] == o && sh'.terminalState == Some(Committed)
            && (o.Advance? ==> sh'.snapshot == Finished(Passed, None, None))
            && (o.Terminal? ==> sh'.snapshot == Finished(Failed, Some(o.issue.evidence), Some(o.issue.issueType)))
            && sh'.doneEvents == sh.doneEvents + 1
            && sh'.gate == sh.gate && sh'.approval == sh.approval && sh'.buildResult == sh.buildResult
  {
    hide Run, NonOverlapping, Reaches, ProcessStep, Faultless;
    var s := Run(H, actions);
    var n, sh := s.next, Begun(s, LAST_STAGE).sh;
    PoisedIsUnstarted(s, LAST_STAGE);
    all := StageBegins(H, actions, LAST_STAGE, c);
    var recorded := Recorded(sh, LAST_STAGE, o);
    var pending := SetMark(recorded, LAST_STAGE, Pending);
    CommitsAlone(H, sh, s.log, n, c, LAST_STAGE, o);
    PendsAlone(H, recorded, s.log, n, c, LAST_STAGE, o);
    var r := FinishesUndisturbed(H, pending, s.log, n, c, o);
    var r0 := Of(Begun(s, LAST_STAGE), n);
    ReachesTransitive(H, r0, n, c, StepResult(sh, s.log, W(LAST_STAGE, Save(o))),
                      StepResult(recorded, s.log, W(LAST_STAGE, Carrying(o, ReadMark))));
    ReachesTransitive(H, r0, n, c, StepResult(recorded, s.log, W(LAST_STAGE, Carrying(o, ReadMark))),
                      StepResult(pending, s.log, W(LAST_STAGE, Carrying(o, ApplyEffect))));
    ReachesTransitive(H, r0, n, c, StepResult(pending, s.log, W(LAST_STAGE, Carrying(o, ApplyEffect))), r);
    all := Proceeds(H, all, n, c, r);
  }

  /**
   * A run can pass: for every hash function that gives a valid package a SHA-256 hash, research, the plan's
   * confirmation, every stage, the approval of that hash and a build that reports it lead, without any fault, to a
   * passed snapshot and one Done event.
   */
  lemma {:induction false} UndisturbedRunPasses(H: HashFunction, content: int, triple: Triple)
    returns (actions: seq<Action>)
    requires triple.allValid && triple.schema == Passed && triple.fixture == Passed && triple.goal == Passed
    requires IsSha256Hex(H(Package(content, triple)))
    ensures NonOverlapping(H, actions) && Faultless(actions)
    ensures var sh, pkg := Run(H, actions).sh, Package(content, triple);
            && sh.snapshot == Finished(Passed, None, None) && sh.terminalState == Some(Committed) && sh.doneEvents == 1
            && sh.gate == Some(Gate(pkg, H(pkg))) && sh.approval == Some(H(pkg))
            && sh.buildResult == Some(BuildResult(Passed, Some(H(pkg))))
  {
    hide Run, NonOverlapping, Works, Faultless;
    var pkg := Package(content, triple);
    var c := Choice(triple, content, true, BuildResult(Passed, Some(H(pkg))), false, false);
    actions := ReachesFinalize(H, c, pkg);
    PoisedIsUnstarted(Run(H, actions), LAST_STAGE);
    hide Poised;
    var o := ComparesAlone(H, Run(H, actions), LAST_STAGE, c);
    actions := FinalizeFinishes(H, actions, c, o);
  }

  /** And it can fail with its issue: an unequal proof ends, without any fault, in a snapshot that carries it. */
  lemma {:induction false} UndisturbedRunFails(H: HashFunction) returns (actions: seq<Action>)
    ensures NonOverlapping(H, actions) && Faultless(actions)
    ensures var sh := Run(H, actions).sh;
            && sh.snapshot == Finished(Failed, Some("hash mismatch"), Some(RootCause))
            && sh.terminalState == Some(Committed) && sh.doneEvents == 1
  {
    hide Run, NonOverlapping, Works, Faultless;
    actions := ReachesFailedFinalization(H);
    PoisedIsUnstarted(Run(H, actions), LAST_STAGE);
    hide Poised;
    IntentFailsAlone(H, Run(H, actions), Mismatch(), HASH_MISMATCH);
    actions := FinalizeFinishes(H, actions, Mismatch(), Terminal(HASH_MISMATCH));
  }
}
