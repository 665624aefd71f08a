/** What a stage, a retry or a plan confirmation does when nothing interferes, as stretches of non-overlapping runs. */
module PipelineProgress {
  import opened Wrappers
  import opened Stages
  import opened PipelineState
  import opened PipelineMachine
  import opened PipelineLeases
  import opened PipelineRequests
  import opened PipelineRecovery
  import opened PipelineServices

  // ---- Extending a run ----

  lemma NonOverlappingExtends(H: HashFunction, before: seq<Action>, action: Action)
    requires NonOverlapping(H, before) && StartsAlone(Run(H, before), action)
    ensures NonOverlapping(H, before + [action]) && Run(H, before + [action]) == Step(H, Run(H, before), action)
  {
    assert (before + [action])[..|before|] == before;
  }

  predicate IsFault(action: Action) {
    action.Throw? || action.Crash? || action.Renew? || action.Expire?
  }

  /** Nothing throws, crashes or expires in the run. */
  predicate Faultless(actions: seq<Action>) {
    forall i :: 0 <= i < |actions| ==> !IsFault(actions[i])
  }

  lemma {:induction false} ActingNeverOverlaps(H: HashFunction, actions: seq<Action>, n: nat, c: Choice, k: nat)
    requires NonOverlapping(H, actions)
    ensures NonOverlapping(H, actions + seq(k, _ => Act(n, c)))
  {
    var acts := seq(k, _ => Act(n, c));
    if k == 0 {
      assert actions + acts == actions;
    } else {
      ActingNeverOverlaps(H, actions, n, c, k - 1);
      assert (actions + acts)[..|actions + acts| - 1] == actions + seq(k - 1, _ => Act(n, c));
    }
  }

  function Of(s: System, n: nat): StepResult
    requires n in s.procs
  {
    StepResult(s.sh, s.log, s.procs[n])
  }

  function With(s: System, n: nat, r: StepResult): System {
    s.(sh := r.sh, log := r.log, procs := s.procs[n := r.proc])
  }

  /** Whatever a process alone reaches, the run reaches by letting it act. */
  lemma Proceeds(H: HashFunction, actions: seq<Action>, n: nat, c: Choice, r: StepResult) returns (all: seq<Action>)
    requires NonOverlapping(H, actions) && n in Run(H, actions).procs
    requires Reaches(H, Of(Run(H, actions), n), n, c, r)
    ensures actions <= all && NonOverlapping(H, all) && Run(H, all) == With(Run(H, actions), n, r)
    ensures Faultless(actions) ==> Faultless(all)
  {
    var k: nat :| Solo(H, Of(Run(H, actions), n), n, c, k) == r;
    all := actions + seq(k, _ => Act(n, c));
    ActingNeverOverlaps(H, actions, n, c, k);
    SoloIsAStretchOfARun(H, actions, n, c, k);
  }

  lemma {:induction false} SoloAdds(H: HashFunction, r: StepResult, n: nat, c: Choice, j: nat, k: nat)
    ensures Solo(H, r, n, c, j + k) == Solo(H, Solo(H, r, n, c, j), n, c, k)
    decreases k
  {
    hide One;
    if k > 0 {
      SoloAdds(H, r, n, c, j, k - 1);
    }
  }

  lemma ReachesTransitive(H: HashFunction, a: StepResult, n: nat, c: Choice, b: StepResult, d: StepResult)
    requires Reaches(H, a, n, c, b) && Reaches(H, b, n, c, d)
    ensures Reaches(H, a, n, c, d)
  {
    var j: nat :| Solo(H, a, n, c, j) == b;
    var k: nat :| Solo(H, b, n, c, k) == d;
    SoloAdds(H, a, n, c, j, k);
  }

  // ---- One attempt alone, part by part ----

  function W(id: Identity, pc: PC): Process {
    Worker(id, pc, false, false)
  }

  lemma EntersAlone(H: HashFunction, sh: Shared, log: History, n: nat, c: Choice, id: Identity)
    requires id !in sh.executed && id !in sh.leases && !AcquireSeesCompleted(sh, id)
    ensures Reaches(H, StepResult(sh, log, W(id, Entering(ReadExecuted))), n, c,
                    StepResult(sh.(leases := sh.leases[id := n]), log, W(id, Working(Begin))))
  {
    hide Reaches;
    var r0 := StepResult(sh, log, W(id, Entering(ReadExecuted)));
    var r1 := StepResult(sh, log, W(id, Entering(CheckCompleted)));
    var r2 := StepResult(sh, log, W(id, Entering(Acquire)));
    ReachesSelf(H, r0, n, c);
    ReachesOne(H, r0, n, c, r0);
    ReachesOne(H, r0, n, c, r1);
    ReachesOne(H, r0, n, c, r2);
  }

  /** The outcome and its markers are stored and the lease is gone. */
  function Recorded(sh: Shared, id: Identity, o: Outcome): Shared {
    sh.(outcomes := sh.outcomes[id := o], executed := sh.executed + {id},
        completed := sh.completed + {CompletedKey(StageName(id.stage), id.iteration)}, leases := sh.leases - {id})
  }

  lemma CommitsAlone(H: HashFunction, sh: Shared, log: History, n: nat, c: Choice, id: Identity, o: Outcome)
    requires id in sh.leases && sh.leases[id] == n
    ensures Reaches(H, StepResult(sh, log, W(id, Save(o))), n, c,
                    StepResult(Recorded(sh, id, o), log, W(id, Carrying(o, ReadMark))))
  {
    hide Reaches;
    var r0 := StepResult(sh, log, W(id, Save(o)));
    var saved := sh.(outcomes := sh.outcomes[id := o], executed := sh.executed + {id});
    var marked := saved.(completed := sh.completed + {CompletedKey(StageName(id.stage), id.iteration)});
    ReachesSelf(H, r0, n, c);
    ReachesOne(H, r0, n, c, r0);
    ReachesOne(H, r0, n, c, StepResult(saved, log, W(id, Carrying(o, WriteCompleted))));
    ReachesOne(H, r0, n, c, StepResult(marked, log, W(id, Carrying(o, Release))));
  }

  lemma PendsAlone(H: HashFunction, sh: Shared, log: History, n: nat, c: Choice, id: Identity, o: Outcome)
    requires id !in sh.marks
    ensures Reaches(H, StepResult(sh, log, W(id, Carrying(o, ReadMark))), n, c,
                    StepResult(SetMark(sh, id, Pending), log, W(id, Carrying(o, ApplyEffect))))
  {
    hide Reaches, Resolve;
    var r0 := StepResult(sh, log, W(id, Carrying(o, ReadMark)));
    ReachesSelf(H, r0, n, c);
    ReachesOne(H, r0, n, c, r0);
    ReachesOne(H, r0, n, c, StepResult(sh, log, W(id, Carrying(o, WritePending))));
  }

  /** The effect of a transition that does not end the run: its intent, then its job if it has one. */
  function Effected(sh: Shared, transition: Transition): Shared {
    var saved := SaveFinalization(sh, transition);
    if transition.Next? then Enqueue(saved, Identity(transition.stage, transition.iteration)) else saved
  }

  lemma AppliesAlone(H: HashFunction, sh: Shared, log: History, n: nat, c: Choice, id: Identity, o: Outcome)
    requires !Resolve(id.stage, o, id.iteration).Done?
    ensures Reaches(H, StepResult(sh, log, W(id, Carrying(o, ApplyEffect))), n, c,
                    StepResult(SetMark(Effected(sh, Resolve(id.stage, o, id.iteration)), id, Committed), log, W(id, Ended)))
  {
    hide Reaches, Resolve;
    var r0 := StepResult(sh, log, W(id, Carrying(o, ApplyEffect)));
    var transition := Resolve(id.stage, o, id.iteration);
    ReachesSelf(H, r0, n, c);
    ReachesOne(H, r0, n, c, r0);
    if transition.Next? {
      ReachesOne(H, r0, n, c, StepResult(SaveFinalization(sh, transition), log, W(id, Carrying(o, AddJob))));
    }
    ReachesOne(H, r0, n, c, StepResult(Effected(sh, transition), log, W(id, Carrying(o, WriteCommitted))));
  }

  /** The outcome recorded and its transition committed. */
  function Settled(sh: Shared, id: Identity, o: Outcome): Shared {
    SetMark(Effected(SetMark(Recorded(sh, id, o), id, Pending), Resolve(id.stage, o, id.iteration)), id, Committed)
  }

  /** From the saved outcome to the end of the attempt, when the transition does not end the run. */
  lemma SettlesAlone(H: HashFunction, sh: Shared, log: History, n: nat, c: Choice, id: Identity, o: Outcome)
    requires id in sh.leases && sh.leases[id] == n && id !in sh.marks
    requires !Resolve(id.stage, o, id.iteration).Done?
    ensures Reaches(H, StepResult(sh, log, W(id, Save(o))), n, c, StepResult(Settled(sh, id, o), log, W(id, Ended)))
  {
    hide Reaches, Resolve, Effected;
    var r0 := StepResult(sh, log, W(id, Save(o)));
    var recorded := Recorded(sh, id, o);
    var pending := SetMark(recorded, id, Pending);
    CommitsAlone(H, sh, log, n, c, id, o);
    PendsAlone(H, recorded, log, n, c, id, o);
    AppliesAlone(H, pending, log, n, c, id, o);
    ReachesTransitive(H, r0, n, c, StepResult(recorded, log, W(id, Carrying(o, ReadMark))),
                      StepResult(pending, log, W(id, Carrying(o, ApplyEffect))));
    ReachesTransitive(H, r0, n, c, StepResult(pending, log, W(id, Carrying(o, ApplyEffect))),
                      StepResult(Settled(sh, id, o), log, W(id, Ended)));
  }

  // ---- A whole stage and a whole confirmation, inside a run ----

  /** The job is queued, was never executed, and nobody is on it. */
  predicate IsUnstarted(s: System, id: Identity) {
    && id in s.sh.jobs && id !in s.sh.executed && id !in s.sh.leases && id !in s.sh.marks
    && StageIteration(id.stage, id.iteration) == id.iteration
    && NoneLive(s, id)
  }

  function Begun(s: System, id: Identity): System {
    s.(sh := s.sh.(leases := s.sh.leases[id := s.next]), procs := s.procs[s.next := W(id, Working(Begin))],
       next := s.next + 1)
  }

  lemma StageBegins(H: HashFunction, actions: seq<Action>, id: Identity, c: Choice) returns (all: seq<Action>)
    requires NonOverlapping(H, actions) && IsUnstarted(Run(H, actions), id)
    ensures actions <= all && NonOverlapping(H, all) && Run(H, all) == Begun(Run(H, actions), id)
    ensures Faultless(actions) ==> Faultless(all)
  {
    hide Run, NonOverlapping, NoneLive, Reaches;
    var s := Run(H, actions);
    NonOverlappingExtends(H, actions, Deliver(id));
    all := actions + [Deliver(id)];
    TheLeaseAloneDecides(H, all, id);
    EntersAlone(H, s.sh, s.log, s.next, c, id);
    all := Proceeds(H, all, s.next, c, StepResult(Begun(s, id).sh, s.log, W(id, Working(Begin))));
    assert Begun(s, id).procs == s.procs[s.next := W(id, Entering(ReadExecuted))][s.next := W(id, Working(Begin))];
  }

  /** The work of a stage, from its lease to the outcome it will save. */
  ghost predicate Works(H: HashFunction, s: System, id: Identity, c: Choice, sh: Shared, log: History, o: Outcome) {
    && Reaches(H, StepResult(Begun(s, id).sh, s.log, W(id, Working(Begin))), s.next, c, StepResult(sh, log, W(id, Save(o))))
    && id in sh.leases && sh.leases[id] == s.next && id !in sh.marks
  }

  function Completed(s: System, id: Identity, sh: Shared, log: History, o: Outcome): System {
    System(Settled(sh, id, o), log, s.procs[s.next := W(id, Ended)], s.next + 1)
  }

  /** An unstarted stage completes: its outcome is recorded and its transition committed. */
  lemma StageCompletes(
    H: HashFunction, actions: seq<Action>, id: Identity, c: Choice, sh: Shared, log: History, o: Outcome)
    returns (all: seq<Action>)
    requires NonOverlapping(H, actions) && IsUnstarted(Run(H, actions), id)
    requires Works(H, Run(H, actions), id, c, sh, log, o) && !Resolve(id.stage, o, id.iteration).Done?
    ensures actions <= all && NonOverlapping(H, all)
    ensures Run(H, all) == Completed(Run(H, actions), id, sh, log, o)
    ensures Faultless(actions) ==> Faultless(all)
  {
    hide Run, NonOverlapping, IsUnstarted, Reaches, Resolve, Settled;
    var s := Run(H, actions);
    all := StageBegins(H, actions, id, c);
    SettlesAlone(H, sh, log, s.next, c, id, o);
    var ended := StepResult(Settled(sh, id, o), log, W(id, Ended));
    ReachesTransitive(H, Of(Begun(s, id), s.next), s.next, c, StepResult(sh, log, W(id, Save(o))), ended);
    all := Proceeds(H, all, s.next, c, ended);
    assert Completed(s, id, sh, log, o).procs == s.procs[s.next := W(id, Working(Begin))][s.next := W(id, Ended)];
  }

  predicate JustAdvances(stage: Stage) {
    stage in {Researcher, Planner, Refactor, GapAnalysis, Evaluation}
  }

  lemma AdvancesAlone(H: HashFunction, s: System, id: Identity, c: Choice)
    requires JustAdvances(id.stage) && id !in s.sh.marks
    ensures Works(H, s, id, c, Begun(s, id).sh, s.log, Advance(Plain))
  {
    hide Reaches;
    var r0 := StepResult(Begun(s, id).sh, s.log, W(id, Working(Begin)));
    ReachesSelf(H, r0, s.next, c);
    ReachesOne(H, r0, s.next, c, r0);
  }

  function PlanConfirmed(s: System): System {
    s.(sh := s.sh.(planGate := true, jobs := s.sh.jobs + {PLANNER_JOB}),
       log := s.log.(planConfirmed := true, requested := s.log.requested + {PLANNER_JOB}),
       procs := s.procs[s.next := Confirming(Confirmed)], next := s.next + 1)
  }

  lemma WinsAlone(H: HashFunction, s: System, c: Choice)
    requires !s.sh.planGate && ResearchKey(s.sh.revision) in s.sh.completed
    ensures Reaches(H, StepResult(s.sh, s.log, Confirming(ReadRevision)), s.next, c,
                    StepResult(s.sh.(planGate := true), s.log.(planConfirmed := true), Confirming(QueuePlanner)))
  {
    hide Reaches;
    var r0 := StepResult(s.sh, s.log, Confirming(ReadRevision));
    ReachesSelf(H, r0, s.next, c);
    ReachesOne(H, r0, s.next, c, r0);
    ReachesOne(H, r0, s.next, c, StepResult(s.sh, s.log, Confirming(CheckResearch(s.sh.revision))));
    ReachesOne(H, r0, s.next, c, StepResult(s.sh, s.log, Confirming(WinGate)));
  }

  lemma ConfirmsAlone(H: HashFunction, s: System, c: Choice)
    requires !s.sh.planGate && ResearchKey(s.sh.revision) in s.sh.completed && !c.addFails
    ensures Reaches(H, StepResult(s.sh, s.log, Confirming(ReadRevision)), s.next, c,
                    StepResult(PlanConfirmed(s).sh, PlanConfirmed(s).log, Confirming(Confirmed)))
  {
    hide Reaches;
    WinsAlone(H, s, c);
    ReachesOne(H, StepResult(s.sh, s.log, Confirming(ReadRevision)), s.next, c,
               StepResult(s.sh.(planGate := true), s.log.(planConfirmed := true), Confirming(QueuePlanner)));
  }

  /** A confirmation of completed research through a free gate queues Planner. */
  lemma ConfirmationQueuesPlanner(H: HashFunction, actions: seq<Action>, c: Choice) returns (all: seq<Action>)
    requires NonOverlapping(H, actions) && !c.addFails && Run(H, actions).sh.snapshot.Running?
    requires ResearchKey(Run(H, actions).sh.revision) in Run(H, actions).sh.completed && !Run(H, actions).sh.planGate
    ensures actions <= all && NonOverlapping(H, all) && Run(H, all) == PlanConfirmed(Run(H, actions))
    ensures Faultless(actions) ==> Faultless(all)
  {
    hide Run, NonOverlapping, Reaches;
    var s := Run(H, actions);
    NonOverlappingExtends(H, actions, RequestConfirm);
    all := actions + [RequestConfirm];
    ConfirmsAlone(H, s, c);
    all := Proceeds(H, all, s.next, c, StepResult(PlanConfirmed(s).sh, PlanConfirmed(s).log, Confirming(Confirmed)));
    assert PlanConfirmed(s).procs == s.procs[s.next := Confirming(ReadRevision)][s.next := Confirming(Confirmed)];
  }

  lemma ActsNext(H: HashFunction, actions: seq<Action>, n: nat) returns (all: seq<Action>)
    requires NonOverlapping(H, actions) && n in Run(H, actions).procs
    ensures actions <= all && NonOverlapping(H, all) && Run(H, all) == Step(H, Run(H, actions), Act(n, NoChoice()))
  {
    all := actions + [Act(n, NoChoice())];
    NonOverlappingExtends(H, actions, Act(n, NoChoice()));
  }

  // ---- Starting a stage over ----

  /** Whatever became of the attempts on a stage: the one alive dies and the lease expires. */
  lemma AttemptsEnd(H: HashFunction, actions: seq<Action>, id: Identity) returns (all: seq<Action>)
    requires NonOverlapping(H, actions)
    ensures actions <= all && NonOverlapping(H, all) && NoneLive(Run(H, all), id)
    ensures var sh := Run(H, actions).sh; Run(H, all).sh == sh.(leases := sh.leases - {id})
  {
    hide Run, NonOverlapping, ProcessStep;
    var s := Run(H, actions);
    NonOverlappingInv(H, actions);
    assert Alone(s);
    hide NonOverlapInv;
    all := actions;
    if n :| n in s.procs && Live(s.procs[n]) && s.procs[n].id == id {
      NonOverlappingExtends(H, all, Crash(n));
      all := all + [Crash(n)];
    }
    assert NoneLive(Run(H, all), id);
    NonOverlappingExtends(H, all, Expire(id));
    all := all + [Expire(id)];
  }

  /** A queued stage without an outcome that nobody is on can be delivered as if for the first time. */
  lemma UnstartedOnceEnded(H: HashFunction, actions: seq<Action>, id: Identity)
    requires NonOverlapping(H, actions) && NoneLive(Run(H, actions), id)
    requires id in Run(H, actions).sh.jobs && id !in Run(H, actions).sh.outcomes && id !in Run(H, actions).sh.leases
    ensures IsUnstarted(Run(H, actions), id)
  {
    hide Run, NoneLive;
    NonOverlappingInv(H, actions);
    if id.stage != Researcher {
      PinningKeepsPipelineJobs(id);
    }
  }

  /** The outcome of an unstarted stage gets recorded. */
  lemma OutcomeGetsRecorded(
    H: HashFunction, actions: seq<Action>, id: Identity, c: Choice, sh: Shared, log: History, o: Outcome)
    returns (all: seq<Action>)
    requires NonOverlapping(H, actions) && IsUnstarted(Run(H, actions), id)
    requires Works(H, Run(H, actions), id, c, sh, log, o)
    ensures actions <= all && NonOverlapping(H, all) && id in Run(H, all).sh.outcomes
  {
    hide Run, NonOverlapping, IsUnstarted, Reaches;
    var s := Run(H, actions);
    all := StageBegins(H, actions, id, c);
    CommitsAlone(H, sh, log, s.next, c, id, o);
    var recorded := StepResult(Recorded(sh, id, o), log, W(id, Carrying(o, ReadMark)));
    ReachesTransitive(H, Of(Begun(s, id), s.next), s.next, c, StepResult(sh, log, W(id, Save(o))), recorded);
    all := Proceeds(H, all, s.next, c, recorded);
  }

  // ---- The work of each stage ----

  /** A valid triple validation, an unequal hash proof, and no failure of the queue. */
  function Mismatch(): Choice {
    Choice(Triple(true, Passed, Passed, Passed), 0, false, BuildResult(Failed, None), false, false)
  }

  lemma ValidatesAlone(H: HashFunction, s: System, id: Identity, c: Choice)
    requires id.stage == TripleValidation && id !in s.sh.marks && c.triple.allValid
    ensures Works(H, s, id, c, Begun(s, id).sh.(triple := Some(c.triple)), s.log, Advance(Plain))
  {
    hide Reaches;
    var r0 := StepResult(Begun(s, id).sh, s.log, W(id, Working(Begin)));
    ReachesSelf(H, r0, s.next, c);
    ReachesOne(H, r0, s.next, c, r0);
    ReachesOne(H, r0, s.next, c, StepResult(r0.sh.(triple := Some(c.triple)), s.log, W(id, Working(ReloadTriple))));
  }

  lemma PackagesAlone(H: HashFunction, s: System, id: Identity, c: Choice, triple: Triple)
    requires id.stage == Confirmation && id !in s.sh.marks && s.sh.triple == Some(triple) && triple.allValid
    ensures Works(H, s, id, c, Begun(s, id).sh.(confirmed := Some(Package(c.content, triple))), s.log, Advance(Plain))
  {
    hide Reaches;
    var r0 := StepResult(Begun(s, id).sh, s.log, W(id, Working(Begin)));
    ReachesSelf(H, r0, s.next, c);
    ReachesOne(H, r0, s.next, c, r0);
    ReachesOne(H, r0, s.next, c, StepResult(r0.sh, s.log, W(id, Working(SaveConfirmed(Package(c.content, triple))))));
  }

  lemma HashFailsAlone(H: HashFunction, s: System, id: Identity, c: Choice, pkg: Package)
    requires id.stage == CreateHash && id !in s.sh.marks && s.sh.confirmed == Some(pkg) && !c.equal
    ensures var proof := Proof(H(pkg), false);
            Works(H, s, id, c, Begun(s, id).sh.(proof := Some(proof)), s.log.(proofs := s.log.proofs + {proof}),
                  Terminal(HASH_MISMATCH))
  {
    hide Reaches;
    var proof := Proof(H(pkg), false);
    var r0 := StepResult(Begun(s, id).sh, s.log, W(id, Working(Begin)));
    ReachesSelf(H, r0, s.next, c);
    ReachesOne(H, r0, s.next, c, r0);
    ReachesOne(H, r0, s.next, c, StepResult(r0.sh, s.log, W(id, Working(Hashing(SaveProof(proof))))));
    ReachesOne(H, r0, s.next, c, StepResult(r0.sh.(proof := Some(proof)), s.log.(proofs := s.log.proofs + {proof}),
                                            W(id, Working(Hashing(ReloadProof)))));
  }

  lemma IntentFailsAlone(H: HashFunction, s: System, c: Choice, issue: Issue)
    requires Identity(Finalize, 0) !in s.sh.marks && s.sh.finalization == Some(issue)
    ensures Works(H, s, Identity(Finalize, 0), c, Begun(s, Identity(Finalize, 0)).sh, s.log, Terminal(issue))
  {
    hide Reaches;
    var r0 := StepResult(Begun(s, Identity(Finalize, 0)).sh, s.log, W(Identity(Finalize, 0), Working(Begin)));
    ReachesSelf(H, r0, s.next, c);
    ReachesOne(H, r0, s.next, c, r0);
  }

  /** A build whose intent was taken before replays what is recorded, or reports uncertainty. */
  lemma RecoversAlone(H: HashFunction, s: System, id: Identity, c: Choice) returns (o: Outcome)
    requires id.stage == Build && id !in s.sh.marks && s.sh.builderIntent
    ensures Works(H, s, id, c, Begun(s, id).sh, s.log, o)
  {
    hide Reaches;
    var r0 := StepResult(Begun(s, id).sh, s.log, W(id, Working(Begin)));
    o := if s.sh.buildResult.None? then Terminal(SystemIssue("Builder execution outcome is uncertain"))
    else if s.sh.buildResult.value.result == Passed then Advance(Plain)
    else Terminal(SystemIssue("Recovered failed Builder evidence"));
    ReachesSelf(H, r0, s.next, c);
    ReachesOne(H, r0, s.next, c, r0);
    ReachesOne(H, r0, s.next, c, StepResult(r0.sh, s.log, W(id, Working(Building(Recover)))));
  }

  /** Finalize without an intent compares the proof and the build result it finds. */
  lemma ComparesAlone(H: HashFunction, s: System, id: Identity, c: Choice) returns (o: Outcome)
    requires id.stage == Finalize && id !in s.sh.marks
    requires s.sh.finalization.None? && s.sh.proof.Some? && s.sh.buildResult.Some?
    ensures Works(H, s, id, c, Begun(s, id).sh, s.log, o)
    ensures var build := s.sh.buildResult.value;
            if build.result == Passed && build.sandboxHash == Some(s.sh.proof.value.created)
            then o == Advance(Verified(s.sh.proof.value)) else o.Terminal?
  {
    hide Reaches;
    var r0 := StepResult(Begun(s, id).sh, s.log, W(id, Working(Begin)));
    var proof, build := s.sh.proof.value, s.sh.buildResult.value;
    o := if build.result != Passed || build.sandboxHash != Some(proof.created)
    then Terminal(SystemIssue("Finalize hash verification failed")) else Advance(Verified(proof));
    ReachesSelf(H, r0, s.next, c);
    ReachesOne(H, r0, s.next, c, r0);
    ReachesOne(H, r0, s.next, c, StepResult(r0.sh, s.log, W(id, Working(Finalizing(LoadFinalProof)))));
    ReachesOne(H, r0, s.next, c, StepResult(r0.sh, s.log, W(id, Working(Finalizing(LoadFinalBuild(proof))))));
  }
}
