/** Stages, outcomes and the canonical transition table, and the measure that bounds a run. */
module Stages {
  import opened Wrappers

  datatype Stage =
    | Researcher
    | Planner
    | Refactor
    | GapAnalysis
    | Evaluation
    | TripleValidation
    | Confirmation
    | CreateHash
    | Build
    | Finalize

  datatype Issue = Issue(issueType: IssueType, evidence: string)

  /** The hash proof artifact: the hash created from the package and whether recomputing it agreed. */
  datatype Proof = Proof(created: string, equal: bool)

  /** What an advancing stage reports; only Finalize carries data that later steps read. */
  datatype Report = Plain | Verified(proof: Proof)

  datatype Outcome =
    | Advance(report: Report)
    | Refine(issue: Issue)
    | Terminal(issue: Issue)

  datatype Transition =
    | Next(stage: Stage, iteration: nat, finalization: Option<Issue>)
    | WaitHuman
    | WaitBuild
    | Done(result: TestResult, issue: Option<Issue>)

  datatype Identity = Identity(stage: Stage, iteration: nat)

  const MAX_REFINEMENT_ITERATIONS: nat := 3
  const MAX_STAGE_EXECUTIONS: nat := 18

  function StageName(stage: Stage): string {
    match stage
    case Researcher => "researcher"
    case Planner => "planner"
    case Refactor => "refactor"
    case GapAnalysis => "gap-analysis"
    case Evaluation => "evaluation"
    case TripleValidation => "triple-validation"
    case Confirmation => "confirmation"
    case CreateHash => "hash"
    case Build => "build"
    case Finalize => "finalize"
  }

  predicate IsIterative(stage: Stage) {
    stage in {Refactor, GapAnalysis, Evaluation, TripleValidation}
  }

  /** Run-level stages are pinned to iteration 0; Researcher keeps its research revision. */
  function StageIteration(stage: Stage, iteration: nat): nat {
    if stage == Researcher then iteration
    else if IsIterative(stage) then iteration
    else 0
  }

  function FailedFinalization(issue: Issue): Transition {
    Next(Finalize, 0, Some(issue))
  }

  function ResolveTripleValidation(outcome: Outcome, iteration: nat): Transition {
    match outcome
    case Terminal(issue) => FailedFinalization(issue)
    case Refine(issue) =>
      if iteration >= MAX_REFINEMENT_ITERATIONS then FailedFinalization(issue)
      else Next(GapAnalysis, iteration + 1, None)
    case Advance(_) => Next(Confirmation, 0, None)
  }

  function Resolve(stage: Stage, outcome: Outcome, iteration: nat): Transition {
    if outcome.Terminal? && stage != Finalize then FailedFinalization(outcome.issue)
    else
      match stage
      case Researcher => WaitHuman
      case Planner => Next(Refactor, 0, None)
      case Refactor => Next(GapAnalysis, iteration, None)
      case GapAnalysis =>
        if outcome.Refine? then Next(GapAnalysis, iteration + 1, None) else Next(Evaluation, iteration, None)
      case Evaluation =>
        if outcome.Refine? then Next(GapAnalysis, iteration + 1, None) else Next(TripleValidation, iteration, None)
      case TripleValidation => ResolveTripleValidation(outcome, iteration)
      case Confirmation => Next(CreateHash, 0, None)
      case CreateHash => WaitBuild
      case Build => Next(Finalize, 0, None)
      case Finalize =>
        if outcome.Terminal? then Done(Failed, Some(outcome.issue)) else Done(Passed, None)
  }

  /** The outcomes the worker's stage switch can return for a stage when fault injection is off. */
  predicate WorkerOutcome(stage: Stage, outcome: Outcome) {
    match stage
    case TripleValidation => !outcome.Terminal?
    case CreateHash => !outcome.Refine?
    case Build => !outcome.Refine?
    case Finalize => outcome.Terminal? || (outcome.Advance? && outcome.report.Verified?)
    case _ => outcome.Advance?
  }

  /** The identities of a run after Researcher: three refinements at most, iteration 0 outside the loop. */
  predicate InPipeline(id: Identity) {
    && id.stage != Researcher
    && id.iteration <= MAX_REFINEMENT_ITERATIONS
    && (!IsIterative(id.stage) || id.stage == Refactor ==> id.iteration == 0)
  }

  /** The most stage executions a run can still need, counting the one of `id` itself. */
  function ExecutionsLeft(id: Identity): int {
    var rounds := MAX_REFINEMENT_ITERATIONS - id.iteration;
    match id.stage
    case Planner => 18
    case Refactor => 17
    case GapAnalysis => 7 + 3 * rounds
    case Evaluation => 6 + 3 * rounds
    case TripleValidation => 5 + 3 * rounds
    case Confirmation => 4
    case CreateHash => 3
    case Build => 2
    case Finalize => 1
    case Researcher => 0
  }

  /** The identity whose job an outcome leads to; CreateHash leads to Build once a human approves. */
  function Successor(id: Identity, outcome: Outcome): Option<Identity> {
    match Resolve(id.stage, outcome, id.iteration)
    case Next(stage, iteration, _) => Some(Identity(stage, iteration))
    case WaitBuild => Some(Identity(Build, 0))
    case _ => None
  }

  /** Every transition a worker outcome can cause stays in the pipeline and uses up the measure. */
  lemma {:induction false} SuccessorDecreases(id: Identity, outcome: Outcome)
    requires InPipeline(id) && WorkerOutcome(id.stage, outcome)
    ensures Successor(id, outcome).Some? ==>
              && InPipeline(Successor(id, outcome).value)
              && ExecutionsLeft(Successor(id, outcome).value) < ExecutionsLeft(id)
    ensures Successor(id, outcome).None? <==> id.stage == Finalize
    ensures id.stage == Finalize <==> Resolve(id.stage, outcome, id.iteration).Done?
  {
    if id.stage == TripleValidation && outcome.Refine? && id.iteration < MAX_REFINEMENT_ITERATIONS {
      assert Resolve(id.stage, outcome, id.iteration) == Next(GapAnalysis, id.iteration + 1, None);
    }
  }

  datatype Visit = Visit(id: Identity, outcome: Outcome)

  /** A run of the pipeline: each visit is the successor of the one before. */
  predicate IsChain(visits: seq<Visit>) {
    && (forall i :: 0 <= i < |visits| ==> WorkerOutcome(visits[i].id.stage, visits[i].outcome))
    && (forall i :: 0 < i < |visits| ==> Successor(visits[i - 1].id, visits[i - 1].outcome) == Some(visits[i].id))
  }

  /** From any pipeline identity, no more visits can follow than the measure allows. */
  lemma {:induction false} ChainIsBounded(visits: seq<Visit>)
    requires visits != [] && IsChain(visits) && InPipeline(visits[0].id)
    ensures |visits| <= ExecutionsLeft(visits[0].id)
    ensures forall i :: 0 <= i < |visits| ==> InPipeline(visits[i].id)
    decreases |visits|
  {
    SuccessorDecreases(visits[0].id, visits[0].outcome);
    if |visits| > 1 {
      var rest := visits[1..];
      assert Successor(visits[0].id, visits[0].outcome) == Some(rest[0].id);
      forall i | 0 < i < |rest| ensures Successor(rest[i - 1].id, rest[i - 1].outcome) == Some(rest[i].id) {
        assert rest[i] == visits[i + 1] && rest[i - 1] == visits[i];
      }
      ChainIsBounded(rest);
      forall i | 0 <= i < |visits| ensures InPipeline(visits[i].id) {
        if i > 0 {
          assert visits[i] == rest[i - 1];
        }
      }
    }
  }

  /** A run from Planner takes at most 18 stage executions, and ends only in Finalize's done transition. */
  lemma {:induction false} RunFromPlannerTerminates(visits: seq<Visit>)
    requires visits != [] && IsChain(visits) && visits[0].id == Identity(Planner, 0)
    ensures |visits| <= MAX_STAGE_EXECUTIONS
    ensures var last := visits[|visits| - 1];
            Successor(last.id, last.outcome).None? <==> Resolve(last.id.stage, last.outcome, last.id.iteration).Done?
  {
    ChainIsBounded(visits);
    var last := visits[|visits| - 1];
    SuccessorDecreases(last.id, last.outcome);
  }

  /** One round of the refinement loop, ending in the given Triple Validation outcome. */
  function LoopRound(iteration: nat, outcome: Outcome): seq<Visit> {
    [Visit(Identity(GapAnalysis, iteration), Advance(Plain)),
     Visit(Identity(Evaluation, iteration), Advance(Plain)),
     Visit(Identity(TripleValidation, iteration), outcome)]
  }

  /** The bound is reached: three refinements and a passing fourth round use all 18 executions. */
  lemma {:induction false} BoundIsReached(issue: Issue, proof: Proof) returns (visits: seq<Visit>)
    ensures IsChain(visits) && |visits| == MAX_STAGE_EXECUTIONS
    ensures visits[0].id == Identity(Planner, 0) && visits[17] == Visit(Identity(Finalize, 0), Advance(Verified(proof)))
  {
    var plan := [Visit(Identity(Planner, 0), Advance(Plain)), Visit(Identity(Refactor, 0), Advance(Plain))];
    var build := [Visit(Identity(Confirmation, 0), Advance(Plain)), Visit(Identity(CreateHash, 0), Advance(Plain)),
                  Visit(Identity(Build, 0), Advance(Plain)), Visit(Identity(Finalize, 0), Advance(Verified(proof)))];
    assert IsChain(plan) && IsChain(build);
    RoundIsChain(0, Refine(issue));
    RoundIsChain(1, Refine(issue));
    RoundIsChain(2, Refine(issue));
    RoundIsChain(3, Advance(Plain));
    hide IsChain;
    visits := plan + LoopRound(0, Refine(issue));
    ChainsJoin(plan, LoopRound(0, Refine(issue)));
    ChainsJoin(visits, LoopRound(1, Refine(issue)));
    visits := visits + LoopRound(1, Refine(issue));
    ChainsJoin(visits, LoopRound(2, Refine(issue)));
    visits := visits + LoopRound(2, Refine(issue));
    ChainsJoin(visits, LoopRound(3, Advance(Plain)));
    visits := visits + LoopRound(3, Advance(Plain));
    ChainsJoin(visits, build);
    visits := visits + build;
  }

  lemma RoundIsChain(iteration: nat, outcome: Outcome)
    requires WorkerOutcome(TripleValidation, outcome)
    ensures IsChain(LoopRound(iteration, outcome))
  {
  }

  lemma ChainsJoin(a: seq<Visit>, b: seq<Visit>)
    requires a != [] && b != [] && IsChain(a) && IsChain(b)
    requires Successor(a[|a| - 1].id, a[|a| - 1].outcome) == Some(b[0].id)
    ensures IsChain(a + b)
  {
    hide Successor, WorkerOutcome;
  }

  /**
   * The transition table alone caps only Triple Validation. For arbitrary outcomes it keeps a run inside
   * the pipeline and the measure falling exactly until GapAnalysis or Evaluation asks for a fourth refinement.
   */
  lemma {:induction false} TableIsBoundedExactlyBelowTheCap(id: Identity, outcome: Outcome)
    requires InPipeline(id)
    ensures (match Successor(id, outcome)
             case None => true
             case Some(next) => InPipeline(next) && ExecutionsLeft(next) < ExecutionsLeft(id))
       <==> !(id.stage in {GapAnalysis, Evaluation} && outcome.Refine? && id.iteration == MAX_REFINEMENT_ITERATIONS)
  {
    if id.stage in {GapAnalysis, Evaluation} && outcome.Refine? {
      assert Successor(id, outcome) == Some(Identity(GapAnalysis, id.iteration + 1));
    } else if id.stage == TripleValidation && outcome.Refine? && id.iteration < MAX_REFINEMENT_ITERATIONS {
      assert Successor(id, outcome) == Some(Identity(GapAnalysis, id.iteration + 1));
    }
  }

  /** Past the cap the climb never stops: refining GapAnalysis n times reaches iteration n. */
  function RefinedGapAnalysis(issue: Issue, n: nat): (id: Identity)
    ensures id == Identity(GapAnalysis, n)
  {
    if n == 0 then Identity(GapAnalysis, 0)
    else
      var previous := RefinedGapAnalysis(issue, n - 1);
      Successor(previous, Refine(issue)).value
  }

  /** Queued jobs already carry their identity: pinning the iteration never renames a pipeline job. */
  lemma {:induction false} PinningKeepsPipelineJobs(id: Identity)
    requires InPipeline(id)
    ensures StageIteration(id.stage, id.iteration) == id.iteration
    ensures !IsIterative(id.stage) ==> id.iteration == 0
  {
  }
}
