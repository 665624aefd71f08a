/**
 * The order of stages: before the build one stage at a time is queued and not complete, in the crash-free pipeline
 * and so in every run without overlap, and what Triple Validation stored is still there for Confirmation.
 */
module PipelineOrder {
  import opened Wrappers
  import opened Stages
  import opened PipelineState
  import opened PipelineMachine
  import opened PipelineFrames
  import opened PipelineSafety
  import opened PipelineLeases
  import opened PipelineRequests
  import opened PipelineRecovery

  /** A stage from Planner to CreateHash; approval may queue Build while CreateHash is still at work. */
  predicate IsEarly(id: Identity) {
    InPipeline(id) && id.stage != Build && id.stage != Finalize
  }

  // ---- The crash-free pipeline ----

  predicate IsAbove(a: Identity, b: Identity) {
    IsEarly(a) && IsEarly(b) && ExecutionsLeft(a) > ExecutionsLeft(b)
  }

  /** A stage with a lower one queued is complete. */
  ghost predicate InTurn(spec: Spec) {
    forall a, b :: Queued(spec, a) && Queued(spec, b) && IsAbove(a, b) ==> a in spec.outcomes
  }

  /** Nothing is queued below a complete stage but from its own successor on. */
  ghost predicate NoneSkipped(spec: Spec) {
    forall x, y :: x in spec.outcomes && Queued(spec, y) && IsAbove(x, y) ==> LeadsTo(x, spec.outcomes[x], y)
  }

  predicate LeadsTo(x: Identity, o: Outcome, y: Identity) {
    QueuedBy(x, o).Some? && ExecutionsLeft(QueuedBy(x, o).value) >= ExecutionsLeft(y)
  }

  ghost predicate OrderInv(spec: Spec) {
    && SpecInv(spec)
    && (forall id :: id in spec.outcomes ==> Queued(spec, id))
    && (forall id :: Queued(spec, id) && id.stage != Researcher ==> InPipeline(id))
    && InTurn(spec)
    && NoneSkipped(spec)
  }

  lemma QueuedMore(spec: Spec, action: SpecAction, id: Identity)
    requires action.Complete? ==> action.id !in spec.outcomes
    ensures Queued(SpecStep(spec, action), id)
       <==> || Queued(spec, id)
            || (action.Request? && id == action.id)
            || (action.Complete? && QueuedBy(action.id, action.outcome) == Some(id))
  {
    var spec' := SpecStep(spec, action);
    if id !in spec'.requested && Queued(spec', id) {
      var source :| source in spec'.outcomes && QueuedBy(source, spec'.outcomes[source]) == Some(id);
      assert source in spec.outcomes ==> spec'.outcomes[source] == spec.outcomes[source];
    }
    if id !in spec.requested && Queued(spec, id) {
      var source :| source in spec.outcomes && QueuedBy(source, spec.outcomes[source]) == Some(id);
      assert source in spec'.outcomes && spec'.outcomes[source] == spec.outcomes[source];
    }
    if action.Complete? && QueuedBy(action.id, action.outcome) == Some(id) {
      assert action.id in spec'.outcomes && spec'.outcomes[action.id] == action.outcome;
    }
  }

  /** What a worker outcome queues lies below its stage; research queues nothing by itself. */
  lemma QueuedByIsLower(id: Identity, o: Outcome)
    requires WorkerOutcome(id.stage, o) && (id.stage != Researcher ==> InPipeline(id))
    ensures QueuedBy(id, o).Some? ==>
              && id.stage != Researcher && InPipeline(QueuedBy(id, o).value)
              && ExecutionsLeft(QueuedBy(id, o).value) < ExecutionsLeft(id)
  {
    if id.stage != Researcher {
      SuccessorDecreases(id, o);
    }
  }

  lemma EarlyIsAtLeastThree(id: Identity)
    requires InPipeline(id)
    ensures IsEarly(id) <==> ExecutionsLeft(id) >= 3
  {
  }

  /** The stage that completes is the lowest early one queued, and those above it are complete. */
  lemma CompletingIsLowest(spec: Spec, x: Identity, y: Identity)
    requires OrderInv(spec) && Queued(spec, x) && x !in spec.outcomes && IsEarly(x)
    requires Queued(spec, y) && IsEarly(y) && y != x
    ensures ExecutionsLeft(y) > ExecutionsLeft(x) && y in spec.outcomes
  {
    hide Queued;
    if ExecutionsLeft(y) == ExecutionsLeft(x) {
      MeasureIsInjective(x, y);
    }
  }

  lemma CompleteKeepsTurn(spec: Spec, x: Identity, o: Outcome)
    requires OrderInv(spec) && SpecEnabled(spec, Complete(x, o))
    ensures InTurn(SpecStep(spec, Complete(x, o)))
  {
    var spec' := SpecStep(spec, Complete(x, o));
    forall a, b | Queued(spec', a) && Queued(spec', b) && IsAbove(a, b) ensures a in spec'.outcomes
    {
      QueuedMore(spec, Complete(x, o), a);
      QueuedMore(spec, Complete(x, o), b);
      QueuedByIsLower(x, o);
      hide Queued, QueuedBy, ExecutionsLeft, WorkerOutcome;
      if !Queued(spec, b) {
        LowerIsEarly(x, b);
        if Queued(spec, a) && a != x {
          CompletingIsLowest(spec, x, a);
        }
      } else if !Queued(spec, a) {
        LowerIsEarly(x, a);
        CompletingIsLowest(spec, x, b);
      }
    }
  }

  /** A pipeline stage above an early one is early. */
  lemma LowerIsEarly(x: Identity, y: Identity)
    requires InPipeline(x) && IsEarly(y) && ExecutionsLeft(y) < ExecutionsLeft(x)
    ensures IsEarly(x)
  {
    EarlyIsAtLeastThree(x);
    EarlyIsAtLeastThree(y);
  }

  lemma CompleteKeepsNoneSkipped(spec: Spec, x: Identity, o: Outcome)
    requires OrderInv(spec) && SpecEnabled(spec, Complete(x, o))
    ensures NoneSkipped(SpecStep(spec, Complete(x, o)))
  {
    var spec' := SpecStep(spec, Complete(x, o));
    forall w, y | w in spec'.outcomes && Queued(spec', y) && IsAbove(w, y) ensures LeadsTo(w, spec'.outcomes[w], y)
    {
      QueuedMore(spec, Complete(x, o), y);
      QueuedByIsLower(x, o);
      hide Queued, WorkerOutcome;
      if w == x && Queued(spec, y) {
        CompletingIsLowest(spec, x, y);
      } else if w != x && !Queued(spec, y) {
        LowerIsEarly(x, y);
        CompletingIsLowest(spec, x, w);
        assert LeadsTo(w, spec.outcomes[w], x);
      }
    }
  }

  lemma RequestKeepsOrder(spec: Spec, id: Identity)
    requires OrderInv(spec) && SpecEnabled(spec, Request(id))
    ensures InTurn(SpecStep(spec, Request(id))) && NoneSkipped(SpecStep(spec, Request(id)))
  {
    var spec' := SpecStep(spec, Request(id));
    forall y | Queued(spec', y) && IsEarly(y) ensures Queued(spec, y) || y == PLANNER_JOB {
      QueuedMore(spec, Request(id), y);
    }
    if !Queued(spec, PLANNER_JOB) {
      forall y | Queued(spec', y) && IsEarly(y) ensures y == PLANNER_JOB {
        if Queued(spec, y) {
          QueuedNeedsPlanner(spec, y);
        }
      }
    }
    hide Queued, LeadsTo;
  }

  lemma StepKeepsOrder(spec: Spec, action: SpecAction)
    requires OrderInv(spec) && SpecEnabled(spec, action)
    ensures OrderInv(SpecStep(spec, action))
  {
    SpecStepKeepsInv(spec, action);
    var spec' := SpecStep(spec, action);
    if action.Request? {
      RequestKeepsOrder(spec, action.id);
    } else {
      CompleteKeepsTurn(spec, action.id, action.outcome);
      CompleteKeepsNoneSkipped(spec, action.id, action.outcome);
      QueuedByIsLower(action.id, action.outcome);
    }
    hide InTurn, NoneSkipped, SpecInv;
    forall id | id in spec'.outcomes ensures Queued(spec', id) {
      QueuedMore(spec, action, id);
    }
    forall id | Queued(spec', id) && id.stage != Researcher ensures InPipeline(id) {
      QueuedMore(spec, action, id);
    }
  }

  lemma {:induction false} CrashFreeOrder(actions: seq<SpecAction>)
    requires CrashFree(actions)
    ensures OrderInv(SpecRun(actions))
  {
    if actions != [] {
      CrashFreeOrder(actions[..|actions| - 1]);
      hide OrderInv, SpecEnabled, SpecStep;
      StepKeepsOrder(SpecRun(actions[..|actions| - 1]), actions[|actions| - 1]);
    }
  }

  // ---- Every run without overlap ----

  lemma {:induction false} RunIsInOrder(H: HashFunction, actions: seq<Action>)
    requires NonOverlapping(H, actions)
    ensures OrderInv(Abstract(Run(H, actions)))
    ensures forall id :: id in Run(H, actions).sh.jobs ==> Queued(Abstract(Run(H, actions)), id)
  {
    hide Run, OrderInv;
    CrashRefinement(H, actions);
    NonOverlappingInv(H, actions);
    CrashFreeOrder(Observations(H, actions));
  }

  /** Before the build one stage at a time is queued and not complete. */
  lemma {:induction false} OneStageAtATime(H: HashFunction, actions: seq<Action>, x: Identity, y: Identity)
    requires NonOverlapping(H, actions) && IsEarly(x) && IsEarly(y)
    requires x in Run(H, actions).sh.jobs && x !in Run(H, actions).sh.outcomes
    requires y in Run(H, actions).sh.jobs && y !in Run(H, actions).sh.outcomes
    ensures x == y
  {
    hide Run, Queued;
    RunIsInOrder(H, actions);
    OpenStageIsUnique(Run(H, actions), x, y);
  }

  lemma OpenStageIsUnique(s: System, x: Identity, y: Identity)
    requires OrderInv(Abstract(s)) && IsEarly(x) && IsEarly(y)
    requires Queued(Abstract(s), x) && x !in s.sh.outcomes
    requires Queued(Abstract(s), y) && y !in s.sh.outcomes
    ensures x == y
  {
    hide Queued;
    if ExecutionsLeft(x) == ExecutionsLeft(y) {
      MeasureIsInjective(x, y);
    }
  }

  // ---- The triple that Confirmation reads ----

  predicate HasValidTriple(sh: Shared) {
    sh.triple.Some? && sh.triple.value.allValid
  }

  predicate IsValidation(id: Identity, o: Outcome) {
    id.stage == TripleValidation && o.Advance?
  }

  ghost predicate TripleInv(s: System) {
    && (forall id :: id in s.sh.outcomes && IsValidation(id, s.sh.outcomes[id]) ==> HasValidTriple(s.sh))
    && (forall n :: n in s.procs && SavesValidation(s.procs[n]) ==> HasValidTriple(s.sh))
  }

  predicate SavesValidation(p: Process) {
    p.Worker? && p.pc.Save? && IsValidation(p.id, p.pc.result)
  }

  predicate StoresTriple(p: Process) {
    p.Worker? && p.pc == Working(Begin) && p.id.stage == TripleValidation
  }

  lemma BuildLeavesTriple(H: HashFunction, sh: Shared, log: History, p: Process, work: BuildWork, c: Choice)
    requires p.Worker? && p.id.stage == Build
    ensures var r := BuildStep(H, sh, log, p, work, c); r.sh.triple == sh.triple && !SavesValidation(r.proc)
  {
  }

  lemma HashLeavesTriple(sh: Shared, log: History, p: Process, work: HashWork)
    requires p.Worker? && p.id.stage == CreateHash
    ensures var r := HashStep(sh, log, p, work); r.sh.triple == sh.triple && !SavesValidation(r.proc)
  {
  }

  lemma BeginAndTriple(H: HashFunction, sh: Shared, log: History, n: nat, p: Process, c: Choice)
    requires p.Worker?
    ensures var r := BeginStep(H, sh, log, n, p, c);
            !SavesValidation(r.proc) && (p.id.stage != TripleValidation ==> r.sh.triple == sh.triple)
  {
  }

  lemma WorkAndTriple(H: HashFunction, sh: Shared, log: History, n: nat, p: Process, c: Choice)
    requires p.Worker? && p.pc.Working? && WorkInv(H, sh, log, n, p.id.stage, p.pc.work)
    ensures var r := WorkStep(H, sh, log, n, p, c);
            && (!StoresTriple(p) ==> r.sh.triple == sh.triple)
            && (SavesValidation(r.proc) ==> HasValidTriple(sh) && !StoresTriple(p))
  {
    hide BeginStep, HashStep, BuildStep;
    match p.pc.work
    case Begin => BeginAndTriple(H, sh, log, n, p, c);
    case Hashing(hash) => HashLeavesTriple(sh, log, p, hash);
    case Building(build) => BuildLeavesTriple(H, sh, log, p, build, c);
    case _ =>
  }

  lemma CarryingLeavesTriple(sh: Shared, log: History, n: nat, p: Process, o: Outcome, step: CarryStep)
    requires p.Worker?
    ensures var r := CarryingStep(sh, log, n, p, o, step); r.sh.triple == sh.triple && !SavesValidation(r.proc)
  {
    hide CarryingStep, FinishingStep;
    if step.Finishing? {
      FinishingIsFramed(sh, log, p, o, step.finish);
      CarryingFinishes(sh, log, n, p, o, step.finish);
    } else {
      CarryingIsFramed(sh, log, n, p, o, step);
    }
  }

  /** Only Triple Validation stores a triple, and it advances only on the valid one it reads back. */
  lemma WorkerAndTriple(H: HashFunction, sh: Shared, log: History, n: nat, p: Process, c: Choice)
    requires p.Worker? && WorkerInv(H, sh, log, n, p)
    ensures var r := WorkerStep(H, sh, log, n, p, c);
            && (!StoresTriple(p) ==> r.sh.triple == sh.triple)
            && (SavesValidation(r.proc) ==> HasValidTriple(sh) && !StoresTriple(p))
  {
    hide WorkStep, CarryingStep, EntryStepOf;
    match p.pc
    case Working(_) => WorkAndTriple(H, sh, log, n, p, c);
    case Carrying(o, step) => CarryingLeavesTriple(sh, log, n, p, o, step);
    case Entering(entry) => EntryIsFramed(sh, log, n, p, entry);
    case _ =>
  }

  /** While Triple Validation works no other has advanced, or is about to. */
  lemma NobodyHasValidated(H: HashFunction, s: System, n: nat)
    requires NonOverlapInv(H, s) && OrderInv(Abstract(s)) && n in s.procs && StoresTriple(s.procs[n])
    ensures forall id :: id in s.sh.outcomes ==> !IsValidation(id, s.sh.outcomes[id])
    ensures forall m :: m in s.procs ==> !SavesValidation(s.procs[m])
  {
    var y := s.procs[n].id;
    OpenStage(H, s, n);
    forall id | id in s.sh.outcomes ensures !IsValidation(id, s.sh.outcomes[id]) {
      if IsValidation(id, s.sh.outcomes[id]) {
        ValidatedIsLast(s, id, y);
      }
    }
    forall m | m in s.procs ensures !SavesValidation(s.procs[m]) {
      if SavesValidation(s.procs[m]) {
        OpenStage(H, s, m);
        OpenStageIsUnique(s, s.procs[m].id, y);
      }
    }
  }

  lemma OpenStage(H: HashFunction, s: System, n: nat)
    requires NonOverlapInv(H, s) && n in s.procs && s.procs[n].Worker? && (s.procs[n].pc.Working? || s.procs[n].pc.Save?)
    ensures var id := s.procs[n].id;
            Queued(Abstract(s), id) && id !in s.sh.outcomes && (id.stage != Researcher ==> InPipeline(id))
  {
    assert ProcessInv(H, s.sh, s.log, n, s.procs[n]) && AttemptInv(H, s.sh, s.procs[n]);
    assert s.procs[n].id in s.sh.jobs;
  }

  lemma ValidatedIsLast(s: System, x: Identity, y: Identity)
    requires OrderInv(Abstract(s)) && x in s.sh.outcomes && IsValidation(x, s.sh.outcomes[x])
    requires y.stage == TripleValidation && InPipeline(y) && Queued(Abstract(s), y)
    ensures y in s.sh.outcomes
  {
    hide Queued;
    assert Queued(Abstract(s), x);
    if ExecutionsLeft(x) == ExecutionsLeft(y) {
      MeasureIsInjective(x, y);
    } else if !IsAbove(x, y) {
      assert IsAbove(y, x);
    }
  }

  lemma WorkerKeepsTriple(H: HashFunction, s: System, n: nat, c: Choice)
    requires NonOverlapInv(H, s) && OrderInv(Abstract(s)) && TripleInv(s) && n in s.procs && s.procs[n].Worker?
    ensures TripleInv(Step(H, s, Act(n, c)))
  {
    WorkerOf(H, s, n);
    WorkerAndTriple(H, s.sh, s.log, n, s.procs[n], c);
    OutcomesAreFenced(H, s, Act(n, c));
    if StoresTriple(s.procs[n]) {
      NobodyHasValidated(H, s, n);
    }
    hide OrderInv, NonOverlapInv, WorkerStep, IsValidation;
  }

  lemma WorkerOf(H: HashFunction, s: System, n: nat)
    requires NonOverlapInv(H, s) && n in s.procs && s.procs[n].Worker?
    ensures WorkerInv(H, s.sh, s.log, n, s.procs[n])
  {
    assert ProcessInv(H, s.sh, s.log, n, s.procs[n]);
  }

  lemma StepKeepsTriple(H: HashFunction, s: System, action: Action)
    requires NonOverlapInv(H, s) && OrderInv(Abstract(s)) && TripleInv(s)
    ensures TripleInv(Step(H, s, action))
  {
    hide OrderInv, NonOverlapInv, ProcessStep, IsValidation;
    if action.Act? && action.n in s.procs {
      if s.procs[action.n].Worker? {
        WorkerKeepsTriple(H, s, action.n, action.choice);
      } else {
        HumanIsFramed(H, s.sh, s.log, action.n, s.procs[action.n], action.choice);
      }
    }
  }

  lemma {:induction false} RunKeepsTriple(H: HashFunction, actions: seq<Action>)
    requires NonOverlapping(H, actions)
    ensures TripleInv(Run(H, actions))
  {
    if actions != [] {
      var before := actions[..|actions| - 1];
      RunKeepsTriple(H, before);
      NonOverlappingInv(H, before);
      RunIsInOrder(H, before);
      hide TripleInv, NonOverlapInv, OrderInv, Step;
      StepKeepsTriple(H, Run(H, before), actions[|actions| - 1]);
    }
  }

  /** Confirmation is queued only while the stored triple is valid: no later validation replaces it. */
  lemma {:induction false} ConfirmationFindsValidTriple(H: HashFunction, actions: seq<Action>)
    requires NonOverlapping(H, actions) && Identity(Confirmation, 0) in Run(H, actions).sh.jobs
    ensures HasValidTriple(Run(H, actions).sh)
  {
    hide Run;
    RunKeepsTriple(H, actions);
    NonOverlappingInv(H, actions);
    var source := ConfirmationFollowsValidation(Run(H, actions).sh, Run(H, actions).log);
    hide NonOverlapInv;
  }

  lemma ConfirmationFollowsValidation(sh: Shared, log: History) returns (source: Identity)
    requires RedisInv(sh, log) && JobsInv(sh, log) && Identity(Confirmation, 0) in sh.jobs
    ensures source in sh.outcomes && IsValidation(source, sh.outcomes[source])
  {
    source :| source in sh.outcomes && QueuedBy(source, sh.outcomes[source]) == Some(Identity(Confirmation, 0));
  }
}
