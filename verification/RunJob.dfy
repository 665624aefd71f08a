/**
 * The legacy run job: one delivery executes a run's whole workflow. Deliveries of one run follow each other and
 * may crash between any two steps; the guards keep the workflow from being started twice.
 */
module RunJob {
  import opened Wrappers

  /** What the job reads of a run's snapshot: whether it is done, its result, and the processors of its events. */
  datatype RunView = RunView(done: bool, result: Option<TestResult>, events: seq<string>)

  /** What the payload check says about a delivered job. */
  datatype Job = Job(valid: bool)

  datatype PC =
    | Ensure
    | Validate
    | CheckDone
    | CheckPartial
    | ResolveProvider
    | AnnounceBinding
    | AnnounceRun
    | CreateRuntime
    | StartWorkflow
    | Work
    | Report
    | FailBinding
    | Finalize
    | EmitFailure
    | Returned(completed: bool)
    | Crashed

  /**
   * One run: its snapshot, how often its workflow was started, and where the current delivery is. `named` is false
   * for the run id "unknown", which also stands for payloads without one and for which no snapshot is created.
   */
  datatype State = State(named: bool, snapshot: Option<RunView>, started: nat, job: Job, pc: PC)

  /** What comes from outside: whether a call succeeds, an event it emits, and how the workflow ends. */
  datatype Choice =
    | Succeed
    | Throw
    | Emit(processor: string)
    | End(result: TestResult)

  datatype Action =
    | Deliver(job: Job)
    | Go(choice: Choice)
    | Crash

  /** An event reaches the snapshot through the observer, when there is a snapshot. */
  function Emitted(snapshot: Option<RunView>, processor: string): Option<RunView> {
    if snapshot.None? then None else Some(snapshot.value.(events := snapshot.value.events + [processor]))
  }

  function FinishedAs(snapshot: Option<RunView>, result: TestResult): Option<RunView> {
    if snapshot.None? || snapshot.value.done then snapshot
    else Some(snapshot.value.(done := true, result := Some(result)))
  }

  predicate IsPassed(snapshot: Option<RunView>) {
    snapshot.Some? && snapshot.value.result == Some(Passed)
  }

  function At(s: State, pc: PC): State {
    s.(pc := pc)
  }

  /** One step of a delivery. A throw inside the guarded part is finalized; before it, it ends the delivery. */
  function Next(s: State, c: Choice): State {
    match s.pc
    case Ensure =>
      if c.Throw? then At(s, Crashed)
      else if s.named && s.snapshot.None? then s.(snapshot := Some(RunView(false, None, [])), pc := Validate)
      else At(s, Validate)
    case Validate => At(s, if s.job.valid then CheckDone else Finalize)
    case CheckDone =>
      if c.Throw? then At(s, Finalize)
      else if s.snapshot.Some? && s.snapshot.value.done
      then s.(snapshot := Emitted(s.snapshot, "RunWorker"), pc := Returned(IsPassed(s.snapshot)))
      else At(s, CheckPartial)
    case CheckPartial =>
      At(s, if c.Throw? || (s.snapshot.Some? && s.snapshot.value.events != []) then Finalize else ResolveProvider)
    case ResolveProvider =>
      if c.Emit? then s.(snapshot := Emitted(s.snapshot, c.processor))
      else At(s, if c.Throw? then FailBinding else AnnounceBinding)
    case AnnounceBinding =>
      if c.Throw? then At(s, Finalize)
      else s.(snapshot := Emitted(s.snapshot, "ProviderBinding"), pc := AnnounceRun)
    case AnnounceRun =>
      if c.Throw? then At(s, Finalize)
      else s.(snapshot := Emitted(s.snapshot, "RunWorker"), pc := CreateRuntime)
    case CreateRuntime =>
      if c.Emit? then s.(snapshot := Emitted(s.snapshot, c.processor))
      else At(s, if c.Throw? then Finalize else StartWorkflow)
    case StartWorkflow =>
      if c.Throw? then At(s, Finalize) else s.(started := s.started + 1, pc := Work)
    case Work =>
      if c.Emit? then s.(snapshot := Emitted(s.snapshot, c.processor))
      else if s.snapshot.None? then At(s, Finalize)
      else s.(snapshot := FinishedAs(s.snapshot, if c.End? then c.result else Failed), pc := Report)
    case Report =>
      if c.Throw? then At(s, Finalize)
      else s.(snapshot := Emitted(s.snapshot, "RunWorker"), pc := Returned(IsPassed(s.snapshot)))
    case FailBinding =>
      if c.Throw? then At(s, Finalize)
      else s.(snapshot := Emitted(s.snapshot, "ProviderBinding"), pc := Finalize)
    case Finalize => s.(snapshot := FinishedAs(s.snapshot, Failed), pc := EmitFailure)
    case EmitFailure => s.(snapshot := Emitted(s.snapshot, "RunWorker"), pc := Returned(false))
    case Returned(_) => s
    case Crashed => s
  }

  predicate Idle(s: State) {
    s.pc.Returned? || s.pc.Crashed?
  }

  function Step(s: State, action: Action): State {
    match action
    case Deliver(job) => if Idle(s) then s.(job := job, pc := Ensure) else s
    case Go(c) => Next(s, c)
    case Crash => At(s, Crashed)
  }

  /** A run nobody has worked on: any snapshot, or none, as submission may have left it. */
  predicate Fresh(s: State) {
    s.started == 0 && s.pc == Crashed
  }

  function Run(s: State, actions: seq<Action>): State {
    if actions == [] then s else Step(Run(s, actions[..|actions| - 1]), actions[|actions| - 1])
  }

  // ---- Over all deliveries ----

  predicate HasEvents(s: State) {
    s.snapshot.Some? && s.snapshot.value.events != []
  }

  predicate IsDone(s: State) {
    s.snapshot.Some? && s.snapshot.value.done
  }

  /** The run has a snapshot, or gets one as soon as a job for it is delivered. */
  predicate Kept(s: State) {
    s.named || s.snapshot.Some?
  }

  predicate RunInv(s: State) {
    && Kept(s)
    && s.started <= 1
    && (s.started == 1 ==> HasEvents(s))
    && (s.pc in {ResolveProvider, AnnounceBinding, AnnounceRun, CreateRuntime, StartWorkflow} ==> s.started == 0)
    && (s.pc in {CreateRuntime, StartWorkflow} ==> HasEvents(s))
    && (s.pc != Crashed && s.pc != Ensure ==> s.snapshot.Some?)
    && (s.pc in {Report, EmitFailure} || s.pc.Returned? ==> IsDone(s))
  }

  lemma StepKeepsRunInv(s: State, action: Action)
    requires RunInv(s)
    ensures RunInv(Step(s, action))
  {
  }

  lemma {:induction false} RunInvHolds(s: State, actions: seq<Action>)
    requires Fresh(s) && Kept(s)
    ensures RunInv(Run(s, actions))
  {
    if actions != [] {
      RunInvHolds(s, actions[..|actions| - 1]);
      StepKeepsRunInv(Run(s, actions[..|actions| - 1]), actions[|actions| - 1]);
    }
  }

  /** Over any sequence of deliveries and crashes the workflow of a kept run is started at most once. */
  lemma {:induction false} WorkflowStartsAtMostOnce(s: State, actions: seq<Action>)
    requires Fresh(s) && Kept(s)
    ensures Run(s, actions).started <= 1
  {
    RunInvHolds(s, actions);
  }

  /** The run id "unknown" has no snapshot to remember the first start: every delivery of a valid job starts it. */
  lemma {:induction false} UnkeptRunStartsAgain(s: State) returns (actions: seq<Action>)
    requires Fresh(s) && !Kept(s)
    ensures Run(s, actions).started == 2
  {
    var once := OneStart(s);
    var again := OneStart(Run(s, once));
    actions := once + again;
    RunInTwo(s, once, again);
  }

  lemma OneStart(s: State) returns (actions: seq<Action>)
    requires Idle(s) && !Kept(s)
    ensures var s' := Run(s, actions); Idle(s') && !Kept(s') && s'.started == s.started + 1
  {
    var s0 := Step(s, Deliver(Job(true)));
    assert s0.snapshot.None?;
    UnkeptDelivery(s0);
    actions := [Deliver(Job(true))] + seq(9, _ => Go(Succeed)) + [Crash];
    RunInTwo(s, [Deliver(Job(true))], seq(9, _ => Go(Succeed)));
    RunInTwo(s, [Deliver(Job(true))] + seq(9, _ => Go(Succeed)), [Crash]);
    assert [Deliver(Job(true))][..0] == [] && [Crash][..0] == [];
    RunGoes(s0, 9);
  }

  /** Nine steps of a delivery without a snapshot lead into the workflow. */
  lemma UnkeptDelivery(s: State)
    requires s.pc == Ensure && !Kept(s) && s.job.valid
    ensures var s' := Advance(s, seq(9, _ => Succeed)); s' == s.(started := s.started + 1, pc := Work)
  {
    assert Advance(s, seq(0, _ => Succeed)) == s;
    assert UnkeptAfter(s, 0) == s && UnkeptAfter(s, 9) == s.(started := s.started + 1, pc := Work);
    hide Advance, UnkeptAfter, Next;
    for n := 0 to 9
      invariant Advance(s, seq(n, _ => Succeed)) == UnkeptAfter(s, n)
    {
      AdvanceOnce(s, n);
      UnkeptStep(s, n);
    }
  }

  lemma UnkeptStep(s: State, n: nat)
    requires s.pc == Ensure && !Kept(s) && s.job.valid && n < 9
    ensures Next(UnkeptAfter(s, n), Succeed) == UnkeptAfter(s, n + 1)
  {
  }

  /** Where a delivery without a snapshot is after n successful steps. */
  function UnkeptAfter(s: State, n: nat): State {
    var path := [Ensure, Validate, CheckDone, CheckPartial, ResolveProvider, AnnounceBinding, AnnounceRun,
                 CreateRuntime, StartWorkflow];
    if n < |path| then At(s, path[n]) else s.(started := s.started + 1, pc := Work)
  }

  lemma AdvanceOnce(s: State, n: nat)
    ensures Advance(s, seq(n + 1, _ => Succeed)) == Next(Advance(s, seq(n, _ => Succeed)), Succeed)
  {
    assert seq(n + 1, _ => Succeed)[..n] == seq(n, _ => Succeed);
  }

  lemma {:induction false} RunInTwo(s: State, a: seq<Action>, b: seq<Action>)
    ensures Run(s, a + b) == Run(Run(s, a), b)
  {
    if b == [] {
      assert a + b == a;
    } else {
      RunInTwo(s, a, b[..|b| - 1]);
      assert (a + b)[..|a + b| - 1] == a + b[..|b| - 1];
    }
  }

  lemma {:induction false} RunGoes(s: State, n: nat)
    ensures Run(s, seq(n, _ => Go(Succeed))) == Advance(s, seq(n, _ => Succeed))
  {
    if n > 0 {
      RunGoes(s, n - 1);
      assert seq(n, _ => Go(Succeed))[..n - 1] == seq(n - 1, _ => Go(Succeed));
      assert seq(n, _ => Succeed)[..n - 1] == seq(n - 1, _ => Succeed);
    }
  }

  /** A delivery that returns leaves its run Done exactly when the run is kept; otherwise there is nothing to finish. */
  lemma {:induction false} ReturnLeavesRunDone(s: State, actions: seq<Action>)
    requires Fresh(s) && Run(s, actions).pc.Returned?
    ensures IsDone(Run(s, actions)) <==> Kept(s)
  {
    if Kept(s) {
      RunInvHolds(s, actions);
    } else {
      UnkeptStaysUnkept(s, actions);
    }
  }

  lemma {:induction false} UnkeptStaysUnkept(s: State, actions: seq<Action>)
    requires !Kept(s)
    ensures !Kept(Run(s, actions))
  {
    if actions != [] {
      UnkeptStaysUnkept(s, actions[..|actions| - 1]);
    }
  }

  /** While the run is done, the current delivery is nowhere between the guards and the end of the workflow. */
  predicate DoneInv(s: State) {
    IsDone(s) ==> s.pc in {Ensure, Validate, CheckDone, Report, Finalize, EmitFailure, Crashed} || s.pc.Returned?
  }

  lemma StepKeepsDone(s: State, action: Action)
    requires DoneInv(s)
    ensures DoneInv(Step(s, action))
    ensures IsDone(s) ==>
              && IsDone(Step(s, action)) && Step(s, action).snapshot.value.result == s.snapshot.value.result
              && Step(s, action).started == s.started
  {
  }

  lemma {:induction false} DoneInvHolds(s: State, actions: seq<Action>)
    requires Fresh(s)
    ensures DoneInv(Run(s, actions))
  {
    if actions != [] {
      DoneInvHolds(s, actions[..|actions| - 1]);
      StepKeepsDone(Run(s, actions[..|actions| - 1]), actions[|actions| - 1]);
    }
  }

  /** Once a run is done, no further deliveries and crashes change its result or start its workflow again. */
  lemma {:induction false} DoneIsFinal(s: State, actions: seq<Action>, more: seq<Action>)
    requires Fresh(s) && IsDone(Run(s, actions))
    ensures var before, after := Run(s, actions), Run(s, actions + more);
            && IsDone(after) && after.snapshot.value.result == before.snapshot.value.result
            && after.started == before.started
  {
    if more == [] {
      assert actions + more == actions;
    } else {
      var init := more[..|more| - 1];
      assert (actions + more)[..|actions + more| - 1] == actions + init;
      DoneIsFinal(s, actions, init);
      DoneInvHolds(s, actions + init);
      hide Step, DoneInv, IsDone;
      StepKeepsDone(Run(s, actions + init), more[|more| - 1]);
    }
  }

  /**
   * A workflow that ends on a run not yet done decides its result, and one that throws fails it: no further
   * deliveries and crashes change that.
   */
  lemma {:induction false} WorkflowDecidesTheResult(s: State, actions: seq<Action>, c: Choice, more: seq<Action>)
    requires Fresh(s) && Run(s, actions).pc == Work && !c.Emit?
    requires Run(s, actions).snapshot.Some? && !Run(s, actions).snapshot.value.done
    ensures var after := Run(s, actions + [Go(c)] + more).snapshot;
            && after.Some? && after.value.done
            && after.value.result == Some(match c case End(result) => result case _ => Failed)
  {
    assert (actions + [Go(c)])[..|actions|] == actions;
    assert IsDone(Run(s, actions + [Go(c)]));
    DoneIsFinal(s, actions + [Go(c)], more);
  }

  /** The steps of one delivery after another, each choice taken in turn. */
  function Advance(s: State, choices: seq<Choice>): State {
    if choices == [] then s else Next(Advance(s, choices[..|choices| - 1]), choices[|choices| - 1])
  }

  predicate Refusing(s: State) {
    s.pc in {Ensure, Validate, CheckDone, CheckPartial, Finalize, EmitFailure} || s.pc.Returned? || s.pc.Crashed?
  }

  /** A delivery that finds a run done, or begun without a result, never reaches the provider or the workflow. */
  lemma {:induction false} BegunRunIsRefused(s: State, job: Job, choices: seq<Choice>)
    requires Idle(s) && (IsDone(s) || HasEvents(s))
    ensures var s' := Advance(Step(s, Deliver(job)), choices);
            && Refusing(s') && s'.started == s.started && (IsDone(s') || HasEvents(s'))
            && (IsDone(s) ==> IsDone(s') && s'.snapshot.value.result == s.snapshot.value.result)
            && (!IsDone(s) && IsDone(s') ==> s'.snapshot.value.result == Some(Failed))
            && (s'.pc.CheckPartial? ==> !IsDone(s'))
  {
    if choices != [] {
      BegunRunIsRefused(s, job, choices[..|choices| - 1]);
    }
  }

  /** A crash while the workflow runs does not restart it: the next delivery that returns finishes the run Failed. */
  lemma {:induction false} CrashedWorkflowIsFailed(s: State, actions: seq<Action>, job: Job, choices: seq<Choice>)
    requires Fresh(s) && Kept(s) && Run(s, actions).pc == Work && !IsDone(Run(s, actions))
    requires Advance(Step(Step(Run(s, actions), Crash), Deliver(job)), choices).pc.Returned?
    ensures var s' := Advance(Step(Step(Run(s, actions), Crash), Deliver(job)), choices);
            IsDone(s') && s'.snapshot.value.result == Some(Failed) && s'.started == 1
  {
    RunInvHolds(s, actions);
    WorkIsStarted(s, actions);
    var crashed := Step(Run(s, actions), Crash);
    BegunRunIsRefused(crashed, job, choices);
    ReturnIsDone(Step(crashed, Deliver(job)), choices);
  }

  lemma {:induction false} WorkIsStarted(s: State, actions: seq<Action>)
    requires Fresh(s) && Kept(s)
    ensures Run(s, actions).pc in {Work, Report} ==> Run(s, actions).started == 1
  {
    if actions != [] {
      WorkIsStarted(s, actions[..|actions| - 1]);
      RunInvHolds(s, actions[..|actions| - 1]);
    }
  }

  lemma {:induction false} ReturnIsDone(s: State, choices: seq<Choice>)
    requires RunInv(s)
    ensures RunInv(Advance(s, choices)) && Advance(s, choices).job == s.job
  {
    if choices != [] {
      ReturnIsDone(s, choices[..|choices| - 1]);
      StepKeepsRunInv(Advance(s, choices[..|choices| - 1]), Go(choices[|choices| - 1]));
    }
  }

  // ---- One delivery as code ----

  /** The run learned of these events, in order, and of nothing else. */
  predicate Told(before: Option<RunView>, after: Option<RunView>, processors: seq<string>) {
    && (after.Some? <==> before.Some?)
    && (after.Some? ==> after.value == before.value.(events := before.value.events + processors))
  }

  /** The run is finished with this result, or as it was when it was finished before, and learned of these events. */
  predicate Ends(before: Option<RunView>, after: Option<RunView>, result: TestResult, processors: seq<string>) {
    && (after.Some? <==> before.Some?)
    && (after.Some? ==>
          && after.value.done && after.value.events == before.value.events + processors
          && after.value.result == if before.value.done then before.value.result else Some(result))
  }

  /** The delivery may start the workflow: its payload is valid and its run is neither done nor begun. */
  predicate Admitted(job: Job, snapshot: Option<RunView>) {
    job.valid && (snapshot.Some? ==> !snapshot.value.done && snapshot.value.events == [])
  }

  /** What the functions given to the worker do during one delivery. */
  datatype Deps = Deps(
    bindingEvents: seq<string>, bindsProvider: bool, createsRuntime: bool, startsWorkflow: bool,
    workEvents: seq<string>, result: TestResult)

  /** The ghost fields follow the delivery through the transition system above. */
  class RunWorker {
    const named: bool
    var snapshot: Option<RunView>
    ghost var state: State
    ghost var begun: State
    ghost var choices: seq<Choice>

    ghost predicate Valid()
      reads this
    {
      state.named == named && state.snapshot == snapshot && state == Advance(begun, choices)
    }

    constructor (named: bool, snapshot: Option<RunView>, ghost state: State)
      requires state.snapshot == snapshot && state.named == named
      ensures Valid() && this.state == state && this.named == named
    {
      this.named, this.snapshot, this.state, begun, choices := named, snapshot, state, state, [];
    }

    ghost method Track(c: Choice)
      requires state.named == named && state == Advance(begun, choices) && snapshot == Next(state, c).snapshot
      modifies `state, `choices
      ensures Valid() && state == Next(old(state), c)
    {
      assert (choices + [c])[..|choices|] == choices;
      state, choices := Next(state, c), choices + [c];
    }

    method EmitEvent(processor: string)
      modifies `snapshot
      ensures snapshot == Emitted(old(snapshot), processor)
    {
      if snapshot.Some? {
        snapshot := Some(snapshot.value.(events := snapshot.value.events + [processor]));
      }
    }

    /** Events that a called function emits while it runs. */
    method EmitDuring(processors: seq<string>)
      requires Valid() && state.pc in {ResolveProvider, Work}
      modifies this
      ensures Valid() && begun == old(begun) && state == old(state).(snapshot := snapshot)
      ensures Told(old(snapshot), snapshot, processors)
    {
      for i := 0 to |processors|
        invariant Valid() && begun == old(begun) && state == old(state).(snapshot := snapshot)
        invariant Told(old(snapshot), snapshot, processors[..i])
      {
        assert processors[..i + 1] == processors[..i] + [processors[i]];
        EmitEvent(processors[i]);
        Track(Choice.Emit(processors[i]));
      }
      assert processors[..|processors|] == processors;
    }

    method FinalizeFailure()
      requires Valid() && state.pc == Finalize
      modifies this
      ensures Valid() && begun == old(begun) && state == old(state).(snapshot := snapshot, pc := Returned(false))
      ensures Ends(old(snapshot), snapshot, Failed, ["RunWorker"])
    {
      if snapshot.Some? && !snapshot.value.done {
        snapshot := Some(snapshot.value.(done := true, result := Some(Failed)));
      }
      Track(Succeed);
      EmitEvent("RunWorker");
      Track(Succeed);
    }

    /** Binds a provider, or reports why not; false after the failure was finalized. */
    method BindProvider(deps: Deps) returns (bound: bool)
      requires Valid() && state.pc == ResolveProvider
      modifies this
      ensures Valid() && begun == old(begun) && bound == deps.bindsProvider
      ensures state == old(state).(snapshot := snapshot, pc := if bound then CreateRuntime else Returned(false))
      ensures var told := deps.bindingEvents + ["ProviderBinding", "RunWorker"];
              if bound then Told(old(snapshot), snapshot, told) else Ends(old(snapshot), snapshot, Failed, told)
    {
      EmitDuring(deps.bindingEvents);
      bound := deps.bindsProvider;
      Track(if bound then Succeed else Throw);
      EmitEvent("ProviderBinding");
      Track(Succeed);
      if !bound {
        FinalizeFailure();
        return;
      }
      EmitEvent("RunWorker");
      Track(Succeed);
    }

    /** Starts the workflow, which finishes the run before it returns, or throws when there is no run to finish. */
    method RunWorkflow(deps: Deps) returns (ran: bool)
      requires Valid() && state.pc == CreateRuntime
      modifies this
      ensures Valid() && begun == old(begun)
      ensures ran <==> deps.createsRuntime && deps.startsWorkflow && snapshot.Some?
      ensures state.pc == if ran then Report else Finalize
      ensures state.started == old(state.started) + if deps.createsRuntime && deps.startsWorkflow then 1 else 0
      ensures if ran then Ends(old(snapshot), snapshot, deps.result, deps.workEvents) else snapshot == old(snapshot)
    {
      Track(if deps.createsRuntime then Succeed else Throw);
      if !deps.createsRuntime {
        return false;
      }
      Track(if deps.startsWorkflow then Succeed else Throw);
      if !deps.startsWorkflow {
        return false;
      }
      EmitDuring(deps.workEvents);
      if snapshot.Some? && !snapshot.value.done {
        snapshot := Some(snapshot.value.(done := true, result := Some(deps.result)));
      }
      Track(End(deps.result));
      return snapshot.Some?;
    }

    /** The guards before any provider or workflow: false when the delivery has already returned. */
    method PassGuards(job: Job) returns (proceed: bool, completed: bool)
      requires Valid() && state.pc == Ensure && state.job == job
      modifies this
      ensures Valid() && begun == old(begun)
      ensures state.pc == if proceed then ResolveProvider else Returned(completed)
      ensures state.started == old(state.started) && (proceed <==> Admitted(job, old(snapshot)))
      ensures var kept := if named && old(snapshot).None? then Some(RunView(false, None, [])) else old(snapshot);
              if proceed then snapshot == kept else Ends(kept, snapshot, Failed, ["RunWorker"])
      ensures completed <==> job.valid && old(IsDone(state)) && old(snapshot).value.result == Some(Passed)
    {
      if named && snapshot.None? {
        snapshot := Some(RunView(false, None, []));
      }
      Track(Succeed);
      Track(Succeed);
      if !job.valid {
        FinalizeFailure();
        return false, false;
      }
      if snapshot.Some? && snapshot.value.done {
        completed := snapshot.value.result == Some(Passed);
        EmitEvent("RunWorker");
        Track(Succeed);
        return false, completed;
      }
      Track(Succeed);
      Track(Succeed);
      if snapshot.Some? && snapshot.value.events != [] {
        FinalizeFailure();
        return false, false;
      }
      return true, false;
    }

    /** One whole delivery: it ends where the transition system's delivery returns, with the run done. */
    method ExecuteRunJob(job: Job, deps: Deps) returns (completed: bool)
      requires Valid() && Idle(state)
      modifies this
      ensures Valid() && begun == Step(old(state), Deliver(job)) && state.pc == Returned(completed)
      ensures (snapshot.Some? <==> named || old(snapshot).Some?) && (snapshot.Some? ==> snapshot.value.done)
      ensures state.started == old(state.started)
                + if Admitted(job, old(snapshot)) && deps.bindsProvider && deps.createsRuntime && deps.startsWorkflow
                  then 1 else 0
      ensures snapshot.None? ==> !completed
      ensures old(snapshot).Some? && old(snapshot).value.done ==>
                && snapshot.value.result == old(snapshot).value.result
                && (completed <==> job.valid && old(snapshot).value.result == Some(Passed))
      ensures snapshot.Some? && !(old(snapshot).Some? && old(snapshot).value.done) ==>
                && (completed <==> snapshot.value.result == Some(Passed))
                && snapshot.value.result
                   == Some(if && Admitted(job, old(snapshot))
                              && deps.bindsProvider && deps.createsRuntime && deps.startsWorkflow
                           then deps.result else Failed)
    {
      state := Step(state, Deliver(job));
      begun, choices := state, [];
      var proceed;
      proceed, completed := PassGuards(job);
      if !proceed {
        return;
      }
      var bound := BindProvider(deps);
      if !bound {
        return false;
      }
      var ran := RunWorkflow(deps);
      if !ran {
        FinalizeFailure();
        return false;
      }
      completed := IsPassed(snapshot);
      EmitEvent("RunWorker");
      Track(Succeed);
    }
  }
}
