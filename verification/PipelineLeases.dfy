/**
 * Lease fencing, from any state and under any interleaving: who may write an outcome, who may touch a lease,
 * and exactly when a commit overwrites an outcome that was already there.
 */
module PipelineLeases {
  import opened Wrappers
  import opened Stages
  import opened PipelineState
  import opened PipelineMachine
  import opened PipelineFrames
  import opened PipelineSafety

  // ---- Lease fencing ----

  /** The action is the attempt n of this identity acting while Redis stores its token for the lease. */
  predicate ActsAsOwner(s: System, action: Action, id: Identity) {
    && action.Act? && action.n in s.procs && s.procs[action.n].Worker? && s.procs[action.n].id == id
    && id in s.sh.leases && s.sh.leases[id] == action.n
  }

  predicate SameRedis(sh: Shared, sh': Shared) {
    sh'.outcomes == sh.outcomes && sh'.executed == sh.executed && sh'.leases == sh.leases
  }

  /** Only acquiring, saving, releasing and abandoning touch a lease or an outcome. */
  lemma OthersLeaveRedis(H: HashFunction, sh: Shared, log: History, n: nat, p: Process, c: Choice)
    requires p.Worker? ==> p.pc != Entering(Acquire) && !p.pc.Save? && p.pc != Abandon
                           && !(p.pc.Carrying? && p.pc.carry.Release?)
    ensures SameRedis(sh, ProcessStep(H, sh, log, n, p, c).sh)
  {
    hide WorkStep, CarryingStep, EntryStepOf, FinishingStep;
    if !p.Worker? {
      HumanIsFramed(H, sh, log, n, p, c);
    } else if p.pc.Working? {
      WorkIsFramed(H, sh, log, n, p, c);
    } else if p.pc.Carrying? {
      CarryingLeavesRedis(sh, log, n, p, p.pc.outcome, p.pc.carry);
    } else if p.pc.Entering? {
      EntryIsFramed(sh, log, n, p, p.pc.entry);
    }
  }

  lemma CarryingLeavesRedis(sh: Shared, log: History, n: nat, p: Process, o: Outcome, step: CarryStep)
    requires p.Worker? && !step.Release?
    ensures SameRedis(sh, CarryingStep(sh, log, n, p, o, step).sh)
  {
    if step.Finishing? {
      FinishingIsFramed(sh, log, p, o, step.finish);
      hide FinishingStep;
    } else {
      CarryingIsFramed(sh, log, n, p, o, step);
      hide CarryingStep;
    }
  }

  /**
   * From any state, by any action: an outcome or executed marker changes only when the attempt that stores
   * it owns the lease at that instant, and then it becomes that attempt's outcome.
   */
  lemma {:induction false} OutcomesAreFenced(H: HashFunction, s: System, action: Action)
    ensures var s' := Step(H, s, action);
            (s'.sh.outcomes == s.sh.outcomes && s'.sh.executed == s.sh.executed)
            || (&& action.Act? && action.n in s.procs && s.procs[action.n].Worker?
                && ActsAsOwner(s, action, s.procs[action.n].id)
                && s.procs[action.n].pc.Save? && !s.procs[action.n].leaseLost
                && s'.sh.outcomes == s.sh.outcomes[s.procs[action.n].id := s.procs[action.n].pc.result]
                && s'.sh.executed == s.sh.executed + {s.procs[action.n].id})
  {
    if action.Act? && action.n in s.procs {
      var p := s.procs[action.n];
      if p.Worker? && (p.pc == Entering(Acquire) || p.pc.Save? || p.pc == Abandon || (p.pc.Carrying? && p.pc.carry.Release?)) {
      } else {
        OthersLeaveRedis(H, s.sh, s.log, action.n, p, action.choice);
      }
    }
  }

  /** From any state, by any action: a lease is granted only when free, and removed only by its owner or expiry. */
  lemma {:induction false} LeasesAreFenced(H: HashFunction, s: System, action: Action, id: Identity)
    ensures var s' := Step(H, s, action);
            id in s.sh.leases && !(id in s'.sh.leases && s'.sh.leases[id] == s.sh.leases[id]) ==>
              id !in s'.sh.leases && (action == Expire(id) || ActsAsOwner(s, action, id))
    ensures var s' := Step(H, s, action);
            id !in s.sh.leases && id in s'.sh.leases ==>
              && action.Act? && s'.sh.leases[id] == action.n && action.n in s.procs
              && s.procs[action.n].Worker? && s.procs[action.n].id == id && s.procs[action.n].pc == Entering(Acquire)
  {
    if action.Act? && action.n in s.procs {
      var p := s.procs[action.n];
      if p.Worker? && (p.pc == Entering(Acquire) || p.pc.Save? || p.pc == Abandon || (p.pc.Carrying? && p.pc.carry.Release?)) {
      } else {
        OthersLeaveRedis(H, s.sh, s.log, action.n, p, action.choice);
      }
    }
  }

  // ---- What an attempt knows about the time since it was granted its lease ----

  predicate Executing(p: Process) {
    p.Worker? && (p.pc.Working? || p.pc.Save?)
  }

  /** The action is attempt n taking the free lease of its identity. */
  predicate IsGranted(s: System, action: Action, n: nat) {
    && action.Act? && action.n == n && n in s.procs && s.procs[n].Worker?
    && s.procs[n].pc == Entering(Acquire) && s.procs[n].id !in s.sh.leases
  }

  /** An attempt past its entry stays past it, on the same identity. */
  lemma NeverEntersAgain(H: HashFunction, sh: Shared, log: History, n: nat, p: Process, c: Choice)
    requires p.Worker? && !p.pc.Entering?
    ensures var q := ProcessStep(H, sh, log, n, p, c).proc; q.Worker? && q.id == p.id && !q.pc.Entering?
    ensures Executing(ProcessStep(H, sh, log, n, p, c).proc) ==>
              Executing(p) && ProcessStep(H, sh, log, n, p, c).proc.stale == p.stale
  {
    hide WorkStep, FinishingStep, Resolve;
    if p.pc.Working? {
      WorkIsFramed(H, sh, log, n, p, c);
    } else if p.pc.Carrying? && p.pc.carry.Finishing? {
      FinishingIsFramed(sh, log, p, p.pc.outcome, p.pc.carry.finish);
    }
  }

  lemma ExecutingWasGranted(H: HashFunction, s: System, action: Action, n: nat)
    requires n in Step(H, s, action).procs && Executing(Step(H, s, action).procs[n])
    ensures n in s.procs && s.procs[n].Worker? && s.procs[n].id == Step(H, s, action).procs[n].id
    ensures var p, q := s.procs[n], Step(H, s, action).procs[n];
            || (Executing(p) && p.stale == q.stale)
            || (IsGranted(s, action, n) && (q.stale <==> q.id in s.sh.executed))
  {
    hide ProcessStep;
    if action.Act? && action.n == n && n in s.procs {
      StepOfExecuting(H, s.sh, s.log, n, s.procs[n], action.choice);
    }
  }

  lemma StepOfExecuting(H: HashFunction, sh: Shared, log: History, n: nat, p: Process, c: Choice)
    requires Executing(ProcessStep(H, sh, log, n, p, c).proc)
    ensures var q := ProcessStep(H, sh, log, n, p, c).proc;
            && p.Worker? && q.id == p.id
            && ((Executing(p) && p.stale == q.stale)
                || (p.pc == Entering(Acquire) && p.id !in sh.leases && (q.stale <==> p.id in sh.executed)))
  {
    if p.Worker? && !p.pc.Entering? {
      NeverEntersAgain(H, sh, log, n, p, c);
    }
  }

  /** The moment at which an executing attempt was granted its lease, and what it then did not read. */
  lemma {:induction false} GrantOf(H: HashFunction, actions: seq<Action>, n: nat) returns (k: nat)
    requires n in Run(H, actions).procs && Executing(Run(H, actions).procs[n])
    ensures k < |actions| && IsGranted(Run(H, actions[..k]), actions[k], n)
    ensures Run(H, actions[..k]).procs[n].id == Run(H, actions).procs[n].id
    ensures Run(H, actions).procs[n].stale <==> Run(H, actions).procs[n].id in Run(H, actions[..k]).sh.executed
  {
    var last := |actions| - 1;
    var before := Run(H, actions[..last]);
    hide Step, Executing;
    ExecutingWasGranted(H, before, actions[last], n);
    if IsGranted(before, actions[last], n) && !Executing(before.procs[n]) {
      k := last;
    } else {
      k := GrantOf(H, actions[..last], n);
      assert actions[..last][..k] == actions[..k];
    }
  }

  /**
   * Exactly when a commit overwrites an outcome: the identity had already been executed at the moment k at which
   * the attempt was granted its lease, because runStage does not read the executed marker again once it holds it.
   */
  lemma {:induction false} CommitOverwritesIffStale(H: HashFunction, actions: seq<Action>, n: nat) returns (k: nat)
    requires n in Run(H, actions).procs && Run(H, actions).procs[n].Worker? && Run(H, actions).procs[n].pc.Save?
    requires ActsAsOwner(Run(H, actions), Act(n, NoChoice()), Run(H, actions).procs[n].id)
    ensures k < |actions| && IsGranted(Run(H, actions[..k]), actions[k], n)
    ensures var id := Run(H, actions).procs[n].id;
            id in Run(H, actions).sh.outcomes <==> id in Run(H, actions[..k]).sh.executed
  {
    hide Run;
    k := GrantOf(H, actions, n);
    ReachableInv(H, actions);
    assert ProcessInv(H, Run(H, actions).sh, Run(H, actions).log, n, Run(H, actions).procs[n]);
  }

  function NoChoice(): Choice {
    Choice(Triple(false, Failed, Failed, Failed), 0, false, BuildResult(Failed, None), false, false)
  }

  predicate Stores(s: System, id: Identity, n: nat) {
    id in s.sh.leases && s.sh.leases[id] == n
  }

  /** Attempt n has passed its entry; it can never take the lease again. */
  predicate HasEntered(s: System, n: nat) {
    n in s.procs && n < s.next && s.procs[n].Worker? && !s.procs[n].pc.Entering?
  }

  lemma StepKeepsEntered(H: HashFunction, s: System, action: Action, n: nat)
    requires HasEntered(s, n)
    ensures HasEntered(Step(H, s, action), n) && Step(H, s, action).procs[n].id == s.procs[n].id
  {
    hide ProcessStep;
    if action.Act? && action.n == n {
      NeverEntersAgain(H, s.sh, s.log, n, s.procs[n], action.choice);
    }
  }

  lemma {:induction false} RunKeepsEntered(H: HashFunction, actions: seq<Action>, k: nat, n: nat)
    requires k <= |actions| && HasEntered(Run(H, actions[..k]), n)
    ensures HasEntered(Run(H, actions), n) && Run(H, actions).procs[n].id == Run(H, actions[..k]).procs[n].id
    decreases |actions|
  {
    hide HasEntered, Step;
    if k == |actions| {
      assert actions[..k] == actions;
    } else {
      var before := actions[..|actions| - 1];
      assert before[..k] == actions[..k];
      RunKeepsEntered(H, before, k, n);
      StepKeepsEntered(H, Run(H, before), actions[|actions| - 1], n);
    }
  }

  predicate SameOutcome(sh: Shared, sh': Shared, id: Identity) {
    (id in sh'.outcomes <==> id in sh.outcomes) && (id in sh.outcomes ==> sh'.outcomes[id] == sh.outcomes[id])
  }

  /** One step backwards: a token stored now was stored before, unless its attempt has just taken the lease. */
  lemma StoredBefore(H: HashFunction, s: System, action: Action, id: Identity, n: nat)
    requires HasEntered(s, n) && Stores(Step(H, s, action), id, n)
    ensures Stores(s, id, n)
    ensures SameOutcome(s.sh, Step(H, s, action).sh, id) || (action.Act? && action.n == n)
  {
    LeasesAreFenced(H, s, action, id);
    OutcomesAreFenced(H, s, action);
  }

  /**
   * What a renewal that finds its token proves: the attempt's lease was stored without interruption ever since it
   * was granted, and in all that time nobody else recorded an outcome for its stage. An expiry cannot go unnoticed.
   */
  lemma {:induction false} RenewalMeansUnbrokenOwnership(
    H: HashFunction, actions: seq<Action>, k: nat, n: nat, id: Identity)
    requires k <= |actions| && HasEntered(Run(H, actions[..k]), n)
    requires Stores(Run(H, actions), id, n)
    ensures forall j :: k <= j <= |actions| ==> Stores(Run(H, actions[..j]), id, n)
    ensures forall j :: k <= j < |actions| ==>
              SameOutcome(Run(H, actions[..j]).sh, Run(H, actions[..j + 1]).sh, id)
              || (actions[j].Act? && actions[j].n == n)
    decreases |actions|
  {
    hide *;
    assert actions[..|actions|] == actions;
    if k < |actions| {
      var last := |actions| - 1;
      var before := actions[..last];
      assert before[..k] == actions[..k];
      RunKeepsEntered(H, before, k, n);
      LastStep(H, actions);
      StoredBefore(H, Run(H, before), actions[last], id, n);
      RenewalMeansUnbrokenOwnership(H, before, k, n, id);
      forall j | k <= j <= last ensures before[..j] == actions[..j] {
      }
    }
  }

  lemma LastStep(H: HashFunction, actions: seq<Action>)
    requires actions != []
    ensures Run(H, actions) == Step(H, Run(H, actions[..|actions| - 1]), actions[|actions| - 1])
  {
  }

  // ---- The completed check inside acquire ----

  ghost predicate BareNames(completed: set<CompletedKey>) {
    forall key :: key in completed ==> exists stage :: key.stage == StageName(stage)
  }

  lemma CarryingMarksBareNames(sh: Shared, log: History, n: nat, p: Process, o: Outcome, step: CarryStep)
    requires p.Worker? && BareNames(sh.completed)
    ensures BareNames(CarryingStep(sh, log, n, p, o, step).sh.completed)
  {
    if step.Finishing? {
      FinishingIsFramed(sh, log, p, o, step.finish);
      hide FinishingStep;
    } else {
      CarryingIsFramed(sh, log, n, p, o, step);
      hide CarryingStep;
    }
  }

  lemma StepKeepsBareNames(H: HashFunction, s: System, action: Action)
    requires BareNames(s.sh.completed)
    ensures BareNames(Step(H, s, action).sh.completed)
  {
    hide WorkStep, CarryingStep, EntryStepOf, FinishingStep;
    if action.Act? && action.n in s.procs {
      var p := s.procs[action.n];
      if !p.Worker? {
        HumanIsFramed(H, s.sh, s.log, action.n, p, action.choice);
      } else if p.pc.Working? {
        WorkIsFramed(H, s.sh, s.log, action.n, p, action.choice);
      } else if p.pc.Carrying? {
        CarryingMarksBareNames(s.sh, s.log, action.n, p, p.pc.outcome, p.pc.carry);
      } else if p.pc.Entering? {
        EntryIsFramed(s.sh, s.log, action.n, p, p.pc.entry);
      }
    }
  }

  /** Over every run the completed check inside acquire finds nothing: the lease alone decides who executes. */
  lemma {:induction false} TheLeaseAloneDecides(H: HashFunction, actions: seq<Action>, id: Identity)
    ensures BareNames(Run(H, actions).sh.completed)
    ensures !AcquireSeesCompleted(Run(H, actions).sh, id)
  {
    if actions != [] {
      var before := actions[..|actions| - 1];
      TheLeaseAloneDecides(H, before, id);
      StepKeepsBareNames(H, Run(H, before), actions[|actions| - 1]);
    }
    AcquireNeverSeesCompleted(Run(H, actions).sh, id);
  }
}
