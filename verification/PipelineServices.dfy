/**
 * The worker's code as objects that update one run's durable state in place. Every method is proved to take
 * the state exactly where the transition system takes it when no other process acts in between.
 */
module PipelineServices {
  import opened Wrappers
  import opened Stages
  import opened PipelineFrames
  import opened PipelineMachine
  import S = PipelineState

  // ---- The process of the transition system that a method refines ----

  function One(H: HashFunction, r: StepResult, n: nat, c: Choice): StepResult {
    ProcessStep(H, r.sh, r.log, n, r.proc, c)
  }

  predicate SameProcess(p: Process, q: Process) {
    match p
    case Worker(id, _, leaseLost, _) => q.Worker? && q.id == id && q.leaseLost == leaseLost
    case Confirming(_) => q.Confirming?
    case Approving(hash, _) => q.Approving? && q.hash == hash
  }

  /** A worker attempt stays a worker attempt on the same identity; a human request stays that request. */
  lemma OneKeepsProcess(H: HashFunction, r: StepResult, n: nat, c: Choice)
    ensures SameProcess(r.proc, One(H, r, n, c).proc)
  {
    hide WorkStep, FinishingStep, Resolve;
    if r.proc.Worker? {
      if r.proc.pc.Working? {
        WorkIsFramed(H, r.sh, r.log, n, r.proc, c);
      } else if r.proc.pc.Carrying? && r.proc.pc.carry.Finishing? {
        FinishingIsFramed(r.sh, r.log, r.proc, r.proc.pc.outcome, r.proc.pc.carry.finish);
      }
    }
  }

  /** The process run alone for k actions. */
  function Solo(H: HashFunction, r: StepResult, n: nat, c: Choice, k: nat): (r': StepResult)
    ensures SameProcess(r.proc, r'.proc)
  {
    if k == 0 then r
    else
      var before := Solo(H, r, n, c, k - 1);
      OneKeepsProcess(H, before, n, c);
      One(H, before, n, c)
  }

  ghost predicate Reaches(H: HashFunction, r: StepResult, n: nat, c: Choice, r': StepResult) {
    exists k: nat :: Solo(H, r, n, c, k) == r'
  }

  lemma ReachesSelf(H: HashFunction, r: StepResult, n: nat, c: Choice)
    ensures Reaches(H, r, n, c, r)
  {
    assert Solo(H, r, n, c, 0) == r;
  }

  lemma ReachesOne(H: HashFunction, r: StepResult, n: nat, c: Choice, mid: StepResult)
    requires Reaches(H, r, n, c, mid)
    ensures Reaches(H, r, n, c, One(H, mid, n, c))
  {
    var k: nat :| Solo(H, r, n, c, k) == mid;
    assert Solo(H, r, n, c, k + 1) == One(H, mid, n, c);
  }

  predicate AtEnd(p: Process) {
    match p
    case Worker(_, pc, _, _) => pc.Ended?
    case Confirming(step) => step.Confirmed?
    case Approving(_, step) => step.Approved?
  }

  lemma {:induction false} EndIsFixed(H: HashFunction, r: StepResult, n: nat, c: Choice, j: nat, k: nat)
    requires j <= k && AtEnd(Solo(H, r, n, c, j).proc)
    ensures Solo(H, r, n, c, k) == Solo(H, r, n, c, j)
  {
    if j < k {
      EndIsFixed(H, r, n, c, j, k - 1);
    }
  }

  /** A process run alone has one end: whatever code ends where the process can end, ends in the same state. */
  lemma {:induction false} EndIsUnique(H: HashFunction, r: StepResult, n: nat, c: Choice, a: StepResult, b: StepResult)
    requires Reaches(H, r, n, c, a) && Reaches(H, r, n, c, b) && AtEnd(a.proc) && AtEnd(b.proc)
    ensures a == b
  {
    var j: nat :| Solo(H, r, n, c, j) == a;
    var k: nat :| Solo(H, r, n, c, k) == b;
    if j <= k {
      EndIsFixed(H, r, n, c, j, k);
    } else {
      EndIsFixed(H, r, n, c, k, j);
    }
  }

  /** The same process as an uninterrupted stretch of a whole run. */
  lemma {:induction false} SoloIsAStretchOfARun(H: HashFunction, actions: seq<Action>, n: nat, c: Choice, k: nat)
    requires n in Run(H, actions).procs
    ensures var s := Run(H, actions);
            var r := Solo(H, StepResult(s.sh, s.log, s.procs[n]), n, c, k);
            Run(H, actions + seq(k, _ => Act(n, c))) == s.(sh := r.sh, log := r.log, procs := s.procs[n := r.proc])
  {
    hide ProcessStep;
    var acts := seq(k, _ => Act(n, c));
    if k == 0 {
      assert actions + acts == actions;
    } else {
      SoloIsAStretchOfARun(H, actions, n, c, k - 1);
      assert (actions + acts)[..|actions + acts| - 1] == actions + seq(k - 1, _ => Act(n, c));
    }
  }

  // ---- Durable state ----

  /** One run's keys, queued jobs, artifacts and snapshot, each a field that methods reassign. */
  class RunState {
    var outcomes: map<Identity, Outcome>
    var executed: set<Identity>
    var marks: map<Identity, S.Mark>
    var leases: map<Identity, nat>
    var completed: set<S.CompletedKey>
    var revision: nat
    var planGate: bool
    var builderIntent: bool
    var finalization: Option<Issue>
    var terminalState: Option<S.Mark>
    var terminalIssue: Option<Option<Issue>>
    var jobs: set<Identity>
    var triple: Option<S.Triple>
    var confirmed: Option<S.Package>
    var gate: Option<S.Gate>
    var approval: Option<string>
    var proof: Option<Proof>
    var buildResult: Option<S.BuildResult>
    var snapshot: S.Snapshot
    var doneEvents: nat

    ghost function View(): S.Shared
      reads this
    {
      S.Shared(outcomes, executed, marks, leases, completed, revision, planGate, builderIntent, finalization,
               terminalState, terminalIssue, jobs, triple, confirmed, gate, approval, proof, buildResult,
               snapshot, doneEvents)
    }

    constructor ()
      ensures View() == S.Submitted()
    {
      outcomes, executed, marks, leases, completed := map[], {}, map[], map[], {};
      revision, planGate, builderIntent, finalization := 0, false, false, None;
      terminalState, terminalIssue, jobs := None, None, {Identity(Researcher, 0)};
      triple, confirmed, gate, approval, proof, buildResult := None, None, None, None, None, None;
      snapshot, doneEvents := S.Running, 0;
    }
  }

  class PipelineCheckpoints {
    const redis: RunState

    constructor (redis: RunState)
      ensures this.redis == redis
    {
      this.redis := redis;
    }

    /** The Lua script: with a token, both keys are written only while the lease stores that token. */
    method SaveExecution(id: Identity, outcome: Outcome, token: Option<nat>) returns (saved: bool)
      modifies redis
      ensures (redis.View(), saved) == S.SaveExecution(old(redis.View()), id, outcome, token)
    {
      if token.Some? && !(id in redis.leases && redis.leases[id] == token.value) {
        return false;
      }
      redis.outcomes := redis.outcomes[id := outcome];
      redis.executed := redis.executed + {id};
      return true;
    }

    method RecordBuilderIntent() returns (first: bool)
      modifies redis
      ensures (redis.View(), first) == S.RecordBuilderIntent(old(redis.View()))
    {
      first := !redis.builderIntent;
      redis.builderIntent := true;
    }

    method MarkTransition(id: Identity, mark: S.Mark)
      modifies redis
      ensures redis.View() == S.SetMark(old(redis.View()), id, mark)
    {
      redis.marks := redis.marks[id := mark];
    }

    method SaveFinalizationIntent(issue: Issue)
      modifies redis
      ensures redis.View() == old(redis.View()).(finalization := Some(issue))
    {
      redis.finalization := Some(issue);
    }

    /** SET NX on the terminal state; the issue is a second, separate write. */
    method SetTerminalPending() returns (acquired: bool)
      modifies redis
      ensures (redis.View(), acquired) == S.MarkTerminalPending(old(redis.View()))
    {
      acquired := redis.terminalState.None?;
      if acquired {
        redis.terminalState := Some(S.Pending);
      }
    }

    method SetTerminalIssue(issue: Option<Issue>)
      modifies redis
      ensures redis.View() == old(redis.View()).(terminalIssue := Some(issue))
    {
      redis.terminalIssue := Some(issue);
    }

    method GetTerminalIssue() returns (issue: Option<Issue>)
      ensures issue == RecordedIssue(redis.View())
    {
      issue := if redis.terminalIssue.Some? then redis.terminalIssue.value else None;
    }

    method MarkTerminalCommitted()
      modifies redis
      ensures redis.View() == old(redis.View()).(terminalState := Some(S.Committed))
    {
      redis.terminalState := Some(S.Committed);
    }
  }

  class PipelineIdempotency {
    const redis: RunState

    constructor (redis: RunState)
      ensures this.redis == redis
    {
      this.redis := redis;
    }

    method IsCompleted(stage: string, iteration: nat) returns (done: bool)
      ensures done == (S.CompletedKey(stage, iteration) in redis.View().completed)
    {
      done := S.CompletedKey(stage, iteration) in redis.completed;
    }

    method MarkCompleted(stage: string, iteration: nat)
      modifies redis
      ensures redis.View() == old(redis.View()).(completed := old(redis.completed) + {S.CompletedKey(stage, iteration)})
    {
      redis.completed := redis.completed + {S.CompletedKey(stage, iteration)};
    }

    method SetLease(id: Identity, token: nat) returns (granted: bool)
      modifies redis
      ensures (redis.View(), granted) == S.AcquireLease(old(redis.View()), id, token)
    {
      granted := id !in redis.leases;
      if granted {
        redis.leases := redis.leases[id := token];
      }
    }

    method Renew(id: Identity, token: nat) returns (owned: bool)
      ensures owned <==> id in redis.View().leases && redis.View().leases[id] == token
    {
      owned := id in redis.leases && redis.leases[id] == token;
    }

    method Release(id: Identity, token: nat) returns (released: bool)
      modifies redis
      ensures (redis.View(), released) == S.ReleaseLease(old(redis.View()), id, token)
    {
      released := id in redis.leases && redis.leases[id] == token;
      if released {
        redis.leases := redis.leases - {id};
      }
    }
  }
}
