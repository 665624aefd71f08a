/** Why a run failed: in every run without overlap the issue Finalize fails with is one that some stage ended with. */
module PipelineBlame {
  import opened Wrappers
  import opened Stages
  import opened PipelineState
  import opened PipelineMachine
  import opened PipelineFrames
  import opened PipelineSafety
  import opened PipelineRecovery
  import opened PipelineCompletion

  /** The stage ended the run's work with this issue: it failed, or asked for one refinement too many. */
  predicate Carries(id: Identity, o: Outcome, issue: Issue) {
    && id.stage != Finalize
    && (o == Terminal(issue) || (id.stage == TripleValidation && id.iteration == 3 && o == Refine(issue)))
  }

  ghost predicate Blamed(outcomes: map<Identity, Outcome>, issue: Issue) {
    exists id :: id in outcomes && Carries(id, outcomes[id], issue)
  }

  /** Finalize has its issue from such a stage, or found the two hashes different itself. */
  ghost predicate IsReason(outcomes: map<Identity, Outcome>, issue: Issue) {
    Blamed(outcomes, issue) || issue == Issue(RootCause, "Finalize hash verification failed")
  }

  ghost predicate SavesReason(outcomes: map<Identity, Outcome>, p: Process) {
    p.Worker? && p.pc.Save? && p.id.stage == Finalize && p.pc.result.Terminal? ==> IsReason(outcomes, p.pc.result.issue)
  }

  ghost predicate BlameInv(s: System) {
    && (s.sh.finalization.Some? ==> Blamed(s.sh.outcomes, s.sh.finalization.value))
    && (LAST_STAGE in s.sh.outcomes && s.sh.outcomes[LAST_STAGE].Terminal? ==>
          IsReason(s.sh.outcomes, s.sh.outcomes[LAST_STAGE].issue))
    && (forall n :: n in s.procs ==> SavesReason(s.sh.outcomes, s.procs[n]))
  }

  lemma ReasonStays(outcomes: map<Identity, Outcome>, id: Identity, o: Outcome, issue: Issue)
    requires IsReason(outcomes, issue) && id !in outcomes
    ensures IsReason(outcomes[id := o], issue)
    ensures Blamed(outcomes, issue) ==> Blamed(outcomes[id := o], issue)
  {
    if x :| x in outcomes && Carries(x, outcomes[x], issue) {
      assert x in outcomes[id := o] && Carries(x, outcomes[id := o][x], issue);
    }
  }

  /** The work of Finalize ends in the requested failure, in its own comparison's, or without one. */
  lemma FinalizeReasons(H: HashFunction, sh: Shared, log: History, n: nat, p: Process, c: Choice)
    requires p.Worker? && p.pc.Working? && p.id.stage == Finalize && (p.pc.work.Begin? || p.pc.work.Finalizing?)
    ensures var r := WorkStep(H, sh, log, n, p, c);
            r.proc.Worker? && r.proc.pc.Save? && r.proc.pc.result.Terminal? ==>
              || sh.finalization == Some(r.proc.pc.result.issue)
              || r.proc.pc.result.issue == Issue(RootCause, "Finalize hash verification failed")
  {
  }

  /** An attempt moved on: the invariant follows from what it did to the intent and what it will save. */
  lemma MoveKeepsBlame(s: System, s': System, n: nat)
    requires BlameInv(s) && s'.sh.outcomes == s.sh.outcomes && n in s.procs
    requires forall m :: m in s'.procs && m != n ==> m in s.procs && s'.procs[m] == s.procs[m]
    requires n in s'.procs && SavesReason(s.sh.outcomes, s'.procs[n])
    requires s'.sh.finalization == s.sh.finalization
             || (s'.sh.finalization.Some? && Blamed(s.sh.outcomes, s'.sh.finalization.value))
    ensures BlameInv(s')
  {
    hide Blamed, IsReason;
  }

  lemma FinalizeWork(H: HashFunction, s: System, n: nat)
    requires NonOverlapInv(H, s) && n in s.procs && s.procs[n].Worker? && s.procs[n].pc.Working?
    ensures s.procs[n].id.stage == Finalize ==> s.procs[n].pc.work.Begin? || s.procs[n].pc.work.Finalizing?
  {
    assert ProcessInv(H, s.sh, s.log, n, s.procs[n]);
  }

  lemma WorkSavesReason(H: HashFunction, s: System, n: nat, p: Process, c: Choice)
    requires BlameInv(s) && p.Worker? && p.pc.Working?
    requires p.id.stage == Finalize ==> p.pc.work.Begin? || p.pc.work.Finalizing?
    requires WorkStep(H, s.sh, s.log, n, p, c).proc.Worker? && WorkStep(H, s.sh, s.log, n, p, c).proc.id == p.id
    ensures SavesReason(s.sh.outcomes, WorkStep(H, s.sh, s.log, n, p, c).proc)
  {
    hide WorkStep, Blamed;
    if p.id.stage == Finalize {
      FinalizeReasons(H, s.sh, s.log, n, p, c);
    }
  }

  lemma WorkingKeepsBlame(H: HashFunction, s: System, n: nat, c: Choice)
    requires NonOverlapInv(H, s) && BlameInv(s) && n in s.procs && s.procs[n].Worker? && s.procs[n].pc.Working?
    ensures BlameInv(Step(H, s, Act(n, c)))
  {
    FinalizeWork(H, s, n);
    hide NonOverlapInv, WorkStep, BlameInv, SavesReason;
    WorkIsFramed(H, s.sh, s.log, n, s.procs[n], c);
    WorkSavesReason(H, s, n, s.procs[n], c);
    MoveKeepsBlame(s, Step(H, s, Act(n, c)), n);
  }

  lemma SavedIsNew(H: HashFunction, s: System, n: nat)
    requires NonOverlapInv(H, s) && n in s.procs && s.procs[n].Worker? && s.procs[n].pc.Save?
    ensures s.procs[n].id !in s.sh.outcomes
  {
    assert AttemptInv(H, s.sh, s.procs[n]);
  }

  /** An attempt recorded its outcome. */
  lemma RecordKeepsBlame(s: System, s': System, n: nat, id: Identity, o: Outcome)
    requires BlameInv(s) && id !in s.sh.outcomes && s'.sh.outcomes == s.sh.outcomes[id := o] && n in s'.procs
    requires s'.sh.finalization == s.sh.finalization
    requires id.stage == Finalize && o.Terminal? ==> IsReason(s.sh.outcomes, o.issue)
    requires forall m :: m in s'.procs && m != n ==> m in s.procs && s'.procs[m] == s.procs[m]
    requires !(s'.procs[n].Worker? && s'.procs[n].pc.Save?)
    ensures BlameInv(s')
  {
    hide Blamed, IsReason;
    forall issue | IsReason(s.sh.outcomes, issue)
      ensures IsReason(s'.sh.outcomes, issue)
      ensures Blamed(s.sh.outcomes, issue) ==> Blamed(s'.sh.outcomes, issue)
    {
      ReasonStays(s.sh.outcomes, id, o, issue);
    }
    if s.sh.finalization.Some? {
      BlamedIsReason(s.sh.outcomes, s.sh.finalization.value);
    }
  }

  lemma SavingKeepsBlame(H: HashFunction, s: System, n: nat, c: Choice)
    requires NonOverlapInv(H, s) && BlameInv(s) && n in s.procs && s.procs[n].Worker? && s.procs[n].pc.Save?
    ensures BlameInv(Step(H, s, Act(n, c)))
  {
    var p, s' := s.procs[n], Step(H, s, Act(n, c));
    SavedIsNew(H, s, n);
    assert SavesReason(s.sh.outcomes, p);
    hide NonOverlapInv, BlameInv, IsReason;
    if s'.sh.outcomes == s.sh.outcomes {
      MoveKeepsBlame(s, s', n);
    } else {
      RecordKeepsBlame(s, s', n, p.id, p.pc.result);
    }
  }

  lemma BlamedIsReason(outcomes: map<Identity, Outcome>, issue: Issue)
    requires Blamed(outcomes, issue)
    ensures IsReason(outcomes, issue)
  {
  }

  /** The only transitions that ask for a failed finalization do so with the issue of their own outcome. */
  lemma RequestCarries(id: Identity, o: Outcome)
    requires id.stage != Researcher ==> InPipeline(id)
    ensures var t := Resolve(id.stage, o, id.iteration);
            t.Next? && t.finalization.Some? ==> Carries(id, o, t.finalization.value)
  {
  }

  lemma CarriedIsRecorded(H: HashFunction, s: System, n: nat)
    requires NonOverlapInv(H, s) && n in s.procs && s.procs[n].Worker? && s.procs[n].pc.Carrying?
    ensures var p := s.procs[n];
            && p.id in s.sh.outcomes && s.sh.outcomes[p.id] == p.pc.outcome
            && (p.id.stage != Researcher ==> InPipeline(p.id))
  {
    assert ProcessInv(H, s.sh, s.log, n, s.procs[n]) && AttemptInv(H, s.sh, s.procs[n]);
    assert s.procs[n].id in s.sh.jobs;
  }

  lemma CarryingWritesIntent(sh: Shared, log: History, n: nat, p: Process, o: Outcome, step: CarryStep)
    requires p.Worker?
    ensures var r, t := CarryingStep(sh, log, n, p, o, step), Resolve(p.id.stage, o, p.id.iteration);
            && r.sh.outcomes == sh.outcomes && r.proc.Worker? && !r.proc.pc.Save?
            && (r.sh.finalization == sh.finalization
                || (t.Next? && t.finalization.Some? && r.sh.finalization == t.finalization))
  {
    hide Resolve, FinishingStep;
    if step.Finishing? {
      FinishingIsFramed(sh, log, p, o, step.finish);
    } else {
      CarryingIsFramed(sh, log, n, p, o, step);
    }
  }

  lemma CarryingKeepsBlame(H: HashFunction, s: System, n: nat, c: Choice)
    requires NonOverlapInv(H, s) && BlameInv(s) && n in s.procs && s.procs[n].Worker? && s.procs[n].pc.Carrying?
    ensures BlameInv(Step(H, s, Act(n, c)))
  {
    var p := s.procs[n];
    CarriedIsRecorded(H, s, n);
    RequestCarries(p.id, p.pc.outcome);
    hide NonOverlapInv, BlameInv, Resolve, CarryingStep, Carries;
    CarryingWritesIntent(s.sh, s.log, n, p, p.pc.outcome, p.pc.carry);
    MoveKeepsBlame(s, Step(H, s, Act(n, c)), n);
  }

  lemma StepKeepsBlame(H: HashFunction, s: System, action: Action)
    requires NonOverlapInv(H, s) && BlameInv(s)
    ensures BlameInv(Step(H, s, action))
  {
    hide NonOverlapInv, Blamed, IsReason, WorkStep, CarryingStep, EntryStepOf, ConfirmingStep, ApprovingStep;
    if action.Act? && action.n in s.procs {
      var n, p, c := action.n, s.procs[action.n], action.choice;
      if !p.Worker? {
        HumanIsFramed(H, s.sh, s.log, n, p, c);
      } else if p.pc.Working? {
        WorkingKeepsBlame(H, s, n, c);
      } else if p.pc.Save? {
        SavingKeepsBlame(H, s, n, c);
      } else if p.pc.Carrying? {
        CarryingKeepsBlame(H, s, n, c);
      } else if p.pc.Entering? {
        EntryIsFramed(s.sh, s.log, n, p, p.pc.entry);
      }
    }
  }

  lemma {:induction false} RunKeepsBlame(H: HashFunction, actions: seq<Action>)
    requires NonOverlapping(H, actions)
    ensures BlameInv(Run(H, actions))
  {
    if actions != [] {
      var before := actions[..|actions| - 1];
      RunKeepsBlame(H, before);
      NonOverlappingInv(H, before);
      hide BlameInv, NonOverlapInv, Step;
      StepKeepsBlame(H, Run(H, before), actions[|actions| - 1]);
    }
  }

  /**
   * For every run without overlap: what Finalize fails with is the issue of a recorded stage that failed or asked for
   * one refinement too many, or its own comparison of the hashes; and where the issue was saved, the finished snapshot
   * records that evidence and type.
   */
  lemma {:induction false} FailureIsBlamedOnItsStage(H: HashFunction, actions: seq<Action>)
    requires NonOverlapping(H, actions)
    requires var sh := Run(H, actions).sh; LAST_STAGE in sh.outcomes && sh.outcomes[LAST_STAGE].Terminal?
    ensures var sh := Run(H, actions).sh;
            var issue := sh.outcomes[LAST_STAGE].issue;
            && (|| (exists id :: id in sh.outcomes && Carries(id, sh.outcomes[id], issue))
                || issue == Issue(RootCause, "Finalize hash verification failed"))
            && (sh.snapshot.Finished? && sh.terminalIssue.Some? ==>
                  sh.snapshot.rootCause == Some(issue.evidence) && sh.snapshot.issueType == Some(issue.issueType))
  {
    hide Run, NonOverlapping;
    RunKeepsBlame(H, actions);
    if Run(H, actions).sh.snapshot.Finished? {
      WithoutOverlapTheSnapshotIsDetermined(H, actions);
    }
  }
}
