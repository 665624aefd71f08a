/** Where the pipeline's guarantees end: runs that show what the code does not promise. */
module PipelineLimits {
  import opened Wrappers
  import opened Stages
  import opened PipelineState
  import opened PipelineMachine
  import opened PipelineFrames
  import opened PipelineLeases
  import opened PipelineRecovery
  import opened PipelineServices
  import opened PipelineProgress
  import opened PipelineCompletion
  import opened PipelineRuns

  lemma RunExtends(H: HashFunction, before: seq<Action>, action: Action)
    ensures Run(H, before + [action]) == Step(H, Run(H, before), action)
  {
    assert (before + [action])[..|before|] == before;
  }

  // ---- Overlapping attempts on one identity ----

  const FIRST_JOB: Identity := Identity(Researcher, 0)

  /** Two attempts on the first job, the first at `pc`, the second past its executed check. */
  predicate TwoAttempts(s: System, pc: PC) {
    && s.procs.Keys == {0, 1}
    && s.procs[0] == Worker(FIRST_JOB, pc, false, false)
    && s.procs[1] == Worker(FIRST_JOB, Entering(CheckCompleted), false, false)
  }

  /** Two deliveries of one job both find it not executed. */
  lemma BothFindItUnexecuted(H: HashFunction) returns (actions: seq<Action>)
    ensures TwoAttempts(Run(H, actions), Entering(CheckCompleted))
    ensures Run(H, actions).sh == Submitted()
  {
    actions := [];
    var next := [Deliver(FIRST_JOB), Deliver(FIRST_JOB), Act(1, NoChoice()), Act(0, NoChoice())];
    RunExtends(H, [], next[0]);
    RunExtends(H, [next[0]], next[1]);
    RunExtends(H, [next[0]] + [next[1]], next[2]);
    RunExtends(H, [next[0]] + [next[1]] + [next[2]], next[3]);
    actions := [next[0]] + [next[1]] + [next[2]] + [next[3]];
  }

  /** The first attempt then acquires the lease and executes the stage. */
  lemma FirstAttemptExecutes(H: HashFunction, before: seq<Action>) returns (actions: seq<Action>)
    requires TwoAttempts(Run(H, before), Entering(CheckCompleted)) && Run(H, before).sh == Submitted()
    ensures TwoAttempts(Run(H, actions), Save(Advance(Plain)))
    ensures Run(H, actions).sh == Submitted().(leases := map[FIRST_JOB := 0])
  {
    var act := Act(0, NoChoice());
    hide Run;
    actions := before;
    TheLeaseAloneDecides(H, actions, FIRST_JOB);
    RunExtends(H, actions, act);
    actions := actions + [act];
    assert TwoAttempts(Run(H, actions), Entering(Acquire));
    RunExtends(H, actions, act);
    actions := actions + [act];
    assert TwoAttempts(Run(H, actions), Working(Begin));
    RunExtends(H, actions, act);
    actions := actions + [act];
  }

  /** It commits its outcome and releases its lease. */
  lemma FirstAttemptCommits(H: HashFunction, before: seq<Action>) returns (actions: seq<Action>)
    requires TwoAttempts(Run(H, before), Save(Advance(Plain)))
    requires Run(H, before).sh == Submitted().(leases := map[FIRST_JOB := 0])
    ensures TwoAttempts(Run(H, actions), Carrying(Advance(Plain), ReadMark))
    ensures var sh := Run(H, actions).sh; FIRST_JOB in sh.executed && FIRST_JOB !in sh.leases
  {
    var act := Act(0, NoChoice());
    hide Run;
    actions := before;
    RunExtends(H, actions, act);
    actions := actions + [act];
    assert TwoAttempts(Run(H, actions), Carrying(Advance(Plain), WriteCompleted));
    RunExtends(H, actions, act);
    actions := actions + [act];
    assert TwoAttempts(Run(H, actions), Carrying(Advance(Plain), Release));
    RunExtends(H, actions, act);
    actions := actions + [act];
  }

  /**
   * An executed stage is executed again: the overlapping attempt acquires the released lease without reading
   * the marker a second time, and its commit will overwrite the outcome.
   */
  lemma {:induction false} OverlappingAttemptExecutesAgain(H: HashFunction) returns (actions: seq<Action>)
    ensures var s := Run(H, actions);
            && FIRST_JOB in s.sh.executed
            && 1 in s.procs && s.procs[1] == Worker(FIRST_JOB, Working(Begin), false, true)
            && FIRST_JOB in s.sh.leases && s.sh.leases[FIRST_JOB] == 1
  {
    actions := BothFindItUnexecuted(H);
    actions := FirstAttemptExecutes(H, actions);
    actions := FirstAttemptCommits(H, actions);
    hide Run;
    TheLeaseAloneDecides(H, actions, FIRST_JOB);
    RunExtends(H, actions, Act(1, NoChoice()));
    actions := actions + [Act(1, NoChoice())];
    RunExtends(H, actions, Act(1, NoChoice()));
    actions := actions + [Act(1, NoChoice())];
  }

  // ---- A crash between the two terminal writes ----

  /** Finalize has failed, its terminal state is pending, its issue is not saved, and nobody is on it. */
  predicate IssueIsUnsaved(s: System, issue: Issue) {
    var last := Identity(Finalize, 0);
    && last in s.sh.jobs && last in s.sh.executed && last in s.sh.outcomes && s.sh.outcomes[last] == Terminal(issue)
    && last in s.sh.marks && s.sh.marks[last] == Pending
    && s.sh.terminalState == Some(Pending) && s.sh.terminalIssue.None? && s.sh.snapshot.Running?
    && NoneLive(s, last)
  }

  /** From the failed outcome to just after the first of the two terminal writes. */
  lemma MarksTerminalAlone(H: HashFunction, sh: Shared, log: History, n: nat, c: Choice, o: Outcome)
    requires var last := Identity(Finalize, 0); last in sh.leases && sh.leases[last] == n && last !in sh.marks
    requires o.Terminal? && sh.terminalState.None?
    ensures var last := Identity(Finalize, 0);
            Reaches(H, StepResult(sh, log, W(last, Save(o))), n, c,
                    StepResult(SetMark(Recorded(sh, last, o), last, Pending).(terminalState := Some(Pending)), log,
                               W(last, Carrying(o, Finishing(SaveIssue)))))
  {
    hide Reaches;
    var last := Identity(Finalize, 0);
    var r0 := StepResult(sh, log, W(last, Save(o)));
    var recorded := Recorded(sh, last, o);
    var pending := SetMark(recorded, last, Pending);
    CommitsAlone(H, sh, log, n, c, last, o);
    PendsAlone(H, recorded, log, n, c, last, o);
    ReachesTransitive(H, r0, n, c, StepResult(recorded, log, W(last, Carrying(o, ReadMark))),
                      StepResult(pending, log, W(last, Carrying(o, ApplyEffect))));
    ReachesOne(H, r0, n, c, StepResult(pending, log, W(last, Carrying(o, ApplyEffect))));
    ReachesOne(H, r0, n, c, StepResult(pending, log, W(last, Carrying(o, Finishing(ReadState)))));
    ReachesOne(H, r0, n, c, StepResult(pending, log, W(last, Carrying(o, Finishing(MarkPending)))));
  }

  /** The winner of the terminal marker, about to save its issue. */
  function AtSaveIssue(s: System, issue: Issue): StepResult {
    var last, o := Identity(Finalize, 0), Terminal(issue);
    StepResult(SetMark(Recorded(Begun(s, last).sh, last, o), last, Pending).(terminalState := Some(Pending)), s.log,
               W(last, Carrying(o, Finishing(SaveIssue))))
  }

  lemma WinnerReachesSave(H: HashFunction, actions: seq<Action>, issue: Issue) returns (all: seq<Action>)
    requires NonOverlapping(H, actions) && Poised(Run(H, actions), Identity(Finalize, 0))
    requires Run(H, actions).sh.finalization == Some(issue)
    ensures NonOverlapping(H, all) && (Faultless(actions) ==> Faultless(all))
    ensures var s := Run(H, actions); Run(H, all) == With(Begun(s, Identity(Finalize, 0)), s.next, AtSaveIssue(s, issue))
  {
    hide Run, NonOverlapping, Reaches, ProcessStep, Faultless;
    var s, last, c, o := Run(H, actions), Identity(Finalize, 0), Mismatch(), Terminal(issue);
    PoisedIsUnstarted(s, last);
    all := StageBegins(H, actions, last, c);
    var sh := Begun(s, last).sh;
    IntentFailsAlone(H, s, c, issue);
    MarksTerminalAlone(H, sh, s.log, s.next, c, o);
    ReachesTransitive(H, Of(Begun(s, last), s.next), s.next, c, StepResult(sh, s.log, W(last, Save(o))),
                      AtSaveIssue(s, issue));
    all := Proceeds(H, all, s.next, c, AtSaveIssue(s, issue));
  }

  lemma CrashLeavesIssueUnsaved(H: HashFunction, actions: seq<Action>, issue: Issue) returns (all: seq<Action>)
    requires NonOverlapping(H, actions) && Poised(Run(H, actions), Identity(Finalize, 0))
    requires Run(H, actions).sh.finalization == Some(issue)
    ensures NonOverlapping(H, all) && IssueIsUnsaved(Run(H, all), issue)
  {
    hide Run, NonOverlapping, ProcessStep;
    var n := Run(H, actions).next;
    all := WinnerReachesSave(H, actions, issue);
    NonOverlappingExtends(H, all, Crash(n));
    all := all + [Crash(n)];
  }

  /** Finalize has failed and its terminal marker is taken, but no issue is saved. */
  predicate MarkerWithoutIssue(sh: Shared, o: Outcome) {
    var last := Identity(Finalize, 0);
    && last in sh.executed && last in sh.outcomes && sh.outcomes[last] == o && o.Terminal?
    && last in sh.marks && sh.marks[last] == Pending
    && sh.terminalState == Some(Pending) && sh.terminalIssue.None?
  }

  lemma ReadsNoIssue(H: HashFunction, sh: Shared, log: History, n: nat, c: Choice, o: Outcome)
    requires MarkerWithoutIssue(sh, o)
    ensures var last := Identity(Finalize, 0);
            Reaches(H, StepResult(sh, log, W(last, Entering(LoadOutcome))), n, c,
                    StepResult(sh, log, W(last, Carrying(o, Finishing(ReadSnapshot(None))))))
  {
    hide Reaches;
    var last := Identity(Finalize, 0);
    var r0 := StepResult(sh, log, W(last, Entering(LoadOutcome)));
    ReachesSelf(H, r0, n, c);
    ReachesOne(H, r0, n, c, r0);
    ReachesOne(H, r0, n, c, StepResult(sh, log, W(last, Carrying(o, ReadMark))));
    ReachesOne(H, r0, n, c, StepResult(sh, log, W(last, Carrying(o, ApplyEffect))));
    ReachesOne(H, r0, n, c, StepResult(sh, log, W(last, Carrying(o, Finishing(ReadState)))));
    ReachesOne(H, r0, n, c, StepResult(sh, log, W(last, Carrying(o, Finishing(ReadIssue)))));
  }

  /** The failed run finished with absent evidence, its Done event still to come. */
  function FinishedWithoutIssue(sh: Shared, log: History, issue: Issue): StepResult {
    StepResult(sh.(snapshot := Finished(Failed, Some(ABSENT_EVIDENCE), Some(RootCause))),
               log.(finishes := log.finishes + 1, passedBy := None),
               W(Identity(Finalize, 0), Carrying(Terminal(issue), Finishing(EmitDone))))
  }

  lemma FinishesWithoutIssue(H: HashFunction, sh: Shared, log: History, n: nat, c: Choice, issue: Issue)
    requires sh.snapshot.Running?
    ensures Reaches(H, StepResult(sh, log, W(Identity(Finalize, 0),
                                             Carrying(Terminal(issue), Finishing(ReadSnapshot(None))))), n, c,
                    FinishedWithoutIssue(sh, log, issue))
  {
    hide Reaches;
    var last, o := Identity(Finalize, 0), Terminal(issue);
    var r0 := StepResult(sh, log, W(last, Carrying(o, Finishing(ReadSnapshot(None)))));
    ReachesSelf(H, r0, n, c);
    ReachesOne(H, r0, n, c, r0);
    ReachesOne(H, r0, n, c, StepResult(sh, log, W(last, Carrying(o, Finishing(WriteSnapshot(None, true))))));
  }

  /** A second attempt on Finalize, from its first action on, finishes the run without the issue. */
  lemma SecondFinisherAlone(H: HashFunction, sh: Shared, log: History, n: nat, c: Choice, issue: Issue, entry: EntryStep)
    requires MarkerWithoutIssue(sh, Terminal(issue)) && sh.snapshot.Running?
    requires entry.ReadExecuted? || entry.ReconcileReadExecuted?
    ensures Reaches(H, StepResult(sh, log, W(Identity(Finalize, 0), Entering(entry))), n, c,
                    FinishedWithoutIssue(sh, log, issue))
  {
    hide Reaches;
    var last, o := Identity(Finalize, 0), Terminal(issue);
    var r0 := StepResult(sh, log, W(last, Entering(entry)));
    ReachesSelf(H, r0, n, c);
    ReachesOne(H, r0, n, c, r0);
    if entry.ReconcileReadExecuted? {
      ReachesOne(H, r0, n, c, StepResult(sh, log, W(last, Entering(ReconcileReadMark))));
    }
    ReadsNoIssue(H, sh, log, n, c, o);
    FinishesWithoutIssue(H, sh, log, n, c, issue);
    hide ProcessStep, MarkerWithoutIssue;
    ReachesTransitive(H, r0, n, c, StepResult(sh, log, W(last, Entering(LoadOutcome))),
                      StepResult(sh, log, W(last, Carrying(o, Finishing(ReadSnapshot(None))))));
    ReachesTransitive(H, r0, n, c, StepResult(sh, log, W(last, Carrying(o, Finishing(ReadSnapshot(None))))),
                      FinishedWithoutIssue(sh, log, issue));
  }

  /** From any run that such a crash left, redelivering the job finishes the run without its issue. */
  lemma RedeliveryLosesTheIssue(H: HashFunction, actions: seq<Action>, issue: Issue) returns (all: seq<Action>)
    requires NonOverlapping(H, actions) && IssueIsUnsaved(Run(H, actions), issue)
    ensures NonOverlapping(H, all)
    ensures Run(H, all).sh == Run(H, actions).sh.(snapshot := Finished(Failed, Some(ABSENT_EVIDENCE), Some(RootCause)))
    ensures var n := Run(H, actions).next; n in Run(H, all).procs && IsAnnouncing(Run(H, all).procs[n])
  {
    hide Run, NonOverlapping, Reaches, NoneLive, ProcessStep;
    var s, last, c := Run(H, actions), Identity(Finalize, 0), Mismatch();
    NonOverlappingExtends(H, actions, Deliver(last));
    all := actions + [Deliver(last)];
    SecondFinisherAlone(H, s.sh, s.log, s.next, c, issue, ReadExecuted);
    all := Proceeds(H, all, s.next, c, FinishedWithoutIssue(s.sh, s.log, issue));
  }

  /**
   * markTerminalPending does not agree on exactly one issue: for every hash function there is a run without overlap
   * whose Finalize outcome failed with an issue, and whose finished snapshot does not carry it.
   */
  lemma {:induction false} CrashBetweenTerminalWritesLosesTheIssue(H: HashFunction) returns (actions: seq<Action>)
    ensures NonOverlapping(H, actions)
    ensures var sh := Run(H, actions).sh;
            && Identity(Finalize, 0) in sh.outcomes && sh.outcomes[Identity(Finalize, 0)] == Terminal(HASH_MISMATCH)
            && sh.snapshot == Finished(Failed, Some(ABSENT_EVIDENCE), Some(RootCause))
            && sh.snapshot.rootCause != Some(HASH_MISMATCH.evidence)
  {
    hide Run, NonOverlapping, Poised;
    actions := ReachesFailedFinalization(H);
    actions := CrashLeavesIssueUnsaved(H, actions, HASH_MISMATCH);
    actions := RedeliveryLosesTheIssue(H, actions, HASH_MISMATCH);
    assert |ABSENT_EVIDENCE| != |HASH_MISMATCH.evidence|;
  }

  // ---- Two finishers at once ----

  lemma FaultlessExtends(actions: seq<Action>, action: Action)
    requires Faultless(actions) && !IsFault(action)
    ensures Faultless(actions + [action])
  {
  }

  lemma FaultlessActs(actions: seq<Action>, n: nat, c: Choice, k: nat)
    requires Faultless(actions)
    ensures Faultless(actions + seq(k, _ => Act(n, c)))
  {
  }

  /** A reconcile call on Finalize while its worker stands between the two terminal writes. */
  lemma ReconcileOvertakes(H: HashFunction, actions: seq<Action>, issue: Issue) returns (all: seq<Action>)
    requires Faultless(actions) && MarkerWithoutIssue(Run(H, actions).sh, Terminal(issue))
    requires Run(H, actions).sh.snapshot.Running?
    ensures Faultless(all)
    ensures var s := Run(H, actions);
            Run(H, all) == With(Start(s, W(Identity(Finalize, 0), Entering(ReconcileReadExecuted))), s.next,
                                FinishedWithoutIssue(s.sh, s.log, issue))
  {
    hide Run, Reaches, ProcessStep, Faultless, MarkerWithoutIssue, Solo;
    var s, last, c := Run(H, actions), Identity(Finalize, 0), Mismatch();
    RunExtends(H, actions, Reconcile(last));
    FaultlessExtends(actions, Reconcile(last));
    all := actions + [Reconcile(last)];
    SecondFinisherAlone(H, s.sh, s.log, s.next, c, issue, ReconcileReadExecuted);
    var k := StretchTo(H, Of(Run(H, all), s.next), s.next, c, FinishedWithoutIssue(s.sh, s.log, issue));
    SoloIsAStretchOfARun(H, all, s.next, c, k);
    FaultlessActs(all, s.next, c, k);
    all := all + seq(k, _ => Act(s.next, c));
  }

  lemma StretchTo(H: HashFunction, r: StepResult, n: nat, c: Choice, r': StepResult) returns (k: nat)
    requires Reaches(H, r, n, c, r')
    ensures Solo(H, r, n, c, k) == r'
  {
    k :| Solo(H, r, n, c, k) == r';
  }

  /**
   * Concurrent finishers need not agree, even when nothing throws, crashes or expires: the reconcile call reads no
   * issue while the winner has yet to save it, finishes the run without one, and the winner then saves it.
   */
  lemma {:induction false} FinishersDisagree(H: HashFunction) returns (actions: seq<Action>)
    ensures Faultless(actions)
    ensures var sh := Run(H, actions).sh;
            && Identity(Finalize, 0) in sh.outcomes && sh.outcomes[Identity(Finalize, 0)] == Terminal(HASH_MISMATCH)
            && sh.terminalIssue == Some(Some(HASH_MISMATCH))
            && sh.snapshot == Finished(Failed, Some(ABSENT_EVIDENCE), Some(RootCause))
            && sh.snapshot.rootCause != Some(HASH_MISMATCH.evidence)
  {
    hide Run, NonOverlapping, Poised, Faultless;
    actions := ReachesFailedFinalization(H);
    var n := Run(H, actions).next;
    PoisedIsRunning(Run(H, actions), Identity(Finalize, 0));
    actions := WinnerReachesSave(H, actions, HASH_MISMATCH);
    actions := ReconcileOvertakes(H, actions, HASH_MISMATCH);
    SaverActs(H, Run(H, actions), n, HASH_MISMATCH);
    hide Step;
    RunExtends(H, actions, Act(n, NoChoice()));
    FaultlessExtends(actions, Act(n, NoChoice()));
    actions := actions + [Act(n, NoChoice())];
    assert |ABSENT_EVIDENCE| != |HASH_MISMATCH.evidence|;
  }

  lemma SaverActs(H: HashFunction, s: System, n: nat, issue: Issue)
    requires n in s.procs
    requires s.procs[n] == W(Identity(Finalize, 0), Carrying(Terminal(issue), Finishing(SaveIssue)))
    ensures Step(H, s, Act(n, NoChoice())).sh == s.sh.(terminalIssue := Some(Some(issue)))
  {
  }

  lemma PoisedIsRunning(s: System, id: Identity)
    requires Poised(s, id)
    ensures s.sh.snapshot.Running? && s.sh.terminalIssue.None?
  {
  }

  // ---- The Done event ----

  /** The attempt has written the finished snapshot and is about to announce Done. */
  predicate IsAnnouncing(p: Process) {
    p.Worker? && p.pc.Carrying? && p.pc.carry.Finishing? && p.pc.carry.finish.EmitDone?
  }

  /** The run is finished, Done was not announced, and nobody is about to. */
  predicate DoneIsLost(s: System) {
    && s.sh.snapshot.Finished? && s.sh.doneEvents == 0
    && (forall n :: n in s.procs ==> !IsAnnouncing(s.procs[n]))
  }

  lemma FinishingLeavesLost(H: HashFunction, sh: Shared, log: History, p: Process, o: Outcome, step: FinishStep)
    requires p.Worker? && p.pc == Carrying(o, Finishing(step)) && AttemptInv(H, sh, p)
    requires sh.snapshot.Finished? && sh.doneEvents == 0 && !IsAnnouncing(p)
    ensures var r := FinishingStep(sh, log, p, o, step); r.sh.doneEvents == 0 && !IsAnnouncing(r.proc)
  {
  }

  lemma ActLeavesLost(H: HashFunction, sh: Shared, log: History, n: nat, p: Process, c: Choice)
    requires AttemptInv(H, sh, p) && sh.snapshot.Finished? && sh.doneEvents == 0 && !IsAnnouncing(p)
    ensures var r := ProcessStep(H, sh, log, n, p, c); r.sh.doneEvents == 0 && !IsAnnouncing(r.proc)
  {
    hide WorkStep, CarryingStep, EntryStepOf, AttemptInv, ConfirmingStep, ApprovingStep, FinishingStep;
    if !p.Worker? {
      HumanIsFramed(H, sh, log, n, p, c);
    } else if p.pc.Working? {
      WorkIsFramed(H, sh, log, n, p, c);
    } else if p.pc.Entering? {
      EntryIsFramed(sh, log, n, p, p.pc.entry);
    } else if p.pc.Carrying? {
      if p.pc.carry.Finishing? {
        FinishingLeavesLost(H, sh, log, p, p.pc.outcome, p.pc.carry.finish);
        CarryingFinishes(sh, log, n, p, p.pc.outcome, p.pc.carry.finish);
      } else {
        CarryingIsFramed(sh, log, n, p, p.pc.outcome, p.pc.carry);
      }
    }
  }

  lemma StepLeavesDoneLost(H: HashFunction, s: System, action: Action)
    requires NonOverlapInv(H, s) && DoneIsLost(s)
    ensures DoneIsLost(Step(H, s, action))
  {
    SnapshotIsFinal(H, s, action);
    if action.Act? && action.n in s.procs {
      assert AttemptInv(H, s.sh, s.procs[action.n]);
      ActLeavesLost(H, s.sh, s.log, action.n, s.procs[action.n], action.choice);
    }
    hide NonOverlapInv, ProcessStep;
  }

  lemma {:induction false} LostDoneStaysLost(H: HashFunction, actions: seq<Action>, more: seq<Action>)
    requires NonOverlapping(H, actions + more) && DoneIsLost(Run(H, actions))
    ensures DoneIsLost(Run(H, actions + more))
    decreases |more|
  {
    var all := actions + more;
    if more == [] {
      assert all == actions;
    } else {
      var init := more[..|more| - 1];
      assert all[..|all| - 1] == actions + init;
      LostDoneStaysLost(H, actions, init);
      NonOverlappingInv(H, actions + init);
      hide DoneIsLost, NonOverlapInv, Step;
      StepLeavesDoneLost(H, Run(H, actions + init), all[|all| - 1]);
    }
  }

  /** Done is announced, now or in some continuation without overlap. */
  ghost predicate CanAnnounce(H: HashFunction, actions: seq<Action>) {
    exists more :: NonOverlapping(H, actions + more) && Run(H, actions + more).sh.doneEvents > 0
  }

  /** A finished run still gets its Done event if and only if it was announced or its writer is about to announce it. */
  lemma {:induction false} DoneIsAnnouncedIff(H: HashFunction, actions: seq<Action>)
    requires NonOverlapping(H, actions) && Run(H, actions).sh.snapshot.Finished?
    ensures CanAnnounce(H, actions) <==> !DoneIsLost(Run(H, actions))
  {
    hide Run, NonOverlapping;
    var s := Run(H, actions);
    if DoneIsLost(s) {
      forall more | NonOverlapping(H, actions + more) ensures Run(H, actions + more).sh.doneEvents == 0 {
        LostDoneStaysLost(H, actions, more);
      }
    } else if n :| n in s.procs && IsAnnouncing(s.procs[n]) {
      AnnouncerAnnounces(H, s, n);
      hide Step;
      var all := ActsNext(H, actions, n);
      assert actions + all[|actions|..] == all;
    } else {
      assert actions + [] == actions;
    }
  }

  lemma AnnouncerAnnounces(H: HashFunction, s: System, n: nat)
    requires n in s.procs && IsAnnouncing(s.procs[n])
    ensures Step(H, s, Act(n, NoChoice())).sh.doneEvents == s.sh.doneEvents + 1
  {
  }

  /** From any run with an attempt about to announce: it crashes, and Finalize is committed without a Done event. */
  lemma CrashLosesDone(H: HashFunction, actions: seq<Action>, n: nat) returns (all: seq<Action>)
    requires NonOverlapping(H, actions) && n in Run(H, actions).procs && IsAnnouncing(Run(H, actions).procs[n])
    ensures actions <= all && NonOverlapping(H, all)
    ensures DoneIsLost(Run(H, all)) && Run(H, all).sh.terminalState == Some(Committed)
  {
    hide Run, NonOverlapping, ProcessStep;
    var s := Run(H, actions);
    NonOverlappingInv(H, actions);
    OnlyAnnouncer(H, s, n);
    NonOverlappingExtends(H, actions, Crash(n));
    all := actions + [Crash(n)];
    var crashed := Run(H, all);
    assert DoneIsLost(crashed) && NoneLive(crashed, LAST_STAGE);
    if crashed.sh.terminalState != Some(Committed) {
      hide DoneIsLost, NoneLive;
      var retried := FinalizeCommits(H, all);
      var more := retried[|all|..];
      assert retried == all + more;
      LostDoneStaysLost(H, all, more);
      all := retried;
    }
  }

  lemma OnlyAnnouncer(H: HashFunction, s: System, n: nat)
    requires NonOverlapInv(H, s) && n in s.procs && IsAnnouncing(s.procs[n])
    ensures s.procs[n].id == LAST_STAGE && s.sh.snapshot.Finished? && s.sh.doneEvents == 0
    ensures LAST_STAGE in s.sh.outcomes
    ensures forall m :: m in s.procs && m != n ==> !IsAnnouncing(s.procs[m]) && (Live(s.procs[m]) ==> s.procs[m].id != LAST_STAGE)
  {
    assert AttemptInv(H, s.sh, s.procs[n]);
    forall m | m in s.procs && m != n
      ensures !IsAnnouncing(s.procs[m]) && (Live(s.procs[m]) ==> s.procs[m].id != LAST_STAGE)
    {
      assert AttemptInv(H, s.sh, s.procs[m]);
    }
  }

  /** A retry of Finalize over a finished snapshot skips the write and the event, and commits the terminal state. */
  lemma SkipsToCommitted(H: HashFunction, sh: Shared, log: History, n: nat, c: Choice, o: Outcome) returns (r: StepResult)
    requires sh.snapshot.Finished? && sh.terminalState == Some(Pending)
    ensures Reaches(H, StepResult(sh, log, W(LAST_STAGE, Carrying(o, ApplyEffect))), n, c, r)
    ensures r.sh.terminalState == Some(Committed)
  {
    hide Reaches;
    var r0 := StepResult(sh, log, W(LAST_STAGE, Carrying(o, ApplyEffect)));
    var issue := RecordedIssue(sh);
    ReachesSelf(H, r0, n, c);
    ReachesOne(H, r0, n, c, r0);
    ReachesOne(H, r0, n, c, StepResult(sh, log, W(LAST_STAGE, Carrying(o, Finishing(ReadState)))));
    ReachesOne(H, r0, n, c, StepResult(sh, log, W(LAST_STAGE, Carrying(o, Finishing(ReadIssue)))));
    ReachesOne(H, r0, n, c, StepResult(sh, log, W(LAST_STAGE, Carrying(o, Finishing(ReadSnapshot(issue))))));
    ReachesOne(H, r0, n, c, StepResult(sh, log, W(LAST_STAGE, Carrying(o, Finishing(WriteSnapshot(issue, false))))));
    var last := StepResult(sh, log, W(LAST_STAGE, Carrying(o, Finishing(MarkDone))));
    ReachesOne(H, r0, n, c, last);
    r := One(H, last, n, c);
  }

  lemma HalfTerminal(H: HashFunction, s: System)
    requires NonOverlapInv(H, s) && LAST_STAGE in s.sh.outcomes
    requires s.sh.snapshot.Finished? && s.sh.terminalState != Some(Committed)
    ensures LAST_STAGE in s.sh.jobs && LAST_STAGE in s.sh.executed && s.sh.terminalState == Some(Pending)
    ensures LAST_STAGE in s.sh.marks ==> s.sh.marks[LAST_STAGE] == Pending
  {
    PartsOfInv(H, s);
    hide NonOverlapInv, MarksInv, JobsInv, TerminalInv, PackageInv;
    MarkIsPending(s.sh);
    StateIsPending(s.sh, s.log);
  }

  lemma MarkIsPending(sh: Shared)
    requires MarksInv(sh) && sh.terminalState != Some(Committed)
    ensures LAST_STAGE in sh.marks ==> sh.marks[LAST_STAGE] == Pending
  {
  }

  lemma StateIsPending(sh: Shared, log: History)
    requires TerminalInv(sh, log) && sh.snapshot.Finished? && sh.terminalState != Some(Committed)
    ensures sh.terminalState == Some(Pending)
  {
    assert IssueInv(sh);
    match sh.terminalState.value
    case Pending =>
    case Committed =>
  }

  lemma FinalizeCommits(H: HashFunction, actions: seq<Action>) returns (all: seq<Action>)
    requires NonOverlapping(H, actions) && NoneLive(Run(H, actions), LAST_STAGE)
    requires var sh := Run(H, actions).sh;
             LAST_STAGE in sh.outcomes && sh.snapshot.Finished? && sh.terminalState != Some(Committed)
    ensures actions <= all && NonOverlapping(H, all) && Run(H, all).sh.terminalState == Some(Committed)
  {
    hide Run, NonOverlapping, Reaches, NoneLive, ProcessStep;
    var s, c := Run(H, actions), Mismatch();
    var o := s.sh.outcomes[LAST_STAGE];
    NonOverlappingInv(H, actions);
    HalfTerminal(H, s);
    hide NonOverlapInv;
    NonOverlappingExtends(H, actions, Deliver(LAST_STAGE));
    all := actions + [Deliver(LAST_STAGE)];
    RetriesAlone(H, s.sh, s.log, s.next, c, LAST_STAGE, o);
    var pending := StepResult(Marked(s.sh, LAST_STAGE), s.log, W(LAST_STAGE, Carrying(o, ApplyEffect)));
    var r := SkipsToCommitted(H, pending.sh, s.log, s.next, c, o);
    ReachesTransitive(H, StepResult(s.sh, s.log, W(LAST_STAGE, Entering(ReadExecuted))), s.next, c, pending, r);
    all := Proceeds(H, all, s.next, c, r);
  }

  /** So a run can end with its terminal state committed and Done never announced. */
  lemma {:induction false} FinishedRunWithoutDone(H: HashFunction) returns (actions: seq<Action>)
    ensures NonOverlapping(H, actions) && DoneIsLost(Run(H, actions))
    ensures Run(H, actions).sh.terminalState == Some(Committed)
  {
    hide Run, NonOverlapping, Poised, DoneIsLost;
    actions := ReachesFailedFinalization(H);
    actions := CrashLeavesIssueUnsaved(H, actions, HASH_MISMATCH);
    var n := Run(H, actions).next;
    actions := RedeliveryLosesTheIssue(H, actions, HASH_MISMATCH);
    actions := CrashLosesDone(H, actions, n);
  }
}
