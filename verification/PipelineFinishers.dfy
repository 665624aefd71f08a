/**
 * What finishers of one run agree on. Over every run, overlapping or not: who saves the terminal issue, which issue
 * each finisher takes for the saved one, and what the finished snapshot records.
 */
module PipelineFinishers {
  import opened Wrappers
  import opened Stages
  import opened PipelineState
  import opened PipelineMachine
  import opened PipelineFrames

  /** Where an attempt is in finishing the run, if it is. */
  function FinishOf(p: Process): Option<FinishStep> {
    if p.Worker? && p.pc.Carrying? && p.pc.carry.Finishing? then Some(p.pc.carry.finish) else None
  }

  /** The finisher has agreed on an issue and is about to write the snapshot with it. */
  predicate HasAgreed(p: Process) {
    FinishOf(p).Some? && (FinishOf(p).value.ReadSnapshot? || FinishOf(p).value.WriteSnapshot?)
  }

  function IssueOf(p: Process): Option<Issue>
    requires HasAgreed(p)
  {
    p.pc.carry.finish.issue
  }

  predicate SameTerminal(sh: Shared, sh': Shared) {
    && sh'.terminalState == sh.terminalState && sh'.terminalIssue == sh.terminalIssue && sh'.snapshot == sh.snapshot
  }

  // ---- Only finishing touches the terminal keys and the snapshot ----

  /** An action outside finishing leaves all of it alone, and leads at most to the beginning of finishing. */
  predicate IsOutside(sh: Shared, r: StepResult) {
    SameTerminal(sh, r.sh) && (FinishOf(r.proc).Some? ==> FinishOf(r.proc) == Some(ReadState))
  }

  lemma OthersAreOutside(H: HashFunction, sh: Shared, log: History, n: nat, p: Process, c: Choice)
    requires FinishOf(p).None?
    ensures IsOutside(sh, ProcessStep(H, sh, log, n, p, c))
  {
    hide WorkStep, CarryingStep, EntryStepOf, ConfirmingStep, ApprovingStep;
    if !p.Worker? {
      HumanIsFramed(H, sh, log, n, p, c);
    } else if p.pc.Entering? {
      EntryIsFramed(sh, log, n, p, p.pc.entry);
    } else if p.pc.Working? {
      WorkIsFramed(H, sh, log, n, p, c);
    } else if p.pc.Carrying? {
      CarryingIsFramed(sh, log, n, p, p.pc.outcome, p.pc.carry);
    }
  }

  /** One action of a finisher. */
  lemma FinisherStep(H: HashFunction, sh: Shared, log: History, n: nat, p: Process, c: Choice)
    requires FinishOf(p).Some?
    ensures ProcessStep(H, sh, log, n, p, c) == FinishingStep(sh, log, p, p.pc.outcome, p.pc.carry.finish)
  {
  }

  // ---- The winner of the terminal marker ----

  predicate IsSaving(p: Process) {
    FinishOf(p) == Some(SaveIssue)
  }

  predicate IsReading(p: Process) {
    FinishOf(p) == Some(ReadIssue)
  }

  /** The issue is saved at most once, by the one finisher that won the terminal marker, while it is still alive. */
  ghost predicate FinishersInv(s: System) {
    && (s.sh.terminalIssue.Some? ==> s.sh.terminalState.Some?)
    && (forall n :: n in s.procs && IsSaving(s.procs[n]) ==> s.sh.terminalState.Some? && s.sh.terminalIssue.None?)
    && (forall m, n :: m in s.procs && n in s.procs && IsSaving(s.procs[m]) && IsSaving(s.procs[n]) ==> m == n)
    && (forall n :: n in s.procs && IsReading(s.procs[n]) ==> s.sh.terminalState.Some?)
  }

  /** What an action of one process may do to the terminal keys, and where it may lead. */
  predicate KeepsWinner(sh: Shared, p: Process, sh': Shared, q: Process) {
    && (sh.terminalState.Some? ==> sh'.terminalState.Some?)
    && (sh'.terminalIssue == sh.terminalIssue
        || (IsSaving(p) && !IsSaving(q) && sh'.terminalIssue == Some(DoneIssue(p.pc.outcome))))
    && (IsSaving(q) ==> IsSaving(p) || (FinishOf(p) == Some(MarkPending) && sh.terminalState.None?))
    && (IsSaving(q) || IsReading(q) ==> sh'.terminalState.Some?)
  }

  lemma FinishingKeepsWinner(sh: Shared, log: History, p: Process, o: Outcome, step: FinishStep)
    requires p.Worker? && p.pc == Carrying(o, Finishing(step))
    requires IsReading(p) || IsSaving(p) ==> sh.terminalState.Some?
    ensures var r := FinishingStep(sh, log, p, o, step); KeepsWinner(sh, p, r.sh, r.proc)
  {
    var r := FinishingStep(sh, log, p, o, step);
    match step
    case ReadState => assert KeepsWinner(sh, p, r.sh, r.proc);
    case MarkPending => assert KeepsWinner(sh, p, r.sh, r.proc);
    case SaveIssue => assert KeepsWinner(sh, p, r.sh, r.proc);
    case MarkDone => assert KeepsWinner(sh, p, r.sh, r.proc);
    case _ => assert SameKeys(sh, r.sh);
  }

  predicate SameKeys(sh: Shared, sh': Shared) {
    sh'.terminalState == sh.terminalState && sh'.terminalIssue == sh.terminalIssue
  }

  lemma ActKeepsWinner(H: HashFunction, sh: Shared, log: History, n: nat, p: Process, c: Choice)
    requires IsReading(p) || IsSaving(p) ==> sh.terminalState.Some?
    ensures var r := ProcessStep(H, sh, log, n, p, c); KeepsWinner(sh, p, r.sh, r.proc)
  {
    if FinishOf(p).Some? {
      hide ProcessStep, KeepsWinner, FinishingStep;
      FinisherStep(H, sh, log, n, p, c);
      FinishingKeepsWinner(sh, log, p, p.pc.outcome, p.pc.carry.finish);
    } else {
      hide ProcessStep;
      OthersAreOutside(H, sh, log, n, p, c);
    }
  }

  lemma ProcessKeepsFinishers(s: System, s': System, n: nat)
    requires FinishersInv(s) && n in s.procs && n in s'.procs && s'.procs == s.procs[n := s'.procs[n]]
    requires KeepsWinner(s.sh, s.procs[n], s'.sh, s'.procs[n])
    ensures FinishersInv(s')
  {
    hide FinishOf;
  }

  lemma FaultKeepsWinner(sh: Shared, p: Process, q: Process)
    requires q in {Thrown(p), Crashed(p)} || (p.Worker? && q.Worker? && q == p.(leaseLost := q.leaseLost))
    requires IsSaving(p) || IsReading(p) ==> sh.terminalState.Some?
    ensures KeepsWinner(sh, p, sh, q) && (HasAgreed(q) ==> HasAgreed(p) && IssueOf(q) == IssueOf(p))
  {
  }

  lemma StartKeepsFinishers(s: System, p: Process)
    requires FinishersInv(s) && FinishOf(p).None?
    ensures FinishersInv(Start(s, p))
  {
  }

  lemma StepKeepsFinishers(H: HashFunction, s: System, action: Action)
    requires FinishersInv(s)
    ensures FinishersInv(Step(H, s, action))
  {
    hide ProcessStep, KeepsWinner, IsSaving, IsReading;
    var s' := Step(H, s, action);
    match action
    case Act(n, c) =>
      if n in s.procs {
        ActKeepsWinner(H, s.sh, s.log, n, s.procs[n], c);
        ProcessKeepsFinishers(s, s', n);
      }
    case Throw(n) =>
      if n in s.procs {
        FaultKeepsWinner(s.sh, s.procs[n], s'.procs[n]);
        ProcessKeepsFinishers(s, s', n);
      }
    case Crash(n) =>
      if n in s.procs {
        FaultKeepsWinner(s.sh, s.procs[n], s'.procs[n]);
        ProcessKeepsFinishers(s, s', n);
      }
    case Renew(n, _) =>
      if n in s.procs && HoldsTimer(s.procs[n]) {
        FaultKeepsWinner(s.sh, s.procs[n], s'.procs[n]);
        ProcessKeepsFinishers(s, s', n);
      }
    case Deliver(id) => if id in s.sh.jobs { StartKeepsFinishers(s, s'.procs[s.next]); }
    case Reconcile(id) => StartKeepsFinishers(s, s'.procs[s.next]);
    case RequestConfirm => if s.sh.snapshot.Running? { StartKeepsFinishers(s, s'.procs[s.next]); }
    case RequestApprove(_) => if s.sh.snapshot.Running? { StartKeepsFinishers(s, s'.procs[s.next]); }
    case ResearchAgain =>
    case Expire(_) =>
  }

  /** Over every run: at most one finisher is ever about to save the issue, and then it is not saved yet. */
  lemma {:induction false} ReachableFinishers(H: HashFunction, actions: seq<Action>)
    ensures FinishersInv(Run(H, actions))
  {
    if actions != [] {
      ReachableFinishers(H, actions[..|actions| - 1]);
      hide FinishersInv, Step;
      StepKeepsFinishers(H, Run(H, actions[..|actions| - 1]), actions[|actions| - 1]);
    }
  }

  lemma StepKeepsIssue(H: HashFunction, s: System, action: Action)
    requires FinishersInv(s)
    ensures s.sh.terminalIssue.Some? ==> Step(H, s, action).sh.terminalIssue == s.sh.terminalIssue
    ensures Step(H, s, action).sh.terminalIssue != s.sh.terminalIssue ==>
              && action.Act? && action.n in s.procs && IsSaving(s.procs[action.n])
              && Step(H, s, action).sh.terminalIssue == Some(DoneIssue(s.procs[action.n].pc.outcome))
  {
    hide ProcessStep, IsSaving, IsReading;
    if action.Act? && action.n in s.procs {
      ActKeepsWinner(H, s.sh, s.log, action.n, s.procs[action.n], action.choice);
    }
  }

  lemma {:induction false} IssueStays(H: HashFunction, actions: seq<Action>, k: nat)
    requires k <= |actions| && Run(H, actions[..k]).sh.terminalIssue.Some?
    ensures Run(H, actions).sh.terminalIssue == Run(H, actions[..k]).sh.terminalIssue
    decreases |actions|
  {
    if k == |actions| {
      assert actions[..k] == actions;
    } else {
      var before := actions[..|actions| - 1];
      assert before[..k] == actions[..k];
      IssueStays(H, before, k);
      ReachableFinishers(H, before);
      hide FinishersInv, Step;
      StepKeepsIssue(H, Run(H, before), actions[|actions| - 1]);
    }
  }

  /** The finisher took the terminal marker first: until it acts again nobody has saved an issue. */
  predicate WinsMarker(s: System, action: Action, n: nat) {
    action.Act? && action.n == n && n in s.procs && FinishOf(s.procs[n]) == Some(MarkPending) && s.sh.terminalState.None?
  }

  lemma SavingWon(H: HashFunction, s: System, action: Action, n: nat)
    requires FinishersInv(s) && n in Step(H, s, action).procs && IsSaving(Step(H, s, action).procs[n])
    ensures (n in s.procs && IsSaving(s.procs[n])) || WinsMarker(s, action, n)
  {
    hide ProcessStep;
    if action.Act? && action.n in s.procs {
      ActKeepsWinner(H, s.sh, s.log, action.n, s.procs[action.n], action.choice);
    }
  }

  /** The moment at which the finisher that saves the issue won the terminal marker. */
  lemma {:induction false} WinOf(H: HashFunction, actions: seq<Action>, n: nat) returns (k: nat)
    requires n in Run(H, actions).procs && IsSaving(Run(H, actions).procs[n])
    ensures k < |actions| && WinsMarker(Run(H, actions[..k]), actions[k], n)
  {
    var last := |actions| - 1;
    var before := Run(H, actions[..last]);
    ReachableFinishers(H, actions[..last]);
    hide Step, FinishersInv;
    SavingWon(H, before, actions[last], n);
    if n in before.procs && IsSaving(before.procs[n]) {
      k := WinOf(H, actions[..last], n);
      assert actions[..last][..k] == actions[..k];
    } else {
      k := last;
    }
  }

  /**
   * Only the winner of the marker writes the issue, once: an action that changes the saved issue finds none saved
   * and saves its own outcome's issue, and at the moment k of the run its attempt had found the marker untaken.
   */
  lemma {:induction false} IssueIsSavedByTheWinner(H: HashFunction, actions: seq<Action>, action: Action)
    returns (k: nat)
    requires Step(H, Run(H, actions), action).sh.terminalIssue != Run(H, actions).sh.terminalIssue
    ensures var s := Run(H, actions);
            && s.sh.terminalIssue.None? && action.Act? && action.n in s.procs && IsSaving(s.procs[action.n])
            && var o := s.procs[action.n].pc.outcome;
            Step(H, s, action).sh.terminalIssue == Some(if o.Terminal? then Some(o.issue) else None)
    ensures k < |actions| && WinsMarker(Run(H, actions[..k]), actions[k], action.n)
  {
    ReachableFinishers(H, actions);
    hide Run, Step, FinishersInv;
    StepKeepsIssue(H, Run(H, actions), action);
    k := WinOf(H, actions, action.n);
  }

  // ---- What each finisher takes for the saved issue ----

  /** The finisher learns its issue: by saving its own, or by reading what is saved. */
  predicate IsAgreement(s: System, action: Action, n: nat) {
    && action.Act? && action.n == n && n in s.procs
    && (IsSaving(s.procs[n]) || IsReading(s.procs[n]))
  }

  /** It reads although the winner of the marker has not saved its issue: nothing tells it to wait. */
  predicate ReadsTooEarly(s: System, n: nat) {
    n in s.procs && IsReading(s.procs[n]) && s.sh.terminalState.Some? && s.sh.terminalIssue.None?
  }

  function LearntIssue(s: System, n: nat): Option<Issue>
    requires n in s.procs && (IsSaving(s.procs[n]) || IsReading(s.procs[n]))
  {
    if IsSaving(s.procs[n]) then DoneIssue(s.procs[n].pc.outcome) else RecordedIssue(s.sh)
  }

  lemma FinishingAgrees(sh: Shared, log: History, p: Process, o: Outcome, step: FinishStep)
    requires p.Worker? && p.pc == Carrying(o, Finishing(step))
    ensures var q := FinishingStep(sh, log, p, o, step).proc;
            HasAgreed(q) ==>
              || (HasAgreed(p) && IssueOf(q) == IssueOf(p))
              || (IsSaving(p) && IssueOf(q) == DoneIssue(o))
              || (IsReading(p) && IssueOf(q) == RecordedIssue(sh))
  {
  }

  lemma AgreedBefore(H: HashFunction, s: System, action: Action, n: nat)
    requires n in Step(H, s, action).procs && HasAgreed(Step(H, s, action).procs[n])
    ensures n in s.procs
    ensures var issue := IssueOf(Step(H, s, action).procs[n]);
            || (HasAgreed(s.procs[n]) && IssueOf(s.procs[n]) == issue)
            || (IsAgreement(s, action, n) && LearntIssue(s, n) == issue)
  {
    hide ProcessStep, FinishingStep;
    if action.Act? && action.n == n && n in s.procs {
      if FinishOf(s.procs[n]).Some? {
        FinisherStep(H, s.sh, s.log, n, s.procs[n], action.choice);
        FinishingAgrees(s.sh, s.log, s.procs[n], s.procs[n].pc.outcome, s.procs[n].pc.carry.finish);
      } else {
        OthersAreOutside(H, s.sh, s.log, n, s.procs[n], action.choice);
      }
    }
  }

  lemma {:induction false} AgreementOf(H: HashFunction, actions: seq<Action>, n: nat) returns (k: nat)
    requires n in Run(H, actions).procs && HasAgreed(Run(H, actions).procs[n])
    ensures k < |actions| && IsAgreement(Run(H, actions[..k]), actions[k], n)
    ensures LearntIssue(Run(H, actions[..k]), n) == IssueOf(Run(H, actions).procs[n])
  {
    var last := |actions| - 1;
    var before := Run(H, actions[..last]);
    hide Step, HasAgreed, IsSaving, IsReading;
    AgreedBefore(H, before, actions[last], n);
    if HasAgreed(before.procs[n]) && IssueOf(before.procs[n]) == IssueOf(Run(H, actions).procs[n]) {
      k := AgreementOf(H, actions[..last], n);
      assert actions[..last][..k] == actions[..k];
    } else {
      k := last;
    }
  }

  /** Having saved its issue, the winner finds it saved at every later moment. */
  lemma SavedIsLearnt(H: HashFunction, actions: seq<Action>, k: nat, n: nat)
    requires k < |actions| && IsAgreement(Run(H, actions[..k]), actions[k], n)
    requires !ReadsTooEarly(Run(H, actions[..k]), n)
    ensures LearntIssue(Run(H, actions[..k]), n) == RecordedIssue(Run(H, actions).sh)
  {
    var s := Run(H, actions[..k]);
    ReachableFinishers(H, actions[..k]);
    assert actions[..k + 1][..k] == actions[..k];
    if IsSaving(s.procs[n]) {
      FinisherStep(H, s.sh, s.log, n, s.procs[n], actions[k].choice);
      assert Run(H, actions[..k + 1]).sh.terminalIssue == Some(DoneIssue(s.procs[n].pc.outcome));
      hide Run;
      IssueStays(H, actions, k + 1);
    } else {
      hide Run;
      IssueStays(H, actions, k);
    }
  }

  /**
   * What a finisher finishes the run with, in any run: nothing, if at the moment k it read the issue before the
   * winner of the marker had saved it, and otherwise the very issue that is saved at every later moment.
   */
  lemma {:induction false} EffectiveIssue(H: HashFunction, actions: seq<Action>, j: nat, n: nat) returns (k: nat)
    requires j <= |actions| && n in Run(H, actions[..j]).procs && HasAgreed(Run(H, actions[..j]).procs[n])
    ensures k < j && IsAgreement(Run(H, actions[..k]), actions[k], n)
    ensures IssueOf(Run(H, actions[..j]).procs[n])
         == if ReadsTooEarly(Run(H, actions[..k]), n) then None else RecordedIssue(Run(H, actions).sh)
    ensures IssueOf(Run(H, actions[..j]).procs[n]) != RecordedIssue(Run(H, actions).sh)
       <==> ReadsTooEarly(Run(H, actions[..k]), n) && RecordedIssue(Run(H, actions).sh).Some?
  {
    hide Run, HasAgreed, IsSaving, IsReading, IsAgreement;
    k := AgreementOf(H, actions[..j], n);
    assert actions[..j][..k] == actions[..k];
    if ReadsTooEarly(Run(H, actions[..k]), n) {
      EarlyReadsNothing(Run(H, actions[..k]), n);
    } else {
      SavedIsLearnt(H, actions, k, n);
    }
  }

  lemma EarlyReadsNothing(s: System, n: nat)
    requires ReadsTooEarly(s, n)
    ensures LearntIssue(s, n) == None
  {
  }

  /**
   * Finishers agree on one issue unless exactly one of the two read too early and an issue was saved after all.
   * Both may act in any order, on any attempts; crashes and expiries play no part in it.
   */
  lemma {:induction false} FinishersDisagreeIff(H: HashFunction, actions: seq<Action>, i: nat, m: nat, j: nat, n: nat)
    returns (k: nat, l: nat)
    requires i <= |actions| && m in Run(H, actions[..i]).procs && HasAgreed(Run(H, actions[..i]).procs[m])
    requires j <= |actions| && n in Run(H, actions[..j]).procs && HasAgreed(Run(H, actions[..j]).procs[n])
    ensures k < i && IsAgreement(Run(H, actions[..k]), actions[k], m)
    ensures l < j && IsAgreement(Run(H, actions[..l]), actions[l], n)
    ensures IssueOf(Run(H, actions[..i]).procs[m]) != IssueOf(Run(H, actions[..j]).procs[n])
       <==> && RecordedIssue(Run(H, actions).sh).Some?
            && ReadsTooEarly(Run(H, actions[..k]), m) != ReadsTooEarly(Run(H, actions[..l]), n)
  {
    hide *;
    k := EffectiveIssue(H, actions, i, m);
    l := EffectiveIssue(H, actions, j, n);
  }

  // ---- What the finished snapshot records ----

  predicate WritesSnapshot(s: System, action: Action) {
    && action.Act? && action.n in s.procs && FinishOf(s.procs[action.n]).Some?
    && FinishOf(s.procs[action.n]).value.WriteSnapshot? && FinishOf(s.procs[action.n]).value.running
  }

  function WrittenSnapshot(s: System, action: Action): Snapshot
    requires WritesSnapshot(s, action)
  {
    FinishedSnapshot(DoneResult(s.procs[action.n].pc.outcome), IssueOf(s.procs[action.n]))
  }

  lemma SnapshotStep(H: HashFunction, s: System, action: Action)
    ensures Step(H, s, action).sh.snapshot
         == if WritesSnapshot(s, action) then WrittenSnapshot(s, action) else s.sh.snapshot
  {
    hide ProcessStep;
    if action.Act? && action.n in s.procs {
      if FinishOf(s.procs[action.n]).Some? {
        FinisherStep(H, s.sh, s.log, action.n, s.procs[action.n], action.choice);
      } else {
        OthersAreOutside(H, s.sh, s.log, action.n, s.procs[action.n], action.choice);
      }
    }
  }

  lemma {:induction false} WriterOf(H: HashFunction, actions: seq<Action>) returns (w: nat)
    requires Run(H, actions).sh.snapshot.Finished?
    ensures w < |actions| && WritesSnapshot(Run(H, actions[..w]), actions[w])
    ensures Run(H, actions).sh.snapshot == WrittenSnapshot(Run(H, actions[..w]), actions[w])
  {
    var last := |actions| - 1;
    var before := Run(H, actions[..last]);
    SnapshotStep(H, before, actions[last]);
    hide Step, WritesSnapshot, WrittenSnapshot;
    if WritesSnapshot(before, actions[last]) {
      w := last;
    } else {
      w := WriterOf(H, actions[..last]);
      assert actions[..last][..w] == actions[..w];
    }
  }

  /**
   * The finished snapshot of any run records its writer's result. When that is a failure it carries the evidence and
   * type of the issue that is saved, and the evidence of absence exactly when the writer read too early or no issue
   * is saved at all.
   */
  lemma {:induction false} FinishedSnapshotRecordsTheSavedIssue(H: HashFunction, actions: seq<Action>)
    returns (w: nat, k: nat)
    requires Run(H, actions).sh.snapshot.Finished?
    ensures k < w < |actions| && WritesSnapshot(Run(H, actions[..w]), actions[w])
    ensures IsAgreement(Run(H, actions[..k]), actions[k], actions[w].n)
    ensures var sh, writer := Run(H, actions).sh, Run(H, actions[..w]).procs[actions[w].n];
            var early := ReadsTooEarly(Run(H, actions[..k]), actions[w].n);
            && (sh.snapshot.result == Failed <==> writer.pc.outcome.Terminal?)
            && (sh.snapshot.result == Passed ==> sh.snapshot.rootCause.None? && sh.snapshot.issueType.None?)
            && (sh.snapshot.result == Failed && !early && sh.terminalIssue.Some? && sh.terminalIssue.value.Some? ==>
                  && sh.snapshot.rootCause == Some(sh.terminalIssue.value.value.evidence)
                  && sh.snapshot.issueType == Some(sh.terminalIssue.value.value.issueType))
            && (sh.snapshot.result == Failed && (early || sh.terminalIssue.None? || sh.terminalIssue.value.None?) ==>
                  sh.snapshot.rootCause == Some(ABSENT_EVIDENCE) && sh.snapshot.issueType == Some(RootCause))
  {
    hide Run, IsAgreement, ReadsTooEarly;
    w := WriterOf(H, actions);
    k := EffectiveIssue(H, actions, w, actions[w].n);
  }
}
