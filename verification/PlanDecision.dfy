/**
 * Deciding a plan review: concurrent decisions of one run queue up behind a chain of promises, each a lock that
 * the call before releases. The calls interleave at every await.
 */
module PlanDecision {
  import opened Wrappers
  import opened PlanReview

  datatype Status = Pending | Approved | Cancelled

  datatype Review = Review(revision: int, status: Status, edits: Option<Edits>)

  /** None stands for a value of the wrong type or an unknown action. */
  datatype Action = Approve | Cancel

  datatype Input = Input(revision: Option<int>, action: Option<Action>, edits: Option<Submission>)

  /** Where one call of decide is between two awaits. */
  datatype PC =
    | Waiting
    | Loading
    | Deciding(loaded: Option<Review>)
    | Saving(review: Review)
    | Releasing(won: bool)
    | Returned(won: bool)

  /** `failed` remembers that loading or saving the draft threw. */
  datatype Call = Call(input: Input, waitsFor: Option<nat>, pc: PC, failed: bool)

  /** `tail` is the lock stored in the map; locks are named by the call that made them. */
  datatype State = State(stored: Option<Review>, calls: seq<Call>, tail: Option<nat>, released: set<nat>)

  datatype Event =
    | Arrive(input: Input)
    | Go(n: nat)
    | Fail(n: nat)

  /** The reviewed draft, or None where decide throws. */
  function Decided(research: Research, review: Option<Review>, input: Input): Option<Review> {
    if review.None? || review.value.status != Pending then None
    else if input.revision != Some(review.value.revision) || input.action.None? then None
    else
      match input.action.value
      case Cancel => Some(review.value.(status := Cancelled, revision := review.value.revision + 1))
      case Approve =>
        match ValidateEdits(input.edits, research)
        case None => None
        case Some(edits) => Some(Review(review.value.revision + 1, Approved, Some(edits)))
  }

  function Next(research: Research, s: State, n: nat): State
    requires n < |s.calls|
  {
    var c := s.calls[n];
    match c.pc
    case Waiting =>
      if c.waitsFor.Some? && c.waitsFor.value !in s.released then s
      else s.(calls := s.calls[n := c.(pc := Loading)])
    case Loading => s.(calls := s.calls[n := c.(pc := Deciding(s.stored))])
    case Deciding(review) =>
      (match Decided(research, review, c.input)
       case None => s.(calls := s.calls[n := c.(pc := Releasing(false))])
       case Some(decided) => s.(calls := s.calls[n := c.(pc := Saving(decided))]))
    case Saving(review) => s.(stored := Some(review), calls := s.calls[n := c.(pc := Releasing(true))])
    case Releasing(won) =>
      State(s.stored, s.calls[n := c.(pc := Returned(won))], if s.tail == Some(n) then None else s.tail,
            s.released + {n})
    case Returned(_) => s
  }

  /** The artifact store throws: a file is replaced by its last action alone, so a save that throws stored nothing. */
  function Failing(s: State, n: nat): State
    requires n < |s.calls|
  {
    var c := s.calls[n];
    if c.pc.Loading? || c.pc.Saving? then s.(calls := s.calls[n := c.(pc := Releasing(false), failed := true)]) else s
  }

  function Step(research: Research, s: State, event: Event): State {
    match event
    case Arrive(input) =>
      s.(calls := s.calls + [Call(input, s.tail, Waiting, false)], tail := Some(|s.calls|))
    case Go(n) => if n < |s.calls| then Next(research, s, n) else s
    case Fail(n) => if n < |s.calls| then Failing(s, n) else s
  }

  /** A draft awaiting review, or none, before any call. */
  function Opened(review: Option<Review>): State {
    State(review, [], None, {})
  }

  function Run(research: Research, review: Option<Review>, events: seq<Event>): State {
    if events == [] then Opened(review)
    else Step(research, Run(research, review, events[..|events| - 1]), events[|events| - 1])
  }

  // ---- The chain of locks ----

  predicate Inside(c: Call) {
    !c.pc.Waiting? && !c.pc.Returned?
  }

  ghost predicate ChainInv(s: State) {
    && (forall n: nat :: n in s.released <==> n < |s.calls| && s.calls[n].pc.Returned?)
    && (s.tail.Some? ==> s.tail.value == |s.calls| - 1 && s.tail.value !in s.released)
    && (s.tail.None? ==> forall n :: 0 <= n < |s.calls| ==> n in s.released)
    && (forall n :: 0 <= n < |s.calls| && !s.calls[n].pc.Waiting? ==> AllReleasedBefore(s, n))
    && (forall n :: 0 <= n < |s.calls| && s.calls[n].waitsFor.None? ==> AllReleasedBefore(s, n))
    && (forall n :: 0 <= n < |s.calls| && s.calls[n].waitsFor.Some? ==> n > 0 && s.calls[n].waitsFor.value == n - 1)
  }

  predicate AllReleasedBefore(s: State, n: nat) {
    forall m :: 0 <= m < n ==> m in s.released
  }

  /** What a call inside the lock knows: the stored draft is the one it loaded and judged. */
  predicate CallInv(research: Research, stored: Option<Review>, c: Call) {
    && (c.failed ==> Done(c) && !Won(c))
    && match c.pc
       case Deciding(loaded) => loaded == stored
       case Saving(decided) => Decided(research, stored, c.input) == Some(decided)
       case Releasing(won) => won || c.failed || Decided(research, stored, c.input).None?
       case _ => true
  }

  /** The winner's own draft is what is stored; until one wins the opened draft is. */
  ghost predicate StoreInv(research: Research, review: Option<Review>, s: State) {
    && (forall n :: 0 <= n < |s.calls| ==> CallInv(research, s.stored, s.calls[n]))
    && (NoWinner(s) ==> s.stored == review)
    && (forall n :: 0 <= n < |s.calls| && Won(s.calls[n]) ==>
          s.stored == Decided(research, review, s.calls[n].input) && s.stored.Some?)
    && (forall m, n :: 0 <= m < |s.calls| && 0 <= n < |s.calls| && Won(s.calls[m]) && Won(s.calls[n]) ==> m == n)
    && (forall n :: 0 <= n < |s.calls| && Done(s.calls[n]) && !Won(s.calls[n]) && NoWinner(s) ==>
          s.calls[n].failed || Decided(research, review, s.calls[n].input).None?)
  }

  predicate Won(c: Call) {
    (c.pc.Releasing? || c.pc.Returned?) && c.pc.won
  }

  predicate Done(c: Call) {
    c.pc.Releasing? || c.pc.Returned?
  }

  predicate NoWinner(s: State) {
    forall n :: 0 <= n < |s.calls| ==> !Won(s.calls[n])
  }

  lemma ArriveKeepsChain(research: Research, s: State, input: Input)
    requires ChainInv(s)
    ensures ChainInv(Step(research, s, Arrive(input)))
  {
  }

  lemma GoKeepsChain(research: Research, s: State, n: nat)
    requires ChainInv(s)
    ensures ChainInv(Step(research, s, Go(n)))
  {
    hide Decided;
  }

  lemma FailKeepsChain(research: Research, s: State, n: nat)
    requires ChainInv(s)
    ensures ChainInv(Step(research, s, Fail(n)))
  {
  }

  lemma {:induction false} ReachableChain(research: Research, review: Option<Review>, events: seq<Event>)
    ensures ChainInv(Run(research, review, events))
  {
    if events != [] {
      ReachableChain(research, review, events[..|events| - 1]);
      match events[|events| - 1]
      case Arrive(input) => ArriveKeepsChain(research, Run(research, review, events[..|events| - 1]), input);
      case Go(n) => GoKeepsChain(research, Run(research, review, events[..|events| - 1]), n);
      case Fail(n) => FailKeepsChain(research, Run(research, review, events[..|events| - 1]), n);
    }
  }

  lemma InsideIsAlone(s: State, m: nat, n: nat)
    requires ChainInv(s) && m < |s.calls| && n < |s.calls| && Inside(s.calls[m]) && Inside(s.calls[n])
    ensures m == n
  {
    assert m < n ==> AllReleasedBefore(s, n);
    assert n < m ==> AllReleasedBefore(s, m);
  }

  /** Mutual exclusion: between taking its turn and releasing its lock a call is alone. */
  lemma {:induction false} OneCallInside(research: Research, review: Option<Review>, events: seq<Event>, m: nat, n: nat)
    requires m < |Run(research, review, events).calls| && n < |Run(research, review, events).calls|
    requires Inside(Run(research, review, events).calls[m]) && Inside(Run(research, review, events).calls[n])
    ensures m == n
  {
    hide Run;
    ReachableChain(research, review, events);
    InsideIsAlone(Run(research, review, events), m, n);
  }

  // ---- One winner ----

  lemma DecidedIsFinal(research: Research, review: Option<Review>, input: Input, later: Input)
    requires Decided(research, review, input).Some?
    ensures Decided(research, Decided(research, review, input), later).None?
  {
  }

  lemma GoKeepsStore(research: Research, review: Option<Review>, s: State, n: nat)
    requires ChainInv(s) && StoreInv(research, review, s)
    ensures StoreInv(research, review, Step(research, s, Go(n)))
  {
    if n < |s.calls| {
      var c := s.calls[n];
      if c.pc.Saving? {
        SavingIsFirst(research, review, s, n);
      } else if Inside(c) || c.pc.Waiting? {
        MovingKeepsStore(research, review, s, n);
      }
    }
  }

  /** A call about to save is the first to win: had another won, the stored draft would already be decided. */
  lemma SavingIsFirst(research: Research, review: Option<Review>, s: State, n: nat)
    requires ChainInv(s) && StoreInv(research, review, s) && n < |s.calls| && s.calls[n].pc.Saving?
    ensures NoWinner(s)
    ensures StoreInv(research, review, Next(research, s, n))
  {
    var input := s.calls[n].input;
    forall m | 0 <= m < |s.calls| ensures !Won(s.calls[m]) {
      if Won(s.calls[m]) {
        DecidedIsFinal(research, review, s.calls[m].input, input);
      }
    }
    var s' := Next(research, s, n);
    forall m: nat | m < |s.calls| && m != n ensures !Inside(s.calls[m]) {
      if Inside(s.calls[m]) {
        InsideIsAlone(s, m, n);
      }
    }
    assert Won(s'.calls[n]);
  }

  /** Every other move leaves the store alone and wins nothing. */
  lemma Moved(research: Research, s: State, n: nat)
    requires n < |s.calls| && !s.calls[n].pc.Saving? && CallInv(research, s.stored, s.calls[n])
    ensures var s' := Next(research, s, n);
            && s'.stored == s.stored && |s'.calls| == |s.calls|
            && CallInv(research, s.stored, s'.calls[n])
            && Won(s'.calls[n]) == Won(s.calls[n]) && s'.calls[n].input == s.calls[n].input
            && s'.calls[n].failed == s.calls[n].failed
            && (Done(s'.calls[n]) && !Done(s.calls[n]) ==> Decided(research, s.stored, s.calls[n].input).None?)
            && (forall m :: 0 <= m < |s.calls| && m != n ==> s'.calls[m] == s.calls[m])
  {
  }

  lemma MovingKeepsStore(research: Research, review: Option<Review>, s: State, n: nat)
    requires StoreInv(research, review, s) && n < |s.calls|
    requires !s.calls[n].pc.Saving?
    ensures StoreInv(research, review, Next(research, s, n))
  {
    Moved(research, s, n);
    var s' := Next(research, s, n);
    hide Decided, Next, CallInv, Won, Done;
    forall m | 0 <= m < |s.calls|
      ensures Won(s'.calls[m]) == Won(s.calls[m]) && s'.calls[m].input == s.calls[m].input
      ensures CallInv(research, s'.stored, s'.calls[m])
    {
    }
    assert NoWinner(s') == NoWinner(s);
  }

  lemma FailKeepsStore(research: Research, review: Option<Review>, s: State, n: nat)
    requires StoreInv(research, review, s)
    ensures StoreInv(research, review, Step(research, s, Fail(n)))
  {
    hide Decided;
    if n < |s.calls| && (s.calls[n].pc.Loading? || s.calls[n].pc.Saving?) {
      var s' := Failing(s, n);
      assert CallInv(research, s'.stored, s'.calls[n]);
      hide CallInv;
      forall m | 0 <= m < |s.calls| ensures Won(s'.calls[m]) == Won(s.calls[m]) && s'.calls[m].input == s.calls[m].input {
      }
      assert NoWinner(s') == NoWinner(s);
    }
  }

  lemma ArriveKeepsStore(research: Research, review: Option<Review>, s: State, input: Input)
    requires StoreInv(research, review, s)
    ensures StoreInv(research, review, Step(research, s, Arrive(input)))
  {
    var s' := Step(research, s, Arrive(input));
    assert forall m :: 0 <= m < |s.calls| ==> s'.calls[m] == s.calls[m];
    assert NoWinner(s') ==> NoWinner(s) by {
      if NoWinner(s') {
        forall m | 0 <= m < |s.calls| ensures !Won(s.calls[m]) {
          assert !Won(s'.calls[m]);
        }
      }
    }
  }

  lemma {:induction false} ReachableStore(research: Research, review: Option<Review>, events: seq<Event>)
    ensures StoreInv(research, review, Run(research, review, events))
  {
    if events != [] {
      var before := events[..|events| - 1];
      ReachableStore(research, review, before);
      ReachableChain(research, review, before);
      match events[|events| - 1]
      case Arrive(input) => ArriveKeepsStore(research, review, Run(research, review, before), input);
      case Go(n) => GoKeepsStore(research, review, Run(research, review, before), n);
      case Fail(n) => FailKeepsStore(research, review, Run(research, review, before), n);
    }
  }

  /**
   * A decision that, made alone, is accepted: the draft awaits it at this revision, it asks for a known action, and
   * an approval comes with edits that validate.
   */
  predicate Acceptable(research: Research, review: Option<Review>, input: Input) {
    && review.Some? && review.value.status == Pending && input.revision == Some(review.value.revision)
    && (input.action == Some(Cancel)
        || (input.action == Some(Approve) && ValidateEdits(input.edits, research).Some?))
  }

  lemma DecidedIff(research: Research, review: Option<Review>, input: Input)
    ensures Decided(research, review, input).Some? <==> Acceptable(research, review, input)
    ensures Decided(research, review, input).Some? ==>
              Decided(research, review, input).value
              == if input.action == Some(Approve)
                 then Review(review.value.revision + 1, Approved, ValidateEdits(input.edits, research))
                 else Review(review.value.revision + 1, Cancelled, review.value.edits)
  {
    hide ValidateEdits;
  }

  /**
   * Of any concurrent decisions at most one wins; it was acceptable on the opened draft, and what stays stored is the
   * draft one revision later, approved with its validated edits or cancelled. Nothing is stored while none has won.
   */
  lemma {:induction false} AtMostOneDecisionWins(research: Research, review: Option<Review>, events: seq<Event>)
    ensures var s := Run(research, review, events);
            && (forall m, n :: 0 <= m < |s.calls| && 0 <= n < |s.calls| && Won(s.calls[m]) && Won(s.calls[n]) ==> m == n)
            && (forall n :: 0 <= n < |s.calls| && Won(s.calls[n]) ==>
                  && Acceptable(research, review, s.calls[n].input)
                  && s.stored
                     == Some(if s.calls[n].input.action == Some(Approve)
                             then Review(review.value.revision + 1, Approved,
                                         ValidateEdits(s.calls[n].input.edits, research))
                             else Review(review.value.revision + 1, Cancelled, review.value.edits)))
            && (NoWinner(s) ==> s.stored == review)
  {
    hide Run, Decided, ValidateEdits;
    ReachableStore(research, review, events);
    forall input: Input {
      DecidedIff(research, review, input);
    }
  }

  /** And once every call has returned, one has won exactly when some acceptable call met no failure of the store. */
  lemma {:induction false} SomeAcceptableDecisionWins(research: Research, review: Option<Review>, events: seq<Event>)
    requires forall n :: 0 <= n < |Run(research, review, events).calls| ==> Run(research, review, events).calls[n].pc.Returned?
    ensures var s := Run(research, review, events);
            !NoWinner(s) <==>
            exists n :: 0 <= n < |s.calls| && Acceptable(research, review, s.calls[n].input) && !s.calls[n].failed
  {
    hide Run, Decided, Acceptable;
    ReachableStore(research, review, events);
    forall input: Input {
      DecidedIff(research, review, input);
    }
  }

  /** No call is stuck: while one has not returned, the earliest such call can move. */
  lemma {:induction false} DecisionsProgress(research: Research, review: Option<Review>, events: seq<Event>, n: nat)
    requires n < |Run(research, review, events).calls| && !Run(research, review, events).calls[n].pc.Returned?
    requires forall m :: 0 <= m < n ==> Run(research, review, events).calls[m].pc.Returned?
    ensures var s := Run(research, review, events);
            Step(research, s, Go(n)).calls[n].pc != s.calls[n].pc
  {
    hide Run;
    ReachableChain(research, review, events);
  }
}
