/**
 * Sequence numbers: when a process that goes on emitting after a load uses a number twice, alone and over files
 * that other processes append to.
 */
module EventNumbers {
  import opened Wrappers
  import opened EventBus
  import opened EventBusProcesses

  // ---- A series of emits ----

  predicate EmitsOnly(ops: seq<Op>, runId: string) {
    forall i :: 0 <= i < |ops| ==> ops[i].DoEmit? && ops[i].runId == runId
  }

  /** The bus has read the run, so that its next emit takes the number after its sequence. */
  predicate HasRead(b: Bus, runId: string) {
    runId in b.history && runId in b.store.cache
  }

  lemma EmitTakesNext(b: Bus, runId: string, draft: Draft, newId: string, newTrace: string)
    requires HasRead(b, runId)
    ensures var (b', e) := Emit(b, runId, draft, newId, newTrace);
            && HasRead(b', runId)
            && SequenceOf(b', runId) == SequenceOf(b, runId) + 1
            && (e.Some? ==> e.value.sequence == SequenceOf(b, runId) + 1 && e.value.runId == runId)
            && (!draft.contradictory && newId !in b.store.ids ==> e.Some?)
            && Lines(b'.store.disk, runId) == Lines(b.store.disk, runId) + if e.Some? then [e.value] else []
  {
  }

  /** After n emits, whether they threw or not, the sequence has grown by n. */
  lemma {:induction false} SequenceAfter(b: Bus, ops: seq<Op>, runId: string)
    requires HasRead(b, runId) && EmitsOnly(ops, runId)
    ensures HasRead(ApplyAll(b, ops), runId)
    ensures SequenceOf(ApplyAll(b, ops), runId) == SequenceOf(b, runId) + |ops|
  {
    if ops != [] {
      var init, last := ops[..|ops| - 1], ops[|ops| - 1];
      SequenceAfter(b, init, runId);
      hide Emit, HasRead;
      EmitTakesNext(ApplyAll(b, init), runId, last.draft, last.newId, last.newTrace);
    }
  }

  /** Some number of characters exceeds the length of every id in the set. */
  lemma {:induction false} LongerThanAll(ids: set<string>) returns (n: nat)
    ensures forall id :: id in ids ==> |id| < n
    decreases |ids|
  {
    n := 1;
    if id :| id in ids {
      n := LongerThanAll(ids - {id});
      assert forall other :: other in ids ==> other == id || other in ids - {id};
      n := if |id| < n then n else |id| + 1;
    }
  }

  lemma UnusedId(ids: set<string>) returns (id: string)
    ensures id !in ids && id != ""
  {
    var n := LongerThanAll(ids);
    id := seq(n + 1, _ => 'x');
  }

  /** Every one of the operations succeeds. */
  predicate AllAnnounce(b: Bus, ops: seq<Op>) {
    forall i :: 0 <= i < |ops| ==> Announces(ApplyAll(b, ops[..i]), ops[i]).Some?
  }

  lemma OneMoreAnnounces(b: Bus, init: seq<Op>, op: Op, runId: string)
    requires AllAnnounce(b, init) && EmitsOnly(init, runId)
    requires Announces(ApplyAll(b, init), op).Some? && op.DoEmit? && op.runId == runId
    ensures AllAnnounce(b, init + [op]) && EmitsOnly(init + [op], runId)
  {
    hide Announces, ApplyAll;
    var ops := init + [op];
    forall i | 0 <= i < |ops| ensures Announces(ApplyAll(b, ops[..i]), ops[i]).Some? {
      assert ops[..i] == if i < |init| then init[..i] else init;
    }
  }

  /** From any bus a further emit with an unused id succeeds. */
  lemma NextEmit(b: Bus, runId: string) returns (op: Op)
    requires HasRead(b, runId)
    ensures op.DoEmit? && op.runId == runId && Announces(b, op).Some?
    ensures Announces(b, op).value.sequence == SequenceOf(b, runId) + 1
  {
    var id := UnusedId(b.store.ids);
    EmitTakesNext(b, runId, Draft(0, false), id, "trace");
    op := DoEmit(runId, Draft(0, false), id, "trace");
  }

  /** Any number of emits can follow each other, none of which throws. */
  lemma {:induction false} EmitsFollow(b: Bus, runId: string, n: nat) returns (ops: seq<Op>)
    requires HasRead(b, runId)
    ensures EmitsOnly(ops, runId) && |ops| == n && AllAnnounce(b, ops)
  {
    ops := [];
    if n > 0 {
      hide *;
      var init := EmitsFollow(b, runId, n - 1);
      SequenceAfter(b, init, runId);
      var op := NextEmit(ApplyAll(b, init), runId);
      OneMoreAnnounces(b, init, op, runId);
      ops := init + [op];
    }
  }

  // ---- Numbers that are used again ----

  /** After these emits of the run the process emits an event whose number one of the given events already has. */
  predicate RepeatsAfter(b: Bus, ops: seq<Op>, op: Op, runId: string, held: seq<Event>) {
    && EmitsOnly(ops + [op], runId)
    && Announces(ApplyAll(b, ops), op).Some?
    && exists x :: x in held && x.sequence == Announces(ApplyAll(b, ops), op).value.sequence
  }

  /** Going on emitting, the process sooner or later uses a number of a given event again. */
  ghost predicate CanRepeat(b: Bus, runId: string, held: seq<Event>) {
    exists ops, op :: RepeatsAfter(b, ops, op, runId, held)
  }

  predicate SomeNumberAhead(b: Bus, runId: string, held: seq<Event>) {
    exists x :: x in held && x.sequence > SequenceOf(b, runId)
  }

  lemma RepeatsAhead(b: Bus, ops: seq<Op>, op: Op, runId: string, held: seq<Event>)
    requires HasRead(b, runId) && RepeatsAfter(b, ops, op, runId, held)
    ensures SomeNumberAhead(b, runId, held)
  {
    assert (ops + [op])[|ops|] == op;
    assert EmitsOnly(ops, runId) by {
      assert forall i :: 0 <= i < |ops| ==> (ops + [op])[i] == ops[i];
    }
    SequenceAfter(b, ops, runId);
    hide ApplyAll;
    EmitTakesNext(ApplyAll(b, ops), runId, op.draft, op.newId, op.newTrace);
  }

  lemma AheadRepeats(b: Bus, runId: string, held: seq<Event>, x: Event) returns (ops: seq<Op>, op: Op)
    requires HasRead(b, runId) && x in held && x.sequence > SequenceOf(b, runId)
    ensures RepeatsAfter(b, ops, op, runId, held)
  {
    ops := EmitsFollow(b, runId, x.sequence - SequenceOf(b, runId) - 1);
    SequenceAfter(b, ops, runId);
    hide ApplyAll, Announces, HasRead;
    op := NextEmit(ApplyAll(b, ops), runId);
    OneMoreAnnounces(b, ops, op, runId);
  }

  /** Exactly when a process repeats numbers of given events: one of them is ahead of its sequence. */
  lemma {:induction false} CanRepeatIff(b: Bus, runId: string, held: seq<Event>)
    requires HasRead(b, runId)
    ensures CanRepeat(b, runId, held) <==> SomeNumberAhead(b, runId, held)
  {
    if CanRepeat(b, runId, held) {
      var ops, op :| RepeatsAfter(b, ops, op, runId, held);
      RepeatsAhead(b, ops, op, runId, held);
    }
    if x :| x in held && x.sequence > SequenceOf(b, runId) {
      var ops, op := AheadRepeats(b, runId, held, x);
    }
  }

  /**
   * A resumed process alone: some series of emits uses a number it loaded again if and only if the last stored
   * event does not have the largest.
   */
  lemma {:induction false} ResumeRepeatsIff(b: Bus, runId: string)
    requires runId !in b.history
    ensures CanRepeat(Load(b, runId), runId, HistoryOf(Load(b, runId), runId))
       <==> !LastIsLargest(HistoryOf(Load(b, runId), runId))
  {
    CanRepeatIff(Load(b, runId), runId, HistoryOf(Load(b, runId), runId));
    LoadingEstablishesHighWater(b, runId);
  }

  /**
   * Over shared files, after any interleaving of any processes: some series of emits of one process uses a number
   * on the file again if and only if the file has a number ahead of the process. When it had loaded the run at its
   * high-water mark, that is a line which another process wrote and it has not read.
   */
  lemma {:induction false} SharedFileRepeatsIff(
    disk: map<string, seq<Event>>, steps: seq<Step>, process: nat, runId: string)
    ensures var b := Load(BusOf(RunAll(disk, steps), process), runId);
            var lines := Lines(b.store.disk, runId);
            && (CanRepeat(b, runId, lines) <==> SomeNumberAhead(b, runId, lines))
            && (HighWater(b, runId) ==>
                  (CanRepeat(b, runId, lines)
                   <==> exists x :: x in lines && x !in b.history[runId] && x.sequence > SequenceOf(b, runId)))
  {
    hide RunAll;
    EveryProcessInv(disk, steps, process);
    var before := BusOf(RunAll(disk, steps), process);
    var b := Load(before, runId);
    LoadKeepsOwn(before, runId);
    CanRepeatIff(b, runId, Lines(b.store.disk, runId));
  }

  // ---- Both ways of repeating a number ----

  lemma RunSnocs(disk: map<string, seq<Event>>, ops: seq<Op>, op: Op)
    ensures EventBus.Run(disk, ops + [op]) == Apply(EventBus.Run(disk, ops), op)
  {
    assert (ops + [op])[..|ops|] == ops;
  }

  /** A new process over a file of two events with distinct ids loads both and goes on from the second. */
  lemma TwoAreLoaded(x: Event, y: Event)
    requires x.id != y.id && x.runId == y.runId
    ensures var b := Load(Empty(map[x.runId := [x, y]]), x.runId);
            && HasRead(b, x.runId) && b.history[x.runId] == [x, y] && SequenceOf(b, x.runId) == y.sequence
            && b.store.ids == {x.id, y.id}
  {
    assert [x, y][..1] == [x] && [x][..0] == [];
    assert Unmet([], {}) == [] && Unmet([x], {}) == [] + [x];
    assert IdsOf([x]) == {x.id};
    assert Unmet([x, y], {}) == [x] + [y];
  }

  lemma TwoMoreEmits(b: Bus, runId: string, draft: Draft, trace: string)
    requires HasRead(b, runId) && !draft.contradictory && "c" !in b.store.ids && "d" !in b.store.ids
    ensures var b' := Apply(Apply(b, DoEmit(runId, draft, "c", trace)), DoEmit(runId, draft, "d", trace));
            var lines, lines' := Lines(b.store.disk, runId), Lines(b'.store.disk, runId);
            && |lines'| == |lines| + 2 && lines <= lines'
            && lines'[|lines|].sequence == SequenceOf(b, runId) + 1
            && lines'[|lines| + 1].sequence == SequenceOf(b, runId) + 2
  {
    EmitTakesNext(b, runId, draft, "c", trace);
    var b1 := Apply(b, DoEmit(runId, draft, "c", trace));
    assert "d" !in b1.store.ids;
    hide Emit;
    EmitTakesNext(b1, runId, draft, "d", trace);
  }

  /** A new process over such a file emits twice. */
  lemma NewProcessEmits(x: Event, y: Event)
    requires x.id == "a" && y.id == "b" && x.runId == y.runId
    ensures var empty := Empty(map[x.runId := [x, y]]);
            var b := Apply(Apply(empty, Plainly(x.runId, "c")), Plainly(x.runId, "d"));
            var lines := Lines(b.store.disk, x.runId);
            && |lines| == 4 && [x, y] <= lines
            && lines[2].sequence == y.sequence + 1 && lines[3].sequence == y.sequence + 2
  {
    var b := Empty(map[x.runId := [x, y]]);
    TwoAreLoaded(x, y);
    LoadsFirst(b, x.runId, Draft(0, false), "c", "trace");
    LoadKeepsDisk(b, x.runId);
    hide Load, Empty, Emit;
    TwoMoreEmits(Load(b, x.runId), x.runId, Draft(0, false), "trace");
  }

  lemma LoadKeepsDisk(b: Bus, runId: string)
    ensures Load(b, runId).store.disk == b.store.disk
  {
  }

  lemma RestartIsEmpty(b: Bus)
    ensures Apply(b, Restart) == Empty(b.store.disk)
  {
  }

  function Plainly(runId: string, id: string): Op {
    DoEmit(runId, Draft(0, false), id, "trace")
  }

  /** 5 arrives before 3; after a restart the first emit takes 4, and the second 5 again. */
  lemma {:induction false} RestartRepeatsANumber()
    ensures var five, three := Event("a", 5, "run", None, None, 0), Event("b", 3, "run", None, None, 0);
            var ops := [DoIngest(five), DoIngest(three)] + [Restart] + [Plainly("run", "c")] + [Plainly("run", "d")];
            var lines := Lines(EventBus.Run(map[], ops).store.disk, "run");
            |lines| == 4 && [five, three] <= lines && lines[2].sequence == 4 && lines[3].sequence == five.sequence
  {
    var five, three := Event("a", 5, "run", None, None, 0), Event("b", 3, "run", None, None, 0);
    var ops := [DoIngest(five), DoIngest(three)];
    OutOfOrderFile();
    hide *;
    RunSnocs(map[], ops, Restart);
    RunSnocs(map[], ops + [Restart], Plainly("run", "c"));
    RunSnocs(map[], ops + [Restart] + [Plainly("run", "c")], Plainly("run", "d"));
    RestartIsEmpty(EventBus.Run(map[], ops));
    NewProcessEmits(five, three);
  }

  lemma LoadsFirst(b: Bus, runId: string, draft: Draft, newId: string, newTrace: string)
    ensures Emit(Load(b, runId), runId, draft, newId, newTrace) == Emit(b, runId, draft, newId, newTrace)
  {
  }

  /** One emit by a process that has read the run, whatever others have done to the file meanwhile. */
  lemma ReaderEmits(w: World, process: nat, runId: string, id: string)
    requires process in w.buses && HasRead(w.buses[process], runId) && id !in w.buses[process].store.ids
    ensures var w' := Act(w, Step(process, DoEmit(runId, Draft(0, false), id, "trace")));
            var lines, lines' := Lines(w.disk, runId), Lines(w'.disk, runId);
            && |lines'| == |lines| + 1 && lines <= lines'
            && lines'[|lines|].sequence == SequenceOf(w.buses[process], runId) + 1 && lines'[|lines|].id == id
            && (forall p :: p in w.buses && p != process ==> p in w'.buses && w'.buses[p] == w.buses[p])
  {
    EmitTakesNext(BusOf(w, process), runId, Draft(0, false), id, "trace");
  }

  /**
   * Two processes that read the same empty file, both at their high-water mark, each emit: the file then holds two
   * different events with number 1.
   */
  lemma {:induction false} TwoProcessesRepeatANumber(runId: string)
    ensures var read := [Step(0, DoList(runId)), Step(1, DoList(runId))];
            var steps := read + [Step(0, DoEmit(runId, Draft(0, false), "a", "trace")),
                                 Step(1, DoEmit(runId, Draft(0, false), "b", "trace"))];
            var lines := Lines(RunAll(map[], steps).disk, runId);
            && HighWater(BusOf(RunAll(map[], read), 0), runId) && HighWater(BusOf(RunAll(map[], read), 1), runId)
            && |lines| == 2 && lines[0].id != lines[1].id && lines[0].sequence == 1 && lines[1].sequence == 1
  {
    var read := [Step(0, DoList(runId)), Step(1, DoList(runId))];
    var a := Step(0, DoEmit(runId, Draft(0, false), "a", "trace"));
    var b := Step(1, DoEmit(runId, Draft(0, false), "b", "trace"));
    BothHaveRead(runId);
    NothingIsRead(runId);
    RunSnoc(map[], read, a);
    RunSnoc(map[], read + [a], b);
    assert read + [a] + [b] == read + [a, b];
    hide RunAll, Act, Load;
    ReaderEmits(RunAll(map[], read), 0, runId, "a");
    ReaderEmits(RunAll(map[], read + [a]), 1, runId, "b");
  }

  lemma NothingIsRead(runId: string)
    ensures var b := Load(Empty(map[]), runId);
            HasRead(b, runId) && HighWater(b, runId) && SequenceOf(b, runId) == 0 && b.store.ids == {}
  {
    assert Unmet([], {}) == [];
  }
}
