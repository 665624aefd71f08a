/**
 * Several processes over the same event files, as the API server and the workers are: each has its own cache,
 * ids and observers, and appends to files that the others append to as well.
 */
module EventBusProcesses {
  import opened EventBus

  datatype World = World(disk: map<string, seq<Event>>, buses: map<nat, Bus>)

  datatype Step = Step(process: nat, op: Op)

  function Empty(disk: map<string, seq<Event>>): Bus {
    Bus(Store(disk, map[], {}), map[], map[], map[], map[], {}, map[])
  }

  /** The bus of a process, seeing the files as they are now. */
  function BusOf(w: World, process: nat): Bus {
    if process in w.buses then w.buses[process].(store := w.buses[process].store.(disk := w.disk)) else Empty(w.disk)
  }

  function Act(w: World, step: Step): World {
    var b := Apply(BusOf(w, step.process), step.op);
    World(b.store.disk, w.buses[step.process := b])
  }

  function RunAll(disk: map<string, seq<Event>>, steps: seq<Step>): World {
    if steps == [] then World(disk, map[]) else Act(RunAll(disk, steps[..|steps| - 1]), steps[|steps| - 1])
  }

  // ---- What a process knows by itself, whatever happens to the files ----

  /** Everything held or announced has an id the process has met, and no id twice. */
  ghost predicate OwnInv(b: Bus) {
    && (forall r :: r in b.store.cache ==> DistinctIds(b.store.cache[r]) && IdsOf(b.store.cache[r]) <= b.store.ids)
    && (forall r :: r in b.history ==> r in b.store.cache && b.history[r] == b.store.cache[r])
    && (forall s :: s in b.logs ==> OwnLog(b.store.ids, b.logs[s]))
  }

  ghost predicate OwnLog(ids: set<string>, log: seq<Event>) {
    DistinctIds(log) && IdsOf(log) <= ids
  }

  lemma LoadKeepsOwn(b: Bus, runId: string)
    requires OwnInv(b)
    ensures OwnInv(Load(b, runId)) && b.store.ids <= Load(b, runId).store.ids
  {
    hide Unmet;
    var b' := Load(b, runId);
    forall s | s in b'.logs ensures OwnLog(b'.store.ids, b'.logs[s]) {
      assert OwnLog(b.store.ids, b.logs[s]);
    }
  }

  lemma ExtendKeepsOwnLog(ids: set<string>, log: seq<Event>, e: Event)
    requires OwnLog(ids, log) && e.id !in ids
    ensures OwnLog(ids + {e.id}, log) && OwnLog(ids + {e.id}, log + [e])
  {
    assert IdsOf(log + [e]) == IdsOf(log) + {e.id};
    DistinctAppend(log, e);
  }

  /** An accepted event has an id the process had not met; a refused one reaches nobody. */
  lemma AcceptKeepsOwn(b: Bus, e: Event)
    requires OwnInv(b) && e.runId in b.history
    ensures var (b', accepted) := Accept(b, e);
            && OwnInv(b') && b.store.ids <= b'.store.ids
            && (if accepted then e.id !in b.store.ids && e.id in b'.store.ids && b'.logs == Delivered(b.sinks, b.logs, e)
                else b'.logs == b.logs)
  {
    hide Unmet;
    var (b', accepted) := Accept(b, e);
    if accepted {
      var h := b.history[e.runId];
      DistinctAppend(h, e);
      assert IdsOf(h + [e]) == IdsOf(h) + {e.id};
      forall s | s in b'.logs ensures OwnLog(b'.store.ids, b'.logs[s]) {
        assert OwnLog(b.store.ids, PriorLog(b.logs, s));
        ExtendKeepsOwnLog(b.store.ids, PriorLog(b.logs, s), e);
        assert PriorLog(b.logs, s) + [] == PriorLog(b.logs, s);
      }
    }
  }

  /** One operation of one process: its announcement, if any, has an id that process had not met since it began. */
  lemma ApplyKeepsOwn(b: Bus, op: Op)
    requires OwnInv(b)
    ensures OwnInv(Apply(b, op))
    ensures !op.Restart? ==> b.store.ids <= Apply(b, op).store.ids
    ensures Announces(b, op).Some? ==>
              Announces(b, op).value.id !in b.store.ids && Announces(b, op).value.id in Apply(b, op).store.ids
  {
    hide Accept, Load, OwnInv;
    match op
    case DoEmit(runId, draft, newId, newTrace) =>
      LoadKeepsOwn(b, runId);
      NumberedKeepsOwn(Load(b, runId), runId, newTrace);
      LoadedHasRun(b, runId);
      AcceptKeepsOwn(Numbered(Load(b, runId), runId, newTrace), Created(Load(b, runId), runId, draft, newId, newTrace));
    case DoIngest(e) =>
      LoadKeepsOwn(b, e.runId);
      LoadedHasRun(b, e.runId);
      AcceptKeepsOwn(Load(b, e.runId), e);
      AdvancedKeepsOwn(Accept(Load(b, e.runId), e).0, e);
    case DoList(runId) => LoadKeepsOwn(b, runId);
    case Register(sink) => SinksKeepOwn(b, b.sinks + {sink});
    case Unregister(sink) => SinksKeepOwn(b, b.sinks - {sink});
    case Restart => EmptyIsOwn(b.store.disk);
  }

  lemma LoadedHasRun(b: Bus, runId: string)
    ensures runId in Load(b, runId).history
  {
  }

  lemma NumberedKeepsOwn(b: Bus, runId: string, newTrace: string)
    requires OwnInv(b)
    ensures OwnInv(Numbered(b, runId, newTrace))
  {
  }

  lemma AdvancedKeepsOwn(b: Bus, e: Event)
    requires OwnInv(b)
    ensures OwnInv(Advanced(b, e))
  {
  }

  lemma SinksKeepOwn(b: Bus, sinks: set<Sink>)
    requires OwnInv(b)
    ensures OwnInv(b.(sinks := sinks))
  {
  }

  lemma EmptyIsOwn(disk: map<string, seq<Event>>)
    ensures OwnInv(Empty(disk))
  {
  }

  lemma DiskIsNotOwn(b: Bus, disk: map<string, seq<Event>>)
    requires OwnInv(b)
    ensures OwnInv(b.(store := b.store.(disk := disk)))
  {
  }

  lemma {:induction false} EveryProcessInv(disk: map<string, seq<Event>>, steps: seq<Step>, process: nat)
    ensures OwnInv(BusOf(RunAll(disk, steps), process))
  {
    hide OwnInv, Apply;
    if steps == [] {
      EmptyIsOwn(disk);
    } else {
      var w, step := RunAll(disk, steps[..|steps| - 1]), steps[|steps| - 1];
      EveryProcessInv(disk, steps[..|steps| - 1], process);
      if step.process == process {
        ApplyKeepsOwn(BusOf(w, process), step.op);
      } else {
        var w' := RunAll(disk, steps);
        DiskIsNotOwn(BusOf(w, process), w'.disk);
      }
    }
  }

  /** The events a process has announced since it last began. */
  function AnnouncedBy(disk: map<string, seq<Event>>, steps: seq<Step>, process: nat): seq<Event> {
    if steps == [] then []
    else
      var init, step := steps[..|steps| - 1], steps[|steps| - 1];
      var before := AnnouncedBy(disk, init, process);
      if step.process != process then before
      else if step.op.Restart? then []
      else
        var announced := Announces(BusOf(RunAll(disk, init), process), step.op);
        before + if announced.Some? then [announced.value] else []
  }

  /**
   * However many processes share the files and whatever these held, no process announces an id twice, holds one
   * twice in a history, or passes one twice to an observer or subscriber.
   */
  lemma {:induction false} EachProcessAnnouncesOnce(
    disk: map<string, seq<Event>>, steps: seq<Step>, process: nat, runId: string, sink: Sink)
    ensures var b := BusOf(RunAll(disk, steps), process);
            && DistinctIds(AnnouncedBy(disk, steps, process))
            && IdsOf(AnnouncedBy(disk, steps, process)) <= b.store.ids
            && DistinctIds(HistoryOf(b, runId))
            && DistinctIds(LogOf(b, sink))
  {
    hide Apply, Announces;
    EveryProcessInv(disk, steps, process);
    if steps != [] {
      var init, step := steps[..|steps| - 1], steps[|steps| - 1];
      var w := RunAll(disk, init);
      EachProcessAnnouncesOnce(disk, init, process, runId, sink);
      EveryProcessInv(disk, init, process);
      if step.process == process && !step.op.Restart? {
        var before, b := AnnouncedBy(disk, init, process), BusOf(w, process);
        ApplyKeepsOwn(b, step.op);
        if Announces(b, step.op).Some? {
          DistinctAppend(before, Announces(b, step.op).value);
          assert IdsOf(before + [Announces(b, step.op).value]) == IdsOf(before) + {Announces(b, step.op).value.id};
        }
      }
    }
  }

  // ---- The files themselves ----

  /**
   * Exactly when an append puts an id on a file a second time: the process had read the file before another
   * process appended the event, so its own ids do not have it.
   */
  lemma FileRepeatsIff(st: Store, e: Event)
    requires OnFile(st.disk, e)
    ensures Append(st, e).Some? <==> e.runId in st.cache && e.id !in st.ids
  {
    if e.runId !in st.cache {
      assert IdsOf(Unmet(Lines(st.disk, e.runId), st.ids)) + st.ids == IdsOf(Lines(st.disk, e.runId)) + st.ids;
    }
  }

  lemma RunSnoc(disk: map<string, seq<Event>>, steps: seq<Step>, step: Step)
    ensures RunAll(disk, steps + [step]) == Act(RunAll(disk, steps), step)
  {
    assert (steps + [step])[..|steps|] == steps;
  }

  lemma BothHaveRead(runId: string)
    ensures var read := Load(Empty(map[]), runId);
            RunAll(map[], [Step(0, DoList(runId)), Step(1, DoList(runId))]) == World(map[], map[0 := read, 1 := read])
  {
    var s0, s1 := Step(0, DoList(runId)), Step(1, DoList(runId));
    RunSnoc(map[], [], s0);
    RunSnoc(map[], [s0], s1);
    assert [] + [s0] == [s0] && [s0] + [s1] == [s0, s1];
    var w := RunAll(map[], [s0]);
    assert w == World(map[], map[0 := Load(Empty(map[]), runId)]);
    assert BusOf(w, 1) == Empty(map[]);
  }

  /** Two processes that have read a run's file and are delivered the same event both append it. */
  lemma {:induction false} TwoProcessesRepeatAnEvent(e: Event)
    requires WellFormed(e)
    ensures var steps := [Step(0, DoList(e.runId)), Step(1, DoList(e.runId)), Step(0, DoIngest(e)), Step(1, DoIngest(e))];
            RunAll(map[], steps).disk == map[e.runId := [e, e]]
  {
    var s0, s1 := Step(0, DoList(e.runId)), Step(1, DoList(e.runId));
    var s2, s3 := Step(0, DoIngest(e)), Step(1, DoIngest(e));
    BothHaveRead(e.runId);
    RunSnoc(map[], [s0, s1], s2);
    RunSnoc(map[], [s0, s1, s2], s3);
    assert [s0, s1] + [s2] == [s0, s1, s2] && [s0, s1, s2] + [s3] == [s0, s1, s2, s3];
    hide *;
    BothAppend(RunAll(map[], [s0, s1]), e);
  }

  lemma BothAppend(w: World, e: Event)
    requires WellFormed(e)
    requires var read := Load(Empty(map[]), e.runId); w == World(map[], map[0 := read, 1 := read])
    ensures Act(Act(w, Step(0, DoIngest(e))), Step(1, DoIngest(e))).disk == map[e.runId := [e, e]]
  {
    hide Act, Load, Empty, WellFormed;
    FirstReadIsEmpty(e.runId);
    ReaderAppends(w, 0, e);
    var w' := Act(w, Step(0, DoIngest(e)));
    assert [] + [e] == [e] && w'.disk == map[e.runId := [e]];
    ReaderAppends(w', 1, e);
    assert [e] + [e] == [e, e];
  }

  lemma FirstReadIsEmpty(runId: string)
    ensures var read := Load(Empty(map[]), runId);
            runId in read.history && runId in read.store.cache && read.store.ids == {} && SeenOf(read, runId) == {}
  {
    assert Unmet([], {}) == [];
  }

  /** A process that has read the file and not met the id appends it, whatever the file holds by now. */
  lemma ReaderAppends(w: World, process: nat, e: Event)
    requires WellFormed(e) && process in w.buses
    requires var b := w.buses[process];
             e.runId in b.history && e.runId in b.store.cache && e.id !in b.store.ids && e.id !in SeenOf(b, e.runId)
    ensures var w' := Act(w, Step(process, DoIngest(e)));
            && w'.disk == w.disk[e.runId := Lines(w.disk, e.runId) + [e]]
            && (forall p :: p in w.buses && p != process ==> p in w'.buses && w'.buses[p] == w.buses[p])
  {
    IngestNew(BusOf(w, process), e);
  }
}
