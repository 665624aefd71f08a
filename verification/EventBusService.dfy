/** The event bus and its store as the objects that one process updates in place. */
module EventBusService {
  import opened Wrappers
  import opened EventBus

  class AppendOnlyProcessingEventStore {
    var disk: map<string, seq<Event>>
    var cache: map<string, seq<Event>>
    var ids: set<string>

    ghost function View(): Store
      reads this
    {
      Store(disk, cache, ids)
    }

    /** A new process over files that may already hold events. */
    constructor (disk: map<string, seq<Event>>)
      ensures View() == Store(disk, map[], {})
    {
      this.disk, cache, ids := disk, map[], {};
    }

    method List(runId: string) returns (events: seq<Event>)
      modifies this
      ensures View() == LoadFile(old(View()), runId) && events == View().cache[runId]
    {
      if runId in cache {
        return cache[runId];
      }
      var lines := Lines(disk, runId);
      events := [];
      for i := 0 to |lines|
        invariant events == Unmet(lines[..i], old(ids)) && ids == old(ids) + IdsOf(events)
        invariant disk == old(disk) && cache == old(cache)
      {
        assert lines[..i + 1][..i] == lines[..i];
        if lines[i].id !in ids {
          assert IdsOf(events + [lines[i]]) == IdsOf(events) + {lines[i].id};
          events := events + [lines[i]];
          ids := ids + {lines[i].id};
        }
      }
      assert lines[..|lines|] == lines;
      cache := cache[runId := events];
    }

    /** False stands for the duplicate-event throw; the file has been loaded by then. */
    method Add(e: Event) returns (added: bool)
      modifies this
      ensures added == Append(old(View()), e).Some?
      ensures View() == if added then Append(old(View()), e).value else LoadFile(old(View()), e.runId)
    {
      var events := List(e.runId);
      if e.id in ids {
        return false;
      }
      disk := disk[e.runId := Lines(disk, e.runId) + [e]];
      cache := cache[e.runId := events + [e]];
      ids := ids + {e.id};
      return true;
    }
  }

  class ProcessingEventBus {
    const store: AppendOnlyProcessingEventStore
    var sequence: map<string, int>
    var traces: map<string, string>
    var history: map<string, seq<Event>>
    var seen: map<string, set<string>>
    var sinks: set<Sink>
    var logs: map<Sink, seq<Event>>

    ghost function View(): Bus
      reads this, store
    {
      Bus(store.View(), history, sequence, traces, seen, sinks, logs)
    }

    constructor (store: AppendOnlyProcessingEventStore)
      requires store.cache == map[] && store.ids == {}
      ensures this.store == store && View() == EventBus.Run(store.disk, [])
    {
      this.store := store;
      sequence, traces, history, seen, sinks, logs := map[], map[], map[], map[], {}, map[];
    }

    method MarkSeen(runId: string, id: string)
      modifies `seen
      ensures seen == old(seen)[runId := SeenOf(old(View()), runId) + {id}]
    {
      seen := seen[runId := (if runId in seen then seen[runId] else {}) + {id}];
    }

    method LoadRun(runId: string) returns (h: seq<Event>)
      modifies this, store
      ensures View() == Load(old(View()), runId) && h == HistoryOf(View(), runId)
    {
      if runId in history {
        return history[runId];
      }
      h := store.List(runId);
      history := history[runId := h];
      sequence := sequence[runId := LastSequence(h)];
      seen := seen[runId := IdsOf(h)];
      traces := WithTrace(traces, runId, FirstTrace(h));
    }

    /** Observers first, then the run's subscribers. */
    method Notify(e: Event)
      modifies `logs
      ensures logs == Delivered(sinks, old(logs), e)
    {
      var observers := set s | s in sinks && s.Observer?;
      var subscribers := set s | s in sinks && s.Subscriber? && s.runId == e.runId;
      NotifyAll(observers, e);
      NotifyAll(subscribers, e);
      ToldTwice(old(logs), observers, subscribers, e);
      assert Hearers(sinks, e.runId) == observers + subscribers;
    }

    method NotifyAll(audience: set<Sink>, e: Event)
      modifies `logs
      ensures logs == Told(old(logs), audience, e)
    {
      hide Told;
      var pending := audience;
      ToldNobody(logs, e);
      assert audience - pending == {};
      while pending != {}
        invariant pending <= audience && logs == Told(old(logs), audience - pending, e)
        decreases |pending|
      {
        var s :| s in pending;
        ToldOneMore(old(logs), audience - pending, s, e);
        assert audience - (pending - {s}) == audience - pending + {s};
        logs := logs[s := PriorLog(logs, s) + [e]];
        pending := pending - {s};
      }
      assert audience - pending == audience;
    }

    /** Persists, keeps and announces one event; false where the store throws. */
    method AcceptEvent(e: Event) returns (accepted: bool)
      modifies this, store
      ensures (View(), accepted) == Accept(old(View()), e)
    {
      MarkSeen(e.runId, e.id);
      accepted := store.Add(e);
      if accepted {
        history := history[e.runId := (if e.runId in history then history[e.runId] else []) + [e]];
        Notify(e);
      }
    }

    /** The next number and the run's trace; both are kept even when the emit then throws. */
    method TakeNumber(runId: string, newTrace: string) returns (number: int, trace: string)
      modifies `sequence, `traces
      ensures View() == Numbered(old(View()), runId, newTrace)
      ensures number == SequenceOf(old(View()), runId) + 1 && trace == TraceFor(old(View()), runId, newTrace)
    {
      number := (if runId in sequence then sequence[runId] else 0) + 1;
      sequence := sequence[runId := number];
      trace := if runId in traces then traces[runId] else newTrace;
      traces := traces[runId := trace];
    }

    /** None where emit throws. */
    method EmitEvent(runId: string, draft: Draft, newId: string, newTrace: string) returns (emitted: Option<Event>)
      modifies this, store
      ensures (View(), emitted) == Emit(old(View()), runId, draft, newId, newTrace)
      ensures emitted.Some? ==>
                && !draft.contradictory && emitted.value.content == draft.content
                && emitted.value.id == newId && emitted.value.runId == runId
    {
      hide Load, Accept, Numbered;
      var h := LoadRun(runId);
      var number, trace := TakeNumber(runId, newTrace);
      if draft.contradictory {
        return None;
      }
      var e := Event(newId, number, runId, if h == [] then None else Some(h[|h| - 1].id), Some(trace), draft.content);
      var accepted := AcceptEvent(e);
      emitted := if accepted then Some(e) else None;
    }

    /** False for a malformed event, a duplicate delivery, or where the store throws. */
    method IngestEvent(e: Event) returns (accepted: bool)
      modifies this, store
      ensures (View(), accepted) == Ingest(old(View()), e)
    {
      if e.id == "" || e.runId == "" {
        return false;
      }
      var h := LoadRun(e.runId);
      if e.runId in seen && e.id in seen[e.runId] {
        return false;
      }
      accepted := AcceptEvent(e);
      if accepted {
        Advance(e);
      }
    }

    method Advance(e: Event)
      modifies `sequence, `traces
      ensures View() == Advanced(old(View()), e)
    {
      if e.sequence > (if e.runId in sequence then sequence[e.runId] else 0) {
        sequence := sequence[e.runId := e.sequence];
      }
      if e.runId !in traces && e.trace.Some? {
        traces := traces[e.runId := e.trace.value];
      }
    }

    method Add(sink: Sink)
      modifies `sinks
      ensures View() == Apply(old(View()), Register(sink))
    {
      sinks := sinks + {sink};
    }

    method Remove(sink: Sink)
      modifies `sinks
      ensures View() == Apply(old(View()), Unregister(sink))
    {
      sinks := sinks - {sink};
    }
  }

  lemma ToldNobody(logs: map<Sink, seq<Event>>, e: Event)
    ensures Told(logs, {}, e) == logs
  {
    forall s | s in logs ensures Told(logs, {}, e)[s] == logs[s] {
      assert logs[s] + [] == logs[s];
    }
  }

  lemma ToldOneMore(logs: map<Sink, seq<Event>>, told: set<Sink>, s: Sink, e: Event)
    requires s !in told
    ensures Told(logs, told + {s}, e) == Told(logs, told, e)[s := PriorLog(Told(logs, told, e), s) + [e]]
  {
    assert PriorLog(Told(logs, told, e), s) == PriorLog(logs, s);
  }

  /** Two disjoint audiences told one after the other are one audience. */
  lemma ToldTwice(logs: map<Sink, seq<Event>>, a: set<Sink>, b: set<Sink>, e: Event)
    requires a !! b
    ensures Told(Told(logs, a, e), b, e) == Told(logs, a + b, e)
  {
    var both := Told(Told(logs, a, e), b, e);
    forall s | s in both ensures both[s] == Told(logs, a + b, e)[s] {
      assert PriorLog(Told(logs, a, e), s) == PriorLog(logs, s) + if s in a then [e] else [];
    }
  }
}
