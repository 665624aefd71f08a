/**
 * The processing event bus of one process over its append-only store: at-least-once delivery in, every event
 * persisted, kept and announced exactly once.
 */
module EventBus {
  import opened Wrappers

  /** `trace` is the trace id of a well-formed traceparent; the rest of the event is one opaque value. */
  datatype Event = Event(
    id: string, sequence: int, runId: string, causation: Option<string>, trace: Option<string>, content: int)

  /** What a caller asks to emit. A draft may contradict itself, and then emit throws. */
  datatype Draft = Draft(content: int, contradictory: bool)

  datatype Sink =
    | Observer(n: nat)
    | Subscriber(runId: string, n: nat)

  function IdsOf(events: seq<Event>): set<string> {
    set e | e in events :: e.id
  }

  lemma IdsOfAppend(events: seq<Event>, e: Event)
    ensures IdsOf(events + [e]) == IdsOf(events) + {e.id}
  {
  }

  predicate DistinctIds(events: seq<Event>) {
    forall i, j :: 0 <= i < j < |events| ==> events[i].id != events[j].id
  }

  // ---- The store: one file per run, read at first use ----

  datatype Store = Store(disk: map<string, seq<Event>>, cache: map<string, seq<Event>>, ids: set<string>)

  function Lines(disk: map<string, seq<Event>>, runId: string): seq<Event> {
    if runId in disk then disk[runId] else []
  }

  /** The events of a file whose ids this process has not met yet, each once. */
  function Unmet(lines: seq<Event>, ids: set<string>): (events: seq<Event>)
    ensures DistinctIds(events)
    ensures forall e :: e in events ==> e in lines && e.id !in ids
    ensures IdsOf(events) + ids == IdsOf(lines) + ids
  {
    if lines == [] then []
    else
      var last := lines[|lines| - 1];
      var before := Unmet(lines[..|lines| - 1], ids);
      assert lines == lines[..|lines| - 1] + [last];
      IdsOfAppend(lines[..|lines| - 1], last);
      IdsOfAppend(before, last);
      if last.id in ids || last.id in IdsOf(before) then before
      else
        before + [last]
  }

  function LoadFile(st: Store, runId: string): (st': Store)
    ensures runId in st'.cache && st'.disk == st.disk
  {
    if runId in st.cache then st
    else
      var events := Unmet(Lines(st.disk, runId), st.ids);
      st.(cache := st.cache[runId := events], ids := st.ids + IdsOf(events))
  }

  /** Appends to file, cache and ids; None when the id was met before, which throws. */
  function Append(st: Store, e: Event): Option<Store> {
    var loaded := LoadFile(st, e.runId);
    if e.id in loaded.ids then None
    else
      Some(Store(loaded.disk[e.runId := Lines(loaded.disk, e.runId) + [e]],
                 loaded.cache[e.runId := loaded.cache[e.runId] + [e]],
                 loaded.ids + {e.id}))
  }

  // ---- The bus ----

  datatype Bus = Bus(
    store: Store,
    history: map<string, seq<Event>>,
    sequence: map<string, int>,
    traces: map<string, string>,
    seen: map<string, set<string>>,
    sinks: set<Sink>,
    logs: map<Sink, seq<Event>>)

  function LastSequence(events: seq<Event>): int {
    if events == [] then 0 else events[|events| - 1].sequence
  }

  function FirstTrace(events: seq<Event>): Option<string> {
    if events == [] then None else events[0].trace
  }

  function WithTrace(traces: map<string, string>, runId: string, trace: Option<string>): map<string, string> {
    if trace.Some? then traces[runId := trace.value] else traces
  }

  function Load(b: Bus, runId: string): (b': Bus)
    ensures runId in b'.history && b'.store.disk == b.store.disk && b'.logs == b.logs && b'.sinks == b.sinks
  {
    if runId in b.history then b
    else
      var st := LoadFile(b.store, runId);
      var h := st.cache[runId];
      b.(store := st, history := b.history[runId := h], sequence := b.sequence[runId := LastSequence(h)],
         seen := b.seen[runId := IdsOf(h)], traces := WithTrace(b.traces, runId, FirstTrace(h)))
  }

  function SeenOf(b: Bus, runId: string): set<string> {
    if runId in b.seen then b.seen[runId] else {}
  }

  function HistoryOf(b: Bus, runId: string): seq<Event> {
    if runId in b.history then b.history[runId] else []
  }

  function SequenceOf(b: Bus, runId: string): int {
    if runId in b.sequence then b.sequence[runId] else 0
  }

  predicate Hears(sink: Sink, runId: string) {
    sink.Observer? || sink.runId == runId
  }

  function LogOf(b: Bus, sink: Sink): seq<Event> {
    PriorLog(b.logs, sink)
  }

  function Hearers(sinks: set<Sink>, runId: string): set<Sink> {
    set s | s in sinks && Hears(s, runId)
  }

  function PriorLog(logs: map<Sink, seq<Event>>, sink: Sink): seq<Event> {
    if sink in logs then logs[sink] else []
  }

  function Told(logs: map<Sink, seq<Event>>, audience: set<Sink>, e: Event): map<Sink, seq<Event>> {
    map s | s in logs.Keys + audience :: PriorLog(logs, s) + if s in audience then [e] else []
  }

  /** Every registered observer, and every registered subscriber of the run, receives the event. */
  function Delivered(sinks: set<Sink>, logs: map<Sink, seq<Event>>, e: Event): map<Sink, seq<Event>> {
    Told(logs, Hearers(sinks, e.runId), e)
  }

  /** Persist, keep and announce one event whose id has just been marked as seen; None stands for a throw. */
  function Accept(b: Bus, e: Event): (Bus, bool) {
    var marked := b.(seen := b.seen[e.runId := SeenOf(b, e.runId) + {e.id}]);
    match Append(b.store, e)
    case None => (marked.(store := LoadFile(b.store, e.runId)), false)
    case Some(st) =>
      (marked.(store := st, history := b.history[e.runId := HistoryOf(b, e.runId) + [e]],
               logs := Delivered(b.sinks, b.logs, e)), true)
  }

  function TraceFor(b: Bus, runId: string, newTrace: string): string {
    if runId in b.traces then b.traces[runId] else newTrace
  }

  /** The event an emit creates on a loaded run. */
  function Created(b: Bus, runId: string, draft: Draft, newId: string, newTrace: string): Event {
    var h := HistoryOf(b, runId);
    Event(newId, SequenceOf(b, runId) + 1, runId, if h == [] then None else Some(h[|h| - 1].id),
          Some(TraceFor(b, runId, newTrace)), draft.content)
  }

  function Numbered(b: Bus, runId: string, newTrace: string): Bus {
    b.(sequence := b.sequence[runId := SequenceOf(b, runId) + 1],
       traces := b.traces[runId := TraceFor(b, runId, newTrace)])
  }

  /** The number is taken and the trace chosen before the draft is checked, so a throwing emit leaves a gap. */
  function Emit(b: Bus, runId: string, draft: Draft, newId: string, newTrace: string): (Bus, Option<Event>) {
    var loaded := Load(b, runId);
    var numbered := Numbered(loaded, runId, newTrace);
    var e := Created(loaded, runId, draft, newId, newTrace);
    if draft.contradictory then (numbered, None)
    else
      var (b', accepted) := Accept(numbered, e);
      (b', if accepted then Some(e) else None)
  }

  predicate WellFormed(e: Event) {
    e.id != "" && e.runId != ""
  }

  function Ingest(b: Bus, e: Event): (Bus, bool) {
    if !WellFormed(e) then (b, false)
    else
      var loaded := Load(b, e.runId);
      if e.id in SeenOf(loaded, e.runId) then (loaded, false)
      else
        var (b', accepted) := Accept(loaded, e);
        if !accepted then (b', false) else (Advanced(b', e), true)
  }

  /** The sequence never falls behind an ingested event, and an unknown trace is taken from it. */
  function Advanced(b: Bus, e: Event): Bus {
    b.(sequence := if e.sequence > SequenceOf(b, e.runId) then b.sequence[e.runId := e.sequence] else b.sequence,
       traces := if e.runId in b.traces then b.traces else WithTrace(b.traces, e.runId, e.trace))
  }

  /** A new process over the same files. */
  function Restarted(b: Bus): Bus {
    Bus(Store(b.store.disk, map[], {}), map[], map[], map[], map[], {}, map[])
  }

  datatype Op =
    | DoEmit(runId: string, draft: Draft, newId: string, newTrace: string)
    | DoIngest(event: Event)
    | DoList(runId: string)
    | Register(sink: Sink)
    | Unregister(sink: Sink)
    | Restart

  function Apply(b: Bus, op: Op): Bus {
    match op
    case DoEmit(runId, draft, newId, newTrace) => Emit(b, runId, draft, newId, newTrace).0
    case DoIngest(e) => Ingest(b, e).0
    case DoList(runId) => Load(b, runId)
    case Register(sink) => b.(sinks := b.sinks + {sink})
    case Unregister(sink) => b.(sinks := b.sinks - {sink})
    case Restart => Restarted(b)
  }

  function Run(disk: map<string, seq<Event>>, ops: seq<Op>): Bus {
    if ops == [] then Bus(Store(disk, map[], {}), map[], map[], map[], map[], {}, map[])
    else Apply(Run(disk, ops[..|ops| - 1]), ops[|ops| - 1])
  }

  /** The event an operation persists and announces, if any. */
  function Announces(b: Bus, op: Op): Option<Event> {
    match op
    case DoEmit(runId, draft, newId, newTrace) => Emit(b, runId, draft, newId, newTrace).1
    case DoIngest(e) => if Ingest(b, e).1 then Some(e) else None
    case _ => None
  }

  // ---- The invariant ----

  ghost predicate StoreInv(st: Store) {
    && (forall r :: r in st.cache ==>
          && DistinctIds(st.cache[r])
          && IdsOf(Lines(st.disk, r)) <= st.ids
          && (forall e :: e in st.cache[r] ==> e in Lines(st.disk, r)))
  }

  ghost predicate BusInv(b: Bus) {
    && StoreInv(b.store)
    && (forall r :: r in b.history ==>
          && r in b.store.cache && b.history[r] == b.store.cache[r]
          && r in b.sequence && r in b.seen && IdsOf(b.history[r]) <= b.seen[r])
    && (forall r :: r in b.seen ==> b.seen[r] <= b.store.ids)
  }

  /** No two events with one run and one id. */
  predicate DistinctEvents(events: seq<Event>) {
    forall i, j :: 0 <= i < j < |events| ==> events[i].runId != events[j].runId || events[i].id != events[j].id
  }

  ghost predicate OnFile(disk: map<string, seq<Event>>, e: Event) {
    e.id in IdsOf(Lines(disk, e.runId))
  }

  ghost predicate LogInv(b: Bus) {
    forall s :: s in b.logs ==> LogSound(b.store.disk, s, b.logs[s])
  }

  lemma LoadFileInv(st: Store, runId: string)
    requires StoreInv(st)
    ensures StoreInv(LoadFile(st, runId))
    ensures IdsOf(Lines(st.disk, runId)) <= LoadFile(st, runId).ids
  {
    if runId !in st.cache {
      var events := Unmet(Lines(st.disk, runId), st.ids);
      assert IdsOf(events) + st.ids == IdsOf(Lines(st.disk, runId)) + st.ids;
    }
  }

  lemma AppendInv(st: Store, e: Event)
    requires StoreInv(st)
    ensures Append(st, e).Some? ==>
              && StoreInv(Append(st, e).value)
              && !OnFile(st.disk, e)
              && Append(st, e).value.disk == st.disk[e.runId := Lines(st.disk, e.runId) + [e]]
    ensures OnFile(st.disk, e) ==> Append(st, e).None?
  {
    hide Unmet;
    var loaded := LoadFile(st, e.runId);
    LoadFileInv(st, e.runId);
    if Append(st, e).Some? {
      var st', lines := Append(st, e).value, Lines(st.disk, e.runId);
      assert e.id !in IdsOf(lines);
      assert IdsOf(lines + [e]) == IdsOf(lines) + {e.id};
      assert IdsOf(loaded.cache[e.runId]) <= IdsOf(lines);
      DistinctAppend(loaded.cache[e.runId], e);
    }
  }

  lemma DistinctAppend(events: seq<Event>, e: Event)
    requires DistinctIds(events) && e.id !in IdsOf(events)
    ensures DistinctIds(events + [e])
  {
    assert forall k :: 0 <= k < |events| ==> events[k] in events;
  }

  lemma LoadInv(b: Bus, runId: string)
    requires BusInv(b)
    ensures BusInv(Load(b, runId))
  {
    LoadFileInv(b.store, runId);
  }

  lemma AcceptInv(b: Bus, e: Event)
    requires BusInv(b) && e.runId in b.history
    ensures BusInv(Accept(b, e).0)
    ensures var (b', accepted) := Accept(b, e);
            if accepted
            then !OnFile(b.store.disk, e) && b'.store.disk == b.store.disk[e.runId := Lines(b.store.disk, e.runId) + [e]]
            else b'.store.disk == b.store.disk && b'.logs == b.logs
    ensures OnFile(b.store.disk, e) ==> !Accept(b, e).1
  {
    AppendInv(b.store, e);
    if Accept(b, e).1 {
      assert IdsOf(b.history[e.runId] + [e]) == IdsOf(b.history[e.runId]) + {e.id};
    }
  }

  lemma NumberedInv(b: Bus, runId: string, newTrace: string)
    requires BusInv(b)
    ensures BusInv(Numbered(b, runId, newTrace))
  {
  }

  lemma EmitInv(b: Bus, runId: string, draft: Draft, newId: string, newTrace: string)
    requires BusInv(b)
    ensures BusInv(Emit(b, runId, draft, newId, newTrace).0)
  {
    LoadInv(b, runId);
    var loaded := Load(b, runId);
    NumberedInv(loaded, runId, newTrace);
    AcceptInv(Numbered(loaded, runId, newTrace), Created(loaded, runId, draft, newId, newTrace));
  }

  lemma IngestInv(b: Bus, e: Event)
    requires BusInv(b)
    ensures BusInv(Ingest(b, e).0)
  {
    LoadInv(b, e.runId);
    AcceptInv(Load(b, e.runId), e);
  }

  lemma ApplyKeepsInv(b: Bus, op: Op)
    requires BusInv(b)
    ensures BusInv(Apply(b, op))
  {
    match op
    case DoEmit(runId, draft, newId, newTrace) => EmitInv(b, runId, draft, newId, newTrace);
    case DoIngest(e) => IngestInv(b, e);
    case DoList(runId) => LoadInv(b, runId);
    case _ =>
  }

  /** What an operation does to the files and to what observers hear, apart from a restart. */
  lemma ApplyAnnounces(b: Bus, op: Op)
    requires BusInv(b)
    ensures var b', announced := Apply(b, op), Announces(b, op);
            if announced.Some?
            then
              var e := announced.value;
              && !OnFile(b.store.disk, e)
              && b'.store.disk == b.store.disk[e.runId := Lines(b.store.disk, e.runId) + [e]]
              && b'.logs == Delivered(b.sinks, b.logs, e)
            else b'.store.disk == b.store.disk && (b'.logs == b.logs || op.Restart?)
  {
    hide Emit, Ingest, BusInv, Delivered, OnFile;
    match op
    case DoEmit(runId, draft, newId, newTrace) => EmitAnnounces(b, runId, draft, newId, newTrace);
    case DoIngest(e) => IngestAnnounces(b, e);
    case _ =>
  }

  lemma IngestAnnounces(b: Bus, e: Event)
    requires BusInv(b)
    ensures var (b', accepted) := Ingest(b, e);
            if accepted
            then
              && !OnFile(b.store.disk, e)
              && b'.store.disk == b.store.disk[e.runId := Lines(b.store.disk, e.runId) + [e]]
              && b'.logs == Delivered(b.sinks, b.logs, e)
            else b'.store.disk == b.store.disk && b'.logs == b.logs
  {
    hide Append, OnFile, Delivered;
    LoadInv(b, e.runId);
    AcceptInv(Load(b, e.runId), e);
  }

  lemma EmitAnnounces(b: Bus, runId: string, draft: Draft, newId: string, newTrace: string)
    requires BusInv(b)
    ensures var (b', announced) := Emit(b, runId, draft, newId, newTrace);
            if announced.Some?
            then
              var e := announced.value;
              && !OnFile(b.store.disk, e)
              && b'.store.disk == b.store.disk[e.runId := Lines(b.store.disk, e.runId) + [e]]
              && b'.logs == Delivered(b.sinks, b.logs, e)
            else b'.store.disk == b.store.disk && b'.logs == b.logs
  {
    LoadInv(b, runId);
    var loaded := Load(b, runId);
    NumberedInv(loaded, runId, newTrace);
    AcceptInv(Numbered(loaded, runId, newTrace), Created(loaded, runId, draft, newId, newTrace));
  }

  ghost predicate LogSound(disk: map<string, seq<Event>>, sink: Sink, log: seq<Event>) {
    DistinctEvents(log) && forall e :: e in log ==> Hears(sink, e.runId) && OnFile(disk, e)
  }

  lemma LogStaysSound(disk: map<string, seq<Event>>, sink: Sink, log: seq<Event>, e: Event)
    requires LogSound(disk, sink, log) && !OnFile(disk, e)
    ensures var disk' := disk[e.runId := Lines(disk, e.runId) + [e]];
            LogSound(disk', sink, log) && (Hears(sink, e.runId) ==> LogSound(disk', sink, log + [e]))
  {
    FileGrows(disk, e);
    assert forall k :: 0 <= k < |log| ==> log[k] in log;
  }

  lemma ApplyKeepsLogs(b: Bus, op: Op)
    requires BusInv(b) && LogInv(b)
    ensures LogInv(Apply(b, op))
  {
    hide Apply, Announces, BusInv, LogSound;
    ApplyAnnounces(b, op);
    var b', announced := Apply(b, op), Announces(b, op);
    if op.Restart? {
      RestartForgetsLogs(b);
    } else if announced.Some? {
      forall s | s in b'.logs ensures LogSound(b'.store.disk, s, b'.logs[s]) {
        EmptyLogIsSound(b.store.disk, s);
        LogStaysSound(b.store.disk, s, LogOf(b, s), announced.value);
        assert LogOf(b, s) + [] == LogOf(b, s);
      }
    }
  }

  lemma RestartForgetsLogs(b: Bus)
    ensures LogInv(Apply(b, Restart))
  {
  }

  lemma EmptyLogIsSound(disk: map<string, seq<Event>>, sink: Sink)
    ensures LogSound(disk, sink, [])
  {
  }

  lemma FileGrows(disk: map<string, seq<Event>>, e: Event)
    ensures var disk' := disk[e.runId := Lines(disk, e.runId) + [e]];
            OnFile(disk', e) && forall x: Event :: OnFile(disk, x) ==> OnFile(disk', x)
  {
    var lines := Lines(disk, e.runId);
    assert IdsOf(lines + [e]) == IdsOf(lines) + {e.id};
  }

  lemma {:induction false} ReachableInv(disk: map<string, seq<Event>>, ops: seq<Op>)
    ensures BusInv(Run(disk, ops)) && LogInv(Run(disk, ops))
  {
    if ops != [] {
      var before := ops[..|ops| - 1];
      ReachableInv(disk, before);
      ApplyKeepsInv(Run(disk, before), ops[|ops| - 1]);
      ApplyKeepsLogs(Run(disk, before), ops[|ops| - 1]);
    }
  }

  // ---- Exactly once ----

  /**
   * In every reachable state, whatever the files held at first, an event id is in a run's history at most once
   * and in any observer's or subscriber's log at most once; what a process holds and announces is on file.
   */
  lemma {:induction false} EveryEventOnce(disk: map<string, seq<Event>>, ops: seq<Op>, runId: string, sink: Sink)
    ensures var b := Run(disk, ops);
            && DistinctIds(HistoryOf(b, runId))
            && (forall e :: e in HistoryOf(b, runId) ==> e in Lines(b.store.disk, runId))
            && DistinctEvents(LogOf(b, sink))
            && (forall e :: e in LogOf(b, sink) ==> Hears(sink, e.runId) && OnFile(b.store.disk, e))
  {
    ReachableInv(disk, ops);
  }

  /** A process repeats no id on a file: those it found there more than once are all that ever are. */
  lemma {:induction false} FilesStayClean(disk: map<string, seq<Event>>, ops: seq<Op>, runId: string)
    requires DistinctIds(Lines(disk, runId))
    ensures DistinctIds(Lines(Run(disk, ops).store.disk, runId))
  {
    if ops != [] {
      var before, op := Run(disk, ops[..|ops| - 1]), ops[|ops| - 1];
      FilesStayClean(disk, ops[..|ops| - 1], runId);
      ReachableInv(disk, ops[..|ops| - 1]);
      ApplyAnnounces(before, op);
      if Announces(before, op).Some? && Announces(before, op).value.runId == runId {
        DistinctAppend(Lines(before.store.disk, runId), Announces(before, op).value);
      }
    }
  }

  /** All events announced over a run of operations, restarts included. */
  function Announced(disk: map<string, seq<Event>>, ops: seq<Op>): seq<Event> {
    if ops == [] then []
    else
      var init := ops[..|ops| - 1];
      var announced := Announces(Run(disk, init), ops[|ops| - 1]);
      Announced(disk, init) + if announced.Some? then [announced.value] else []
  }

  /** However often an event is delivered, and across restarts, it is persisted and announced at most once. */
  lemma {:induction false} AnnouncedOnce(disk: map<string, seq<Event>>, ops: seq<Op>)
    ensures DistinctEvents(Announced(disk, ops))
    ensures forall e :: e in Announced(disk, ops) ==> OnFile(Run(disk, ops).store.disk, e)
  {
    if ops != [] {
      var init, op := ops[..|ops| - 1], ops[|ops| - 1];
      AnnouncedOnce(disk, init);
      ReachableInv(disk, init);
      var b := Run(disk, init);
      ApplyAnnounces(b, op);
      var before := Announced(disk, init);
      assert forall k :: 0 <= k < |before| ==> before[k] in before;
      if Announces(b, op).Some? {
        FileGrows(b.store.disk, Announces(b, op).value);
      }
    }
  }

  /** An event already on file, from this process or an earlier one, is refused and changes nothing others see. */
  lemma {:induction false} RedeliveryIsRefused(disk: map<string, seq<Event>>, ops: seq<Op>, e: Event)
    requires OnFile(Run(disk, ops).store.disk, e)
    ensures var b := Run(disk, ops);
            var (b', accepted) := Ingest(b, e);
            !accepted && b'.store.disk == b.store.disk && b'.logs == b.logs
            && HistoryOf(Load(b', e.runId), e.runId) == HistoryOf(Load(b, e.runId), e.runId)
  {
    hide Run;
    ReachableInv(disk, ops);
    var b := Run(disk, ops);
    LoadInv(b, e.runId);
    AcceptInv(Load(b, e.runId), e);
  }

  /** Nothing is missed either: whoever is registered and hears the run receives an announced event, once. */
  lemma {:induction false} AnnouncedToEveryone(disk: map<string, seq<Event>>, ops: seq<Op>, op: Op, sink: Sink)
    requires !op.Restart?
    ensures var b := Run(disk, ops);
            LogOf(Apply(b, op), sink)
            == LogOf(b, sink)
               + (if && Announces(b, op).Some? && sink in b.sinks
                     && (sink.Observer? || sink.runId == Announces(b, op).value.runId)
                  then [Announces(b, op).value] else [])
  {
    hide Run;
    ReachableInv(disk, ops);
    ApplyAnnounces(Run(disk, ops), op);
  }

  // ---- What is accepted, and as what ----

  lemma AcceptedIff(b: Bus, e: Event)
    requires BusInv(b) && e.runId in b.history
    ensures Accept(b, e).1 <==> e.id !in b.store.ids
    ensures Accept(b, e).1 ==> HistoryOf(Accept(b, e).0, e.runId) == HistoryOf(b, e.runId) + [e]
  {
  }

  lemma LoadMeets(b: Bus, runId: string)
    requires BusInv(b)
    ensures Load(b, runId).store.ids == b.store.ids + IdsOf(Lines(b.store.disk, runId))
    ensures runId in b.seen ==> b.seen[runId] <= Load(b, runId).store.ids
  {
    if runId !in b.history && runId !in b.store.cache {
      var events := Unmet(Lines(b.store.disk, runId), b.store.ids);
      assert IdsOf(events) + b.store.ids == IdsOf(Lines(b.store.disk, runId)) + b.store.ids;
    }
  }

  /**
   * In every reachable state an emit succeeds exactly when its draft does not contradict itself and its id is new,
   * and the event that joins the history is the caller's: its content, id and run, under the next number.
   */
  lemma {:induction false} EmitsTheDraft(
    disk: map<string, seq<Event>>, ops: seq<Op>, runId: string, draft: Draft, newId: string, newTrace: string)
    ensures var b := Run(disk, ops);
            var (b', e) := Emit(b, runId, draft, newId, newTrace);
            var loaded := Load(b, runId);
            && (e.Some? <==> !draft.contradictory && newId !in b.store.ids
                             && newId !in IdsOf(Lines(b.store.disk, runId)))
            && (e.Some? ==>
                  && e.value.content == draft.content && e.value.id == newId && e.value.runId == runId
                  && e.value.sequence == SequenceOf(loaded, runId) + 1 == SequenceOf(b', runId)
                  && HistoryOf(b', runId) == HistoryOf(loaded, runId) + [e.value])
  {
    hide Run;
    ReachableInv(disk, ops);
    var b := Run(disk, ops);
    LoadInv(b, runId);
    LoadMeets(b, runId);
    var loaded := Load(b, runId);
    NumberedInv(loaded, runId, newTrace);
    AcceptedIff(Numbered(loaded, runId, newTrace), Created(loaded, runId, draft, newId, newTrace));
  }

  lemma AdvancedRaises(b: Bus, e: Event)
    ensures var b' := Advanced(b, e);
            && HistoryOf(b', e.runId) == HistoryOf(b, e.runId)
            && SequenceOf(b', e.runId)
               == if e.sequence > SequenceOf(b, e.runId) then e.sequence else SequenceOf(b, e.runId)
  {
  }

  /** An ingest succeeds exactly for a well-formed event with a new id; it is kept as it came and raises the number. */
  lemma {:induction false} IngestsTheEvent(disk: map<string, seq<Event>>, ops: seq<Op>, e: Event)
    ensures var b := Run(disk, ops);
            var (b', accepted) := Ingest(b, e);
            var loaded := Load(b, e.runId);
            && (accepted <==> e.id != "" && e.runId != "" && e.id !in b.store.ids
                              && e.id !in IdsOf(Lines(b.store.disk, e.runId)))
            && (accepted ==>
                  && HistoryOf(b', e.runId) == HistoryOf(loaded, e.runId) + [e]
                  && SequenceOf(b', e.runId)
                     == if e.sequence > SequenceOf(loaded, e.runId) then e.sequence else SequenceOf(loaded, e.runId))
  {
    hide Run, BusInv;
    ReachableInv(disk, ops);
    var b := Run(disk, ops);
    var loaded := Load(b, e.runId);
    IngestSucceedsIff(b, e);
    AcceptedAppends(loaded, e);
    AdvancedRaises(Accept(loaded, e).0, e);
    hide Load, Accept, Advanced;
  }

  lemma AcceptedAppends(b: Bus, e: Event)
    ensures var (b', accepted) := Accept(b, e);
            SequenceOf(b', e.runId) == SequenceOf(b, e.runId)
            && (accepted ==> HistoryOf(b', e.runId) == HistoryOf(b, e.runId) + [e])
  {
  }

  lemma IngestSucceedsIff(b: Bus, e: Event)
    requires BusInv(b)
    ensures Ingest(b, e).1 <==> && e.id != "" && e.runId != "" && e.id !in b.store.ids
                                && e.id !in IdsOf(Lines(b.store.disk, e.runId))
  {
    hide IdsOf;
    LoadInv(b, e.runId);
    LoadMeets(b, e.runId);
    var loaded := Load(b, e.runId);
    SeenIsMet(loaded, e);
    AcceptedIff(loaded, e);
    hide Load, Accept, Advanced, BusInv;
  }

  lemma SeenIsMet(b: Bus, e: Event)
    requires BusInv(b)
    ensures e.id in SeenOf(b, e.runId) ==> e.id in b.store.ids
  {
  }

  lemma {:induction false} UnmetIsAll(lines: seq<Event>)
    requires DistinctIds(lines)
    ensures Unmet(lines, {}) == lines
  {
    if lines != [] {
      var init, last := lines[..|lines| - 1], lines[|lines| - 1];
      UnmetIsAll(init);
      assert last.id !in IdsOf(init);
      assert lines == init + [last];
    }
  }

  /** A restart loses nothing that is on file: the history, the number to go on from, and the run's trace. */
  lemma {:induction false} RestartRecoversTheRun(b: Bus, runId: string)
    requires DistinctIds(Lines(b.store.disk, runId))
    ensures var lines, b' := Lines(b.store.disk, runId), Load(Apply(b, Restart), runId);
            && HistoryOf(b', runId) == lines && b'.store.disk == b.store.disk
            && SequenceOf(b', runId) == (if lines == [] then 0 else lines[|lines| - 1].sequence)
            && (lines != [] && lines[0].trace.Some? ==> runId in b'.traces && b'.traces[runId] == lines[0].trace.value)
  {
    UnmetIsAll(Lines(b.store.disk, runId));
  }

  // ---- Sequence numbers ----

  predicate HighWater(b: Bus, runId: string) {
    runId in b.history && forall e :: e in b.history[runId] ==> e.sequence <= SequenceOf(b, runId)
  }

  predicate LastIsLargest(events: seq<Event>) {
    forall e :: e in events ==> e.sequence <= LastSequence(events)
  }

  lemma AcceptKeepsOthers(b: Bus, e: Event)
    ensures Accept(b, e).0.sequence == b.sequence
    ensures forall r :: r in b.history ==> r in Accept(b, e).0.history
    ensures forall r :: r in b.history ==>
              Accept(b, e).0.history[r] == if r == e.runId && Accept(b, e).1 then b.history[r] + [e] else b.history[r]
  {
  }

  lemma EmitKeepsHighWater(b: Bus, r: string, draft: Draft, newId: string, newTrace: string, runId: string)
    requires HighWater(b, runId)
    ensures HighWater(Emit(b, r, draft, newId, newTrace).0, runId)
  {
    hide Accept;
    var loaded := Load(b, r);
    AcceptKeepsOthers(Numbered(loaded, r, newTrace), Created(loaded, r, draft, newId, newTrace));
  }

  lemma IngestKeepsHighWater(b: Bus, e: Event, runId: string)
    requires HighWater(b, runId)
    ensures HighWater(Ingest(b, e).0, runId)
  {
    hide Accept;
    AcceptKeepsOthers(Load(b, e.runId), e);
  }

  /** From then on the sequence stays at or above every number in the history, whatever is ingested. */
  lemma HighWaterKept(b: Bus, op: Op, runId: string)
    requires HighWater(b, runId) && !op.Restart?
    ensures HighWater(Apply(b, op), runId)
  {
    hide Emit, Ingest;
    match op
    case DoEmit(r, draft, newId, newTrace) => EmitKeepsHighWater(b, r, draft, newId, newTrace, runId);
    case DoIngest(e) => IngestKeepsHighWater(b, e, runId);
    case _ =>
  }

  function ApplyAll(b: Bus, ops: seq<Op>): Bus {
    if ops == [] then b else Apply(ApplyAll(b, ops[..|ops| - 1]), ops[|ops| - 1])
  }

  /** Once a process has loaded a run whose last event is the largest, each number it emits exceeds all before. */
  lemma {:induction false} EmittedNumbersExceed(
    b: Bus, ops: seq<Op>, runId: string, draft: Draft, newId: string, newTrace: string)
    requires HighWater(b, runId) && (forall op :: op in ops ==> !op.Restart?)
    ensures HighWater(ApplyAll(b, ops), runId)
    ensures var (b', e) := Emit(ApplyAll(b, ops), runId, draft, newId, newTrace);
            e.Some? ==> forall x :: x in HistoryOf(ApplyAll(b, ops), runId) ==> x.sequence < e.value.sequence
  {
    if ops != [] {
      EmittedNumbersExceed(b, ops[..|ops| - 1], runId, draft, newId, newTrace);
      HighWaterKept(ApplyAll(b, ops[..|ops| - 1]), ops[|ops| - 1], runId);
    }
  }

  lemma {:induction false} LoadingEstablishesHighWater(b: Bus, runId: string)
    requires runId !in b.history
    ensures HighWater(Load(b, runId), runId) <==> LastIsLargest(HistoryOf(Load(b, runId), runId))
  {
  }

  /** Transport may deliver out of order: 5 then 3 leaves a file whose last event is not the largest. */
  lemma {:induction false} OutOfOrderFile()
    ensures var five, three := Event("a", 5, "run", None, None, 0), Event("b", 3, "run", None, None, 0);
            Run(map[], [DoIngest(five), DoIngest(three)]).store.disk == map["run" := [five, three]]
            && !LastIsLargest([five, three])
  {
    var five, three := Event("a", 5, "run", None, None, 0), Event("b", 3, "run", None, None, 0);
    var empty := Run(map[], []);
    assert [DoIngest(five), DoIngest(three)][..1] == [DoIngest(five)] && [DoIngest(five)][..0] == [];
    IngestNew(empty, five);
    var b := Ingest(empty, five).0;
    assert [] + [five] == [five];
    assert Run(map[], [DoIngest(five)]) == b;
    assert b.store.disk == map["run" := [five]];
    IngestNew(b, three);
    assert Run(map[], [DoIngest(five), DoIngest(three)]) == Ingest(b, three).0;
    assert [five] + [three] == [five, three];
    assert five in [five, three];
  }

  /** An event of a run whose file this process holds whole, with an id it has not met, is appended. */
  lemma IngestNew(b: Bus, e: Event)
    requires WellFormed(e) && e.id !in b.store.ids && e.id !in SeenOf(b, e.runId)
    requires e.runId in b.history || (e.runId !in b.store.cache && Lines(b.store.disk, e.runId) == [])
    requires e.runId in b.history ==> e.runId in b.store.cache
    ensures var b' := Ingest(b, e).0;
            && Ingest(b, e).1
            && b'.store.disk == b.store.disk[e.runId := Lines(b.store.disk, e.runId) + [e]]
            && b'.store.ids == b.store.ids + {e.id}
            && e.runId in b'.history && e.runId in b'.store.cache
            && SeenOf(b', e.runId) == SeenOf(Load(b, e.runId), e.runId) + {e.id}
            && (e.runId in b.history ==> SeenOf(Load(b, e.runId), e.runId) == SeenOf(b, e.runId))
            && (e.runId !in b.history ==> SeenOf(Load(b, e.runId), e.runId) == {})
  {
    if e.runId !in b.history {
      assert Unmet([], b.store.ids) == [];
    }
  }

  // ---- Causes and traces ----

  lemma AdvancedKeepsTrace(b: Bus, e: Event, runId: string)
    requires runId in b.traces
    ensures runId in Advanced(b, e).traces && Advanced(b, e).traces[runId] == b.traces[runId]
  {
  }

  lemma AcceptKeepsTraces(b: Bus, e: Event)
    ensures Accept(b, e).0.traces == b.traces
  {
  }

  lemma EmitKeepsTrace(b: Bus, r: string, draft: Draft, newId: string, newTrace: string, runId: string)
    requires runId in b.traces && runId in b.history
    ensures var b' := Emit(b, r, draft, newId, newTrace).0; runId in b'.traces && b'.traces[runId] == b.traces[runId]
  {
    var loaded := Load(b, r);
    AcceptKeepsTraces(Numbered(loaded, r, newTrace), Created(loaded, r, draft, newId, newTrace));
  }

  lemma IngestKeepsTrace(b: Bus, e: Event, runId: string)
    requires runId in b.traces && runId in b.history
    ensures var b' := Ingest(b, e).0; runId in b'.traces && b'.traces[runId] == b.traces[runId]
  {
    hide Accept, Advanced;
    var loaded := Load(b, e.runId);
    AcceptKeepsTraces(loaded, e);
    AdvancedKeepsTrace(Accept(loaded, e).0, e, runId);
  }

  /** A run's trace id, once known to a process, never changes in it: all its emitted events share one trace. */
  lemma {:induction false} TraceIsKept(b: Bus, op: Op, runId: string)
    requires runId in b.traces && runId in b.history && !op.Restart?
    ensures runId in Apply(b, op).traces && Apply(b, op).traces[runId] == b.traces[runId]
  {
    hide Emit, Ingest;
    match op
    case DoEmit(r, draft, newId, newTrace) => EmitKeepsTrace(b, r, draft, newId, newTrace, runId);
    case DoIngest(e) => IngestKeepsTrace(b, e, runId);
    case _ =>
  }

  /** Event k of the history names the event before it as its cause and carries this trace. */
  predicate IsLink(h: seq<Event>, k: nat, trace: string)
    requires k < |h|
  {
    h[k].causation == (if k == 0 then None else Some(h[k - 1].id)) && h[k].trace == Some(trace)
  }

  ghost predicate WasIngested(ops: seq<Op>, e: Event) {
    exists i :: 0 <= i < |ops| && ops[i] == DoIngest(e)
  }

  /** Some emit asked for this event: its content and its id are the caller's. */
  ghost predicate WasEmitted(ops: seq<Op>, e: Event) {
    exists i :: 0 <= i < |ops| && EmitsAs(ops[i], e)
  }

  predicate EmitsAs(op: Op, e: Event) {
    && op.DoEmit? && op.runId == e.runId && op.newId == e.id
    && op.draft.content == e.content && !op.draft.contradictory
  }

  /** What one operation does to the history and trace of a loaded run. */
  lemma HistoryGrowsBy(b: Bus, op: Op, runId: string)
    requires runId in b.history && !op.Restart?
    ensures var b' := Apply(b, op);
            && runId in b'.history
            && (b'.history[runId] == b.history[runId]
                || (&& |b'.history[runId]| == |b.history[runId]| + 1
                    && b'.history[runId][..|b.history[runId]|] == b.history[runId]
                    && (op == DoIngest(b'.history[runId][|b.history[runId]|])
                        || (&& EmitsAs(op, b'.history[runId][|b.history[runId]|]) && runId in b'.traces
                            && IsLink(b'.history[runId], |b.history[runId]|, b'.traces[runId])))))
  {
    hide Accept;
    match op
    case DoEmit(r, draft, newId, newTrace) =>
      var loaded := Load(b, r);
      AcceptKeepsOthers(Numbered(loaded, r, newTrace), Created(loaded, r, draft, newId, newTrace));
      AcceptKeepsTraces(Numbered(loaded, r, newTrace), Created(loaded, r, draft, newId, newTrace));
    case DoIngest(e) => AcceptKeepsOthers(Load(b, e.runId), e);
    case _ =>
  }

  /**
   * The events a process adds to a run form one chain: each is one it ingested as it came, or one a caller emitted,
   * with that caller's id and content, naming the event before it as its cause under one and the same trace.
   */
  lemma {:induction false} EmittedEventsFormOneChain(b: Bus, ops: seq<Op>, runId: string)
    requires runId in b.history && runId in b.traces && forall op :: op in ops ==> !op.Restart?
    ensures var b' := ApplyAll(b, ops);
            && runId in b'.history && runId in b'.traces && b'.traces[runId] == b.traces[runId]
            && b.history[runId] <= b'.history[runId]
            && (forall k :: |b.history[runId]| <= k < |b'.history[runId]| ==>
                  || WasIngested(ops, b'.history[runId][k])
                  || (WasEmitted(ops, b'.history[runId][k]) && IsLink(b'.history[runId], k, b.traces[runId])))
  {
    hide Apply;
    if ops != [] {
      var init, op := ops[..|ops| - 1], ops[|ops| - 1];
      var before := ApplyAll(b, init);
      EmittedEventsFormOneChain(b, init, runId);
      HistoryGrowsBy(before, op, runId);
      TraceIsKept(before, op, runId);
      var h, h' := before.history[runId], Apply(before, op).history[runId];
      forall k | |b.history[runId]| <= k < |h'|
        ensures WasIngested(ops, h'[k]) || (WasEmitted(ops, h'[k]) && IsLink(h', k, b.traces[runId]))
      {
        if k < |h| {
          assert h'[k] == h[k] && (k > 0 ==> h'[k - 1] == h[k - 1]);
          OpsGrow(init, op, h[k]);
          assert init + [op] == ops;
        } else {
          assert ops[|init|] == op;
        }
      }
    }
  }

  lemma OpsGrow(init: seq<Op>, op: Op, e: Event)
    ensures WasIngested(init, e) ==> WasIngested(init + [op], e)
    ensures WasEmitted(init, e) ==> WasEmitted(init + [op], e)
  {
    var ops := init + [op];
    if i :| 0 <= i < |init| && init[i] == DoIngest(e) {
      assert ops[i] == DoIngest(e);
    }
    if i :| 0 <= i < |init| && EmitsAs(init[i], e) {
      assert EmitsAs(ops[i], e);
    }
  }
}
