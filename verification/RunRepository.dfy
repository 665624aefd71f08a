/**
 * The run repository: every process keeps a cache over one shared directory of run snapshots and trusts it
 * until the file's modification time moves.
 */
module RunRepository {
  import opened Wrappers

  datatype Status = Running | Done

  datatype EventRecord = EventRecord(id: string, processor: string)

  datatype Snapshot = Snapshot(
    status: Status,
    events: seq<EventRecord>,
    artifacts: map<string, string>,
    processor: Option<string>,
    result: Option<TestResult>,
    hashProof: Option<string>,
    rootCause: Option<string>,
    issueType: Option<IssueType>,
    helpRequest: Option<string>)

  datatype Finish = Finish(
    result: TestResult, hashProof: Option<string>, rootCause: Option<string>, helpRequest: Option<string>,
    issueType: Option<IssueType>)

  datatype Op =
    | Create(runId: string)
    | Get(runId: string)
    | AddEvent(runId: string, event: EventRecord)
    | SetArtifact(runId: string, name: string, path: string)
    | RemoveArtifact(runId: string, name: string)
    | FinishRun(runId: string, finish: Finish)

  datatype Outcome =
    | Returned(snapshot: Option<Snapshot>)
    | Threw

  // ---- What each operation does to a snapshot ----

  function NewSnapshot(): Snapshot {
    Snapshot(Running, [], map[], None, None, None, None, None, None)
  }

  predicate Contradictory(f: Finish) {
    || (f.result == Failed && f.rootCause.None?)
    || (f.result == Passed && (f.rootCause.Some? || f.issueType.Some?))
  }

  function Finished(r: Snapshot, f: Finish): Snapshot {
    r.(status := Done, result := Some(f.result), hashProof := f.hashProof, rootCause := f.rootCause,
       issueType := if f.rootCause.None? then None
                    else if f.issueType.Some? then f.issueType else Some(RootCause),
       helpRequest := f.helpRequest)
  }

  /** The new snapshot an operation writes, or None when it writes nothing. */
  function Written(r: Snapshot, op: Op): Option<Snapshot> {
    match op
    case Create(_) => Some(NewSnapshot())
    case Get(_) => None
    case AddEvent(_, e) => Some(r.(events := r.events + [e], processor := Some(e.processor)))
    case SetArtifact(_, name, path) => Some(r.(artifacts := r.artifacts[name := path]))
    case RemoveArtifact(_, name) =>
      if name in r.artifacts then Some(r.(artifacts := r.artifacts - {name})) else None
    case FinishRun(_, f) => Some(Finished(r, f))
  }

  // ---- The shared map every process should seem to use ----

  function SpecApply(shared: map<string, Snapshot>, op: Op): (map<string, Snapshot>, Outcome) {
    var runId := op.runId;
    if op.FinishRun? && Contradictory(op.finish) then (shared, Threw)
    else if op.Create? then (shared[runId := NewSnapshot()], Returned(Some(NewSnapshot())))
    else if op.Get? then (shared, Returned(if runId in shared then Some(shared[runId]) else None))
    else if runId !in shared then (shared, Threw)
    else
      match Written(shared[runId], op)
      case None => (shared, Returned(Some(shared[runId])))
      case Some(r) => (shared[runId := r], Returned(Some(r)))
  }

  // ---- The files and one process's cache ----

  datatype File = File(snapshot: Snapshot, mtime: nat)

  datatype Cache = Cache(runs: map<string, Snapshot>, mtimes: map<string, nat>)

  function Known(c: Cache, runId: string): nat {
    if runId in c.mtimes then c.mtimes[runId] else 0
  }

  predicate MustReload(files: map<string, File>, c: Cache, runId: string) {
    runId in files && (runId !in c.runs || files[runId].mtime > Known(c, runId))
  }

  function Refreshed(files: map<string, File>, c: Cache, runId: string): Cache {
    if MustReload(files, c, runId)
    then Cache(c.runs[runId := files[runId].snapshot], c.mtimes[runId := files[runId].mtime])
    else c
  }

  function Lookup(c: Cache, runId: string): Option<Snapshot> {
    if runId in c.runs then Some(c.runs[runId]) else None
  }

  function Stored(c: Cache, runId: string, r: Snapshot, at: nat): Cache {
    Cache(c.runs[runId := r], c.mtimes[runId := at])
  }

  datatype Local = Local(files: map<string, File>, cache: Cache)

  /** One method call of one process; a write leaves its file with modification time `at`. */
  function Call(l: Local, op: Op, at: nat): (Local, Outcome) {
    var runId := op.runId;
    if op.FinishRun? && Contradictory(op.finish) then (l, Threw)
    else if op.Create? then
      (Local(l.files[runId := File(NewSnapshot(), at)], Stored(l.cache, runId, NewSnapshot(), at)),
       Returned(Some(NewSnapshot())))
    else
      var cache := Refreshed(l.files, l.cache, runId);
      match Lookup(cache, runId)
      case None => (Local(l.files, cache), if op.Get? then Returned(None) else Threw)
      case Some(r) =>
        match Written(r, op)
        case None => (Local(l.files, cache), Returned(Some(r)))
        case Some(w) => (Local(l.files[runId := File(w, at)], Stored(cache, runId, w, at)), Returned(Some(w)))
  }

  // ---- The repository as an object ----

  class RunDirectory {
    var files: map<string, File>

    constructor ()
      ensures files == map[]
    {
      files := map[];
    }
  }

  class Repository {
    const root: RunDirectory
    var runs: map<string, Snapshot>
    var diskMtimes: map<string, nat>

    ghost function View(): Local
      reads this, root
    {
      Local(root.files, Cache(runs, diskMtimes))
    }

    constructor (root: RunDirectory)
      ensures this.root == root && View() == Local(root.files, Cache(map[], map[]))
    {
      this.root := root;
      runs, diskMtimes := map[], map[];
    }

    method Persist(runId: string, r: Snapshot, at: nat)
      modifies this, root
      ensures View() == Local(old(root.files)[runId := File(r, at)], Stored(old(View()).cache, runId, r, at))
    {
      runs := runs[runId := r];
      root.files := root.files[runId := File(r, at)];
      diskMtimes := diskMtimes[runId := at];
    }

    method CreateRun(runId: string, at: nat) returns (r: Snapshot)
      modifies this, root
      ensures (View(), Returned(Some(r))) == Call(old(View()), Create(runId), at)
    {
      r := NewSnapshot();
      Persist(runId, r, at);
    }

    method GetRun(runId: string) returns (r: Option<Snapshot>)
      modifies this
      ensures View() == Local(root.files, Refreshed(root.files, old(View()).cache, runId))
      ensures r == Lookup(View().cache, runId)
      ensures forall at: nat :: (View(), Returned(r)) == Call(old(View()), Get(runId), at)
    {
      if runId in root.files {
        var diskMtime := root.files[runId].mtime;
        var known := if runId in diskMtimes then diskMtimes[runId] else 0;
        if runId !in runs || diskMtime > known {
          runs := runs[runId := root.files[runId].snapshot];
          diskMtimes := diskMtimes[runId := diskMtime];
          return Some(runs[runId]);
        }
        return Some(runs[runId]);
      }
      r := if runId in runs then Some(runs[runId]) else None;
    }

    method AddRunEvent(runId: string, event: EventRecord, at: nat) returns (o: Outcome)
      modifies this, root
      ensures (View(), o) == Call(old(View()), AddEvent(runId, event), at)
      ensures var seen := Lookup(Refreshed(old(root.files), old(View()).cache, runId), runId);
              if seen.None? then o == Threw
              else
                var s := seen.value.(events := seen.value.events + [event], processor := Some(event.processor));
                o == Returned(Some(s)) && root.files == old(root.files)[runId := File(s, at)]
    {
      var r := GetRun(runId);
      if r.None? {
        return Threw;
      }
      var s := r.value.(events := r.value.events + [event], processor := Some(event.processor));
      Persist(runId, s, at);
      return Returned(Some(s));
    }

    method SetRunArtifact(runId: string, name: string, path: string, at: nat) returns (o: Outcome)
      modifies this, root
      ensures (View(), o) == Call(old(View()), SetArtifact(runId, name, path), at)
    {
      var r := GetRun(runId);
      if r.None? {
        return Threw;
      }
      var s := r.value.(artifacts := r.value.artifacts[name := path]);
      Persist(runId, s, at);
      return Returned(Some(s));
    }

    method RemoveRunArtifact(runId: string, name: string, at: nat) returns (o: Outcome)
      modifies this, root
      ensures (View(), o) == Call(old(View()), RemoveArtifact(runId, name), at)
    {
      var r := GetRun(runId);
      if r.None? {
        return Threw;
      }
      if name !in r.value.artifacts {
        return Returned(r);
      }
      var s := r.value.(artifacts := r.value.artifacts - {name});
      Persist(runId, s, at);
      return Returned(Some(s));
    }

    method FinishOnce(runId: string, f: Finish, at: nat) returns (o: Outcome)
      modifies this, root
      ensures (View(), o) == Call(old(View()), FinishRun(runId, f), at)
      ensures var seen := Lookup(Refreshed(old(root.files), old(View()).cache, runId), runId);
              if !Accepted(f) || seen.None? then o == Threw
              else
                && o.Returned? && o.snapshot.Some? && Records(o.snapshot.value, Some(f))
                && o.snapshot.value.events == seen.value.events && o.snapshot.value.artifacts == seen.value.artifacts
                && root.files == old(root.files)[runId := File(o.snapshot.value, at)]
    {
      if f.result == Failed && f.rootCause.None? {
        return Threw;
      }
      if f.result == Passed && (f.rootCause.Some? || f.issueType.Some?) {
        return Threw;
      }
      var r := GetRun(runId);
      if r.None? {
        return Threw;
      }
      var issueType :=
        if f.rootCause.None? then None
        else if f.issueType.Some? then f.issueType else Some(RootCause);
      var s := r.value.(status := Done, result := Some(f.result), hashProof := f.hashProof, rootCause := f.rootCause,
                        issueType := issueType, helpRequest := f.helpRequest);
      Persist(runId, s, at);
      return Returned(Some(s));
    }
  }

  // ---- Many processes ----

  datatype World = World(files: map<string, File>, caches: map<nat, Cache>)

  datatype Step =
    | Do(process: nat, op: Op, at: nat)
    | RestartProcess(process: nat)

  function CacheOf(w: World, process: nat): Cache {
    if process in w.caches then w.caches[process] else Cache(map[], map[])
  }

  function Act(w: World, step: Step): (World, seq<Outcome>) {
    match step
    case RestartProcess(p) => (w.(caches := w.caches - {p}), [])
    case Do(p, op, at) =>
      var (l, o) := Call(Local(w.files, CacheOf(w, p)), op, at);
      (World(l.files, w.caches[p := l.cache]), [o])
  }

  function Shared(w: World): map<string, Snapshot> {
    map runId | runId in w.files :: w.files[runId].snapshot
  }

  /** A cache holds only runs on disk, never knows a newer file, and is exact when it knows the current one. */
  predicate Coherent(files: map<string, File>, c: Cache) {
    && c.runs.Keys == c.mtimes.Keys
    && c.runs.Keys <= files.Keys
    && (forall r :: r in c.runs ==>
          c.mtimes[r] <= files[r].mtime && (c.mtimes[r] == files[r].mtime ==> c.runs[r] == files[r].snapshot))
  }

  predicate WorldInv(w: World) {
    forall p :: p in w.caches ==> Coherent(w.files, w.caches[p])
  }

  /** Every write leaves a modification time above that of the file it replaces. */
  predicate LaterWrite(w: World, step: Step) {
    step.Do? && step.op.runId in w.files ==> step.at > w.files[step.op.runId].mtime
  }

  lemma RefreshedIsCurrent(files: map<string, File>, c: Cache, runId: string)
    requires Coherent(files, c)
    ensures Coherent(files, Refreshed(files, c, runId))
    ensures Lookup(Refreshed(files, c, runId), runId) == if runId in files then Some(files[runId].snapshot) else None
  {
  }

  lemma WriteKeepsCoherent(files: map<string, File>, c: Cache, runId: string, r: Snapshot, at: nat)
    requires Coherent(files, c) && (runId in files ==> at > files[runId].mtime)
    ensures Coherent(files[runId := File(r, at)], c)
    ensures Coherent(files[runId := File(r, at)], Stored(c, runId, r, at))
  {
  }

  lemma {:induction false} CallRefines(l: Local, op: Op, at: nat, shared: map<string, Snapshot>)
    requires Coherent(l.files, l.cache) && (op.runId in l.files ==> at > l.files[op.runId].mtime)
    requires shared == map runId | runId in l.files :: l.files[runId].snapshot
    ensures var (l', o) := Call(l, op, at);
            var (shared', o') := SpecApply(shared, op);
            && o == o'
            && shared' == (map runId | runId in l'.files :: l'.files[runId].snapshot)
            && Coherent(l'.files, l'.cache)
            && (l'.files == l.files || exists r :: l'.files == l.files[op.runId := File(r, at)])
  {
    hide Coherent, Refreshed, Finished;
    RefreshedIsCurrent(l.files, l.cache, op.runId);
    var cache := Refreshed(l.files, l.cache, op.runId);
    if op.Create? {
      WriteKeepsCoherent(l.files, l.cache, op.runId, NewSnapshot(), at);
    } else if Lookup(cache, op.runId).Some? && !(op.FinishRun? && Contradictory(op.finish)) {
      var written := Written(Lookup(cache, op.runId).value, op);
      if written.Some? {
        WriteKeepsCoherent(l.files, cache, op.runId, written.value, at);
        var files := l.files[op.runId := File(written.value, at)];
        assert Call(l, op, at).0.files == files;
        assert shared[op.runId := written.value] == map runId | runId in files :: files[runId].snapshot;
      }
    }
  }

  lemma EmptyIsCoherent(files: map<string, File>)
    ensures Coherent(files, Cache(map[], map[]))
  {
  }

  lemma ActRefines(w: World, step: Step)
    requires WorldInv(w) && LaterWrite(w, step)
    ensures WorldInv(Act(w, step).0)
    ensures step.Do? ==> SpecApply(Shared(w), step.op) == (Shared(Act(w, step).0), Act(w, step).1[0])
    ensures step.RestartProcess? ==> Shared(Act(w, step).0) == Shared(w)
  {
    if step.Do? {
      hide Coherent, Call, SpecApply;
      EmptyIsCoherent(w.files);
      hide Written;
      var l := Local(w.files, CacheOf(w, step.process));
      CallRefines(l, step.op, step.at, Shared(w));
      var l' := Call(l, step.op, step.at).0;
      if l'.files != l.files {
        var r :| l'.files == l.files[step.op.runId := File(r, step.at)];
        WriteKeepsOthers(w, step, r);
      }
    }
  }

  lemma WriteKeepsOthers(w: World, step: Step, r: Snapshot)
    requires WorldInv(w) && LaterWrite(w, step) && step.Do?
    ensures WorldInv(w.(files := w.files[step.op.runId := File(r, step.at)]))
  {
    hide Coherent;
    forall p | p in w.caches ensures Coherent(w.files[step.op.runId := File(r, step.at)], w.caches[p]) {
      WriteKeepsCoherent(w.files, w.caches[p], step.op.runId, r, step.at);
    }
  }

  // ---- Refinement over every interleaving ----

  function RunAll(steps: seq<Step>): (World, seq<Outcome>) {
    if steps == [] then (World(map[], map[]), [])
    else
      var (w, outcomes) := RunAll(steps[..|steps| - 1]);
      var (w', more) := Act(w, steps[|steps| - 1]);
      (w', outcomes + more)
  }

  function SpecAll(steps: seq<Step>): (map<string, Snapshot>, seq<Outcome>) {
    if steps == [] then (map[], [])
    else
      var (shared, outcomes) := SpecAll(steps[..|steps| - 1]);
      match steps[|steps| - 1]
      case RestartProcess(_) => (shared, outcomes)
      case Do(_, op, _) =>
        var (shared', o) := SpecApply(shared, op);
        (shared', outcomes + [o])
  }

  predicate EveryWriteIsLater(steps: seq<Step>) {
    steps == [] || (EveryWriteIsLater(steps[..|steps| - 1])
                    && LaterWrite(RunAll(steps[..|steps| - 1]).0, steps[|steps| - 1]))
  }

  /** Any interleaving over any number of processes returns what one shared map would return. */
  lemma {:induction false} ProcessesShareOneMap(steps: seq<Step>)
    requires EveryWriteIsLater(steps)
    ensures WorldInv(RunAll(steps).0)
    ensures SpecAll(steps) == (Shared(RunAll(steps).0), RunAll(steps).1)
  {
    if steps != [] {
      ProcessesShareOneMap(steps[..|steps| - 1]);
      var w, outcomes := RunAll(steps[..|steps| - 1]).0, RunAll(steps[..|steps| - 1]).1;
      ActRefines(w, steps[|steps| - 1]);
      assert outcomes + [] == outcomes;
    }
  }

  // ---- What a run's snapshot holds, told from the calls alone ----

  predicate Creates(step: Step, runId: string) {
    step.Do? && step.op == Create(runId)
  }

  predicate WasCreated(steps: seq<Step>, runId: string) {
    exists i :: 0 <= i < |steps| && Creates(steps[i], runId)
  }

  /** The events added since the run was last created, in order. */
  function EventsOf(steps: seq<Step>, runId: string): seq<EventRecord> {
    if steps == [] then []
    else
      var before := EventsOf(steps[..|steps| - 1], runId);
      match steps[|steps| - 1]
      case Do(_, Create(id), _) => if id == runId then [] else before
      case Do(_, AddEvent(id, e), _) => if id == runId then before + [e] else before
      case _ => before
  }

  /** The path last set under this name since the run was last created, unless it was removed since. */
  function PathOf(steps: seq<Step>, runId: string, name: string): Option<string> {
    if steps == [] then None
    else
      var before := PathOf(steps[..|steps| - 1], runId, name);
      match steps[|steps| - 1]
      case Do(_, Create(id), _) => if id == runId then None else before
      case Do(_, SetArtifact(id, other, path), _) => if id == runId && other == name then Some(path) else before
      case Do(_, RemoveArtifact(id, other), _) => if id == runId && other == name then None else before
      case _ => before
  }

  /** A failure carries its root cause, and a pass carries no issue. */
  predicate Accepted(f: Finish) {
    match f.result
    case Failed => f.rootCause.Some?
    case Passed => f.rootCause.None? && f.issueType.None?
  }

  /** The last accepted finish since the run was last created. */
  function FinishOf(steps: seq<Step>, runId: string): Option<Finish> {
    if steps == [] then None
    else
      var before := FinishOf(steps[..|steps| - 1], runId);
      match steps[|steps| - 1]
      case Do(_, Create(id), _) => if id == runId then None else before
      case Do(_, FinishRun(id, f), _) => if id == runId && Accepted(f) then Some(f) else before
      case _ => before
  }

  /** The terminal fields are those of this finish; a failure without a type is a root cause. */
  predicate Records(s: Snapshot, finish: Option<Finish>) {
    match finish
    case None =>
      && s.status == Running && s.result.None? && s.hashProof.None?
      && s.rootCause.None? && s.issueType.None? && s.helpRequest.None?
    case Some(f) =>
      && s.status == Done && s.result == Some(f.result) && s.hashProof == f.hashProof
      && s.rootCause == f.rootCause && s.helpRequest == f.helpRequest
      && (f.rootCause.None? ==> s.issueType.None?)
      && (f.rootCause.Some? ==> s.issueType == Some(if f.issueType.Some? then f.issueType.value else RootCause))
  }

  predicate HoldsEvents(s: Snapshot, events: seq<EventRecord>) {
    s.events == events && s.processor == if events == [] then None else Some(events[|events| - 1].processor)
  }

  ghost predicate HoldsPaths(s: Snapshot, steps: seq<Step>, runId: string) {
    forall name :: PathOf(steps, runId, name) == if name in s.artifacts then Some(s.artifacts[name]) else None
  }

  /** Every field of the snapshot follows from the calls on its run. */
  ghost predicate IsHistory(steps: seq<Step>, runId: string, s: Snapshot) {
    && HoldsEvents(s, EventsOf(steps, runId)) && HoldsPaths(s, steps, runId) && Records(s, FinishOf(steps, runId))
  }

  lemma CreatedAfter(steps: seq<Step>, step: Step, runId: string)
    ensures WasCreated(steps + [step], runId) <==> WasCreated(steps, runId) || Creates(step, runId)
  {
    var all := steps + [step];
    assert Creates(step, runId) ==> Creates(all[|steps|], runId);
    if i :| 0 <= i < |steps| && Creates(steps[i], runId) {
      assert Creates(all[i], runId);
    }
  }

  lemma EventsFollow(steps: seq<Step>, step: Step, shared: map<string, Snapshot>, runId: string)
    requires step.Do? && (runId in shared ==> HoldsEvents(shared[runId], EventsOf(steps, runId)))
    ensures var shared' := SpecApply(shared, step.op).0;
            runId in shared' ==> HoldsEvents(shared'[runId], EventsOf(steps + [step], runId))
  {
    assert (steps + [step])[..|steps|] == steps;
  }

  lemma PathsFollow(steps: seq<Step>, step: Step, shared: map<string, Snapshot>, runId: string)
    requires step.Do? && (runId in shared ==> HoldsPaths(shared[runId], steps, runId))
    ensures var shared' := SpecApply(shared, step.op).0;
            runId in shared' ==> HoldsPaths(shared'[runId], steps + [step], runId)
  {
    assert (steps + [step])[..|steps|] == steps;
  }

  lemma FinishFollows(steps: seq<Step>, step: Step, shared: map<string, Snapshot>, runId: string)
    requires step.Do? && (runId in shared ==> Records(shared[runId], FinishOf(steps, runId)))
    ensures var shared' := SpecApply(shared, step.op).0;
            runId in shared' ==> Records(shared'[runId], FinishOf(steps + [step], runId))
  {
    assert (steps + [step])[..|steps|] == steps;
  }

  /** One call keeps the snapshot in step with the calls. */
  lemma SpecStepIsHistory(steps: seq<Step>, step: Step, shared: map<string, Snapshot>, runId: string)
    requires step.Do? && (runId in shared ==> IsHistory(steps, runId, shared[runId]))
    ensures var shared' := SpecApply(shared, step.op).0;
            && (runId in shared' <==> runId in shared || Creates(step, runId))
            && (runId in shared' ==> IsHistory(steps + [step], runId, shared'[runId]))
  {
    hide HoldsEvents, HoldsPaths, Records, Written, EventsOf, FinishOf;
    EventsFollow(steps, step, shared, runId);
    PathsFollow(steps, step, shared, runId);
    FinishFollows(steps, step, shared, runId);
  }

  lemma {:induction false} SpecIsHistory(steps: seq<Step>, runId: string)
    ensures runId in SpecAll(steps).0 <==> WasCreated(steps, runId)
    ensures runId in SpecAll(steps).0 ==> IsHistory(steps, runId, SpecAll(steps).0[runId])
  {
    if steps != [] {
      var before, step := steps[..|steps| - 1], steps[|steps| - 1];
      assert before + [step] == steps;
      SpecIsHistory(before, runId);
      CreatedAfter(before, step, runId);
      if step.Do? {
        hide IsHistory, WasCreated, SpecApply;
        SpecStepIsHistory(before, step, SpecAll(before).0, runId);
      }
    }
  }

  /**
   * Over any interleaving of any number of processes, restarts included, the file of a run exists exactly once some
   * process created it, and holds the events, artifacts and last accepted finish of the calls since then.
   */
  lemma {:induction false} FileIsTheHistory(steps: seq<Step>, runId: string)
    requires EveryWriteIsLater(steps)
    ensures var files := RunAll(steps).0.files;
            && (runId in files <==> WasCreated(steps, runId))
            && (runId in files ==> IsHistory(steps, runId, files[runId].snapshot))
  {
    hide IsHistory, WasCreated;
    ProcessesShareOneMap(steps);
    SpecIsHistory(steps, runId);
  }

  /**
   * A call throws exactly on a finish that contradicts itself or a write to a run never created; any other returns
   * this history, its own effect included.
   */
  lemma {:induction false} CallsReturnTheHistory(steps: seq<Step>, process: nat, op: Op, at: nat)
    requires EveryWriteIsLater(steps) && LaterWrite(RunAll(steps).0, Do(process, op, at))
    ensures var o, all := Act(RunAll(steps).0, Do(process, op, at)).1[0], steps + [Do(process, op, at)];
            && (o.Threw? <==> || (op.FinishRun? && !Accepted(op.finish))
                              || (!op.Create? && !op.Get? && !WasCreated(steps, op.runId)))
            && (o.Returned? ==>
                  && (o.snapshot.Some? <==> WasCreated(all, op.runId))
                  && (o.snapshot.Some? ==> IsHistory(all, op.runId, o.snapshot.value)))
  {
    var step := Do(process, op, at);
    hide IsHistory, WasCreated;
    ProcessesShareOneMap(steps);
    ActRefines(RunAll(steps).0, step);
    SpecIsHistory(steps, op.runId);
    CreatedAfter(steps, step, op.runId);
    SpecStepIsHistory(steps, step, SpecAll(steps).0, op.runId);
    hide Act, RunAll, SpecAll;
    OutcomeIsStored(SpecAll(steps).0, op);
  }

  lemma OutcomeIsStored(shared: map<string, Snapshot>, op: Op)
    ensures var (shared', o) := SpecApply(shared, op);
            && (o.Returned? ==> o.snapshot == if op.runId in shared' then Some(shared'[op.runId]) else None)
            && (o.Threw? <==> || (op.FinishRun? && !Accepted(op.finish))
                              || (!op.Create? && !op.Get? && op.runId !in shared))
  {
  }

  /** What one process writes, another that had the file cached sees exactly when the modification time moved on. */
  lemma {:induction false} OtherProcessSeesIff(l: Local, runId: string, written: Snapshot, at: nat)
    requires runId in l.files && runId in l.cache.runs && runId in l.cache.mtimes
    requires l.cache.mtimes[runId] == l.files[runId].mtime && l.cache.runs[runId] == l.files[runId].snapshot
    requires written != l.files[runId].snapshot
    ensures var after := Local(l.files[runId := File(written, at)], l.cache);
            Call(after, Get(runId), 0).1 == Returned(Some(written)) <==> at > l.files[runId].mtime
  {
  }

  /** Two writes within one clock tick: the second process never sees the finish and then undoes it. */
  lemma {:induction false} SameTickLosesTheFinish()
    ensures var passed := Finish(Passed, None, None, None, None);
            var steps := [Do(0, Create("run"), 7), Do(1, Get("run"), 7), Do(0, FinishRun("run", passed), 7),
                          Do(1, AddEvent("run", EventRecord("e", "Done")), 7)];
            && "run" in RunAll(steps).0.files && RunAll(steps).0.files["run"].snapshot.status == Running
            && "run" in SpecAll(steps).0 && SpecAll(steps).0["run"].status == Done
  {
    var passed := Finish(Passed, None, None, None, None);
    var s0, s1 := Do(0, Create("run"), 7), Do(1, Get("run"), 7);
    var s2, s3 := Do(0, FinishRun("run", passed), 7), Do(1, AddEvent("run", EventRecord("e", "Done")), 7);
    BothHoldTheNewRun();
    RunSnoc([s0, s1], s2);
    RunSnoc([s0, s1, s2], s3);
    assert [s0, s1] + [s2] == [s0, s1, s2] && [s0, s1, s2] + [s3] == [s0, s1, s2, s3];
    hide RunAll, SpecAll;
  }

  lemma BothHoldTheNewRun()
    ensures var cache := Cache(map["run" := NewSnapshot()], map["run" := 7]);
            var steps := [Do(0, Create("run"), 7), Do(1, Get("run"), 7)];
            && RunAll(steps).0 == World(map["run" := File(NewSnapshot(), 7)], map[0 := cache, 1 := cache])
            && SpecAll(steps).0 == map["run" := NewSnapshot()]
  {
    var s0, s1 := Do(0, Create("run"), 7), Do(1, Get("run"), 7);
    RunSnoc([], s0);
    RunSnoc([s0], s1);
    assert [] + [s0] == [s0] && [s0] + [s1] == [s0, s1];
  }

  lemma RunSnoc(steps: seq<Step>, step: Step)
    ensures RunAll(steps + [step]).0 == Act(RunAll(steps).0, step).0
    ensures step.Do? ==> SpecAll(steps + [step]).0 == SpecApply(SpecAll(steps).0, step.op).0
  {
    assert (steps + [step])[..|steps|] == steps;
  }
}
