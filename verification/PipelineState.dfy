/**
 * The durable state of one run: its Redis keys, its queue, its artifacts and its snapshot. Every key,
 * job id and artifact path carries the run id, so runs never share state and the model holds one run.
 */
module PipelineState {
  import opened Wrappers
  import opened Numerals
  import opened Stages

  datatype Mark = Pending | Committed

  /** The key `stage:<stage>:<iteration>:completed`; the stage part is free text. */
  datatype CompletedKey = CompletedKey(stage: string, iteration: nat)

  datatype Triple = Triple(allValid: bool, schema: TestResult, fixture: TestResult, goal: TestResult)

  /** A confirmed package: the validation it carries, and everything else about it as one content value. */
  datatype Package = Package(content: int, triple: Triple)

  datatype Gate = Gate(pkg: Package, hash: string)

  datatype BuildResult = BuildResult(result: TestResult, sandboxHash: Option<string>)

  datatype Snapshot =
    | Running
    | Finished(result: TestResult, rootCause: Option<string>, issueType: Option<IssueType>)

  datatype Shared = Shared(
    outcomes: map<Identity, Outcome>,
    executed: set<Identity>,
    marks: map<Identity, Mark>,
    leases: map<Identity, nat>,
    completed: set<CompletedKey>,
    revision: nat,
    planGate: bool,
    builderIntent: bool,
    finalization: Option<Issue>,
    terminalState: Option<Mark>,
    terminalIssue: Option<Option<Issue>>,
    jobs: set<Identity>,
    triple: Option<Triple>,
    confirmed: Option<Package>,
    gate: Option<Gate>,
    approval: Option<string>,
    proof: Option<Proof>,
    buildResult: Option<BuildResult>,
    snapshot: Snapshot,
    doneEvents: nat)

  /** The state just after submission: a running snapshot and the first Researcher job. */
  function Submitted(): Shared {
    Shared(map[], {}, map[], map[], {}, 0, false, false, None, None, None,
           {Identity(Researcher, 0)}, None, None, None, None, None, None, Running, 0)
  }

  // ---- Redis: the two Lua scripts, SET NX and plain SET ----

  /** SAVE_EXECUTION_SCRIPT: outcome and executed marker together, refused unless the token is stored. */
  function SaveExecution(sh: Shared, id: Identity, outcome: Outcome, token: Option<nat>): (r: (Shared, bool)) {
    if token.Some? && !(id in sh.leases && sh.leases[id] == token.value) then (sh, false)
    else (sh.(outcomes := sh.outcomes[id := outcome], executed := sh.executed + {id}), true)
  }

  function AcquireLease(sh: Shared, id: Identity, token: nat): (Shared, bool) {
    if id in sh.leases then (sh, false) else (sh.(leases := sh.leases[id := token]), true)
  }

  /** RELEASE_LOCK_SCRIPT: delete the lease only while it still stores this token. */
  function ReleaseLease(sh: Shared, id: Identity, token: nat): (Shared, bool) {
    if id in sh.leases && sh.leases[id] == token then (sh.(leases := sh.leases - {id}), true) else (sh, false)
  }

  /** The lease is taken on `<stage>:<iteration>`; its completed check reads that name at iteration 0. */
  function LeaseStage(id: Identity): string {
    StageName(id.stage) + ":" + Decimal(id.iteration)
  }

  predicate AcquireSeesCompleted(sh: Shared, id: Identity) {
    CompletedKey(LeaseStage(id), 0) in sh.completed
  }

  function MarkCompleted(sh: Shared, id: Identity): Shared {
    sh.(completed := sh.completed + {CompletedKey(StageName(id.stage), id.iteration)})
  }

  function SetMark(sh: Shared, id: Identity, mark: Mark): Shared {
    sh.(marks := sh.marks[id := mark])
  }

  function MarkTerminalPending(sh: Shared): (Shared, bool) {
    if sh.terminalState.Some? then (sh, false) else (sh.(terminalState := Some(Pending)), true)
  }

  function RecordBuilderIntent(sh: Shared): (Shared, bool) {
    if sh.builderIntent then (sh, false) else (sh.(builderIntent := true), true)
  }

  function SetPlanGate(sh: Shared): (Shared, bool) {
    if sh.planGate then (sh, false) else (sh.(planGate := true), true)
  }

  /** Adding a job whose deterministic id is already queued changes nothing. */
  function Enqueue(sh: Shared, id: Identity): Shared {
    sh.(jobs := sh.jobs + {id})
  }

  // ---- Run snapshot ----

  const ABSENT_EVIDENCE: string := "Finalize received a failed result without structured evidence"

  /** What a finished run records: a failed one always carries a root cause, a passed one never does. */
  function FinishedSnapshot(result: TestResult, issue: Option<Issue>): Snapshot {
    match result
    case Passed => Finished(Passed, None, None)
    case Failed =>
      match issue
      case Some(i) => Finished(Failed, Some(i.evidence), Some(i.issueType))
      case None => Finished(Failed, Some(ABSENT_EVIDENCE), Some(RootCause))
  }

  // ---- Build gate ----

  predicate IsSha256Hex(hash: string) {
    |hash| == 64 && forall i :: 0 <= i < |hash| ==> '0' <= hash[i] <= '9' || 'a' <= hash[i] <= 'f'
  }

  predicate AllValid(triple: Triple) {
    triple.allValid && triple.schema == triple.fixture == triple.goal == Passed
  }

  /** What opening the build gate demands of a package and its hash. */
  predicate AdmitsGate(pkg: Package, hash: string) {
    AllValid(pkg.triple) && IsSha256Hex(hash)
  }

  /** Write-once artifact creation: an existing value always wins. */
  function CreateOnce<T>(existing: Option<T>, value: T): Option<T> {
    if existing.Some? then existing else Some(value)
  }

  // ---- The completed check inside acquire ----

  lemma {:induction false} StageNameHasNoColon(stage: Stage)
    ensures ':' !in StageName(stage)
  {
  }

  /**
   * Every completed marker is written under a bare stage name, so the check that acquire makes under
   * `<stage>:<iteration>` never finds one: the lease alone decides.
   */
  lemma {:induction false} AcquireNeverSeesCompleted(sh: Shared, id: Identity)
    requires forall key :: key in sh.completed ==> exists stage :: key.stage == StageName(stage)
    ensures !AcquireSeesCompleted(sh, id)
  {
    var name := LeaseStage(id);
    assert name[|StageName(id.stage)|] == ':';
    if CompletedKey(name, 0) in sh.completed {
      var stage :| name == StageName(stage);
      StageNameHasNoColon(stage);
    }
  }
}
