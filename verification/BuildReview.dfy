/** The build gate as its service keeps it: a write-once record of a package and its hash, and a write-once approval. */
module BuildReview {
  import opened Wrappers
  import opened PipelineState

  datatype Status = Pending | Approved

  datatype Decision = Approve | Return

  /** The support artifacts of one run and the confirmed package they are compared with. */
  datatype Artifacts = Artifacts(record: Option<Gate>, approval: Option<string>, confirmed: Option<Package>)

  function StatusOf(a: Artifacts): Option<Status> {
    if a.record.None? then None
    else if a.approval == Some(a.record.value.hash) then Some(Status.Approved)
    else Some(Status.Pending)
  }

  /** None where open throws; what was recorded first stays. */
  function OpenGate(a: Artifacts, pkg: Package, hash: string): (Artifacts, Option<Status>) {
    if !AdmitsGate(pkg, hash) then (a, None)
    else
      var a' := a.(record := CreateOnce(a.record, Gate(pkg, hash)));
      (a', if a'.record == Some(Gate(pkg, hash)) then StatusOf(a') else None)
  }

  /** None where decide throws. */
  function Decide(a: Artifacts, decision: Decision, hash: string): (Artifacts, Option<Status>) {
    if a.record.None? || hash != a.record.value.hash || a.confirmed != Some(a.record.value.pkg) then (a, None)
    else
      match decision
      case Return => (a, if StatusOf(a) == Some(Status.Pending) then StatusOf(a) else None)
      case Approve =>
        var a' := a.(approval := CreateOnce(a.approval, hash));
        (a', StatusOf(a'))
  }

  predicate RequireApproved(a: Artifacts, pkg: Package, hash: string) {
    StatusOf(a) == Some(Status.Approved) && a.record.value == Gate(pkg, hash)
  }

  datatype Op =
    | Open(pkg: Package, hash: string)
    | Choose(decision: Decision, hash: string)
    | Confirm(pkg: Package)

  function Apply(a: Artifacts, op: Op): Artifacts {
    match op
    case Open(pkg, hash) => OpenGate(a, pkg, hash).0
    case Choose(decision, hash) => Decide(a, decision, hash).0
    case Confirm(pkg) => a.(confirmed := Some(pkg))
  }

  function Run(ops: seq<Op>): Artifacts {
    if ops == [] then Artifacts(None, None, None) else Apply(Run(ops[..|ops| - 1]), ops[|ops| - 1])
  }

  class BuildReviewService {
    var record: Option<Gate>
    var approval: Option<string>
    var confirmed: Option<Package>

    ghost function View(): Artifacts
      reads this
    {
      Artifacts(record, approval, confirmed)
    }

    constructor ()
      ensures View() == Run([])
    {
      record, approval, confirmed := None, None, None;
    }

    method Get() returns (status: Option<Status>)
      ensures status == StatusOf(View())
    {
      if record.None? {
        return None;
      }
      status := Some(if approval == Some(record.value.hash) then Status.Approved else Status.Pending);
    }

    /** The gate admits only a package valid in all three proofs and a lower-case SHA-256 hash. */
    method OpenReview(pkg: Package, hash: string) returns (status: Option<Status>)
      modifies `record
      ensures (View(), status) == OpenGate(old(View()), pkg, hash)
      ensures status.Some?
              <==> && pkg.triple.allValid && pkg.triple.schema == Passed && pkg.triple.fixture == Passed
                   && pkg.triple.goal == Passed && |hash| == 64
                   && (forall i :: 0 <= i < |hash| ==> '0' <= hash[i] <= '9' || 'a' <= hash[i] <= 'f')
                   && (old(record).None? || old(record) == Some(Gate(pkg, hash)))
      ensures record == if status.Some? then Some(Gate(pkg, hash)) else old(record)
      ensures status.Some? ==> status.value == if approval == Some(hash) then Status.Approved else Status.Pending
    {
      if !AllValid(pkg.triple) || !IsSha256Hex(hash) {
        return None;
      }
      if record.None? {
        record := Some(Gate(pkg, hash));
      }
      if record.value.hash != hash || record.value.pkg != pkg {
        return None;
      }
      status := Get();
    }

    method DecideReview(decision: Decision, hash: string) returns (status: Option<Status>)
      modifies `approval
      ensures (View(), status) == Decide(old(View()), decision, hash)
      ensures var valid := record.Some? && record.value.hash == hash && confirmed == Some(record.value.pkg);
              if !valid then status.None? && approval == old(approval)
              else if decision.Return? then
                && approval == old(approval)
                && status == if approval == Some(hash) then None else Some(Status.Pending)
              else
                && approval == (if old(approval).Some? then old(approval) else Some(hash))
                && status == Some(if approval == Some(hash) then Status.Approved else Status.Pending)
    {
      if record.None? || hash != record.value.hash || confirmed != Some(record.value.pkg) {
        return None;
      }
      if decision.Return? {
        var current := Get();
        return if current == Some(Status.Pending) then current else None;
      }
      if approval.None? {
        approval := Some(hash);
      }
      status := Get();
    }

    method Authorize(pkg: Package, hash: string) returns (ok: bool)
      ensures ok <==> RequireApproved(View(), pkg, hash)
      ensures ok <==> record == Some(Gate(pkg, hash)) && approval == Some(hash)
    {
      var status := Get();
      ok := status == Some(Status.Approved) && record == Some(Gate(pkg, hash));
    }
  }

  // ---- What a history of operations amounts to ----

  /** The first package and hash that an open admitted. */
  function FirstAdmitted(ops: seq<Op>): Option<Gate> {
    if ops == [] then None
    else
      var before := FirstAdmitted(ops[..|ops| - 1]);
      var last := ops[|ops| - 1];
      if before.Some? then before
      else if last.Open? && AdmitsGate(last.pkg, last.hash) then Some(Gate(last.pkg, last.hash))
      else None
  }

  function LastConfirmed(ops: seq<Op>): Option<Package> {
    if ops == [] then None
    else if ops[|ops| - 1].Confirm? then Some(ops[|ops| - 1].pkg)
    else LastConfirmed(ops[..|ops| - 1])
  }

  /** Operation k approves the hash first admitted before it, while that package is the confirmed one. */
  predicate ApprovesAt(ops: seq<Op>, k: nat)
    requires k < |ops|
  {
    var before := ops[..k];
    && ops[k].Choose? && ops[k].decision == Approve
    && FirstAdmitted(before).Some?
    && ops[k].hash == FirstAdmitted(before).value.hash
    && LastConfirmed(before) == Some(FirstAdmitted(before).value.pkg)
  }

  ghost predicate WasApproved(ops: seq<Op>) {
    exists k :: 0 <= k < |ops| && ApprovesAt(ops, k)
  }

  /** The stored record and approval are a function of the history: the first admitted gate, and its approval. */
  lemma {:induction false} ArtifactsFollowHistory(ops: seq<Op>)
    ensures Run(ops).record == FirstAdmitted(ops)
    ensures Run(ops).confirmed == LastConfirmed(ops)
    ensures Run(ops).approval.Some? ==> FirstAdmitted(ops).Some? && Run(ops).approval.value == FirstAdmitted(ops).value.hash
    ensures Run(ops).approval.Some? <==> WasApproved(ops)
  {
    if ops != [] {
      var init := ops[..|ops| - 1];
      ArtifactsFollowHistory(init);
      if WasApproved(init) {
        var k :| 0 <= k < |init| && ApprovesAt(init, k);
        assert ops[..k] == init[..k];
        assert ApprovesAt(ops, k);
      }
      if WasApproved(ops) && !WasApproved(init) {
        var k :| 0 <= k < |ops| && ApprovesAt(ops, k);
        if k < |init| {
          assert ops[..k] == init[..k];
          assert ApprovesAt(init, k);
        }
      }
      if Run(ops).approval.Some? && Run(init).approval.None? {
        assert ApprovesAt(ops, |init|);
      }
    }
  }

  /**
   * requireApproved succeeds exactly for the package and hash that were opened first, and only once a decision
   * approved that hash while that package was the confirmed one.
   */
  lemma {:induction false} RequireApprovedIff(ops: seq<Op>, pkg: Package, hash: string)
    ensures RequireApproved(Run(ops), pkg, hash) <==> FirstAdmitted(ops) == Some(Gate(pkg, hash)) && WasApproved(ops)
    ensures RequireApproved(Run(ops), pkg, hash) ==> AdmitsGate(pkg, hash)
  {
    ArtifactsFollowHistory(ops);
    AdmittedOnly(ops);
  }

  lemma {:induction false} AdmittedOnly(ops: seq<Op>)
    ensures FirstAdmitted(ops).Some? ==> AdmitsGate(FirstAdmitted(ops).value.pkg, FirstAdmitted(ops).value.hash)
  {
    if ops != [] {
      AdmittedOnly(ops[..|ops| - 1]);
    }
  }

  function After(a: Artifacts, ops: seq<Op>): Artifacts {
    if ops == [] then a else Apply(After(a, ops[..|ops| - 1]), ops[|ops| - 1])
  }

  /** From any state on, the record and the approval never change once written, and approved stays approved. */
  lemma {:induction false} GateNeverChanges(a: Artifacts, ops: seq<Op>)
    ensures a.record.Some? ==> After(a, ops).record == a.record
    ensures a.approval.Some? ==> After(a, ops).approval == a.approval
    ensures StatusOf(a) == Some(Status.Approved) ==> StatusOf(After(a, ops)) == Some(Status.Approved)
    ensures StatusOf(a).Some? ==> StatusOf(After(a, ops)).Some?
  {
    if ops != [] {
      GateNeverChanges(a, ops[..|ops| - 1]);
    }
  }
}
