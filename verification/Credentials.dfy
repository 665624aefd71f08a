/** Provider credentials: version chains, at most one active version, and the models bound to it. */
module Credentials {
  import opened Wrappers

  datatype Status = Active | Retired | Revoked

  /** What the versions of one credential share. */
  datatype ChainKey = ChainKey(workspaceId: string, providerId: string, name: string)

  datatype Credential = Credential(key: ChainKey, version: int, status: Status, rotatedFrom: Option<string>)

  datatype Model = Model(workspaceId: string, providerId: string, credential: Option<string>, available: bool)

  datatype Database = Database(
    providers: set<string>, credentials: map<string, Credential>, models: map<string, Model>)

  datatype Result =
    | Done
    | NotFound
    | Conflict
    | Integrity

  predicate HasActive(db: Database, key: ChainKey) {
    exists id :: id in db.credentials && db.credentials[id].key == key && db.credentials[id].status == Active
  }

  /** A row the unique constraint on workspace, provider, name and version would collide with. */
  predicate Taken(db: Database, key: ChainKey, version: int) {
    exists id :: id in db.credentials && db.credentials[id].key == key && db.credentials[id].version == version
  }

  // ---- Operations; a failed one is rolled back whole ----

  function CreateCredential(db: Database, key: ChainKey, newId: string): (Database, Result) {
    if key.providerId !in db.providers then (db, NotFound)
    else if HasActive(db, key) then (db, Conflict)
    else if newId in db.credentials || Taken(db, key, 1) then (db, Integrity)
    else (db.(credentials := db.credentials[newId := Credential(key, 1, Active, None)]), Done)
  }

  /** Models bound to the old id move to the new one. */
  function Rebound(models: map<string, Model>, oldId: string, newId: string): map<string, Model> {
    map m | m in models ::
      if models[m].credential == Some(oldId) then models[m].(credential := Some(newId)) else models[m]
  }

  function RotateCredential(db: Database, workspaceId: string, id: string, newId: string): (Database, Result) {
    if id !in db.credentials || db.credentials[id].key.workspaceId != workspaceId then (db, NotFound)
    else
      var current := db.credentials[id];
      if current.status != Active then (db, Conflict)
      else if newId in db.credentials || Taken(db, current.key, current.version + 1) then (db, Integrity)
      else
        (db.(credentials := db.credentials[id := current.(status := Retired)]
                                          [newId := Credential(current.key, current.version + 1, Active, Some(id))],
             models := Rebound(db.models, id, newId)), Done)
  }

  function Detached(models: map<string, Model>, id: string): map<string, Model> {
    map m | m in models ::
      if models[m].credential == Some(id) then models[m].(credential := None, available := false) else models[m]
  }

  function RevokeCredential(db: Database, workspaceId: string, id: string): (Database, Result) {
    if id !in db.credentials || db.credentials[id].key.workspaceId != workspaceId then (db, NotFound)
    else
      (db.(credentials := db.credentials[id := db.credentials[id].(status := Revoked)],
           models := Detached(db.models, id)), Done)
  }

  function CreateModel(db: Database, workspaceId: string, providerId: string, credential: Option<string>, newId: string)
    : (Database, Result)
  {
    if providerId !in db.providers then (db, NotFound)
    else if credential.Some? && !(
              && credential.value in db.credentials
              && db.credentials[credential.value].key.workspaceId == workspaceId
              && db.credentials[credential.value].key.providerId == providerId
              && db.credentials[credential.value].status == Active)
    then (db, Conflict)
    else if newId in db.models then (db, Integrity)
    else (db.(models := db.models[newId := Model(workspaceId, providerId, credential, true)]), Done)
  }

  datatype Op =
    | Create(key: ChainKey, newId: string)
    | Rotate(workspaceId: string, id: string, newId: string)
    | Revoke(workspaceId: string, id: string)
    | AddModel(workspaceId: string, providerId: string, credential: Option<string>, newId: string)

  function Apply(db: Database, op: Op): (Database, Result) {
    match op
    case Create(key, newId) => CreateCredential(db, key, newId)
    case Rotate(workspaceId, id, newId) => RotateCredential(db, workspaceId, id, newId)
    case Revoke(workspaceId, id) => RevokeCredential(db, workspaceId, id)
    case AddModel(workspaceId, providerId, credential, newId) =>
      CreateModel(db, workspaceId, providerId, credential, newId)
  }

  function Run(providers: set<string>, ops: seq<Op>): Database {
    if ops == [] then Database(providers, map[], map[])
    else Apply(Run(providers, ops[..|ops| - 1]), ops[|ops| - 1]).0
  }

  /** The service over its tables; a method that fails leaves every row as it was. */
  class CredentialService {
    const providers: set<string>
    var credentials: map<string, Credential>
    var models: map<string, Model>

    ghost function View(): Database
      reads this
    {
      Database(providers, credentials, models)
    }

    constructor (providers: set<string>)
      ensures View() == Database(providers, map[], map[])
    {
      this.providers, credentials, models := providers, map[], map[];
    }

    /** The flush of a new row, refused by its primary key or by the unique constraint. */
    method Insert(id: string, row: Credential) returns (inserted: bool)
      modifies `credentials
      ensures inserted <==> id !in old(credentials) && !Taken(old(View()), row.key, row.version)
      ensures credentials == if inserted then old(credentials)[id := row] else old(credentials)
    {
      inserted := id !in credentials && !Taken(Database(providers, credentials, models), row.key, row.version);
      if inserted {
        credentials := credentials[id := row];
      }
    }

    method CreateProviderCredential(key: ChainKey, newId: string) returns (r: Result)
      modifies `credentials
      ensures (View(), r) == CreateCredential(old(View()), key, newId)
      ensures r == NotFound <==> key.providerId !in providers
      ensures key.providerId in providers ==>
                (r == Conflict <==> exists id :: id in old(credentials) && old(credentials)[id].key == key
                                                 && old(credentials)[id].status == Active)
      ensures credentials
              == if r == Done then old(credentials)[newId := Credential(key, 1, Active, None)] else old(credentials)
      ensures r == Done ==> newId !in old(credentials)
    {
      if key.providerId !in providers {
        return NotFound;
      }
      if exists id :: id in credentials && credentials[id].key == key && credentials[id].status == Active {
        return Conflict;
      }
      var inserted := Insert(newId, Credential(key, 1, Active, None));
      r := if inserted then Done else Integrity;
    }

    method RotateProviderCredential(workspaceId: string, id: string, newId: string) returns (r: Result)
      modifies this
      ensures (View(), r) == RotateCredential(old(View()), workspaceId, id, newId)
      ensures r == NotFound <==> id !in old(credentials) || old(credentials)[id].key.workspaceId != workspaceId
      ensures r != NotFound ==> (r == Conflict <==> old(credentials)[id].status != Active)
      ensures r != Done ==> credentials == old(credentials) && models == old(models)
      ensures r == Done ==>
                var previous := old(credentials)[id];
                && newId !in old(credentials)
                && credentials
                   == old(credentials)[id := previous.(status := Retired)]
                                      [newId := Credential(previous.key, previous.version + 1, Active, Some(id))]
                && models.Keys == old(models).Keys
                && (forall m :: m in models ==>
                      models[m] == if old(models)[m].credential == Some(id)
                                   then old(models)[m].(credential := Some(newId)) else old(models)[m])
    {
      if id !in credentials || credentials[id].key.workspaceId != workspaceId {
        return NotFound;
      }
      var previous := credentials[id];
      if previous.status != Active {
        return Conflict;
      }
      var before := credentials;
      credentials := credentials[id := previous.(status := Retired)];
      SameRows(before, credentials, providers, models);
      var inserted := Insert(newId, Credential(previous.key, previous.version + 1, Active, Some(id)));
      if !inserted {
        credentials := before;
        return Integrity;
      }
      models := map m | m in models ::
        if models[m].credential == Some(id) then models[m].(credential := Some(newId)) else models[m];
      return Done;
    }

    method RevokeProviderCredential(workspaceId: string, id: string) returns (r: Result)
      modifies this
      ensures (View(), r) == RevokeCredential(old(View()), workspaceId, id)
      ensures r == if id in old(credentials) && old(credentials)[id].key.workspaceId == workspaceId
                   then Done else NotFound
      ensures r != Done ==> credentials == old(credentials) && models == old(models)
      ensures r == Done ==>
                && credentials == old(credentials)[id := old(credentials)[id].(status := Revoked)]
                && models.Keys == old(models).Keys
                && (forall m :: m in models ==>
                      models[m] == if old(models)[m].credential == Some(id)
                                   then old(models)[m].(credential := None, available := false) else old(models)[m])
    {
      if id !in credentials || credentials[id].key.workspaceId != workspaceId {
        return NotFound;
      }
      credentials := credentials[id := credentials[id].(status := Revoked)];
      models := map m | m in models ::
        if models[m].credential == Some(id) then models[m].(credential := None, available := false) else models[m];
      return Done;
    }

    method AddModelConfiguration(workspaceId: string, providerId: string, credential: Option<string>, newId: string)
      returns (r: Result)
      modifies `models
      ensures (View(), r) == CreateModel(old(View()), workspaceId, providerId, credential, newId)
      ensures r == NotFound <==> providerId !in providers
      ensures r != NotFound ==>
                (r == Conflict
                 <==> credential.Some?
                      && (|| credential.value !in credentials
                          || credentials[credential.value].key.workspaceId != workspaceId
                          || credentials[credential.value].key.providerId != providerId
                          || credentials[credential.value].status != Active))
      ensures r == NotFound || r == Conflict || (r == if newId in old(models) then Integrity else Done)
      ensures models
              == if r == Done
                 then old(models)[newId := Model(workspaceId, providerId, credential, true)] else old(models)
    {
      if providerId !in providers {
        return NotFound;
      }
      if credential.Some? {
        if credential.value !in credentials {
          return Conflict;
        }
        var row := credentials[credential.value];
        if row.key.workspaceId != workspaceId || row.key.providerId != providerId || row.status != Active {
          return Conflict;
        }
      }
      if newId in models {
        return Integrity;
      }
      models := models[newId := Model(workspaceId, providerId, credential, true)];
      return Done;
    }
  }

  /** Changing a status changes no key and no version. */
  lemma SameRows(before: map<string, Credential>, after: map<string, Credential>, providers: set<string>,
                 models: map<string, Model>)
    requires before.Keys == after.Keys
    requires forall id :: id in before ==> before[id].key == after[id].key && before[id].version == after[id].version
    ensures forall key, version ::
              Taken(Database(providers, before, models), key, version) == Taken(Database(providers, after, models), key, version)
  {
    forall key, version
      ensures Taken(Database(providers, before, models), key, version) == Taken(Database(providers, after, models), key, version)
    {
    }
  }

  // ---- The invariant ----

  ghost predicate UniqueVersions(db: Database) {
    forall a, b :: a in db.credentials && b in db.credentials && a != b ==>
      db.credentials[a].key != db.credentials[b].key || db.credentials[a].version != db.credentials[b].version
  }

  /** A later version continues the one before it, which is no longer active. */
  predicate Continues(db: Database, id: string)
    requires id in db.credentials
  {
    var c := db.credentials[id];
    && c.version >= 1
    && (c.version == 1 <==> c.rotatedFrom.None?)
    && (c.rotatedFrom.Some? ==>
          && c.rotatedFrom.value in db.credentials
          && db.credentials[c.rotatedFrom.value].key == c.key
          && db.credentials[c.rotatedFrom.value].version == c.version - 1
          && db.credentials[c.rotatedFrom.value].status != Active)
  }

  predicate Bound(db: Database, m: Model) {
    m.credential.Some? ==>
      && m.credential.value in db.credentials
      && db.credentials[m.credential.value].status == Active
      && db.credentials[m.credential.value].key.workspaceId == m.workspaceId
      && db.credentials[m.credential.value].key.providerId == m.providerId
  }

  ghost predicate DatabaseInv(db: Database) {
    && UniqueVersions(db)
    && (forall id :: id in db.credentials ==> Continues(db, id))
    && (forall m :: m in db.models ==> Bound(db, db.models[m]))
  }

  lemma CreateKeepsInv(db: Database, key: ChainKey, newId: string)
    requires DatabaseInv(db)
    ensures DatabaseInv(CreateCredential(db, key, newId).0)
  {
    var db' := CreateCredential(db, key, newId).0;
    if db' != db {
      forall id | id in db'.credentials ensures Continues(db', id) {
        assert id in db.credentials ==> Continues(db, id);
      }
      forall m | m in db'.models ensures Bound(db', db'.models[m]) {
        assert Bound(db, db.models[m]);
      }
    }
  }

  lemma RotateKeepsInv(db: Database, workspaceId: string, id: string, newId: string)
    requires DatabaseInv(db)
    ensures DatabaseInv(RotateCredential(db, workspaceId, id, newId).0)
  {
    if RotateCredential(db, workspaceId, id, newId).1 == Done {
      RotateKeepsChains(db, workspaceId, id, newId);
      RotateKeepsModels(db, workspaceId, id, newId);
    }
  }

  lemma RotateKeepsChains(db: Database, workspaceId: string, id: string, newId: string)
    requires UniqueVersions(db) && RotateCredential(db, workspaceId, id, newId).1 == Done
    requires forall c :: c in db.credentials ==> Continues(db, c)
    ensures var db' := RotateCredential(db, workspaceId, id, newId).0;
            UniqueVersions(db') && forall c :: c in db'.credentials ==> Continues(db', c)
  {
    var db' := RotateCredential(db, workspaceId, id, newId).0;
    RotateKeepsUnique(db, workspaceId, id, newId);
    hide UniqueVersions, Taken;
    forall c | c in db'.credentials ensures Continues(db', c) {
      assert Continues(db, if c == newId then id else c);
    }
  }

  lemma RotateKeepsUnique(db: Database, workspaceId: string, id: string, newId: string)
    requires UniqueVersions(db) && RotateCredential(db, workspaceId, id, newId).1 == Done
    ensures UniqueVersions(RotateCredential(db, workspaceId, id, newId).0)
  {
    RotatedVersionIsNew(db, workspaceId, id, newId);
  }

  lemma RotatedVersionIsNew(db: Database, workspaceId: string, id: string, newId: string)
    requires RotateCredential(db, workspaceId, id, newId).1 == Done
    ensures forall c :: c in db.credentials && db.credentials[c].key == db.credentials[id].key ==>
              db.credentials[c].version != db.credentials[id].version + 1
  {
  }

  lemma RotateKeepsModels(db: Database, workspaceId: string, id: string, newId: string)
    requires RotateCredential(db, workspaceId, id, newId).1 == Done
    requires forall m :: m in db.models ==> Bound(db, db.models[m])
    ensures var db' := RotateCredential(db, workspaceId, id, newId).0;
            forall m :: m in db'.models ==> Bound(db', db'.models[m])
  {
    var db' := RotateCredential(db, workspaceId, id, newId).0;
    forall m | m in db'.models ensures Bound(db', db'.models[m]) {
      assert Bound(db, db.models[m]);
    }
  }

  lemma RevokeKeepsInv(db: Database, workspaceId: string, id: string)
    requires DatabaseInv(db)
    ensures DatabaseInv(RevokeCredential(db, workspaceId, id).0)
  {
    var db' := RevokeCredential(db, workspaceId, id).0;
    forall c | c in db'.credentials ensures Continues(db', c) {
      assert Continues(db, c);
    }
    forall m | m in db'.models ensures Bound(db', db'.models[m]) {
      assert Bound(db, db.models[m]);
    }
  }

  lemma {:induction false} ReachableInv(providers: set<string>, ops: seq<Op>)
    ensures DatabaseInv(Run(providers, ops)) && Run(providers, ops).providers == providers
  {
    if ops != [] {
      var before := ops[..|ops| - 1];
      ReachableInv(providers, before);
      match ops[|ops| - 1]
      case Create(key, newId) => CreateKeepsInv(Run(providers, before), key, newId);
      case Rotate(workspaceId, id, newId) => RotateKeepsInv(Run(providers, before), workspaceId, id, newId);
      case Revoke(workspaceId, id) => RevokeKeepsInv(Run(providers, before), workspaceId, id);
      case AddModel(_, _, _, _) =>
    }
  }

  // ---- Chains ----

  /** Below any version of a chain every version from 1 up exists, and none of those is active. */
  lemma {:induction false} LowerVersionsExist(db: Database, id: string, version: int) returns (lower: string)
    requires DatabaseInv(db) && id in db.credentials && 1 <= version < db.credentials[id].version
    ensures lower in db.credentials && db.credentials[lower].key == db.credentials[id].key
    ensures db.credentials[lower].version == version && db.credentials[lower].status != Active
    decreases db.credentials[id].version
  {
    assert Continues(db, id);
    lower := db.credentials[id].rotatedFrom.value;
    if version < db.credentials[lower].version {
      lower := LowerVersionsExist(db, lower, version);
    }
  }

  ghost function VersionsOf(db: Database, key: ChainKey): set<int> {
    set id | id in db.credentials && db.credentials[id].key == key :: db.credentials[id].version
  }

  lemma {:induction false} LargestOf(versions: set<int>, some: int) returns (n: int)
    requires some in versions
    ensures n in versions && forall v :: v in versions ==> v <= n
    decreases versions
  {
    var rest := versions - {some};
    assert versions == rest + {some};
    if next: int :| next in rest {
      n := LargestOf(rest, next);
      n := if some > n then some else n;
    } else {
      n := some;
    }
  }

  /**
   * Over any sequence of operations the versions of a chain are exactly 1 to n, each on one row, and only the
   * newest can be active.
   */
  lemma {:induction false} VersionsAreOneToN(providers: set<string>, ops: seq<Op>, key: ChainKey) returns (n: int)
    requires VersionsOf(Run(providers, ops), key) != {}
    ensures var db := Run(providers, ops);
            && n >= 1
            && (forall v :: v in VersionsOf(db, key) <==> 1 <= v <= n)
            && (forall id :: id in db.credentials && db.credentials[id].key == key && db.credentials[id].status == Active ==>
                  db.credentials[id].version == n)
    ensures UniqueVersions(Run(providers, ops))
  {
    hide Run;
    ReachableInv(providers, ops);
    var db := Run(providers, ops);
    var some: string :| some in db.credentials && db.credentials[some].key == key;
    n := LargestOf(VersionsOf(db, key), db.credentials[some].version);
    var newest :| newest in db.credentials && db.credentials[newest].key == key && db.credentials[newest].version == n;
    assert Continues(db, newest);
    forall v ensures v in VersionsOf(db, key) <==> 1 <= v <= n {
      if 1 <= v < n {
        var lower := LowerVersionsExist(db, newest, v);
      } else if v in VersionsOf(db, key) {
        var id :| id in db.credentials && db.credentials[id].key == key && db.credentials[id].version == v;
        assert Continues(db, id);
      }
    }
    forall id | id in db.credentials && db.credentials[id].key == key && db.credentials[id].status == Active
      ensures db.credentials[id].version == n
    {
      assert db.credentials[id].version in VersionsOf(db, key);
      assert Continues(db, id);
      if db.credentials[id].version < n {
        var lower := LowerVersionsExist(db, newest, db.credentials[id].version);
      }
    }
  }

  /** Every model's credential is active and belongs to the model's own workspace and provider. */
  lemma {:induction false} ModelsUseOwnActiveCredentials(providers: set<string>, ops: seq<Op>, m: string)
    requires m in Run(providers, ops).models && Run(providers, ops).models[m].credential.Some?
    ensures var db := Run(providers, ops);
            var model := db.models[m];
            && model.credential.value in db.credentials
            && db.credentials[model.credential.value].status == Active
            && db.credentials[model.credential.value].key.workspaceId == model.workspaceId
            && db.credentials[model.credential.value].key.providerId == model.providerId
  {
    hide Run;
    ReachableInv(providers, ops);
    assert Bound(Run(providers, ops), Run(providers, ops).models[m]);
  }

  /** Rotating an active credential under an unused id always succeeds: its next version is never taken. */
  lemma {:induction false} RotationNeverCollides(providers: set<string>, ops: seq<Op>, id: string, newId: string)
    requires var db := Run(providers, ops);
             id in db.credentials && db.credentials[id].status == Active && newId !in db.credentials
    ensures var db := Run(providers, ops);
            var (db', result) := RotateCredential(db, db.credentials[id].key.workspaceId, id, newId);
            && result == Done
            && newId in db'.credentials && db'.credentials[newId].status == Active
            && db'.credentials[newId].version == db.credentials[id].version + 1
            && (forall m :: m in db.models ==>
                  m in db'.models
                  && db'.models[m].credential
                     == if db.models[m].credential == Some(id) then Some(newId) else db.models[m].credential)
  {
    hide Run;
    ReachableInv(providers, ops);
    var db := Run(providers, ops);
    var current := db.credentials[id];
    forall next | next in db.credentials && db.credentials[next].key == current.key
      ensures db.credentials[next].version != current.version + 1
    {
      assert Continues(db, next) && Continues(db, id);
    }
  }

  /**
   * A name can be created exactly once: a chain that exists, even one whose every version was revoked, refuses
   * a new version 1, with a conflict while it has an active version and by the unique constraint afterwards.
   */
  lemma {:induction false} NamesAreCreatedOnce(providers: set<string>, ops: seq<Op>, key: ChainKey, newId: string)
    requires key.providerId in providers && newId !in Run(providers, ops).credentials
    ensures var db := Run(providers, ops);
            CreateCredential(db, key, newId).1
            == if HasActive(db, key) then Conflict else if VersionsOf(db, key) != {} then Integrity else Done
  {
    hide Run;
    ReachableInv(providers, ops);
    var db := Run(providers, ops);
    assert forall id :: id in db.credentials && db.credentials[id].key == key ==>
        db.credentials[id].version in VersionsOf(db, key);
    if VersionsOf(db, key) != {} {
      var id :| id in db.credentials && db.credentials[id].key == key;
      assert Continues(db, id);
      if db.credentials[id].version > 1 {
        var lower := LowerVersionsExist(db, id, 1);
      }
      assert Taken(db, key, 1);
    }
  }

  predicate IsRevoked(db: Database, id: string) {
    id in db.credentials && db.credentials[id].status == Revoked
  }

  /** The chain has versions but none is active. */
  predicate ChainIsOver(db: Database, key: ChainKey) {
    (exists id :: id in db.credentials && db.credentials[id].key == key) && !HasActive(db, key)
  }

  lemma RunSnoc(providers: set<string>, ops: seq<Op>, op: Op)
    ensures Run(providers, ops + [op]) == Apply(Run(providers, ops), op).0
  {
    assert (ops + [op])[..|ops|] == ops;
  }

  lemma StepKeepsRevoked(db: Database, op: Op, id: string)
    requires IsRevoked(db, id)
    ensures IsRevoked(Apply(db, op).0, id) && Apply(db, op).0.credentials[id] == db.credentials[id]
  {
  }

  lemma StepKeepsOver(providers: set<string>, ops: seq<Op>, op: Op, key: ChainKey)
    requires ChainIsOver(Run(providers, ops), key)
    ensures ChainIsOver(Apply(Run(providers, ops), op).0, key)
  {
    var db := Run(providers, ops);
    var id :| id in db.credentials && db.credentials[id].key == key;
    assert db.credentials[id].version in VersionsOf(db, key);
    hide Run;
    var db' := Apply(db, op).0;
    assert id in db'.credentials && db'.credentials[id].key == key;
    if op.Create? && op.key == key && op.newId !in db.credentials && key.providerId in db.providers {
      ProvidersStay(providers, ops);
      NamesAreCreatedOnce(providers, ops, key, op.newId);
    }
  }

  lemma {:induction false} ProvidersStay(providers: set<string>, ops: seq<Op>)
    ensures Run(providers, ops).providers == providers
  {
    if ops != [] {
      ProvidersStay(providers, ops[..|ops| - 1]);
    }
  }

  lemma RevokedAtOnce(providers: set<string>, ops: seq<Op>, workspaceId: string, id: string)
    requires RevokeCredential(Run(providers, ops), workspaceId, id).1 == Done
    ensures var db := Run(providers, ops);
            var db' := RevokeCredential(db, workspaceId, id).0;
            && id in db.credentials && IsRevoked(db', id) && db'.credentials[id].key == db.credentials[id].key
            && (db.credentials[id].status == Active ==> ChainIsOver(db', db.credentials[id].key))
  {
    hide Run;
    var db := Run(providers, ops);
    var key := db.credentials[id].key;
    if db.credentials[id].status == Active {
      ReachableInv(providers, ops);
      assert db.credentials[id].version in VersionsOf(db, key);
      var n := VersionsAreOneToN(providers, ops, key);
    }
  }

  /**
   * Revocation is final. Whatever operations follow, the credential stays revoked and no model ever uses it; and
   * revoking the active version ends its chain, because a new version one collides and nothing else can be rotated:
   * no version of that name is active again.
   */
  lemma {:induction false} RevocationIsFinal(
    providers: set<string>, ops: seq<Op>, workspaceId: string, id: string, more: seq<Op>)
    requires RevokeCredential(Run(providers, ops), workspaceId, id).1 == Done
    ensures var db := Run(providers, ops + [Revoke(workspaceId, id)] + more);
            && IsRevoked(db, id)
            && (forall m :: m in db.models ==> db.models[m].credential != Some(id))
            && (Run(providers, ops).credentials[id].status == Active ==>
                  ChainIsOver(db, Run(providers, ops).credentials[id].key))
    decreases |more|
  {
    var base := ops + [Revoke(workspaceId, id)];
    hide Run, RevokeCredential, IsRevoked, ChainIsOver, Apply;
    RunSnoc(providers, ops, Revoke(workspaceId, id));
    RevokedAtOnce(providers, ops, workspaceId, id);
    RevokeIsApplied(Run(providers, ops), workspaceId, id);
    if more == [] {
      assert base + more == base;
    } else {
      var init, last := more[..|more| - 1], more[|more| - 1];
      RevocationIsFinal(providers, ops, workspaceId, id, init);
      assert base + more == (base + init) + [last];
      RunSnoc(providers, base + init, last);
      StepKeepsRevoked(Run(providers, base + init), last, id);
      if Run(providers, ops).credentials[id].status == Active {
        StepKeepsOver(providers, base + init, last, Run(providers, ops).credentials[id].key);
      }
    }
    NobodyUsesRevoked(providers, base + more, id);
  }

  lemma RevokeIsApplied(db: Database, workspaceId: string, id: string)
    ensures Apply(db, Revoke(workspaceId, id)) == RevokeCredential(db, workspaceId, id)
  {
  }

  lemma NobodyUsesRevoked(providers: set<string>, ops: seq<Op>, id: string)
    requires IsRevoked(Run(providers, ops), id)
    ensures forall m :: m in Run(providers, ops).models ==> Run(providers, ops).models[m].credential != Some(id)
  {
    hide Run;
    forall m | m in Run(providers, ops).models ensures Run(providers, ops).models[m].credential != Some(id) {
      if Run(providers, ops).models[m].credential.Some? {
        ModelsUseOwnActiveCredentials(providers, ops, m);
      }
    }
  }
}
