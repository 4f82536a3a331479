/**
 Runs of the row store: every interleaving of the operations that admin handlers, proxied
 requests and the health checker perform on it, each one critical section.
 `generate_key` is two of them, a lookup and later an insert, so a store carries the
 user ids that handlers have looked up so far.
 */
module StoreRuns {
  import opened Common
  import opened Store

  datatype Op =
    | OpAddProvider(id: string, name: string, url: string)
    | OpDeleteProvider(name: string)
    | OpAddProviderKey(id: string, provider: string, key: string, authHeader: Option<string>)
    | OpRemoveProviderKey(id: string)
    | OpImport(provider: string, names: seq<string>, ids: seq<string>)
    | OpAddUser(id: string, username: string, tier: string)
    | OpFindUser(username: string)
    | OpAddUserKey(id: string, userId: string, key: string, tier: string, maxLimit: int, expiresAt: Option<string>)
    | OpRevoke(key: string)
    | OpMarkUsed(id: string)
    | OpMarkSuccess(id: string)
    | OpMarkFailure(id: string)
    | OpSetStatus(name: string, status: Status)
    | OpSetHealth(name: string, health: int)
    | OpLog(entry: LogEntry)

  datatype Db = Db(tables: Tables, found: set<string>)

  /** A key is only inserted for a user id that some handler has looked up. */
  predicate Enabled(db: Db, op: Op) {
    && (op.OpAddUserKey? ==> op.userId in db.found)
    && (op.OpImport? ==> |op.names| == |op.ids|)
  }

  function Apply(db: Db, op: Op): Db
    requires Enabled(db, op)
  {
    var t := db.tables;
    match op
    case OpAddProvider(id, name, url) => db.(tables := ProviderAdded(t, id, name, url).0)
    case OpDeleteProvider(name) => db.(tables := ProviderDeleted(t, name).0)
    case OpAddProviderKey(id, provider, key, authHeader) =>
      db.(tables := ProviderKeyAdded(t, id, provider, key, authHeader).0)
    case OpRemoveProviderKey(id) => db.(tables := ProviderKeyRemoved(t, id).0)
    case OpImport(provider, names, ids) => db.(tables := ModelsImported(t, provider, names, ids).0)
    case OpAddUser(id, username, tier) => db.(tables := UserAdded(t, id, username, tier).0)
    case OpFindUser(username) =>
      var u := FindUser(t.users, username);
      if u.Some? then db.(found := db.found + {u.value.id}) else db
    case OpAddUserKey(id, userId, key, tier, maxLimit, expiresAt) =>
      db.(tables := UserKeyAdded(t, id, userId, key, tier, maxLimit, expiresAt).0)
    case OpRevoke(key) => db.(tables := t.(userKeys := KeyRevoked(t.userKeys, key)))
    case OpMarkUsed(id) => db.(tables := t.(userKeys := UseCounted(t.userKeys, id)))
    case OpMarkSuccess(id) => db.(tables := t.(providerKeys := SuccessCounted(t.providerKeys, id)))
    case OpMarkFailure(id) => db.(tables := t.(providerKeys := FailureCounted(t.providerKeys, id)))
    case OpSetStatus(name, status) => db.(tables := t.(providers := StatusSet(t.providers, name, status)))
    case OpSetHealth(name, health) => db.(tables := t.(providers := HealthSet(t.providers, name, health)))
    case OpLog(entry) => db.(tables := t.(logs := t.logs + [entry]))
  }

  /** The store's invariant; looked-up users stay, because no operation deletes one. */
  predicate Sound(db: Db) {
    Consistent(db.tables) && forall id :: id in db.found ==> UserWithId(db.tables, id)
  }

  // ---- how reference targets survive ----

  lemma UniqueWithoutKeysOf(ks: seq<ProviderKey>, provider: string)
    requires UniqueProviderKeys(ks)
    ensures UniqueProviderKeys(WithoutKeysOf(ks, provider))
  {
    if ks != [] {
      UniqueWithoutKeysOf(ks[1..], provider);
    }
  }

  lemma UniqueWithoutKey(ks: seq<ProviderKey>, id: string)
    requires UniqueProviderKeys(ks)
    ensures UniqueProviderKeys(WithoutKey(ks, id))
  {
    if ks != [] {
      UniqueWithoutKey(ks[1..], id);
    }
  }

  lemma UniqueWithoutModelsOf(ms: seq<Model>, providerId: string)
    requires UniqueModels(ms)
    ensures UniqueModels(WithoutModelsOf(ms, providerId))
  {
    if ms != [] {
      UniqueWithoutModelsOf(ms[1..], providerId);
    }
  }

  lemma UniqueWithoutProvider(ps: seq<Provider>, name: string)
    requires UniqueProviders(ps)
    ensures UniqueProviders(WithoutProvider(ps, name))
  {
    if ps != [] {
      UniqueWithoutProvider(ps[1..], name);
    }
  }

  /** References hold after each of the three deletes, not only after the last. */
  lemma DeleteStagesConsistent(t: Tables, p: Provider, stage: nat)
    requires Consistent(t) && p in t.providers
    ensures Consistent(ProviderDeletedUpTo(t, p, stage))
  {
    var t' := ProviderDeletedUpTo(t, p, stage);
    UniqueWithoutModelsOf(t.models, p.id);
    UniqueWithoutKeysOf(t.providerKeys, p.name);
    UniqueWithoutProvider(t.providers, p.name);
    forall k | k in t'.providerKeys ensures NamedProvider(t', k.provider) {
      var q :| q in t.providers && q.name == k.provider;
      assert q in t'.providers;
    }
    forall m | m in t'.models ensures ProviderWithId(t', m.providerId) {
      var q :| q in t.providers && q.id == m.providerId;
      if stage >= 3 && q.name == p.name {
        SameNameSameProvider(t, p, q);
      }
      assert q in t'.providers;
    }
    forall k | k in t'.userKeys ensures UserWithId(t', k.userId) {
      var u :| u in t.users && u.id == k.userId;
      assert u in t'.users;
    }
  }

  lemma SameNameSameProvider(t: Tables, p: Provider, q: Provider)
    requires UniqueRows(t) && p in t.providers && q in t.providers && p.name == q.name
    ensures p == q
  {
    var i :| 0 <= i < |t.providers| && t.providers[i] == p;
    var j :| 0 <= j < |t.providers| && t.providers[j] == q;
  }

  /** Tables that have only gained users or providers keep every old reference. */
  lemma GrownTargets(t: Tables, t': Tables)
    requires t.users <= t'.users && t.providers <= t'.providers
    ensures forall id :: UserWithId(t, id) ==> UserWithId(t', id)
    ensures forall id :: ProviderWithId(t, id) ==> ProviderWithId(t', id)
    ensures forall name :: NamedProvider(t, name) ==> NamedProvider(t', name)
  {
    assert forall u :: u in t.users ==> u in t'.users;
    assert forall p :: p in t.providers ==> p in t'.providers;
  }

  lemma AddProviderConsistent(db: Db, op: Op)
    requires Sound(db) && op.OpAddProvider?
    ensures Sound(Apply(db, op))
  {
    GrownTargets(db.tables, Apply(db, op).tables);
  }

  lemma AddProviderKeyConsistent(db: Db, op: Op)
    requires Sound(db) && op.OpAddProviderKey?
    ensures Sound(Apply(db, op))
  {
    GrownTargets(db.tables, Apply(db, op).tables);
  }

  lemma AddUserConsistent(db: Db, op: Op)
    requires Sound(db) && op.OpAddUser?
    ensures Sound(Apply(db, op))
  {
    GrownTargets(db.tables, Apply(db, op).tables);
  }

  lemma AddUserKeyConsistent(db: Db, op: Op)
    requires Sound(db) && Enabled(db, op) && op.OpAddUserKey?
    ensures Sound(Apply(db, op))
  {
    GrownTargets(db.tables, Apply(db, op).tables);
  }

  lemma ImportConsistent(db: Db, op: Op)
    requires Sound(db) && Enabled(db, op) && op.OpImport?
    ensures Sound(Apply(db, op))
  {
    var t := db.tables;
    var p := FindProvider(t.providers, op.provider);
    if p.Some? {
      var t' := Apply(db, op).tables;
      ImportGrows(t.models, p.value.id, op.names, op.ids);
      ImportUnique(t.models, p.value.id, op.names, op.ids);
      GrownTargets(t, t');
      assert ProviderWithId(t', p.value.id);
    }
  }

  lemma DeletesConsistent(db: Db, op: Op)
    requires Sound(db) && Enabled(db, op) && (op.OpDeleteProvider? || op.OpRemoveProviderKey?)
    ensures Sound(Apply(db, op))
  {
    var t, t' := db.tables, Apply(db, op).tables;
    if op.OpRemoveProviderKey? {
      UniqueWithoutKey(t.providerKeys, op.id);
      GrownTargets(t, t');
    } else if FindProvider(t.providers, op.name).Some? {
      DeleteStagesConsistent(t, FindProvider(t.providers, op.name).value, 3);
      forall id | id in db.found ensures UserWithId(t', id) {
        var u :| u in t.users && u.id == id;
        assert u in t'.users;
      }
    }
  }

  /** The same rows in the same places, up to columns that neither identify nor refer. */
  predicate SameShape(t: Tables, t': Tables) {
    && t'.users == t.users && t'.models == t.models
    && |t'.userKeys| == |t.userKeys| && |t'.providerKeys| == |t.providerKeys| && |t'.providers| == |t.providers|
    && (forall i :: 0 <= i < |t.userKeys| ==>
          var k, k' := t.userKeys[i], t'.userKeys[i]; k'.id == k.id && k'.key == k.key && k'.userId == k.userId)
    && (forall i :: 0 <= i < |t.providerKeys| ==>
          var k, k' := t.providerKeys[i], t'.providerKeys[i];
          k'.id == k.id && k'.key == k.key && k'.provider == k.provider)
    && (forall i :: 0 <= i < |t.providers| ==>
          var p, p' := t.providers[i], t'.providers[i]; p'.id == p.id && p'.name == p.name)
  }

  lemma SameShapeTargets(t: Tables, t': Tables)
    requires SameShape(t, t')
    ensures forall id :: UserWithId(t, id) ==> UserWithId(t', id)
    ensures forall id :: ProviderWithId(t, id) ==> ProviderWithId(t', id)
    ensures forall name :: NamedProvider(t, name) ==> NamedProvider(t', name)
  {
    forall p | p in t.providers ensures NamedProvider(t', p.name) && ProviderWithId(t', p.id) {
      var i :| 0 <= i < |t.providers| && t.providers[i] == p;
      assert t'.providers[i] in t'.providers;
    }
  }

  lemma SameShapeConsistent(t: Tables, t': Tables)
    requires SameShape(t, t') && Consistent(t)
    ensures Consistent(t')
  {
    SameShapeTargets(t, t');
    forall k | k in t'.providerKeys ensures NamedProvider(t', k.provider) {
      var i :| 0 <= i < |t'.providerKeys| && t'.providerKeys[i] == k;
      assert t.providerKeys[i] in t.providerKeys;
    }
    forall k | k in t'.userKeys ensures UserWithId(t', k.userId) {
      var i :| 0 <= i < |t'.userKeys| && t'.userKeys[i] == k;
      assert t.userKeys[i] in t.userKeys;
    }
  }

  lemma UpdatesConsistent(db: Db, op: Op)
    requires Sound(db) && Enabled(db, op)
    requires op.OpRevoke? || op.OpMarkUsed? || op.OpMarkSuccess? || op.OpMarkFailure? || op.OpSetStatus?
          || op.OpSetHealth? || op.OpLog? || op.OpFindUser?
    ensures Sound(Apply(db, op))
  {
    var t, t' := db.tables, Apply(db, op).tables;
    assert SameShape(t, t');
    SameShapeConsistent(t, t');
    SameShapeTargets(t, t');
    if op.OpFindUser? && FindUser(t.users, op.username).Some? {
      assert UserWithId(t', FindUser(t.users, op.username).value.id);
    }
  }

  lemma ApplySound(db: Db, op: Op)
    requires Sound(db) && Enabled(db, op)
    ensures Sound(Apply(db, op))
  {
    if op.OpAddProvider? {
      AddProviderConsistent(db, op);
    } else if op.OpAddProviderKey? {
      AddProviderKeyConsistent(db, op);
    } else if op.OpAddUser? {
      AddUserConsistent(db, op);
    } else if op.OpAddUserKey? {
      AddUserKeyConsistent(db, op);
    } else if op.OpImport? {
      ImportConsistent(db, op);
    } else if op.OpDeleteProvider? || op.OpRemoveProviderKey? {
      DeletesConsistent(db, op);
    } else {
      UpdatesConsistent(db, op);
    }
  }

  // ---- what a user key row may do ----

  /** A row keeps its identity, owner and limit, never uncounts a use, and is never reactivated. */
  predicate RowEvolves(k: UserKey, k': UserKey) {
    && k'.id == k.id && k'.userId == k.userId && k'.key == k.key && k'.tier == k.tier
    && k'.maxLimit == k.maxLimit && k'.expiresAt == k.expiresAt
    && k.used <= k'.used
    && (k'.status == k.status || (k.status.Active? && k'.status.Revoked?))
  }

  predicate KeysEvolve(ks: seq<UserKey>, ks': seq<UserKey>) {
    |ks| <= |ks'| && forall i :: 0 <= i < |ks| ==> RowEvolves(ks[i], ks'[i])
  }

  lemma ApplyEvolves(db: Db, op: Op)
    requires Enabled(db, op)
    ensures KeysEvolve(db.tables.userKeys, Apply(db, op).tables.userKeys)
  {
  }

  /** Revoking a key value revokes its row, if it was active, and touches no other. */
  lemma RevokeExact(t: Tables, key: string, i: nat)
    requires UniqueRows(t) && i < |t.userKeys|
    ensures
      var (k, k') := (t.userKeys[i], KeyRevoked(t.userKeys, key)[i]);
      if k.key == key then !k'.status.Active? && k' == k.(status := k'.status) && (!k.status.Active? ==> k' == k)
      else k' == k
  {
  }

  // ---- runs ----

  /** `ops` can be performed in this order from `db`. */
  predicate Possible(db: Db, ops: seq<Op>)
    decreases |ops|
  {
    ops == [] || (Enabled(db, ops[0]) && Possible(Apply(db, ops[0]), ops[1..]))
  }

  function Run(db: Db, ops: seq<Op>): Db
    requires Possible(db, ops)
    decreases |ops|
  {
    if ops == [] then db else Run(Apply(db, ops[0]), ops[1..])
  }

  /**
   Over every interleaving: rows stay unique, every reference has its target, and every user
   key row keeps its identity while its status only ever moves from active to revoked.
   */
  lemma {:induction false} RunSound(db: Db, ops: seq<Op>)
    requires Sound(db) && Possible(db, ops)
    ensures Sound(Run(db, ops)) && KeysEvolve(db.tables.userKeys, Run(db, ops).tables.userKeys)
    decreases |ops|
  {
    if ops != [] {
      ApplySound(db, ops[0]);
      ApplyEvolves(db, ops[0]);
      RunSound(Apply(db, ops[0]), ops[1..]);
    }
  }

  /** The lookup before the insert matters: inserting a key keeps a store consistent iff its user exists or it fails. */
  lemma InsertConsistentIff(t: Tables, id: string, userId: string, key: string, tier: string, maxLimit: int,
                            expiresAt: Option<string>)
    requires Consistent(t)
    ensures
      var (t', r) := UserKeyAdded(t, id, userId, key, tier, maxLimit, expiresAt);
      Consistent(t') <==> r.Err? || UserWithId(t, userId)
  {
    var (t', r) := UserKeyAdded(t, id, userId, key, tier, maxLimit, expiresAt);
    if r.Ok? {
      GrownTargets(t, t');
      assert t'.userKeys[|t.userKeys|] in t'.userKeys;
    }
  }
}
