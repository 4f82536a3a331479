/**
 The row store (rust-core/src/db.rs): five tables and the log, each method one critical
 section.  A table is the sequence of its rows in insertion order.  Identifiers that the
 code draws at random are parameters; an insert that breaks a PRIMARY KEY or UNIQUE
 constraint fails and changes nothing.
 */
module Store {
  import opened Common

  datatype Status = Active | Inactive | Revoked

  datatype User = User(id: string, username: string, tier: string)

  datatype UserKey = UserKey(id: string, userId: string, key: string, tier: string, status: Status,
                             maxLimit: int, used: nat, expiresAt: Option<string>)

  datatype ProviderKey = ProviderKey(id: string, provider: string, key: string, authHeader: Option<string>,
                                     status: Status, used: nat, failed: nat)

  datatype Provider = Provider(id: string, name: string, baseUrl: string, status: Status, health: int)

  datatype Model = Model(id: string, providerId: string, name: string)

  datatype LogKind = BotBlock | Request | RequestFail | Admin

  datatype LogEntry = LogEntry(kind: LogKind, ip: Option<string>, userId: Option<string>)

  datatype Tables = Tables(users: seq<User>, userKeys: seq<UserKey>, providerKeys: seq<ProviderKey>,
                           providers: seq<Provider>, models: seq<Model>, logs: seq<LogEntry>)

  const EmptyTables := Tables([], [], [], [], [], [])

  // ---- lookups ----

  function FindProvider(providers: seq<Provider>, name: string): (r: Option<Provider>)
    ensures r.Some? ==> r.value in providers && r.value.name == name
    ensures r.None? ==> forall p :: p in providers ==> p.name != name
  {
    if providers == [] then None
    else if providers[0].name == name then Some(providers[0])
    else FindProvider(providers[1..], name)
  }

  function FindUser(users: seq<User>, username: string): (r: Option<User>)
    ensures r.Some? ==> r.value in users && r.value.username == username
    ensures r.None? ==> forall u :: u in users ==> u.username != username
  {
    if users == [] then None
    else if users[0].username == username then Some(users[0])
    else FindUser(users[1..], username)
  }

  function FindUserKey(userKeys: seq<UserKey>, key: string): (r: Option<UserKey>)
    ensures r.Some? ==> r.value in userKeys && r.value.key == key
    ensures r.None? ==> forall k :: k in userKeys ==> k.key != key
  {
    if userKeys == [] then None
    else if userKeys[0].key == key then Some(userKeys[0])
    else FindUserKey(userKeys[1..], key)
  }

  function KeysOf(keys: seq<ProviderKey>, provider: string): (r: seq<ProviderKey>)
    ensures forall k :: k in r <==> k in keys && k.provider == provider
  {
    if keys == [] then []
    else (if keys[0].provider == provider then [keys[0]] else []) + KeysOf(keys[1..], provider)
  }

  /** Ids of the active keys among `keys`, in order: the load balancer's candidates. */
  function ActiveIds(keys: seq<ProviderKey>): (ids: seq<string>)
    ensures forall id :: id in ids <==> exists k :: k in keys && k.status.Active? && k.id == id
  {
    if keys == [] then []
    else (if keys[0].status.Active? then [keys[0].id] else []) + ActiveIds(keys[1..])
  }

  function ActiveKeys(keys: seq<ProviderKey>): (r: seq<ProviderKey>)
    ensures forall k :: k in r <==> k in keys && k.status.Active?
  {
    if keys == [] then []
    else (if keys[0].status.Active? then [keys[0]] else []) + ActiveKeys(keys[1..])
  }

  function IdsOf(keys: seq<ProviderKey>): (ids: seq<string>)
    ensures |ids| == |keys|
    ensures forall i :: 0 <= i < |keys| ==> ids[i] == keys[i].id
  {
    seq(|keys|, i requires 0 <= i < |keys| => keys[i].id)
  }

  lemma {:induction false} ActiveIdsOf(keys: seq<ProviderKey>)
    ensures ActiveIds(keys) == IdsOf(ActiveKeys(keys))
  {
    if keys != [] {
      ActiveIdsOf(keys[1..]);
    }
  }

  /** With unique rows, the load balancer's candidates are distinct. */
  lemma {:induction false} CandidatesDistinct(keys: seq<ProviderKey>, provider: string)
    requires UniqueProviderKeys(keys)
    ensures NoRepeats(ActiveIds(KeysOf(keys, provider)))
  {
    if keys != [] {
      CandidatesDistinct(keys[1..], provider);
      if keys[0].provider == provider {
        var rest := KeysOf(keys[1..], provider);
        assert KeysOf(keys, provider) == [keys[0]] + rest && ([keys[0]] + rest)[1..] == rest;
        assert forall k :: k in rest ==> k.id != keys[0].id;
        assert keys[0].id !in ActiveIds(rest);
      } else {
        assert KeysOf(keys, provider) == KeysOf(keys[1..], provider);
      }
    }
  }

  function FindKey(keys: seq<ProviderKey>, id: string): (r: Option<ProviderKey>)
    ensures r.Some? ==> r.value in keys && r.value.id == id
    ensures r.None? ==> forall k :: k in keys ==> k.id != id
  {
    if keys == [] then None
    else if keys[0].id == id then Some(keys[0])
    else FindKey(keys[1..], id)
  }

  function NamesOf(models: seq<Model>, providerId: string): (r: seq<string>)
    ensures forall n :: n in r <==> exists m :: m in models && m.providerId == providerId && m.name == n
  {
    if models == [] then []
    else NamesOf(models[..|models| - 1], providerId)
         + (if models[|models| - 1].providerId == providerId then [models[|models| - 1].name] else [])
  }

  // ---- updates ----

  function UseCounted(keys: seq<UserKey>, id: string): seq<UserKey> {
    seq(|keys|, i requires 0 <= i < |keys| =>
      if keys[i].id == id then keys[i].(used := keys[i].used + 1) else keys[i])
  }

  function KeyRevoked(keys: seq<UserKey>, key: string): seq<UserKey> {
    seq(|keys|, i requires 0 <= i < |keys| =>
      if keys[i].key == key && keys[i].status.Active? then keys[i].(status := Revoked) else keys[i])
  }

  function SuccessCounted(keys: seq<ProviderKey>, id: string): seq<ProviderKey> {
    seq(|keys|, i requires 0 <= i < |keys| =>
      if keys[i].id == id then keys[i].(used := keys[i].used + 1, failed := 0) else keys[i])
  }

  function FailureCounted(keys: seq<ProviderKey>, id: string): seq<ProviderKey> {
    seq(|keys|, i requires 0 <= i < |keys| =>
      if keys[i].id == id then keys[i].(failed := keys[i].failed + 1) else keys[i])
  }

  function StatusSet(providers: seq<Provider>, name: string, status: Status): seq<Provider> {
    seq(|providers|, i requires 0 <= i < |providers| =>
      if providers[i].name == name then providers[i].(status := status) else providers[i])
  }

  function HealthSet(providers: seq<Provider>, name: string, health: int): seq<Provider> {
    seq(|providers|, i requires 0 <= i < |providers| =>
      if providers[i].name == name then providers[i].(health := health) else providers[i])
  }

  // ---- deletes ----

  function WithoutModelsOf(models: seq<Model>, providerId: string): (r: seq<Model>)
    ensures forall m :: m in r <==> m in models && m.providerId != providerId
  {
    if models == [] then []
    else (if models[0].providerId == providerId then [] else [models[0]]) + WithoutModelsOf(models[1..], providerId)
  }

  function WithoutKeysOf(keys: seq<ProviderKey>, provider: string): (r: seq<ProviderKey>)
    ensures forall k :: k in r <==> k in keys && k.provider != provider
  {
    if keys == [] then []
    else (if keys[0].provider == provider then [] else [keys[0]]) + WithoutKeysOf(keys[1..], provider)
  }

  function WithoutKey(keys: seq<ProviderKey>, id: string): (r: seq<ProviderKey>)
    ensures forall k :: k in r <==> k in keys && k.id != id
  {
    if keys == [] then []
    else (if keys[0].id == id then [] else [keys[0]]) + WithoutKey(keys[1..], id)
  }

  function WithoutProvider(providers: seq<Provider>, name: string): (r: seq<Provider>)
    ensures forall p :: p in r <==> p in providers && p.name != name
  {
    if providers == [] then []
    else (if providers[0].name == name then [] else [providers[0]]) + WithoutProvider(providers[1..], name)
  }

  // ---- the operations on all tables ----

  function ProviderAdded(t: Tables, id: string, name: string, url: string): (Tables, Result<()>) {
    if FindProvider(t.providers, name).Some? then (t, Err(AlreadyExists))
    else if exists p :: p in t.providers && p.id == id then (t, Err(ConstraintFailed))
    else (t.(providers := t.providers + [Provider(id, name, url, Active, 100)]), Ok(()))
  }

  /** The three deletes of `delete_provider`, after `stage` of them. */
  function ProviderDeletedUpTo(t: Tables, p: Provider, stage: nat): Tables {
    var t1 := if stage >= 1 then t.(models := WithoutModelsOf(t.models, p.id)) else t;
    var t2 := if stage >= 2 then t1.(providerKeys := WithoutKeysOf(t1.providerKeys, p.name)) else t1;
    if stage >= 3 then t2.(providers := WithoutProvider(t2.providers, p.name)) else t2
  }

  function ProviderDeleted(t: Tables, name: string): (Tables, bool) {
    var p := FindProvider(t.providers, name);
    if p.None? then (t, false) else (ProviderDeletedUpTo(t, p.value, 3), true)
  }

  function ProviderKeyAdded(t: Tables, id: string, provider: string, key: string, authHeader: Option<string>)
    : (Tables, Result<()>)
  {
    if FindProvider(t.providers, provider).None? then (t, Err(NotFound))
    else if exists k :: k in t.providerKeys && (k.id == id || k.key == key) then (t, Err(ConstraintFailed))
    else (t.(providerKeys := t.providerKeys + [ProviderKey(id, provider, key, authHeader, Active, 0, 0)]), Ok(()))
  }

  function ProviderKeyRemoved(t: Tables, id: string): (Tables, bool) {
    (t.(providerKeys := WithoutKey(t.providerKeys, id)), exists k :: k in t.providerKeys && k.id == id)
  }

  function UserAdded(t: Tables, id: string, username: string, tier: string): (Tables, Result<()>) {
    if FindUser(t.users, username).Some? then (t, Err(AlreadyExists))
    else if exists u :: u in t.users && u.id == id then (t, Err(ConstraintFailed))
    else (t.(users := t.users + [User(id, username, tier)]), Ok(()))
  }

  /** Inserts without looking at the users table: the schema has no foreign key here. */
  function UserKeyAdded(t: Tables, id: string, userId: string, key: string, tier: string, maxLimit: int,
                      expiresAt: Option<string>): (Tables, Result<()>)
  {
    if exists k :: k in t.userKeys && (k.id == id || k.key == key) then (t, Err(ConstraintFailed))
    else (t.(userKeys := t.userKeys + [UserKey(id, userId, key, tier, Active, maxLimit, 0, expiresAt)]), Ok(()))
  }

  // ---- consistency ----

  predicate NamedProvider(t: Tables, name: string) {
    exists p :: p in t.providers && p.name == name
  }

  predicate ProviderWithId(t: Tables, id: string) {
    exists p :: p in t.providers && p.id == id
  }

  predicate UserWithId(t: Tables, id: string) {
    exists u :: u in t.users && u.id == id
  }

  predicate UniqueRows(t: Tables) {
    && (forall i, j :: 0 <= i < j < |t.users| ==>
          t.users[i].id != t.users[j].id && t.users[i].username != t.users[j].username)
    && (forall i, j :: 0 <= i < j < |t.userKeys| ==>
          t.userKeys[i].id != t.userKeys[j].id && t.userKeys[i].key != t.userKeys[j].key)
    && UniqueProviders(t.providers) && UniqueProviderKeys(t.providerKeys) && UniqueModels(t.models)
  }

  predicate UniqueProviders(ps: seq<Provider>) {
    forall i, j :: 0 <= i < j < |ps| ==> ps[i].id != ps[j].id && ps[i].name != ps[j].name
  }

  predicate UniqueProviderKeys(ks: seq<ProviderKey>) {
    forall i, j :: 0 <= i < j < |ks| ==> ks[i].id != ks[j].id && ks[i].key != ks[j].key
  }

  predicate UniqueModels(ms: seq<Model>) {
    forall i, j :: 0 <= i < j < |ms| ==> ms[i].id != ms[j].id
  }

  /** Every reference between tables has its target. */
  predicate References(t: Tables) {
    && (forall k :: k in t.providerKeys ==> NamedProvider(t, k.provider))
    && (forall m :: m in t.models ==> ProviderWithId(t, m.providerId))
    && (forall k :: k in t.userKeys ==> UserWithId(t, k.userId))
  }

  predicate Consistent(t: Tables) {
    UniqueRows(t) && References(t)
  }

  // ---- importing models ----

  /** Unicode White_Space, what Rust's `trim` removes. */
  predicate IsWhite(c: char) {
    || '\U{0009}' <= c <= '\U{000D}' || c == ' ' || c == '\U{0085}' || c == '\U{00A0}' || c == '\U{1680}'
    || '\U{2000}' <= c <= '\U{200A}' || c == '\U{2028}' || c == '\U{2029}' || c == '\U{202F}' || c == '\U{205F}'
    || c == '\U{3000}'
  }

  function Trim(s: string): string {
    Strip(s, IsWhite)
  }

  /** Which characters around a model's name do not belong to it, by their code points. */
  lemma TrimmedCharacters(c: char, name: string)
    requires name != "" && !IsWhite(name[0]) && !IsWhite(name[|name| - 1])
    ensures
      var u := c as int;
      Trim([c] + name + [c]) == name
      <==> || 0x09 <= u <= 0x0D || u == 0x20 || u == 0x85 || u == 0xA0 || u == 0x1680 || 0x2000 <= u <= 0x200A
           || u == 0x2028 || u == 0x2029 || u == 0x202F || u == 0x205F || u == 0x3000
  {
    var s := [c] + name + [c];
    if IsWhite(c) {
      StripUnique(s, IsWhite, 1, |s| - 1);
      assert s[1..|s| - 1] == name;
    } else {
      StripUnique(s, IsWhite, 0, |s|);
      assert |Trim(s)| == |name| + 2;
    }
  }

  predicate ModelIdTaken(models: seq<Model>, id: string) {
    exists m :: m in models && m.id == id
  }

  /** One name of an import: skipped if blank, present already, or refused by the insert. */
  function ImportOne(models: seq<Model>, providerId: string, raw: string, id: string): seq<Model> {
    var name := Trim(raw);
    if name == "" || name in NamesOf(models, providerId) || ModelIdTaken(models, id) then models
    else models + [Model(id, providerId, name)]
  }

  function Import(models: seq<Model>, providerId: string, names: seq<string>, ids: seq<string>): seq<Model>
    requires |names| == |ids|
  {
    if names == [] then models
    else
      ImportOne(Import(models, providerId, names[..|names| - 1], ids[..|ids| - 1]), providerId,
                names[|names| - 1], ids[|ids| - 1])
  }

  function ModelsImported(t: Tables, provider: string, names: seq<string>, ids: seq<string>): (Tables, Result<nat>)
    requires |names| == |ids|
  {
    var p := FindProvider(t.providers, provider);
    if p.None? then (t, Err(NotFound))
    else
      var models := Import(t.models, p.value.id, names, ids);
      ImportGrows(t.models, p.value.id, names, ids);
      (t.(models := models), Ok(|models| - |t.models|))
  }

  lemma {:induction false} ImportGrows(models: seq<Model>, providerId: string, names: seq<string>, ids: seq<string>)
    requires |names| == |ids|
    ensures models <= Import(models, providerId, names, ids)
    ensures forall m :: m in Import(models, providerId, names, ids) && m !in models ==> m.providerId == providerId
  {
    if names != [] {
      ImportGrows(models, providerId, names[..|names| - 1], ids[..|ids| - 1]);
    }
  }

  /** The insert of every name would succeed. */
  predicate FreshIds(models: seq<Model>, ids: seq<string>) {
    && NoRepeats(ids)
    && forall i :: 0 <= i < |ids| ==> !ModelIdTaken(models, ids[i])
  }

  lemma NamesOfAppend(models: seq<Model>, m: Model, providerId: string)
    ensures NamesOf(models + [m], providerId)
         == NamesOf(models, providerId) + (if m.providerId == providerId then [m.name] else [])
  {
    assert (models + [m])[..|models|] == models;
  }

  /** Index of the first name that trims to `name`; the length if none does. */
  function FirstAt(names: seq<string>, name: string): (i: nat)
    ensures i <= |names|
    ensures i < |names| ==> Trim(names[i]) == name
    ensures forall j :: 0 <= j < i ==> Trim(names[j]) != name
  {
    if names == [] then 0
    else
      var i := FirstAt(names[..|names| - 1], name);
      if i < |names| - 1 then i else if Trim(names[|names| - 1]) == name then i else i + 1
  }

  /** `added` is what a stable, duplicate-free import of `names` adds to a list holding `existing`. */
  ghost predicate StableNew(existing: seq<string>, names: seq<string>, added: seq<string>) {
    && (forall n :: n in added <==> n != "" && n !in existing && FirstAt(names, n) < |names|)
    && (forall i, j :: 0 <= i < j < |added| ==> FirstAt(names, added[i]) < FirstAt(names, added[j]))
  }

  lemma StableNext(existing: seq<string>, names: seq<string>, added: seq<string>)
    requires names != [] && StableNew(existing, names[..|names| - 1], added)
    ensures
      var name := Trim(names[|names| - 1]);
      StableNew(existing, names, if name == "" || name in existing || name in added then added else added + [name])
  {
    var k := |names| - 1;
    forall n ensures FirstAt(names, n)
      == var i := FirstAt(names[..k], n); if i < k || Trim(names[k]) == n then i else k + 1 {}
  }

  lemma {:induction false} ImportedIds(models: seq<Model>, providerId: string, names: seq<string>, ids: seq<string>,
                                       id: string)
    requires |names| == |ids| && ModelIdTaken(Import(models, providerId, names, ids), id)
    ensures ModelIdTaken(models, id) || id in ids
  {
    if names != [] {
      var before := Import(models, providerId, names[..|names| - 1], ids[..|ids| - 1]);
      if ModelIdTaken(before, id) {
        ImportedIds(models, providerId, names[..|names| - 1], ids[..|ids| - 1], id);
      }
    }
  }

  function WithNew(held: seq<string>, name: string): seq<string> {
    if name == "" || name in held then held else held + [name]
  }

  lemma ImportOneFresh(models: seq<Model>, providerId: string, raw: string, id: string)
    requires !ModelIdTaken(models, id)
    ensures
      var name := Trim(raw);
      NamesOf(ImportOne(models, providerId, raw, id), providerId) == WithNew(NamesOf(models, providerId), name)
  {
    NamesOfAppend(models, Model(id, providerId, Trim(raw)), providerId);
  }

  lemma WithNewAdded(existing: seq<string>, added: seq<string>, name: string)
    ensures WithNew(existing + added, name)
         == existing + (if name == "" || name in existing || name in added then added else added + [name])
  {
    assert name in existing + added <==> name in existing || name in added;
    assert existing + added + [name] == existing + (added + [name]);
  }

  /** One more name: the list grows by it iff it is new. */
  lemma StableStep(models: seq<Model>, before: seq<Model>, providerId: string, names: seq<string>, id: string,
                   added: seq<string>) returns (added': seq<string>)
    requires names != [] && !ModelIdTaken(before, id)
    requires NamesOf(before, providerId) == NamesOf(models, providerId) + added
    requires StableNew(NamesOf(models, providerId), names[..|names| - 1], added)
    ensures NamesOf(ImportOne(before, providerId, names[|names| - 1], id), providerId)
         == NamesOf(models, providerId) + added'
    ensures StableNew(NamesOf(models, providerId), names, added')
  {
    var raw, existing := names[|names| - 1], NamesOf(models, providerId);
    var name := Trim(raw);
    ImportOneFresh(before, providerId, raw, id);
    StableNext(existing, names, added);
    added' := if name == "" || name in existing || name in added then added else added + [name];
    WithNewAdded(existing, added, name);
  }

  /**
   When every insert succeeds, an import appends to the provider's list exactly the names,
   trimmed, that are neither blank nor there already, each once, in order of first appearance.
   */
  lemma {:induction false} ImportIsStable(models: seq<Model>, providerId: string, names: seq<string>, ids: seq<string>)
    returns (added: seq<string>)
    requires |names| == |ids| && FreshIds(models, ids)
    ensures NamesOf(Import(models, providerId, names, ids), providerId) == NamesOf(models, providerId) + added
    ensures StableNew(NamesOf(models, providerId), names, added)
  {
    added := [];
    if names != [] {
      var k := |names| - 1;
      added := ImportIsStable(models, providerId, names[..k], ids[..k]);
      var before := Import(models, providerId, names[..k], ids[..k]);
      if ModelIdTaken(before, ids[k]) {
        ImportedIds(models, providerId, names[..k], ids[..k], ids[k]);
        assert false;
      }
      added := StableStep(models, before, providerId, names, ids[k], added);
    }
  }

  /** A duplicate-free list stays so, even when some of the inserts fail. */
  lemma {:induction false} ImportKeepsNoRepeats(models: seq<Model>, providerId: string, names: seq<string>,
                                                ids: seq<string>)
    requires |names| == |ids| && NoRepeats(NamesOf(models, providerId))
    ensures NoRepeats(NamesOf(Import(models, providerId, names, ids), providerId))
  {
    if names != [] {
      var k := |names| - 1;
      ImportKeepsNoRepeats(models, providerId, names[..k], ids[..k]);
      var before := Import(models, providerId, names[..k], ids[..k]);
      NamesOfAppend(before, Model(ids[k], providerId, Trim(names[k])), providerId);
    }
  }

  /** Rows keep distinct ids. */
  lemma {:induction false} ImportUnique(models: seq<Model>, providerId: string, names: seq<string>, ids: seq<string>)
    requires |names| == |ids| && UniqueModels(models)
    ensures UniqueModels(Import(models, providerId, names, ids))
  {
    if names != [] {
      var k := |names| - 1;
      ImportUnique(models, providerId, names[..k], ids[..k]);
      var before := Import(models, providerId, names[..k], ids[..k]);
      assert forall m :: m in before && m.id == ids[k] ==> ModelIdTaken(before, ids[k]);
    }
  }

  lemma ImportSnoc(models: seq<Model>, providerId: string, names: seq<string>, ids: seq<string>,
                   name: string, id: string)
    requires |names| == |ids|
    ensures Import(models, providerId, names + [name], ids + [id])
         == ImportOne(Import(models, providerId, names, ids), providerId, name, id)
  {
    assert (names + [name])[..|names|] == names && (ids + [id])[..|ids|] == ids;
  }

  /** Importing a ++ b is importing a, then b. */
  lemma {:induction false} ImportConcat(models: seq<Model>, providerId: string, a: seq<string>, b: seq<string>,
                                        ids: seq<string>, ids': seq<string>)
    requires |a| == |ids| && |b| == |ids'|
    ensures Import(models, providerId, a + b, ids + ids')
         == Import(Import(models, providerId, a, ids), providerId, b, ids')
    decreases |b|
  {
    if b == [] {
      assert a + b == a && ids + ids' == ids;
    } else {
      var k := |b| - 1;
      var first := Import(models, providerId, a, ids);
      calc {
        Import(models, providerId, a + b, ids + ids');
        { assert a + b == (a + b[..k]) + [b[k]] && ids + ids' == (ids + ids'[..k]) + [ids'[k]]; }
        Import(models, providerId, (a + b[..k]) + [b[k]], (ids + ids'[..k]) + [ids'[k]]);
        { ImportSnoc(models, providerId, a + b[..k], ids + ids'[..k], b[k], ids'[k]); }
        ImportOne(Import(models, providerId, a + b[..k], ids + ids'[..k]), providerId, b[k], ids'[k]);
        { ImportConcat(models, providerId, a, b[..k], ids, ids'[..k]); }
        ImportOne(Import(first, providerId, b[..k], ids'[..k]), providerId, b[k], ids'[k]);
        { ImportSnoc(first, providerId, b[..k], ids'[..k], b[k], ids'[k]); }
        Import(first, providerId, b[..k] + [b[k]], ids'[..k] + [ids'[k]]);
        { assert b[..k] + [b[k]] == b && ids'[..k] + [ids'[k]] == ids'; }
        Import(first, providerId, b, ids');
      }
    }
  }

  lemma {:induction false} ImportOfPresent(models: seq<Model>, providerId: string, names: seq<string>, ids: seq<string>)
    requires |names| == |ids|
    requires forall i :: 0 <= i < |names| ==> Trim(names[i]) == "" || Trim(names[i]) in NamesOf(models, providerId)
    ensures Import(models, providerId, names, ids) == models
  {
    if names != [] {
      ImportOfPresent(models, providerId, names[..|names| - 1], ids[..|ids| - 1]);
    }
  }

  /** A second import of the same names, whatever ids it draws, adds nothing. */
  lemma ImportIdempotent(models: seq<Model>, providerId: string, names: seq<string>, ids: seq<string>,
                         ids': seq<string>)
    requires |names| == |ids| == |ids'| && FreshIds(models, ids)
    ensures Import(Import(models, providerId, names, ids), providerId, names, ids')
         == Import(models, providerId, names, ids)
  {
    var added := ImportIsStable(models, providerId, names, ids);
    var after := Import(models, providerId, names, ids);
    forall i | 0 <= i < |names| ensures Trim(names[i]) == "" || Trim(names[i]) in NamesOf(after, providerId) {
      assert FirstAt(names, Trim(names[i])) < |names|;
    }
    ImportOfPresent(after, providerId, names, ids');
  }

  // ---- the store itself ----

  class Database {
    var tables: Tables

    constructor ()
      ensures tables == EmptyTables
    {
      tables := EmptyTables;
    }

    method AddProvider(id: string, name: string, url: string) returns (r: Result<()>)
      modifies this
      ensures (tables, r) == ProviderAdded(old(tables), id, name, url)
    {
      if FindProvider(tables.providers, name).Some? {
        return Err(AlreadyExists);
      }
      if exists p :: p in tables.providers && p.id == id {
        return Err(ConstraintFailed);
      }
      tables := tables.(providers := tables.providers + [Provider(id, name, url, Active, 100)]);
      return Ok(());
    }

    method DeleteProvider(name: string) returns (deleted: bool)
      modifies this
      ensures (tables, deleted) == ProviderDeleted(old(tables), name)
    {
      var provider := FindProvider(tables.providers, name);
      if provider.None? {
        return false;
      }
      tables := tables.(models := WithoutModelsOf(tables.models, provider.value.id));
      tables := tables.(providerKeys := WithoutKeysOf(tables.providerKeys, name));
      tables := tables.(providers := WithoutProvider(tables.providers, name));
      return true;
    }

    method AddProviderKey(id: string, provider: string, key: string, authHeader: Option<string>) returns (r: Result<()>)
      modifies this
      ensures (tables, r) == ProviderKeyAdded(old(tables), id, provider, key, authHeader)
    {
      if FindProvider(tables.providers, provider).None? {
        return Err(NotFound);
      }
      if exists k :: k in tables.providerKeys && (k.id == id || k.key == key) {
        return Err(ConstraintFailed);
      }
      var row := ProviderKey(id, provider, key, authHeader, Active, 0, 0);
      tables := tables.(providerKeys := tables.providerKeys + [row]);
      return Ok(());
    }

    method RemoveProviderKey(id: string) returns (removed: bool)
      modifies this
      ensures (tables, removed) == ProviderKeyRemoved(old(tables), id)
    {
      removed := exists k :: k in tables.providerKeys && k.id == id;
      tables := tables.(providerKeys := WithoutKey(tables.providerKeys, id));
    }

    method AddUser(id: string, username: string, tier: string) returns (r: Result<()>)
      modifies this
      ensures (tables, r) == UserAdded(old(tables), id, username, tier)
    {
      if FindUser(tables.users, username).Some? {
        return Err(AlreadyExists);
      }
      if exists u :: u in tables.users && u.id == id {
        return Err(ConstraintFailed);
      }
      tables := tables.(users := tables.users + [User(id, username, tier)]);
      return Ok(());
    }

    method AddUserKey(id: string, userId: string, key: string, tier: string, maxLimit: int, expiresAt: Option<string>)
      returns (r: Result<()>)
      modifies this
      ensures (tables, r) == UserKeyAdded(old(tables), id, userId, key, tier, maxLimit, expiresAt)
    {
      if exists k :: k in tables.userKeys && (k.id == id || k.key == key) {
        return Err(ConstraintFailed);
      }
      var row := UserKey(id, userId, key, tier, Active, maxLimit, 0, expiresAt);
      tables := tables.(userKeys := tables.userKeys + [row]);
      return Ok(());
    }

    method RevokeUserKey(key: string) returns (revoked: bool)
      modifies this
      ensures tables == old(tables).(userKeys := KeyRevoked(old(tables).userKeys, key))
      ensures revoked <==> exists k :: k in old(tables).userKeys && k.key == key && k.status.Active?
    {
      revoked := exists k :: k in tables.userKeys && k.key == key && k.status.Active?;
      tables := tables.(userKeys := KeyRevoked(tables.userKeys, key));
    }

    method MarkUserKeyUsed(id: string)
      modifies this
      ensures tables == old(tables).(userKeys := UseCounted(old(tables).userKeys, id))
    {
      tables := tables.(userKeys := UseCounted(tables.userKeys, id));
    }

    method MarkProviderKeySuccess(id: string)
      modifies this
      ensures tables == old(tables).(providerKeys := SuccessCounted(old(tables).providerKeys, id))
    {
      tables := tables.(providerKeys := SuccessCounted(tables.providerKeys, id));
    }

    method MarkProviderKeyFailure(id: string)
      modifies this
      ensures tables == old(tables).(providerKeys := FailureCounted(old(tables).providerKeys, id))
    {
      tables := tables.(providerKeys := FailureCounted(tables.providerKeys, id));
    }

    method SetProviderStatus(name: string, status: Status)
      modifies this
      ensures tables == old(tables).(providers := StatusSet(old(tables).providers, name, status))
    {
      tables := tables.(providers := StatusSet(tables.providers, name, status));
    }

    method SetProviderHealth(name: string, health: int)
      modifies this
      ensures tables == old(tables).(providers := HealthSet(old(tables).providers, name, health))
    {
      tables := tables.(providers := HealthSet(tables.providers, name, health));
    }

    method AddLog(entry: LogEntry)
      modifies this
      ensures tables == old(tables).(logs := old(tables).logs + [entry])
    {
      tables := tables.(logs := tables.logs + [entry]);
    }

    method ImportModels(provider: string, names: seq<string>, ids: seq<string>) returns (r: Result<nat>)
      requires |names| == |ids|
      modifies this
      ensures (tables, r) == ModelsImported(old(tables), provider, names, ids)
    {
      var info := FindProvider(tables.providers, provider);
      if info.None? {
        return Err(NotFound);
      }
      var providerId := info.value.id;
      var existing := NamesOf(tables.models, providerId);
      var added := 0;
      for i := 0 to |names|
        invariant tables == old(tables).(models := Import(old(tables).models, providerId, names[..i], ids[..i]))
        invariant existing == NamesOf(tables.models, providerId)
        invariant |tables.models| == |old(tables).models| + added
      {
        assert names[..i + 1][..i] == names[..i] && ids[..i + 1][..i] == ids[..i];
        var name := Trim(names[i]);
        if name == "" || name in existing {
          continue;
        }
        if !ModelIdTaken(tables.models, ids[i]) {
          NamesOfAppend(tables.models, Model(ids[i], providerId, name), providerId);
          tables := tables.(models := tables.models + [Model(ids[i], providerId, name)]);
          existing := existing + [name];
          added := added + 1;
        }
      }
      assert names[..|names|] == names && ids[..|ids|] == ids;
      return Ok(added);
    }
  }
}
