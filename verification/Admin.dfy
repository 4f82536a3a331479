/**
 The admin handlers that drive the row store (rust-core/src/admin.rs).  A handler is a short
 run of store operations, each a critical section of its own; the value-level account says
 which operations one served alone performs and what it answers.
 */
module Admin {
  import opened Common
  import opened Failover
  import opened Proxy
  import opened Store
  import opened StoreRows
  import opened StoreRuns
  import Routing

  datatype Command =
    | AddProvider(name: string, url: string)
    | DeleteProvider(name: string)
    | AddProviderKey(provider: string, key: string, authHeader: Option<string>)
    | DeleteProviderKey(keyId: string)
    | ImportModels(provider: string, names: seq<string>)
    | AddUser(username: string, tier: Option<string>)
    | GenerateKey(username: string, tier: Option<string>, maxLimit: Option<int>)
    | RevokeKey(key: string)

  /** What a handler draws or computes from the clock: ids, a key value, its expiry date. */
  datatype Drawn = Drawn(id: string, key: string, expiresAt: Option<string>, modelIds: seq<string>)

  function OrElse<T>(o: Option<T>, fallback: T): T {
    if o.Some? then o.value else fallback
  }

  function NonBlank(header: Option<string>): Option<string> {
    if header.Some? && Trim(header.value) == "" then None else header
  }

  /** One operation, and a log entry if it went through. */
  function Logging(op: Op, ok: bool, userId: Option<string>): seq<Op> {
    if ok then [op, OpLog(LogEntry(LogKind.Admin, None, userId))] else [op]
  }

  function KeyInsert(u: User, defaultLimit: int, c: Command, d: Drawn): Op
    requires c.GenerateKey?
  {
    OpAddUserKey(d.id, u.id, d.key, OrElse(c.tier, u.tier), OrElse(c.maxLimit, defaultLimit), d.expiresAt)
  }

  predicate KeyActive(keys: seq<UserKey>, key: string) {
    exists k :: k in keys && k.key == key && k.status.Active?
  }

  /** The status the handler answers with. */
  function Code(t: Tables, c: Command, d: Drawn): nat
    requires c.ImportModels? ==> |c.names| == |d.modelIds|
  {
    match c
    case AddProvider(name, url) => if ProviderAdded(t, d.id, name, url).1.Ok? then 201 else 400
    case DeleteProvider(name) => if ProviderDeleted(t, name).1 then 200 else 404
    case AddProviderKey(provider, key, authHeader) =>
      if ProviderKeyAdded(t, d.id, provider, key, NonBlank(authHeader)).1.Ok? then 201 else 400
    case DeleteProviderKey(keyId) => if ProviderKeyRemoved(t, keyId).1 then 200 else 404
    case ImportModels(provider, names) =>
      if names != [] && ModelsImported(t, provider, names, d.modelIds).1.Ok? then 200 else 400
    case AddUser(username, tier) => if UserAdded(t, d.id, username, OrElse(tier, "default")).1.Ok? then 201 else 400
    case GenerateKey(username, _, _) =>
      if FindUser(t.users, username).None? then 404
      else if UserKeyTaken(t.userKeys, d.id, d.key) then 400
      else 201
    case RevokeKey(key) => if KeyActive(t.userKeys, key) then 200 else 404
  }

  /** The store operations of a handler served alone, in order. */
  function Calls(t: Tables, defaultLimit: int, c: Command, d: Drawn): seq<Op>
    requires c.ImportModels? ==> |c.names| == |d.modelIds|
  {
    var ok := Code(t, c, d) < 400;
    match c
    case AddProvider(name, url) => Logging(OpAddProvider(d.id, name, url), ok, None)
    case DeleteProvider(name) => Logging(OpDeleteProvider(name), ok, None)
    case AddProviderKey(provider, key, authHeader) =>
      Logging(OpAddProviderKey(d.id, provider, key, NonBlank(authHeader)), ok, None)
    case DeleteProviderKey(keyId) => Logging(OpRemoveProviderKey(keyId), ok, None)
    case ImportModels(provider, names) =>
      if names == [] then [] else Logging(OpImport(provider, names, d.modelIds), ok, None)
    case AddUser(username, tier) => Logging(OpAddUser(d.id, username, OrElse(tier, "default")), ok, None)
    case GenerateKey(username, _, _) =>
      var u := FindUser(t.users, username);
      if u.None? then [OpFindUser(username)]
      else [OpFindUser(username)] + Logging(KeyInsert(u.value, defaultLimit, c, d), ok, Some(u.value.id))
    case RevokeKey(key) => Logging(OpRevoke(key), ok, None)
  }

  // ---- a handler as a run of the store ----

  /** The store after one operation, logged if it went through. */
  lemma LoggingRuns(db: Db, op: Op, ok: bool, userId: Option<string>)
    requires Enabled(db, op)
    ensures Possible(db, Logging(op, ok, userId))
    ensures
      var db' := Apply(db, op);
      Run(db, Logging(op, ok, userId))
      == if ok then Apply(db', OpLog(LogEntry(LogKind.Admin, None, userId))) else db'
  {
    var log := OpLog(LogEntry(LogKind.Admin, None, userId));
    assert [op][1..] == [] && [op, log][1..] == [log] && [log][1..] == [];
    assert Run(Apply(Apply(db, op), log), []) == Apply(Apply(db, op), log);
    assert Run(Apply(db, op), [log]) == Apply(Apply(db, op), log);
  }

  lemma GenerateRuns(db: Db, defaultLimit: int, c: Command, d: Drawn)
    requires c.GenerateKey?
    ensures Possible(db, Calls(db.tables, defaultLimit, c, d))
    ensures
      var u := FindUser(db.tables.users, c.username);
      var db' := Apply(db, OpFindUser(c.username));
      Run(db, Calls(db.tables, defaultLimit, c, d))
      == if u.None? then db'
         else Run(db', Logging(KeyInsert(u.value, defaultLimit, c, d), Code(db.tables, c, d) < 400, Some(u.value.id)))
  {
    var find, calls := OpFindUser(c.username), Calls(db.tables, defaultLimit, c, d);
    var u := FindUser(db.tables.users, c.username);
    assert calls[0] == find;
    if u.Some? {
      var rest := Logging(KeyInsert(u.value, defaultLimit, c, d), Code(db.tables, c, d) < 400, Some(u.value.id));
      assert calls[1..] == rest;
      LoggingRuns(Apply(db, find), KeyInsert(u.value, defaultLimit, c, d), Code(db.tables, c, d) < 400,
                  Some(u.value.id));
    } else {
      assert calls[1..] == [];
    }
  }

  /** The tables when the handler has answered. */
  function Served(t: Tables, defaultLimit: int, c: Command, d: Drawn): Tables
    requires c.ImportModels? ==> |c.names| == |d.modelIds|
  {
    HandlerRuns(Db(t, {}), defaultLimit, c, d);
    Run(Db(t, {}), Calls(t, defaultLimit, c, d)).tables
  }

  lemma HandlerRuns(db: Db, defaultLimit: int, c: Command, d: Drawn)
    requires c.ImportModels? ==> |c.names| == |d.modelIds|
    ensures Possible(db, Calls(db.tables, defaultLimit, c, d))
  {
    var calls := Calls(db.tables, defaultLimit, c, d);
    if c.GenerateKey? {
      GenerateRuns(db, defaultLimit, c, d);
    } else if calls != [] {
      LoggingRuns(db, calls[0], Code(db.tables, c, d) < 400, None);
    }
  }

  /** Every handler, served alone, keeps a consistent store consistent; the lookup `GenerateKey` needs is its own. */
  lemma HandlersSound(t: Tables, defaultLimit: int, c: Command, d: Drawn)
    requires c.ImportModels? ==> |c.names| == |d.modelIds|
    requires Consistent(t)
    ensures Consistent(Served(t, defaultLimit, c, d))
    ensures KeysEvolve(t.userKeys, Served(t, defaultLimit, c, d).userKeys)
  {
    HandlerRuns(Db(t, {}), defaultLimit, c, d);
    RunSound(Db(t, {}), Calls(t, defaultLimit, c, d));
  }

  // ---- what the answers mean ----

  lemma NothingToRevoke(keys: seq<UserKey>, key: string)
    requires !KeyActive(keys, key)
    ensures KeyRevoked(keys, key) == keys
  {
    assert forall i :: 0 <= i < |keys| ==> keys[i] in keys;
  }

  /** The tables after the one writing operation of a handler other than `GenerateKey`. */
  lemma ServedByOne(t: Tables, defaultLimit: int, c: Command, d: Drawn)
    requires c.ImportModels? ==> |c.names| == |d.modelIds|
    requires !c.GenerateKey? && Calls(t, defaultLimit, c, d) != []
    ensures
      var op := Calls(t, defaultLimit, c, d)[0];
      && Enabled(Db(t, {}), op)
      && var t' := Apply(Db(t, {}), op).tables;
         Served(t, defaultLimit, c, d)
         == if Code(t, c, d) < 400 then t'.(logs := t'.logs + [LogEntry(LogKind.Admin, None, None)]) else t'
  {
    LoggingRuns(Db(t, {}), Calls(t, defaultLimit, c, d)[0], Code(t, c, d) < 400, None);
  }

  lemma RefusedByOne(t: Tables, defaultLimit: int, c: Command, d: Drawn)
    requires c.ImportModels? ==> |c.names| == |d.modelIds|
    requires !c.GenerateKey? && Code(t, c, d) >= 400
    ensures Served(t, defaultLimit, c, d) == t
  {
    if Calls(t, defaultLimit, c, d) != [] {
      ServedByOne(t, defaultLimit, c, d);
      if c.DeleteProviderKey? {
        RemoveProviderKeyMeans(t, c.keyId);
      } else if c.RevokeKey? {
        NothingToRevoke(t.userKeys, c.key);
      }
    }
  }

  /**
   A refusal means that nothing has changed, and a command that went through has left exactly
   one entry in the log, under the user's id for a key handed out.
   */
  lemma RefusedIffUnchanged(t: Tables, defaultLimit: int, c: Command, d: Drawn)
    requires c.ImportModels? ==> |c.names| == |d.modelIds|
    ensures Code(t, c, d) >= 400 <==> Served(t, defaultLimit, c, d) == t
    ensures Code(t, c, d) < 400 ==>
      var userId := if c.GenerateKey? then Some(FindUser(t.users, c.username).value.id) else None;
      Served(t, defaultLimit, c, d).logs == t.logs + [LogEntry(LogKind.Admin, None, userId)]
  {
    if c.GenerateKey? {
      GeneratedTables(t, defaultLimit, c, d);
    } else if Code(t, c, d) >= 400 {
      RefusedByOne(t, defaultLimit, c, d);
    } else {
      ServedByOne(t, defaultLimit, c, d);
    }
  }

  lemma GeneratedTables(t: Tables, defaultLimit: int, c: Command, d: Drawn)
    requires c.GenerateKey?
    ensures Code(t, c, d) >= 400 ==> Served(t, defaultLimit, c, d) == t
    ensures Code(t, c, d) < 400 ==>
      var u := FindUser(t.users, c.username).value;
      var t' := UserKeyAdded(t, d.id, u.id, d.key, OrElse(c.tier, u.tier), OrElse(c.maxLimit, defaultLimit),
                             d.expiresAt).0;
      Served(t, defaultLimit, c, d) == t'.(logs := t'.logs + [LogEntry(LogKind.Admin, None, Some(u.id))])
  {
    GenerateRuns(Db(t, {}), defaultLimit, c, d);
    var u := FindUser(t.users, c.username);
    if u.Some? {
      var db := Apply(Db(t, {}), OpFindUser(c.username));
      LoggingRuns(db, KeyInsert(u.value, defaultLimit, c, d), Code(t, c, d) < 400, Some(u.value.id));
    }
  }

  /**
   A key handed out is a key that works: presented with a path that names a provider it
   authenticates, until it expires, as its user's, unused, with the limit and tier asked for, and
   without them the configured limit and the user's tier.
   */
  lemma GeneratedKeyAuthenticates(t: Tables, defaultLimit: int, c: Command, d: Drawn, rq: Request, expired: bool)
    requires c.GenerateKey? && Code(t, c, d) == 201
    requires rq.userKey == Some(d.key) && Routing.RouteOf(rq.path).Some?
    ensures
      var u := FindUser(t.users, c.username).value;
      var pc := Authenticate(Served(t, defaultLimit, c, d).userKeys, rq, expired);
      if d.expiresAt.Some? && expired then pc == Done(Failed(401))
      else
        && pc.AtKeyLimit? && pc.key.id == d.id && pc.key.key == d.key && pc.key.userId == u.id
        && pc.key.status.Active? && pc.key.used == 0 && pc.key.expiresAt == d.expiresAt
        && (match c.maxLimit case Some(limit) => pc.key.maxLimit == limit case None => pc.key.maxLimit == defaultLimit)
        && (match c.tier case Some(tier) => pc.key.tier == tier case None => pc.key.tier == u.tier)
  {
    var u := FindUser(t.users, c.username).value;
    GeneratedTables(t, defaultLimit, c, d);
    AddUserKeyMeans(t, d.id, u.id, d.key, OrElse(c.tier, u.tier), OrElse(c.maxLimit, defaultLimit), d.expiresAt);
  }

  /** A user created has the tier asked for, or "default". */
  lemma AddedUserHasTier(t: Tables, defaultLimit: int, username: string, tier: Option<string>, d: Drawn)
    requires Code(t, AddUser(username, tier), d) == 201
    ensures
      var u := FindUser(Served(t, defaultLimit, AddUser(username, tier), d).users, username);
      && u.Some? && u.value.id == d.id
      && (match tier case Some(asked) => u.value.tier == asked case None => u.value.tier == "default")
  {
    ServedByOne(t, defaultLimit, AddUser(username, tier), d);
    AddUserMeans(t, d.id, username, OrElse(tier, "default"));
  }

  /** A key added keeps the auth header given, untrimmed, unless that is nothing but whitespace. */
  lemma AddedKeyHasHeader(t: Tables, defaultLimit: int, c: Command, d: Drawn)
    requires c.AddProviderKey? && Code(t, c, d) == 201
    ensures
      var keys := KeysOf(Served(t, defaultLimit, c, d).providerKeys, c.provider);
      && keys != [] && keys[|keys| - 1].id == d.id && keys[|keys| - 1].key == c.key
      && match c.authHeader
         case None => keys[|keys| - 1].authHeader.None?
         case Some(header) =>
           if forall k :: 0 <= k < |header| ==> IsWhite(header[k]) then keys[|keys| - 1].authHeader.None?
           else keys[|keys| - 1].authHeader == Some(header)
  {
    ServedByOne(t, defaultLimit, c, d);
    AddProviderKeyMeans(t, d.id, c.provider, c.key, NonBlank(c.authHeader));
    if c.authHeader.Some? {
      StripsToNothing(c.authHeader.value, IsWhite);
    }
  }

  /** Every answer by its status and its reason. */
  lemma AnswersInFigures(t: Tables, c: Command, d: Drawn)
    requires c.ImportModels? ==> |c.names| == |d.modelIds|
    ensures
      match c
      case AddProvider(name, _) =>
        Code(t, c, d) == if NamedProvider(t, name) || ProviderWithId(t, d.id) then 400 else 201
      case DeleteProvider(name) => Code(t, c, d) == if NamedProvider(t, name) then 200 else 404
      case AddProviderKey(provider, key, _) =>
        Code(t, c, d) == if !NamedProvider(t, provider) || KeyTaken(t.providerKeys, d.id, key) then 400 else 201
      case DeleteProviderKey(keyId) => Code(t, c, d) == if FindKey(t.providerKeys, keyId).Some? then 200 else 404
      case ImportModels(provider, names) =>
        Code(t, c, d) == if names == [] || !NamedProvider(t, provider) then 400 else 200
      case AddUser(username, _) =>
        Code(t, c, d) == if UsernameTaken(t.users, username) || UserWithId(t, d.id) then 400 else 201
      case GenerateKey(username, _, _) =>
        Code(t, c, d) == if !UsernameTaken(t.users, username) then 404
                         else if UserKeyTaken(t.userKeys, d.id, d.key) then 400 else 201
      case RevokeKey(key) =>
        Code(t, c, d) == if exists k :: k in t.userKeys && k.key == key && k.status.Active? then 200 else 404
  {
    match c
    case AddProvider(name, url) => AddProviderMeans(t, d.id, name, url);
    case DeleteProvider(name) => DeleteProviderMeans(t, name);
    case AddProviderKey(provider, key, authHeader) =>
      AddProviderKeyMeans(t, d.id, provider, key, NonBlank(authHeader));
    case DeleteProviderKey(keyId) => RemoveProviderKeyMeans(t, keyId);
    case AddUser(username, tier) => AddUserMeans(t, d.id, username, OrElse(tier, "default"));
    case _ =>
  }

  lemma RevokedRows(t: Tables, defaultLimit: int, key: string, d: Drawn)
    ensures Served(t, defaultLimit, RevokeKey(key), d).userKeys == KeyRevoked(t.userKeys, key)
  {
    ServedByOne(t, defaultLimit, RevokeKey(key), d);
  }

  lemma RevokedIsShut(keys: seq<UserKey>, key: string, rq: Request, expired: bool)
    requires forall i, j :: 0 <= i < j < |keys| ==> keys[i].key != keys[j].key
    ensures
      var before, after := Authenticate(keys, rq, expired), Authenticate(KeyRevoked(keys, key), rq, expired);
      if rq.userKey == Some(key) then after.Done? && after.result.Failed? else after == before
  {
    if rq.userKey.Some? {
      RevokeMeans(keys, key, rq.userKey.value);
    }
  }

  /** Whatever it answers, after `RevokeKey` the key opens nothing, and every other key opens what it did. */
  lemma RevokedKeyIsRefused(t: Tables, defaultLimit: int, key: string, d: Drawn, rq: Request, expired: bool)
    requires UniqueRows(t)
    ensures
      var before := Authenticate(t.userKeys, rq, expired);
      var after := Authenticate(Served(t, defaultLimit, RevokeKey(key), d).userKeys, rq, expired);
      if rq.userKey == Some(key) then after.Done? && after.result.Failed? else after == before
  {
    RevokedRows(t, defaultLimit, key, d);
    RevokedIsShut(t.userKeys, key, rq, expired);
  }

  // ---- the handlers themselves ----

  class AdminApi {
    const db: Database
    const defaultLimit: int

    constructor (db: Database, defaultLimit: int)
      ensures this.db == db && this.defaultLimit == defaultLimit
    {
      this.db := db;
      this.defaultLimit := defaultLimit;
    }

    method LogDone(userId: Option<string>)
      modifies db
      ensures db.tables == old(db.tables).(logs := old(db.tables).logs + [LogEntry(LogKind.Admin, None, userId)])
    {
      db.AddLog(LogEntry(LogKind.Admin, None, userId));
    }

    method HandleAddProvider(name: string, url: string, d: Drawn) returns (code: nat)
      modifies db
      ensures db.tables == Served(old(db.tables), defaultLimit, AddProvider(name, url), d)
      ensures code == Code(old(db.tables), AddProvider(name, url), d)
    {
      ServedByOne(db.tables, defaultLimit, AddProvider(name, url), d);
      var r := db.AddProvider(d.id, name, url);
      if r.Err? {
        return 400;
      }
      LogDone(None);
      return 201;
    }

    method HandleDeleteProvider(name: string, d: Drawn) returns (code: nat)
      modifies db
      ensures db.tables == Served(old(db.tables), defaultLimit, DeleteProvider(name), d)
      ensures code == Code(old(db.tables), DeleteProvider(name), d)
    {
      ServedByOne(db.tables, defaultLimit, DeleteProvider(name), d);
      var deleted := db.DeleteProvider(name);
      if !deleted {
        return 404;
      }
      LogDone(None);
      return 200;
    }

    method HandleAddProviderKey(provider: string, key: string, authHeader: Option<string>, d: Drawn)
      returns (code: nat)
      modifies db
      ensures db.tables == Served(old(db.tables), defaultLimit, AddProviderKey(provider, key, authHeader), d)
      ensures code == Code(old(db.tables), AddProviderKey(provider, key, authHeader), d)
    {
      ServedByOne(db.tables, defaultLimit, AddProviderKey(provider, key, authHeader), d);
      var r := db.AddProviderKey(d.id, provider, key, NonBlank(authHeader));
      if r.Err? {
        return 400;
      }
      LogDone(None);
      return 201;
    }

    method HandleDeleteProviderKey(keyId: string, d: Drawn) returns (code: nat)
      modifies db
      ensures db.tables == Served(old(db.tables), defaultLimit, DeleteProviderKey(keyId), d)
      ensures code == Code(old(db.tables), DeleteProviderKey(keyId), d)
    {
      ServedByOne(db.tables, defaultLimit, DeleteProviderKey(keyId), d);
      var removed := db.RemoveProviderKey(keyId);
      if !removed {
        return 404;
      }
      LogDone(None);
      return 200;
    }

    method HandleImportModels(provider: string, names: seq<string>, d: Drawn) returns (code: nat)
      requires |names| == |d.modelIds|
      modifies db
      ensures db.tables == Served(old(db.tables), defaultLimit, ImportModels(provider, names), d)
      ensures code == Code(old(db.tables), ImportModels(provider, names), d)
    {
      if names == [] {
        return 400;
      }
      ServedByOne(db.tables, defaultLimit, ImportModels(provider, names), d);
      var r := db.ImportModels(provider, names, d.modelIds);
      if r.Err? {
        return 400;
      }
      LogDone(None);
      return 200;
    }

    method HandleAddUser(username: string, tier: Option<string>, d: Drawn) returns (code: nat)
      modifies db
      ensures db.tables == Served(old(db.tables), defaultLimit, AddUser(username, tier), d)
      ensures code == Code(old(db.tables), AddUser(username, tier), d)
    {
      ServedByOne(db.tables, defaultLimit, AddUser(username, tier), d);
      var r := db.AddUser(d.id, username, OrElse(tier, "default"));
      if r.Err? {
        return 400;
      }
      LogDone(None);
      return 201;
    }

    method HandleGenerateKey(username: string, tier: Option<string>, maxLimit: Option<int>, d: Drawn)
      returns (code: nat)
      modifies db
      ensures db.tables == Served(old(db.tables), defaultLimit, GenerateKey(username, tier, maxLimit), d)
      ensures code == Code(old(db.tables), GenerateKey(username, tier, maxLimit), d)
    {
      GeneratedTables(db.tables, defaultLimit, GenerateKey(username, tier, maxLimit), d);
      var user := FindUser(db.tables.users, username);
      if user.None? {
        return 404;
      }
      var keyTier := OrElse(tier, user.value.tier);
      var limit := OrElse(maxLimit, defaultLimit);
      var r := db.AddUserKey(d.id, user.value.id, d.key, keyTier, limit, d.expiresAt);
      if r.Err? {
        return 400;
      }
      LogDone(Some(user.value.id));
      return 201;
    }

    method HandleRevokeKey(key: string, d: Drawn) returns (code: nat)
      modifies db
      ensures db.tables == Served(old(db.tables), defaultLimit, RevokeKey(key), d)
      ensures code == Code(old(db.tables), RevokeKey(key), d)
    {
      ServedByOne(db.tables, defaultLimit, RevokeKey(key), d);
      var revoked := db.RevokeUserKey(key);
      if !revoked {
        return 404;
      }
      LogDone(None);
      return 200;
    }
  }
}
