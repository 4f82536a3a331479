/**
 What the store's operations mean for its readers: which lookups change, to what, and which
 do not.  `Store.Database` performs exactly these operations.
 */
module StoreRows {
  import opened Common
  import opened Store

  lemma Associative<T>(a: seq<T>, b: seq<T>, c: seq<T>)
    ensures a + (b + c) == a + b + c
  {
  }

  // ---- updates, row by row ----

  lemma StatusTail(ps: seq<Provider>, name: string, status: Status)
    requires ps != []
    ensures StatusSet(ps, name, status)[1..] == StatusSet(ps[1..], name, status)
  {
  }

  lemma HealthTail(ps: seq<Provider>, name: string, health: int)
    requires ps != []
    ensures HealthSet(ps, name, health)[1..] == HealthSet(ps[1..], name, health)
  {
  }

  lemma SuccessTail(keys: seq<ProviderKey>, id: string)
    requires keys != []
    ensures SuccessCounted(keys, id)[1..] == SuccessCounted(keys[1..], id)
  {
  }

  lemma FailureTail(keys: seq<ProviderKey>, id: string)
    requires keys != []
    ensures FailureCounted(keys, id)[1..] == FailureCounted(keys[1..], id)
  {
  }

  lemma UseTail(keys: seq<UserKey>, id: string)
    requires keys != []
    ensures UseCounted(keys, id)[1..] == UseCounted(keys[1..], id)
  {
  }

  lemma RevokeTail(keys: seq<UserKey>, key: string)
    requires keys != []
    ensures KeyRevoked(keys, key)[1..] == KeyRevoked(keys[1..], key)
  {
  }

  // ---- providers ----

  lemma {:induction false} FindStatusSet(ps: seq<Provider>, name: string, status: Status, other: string)
    ensures FindProvider(StatusSet(ps, name, status), other)
         == var r := FindProvider(ps, other);
            if r.Some? && other == name then Some(r.value.(status := status)) else r
  {
    if ps != [] {
      FindStatusSet(ps[1..], name, status, other);
      StatusTail(ps, name, status);
    }
  }

  lemma {:induction false} FindHealthSet(ps: seq<Provider>, name: string, health: int, other: string)
    ensures FindProvider(HealthSet(ps, name, health), other)
         == var r := FindProvider(ps, other);
            if r.Some? && other == name then Some(r.value.(health := health)) else r
  {
    if ps != [] {
      FindHealthSet(ps[1..], name, health, other);
      HealthTail(ps, name, health);
    }
  }

  lemma {:induction false} FindAppended(ps: seq<Provider>, p: Provider, other: string)
    ensures FindProvider(ps + [p], other)
         == var r := FindProvider(ps, other); if r.Some? then r else if p.name == other then Some(p) else None
  {
    if ps != [] {
      FindAppended(ps[1..], p, other);
      assert (ps + [p])[1..] == ps[1..] + [p];
    }
  }

  lemma {:induction false} FindRemaining(ps: seq<Provider>, name: string, other: string)
    ensures FindProvider(WithoutProvider(ps, name), other) == if other == name then None else FindProvider(ps, other)
  {
    if ps != [] {
      FindRemaining(ps[1..], name, other);
      var rest := WithoutProvider(ps[1..], name);
      assert ([ps[0]] + rest)[1..] == rest && [] + rest == rest;
    }
  }

  /** An insert goes through iff name and id are unused, and then exactly the lookup of that name changes. */
  lemma AddProviderMeans(t: Tables, id: string, name: string, url: string)
    ensures
      var (t', r) := ProviderAdded(t, id, name, url);
      && (r == Err(AlreadyExists) <==> NamedProvider(t, name))
      && (r == Err(ConstraintFailed) <==> !NamedProvider(t, name) && ProviderWithId(t, id))
      && (r.Err? ==> t' == t)
      && (r.Ok? ==>
            && t' == t.(providers := t'.providers)
            && forall other :: FindProvider(t'.providers, other)
                 == if other == name then Some(Provider(id, name, url, Active, 100))
                    else FindProvider(t.providers, other))
  {
    var (t', r) := ProviderAdded(t, id, name, url);
    if r.Ok? {
      forall other ensures FindProvider(t'.providers, other)
        == if other == name then Some(Provider(id, name, url, Active, 100)) else FindProvider(t.providers, other)
      {
        FindAppended(t.providers, Provider(id, name, url, Active, 100), other);
      }
    }
  }

  lemma {:induction false} KeysOfRemaining(keys: seq<ProviderKey>, name: string, other: string)
    ensures KeysOf(WithoutKeysOf(keys, name), other) == if other == name then [] else KeysOf(keys, other)
  {
    if keys != [] {
      KeysOfRemaining(keys[1..], name, other);
      var rest := WithoutKeysOf(keys[1..], name);
      assert ([keys[0]] + rest)[1..] == rest && [] + rest == rest;
    }
  }

  lemma {:induction false} ModelsRemaining(models: seq<Model>, model: Model, providerId: string)
    ensures WithoutModelsOf(models + [model], providerId)
         == WithoutModelsOf(models, providerId) + (if model.providerId == providerId then [] else [model])
  {
    if models == [] {
      assert models + [model] == [model];
    } else {
      ModelsRemaining(models[1..], model, providerId);
      assert (models + [model])[1..] == models[1..] + [model] && (models + [model])[0] == models[0];
      Associative(if models[0].providerId == providerId then [] else [models[0]],
                  WithoutModelsOf(models[1..], providerId), if model.providerId == providerId then [] else [model]);
    }
  }

  lemma {:induction false} NamesOfRemaining(models: seq<Model>, providerId: string, other: string)
    ensures NamesOf(WithoutModelsOf(models, providerId), other)
         == if other == providerId then [] else NamesOf(models, other)
  {
    if models != [] {
      var most, last := models[..|models| - 1], models[|models| - 1];
      NamesOfRemaining(most, providerId, other);
      assert models == most + [last];
      ModelsRemaining(most, last, providerId);
      NamesOfAppend(most, last, other);
      if last.providerId == providerId {
        assert WithoutModelsOf(models, providerId) == WithoutModelsOf(most, providerId);
      } else {
        NamesOfAppend(WithoutModelsOf(most, providerId), last, other);
      }
    }
  }

  /**
   Deleting takes away the provider, all its keys and all its models; what other names and ids
   look up, in the same order, stays; and without such a provider nothing changes.
   */
  lemma DeleteProviderMeans(t: Tables, name: string)
    ensures
      var (t', deleted) := ProviderDeleted(t, name);
      && (deleted <==> NamedProvider(t, name))
      && (!deleted ==> t' == t)
      && t' == t.(providers := t'.providers, providerKeys := t'.providerKeys, models := t'.models)
      && (forall other :: FindProvider(t'.providers, other)
            == if other == name then None else FindProvider(t.providers, other))
      && (deleted ==>
            && (forall other :: KeysOf(t'.providerKeys, other)
                  == if other == name then [] else KeysOf(t.providerKeys, other))
            && (forall id :: NamesOf(t'.models, id)
                  == if id == FindProvider(t.providers, name).value.id then [] else NamesOf(t.models, id)))
  {
    var p := FindProvider(t.providers, name);
    if p.Some? {
      var t' := ProviderDeleted(t, name).0;
      forall other ensures FindProvider(t'.providers, other)
        == if other == name then None else FindProvider(t.providers, other)
      {
        FindRemaining(t.providers, name, other);
      }
      forall other ensures KeysOf(t'.providerKeys, other)
        == if other == name then [] else KeysOf(t.providerKeys, other)
      {
        KeysOfRemaining(t.providerKeys, name, other);
      }
      forall id ensures NamesOf(t'.models, id) == if id == p.value.id then [] else NamesOf(t.models, id) {
        NamesOfRemaining(t.models, p.value.id, id);
      }
    }
  }

  lemma {:induction false} NoneWithout(ps: seq<Provider>, p: Provider)
    requires forall q :: q in ps ==> q.name != p.name
    ensures WithoutProvider(ps + [p], p.name) == ps
  {
    if ps == [] {
      assert ps + [p] == [p];
    } else {
      assert (ps + [p])[1..] == ps[1..] + [p] && ps[0] in ps;
      NoneWithout(ps[1..], p);
    }
  }

  lemma {:induction false} NoKeysOf(keys: seq<ProviderKey>, name: string)
    requires forall k :: k in keys ==> k.provider != name
    ensures WithoutKeysOf(keys, name) == keys
  {
    if keys != [] {
      assert keys[0] in keys;
      NoKeysOf(keys[1..], name);
    }
  }

  lemma {:induction false} NoModelsOf(models: seq<Model>, id: string)
    requires forall m :: m in models ==> m.providerId != id
    ensures WithoutModelsOf(models, id) == models
  {
    if models != [] {
      assert models[0] in models;
      NoModelsOf(models[1..], id);
    }
  }

  /** In a store whose references hold, deleting a provider just added restores every table. */
  lemma DeleteUndoesAdd(t: Tables, id: string, name: string, url: string)
    requires References(t) && ProviderAdded(t, id, name, url).1.Ok?
    ensures ProviderDeleted(ProviderAdded(t, id, name, url).0, name) == (t, true)
  {
    var p := Provider(id, name, url, Active, 100);
    FindAppended(t.providers, p, name);
    NoneWithout(t.providers, p);
    NoKeysOf(t.providerKeys, name);
    NoModelsOf(t.models, id);
  }

  // ---- provider keys ----

  lemma {:induction false} KeysOfAppended(keys: seq<ProviderKey>, k: ProviderKey, other: string)
    ensures KeysOf(keys + [k], other) == KeysOf(keys, other) + (if k.provider == other then [k] else [])
  {
    if keys == [] {
      assert keys + [k] == [k];
    } else {
      KeysOfAppended(keys[1..], k, other);
      assert (keys + [k])[1..] == keys[1..] + [k] && (keys + [k])[0] == keys[0];
      Associative(if keys[0].provider == other then [keys[0]] else [], KeysOf(keys[1..], other),
                  if k.provider == other then [k] else []);
    }
  }

  lemma {:induction false} ActiveIdsAppended(keys: seq<ProviderKey>, k: ProviderKey)
    ensures ActiveIds(keys + [k]) == ActiveIds(keys) + (if k.status.Active? then [k.id] else [])
  {
    if keys == [] {
      assert keys + [k] == [k];
    } else {
      ActiveIdsAppended(keys[1..], k);
      assert (keys + [k])[1..] == keys[1..] + [k];
    }
  }

  predicate KeyTaken(keys: seq<ProviderKey>, id: string, key: string) {
    exists k :: k in keys && (k.id == id || k.key == key)
  }

  /** An accepted key joins its provider's keys, and its candidates, at the end; no other provider's change. */
  lemma AddProviderKeyMeans(t: Tables, id: string, provider: string, key: string, authHeader: Option<string>)
    ensures
      var (t', r) := ProviderKeyAdded(t, id, provider, key, authHeader);
      && (r == Err(NotFound) <==> !NamedProvider(t, provider))
      && (r == Err(ConstraintFailed) <==> NamedProvider(t, provider) && KeyTaken(t.providerKeys, id, key))
      && (r.Err? ==> t' == t)
      && (r.Ok? ==>
            && t' == t.(providerKeys := t'.providerKeys)
            && (forall other :: KeysOf(t'.providerKeys, other)
                  == KeysOf(t.providerKeys, other)
                     + (if other == provider then [ProviderKey(id, provider, key, authHeader, Active, 0, 0)] else []))
            && ActiveIds(KeysOf(t'.providerKeys, provider)) == ActiveIds(KeysOf(t.providerKeys, provider)) + [id])
  {
    var (t', r) := ProviderKeyAdded(t, id, provider, key, authHeader);
    var row := ProviderKey(id, provider, key, authHeader, Active, 0, 0);
    if r.Ok? {
      forall other ensures KeysOf(t'.providerKeys, other)
        == KeysOf(t.providerKeys, other) + (if other == provider then [row] else [])
      {
        KeysOfAppended(t.providerKeys, row, other);
      }
      ActiveIdsAppended(KeysOf(t.providerKeys, provider), row);
    }
  }

  lemma {:induction false} FindKeyRemaining(keys: seq<ProviderKey>, id: string, other: string)
    ensures FindKey(WithoutKey(keys, id), other) == if other == id then None else FindKey(keys, other)
  {
    if keys != [] {
      FindKeyRemaining(keys[1..], id, other);
      var rest := WithoutKey(keys[1..], id);
      assert ([keys[0]] + rest)[1..] == rest && [] + rest == rest;
    }
  }

  lemma {:induction false} NoneRemoved(keys: seq<ProviderKey>, id: string)
    requires forall k :: k in keys ==> k.id != id
    ensures WithoutKey(keys, id) == keys
  {
    if keys != [] {
      assert keys[0] in keys;
      NoneRemoved(keys[1..], id);
    }
  }

  /** Removing takes away the row with that id, if there is one, and no other. */
  lemma RemoveProviderKeyMeans(t: Tables, id: string)
    ensures
      var (t', removed) := ProviderKeyRemoved(t, id);
      && (removed <==> FindKey(t.providerKeys, id).Some?)
      && (!removed ==> t' == t)
      && t' == t.(providerKeys := t'.providerKeys)
      && forall other :: FindKey(t'.providerKeys, other)
           == if other == id then None else FindKey(t.providerKeys, other)
  {
    forall other ensures FindKey(WithoutKey(t.providerKeys, id), other)
      == if other == id then None else FindKey(t.providerKeys, other)
    {
      FindKeyRemaining(t.providerKeys, id, other);
    }
    if FindKey(t.providerKeys, id).None? {
      NoneRemoved(t.providerKeys, id);
    }
  }

  lemma {:induction false} OnlyLastRemoved(keys: seq<ProviderKey>, k: ProviderKey)
    requires forall q :: q in keys ==> q.id != k.id
    ensures WithoutKey(keys + [k], k.id) == keys
  {
    if keys == [] {
      assert keys + [k] == [k];
    } else {
      assert (keys + [k])[1..] == keys[1..] + [k] && keys[0] in keys;
      OnlyLastRemoved(keys[1..], k);
    }
  }

  /** Removing a key just added restores every table. */
  lemma RemoveUndoesAdd(t: Tables, id: string, provider: string, key: string, authHeader: Option<string>)
    requires ProviderKeyAdded(t, id, provider, key, authHeader).1.Ok?
    ensures ProviderKeyRemoved(ProviderKeyAdded(t, id, provider, key, authHeader).0, id) == (t, true)
  {
    var row := ProviderKey(id, provider, key, authHeader, Active, 0, 0);
    OnlyLastRemoved(t.providerKeys, row);
    assert row in t.providerKeys + [row];
  }

  /** A success credits the row with that id and clears its failures; nothing else changes. */
  lemma {:induction false} SuccessMeans(keys: seq<ProviderKey>, id: string, other: string)
    ensures FindKey(SuccessCounted(keys, id), other)
         == match FindKey(keys, other)
            case None => None
            case Some(k) => Some(if other == id then k.(used := k.used + 1, failed := 0) else k)
  {
    if keys != [] {
      SuccessMeans(keys[1..], id, other);
      SuccessTail(keys, id);
    }
  }

  /** A failure adds one to the failures of the row with that id; nothing else changes. */
  lemma {:induction false} FailureMeans(keys: seq<ProviderKey>, id: string, other: string)
    ensures FindKey(FailureCounted(keys, id), other)
         == match FindKey(keys, other)
            case None => None
            case Some(k) => Some(if other == id then k.(failed := k.failed + 1) else k)
  {
    if keys != [] {
      FailureMeans(keys[1..], id, other);
      FailureTail(keys, id);
    }
  }

  lemma {:induction false} NoneMarked(keys: seq<ProviderKey>, id: string)
    requires FindKey(keys, id).None?
    ensures SuccessCounted(keys, id) == keys && FailureCounted(keys, id) == keys
  {
    assert forall i :: 0 <= i < |keys| ==> keys[i] in keys;
  }

  // ---- users and user keys ----

  lemma {:induction false} FindUserAppended(us: seq<User>, u: User, other: string)
    ensures FindUser(us + [u], other)
         == var r := FindUser(us, other); if r.Some? then r else if u.username == other then Some(u) else None
  {
    if us != [] {
      FindUserAppended(us[1..], u, other);
      assert (us + [u])[1..] == us[1..] + [u];
    }
  }

  predicate UsernameTaken(users: seq<User>, username: string) {
    exists u :: u in users && u.username == username
  }

  /** An insert goes through iff name and id are unused, and then exactly the lookup of that name changes. */
  lemma AddUserMeans(t: Tables, id: string, username: string, tier: string)
    ensures
      var (t', r) := UserAdded(t, id, username, tier);
      && (r == Err(AlreadyExists) <==> UsernameTaken(t.users, username))
      && (r == Err(ConstraintFailed) <==> !UsernameTaken(t.users, username) && UserWithId(t, id))
      && (r.Err? ==> t' == t)
      && (r.Ok? ==>
            && t' == t.(users := t'.users)
            && forall other :: FindUser(t'.users, other)
                 == if other == username then Some(User(id, username, tier)) else FindUser(t.users, other))
  {
    var (t', r) := UserAdded(t, id, username, tier);
    if r.Ok? {
      forall other ensures FindUser(t'.users, other)
        == if other == username then Some(User(id, username, tier)) else FindUser(t.users, other)
      {
        FindUserAppended(t.users, User(id, username, tier), other);
      }
    }
  }

  lemma {:induction false} FindUserKeyAppended(keys: seq<UserKey>, k: UserKey, other: string)
    ensures FindUserKey(keys + [k], other)
         == var r := FindUserKey(keys, other); if r.Some? then r else if k.key == other then Some(k) else None
  {
    if keys != [] {
      FindUserKeyAppended(keys[1..], k, other);
      assert (keys + [k])[1..] == keys[1..] + [k];
    }
  }

  predicate UserKeyTaken(keys: seq<UserKey>, id: string, key: string) {
    exists k :: k in keys && (k.id == id || k.key == key)
  }

  /** An insert goes through iff id and value are unused; the new key is active, and no other lookup changes. */
  lemma AddUserKeyMeans(t: Tables, id: string, userId: string, key: string, tier: string, maxLimit: int,
                        expiresAt: Option<string>)
    ensures
      var (t', r) := UserKeyAdded(t, id, userId, key, tier, maxLimit, expiresAt);
      && (r.Err? <==> UserKeyTaken(t.userKeys, id, key))
      && (r.Err? ==> r.error.ConstraintFailed? && t' == t)
      && (r.Ok? ==>
            && t' == t.(userKeys := t'.userKeys)
            && forall other :: FindUserKey(t'.userKeys, other)
                 == if other == key then Some(UserKey(id, userId, key, tier, Active, maxLimit, 0, expiresAt))
                    else FindUserKey(t.userKeys, other))
  {
    var (t', r) := UserKeyAdded(t, id, userId, key, tier, maxLimit, expiresAt);
    var row := UserKey(id, userId, key, tier, Active, maxLimit, 0, expiresAt);
    if r.Ok? {
      forall other ensures FindUserKey(t'.userKeys, other)
        == if other == key then Some(row) else FindUserKey(t.userKeys, other)
      {
        FindUserKeyAppended(t.userKeys, row, other);
      }
    }
  }

  /**
   Revoking turns the row of an active value into a revoked one and leaves every other lookup;
   it reports whether there was one, and doing it again changes nothing.
   */
  lemma {:induction false} RevokeMeans(keys: seq<UserKey>, key: string, other: string)
    requires forall i, j :: 0 <= i < j < |keys| ==> keys[i].key != keys[j].key
    ensures FindUserKey(KeyRevoked(keys, key), other)
         == match FindUserKey(keys, other)
            case None => None
            case Some(k) => Some(if other == key && k.status.Active? then k.(status := Revoked) else k)
    ensures (exists k :: k in keys && k.key == key && k.status.Active?)
       <==> FindUserKey(keys, key).Some? && FindUserKey(keys, key).value.status.Active?
    ensures KeyRevoked(KeyRevoked(keys, key), key) == KeyRevoked(keys, key)
  {
    if keys != [] {
      RevokeMeans(keys[1..], key, other);
      RevokeTail(keys, key);
      assert keys == [keys[0]] + keys[1..];
    }
  }

  /** A use adds one to the row with that id, found by its value; nothing else changes. */
  lemma {:induction false} UseMeans(keys: seq<UserKey>, id: string, other: string)
    ensures FindUserKey(UseCounted(keys, id), other)
         == match FindUserKey(keys, other)
            case None => None
            case Some(k) => Some(if k.id == id then k.(used := k.used + 1) else k)
  {
    if keys != [] {
      UseMeans(keys[1..], id, other);
      UseTail(keys, id);
    }
  }
}
