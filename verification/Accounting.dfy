/** Conservation of the usage counters in every concurrent run. */
module Accounting {
  import opened Failover
  import opened Proxy
  import opened Store
  import opened StoreRuns
  import opened Concurrency

  // ---- the two column sums of the stats endpoint ----

  function UserTotal(keys: seq<UserKey>, n: nat): nat
    requires n <= |keys|
  {
    if n == 0 then 0 else UserTotal(keys, n - 1) + keys[n - 1].used
  }

  function ProviderTotal(keys: seq<ProviderKey>): nat {
    if keys == [] then 0 else keys[0].used + ProviderTotal(keys[1..])
  }

  function UserUses(w: World): nat {
    UserTotal(w.sh.tables.userKeys, |w.sh.tables.userKeys|)
  }

  function ProviderUses(w: World): nat {
    ProviderTotal(w.sh.tables.providerKeys)
  }

  predicate UniqueUserKeyIds(keys: seq<UserKey>) {
    forall i, j :: 0 <= i < j < |keys| ==> keys[i].id != keys[j].id
  }

  lemma {:induction false} UserTotalCounts(keys: seq<UserKey>, i: nat, n: nat)
    requires i < |keys| && n <= |keys| && UniqueUserKeyIds(keys)
    ensures UserTotal(UseCounted(keys, keys[i].id), n) == UserTotal(keys, n) + (if i < n then 1 else 0)
    decreases n
  {
    if n > 0 {
      UserTotalCounts(keys, i, n - 1);
      assert keys[n - 1].id == keys[i].id <==> i == n - 1;
    }
  }

  lemma {:induction false} UserTotalSame(keys: seq<UserKey>, keys': seq<UserKey>, n: nat)
    requires n <= |keys| && n <= |keys'| && forall i :: 0 <= i < n ==> keys[i].used == keys'[i].used
    ensures UserTotal(keys', n) == UserTotal(keys, n)
    decreases n
  {
    if n > 0 {
      UserTotalSame(keys, keys', n - 1);
    }
  }

  lemma {:induction false} ProviderTotalCounts(keys: seq<ProviderKey>, id: string)
    requires UniqueProviderKeys(keys)
    ensures ProviderTotal(SuccessCounted(keys, id))
         == ProviderTotal(keys) + (if exists k :: k in keys && k.id == id then 1 else 0)
  {
    if keys != [] {
      ProviderTotalCounts(keys[1..], id);
      assert SuccessCounted(keys, id)[1..] == SuccessCounted(keys[1..], id);
      assert keys[0] in keys;
      assert forall k :: k in keys <==> k == keys[0] || k in keys[1..];
    }
  }

  lemma {:induction false} ProviderTotalSame(keys: seq<ProviderKey>, keys': seq<ProviderKey>)
    requires |keys| == |keys'| && forall i :: 0 <= i < |keys| ==> keys[i].used == keys'[i].used
    ensures ProviderTotal(keys') == ProviderTotal(keys)
  {
    if keys != [] {
      ProviderTotalSame(keys[1..], keys'[1..]);
    }
  }

  lemma {:induction false} ProviderTotalAppend(keys: seq<ProviderKey>, k: ProviderKey)
    ensures ProviderTotal(keys + [k]) == ProviderTotal(keys) + k.used
  {
    if keys != [] {
      ProviderTotalAppend(keys[1..], k);
      assert (keys + [k])[1..] == keys[1..] + [k];
    }
  }

  lemma {:induction false} ProviderTotalWithoutKeysOf(keys: seq<ProviderKey>, provider: string)
    ensures ProviderTotal(WithoutKeysOf(keys, provider)) <= ProviderTotal(keys)
  {
    if keys != [] {
      ProviderTotalWithoutKeysOf(keys[1..], provider);
      var rest := WithoutKeysOf(keys[1..], provider);
      assert ([keys[0]] + rest)[1..] == rest && [] + rest == rest;
    }
  }

  lemma {:induction false} ProviderTotalWithoutKey(keys: seq<ProviderKey>, id: string)
    ensures ProviderTotal(WithoutKey(keys, id)) <= ProviderTotal(keys)
  {
    if keys != [] {
      ProviderTotalWithoutKey(keys[1..], id);
      var rest := WithoutKey(keys[1..], id);
      assert ([keys[0]] + rest)[1..] == rest && [] + rest == rest;
    }
  }

  // ---- what each request has put on the books ----

  /** The user's key has been charged for this request. */
  function Charged(l: Live): nat {
    if l.pc.AtMarkSuccess? || l.pc.AtLog? || (l.pc.Done? && l.pc.result.Answered?) then 1 else 0
  }

  /** The provider's key is about to be credited. */
  function Pending(l: Live): nat {
    if l.pc.AtMarkSuccess? then 1 else 0
  }

  /** Every request charged, and only those, added one to the users' total; providers got no more. */
  predicate Balanced(w: World, users0: nat, providers0: nat) {
    && UserUses(w) == users0 + Sum(w.lives, Charged)
    && ProviderUses(w) + Sum(w.lives, Pending) <= providers0 + Sum(w.lives, Charged)
  }

  /** Administrators and the health checker never add to either total. */
  lemma AdminTotals(w: World, op: Op)
    requires AdminOp(w, op)
    ensures
      var t, t' := w.sh.tables, Apply(DbOf(w), op).tables;
      && UserTotal(t'.userKeys, |t'.userKeys|) == UserTotal(t.userKeys, |t.userKeys|)
      && ProviderTotal(t'.providerKeys) <= ProviderTotal(t.providerKeys)
  {
    var t, t' := w.sh.tables, Apply(DbOf(w), op).tables;
    UserTotalSame(t.userKeys, t'.userKeys, |t.userKeys|);
    match op
    case OpDeleteProvider(name) => ProviderTotalWithoutKeysOf(t.providerKeys, name);
    case OpRemoveProviderKey(id) => ProviderTotalWithoutKey(t.providerKeys, id);
    case OpAddProviderKey(id, provider, key, authHeader) =>
      ProviderTotalAppend(t.providerKeys, ProviderKey(id, provider, key, authHeader, Active, 0, 0));
    case _ =>
  }

  /** Only two steps charge a request, and a success is then pending until it is credited. */
  lemma BooksMove(cfg: Config, sh: Shared, l: Live, env: Env)
    requires !l.pc.Done?
    ensures
      var l' := Step(cfg, sh, l, env).1;
      && Charged(l') == Charged(l) + (if l.pc.AtMarkUse? || l.pc.AtFallback? then 1 else 0)
      && Pending(l') + (if l.pc.AtMarkSuccess? then 1 else 0)
         == Pending(l) + (if l.pc.AtMarkUse? && Success(l.pc.status) then 1 else 0)
  {
  }

  lemma CountersMove(cfg: Config, sh: Shared, l: Live, env: Env)
    requires !l.pc.Done?
    ensures
      var t, t' := sh.tables, Step(cfg, sh, l, env).0.tables;
      && t'.userKeys == (if l.pc.AtMarkUse? || l.pc.AtFallback? then UseCounted(t.userKeys, l.pc.job.key.id)
                         else t.userKeys)
      && t'.providerKeys == (match l.pc
                             case AtMarkFailure(_, keyId) => FailureCounted(t.providerKeys, keyId)
                             case AtMarkSuccess(_, keyId, _) => SuccessCounted(t.providerKeys, keyId)
                             case _ => t.providerKeys)
  {
  }

  /** One step of one request moves the totals exactly as its own books move. */
  lemma StepTotals(cfg: Config, sh: Shared, l: Live, env: Env)
    requires !l.pc.Done? && UniqueRows(sh.tables) && LiveSound(sh.tables, l)
    ensures
      var (sh', l') := Step(cfg, sh, l, env);
      var t, t' := sh.tables, sh'.tables;
      && UserTotal(t'.userKeys, |t'.userKeys|) + Charged(l) == UserTotal(t.userKeys, |t.userKeys|) + Charged(l')
      && ProviderTotal(t'.providerKeys) + Pending(l') + Charged(l)
         <= ProviderTotal(t.providerKeys) + Pending(l) + Charged(l')
  {
    var t := sh.tables;
    BooksMove(cfg, sh, l, env);
    CountersMove(cfg, sh, l, env);
    if l.pc.AtMarkUse? || l.pc.AtFallback? {
      UserRowCharged(t.userKeys, Snapshot(l.pc));
    } else if l.pc.AtMarkSuccess? {
      ProviderTotalCounts(t.providerKeys, l.pc.keyId);
    } else if l.pc.AtMarkFailure? {
      ProviderTotalSame(t.providerKeys, FailureCounted(t.providerKeys, l.pc.keyId));
    }
  }

  lemma UserRowCharged(keys: seq<UserKey>, key: UserKey)
    requires UniqueUserKeyIds(keys) && RowHeld(keys, key)
    ensures UserTotal(UseCounted(keys, key.id), |keys|) == UserTotal(keys, |keys|) + 1
  {
    var i :| 0 <= i < |keys| && RowEvolves(key, keys[i]);
    UserTotalCounts(keys, i, |keys|);
  }

  lemma NextBalanced(cfg: Config, w: World, e: Event, users0: nat, providers0: nat)
    requires Allowed(w, e) && Basic(w) && Balanced(w, users0, providers0)
    ensures Balanced(Next(cfg, w, e), users0, providers0)
  {
    match e
    case Arrive(rq) =>
      SumAppend(w.lives, Arrived(rq), Charged);
      SumAppend(w.lives, Arrived(rq), Pending);
    case Run(i, env) =>
      var l, l' := w.lives[i], Step(cfg, w.sh, w.lives[i], env).1;
      assert l in w.lives;
      StepTotals(cfg, w.sh, l, env);
      SumUpdate(w.lives, i, l', Charged);
      SumUpdate(w.lives, i, l', Pending);
    case Perform(op) =>
      AdminTotals(w, op);
  }

  lemma {:induction false} RunBalanced(cfg: Config, ws: seq<World>, events: seq<Event>, n: nat)
    requires IsRun(cfg, ws, events) && n <= |events|
    ensures Balanced(ws[n], UserUses(ws[0]), ProviderUses(ws[0]))
    decreases n
  {
    if n > 0 {
      RunBalanced(cfg, ws, events, n - 1);
      RunBasic(cfg, ws, events, n - 1);
      assert Follows(cfg, ws, events, n - 1);
      NextBalanced(cfg, ws[n - 1], events[n - 1], UserUses(ws[0]), ProviderUses(ws[0]));
    }
  }

  /**
   Conservation: if the providers' total does not exceed the users' total at start-up, it
   never does, in any state of any interleaving of requests, administration and health checks.
   */
  lemma ProvidersNeverExceedUsers(cfg: Config, ws: seq<World>, events: seq<Event>, n: nat)
    requires IsRun(cfg, ws, events) && n <= |events|
    requires ProviderUses(ws[0]) <= UserUses(ws[0])
    ensures ProviderUses(ws[n]) <= UserUses(ws[n])
  {
    RunBalanced(cfg, ws, events, n);
  }

  predicate Quiet(w: World) {
    forall l :: l in w.lives ==> l.pc.Done?
  }

  function WasAnswered(l: Live): nat {
    if l.pc.Done? && l.pc.result.Answered? then 1 else 0
  }

  lemma {:induction false} QuietCharges(ls: seq<Live>)
    requires forall l :: l in ls ==> l.pc.Done?
    ensures Sum(ls, Charged) == Sum(ls, WasAnswered)
  {
    if ls != [] {
      QuietCharges(ls[..|ls| - 1]);
    }
  }

  /** When no request is in flight, the users' total has grown by exactly the number of answered requests. */
  lemma QuietTotals(cfg: Config, ws: seq<World>, events: seq<Event>, n: nat)
    requires IsRun(cfg, ws, events) && n <= |events| && Quiet(ws[n])
    ensures UserUses(ws[n]) == UserUses(ws[0]) + Sum(ws[n].lives, WasAnswered)
  {
    RunBalanced(cfg, ws, events, n);
    QuietCharges(ws[n].lives);
  }
}
