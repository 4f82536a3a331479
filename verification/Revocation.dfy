/** A revoked key is of no use to any request that has not authenticated with it yet. */
module Revocation {
  import opened Common
  import opened Proxy
  import opened Store
  import opened StoreRuns
  import opened Concurrency

  /** Not past authentication, and never going to be if it is over. */
  predicate Outside(l: Live) {
    && (l.pc.AtBot? || l.pc.AtBotLog? || l.pc.AtIpLimit? || l.pc.AtAuth? || (l.pc.Done? && l.pc.result.Failed?))
    && l.sent == [] && l.admitted.None?
  }

  predicate RevokedAt(userKeys: seq<UserKey>, r: nat, key: string) {
    r < |userKeys| && userKeys[r].key == key && userKeys[r].status.Revoked?
  }

  lemma RevokedStays(ks: seq<UserKey>, ks': seq<UserKey>, r: nat, key: string)
    requires KeysEvolve(ks, ks') && RevokedAt(ks, r, key)
    ensures RevokedAt(ks', r, key)
  {
    assert RowEvolves(ks[r], ks'[r]);
  }

  lemma RevokedIsRefused(ks: seq<UserKey>, r: nat, key: string, rq: Request, expired: bool)
    requires RevokedAt(ks, r, key) && rq.userKey == Some(key)
    requires forall i, j :: 0 <= i < j < |ks| ==> ks[i].key != ks[j].key
    ensures Authenticate(ks, rq, expired).Done? && Authenticate(ks, rq, expired).result.Failed?
  {
    var row := FindUserKey(ks, key);
    assert ks[r] in ks;
    var i :| 0 <= i < |ks| && ks[i] == row.value;
  }

  /** Request `i`, if it exists and presents `key`, is outside. */
  predicate Barred(w: World, i: nat, key: string) {
    i < |w.lives| && w.lives[i].rq.userKey == Some(key) ==> Outside(w.lives[i])
  }

  lemma StepOutside(cfg: Config, sh: Shared, l: Live, env: Env, r: nat, key: string)
    requires !l.pc.Done? && UniqueRows(sh.tables) && RevokedAt(sh.tables.userKeys, r, key)
    requires l.rq.userKey == Some(key) && Outside(l)
    ensures Outside(Step(cfg, sh, l, env).1)
  {
    RevokedIsRefused(sh.tables.userKeys, r, key, l.rq, env.expired);
  }

  lemma NextBarred(cfg: Config, w: World, e: Event, r: nat, key: string, i: nat)
    requires Allowed(w, e) && Basic(w) && RevokedAt(w.sh.tables.userKeys, r, key) && Barred(w, i, key)
    ensures RevokedAt(Next(cfg, w, e).sh.tables.userKeys, r, key) && Barred(Next(cfg, w, e), i, key)
  {
    TablesEvolve(cfg, w, e);
    RevokedStays(w.sh.tables.userKeys, Next(cfg, w, e).sh.tables.userKeys, r, key);
    if e.Run? && e.i == i && w.lives[i].rq.userKey == Some(key) {
      StepOutside(cfg, w.sh, w.lives[i], e.env, r, key);
    }
  }

  /**
   If a user key is revoked in state `m` of a run, it stays revoked, and in every later state a
   request that presents it, unless it was past authentication in state `m`, has sent nothing
   upstream, has not been admitted, and if it is finished it was refused.
   */
  lemma {:induction false} RevokedNeverReachesUpstream(cfg: Config, ws: seq<World>, events: seq<Event>,
                                                       m: nat, n: nat, r: nat, key: string, i: nat)
    requires IsRun(cfg, ws, events) && m <= n <= |events|
    requires RevokedAt(ws[m].sh.tables.userKeys, r, key) && Barred(ws[m], i, key)
    ensures RevokedAt(ws[n].sh.tables.userKeys, r, key) && Barred(ws[n], i, key)
    decreases n
  {
    if m < n {
      RevokedNeverReachesUpstream(cfg, ws, events, m, n - 1, r, key, i);
      RunBasic(cfg, ws, events, n - 1);
      assert Follows(cfg, ws, events, n - 1);
      NextBarred(cfg, ws[n - 1], events[n - 1], r, key, i);
    }
  }
}
