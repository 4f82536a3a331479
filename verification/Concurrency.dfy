/**
 Concurrent runs of the proxy: any number of requests, admin handlers and health writes,
 interleaved one step at a time.

 A world is the shared state, the requests with their histories, the latest clock reading,
 and what has happened so far: the limiter's calls, the attempts that have been accounted
 for, and the provider key ids ever issued.
 */
module Concurrency {
  import opened Common
  import opened Failover
  import opened Proxy
  import opened Store
  import opened StoreRuns
  import Rate = RateLimiting
  import Lb = LoadBalancing
  import Bot = BotProtection
  import Gates

  /** An attempt whose outcome has been written to the provider key's row (or rightly has not). */
  datatype Attempt = Attempt(keyId: string, outcome: Outcome)

  datatype World = World(sh: Shared, found: set<string>, lives: seq<Live>, clock: nat,
                         calls: seq<Rate.Call>, attempts: seq<Attempt>, issued: set<string>)

  datatype Event =
    | Arrive(rq: Request)
    | Run(i: nat, env: Env)
    | Perform(op: Op)

  function DbOf(w: World): Db {
    Db(w.sh.tables, w.found)
  }

  /** Only requests write the counters and the request log; a provider key gets an id that was never issued before. */
  predicate AdminOp(w: World, op: Op) {
    && Enabled(DbOf(w), op)
    && !op.OpMarkUsed? && !op.OpMarkSuccess? && !op.OpMarkFailure?
    && (op.OpAddProviderKey? ==> op.id !in w.issued)
    && (op.OpLog? ==> op.entry.kind.Admin?)
  }

  /** Clock readings never go back. */
  predicate Allowed(w: World, e: Event) {
    match e
    case Arrive(_) => true
    case Run(i, env) => i < |w.lives| && !w.lives[i].pc.Done? && env.now >= w.clock
    case Perform(op) => AdminOp(w, op)
  }

  function CallsOf(cfg: Config, l: Live, env: Env): seq<Rate.Call> {
    match l.pc
    case AtIpLimit => [Rate.Call(env.now, Gates.IpKey(l.rq.ip), cfg.perIp)]
    case AtKeyLimit(key) => [Rate.Call(env.now, Gates.UserKeyKey(key.id), KeyLimit(cfg, key))]
    case _ => []
  }

  function SettledBy(l: Live): seq<Attempt> {
    match l.pc
    case AtMarkFailure(_, keyId) => if l.sent == [] then [] else [Attempt(keyId, l.sent[|l.sent| - 1])]
    case AtMarkUse(_, keyId, status) => if Success(status) then [] else [Attempt(keyId, Response(status))]
    case AtMarkSuccess(_, keyId, status) => [Attempt(keyId, Response(status))]
    case _ => []
  }

  function Next(cfg: Config, w: World, e: Event): World
    requires Allowed(w, e)
  {
    match e
    case Arrive(rq) => w.(lives := w.lives + [Arrived(rq)])
    case Run(i, env) =>
      var l := w.lives[i];
      var (sh, l') := Step(cfg, w.sh, l, env);
      World(sh, w.found, w.lives[i := l'], env.now, w.calls + CallsOf(cfg, l, env), w.attempts + SettledBy(l), w.issued)
    case Perform(op) =>
      var db := Apply(DbOf(w), op);
      w.(sh := w.sh.(tables := db.tables), found := db.found,
         issued := if op.OpAddProviderKey? then w.issued + {op.id} else w.issued)
  }

  /** A process that starts on a sound database: nothing in memory, no request yet. */
  predicate Initial(w: World) {
    && Sound(DbOf(w))
    && w.sh.buckets == map[] && w.sh.lb == Lb.Empty && w.sh.bot == Bot.Initial(w.clock)
    && w.lives == [] && w.calls == [] && w.attempts == []
    && forall k :: k in w.sh.tables.providerKeys ==> k.id in w.issued
  }

  predicate Follows(cfg: Config, ws: seq<World>, events: seq<Event>, n: nat)
    requires n < |events| && |ws| == |events| + 1
  {
    Allowed(ws[n], events[n]) && ws[n + 1] == Next(cfg, ws[n], events[n])
  }

  predicate IsRun(cfg: Config, ws: seq<World>, events: seq<Event>) {
    |ws| == |events| + 1 && Initial(ws[0]) && forall n :: 0 <= n < |events| ==> Follows(cfg, ws, events, n)
  }

  // ---- sums over requests ----

  function Sum(ls: seq<Live>, weight: Live -> nat): nat {
    if ls == [] then 0 else Sum(ls[..|ls| - 1], weight) + weight(ls[|ls| - 1])
  }

  lemma SumAppend(ls: seq<Live>, l: Live, weight: Live -> nat)
    ensures Sum(ls + [l], weight) == Sum(ls, weight) + weight(l)
  {
    assert (ls + [l])[..|ls|] == ls;
  }

  lemma {:induction false} SumUpdate(ls: seq<Live>, i: nat, l: Live, weight: Live -> nat)
    requires i < |ls|
    ensures Sum(ls[i := l], weight) + weight(ls[i]) == Sum(ls, weight) + weight(l)
  {
    var k := |ls| - 1;
    if i < k {
      SumUpdate(ls[..k], i, l, weight);
      assert ls[i := l][..k] == ls[..k][i := l];
    } else {
      assert ls[i := l][..k] == ls[..k];
    }
  }

  // ---- the basic invariant ----

  /** The row a request's snapshot was taken from is still there. */
  predicate RowHeld(userKeys: seq<UserKey>, key: UserKey) {
    exists i :: 0 <= i < |userKeys| && RowEvolves(key, userKeys[i])
  }

  predicate Snapshots(pc: Pc) {
    pc.AtKeyLimit? || HasKey(pc)
  }

  function Snapshot(pc: Pc): UserKey
    requires Snapshots(pc)
  {
    if pc.AtKeyLimit? then pc.key else KeyOf(pc)
  }

  predicate LiveSound(t: Tables, l: Live) {
    Fits(l) && (Snapshots(l.pc) ==> RowHeld(t.userKeys, Snapshot(l.pc)))
  }

  /** The store is sound, and every request is where its history says, holding a key row that exists. */
  predicate Basic(w: World) {
    Sound(DbOf(w)) && forall l :: l in w.lives ==> LiveSound(w.sh.tables, l)
  }

  lemma RowHeldEvolves(ks: seq<UserKey>, ks': seq<UserKey>, key: UserKey)
    requires KeysEvolve(ks, ks') && RowHeld(ks, key)
    ensures RowHeld(ks', key)
  {
    var i :| 0 <= i < |ks| && RowEvolves(key, ks[i]);
    assert RowEvolves(key, ks'[i]);
  }

  /** The store operation a request's step amounts to, if it is one. */
  function OpOf(rq: Request, pc: Pc): Option<Op> {
    match pc
    case AtBotLog => Some(OpLog(LogEntry(BotBlock, Some(rq.ip), None)))
    case AtMarkFailure(_, keyId) => Some(OpMarkFailure(keyId))
    case AtFailLog(job) => Some(OpLog(LogEntry(RequestFail, Some(rq.ip), Some(job.key.userId))))
    case AtMarkUse(job, _, _) => Some(OpMarkUsed(job.key.id))
    case AtMarkSuccess(_, keyId, _) => Some(OpMarkSuccess(keyId))
    case AtLog(job, _) => Some(OpLog(LogEntry(LogKind.Request, Some(rq.ip), Some(job.key.userId))))
    case AtFallback(job, _) => Some(OpMarkUsed(job.key.id))
    case _ => None
  }

  /** A request's step changes the tables by one store operation or not at all. */
  lemma StepIsOp(cfg: Config, sh: Shared, found: set<string>, l: Live, env: Env)
    requires !l.pc.Done?
    ensures
      var t' := Step(cfg, sh, l, env).0.tables;
      match OpOf(l.rq, l.pc)
      case None => t' == sh.tables
      case Some(op) => Enabled(Db(sh.tables, found), op) && Apply(Db(sh.tables, found), op) == Db(t', found)
  {
  }

  lemma TablesEvolve(cfg: Config, w: World, e: Event)
    requires Allowed(w, e) && Sound(DbOf(w))
    ensures Sound(DbOf(Next(cfg, w, e)))
    ensures KeysEvolve(w.sh.tables.userKeys, Next(cfg, w, e).sh.tables.userKeys)
  {
    match e
    case Arrive(_) =>
    case Run(i, env) =>
      StepIsOp(cfg, w.sh, w.found, w.lives[i], env);
      var op := OpOf(w.lives[i].rq, w.lives[i].pc);
      if op.Some? {
        ApplySound(DbOf(w), op.value);
        ApplyEvolves(DbOf(w), op.value);
      }
    case Perform(op) =>
      ApplySound(DbOf(w), op);
      ApplyEvolves(DbOf(w), op);
  }

  /** A step keeps the snapshot a request holds, or takes one of a row of the table. */
  lemma SnapshotStep(cfg: Config, sh: Shared, l: Live, env: Env)
    requires !l.pc.Done?
    ensures
      var pc' := Step(cfg, sh, l, env).1.pc;
      Snapshots(pc') ==>
        || (Snapshots(l.pc) && Snapshot(pc') == Snapshot(l.pc))
        || (l.pc.AtAuth? && Snapshot(pc') in sh.tables.userKeys)
  {
  }

  lemma LiveSoundStep(cfg: Config, w: World, i: nat, env: Env)
    requires Allowed(w, Run(i, env)) && Basic(w)
    ensures
      var w' := Next(cfg, w, Run(i, env));
      LiveSound(w'.sh.tables, w'.lives[i])
  {
    var l, w' := w.lives[i], Next(cfg, w, Run(i, env));
    assert l in w.lives && LiveSound(w.sh.tables, l);
    StepFits(cfg, w.sh, l, env);
    SnapshotStep(cfg, w.sh, l, env);
    TablesEvolve(cfg, w, Run(i, env));
    var pc' := w'.lives[i].pc;
    if Snapshots(pc') {
      if l.pc.AtAuth? {
        var j :| 0 <= j < |w.sh.tables.userKeys| && w.sh.tables.userKeys[j] == Snapshot(pc');
        assert RowEvolves(Snapshot(pc'), w.sh.tables.userKeys[j]);
      }
      RowHeldEvolves(w.sh.tables.userKeys, w'.sh.tables.userKeys, Snapshot(pc'));
    }
  }

  lemma NextBasic(cfg: Config, w: World, e: Event)
    requires Allowed(w, e) && Basic(w)
    ensures Basic(Next(cfg, w, e))
  {
    var w' := Next(cfg, w, e);
    TablesEvolve(cfg, w, e);
    if e.Run? {
      LiveSoundStep(cfg, w, e.i, e.env);
    }
    forall l | l in w'.lives ensures LiveSound(w'.sh.tables, l) {
      if l in w.lives {
        if Snapshots(l.pc) {
          RowHeldEvolves(w.sh.tables.userKeys, w'.sh.tables.userKeys, Snapshot(l.pc));
        }
      }
    }
  }

  lemma {:induction false} RunBasic(cfg: Config, ws: seq<World>, events: seq<Event>, n: nat)
    requires IsRun(cfg, ws, events) && n <= |events|
    ensures Basic(ws[n])
    decreases n
  {
    if n > 0 {
      RunBasic(cfg, ws, events, n - 1);
      assert Follows(cfg, ws, events, n - 1);
      NextBasic(cfg, ws[n - 1], events[n - 1]);
    }
  }

  lemma RunFits(cfg: Config, ws: seq<World>, events: seq<Event>, n: nat, i: nat)
    requires IsRun(cfg, ws, events) && n <= |events| && i < |ws[n].lives|
    ensures Fits(ws[n].lives[i])
  {
    RunBasic(cfg, ws, events, n);
    assert LiveSound(ws[n].sh.tables, ws[n].lives[i]);
  }

  /**
   In every reachable world the store is consistent, no request has made more than three
   attempts or any without passing the key limit, and every finished one that made some has met
   a network error, 5xx, 401, 403 or 429 each time but the last, went on unless it was the third
   or the last candidate, and has answered the last response it met, or 502.
   */
  lemma EveryAnswerIsRight(cfg: Config, ws: seq<World>, events: seq<Event>, n: nat, i: nat, k: nat)
    requires IsRun(cfg, ws, events) && n <= |events| && i < |ws[n].lives|
    requires k <= |ws[n].lives[i].sent|
    requires forall j :: k <= j < |ws[n].lives[i].sent| ==> ws[n].lives[i].sent[j].NetworkError?
    ensures
      var l := ws[n].lives[i];
      var o, made := l.sent, |l.sent|;
      && Consistent(ws[n].sh.tables)
      && made <= 3
      && (made > 0 ==> l.admitted.Some?)
      && (l.pc.Done? && made == 0 ==> l.pc.result.Failed?)
      && (l.pc.Done? && made > 0 ==>
            && made <= l.offered
            && (forall j :: 0 <= j < made - 1 ==>
                  o[j].NetworkError? || 500 <= o[j].status <= 599
                  || o[j].status == 401 || o[j].status == 403 || o[j].status == 429)
            && (made < 3 && made < l.offered ==>
                  o[made - 1].Response? && !(500 <= o[made - 1].status <= 599)
                  && o[made - 1].status != 401 && o[made - 1].status != 403 && o[made - 1].status != 429)
            && (k == 0 ==> l.pc.result == Failed(502))
            && (k > 0 && o[k - 1].Response? ==> l.pc.result == Answered(o[k - 1].status)))
  {
    RunBasic(cfg, ws, events, n);
    var l := ws[n].lives[i];
    assert LiveSound(ws[n].sh.tables, l);
    SentBounded(l);
    CompleteInFigures(l.sent, l.offered);
    AnswerInFigures(l.sent, k);
  }

  lemma SentBounded(l: Live)
    requires Fits(l)
    ensures |l.sent| <= 3
  {
  }
}
