/**
 A request served without interference, and the sequential method that serves it
 (rust-core/src/proxy.rs, `route_request`).
 */
module ProxyServer {
  import opened Common
  import opened Failover
  import opened Proxy
  import opened Store
  import Bot = BotProtection
  import Rate = RateLimiting
  import Lb = LoadBalancing
  import Gates
  import Routing

  /** Everything one request meets: three clock readings, two tests, and what each attempt would yield. */
  datatype Inputs = Inputs(botAt: nat, ipAt: nat, keyAt: nat, expired: bool, bodyOk: bool, outcomes: seq<Outcome>)

  function EnvAt(inp: Inputs, pc: Pc): Env {
    Env(if pc.AtBot? || pc.AtBotLog? then inp.botAt else if pc.AtIpLimit? || pc.AtAuth? then inp.ipAt else inp.keyAt,
        inp.expired, inp.bodyOk,
        if pc.AtSend? && 0 < pc.job.attempted <= |inp.outcomes| then inp.outcomes[pc.job.attempted - 1]
        else NetworkError)
  }

  function Left(job: Job): nat {
    10 * Max(0, Budget(|job.candidates|) - job.attempted)
  }

  function Rank(pc: Pc): nat {
    match pc
    case AtBot => 65
    case AtIpLimit => 64
    case AtAuth => 63
    case AtKeyLimit(_) => 62
    case AtResolve(_) => 61
    case AtListKeys(_, _) => 60
    case AtBody(job) => Left(job) + 10
    case AtSelect(job) => Left(job) + 6
    case AtSend(job, _) => Left(job) + 9
    case AtMarkFailure(job, _) => Left(job) + 8
    case AtFailLog(job) => Left(job) + 7
    case AtMarkUse(_, _, _) => 5
    case AtMarkSuccess(_, _, _) => 4
    case AtLog(_, _) => 3
    case AtFallback(_, _) => 2
    case AtBotLog => 1
    case Done(_) => 0
  }

  lemma RankFallsAtGates(cfg: Config, sh: Shared, rq: Request, pc: Pc, env: Env)
    requires !InLoop(pc)
    ensures Rank(AdvanceGates(cfg, sh, rq, pc, env).1) < Rank(pc)
  {
  }

  lemma RankFallsInLoop(cfg: Config, sh: Shared, rq: Request, pc: Pc, env: Env)
    requires InLoop(pc) && !pc.Done?
    ensures Rank(AdvanceLoop(cfg, sh, rq, pc, env).1) < Rank(pc)
  {
  }

  lemma RankFalls(cfg: Config, sh: Shared, rq: Request, pc: Pc, env: Env)
    requires !pc.Done?
    ensures Rank(Advance(cfg, sh, rq, pc, env).1) < Rank(pc)
  {
    if InLoop(pc) {
      RankFallsInLoop(cfg, sh, rq, pc, env);
    } else {
      RankFallsAtGates(cfg, sh, rq, pc, env);
    }
  }

  /** The steps of one request, one after the other, until it is answered: every request is. */
  function Solo(cfg: Config, sh: Shared, l: Live, inp: Inputs): (r: (Shared, Live))
    ensures r.1.pc.Done?
    decreases Rank(l.pc)
  {
    if l.pc.Done? then (sh, l)
    else
      var (sh', l') := Step(cfg, sh, l, EnvAt(inp, l.pc));
      RankFalls(cfg, sh, l.rq, l.pc, EnvAt(inp, l.pc));
      Solo(cfg, sh', l', inp)
  }

  lemma SoloStep(cfg: Config, sh: Shared, l: Live, inp: Inputs, sh': Shared, l': Live)
    requires !l.pc.Done? && Step(cfg, sh, l, EnvAt(inp, l.pc)) == (sh', l')
    ensures Solo(cfg, sh, l, inp) == Solo(cfg, sh', l', inp)
    ensures l'.pc.Done? ==> Solo(cfg, sh, l, inp) == (sh', l')
  {
  }

  /** What the awaited outcome makes of an attempt. */
  lemma SendStep(cfg: Config, sh: Shared, l: Live, inp: Inputs) returns (l': Live)
    requires l.pc.AtSend? && 0 < l.pc.job.attempted <= |inp.outcomes|
    ensures Solo(cfg, sh, l', inp) == Solo(cfg, sh, l, inp) && l'.rq == l.rq
    ensures l'.pc == match inp.outcomes[l.pc.job.attempted - 1]
                     case NetworkError => AtMarkFailure(l.pc.job, l.pc.keyId)
                     case Response(status) =>
                       if Retriable(status) then AtMarkFailure(l.pc.job.(last := Some(status)), l.pc.keyId)
                       else AtMarkUse(l.pc.job, l.pc.keyId, status)
  {
    l' := Step(cfg, sh, l, EnvAt(inp, l.pc)).1;
    SoloStep(cfg, sh, l, inp, sh, l');
  }

  /** Resolving the provider, listing its keys and reading the body touch nothing shared. */
  lemma ResolveSteps(cfg: Config, sh: Shared, l: Live, inp: Inputs)
    requires l.pc.AtResolve? && Routing.RouteOf(l.rq.path).Some?
    ensures
      var (sh', l') := Solo(cfg, sh, l, inp);
      var p := FindProvider(sh.tables.providers, Routing.RouteOf(l.rq.path).value.provider);
      if p.None? then sh' == sh && l'.pc == Done(Failed(404))
      else if !p.value.status.Active? then sh' == sh && l'.pc == Done(Failed(503))
      else Solo(cfg, sh, l, inp) == Solo(cfg, sh, l.(pc := AtListKeys(l.pc.key, p.value.name)), inp)
  {
    SoloStep(cfg, sh, l, inp, sh, Step(cfg, sh, l, EnvAt(inp, l.pc)).1);
  }

  lemma ListSteps(cfg: Config, sh: Shared, l: Live, inp: Inputs)
    requires l.pc.AtListKeys?
    ensures
      var (sh', l') := Solo(cfg, sh, l, inp);
      var candidates := ActiveIds(KeysOf(sh.tables.providerKeys, l.pc.provider));
      var job := Job(l.pc.key, l.pc.provider, candidates, 0, None);
      if candidates == [] then sh' == sh && l'.pc == Done(Failed(503))
      else if !inp.bodyOk then sh' == sh && l'.pc == Done(Failed(400))
      else Solo(cfg, sh, l, inp) == Solo(cfg, sh, l.(pc := AtSelect(job), offered := |candidates|), inp)
  {
    var l1 := Step(cfg, sh, l, EnvAt(inp, l.pc)).1;
    SoloStep(cfg, sh, l, inp, sh, l1);
    if !l1.pc.Done? {
      SoloStep(cfg, sh, l1, inp, sh, Step(cfg, sh, l1, EnvAt(inp, l1.pc)).1);
    }
  }

  lemma BotSteps(cfg: Config, sh: Shared, l: Live, inp: Inputs)
    requires l.pc.AtBot?
    ensures
      var (bot, d) := Bot.CheckStep(cfg.bot, sh.bot, Bot.Visit(inp.botAt, l.rq.ip));
      var sh1 := sh.(bot := bot);
      if d.Blocked? then
        Solo(cfg, sh, l, inp)
        == (sh1.(tables := Logged(sh1.tables, BotBlock, l.rq.ip, None)), l.(pc := Done(Failed(403))))
      else
        Solo(cfg, sh, l, inp) == Solo(cfg, sh1, l.(pc := AtIpLimit), inp)
  {
    var (sh1, l1) := Step(cfg, sh, l, EnvAt(inp, l.pc));
    SoloStep(cfg, sh, l, inp, sh1, l1);
    if l1.pc.AtBotLog? {
      var (sh2, l2) := Step(cfg, sh1, l1, EnvAt(inp, l1.pc));
      SoloStep(cfg, sh1, l1, inp, sh2, l2);
    }
  }

  lemma IpLimitSteps(cfg: Config, sh: Shared, l: Live, inp: Inputs)
    requires l.pc.AtIpLimit?
    ensures
      var c := Rate.Call(inp.ipAt, Gates.IpKey(l.rq.ip), cfg.perIp);
      var (buckets, ok) := Rate.Consume(cfg.window, sh.buckets, c);
      if ok then Solo(cfg, sh, l, inp) == Solo(cfg, sh.(buckets := buckets), l.(pc := AtAuth), inp)
      else Solo(cfg, sh, l, inp) == (sh.(buckets := buckets), l.(pc := Done(Failed(429))))
  {
    var (sh1, l1) := Step(cfg, sh, l, EnvAt(inp, l.pc));
    SoloStep(cfg, sh, l, inp, sh1, l1);
  }

  lemma FoundAmong(candidates: seq<ProviderKey>, id: string)
    requires id in IdsOf(candidates)
    ensures FindKey(candidates, id).Some?
  {
    var i :| 0 <= i < |candidates| && IdsOf(candidates)[i] == id;
    assert candidates[i] in candidates;
  }

  // ---- the server ----

  class Server {
    const cfg: Config
    const bot: Bot.BotProtect
    const limiter: Rate.RateLimiter
    const lb: Lb.LoadBalancer
    const db: Database

    constructor (cfg: Config, db: Database, now: nat)
      ensures Wired() && this.cfg == cfg && this.db == db
      ensures fresh(bot) && fresh(limiter) && fresh(lb)
      ensures Current() == Shared(Bot.Initial(now), map[], Lb.Empty, db.tables)
    {
      this.cfg := cfg;
      this.db := db;
      bot := new Bot.BotProtect(cfg.bot, now);
      limiter := new Rate.RateLimiter(cfg.window);
      lb := new Lb.LoadBalancer(cfg.mode);
    }

    predicate Wired() {
      bot.cfg == cfg.bot && limiter.window == cfg.window && lb.mode == cfg.mode
    }

    ghost function Current(): Shared
      reads bot, limiter, lb, db
    {
      Shared(bot.Current(), limiter.buckets, lb.Current(), db.tables)
    }

    /** Gates, authentication, candidates, then the failover loop: exactly the machine's steps, in its order. */
    method RouteRequest(rq: Request, inp: Inputs) returns (reply: Reply)
      requires Wired() && |inp.outcomes| >= MAX_ATTEMPTS
      modifies bot, limiter, lb, db
      ensures
        var (sh, l) := Solo(cfg, old(Current()), Arrived(rq), inp);
        Current() == sh && l.pc == Done(reply)
    {
      ghost var l := Arrived(rq);
      BotSteps(cfg, Current(), l, inp);
      var decision := bot.Check(inp.botAt, rq.ip);
      if decision.Blocked? {
        db.AddLog(LogEntry(BotBlock, Some(rq.ip), None));
        return Failed(403);
      }

      ghost var l1 := l.(pc := AtIpLimit);
      IpLimitSteps(cfg, Current(), l1, inp);
      var ok := limiter.CheckAndConsume(inp.ipAt, Gates.IpKey(rq.ip), cfg.perIp);
      if !ok {
        return Failed(429);
      }
      reply := RouteAuthenticated(rq, inp, l1.(pc := AtAuth));
    }

    /** The key row, or the status the request is refused with. */
    method AuthenticateKey(rq: Request, expired: bool) returns (keyInfo: Option<UserKey>, code: nat)
      ensures Authenticate(db.tables.userKeys, rq, expired)
           == if keyInfo.Some? then AtKeyLimit(keyInfo.value) else Done(Failed(code))
    {
      if Routing.RouteOf(rq.path).None? {
        return None, 400;
      }
      if rq.userKey.None? {
        return None, 401;
      }
      var row := FindUserKey(db.tables.userKeys, rq.userKey.value);
      if row.None? {
        return None, 401;
      }
      if !row.value.status.Active? {
        return None, 401;
      }
      if row.value.expiresAt.Some? && expired {
        return None, 401;
      }
      return row, 200;
    }

    method RouteAuthenticated(rq: Request, inp: Inputs, ghost l: Live) returns (reply: Reply)
      requires Wired() && |inp.outcomes| >= MAX_ATTEMPTS
      requires l == Arrived(rq).(pc := AtAuth)
      modifies limiter, lb, db
      ensures
        var (sh, l') := Solo(cfg, old(Current()), l, inp);
        Current() == sh && l'.pc == Done(reply)
    {
      ghost var sh0 := Current();
      var keyInfo, code := AuthenticateKey(rq, inp.expired);
      ghost var l1 := l.(pc := Authenticate(sh0.tables.userKeys, rq, inp.expired));
      SoloStep(cfg, sh0, l, inp, sh0, l1);
      if keyInfo.None? {
        return Failed(code);
      }

      var limit := if keyInfo.value.maxLimit > 0 then keyInfo.value.maxLimit else cfg.perKey;
      var ok := limiter.CheckAndConsume(inp.keyAt, Gates.UserKeyKey(keyInfo.value.id), limit);
      ghost var l2 := Step(cfg, sh0, l1, EnvAt(inp, l1.pc)).1;
      SoloStep(cfg, sh0, l1, inp, Current(), l2);
      if !ok {
        return Failed(429);
      }
      assert l2.pc == AtResolve(keyInfo.value);
      assert Routing.RouteOf(rq.path).Some?;
      reply := RouteAdmitted(rq, Routing.RouteOf(rq.path).value.provider, keyInfo.value, inp, l2);
    }

    method RouteAdmitted(rq: Request, providerName: string, keyInfo: UserKey, inp: Inputs, ghost l: Live)
      returns (reply: Reply)
      requires Wired() && |inp.outcomes| >= MAX_ATTEMPTS
      requires l.rq == rq && l.pc == AtResolve(keyInfo)
      requires Routing.RouteOf(rq.path).Some? && Routing.RouteOf(rq.path).value.provider == providerName
      modifies lb, db
      ensures
        var (sh, l') := Solo(cfg, old(Current()), l, inp);
        Current() == sh && l'.pc == Done(reply)
    {
      ResolveSteps(cfg, Current(), l, inp);
      var provider := FindProvider(db.tables.providers, providerName);
      if provider.None? {
        return Failed(404);
      }
      if !provider.value.status.Active? {
        return Failed(503);
      }

      ghost var l1 := l.(pc := AtListKeys(keyInfo, provider.value.name));
      ListSteps(cfg, Current(), l1, inp);
      var keys := KeysOf(db.tables.providerKeys, provider.value.name);
      var candidates := ActiveKeys(keys);
      ActiveIdsOf(keys);
      assert candidates == [] <==> IdsOf(candidates) == [];
      if candidates == [] {
        return Failed(503);
      }
      if !inp.bodyOk {
        return Failed(400);
      }

      ghost var job := Job(keyInfo, provider.value.name, IdsOf(candidates), 0, None);
      reply := Forward(rq, keyInfo, provider.value.name, candidates, inp,
                       l1.(pc := AtSelect(job), offered := |candidates|));
    }

    /**
     The failover loop.  Its two early exits and the lookup of the selected candidate are
     asserted never to fire and never to fail.
     */
    method Forward(rq: Request, keyInfo: UserKey, provider: string, candidates: seq<ProviderKey>, inp: Inputs,
                   ghost start: Live) returns (reply: Reply)
      requires Wired() && |inp.outcomes| >= MAX_ATTEMPTS && candidates != []
      requires start.rq == rq && start.pc == AtSelect(Job(keyInfo, provider, IdsOf(candidates), 0, None))
      modifies lb, db
      ensures
        var (sh, l) := Solo(cfg, old(Current()), start, inp);
        Current() == sh && l.pc == Done(reply)
    {
      ghost var goal := Solo(cfg, Current(), start, inp);
      ghost var l := start;
      var maxAttempts := Min(|candidates|, MAX_ATTEMPTS);
      var candidateIds := IdsOf(candidates);
      var lastResp: Option<nat> := None;
      var attempted := 0;

      for i := 0 to maxAttempts
        invariant attempted == i
        invariant l.rq == rq && l.pc == AtSelect(Job(keyInfo, provider, candidateIds, attempted, lastResp))
        invariant goal == Solo(cfg, Current(), l, inp)
      {
        assert attempted < maxAttempts;
        attempted := attempted + 1;

        var keyId;
        keyId, l := SelectKey(provider, candidateIds, inp, l);
        assert keyId.Some?;
        FoundAmong(candidates, keyId.value);
        var keyEntry := FindKey(candidates, keyId.value);
        assert keyEntry.Some?;

        var outcome := inp.outcomes[attempted - 1];
        var answered;
        answered, l := Handle(rq, keyInfo, keyEntry.value.id, outcome, inp, l);
        if answered {
          return Answered(outcome.status);
        }
        if outcome.Response? {
          lastResp := Some(outcome.status);
        }
      }

      reply := Fallback(keyInfo, lastResp, inp, l);
    }

    /** What is done with an attempt's outcome: answered at once if it is final, else marked as a failure. */
    method Handle(rq: Request, keyInfo: UserKey, keyId: string, outcome: Outcome, inp: Inputs, ghost l: Live)
      returns (answered: bool, ghost l': Live)
      requires l.rq == rq && l.pc.AtSend? && l.pc.keyId == keyId && l.pc.job.key == keyInfo
      requires 0 < l.pc.job.attempted <= |inp.outcomes| && outcome == inp.outcomes[l.pc.job.attempted - 1]
      modifies db
      ensures answered <==> Final(outcome)
      ensures Solo(cfg, Current(), l', inp) == Solo(cfg, old(Current()), l, inp)
      ensures l'.rq == rq
      ensures l'.pc == if answered then Done(Answered(outcome.status))
                       else AtSelect(if outcome.Response? then l.pc.job.(last := Some(outcome.status)) else l.pc.job)
    {
      l' := SendStep(cfg, Current(), l, inp);
      answered := outcome.Response? && !Retriable(outcome.status);
      if answered {
        l' := Settle(rq, keyInfo, keyId, outcome.status, inp, l');
      } else {
        l' := RecordFailure(rq, keyInfo, keyId, inp, l');
      }
    }

    /** One turn of the load balancer. */
    method SelectKey(provider: string, candidateIds: seq<string>, inp: Inputs, ghost l: Live)
      returns (keyId: Option<string>, ghost l': Live)
      requires Wired() && candidateIds != []
      requires l.pc.AtSelect? && l.pc.job.provider == provider && l.pc.job.candidates == candidateIds
      requires l.pc.job.attempted < Budget(|candidateIds|)
      modifies lb
      ensures keyId.Some? && keyId.value in candidateIds
      ensures l'.rq == l.rq && l'.pc == AtSend(l.pc.job.(attempted := l.pc.job.attempted + 1), keyId.value)
      ensures Solo(cfg, Current(), l', inp) == Solo(cfg, old(Current()), l, inp)
    {
      ghost var sh := Current();
      keyId := lb.Select(provider, candidateIds);
      l' := Step(cfg, sh, l, EnvAt(inp, l.pc)).1;
      SoloStep(cfg, sh, l, inp, Current(), l');
    }

    /** After the loop: the buffered response, charged to the user's key, or 502. */
    method Fallback(keyInfo: UserKey, lastResp: Option<nat>, inp: Inputs, ghost l: Live) returns (reply: Reply)
      requires l.pc.AtSelect? && l.pc.job.key == keyInfo && l.pc.job.last == lastResp
      requires l.pc.job.attempted >= Budget(|l.pc.job.candidates|)
      modifies db
      ensures
        var (sh, l') := Solo(cfg, old(Current()), l, inp);
        Current() == sh && l'.pc == Done(reply)
    {
      ghost var sh := Current();
      ghost var l1 := Step(cfg, sh, l, EnvAt(inp, l.pc)).1;
      SoloStep(cfg, sh, l, inp, sh, l1);
      if lastResp.Some? {
        db.MarkUserKeyUsed(keyInfo.id);
        SoloStep(cfg, sh, l1, inp, Current(), Step(cfg, sh, l1, EnvAt(inp, l1.pc)).1);
        return Answered(lastResp.value);
      }
      return Failed(502);
    }

    /** Bookkeeping of an attempt that is not going to be returned at once. */
    method RecordFailure(rq: Request, keyInfo: UserKey, keyId: string, inp: Inputs, ghost l: Live)
      returns (ghost l': Live)
      requires l.rq == rq && l.pc.AtMarkFailure? && l.pc.keyId == keyId && l.pc.job.key == keyInfo
      modifies db
      ensures l'.rq == rq && l'.pc == AtSelect(l.pc.job)
      ensures Solo(cfg, Current(), l', inp) == Solo(cfg, old(Current()), l, inp)
    {
      ghost var sh := Current();
      db.MarkProviderKeyFailure(keyId);
      ghost var l1 := Step(cfg, sh, l, EnvAt(inp, l.pc)).1;
      assert Solo(cfg, Current(), l1, inp) == Solo(cfg, sh, l, inp);
      ghost var sh1 := Current();
      db.AddLog(LogEntry(RequestFail, Some(rq.ip), Some(keyInfo.userId)));
      l' := Step(cfg, sh1, l1, EnvAt(inp, l1.pc)).1;
      assert Solo(cfg, Current(), l', inp) == Solo(cfg, sh1, l1, inp);
    }

    /** Bookkeeping of the response that is returned as it is. */
    method Settle(rq: Request, keyInfo: UserKey, keyId: string, status: nat, inp: Inputs, ghost l: Live)
      returns (ghost l': Live)
      requires l.rq == rq && l.pc.AtMarkUse? && l.pc.keyId == keyId && l.pc.status == status && l.pc.job.key == keyInfo
      modifies db
      ensures l'.rq == rq && l'.pc == Done(Answered(status))
      ensures Solo(cfg, Current(), l', inp) == Solo(cfg, old(Current()), l, inp)
    {
      ghost var sh := Current();
      db.MarkUserKeyUsed(keyInfo.id);
      ghost var l1 := Step(cfg, sh, l, EnvAt(inp, l.pc)).1;
      SoloStep(cfg, sh, l, inp, Current(), l1);
      if Success(status) {
        sh := Current();
        db.MarkProviderKeySuccess(keyId);
        ghost var l2 := Step(cfg, sh, l1, EnvAt(inp, l1.pc)).1;
        SoloStep(cfg, sh, l1, inp, Current(), l2);
        l1 := l2;
      }
      sh := Current();
      db.AddLog(LogEntry(LogKind.Request, Some(rq.ip), Some(keyInfo.userId)));
      l' := Step(cfg, sh, l1, EnvAt(inp, l1.pc)).1;
      SoloStep(cfg, sh, l1, inp, Current(), l');
    }
  }
}
