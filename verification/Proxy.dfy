/**
 The request pipeline as a step machine (rust-core/src/proxy.rs, `route_request`).

 Between two steps of one request anything else may run: each step takes one lock, or one
 call of the database, or awaits the upstream.  `Advance` is one step of one request; the
 concurrent runs are built from it in `Concurrency`, and the sequential method in
 `ProxyServer` is proved to perform exactly these steps.
 */
module Proxy {
  import opened Common
  import opened Failover
  import Bot = BotProtection
  import Rate = RateLimiting
  import Lb = LoadBalancing
  import Gates
  import Routing
  import opened Store

  /** `perIp` is already raised to at least one, and `window` is a positive number of whole seconds, as on start-up. */
  datatype Config = Config(bot: Bot.Config, mode: Lb.Mode, window: nat, perIp: nat, perKey: nat)

  predicate WellFormed(cfg: Config) {
    Bot.WellFormed(cfg.bot) && cfg.window >= SECOND && cfg.window % SECOND == 0 && cfg.perIp >= 1
  }

  function FromSettings(bot: Bot.Config, leastConnections: bool, windowSeconds: nat, maxPerIp: nat, maxPerKey: nat)
    : (cfg: Config)
    requires Bot.WellFormed(bot)
    ensures WellFormed(cfg) && cfg.bot == bot && cfg.perKey == maxPerKey
    ensures cfg.mode.LeastConnections? <==> leastConnections
    ensures cfg.window == if windowSeconds == 0 then 1_000_000_000 else windowSeconds * 1_000_000_000
    ensures cfg.perIp == if maxPerIp == 0 then 1 else maxPerIp
  {
    Config(bot, if leastConnections then Lb.LeastConnections else Lb.RoundRobin,
           Max(windowSeconds, 1) * SECOND, Max(maxPerIp, 1), maxPerKey)
  }

  datatype Shared = Shared(bot: Bot.State, buckets: Rate.Buckets, lb: Lb.State, tables: Tables)

  datatype Request = Request(ip: string, path: string, userKey: Option<string>)

  /** What a step can meet in the world: the clock, an expiry test, the body, an upstream's answer. */
  datatype Env = Env(now: nat, expired: bool, bodyOk: bool, outcome: Outcome)

  /** The failover loop's variables: candidates, attempts so far, the buffered error response. */
  datatype Job = Job(key: UserKey, provider: string, candidates: seq<string>, attempted: nat, last: Option<nat>)

  datatype Pc =
    | AtBot
    | AtBotLog
    | AtIpLimit
    | AtAuth
    | AtKeyLimit(key: UserKey)
    | AtResolve(key: UserKey)
    | AtListKeys(key: UserKey, provider: string)
    | AtBody(job: Job)
    | AtSelect(job: Job)
    | AtSend(job: Job, keyId: string)
    | AtMarkFailure(job: Job, keyId: string)
    | AtFailLog(job: Job)
    | AtMarkUse(job: Job, keyId: string, status: nat)
    | AtMarkSuccess(job: Job, keyId: string, status: nat)
    | AtLog(job: Job, status: nat)
    | AtFallback(job: Job, status: nat)
    | Done(result: Reply)

  function KeyLimit(cfg: Config, key: UserKey): nat {
    if key.maxLimit > 0 then key.maxLimit else cfg.perKey
  }

  function Logged(t: Tables, kind: LogKind, ip: string, userId: Option<string>): Tables {
    t.(logs := t.logs + [LogEntry(kind, Some(ip), userId)])
  }

  /** Leaving the loop: the buffered response is charged and returned, or there is none. */
  function AfterLoop(job: Job): Pc {
    match job.last
    case Some(status) => AtFallback(job, status)
    case None => Done(Failed(502))
  }

  /** The failover loop and what follows it. */
  predicate InLoop(pc: Pc) {
    || pc.AtSelect? || pc.AtSend? || pc.AtMarkFailure? || pc.AtFailLog? || pc.AtMarkUse? || pc.AtMarkSuccess?
    || pc.AtLog? || pc.AtFallback? || pc.Done?
  }

  function Advance(cfg: Config, sh: Shared, rq: Request, pc: Pc, env: Env): (Shared, Pc)
    requires !pc.Done?
  {
    if InLoop(pc) then AdvanceLoop(cfg, sh, rq, pc, env) else AdvanceGates(cfg, sh, rq, pc, env)
  }

  /** Steps 1 to 9: the gates, authentication, and the candidates. */
  function AdvanceGates(cfg: Config, sh: Shared, rq: Request, pc: Pc, env: Env): (Shared, Pc)
    requires !InLoop(pc)
  {
    match pc
    case AtBot =>
      var (bot, d) := Bot.CheckStep(cfg.bot, sh.bot, Bot.Visit(env.now, rq.ip));
      (sh.(bot := bot), if d.Blocked? then AtBotLog else AtIpLimit)
    case AtBotLog =>
      (sh.(tables := Logged(sh.tables, BotBlock, rq.ip, None)), Done(Failed(403)))
    case AtIpLimit =>
      var (buckets, ok) := Rate.Consume(cfg.window, sh.buckets, Rate.Call(env.now, Gates.IpKey(rq.ip), cfg.perIp));
      (sh.(buckets := buckets), if ok then AtAuth else Done(Failed(429)))
    case AtAuth =>
      (sh, Authenticate(sh.tables.userKeys, rq, env.expired))
    case AtKeyLimit(key) =>
      var (buckets, ok) := Rate.Consume(cfg.window, sh.buckets,
                                        Rate.Call(env.now, Gates.UserKeyKey(key.id), KeyLimit(cfg, key)));
      (sh.(buckets := buckets), if ok then AtResolve(key) else Done(Failed(429)))
    case AtResolve(key) =>
      var route := Routing.RouteOf(rq.path);
      var p := if route.None? then None else FindProvider(sh.tables.providers, route.value.provider);
      (sh, if p.None? then Done(Failed(404))
           else if !p.value.status.Active? then Done(Failed(503))
           else AtListKeys(key, p.value.name))
    case AtListKeys(key, provider) =>
      var candidates := ActiveIds(KeysOf(sh.tables.providerKeys, provider));
      (sh, if candidates == [] then Done(Failed(503)) else AtBody(Job(key, provider, candidates, 0, None)))
    case AtBody(job) =>
      (sh, if env.bodyOk then AtSelect(job) else Done(Failed(400)))
  }

  /** Step 10: the failover loop and its accounting. */
  function AdvanceLoop(cfg: Config, sh: Shared, rq: Request, pc: Pc, env: Env): (Shared, Pc)
    requires InLoop(pc) && !pc.Done?
  {
    match pc
    case AtSelect(job) =>
      if job.attempted >= Budget(|job.candidates|) then (sh, AfterLoop(job))
      else
        var (lb, position) := Lb.Choose(cfg.mode, sh.lb, job.provider, job.candidates);
        var job' := job.(attempted := job.attempted + 1);
        (sh.(lb := lb), if position.None? then AfterLoop(job') else AtSend(job', job.candidates[position.value]))
    case AtSend(job, keyId) =>
      (sh, match env.outcome
           case NetworkError => AtMarkFailure(job, keyId)
           case Response(status) =>
             if Retriable(status) then AtMarkFailure(job.(last := Some(status)), keyId)
             else AtMarkUse(job, keyId, status))
    case AtMarkFailure(job, keyId) =>
      (sh.(tables := sh.tables.(providerKeys := FailureCounted(sh.tables.providerKeys, keyId))), AtFailLog(job))
    case AtFailLog(job) =>
      (sh.(tables := Logged(sh.tables, RequestFail, rq.ip, Some(job.key.userId))), AtSelect(job))
    case AtMarkUse(job, keyId, status) =>
      (sh.(tables := sh.tables.(userKeys := UseCounted(sh.tables.userKeys, job.key.id))),
       if Success(status) then AtMarkSuccess(job, keyId, status) else AtLog(job, status))
    case AtMarkSuccess(job, keyId, status) =>
      (sh.(tables := sh.tables.(providerKeys := SuccessCounted(sh.tables.providerKeys, keyId))), AtLog(job, status))
    case AtLog(job, status) =>
      (sh.(tables := Logged(sh.tables, LogKind.Request, rq.ip, Some(job.key.userId))), Done(Answered(status)))
    case AtFallback(job, status) =>
      (sh.(tables := sh.tables.(userKeys := UseCounted(sh.tables.userKeys, job.key.id))), Done(Answered(status)))
  }

  /** Path, presence of a key, key row, status and expiry, in the code's order. */
  function Authenticate(userKeys: seq<UserKey>, rq: Request, expired: bool): Pc {
    if Routing.RouteOf(rq.path).None? then Done(Failed(400))
    else if rq.userKey.None? then Done(Failed(401))
    else
      var row := FindUserKey(userKeys, rq.userKey.value);
      if row.None? || !row.value.status.Active? || (row.value.expiresAt.Some? && expired) then Done(Failed(401))
      else AtKeyLimit(row.value)
  }

  // ---- a request with its history ----

  datatype Admission = Admission(id: string, at: nat)

  /** `offered`, `picks` and `sent` record the candidates listed, the keys tried and what each attempt met. */
  datatype Live = Live(rq: Request, pc: Pc, admitted: Option<Admission>, offered: nat, picks: seq<string>,
                       sent: seq<Outcome>)

  function Arrived(rq: Request): Live {
    Live(rq, AtBot, None, 0, [], [])
  }

  function Step(cfg: Config, sh: Shared, l: Live, env: Env): (Shared, Live)
    requires !l.pc.Done?
  {
    var (sh', pc') := Advance(cfg, sh, l.rq, l.pc, env);
    (sh', Live(l.rq, pc',
               if l.pc.AtKeyLimit? && pc'.AtResolve? then Some(Admission(l.pc.key.id, env.now)) else l.admitted,
               if l.pc.AtListKeys? && pc'.AtBody? then |pc'.job.candidates| else l.offered,
               if l.pc.AtSend? then l.picks + [l.pc.keyId] else l.picks,
               if l.pc.AtSend? then l.sent + [env.outcome] else l.sent))
  }

  // ---- what a request's history has to do with where it is ----

  predicate BeforeAdmission(pc: Pc) {
    pc.AtBot? || pc.AtBotLog? || pc.AtIpLimit? || pc.AtAuth? || pc.AtKeyLimit?
  }

  predicate HasKey(pc: Pc) {
    !BeforeAdmission(pc) && !pc.Done?
  }

  predicate HasJob(pc: Pc) {
    HasKey(pc) && !pc.AtResolve? && !pc.AtListKeys?
  }

  function KeyOf(pc: Pc): UserKey
    requires HasKey(pc)
  {
    if pc.AtResolve? || pc.AtListKeys? then pc.key else pc.job.key
  }

  /** At the top of the loop: as many attempts as outcomes, none of them final, the last response buffered. */
  predicate LoopFits(l: Live, job: Job) {
    && l.offered == |job.candidates| > 0
    && |l.sent| == |l.picks| == job.attempted <= Budget(l.offered)
    && NoFinal(l.sent)
    && job.last == LastResponse(l.sent)
  }

  predicate SendFits(l: Live, job: Job, keyId: string) {
    0 < job.attempted <= Budget(l.offered) && keyId in job.candidates
    && LoopFits(l, job.(attempted := job.attempted - 1))
  }

  predicate FailureFits(l: Live, job: Job, keyId: string) {
    LoopFits(l, job) && job.attempted > 0 && keyId == l.picks[|l.picks| - 1]
  }

  /** After a final outcome. */
  predicate FinalFits(l: Live, job: Job, status: nat) {
    && l.offered == |job.candidates|
    && |l.sent| == |l.picks| == job.attempted
    && Complete(l.sent, l.offered)
    && l.sent[|l.sent| - 1] == Response(status)
    && Final(l.sent[|l.sent| - 1])
  }

  predicate CreditFits(l: Live, job: Job, keyId: string, status: nat) {
    FinalFits(l, job, status) && keyId == l.picks[|l.picks| - 1]
  }

  predicate FallbackFits(l: Live, job: Job, status: nat) {
    LoopFits(l, job) && job.last == Some(status) && job.attempted == Budget(l.offered)
  }

  predicate DoneFits(l: Live, result: Reply) {
    && |l.picks| == |l.sent|
    && if l.sent == [] then result.Failed? else Complete(l.sent, l.offered) && result == AnswerTo(l.sent)
  }

  predicate PlaceFits(l: Live) {
    match l.pc
    case AtBody(job) => LoopFits(l, job) && job.attempted == 0
    case AtSelect(job) => LoopFits(l, job)
    case AtSend(job, keyId) => SendFits(l, job, keyId)
    case AtMarkFailure(job, keyId) => FailureFits(l, job, keyId)
    case AtFailLog(job) => LoopFits(l, job) && job.attempted > 0
    case AtMarkUse(job, keyId, status) => CreditFits(l, job, keyId, status)
    case AtMarkSuccess(job, keyId, status) => CreditFits(l, job, keyId, status) && Success(status)
    case AtLog(job, status) => FinalFits(l, job, status)
    case AtFallback(job, status) => FallbackFits(l, job, status)
    case Done(result) => DoneFits(l, result)
    case _ => l.sent == [] && l.picks == []
  }

  /** The admission on record is the one the request is being served under. */
  predicate AdmissionFits(l: Live) {
    && (l.sent == [] || l.admitted.Some?)
    && (HasKey(l.pc) ==> l.admitted.Some? && l.admitted.value.id == KeyOf(l.pc).id)
    && (BeforeAdmission(l.pc) ==> l.admitted.None?)
  }

  predicate Fits(l: Live) {
    AdmissionFits(l) && PlaceFits(l)
  }

  /** Selecting never finds nothing, so the loop is only left with its budget spent. */
  lemma SelectFits(cfg: Config, sh: Shared, l: Live, env: Env)
    requires l.pc.AtSelect? && PlaceFits(l)
    ensures PlaceFits(Step(cfg, sh, l, env).1)
  {
    var job, l' := l.pc.job, Step(cfg, sh, l, env).1;
    if job.attempted >= Budget(|job.candidates|) {
      ExhaustedCompletes(l.sent, l.offered);
      assert l'.pc == AfterLoop(job);
    } else {
      assert l'.pc.AtSend? && SendFits(l', l'.pc.job, l'.pc.keyId);
    }
  }

  /** Another failed attempt in the history, whatever the place it leads to. */
  lemma FailedAttemptFits(l: Live, job: Job, keyId: string, o: Outcome, l': Live)
    requires SendFits(l, job, keyId) && !Final(o)
    requires l'.offered == l.offered && l'.picks == l.picks + [keyId] && l'.sent == l.sent + [o]
    ensures FailureFits(l', if o.Response? then job.(last := Some(o.status)) else job, keyId)
  {
    LastResponseNext(l.sent, o);
    NoFinalNext(l.sent, o);
  }

  lemma FailedSendFits(cfg: Config, sh: Shared, l: Live, env: Env)
    requires l.pc.AtSend? && PlaceFits(l) && !Final(env.outcome)
    ensures PlaceFits(Step(cfg, sh, l, env).1)
  {
    FailedAttemptFits(l, l.pc.job, l.pc.keyId, env.outcome, Step(cfg, sh, l, env).1);
  }

  lemma FinalSendFits(cfg: Config, sh: Shared, l: Live, env: Env)
    requires l.pc.AtSend? && PlaceFits(l) && Final(env.outcome)
    ensures PlaceFits(Step(cfg, sh, l, env).1)
  {
    FinalCompletes(l.sent, env.outcome, l.offered);
    assert Step(cfg, sh, l, env).1.pc == AtMarkUse(l.pc.job, l.pc.keyId, env.outcome.status);
  }

  lemma GateFits(cfg: Config, sh: Shared, l: Live, env: Env)
    requires !InLoop(l.pc) && PlaceFits(l)
    ensures PlaceFits(Step(cfg, sh, l, env).1)
  {
  }

  /** The bookkeeping after an attempt, and after the loop. */
  lemma BookFits(cfg: Config, sh: Shared, l: Live, env: Env)
    requires InLoop(l.pc) && !l.pc.Done? && !l.pc.AtSelect? && !l.pc.AtSend? && PlaceFits(l)
    ensures PlaceFits(Step(cfg, sh, l, env).1)
  {
    if l.pc.AtFallback? {
      ExhaustedCompletes(l.sent, l.offered);
    }
  }

  lemma AdmissionStepFits(cfg: Config, sh: Shared, l: Live, env: Env)
    requires !l.pc.Done? && AdmissionFits(l)
    ensures AdmissionFits(Step(cfg, sh, l, env).1)
  {
  }

  /**
   Every step of a request, whatever the shared state, keeps its history and its place in
   step; so a finished request has answered its own attempts as the loop is supposed to.
   */
  lemma StepFits(cfg: Config, sh: Shared, l: Live, env: Env)
    requires !l.pc.Done? && Fits(l)
    ensures Fits(Step(cfg, sh, l, env).1)
  {
    AdmissionStepFits(cfg, sh, l, env);
    if !InLoop(l.pc) {
      GateFits(cfg, sh, l, env);
    } else if l.pc.AtSelect? {
      SelectFits(cfg, sh, l, env);
    } else if !l.pc.AtSend? {
      BookFits(cfg, sh, l, env);
    } else if Final(env.outcome) {
      FinalSendFits(cfg, sh, l, env);
    } else {
      FailedSendFits(cfg, sh, l, env);
    }
  }

  // ---- refusals, by their statuses ----

  /**
   The status of every refusal, by where it happens: 403 for a blocked IP, logged; 429 at either
   limit; 400 for a path of slashes alone and 401 for anything else authentication refuses; 404
   for an unknown provider and 503 for an inactive one or one without active keys; 400 for an
   unreadable body; 502 when no attempt met a response.  Nothing else refuses.
   */
  lemma RefusalsInFigures(cfg: Config, sh: Shared, rq: Request, pc: Pc, env: Env, code: nat)
    requires !pc.Done? && Advance(cfg, sh, rq, pc, env).1 == Done(Failed(code))
    ensures
      match pc
      case AtBotLog =>
        && code == 403
        && Advance(cfg, sh, rq, pc, env).0.tables
           == sh.tables.(logs := sh.tables.logs + [LogEntry(BotBlock, Some(rq.ip), None)])
      case AtIpLimit => code == 429
      case AtKeyLimit(_) => code == 429
      case AtAuth => code == if forall c :: c in rq.path ==> c == '/' then 400 else 401
      case AtResolve(_) => code == (if ProviderAsked(sh.tables, rq).None? then 404 else 503)
      case AtListKeys(_, _) => code == 503
      case AtBody(_) => code == 400
      case AtSelect(_) => code == 502
      case _ => false
  {
    Routing.NoRouteIff(rq.path);
  }

  /** The row of the provider that the path names. */
  function ProviderAsked(t: Tables, rq: Request): Option<Provider> {
    var route := Routing.RouteOf(rq.path);
    if route.None? then None else FindProvider(t.providers, route.value.provider)
  }

  /**
   Authentication lets a request through iff its path names something and it presents the value
   of an active key that has no expiry date or has not reached it; it goes on under that key.
   */
  lemma AuthenticationIff(userKeys: seq<UserKey>, rq: Request, expired: bool)
    requires forall i, j :: 0 <= i < j < |userKeys| ==> userKeys[i].key != userKeys[j].key
    ensures
      var pc := Authenticate(userKeys, rq, expired);
      if pc.AtKeyLimit? then
        && !(forall c :: c in rq.path ==> c == '/')
        && pc.key in userKeys && rq.userKey == Some(pc.key.key)
        && pc.key.status.Active? && (pc.key.expiresAt.None? || !expired)
      else
        || (forall c :: c in rq.path ==> c == '/')
        || forall k :: k in userKeys && rq.userKey == Some(k.key) ==>
             !k.status.Active? || (k.expiresAt.Some? && expired)
  {
    Routing.NoRouteIff(rq.path);
    if rq.userKey.Some? {
      var row := FindUserKey(userKeys, rq.userKey.value);
      forall k | k in userKeys && rq.userKey == Some(k.key) ensures row == Some(k) {
        var i :| 0 <= i < |userKeys| && userKeys[i] == k;
        var j :| 0 <= j < |userKeys| && userKeys[j] == row.value;
      }
    }
  }
}
