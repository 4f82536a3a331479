/**
 The first two gates in concurrent runs.  A request that has passed the bot check waits, for
 any length of time, before it reaches the per-IP limit; how large that limit must be for it
 never to refuse a watched IP depends on how many of the IP's requests wait at once.
 */
module GateRuns {
  import opened Common
  import opened Arithmetic
  import opened Failover
  import opened Proxy
  import opened Store
  import opened Concurrency
  import Bot = BotProtection
  import Rate = RateLimiting
  import Lb = LoadBalancing
  import Gates

  predicate Waits(l: Live, ip: string) {
    l.pc.AtIpLimit? && l.rq.ip == ip
  }

  function WaitsFor(ip: string): Live -> nat {
    (l: Live) => if Waits(l, ip) then 1 else 0
  }

  /** How many requests of the IP are between the two gates. */
  function Waiting(w: World, ip: string): nat {
    Sum(w.lives, WaitsFor(ip))
  }

  /** Event `n` is the per-IP limit refusing a request of the IP. */
  predicate Limited(ws: seq<World>, events: seq<Event>, ip: string, n: nat)
    requires n < |events| && |ws| == |events| + 1
  {
    && events[n].Run? && events[n].i < |ws[n].lives| && events[n].i < |ws[n + 1].lives|
    && Waits(ws[n].lives[events[n].i], ip) && ws[n + 1].lives[events[n].i].pc.Done?
  }

  /** A run in which never more than `m` requests of the IP wait between the gates. */
  predicate RunWithin(cfg: Config, ws: seq<World>, events: seq<Event>, ip: string, m: nat) {
    IsRun(cfg, ws, events) && forall n :: 0 <= n < |ws| ==> Waiting(ws[n], ip) <= m
  }

  predicate NeverLimited(ws: seq<World>, events: seq<Event>, ip: string)
    requires |ws| == |events| + 1
  {
    forall n :: 0 <= n < |events| ==> !Limited(ws, events, ip, n)
  }

  ghost predicate Dominates(cfg: Config, ip: string, m: nat) {
    forall ws: seq<World>, events: seq<Event> :: RunWithin(cfg, ws, events, ip, m) ==> NeverLimited(ws, events, ip)
  }

  /** The bot windows that can begin while a bucket's window lasts. */
  function WindowsPerBucket(cfg: Config): nat {
    CeilDiv(cfg.window, Bot.WINDOW)
  }

  function Needed(cfg: Config, m: nat): int {
    cfg.bot.maxAttempts * (WindowsPerBucket(cfg) + 1) + m - 1
  }

  // ---- one IP at both gates ----

  function PairNext(cfg: Config, p: Gates.Pair, l: Live, env: Env): Gates.Pair {
    match l.pc
    case AtBot => p.(bot := Bot.IpStep(cfg.bot, p.bot, env.now).0)
    case AtIpLimit => p.(slot := Rate.SlotStep(cfg.window, p.slot, env.now, cfg.perIp).0)
    case _ => p
  }

  /** The IP's own bot state and bucket, never swept, after `n` events. */
  function PairAfter(cfg: Config, ws: seq<World>, events: seq<Event>, ip: string, n: nat): Gates.Pair
    requires |ws| == |events| + 1 && n <= |events|
  {
    if n == 0 then Gates.Pair(Bot.IpState(None, None), None)
    else
      var p, w, e := PairAfter(cfg, ws, events, ip, n - 1), ws[n - 1], events[n - 1];
      if e.Run? && e.i < |w.lives| && w.lives[e.i].rq.ip == ip then PairNext(cfg, p, w.lives[e.i], e.env) else p
  }

  predicate StandsFor(cfg: Config, sh: Shared, ip: string, p: Gates.Pair, now: nat) {
    && Bot.StandsFor(Bot.View(sh.bot, ip), p.bot, now)
    && Rate.StandsFor(cfg.window, Lookup(sh.buckets, Gates.IpKey(ip)), p.slot, now)
  }

  /** A step's effect on the two gates' state. */
  lemma GateStep(cfg: Config, sh: Shared, l: Live, env: Env)
    requires !l.pc.Done?
    ensures
      var (sh', l') := Step(cfg, sh, l, env);
      match l.pc
      case AtBot =>
        var (bot, d) := Bot.CheckStep(cfg.bot, sh.bot, Bot.Visit(env.now, l.rq.ip));
        sh'.bot == bot && sh'.buckets == sh.buckets && l'.pc == if d.Blocked? then AtBotLog else AtIpLimit
      case AtIpLimit =>
        var (buckets, ok) := Rate.Consume(cfg.window, sh.buckets,
                                          Rate.Call(env.now, Gates.IpKey(l.rq.ip), cfg.perIp));
        sh'.bot == sh.bot && sh'.buckets == buckets && l'.pc == if ok then AtAuth else Done(Failed(429))
      case AtKeyLimit(key) =>
        && sh'.bot == sh.bot && !l'.pc.AtIpLimit?
        && sh'.buckets == Rate.Consume(cfg.window, sh.buckets,
                                       Rate.Call(env.now, Gates.UserKeyKey(key.id), KeyLimit(cfg, key))).0
      case _ => sh'.bot == sh.bot && sh'.buckets == sh.buckets && !l'.pc.AtIpLimit?
  {
  }

  lemma StepSimulates(cfg: Config, sh: Shared, l: Live, env: Env, ip: string, p: Gates.Pair, last: nat)
    requires !l.pc.Done? && StandsFor(cfg, sh, ip, p, last) && last <= env.now && Bot.Watched(cfg.bot, ip)
    ensures StandsFor(cfg, Step(cfg, sh, l, env).0, ip, if l.rq.ip == ip then PairNext(cfg, p, l, env) else p, env.now)
  {
    GateStep(cfg, sh, l, env);
    match l.pc
    case AtBot => Bot.CheckSimulates(cfg.bot, sh.bot, Bot.Visit(env.now, l.rq.ip), ip, p.bot, last);
    case AtIpLimit =>
      Gates.LimiterKeysDistinct(l.rq.ip, ip);
      var c := Rate.Call(env.now, Gates.IpKey(l.rq.ip), cfg.perIp);
      Rate.ConsumeSimulates(cfg.window, sh.buckets, c, Gates.IpKey(ip), p.slot, last);
    case AtKeyLimit(key) =>
      Gates.LimiterKeysDistinct(ip, key.id);
      var c := Rate.Call(env.now, Gates.UserKeyKey(key.id), KeyLimit(cfg, key));
      Rate.ConsumeSimulates(cfg.window, sh.buckets, c, Gates.IpKey(ip), p.slot, last);
    case _ =>
  }

  /** What the IP's two answers make of a waiting or arriving request. */
  lemma AnswersAsPair(cfg: Config, sh: Shared, l: Live, env: Env, p: Gates.Pair, last: nat)
    requires StandsFor(cfg, sh, l.rq.ip, p, last) && last <= env.now && Bot.Watched(cfg.bot, l.rq.ip)
    ensures l.pc.AtBot? ==>
      (Step(cfg, sh, l, env).1.pc.AtIpLimit? <==> Bot.IpStep(cfg.bot, p.bot, env.now).1.Allow?)
    ensures l.pc.AtIpLimit? ==>
      (Step(cfg, sh, l, env).1.pc.Done? <==> !Rate.SlotStep(cfg.window, p.slot, env.now, cfg.perIp).1)
  {
    if l.pc.AtBot? {
      GateStep(cfg, sh, l, env);
      Bot.CheckSimulates(cfg.bot, sh.bot, Bot.Visit(env.now, l.rq.ip), l.rq.ip, p.bot, last);
    } else if l.pc.AtIpLimit? {
      GateStep(cfg, sh, l, env);
      var c := Rate.Call(env.now, Gates.IpKey(l.rq.ip), cfg.perIp);
      Rate.ConsumeSimulates(cfg.window, sh.buckets, c, Gates.IpKey(l.rq.ip), p.slot, last);
    }
  }

  // ---- the coupling ----

  /** The quotas of the bot windows that have come and gone since `since`, if one begins at `start`. */
  function Quotas(cfg: Config, since: nat, start: nat): nat {
    cfg.bot.maxAttempts * (Elapsed(start, since) / Bot.WINDOW)
  }

  lemma NextQuota(cfg: Config, since: nat, start: nat, start': nat)
    requires since <= start && start + Bot.WINDOW <= start'
    ensures Quotas(cfg, since, start) + cfg.bot.maxAttempts <= Quotas(cfg, since, start')
  {
    var d, d' := start - since, start' - since;
    DivMonotone(d + Bot.WINDOW, d', Bot.WINDOW);
    MulLe(cfg.bot.maxAttempts, d / Bot.WINDOW + 1, d' / Bot.WINDOW);
  }

  lemma AllQuotas(cfg: Config, since: nat, start: nat)
    requires cfg.window > 0 && Elapsed(start, since) < cfg.window
    ensures Quotas(cfg, since, start) + cfg.bot.maxAttempts <= cfg.bot.maxAttempts * WindowsPerBucket(cfg)
  {
    DivMonotone(Elapsed(start, since) + Bot.WINDOW, cfg.window + Bot.WINDOW - 1, Bot.WINDOW);
    MulLe(cfg.bot.maxAttempts, Elapsed(start, since) / Bot.WINDOW + 1, WindowsPerBucket(cfg));
  }

  /**
   While the bucket's window lasts, what it holds and what waits for it came through the bot
   check: at most `m` were waiting when it was opened, the rest of the quota of the bot window
   then running came after, and then one quota for each bot window that has begun since.
   */
  predicate Coupled(cfg: Config, p: Gates.Pair, waiting: nat, m: nat, now: nat) {
    && (waiting > 0 || p.slot.Some? ==> p.bot.hit.Some?)
    && (p.bot.hit.Some? ==> p.bot.hit.value.count >= 1 && p.bot.hit.value.start <= now)
    && (p.slot.Some? && Elapsed(now, p.slot.value.windowStart) < cfg.window ==>
          var h, b := p.bot.hit.value, p.slot.value;
          var counted := Min(h.count, cfg.bot.maxAttempts);
          && b.windowStart <= now
          && b.count + waiting <= counted + m - 1 +
               (if h.start < b.windowStart then 0
                else cfg.bot.maxAttempts + Quotas(cfg, b.windowStart, h.start)))
  }

  lemma BotCoupled(cfg: Config, p: Gates.Pair, waiting: nat, m: nat, last: nat, now: nat)
    requires WellFormed(cfg) && last <= now && Coupled(cfg, p, waiting, m, last)
    ensures
      var (bot, d) := Bot.IpStep(cfg.bot, p.bot, now);
      Coupled(cfg, p.(bot := bot), if d.Allow? then waiting + 1 else waiting, m, now)
  {
    if p.slot.Some? {
      var s, start := p.slot.value.windowStart, p.bot.hit.value.start;
      if s <= start && start + Bot.WINDOW <= now {
        NextQuota(cfg, s, start, now);
      }
    }
  }

  lemma LimitCoupled(cfg: Config, p: Gates.Pair, waiting: nat, m: nat, last: nat, now: nat)
    requires WellFormed(cfg) && Needed(cfg, m) <= cfg.perIp && 0 < waiting <= m && last <= now
    requires Coupled(cfg, p, waiting, m, last)
    ensures
      var (slot, ok) := Rate.SlotStep(cfg.window, p.slot, now, cfg.perIp);
      ok && Coupled(cfg, p.(slot := slot), waiting - 1, m, now)
  {
    var max, k := cfg.bot.maxAttempts, WindowsPerBucket(cfg);
    assert max * (k + 1) == max * k + max;
    MulLe(max, 0, k);
    if p.slot.Some? && Elapsed(now, p.slot.value.windowStart) < cfg.window {
      AllQuotas(cfg, p.slot.value.windowStart, p.bot.hit.value.start);
    }
  }

  lemma CoupledLater(cfg: Config, p: Gates.Pair, waiting: nat, m: nat, last: nat, now: nat)
    requires Coupled(cfg, p, waiting, m, last) && last <= now
    ensures Coupled(cfg, p, waiting, m, now)
  {
  }

  predicate InStep(cfg: Config, w: World, ip: string, p: Gates.Pair, m: nat) {
    StandsFor(cfg, w.sh, ip, p, w.clock) && Coupled(cfg, p, Waiting(w, ip), m, w.clock)
  }

  /** One step of a request, of this IP or another. */
  lemma StepInStep(cfg: Config, w: World, i: nat, env: Env, ip: string, p: Gates.Pair, m: nat)
    requires WellFormed(cfg) && Bot.Watched(cfg.bot, ip) && Needed(cfg, m) <= cfg.perIp
    requires Allowed(w, Run(i, env)) && InStep(cfg, w, ip, p, m) && Waiting(w, ip) <= m
    ensures
      var l := w.lives[i];
      && InStep(cfg, Next(cfg, w, Run(i, env)), ip, if l.rq.ip == ip then PairNext(cfg, p, l, env) else p, m)
      && (Waits(l, ip) ==> !Step(cfg, w.sh, l, env).1.pc.Done?)
  {
    var l, l' := w.lives[i], Step(cfg, w.sh, w.lives[i], env).1;
    var waiting := Waiting(w, ip);
    SumUpdate(w.lives, i, l', WaitsFor(ip));
    StepSimulates(cfg, w.sh, l, env, ip, p, w.clock);
    GateStep(cfg, w.sh, l, env);
    if l.rq.ip == ip && (l.pc.AtBot? || l.pc.AtIpLimit?) {
      AnswersAsPair(cfg, w.sh, l, env, p, w.clock);
      if l.pc.AtBot? {
        BotCoupled(cfg, p, waiting, m, w.clock, env.now);
      } else {
        LimitCoupled(cfg, p, waiting, m, w.clock, env.now);
      }
    } else {
      CoupledLater(cfg, p, waiting, m, w.clock, env.now);
    }
  }

  lemma {:induction false} RunInStep(cfg: Config, ws: seq<World>, events: seq<Event>, ip: string, m: nat, n: nat)
    requires WellFormed(cfg) && Bot.Watched(cfg.bot, ip) && Needed(cfg, m) <= cfg.perIp
    requires RunWithin(cfg, ws, events, ip, m) && n <= |events|
    ensures InStep(cfg, ws[n], ip, PairAfter(cfg, ws, events, ip, n), m)
    decreases n
  {
    if n > 0 {
      RunInStep(cfg, ws, events, ip, m, n - 1);
      assert Follows(cfg, ws, events, n - 1);
      var w := ws[n - 1];
      match events[n - 1]
      case Arrive(rq) => SumAppend(w.lives, Arrived(rq), WaitsFor(ip));
      case Run(i, env) => StepInStep(cfg, w, i, env, ip, PairAfter(cfg, ws, events, ip, n - 1), m);
      case Perform(_) =>
    }
  }

  lemma DominatesIfNeeded(cfg: Config, ip: string, m: nat)
    requires WellFormed(cfg) && Bot.Watched(cfg.bot, ip) && Needed(cfg, m) <= cfg.perIp
    ensures Dominates(cfg, ip, m)
  {
    forall ws: seq<World>, events: seq<Event>, n: nat | RunWithin(cfg, ws, events, ip, m) && n < |events|
      ensures !Limited(ws, events, ip, n)
    {
      RunInStep(cfg, ws, events, ip, m, n);
      assert Follows(cfg, ws, events, n);
      if events[n].Run? {
        StepInStep(cfg, ws[n], events[n].i, events[n].env, ip, PairAfter(cfg, ws, events, ip, n), m);
      }
    }
  }

  // ---- a run that reaches a smaller limit ----

  function RequestFrom(ip: string): Request {
    Request.Request(ip, "", None)
  }

  function EnvNow(now: nat): Env {
    Env(now, false, true, NetworkError)
  }

  /** The IP's bot window, its bucket, how many of its requests wait, and the latest clock reading. */
  predicate At(w: World, ip: string, hit: Option<Bot.Hit>, slot: Option<Rate.Bucket>, waiting: nat, clock: nat) {
    && Bot.View(w.sh.bot, ip) == Bot.IpState(hit, None)
    && Lookup(w.sh.buckets, Gates.IpKey(ip)) == slot
    && Waiting(w, ip) == waiting && w.clock == clock
  }

  lemma StillRun(cfg: Config, ws: seq<World>, events: seq<Event>, w: World, e: Event)
    requires IsRun(cfg, ws, events) && Allowed(ws[|events|], e) && w == Next(cfg, ws[|events|], e)
    ensures IsRun(cfg, ws + [w], events + [e])
  {
    forall n | 0 <= n < |events| + 1 ensures Follows(cfg, ws + [w], events + [e], n) {
      if n < |events| {
        assert Follows(cfg, ws, events, n);
      }
    }
  }

  lemma Extended(cfg: Config, ws: seq<World>, events: seq<Event>, ip: string, m: nat, e: Event)
    returns (ws': seq<World>, events': seq<Event>)
    requires RunWithin(cfg, ws, events, ip, m) && Allowed(ws[|events|], e)
    requires Waiting(Next(cfg, ws[|events|], e), ip) <= m
    ensures ws' == ws + [Next(cfg, ws[|events|], e)] && events' == events + [e]
    ensures RunWithin(cfg, ws', events', ip, m)
  {
    ws', events' := ws + [Next(cfg, ws[|events|], e)], events + [e];
    StillRun(cfg, ws, events, Next(cfg, ws[|events|], e), e);
  }

  /** A request arrives. */
  lemma Appear(cfg: Config, ws: seq<World>, events: seq<Event>, ip: string, m: nat)
    returns (ws': seq<World>, events': seq<Event>)
    requires RunWithin(cfg, ws, events, ip, m)
    ensures RunWithin(cfg, ws', events', ip, m)
    ensures
      var w, w' := ws[|events|], ws'[|events'|];
      && w'.sh == w.sh && w'.clock == w.clock && w'.lives == w.lives + [Arrived(RequestFrom(ip))]
      && Waiting(w', ip) == Waiting(w, ip)
  {
    SumAppend(ws[|events|].lives, Arrived(RequestFrom(ip)), WaitsFor(ip));
    ws', events' := Extended(cfg, ws, events, ip, m, Arrive(RequestFrom(ip)));
  }

  /** What the bot check does to an IP within its quota. */
  lemma BotPasses(cfg: Config, sh: Shared, ip: string, hit: Option<Bot.Hit>, now: nat)
    requires Bot.Watched(cfg.bot, ip) && Bot.View(sh.bot, ip) == Bot.IpState(hit, None)
    requires Bot.Counted1(hit, now).count <= cfg.bot.maxAttempts
    ensures
      var (sh', l') := Step(cfg, sh, Arrived(RequestFrom(ip)), EnvNow(now));
      && Bot.View(sh'.bot, ip) == Bot.IpState(Some(Bot.Counted1(hit, now)), None)
      && sh'.buckets == sh.buckets && Waits(l', ip)
  {
    GateStep(cfg, sh, Arrived(RequestFrom(ip)), EnvNow(now));
    Bot.CheckOwn(cfg.bot, sh.bot, Bot.Visit(now, ip));
  }

  /** A request arrives and passes the bot check at `now`. */
  lemma Enter(cfg: Config, ws: seq<World>, events: seq<Event>, ip: string, m: nat,
              hit: Option<Bot.Hit>, slot: Option<Rate.Bucket>, waiting: nat, clock: nat, now: nat)
    returns (ws': seq<World>, events': seq<Event>)
    requires RunWithin(cfg, ws, events, ip, m) && Bot.Watched(cfg.bot, ip)
    requires At(ws[|events|], ip, hit, slot, waiting, clock) && clock <= now && waiting < m
    requires Bot.Counted1(hit, now).count <= cfg.bot.maxAttempts
    ensures RunWithin(cfg, ws', events', ip, m)
    ensures At(ws'[|events'|], ip, Some(Bot.Counted1(hit, now)), slot, waiting + 1, now)
    ensures
      var ls := ws[|events|].lives;
      && |ws'[|events'|].lives| == |ls| + 1 && ws'[|events'|].lives[..|ls|] == ls
      && Waits(ws'[|events'|].lives[|ls|], ip)
  {
    var ws1, events1 := Appear(cfg, ws, events, ip, m);
    var w1, i := ws1[|events1|], |ws[|events|].lives|;
    BotPasses(cfg, w1.sh, ip, hit, now);
    SumUpdate(w1.lives, i, Step(cfg, w1.sh, w1.lives[i], EnvNow(now)).1, WaitsFor(ip));
    ws', events' := Extended(cfg, ws1, events1, ip, m, Run(i, EnvNow(now)));
  }

  /** What the per-IP limit does to a waiting request. */
  lemma LimitAnswers(cfg: Config, sh: Shared, l: Live, ip: string, slot: Option<Rate.Bucket>, now: nat)
    requires cfg.window > 0 && Waits(l, ip) && Lookup(sh.buckets, Gates.IpKey(ip)) == slot
    ensures
      var (sh', l') := Step(cfg, sh, l, EnvNow(now));
      var (slot', ok) := Rate.SlotStep(cfg.window, slot, now, cfg.perIp);
      && sh'.bot == sh.bot && Lookup(sh'.buckets, Gates.IpKey(ip)) == slot'
      && l'.pc == if ok then AtAuth else Done(Failed(429))
  {
    GateStep(cfg, sh, l, EnvNow(now));
    Rate.ConsumeOwn(cfg.window, sh.buckets, Rate.Call(now, Gates.IpKey(ip), cfg.perIp));
  }

  /** Waiting request `i` comes to the per-IP limit at `now`. */
  lemma Reach(cfg: Config, ws: seq<World>, events: seq<Event>, ip: string, m: nat,
              hit: Option<Bot.Hit>, slot: Option<Rate.Bucket>, waiting: nat, clock: nat, i: nat, now: nat)
    returns (ws': seq<World>, events': seq<Event>)
    requires RunWithin(cfg, ws, events, ip, m) && cfg.window > 0
    requires At(ws[|events|], ip, hit, slot, waiting, clock) && clock <= now
    requires i < |ws[|events|].lives| && Waits(ws[|events|].lives[i], ip)
    ensures RunWithin(cfg, ws', events', ip, m) && waiting > 0
    ensures
      var (slot', ok) := Rate.SlotStep(cfg.window, slot, now, cfg.perIp);
      var ls, ls' := ws[|events|].lives, ws'[|events'|].lives;
      && At(ws'[|events'|], ip, hit, slot', waiting - 1, now)
      && |ls'| == |ls| && (forall j :: 0 <= j < |ls| && j != i ==> ls'[j] == ls[j])
      && (!ok ==> |events'| > 0 && Limited(ws', events', ip, |events'| - 1))
  {
    var w, e := ws[|events|], Run(i, EnvNow(now));
    LimitAnswers(cfg, w.sh, w.lives[i], ip, slot, now);
    SumUpdate(w.lives, i, Step(cfg, w.sh, w.lives[i], e.env).1, WaitsFor(ip));
    ws', events' := Extended(cfg, ws, events, ip, m, e);
  }

  const Start := World(Shared(Bot.Initial(0), map[], Lb.Empty, EmptyTables), {}, [], 0, [], [], {})

  /** `m` requests, each in a bot window of its own, all left waiting. */
  function GatheredAt(m: nat): nat {
    if m == 0 then 0 else (m - 1) * Bot.WINDOW
  }

  lemma {:induction false} Gather(cfg: Config, ip: string, m: nat, k: nat) returns (ws: seq<World>, events: seq<Event>)
    requires WellFormed(cfg) && Bot.Watched(cfg.bot, ip) && k <= m
    ensures RunWithin(cfg, ws, events, ip, m)
    ensures At(ws[|events|], ip, if k == 0 then None else Some(Bot.Hit(GatheredAt(k), 1)), None, k, GatheredAt(k))
    ensures
      var ls := ws[|events|].lives;
      |ls| == k && forall i :: 0 <= i < k ==> Waits(ls[i], ip)
  {
    if k == 0 {
      ws, events := [Start], [];
    } else {
      ws, events := Gather(cfg, ip, m, k - 1);
      var hit := if k == 1 then None else Some(Bot.Hit(GatheredAt(k - 1), 1));
      ws, events := Enter(cfg, ws, events, ip, m, hit, None, k - 1, GatheredAt(k - 1), GatheredAt(k));
    }
  }

  /** They reach the limit together, in the last nanosecond of the latest one's bot window. */
  function DrainedAt(m: nat): nat {
    GatheredAt(m) + Bot.WINDOW - 1
  }

  lemma {:induction false} Drain(cfg: Config, ip: string, m: nat, j: nat) returns (ws: seq<World>, events: seq<Event>)
    requires WellFormed(cfg) && Bot.Watched(cfg.bot, ip) && j <= m && j <= cfg.perIp && m >= 1
    ensures RunWithin(cfg, ws, events, ip, m)
    ensures At(ws[|events|], ip, Some(Bot.Hit(GatheredAt(m), 1)),
               if j == 0 then None else Some(Rate.Bucket(DrainedAt(m), j)),
               m - j, if j == 0 then GatheredAt(m) else DrainedAt(m))
    ensures
      var ls := ws[|events|].lives;
      |ls| == m && forall i :: j <= i < m ==> Waits(ls[i], ip)
  {
    if j == 0 {
      ws, events := Gather(cfg, ip, m, m);
    } else {
      ws, events := Drain(cfg, ip, m, j - 1);
      var slot := if j == 1 then None else Some(Rate.Bucket(DrainedAt(m), j - 1));
      ws, events := Reach(cfg, ws, events, ip, m, Some(Bot.Hit(GatheredAt(m), 1)), slot, m - j + 1,
                          if j == 1 then GatheredAt(m) else DrainedAt(m), j - 1, DrainedAt(m));
    }
  }

  /**
   Then, one at a time, the rest of that bot window's quota and, from a nanosecond later, the
   whole quota of each of the next ones, at the moment it can begin.
   */
  function Opened(cfg: Config, m: nat, r: nat): nat
    requires m + cfg.bot.maxAttempts <= r && cfg.bot.maxAttempts > 0
  {
    DrainedAt(m) + 1 + (r - m - cfg.bot.maxAttempts) / cfg.bot.maxAttempts * Bot.WINDOW
  }

  function HitAt(cfg: Config, m: nat, r: nat): Bot.Hit
    requires m <= r && cfg.bot.maxAttempts > 0
  {
    if r < m + cfg.bot.maxAttempts then Bot.Hit(GatheredAt(m), r - m + 1)
    else Bot.Hit(Opened(cfg, m, r), (r - m - cfg.bot.maxAttempts) % cfg.bot.maxAttempts + 1)
  }

  function SerialAt(cfg: Config, m: nat, r: nat): nat
    requires m <= r && cfg.bot.maxAttempts > 0
  {
    if r < m + cfg.bot.maxAttempts then DrainedAt(m) else Opened(cfg, m, r)
  }

  lemma NextHit(cfg: Config, m: nat, r: nat)
    requires 1 <= m <= r && cfg.bot.maxAttempts > 0
    ensures SerialAt(cfg, m, r) <= SerialAt(cfg, m, r + 1)
    ensures Bot.Counted1(Some(HitAt(cfg, m, r)), SerialAt(cfg, m, r + 1)) == HitAt(cfg, m, r + 1)
    ensures HitAt(cfg, m, r + 1).count <= cfg.bot.maxAttempts
  {
    var max := cfg.bot.maxAttempts;
    if r >= m + max {
      DivSucc(r - m - max, max);
    } else if r + 1 == m + max {
      DivUnique(0, max, 0, 0);
    }
  }

  /** All of it falls within the bucket's window. */
  lemma StillOpen(cfg: Config, m: nat, r: nat)
    requires WellFormed(cfg) && m <= r <= Needed(cfg, m)
    ensures DrainedAt(m) <= SerialAt(cfg, m, r) && Elapsed(SerialAt(cfg, m, r), DrainedAt(m)) < cfg.window
  {
    var max, k := cfg.bot.maxAttempts, WindowsPerBucket(cfg);
    if r >= m + max {
      var x := r - m - max;
      assert max * (k + 1) == max * k + max;
      assert max * (x / max) + x % max == x;
      MulCancel(max, x / max + 1, k, max - 1);
      assert cfg.window == SECOND * (cfg.window / SECOND);
    }
  }

  lemma {:induction false} Serial(cfg: Config, ip: string, m: nat, r: nat) returns (ws: seq<World>, events: seq<Event>)
    requires WellFormed(cfg) && Bot.Watched(cfg.bot, ip) && 1 <= m <= r <= cfg.perIp && r <= Needed(cfg, m)
    ensures RunWithin(cfg, ws, events, ip, m)
    ensures At(ws[|events|], ip, Some(HitAt(cfg, m, r)), Some(Rate.Bucket(DrainedAt(m), r)), 0, SerialAt(cfg, m, r))
    decreases r
  {
    if r == m {
      ws, events := Drain(cfg, ip, m, m);
    } else {
      ws, events := Serial(cfg, ip, m, r - 1);
      ws, events := OneByOne(cfg, ws, events, ip, m, r - 1);
    }
  }

  /** One more request passes the bot check and reaches the limit at once. */
  lemma OneByOne(cfg: Config, ws: seq<World>, events: seq<Event>, ip: string, m: nat, r: nat)
    returns (ws': seq<World>, events': seq<Event>)
    requires WellFormed(cfg) && Bot.Watched(cfg.bot, ip) && 1 <= m <= r <= cfg.perIp && r < Needed(cfg, m)
    requires RunWithin(cfg, ws, events, ip, m)
    requires At(ws[|events|], ip, Some(HitAt(cfg, m, r)), Some(Rate.Bucket(DrainedAt(m), r)), 0, SerialAt(cfg, m, r))
    ensures RunWithin(cfg, ws', events', ip, m)
    ensures r < cfg.perIp ==>
      At(ws'[|events'|], ip, Some(HitAt(cfg, m, r + 1)), Some(Rate.Bucket(DrainedAt(m), r + 1)), 0,
         SerialAt(cfg, m, r + 1))
    ensures r == cfg.perIp ==> !NeverLimited(ws', events', ip)
  {
    var i, now, slot := |ws[|events|].lives|, SerialAt(cfg, m, r + 1), Some(Rate.Bucket(DrainedAt(m), r));
    NextHit(cfg, m, r);
    StillOpen(cfg, m, r + 1);
    ws', events' := Enter(cfg, ws, events, ip, m, Some(HitAt(cfg, m, r)), slot, 0, SerialAt(cfg, m, r), now);
    ws', events' := Reach(cfg, ws', events', ip, m, Some(HitAt(cfg, m, r + 1)), slot, 1, now, i, now);
  }

  lemma SurgeIsLimited(cfg: Config, ip: string, m: nat) returns (ws: seq<World>, events: seq<Event>)
    requires WellFormed(cfg) && Bot.Watched(cfg.bot, ip) && m >= 1 && cfg.perIp < Needed(cfg, m)
    ensures RunWithin(cfg, ws, events, ip, m) && !NeverLimited(ws, events, ip)
  {
    if cfg.perIp < m {
      ws, events := Drain(cfg, ip, m, cfg.perIp);
      ws, events := Reach(cfg, ws, events, ip, m, Some(Bot.Hit(GatheredAt(m), 1)),
                          Some(Rate.Bucket(DrainedAt(m), cfg.perIp)), m - cfg.perIp, DrainedAt(m),
                          cfg.perIp, DrainedAt(m));
    } else {
      ws, events := Serial(cfg, ip, m, cfg.perIp);
      ws, events := OneByOne(cfg, ws, events, ip, m, cfg.perIp);
    }
  }

  /**
   Over all concurrent runs in which at most `m` requests of a watched IP are between the gates
   at once, the per-IP limit never refuses one of them iff it is at least the bot quota times
   one more than the bot windows in a rate window, plus `m - 1`; with the shipped windows,
   twice the quota plus `m - 1`.  So no fixed limit is out of reach of enough waiting requests.
   */
  lemma ConcurrentDominationIff(cfg: Config, ip: string, m: nat)
    requires WellFormed(cfg) && Bot.Watched(cfg.bot, ip) && m >= 1
    ensures Dominates(cfg, ip, m)
       <==> cfg.bot.maxAttempts * (CeilDiv(cfg.window, Bot.WINDOW) + 1) + m - 1 <= cfg.perIp
  {
    if Needed(cfg, m) <= cfg.perIp {
      DominatesIfNeeded(cfg, ip, m);
    } else {
      var ws, events := SurgeIsLimited(cfg, ip, m);
      assert RunWithin(cfg, ws, events, ip, m) && !NeverLimited(ws, events, ip);
    }
  }

  /** Requests one at a time, with the shipped rate window: twice the bot quota. */
  lemma SerialDominationIff(cfg: Config, ip: string)
    requires WellFormed(cfg) && Bot.Watched(cfg.bot, ip) && cfg.window == Bot.WINDOW
    ensures Dominates(cfg, ip, 1) <==> 2 * cfg.bot.maxAttempts <= cfg.perIp
  {
    CeilDivMultiple(Bot.WINDOW, 1);
    ConcurrentDominationIff(cfg, ip, 1);
  }

  /**
   The shipped 100 attempts and 120 requests per IP a minute: the limit is out of reach if both
   gates see one clock reading, and within reach in the pipeline, waiting or not.
   */
  lemma ShippedSettings(ip: string, perKey: nat, m: nat)
    requires m >= 1
    ensures
      var cfg := FromSettings(Bot.FromSettings(true, 100, 60, [], []), false, 60, 120, perKey);
      Gates.Dominates(cfg.bot, cfg.perIp) && !Dominates(cfg, ip, m)
  {
    var cfg := FromSettings(Bot.FromSettings(true, 100, 60, [], []), false, 60, 120, perKey);
    Gates.SingleReadingDominationIff(cfg.bot, cfg.perIp, ip);
    CeilDivMultiple(Bot.WINDOW, 1);
    ConcurrentDominationIff(cfg, ip, m);
  }
}
