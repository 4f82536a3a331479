/**
 The first two gates of the request pipeline in a row: bot protection, then the per-IP
 rate limit (rust-core/src/proxy.rs, steps 1 and 2), with per-key traffic going through
 the same limiter.  The question is whether the per-IP limit can ever be the gate that
 turns a watched IP away; here it is answered for requests that pass both gates in one
 moment, in `GateRuns` for the pipeline, which reads the clock at each.
 */
module Gates {
  import opened Common
  import Bot = BotProtection
  import Rate = RateLimiting

  function IpKey(ip: string): string { "ip:" + ip }

  function UserKeyKey(id: string): string { "key:" + id }

  /** The two families of limiter keys never meet, and neither merges two IPs or two ids. */
  lemma LimiterKeysDistinct(a: string, b: string)
    ensures IpKey(a) != UserKeyKey(b)
    ensures IpKey(a) == IpKey(b) ==> a == b
    ensures UserKeyKey(a) == UserKeyKey(b) ==> a == b
  {
    assert IpKey(a)[0] == 'i' && UserKeyKey(b)[0] == 'k';
    assert IpKey(a)[3..] == a && IpKey(b)[3..] == b;
    assert UserKeyKey(a)[4..] == a && UserKeyKey(b)[4..] == b;
  }

  datatype Event =
    | Arrival(ip: string, at: nat)
    | KeyUse(id: string, at: nat, limit: nat)

  datatype Outcome = Refused | Limited | Passed

  datatype World = World(bot: Bot.State, buckets: Rate.Buckets)

  function Step(cfg: Bot.Config, perIp: nat, w: World, e: Event): (World, Outcome) {
    match e
    case Arrival(ip, at) =>
      var (bot, d) := Bot.CheckStep(cfg, w.bot, Bot.Visit(at, ip));
      if d.Blocked? then (World(bot, w.buckets), Refused)
      else
        var (buckets, ok) := Rate.Consume(Bot.WINDOW, w.buckets, Rate.Call(at, IpKey(ip), perIp));
        (World(bot, buckets), if ok then Passed else Limited)
    case KeyUse(id, at, limit) =>
      var (buckets, ok) := Rate.Consume(Bot.WINDOW, w.buckets, Rate.Call(at, UserKeyKey(id), limit));
      (World(w.bot, buckets), if ok then Passed else Limited)
  }

  function After(cfg: Bot.Config, perIp: nat, created: nat, es: seq<Event>, n: nat): World
    requires n <= |es|
  {
    if n == 0 then World(Bot.Initial(created), map[])
    else Step(cfg, perIp, After(cfg, perIp, created, es, n - 1), es[n - 1]).0
  }

  function OutcomeAt(cfg: Bot.Config, perIp: nat, created: nat, es: seq<Event>, i: nat): Outcome
    requires i < |es|
  {
    Step(cfg, perIp, After(cfg, perIp, created, es, i), es[i]).1
  }

  predicate InOrder(es: seq<Event>) {
    forall i :: 0 < i < |es| ==> es[i - 1].at <= es[i].at
  }

  function LastTime(es: seq<Event>, n: nat): nat
    requires n <= |es|
  {
    if n == 0 then 0 else es[n - 1].at
  }

  // ---- one IP at both gates ----

  datatype Pair = Pair(bot: Bot.IpState, slot: Option<Rate.Bucket>)

  function PairStep(cfg: Bot.Config, perIp: nat, p: Pair, at: nat): (Pair, Outcome) {
    var (bot, d) := Bot.IpStep(cfg, p.bot, at);
    if d.Blocked? then (Pair(bot, p.slot), Refused)
    else
      var (slot, ok) := Rate.SlotStep(Bot.WINDOW, p.slot, at, perIp);
      (Pair(bot, slot), if ok then Passed else Limited)
  }

  function PairAfter(cfg: Bot.Config, perIp: nat, es: seq<Event>, ip: string, n: nat): Pair
    requires n <= |es|
  {
    if n == 0 then Pair(Bot.IpState(None, None), None)
    else
      var p := PairAfter(cfg, perIp, es, ip, n - 1);
      if es[n - 1].Arrival? && es[n - 1].ip == ip then PairStep(cfg, perIp, p, es[n - 1].at).0 else p
  }

  predicate StandsFor(w: World, ip: string, p: Pair, now: nat) {
    && Bot.StandsFor(Bot.View(w.bot, ip), p.bot, now)
    && Rate.StandsFor(Bot.WINDOW, Lookup(w.buckets, IpKey(ip)), p.slot, now)
  }

  lemma StepSimulates(cfg: Bot.Config, perIp: nat, w: World, e: Event, ip: string, p: Pair, last: nat)
    requires StandsFor(w, ip, p, last) && last <= e.at && Bot.Watched(cfg, ip)
    ensures
      var (w', out) := Step(cfg, perIp, w, e);
      if e.Arrival? && e.ip == ip then
        var (p', out') := PairStep(cfg, perIp, p, e.at);
        out == out' && StandsFor(w', ip, p', e.at)
      else
        StandsFor(w', ip, p, e.at)
  {
    match e
    case Arrival(ip', at) =>
      LimiterKeysDistinct(ip', ip);
      Bot.CheckSimulates(cfg, w.bot, Bot.Visit(at, ip'), ip, p.bot, last);
      Rate.ConsumeSimulates(Bot.WINDOW, w.buckets, Rate.Call(at, IpKey(ip'), perIp), IpKey(ip), p.slot, last);
    case KeyUse(id, at, limit) =>
      LimiterKeysDistinct(ip, id);
      Rate.ConsumeSimulates(Bot.WINDOW, w.buckets, Rate.Call(at, UserKeyKey(id), limit), IpKey(ip), p.slot, last);
  }

  lemma {:induction false} PairStandsFor(cfg: Bot.Config, perIp: nat, created: nat, es: seq<Event>, ip: string, n: nat)
    requires InOrder(es) && n <= |es| && Bot.Watched(cfg, ip)
    ensures StandsFor(After(cfg, perIp, created, es, n), ip, PairAfter(cfg, perIp, es, ip, n), LastTime(es, n))
    decreases n
  {
    if n > 0 {
      PairStandsFor(cfg, perIp, created, es, ip, n - 1);
      StepSimulates(cfg, perIp, After(cfg, perIp, created, es, n - 1), es[n - 1], ip,
                    PairAfter(cfg, perIp, es, ip, n - 1), LastTime(es, n - 1));
    }
  }

  lemma OutcomeAsPair(cfg: Bot.Config, perIp: nat, created: nat, es: seq<Event>, i: nat)
    requires InOrder(es) && i < |es| && es[i].Arrival? && Bot.Watched(cfg, es[i].ip)
    ensures OutcomeAt(cfg, perIp, created, es, i)
         == PairStep(cfg, perIp, PairAfter(cfg, perIp, es, es[i].ip, i), es[i].at).1
  {
    PairStandsFor(cfg, perIp, created, es, es[i].ip, i);
    StepSimulates(cfg, perIp, After(cfg, perIp, created, es, i), es[i], es[i].ip,
                  PairAfter(cfg, perIp, es, es[i].ip, i), LastTime(es, i));
  }

  // ---- domination, and exactly when ----

  /** The bot window and the IP's bucket are one window, through blocks, unblocks and sweeps. */
  predicate Coupled(cfg: Bot.Config, p: Pair, last: nat) {
    match p.slot
    case None => p.bot == Bot.IpState(None, None)
    case Some(b) =>
      && p.bot.hit.Some? && Bot.Linked(cfg, p.bot)
      && p.bot.hit.value.start == b.windowStart <= last
      && b.count == Min(p.bot.hit.value.count, cfg.maxAttempts)
  }

  lemma CoupledStep(cfg: Bot.Config, perIp: nat, p: Pair, last: nat, at: nat)
    requires Bot.WellFormed(cfg) && cfg.maxAttempts <= perIp && Coupled(cfg, p, last) && last <= at
    ensures
      var (p', out) := PairStep(cfg, perIp, p, at);
      out != Limited && Coupled(cfg, p', at)
  {
  }

  lemma {:induction false} AlwaysCoupled(cfg: Bot.Config, perIp: nat, es: seq<Event>, ip: string, n: nat)
    requires Bot.WellFormed(cfg) && cfg.maxAttempts <= perIp && InOrder(es) && n <= |es|
    ensures Coupled(cfg, PairAfter(cfg, perIp, es, ip, n), LastTime(es, n))
    decreases n
  {
    if n > 0 {
      AlwaysCoupled(cfg, perIp, es, ip, n - 1);
      if es[n - 1].Arrival? && es[n - 1].ip == ip {
        CoupledStep(cfg, perIp, PairAfter(cfg, perIp, es, ip, n - 1), LastTime(es, n - 1), es[n - 1].at);
      }
    }
  }

  /** No watched IP is ever turned away by the per-IP limit. */
  predicate NeverLimited(cfg: Bot.Config, perIp: nat, created: nat, es: seq<Event>) {
    forall i :: 0 <= i < |es| && es[i].Arrival? && Bot.Watched(cfg, es[i].ip) ==>
      OutcomeAt(cfg, perIp, created, es, i) != Limited
  }

  ghost predicate Dominates(cfg: Bot.Config, perIp: nat) {
    forall created: nat, es: seq<Event> :: InOrder(es) ==> NeverLimited(cfg, perIp, created, es)
  }

  lemma DominatesFromQuota(cfg: Bot.Config, perIp: nat)
    requires Bot.WellFormed(cfg) && cfg.maxAttempts <= perIp
    ensures Dominates(cfg, perIp)
  {
    forall created: nat, es: seq<Event>, i: nat |
      InOrder(es) && i < |es| && es[i].Arrival? && Bot.Watched(cfg, es[i].ip)
      ensures OutcomeAt(cfg, perIp, created, es, i) != Limited
    {
      OutcomeAsPair(cfg, perIp, created, es, i);
      AlwaysCoupled(cfg, perIp, es, es[i].ip, i);
      CoupledStep(cfg, perIp, PairAfter(cfg, perIp, es, es[i].ip, i), LastTime(es, i), es[i].at);
    }
  }

  /** The traffic that reaches a smaller limit: a bot quota at once. */
  function Surge(cfg: Bot.Config, ip: string): (es: seq<Event>)
    ensures |es| == cfg.maxAttempts && InOrder(es)
  {
    seq(cfg.maxAttempts, _ => Arrival(ip, 0))
  }

  lemma {:induction false} SurgeState(cfg: Bot.Config, perIp: nat, ip: string, n: nat)
    requires n <= cfg.maxAttempts && n <= perIp
    ensures PairAfter(cfg, perIp, Surge(cfg, ip), ip, n)
         == if n == 0 then Pair(Bot.IpState(None, None), None)
            else Pair(Bot.IpState(Some(Bot.Hit(0, n)), None), Some(Rate.Bucket(0, n)))
    decreases n
  {
    if n > 0 {
      SurgeState(cfg, perIp, ip, n - 1);
      assert Surge(cfg, ip)[n - 1] == Arrival(ip, 0);
    }
  }

  /**
   If both gates saw the same clock reading, the per-IP limit would never turn a watched IP away
   iff it is at least the bot quota.
   */
  lemma SingleReadingDominationIff(cfg: Bot.Config, perIp: nat, ip: string)
    requires Bot.WellFormed(cfg) && Bot.Watched(cfg, ip) && perIp >= 1
    ensures Dominates(cfg, perIp) <==> cfg.maxAttempts <= perIp
  {
    if cfg.maxAttempts <= perIp {
      DominatesFromQuota(cfg, perIp);
    } else {
      var es := Surge(cfg, ip);
      assert es[perIp] == Arrival(ip, 0);
      OutcomeAsPair(cfg, perIp, 0, es, perIp);
      SurgeState(cfg, perIp, ip, perIp);
      assert !NeverLimited(cfg, perIp, 0, es);
    }
  }
}
