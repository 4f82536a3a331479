/** Nothing is sent upstream for a request that has not passed every gate, in order. */
module Admissions {
  import opened Proxy
  import opened Store
  import opened Concurrency
  import Bot = BotProtection
  import Rate = RateLimiting
  import Gates

  /** How many of the four gates a request has behind it. */
  function GatesBehind(l: Live): nat {
    if l.admitted.Some? then 4
    else if l.pc.AtKeyLimit? then 3
    else if l.pc.AtAuth? then 2
    else if l.pc.AtIpLimit? then 1
    else 0
  }

  /** Gate `k` lets a request through in the given shared state: bot check, IP limit, authentication, key limit. */
  predicate LetsThrough(cfg: Config, sh: Shared, l: Live, env: Env, k: nat) {
    match k
    case 1 => Bot.CheckStep(cfg.bot, sh.bot, Bot.Visit(env.now, l.rq.ip)).1.Allow?
    case 2 => Rate.Consume(cfg.window, sh.buckets, Rate.Call(env.now, Gates.IpKey(l.rq.ip), cfg.perIp)).1
    case 3 =>
      && l.rq.userKey.Some?
      && exists key :: key in sh.tables.userKeys && key.key == l.rq.userKey.value && key.status.Active?
                       && (key.expiresAt.Some? ==> !env.expired)
    case 4 =>
      && l.pc.AtKeyLimit?
      && Rate.Consume(cfg.window, sh.buckets,
                      Rate.Call(env.now, Gates.UserKeyKey(l.pc.key.id), KeyLimit(cfg, l.pc.key))).1
    case _ => false
  }

  /** Event `m` of a run is request `i` getting past gate `k`. */
  predicate PassedAt(ws: seq<World>, events: seq<Event>, i: nat, k: nat, m: nat)
    requires m < |events| && |ws| == |events| + 1
  {
    && events[m].Run? && events[m].i == i && i < |ws[m].lives| && i < |ws[m + 1].lives|
    && GatesBehind(ws[m].lives[i]) == k - 1 && GatesBehind(ws[m + 1].lives[i]) == k
  }

  /** One step passes at most one gate, and only if the gate lets the request through. */
  lemma StepPasses(cfg: Config, sh: Shared, l: Live, env: Env)
    requires !l.pc.Done? && Fits(l)
    ensures
      var (before, after) := (GatesBehind(l), GatesBehind(Step(cfg, sh, l, env).1));
      after > before ==> after == before + 1 && LetsThrough(cfg, sh, l, env, after)
  {
  }

  lemma NextPasses(cfg: Config, w: World, e: Event, i: nat, k: nat)
    requires Allowed(w, e) && i < |Next(cfg, w, e).lives| && (i < |w.lives| ==> Fits(w.lives[i]))
    requires 1 <= k <= GatesBehind(Next(cfg, w, e).lives[i])
    requires i < |w.lives| ==> GatesBehind(w.lives[i]) < k
    ensures e.Run? && e.i == i && i < |w.lives| && GatesBehind(w.lives[i]) == k - 1
    ensures GatesBehind(Next(cfg, w, e).lives[i]) == k
  {
    if e.Run? && e.i == i {
      StepPasses(cfg, w.sh, w.lives[i], e.env);
    }
  }

  lemma {:induction false} GatePassed(cfg: Config, ws: seq<World>, events: seq<Event>, n: nat, i: nat, k: nat)
    returns (m: nat)
    requires IsRun(cfg, ws, events) && n <= |events| && i < |ws[n].lives|
    requires 1 <= k <= GatesBehind(ws[n].lives[i])
    ensures m < n && PassedAt(ws, events, i, k, m)
    decreases n
  {
    assert Follows(cfg, ws, events, n - 1);
    if i < |ws[n - 1].lives| && GatesBehind(ws[n - 1].lives[i]) >= k {
      m := GatePassed(cfg, ws, events, n - 1, i, k);
    } else {
      m := n - 1;
      if i < |ws[n - 1].lives| {
        RunFits(cfg, ws, events, n - 1, i);
      }
      NextPasses(cfg, ws[n - 1], events[n - 1], i, k);
    }
  }

  /** A gate is only passed in a state in which it lets the request through. */
  lemma PassedMeans(cfg: Config, ws: seq<World>, events: seq<Event>, i: nat, k: nat, m: nat)
    requires IsRun(cfg, ws, events) && m < |events| && 1 <= k <= 4 && PassedAt(ws, events, i, k, m)
    ensures LetsThrough(cfg, ws[m].sh, ws[m].lives[i], events[m].env, k)
  {
    RunFits(cfg, ws, events, m, i);
    assert Follows(cfg, ws, events, m);
    StepPasses(cfg, ws[m].sh, ws[m].lives[i], events[m].env);
  }

  /**
   In every concurrent run a request with anything sent upstream has passed, at four separate
   earlier moments and in this order, the bot check, the IP limit, authentication with a key
   row that was active then, and the key's limit.
   */
  lemma SentMeansPassed(cfg: Config, ws: seq<World>, events: seq<Event>, n: nat, i: nat)
    returns (m1: nat, m2: nat, m3: nat, m4: nat)
    requires IsRun(cfg, ws, events) && n <= |events| && i < |ws[n].lives| && ws[n].lives[i].sent != []
    ensures m1 < m2 < m3 < m4 < n
    ensures PassedAt(ws, events, i, 1, m1) && LetsThrough(cfg, ws[m1].sh, ws[m1].lives[i], events[m1].env, 1)
    ensures PassedAt(ws, events, i, 2, m2) && LetsThrough(cfg, ws[m2].sh, ws[m2].lives[i], events[m2].env, 2)
    ensures PassedAt(ws, events, i, 3, m3) && LetsThrough(cfg, ws[m3].sh, ws[m3].lives[i], events[m3].env, 3)
    ensures PassedAt(ws, events, i, 4, m4) && LetsThrough(cfg, ws[m4].sh, ws[m4].lives[i], events[m4].env, 4)
  {
    RunFits(cfg, ws, events, n, i);
    m4 := GatePassed(cfg, ws, events, n, i, 4);
    m3 := GatePassed(cfg, ws, events, m4, i, 3);
    m2 := GatePassed(cfg, ws, events, m3, i, 2);
    m1 := GatePassed(cfg, ws, events, m2, i, 1);
    PassedMeans(cfg, ws, events, i, 1, m1);
    PassedMeans(cfg, ws, events, i, 2, m2);
    PassedMeans(cfg, ws, events, i, 3, m3);
    PassedMeans(cfg, ws, events, i, 4, m4);
  }

  // ---- and only with keys that were active ----

  /** In state `m` the request is looking up the provider its path names, and finds it active. */
  predicate ResolvedAt(ws: seq<World>, m: nat, i: nat, provider: string) {
    && m < |ws| && i < |ws[m].lives| && ws[m].lives[i].pc.AtResolve?
    && var p := ProviderAsked(ws[m].sh.tables, ws[m].lives[i].rq);
       p.Some? && p.value.name == provider && p.value.status.Active?
  }

  predicate ActiveKeyOf(t: Tables, provider: string, id: string) {
    exists k :: k in t.providerKeys && k.id == id && k.provider == provider && k.status.Active?
  }

  /** In state `m` the request is listing the provider's keys, and this is an active one. */
  predicate ListedAt(ws: seq<World>, m: nat, i: nat, provider: string, id: string) {
    && m < |ws| && i < |ws[m].lives| && ws[m].lives[i].pc.AtListKeys? && ws[m].lives[i].pc.provider == provider
    && ActiveKeyOf(ws[m].sh.tables, provider, id)
  }

  lemma ListedMeans(t: Tables, provider: string, id: string)
    requires id in ActiveIds(KeysOf(t.providerKeys, provider))
    ensures ActiveKeyOf(t, provider, id)
  {
    var k :| k in KeysOf(t.providerKeys, provider) && k.status.Active? && k.id == id;
  }

  /** How a request comes to its provider, its candidates and its picks. */
  lemma StepChooses(cfg: Config, sh: Shared, l: Live, env: Env)
    requires !l.pc.Done?
    ensures
      var l' := Step(cfg, sh, l, env).1;
      && (l'.pc.AtListKeys? ==>
            && l.pc.AtResolve?
            && var p := ProviderAsked(sh.tables, l.rq);
               p.Some? && p.value.name == l'.pc.provider && p.value.status.Active?)
      && (HasJob(l'.pc) ==>
            || (HasJob(l.pc) && l'.pc.job.provider == l.pc.job.provider && l'.pc.job.candidates == l.pc.job.candidates)
            || (l.pc.AtListKeys? && l'.pc.job.provider == l.pc.provider
                && l'.pc.job.candidates == ActiveIds(KeysOf(sh.tables.providerKeys, l.pc.provider))))
      && l'.picks == if l.pc.AtSend? then l.picks + [l.pc.keyId] else l.picks
  {
  }

  predicate HasCandidate(l: Live, provider: string, id: string) {
    HasJob(l.pc) && l.pc.job.provider == provider && id in l.pc.job.candidates
  }

  lemma StepListed(cfg: Config, sh: Shared, l: Live, env: Env, provider: string, id: string)
    requires !l.pc.Done? && HasCandidate(Step(cfg, sh, l, env).1, provider, id)
    ensures HasCandidate(l, provider, id)
            || (l.pc.AtListKeys? && l.pc.provider == provider && ActiveKeyOf(sh.tables, provider, id))
  {
    StepChooses(cfg, sh, l, env);
    if !HasJob(l.pc) {
      ListedMeans(sh.tables, provider, id);
    }
  }

  lemma NextListed(cfg: Config, w: World, e: Event, i: nat, provider: string, id: string)
    requires Allowed(w, e) && i < |Next(cfg, w, e).lives| && HasCandidate(Next(cfg, w, e).lives[i], provider, id)
    ensures i < |w.lives| && (HasCandidate(w.lives[i], provider, id) || ListedAt([w], 0, i, provider, id))
  {
    if e.Run? && e.i == i {
      StepListed(cfg, w.sh, w.lives[i], e.env, provider, id);
    }
  }

  lemma NextResolved(cfg: Config, w: World, e: Event, i: nat)
    requires Allowed(w, e) && i < |Next(cfg, w, e).lives| && Next(cfg, w, e).lives[i].pc.AtListKeys?
    ensures i < |w.lives|
    ensures w.lives[i].pc == Next(cfg, w, e).lives[i].pc
            || ResolvedAt([w], 0, i, Next(cfg, w, e).lives[i].pc.provider)
  {
    if e.Run? && e.i == i {
      StepChooses(cfg, w.sh, w.lives[i], e.env);
    }
  }

  lemma {:induction false} Resolved(cfg: Config, ws: seq<World>, events: seq<Event>, n: nat, i: nat) returns (m: nat)
    requires IsRun(cfg, ws, events) && n <= |events| && i < |ws[n].lives| && ws[n].lives[i].pc.AtListKeys?
    ensures m < n && ResolvedAt(ws, m, i, ws[n].lives[i].pc.provider)
    decreases n
  {
    assert Follows(cfg, ws, events, n - 1);
    NextResolved(cfg, ws[n - 1], events[n - 1], i);
    if ws[n - 1].lives[i].pc == ws[n].lives[i].pc {
      m := Resolved(cfg, ws, events, n - 1, i);
    } else {
      m := n - 1;
    }
  }

  lemma {:induction false} Listed(cfg: Config, ws: seq<World>, events: seq<Event>, n: nat, i: nat,
                                  provider: string, id: string)
    returns (m: nat)
    requires IsRun(cfg, ws, events) && n <= |events| && i < |ws[n].lives| && HasCandidate(ws[n].lives[i], provider, id)
    ensures m < n && ListedAt(ws, m, i, provider, id)
    decreases n
  {
    assert Follows(cfg, ws, events, n - 1);
    NextListed(cfg, ws[n - 1], events[n - 1], i, provider, id);
    if HasCandidate(ws[n - 1].lives[i], provider, id) {
      m := Listed(cfg, ws, events, n - 1, i, provider, id);
    } else {
      m := n - 1;
    }
  }

  lemma NextPicks(cfg: Config, w: World, e: Event, i: nat, a: nat)
    requires Allowed(w, e) && i < |Next(cfg, w, e).lives| && (i < |w.lives| ==> Fits(w.lives[i]))
    requires a < |Next(cfg, w, e).lives[i].picks|
    ensures i < |w.lives|
    ensures
      var (l, id) := (w.lives[i], Next(cfg, w, e).lives[i].picks[a]);
      if a < |l.picks| then l.picks[a] == id
      else HasJob(l.pc) && HasCandidate(l, l.pc.job.provider, id)
  {
    if e.Run? && e.i == i {
      StepChooses(cfg, w.sh, w.lives[i], e.env);
    }
  }

  lemma {:induction false} PickListed(cfg: Config, ws: seq<World>, events: seq<Event>, n: nat, i: nat, a: nat)
    returns (m: nat, provider: string)
    requires IsRun(cfg, ws, events) && n <= |events| && i < |ws[n].lives| && a < |ws[n].lives[i].picks|
    ensures m < n && ListedAt(ws, m, i, provider, ws[n].lives[i].picks[a])
    decreases n
  {
    assert Follows(cfg, ws, events, n - 1);
    if i < |ws[n - 1].lives| {
      RunFits(cfg, ws, events, n - 1, i);
    }
    NextPicks(cfg, ws[n - 1], events[n - 1], i, a);
    if a < |ws[n - 1].lives[i].picks| {
      m, provider := PickListed(cfg, ws, events, n - 1, i, a);
    } else {
      provider := ws[n - 1].lives[i].pc.job.provider;
      m := Listed(cfg, ws, events, n - 1, i, provider, ws[n].lives[i].picks[a]);
    }
  }

  /**
   In every concurrent run every key a request was sent with had been listed for it, active then,
   as a key of one provider that the request had before that found active under the name its
   path begins with.
   */
  lemma TriedKeysWereActive(cfg: Config, ws: seq<World>, events: seq<Event>, n: nat, i: nat, a: nat)
    returns (m1: nat, m2: nat, provider: string)
    requires IsRun(cfg, ws, events) && n <= |events| && i < |ws[n].lives| && a < |ws[n].lives[i].picks|
    ensures m1 < m2 < n
    ensures ResolvedAt(ws, m1, i, provider) && ListedAt(ws, m2, i, provider, ws[n].lives[i].picks[a])
  {
    m2, provider := PickListed(cfg, ws, events, n, i, a);
    m1 := Resolved(cfg, ws, events, m2, i);
  }
}
