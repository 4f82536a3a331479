/**
 Bot protection (rust-core/src/bot_protect.rs).

 Two time-stamped maps, `hits` and `blocked_until`, are kept per IP and swept together.
 The class at the end is the component; before it come its steps as functions, the same
 protection for one IP that never sweeps, and a declarative account of when an IP is
 blocked that mentions only the times of its checks.
 */
module BotProtection {
  import opened Common

  const WINDOW: nat := 60 * SECOND
  const CLEANUP_PERIOD: nat := 300 * SECOND

  datatype Decision = Allow | Blocked

  datatype Config = Config(enabled: bool, maxAttempts: nat, blockFor: nat,
                           whitelist: set<string>, blacklist: set<string>)

  /** What construction from the configuration file guarantees: both settings are raised to at least one. */
  predicate WellFormed(cfg: Config) {
    cfg.maxAttempts >= 1 && cfg.blockFor >= WINDOW
  }

  function FromSettings(enabled: bool, maxAttemptsPerMinute: nat, blockMinutes: nat,
                        whitelist: seq<string>, blacklist: seq<string>): (cfg: Config)
    ensures WellFormed(cfg)
    ensures cfg.enabled == enabled
    ensures cfg.maxAttempts == if maxAttemptsPerMinute == 0 then 1 else maxAttemptsPerMinute
    ensures cfg.blockFor == if blockMinutes == 0 then 60_000_000_000 else blockMinutes * 60_000_000_000
    ensures forall ip :: ip in cfg.whitelist <==> ip in whitelist
    ensures forall ip :: ip in cfg.blacklist <==> ip in blacklist
  {
    Config(enabled, Max(maxAttemptsPerMinute, 1), Max(blockMinutes, 1) * 60 * SECOND,
           set ip | ip in whitelist, set ip | ip in blacklist)
  }

  /** The IPs whose traffic is counted at all. */
  predicate Watched(cfg: Config, ip: string) {
    cfg.enabled && ip !in cfg.whitelist && ip !in cfg.blacklist
  }

  datatype Hit = Hit(start: nat, count: nat)

  datatype State = State(hits: map<string, Hit>, blockedUntil: map<string, nat>, lastCleanup: nat)

  datatype Visit = Visit(now: nat, ip: string)

  function Counted1(hit: Option<Hit>, now: nat): Hit {
    match hit
    case None => Hit(now, 1)
    case Some(h) => if Elapsed(now, h.start) >= WINDOW then Hit(now, 1) else Hit(h.start, h.count + 1)
  }

  function Swept(st: State, now: nat): State {
    if Elapsed(now, st.lastCleanup) > CLEANUP_PERIOD then
      State(map ip | ip in st.hits && Elapsed(now, st.hits[ip].start) < WINDOW :: st.hits[ip],
            map ip | ip in st.blockedUntil && now < st.blockedUntil[ip] :: st.blockedUntil[ip],
            now)
    else st
  }

  function CheckStep(cfg: Config, st: State, v: Visit): (State, Decision) {
    if !cfg.enabled || v.ip in cfg.whitelist then (st, Allow)
    else if v.ip in cfg.blacklist then (st, Blocked)
    else if v.ip in st.blockedUntil && v.now < st.blockedUntil[v.ip] then (st, Blocked)
    else
      var hit := Counted1(Lookup(st.hits, v.ip), v.now);
      var st' := State(st.hits[v.ip := hit], st.blockedUntil - {v.ip}, st.lastCleanup);
      if hit.count > cfg.maxAttempts then
        (st'.(blockedUntil := st'.blockedUntil[v.ip := v.now + cfg.blockFor]), Blocked)
      else
        (Swept(st', v.now), Allow)
  }

  predicate BlockedAt(st: State, now: nat, ip: string) {
    ip in st.blockedUntil && now < st.blockedUntil[ip]
  }

  // ---- runs ----

  predicate Monotone(visits: seq<Visit>) {
    forall i, j :: 0 <= i <= j < |visits| ==> visits[i].now <= visits[j].now
  }

  function Initial(created: nat): State {
    State(map[], map[], created)
  }

  function After(cfg: Config, created: nat, visits: seq<Visit>, n: nat): State
    requires n <= |visits|
  {
    if n == 0 then Initial(created) else CheckStep(cfg, After(cfg, created, visits, n - 1), visits[n - 1]).0
  }

  /** The answer to the `i`-th check of a run. */
  function Answer(cfg: Config, created: nat, visits: seq<Visit>, i: nat): Decision
    requires i < |visits|
  {
    CheckStep(cfg, After(cfg, created, visits, i), visits[i]).1
  }

  // ---- one IP on its own, never swept ----

  datatype IpState = IpState(hit: Option<Hit>, until: Option<nat>)

  function IpStep(cfg: Config, s: IpState, now: nat): (IpState, Decision) {
    if s.until.Some? && now < s.until.value then (s, Blocked)
    else
      var hit := Counted1(s.hit, now);
      if hit.count > cfg.maxAttempts then (IpState(Some(hit), Some(now + cfg.blockFor)), Blocked)
      else (IpState(Some(hit), None), Allow)
  }

  function IpAfter(cfg: Config, visits: seq<Visit>, ip: string, n: nat): IpState
    requires n <= |visits|
  {
    if n == 0 then IpState(None, None)
    else
      var s := IpAfter(cfg, visits, ip, n - 1);
      if visits[n - 1].ip == ip then IpStep(cfg, s, visits[n - 1].now).0 else s
  }

  function View(st: State, ip: string): IpState {
    IpState(Lookup(st.hits, ip), Lookup(st.blockedUntil, ip))
  }

  /** The stored entries equal the single-IP ones, or were swept once they could no longer matter. */
  predicate StandsFor(stored: IpState, s: IpState, now: nat) {
    && (stored.hit == s.hit || (stored.hit.None? && s.hit.Some? && Elapsed(now, s.hit.value.start) >= WINDOW))
    && (stored.until == s.until || (stored.until.None? && s.until.Some? && s.until.value <= now))
  }

  lemma CheckSimulates(cfg: Config, st: State, v: Visit, ip: string, s: IpState, last: nat)
    requires StandsFor(View(st, ip), s, last) && last <= v.now && Watched(cfg, ip)
    ensures
      var (st', d) := CheckStep(cfg, st, v);
      if v.ip == ip then
        var (s', d') := IpStep(cfg, s, v.now);
        d == d' && StandsFor(View(st', ip), s', v.now)
      else
        StandsFor(View(st', ip), s, v.now)
  {
  }

  /** A check's own entries survive the sweep it may trigger. */
  lemma CheckOwn(cfg: Config, st: State, v: Visit)
    requires Watched(cfg, v.ip)
    ensures
      var (st', d) := CheckStep(cfg, st, v);
      (View(st', v.ip), d) == IpStep(cfg, View(st, v.ip), v.now)
  {
  }

  function LastTime(visits: seq<Visit>, n: nat): nat
    requires n <= |visits|
  {
    if n == 0 then 0 else visits[n - 1].now
  }

  lemma {:induction false} SweepingIsInvisible(cfg: Config, created: nat, visits: seq<Visit>, ip: string, n: nat)
    requires Monotone(visits) && n <= |visits| && Watched(cfg, ip)
    ensures StandsFor(View(After(cfg, created, visits, n), ip), IpAfter(cfg, visits, ip, n), LastTime(visits, n))
    decreases n
  {
    if n > 0 {
      SweepingIsInvisible(cfg, created, visits, ip, n - 1);
      CheckSimulates(cfg, After(cfg, created, visits, n - 1), visits[n - 1], ip, IpAfter(cfg, visits, ip, n - 1),
                     LastTime(visits, n - 1));
    }
  }

  /** Whatever other IPs do, and whenever the maps are swept, an IP is answered as if it were alone and never swept. */
  lemma AnswersAsSingleIp(cfg: Config, created: nat, visits: seq<Visit>, i: nat)
    requires Monotone(visits) && i < |visits| && Watched(cfg, visits[i].ip)
    ensures Answer(cfg, created, visits, i)
         == IpStep(cfg, IpAfter(cfg, visits, visits[i].ip, i), visits[i].now).1
  {
    var ip := visits[i].ip;
    SweepingIsInvisible(cfg, created, visits, ip, i);
    CheckSimulates(cfg, After(cfg, created, visits, i), visits[i], ip, IpAfter(cfg, visits, ip, i),
                   LastTime(visits, i));
  }

  // ---- the declarative account ----

  /** Some trigger among the first `n` checks still blocks `ip` at time `now`. */
  predicate InBlock(cfg: Config, visits: seq<Visit>, ip: string, n: nat, now: nat)
    requires n <= |visits|
    decreases n, 4
  {
    exists j :: 0 <= j < n && visits[j].ip == ip && Triggers(cfg, visits, j) && now < visits[j].now + cfg.blockFor
  }

  /** Check `i` falls outside every block, so it counts. */
  predicate Counts(cfg: Config, visits: seq<Visit>, i: nat)
    requires i < |visits|
    decreases i, 5
  {
    !InBlock(cfg, visits, visits[i].ip, i, visits[i].now)
  }

  /** The check that opened `ip`'s tumbling window, after `n` checks. */
  function Opening(cfg: Config, visits: seq<Visit>, ip: string, n: nat): (o: Option<nat>)
    requires n <= |visits|
    ensures o.Some? ==> o.value < n && visits[o.value].ip == ip
    ensures n > 0 && visits[n - 1].ip == ip && Counts(cfg, visits, n - 1) ==> o.Some?
    decreases n, 1
  {
    if n == 0 then None
    else
      var o := Opening(cfg, visits, ip, n - 1);
      if visits[n - 1].ip != ip || !Counts(cfg, visits, n - 1) then o
      else if o.None? || Elapsed(visits[n - 1].now, visits[o.value].now) >= WINDOW then Some(n - 1)
      else o
  }

  function CountedIn(cfg: Config, visits: seq<Visit>, ip: string, lo: nat, hi: nat): nat
    requires lo <= hi <= |visits|
    decreases hi, 1
  {
    if lo == hi then 0
    else CountedIn(cfg, visits, ip, lo, hi - 1)
         + (if visits[hi - 1].ip == ip && Counts(cfg, visits, hi - 1) then 1 else 0)
  }

  /** Check `i` is the one that is one too many in its window. */
  predicate Triggers(cfg: Config, visits: seq<Visit>, i: nat)
    requires i < |visits|
    decreases i + 1, 3
  {
    && Counts(cfg, visits, i)
    && CountedIn(cfg, visits, visits[i].ip, Opening(cfg, visits, visits[i].ip, i + 1).value, i + 1)
       == cfg.maxAttempts + 1
  }

  /** The hit entry holds the start of the current window and the number of checks counted in it. */
  predicate HitExplained(cfg: Config, visits: seq<Visit>, ip: string, n: nat, hit: Option<Hit>)
    requires n <= |visits|
  {
    var o := Opening(cfg, visits, ip, n);
    hit == if o.None? then None else Some(Hit(visits[o.value].now, CountedIn(cfg, visits, ip, o.value, n)))
  }

  /** From the latest check on, the block entry says exactly when the IP is blocked. */
  ghost predicate UntilExplained(cfg: Config, visits: seq<Visit>, ip: string, n: nat, until: Option<nat>)
    requires n <= |visits|
  {
    forall now: nat :: LastTime(visits, n) <= now ==>
      (InBlock(cfg, visits, ip, n, now) <==> until.Some? && now < until.value)
  }

  /** Links a single IP's two entries to the declarative account. */
  ghost predicate Explained(cfg: Config, visits: seq<Visit>, ip: string, n: nat, s: IpState)
    requires n <= |visits|
  {
    && HitExplained(cfg, visits, ip, n, s.hit)
    && UntilExplained(cfg, visits, ip, n, s.until)
    && Linked(cfg, s)
  }

  /** The invariant across the two maps: a count past the maximum is covered by a block that outlasts its window. */
  predicate Linked(cfg: Config, s: IpState) {
    s.hit.Some? && s.hit.value.count > cfg.maxAttempts ==>
      && s.hit.value.count == cfg.maxAttempts + 1
      && s.until.Some? && s.until.value >= s.hit.value.start + WINDOW
  }

  lemma InBlockStep(cfg: Config, visits: seq<Visit>, ip: string, i: nat, now: nat)
    requires i < |visits|
    ensures InBlock(cfg, visits, ip, i + 1, now)
       <==> || InBlock(cfg, visits, ip, i, now)
            || (visits[i].ip == ip && Triggers(cfg, visits, i) && now < visits[i].now + cfg.blockFor)
  {
    if InBlock(cfg, visits, ip, i, now) {
      var j :| 0 <= j < i && visits[j].ip == ip && Triggers(cfg, visits, j) && now < visits[j].now + cfg.blockFor;
      assert 0 <= j < i + 1;
    }
  }

  lemma {:induction false} IpStateExplained(cfg: Config, visits: seq<Visit>, ip: string, n: nat)
    requires Monotone(visits) && n <= |visits| && WellFormed(cfg)
    ensures Explained(cfg, visits, ip, n, IpAfter(cfg, visits, ip, n))
    decreases n
  {
    if n > 0 {
      IpStateExplained(cfg, visits, ip, n - 1);
      if visits[n - 1].ip == ip {
        ExplainedStep(cfg, visits, n - 1, IpAfter(cfg, visits, ip, n - 1));
      } else {
        ExplainedOther(cfg, visits, ip, n - 1, IpAfter(cfg, visits, ip, n - 1));
      }
    }
  }

  lemma ExplainedOther(cfg: Config, visits: seq<Visit>, ip: string, i: nat, s: IpState)
    requires Monotone(visits) && i < |visits| && visits[i].ip != ip
    requires Explained(cfg, visits, ip, i, s)
    ensures Explained(cfg, visits, ip, i + 1, s)
  {
    var o := Opening(cfg, visits, ip, i);
    assert o.Some? ==> CountedIn(cfg, visits, ip, o.value, i + 1) == CountedIn(cfg, visits, ip, o.value, i);
    forall now: nat {:trigger InBlock(cfg, visits, ip, i + 1, now)} | LastTime(visits, i + 1) <= now
      ensures InBlock(cfg, visits, ip, i + 1, now) <==> s.until.Some? && now < s.until.value
    {
      InBlockStep(cfg, visits, ip, i, now);
    }
  }

  lemma HitStep(cfg: Config, visits: seq<Visit>, i: nat, s: IpState)
    requires Monotone(visits) && i < |visits| && Counts(cfg, visits, i)
    requires HitExplained(cfg, visits, visits[i].ip, i, s.hit)
    ensures HitExplained(cfg, visits, visits[i].ip, i + 1, Some(Counted1(s.hit, visits[i].now)))
  {
    var ip := visits[i].ip;
    var o, o' := Opening(cfg, visits, ip, i), Opening(cfg, visits, ip, i + 1);
    assert CountedIn(cfg, visits, ip, o'.value, i + 1) == CountedIn(cfg, visits, ip, o'.value, i) + 1;
    if o'.value == i {
      assert CountedIn(cfg, visits, ip, i, i) == 0;
    }
  }

  lemma ExplainedStep(cfg: Config, visits: seq<Visit>, i: nat, s: IpState)
    requires Monotone(visits) && i < |visits| && WellFormed(cfg)
    requires Explained(cfg, visits, visits[i].ip, i, s)
    ensures Explained(cfg, visits, visits[i].ip, i + 1, IpStep(cfg, s, visits[i].now).0)
    ensures Triggers(cfg, visits, i) <==> Counts(cfg, visits, i) && IpStep(cfg, s, visits[i].now).1 == Blocked
  {
    var ip, s' := visits[i].ip, IpStep(cfg, s, visits[i].now).0;
    assert LastTime(visits, i) <= visits[i].now;
    if Counts(cfg, visits, i) {
      HitStep(cfg, visits, i, s);
      assert Linked(cfg, s');
    } else {
      var o := Opening(cfg, visits, ip, i);
      assert Opening(cfg, visits, ip, i + 1) == o;
      assert o.Some? ==> CountedIn(cfg, visits, ip, o.value, i + 1) == CountedIn(cfg, visits, ip, o.value, i);
    }
    assert Triggers(cfg, visits, i) <==> Counts(cfg, visits, i) && IpStep(cfg, s, visits[i].now).1 == Blocked;
    UntilStep(cfg, visits, i, s);
  }

  lemma UntilStep(cfg: Config, visits: seq<Visit>, i: nat, s: IpState)
    requires Monotone(visits) && i < |visits|
    requires UntilExplained(cfg, visits, visits[i].ip, i, s.until)
    requires Triggers(cfg, visits, i) <==> Counts(cfg, visits, i) && IpStep(cfg, s, visits[i].now).1 == Blocked
    ensures UntilExplained(cfg, visits, visits[i].ip, i + 1, IpStep(cfg, s, visits[i].now).0.until)
  {
    var ip, t, s' := visits[i].ip, visits[i].now, IpStep(cfg, s, visits[i].now).0;
    assert LastTime(visits, i) <= t;
    assert InBlock(cfg, visits, ip, i, t) <==> s.until.Some? && t < s.until.value;
    forall now: nat {:trigger InBlock(cfg, visits, ip, i + 1, now)} | t <= now
      ensures InBlock(cfg, visits, ip, i + 1, now) <==> s'.until.Some? && now < s'.until.value
    {
      InBlockStep(cfg, visits, ip, i, now);
    }
  }

  /**
   Exact characterisation of blocking: over every run, a watched IP is refused at a check
   iff some trigger of that IP, at or before the check, happened less than `blockFor` ago.
   */
  lemma BlockedIff(cfg: Config, created: nat, visits: seq<Visit>, i: nat)
    requires Monotone(visits) && i < |visits| && WellFormed(cfg) && Watched(cfg, visits[i].ip)
    ensures Answer(cfg, created, visits, i) == Blocked
       <==> InBlock(cfg, visits, visits[i].ip, i + 1, visits[i].now)
  {
    var s := IpAfter(cfg, visits, visits[i].ip, i);
    AnswersAsSingleIp(cfg, created, visits, i);
    IpStateExplained(cfg, visits, visits[i].ip, i);
    ExplainedStep(cfg, visits, i, s);
    assert LastTime(visits, i) <= visits[i].now;
    InBlockStep(cfg, visits, visits[i].ip, i, visits[i].now);
  }

  // ---- the two maps of every reachable state ----

  lemma {:induction false} OnlyWatchedStored(cfg: Config, created: nat, visits: seq<Visit>, n: nat)
    requires n <= |visits|
    ensures
      var st := After(cfg, created, visits, n);
      forall ip :: ip in st.hits || ip in st.blockedUntil ==> Watched(cfg, ip)
    decreases n
  {
    if n > 0 {
      OnlyWatchedStored(cfg, created, visits, n - 1);
    }
  }

  /**
   In every reachable state a hit count above the maximum is exactly one above, and either its
   IP has a block entry reaching at least to the end of the hit window or that window is over.
   */
  lemma ExcessIsCovered(cfg: Config, created: nat, visits: seq<Visit>, n: nat, ip: string)
    requires Monotone(visits) && n <= |visits| && WellFormed(cfg)
    ensures
      var st := After(cfg, created, visits, n);
      ip in st.hits && st.hits[ip].count > cfg.maxAttempts ==>
        && st.hits[ip].count == cfg.maxAttempts + 1
        && (|| (ip in st.blockedUntil && st.blockedUntil[ip] >= st.hits[ip].start + WINDOW)
            || Elapsed(LastTime(visits, n), st.hits[ip].start) >= WINDOW)
  {
    OnlyWatchedStored(cfg, created, visits, n);
    if Watched(cfg, ip) {
      SweepingIsInvisible(cfg, created, visits, ip, n);
      IpStateExplained(cfg, visits, ip, n);
    }
  }

  /**
   What `is_blocked` answers in any reachable state, at any time from the latest check on: yes
   iff the IP is watched and some trigger of it happened less than a block length ago.
   */
  lemma IsBlockedIff(cfg: Config, created: nat, visits: seq<Visit>, n: nat, ip: string, now: nat)
    requires Monotone(visits) && n <= |visits| && WellFormed(cfg) && LastTime(visits, n) <= now
    ensures BlockedAt(After(cfg, created, visits, n), now, ip)
       <==> Watched(cfg, ip) && InBlock(cfg, visits, ip, n, now)
  {
    OnlyWatchedStored(cfg, created, visits, n);
    if Watched(cfg, ip) {
      SweepingIsInvisible(cfg, created, visits, ip, n);
      IpStateExplained(cfg, visits, ip, n);
      var until := IpAfter(cfg, visits, ip, n).until;
      assert InBlock(cfg, visits, ip, n, now) <==> until.Some? && now < until.value;
    }
  }

  /**
   Asked right after a check, `is_blocked` gives the check's answer - unless the IP is one the
   blacklist refuses, for which nothing is ever stored.
   */
  lemma IsBlockedAgreesIff(cfg: Config, created: nat, visits: seq<Visit>, i: nat)
    requires Monotone(visits) && i < |visits| && WellFormed(cfg)
    ensures
      var v := visits[i];
      (BlockedAt(After(cfg, created, visits, i + 1), v.now, v.ip) <==> Answer(cfg, created, visits, i) == Blocked)
      <==> !(cfg.enabled && v.ip !in cfg.whitelist && v.ip in cfg.blacklist)
  {
    OnlyWatchedStored(cfg, created, visits, i);
    OnlyWatchedStored(cfg, created, visits, i + 1);
    if Watched(cfg, visits[i].ip) && visits[i].ip !in After(cfg, created, visits, i + 1).blockedUntil {
      assert Answer(cfg, created, visits, i) == Allow;
    }
  }

  // ---- when a block is written ----

  /** The check writes a block entry for its IP. */
  predicate Blocks(cfg: Config, st: State, v: Visit) {
    var after := CheckStep(cfg, st, v).0.blockedUntil;
    v.ip in after && Lookup(after, v.ip) != Lookup(st.blockedUntil, v.ip)
  }

  /** The entries a check of a watched IP leaves are written by its triggers, and by nothing else. */
  lemma BlocksIff(cfg: Config, created: nat, visits: seq<Visit>, i: nat)
    requires Monotone(visits) && i < |visits| && WellFormed(cfg) && Watched(cfg, visits[i].ip)
    ensures Blocks(cfg, After(cfg, created, visits, i), visits[i]) <==> Triggers(cfg, visits, i)
    ensures Triggers(cfg, visits, i) ==>
      Lookup(After(cfg, created, visits, i + 1).blockedUntil, visits[i].ip) == Some(visits[i].now + cfg.blockFor)
  {
    var ip, s := visits[i].ip, IpAfter(cfg, visits, visits[i].ip, i);
    SweepingIsInvisible(cfg, created, visits, ip, i);
    IpStateExplained(cfg, visits, ip, i);
    ExplainedStep(cfg, visits, i, s);
    assert LastTime(visits, i) <= visits[i].now;
    assert Counts(cfg, visits, i) <==> !(s.until.Some? && visits[i].now < s.until.value);
  }

  /**
   Over every run two checks that write a block entry for the same IP are at least a whole
   block apart: checks made while blocked extend nothing.
   */
  lemma BlocksApart(cfg: Config, created: nat, visits: seq<Visit>, i: nat, j: nat)
    requires Monotone(visits) && WellFormed(cfg) && i < j < |visits| && visits[i].ip == visits[j].ip
    requires Blocks(cfg, After(cfg, created, visits, i), visits[i])
    requires Blocks(cfg, After(cfg, created, visits, j), visits[j])
    ensures visits[j].now >= visits[i].now + cfg.blockFor
  {
    OnlyWatchedStored(cfg, created, visits, i + 1);
    BlocksIff(cfg, created, visits, i);
    BlocksIff(cfg, created, visits, j);
    assert !InBlock(cfg, visits, visits[j].ip, j, visits[j].now);
  }

  // ---- a fresh quota ----

  /** How many of the checks numbered [lo, hi) are `ip`'s. */
  function VisitsOf(visits: seq<Visit>, ip: string, lo: nat, hi: nat): nat
    requires lo <= hi <= |visits|
  {
    if lo == hi then 0 else VisitsOf(visits, ip, lo, hi - 1) + (if visits[hi - 1].ip == ip then 1 else 0)
  }

  /** The first check that counts after a trigger opens a new window, because a block outlasts a window. */
  lemma AfterBlockFresh(cfg: Config, visits: seq<Visit>, j: nat, i: nat)
    requires Monotone(visits) && WellFormed(cfg) && j < i < |visits|
    requires visits[j].ip == visits[i].ip && Triggers(cfg, visits, j) && Counts(cfg, visits, i)
    ensures Opening(cfg, visits, visits[i].ip, i).Some? ==>
              Opening(cfg, visits, visits[i].ip, i).value > j || Opening(cfg, visits, visits[i].ip, i + 1) == Some(i)
  {
    assert !InBlock(cfg, visits, visits[i].ip, i, visits[i].now);
  }

  lemma {:induction false} NoneCountedKeepsOpening(cfg: Config, visits: seq<Visit>, ip: string, j: nat, n: nat)
    requires j <= n <= |visits|
    requires forall k :: j <= k < n && visits[k].ip == ip ==> !Counts(cfg, visits, k)
    ensures Opening(cfg, visits, ip, n) == Opening(cfg, visits, ip, j)
    decreases n
  {
    if n > j {
      NoneCountedKeepsOpening(cfg, visits, ip, j, n - 1);
    }
  }

  lemma {:induction false} CountedAtMostVisits(cfg: Config, visits: seq<Visit>, ip: string, lo: nat, o: nat, hi: nat)
    requires lo <= o <= hi <= |visits|
    ensures CountedIn(cfg, visits, ip, o, hi) <= VisitsOf(visits, ip, lo, hi)
  {
    if o < hi {
      CountedAtMostVisits(cfg, visits, ip, lo, o, hi - 1);
    }
  }

  /** Within a fresh window nobody triggers before `maxAttempts` checks, so no block can reach check `k`. */
  lemma {:induction false} NotBlockedInQuota(cfg: Config, visits: seq<Visit>, i: nat, k: nat)
    requires Monotone(visits) && WellFormed(cfg) && i <= k < |visits| && visits[i].ip == visits[k].ip
    requires Counts(cfg, visits, i) && Opening(cfg, visits, visits[i].ip, i + 1) == Some(i)
    requires VisitsOf(visits, visits[i].ip, i, k + 1) <= cfg.maxAttempts
    ensures Counts(cfg, visits, k) && !Triggers(cfg, visits, k)
  {
    var ip := visits[i].ip;
    forall j | 0 <= j < k && visits[j].ip == ip && Triggers(cfg, visits, j)
      ensures visits[k].now >= visits[j].now + cfg.blockFor
    {
      if j < i {
        assert !InBlock(cfg, visits, ip, i, visits[i].now);
        assert visits[k].now >= visits[i].now;
      } else {
        VisitsMonotone(visits, ip, i, j + 1, k + 1);
        NotBlockedInQuota(cfg, visits, i, j);
      }
    }
    assert !InBlock(cfg, visits, ip, k, visits[k].now);
    OpeningFrom(cfg, visits, ip, i, k + 1);
    CountedAtMostVisits(cfg, visits, ip, i, Opening(cfg, visits, ip, k + 1).value, k + 1);
  }

  lemma {:induction false} VisitsMonotone(visits: seq<Visit>, ip: string, lo: nat, m: nat, hi: nat)
    requires lo <= m <= hi <= |visits|
    ensures VisitsOf(visits, ip, lo, m) <= VisitsOf(visits, ip, lo, hi)
  {
    if m < hi {
      VisitsMonotone(visits, ip, lo, m, hi - 1);
    }
  }

  lemma {:induction false} OpeningFrom(cfg: Config, visits: seq<Visit>, ip: string, i: nat, n: nat)
    requires i < n <= |visits| && Opening(cfg, visits, ip, i + 1) == Some(i)
    ensures Opening(cfg, visits, ip, n).Some? && Opening(cfg, visits, ip, n).value >= i
    decreases n
  {
    if n > i + 1 {
      OpeningFrom(cfg, visits, ip, i, n - 1);
    }
  }

  /**
   Once a block is over the IP starts afresh: if check `i` is its first that counts since the
   trigger `j`, then check `i` and the following ones, `maxAttempts` in all, are allowed
   however they are spaced.
   */
  lemma FreshQuotaAfterBlock(cfg: Config, created: nat, visits: seq<Visit>, j: nat, i: nat, k: nat)
    requires Monotone(visits) && WellFormed(cfg) && j < i <= k < |visits|
    requires visits[j].ip == visits[i].ip == visits[k].ip && Watched(cfg, visits[i].ip)
    requires Triggers(cfg, visits, j) && Counts(cfg, visits, i)
    requires forall m :: j < m < i && visits[m].ip == visits[i].ip ==> !Counts(cfg, visits, m)
    requires VisitsOf(visits, visits[i].ip, i, k + 1) <= cfg.maxAttempts
    ensures Answer(cfg, created, visits, k) == Allow
  {
    var ip := visits[i].ip;
    NoneCountedKeepsOpening(cfg, visits, ip, j + 1, i);
    AfterBlockFresh(cfg, visits, j, i);
    NotBlockedInQuota(cfg, visits, i, k);
    InBlockStep(cfg, visits, ip, k, visits[k].now);
    BlockedIff(cfg, created, visits, k);
  }

  // ---- the quota in figures ----

  /** Before the quota is used up: one window since the first check, or a later one with fewer checks. */
  predicate WithinQuota(s: IpState, first: nat, made: nat, last: nat) {
    && s.until.None?
    && (made == 0 ==> s.hit.None?)
    && (made > 0 ==>
          s.hit.Some? && s.hit.value.start <= last
          && if s.hit.value.start == first then s.hit.value.count == made
             else s.hit.value.start >= first + 60_000_000_000 && s.hit.value.count < made)
  }

  lemma {:induction false} QuotaHolds(cfg: Config, visits: seq<Visit>, f: nat, n: nat)
    requires Monotone(visits) && f <= n <= |visits| && f < |visits|
    requires VisitsOf(visits, visits[f].ip, 0, f) == 0 && VisitsOf(visits, visits[f].ip, 0, n) <= cfg.maxAttempts
    ensures n > f ==> VisitsOf(visits, visits[f].ip, 0, n) >= 1
    ensures WithinQuota(IpAfter(cfg, visits, visits[f].ip, n), visits[f].now, VisitsOf(visits, visits[f].ip, 0, n),
                        LastTime(visits, n))
    decreases n
  {
    if n > f {
      QuotaHolds(cfg, visits, f, n - 1);
    } else {
      NoVisits(cfg, visits, visits[f].ip, f);
    }
  }

  lemma {:induction false} NoVisits(cfg: Config, visits: seq<Visit>, ip: string, n: nat)
    requires n <= |visits| && VisitsOf(visits, ip, 0, n) == 0
    ensures IpAfter(cfg, visits, ip, n) == IpState(None, None)
    decreases n
  {
    if n > 0 {
      NoVisits(cfg, visits, ip, n - 1);
    }
  }

  /**
   The check after the quota is used up, on a fresh start and whatever other IPs do in between:
   it is refused iff less than a minute has passed since the IP's first check.
   */
  lemma OneTooManyIff(cfg: Config, created: nat, visits: seq<Visit>, f: nat, i: nat)
    requires Monotone(visits) && f < i < |visits| && cfg.maxAttempts >= 1
    requires Watched(cfg, visits[i].ip) && visits[f].ip == visits[i].ip
    requires VisitsOf(visits, visits[i].ip, 0, f) == 0 && VisitsOf(visits, visits[i].ip, 0, i) == cfg.maxAttempts
    ensures Answer(cfg, created, visits, i) == Blocked <==> visits[i].now - visits[f].now < 60_000_000_000
  {
    QuotaHolds(cfg, visits, f, i);
    AnswersAsSingleIp(cfg, created, visits, i);
    assert LastTime(visits, i) <= visits[i].now;
  }

  /** Who is not counted at all: everybody if the protection is off, the whitelist before the blacklist. */
  lemma ListedAnswers(cfg: Config, created: nat, visits: seq<Visit>, i: nat)
    requires i < |visits|
    ensures
      var ip, answer := visits[i].ip, Answer(cfg, created, visits, i);
      && (!cfg.enabled || ip in cfg.whitelist ==> answer == Allow)
      && (cfg.enabled && ip !in cfg.whitelist && ip in cfg.blacklist ==> answer == Blocked)
  {
  }

  /**
   What a check that lets its IP through leaves in the maps: more than five minutes after the
   last sweep no window that is over and no block that has ended, before that all there was.
   */
  lemma SweptInFigures(cfg: Config, st: State, v: Visit, ip: string)
    requires CheckStep(cfg, st, v).1 == Allow && Watched(cfg, v.ip) && st.lastCleanup <= v.now && ip != v.ip
    ensures
      var st' := CheckStep(cfg, st, v).0;
      if v.now - st.lastCleanup > 300_000_000_000 then
        && (ip in st'.hits <==> ip in st.hits && Elapsed(v.now, st.hits[ip].start) < 60_000_000_000)
        && (ip in st'.blockedUntil <==> ip in st.blockedUntil && v.now < st.blockedUntil[ip])
      else
        View(st', ip) == View(st, ip)
  {
  }

  // ---- the component itself ----

  class BotProtect {
    const cfg: Config
    var hits: map<string, Hit>
    var blockedUntil: map<string, nat>
    var lastCleanup: nat

    constructor (cfg: Config, now: nat)
      ensures this.cfg == cfg && Current() == Initial(now)
    {
      this.cfg := cfg;
      hits := map[];
      blockedUntil := map[];
      lastCleanup := now;
    }

    ghost function Current(): State
      reads this
    {
      State(hits, blockedUntil, lastCleanup)
    }

    method Check(now: nat, ip: string) returns (d: Decision)
      modifies this
      ensures (Current(), d) == CheckStep(cfg, old(Current()), Visit(now, ip))
    {
      if !cfg.enabled {
        return Allow;
      }
      if ip in cfg.whitelist {
        return Allow;
      }
      if ip in cfg.blacklist {
        return Blocked;
      }
      if ip in blockedUntil {
        if now < blockedUntil[ip] {
          return Blocked;
        }
        blockedUntil := blockedUntil - {ip};
      }
      assert blockedUntil == old(blockedUntil) - {ip};
      if ip !in hits {
        hits := hits[ip := Hit(now, 0)];
      }
      if Elapsed(now, hits[ip].start) >= WINDOW {
        hits := hits[ip := Hit(now, 0)];
      }
      hits := hits[ip := Hit(hits[ip].start, hits[ip].count + 1)];
      assert hits == old(hits)[ip := Counted1(Lookup(old(hits), ip), now)];
      if hits[ip].count > cfg.maxAttempts {
        blockedUntil := blockedUntil[ip := now + cfg.blockFor];
        return Blocked;
      }
      if Elapsed(now, lastCleanup) > CLEANUP_PERIOD {
        hits := map k | k in hits && Elapsed(now, hits[k].start) < WINDOW :: hits[k];
        blockedUntil := map k | k in blockedUntil && now < blockedUntil[k] :: blockedUntil[k];
        lastCleanup := now;
      }
      return Allow;
    }

    method IsBlocked(now: nat, ip: string) returns (blocked: bool)
      ensures blocked == BlockedAt(Current(), now, ip)
    {
      if ip in blockedUntil {
        blocked := now < blockedUntil[ip];
      } else {
        blocked := false;
      }
    }
  }
}
