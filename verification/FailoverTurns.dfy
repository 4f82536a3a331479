/** Which keys the attempts of one request go to, in either mode of the load balancer, in every concurrent run. */
module FailoverTurns {
  import opened Common
  import opened Arithmetic
  import opened Failover
  import opened Proxy
  import opened Store
  import opened FailoverRuns
  import opened Concurrency
  import Lb = LoadBalancing

  function KeyAt(candidates: seq<string>, index: nat): string
    requires candidates != []
  {
    candidates[index % |candidates|]
  }

  /** The request is about to take a turn of the provider's round. */
  predicate Selects(l: Live, provider: string) {
    l.pc.AtSelect? && l.pc.job.provider == provider && l.pc.job.attempted < Budget(|l.pc.job.candidates|)
  }

  predicate TakesTurn(w: World, e: Event, provider: string) {
    e.Run? && e.i < |w.lives| && Selects(w.lives[e.i], provider)
  }

  /** How many turns of the provider's round the events [lo, hi) take, whoever takes them. */
  function Turns(ws: seq<World>, events: seq<Event>, provider: string, lo: nat, hi: nat): nat
    requires |ws| == |events| + 1 && lo <= hi <= |events|
  {
    if lo == hi then 0
    else Turns(ws, events, provider, lo, hi - 1) + (if TakesTurn(ws[hi - 1], events[hi - 1], provider) then 1 else 0)
  }

  function IndexIn(w: World, provider: string): nat {
    Lb.Index(w.sh.lb.rrIndex, provider)
  }

  /** How many keys have been selected so far, the one being tried included. */
  function Selected(l: Live): nat {
    |l.picks| + (if l.pc.AtSend? then 1 else 0)
  }

  function KeyTried(l: Live, a: nat): string
    requires a < Selected(l)
  {
    if a < |l.picks| then l.picks[a] else l.pc.keyId
  }

  // ---- one step ----

  lemma IndexStep(cfg: Config, sh: Shared, l: Live, env: Env, provider: string)
    requires cfg.mode.RoundRobin? && !l.pc.Done?
    ensures Lb.Index(Step(cfg, sh, l, env).0.lb.rrIndex, provider)
         == Lb.Index(sh.lb.rrIndex, provider) + (if Selects(l, provider) then 1 else 0)
  {
  }

  /** Only selecting adds a key, and it adds the one whose turn it is. */
  lemma SelectStep(cfg: Config, sh: Shared, l: Live, env: Env, job: Job)
    requires cfg.mode.RoundRobin? && !l.pc.Done? && SameJob(l, job)
    ensures
      var l' := Step(cfg, sh, l, env).1;
      && Selected(l') == Selected(l) + (if Selects(l, job.provider) then 1 else 0)
      && (forall a :: 0 <= a < Selected(l) ==> KeyTried(l', a) == KeyTried(l, a))
      && (Selects(l, job.provider) ==>
            KeyTried(l', Selected(l)) == KeyAt(job.candidates, Lb.Index(sh.lb.rrIndex, job.provider)))
  {
  }

  lemma NextIndex(cfg: Config, w: World, e: Event, provider: string)
    requires cfg.mode.RoundRobin? && Allowed(w, e)
    ensures IndexIn(Next(cfg, w, e), provider) == IndexIn(w, provider) + (if TakesTurn(w, e, provider) then 1 else 0)
  {
    if e.Run? {
      IndexStep(cfg, w.sh, w.lives[e.i], e.env, provider);
    }
  }

  // ---- one request along a run ----

  /** From state `m` on the request is in the failover loop of `job`, nothing tried yet. */
  predicate Begins(cfg: Config, ws: seq<World>, events: seq<Event>, m: nat, i: nat, job: Job) {
    && IsRun(cfg, ws, events) && m <= |events| && i < |ws[m].lives| && Ready(ws[m].lives[i], job)
  }

  lemma {:induction false} StaysInJob(cfg: Config, ws: seq<World>, events: seq<Event>, m: nat, n: nat, i: nat, job: Job)
    requires Begins(cfg, ws, events, m, i, job) && m <= n <= |events|
    ensures i < |ws[n].lives| && SameJob(ws[n].lives[i], job)
    decreases n
  {
    if m < n {
      assert Follows(cfg, ws, events, n - 1);
      StaysInJob(cfg, ws, events, m, n - 1, i, job);
      RunFits(cfg, ws, events, n - 1, i);
      var w, e := ws[n - 1], events[n - 1];
      if e.Run? && e.i == i {
        SameJobStep(cfg, w.sh, w.lives[i], job, e.env);
      }
    }
  }

  predicate OwnTurn(ws: seq<World>, events: seq<Event>, i: nat, provider: string, k: nat)
    requires |ws| == |events| + 1 && k < |events|
  {
    TakesTurn(ws[k], events[k], provider) && events[k].i == i
  }

  /** An event lets the request try one more key iff it is the request's own turn. */
  lemma NextSelected(cfg: Config, ws: seq<World>, events: seq<Event>, m: nat, n: nat, i: nat, job: Job)
    requires cfg.mode.RoundRobin? && Begins(cfg, ws, events, m, i, job) && m <= n < |events|
    ensures i < |ws[n].lives| && i < |ws[n + 1].lives|
    ensures
      var l, l' := ws[n].lives[i], ws[n + 1].lives[i];
      && Selected(l') == Selected(l) + (if OwnTurn(ws, events, i, job.provider, n) then 1 else 0)
      && (forall a :: 0 <= a < Selected(l) ==> KeyTried(l', a) == KeyTried(l, a))
      && (OwnTurn(ws, events, i, job.provider, n) ==>
            KeyTried(l', Selected(l)) == KeyAt(job.candidates, IndexIn(ws[n], job.provider)))
  {
    StaysInJob(cfg, ws, events, m, n, i, job);
    assert Follows(cfg, ws, events, n);
    var w, e := ws[n], events[n];
    if e.Run? && e.i == i {
      SelectStep(cfg, w.sh, w.lives[i], e.env, job);
    }
  }

  /** What has been tried stays tried, in its place. */
  lemma {:induction false} StaysTried(cfg: Config, ws: seq<World>, events: seq<Event>, m: nat, k: nat, n: nat, i: nat,
                                      job: Job, a: nat)
    requires cfg.mode.RoundRobin? && Begins(cfg, ws, events, m, i, job) && m <= k <= n <= |events|
    requires i < |ws[k].lives| && a < Selected(ws[k].lives[i])
    ensures i < |ws[n].lives| && a < Selected(ws[n].lives[i])
    ensures KeyTried(ws[n].lives[i], a) == KeyTried(ws[k].lives[i], a)
    decreases n
  {
    if k < n {
      StaysTried(cfg, ws, events, m, k, n - 1, i, job, a);
      NextSelected(cfg, ws, events, m, n - 1, i, job);
    }
  }

  lemma {:induction false} IndexCountsTurns(cfg: Config, ws: seq<World>, events: seq<Event>, provider: string,
                                            lo: nat, hi: nat)
    requires cfg.mode.RoundRobin? && IsRun(cfg, ws, events) && lo <= hi <= |events|
    ensures IndexIn(ws[hi], provider) == IndexIn(ws[lo], provider) + Turns(ws, events, provider, lo, hi)
    decreases hi
  {
    if lo < hi {
      IndexCountsTurns(cfg, ws, events, provider, lo, hi - 1);
      assert Follows(cfg, ws, events, hi - 1);
      NextIndex(cfg, ws[hi - 1], events[hi - 1], provider);
    }
  }

  /** Event `k` is the request's own selection of its key number `a`. */
  predicate TurnOf(ws: seq<World>, events: seq<Event>, i: nat, provider: string, a: nat, k: nat)
    requires |ws| == |events| + 1
  {
    k < |events| && i < |ws[k].lives| && Selected(ws[k].lives[i]) == a && OwnTurn(ws, events, i, provider, k)
  }

  lemma {:induction false} TriedInTurn(cfg: Config, ws: seq<World>, events: seq<Event>, m: nat, n: nat, i: nat,
                                       job: Job, a: nat) returns (k: nat)
    requires cfg.mode.RoundRobin? && Begins(cfg, ws, events, m, i, job) && m <= n <= |events|
    requires i < |ws[n].lives| && a < Selected(ws[n].lives[i])
    ensures m <= k < n && TurnOf(ws, events, i, job.provider, a, k)
    ensures KeyTried(ws[n].lives[i], a) == KeyAt(job.candidates, IndexIn(ws[k], job.provider))
    decreases n
  {
    assert m < n;
    NextSelected(cfg, ws, events, m, n - 1, i, job);
    if a < Selected(ws[n - 1].lives[i]) {
      k := TriedInTurn(cfg, ws, events, m, n - 1, i, job, a);
    } else {
      k := n - 1;
    }
  }

  // ---- the candidates are distinct keys ----

  predicate OffersDistinct(l: Live) {
    HasJob(l.pc) ==> NoRepeats(l.pc.job.candidates)
  }

  lemma OffersStep(cfg: Config, sh: Shared, l: Live, env: Env)
    requires !l.pc.Done? && UniqueRows(sh.tables) && OffersDistinct(l)
    ensures OffersDistinct(Step(cfg, sh, l, env).1)
  {
    if l.pc.AtListKeys? {
      CandidatesDistinct(sh.tables.providerKeys, l.pc.provider);
    }
  }

  lemma {:induction false} RunOffersDistinct(cfg: Config, ws: seq<World>, events: seq<Event>, n: nat, i: nat)
    requires IsRun(cfg, ws, events) && n <= |events| && i < |ws[n].lives|
    ensures OffersDistinct(ws[n].lives[i])
    decreases n
  {
    if n > 0 {
      assert Follows(cfg, ws, events, n - 1);
    }
    if n > 0 && i < |ws[n - 1].lives| {
      RunOffersDistinct(cfg, ws, events, n - 1, i);
      RunBasic(cfg, ws, events, n - 1);
      var w, e := ws[n - 1], events[n - 1];
      if e.Run? && e.i == i {
        OffersStep(cfg, w.sh, w.lives[i], e.env);
      }
    }
  }

  // ---- the theorems ----

  lemma SameKeyIff(candidates: seq<string>, s: nat, d: nat)
    requires candidates != [] && NoRepeats(candidates)
    ensures KeyAt(candidates, s) == KeyAt(candidates, s + d) <==> d % |candidates| == 0
  {
    DivAdd(s, d, |candidates|);
  }

  /**
   In round-robin mode two attempts of one request go to the same key iff the number of turns
   of that provider taken from the one to the other, by anybody, is a multiple of the number of
   keys the request was offered - in every concurrent run, from every starting index.
   */
  lemma AttemptsCollideIff(cfg: Config, ws: seq<World>, events: seq<Event>, m: nat, n: nat, i: nat, job: Job,
                           a: nat, b: nat) returns (ka: nat, kb: nat)
    requires cfg.mode.RoundRobin? && Begins(cfg, ws, events, m, i, job) && m <= n <= |events|
    requires i < |ws[n].lives| && a < b < |ws[n].lives[i].picks|
    ensures m <= ka < kb < n
    ensures TurnOf(ws, events, i, job.provider, a, ka) && TurnOf(ws, events, i, job.provider, b, kb)
    ensures ws[n].lives[i].picks[a] == ws[n].lives[i].picks[b]
       <==> Turns(ws, events, job.provider, ka, kb) % |job.candidates| == 0
  {
    kb := TriedInTurn(cfg, ws, events, m, n, i, job, b);
    ka := TriedInTurn(cfg, ws, events, m, kb, i, job, a);
    StaysTried(cfg, ws, events, m, kb, n, i, job, a);
    RunOffersDistinct(cfg, ws, events, m, i);
    IndexCountsTurns(cfg, ws, events, job.provider, ka, kb);
    SameKeyIff(job.candidates, IndexIn(ws[ka], job.provider), Turns(ws, events, job.provider, ka, kb));
  }

  /** No other request takes a turn of the provider's round during the events [m, n). */
  predicate Undisturbed(ws: seq<World>, events: seq<Event>, provider: string, i: nat, m: nat, n: nat)
    requires |ws| == |events| + 1 && n <= |events|
  {
    forall k :: m <= k < n && TakesTurn(ws[k], events[k], provider) ==> OwnTurn(ws, events, i, provider, k)
  }

  lemma {:induction false} OwnTurns(cfg: Config, ws: seq<World>, events: seq<Event>, m: nat, n: nat, i: nat, job: Job)
    requires cfg.mode.RoundRobin? && Begins(cfg, ws, events, m, i, job) && m <= n <= |events|
    requires Undisturbed(ws, events, job.provider, i, m, n)
    ensures i < |ws[n].lives| && Selected(ws[n].lives[i]) == Turns(ws, events, job.provider, m, n)
    decreases n
  {
    if m < n {
      OwnTurns(cfg, ws, events, m, n - 1, i, job);
      NextSelected(cfg, ws, events, m, n - 1, i, job);
    }
  }

  /** Undisturbed, the attempts go round the candidates from the index the request found. */
  lemma PicksInTurn(cfg: Config, ws: seq<World>, events: seq<Event>, m: nat, n: nat, i: nat, job: Job, a: nat)
    requires cfg.mode.RoundRobin? && Begins(cfg, ws, events, m, i, job) && m <= n <= |events|
    requires Undisturbed(ws, events, job.provider, i, m, n)
    requires i < |ws[n].lives| && a < |ws[n].lives[i].picks|
    ensures ws[n].lives[i].picks[a] == KeyAt(job.candidates, IndexIn(ws[m], job.provider) + a)
  {
    var k := TriedInTurn(cfg, ws, events, m, n, i, job, a);
    OwnTurns(cfg, ws, events, m, k, i, job);
    IndexCountsTurns(cfg, ws, events, job.provider, m, k);
  }

  /**
   Failover really moves on: as long as no other request selects for the provider meanwhile -
   whatever else goes on - the keys one request tries are pairwise distinct candidates, from
   any starting index and for any number of keys; and if there are at most three and all
   attempts failed, every candidate has been tried.
   */
  lemma AttemptsGoToDistinctKeys(cfg: Config, ws: seq<World>, events: seq<Event>, m: nat, n: nat, i: nat, job: Job)
    requires cfg.mode.RoundRobin? && Begins(cfg, ws, events, m, i, job) && m <= n <= |events|
    requires Undisturbed(ws, events, job.provider, i, m, n)
    ensures i < |ws[n].lives|
    ensures
      var l := ws[n].lives[i];
      && NoRepeats(l.picks)
      && (forall p :: p in l.picks ==> p in job.candidates)
      && (l.pc.Done? && NoFinal(l.sent) && |job.candidates| <= 3 ==>
            forall c :: c in job.candidates ==> c in l.picks)
  {
    StaysInJob(cfg, ws, events, m, n, i, job);
    RunFits(cfg, ws, events, n, i);
    RunOffersDistinct(cfg, ws, events, m, i);
    var l, s := ws[n].lives[i], IndexIn(ws[m], job.provider);
    forall a | 0 <= a < |l.picks| ensures l.picks[a] == KeyAt(job.candidates, s + a) {
      PicksInTurn(cfg, ws, events, m, n, i, job, a);
    }
    PicksBounded(l, job);
    RoundIsDistinct(job.candidates, s, l.picks);
    if l.pc.Done? && NoFinal(l.sent) && |job.candidates| <= 3 {
      AllTried(l, job);
      RoundCovers(job.candidates, s, l.picks);
    }
  }

  lemma PicksBounded(l: Live, job: Job)
    requires Fits(l) && SameJob(l, job)
    ensures |l.picks| <= |job.candidates|
  {
  }

  lemma AllTried(l: Live, job: Job)
    requires Fits(l) && SameJob(l, job)
    requires l.pc.Done? && NoFinal(l.sent) && |job.candidates| <= 3
    ensures |l.picks| == |job.candidates|
  {
    assert l.sent[|l.sent| - 1] in l.sent;
  }

  lemma RoundIsDistinct(candidates: seq<string>, s: nat, picks: seq<string>)
    requires candidates != [] && NoRepeats(candidates) && |picks| <= |candidates|
    requires forall a :: 0 <= a < |picks| ==> picks[a] == KeyAt(candidates, s + a)
    ensures NoRepeats(picks) && forall p :: p in picks ==> p in candidates
  {
    forall a, b | 0 <= a < b < |picks| ensures picks[a] != picks[b] {
      Lb.ModDistinct(s, a, b, |candidates|);
    }
  }

  lemma RoundCovers(candidates: seq<string>, s: nat, picks: seq<string>)
    requires candidates != [] && |picks| == |candidates|
    requires forall a :: 0 <= a < |picks| ==> picks[a] == KeyAt(candidates, s + a)
    ensures forall c :: c in candidates ==> c in picks
  {
    forall c | c in candidates ensures c in picks {
      var p :| 0 <= p < |candidates| && candidates[p] == c;
      var a := TurnAt(s, |candidates|, p);
      assert picks[a] == c;
    }
  }

  /** In any `n` consecutive turns every position has its own. */
  lemma TurnAt(s: nat, n: nat, p: nat) returns (a: nat)
    requires p < n
    ensures a < n && (s + a) % n == p
  {
    var r := s % n;
    a := if p >= r then p - r else p + n - r;
    Lb.SumMod(s, a, n);
  }

  // ---- the other mode ----

  lemma BalancerStep(cfg: Config, sh: Shared, l: Live, env: Env)
    requires cfg.mode.LeastConnections? && !l.pc.Done?
    ensures Step(cfg, sh, l, env).0.lb == sh.lb
  {
  }

  /** Nothing in the pipeline ever tells the balancer that a request starts or ends. */
  lemma {:induction false} BalancerStaysEmpty(cfg: Config, ws: seq<World>, events: seq<Event>, n: nat)
    requires cfg.mode.LeastConnections? && IsRun(cfg, ws, events) && n <= |events|
    ensures ws[n].sh.lb == Lb.Empty
    decreases n
  {
    if n > 0 {
      BalancerStaysEmpty(cfg, ws, events, n - 1);
      assert Follows(cfg, ws, events, n - 1);
      var w, e := ws[n - 1], events[n - 1];
      if e.Run? {
        BalancerStep(cfg, w.sh, w.lives[e.i], e.env);
      }
    }
  }

  /** With no counts, the least loaded candidate is the first. */
  lemma FirstIsLeast(candidates: seq<string>)
    requires candidates != []
    ensures Lb.LeastLoaded(map[], candidates, |candidates|) == 0
  {
    var best := Lb.LeastLoaded(map[], candidates, |candidates|);
    assert best > 0 ==> Lb.Load(map[], candidates[best]) < Lb.Load(map[], candidates[0]);
  }

  predicate OnlyFirst(l: Live, candidates: seq<string>)
    requires candidates != []
  {
    forall a :: 0 <= a < Selected(l) ==> KeyTried(l, a) == candidates[0]
  }

  lemma LeastSelectStep(cfg: Config, sh: Shared, l: Live, env: Env, job: Job)
    requires cfg.mode.LeastConnections? && !l.pc.Done? && SameJob(l, job)
    ensures
      var l' := Step(cfg, sh, l, env).1;
      && Selected(l') == Selected(l) + (if Selects(l, job.provider) then 1 else 0)
      && (forall a :: 0 <= a < Selected(l) ==> KeyTried(l', a) == KeyTried(l, a))
      && (Selects(l, job.provider) ==>
            KeyTried(l', Selected(l))
            == job.candidates[Lb.LeastLoaded(sh.lb.inFlight, job.candidates, |job.candidates|)])
  {
  }

  lemma FirstAgain(cfg: Config, sh: Shared, l: Live, env: Env, job: Job)
    requires cfg.mode.LeastConnections? && sh.lb == Lb.Empty && !l.pc.Done? && SameJob(l, job)
    requires OnlyFirst(l, job.candidates)
    ensures OnlyFirst(Step(cfg, sh, l, env).1, job.candidates)
  {
    FirstIsLeast(job.candidates);
    LeastSelectStep(cfg, sh, l, env, job);
  }

  lemma NextOnlyFirst(cfg: Config, w: World, e: Event, i: nat, job: Job)
    requires cfg.mode.LeastConnections? && w.sh.lb == Lb.Empty && Allowed(w, e)
    requires i < |w.lives| && SameJob(w.lives[i], job) && OnlyFirst(w.lives[i], job.candidates)
    ensures i < |Next(cfg, w, e).lives| && OnlyFirst(Next(cfg, w, e).lives[i], job.candidates)
  {
    if e.Run? && e.i == i {
      FirstAgain(cfg, w.sh, w.lives[i], e.env, job);
    }
  }

  lemma {:induction false} OnlyFirstAlong(cfg: Config, ws: seq<World>, events: seq<Event>, m: nat, n: nat, i: nat,
                                          job: Job)
    requires cfg.mode.LeastConnections? && Begins(cfg, ws, events, m, i, job) && m <= n <= |events|
    ensures i < |ws[n].lives| && OnlyFirst(ws[n].lives[i], job.candidates)
    decreases n
  {
    if m < n {
      OnlyFirstAlong(cfg, ws, events, m, n - 1, i, job);
      StaysInJob(cfg, ws, events, m, n - 1, i, job);
      BalancerStaysEmpty(cfg, ws, events, n - 1);
      assert Follows(cfg, ws, events, n - 1);
      NextOnlyFirst(cfg, ws[n - 1], events[n - 1], i, job);
    }
  }

  /**
   In least-connections mode, in every concurrent run, every attempt of a request goes to the
   first of its candidates: a retry never moves on to another key, however many there are.
   */
  lemma LeastConnectionsStays(cfg: Config, ws: seq<World>, events: seq<Event>, m: nat, n: nat, i: nat, job: Job)
    requires cfg.mode.LeastConnections? && Begins(cfg, ws, events, m, i, job) && m <= n <= |events|
    ensures i < |ws[n].lives| && forall p :: p in ws[n].lives[i].picks ==> p == job.candidates[0]
  {
    OnlyFirstAlong(cfg, ws, events, m, n, i, job);
    var l := ws[n].lives[i];
    forall p | p in l.picks ensures p == job.candidates[0] {
      var a :| 0 <= a < |l.picks| && l.picks[a] == p;
      assert KeyTried(l, a) == job.candidates[0];
    }
  }
}
