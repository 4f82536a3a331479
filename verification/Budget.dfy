/** How much upstream traffic one user key can cause, in every concurrent run. */
module Budget {
  import opened Common
  import opened Arithmetic
  import opened Failover
  import opened Proxy
  import opened Store
  import opened StoreRuns
  import opened Concurrency
  import Rate = RateLimiting
  import Gates

  /** Every call so far was for an IP, or for the key of an existing row with that row's limit. */
  predicate CallExplained(cfg: Config, userKeys: seq<UserKey>, c: Rate.Call) {
    || (c.key != "" && c.key[0] == 'i')
    || exists i :: 0 <= i < |userKeys| && c.key == Gates.UserKeyKey(userKeys[i].id)
                   && c.limit == KeyLimit(cfg, userKeys[i])
  }

  /** The limiter's map is what its own call history made it. */
  predicate Recorded(cfg: Config, w: World) {
    && Rate.Monotone(w.calls)
    && (forall c :: c in w.calls ==> c.now <= w.clock && CallExplained(cfg, w.sh.tables.userKeys, c))
    && w.sh.buckets == Rate.After(cfg.window, w.calls, |w.calls|)
  }

  function AdmittedOn(id: string, a: nat, b: nat): Live -> nat {
    (l: Live) => if l.admitted.Some? && l.admitted.value.id == id && a <= l.admitted.value.at <= b then 1 else 0
  }

  function SentOn(id: string, a: nat, b: nat): Live -> nat {
    (l: Live) =>
      if l.admitted.Some? && l.admitted.value.id == id && a <= l.admitted.value.at <= b then |l.sent| else 0
  }

  function AdmittedCalls(cfg: Config, calls: seq<Rate.Call>, id: string, a: nat, b: nat): nat {
    Rate.AdmittedBetween(cfg.window, calls, Gates.UserKeyKey(id), a, b, |calls|)
  }

  /** Requests admitted on a key in a time span are the limiter's admissions of that key in it. */
  predicate Matched(cfg: Config, w: World, id: string, a: nat, b: nat) {
    AdmittedCalls(cfg, w.calls, id, a, b) == Sum(w.lives, AdmittedOn(id, a, b))
  }

  lemma ExplainedStays(cfg: Config, ks: seq<UserKey>, ks': seq<UserKey>, c: Rate.Call)
    requires KeysEvolve(ks, ks') && CallExplained(cfg, ks, c)
    ensures CallExplained(cfg, ks', c)
  {
    if !(c.key != "" && c.key[0] == 'i') {
      var i :| 0 <= i < |ks| && c.key == Gates.UserKeyKey(ks[i].id) && c.limit == KeyLimit(cfg, ks[i]);
      assert RowEvolves(ks[i], ks'[i]);
    }
  }

  lemma CallIsExplained(cfg: Config, w: World, i: nat, env: Env, c: Rate.Call)
    requires Allowed(w, Run(i, env)) && Basic(w) && CallsOf(cfg, w.lives[i], env) == [c]
    ensures CallExplained(cfg, w.sh.tables.userKeys, c)
  {
    var l, ks := w.lives[i], w.sh.tables.userKeys;
    assert l in w.lives;
    if l.pc.AtKeyLimit? {
      var j :| 0 <= j < |ks| && RowEvolves(l.pc.key, ks[j]);
      assert KeyLimit(cfg, ks[j]) == KeyLimit(cfg, l.pc.key);
    }
  }

  /** A step that calls the limiter does what the limiter does with one more call. */
  lemma CallStep(cfg: Config, sh: Shared, l: Live, env: Env)
    requires !l.pc.Done?
    ensures
      var (sh', l') := Step(cfg, sh, l, env);
      var made := CallsOf(cfg, l, env);
      if made == [] then sh'.buckets == sh.buckets && l'.admitted == l.admitted
      else
        && |made| == 1 && made[0].now == env.now && (l.pc.AtIpLimit? || l.pc.AtKeyLimit?)
        && sh'.buckets == Rate.Consume(cfg.window, sh.buckets, made[0]).0
        && l'.admitted == if l.pc.AtKeyLimit? && Rate.Consume(cfg.window, sh.buckets, made[0]).1
                          then Some(Admission(l.pc.key.id, env.now)) else l.admitted
  {
  }

  lemma StepRecorded(cfg: Config, w: World, i: nat, env: Env)
    requires Allowed(w, Run(i, env)) && Basic(w) && Recorded(cfg, w)
    ensures Recorded(cfg, Next(cfg, w, Run(i, env)))
  {
    var l, w' := w.lives[i], Next(cfg, w, Run(i, env));
    var ks, ks' := w.sh.tables.userKeys, w'.sh.tables.userKeys;
    var made := CallsOf(cfg, l, env);
    TablesEvolve(cfg, w, Run(i, env));
    CallStep(cfg, w.sh, l, env);
    forall c | c in w.calls ensures CallExplained(cfg, ks', c) {
      ExplainedStays(cfg, ks, ks', c);
    }
    if made == [] {
      assert w'.calls == w.calls;
    } else {
      assert made == [made[0]];
      CallIsExplained(cfg, w, i, env, made[0]);
      ExplainedStays(cfg, ks, ks', made[0]);
      Rate.OneMore(cfg.window, w.calls, made[0]);
    }
  }

  lemma NextRecorded(cfg: Config, w: World, e: Event)
    requires Allowed(w, e) && Basic(w) && Recorded(cfg, w)
    ensures Recorded(cfg, Next(cfg, w, e))
  {
    if e.Run? {
      StepRecorded(cfg, w, e.i, e.env);
    } else {
      var ks, ks' := w.sh.tables.userKeys, Next(cfg, w, e).sh.tables.userKeys;
      TablesEvolve(cfg, w, e);
      forall c | c in w.calls ensures CallExplained(cfg, ks', c) {
        ExplainedStays(cfg, ks, ks', c);
      }
    }
  }

  /** A step adds to the admissions of a key what it adds to the requests admitted on it. */
  lemma CallMatched(cfg: Config, w: World, l: Live, env: Env, id: string, a: nat, b: nat)
    requires Recorded(cfg, w) && w.clock <= env.now && !l.pc.Done? && Fits(l)
    ensures
      var counted := AdmittedOn(id, a, b);
      AdmittedCalls(cfg, w.calls + CallsOf(cfg, l, env), id, a, b) + counted(l)
      == AdmittedCalls(cfg, w.calls, id, a, b) + counted(Step(cfg, w.sh, l, env).1)
  {
    var made := CallsOf(cfg, l, env);
    CallStep(cfg, w.sh, l, env);
    if made == [] {
      assert w.calls + made == w.calls;
    } else {
      assert made == [made[0]];
      Rate.OneMoreAdmitted(cfg.window, w.calls, made[0], Gates.UserKeyKey(id), a, b);
      Gates.LimiterKeysDistinct(if l.pc.AtIpLimit? then l.rq.ip else l.pc.key.id, id);
    }
  }

  lemma RunStepMatched(cfg: Config, w: World, i: nat, env: Env, id: string, a: nat, b: nat)
    requires Allowed(w, Run(i, env)) && Basic(w) && Recorded(cfg, w) && Matched(cfg, w, id, a, b)
    ensures Matched(cfg, Next(cfg, w, Run(i, env)), id, a, b)
  {
    var l := w.lives[i];
    assert l in w.lives && LiveSound(w.sh.tables, l);
    CallMatched(cfg, w, l, env, id, a, b);
    SumUpdate(w.lives, i, Step(cfg, w.sh, l, env).1, AdmittedOn(id, a, b));
  }

  lemma NextMatched(cfg: Config, w: World, e: Event, id: string, a: nat, b: nat)
    requires Allowed(w, e) && Basic(w) && Recorded(cfg, w) && Matched(cfg, w, id, a, b)
    ensures Matched(cfg, Next(cfg, w, e), id, a, b)
  {
    match e
    case Arrive(rq) => SumAppend(w.lives, Arrived(rq), AdmittedOn(id, a, b));
    case Run(i, env) => RunStepMatched(cfg, w, i, env, id, a, b);
    case Perform(_) =>
  }

  lemma {:induction false} RunRecorded(cfg: Config, ws: seq<World>, events: seq<Event>, n: nat)
    requires IsRun(cfg, ws, events) && n <= |events|
    ensures Recorded(cfg, ws[n])
    decreases n
  {
    if n > 0 {
      RunRecorded(cfg, ws, events, n - 1);
      RunBasic(cfg, ws, events, n - 1);
      assert Follows(cfg, ws, events, n - 1);
      NextRecorded(cfg, ws[n - 1], events[n - 1]);
    }
  }

  lemma InitiallyMatched(cfg: Config, w: World, id: string, a: nat, b: nat)
    requires w.calls == [] && w.lives == []
    ensures Matched(cfg, w, id, a, b)
  {
  }

  lemma {:induction false} RunMatched(cfg: Config, ws: seq<World>, events: seq<Event>, n: nat,
                                      id: string, a: nat, b: nat)
    requires IsRun(cfg, ws, events) && n <= |events|
    ensures Matched(cfg, ws[n], id, a, b)
    decreases n
  {
    if n == 0 {
      InitiallyMatched(cfg, ws[0], id, a, b);
    } else {
      RunMatched(cfg, ws, events, n - 1, id, a, b);
      RunRecorded(cfg, ws, events, n - 1);
      RunBasic(cfg, ws, events, n - 1);
      assert Follows(cfg, ws, events, n - 1);
      NextMatched(cfg, ws[n - 1], events[n - 1], id, a, b);
    }
  }

  lemma {:induction false} ThreePerAdmission(ls: seq<Live>, id: string, a: nat, b: nat)
    requires forall l :: l in ls ==> Fits(l)
    ensures Sum(ls, SentOn(id, a, b)) <= 3 * Sum(ls, AdmittedOn(id, a, b))
  {
    if ls != [] {
      ThreePerAdmission(ls[..|ls| - 1], id, a, b);
      assert ls[|ls| - 1] in ls;
      SentBounded(ls[|ls| - 1]);
    }
  }

  /**
   End-to-end budget: over any concurrent run, the upstream sends made for requests that one
   user key got admitted within any span of length T number at most
   3 * L * (ceil(T / window) + 1), where L is the key's own limit if it has a positive one, and
   the configured limit per key otherwise.
   */
  lemma KeyBudget(cfg: Config, ws: seq<World>, events: seq<Event>, n: nat, key: UserKey, a: nat, T: nat)
    requires cfg.window > 0 && IsRun(cfg, ws, events) && n <= |events| && key in ws[n].sh.tables.userKeys
    ensures key.maxLimit > 0 ==>
      Sum(ws[n].lives, SentOn(key.id, a, a + T)) <= 3 * (key.maxLimit * (CeilDiv(T, cfg.window) + 1))
    ensures key.maxLimit <= 0 ==>
      Sum(ws[n].lives, SentOn(key.id, a, a + T)) <= 3 * (cfg.perKey * (CeilDiv(T, cfg.window) + 1))
  {
    RunRecorded(cfg, ws, events, n);
    RunMatched(cfg, ws, events, n, key.id, a, a + T);
    RunBasic(cfg, ws, events, n);
    AdmissionsBounded(cfg, ws[n], key, a, T);
    ThreePerAdmission(ws[n].lives, key.id, a, a + T);
  }

  /** All the limiter's calls for a key carry the key's own limit, so the limiter's bound is in terms of it. */
  lemma AdmissionsBounded(cfg: Config, w: World, key: UserKey, a: nat, T: nat)
    requires cfg.window > 0 && Recorded(cfg, w) && UniqueRows(w.sh.tables) && key in w.sh.tables.userKeys
    ensures AdmittedCalls(cfg, w.calls, key.id, a, a + T) <= KeyLimit(cfg, key) * (CeilDiv(T, cfg.window) + 1)
  {
    forall i | 0 <= i < |w.calls| && w.calls[i].key == Gates.UserKeyKey(key.id)
      ensures w.calls[i].limit <= KeyLimit(cfg, key)
    {
      assert w.calls[i] in w.calls;
      OwnLimit(cfg, w.sh.tables.userKeys, w.calls[i], key);
    }
    Rate.IntervalBound(cfg.window, w.calls, Gates.UserKeyKey(key.id), KeyLimit(cfg, key), a, T);
  }

  lemma OwnLimit(cfg: Config, ks: seq<UserKey>, c: Rate.Call, key: UserKey)
    requires CallExplained(cfg, ks, c) && key in ks && c.key == Gates.UserKeyKey(key.id)
    requires forall i, j :: 0 <= i < j < |ks| ==> ks[i].id != ks[j].id
    ensures c.limit == KeyLimit(cfg, key)
  {
    assert c.key[0] == 'k';
    var i :| 0 <= i < |ks| && c.key == Gates.UserKeyKey(ks[i].id) && c.limit == KeyLimit(cfg, ks[i]);
    var j :| 0 <= j < |ks| && ks[j] == key;
    Gates.LimiterKeysDistinct(ks[i].id, key.id);
  }

  /** The time of the call that opened the key's current window. */
  predicate IsWindowStart(cfg: Config, calls: seq<Rate.Call>, id: string, start: nat) {
    var o := Rate.Opening(cfg.window, calls, Gates.UserKeyKey(id), |calls|);
    o.Some? && start == calls[o.value].now
  }

  lemma KeyGateStep(cfg: Config, sh: Shared, l: Live, env: Env)
    requires l.pc.AtKeyLimit?
    ensures
      var c := Rate.Call(env.now, Gates.UserKeyKey(l.pc.key.id), KeyLimit(cfg, l.pc.key));
      CallsOf(cfg, l, env) == [c]
      && (Step(cfg, sh, l, env).1.pc.AtResolve? <==> Rate.Consume(cfg.window, sh.buckets, c).1)
  {
  }

  lemma GateAdmits(cfg: Config, w: World, key: UserKey, now: nat) returns (start: nat)
    requires cfg.window > 0 && Recorded(cfg, w)
    requires Rate.Monotone(w.calls + [Rate.Call(now, Gates.UserKeyKey(key.id), KeyLimit(cfg, key))])
    ensures
      var c := Rate.Call(now, Gates.UserKeyKey(key.id), KeyLimit(cfg, key));
      && IsWindowStart(cfg, w.calls + [c], key.id, start) && start <= now < start + cfg.window
      && (Rate.Consume(cfg.window, w.sh.buckets, c).1
          <==> AdmittedCalls(cfg, w.calls, key.id, start, now) < if key.maxLimit > 0 then key.maxLimit else cfg.perKey)
  {
    start := Rate.NextAdmittedIff(cfg.window, w.calls, Rate.Call(now, Gates.UserKeyKey(key.id), KeyLimit(cfg, key)));
  }

  /**
   The key's gate in every concurrent run: a request at it gets through iff fewer requests than
   the key's own positive limit - or the configured one, if it has none - were admitted on that
   key since the start of the window the request falls in.
   */
  lemma KeyGateIff(cfg: Config, ws: seq<World>, events: seq<Event>, n: nat) returns (start: nat)
    requires cfg.window > 0 && IsRun(cfg, ws, events) && n < |events| && events[n].Run?
    requires events[n].i < |ws[n].lives| && ws[n].lives[events[n].i].pc.AtKeyLimit?
    ensures events[n].i < |ws[n + 1].lives|
    ensures
      var key, now := ws[n].lives[events[n].i].pc.key, events[n].env.now;
      var before := Sum(ws[n].lives, AdmittedOn(key.id, start, now));
      && IsWindowStart(cfg, ws[n + 1].calls, key.id, start) && start <= now < start + cfg.window
      && (ws[n + 1].lives[events[n].i].pc.AtResolve?
          <==> before < if key.maxLimit > 0 then key.maxLimit else cfg.perKey)
  {
    var l, env := ws[n].lives[events[n].i], events[n].env;
    RunRecorded(cfg, ws, events, n);
    RunRecorded(cfg, ws, events, n + 1);
    assert Follows(cfg, ws, events, n);
    KeyGateStep(cfg, ws[n].sh, l, env);
    start := GateAdmits(cfg, ws[n], l.pc.key, env.now);
    RunMatched(cfg, ws, events, n, l.pc.key.id, start, env.now);
  }
}
