/** What each user key's own counter says, in every concurrent run. */
module UserKeyCounters {
  import opened Proxy
  import opened Store
  import opened StoreRuns
  import opened Concurrency
  import opened Accounting

  /** Charged requests that were admitted on the key with this id. */
  function ChargedOn(id: string): Live -> nat {
    (l: Live) => if l.admitted.Some? && l.admitted.value.id == id then Charged(l) else 0
  }

  predicate KnownId(keys: seq<UserKey>, id: string) {
    exists i :: 0 <= i < |keys| && keys[i].id == id
  }

  /** Every admission was on a key that has a row, and each row's counter is its charged requests. */
  predicate RowsCount(w: World, keys0: seq<UserKey>) {
    && |keys0| <= |w.sh.tables.userKeys|
    && AllKnown(w.lives, w.sh.tables.userKeys)
    && forall r :: 0 <= r < |w.sh.tables.userKeys| ==> RowCounts(w, keys0, r)
  }

  predicate RowCounts(w: World, keys0: seq<UserKey>, r: nat)
    requires r < |w.sh.tables.userKeys|
  {
    var k := w.sh.tables.userKeys[r];
    k.used == (if r < |keys0| then keys0[r].used else 0) + Sum(w.lives, ChargedOn(k.id))
  }

  lemma KnownEvolves(ks: seq<UserKey>, ks': seq<UserKey>, id: string)
    requires KeysEvolve(ks, ks') && KnownId(ks, id)
    ensures KnownId(ks', id)
  {
    var i :| 0 <= i < |ks| && ks[i].id == id;
    assert RowEvolves(ks[i], ks'[i]);
  }

  lemma {:induction false} NothingOnUnknown(ls: seq<Live>, keys: seq<UserKey>, id: string)
    requires forall l :: l in ls && l.admitted.Some? ==> KnownId(keys, l.admitted.value.id)
    requires !KnownId(keys, id)
    ensures Sum(ls, ChargedOn(id)) == 0
  {
    if ls != [] {
      NothingOnUnknown(ls[..|ls| - 1], keys, id);
      assert ls[|ls| - 1] in ls;
    }
  }

  /** A step charges the row of the key the request was admitted on, and no other. */
  lemma ChargeStep(cfg: Config, sh: Shared, l: Live, env: Env, r: nat)
    requires !l.pc.Done? && Fits(l) && r < |sh.tables.userKeys|
    ensures
      var (sh', l') := Step(cfg, sh, l, env);
      var (k, k') := (sh.tables.userKeys[r], sh'.tables.userKeys[r]);
      k'.id == k.id && k'.used + ChargedOn(k.id)(l) == k.used + ChargedOn(k.id)(l')
  {
    BooksMove(cfg, sh, l, env);
    CountersMove(cfg, sh, l, env);
    AdmissionKept(cfg, sh, l, env);
  }

  lemma AdmissionKept(cfg: Config, sh: Shared, l: Live, env: Env)
    requires !l.pc.Done? && Fits(l)
    ensures
      var l' := Step(cfg, sh, l, env).1;
      && (l.admitted.Some? ==> l'.admitted == l.admitted)
      && (l.admitted.None? ==> Charged(l) == 0 && Charged(l') == 0)
      && (l.admitted.None? && l'.admitted.Some? ==> l.pc.AtKeyLimit? && l'.admitted.value.id == l.pc.key.id)
      && (l.pc.AtMarkUse? || l.pc.AtFallback? ==> l.admitted.Some? && l.admitted.value.id == l.pc.job.key.id)
  {
  }

  predicate AllKnown(ls: seq<Live>, keys: seq<UserKey>) {
    forall l :: l in ls && l.admitted.Some? ==> KnownId(keys, l.admitted.value.id)
  }

  /** A request is only admitted on a key whose row is there. */
  lemma AdmittedKnown(cfg: Config, sh: Shared, l: Live, env: Env)
    requires !l.pc.Done? && LiveSound(sh.tables, l)
    requires l.admitted.Some? ==> KnownId(sh.tables.userKeys, l.admitted.value.id)
    ensures
      var l' := Step(cfg, sh, l, env).1;
      l'.admitted.Some? ==> KnownId(sh.tables.userKeys, l'.admitted.value.id)
  {
    AdmissionKept(cfg, sh, l, env);
    if l.pc.AtKeyLimit? {
      var j :| 0 <= j < |sh.tables.userKeys| && RowEvolves(l.pc.key, sh.tables.userKeys[j]);
      assert KnownId(sh.tables.userKeys, l.pc.key.id);
    }
  }

  lemma StillKnown(ls: seq<Live>, ks: seq<UserKey>, ks': seq<UserKey>)
    requires KeysEvolve(ks, ks') && AllKnown(ls, ks)
    ensures AllKnown(ls, ks')
  {
    forall l | l in ls && l.admitted.Some? ensures KnownId(ks', l.admitted.value.id) {
      KnownEvolves(ks, ks', l.admitted.value.id);
    }
  }

  lemma StepKnown(cfg: Config, w: World, i: nat, env: Env)
    requires Allowed(w, Run(i, env)) && Basic(w) && AllKnown(w.lives, w.sh.tables.userKeys)
    ensures AllKnown(Next(cfg, w, Run(i, env)).lives, Next(cfg, w, Run(i, env)).sh.tables.userKeys)
  {
    var w' := Next(cfg, w, Run(i, env));
    assert w.lives[i] in w.lives && LiveSound(w.sh.tables, w.lives[i]);
    AdmittedKnown(cfg, w.sh, w.lives[i], env);
    assert AllKnown(w'.lives, w.sh.tables.userKeys);
    TablesEvolve(cfg, w, Run(i, env));
    StillKnown(w'.lives, w.sh.tables.userKeys, w'.sh.tables.userKeys);
  }

  lemma StepCounts(cfg: Config, w: World, i: nat, env: Env, r: nat)
    requires Allowed(w, Run(i, env)) && Basic(w) && r < |w.sh.tables.userKeys|
    ensures
      var w' := Next(cfg, w, Run(i, env));
      var (k, k') := (w.sh.tables.userKeys[r], w'.sh.tables.userKeys[r]);
      && |w'.sh.tables.userKeys| == |w.sh.tables.userKeys|
      && k'.id == k.id
      && k'.used + Sum(w.lives, ChargedOn(k.id)) == k.used + Sum(w'.lives, ChargedOn(k.id))
  {
    var l, w' := w.lives[i], Next(cfg, w, Run(i, env));
    assert l in w.lives && LiveSound(w.sh.tables, l);
    CountersMove(cfg, w.sh, l, env);
    ChargeStep(cfg, w.sh, l, env, r);
    SumUpdate(w.lives, i, w'.lives[i], ChargedOn(w.sh.tables.userKeys[r].id));
  }

  lemma RunStepCounts(cfg: Config, w: World, i: nat, env: Env, keys0: seq<UserKey>)
    requires Allowed(w, Run(i, env)) && Basic(w) && RowsCount(w, keys0)
    ensures RowsCount(Next(cfg, w, Run(i, env)), keys0)
  {
    var w' := Next(cfg, w, Run(i, env));
    StepKnown(cfg, w, i, env);
    StepLength(cfg, w, i, env);
    forall r | 0 <= r < |w'.sh.tables.userKeys| ensures RowCounts(w', keys0, r) {
      assert RowCounts(w, keys0, r);
      StepCounts(cfg, w, i, env, r);
    }
  }

  lemma StepLength(cfg: Config, w: World, i: nat, env: Env)
    requires Allowed(w, Run(i, env))
    ensures |Next(cfg, w, Run(i, env)).sh.tables.userKeys| == |w.sh.tables.userKeys|
  {
    CountersMove(cfg, w.sh, w.lives[i], env);
  }

  /** An administrator's operation keeps each row's id and counter, and a new row starts at zero under a new id. */
  lemma AdminRows(w: World, op: Op)
    requires AdminOp(w, op)
    ensures
      var keys, keys' := w.sh.tables.userKeys, Apply(DbOf(w), op).tables.userKeys;
      && |keys| <= |keys'|
      && (forall r :: 0 <= r < |keys| ==> keys'[r].id == keys[r].id && keys'[r].used == keys[r].used)
      && (forall r :: |keys| <= r < |keys'| ==> keys'[r].used == 0 && !KnownId(keys, keys'[r].id))
  {
  }

  lemma NextRowsCount(cfg: Config, w: World, e: Event, keys0: seq<UserKey>)
    requires Allowed(w, e) && Basic(w) && RowsCount(w, keys0)
    ensures RowsCount(Next(cfg, w, e), keys0)
  {
    var w', keys := Next(cfg, w, e), w.sh.tables.userKeys;
    var keys' := w'.sh.tables.userKeys;
    match e
    case Arrive(rq) =>
      forall r | 0 <= r < |keys| ensures RowCounts(w', keys0, r) {
        assert RowCounts(w, keys0, r);
        SumAppend(w.lives, Arrived(rq), ChargedOn(keys[r].id));
      }
    case Run(i, env) => RunStepCounts(cfg, w, i, env, keys0);
    case Perform(op) =>
      AdminRows(w, op);
      TablesEvolve(cfg, w, e);
      assert w'.lives == w.lives;
      StillKnown(w.lives, keys, keys');
      forall r | 0 <= r < |keys'| ensures RowCounts(w', keys0, r) {
        if r < |keys| {
          assert RowCounts(w, keys0, r);
        } else {
          NothingOnUnknown(w.lives, keys, keys'[r].id);
        }
      }
  }

  lemma InitialRows(w: World)
    requires w.lives == []
    ensures RowsCount(w, w.sh.tables.userKeys)
  {
  }

  /**
   In every reachable world each user key row counts exactly the charged requests admitted on
   that very key, on top of what it had at start-up.
   */
  lemma {:induction false} UserKeyCountersExact(cfg: Config, ws: seq<World>, events: seq<Event>, n: nat)
    requires IsRun(cfg, ws, events) && n <= |events|
    ensures RowsCount(ws[n], ws[0].sh.tables.userKeys)
    decreases n
  {
    if n == 0 {
      InitialRows(ws[0]);
    } else {
      UserKeyCountersExact(cfg, ws, events, n - 1);
      RunBasic(cfg, ws, events, n - 1);
      assert Follows(cfg, ws, events, n - 1);
      NextRowsCount(cfg, ws[n - 1], events[n - 1], ws[0].sh.tables.userKeys);
    }
  }
}
