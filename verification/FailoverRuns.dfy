/** Everything the failover loop does when no other request interferes with it. */
module FailoverRuns {
  import opened Common
  import opened Failover
  import opened Proxy
  import opened ProxyServer
  import opened Store
  import opened StoreRows
  import opened Accounting
  import opened KeyCounters

  function MarkedOnce(keys: seq<ProviderKey>, p: string, o: Outcome): seq<ProviderKey> {
    if Succeeded(o) then SuccessCounted(keys, p) else if Failing(o) then FailureCounted(keys, p) else keys
  }

  /** Provider key rows after the first `n` attempts: each failure marked, each 2xx credited, other answers neither. */
  function Marked(keys: seq<ProviderKey>, picks: seq<string>, tried: seq<Outcome>, n: nat): seq<ProviderKey>
    requires n <= |picks| && n <= |tried|
  {
    if n == 0 then keys
    else
      MarkedOnce(Marked(keys, picks, tried, n - 1), picks[n - 1], tried[n - 1])
  }

  lemma {:induction false} MarkedPrefix(keys: seq<ProviderKey>, picks: seq<string>, tried: seq<Outcome>, p: string,
                                        o: Outcome, n: nat)
    requires n <= |picks| && n <= |tried|
    ensures Marked(keys, picks + [p], tried + [o], n) == Marked(keys, picks, tried, n)
    decreases n
  {
    if n > 0 {
      MarkedPrefix(keys, picks, tried, p, o, n - 1);
    }
  }

  /** The loop is still working on the job it was given, or has left it after at least one attempt. */
  predicate SameJob(l: Live, job: Job) {
    && InLoop(l.pc) && l.offered == |job.candidates| > 0
    && (l.pc.Done? ==> l.sent != [])
    && (!l.pc.Done? ==>
          l.pc.job.key == job.key && l.pc.job.provider == job.provider && l.pc.job.candidates == job.candidates)
  }

  /** The log entries of the first `n` attempts, in order. */
  function AttemptEntries(tried: seq<Outcome>, n: nat, ip: string, userId: string): seq<LogEntry>
    requires n <= |tried|
  {
    if n == 0 then []
    else
      AttemptEntries(tried, n - 1, ip, userId)
      + [LogEntry(if Final(tried[n - 1]) then LogKind.Request else RequestFail, Some(ip), Some(userId))]
  }

  lemma {:induction false} EntriesPrefix(tried: seq<Outcome>, o: Outcome, n: nat, ip: string, userId: string)
    requires n <= |tried|
    ensures AttemptEntries(tried + [o], n, ip, userId) == AttemptEntries(tried, n, ip, userId)
    decreases n
  {
    if n > 0 {
      EntriesPrefix(tried, o, n - 1, ip, userId);
    }
  }

  predicate LogsAlong(t0: Tables, t: Tables, l: Live, job: Job) {
    && |l.sent| >= Unlogged(l)
    && t.logs == t0.logs + AttemptEntries(l.sent, |l.sent| - Unlogged(l), l.rq.ip, job.key.userId)
  }

  /** The tables, in terms of the attempts so far. */
  predicate TablesAlong(t0: Tables, t: Tables, l: Live, job: Job) {
    && t.users == t0.users && t.providers == t0.providers && t.models == t0.models
    && LogsAlong(t0, t, l, job)
    && t.userKeys == (if Charged(l) == 1 then UseCounted(t0.userKeys, job.key.id) else t0.userKeys)
    && MarksAlong(t0, t, l)
  }

  predicate MarksAlong(t0: Tables, t: Tables, l: Live) {
    && |l.picks| == |l.sent| >= Unsettled(l)
    && t.providerKeys == Marked(t0.providerKeys, l.picks, l.sent, |l.sent| - Unsettled(l))
  }

  /** Sending adds an attempt that is not marked yet. */
  lemma SendMarks(cfg: Config, t0: Tables, sh: Shared, l: Live, env: Env)
    requires l.pc.AtSend? && Fits(l) && MarksAlong(t0, sh.tables, l)
    ensures MarksAlong(t0, Step(cfg, sh, l, env).0.tables, Step(cfg, sh, l, env).1)
  {
    CountersMove(cfg, sh, l, env);
    PlacesStep(cfg, sh, l, env);
    RestUnchanged(cfg, sh, l, env);
    MarkedPrefix(t0.providerKeys, l.picks, l.sent, l.pc.keyId, env.outcome, |l.sent|);
  }

  lemma MarksStep(cfg: Config, t0: Tables, sh: Shared, l: Live, env: Env)
    requires !l.pc.Done? && InLoop(l.pc) && Fits(l) && MarksAlong(t0, sh.tables, l)
    ensures MarksAlong(t0, Step(cfg, sh, l, env).0.tables, Step(cfg, sh, l, env).1)
  {
    if l.pc.AtSend? {
      SendMarks(cfg, t0, sh, l, env);
    } else {
      CountersMove(cfg, sh, l, env);
      PlacesStep(cfg, sh, l, env);
      RestUnchanged(cfg, sh, l, env);
      if l.pc.AtMarkFailure? || l.pc.AtMarkUse? || l.pc.AtMarkSuccess? {
        SettledOutcome(l);
        LastOutcome(l);
      }
    }
  }

  /** The kind of entry a step writes is the kind the attempt calls for. */
  lemma EntryFits(l: Live)
    requires Fits(l) && (l.pc.AtFailLog? || l.pc.AtLog?)
    ensures |l.sent| > 0 && (Final(l.sent[|l.sent| - 1]) <==> l.pc.AtLog?)
  {
    if l.pc.AtFailLog? {
      assert l.sent[|l.sent| - 1] in l.sent;
    }
  }

  lemma LogsAlongStep(cfg: Config, t0: Tables, sh: Shared, l: Live, job: Job, env: Env)
    requires !l.pc.Done? && Fits(l) && SameJob(l, job) && LogsAlong(t0, sh.tables, l, job)
    ensures LogsAlong(t0, Step(cfg, sh, l, env).0.tables, Step(cfg, sh, l, env).1, job)
  {
    LogsStep(cfg, sh, l, env);
    PlacesMove(cfg, sh, l, env);
    RestUnchanged(cfg, sh, l, env);
    if l.pc.AtSend? {
      EntriesPrefix(l.sent, env.outcome, |l.sent|, l.rq.ip, job.key.userId);
      assert sh.tables.logs + [] == sh.tables.logs;
    } else if l.pc.AtFailLog? || l.pc.AtLog? {
      EntryFits(l);
    } else {
      assert sh.tables.logs + [] == sh.tables.logs;
    }
  }

  lemma TablesStep(cfg: Config, t0: Tables, sh: Shared, l: Live, job: Job, env: Env)
    requires !l.pc.Done? && Fits(l) && SameJob(l, job) && TablesAlong(t0, sh.tables, l, job)
    ensures TablesAlong(t0, Step(cfg, sh, l, env).0.tables, Step(cfg, sh, l, env).1, job)
  {
    MarksStep(cfg, t0, sh, l, env);
    BooksMove(cfg, sh, l, env);
    CountersMove(cfg, sh, l, env);
    PlacesStep(cfg, sh, l, env);
    LogsAlongStep(cfg, t0, sh, l, job, env);
    RestUnchanged(cfg, sh, l, env);
    if l.pc.AtMarkUse? || l.pc.AtFallback? {
      assert Charged(l) == 0;
    }
  }

  lemma RestUnchanged(cfg: Config, sh: Shared, l: Live, env: Env)
    requires !l.pc.Done?
    ensures
      var (sh', l') := Step(cfg, sh, l, env);
      && sh'.tables.users == sh.tables.users && sh'.tables.providers == sh.tables.providers
      && sh'.tables.models == sh.tables.models
      && (!l.pc.AtSend? ==> l'.picks == l.picks && l'.sent == l.sent)
      && (l.pc.AtSend? ==> l'.picks == l.picks + [l.pc.keyId] && l'.sent == l.sent + [env.outcome])
  {
  }

  lemma LastOutcome(l: Live)
    requires Fits(l) && (l.pc.AtMarkFailure? || l.pc.AtMarkUse? || l.pc.AtMarkSuccess?)
    ensures |l.sent| == |l.picks| > 0 && l.picks[|l.picks| - 1] == l.pc.keyId
    ensures Failing(l.sent[|l.sent| - 1]) <==> l.pc.AtMarkFailure?
    ensures l.pc.AtMarkUse? ==> (Succeeded(l.sent[|l.sent| - 1]) <==> Success(l.pc.status))
    ensures l.pc.AtMarkSuccess? ==> Succeeded(l.sent[|l.sent| - 1])
  {
  }

  lemma SameJobStep(cfg: Config, sh: Shared, l: Live, job: Job, env: Env)
    requires !l.pc.Done? && Fits(l) && SameJob(l, job)
    ensures SameJob(Step(cfg, sh, l, env).1, job)
  {
  }

  /** The outcomes met are the ones the world had in store. */
  predicate Foretold(l: Live, inp: Inputs) {
    && |l.sent| <= |inp.outcomes| && l.sent == inp.outcomes[..|l.sent|]
  }

  lemma ForetoldStep(cfg: Config, sh: Shared, l: Live, inp: Inputs)
    requires !l.pc.Done? && Fits(l) && Foretold(l, inp) && |inp.outcomes| >= MAX_ATTEMPTS
    ensures Foretold(Step(cfg, sh, l, EnvAt(inp, l.pc)).1, inp)
  {
    RestUnchanged(cfg, sh, l, EnvAt(inp, l.pc));
    if l.pc.AtSend? {
      var n := |l.sent|;
      assert EnvAt(inp, l.pc).outcome == inp.outcomes[n];
      assert inp.outcomes[..n + 1] == inp.outcomes[..n] + [inp.outcomes[n]];
    }
  }

  lemma {:induction false} SoloAlong(cfg: Config, t0: Tables, sh: Shared, l: Live, job: Job, inp: Inputs)
    requires |inp.outcomes| >= MAX_ATTEMPTS
    requires Fits(l) && SameJob(l, job) && Foretold(l, inp)
    requires TablesAlong(t0, sh.tables, l, job)
    ensures
      var (sh', l') := Solo(cfg, sh, l, inp);
      && Fits(l') && SameJob(l', job) && Foretold(l', inp) && l'.rq == l.rq
      && TablesAlong(t0, sh'.tables, l', job)
    decreases Rank(l.pc)
  {
    if !l.pc.Done? {
      var env := EnvAt(inp, l.pc);
      var (sh', l') := Step(cfg, sh, l, env);
      RankFalls(cfg, sh, l.rq, l.pc, env);
      StepFits(cfg, sh, l, env);
      SameJobStep(cfg, sh, l, job, env);
      ForetoldStep(cfg, sh, l, inp);
      TablesStep(cfg, t0, sh, l, job, env);
      SoloAlong(cfg, t0, sh', l', job, inp);
    }
  }

  /** A request at the top of the loop, nothing tried yet. */
  predicate Ready(l: Live, job: Job) {
    && l.pc == AtSelect(job) && job.attempted == 0 && job.last.None? && job.candidates != []
    && l.offered == |job.candidates| && l.picks == [] && l.sent == []
    && l.admitted.Some? && l.admitted.value.id == job.key.id
  }

  lemma ReadyStarts(cfg: Config, sh: Shared, l: Live, job: Job, inp: Inputs)
    requires Ready(l, job)
    ensures Fits(l) && SameJob(l, job) && Foretold(l, inp) && TablesAlong(sh.tables, sh.tables, l, job)
  {
  }

  /**
   The whole loop, declaratively: the attempts are the one completed prefix of what the world
   had in store; the answer is theirs; one log entry per attempt; provider keys are marked
   attempt by attempt; the user's key is charged once iff there is an answer; nothing else moves.
   */
  lemma FailoverAlone(cfg: Config, sh: Shared, l: Live, job: Job, inp: Inputs)
    requires Ready(l, job) && |inp.outcomes| >= MAX_ATTEMPTS
    ensures
      var (sh', l') := Solo(cfg, sh, l, inp);
      var t, t' := sh.tables, sh'.tables;
      && Foretold(l', inp) && Complete(l'.sent, |job.candidates|)
      && l'.pc == Done(AnswerTo(l'.sent))
      && |l'.picks| == |l'.sent|
      && t'.logs == t.logs + AttemptEntries(l'.sent, |l'.sent|, l.rq.ip, job.key.userId)
      && t'.providerKeys == Marked(t.providerKeys, l'.picks, l'.sent, |l'.sent|)
      && t'.userKeys == (if AnswerTo(l'.sent).Answered? then UseCounted(t.userKeys, job.key.id) else t.userKeys)
      && t'.users == t.users && t'.providers == t.providers && t'.models == t.models
  {
    ReadyStarts(cfg, sh, l, job, inp);
    SoloAlong(cfg, sh.tables, sh, l, job, inp);
    var (sh', l') := Solo(cfg, sh, l, inp);
    AtTheEnd(sh.tables, sh'.tables, l', job);
  }

  lemma AtTheEnd(t: Tables, t': Tables, l: Live, job: Job)
    requires l.pc.Done? && Fits(l) && SameJob(l, job) && TablesAlong(t, t', l, job)
    ensures Complete(l.sent, |job.candidates|) && l.pc == Done(AnswerTo(l.sent)) && |l.picks| == |l.sent|
    ensures t'.logs == t.logs + AttemptEntries(l.sent, |l.sent|, l.rq.ip, job.key.userId)
    ensures t'.providerKeys == Marked(t.providerKeys, l.picks, l.sent, |l.sent|)
    ensures t'.userKeys == if AnswerTo(l.sent).Answered? then UseCounted(t.userKeys, job.key.id) else t.userKeys
    ensures t'.users == t.users && t'.providers == t.providers && t'.models == t.models
  {
  }

  // ---- the loop in figures ----

  /**
   How many attempts are made and what is answered, by statuses: attempts go on, up to three and
   to the number of candidates, past network errors, 5xx, 401, 403 and 429, and past nothing
   else; the answer is the status of the last response met, or 502 without one.
   */
  lemma LoopInFigures(cfg: Config, sh: Shared, l: Live, job: Job, inp: Inputs)
    requires Ready(l, job) && |inp.outcomes| >= 3
    ensures
      var l', o := Solo(cfg, sh, l, inp).1, inp.outcomes;
      var n := |l'.sent|;
      && 1 <= n <= 3 && n <= |job.candidates| && l'.sent == o[..n]
      && (forall i :: 0 <= i < n - 1 ==>
            o[i].NetworkError? || 500 <= o[i].status <= 599
            || o[i].status == 401 || o[i].status == 403 || o[i].status == 429)
      && (n < 3 && n < |job.candidates| ==>
            o[n - 1].Response? && !(500 <= o[n - 1].status <= 599)
            && o[n - 1].status != 401 && o[n - 1].status != 403 && o[n - 1].status != 429)
      && (forall k :: 0 <= k < n && o[k].Response? && (forall j :: k < j < n ==> o[j].NetworkError?) ==>
            l'.pc == Done(Answered(o[k].status)))
      && ((forall j :: 0 <= j < n ==> o[j].NetworkError?) ==> l'.pc == Done(Failed(502)))
  {
    FailoverAlone(cfg, sh, l, job, inp);
    var tried := Solo(cfg, sh, l, inp).1.sent;
    assert forall i :: 0 <= i < |tried| ==> tried[i] == inp.outcomes[i];
    CompleteInFigures(tried, |job.candidates|);
    AnswersInFigures(tried);
  }

  /**
   Which first answers move on to the next key, when there is one: a 5xx, 401, 403 or 429, and
   no other; any other answer is returned, and a 2xx met second is returned then.
   */
  lemma MovesOnIff(cfg: Config, sh: Shared, l: Live, job: Job, inp: Inputs)
    requires Ready(l, job) && |inp.outcomes| >= 3 && |job.candidates| >= 2 && inp.outcomes[0].Response?
    ensures
      var l', s := Solo(cfg, sh, l, inp).1, inp.outcomes[0].status;
      && (|l'.sent| == 1 <==> !(500 <= s <= 599) && s != 401 && s != 403 && s != 429)
      && (|l'.sent| == 1 ==> l'.pc == Done(Answered(s)))
      && (|l'.sent| > 1 && inp.outcomes[1].Response? && 200 <= inp.outcomes[1].status <= 299 ==>
            |l'.sent| == 2 && l'.pc == Done(Answered(inp.outcomes[1].status)))
  {
    LoopInFigures(cfg, sh, l, job, inp);
  }

  /**
   What one answer leaves on the books: a 2xx credits its key and clears that key's failures, a
   5xx, 401, 403 or 429 counts a failure against it, anything else leaves every key as it was.
   */
  lemma MarksInFigures(keys: seq<ProviderKey>, p: string, o: Outcome, id: string)
    ensures
      var before := FindKey(keys, id);
      FindKey(MarkedOnce(keys, p, o), id)
      == if before.None? || p != id then before
         else if o.NetworkError? || 500 <= o.status <= 599 || o.status == 401 || o.status == 403 || o.status == 429 then
           Some(before.value.(failed := before.value.failed + 1))
         else if 200 <= o.status <= 299 then Some(before.value.(used := before.value.used + 1, failed := 0))
         else before
  {
    SuccessMeans(keys, p, id);
    FailureMeans(keys, p, id);
  }
}
