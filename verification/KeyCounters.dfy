/** What the provider keys' counters and the log say about the attempts made, in every concurrent run. */
module KeyCounters {
  import opened Common
  import opened Failover
  import opened Proxy
  import opened Store
  import opened StoreRuns
  import opened Concurrency
  import opened Accounting

  // ---- the history of one key ----

  /** An answer of the key's, 200 to 299. */
  predicate CreditsKey(a: Attempt, id: string) {
    a.keyId == id && a.outcome.Response? && 200 <= a.outcome.status <= 299
  }

  /** A network error, or an answer 500 to 599, 401, 403 or 429. */
  predicate FailsKey(a: Attempt, id: string) {
    && a.keyId == id
    && (a.outcome.NetworkError? || 500 <= a.outcome.status <= 599
        || a.outcome.status == 401 || a.outcome.status == 403 || a.outcome.status == 429)
  }

  function Successes(attempts: seq<Attempt>, id: string, n: nat): nat
    requires n <= |attempts|
  {
    if n == 0 then 0
    else Successes(attempts, id, n - 1) + (if CreditsKey(attempts[n - 1], id) then 1 else 0)
  }

  /** How many attempts there had been when the key last answered with a 2xx; zero if it never did. */
  function LastSuccess(attempts: seq<Attempt>, id: string, n: nat): (m: nat)
    requires n <= |attempts|
    ensures m <= n
  {
    if n == 0 then 0
    else if CreditsKey(attempts[n - 1], id) then n
    else LastSuccess(attempts, id, n - 1)
  }

  function FailuresIn(attempts: seq<Attempt>, id: string, lo: nat, hi: nat): nat
    requires lo <= hi <= |attempts|
  {
    if lo == hi then 0
    else FailuresIn(attempts, id, lo, hi - 1)
         + (if FailsKey(attempts[hi - 1], id) then 1 else 0)
  }

  lemma {:induction false} FailuresPrefix(attempts: seq<Attempt>, a: Attempt, id: string, lo: nat, hi: nat)
    requires lo <= hi <= |attempts|
    ensures FailuresIn(attempts + [a], id, lo, hi) == FailuresIn(attempts, id, lo, hi)
  {
    if lo < hi {
      FailuresPrefix(attempts, a, id, lo, hi - 1);
    }
  }

  lemma {:induction false} SuccessPrefix(attempts: seq<Attempt>, a: Attempt, id: string, n: nat)
    requires n <= |attempts|
    ensures Successes(attempts + [a], id, n) == Successes(attempts, id, n)
    ensures LastSuccess(attempts + [a], id, n) == LastSuccess(attempts, id, n)
    decreases n
  {
    if n > 0 {
      SuccessPrefix(attempts, a, id, n - 1);
    }
  }

  lemma {:induction false} NoHistory(attempts: seq<Attempt>, id: string, n: nat)
    requires n <= |attempts| && forall a :: a in attempts ==> a.keyId != id
    ensures Successes(attempts, id, n) == 0 && LastSuccess(attempts, id, n) == 0 && FailuresIn(attempts, id, 0, n) == 0
    decreases n
  {
    if n > 0 {
      NoHistory(attempts, id, n - 1);
      assert attempts[n - 1] in attempts;
    }
  }

  /** What the counters were at start-up; zero for a key added since. */
  function Base(keys0: seq<ProviderKey>, id: string): (nat, nat) {
    if keys0 == [] then (0, 0)
    else if keys0[0].id == id then (keys0[0].used, keys0[0].failed)
    else Base(keys0[1..], id)
  }

  lemma {:induction false} BaseAt(keys0: seq<ProviderKey>, i: nat)
    requires i < |keys0| && UniqueProviderKeys(keys0)
    ensures Base(keys0, keys0[i].id) == (keys0[i].used, keys0[i].failed)
  {
    if i > 0 {
      BaseAt(keys0[1..], i - 1);
    }
  }

  lemma {:induction false} BaseNone(keys0: seq<ProviderKey>, id: string)
    requires forall k :: k in keys0 ==> k.id != id
    ensures Base(keys0, id) == (0, 0)
  {
    if keys0 != [] {
      assert keys0[0] in keys0;
      BaseNone(keys0[1..], id);
    }
  }

  /** `used` counts the key's 2xx answers; `failed` its failed attempts since the last of them. */
  predicate Counts(k: ProviderKey, keys0: seq<ProviderKey>, attempts: seq<Attempt>) {
    var last := LastSuccess(attempts, k.id, |attempts|);
    && k.used == Base(keys0, k.id).0 + Successes(attempts, k.id, |attempts|)
    && k.failed == (if last == 0 then Base(keys0, k.id).1 else 0) + FailuresIn(attempts, k.id, last, |attempts|)
  }

  predicate AllCount(w: World, keys0: seq<ProviderKey>) {
    forall k :: k in w.sh.tables.providerKeys ==> Counts(k, keys0, w.attempts)
  }

  // ---- provider key ids come from the issued ones ----

  predicate LiveIssued(pc: Pc, issued: set<string>) {
    && ((pc.AtBody? || pc.AtSelect? || pc.AtSend? || pc.AtMarkFailure? || pc.AtFailLog?) ==>
          forall id :: id in pc.job.candidates ==> id in issued)
    && ((pc.AtSend? || pc.AtMarkFailure? || pc.AtMarkUse? || pc.AtMarkSuccess?) ==> pc.keyId in issued)
  }

  predicate AllIssued(w: World, keys0: seq<ProviderKey>) {
    && (forall k :: k in w.sh.tables.providerKeys ==> k.id in w.issued)
    && (forall k :: k in keys0 ==> k.id in w.issued)
    && (forall a :: a in w.attempts ==> a.keyId in w.issued)
    && (forall l :: l in w.lives ==> LiveIssued(l.pc, w.issued))
  }

  /** Candidates are ids of rows, so they were issued. */
  lemma ListedIssued(keys: seq<ProviderKey>, provider: string, issued: set<string>)
    requires forall k :: k in keys ==> k.id in issued
    ensures forall id :: id in ActiveIds(KeysOf(keys, provider)) ==> id in issued
  {
    var listed := KeysOf(keys, provider);
    assert forall id :: id in ActiveIds(listed) ==> exists k :: k in listed && k.id == id;
  }

  lemma GatesIssued(cfg: Config, sh: Shared, rq: Request, pc: Pc, env: Env, issued: set<string>)
    requires !InLoop(pc) && LiveIssued(pc, issued)
    requires forall k :: k in sh.tables.providerKeys ==> k.id in issued
    ensures LiveIssued(AdvanceGates(cfg, sh, rq, pc, env).1, issued)
  {
    if pc.AtListKeys? {
      ListedIssued(sh.tables.providerKeys, pc.provider, issued);
    }
  }

  lemma LoopIssued(cfg: Config, sh: Shared, rq: Request, pc: Pc, env: Env, issued: set<string>)
    requires InLoop(pc) && !pc.Done? && LiveIssued(pc, issued)
    ensures LiveIssued(AdvanceLoop(cfg, sh, rq, pc, env).1, issued)
  {
  }

  lemma StepIssued(cfg: Config, sh: Shared, l: Live, env: Env, issued: set<string>)
    requires !l.pc.Done? && LiveIssued(l.pc, issued)
    requires forall k :: k in sh.tables.providerKeys ==> k.id in issued
    ensures LiveIssued(Step(cfg, sh, l, env).1.pc, issued)
  {
    if InLoop(l.pc) {
      LoopIssued(cfg, sh, l.rq, l.pc, env, issued);
    } else {
      GatesIssued(cfg, sh, l.rq, l.pc, env, issued);
    }
  }

  /** Updates keep the ids of provider key rows. */
  lemma SameIds(keys: seq<ProviderKey>, id: string, issued: set<string>)
    requires forall k :: k in keys ==> k.id in issued
    ensures forall k :: k in SuccessCounted(keys, id) ==> k.id in issued
    ensures forall k :: k in FailureCounted(keys, id) ==> k.id in issued
  {
    assert forall i :: 0 <= i < |keys| ==> keys[i] in keys;
  }

  /** The provider key rows after a store operation of an administrator. */
  lemma AdminRows(db: Db, op: Op)
    requires Enabled(db, op) && !op.OpMarkSuccess? && !op.OpMarkFailure?
    ensures forall k :: k in Apply(db, op).tables.providerKeys ==>
      || k in db.tables.providerKeys
      || (op.OpAddProviderKey? && k.id == op.id && k.used == 0 && k.failed == 0)
  {
  }

  lemma RunStepIssued(cfg: Config, w: World, i: nat, env: Env, keys0: seq<ProviderKey>)
    requires Allowed(w, Run(i, env)) && Basic(w) && AllIssued(w, keys0)
    ensures AllIssued(Next(cfg, w, Run(i, env)), keys0)
  {
    var l := w.lives[i];
    assert l in w.lives;
    StepIssued(cfg, w.sh, l, env, w.issued);
    CountersMove(cfg, w.sh, l, env);
    if l.pc.AtMarkFailure? || l.pc.AtMarkSuccess? {
      SameIds(w.sh.tables.providerKeys, l.pc.keyId, w.issued);
    }
  }

  lemma StillIssued(pc: Pc, issued: set<string>, issued': set<string>)
    requires LiveIssued(pc, issued) && issued <= issued'
    ensures LiveIssued(pc, issued')
  {
  }

  lemma PerformIssued(cfg: Config, w: World, op: Op, keys0: seq<ProviderKey>)
    requires AdminOp(w, op) && AllIssued(w, keys0)
    ensures AllIssued(Next(cfg, w, Perform(op)), keys0)
  {
    var issued' := Next(cfg, w, Perform(op)).issued;
    AdminRows(DbOf(w), op);
    forall l | l in w.lives ensures LiveIssued(l.pc, issued') {
      StillIssued(l.pc, w.issued, issued');
    }
  }

  lemma NextIssued(cfg: Config, w: World, e: Event, keys0: seq<ProviderKey>)
    requires Allowed(w, e) && Basic(w) && AllIssued(w, keys0)
    ensures AllIssued(Next(cfg, w, e), keys0)
  {
    match e
    case Arrive(_) =>
    case Run(i, env) => RunStepIssued(cfg, w, i, env, keys0);
    case Perform(op) => PerformIssued(cfg, w, op, keys0);
  }

  // ---- the counters ----

  lemma CountsSettle(k: ProviderKey, keys0: seq<ProviderKey>, attempts: seq<Attempt>, a: Attempt)
    requires Counts(k, keys0, attempts)
    ensures a.keyId != k.id || (!Failing(a.outcome) && !Succeeded(a.outcome)) ==> Counts(k, keys0, attempts + [a])
    ensures a.keyId == k.id && Failing(a.outcome) ==> Counts(k.(failed := k.failed + 1), keys0, attempts + [a])
    ensures a.keyId == k.id && Succeeded(a.outcome) ==>
      Counts(k.(used := k.used + 1, failed := 0), keys0, attempts + [a])
  {
    var n := |attempts|;
    SuccessPrefix(attempts, a, k.id, n);
    FailuresPrefix(attempts, a, k.id, LastSuccess(attempts, k.id, n), n);
    assert (attempts + [a])[n] == a;
    if a.outcome.Response? {
      SuccessIsFinal(a.outcome.status);
    }
  }

  /** The rows as written by the step that settles an attempt. */
  function RowsAfter(keys: seq<ProviderKey>, a: Attempt): seq<ProviderKey> {
    if Failing(a.outcome) then FailureCounted(keys, a.keyId)
    else if Succeeded(a.outcome) then SuccessCounted(keys, a.keyId)
    else keys
  }

  lemma RowsSettle(keys: seq<ProviderKey>, keys0: seq<ProviderKey>, attempts: seq<Attempt>, a: Attempt)
    requires forall k :: k in keys ==> Counts(k, keys0, attempts)
    ensures forall k :: k in RowsAfter(keys, a) ==> Counts(k, keys0, attempts + [a])
  {
    var keys' := RowsAfter(keys, a);
    forall k' | k' in keys' ensures Counts(k', keys0, attempts + [a]) {
      var j :| 0 <= j < |keys'| && keys'[j] == k';
      assert keys[j] in keys;
      CountsSettle(keys[j], keys0, attempts, a);
    }
  }

  /** The outcome written down is of the kind the step writes. */
  lemma SettledOutcome(l: Live)
    requires Fits(l)
    ensures l.pc.AtMarkFailure? ==>
      SettledBy(l) == [Attempt(l.pc.keyId, l.sent[|l.sent| - 1])] && Failing(l.sent[|l.sent| - 1])
    ensures l.pc.AtMarkSuccess? ==> SettledBy(l) == [Attempt(l.pc.keyId, Response(l.pc.status))] && Success(l.pc.status)
    ensures l.pc.AtMarkUse? && SettledBy(l) != [] ==>
      !Failing(SettledBy(l)[0].outcome) && !Succeeded(SettledBy(l)[0].outcome)
    ensures l.pc.AtMarkSuccess? ==> !Failing(SettledBy(l)[0].outcome)
  {
  }

  /** A step writes the provider key rows exactly as the attempt it settles, if any, calls for. */
  lemma StepSettles(cfg: Config, sh: Shared, l: Live, env: Env)
    requires !l.pc.Done? && Fits(l)
    ensures |SettledBy(l)| <= 1
    ensures Step(cfg, sh, l, env).0.tables.providerKeys
         == if SettledBy(l) == [] then sh.tables.providerKeys else RowsAfter(sh.tables.providerKeys, SettledBy(l)[0])
  {
    CountersMove(cfg, sh, l, env);
    SettledOutcome(l);
  }

  lemma SettleStep(cfg: Config, w: World, i: nat, env: Env, keys0: seq<ProviderKey>)
    requires Allowed(w, Run(i, env)) && Basic(w) && AllCount(w, keys0)
    ensures AllCount(Next(cfg, w, Run(i, env)), keys0)
  {
    var l := w.lives[i];
    assert l in w.lives && LiveSound(w.sh.tables, l);
    StepSettles(cfg, w.sh, l, env);
    if SettledBy(l) == [] {
      assert w.attempts + SettledBy(l) == w.attempts;
    } else {
      assert SettledBy(l) == [SettledBy(l)[0]];
      RowsSettle(w.sh.tables.providerKeys, keys0, w.attempts, SettledBy(l)[0]);
    }
  }

  lemma NextCounts(cfg: Config, w: World, e: Event, keys0: seq<ProviderKey>)
    requires Allowed(w, e) && Basic(w) && AllIssued(w, keys0) && AllCount(w, keys0)
    ensures AllCount(Next(cfg, w, e), keys0)
  {
    match e
    case Arrive(_) =>
    case Run(i, env) => SettleStep(cfg, w, i, env, keys0);
    case Perform(op) =>
      AdminRows(DbOf(w), op);
      if op.OpAddProviderKey? {
        NoHistory(w.attempts, op.id, |w.attempts|);
        BaseNone(keys0, op.id);
      }
  }

  /**
   In every reachable world each provider key's `used` counts exactly its 2xx answers and its
   `failed` exactly its failed attempts since the latest of them.  Other answers, final but not
   2xx, change neither; deleting and re-adding keys disturbs no other key.
   */
  lemma {:induction false} KeyCountersExact(cfg: Config, ws: seq<World>, events: seq<Event>, n: nat)
    requires IsRun(cfg, ws, events) && n <= |events|
    ensures AllIssued(ws[n], ws[0].sh.tables.providerKeys) && AllCount(ws[n], ws[0].sh.tables.providerKeys)
    decreases n
  {
    var keys0 := ws[0].sh.tables.providerKeys;
    if n > 0 {
      KeyCountersExact(cfg, ws, events, n - 1);
      RunBasic(cfg, ws, events, n - 1);
      assert Follows(cfg, ws, events, n - 1);
      NextIssued(cfg, ws[n - 1], events[n - 1], keys0);
      NextCounts(cfg, ws[n - 1], events[n - 1], keys0);
    } else {
      forall k | k in keys0 ensures Counts(k, keys0, []) {
        var i :| 0 <= i < |keys0| && keys0[i] == k;
        BaseAt(keys0, i);
      }
    }
  }

  // ---- every attempt is accounted for and logged once ----

  function Sent(l: Live): nat { |l.sent| }

  function Unsettled(l: Live): nat {
    if l.pc.AtMarkFailure? || l.pc.AtMarkUse? || l.pc.AtMarkSuccess? then 1 else 0
  }

  function Unlogged(l: Live): nat {
    if l.pc.AtMarkFailure? || l.pc.AtFailLog? || l.pc.AtMarkUse? || l.pc.AtMarkSuccess? || l.pc.AtLog? then 1 else 0
  }

  /** Log entries about attempts. */
  function AttemptLogs(logs: seq<LogEntry>): nat {
    if logs == [] then 0
    else AttemptLogs(logs[..|logs| - 1])
         + (if logs[|logs| - 1].kind.Request? || logs[|logs| - 1].kind.RequestFail? then 1 else 0)
  }

  predicate Ledger(w: World, logs0: nat) {
    && |w.attempts| + Sum(w.lives, Unsettled) == Sum(w.lives, Sent)
    && AttemptLogs(w.sh.tables.logs) + Sum(w.lives, Unlogged) == logs0 + Sum(w.lives, Sent)
  }

  lemma AttemptLogsAppend(logs: seq<LogEntry>, e: LogEntry)
    ensures AttemptLogs(logs + [e]) == AttemptLogs(logs) + (if e.kind.Request? || e.kind.RequestFail? then 1 else 0)
  {
    assert (logs + [e])[..|logs|] == logs;
  }

  function LogsOf(l: Live): seq<LogEntry> {
    match l.pc
    case AtBotLog => [LogEntry(BotBlock, Some(l.rq.ip), None)]
    case AtFailLog(job) => [LogEntry(RequestFail, Some(l.rq.ip), Some(job.key.userId))]
    case AtLog(job, _) => [LogEntry(LogKind.Request, Some(l.rq.ip), Some(job.key.userId))]
    case _ => []
  }

  lemma LogsStep(cfg: Config, sh: Shared, l: Live, env: Env)
    requires !l.pc.Done?
    ensures Step(cfg, sh, l, env).0.tables.logs == sh.tables.logs + LogsOf(l)
  {
  }

  /** Whether the step from here settles an attempt. */
  function Settles(pc: Pc): nat {
    if pc.AtMarkFailure? || pc.AtMarkSuccess? || (pc.AtMarkUse? && !Success(pc.status)) then 1 else 0
  }

  lemma SettledCount(l: Live)
    requires Fits(l)
    ensures |SettledBy(l)| == Settles(l.pc)
  {
  }

  lemma PlacesMove(cfg: Config, sh: Shared, l: Live, env: Env)
    requires !l.pc.Done?
    ensures
      var l' := Step(cfg, sh, l, env).1;
      && Sent(l') == Sent(l) + (if l.pc.AtSend? then 1 else 0)
      && Settles(l.pc) + Unsettled(l') == Unsettled(l) + (if l.pc.AtSend? then 1 else 0)
      && Unlogged(l') + (if l.pc.AtFailLog? || l.pc.AtLog? then 1 else 0)
         == Unlogged(l) + (if l.pc.AtSend? then 1 else 0)
  {
  }

  /** Where a step leaves a request in the ledger. */
  lemma PlacesStep(cfg: Config, sh: Shared, l: Live, env: Env)
    requires !l.pc.Done? && Fits(l)
    ensures
      var l' := Step(cfg, sh, l, env).1;
      && Sent(l') == Sent(l) + (if l.pc.AtSend? then 1 else 0)
      && |SettledBy(l)| + Unsettled(l') == Unsettled(l) + (if l.pc.AtSend? then 1 else 0)
      && Unlogged(l') + (if l.pc.AtFailLog? || l.pc.AtLog? then 1 else 0)
         == Unlogged(l) + (if l.pc.AtSend? then 1 else 0)
  {
    SettledCount(l);
    PlacesMove(cfg, sh, l, env);
  }

  lemma StepLedger(cfg: Config, sh: Shared, l: Live, env: Env)
    requires !l.pc.Done? && Fits(l)
    ensures
      var (sh', l') := Step(cfg, sh, l, env);
      && |SettledBy(l)| + Unsettled(l') + Sent(l) == Unsettled(l) + Sent(l')
      && AttemptLogs(sh'.tables.logs) + Unlogged(l') + Sent(l) == AttemptLogs(sh.tables.logs) + Unlogged(l) + Sent(l')
  {
    PlacesStep(cfg, sh, l, env);
    LogsStep(cfg, sh, l, env);
    if LogsOf(l) == [] {
      assert sh.tables.logs + [] == sh.tables.logs;
    } else {
      assert LogsOf(l) == [LogsOf(l)[0]];
      AttemptLogsAppend(sh.tables.logs, LogsOf(l)[0]);
    }
  }

  lemma AdminLogs(db: Db, op: Op)
    requires Enabled(db, op)
    ensures Apply(db, op).tables.logs == if op.OpLog? then db.tables.logs + [op.entry] else db.tables.logs
  {
  }

  lemma NextLedger(cfg: Config, w: World, e: Event, logs0: nat)
    requires Allowed(w, e) && Basic(w) && Ledger(w, logs0)
    ensures Ledger(Next(cfg, w, e), logs0)
  {
    match e
    case Arrive(rq) =>
      SumAppend(w.lives, Arrived(rq), Unsettled);
      SumAppend(w.lives, Arrived(rq), Unlogged);
      SumAppend(w.lives, Arrived(rq), Sent);
    case Run(i, env) =>
      var l, l' := w.lives[i], Step(cfg, w.sh, w.lives[i], env).1;
      assert l in w.lives && LiveSound(w.sh.tables, l);
      StepLedger(cfg, w.sh, l, env);
      SumUpdate(w.lives, i, l', Unsettled);
      SumUpdate(w.lives, i, l', Unlogged);
      SumUpdate(w.lives, i, l', Sent);
    case Perform(op) =>
      AdminLogs(DbOf(w), op);
      if op.OpLog? {
        AttemptLogsAppend(w.sh.tables.logs, op.entry);
      }
  }

  lemma InitialLedger(w: World)
    requires w.lives == [] && w.attempts == []
    ensures Ledger(w, AttemptLogs(w.sh.tables.logs))
  {
  }

  /** In every reachable world each attempt made is accounted for once and logged once, or about to be. */
  lemma {:induction false} RunLedger(cfg: Config, ws: seq<World>, events: seq<Event>, n: nat)
    requires IsRun(cfg, ws, events) && n <= |events|
    ensures Ledger(ws[n], AttemptLogs(ws[0].sh.tables.logs))
    decreases n
  {
    if n == 0 {
      InitialLedger(ws[0]);
    } else {
      RunLedger(cfg, ws, events, n - 1);
      RunBasic(cfg, ws, events, n - 1);
      assert Follows(cfg, ws, events, n - 1);
      NextLedger(cfg, ws[n - 1], events[n - 1], AttemptLogs(ws[0].sh.tables.logs));
    }
  }
}
