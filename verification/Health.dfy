/**
 Background health checking (rust-core/src/health.rs): a failure counter per provider name,
 kept by the checker, against the status and health columns of rows that administrators add
 and delete meanwhile.  A probe writes once or twice, and each write is a database call of its
 own, so anything else may happen between the two.
 */
module Health {
  import opened Common
  import opened Store
  import opened StoreRows
  import opened StoreRuns

  const THRESHOLD: nat := 3

  function HealthAfter(failures: nat): int {
    Max(0, 100 - 20 * failures)
  }

  /** `pending` is the write that a probe still has to make. */
  datatype State = State(failures: map<string, nat>, pending: Option<Op>, db: Db)

  datatype Event =
    | Begin(name: string, reachable: bool)  // the counter and the first write of a probe
    | Finish                                // its second write, if it has one
    | Other(op: Op)                         // a database call of anybody else

  function FailureCount(failures: map<string, nat>, name: string): nat {
    if name in failures then failures[name] else 0
  }

  function FirstWrite(name: string, reachable: bool, count: nat): Op {
    if reachable then OpSetStatus(name, Active) else OpSetHealth(name, HealthAfter(count))
  }

  function SecondWrite(name: string, reachable: bool, count: nat): Option<Op> {
    if reachable then Some(OpSetHealth(name, 100))
    else if count >= THRESHOLD then Some(OpSetStatus(name, Inactive))
    else None
  }

  predicate Writes(op: Op) {
    op.OpSetStatus? || op.OpSetHealth?
  }

  /** Only the checker writes status and health, and it is done with one probe before it begins the next. */
  predicate Allowed(s: State, e: Event) {
    match e
    case Begin(_, _) => s.pending.None?
    case Finish => s.pending.Some? && Writes(s.pending.value)
    case Other(op) => Enabled(s.db, op) && !Writes(op)
  }

  function Next(s: State, e: Event): State
    requires Allowed(s, e)
  {
    match e
    case Begin(name, reachable) =>
      var count := if reachable then 0 else FailureCount(s.failures, name) + 1;
      State(s.failures[name := count], SecondWrite(name, reachable, count),
            Apply(s.db, FirstWrite(name, reachable, count)))
    case Finish => State(s.failures, None, Apply(s.db, s.pending.value))
    case Other(op) => s.(db := Apply(s.db, op))
  }

  predicate Follows(ss: seq<State>, es: seq<Event>, n: nat)
    requires n < |es| && |ss| == |es| + 1
  {
    Allowed(ss[n], es[n]) && ss[n + 1] == Next(ss[n], es[n])
  }

  /** A checker starts with nothing on record, whatever the table says. */
  predicate IsRun(ss: seq<State>, es: seq<Event>) {
    && |ss| == |es| + 1 && ss[0].failures == map[] && ss[0].pending.None?
    && forall n :: 0 <= n < |es| ==> Follows(ss, es, n)
  }

  // ---- the history of one name ----

  function Row(s: State, name: string): Option<Provider> {
    FindProvider(s.db.tables.providers, name)
  }

  predicate Probes(e: Event, name: string) {
    e.Begin? && e.name == name
  }

  /** An insert of the name that goes through. */
  predicate Inserts(s: State, e: Event, name: string) {
    && e.Other? && e.op.OpAddProvider? && e.op.name == name
    && ProviderAdded(s.db.tables, e.op.id, name, e.op.url).1.Ok?
  }

  /** How many events there had been when the name was last probed; zero if it never was. */
  function LastProbe(es: seq<Event>, name: string, n: nat): (m: nat)
    requires n <= |es|
    ensures m <= n && (m > 0 ==> Probes(es[m - 1], name))
    ensures forall k :: m <= k < n ==> !Probes(es[k], name)
  {
    if n == 0 then 0 else if Probes(es[n - 1], name) then n else LastProbe(es, name, n - 1)
  }

  /** How many when it was last probed with success. */
  function LastUp(es: seq<Event>, name: string, n: nat): (m: nat)
    requires n <= |es|
    ensures m <= LastProbe(es, name, n)
  {
    if n == 0 then 0 else if es[n - 1] == Begin(name, true) then n else LastUp(es, name, n - 1)
  }

  /** How many when a row of that name was last inserted. */
  function LastInsert(ss: seq<State>, es: seq<Event>, name: string, n: nat): (m: nat)
    requires |ss| == |es| + 1 && n <= |es|
    ensures m <= n && (m > 0 ==> Inserts(ss[m - 1], es[m - 1], name))
  {
    if n == 0 then 0 else if Inserts(ss[n - 1], es[n - 1], name) then n else LastInsert(ss, es, name, n - 1)
  }

  function FailedProbes(es: seq<Event>, name: string, lo: nat, hi: nat): nat
    requires lo <= hi <= |es|
  {
    if lo == hi then 0
    else FailedProbes(es, name, lo, hi - 1) + (if es[hi - 1] == Begin(name, false) then 1 else 0)
  }

  /** Failed probes of the name since its last successful one. */
  function Streak(es: seq<Event>, name: string, n: nat): nat
    requires n <= |es|
  {
    FailedProbes(es, name, LastUp(es, name, n), n)
  }

  predicate NoFinish(es: seq<Event>, lo: nat, hi: nat)
    requires hi <= |es|
  {
    forall k :: lo <= k < hi ==> !es[k].Finish?
  }

  /** The row was inserted between the two writes of its name's latest probe, a third or later failure in a row. */
  predicate Torn(ss: seq<State>, es: seq<Event>, name: string, n: nat)
    requires |ss| == |es| + 1 && n <= |es|
  {
    var probed, inserted := LastProbe(es, name, n), LastInsert(ss, es, name, n);
    0 < probed < inserted && Streak(es, name, n) >= 3 && NoFinish(es, probed, inserted)
  }

  predicate HalfWritten(s: State, name: string) {
    s.pending.Some? && Writes(s.pending.value) && s.pending.value.name == name
  }

  datatype Columns = Columns(status: Status, health: int)

  function ColumnsOf(p: Provider): Columns {
    Columns(p.status, p.health)
  }

  /** The columns a row of the name started with: as inserted, or as found in the table by the checker. */
  function Origin(ss: seq<State>, es: seq<Event>, name: string, n: nat): Columns
    requires |ss| == |es| + 1 && n <= |es|
  {
    if LastInsert(ss, es, name, n) == 0 && Row(ss[0], name).Some? then ColumnsOf(Row(ss[0], name).value)
    else Columns(Active, 100)
  }

  /**
   The columns the probe history calls for: those the row started with until it is probed; from
   then on 100 less 20 for each failure in the run, inactive from the third, else active once a
   probe of the row has succeeded.
   */
  function Expected(ss: seq<State>, es: seq<Event>, name: string, n: nat): Columns
    requires |ss| == |es| + 1 && n <= |es|
  {
    var origin, inserted, streak := Origin(ss, es, name, n), LastInsert(ss, es, name, n), Streak(es, name, n);
    if LastProbe(es, name, n) <= inserted then origin
    else
      Columns(if streak >= 3 then Inactive
              else if LastUp(es, name, n) > inserted then Active
              else origin.status,
              if streak >= 5 then 0 else 100 - 20 * streak)
  }

  // ---- one event ----

  /** The counter is the length of the trailing run of failures, across deletions and re-additions of the name. */
  lemma {:induction false} CounterIsStreak(ss: seq<State>, es: seq<Event>, name: string, n: nat)
    requires IsRun(ss, es) && n <= |es|
    ensures FailureCount(ss[n].failures, name) == Streak(es, name, n)
    decreases n
  {
    if n > 0 {
      CounterIsStreak(ss, es, name, n - 1);
      assert Follows(ss, es, n - 1);
    }
  }

  /** What the checker's own writes do to a row. */
  lemma WriteRow(db: Db, op: Op, name: string)
    requires Writes(op)
    ensures FindProvider(Apply(db, op).tables.providers, name)
         == match FindProvider(db.tables.providers, name)
            case None => None
            case Some(p) => Some(if op.name != name then p
                                 else if op.OpSetStatus? then p.(status := op.status) else p.(health := op.health))
  {
    match op
    case OpSetStatus(m, status) => FindStatusSet(db.tables.providers, m, status, name);
    case OpSetHealth(m, health) => FindHealthSet(db.tables.providers, m, health, name);
  }

  /** What anybody else's call does to a row. */
  lemma OtherRow(s: State, op: Op, name: string)
    requires Enabled(s.db, op) && !Writes(op)
    ensures FindProvider(Apply(s.db, op).tables.providers, name)
         == if op == OpDeleteProvider(name) then None
            else if Inserts(s, Other(op), name) then Some(Provider(op.id, name, op.url, Active, 100))
            else Row(s, name)
  {
    match op
    case OpAddProvider(id, m, url) => FindAppended(s.db.tables.providers, Provider(id, m, url, Active, 100), name);
    case OpDeleteProvider(m) => FindRemaining(s.db.tables.providers, m, name);
    case _ =>
  }

  // ---- the invariant ----

  /** Between its two writes a probe has done the first, to the row that was there. */
  predicate Between(ss: seq<State>, es: seq<Event>, name: string, n: nat, row: Provider, op: Op)
    requires |ss| == |es| + 1 && n <= |es|
  {
    if op.OpSetHealth? then row.status.Active?
    else if LastInsert(ss, es, name, n) > LastProbe(es, name, n) then ColumnsOf(row) == Columns(Active, 100)
    else row.health == var streak := Streak(es, name, n); if streak >= 5 then 0 else 100 - 20 * streak
  }

  predicate OwedFits(es: seq<Event>, name: string, n: nat, op: Op)
    requires n <= |es|
  {
    && (|| (op == OpSetHealth(name, 100) && Streak(es, name, n) == 0 && LastUp(es, name, n) == LastProbe(es, name, n))
        || (op == OpSetStatus(name, Inactive) && Streak(es, name, n) >= 3))
    && LastProbe(es, name, n) > 0 && NoFinish(es, LastProbe(es, name, n), n)
  }

  predicate Fits(ss: seq<State>, es: seq<Event>, name: string, n: nat)
    requires |ss| == |es| + 1 && n <= |es|
  {
    var s, row := ss[n], Row(ss[n], name);
    if HalfWritten(s, name) then
      OwedFits(es, name, n, s.pending.value) && (row.Some? ==> Between(ss, es, name, n, row.value, s.pending.value))
    else
      && (Streak(es, name, n) >= 3 ==> !NoFinish(es, LastProbe(es, name, n), n))
      && (row.Some? ==>
            ColumnsOf(row.value) == if Torn(ss, es, name, n) then Columns(Inactive, 100) else Expected(ss, es, name, n))
  }

  /** An event that neither probes nor inserts the name leaves its history as it is. */
  lemma SameHistory(ss: seq<State>, es: seq<Event>, name: string, n: nat)
    requires |ss| == |es| + 1 && n < |es| && !Probes(es[n], name) && !Inserts(ss[n], es[n], name)
    ensures LastProbe(es, name, n + 1) == LastProbe(es, name, n) && LastUp(es, name, n + 1) == LastUp(es, name, n)
    ensures LastInsert(ss, es, name, n + 1) == LastInsert(ss, es, name, n)
    ensures Streak(es, name, n + 1) == Streak(es, name, n)
    ensures Torn(ss, es, name, n + 1) == Torn(ss, es, name, n)
    ensures Expected(ss, es, name, n + 1) == Expected(ss, es, name, n)
  {
  }

  lemma ProbeHistory(ss: seq<State>, es: seq<Event>, name: string, n: nat)
    requires |ss| == |es| + 1 && n < |es| && Probes(es[n], name)
    ensures LastProbe(es, name, n + 1) == n + 1 && LastInsert(ss, es, name, n + 1) == LastInsert(ss, es, name, n)
    ensures LastUp(es, name, n + 1) == if es[n].reachable then n + 1 else LastUp(es, name, n)
    ensures Streak(es, name, n + 1) == if es[n].reachable then 0 else Streak(es, name, n) + 1
    ensures !Torn(ss, es, name, n + 1)
  {
  }

  lemma InsertHistory(ss: seq<State>, es: seq<Event>, name: string, n: nat)
    requires |ss| == |es| + 1 && n < |es| && Inserts(ss[n], es[n], name)
    ensures LastProbe(es, name, n + 1) == LastProbe(es, name, n) && LastInsert(ss, es, name, n + 1) == n + 1
    ensures Streak(es, name, n + 1) == Streak(es, name, n)
    ensures Torn(ss, es, name, n + 1) <==> Streak(es, name, n) >= 3 && 0 < LastProbe(es, name, n)
                                           && NoFinish(es, LastProbe(es, name, n), n)
    ensures Expected(ss, es, name, n + 1) == Columns(Active, 100)
  {
    assert NoFinish(es, LastProbe(es, name, n), n + 1) <==> NoFinish(es, LastProbe(es, name, n), n);
  }

  lemma UpFits(ss: seq<State>, es: seq<Event>, name: string, n: nat)
    requires IsRun(ss, es) && n < |es| && es[n] == Begin(name, true)
    ensures Fits(ss, es, name, n + 1)
  {
    assert Follows(ss, es, n);
    ProbeHistory(ss, es, name, n);
    WriteRow(ss[n].db, OpSetStatus(name, Active), name);
  }

  /** The counter and the health that a failed probe writes. */
  lemma DownRow(ss: seq<State>, es: seq<Event>, name: string, n: nat)
    requires IsRun(ss, es) && n < |es| && es[n] == Begin(name, false)
    ensures
      var count := Streak(es, name, n) + 1;
      && ss[n + 1].pending == (if count >= THRESHOLD then Some(OpSetStatus(name, Inactive)) else None)
      && Row(ss[n + 1], name) == (match Row(ss[n], name)
                                  case None => None
                                  case Some(p) => Some(p.(health := HealthAfter(count))))
      && ss[n].pending.None?
  {
    assert Follows(ss, es, n);
    CounterIsStreak(ss, es, name, n);
    WriteRow(ss[n].db, OpSetHealth(name, HealthAfter(Streak(es, name, n) + 1)), name);
  }

  lemma DownFits(ss: seq<State>, es: seq<Event>, name: string, n: nat)
    requires IsRun(ss, es) && n < |es| && es[n] == Begin(name, false) && Fits(ss, es, name, n)
    ensures Fits(ss, es, name, n + 1)
  {
    DownRow(ss, es, name, n);
    ProbeHistory(ss, es, name, n);
  }

  lemma ElsewhereFits(ss: seq<State>, es: seq<Event>, name: string, n: nat)
    requires IsRun(ss, es) && n < |es| && es[n].Begin? && es[n].name != name && Fits(ss, es, name, n)
    ensures Fits(ss, es, name, n + 1)
  {
    assert Follows(ss, es, n);
    SameHistory(ss, es, name, n);
    var count := if es[n].reachable then 0 else FailureCount(ss[n].failures, es[n].name) + 1;
    WriteRow(ss[n].db, FirstWrite(es[n].name, es[n].reachable, count), name);
    assert Row(ss[n + 1], name) == Row(ss[n], name);
  }

  lemma FinishFits(ss: seq<State>, es: seq<Event>, name: string, n: nat)
    requires IsRun(ss, es) && n < |es| && es[n].Finish? && Fits(ss, es, name, n)
    ensures Fits(ss, es, name, n + 1)
  {
    assert Follows(ss, es, n);
    SameHistory(ss, es, name, n);
    WriteRow(ss[n].db, ss[n].pending.value, name);
    assert !NoFinish(es, LastProbe(es, name, n), n + 1);
  }

  lemma InsertFits(ss: seq<State>, es: seq<Event>, name: string, n: nat)
    requires IsRun(ss, es) && n < |es| && Inserts(ss[n], es[n], name) && Fits(ss, es, name, n)
    ensures Fits(ss, es, name, n + 1)
  {
    assert Follows(ss, es, n);
    InsertHistory(ss, es, name, n);
    OtherRow(ss[n], es[n].op, name);
  }

  lemma OtherFits(ss: seq<State>, es: seq<Event>, name: string, n: nat)
    requires IsRun(ss, es) && n < |es| && es[n].Other? && !Inserts(ss[n], es[n], name) && Fits(ss, es, name, n)
    ensures Fits(ss, es, name, n + 1)
  {
    assert Follows(ss, es, n);
    SameHistory(ss, es, name, n);
    OtherRow(ss[n], es[n].op, name);
  }

  lemma {:induction false} RunFits(ss: seq<State>, es: seq<Event>, name: string, n: nat)
    requires IsRun(ss, es) && n <= |es|
    ensures Fits(ss, es, name, n)
    decreases n
  {
    if n > 0 {
      RunFits(ss, es, name, n - 1);
      var e := es[n - 1];
      if Inserts(ss[n - 1], e, name) {
        InsertFits(ss, es, name, n - 1);
      } else if e.Other? {
        OtherFits(ss, es, name, n - 1);
      } else if e.Finish? {
        FinishFits(ss, es, name, n - 1);
      } else if e.name != name {
        ElsewhereFits(ss, es, name, n - 1);
      } else if e.reachable {
        UpFits(ss, es, name, n - 1);
      } else {
        DownFits(ss, es, name, n - 1);
      }
    } else {
      assert LastProbe(es, name, 0) == 0 && LastInsert(ss, es, name, 0) == 0;
    }
  }

  // ---- the theorems ----

  /**
   The row refines the probe history: in every state of every run, from any table, in which no
   probe of the name is half written, a row has the columns its history calls for iff it was not
   inserted between the two writes of its name's latest probe, that being a third failure in a
   row or a later one; such a row is inactive with health 100.
   */
  lemma RowExpectedIff(ss: seq<State>, es: seq<Event>, name: string, n: nat)
    requires IsRun(ss, es) && n <= |es| && !HalfWritten(ss[n], name) && Row(ss[n], name).Some?
    ensures
      var row := Row(ss[n], name).value;
      && (ColumnsOf(row) == Expected(ss, es, name, n) <==> !Torn(ss, es, name, n))
      && (Torn(ss, es, name, n) ==> ColumnsOf(row) == Columns(Inactive, 100))
  {
    RunFits(ss, es, name, n);
  }

  lemma Extended(ss: seq<State>, es: seq<Event>, e: Event) returns (ss': seq<State>)
    requires IsRun(ss, es) && Allowed(ss[|es|], e)
    ensures ss' == ss + [Next(ss[|es|], e)] && IsRun(ss', es + [e])
  {
    ss' := ss + [Next(ss[|es|], e)];
    forall n | 0 <= n < |es| + 1 ensures Follows(ss', es + [e], n) {
      if n < |es| {
        assert Follows(ss, es, n);
      }
    }
  }

  /** A row of the name, and an id no provider has. */
  predicate Present(s: State, name: string, id: string) {
    Row(s, name).Some? && !ProviderWithId(s.db.tables, id)
  }

  lemma DownKeepsPresent(s: State, name: string, id: string)
    requires s.pending.None? && Present(s, name, id)
    ensures Present(Next(s, Begin(name, false)), name, id)
  {
    var health := HealthAfter(FailureCount(s.failures, name) + 1);
    WriteRow(s.db, OpSetHealth(name, health), name);
    NoNewIds(s.db.tables.providers, name, health, id);
  }

  lemma NoNewIds(ps: seq<Provider>, name: string, health: int, id: string)
    requires forall p :: p in ps ==> p.id != id
    ensures forall p :: p in HealthSet(ps, name, health) ==> p.id != id
  {
    assert forall i :: 0 <= i < |ps| ==> ps[i] in ps;
  }

  lemma Down(ss: seq<State>, es: seq<Event>, name: string, id: string) returns (ss': seq<State>, es': seq<Event>)
    requires IsRun(ss, es) && ss[|es|].pending.None? && Present(ss[|es|], name, id)
    ensures IsRun(ss', es') && es' == es + [Begin(name, false)] && ss'[..|ss|] == ss && Present(ss'[|ss|], name, id)
    ensures
      var count := FailureCount(ss[|es|].failures, name) + 1;
      && FailureCount(ss'[|ss|].failures, name) == count
      && ss'[|ss|].pending == if count >= THRESHOLD then Some(OpSetStatus(name, Inactive)) else None
  {
    ss' := Extended(ss, es, Begin(name, false));
    es' := es + [Begin(name, false)];
    DownKeepsPresent(ss[|es|], name, id);
  }

  lemma ThreeDowns(s0: State, name: string, id: string) returns (ss: seq<State>, es: seq<Event>)
    requires s0.failures == map[] && s0.pending.None? && Present(s0, name, id)
    ensures IsRun(ss, es) && es == [Begin(name, false), Begin(name, false), Begin(name, false)]
    ensures ss[0] == s0 && Present(ss[3], name, id) && ss[3].pending == Some(OpSetStatus(name, Inactive))
  {
    ss, es := Down([s0], [], name, id);
    ss, es := Down(ss, es, name, id);
    ss, es := Down(ss, es, name, id);
  }

  lemma ReAdd(ss: seq<State>, es: seq<Event>, name: string, id: string, url: string) returns (ss': seq<State>)
    requires IsRun(ss, es) && Present(ss[|es|], name, id)
    ensures IsRun(ss', es + [Other(OpDeleteProvider(name)), Other(OpAddProvider(id, name, url))])
    ensures ss'[..|ss|] == ss && Inserts(ss'[|ss|], Other(OpAddProvider(id, name, url)), name)
    ensures Row(ss'[|ss| + 1], name).Some? && ss'[|ss| + 1].pending == ss[|es|].pending
  {
    var delete, add := Other(OpDeleteProvider(name)), Other(OpAddProvider(id, name, url));
    OtherRow(ss[|es|], delete.op, name);
    var ss1 := Extended(ss, es, delete);
    OtherRow(ss1[|ss|], add.op, name);
    ss' := Extended(ss1, es + [delete], add);
    assert es + [delete] + [add] == es + [delete, add];
  }

  lemma Finished(ss: seq<State>, es: seq<Event>, name: string) returns (ss': seq<State>)
    requires IsRun(ss, es) && ss[|es|].pending == Some(OpSetStatus(name, Inactive)) && Row(ss[|es|], name).Some?
    ensures IsRun(ss', es + [Finish]) && ss'[..|ss|] == ss && ss'[|ss|].pending.None? && Row(ss'[|ss|], name).Some?
  {
    WriteRow(ss[|es|].db, OpSetStatus(name, Inactive), name);
    ss' := Extended(ss, es, Finish);
  }

  /** The failing family is there: any row can end up so, if its provider is re-added at that moment. */
  lemma TornHappens(s0: State, name: string, id: string, url: string) returns (ss: seq<State>, es: seq<Event>)
    requires s0.failures == map[] && s0.pending.None? && Present(s0, name, id)
    ensures IsRun(ss, es) && ss[0] == s0 && !HalfWritten(ss[|es|], name)
    ensures Row(ss[|es|], name).Some? && Torn(ss, es, name, |es|)
  {
    var ss3, es3 := ThreeDowns(s0, name, id);
    var ss5 := ReAdd(ss3, es3, name, id, url);
    var es5 := es3 + [Other(OpDeleteProvider(name)), Other(OpAddProvider(id, name, url))];
    ss := Finished(ss5, es5, name);
    es := es5 + [Finish];
    assert ss[4] == ss5[4] && ss[0] == ss5[0] == ss3[0];
    TornRun(ss, es, name);
  }

  lemma TornRun(ss: seq<State>, es: seq<Event>, name: string)
    requires |ss| == 7 && |es| == 6
    requires es[0] == es[1] == es[2] == Begin(name, false) && es[3] == Other(OpDeleteProvider(name))
    requires Inserts(ss[4], es[4], name) && es[5].Finish?
    ensures Torn(ss, es, name, 6)
  {
    ProbeHistory(ss, es, name, 0);
    ProbeHistory(ss, es, name, 1);
    ProbeHistory(ss, es, name, 2);
    SameHistory(ss, es, name, 3);
    InsertHistory(ss, es, name, 4);
    SameHistory(ss, es, name, 5);
    assert NoFinish(es, 3, 4);
  }

  /**
   A row is inactive iff its name's last three probes or more have failed, the latest of them
   completed on this row; or the checker found it inactive and has not reached it since.
   */
  lemma InactiveIff(ss: seq<State>, es: seq<Event>, name: string, n: nat)
    requires IsRun(ss, es) && n <= |es| && !HalfWritten(ss[n], name) && Row(ss[n], name).Some?
    ensures Row(ss[n], name).value.status.Inactive?
       <==> || (Streak(es, name, n) >= 3
                && (LastProbe(es, name, n) > LastInsert(ss, es, name, n) || Torn(ss, es, name, n)))
            || (Origin(ss, es, name, n).status.Inactive? && LastUp(es, name, n) <= LastInsert(ss, es, name, n))
  {
    RowExpectedIff(ss, es, name, n);
  }

  /**
   A restart forgets the run but not the status: a row the checker found keeps its status until
   a success or a third failure.
   */
  lemma RestartKeepsStatus(ss: seq<State>, es: seq<Event>, name: string, n: nat)
    requires IsRun(ss, es) && n <= |es| && !HalfWritten(ss[n], name) && Row(ss[n], name).Some?
    requires LastInsert(ss, es, name, n) == 0 && LastUp(es, name, n) == 0 && Streak(es, name, n) < 3
    ensures Row(ss[0], name).Some? ==> Row(ss[n], name).value.status == Row(ss[0], name).value.status
  {
    RowExpectedIff(ss, es, name, n);
  }

  /** The event before state `n` was the last write of a probe of the name. */
  predicate ProbeDone(ss: seq<State>, es: seq<Event>, name: string, n: nat)
    requires |ss| == |es| + 1 && n <= |es|
  {
    && n > 0 && !HalfWritten(ss[n], name)
    && (Probes(es[n - 1], name) || (es[n - 1].Finish? && HalfWritten(ss[n - 1], name)))
  }

  predicate Outcome(ss: seq<State>, es: seq<Event>, name: string, n: nat, row: Provider)
    requires |ss| == |es| + 1 && n <= |es|
  {
    var streak := Streak(es, name, n);
    && (streak == 0 ==> row.status.Active?)
    && (streak >= 3 ==> row.status.Inactive?)
    && (row.health == (if streak >= 5 then 0 else 100 - 20 * streak)
        <==> streak == 0 || LastProbe(es, name, n) > LastInsert(ss, es, name, n))
  }

  lemma SingleWriteOutcome(ss: seq<State>, es: seq<Event>, name: string, n: nat)
    requires IsRun(ss, es) && 0 < n <= |es| && !HalfWritten(ss[n], name) && Row(ss[n], name).Some?
    requires Probes(es[n - 1], name)
    ensures Outcome(ss, es, name, n, Row(ss[n], name).value)
  {
    RunFits(ss, es, name, n);
    assert Follows(ss, es, n - 1);
    ProbeHistory(ss, es, name, n - 1);
  }

  lemma SecondWriteOutcome(ss: seq<State>, es: seq<Event>, name: string, n: nat)
    requires IsRun(ss, es) && 0 < n <= |es| && Row(ss[n], name).Some?
    requires es[n - 1].Finish? && HalfWritten(ss[n - 1], name)
    ensures Outcome(ss, es, name, n, Row(ss[n], name).value)
  {
    OwedAt(ss, es, name, n - 1);
    FinishRow(ss, es, name, n - 1);
    SameHistory(ss, es, name, n - 1);
    SecondWriteMeans(ss, es, name, n - 1, Row(ss[n - 1], name).value, ss[n - 1].pending.value);
  }

  lemma SecondWriteMeans(ss: seq<State>, es: seq<Event>, name: string, n: nat, row: Provider, op: Op)
    requires |ss| == |es| + 1 && n <= |es| && OwedFits(es, name, n, op) && Between(ss, es, name, n, row, op)
    ensures
      var row' := if op.OpSetStatus? then row.(status := op.status) else row.(health := op.health);
      Outcome(ss, es, name, n, row')
  {
  }

  /** Between the two writes of a probe: what it owes, and what the first write has made of the row. */
  lemma OwedAt(ss: seq<State>, es: seq<Event>, name: string, n: nat)
    requires IsRun(ss, es) && n <= |es| && HalfWritten(ss[n], name)
    ensures OwedFits(es, name, n, ss[n].pending.value)
    ensures Row(ss[n], name).Some? ==> Between(ss, es, name, n, Row(ss[n], name).value, ss[n].pending.value)
  {
    RunFits(ss, es, name, n);
  }

  lemma FinishRow(ss: seq<State>, es: seq<Event>, name: string, n: nat)
    requires IsRun(ss, es) && n < |es| && es[n].Finish? && HalfWritten(ss[n], name) && Row(ss[n + 1], name).Some?
    ensures Row(ss[n], name).Some?
    ensures
      var p, op := Row(ss[n], name).value, ss[n].pending.value;
      Row(ss[n + 1], name).value == if op.OpSetStatus? then p.(status := op.status) else p.(health := op.health)
  {
    assert Follows(ss, es, n);
    WriteRow(ss[n].db, ss[n].pending.value, name);
  }

  /**
   When a probe is done its row is active if it succeeded and inactive if it was the third
   failure or a later one; and it has the health of its run, unless it was inserted meanwhile.
   */
  lemma ProbeOutcome(ss: seq<State>, es: seq<Event>, name: string, n: nat)
    requires IsRun(ss, es) && n <= |es| && ProbeDone(ss, es, name, n) && Row(ss[n], name).Some?
    ensures Outcome(ss, es, name, n, Row(ss[n], name).value)
  {
    if Probes(es[n - 1], name) {
      SingleWriteOutcome(ss, es, name, n);
    } else {
      SecondWriteOutcome(ss, es, name, n);
    }
  }

  /** A row that is not active is active after an event it survives iff the event was its successful probe. */
  lemma ReactivatedOnlyByProbe(ss: seq<State>, es: seq<Event>, name: string, n: nat)
    requires IsRun(ss, es) && n < |es| && Row(ss[n], name).Some? && Row(ss[n + 1], name).Some?
    requires !Row(ss[n], name).value.status.Active?
    ensures Row(ss[n + 1], name).value.status.Active? <==> es[n] == Begin(name, true)
  {
    assert Follows(ss, es, n);
    RunFits(ss, es, name, n);
    match es[n]
    case Begin(m, reachable) =>
      var count := if reachable then 0 else FailureCount(ss[n].failures, m) + 1;
      WriteRow(ss[n].db, FirstWrite(m, reachable, count), name);
    case Finish => WriteRow(ss[n].db, ss[n].pending.value, name);
    case Other(op) => OtherRow(ss[n], op, name);
  }

  /** Over any stretch of a run, a name's row turns from not active to active only by a success or a re-add. */
  lemma {:induction false} ReactivatedBetween(ss: seq<State>, es: seq<Event>, name: string, m: nat, n: nat)
    returns (k: nat)
    requires IsRun(ss, es) && m < n <= |es| && Row(ss[m], name).Some? && Row(ss[n], name).Some?
    requires !Row(ss[m], name).value.status.Active? && Row(ss[n], name).value.status.Active?
    ensures m <= k < n && (es[k] == Begin(name, true) || Inserts(ss[k], es[k], name))
    decreases n
  {
    var before := Row(ss[n - 1], name);
    assert Follows(ss, es, n - 1);
    if before.None? {
      k := n - 1;
      RowAppears(ss[n - 1], es[n - 1], name);
    } else if before.value.status.Active? {
      k := ReactivatedBetween(ss, es, name, m, n - 1);
    } else {
      k := n - 1;
      ReactivatedOnlyByProbe(ss, es, name, n - 1);
    }
  }

  lemma RowAppears(s: State, e: Event, name: string)
    requires Allowed(s, e) && Row(s, name).None? && Row(Next(s, e), name).Some?
    ensures Inserts(s, e, name)
  {
    match e
    case Begin(m, reachable) =>
      var count := if reachable then 0 else FailureCount(s.failures, m) + 1;
      WriteRow(s.db, FirstWrite(m, reachable, count), name);
    case Finish => WriteRow(s.db, s.pending.value, name);
    case Other(op) => OtherRow(s, op, name);
  }

  // ---- the checker itself, undisturbed ----

  /** Both writes of a probe, nothing in between. */
  function Probe(s: State, name: string, reachable: bool): (r: State)
    requires s.pending.None?
    ensures r.pending.None?
  {
    var s1 := Next(s, Begin(name, reachable));
    if s1.pending.None? then s1 else Next(s1, Finish)
  }

  lemma ProbeUp(s: State, name: string)
    requires s.pending.None?
    ensures
      var t, failures := s.db.tables, s.failures[name := 0];
      Probe(s, name, true)
      == State(failures, None,
               s.db.(tables := t.(providers := HealthSet(StatusSet(t.providers, name, Active), name, 100))))
  {
  }

  lemma ProbeDown(s: State, name: string)
    requires s.pending.None?
    ensures
      var t, count := s.db.tables, FailureCount(s.failures, name) + 1;
      var providers := HealthSet(t.providers, name, HealthAfter(count));
      Probe(s, name, false)
      == State(s.failures[name := count], None,
               s.db.(tables := t.(providers := if count >= THRESHOLD then StatusSet(providers, name, Inactive)
                                               else providers)))
  {
  }

  /** State `k + 1` is what a failed probe of the name makes of state `k`. */
  predicate FailsAt(ss: seq<State>, name: string, k: nat)
    requires k + 1 < |ss|
  {
    ss[k].pending.None? && ss[k + 1] == Probe(ss[k], name, false)
  }

  lemma UpRow(s: State, name: string)
    requires s.pending.None?
    ensures
      var s' := Probe(s, name, true);
      && FailureCount(s'.failures, name) == 0
      && Row(s', name) == match Row(s, name)
                          case None => None
                          case Some(p) => Some(p.(status := Active, health := 100))
  {
    ProbeUp(s, name);
    var ps := s.db.tables.providers;
    FindStatusSet(ps, name, Active, name);
    FindHealthSet(StatusSet(ps, name, Active), name, 100, name);
  }

  lemma FailedRow(s: State, name: string)
    requires s.pending.None?
    ensures
      var s', count := Probe(s, name, false), FailureCount(s.failures, name) + 1;
      && FailureCount(s'.failures, name) == count
      && Row(s', name) == match Row(s, name)
                          case None => None
                          case Some(p) => Some(p.(status := if count >= 3 then Inactive else p.status,
                                                  health := if count >= 5 then 0 else 100 - 20 * count))
  {
    ProbeDown(s, name);
    var ps, health := s.db.tables.providers, HealthAfter(FailureCount(s.failures, name) + 1);
    FindHealthSet(ps, name, health, name);
    FindStatusSet(HealthSet(ps, name, health), name, Inactive, name);
  }

  /** Probes of a name that all fail, one after the other. */
  predicate Failing(ss: seq<State>, name: string) {
    ss != [] && forall k :: 0 <= k < |ss| - 1 ==> FailsAt(ss, name, k)
  }

  lemma NextFailingRow(ss: seq<State>, name: string, k: nat)
    requires Failing(ss, name) && k + 1 < |ss|
    ensures
      var count := FailureCount(ss[k].failures, name) + 1;
      && FailureCount(ss[k + 1].failures, name) == count
      && Row(ss[k + 1], name) == match Row(ss[k], name)
                                 case None => None
                                 case Some(p) => Some(p.(status := if count >= 3 then Inactive else p.status,
                                                         health := if count >= 5 then 0 else 100 - 20 * count))
  {
    assert FailsAt(ss, name, k);
    FailedRow(ss[k], name);
  }

  lemma {:induction false} FailingRow(ss: seq<State>, name: string, row: Provider, k: nat)
    requires Failing(ss, name) && k < |ss| && FailureCount(ss[0].failures, name) == 0
    requires Row(ss[0], name) == Some(row.(status := Active, health := 100))
    ensures Row(ss[k], name)
         == Some(row.(status := if k >= 3 then Inactive else Active, health := if k >= 5 then 0 else 100 - 20 * k))
    ensures FailureCount(ss[k].failures, name) == k
    decreases k
  {
    if k > 0 {
      FailingRow(ss, name, row, k - 1);
      NextFailingRow(ss, name, k - 1);
    }
  }

  /** After a success: 100 and active; then 80, 60, 40, 20 and 0 with each failure, inactive from the third. */
  lemma FailuresInFigures(s: State, ss: seq<State>, name: string, k: nat)
    requires s.pending.None? && Row(s, name).Some?
    requires Failing(ss, name) && ss[0] == Probe(s, name, true) && k < |ss|
    ensures
      var row := Row(s, name).value;
      Row(ss[k], name)
      == Some(row.(status := if k >= 3 then Inactive else Active, health := if k >= 5 then 0 else 100 - 20 * k))
  {
    UpRow(s, name);
    FailingRow(ss, name, Row(s, name).value, k);
  }

  /** Of two failures in a row the second leaves 20 points less than the first, or none, whatever came before. */
  lemma SecondFailureCosts(s: State, name: string)
    requires s.pending.None? && Row(s, name).Some?
    ensures
      var s1 := Probe(s, name, false);
      var s2 := Probe(s1, name, false);
      && Row(s1, name).Some? && Row(s2, name).Some?
      && var first, second := Row(s1, name).value.health, Row(s2, name).value.health;
         second == if first >= 20 then first - 20 else 0
  {
    FailedRow(s, name);
    FailedRow(Probe(s, name, false), name);
  }

  /** The first `n` of the listed names probed in order. */
  function Round(s: State, listed: seq<string>, reachable: seq<bool>, n: nat): (r: State)
    requires s.pending.None? && n <= |listed| && n <= |reachable|
    ensures r.pending.None?
  {
    if n == 0 then s else Probe(Round(s, listed, reachable, n - 1), listed[n - 1], reachable[n - 1])
  }

  function NamesIn(providers: seq<Provider>): (names: seq<string>)
    ensures |names| == |providers|
    ensures forall i :: 0 <= i < |providers| ==> names[i] == providers[i].name
  {
    seq(|providers|, i requires 0 <= i < |providers| => providers[i].name)
  }

  class HealthChecker {
    const db: Database
    var failures: map<string, nat>

    constructor (db: Database)
      ensures this.db == db && failures == map[]
    {
      this.db := db;
      failures := map[];
    }

    ghost function Current(): State
      reads this, db
    {
      State(failures, None, Db(db.tables, {}))
    }

    /** One round over the providers in the table when it starts; `reachable[i]` is what probing the i-th finds. */
    method ProbeRound(reachable: seq<bool>)
      requires |reachable| == |db.tables.providers|
      modifies this, db
      ensures Current() == Round(old(Current()), NamesIn(old(db.tables).providers), reachable, |reachable|)
    {
      var listed := NamesIn(db.tables.providers);
      for i := 0 to |listed|
        invariant Current() == Round(old(Current()), listed, reachable, i)
      {
        Record(listed[i], reachable[i]);
      }
    }

    /** The bookkeeping of one probe. */
    method Record(name: string, reachable: bool)
      modifies this, db
      ensures Current() == Probe(old(Current()), name, reachable)
    {
      ghost var s := Current();
      if name !in failures {
        failures := failures[name := 0];
      }
      if reachable {
        ProbeUp(s, name);
        failures := failures[name := 0];
        assert failures == old(failures)[name := 0];
        db.SetProviderStatus(name, Active);
        db.SetProviderHealth(name, 100);
      } else {
        ProbeDown(s, name);
        failures := failures[name := failures[name] + 1];
        var count: int := failures[name];
        assert failures == old(failures)[name := FailureCount(old(failures), name) + 1];
        var health := Max(100 - count * 20, 0);
        assert health == HealthAfter(count);
        db.SetProviderHealth(name, health);
        if count >= THRESHOLD {
          db.SetProviderStatus(name, Inactive);
        }
      }
    }
  }
}
