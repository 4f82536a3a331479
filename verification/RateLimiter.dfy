/**
 Tumbling-window rate limiter (rust-core/src/rate_limiter.rs).

 The class at the end is the limiter as the proxy drives it: one map of buckets, swept in
 bulk when it grows beyond a threshold.  Everything before it is the value-level account
 of runs of calls: the same steps as functions, a limiter for one key that never sweeps,
 and a declarative reference, with the theorems that tie the three together.
 */
module RateLimiting {
  import opened Common
  import opened Arithmetic

  const CLEANUP_THRESHOLD: nat := 10_000

  datatype Bucket = Bucket(windowStart: nat, count: nat)

  type Buckets = map<string, Bucket>

  datatype Call = Call(now: nat, key: string, limit: nat)

  /** The bucket a call at `now` works on: created, restarted or kept. */
  function Rolled(window: nat, slot: Option<Bucket>, now: nat): Bucket {
    match slot
    case None => Bucket(now, 0)
    case Some(b) => if Elapsed(now, b.windowStart) >= window then Bucket(now, 0) else b
  }

  function Retained(window: nat, buckets: Buckets, now: nat): Buckets {
    map k | k in buckets && Elapsed(now, buckets[k].windowStart) < window :: buckets[k]
  }

  function Consume(window: nat, buckets: Buckets, c: Call): (Buckets, bool) {
    var b := Rolled(window, Lookup(buckets, c.key), c.now);
    if b.count >= c.limit then
      (buckets[c.key := b], false)
    else
      var stored := buckets[c.key := Bucket(b.windowStart, b.count + 1)];
      (if |stored| > CLEANUP_THRESHOLD then Retained(window, stored, c.now) else stored, true)
  }

  /**
   An admitted call sweeps iff it leaves more than ten thousand keys, and then exactly the keys
   whose window is over go.
   */
  lemma SweptInFigures(window: nat, buckets: Buckets, c: Call, key: string)
    requires Consume(window, buckets, c).1 && key != c.key
    ensures
      var buckets' := Consume(window, buckets, c).0;
      if |buckets.Keys + {c.key}| > 10_000 then
        key in buckets' <==> key in buckets && Elapsed(c.now, buckets[key].windowStart) < window
      else
        Lookup(buckets', key) == Lookup(buckets, key)
  {
    var b := Rolled(window, Lookup(buckets, c.key), c.now);
    StoredKeys(buckets, c.key, Bucket(b.windowStart, b.count + 1));
  }

  lemma StoredKeys(buckets: Buckets, key: string, b: Bucket)
    ensures |buckets[key := b]| == |buckets.Keys + {key}|
  {
    assert buckets[key := b].Keys == buckets.Keys + {key};
  }

  // ---- runs ----

  predicate Monotone(calls: seq<Call>) {
    forall i, j :: 0 <= i <= j < |calls| ==> calls[i].now <= calls[j].now
  }

  /** The buckets after the first `n` calls of a run that starts empty. */
  function After(window: nat, calls: seq<Call>, n: nat): Buckets
    requires n <= |calls|
  {
    if n == 0 then map[] else Consume(window, After(window, calls, n - 1), calls[n - 1]).0
  }

  /** The limiter's answer to the `i`-th call of the run. */
  predicate Admits(window: nat, calls: seq<Call>, i: nat)
    requires i < |calls|
  {
    Consume(window, After(window, calls, i), calls[i]).1
  }

  /** What happened so far depends on the calls so far only. */
  lemma {:induction false} AfterAgree(window: nat, calls: seq<Call>, calls': seq<Call>, n: nat)
    requires n <= |calls| && n <= |calls'| && forall i :: 0 <= i < n ==> calls[i] == calls'[i]
    ensures After(window, calls, n) == After(window, calls', n)
    decreases n
  {
    if n > 0 {
      AfterAgree(window, calls, calls', n - 1);
    }
  }

  lemma OneMore(window: nat, calls: seq<Call>, c: Call)
    requires Monotone(calls) && forall c' :: c' in calls ==> c'.now <= c.now
    ensures Monotone(calls + [c])
    ensures After(window, calls + [c], |calls| + 1) == Consume(window, After(window, calls, |calls|), c).0
    ensures Admits(window, calls + [c], |calls|) == Consume(window, After(window, calls, |calls|), c).1
  {
    AfterAgree(window, calls, calls + [c], |calls|);
  }

  // ---- one key on its own, never swept ----

  function SlotStep(window: nat, slot: Option<Bucket>, now: nat, limit: nat): (Option<Bucket>, bool) {
    var b := Rolled(window, slot, now);
    if b.count >= limit then (Some(b), false) else (Some(Bucket(b.windowStart, b.count + 1)), true)
  }

  /** The single-key limiter for `key` after `n` calls; calls for other keys do not touch it. */
  function SlotAfter(window: nat, calls: seq<Call>, key: string, n: nat): Option<Bucket>
    requires n <= |calls|
  {
    if n == 0 then None
    else
      var before := SlotAfter(window, calls, key, n - 1);
      if calls[n - 1].key == key then SlotStep(window, before, calls[n - 1].now, calls[n - 1].limit).0 else before
  }

  /** A stored bucket stands for a slot if they are equal, or the bucket was swept after its window had ended. */
  predicate StandsFor(window: nat, stored: Option<Bucket>, slot: Option<Bucket>, now: nat) {
    || stored == slot
    || (stored.None? && slot.Some? && Elapsed(now, slot.value.windowStart) >= window)
  }

  /** One call, of this key or another one, keeps `StandsFor`, and the answer is the single-key one. */
  lemma ConsumeSimulates(window: nat, buckets: Buckets, c: Call, key: string, slot: Option<Bucket>, last: nat)
    requires StandsFor(window, Lookup(buckets, key), slot, last)
    requires last <= c.now
    ensures
      var (buckets', ok) := Consume(window, buckets, c);
      if c.key == key then
        var (slot', ok') := SlotStep(window, slot, c.now, c.limit);
        ok == ok' && StandsFor(window, Lookup(buckets', key), slot', c.now)
      else
        StandsFor(window, Lookup(buckets', key), slot, c.now)
  {
  }

  /** A call's own bucket survives the sweep it may trigger. */
  lemma ConsumeOwn(window: nat, buckets: Buckets, c: Call)
    requires window > 0
    ensures
      var (buckets', ok) := Consume(window, buckets, c);
      (Lookup(buckets', c.key), ok) == SlotStep(window, Lookup(buckets, c.key), c.now, c.limit)
  {
  }

  lemma {:induction false} SweepingIsInvisible(window: nat, calls: seq<Call>, key: string, n: nat)
    requires Monotone(calls) && n <= |calls|
    ensures StandsFor(window, Lookup(After(window, calls, n), key), SlotAfter(window, calls, key, n),
                      if n == 0 then 0 else calls[n - 1].now)
    decreases n
  {
    if n > 0 {
      SweepingIsInvisible(window, calls, key, n - 1);
      ConsumeSimulates(window, After(window, calls, n - 1), calls[n - 1], key, SlotAfter(window, calls, key, n - 1),
                       if n == 1 then 0 else calls[n - 2].now);
    }
  }

  /** In every run the swept map gives each call the answer its key's own, never swept, limiter gives. */
  lemma AdmitsAsSingleKey(window: nat, calls: seq<Call>, i: nat)
    requires Monotone(calls) && i < |calls|
    ensures Admits(window, calls, i)
         == SlotStep(window, SlotAfter(window, calls, calls[i].key, i), calls[i].now, calls[i].limit).1
  {
    SweepingIsInvisible(window, calls, calls[i].key, i);
    ConsumeSimulates(window, After(window, calls, i), calls[i], calls[i].key,
                     SlotAfter(window, calls, calls[i].key, i), if i == 0 then 0 else calls[i - 1].now);
  }

  // ---- isolation ----

  function Own(calls: seq<Call>, key: string, n: nat): seq<Call>
    requires n <= |calls|
  {
    if n == 0 then []
    else Own(calls, key, n - 1) + (if calls[n - 1].key == key then [calls[n - 1]] else [])
  }

  /** The answers given to `key`'s calls, in order. */
  function Answers(window: nat, calls: seq<Call>, key: string, n: nat): seq<bool>
    requires n <= |calls|
  {
    if n == 0 then []
    else Answers(window, calls, key, n - 1)
         + (if calls[n - 1].key == key then [Admits(window, calls, n - 1)] else [])
  }

  function SoloRun(window: nat, own: seq<Call>): (r: (Option<Bucket>, seq<bool>))
    ensures |r.1| == |own|
  {
    if own == [] then (None, [])
    else
      var (slot, answers) := SoloRun(window, own[..|own| - 1]);
      var (slot', ok) := SlotStep(window, slot, own[|own| - 1].now, own[|own| - 1].limit);
      (slot', answers + [ok])
  }

  lemma {:induction false} AnswersAreSolo(window: nat, calls: seq<Call>, key: string, n: nat)
    requires Monotone(calls) && n <= |calls|
    ensures SoloRun(window, Own(calls, key, n)) == (SlotAfter(window, calls, key, n), Answers(window, calls, key, n))
    decreases n
  {
    if n > 0 {
      AnswersAreSolo(window, calls, key, n - 1);
      if calls[n - 1].key == key {
        AdmitsAsSingleKey(window, calls, n - 1);
        var before, own := Own(calls, key, n - 1), Own(calls, key, n);
        assert own[..|own| - 1] == before && own[|own| - 1] == calls[n - 1];
      } else {
        assert Own(calls, key, n) == Own(calls, key, n - 1);
        assert Answers(window, calls, key, n) == Answers(window, calls, key, n - 1);
      }
    }
  }

  /** Two runs in which `key` makes the same calls answer them alike, whatever the other keys do in either. */
  lemma Isolation(window: nat, calls: seq<Call>, calls': seq<Call>, key: string)
    requires Monotone(calls) && Monotone(calls')
    requires Own(calls, key, |calls|) == Own(calls', key, |calls'|)
    ensures Answers(window, calls, key, |calls|) == Answers(window, calls', key, |calls'|)
  {
    AnswersAreSolo(window, calls, key, |calls|);
    AnswersAreSolo(window, calls', key, |calls'|);
  }

  // ---- the declarative reference ----

  /** Index of the call that opened `key`'s current window, after `n` calls.  Only call times matter. */
  function Opening(window: nat, calls: seq<Call>, key: string, n: nat): (o: Option<nat>)
    requires n <= |calls|
    ensures o.Some? ==> o.value < n && calls[o.value].key == key
    ensures n > 0 && calls[n - 1].key == key ==> o.Some?
  {
    if n == 0 then None
    else
      var o := Opening(window, calls, key, n - 1);
      if calls[n - 1].key != key then o
      else if o.None? || Elapsed(calls[n - 1].now, calls[o.value].now) >= window then Some(n - 1)
      else o
  }

  /** A call is granted iff fewer than its limit of the earlier calls in its key's window were granted. */
  predicate Granted(window: nat, calls: seq<Call>, i: nat)
    requires i < |calls|
    decreases i, 1
  {
    GrantedIn(window, calls, calls[i].key, Opening(window, calls, calls[i].key, i + 1).value, i) < calls[i].limit
  }

  function GrantedIn(window: nat, calls: seq<Call>, key: string, lo: nat, hi: nat): nat
    requires lo <= hi <= |calls|
    decreases hi, 0
  {
    if lo == hi then 0
    else GrantedIn(window, calls, key, lo, hi - 1)
         + (if calls[hi - 1].key == key && Granted(window, calls, hi - 1) then 1 else 0)
  }

  lemma {:induction false} SlotIsReference(window: nat, calls: seq<Call>, key: string, n: nat)
    requires n <= |calls|
    ensures
      var o := Opening(window, calls, key, n);
      SlotAfter(window, calls, key, n)
      == if o.None? then None
         else Some(Bucket(calls[o.value].now, GrantedIn(window, calls, key, o.value, n)))
    decreases n
  {
    if n > 0 {
      SlotIsReference(window, calls, key, n - 1);
    }
  }

  /** The limiter, map, sweeping and all, answers every call of every run as the reference does. */
  lemma AdmitsIffGranted(window: nat, calls: seq<Call>, i: nat)
    requires Monotone(calls) && i < |calls|
    ensures Admits(window, calls, i) <==> Granted(window, calls, i)
  {
    AdmitsAsSingleKey(window, calls, i);
    SlotIsReference(window, calls, calls[i].key, i);
  }

  // ---- how much one key can get through in an interval ----

  /** How many of `key`'s first `n` calls with a time in the closed interval [a, b] were admitted. */
  function AdmittedBetween(window: nat, calls: seq<Call>, key: string, a: nat, b: nat, n: nat): nat
    requires n <= |calls|
  {
    if n == 0 then 0
    else AdmittedBetween(window, calls, key, a, b, n - 1) + AdmittedAt(window, calls, key, a, b, n - 1)
  }

  function AdmittedAt(window: nat, calls: seq<Call>, key: string, a: nat, b: nat, i: nat): nat
    requires i < |calls|
  {
    if calls[i].key == key && a <= calls[i].now <= b && Admits(window, calls, i) then 1 else 0
  }

  /** Two runs that agree on their first `n` calls admit the same of them. */
  lemma {:induction false} AdmittedAgree(window: nat, calls: seq<Call>, calls': seq<Call>, key: string,
                                         a: nat, b: nat, n: nat)
    requires n <= |calls| && n <= |calls'| && forall i :: 0 <= i < n ==> calls[i] == calls'[i]
    ensures AdmittedBetween(window, calls, key, a, b, n) == AdmittedBetween(window, calls', key, a, b, n)
    decreases n
  {
    if n > 0 {
      AdmittedAgree(window, calls, calls', key, a, b, n - 1);
      AdmittedAtAgree(window, calls, calls', key, a, b, n - 1);
    }
  }

  lemma AdmittedAtAgree(window: nat, calls: seq<Call>, calls': seq<Call>, key: string, a: nat, b: nat, i: nat)
    requires i < |calls| && i < |calls'| && forall j :: 0 <= j <= i ==> calls[j] == calls'[j]
    ensures AdmittedAt(window, calls, key, a, b, i) == AdmittedAt(window, calls', key, a, b, i)
  {
    AfterAgree(window, calls, calls', i);
    assert calls[i] == calls'[i];
  }

  /** One more call adds its own admission. */
  lemma OneMoreAdmitted(window: nat, calls: seq<Call>, c: Call, key: string, a: nat, b: nat)
    ensures AdmittedBetween(window, calls + [c], key, a, b, |calls| + 1)
         == AdmittedBetween(window, calls, key, a, b, |calls|)
            + (if c.key == key && a <= c.now <= b && Consume(window, After(window, calls, |calls|), c).1 then 1 else 0)
  {
    AdmittedAgree(window, calls, calls + [c], key, a, b, |calls|);
    AfterAgree(window, calls, calls + [c], |calls|);
    assert (calls + [c])[|calls|] == c;
  }

  /** In terms of the single-key limiter, the last of `n` calls adds one iff that limiter admits it. */
  lemma AdmittedLast(window: nat, calls: seq<Call>, key: string, a: nat, b: nat, n: nat)
    requires Monotone(calls) && 0 < n <= |calls|
    ensures
      var c := calls[n - 1];
      AdmittedBetween(window, calls, key, a, b, n)
      == AdmittedBetween(window, calls, key, a, b, n - 1)
         + (if c.key == key && a <= c.now <= b
               && SlotStep(window, SlotAfter(window, calls, key, n - 1), c.now, c.limit).1 then 1 else 0)
  {
    AdmitsAsSingleKey(window, calls, n - 1);
  }

  // ---- what a window has let through ----

  lemma {:induction false} InWindow(window: nat, calls: seq<Call>, key: string, n: nat, j: nat)
    requires window > 0 && n <= |calls| && j < n && calls[j].key == key
    ensures
      var o := Opening(window, calls, key, n);
      o.Some? && (o.value <= j ==> Elapsed(calls[j].now, calls[o.value].now) < window)
    decreases n
  {
    if j < n - 1 {
      InWindow(window, calls, key, n - 1, j);
    }
  }

  /** All the key's calls before the one that opened its window were strictly earlier. */
  lemma {:induction false} BeforeOpening(window: nat, calls: seq<Call>, key: string, n: nat, j: nat)
    requires window > 0 && Monotone(calls) && n <= |calls| && j < n && calls[j].key == key
    ensures
      var o := Opening(window, calls, key, n);
      o.Some? && (j < o.value ==> calls[j].now < calls[o.value].now)
    decreases n
  {
    if j < n - 1 {
      BeforeOpening(window, calls, key, n - 1, j);
      InWindow(window, calls, key, n - 1, j);
    }
  }

  /** The grants of a window are the admissions since the time it was opened. */
  lemma {:induction false} GrantedSince(window: nat, calls: seq<Call>, key: string, n: nat, m: nat, b: nat)
    requires window > 0 && Monotone(calls) && 0 < n <= |calls| && m <= |calls| && calls[n - 1].key == key
    requires forall i :: 0 <= i < m ==> calls[i].now <= b
    requires m <= n
    ensures
      var o := Opening(window, calls, key, n).value;
      AdmittedBetween(window, calls, key, calls[o].now, b, m)
      == if m <= o then 0 else GrantedIn(window, calls, key, o, m)
    decreases m
  {
    var o := Opening(window, calls, key, n).value;
    if m > 0 {
      GrantedSince(window, calls, key, n, m - 1, b);
      if calls[m - 1].key == key {
        BeforeOpening(window, calls, key, n, m - 1);
        AdmitsIffGranted(window, calls, m - 1);
      }
    }
  }

  /**
   The next call of a key is admitted iff fewer than its limit were since the start of its
   window: the start of the last one if that is not over, else now.
   */
  lemma NextAdmittedIff(window: nat, calls: seq<Call>, c: Call) returns (start: nat)
    requires window > 0 && Monotone(calls + [c])
    ensures start == (calls + [c])[Opening(window, calls + [c], c.key, |calls| + 1).value].now
    ensures start <= c.now < start + window
    ensures Consume(window, After(window, calls, |calls|), c).1
       <==> AdmittedBetween(window, calls, c.key, start, c.now, |calls|) < c.limit
  {
    var all, n := calls + [c], |calls|;
    assert forall i :: 0 <= i < n ==> all[i] == calls[i] && all[i].now <= all[n].now;
    var o := Opening(window, all, c.key, n + 1).value;
    start := all[o].now;
    InWindow(window, all, c.key, n + 1, n);
    AfterAgree(window, calls, all, n);
    AdmitsIffGranted(window, all, n);
    GrantedSince(window, all, c.key, n + 1, n, c.now);
    AdmittedAgree(window, calls, all, c.key, start, c.now, n);
  }

  predicate LimitedTo(calls: seq<Call>, key: string, L: nat) {
    forall i :: 0 <= i < |calls| && calls[i].key == key ==> calls[i].limit <= L
  }

  /** Windows already over since `a` account for at most `L` each. */
  function Allowance(window: nat, L: nat, a: nat, start: nat): nat
    requires window > 0
  {
    MulLe(L, 0, CeilDiv(Elapsed(start, a), window));
    L * CeilDiv(Elapsed(start, a), window)
  }

  /** A window that starts after `a`, and a full window after the last one, raises the allowance by `L`. */
  lemma AllowanceGrows(window: nat, L: nat, a: nat, start: nat, next: nat)
    requires window > 0 && next >= start + window && next > a
    requires start >= a || a - start < window
    ensures Allowance(window, L, a, start) + L <= Allowance(window, L, a, next)
  {
    var d, e := Elapsed(start, a), Elapsed(next, a);
    if start > a {
      CeilDivStep(d, window);
      CeilDivMonotone(d + window, e, window);
    } else {
      CeilDivZero(window);
      CeilDivMultiple(window, 1);
      CeilDivStep(0, window);
      CeilDivRoundsUp(e, window);
    }
    MulLe(L, CeilDiv(d, window) + 1, CeilDiv(e, window));
    assert L * (CeilDiv(d, window) + 1) == L * CeilDiv(d, window) + L;
  }

  /** The state of the single-key limiter bounds what has been admitted since `a`. */
  predicate Accounted(window: nat, slot: Option<Bucket>, L: nat, a: nat, last: nat, admitted: nat)
    requires window > 0
  {
    match slot
    case None => admitted == 0
    case Some(s) =>
      && s.count <= L
      && s.windowStart <= last
      && (admitted > 0 ==> a - s.windowStart < window)
      && admitted <= Allowance(window, L, a, s.windowStart) + s.count
  }

  lemma AccountedStep(window: nat, slot: Option<Bucket>, L: nat, a: nat, last: nat, admitted: nat, now: nat, limit: nat)
    requires window > 0 && limit <= L && last <= now && Accounted(window, slot, L, a, last, admitted)
    ensures
      var (slot', ok) := SlotStep(window, slot, now, limit);
      && (ok && a <= now ==> Accounted(window, slot', L, a, now, admitted + 1))
      && (!ok || now < a ==> Accounted(window, slot', L, a, now, admitted))
  {
    if slot.Some? && Elapsed(now, slot.value.windowStart) >= window && admitted > 0 {
      AllowanceGrows(window, L, a, slot.value.windowStart, now);
    }
  }

  lemma {:induction false} AdmittedSoFar(window: nat, calls: seq<Call>, key: string, L: nat, a: nat, b: nat, n: nat)
    requires window > 0 && Monotone(calls) && LimitedTo(calls, key, L) && n <= |calls|
    requires forall i :: 0 <= i < n ==> calls[i].now <= b
    ensures Accounted(window, SlotAfter(window, calls, key, n), L, a, if n == 0 then 0 else calls[n - 1].now,
                      AdmittedBetween(window, calls, key, a, b, n))
    decreases n
  {
    if n > 0 {
      AdmittedSoFar(window, calls, key, L, a, b, n - 1);
      AdmittedLast(window, calls, key, a, b, n);
      var c := calls[n - 1];
      if c.key == key {
        AccountedStep(window, SlotAfter(window, calls, key, n - 1), L, a, if n == 1 then 0 else calls[n - 2].now,
                      AdmittedBetween(window, calls, key, a, b, n - 1), c.now, c.limit);
      }
    }
  }

  /**
   Interval bound: in any closed interval of length T, one key whose limit never exceeds L is
   admitted at most L * (ceil(T / window) + 1) times, over any run and any other traffic.
   */
  lemma IntervalBound(window: nat, calls: seq<Call>, key: string, L: nat, a: nat, T: nat)
    requires window > 0 && Monotone(calls) && LimitedTo(calls, key, L)
    ensures AdmittedBetween(window, calls, key, a, a + T, |calls|) <= L * (CeilDiv(T, window) + 1)
  {
    IntervalBoundUpTo(window, calls, key, L, a, T, |calls|);
  }

  lemma {:induction false} IntervalBoundUpTo(window: nat, calls: seq<Call>, key: string, L: nat, a: nat, T: nat, n: nat)
    requires window > 0 && Monotone(calls) && LimitedTo(calls, key, L) && n <= |calls|
    ensures AdmittedBetween(window, calls, key, a, a + T, n) <= L * (CeilDiv(T, window) + 1)
    decreases n
  {
    assert L * (CeilDiv(T, window) + 1) == L * CeilDiv(T, window) + L;
    MulLe(L, 0, CeilDiv(T, window));
    if n > 0 && calls[n - 1].now > a + T {
      IntervalBoundUpTo(window, calls, key, L, a, T, n - 1);
    } else if n > 0 {
      AdmittedSoFar(window, calls, key, L, a, a + T, n);
      var slot := SlotAfter(window, calls, key, n);
      if slot.Some? {
        var d := Elapsed(slot.value.windowStart, a);
        CeilDivMonotone(d, T, window);
        MulLe(L, CeilDiv(d, window), CeilDiv(T, window));
      }
    }
  }

  // ---- the bound is reached ----

  /** `L` calls at each of the times 0, window, ..., k * window. */
  function Burst(window: nat, key: string, L: nat, k: nat): (calls: seq<Call>)
    requires L > 0
    ensures |calls| == L * (k + 1)
    ensures forall i :: 0 <= i < |calls| ==> calls[i] == Call(BurstTime(window, L, i), key, L)
  {
    MulLe(L, 0, k + 1);
    seq(L * (k + 1), i requires i >= 0 => Call(BurstTime(window, L, i), key, L))
  }

  function BurstTime(window: nat, L: nat, i: nat): nat
    requires L > 0
  {
    MulLe(window, 0, i / L);
    window * (i / L)
  }

  lemma BurstMonotone(window: nat, key: string, L: nat, k: nat)
    requires L > 0
    ensures Monotone(Burst(window, key, L, k))
  {
    var calls := Burst(window, key, L, k);
    forall i, j | 0 <= i <= j < |calls| ensures calls[i].now <= calls[j].now {
      DivMonotone(i, j, L);
      MulLe(window, i / L, j / L);
    }
  }

  /**
   `rank[i]` is the place of call `i` in its block of `L`.  Times are equal inside a block, a
   window apart between blocks, and never after `span`.
   */
  predicate InBlocks(window: nat, calls: seq<Call>, rank: seq<nat>, key: string, L: nat, span: nat) {
    && |rank| == |calls|
    && (|calls| > 0 ==> rank[0] == 0)
    && (forall i :: 0 <= i < |calls| ==>
          calls[i].key == key && calls[i].limit == L && calls[i].now <= span && rank[i] < L)
    && (forall i :: 0 < i < |calls| ==>
          if rank[i] == 0 then rank[i - 1] == L - 1 && calls[i].now == calls[i - 1].now + window
          else rank[i - 1] == rank[i] - 1 && calls[i].now == calls[i - 1].now)
  }

  lemma BurstInBlocks(window: nat, key: string, L: nat, k: nat) returns (rank: seq<nat>)
    requires L > 0
    ensures InBlocks(window, Burst(window, key, L, k), rank, key, L, window * k)
  {
    var calls := Burst(window, key, L, k);
    rank := seq(L * (k + 1), i requires i >= 0 => i % L);
    DivUnique(0, L, 0, 0);
    forall i | 0 <= i < |calls| ensures window * (i / L) <= window * k {
      BurstSpan(window, L, k, i);
    }
    forall i | 0 < i < |calls|
      ensures if rank[i] == 0 then rank[i - 1] == L - 1 && calls[i].now == calls[i - 1].now + window
              else rank[i - 1] == rank[i] - 1 && calls[i].now == calls[i - 1].now
    {
      DivSucc(i - 1, L);
      assert window * ((i - 1) / L + 1) == window * ((i - 1) / L) + window;
    }
  }

  lemma BurstSpan(window: nat, L: nat, k: nat, i: nat)
    requires L > 0 && i < L * (k + 1)
    ensures window * (i / L) <= window * k
  {
    assert i == L * (i / L) + i % L;
    assert L * (i / L + 1) == L * (i / L) + L;
    MulCancel(L, i / L + 1, k + 1, L - 1);
    MulLe(window, i / L, k);
  }

  lemma {:induction false} BlocksSlot(window: nat, calls: seq<Call>, rank: seq<nat>, key: string, L: nat,
                                      span: nat, n: nat)
    requires window > 0 && n <= |calls| && InBlocks(window, calls, rank, key, L, span)
    ensures SlotAfter(window, calls, key, n)
         == if n == 0 then None else Some(Bucket(calls[n - 1].now, rank[n - 1] + 1))
    decreases n
  {
    if n > 0 {
      BlocksSlot(window, calls, rank, key, L, span, n - 1);
      if n > 1 {
        BurstStep(window, L, calls[n - 2].now, rank[n - 2], calls[n - 1].now, rank[n - 1]);
      }
    }
  }

  lemma {:induction false} BlocksAllAdmitted(window: nat, calls: seq<Call>, rank: seq<nat>, key: string, L: nat,
                                             span: nat, n: nat)
    requires window > 0 && n <= |calls| && Monotone(calls) && InBlocks(window, calls, rank, key, L, span)
    ensures AdmittedBetween(window, calls, key, 0, span, n) == n
    decreases n
  {
    if n > 0 {
      BlocksAllAdmitted(window, calls, rank, key, L, span, n - 1);
      BlocksSlot(window, calls, rank, key, L, span, n - 1);
      AdmittedLast(window, calls, key, 0, span, n);
      if n > 1 {
        BurstStep(window, L, calls[n - 2].now, rank[n - 2], calls[n - 1].now, rank[n - 1]);
      }
    }
  }

  lemma BurstStep(window: nat, L: nat, t: nat, r: nat, t': nat, r': nat)
    requires 0 < window && r < L
    requires if r' == 0 then r == L - 1 && t' == t + window else r' == r + 1 && t' == t
    requires r' < L
    ensures SlotStep(window, Some(Bucket(t, r + 1)), t', L) == (Some(Bucket(t', r' + 1)), true)
  {
  }

  /** For every window, limit and span of k windows the interval bound is attained exactly; k = 1 gives 2 * L. */
  lemma IntervalBoundIsTight(window: nat, key: string, L: nat, k: nat)
    requires window > 0 && L > 0
    ensures
      var calls := Burst(window, key, L, k);
      && Monotone(calls) && LimitedTo(calls, key, L)
      && AdmittedBetween(window, calls, key, 0, window * k, |calls|) == L * (CeilDiv(window * k, window) + 1)
  {
    BurstMonotone(window, key, L, k);
    var rank := BurstInBlocks(window, key, L, k);
    BlocksAllAdmitted(window, Burst(window, key, L, k), rank, key, L, window * k, L * (k + 1));
    CeilDivMultiple(window, k);
  }

  // ---- the limiter itself ----

  class RateLimiter {
    const window: nat
    var buckets: Buckets

    constructor (window: nat)
      ensures this.window == window && buckets == map[]
    {
      this.window := window;
      buckets := map[];
    }

    method CheckAndConsume(now: nat, key: string, limit: nat) returns (ok: bool)
      modifies this
      ensures (buckets, ok) == Consume(window, old(buckets), Call(now, key, limit))
    {
      if key !in buckets {
        buckets := buckets[key := Bucket(now, 0)];
      }
      if Elapsed(now, buckets[key].windowStart) >= window {
        buckets := buckets[key := Bucket(now, 0)];
      }
      ghost var b := Rolled(window, Lookup(old(buckets), key), now);
      assert buckets == old(buckets)[key := b];
      if buckets[key].count >= limit {
        return false;
      }
      buckets := buckets[key := Bucket(buckets[key].windowStart, buckets[key].count + 1)];
      assert buckets == old(buckets)[key := Bucket(b.windowStart, b.count + 1)];
      if |buckets| > CLEANUP_THRESHOLD {
        buckets := map k | k in buckets && Elapsed(now, buckets[k].windowStart) < window :: buckets[k];
      }
      return true;
    }

    method Reset()
      modifies this
      ensures buckets == map[]
    {
      buckets := map[];
    }
  }
}
