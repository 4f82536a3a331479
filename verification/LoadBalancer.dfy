/**
 Load balancer (rust-core/src/load_balancer.rs): round-robin per provider, or the least
 loaded candidate by in-flight count.  Counters are unbounded here, so `usize::MAX` as a
 starting minimum becomes "no candidate seen yet".
 */
module LoadBalancing {
  import opened Common
  import opened Arithmetic

  datatype Mode = RoundRobin | LeastConnections

  datatype State = State(rrIndex: map<string, nat>, inFlight: map<string, nat>)

  const Empty := State(map[], map[])

  function Load(inFlight: map<string, nat>, key: string): nat {
    if key in inFlight then inFlight[key] else 0
  }

  function Index(rrIndex: map<string, nat>, provider: string): nat {
    if provider in rrIndex then rrIndex[provider] else 0
  }

  /** The leftmost least loaded of the first `n` candidates. */
  function LeastLoaded(inFlight: map<string, nat>, candidates: seq<string>, n: nat): (best: nat)
    requires 0 < n <= |candidates|
    ensures best < n
    ensures forall j :: 0 <= j < n ==> Load(inFlight, candidates[best]) <= Load(inFlight, candidates[j])
    ensures forall j :: 0 <= j < best ==> Load(inFlight, candidates[best]) < Load(inFlight, candidates[j])
  {
    if n == 1 then 0
    else
      var best := LeastLoaded(inFlight, candidates, n - 1);
      if Load(inFlight, candidates[n - 1]) < Load(inFlight, candidates[best]) then n - 1 else best
  }

  /** The position chosen, if there is any candidate. */
  function Choose(mode: Mode, st: State, provider: string, candidates: seq<string>): (r: (State, Option<nat>))
    ensures r.1.Some? ==> r.1.value < |candidates|
    ensures r.1.Some? <==> candidates != []
  {
    if candidates == [] then (st, None)
    else
      match mode
      case RoundRobin =>
        var index := Index(st.rrIndex, provider);
        (st.(rrIndex := st.rrIndex[provider := index + 1]), Some(index % |candidates|))
      case LeastConnections =>
        (st, Some(LeastLoaded(st.inFlight, candidates, |candidates|)))
  }

  function Started(inFlight: map<string, nat>, key: string): map<string, nat> {
    inFlight[key := Load(inFlight, key) + 1]
  }

  function Ended(inFlight: map<string, nat>, key: string): map<string, nat> {
    if key in inFlight && inFlight[key] > 0 then inFlight[key := inFlight[key] - 1] else inFlight
  }

  // ---- round-robin fairness ----

  datatype Turn = Turn(provider: string, candidates: seq<string>)

  function After(st: State, turns: seq<Turn>, n: nat): State
    requires n <= |turns|
  {
    if n == 0 then st
    else Choose(RoundRobin, After(st, turns, n - 1), turns[n - 1].provider, turns[n - 1].candidates).0
  }

  function PositionAt(st: State, turns: seq<Turn>, i: nat): Option<nat>
    requires i < |turns|
  {
    Choose(RoundRobin, After(st, turns, i), turns[i].provider, turns[i].candidates).1
  }

  /** How many of the first `n` turns were the provider's. */
  function TurnsOf(turns: seq<Turn>, provider: string, n: nat): nat
    requires n <= |turns|
  {
    if n == 0 then 0 else TurnsOf(turns, provider, n - 1) + (if turns[n - 1].provider == provider then 1 else 0)
  }

  /** How many of those chose `position`. */
  function PicksOf(st: State, turns: seq<Turn>, provider: string, position: nat, n: nat): nat
    requires n <= |turns|
  {
    if n == 0 then 0
    else PicksOf(st, turns, provider, position, n - 1)
         + (if turns[n - 1].provider == provider && PositionAt(st, turns, n - 1) == Some(position) then 1 else 0)
  }

  /** The provider always offers `size` candidates; other providers may do anything. */
  predicate Offers(turns: seq<Turn>, provider: string, size: nat) {
    size > 0 && forall i :: 0 <= i < |turns| && turns[i].provider == provider ==> |turns[i].candidates| == size
  }

  lemma {:induction false} IndexAdvances(st: State, turns: seq<Turn>, provider: string, size: nat, n: nat)
    requires n <= |turns| && Offers(turns, provider, size)
    ensures Index(After(st, turns, n).rrIndex, provider)
         == Index(st.rrIndex, provider) + TurnsOf(turns, provider, n)
    decreases n
  {
    if n > 0 {
      IndexAdvances(st, turns, provider, size, n - 1);
    }
  }

  /** The provider's turns go round its positions from the starting index, whoever else is served in between. */
  lemma TurnsGoRound(st: State, turns: seq<Turn>, provider: string, size: nat, i: nat)
    requires i < |turns| && Offers(turns, provider, size) && turns[i].provider == provider
    ensures PositionAt(st, turns, i)
         == Some((Index(st.rrIndex, provider) + TurnsOf(turns, provider, i)) % size)
  {
    IndexAdvances(st, turns, provider, size, i);
  }

  /** How many of the indices below `x` are congruent to `position`. */
  function Rounds(x: nat, size: nat, position: nat): nat
    requires position < size
  {
    x / size + (if position < x % size then 1 else 0)
  }

  lemma RoundsStep(x: nat, size: nat, position: nat)
    requires position < size
    ensures Rounds(x + 1, size, position) == Rounds(x, size, position) + (if x % size == position then 1 else 0)
  {
    DivSucc(x, size);
  }

  lemma {:induction false} PicksAreRounds(st: State, turns: seq<Turn>, provider: string, size: nat,
                                          position: nat, n: nat)
    requires n <= |turns| && Offers(turns, provider, size) && position < size
    ensures
      var s := Index(st.rrIndex, provider);
      Rounds(s, size, position) + PicksOf(st, turns, provider, position, n)
      == Rounds(s + TurnsOf(turns, provider, n), size, position)
    decreases n
  {
    if n > 0 {
      PicksAreRounds(st, turns, provider, size, position, n - 1);
      if turns[n - 1].provider == provider {
        TurnsGoRound(st, turns, provider, size, n - 1);
        RoundsStep(Index(st.rrIndex, provider) + TurnsOf(turns, provider, n - 1), size, position);
      }
    }
  }

  lemma RoundsBalanced(s: nat, m: nat, size: nat, position: nat)
    requires position < size
    ensures m / size <= Rounds(s + m, size, position) - Rounds(s, size, position) <= CeilDiv(m, size)
  {
    DivAdd(s, m, size);
    CeilDivFloor(m, size);
  }

  /**
   Round-robin fairness: over any run, from any starting index and with other providers'
   turns in between, each of the provider's positions is chosen the floor or the ceiling of
   its share of the provider's turns.
   */
  lemma RoundRobinFair(st: State, turns: seq<Turn>, provider: string, size: nat, position: nat)
    requires Offers(turns, provider, size) && position < size
    ensures
      var m := TurnsOf(turns, provider, |turns|);
      m / size <= PicksOf(st, turns, provider, position, |turns|) <= CeilDiv(m, size)
  {
    PicksAreRounds(st, turns, provider, size, position, |turns|);
    RoundsBalanced(Index(st.rrIndex, provider), TurnsOf(turns, provider, |turns|), size, position);
  }

  lemma ModDistinct(s: nat, i: nat, j: nat, size: nat)
    requires size > 0 && i < j && j - i < size
    ensures (s + i) % size != (s + j) % size
  {
    var q, q', r := (s + i) / size, (s + j) / size, (s + i) % size;
    assert s + i == size * q + r && s + j == size * q' + (s + j) % size;
    if (s + j) % size == r {
      assert size * (q' - q) == j - i;
      MulLe(size, q' - q, 0);
      MulLe(size, 1, q' - q);
    }
  }

  /** A turn `i < n` steps past `s`, by remainders. */
  lemma SumMod(s: nat, i: nat, n: nat)
    requires i < n
    ensures (s + i) % n == if s % n + i < n then s % n + i else s % n + i - n
  {
    DivAdd(s, i, n);
    DivUnique(i, n, 0, i);
  }

  /**
   Fewer than `size` of the provider's turns apart, whatever other providers do in between,
   two of its turns choose different positions.
   */
  lemma NearbyTurnsDiffer(st: State, turns: seq<Turn>, provider: string, size: nat, i: nat, j: nat)
    requires i < j < |turns| && Offers(turns, provider, size)
    requires turns[i].provider == turns[j].provider == provider
    requires TurnsOf(turns, provider, j) - TurnsOf(turns, provider, i) < size
    ensures PositionAt(st, turns, i) != PositionAt(st, turns, j)
  {
    TurnsGoRound(st, turns, provider, size, i);
    TurnsGoRound(st, turns, provider, size, j);
    TurnsGrow(turns, provider, i, j);
    ModDistinct(Index(st.rrIndex, provider), TurnsOf(turns, provider, i), TurnsOf(turns, provider, j), size);
  }

  lemma {:induction false} TurnsGrow(turns: seq<Turn>, provider: string, i: nat, j: nat)
    requires i < j <= |turns| && turns[i].provider == provider
    ensures TurnsOf(turns, provider, i) < TurnsOf(turns, provider, j)
  {
    if i + 1 < j {
      TurnsGrow(turns, provider, i, j - 1);
    }
  }

  // ---- least connections without completions ----

  /** In-flight counts after `m` rounds of select followed by `track_start` of the result. */
  function Busy(candidates: seq<string>, m: nat): map<string, nat>
    requires candidates != []
  {
    if m == 0 then map[]
    else
      var before := Busy(candidates, m - 1);
      Started(before, candidates[LeastLoaded(before, candidates, |candidates|)])
  }

  /** The first `r` candidates carry one request more than the `q` that all carry. */
  predicate Level(inFlight: map<string, nat>, candidates: seq<string>, q: nat, r: nat) {
    forall j :: 0 <= j < |candidates| ==> Load(inFlight, candidates[j]) == q + (if j < r then 1 else 0)
  }

  lemma LevelPick(inFlight: map<string, nat>, candidates: seq<string>, q: nat, r: nat)
    requires r < |candidates| && NoRepeats(candidates) && Level(inFlight, candidates, q, r)
    ensures LeastLoaded(inFlight, candidates, |candidates|) == r
    ensures
      var next := Started(inFlight, candidates[r]);
      if r + 1 < |candidates| then Level(next, candidates, q, r + 1) else Level(next, candidates, q + 1, 0)
  {
    var best := LeastLoaded(inFlight, candidates, |candidates|);
    assert Load(inFlight, candidates[best]) <= Load(inFlight, candidates[r]);
    assert best == r;
    var next := Started(inFlight, candidates[r]);
    forall j | 0 <= j < |candidates|
      ensures Load(next, candidates[j]) == Load(inFlight, candidates[j]) + (if j == r then 1 else 0)
    {
      assert j != r ==> candidates[j] != candidates[r];
    }
  }

  lemma {:induction false} BusyLevel(candidates: seq<string>, m: nat)
    requires candidates != [] && NoRepeats(candidates)
    ensures Level(Busy(candidates, m), candidates, m / |candidates|, m % |candidates|)
  {
    if m == 0 {
      DivUnique(0, |candidates|, 0, 0);
    } else {
      BusyLevel(candidates, m - 1);
      DivSucc(m - 1, |candidates|);
      LevelPick(Busy(candidates, m - 1), candidates, (m - 1) / |candidates|, (m - 1) % |candidates|);
    }
  }

  /**
   As long as nothing completes, least-connections is round-robin: the next pick after `m`
   picks is position `m % n`, and every count is the floor or the ceiling of m / n.
   */
  lemma LeastConnectionsIsRoundRobin(candidates: seq<string>, m: nat, provider: string)
    requires candidates != [] && NoRepeats(candidates)
    ensures Choose(LeastConnections, State(map[], Busy(candidates, m)), provider, candidates).1
         == Some(m % |candidates|)
         == Choose(RoundRobin, State(map[provider := m], map[]), provider, candidates).1
    ensures forall j :: 0 <= j < |candidates| ==>
      m / |candidates| <= Load(Busy(candidates, m), candidates[j]) <= CeilDiv(m, |candidates|)
  {
    BusyLevel(candidates, m);
    LevelPick(Busy(candidates, m), candidates, m / |candidates|, m % |candidates|);
    CeilDivFloor(m, |candidates|);
  }

  // ---- in-flight counts ----

  datatype Track = Start(key: string) | End(key: string)

  function Tracked(ts: seq<Track>, n: nat): map<string, nat>
    requires n <= |ts|
  {
    if n == 0 then map[]
    else
      match ts[n - 1]
      case Start(key) => Started(Tracked(ts, n - 1), key)
      case End(key) => Ended(Tracked(ts, n - 1), key)
  }

  /** Starts minus ends. */
  function Balance(ts: seq<Track>, key: string, n: nat): int
    requires n <= |ts|
  {
    if n == 0 then 0
    else Balance(ts, key, n - 1) + (if ts[n - 1] == Start(key) then 1 else if ts[n - 1] == End(key) then -1 else 0)
  }

  lemma {:induction false} TrackedAbove(ts: seq<Track>, key: string, k: nat, n: nat)
    requires k <= n <= |ts|
    ensures Load(Tracked(ts, n), key) - Balance(ts, key, n) >= Load(Tracked(ts, k), key) - Balance(ts, key, k)
    decreases n
  {
    if k < n {
      TrackedAbove(ts, key, k, n - 1);
    }
  }

  lemma {:induction false} TrackedExact(ts: seq<Track>, key: string, n: nat)
    requires n <= |ts| && forall k :: 0 <= k <= n ==> Balance(ts, key, k) >= 0
    ensures Load(Tracked(ts, n), key) == Balance(ts, key, n)
    decreases n
  {
    if n > 0 {
      TrackedExact(ts, key, n - 1);
      assert Balance(ts, key, n) >= 0;
    }
  }

  /** The in-flight count is starts minus ends iff the trace never ends more requests than it has started. */
  lemma InFlightIff(ts: seq<Track>, key: string)
    ensures Load(Tracked(ts, |ts|), key) == Balance(ts, key, |ts|)
       <==> forall k :: 0 <= k <= |ts| ==> Balance(ts, key, k) >= 0
  {
    if forall k :: 0 <= k <= |ts| ==> Balance(ts, key, k) >= 0 {
      TrackedExact(ts, key, |ts|);
    } else {
      var k :| 0 <= k <= |ts| && Balance(ts, key, k) < 0;
      TrackedAbove(ts, key, k, |ts|);
    }
  }

  // ---- the component itself ----

  class LoadBalancer {
    const mode: Mode
    var rrIndex: map<string, nat>
    var inFlight: map<string, nat>

    constructor (mode: Mode)
      ensures this.mode == mode && Current() == Empty
    {
      this.mode := mode;
      rrIndex := map[];
      inFlight := map[];
    }

    ghost function Current(): State
      reads this
    {
      State(rrIndex, inFlight)
    }

    method Select(provider: string, candidates: seq<string>) returns (chosen: Option<string>)
      modifies this
      ensures
        var (st, position) := Choose(mode, old(Current()), provider, candidates);
        && Current() == st
        && chosen == if position.None? then None else Some(candidates[position.value])
    {
      if candidates == [] {
        return None;
      }
      match mode {
        case RoundRobin =>
          if provider !in rrIndex {
            rrIndex := rrIndex[provider := 0];
          }
          var idx := rrIndex[provider] % |candidates|;
          rrIndex := rrIndex[provider := rrIndex[provider] + 1];
          assert rrIndex == old(rrIndex)[provider := Index(old(rrIndex), provider) + 1];
          return Some(candidates[idx]);
        case LeastConnections =>
          var best := 0;
          var bestCount: Option<nat> := None;
          for idx := 0 to |candidates|
            invariant idx == 0 ==> best == 0 && bestCount.None?
            invariant idx > 0 ==> best == LeastLoaded(inFlight, candidates, idx)
            invariant idx > 0 ==> bestCount == Some(Load(inFlight, candidates[best]))
          {
            var count := if candidates[idx] in inFlight then inFlight[candidates[idx]] else 0;
            if bestCount.None? || count < bestCount.value {
              bestCount := Some(count);
              best := idx;
            }
          }
          return Some(candidates[best]);
      }
    }

    method TrackStart(key: string)
      modifies this
      ensures Current() == State(old(rrIndex), Started(old(inFlight), key))
    {
      if key !in inFlight {
        inFlight := inFlight[key := 0];
      }
      inFlight := inFlight[key := inFlight[key] + 1];
      assert inFlight == Started(old(inFlight), key);
    }

    method TrackEnd(key: string)
      modifies this
      ensures Current() == State(old(rrIndex), Ended(old(inFlight), key))
    {
      if key in inFlight && inFlight[key] > 0 {
        inFlight := inFlight[key := inFlight[key] - 1];
      }
    }
  }
}
