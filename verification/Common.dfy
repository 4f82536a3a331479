/** Small value-level helpers shared by every component of the model. */
module Common {

  datatype Option<+T> = None | Some(value: T)

  function Lookup<K, V>(m: map<K, V>, k: K): Option<V> {
    if k in m then Some(m[k]) else None
  }

  // Rust's `Instant::duration_since` saturates at zero.
  function Elapsed(now: nat, since: nat): nat {
    if now >= since then now - since else 0
  }

  predicate NoRepeats(s: seq<string>) {
    forall i, j :: 0 <= i < j < |s| ==> s[i] != s[j]
  }

  // ---- stripping both ends of a string ----

  function StripStart(s: string, drop: char -> bool): string {
    if s != "" && drop(s[0]) then StripStart(s[1..], drop) else s
  }

  function StripEnd(s: string, drop: char -> bool): string {
    if s != "" && drop(s[|s| - 1]) then StripEnd(s[..|s| - 1], drop) else s
  }

  function Strip(s: string, drop: char -> bool): string {
    StripEnd(StripStart(s, drop), drop)
  }

  lemma {:induction false} StripStartMeans(s: string, drop: char -> bool) returns (i: nat)
    ensures i <= |s| && StripStart(s, drop) == s[i..]
    ensures forall k :: 0 <= k < i ==> drop(s[k])
    ensures i < |s| ==> !drop(s[i])
  {
    i := 0;
    if s != "" && drop(s[0]) {
      i := StripStartMeans(s[1..], drop);
      assert s[1..][i..] == s[i + 1..];
      assert forall k :: 0 < k <= i ==> s[k] == s[1..][k - 1];
      i := i + 1;
    }
  }

  lemma {:induction false} StripEndMeans(s: string, drop: char -> bool) returns (j: nat)
    ensures j <= |s| && StripEnd(s, drop) == s[..j]
    ensures forall k :: j <= k < |s| ==> drop(s[k])
    ensures j > 0 ==> !drop(s[j - 1])
  {
    j := |s|;
    if s != "" && drop(s[|s| - 1]) {
      j := StripEndMeans(s[..|s| - 1], drop);
      assert s[..|s| - 1][..j] == s[..j];
    }
  }

  /** What is left is a stretch of the string; nothing else is dropped than asked for, and all of that at the ends. */
  lemma StripMeans(s: string, drop: char -> bool) returns (i: nat, j: nat)
    ensures i <= j <= |s| && Strip(s, drop) == s[i..j]
    ensures forall k :: 0 <= k < i || j <= k < |s| ==> drop(s[k])
    ensures i < j ==> !drop(s[i]) && !drop(s[j - 1])
  {
    i := StripStartMeans(s, drop);
    var n := StripEndMeans(s[i..], drop);
    j := i + n;
    assert s[i..][..n] == s[i..j];
    assert forall k :: i <= k < |s| ==> s[k] == s[i..][k - i];
  }

  lemma StripUnique(s: string, drop: char -> bool, i: nat, j: nat)
    requires i < j <= |s| && !drop(s[i]) && !drop(s[j - 1])
    requires forall k :: 0 <= k < i || j <= k < |s| ==> drop(s[k])
    ensures Strip(s, drop) == s[i..j]
  {
    var i', j' := StripMeans(s, drop);
  }

  lemma StripsToNothing(s: string, drop: char -> bool)
    ensures Strip(s, drop) == "" <==> forall k :: 0 <= k < |s| ==> drop(s[k])
  {
    var i, j := StripMeans(s, drop);
  }

  function Min(a: int, b: int): int {
    if a <= b then a else b
  }

  function Max(a: int, b: int): int {
    if a >= b then a else b
  }

  /** Time is counted in nanoseconds, the resolution of `Instant`. */
  const SECOND: nat := 1_000_000_000

  datatype StoreError = AlreadyExists | NotFound | ConstraintFailed

  datatype Result<+T> = Ok(value: T) | Err(error: StoreError)
}
