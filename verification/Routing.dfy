/** From a request path to a provider name and the path sent upstream (rust-core/src/proxy.rs, steps 3 and 9). */
module Routing {
  import opened Common

  datatype Route = Route(provider: string, restPath: string)

  predicate IsSlash(c: char) {
    c == '/'
  }

  function Split(s: string): (segments: seq<string>)
    ensures |segments| > 0
  {
    if s == "" then [""]
    else
      var tail := Split(s[1..]);
      if s[0] == '/' then [""] + tail else [[s[0]] + tail[0]] + tail[1..]
  }

  function Join(segments: seq<string>): string {
    if segments == [] then ""
    else if |segments| == 1 then segments[0]
    else segments[0] + "/" + Join(segments[1..])
  }

  function RouteOf(path: string): Option<Route> {
    var trimmed := Strip(path, IsSlash);
    if trimmed == "" then None
    else
      var segments := Split(trimmed);
      var rest := Join(segments[1..]);
      Some(Route(segments[0], if rest == "" then "" else "/" + rest))
  }

  function Target(baseUrl: string, r: Route, query: Option<string>): string {
    StripEnd(baseUrl, IsSlash) + r.restPath + (if query.None? then "" else "?" + query.value)
  }

  lemma {:induction false} JoinSplit(s: string)
    ensures Join(Split(s)) == s && '/' !in Split(s)[0]
  {
    if s != "" {
      JoinSplit(s[1..]);
      var tail := Split(s[1..]);
      if s[0] == '/' {
        assert ([""] + tail)[1..] == tail;
        assert s == "/" + s[1..];
      } else {
        assert ([[s[0]] + tail[0]] + tail[1..])[1..] == tail[1..];
        assert s == [s[0]] + s[1..];
        if |tail| > 1 {
          assert [s[0]] + (tail[0] + "/" + Join(tail[1..])) == [s[0]] + tail[0] + "/" + Join(tail[1..]);
        }
      }
    }
  }

  /** A provider name and an upstream path that make up `trimmed`, cut at its first slash. */
  predicate Cut(r: Route, trimmed: string) {
    && r.provider + r.restPath == trimmed
    && r.provider != "" && '/' !in r.provider
    && (r.restPath == "" || r.restPath[0] == '/')
  }

  lemma JoinCons(segments: seq<string>)
    requires |segments| > 1
    ensures Join(segments) == segments[0] + ("/" + Join(segments[1..]))
  {
    assert segments[0] + "/" + Join(segments[1..]) == segments[0] + ("/" + Join(segments[1..]));
  }

  lemma RouteCuts(path: string)
    requires Strip(path, IsSlash) != ""
    ensures RouteOf(path).Some? && Cut(RouteOf(path).value, Strip(path, IsSlash))
  {
    var trimmed := Strip(path, IsSlash);
    var i, j := StripMeans(path, IsSlash);
    assert trimmed[0] == path[i] && trimmed[|trimmed| - 1] == path[j - 1];
    JoinSplit(trimmed);
    var segments := Split(trimmed);
    var rest := Join(segments[1..]);
    if |segments| > 1 {
      JoinCons(segments);
      assert trimmed[|segments[0]|] == '/';
      assert trimmed[|trimmed| - 1] == ("/" + rest)[|rest|];
    } else {
      assert segments[0] + "" == segments[0];
    }
  }

  function FirstSlash(s: string): nat {
    if s == "" || s[0] == '/' then 0 else 1 + FirstSlash(s[1..])
  }

  lemma {:induction false} CutAtFirstSlash(a: string, b: string)
    requires '/' !in a && (b == "" || b[0] == '/')
    ensures FirstSlash(a + b) == |a|
  {
    if a == "" {
      assert a + b == b;
    } else {
      CutAtFirstSlash(a[1..], b);
      assert (a + b)[1..] == a[1..] + b && (a + b)[0] == a[0];
    }
  }

  lemma CutUnique(r: Route, q: Route, trimmed: string)
    requires Cut(r, trimmed) && Cut(q, trimmed)
    ensures r == q
  {
    CutAtFirstSlash(r.provider, r.restPath);
    CutAtFirstSlash(q.provider, q.restPath);
    var n := FirstSlash(trimmed);
    assert r.provider == trimmed[..n] == q.provider;
    assert r.restPath == trimmed[n..] == q.restPath;
  }

  lemma CutIff(path: string, r: Route)
    ensures RouteOf(path) == Some(r) <==> Cut(r, Strip(path, IsSlash))
  {
    if Strip(path, IsSlash) != "" {
      RouteCuts(path);
      if Cut(r, Strip(path, IsSlash)) {
        CutUnique(r, RouteOf(path).value, Strip(path, IsSlash));
      }
    }
  }

  /** The path is slashes, then the provider name and the rest, then slashes. */
  predicate RoutedAt(path: string, r: Route, i: nat, j: nat) {
    && i <= j <= |path| && path[i..j] == r.provider + r.restPath
    && (forall k :: 0 <= k < |path| && (k < i || j <= k) ==> path[k] == '/')
    && r.provider != "" && '/' !in r.provider
    && (r.restPath != "" ==> r.restPath[0] == '/' && r.restPath[|r.restPath| - 1] != '/')
  }

  lemma CutRouted(path: string, r: Route) returns (i: nat, j: nat)
    requires Cut(r, Strip(path, IsSlash))
    ensures RoutedAt(path, r, i, j)
  {
    var trimmed := Strip(path, IsSlash);
    i, j := StripMeans(path, IsSlash);
    assert trimmed[|trimmed| - 1] == path[j - 1];
    assert r.restPath != "" ==> r.restPath[|r.restPath| - 1] == trimmed[|trimmed| - 1];
  }

  lemma RoutedCuts(path: string, r: Route, i: nat, j: nat)
    requires RoutedAt(path, r, i, j)
    ensures Cut(r, Strip(path, IsSlash))
  {
    var held := path[i..j];
    assert held[0] == path[i] && held[|held| - 1] == path[j - 1];
    assert held[0] == r.provider[0] && r.provider[0] in r.provider;
    assert r.restPath == "" ==> held[|held| - 1] == r.provider[|r.provider| - 1];
    assert r.provider[|r.provider| - 1] in r.provider;
    StripUnique(path, IsSlash, i, j);
  }

  /**
   The split is exact: a route is what the path holds between its outer slashes, cut before the
   first inner slash, and nothing of it is lost, repeated or normalised.
   */
  lemma RouteIff(path: string, r: Route)
    ensures RouteOf(path) == Some(r) <==> exists i: nat, j: nat :: RoutedAt(path, r, i, j)
  {
    CutIff(path, r);
    if Cut(r, Strip(path, IsSlash)) {
      var i, j := CutRouted(path, r);
    }
    if i: nat, j: nat :| RoutedAt(path, r, i, j) {
      RoutedCuts(path, r, i, j);
    }
  }

  /** There is no route iff the path is nothing but slashes. */
  lemma NoRouteIff(path: string)
    ensures RouteOf(path).None? <==> forall c :: c in path ==> c == '/'
  {
    StripsToNothing(path, IsSlash);
    assert forall k :: 0 <= k < |path| ==> path[k] in path;
  }

  /**
   The upstream URL: the base up to its trailing slashes, then what follows the provider name in
   the stripped path, character by character, then the query behind its question mark; so base
   and path meet in exactly one slash, or the path adds nothing.
   */
  lemma TargetMeans(baseUrl: string, path: string, query: Option<string>)
    requires RouteOf(path).Some?
    ensures
      var r, b, q := RouteOf(path).value, StripEnd(baseUrl, IsSlash), if query.None? then "" else "?" + query.value;
      && r.provider <= Strip(path, IsSlash)
      && Target(baseUrl, r, query) == b + Strip(path, IsSlash)[|r.provider|..] + q
      && b <= baseUrl && (forall i :: |b| <= i < |baseUrl| ==> baseUrl[i] == '/')
      && (b != "" ==> b[|b| - 1] != '/')
      && (Strip(path, IsSlash)[|r.provider|..] != "" ==> Strip(path, IsSlash)[|r.provider|] == '/')
  {
    RouteCuts(path);
    var n := StripEndMeans(baseUrl, IsSlash);
    var r := RouteOf(path).value;
    assert Strip(path, IsSlash)[|r.provider|..] == r.restPath;
  }
}
