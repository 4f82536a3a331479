/** A request served alone is one of the concurrent runs, so what holds in all of them holds for the method too. */
module ServedAlone {
  import opened Proxy
  import opened ProxyServer
  import opened Concurrency

  predicate Playable(cfg: Config, w: World, events: seq<Event>)
    decreases |events|
  {
    events == [] || (Allowed(w, events[0]) && Playable(cfg, Next(cfg, w, events[0]), events[1..]))
  }

  function Play(cfg: Config, w: World, events: seq<Event>): World
    requires Playable(cfg, w, events)
    decreases |events|
  {
    if events == [] then w else Play(cfg, Next(cfg, w, events[0]), events[1..])
  }

  predicate InOrder(inp: Inputs) {
    inp.botAt <= inp.ipAt <= inp.keyAt
  }

  /** From any world, running one of its requests by itself to the end is a concurrent run with the same result. */
  lemma {:induction false} SoloIsConcurrent(cfg: Config, w: World, i: nat, inp: Inputs) returns (events: seq<Event>)
    requires i < |w.lives| && InOrder(inp)
    requires !w.lives[i].pc.Done? ==> w.clock <= EnvAt(inp, w.lives[i].pc).now
    ensures Playable(cfg, w, events)
    ensures
      var (sh, l) := Solo(cfg, w.sh, w.lives[i], inp);
      var w' := Play(cfg, w, events);
      && w'.sh == sh && |w'.lives| == |w.lives| && w'.lives[i] == l
      && forall j :: 0 <= j < |w.lives| && j != i ==> w'.lives[j] == w.lives[j]
    decreases Rank(w.lives[i].pc)
  {
    var l := w.lives[i];
    if l.pc.Done? {
      events := [];
    } else {
      var env := EnvAt(inp, l.pc);
      var e := Run(i, env);
      var w1 := Next(cfg, w, e);
      RankFalls(cfg, w.sh, l.rq, l.pc, env);
      TimesInOrder(cfg, w.sh, l, inp);
      var rest := SoloIsConcurrent(cfg, w1, i, inp);
      events := [e] + rest;
      assert events[1..] == rest;
    }
  }

  lemma TimesInOrder(cfg: Config, sh: Shared, l: Live, inp: Inputs)
    requires !l.pc.Done? && InOrder(inp)
    ensures
      var l' := Step(cfg, sh, l, EnvAt(inp, l.pc)).1;
      !l'.pc.Done? ==> EnvAt(inp, l.pc).now <= EnvAt(inp, l'.pc).now
  {
  }
}
