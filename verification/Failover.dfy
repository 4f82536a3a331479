/**
 What the failover loop is supposed to do, said about the list of outcomes of a request's
 attempts alone (rust-core/src/proxy.rs, step 10).
 */
module Failover {
  import opened Common

  const MAX_ATTEMPTS: nat := 3

  datatype Outcome = Response(status: nat) | NetworkError

  datatype Reply = Answered(status: nat) | Failed(code: nat)

  predicate Retriable(status: nat) {
    500 <= status <= 599 || status == 429 || status == 401 || status == 403
  }

  predicate Success(status: nat) {
    200 <= status <= 299
  }

  /** An outcome that ends the loop. */
  predicate Final(o: Outcome) {
    o.Response? && !Retriable(o.status)
  }

  /** An outcome that counts against the key that was tried. */
  predicate Failing(o: Outcome) {
    !Final(o)
  }

  predicate Succeeded(o: Outcome) {
    o.Response? && Success(o.status)
  }

  /** No success is retriable, so every outcome that is not a failure ends the loop. */
  lemma SuccessIsFinal(status: nat)
    ensures Success(status) ==> !Retriable(status)
  {
  }

  function Budget(candidates: nat): nat {
    Min(candidates, MAX_ATTEMPTS)
  }

  /** The status of the latest response in the list, network errors aside. */
  function LastResponse(tried: seq<Outcome>): (r: Option<nat>)
    ensures r.None? <==> forall o :: o in tried ==> o.NetworkError?
  {
    if tried == [] then None
    else
      assert tried[|tried| - 1] in tried;
      if tried[|tried| - 1].Response? then Some(tried[|tried| - 1].status)
      else LastResponse(tried[..|tried| - 1])
  }

  predicate NoFinal(tried: seq<Outcome>) {
    forall o :: o in tried ==> !Final(o)
  }

  /** All attempts failed and the budget is spent, or the last one - and only it - is final. */
  predicate Complete(tried: seq<Outcome>, candidates: nat) {
    && 0 < |tried| <= Budget(candidates)
    && NoFinal(tried[..|tried| - 1])
    && (Final(tried[|tried| - 1]) || |tried| == Budget(candidates))
  }

  /**
   The answer to a completed list of attempts: the final response if there is one, else the
   last retriable response even if later attempts were network errors, else 502.
   */
  function AnswerTo(tried: seq<Outcome>): Reply {
    match LastResponse(tried)
    case Some(status) => Answered(status)
    case None => Failed(502)
  }

  /**
   Given what each attempt would yield, exactly one number of attempts completes a request:
   up to the first final outcome among the first `Budget(candidates)`, or all of those.
   */
  lemma ExactlyOneCompletion(outcomes: seq<Outcome>, candidates: nat) returns (m: nat)
    requires |outcomes| >= Budget(candidates) > 0
    ensures m <= |outcomes| && Complete(outcomes[..m], candidates)
    ensures forall n :: 0 <= n <= |outcomes| && Complete(outcomes[..n], candidates) ==> n == m
  {
    m := 1;
    while m < Budget(candidates) && !Final(outcomes[m - 1])
      invariant 0 < m <= Budget(candidates)
      invariant forall i :: 0 <= i < m - 1 ==> !Final(outcomes[i])
    {
      m := m + 1;
    }
    assert outcomes[..m][..m - 1] == outcomes[..m - 1];
    forall n | 0 <= n <= |outcomes| && Complete(outcomes[..n], candidates) ensures n == m {
      NotShorter(outcomes, candidates, m, n);
      NotShorter(outcomes, candidates, n, m);
    }
  }

  lemma NotShorter(outcomes: seq<Outcome>, candidates: nat, m: nat, n: nat)
    requires m <= |outcomes| && n <= |outcomes|
    requires Complete(outcomes[..m], candidates) && Complete(outcomes[..n], candidates)
    ensures n <= m
  {
    assert outcomes[..n][..n - 1] == outcomes[..n - 1];
    assert outcomes[..m][m - 1] == outcomes[m - 1];
    assert forall i :: 0 <= i < n - 1 ==> outcomes[i] in outcomes[..n - 1];
  }

  // ---- one more attempt ----

  lemma LastResponseNext(tried: seq<Outcome>, o: Outcome)
    ensures LastResponse(tried + [o]) == if o.Response? then Some(o.status) else LastResponse(tried)
  {
    assert (tried + [o])[..|tried|] == tried;
  }

  lemma NoFinalNext(tried: seq<Outcome>, o: Outcome)
    ensures NoFinal(tried + [o]) <==> NoFinal(tried) && !Final(o)
  {
    assert forall p :: p in tried + [o] <==> p in tried || p == o;
  }

  lemma FinalCompletes(tried: seq<Outcome>, o: Outcome, candidates: nat)
    requires NoFinal(tried) && |tried| < Budget(candidates) && Final(o)
    ensures Complete(tried + [o], candidates) && AnswerTo(tried + [o]) == Answered(o.status)
  {
    assert (tried + [o])[..|tried|] == tried;
  }

  lemma ExhaustedCompletes(tried: seq<Outcome>, candidates: nat)
    requires NoFinal(tried) && |tried| == Budget(candidates) > 0
    ensures Complete(tried, candidates)
  {
    assert forall o :: o in tried[..|tried| - 1] ==> o in tried;
  }

  // ---- the same in figures ----

  /**
   A completed list: at most three attempts and no more than there are candidates; all before
   the last met a network error, a 5xx, 401, 403 or 429; so may the last, if it had to be the last.
   */
  lemma CompleteInFigures(tried: seq<Outcome>, candidates: nat)
    ensures Complete(tried, candidates)
       <==> && 1 <= |tried| <= 3 && |tried| <= candidates
            && (forall i :: 0 <= i < |tried| - 1 ==>
                  tried[i].NetworkError? || 500 <= tried[i].status <= 599
                  || tried[i].status == 401 || tried[i].status == 403 || tried[i].status == 429)
            && var last := tried[|tried| - 1];
               |tried| < 3 && |tried| < candidates ==>
                 last.Response? && !(500 <= last.status <= 599)
                 && last.status != 401 && last.status != 403 && last.status != 429
  {
    if 1 <= |tried| {
      var most := tried[..|tried| - 1];
      assert forall i :: 0 <= i < |most| ==> most[i] == tried[i] && most[i] in most;
    }
  }

  /** The answer: the status of the last response among the attempts, 502 if there was none. */
  lemma AnswerInFigures(tried: seq<Outcome>, k: nat)
    requires k <= |tried| && forall j :: k <= j < |tried| ==> tried[j].NetworkError?
    ensures AnswerTo(tried) == if k == 0 then Failed(502) else AnswerTo(tried[..k])
    ensures k > 0 && tried[k - 1].Response? ==> AnswerTo(tried) == Answered(tried[k - 1].status)
  {
    LastResponseAt(tried, k);
  }

  lemma AnswersInFigures(tried: seq<Outcome>)
    ensures forall k ::
      0 <= k < |tried| && tried[k].Response? && (forall j :: k < j < |tried| ==> tried[j].NetworkError?) ==>
        AnswerTo(tried) == Answered(tried[k].status)
    ensures (forall j :: 0 <= j < |tried| ==> tried[j].NetworkError?) ==> AnswerTo(tried) == Failed(502)
  {
    forall k | 0 <= k < |tried| && tried[k].Response? && forall j :: k < j < |tried| ==> tried[j].NetworkError?
      ensures AnswerTo(tried) == Answered(tried[k].status)
    {
      AnswerInFigures(tried, k + 1);
    }
    if forall j :: 0 <= j < |tried| ==> tried[j].NetworkError? {
      AnswerInFigures(tried, 0);
    }
  }

  lemma {:induction false} LastResponseAt(tried: seq<Outcome>, k: nat)
    requires k <= |tried| && forall j :: k <= j < |tried| ==> tried[j].NetworkError?
    ensures LastResponse(tried) == LastResponse(tried[..k])
  {
    if k == |tried| {
      assert tried[..k] == tried;
    } else {
      LastResponseAt(tried[..|tried| - 1], k);
      assert tried[..|tried| - 1][..k] == tried[..k];
    }
  }
}
