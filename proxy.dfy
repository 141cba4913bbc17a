/** The proxy retry loop of `get_soup_with_proxy` (abstract_crawler.py), as a function of
    what each proxy attempt produced. */
module ProxyRetry {
  import opened Errors

  /** How one `requests.get` ended: a response with its status code and body, or one of the
      three exception kinds the loop catches (ConnectionError, Timeout, anything else). */
  datatype Attempt =
    | Responded(status: int, body: string)
    | ConnectionFailed
    | TimedOut
    | Failed

  /** The exception a failed attempt raises. */
  function ExcOf(a: Attempt): (e: Exc)
    requires !a.Responded?
    ensures e == ConnectionError <==> a == ConnectionFailed
    ensures e == RequestTimeout <==> a == TimedOut
  {
    match a
    case ConnectionFailed => ConnectionError
    case TimedOut => RequestTimeout
    case Failed => RequestError
  }

  /** Only status 200 ends the loop. */
  predicate Succeeded(a: Attempt)
  {
    a.Responded? && a.status == 200
  }

  /** Python truthiness of a requests Response: `resp.ok`, a status below 400. */
  predicate ResponseTruthy(a: Attempt)
  {
    a.Responded? && a.status < 400
  }

  /** The candidate of one proxy list at which the `for` loop breaks, if any. */
  function FirstSuccess(candidates: seq<Attempt>): (r: Option<nat>)
    ensures r.Some? ==> r.value < |candidates| && Succeeded(candidates[r.value])
    ensures r.Some? ==> forall j :: 0 <= j < r.value ==> !Succeeded(candidates[j])
    ensures r.None? ==> forall j :: 0 <= j < |candidates| ==> !Succeeded(candidates[j])
  {
    if |candidates| == 0 then None
    else if Succeeded(candidates[0]) then Some(0)
    else
      match FirstSuccess(candidates[1..])
      case Some(k) => Some(k + 1)
      case None => None
  }

  /** How many candidates the given lists hold together. */
  function CandidateCount(lists: seq<seq<Attempt>>): nat
  {
    if |lists| == 0 then 0 else |lists[0]| + CandidateCount(lists[1..])
  }

  /** Where the loop ended: the body of the successful response, the number of the list it
      came from (0 for the first list fetched), its position in that list and how many
      attempts were made in all; or, when the lists ran out, the attempts made. */
  datatype ProxyFetch =
    | Fetched(body: string, round: nat, index: nat, attempts: nat)
    | Unresolved(attempts: nat)

  /** The loop from list `round` of `supply` on, `attempts` attempts having been made. The
      lists are the successive ones `proxies.get_proxies()` returns, given as what an attempt
      through each proxy produced. */
  function ProxyLoopFrom(supply: seq<seq<Attempt>>, round: nat, attempts: nat): (r: ProxyFetch)
    requires round <= |supply|
    ensures r.Fetched? ==> round <= r.round < |supply| && r.index < |supply[r.round]|
    ensures r.Fetched? ==> Succeeded(supply[r.round][r.index]) && r.body == supply[r.round][r.index].body
    decreases |supply| - round
  {
    if round == |supply| then Unresolved(attempts)
    else
      match FirstSuccess(supply[round])
      case Some(k) => Fetched(supply[round][k].body, round, k, attempts + k + 1)
      case None => ProxyLoopFrom(supply, round + 1, attempts + |supply[round]|)
  }

  /** The whole loop, from the first list on. */
  function ProxyLoop(supply: seq<seq<Attempt>>): (r: ProxyFetch)
    ensures r.Fetched? ==> r.round < |supply| && r.index < |supply[r.round]|
    ensures r.Fetched? ==> Succeeded(supply[r.round][r.index]) && r.body == supply[r.round][r.index].body
  {
    ProxyLoopFrom(supply, 0, 0)
  }

  lemma {:induction false} StopsAtFirstSuccessFrom(supply: seq<seq<Attempt>>, round: nat, attempts: nat)
    requires round <= |supply|
    ensures var r := ProxyLoopFrom(supply, round, attempts);
      r.Fetched? ==>
        && (forall i, j :: round <= i < r.round && 0 <= j < |supply[i]| ==> !Succeeded(supply[i][j]))
        && (forall j :: 0 <= j < r.index ==> !Succeeded(supply[r.round][j]))
        && r.attempts == attempts + CandidateCount(supply[round..r.round]) + r.index + 1
    ensures var r := ProxyLoopFrom(supply, round, attempts);
      r.Unresolved? ==>
        && (forall i, j :: round <= i < |supply| && 0 <= j < |supply[i]| ==> !Succeeded(supply[i][j]))
        && r.attempts == attempts + CandidateCount(supply[round..])
    decreases |supply| - round
  {
    if round == |supply| {
      assert supply[round..] == [];
    } else if FirstSuccess(supply[round]).None? {
      StopsAtFirstSuccessFrom(supply, round + 1, attempts + |supply[round]|);
      var r := ProxyLoopFrom(supply, round, attempts);
      if r.Fetched? {
        assert supply[round..r.round][1..] == supply[round + 1..r.round];
      } else {
        assert supply[round..][1..] == supply[round + 1..];
      }
    } else {
      assert supply[round..round] == [];
    }
  }

  /** The loop stops at the first status-200 response in list order: every candidate of every
      earlier list and every earlier candidate of the same list failed, and the attempts made
      are exactly those candidates plus the successful one. When it does not stop, no
      candidate succeeded and every one was tried. */
  lemma ProxyLoopStopsAtFirstSuccess(supply: seq<seq<Attempt>>)
    ensures var r := ProxyLoop(supply);
      r.Fetched? ==>
        && (forall i, j :: 0 <= i < r.round && 0 <= j < |supply[i]| ==> !Succeeded(supply[i][j]))
        && (forall j :: 0 <= j < r.index ==> !Succeeded(supply[r.round][j]))
        && r.attempts == CandidateCount(supply[..r.round]) + r.index + 1
    ensures var r := ProxyLoop(supply);
      r.Unresolved? ==>
        && (forall i, j :: 0 <= i < |supply| && 0 <= j < |supply[i]| ==> !Succeeded(supply[i][j]))
        && r.attempts == CandidateCount(supply)
  {
    StopsAtFirstSuccessFrom(supply, 0, 0);
    assert supply[0..] == supply;
    var r := ProxyLoop(supply);
    if r.Fetched? {
      assert supply[0..r.round] == supply[..r.round];
    }
  }

  /** The loop ends in success exactly when some candidate of some list answers 200. */
  lemma ProxyLoopSucceedsIff(supply: seq<seq<Attempt>>)
    ensures ProxyLoop(supply).Fetched?
      <==> exists i, j :: 0 <= i < |supply| && 0 <= j < |supply[i]| && Succeeded(supply[i][j])
  {
    ProxyLoopStopsAtFirstSuccess(supply);
  }

  /** Two supplies that succeed at the same positions, with the same bodies there. */
  predicate SameSuccesses(s1: seq<seq<Attempt>>, s2: seq<seq<Attempt>>)
  {
    && |s1| == |s2|
    && (forall i :: 0 <= i < |s1| ==> |s1[i]| == |s2[i]|)
    && (forall i, j :: 0 <= i < |s1| && 0 <= j < |s1[i]| ==>
          Succeeded(s1[i][j]) == Succeeded(s2[i][j]) && (Succeeded(s1[i][j]) ==> s1[i][j] == s2[i][j]))
  }

  lemma {:induction false} FirstSuccessSame(c1: seq<Attempt>, c2: seq<Attempt>)
    requires |c1| == |c2|
    requires forall j :: 0 <= j < |c1| ==> Succeeded(c1[j]) == Succeeded(c2[j])
    ensures FirstSuccess(c1) == FirstSuccess(c2)
  {
    if |c1| > 0 {
      FirstSuccessSame(c1[1..], c2[1..]);
    }
  }

  lemma {:induction false} SameSuccessesFrom(s1: seq<seq<Attempt>>, s2: seq<seq<Attempt>>, round: nat, attempts: nat)
    requires SameSuccesses(s1, s2) && round <= |s1|
    ensures ProxyLoopFrom(s1, round, attempts) == ProxyLoopFrom(s2, round, attempts)
    decreases |s1| - round
  {
    if round < |s1| {
      FirstSuccessSame(s1[round], s2[round]);
      SameSuccessesFrom(s1, s2, round + 1, attempts + |s1[round]|);
    }
  }

  /** A non-200 response, a connection error, a timeout and any other exception all do the
      same thing: the loop moves on. Which of them a failing proxy produced changes nothing. */
  lemma FailureKindIrrelevant(s1: seq<seq<Attempt>>, s2: seq<seq<Attempt>>)
    requires SameSuccesses(s1, s2)
    ensures ProxyLoop(s1) == ProxyLoop(s2)
  {
    SameSuccessesFrom(s1, s2, 0, 0);
  }

  /** What `get_soup_with_proxy` returns: the body of the successful response; the model's
      supply running out stands for the source's endless retrying. */
  function ProxyOutcome(r: ProxyFetch): (o: Outcome<string>)
    ensures o.Done? <==> r.Fetched?
    ensures r.Fetched? ==> o == Done(r.body)
    ensures r.Unresolved? ==> o == Stalled
  {
    match r
    case Fetched(body, _, _, _) => Done(body)
    case Unresolved(_) => Stalled
  }

  /** Failing proxies followed by one answering 200 in the first list: the loop makes exactly
      one attempt per failing proxy plus the successful one, and never asks for another list. */
  lemma FirstAnsweringProxyWins(failures: seq<Attempt>, body: string, rest: seq<Attempt>,
                                more: seq<seq<Attempt>>)
    requires forall j :: 0 <= j < |failures| ==> !Succeeded(failures[j])
    ensures ProxyLoop([failures + [Responded(200, body)] + rest] + more)
         == Fetched(body, 0, |failures|, |failures| + 1)
  {
    var list := failures + [Responded(200, body)] + rest;
    assert list[|failures|] == Responded(200, body);
    assert forall j :: 0 <= j < |failures| ==> list[j] == failures[j];
    assert ([list] + more)[0] == list;
  }

  lemma {:induction false} EmptyListsFrom(supply: seq<seq<Attempt>>, round: nat, attempts: nat)
    requires round <= |supply|
    requires forall i :: 0 <= i < |supply| ==> supply[i] == []
    ensures ProxyLoopFrom(supply, round, attempts) == Unresolved(attempts)
    decreases |supply| - round
  {
    if round < |supply| {
      EmptyListsFrom(supply, round + 1, attempts);
    }
  }

  /** Lists that come back empty get the loop nowhere: it makes no attempt and keeps asking
      for new lists. */
  lemma EmptyListsNeverResolve(supply: seq<seq<Attempt>>)
    requires forall i :: 0 <= i < |supply| ==> supply[i] == []
    ensures ProxyLoop(supply) == Unresolved(0)
  {
    EmptyListsFrom(supply, 0, 0);
  }
}
