/**
 What a send answers, stated on the attempts, dials and waits it made, and where a failover
 goes.
 */
module SendRules {
  import opened Options
  import opened Send

  // ---- the answer of a send ----

  /** The attempts from `start` on that ended in a sequence mismatch. */
  function Mismatches(tried: seq<Outcome>, start: nat): nat {
    if |tried| <= start then 0
    else
      Mismatches(tried[..|tried| - 1], start) + if tried[|tried| - 1] == SequenceMismatch then 1 else 0
  }

  /** The client went on from c: each of its attempts ended as the network had it end. */
  ghost predicate Continues(net: Network, c: Client, c': Client) {
    && |c.tried| < |c'.tried| && c.tried <= c'.tried && c.dials <= c'.dials && c.waits <= c'.waits
    && forall i :: |c.tried| <= i < |c'.tried| ==> c'.tried[i] == net.attempt(i)
  }

  /** The answer follows the last attempt; only a mismatch or a canceled wait needs to look further back. */
  ghost predicate Reports(r: Sent, o: Outcome) {
    && (forall h :: r == Success(h) <==> o == Done(h))
    && (r == ErrOther <==> o == OtherError)
    && (r == ErrSequenceMismatch || r == ErrCanceled <==> o == SequenceMismatch)
    && (r == ErrNoEndpoint || r == ErrDial <==> o == Unavailable)
  }

  /** A dial that fails ends the send, and nothing else is called a dial error. */
  ghost predicate DialsUntilFailure(net: Network, c: Client, c': Client, r: Sent) {
    && (forall i :: c.dials <= i < c'.dials - 1 ==> net.dial(i))
    && (r == ErrDial <==> c'.dials > c.dials && !net.dial(c'.dials - 1))
  }

  /** What one attempt with its failovers answers. */
  ghost predicate FailoverAnswers(net: Network, c: Client, c': Client, r: Sent) {
    && Continues(net, c, c') && Reports(r, c'.tried[|c'.tried| - 1]) && r != ErrCanceled
    && DialsUntilFailure(net, c, c', r) && c'.waits == c.waits
    && forall i :: |c.tried| <= i < |c'.tried| - 1 ==> c'.tried[i] == Unavailable
  }

  lemma {:induction false} FailoverAnswer(net: Network, c: Client, rounds: nat)
    requires rounds > 0
    ensures
      var (c', r) := WithFailover(net, c, rounds);
      FailoverAnswers(net, c, c', r)
    decreases rounds
  {
    var o, c1 := net.attempt(|c.tried|), Tried(net, c);
    if o == Unavailable {
      var (c2, end) := FailOver(net, c1);
      FailOverCosts(net, c1);
      if end.None? && rounds > 1 {
        var (c', r) := WithFailover(net, c2, rounds - 1);
        FailoverAnswer(net, c2, rounds - 1);
        AnswerJoins(net, c, c2, c', r);
      }
    }
  }

  /** A failover attempts nothing; it dials at most once, and a dial that fails is its error. */
  lemma FailOverCosts(net: Network, c: Client)
    ensures
      var (c', end) := FailOver(net, c);
      && c'.tried == c.tried && c'.waits == c.waits && (c'.dials == c.dials || c'.dials == c.dials + 1)
      && (end == Some(ErrDial) <==> c'.dials > c.dials && !net.dial(c.dials))
      && (end == None || end == Some(ErrDial) || end == Some(ErrNoEndpoint))
  {}

  lemma AnswerJoins(net: Network, c: Client, c1: Client, c': Client, r: Sent)
    requires c1.tried == c.tried + [Unavailable] && net.attempt(|c.tried|) == Unavailable && c1.waits == c.waits
    requires c1.dials == c.dials || (c1.dials == c.dials + 1 && net.dial(c.dials))
    requires FailoverAnswers(net, c1, c', r)
    ensures FailoverAnswers(net, c, c', r)
  {
    assert c'.tried[|c.tried|] == c1.tried[|c.tried|];
  }

  /** What a send with so many retries answers. */
  ghost predicate SendAnswers(net: Network, c: Client, c': Client, r: Sent, retries: nat) {
    && Continues(net, c, c') && Reports(r, c'.tried[|c'.tried| - 1])
    && DialsUntilFailure(net, c, c', r)
    && c'.waits <= c.waits + retries
    && (forall i :: c.waits <= i < c'.waits - 1 ==> net.wait(i))
    && (r == ErrCanceled <==> c'.waits > c.waits && !net.wait(c'.waits - 1))
    && (r == ErrSequenceMismatch ==> c'.waits == c.waits + retries)
    && Mismatches(c'.tried, |c.tried|) == c'.waits - c.waits + if r == ErrSequenceMismatch then 1 else 0
  }

  lemma {:induction false} NoMismatches(tried: seq<Outcome>, start: nat)
    requires start < |tried| && forall i :: start <= i < |tried| - 1 ==> tried[i] != SequenceMismatch
    ensures Mismatches(tried, start) == if tried[|tried| - 1] == SequenceMismatch then 1 else 0
  {
    var init := tried[..|tried| - 1];
    if start < |init| {
      NoMismatches(init, start);
    }
  }

  lemma {:induction false} MismatchesAdd(tried: seq<Outcome>, start: nat, mid: nat)
    requires start <= mid <= |tried|
    ensures Mismatches(tried, start) == Mismatches(tried[..mid], start) + Mismatches(tried, mid)
  {
    if |tried| == mid {
      assert tried[..mid] == tried;
    } else {
      var init := tried[..|tried| - 1];
      MismatchesAdd(init, start, mid);
      assert init[..mid] == tried[..mid];
    }
  }

  lemma {:induction false} SendAnswer(net: Network, c: Client, rounds: nat, retries: nat)
    requires rounds > 0
    ensures
      var (c', r) := SendWith(net, c, rounds, retries);
      SendAnswers(net, c, c', r, retries)
    decreases retries
  {
    FailoverAnswer(net, c, rounds);
    SendUnfolds(net, c, rounds, retries);
    var (c1, r) := WithFailover(net, c, rounds);
    if r != ErrSequenceMismatch || retries == 0 {
      SendEnds(net, c, c1, r, retries);
    } else if !net.wait(c1.waits) {
      SendCanceled(net, c, c1, retries);
    } else {
      SendAnswer(net, Waited(c1), rounds, retries - 1);
      var (c', r') := SendWith(net, Waited(c1), rounds, retries - 1);
      SendJoins(net, c, c1, c', r', retries);
    }
  }

  lemma SendEnds(net: Network, c: Client, c': Client, r: Sent, retries: nat)
    requires FailoverAnswers(net, c, c', r) && (r != ErrSequenceMismatch || retries == 0)
    ensures SendAnswers(net, c, c', r, retries)
  {
    NoMismatches(c'.tried, |c.tried|);
  }

  lemma SendCanceled(net: Network, c: Client, c1: Client, retries: nat)
    requires FailoverAnswers(net, c, c1, ErrSequenceMismatch) && retries > 0 && !net.wait(c1.waits)
    ensures SendAnswers(net, c, Waited(c1), ErrCanceled, retries)
  {
    NoMismatches(c1.tried, |c.tried|);
  }

  lemma SendJoins(net: Network, c: Client, c1: Client, c': Client, r: Sent, retries: nat)
    requires FailoverAnswers(net, c, c1, ErrSequenceMismatch) && retries > 0 && net.wait(c1.waits)
    requires SendAnswers(net, Waited(c1), c', r, retries - 1)
    ensures SendAnswers(net, c, c', r, retries)
  {
    ContinuesOn(net, c, c1, c');
    OneMoreMismatch(c1.tried, c'.tried, |c.tried|);
    DialsOn(net, c, c1, c', r);
  }

  lemma OneMoreMismatch(tried: seq<Outcome>, tried': seq<Outcome>, start: nat)
    requires start < |tried| && tried <= tried' && tried[|tried| - 1] == SequenceMismatch
    requires forall i :: start <= i < |tried| - 1 ==> tried[i] == Unavailable
    ensures Mismatches(tried', start) == 1 + Mismatches(tried', |tried|)
  {
    NoMismatches(tried, start);
    MismatchesAdd(tried', start, |tried|);
    assert tried'[..|tried|] == tried;
  }

  lemma DialsOn(net: Network, c: Client, c1: Client, c': Client, r: Sent)
    requires DialsUntilFailure(net, c, c1, ErrSequenceMismatch) && DialsUntilFailure(net, Waited(c1), c', r)
    requires c.dials <= c1.dials <= c'.dials
    ensures DialsUntilFailure(net, c, c', r)
  {}

  lemma ContinuesOn(net: Network, c: Client, c1: Client, c': Client)
    requires Continues(net, c, c1) && Continues(net, Waited(c1), c')
    ensures Continues(net, c, c')
  {
    assert c'.tried[..|c1.tried|] == c1.tried && c1.tried[..|c.tried|] == c.tried;
    forall i | |c.tried| <= i < |c1.tried| ensures c'.tried[i] == net.attempt(i) {
      assert c'.tried[i] == c'.tried[..|c1.tried|][i] == c1.tried[i];
    }
  }

  /**
   For every network and client, what a send answers: the hash exactly if its last attempt
   went through; a mismatch exactly if the last attempt was one after three waits, so the
   fourth; a cancellation exactly if the wait after a mismatch was canceled; an endpoint
   error exactly if the last attempt found the endpoint unavailable.
   */
  lemma SendAnswered(net: Network, c: Client)
    ensures
      var (c', r) := SendWith(net, c, FAILOVER_ROUNDS, MAX_SEQUENCE_RETRIES);
      && SendAnswers(net, c, c', r, 3)
      && (r == ErrSequenceMismatch <==>
            && c'.tried[|c'.tried| - 1] == SequenceMismatch && Mismatches(c'.tried, |c.tried|) == 4)
  {
    SendAnswer(net, c, FAILOVER_ROUNDS, MAX_SEQUENCE_RETRIES);
  }

  // ---- where a failover goes ----

  /** All but the slashes at the end. */
  lemma {:induction false} TrimmedURL(url: string) returns (n: nat)
    ensures n <= |url| && TrimSlash(url) == url[..n] && (n > 0 ==> url[n - 1] != '/')
    ensures forall i :: n <= i < |url| ==> url[i] == '/'
  {
    n := |url|;
    if url != [] && url[|url| - 1] == '/' {
      n := TrimmedURL(url[..|url| - 1]);
      assert url[..|url| - 1][..n] == url[..n];
      assert forall i :: 0 <= i < |url| - 1 ==> url[..|url| - 1][i] == url[i];
    }
  }

  /** The i-th entry is the first healthy one. */
  ghost predicate FirstUp(p: seq<Entry>, i: int) {
    0 <= i < |p| && p[i].healthy && forall j :: 0 <= j < i ==> !p[j].healthy
  }

  ghost predicate FirstUpIs(p: seq<Entry>, url: string) { exists i :: FirstUp(p, i) && p[i].url == url }

  ghost predicate Exhausted(p: seq<Entry>) { forall i :: 0 <= i < |p| ==> !p[i].healthy }

  lemma {:induction false} FirstHealthyIs(p: seq<Entry>)
    ensures FirstHealthy(p).None? <==> Exhausted(p)
    ensures FirstHealthy(p).Some? ==> FirstUpIs(p, FirstHealthy(p).value)
  {
    if p == [] {
    } else if p[0].healthy {
      assert FirstUp(p, 0);
    } else {
      FirstHealthyIs(p[1..]);
      assert forall i :: 0 < i < |p| ==> p[i] == p[1..][i - 1];
      if FirstHealthy(p).Some? {
        var i :| FirstUp(p[1..], i) && p[1..][i].url == FirstHealthy(p).value;
        assert FirstUp(p, i + 1);
      }
    }
  }

  /** The pool with the first entry of the URL marked unhealthy. */
  ghost predicate SetDown(p: seq<Entry>, q: seq<Entry>, url: string) {
    && |q| == |p|
    && forall k :: 0 <= k < |p| ==> q[k] == if p[k].url == url && !Repeats(p, k) then p[k].(healthy := false) else p[k]
  }

  lemma MarkedSetsDown(p: seq<Entry>, url: string)
    ensures SetDown(p, Marked(p, url, false), url)
  {
    forall k | 0 <= k < |p|
      ensures Marked(p, url, false)[k] == if p[k].url == url && !Repeats(p, k) then p[k].(healthy := false) else p[k]
    {
      MarkedOnly(p, url, false, k);
    }
  }

  lemma MarkActiveSetsDown(c: Client)
    ensures SetDown(ActivePool(c), ActivePool(MarkActive(c)), c.active)
    ensures if c.usingREST then MarkActive(c).grpc == c.grpc else MarkActive(c).rest == c.rest
  {
    MarkedSetsDown(ActivePool(c), c.active);
  }

  /** A restored endpoint is healthy where its URL is first listed for gRPC; nothing else changes. */
  lemma RestoreGoes(c: Client, url: string, k: nat)
    requires k < |Entries(c.grpc)|
    ensures
      var p, c' := Entries(c.grpc), Restored(c, url);
      && c'.(grpc := c.grpc) == c && |Entries(c'.grpc)| == |p|
      && Entries(c'.grpc)[k] == if p[k].url == url && !Repeats(p, k) then p[k].(healthy := true) else p[k]
  {
    MarkedOnly(Entries(c.grpc), url, true, k);
  }

  /** The active endpoint is the first healthy one of its pool. */
  ghost predicate OnFirst(c: Client) {
    exists url :: FirstUpIs(ActivePool(c), url) && c.active == if c.usingREST then TrimSlash(url) else url
  }

  /**
   A failover marks the active endpoint unhealthy in its pool, leaves the other pool alone and
   switches to the first healthy endpoint of the same pool, or else from gRPC to the first
   healthy one of REST. It finds none exactly if all of these are down.
   */
  lemma FailOverGoes(net: Network, c: Client)
    ensures
      var (c', end) := FailOver(net, c);
      && (if c.usingREST then c'.grpc == c.grpc && SetDown(Entries(c.rest), Entries(c'.rest), c.active)
          else c'.rest == c.rest && SetDown(Entries(c.grpc), Entries(c'.grpc), c.active))
      && (end.None? ==> OnFirst(c') && c'.switches == c.switches + 1)
      && (end.Some? ==> c'.active == c.active && c'.usingREST == c.usingREST && c'.switches == c.switches)
      && (c'.usingREST <==> c.usingREST || (end.None? && Exhausted(Entries(c'.grpc))))
      && (end == Some(ErrNoEndpoint) <==>
            Exhausted(Entries(c'.rest)) && (c.usingREST || Exhausted(Entries(c'.grpc))))
  {
    MarkActiveSetsDown(c);
    FirstHealthyIs(Entries(MarkActive(c).grpc));
    FirstHealthyIs(Entries(MarkActive(c).rest));
    var (c', end) := FailOver(net, c);
    if end.None? {
      assert FirstUpIs(ActivePool(c'), NextOf(if c'.usingREST then c'.rest else c'.grpc).value);
    }
  }
}
