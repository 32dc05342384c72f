/**
 Sending with retries and endpoint failover: internal/tx/client.go and endpoint.go.

 The network is an oracle that answers attempts, dials and waits in the order in which
 they are made.
 */
module Send {
  import opened Options

  datatype Entry = Entry(url: string, healthy: bool)

  /** How one attempt to estimate, sign, broadcast and confirm can end. */
  datatype Outcome = Done(txHash: string) | SequenceMismatch | Unavailable | OtherError

  datatype Sent = Success(txHash: string) | ErrSequenceMismatch | ErrNoEndpoint | ErrDial | ErrOther | ErrCanceled

  datatype Network = Network(attempt: nat -> Outcome, dial: nat -> bool, wait: nat -> bool)

  const MAX_SEQUENCE_RETRIES: nat := 3
  const FAILOVER_ROUNDS: nat := 2

  // ---- endpoint pools ----

  function FirstHealthy(p: seq<Entry>): Option<string> {
    if p == [] then None else if p[0].healthy then Some(p[0].url) else FirstHealthy(p[1..])
  }

  /** The first entry with the URL gets the given health. */
  function Marked(p: seq<Entry>, url: string, healthy: bool): (q: seq<Entry>)
    ensures |q| == |p|
  {
    if p == [] then []
    else if p[0].url == url then [p[0].(healthy := healthy)] + p[1..]
    else [p[0]] + Marked(p[1..], url, healthy)
  }

  class EndpointPool {
    const endpoints: array<Entry>

    constructor (urls: seq<string>)
      ensures fresh(endpoints) && endpoints[..] == Fresh(urls)
    {
      var e := new Entry[|urls|](i => Entry("", true));
      for i := 0 to |urls|
        invariant forall k :: 0 <= k < i ==> e[k] == Entry(urls[k], true)
      {
        e[i] := Entry(urls[i], true);
      }
      endpoints := e;
    }

    method Next() returns (r: Option<string>)
      ensures r == FirstHealthy(endpoints[..])
    {
      for i := 0 to endpoints.Length
        invariant FirstHealthy(endpoints[..]) == FirstHealthy(endpoints[i..])
      {
        assert endpoints[i..][1..] == endpoints[i + 1..];
        if endpoints[i].healthy {
          return Some(endpoints[i].url);
        }
      }
      return None;
    }

    /** MarkUnhealthy and MarkHealthy. */
    method Mark(url: string, healthy: bool)
      modifies endpoints
      ensures endpoints[..] == Marked(old(endpoints[..]), url, healthy)
    {
      for i := 0 to endpoints.Length
        invariant endpoints[..] == old(endpoints[..])
        invariant forall k :: 0 <= k < i ==> endpoints[..][k].url != url
      {
        if endpoints[i].url == url {
          MarkedAt(endpoints[..], url, healthy, i);
          endpoints[i] := endpoints[i].(healthy := healthy);
          return;
        }
      }
      MarkedNowhere(endpoints[..], url, healthy);
    }
  }

  lemma {:induction false} MarkedAt(p: seq<Entry>, url: string, healthy: bool, k: nat)
    requires k < |p| && p[k].url == url && forall i :: 0 <= i < k ==> p[i].url != url
    ensures Marked(p, url, healthy) == p[k := p[k].(healthy := healthy)]
  {
    if k == 0 {
    } else {
      MarkedAt(p[1..], url, healthy, k - 1);
    }
  }

  lemma {:induction false} MarkedNowhere(p: seq<Entry>, url: string, healthy: bool)
    requires forall i :: 0 <= i < |p| ==> p[i].url != url
    ensures Marked(p, url, healthy) == p
  {
    if p == [] {
    } else {
      MarkedNowhere(p[1..], url, healthy);
    }
  }

  function Fresh(urls: seq<string>): seq<Entry> {
    seq(|urls|, i requires 0 <= i < |urls| => Entry(urls[i], true))
  }

  // ---- the client as a state machine ----

  /** `tried` is the list of all attempts made; `switches` counts changes of transport. */
  datatype Client = Client(
    grpc: Option<seq<Entry>>, rest: Option<seq<Entry>>, active: string, usingREST: bool,
    tried: seq<Outcome>, switches: nat, dials: nat, waits: nat)

  /** strings.TrimRight(url, "/"), which the REST transport applies to its URL. */
  function TrimSlash(url: string): string {
    if url != [] && url[|url| - 1] == '/' then TrimSlash(url[..|url| - 1]) else url
  }

  function ToREST(c: Client, url: string): Client {
    c.(active := TrimSlash(url), usingREST := true, switches := c.switches + 1)
  }

  function MarkActive(c: Client): Client {
    if c.usingREST then (if c.rest.None? then c else c.(rest := Some(Marked(c.rest.value, c.active, false))))
    else (if c.grpc.None? then c else c.(grpc := Some(Marked(c.grpc.value, c.active, false))))
  }

  function NextOf(p: Option<seq<Entry>>): Option<string> { if p.None? then None else FirstHealthy(p.value) }

  /** After an unavailable endpoint: the next transport, or the error that ends the attempt. */
  function FailOver(net: Network, c0: Client): (Client, Option<Sent>) {
    var c := MarkActive(c0);
    if c.usingREST then
      match NextOf(c.rest)
      case Some(url) => (ToREST(c, url), None)
      case None => (c, Some(ErrNoEndpoint))
    else
      match NextOf(c.grpc)
      case Some(url) =>
        if net.dial(c.dials) then (c.(active := url, switches := c.switches + 1, dials := c.dials + 1), None)
        else (c.(dials := c.dials + 1), Some(ErrDial))
      case None =>
        match NextOf(c.rest)
        case Some(url) => (ToREST(c, url), None)
        case None => (c, Some(ErrNoEndpoint))
  }

  function Tried(net: Network, c: Client): Client { c.(tried := c.tried + [net.attempt(|c.tried|)]) }

  function SentOf(o: Outcome): Sent {
    match o
    case Done(h) => Success(h)
    case SequenceMismatch => ErrSequenceMismatch
    case Unavailable => ErrNoEndpoint
    case OtherError => ErrOther
  }

  /** attemptSendWithFailover, with the rounds that are left. */
  function WithFailover(net: Network, c: Client, rounds: nat): (Client, Sent)
    decreases rounds
  {
    if rounds == 0 then (c, ErrNoEndpoint)
    else
      var o, c1 := net.attempt(|c.tried|), Tried(net, c);
      if o != Unavailable then (c1, SentOf(o))
      else
        var (c2, end) := FailOver(net, c1);
        if end.Some? then (c2, end.value) else WithFailover(net, c2, rounds - 1)
  }

  function Waited(c: Client): Client { c.(waits := c.waits + 1) }

  /** doSend, with so many rounds per attempt and the retries that are left. */
  function SendWith(net: Network, c: Client, rounds: nat, retries: nat): (Client, Sent)
    decreases retries
  {
    var (c1, r) := WithFailover(net, c, rounds);
    if r != ErrSequenceMismatch || retries == 0 then (c1, r)
    else
      var c2 := Waited(c1);
      if !net.wait(c1.waits) then (c2, ErrCanceled) else SendWith(net, c2, rounds, retries - 1)
  }

  lemma SendUnfolds(net: Network, c: Client, rounds: nat, retries: nat)
    ensures
      var (c1, r) := WithFailover(net, c, rounds);
      SendWith(net, c, rounds, retries) ==
        if r != ErrSequenceMismatch || retries == 0 then (c1, r)
        else if !net.wait(c1.waits) then (Waited(c1), ErrCanceled)
        else SendWith(net, Waited(c1), rounds, retries - 1)
  {}

  /** Whatever holds of the client and is kept by an attempt, a wait and a failover holds after a send. */
  ghost predicate Stable(net: Network, inv: Client -> bool) {
    && (forall c {:trigger Tried(net, c)} :: inv(c) ==> inv(Tried(net, c)))
    && (forall c {:trigger Waited(c)} :: inv(c) ==> inv(Waited(c)))
    && (forall c {:trigger FailOver(net, c)} :: inv(c) ==> inv(FailOver(net, c).0))
  }

  lemma {:induction false} RoundsKeep(net: Network, c: Client, rounds: nat, inv: Client -> bool)
    requires Stable(net, inv) && inv(c)
    ensures inv(WithFailover(net, c, rounds).0)
    decreases rounds
  {
    if rounds == 0 {
    } else {
      var c1 := Tried(net, c);
      var (c2, end) := FailOver(net, c1);
      if net.attempt(|c.tried|) == Unavailable && end.None? {
        RoundsKeep(net, c2, rounds - 1, inv);
      }
    }
  }

  lemma {:induction false} SendKeeps(net: Network, c: Client, rounds: nat, retries: nat, inv: Client -> bool)
    requires Stable(net, inv) && inv(c)
    ensures inv(SendWith(net, c, rounds, retries).0)
    decreases retries
  {
    RoundsKeep(net, c, rounds, inv);
    SendUnfolds(net, c, rounds, retries);
    var (c1, r) := WithFailover(net, c, rounds);
    if r == ErrSequenceMismatch && retries > 0 && net.wait(c1.waits) {
      SendKeeps(net, Waited(c1), rounds, retries - 1, inv);
    }
  }

  // ---- how often, and after what ----

  /** The attempts a run made are appended, and all but the last were worth repeating. */
  ghost predicate RetriesOnly(before: seq<Outcome>, after: seq<Outcome>, most: nat) {
    && before <= after && |before| < |after| <= |before| + most
    && (forall i :: |before| <= i < |after| - 1 ==> after[i] == SequenceMismatch || after[i] == Unavailable)
  }

  lemma {:induction false} FailoverRetries(net: Network, c: Client, rounds: nat)
    requires rounds > 0
    ensures
      var (c', r) := WithFailover(net, c, rounds);
      && RetriesOnly(c.tried, c'.tried, rounds) && (c.usingREST ==> c'.usingREST)
      && (r == ErrSequenceMismatch ==> c'.tried[|c'.tried| - 1] == SequenceMismatch)
    decreases rounds
  {
    var o, c1 := net.attempt(|c.tried|), Tried(net, c);
    if o == Unavailable {
      var (c2, end) := FailOver(net, c1);
      if end.None? && rounds > 1 {
        FailoverRetries(net, c2, rounds - 1);
      }
    }
  }

  lemma RetriesAppend(a: seq<Outcome>, b: seq<Outcome>, c: seq<Outcome>, m: nat, n: nat)
    requires RetriesOnly(a, b, m) && b[|b| - 1] == SequenceMismatch && RetriesOnly(b, c, n)
    ensures RetriesOnly(a, c, m + n)
  {}

  lemma {:induction false} SendRetries(net: Network, c: Client, rounds: nat, retries: nat)
    requires rounds > 0
    ensures
      var (c', r) := SendWith(net, c, rounds, retries);
      RetriesOnly(c.tried, c'.tried, rounds * (retries + 1)) && (c.usingREST ==> c'.usingREST)
    decreases retries
  {
    FailoverRetries(net, c, rounds);
    var (c1, r) := WithFailover(net, c, rounds);
    assert rounds * (retries + 1) == rounds + rounds * retries;
    if r == ErrSequenceMismatch && retries > 0 && net.wait(c1.waits) {
      var c2 := Waited(c1);
      SendRetries(net, c2, rounds, retries - 1);
      RetriesAppend(c.tried, c1.tried, SendWith(net, c2, rounds, retries - 1).0.tried, rounds, rounds * retries);
    }
  }

  /**
   A send makes at most two attempts per sequence number and retries the sequence at most
   three times, so it makes at most eight attempts; it repeats only after a sequence
   mismatch or an unavailable endpoint, and never goes back from REST to gRPC.
   */
  lemma SendBounded(net: Network, c: Client)
    ensures
      var (c', r) := SendWith(net, c, FAILOVER_ROUNDS, MAX_SEQUENCE_RETRIES);
      RetriesOnly(c.tried, c'.tried, 8) && (c.usingREST ==> c'.usingREST)
  {
    SendRetries(net, c, FAILOVER_ROUNDS, MAX_SEQUENCE_RETRIES);
  }

  // ---- how many switches ----

  ghost predicate Distinct(p: seq<Entry>) {
    forall i, j :: 0 <= i < j < |p| ==> p[i].url != p[j].url
  }

  /** No REST URL ends in a slash, so the transport's URL is the pool's. */
  ghost predicate Plain(p: seq<Entry>) {
    forall i :: 0 <= i < |p| ==> TrimSlash(p[i].url) == p[i].url
  }

  function Entries(p: Option<seq<Entry>>): seq<Entry> { if p.None? then [] else p.value }

  function CountHealthy(p: seq<Entry>): nat {
    if p == [] then 0 else (if p[0].healthy then 1 else 0) + CountHealthy(p[1..])
  }

  ghost predicate Lists(p: seq<Entry>, url: string) { exists i :: 0 <= i < |p| && p[i].url == url }

  ghost predicate HealthyAt(p: seq<Entry>, url: string) { exists i :: 0 <= i < |p| && p[i].url == url && p[i].healthy }

  /** The pool that the active endpoint belongs to. */
  function ActivePool(c: Client): seq<Entry> { Entries(if c.usingREST then c.rest else c.grpc) }

  /** URLs are distinct, REST ones without trailing slash, and the active one is listed. */
  ghost predicate WellFormed(c: Client) {
    && Distinct(Entries(c.grpc)) && Distinct(Entries(c.rest)) && Plain(Entries(c.rest))
    && Lists(ActivePool(c), c.active)
  }

  /** Healthy endpoints other than the active one: each can be switched to once. */
  ghost function Reserve(c: Client): int {
    CountHealthy(Entries(c.grpc)) + CountHealthy(Entries(c.rest)) - if HealthyAt(ActivePool(c), c.active) then 1 else 0
  }

  ghost function Balance(c: Client): int { c.switches + Reserve(c) }

  lemma {:induction false} CountUpdate(p: seq<Entry>, k: nat, e: Entry)
    requires k < |p|
    ensures CountHealthy(p[k := e]) == CountHealthy(p) - (if p[k].healthy then 1 else 0) + if e.healthy then 1 else 0
  {
    if k == 0 {
      assert p[k := e][1..] == p[1..];
    } else {
      assert p[k := e][1..] == p[1..][k - 1 := e];
      CountUpdate(p[1..], k - 1, e);
    }
  }

  lemma {:induction false} FirstHealthyListed(p: seq<Entry>)
    ensures FirstHealthy(p).Some? ==> HealthyAt(p, FirstHealthy(p).value)
    ensures FirstHealthy(p).None? <==> CountHealthy(p) == 0
  {
    if p == [] {
    } else {
      FirstHealthyListed(p[1..]);
      if !p[0].healthy && FirstHealthy(p[1..]).Some? {
        var i :| 0 <= i < |p[1..]| && p[1..][i].url == FirstHealthy(p).value && p[1..][i].healthy;
        assert p[i + 1].healthy && p[i + 1].url == FirstHealthy(p).value;
      }
    }
  }

  lemma SameUrlsSame(p: seq<Entry>, q: seq<Entry>, u: string)
    requires |q| == |p| && forall i :: 0 <= i < |p| ==> q[i].url == p[i].url
    ensures Distinct(p) ==> Distinct(q)
    ensures Plain(p) ==> Plain(q)
    ensures Lists(p, u) <==> Lists(q, u)
  {
    if Lists(p, u) {
      var i :| 0 <= i < |p| && p[i].url == u;
      assert q[i].url == u;
    }
  }

  lemma HealthyElsewhere(p: seq<Entry>, k: nat, e: Entry, u: string)
    requires k < |p| && e.url == p[k].url != u
    ensures HealthyAt(p, u) <==> HealthyAt(p[k := e], u)
  {
    if HealthyAt(p, u) {
      var i :| 0 <= i < |p| && p[i].url == u && p[i].healthy;
      assert p[k := e][i] == p[i];
    }
    if HealthyAt(p[k := e], u) {
      var i :| 0 <= i < |p| && p[k := e][i].url == u && p[k := e][i].healthy;
      assert p[k := e][i] == p[i];
    }
  }

  lemma HealthyHere(p: seq<Entry>, k: nat)
    requires k < |p| && Distinct(p)
    ensures HealthyAt(p, p[k].url) <==> p[k].healthy
  {}

  /** Marking a listed URL changes its health and no other. */
  lemma MarkListed(p: seq<Entry>, url: string, healthy: bool, u: string)
    requires Distinct(p) && Lists(p, url)
    ensures
      var q := Marked(p, url, healthy);
      && Distinct(q) && (Plain(p) ==> Plain(q))
      && (Lists(q, u) <==> Lists(p, u))
      && (HealthyAt(q, u) <==> if u == url then healthy else HealthyAt(p, u))
      && CountHealthy(q) == CountHealthy(p) - (if HealthyAt(p, url) then 1 else 0) + (if healthy then 1 else 0)
  {
    var k := Position(p, url);
    MarkedAt(p, url, healthy, k);
    var e := p[k].(healthy := healthy);
    var q := p[k := e];
    SameUrlsSame(p, q, u);
    CountUpdate(p, k, e);
    HealthyHere(p, k);
    HealthyHere(q, k);
    if u != url {
      HealthyElsewhere(p, k, e, u);
    }
  }

  lemma Position(p: seq<Entry>, url: string) returns (k: nat)
    requires Distinct(p) && Lists(p, url)
    ensures k < |p| && p[k].url == url && forall i :: 0 <= i < k ==> p[i].url != url
  {
    k :| 0 <= k < |p| && p[k].url == url;
  }

  lemma HealthyCounts(p: seq<Entry>, url: string)
    requires HealthyAt(p, url)
    ensures CountHealthy(p) > 0
  {
    FirstHealthyListed(p);
    var i :| 0 <= i < |p| && p[i].url == url && p[i].healthy;
    if CountHealthy(p) == 0 {
      CountUpdate(p, i, p[i].(healthy := false));
    }
  }

  lemma MarkActiveReserve(c: Client)
    requires WellFormed(c)
    ensures WellFormed(MarkActive(c)) && Reserve(MarkActive(c)) == Reserve(c)
    ensures !HealthyAt(ActivePool(MarkActive(c)), c.active)
    ensures MarkActive(c).switches == c.switches
  {
    MarkListed(ActivePool(c), c.active, false, c.active);
    var m := MarkActive(c);
    assert ActivePool(m) == Marked(ActivePool(c), c.active, false);
    if c.usingREST {
      assert Entries(m.grpc) == Entries(c.grpc);
    } else {
      assert Entries(m.rest) == Entries(c.rest);
    }
  }

  /** A switch uses up exactly one endpoint of the reserve; a failover without one uses none. */
  lemma FailOverSpends(net: Network, c: Client)
    requires WellFormed(c)
    ensures
      var (c', end) := FailOver(net, c);
      WellFormed(c') && Balance(c') == Balance(c)
  {
    MarkActiveReserve(c);
    var c1 := MarkActive(c);
    FirstHealthyListed(Entries(c1.grpc));
    FirstHealthyListed(Entries(c1.rest));
    var c' := FailOver(net, c).0;
    if c'.switches != c.switches {
      assert HealthyAt(ActivePool(c'), c'.active);
    }
  }

  lemma TryingSpendsNothing(net: Network, c: Client)
    requires WellFormed(c)
    ensures WellFormed(Tried(net, c)) && Balance(Tried(net, c)) == Balance(c)
    ensures WellFormed(Waited(c)) && Balance(Waited(c)) == Balance(c)
  {
    assert ActivePool(Tried(net, c)) == ActivePool(c) == ActivePool(Waited(c));
  }

  lemma SendSpends(net: Network, c: Client, rounds: nat, retries: nat)
    requires WellFormed(c)
    ensures
      var c' := SendWith(net, c, rounds, retries).0;
      WellFormed(c') && Balance(c') == Balance(c)
  {
    var inv := (d: Client) => WellFormed(d) && Balance(d) == Balance(c);
    forall d: Client | inv(d) ensures inv(Tried(net, d)) && inv(Waited(d)) && inv(FailOver(net, d).0) {
      TryingSpendsNothing(net, d);
      FailOverSpends(net, d);
    }
    SendKeeps(net, c, rounds, retries, inv);
  }

  lemma ReserveNotNegative(c: Client)
    ensures Reserve(c) >= 0
  {
    if HealthyAt(ActivePool(c), c.active) {
      HealthyCounts(ActivePool(c), c.active);
    }
  }

  /** In the life of a client: sends, and gRPC endpoints restored by the probe loop. */
  datatype Event = DoSend | Restore(url: string)

  function Restored(c: Client, url: string): Client {
    if c.grpc.None? then c else c.(grpc := Some(Marked(c.grpc.value, url, true)))
  }

  function Session(net: Network, c: Client, events: seq<Event>): Client {
    if events == [] then c
    else
      var before := Session(net, c, events[..|events| - 1]);
      match events[|events| - 1]
      case DoSend => SendWith(net, before, FAILOVER_ROUNDS, MAX_SEQUENCE_RETRIES).0
      case Restore(url) => Restored(before, url)
  }

  lemma SessionOn(net: Network, c: Client, events: seq<Event>, e: Event)
    ensures Session(net, c, events + [e]) ==
      match e
      case DoSend => SendWith(net, Session(net, c, events), FAILOVER_ROUNDS, MAX_SEQUENCE_RETRIES).0
      case Restore(url) => Restored(Session(net, c, events), url)
  {
    assert (events + [e])[..|events|] == events;
  }

  function Restores(events: seq<Event>): nat {
    if events == [] then 0 else Restores(events[..|events| - 1]) + if events[|events| - 1].Restore? then 1 else 0
  }

  lemma RestoreAdds(c: Client, url: string)
    requires WellFormed(c)
    ensures
      var c' := Restored(c, url);
      WellFormed(c') && c'.switches == c.switches && Reserve(c') <= Reserve(c) + 1
  {
    var p := Entries(c.grpc);
    if Lists(p, url) {
      MarkListed(p, url, true, c.active);
    } else {
      MarkedNowhere(p, url, true);
    }
  }

  /** Over every session, each switch is paid for by an endpoint in reserve or by one restored. */
  lemma {:induction false} SwitchesBounded(net: Network, c: Client, events: seq<Event>)
    requires WellFormed(c)
    ensures
      var c' := Session(net, c, events);
      && WellFormed(c') && Balance(c') <= Balance(c) + Restores(events)
      && c'.switches <= c.switches + Reserve(c) + Restores(events)
  {
    if events == [] {
    } else {
      var n := |events| - 1;
      SwitchesBounded(net, c, events[..n]);
      var before := Session(net, c, events[..n]);
      match events[n] {
        case DoSend => SendSpends(net, before, FAILOVER_ROUNDS, MAX_SEQUENCE_RETRIES);
        case Restore(url) => RestoreAdds(before, url);
      }
    }
    ReserveNotNegative(Session(net, c, events));
  }

  // ---- construction ----

  function PoolOf(urls: seq<string>): Option<seq<Entry>> { if urls == [] then None else Some(Fresh(urls)) }

  /** New: gRPC if there is any, else REST. */
  function Connected(grpcURLs: seq<string>, restURLs: seq<string>, dialed: bool): Option<Client> {
    if grpcURLs != [] then
      if dialed then Some(Client(PoolOf(grpcURLs), PoolOf(restURLs), grpcURLs[0], false, [], 0, 0, 0)) else None
    else if restURLs != [] then Some(Client(None, PoolOf(restURLs), TrimSlash(restURLs[0]), true, [], 0, 0, 0))
    else None
  }

  predicate DistinctURLs(urls: seq<string>) { forall i, j :: 0 <= i < j < |urls| ==> urls[i] != urls[j] }

  lemma {:induction false} FreshAllHealthy(urls: seq<string>)
    ensures CountHealthy(Fresh(urls)) == |urls|
  {
    if urls == [] {
    } else {
      assert Fresh(urls)[1..] == Fresh(urls[1..]);
      FreshAllHealthy(urls[1..]);
    }
  }

  /** A new client never switches more often than it has other endpoints, plus one per endpoint restored. */
  lemma {:induction false} FewSwitches(net: Network, grpcURLs: seq<string>, restURLs: seq<string>, events: seq<Event>)
    requires CleanURLs(grpcURLs, restURLs) && Connected(grpcURLs, restURLs, true).Some?
    ensures Switches(net, grpcURLs, restURLs, events) <= |grpcURLs| + |restURLs| - 1 + Restores(events)
  {
    var c := Connected(grpcURLs, restURLs, true).value;
    FreshAllHealthy(grpcURLs);
    FreshAllHealthy(restURLs);
    assert Entries(c.grpc) == Fresh(grpcURLs) && Entries(c.rest) == Fresh(restURLs);
    assert ActivePool(c)[0].url == c.active && ActivePool(c)[0].healthy;
    SwitchesBounded(net, c, events);
  }

  // ---- when the bound fails ----

  lemma {:induction false} TrimIdempotent(url: string)
    ensures TrimSlash(TrimSlash(url)) == TrimSlash(url)
  {
    if url != [] && url[|url| - 1] == '/' { TrimIdempotent(url[..|url| - 1]); }
  }

  /** An earlier entry has the same URL. */
  ghost predicate Repeats(p: seq<Entry>, k: nat)
    requires k < |p|
  {
    exists i :: 0 <= i < k && p[i].url == p[k].url
  }

  /**
   After a switch to it, a healthy REST endpoint is marked exactly if its URL has no
   trailing slash and is not listed before it.
   */
  lemma MarkReachesIff(p: seq<Entry>, k: nat)
    requires k < |p| && p[k].healthy
    ensures !Marked(p, TrimSlash(p[k].url), false)[k].healthy <==> TrimSlash(p[k].url) == p[k].url && !Repeats(p, k)
  {
    MarkedOnly(p, TrimSlash(p[k].url), false, k);
  }

  /** Only the first entry with the URL changes. */
  lemma {:induction false} MarkedOnly(p: seq<Entry>, url: string, healthy: bool, k: nat)
    requires k < |p|
    ensures Marked(p, url, healthy)[k] == if p[k].url == url && !Repeats(p, k) then p[k].(healthy := healthy) else p[k]
  {
    if p[0].url != url && k > 0 {
      MarkedOnly(p[1..], url, healthy, k - 1);
      assert p[k].url == url ==> (Repeats(p, k) <==> Repeats(p[1..], k - 1)) by {
        if Repeats(p, k) {
          var i :| 0 <= i < k && p[i].url == p[k].url;
          assert p[k].url == url ==> i > 0 && p[1..][i - 1].url == p[1..][k - 1].url;
        }
        if Repeats(p[1..], k - 1) {
          var i :| 0 <= i < k - 1 && p[1..][i].url == p[1..][k - 1].url;
          assert p[i + 1].url == p[k].url;
        }
      }
    }
  }

  /** A healthy entry that no failover marks: its URL is listed before it, or the transport has another. */
  ghost predicate OutOfReach(p: seq<Entry>, k: nat, trimmed: bool)
    requires k < |p|
  {
    p[k].healthy && (Repeats(p, k) || (trimmed && TrimSlash(p[k].url) != p[k].url))
  }

  ghost predicate Immortal(p: Option<seq<Entry>>, trimmed: bool) {
    p.Some? && exists k :: 0 <= k < |p.value| && OutOfReach(p.value, k, trimmed)
  }

  /** The client has an endpoint that stays healthy whatever happens. */
  ghost predicate Stuck(c: Client) {
    (!c.usingREST && Immortal(c.grpc, false))
    || (Immortal(c.rest, true) && (c.usingREST ==> TrimSlash(c.active) == c.active))
  }

  lemma ImmortalMarked(p: Option<seq<Entry>>, trimmed: bool, url: string)
    requires Immortal(p, trimmed) && (trimmed ==> TrimSlash(url) == url)
    ensures Immortal(Some(Marked(p.value, url, false)), trimmed)
  {
    var q := Marked(p.value, url, false);
    var k :| 0 <= k < |p.value| && OutOfReach(p.value, k, trimmed);
    MarkedOnly(p.value, url, false, k);
    MarkedUrls(p.value, url, false);
    if Repeats(p.value, k) {
      var i :| 0 <= i < k && p.value[i].url == p.value[k].url;
      assert q[i].url == q[k].url;
    }
    assert OutOfReach(q, k, trimmed);
  }

  lemma MarkedUrls(p: seq<Entry>, url: string, healthy: bool)
    ensures forall i :: 0 <= i < |p| ==> Marked(p, url, healthy)[i].url == p[i].url
  {
    forall i | 0 <= i < |p| ensures Marked(p, url, healthy)[i].url == p[i].url {
      MarkedOnly(p, url, healthy, i);
    }
  }

  lemma ImmortalServes(p: Option<seq<Entry>>, trimmed: bool)
    requires Immortal(p, trimmed)
    ensures NextOf(p).Some?
  {
    var k :| 0 <= k < |p.value| && OutOfReach(p.value, k, trimmed);
    HealthyCounts(p.value, p.value[k].url);
    FirstHealthyListed(p.value);
  }

  lemma MarkActiveStuck(c: Client)
    requires Stuck(c)
    ensures Stuck(MarkActive(c)) && MarkActive(c).active == c.active && MarkActive(c).usingREST == c.usingREST
    ensures c.usingREST ==> Immortal(MarkActive(c).rest, true)
    ensures !c.usingREST ==> Immortal(MarkActive(c).grpc, false) || Immortal(MarkActive(c).rest, true)
  {
    if c.usingREST {
      ImmortalMarked(c.rest, true, c.active);
    } else if Immortal(c.grpc, false) {
      ImmortalMarked(c.grpc, false, c.active);
    }
  }

  /** A stuck client switches at every failover, and stays stuck. */
  lemma StuckFailOver(net: Network, c: Client)
    requires Stuck(c) && net.dial(c.dials)
    ensures
      var (c', end) := FailOver(net, c);
      end.None? && Stuck(c') && c'.switches == c.switches + 1
  {
    MarkActiveStuck(c);
    var m := MarkActive(c);
    if Immortal(m.grpc, false) {
      ImmortalServes(m.grpc, false);
    }
    if Immortal(m.rest, true) {
      ImmortalServes(m.rest, true);
      TrimIdempotent(NextOf(m.rest).value);
    }
  }

  /** Everything is down, and every dial succeeds. */
  ghost predicate AllDown(net: Network) { (forall i :: net.attempt(i) == Unavailable) && forall i :: net.dial(i) }

  lemma {:induction false} StuckRounds(net: Network, c: Client, rounds: nat)
    requires Stuck(c) && AllDown(net)
    ensures
      var (c', r) := WithFailover(net, c, rounds);
      Stuck(c') && c'.switches == c.switches + rounds && r == ErrNoEndpoint
    decreases rounds
  {
    if rounds == 0 {
    } else {
      var c1 := Tried(net, c);
      assert Stuck(c1);
      StuckFailOver(net, c1);
      StuckRounds(net, FailOver(net, c1).0, rounds - 1);
    }
  }

  /** With everything down, a stuck client switches twice at every send, without end. */
  lemma {:induction false} NeverLeft(net: Network, c: Client, n: nat)
    requires Stuck(c) && AllDown(net)
    ensures
      var c' := Session(net, c, seq(n, _ => DoSend));
      Stuck(c') && c'.switches == c.switches + 2 * n
  {
    if n == 0 {
    } else {
      assert seq(n, _ => DoSend)[..n - 1] == seq(n - 1, _ => DoSend);
      NeverLeft(net, c, n - 1);
      var before := Session(net, c, seq(n - 1, _ => DoSend));
      StuckRounds(net, before, FAILOVER_ROUNDS);
      SendUnfolds(net, before, FAILOVER_ROUNDS, MAX_SEQUENCE_RETRIES);
    }
  }

  /** Distinct URLs in either pool, and none for REST that ends in a slash. */
  predicate CleanURLs(grpcURLs: seq<string>, restURLs: seq<string>) {
    && DistinctURLs(grpcURLs) && DistinctURLs(restURLs)
    && forall i :: 0 <= i < |restURLs| ==> TrimSlash(restURLs[i]) == restURLs[i]
  }

  function Switches(net: Network, grpcURLs: seq<string>, restURLs: seq<string>, events: seq<Event>): nat
    requires Connected(grpcURLs, restURLs, true).Some?
  {
    Session(net, Connected(grpcURLs, restURLs, true).value, events).switches
  }

  lemma RepeatedURL(urls: seq<string>)
    requires !DistinctURLs(urls)
    ensures Immortal(PoolOf(urls), false) && Immortal(PoolOf(urls), true)
  {
    var i, j :| 0 <= i < j < |urls| && urls[i] == urls[j];
    var p := Fresh(urls);
    assert p[i].url == p[j].url;
    assert OutOfReach(p, j, false) && OutOfReach(p, j, true);
  }

  lemma UncleanStuck(grpcURLs: seq<string>, restURLs: seq<string>)
    requires !CleanURLs(grpcURLs, restURLs) && Connected(grpcURLs, restURLs, true).Some?
    ensures Stuck(Connected(grpcURLs, restURLs, true).value)
  {
    if grpcURLs == [] {
      TrimIdempotent(restURLs[0]);
    }
    if !DistinctURLs(grpcURLs) {
      RepeatedURL(grpcURLs);
    } else if !DistinctURLs(restURLs) {
      RepeatedURL(restURLs);
    } else {
      var i :| 0 <= i < |restURLs| && TrimSlash(restURLs[i]) != restURLs[i];
      assert OutOfReach(Fresh(restURLs), i, true);
    }
  }

  /**
   For every configuration with an endpoint: over every network and every session, a new
   client switches at most as often as it has other endpoints, plus one per endpoint
   restored, if and only if its URLs are clean.
   */
  lemma SwitchBoundIff(grpcURLs: seq<string>, restURLs: seq<string>)
    requires Connected(grpcURLs, restURLs, true).Some?
    ensures CleanURLs(grpcURLs, restURLs) <==>
      forall net, events ::
        Switches(net, grpcURLs, restURLs, events) <= |grpcURLs| + |restURLs| - 1 + Restores(events)
  {
    if CleanURLs(grpcURLs, restURLs) {
      forall net, events
        ensures Switches(net, grpcURLs, restURLs, events) <= |grpcURLs| + |restURLs| - 1 + Restores(events)
      {
        FewSwitches(net, grpcURLs, restURLs, events);
      }
    } else {
      var net, events := UncleanExceeds(grpcURLs, restURLs);
    }
  }

  /** A network and a session that exceed the bound. */
  lemma UncleanExceeds(grpcURLs: seq<string>, restURLs: seq<string>) returns (net: Network, events: seq<Event>)
    requires !CleanURLs(grpcURLs, restURLs) && Connected(grpcURLs, restURLs, true).Some?
    ensures Switches(net, grpcURLs, restURLs, events) > |grpcURLs| + |restURLs| - 1 + Restores(events)
  {
    net := Network(_ => Unavailable, _ => true, _ => true);
    var n := |grpcURLs| + |restURLs|;
    events := seq(n, _ => DoSend);
    UncleanStuck(grpcURLs, restURLs);
    NeverLeft(net, Connected(grpcURLs, restURLs, true).value, n);
    NoRestores(n);
  }

  lemma {:induction false} NoRestores(n: nat)
    ensures Restores(seq(n, _ => DoSend)) == 0
  {
    if n == 0 {
    } else {
      assert seq(n, _ => DoSend)[..n - 1] == seq(n - 1, _ => DoSend);
      NoRestores(n - 1);
    }
  }

  // ---- the client object ----

  class TxClient {
    const net: Network
    const grpcPool: EndpointPool?
    const restPool: EndpointPool?
    var active: string
    var usingREST: bool
    var tried: seq<Outcome>
    var switches: nat
    var dials: nat
    var waits: nat

    // The history: the client as it was connected, and what happened since.
    ghost const start: Client
    ghost var events: seq<Event>

    /** The health flags that a send may change. */
    ghost function Flags(): set<object> {
      (if grpcPool == null then {} else {grpcPool.endpoints}) + (if restPool == null then {} else {restPool.endpoints})
    }

    ghost predicate Shape() {
      && this !in Flags()
      && (grpcPool != null && restPool != null ==> grpcPool.endpoints != restPool.endpoints)
    }

    ghost function Abs(): Client
      reads this, Flags()
    {
      Client(if grpcPool == null then None else Some(grpcPool.endpoints[..]),
             if restPool == null then None else Some(restPool.endpoints[..]),
             active, usingREST, tried, switches, dials, waits)
    }

    /** The client is where its session led, so that SwitchBoundIff is about this object. */
    ghost predicate Valid()
      reads this, Flags()
    {
      Shape() && Abs() == Session(net, start, events)
    }

    /** New, once there is an endpoint and the first dial has succeeded. */
    constructor (net: Network, grpcURLs: seq<string>, restURLs: seq<string>)
      requires Connected(grpcURLs, restURLs, true).Some?
      ensures Valid() && fresh(Flags()) && this.net == net && events == []
      ensures start == Connected(grpcURLs, restURLs, true).value
    {
      this.net := net;
      var g: EndpointPool?, r: EndpointPool? := null, null;
      if grpcURLs != [] {
        g := new EndpointPool(grpcURLs);
      }
      if restURLs != [] {
        r := new EndpointPool(restURLs);
      }
      grpcPool, restPool := g, r;
      active := if grpcURLs != [] then grpcURLs[0] else TrimSlash(restURLs[0]);
      usingREST := grpcURLs == [];
      tried, switches, dials, waits := [], 0, 0, 0;
      start, events := Connected(grpcURLs, restURLs, true).value, [];
    }

    method UseREST(url: string)
      modifies this`active, this`usingREST, this`tried, this`switches, this`dials, this`waits
      ensures Abs() == ToREST(old(Abs()), url)
    {
      active, usingREST, switches := TrimSlash(url), true, switches + 1;
    }

    /** The second half of the loop body of attemptSendWithFailover. */
    method Switch() returns (end: Option<Sent>)
      requires Shape()
      modifies this`active, this`usingREST, this`tried, this`switches, this`dials, this`waits, Flags()
      ensures (Abs(), end) == FailOver(net, old(Abs()))
    {
      var activePool := if usingREST then restPool else grpcPool;
      var next: Option<string> := None;
      if activePool != null {
        activePool.Mark(active, false);
        next := activePool.Next();
      }
      assert Abs() == MarkActive(old(Abs()));
      if next.None? && !usingREST && restPool != null {
        next := restPool.Next();
        if next.Some? {
          UseREST(next.value);
          return None;
        }
      }
      if next.None? {
        return Some(ErrNoEndpoint);
      }
      if usingREST {
        UseREST(next.value);
        return None;
      }
      dials := dials + 1;
      if !net.dial(dials - 1) {
        return Some(ErrDial);
      }
      active, switches := next.value, switches + 1;
      return None;
    }

    method AttemptSendWithFailover(rounds: nat) returns (r: Sent)
      requires Shape()
      modifies this`active, this`usingREST, this`tried, this`switches, this`dials, this`waits, Flags()
      ensures (Abs(), r) == WithFailover(net, old(Abs()), rounds)
    {
      for round := 0 to rounds
        invariant WithFailover(net, Abs(), rounds - round) == WithFailover(net, old(Abs()), rounds)
      {
        var o := net.attempt(|tried|);
        tried := tried + [o];
        if o != Unavailable {
          return SentOf(o);
        }
        var end := Switch();
        if end.Some? {
          return end.value;
        }
      }
      return ErrNoEndpoint;
    }

    method SendRetrying(rounds: nat, retries: nat) returns (r: Sent)
      requires Shape()
      modifies this`active, this`usingREST, this`tried, this`switches, this`dials, this`waits, Flags()
      ensures (Abs(), r) == SendWith(net, old(Abs()), rounds, retries)
    {
      var attempt := 0;
      while true
        invariant 0 <= attempt <= retries
        invariant SendWith(net, Abs(), rounds, retries - attempt) == SendWith(net, old(Abs()), rounds, retries)
        decreases retries - attempt
      {
        SendUnfolds(net, Abs(), rounds, retries - attempt);
        r := AttemptSendWithFailover(rounds);
        if r != ErrSequenceMismatch || attempt == retries {
          return;
        }
        waits := waits + 1;
        if !net.wait(waits - 1) {
          return ErrCanceled;
        }
        attempt := attempt + 1;
      }
    }

    method DoSend() returns (r: Sent)
      requires Valid()
      modifies this, Flags()
      ensures Valid() && events == old(events) + [Event.DoSend]
      ensures (Abs(), r) == SendWith(net, old(Abs()), FAILOVER_ROUNDS, MAX_SEQUENCE_RETRIES)
    {
      r := SendRetrying(FAILOVER_ROUNDS, MAX_SEQUENCE_RETRIES);
      SessionOn(net, start, events, Event.DoSend);
      events := events + [Event.DoSend];
    }

    /** What the probe loop does to a gRPC endpoint that answers again. */
    method Restore(url: string)
      requires Valid()
      modifies this, Flags()
      ensures Valid() && events == old(events) + [Event.Restore(url)] && Abs() == Restored(old(Abs()), url)
    {
      ghost var before := Abs();
      SessionOn(net, start, events, Event.Restore(url));
      if grpcPool != null {
        grpcPool.Mark(url, true);
      }
      assert Abs() == Restored(before, url);
      events := events + [Event.Restore(url)];
    }
  }

  /** New; null stands for its errors, and `dialed` says how the first dial ends. */
  method NewClient(net: Network, grpcURLs: seq<string>, restURLs: seq<string>, dialed: bool) returns (c: TxClient?)
    ensures c == null <==> Connected(grpcURLs, restURLs, dialed).None?
    ensures c != null ==> c.Valid() && c.net == net && c.Abs() == Connected(grpcURLs, restURLs, dialed).value
    ensures c == null <==> (grpcURLs == [] && restURLs == []) || (grpcURLs != [] && !dialed)
    ensures c != null ==>
      && c.usingREST == (grpcURLs == []) && c.tried == [] && c.switches == 0 && c.dials == 0 && c.waits == 0
      && (grpcURLs != [] ==> c.active == grpcURLs[0]) && (grpcURLs == [] ==> c.active == TrimSlash(restURLs[0]))
      && (c.grpcPool != null <==> grpcURLs != []) && (c.restPool != null <==> restURLs != [])
      && (forall i :: 0 <= i < |grpcURLs| ==> c.Abs().grpc.value[i] == Entry(grpcURLs[i], true))
      && (forall i :: 0 <= i < |restURLs| ==> c.Abs().rest.value[i] == Entry(restURLs[i], true))
  {
    if (grpcURLs == [] && restURLs == []) || (grpcURLs != [] && !dialed) {
      return null;
    }
    c := new TxClient(net, grpcURLs, restURLs);
  }
}
