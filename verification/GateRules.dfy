/**
 What the gate's decisions say about a request, stated on the request itself and on the log
 of earlier admissions: who is admitted and with which coin, and which error everyone else
 gets. Times are in seconds: an address is capped over 86400 of them, an API key over 3600.
 */
module GateRules {
  import Bech32
  import opened Gate
  import opened Options
  import opened RateLimit

  // ---- the limits ----

  ghost predicate OriginOpen(log: seq<Admission>, a: Attempt, requestsPerWindow: int, window: nat) {
    |Since(log, Bucket(Ip(a.ip), a.context.chainID), a.now - window)| < requestsPerWindow
  }

  /** What a request hears whose origin has used up its window, or never had any. */
  ghost function OriginRefusal(log: seq<Admission>, a: Attempt, window: nat): Verdict {
    var b := Bucket(Ip(a.ip), a.context.chainID);
    if Since(log, b, a.now - window) == {} then StorageError else RateLimited(RetryAt(log, b, a.now, window))
  }

  /** The requests per hour of a key: its own number, or the general one if it has none. */
  function PerHour(key: Key, requestsPerWindow: int): int
    requires key.Key?
  {
    if key.rateLimitPerHour > 0 then key.rateLimitPerHour else requestsPerWindow
  }

  ghost predicate KeyOpen(log: seq<Admission>, a: Attempt, key: Key, requestsPerWindow: int)
    requires key.Key?
  {
    |Since(log, Bucket(ApiKey(key.id), a.context.chainID), a.nowKey - 3600)| < PerHour(key, requestsPerWindow)
  }

  ghost function KeyRefusal(log: seq<Admission>, a: Attempt, key: Key): Verdict
    requires key.Key?
  {
    RateLimited(RetryAt(log, Bucket(ApiKey(key.id), a.context.chainID), a.nowKey, 3600))
  }

  /** What the address cap says to a drip. */
  ghost function CapSays(log: seq<Admission>, a: Attempt, coin: Coin): Verdict {
    match Bech32.Meaning(a.address)
    case None => BadAddress
    case Some((_, raw)) =>
      if !coin.amount.Units? || !a.context.maxPerDay.amount.Units? then BadAmount
      else
        var b := Bucket(Address(a.context.keyAlgo, raw, coin.denom), a.context.chainID);
        if LogFrom(log, b, a.nowAddress - 86400, Coins) + coin.amount.n <= a.context.maxPerDay.amount.n then Pass
        else RateLimited(RetryAt(log, b, a.nowAddress, 86400))
  }

  // ---- the mechanisms ----

  predicate ShowsKey(cfg: Config, a: Attempt) { cfg.apiKeys && a.bearer.Some? }

  predicate ShowsSignature(cfg: Config, a: Attempt) { !ShowsKey(cfg, a) && cfg.signatures && a.signature.Some? }

  predicate OwesWork(cfg: Config, a: Attempt) { !ShowsKey(cfg, a) && !ShowsSignature(cfg, a) && cfg.pow }

  /** The request meets all that the mechanism asks, limits aside. */
  predicate Meets(cfg: Config, a: Attempt, m: Mechanism) {
    match m
    case ByApiKey => ShowsKey(cfg, a) && a.bearer.value.Key? && a.bearer.value.inScope
    case BySignature =>
      && ShowsSignature(cfg, a) && a.signature.value.hasNonce && a.signature.value.nonceFresh
      && a.signature.value.verified == Valid && a.signature.value.predicateHolds
    case ByPoW => OwesWork(cfg, a) && a.pow == Some(Valid)
    case Anonymously => !ShowsKey(cfg, a) && !ShowsSignature(cfg, a) && !cfg.pow
  }

  /** The coin that the mechanism hands out. */
  function Offers(a: Attempt, m: Mechanism): Coin {
    match m
    case ByApiKey =>
      if a.bearer.Some? && a.bearer.value.Key? && a.bearer.value.drip.Some? then a.bearer.value.drip.value
      else a.context.dripAnonymous
    case BySignature => if a.context.dripSigned.amount == Unset then a.context.dripAnonymous else a.context.dripSigned
    case ByPoW => a.context.dripAnonymous
    case Anonymously => a.context.dripAnonymous
  }

  /** The first condition that the request fails is the one that the error names. */
  ghost predicate Fails(cfg: Config, requestsPerWindow: int, window: nat, log: seq<Admission>, a: Attempt,
                        e: GateError) {
    if !OriginOpen(log, a, requestsPerWindow, window) then e == Refused(OriginRefusal(log, a, window))
    else FailsLater(cfg, requestsPerWindow, log, a, e)
  }

  ghost predicate FailsLater(cfg: Config, requestsPerWindow: int, log: seq<Admission>, a: Attempt, e: GateError) {
    match e
    case Unauthenticated => ShowsKey(cfg, a) && a.bearer.value.Unknown?
    case Forbidden => ShowsKey(cfg, a) && a.bearer.value.Key? && !a.bearer.value.inScope
    case NonceRequired => ShowsSignature(cfg, a) && !a.signature.value.hasNonce
    case BadNonce => ShowsSignature(cfg, a) && a.signature.value.hasNonce && !a.signature.value.nonceFresh
    case VerifierError =>
      || (OwesWork(cfg, a) && a.pow == Some(Broken))
      || (ShowsSignature(cfg, a) && Consumes(a.signature.value) && a.signature.value.verified == Broken)
    case BadSignature =>
      ShowsSignature(cfg, a) && Consumes(a.signature.value) && a.signature.value.verified == Invalid
    case PredicateFailed =>
      && ShowsSignature(cfg, a) && Consumes(a.signature.value) && a.signature.value.verified == Valid
      && !a.signature.value.predicateHolds
    case PoWRequired => OwesWork(cfg, a) && a.pow.None?
    case BadPoW => OwesWork(cfg, a) && a.pow == Some(Invalid)
    case Refused(v) =>
      if Meets(cfg, a, ByApiKey) && !KeyOpen(log, a, a.bearer.value, requestsPerWindow) then
        v == KeyRefusal(log, a, a.bearer.value)
      else v != Pass && exists m :: Meets(cfg, a, m) && v == CapSays(log, a, Offers(a, m))
  }

  /** A nonce that is there and has not been used before. */
  predicate Consumes(s: Signature) { s.hasNonce && s.nonceFresh }

  // ---- the decisions ----

  /** The check of the origin, by what the table answers. */
  lemma OriginDecides(cfg: Config, requestsPerWindow: int, window: nat, st: State, a: Attempt,
                      r: (State, RateLimit.Outcome))
    requires r == CheckRequests(st, IpBucket(a), a.now, window, requestsPerWindow, None)
    ensures Judged(cfg, requestsPerWindow, window, st, a) ==
      if r.1 == Admitted then Considered(cfg, requestsPerWindow, r.0, a) else (r.0, Reject(Refused(VerdictOf(r.1))))
  {}

  lemma OriginStep(requestsPerWindow: int, window: nat, st: State, a: Attempt, r: (State, RateLimit.Outcome))
    requires Remembers(st) && r == CheckRequests(st, IpBucket(a), a.now, window, requestsPerWindow, None)
    ensures
      if OriginOpen(st.log, a, requestsPerWindow, window) then r == (Record(st, IpBucket(a), a.now, 0), Admitted)
      else r.0 == st && r.1 != Admitted && VerdictOf(r.1) == OriginRefusal(st.log, a, window)
  {
    RequestIs(st, IpBucket(a), a.now, window, requestsPerWindow, None);
  }

  /** Admissions to other buckets do not count. */
  lemma SinceElsewhere(log: seq<Admission>, x: Admission, b: Bucket, start: int)
    requires x.bucket != b
    ensures Since(log + [x], b, start) == Since(log, b, start)
    ensures LogFrom(log + [x], b, start, Coins) == LogFrom(log, b, start, Coins)
    ensures Earliest(log + [x], b, start) == Earliest(log, b, start)
  {
    LogSnoc(log, x, b, start, 0, Coins);
    EarliestSnoc(log, x, b, start);
  }

  lemma CapElsewhere(log: seq<Admission>, x: Admission, a: Attempt, coin: Coin)
    requires !x.bucket.scope.Address?
    ensures CapSays(log + [x], a, coin) == CapSays(log, a, coin)
  {
    var m := Bech32.Meaning(a.address);
    if m.Some? {
      var b := Bucket(Address(a.context.keyAlgo, m.value.1, coin.denom), a.context.chainID);
      SinceElsewhere(log, x, b, a.nowAddress - 86400);
    }
  }

  /** The last step of every mechanism, by what the table answers. */
  lemma CapDecides(st: State, a: Attempt, m: Mechanism, coin: Coin, raw: seq<bv8>, r: (State, RateLimit.Outcome))
    requires Bech32.Meaning(a.address).Some? && Bech32.Meaning(a.address).value.1 == raw
    requires coin.amount.Units? && a.context.maxPerDay.amount.Units?
    requires r == CheckCoins(st, Bucket(Address(a.context.keyAlgo, raw, coin.denom), a.context.chainID), a.nowAddress,
                             coin.amount.n, a.context.maxPerDay.amount.n)
    ensures Capped(st, a, m, coin) ==
      (r.0, if r.1 == Admitted then Admit(m, coin) else Reject(Refused(VerdictOf(r.1))))
  {}

  lemma CapStep(st: State, a: Attempt, m: Mechanism, coin: Coin)
    requires DripsByLog(st)
    ensures
      var v := CapSays(st.log, a, coin);
      Capped(st, a, m, coin).1 == if v == Pass then Admit(m, coin) else Reject(Refused(v))
  {
    var meaning := Bech32.Meaning(a.address);
    if meaning.Some? && coin.amount.Units? && a.context.maxPerDay.amount.Units? {
      var b := Bucket(Address(a.context.keyAlgo, meaning.value.1, coin.denom), a.context.chainID);
      KnownStep(st, a, m, coin, meaning.value.1,
                CheckCoins(st, b, a.nowAddress, coin.amount.n, a.context.maxPerDay.amount.n));
    } else {
      UnknownStep(st, a, m, coin);
    }
  }

  lemma UnknownStep(st: State, a: Attempt, m: Mechanism, coin: Coin)
    requires Bech32.Meaning(a.address).None? || !coin.amount.Units? || !a.context.maxPerDay.amount.Units?
    ensures Capped(st, a, m, coin).1 == Reject(Refused(CapSays(st.log, a, coin))) && CapSays(st.log, a, coin) != Pass
  {}

  lemma KnownStep(st: State, a: Attempt, m: Mechanism, coin: Coin, raw: seq<bv8>, r: (State, RateLimit.Outcome))
    requires Bech32.Meaning(a.address).Some? && Bech32.Meaning(a.address).value.1 == raw
    requires coin.amount.Units? && a.context.maxPerDay.amount.Units?
    requires
      var b := Bucket(Address(a.context.keyAlgo, raw, coin.denom), a.context.chainID);
      && r == CheckCoins(st, b, a.nowAddress, coin.amount.n, a.context.maxPerDay.amount.n)
      && r.1 == DripOutcome(st.log, b, a.nowAddress, coin.amount.n, a.context.maxPerDay.amount.n)
    ensures
      var v := CapSays(st.log, a, coin);
      Capped(st, a, m, coin).1 == if v == Pass then Admit(m, coin) else Reject(Refused(v))
  {
    CapDecides(st, a, m, coin, raw, r);
    CapSaysSo(st.log, a, coin, raw, r.1);
  }

  lemma CapSaysSo(log: seq<Admission>, a: Attempt, coin: Coin, raw: seq<bv8>, o: RateLimit.Outcome)
    requires Bech32.Meaning(a.address).Some? && Bech32.Meaning(a.address).value.1 == raw
    requires coin.amount.Units? && a.context.maxPerDay.amount.Units?
    requires
      var b := Bucket(Address(a.context.keyAlgo, raw, coin.denom), a.context.chainID);
      o == DripOutcome(log, b, a.nowAddress, coin.amount.n, a.context.maxPerDay.amount.n)
    ensures VerdictOf(o) == CapSays(log, a, coin)
  {}

  /** The limit of an API key, asked after the scope. */
  lemma KeyDecides(cfg: Config, requestsPerWindow: int, st: State, a: Attempt, b: Bucket, r: (State, RateLimit.Outcome))
    requires Meets(cfg, a, ByApiKey) && b == Bucket(ApiKey(a.bearer.value.id), a.context.chainID)
    requires r == CheckRequests(st, b, a.nowKey, 3600, PerHour(a.bearer.value, requestsPerWindow), Some(a.nowKey))
    ensures Considered(cfg, requestsPerWindow, st, a) ==
      if r.1 == Admitted then Capped(r.0, a, ByApiKey, Offers(a, ByApiKey))
      else (r.0, Reject(Refused(VerdictOf(r.1))))
  {
    assert MechanismOf(cfg, a) == ByApiKey && Objection(cfg, a) == None;
    assert CoinOf(cfg, a) == Offers(a, ByApiKey) && KeyLimit(a, requestsPerWindow) == PerHour(a.bearer.value,
      requestsPerWindow);
  }

  lemma KeyStep(requestsPerWindow: int, st: State, a: Attempt, key: Key, b: Bucket)
    requires Remembers(st) && key.Key? && b == Bucket(ApiKey(key.id), a.context.chainID)
    ensures CheckRequests(st, b, a.nowKey, 3600, PerHour(key, requestsPerWindow), Some(a.nowKey)) ==
      if KeyOpen(st.log, a, key, requestsPerWindow) then (Record(st, b, a.nowKey, 0), Admitted)
      else (st, Limited(RetryAt(st.log, b, a.nowKey, 3600)))
  {
    RequestIs(st, b, a.nowKey, 3600, PerHour(key, requestsPerWindow), Some(a.nowKey));
  }

  /** What the decision is after the origin check. */
  ghost predicate Settles(cfg: Config, requestsPerWindow: int, log: seq<Admission>, a: Attempt, d: Decision) {
    match d
    case Admit(m, coin) =>
      && Meets(cfg, a, m) && (m == ByApiKey ==> KeyOpen(log, a, a.bearer.value, requestsPerWindow))
      && coin == Offers(a, m) && CapSays(log, a, coin) == Pass
    case Reject(e) => FailsLater(cfg, requestsPerWindow, log, a, e)
  }

  lemma ConsideredSettles(cfg: Config, requestsPerWindow: int, st: State, a: Attempt, log: seq<Admission>)
    requires Remembers(st) && st.log == log
    ensures Settles(cfg, requestsPerWindow, log, a, Considered(cfg, requestsPerWindow, st, a).1)
  {
    if Meets(cfg, a, ByApiKey) {
      KeySettles(cfg, requestsPerWindow, st, a, log);
    } else if Meets(cfg, a, BySignature) {
      OtherSettles(cfg, requestsPerWindow, st, a, log, BySignature);
    } else if Meets(cfg, a, ByPoW) {
      OtherSettles(cfg, requestsPerWindow, st, a, log, ByPoW);
    } else if Meets(cfg, a, Anonymously) {
      OtherSettles(cfg, requestsPerWindow, st, a, log, Anonymously);
    } else {
      ObjectionNamed(cfg, requestsPerWindow, log, a);
    }
  }

  lemma OtherSettles(cfg: Config, requestsPerWindow: int, st: State, a: Attempt, log: seq<Admission>, m: Mechanism)
    requires Remembers(st) && st.log == log && Meets(cfg, a, m) && m != ByApiKey
    ensures Settles(cfg, requestsPerWindow, log, a, Considered(cfg, requestsPerWindow, st, a).1)
  {
    assert MechanismOf(cfg, a) == m && Objection(cfg, a) == None && CoinOf(cfg, a) == Offers(a, m);
    assert !Meets(cfg, a, ByApiKey);
    RememberedDrips(st);
    CapStep(st, a, m, Offers(a, m));
  }

  lemma ObjectionNamed(cfg: Config, requestsPerWindow: int, log: seq<Admission>, a: Attempt)
    requires forall m :: !Meets(cfg, a, m)
    ensures Objection(cfg, a).Some? && FailsLater(cfg, requestsPerWindow, log, a, Objection(cfg, a).value)
  {
    assert !Meets(cfg, a, MechanismOf(cfg, a));
  }

  lemma KeySettles(cfg: Config, requestsPerWindow: int, st: State, a: Attempt, log: seq<Admission>)
    requires Remembers(st) && st.log == log && Meets(cfg, a, ByApiKey)
    ensures Settles(cfg, requestsPerWindow, log, a, Considered(cfg, requestsPerWindow, st, a).1)
  {
    var key := a.bearer.value;
    var b := Bucket(ApiKey(key.id), a.context.chainID);
    KeyStep(requestsPerWindow, st, a, key, b);
    KeyDecides(cfg, requestsPerWindow, st, a, b,
               CheckRequests(st, b, a.nowKey, 3600, PerHour(key, requestsPerWindow), Some(a.nowKey)));
    if KeyOpen(log, a, key, requestsPerWindow) {
      RecordRemembers(st, b, a.nowKey, 0);
      RememberedDrips(Record(st, b, a.nowKey, 0));
      CapStep(Record(st, b, a.nowKey, 0), a, ByApiKey, Offers(a, ByApiKey));
      CapElsewhere(log, Admission(b, a.nowKey, 0), a, Offers(a, ByApiKey));
    }
  }

  lemma JudgedSettles(cfg: Config, requestsPerWindow: int, window: nat, st: State, a: Attempt)
    requires Remembers(st)
    ensures
      var d := Judged(cfg, requestsPerWindow, window, st, a).1;
      if OriginOpen(st.log, a, requestsPerWindow, window) then Settles(cfg, requestsPerWindow, st.log, a, d)
      else d == Reject(Refused(OriginRefusal(st.log, a, window)))
  {
    var r := CheckRequests(st, IpBucket(a), a.now, window, requestsPerWindow, None);
    OriginDecides(cfg, requestsPerWindow, window, st, a, r);
    OriginStep(requestsPerWindow, window, st, a, r);
    if OriginOpen(st.log, a, requestsPerWindow, window) {
      var ip := Admission(IpBucket(a), a.now, 0);
      var st' := Record(st, IpBucket(a), a.now, 0);
      var d := Considered(cfg, requestsPerWindow, st', a).1;
      RecordRemembers(st, IpBucket(a), a.now, 0);
      ConsideredSettles(cfg, requestsPerWindow, st', a, st.log + [ip]);
      LimitsElsewhere(requestsPerWindow, st.log, ip, a);
      SettlesAlike(cfg, requestsPerWindow, st.log + [ip], st.log, a, d);
    }
  }

  /** The limits after the origin check are the same for both logs. */
  ghost predicate SameLimits(log: seq<Admission>, log': seq<Admission>, a: Attempt, requestsPerWindow: int) {
    && (forall m :: CapSays(log, a, Offers(a, m)) == CapSays(log', a, Offers(a, m)))
    && (a.bearer.Some? && a.bearer.value.Key? ==>
          && KeyOpen(log, a, a.bearer.value, requestsPerWindow) == KeyOpen(log', a, a.bearer.value, requestsPerWindow)
          && KeyRefusal(log, a, a.bearer.value) == KeyRefusal(log', a, a.bearer.value))
  }

  /** An admission of the origin has no say in what follows. */
  lemma LimitsElsewhere(requestsPerWindow: int, log: seq<Admission>, ip: Admission, a: Attempt)
    requires ip.bucket.scope.Ip?
    ensures SameLimits(log + [ip], log, a, requestsPerWindow)
  {
    if a.bearer.Some? && a.bearer.value.Key? {
      SinceElsewhere(log, ip, Bucket(ApiKey(a.bearer.value.id), a.context.chainID), a.nowKey - 3600);
    }
    forall m ensures CapSays(log + [ip], a, Offers(a, m)) == CapSays(log, a, Offers(a, m)) {
      CapElsewhere(log, ip, a, Offers(a, m));
    }
  }

  lemma SettlesAlike(cfg: Config, requestsPerWindow: int, log: seq<Admission>, log': seq<Admission>, a: Attempt,
                     d: Decision)
    requires SameLimits(log, log', a, requestsPerWindow) && Settles(cfg, requestsPerWindow, log, a, d)
    ensures Settles(cfg, requestsPerWindow, log', a, d)
  {}

  lemma JudgedRemembers(cfg: Config, requestsPerWindow: int, window: nat, st: State, a: Attempt)
    requires Remembers(st)
    ensures Remembers(Judged(cfg, requestsPerWindow, window, st, a).0)
  {
    var ip := Request(IpBucket(a), a.now, window, requestsPerWindow, None);
    CallRemembers(st, ip);
    ConsideredRemembers(cfg, requestsPerWindow, Do(st, ip).0, a);
  }

  lemma ConsideredRemembers(cfg: Config, requestsPerWindow: int, st: State, a: Attempt)
    requires Remembers(st)
    ensures Remembers(Considered(cfg, requestsPerWindow, st, a).0)
  {
    if Objection(cfg, a).None? {
      if MechanismOf(cfg, a) != ByApiKey {
        CappedRemembers(st, a, MechanismOf(cfg, a), CoinOf(cfg, a));
      } else {
        var key := Request(Bucket(ApiKey(a.bearer.value.id), a.context.chainID), a.nowKey, API_KEY_WINDOW,
                           KeyLimit(a, requestsPerWindow), Some(a.nowKey));
        CallRemembers(st, key);
        CappedRemembers(Do(st, key).0, a, ByApiKey, CoinOf(cfg, a));
      }
    }
  }

  lemma CappedRemembers(st: State, a: Attempt, m: Mechanism, coin: Coin)
    requires Remembers(st)
    ensures Remembers(Capped(st, a, m, coin).0)
  {
    var meaning := Bech32.Meaning(a.address);
    if meaning.Some? && coin.amount.Units? && a.context.maxPerDay.amount.Units? {
      CallRemembers(st, Drip(AddressBucket(meaning.value.1, a.context.keyAlgo, a.context.chainID, coin.denom),
                             a.nowAddress, coin.amount.n, a.context.maxPerDay.amount.n));
    }
  }

  lemma {:induction false} RunRemembers(cfg: Config, requestsPerWindow: int, window: nat, attempts: seq<Attempt>)
    ensures Remembers(Run(cfg, requestsPerWindow, window, attempts))
  {
    if attempts == [] {
    } else {
      var n := |attempts| - 1;
      RunRemembers(cfg, requestsPerWindow, window, attempts[..n]);
      JudgedRemembers(cfg, requestsPerWindow, window, Run(cfg, requestsPerWindow, window, attempts[..n]), attempts[n]);
    }
  }

  lemma OneMechanism(cfg: Config, a: Attempt, m: Mechanism, m': Mechanism)
    requires Meets(cfg, a, m) && Meets(cfg, a, m')
    ensures m == m'
  {}

  /** A request that meets a mechanism and its limits fails nothing. */
  lemma MeetsOrFails(cfg: Config, requestsPerWindow: int, log: seq<Admission>, a: Attempt, m: Mechanism, e: GateError)
    requires Meets(cfg, a, m) && (m == ByApiKey ==> KeyOpen(log, a, a.bearer.value, requestsPerWindow))
    requires CapSays(log, a, Offers(a, m)) == Pass
    ensures !FailsLater(cfg, requestsPerWindow, log, a, e)
  {
    forall m' | Meets(cfg, a, m') ensures m' == m { OneMechanism(cfg, a, m, m'); }
  }

  lemma OneFailure(cfg: Config, requestsPerWindow: int, log: seq<Admission>, a: Attempt, e: GateError, e': GateError)
    requires FailsLater(cfg, requestsPerWindow, log, a, e) && FailsLater(cfg, requestsPerWindow, log, a, e')
    ensures e == e'
  {
    forall m, m' | Meets(cfg, a, m) && Meets(cfg, a, m') ensures m' == m { OneMechanism(cfg, a, m, m'); }
  }

  /**
   After every run of the gate, a request is admitted by a mechanism with a coin exactly if
   fewer requests than allowed came from its origin in the window, it meets all that the
   mechanism asks, the key has requests left if it is by key, the coin is the mechanism's,
   and the cap has room for it.
   */
  lemma AdmitIff(cfg: Config, requestsPerWindow: int, window: nat, attempts: seq<Attempt>, a: Attempt, m: Mechanism,
                 coin: Coin)
    ensures
      var st := Run(cfg, requestsPerWindow, window, attempts);
      Judged(cfg, requestsPerWindow, window, st, a).1 == Admit(m, coin) <==>
        && OriginOpen(st.log, a, requestsPerWindow, window)
        && Meets(cfg, a, m)
        && (m == ByApiKey ==> KeyOpen(st.log, a, a.bearer.value, requestsPerWindow))
        && coin == Offers(a, m)
        && CapSays(st.log, a, coin) == Pass
  {
    var st := Run(cfg, requestsPerWindow, window, attempts);
    RunRemembers(cfg, requestsPerWindow, window, attempts);
    JudgedSettles(cfg, requestsPerWindow, window, st, a);
    if OriginOpen(st.log, a, requestsPerWindow, window) {
      SettledAdmits(cfg, requestsPerWindow, st.log, a, Judged(cfg, requestsPerWindow, window, st, a).1, m, coin);
    }
  }

  lemma SettledAdmits(cfg: Config, requestsPerWindow: int, log: seq<Admission>, a: Attempt, d: Decision, m: Mechanism,
                      coin: Coin)
    requires Settles(cfg, requestsPerWindow, log, a, d)
    ensures d == Admit(m, coin) <==>
      && Meets(cfg, a, m) && (m == ByApiKey ==> KeyOpen(log, a, a.bearer.value, requestsPerWindow))
      && coin == Offers(a, m) && CapSays(log, a, coin) == Pass
  {
    if Meets(cfg, a, m) {
      if d.Admit? {
        OneMechanism(cfg, a, m, d.mechanism);
      } else if (m == ByApiKey ==> KeyOpen(log, a, a.bearer.value, requestsPerWindow)) &&
          CapSays(log, a, Offers(a, m)) == Pass {
        MeetsOrFails(cfg, requestsPerWindow, log, a, m, d.error);
      }
    }
  }

  /** After every run of the gate, a request is rejected with an error exactly if that is what it fails first. */
  lemma RejectIff(cfg: Config, requestsPerWindow: int, window: nat, attempts: seq<Attempt>, a: Attempt, e: GateError)
    ensures
      var st := Run(cfg, requestsPerWindow, window, attempts);
      Judged(cfg, requestsPerWindow, window, st, a).1 == Reject(e) <==>
        Fails(cfg, requestsPerWindow, window, st.log, a, e)
  {
    var st := Run(cfg, requestsPerWindow, window, attempts);
    RunRemembers(cfg, requestsPerWindow, window, attempts);
    JudgedSettles(cfg, requestsPerWindow, window, st, a);
    if OriginOpen(st.log, a, requestsPerWindow, window) {
      SettledRejects(cfg, requestsPerWindow, st.log, a, Judged(cfg, requestsPerWindow, window, st, a).1, e);
    }
  }

  lemma SettledRejects(cfg: Config, requestsPerWindow: int, log: seq<Admission>, a: Attempt, d: Decision, e: GateError)
    requires Settles(cfg, requestsPerWindow, log, a, d)
    ensures d == Reject(e) <==> FailsLater(cfg, requestsPerWindow, log, a, e)
  {
    if FailsLater(cfg, requestsPerWindow, log, a, e) {
      if d.Admit? {
        MeetsOrFails(cfg, requestsPerWindow, log, a, d.mechanism, e);
      } else {
        OneFailure(cfg, requestsPerWindow, log, a, e, d.error);
      }
    }
  }

  // ---- what the log holds ----

  /** The admission of the drip itself. */
  ghost function DripEntry(a: Attempt, d: Decision): seq<Admission> {
    var meaning := Bech32.Meaning(a.address);
    if d.Admit? && meaning.Some? && d.coin.amount.Units? then
      [Admission(Bucket(Address(a.context.keyAlgo, meaning.value.1, d.coin.denom), a.context.chainID), a.nowAddress,
                 d.coin.amount.n)]
    else []
  }

  ghost function KeyEntry(cfg: Config, requestsPerWindow: int, log: seq<Admission>, a: Attempt): seq<Admission> {
    if Meets(cfg, a, ByApiKey) && KeyOpen(log, a, a.bearer.value, requestsPerWindow) then
      [Admission(Bucket(ApiKey(a.bearer.value.id), a.context.chainID), a.nowKey, 0)]
    else []
  }

  lemma CappedGrows(st: State, a: Attempt, m: Mechanism, coin: Coin)
    ensures
      var (st', d) := Capped(st, a, m, coin);
      st'.log == st.log + DripEntry(a, d)
  {
    var meaning := Bech32.Meaning(a.address);
    if meaning.Some? && coin.amount.Units? && a.context.maxPerDay.amount.Units? {
      var b := Bucket(Address(a.context.keyAlgo, meaning.value.1, coin.denom), a.context.chainID);
      CapDecides(st, a, m, coin, meaning.value.1,
                 CheckCoins(st, b, a.nowAddress, coin.amount.n, a.context.maxPerDay.amount.n));
    }
  }

  lemma ConsideredGrows(cfg: Config, requestsPerWindow: int, st: State, a: Attempt)
    requires Remembers(st)
    ensures
      var (st', d) := Considered(cfg, requestsPerWindow, st, a);
      st'.log == st.log + KeyEntry(cfg, requestsPerWindow, st.log, a) + DripEntry(a, d)
  {
    if Meets(cfg, a, ByApiKey) {
      var key := a.bearer.value;
      var b := Bucket(ApiKey(key.id), a.context.chainID);
      KeyStep(requestsPerWindow, st, a, key, b);
      KeyDecides(cfg, requestsPerWindow, st, a, b,
                 CheckRequests(st, b, a.nowKey, 3600, PerHour(key, requestsPerWindow), Some(a.nowKey)));
      CappedGrows(Record(st, b, a.nowKey, 0), a, ByApiKey, Offers(a, ByApiKey));
    } else if Objection(cfg, a).None? {
      CappedGrows(st, a, MechanismOf(cfg, a), CoinOf(cfg, a));
    }
  }

  /**
   Every request that its origin has room for is logged; so is every one that its key has room
   for; and the coins handed out. Nothing else is.
   */
  lemma LogGrows(cfg: Config, requestsPerWindow: int, window: nat, st: State, a: Attempt)
    requires Remembers(st)
    ensures
      var (st', d) := Judged(cfg, requestsPerWindow, window, st, a);
      st'.log == st.log +
        if OriginOpen(st.log, a, requestsPerWindow, window) then
          [Admission(Bucket(Ip(a.ip), a.context.chainID), a.now, 0)]
          + KeyEntry(cfg, requestsPerWindow, st.log, a) + DripEntry(a, d)
        else []
  {
    var r := CheckRequests(st, IpBucket(a), a.now, window, requestsPerWindow, None);
    OriginDecides(cfg, requestsPerWindow, window, st, a, r);
    OriginStep(requestsPerWindow, window, st, a, r);
    if OriginOpen(st.log, a, requestsPerWindow, window) {
      var ip := Admission(IpBucket(a), a.now, 0);
      RecordRemembers(st, IpBucket(a), a.now, 0);
      ConsideredGrows(cfg, requestsPerWindow, Record(st, IpBucket(a), a.now, 0), a);
      KeyEntrySame(cfg, requestsPerWindow, st.log, ip, a);
      InOrder(st.log, ip, KeyEntry(cfg, requestsPerWindow, st.log, a),
              DripEntry(a, Judged(cfg, requestsPerWindow, window, st, a).1));
    }
  }

  lemma KeyEntrySame(cfg: Config, requestsPerWindow: int, log: seq<Admission>, ip: Admission, a: Attempt)
    requires ip.bucket.scope.Ip?
    ensures KeyEntry(cfg, requestsPerWindow, log + [ip], a) == KeyEntry(cfg, requestsPerWindow, log, a)
  {
    if Meets(cfg, a, ByApiKey) {
      SinceElsewhere(log, ip, Bucket(ApiKey(a.bearer.value.id), a.context.chainID), a.nowKey - 3600);
    }
  }

  lemma InOrder(log: seq<Admission>, ip: Admission, key: seq<Admission>, drip: seq<Admission>)
    ensures log + [ip] + key + drip == log + ([ip] + key + drip)
  {}

  // ---- how many are let in ----

  /** The attempt comes from the origin, in the window from `start` on, and passes its check. */
  ghost predicate LetIn(requestsPerWindow: int, window: nat, log: seq<Admission>, a: Attempt, ip: string, chain: string,
                        start: int) {
    && a.ip == ip && a.context.chainID == chain && start <= a.now <= start + window
    && OriginOpen(log, a, requestsPerWindow, window)
  }

  ghost function LetInWithin(cfg: Config, requestsPerWindow: int, window: nat, attempts: seq<Attempt>, ip: string,
                             chain: string, start: int): nat {
    if attempts == [] then 0
    else
      var init, a := attempts[..|attempts| - 1], attempts[|attempts| - 1];
      LetInWithin(cfg, requestsPerWindow, window, init, ip, chain, start) +
      if LetIn(requestsPerWindow, window, Run(cfg, requestsPerWindow, window, init).log, a, ip, chain, start) then 1
      else 0
  }

  /** The attempt shows the key, in the hour from `start` on, and passes all checks up to the key's own limit. */
  ghost predicate KeyUsed(cfg: Config, requestsPerWindow: int, window: nat, log: seq<Admission>, a: Attempt, id: string,
                          chain: string, start: int) {
    && Meets(cfg, a, ByApiKey) && a.bearer.value.id == id && a.context.chainID == chain
    && start <= a.nowKey <= start + 3600
    && OriginOpen(log, a, requestsPerWindow, window) && KeyOpen(log, a, a.bearer.value, requestsPerWindow)
  }

  ghost function KeyUsedWithin(cfg: Config, requestsPerWindow: int, window: nat, attempts: seq<Attempt>, id: string,
                               chain: string, start: int): nat {
    if attempts == [] then 0
    else
      var init, a := attempts[..|attempts| - 1], attempts[|attempts| - 1];
      var log := Run(cfg, requestsPerWindow, window, init).log;
      KeyUsedWithin(cfg, requestsPerWindow, window, init, id, chain, start) +
      if KeyUsed(cfg, requestsPerWindow, window, log, a, id, chain, start) then 1 else 0
  }

  /** An admission that finds room keeps every interval within the limit. */
  lemma AddBounded(log: seq<Admission>, x: Admission, b: Bucket, window: nat, limit: int)
    requires Bounded(log, b, window, limit, Requests)
    requires x.bucket == b ==> |Since(log, b, x.second - window)| < limit
    ensures Bounded(log + [x], b, window, limit, Requests)
  {
    forall a ensures LogWithin(log + [x], b, a, window, Requests) <= if limit < 0 then 0 else limit {
      LogSnoc(log, x, b, a, window, Requests);
      if x.bucket == b && a <= x.second <= a + window {
        WithinAtMostFrom(log, b, a, window, x.second - window, Requests);
        SinceCounts(log, b, x.second - window);
      }
    }
  }

  /** The same for what a request logs after its origin. */
  lemma AddRest(log: seq<Admission>, rest: seq<Admission>, b: Bucket, window: nat, limit: int, start: int)
    requires Bounded(log, b, window, limit, Requests) && |rest| <= 1
    requires rest != [] && rest[0].bucket == b ==> |Since(log, b, rest[0].second - window)| < limit
    ensures Bounded(log + rest, b, window, limit, Requests)
    ensures LogWithin(log + rest, b, start, window, Requests) == LogWithin(log, b, start, window, Requests) +
      if rest != [] && rest[0].bucket == b && start <= rest[0].second <= start + window then 1 else 0
  {
    if rest == [] {
      assert log + rest == log;
    } else {
      assert rest == [rest[0]];
      AddBounded(log, rest[0], b, window, limit);
      LogSnoc(log, rest[0], b, start, window, Requests);
    }
  }

  /** What one request logs, of which at most one entry is in the bucket. */
  lemma AddAll(log: seq<Admission>, ip: seq<Admission>, key: seq<Admission>, drip: seq<Admission>, b: Bucket,
               window: nat, limit: int, start: int)
    requires Bounded(log, b, window, limit, Requests) && |ip| == 1 && |key| <= 1 && |drip| <= 1
    requires ip[0].bucket.scope.Ip? && (key != [] ==> key[0].bucket.scope.ApiKey?)
    requires (drip != [] ==> drip[0].bucket.scope.Address?) && !b.scope.Address?
    requires ip[0].bucket == b ==> |Since(log, b, ip[0].second - window)| < limit
    requires key != [] && key[0].bucket == b ==> |Since(log, b, key[0].second - window)| < limit
    ensures Bounded(log + (ip + key + drip), b, window, limit, Requests)
    ensures LogWithin(log + (ip + key + drip), b, start, window, Requests) ==
      LogWithin(log, b, start, window, Requests) +
      (if ip[0].bucket == b && start <= ip[0].second <= start + window then 1 else 0) +
      (if key != [] && key[0].bucket == b && start <= key[0].second <= start + window then 1 else 0)
  {
    assert ip == [ip[0]];
    AddRest(log, ip, b, window, limit, start);
    if key != [] && key[0].bucket == b {
      SinceElsewhere(log, ip[0], b, key[0].second - window);
    }
    AddRest(log + ip, key, b, window, limit, start);
    AddRest(log + ip + key, drip, b, window, limit, start);
    InOrder(log, ip[0], key, drip);
  }

  lemma OriginKeeps(cfg: Config, requestsPerWindow: int, window: nat, st: State, a: Attempt, ip: string, chain: string,
                    start: int)
    requires Remembers(st) && Bounded(st.log, Bucket(Ip(ip), chain), window, requestsPerWindow, Requests)
    ensures
      var b, log := Bucket(Ip(ip), chain), Judged(cfg, requestsPerWindow, window, st, a).0.log;
      && Bounded(log, b, window, requestsPerWindow, Requests)
      && LogWithin(log, b, start, window, Requests) == LogWithin(st.log, b, start, window, Requests) +
         if LetIn(requestsPerWindow, window, st.log, a, ip, chain, start) then 1 else 0
  {
    LogGrows(cfg, requestsPerWindow, window, st, a);
    if OriginOpen(st.log, a, requestsPerWindow, window) {
      OriginGrows(requestsPerWindow, window, st.log, a, ip, chain, start, KeyEntry(cfg, requestsPerWindow, st.log, a),
                  DripEntry(a, Judged(cfg, requestsPerWindow, window, st, a).1));
    } else {
      assert st.log + [] == st.log;
    }
  }

  lemma OriginGrows(requestsPerWindow: int, window: nat, log: seq<Admission>, a: Attempt, ip: string, chain: string,
                    start: int, key: seq<Admission>, drip: seq<Admission>)
    requires Bounded(log, Bucket(Ip(ip), chain), window, requestsPerWindow, Requests)
    requires OriginOpen(log, a, requestsPerWindow, window) && |key| <= 1 && |drip| <= 1
    requires (key != [] ==> key[0].bucket.scope.ApiKey?) && (drip != [] ==> drip[0].bucket.scope.Address?)
    ensures
      var b, log' := Bucket(Ip(ip), chain),
        log + ([Admission(Bucket(Ip(a.ip), a.context.chainID), a.now, 0)] + key + drip);
      && Bounded(log', b, window, requestsPerWindow, Requests)
      && LogWithin(log', b, start, window, Requests) == LogWithin(log, b, start, window, Requests) +
         if LetIn(requestsPerWindow, window, log, a, ip, chain, start) then 1 else 0
  {
    var entry := [Admission(Bucket(Ip(a.ip), a.context.chainID), a.now, 0)];
    AddAll(log, entry, key, drip, Bucket(Ip(ip), chain), window, requestsPerWindow, start);
  }

  lemma {:induction false} LetInIsLogged(cfg: Config, requestsPerWindow: int, window: nat, attempts: seq<Attempt>,
                                         ip: string, chain: string, start: int)
    ensures
      var log, b := Run(cfg, requestsPerWindow, window, attempts).log, Bucket(Ip(ip), chain);
      && Bounded(log, b, window, requestsPerWindow, Requests)
      && LetInWithin(cfg, requestsPerWindow, window, attempts, ip, chain, start) ==
         LogWithin(log, b, start, window, Requests)
  {
    if attempts == [] {
    } else {
      var n := |attempts| - 1;
      RunRemembers(cfg, requestsPerWindow, window, attempts[..n]);
      LetInIsLogged(cfg, requestsPerWindow, window, attempts[..n], ip, chain, start);
      OriginKeeps(cfg, requestsPerWindow, window, Run(cfg, requestsPerWindow, window, attempts[..n]), attempts[n], ip,
                  chain, start);
    }
  }

  /**
   Over every run of the gate and any clock: in no window are more requests let in from one
   origin to one chain than allowed.
   */
  lemma OriginNeverExceeds(cfg: Config, requestsPerWindow: int, window: nat, attempts: seq<Attempt>, ip: string,
                           chain: string, start: int)
    ensures LetInWithin(cfg, requestsPerWindow, window, attempts, ip, chain, start) <=
      if requestsPerWindow < 0 then 0 else requestsPerWindow
  {
    LetInIsLogged(cfg, requestsPerWindow, window, attempts, ip, chain, start);
  }

  /** Every attempt with the key is made under the same limit. */
  ghost predicate ConstantLimit(cfg: Config, requestsPerWindow: int, attempts: seq<Attempt>, id: string, chain: string,
                                limit: int) {
    forall i :: 0 <= i < |attempts| ==> LimitIs(cfg, requestsPerWindow, attempts[i], id, chain, limit)
  }

  ghost predicate LimitIs(cfg: Config, requestsPerWindow: int, a: Attempt, id: string, chain: string, limit: int) {
    Meets(cfg, a, ByApiKey) && a.bearer.value.id == id && a.context.chainID == chain ==>
      PerHour(a.bearer.value, requestsPerWindow) == limit
  }

  lemma KeyKeeps(cfg: Config, requestsPerWindow: int, window: nat, st: State, a: Attempt, id: string, chain: string,
                 limit: int, start: int)
    requires Remembers(st) && Bounded(st.log, Bucket(ApiKey(id), chain), 3600, limit, Requests)
    requires LimitIs(cfg, requestsPerWindow, a, id, chain, limit)
    ensures
      var b, log := Bucket(ApiKey(id), chain), Judged(cfg, requestsPerWindow, window, st, a).0.log;
      && Bounded(log, b, 3600, limit, Requests)
      && LogWithin(log, b, start, 3600, Requests) == LogWithin(st.log, b, start, 3600, Requests) +
         if KeyUsed(cfg, requestsPerWindow, window, st.log, a, id, chain, start) then 1 else 0
  {
    LogGrows(cfg, requestsPerWindow, window, st, a);
    if OriginOpen(st.log, a, requestsPerWindow, window) {
      KeyGrows(cfg, requestsPerWindow, window, st.log, a, id, chain, limit, start,
               DripEntry(a, Judged(cfg, requestsPerWindow, window, st, a).1));
    } else {
      assert st.log + [] == st.log;
    }
  }

  lemma KeyGrows(cfg: Config, requestsPerWindow: int, window: nat, log: seq<Admission>, a: Attempt, id: string,
                 chain: string, limit: int, start: int, drip: seq<Admission>)
    requires Bounded(log, Bucket(ApiKey(id), chain), 3600, limit, Requests)
    requires LimitIs(cfg, requestsPerWindow, a, id, chain, limit) && OriginOpen(log, a, requestsPerWindow, window)
    requires |drip| <= 1 && (drip != [] ==> drip[0].bucket.scope.Address?)
    ensures
      var key := KeyEntry(cfg, requestsPerWindow, log, a);
      var b, log' := Bucket(ApiKey(id), chain),
        log + ([Admission(Bucket(Ip(a.ip), a.context.chainID), a.now, 0)] + key + drip);
      && Bounded(log', b, 3600, limit, Requests)
      && LogWithin(log', b, start, 3600, Requests) == LogWithin(log, b, start, 3600, Requests) +
         if KeyUsed(cfg, requestsPerWindow, window, log, a, id, chain, start) then 1 else 0
  {
    var entry := [Admission(Bucket(Ip(a.ip), a.context.chainID), a.now, 0)];
    AddAll(log, entry, KeyEntry(cfg, requestsPerWindow, log, a), drip, Bucket(ApiKey(id), chain), 3600, limit, start);
  }

  lemma {:induction false} KeyUsedIsLogged(cfg: Config, requestsPerWindow: int, window: nat, attempts: seq<Attempt>,
                                           id: string, chain: string, limit: int, start: int)
    requires ConstantLimit(cfg, requestsPerWindow, attempts, id, chain, limit)
    ensures
      var log, b := Run(cfg, requestsPerWindow, window, attempts).log, Bucket(ApiKey(id), chain);
      && Bounded(log, b, 3600, limit, Requests)
      && KeyUsedWithin(cfg, requestsPerWindow, window, attempts, id, chain, start) ==
         LogWithin(log, b, start, 3600, Requests)
  {
    if attempts == [] {
    } else {
      var n := |attempts| - 1;
      RunRemembers(cfg, requestsPerWindow, window, attempts[..n]);
      KeyUsedIsLogged(cfg, requestsPerWindow, window, attempts[..n], id, chain, limit, start);
      KeyKeeps(cfg, requestsPerWindow, window, Run(cfg, requestsPerWindow, window, attempts[..n]), attempts[n], id,
               chain, limit, start);
    }
  }

  /** Over every run of the gate and any clock: no key is used more often in an hour than its limit. */
  lemma KeyNeverExceeds(cfg: Config, requestsPerWindow: int, window: nat, attempts: seq<Attempt>, id: string,
                        chain: string, limit: int, start: int)
    requires ConstantLimit(cfg, requestsPerWindow, attempts, id, chain, limit)
    ensures KeyUsedWithin(cfg, requestsPerWindow, window, attempts, id, chain, start) <= if limit < 0 then 0 else limit
  {
    KeyUsedIsLogged(cfg, requestsPerWindow, window, attempts, id, chain, limit, start);
  }
}
