/** The priority of admission mechanisms: Gate.Admit of internal/abuse/gate.go. */
module Gate {
  import Bech32
  import opened Options
  import opened RateLimit

  datatype Mechanism = ByApiKey | BySignature | ByPoW | Anonymously

  datatype GateError =
    | Unauthenticated | Forbidden | PoWRequired | BadPoW | NonceRequired | BadNonce | BadSignature
    | PredicateFailed | VerifierError | Refused(verdict: Verdict)

  datatype Decision = Admit(mechanism: Mechanism, coin: Coin) | Reject(error: GateError)

  datatype Config = Config(apiKeys: bool, signatures: bool, pow: bool)

  datatype ChainContext = ChainContext(
    chainID: string, keyAlgo: string, dripAnonymous: Coin, dripSigned: Coin, maxPerDay: Coin)

  /** What the key store says about a bearer secret; `drip` is the key's own drip for the chain. */
  datatype Key = Unknown | Key(id: string, inScope: bool, rateLimitPerHour: int, drip: Option<Coin>)

  /** What a verifier says. */
  datatype Check = Broken | Invalid | Valid

  /** The answers of the nonce store, the signature verifier and the predicate runner. */
  datatype Signature = Signature(hasNonce: bool, nonceFresh: bool, verified: Check, predicateHolds: bool)

  /** One call of Admit with everything the collaborators answer, and the clock at each check. */
  datatype Attempt = Attempt(
    ip: string, address: Bech32.Text, bearer: Option<Key>, signature: Option<Signature>, pow: Option<Check>,
    context: ChainContext, now: int, nowKey: int, nowAddress: int)

  // ---- the reference: which mechanism, which coin ----

  /** api_key before signed before pow before anonymous. */
  function MechanismOf(cfg: Config, a: Attempt): Mechanism {
    if a.bearer.Some? && cfg.apiKeys then ByApiKey
    else if a.signature.Some? && cfg.signatures then BySignature
    else if cfg.pow then ByPoW
    else Anonymously
  }

  /** The first objection of the mechanism itself, before any address is looked at. */
  function Objection(cfg: Config, a: Attempt): Option<GateError> {
    match MechanismOf(cfg, a)
    case ByApiKey =>
      if a.bearer.value.Unknown? then Some(Unauthenticated)
      else if !a.bearer.value.inScope then Some(Forbidden) else None
    case BySignature =>
      var s := a.signature.value;
      if !s.hasNonce then Some(NonceRequired)
      else if !s.nonceFresh then Some(BadNonce)
      else if s.verified == Broken then Some(VerifierError)
      else if s.verified == Invalid then Some(BadSignature)
      else if !s.predicateHolds then Some(PredicateFailed) else None
    case ByPoW =>
      if a.pow.None? then Some(PoWRequired)
      else if a.pow.value == Broken then Some(VerifierError)
      else if a.pow.value == Invalid then Some(BadPoW) else None
    case Anonymously => None
  }

  function CoinOf(cfg: Config, a: Attempt): Coin {
    match MechanismOf(cfg, a)
    case ByApiKey =>
      if a.bearer.value.Key? && a.bearer.value.drip.Some? then a.bearer.value.drip.value else a.context.dripAnonymous
    case BySignature => if a.context.dripSigned.amount.Unset? then a.context.dripAnonymous else a.context.dripSigned
    case _ => a.context.dripAnonymous
  }

  function IpBucket(a: Attempt): Bucket { Bucket(Ip(a.ip), a.context.chainID) }

  function KeyLimit(a: Attempt, requestsPerWindow: int): int
    requires a.bearer.Some? && a.bearer.value.Key?
  {
    if a.bearer.value.rateLimitPerHour > 0 then a.bearer.value.rateLimitPerHour else requestsPerWindow
  }

  /** Everything after the IP check. */
  ghost function Considered(cfg: Config, requestsPerWindow: int, st: State, a: Attempt): (State, Decision) {
    if Objection(cfg, a).Some? then (st, Reject(Objection(cfg, a).value))
    else
      var (st', o) :=
        if MechanismOf(cfg, a) != ByApiKey then (st, Admitted)
        else CheckRequests(st, Bucket(ApiKey(a.bearer.value.id), a.context.chainID), a.nowKey, API_KEY_WINDOW,
                           KeyLimit(a, requestsPerWindow), Some(a.nowKey));
      if o != Admitted
        then (st', Reject(Refused(VerdictOf(o)))) else Capped(st', a, MechanismOf(cfg, a), CoinOf(cfg, a))
  }

  /** The cap on the address, the last step of every mechanism. */
  ghost function Capped(st: State, a: Attempt, m: Mechanism, coin: Coin): (State, Decision) {
    var (st', v) :=
      CheckedAddress(st, a.address, a.context.keyAlgo, a.context.chainID, a.nowAddress, coin, a.context.maxPerDay);
    (st', if v == Pass then Admit(m, coin) else Reject(Refused(v)))
  }

  /** The whole of Admit. */
  ghost function Judged(cfg: Config, requestsPerWindow: int, window: nat, st: State, a: Attempt): (State, Decision) {
    var (st', o) := CheckRequests(st, IpBucket(a), a.now, window, requestsPerWindow, None);
    if o != Admitted then (st', Reject(Refused(VerdictOf(o)))) else Considered(cfg, requestsPerWindow, st', a)
  }

  class Gate {
    const cfg: Config
    const limiter: Limiter

    /** Every attempt that was judged. */
    ghost var attempts: seq<Attempt>

    /** The limiter is what the attempts made of it, so that NeverMoreThanTheCap is about this object. */
    ghost predicate Valid()
      reads this, limiter
    {
      limiter.Valid() && limiter.Abs() == Run(cfg, limiter.requestsPerWindow, limiter.window, attempts)
    }

    /** A gate on a limiter whose table holds what earlier attempts left there. */
    constructor (cfg: Config, limiter: Limiter, ghost attempts: seq<Attempt>)
      requires limiter.Valid() && limiter.Abs() == Run(cfg, limiter.requestsPerWindow, limiter.window, attempts)
      ensures Valid() && this.cfg == cfg && this.limiter == limiter && this.attempts == attempts
    {
      this.cfg, this.limiter, this.attempts := cfg, limiter, attempts;
    }

    method AdmitRequest(a: Attempt) returns (d: Decision)
      requires Valid() && Bech32.Ascii(a.address)
      modifies this, limiter
      ensures Valid() && attempts == old(attempts) + [a]
      ensures (limiter.Abs(), d) == Judged(cfg, limiter.requestsPerWindow, limiter.window, old(limiter.Abs()), a)
    {
      d := Judge(a);
      ghost var before := attempts;
      attempts := attempts + [a];
      assert attempts[..|before|] == before;
    }

    method Judge(a: Attempt) returns (d: Decision)
      requires limiter.Valid() && Bech32.Ascii(a.address)
      modifies limiter
      ensures limiter.Valid()
      ensures (limiter.Abs(), d) == Judged(cfg, limiter.requestsPerWindow, limiter.window, old(limiter.Abs()), a)
    {
      var v := limiter.Check(a.ip, a.context.chainID, a.now);
      if v != Pass {
        return Reject(Refused(v));
      }
      if a.bearer.Some? && cfg.apiKeys {
        d := AdmitAPIKey(a);
      } else if a.signature.Some? && cfg.signatures {
        d := AdmitSigned(a);
      } else if cfg.pow {
        d := AdmitPoW(a);
      } else {
        d := Finish(a, Anonymously, a.context.dripAnonymous);
      }
    }

    method AdmitAPIKey(a: Attempt) returns (d: Decision)
      requires limiter.Valid() && Bech32.Ascii(a.address) && MechanismOf(cfg, a) == ByApiKey
      modifies limiter
      ensures limiter.Valid()
      ensures (limiter.Abs(), d) == Considered(cfg, limiter.requestsPerWindow, old(limiter.Abs()), a)
    {
      var key := a.bearer.value;
      if key.Unknown? {
        return Reject(Unauthenticated);
      }
      if !key.inScope {
        return Reject(Forbidden);
      }
      var v := limiter.CheckAPIKey(key.id, a.context.chainID, key.rateLimitPerHour, a.nowKey);
      if v != Pass {
        return Reject(Refused(v));
      }
      var coin := a.context.dripAnonymous;
      if key.drip.Some? {
        coin := key.drip.value;
      }
      d := Finish(a, ByApiKey, coin);
    }

    method AdmitSigned(a: Attempt) returns (d: Decision)
      requires limiter.Valid() && Bech32.Ascii(a.address) && MechanismOf(cfg, a) == BySignature
      modifies limiter
      ensures limiter.Valid()
      ensures (limiter.Abs(), d) == Considered(cfg, limiter.requestsPerWindow, old(limiter.Abs()), a)
    {
      var s := a.signature.value;
      if !s.hasNonce {
        return Reject(NonceRequired);
      }
      if !s.nonceFresh {
        return Reject(BadNonce);
      }
      if s.verified == Broken {
        return Reject(VerifierError);
      }
      if s.verified == Invalid {
        return Reject(BadSignature);
      }
      if !s.predicateHolds {
        return Reject(PredicateFailed);
      }
      var coin := a.context.dripSigned;
      if coin.amount.Unset? {
        coin := a.context.dripAnonymous;
      }
      d := Finish(a, BySignature, coin);
    }

    method AdmitPoW(a: Attempt) returns (d: Decision)
      requires limiter.Valid() && Bech32.Ascii(a.address) && MechanismOf(cfg, a) == ByPoW
      modifies limiter
      ensures limiter.Valid()
      ensures (limiter.Abs(), d) == Considered(cfg, limiter.requestsPerWindow, old(limiter.Abs()), a)
    {
      if a.pow.None? {
        return Reject(PoWRequired);
      }
      if a.pow.value == Broken {
        return Reject(VerifierError);
      }
      if a.pow.value == Invalid {
        return Reject(BadPoW);
      }
      d := Finish(a, ByPoW, a.context.dripAnonymous);
    }

    method Finish(a: Attempt, m: Mechanism, coin: Coin) returns (d: Decision)
      requires limiter.Valid() && Bech32.Ascii(a.address)
      modifies limiter
      ensures limiter.Valid()
      ensures (limiter.Abs(), d) == Capped(old(limiter.Abs()), a, m, coin)
    {
      var v := limiter.CheckAddress(a.address, a.context.keyAlgo, a.context.chainID, a.nowAddress, coin,
        a.context.maxPerDay);
      d := if v == Pass then Admit(m, coin) else Reject(Refused(v));
    }
  }

  // ---- every run of the gate ----

  ghost function Run(cfg: Config, requestsPerWindow: int, window: nat, attempts: seq<Attempt>): State {
    if attempts == [] then State([], [])
    else Judged(cfg, requestsPerWindow, window, Run(cfg, requestsPerWindow, window, attempts[..|attempts| - 1]),
                attempts[|attempts| - 1]).0
  }

  /** The attempt is counted in the bucket if it gets as far as the address cap. */
  ghost predicate Concerns(cfg: Config, a: Attempt, b: Bucket) {
    var m := Bech32.Meaning(a.address);
    m.Some? && b == AddressBucket(m.value.1, a.context.keyAlgo, a.context.chainID, CoinOf(cfg, a).denom)
  }

  /** What the decisions of a run handed out of one bucket from `start` to `start + length`. */
  ghost function HandedOut(cfg: Config, requestsPerWindow: int, window: nat, attempts: seq<Attempt>,
                           b: Bucket, start: int, length: int): nat {
    if attempts == [] then 0
    else
      var init, a := attempts[..|attempts| - 1], attempts[|attempts| - 1];
      var d := Judged(cfg, requestsPerWindow, window, Run(cfg, requestsPerWindow, window, init), a).1;
      HandedOut(cfg, requestsPerWindow, window, init, b, start, length) +
      if d.Admit? && d.coin.amount.Units? && Concerns(cfg, a, b) && start <= a.nowAddress <= start + length
      then d.coin.amount.n else 0
  }

  /** Every attempt on the bucket is made under the same cap. */
  ghost predicate ConstantCap(cfg: Config, attempts: seq<Attempt>, b: Bucket, cap: nat) {
    forall i :: 0 <= i < |attempts| && Concerns(cfg, attempts[i], b) ==>
      attempts[i].context.maxPerDay.amount == Units(cap)
  }

  ghost predicate Sound(st: State, b: Bucket, cap: nat) {
    Faithful(st) && Bounded(st.log, b, ADDRESS_WINDOW, cap, Coins)
  }

  /** A request limit on another bucket hands out no coins of this one. */
  lemma RequestKeeps(st: State, c: Call, b: Bucket, cap: nat, start: int, length: int)
    requires Sound(st, b, cap) && c.Request? && c.bucket != b
    ensures Sound(Do(st, c).0, b, cap)
    ensures LogWithin(Do(st, c).0.log, b, start, length, Coins) == LogWithin(st.log, b, start, length, Coins)
  {
    CallKeeps(st, c, b, ADDRESS_WINDOW, cap, Coins);
    LogSnoc(st.log, Admission(c.bucket, c.now, 0), b, start, length, Coins);
  }

  /** The address cap logs exactly what the decision hands out. */
  lemma CapKeeps(cfg: Config, st: State, a: Attempt, b: Bucket, cap: nat, start: int, length: int)
    requires Sound(st, b, cap) && b.scope.Address?
    requires Concerns(cfg, a, b) ==> a.context.maxPerDay.amount == Units(cap)
    ensures
      var (st', d) := Capped(st, a, MechanismOf(cfg, a), CoinOf(cfg, a));
      Accounts(cfg, a, st, st', d, b, cap, start, length)
  {
    var m, coin := Bech32.Meaning(a.address), CoinOf(cfg, a);
    if m.Some? && coin.amount.Units? && a.context.maxPerDay.amount.Units? {
      var b' := AddressBucket(m.value.1, a.context.keyAlgo, a.context.chainID, coin.denom);
      DripKeeps(st, b', a.nowAddress, coin.amount.n, a.context.maxPerDay.amount.n, b, cap, start, length);
    }
  }

  lemma DripKeeps(st: State, b': Bucket, now: int, drip: nat, max: nat, b: Bucket, cap: nat, start: int, length: int)
    requires Sound(st, b, cap) && (b' == b ==> max == cap)
    ensures
      var (st', o) := CheckCoins(st, b', now, drip, max);
      && Sound(st', b, cap)
      && LogWithin(st'.log, b, start, length, Coins) == LogWithin(st.log, b, start, length, Coins) +
         if o == Admitted && b' == b && start <= now <= start + length then drip else 0
  {
    CallKeeps(st, Drip(b', now, drip, max), b, ADDRESS_WINDOW, cap, Coins);
    LogSnoc(st.log, Admission(b', now, drip), b, start, length, Coins);
  }

  /** From the one state to the other, the log of the bucket grew by what the decision hands out. */
  ghost predicate Accounts(cfg: Config, a: Attempt, st: State, st': State, d: Decision, b: Bucket, cap: nat,
                           start: int, length: int) {
    && Sound(st', b, cap)
    && (d.Admit? ==> d.coin.amount.Units?)
    && LogWithin(st'.log, b, start, length, Coins) == LogWithin(st.log, b, start, length, Coins) +
       if d.Admit? && Concerns(cfg, a, b) && start <= a.nowAddress <= start + length then d.coin.amount.n else 0
  }

  lemma ConsideredKeeps(cfg: Config, requestsPerWindow: int, st: State, a: Attempt, b: Bucket, cap: nat,
                        start: int, length: int)
    requires Sound(st, b, cap) && b.scope.Address?
    requires Concerns(cfg, a, b) ==> a.context.maxPerDay.amount == Units(cap)
    ensures
      var (st', d) := Considered(cfg, requestsPerWindow, st, a);
      Accounts(cfg, a, st, st', d, b, cap, start, length)
  {
    if Objection(cfg, a).None? {
      if MechanismOf(cfg, a) != ByApiKey {
        CapKeeps(cfg, st, a, b, cap, start, length);
      } else {
        var key := Request(Bucket(ApiKey(a.bearer.value.id), a.context.chainID), a.nowKey, API_KEY_WINDOW,
                           KeyLimit(a, requestsPerWindow), Some(a.nowKey));
        RequestKeeps(st, key, b, cap, start, length);
        CapKeeps(cfg, Do(st, key).0, a, b, cap, start, length);
      }
    }
  }

  lemma JudgedKeeps(cfg: Config, requestsPerWindow: int, window: nat, st: State, a: Attempt,
                    b: Bucket, cap: nat, start: int, length: int)
    requires Sound(st, b, cap) && b.scope.Address?
    requires Concerns(cfg, a, b) ==> a.context.maxPerDay.amount == Units(cap)
    ensures
      var (st', d) := Judged(cfg, requestsPerWindow, window, st, a);
      Accounts(cfg, a, st, st', d, b, cap, start, length)
  {
    var ip := Request(IpBucket(a), a.now, window, requestsPerWindow, None);
    RequestKeeps(st, ip, b, cap, start, length);
    ConsideredKeeps(cfg, requestsPerWindow, Do(st, ip).0, a, b, cap, start, length);
  }

  /**
   Over every run of Admit, all four mechanisms mixed and any clock: the coins handed out of
   one bucket in any interval of 24 hours never exceed its cap.
   */
  lemma {:induction false} NeverMoreThanTheCap(cfg: Config, requestsPerWindow: int, window: nat, attempts: seq<Attempt>,
                                               b: Bucket, cap: nat, start: int)
    requires b.scope.Address? && ConstantCap(cfg, attempts, b, cap)
    ensures HandedOut(cfg, requestsPerWindow, window, attempts, b, start, 86400) <= cap
  {
    HandedOutIsLogged(cfg, requestsPerWindow, window, attempts, b, cap, start, ADDRESS_WINDOW);
  }

  lemma {:induction false} HandedOutIsLogged(cfg: Config, requestsPerWindow: int, window: nat, attempts: seq<Attempt>,
                                             b: Bucket, cap: nat, start: int, length: int)
    requires b.scope.Address? && ConstantCap(cfg, attempts, b, cap)
    ensures
      var st := Run(cfg, requestsPerWindow, window, attempts);
      && Sound(st, b, cap)
      && HandedOut(cfg, requestsPerWindow, window, attempts, b, start, length) == LogWithin(st.log, b, start,
        length, Coins)
  {
    if attempts == [] {
    } else {
      var n := |attempts| - 1;
      HandedOutIsLogged(cfg, requestsPerWindow, window, attempts[..n], b, cap, start, length);
      JudgedKeeps(cfg, requestsPerWindow, window, Run(cfg, requestsPerWindow, window, attempts[..n]), attempts[n],
                  b, cap, start, length);
    }
  }

  /** Two spellings of the same bytes under different prefixes are counted in the same bucket. */
  lemma PrefixesShareBucket(cfg: Config, a: Attempt, address: Bech32.Text, hrp: Bech32.Text, hrp': Bech32.Text,
                            raw: seq<bv8>, b: Bucket)
    requires Bech32.PlainPrefix(hrp) && Bech32.PlainPrefix(hrp')
    requires Bech32.Encodes(a.address, hrp, raw) && Bech32.Encodes(address, hrp', raw)
    ensures Concerns(cfg, a, b) <==> Concerns(cfg, a.(address := address), b)
  {
    Bech32.RoundTrip(a.address, hrp, raw);
    Bech32.RoundTrip(address, hrp', raw);
    SameBytesSameBucket(cfg, a, address, b);
  }

  lemma SameBytesSameBucket(cfg: Config, a: Attempt, address: Bech32.Text, b: Bucket)
    requires Bech32.Meaning(a.address).Some? && Bech32.Meaning(address).Some?
    requires Bech32.Meaning(a.address).value.1 == Bech32.Meaning(address).value.1
    ensures Concerns(cfg, a, b) <==> Concerns(cfg, a.(address := address), b)
  {
    assert CoinOf(cfg, a.(address := address)) == CoinOf(cfg, a);
  }
}
