/**
 The chain registry store of pkg/chainregistry as a state machine over values: what a live
 update, an acceptance and a reload do to the resolved view and to the pending changes.

 `Info<T>` and `Value<T>` leave open how a fee-token list is held: a sequence here, a
 shared array in RegistryStore.
 */
module Registry {
  import opened Options

  datatype Endpoint = Endpoint(url: string, provider: string)

  datatype FeeToken = FeeToken(denom: string, low: real, average: real, high: real, display: string, exponent: nat)

  datatype Info<T> = Info(
    chainID: string, chainName: string, networkType: string, prettyName: string,
    bech32Prefix: string, slip44: nat, keyAlgo: string,
    grpc: seq<Endpoint>, rpc: seq<Endpoint>, rest: seq<Endpoint>,
    feeTokens: T, blockTime: int, enabled: bool)

  type View = Info<seq<FeeToken>>

  // ---- operator overrides ----

  /** A gas price as written by the operator. */
  datatype PriceText = Decimal(value: real) | Malformed

  datatype TokenOverride = TokenOverride(
    denom: string, low: Option<PriceText>, average: Option<PriceText>, high: Option<PriceText>)

  datatype Override = Override(
    enabled: Option<bool>, chainName: Option<string>, networkType: Option<string>, keyAlgo: Option<string>,
    bech32Prefix: Option<string>, slip44: Option<nat>, blockTime: Option<int>,
    grpc: Option<seq<string>>, rpc: Option<seq<string>>, rest: Option<seq<string>>,
    feeTokens: seq<TokenOverride>)

  function Or<T>(o: Option<T>, default: T): T { if o.Some? then o.value else default }

  function Urls(o: Option<seq<string>>, default: seq<Endpoint>): seq<Endpoint> {
    if o.None? then default else seq(|o.value|, i requires 0 <= i < |o.value| => Endpoint(o.value[i], ""))
  }

  function Price(current: real, o: Option<PriceText>): real {
    if o.Some? && o.value.Decimal? then o.value.value else current
  }

  function WithPrices(t: FeeToken, o: TokenOverride): FeeToken {
    t.(low := Price(t.low, o.low), average := Price(t.average, o.average), high := Price(t.high, o.high))
  }

  /** The first token of the denom, or the length. */
  function IndexOf(tokens: seq<FeeToken>, denom: string): (k: nat)
    ensures k <= |tokens| && (k < |tokens| ==> tokens[k].denom == denom)
    ensures forall i :: 0 <= i < k ==> tokens[i].denom != denom
  {
    if tokens == [] then 0 else if tokens[0].denom == denom then 0 else 1 + IndexOf(tokens[1..], denom)
  }

  function ApplyToken(tokens: seq<FeeToken>, o: TokenOverride): (r: seq<FeeToken>)
    ensures |r| == |tokens|
  {
    var k := IndexOf(tokens, o.denom);
    if k == |tokens| then tokens else tokens[k := WithPrices(tokens[k], o)]
  }

  function ApplyTokens(tokens: seq<FeeToken>, os: seq<TokenOverride>): (r: seq<FeeToken>)
    ensures |r| == |tokens|
  {
    if os == [] then tokens else ApplyToken(ApplyTokens(tokens, os[..|os| - 1]), os[|os| - 1])
  }

  /** applyOverride, except for the fee tokens. */
  function ApplyScalars<T>(info: Info<T>, o: Override): Info<T> {
    info.(enabled := Or(o.enabled, info.enabled), chainName := Or(o.chainName, info.chainName),
          networkType := Or(o.networkType, info.networkType), keyAlgo := Or(o.keyAlgo, info.keyAlgo),
          bech32Prefix := Or(o.bech32Prefix, info.bech32Prefix), slip44 := Or(o.slip44, info.slip44),
          blockTime := Or(o.blockTime, info.blockTime),
          grpc := Urls(o.grpc, info.grpc), rpc := Urls(o.rpc, info.rpc), rest := Urls(o.rest, info.rest))
  }

  function ApplyOverride(info: View, o: Override): View {
    ApplyScalars(info, o).(feeTokens := ApplyTokens(info.feeTokens, o.feeTokens))
  }

  type Snapshot = map<string, View>
  type Overrides = map<string, Override>

  /** resolveUnsafe and resolveStandalone: the data with the chain's override on top. */
  function Resolved(info: View, overrides: Overrides, chain: string): View {
    if chain in overrides then ApplyOverride(info, overrides[chain]) else info
  }

  // ---- fields and their policy ----

  datatype Field =
    | ChainID | ChainName | NetworkType | PrettyName | Bech32Prefix | Slip44 | KeyAlgo
    | EndpointsGRPC | EndpointsRPC | EndpointsREST | BlockTime
    | FeeTokensDenom | FeeTokensLow | FeeTokensAverage | FeeTokensHigh | FeeTokensDisplay | FeeTokensExponent

  datatype Policy = HotReload | Warn | Freeze

  function Classify(f: Field): Policy {
    match f
    case ChainID | ChainName | NetworkType | Bech32Prefix | Slip44 | KeyAlgo | FeeTokensDenom => Freeze
    case FeeTokensLow | FeeTokensAverage | FeeTokensHigh => Warn
    case _ => HotReload
  }

  const CLASSIFIABLE_FIELDS: seq<Field> := [
    ChainID, ChainName, NetworkType, PrettyName, Bech32Prefix, Slip44, KeyAlgo,
    EndpointsGRPC, EndpointsRPC, EndpointsREST, BlockTime,
    FeeTokensDenom, FeeTokensLow, FeeTokensAverage, FeeTokensHigh, FeeTokensDisplay, FeeTokensExponent]

  datatype Value<T> = Text(text: string) | Number(n: int) | List(list: seq<Endpoint>) | Tokens(tokens: T) | Summary

  /** The value that a change of the field records. */
  function ValueOf<T>(info: Info<T>, f: Field): Value<T> {
    match f
    case ChainID => Text(info.chainID)
    case ChainName => Text(info.chainName)
    case NetworkType => Text(info.networkType)
    case PrettyName => Text(info.prettyName)
    case Bech32Prefix => Text(info.bech32Prefix)
    case Slip44 => Number(info.slip44)
    case KeyAlgo => Text(info.keyAlgo)
    case EndpointsGRPC => List(info.grpc)
    case EndpointsRPC => List(info.rpc)
    case EndpointsREST => List(info.rest)
    case BlockTime => Number(info.blockTime)
    case FeeTokensDenom | FeeTokensExponent => Tokens(info.feeTokens)
    case _ => Summary
  }

  function Denoms(tokens: seq<FeeToken>): seq<string> {
    seq(|tokens|, i requires 0 <= i < |tokens| => tokens[i].denom)
  }

  function Prices(tokens: seq<FeeToken>, f: Field): seq<real> {
    seq(|tokens|, i requires 0 <= i < |tokens| =>
      if f == FeeTokensLow then tokens[i].low else if f == FeeTokensAverage then tokens[i].average else tokens[i].high)
  }

  function Displays(tokens: seq<FeeToken>): seq<string> {
    seq(|tokens|, i requires 0 <= i < |tokens| => tokens[i].display)
  }

  /** fieldValues: whether the field differs. */
  predicate Changed(old_: View, cur: View, f: Field) {
    match f
    case FeeTokensDenom => Denoms(old_.feeTokens) != Denoms(cur.feeTokens)
    case FeeTokensLow | FeeTokensAverage | FeeTokensHigh =>
      Denoms(old_.feeTokens) != Denoms(cur.feeTokens) || Prices(old_.feeTokens, f) != Prices(cur.feeTokens, f)
    case FeeTokensDisplay =>
      Denoms(old_.feeTokens) != Denoms(cur.feeTokens) || Displays(old_.feeTokens) != Displays(cur.feeTokens)
    case _ => ValueOf(old_, f) != ValueOf(cur, f)
  }

  /** applyAcceptedField. */
  function Accepted<T>(info: Info<T>, f: Field, v: Value<T>): Info<T> {
    match (f, v)
    case (ChainID, Text(s)) => info.(chainID := s)
    case (ChainName, Text(s)) => info.(chainName := s)
    case (NetworkType, Text(s)) => info.(networkType := s)
    case (Bech32Prefix, Text(s)) => info.(bech32Prefix := s)
    case (Slip44, Number(n)) => if n >= 0 then info.(slip44 := n) else info
    case (KeyAlgo, Text(s)) => info.(keyAlgo := s)
    case (FeeTokensDenom, Tokens(t)) => info.(feeTokens := t)
    case _ => info
  }

  datatype Pending<T> = Pending(oldValue: Value<T>, newValue: Value<T>)

  type Queue = map<(string, Field), Pending<seq<FeeToken>>>

  // ---- one field after the other ----

  /** One turn of the loop of applyChainUpdate: the new view and the pending changes. */
  function DiffField(chain: string, old_: View, info: View, p: Queue, f: Field): (View, Queue) {
    if !Changed(old_, info, f) then (info, p - {(chain, f)})
    else if Classify(f) == Freeze then
      (Accepted(info, f, ValueOf(old_, f)), p[(chain, f) := Pending(ValueOf(old_, f), ValueOf(info, f))])
    else (info, p)
  }

  function Diffed(chain: string, old_: View, cur: View, pending: Queue, fields: seq<Field>): (View, Queue) {
    if fields == [] then (cur, pending)
    else
      var (info, p) := Diffed(chain, old_, cur, pending, fields[..|fields| - 1]);
      DiffField(chain, old_, info, p, fields[|fields| - 1])
  }

  // ---- the same, all at once ----

  /** The new view with every frozen field as it was. */
  function Held(old_: View, cur: View): View {
    cur.(chainID := old_.chainID, chainName := old_.chainName, networkType := old_.networkType,
         bech32Prefix := old_.bech32Prefix, slip44 := old_.slip44, keyAlgo := old_.keyAlgo,
         feeTokens := if Denoms(old_.feeTokens) == Denoms(cur.feeTokens) then cur.feeTokens else old_.feeTokens)
  }

  predicate Frozen(f: Field) { Classify(f) == Freeze }

  /** The field is pending, with the old and the new value, exactly if it is frozen and differs. */
  ghost predicate QueuesAt(p: Queue, chain: string, old_: View, cur: View, f: Field) {
    if Frozen(f) && Changed(old_, cur, f) then
      (chain, f) in p && p[(chain, f)] == Pending(ValueOf(old_, f), ValueOf(cur, f))
    else (chain, f) !in p
  }

  ghost predicate Queues(p: Queue, chain: string, old_: View, cur: View) {
    forall f :: QueuesAt(p, chain, old_, cur, f)
  }

  ghost predicate SameElsewhere(p: Queue, q: Queue, chain: string) {
    forall k: (string, Field) :: k.0 != chain ==> (k in p <==> k in q) && (k in p ==> p[k] == q[k])
  }

  /** The new view with the frozen fields among the given ones as they were. */
  function HeldIn(old_: View, cur: View, fs: seq<Field>): View {
    cur.(chainID := if ChainID in fs then old_.chainID else cur.chainID,
         chainName := if ChainName in fs then old_.chainName else cur.chainName,
         networkType := if NetworkType in fs then old_.networkType else cur.networkType,
         bech32Prefix := if Bech32Prefix in fs then old_.bech32Prefix else cur.bech32Prefix,
         slip44 := if Slip44 in fs then old_.slip44 else cur.slip44,
         keyAlgo := if KeyAlgo in fs then old_.keyAlgo else cur.keyAlgo,
         feeTokens := if FeeTokensDenom in fs && Changed(old_, cur, FeeTokensDenom)
           then old_.feeTokens else cur.feeTokens)
  }

  ghost predicate OnlyFrozen(p: Queue) { forall k :: k in p ==> Frozen(k.1) }

  predicate Distinct(fs: seq<Field>) { forall i, j :: 0 <= i < j < |fs| ==> fs[i] != fs[j] }

  /** A frozen field that was not visited yet is still the new one. */
  lemma NotYetHeld(old_: View, cur: View, fs: seq<Field>, f: Field)
    requires f !in fs && Frozen(f)
    ensures ValueOf(HeldIn(old_, cur, fs), f) == ValueOf(cur, f)
    ensures Changed(old_, HeldIn(old_, cur, fs), f) <==> Changed(old_, cur, f)
  {}

  lemma HeldStep(old_: View, cur: View, fs: seq<Field>, f: Field)
    requires f !in fs
    ensures HeldIn(old_, cur, fs + [f]) ==
      if Frozen(f) && Changed(old_, cur, f) then Accepted(HeldIn(old_, cur, fs), f, ValueOf(old_, f))
      else HeldIn(old_, cur, fs)
  {
    forall g ensures g in fs + [f] <==> g in fs || g == f {}
    if !Frozen(f) {
      HeldSame(old_, cur, fs, fs + [f]);
    } else {
      HeldOne(old_, cur, fs, fs + [f], f);
    }
  }

  lemma HeldSame(old_: View, cur: View, fs: seq<Field>, gs: seq<Field>)
    requires forall g :: Frozen(g) ==> (g in gs <==> g in fs)
    ensures HeldIn(old_, cur, gs) == HeldIn(old_, cur, fs)
  {}

  lemma HeldOne(old_: View, cur: View, fs: seq<Field>, gs: seq<Field>, f: Field)
    requires Frozen(f) && f !in fs && forall g :: g in gs <==> g in fs || g == f
    ensures HeldIn(old_, cur, gs) ==
      if Changed(old_, cur, f) then Accepted(HeldIn(old_, cur, fs), f, ValueOf(old_, f)) else HeldIn(old_, cur, fs)
  {
    match f
    case ChainID => case ChainName => case NetworkType => case Bech32Prefix => case Slip44 => case KeyAlgo =>
    case FeeTokensDenom =>
  }

  ghost predicate QueuedAt(q: Queue, p: Queue, chain: string, old_: View, cur: View, fs: seq<Field>, f: Field) {
    if f !in fs then ((chain, f) in q <==> (chain, f) in p) && ((chain, f) in q ==> q[(chain, f)] == p[(chain, f)])
    else QueuesAt(q, chain, old_, cur, f)
  }

  /** Visiting the fields one by one amounts to holding and queueing them at once. */
  lemma {:induction false} DiffedIs(chain: string, old_: View, cur: View, p: Queue, fs: seq<Field>)
    requires Distinct(fs) && OnlyFrozen(p)
    ensures
      var (info, q) := Diffed(chain, old_, cur, p, fs);
      && info == HeldIn(old_, cur, fs) && OnlyFrozen(q) && SameElsewhere(p, q, chain)
      && forall f :: QueuedAt(q, p, chain, old_, cur, fs, f)
  {
    if fs == [] {
    } else {
      var n := |fs| - 1;
      var f, init := fs[n], fs[..n];
      assert fs == init + [f] && f !in init;
      DiffedIs(chain, old_, cur, p, init);
      HeldStep(old_, cur, init, f);
      if Frozen(f) {
        NotYetHeld(old_, cur, init, f);
      }
      var q0, q := Diffed(chain, old_, cur, p, init).1, Diffed(chain, old_, cur, p, fs).1;
      forall g ensures QueuedAt(q, p, chain, old_, cur, fs, g) {
        assert QueuedAt(q0, p, chain, old_, cur, init, g);
        assert g in fs <==> g in init || g == f;
      }
    }
  }

  function Position(f: Field): nat {
    match f
    case ChainID => 0 case ChainName => 1 case NetworkType => 2 case PrettyName => 3 case Bech32Prefix => 4
    case Slip44 => 5 case KeyAlgo => 6 case EndpointsGRPC => 7 case EndpointsRPC => 8 case EndpointsREST => 9
    case BlockTime => 10 case FeeTokensDenom => 11 case FeeTokensLow => 12 case FeeTokensAverage => 13
    case FeeTokensHigh => 14 case FeeTokensDisplay => 15 case FeeTokensExponent => 16
  }

  lemma AllFieldsOnce()
    ensures forall f :: f in CLASSIFIABLE_FIELDS
    ensures Distinct(CLASSIFIABLE_FIELDS)
  {
    forall f ensures f in CLASSIFIABLE_FIELDS {
      assert CLASSIFIABLE_FIELDS[Position(f)] == f;
    }
    forall i | 0 <= i < |CLASSIFIABLE_FIELDS| ensures Position(CLASSIFIABLE_FIELDS[i]) == i {}
  }

  /** applyChainUpdate: every frozen field keeps its old value, and the differing ones are pending. */
  lemma ChainUpdate(chain: string, old_: View, cur: View, p: Queue)
    requires OnlyFrozen(p)
    ensures
      var (info, q) := Diffed(chain, old_, cur, p, CLASSIFIABLE_FIELDS);
      info == Held(old_, cur) && OnlyFrozen(q) && Queues(q, chain, old_, cur) && SameElsewhere(p, q, chain)
  {
    AllFieldsOnce();
    DiffedIs(chain, old_, cur, p, CLASSIFIABLE_FIELDS);
    HeldInAll(old_, cur, CLASSIFIABLE_FIELDS);
    QueuesAll(Diffed(chain, old_, cur, p, CLASSIFIABLE_FIELDS).1, p, chain, old_, cur, CLASSIFIABLE_FIELDS);
  }

  lemma HeldInAll(old_: View, cur: View, fs: seq<Field>)
    requires forall f :: f in fs
    ensures HeldIn(old_, cur, fs) == Held(old_, cur)
  {}

  lemma QueuesAll(q: Queue, p: Queue, chain: string, old_: View, cur: View, fs: seq<Field>)
    requires forall f :: f in fs
    requires forall f :: QueuedAt(q, p, chain, old_, cur, fs, f)
    ensures Queues(q, chain, old_, cur)
  {
    forall f ensures QueuesAt(q, chain, old_, cur, f) {
      assert QueuedAt(q, p, chain, old_, cur, fs, f);
    }
  }

  // ---- the store ----

  /** `bases` holds the standalone chains as the operator's configuration defines them. */
  datatype Store = Store(
    chains: map<string, View>, bases: map<string, View>, live: Option<Snapshot>, overrides: Overrides, pending: Queue)

  /** The registry chains that UpdateLive compares with what was there. */
  predicate Compared(s: Store, snap: Snapshot, c: string) {
    c in snap && c !in s.bases && c in s.chains && s.live.Some?
  }

  function UpdatedView(s: Store, snap: Snapshot, c: string): View
    requires c in s.chains || (c in snap && c !in s.bases)
  {
    if c in s.bases && c in s.chains then s.chains[c]
    else if c in snap then
      var r := Resolved(snap[c], s.overrides, c);
      if Compared(s, snap, c) then Held(s.chains[c], r) else r
    else s.chains[c].(enabled := false)
  }

  /** UpdateLive: the new view of every chain, and the new pending changes. */
  ghost predicate Updates(s: Store, snap: Snapshot, s': Store) {
    && s'.bases == s.bases && s'.overrides == s.overrides && s'.live == Some(snap)
    && s'.chains.Keys == s.chains.Keys + (snap.Keys - s.bases.Keys)
    && (forall c :: c in s'.chains ==> s'.chains[c] == UpdatedView(s, snap, c))
    && OnlyFrozen(s'.pending)
    && (forall c :: if Compared(s, snap, c)
                    then Queues(s'.pending, c, s.chains[c], Resolved(snap[c], s.overrides, c))
                    else forall f :: SameAt(s.pending, s'.pending, c, f))
  }

  ghost predicate SameAt(p: Queue, q: Queue, c: string, f: Field) {
    ((c, f) in p <==> (c, f) in q) && ((c, f) in p ==> p[(c, f)] == q[(c, f)])
  }

  // ---- a live update, chain by chain ----

  /** What the loop of UpdateLive does for one chain of the snapshot. */
  ghost predicate UpdatesOne(s: Store, snap: Snapshot, compare: bool, c: string, s': Store)
    requires c in snap && c !in s.bases
  {
    var r := Resolved(snap[c], s.overrides, c);
    && OnlyFrozen(s'.pending) && SameElsewhere(s.pending, s'.pending, c)
    && (if compare && c in s.chains then
          s' == s.(chains := s.chains[c := Held(s.chains[c], r)], pending := s'.pending)
            && Queues(s'.pending, c, s.chains[c], r)
        else s' == s.(chains := s.chains[c := r]))
  }

  /** The pending changes of one chain, when those of the chains in `done` were compared. */
  ghost predicate PendingPart(s0: Store, snap: Snapshot, p: Queue, done: set<string>, c: string) {
    if c in done && Compared(s0, snap, c) then Queues(p, c, s0.chains[c], Resolved(snap[c], s0.overrides, c))
    else forall f :: SameAt(s0.pending, p, c, f)
  }

  function ViewPart(s0: Store, snap: Snapshot, done: set<string>, c: string): View
    requires c in s0.chains || (c in snap && c !in s0.bases)
  {
    if c in done || c !in s0.chains then UpdatedView(s0, snap, c) else s0.chains[c]
  }

  /** UpdateLive after the chains in `done`. */
  ghost predicate UpdatesPart(s0: Store, snap: Snapshot, done: set<string>, s: Store) {
    && s.bases == s0.bases && s.overrides == s0.overrides && s.live == Some(snap) && done <= snap.Keys
    && s.chains.Keys == s0.chains.Keys + (done - s0.bases.Keys)
    && (forall c :: c in s.chains ==> s.chains[c] == ViewPart(s0, snap, done, c))
    && OnlyFrozen(s.pending)
    && (forall c :: PendingPart(s0, snap, s.pending, done, c))
  }

  lemma QueuesMoved(p: Queue, q: Queue, c: string, d: string, old_: View, cur: View)
    requires SameElsewhere(p, q, c) && d != c && Queues(p, d, old_, cur)
    ensures Queues(q, d, old_, cur)
  {
    forall f ensures QueuesAt(q, d, old_, cur, f) {
      assert QueuesAt(p, d, old_, cur, f);
    }
  }

  lemma PartOfOther(s0: Store, snap: Snapshot, done: set<string>, p: Queue, q: Queue, c: string, d: string)
    requires PendingPart(s0, snap, p, done, d) && SameElsewhere(p, q, c) && d != c
    ensures PendingPart(s0, snap, q, done + {c}, d)
  {
    if d in done && Compared(s0, snap, d) {
      QueuesMoved(p, q, c, d, s0.chains[d], Resolved(snap[d], s0.overrides, d));
    } else {
      forall f ensures SameAt(s0.pending, q, d, f) {
        assert SameAt(s0.pending, p, d, f);
      }
    }
  }

  lemma PartOfOne(s0: Store, snap: Snapshot, done: set<string>, s: Store, c: string, s': Store)
    requires UpdatesPart(s0, snap, done, s) && c in snap && c !in s0.bases && c !in done
    requires UpdatesOne(s, snap, s0.live.Some?, c, s')
    ensures PendingPart(s0, snap, s'.pending, done + {c}, c)
  {
    assert PendingPart(s0, snap, s.pending, done, c);
  }

  lemma PartViews(s0: Store, snap: Snapshot, done: set<string>, s: Store, c: string, s': Store)
    requires UpdatesPart(s0, snap, done, s) && c in snap && c !in s0.bases && c !in done
    requires UpdatesOne(s, snap, s0.live.Some?, c, s')
    ensures forall d :: d in s'.chains ==> s'.chains[d] == ViewPart(s0, snap, done + {c}, d)
  {
    assert c in s.chains <==> c in s0.chains;
    assert s'.chains == s.chains[c := UpdatedView(s0, snap, c)];
  }

  lemma PartKeys(s0: Store, snap: Snapshot, done: set<string>, s: Store, c: string, s': Store)
    requires UpdatesPart(s0, snap, done, s) && c in snap && c !in s0.bases && c !in done
    requires UpdatesOne(s, snap, s0.live.Some?, c, s')
    ensures s'.chains.Keys == s0.chains.Keys + (done + {c} - s0.bases.Keys)
  {}

  lemma UpdateStep(s0: Store, snap: Snapshot, done: set<string>, s: Store, c: string, s': Store)
    requires UpdatesPart(s0, snap, done, s) && c in snap && c !in s0.bases && c !in done
    requires UpdatesOne(s, snap, s0.live.Some?, c, s')
    ensures UpdatesPart(s0, snap, done + {c}, s')
  {
    PartKeys(s0, snap, done, s, c, s');
    PartViews(s0, snap, done, s, c, s');
    PartOfOne(s0, snap, done, s, c, s');
    forall d ensures PendingPart(s0, snap, s'.pending, done + {c}, d) {
      if d != c {
        assert PendingPart(s0, snap, s.pending, done, d);
        PartOfOther(s0, snap, done, s.pending, s'.pending, c, d);
      }
    }
  }

  /** A standalone chain in the snapshot is passed over. */
  lemma UpdateSkip(s0: Store, snap: Snapshot, done: set<string>, s: Store, c: string)
    requires UpdatesPart(s0, snap, done, s) && c in snap && c in s0.bases
    ensures UpdatesPart(s0, snap, done + {c}, s)
  {
    forall d ensures PendingPart(s0, snap, s.pending, done + {c}, d) {
      assert PendingPart(s0, snap, s.pending, done, d);
    }
    forall d | d in s.chains ensures s.chains[d] == ViewPart(s0, snap, done + {c}, d) {}
  }

  function ViewDisabled(s: Store, snap: Snapshot, done: set<string>, c: string): View
    requires c in s.chains
  {
    if c in done && c !in s.bases && c !in snap then s.chains[c].(enabled := false) else s.chains[c]
  }

  /** The second loop of UpdateLive, after the chains in `done`. */
  ghost predicate DisablesPart(s: Store, snap: Snapshot, done: set<string>, s': Store) {
    && s' == s.(chains := s'.chains) && s'.chains.Keys == s.chains.Keys
    && forall c :: c in s.chains ==> s'.chains[c] == ViewDisabled(s, snap, done, c)
  }

  lemma DisabledStep(s: Store, snap: Snapshot, done: set<string>, s': Store, c: string, s'': Store)
    requires DisablesPart(s, snap, done, s') && c in s.chains
    requires s'' ==
      if c !in s.bases && c !in snap then s'.(chains := s'.chains[c := s'.chains[c].(enabled := false)]) else s'
    ensures DisablesPart(s, snap, done + {c}, s'')
  {
    forall d | d in s.chains ensures s''.chains[d] == ViewDisabled(s, snap, done + {c}, d) {}
  }

  lemma UpdateStart(s0: Store, snap: Snapshot)
    requires OnlyFrozen(s0.pending)
    ensures UpdatesPart(s0, snap, {}, s0.(live := Some(snap)))
  {}

  lemma UpdateDone(s0: Store, snap: Snapshot, s: Store, s': Store)
    requires UpdatesPart(s0, snap, snap.Keys, s) && DisablesPart(s, snap, s.chains.Keys, s')
    ensures Updates(s0, snap, s')
  {
    forall c | c in s'.chains ensures s'.chains[c] == UpdatedView(s0, snap, c) {
      assert s.chains[c] == ViewPart(s0, snap, snap.Keys, c);
      assert s'.chains[c] == ViewDisabled(s, snap, s.chains.Keys, c);
    }
    forall c
      ensures if Compared(s0, snap, c)
              then Queues(s'.pending, c, s0.chains[c], Resolved(snap[c], s0.overrides, c))
              else forall f :: SameAt(s0.pending, s'.pending, c, f)
    {
      assert PendingPart(s0, snap, s.pending, snap.Keys, c);
    }
  }

  /** Accept; None stands for its errors. */
  function Accept(s: Store, c: string, f: Field): Option<Store> {
    if (c, f) !in s.pending || c !in s.chains then None
    else Some(s.(chains := s.chains[c := Accepted(s.chains[c], f, s.pending[(c, f)].newValue)],
                 pending := s.pending - {(c, f)}))
  }

  /** SetOverrides; the fee tokens of a standalone chain are overwritten where they stand. */
  function Reloaded(s: Store, ov: Overrides): Store {
    s.(overrides := ov,
       chains := map c | c in s.chains :: ReloadedView(s, ov, c),
       bases := map c | c in s.bases :: ReloadedBase(s, ov, c))
  }

  function ReloadedView(s: Store, ov: Overrides, c: string): View
    requires c in s.chains
  {
    if c in s.bases then Resolved(s.bases[c], ov, c)
    else if s.live.Some? && c in s.live.value then Resolved(s.live.value[c], ov, c)
    else s.chains[c]
  }

  function ReloadedBase(s: Store, ov: Overrides, c: string): View
    requires c in s.bases
  {
    s.bases[c].(feeTokens := Resolved(s.bases[c], ov, c).feeTokens)
  }

  // ---- a reload, chain by chain ----

  /** What the loop of SetOverrides does for one chain. */
  ghost predicate ReloadsOne(s: Store, c: string, s': Store)
    requires c in s.chains
  {
    && s' == s.(chains := s'.chains, bases := s'.bases)
    && s'.chains == s.chains[c := ReloadedView(s, s.overrides, c)]
    && s'.bases == if c in s.bases then s.bases[c := ReloadedBase(s, s.overrides, c)] else s.bases
  }

  /** The tokens of a standalone chain have been written to; its own view is left open. */
  ghost predicate Rewrites(s: Store, c: string, s': Store)
    requires c in s.bases
  {
    && s' == s.(chains := s'.chains, bases := s'.bases)
    && s'.chains.Keys == s.chains.Keys && (forall d :: d in s.chains && d != c ==> s'.chains[d] == s.chains[d])
    && s'.bases.Keys == s.bases.Keys && (forall d :: d in s.bases && d != c ==> s'.bases[d] == s.bases[d])
    && s'.bases[c] == ReloadedBase(s, s.overrides, c)
  }

  lemma SameBut<V>(m: map<string, V>, m': map<string, V>, c: string, v: V)
    requires m'.Keys == m.Keys && forall d :: d in m && d != c ==> m'[d] == m[d]
    ensures m'[c := v] == m[c := v]
    ensures c in m' ==> m' == m[c := m'[c]]
  {}

  lemma RewritesThenPublished(s: Store, c: string, s': Store, v: View, s'': Store)
    requires c in s.bases && c in s.chains && Rewrites(s, c, s')
    requires v == Resolved(s.bases[c], s.overrides, c) && s'' == s'.(chains := s'.chains[c := v])
    ensures ReloadsOne(s, c, s'')
  {
    SameBut(s.chains, s'.chains, c, v);
    SameBut(s.bases, s'.bases, c, v);
  }

  /** SetOverrides after the chains in `done`. */
  ghost predicate ReloadsPart(s0: Store, ov: Overrides, done: set<string>, s: Store) {
    && s == s0.(overrides := ov, chains := s.chains, bases := s.bases)
    && s.chains.Keys == s0.chains.Keys && s.bases.Keys == s0.bases.Keys
    && (forall c :: c in s.chains ==> s.chains[c] == if c in done then ReloadedView(s0, ov, c) else s0.chains[c])
    && (forall c :: c in s.bases ==> s.bases[c] == if c in done then ReloadedBase(s0, ov, c) else s0.bases[c])
  }

  lemma ReloadStep(s0: Store, ov: Overrides, done: set<string>, s: Store, c: string, s': Store)
    requires ReloadsPart(s0, ov, done, s) && c in s.chains && c !in done && ReloadsOne(s, c, s')
    ensures ReloadsPart(s0, ov, done + {c}, s')
  {
    ReloadStepViews(s0, ov, done, s, c, s');
    ReloadStepBases(s0, ov, done, s, c, s');
  }

  lemma ReloadStepBases(s0: Store, ov: Overrides, done: set<string>, s: Store, c: string, s': Store)
    requires ReloadsPart(s0, ov, done, s) && c in s.chains && c !in done && ReloadsOne(s, c, s')
    ensures s'.bases.Keys == s0.bases.Keys
    ensures forall d :: d in s'.bases ==>
      s'.bases[d] == if d in done + {c} then ReloadedBase(s0, ov, d) else s0.bases[d]
  {
    assert c in s.bases ==> ReloadedBase(s, ov, c) == ReloadedBase(s0, ov, c);
  }

  lemma ReloadStepViews(s0: Store, ov: Overrides, done: set<string>, s: Store, c: string, s': Store)
    requires ReloadsPart(s0, ov, done, s) && c in s.chains && c !in done && ReloadsOne(s, c, s')
    ensures s'.chains.Keys == s0.chains.Keys
    ensures forall d :: d in s'.chains ==>
      s'.chains[d] == if d in done + {c} then ReloadedView(s0, ov, d) else s0.chains[d]
  {
    assert ReloadedView(s, ov, c) == ReloadedView(s0, ov, c);
  }

  /** A registry chain, or one that neither the snapshot nor the configuration has. */
  lemma PublishedReloads(s: Store, c: string, s': Store)
    requires c in s.chains && c !in s.bases
    requires s' == s.(chains := s.chains[c := ReloadedView(s, s.overrides, c)])
    ensures ReloadsOne(s, c, s')
  {}

  lemma SkippedReloads(s: Store, c: string)
    requires c in s.chains && c !in s.bases && !(s.live.Some? && c in s.live.value)
    ensures ReloadsOne(s, c, s)
  {
    assert s.chains == s.chains[c := s.chains[c]];
  }

  lemma ReloadStart(s0: Store, ov: Overrides)
    ensures ReloadsPart(s0, ov, {}, s0.(overrides := ov))
  {}

  lemma ReloadDone(s0: Store, ov: Overrides, s: Store)
    requires ReloadsPart(s0, ov, s0.chains.Keys, s) && s0.bases.Keys <= s0.chains.Keys
    ensures s == Reloaded(s0, ov)
  {
    assert s.chains == Reloaded(s0, ov).chains;
    assert s.bases == Reloaded(s0, ov).bases;
  }

  /** A registry chain in the latest snapshot. */
  predicate Tracked(s: Store, c: string) { s.live.Some? && c in s.live.value && c !in s.bases }

  function Target(s: Store, c: string): View
    requires Tracked(s, c)
  {
    Resolved(s.live.value[c], s.overrides, c)
  }

  /** What the store keeps true of one chain. */
  ghost predicate Consistent(s: Store, c: string)
    requires Tracked(s, c)
  {
    c in s.chains && Queues(s.pending, c, s.chains[c], Target(s, c)) && s.chains[c] == Held(s.chains[c], Target(s, c))
  }

  /** Every field that is never frozen is as in the target; the fee tokens are left open. */
  predicate UpToDate(v: View, r: View) {
    v.prettyName == r.prettyName && v.blockTime == r.blockTime && v.enabled == r.enabled
    && v.grpc == r.grpc && v.rpc == r.rpc && v.rest == r.rest
  }

  /** What every operation keeps. */
  ghost predicate Sound(s: Store) {
    && OnlyFrozen(s.pending) && s.bases.Keys <= s.chains.Keys
    && (forall k :: k in s.pending ==> k.0 in s.chains && s.live.Some?)
    && (forall c :: Tracked(s, c) ==> c in s.chains && UpToDate(s.chains[c], Target(s, c)))
  }

  /** What every operation but a reload keeps, and a live update restores. */
  ghost predicate Invariant(s: Store) {
    Sound(s) && forall c :: Tracked(s, c) ==> Consistent(s, c)
  }

  /** AddStandalone, for one chain; its fee tokens are overwritten where they stand. */
  function Added(s: Store, info: View): Store {
    var r := Resolved(info, s.overrides, info.chainID);
    s.(chains := s.chains[info.chainID := r], bases := s.bases[info.chainID := info.(feeTokens := r.feeTokens)])
  }

  /** AddStandalone, for all its arguments. */
  function AddedAll(s: Store, infos: seq<View>): Store {
    if infos == [] then s else Added(AddedAll(s, infos[..|infos| - 1]), infos[|infos| - 1])
  }

  lemma AddedNext(s: Store, infos: seq<View>, n: nat)
    requires n < |infos|
    ensures AddedAll(s, infos[..n + 1]) == Added(AddedAll(s, infos[..n]), infos[n])
  {
    assert infos[..n + 1][..n] == infos[..n];
  }

  function Empty(overrides: Overrides): Store { Store(map[], map[], None, overrides, map[]) }

  lemma HeldQueues(p: Queue, c: string, old_: View, cur: View)
    requires Queues(p, c, old_, cur)
    ensures Queues(p, c, Held(old_, cur), cur)
  {
    forall f ensures QueuesAt(p, c, Held(old_, cur), cur, f) {
      assert QueuesAt(p, c, old_, cur, f);
    }
  }

  lemma HeldTwice(old_: View, cur: View)
    ensures Held(Held(old_, cur), cur) == Held(old_, cur)
    ensures Held(cur, cur) == cur
  {}

  /** A live update establishes the invariant, whatever reloads came before. */
  lemma UpdateRestores(s: Store, snap: Snapshot, s': Store)
    requires Sound(s) && Updates(s, snap, s')
    ensures Invariant(s')
  {
    forall c | Tracked(s', c) ensures Consistent(s', c) && UpToDate(s'.chains[c], Target(s', c)) {
      UpdateConsistent(s, snap, s', c);
    }
    forall k | k in s'.pending ensures k.0 in s'.chains {
      var (c, f) := k;
      if !Compared(s, snap, c) {
        assert SameAt(s.pending, s'.pending, c, f);
      }
    }
  }

  lemma UpdateConsistent(s: Store, snap: Snapshot, s': Store, c: string)
    requires Sound(s) && Updates(s, snap, s') && Tracked(s', c)
    ensures Consistent(s', c)
  {
    var r := Target(s', c);
    if Compared(s, snap, c) {
      HeldQueues(s'.pending, c, s.chains[c], r);
      HeldTwice(s.chains[c], r);
    } else {
      HeldTwice(r, r);
      forall f ensures QueuesAt(s'.pending, c, r, r, f) {
        assert SameAt(s.pending, s'.pending, c, f);
      }
    }
  }

  // ---- acceptance ----

  /** Accepting one frozen field closes its gap to the target and touches no other. */
  lemma AcceptedCloses(v: View, r: View, f: Field, g: Field)
    requires Frozen(f) && Frozen(g)
    ensures
      var v' := Accepted(v, f, ValueOf(r, f));
      && (g == f ==> ValueOf(v', f) == ValueOf(r, f) && !Changed(v', r, f))
      && (g != f ==> ValueOf(v', g) == ValueOf(v, g) && (Changed(v', r, g) <==> Changed(v, r, g)))
  {}

  lemma AcceptedHeld(v: View, r: View, f: Field)
    requires Frozen(f) && v == Held(v, r)
    ensures
      var v' := Accepted(v, f, ValueOf(r, f));
      v' == Held(v', r)
  {}

  lemma AcceptKeeps(s: Store, c: string, f: Field)
    requires Invariant(s) && Accept(s, c, f).Some?
    ensures Invariant(Accept(s, c, f).value)
  {
    var s' := Accept(s, c, f).value;
    forall d | Tracked(s', d) ensures Consistent(s', d) {
      assert Tracked(s, d) && Consistent(s, d);
      if d == c {
        AcceptConsistent(s, c, f);
      } else {
        forall g ensures QueuesAt(s'.pending, d, s'.chains[d], Target(s, d), g) {
          assert QueuesAt(s.pending, d, s.chains[d], Target(s, d), g);
        }
      }
    }
  }

  lemma AcceptConsistent(s: Store, c: string, f: Field)
    requires Tracked(s, c) && Consistent(s, c) && OnlyFrozen(s.pending) && Accept(s, c, f).Some?
    ensures Tracked(Accept(s, c, f).value, c) && Consistent(Accept(s, c, f).value, c)
  {
    var s', v, r := Accept(s, c, f).value, s.chains[c], Target(s, c);
    assert QueuesAt(s.pending, c, v, r, f);
    AcceptedHeld(v, r, f);
    forall g ensures QueuesAt(s'.pending, c, s'.chains[c], r, g) {
      assert QueuesAt(s.pending, c, v, r, g);
      if Frozen(g) {
        AcceptedCloses(v, r, f, g);
      }
    }
  }

  /** Accepting a pending change of a tracked chain sets that field as in the target, and no other. */
  lemma AcceptShows(s: Store, c: string, f: Field)
    requires Invariant(s) && Tracked(s, c) && (c, f) in s.pending
    ensures Accept(s, c, f).Some? && c in s.chains && c in Accept(s, c, f).value.chains
    ensures
      var v, r, v' := s.chains[c], Target(s, c), Accept(s, c, f).value.chains[c];
      match f
      case ChainID => v' == v.(chainID := r.chainID)
      case ChainName => v' == v.(chainName := r.chainName)
      case NetworkType => v' == v.(networkType := r.networkType)
      case Bech32Prefix => v' == v.(bech32Prefix := r.bech32Prefix)
      case Slip44 => v' == v.(slip44 := r.slip44)
      case KeyAlgo => v' == v.(keyAlgo := r.keyAlgo)
      case _ => f == FeeTokensDenom && v' == v.(feeTokens := r.feeTokens)
  {
    assert Consistent(s, c) && QueuesAt(s.pending, c, s.chains[c], Target(s, c), f);
  }

  // ---- every run ----

  datatype Op = Live(snap: Snapshot) | Acceptance(chain: string, field: Field) | Standalone(info: View)
    | Reload(ov: Overrides)

  /** One step; a refused acceptance changes nothing. */
  ghost predicate Steps(s: Store, op: Op, s': Store) {
    match op
    case Live(snap) => Updates(s, snap, s')
    case Acceptance(c, f) => s' == Or(Accept(s, c, f), s)
    case Standalone(info) => s' == Added(s, info)
    case Reload(ov) => s' == Reloaded(s, ov)
  }

  lemma StepKeepsFrozen(s: Store, op: Op, s': Store)
    requires OnlyFrozen(s.pending) && Steps(s, op, s')
    ensures OnlyFrozen(s'.pending)
  {}

  /** The states are those of a run of the operations, from the first to the last. */
  ghost predicate Runs(states: seq<Store>, ops: seq<Op>, first: Store, last: Store) {
    && |states| == |ops| + 1 && states[0] == first && states[|ops|] == last
    && forall i :: 0 <= i < |ops| ==> Steps(states[i], ops[i], states[i + 1])
  }

  lemma RunsFrom(states: seq<Store>, ops: seq<Op>, first: Store, next: Store, last: Store)
    requires ops != [] && Steps(first, ops[0], next) && Runs(states, ops[1..], next, last)
    ensures Runs([first] + states, ops, first, last)
  {
    var states' := [first] + states;
    forall i | 0 <= i < |ops| ensures Steps(states'[i], ops[i], states'[i + 1]) {
      if i > 0 {
        assert ops[i] == ops[1..][i - 1] && Steps(states[i - 1], ops[1..][i - 1], states[i - 1 + 1]);
      }
    }
  }

  lemma StepKeepsSound(s: Store, op: Op, s': Store)
    requires Sound(s) && Steps(s, op, s')
    ensures Sound(s')
  {
    match op
    case Live(snap) => UpdateRestores(s, snap, s');
    case Acceptance(c, f) => AcceptKeepsSound(s, c, f);
    case Standalone(info) => AddKeeps(s, info);
    case Reload(ov) => ReloadKeepsSound(s, ov);
  }

  lemma AcceptKeepsSound(s: Store, c: string, f: Field)
    requires Sound(s)
    ensures Sound(Or(Accept(s, c, f), s))
  {
    if Accept(s, c, f).Some? {
      var s' := Accept(s, c, f).value;
      forall d | Tracked(s', d) ensures UpToDate(s'.chains[d], Target(s', d)) {
        assert Tracked(s, d);
      }
    }
  }

  lemma AddKeeps(s: Store, info: View)
    requires Sound(s)
    ensures Sound(Added(s, info)) && (Invariant(s) ==> Invariant(Added(s, info)))
  {
    var s' := Added(s, info);
    forall d | Tracked(s', d) ensures UpToDate(s'.chains[d], Target(s', d)) && (Invariant(s) ==> Consistent(s', d)) {
      assert Tracked(s, d);
    }
  }

  lemma ReloadKeepsSound(s: Store, ov: Overrides)
    requires Sound(s)
    ensures Sound(Reloaded(s, ov))
  {
    var s' := Reloaded(s, ov);
    forall d | Tracked(s', d) ensures d in s'.chains && s'.chains[d] == Target(s', d) {
      assert Tracked(s, d);
    }
  }

  /** A live update came after the last reload, or there was none. */
  predicate Settled(ops: seq<Op>) {
    ops == [] || ops[|ops| - 1].Live? || (!ops[|ops| - 1].Reload? && Settled(ops[..|ops| - 1]))
  }

  /**
   Over every run from the empty store, whatever the operations and their order, the store
   is sound; and unless a reload came after the last live update, every registry chain of
   the latest snapshot is consistent, so that ViewDescribed applies.
   */
  lemma {:induction false} RunKeepsInvariant(states: seq<Store>, ops: seq<Op>, ov: Overrides)
    requires |states| == |ops| + 1 && Runs(states, ops, Empty(ov), states[|ops|])
    ensures Sound(states[|ops|]) && (Settled(ops) ==> Invariant(states[|ops|]))
  {
    if ops == [] {
    } else {
      var n := |ops| - 1;
      assert Runs(states[..n + 1], ops[..n], Empty(ov), states[n]);
      RunKeepsInvariant(states[..n + 1], ops[..n], ov);
      var s, s' := states[n], states[n + 1];
      assert Steps(s, ops[n], s');
      StepKeepsSound(s, ops[n], s');
      match ops[n]
      case Live(snap) => UpdateRestores(s, snap, s');
      case Acceptance(c, f) => if Settled(ops) && Accept(s, c, f).Some? { AcceptKeeps(s, c, f); }
      case Standalone(info) => AddKeeps(s, info);
      case Reload(_) =>
    }
  }

  /**
   The view is the live data with the overrides on top, except that exactly the pending
   fields are held at their old values; a pending denom change holds the whole token list.
   */
  ghost predicate ViewIs(v: View, r: View, p: Queue, c: string) {
    && (forall f :: Frozen(f) ==> ValueOf(v, f) == if (c, f) in p then p[(c, f)].oldValue else ValueOf(r, f))
    && UpToDate(v, r)
  }

  lemma ViewDescribed(s: Store, c: string)
    requires Invariant(s) && Tracked(s, c)
    ensures c in s.chains && ViewIs(s.chains[c], Target(s, c), s.pending, c)
    ensures forall f :: (c, f) in s.pending <==> Frozen(f) && Changed(s.chains[c], Target(s, c), f)
    ensures forall f :: (c, f) in s.pending ==> s.pending[(c, f)].newValue == ValueOf(Target(s, c), f)
  {
    assert Consistent(s, c);
    var v, r := s.chains[c], Target(s, c);
    forall f
      ensures (c, f) in s.pending <==> Frozen(f) && Changed(v, r, f)
      ensures (c, f) in s.pending ==> s.pending[(c, f)] == Pending(ValueOf(v, f), ValueOf(r, f))
      ensures Frozen(f) && (c, f) !in s.pending ==> ValueOf(v, f) == ValueOf(r, f)
    {
      assert QueuesAt(s.pending, c, v, r, f);
    }
  }

  // ---- accepting everything, in any order ----

  function AcceptAll(s: Store, c: string, fs: seq<Field>): Option<Store>
    decreases |fs|
  {
    if fs == [] then Some(s)
    else
      match Accept(s, c, fs[0])
      case None => None
      case Some(s') => AcceptAll(s', c, fs[1..])
  }

  ghost predicate Lists(fs: seq<Field>, s: Store, c: string) {
    Distinct(fs) && forall f :: f in fs <==> (c, f) in s.pending
  }

  ghost predicate OnlyChain(s: Store, s': Store, c: string) {
    && s'.chains.Keys == s.chains.Keys && (forall d :: d in s.chains && d != c ==> s'.chains[d] == s.chains[d])
    && forall k: (string, Field) :: k.0 != c ==> (k in s'.pending <==> k in s.pending)
  }

  /** The chain's view is the given one, nothing of the chain is pending, and the others are as they were. */
  ghost predicate Reaches(s: Store, c: string, v: View, r: Option<Store>) {
    && r.Some? && c in s.chains && r.value.chains == s.chains[c := v]
    && forall k :: k in r.value.pending <==> k in s.pending && k.0 != c
  }

  lemma ReachesThrough(s: Store, s': Store, c: string, v: View, r: Option<Store>)
    requires OnlyChain(s, s', c) && Reaches(s', c, v, r)
    ensures Reaches(s, c, v, r)
  {
    assert s'.chains[c := v] == s.chains[c := v];
  }

  lemma AcceptFirst(s: Store, c: string, fs: seq<Field>)
    requires Invariant(s) && Tracked(s, c) && fs != [] && Lists(fs, s, c)
    ensures Accept(s, c, fs[0]).Some?
    ensures
      var s' := Accept(s, c, fs[0]).value;
      && Invariant(s') && Tracked(s', c) && Lists(fs[1..], s', c) && Target(s', c) == Target(s, c)
      && OnlyChain(s, s', c)
  {
    assert Consistent(s, c) && (c, fs[0]) in s.pending;
    AcceptKeeps(s, c, fs[0]);
    forall g ensures g in fs[1..] <==> g in fs && g != fs[0] {}
  }

  /** Whatever the order, the view ends up as the target and nothing of the chain is pending. */
  lemma {:induction false} AcceptAllReaches(s: Store, c: string, fs: seq<Field>)
    requires Invariant(s) && Tracked(s, c) && Lists(fs, s, c)
    ensures Reaches(s, c, Target(s, c), AcceptAll(s, c, fs))
    decreases |fs|
  {
    if fs == [] {
      assert Consistent(s, c);
      NothingPending(s, c);
    } else {
      AcceptFirst(s, c, fs);
      var s' := Accept(s, c, fs[0]).value;
      AcceptAllReaches(s', c, fs[1..]);
      ReachesThrough(s, s', c, Target(s, c), AcceptAll(s', c, fs[1..]));
    }
  }

  lemma NothingPending(s: Store, c: string)
    requires Tracked(s, c) && Consistent(s, c) && forall f :: (c, f) !in s.pending
    ensures s.chains[c] == Target(s, c) && s.chains == s.chains[c := Target(s, c)]
  {
    var v, r := s.chains[c], Target(s, c);
    forall f ensures Frozen(f) ==> !Changed(v, r, f) {
      assert QueuesAt(s.pending, c, v, r, f);
    }
    assert !Changed(v, r, ChainID) && !Changed(v, r, ChainName) && !Changed(v, r, NetworkType);
    assert !Changed(v, r, Bech32Prefix) && !Changed(v, r, Slip44) && !Changed(v, r, KeyAlgo);
    assert !Changed(v, r, FeeTokensDenom);
  }

  // ---- reload ----

  /** A reload brings every tracked chain to its target in one step, frozen fields included. */
  lemma ReloadAppliesAll(s: Store, ov: Overrides, c: string)
    requires Invariant(s) && Tracked(s, c)
    ensures
      var s' := Reloaded(s, ov);
      && s'.chains[c] == Target(s', c) && s'.pending == s.pending
      && (Consistent(s', c) <==> forall f :: (c, f) !in s.pending)
  {
    assert Consistent(s, c);
    var s' := Reloaded(s, ov);
    var r := Target(s', c);
    HeldTwice(r, r);
    forall f ensures QueuesAt(s'.pending, c, r, r, f) <==> (c, f) !in s.pending {}
  }

  /**
   A change accepted after a reload sets the field as the former overrides had it, and so
   as the new ones have it exactly if they agree there.
   */
  lemma AcceptAfterReload(s: Store, ov: Overrides, c: string, f: Field)
    requires Invariant(s) && Tracked(s, c) && (c, f) in s.pending
    ensures
      var s' := Reloaded(s, ov);
      && Accept(s', c, f).Some? && Tracked(s', c)
      && ValueOf(Accept(s', c, f).value.chains[c], f) == ValueOf(Target(s, c), f)
      && (ValueOf(Accept(s', c, f).value.chains[c], f) == ValueOf(s'.chains[c], f)
          <==> ValueOf(Target(s, c), f) == ValueOf(Target(s', c), f))
  {
    ViewDescribed(s, c);
    var s' := Reloaded(s, ov);
    assert s'.pending[(c, f)].newValue == ValueOf(Target(s, c), f);
    AcceptedCloses(s'.chains[c], Target(s, c), f, f);
    assert s'.chains[c] == Target(s', c);
  }

  /** The next live update with the same data leaves the views and drops what was left pending. */
  lemma NextUpdateClears(s: Store, ov: Overrides, s'': Store, c: string)
    requires Invariant(s) && Tracked(s, c) && Updates(Reloaded(s, ov), s.live.value, s'')
    ensures c in s''.chains && s''.chains[c] == Reloaded(s, ov).chains[c] && forall f :: (c, f) !in s''.pending
  {
    ReloadAppliesAll(s, ov, c);
    assert Consistent(s, c);
    AtTarget(Reloaded(s, ov), s'', c);
  }

  lemma AtTarget(s: Store, s': Store, c: string)
    requires Tracked(s, c) && c in s.chains && s.chains[c] == Target(s, c) && Updates(s, s.live.value, s')
    ensures c in s'.chains && s'.chains[c] == s.chains[c] && forall f :: (c, f) !in s'.pending
  {
    var r := Target(s, c);
    assert Compared(s, s.live.value, c);
    HeldTwice(r, r);
    forall f ensures (c, f) !in s'.pending {
      assert QueuesAt(s'.pending, c, r, r, f);
    }
  }

  // ---- what is shown, field by field ----

  /** The field shows what the operator set, or else what the source of the chain has. */
  predicate Shows<T(==)>(shown: T, set_: Option<T>, source: T) {
    match set_
    case Some(x) => shown == x
    case None => shown == source
  }

  /** An endpoint list set by the operator shows their URLs in order, of no known provider. */
  predicate ShowsURLs(shown: seq<Endpoint>, set_: Option<seq<string>>, source: seq<Endpoint>) {
    match set_
    case None => shown == source
    case Some(urls) =>
      |shown| == |urls| && forall i :: 0 <= i < |urls| ==> shown[i].url == urls[i] && shown[i].provider == ""
  }

  /** The first token of a denom shows the last parseable price that was set for a tier; no other token changes. */
  ghost predicate ShowsTokens(shown: seq<FeeToken>, os: seq<TokenOverride>, source: seq<FeeToken>) {
    |shown| == |source| && forall i :: 0 <= i < |source| ==>
      shown[i] == if IsFirst(source, i) then Repriced(source[i], os) else source[i]
  }

  ghost predicate IsFirst(tokens: seq<FeeToken>, i: nat)
    requires i < |tokens|
  {
    forall j :: 0 <= j < i ==> tokens[j].denom != tokens[i].denom
  }

  ghost predicate ShowsOverride(v: View, o: Override, source: View) {
    && v.chainID == source.chainID && v.prettyName == source.prettyName
    && Shows(v.enabled, o.enabled, source.enabled)
    && Shows(v.chainName, o.chainName, source.chainName) && Shows(v.networkType, o.networkType, source.networkType)
    && Shows(v.keyAlgo, o.keyAlgo, source.keyAlgo) && Shows(v.bech32Prefix, o.bech32Prefix, source.bech32Prefix)
    && Shows(v.slip44, o.slip44, source.slip44) && Shows(v.blockTime, o.blockTime, source.blockTime)
    && ShowsURLs(v.grpc, o.grpc, source.grpc) && ShowsURLs(v.rpc, o.rpc, source.rpc)
    && ShowsURLs(v.rest, o.rest, source.rest)
    && ShowsTokens(v.feeTokens, o.feeTokens, source.feeTokens)
  }

  /** Without an override of the chain everything is as in its source. */
  ghost predicate ShowsSource(v: View, ov: Overrides, c: string, source: View) {
    if c in ov then ShowsOverride(v, ov[c], source) else v == source
  }

  lemma TokensShown(tokens: seq<FeeToken>, os: seq<TokenOverride>)
    ensures ShowsTokens(ApplyTokens(tokens, os), os, tokens)
  {
    forall i | 0 <= i < |tokens|
      ensures ApplyTokens(tokens, os)[i] == if IsFirst(tokens, i) then Repriced(tokens[i], os) else tokens[i]
    {
      TokensRepriced(tokens, os, i);
      assert IndexOf(tokens, tokens[i].denom) == i <==> IsFirst(tokens, i);
    }
  }

  lemma ResolvedShows(info: View, ov: Overrides, c: string)
    ensures ShowsSource(Resolved(info, ov, c), ov, c, info)
  {
    if c in ov {
      TokensShown(info.feeTokens, ov[c].feeTokens);
    }
  }

  lemma TargetShows(s: Store, c: string)
    requires Tracked(s, c)
    ensures ShowsSource(Target(s, c), s.overrides, c, s.live.value[c])
  {
    ResolvedShows(s.live.value[c], s.overrides, c);
  }

  /**
   After a reload, a standalone chain shows its base and a registry chain the live data,
   under the new overrides; a chain that neither has is as it was.
   */
  lemma ReloadShows(s: Store, ov: Overrides, c: string)
    requires c in s.chains
    ensures
      var s' := Reloaded(s, ov);
      && s'.chains.Keys == s.chains.Keys && s'.live == s.live && s'.pending == s.pending && s'.overrides == ov
      && (c in s.bases ==> ShowsSource(s'.chains[c], ov, c, s.bases[c]))
      && (Tracked(s, c) ==> ShowsSource(s'.chains[c], ov, c, s.live.value[c]))
      && (c !in s.bases && !Tracked(s, c) ==> s'.chains[c] == s.chains[c])
  {
    if c in s.bases {
      ResolvedShows(s.bases[c], ov, c);
    } else if Tracked(s, c) {
      ResolvedShows(s.live.value[c], ov, c);
    }
  }

  /** A chain just added shows its configuration under the overrides, and no other chain changes. */
  lemma AddedShows(s: Store, info: View)
    ensures
      var c, s' := info.chainID, Added(s, info);
      && c in s'.chains && ShowsSource(s'.chains[c], s.overrides, c, info)
      && forall d :: d != c ==> (d in s'.chains <==> d in s.chains) && (d in s.chains ==> s'.chains[d] == s.chains[d])
  {
    ResolvedShows(info, s.overrides, info.chainID);
  }

  /**
   After a live update: a chain that is new, or whose data was never compared, shows the
   live data under the overrides. A known one keeps its identity, its address derivation
   and, if the denoms differ, its whole token list; everything else shows the live data. A
   chain that vanished is only disabled, and a standalone chain is as it was.
   */
  lemma UpdateShows(s: Store, snap: Snapshot, s': Store, c: string, r: View)
    requires Updates(s, snap, s') && s.bases.Keys <= s.chains.Keys
    requires c in snap ==> ShowsSource(r, s.overrides, c, snap[c])
    requires c in snap || c in s.chains
    ensures c in s'.chains
    ensures c in s.bases ==> s'.chains[c] == s.chains[c]
    ensures c !in s.bases && c !in snap ==> s'.chains[c] == s.chains[c].(enabled := false)
    ensures c !in s.bases && c in snap && (c !in s.chains || s.live.None?) ==>
      ShowsSource(s'.chains[c], s.overrides, c, snap[c])
    ensures c !in s.bases && c in snap && c in s.chains && s.live.Some? ==> ShowsKnown(s.chains[c], r, s'.chains[c])
  {
    if c in snap && c !in s.bases {
      ResolvedShows(snap[c], s.overrides, c);
      ShownOnce(r, Resolved(snap[c], s.overrides, c), s.overrides, c, snap[c]);
      if c in s.chains && s.live.Some? {
        HeldShows(s.chains[c], r);
      }
    }
  }

  lemma HeldShows(v: View, r: View)
    ensures ShowsKnown(v, r, Held(v, r))
  {
    DenomsSame(v.feeTokens, r.feeTokens);
  }

  lemma DenomsSame(a: seq<FeeToken>, b: seq<FeeToken>)
    ensures Denoms(a) == Denoms(b) <==> SameDenoms(a, b)
  {
    if Denoms(a) == Denoms(b) {
      forall i | 0 <= i < |a| ensures a[i].denom == b[i].denom {
        assert Denoms(a)[i] == Denoms(b)[i];
      }
    }
  }

  /** What a live update with the target r makes of the view v. */
  ghost predicate ShowsKnown(v: View, r: View, v': View) {
    && v'.chainID == v.chainID && v'.chainName == v.chainName && v'.networkType == v.networkType
    && v'.bech32Prefix == v.bech32Prefix && v'.slip44 == v.slip44 && v'.keyAlgo == v.keyAlgo
    && v'.prettyName == r.prettyName && v'.enabled == r.enabled && v'.blockTime == r.blockTime
    && v'.grpc == r.grpc && v'.rpc == r.rpc && v'.rest == r.rest
    && v'.feeTokens == if SameDenoms(v.feeTokens, r.feeTokens) then r.feeTokens else v.feeTokens
  }

  ghost predicate SameDenoms(a: seq<FeeToken>, b: seq<FeeToken>) {
    |a| == |b| && forall i :: 0 <= i < |a| ==> a[i].denom == b[i].denom
  }

  lemma SameURLs(a: seq<Endpoint>, b: seq<Endpoint>, o: Option<seq<string>>, source: seq<Endpoint>)
    requires ShowsURLs(a, o, source) && ShowsURLs(b, o, source)
    ensures a == b
  {
    if o.Some? {
      forall i | 0 <= i < |a| ensures a[i] == b[i] {
        assert a[i].url == b[i].url && a[i].provider == b[i].provider;
      }
    }
  }

  /** Only one view shows a source under the overrides. */
  lemma ShownOnce(a: View, b: View, ov: Overrides, c: string, source: View)
    requires ShowsSource(a, ov, c, source) && ShowsSource(b, ov, c, source)
    ensures a == b
  {
    if c in ov {
      var o := ov[c];
      SameURLs(a.grpc, b.grpc, o.grpc, source.grpc);
      SameURLs(a.rpc, b.rpc, o.rpc, source.rpc);
      SameURLs(a.rest, b.rest, o.rest, source.rest);
      assert a.feeTokens == b.feeTokens;
    }
  }

  // ---- a run in which a reload goes wrong ----

  function Renamed(name: string): Override {
    Override(None, Some(name), None, None, None, None, None, None, None, None, [])
  }

  /** A new store after the live data of one chain, and after its name changed there. */
  function Loaded(c: string, v: View): Store { Store(map[c := v], map[], Some(map[c := v]), map[], map[]) }

  function Renaming(c: string, v: View, name: string): Store {
    Store(map[c := v], map[], Some(map[c := v.(chainName := name)]), map[],
          map[(c, ChainName) := Pending(Text(v.chainName), Text(name))])
  }

  lemma FirstLoad(c: string, v: View)
    ensures Updates(Empty(map[]), map[c := v], Loaded(c, v))
  {}

  lemma NameHeld(c: string, v: View, name: string)
    requires name != v.chainName
    ensures Updates(Loaded(c, v), map[c := v.(chainName := name)], Renaming(c, v, name))
  {
    var s, s', r := Loaded(c, v), Renaming(c, v, name), v.(chainName := name);
    assert Held(v, r) == v;
    forall f ensures QueuesAt(s'.pending, c, v, r, f) {
      match f
      case ChainName =>
      case _ => assert !Changed(v, r, f);
    }
    forall d, f | d != c ensures SameAt(s.pending, s'.pending, d, f) {}
  }

  /**
   Whatever the chain: its name changes in the registry, is held, and is then overridden by
   a reload. The store is inconsistent, and accepting the change undoes the override.
   */
  lemma ReloadGoesWrong(c: string, v: View, name: string, wanted: string) returns (states: seq<Store>, ops: seq<Op>)
    requires name != v.chainName && wanted != name
    ensures |states| == |ops| + 1 == 5 && Runs(states, ops, Empty(map[]), states[4])
    ensures ops[2] == Reload(map[c := Renamed(wanted)]) && ops[3] == Acceptance(c, ChainName)
    ensures Tracked(states[3], c) && c in states[3].chains && states[3].chains[c].chainName == wanted
    ensures !Consistent(states[3], c)
    ensures Tracked(states[4], c) && c in states[4].chains
    ensures states[4].chains[c].chainName == name != Target(states[4], c).chainName
  {
    var ov := map[c := Renamed(wanted)];
    var s1, s2 := Loaded(c, v), Renaming(c, v, name);
    var s3 := Reloaded(s2, ov);
    var s4 := Accept(s3, c, ChainName).value;
    FirstLoad(c, v);
    NameHeld(c, v, name);
    states := [Empty(map[]), s1, s2, s3, s4];
    ops := [Live(map[c := v]), Live(map[c := v.(chainName := name)]), Reload(ov), Acceptance(c, ChainName)];
    assert Target(s3, c).chainName == wanted && s3.chains[c] == Target(s3, c);
    assert !QueuesAt(s3.pending, c, s3.chains[c], Target(s3, c), ChainName);
  }

  // ---- what fee-token overrides amount to ----

  /** The last parseable price among the overrides of a denom, or the current one. */
  function LastPrice(os: seq<TokenOverride>, denom: string, f: Field, current: real): real {
    if os == [] then current
    else
      var o := os[|os| - 1];
      var p := if f == FeeTokensLow then o.low else if f == FeeTokensAverage then o.average else o.high;
      if o.denom == denom && p.Some? && p.value.Decimal? then p.value.value
      else LastPrice(os[..|os| - 1], denom, f, current)
  }

  function Repriced(t: FeeToken, os: seq<TokenOverride>): FeeToken {
    t.(low := LastPrice(os, t.denom, FeeTokensLow, t.low),
       average := LastPrice(os, t.denom, FeeTokensAverage, t.average),
       high := LastPrice(os, t.denom, FeeTokensHigh, t.high))
  }

  lemma {:induction false} SameDenomsSameIndex(a: seq<FeeToken>, b: seq<FeeToken>, denom: string)
    requires |a| == |b| && forall i :: 0 <= i < |a| ==> a[i].denom == b[i].denom
    ensures IndexOf(a, denom) == IndexOf(b, denom)
  {}

  /** Each override in turn amounts to: the first token of a denom gets the last price given for each tier. */
  lemma {:induction false} TokensRepriced(tokens: seq<FeeToken>, os: seq<TokenOverride>, i: nat)
    requires i < |tokens|
    ensures ApplyTokens(tokens, os)[i] ==
      if IndexOf(tokens, tokens[i].denom) == i then Repriced(tokens[i], os) else tokens[i]
  {
    if os == [] {
    } else {
      var n := |os| - 1;
      var before := ApplyTokens(tokens, os[..n]);
      forall k | 0 <= k < |tokens| ensures before[k].denom == tokens[k].denom { TokensRepriced(tokens, os[..n], k); }
      SameDenomsSameIndex(before, tokens, os[n].denom);
      TokensRepriced(tokens, os[..n], i);
    }
  }

  /** No override gives the first token of a denom a price other than its own. */
  ghost predicate Harmless(tokens: seq<FeeToken>, os: seq<TokenOverride>) {
    forall i :: 0 <= i < |tokens| && IndexOf(tokens, tokens[i].denom) == i ==> Repriced(tokens[i], os) == tokens[i]
  }

  lemma HarmlessIff(tokens: seq<FeeToken>, os: seq<TokenOverride>)
    ensures ApplyTokens(tokens, os) == tokens <==> Harmless(tokens, os)
  {
    forall i | 0 <= i < |tokens| ensures
      ApplyTokens(tokens, os)[i] == if IndexOf(tokens, tokens[i].denom) == i then Repriced(tokens[i], os) else tokens[i]
    {
      TokensRepriced(tokens, os, i);
    }
  }

  /**
   Reloading with an override and then without it restores a standalone chain exactly if
   the override was harmless to its fee tokens.
   */
  lemma ReloadRevertsIff(s: Store, ov: Overrides, c: string)
    requires c in s.bases && c in s.chains && c in ov
    ensures Reloaded(Reloaded(s, ov), map[]).chains[c] == s.bases[c] <==>
      Harmless(s.bases[c].feeTokens, ov[c].feeTokens)
  {
    HarmlessIff(s.bases[c].feeTokens, ov[c].feeTokens);
    assert Reloaded(Reloaded(s, ov), map[]).chains[c] == Reloaded(s, ov).bases[c];
  }

  lemma OneRepriced(t: FeeToken, p: real)
    ensures ApplyTokens([t], [TokenOverride(t.denom, Some(Decimal(p)), None, None)]) == [t.(low := p)]
  {
    var os := [TokenOverride(t.denom, Some(Decimal(p)), None, None)];
    assert os[..0] == [] && ApplyTokens([t], os) == ApplyToken([t], os[0]);
  }

  function Repricing(t: FeeToken, p: real): Override {
    Override(None, None, None, None, None, None, None, None, None, None,
             [TokenOverride(t.denom, Some(Decimal(p)), None, None)])
  }

  /**
   Whatever the standalone chain with one fee token: a reload overrides a price, and the
   next one takes the override away. The price stays.
   */
  lemma OverrideSticks(info: View, t: FeeToken, p: real) returns (states: seq<Store>, ops: seq<Op>)
    requires info.feeTokens == [t] && p != t.low
    ensures |states| == |ops| + 1 == 4 && Runs(states, ops, Empty(map[]), states[3])
    ensures ops == [Standalone(info), Reload(map[info.chainID := Repricing(t, p)]), Reload(map[])]
    ensures states[1].chains == map[info.chainID := info] && states[3].overrides == map[]
    ensures states[3].chains == map[info.chainID := info.(feeTokens := [t.(low := p)])]
  {
    var ov := map[info.chainID := Repricing(t, p)];
    var s0 := Empty(map[]);
    var s1 := Added(s0, info);
    assert s1 == OnlyStandalone(info, info, map[]);
    OneRepriced(t, p);
    var after := info.(feeTokens := [t.(low := p)]);
    ReloadedOnly(info, info, map[], ov);
    ReloadedOnly(after, after, ov, map[]);
    var s2 := OnlyStandalone(after, after, ov);
    var s3 := OnlyStandalone(after, after, map[]);
    states, ops := [s0, s1, s2, s3], [Standalone(info), Reload(ov), Reload(map[])];
    assert Steps(s0, ops[0], s1) && Steps(s1, ops[1], s2) && Steps(s2, ops[2], s3);
  }

  /** A store of nothing but one standalone chain. */
  function OnlyStandalone(base: View, view: View, ov: Overrides): Store {
    Store(map[base.chainID := view], map[base.chainID := base], None, ov, map[])
  }

  lemma ReloadedOnly(base: View, view: View, before: Overrides, ov: Overrides)
    ensures
      var r := Resolved(base, ov, base.chainID);
      Reloaded(OnlyStandalone(base, view, before), ov) ==
        Store(map[base.chainID := r], map[base.chainID := base.(feeTokens := r.feeTokens)], None, ov, map[])
  {}
}
