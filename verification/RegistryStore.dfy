/**
 The chain registry store over the heap: published chain infos are objects, and their
 fee-token lists are arrays that overrides write into. Every method is proved against the
 state machine of Registry, and its `modifies` clause says which published data it may touch.
 */
module RegistryStore {
  import opened Options
  import opened R = Registry

  type Tokens = array<FeeToken>
  type Struct = Info<Tokens>

  /** What a published pointer points to. */
  class ChainInfo {
    var info: Struct

    constructor (info: Struct)
      ensures this.info == info
    {
      this.info := info;
    }
  }

  function WithTokens<S, T>(i: Info<S>, tokens: T): Info<T> {
    Info(i.chainID, i.chainName, i.networkType, i.prettyName, i.bech32Prefix, i.slip44, i.keyAlgo,
         i.grpc, i.rpc, i.rest, tokens, i.blockTime, i.enabled)
  }

  function Deref(i: Struct): View
    reads i.feeTokens
  {
    WithTokens(i, i.feeTokens[..])
  }

  function DerefValue(v: Value<Tokens>): Value<seq<FeeToken>>
    reads ArraysOf(v)
  {
    match v
    case Text(s) => Text(s)
    case Number(n) => Number(n)
    case List(l) => List(l)
    case Tokens(t) => Value.Tokens(t[..])
    case Summary => Summary
  }

  ghost function DerefBases(m: map<string, Struct>): map<string, View>
    reads set c | c in m :: m[c].feeTokens
  {
    map c | c in m :: Deref(m[c])
  }

  ghost function DerefChains(m: map<string, ChainInfo>): map<string, View>
    reads m.Values, set c | c in m :: m[c].info.feeTokens
  {
    map c | c in m :: Deref(m[c].info)
  }

  ghost function ArraysOf(v: Value<Tokens>): set<Tokens> { if v.Tokens? then {v.tokens} else {} }

  ghost function ArraysIn(p: Pending<Tokens>): set<Tokens> { ArraysOf(p.oldValue) + ArraysOf(p.newValue) }

  ghost function DerefChange(p: Pending<Tokens>): Pending<seq<FeeToken>>
    reads ArraysIn(p)
  {
    Pending(DerefValue(p.oldValue), DerefValue(p.newValue))
  }

  ghost function DerefPending(m: map<(string, Field), Pending<Tokens>>): Queue
    reads set k, a | k in m && a in ArraysIn(m[k]) :: a
  {
    map k | k in m :: DerefChange(m[k])
  }

  twostate lemma SameBases(m: map<string, Struct>)
    requires forall c :: c in m ==> unchanged(m[c].feeTokens)
    ensures DerefBases(m) == old(DerefBases(m))
  {}

  twostate lemma SameChains(m: map<string, ChainInfo>)
    requires forall c :: c in m ==> unchanged(m[c]) && unchanged(m[c].info.feeTokens)
    ensures DerefChains(m) == old(DerefChains(m))
  {}

  lemma BasesWith(m: map<string, Struct>, c: string, info: Struct)
    ensures DerefBases(m[c := info]) == DerefBases(m)[c := Deref(info)]
  {}

  lemma ChainsWith(m: map<string, ChainInfo>, c: string, p: ChainInfo)
    ensures DerefChains(m[c := p]) == DerefChains(m)[c := Deref(p.info)]
  {}

  twostate lemma SamePending(m: map<(string, Field), Pending<Tokens>>)
    requires forall k, a :: k in m && a in ArraysIn(m[k]) ==> unchanged(a)
    ensures DerefPending(m) == old(DerefPending(m))
  {}

  // ---- overrides, in place ----

  method IndexFunc(a: Tokens, denom: string) returns (k: nat)
    ensures k == IndexOf(a[..], denom)
  {
    k := 0;
    while k < a.Length && a[k].denom != denom
      invariant k <= a.Length && forall i :: 0 <= i < k ==> a[i].denom != denom
    {
      k := k + 1;
    }
  }

  method ApplyFeeTokens(a: Tokens, os: seq<TokenOverride>)
    modifies a
    ensures a[..] == ApplyTokens(old(a[..]), os)
  {
    for n := 0 to |os|
      invariant a[..] == ApplyTokens(old(a[..]), os[..n])
    {
      assert os[..n + 1][..n] == os[..n];
      var k := IndexFunc(a, os[n].denom);
      if k < a.Length {
        a[k] := WithPrices(a[k], os[n]);
      }
    }
    assert os[..|os|] == os;
  }

  /** applyOverride: the struct is a copy, the token array is not. */
  method ApplyOverrideTo(i: Struct, o: Override) returns (r: Struct)
    modifies i.feeTokens
    ensures r == ApplyScalars(i, o) && Deref(r) == ApplyOverride(old(Deref(i)), o)
  {
    r := ApplyScalars(i, o);
    ApplyFeeTokens(r.feeTokens, o.feeTokens);
  }

  // ---- one field, dereferenced ----

  lemma DerefAccepted(i: Struct, f: Field, v: Value<Tokens>)
    ensures Deref(Accepted(i, f, v)) == Accepted(Deref(i), f, DerefValue(v))
  {}

  lemma AcceptedApart(i: Struct, f: Field, v: Value<Tokens>)
    ensures
      var r := Accepted(i, f, v);
      r.feeTokens == i.feeTokens || (v.Tokens? && r.feeTokens == v.tokens)
  {}

  lemma DerefValueOf(i: Struct, f: Field)
    ensures DerefValue(ValueOf(i, f)) == ValueOf(Deref(i), f)
  {}

  lemma ArraysOfValue(i: Struct, f: Field)
    ensures ArraysOf(ValueOf(i, f)) <= {i.feeTokens}
  {}

  /** The two values of a field and whether they differ, and what becomes of the chain then. */
  method FieldValues(c: string, old_: Struct, cur: Struct, f: Field, ghost q: Queue)
    returns (ov: Value<Tokens>, nv: Value<Tokens>, changed: bool)
    ensures ArraysIn(Pending(ov, nv)) <= {old_.feeTokens, cur.feeTokens}
    ensures R.DiffField(c, Deref(old_), Deref(cur), q, f) ==
      if !changed then (Deref(cur), q - {(c, f)})
      else if Classify(f) == Freeze then
        (Accepted(Deref(cur), f, DerefValue(ov)), q[(c, f) := DerefChange(Pending(ov, nv))])
      else (Deref(cur), q)
  {
    DerefValueOf(old_, f);
    DerefValueOf(cur, f);
    ArraysOfValue(old_, f);
    ArraysOfValue(cur, f);
    ov, nv, changed := ValueOf(old_, f), ValueOf(cur, f), Changed(Deref(old_), Deref(cur), f);
  }

  /** A copy of the struct with one field replaced. */
  method Updated(info: Struct, f: Field, v: Value<Tokens>) returns (p: ChainInfo)
    ensures fresh(p) && Deref(p.info) == old(Accepted(Deref(info), f, DerefValue(v)))
    ensures p.info.feeTokens == info.feeTokens || p.info.feeTokens in ArraysOf(v)
  {
    DerefAccepted(info, f, v);
    AcceptedApart(info, f, v);
    p := new ChainInfo(Accepted(info, f, v));
  }

  /** The chain info holds the token array of the chain's base. */
  ghost predicate SharesWith(p: ChainInfo, bases: map<string, Struct>, c: string)
    reads p
  {
    c in bases && p.info.feeTokens == bases[c].feeTokens
  }

  /** The arrays of the chain infos that share none with their base. */
  ghost function NowHeld(chains: map<string, ChainInfo>, bases: map<string, Struct>): set<Tokens>
    reads chains.Values
  {
    set c | c in chains && !SharesWith(chains[c], bases, c) :: chains[c].info.feeTokens
  }

  ghost function NowQueued(pending: map<(string, Field), Pending<Tokens>>): set<Tokens> {
    set k, a | k in pending && a in ArraysIn(pending[k]) :: a
  }

  lemma NoneAndAll(keys: set<string>)
    ensures keys - keys == {} && keys - {} == keys
  {}

  lemma Took(keys: set<string>, todo: set<string>, c: string)
    requires c in todo && todo <= keys
    ensures keys - (todo - {c}) == keys - todo + {c}
  {}

  class Store {
    var chains: map<string, ChainInfo>
    var bases: map<string, Struct>
    var live: Option<Snapshot>
    var overrides: Overrides
    var pending: map<(string, Field), Pending<Tokens>>

    /** Every token array that was ever published, or queued, for a registry chain. */
    ghost var published: set<Tokens>

    constructor (overrides: Overrides)
      ensures Valid() && Abs() == Empty(overrides)
    {
      chains, bases, live, pending, published := map[], map[], None, map[], {};
      this.overrides := overrides;
    }

    /** The store as the state machine of Registry sees it. */
    ghost function Abs(): R.Store
      reads *
    {
      R.Store(DerefChains(chains), DerefBases(bases), live, overrides, DerefPending(pending))
    }

    lemma AbsKeys()
      ensures Abs().chains.Keys == chains.Keys && Abs().bases.Keys == bases.Keys
    {}

    twostate lemma Kept()
      requires unchanged(this`chains, this`bases, this`live, this`overrides, this`pending)
      requires forall c :: c in bases ==> unchanged(bases[c].feeTokens)
      requires forall c :: c in chains ==> unchanged(chains[c]) && unchanged(chains[c].info.feeTokens)
      requires forall k, a :: k in pending && a in ArraysIn(pending[k]) ==> unchanged(a)
      ensures Abs() == old(Abs())
    {
      SameBases(bases);
      SameChains(chains);
      SamePending(pending);
    }

    // ---- which arrays are shared ----

    ghost function BaseArrays(): set<Tokens>
      reads this
    {
      set c | c in bases :: bases[c].feeTokens
    }

    /** The array is of no standalone chain but possibly `c`. */
    ghost predicate Apart(a: Tokens, c: string)
      reads this
    {
      forall d :: d in bases && d != c ==> a != bases[d].feeTokens
    }

    ghost predicate ChangeApart(p: Pending<Tokens>)
      reads this
    {
      forall a, d :: a in ArraysIn(p) && d in bases ==> a != bases[d].feeTokens
    }

    /** The token array of a standalone chain is published with that chain only. */
    ghost predicate Separated()
      reads this, chains.Values
    {
      && bases.Keys <= chains.Keys
      && (forall c :: c in bases ==> bases[c].chainID == c && Apart(bases[c].feeTokens, c))
      && (forall c :: c in chains ==> Apart(chains[c].info.feeTokens, c))
      && (forall k :: k in pending ==> ChangeApart(pending[k]))
    }

    /** Every array in use is recorded as published or is the chain's own base array, and none is both. */
    ghost predicate Recorded()
      reads this, chains.Values
    {
      && (forall c :: c in chains ==> chains[c].info.feeTokens in published || Shares(c))
      && (forall k :: k in pending ==> ArraysIn(pending[k]) <= published)
      && (forall a, d :: a in published && d in bases ==> a != bases[d].feeTokens)
    }

    /** The published chain info holds the token array of its base. */
    ghost predicate Shares(c: string)
      requires c in chains
      reads this, chains[c]
    {
      SharesWith(chains[c], bases, c)
    }

    ghost predicate Valid()
      reads this, chains.Values
    {
      Separated() && Recorded()
    }

    /** Records what the store now holds. */
    ghost method Note()
      requires Separated() && forall a, d :: a in published && d in bases ==> a != bases[d].feeTokens
      modifies this`published
      ensures Valid() && Abs() == old(Abs()) && old(published) <= published
    {
      NowApart();
      QueuedApart();
      published := published + NowHeld(chains, bases) + NowQueued(pending);
      Kept();
      StillSeparated();
      AllRecorded();
    }

    lemma NowApart()
      requires Separated()
      ensures forall a, d :: a in NowHeld(chains, bases) && d in bases ==> a != bases[d].feeTokens
    {
      forall a, d | a in NowHeld(chains, bases) && d in bases ensures a != bases[d].feeTokens {
        var c :| c in chains && !SharesWith(chains[c], bases, c) && a == chains[c].info.feeTokens;
        assert Apart(a, c);
      }
    }

    lemma QueuedApart()
      requires Separated()
      ensures forall a, d :: a in NowQueued(pending) && d in bases ==> a != bases[d].feeTokens
    {
      forall a, d | a in NowQueued(pending) && d in bases ensures a != bases[d].feeTokens {
        var k :| k in pending && a in ArraysIn(pending[k]);
        assert ChangeApart(pending[k]);
      }
    }

    lemma AllRecorded()
      requires NowHeld(chains, bases) <= published && NowQueued(pending) <= published
      requires forall a, d :: a in published && d in bases ==> a != bases[d].feeTokens
      ensures Recorded()
    {
      forall c | c in chains ensures chains[c].info.feeTokens in published || Shares(c) {
        assert !Shares(c) ==> chains[c].info.feeTokens in NowHeld(chains, bases);
      }
      forall k | k in pending ensures ArraysIn(pending[k]) <= published {
        assert forall a :: a in ArraysIn(pending[k]) ==> a in NowQueued(pending);
      }
    }

    /** The published pointer of a chain; null stands for ErrChainNotFound. */
    method Get(c: string) returns (p: ChainInfo?)
      requires Valid()
      ensures p == null <==> c !in Abs().chains
      ensures p != null ==> Deref(p.info) == Abs().chains[c]
      ensures p != null && c !in bases ==> p.info.feeTokens in published
    {
      AbsKeys();
      p := if c in chains then chains[c] else null;
    }

    /** A registry chain, built anew; null if the snapshot has none. */
    method ResolveUnsafe(c: string) returns (r: ChainInfo?)
      ensures Abs() == old(Abs())
      ensures r != null <==> live.Some? && c in live.value
      ensures r != null ==>
        fresh(r) && fresh(r.info.feeTokens) && Deref(r.info) == Resolved(live.value[c], overrides, c)
    {
      if live.None? || c !in live.value {
        return null;
      }
      var raw := live.value[c];
      var a := new FeeToken[|raw.feeTokens|](i requires 0 <= i < |raw.feeTokens| => raw.feeTokens[i]);
      var info := WithTokens(raw, a);
      assert a[..] == raw.feeTokens;
      if c in overrides {
        info := ApplyOverrideTo(info, overrides[c]);
      }
      r := new ChainInfo(info);
      Kept();
    }

    /** A standalone chain: a new struct, with the token array of the base. */
    method ResolveStandalone(base: Struct) returns (r: ChainInfo)
      modifies base.feeTokens
      ensures fresh(r) && r.info.feeTokens == base.feeTokens
      ensures Deref(r.info) == Resolved(old(Deref(base)), overrides, base.chainID)
    {
      var info := base;
      if base.chainID in overrides {
        info := ApplyOverrideTo(info, overrides[base.chainID]);
      }
      r := new ChainInfo(info);
    }

    // ---- the maps ----

    method Publish(c: string, p: ChainInfo)
      requires Separated()
      requires Apart(p.info.feeTokens, c)
      modifies this`chains
      ensures Separated() && chains == old(chains)[c := p]
      ensures Abs() == old(Abs().(chains := Abs().chains[c := Deref(p.info)]))
    {
      ghost var before := chains;
      chains := chains[c := p];
      SameBases(bases);
      SamePending(pending);
      SameChains(before);
      ChainsWith(before, c, p);
    }

    method SetPending(k: (string, Field), p: Pending<Tokens>)
      requires Separated() && ChangeApart(p)
      modifies this`pending
      ensures Separated()
      ensures Abs() == old(Abs().(pending := Abs().pending[k := DerefChange(p)]))
    {
      pending := pending[k := p];
      SameBases(bases);
      SameChains(chains);
      assert DerefPending(pending) == old(DerefPending(pending))[k := DerefChange(p)];
    }

    method ClearPending(k: (string, Field))
      requires Separated()
      modifies this`pending
      ensures Separated()
      ensures Abs() == old(Abs()).(pending := old(Abs()).pending - {k})
    {
      pending := pending - {k};
      SameBases(bases);
      SameChains(chains);
      assert DerefPending(pending) == old(DerefPending(pending)) - {k};
    }

    /** Takes one acceptance; everything published stays as it is, and so do the bases. */
    method Accept(c: string, f: Field) returns (ok: bool)
      requires Valid()
      modifies this`chains, this`pending, this`published
      ensures Valid() && old(published) <= published
      ensures ok <==> R.Accept(old(Abs()), c, f).Some?
      ensures Abs() == Or(R.Accept(old(Abs()), c, f), old(Abs()))
    {
      if (c, f) !in pending || c !in chains {
        return false;
      }
      Take(c, f, Abs());
      Note();
      return true;
    }

    method Take(c: string, f: Field, ghost s: R.Store)
      requires Separated() && s == Abs() && (c, f) in pending && c in chains && (c, f) in s.pending && c in s.chains
      modifies this`chains, this`pending
      ensures Separated()
      ensures Abs() == s.(chains := s.chains[c := Accepted(s.chains[c], f, s.pending[(c, f)].newValue)],
                          pending := s.pending - {(c, f)})
    {
      var updated := Updated(chains[c].info, f, pending[(c, f)].newValue);
      Kept();
      assert ArraysOf(pending[(c, f)].newValue) <= ArraysIn(pending[(c, f)]);
      Publish(c, updated);
      ClearPending((c, f));
    }

    // ---- a live update ----

    /** Sets one field of a chain info that is not published yet. */
    method Hold(cur: ChainInfo, f: Field, v: Value<Tokens>)
      requires Separated() && cur !in chains.Values
      modifies cur
      ensures Separated() && Abs() == old(Abs())
      ensures Deref(cur.info) == old(Accepted(Deref(cur.info), f, DerefValue(v)))
      ensures cur.info.feeTokens == old(cur.info.feeTokens) || cur.info.feeTokens in ArraysOf(v)
    {
      DerefAccepted(cur.info, f, v);
      AcceptedApart(cur.info, f, v);
      cur.info := Accepted(cur.info, f, v);
      SameBases(bases);
      SamePending(pending);
      SameChains(chains);
    }

    /** Queues a change and puts the old value back. */
    method Withhold(c: string, f: Field, cur: ChainInfo, p: Pending<Tokens>)
      requires Separated() && cur !in chains.Values && c !in bases
      requires Apart(cur.info.feeTokens, c) && ChangeApart(p)
      modifies this`pending, cur
      ensures Separated() && Apart(cur.info.feeTokens, c)
      ensures Deref(cur.info) == old(Accepted(Deref(cur.info), f, DerefValue(p.oldValue)))
      ensures Abs() == old(Abs().(pending := Abs().pending[(c, f) := DerefChange(p)]))
    {
      SetPending((c, f), p);
      Hold(cur, f, p.oldValue);
      assert cur.info.feeTokens != old(cur.info.feeTokens) ==> cur.info.feeTokens in ArraysIn(p);
    }

    method DiffField(c: string, old_: ChainInfo, cur: ChainInfo, f: Field, ghost o: View, ghost i: View,
                     ghost s: R.Store)
      requires o == Deref(old_.info) && i == Deref(cur.info) && s == Abs()
      requires Separated() && cur !in chains.Values && old_ != cur && c !in bases
      requires Apart(old_.info.feeTokens, c) && Apart(cur.info.feeTokens, c)
      modifies this`pending, cur
      ensures Separated() && Apart(cur.info.feeTokens, c)
      ensures Deref(cur.info) == R.DiffField(c, o, i, s.pending, f).0
      ensures Abs() == s.(pending := R.DiffField(c, o, i, s.pending, f).1)
    {
      var ov, nv, changed := FieldValues(c, old_.info, cur.info, f, s.pending);
      if !changed {
        ClearPending((c, f));
      } else if Classify(f) == Freeze {
        Withhold(c, f, cur, Pending(ov, nv));
      }
    }

    /** applyChainUpdate. */
    method ApplyChainUpdate(c: string, old_: ChainInfo, cur: ChainInfo, ghost o: View, ghost i: View, ghost s: R.Store)
      requires o == Deref(old_.info) && i == Deref(cur.info) && s == Abs()
      requires Separated() && cur !in chains.Values && old_ != cur && c !in bases
      requires Apart(old_.info.feeTokens, c) && Apart(cur.info.feeTokens, c)
      modifies this`chains, this`pending, cur
      ensures Separated() && chains == old(chains)[c := cur]
      ensures
        var (info, q) := Diffed(c, o, i, s.pending, CLASSIFIABLE_FIELDS);
        Abs() == s.(chains := s.chains[c := info], pending := q)
    {
      DiffAll(c, old_, cur, o, i, s);
      Publish(c, cur);
    }

    method DiffAll(c: string, old_: ChainInfo, cur: ChainInfo, ghost o: View, ghost i: View, ghost s: R.Store)
      requires o == Deref(old_.info) && i == Deref(cur.info) && s == Abs()
      requires Separated() && cur !in chains.Values && old_ != cur && c !in bases
      requires Apart(old_.info.feeTokens, c) && Apart(cur.info.feeTokens, c)
      modifies this`pending, cur
      ensures Separated() && Apart(cur.info.feeTokens, c)
      ensures
        var (info, q) := Diffed(c, o, i, s.pending, CLASSIFIABLE_FIELDS);
        Deref(cur.info) == info && Abs() == s.(pending := q)
    {
      for n := 0 to |CLASSIFIABLE_FIELDS|
        invariant Separated() && Apart(cur.info.feeTokens, c)
        invariant
          var (info, q) := Diffed(c, o, i, s.pending, CLASSIFIABLE_FIELDS[..n]);
          Deref(cur.info) == info && Abs() == s.(pending := q)
      {
        assert CLASSIFIABLE_FIELDS[..n + 1][..n] == CLASSIFIABLE_FIELDS[..n];
        DiffField(c, old_, cur, CLASSIFIABLE_FIELDS[n], o, Deref(cur.info), Abs());
      }
      assert CLASSIFIABLE_FIELDS[..|CLASSIFIABLE_FIELDS|] == CLASSIFIABLE_FIELDS;
    }

    method UpdateOne(c: string, compare: bool)
      requires Separated() && OnlyFrozen(Abs().pending) && live.Some? && c in live.value && c !in bases
      modifies this`chains, this`pending
      ensures Separated() && UpdatesOne(old(Abs()), live.value, compare, c, Abs())
    {
      var cur := ResolveUnsafe(c);
      if !compare || c !in chains {
        Publish(c, cur);
      } else {
        ghost var o, i, s := Deref(chains[c].info), Deref(cur.info), Abs();
        ChainUpdate(c, o, i, s.pending);
        ApplyChainUpdate(c, chains[c], cur, o, i, s);
      }
    }

    /** Takes a copy of the chain's struct with the chain disabled, unless it already is. */
    method Disable(c: string)
      requires Separated() && c in chains
      modifies this`chains
      ensures Separated() && chains.Keys == old(chains.Keys)
      ensures Abs() == old(Abs()).(chains := old(Abs()).chains[c := old(Abs()).chains[c].(enabled := false)])
    {
      if chains[c].info.enabled {
        var disabled := new ChainInfo(chains[c].info.(enabled := false));
        Kept();
        Publish(c, disabled);
      }
    }

    method UpdateNext(snap: Snapshot, compare: bool, c: string, ghost s0: R.Store, ghost done: set<string>)
      requires Separated() && live == Some(snap) && compare == s0.live.Some? && c in snap && c !in done
      requires UpdatesPart(s0, snap, done, Abs())
      modifies this`chains, this`pending
      ensures Separated() && UpdatesPart(s0, snap, done + {c}, Abs())
    {
      AbsKeys();
      ghost var s := Abs();
      if c in bases {
        UpdateSkip(s0, snap, done, s, c);
      } else {
        UpdateOne(c, compare);
        UpdateStep(s0, snap, done, s, c, Abs());
      }
    }

    method UpdateAll(snap: Snapshot, compare: bool, ghost s0: R.Store)
      requires Separated() && live == Some(snap) && compare == s0.live.Some?
      requires UpdatesPart(s0, snap, {}, Abs())
      modifies this`chains, this`pending
      ensures Separated() && UpdatesPart(s0, snap, snap.Keys, Abs())
    {
      var todo := snap.Keys;
      ghost var done := {};
      while todo != {}
        invariant Separated() && todo !! done && todo + done == snap.Keys && UpdatesPart(s0, snap, done, Abs())
      {
        var c :| c in todo;
        UpdateNext(snap, compare, c, s0, done);
        todo, done := todo - {c}, done + {c};
      }
    }

    method DisableNext(snap: Snapshot, c: string, ghost s: R.Store, ghost done: set<string>)
      requires Separated() && c in chains && DisablesPart(s, snap, done, Abs())
      modifies this`chains
      ensures Separated() && chains.Keys == old(chains.Keys) && DisablesPart(s, snap, done + {c}, Abs())
    {
      AbsKeys();
      ghost var before := Abs();
      if c !in bases && c !in snap {
        Disable(c);
      }
      DisabledStep(s, snap, done, before, c, Abs());
    }

    method DisableVanished(snap: Snapshot, keys: set<string>, ghost s: R.Store)
      requires Separated() && keys == chains.Keys && DisablesPart(s, snap, {}, Abs())
      modifies this`chains
      ensures Separated() && DisablesPart(s, snap, keys, Abs())
    {
      var todo := keys;
      ghost var done := {};
      while todo != {}
        invariant Separated() && keys == chains.Keys && todo !! done && todo + done == keys
        invariant DisablesPart(s, snap, done, Abs())
      {
        var c :| c in todo;
        DisableNext(snap, c, s, done);
        todo, done := todo - {c}, done + {c};
      }
    }

    /**
     Takes a live snapshot. Nothing that was published before changes: neither a chain
     info nor a token array nor the bases are in the frame.
     */
    method UpdateLive(snap: Snapshot)
      requires Valid() && OnlyFrozen(Abs().pending)
      modifies this`chains, this`pending, this`live, this`published
      ensures Valid() && old(published) <= published && Updates(old(Abs()), snap, Abs())
    {
      Update(snap);
      Note();
    }

    method Update(snap: Snapshot)
      requires Separated() && OnlyFrozen(Abs().pending)
      modifies this`chains, this`pending, this`live
      ensures Separated() && Updates(old(Abs()), snap, Abs())
    {
      ghost var s0 := Abs();
      var compare := live.Some?;
      UpdateStart(s0, snap);
      SetLive(snap);
      UpdateAll(snap, compare, s0);
      ghost var s := Abs();
      AbsKeys();
      DisableVanished(snap, chains.Keys, s);
      UpdateDone(s0, snap, s, Abs());
    }

    method SetLive(snap: Snapshot)
      requires Separated()
      modifies this`live
      ensures Separated() && live == Some(snap) && Abs() == old(Abs()).(live := Some(snap))
    {
      live := Some(snap);
      SameBases(bases);
      SameChains(chains);
      SamePending(pending);
    }

    // ---- a reload ----

    // When only the token array of one standalone chain was written to.

    twostate lemma OtherBases(c: string)
      requires old(Separated()) && c in bases && unchanged(this)
      requires forall a: Tokens :: old(allocated(a)) && a != bases[c].feeTokens ==> a[..] == old(a[..])
      ensures forall d :: d in bases && d != c ==> DerefBases(bases)[d] == old(DerefBases(bases))[d]
    {
      forall d | d in bases && d != c ensures DerefBases(bases)[d] == old(DerefBases(bases))[d] {
        assert Apart(bases[d].feeTokens, d);
      }
    }

    twostate lemma OtherChains(c: string)
      requires old(Separated()) && c in bases && unchanged(this)
      requires forall d :: d in chains ==> chains[d].info == old(chains[d].info)
      requires forall a: Tokens :: old(allocated(a)) && a != bases[c].feeTokens ==> a[..] == old(a[..])
      ensures forall d :: d in chains && d != c ==> DerefChains(chains)[d] == old(DerefChains(chains))[d]
    {
      forall d | d in chains && d != c ensures DerefChains(chains)[d] == old(DerefChains(chains))[d] {
        assert Apart(chains[d].info.feeTokens, d);
      }
    }

    twostate lemma OtherPending(c: string)
      requires old(Separated()) && c in bases && unchanged(this)
      requires forall a: Tokens :: old(allocated(a)) && a != bases[c].feeTokens ==> a[..] == old(a[..])
      ensures DerefPending(pending) == old(DerefPending(pending))
    {
      forall k | k in pending ensures DerefChange(pending[k]) == old(DerefChange(pending[k])) {
        var p := pending[k];
        assert ChangeApart(p);
        assert p.oldValue.Tokens? ==> p.oldValue.tokens in ArraysIn(p);
        assert p.newValue.Tokens? ==> p.newValue.tokens in ArraysIn(p);
      }
    }

    twostate lemma Others(c: string)
      requires old(Separated()) && c in bases && unchanged(this)
      requires forall d :: d in chains ==> chains[d].info == old(chains[d].info)
      requires forall a: Tokens :: old(allocated(a)) && a != bases[c].feeTokens ==> a[..] == old(a[..])
      ensures forall d :: d in bases && d != c ==> DerefBases(bases)[d] == old(DerefBases(bases))[d]
      ensures forall d :: d in chains && d != c ==> DerefChains(chains)[d] == old(DerefChains(chains))[d]
      ensures DerefPending(pending) == old(DerefPending(pending))
    {
      OtherBases(c);
      OtherChains(c);
      OtherPending(c);
    }

    method Rewrite(c: string, ghost s: R.Store) returns (p: ChainInfo)
      requires Separated() && c in bases && s == Abs() && c in s.bases
      modifies bases[c].feeTokens
      ensures Separated() && p.info.feeTokens == bases[c].feeTokens
        && Deref(p.info) == Resolved(s.bases[c], overrides, c)
      ensures Rewrites(s, c, Abs())
    {
      p := ResolveStandalone(bases[c]);
      Others(c);
      assert Abs().bases[c] == ReloadedBase(s, overrides, c);
      StillSeparated();
    }

    twostate lemma StillSeparated()
      requires old(Separated()) && unchanged(this`chains, this`bases, this`pending)
      requires forall c :: c in chains ==> chains[c].info == old(chains[c].info)
      ensures Separated()
    {}

    method ReloadStandalone(c: string, ghost s: R.Store)
      requires Separated() && c in bases && s == Abs() && c in s.chains
      modifies this`chains, bases[c].feeTokens
      ensures Separated() && ReloadsOne(s, c, Abs())
    {
      AbsKeys();
      var p := Rewrite(c, s);
      ghost var s', v := Abs(), Deref(p.info);
      Publish(c, p);
      RewritesThenPublished(s, c, s', v, Abs());
    }

    method ReloadRegistry(c: string, ghost s: R.Store)
      requires Separated() && c !in bases && s == Abs() && c in s.chains
      modifies this`chains
      ensures Separated() && ReloadsOne(s, c, Abs())
    {
      AbsKeys();
      var p := ResolveUnsafe(c);
      if p != null {
        Publish(c, p);
        PublishedReloads(s, c, Abs());
      } else {
        SkippedReloads(s, c);
      }
    }

    method ReloadNext(c: string, ghost arrays: set<Tokens>, ghost s0: R.Store, ghost done: set<string>)
      requires Separated() && c in chains && c !in done && ReloadsPart(s0, overrides, done, Abs())
      requires c in bases ==> bases[c].feeTokens in arrays
      modifies this`chains, arrays
      ensures Separated() && chains.Keys == old(chains.Keys) && ReloadsPart(s0, overrides, done + {c}, Abs())
    {
      AbsKeys();
      ghost var s := Abs();
      if c in bases {
        ReloadStandalone(c, s);
      } else {
        ReloadRegistry(c, s);
      }
      ReloadStep(s0, overrides, done, s, c, Abs());
      AbsKeys();
    }

    method ReloadAll(keys: set<string>, ghost arrays: set<Tokens>, ghost s0: R.Store)
      requires Separated() && keys == chains.Keys && ReloadsPart(s0, overrides, {}, Abs())
      requires forall c :: c in bases ==> bases[c].feeTokens in arrays
      modifies this`chains, arrays
      ensures Separated() && ReloadsPart(s0, overrides, keys, Abs())
    {
      var todo := keys;
      NoneAndAll(keys);
      while todo != {}
        invariant Separated() && todo <= keys == chains.Keys && ReloadsPart(s0, overrides, keys - todo, Abs())
      {
        todo := ReloadTurn(keys, todo, arrays, s0);
      }
    }

    method ReloadTurn(keys: set<string>, todo: set<string>, ghost arrays: set<Tokens>, ghost s0: R.Store)
      returns (rest: set<string>)
      requires Separated() && todo <= keys == chains.Keys && todo != {}
      requires ReloadsPart(s0, overrides, keys - todo, Abs())
      requires forall c :: c in bases ==> bases[c].feeTokens in arrays
      modifies this`chains, arrays
      ensures rest < todo
      ensures Separated() && keys == chains.Keys && ReloadsPart(s0, overrides, keys - rest, Abs())
    {
      var c :| c in todo;
      ReloadNext(c, arrays, s0, keys - todo);
      Took(keys, todo, c);
      rest := todo - {c};
    }

    method ReplaceOverrides(ov: Overrides)
      requires Separated()
      modifies this`overrides
      ensures Separated() && overrides == ov && Abs() == old(Abs()).(overrides := ov)
    {
      overrides := ov;
      SameBases(bases);
      SameChains(chains);
      SamePending(pending);
    }

    /** The array is of a standalone chain, and the overrides change a price in it. */
    ghost predicate WritesThrough(a: Tokens, ov: Overrides)
      reads this, a
    {
      exists c :: c in bases && a == bases[c].feeTokens && c in ov && !Harmless(a[..], ov[c].feeTokens)
    }

    /** The array holds what it held, exactly if no price is written to it. */
    twostate predicate KeptUnlessWritten(a: Tokens, ov: Overrides)
      reads a
    {
      a[..] == old(a[..]) <==> !old(WritesThrough(a, ov))
    }

    /** The pointer shows what it showed, exactly if no price is written through it. */
    twostate predicate ShowsUnlessWritten(p: ChainInfo, ov: Overrides)
      reads p, p.info.feeTokens
    {
      Deref(p.info) == old(Deref(p.info)) <==> !old(WritesThrough(p.info.feeTokens, ov))
    }

    method Reload(ov: Overrides, ghost arrays: set<Tokens>, ghost s0: R.Store)
      requires Separated() && s0 == Abs() && forall c :: c in bases ==> bases[c].feeTokens in arrays
      modifies this`chains, this`overrides, arrays
      ensures Separated() && Abs() == Reloaded(s0, ov)
    {
      AbsKeys();
      ReloadStart(s0, ov);
      ReplaceOverrides(ov);
      ReloadAll(chains.Keys, arrays, s0);
      ReloadDone(s0, ov, Abs());
    }

    /**
     Replaces the overrides. Every chain info there is, whether still published or handed
     out long ago, shows what it showed exactly if no price is written through it.
     */
    method SetOverrides(ov: Overrides)
      requires Valid()
      modifies this`chains, this`overrides, this`published, BaseArrays()
      ensures Valid() && old(published) <= published && Abs() == Reloaded(old(Abs()), ov)
      ensures forall a: Tokens :: old(allocated(a)) ==> KeptUnlessWritten(a, ov)
      ensures forall p: ChainInfo :: old(allocated(p)) ==> ShowsUnlessWritten(p, ov)
    {
      ReloadAndTell(ov);
      Note();
      AllShow(ov);
    }

    twostate lemma AllShow(ov: Overrides)
      requires forall a: Tokens :: old(allocated(a)) ==> KeptUnlessWritten(a, ov)
      requires forall p: ChainInfo :: old(allocated(p)) ==> p.info == old(p.info)
      ensures forall p: ChainInfo :: old(allocated(p)) ==> ShowsUnlessWritten(p, ov)
    {
      forall p: ChainInfo | old(allocated(p)) ensures ShowsUnlessWritten(p, ov) {
        assert KeptUnlessWritten(p.info.feeTokens, ov);
      }
    }

    method ReloadAndTell(ov: Overrides)
      requires Separated()
      modifies this`chains, this`overrides, BaseArrays()
      ensures Separated() && Abs() == Reloaded(old(Abs()), ov)
      ensures forall a: Tokens :: old(allocated(a)) ==> KeptUnlessWritten(a, ov)
    {
      Reload(ov, BaseArrays(), Abs());
      TokensAfter(ov);
      AllKept(ov);
    }

    twostate predicate TokensFollow(c: string, ov: Overrides)
      requires c in bases && c in old(bases)
      reads *
    {
      var before := old(bases[c].feeTokens[..]);
      bases[c].feeTokens[..] == if c in ov then ApplyTokens(before, ov[c].feeTokens) else before
    }

    twostate lemma TokensAfter(ov: Overrides)
      requires bases == old(bases) && Abs() == Reloaded(old(Abs()), ov)
      ensures forall c :: c in bases ==> TokensFollow(c, ov)
    {
      forall c | c in bases ensures TokensFollow(c, ov) {
        assert Abs().bases[c] == ReloadedBase(old(Abs()), ov, c);
      }
    }

    twostate lemma AllKept(ov: Overrides)
      requires old(Separated()) && bases == old(bases) && forall c :: c in bases ==> TokensFollow(c, ov)
      requires forall a: Tokens :: old(allocated(a)) && a !in old(BaseArrays()) ==> a[..] == old(a[..])
      ensures forall a: Tokens :: old(allocated(a)) ==> KeptUnlessWritten(a, ov)
    {
      forall a: Tokens | old(allocated(a)) ensures KeptUnlessWritten(a, ov) {
        if c :| c in bases && a == bases[c].feeTokens {
          assert TokensFollow(c, ov) && Apart(a, c);
          if c in ov {
            HarmlessIff(old(a[..]), ov[c].feeTokens);
          }
        }
      }
    }

    /** Adds a standalone chain, whose token array must be new to the store. */
    method AddOne(info: Struct)
      requires Valid() && info.feeTokens !in published + BaseArrays()
      modifies this`bases, this`chains, this`published, info.feeTokens
      ensures Valid() && old(published) == published && Abs() == Added(old(Abs()), old(Deref(info)))
      ensures bases == old(bases)[info.chainID := info] && BaseArrays() <= old(BaseArrays()) + {info.feeTokens}
    {
      NewToStore(info.feeTokens);
      Insert(info);
      RecordedWith(info);
      ArraysGrow(info);
    }

    twostate lemma ArraysGrow(info: Struct)
      requires bases == old(bases)[info.chainID := info]
      ensures BaseArrays() <= old(BaseArrays()) + {info.feeTokens}
    {}

    lemma NewToStore(a: Tokens)
      requires Valid() && a !in published + BaseArrays()
      ensures forall d :: d in bases ==> bases[d].feeTokens != a
      ensures forall c :: c in chains ==> chains[c].info.feeTokens != a
      ensures forall k :: k in pending ==> a !in ArraysIn(pending[k])
    {
      forall d | d in bases ensures bases[d].feeTokens != a {
        assert bases[d].feeTokens in BaseArrays();
      }
    }

    twostate lemma RecordedWith(info: Struct)
      requires old(Recorded()) && info.feeTokens !in published && published == old(published) && pending == old(pending)
      requires bases == old(bases)[info.chainID := info] && info.chainID in chains
      requires chains == old(chains)[info.chainID := chains[info.chainID]]
      requires chains[info.chainID].info.feeTokens == info.feeTokens
      requires forall c :: c in old(chains) ==> old(chains[c]).info == old(chains[c].info)
      ensures Recorded()
    {
      forall c | c in chains ensures chains[c].info.feeTokens in published || Shares(c) {
        assert c != info.chainID ==> old(chains[c].info.feeTokens in published || Shares(c));
      }
    }

    method Insert(info: Struct)
      requires Separated()
      requires forall d :: d in bases ==> bases[d].feeTokens != info.feeTokens
      requires forall c :: c in chains ==> chains[c].info.feeTokens != info.feeTokens
      requires forall k :: k in pending ==> info.feeTokens !in ArraysIn(pending[k])
      modifies this`bases, this`chains, info.feeTokens
      ensures Separated() && Abs() == Added(old(Abs()), old(Deref(info)))
      ensures bases == old(bases)[info.chainID := info] && chains == old(chains)[info.chainID := chains[info.chainID]]
      ensures chains[info.chainID].info.feeTokens == info.feeTokens
    {
      var p := ResolveStandalone(info);
      SameBases(bases);
      SameChains(chains);
      SamePending(pending);
      Publish(info.chainID, p);
      SetBase(info);
      assert Deref(info) == old(Deref(info)).(feeTokens := Deref(p.info).feeTokens);
      assert chains[info.chainID] == p;
    }

    /** Adds standalone chains, each with a token array of its own that is new to the store. */
    method AddStandalone(infos: seq<Struct>, ghost views: seq<View>)
      requires Valid() && |views| == |infos| && Awaiting(infos, views, 0)
      requires forall i, j :: 0 <= i < j < |infos| ==> infos[i].feeTokens != infos[j].feeTokens
      modifies this`bases, this`chains, this`published, set i | 0 <= i < |infos| :: infos[i].feeTokens
      ensures Valid() && published == old(published) && Abs() == AddedAll(old(Abs()), views)
    {
      ghost var s0 := Abs();
      for n := 0 to |infos|
        invariant Valid() && published == old(published)
        invariant Abs() == AddedAll(s0, views[..n]) && Awaiting(infos, views, n)
      {
        AddedNext(s0, views, n);
        AddNext(infos, n, views);
      }
      assert views[..|infos|] == views;
    }

    /** The infos from n on are still as given, and their arrays are new to the store. */
    ghost predicate Awaiting(infos: seq<Struct>, views: seq<View>, n: nat)
      requires |views| == |infos|
      reads this, set i | 0 <= i < |infos| :: infos[i].feeTokens
    {
      forall i :: n <= i < |infos| ==> views[i] == Deref(infos[i]) && infos[i].feeTokens !in published + BaseArrays()
    }

    method AddNext(infos: seq<Struct>, n: nat, ghost views: seq<View>)
      requires Valid() && |views| == |infos| && n < |infos| && Awaiting(infos, views, n)
      requires forall i, j :: 0 <= i < j < |infos| ==> infos[i].feeTokens != infos[j].feeTokens
      modifies this`bases, this`chains, this`published, infos[n].feeTokens
      ensures Valid() && published == old(published) && Abs() == Added(old(Abs()), views[n])
      ensures Awaiting(infos, views, n + 1)
    {
      AddOne(infos[n]);
    }

    twostate lemma SeparatedWith(info: Struct)
      requires old(Separated()) && chains == old(chains) && pending == old(pending)
        && bases == old(bases)[info.chainID := info]
      requires forall c :: c in chains ==> chains[c].info == old(chains[c].info)
      requires info.chainID in chains && forall d :: d in old(bases) ==> old(bases)[d].feeTokens != info.feeTokens
      requires forall c :: c in chains && c != info.chainID ==> chains[c].info.feeTokens != info.feeTokens
      requires forall k :: k in pending ==> info.feeTokens !in ArraysIn(pending[k])
      ensures Separated()
    {
      forall c | c in bases ensures bases[c].chainID == c && Apart(bases[c].feeTokens, c) {}
      forall c | c in chains ensures Apart(chains[c].info.feeTokens, c) {
        assert old(Apart(chains[c].info.feeTokens, c));
      }
      forall k | k in pending ensures ChangeApart(pending[k]) {
        assert old(ChangeApart(pending[k]));
      }
    }

    method SetBase(info: Struct)
      requires Separated() && info.chainID in chains
      requires forall d :: d in bases ==> bases[d].feeTokens != info.feeTokens
      requires forall c :: c in chains && c != info.chainID ==> chains[c].info.feeTokens != info.feeTokens
      requires forall k :: k in pending ==> info.feeTokens !in ArraysIn(pending[k])
      modifies this`bases
      ensures Separated() && bases == old(bases)[info.chainID := info]
      ensures Abs() == old(Abs().(bases := Abs().bases[info.chainID := Deref(info)]))
    {
      ghost var before := bases;
      bases := bases[info.chainID := info];
      SeparatedWith(info);
      SameBases(before);
      SameChains(chains);
      SamePending(pending);
      BasesWith(before, info.chainID, info);
    }

    // ---- every run ----

    /** No reload among the operations changes a price of a standalone chain that holds the array. */
    ghost predicate Safe(a: Tokens, ops: seq<Op>)
      reads this, a
    {
      forall c, i :: c in bases && bases[c].feeTokens == a && 0 <= i < |ops| && ops[i].Reload? && c in ops[i].ov ==>
        Harmless(a[..], ops[i].ov[c].feeTokens)
    }

    /** The bases hold their former arrays, each for the same chain, and new ones. */
    twostate predicate BasesMove()
      reads this
    {
      forall c :: c in bases ==>
        fresh(bases[c].feeTokens) || (c in old(bases) && bases[c].feeTokens == old(bases[c].feeTokens))
    }

    /** One operation; a standalone chain comes with a token array of its own. */
    method Do(op: Op)
      requires Valid() && OnlyFrozen(Abs().pending)
      modifies this, BaseArrays()
      ensures Valid() && OnlyFrozen(Abs().pending) && Steps(old(Abs()), op, Abs()) && BasesMove()
      ensures old(published) <= published
      ensures forall a: Tokens :: old(allocated(a)) ==>
        if op.Reload? then KeptUnlessWritten(a, op.ov) else a[..] == old(a[..])
    {
      Dispatch(op);
      StepKeepsFrozen(old(Abs()), op, Abs());
    }

    method Dispatch(op: Op)
      requires Valid() && OnlyFrozen(Abs().pending)
      modifies this, BaseArrays()
      ensures Valid() && Steps(old(Abs()), op, Abs()) && BasesMove() && old(published) <= published
      ensures forall a: Tokens :: old(allocated(a)) ==>
        if op.Reload? then KeptUnlessWritten(a, op.ov) else a[..] == old(a[..])
    {
      match op
      case Live(snap) => UpdateLive(snap); SameBasesMove();
      case Acceptance(c, f) => var _ := Accept(c, f); SameBasesMove();
      case Standalone(info) => AddNew(info);
      case Reload(ov) => SetOverrides(ov); SameBasesMove();
    }

    twostate lemma SameBasesMove()
      requires bases == old(bases)
      ensures BasesMove()
    {}

    method AddNew(info: View)
      requires Valid()
      modifies this
      ensures Valid() && Abs() == Added(old(Abs()), info) && BasesMove() && published == old(published)
    {
      var a := new FeeToken[|info.feeTokens|](i requires 0 <= i < |info.feeTokens| => info.feeTokens[i]);
      assert a[..] == info.feeTokens;
      Kept();
      AddOne(WithTokens(info, a));
    }

    /** The first operation leaves the arrays alone that are safe over all of them, and safe over the rest. */
    method DoFirst(ops: seq<Op>)
      requires Valid() && OnlyFrozen(Abs().pending) && ops != []
      modifies this, BaseArrays()
      ensures Valid() && OnlyFrozen(Abs().pending) && Steps(old(Abs()), ops[0], Abs()) && BasesMove()
      ensures old(published) <= published
      ensures forall a: Tokens :: old(allocated(a)) && old(Safe(a, ops)) ==> a[..] == old(a[..]) && Safe(a, ops[1..])
    {
      Do(ops[0]);
      SafeAfterwards(ops);
    }

    twostate lemma SafeAfterwards(ops: seq<Op>)
      requires ops != [] && BasesMove()
      requires forall a: Tokens :: old(allocated(a)) ==>
        if ops[0].Reload? then KeptUnlessWritten(a, ops[0].ov) else a[..] == old(a[..])
      ensures forall a: Tokens :: old(allocated(a)) && old(Safe(a, ops)) ==> a[..] == old(a[..]) && Safe(a, ops[1..])
    {
      forall a: Tokens | old(allocated(a)) && old(Safe(a, ops)) ensures a[..] == old(a[..]) && Safe(a, ops[1..]) {
        assert forall i :: 0 <= i < |ops[1..]| ==> ops[1..][i] == ops[i + 1];
      }
    }

    method RunAll(ops: seq<Op>) returns (ghost states: seq<R.Store>)
      requires Valid() && OnlyFrozen(Abs().pending)
      modifies this, BaseArrays()
      ensures Valid() && OnlyFrozen(Abs().pending) && Runs(states, ops, old(Abs()), Abs())
      ensures old(published) <= published
      ensures forall a: Tokens :: old(allocated(a)) && old(Safe(a, ops)) ==> a[..] == old(a[..])
      decreases |ops|
    {
      ghost var s0 := Abs();
      if ops == [] {
        return [s0];
      }
      DoFirst(ops);
      ghost var s := Abs();
      states := RunAll(ops[1..]);
      RunsFrom(states, ops, s0, s, Abs());
      states := [s0] + states;
    }

    /**
     Every run of the store is a run of the state machine, and no chain info that was
     handed out before it changes unless a reload changes a price of the standalone chain
     that it shares an array with: that is, never one of a registry chain.
     */
    method Perform(ops: seq<Op>) returns (ghost states: seq<R.Store>)
      requires Valid() && OnlyFrozen(Abs().pending)
      modifies this, BaseArrays()
      ensures Valid() && OnlyFrozen(Abs().pending) && Runs(states, ops, old(Abs()), Abs())
      ensures old(published) <= published
      ensures forall p: ChainInfo :: old(allocated(p)) && old(Safe(p.info.feeTokens, ops)) ==> StillShows(p)
      ensures forall p: ChainInfo :: old(allocated(p)) && old(p.info.feeTokens in published) ==> StillShows(p)
    {
      states := RunAll(ops);
      PublishedSafe(ops);
    }

    twostate predicate StillShows(p: ChainInfo)
      reads p, p.info.feeTokens
    {
      Deref(p.info) == old(Deref(p.info))
    }

    twostate lemma PublishedSafe(ops: seq<Op>)
      requires old(Valid())
      ensures forall a: Tokens :: old(allocated(a)) && a in old(published) ==> old(Safe(a, ops))
    {}
  }
}
