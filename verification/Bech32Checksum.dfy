/**
 The checksum register of internal/tx/internal/keys/derive.go: a 30-bit shift
 register fed one 5-bit symbol at a time.

 The bit operations are wrapped in one-line functions, so that every lemma is
 either one bit-level fact about them or plain equational reasoning.
 */
module Bech32Checksum {

  const REGISTER_LIMIT: bv32 := 0x40000000

  ghost predicate Symbols(values: seq<bv8>) {
    forall i :: 0 <= i < |values| ==> values[i] < 32
  }

  function Generator(k: nat): bv32
    requires k < 5
  {
    if k == 0 then 0x3b6a57b2 else if k == 1 then 0x26508e6d else if k == 2 then 0x1ea119fa
    else if k == 3 then 0x3d4233dd else 0x2a1462b3
  }

  function Xor(a: bv32, b: bv32): bv32 { a ^ b }

  /** The five bits that the next symbol shifts out. */
  function Top(chk: bv32): bv32 { chk >> 25 }

  function Push(chk: bv32, v: bv8): bv32 { ((chk & 0x1ffffff) << 5) ^ (v as bv32) }

  /** The k-th generator word if bit k of `top` is set, and 0 otherwise. */
  function Tap(top: bv32, k: nat): bv32
    requires k < 5
  {
    if k == 0 then (top & 1) * 0x3b6a57b2
    else if k == 1 then ((top >> 1) & 1) * 0x26508e6d
    else if k == 2 then ((top >> 2) & 1) * 0x1ea119fa
    else if k == 3 then ((top >> 3) & 1) * 0x3d4233dd
    else ((top >> 4) & 1) * 0x2a1462b3
  }

  function Taps(top: bv32, k: nat): bv32
    requires k <= 5
  {
    if k == 0 then 0 else Xor(Taps(top, k - 1), Tap(top, k - 1))
  }

  /** The register after one more symbol. */
  function Step(chk: bv32, v: bv8): bv32 {
    Xor(Push(chk, v), Taps(Top(chk), 5))
  }

  /** The register after all of `values`. */
  function Run(chk: bv32, values: seq<bv8>): bv32
  {
    if values == [] then chk
    else Step(Run(chk, values[..|values| - 1]), values[|values| - 1])
  }

  /** bech32Polymod. */
  method Polymod(values: seq<bv8>) returns (chk: bv32)
    ensures chk == Run(1, values)
  {
    chk := 1;
    for k := 0 to |values|
      invariant chk == Run(1, values[..k])
    {
      assert values[..k + 1][..k] == values[..k];
      chk := FeedSymbol(chk, values[k]);
    }
    assert values[..|values|] == values;
  }

  /** One round of the outer loop: the generator words are mixed in one by one. */
  method FeedSymbol(chk: bv32, v: bv8) returns (next: bv32)
    ensures next == Step(chk, v)
  {
    var top := Top(chk);
    next := Push(chk, v);
    XorZero(next);
    for i := 0 to 5
      invariant next == Xor(Push(chk, v), Taps(top, i))
    {
      TapSelects(Push(chk, v), Taps(top, i), top, i);
      if (top >> i) & 1 != 0 {
        next := Xor(next, Generator(i));
      }
    }
  }

  // ---- bit-level facts ----

  lemma XorZero(a: bv32)
    ensures Xor(a, 0) == a
  {}

  lemma TapSelects(p: bv32, taps: bv32, top: bv32, i: nat)
    requires i < 5
    ensures (top >> i) & 1 != 0 ==> Xor(p, Xor(taps, Tap(top, i))) == Xor(Xor(p, taps), Generator(i))
    ensures (top >> i) & 1 == 0 ==> Xor(p, Xor(taps, Tap(top, i))) == Xor(p, taps)
  {
    TapIs(top, i);
    XorAssociates(p, taps, Generator(i));
    XorZero(taps);
  }

  lemma TapIs(top: bv32, i: nat)
    requires i < 5
    ensures Tap(top, i) == if (top >> i) & 1 != 0 then Generator(i) else 0
  {}

  lemma XorAssociates(a: bv32, b: bv32, c: bv32)
    ensures Xor(a, Xor(b, c)) == Xor(Xor(a, b), c)
  {}

  lemma XorInline(a: bv32, b: bv32, c: bv32)
    ensures Xor(a ^ b, c) == Xor(a ^ c, b)
  {}

  lemma XorSwap(a: bv32, b: bv32, c: bv32)
    ensures Xor(Xor(a, b), c) == Xor(Xor(a, c), b)
  {
    XorInline(a, b, c);
    assert Xor(a, b) == a ^ b;
    assert Xor(a, c) == a ^ c;
  }

  lemma XorCancel(a: bv32, b: bv32, c: bv32)
    ensures Xor(a, c) == Xor(b, c) ==> a == b
    ensures Xor(c, a) == Xor(c, b) ==> a == b
  {}

  lemma XorInverse(a: bv32, b: bv32)
    ensures Xor(a, Xor(a, b)) == b
  {}

  lemma XorBounded(a: bv32, b: bv32)
    requires a < REGISTER_LIMIT && b < REGISTER_LIMIT
    ensures Xor(a, b) < REGISTER_LIMIT
  {}

  /** Below its top five bits the register is only shifted. */
  lemma PushOverlay(r: bv32, low: bv32, x: bv8)
    requires low < 0x2000000
    ensures Top(Xor(r, low)) == Top(r)
    ensures Push(Xor(r, low), x) == Xor(Push(r, 0), Push(low, x))
  {}

  lemma PushInjective(a: bv32, x: bv8, b: bv32, y: bv8)
    requires a < REGISTER_LIMIT && b < REGISTER_LIMIT && x < 32 && y < 32
    requires Top(a) == Top(b) && Push(a, x) == Push(b, y)
    ensures a == b && x == y
  {}

  lemma TapsExplicit(top: bv32)
    ensures Taps(top, 5) == Xor(Xor(Xor(Xor(Xor(0, Tap(top, 0)), Tap(top, 1)), Tap(top, 2)), Tap(top, 3)), Tap(top, 4))
  {
    assert Taps(top, 1) == Xor(0, Tap(top, 0));
    assert Taps(top, 2) == Xor(Taps(top, 1), Tap(top, 1));
    assert Taps(top, 3) == Xor(Taps(top, 2), Tap(top, 2));
    assert Taps(top, 4) == Xor(Taps(top, 3), Tap(top, 3));
  }

  /** The low five bits of the feedback determine the bits that were shifted out. */
  lemma TapsInjective(s: bv32, t: bv32)
    requires s < 32 && t < 32 && Taps(s, 5) & 31 == Taps(t, 5) & 31
    ensures s == t
  {
    TapsExplicit(s);
    TapsExplicit(t);
  }

  lemma TapsBounded(top: bv32)
    ensures Taps(top, 5) < REGISTER_LIMIT
  {
    for k := 0 to 5
      invariant Taps(top, k) < REGISTER_LIMIT
    {
      TapBounded(top, k);
      XorBounded(Taps(top, k), Tap(top, k));
    }
  }

  lemma TapBounded(top: bv32, k: nat)
    requires k < 5
    ensures Tap(top, k) < REGISTER_LIMIT
  {}

  lemma PushBounded(a: bv32, v: bv8)
    requires v < 32
    ensures Push(a, v) < REGISTER_LIMIT
  {}

  lemma LowSymbol(a: bv32, v: bv8, taps: bv32)
    ensures Xor(Push(a, v), taps) & 31 == Xor((v as bv32) & 31, taps & 31)
  {}

  lemma TopBounded(a: bv32)
    requires a < REGISTER_LIMIT
    ensures Top(a) < 32
  {}

  // ---- one step ----

  lemma StepBounded(a: bv32, v: bv8)
    requires v < 32
    ensures Step(a, v) < REGISTER_LIMIT
  {
    PushBounded(a, v);
    TapsBounded(Top(a));
    XorBounded(Push(a, v), Taps(Top(a), 5));
  }

  /** The step with a fixed symbol is injective. */
  lemma StepInjective(a: bv32, b: bv32, v: bv8)
    requires a < REGISTER_LIMIT && b < REGISTER_LIMIT && v < 32
    requires Step(a, v) == Step(b, v)
    ensures a == b
  {
    var s, t := Top(a), Top(b);
    TopBounded(a);
    TopBounded(b);
    LowSymbol(a, v, Taps(s, 5));
    LowSymbol(b, v, Taps(t, 5));
    XorCancel(Taps(s, 5) & 31, Taps(t, 5) & 31, (v as bv32) & 31);
    TapsInjective(s, t);
    XorCancel(Push(a, v), Push(b, v), Taps(s, 5));
    PushInjective(a, v, b, v);
  }

  /** A difference below the top five bits moves up one symbol and nothing feeds back. */
  lemma StepOverlay(r: bv32, low: bv32, x: bv8)
    requires low < 0x2000000
    ensures Step(Xor(r, low), x) == Xor(Step(r, 0), Push(low, x))
  {
    PushOverlay(r, low, x);
    XorSwap(Push(r, 0), Push(low, x), Taps(Top(r), 5));
  }

  // ---- whole runs ----

  lemma {:induction false} RunBounded(chk: bv32, values: seq<bv8>)
    requires chk < REGISTER_LIMIT && Symbols(values)
    ensures Run(chk, values) < REGISTER_LIMIT
  {
    if values == [] {
    } else {
      StepBounded(Run(chk, values[..|values| - 1]), values[|values| - 1]);
    }
  }

  lemma {:induction false} RunConcat(chk: bv32, a: seq<bv8>, b: seq<bv8>)
    ensures Run(chk, a + b) == Run(Run(chk, a), b)
  {
    if b == [] {
      assert a + b == a;
    } else {
      var n := |b| - 1;
      assert (a + b)[..|a + b| - 1] == a + b[..n];
      RunConcat(chk, a, b[..n]);
    }
  }

  /** Equal symbols never make two different registers meet. */
  lemma {:induction false} RunInjective(a: bv32, b: bv32, values: seq<bv8>)
    requires a < REGISTER_LIMIT && b < REGISTER_LIMIT && Symbols(values)
    requires Run(a, values) == Run(b, values)
    ensures a == b
  {
    if values == [] {
    } else {
      var init := values[..|values| - 1];
      RunBounded(a, init);
      RunBounded(b, init);
      StepInjective(Run(a, init), Run(b, init), values[|values| - 1]);
      RunInjective(a, b, init);
    }
  }

  function Zeros(n: nat): (z: seq<bv8>)
    ensures |z| == n && forall i :: 0 <= i < n ==> z[i] == 0
  {
    seq(n, _ => 0)
  }

  /** Up to six symbols, side by side. */
  function Pack(values: seq<bv8>): bv32
  {
    if values == [] then 0 else Push(Pack(values[..|values| - 1]), values[|values| - 1])
  }

  function PackLimit(n: nat): bv32
    requires n <= 6
  {
    if n == 0 then 1 else if n == 1 then 0x20 else if n == 2 then 0x400 else if n == 3 then 0x8000
    else if n == 4 then 0x100000 else if n == 5 then 0x2000000 else REGISTER_LIMIT
  }

  lemma PushLimit(low: bv32, v: bv8, n: nat)
    requires n < 6 && low < PackLimit(n) && v < 32
    ensures Push(low, v) < PackLimit(n + 1)
  {}

  lemma {:induction false} PackBounded(values: seq<bv8>)
    requires Symbols(values) && |values| <= 6
    ensures Pack(values) < PackLimit(|values|)
  {
    if values == [] {
    } else {
      var n := |values| - 1;
      PackBounded(values[..n]);
      PushLimit(Pack(values[..n]), values[n], n);
    }
  }

  lemma LimitSmall(a: bv32, n: nat)
    requires n <= 5 && a < PackLimit(n)
    ensures a < 0x2000000
  {}

  lemma PackSmall(values: seq<bv8>)
    requires Symbols(values) && |values| <= 5
    ensures Pack(values) < 0x2000000
  {
    PackBounded(values);
    LimitSmall(Pack(values), |values|);
  }

  lemma PushInjectiveSmall(a: bv32, x: bv8, b: bv32, y: bv8)
    requires a < 0x2000000 && b < 0x2000000 && x < 32 && y < 32 && Push(a, x) == Push(b, y)
    ensures a == b && x == y
  {}

  lemma {:induction false} PackInjective(a: seq<bv8>, b: seq<bv8>)
    requires Symbols(a) && Symbols(b) && |a| == |b| <= 6
    requires Pack(a) == Pack(b)
    ensures a == b
  {
    if a == [] {
    } else {
      var n := |a| - 1;
      PackSmall(a[..n]);
      PackSmall(b[..n]);
      PushInjectiveSmall(Pack(a[..n]), a[n], Pack(b[..n]), b[n]);
      PackInjective(a[..n], b[..n]);
      assert a == a[..n] + [a[n]] && b == b[..n] + [b[n]];
    }
  }

  /** Six symbols fed into any register are laid over what six zeros would leave. */
  lemma {:induction false} RunOverlay(chk: bv32, values: seq<bv8>)
    requires Symbols(values) && |values| <= 6
    ensures Run(chk, values) == Xor(Run(chk, Zeros(|values|)), Pack(values))
  {
    if values == [] {
      XorZero(chk);
    } else {
      var n := |values| - 1;
      assert Zeros(n + 1)[..n] == Zeros(n);
      RunOverlay(chk, values[..n]);
      PackSmall(values[..n]);
      StepOverlay(Run(chk, Zeros(n)), Pack(values[..n]), values[n]);
    }
  }

  /**
   From one register, different strings of up to six symbols never lead back to one
   register, whatever equal symbols follow.
   */
  lemma BurstSeparates(chk: bv32, a: seq<bv8>, b: seq<bv8>, tail: seq<bv8>)
    requires chk < REGISTER_LIMIT && Symbols(a) && Symbols(b) && Symbols(tail)
    requires |a| == |b| <= 6 && a != b
    ensures Run(chk, a + tail) != Run(chk, b + tail)
  {
    RunConcat(chk, a, tail);
    RunConcat(chk, b, tail);
    RunBounded(chk, a);
    RunBounded(chk, b);
    if Run(chk, a + tail) == Run(chk, b + tail) {
      RunInjective(Run(chk, a), Run(chk, b), tail);
      RunOverlay(chk, a);
      RunOverlay(chk, b);
      XorCancel(Pack(a), Pack(b), Run(chk, Zeros(|a|)));
      PackInjective(a, b);
    }
  }

  // ---- the six checksum symbols ----

  function Symbol(poly: bv32, i: nat): bv8
    requires i < 6
  {
    if i == 0 then ((poly >> 25) & 31) as bv8 else if i == 1 then ((poly >> 20) & 31) as bv8
    else if i == 2 then ((poly >> 15) & 31) as bv8 else if i == 3 then ((poly >> 10) & 31) as bv8
    else if i == 4 then ((poly >> 5) & 31) as bv8 else (poly & 31) as bv8
  }

  function Unpack(poly: bv32): (s: seq<bv8>)
    ensures |s| == 6 && Symbols(s)
  {
    [Symbol(poly, 0), Symbol(poly, 1), Symbol(poly, 2), Symbol(poly, 3), Symbol(poly, 4), Symbol(poly, 5)]
  }

  lemma PushUnpacked(poly: bv32)
    requires poly < REGISTER_LIMIT
    ensures Push(Push(Push(Push(Push(Push(0, Symbol(poly, 0)), Symbol(poly, 1)), Symbol(poly, 2)),
                                Symbol(poly, 3)), Symbol(poly, 4)), Symbol(poly, 5)) == poly
  {}

  lemma PackUnpack(poly: bv32)
    requires poly < REGISTER_LIMIT
    ensures Pack(Unpack(poly)) == poly
  {
    var s := Unpack(poly);
    assert s[..6] == s && s[..5][..4] == s[..4] && s[..4][..3] == s[..3] && s[..3][..2] == s[..2]
      && s[..2][..1] == s[..1];
    assert Pack(s[..1]) == Push(0, s[0]) by { assert s[..1][..0] == []; }
    assert Pack(s[..2]) == Push(Pack(s[..1]), s[1]);
    assert Pack(s[..3]) == Push(Pack(s[..2]), s[2]);
    assert Pack(s[..4]) == Push(Pack(s[..3]), s[3]);
    assert Pack(s[..5]) == Push(Pack(s[..4]), s[4]);
    PushUnpacked(poly);
  }

  /** The six symbols that bring the register after `prefix` to 1. */
  ghost predicate Closes(prefix: seq<bv8>, s: seq<bv8>) {
    |s| == 6 && Symbols(s) && Run(1, prefix + s) == 1
  }

  /** What bech32Checksum computes closes the register, and nothing else does. */
  lemma ClosesIff(prefix: seq<bv8>, s: seq<bv8>)
    requires Symbols(prefix) && Symbols(s) && |s| == 6
    ensures Closes(prefix, s) <==> s == Unpack(Xor(Run(1, prefix + Zeros(6)), 1))
  {
    var chk := Run(1, prefix);
    var open := Run(chk, Zeros(6));
    var sum := Unpack(Xor(open, 1));
    RunBounded(1, prefix);
    RunBounded(chk, Zeros(6));
    RunConcat(1, prefix, Zeros(6));
    RunConcat(1, prefix, s);
    RunOverlay(chk, s);
    XorBounded(open, 1);
    PackUnpack(Xor(open, 1));
    XorInverse(open, 1);
    if Run(1, prefix + s) == 1 {
      XorCancel(Pack(s), Pack(sum), open);
      PackInjective(s, sum);
    }
  }

  ghost function Closing(prefix: seq<bv8>): (s: seq<bv8>)
    requires Symbols(prefix)
    ensures Closes(prefix, s)
  {
    ClosesIff(prefix, Unpack(Xor(Run(1, prefix + Zeros(6)), 1)));
    var s :| Closes(prefix, s);
    s
  }

  lemma ClosingIsUnique(prefix: seq<bv8>, s: seq<bv8>)
    requires Symbols(prefix)
    ensures Closes(prefix, s) <==> s == Closing(prefix)
  {
    if Closes(prefix, s) {
      ClosesIff(prefix, s);
      ClosesIff(prefix, Closing(prefix));
    }
  }

  lemma ClosingComputed(prefix: seq<bv8>)
    requires Symbols(prefix)
    ensures Closing(prefix) == Unpack(Xor(Run(1, prefix + Zeros(6)), 1))
  {
    ClosesIff(prefix, Closing(prefix));
  }

  /** The first valid test vector of BIP 173, a12uel5l: its expanded prefix and its symbols. */
  lemma TestVectorCloses()
    ensures Run(1, [3, 0, 1, 10, 28, 25, 31, 20, 31]) == 1
  {
    Feed([], 1, 3, 0x23, 0, 0x460, 1, 0x8c01);
    Feed([] + [3, 0, 1], 0x8c01, 10, 0x11802a, 28, 0x230055c, 25, 0x3d6afc2b);
    Feed([] + [3, 0, 1] + [10, 28, 25], 0x3d6afc2b, 31, 0x2f84386, 20, 0x24622766, 31, 1);
    var all: seq<bv8> := [3, 0, 1, 10, 28, 25, 31, 20, 31];
    assert [] + [3, 0, 1] + [10, 28, 25] + [31, 20, 31] == all;
  }

  /** Three more symbols, with the registers on the way. */
  lemma Feed(fed: seq<bv8>, chk: bv32, u: bv8, a: bv32, v: bv8, b: bv32, w: bv8, c: bv32)
    requires Run(1, fed) == chk && Step(chk, u) == a && Step(a, v) == b && Step(b, w) == c
    ensures Run(1, fed + [u, v, w]) == c
  {
    RunConcat(1, fed, [u, v, w]);
    assert [u][..0] == [] && [u, v][..1] == [u] && [u, v, w][..2] == [u, v];
    assert Run(chk, [u]) == Step(chk, u);
    assert Run(chk, [u, v]) == Step(Step(chk, u), v);
  }
}
