/**
 Compact signatures to DER: compactToDER, padDER and parseSig of
 internal/abuse/signed/verifier.go, against a strict reader of the DER rules in
 sections 8.1.3, 8.3 and 10.1 of X.690.
 */
module Der {
  import opened Options

  type Byte = x: int | 0 <= x < 256

  /** The unsigned big-endian value of a byte string. */
  function Value(b: seq<Byte>): nat {
    if b == [] then 0 else Value(b[..|b| - 1]) * 256 + b[|b| - 1]
  }

  // ---- the strict reader ----

  /** Contents of a DER INTEGER that is not negative: no superfluous leading byte. */
  predicate Minimal(b: seq<Byte>) {
    && b != []
    && b[0] < 128
    && (|b| > 1 && b[0] == 0 ==> b[1] >= 128)
  }

  /** One INTEGER at the front of `d`: its contents and what follows it. */
  function ReadInteger(d: seq<Byte>): Option<(seq<Byte>, seq<Byte>)> {
    if |d| < 2 || d[0] != 0x02 || d[1] >= 128 || |d| < 2 + d[1] then None
    else
      var contents := d[2..2 + d[1]];
      if Minimal(contents) then Some((contents, d[2 + d[1]..])) else None
  }

  /** A SEQUENCE of exactly two INTEGERs and nothing after it. */
  function ReadSignature(d: seq<Byte>): Option<(nat, nat)> {
    if |d| < 2 || d[0] != 0x30 || d[1] >= 128 || d[1] != |d| - 2 then None
    else match ReadInteger(d[2..])
      case None => None
      case Some((r, rest)) =>
        match ReadInteger(rest)
        case None => None
        case Some((s, end)) => if end == [] then Some((Value(r), Value(s))) else None
  }

  // ---- the writer ----

  /** padDER; `b[0] & 0x80 != 0` is `b[0] >= 128`. */
  method PadDER(b: seq<Byte>) returns (r: seq<Byte>)
    requires b != []
    ensures Minimal(r) && Value(r) == Value(b) && |r| <= |b| + 1
  {
    var i := 0;
    while i < |b| - 1 && b[i] == 0
      invariant 0 <= i < |b|
      invariant Value(b[i..]) == Value(b)
    {
      LeadingZero(b[i..]);
      assert b[i..][1..] == b[i + 1..];
      i := i + 1;
    }
    var c := b[i..];
    if c[0] >= 128 {
      r := [0] + c;
      assert r[1..] == c;
      LeadingZero(r);
    } else {
      r := c;
    }
  }

  method CompactToDER(sig: seq<Byte>) returns (r: Option<seq<Byte>>)
    ensures r.Some? <==> |sig| == 64
    ensures r.Some? ==> |r.value| <= 72 && ReadSignature(r.value) == Some((Value(sig[..32]), Value(sig[32..])))
  {
    if |sig| != 64 {
      return None;
    }
    var x := PadDER(sig[..32]);
    var y := PadDER(sig[32..]);
    var body: seq<Byte> := [0x02, |x|];
    body := body + x;
    body := body + [0x02, |y|];
    body := body + y;
    var d: seq<Byte> := [0x30, |body|] + body;
    WrittenReads(x, y, d);
    r := Some(d);
  }

  /** parseSig, up to the call of the signature library. */
  method ParseSig(sigBytes: seq<Byte>) returns (r: Option<seq<Byte>>)
    ensures r.Some? <==> |sigBytes| == 64 || |sigBytes| == 65
    ensures r.Some? ==>
      var rs := sigBytes[|sigBytes| - 64..];
      ReadSignature(r.value) == Some((Value(rs[..32]), Value(rs[32..])))
  {
    var s := sigBytes;
    if |s| == 65 {
      s := s[1..];
    }
    if |s| != 64 {
      return None;
    }
    assert s == sigBytes[|sigBytes| - 64..];
    r := CompactToDER(s);
  }

  // ---- proofs ----

  lemma {:induction false} LeadingZero(b: seq<Byte>)
    requires b != [] && b[0] == 0
    ensures Value(b[1..]) == Value(b)
  {
    if |b| > 1 {
      var n := |b| - 1;
      LeadingZero(b[..n]);
      assert b[..n][1..] == b[1..][..n - 1];
    }
  }

  lemma IntegerReads(x: seq<Byte>, rest: seq<Byte>)
    requires Minimal(x) && |x| < 128
    ensures ReadInteger([0x02, |x|] + x + rest) == Some((x, rest))
  {
    var d: seq<Byte> := [0x02, |x|] + x + rest;
    assert d[2..2 + |x|] == x && d[2 + |x|..] == rest;
  }

  lemma WrittenReads(x: seq<Byte>, y: seq<Byte>, d: seq<Byte>)
    requires Minimal(x) && Minimal(y) && |x| <= 33 && |y| <= 33
    requires d == [0x30, 4 + |x| + |y|] + ([0x02, |x|] + x + [0x02, |y|] + y)
    ensures ReadSignature(d) == Some((Value(x), Value(y)))
  {
    var second: seq<Byte> := [0x02, |y|] + y;
    IntegerReads(x, second);
    LastIntegerReads(y);
    Grouped([0x02, |x|] + x, [0x02, |y|], y);
    ReadsAs(d, [0x02, |x|] + x + second, x, y, second);
  }

  lemma LastIntegerReads(y: seq<Byte>)
    requires Minimal(y) && |y| < 128
    ensures ReadInteger([0x02, |y|] + y) == Some((y, []))
  {
    IntegerReads(y, []);
    assert [0x02, |y|] + y + [] == [0x02, |y|] + y;
  }

  lemma Grouped(a: seq<Byte>, b: seq<Byte>, c: seq<Byte>)
    ensures a + b + c == a + (b + c)
  {}

  lemma ReadsAs(d: seq<Byte>, body: seq<Byte>, x: seq<Byte>, y: seq<Byte>, second: seq<Byte>)
    requires |body| < 128 && d == [0x30, |body|] + body
    requires ReadInteger(body) == Some((x, second)) && ReadInteger(second) == Some((y, []))
    ensures ReadSignature(d) == Some((Value(x), Value(y)))
  {
    assert d[2..] == body;
  }

  /** The pair (1, 128) in DER: the second number needs a leading zero byte. */
  lemma SmallSignature(d: seq<Byte>)
    requires d == [0x30, 0x07, 0x02, 0x01, 0x01, 0x02, 0x02, 0x00, 0x80]
    ensures ReadSignature(d) == Some((1, 128))
  {
    var x: seq<Byte>, y: seq<Byte> := [0x01], [0x00, 0x80];
    assert x[..0] == [] && y[..1] == [0x00] && y[..1][..0] == [];
    assert Value(y[..1]) == 0 && Value(y) == 128 && Value(x) == 1;
    WrittenReads(x, y, d);
  }

  function Pow(n: nat): nat { if n == 0 then 1 else 256 * Pow(n - 1) }

  lemma Scale(h: nat, p: nat)
    ensures h * (256 * p) == 256 * (h * p)
  {}

  lemma {:induction false} ValueBounds(b: seq<Byte>)
    requires b != []
    ensures b[0] * Pow(|b| - 1) <= Value(b) < (b[0] + 1) * Pow(|b| - 1)
  {
    var n := |b| - 1;
    if n > 0 {
      ValueBounds(b[..n]);
      var h: nat := b[0];
      Scale(h, Pow(n - 1));
      Scale(h + 1, Pow(n - 1));
    } else {
      assert b[..n] == [];
    }
  }

  lemma {:induction false} FixedLength(a: seq<Byte>, b: seq<Byte>)
    requires |a| == |b| && Value(a) == Value(b)
    ensures a == b
  {
    if a == [] {
    } else {
      var n := |a| - 1;
      FixedLength(a[..n], b[..n]);
      assert a == a[..n] + [a[n]] && b == b[..n] + [b[n]];
    }
  }

  lemma Times(a: nat, b: nat, p: nat)
    requires a <= b
    ensures a * p <= b * p
  {}

  /** The value of a minimal integer fixes its length. */
  lemma MinimalBounds(b: seq<Byte>)
    requires Minimal(b)
    ensures Value(b) < 128 * Pow(|b| - 1)
    ensures |b| > 1 ==> 128 * Pow(|b| - 2) <= Value(b)
  {
    ValueBounds(b);
    Times(b[0] + 1, 128, Pow(|b| - 1));
    if |b| > 1 {
      if b[0] == 0 {
        LeadingZero(b);
        ValueBounds(b[1..]);
        Times(128, b[1], Pow(|b| - 2));
      } else {
        Times(1, b[0], Pow(|b| - 1));
      }
    }
  }

  lemma {:induction false} PowMonotone(m: nat, n: nat)
    requires m <= n
    ensures Pow(m) <= Pow(n)
  {
    if m < n { PowMonotone(m, n - 1); }
  }

  lemma LongerIsLarger(a: seq<Byte>, b: seq<Byte>)
    requires Minimal(a) && Minimal(b) && |a| < |b|
    ensures Value(a) < Value(b)
  {
    MinimalBounds(a);
    MinimalBounds(b);
    PowMonotone(|a| - 1, |b| - 2);
  }

  lemma MinimalUnique(a: seq<Byte>, b: seq<Byte>)
    requires Minimal(a) && Minimal(b) && Value(a) == Value(b)
    ensures a == b
  {
    if |a| < |b| {
      LongerIsLarger(a, b);
    } else if |b| < |a| {
      LongerIsLarger(b, a);
    } else {
      FixedLength(a, b);
    }
  }

  /** A pair of numbers has one DER form, so the strict reader is inverted by the writer. */
  lemma ReaderInjective(d: seq<Byte>, d': seq<Byte>)
    requires ReadSignature(d).Some? && ReadSignature(d) == ReadSignature(d')
    ensures d == d'
  {
    var (r, rest) := ReadInteger(d[2..]).value;
    var (s, _) := ReadInteger(rest).value;
    var (r', rest') := ReadInteger(d'[2..]).value;
    var (s', _) := ReadInteger(rest').value;
    MinimalUnique(r, r');
    MinimalUnique(s, s');
    Reassembled(d[2..]);
    Reassembled(d'[2..]);
    Reassembled(rest);
    Reassembled(rest');
    assert d == [0x30, d[1]] + d[2..] && d' == [0x30, d'[1]] + d'[2..];
  }

  lemma Reassembled(d: seq<Byte>)
    requires ReadInteger(d).Some?
    ensures d == [0x02, |ReadInteger(d).value.0|] + ReadInteger(d).value.0 + ReadInteger(d).value.1
  {}
}
