/**
 Regrouping bits between 8-bit and 5-bit words: bech32ConvertBits of
 internal/tx/internal/keys/derive.go.

 The accumulator of the source is a 64-bit integer that is shifted left for every
 word and never masked, so its high bits wrap away; here it is a `bv64`. The source
 shifts it right as a signed integer, and here zeros come in at the top; only the low
 bits of the result are read, which are the same.
 */
module Bech32Regroup {
  import opened Options

  /** Shifts by an amount known only at run time. */
  function Shl(x: bv64, n: nat): bv64 { if n == 0 then x else Twice(Shl(x, n - 1)) }

  function Shr(x: bv64, n: nat): bv64 { if n == 0 then x else Shr(Half(x), n - 1) }

  predicate Odd(x: bv64) { x & 1 == 1 }

  function Twice(x: bv64): bv64 { x << 1 }

  function Half(x: bv64): bv64 { x >> 1 }

  function And(x: bv64, m: bv64): bv64 { x & m }

  function Or(x: bv64, y: bv64): bv64 { x | y }

  function Wide(v: bv8): bv64 { v as bv64 }

  // ---- words as strings of bits ----

  /** The low `n` bits of x, most significant first. */
  function LowBits(x: bv64, n: nat): (s: seq<bool>)
    ensures |s| == n
  {
    if n == 0 then [] else LowBits(Half(x), n - 1) + [Odd(x)]
  }

  /** x has no bit at or above position n. */
  predicate Fits(x: bv64, n: nat) { if n == 0 then x == 0 else Fits(Half(x), n - 1) }

  predicate AllFit(words: seq<bv8>, width: nat) {
    forall i :: 0 <= i < |words| ==> Fits(Wide(words[i]), width)
  }

  /** All bits of a string of words of the given width. */
  function Bits(words: seq<bv8>, width: nat): (s: seq<bool>)
    ensures |s| == |words| * width
  {
    if words == [] then []
    else Bits(words[..|words| - 1], width) + LowBits(Wide(words[|words| - 1]), width)
  }

  function ZeroBits(n: nat): (s: seq<bool>)
    ensures |s| == n && forall i :: 0 <= i < n ==> !s[i]
  {
    seq(n, _ => false)
  }

  /**
   The grouping that BIP 173 prescribes: the 5-bit words spell the bits of the bytes,
   followed by fewer than five zero bits.
   */
  ghost predicate Groups(words: seq<bv8>, bytes: seq<bv8>) {
    var pad := 5 * |words| - 8 * |bytes|;
    && AllFit(words, 5)
    && 0 <= pad < 5
    && Bits(words, 5) == Bits(bytes, 8) + ZeroBits(pad)
  }

  lemma HalfOf(s: bv64, v: bv64)
    ensures Odd(Or(Twice(s), v)) == Odd(v)
    ensures Half(Or(Twice(s), v)) == And(Or(s, Half(v)), 0x7fff_ffff_ffff_ffff)
  {}

  lemma OrZero(x: bv64)
    ensures Or(x, 0) == x
  {}

  lemma HalfAnd(x: bv64, m: bv64)
    ensures Half(And(x, m)) == And(Half(x), Half(m))
    ensures Odd(m) ==> Odd(And(x, m)) == Odd(x)
  {}

  lemma HalfDetermines(x: bv64, y: bv64)
    requires Half(x) == Half(y) && Odd(x) == Odd(y)
    ensures x == y
  {}

  /** The low n bits of the mask m are set. */
  predicate Covers(m: bv64, n: nat) { n == 0 || (Odd(m) && Covers(Half(m), n - 1)) }

  lemma {:induction false} MaskKeeps(x: bv64, m: bv64, n: nat)
    requires Covers(m, n)
    ensures LowBits(And(x, m), n) == LowBits(x, n)
  {
    if n == 0 {
    } else {
      HalfAnd(x, m);
      MaskKeeps(Half(x), Half(m), n - 1);
    }
  }

  lemma {:induction false} LargerMaskCovers(m: bv64, z: bv64, n: nat)
    requires And(m, z) == z && Covers(z, n)
    ensures Covers(m, n)
  {
    if n == 0 {
    } else {
      HalfAnd(m, z);
      LargerMaskCovers(Half(m), Half(z), n - 1);
    }
  }

  lemma {:induction false} FewerBitsCovered(m: bv64, n: nat, k: nat)
    requires k <= n && Covers(m, n)
    ensures Covers(m, k)
  {
    if k == 0 {
    } else {
      FewerBitsCovered(Half(m), n - 1, k - 1);
    }
  }

  lemma SmallMasks()
    ensures Covers(31, 5) && Covers(255, 8) && Covers(0xfff, 12)
  {
    assert Covers(1, 1) && Covers(3, 2);
    assert Covers(7, 3) && Covers(15, 4);
    assert Covers(31, 5) && Covers(63, 6);
    assert Covers(127, 7) && Covers(255, 8);
    assert Covers(511, 9) && Covers(1023, 10);
    assert Covers(2047, 11);
  }

  /** Twelve bits at most are ever read, so what wraps off the top is never missed. */
  lemma WrapHarmless(x: bv64, n: nat)
    requires n <= 12
    ensures LowBits(And(x, 0x7fff_ffff_ffff_ffff), n) == LowBits(x, n)
  {
    SmallMasks();
    LargerMaskCovers(0x7fff_ffff_ffff_ffff, 0xfff, 12);
    FewerBitsCovered(0x7fff_ffff_ffff_ffff, 12, n);
    MaskKeeps(x, 0x7fff_ffff_ffff_ffff, n);
  }

  lemma OneMoreBit(x: bv64, n: nat, a: seq<bool>, b: seq<bool>)
    requires LowBits(Half(x), n) == a + b
    ensures LowBits(x, n + 1) == a + (b + [Odd(x)])
  {}

  /** Shifting in a k-bit word appends its bits. */
  lemma {:induction false} ShiftInAppends(acc: bv64, v: bv64, n: nat, k: nat)
    requires n + k <= 13 && Fits(v, k)
    ensures LowBits(Or(Shl(acc, k), v), n + k) == LowBits(acc, n) + LowBits(v, k)
  {
    if k == 0 {
      OrZero(acc);
    } else {
      var s := Shl(acc, k - 1);
      HalfOf(s, v);
      WrapHarmless(Or(s, Half(v)), n + k - 1);
      ShiftInAppends(acc, Half(v), n, k - 1);
      OneMoreBit(Or(Twice(s), v), n + k - 1, LowBits(acc, n), LowBits(Half(v), k - 1));
    }
  }

  lemma {:induction false} LowBitsSplit(x: bv64, n: nat, k: nat)
    ensures LowBits(x, n + k) == LowBits(Shr(x, k), n) + LowBits(x, k)
  {
    if k == 0 {
    } else {
      LowBitsSplit(Half(x), n, k - 1);
      OneMoreBit(x, n + k - 1, LowBits(Shr(x, k), n), LowBits(Half(x), k - 1));
    }
  }

  lemma {:induction false} BitsDetermine(x: bv64, y: bv64, n: nat)
    requires Fits(x, n) && Fits(y, n) && LowBits(x, n) == LowBits(y, n)
    ensures x == y
  {
    if n == 0 {
    } else {
      var a, b := LowBits(Half(x), n - 1), LowBits(Half(y), n - 1);
      assert (a + [Odd(x)])[n - 1] == Odd(x) && (b + [Odd(y)])[n - 1] == Odd(y);
      assert a == (a + [Odd(x)])[..n - 1] && b == (b + [Odd(y)])[..n - 1];
      BitsDetermine(Half(x), Half(y), n - 1);
      HalfDetermines(x, y);
    }
  }

  lemma {:induction false} ZeroHasNoBits(n: nat)
    ensures Fits(0, n) && LowBits(0, n) == ZeroBits(n)
  {
    if n == 0 {
    } else {
      ZeroHasNoBits(n - 1);
    }
  }

  lemma {:induction false} MaskFits(x: bv64, m: bv64, n: nat)
    requires Fits(m, n)
    ensures Fits(And(x, m), n)
  {
    if n == 0 {
      assert And(x, 0) == 0;
    } else {
      HalfAnd(x, m);
      MaskFits(Half(x), Half(m), n - 1);
    }
  }

  lemma SmallMasksFit()
    ensures Fits(31, 5) && Fits(255, 8)
  {
    assert Fits(1, 1) && Fits(3, 2);
    assert Fits(7, 3) && Fits(15, 4);
    assert Fits(31, 5) && Fits(63, 6);
    assert Fits(127, 7);
  }

  // ---- the conversion ----

  /** byte(x & maxv). */
  function Emit(x: bv64, maxv: bv64): bv8
    requires maxv <= 255
  {
    (x & maxv) as bv8
  }

  lemma EmitWide(x: bv64, maxv: bv64)
    requires maxv <= 255
    ensures Wide(Emit(x, maxv)) == And(x, maxv)
    ensures Emit(x, maxv) == 0 <==> And(x, maxv) == 0
  {}

  ghost predicate Mask(maxv: bv64, width: nat) {
    maxv <= 255 && Covers(maxv, width) && Fits(maxv, width)
  }

  lemma ByteMask()
    ensures Mask(255, 8)
  {
    SmallMasks();
    SmallMasksFit();
  }

  lemma EmittedWord(x: bv64, maxv: bv64, width: nat)
    requires Mask(maxv, width)
    ensures Fits(Wide(Emit(x, maxv)), width)
    ensures LowBits(Wide(Emit(x, maxv)), width) == LowBits(x, width)
  {
    EmitWide(x, maxv);
    MaskFits(x, maxv, width);
    MaskKeeps(x, maxv, width);
  }

  lemma BitsSnoc(words: seq<bv8>, w: bv8, width: nat)
    ensures Bits(words + [w], width) == Bits(words, width) + LowBits(Wide(w), width)
  {
    assert (words + [w])[..|words + [w]| - 1] == words;
  }

  /** What one word left over, shifted up to full width and masked, spells. */
  lemma PaddedWord(acc: bv64, bits: nat, maxv: bv64, width: nat)
    requires bits <= width <= 8 && Mask(maxv, width)
    ensures LowBits(Wide(Emit(Shl(acc, width - bits), maxv)), width) == LowBits(acc, bits) + ZeroBits(width - bits)
  {
    EmittedWord(Shl(acc, width - bits), maxv, width);
    ZerosAppended(acc, bits, width - bits);
  }

  lemma ZerosAppended(acc: bv64, bits: nat, n: nat)
    requires bits + n <= 13
    ensures LowBits(Shl(acc, n), bits + n) == LowBits(acc, bits) + ZeroBits(n)
  {
    ZeroHasNoBits(n);
    ShiftInAppends(acc, 0, bits, n);
    OrZero(Shl(acc, n));
  }

  /** The padding test of the decoder reads exactly the left-over bits. */
  lemma PaddingTest(acc: bv64, bits: nat)
    requires bits <= 8
    ensures Emit(Shl(acc, 8 - bits), 255) == 0 <==> LowBits(acc, bits) == ZeroBits(bits)
  {
    ByteMask();
    PaddingIsZero(acc, bits, 255, 8);
  }

  lemma PaddingIsZero(acc: bv64, bits: nat, maxv: bv64, width: nat)
    requires bits <= width <= 8 && Mask(maxv, width)
    ensures Emit(Shl(acc, width - bits), maxv) == 0 <==> LowBits(acc, bits) == ZeroBits(bits)
  {
    PaddedWord(acc, bits, maxv, width);
    EmittedWord(Shl(acc, width - bits), maxv, width);
    ZeroWord(Emit(Shl(acc, width - bits), maxv), width);
    ZerosOnly(LowBits(acc, bits), width - bits);
  }

  lemma ZerosOnly(left: seq<bool>, n: nat)
    ensures left + ZeroBits(n) == ZeroBits(|left| + n) <==> left == ZeroBits(|left|)
  {
    assert ZeroBits(|left|) + ZeroBits(n) == ZeroBits(|left| + n);
    assert left == (left + ZeroBits(n))[..|left|] && ZeroBits(|left|) == ZeroBits(|left| + n)[..|left|];
  }

  lemma ZeroWord(w: bv8, width: nat)
    requires Fits(Wide(w), width)
    ensures w == 0 <==> LowBits(Wide(w), width) == ZeroBits(width)
  {
    ZeroHasNoBits(width);
    WideZero(w);
    if LowBits(Wide(w), width) == ZeroBits(width) {
      ZeroFits(width);
      BitsDetermine(Wide(w), 0, width);
    }
  }

  lemma {:induction false} ZeroFits(width: nat)
    ensures Fits(0, width)
  {
    if width == 0 {
    } else {
      ZeroFits(width - 1);
    }
  }

  lemma WideZero(w: bv8)
    ensures Wide(w) == 0 <==> w == 0
  {}

  lemma ByteFits(v: bv8)
    ensures Fits(Wide(v), 8)
  {
    SmallMasksFit();
    MaskFits(Wide(v), 255, 8);
    assert And(Wide(v), 255) == Wide(v);
  }

  /** The words put out and the bits left in the accumulator spell what was taken in. */
  ghost predicate Spells(taken: seq<bool>, out: seq<bv8>, width: nat, acc: bv64, bits: nat) {
    AllFit(out, width) && Bits(out, width) + LowBits(acc, bits) == taken
  }

  lemma TakeWord(taken: seq<bool>, out: seq<bv8>, width: nat, acc: bv64, bits: nat, v: bv8, from: nat)
    requires Spells(taken, out, width, acc, bits) && bits + from <= 13 && Fits(Wide(v), from)
    ensures Spells(taken + LowBits(Wide(v), from), out, width, Or(Shl(acc, from), Wide(v)), bits + from)
  {
    ShiftInAppends(acc, Wide(v), bits, from);
  }

  lemma TakeNextWord(data: seq<bv8>, i: nat, out: seq<bv8>, width: nat, acc: bv64, bits: nat, from: nat)
    requires i < |data| && AllFit(data, from) && bits + from <= 13
    requires Spells(Bits(data[..i], from), out, width, acc, bits)
    ensures Spells(Bits(data[..i + 1], from), out, width, Or(Shl(acc, from), Wide(data[i])), bits + from)
  {
    assert data[..i + 1] == data[..i] + [data[i]];
    BitsSnoc(data[..i], data[i], from);
    TakeWord(Bits(data[..i], from), out, width, acc, bits, data[i], from);
  }

  lemma PutWord(taken: seq<bool>, out: seq<bv8>, width: nat, acc: bv64, bits: nat, maxv: bv64)
    requires Spells(taken, out, width, acc, bits + width) && Mask(maxv, width)
    ensures Spells(taken, out + [Emit(Shr(acc, bits), maxv)], width, acc, bits)
  {
    var w := Emit(Shr(acc, bits), maxv);
    LowBitsSplit(acc, width, bits);
    EmittedWord(Shr(acc, bits), maxv, width);
    BitsSnoc(out, w, width);
    Associates(Bits(out, width), LowBits(Wide(w), width), LowBits(acc, bits));
  }

  lemma Associates(a: seq<bool>, b: seq<bool>, c: seq<bool>)
    ensures a + (b + c) == (a + b) + c
  {}

  lemma PutPadded(taken: seq<bool>, out: seq<bv8>, width: nat, acc: bv64, bits: nat, maxv: bv64)
    requires Spells(taken, out, width, acc, bits) && bits <= width <= 8 && Mask(maxv, width)
    ensures AllFit(out + [Emit(Shl(acc, width - bits), maxv)], width)
    ensures Bits(out + [Emit(Shl(acc, width - bits), maxv)], width) == taken + ZeroBits(width - bits)
  {
    PaddedWord(acc, bits, maxv, width);
    EmittedWord(Shl(acc, width - bits), maxv, width);
    BitsSnoc(out, Emit(Shl(acc, width - bits), maxv), width);
  }

  /** A word string groups some bytes only if its left-over bits are fewer than five and zero. */
  lemma LeftOver(data: seq<bv8>, out: seq<bv8>, acc: bv64, bits: nat, bytes: seq<bv8>)
    requires Spells(Bits(data, 5), out, 8, acc, bits) && bits < 8 && Groups(data, bytes)
    ensures bits < 5 && LowBits(acc, bits) == ZeroBits(bits)
  {
    var p := ZeroBits(5 * |data| - 8 * |bytes|);
    assert |out| == |bytes|;
    assert LowBits(acc, bits) == (Bits(out, 8) + LowBits(acc, bits))[8 * |out|..];
    assert p == (Bits(bytes, 8) + p)[8 * |bytes|..];
  }

  /** The loops of bech32ConvertBits: every word in, every full word out. */
  method Shuffle(data: seq<bv8>, fromBits: nat, toBits: nat, maxv: bv64)
    returns (out: seq<bv8>, acc: bv64, bits: nat)
    requires 0 < toBits && toBits + fromBits <= 13
    requires AllFit(data, fromBits) && Mask(maxv, toBits)
    ensures bits < toBits && Spells(Bits(data, fromBits), out, toBits, acc, bits)
  {
    out, acc, bits := [], 0, 0;
    NothingSpelled(data, fromBits, toBits);
    for i := 0 to |data|
      invariant bits < toBits && Spells(Bits(data[..i], fromBits), out, toBits, acc, bits)
    {
      out, acc, bits := ShuffleWord(data, i, out, acc, bits, fromBits, toBits, maxv);
    }
    assert data[..|data|] == data;
  }

  lemma NothingSpelled(data: seq<bv8>, fromBits: nat, toBits: nat)
    ensures Spells(Bits(data[..0], fromBits), [], toBits, 0, 0)
  {
    assert data[..0] == [];
  }

  /** One word in, and every full word out. */
  method ShuffleWord(data: seq<bv8>, i: nat, out0: seq<bv8>, acc0: bv64, bits0: nat, fromBits: nat, toBits: nat,
                     maxv: bv64)
    returns (out: seq<bv8>, acc: bv64, bits: nat)
    requires i < |data| && bits0 < toBits && toBits + fromBits <= 13
    requires AllFit(data, fromBits) && Mask(maxv, toBits)
    requires Spells(Bits(data[..i], fromBits), out0, toBits, acc0, bits0)
    ensures bits < toBits && Spells(Bits(data[..i + 1], fromBits), out, toBits, acc, bits)
  {
    TakeNextWord(data, i, out0, toBits, acc0, bits0, fromBits);
    acc := Or(Shl(acc0, fromBits), Wide(data[i]));
    out, bits := PutWords(Bits(data[..i + 1], fromBits), out0, acc, bits0 + fromBits, toBits, maxv);
  }

  /** The inner loop. */
  method PutWords(ghost taken: seq<bool>, out0: seq<bv8>, acc: bv64, bits0: nat, toBits: nat, maxv: bv64)
    returns (out: seq<bv8>, bits: nat)
    requires 0 < toBits && Mask(maxv, toBits) && Spells(taken, out0, toBits, acc, bits0)
    ensures bits < toBits && Spells(taken, out, toBits, acc, bits)
  {
    out, bits := out0, bits0;
    while bits >= toBits
      invariant Spells(taken, out, toBits, acc, bits)
    {
      bits := bits - toBits;
      PutWord(taken, out, toBits, acc, bits, maxv);
      out := out + [Emit(Shr(acc, bits), maxv)];
    }
  }

  /** bech32ConvertBits, in the two ways it is called: 8 to 5 with padding, 5 to 8 without. */
  method ConvertBits(data: seq<bv8>, fromBits: nat, toBits: nat, pad: bool) returns (r: Option<seq<bv8>>)
    requires (fromBits == 8 && toBits == 5 && pad) || (fromBits == 5 && toBits == 8 && !pad)
    requires AllFit(data, fromBits)
    ensures pad ==> r.Some? && Groups(r.value, data)
    ensures !pad && r.Some? ==> Groups(data, r.value)
    ensures !pad && r.None? ==> forall bytes :: !Groups(data, bytes)
  {
    SmallMasks();
    SmallMasksFit();
    if pad {
      var out, acc, bits := Shuffle(data, fromBits, toBits, 31);
      if bits > 0 {
        PutPadded(Bits(data, 8), out, toBits, acc, bits, 31);
        out := out + [Emit(Shl(acc, toBits - bits), 31)];
      } else {
        assert Bits(out, 5) == Bits(data, 8) + ZeroBits(0);
      }
      return Some(out);
    } else {
      var out, acc, bits := Shuffle(data, fromBits, toBits, 255);
      PaddingTest(acc, bits);
      if bits >= fromBits || Emit(Shl(acc, toBits - bits), 255) != 0 {
        forall bytes | Groups(data, bytes) ensures false {
          LeftOver(data, out, acc, bits, bytes);
        }
        return None;
      }
      return Some(out);
    }
  }

  // ---- the grouping is one-to-one ----

  lemma {:induction false} WordsDetermined(a: seq<bv8>, b: seq<bv8>, width: nat)
    requires AllFit(a, width) && AllFit(b, width) && |a| == |b| && Bits(a, width) == Bits(b, width)
    ensures a == b
  {
    if a == [] {
    } else {
      var n := |a| - 1;
      SameHalves(Bits(a[..n], width), LowBits(Wide(a[n]), width), Bits(b[..n], width), LowBits(Wide(b[n]), width));
      WordsDetermined(a[..n], b[..n], width);
      BitsDetermine(Wide(a[n]), Wide(b[n]), width);
      WideInjective(a[n], b[n]);
      assert a == a[..n] + [a[n]] && b == b[..n] + [b[n]];
    }
  }

  lemma SameHalves(a: seq<bool>, b: seq<bool>, c: seq<bool>, d: seq<bool>)
    requires a + b == c + d && |a| == |c|
    ensures a == c && b == d
  {
    assert a == (a + b)[..|a|] && c == (c + d)[..|c|];
    assert b == (a + b)[|a|..] && d == (c + d)[|c|..];
  }

  lemma WideInjective(v: bv8, w: bv8)
    requires Wide(v) == Wide(w)
    ensures v == w
  {}

  lemma BytesFit(bytes: seq<bv8>)
    ensures AllFit(bytes, 8)
  {
    forall i | 0 <= i < |bytes| ensures Fits(Wide(bytes[i]), 8) { ByteFits(bytes[i]); }
  }

  lemma GroupsUnique(words: seq<bv8>, bytes: seq<bv8>, words': seq<bv8>, bytes': seq<bv8>)
    requires Groups(words, bytes) && Groups(words', bytes')
    ensures words == words' <==> bytes == bytes'
  {
    BytesFit(bytes);
    BytesFit(bytes');
    if words == words' {
      assert Bits(bytes, 8) == Bits(words, 5)[..8 * |bytes|];
      assert Bits(bytes', 8) == Bits(words, 5)[..8 * |bytes|];
      WordsDetermined(bytes, bytes', 8);
    } else if bytes == bytes' {
      WordsDetermined(words, words', 5);
    }
  }
}
