/**
 How an address is written: every character of it stated on the charset and the bits
 of the address, and a whole address of BIP 173 read back.
 */
module Bech32Spelling {
  import opened Bech32
  import opened Bech32Checksum
  import opened Bech32Regroup
  import opened Options

  const CHARSET: string := "qpzry9x8gf2tvdw0s3jn54khce6mua7l"

  /** The text consists of these characters. */
  ghost predicate Reads(t: Text, s: string) {
    |t| == |s| && forall i :: 0 <= i < |s| ==> t[i] as int == s[i] as int
  }

  function Place(k: nat): bv8 {
    if k == 0 then 0x80 else if k == 1 then 0x40 else if k == 2 then 0x20 else if k == 3 then 0x10
    else if k == 4 then 8 else if k == 5 then 4 else if k == 6 then 2 else 1
  }

  /** Bit j of the bytes, counted from the most significant bit of the first; past the end, zero. */
  predicate BitOf(data: seq<bv8>, j: nat) { j < 8 * |data| && data[j / 8] & Place(j % 8) != 0 }

  /** The number that five bits spell. */
  function Number(a: bool, b: bool, c: bool, d: bool, e: bool): (n: nat)
    ensures n < 32
  {
    (if a then 16 else 0) + (if b then 8 else 0) + (if c then 4 else 0) + (if d then 2 else 0) + (if e then 1 else 0)
  }

  /** The i-th group of five bits of the bytes. */
  function GroupOf(data: seq<bv8>, i: nat): (n: nat)
    ensures n < 32
  {
    Number(BitOf(data, 5 * i), BitOf(data, 5 * i + 1), BitOf(data, 5 * i + 2), BitOf(data, 5 * i + 3),
           BitOf(data, 5 * i + 4))
  }

  lemma Odds(x: bv64)
    ensures Odd(Half(x)) == (x & 2 != 0) && Odd(Half(Half(x))) == (x & 4 != 0)
    ensures Odd(Half(Half(Half(x)))) == (x & 8 != 0) && Odd(Half(Half(Half(Half(x))))) == (x & 16 != 0)
    ensures Odd(x) == (x & 1 != 0)
  {}

  lemma FiveLowBits(x: bv64)
    ensures LowBits(x, 5) ==
      [Odd(Half(Half(Half(Half(x))))), Odd(Half(Half(Half(x)))), Odd(Half(Half(x))), Odd(Half(x)), Odd(x)]
  {
    var y := Half(Half(x));
    ThreeLowBits(y);
    assert LowBits(Half(x), 4) == LowBits(y, 3) + [Odd(Half(x))];
    assert LowBits(x, 5) == LowBits(Half(x), 4) + [Odd(x)];
  }

  lemma WideBits(v: bv8)
    ensures (Wide(v) & 16 != 0) == (v & 16 != 0) && (Wide(v) & 8 != 0) == (v & 8 != 0)
    ensures (Wide(v) & 4 != 0) == (v & 4 != 0) && (Wide(v) & 2 != 0) == (v & 2 != 0)
    ensures (Wide(v) & 1 != 0) == (v & 1 != 0)
  {}

  lemma WordBits(v: bv8)
    ensures LowBits(Wide(v), 5) == [v & 16 != 0, v & 8 != 0, v & 4 != 0, v & 2 != 0, v & 1 != 0]
  {
    FiveLowBits(Wide(v));
    Odds(Wide(v));
    WideBits(v);
  }

  lemma TopBits(v: bv8)
    ensures Odd(Half(Half(Half(Half(Half(Wide(v))))))) == (v & 32 != 0)
    ensures Odd(Half(Half(Half(Half(Half(Half(Wide(v)))))))) == (v & 64 != 0)
    ensures Odd(Half(Half(Half(Half(Half(Half(Half(Wide(v))))))))) == (v & 128 != 0)
  {}

  lemma ByteBits(v: bv8)
    ensures LowBits(Wide(v), 8) ==
      [v & 128 != 0, v & 64 != 0, v & 32 != 0] + [v & 16 != 0, v & 8 != 0, v & 4 != 0, v & 2 != 0, v & 1 != 0]
  {
    LowBitsSplit(Wide(v), 3, 5);
    FiveShifts(Wide(v));
    ThreeLowBits(Half(Half(Half(Half(Half(Wide(v)))))));
    TopBits(v);
    WordBits(v);
  }

  lemma FiveShifts(x: bv64)
    ensures Shr(x, 5) == Half(Half(Half(Half(Half(x)))))
  {
    var y := Half(Half(Half(x)));
    assert Shr(Half(x), 4) == Shr(Half(Half(x)), 3) == Shr(y, 2);
    assert Shr(y, 2) == Shr(Half(y), 1) == Shr(Half(Half(y)), 0);
  }

  lemma ThreeLowBits(x: bv64)
    ensures LowBits(x, 3) == [Odd(Half(Half(x))), Odd(Half(x)), Odd(x)]
  {
    assert LowBits(Half(Half(x)), 1) == [Odd(Half(Half(x)))];
    assert LowBits(Half(x), 2) == LowBits(Half(Half(x)), 1) + [Odd(Half(x))];
  }

  lemma PlacedBit(v: bv8, k: nat)
    requires k < 8
    ensures LowBits(Wide(v), 8)[k] == (v & Place(k) != 0)
  {
    ByteBits(v);
  }

  lemma {:induction false} ByteBit(data: seq<bv8>, i: nat, k: nat)
    requires i < |data| && k < 8
    ensures 8 * i + k < 8 * |data| && Bits(data, 8)[8 * i + k] == LowBits(Wide(data[i]), 8)[k]
  {
    var n := |data| - 1;
    if i < n {
      ByteBit(data[..n], i, k);
    }
  }

  lemma DataBit(data: seq<bv8>, j: nat)
    requires j < 8 * |data|
    ensures Bits(data, 8)[j] == BitOf(data, j)
  {
    ByteBit(data, j / 8, j % 8);
    PlacedBit(data[j / 8], j % 8);
  }

  /** The bits of the symbols that encode the bytes are the bits of the bytes, then zeros. */
  lemma GroupedBit(words: seq<bv8>, data: seq<bv8>, j: nat)
    requires Groups(words, data) && j < 5 * |words|
    ensures Bits(words, 5)[j] == BitOf(data, j)
  {
    if j < 8 * |data| {
      DataBit(data, j);
    }
  }

  lemma {:induction false} WordBit(words: seq<bv8>, i: nat, k: nat)
    requires i < |words| && k < 5
    ensures 5 * i + k < 5 * |words| && Bits(words, 5)[5 * i + k] == LowBits(Wide(words[i]), 5)[k]
  {
    var n := |words| - 1;
    if i < n {
      WordBit(words[..n], i, k);
    }
  }

  function NumberOf(v: bv8): (n: nat)
    ensures n < 32
  {
    Number(v & 16 != 0, v & 8 != 0, v & 4 != 0, v & 2 != 0, v & 1 != 0)
  }

  lemma GroupSpelled(words: seq<bv8>, data: seq<bv8>, i: nat)
    requires Groups(words, data) && i < |words|
    ensures NumberOf(words[i]) == GroupOf(data, i)
  {
    forall k | 0 <= k < 5 ensures LowBits(Wide(words[i]), 5)[k] == BitOf(data, 5 * i + k) {
      SymbolBit(words, data, i, k);
    }
    SameNumber(words[i], data, i);
  }

  lemma SymbolBit(words: seq<bv8>, data: seq<bv8>, i: nat, k: nat)
    requires Groups(words, data) && i < |words| && k < 5
    ensures LowBits(Wide(words[i]), 5)[k] == BitOf(data, 5 * i + k)
  {
    WordBit(words, i, k);
    GroupedBit(words, data, 5 * i + k);
  }

  lemma SameNumber(v: bv8, data: seq<bv8>, i: nat)
    requires forall k :: 0 <= k < 5 ==> LowBits(Wide(v), 5)[k] == BitOf(data, 5 * i + k)
    ensures NumberOf(v) == GroupOf(data, i)
  {
    var b := LowBits(Wide(v), 5);
    BitsOfNumber(v);
    assert b[0] == BitOf(data, 5 * i) && b[1] == BitOf(data, 5 * i + 1) && b[2] == BitOf(data, 5 * i + 2);
    assert b[3] == BitOf(data, 5 * i + 3) && b[4] == BitOf(data, 5 * i + 4);
  }

  lemma BitsOfNumber(v: bv8)
    ensures
      var b := LowBits(Wide(v), 5);
      NumberOf(v) == Number(b[0], b[1], b[2], b[3], b[4])
  {
    WordBits(v);
  }

  lemma SymbolIsNumber(v: bv8)
    requires v < 32
    ensures CharOf(v) as int == CHARSET[NumberOf(v)] as int
  {
    if v < 8 {
      SymbolFirst(v);
    } else if v < 16 {
      SymbolSecond(v);
    } else if v < 24 {
      SymbolThird(v);
    } else {
      SymbolLast(v);
    }
  }

  lemma SymbolFirst(v: bv8)
    requires v < 8
    ensures CharOf(v) as int == CHARSET[NumberOf(v)] as int
  {}

  lemma SymbolSecond(v: bv8)
    requires 8 <= v < 16
    ensures CharOf(v) as int == CHARSET[NumberOf(v)] as int
  {}

  lemma SymbolThird(v: bv8)
    requires 16 <= v < 24
    ensures CharOf(v) as int == CHARSET[NumberOf(v)] as int
  {}

  lemma SymbolLast(v: bv8)
    requires 24 <= v < 32
    ensures CharOf(v) as int == CHARSET[NumberOf(v)] as int
  {}

  lemma GroupCount(words: seq<bv8>, data: seq<bv8>)
    requires Groups(words, data)
    ensures |words| == (8 * |data| + 4) / 5
  {}

  lemma EncodedChar(t: Text, hrp: Text, words: seq<bv8>, data: seq<bv8>, i: nat)
    requires EncodedBy(t, hrp, words, data) && i < |words|
    ensures |hrp| + 1 + i < |t| && t[|hrp| + 1 + i] as int == CHARSET[GroupOf(data, i)] as int
  {
    Parts(t, hrp, words, data);
    assert t[|hrp| + 1..][i] == CharOf(words[i]);
    SymbolIsNumber(words[i]);
    GroupSpelled(words, data, i);
  }

  /**
   Every character of an address: the prefix, a '1', and then for each group of five bits
   of the bytes, the last one filled up with zeros, the character of the charset at the
   number those bits spell. Six more characters follow.
   */
  lemma EncodedSpelling(t: Text, hrp: Text, data: seq<bv8>)
    requires Encodes(t, hrp, data)
    ensures
      var n := (8 * |data| + 4) / 5;
      && |t| == |hrp| + 1 + n + 6 && t[..|hrp|] == hrp && t[|hrp|] as int == '1' as int
      && forall i :: 0 <= i < n ==> t[|hrp| + 1 + i] as int == CHARSET[GroupOf(data, i)] as int
  {
    var words :| EncodedBy(t, hrp, words, data);
    GroupCount(words, data);
    Parts(t, hrp, words, data);
    assert |t| == |hrp| + 1 + |words| + 6;
    forall i | 0 <= i < |words| ensures t[|hrp| + 1 + i] as int == CHARSET[GroupOf(data, i)] as int {
      EncodedChar(t, hrp, words, data, i);
    }
  }

  lemma {:induction false} LeftTrimmed(s: Text) returns (i: nat)
    ensures i <= |s| && TrimLeft(s) == s[i..] && forall k :: 0 <= k < i ==> Space(s[k])
    ensures i < |s| ==> !Space(s[i])
  {
    if s != [] && Space(s[0]) {
      i := LeftTrimmed(s[1..]);
      assert s[1..][i..] == s[i + 1..];
      assert forall k :: 0 < k <= i ==> s[k] == s[1..][k - 1];
      i := i + 1;
    } else {
      i := 0;
    }
  }

  lemma {:induction false} RightTrimmed(s: Text) returns (j: nat)
    ensures j <= |s| && TrimRight(s) == s[..j] && forall k :: j <= k < |s| ==> Space(s[k])
    ensures j > 0 ==> !Space(s[j - 1])
  {
    j := |s|;
    if s != [] && Space(s[|s| - 1]) {
      var init := s[..|s| - 1];
      j := RightTrimmed(init);
      assert init[..j] == s[..j];
      assert forall k :: 0 <= k < |init| ==> s[k] == init[k];
    }
  }

  /**
   What is decoded of a text: all of it but the white space at both ends, with capitals
   made small.
   */
  lemma NormalizedSpelling(s: Text) returns (i: nat, j: nat)
    ensures i <= j <= |s| && |Normalize(s)| == j - i
    ensures forall k :: 0 <= k < i || j <= k < |s| ==> 0x09 <= s[k] <= 0x0d || s[k] == 0x20
    ensures i < j ==> !(0x09 <= s[i] <= 0x0d || s[i] == 0x20) && !(0x09 <= s[j - 1] <= 0x0d || s[j - 1] == 0x20)
    ensures forall k :: i <= k < j ==> Normalize(s)[k - i] == if 0x41 <= s[k] <= 0x5a then s[k] + 0x20 else s[k]
  {
    i := LeftTrimmed(s);
    var n := RightTrimmed(s[i..]);
    j := i + n;
    assert s[i..][..n] == s[i..j];
    forall k | i <= k < j ensures Normalize(s)[k - i] == if 0x41 <= s[k] <= 0x5a then s[k] + 0x20 else s[k] {
      SmallLetter(s[k]);
      assert s[i..j][k - i] == s[k];
    }
    forall k | j <= k < |s| ensures Space(s[k]) { assert s[k] == s[i..][k - i]; }
    assert i < j ==> s[i..][n - 1] == s[j - 1];
  }

  lemma SmallLetter(b: bv8)
    ensures LowerByte(b) == if 0x41 <= b <= 0x5a then b + 0x20 else b
  {}

  // ---- an address of BIP 173 ----

  lemma VectorFirst(fed: seq<bv8>)
    requires Run(1, fed) == 0x1
    ensures Run(1, fed + [3, 3, 3, 3, 3, 3, 0, 1, 2]) == 0x17456f7b
  {
    Feed(fed, 0x1, 3, 0x23, 3, 0x463, 3, 0x8c63);
    Feed(fed + [3, 3, 3], 0x8c63, 3, 0x118c63, 3, 0x2318c63, 3, 0x3d5bdbd1);
    Feed(fed + [3, 3, 3] + [3, 3, 3], 0x3d5bdbd1, 0, 0x4dcbcd9, 1, 0x3dc7154c, 2, 0x17456f7b);
    assert fed + [3, 3, 3, 3, 3, 3, 0, 1, 2] == fed + [3, 3, 3] + [3, 3, 3] + [0, 1, 2];
  }

  lemma VectorSecond(fed: seq<bv8>)
    requires Run(1, fed) == 0x17456f7b
    ensures Run(1, fed + [3, 4, 5, 6, 0, 1, 2, 3, 4]) == 0x28db67b3
  {
    Feed(fed, 0x17456f7b, 3, 0x8d50561, 4, 0x401b5de, 5, 0x266635a8);
    Feed(fed + [3, 4, 5], 0x266635a8, 6, 0x3be80e6a, 0, 0xf9cd266, 1, 0x30018ce4);
    Feed(fed + [3, 4, 5] + [6, 0, 1], 0x30018ce4, 2, 0x1767cdec, 3, 0xc815781, 4, 0x28db67b3);
    assert fed + [3, 4, 5, 6, 0, 1, 2, 3, 4] == fed + [3, 4, 5] + [6, 0, 1] + [2, 3, 4];
  }

  lemma VectorThird(fed: seq<bv8>)
    requires Run(1, fed) == 0x28db67b3
    ensures Run(1, fed + [5, 6, 7, 8, 9, 10, 11, 12, 13]) == 0x212c0d6a
  {
    Feed(fed, 0x28db67b3, 5, 0x2fd98d2c, 6, 0x12be0710, 7, 0x11e88668);
    Feed(fed + [5, 6, 7], 0x11e88668, 8, 0x52fed5, 9, 0xa5fdaa9, 10, 0x2e301b62);
    Feed(fed + [5, 6, 7] + [8, 9, 10], 0x2e301b62, 11, 0x2f8ccedd, 12, 0x1816793a, 13, 0x212c0d6a);
    assert fed + [5, 6, 7, 8, 9, 10, 11, 12, 13] == fed + [5, 6, 7] + [8, 9, 10] + [11, 12, 13];
  }

  lemma VectorFourth(fed: seq<bv8>)
    requires Run(1, fed) == 0x212c0d6a
    ensures Run(1, fed + [14, 15, 16, 17, 18, 19, 20, 21, 22]) == 0xc8c6efb
  {
    Feed(fed, 0x212c0d6a, 14, 0xf95cffd, 15, 0x31223f8a, 16, 0x3311a03e);
    Feed(fed + [14, 15, 16], 0x3311a03e, 17, 0xe08010d, 18, 0x29be197, 19, 0x28166541);
    Feed(fed + [14, 15, 16] + [17, 18, 19], 0x28166541, 20, 0x3679d37d, 21, 0x556e704, 22, 0xc8c6efb);
    assert fed + [14, 15, 16, 17, 18, 19, 20, 21, 22] == fed + [14, 15, 16] + [17, 18, 19] + [20, 21, 22];
  }

  lemma VectorFifth(fed: seq<bv8>)
    requires Run(1, fed) == 0xc8c6efb
    ensures Run(1, fed + [23, 24, 25, 26, 27, 28, 29, 30, 31]) == 0x1a0d3656
  {
    Feed(fed, 0xc8c6efb, 23, 0x297c48e0, 24, 0x1b3c6751, 25, 0x3f0597ac);
    Feed(fed + [23, 24, 25], 0x3f0597ac, 26, 0x347f64d1, 27, 0x3eea4538, 28, 0x9853657);
    Feed(fed + [23, 24, 25] + [26, 27, 28], 0x9853657, 29, 0x2e07d307, 30, 0x2975c268, 31, 0x1a0d3656);
    assert fed + [23, 24, 25, 26, 27, 28, 29, 30, 31] == fed + [23, 24, 25] + [26, 27, 28] + [29, 30, 31];
  }

  lemma VectorSixth(fed: seq<bv8>)
    requires Run(1, fed) == 0x1a0d3656
    ensures Run(1, fed + [27, 0, 0, 0, 6, 14]) == 0x1
  {
    Feed(fed, 0x1a0d3656, 27, 0x192fb74e, 0, 0x615c3e7, 0, 0x1f82a53f);
    Feed(fed + [27, 0, 0], 0x1f82a53f, 0, 0xe8d5418, 6, 0x12314323, 14, 0x1);
    assert fed + [27, 0, 0, 0, 6, 14] == fed + [27, 0, 0] + [0, 6, 14];
  }

  lemma NumberInjective(a: bool, b: bool, c: bool, d: bool, e: bool, a': bool, b': bool, c': bool, d': bool, e': bool)
    requires Number(a, b, c, d, e) == Number(a', b', c', d', e')
    ensures a == a' && b == b' && c == c' && d == d' && e == e'
  {}

  lemma GroupedBits(words: seq<bv8>, data: seq<bv8>, i: nat, k: nat)
    requires i < |words| && k < 5 && NumberOf(words[i]) == GroupOf(data, i)
    ensures 5 * i + k < 5 * |words| && Bits(words, 5)[5 * i + k] == BitOf(data, 5 * i + k)
  {
    NumberBits(words[i], BitOf(data, 5 * i), BitOf(data, 5 * i + 1), BitOf(data, 5 * i + 2), BitOf(data, 5 * i + 3),
               BitOf(data, 5 * i + 4));
    WordBit(words, i, k);
    KthBit(LowBits(Wide(words[i]), 5), data, i, k);
  }

  lemma KthBit(b: seq<bool>, data: seq<bv8>, i: nat, k: nat)
    requires |b| == 5 && k < 5
    requires b[0] == BitOf(data, 5 * i) && b[1] == BitOf(data, 5 * i + 1) && b[2] == BitOf(data, 5 * i + 2)
    requires b[3] == BitOf(data, 5 * i + 3) && b[4] == BitOf(data, 5 * i + 4)
    ensures b[k] == BitOf(data, 5 * i + k)
  {
    if k == 0 {
    } else if k == 1 {
    } else if k == 2 {
    } else if k == 3 {
    } else {
    }
  }

  lemma NumberBits(v: bv8, a: bool, b: bool, c: bool, d: bool, e: bool)
    requires NumberOf(v) == Number(a, b, c, d, e)
    ensures
      var s := LowBits(Wide(v), 5);
      s[0] == a && s[1] == b && s[2] == c && s[3] == d && s[4] == e
  {
    var s := LowBits(Wide(v), 5);
    BitsOfNumber(v);
    NumberInjective(s[0], s[1], s[2], s[3], s[4], a, b, c, d, e);
  }

  lemma PaddedBit(data: seq<bv8>, pad: nat, j: nat)
    requires j < 8 * |data| + pad
    ensures (Bits(data, 8) + ZeroBits(pad))[j] == BitOf(data, j)
  {
    if j < 8 * |data| {
      DataBit(data, j);
    }
  }

  /** The symbols that encode the bytes are the numbers of their groups of five bits. */
  lemma GroupsIff(words: seq<bv8>, data: seq<bv8>)
    requires Symbols(words)
    ensures Groups(words, data) <==>
      |words| == (8 * |data| + 4) / 5 && forall i :: 0 <= i < |words| ==> NumberOf(words[i]) == GroupOf(data, i)
  {
    if Groups(words, data) {
      forall i | 0 <= i < |words| ensures NumberOf(words[i]) == GroupOf(data, i) { GroupSpelled(words, data, i); }
    } else if
      |words| == (8 * |data| + 4) / 5 && forall i :: 0 <= i < |words| ==> NumberOf(words[i]) == GroupOf(data, i) {
      NumbersGroup(words, data);
    }
  }

  lemma NumbersGroup(words: seq<bv8>, data: seq<bv8>)
    requires Symbols(words) && |words| == (8 * |data| + 4) / 5
    requires forall i :: 0 <= i < |words| ==> NumberOf(words[i]) == GroupOf(data, i)
    ensures Groups(words, data)
  {
    var pad := 5 * |words| - 8 * |data|;
    var bits, padded := Bits(words, 5), Bits(data, 8) + ZeroBits(pad);
    forall j | 0 <= j < |bits| ensures bits[j] == padded[j] {
      assert j == 5 * (j / 5) + j % 5;
      GroupedBits(words, data, j / 5, j % 5);
      PaddedBit(data, pad, j);
    }
    SymbolsFit(words);
  }

  predicate BitIn(b: bv8, next: bv8, k: nat) { if k < 8 then b & Place(k) != 0 else next & Place(k - 8) != 0 }

  /** A group that starts at bit k of byte p. */
  lemma Group(data: seq<bv8>, i: nat, p: nat, k: nat, b: bv8, next: bv8)
    requires 5 * i == 8 * p + k && k < 8 && p < |data| && data[p] == b
    requires k > 3 ==> p + 1 < |data| && data[p + 1] == next
    ensures GroupOf(data, i) == Number(BitIn(b, next, k), BitIn(b, next, k + 1), BitIn(b, next, k + 2),
                                       BitIn(b, next, k + 3), BitIn(b, next, k + 4))
  {
    BitAt(data, p, k, 5 * i, b, next);
    BitAt(data, p, k + 1, 5 * i + 1, b, next);
    BitAt(data, p, k + 2, 5 * i + 2, b, next);
    BitAt(data, p, k + 3, 5 * i + 3, b, next);
    BitAt(data, p, k + 4, 5 * i + 4, b, next);
    GroupIs(data, i, BitIn(b, next, k), BitIn(b, next, k + 1), BitIn(b, next, k + 2), BitIn(b, next, k + 3),
            BitIn(b, next, k + 4));
  }

  lemma GroupIs(data: seq<bv8>, i: nat, a: bool, b: bool, c: bool, d: bool, e: bool)
    requires BitOf(data, 5 * i) == a && BitOf(data, 5 * i + 1) == b && BitOf(data, 5 * i + 2) == c
    requires BitOf(data, 5 * i + 3) == d && BitOf(data, 5 * i + 4) == e
    ensures GroupOf(data, i) == Number(a, b, c, d, e)
  {}

  lemma BitAt(data: seq<bv8>, p: nat, k: nat, j: nat, b: bv8, next: bv8)
    requires j == 8 * p + k && k < 16 && p < |data| && data[p] == b
    requires k >= 8 ==> p + 1 < |data| && data[p + 1] == next
    ensures BitOf(data, j) == BitIn(b, next, k)
  {
    if k < 8 {
      ByteAndBit(p, k, j);
    } else {
      ByteAndBit(p + 1, k - 8, j);
    }
  }

  lemma ByteAndBit(p: nat, k: nat, j: nat)
    requires j == 8 * p + k && k < 8
    ensures j / 8 == p && j % 8 == k
  {}

  lemma FirstGroups(data: seq<bv8>, i: nat)
    requires |data| >= 5 && data[0] == 0x00 && data[1] == 0x44 && data[2] == 0x32 && data[3] == 0x14 && data[4] == 0xc7
    requires 0 <= i < 8
    ensures GroupOf(data, i) == i
  {
    if i == 0 {
      Group(data, 0, 0, 0, 0x00, 0);
    } else if i == 1 {
      Group(data, 1, 0, 5, 0x00, 0x44);
    } else if i == 2 {
      Group(data, 2, 1, 2, 0x44, 0);
    } else if i == 3 {
      Group(data, 3, 1, 7, 0x44, 0x32);
    } else if i == 4 {
      Group(data, 4, 2, 4, 0x32, 0x14);
    } else if i == 5 {
      Group(data, 5, 3, 1, 0x14, 0);
    } else if i == 6 {
      Group(data, 6, 3, 6, 0x14, 0xc7);
    } else {
      Group(data, 7, 4, 3, 0xc7, 0);
    }
  }

  lemma SecondGroups(data: seq<bv8>, i: nat)
    requires |data| >= 10 && data[5] == 0x42 && data[6] == 0x54 && data[7] == 0xb6 && data[8] == 0x35 && data[9] == 0xcf
    requires 8 <= i < 16
    ensures GroupOf(data, i) == i
  {
    if i == 8 {
      Group(data, 8, 5, 0, 0x42, 0);
    } else if i == 9 {
      Group(data, 9, 5, 5, 0x42, 0x54);
    } else if i == 10 {
      Group(data, 10, 6, 2, 0x54, 0);
    } else if i == 11 {
      Group(data, 11, 6, 7, 0x54, 0xb6);
    } else if i == 12 {
      Group(data, 12, 7, 4, 0xb6, 0x35);
    } else if i == 13 {
      Group(data, 13, 8, 1, 0x35, 0);
    } else if i == 14 {
      Group(data, 14, 8, 6, 0x35, 0xcf);
    } else {
      Group(data, 15, 9, 3, 0xcf, 0);
    }
  }

  lemma ThirdGroups(data: seq<bv8>, i: nat)
    requires |data| >= 15
    requires data[10] == 0x84 && data[11] == 0x65 && data[12] == 0x3a && data[13] == 0x56 && data[14] == 0xd7
    requires 16 <= i < 24
    ensures GroupOf(data, i) == i
  {
    if i == 16 {
      Group(data, 16, 10, 0, 0x84, 0);
    } else if i == 17 {
      Group(data, 17, 10, 5, 0x84, 0x65);
    } else if i == 18 {
      Group(data, 18, 11, 2, 0x65, 0);
    } else if i == 19 {
      Group(data, 19, 11, 7, 0x65, 0x3a);
    } else if i == 20 {
      Group(data, 20, 12, 4, 0x3a, 0x56);
    } else if i == 21 {
      Group(data, 21, 13, 1, 0x56, 0);
    } else if i == 22 {
      Group(data, 22, 13, 6, 0x56, 0xd7);
    } else {
      Group(data, 23, 14, 3, 0xd7, 0);
    }
  }

  lemma LastGroups(data: seq<bv8>, i: nat)
    requires |data| >= 20
    requires data[15] == 0xc6 && data[16] == 0x75 && data[17] == 0xbe && data[18] == 0x77 && data[19] == 0xdf
    requires 24 <= i < 32
    ensures GroupOf(data, i) == i
  {
    if i == 24 {
      Group(data, 24, 15, 0, 0xc6, 0);
    } else if i == 25 {
      Group(data, 25, 15, 5, 0xc6, 0x75);
    } else if i == 26 {
      Group(data, 26, 16, 2, 0x75, 0);
    } else if i == 27 {
      Group(data, 27, 16, 7, 0x75, 0xbe);
    } else if i == 28 {
      Group(data, 28, 17, 4, 0xbe, 0x77);
    } else if i == 29 {
      Group(data, 29, 18, 1, 0x77, 0);
    } else if i == 30 {
      Group(data, 30, 18, 6, 0x77, 0xdf);
    } else {
      Group(data, 31, 19, 3, 0xdf, 0);
    }
  }

  lemma VectorCloses()
    ensures Run(1, Expand([0x61, 0x62, 0x63, 0x64, 0x65, 0x66]) + VectorWords() + [27, 0, 0, 0, 6, 14]) == 1
  {
    var a, b, c := [3, 3, 3, 3, 3, 3, 0, 1, 2], [3, 4, 5, 6, 0, 1, 2, 3, 4], [5, 6, 7, 8, 9, 10, 11, 12, 13];
    var d, e := [14, 15, 16, 17, 18, 19, 20, 21, 22], [23, 24, 25, 26, 27, 28, 29, 30, 31];
    VectorFirst([]);
    VectorSecond([] + a);
    VectorThird([] + a + b);
    VectorFourth([] + a + b + c);
    VectorFifth([] + a + b + c + d);
    VectorSixth([] + a + b + c + d + e);
    VectorExpanded();
    assert b == [3, 4, 5, 6] + [0, 1, 2, 3, 4];
    Rejoined(a, [3, 4, 5, 6], [0, 1, 2, 3, 4], c, d, e, [27, 0, 0, 0, 6, 14]);
  }

  lemma Rejoined(a: seq<bv8>, b: seq<bv8>, b': seq<bv8>, c: seq<bv8>, d: seq<bv8>, e: seq<bv8>, f: seq<bv8>)
    ensures [] + a + (b + b') + c + d + e + f == (a + b) + (b' + c + d + e) + f
  {}

  lemma VectorExpanded()
    ensures Expand([0x61, 0x62, 0x63, 0x64, 0x65, 0x66]) == [3, 3, 3, 3, 3, 3, 0, 1, 2] + [3, 4, 5, 6]
  {}

  function VectorWords(): seq<bv8> {
    [0, 1, 2, 3, 4] + [5, 6, 7, 8, 9, 10, 11, 12, 13] + [14, 15, 16, 17, 18, 19, 20, 21, 22]
    + [23, 24, 25, 26, 27, 28, 29, 30, 31]
  }

  function VectorData(): seq<bv8> {
    [0x00, 0x44, 0x32, 0x14, 0xc7, 0x42, 0x54, 0xb6, 0x35, 0xcf,
     0x84, 0x65, 0x3a, 0x56, 0xd7, 0xc6, 0x75, 0xbe, 0x77, 0xdf]
  }

  lemma VectorGroups()
    ensures Symbols(VectorWords()) && Groups(VectorWords(), VectorData())
  {
    var words, data := VectorWords(), VectorData();
    forall i | 0 <= i < |words| ensures words[i] < 32 && NumberOf(words[i]) == GroupOf(data, i) {
      VectorNumber(i);
      VectorGroup(data, i);
    }
    NumbersGroup(words, data);
  }

  lemma VectorGroup(data: seq<bv8>, i: nat)
    requires data == VectorData() && i < 32
    ensures GroupOf(data, i) == i
  {
    if i < 8 {
      FirstGroups(data, i);
    } else if i < 16 {
      SecondGroups(data, i);
    } else if i < 24 {
      ThirdGroups(data, i);
    } else {
      LastGroups(data, i);
    }
  }

  lemma VectorNumber(i: nat)
    requires i < 32
    ensures VectorWords()[i] < 32 && NumberOf(VectorWords()[i]) == i
  {
    if i < 5 {
      Counted([0, 1, 2, 3, 4], 0, i);
    } else if i < 14 {
      Counted([5, 6, 7, 8, 9, 10, 11, 12, 13], 5, i - 5);
    } else if i < 23 {
      Counted([14, 15, 16, 17, 18, 19, 20, 21, 22], 14, i - 14);
    } else {
      Counted([23, 24, 25, 26, 27, 28, 29, 30, 31], 23, i - 23);
    }
  }

  lemma Counted(piece: seq<bv8>, from: nat, k: nat)
    requires k < |piece|
    requires forall j :: 0 <= j < |piece| ==> piece[j] < 32 && NumberOf(piece[j]) == from + j
    ensures piece[k] < 32 && NumberOf(piece[k]) == from + k
  {}

  lemma SameByte(a: bv8, b: bv8)
    requires a as int == b as int
    ensures a == b
  {}

  lemma ReadsOnce(t: Text, u: Text, s: string)
    requires Reads(t, s) && Reads(u, s)
    ensures t == u
  {
    forall i | 0 <= i < |t| ensures t[i] == u[i] { SameByte(t[i], u[i]); }
  }

  lemma ReadsParts(t: Text, a: string, b: string, c: string)
    requires Reads(t, a + b + c)
    ensures Reads(t[..|a|], a) && Reads(t[|a|..|a| + |b|], b) && Reads(t[|a| + |b|..], c)
  {
    forall i | 0 <= i < |a| ensures t[i] as int == a[i] as int { assert (a + b + c)[i] == a[i]; }
    forall i | 0 <= i < |b| ensures t[|a| + i] as int == b[i] as int { assert (a + b + c)[|a| + i] == b[i]; }
    forall i | 0 <= i < |c| ensures t[|a| + |b| + i] as int == c[i] as int {
      assert (a + b + c)[|a| + |b| + i] == c[i];
    }
  }

  lemma VectorChars()
    ensures Reads([0x61, 0x62, 0x63, 0x64, 0x65, 0x66] + [SEPARATOR], "abcdef1")
    ensures Reads(Chars(VectorWords()), CHARSET)
    ensures Reads(Chars([27, 0, 0, 0, 6, 14]), "mqqqxw")
  {
    forall i | 0 <= i < 32 ensures Chars(VectorWords())[i] as int == CHARSET[i] as int {
      VectorNumber(i);
      SymbolIsNumber(VectorWords()[i]);
    }
  }

  lemma ClosedIsSealed(hrp: Text, words: seq<bv8>, sum: seq<bv8>)
    requires Symbols(words) && Symbols(sum) && |sum| == 6 && Run(1, Expand(hrp) + words + sum) == 1
    ensures Sealed(hrp, words) == words + sum
  {
    ExpandSymbols(hrp);
    ClosingIsUnique(Expand(hrp) + words, sum);
  }

  lemma RenderedParts(t: Text, hrp: Text, words: seq<bv8>, sum: seq<bv8>)
    requires Symbols(words) && Sealed(hrp, words) == words + sum
    requires t == (hrp + [SEPARATOR]) + (Chars(words) + Chars(sum))
    ensures t == Rendered(hrp, words)
  {
    assert Chars(words + sum) == Chars(words) + Chars(sum);
  }

  lemma VectorText(t: Text)
    requires Reads(t, "abcdef1" + CHARSET + "mqqqxw")
    ensures t ==
      ([0x61, 0x62, 0x63, 0x64, 0x65, 0x66] + [SEPARATOR]) + (Chars(VectorWords()) + Chars([27, 0, 0, 0, 6, 14]))
  {
    VectorChars();
    ReadsParts(t, "abcdef1", CHARSET, "mqqqxw");
    ReadsOnce(t[..7], [0x61, 0x62, 0x63, 0x64, 0x65, 0x66] + [SEPARATOR], "abcdef1");
    ReadsOnce(t[7..39], Chars(VectorWords()), CHARSET);
    ReadsOnce(t[39..], Chars([27, 0, 0, 0, 6, 14]), "mqqqxw");
    ThreePieces(t, 7, 39);
  }

  lemma ThreePieces(t: Text, i: nat, j: nat)
    requires i <= j <= |t|
    ensures t == t[..i] + (t[i..j] + t[j..])
  {}

  lemma VectorEncoded(t: Text)
    requires Reads(t, "abcdef1" + CHARSET + "mqqqxw")
    ensures Encodes(t, [0x61, 0x62, 0x63, 0x64, 0x65, 0x66], VectorData())
  {
    VectorGroups();
    VectorCloses();
    VectorText(t);
    ClosedIsSealed([0x61, 0x62, 0x63, 0x64, 0x65, 0x66], VectorWords(), [27, 0, 0, 0, 6, 14]);
    RenderedParts(t, [0x61, 0x62, 0x63, 0x64, 0x65, 0x66], VectorWords(), [27, 0, 0, 0, 6, 14]);
    assert EncodedBy(t, [0x61, 0x62, 0x63, 0x64, 0x65, 0x66], VectorWords(), VectorData());
  }

  lemma VectorPlain()
    ensures PlainPrefix([0x61, 0x62, 0x63, 0x64, 0x65, 0x66])
    ensures Reads([0x61, 0x62, 0x63, 0x64, 0x65, 0x66], "abcdef")
  {}

  lemma VectorString()
    ensures "abcdef1" + CHARSET + "mqqqxw" == "abcdef1qpzry9x8gf2tvdw0s3jn54khce6mua7lmqqqxw"
  {
    assert "abcdef1" + CHARSET == "abcdef1qpzry9x8gf2tvdw0s3jn54khce6mua7l";
  }

  lemma EncodedPrefix(t: Text, hrp: Text, data: seq<bv8>)
    requires Encodes(t, hrp, data) && PlainPrefix(hrp)
    ensures |hrp| <= |t| && t[..|hrp|] == hrp && Meaning(t) == Some((t[..|hrp|], data))
  {
    EncodedSpelling(t, hrp, data);
    RoundTrip(t, hrp, data);
  }

  /** A valid address of BIP 173 and the twenty bytes in it. */
  lemma AddressVector(t: Text)
    requires Reads(t, "abcdef1qpzry9x8gf2tvdw0s3jn54khce6mua7lmqqqxw")
    ensures Reads(t[..6], "abcdef")
    ensures Meaning(t) == Some((t[..6], [0x00, 0x44, 0x32, 0x14, 0xc7, 0x42, 0x54, 0xb6, 0x35, 0xcf,
                                         0x84, 0x65, 0x3a, 0x56, 0xd7, 0xc6, 0x75, 0xbe, 0x77, 0xdf]))
  {
    VectorPlain();
    VectorString();
    VectorEncoded(t);
    EncodedPrefix(t, [0x61, 0x62, 0x63, 0x64, 0x65, 0x66], VectorData());
  }
}
