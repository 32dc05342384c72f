/**
 Bech32 addresses: AddressFromBytes and Bech32Decode of
 internal/tx/internal/keys/derive.go.

 A Go string is a sequence of bytes, and so is a `Text`. Only ASCII text is modelled:
 beyond it, lower-casing and trimming follow Unicode tables.
 */
module Bech32 {
  import opened Bech32Checksum
  import opened Bech32Regroup
  import opened Options

  type Text = seq<bv8>

  const SEPARATOR: bv8 := 0x31 // '1'

  datatype DecodeError = MissingSeparator | InvalidChar(pos: nat) | InvalidChecksum | InvalidPadding
  datatype Decoding = Ok(hrp: Text, data: seq<bv8>) | Err(error: DecodeError)

  // ---- characters ----

  predicate Ascii(s: Text) { forall i :: 0 <= i < |s| ==> s[i] < 0x80 }

  /** The charset qpzry9x8gf2tvdw0s3jn54khce6mua7l. */
  function CharOf(v: bv8): bv8 {
    if v < 8 then
      if v == 0 then 0x71 else if v == 1 then 0x70 else if v == 2 then 0x7a else if v == 3 then 0x72 else
      if v == 4 then 0x79 else if v == 5 then 0x39 else if v == 6 then 0x78 else 0x38
    else if v < 16 then
      if v == 8 then 0x67 else if v == 9 then 0x66 else if v == 10 then 0x32 else if v == 11 then 0x74 else
      if v == 12 then 0x76 else if v == 13 then 0x64 else if v == 14 then 0x77 else 0x30
    else if v < 24 then
      if v == 16 then 0x73 else if v == 17 then 0x33 else if v == 18 then 0x6a else if v == 19 then 0x6e else
      if v == 20 then 0x35 else if v == 21 then 0x34 else if v == 22 then 0x6b else 0x68
    else
      if v == 24 then 0x63 else if v == 25 then 0x65 else if v == 26 then 0x36 else if v == 27 then 0x6d else
      if v == 28 then 0x75 else if v == 29 then 0x61 else if v == 30 then 0x37 else 0x6c
  }

  /** The position of a character in the charset, or 32. */
  function IndexOf(c: bv8): bv8 {
    if c == 0x71 then 0 else if c == 0x70 then 1 else if c == 0x7a then 2 else if c == 0x72 then 3 else
    if c == 0x79 then 4 else if c == 0x39 then 5 else if c == 0x78 then 6 else if c == 0x38 then 7 else
    if c == 0x67 then 8 else if c == 0x66 then 9 else if c == 0x32 then 10 else if c == 0x74 then 11 else
    if c == 0x76 then 12 else if c == 0x64 then 13 else if c == 0x77 then 14 else if c == 0x30 then 15 else
    if c == 0x73 then 16 else if c == 0x33 then 17 else if c == 0x6a then 18 else if c == 0x6e then 19 else
    if c == 0x35 then 20 else if c == 0x34 then 21 else if c == 0x6b then 22 else if c == 0x68 then 23 else
    if c == 0x63 then 24 else if c == 0x65 then 25 else if c == 0x36 then 26 else if c == 0x6d then 27 else
    if c == 0x75 then 28 else if c == 0x61 then 29 else if c == 0x37 then 30 else if c == 0x6c then 31 else 32
  }

  lemma CharsetIndexed(v: bv8)
    requires v < 32
    ensures IndexOf(CharOf(v)) == v
  {
    if v < 8 {
      CharsetFirst(v);
    } else if v < 16 {
      CharsetSecond(v);
    } else if v < 24 {
      CharsetThird(v);
    } else {
      CharsetLast(v);
    }
  }

  lemma CharsetFirst(v: bv8)
    requires v < 8
    ensures IndexOf(CharOf(v)) == v
  {}

  lemma CharsetSecond(v: bv8)
    requires 8 <= v < 16
    ensures IndexOf(CharOf(v)) == v
  {}

  lemma CharsetThird(v: bv8)
    requires 16 <= v < 24
    ensures IndexOf(CharOf(v)) == v
  {}

  lemma CharsetLast(v: bv8)
    requires 24 <= v < 32
    ensures IndexOf(CharOf(v)) == v
  {}

  predicate Space(b: bv8) { 0x09 <= b <= 0x0d || b == 0x20 }

  predicate Upper(b: bv8) { 0x41 <= b <= 0x5a }

  function LowerByte(b: bv8): bv8 { if Upper(b) then b | 0x20 else b }

  lemma CharsetIsPlain(v: bv8)
    requires v < 32
    ensures CharOf(v) != SEPARATOR && !Space(CharOf(v)) && !Upper(CharOf(v)) && CharOf(v) < 0x80
  {}

  /** strings.ToLower on ASCII text. */
  function Lower(s: Text): (t: Text)
    ensures |t| == |s|
  {
    seq(|s|, i requires 0 <= i < |s| => LowerByte(s[i]))
  }

  function TrimLeft(s: Text): Text {
    if s != [] && Space(s[0]) then TrimLeft(s[1..]) else s
  }

  function TrimRight(s: Text): Text {
    if s != [] && Space(s[|s| - 1]) then TrimRight(s[..|s| - 1]) else s
  }

  /** What Bech32Decode looks at: the text trimmed and lower-cased. */
  function Normalize(s: Text): Text { Lower(TrimRight(TrimLeft(s))) }

  /** A human-readable part that survives trimming and lower-casing. */
  predicate PlainPrefix(hrp: Text) { hrp != [] && Lower(hrp) == hrp && !Space(hrp[0]) }

  function Chars(words: seq<bv8>): (t: Text)
    ensures |t| == |words|
  {
    seq(|words|, i requires 0 <= i < |words| => CharOf(words[i]))
  }

  // ---- the reference: which texts encode what ----

  function HighBits(b: bv8): bv8 { b >> 5 }

  function LowFive(b: bv8): bv8 { b & 31 }

  function Expand(hrp: Text): (v: seq<bv8>)
    ensures |v| == 2 * |hrp| + 1
  {
    seq(|hrp|, i requires 0 <= i < |hrp| => HighBits(hrp[i])) + [0] +
    seq(|hrp|, i requires 0 <= i < |hrp| => LowFive(hrp[i]))
  }

  /** The words followed by the six symbols that close the register. */
  ghost function Sealed(hrp: Text, words: seq<bv8>): (all: seq<bv8>)
    requires Symbols(words)
    ensures |all| == |words| + 6 && all[..|words|] == words && Symbols(all)
  {
    ExpandSymbols(hrp);
    words + Closing(Expand(hrp) + words)
  }

  ghost function Rendered(hrp: Text, words: seq<bv8>): Text
    requires Symbols(words)
  {
    hrp + [SEPARATOR] + Chars(Sealed(hrp, words))
  }

  ghost predicate EncodedBy(t: Text, hrp: Text, words: seq<bv8>, data: seq<bv8>) {
    Symbols(words) && Groups(words, data) && t == Rendered(hrp, words)
  }

  ghost predicate Encodes(t: Text, hrp: Text, data: seq<bv8>) {
    exists words :: EncodedBy(t, hrp, words, data)
  }

  /** The meaning of a text as an address, if it has one. */
  ghost function Meaning(s: Text): Option<(Text, seq<bv8>)> {
    if exists hrp, data :: hrp != [] && Encodes(Normalize(s), hrp, data) then
      var hrp, data :| hrp != [] && Encodes(Normalize(s), hrp, data);
      Some((hrp, data))
    else None
  }

  // ---- encoding ----

  method HrpExpand(hrp: Text) returns (r: seq<bv8>)
    ensures r == Expand(hrp)
  {
    var out := new bv8[2 * |hrp| + 1](_ => 0);
    for i := 0 to |hrp|
      invariant out[|hrp|] == 0
      invariant forall k :: 0 <= k < i ==> out[k] == HighBits(hrp[k]) && out[|hrp| + 1 + k] == LowFive(hrp[k])
    {
      out[i] := HighBits(hrp[i]);
      out[|hrp| + 1 + i] := LowFive(hrp[i]);
    }
    r := out[..];
  }

  method Checksum(hrp: Text, data: seq<bv8>) returns (r: seq<bv8>)
    requires Symbols(data)
    ensures data + r == Sealed(hrp, data)
  {
    ExpandSymbols(hrp);
    var input := HrpExpand(hrp);
    input := input + data + Zeros(6);
    var poly := Polymod(input);
    poly := Xor(poly, 1);
    r := Spread(poly);
    ClosingComputed(Expand(hrp) + data);
  }

  /** The loop at the end of bech32Checksum. */
  method Spread(poly: bv32) returns (r: seq<bv8>)
    ensures r == Unpack(poly)
  {
    r := [];
    for i := 0 to 6
      invariant r == Unpack(poly)[..i]
    {
      SymbolAt(poly, i);
      UnpackAt(poly, i);
      TakeNext(Unpack(poly), i);
      r := r + [((poly >> (5 * (5 - i))) & 31) as bv8];
    }
  }

  lemma UnpackAt(poly: bv32, i: nat)
    requires i < 6
    ensures Unpack(poly)[i] == Symbol(poly, i)
  {}

  lemma TakeNext(s: seq<bv8>, i: nat)
    requires i < |s|
    ensures s[..i + 1] == s[..i] + [s[i]]
  {}

  lemma SymbolAt(poly: bv32, i: nat)
    requires i < 6
    ensures (poly >> (5 * (5 - i))) & 31 <= 255
    ensures ((poly >> (5 * (5 - i))) & 31) as bv8 == Symbol(poly, i)
  {
    if i == 0 {
      assert 5 * (5 - i) == 25;
    } else if i == 1 {
      assert 5 * (5 - i) == 20;
    } else if i == 2 {
      assert 5 * (5 - i) == 15;
    } else if i == 3 {
      assert 5 * (5 - i) == 10;
    } else if i == 4 {
      assert 5 * (5 - i) == 5;
    } else {
      assert 5 * (5 - i) == 0;
    }
  }

  lemma CharsSnoc(words: seq<bv8>, v: bv8)
    ensures Chars(words + [v]) == Chars(words) + [CharOf(v)]
  {}

  method Encode(hrp: Text, data: seq<bv8>) returns (t: Text)
    requires Symbols(data)
    ensures t == Rendered(hrp, data)
  {
    var check := Checksum(hrp, data);
    var combined := data + check;
    t := WriteSymbols(hrp + [SEPARATOR], combined);
  }

  /** The loop of bech32Encode. */
  method WriteSymbols(head: Text, words: seq<bv8>) returns (t: Text)
    ensures t == head + Chars(words)
  {
    t := head;
    for i := 0 to |words|
      invariant t == head + Chars(words[..i])
    {
      CharsSnoc(words[..i], words[i]);
      TakeNext(words, i);
      t := t + [CharOf(words[i])];
    }
    assert words[..|words|] == words;
  }

  /** AddressFromBytes. */
  method AddressFromBytes(bytes: seq<bv8>, prefix: Text) returns (t: Text)
    requires Ascii(prefix)
    ensures Encodes(t, prefix, bytes)
  {
    BytesFit(bytes);
    var words := ConvertBits(bytes, 8, 5, true);
    SymbolsFit(words.value);
    t := Encode(prefix, words.value);
    assert EncodedBy(t, prefix, words.value, bytes);
  }

  lemma SymbolFits(v: bv8)
    ensures v < 32 <==> Fits(Wide(v), 5)
  {
    if v < 32 {
      SmallMasksFit();
      MaskFits(Wide(v), 31, 5);
      MaskedSymbol(v);
    } else {
      HalvedFiveTimes(v);
    }
  }

  lemma MaskedSymbol(v: bv8)
    requires v < 32
    ensures And(Wide(v), 31) == Wide(v)
  {}

  lemma HalvedFiveTimes(v: bv8)
    requires v >= 32
    ensures !Fits(Wide(v), 5)
  {
    var x := Wide(v);
    var y := Half(Half(Half(x)));
    assert Fits(x, 5) == Fits(Half(Half(x)), 3);
    assert Fits(Half(Half(x)), 3) == Fits(y, 2);
    assert Fits(y, 2) == Fits(Half(y), 1);
    assert Fits(Half(y), 1) == (Half(Half(y)) == 0);
  }

  lemma SymbolsFit(words: seq<bv8>)
    ensures Symbols(words) <==> AllFit(words, 5)
  {
    forall i | 0 <= i < |words| ensures words[i] < 32 <==> Fits(Wide(words[i]), 5) { SymbolFits(words[i]); }
  }

  // ---- decoding ----

  /** strings.LastIndex for one byte. */
  function LastIndex(s: Text, b: bv8): (k: int)
    ensures -1 <= k < |s|
    ensures k >= 0 ==> s[k] == b
    ensures forall i :: k < i < |s| ==> s[i] != b
  {
    if s == [] then -1 else if s[|s| - 1] == b then |s| - 1 else LastIndex(s[..|s| - 1], b)
  }

  ghost predicate InCharset(c: bv8) { exists v: bv8 :: v < 32 && CharOf(v) == c }

  /** strings.IndexRune on the charset. */
  method IndexRune(c: bv8) returns (r: Option<bv8>)
    ensures r.Some? ==> r.value < 32 && CharOf(r.value) == c
    ensures r.None? ==> !InCharset(c)
  {
    var v: bv8 := 0;
    while v < 32
      invariant v <= 32
      invariant forall u: bv8 :: u < v ==> CharOf(u) != c
      decreases 32 - v
    {
      if CharOf(v) == c {
        return Some(v);
      }
      v := v + 1;
    }
    return None;
  }

  method ReadSymbols(encoded: Text) returns (decoded: seq<bv8>, bad: Option<nat>)
    ensures bad.None? ==> Symbols(decoded) && Chars(decoded) == encoded
    ensures bad.Some? ==> bad.value < |encoded| && forall words :: Symbols(words) ==> Chars(words) != encoded
    ensures bad.Some? ==> !InCharset(encoded[bad.value]) && forall i :: 0 <= i < bad.value ==> InCharset(encoded[i])
  {
    decoded := [];
    for i := 0 to |encoded|
      invariant |decoded| == i && Symbols(decoded)
      invariant Chars(decoded) == encoded[..i]
    {
      var idx := IndexRune(encoded[i]);
      if idx.None? {
        forall words | Symbols(words) && |words| == |encoded| ensures Chars(words)[i] != encoded[i] {}
        forall k | 0 <= k < i ensures InCharset(encoded[k]) {
          assert CharOf(decoded[k]) == Chars(decoded)[k] == encoded[..i][k];
        }
        return decoded, Some(i);
      }
      CharsSnoc(decoded, idx.value);
      decoded := decoded + [idx.value];
    }
    bad := None;
  }

  /** The separator of a rendered text is its last '1', so its parts can be read back. */
  lemma Parts(t: Text, hrp: Text, words: seq<bv8>, data: seq<bv8>)
    requires EncodedBy(t, hrp, words, data)
    ensures LastIndex(t, SEPARATOR) == |hrp| && |t| >= |hrp| + 7
    ensures t[..|hrp|] == hrp && t[|hrp| + 1..] == Chars(Sealed(hrp, words))
  {
    var all := Sealed(hrp, words);
    assert t[|hrp| + 1..] == Chars(all);
    forall i | 0 <= i < |all| ensures Chars(all)[i] != SEPARATOR { CharsetIsPlain(all[i]); }
    assert t[|hrp|] == SEPARATOR;
    assert forall i :: |hrp| < i < |t| ==> t[i] == t[|hrp| + 1..][i - |hrp| - 1];
  }

  lemma ExpandSymbols(hrp: Text)
    ensures Symbols(Expand(hrp))
  {}

  lemma {:induction false} CharsInjective(a: seq<bv8>, b: seq<bv8>)
    requires Symbols(a) && Symbols(b) && Chars(a) == Chars(b)
    ensures a == b
  {
    assert |a| == |Chars(a)| == |b|;
    forall i | 0 <= i < |a| ensures a[i] == b[i] {
      assert Chars(a)[i] == CharOf(a[i]) && Chars(b)[i] == CharOf(b[i]);
      CharsetIndexed(a[i]);
      CharsetIndexed(b[i]);
    }
  }

  /** A prefix and symbols verify exactly when the last six are the closing ones. */
  lemma Verifies(hrp: Text, decoded: seq<bv8>)
    requires Symbols(decoded) && |decoded| >= 6
    ensures Run(1, Expand(hrp) + decoded) == 1 <==> decoded == Sealed(hrp, decoded[..|decoded| - 6])
  {
    ExpandSymbols(hrp);
    ClosedTail(Expand(hrp), decoded);
  }

  lemma ClosedTail(prefix: seq<bv8>, decoded: seq<bv8>)
    requires Symbols(prefix) && Symbols(decoded) && |decoded| >= 6
    ensures
      var words := decoded[..|decoded| - 6];
      Run(1, prefix + decoded) == 1 <==> decoded == words + Closing(prefix + words)
  {
    var words, last := decoded[..|decoded| - 6], decoded[|decoded| - 6..];
    assert prefix + decoded == (prefix + words) + last;
    ClosingIsUnique(prefix + words, last);
    assert decoded == words + last;
    assert (words + Closing(prefix + words))[|words|..] == Closing(prefix + words);
  }

  ghost predicate Ungrouped(words: seq<bv8>) { forall data :: !Groups(words, data) }

  ghost predicate Meaningless(t: Text) {
    forall hrp, data :: hrp != [] ==> !Encodes(t, hrp, data)
  }

  /** What the symbols read from a text must be if the text encodes anything. */
  lemma Reread(t: Text, sep: int, decoded: seq<bv8>, hrp: Text, words: seq<bv8>, data: seq<bv8>)
    requires sep == LastIndex(t, SEPARATOR) && 0 <= sep && Symbols(decoded) && Chars(decoded) == t[sep + 1..]
    requires EncodedBy(t, hrp, words, data)
    ensures hrp == t[..sep] && |decoded| >= 6 && words == decoded[..|decoded| - 6] && decoded == Sealed(hrp, words)
  {
    Parts(t, hrp, words, data);
    CharsInjective(decoded, Sealed(hrp, words));
  }

  lemma RejectedUnread(t: Text)
    requires
      var sep := LastIndex(t, SEPARATOR);
      sep < 1 || sep + 7 > |t| || forall words :: Symbols(words) ==> Chars(words) != t[sep + 1..]
    ensures Meaningless(t)
  {
    forall hrp, words, data | hrp != [] && EncodedBy(t, hrp, words, data) ensures false {
      Parts(t, hrp, words, data);
    }
  }

  lemma RejectedRead(t: Text, decoded: seq<bv8>)
    requires
      var sep := LastIndex(t, SEPARATOR);
      0 <= sep && Symbols(decoded) && |decoded| >= 6 && Chars(decoded) == t[sep + 1..]
    requires
      || decoded != Sealed(t[..LastIndex(t, SEPARATOR)], decoded[..|decoded| - 6])
      || Ungrouped(decoded[..|decoded| - 6])
    ensures Meaningless(t)
  {
    var sep := LastIndex(t, SEPARATOR);
    forall hrp, words, data | hrp != [] && EncodedBy(t, hrp, words, data) ensures false {
      ReadIsSealed(t, sep, decoded, hrp, words, data);
    }
  }

  lemma ReadIsSealed(t: Text, sep: int, decoded: seq<bv8>, hrp: Text, words: seq<bv8>, data: seq<bv8>)
    requires sep == LastIndex(t, SEPARATOR) && 0 <= sep && Symbols(decoded) && Chars(decoded) == t[sep + 1..]
    requires |decoded| >= 6 && EncodedBy(t, hrp, words, data)
    ensures decoded == Sealed(t[..sep], decoded[..|decoded| - 6]) && !Ungrouped(decoded[..|decoded| - 6])
  {
    Reread(t, sep, decoded, hrp, words, data);
  }

  lemma Accepted(t: Text, decoded: seq<bv8>, data: seq<bv8>)
    requires
      var sep := LastIndex(t, SEPARATOR);
      0 <= sep && Symbols(decoded) && |decoded| >= 6 && Chars(decoded) == t[sep + 1..]
    requires decoded == Sealed(t[..LastIndex(t, SEPARATOR)], decoded[..|decoded| - 6])
    requires Groups(decoded[..|decoded| - 6], data)
    ensures Encodes(t, t[..LastIndex(t, SEPARATOR)], data)
  {
    var sep := LastIndex(t, SEPARATOR);
    SplitAt(t, sep);
    SealedIsEncoded(t, t[..sep], decoded[..|decoded| - 6], data, t[sep + 1..]);
  }

  lemma SealedIsEncoded(t: Text, hrp: Text, words: seq<bv8>, data: seq<bv8>, tail: Text)
    requires Symbols(words) && Groups(words, data) && tail == Chars(Sealed(hrp, words)) && t == hrp + [SEPARATOR] + tail
    ensures Encodes(t, hrp, data)
  {
    assert EncodedBy(t, hrp, words, data);
  }

  /** The symbols that the characters after the separator stand for. */
  ghost predicate Written(t: Text, sep: int, decoded: seq<bv8>) {
    1 <= sep && sep + 7 <= |t| && Symbols(decoded) && Chars(decoded) == t[sep + 1..]
  }

  /** What each decoding error reports about the text. */
  ghost predicate Faulty(t: Text, e: DecodeError) {
    var sep := LastIndex(t, SEPARATOR);
    match e
    case MissingSeparator => sep < 1 || sep + 7 > |t|
    case InvalidChar(pos) =>
      && 1 <= sep && sep + 7 <= |t| && sep + 1 + pos < |t| && !InCharset(t[sep + 1 + pos])
      && forall i :: sep < i < sep + 1 + pos ==> InCharset(t[i])
    case InvalidChecksum => exists d :: Written(t, sep, d) && Run(1, Expand(t[..sep]) + d) != 1
    case InvalidPadding =>
      exists d :: Written(t, sep, d) && Run(1, Expand(t[..sep]) + d) == 1 && Ungrouped(d[..|d| - 6])
  }

  /** Bech32Decode. */
  method Decode(s: Text) returns (r: Decoding)
    requires Ascii(s)
    ensures r.Ok? ==> r.hrp != [] && Encodes(Normalize(s), r.hrp, r.data)
    ensures r.Err? ==> Meaningless(Normalize(s)) && Faulty(Normalize(s), r.error)
    ensures Meaning(s) == if r.Ok? then Some((r.hrp, r.data)) else None
  {
    r := DecodeNormalized(Normalize(s));
    if r.Ok? {
      MeaningIs(s, r.hrp, r.data);
    }
  }

  method DecodeNormalized(lower: Text) returns (r: Decoding)
    ensures r.Ok? ==> r.hrp != [] && Encodes(lower, r.hrp, r.data)
    ensures r.Err? ==> Meaningless(lower) && Faulty(lower, r.error)
  {
    var sep := LastIndex(lower, SEPARATOR);
    if sep < 1 || sep + 6 + 1 > |lower| {
      RejectedUnread(lower);
      return Err(MissingSeparator);
    }
    var hrp, encoded := lower[..sep], lower[sep + 1..];
    var decoded, bad := ReadSymbols(encoded);
    if bad.Some? {
      RejectedUnread(lower);
      return Err(InvalidChar(bad.value));
    }
    var combined := HrpExpand(hrp);
    combined := combined + decoded;
    var chk := Polymod(combined);
    Verifies(hrp, decoded);
    assert Written(lower, sep, decoded);
    if chk != 1 {
      RejectedRead(lower, decoded);
      return Err(InvalidChecksum);
    }
    var data5 := decoded[..|decoded| - 6];
    SymbolsFit(data5);
    var data := ConvertBits(data5, 5, 8, false);
    if data.None? {
      RejectedRead(lower, decoded);
      return Err(InvalidPadding);
    }
    Accepted(lower, decoded, data.value);
    return Ok(hrp, data.value);
  }

  lemma WrittenOnce(t: Text, sep: int, d: seq<bv8>, d': seq<bv8>)
    requires Written(t, sep, d) && Written(t, sep, d')
    ensures d == d'
  {
    CharsInjective(d, d');
  }

  lemma WrittenInCharset(t: Text, sep: int, d: seq<bv8>, pos: nat)
    requires Written(t, sep, d) && sep + 1 + pos < |t|
    ensures InCharset(t[sep + 1 + pos])
  {
    assert CharOf(d[pos]) == Chars(d)[pos] == t[sep + 1 + pos];
  }

  /** A text has at most one fault. */
  lemma FaultIsUnique(t: Text, e: DecodeError, e': DecodeError)
    requires Faulty(t, e) && Faulty(t, e')
    ensures e == e'
  {
    var sep := LastIndex(t, SEPARATOR);
    forall d, d' | Written(t, sep, d) && Written(t, sep, d') ensures d == d' { WrittenOnce(t, sep, d, d'); }
    if e.InvalidChar? {
      forall d | Written(t, sep, d) ensures false { WrittenInCharset(t, sep, d, e.pos); }
    }
    if e'.InvalidChar? {
      forall d | Written(t, sep, d) ensures false { WrittenInCharset(t, sep, d, e'.pos); }
    }
  }

  // ---- what the two directions promise together ----

  /** A text is the encoding of at most one prefix and one byte string, and conversely. */
  lemma EncodingIsBijective(t: Text, hrp: Text, data: seq<bv8>, t': Text, hrp': Text, data': seq<bv8>)
    requires Encodes(t, hrp, data) && Encodes(t', hrp', data')
    ensures t == t' <==> hrp == hrp' && data == data'
  {
    var words :| EncodedBy(t, hrp, words, data);
    var words' :| EncodedBy(t', hrp', words', data');
    Parts(t, hrp, words, data);
    Parts(t', hrp', words', data');
    GroupsUnique(words, data, words', data');
    if t == t' {
      Reread(t, |hrp|, Sealed(hrp, words), hrp', words', data');
    }
  }

  lemma MeaningIs(s: Text, hrp: Text, data: seq<bv8>)
    requires hrp != [] && Encodes(Normalize(s), hrp, data)
    ensures Meaning(s) == Some((hrp, data))
  {
    var m := Meaning(s).value;
    EncodingIsBijective(Normalize(s), hrp, data, Normalize(s), m.0, m.1);
  }

  lemma {:induction false} TrimShortens(s: Text)
    ensures |TrimLeft(s)| <= |s| && |TrimRight(s)| <= |s|
    ensures s != [] && Space(s[0]) ==> |TrimLeft(s)| < |s|
  {
    if s == [] {
    } else {
      TrimShortens(s[1..]);
      TrimShortens(s[..|s| - 1]);
    }
  }

  predicate PlainTail(rest: Text) {
    rest != [] && !Space(rest[|rest| - 1]) && forall i :: 0 <= i < |rest| ==> !Upper(rest[i])
  }

  lemma RenderedTail(t: Text, hrp: Text, words: seq<bv8>, data: seq<bv8>)
    requires EncodedBy(t, hrp, words, data)
    ensures |hrp| <= |t| && t == hrp + t[|hrp|..] && PlainTail(t[|hrp|..])
  {
    var all := Sealed(hrp, words);
    assert t[|hrp|..] == [SEPARATOR] + Chars(all);
    forall i | 0 <= i < |all| ensures !Upper(Chars(all)[i]) && !Space(Chars(all)[i]) { CharsetIsPlain(all[i]); }
  }

  lemma LowerConcat(a: Text, b: Text)
    ensures Lower(a + b) == Lower(a) + Lower(b)
  {}

  lemma LowerSplit(hrp: Text, rest: Text)
    requires PlainTail(rest)
    ensures Lower(hrp + rest) == hrp + rest <==> Lower(hrp) == hrp
  {
    LowerConcat(hrp, rest);
    assert Lower(rest) == rest;
    assert Lower(hrp) == (Lower(hrp) + rest)[..|hrp|] && hrp == (hrp + rest)[..|hrp|];
  }

  /** Text with a plain tail is left alone by trimming and lower-casing exactly if its prefix is plain. */
  lemma NormalIff(hrp: Text, rest: Text)
    requires PlainTail(rest) && hrp != []
    ensures Normalize(hrp + rest) == hrp + rest <==> PlainPrefix(hrp)
  {
    var t := hrp + rest;
    LowerSplit(hrp, rest);
    if Space(t[0]) {
      TrimShortens(t);
      TrimShortens(TrimLeft(t));
    } else {
      assert TrimLeft(t) == t && TrimRight(t) == t;
    }
  }

  /** Encoding then decoding gives back prefix and bytes exactly if the prefix is plain. */
  lemma RoundTrip(t: Text, hrp: Text, data: seq<bv8>)
    requires Encodes(t, hrp, data)
    ensures Meaning(t) == Some((hrp, data)) <==> PlainPrefix(hrp)
  {
    if hrp != [] {
      var words :| EncodedBy(t, hrp, words, data);
      RenderedTail(t, hrp, words, data);
      NormalIff(hrp, t[|hrp|..]);
      if PlainPrefix(hrp) {
        MeaningIs(t, hrp, data);
      } else if Meaning(t) == Some((hrp, data)) {
        EncodingIsBijective(t, hrp, data, Normalize(t), hrp, data);
      }
    }
  }

  /** Re-encoding what was decoded gives the normalized text, so a text has one spelling. */
  lemma DecodingIsCanonical(s: Text, t: Text)
    requires Meaning(s).Some? && Encodes(t, Meaning(s).value.0, Meaning(s).value.1)
    ensures t == Normalize(s)
  {
    var (hrp, data) := Meaning(s).value;
    EncodingIsBijective(t, hrp, data, Normalize(s), hrp, data);
  }

  /**
   Up to six neighbouring symbols after the separator replaced by others, in a text of any
   length: the result encodes nothing. One wrong symbol is the case |a| == 1.
   */
  lemma BurstDetected(p: Text, a: seq<bv8>, b: seq<bv8>, q: Text, hrp: Text, data: seq<bv8>)
    requires Symbols(a) && Symbols(b) && |a| == |b| <= 6 && a != b
    requires Encodes(p + Chars(a) + q, hrp, data) && |hrp| < |p|
    ensures Meaningless(p + Chars(b) + q)
    ensures PlainPrefix(hrp) ==> Meaning(p + Chars(b) + q) == None
  {
    var words :| EncodedBy(p + Chars(a) + q, hrp, words, data);
    BurstStaysPlain(p, a, b, q, hrp, words, data);
    forall hrp', words', data' | hrp' != [] && EncodedBy(p + Chars(b) + q, hrp', words', data') ensures false {
      BurstsAgree(p, a, b, q, hrp, words, data, hrp', words', data');
    }
  }

  lemma BurstStaysPlain(p: Text, a: seq<bv8>, b: seq<bv8>, q: Text, hrp: Text, words: seq<bv8>, data: seq<bv8>)
    requires Symbols(b) && |a| == |b| && |hrp| < |p| && EncodedBy(p + Chars(a) + q, hrp, words, data)
    ensures PlainPrefix(hrp) ==> Normalize(p + Chars(b) + q) == p + Chars(b) + q
  {
    var t, t' := p + Chars(a) + q, p + Chars(b) + q;
    var rest, rest' := t[|hrp|..], t'[|hrp|..];
    RenderedTail(t, hrp, words, data);
    DropHead(p, Chars(a), q, |hrp|);
    DropHead(p, Chars(b), q, |hrp|);
    assert hrp == (hrp + rest)[..|hrp|];
    ReplacedTail(p[|hrp|..], a, b, q);
    if hrp != [] {
      NormalIff(hrp, rest');
    }
  }

  lemma DropHead(p: Text, m: Text, q: Text, n: nat)
    requires n <= |p|
    ensures
      var t := p + m + q;
      t[..n] == p[..n] && t[n..] == p[n..] + m + q && t == t[..n] + t[n..]
  {}

  lemma ReplacedTail(p: Text, a: seq<bv8>, b: seq<bv8>, q: Text)
    requires Symbols(b) && |a| == |b| && PlainTail(p + Chars(a) + q)
    ensures PlainTail(p + Chars(b) + q)
  {
    var t, t' := p + Chars(a) + q, p + Chars(b) + q;
    forall i | 0 <= i < |b| ensures !Upper(Chars(b)[i]) && !Space(Chars(b)[i]) { CharsetIsPlain(b[i]); }
    forall i | 0 <= i < |t'| ensures !Upper(t'[i]) && (i == |t'| - 1 ==> !Space(t'[i])) {
      assert t'[i] == if |p| <= i < |p| + |b| then Chars(b)[i - |p|] else t[i];
    }
  }

  lemma BurstsAgree(p: Text, a: seq<bv8>, b: seq<bv8>, q: Text,
                    hrp: Text, words: seq<bv8>, data: seq<bv8>, hrp': Text, words': seq<bv8>, data': seq<bv8>)
    requires Symbols(a) && Symbols(b) && |a| == |b| <= 6 && |hrp| < |p|
    requires EncodedBy(p + Chars(a) + q, hrp, words, data) && EncodedBy(p + Chars(b) + q, hrp', words', data')
    ensures a == b
  {
    Parts(p + Chars(a) + q, hrp, words, data);
    Parts(p + Chars(b) + q, hrp', words', data');
    SameSeparator(p, a, b, q, hrp, hrp');
    assert hrp == p[..|hrp|] == hrp';
    SameWindow(p, a, b, q, hrp, words, words');
  }

  lemma SameWindow(p: Text, a: seq<bv8>, b: seq<bv8>, q: Text, hrp: Text, words: seq<bv8>, words': seq<bv8>)
    requires Symbols(a) && Symbols(b) && |a| == |b| <= 6 && |hrp| < |p| && Symbols(words) && Symbols(words')
    requires (p + Chars(a) + q)[|hrp| + 1..] == Chars(Sealed(hrp, words))
    requires (p + Chars(b) + q)[|hrp| + 1..] == Chars(Sealed(hrp, words'))
    ensures a == b
  {
    var all, all' := Sealed(hrp, words), Sealed(hrp, words');
    WindowOf(p, a, q, hrp, all);
    WindowOf(p, b, q, hrp, all');
    var k := |p| - |hrp| - 1;
    CharsInjective(all[..k], all'[..k]);
    CharsInjective(all[k + |a|..], all'[k + |a|..]);
    SealedApart(hrp, words, words', k, a, b);
  }

  lemma SameSeparator(p: Text, a: seq<bv8>, b: seq<bv8>, q: Text, hrp: Text, hrp': Text)
    requires Symbols(b) && |a| == |b| && |hrp| < |p|
    requires LastIndex(p + Chars(a) + q, SEPARATOR) == |hrp| && LastIndex(p + Chars(b) + q, SEPARATOR) == |hrp'|
    ensures |hrp| == |hrp'|
  {
    var t, t' := p + Chars(a) + q, p + Chars(b) + q;
    forall i | 0 <= i < |b| ensures Chars(b)[i] != SEPARATOR { CharsetIsPlain(b[i]); }
    forall i | |hrp| < i < |t'| ensures t'[i] != SEPARATOR {
      assert t'[i] == if |p| <= i < |p| + |b| then Chars(b)[i - |p|] else t[i];
    }
    assert t'[|hrp|] == t[|hrp|];
  }

  /** The replaced symbols sit at position |p| - |hrp| - 1 of the symbol string. */
  lemma WindowOf(p: Text, a: seq<bv8>, q: Text, hrp: Text, all: seq<bv8>)
    requires Symbols(a) && Symbols(all) && |hrp| < |p|
    requires (p + Chars(a) + q)[|hrp| + 1..] == Chars(all)
    ensures
      var k := |p| - |hrp| - 1;
      k + |a| <= |all| && all[k..k + |a|] == a && Chars(all[..k]) == p[|hrp| + 1..] && Chars(all[k + |a|..]) == q
  {
    var head, k := p[|hrp| + 1..], |p| - |hrp| - 1;
    assert Chars(all) == head + Chars(a) + q;
    ThreeParts(head, Chars(a), q);
    CharsSlice(all, k, k + |a|);
    CharsInjective(all[k..k + |a|], a);
    CharsSlice(all, 0, k);
    CharsSlice(all, k + |a|, |all|);
    assert all[0..k] == all[..k] && all[k + |a|..|all|] == all[k + |a|..];
  }

  lemma ThreeParts(a: Text, b: Text, c: Text)
    ensures
      var t := a + b + c;
      t[0..|a|] == a && t[|a|..|a| + |b|] == b && t[|a| + |b|..|t|] == c
  {}

  lemma CharsSlice(all: seq<bv8>, i: nat, j: nat)
    requires i <= j <= |all|
    ensures Chars(all[i..j]) == Chars(all)[i..j]
  {}

  lemma SealedVerifies(hrp: Text, words: seq<bv8>)
    requires Symbols(words)
    ensures Run(1, Expand(hrp) + Sealed(hrp, words)) == 1
  {
    Verifies(hrp, Sealed(hrp, words));
  }

  /** Sealed strings under one prefix that agree outside one window of six symbols are equal. */
  lemma SealedApart(hrp: Text, words: seq<bv8>, words': seq<bv8>, k: nat, a: seq<bv8>, b: seq<bv8>)
    requires Symbols(words) && Symbols(words') && Symbols(a) && Symbols(b) && |a| == |b| <= 6
    requires
      var all, all' := Sealed(hrp, words), Sealed(hrp, words');
      && k + |a| <= |all| == |all'| && all[..k] == all'[..k] && all[k + |a|..] == all'[k + |a|..]
      && all[k..k + |a|] == a && all'[k..k + |a|] == b
    ensures a == b
  {
    var all, all' := Sealed(hrp, words), Sealed(hrp, words');
    var pre, tail := Expand(hrp) + all[..k], all[k + |a|..];
    ExpandSymbols(hrp);
    SealedVerifies(hrp, words);
    SealedVerifies(hrp, words');
    Spliced(Expand(hrp), all, k, a, tail);
    Spliced(Expand(hrp), all', k, b, tail);
    VerifyingBurst(pre, a, b, tail);
  }

  lemma Spliced(e: seq<bv8>, all: seq<bv8>, k: nat, a: seq<bv8>, tail: seq<bv8>)
    requires k + |a| <= |all| && all[k..k + |a|] == a && all[k + |a|..] == tail
    ensures e + all == (e + all[..k]) + (a + tail)
  {
    assert all == all[..k] + (a + tail);
  }

  lemma VerifyingBurst(pre: seq<bv8>, a: seq<bv8>, b: seq<bv8>, tail: seq<bv8>)
    requires Symbols(pre) && Symbols(a) && Symbols(b) && Symbols(tail) && |a| == |b| <= 6
    requires Run(1, pre + (a + tail)) == Run(1, pre + (b + tail))
    ensures a == b
  {
    RunConcat(1, pre, a + tail);
    RunConcat(1, pre, b + tail);
    RunBounded(1, pre);
    if a != b {
      BurstSeparates(Run(1, pre), a, b, tail);
    }
  }

  /**
   One letter of the prefix replaced by another with the same high three bits, in a text of
   any length: the result encodes nothing. So a small letter replaced by another is detected.
   */
  lemma PrefixLetterDetected(x: Text, u: bv8, v: bv8, y: Text, rest: Text, data: seq<bv8>)
    requires u != v && HighBits(u) == HighBits(v)
    requires Encodes(x + [u] + y + rest, x + [u] + y, data)
    ensures Meaningless(x + [v] + y + rest)
    ensures PlainPrefix(x + [v] + y) ==> Meaning(x + [v] + y + rest) == None
    ensures PlainPrefix(x + [u] + y) && SmallLetter(u) ==> Meaning(x + [v] + y + rest) == None
  {
    var hrp, hrp' := x + [u] + y, x + [v] + y;
    var words :| EncodedBy(hrp + rest, hrp, words, data);
    LetterStaysPlain(x, u, v, y, rest, words, data);
    assert rest == [SEPARATOR] + Chars(Sealed(hrp, words)) by {
      assert rest == (hrp + rest)[|hrp|..];
      assert Rendered(hrp, words) == hrp + ([SEPARATOR] + Chars(Sealed(hrp, words)));
    }
    forall h, words', data' | h != [] && EncodedBy(hrp' + rest, h, words', data') ensures false {
      SameTail(hrp', rest, hrp, words, h, words', data');
      LettersAgree(x, u, v, y, words, words');
      SameLetter(u, v);
    }
  }

  predicate SmallLetter(u: bv8) { 0x61 <= u <= 0x7a }

  lemma LetterStaysPlain(x: Text, u: bv8, v: bv8, y: Text, rest: Text, words: seq<bv8>, data: seq<bv8>)
    requires HighBits(u) == HighBits(v) && EncodedBy(x + [u] + y + rest, x + [u] + y, words, data)
    ensures PlainPrefix(x + [u] + y) && SmallLetter(u) ==> PlainPrefix(x + [v] + y)
    ensures PlainPrefix(x + [v] + y) ==> Normalize(x + [v] + y + rest) == x + [v] + y + rest
  {
    var hrp := x + [u] + y;
    RenderedTail(hrp + rest, hrp, words, data);
    assert (hrp + rest)[|hrp|..] == rest;
    NormalIff(x + [v] + y, rest);
    if PlainPrefix(hrp) && SmallLetter(u) {
      NoCapital(u, v);
      PlainReplaced(x, u, v, y);
    }
  }

  lemma PlainReplaced(x: Text, u: bv8, v: bv8, y: Text)
    requires PlainPrefix(x + [u] + y) && LowerByte(v) == v && !Space(v)
    ensures PlainPrefix(x + [v] + y)
  {
    var hrp, hrp' := x + [u] + y, x + [v] + y;
    forall i | 0 <= i < |hrp'| ensures Lower(hrp')[i] == hrp'[i] {
      assert Lower(hrp)[i] == LowerByte(hrp[i]);
      assert i != |x| ==> hrp'[i] == hrp[i];
    }
    assert hrp'[0] == if x == [] then v else hrp[0];
  }

  lemma NoCapital(u: bv8, v: bv8)
    requires SmallLetter(u) && HighBits(u) == HighBits(v)
    ensures LowerByte(v) == v && !Space(v)
  {}

  /** The prefix of the changed text is the changed prefix, and its symbols are the former ones. */
  lemma SameTail(hrp': Text, rest: Text, hrp: Text, words: seq<bv8>, h: Text, words': seq<bv8>, data': seq<bv8>)
    requires Symbols(words) && rest == [SEPARATOR] + Chars(Sealed(hrp, words))
      && EncodedBy(hrp' + rest, h, words', data')
    ensures h == hrp' && Sealed(hrp', words') == Sealed(hrp, words)
  {
    var t, all := hrp' + rest, Sealed(hrp, words);
    Parts(t, h, words', data');
    forall i | 0 <= i < |all| ensures Chars(all)[i] != SEPARATOR { CharsetIsPlain(all[i]); }
    assert t[|hrp'|] == SEPARATOR;
    assert forall i :: |hrp'| < i < |t| ==> t[i] == Chars(all)[i - |hrp'| - 1];
    assert |h| == |hrp'|;
    assert t[|hrp'| + 1..] == Chars(all);
    CharsInjective(Sealed(h, words'), all);
  }

  lemma LettersAgree(x: Text, u: bv8, v: bv8, y: Text, words: seq<bv8>, words': seq<bv8>)
    requires HighBits(u) == HighBits(v) && Symbols(words) && Symbols(words')
    requires Sealed(x + [u] + y, words) == Sealed(x + [v] + y, words')
    ensures LowFive(u) == LowFive(v)
  {
    var hrp, hrp' := x + [u] + y, x + [v] + y;
    var all := Sealed(hrp, words);
    SealedVerifies(hrp, words);
    SealedVerifies(hrp', words');
    var pre, post := OneSymbolApart(x, u, v, y);
    Reassociated(pre, [LowFive(u)], post, all);
    Reassociated(pre, [LowFive(v)], post, all);
    LowFiveSymbol(u);
    LowFiveSymbol(v);
    VerifyingBurst(pre, [LowFive(u)], [LowFive(v)], post + all);
    assert [LowFive(u)][0] == [LowFive(v)][0];
  }

  lemma Reassociated(a: seq<bv8>, b: seq<bv8>, c: seq<bv8>, d: seq<bv8>)
    ensures a + b + c + d == a + (b + (c + d))
  {}

  lemma LowFiveSymbol(u: bv8)
    ensures Symbols([LowFive(u)])
  {}

  /** The expanded prefixes differ in one symbol. */
  lemma OneSymbolApart(x: Text, u: bv8, v: bv8, y: Text) returns (pre: seq<bv8>, post: seq<bv8>)
    requires HighBits(u) == HighBits(v)
    ensures Symbols(pre) && Symbols(post)
    ensures Expand(x + [u] + y) == pre + [LowFive(u)] + post && Expand(x + [v] + y) == pre + [LowFive(v)] + post
  {
    var e, e' := Expand(x + [u] + y), Expand(x + [v] + y);
    var k := |x| + 1 + |y| + 1 + |x|;
    ExpandSymbols(x + [u] + y);
    SameOutside(x, u, v, y, k);
    SplitAt(e, k);
    SplitAt(e', k);
    pre, post := e[..k], e[k + 1..];
    assert e'[..k] == pre && e'[k + 1..] == post;
  }

  /** The two expansions agree but at the place of the low bits of the letter. */
  lemma SameOutside(x: Text, u: bv8, v: bv8, y: Text, k: nat)
    requires HighBits(u) == HighBits(v) && k == |x| + 1 + |y| + 1 + |x|
    ensures
      var e, e' := Expand(x + [u] + y), Expand(x + [v] + y);
      |e| == |e'| > k && e[k] == LowFive(u) && e'[k] == LowFive(v)
      && forall i :: 0 <= i < |e| && i != k ==> e[i] == e'[i]
  {
    var hrp, hrp' := x + [u] + y, x + [v] + y;
    assert hrp[|x|] == u && hrp'[|x|] == v && forall i :: 0 <= i < |hrp| && i != |x| ==> hrp[i] == hrp'[i];
  }

  lemma SplitAt(e: seq<bv8>, k: nat)
    requires k < |e|
    ensures e == e[..k] + [e[k]] + e[k + 1..]
  {}

  lemma SameLetter(u: bv8, v: bv8)
    requires HighBits(u) == HighBits(v) && LowFive(u) == LowFive(v)
    ensures u == v
  {}

  /** AddressFromBytes followed by Bech32Decode. */
  method ReadBack(bytes: seq<bv8>, prefix: Text) returns (r: Decoding)
    requires Ascii(prefix)
    ensures r == Ok(prefix, bytes) <==> PlainPrefix(prefix)
  {
    var t := AddressFromBytes(bytes, prefix);
    assert Ascii(t) by {
      var words :| EncodedBy(t, prefix, words, bytes);
      AsciiRendered(t, prefix, words, bytes);
    }
    r := Decode(t);
    RoundTrip(t, prefix, bytes);
  }

  lemma AsciiRendered(t: Text, hrp: Text, words: seq<bv8>, data: seq<bv8>)
    requires EncodedBy(t, hrp, words, data) && Ascii(hrp)
    ensures Ascii(t)
  {
    var all := Sealed(hrp, words);
    forall i | 0 <= i < |all| ensures Chars(all)[i] < 0x80 { CharsetIsPlain(all[i]); }
  }
}
