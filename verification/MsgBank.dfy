/** The totals of a MsgMultiSend: buildMsgMultiSend of internal/tx/msg_bank.go. */
module MsgBank {
  import opened Options

  const TWO63: int := 0x8000_0000_0000_0000
  const TWO64: int := 0x1_0000_0000_0000_0000

  datatype Coin = Coin(denom: string, amount: string)
  datatype Output = Output(toAddress: string, coins: seq<Coin>)
  datatype Message = Message(fromAddress: string, input: seq<Coin>, outputs: seq<Output>)
  datatype Built = Ok(msg: Message) | ErrNoOutputs | ErrAmount(denom: string)

  predicate Int64(x: int) { -TWO63 <= x < TWO63 }

  /** The value an int64 holds after overflow. */
  function Wrap64(x: int): (y: int)
    ensures Int64(y)
  {
    (x + TWO63) % TWO64 - TWO63
  }

  lemma WrapAdds(x: int, n: int)
    ensures Wrap64(Wrap64(x) + n) == Wrap64(x + n)
    ensures Wrap64(x) == x <==> Int64(x)
  {}

  // ---- decimal text ----

  predicate Digits(s: string) { forall i :: 0 <= i < |s| ==> '0' <= s[i] <= '9' }

  function DigitsValue(s: string): nat
    requires Digits(s)
  {
    if s == [] then 0 else 10 * DigitsValue(s[..|s| - 1]) + (s[|s| - 1] as int - '0' as int)
  }

  /** strconv.ParseInt(s, 10, 64). */
  function ParseInt(s: string): Option<int> {
    if s != [] && s[0] == '-' then ReadDigits(s[1..], true)
    else if s != [] && s[0] == '+' then ReadDigits(s[1..], false)
    else ReadDigits(s, false)
  }

  function ReadDigits(d: string, negative: bool): Option<int> {
    if d == [] || !Digits(d) then None
    else
      var n: int := if negative then 0 - DigitsValue(d) else DigitsValue(d);
      if Int64(n) then Some(n) else None
  }

  function FormatNat(n: nat): (s: string)
    ensures s != [] && Digits(s)
  {
    var last := [('0' as int + n % 10) as char];
    if n < 10 then last else FormatNat(n / 10) + last
  }

  /** fmt.Sprintf("%d", n). */
  function FormatInt(n: int): string {
    if n < 0 then "-" + FormatNat(-n) else FormatNat(n)
  }

  lemma {:induction false} FormatNatReads(n: nat)
    ensures DigitsValue(FormatNat(n)) == n
  {
    var s := FormatNat(n);
    if n < 10 {
      assert s[..0] == [];
    } else {
      FormatNatReads(n / 10);
      assert s[..|s| - 1] == FormatNat(n / 10);
    }
  }

  lemma FormatReads(n: int)
    requires Int64(n)
    ensures ParseInt(FormatInt(n)) == Some(n)
  {
    if n < 0 {
      FormatNatReads(-n);
      assert FormatInt(n)[1..] == FormatNat(-n);
    } else {
      FormatNatReads(n);
      assert '0' <= FormatNat(n)[0] <= '9';
    }
  }

  function Pow10(n: nat): nat { if n == 0 then 1 else 10 * Pow10(n - 1) }

  /** x with n noughts after it. */
  function Scaled(x: nat, n: nat): nat { if n == 0 then x else 10 * Scaled(x, n - 1) }

  lemma {:induction false} ScaledIs(x: nat, n: nat)
    ensures Scaled(x, n) == x * Pow10(n)
  {
    if n == 0 {
    } else {
      ScaledIs(x, n - 1);
    }
  }

  lemma LastDigit(s: string, c: char)
    requires Digits(s) && '0' <= c <= '9'
    ensures Digits(s + [c]) && DigitsValue(s + [c]) == 10 * DigitsValue(s) + (c as int - '0' as int)
  {
    assert (s + [c])[..|s|] == s;
  }

  lemma {:induction false} ScaledDigits(a: string, b: string, n: nat)
    requires Digits(a) && Digits(b) && n <= |b|
    ensures Digits(a + b[..n]) && DigitsValue(a + b[..n]) == Scaled(DigitsValue(a), n) + DigitsValue(b[..n])
  {
    if n == 0 {
      assert a + b[..0] == a;
    } else {
      ScaledDigits(a, b, n - 1);
      ScaledStep(DigitsValue(a), a + b[..n - 1], b[..n - 1], b[n - 1]);
      Lengthened(a, b, n - 1);
    }
  }

  lemma Lengthened(a: string, b: string, n: nat)
    requires n < |b|
    ensures b[..n + 1] == b[..n] + [b[n]] && a + b[..n + 1] == (a + b[..n]) + [b[n]]
  {}

  lemma ScaledStep(x: nat, s: string, t: string, c: char)
    requires Digits(s) && Digits(t) && '0' <= c <= '9' && DigitsValue(s) == Scaled(x, |t|) + DigitsValue(t)
    ensures Digits(s + [c]) && Digits(t + [c])
    ensures DigitsValue(s + [c]) == Scaled(x, |t| + 1) + DigitsValue(t + [c])
  {
    LastDigit(s, c);
    LastDigit(t, c);
  }

  /** Decimal places: what stands to the left of n digits counts 10^n times. */
  lemma PlaceValue(a: string, b: string)
    requires Digits(a) && Digits(b)
    ensures Digits(a + b) && DigitsValue(a + b) == DigitsValue(a) * Pow10(|b|) + DigitsValue(b)
  {
    ScaledDigits(a, b, |b|);
    assert b[..|b|] == b;
    ScaledIs(DigitsValue(a), |b|);
  }

  function Noughts(n: nat): (s: string)
    ensures |s| == n && Digits(s)
  {
    seq(n, _ => '0')
  }

  lemma {:induction false} NoughtsAreZero(n: nat)
    ensures DigitsValue(Noughts(n)) == 0
  {
    if n == 0 {
    } else {
      NoughtsAreZero(n - 1);
      assert Noughts(n)[..n - 1] == Noughts(n - 1);
    }
  }

  /** A one with n noughts is 10^n; one digit is what it shows. */
  lemma PowersOfTen(n: nat, c: char)
    requires '0' <= c <= '9'
    ensures Digits("1" + Noughts(n)) && DigitsValue("1" + Noughts(n)) == Pow10(n)
    ensures Digits([c]) && DigitsValue([c]) == c as int - '0' as int
  {
    assert [c][..0] == [] && "1"[..0] == [];
    assert DigitsValue("1") == 1;
    PlaceValue("1", Noughts(n));
    NoughtsAreZero(n);
  }

  /** A number is written without leading noughts, with a minus sign exactly if it is negative. */
  lemma {:induction false} FormatIsPlain(n: int)
    ensures FormatInt(n)[0] == '-' <==> n < 0
    ensures n > 0 ==> FormatNat(n)[0] != '0'
    ensures FormatInt(0) == "0"
  {
    if n > 9 {
      FormatIsPlain(n / 10);
      assert FormatNat(n)[0] == FormatNat(n / 10)[0];
    } else if n >= 0 {
      assert '0' <= FormatNat(n)[0] <= '9';
    }
  }

  /** One sign is read, the digits after it, and nothing beyond an int64. */
  lemma SignsAndLimits(s: string)
    requires s != [] && Digits(s)
    ensures ParseInt("-" + s) == if DigitsValue(s) <= 9223372036854775808 then Some(0 - DigitsValue(s) as int) else None
    ensures ParseInt("+" + s) == ParseInt(s)
    ensures ParseInt(s) == if DigitsValue(s) <= 9223372036854775807 then Some(DigitsValue(s)) else None
    ensures ParseInt("") == None && ParseInt("-") == None && ParseInt("+") == None && ParseInt("--" + s) == None
  {
    assert ("-" + s)[1..] == s && ("+" + s)[1..] == s && ("--" + s)[1..] == "-" + s;
    assert ("-" + s)[0] == '-' && !Digits("-" + s);
    assert '0' <= s[0] <= '9';
  }

  // ---- the reference: all coins of all outputs ----

  function AllCoins(outputs: seq<Output>): seq<Coin> {
    if outputs == [] then [] else AllCoins(outputs[..|outputs| - 1]) + outputs[|outputs| - 1].coins
  }

  predicate Parses(coins: seq<Coin>) {
    forall i :: 0 <= i < |coins| ==> ParseInt(coins[i].amount).Some?
  }

  /** What the recipients get of one denom in all. */
  function SumOf(coins: seq<Coin>, denom: string): int
    requires Parses(coins)
  {
    if coins == [] then 0
    else
      var c := coins[|coins| - 1];
      SumOf(coins[..|coins| - 1], denom) + (if c.denom == denom then ParseInt(c.amount).value else 0)
  }

  /** Where a denom first occurs, or the length. */
  function FirstIndex(coins: seq<Coin>, denom: string): (k: nat)
    ensures k <= |coins|
    ensures k < |coins| ==> coins[k].denom == denom
    ensures forall m :: 0 <= m < k ==> coins[m].denom != denom
  {
    if coins == [] then 0
    else
      var n := |coins| - 1;
      var k := FirstIndex(coins[..n], denom);
      if k < n then k else if coins[n].denom == denom then n else n + 1
  }

  /** All denoms, once each, in the order in which they first occur. */
  ghost predicate FirstSeenOrder(order: seq<string>, coins: seq<Coin>) {
    && (forall k :: 0 <= k < |coins| ==> coins[k].denom in order)
    && (forall i :: 0 <= i < |order| ==> FirstIndex(coins, order[i]) < |coins|)
    && (forall i, j :: 0 <= i < j < |order| ==> FirstIndex(coins, order[i]) < FirstIndex(coins, order[j]))
  }

  /** The message spends exactly what its outputs pay out. */
  ghost predicate Balanced(msg: Message)
    requires Parses(AllCoins(msg.outputs))
  {
    forall i :: 0 <= i < |msg.input| ==>
      ParseInt(msg.input[i].amount) == Some(SumOf(AllCoins(msg.outputs), msg.input[i].denom))
  }

  /** The message spends what its outputs pay out, as far as an int64 can hold it. */
  ghost predicate SpendsWrapped(msg: Message)
    requires Parses(AllCoins(msg.outputs))
  {
    forall i :: 0 <= i < |msg.input| ==>
      ParseInt(msg.input[i].amount) == Some(Wrap64(SumOf(AllCoins(msg.outputs), msg.input[i].denom)))
  }

  // ---- the message ----

  ghost predicate Sums(totals: map<string, int>, coins: seq<Coin>)
    requires Parses(coins)
  {
    forall d :: d in totals ==> totals[d] == Wrap64(SumOf(coins, d))
  }

  ghost predicate Totals(totals: map<string, int>, order: seq<string>, coins: seq<Coin>) {
    && Parses(coins)
    && FirstSeenOrder(order, coins)
    && (forall d :: d in totals <==> d in order)
    && Sums(totals, coins)
  }

  lemma {:induction false} SumOfAbsent(coins: seq<Coin>, denom: string)
    requires Parses(coins) && forall k :: 0 <= k < |coins| ==> coins[k].denom != denom
    ensures SumOf(coins, denom) == 0
  {
    if coins == [] {
    } else {
      SumOfAbsent(coins[..|coins| - 1], denom);
    }
  }

  lemma FirstIndexStep(coins: seq<Coin>, c: Coin, d: string)
    ensures FirstIndex(coins + [c], d) ==
      if FirstIndex(coins, d) < |coins| then FirstIndex(coins, d) else if c.denom == d then |coins| else |coins| + 1
  {
    assert (coins + [c])[..|coins|] == coins;
  }

  lemma OrderStep(order: seq<string>, coins: seq<Coin>, c: Coin)
    requires FirstSeenOrder(order, coins)
    ensures FirstSeenOrder(if c.denom in order then order else order + [c.denom], coins + [c])
  {
    var order', coins' := if c.denom in order then order else order + [c.denom], coins + [c];
    forall i | 0 <= i < |order'|
      ensures FirstIndex(coins', order'[i]) == if i < |order| then FirstIndex(coins, order[i]) else |coins|
    {
      IndexOfOrder(order, coins, c, i);
    }
    forall k | 0 <= k < |coins'| ensures coins'[k].denom in order' {
      if k < |coins| {
        assert coins[k].denom in order;
      } else if c.denom !in order {
        assert order'[|order|] == c.denom;
      }
    }
  }

  lemma IndexOfOrder(order: seq<string>, coins: seq<Coin>, c: Coin, i: nat)
    requires FirstSeenOrder(order, coins) && i < |order| + if c.denom in order then 0 else 1
    ensures FirstIndex(coins + [c], (order + [c.denom])[i]) ==
      if i < |order| then FirstIndex(coins, order[i]) else |coins|
  {
    FirstIndexStep(coins, c, (order + [c.denom])[i]);
  }

  lemma SumStep(coins: seq<Coin>, c: Coin, d: string)
    requires Parses(coins) && ParseInt(c.amount).Some?
    ensures Parses(coins + [c])
    ensures SumOf(coins + [c], d) == SumOf(coins, d) + if c.denom == d then ParseInt(c.amount).value else 0
  {
    assert (coins + [c])[..|coins|] == coins;
  }

  function Added(totals: map<string, int>, denom: string, n: int): map<string, int> {
    totals[denom := Wrap64((if denom in totals then totals[denom] else 0) + n)]
  }

  lemma SumsStep(totals: map<string, int>, order: seq<string>, coins: seq<Coin>, c: Coin, n: int)
    requires Totals(totals, order, coins) && ParseInt(c.amount) == Some(n)
    ensures Parses(coins + [c]) && Sums(Added(totals, c.denom, n), coins + [c])
  {
    forall d | d in Added(totals, c.denom, n)
      ensures Parses(coins + [c]) && Added(totals, c.denom, n)[d] == Wrap64(SumOf(coins + [c], d))
    {
      TotalSoFar(totals, order, coins, d);
      OneSumStep(totals, coins, c, n, d);
    }
  }

  lemma OneSumStep(totals: map<string, int>, coins: seq<Coin>, c: Coin, n: int, d: string)
    requires Parses(coins) && ParseInt(c.amount) == Some(n) && (d in totals || d == c.denom)
    requires (if d in totals then totals[d] else 0) == Wrap64(SumOf(coins, d))
    ensures Parses(coins + [c]) && Added(totals, c.denom, n)[d] == Wrap64(SumOf(coins + [c], d))
  {
    SumStep(coins, c, d);
    TotalStep(totals, c.denom, n, d, SumOf(coins, d));
  }

  lemma TotalStep(totals: map<string, int>, denom: string, n: int, d: string, x: int)
    requires (d in totals || d == denom) && (if d in totals then totals[d] else 0) == Wrap64(x)
    ensures Added(totals, denom, n)[d] == Wrap64(x + if d == denom then n else 0)
  {
    WrapAdds(x, n);
  }

  lemma TotalSoFar(totals: map<string, int>, order: seq<string>, coins: seq<Coin>, d: string)
    requires Totals(totals, order, coins)
    ensures (if d in totals then totals[d] else 0) == Wrap64(SumOf(coins, d))
  {
    if d !in totals {
      SumOfAbsent(coins, d);
    }
  }

  lemma TotalsStep(totals: map<string, int>, order: seq<string>, coins: seq<Coin>, c: Coin, n: int)
    requires Totals(totals, order, coins) && ParseInt(c.amount) == Some(n)
    ensures Totals(Added(totals, c.denom, n), if c.denom in order then order else order + [c.denom], coins + [c])
  {
    OrderStep(order, coins, c);
    SumsStep(totals, order, coins, c, n);
  }

  lemma ParsesTail(a: seq<Coin>, b: seq<Coin>)
    requires Parses(a + b)
    ensures Parses(b)
  {
    forall k | 0 <= k < |b| ensures ParseInt(b[k].amount).Some? {
      assert b[k] == (a + b)[|a| + k];
    }
  }

  /** The inner loop: the coins of one output. */
  method AddCoins(totals0: map<string, int>, order0: seq<string>, coins: seq<Coin>, ghost done: seq<Coin>)
    returns (totals: map<string, int>, order: seq<string>, bad: Option<nat>)
    requires Totals(totals0, order0, done)
    ensures bad.None? ==> Totals(totals, order, done + coins)
    ensures bad.Some? ==> bad.value < |coins| && Parses(coins[..bad.value]) && ParseInt(coins[bad.value].amount).None?
  {
    totals, order := totals0, order0;
    assert done + coins[..0] == done;
    for j := 0 to |coins|
      invariant Totals(totals, order, done + coins[..j])
    {
      var c := coins[j];
      assert done + coins[..j + 1] == (done + coins[..j]) + [c];
      ghost var before := order;
      if c.denom !in totals {
        order := order + [c.denom];
      }
      var n := ParseInt(c.amount);
      if n.None? {
        ParsesTail(done, coins[..j]);
        return totals, order, Some(j);
      }
      TotalsStep(totals, before, done + coins[..j], c, n.value);
      totals := Added(totals, c.denom, n.value);
    }
    assert coins[..|coins|] == coins;
    bad := None;
  }

  /** The outer loop: all outputs, or the denom of the first coin whose amount does not parse. */
  method AddOutputs(outputs: seq<Output>) returns (totals: map<string, int>, order: seq<string>, bad: Option<string>)
    ensures bad.None? ==> Totals(totals, order, AllCoins(outputs))
    ensures bad.Some? ==> FirstUnread(AllCoins(outputs), bad.value)
  {
    totals, order := map[], [];
    for i := 0 to |outputs|
      invariant Totals(totals, order, AllCoins(outputs[..i]))
    {
      assert outputs[..i + 1][..i] == outputs[..i];
      var at;
      totals, order, at := AddCoins(totals, order, outputs[i].coins, AllCoins(outputs[..i]));
      if at.Some? {
        UnreadAt(outputs, i, at.value);
        return totals, order, Some(outputs[i].coins[at.value].denom);
      }
    }
    assert outputs[..|outputs|] == outputs;
    bad := None;
  }

  /** The input of the message: every denom with its total, in order. */
  method ListTotals(totals: map<string, int>, order: seq<string>) returns (input: seq<Coin>)
    requires forall k :: 0 <= k < |order| ==> order[k] in totals
    ensures |input| == |order| && Denoms(input) == order
    ensures forall k :: 0 <= k < |order| ==> input[k] == Coin(order[k], FormatInt(totals[order[k]]))
  {
    input := [];
    for i := 0 to |order|
      invariant |input| == i
      invariant forall k :: 0 <= k < i ==> input[k] == Coin(order[k], FormatInt(totals[order[k]]))
    {
      input := input + [Coin(order[i], FormatInt(totals[order[i]]))];
    }
  }

  /** What a message that was built promises about the coins of its outputs. */
  ghost predicate Adds(msg: Message) {
    var coins := AllCoins(msg.outputs);
    && Parses(coins) && FirstSeenOrder(Denoms(msg.input), coins) && SpendsWrapped(msg)
    && (Balanced(msg) <==> forall d :: d in Denoms(msg.input) ==> Int64(SumOf(coins, d)))
  }

  /** buildMsgMultiSend, up to the protobuf encoding of the message. */
  method BuildMsgMultiSend(fromAddress: string, outputs: seq<Output>) returns (r: Built)
    ensures r.ErrNoOutputs? <==> outputs == []
    ensures r.ErrAmount? ==> FirstUnread(AllCoins(outputs), r.denom)
    ensures r.Ok? <==> outputs != [] && Parses(AllCoins(outputs))
    ensures r.Ok? ==> r.msg.fromAddress == fromAddress && r.msg.outputs == outputs && Adds(r.msg)
  {
    if outputs == [] {
      return ErrNoOutputs;
    }
    var totals, order, bad := AddOutputs(outputs);
    if bad.Some? {
      UnreadFails(AllCoins(outputs), bad.value);
      return ErrAmount(bad.value);
    }
    var input := ListTotals(totals, order);
    r := Ok(Message(fromAddress, input, outputs));
    BalanceIff(r.msg, totals, order);
  }

  function Denoms(coins: seq<Coin>): (d: seq<string>)
    ensures |d| == |coins|
  {
    seq(|coins|, i requires 0 <= i < |coins| => coins[i].denom)
  }

  /** The first coin whose amount does not parse has the denom. */
  ghost predicate FirstUnread(coins: seq<Coin>, denom: string) {
    exists k :: 0 <= k < |coins| && UnreadFirst(coins, k) && coins[k].denom == denom
  }

  ghost predicate UnreadFirst(coins: seq<Coin>, k: nat)
    requires k < |coins|
  {
    Parses(coins[..k]) && ParseInt(coins[k].amount).None?
  }

  lemma UnreadFails(coins: seq<Coin>, denom: string)
    requires FirstUnread(coins, denom)
    ensures !Parses(coins)
  {}

  lemma {:induction false} CoinsOfPrefix(outputs: seq<Output>, i: nat)
    requires i <= |outputs|
    ensures AllCoins(outputs[..i]) <= AllCoins(outputs)
    decreases |outputs| - i
  {
    if i == |outputs| {
      assert outputs[..i] == outputs;
    } else {
      CoinsOfPrefix(outputs, i + 1);
      assert outputs[..i + 1][..i] == outputs[..i];
    }
  }

  /** All coins of the outputs before this one parse, and so do its coins before this one. */
  lemma UnreadAt(outputs: seq<Output>, i: nat, j: nat)
    requires i < |outputs| && j < |outputs[i].coins| && ParseInt(outputs[i].coins[j].amount).None?
    requires Parses(AllCoins(outputs[..i])) && Parses(outputs[i].coins[..j])
    ensures FirstUnread(AllCoins(outputs), outputs[i].coins[j].denom)
  {
    var all, before := AllCoins(outputs), AllCoins(outputs[..i]);
    CoinsOfPrefix(outputs, i + 1);
    assert outputs[..i + 1][..i] == outputs[..i];
    assert before + outputs[i].coins <= all;
    var k := |before| + j;
    assert all[k] == outputs[i].coins[j];
    assert all[..k] == before + outputs[i].coins[..j];
    assert UnreadFirst(all, k);
  }

  lemma BalanceIff(msg: Message, totals: map<string, int>, order: seq<string>)
    requires Totals(totals, order, AllCoins(msg.outputs)) && |msg.input| == |order|
    requires forall k :: 0 <= k < |order| ==> msg.input[k] == Coin(order[k], FormatInt(totals[order[k]]))
    requires Denoms(msg.input) == order
    ensures Adds(msg)
  {
    forall k | 0 <= k < |order|
      ensures
        var sum := SumOf(AllCoins(msg.outputs), order[k]);
        ParseInt(msg.input[k].amount) == Some(Wrap64(sum)) && (Wrap64(sum) == sum <==> Int64(sum))
    {
      FormatReads(totals[order[k]]);
      WrapAdds(SumOf(AllCoins(msg.outputs), order[k]), 0);
    }
  }

  lemma TwoCoins(denom: string, a: int, b: int) returns (coins: seq<Coin>)
    requires Int64(a) && Int64(b)
    ensures |coins| == 2 && coins[0].denom == coins[1].denom == denom
    ensures ParseInt(coins[0].amount) == Some(a) && ParseInt(coins[1].amount) == Some(b)
    ensures Parses(coins) && SumOf(coins, denom) == a + b
  {
    var first, second := Coin(denom, FormatInt(a)), Coin(denom, FormatInt(b));
    FormatReads(a);
    FormatReads(b);
    SumStep([], first, denom);
    SumStep([first], second, denom);
    assert [] + [first] == [first] && [first] + [second] == [first, second];
    coins := [first, second];
  }

  /**
   Two payments of 2^63 - 1 and 1, to one recipient each: every message that is built for
   them spends -2^63, and so is not balanced.
   */
  lemma OverflowUnbalances(denom: string, first: string, second: string) returns (outputs: seq<Output>)
    ensures |outputs| == 2 && outputs[0].toAddress == first && outputs[1].toAddress == second
    ensures Parses(AllCoins(outputs)) && SumOf(AllCoins(outputs), denom) == TWO63
    ensures forall msg :: Adds(msg) && msg.outputs == outputs ==>
      |msg.input| > 0 && ParseInt(msg.input[0].amount) == Some(-TWO63) && !Balanced(msg)
  {
    var coins := TwoCoins(denom, TWO63 - 1, 1);
    outputs := [Output(first, [coins[0]]), Output(second, [coins[1]])];
    assert outputs[..1] == [outputs[0]] && outputs[..1][..0] == [];
    assert AllCoins(outputs[..1]) == [] + [coins[0]];
    assert AllCoins(outputs) == coins;
    forall msg | Adds(msg) && msg.outputs == outputs
      ensures |msg.input| > 0 && ParseInt(msg.input[0].amount) == Some(-TWO63) && !Balanced(msg)
    {
      OnlyDenom(msg.input, coins, denom);
    }
  }

  lemma OnlyDenom(input: seq<Coin>, coins: seq<Coin>, denom: string)
    requires FirstSeenOrder(Denoms(input), coins) && coins != []
    requires forall k :: 0 <= k < |coins| ==> coins[k].denom == denom
    ensures input != [] && input[0].denom == denom
  {
    assert coins[0].denom in Denoms(input);
    assert FirstIndex(coins, Denoms(input)[0]) < |coins|;
  }
}
