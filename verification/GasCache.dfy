/**
 The gas cache: internal/gascache/cache.go and decay.go, with the trusted estimate of
 internal/tx/fee.go that reads it.

 The table is a map from chain to row. Prices are exact decimals in the source and
 `real` here; text that does not parse as one is `Malformed`.
 */
module GasCache {
  import opened Options

  datatype Price = Decimal(value: real) | Malformed
  datatype MsgType = Send | MultiSend | Transfer

  datatype Row = Row(
    baseGas: nat, sampleCount: nat,
    multiGas: nat, multiCount: nat,
    gasPerOutput: nat, feeDenom: string, price: Price)

  datatype Estimate = Estimate(baseGas: nat, gasPerOutput: nat, feeDenom: string, price: Price, sampleCount: nat)

  function Min(a: nat, b: nat): nat { if a < b then a else b }

  /** The average over at most 20 samples, rounded down. */
  function Average(avg: nat, count: nat, sample: nat): nat {
    (avg * Min(count, 20) + sample) / (Min(count, 20) + 1)
  }

  /** The sample that a multi-send contributes. */
  function PerOutput(gasUsed: nat, outputs: int): nat {
    if outputs > 0 then gasUsed / outputs else gasUsed
  }

  /** The row of a chain after one successful broadcast. */
  function Recorded(row: Option<Row>, msgType: MsgType, gasUsed: nat, outputs: int, denom: string, price: real): Row {
    match row
    case None =>
      if msgType == MultiSend then Row(0, 0, PerOutput(gasUsed, outputs), 1, 0, denom, Decimal(price))
      else Row(gasUsed, 1, 0, 0, 0, denom, Decimal(price))
    case Some(r) =>
      if msgType == MultiSend then
        r.(multiGas := Average(r.multiGas, r.multiCount, PerOutput(gasUsed, outputs)), multiCount := r.multiCount + 1,
           feeDenom := denom, price := Decimal(price))
      else
        r.(baseGas := Average(r.baseGas, r.sampleCount, gasUsed), sampleCount := r.sampleCount + 1,
           feeDenom := denom, price := Decimal(price))
  }

  function Get(rows: map<string, Row>, chain: string): Option<Row> {
    if chain in rows then Some(rows[chain]) else None
  }

  // ---- decay ----

  /** The price of one row after one decay tick. */
  function Decayed(current: real, floor: Option<Price>): real {
    var target :=
      match floor
      case Some(Decimal(f)) => (if current * 0.9 < f then f else current * 0.9)
      case _ => current * 0.95;
    if target >= current then current else target
  }

  function DecayedRow(row: Row, floor: Option<Price>): Row {
    match row.price
    case Malformed => row
    case Decimal(p) => row.(price := Decimal(Decayed(p, floor)))
  }

  function Cached(row: Row, msgType: MsgType): Estimate {
    if msgType == MultiSend then Estimate(0, row.multiGas, row.feeDenom, row.price, row.multiCount)
    else Estimate(row.baseGas, row.gasPerOutput, row.feeDenom, row.price, row.sampleCount)
  }

  /** What Lookup finds of a row. */
  function Found(row: Option<Row>, msgType: MsgType): Option<Estimate> {
    if row.None? || (msgType == MultiSend && row.value.multiCount == 0) then None else Some(Cached(row.value, msgType))
  }

  // ---- the average over every run ----

  /** What can happen to the row of one chain. */
  datatype Event =
    | Success(msgType: MsgType, gasUsed: nat, outputs: int, denom: string, price: real)
    | Decay(floor: Option<Price>)
    | Cleared

  function Apply(row: Option<Row>, e: Event): Option<Row> {
    match e
    case Success(t, gas, n, denom, price) => Some(Recorded(row, t, gas, n, denom, price))
    case Decay(floor) => if row.None? then None else Some(DecayedRow(row.value, floor))
    case Cleared => None
  }

  function After(events: seq<Event>): Option<Row> {
    if events == [] then None else Apply(After(events[..|events| - 1]), events[|events| - 1])
  }

  /** The samples of one kind since the last reset; a transfer counts as a send. */
  function Samples(events: seq<Event>, multi: bool): seq<nat> {
    if events == [] then []
    else
      var before, e := Samples(events[..|events| - 1], multi), events[|events| - 1];
      match e
      case Cleared => []
      case Decay(_) => before
      case Success(t, gas, n, _, _) =>
        if (t == MultiSend) != multi then before else before + [if multi && n > 0 then gas / n else gas]
  }

  // ---- the cache ----

  /** What can happen to the cache: a success or a reset of one chain, or a decay tick of all. */
  datatype Deed = Of(chain: string, event: Event) | Tick(lowGasPrice: string -> Option<Price>)

  /** What of it happened to one chain. */
  ghost function EventsOf(history: seq<Deed>, chain: string): seq<Event> {
    if history == [] then []
    else
      var before := EventsOf(history[..|history| - 1], chain);
      match history[|history| - 1]
      case Of(c, e) => if c == chain then before + [e] else before
      case Tick(low) => before + [Decay(low(chain))]
  }

  ghost function Happens(row: Option<Row>, d: Deed, chain: string): Option<Row> {
    match d
    case Of(c, e) => if c == chain then Apply(row, e) else row
    case Tick(low) => Apply(row, Decay(low(chain)))
  }

  lemma EventsOn(history: seq<Deed>, d: Deed, chain: string)
    ensures After(EventsOf(history + [d], chain)) == Happens(After(EventsOf(history, chain)), d, chain)
  {
    assert (history + [d])[..|history|] == history;
    var before, after := EventsOf(history, chain), EventsOf(history + [d], chain);
    if after != before {
      assert after[..|after| - 1] == before;
    }
  }

  class Cache {
    var rows: map<string, Row>
    ghost var history: seq<Deed>

    /** Every row is what the history of its chain makes of it. */
    ghost predicate Valid()
      reads this
    {
      forall c :: Get(rows, c) == After(EventsOf(history, c))
    }

    constructor ()
      ensures Valid() && history == []
    {
      rows, history := map[], [];
    }

    method RecordSuccess(chain: string, msgType: MsgType, gasUsed: nat, outputs: int, denom: string, price: Price)
      returns (ok: bool)
      requires Valid()
      modifies this
      ensures Valid() && (ok <==> price.Decimal?)
      ensures history == old(history) +
        if ok then [Of(chain, Success(msgType, gasUsed, outputs, denom, price.value))] else []
    {
      if price.Malformed? {
        return false;
      }
      ghost var d := Of(chain, Success(msgType, gasUsed, outputs, denom, price.value));
      forall c { EventsOn(history, d, c); }
      rows := rows[chain := Recorded(Get(rows, chain), msgType, gasUsed, outputs, denom, price.value)];
      history := history + [d];
      return true;
    }

    method Lookup(chain: string, msgType: MsgType) returns (e: Option<Estimate>)
      requires Valid()
      ensures e == Found(After(EventsOf(history, chain)), msgType)
    {
      assert Get(rows, chain) == After(EventsOf(history, chain));
      if chain !in rows || (msgType == MultiSend && rows[chain].multiCount == 0) {
        return None;
      }
      return Some(Cached(rows[chain], msgType));
    }

    method Reset(chain: string)
      requires Valid()
      modifies this
      ensures Valid() && history == old(history) + [Of(chain, Cleared)]
    {
      forall c { EventsOn(history, Of(chain, Cleared), c); }
      rows := rows - {chain};
      history := history + [Of(chain, Cleared)];
    }

    /** runDecay: every row once, in any order. */
    method RunDecay(lowGasPrice: string -> Option<Price>)
      requires Valid()
      modifies this
      ensures Valid() && history == old(history) + [Tick(lowGasPrice)]
    {
      var todo := rows.Keys;
      while todo != {}
        invariant todo <= old(rows.Keys) == rows.Keys && history == old(history)
        invariant forall c :: c in rows ==>
          rows[c] == if c in todo then old(rows)[c] else DecayedRow(old(rows)[c], lowGasPrice(c))
        decreases todo
      {
        var c :| c in todo;
        rows := rows[c := DecayedRow(rows[c], lowGasPrice(c))];
        todo := todo - {c};
      }
      forall c { EventsOn(history, Tick(lowGasPrice), c); }
      history := history + [Tick(lowGasPrice)];
    }
  }

  ghost predicate Within(samples: seq<nat>, low: nat, high: nat) {
    forall i :: 0 <= i < |samples| ==> low <= samples[i] <= high
  }

  lemma Multiply(a: int, b: int, k: nat)
    requires a <= b
    ensures a * k <= b * k
    ensures a * (k + 1) == a * k + a
  {}

  lemma DivideBounds(x: nat, d: nat, low: nat, high: nat)
    requires d > 0
    ensures low * d <= x ==> low <= x / d
    ensures x < (high + 1) * d ==> x / d <= high
  {
    var q := x / d;
    assert q * d <= x < (q + 1) * d;
    if q < low {
      Multiply(q + 1, low, d);
    }
    if q > high {
      Multiply(high + 1, q, d);
    }
  }

  lemma WeightedWithin(avg: nat, k: nat, sample: nat, low: nat, high: nat)
    requires low <= sample <= high && low <= avg <= high
    ensures low <= (avg * k + sample) / (k + 1) <= high
  {
    Multiply(low, avg, k);
    Multiply(avg, high, k);
    assert low * (k + 1) <= avg * k + sample;
    assert (high + 1) * (k + 1) == high * k + high + k + 1;
    DivideBounds(avg * k + sample, k + 1, low, high);
  }

  lemma AverageWithin(avg: nat, count: nat, sample: nat, low: nat, high: nat)
    requires low <= sample <= high && (count > 0 ==> low <= avg <= high)
    ensures low <= Average(avg, count, sample) <= high
  {
    if count > 0 {
      WeightedWithin(avg, Min(count, 20), sample, low, high);
    }
  }

  /** The average kept of the samples: each new one weighs in against at most 20 before it. */
  function AverageOf(samples: seq<nat>): nat {
    if samples == [] then 0
    else Average(AverageOf(samples[..|samples| - 1]), |samples| - 1, samples[|samples| - 1])
  }

  lemma AverageOn(samples: seq<nat>, sample: nat)
    ensures AverageOf(samples + [sample]) == Average(AverageOf(samples), |samples|, sample)
  {
    assert (samples + [sample])[..|samples|] == samples;
  }

  /** The row holds the averages and the counts of the samples. */
  ghost predicate Averages(r: Row, sends: seq<nat>, multis: seq<nat>) {
    && r.baseGas == AverageOf(sends) && r.sampleCount == |sends|
    && r.multiGas == AverageOf(multis) && r.multiCount == |multis|
    && r.gasPerOutput == 0
  }

  /** Over every run, the stored averages are those of the samples since the last reset. */
  lemma {:induction false} AveragesAreOfSamples(events: seq<Event>)
    ensures After(events).Some? <==> Samples(events, false) != [] || Samples(events, true) != []
    ensures After(events).Some? ==> Averages(After(events).value, Samples(events, false), Samples(events, true))
  {
    if events == [] {
    } else {
      var init, e := events[..|events| - 1], events[|events| - 1];
      AveragesAreOfSamples(init);
      if e.Success? {
        SuccessAverages(After(init), e, Samples(init, false), Samples(init, true));
      }
    }
  }

  lemma SuccessAverages(row: Option<Row>, e: Event, sends: seq<nat>, multis: seq<nat>)
    requires e.Success? && (row.None? ==> sends == [] && multis == [])
    requires row.Some? ==> Averages(row.value, sends, multis)
    ensures
      var sample := if e.msgType == MultiSend && e.outputs > 0 then e.gasUsed / e.outputs else e.gasUsed;
      if e.msgType == MultiSend then Averages(Apply(row, e).value, sends, multis + [sample])
      else Averages(Apply(row, e).value, sends + [sample], multis)
  {
    AverageOn(multis, PerOutput(e.gasUsed, e.outputs));
    AverageOn(sends, e.gasUsed);
  }

  lemma {:induction false} AverageOfWithin(samples: seq<nat>, low: nat, high: nat)
    requires samples != [] && Within(samples, low, high)
    ensures low <= AverageOf(samples) <= high
  {
    var n := |samples| - 1;
    if n > 0 {
      AverageOfWithin(samples[..n], low, high);
    }
    AverageWithin(AverageOf(samples[..n]), n, samples[n], low, high);
  }

  /**
   Over every run, each stored average lies within every bound on the samples it is made of
   (so between the least and the greatest), and the counts are exact.
   */
  lemma AveragesTrackSamples(events: seq<Event>, low: nat, high: nat)
    ensures After(events).None? ==> Samples(events, false) == [] && Samples(events, true) == []
    ensures After(events).Some? ==>
      var r := After(events).value;
      && r.sampleCount == |Samples(events, false)| && r.multiCount == |Samples(events, true)| && r.gasPerOutput == 0
      && (Samples(events, false) != [] && Within(Samples(events, false), low, high) ==> low <= r.baseGas <= high)
      && (Samples(events, true) != [] && Within(Samples(events, true), low, high) ==> low <= r.multiGas <= high)
  {
    AveragesAreOfSamples(events);
    if Samples(events, false) != [] && Within(Samples(events, false), low, high) {
      AverageOfWithin(Samples(events, false), low, high);
    }
    if Samples(events, true) != [] && Within(Samples(events, true), low, high) {
      AverageOfWithin(Samples(events, true), low, high);
    }
  }

  /** What Lookup answers, over every run: for a multi-send, only from multi-sends. */
  lemma LookupAnswers(events: seq<Event>, msgType: MsgType)
    ensures
      var sends, multis, e := Samples(events, false), Samples(events, true), Found(After(events), msgType);
      && (e.Some? <==> multis != [] || (sends != [] && msgType != MultiSend))
      && (e.Some? ==>
            if msgType == MultiSend then
              e.value.baseGas == 0 && e.value.gasPerOutput == AverageOf(multis) && e.value.sampleCount == |multis|
            else
              e.value.baseGas == AverageOf(sends) && e.value.gasPerOutput == 0 && e.value.sampleCount == |sends|)
  {
    AveragesAreOfSamples(events);
  }

  /** A price after some ticks with their floors. */
  function Ticked(price: real, ticks: seq<Event>): real
    requires forall i :: 0 <= i < |ticks| ==> ticks[i].Decay?
  {
    if ticks == [] then price else Decayed(Ticked(price, ticks[..|ticks| - 1]), ticks[|ticks| - 1].floor)
  }

  /** Over every run, Lookup answers the price and the denomination of the last success, the price decayed since. */
  lemma {:induction false} PriceIsLastRecorded(events: seq<Event>, i: nat, msgType: MsgType)
    requires i < |events| && events[i].Success? && forall j :: i < j < |events| ==> events[j].Decay?
    ensures
      var e := Found(After(events), msgType);
      && (e.Some? <==> msgType != MultiSend || Samples(events, true) != [])
      && (e.Some? ==>
            && e.value.feeDenom == events[i].denom
            && e.value.price == Decimal(Ticked(events[i].price, events[i + 1..])))
  {
    AveragesAreOfSamples(events);
    RowIsLastRecorded(events, i);
  }

  lemma {:induction false} RowIsLastRecorded(events: seq<Event>, i: nat)
    requires i < |events| && events[i].Success? && forall j :: i < j < |events| ==> events[j].Decay?
    ensures
      var row := After(events);
      row.Some? && row.value.feeDenom == events[i].denom
        && row.value.price == Decimal(Ticked(events[i].price, events[i + 1..]))
  {
    var n := |events| - 1;
    if i == n {
      assert events[i + 1..] == [];
    } else {
      RowIsLastRecorded(events[..n], i);
      var ticks := events[i + 1..];
      assert ticks[..|ticks| - 1] == events[..n][i + 1..];
    }
  }

  // ---- convergence under constant samples ----

  function Repeated(avg: nat, count: nat, sample: nat, times: nat): nat {
    if times == 0 then avg else Average(Repeated(avg, count, sample, times - 1), count + times - 1, sample)
  }

  /** One more equal sample moves the average toward it by the gap over k + 1, rounded down. */
  lemma AverageMoves(avg: nat, count: nat, sample: nat)
    requires count > 0
    ensures avg > sample ==> sample <= Average(avg, count, sample) < avg
    ensures avg <= sample ==> Average(avg, count, sample) == avg + (sample - avg) / (Min(count, 20) + 1)
  {
    if avg > sample {
      AverageWithin(avg, count, sample, sample, avg);
      MovesDown(avg, Min(count, 20), sample);
    } else {
      MovesUp(avg, Min(count, 20), sample);
    }
  }

  lemma MovesDown(avg: nat, k: nat, sample: nat)
    requires avg > sample
    ensures (avg * k + sample) / (k + 1) < avg
  {
    Multiply(avg, avg, k);
    DivideBounds(avg * k + sample, k + 1, 0, avg - 1);
  }

  lemma MovesUp(avg: nat, k: nat, sample: nat)
    requires avg <= sample
    ensures (avg * k + sample) / (k + 1) == avg + (sample - avg) / (k + 1)
  {
    var q := (sample - avg) / (k + 1);
    Multiply(avg, avg, k);
    Distributes(avg, q, k + 1);
    Distributes(avg, q + 1, k + 1);
    QuotientBounds(sample - avg, k + 1);
    DivideBounds(avg * k + sample, k + 1, avg + q, avg + q);
  }

  lemma Distributes(a: int, b: int, k: int)
    ensures (a + b) * k == a * k + b * k
  {}

  lemma QuotientBounds(x: nat, d: nat)
    requires d > 0
    ensures (x / d) * d <= x < (x / d + 1) * d
  {}

  /** With 20 samples in, an average stands still exactly when the sample is 0 to 20 above it. */
  lemma FixedIff(avg: nat, count: nat, sample: nat)
    requires count >= 20
    ensures Average(avg, count, sample) == avg <==> avg <= sample <= avg + 20
  {
    AverageMoves(avg, count, sample);
    if avg <= sample {
      var gap := sample - avg;
      assert gap / 21 == 0 <==> gap < 21;
    }
  }

  lemma FallsOrStays(avg: nat, count: nat, sample: nat)
    requires count > 0 && avg >= sample
    ensures avg == sample ==> Average(avg, count, sample) == sample
    ensures avg > sample ==> sample <= Average(avg, count, sample) < avg
  {
    AverageMoves(avg, count, sample);
    NothingDivided(Min(count, 20) + 1);
  }

  lemma NothingDivided(d: nat)
    requires d > 0
    ensures 0 / d == 0
  {}

  /** From above, equal samples are reached exactly, after at most as many as the gap. */
  lemma {:induction false} ReachedFromAbove(avg: nat, count: nat, sample: nat, times: nat)
    requires count > 0 && avg >= sample
    ensures sample <= Repeated(avg, count, sample, times)
    ensures Repeated(avg, count, sample, times) == sample || Repeated(avg, count, sample, times) + times <= avg
    ensures times >= avg - sample ==> Repeated(avg, count, sample, times) == sample
  {
    if times == 0 {
    } else {
      ReachedFromAbove(avg, count, sample, times - 1);
      FallsOrStays(Repeated(avg, count, sample, times - 1), count + times - 1, sample);
    }
  }

  /** From below, the average never passes the sample and comes within 20 of it, where it stays. */
  lemma {:induction false} StopsBelow(avg: nat, count: nat, sample: nat, times: nat)
    requires count >= 20 && avg <= sample
    ensures avg <= Repeated(avg, count, sample, times) <= sample
    ensures Repeated(avg, count, sample, times) >= avg + times || sample - 20 <= Repeated(avg, count, sample, times)
    ensures times >= sample - avg ==> sample - 20 <= Repeated(avg, count, sample, times)
  {
    if times == 0 {
    } else {
      StopsBelow(avg, count, sample, times - 1);
      var before := Repeated(avg, count, sample, times - 1);
      AverageMoves(before, count + times - 1, sample);
      if before < sample - 20 {
        assert (sample - before) / 21 >= 1;
      }
    }
  }

  // ---- the trusted gas limit ----

  predicate IsTrusted(e: Estimate) { e.sampleCount >= 5 }

  /** ceil(1.3 * gas). */
  function Adjusted(gas: nat): nat { (13 * gas + 9) / 10 }

  function TrustedGas(e: Estimate, outputs: int): nat {
    Adjusted(e.baseGas + e.gasPerOutput * (if outputs <= 0 then 1 else outputs))
  }

  lemma AdjustedIsCeiling(gas: nat)
    ensures 10 * Adjusted(gas) >= 13 * gas && 10 * (Adjusted(gas) - 1) < 13 * gas
  {}

  /** The gas limit that estimateFee takes from the cache, if it trusts the estimate and can parse its price. */
  function TrustedLimit(cached: Option<Estimate>, outputs: int): Option<nat> {
    if cached.Some? && IsTrusted(cached.value) && cached.value.price.Decimal?
      then Some(TrustedGas(cached.value, outputs))
    else None
  }

  lemma {:induction false} PricesParse(events: seq<Event>)
    ensures After(events).Some? ==> After(events).value.price.Decimal?
  {
    if events == [] {
    } else {
      PricesParse(events[..|events| - 1]);
    }
  }

  /**
   Over every run: a send takes its limit from the cache exactly from the fifth sample
   since the last reset on; and if all of these lie in [m, M] with 10 M <= 13 m, the limit
   covers M.
   */
  lemma TrustedSendCovers(events: seq<Event>, outputs: int, m: nat, M: nat)
    ensures
      var samples, limit := Samples(events, false), TrustedLimit(Found(After(events), Send), outputs);
      && (limit.Some? <==> |samples| >= 5)
      && (limit.Some? && Within(samples, m, M) && 10 * M <= 13 * m ==> limit.value >= M)
  {
    AveragesTrackSamples(events, m, M);
    PricesParse(events);
    if After(events).Some? {
      var r := After(events).value;
      AdjustedIsCeiling(r.baseGas);
      assert r.gasPerOutput * (if outputs <= 0 then 1 else outputs) == 0;
    }
  }

  /** The same for multi-sends, whose samples are rounded down per output. */
  lemma TrustedMultiCovers(events: seq<Event>, outputs: int, m: nat, M: nat, gasUsed: nat)
    requires outputs > 0
    ensures
      var samples, limit := Samples(events, true), TrustedLimit(Found(After(events), MultiSend), outputs);
      && (limit.Some? <==> |samples| >= 5)
      && (limit.Some? && Within(samples, m, M) && 10 * (M + 1) <= 13 * m && PerOutput(gasUsed, outputs) <= M ==>
            limit.value >= gasUsed)
  {
    AveragesTrackSamples(events, m, M);
    PricesParse(events);
    if After(events).Some? && |Samples(events, true)| >= 5 && Within(Samples(events, true), m, M)
       && 10 * (M + 1) <= 13 * m && PerOutput(gasUsed, outputs) <= M {
      PerOutputCovers(After(events).value.multiGas, outputs, M, gasUsed);
    }
  }

  lemma PerOutputCovers(g: nat, outputs: nat, M: nat, gasUsed: nat)
    requires outputs > 0 && 10 * (M + 1) <= 13 * g && gasUsed / outputs <= M
    ensures Adjusted(g * outputs) >= gasUsed
  {
    AdjustedIsCeiling(g * outputs);
    var q := gasUsed / outputs;
    QuotientBounds(gasUsed, outputs);
    Multiply(q + 1, M + 1, outputs);
    Multiply(10 * (M + 1), 13 * g, outputs);
    Regrouped(10, M + 1, outputs);
    Regrouped(13, g, outputs);
  }

  lemma Regrouped(a: int, b: int, c: int)
    ensures (a * b) * c == a * (b * c)
  {}

  // ---- decay over many ticks ----

  function DecayedTimes(p: real, floor: Option<Price>, n: nat): real {
    if n == 0 then p else Decayed(DecayedTimes(p, floor, n - 1), floor)
  }

  function Power(b: real, n: nat): real { if n == 0 then 1.0 else b * Power(b, n - 1) }

  /** No number of ticks raises a price or takes it below a floor that it was not below before. */
  lemma {:induction false} DecayKeepsFloor(p: real, floor: Option<Price>, n: nat)
    ensures DecayedTimes(p, floor, n + 1) <= DecayedTimes(p, floor, n) <= p
    ensures floor.Some? && floor.value.Decimal? ==>
      var f := floor.value.value;
      if p >= f then DecayedTimes(p, floor, n) >= f else DecayedTimes(p, floor, n) == p
  {
    if n == 0 {
    } else {
      DecayKeepsFloor(p, floor, n - 1);
    }
  }

  /** The price less a tenth, n times over. */
  function Tenths(p: real, n: nat): real { if n == 0 then p else Tenths(p, n - 1) * 0.9 }

  lemma {:induction false} TenthsIs(p: real, n: nat)
    ensures Tenths(p, n) == p * Power(0.9, n)
  {
    if n == 0 {
    } else {
      TenthsIs(p, n - 1);
    }
  }

  /** With a floor below it, the price falls by a tenth a tick until it meets the floor. */
  lemma {:induction false} DecayedToFloor(p: real, f: real, n: nat)
    requires p >= f >= 0.0
    ensures DecayedTimes(p, Some(Decimal(f)), n) == if Tenths(p, n) < f then f else Tenths(p, n)
  {
    if n == 0 {
    } else {
      DecayedToFloor(p, f, n - 1);
    }
  }

  /** Bernoulli's inequality for ten ninths. */
  lemma {:induction false} Bernoulli(n: nat)
    ensures 0.0 < Power(0.9, n) && Power(0.9, n) * (9.0 + n as real) <= 9.0
  {
    if n == 0 {
    } else {
      Bernoulli(n - 1);
      var w, m := Power(0.9, n - 1), (n - 1) as real;
      assert Power(0.9, n) * (9.0 + n as real) == (0.9 * w) * (10.0 + m);
      BernoulliStep(w, m);
    }
  }

  lemma BernoulliStep(w: real, m: real)
    requires w > 0.0 && m >= 0.0
    ensures (0.9 * w) * (10.0 + m) <= w * (9.0 + m)
  {
    assert w * m >= 0.0;
    assert (0.9 * w) * (10.0 + m) == 9.0 * w + 0.9 * (w * m);
    assert w * (9.0 + m) == 9.0 * w + w * m;
  }

  /** A positive floor is reached after at most 9 (p - f) / f ticks, and kept. */
  lemma FloorReached(p: real, f: real, n: nat)
    requires p >= f > 0.0 && n as real * f >= 9.0 * (p - f)
    ensures DecayedTimes(p, Some(Decimal(f)), n) == f
  {
    DecayedToFloor(p, f, n);
    TenthsIs(p, n);
    Bernoulli(n);
    var w, d := Power(0.9, n), 9.0 + n as real;
    assert f * d == 9.0 * f + n as real * f;
    Combine(p, f, w, d);
  }

  lemma Combine(p: real, f: real, w: real, d: real)
    requires w > 0.0 && f > 0.0 && f * d >= 9.0 * p && w * d <= 9.0
    ensures p * w <= f
  {
    var x, y := f * d - 9.0 * p, 9.0 - w * d;
    assert w * x >= 0.0 && f * y >= 0.0;
    assert w * x == w * (f * d) - 9.0 * (p * w);
    assert f * y == 9.0 * f - w * (f * d);
  }

  /** Without a usable floor the price stays positive and falls at every tick. */
  lemma {:induction false} DecayedWithoutFloor(p: real, floor: Option<Price>, n: nat)
    requires p > 0.0 && (floor.None? || floor.value.Malformed?)
    ensures 0.0 < DecayedTimes(p, floor, n + 1) < DecayedTimes(p, floor, n)
    ensures DecayedTimes(p, floor, n) == p * Power(0.95, n)
  {
    if n == 0 {
    } else {
      DecayedWithoutFloor(p, floor, n - 1);
    }
  }
}
