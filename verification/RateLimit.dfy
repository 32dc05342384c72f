/**
 The rolling-window limits of internal/abuse/ratelimit/ratelimit.go.

 The rate_limits table is a sequence of rows with the primary key (scope, chain, second);
 each method is one transaction, and the clock is a parameter. `log` is the list of all
 admissions ever made, kept beside the table for stating what the limits promise.
 */
module RateLimit {
  import Bech32
  import opened Options

  /** scope_type with scope_value. */
  datatype Scope =
    | Ip(ip: string)
    | Address(keyAlgo: string, raw: seq<bv8>, denom: string)
    | ApiKey(id: string)

  datatype Bucket = Bucket(scope: Scope, chain: string)
  datatype Row = Row(bucket: Bucket, second: int, requests: nat, coins: nat)
  datatype Admission = Admission(bucket: Bucket, second: int, coins: nat)
  datatype State = State(rows: seq<Row>, log: seq<Admission>)

  /** What is being limited: requests, or coins. */
  datatype Kind = Requests | Coins

  datatype Outcome = Admitted | Limited(retryAt: int) | ScanError

  // ---- the SQL statements ----

  function Amount(row: Row, kind: Kind): nat { if kind == Requests then row.requests else row.coins }

  /** SELECT SUM(...) WHERE bucket AND window_start >= start. */
  function SumFrom(rows: seq<Row>, b: Bucket, start: int, kind: Kind): nat {
    if rows == [] then 0
    else
      var r := rows[|rows| - 1];
      SumFrom(rows[..|rows| - 1], b, start, kind) + if r.bucket == b && r.second >= start then Amount(r, kind) else 0
  }

  /** SELECT MIN(window_start) WHERE bucket AND window_start >= start. */
  function Oldest(rows: seq<Row>, b: Bucket, start: int): Option<int> {
    if rows == [] then None
    else
      var r, m := rows[|rows| - 1], Oldest(rows[..|rows| - 1], b, start);
      if r.bucket != b || r.second < start then m
      else if m.None? || r.second < m.value then Some(r.second) else m
  }

  /** INSERT ... ON CONFLICT DO UPDATE. */
  function Upsert(rows: seq<Row>, b: Bucket, second: int, coins: nat): seq<Row> {
    if rows == [] then [Row(b, second, 1, coins)]
    else
      var n := |rows| - 1;
      var r := rows[n];
      if r.bucket == b && r.second == second
      then rows[..n] + [r.(requests := r.requests + 1, coins := r.coins + coins)]
      else Upsert(rows[..n], b, second, coins) + [r]
  }

  function Record(st: State, b: Bucket, second: int, coins: nat): State {
    State(Upsert(st.rows, b, second, coins), st.log + [Admission(b, second, coins)])
  }

  // ---- the two checks ----

  /** Check and CheckAPIKey; `coalesce` is what MIN over no rows becomes, if anything. */
  function CheckRequests(st: State, b: Bucket, now: int, window: nat, limit: int,
                         coalesce: Option<int>): (State, Outcome) {
    if SumFrom(st.rows, b, now - window, Requests) >= limit then
      match Oldest(st.rows, b, now - window)
      case Some(t) => (st, Limited(t + window))
      case None => (st, if coalesce.Some? then Limited(coalesce.value + window) else ScanError)
    else (Record(st, b, now, 0), Admitted)
  }

  const ADDRESS_WINDOW: nat := 86400
  const API_KEY_WINDOW: nat := 3600

  /** CheckAddress, once the address is decoded and the amounts are parsed. */
  function CheckCoins(st: State, b: Bucket, now: int, drip: nat, cap: int): (State, Outcome) {
    if SumFrom(st.rows, b, now - ADDRESS_WINDOW, Coins) + drip > cap then
      match Oldest(st.rows, b, now - ADDRESS_WINDOW)
      case Some(t) => (st, Limited(t + ADDRESS_WINDOW))
      case None => (st, Limited(now + ADDRESS_WINDOW))
    else (Record(st, b, now, drip), Admitted)
  }

  // ---- the table remembers the log ----

  function Weight(a: Admission, kind: Kind): nat { if kind == Requests then 1 else a.coins }

  /** What was admitted to b at or after `start`. */
  function LogFrom(log: seq<Admission>, b: Bucket, start: int, kind: Kind): nat {
    if log == [] then 0
    else
      var a := log[|log| - 1];
      LogFrom(log[..|log| - 1], b, start, kind) + if a.bucket == b && a.second >= start then Weight(a, kind) else 0
  }

  /** What was admitted to b from `start` to `start + length`, both included. */
  function LogWithin(log: seq<Admission>, b: Bucket, start: int, length: int, kind: Kind): nat {
    if log == [] then 0
    else
      var a := log[|log| - 1];
      LogWithin(log[..|log| - 1], b, start, length, kind) +
      if a.bucket == b && start <= a.second <= start + length then Weight(a, kind) else 0
  }

  ghost predicate Faithful(st: State) {
    forall b, start, kind :: SumFrom(st.rows, b, start, kind) == LogFrom(st.log, b, start, kind)
  }

  lemma {:induction false} UpsertAdds(rows: seq<Row>, b: Bucket, second: int, coins: nat, b': Bucket,
                                      start: int, kind: Kind)
    ensures SumFrom(Upsert(rows, b, second, coins), b', start, kind) ==
      SumFrom(rows, b', start, kind) +
      if b == b' && second >= start then (if kind == Requests then 1 else coins) else 0
  {
    var up := Upsert(rows, b, second, coins);
    if rows == [] {
      assert up[..0] == [];
    } else {
      var n := |rows| - 1;
      var r := rows[n];
      if r.bucket == b && r.second == second {
        assert up[..|up| - 1] == rows[..n];
      } else {
        UpsertAdds(rows[..n], b, second, coins, b', start, kind);
        assert up[..|up| - 1] == Upsert(rows[..n], b, second, coins);
      }
    }
  }

  lemma LogSnoc(log: seq<Admission>, a: Admission, b: Bucket, start: int, length: int, kind: Kind)
    ensures LogFrom(log + [a], b, start, kind) ==
      LogFrom(log, b, start, kind) + if a.bucket == b && a.second >= start then Weight(a, kind) else 0
    ensures LogWithin(log + [a], b, start, length, kind) ==
      LogWithin(log, b, start, length, kind) +
        if a.bucket == b && start <= a.second <= start + length then Weight(a, kind) else 0
  {
    assert (log + [a])[..|log + [a]| - 1] == log;
  }

  lemma RecordFaithful(st: State, b: Bucket, second: int, coins: nat)
    requires Faithful(st)
    ensures Faithful(Record(st, b, second, coins))
  {
    var st' := Record(st, b, second, coins);
    forall b', start, kind ensures SumFrom(st'.rows, b', start, kind) == LogFrom(st'.log, b', start, kind) {
      UpsertAdds(st.rows, b, second, coins, b', start, kind);
      LogSnoc(st.log, Admission(b, second, coins), b', start, 0, kind);
    }
  }

  // ---- no interval holds more than the limit ----

  ghost predicate Bounded(log: seq<Admission>, b: Bucket, window: nat, limit: int, kind: Kind) {
    forall a :: LogWithin(log, b, a, window, kind) <= if limit < 0 then 0 else limit
  }

  lemma {:induction false} WithinAtMostFrom(log: seq<Admission>, b: Bucket, start: int, length: int, from: int,
                                            kind: Kind)
    requires from <= start
    ensures LogWithin(log, b, start, length, kind) <= LogFrom(log, b, from, kind)
  {
    if log == [] {
    } else {
      WithinAtMostFrom(log[..|log| - 1], b, start, length, from, kind);
    }
  }

  /** An admission that saw room in its own look-back keeps every interval within the limit. */
  lemma RecordBounded(st: State, b: Bucket, second: int, coins: nat, window: nat, limit: int, kind: Kind)
    requires Faithful(st) && Bounded(st.log, b, window, limit, kind)
    requires SumFrom(st.rows, b, second - window, kind) + (if kind == Requests then 1 else coins) <= limit
    ensures Bounded(Record(st, b, second, coins).log, b, window, limit, kind)
  {
    forall a ensures LogWithin(Record(st, b, second, coins).log, b, a, window, kind) <= limit {
      LogSnoc(st.log, Admission(b, second, coins), b, a, window, kind);
      if a <= second <= a + window {
        WithinAtMostFrom(st.log, b, a, window, second - window, kind);
      }
    }
  }

  lemma RecordElsewhere(st: State, b: Bucket, second: int, coins: nat, b': Bucket, window: nat, limit: int, kind: Kind)
    requires b != b' && Bounded(st.log, b', window, limit, kind)
    ensures Bounded(Record(st, b, second, coins).log, b', window, limit, kind)
  {
    forall a ensures
      LogWithin(Record(st, b, second, coins).log, b', a, window, kind) == LogWithin(st.log, b', a, window, kind)
    {
      LogSnoc(st.log, Admission(b, second, coins), b', a, window, kind);
    }
  }

  // ---- every run ----

  datatype Call =
    | Request(bucket: Bucket, now: int, window: nat, limit: int, coalesce: Option<int>)
    | Drip(bucket: Bucket, now: int, drip: nat, cap: int)

  function Do(st: State, c: Call): (State, Outcome) {
    match c
    case Request(b, now, window, limit, coalesce) => CheckRequests(st, b, now, window, limit, coalesce)
    case Drip(b, now, drip, cap) => CheckCoins(st, b, now, drip, cap)
  }

  function After(calls: seq<Call>): State {
    if calls == [] then State([], []) else Do(After(calls[..|calls| - 1]), calls[|calls| - 1]).0
  }

  /** The call obeys the given window and limit if it concerns the bucket. */
  predicate Obeys(c: Call, b: Bucket, window: nat, limit: int, kind: Kind) {
    c.bucket == b ==>
      match c
      case Request(_, _, w, l, _) => kind == Requests && w == window && l == limit
      case Drip(_, _, _, cap) => kind == Coins && window == ADDRESS_WINDOW && cap == limit
  }

  lemma CallKeeps(st: State, c: Call, b: Bucket, window: nat, limit: int, kind: Kind)
    requires Faithful(st) && Bounded(st.log, b, window, limit, kind) && Obeys(c, b, window, limit, kind)
    ensures Faithful(Do(st, c).0) && Bounded(Do(st, c).0.log, b, window, limit, kind)
  {
    if Do(st, c).1 == Admitted {
      var coins := if c.Drip? then c.drip else 0;
      RecordFaithful(st, c.bucket, c.now, coins);
      if c.bucket == b {
        RecordBounded(st, b, c.now, coins, window, limit, kind);
      } else {
        RecordElsewhere(st, c.bucket, c.now, coins, b, window, limit, kind);
      }
    }
  }

  /**
   For every sequence of calls, with any clock, forwards or backwards: no interval of the
   window's length ever holds more than the limit.
   */
  lemma {:induction false} EveryIntervalBounded(calls: seq<Call>, b: Bucket, window: nat, limit: int, kind: Kind)
    requires forall i :: 0 <= i < |calls| ==> Obeys(calls[i], b, window, limit, kind)
    ensures Faithful(After(calls)) && Bounded(After(calls).log, b, window, limit, kind)
  {
    if calls == [] {
    } else {
      var n := |calls| - 1;
      EveryIntervalBounded(calls[..n], b, window, limit, kind);
      CallKeeps(After(calls[..n]), calls[n], b, window, limit, kind);
    }
  }

  // ---- what a check answers, read off the log ----

  /** The admissions to the bucket at or after `start`. */
  function Since(log: seq<Admission>, b: Bucket, start: int): set<nat> {
    set i: nat | i < |log| && log[i].bucket == b && log[i].second >= start
  }

  lemma {:induction false} SinceCounts(log: seq<Admission>, b: Bucket, start: int)
    ensures LogFrom(log, b, start, Requests) == |Since(log, b, start)|
  {
    if log == [] {
    } else {
      var n := |log| - 1;
      var rest := Since(log[..n], b, start);
      SinceCounts(log[..n], b, start);
      assert Since(log, b, start) == rest + if log[n].bucket == b && log[n].second >= start then {n} else {};
    }
  }

  /** The earlier of two times. */
  function Earlier(s: Option<int>, t: Option<int>): Option<int> {
    if s.None? then t else if t.None? || s.value <= t.value then s else t
  }

  /** The time of the earliest admission to the bucket at or after `start`. */
  function Earliest(log: seq<Admission>, b: Bucket, start: int): Option<int> {
    if log == [] then None
    else
      var a := log[|log| - 1];
      Earlier(Earliest(log[..|log| - 1], b, start),
              if a.bucket == b && a.second >= start then Some(a.second) else None)
  }

  lemma {:induction false} EarliestIs(log: seq<Admission>, b: Bucket, start: int)
    ensures Earliest(log, b, start).None? <==> Since(log, b, start) == {}
    ensures Earliest(log, b, start).Some? ==>
      && (exists i :: i in Since(log, b, start) && log[i].second == Earliest(log, b, start).value)
      && (forall i :: i in Since(log, b, start) ==> log[i].second >= Earliest(log, b, start).value)
  {
    if log == [] {
    } else {
      var n := |log| - 1;
      EarliestIs(log[..n], b, start);
      assert forall i :: 0 <= i < n ==> log[..n][i] == log[i];
      assert forall i :: i in Since(log[..n], b, start) <==> i in Since(log, b, start) && i != n;
      if log[n].bucket == b && log[n].second >= start {
        assert n in Since(log, b, start);
      }
    }
  }

  lemma {:induction false} UpsertOldest(rows: seq<Row>, b: Bucket, second: int, coins: nat, b': Bucket, start: int)
    ensures Oldest(Upsert(rows, b, second, coins), b', start) ==
      Earlier(Oldest(rows, b', start), if b == b' && second >= start then Some(second) else None)
  {
    var up := Upsert(rows, b, second, coins);
    if rows == [] {
      assert up[..0] == [];
    } else {
      var n := |rows| - 1;
      if rows[n].bucket == b && rows[n].second == second {
        assert up[..|up| - 1] == rows[..n];
      } else {
        UpsertOldest(rows[..n], b, second, coins, b', start);
        assert up[..|up| - 1] == Upsert(rows[..n], b, second, coins);
      }
    }
  }

  /** The table has lost nothing of the log that a check asks for. */
  ghost predicate Remembers(st: State) {
    Faithful(st) && forall b, start :: Oldest(st.rows, b, start) == Earliest(st.log, b, start)
  }

  lemma EarliestSnoc(log: seq<Admission>, a: Admission, b: Bucket, start: int)
    ensures Earliest(log + [a], b, start) ==
      Earlier(Earliest(log, b, start), if a.bucket == b && a.second >= start then Some(a.second) else None)
  {
    assert (log + [a])[..|log|] == log;
  }

  lemma RecordRemembers(st: State, b: Bucket, second: int, coins: nat)
    requires Remembers(st)
    ensures Remembers(Record(st, b, second, coins))
  {
    RecordFaithful(st, b, second, coins);
    var st' := Record(st, b, second, coins);
    forall b', start ensures Oldest(st'.rows, b', start) == Earliest(st'.log, b', start) {
      UpsertOldest(st.rows, b, second, coins, b', start);
      EarliestSnoc(st.log, Admission(b, second, coins), b', start);
    }
  }

  lemma CallRemembers(st: State, c: Call)
    requires Remembers(st)
    ensures Remembers(Do(st, c).0)
  {
    RecordRemembers(st, c.bucket, c.now, if c.Drip? then c.drip else 0);
  }

  lemma {:induction false} EveryRunRemembers(calls: seq<Call>)
    ensures Remembers(After(calls))
  {
    if calls == [] {
    } else {
      EveryRunRemembers(calls[..|calls| - 1]);
      CallRemembers(After(calls[..|calls| - 1]), calls[|calls| - 1]);
    }
  }

  /** When the caller is told to come back: a window after the earliest admission in sight. */
  function RetryAt(log: seq<Admission>, b: Bucket, now: int, window: nat): int {
    match Earliest(log, b, now - window)
    case Some(t) => t + window
    case None => now + window
  }

  lemma RequestDecided(st: State, b: Bucket, now: int, window: nat, limit: int, coalesce: Option<int>)
    requires Remembers(st)
    ensures
      var (st', o) := CheckRequests(st, b, now, window, limit, coalesce);
      && (o == Admitted <==> |Since(st.log, b, now - window)| < limit)
      && st' == (if o == Admitted then Record(st, b, now, 0) else st)
      && (o.Limited? && coalesce in {None, Some(now)} ==> o.retryAt == RetryAt(st.log, b, now, window))
      && (o == ScanError <==> coalesce.None? && limit <= 0 && Since(st.log, b, now - window) == {})
  {
    SinceCounts(st.log, b, now - window);
    EarliestIs(st.log, b, now - window);
  }

  /** The same as one equation, for the two ways in which the source asks. */
  lemma RequestIs(st: State, b: Bucket, now: int, window: nat, limit: int, coalesce: Option<int>)
    requires Remembers(st) && (coalesce == None || coalesce == Some(now))
    ensures CheckRequests(st, b, now, window, limit, coalesce) ==
      if |Since(st.log, b, now - window)| < limit then (Record(st, b, now, 0), Admitted)
      else (st, if coalesce.None? && Since(st.log, b, now - window) == {} then ScanError
                else Limited(RetryAt(st.log, b, now, window)))
  {
    RequestDecided(st, b, now, window, limit, coalesce);
  }

  /** Every drip is answered as the log has it. */
  ghost predicate DripsByLog(st: State) {
    forall b, now, drip: nat, cap :: CheckCoins(st, b, now, drip, cap).1 == DripOutcome(st.log, b, now, drip, cap)
  }

  function DripOutcome(log: seq<Admission>, b: Bucket, now: int, drip: nat, cap: int): Outcome {
    if LogFrom(log, b, now - 86400, Coins) + drip <= cap then Admitted else Limited(RetryAt(log, b, now, 86400))
  }

  lemma RememberedDrips(st: State)
    requires Remembers(st)
    ensures DripsByLog(st)
  {
    forall b, now, drip: nat, cap
      ensures CheckCoins(st, b, now, drip, cap).1 == DripOutcome(st.log, b, now, drip, cap)
    {
      DripIs(st, b, now, drip, cap);
    }
  }

  lemma DripIs(st: State, b: Bucket, now: int, drip: nat, cap: int)
    requires Remembers(st)
    ensures CheckCoins(st, b, now, drip, cap) ==
      if LogFrom(st.log, b, now - 86400, Coins) + drip <= cap then (Record(st, b, now, drip), Admitted)
      else (st, Limited(RetryAt(st.log, b, now, 86400)))
  {}

  /**
   Over every run: a request is admitted exactly if fewer than `limit` admissions to its bucket
   lie at or after `now - window`, and then it is the only admission added; a refused one
   changes nothing.
   */
  lemma RequestAnswered(calls: seq<Call>, b: Bucket, now: int, window: nat, limit: int, coalesce: Option<int>)
    ensures
      var log, c := After(calls).log, Request(b, now, window, limit, coalesce);
      var o := Do(After(calls), c).1;
      && (o == Admitted <==> |Since(log, b, now - window)| < limit)
      && After(calls + [c]).log == (if o == Admitted then log + [Admission(b, now, 0)] else log)
      && (o.Limited? && coalesce in {None, Some(now)} ==> o.retryAt == RetryAt(log, b, now, window))
      && (o == ScanError <==> coalesce.None? && limit <= 0 && Since(log, b, now - window) == {})
  {
    AfterOn(calls, Request(b, now, window, limit, coalesce));
    EveryRunRemembers(calls);
    RequestDecided(After(calls), b, now, window, limit, coalesce);
  }

  /**
   Over every run: a drip is admitted exactly if with it the coins admitted to its bucket in the
   last 86400 seconds stay within the cap.
   */
  lemma DripAnswered(calls: seq<Call>, b: Bucket, now: int, drip: nat, cap: int)
    ensures
      var log, c := After(calls).log, Drip(b, now, drip, cap);
      var o := Do(After(calls), c).1;
      && (o == Admitted <==> LogFrom(log, b, now - 86400, Coins) + drip <= cap)
      && After(calls + [c]).log == (if o == Admitted then log + [Admission(b, now, drip)] else log)
      && (o != Admitted ==> o == Limited(RetryAt(log, b, now, 86400)))
  {
    AfterOn(calls, Drip(b, now, drip, cap));
    EveryRunRemembers(calls);
    DripIs(After(calls), b, now, drip, cap);
  }

  /** A call on one bucket never changes the answer to a call on another. */
  lemma BucketsApart(st: State, c: Call, c': Call)
    requires c.bucket != c'.bucket
    ensures Do(Do(st, c).0, c').1 == Do(st, c').1
  {
    if Do(st, c).1 == Admitted {
      SameAnswer(st, c.bucket, c.now, if c.Drip? then c.drip else 0, c');
    }
  }

  lemma SameAnswer(st: State, b: Bucket, second: int, coins: nat, c: Call)
    requires b != c.bucket
    ensures Do(Record(st, b, second, coins), c).1 == Do(st, c).1
  {
    match c
    case Request(b', now, window, _, _) =>
      UpsertAdds(st.rows, b, second, coins, b', now - window, Requests);
      UpsertOldest(st.rows, b, second, coins, b', now - window);
      AnsweredBy(st, Record(st, b, second, coins), c, now - window, Requests);
    case Drip(b', now, _, _) =>
      UpsertAdds(st.rows, b, second, coins, b', now - ADDRESS_WINDOW, Coins);
      UpsertOldest(st.rows, b, second, coins, b', now - ADDRESS_WINDOW);
      AnsweredBy(st, Record(st, b, second, coins), c, now - ADDRESS_WINDOW, Coins);
  }

  /** A check asks for two things only. */
  lemma AnsweredBy(st: State, st': State, c: Call, start: int, kind: Kind)
    requires start == c.now - if c.Drip? then ADDRESS_WINDOW else c.window
    requires kind == if c.Drip? then Coins else Requests
    requires SumFrom(st'.rows, c.bucket, start, kind) == SumFrom(st.rows, c.bucket, start, kind)
    requires Oldest(st'.rows, c.bucket, start) == Oldest(st.rows, c.bucket, start)
    ensures Do(st', c).1 == Do(st, c).1
  {}

  // ---- when a rejected caller gets in ----

  ghost predicate NoneLaterThan(log: seq<Admission>, b: Bucket, now: int) {
    forall i :: 0 <= i < |log| && log[i].bucket == b ==> log[i].second <= now
  }

  lemma {:induction false} AllWithin(log: seq<Admission>, b: Bucket, start: int, length: int, kind: Kind)
    requires NoneLaterThan(log, b, start + length)
    ensures LogWithin(log, b, start, length, kind) == LogFrom(log, b, start, kind)
  {
    if log == [] {
    } else {
      AllWithin(log[..|log| - 1], b, start, length, kind);
    }
  }

  /** Looking back less far finds less, and from just past the oldest row on, less still. */
  lemma {:induction false} LookBack(rows: seq<Row>, b: Bucket, start: int, from: int)
    requires start <= from && NoEmptyRows(rows)
    ensures SumFrom(rows, b, from, Requests) <= SumFrom(rows, b, start, Requests)
    ensures Oldest(rows, b, start).None? ==> SumFrom(rows, b, start, Requests) == 0
    ensures Oldest(rows, b, start).Some? ==>
      var t := Oldest(rows, b, start).value;
      && start <= t
      && (from <= t ==> SumFrom(rows, b, from, Requests) == SumFrom(rows, b, start, Requests))
      && (from > t ==> SumFrom(rows, b, from, Requests) < SumFrom(rows, b, start, Requests))
  {
    if rows == [] {
    } else {
      LookBack(rows[..|rows| - 1], b, start, from);
    }
  }

  predicate NoEmptyRows(rows: seq<Row>) { forall i :: 0 <= i < |rows| ==> rows[i].requests > 0 }

  lemma {:induction false} UpsertFills(rows: seq<Row>, b: Bucket, second: int, coins: nat)
    requires NoEmptyRows(rows)
    ensures NoEmptyRows(Upsert(rows, b, second, coins))
  {
    if rows == [] {
    } else {
      UpsertFills(rows[..|rows| - 1], b, second, coins);
    }
  }

  lemma {:induction false} NoEmptyRowsEver(calls: seq<Call>)
    ensures NoEmptyRows(After(calls).rows)
  {
    if calls == [] {
    } else {
      var n := |calls| - 1;
      var st, c := After(calls[..n]), calls[n];
      NoEmptyRowsEver(calls[..n]);
      UpsertFills(st.rows, c.bucket, c.now, if c.Drip? then c.drip else 0);
    }
  }

  /**
   A caller rejected at `now`, with no admission after it to its bucket and the clock not
   behind any earlier one, is admitted at t exactly from one second after the reported
   time on: at the reported time itself it is still rejected.
   */
  lemma {:induction false} RetryTimeExact(calls: seq<Call>, b: Bucket, now: int, window: nat, limit: int,
                                          coalesce: Option<int>, t: int)
    requires forall i :: 0 <= i < |calls| ==> Obeys(calls[i], b, window, limit, Requests)
    requires limit > 0 && NoneLaterThan(After(calls).log, b, now) && t >= now
    requires CheckRequests(After(calls), b, now, window, limit, coalesce).1 != Admitted
    ensures CheckRequests(After(calls), b, now, window, limit, coalesce).1.Limited?
    ensures
      var retryAt := CheckRequests(After(calls), b, now, window, limit, coalesce).1.retryAt;
      now <= retryAt && (CheckRequests(After(calls), b, t, window, limit, coalesce).1 == Admitted <==> t >= retryAt + 1)
  {
    var st := After(calls);
    NoEmptyRowsEver(calls);
    LookBack(st.rows, b, now - window, t - window);
    var oldest := Oldest(st.rows, b, now - window).value;
    AtMostTheLimit(calls, b, now, window, limit, oldest);
  }

  lemma AtMostTheLimit(calls: seq<Call>, b: Bucket, now: int, window: nat, limit: int, oldest: int)
    requires forall i :: 0 <= i < |calls| ==> Obeys(calls[i], b, window, limit, Requests)
    requires limit > 0 && NoneLaterThan(After(calls).log, b, now)
    requires Oldest(After(calls).rows, b, now - window) == Some(oldest)
    ensures SumFrom(After(calls).rows, b, now - window, Requests) <= limit
  {
    var st := After(calls);
    EveryIntervalBounded(calls, b, window, limit, Requests);
    NoEmptyRowsEver(calls);
    LookBack(st.rows, b, now - window, now - window);
    LookBack(st.rows, b, now - window, oldest);
    AllWithin(st.log, b, oldest, window, Requests);
    assert LogWithin(st.log, b, oldest, window, Requests) <= limit;
  }

  /**
   A limit of one request a minute: the caller refused at 100 and told 160 is refused at 160 too,
   and let in at 161.
   */
  lemma RefusedWhenTold(b: Bucket)
    ensures
      var st := After([Request(b, 100, 60, 1, None)]);
      && CheckRequests(st, b, 100, 60, 1, None).1 == Limited(160)
      && CheckRequests(st, b, 160, 60, 1, None).1 == Limited(160)
      && CheckRequests(st, b, 161, 60, 1, None).1 == Admitted
  {
    var calls := [Request(b, 100, 60, 1, None)];
    assert calls[..0] == [] && After(calls) == Do(After([]), calls[0]).0;
    assert SumFrom([], b, 40, Requests) == 0;
    assert After(calls).rows == [Row(b, 100, 1, 0)];
    forall start { OneRow(Row(b, 100, 1, 0), b, start); }
  }

  lemma OneRow(r: Row, b: Bucket, start: int)
    ensures forall kind ::
      SumFrom([r], b, start, kind) == if r.bucket == b && r.second >= start then Amount(r, kind) else 0
    ensures Oldest([r], b, start) == if r.bucket == b && r.second >= start then Some(r.second) else None
  {
    assert [r][..0] == [];
  }

  /** No row of the bucket lies in the window. */
  ghost predicate NoRows(rows: seq<Row>, b: Bucket, start: int) {
    forall i :: 0 <= i < |rows| && rows[i].bucket == b ==> rows[i].second < start
  }

  lemma {:induction false} OldestIs(rows: seq<Row>, b: Bucket, start: int)
    ensures Oldest(rows, b, start).None? <==> NoRows(rows, b, start)
    ensures Oldest(rows, b, start).Some? ==>
      var t := Oldest(rows, b, start).value;
      start <= t && forall i :: 0 <= i < |rows| && rows[i].bucket == b && rows[i].second >= start ==>
        rows[i].second >= t
  {
    if rows == [] {
    } else {
      var n := |rows| - 1;
      OldestIs(rows[..n], b, start);
      assert forall i :: 0 <= i < n ==> rows[..n][i] == rows[i];
      if NoRows(rows[..n], b, start) && (rows[n].bucket != b || rows[n].second < start) {
        assert NoRows(rows, b, start);
      }
    }
  }

  lemma {:induction false} SumSkips(rows: seq<Row>, b: Bucket, start: int, from: int, kind: Kind)
    requires start <= from
    requires forall i :: 0 <= i < |rows| && rows[i].bucket == b && rows[i].second >= start ==> rows[i].second >= from
    ensures SumFrom(rows, b, start, kind) == SumFrom(rows, b, from, kind)
  {
    if rows == [] {
    } else {
      SumSkips(rows[..|rows| - 1], b, start, from, kind);
    }
  }

  lemma {:induction false} SumNothing(rows: seq<Row>, b: Bucket, start: int, kind: Kind)
    requires NoRows(rows, b, start)
    ensures SumFrom(rows, b, start, kind) == 0
  {
    if rows == [] {
    } else {
      SumNothing(rows[..|rows| - 1], b, start, kind);
    }
  }

  /** The scan of the oldest row fails exactly if nothing is allowed and nothing is there. */
  lemma ScanErrorIff(st: State, b: Bucket, now: int, window: nat, limit: int, coalesce: Option<int>)
    ensures CheckRequests(st, b, now, window, limit, coalesce).1 == ScanError <==>
      coalesce.None? && limit <= 0 && NoRows(st.rows, b, now - window)
  {
    OldestIs(st.rows, b, now - window);
    if NoRows(st.rows, b, now - window) {
      SumNothing(st.rows, b, now - window, Requests);
    }
  }

  // ---- when a capped caller gets in ----

  function CoinsAt(rows: seq<Row>, b: Bucket, second: int): nat {
    if rows == [] then 0
    else
      var r := rows[|rows| - 1];
      CoinsAt(rows[..|rows| - 1], b, second) + if r.bucket == b && r.second == second then r.coins else 0
  }

  lemma {:induction false} SumSplits(rows: seq<Row>, b: Bucket, t: int)
    ensures SumFrom(rows, b, t, Coins) == CoinsAt(rows, b, t) + SumFrom(rows, b, t + 1, Coins)
  {
    if rows == [] {
    } else {
      SumSplits(rows[..|rows| - 1], b, t);
    }
  }

  /** What expires with the oldest second in the window. */
  function Expiring(rows: seq<Row>, b: Bucket, start: int): nat {
    match Oldest(rows, b, start)
    case Some(t) => CoinsAt(rows, b, t)
    case None => 0
  }

  /**
   A caller refused by the coin cap is admitted one second after the reported time, with
   no admission in between, exactly if what the oldest second holds covers the excess.
   */
  lemma CapRetryIff(st: State, b: Bucket, now: int, drip: nat, cap: int)
    requires CheckCoins(st, b, now, drip, cap).1 != Admitted
    ensures CheckCoins(st, b, now, drip, cap).1.Limited?
    ensures
      var start, retryAt := now - ADDRESS_WINDOW, CheckCoins(st, b, now, drip, cap).1.retryAt;
      CheckCoins(st, b, retryAt + 1, drip, cap).1 == Admitted <==>
        Expiring(st.rows, b, start) >= SumFrom(st.rows, b, start, Coins) + drip - cap
  {
    var start := now - ADDRESS_WINDOW;
    OldestIs(st.rows, b, start);
    match Oldest(st.rows, b, start)
    case Some(t) =>
      SumSkips(st.rows, b, start, t, Coins);
      SumSplits(st.rows, b, t);
    case None =>
      SumNothing(st.rows, b, start, Coins);
      SumNothing(st.rows, b, now + 1, Coins);
  }

  /**
   One coin from second 0 and nine from second 5, under a cap of ten: nine more are refused past
   the reported time.
   */
  lemma CapRefusedWhenTold(b: Bucket)
    ensures
      var st := After([Drip(b, 0, 1, 10), Drip(b, 5, 9, 10)]);
      && CheckCoins(st, b, 5, 9, 10).1 == Limited(ADDRESS_WINDOW)
      && CheckCoins(st, b, ADDRESS_WINDOW + 1, 9, 10).1 == Limited(5 + ADDRESS_WINDOW)
  {
    var calls := [Drip(b, 0, 1, 10), Drip(b, 5, 9, 10)];
    assert calls[..1] == [calls[0]] && calls[..1][..0] == [];
    assert After(calls[..1]) == Do(After([]), calls[0]).0;
    var late, early := Row(b, 5, 1, 9), Row(b, 0, 1, 1);
    assert SumFrom([], b, 0 - ADDRESS_WINDOW, Coins) == 0;
    assert After(calls[..1]).rows == [early] && [early][..0] == [];
    OneRow(early, b, 5 - ADDRESS_WINDOW);
    assert After(calls) == Do(After(calls[..1]), calls[1]).0;
    assert After(calls).rows == Upsert([early], b, 5, 9) == [late, early];
    assert [late, early][..1] == [late];
    OneRow(late, b, 5 - ADDRESS_WINDOW);
    OneRow(late, b, 1);
    assert SumFrom([late, early], b, 5 - ADDRESS_WINDOW, Coins) == 10
      && Oldest([late, early], b, 5 - ADDRESS_WINDOW) == Some(0);
    assert SumFrom([late, early], b, 1, Coins) == 9 && Oldest([late, early], b, 1) == Some(5);
  }

  // ---- the limiter ----

  /** A coin amount: not set, not a number, or a number of units. */
  datatype Units = Unset | Malformed | Units(n: nat)
  datatype Coin = Coin(denom: string, amount: Units)

  datatype Verdict = Pass | RateLimited(retryAt: int) | BadAddress | BadAmount | StorageError

  function VerdictOf(o: Outcome): Verdict {
    match o
    case Admitted => Pass
    case Limited(t) => RateLimited(t)
    case ScanError => StorageError
  }

  /** The bucket that an address is counted in: its bytes, not its spelling. */
  function AddressBucket(raw: seq<bv8>, keyAlgo: string, chain: string, denom: string): Bucket {
    Bucket(Address(keyAlgo, raw, denom), chain)
  }

  ghost function CheckedAddress(st: State, address: Bech32.Text, keyAlgo: string, chain: string, now: int,
                                drip: Coin, maxPerDay: Coin): (State, Verdict) {
    match Bech32.Meaning(address)
    case None => (st, BadAddress)
    case Some((_, raw)) =>
      if !drip.amount.Units? || !maxPerDay.amount.Units? then (st, BadAmount)
      else
        var (st', o) := CheckCoins(st, AddressBucket(raw, keyAlgo, chain, drip.denom), now, drip.amount.n,
          maxPerDay.amount.n);
        (st', VerdictOf(o))
  }

  lemma AfterOn(calls: seq<Call>, c: Call)
    ensures After(calls + [c]) == Do(After(calls), c).0
  {
    assert (calls + [c])[..|calls|] == calls;
  }

  class Limiter {
    const requestsPerWindow: int
    const window: nat
    var rows: seq<Row>
    ghost var log: seq<Admission>

    /** Every call that was decided by the table. */
    ghost var calls: seq<Call>

    constructor (requestsPerWindow: int, window: nat)
      ensures this.requestsPerWindow == requestsPerWindow && this.window == window
      ensures Valid() && calls == []
    {
      this.requestsPerWindow, this.window := requestsPerWindow, window;
      rows, log, calls := [], [], [];
    }

    ghost function Abs(): State
      reads this
    {
      State(rows, log)
    }

    /** The table is what the calls made of it, so that EveryIntervalBounded is about this object. */
    ghost predicate Valid()
      reads this
    {
      Abs() == After(calls)
    }

    /** Makes the row of one admission. */
    method Apply(ghost c: Call, coins: nat, b: Bucket, now: int)
      requires Valid() && Do(Abs(), c).0 == Record(Abs(), b, now, coins)
      modifies this
      ensures Valid() && calls == old(calls) + [c] && Abs() == Record(old(Abs()), b, now, coins)
    {
      AfterOn(calls, c);
      rows := Upsert(rows, b, now, coins);
      log := log + [Admission(b, now, coins)];
      calls := calls + [c];
    }

    /** Makes no row for a refusal. */
    ghost method Refuse(c: Call)
      requires Valid() && Do(Abs(), c).0 == Abs()
      modifies this`calls
      ensures Valid() && calls == old(calls) + [c]
    {
      AfterOn(calls, c);
      calls := calls + [c];
    }

    method Check(ip: string, chain: string, now: int) returns (v: Verdict)
      requires Valid()
      modifies this
      ensures
        var c := Request(Bucket(Ip(ip), chain), now, window, requestsPerWindow, None);
        Valid() && calls == old(calls) + [c] && Abs() == Do(old(Abs()), c).0 && v == VerdictOf(Do(old(Abs()), c).1)
    {
      var b := Bucket(Ip(ip), chain);
      ghost var c := Request(b, now, window, requestsPerWindow, None);
      if SumFrom(rows, b, now - window, Requests) >= requestsPerWindow {
        var oldest := Oldest(rows, b, now - window);
        Refuse(c);
        return if oldest.None? then StorageError else RateLimited(oldest.value + window);
      }
      Apply(c, 0, b, now);
      return Pass;
    }

    method CheckAPIKey(keyID: string, chain: string, rateLimitPerHour: int, now: int) returns (v: Verdict)
      requires Valid()
      modifies this
      ensures
        var limit := if rateLimitPerHour > 0 then rateLimitPerHour else requestsPerWindow;
        var c := Request(Bucket(ApiKey(keyID), chain), now, API_KEY_WINDOW, limit, Some(now));
        Valid() && calls == old(calls) + [c] && Abs() == Do(old(Abs()), c).0 && v == VerdictOf(Do(old(Abs()), c).1)
    {
      var limit := requestsPerWindow;
      if rateLimitPerHour > 0 {
        limit := rateLimitPerHour;
      }
      var b := Bucket(ApiKey(keyID), chain);
      ghost var c := Request(b, now, API_KEY_WINDOW, limit, Some(now));
      if SumFrom(rows, b, now - API_KEY_WINDOW, Requests) >= limit {
        var oldest := Oldest(rows, b, now - API_KEY_WINDOW);
        Refuse(c);
        return RateLimited((if oldest.None? then now else oldest.value) + API_KEY_WINDOW);
      }
      Apply(c, 0, b, now);
      return Pass;
    }

    /** What the address decodes to, if it does. */
    static method BytesOf(address: Bech32.Text) returns (raw: Option<seq<bv8>>)
      requires Bech32.Ascii(address)
      ensures raw == var m := Bech32.Meaning(address); if m.None? then None else Some(m.value.1)
    {
      var d := Bech32.Decode(address);
      raw := if d.Err? then None else Some(d.data);
    }

    method CheckAddress(address: Bech32.Text, keyAlgo: string, chain: string, now: int, drip: Coin, maxPerDay: Coin)
      returns (v: Verdict)
      requires Valid() && Bech32.Ascii(address)
      modifies this
      ensures Valid() && (Abs(), v) == CheckedAddress(old(Abs()), address, keyAlgo, chain, now, drip, maxPerDay)
      ensures calls == old(calls) + CapCalls(address, keyAlgo, chain, now, drip, maxPerDay)
    {
      var raw := BytesOf(address);
      if raw.None? {
        return BadAddress;
      }
      if !drip.amount.Units? || !maxPerDay.amount.Units? {
        return BadAmount;
      }
      v := CheckCap(AddressBucket(raw.value, keyAlgo, chain, drip.denom), now, drip.amount.n, maxPerDay.amount.n);
    }

    /** The part of CheckAddress that asks the table. */
    method CheckCap(b: Bucket, now: int, drip: nat, cap: nat) returns (v: Verdict)
      requires Valid()
      modifies this
      ensures
        var c := Drip(b, now, drip, cap);
        Valid() && calls == old(calls) + [c] && Abs() == Do(old(Abs()), c).0 && v == VerdictOf(Do(old(Abs()), c).1)
    {
      ghost var c := Drip(b, now, drip, cap);
      if SumFrom(rows, b, now - ADDRESS_WINDOW, Coins) + drip > cap {
        var oldest := Oldest(rows, b, now - ADDRESS_WINDOW);
        Refuse(c);
        return RateLimited((if oldest.None? then now else oldest.value) + ADDRESS_WINDOW);
      }
      Apply(c, drip, b, now);
      return Pass;
    }
  }

  /** Addresses of different bytes, key algorithms, chains or denominations never answer for each other. */
  lemma CountedApart(st: State, address: Bech32.Text, keyAlgo: string, chain: string, drip: Coin,
                     max: Coin, now: int, address': Bech32.Text, keyAlgo': string, chain': string, drip': Coin,
                     max': Coin, now': int)
    requires Bech32.Meaning(address).Some? && Bech32.Meaning(address').Some?
    requires
      || Bech32.Meaning(address).value.1 != Bech32.Meaning(address').value.1
      || keyAlgo != keyAlgo' || chain != chain' || drip.denom != drip'.denom
    ensures
      var st' := CheckedAddress(st, address', keyAlgo', chain', now', drip', max').0;
      CheckedAddress(st', address, keyAlgo, chain, now, drip, max).1 ==
        CheckedAddress(st, address, keyAlgo, chain, now, drip, max).1
  {
    var b := AddressBucket(Bech32.Meaning(address).value.1, keyAlgo, chain, drip.denom);
    var b' := AddressBucket(Bech32.Meaning(address').value.1, keyAlgo', chain', drip'.denom);
    if drip.amount.Units? && max.amount.Units? && drip'.amount.Units? && max'.amount.Units? {
      BucketsApart(st, Drip(b', now', drip'.amount.n, max'.amount.n), Drip(b, now, drip.amount.n, max.amount.n));
    }
  }

  /** The call that a check of the cap comes to, if address and amounts can be read. */
  ghost function CapCalls(address: Bech32.Text, keyAlgo: string, chain: string, now: int, drip: Coin,
                          maxPerDay: Coin): seq<Call> {
    match Bech32.Meaning(address)
    case None => []
    case Some(m) =>
      if !drip.amount.Units? || !maxPerDay.amount.Units? then []
      else [Drip(AddressBucket(m.1, keyAlgo, chain, drip.denom), now, drip.amount.n, maxPerDay.amount.n)]
  }
}
