/**
 The flush callback of internal/chain/chain.go: a multi-send with a fall-back to single
 sends, and the circuit breaker around it.

 The node is an oracle: `script` answers the broadcasts in the order in which they are
 made. A broadcast that fails has no effect on the ledger.
 */
module Flush {
  import opened Window
  import P = Pool

  datatype BroadcastError = SequenceMismatch | InsufficientFee | OtherError(message: string)
  datatype Outcome = Sent(txHash: string) | Failed(error: BroadcastError)
  datatype FlushError = ChainSuspended | BroadcastFailed(error: BroadcastError)

  /** What a request's channel receives. */
  datatype Result = Paid(txHash: string) | Unpaid(error: FlushError)
  datatype Delivery = Delivery(request: Request, result: Result)

  /** One transfer on the ledger: in which transaction, from which account, to whom, what. */
  datatype Payment = Payment(txHash: string, fromKey: nat, toAddress: string, coins: seq<Coin>)

  /** One transaction handed to the node: how, from which account, for which requests, and the answer. */
  datatype Attempt = Attempt(multi: bool, fromKey: nat, requests: seq<Request>, outcome: Outcome)

  type Script = nat -> Outcome

  const MULTI_SEND_DISABLE_THRESHOLD: nat := 3
  const SUSPEND_THRESHOLD: nat := 5

  class Broadcaster {
    const script: Script
    var calls: nat

    /** Every broadcast so far, and what the successful ones moved. */
    ghost var made: seq<Attempt>
    ghost var ledger: seq<Payment>

    constructor (script: Script)
      ensures this.script == script && calls == 0 && made == [] && ledger == []
    {
      this.script := script;
      calls, made, ledger := 0, [], [];
    }

    /** One transaction paying all of `requests`: all or nothing. */
    method Broadcast(multi: bool, fromKey: nat, requests: seq<Request>) returns (o: Outcome)
      modifies this
      ensures o == script(old(calls)) && calls == old(calls) + 1
      ensures made == old(made) + [Attempt(multi, fromKey, requests, o)]
      ensures ledger == old(ledger) + if o.Sent? then Transfers(o.txHash, fromKey, requests) else []
    {
      o := script(calls);
      calls := calls + 1;
      made := made + [Attempt(multi, fromKey, requests, o)];
      if o.Sent? {
        ledger := ledger + Transfers(o.txHash, fromKey, requests);
      }
    }
  }

  function Transfers(txHash: string, fromKey: nat, requests: seq<Request>): (t: seq<Payment>)
    ensures |t| == |requests|
  {
    seq(|requests|, i requires 0 <= i < |requests| =>
      Payment(txHash, fromKey, requests[i].toAddress, requests[i].coins))
  }

  // ---- what a flush amounts to ----

  /** The payments that a list of deliveries promises, one per paid request and in order. */
  function Promised(ds: seq<Delivery>): seq<(string, string, seq<Coin>)> {
    if ds == [] then []
    else
      var d := ds[|ds| - 1];
      Promised(ds[..|ds| - 1]) +
        if d.result.Paid? then [(d.result.txHash, d.request.toAddress, d.request.coins)] else []
  }

  /** The same read off the ledger, whoever paid. */
  function Made(ps: seq<Payment>): (m: seq<(string, string, seq<Coin>)>)
    ensures |m| == |ps|
  {
    seq(|ps|, i requires 0 <= i < |ps| => (ps[i].txHash, ps[i].toAddress, ps[i].coins))
  }

  /** Every request is answered exactly once, in order. */
  ghost predicate Answers(ds: seq<Delivery>, reqs: seq<Request>) {
    |ds| == |reqs| && forall i :: 0 <= i < |ds| ==> ds[i].request == reqs[i]
  }

  /** The breaker's view of one flush. */
  datatype Kind = Skipped | MultiOk | SplitOk(multiTried: bool) | SplitFailed

  datatype Breaker = Breaker(multiDisabled: bool, suspended: bool, sendStreak: nat, multiStreak: nat)

  /** Everything a flush does. */
  datatype Effect = Effect(breaker: Breaker, calls: nat, healthy: seq<nat>, deliveries: seq<Delivery>,
                           payments: seq<Payment>, made: seq<Attempt>)

  /** The multi-send is tried again once after a sequence mismatch or an insufficient fee. */
  predicate RetryMulti(o: Outcome) { o.Failed? && !o.error.OtherError? }

  function MultiCalls(script: Script, c: nat): nat { if RetryMulti(script(c)) then 2 else 1 }

  function MultiOutcome(script: Script, c: nat): Outcome { script(c + MultiCalls(script, c) - 1) }

  function MultiMade(script: Script, c: nat, key: nat, reqs: seq<Request>): (bs: seq<Attempt>)
    ensures |bs| == MultiCalls(script, c)
  {
    [Attempt(true, key, reqs, script(c))] +
    if RetryMulti(script(c)) then [Attempt(true, key, reqs, script(c + 1))] else []
  }

  /** The first broadcast from c on that fails, or `end`. */
  function FirstFailure(script: Script, c: nat, end: nat): (e: nat)
    requires c <= end
    ensures c <= e <= end
    ensures e < end ==> script(e).Failed?
    ensures forall i :: c <= i < e ==> script(i).Sent?
    decreases end - c
  {
    if c == end || script(c).Failed? then c else FirstFailure(script, c + 1, end)
  }

  /** The number of the broadcast at which the single sends start. */
  function SplitStart(b: Breaker, script: Script, c: nat): nat {
    if b.multiDisabled then c else c + MultiCalls(script, c)
  }

  function KindOf(b: Breaker, script: Script, c: nat, n: nat): Kind {
    if b.suspended then Skipped
    else if !b.multiDisabled && MultiOutcome(script, c).Sent? then MultiOk
    else
      var s := SplitStart(b, script, c);
      if FirstFailure(script, s, s + n) == s + n then SplitOk(!b.multiDisabled) else SplitFailed
  }

  function Next(b: Breaker, k: Kind): Breaker {
    match k
    case Skipped => b
    case MultiOk => b.(sendStreak := 0, multiStreak := 0)
    case SplitOk(true) =>
      b.(sendStreak := 0, multiStreak := b.multiStreak + 1,
         multiDisabled := b.multiDisabled || b.multiStreak + 1 >= MULTI_SEND_DISABLE_THRESHOLD)
    case SplitOk(false) => b.(sendStreak := 0)
    case SplitFailed =>
      b.(sendStreak := b.sendStreak + 1, suspended := b.suspended || b.sendStreak + 1 >= SUSPEND_THRESHOLD)
  }

  function Resumed(b: Breaker): Breaker { b.(suspended := false, sendStreak := 0, multiStreak := 0) }

  /** Which account a single send is paid from. */
  function KeyFor(key: nat, healthy: seq<nat>, i: nat): nat {
    if healthy == [] then key else healthy[i % |healthy|]
  }

  /** Pool.MarkRecovering, as seen in the list of healthy key indices. */
  function Without(keys: seq<nat>, key: nat): seq<nat> {
    if keys == [] then []
    else Without(keys[..|keys| - 1], key) + if keys[|keys| - 1] == key then [] else [keys[|keys| - 1]]
  }

  function Errors(reqs: seq<Request>, error: FlushError): (ds: seq<Delivery>)
    ensures |ds| == |reqs|
  {
    seq(|reqs|, i requires 0 <= i < |reqs| => Delivery(reqs[i], Unpaid(error)))
  }

  /** Errors(reqs[k..], error). */
  function ErrorsFrom(reqs: seq<Request>, k: nat, error: FlushError): (ds: seq<Delivery>)
    requires k <= |reqs|
    ensures |ds| == |reqs| - k
  {
    seq(|reqs| - k, i requires 0 <= i < |reqs| - k => Delivery(reqs[k + i], Unpaid(error)))
  }

  function Confirmed(reqs: seq<Request>, txHash: string): (ds: seq<Delivery>)
    ensures |ds| == |reqs|
  {
    seq(|reqs|, i requires 0 <= i < |reqs| => Delivery(reqs[i], Paid(txHash)))
  }

  predicate AllSent(script: Script, start: nat, n: nat) { forall i :: start <= i < start + n ==> script(i).Sent? }

  /** The answers to single sends that all succeed, from the broadcast numbered `start` on. */
  function Singles(script: Script, start: nat, reqs: seq<Request>): (ds: seq<Delivery>)
    requires AllSent(script, start, |reqs|)
    ensures |ds| == |reqs|
  {
    seq(|reqs|, i requires 0 <= i < |reqs| => Delivery(reqs[i], Paid(script(start + i).txHash)))
  }

  function SinglePayments(script: Script, start: nat, key: nat, healthy: seq<nat>,
                          reqs: seq<Request>): (ps: seq<Payment>)
    requires AllSent(script, start, |reqs|)
    ensures |ps| == |reqs|
  {
    seq(|reqs|, i requires 0 <= i < |reqs| =>
      Payment(script(start + i).txHash, KeyFor(key, healthy, i), reqs[i].toAddress, reqs[i].coins))
  }

  function SinglesMade(script: Script, start: nat, key: nat, healthy: seq<nat>, reqs: seq<Request>)
    : (bs: seq<Attempt>)
    ensures |bs| == |reqs|
  {
    seq(|reqs|, i requires 0 <= i < |reqs| => Attempt(false, KeyFor(key, healthy, i), [reqs[i]], script(start + i)))
  }

  predicate StopsAfter(script: Script, start: nat, n: nat, k: nat) {
    k <= n && AllSent(script, start, k) && (k < n ==> script(start + k).Failed?)
  }

  /** Single sends of which the first k succeed: the error of the next goes to all that are left. */
  function StoppedEffect(b: Breaker, script: Script, start: nat, healthy: seq<nat>, key: nat, reqs: seq<Request>,
                         k: nat): Effect
    requires StopsAfter(script, start, |reqs|, k)
  {
    var paid := SinglePayments(script, start, key, healthy, reqs[..k]);
    if k == |reqs| then
      Effect(Next(b, SplitOk(!b.multiDisabled)), start + k, healthy, Singles(script, start, reqs[..k]), paid,
             SinglesMade(script, start, key, healthy, reqs[..k]))
    else
      Effect(Next(b, SplitFailed), start + k + 1, Without(healthy, KeyFor(key, healthy, k)),
             Singles(script, start, reqs[..k]) + ErrorsFrom(reqs, k, BroadcastFailed(script(start + k).error)), paid,
             SinglesMade(script, start, key, healthy, reqs[..k + 1]))
  }

  /** The single sends: they stop at the first that fails. */
  function SplitEffect(b: Breaker, script: Script, start: nat, healthy: seq<nat>, key: nat, reqs: seq<Request>)
    : (e: Effect)
    ensures |e.made| <= |reqs|
  {
    StoppedEffect(b, script, start, healthy, key, reqs, FirstFailure(script, start, start + |reqs|) - start)
  }

  function FlushEffect(b: Breaker, script: Script, c: nat, healthy: seq<nat>, key: nat, reqs: seq<Request>): Effect {
    if b.suspended then Effect(b, c, healthy, Errors(reqs, ChainSuspended), [], [])
    else if b.multiDisabled then SplitEffect(b, script, c, healthy, key, reqs)
    else MultiEffect(b, script, c, healthy, key, reqs)
  }

  /** The multi-send, and the single sends after it if it fails. */
  function MultiEffect(b: Breaker, script: Script, c: nat, healthy: seq<nat>, key: nat, reqs: seq<Request>): Effect {
    AfterMulti(b, script, c, healthy, key, reqs,
               SplitEffect(b, script, c + MultiCalls(script, c), healthy, key, reqs))
  }

  /** The same, by what the single sends would do. */
  function AfterMulti(b: Breaker, script: Script, c: nat, healthy: seq<nat>, key: nat, reqs: seq<Request>,
                      split: Effect): Effect
    requires |split.made| <= |reqs|
  {
    var o, m := MultiOutcome(script, c), MultiCalls(script, c);
    if o.Sent? then
      Effect(Next(b, MultiOk), c + m, healthy, Confirmed(reqs, o.txHash), Transfers(o.txHash, key, reqs),
             MultiMade(script, c, key, reqs))
    else split.(made := AllMade(script, c, m, healthy, key, reqs, |split.made|))
  }

  /** m multi-sends and then n single sends. */
  function AllMade(script: Script, c: nat, m: nat, healthy: seq<nat>, key: nat, reqs: seq<Request>, n: nat)
    : (made: seq<Attempt>)
    requires n <= |reqs|
    ensures |made| == m + n
  {
    seq(m + n, i requires 0 <= i < m + n =>
      if i < m then Attempt(true, key, reqs, script(c + i))
      else Attempt(false, KeyFor(key, healthy, i - m), [reqs[i - m]], script(c + i)))
  }

  // ---- the callback ----

  class Chain {
    const client: Broadcaster
    const pool: P.Pool?
    var multiSendDisabled: bool
    var suspended: bool
    var sendFailStreak: nat
    var multiSendFailStreak: nat

    /** The key indices of the healthy distributors; without a pool there are none. */
    ghost var healthy: seq<nat>

    // The history: the operations so far, the keys they started with, and all answers given.
    ghost const start: seq<nat>
    ghost var ops: seq<Op>
    ghost var answered: seq<Delivery>

    constructor (client: Broadcaster, pool: P.Pool?)
      requires client.calls == 0 && client.made == [] && client.ledger == [] && (pool != null ==> pool.Valid())
      ensures Valid() && this.client == client && this.pool == pool && ops == [] && answered == []
      ensures Abs() == Breaker(false, false, 0, 0) && healthy == start
    {
      this.client, this.pool := client, pool;
      healthy := if pool == null then [] else P.HealthyKeys(pool.Flags());
      start := if pool == null then [] else P.HealthyKeys(pool.Flags());
      multiSendDisabled, suspended, sendFailStreak, multiSendFailStreak := false, false, 0, 0;
      ops, answered := [], [];
    }

    /**
     The object is where its operations lead, so that BreakerTracksHistory is about it, and
     the ledger is what all answers so far promise.
     */
    ghost predicate Valid()
      reads this, client, Marks()
    {
      && Linked()
      && System(Abs(), client.calls, healthy) == After(client.script, start, ops)
      && Made(client.ledger) == Promised(answered)
    }

    ghost function Abs(): Breaker
      reads this`multiSendDisabled, this`suspended, this`sendFailStreak, this`multiSendFailStreak
    {
      Breaker(multiSendDisabled, suspended, sendFailStreak, multiSendFailStreak)
    }

    /** What a flush may change of the pool. */
    ghost function Marks(): set<P.Distributor> {
      if pool == null then {} else set i | 0 <= i < |pool.distributors| :: pool.distributors[i]
    }

    ghost predicate Linked()
      reads this`healthy, Marks()
    {
      if pool == null then healthy == [] else pool.Valid() && healthy == P.HealthyKeys(pool.Flags())
    }

    method Resume()
      requires Valid()
      modifies this
      ensures Valid() && ops == old(ops) + [DoResume] && answered == old(answered)
      ensures Abs() == Resumed(old(Abs())) && healthy == old(healthy)
    {
      AfterOn(client.script, start, ops, DoResume);
      ops := ops + [DoResume];
      suspended := false;
      sendFailStreak := 0;
      multiSendFailStreak := 0;
    }

    /** sendErrAll, after what was already delivered. */
    method SendErrAll(done: seq<Delivery>, reqs: seq<Request>, error: FlushError) returns (ds: seq<Delivery>)
      ensures ds == done + Errors(reqs, error)
    {
      ds := done;
      for i := 0 to |reqs|
        invariant ds == done + Errors(reqs, error)[..i]
      {
        ds := ds + [Delivery(reqs[i], Unpaid(error))];
      }
    }

    /** The multi-send and its one retry. */
    method TryMulti(keyIndex: nat, reqs: seq<Request>) returns (o: Outcome)
      modifies client
      ensures o == MultiOutcome(client.script, old(client.calls))
      ensures client.calls == old(client.calls) + MultiCalls(client.script, old(client.calls))
      ensures client.made == old(client.made) + MultiMade(client.script, old(client.calls), keyIndex, reqs)
      ensures client.ledger == old(client.ledger) + if o.Sent? then Transfers(o.txHash, keyIndex, reqs) else []
    {
      o := client.Broadcast(true, keyIndex, reqs);
      if o.Failed? && !o.error.OtherError? {
        o := client.Broadcast(true, keyIndex, reqs);
      }
    }

    method ConfirmAll(reqs: seq<Request>, txHash: string) returns (ds: seq<Delivery>)
      ensures ds == Confirmed(reqs, txHash)
    {
      ds := [];
      for i := 0 to |reqs|
        invariant ds == Confirmed(reqs, txHash)[..i]
      {
        ds := ds + [Delivery(reqs[i], Paid(txHash))];
      }
    }

    /** The per-recipient loop; `failedKey` is the account whose send failed, if one did. */
    method Split(keyIndex: nat, reqs: seq<Request>, healthy: seq<nat>)
      returns (ds: seq<Delivery>, failed: bool, failedKey: nat)
      modifies client
      ensures
        var e := SplitEffect(Abs(), client.script, old(client.calls), healthy, keyIndex, reqs);
        && ds == e.deliveries && client.calls == e.calls && client.ledger == old(client.ledger) + e.payments
        && client.made == old(client.made) + e.made
        && failed == (e.breaker == Next(Abs(), SplitFailed))
        && e.healthy == (if failed then Without(healthy, failedKey) else healthy)
    {
      ghost var script, start, before, made := client.script, client.calls, client.ledger, client.made;
      ds, failed, failedKey := [], false, 0;
      for i := 0 to |reqs|
        invariant client.calls == start + i && AllSent(script, start, i)
        invariant ds == Singles(script, start, reqs[..i])
        invariant client.ledger == before + SinglePayments(script, start, keyIndex, healthy, reqs[..i])
        invariant client.made == made + SinglesMade(script, start, keyIndex, healthy, reqs[..i])
      {
        var ki := KeyFor(keyIndex, healthy, i);
        SinglesMadeStep(script, start, keyIndex, healthy, reqs, i);
        var o := client.Broadcast(false, ki, [reqs[i]]);
        if o.Failed? {
          SplitStopsAt(Abs(), script, start, healthy, keyIndex, reqs, i);
          ds := SendErrAll(ds, reqs[i..], BroadcastFailed(o.error));
          ErrorsAre(reqs, i, BroadcastFailed(o.error));
          return ds, true, ki;
        }
        SinglesStep(script, start, keyIndex, healthy, reqs, i);
        ds := ds + [Delivery(reqs[i], Paid(o.txHash))];
      }
      SplitStopsAt(Abs(), script, start, healthy, keyIndex, reqs, |reqs|);
    }

    /** What follows the single sends: streaks, suspension, and the failed distributor set aside. */
    method Settle(failed: bool, failedKey: nat, multiAttempted: bool)
      requires Linked() && !suspended && multiAttempted == !multiSendDisabled
      modifies this`healthy, this`multiSendDisabled, this`suspended, this`sendFailStreak, this`multiSendFailStreak,
        Marks()
      ensures Linked() && Abs() == Next(old(Abs()), if failed then SplitFailed else SplitOk(multiAttempted))
      ensures healthy == if failed then Without(old(healthy), failedKey) else old(healthy)
    {
      if failed {
        sendFailStreak := sendFailStreak + 1;
        if sendFailStreak >= SUSPEND_THRESHOLD {
          suspended := true;
        }
        MarkRecovering(failedKey);
        return;
      }
      if multiAttempted {
        multiSendFailStreak := multiSendFailStreak + 1;
        if multiSendFailStreak >= MULTI_SEND_DISABLE_THRESHOLD {
          multiSendDisabled := true;
        }
      }
      sendFailStreak := 0;
    }

    method MarkRecovering(key: nat)
      requires Linked()
      modifies this`healthy, Marks()
      ensures Linked() && healthy == Without(old(healthy), key)
    {
      if pool != null {
        MarkIsWithout(pool.Flags(), key);
        pool.Mark(key, false);
      }
      healthy := Without(healthy, key);
    }

    /** The callback that makeFlushFn returns. */
    method Flush(keyIndex: nat, reqs: seq<Request>) returns (ds: seq<Delivery>)
      requires Valid()
      modifies this, client, Marks()
      ensures Valid() && ops == old(ops) + [DoFlush(keyIndex, reqs)] && answered == old(answered) + ds
      ensures
        var e := FlushEffect(old(Abs()), client.script, old(client.calls), old(healthy), keyIndex, reqs);
        && ds == e.deliveries && Abs() == e.breaker && healthy == e.healthy
        && client.calls == e.calls && client.ledger == old(client.ledger) + e.payments
        && client.made == old(client.made) + e.made
    {
      ghost var was := client.ledger;
      ghost var e := FlushEffect(Abs(), client.script, client.calls, healthy, keyIndex, reqs);
      FlushEnters(System(Abs(), client.calls, healthy), client.script, start, ops, keyIndex, reqs, e);
      ds := FlushBatch(keyIndex, reqs);
      Enter(DoFlush(keyIndex, reqs), ds, was, e.payments);
    }

    /** Adds an operation and its answers to the history. */
    ghost method Enter(op: Op, ds: seq<Delivery>, was: seq<Payment>, ps: seq<Payment>)
      requires Linked() && System(Abs(), client.calls, healthy) == After(client.script, start, ops + [op])
      requires Made(was) == Promised(answered) && Made(ps) == Promised(ds) && client.ledger == was + ps
      modifies this`ops, this`answered
      ensures Valid() && ops == old(ops) + [op] && answered == old(answered) + ds
    {
      ops := ops + [op];
      SettledOn(answered, was, ds, ps);
      answered := answered + ds;
    }

    /** The chain, the pool and the ledger are as the effect says, after the given ledger. */
    ghost predicate Took(e: Effect, ds: seq<Delivery>, before: seq<Payment>, made: seq<Attempt>)
      reads this, client, Marks()
    {
      && Linked() && ds == e.deliveries && Abs() == e.breaker && healthy == e.healthy
      && client.calls == e.calls && client.ledger == before + e.payments && client.made == made + e.made
    }

    method FlushBatch(keyIndex: nat, reqs: seq<Request>) returns (ds: seq<Delivery>)
      requires Linked()
      modifies this`healthy, this`multiSendDisabled, this`suspended, this`sendFailStreak, this`multiSendFailStreak,
        client, Marks()
      ensures Took(FlushEffect(old(Abs()), client.script, old(client.calls), old(healthy), keyIndex, reqs), ds,
                   old(client.ledger), old(client.made))
    {
      ghost var e := FlushEffect(Abs(), client.script, client.calls, healthy, keyIndex, reqs);
      if suspended {
        ds := SendErrAll([], reqs, ChainSuspended);
      } else if multiSendDisabled {
        ds := SplitAndSettle(keyIndex, reqs, false, e);
      } else {
        ghost var start := client.calls + MultiCalls(client.script, client.calls);
        ds := MultiThenSplit(keyIndex, reqs, SplitEffect(Abs(), client.script, start, healthy, keyIndex, reqs), e);
      }
    }

    method MultiThenSplit(keyIndex: nat, reqs: seq<Request>, ghost split: Effect, ghost e: Effect)
      returns (ds: seq<Delivery>)
      requires Linked() && !suspended && !multiSendDisabled && |split.made| <= |reqs|
      requires split == SplitEffect(Abs(), client.script, client.calls + MultiCalls(client.script, client.calls),
                                    healthy, keyIndex, reqs)
      requires e == AfterMulti(Abs(), client.script, client.calls, healthy, keyIndex, reqs, split)
      modifies this`healthy, this`multiSendDisabled, this`suspended, this`sendFailStreak, this`multiSendFailStreak,
        client, Marks()
      ensures Took(e, ds, old(client.ledger), old(client.made))
    {
      ghost var was, c := client.made, client.calls;
      var sent;
      sent, ds := SendAtOnce(keyIndex, reqs);
      if !sent {
        ds := SplitAfterMulti(keyIndex, reqs, split, was, c);
      }
    }

    method SplitAfterMulti(keyIndex: nat, reqs: seq<Request>, ghost split: Effect, ghost was: seq<Attempt>,
                           ghost c: nat)
      returns (ds: seq<Delivery>)
      requires Linked() && !suspended && !multiSendDisabled && |split.made| <= |reqs|
      requires split == SplitEffect(Abs(), client.script, client.calls, healthy, keyIndex, reqs)
      requires client.made == was + MultiMade(client.script, c, keyIndex, reqs)
      requires client.calls == c + MultiCalls(client.script, c)
      modifies this`healthy, this`multiSendDisabled, this`suspended, this`sendFailStreak, this`multiSendFailStreak,
        client, Marks()
      ensures
        var m := MultiCalls(client.script, c);
        Took(split.(made := AllMade(client.script, c, m, old(healthy), keyIndex, reqs, |split.made|)), ds,
             old(client.ledger), was)
    {
      SplitSingles(Abs(), client.script, client.calls, healthy, keyIndex, reqs, split);
      ghost var ledger, keys := client.ledger, healthy;
      ds := SplitAndSettle(keyIndex, reqs, true, split);
      MadeAfter(split, ds, ledger, was, keyIndex, reqs, c, keys);
    }

    lemma MadeAfter(e: Effect, ds: seq<Delivery>, ledger: seq<Payment>, was: seq<Attempt>, key: nat,
                    reqs: seq<Request>, c: nat, keys: seq<nat>)
      requires |e.made| <= |reqs| && Took(e, ds, ledger, was + MultiMade(client.script, c, key, reqs))
      requires e.made == SinglesMade(client.script, c + MultiCalls(client.script, c), key, keys, reqs[..|e.made|])
      ensures Took(e.(made := AllMade(client.script, c, MultiCalls(client.script, c), keys, key, reqs, |e.made|)), ds,
                   ledger, was)
    {
      MadeTogether(client.script, c, keys, key, reqs, |e.made|);
      assert was + MultiMade(client.script, c, key, reqs) + e.made ==
        was + (MultiMade(client.script, c, key, reqs) + e.made);
    }

    /** The multi-send, and the answers if it goes through. */
    method SendAtOnce(keyIndex: nat, reqs: seq<Request>) returns (sent: bool, ds: seq<Delivery>)
      modifies this`sendFailStreak, this`multiSendFailStreak, client
      ensures
        var script, c := client.script, old(client.calls);
        var o := MultiOutcome(script, c);
        && sent == o.Sent? && client.calls == c + MultiCalls(script, c)
        && Abs() == (if sent then Next(old(Abs()), MultiOk) else old(Abs()))
        && client.ledger ==
             (if sent then old(client.ledger) + Transfers(o.txHash, keyIndex, reqs) else old(client.ledger))
        && client.made == old(client.made) + MultiMade(script, c, keyIndex, reqs)
        && (sent ==> ds == Confirmed(reqs, o.txHash))
    {
      var o := TryMulti(keyIndex, reqs);
      sent, ds := o.Sent?, [];
      if sent {
        sendFailStreak := 0;
        multiSendFailStreak := 0;
        ds := ConfirmAll(reqs, o.txHash);
      }
    }

    method SplitAndSettle(keyIndex: nat, reqs: seq<Request>, multiAttempted: bool, ghost e: Effect)
      returns (ds: seq<Delivery>)
      requires Linked() && !suspended && multiAttempted == !multiSendDisabled
      requires e == SplitEffect(Abs(), client.script, client.calls, healthy, keyIndex, reqs)
      modifies this`healthy, this`multiSendDisabled, this`suspended, this`sendFailStreak, this`multiSendFailStreak,
        client, Marks()
      ensures Took(e, ds, old(client.ledger), old(client.made))
    {
      var keys: seq<nat> := [];
      if pool != null {
        keys := pool.Healthy();
      }
      var failed, failedKey;
      ds, failed, failedKey := Split(keyIndex, reqs, keys);
      Settle(failed, failedKey, multiAttempted);
    }
  }

  lemma {:induction false} StopsAt(script: Script, start: nat, k: nat, n: nat)
    requires k <= n && AllSent(script, start, k) && (k < n ==> script(start + k).Failed?)
    ensures FirstFailure(script, start, start + n) == start + k
    decreases k
  {
    if k == 0 {
    } else {
      assert AllSent(script, start + 1, k - 1);
      assert start + 1 + (k - 1) == start + k;
      StopsAt(script, start + 1, k - 1, n - 1);
    }
  }

  lemma SplitStopsAt(b: Breaker, script: Script, start: nat, healthy: seq<nat>, key: nat, reqs: seq<Request>, k: nat)
    requires StopsAfter(script, start, |reqs|, k)
    ensures SplitEffect(b, script, start, healthy, key, reqs) == StoppedEffect(b, script, start, healthy, key, reqs, k)
  {
    StopsAt(script, start, k, |reqs|);
  }

  lemma SinglesStep(script: Script, start: nat, key: nat, healthy: seq<nat>, reqs: seq<Request>, n: nat)
    requires n < |reqs| && AllSent(script, start, n + 1)
    ensures Singles(script, start, reqs[..n + 1]) ==
      Singles(script, start, reqs[..n]) + [Delivery(reqs[n], Paid(script(start + n).txHash))]
    ensures SinglePayments(script, start, key, healthy, reqs[..n + 1]) ==
      SinglePayments(script, start, key, healthy, reqs[..n]) +
      Transfers(script(start + n).txHash, KeyFor(key, healthy, n), [reqs[n]])
  {}

  lemma ErrorsAre(reqs: seq<Request>, k: nat, error: FlushError)
    requires k <= |reqs|
    ensures Errors(reqs[k..], error) == ErrorsFrom(reqs, k, error)
  {}

  lemma MadeTogether(script: Script, c: nat, healthy: seq<nat>, key: nat, reqs: seq<Request>, n: nat)
    requires n <= |reqs|
    ensures
      var m := MultiCalls(script, c);
      AllMade(script, c, m, healthy, key, reqs, n) ==
        MultiMade(script, c, key, reqs) + SinglesMade(script, c + m, key, healthy, reqs[..n])
  {}

  lemma SplitSingles(b: Breaker, script: Script, start: nat, healthy: seq<nat>, key: nat, reqs: seq<Request>, e: Effect)
    requires e == SplitEffect(b, script, start, healthy, key, reqs)
    ensures |e.made| <= |reqs| && e.made == SinglesMade(script, start, key, healthy, reqs[..|e.made|])
  {}

  lemma SinglesMadeStep(script: Script, start: nat, key: nat, healthy: seq<nat>, reqs: seq<Request>, n: nat)
    requires n < |reqs|
    ensures SinglesMade(script, start, key, healthy, reqs[..n + 1]) ==
      SinglesMade(script, start, key, healthy, reqs[..n]) +
      [Attempt(false, KeyFor(key, healthy, n), [reqs[n]], script(start + n))]
  {}

  // ---- every request one answer, every paid request one payment ----

  lemma {:induction false} PromisedConcat(a: seq<Delivery>, b: seq<Delivery>)
    ensures Promised(a + b) == Promised(a) + Promised(b)
  {
    if b == [] {
      assert a + b == a;
    } else {
      var n := |b| - 1;
      assert (a + b)[..|a + b| - 1] == a + b[..n];
      PromisedConcat(a, b[..n]);
    }
  }

  lemma {:induction false} PromisedPaid(ds: seq<Delivery>)
    requires forall i :: 0 <= i < |ds| ==> ds[i].result.Paid?
    ensures |Promised(ds)| == |ds|
    ensures forall i :: 0 <= i < |ds| ==>
      Promised(ds)[i] == (ds[i].result.txHash, ds[i].request.toAddress, ds[i].request.coins)
  {
    if ds == [] {
    } else {
      PromisedPaid(ds[..|ds| - 1]);
    }
  }

  lemma {:induction false} PromisedUnpaid(ds: seq<Delivery>)
    requires forall i :: 0 <= i < |ds| ==> ds[i].result.Unpaid?
    ensures Promised(ds) == []
  {
    if ds == [] {
    } else {
      PromisedUnpaid(ds[..|ds| - 1]);
    }
  }

  /**
   On every path, every flushed request gets exactly one answer, and the ledger grows by one
   payment for each request that was told a transaction hash, in that transaction, to that
   address, of those coins, and by nothing else. So a multi-send and a split pay alike.
   */
  lemma FlushSettles(b: Breaker, script: Script, c: nat, healthy: seq<nat>, key: nat, reqs: seq<Request>)
    ensures
      var e := FlushEffect(b, script, c, healthy, key, reqs);
      Answers(e.deliveries, reqs) && Made(e.payments) == Promised(e.deliveries)
  {
    if b.suspended {
      PromisedUnpaid(Errors(reqs, ChainSuspended));
    } else if !b.multiDisabled && MultiOutcome(script, c).Sent? {
      PromisedPaid(Confirmed(reqs, MultiOutcome(script, c).txHash));
    } else {
      SplitSettles(b, script, SplitStart(b, script, c), healthy, key, reqs);
    }
  }

  lemma SplitSettles(b: Breaker, script: Script, start: nat, healthy: seq<nat>, key: nat, reqs: seq<Request>)
    ensures
      var e := SplitEffect(b, script, start, healthy, key, reqs);
      Answers(e.deliveries, reqs) && Made(e.payments) == Promised(e.deliveries)
  {
    var k := FirstFailure(script, start, start + |reqs|) - start;
    StopsThere(script, start, |reqs|, k);
    SplitStopsAt(b, script, start, healthy, key, reqs, k);
    StoppedSettles(b, script, start, healthy, key, reqs, k);
  }

  lemma StoppedSettles(b: Breaker, script: Script, start: nat, healthy: seq<nat>, key: nat, reqs: seq<Request>, k: nat)
    requires StopsAfter(script, start, |reqs|, k)
    ensures
      var e := StoppedEffect(b, script, start, healthy, key, reqs, k);
      Answers(e.deliveries, reqs) && Made(e.payments) == Promised(e.deliveries)
  {
    var ds := StoppedEffect(b, script, start, healthy, key, reqs, k).deliveries;
    forall i | 0 <= i < |reqs| ensures |ds| == |reqs| && ds[i].request == reqs[i] {
      StoppedAt(b, script, start, healthy, key, reqs, k, i);
    }
    SinglesSettle(script, start, key, healthy, reqs[..k]);
    if k < |reqs| {
      PaidThenErrors(Singles(script, start, reqs[..k]), reqs, k, BroadcastFailed(script(start + k).error));
    }
  }

  lemma PaidThenErrors(paid: seq<Delivery>, reqs: seq<Request>, k: nat, error: FlushError)
    requires k <= |reqs|
    ensures Promised(paid + ErrorsFrom(reqs, k, error)) == Promised(paid)
  {
    PromisedConcat(paid, ErrorsFrom(reqs, k, error));
    PromisedUnpaid(ErrorsFrom(reqs, k, error));
  }

  lemma SinglesSettle(script: Script, start: nat, key: nat, healthy: seq<nat>, reqs: seq<Request>)
    requires AllSent(script, start, |reqs|)
    ensures Made(SinglePayments(script, start, key, healthy, reqs)) == Promised(Singles(script, start, reqs))
  {
    PromisedPaid(Singles(script, start, reqs));
  }

  // ---- what a flush hands to the node ----

  /** How many multi-sends a flush makes: a second one exactly after these two errors. */
  function MultiSends(b: Breaker, made: seq<Attempt>): nat {
    if b.suspended || b.multiDisabled then 0
    else if made != [] && (made[0].outcome == Failed(SequenceMismatch) || made[0].outcome == Failed(InsufficientFee))
    then 2 else 1
  }

  /** The flush goes on to single sends: multi-sends are off, or the last one failed. */
  predicate Splits(b: Breaker, made: seq<Attempt>) {
    var m := MultiSends(b, made);
    !b.suspended && (m == 0 || (m <= |made| && made[m - 1].outcome.Failed?))
  }

  /** The flush ended at a single send that failed. */
  predicate Breaks(b: Breaker, made: seq<Attempt>) {
    Splits(b, made) && |made| > MultiSends(b, made) && made[|made| - 1].outcome.Failed?
  }

  /** The node answers the attempts in turn. */
  ghost predicate InTurn(made: seq<Attempt>, script: Script, c: nat) {
    forall i :: 0 <= i < |made| ==> made[i].outcome == script(c + i)
  }

  /** Multi-sends carry the whole batch and are paid from the batch's own account. */
  ghost predicate WholeBatch(made: seq<Attempt>, m: nat, key: nat, reqs: seq<Request>) {
    m <= |made| && forall i :: 0 <= i < m ==> MultiAt(made, i, key, reqs)
  }

  ghost predicate MultiAt(made: seq<Attempt>, i: nat, key: nat, reqs: seq<Request>)
    requires i < |made|
  {
    made[i].multi && made[i].fromKey == key && made[i].requests == reqs
  }

  /**
   The i-th single send carries the i-th request and is paid from the i-th healthy
   distributor in rotation, or from the batch's own account if there is none.
   */
  ghost predicate OneByOne(made: seq<Attempt>, m: nat, healthy: seq<nat>, key: nat, reqs: seq<Request>) {
    && |made| <= m + |reqs|
    && forall i :: m <= i < |made| ==> SingleAt(made, i, m, healthy, key, reqs)
  }

  ghost predicate SingleAt(made: seq<Attempt>, i: nat, m: nat, healthy: seq<nat>, key: nat, reqs: seq<Request>)
    requires m <= i < |made| <= m + |reqs|
  {
    && !made[i].multi && made[i].requests == [reqs[i - m]]
    && made[i].fromKey == if healthy == [] then key else healthy[(i - m) % |healthy|]
  }

  /** Single sends are made until all are through or one fails. */
  ghost predicate UntilFailure(made: seq<Attempt>, m: nat, n: nat) {
    && (forall i :: m <= i < |made| - 1 ==> made[i].outcome.Sent?)
    && (|made| == m + n || (|made| > m && made[|made| - 1].outcome.Failed?))
  }

  /** What the requests are told, by the attempts. */
  ghost predicate Told(ds: seq<Delivery>, b: Breaker, made: seq<Attempt>, reqs: seq<Request>) {
    var m := MultiSends(b, made);
    |ds| == |reqs| &&
    if b.suspended then
      forall i :: 0 <= i < |reqs| ==> ds[i] == Delivery(reqs[i], Unpaid(ChainSuspended))
    else if !Splits(b, made) then
      && 0 < m <= |made| && made[m - 1].outcome.Sent?
      && forall i :: 0 <= i < |reqs| ==> ds[i] == Delivery(reqs[i], Paid(made[m - 1].outcome.txHash))
    else forall i :: 0 <= i < |reqs| ==> ToldOne(ds, reqs, made, m, i)
  }

  /** A request hears of its own single send if that went through, and else of the one that failed. */
  ghost predicate ToldOne(ds: seq<Delivery>, reqs: seq<Request>, made: seq<Attempt>, m: nat, i: nat)
    requires i < |ds| == |reqs|
  {
    if m + i < |made| && made[m + i].outcome.Sent? then ds[i] == Delivery(reqs[i], Paid(made[m + i].outcome.txHash))
    else
      && made != [] && made[|made| - 1].outcome.Failed?
      && ds[i] == Delivery(reqs[i], Unpaid(BroadcastFailed(made[|made| - 1].outcome.error)))
  }

  /** What the successful attempts move. */
  function Moved(made: seq<Attempt>): seq<Payment> {
    if made == [] then []
    else
      var a := made[|made| - 1];
      Moved(made[..|made| - 1]) +
      if a.outcome.Sent? then Transfers(a.outcome.txHash, a.fromKey, a.requests) else []
  }

  ghost predicate Attempted(made: seq<Attempt>, b: Breaker, script: Script, c: nat, healthy: seq<nat>, key: nat,
                            reqs: seq<Request>) {
    var m := MultiSends(b, made);
    && InTurn(made, script, c)
    && WholeBatch(made, m, key, reqs)
    && OneByOne(made, m, healthy, key, reqs)
    && (if Splits(b, made) then UntilFailure(made, m, |reqs|) else |made| == m)
  }

  /** Every attempt of a flush. */
  lemma FlushAttempts(b: Breaker, script: Script, c: nat, healthy: seq<nat>, key: nat, reqs: seq<Request>)
    ensures
      var e := FlushEffect(b, script, c, healthy, key, reqs);
      e.calls == c + |e.made| && Attempted(e.made, b, script, c, healthy, key, reqs)
  {
    if b.suspended {
    } else if b.multiDisabled {
      var e := SplitEffect(b, script, c, healthy, key, reqs);
      var k := FirstFailure(script, c, c + |reqs|) - c;
      SplitAttempted(b, script, c, [], healthy, key, reqs, e, k, if k == |reqs| then k else k + 1);
      NoneBefore(e.made);
    } else {
      var start := c + MultiCalls(script, c);
      var k := FirstFailure(script, start, start + |reqs|) - start;
      EnabledAttempted(b, script, c, healthy, key, reqs, MultiEffect(b, script, c, healthy, key, reqs), start, k);
    }
  }

  lemma EnabledAttempted(b: Breaker, script: Script, c: nat, healthy: seq<nat>, key: nat, reqs: seq<Request>, e: Effect,
                         start: nat, k: nat)
    requires !b.suspended && !b.multiDisabled && e == MultiEffect(b, script, c, healthy, key, reqs)
    requires start == c + MultiCalls(script, c) && start + k == FirstFailure(script, start, start + |reqs|)
    ensures e.calls == c + |e.made| && Attempted(e.made, b, script, c, healthy, key, reqs)
  {
    var split := SplitEffect(b, script, start, healthy, key, reqs);
    assert e == AfterMulti(b, script, c, healthy, key, reqs, split);
    MultiAttempted(b, script, c, healthy, key, reqs, split, start, k);
  }

  lemma MultiAttempted(b: Breaker, script: Script, c: nat, healthy: seq<nat>, key: nat, reqs: seq<Request>,
                       split: Effect, start: nat, k: nat)
    requires !b.suspended && !b.multiDisabled && start == c + MultiCalls(script, c)
    requires split == SplitEffect(b, script, start, healthy, key, reqs)
    requires start + k == FirstFailure(script, start, start + |reqs|)
    ensures
      var e := AfterMulti(b, script, c, healthy, key, reqs, split);
      e.calls == c + |e.made| && Attempted(e.made, b, script, c, healthy, key, reqs)
  {
    SplitSingles(b, script, start, healthy, key, reqs, split);
    if MultiOutcome(script, c).Failed? {
      FailedAttempted(b, script, c, MultiMade(script, c, key, reqs), healthy, key, reqs, split, k);
      AfterMultiAttempted(b, script, c, healthy, key, reqs, split);
    } else {
      AfterMultiAttempted(b, script, c, healthy, key, reqs, split);
    }
  }

  lemma FailedAttempted(b: Breaker, script: Script, c: nat, multi: seq<Attempt>, healthy: seq<nat>, key: nat,
                        reqs: seq<Request>, split: Effect, k: nat)
    requires !b.suspended && !b.multiDisabled && MultiOutcome(script, c).Failed?
    requires multi == MultiMade(script, c, key, reqs)
    requires split == SplitEffect(b, script, c + |multi|, healthy, key, reqs)
    requires c + |multi| + k == FirstFailure(script, c + |multi|, c + |multi| + |reqs|)
    ensures split.calls == c + |multi| + |split.made| && Attempted(multi + split.made, b, script, c, healthy, key, reqs)
  {
    MultiLeads(b, script, c, key, reqs, multi);
    SplitAttempted(b, script, c, multi, healthy, key, reqs, split, k, if k == |reqs| then k else k + 1);
  }

  lemma AfterMultiAttempted(b: Breaker, script: Script, c: nat, healthy: seq<nat>, key: nat, reqs: seq<Request>,
                            split: Effect)
    requires !b.suspended && !b.multiDisabled && |split.made| <= |reqs|
    requires split.made == SinglesMade(script, c + MultiCalls(script, c), key, healthy, reqs[..|split.made|])
    requires
      var multi := MultiMade(script, c, key, reqs);
      MultiOutcome(script, c).Failed? ==>
        split.calls == c + |multi| + |split.made| && Attempted(multi + split.made, b, script, c, healthy, key, reqs)
    ensures
      var e := AfterMulti(b, script, c, healthy, key, reqs, split);
      e.calls == c + |e.made| && Attempted(e.made, b, script, c, healthy, key, reqs)
  {
    MultisAre(b, script, c, key, reqs);
    MadeTogether(script, c, healthy, key, reqs, |split.made|);
  }

  lemma NoneBefore(made: seq<Attempt>)
    ensures [] + made == made
  {}

  lemma MultisAre(b: Breaker, script: Script, c: nat, key: nat, reqs: seq<Request>)
    requires !b.suspended && !b.multiDisabled
    ensures
      var multi := MultiMade(script, c, key, reqs);
      && InTurn(multi, script, c) && WholeBatch(multi, |multi|, key, reqs) && MultiSends(b, multi) == |multi|
      && multi[|multi| - 1].outcome == MultiOutcome(script, c)
      && (MultiOutcome(script, c).Failed? ==> forall i :: 0 <= i < |multi| ==> multi[i].outcome.Failed?)
  {}

  /** The attempts up to the single sends. */
  ghost predicate Leads(multi: seq<Attempt>, b: Breaker, script: Script, c: nat, key: nat, reqs: seq<Request>) {
    && InTurn(multi, script, c) && WholeBatch(multi, |multi|, key, reqs)
    && !b.suspended && MultiSends(b, multi) == |multi| && forall i :: 0 <= i < |multi| ==> multi[i].outcome.Failed?
  }

  lemma SplitAttempted(b: Breaker, script: Script, c: nat, multi: seq<Attempt>, healthy: seq<nat>, key: nat,
                       reqs: seq<Request>, e: Effect, k: nat, n: nat)
    requires Leads(multi, b, script, c, key, reqs) && e == SplitEffect(b, script, c + |multi|, healthy, key, reqs)
    requires c + |multi| + k == FirstFailure(script, c + |multi|, c + |multi| + |reqs|)
    requires n == if k == |reqs| then k else k + 1
    ensures e.calls == c + |multi| + |e.made| && Attempted(multi + e.made, b, script, c, healthy, key, reqs)
  {
    SplitMade(b, script, c + |multi|, healthy, key, reqs, e, k, n);
    StoppedAttempted(b, script, c, multi, healthy, key, reqs, k, n);
  }

  lemma StoppedAttempted(b: Breaker, script: Script, c: nat, multi: seq<Attempt>, healthy: seq<nat>, key: nat,
                         reqs: seq<Request>, k: nat, n: nat)
    requires Leads(multi, b, script, c, key, reqs) && k <= |reqs| && n == if k == |reqs| then k else k + 1
    requires StopsAfter(script, c + |multi|, |reqs|, k)
    ensures Attempted(multi + SinglesMade(script, c + |multi|, key, healthy, reqs[..n]), b, script, c, healthy, key,
                      reqs)
  {
    SinglesFollow(b, script, c, multi, healthy, key, reqs, n);
    StopsFollow(script, c, multi, healthy, key, reqs, k, n);
  }

  lemma SinglesFollow(b: Breaker, script: Script, c: nat, multi: seq<Attempt>, healthy: seq<nat>, key: nat,
                      reqs: seq<Request>, n: nat)
    requires Leads(multi, b, script, c, key, reqs) && n <= |reqs|
    ensures
      var made := multi + SinglesMade(script, c + |multi|, key, healthy, reqs[..n]);
      && InTurn(made, script, c) && WholeBatch(made, |multi|, key, reqs)
      && OneByOne(made, |multi|, healthy, key, reqs)
      && MultiSends(b, made) == |multi| && Splits(b, made)
  {
    var made := multi + SinglesMade(script, c + |multi|, key, healthy, reqs[..n]);
    forall i | 0 <= i < |multi| ensures MultiAt(made, i, key, reqs) { assert MultiAt(multi, i, key, reqs); }
  }

  lemma StopsFollow(script: Script, c: nat, multi: seq<Attempt>, healthy: seq<nat>, key: nat,
                    reqs: seq<Request>, k: nat, n: nat)
    requires k <= |reqs| && n == if k == |reqs| then k else k + 1
    requires StopsAfter(script, c + |multi|, |reqs|, k)
    ensures UntilFailure(multi + SinglesMade(script, c + |multi|, key, healthy, reqs[..n]), |multi|, |reqs|)
  {}

  /** The kind of a flush, by its attempts. */
  function KindBy(b: Breaker, made: seq<Attempt>): Kind {
    if b.suspended then Skipped
    else if !Splits(b, made) then MultiOk
    else if Breaks(b, made) then SplitFailed
    else SplitOk(!b.multiDisabled)
  }

  /** Exactly the given account leaves the list of healthy ones. */
  ghost predicate SetAside(left: seq<nat>, healthy: seq<nat>, key: nat) {
    && (forall x :: LeavesAlone(left, healthy, key, x))
    && (forall p :: 0 <= p < |healthy| ==> CutOut(left, healthy, key, p))
  }

  ghost predicate LeavesAlone(left: seq<nat>, healthy: seq<nat>, key: nat, x: nat) {
    x in left <==> x in healthy && x != key
  }

  ghost predicate CutOut(left: seq<nat>, healthy: seq<nat>, key: nat, p: nat)
    requires p < |healthy|
  {
    Distinct(healthy) && healthy[p] == key ==> left == healthy[..p] + healthy[p + 1..]
  }

  /** The distributor whose single send failed is set aside, and no other. */
  ghost predicate Benched(left: seq<nat>, healthy: seq<nat>, b: Breaker, made: seq<Attempt>) {
    if Breaks(b, made) then SetAside(left, healthy, made[|made| - 1].fromKey) else left == healthy
  }

  /** All that a flush leaves behind follows from its attempts. */
  ghost predicate Explained(e: Effect, b: Breaker, healthy: seq<nat>, reqs: seq<Request>, made: seq<Attempt>) {
    && Told(e.deliveries, b, made, reqs)
    && e.payments == Moved(made)
    && Benched(e.healthy, healthy, b, made)
    && e.breaker == Next(b, KindBy(b, made))
  }

  lemma {:induction false} WithoutAt(keys: seq<nat>, key: nat, p: nat)
    requires Distinct(keys) && p < |keys| && keys[p] == key
    ensures Without(keys, key) == keys[..p] + keys[p + 1..]
  {
    var n := |keys| - 1;
    if p == n {
      WithoutAbsent(keys[..n], key);
    } else {
      WithoutAt(keys[..n], key, p);
      assert keys[..n][p + 1..] + [keys[n]] == keys[p + 1..];
      assert keys[..n][..p] == keys[..p];
    }
  }

  lemma WithoutSetsAside(keys: seq<nat>, key: nat)
    ensures SetAside(Without(keys, key), keys, key)
  {
    forall x ensures LeavesAlone(Without(keys, key), keys, key, x) { WithoutKeeps(keys, key, x); }
    forall p | 0 <= p < |keys| ensures CutOut(Without(keys, key), keys, key, p) {
      if Distinct(keys) && keys[p] == key {
        WithoutAt(keys, key, p);
      }
    }
  }

  lemma {:induction false} MovedConcat(a: seq<Attempt>, b: seq<Attempt>)
    ensures Moved(a + b) == Moved(a) + Moved(b)
  {
    if b == [] {
      assert a + b == a;
    } else {
      var n := |b| - 1;
      assert (a + b)[..|a + b| - 1] == a + b[..n];
      MovedConcat(a, b[..n]);
    }
  }

  lemma MovedOne(made: seq<Attempt>, a: Attempt)
    ensures Moved(made + [a]) ==
      Moved(made) + if a.outcome.Sent? then Transfers(a.outcome.txHash, a.fromKey, a.requests) else []
  {
    assert (made + [a])[..|made|] == made;
  }

  lemma {:induction false} MovedSingles(script: Script, start: nat, key: nat, healthy: seq<nat>, reqs: seq<Request>,
                                        k: nat)
    requires k <= |reqs| && AllSent(script, start, k)
    ensures Moved(SinglesMade(script, start, key, healthy, reqs[..k])) ==
      SinglePayments(script, start, key, healthy, reqs[..k])
  {
    if k == 0 {
    } else {
      var n := k - 1;
      MovedSingles(script, start, key, healthy, reqs, n);
      SinglesMadeStep(script, start, key, healthy, reqs, n);
      SinglesStep(script, start, key, healthy, reqs, n);
      MovedOne(SinglesMade(script, start, key, healthy, reqs[..n]),
               Attempt(false, KeyFor(key, healthy, n), [reqs[n]], script(start + n)));
    }
  }

  lemma MovedStopped(script: Script, start: nat, key: nat, healthy: seq<nat>, reqs: seq<Request>, k: nat, n: nat)
    requires StopsAfter(script, start, |reqs|, k) && n == if k == |reqs| then k else k + 1
    ensures Moved(SinglesMade(script, start, key, healthy, reqs[..n])) ==
      SinglePayments(script, start, key, healthy, reqs[..k])
  {
    MovedSingles(script, start, key, healthy, reqs, k);
    if k < |reqs| {
      SinglesMadeStep(script, start, key, healthy, reqs, k);
      MovedOne(SinglesMade(script, start, key, healthy, reqs[..k]),
               Attempt(false, KeyFor(key, healthy, k), [reqs[k]], script(start + k)));
    }
  }

  lemma {:induction false} MovedNothing(made: seq<Attempt>)
    requires forall i :: 0 <= i < |made| ==> made[i].outcome.Failed?
    ensures Moved(made) == []
  {
    if made == [] {
    } else {
      MovedNothing(made[..|made| - 1]);
    }
  }

  lemma StoppedTold(b: Breaker, script: Script, c: nat, multi: seq<Attempt>, healthy: seq<nat>, key: nat,
                    reqs: seq<Request>, k: nat, n: nat)
    requires Leads(multi, b, script, c, key, reqs) && n == if k == |reqs| then k else k + 1
    requires StopsAfter(script, c + |multi|, |reqs|, k)
    ensures
      var made := multi + SinglesMade(script, c + |multi|, key, healthy, reqs[..n]);
      Told(StoppedEffect(b, script, c + |multi|, healthy, key, reqs, k).deliveries, b, made, reqs)
  {
    var made := multi + SinglesMade(script, c + |multi|, key, healthy, reqs[..n]);
    var ds := StoppedEffect(b, script, c + |multi|, healthy, key, reqs, k).deliveries;
    SinglesFollow(b, script, c, multi, healthy, key, reqs, n);
    forall i | 0 <= i < |reqs| ensures ToldOne(ds, reqs, made, |multi|, i) {
      StoppedAt(b, script, c + |multi|, healthy, key, reqs, k, i);
      InTurnTold(made, script, c, |multi|, reqs, k, n, i, ds);
    }
  }

  lemma StoppedAt(b: Breaker, script: Script, start: nat, healthy: seq<nat>, key: nat, reqs: seq<Request>, k: nat,
                  i: nat)
    requires StopsAfter(script, start, |reqs|, k) && i < |reqs|
    ensures
      var ds := StoppedEffect(b, script, start, healthy, key, reqs, k).deliveries;
      |ds| == |reqs| && ds[i] == Delivery(reqs[i],
        if i < k then Paid(script(start + i).txHash) else Unpaid(BroadcastFailed(script(start + k).error)))
  {}

  lemma InTurnTold(made: seq<Attempt>, script: Script, c: nat, m: nat, reqs: seq<Request>, k: nat, n: nat, i: nat,
                   ds: seq<Delivery>)
    requires InTurn(made, script, c) && |made| == m + n && n == (if k == |reqs| then k else k + 1)
    requires StopsAfter(script, c + m, |reqs|, k) && i < |reqs| == |ds|
    requires ds[i] == Delivery(reqs[i],
      if i < k then Paid(script(c + m + i).txHash) else Unpaid(BroadcastFailed(script(c + m + k).error)))
    ensures ToldOne(ds, reqs, made, m, i)
  {
    assert n > 0 ==> made[|made| - 1].outcome == script(c + m + n - 1);
    if i < n {
      assert made[m + i].outcome == script(c + m + i);
    }
  }

  lemma StoppedBreaks(b: Breaker, script: Script, c: nat, multi: seq<Attempt>, healthy: seq<nat>, key: nat,
                      reqs: seq<Request>, k: nat, n: nat)
    requires Leads(multi, b, script, c, key, reqs) && n == if k == |reqs| then k else k + 1
    requires StopsAfter(script, c + |multi|, |reqs|, k)
    ensures
      var made := multi + SinglesMade(script, c + |multi|, key, healthy, reqs[..n]);
      && Splits(b, made) && (Breaks(b, made) <==> k < |reqs|)
      && (k < |reqs| ==> made[|made| - 1].fromKey == KeyFor(key, healthy, k))
  {
    SinglesFollow(b, script, c, multi, healthy, key, reqs, n);
  }

  /** Explained, from its parts. */
  lemma PartsExplain(e: Effect, b: Breaker, healthy: seq<nat>, reqs: seq<Request>, made: seq<Attempt>)
    requires Told(e.deliveries, b, made, reqs) && e.payments == Moved(made) && Splits(b, made)
    requires
      if Breaks(b, made) then
        e.healthy == Without(healthy, made[|made| - 1].fromKey) && e.breaker == Next(b, SplitFailed)
      else e.healthy == healthy && e.breaker == Next(b, SplitOk(!b.multiDisabled))
    ensures Explained(e, b, healthy, reqs, made)
  {
    if Breaks(b, made) {
      WithoutSetsAside(healthy, made[|made| - 1].fromKey);
    }
  }

  lemma StoppedMoves(b: Breaker, script: Script, start: nat, multi: seq<Attempt>, healthy: seq<nat>, key: nat,
                     reqs: seq<Request>, k: nat, n: nat, e: Effect, made: seq<Attempt>)
    requires forall i :: 0 <= i < |multi| ==> multi[i].outcome.Failed?
    requires StopsAfter(script, start, |reqs|, k) && n == if k == |reqs| then k else k + 1
    requires made == multi + SinglesMade(script, start, key, healthy, reqs[..n])
    requires e == StoppedEffect(b, script, start, healthy, key, reqs, k)
    ensures e.payments == Moved(made)
  {
    assert e.payments == SinglePayments(script, start, key, healthy, reqs[..k]);
    MovedAfter(multi, SinglesMade(script, start, key, healthy, reqs[..n]));
    MovedStopped(script, start, key, healthy, reqs, k, n);
  }

  lemma MovedAfter(multi: seq<Attempt>, made: seq<Attempt>)
    requires forall i :: 0 <= i < |multi| ==> multi[i].outcome.Failed?
    ensures Moved(multi + made) == Moved(made)
  {
    MovedNothing(multi);
    MovedConcat(multi, made);
  }

  lemma StoppedExplained(b: Breaker, script: Script, c: nat, multi: seq<Attempt>, healthy: seq<nat>, key: nat,
                         reqs: seq<Request>, k: nat, n: nat, e: Effect, made: seq<Attempt>)
    requires Leads(multi, b, script, c, key, reqs) && n == if k == |reqs| then k else k + 1
    requires StopsAfter(script, c + |multi|, |reqs|, k)
    requires made == multi + SinglesMade(script, c + |multi|, key, healthy, reqs[..n])
    requires e == StoppedEffect(b, script, c + |multi|, healthy, key, reqs, k)
    ensures Explained(e, b, healthy, reqs, made)
    ensures KindBy(b, made) == if k == |reqs| then SplitOk(!b.multiDisabled) else SplitFailed
  {
    StoppedTold(b, script, c, multi, healthy, key, reqs, k, n);
    StoppedBreaks(b, script, c, multi, healthy, key, reqs, k, n);
    StoppedMoves(b, script, c + |multi|, multi, healthy, key, reqs, k, n, e, made);
    if k == |reqs| {
      PartsExplain(e, b, healthy, reqs, made);
    } else {
      PartsExplain(e, b, healthy, reqs, made);
    }
  }

  lemma SplitExplained(b: Breaker, script: Script, c: nat, multi: seq<Attempt>, healthy: seq<nat>, key: nat,
                       reqs: seq<Request>, e: Effect, k: nat, n: nat, made: seq<Attempt>)
    requires Leads(multi, b, script, c, key, reqs) && e == SplitEffect(b, script, c + |multi|, healthy, key, reqs)
    requires c + |multi| + k == FirstFailure(script, c + |multi|, c + |multi| + |reqs|)
    requires n == (if k == |reqs| then k else k + 1) && made == multi + e.made
    ensures Explained(e, b, healthy, reqs, made)
    ensures KindBy(b, made) == if k == |reqs| then SplitOk(!b.multiDisabled) else SplitFailed
  {
    SplitMade(b, script, c + |multi|, healthy, key, reqs, e, k, n);
    StoppedExplained(b, script, c, multi, healthy, key, reqs, k, n, e, made);
  }

  lemma SplitMade(b: Breaker, script: Script, start: nat, healthy: seq<nat>, key: nat, reqs: seq<Request>, e: Effect,
                  k: nat, n: nat)
    requires e == SplitEffect(b, script, start, healthy, key, reqs)
    requires start + k == FirstFailure(script, start, start + |reqs|) && n == if k == |reqs| then k else k + 1
    ensures StopsAfter(script, start, |reqs|, k) && e == StoppedEffect(b, script, start, healthy, key, reqs, k)
    ensures e.made == SinglesMade(script, start, key, healthy, reqs[..n]) && e.calls == start + n
  {
    StopsThere(script, start, |reqs|, k);
    SplitStopsAt(b, script, start, healthy, key, reqs, k);
    StoppedMakes(b, script, start, healthy, key, reqs, k, n);
  }

  lemma StopsThere(script: Script, start: nat, n: nat, k: nat)
    requires start + k == FirstFailure(script, start, start + n)
    ensures StopsAfter(script, start, n, k)
  {}

  lemma StoppedMakes(b: Breaker, script: Script, start: nat, healthy: seq<nat>, key: nat, reqs: seq<Request>, k: nat,
                     n: nat)
    requires StopsAfter(script, start, |reqs|, k) && n == if k == |reqs| then k else k + 1
    ensures
      var e := StoppedEffect(b, script, start, healthy, key, reqs, k);
      e.made == SinglesMade(script, start, key, healthy, reqs[..n]) && e.calls == start + n
  {}

  lemma AfterMultiExplained(b: Breaker, script: Script, c: nat, healthy: seq<nat>, key: nat, reqs: seq<Request>,
                            split: Effect, kind: Kind)
    requires !b.suspended && !b.multiDisabled && |split.made| <= |reqs|
    requires split.made == SinglesMade(script, c + MultiCalls(script, c), key, healthy, reqs[..|split.made|])
    requires
      var made := MultiMade(script, c, key, reqs) + split.made;
      MultiOutcome(script, c).Failed? ==> Explained(split, b, healthy, reqs, made) && KindBy(b, made) == kind
    ensures
      var e := AfterMulti(b, script, c, healthy, key, reqs, split);
      && Explained(e, b, healthy, reqs, e.made)
      && KindBy(b, e.made) == if MultiOutcome(script, c).Sent? then MultiOk else kind
  {
    MultisAre(b, script, c, key, reqs);
    MadeTogether(script, c, healthy, key, reqs, |split.made|);
    if MultiOutcome(script, c).Sent? {
      MultiMoves(script, c, key, reqs);
    }
  }

  lemma MultiMoves(script: Script, c: nat, key: nat, reqs: seq<Request>)
    requires MultiOutcome(script, c).Sent?
    ensures Moved(MultiMade(script, c, key, reqs)) == Transfers(MultiOutcome(script, c).txHash, key, reqs)
  {
    var first, second := Attempt(true, key, reqs, script(c)), Attempt(true, key, reqs, script(c + 1));
    assert [] + [first] == [first];
    MovedOne([], first);
    MovedOne([first], second);
  }

  /** What a flush tells its requests, pays, sets aside and reports to the breaker, by its attempts alone. */
  lemma FlushExplained(b: Breaker, script: Script, c: nat, healthy: seq<nat>, key: nat, reqs: seq<Request>)
    ensures
      var e := FlushEffect(b, script, c, healthy, key, reqs);
      Explained(e, b, healthy, reqs, e.made) && KindOf(b, script, c, |reqs|) == KindBy(b, e.made)
  {
    if b.suspended {
    } else if b.multiDisabled {
      var k := FirstFailure(script, c, c + |reqs|) - c;
      DisabledExplained(b, script, c, healthy, key, reqs, SplitEffect(b, script, c, healthy, key, reqs), k);
    } else {
      var start := c + MultiCalls(script, c);
      var k := FirstFailure(script, start, start + |reqs|) - start;
      EnabledExplained(b, script, c, healthy, key, reqs, MultiEffect(b, script, c, healthy, key, reqs), start, k);
    }
  }

  lemma EnabledExplained(b: Breaker, script: Script, c: nat, healthy: seq<nat>, key: nat, reqs: seq<Request>, e: Effect,
                         start: nat, k: nat)
    requires !b.suspended && !b.multiDisabled && e == MultiEffect(b, script, c, healthy, key, reqs)
    requires start == c + MultiCalls(script, c) && start + k == FirstFailure(script, start, start + |reqs|)
    ensures Explained(e, b, healthy, reqs, e.made)
    ensures KindBy(b, e.made) ==
      if MultiOutcome(script, c).Sent? then MultiOk else if k == |reqs| then SplitOk(true) else SplitFailed
  {
    var split := SplitEffect(b, script, start, healthy, key, reqs);
    assert e == AfterMulti(b, script, c, healthy, key, reqs, split);
    MultiExplained(b, script, c, healthy, key, reqs, split, start, k);
  }

  lemma DisabledExplained(b: Breaker, script: Script, c: nat, healthy: seq<nat>, key: nat, reqs: seq<Request>,
                          e: Effect, k: nat)
    requires !b.suspended && b.multiDisabled && e == SplitEffect(b, script, c, healthy, key, reqs)
    requires c + k == FirstFailure(script, c, c + |reqs|)
    ensures Explained(e, b, healthy, reqs, e.made)
    ensures KindBy(b, e.made) == if k == |reqs| then SplitOk(false) else SplitFailed
  {
    NoneBefore(e.made);
    SplitExplained(b, script, c, [], healthy, key, reqs, e, k, if k == |reqs| then k else k + 1, e.made);
  }

  lemma MultiExplained(b: Breaker, script: Script, c: nat, healthy: seq<nat>, key: nat, reqs: seq<Request>,
                       split: Effect, start: nat, k: nat)
    requires !b.suspended && !b.multiDisabled && start == c + MultiCalls(script, c)
    requires split == SplitEffect(b, script, start, healthy, key, reqs)
    requires start + k == FirstFailure(script, start, start + |reqs|)
    ensures
      var e := AfterMulti(b, script, c, healthy, key, reqs, split);
      && Explained(e, b, healthy, reqs, e.made)
      && KindBy(b, e.made) ==
         if MultiOutcome(script, c).Sent? then MultiOk else if k == |reqs| then SplitOk(true) else SplitFailed
  {
    var multi, kind := MultiMade(script, c, key, reqs), if k == |reqs| then SplitOk(true) else SplitFailed;
    SplitSingles(b, script, start, healthy, key, reqs, split);
    if MultiOutcome(script, c).Failed? {
      FailedExplained(b, script, c, multi, healthy, key, reqs, split, k);
      AfterMultiExplained(b, script, c, healthy, key, reqs, split, kind);
    } else {
      AfterMultiExplained(b, script, c, healthy, key, reqs, split, kind);
    }
  }

  lemma MultiLeads(b: Breaker, script: Script, c: nat, key: nat, reqs: seq<Request>, multi: seq<Attempt>)
    requires !b.suspended && !b.multiDisabled && MultiOutcome(script, c).Failed?
    requires multi == MultiMade(script, c, key, reqs)
    ensures Leads(multi, b, script, c, key, reqs)
  {
    MultisAre(b, script, c, key, reqs);
  }

  lemma FailedExplained(b: Breaker, script: Script, c: nat, multi: seq<Attempt>, healthy: seq<nat>, key: nat,
                        reqs: seq<Request>, split: Effect, k: nat)
    requires !b.suspended && !b.multiDisabled && MultiOutcome(script, c).Failed?
    requires multi == MultiMade(script, c, key, reqs)
    requires split == SplitEffect(b, script, c + |multi|, healthy, key, reqs)
    requires c + |multi| + k == FirstFailure(script, c + |multi|, c + |multi| + |reqs|)
    ensures Explained(split, b, healthy, reqs, multi + split.made)
    ensures KindBy(b, multi + split.made) == if k == |reqs| then SplitOk(!b.multiDisabled) else SplitFailed
  {
    MultiLeads(b, script, c, key, reqs, multi);
    SplitExplained(b, script, c, multi, healthy, key, reqs, split, k, if k == |reqs| then k else k + 1,
                   multi + split.made);
  }

  // ---- the circuit breaker over every run ----

  datatype Op = DoFlush(keyIndex: nat, reqs: seq<Request>) | DoResume

  datatype System = System(breaker: Breaker, calls: nat, healthy: seq<nat>)

  function Do(script: Script, s: System, op: Op): System {
    match op
    case DoResume => s.(breaker := Resumed(s.breaker))
    case DoFlush(key, reqs) =>
      var e := FlushEffect(s.breaker, script, s.calls, s.healthy, key, reqs);
      System(e.breaker, e.calls, e.healthy)
  }

  function After(script: Script, healthy: seq<nat>, ops: seq<Op>): System {
    if ops == [] then System(Breaker(false, false, 0, 0), 0, healthy)
    else Do(script, After(script, healthy, ops[..|ops| - 1]), ops[|ops| - 1])
  }

  lemma AfterOn(script: Script, healthy: seq<nat>, ops: seq<Op>, op: Op)
    ensures After(script, healthy, ops + [op]) == Do(script, After(script, healthy, ops), op)
  {
    assert (ops + [op])[..|ops|] == ops;
  }

  /** A flush leads on from where the operations led, and settles. */
  lemma FlushEnters(s: System, script: Script, healthy: seq<nat>, ops: seq<Op>, key: nat, reqs: seq<Request>, e: Effect)
    requires s == After(script, healthy, ops) && e == FlushEffect(s.breaker, script, s.calls, s.healthy, key, reqs)
    ensures After(script, healthy, ops + [DoFlush(key, reqs)]) == System(e.breaker, e.calls, e.healthy)
    ensures Made(e.payments) == Promised(e.deliveries)
  {
    AfterOn(script, healthy, ops, DoFlush(key, reqs));
    FlushSettles(s.breaker, script, s.calls, s.healthy, key, reqs);
  }

  lemma SettledOn(answered: seq<Delivery>, ledger: seq<Payment>, ds: seq<Delivery>, ps: seq<Payment>)
    requires Made(ledger) == Promised(answered) && Made(ps) == Promised(ds)
    ensures Made(ledger + ps) == Promised(answered + ds)
  {
    PromisedConcat(answered, ds);
    MadeConcat(ledger, ps);
  }

  lemma MadeConcat(a: seq<Payment>, b: seq<Payment>)
    ensures Made(a + b) == Made(a) + Made(b)
  {}

  /** What an observer of the run sees. */
  datatype Mark = Flushed(kind: Kind) | Resumption

  function History(script: Script, healthy: seq<nat>, ops: seq<Op>): (h: seq<Mark>)
    ensures |h| == |ops|
  {
    if ops == [] then []
    else
      var s, op := After(script, healthy, ops[..|ops| - 1]), ops[|ops| - 1];
      History(script, healthy, ops[..|ops| - 1]) +
      [match op
       case DoResume => Resumption
       case DoFlush(_, reqs) => Flushed(KindOf(s.breaker, script, s.calls, |reqs|))]
  }

  /** Failed flushes since the last clean flush or resumption. */
  function FailuresSince(h: seq<Mark>): nat {
    if h == [] then 0
    else
      var rest := FailuresSince(h[..|h| - 1]);
      match h[|h| - 1]
      case Resumption => 0
      case Flushed(SplitFailed) => rest + 1
      case Flushed(Skipped) => rest
      case Flushed(_) => 0
  }

  /** Flushes that failed as a multi-send and went through as a split since the last multi-send or resumption. */
  function MultiFailuresSince(h: seq<Mark>): nat {
    if h == [] then 0
    else
      var rest := MultiFailuresSince(h[..|h| - 1]);
      match h[|h| - 1]
      case Resumption => 0
      case Flushed(MultiOk) => 0
      case Flushed(SplitOk(true)) => rest + 1
      case Flushed(_) => rest
  }

  /** At some point of the run the third such flush was seen. */
  ghost predicate EverThirdMultiFailure(h: seq<Mark>) {
    exists n :: 0 <= n <= |h| && MultiFailuresSince(h[..n]) >= 3
  }

  function Failures(h: seq<Mark>): nat {
    if h == [] then 0 else Failures(h[..|h| - 1]) + if h[|h| - 1] == Flushed(SplitFailed) then 1 else 0
  }

  lemma EverStep(h: seq<Mark>, m: Mark)
    ensures EverThirdMultiFailure(h + [m]) <==> EverThirdMultiFailure(h) || MultiFailuresSince(h + [m]) >= 3
  {
    forall n | 0 <= n <= |h| ensures (h + [m])[..n] == h[..n] {}
    assert (h + [m])[..|h| + 1] == h + [m];
  }

  ghost predicate Tracks(b: Breaker, h: seq<Mark>) {
    && b.sendStreak == FailuresSince(h) <= 5
    && (b.suspended <==> FailuresSince(h) >= 5)
    && b.multiStreak == MultiFailuresSince(h)
    && (b.multiDisabled <==> EverThirdMultiFailure(h))
  }

  /** What the breaker lets happen: nothing while suspended, no multi-send once it is off. */
  ghost predicate Allowed(b: Breaker, k: Kind) {
    && (k == Skipped <==> b.suspended)
    && (k == MultiOk || k == SplitOk(true) ==> !b.multiDisabled)
  }

  lemma TracksFlush(b: Breaker, h: seq<Mark>, k: Kind)
    requires Tracks(b, h) && Allowed(b, k)
    ensures Tracks(Next(b, k), h + [Flushed(k)])
  {
    EverStep(h, Flushed(k));
    assert (h + [Flushed(k)])[..|h|] == h;
    assert h[..|h|] == h;
  }

  lemma TracksResume(b: Breaker, h: seq<Mark>)
    requires Tracks(b, h)
    ensures Tracks(Resumed(b), h + [Resumption])
  {
    EverStep(h, Resumption);
    assert (h + [Resumption])[..|h|] == h;
  }

  /** A flush moves the breaker by its kind; while suspended it changes nothing and broadcasts nothing. */
  lemma FlushOnBreaker(b: Breaker, script: Script, c: nat, healthy: seq<nat>, key: nat, reqs: seq<Request>)
    ensures
      var e, k := FlushEffect(b, script, c, healthy, key, reqs), KindOf(b, script, c, |reqs|);
      && e.breaker == Next(b, k) && Allowed(b, k)
      && (b.suspended ==> e.breaker == b && e.calls == c && e.payments == [])
  {}

  /**
   Over every run of flushes and resumptions, the streak counts the failed flushes since the
   last clean flush or resumption, and the chain is suspended exactly from the fifth on;
   multi-send is off exactly from the third failure that a split made good, and no
   resumption turns it on again.
   */
  lemma {:induction false} BreakerTracksHistory(script: Script, healthy: seq<nat>, ops: seq<Op>)
    ensures Tracks(After(script, healthy, ops).breaker, History(script, healthy, ops))
  {
    if ops == [] {
      assert forall n :: 0 <= n <= 0 ==> History(script, healthy, ops)[..n] == [];
    } else {
      var n := |ops| - 1;
      BreakerTracksHistory(script, healthy, ops[..n]);
      var s, h := After(script, healthy, ops[..n]), History(script, healthy, ops[..n]);
      match ops[n]
      case DoResume => TracksResume(s.breaker, h);
      case DoFlush(key, reqs) =>
        FlushOnBreaker(s.breaker, script, s.calls, s.healthy, key, reqs);
        TracksFlush(s.breaker, h, KindOf(s.breaker, script, s.calls, |reqs|));
    }
  }

  // ---- distributors are set aside for good ----

  predicate Distinct(keys: seq<nat>) { forall i, j :: 0 <= i < j < |keys| ==> keys[i] != keys[j] }

  lemma DistinctSnoc(keys: seq<nat>, key: nat)
    requires Distinct(keys) && key !in keys
    ensures Distinct(keys + [key])
  {}

  lemma {:induction false} WithoutKeeps(keys: seq<nat>, key: nat, x: nat)
    ensures x in Without(keys, key) <==> x in keys && x != key
  {
    if keys == [] {
    } else {
      var n := |keys| - 1;
      WithoutKeeps(keys[..n], key, x);
      assert keys == keys[..n] + [keys[n]];
    }
  }

  lemma {:induction false} WithoutOne(keys: seq<nat>, key: nat)
    requires Distinct(keys)
    ensures Distinct(Without(keys, key))
    ensures |Without(keys, key)| == |keys| - if key in keys then 1 else 0
  {
    if keys == [] {
    } else {
      var n := |keys| - 1;
      assert keys == keys[..n] + [keys[n]] && keys[n] !in keys[..n];
      WithoutOne(keys[..n], key);
      WithoutKeeps(keys[..n], key, keys[n]);
      if keys[n] != key {
        DistinctSnoc(Without(keys[..n], key), keys[n]);
      }
    }
  }

  /** Every failed flush takes one distributor out of service until none is left, and nothing brings one back. */
  lemma {:induction false} DistributorsOnlyLeave(script: Script, healthy: seq<nat>, ops: seq<Op>)
    requires Distinct(healthy)
    ensures
      var left, failures := After(script, healthy, ops).healthy, Failures(History(script, healthy, ops));
      Distinct(left) && |left| == if failures < |healthy| then |healthy| - failures else 0
  {
    if ops == [] {
    } else {
      var n := |ops| - 1;
      DistributorsOnlyLeave(script, healthy, ops[..n]);
      var s := After(script, healthy, ops[..n]);
      assert History(script, healthy, ops)[..n] == History(script, healthy, ops[..n]);
      if ops[n].DoFlush? {
        FailureTakesOne(s.breaker, script, s.calls, s.healthy, ops[n].keyIndex, ops[n].reqs);
      }
    }
  }

  lemma FailureTakesOne(b: Breaker, script: Script, c: nat, healthy: seq<nat>, key: nat, reqs: seq<Request>)
    requires Distinct(healthy)
    ensures
      var left, k := FlushEffect(b, script, c, healthy, key, reqs).healthy, KindOf(b, script, c, |reqs|);
      && Distinct(left)
      && |left| == |healthy| - if k == SplitFailed && healthy != [] then 1 else 0
  {
    var start := SplitStart(b, script, c);
    var i := FirstFailure(script, start, start + |reqs|) - start;
    StopsThere(script, start, |reqs|, i);
    SplitStopsAt(b, script, start, healthy, key, reqs, i);
    WithoutOne(healthy, KeyFor(key, healthy, i));
    StoppedTakes(b, script, start, healthy, key, reqs, i);
  }

  lemma StoppedTakes(b: Breaker, script: Script, start: nat, healthy: seq<nat>, key: nat, reqs: seq<Request>, k: nat)
    requires StopsAfter(script, start, |reqs|, k)
    ensures StoppedEffect(b, script, start, healthy, key, reqs, k).healthy ==
      if k == |reqs| then healthy else Without(healthy, KeyFor(key, healthy, k))
    ensures healthy != [] ==> KeyFor(key, healthy, k) in healthy
  {}

  /** Pool.Mark takes exactly one key out of what Pool.Healthy returns. */
  lemma {:induction false} MarkIsWithout(flags: seq<bool>, key: nat)
    ensures P.HealthyKeys(P.Marked(flags, key, false)) == Without(P.HealthyKeys(flags), key)
  {
    if flags == [] {
    } else {
      var n := |flags| - 1;
      var before := P.HealthyKeys(flags[..n]);
      MarkIsWithout(flags[..n], key);
      WithoutLast(before, n + 1, key);
      MarkedTail(flags, key);
      if key == n + 1 {
        P.KeysAre(flags[..n]);
        WithoutAbsent(before, key);
      }
    }
  }

  lemma MarkedTail(flags: seq<bool>, key: nat)
    requires flags != []
    ensures
      var n, marked := |flags| - 1, P.Marked(flags, key, false);
      && |marked| == |flags| && marked[..n] == P.Marked(flags[..n], key, false)
      && (marked[n] <==> flags[n] && key != n + 1)
  {}

  lemma WithoutLast(keys: seq<nat>, last: nat, key: nat)
    ensures Without(keys + [last], key) == if last == key then Without(keys, key) else Without(keys, key) + [last]
  {
    assert (keys + [last])[..|keys|] == keys;
  }

  lemma {:induction false} WithoutAbsent(keys: seq<nat>, key: nat)
    requires key !in keys
    ensures Without(keys, key) == keys
  {
    if keys == [] {
    } else {
      WithoutAbsent(keys[..|keys| - 1], key);
    }
  }
}
