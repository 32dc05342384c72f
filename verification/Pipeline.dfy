/**
 A chain's whole pipeline over every run: routing into the windows of a pool
 (internal/batch/pool.go), the rounds of each window (internal/batch/window.go) and the
 flushes that they cause (internal/chain/chain.go).
 */
module Pipeline {
  import opened Window
  import opened Flush
  import opened Options
  import P = Pool

  /**
   Window k belongs to the distributor with key k + 1, which is healthy if its key is
   listed. `answered` and `ledger` are the history: every result sent to a caller, and
   every payment made.
   */
  datatype Faucet = Faucet(
    windows: seq<State>, healthy: seq<nat>, breaker: Breaker, calls: nat, answered: seq<Delivery>, ledger: seq<Payment>)

  /** A caller submits; window k sees an event; the operator resumes the chain. */
  datatype Act = Submit(req: Request) | Turn(k: nat, event: Event) | Resumption

  function Loads(f: Faucet): (loads: seq<P.Load>)
    ensures |loads| == |f.windows|
  {
    seq(|f.windows|, k requires 0 <= k < |f.windows| => P.Load(k + 1 in f.healthy, |f.windows[k].queue|))
  }

  /** What window k hands out at the event. */
  function Batch(w: State, e: Event): seq<Request> {
    if w.running && (e.Tick? || e.Cancel? || (e.Early? && w.flushNow)) then w.queue[..Taken(w)] else []
  }

  /** The flush of a batch by the distributor of window k; an empty batch is not flushed. */
  function Flushes(f: Faucet, script: Script, k: nat, batch: seq<Request>): Faucet {
    if batch == [] then f
    else
      var e := FlushEffect(f.breaker, script, f.calls, f.healthy, k + 1, batch);
      f.(breaker := e.breaker, calls := e.calls, healthy := e.healthy,
         answered := f.answered + e.deliveries, ledger := f.ledger + e.payments)
  }

  function Turned(f: Faucet, script: Script, k: nat, e: Event): Faucet
    requires k < |f.windows|
  {
    Flushes(f, script, k, Batch(f.windows[k], e)).(windows := f.windows[k := Step(f.windows[k], e)])
  }

  ghost predicate Acts(f: Faucet, script: Script, capacity: nat, act: Act, f': Faucet) {
    match act
    case Submit(req) =>
      if f.breaker.suspended || P.NoneHealthy(Loads(f)) || P.HealthyFull(Loads(f), capacity) then f' == f
      else exists k :: P.LeastLoaded(Loads(f), k) && f' == f.(windows := f.windows[k := Enqueued(f.windows[k], req)])
    case Turn(k, e) => k < |f.windows| && !e.Enqueue? && f' == Turned(f, script, k, e)
    case Resumption => f' == f.(breaker := Resumed(f.breaker))
  }

  function New(n: nat, maxRecipients: nat, capacity: nat, healthy: seq<nat>): Faucet {
    Faucet(seq(n, _ => Fresh(maxRecipients, capacity)), healthy, Breaker(false, false, 0, 0), 0, [], [])
  }

  // ---- counting over all windows ----

  function Total(ws: seq<State>, of: State -> multiset<Request>): multiset<Request> {
    if ws == [] then multiset{} else Total(ws[..|ws| - 1], of) + of(ws[|ws| - 1])
  }

  lemma {:induction false} TotalUpdate(ws: seq<State>, k: nat, w: State, of: State -> multiset<Request>)
    requires k < |ws|
    ensures Total(ws[k := w], of) + of(ws[k]) == Total(ws, of) + of(w)
  {
    var n := |ws| - 1;
    if k == n {
      assert ws[k := w][..n] == ws[..n];
    } else {
      assert ws[k := w][..n] == ws[..n][k := w];
      TotalUpdate(ws[..n], k, w, of);
      AddBoth(Total(ws[..n][k := w], of), of(ws[k]), Total(ws[..n], of), of(w), of(ws[n]));
      assert ws[k := w][n] == ws[n];
    }
  }

  lemma AddBoth(a: multiset<Request>, b: multiset<Request>, c: multiset<Request>, d: multiset<Request>,
                z: multiset<Request>)
    requires a + b == c + d
    ensures a + z + b == c + z + d
  {
    assert a + z + b == a + b + z && c + z + d == c + d + z;
  }

  lemma CancelBoth(a: multiset<Request>, b: multiset<Request>, x: multiset<Request>, d: multiset<Request>)
    requires a + x == b + (x + d)
    ensures a == b + d
  {
    forall e ensures a[e] == (b + d)[e] {
      assert (a + x)[e] == (b + (x + d))[e];
    }
  }

  lemma {:induction false} TotalSum(ws: seq<State>)
    requires forall i :: 0 <= i < |ws| ==> Conserved(ws[i])
    ensures Total(ws, Accepted) == Total(ws, HandedOut) + Total(ws, Queued)
  {
    if ws == [] {
    } else {
      TotalSum(ws[..|ws| - 1]);
    }
  }

  function Accepted(w: State): multiset<Request> { multiset(w.accepted) }

  function HandedOut(w: State): multiset<Request> { multiset(Concat(w.batches)) }

  function Queued(w: State): multiset<Request> { multiset(w.queue) }

  /** The requests that were answered. */
  function Asked(ds: seq<Delivery>): (reqs: seq<Request>)
    ensures |reqs| == |ds|
  {
    seq(|ds|, i requires 0 <= i < |ds| => ds[i].request)
  }

  // ---- what every run keeps ----

  /** Every request handed out is answered, once, and the ledger is what the answers promise. */
  ghost predicate Settled(f: Faucet) {
    && (forall i :: 0 <= i < |f.windows| ==> Conserved(f.windows[i]))
    && multiset(Asked(f.answered)) == Total(f.windows, HandedOut)
    && Made(f.ledger) == Promised(f.answered)
  }

  lemma AnsweredBatch(f: Faucet, script: Script, k: nat, batch: seq<Request>)
    requires Made(f.ledger) == Promised(f.answered)
    ensures
      var f' := Flushes(f, script, k, batch);
      Asked(f'.answered) == Asked(f.answered) + batch && Made(f'.ledger) == Promised(f'.answered)
  {
    if batch != [] {
      var e := FlushEffect(f.breaker, script, f.calls, f.healthy, k + 1, batch);
      FlushSettles(f.breaker, script, f.calls, f.healthy, k + 1, batch);
      AnswersAppend(f.answered, f.ledger, e.deliveries, e.payments, batch);
    }
  }

  lemma AnswersAppend(answered: seq<Delivery>, ledger: seq<Payment>, ds: seq<Delivery>, ps: seq<Payment>,
                      batch: seq<Request>)
    requires Made(ledger) == Promised(answered) && Answers(ds, batch) && Made(ps) == Promised(ds)
    ensures Asked(answered + ds) == Asked(answered) + batch && Made(ledger + ps) == Promised(answered + ds)
  {
    SettledOn(answered, ledger, ds, ps);
  }

  lemma BatchHandedOut(w: State, e: Event)
    requires !e.Enqueue?
    ensures HandedOut(Step(w, e)) == HandedOut(w) + multiset(Batch(w, e))
  {
    var b := Batch(w, e);
    if b != [] {
      var bs := w.batches + [b];
      assert bs[..|bs| - 1] == w.batches;
      assert Step(w, e).batches == bs;
    } else {
      assert Step(w, e).batches == w.batches;
    }
  }

  lemma TurnSettles(f: Faucet, script: Script, k: nat, e: Event)
    requires Settled(f) && k < |f.windows| && !e.Enqueue?
    ensures Settled(Turned(f, script, k, e))
  {
    var w, batch := f.windows[k], Batch(f.windows[k], e);
    StepConserves(w, e);
    BatchHandedOut(w, e);
    HandedOutGrows(f.windows, k, Step(w, e), multiset(batch));
    AnsweredBatch(f, script, k, batch);
    assert multiset(Asked(f.answered) + batch) == multiset(Asked(f.answered)) + multiset(batch);
  }

  lemma HandedOutGrows(ws: seq<State>, k: nat, w: State, more: multiset<Request>)
    requires k < |ws| && HandedOut(w) == HandedOut(ws[k]) + more
    ensures Total(ws[k := w], HandedOut) == Total(ws, HandedOut) + more
  {
    TotalUpdate(ws, k, w, HandedOut);
    CancelBoth(Total(ws[k := w], HandedOut), Total(ws, HandedOut), HandedOut(ws[k]), more);
  }

  lemma SubmitSettles(f: Faucet, k: nat, req: Request)
    requires Settled(f) && k < |f.windows|
    ensures Settled(f.(windows := f.windows[k := Enqueued(f.windows[k], req)]))
  {
    EnqueueConserves(f.windows[k], req);
    HandedOutGrows(f.windows, k, Enqueued(f.windows[k], req), multiset{});
  }

  lemma ActSettles(f: Faucet, script: Script, capacity: nat, act: Act, f': Faucet)
    requires Settled(f) && Acts(f, script, capacity, act, f')
    ensures Settled(f')
  {
    match act
    case Submit(req) =>
      if f' != f {
        var k :| P.LeastLoaded(Loads(f), k) && f' == f.(windows := f.windows[k := Enqueued(f.windows[k], req)]);
        SubmitSettles(f, k, req);
      }
    case Turn(k, e) => TurnSettles(f, script, k, e);
    case Resumption =>
  }

  lemma {:induction false} NewSettled(n: nat, maxRecipients: nat, capacity: nat)
    ensures Total(seq(n, _ => Fresh(maxRecipients, capacity)), HandedOut) == multiset{}
  {
    if n == 0 {
    } else {
      assert seq(n, _ => Fresh(maxRecipients, capacity))[..n - 1] == seq(n - 1, _ => Fresh(maxRecipients, capacity));
      NewSettled(n - 1, maxRecipients, capacity);
    }
  }

  /** The states of a run, one more than its acts. */
  ghost predicate Follows<S, A>(trace: seq<S>, acts: seq<A>, step: (S, A, S) -> bool) {
    |trace| == |acts| + 1 && forall i :: 0 <= i < |acts| ==> step(trace[i], acts[i], trace[i + 1])
  }

  lemma FollowsOn<S, A>(trace: seq<S>, acts: seq<A>, step: (S, A, S) -> bool, act: A, next: S)
    requires Follows(trace, acts, step) && step(trace[|acts|], act, next)
    ensures Follows(trace + [next], acts + [act], step)
  {}

  /** What every step keeps holds at the end. */
  lemma {:induction false} FollowsKeeps<S(!new), A(!new)>(trace: seq<S>, acts: seq<A>, step: (S, A, S) -> bool,
                                                          inv: S -> bool)
    requires Follows(trace, acts, step) && inv(trace[0])
    requires forall s, act, s' :: inv(s) && step(s, act, s') ==> inv(s')
    ensures inv(trace[|acts|])
  {
    if acts == [] {
    } else {
      var n := |acts| - 1;
      FollowsKeeps(trace[..n + 1], acts[..n], step, inv);
      assert step(trace[n], acts[n], trace[n + 1]);
    }
  }

  ghost predicate Runs(trace: seq<Faucet>, acts: seq<Act>, script: Script, capacity: nat) {
    Follows(trace, acts, (f, act, f') => Acts(f, script, capacity, act, f'))
  }

  lemma RunsOn(trace: seq<Faucet>, acts: seq<Act>, script: Script, capacity: nat, act: Act, next: Faucet)
    requires Runs(trace, acts, script, capacity) && Acts(trace[|acts|], script, capacity, act, next)
    ensures Runs(trace + [next], acts + [act], script, capacity)
  {
    FollowsOn(trace, acts, (f, act, f') => Acts(f, script, capacity, act, f'), act, next);
  }

  lemma RunStarts(f: Faucet, script: Script, capacity: nat)
    ensures Runs([f], [], script, capacity)
  {}

  lemma Routed(f: Faucet, script: Script, capacity: nat, req: Request, k: nat)
    requires !f.breaker.suspended
    requires P.LeastLoaded(Loads(f), k) && !P.NoneHealthy(Loads(f)) && !P.HealthyFull(Loads(f), capacity)
    ensures Acts(f, script, capacity, Submit(req), f.(windows := f.windows[k := Enqueued(f.windows[k], req)]))
  {}

  lemma RunSettles(trace: seq<Faucet>, acts: seq<Act>, script: Script, capacity: nat)
    requires Runs(trace, acts, script, capacity) && Settled(trace[0])
    ensures Settled(trace[|acts|])
  {
    forall f, act, f' | Settled(f) && Acts(f, script, capacity, act, f') ensures Settled(f') {
      ActSettles(f, script, capacity, act, f');
    }
    FollowsKeeps(trace, acts, (f, act, f') => Acts(f, script, capacity, act, f'), f => Settled(f));
  }

  /**
   Each request that was let in is still queued or was answered exactly once, counted as
   often as it was let in; and the ledger holds exactly one payment for each answer that
   told a transaction hash, in the order of the answers.
   */
  ghost predicate Accounted(f: Faucet) {
    && Total(f.windows, Accepted) == multiset(Asked(f.answered)) + Total(f.windows, Queued)
    && Made(f.ledger) == Promised(f.answered)
  }

  /** Over every run of submissions, ticks, early flushes, cancellations and resumptions of a new pool. */
  lemma EveryRequestOnce(trace: seq<Faucet>, acts: seq<Act>, script: Script, n: nat, maxRecipients: nat, capacity: nat,
                         healthy: seq<nat>)
    requires Runs(trace, acts, script, capacity) && trace[0] == New(n, maxRecipients, capacity, healthy)
    ensures Accounted(trace[|acts|])
  {
    NewSettled(n, maxRecipients, capacity);
    RunSettles(trace, acts, script, capacity);
    TotalSum(trace[|acts|].windows);
  }

  // ---- the objects ----

  lemma OneLonger(before: seq<State>, after: seq<State>, req: Request, k: nat)
    requires k < |before| == |after| && after[k] == Enqueued(before[k], req)
    requires forall i :: 0 <= i < |before| && i != k ==> after[i] == before[i]
    ensures after == before[k := Enqueued(before[k], req)]
  {}

  ghost predicate AllNew(pool: P.Pool, maxRecipients: nat)
    reads pool.Windows()
  {
    forall i :: 0 <= i < |pool.distributors| ==>
      pool.distributors[i].window.Abs() == Fresh(maxRecipients, pool.capacity)
  }

  /** What newChain builds: the pool, the client and the chain around them. */
  method NewLine(n: nat, maxRecipients: nat, capacity: nat, script: Script) returns (line: Line)
    ensures line.Valid() && line.acts == [] && |line.pool.distributors| == n
  {
    var pool := new P.Pool(n, maxRecipients, capacity);
    var client := new Broadcaster(script);
    var chain := new Chain(client, pool);
    line := new Line(pool, chain, maxRecipients);
  }

  /** A pool with its windows, and the chain whose callback flushes them. */
  class Line {
    const pool: P.Pool
    const chain: Chain
    ghost const maxRecipients: nat

    // The history: what happened, and the states that it led through.
    ghost var acts: seq<Act>
    ghost var trace: seq<Faucet>

    ghost function States(): (ws: seq<State>)
      reads pool.Windows()
      ensures |ws| == |pool.distributors|
    {
      seq(|pool.distributors|, i requires 0 <= i < |pool.distributors| reads pool.Windows() =>
        pool.distributors[i].window.Abs())
    }

    ghost function Abs(): Faucet
      reads chain, chain.client, pool.Windows()
    {
      Faucet(States(), chain.healthy, chain.Abs(), chain.client.calls, chain.answered, chain.client.ledger)
    }

    /** The objects are where a run of a new pool led. */
    ghost predicate Valid()
      reads this, chain, chain.client, chain.Marks(), pool.Windows()
    {
      && chain.pool == pool && chain.Valid()
      && Runs(trace, acts, chain.client.script, pool.capacity) && trace[|acts|] == Abs()
      && trace[0] == New(|pool.distributors|, maxRecipients, pool.capacity, chain.start)
    }

    constructor (pool: P.Pool, chain: Chain, ghost maxRecipients: nat)
      requires chain.pool == pool && chain.Valid() && AllNew(pool, maxRecipients)
      requires chain.healthy == chain.start && chain.Abs() == Breaker(false, false, 0, 0)
      requires chain.client.calls == 0 && chain.answered == [] && chain.client.ledger == []
      ensures Valid() && acts == [] && this.pool == pool && this.chain == chain
    {
      this.pool, this.chain, this.maxRecipients, acts := pool, chain, maxRecipients, [];
      new;
      Begin();
    }

    /** Starts the history. */
    ghost method Begin()
      requires chain.pool == pool && chain.Valid() && AllNew(pool, maxRecipients) && acts == []
      requires chain.healthy == chain.start && chain.Abs() == Breaker(false, false, 0, 0)
      requires chain.client.calls == 0 && chain.answered == [] && chain.client.ledger == []
      modifies this`trace
      ensures Valid()
    {
      NewStates();
      RunStarts(Abs(), chain.client.script, pool.capacity);
      trace := [Abs()];
    }

    lemma NewStates()
      requires AllNew(pool, maxRecipients)
      ensures States() == seq(|pool.distributors|, _ => Fresh(maxRecipients, pool.capacity))
    {}

    /** So what holds of every run holds of the objects. */
    lemma AlwaysAccounted()
      requires Valid()
      ensures Accounted(Abs())
    {
      EveryRequestOnce(trace, acts, chain.client.script, |pool.distributors|, maxRecipients, pool.capacity,
                       chain.start);
    }

    lemma LoadsAgree()
      requires chain.pool == pool && chain.Linked()
      ensures Loads(Abs()) == pool.Loads()
    {
      P.KeysAre(pool.Flags());
    }

    /** Enters one act in the history. */
    ghost method Enter(act: Act)
      requires chain.pool == pool && chain.Valid() && Runs(trace, acts, chain.client.script, pool.capacity)
      requires Acts(trace[|acts|], chain.client.script, pool.capacity, act, Abs())
      requires trace[0] == New(|pool.distributors|, maxRecipients, pool.capacity, chain.start)
      modifies this
      ensures Valid() && acts == old(acts) + [act]
    {
      RunsOn(trace, acts, chain.client.script, pool.capacity, act, Abs());
      trace, acts := trace + [Abs()], acts + [act];
    }

    /** Chain.Pour; None stands for ErrChainSuspended. */
    method Pour(req: Request) returns (r: Option<P.Routing>)
      requires Valid()
      modifies this, pool.Windows()
      ensures Valid() && acts == old(acts) + [Submit(req)]
      ensures r.None? <==> chain.suspended
    {
      ghost var f := Abs();
      LoadsAgree();
      if chain.suspended {
        r := None;
      } else {
        var routing := RouteOf(req, f);
        r := Some(routing);
      }
      Enter(Submit(req));
    }

    method RouteOf(req: Request, ghost f: Faucet) returns (r: P.Routing)
      requires pool.Valid() && f.windows == States() && Loads(f) == pool.Loads() && !f.breaker.suspended
      modifies pool.Windows()
      ensures Acts(f, chain.client.script, pool.capacity, Submit(req), f.(windows := States()))
    {
      r := pool.Route(req);
      if r.Routed? {
        ghost var k := r.keyIndex - 1;
        OneLonger(f.windows, States(), req, k);
        Routed(f, chain.client.script, pool.capacity, req, k);
      } else {
        assert States() == f.windows;
      }
    }

    /** One round of the goroutine of window k, with the flush that it causes. */
    method Turn(k: nat, e: Event)
      requires Valid() && k < |pool.distributors| && !e.Enqueue?
      modifies this, chain, chain.client, chain.Marks(), pool.Windows()
      ensures Valid() && acts == old(acts) + [Act.Turn(k, e)]
    {
      ghost var f := Abs();
      var batch := RunRound(k, e);
      FlushOf(k, batch, f);
      Enter(Act.Turn(k, e));
    }

    method RunRound(k: nat, e: Event) returns (batch: seq<Request>)
      requires pool.Valid() && k < |pool.distributors| && !e.Enqueue?
      modifies pool.Windows()
      ensures batch == Batch(old(States())[k], e) && States() == old(States())[k := Step(old(States())[k], e)]
    {
      ghost var before := States();
      var w := pool.distributors[k].window;
      assert w in pool.Windows();
      batch := [];
      if w.running && (!e.Early? || w.flushNow) {
        var stop;
        batch, stop := w.Round(e);
      }
      assert States() == before[k := Step(before[k], e)];
    }

    /** The flush callback, if there is anything to flush. */
    method FlushOf(k: nat, batch: seq<Request>, ghost f: Faucet)
      requires chain.Valid() && f == Abs().(windows := f.windows)
      modifies chain, chain.client, chain.Marks()
      ensures chain.Valid() && States() == old(States())
      ensures Abs() == Flushes(f, chain.client.script, k, batch).(windows := States())
    {
      if batch != [] {
        var _ := chain.Flush(k + 1, batch);
      }
    }

    method Resume()
      requires Valid()
      modifies this, chain
      ensures Valid() && acts == old(acts) + [Act.Resumption]
    {
      chain.Resume();
      Enter(Act.Resumption);
    }
  }
}
