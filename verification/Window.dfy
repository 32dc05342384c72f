/** The batch window of internal/batch/window.go: a bounded queue drained in batches. */
module Window {

  datatype Coin = Coin(denom: string, amount: string)

  /** `id` names the channel on which the caller waits for the result. */
  datatype Request = Request(id: nat, toAddress: string, coins: seq<Coin>)

  // ---- the window as a state machine ----

  /**
   `accepted` and `batches` are the history: every request that was let in, and every batch
   handed to the flush callback.
   */
  datatype State = State(
    maxRecipients: nat, capacity: nat, queue: seq<Request>, flushNow: bool, running: bool,
    accepted: seq<Request>, batches: seq<seq<Request>>)

  function Fresh(maxRecipients: nat, capacity: nat): State {
    State(maxRecipients, capacity, [], false, true, [], [])
  }

  function Enqueued(w: State, req: Request): State {
    if |w.queue| >= w.capacity then w
    else
      var q := w.queue + [req];
      w.(queue := q, accepted := w.accepted + [req], flushNow := w.flushNow || |q| >= w.maxRecipients)
  }

  function Taken(w: State): nat { if |w.queue| < w.maxRecipients then |w.queue| else w.maxRecipients }

  function Flushed(w: State): State {
    var k := Taken(w);
    if k == 0 then w else w.(queue := w.queue[k..], batches := w.batches + [w.queue[..k]])
  }

  /** A caller enqueues; the goroutine sees a tick, the early-flush signal, or its cancellation. */
  datatype Event = Enqueue(req: Request) | Tick | Early | Cancel

  function Step(w: State, e: Event): State {
    match e
    case Enqueue(req) => Enqueued(w, req)
    case Tick => if w.running then Flushed(w) else w
    case Early => if w.running && w.flushNow then Flushed(w.(flushNow := false)) else w
    case Cancel => if w.running then Flushed(w).(running := false) else w
  }

  function Run(w: State, events: seq<Event>): State {
    if events == [] then w else Step(Run(w, events[..|events| - 1]), events[|events| - 1])
  }

  function Concat(batches: seq<seq<Request>>): seq<Request> {
    if batches == [] then [] else Concat(batches[..|batches| - 1]) + batches[|batches| - 1]
  }

  /** Nothing is lost, doubled or reordered; batches and queue keep to their sizes. */
  ghost predicate Conserved(w: State) {
    && w.accepted == Concat(w.batches) + w.queue
    && |w.queue| <= w.capacity
    && (forall i :: 0 <= i < |w.batches| ==> 0 < |w.batches[i]| <= w.maxRecipients)
  }

  lemma FlushConserves(w: State)
    requires Conserved(w)
    ensures Conserved(Flushed(w))
  {
    var k := Taken(w);
    if k > 0 {
      var b := w.batches + [w.queue[..k]];
      assert b[..|b| - 1] == w.batches;
      assert Concat(b) == Concat(w.batches) + w.queue[..k];
      CutBetween(Concat(w.batches), w.queue, k);
    }
  }

  lemma CutBetween(a: seq<Request>, q: seq<Request>, k: nat)
    requires k <= |q|
    ensures a + q == (a + q[..k]) + q[k..]
  {}

  lemma EnqueueConserves(w: State, req: Request)
    requires Conserved(w)
    ensures Conserved(Enqueued(w, req))
  {
    assert Concat(w.batches) + (w.queue + [req]) == (Concat(w.batches) + w.queue) + [req];
  }

  lemma StepConserves(w: State, e: Event)
    requires Conserved(w)
    ensures Conserved(Step(w, e))
    ensures Step(w, e).maxRecipients == w.maxRecipients && Step(w, e).capacity == w.capacity
  {
    match e
    case Enqueue(req) => EnqueueConserves(w, req);
    case Early => FlushConserves(w.(flushNow := false));
    case _ => FlushConserves(w);
  }

  /** Over every interleaving of callers, ticks, early flushes and cancellation. */
  lemma {:induction false} RunConserves(w: State, events: seq<Event>)
    requires Conserved(w)
    ensures Conserved(Run(w, events))
    ensures Run(w, events).maxRecipients == w.maxRecipients && Run(w, events).capacity == w.capacity
  {
    if events == [] {
    } else {
      var n := |events| - 1;
      var before := Run(w, events[..n]);
      RunConserves(w, events[..n]);
      assert Run(w, events) == Step(before, events[n]);
      StepConserves(before, events[n]);
    }
  }

  // ---- shutdown ----

  /** The flush at cancellation empties the queue exactly if one batch is enough. */
  lemma CancelDrainsIff(w: State)
    requires w.running
    ensures Step(w, Cancel).queue == [] <==> |w.queue| <= w.maxRecipients
    ensures Step(w, Cancel).queue == w.queue[Taken(w)..]
  {}

  /** What the last flush left behind is never handed out again, whatever comes after. */
  lemma {:induction false} LeftBehind(w: State, events: seq<Event>)
    requires w.running
    ensures
      var stopped := Step(w, Cancel);
      var later := Run(stopped, events);
      !later.running && later.batches == stopped.batches && stopped.queue <= later.queue
  {
    if events == [] {
    } else {
      LeftBehind(w, events[..|events| - 1]);
    }
  }

  /** A new window with batches of one: of two requests, the second is left behind by the cancellation. */
  lemma ShutdownLeaves(a: Request, b: Request)
    ensures
      var w := Run(Fresh(1, 2), [Enqueue(a), Enqueue(b), Cancel]);
      w.accepted == [a, b] && w.batches == [[a]] && w.queue == [b] && !w.running
  {
    var es := [Enqueue(a), Enqueue(b), Cancel];
    assert es[..2] == [es[0], es[1]] && es[..2][..1] == [es[0]] && es[..2][..1][..0] == [];
    assert Run(Fresh(1, 2), es[..2][..1]).queue == [a];
    assert Run(Fresh(1, 2), es[..2]).queue == [a, b];
    assert [a, b][..1] == [a] && [a, b][1..] == [b];
  }

  // ---- the early-flush signal ----

  /** An early flush leaves a full batch waiting with no signal exactly if two were queued. */
  lemma BacklogIff(w: State)
    requires w.running && w.flushNow && w.maxRecipients > 0
    ensures
      var w' := Step(w, Early);
      !w'.flushNow && (|w'.queue| >= w.maxRecipients <==> |w.queue| >= 2 * w.maxRecipients)
  {}

  /** An accepted request filled the queue to a batch, and no early flush has come since. */
  ghost predicate Signalled(w: State, events: seq<Event>, i: nat)
    requires i < |events|
  {
    && events[i].Enqueue?
    && |Run(w, events[..i]).queue| < w.capacity && |Run(w, events[..i]).queue| + 1 >= w.maxRecipients
    && Quiet(w, events, i + 1)
  }

  /** From the n-th event on, the running window sees no early flush. */
  ghost predicate Quiet(w: State, events: seq<Event>, n: nat) {
    forall j :: n <= j < |events| ==> events[j] != Early || !Run(w, events[..j]).running
  }

  /**
   Over every run, the early-flush signal is up exactly if it was raised by a request that filled
   a batch, or from the start, and the goroutine has not answered it since.
   */
  lemma {:induction false} SignalIff(w: State, events: seq<Event>)
    ensures Run(w, events).flushNow <==>
      (w.flushNow && Quiet(w, events, 0)) || exists i :: 0 <= i < |events| && Signalled(w, events, i)
  {
    if events == [] {
    } else {
      var n := |events| - 1;
      SignalIff(w, events[..n]);
      SignalStep(w, events, n);
    }
  }

  lemma SignalStep(w: State, events: seq<Event>, n: nat)
    requires |events| == n + 1
    requires Run(w, events[..n]).flushNow <==>
      (w.flushNow && Quiet(w, events[..n], 0)) || exists i :: 0 <= i < n && Signalled(w, events[..n], i)
    ensures Run(w, events).flushNow <==>
      (w.flushNow && Quiet(w, events, 0)) || exists i :: 0 <= i < |events| && Signalled(w, events, i)
  {
    var before, last := Run(w, events[..n]), events[n];
    SameLimits(w, events[..n]);
    QuietStep(w, events, n, 0);
    forall i | 0 <= i < n
      ensures Signalled(w, events, i) <==> Signalled(w, events[..n], i) && !(last == Early && before.running)
    {
      SignalledStep(w, events, n, i);
    }
    assert Signalled(w, events, n) <==>
      last.Enqueue? && |before.queue| < w.capacity && |before.queue| + 1 >= w.maxRecipients;
    match last
    case Enqueue(_) =>
    case Tick =>
    case Early =>
    case Cancel =>
  }

  lemma SignalledStep(w: State, events: seq<Event>, n: nat, i: nat)
    requires |events| == n + 1 && i < n
    ensures Signalled(w, events, i) <==>
      Signalled(w, events[..n], i) && !(events[n] == Early && Run(w, events[..n]).running)
  {
    QuietStep(w, events, n, i + 1);
    assert events[..n][..i] == events[..i];
  }

  lemma QuietStep(w: State, events: seq<Event>, n: nat, i: nat)
    requires |events| == n + 1 && i <= n
    ensures Quiet(w, events, i) <==> Quiet(w, events[..n], i) && !(events[n] == Early && Run(w, events[..n]).running)
  {
    forall j | 0 <= j <= n ensures events[..n][..j] == events[..j] {}
  }

  lemma {:induction false} SameLimits(w: State, events: seq<Event>)
    ensures Run(w, events).maxRecipients == w.maxRecipients && Run(w, events).capacity == w.capacity
  {
    if events == [] {
    } else {
      SameLimits(w, events[..|events| - 1]);
    }
  }

  // ---- the object ----

  lemma MoveOne(batch: seq<Request>, queue: seq<Request>)
    requires queue != []
    ensures batch + queue == (batch + [queue[0]]) + queue[1..]
  {}

  lemma CutAt(batch: seq<Request>, queue: seq<Request>)
    ensures (batch + queue)[..|batch|] == batch && (batch + queue)[|batch|..] == queue
  {}

  class Window {
    const maxRecipients: nat
    const capacity: nat
    var queue: seq<Request>
    var flushNow: bool
    var running: bool
    ghost var accepted: seq<Request>
    ghost var batches: seq<seq<Request>>

    ghost function Abs(): State
      reads this
    {
      State(maxRecipients, capacity, queue, flushNow, running, accepted, batches)
    }

    constructor (maxRecipients: nat, capacity: nat)
      ensures Abs() == Fresh(maxRecipients, capacity)
    {
      this.maxRecipients, this.capacity := maxRecipients, capacity;
      queue, flushNow, running, accepted, batches := [], false, true, [], [];
    }

    /** Window.Enqueue; false stands for ErrQueueFull. */
    method Enqueue(req: Request) returns (ok: bool)
      modifies this
      ensures Abs() == Step(old(Abs()), Event.Enqueue(req))
      ensures ok <==> old(|queue|) < capacity
    {
      if |queue| >= capacity {
        return false;
      }
      queue := queue + [req];
      accepted := accepted + [req];
      if |queue| >= maxRecipients {
        flushNow := true;
      }
      return true;
    }

    /** doFlush; the batch is what the flush callback receives, or empty if it is not called. */
    method DoFlush() returns (batch: seq<Request>)
      modifies this
      ensures Abs() == Flushed(old(Abs()))
      ensures batch == old(queue)[..Taken(old(Abs()))]
    {
      batch := [];
      while |batch| < maxRecipients && queue != []
        invariant |batch| <= maxRecipients && batch + queue == old(queue)
        invariant flushNow == old(flushNow) && running == old(running)
        invariant accepted == old(accepted) && batches == old(batches)
        decreases |queue|
      {
        MoveOne(batch, queue);
        batch := batch + [queue[0]];
        queue := queue[1..];
      }
      CutAt(batch, queue);
      if batch != [] {
        batches := batches + [batch];
      }
    }

    /** One round of the goroutine's select; `stop` says that it returns. */
    method Round(e: Event) returns (batch: seq<Request>, stop: bool)
      requires running && !e.Enqueue? && (e.Early? ==> flushNow)
      modifies this
      ensures Abs() == Step(old(Abs()), e)
      ensures batch == old(queue)[..Taken(old(Abs()))] && stop == e.Cancel?
    {
      stop := false;
      if e.Early? {
        flushNow := false;
      }
      batch := DoFlush();
      if e.Cancel? {
        running := false;
        stop := true;
      }
    }
  }
}
