/** Least-loaded routing over distributors: internal/batch/pool.go. */
module Pool {
  import opened Window

  datatype Routing = Routed(keyIndex: nat) | NoHealthyDistributor | AllFull

  /** What routing looks at: whether a distributor is healthy, and how deep its queue is. */
  datatype Load = Load(healthy: bool, depth: nat)

  // ---- the choice ----

  /** The first healthy distributor of least depth. */
  ghost predicate LeastLoaded(loads: seq<Load>, k: int) {
    && 0 <= k < |loads| && loads[k].healthy
    && (forall i :: 0 <= i < |loads| && loads[i].healthy ==> loads[k].depth <= loads[i].depth)
    && (forall i :: 0 <= i < k && loads[i].healthy ==> loads[k].depth < loads[i].depth)
  }

  ghost predicate NoneHealthy(loads: seq<Load>) { forall i :: 0 <= i < |loads| ==> !loads[i].healthy }

  ghost predicate HealthyFull(loads: seq<Load>, capacity: nat) {
    forall i :: 0 <= i < |loads| && loads[i].healthy ==> loads[i].depth >= capacity
  }

  /** The keys of the healthy distributors: they are numbered from 1. */
  function HealthyKeys(flags: seq<bool>): seq<nat> {
    if flags == [] then []
    else
      var n := |flags| - 1;
      if flags[n] then HealthyKeys(flags[..n]) + [n + 1] else HealthyKeys(flags[..n])
  }

  lemma {:induction false} KeysAre(flags: seq<bool>)
    ensures forall x :: x in HealthyKeys(flags) <==> 1 <= x <= |flags| && flags[x - 1]
  {
    if flags == [] {
    } else {
      KeysAre(flags[..|flags| - 1]);
    }
  }

  /** They come in order, each once. */
  lemma {:induction false} KeysAscend(flags: seq<bool>)
    ensures forall i, j :: 0 <= i < j < |HealthyKeys(flags)| ==> HealthyKeys(flags)[i] < HealthyKeys(flags)[j]
  {
    if flags == [] {
    } else {
      var init := HealthyKeys(flags[..|flags| - 1]);
      KeysAscend(flags[..|flags| - 1]);
      KeysAre(flags[..|flags| - 1]);
      forall i | 0 <= i < |init| ensures init[i] <= |flags| - 1 { assert init[i] in init; }
    }
  }

  function Marked(flags: seq<bool>, keyIndex: nat, healthy: bool): seq<bool> {
    if 1 <= keyIndex <= |flags| then flags[keyIndex - 1 := healthy] else flags
  }

  // ---- runs of routing ----

  /** One Route on the loads: the least loaded takes the request if it has room. */
  ghost predicate Routes(loads: seq<Load>, loads': seq<Load>, capacity: nat) {
    if NoneHealthy(loads) || HealthyFull(loads, capacity) then loads' == loads
    else exists k :: LeastLoaded(loads, k) && loads' == Deeper(loads, k)
  }

  function Deeper(loads: seq<Load>, k: nat): seq<Load>
    requires k < |loads|
  {
    loads[k := loads[k].(depth := loads[k].depth + 1)]
  }

  ghost predicate RoutesRun(trace: seq<seq<Load>>, capacity: nat) {
    && trace != []
    && (forall t :: 0 <= t < |trace| - 1 ==> Routes(trace[t], trace[t + 1], capacity))
  }

  /** No two healthy queues differ by more than `gap`. */
  ghost predicate Even(loads: seq<Load>, gap: nat) {
    forall i, j :: 0 <= i < |loads| && 0 <= j < |loads| && loads[i].healthy && loads[j].healthy ==>
      loads[i].depth <= loads[j].depth + gap
  }

  lemma RouteKeepsEven(loads: seq<Load>, loads': seq<Load>, capacity: nat, gap: nat)
    requires gap >= 1 && Even(loads, gap) && Routes(loads, loads', capacity)
    ensures Even(loads', gap) && |loads'| == |loads|
  {}

  /** A run of Routes never widens the gap between healthy queues beyond what it was, or one. */
  lemma {:induction false} RunKeepsEven(trace: seq<seq<Load>>, capacity: nat, gap: nat)
    requires RoutesRun(trace, capacity) && gap >= 1 && Even(trace[0], gap)
    ensures Even(trace[|trace| - 1], gap)
  {
    if |trace| > 1 {
      var n := |trace| - 1;
      assert RoutesRun(trace[..n], capacity) by {
        forall t | 0 <= t < n - 1 ensures Routes(trace[..n][t], trace[..n][t + 1], capacity) {
          assert Routes(trace[t], trace[t + 1], capacity);
        }
      }
      RunKeepsEven(trace[..n], capacity, gap);
      assert Routes(trace[n - 1], trace[n - 1 + 1], capacity);
      RouteKeepsEven(trace[n - 1], trace[n], capacity, gap);
    }
  }

  // ---- the objects ----

  class Distributor {
    const keyIndex: nat
    const window: Window
    var healthy: bool

    constructor (keyIndex: nat, window: Window)
      ensures this.keyIndex == keyIndex && this.window == window && healthy
    {
      this.keyIndex, this.window, healthy := keyIndex, window, true;
    }
  }

  class Pool {
    const distributors: seq<Distributor>
    const capacity: nat

    /** As NewPool builds it: windows of their own, one capacity, key indices 1 to N. */
    ghost predicate Valid()
      reads distributors
    {
      && (forall i, j :: 0 <= i < j < |distributors| ==> distributors[i] != distributors[j])
      && (forall i, j :: 0 <= i < j < |distributors| ==> distributors[i].window != distributors[j].window)
      && (forall i :: 0 <= i < |distributors| ==>
            distributors[i].keyIndex == i + 1 && distributors[i].window.capacity == capacity)
    }

    ghost function Windows(): set<Window> {
      set i | 0 <= i < |distributors| :: distributors[i].window
    }

    ghost function Flags(): (flags: seq<bool>)
      reads distributors
      ensures |flags| == |distributors|
    {
      seq(|distributors|, i requires 0 <= i < |distributors| reads distributors => distributors[i].healthy)
    }

    ghost function Loads(): (l: seq<Load>)
      reads distributors, Windows()
      ensures |l| == |distributors|
    {
      seq(|distributors|, i requires 0 <= i < |distributors| reads distributors, Windows() =>
        Load(distributors[i].healthy, |distributors[i].window.queue|))
    }

    /** NewPool. */
    constructor (n: nat, maxRecipients: nat, capacity: nat)
      ensures Valid() && |distributors| == n && this.capacity == capacity
      ensures forall i :: 0 <= i < n ==>
        distributors[i].healthy && distributors[i].window.Abs() == Fresh(maxRecipients, capacity)
      ensures fresh(Windows()) && forall i :: 0 <= i < n ==> fresh(distributors[i])
    {
      var ds: seq<Distributor> := [];
      for i := 0 to n
        invariant |ds| == i
        invariant forall j :: 0 <= j < i ==> fresh(ds[j]) && fresh(ds[j].window) && ds[j].healthy
        invariant forall j :: 0 <= j < i ==> ds[j].keyIndex == j + 1
        invariant forall j :: 0 <= j < i ==> ds[j].window.Abs() == Fresh(maxRecipients, capacity)
        invariant forall j, k :: 0 <= j < k < i ==> ds[j] != ds[k] && ds[j].window != ds[k].window
      {
        var w := new Window(maxRecipients, capacity);
        var d := new Distributor(i + 1, w);
        ds := ds + [d];
      }
      distributors, this.capacity := ds, capacity;
    }

    /** The scan of Route: the index of the distributor it picks, or -1. */
    method Scan() returns (best: int)
      ensures best == -1 ==> NoneHealthy(Loads())
      ensures best != -1 ==> LeastLoaded(Loads(), best)
    {
      best := -1;
      for i := 0 to |distributors|
        invariant best == -1 ==> NoneHealthy(Loads()[..i])
        invariant best != -1 ==> LeastLoaded(Loads()[..i], best)
      {
        assert Loads()[..i + 1] == Loads()[..i] + [Loads()[i]];
        if distributors[i].healthy {
          if best == -1 || |distributors[i].window.queue| < |distributors[best].window.queue| {
            best := i;
          }
        }
      }
      assert Loads()[..|distributors|] == Loads();
    }

    method EnqueueAt(k: nat, req: Request) returns (ok: bool)
      requires Valid() && k < |distributors|
      modifies distributors[k].window
      ensures Valid() && ok == (old(Loads())[k].depth < capacity)
      ensures Loads() == if ok then Deeper(old(Loads()), k) else old(Loads())
      ensures forall i :: 0 <= i < |distributors| ==>
        distributors[i].window.Abs() ==
          if ok && i == k then Enqueued(old(distributors[i].window.Abs()), req) else old(distributors[i].window.Abs())
    {
      ghost var before := Loads();
      var w := distributors[k].window;
      assert forall i :: 0 <= i < |distributors| && i != k ==> distributors[i].window != w;
      ok := w.Enqueue(req);
      assert Loads() == if ok then Deeper(before, k) else before;
    }

    method Route(req: Request) returns (r: Routing)
      requires Valid()
      modifies Windows()
      ensures Valid() && Routes(old(Loads()), Loads(), capacity)
      ensures r.NoHealthyDistributor? <==> NoneHealthy(old(Loads()))
      ensures r.AllFull? <==> !NoneHealthy(old(Loads())) && HealthyFull(old(Loads()), capacity)
      ensures r.Routed? ==> LeastLoaded(old(Loads()), r.keyIndex - 1)
      ensures forall i :: 0 <= i < |distributors| ==>
        distributors[i].window.Abs() ==
          if r == Routed(i + 1) then Enqueued(old(distributors[i].window.Abs()), req)
          else old(distributors[i].window.Abs())
    {
      var best := Scan();
      if best == -1 {
        return NoHealthyDistributor;
      }
      assert distributors[best].window in Windows();
      var ok := EnqueueAt(best, req);
      r := if ok then Routed(distributors[best].keyIndex) else AllFull;
    }

    /** Healthy: the key indices of the healthy distributors. */
    method Healthy() returns (keys: seq<nat>)
      requires Valid()
      ensures keys == HealthyKeys(Flags())
    {
      keys := [];
      for i := 0 to |distributors|
        invariant keys == HealthyKeys(Flags()[..i])
      {
        assert Flags()[..i + 1][..i] == Flags()[..i];
        if distributors[i].healthy {
          keys := keys + [distributors[i].keyIndex];
        }
      }
      assert Flags()[..|distributors|] == Flags();
    }

    /** MarkRecovering and MarkHealthy. */
    method Mark(keyIndex: nat, healthy: bool)
      requires Valid()
      modifies distributors
      ensures Valid() && Flags() == Marked(old(Flags()), keyIndex, healthy)
    {
      for i := 0 to |distributors|
        invariant Valid()
        invariant forall j :: 0 <= j < i ==> distributors[j].keyIndex != keyIndex
        invariant forall j :: 0 <= j < |distributors| ==> distributors[j].healthy == old(distributors[j].healthy)
      {
        if distributors[i].keyIndex == keyIndex {
          distributors[i].healthy := healthy;
          return;
        }
      }
    }
  }
}
