/** The pool's round robin over its loops. */
module RoundRobin {

  /** The index after one call, with n loops. */
  function Next(n: nat, p: nat): nat {
    if p + 1 >= n then 0 else p + 1
  }

  /** The index after k calls. */
  function After(n: nat, p: nat, k: nat): (q: nat)
    ensures p < n ==> q < n
    decreases k
  {
    if k == 0 then p else After(n, Next(n, p), k - 1)
  }

  /** How many of the next k calls choose loop j. */
  function Count(n: nat, j: nat, p: nat, k: nat): nat
    decreases k
  {
    if k == 0 then 0 else (if p == j then 1 else 0) + Count(n, j, Next(n, p), k - 1)
  }

  lemma {:induction false} AfterSum(n: nat, p: nat, a: nat, b: nat)
    ensures After(n, p, a + b) == After(n, After(n, p, a), b)
    decreases a
  {
    if a > 0 {
      AfterSum(n, Next(n, p), a - 1, b);
    }
  }

  lemma {:induction false} CountSum(n: nat, j: nat, p: nat, a: nat, b: nat)
    ensures Count(n, j, p, a + b) == Count(n, j, p, a) + Count(n, j, After(n, p, a), b)
    decreases a
  {
    if a > 0 {
      CountSum(n, j, Next(n, p), a - 1, b);
    }
  }

  /** Up to the end of the list the calls go straight through it. */
  lemma {:induction false} Straight(n: nat, j: nat, p: nat, k: nat)
    requires p < n && j < n && p + k <= n
    ensures After(n, p, k) == (if p + k < n || k == 0 then p + k else 0)
    ensures Count(n, j, p, k) == if p <= j < p + k then 1 else 0
    decreases k
  {
    if k > 0 && p + 1 < n {
      Straight(n, j, p + 1, k - 1);
    }
  }

  /** n calls in a row choose every loop once and end where they began. */
  lemma Period(n: nat, j: nat, p: nat)
    requires p < n && j < n
    ensures After(n, p, n) == p && Count(n, j, p, n) == 1
  {
    Straight(n, j, p, n - p);
    Straight(n, j, 0, p);
    AfterSum(n, p, n - p, p);
    CountSum(n, j, p, n - p, p);
  }

  /** How many calls come before loop j's next turn. */
  function Turn(n: nat, j: nat, p: nat): (k: nat)
    requires p < n && j < n
    ensures k < n && After(n, p, k) == j
  {
    if p <= j then
      Straight(n, j, p, j - p);
      j - p
    else
      Straight(n, j, p, n - p);
      Straight(n, j, 0, j);
      AfterSum(n, p, n - p, j);
      n - p + j
  }

  /** Starting from the first loop, the call after k others chooses loop k mod n. */
  lemma {:induction false} KthChoice(n: nat, k: nat)
    requires n > 0
    ensures After(n, 0, k) == k % n
    decreases k
  {
    if k < n {
      Straight(n, 0, 0, k);
    } else {
      Period(n, 0, 0);
      AfterSum(n, 0, n, k - n);
      KthChoice(n, k - n);
      ModShift(k - n, n);
    }
  }

  lemma Quotient(n: nat, q: nat, r: nat)
    requires r < n
    ensures (q * n + r) / n == q && (q * n + r) % n == r
  {
    var x := q * n + r;
    var d := x / n - q;
    assert x == x / n * n + x % n;
    assert d * n == x / n * n - q * n;
    assert d >= 1 ==> d * n >= n;
    assert d <= -1 ==> d * n <= -1 * n;
  }

  lemma ModShift(k: nat, n: nat)
    requires n > 0
    ensures (k + n) % n == k % n && (k + n) / n == k / n + 1
  {
    var q, r := k / n, k % n;
    assert k + n == (q + 1) * n + r;
    Quotient(n, q + 1, r);
  }

  lemma CountPeriod(n: nat, j: nat, p: nat, k: nat)
    requires p < n && j < n && n <= k
    ensures Count(n, j, p, k) == 1 + Count(n, j, p, k - n)
  {
    Period(n, j, p);
    CountSum(n, j, p, n, k - n);
  }

  /** The number of whole rounds in k calls, and whether a part of one is left over. */
  function Rounds(n: nat, k: nat): (nat, nat)
    requires n > 0
  {
    (k / n, if k % n == 0 then 0 else 1)
  }

  lemma RoundsStep(n: nat, k: nat)
    requires n > 0
    ensures k < n ==> Rounds(n, k) == (0, if k == 0 then 0 else 1)
    ensures k >= n ==> Rounds(n, k) == (Rounds(n, k - n).0 + 1, Rounds(n, k - n).1)
  {
    if k < n {
      Quotient(n, 0, k);
    } else {
      ModShift(k - n, n);
    }
  }

  /** In every window of k calls, wherever it begins, each loop is chosen k / n times, rounded down or up. */
  lemma {:induction false} FairWindow(n: nat, j: nat, p: nat, k: nat)
    requires p < n && j < n
    ensures Rounds(n, k).0 <= Count(n, j, p, k) <= Rounds(n, k).0 + Rounds(n, k).1
    decreases k
  {
    RoundsStep(n, k);
    if k < n {
      AtMostOnce(n, j, p, k);
    } else {
      CountPeriod(n, j, p, k);
      FairWindow(n, j, p, k - n);
    }
  }

  lemma AtMostOnce(n: nat, j: nat, p: nat, k: nat)
    requires p < n && j < n && k < n
    ensures Count(n, j, p, k) <= 1 && (k == 0 ==> Count(n, j, p, k) == 0)
  {
    Period(n, j, p);
    CountSum(n, j, p, k, n - k);
  }
}

module LoopPool {
  import RoundRobin

  /** A loop, known only by its identity and by whether the init callback has run on it. */
  class EventLoop {
    var initialised: bool

    constructor ()
      ensures !initialised
    {
      initialised := false;
    }

    /** The init callback's run on this loop. */
    method Initialise()
      modifies this
      ensures initialised
    {
      initialised := true;
    }
  }

  /** One loop thread. Its two halves stand in the order that startLoop waits for; Startup.dfy has their
      interleavings, in all of which startLoop returns the loop that the other half has made and initialised. */
  class EventLoopThread {
    const callback: bool
    var loop: EventLoop?

    constructor (callback: bool)
      ensures this.callback == callback && loop == null
    {
      this.callback, loop := callback, null;
    }

    /** The new thread, up to the point where it has published its loop. */
    method ThreadFunc()
      modifies this`loop
      ensures loop != null && fresh(loop) && loop.initialised == callback
    {
      var made := new EventLoop();
      if callback {
        made.Initialise();
      }
      loop := made;
    }

    /** Starts the thread and waits for its loop. */
    method StartLoop() returns (started: EventLoop)
      modifies this`loop
      ensures fresh(started) && started.initialised == callback && loop == started
    {
      ThreadFunc();
      started := loop;
    }
  }

  class EventLoopThreadPool {
    const baseLoop: EventLoop
    var started: bool
    var numThreads: int
    var next: nat
    var threads: seq<EventLoopThread>
    var loops: seq<EventLoop>

    ghost predicate Valid()
      reads this
    {
      |threads| == |loops| && (next < |loops| || (next == 0 && loops == []))
    }

    /** The loop that the k-th call of getNextLoop from now on returns, counting from zero. */
    ghost function Choice(k: nat): EventLoop
      reads this
      requires Valid()
    {
      if loops == [] then baseLoop else loops[RoundRobin.After(|loops|, next, k)]
    }

    constructor (baseLoop: EventLoop)
      ensures Valid() && this.baseLoop == baseLoop && !started && numThreads == 0 && next == 0
      ensures threads == [] && loops == []
    {
      this.baseLoop := baseLoop;
      started, numThreads, next, threads, loops := false, 0, 0, [], [];
    }

    method SetThreadNum(n: int)
      modifies this`numThreads
      ensures numThreads == n
    {
      numThreads := n;
    }

    /** Starts one loop for each thread, in order; with no threads at all, the init callback runs on the base loop. */
    method Start(callback: bool)
      requires Valid()
      modifies this`started, this`threads, this`loops, baseLoop
      ensures Valid() && started
      ensures |loops| == old(|loops|) + (if numThreads > 0 then numThreads else 0)
      ensures old(loops) <= loops && old(threads) <= threads
      ensures forall i | old(|loops|) <= i < |loops| :: fresh(loops[i]) && loops[i].initialised == callback
      ensures forall i | old(|loops|) <= i < |loops| :: fresh(threads[i]) && threads[i].loop == loops[i]
      ensures forall i, j | old(|loops|) <= i < j < |loops| :: loops[i] != loops[j]
      ensures baseLoop.initialised == (old(baseLoop.initialised) || (numThreads == 0 && callback))
    {
      started := true;
      var i := 0;
      while i < numThreads
        invariant 0 <= i && (numThreads >= 0 ==> i <= numThreads) && (numThreads < 0 ==> i == 0)
        invariant started && Valid() && baseLoop.initialised == old(baseLoop.initialised)
        invariant |loops| == old(|loops|) + i && old(loops) <= loops && old(threads) <= threads
        invariant forall k | old(|loops|) <= k < |loops| :: fresh(loops[k]) && loops[k].initialised == callback
        invariant forall k | old(|loops|) <= k < |loops| :: fresh(threads[k]) && threads[k].loop == loops[k]
        invariant forall k, l | old(|loops|) <= k < l < |loops| :: loops[k] != loops[l]
      {
        var thread := new EventLoopThread(callback);
        threads := threads + [thread];
        var loop := thread.StartLoop();
        loops := loops + [loop];
        i := i + 1;
      }
      if numThreads == 0 && callback {
        baseLoop.Initialise();
      }
    }

    /** The loop at the current index, which then moves on; the base loop while there is no other. */
    method GetNextLoop() returns (loop: EventLoop)
      requires Valid()
      modifies this`next
      ensures Valid()
      ensures loops == [] ==> loop == baseLoop && next == old(next)
      ensures loops != [] ==> loop == loops[old(next)] && next == RoundRobin.Next(|loops|, old(next))
      ensures loop == old(Choice(0)) && forall k: nat :: Choice(k) == old(Choice(k + 1))
    {
      loop := baseLoop;
      if loops != [] {
        loop := loops[next];
        next := next + 1;
        if next >= |loops| {
          next := 0;
        }
      }
    }

    /** Exactly the loops that the calls of getNextLoop go through, each in the place of its turn. */
    method GetAllLoops() returns (all: seq<EventLoop>)
      requires Valid()
      ensures next < |all| && (loops != [] ==> |all| == |loops|)
      ensures forall k: nat :: Choice(k) in all
      ensures forall j | 0 <= j < |all| :: all[j] == Choice(RoundRobin.Turn(|all|, j, next))
    {
      if loops == [] {
        all := [baseLoop];
      } else {
        all := loops;
      }
      forall k: nat ensures Choice(k) in all {
        assert Choice(k) == all[if loops == [] then 0 else RoundRobin.After(|loops|, next, k)];
      }
    }
  }
}
