/** The size of the poller's event list over runs of polls. */
module EventList {

  const INITIAL_EVENTS: nat := 16

  /** The list doubles after a poll that filled it. */
  function NextCapacity(capacity: nat, batch: nat): nat {
    if batch > 0 && batch == capacity then 2 * capacity else capacity
  }

  /** The capacity after a run of polls that returned these batches. */
  function Capacity(batches: seq<nat>): nat {
    if batches == [] then INITIAL_EVENTS
    else NextCapacity(Capacity(batches[..|batches| - 1]), batches[|batches| - 1])
  }

  /** epoll_wait never returns more events than the list can hold. */
  ghost predicate Feasible(batches: seq<nat>) {
    forall i {:trigger batches[i]} | 0 <= i < |batches| :: batches[i] <= Capacity(batches[..i])
  }

  ghost function Pow2(k: nat): nat {
    if k == 0 then 1 else 2 * Pow2(k - 1)
  }

  ghost function Largest(batches: seq<nat>): nat {
    if batches == [] then 0 else
      var before := Largest(batches[..|batches| - 1]);
      if before < batches[|batches| - 1] then batches[|batches| - 1] else before
  }

  /** Over every run of polls the capacity is the initial one times a power of two, and more than the initial
      one only within twice the largest batch. */
  lemma {:induction false} CapacityBound(batches: seq<nat>) returns (k: nat)
    ensures Capacity(batches) == INITIAL_EVENTS * Pow2(k)
    ensures Capacity(batches) <= INITIAL_EVENTS || Capacity(batches) <= 2 * Largest(batches)
    ensures k <= |batches|
  {
    k := 0;
    if batches != [] {
      k := CapacityBound(batches[..|batches| - 1]);
      if Capacity(batches) != Capacity(batches[..|batches| - 1]) {
        k := k + 1;
      }
    }
  }

  // ---- A steady load of n ready descriptors

  /** The batches of m polls while n descriptors stay ready: each fills the list or returns all n. */
  function Steady(n: nat, m: nat): seq<nat> {
    if m == 0 then [] else
      var before := Steady(n, m - 1);
      before + [if Capacity(before) < n then Capacity(before) else n]
  }

  /** How many of the batches missed some of the n descriptors. */
  function Short(n: nat, batches: seq<nat>): nat {
    if batches == [] then 0
    else Short(n, batches[..|batches| - 1]) + if batches[|batches| - 1] < n then 1 else 0
  }

  /** The number of doublings that bring a capacity up to n. */
  function Doublings(n: nat, capacity: nat): nat
    requires capacity > 0
    decreases n - capacity
  {
    if n <= capacity then 0 else 1 + Doublings(n, 2 * capacity)
  }

  /** The doublings needed are the least k with n <= capacity * 2^k. */
  lemma {:induction false} DoublingsLeast(n: nat, capacity: nat, k: nat)
    requires capacity > 0
    ensures Doublings(n, capacity) <= k <==> n <= capacity * Pow2(k)
    decreases k
  {
    if k > 0 {
      DoublingsLeast(n, 2 * capacity, k - 1);
      assert capacity * Pow2(k) == 2 * capacity * Pow2(k - 1);
      if n <= capacity {
        PowPositive(k);
        assert capacity <= capacity * Pow2(k);
      }
    }
  }

  lemma {:induction false} PowPositive(k: nat)
    ensures Pow2(k) >= 1
  {
    if k > 0 {
      PowPositive(k - 1);
    }
  }

  /** Under a steady load exactly the first polls fall short, one for each doubling that is needed. */
  lemma {:induction false} ShortPolls(n: nat, m: nat)
    ensures var needed := Doublings(n, INITIAL_EVENTS);
            Short(n, Steady(n, m)) == if m < needed then m else needed
  {
    ShortSoFar(n, m);
  }

  lemma {:induction false} ShortSoFar(n: nat, m: nat)
    ensures Capacity(Steady(n, m)) >= INITIAL_EVENTS
    ensures Doublings(n, Capacity(Steady(n, m))) + Short(n, Steady(n, m)) == Doublings(n, INITIAL_EVENTS)
    ensures Short(n, Steady(n, m)) == m || Doublings(n, Capacity(Steady(n, m))) == 0
    ensures Short(n, Steady(n, m)) <= m
  {
    if m > 0 {
      ShortSoFar(n, m - 1);
      SteadyStep(n, m);
    }
  }

  lemma SteadyStep(n: nat, m: nat)
    requires m > 0
    ensures var before, after := Steady(n, m - 1), Steady(n, m);
            var short := Capacity(before) < n;
            && Short(n, after) == Short(n, before) + (if short then 1 else 0)
            && (if short then Capacity(after) == 2 * Capacity(before) || Capacity(before) == 0
                else Capacity(after) >= Capacity(before))
  {
  }

  lemma FeasibleNext(batches: seq<nat>, batch: nat)
    requires Feasible(batches) && batch <= Capacity(batches)
    ensures Feasible(batches + [batch])
  {
    var after := batches + [batch];
    forall i {:trigger after[i]} | 0 <= i < |after| ensures after[i] <= Capacity(after[..i]) {
      assert after[..i] == batches[..i];
      if i < |batches| {
        assert after[i] == batches[i];
      } else {
        assert batches[..i] == batches;
      }
    }
  }

  lemma {:induction false} SteadyFeasible(n: nat, m: nat)
    ensures Feasible(Steady(n, m))
  {
    if m > 0 {
      var before := Steady(n, m - 1);
      SteadyFeasible(n, m - 1);
      FeasibleNext(before, if Capacity(before) < n then Capacity(before) else n);
    }
  }
}
