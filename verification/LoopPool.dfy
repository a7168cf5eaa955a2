/** The pool of I/O loops and its round-robin allocator. */
module LoopPool {

  /** Loops are numbered; the base loop is 0. */
  const BASE: nat := 0

  /** The index after the one just handed out. */
  function Advance(n: nat, next: nat): nat {
    if next + 1 >= n then 0 else next + 1
  }

  /** The allocator's position and its hand-outs after `k` calls on `n` loops. */
  function Position(n: nat, k: nat): nat {
    if k == 0 then 0 else Advance(n, Position(n, k - 1))
  }

  ghost function HandedOut(n: nat, k: nat): seq<nat> {
    if k == 0 then [] else HandedOut(n, k - 1) + [Position(n, k - 1)]
  }

  ghost function Count(s: seq<nat>, j: nat): nat {
    multiset(s)[j]
  }

  /** How often the allocator has come round. */
  ghost function Rounds(n: nat, k: nat): nat {
    if k == 0 then 0 else Rounds(n, k - 1) + if Position(n, k - 1) + 1 >= n then 1 else 0
  }

  lemma {:induction false} CallsSplitIntoRounds(n: nat, k: nat)
    requires n > 0
    ensures Position(n, k) < n && k == Rounds(n, k) * n + Position(n, k)
  {
    if k > 0 {
      CallsSplitIntoRounds(n, k - 1);
      var r := Rounds(n, k - 1);
      assert (r + 1) * n == r * n + n;
    }
  }

  lemma Multiples(d: int, n: nat)
    ensures d >= 1 ==> d * n >= n
    ensures d <= -1 ==> d * n <= -(n as int)
  {
  }

  /** After `k` calls the position is `k` modulo the number of loops. */
  lemma PositionIsModulo(n: nat, k: nat)
    requires n > 0
    ensures Position(n, k) == k % n && Rounds(n, k) == k / n
  {
    CallsSplitIntoRounds(n, k);
    hide Position, Rounds;
    DivisionIsUnique(k, Rounds(n, k), Position(n, k), n);
  }

  lemma DivisionIsUnique(k: int, q: int, r: int, n: nat)
    requires 0 <= r < n && k == q * n + r
    ensures k % n == r && k / n == q
  {
    var p, m := k / n, k % n;
    assert k == p * n + m;
    assert (p - q) * n == p * n - q * n;
    Multiples(p - q, n);
  }

  lemma HandOutStep(n: nat, k: nat)
    ensures HandedOut(n, k + 1) == HandedOut(n, k) + [Position(n, k)]
    ensures Position(n, k + 1) == Advance(n, Position(n, k))
  {
  }

  /** Exact shares: every loop gets one per completed round, and the first few one more. */
  lemma {:induction false} SharesAreExact(n: nat, k: nat, j: nat)
    requires j < n
    ensures Count(HandedOut(n, k), j) == Rounds(n, k) + if j < Position(n, k) then 1 else 0
  {
    if k > 0 {
      SharesAreExact(n, k - 1, j);
      CallsSplitIntoRounds(n, k - 1);
    }
  }

  /** Fair allocation: after any number of calls any two loops differ by at most one. */
  lemma AllocationIsFair(n: nat, k: nat, i: nat, j: nat)
    requires i < n && j < n
    ensures Count(HandedOut(n, k), i) <= Count(HandedOut(n, k), j) + 1
  {
    SharesAreExact(n, k, i);
    SharesAreExact(n, k, j);
  }

  class EventLoopThreadPool {
    var loops: seq<nat>
    var next: nat
    /** The indices handed out so far. */
    ghost var history: seq<nat>

    ghost predicate Valid()
      reads this
    {
      && (forall i :: 0 <= i < |loops| ==> loops[i] == i + 1)
      && next == Position(|loops|, |history|) && history == HandedOut(|loops|, |history|)
      && (loops == [] ==> history == [])
    }

    constructor ()
      ensures Valid() && loops == [] && history == []
    {
      loops, next, history := [], 0, [];
    }

    /** Starts the threads, each with its own loop. */
    method Start(numThreads: nat)
      requires Valid() && loops == []
      modifies this
      ensures Valid() && |loops| == numThreads && history == []
    {
      for i := 0 to numThreads
        invariant |loops| == i && forall j :: 0 <= j < i ==> loops[j] == j + 1
        invariant next == 0 && history == []
      {
        loops := loops + [i + 1];
      }
    }

    /** The base loop when there is no other; otherwise the loops in turn, so that no two loops ever
        differ by more than one hand-out. */
    method GetNextLoop() returns (loop: nat)
      requires Valid()
      modifies this`next, this`history
      ensures Valid() && loops == old(loops)
      ensures loops == [] ==> loop == BASE && history == []
      ensures loops != [] ==>
        && Position(|loops|, |old(history)|) < |loops| && loop == loops[Position(|loops|, |old(history)|)]
        && |history| == |old(history)| + 1
        && (forall i, j :: 0 <= i < |loops| && 0 <= j < |loops| ==> Count(history, i) <= Count(history, j) + 1)
    {
      hide HandedOut, Position, Count;
      loop := BASE;
      if loops != [] {
        HandOutStep(|loops|, |history|);
        CallsSplitIntoRounds(|loops|, |history|);
        loop := loops[next];
        history := history + [next];
        next := next + 1;
        if next >= |loops| {
          next := 0;
        }
        forall i, j | 0 <= i < |loops| && 0 <= j < |loops| ensures Count(history, i) <= Count(history, j) + 1 {
          AllocationIsFair(|loops|, |history|, i, j);
        }
      }
    }

    method GetAllLoops() returns (all: seq<nat>)
      ensures all != [] && (loops != [] ==> all == loops) && (loops == [] ==> all == [BASE])
    {
      all := if loops == [] then [BASE] else loops;
    }
  }
}
