/**
 Thread identifiers and sums over the program counters of all threads.
 Every protocol below keeps the program counter of each goroutine in a finite
 map; a sum over that map is how a machine word or a size counter is tied to
 what the goroutines are doing.
 */
module Threads {

  type Tid = nat

  /** The sum of `weight` over all threads. */
  ghost function Total<P>(pc: map<Tid, P>, weight: P -> int): int
    decreases |pc|
  {
    if pc == map[] then 0
    else
      var t :| t in pc;
      weight(pc[t]) + Total(pc - {t}, weight)
  }

  /** The sum does not depend on which thread is split off first. */
  lemma {:induction false} TotalSplit<P>(pc: map<Tid, P>, weight: P -> int, t: Tid)
    requires t in pc
    ensures Total(pc, weight) == weight(pc[t]) + Total(pc - {t}, weight)
    decreases |pc|
  {
    var u :| u in pc && Total(pc, weight) == weight(pc[u]) + Total(pc - {u}, weight);
    if u != t {
      TotalSplit(pc - {u}, weight, t);
      TotalSplit(pc - {t}, weight, u);
      assert pc - {u} - {t} == pc - {t} - {u};
    }
  }

  /** Moving one thread changes the sum by the difference of its two weights. */
  lemma {:induction false} TotalUpdate<P>(pc: map<Tid, P>, weight: P -> int, t: Tid, p: P)
    requires t in pc
    ensures Total(pc[t := p], weight) == Total(pc, weight) - weight(pc[t]) + weight(p)
  {
    TotalSplit(pc, weight, t);
    TotalSplit(pc[t := p], weight, t);
    assert pc[t := p] - {t} == pc - {t};
  }

  /** With non-negative weights, two different threads are both covered by the sum. */
  lemma {:induction false} TotalCoversTwo<P>(pc: map<Tid, P>, weight: P -> int, t: Tid, u: Tid)
    requires t in pc && u in pc && t != u
    requires forall p :: weight(p) >= 0
    ensures Total(pc, weight) >= weight(pc[t]) + weight(pc[u])
  {
    TotalSplit(pc, weight, t);
    TotalSplit(pc - {t}, weight, u);
    TotalNonNegative(pc - {t} - {u}, weight);
  }

  lemma {:induction false} TotalNonNegative<P>(pc: map<Tid, P>, weight: P -> int)
    requires forall p :: weight(p) >= 0
    ensures Total(pc, weight) >= 0
    ensures forall t :: t in pc ==> Total(pc, weight) >= weight(pc[t])
    decreases |pc|
  {
    if pc == map[] {
      assert Total(pc, weight) == 0;
    } else {
      forall t | t in pc ensures Total(pc, weight) >= weight(pc[t]) {
        TotalSplit(pc, weight, t);
        TotalNonNegative(pc - {t}, weight);
      }
      var t :| t in pc;
      TotalSplit(pc, weight, t);
    }
  }

  /** A sum that no thread contributes to is zero. */
  lemma {:induction false} TotalZero<P>(pc: map<Tid, P>, weight: P -> int)
    requires forall t :: t in pc ==> weight(pc[t]) == 0
    ensures Total(pc, weight) == 0
    decreases |pc|
  {
    if pc == map[] {
      assert Total(pc, weight) == 0;
    } else {
      var t :| t in pc;
      TotalSplit(pc, weight, t);
      TotalZero(pc - {t}, weight);
    }
  }

  /** A non-zero sum has a contributor. */
  lemma {:induction false} TotalContributor<P>(pc: map<Tid, P>, weight: P -> int) returns (t: Tid)
    requires Total(pc, weight) != 0
    ensures t in pc && weight(pc[t]) != 0
  {
    if forall u :: u in pc ==> weight(pc[u]) == 0 {
      TotalZero(pc, weight);
    }
    t :| t in pc && weight(pc[t]) != 0;
  }

  /** With weights of at most one, the sum is at most the number of threads. */
  lemma {:induction false} TotalAtMost<P>(pc: map<Tid, P>, weight: P -> int)
    requires forall p :: weight(p) <= 1
    ensures Total(pc, weight) <= |pc|
    decreases |pc|
  {
    if pc == map[] {
      assert Total(pc, weight) == 0;
    } else {
      var t :| t in pc;
      TotalSplit(pc, weight, t);
      TotalAtMost(pc - {t}, weight);
    }
  }

  /** A positive sum has a positive contributor. */
  lemma {:induction false} TotalPositive<P>(pc: map<Tid, P>, weight: P -> int) returns (t: Tid)
    requires Total(pc, weight) > 0
    ensures t in pc && weight(pc[t]) > 0
    decreases |pc|
  {
    t :| t in pc;
    TotalSplit(pc, weight, t);
    if weight(pc[t]) <= 0 {
      t := TotalPositive(pc - {t}, weight);
    }
  }

  /** A sum of zeros and ones counts the threads with a one. */
  lemma {:induction false} TotalCounts<P>(pc: map<Tid, P>, weight: P -> int, ones: set<Tid>)
    requires forall p :: weight(p) == 0 || weight(p) == 1
    requires forall t :: t in ones <==> t in pc && weight(pc[t]) == 1
    ensures Total(pc, weight) == |ones|
    decreases |pc|
  {
    if pc == map[] {
      assert ones == {};
    } else {
      var u :| u in pc;
      TotalSplit(pc, weight, u);
      TotalCounts(pc - {u}, weight, ones - {u});
    }
  }
}
