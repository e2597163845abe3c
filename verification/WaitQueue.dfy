/**
 The waiter queue as the locks see it (waiter.go).

 Every lifecycle of a pooled Waiter is one entry of an append-only log, so a
 waiter is named by its position in the log and the queue is the part of the
 log from `head` on.  `place` records who has the waiter now: it is written by
 the step that moves the waiter and never read by a step.
 The module MSQueue proves that the pointer-level queue behaves like this one.
 */
module WaitQueue {
  import opened Threads

  datatype Place =
    | Queued
    | Hand(popper: Tid)     // popped
    | Signaled              // token sent
    | Discarded             // dropped because it was cancelled

  datatype Waiter = Waiter(owner: Tid, cancelled: bool, token: bool, place: Place)

  datatype Queue = Queue(ws: seq<Waiter>, head: nat, size: int)
  {
    ghost predicate Valid() {
      && head <= |ws|
      && (forall w :: 0 <= w < |ws| ==> (w < head <==> ws[w].place != Queued))
      && (forall w :: 0 <= w < |ws| && ws[w].token ==> ws[w].place == Signaled)
      && (forall w :: 0 <= w < |ws| && ws[w].place == Discarded ==> ws[w].cancelled)
    }

    /** No node is linked behind the sentinel. */
    predicate Empty() { head >= |ws| }

    predicate Contains(w: nat) { head <= w < |ws| }

    /** The size counter as IsEmpty reads it: negative values count as zero. */
    predicate SizeIsZero() { size <= 0 }

    /** The link compare-and-swap of Enqueue. */
    function Link(t: Tid): Queue {
      this.(ws := ws + [Waiter(t, false, false, Queued)])
    }

    /** The head compare-and-swap of Dequeue. */
    function Pop(p: Tid): Queue
      requires head < |ws|
    {
      this.(ws := ws[head := ws[head].(place := Hand(p))], head := head + 1)
    }

    /** The head compare-and-swap of peek, which drops a cancelled first node. */
    function Unlink(): Queue
      requires head < |ws|
    {
      this.(ws := ws[head := ws[head].(place := Discarded)], head := head + 1)
    }

    function Add(d: int): Queue { this.(size := size + d) }

    function Cancel(w: nat): Queue
      requires w < |ws|
    {
      this.(ws := ws[w := ws[w].(cancelled := true)])
    }

    /** A cancelled waiter goes back to the pool. */
    function Discard(w: nat): Queue
      requires w < |ws|
    {
      this.(ws := ws[w := ws[w].(place := Discarded)])
    }

    /** Signal: a non-blocking send on the one-slot channel. */
    function Send(w: nat): Queue
      requires w < |ws|
    {
      this.(ws := ws[w := ws[w].(place := Signaled, token := true)])
    }

    function Receive(w: nat): Queue
      requires w < |ws|
    {
      this.(ws := ws[w := ws[w].(token := false)])
    }
  }

  /**
   What a step of thread t may do to the waiter records: append its own, cancel
   or receive on its own, pop any, and finish with those it has popped.
   */
  ghost predicate Evolves(q: Queue, q': Queue, t: Tid) {
    && |q.ws| <= |q'.ws|
    && (forall w :: 0 <= w < |q.ws| ==> WaiterEvolves(q.ws[w], q'.ws[w], t))
    && (forall w :: |q.ws| <= w < |q'.ws| ==> q'.ws[w] == Waiter(t, false, false, Queued))
  }

  ghost predicate WaiterEvolves(x: Waiter, x': Waiter, t: Tid) {
    && x'.owner == x.owner
    && (x'.cancelled == x.cancelled || (x'.cancelled && x.owner == t))
    && (x'.place == x.place
        || (x.place == Queued && x'.place == Hand(t))
        || (x.place == Hand(t) && x'.place == Signaled && x'.token)
        || ((x.place == Hand(t) || x.place == Queued) && x'.place == Discarded && x.cancelled))
    && (x'.token == x.token || x.owner == t || (x.place == Hand(t) && x'.place == Signaled))
  }

  const EMPTY := Queue([], 0, 0)

  /**
   What thread t knows about the records: `hand` are the waiters it has popped
   and not finished with, `live` contains those of its own that can still be
   woken; its other waiters are cancelled, signaled or discarded.  A lock that
   flags a waiter before it sends the token says less about the flagged ones.
   */
  ghost predicate Books(q: Queue, t: Tid, hand: set<nat>, live: set<nat>, flagged: set<nat> := {}) {
    && (forall w :: w in hand ==> w < |q.ws|)
    && (forall w :: 0 <= w < |q.ws| ==> (q.ws[w].place == Hand(t) <==> w in hand))
    && (forall w :: w in live ==> Own(q, t, w, w in flagged))
    && (forall w :: 0 <= w < |q.ws| && q.ws[w].owner == t && Open(q.ws[w]) ==> w in live || w in flagged)
  }

  predicate Open(x: Waiter) { !x.cancelled && x.place != Signaled }

  /** Waiter w belongs to t and is not cancelled; a token sent to it is there unless it was flagged. */
  ghost predicate Own(q: Queue, t: Tid, w: nat, flagged: bool) {
    && w < |q.ws| && q.ws[w].owner == t && !q.ws[w].cancelled
    && (q.ws[w].place == Signaled ==> q.ws[w].token || flagged)
  }

  /** Owners and poppers are among `threads`. */
  ghost predicate Known(q: Queue, threads: set<Tid>) {
    forall w :: 0 <= w < |q.ws| ==>
      && q.ws[w].owner in threads
      && (q.ws[w].place.Hand? ==> q.ws[w].place.popper in threads)
  }

  lemma BooksInRange(q: Queue, t: Tid, hand: set<nat>, live: set<nat>, flagged: set<nat> := {})
    requires Books(q, t, hand, live, flagged)
    ensures forall w :: w in hand ==> w < |q.ws|
    ensures forall w :: w in live ==> w < |q.ws|
  {
    forall w | w in live ensures w < |q.ws| { assert Own(q, t, w, w in flagged); }
  }

  lemma InHand(q: Queue, t: Tid, hand: set<nat>, live: set<nat>, w: nat, flagged: set<nat> := {})
    requires Books(q, t, hand, live, flagged) && w in hand
    ensures w < |q.ws| && q.ws[w].place == Hand(t)
  {
  }

  lemma LinkBooks(q: Queue, t: Tid, hand: set<nat>, live: set<nat>, flagged: set<nat> := {})
    requires q.Valid() && Books(q, t, hand, live, flagged)
    ensures q.Link(t).Valid() && Evolves(q, q.Link(t), t)
    ensures Books(q.Link(t), t, hand, live + {|q.ws|}, flagged)
  {
  }

  lemma PopBooks(q: Queue, t: Tid, hand: set<nat>, live: set<nat>, flagged: set<nat> := {})
    requires q.Valid() && Books(q, t, hand, live, flagged) && !q.Empty()
    ensures q.Pop(t).Valid() && Evolves(q, q.Pop(t), t)
    ensures Books(q.Pop(t), t, hand + {q.head}, live, flagged)
  {
  }

  lemma CancelBooks(q: Queue, t: Tid, hand: set<nat>, live: set<nat>, w: nat, flagged: set<nat> := {})
    requires q.Valid() && Books(q, t, hand, live, flagged) && w in live
    ensures q.Cancel(w).Valid() && Evolves(q, q.Cancel(w), t)
    ensures Books(q.Cancel(w), t, hand, live - {w}, flagged)
  {
    assert Own(q, t, w, w in flagged);
  }

  lemma DiscardBooks(q: Queue, t: Tid, hand: set<nat>, live: set<nat>, w: nat, flagged: set<nat> := {})
    requires q.Valid() && Books(q, t, hand, live, flagged) && w in hand && q.ws[w].cancelled
    ensures q.Discard(w).Valid() && Evolves(q, q.Discard(w), t)
    ensures Books(q.Discard(w), t, hand - {w}, live, flagged)
  {
  }

  lemma SendBooks(q: Queue, t: Tid, hand: set<nat>, live: set<nat>, w: nat, flagged: set<nat> := {})
    requires q.Valid() && Books(q, t, hand, live, flagged) && w in hand
    ensures q.Send(w).Valid() && Evolves(q, q.Send(w), t)
    ensures Books(q.Send(w), t, hand - {w}, live, flagged)
  {
  }

  lemma ReceiveBooks(q: Queue, t: Tid, hand: set<nat>, live: set<nat>, w: nat, flagged: set<nat> := {})
    requires q.Valid() && Books(q, t, hand, live, flagged) && w in live && q.ws[w].token
    ensures q.Receive(w).Valid() && Evolves(q, q.Receive(w), t)
    ensures Books(q.Receive(w), t, hand, live - {w}, flagged)
  {
    assert Own(q, t, w, w in flagged);
  }

  lemma AddBooks(q: Queue, t: Tid, hand: set<nat>, live: set<nat>, d: int, flagged: set<nat> := {})
    requires q.Valid() && Books(q, t, hand, live, flagged)
    ensures q.Add(d).Valid() && Evolves(q, q.Add(d), t)
    ensures Books(q.Add(d), t, hand, live, flagged)
  {
    forall w | w in live ensures Own(q.Add(d), t, w, w in flagged) { assert Own(q, t, w, w in flagged); }
  }

  lemma UnlinkBooks(q: Queue, t: Tid, hand: set<nat>, live: set<nat>, flagged: set<nat> := {})
    requires q.Valid() && Books(q, t, hand, live, flagged) && !q.Empty() && q.ws[q.head].cancelled
    ensures q.Unlink().Valid() && Evolves(q, q.Unlink(), t)
    ensures Books(q.Unlink(), t, hand, live, flagged)
  {
    forall w | w in live ensures Own(q.Unlink(), t, w, w in flagged) { assert Own(q, t, w, w in flagged); }
  }

  /** Receiving a token that is flagged, without letting go of the waiter. */
  lemma KeepBooks(q: Queue, t: Tid, hand: set<nat>, live: set<nat>, w: nat, flagged: set<nat>)
    requires q.Valid() && Books(q, t, hand, live, flagged) && w in live && q.ws[w].token && w in flagged
    ensures q.Receive(w).Valid() && Evolves(q, q.Receive(w), t)
    ensures Books(q.Receive(w), t, hand, live, flagged)
  {
    forall v | v in live ensures Own(q.Receive(w), t, v, v in flagged) { assert Own(q, t, v, v in flagged); }
  }

  lemma FlagBooks(q: Queue, t: Tid, hand: set<nat>, live: set<nat>, flagged: set<nat>, more: set<nat>)
    requires Books(q, t, hand, live, flagged) && flagged <= more
    ensures Books(q, t, hand, live, more)
  {
    forall v | v in live ensures Own(q, t, v, v in more) { assert Own(q, t, v, v in flagged); }
  }

  /** A flagged waiter may be forgotten by its owner. */
  lemma ForgetBooks(q: Queue, t: Tid, hand: set<nat>, w: nat, flagged: set<nat>)
    requires Books(q, t, hand, {w}, flagged) && w in flagged
    ensures Books(q, t, hand, {}, flagged)
  {
  }

  lemma SameBooks(q: Queue, t: Tid)
    requires q.Valid()
    ensures Evolves(q, q, t)
  {
  }

  /** What a thread knows survives the steps of every other thread. */
  lemma OthersBooks(q: Queue, q': Queue, t: Tid, u: Tid, hand: set<nat>, live: set<nat>, flagged: set<nat> := {})
    requires q.Valid() && q'.Valid() && Evolves(q, q', t) && u != t && Books(q, u, hand, live, flagged)
    ensures Books(q', u, hand, live, flagged)
  {
    forall w | w in live ensures Own(q', u, w, w in flagged) {
      assert Own(q, u, w, w in flagged);
    }
  }

  lemma KnownEvolves(q: Queue, q': Queue, t: Tid, threads: set<Tid>)
    requires Known(q, threads) && Evolves(q, q', t) && t in threads
    ensures Known(q', threads)
  {
  }

  // ---- Waking the first live waiters -------------------------------------

  /** Waiter w is in the queue and not cancelled. */
  predicate LiveIn(q: Queue, w: nat) { q.Contains(w) && !q.ws[w].cancelled }

  /** The number of live waiters from lo up to hi. */
  function LiveCount(q: Queue, lo: nat, hi: nat): nat
    decreases hi - lo
  {
    if lo >= hi then 0 else (if LiveIn(q, lo) then 1 else 0) + LiveCount(q, lo + 1, hi)
  }

  /** Waiter w is among the first n live ones. */
  predicate AmongFirst(q: Queue, n: int, w: nat) { LiveIn(q, w) && LiveCount(q, q.head, w) < n }

  /**
   q' is q after a wake-up of n: exactly the first n live waiters have got a
   token, or all if there are fewer; the others have what they had, and the live
   ones among them are still queued.
   */
  ghost predicate Woken(q: Queue, q': Queue, n: int) {
    && |q'.ws| == |q.ws|
    && (forall w {:trigger WokenAt(q, q', n, w)} :: 0 <= w < |q.ws| ==> WokenAt(q, q', n, w))
  }

  ghost predicate WokenAt(q: Queue, q': Queue, n: int, w: nat)
    requires w < |q.ws| == |q'.ws|
  {
    var x, x' := q.ws[w], q'.ws[w];
    && x'.owner == x.owner && x'.cancelled == x.cancelled
    && (if AmongFirst(q, n, w) then x'.token && x'.place == Signaled else x'.token == x.token)
    && (LiveIn(q, w) && !AmongFirst(q, n, w) ==> LiveIn(q', w) && x' == x)
    && (w < q.head ==> x' == x)
  }

  /** q1 is q with the first waiter out of the queue. */
  ghost predicate FirstOut(q: Queue, q1: Queue) {
    && q.head < |q.ws| == |q1.ws| && q1.head == q.head + 1
    && (forall w :: 0 <= w < |q.ws| && w != q.head ==> q1.ws[w] == q.ws[w])
    && q1.ws[q.head].owner == q.ws[q.head].owner && q1.ws[q.head].cancelled == q.ws[q.head].cancelled
  }

  /** The first waiter popped by t and dropped. */
  function FirstDropped(q: Queue, t: Tid): Queue
    requires !q.Empty()
  {
    q.Pop(t).Discard(q.head)
  }

  /** The first waiter popped by t and signaled. */
  function FirstServed(q: Queue, t: Tid): Queue
    requires !q.Empty()
  {
    q.Pop(t).Send(q.head)
  }

  lemma DroppedOut(q: Queue, t: Tid)
    requires !q.Empty()
    ensures FirstOut(q, FirstDropped(q, t)) && FirstDropped(q, t).ws[q.head].token == q.ws[q.head].token
    ensures q.Valid() && q.ws[q.head].cancelled ==> FirstDropped(q, t).Valid()
  {
  }

  lemma ServedOut(q: Queue, t: Tid)
    requires !q.Empty()
    ensures FirstOut(q, FirstServed(q, t)) && FirstServed(q, t).ws[q.head].token && FirstServed(q, t).ws[q.head].place == Signaled
    ensures q.Valid() ==> FirstServed(q, t).Valid()
  {
  }

  /** Counting from behind the first waiter. */
  lemma {:induction false} CountBehind(q: Queue, q1: Queue, lo: nat, hi: nat)
    requires FirstOut(q, q1) && q1.head <= lo
    ensures LiveCount(q1, lo, hi) == LiveCount(q, lo, hi)
    decreases hi - lo
  {
    if lo < hi { CountBehind(q, q1, lo + 1, hi); }
  }

  /** A wake-up of none, or of an empty queue, changes nothing. */
  lemma {:induction false} WokenNone(q: Queue, n: int)
    requires n <= 0 || q.Empty()
    ensures Woken(q, q, n)
  {
    forall w | 0 <= w < |q.ws| ensures WokenAt(q, q, n, w) { }
  }

  /** On an empty queue the number does not matter. */
  lemma {:induction false} WokenEmpty(q: Queue, q': Queue, n: int)
    requires q.Empty() && Woken(q, q', n - 1)
    ensures Woken(q, q', n)
  {
    forall w | 0 <= w < |q.ws| ensures WokenAt(q, q', n, w) { assert WokenAt(q, q', n - 1, w); }
  }

  /** A cancelled first waiter is passed over. */
  lemma {:induction false} WokenSkip(q: Queue, q1: Queue, q': Queue, n: int)
    requires FirstOut(q, q1) && q.ws[q.head].cancelled && q1.ws[q.head].token == q.ws[q.head].token && Woken(q1, q', n)
    ensures Woken(q, q', n)
  {
    forall w | 0 <= w < |q.ws| ensures WokenAt(q, q', n, w) {
      assert WokenAt(q1, q', n, w);
      CountBehind(q, q1, q1.head, w);
    }
  }

  /** A live first waiter gets its token, and the rest is a wake-up of one less. */
  lemma {:induction false} WokenFirst(q: Queue, q1: Queue, q': Queue, n: int)
    requires FirstOut(q, q1) && !q.ws[q.head].cancelled && q1.ws[q.head].token && q1.ws[q.head].place == Signaled && n > 0
    requires Woken(q1, q', n - 1)
    ensures Woken(q, q', n)
  {
    forall w | 0 <= w < |q.ws| ensures WokenAt(q, q', n, w) {
      assert WokenAt(q1, q', n - 1, w);
      CountBehind(q, q1, q1.head, w);
    }
  }

  /** The length of the queue's log is as good as any larger number: every live waiter is among the first that many. */
  lemma {:induction false} AmongAll(q: Queue, w: nat)
    requires LiveIn(q, w)
    ensures AmongFirst(q, |q.ws|, w)
  {
    CountBound(q, q.head, w);
  }

  lemma {:induction false} CountBound(q: Queue, lo: nat, hi: nat)
    requires lo <= hi
    ensures LiveCount(q, lo, hi) <= hi - lo
    decreases hi - lo
  {
    if lo == hi {
      assert LiveCount(q, lo, hi) == 0;
    } else {
      CountBound(q, lo + 1, hi);
    }
  }

  /** Every live waiter has got a token, and nobody else. */
  ghost predicate AllWoken(q: Queue, q': Queue) {
    && |q'.ws| == |q.ws|
    && (forall w {:trigger q'.ws[w]} :: 0 <= w < |q.ws| ==>
          && q'.ws[w].owner == q.ws[w].owner && q'.ws[w].cancelled == q.ws[w].cancelled
          && (if LiveIn(q, w) then q'.ws[w].token && q'.ws[w].place == Signaled else q'.ws[w].token == q.ws[w].token))
  }

  lemma {:induction false} WokenAll(q: Queue, q': Queue, n: int)
    requires Woken(q, q', n) && n >= |q.ws|
    ensures AllWoken(q, q')
  {
    hide AmongFirst;
    forall w | 0 <= w < |q.ws|
      ensures q'.ws[w].owner == q.ws[w].owner && q'.ws[w].cancelled == q.ws[w].cancelled
      ensures if LiveIn(q, w) then q'.ws[w].token && q'.ws[w].place == Signaled else q'.ws[w].token == q.ws[w].token
    {
      assert WokenAt(q, q', n, w);
      if LiveIn(q, w) { AmongMore(q, w, n); } else { NotAmong(q, w, n); }
    }
  }

  lemma {:induction false} AmongMore(q: Queue, w: nat, n: int)
    requires LiveIn(q, w) && n >= |q.ws|
    ensures AmongFirst(q, n, w)
  {
    AmongAll(q, w);
  }

  lemma NotAmong(q: Queue, w: nat, n: int)
    requires !LiveIn(q, w)
    ensures !AmongFirst(q, n, w)
  {
  }
}
