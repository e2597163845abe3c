/**
 The sliding-window rate limits of a connection (server.go, lines 449-503):
 timestamps of the attempts of the last second, compacted in place.
 Times are instants of a clock that does not go back, in nanoseconds.
 */
module RateLimiter {

  const SECOND := 1_000_000_000
  const MAX_MSGS_PER_SEC: nat := 200
  const MAX_OPS_PER_SEC: nat := 50

  /** The entries after cutoff, in their order. */
  function Recent(times: seq<int>, cutoff: int): seq<int> {
    if times == [] then []
    else
      var init, t := times[..|times| - 1], times[|times| - 1];
      Recent(init, cutoff) + if t > cutoff then [t] else []
  }

  lemma {:induction false} RecentOfNone(cutoff: int)
    ensures Recent([], cutoff) == []
  {
  }

  lemma {:induction false} RecentOfOneMore(times: seq<int>, i: nat, cutoff: int)
    requires i < |times|
    ensures Recent(times[..i + 1], cutoff) == Recent(times[..i], cutoff) + if times[i] > cutoff then [times[i]] else []
  {
    assert times[..i + 1][..i] == times[..i];
  }

  /** A slice of timestamps: the first len cells of a backing array. */
  class Window {
    var buf: array<int>
    var len: nat

    ghost predicate Valid()
      reads this
    {
      len <= buf.Length
    }

    ghost function Times(): seq<int>
      requires Valid()
      reads this, buf
    {
      buf[..len]
    }

    constructor ()
      ensures Valid() && Times() == [] && fresh(buf)
    {
      buf := new int[0];
      len := 0;
    }

    /** The loop that reuses the slice's own backing array. */
    method Compact(cutoff: int)
      requires Valid()
      modifies this`len, buf
      ensures Valid() && Times() == Recent(old(Times()), cutoff)
    {
      hide Recent;
      ghost var times := Times();
      var kept, i := 0, 0;
      assert Recent(times[..0], cutoff) == [] by { RecentOfNone(cutoff); }
      while i < len
        invariant 0 <= kept <= i <= len == old(len) <= buf.Length && |times| == len
        invariant buf[..kept] == Recent(times[..i], cutoff)
        invariant forall k :: i <= k < len ==> buf[k] == times[k]
      {
        ghost var front := buf[..kept];
        RecentOfOneMore(times, i, cutoff);
        var t := buf[i];
        if t > cutoff {
          buf[kept] := t;
          assert buf[..kept] == front;
          kept := kept + 1;
          assert buf[..kept] == front + [t];
        }
        i := i + 1;
      }
      assert times[..i] == times;
      len := kept;
    }

    /** append, with a larger array when the slice is full. */
    method Append(t: int)
      requires Valid()
      modifies this, buf
      ensures Valid() && Times() == old(Times()) + [t]
      ensures buf == old(buf) || fresh(buf)
    {
      if len == buf.Length {
        var grown := new int[2 * len + 1];
        var i := 0;
        while i < len
          invariant 0 <= i <= len == old(len) == buf.Length && buf == old(buf) && fresh(grown) && grown.Length == 2 * len + 1
          invariant grown[..i] == buf[..i] && buf[..] == old(buf[..])
        {
          grown[i] := buf[i];
          i := i + 1;
        }
        buf := grown;
      }
      buf[len] := t;
      len := len + 1;
    }

    /** checkRateLimit and checkOpRateLimit, which differ in the limit. */
    method Check(now: int, limit: nat) returns (ok: bool)
      requires Valid()
      modifies this, buf
      ensures Valid() && Times() == Recent(old(Times()), now - SECOND) + [now]
      ensures ok <==> |Times()| <= limit
      ensures buf == old(buf) || fresh(buf)
    {
      Compact(now - SECOND);
      Append(now);
      ok := len <= limit;
    }
  }

  /** The two windows of a connection. */
  class ConnState {
    const msgTimes: Window
    const opTimes: Window

    ghost predicate Valid()
      reads this, msgTimes, opTimes
    {
      msgTimes != opTimes && msgTimes.Valid() && opTimes.Valid() && msgTimes.buf != opTimes.buf
    }

    constructor ()
      ensures Valid() && msgTimes.Times() == [] && opTimes.Times() == []
    {
      msgTimes := new Window();
      opTimes := new Window();
    }
  }

  /** A message of a connection that is not registered is let through. */
  method CheckRateLimit(states: map<int, ConnState>, conn: int, now: int) returns (ok: bool)
    requires conn in states ==> states[conn].Valid()
    modifies if conn in states then {states[conn].msgTimes, states[conn].msgTimes.buf} else {}
    ensures conn !in states ==> ok
    ensures conn in states ==>
              var w := states[conn].msgTimes;
              && states[conn].Valid()
              && w.Times() == Recent(old(w.Times()), now - 1_000_000_000) + [now]
              && (ok <==> |w.Times()| <= 200)
    ensures conn in states ==> states[conn].opTimes.Times() == old(states[conn].opTimes.Times())
  {
    if conn !in states { return true; }
    ok := states[conn].msgTimes.Check(now, MAX_MSGS_PER_SEC);
  }

  method CheckOpRateLimit(states: map<int, ConnState>, conn: int, now: int) returns (ok: bool)
    requires conn in states ==> states[conn].Valid()
    modifies if conn in states then {states[conn].opTimes, states[conn].opTimes.buf} else {}
    ensures conn !in states ==> ok
    ensures conn in states ==>
              var w := states[conn].opTimes;
              && states[conn].Valid()
              && w.Times() == Recent(old(w.Times()), now - 1_000_000_000) + [now]
              && (ok <==> |w.Times()| <= 50)
    ensures conn in states ==> states[conn].msgTimes.Times() == old(states[conn].msgTimes.Times())
  {
    if conn !in states { return true; }
    ok := states[conn].opTimes.Check(now, MAX_OPS_PER_SEC);
  }

  // ---- Runs --------------------------------------------------------------

  /** The window after attempts at the given times. */
  function After(times: seq<int>): seq<int> {
    if times == [] then []
    else
      var init, now := times[..|times| - 1], times[|times| - 1];
      Recent(After(init), now - SECOND) + [now]
  }

  /** Whether attempt i of a run is let through. */
  predicate Accepted(times: seq<int>, limit: nat, i: nat)
    requires i < |times|
  {
    |After(times[..i + 1])| <= limit
  }

  /** Any run of attempts on a window: it holds what After says, and each answer is what Accepted says. */
  method Attempt(w: Window, times: seq<int>, limit: nat) returns (answers: seq<bool>)
    requires w.Valid() && w.Times() == []
    modifies w, w.buf
    ensures w.Valid() && w.Times() == After(times)
    ensures |answers| == |times| && forall i :: 0 <= i < |times| ==> (answers[i] <==> Accepted(times, limit, i))
  {
    hide After, Recent;
    answers := [];
    var i := 0;
    assert times[..0] == [];
    assert After([]) == [] by { AfterNone(); }
    while i < |times|
      invariant 0 <= i == |answers| <= |times| && w.Valid() && (w.buf == old(w.buf) || fresh(w.buf))
      invariant w.Times() == After(times[..i])
      invariant forall j :: 0 <= j < i ==> (answers[j] <==> Accepted(times, limit, j))
    {
      assert times[..i + 1] == times[..i] + [times[i]];
      AfterSnoc(times[..i], times[i]);
      var ok := w.Check(times[i], limit);
      answers := answers + [ok];
      i := i + 1;
    }
    assert times[..i] == times;
  }

  predicate Ordered(times: seq<int>) { forall i, j :: 0 <= i < j < |times| ==> times[i] <= times[j] }

  lemma {:induction false} RecentIsSuffix(times: seq<int>, cutoff: int) returns (lo: nat)
    requires Ordered(times)
    ensures lo <= |times| && Recent(times, cutoff) == times[lo..] && CutAt(times, cutoff, lo)
  {
    hide Ordered, CutAt;
    if times == [] {
      lo := 0;
      assert CutAt([], cutoff, 0) by { CutNothing(cutoff); }
    } else {
      var k := |times| - 1;
      assert times == times[..k] + [times[k]];
      assert Ordered(times[..k]) by { OrderedParts(times, 0); }
      lo := RecentIsSuffix(times[..k], cutoff);
      CutLast(times, cutoff, lo);
      if times[k] > cutoff {
        assert times[lo..] == times[..k][lo..] + [times[k]];
      } else {
        assert times[..k][lo..] == [];
        lo := |times|;
      }
    }
  }

  lemma CutNothing(cutoff: int)
    ensures CutAt([], cutoff, 0)
  {
  }

  /** The last entry is kept, or nothing is. */
  lemma CutLast(times: seq<int>, cutoff: int, lo: nat)
    requires Ordered(times) && times != [] && CutAt(times[..|times| - 1], cutoff, lo)
    ensures if times[|times| - 1] > cutoff then CutAt(times, cutoff, lo)
            else lo == |times| - 1 && CutAt(times, cutoff, |times|)
  {
    var k := |times| - 1;
    assert lo < k ==> times[..k][lo] > cutoff;
    assert forall i :: 0 <= i < k ==> times[..k][i] == times[i];
  }

  /** Entry i is later than cutoff exactly from lo on. */
  ghost predicate CutAt(times: seq<int>, cutoff: int, lo: nat) {
    lo <= |times| && forall i :: 0 <= i < |times| ==> (times[i] > cutoff <==> lo <= i)
  }

  /** Dropping what is too old for an earlier cutoff first makes no difference. */
  lemma CutAgain(times: seq<int>, earlier: int, lo: nat, cutoff: int, more: nat)
    requires earlier <= cutoff && CutAt(times, earlier, lo) && CutAt(times[lo..], cutoff, more)
    ensures CutAt(times, cutoff, lo + more) && times[lo..][more..] == times[lo + more..]
  {
    forall i | 0 <= i < |times| ensures times[i] > cutoff <==> lo + more <= i {
      if lo <= i { assert times[lo..][i - lo] == times[i]; }
    }
  }

  /** The window is exactly the attempts of the last second, rejected ones included. */
  lemma {:induction false} KeepsLastSecond(times: seq<int>) returns (lo: nat)
    requires Ordered(times) && times != []
    ensures lo < |times| && After(times) == times[lo..]
    ensures CutAt(times, times[|times| - 1] - SECOND, lo)
  {
    hide CutAt, Recent, Ordered, After;
    var k := |times| - 1;
    var init, now := times[..k], times[k];
    assert times == init + [now];
    if k == 0 {
      lo := 0;
      FirstAttempt(now);
    } else {
      assert Ordered(init) && init[k - 1] <= now by { OrderedParts(times, 0); }
      var before := KeepsLastSecond(init);
      assert Ordered(init[before..]) by { OrderedParts(times, before); }
      var more := RecentIsSuffix(init[before..], now - SECOND);
      CutAgain(init, init[k - 1] - SECOND, before, now - SECOND, more);
      lo := before + more;
      AfterSnoc(init, now);
      assert times[lo..] == init[lo..] + [now];
      CutSnoc(init, now, lo);
    }
  }

  lemma {:induction false} AfterNone()
    ensures After([]) == []
  {
  }

  lemma {:induction false} AfterSnoc(init: seq<int>, now: int)
    ensures After(init + [now]) == Recent(After(init), now - SECOND) + [now]
  {
    assert (init + [now])[..|init|] == init;
  }

  lemma {:induction false} FirstAttempt(now: int)
    ensures After([now]) == [now] && CutAt([now], now - SECOND, 0)
  {
  }

  lemma OrderedParts(times: seq<int>, lo: nat)
    requires Ordered(times) && lo < |times|
    ensures var init := times[..|times| - 1];
            Ordered(init) && Ordered(init[lo..]) && (init != [] ==> init[|init| - 1] <= times[|times| - 1])
  {
  }

  lemma CutSnoc(times: seq<int>, now: int, lo: nat)
    requires CutAt(times, now - SECOND, lo)
    ensures CutAt(times + [now], now - SECOND, lo)
  {
  }

  lemma {:induction false} SubsetSize(s: set<nat>, u: set<nat>)
    requires s <= u
    ensures |s| <= |u|
  {
    if s == {} {
      assert |s| == 0;
    } else {
      var x :| x in s;
      SubsetSize(s - {x}, u - {x});
    }
  }

  lemma {:induction false} Greatest(s: set<nat>) returns (m: nat)
    requires s != {}
    ensures m in s && forall i :: i in s ==> i <= m
  {
    var x :| x in s;
    assert s == {x} + (s - {x});
    if s - {x} == {} {
      m := x;
    } else {
      var r := Greatest(s - {x});
      m := if r > x then r else x;
    }
  }

  /**
   Any accepted attempts that fit into one second, wherever it starts and
   whichever of its ends counts, are at most as many as the limit.
   */
  lemma AtMostLimit(times: seq<int>, limit: nat, s: set<nat>)
    requires Ordered(times)
    requires forall i :: i in s ==> i < |times| && Accepted(times, limit, i)
    requires forall i, j :: i in s && j in s ==> times[j] - times[i] < SECOND
    ensures |s| <= limit
  {
    if s != {} {
      var j := Greatest(s);
      var lo := KeepsLastSecond(times[..j + 1]);
      assert Accepted(times, limit, j);
      forall i | i in s ensures lo <= i < j + 1 {
        assert times[..j + 1][i] == times[i] > times[j] - SECOND;
      }
      SubsetSize(s, Span(lo, j + 1));
    }
  }

  /** In particular the half-open windows of one second from any instant. */
  lemma EveryWindow(times: seq<int>, limit: nat, from: int)
    requires Ordered(times)
    ensures |set i: nat | i < |times| && from <= times[i] < from + SECOND && Accepted(times, limit, i)| <= limit
    ensures |set i: nat | i < |times| && from < times[i] <= from + SECOND && Accepted(times, limit, i)| <= limit
  {
    AtMostLimit(times, limit, set i: nat | i < |times| && from <= times[i] < from + SECOND && Accepted(times, limit, i));
    AtMostLimit(times, limit, set i: nat | i < |times| && from < times[i] <= from + SECOND && Accepted(times, limit, i));
  }

  /** An attempt is refused exactly when more than the limit were made in the second that ends with it. */
  lemma RefusedExactly(times: seq<int>, limit: nat, j: nat)
    requires Ordered(times) && j < |times|
    ensures Accepted(times, limit, j) <==> |set i: nat | i <= j && times[i] > times[j] - 1_000_000_000| <= limit
  {
    var lo := KeepsLastSecond(times[..j + 1]);
    var s := set i: nat | i <= j && times[i] > times[j] - SECOND;
    forall i: nat ensures i in s <==> i in Span(lo, j + 1) {
      if i <= j { assert times[..j + 1][i] == times[i]; }
    }
    assert s == Span(lo, j + 1);
  }

  function Span(lo: nat, hi: nat): (s: set<nat>)
    ensures forall i :: i in s <==> lo <= i < hi
    ensures lo <= hi ==> |s| == hi - lo
  {
    if lo >= hi then {} else Span(lo, hi - 1) + {hi - 1}
  }
}
