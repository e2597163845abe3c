/**
 Barrier.Wait (barrier.go, lines 45-127 and 348-364) for any number of rounds.
 The environment starts exactly `parties` calls a round, and those of the next
 round only after wakeAll of the round before has returned; there is no Break,
 Reset or timeout.  One step is one atomic operation.
 */
module Barrier {
  import opened Threads
  import opened WaitQueue

  /** g: the generation the call has read; j: how many arrivals of the whole run came
      before its own; k: what its arrived.Add returned. No step reads j. */
  datatype PC =
    | Idle
    | LoadGen
    | Arrive(g: int)
    | Over                               // the over-subscription guard
    | Reset(g: int, j: nat, k: int)      // the last party trips the barrier
    | Advance(g: int, j: nat, k: int)
    | WakePop(g: int, j: nat, k: int)
    | WakeCheck(g: int, j: nat, k: int, w: nat)
    | WakeSend(g: int, j: nat, k: int, w: nat)
    | Link(g: int, j: nat, k: int)
    | Recheck(g: int, j: nat, k: int, w: nat)
    | Cancel(g: int, j: nat, k: int, w: nat)
    | Wait(g: int, j: nat, k: int, w: nat)
    | Return(g: int, j: nat, k: int)

  datatype Action = Call | Run

  /** `gen`, `arrived` and `q` are the barrier's fields. The rest is bookkeeping: rounds whose
      wakeAll has returned, calls started in the current round, the threads in the order they
      arrived, whether a trip is in progress, and the index returned to each arrival. */
  datatype Memory = Memory(gen: int, arrived: int, q: Queue,
                           round: nat, started: int, who: seq<Tid>, tripping: bool, ret: map<nat, int>)

  datatype State = State(n: int, m: Memory, pc: map<Tid, PC>)

  function Init(n: int, threads: set<Tid>): State {
    State(n, Memory(0, 0, EMPTY, 0, 0, [], false, map[]), map t | t in threads :: Idle)
  }

  function HandOf(p: PC): set<nat> { if p.WakeCheck? || p.WakeSend? then {p.w} else {} }

  function LiveOf(p: PC): set<nat> { if p.Recheck? || p.Cancel? || p.Wait? then {p.w} else {} }

  predicate Typed(p: PC, n: nat) { p.WakeCheck? || p.WakeSend? || p.Cancel? || p.Wait? ==> p.w < n }

  /** One atomic operation of thread t at p, for n parties. */
  function Do(n: int, m: Memory, t: Tid, p: PC, a: Action): (Memory, PC)
    requires Typed(p, |m.q.ws|)
  {
    match p
    case Idle =>
      if a == Call && m.started < n && !m.tripping then (m.(started := m.started + 1), LoadGen) else (m, p)
    case LoadGen => (m, Arrive(m.gen))
    case Arrive(g) =>
      var k, j := m.arrived + 1, |m.who|;
      var m' := m.(arrived := k, who := m.who + [t]);
      if k > n then (m', Over)
      else if k == n then (m'.(tripping := true), Reset(g, j, k))
      else (m', Link(g, j, k))
    case Over => (m, p)
    case Reset(g, j, k) => (m.(arrived := 0), Advance(g, j, k))
    case Advance(g, j, k) => (m.(gen := m.gen + 1), WakePop(g, j, k))
    case WakePop(g, j, k) =>
      if m.q.Empty() then (m.(tripping := false, started := 0, round := m.round + 1), Return(g, j, k))
      else (m.(q := m.q.Pop(t)), WakeCheck(g, j, k, m.q.head))
    case WakeCheck(g, j, k, w) =>
      if m.q.ws[w].cancelled then (m.(q := m.q.Discard(w)), WakePop(g, j, k)) else (m, WakeSend(g, j, k, w))
    case WakeSend(g, j, k, w) => (m.(q := m.q.Send(w)), WakePop(g, j, k))
    case Link(g, j, k) => (m.(q := m.q.Link(t)), Recheck(g, j, k, |m.q.ws|))
    case Recheck(g, j, k, w) => if m.gen > g then (m, Cancel(g, j, k, w)) else (m, Wait(g, j, k, w))
    case Cancel(g, j, k, w) => (m.(q := m.q.Cancel(w)), Return(g, j, k))
    case Wait(g, j, k, w) =>
      if m.q.ws[w].token then (m.(q := m.q.Receive(w)), Return(g, j, k)) else (m, p)
    case Return(g, j, k) => (m.(ret := m.ret[j := k - 1]), Idle)
  }

  predicate Enabled(s: State, t: Tid) { t in s.pc && Typed(s.pc[t], |s.m.q.ws|) }

  function Step(s: State, t: Tid, a: Action): State {
    if Enabled(s, t) then
      var (m, p) := Do(s.n, s.m, t, s.pc[t], a);
      State(s.n, m, s.pc[t := p])
    else s
  }

  type Event = (Tid, Action)

  ghost function Exec(n: int, threads: set<Tid>, run: seq<Event>): State {
    if run == [] then Init(n, threads)
    else Step(Exec(n, threads, run[..|run| - 1]), run[|run| - 1].0, run[|run| - 1].1)
  }

  // ---- Rounds ------------------------------------------------------------

  /** Calls that have started and not arrived. */
  function Coming(p: PC): int { if p.LoadGen? || p.Arrive? then 1 else 0 }

  predicate Trips(p: PC) { p.Reset? || p.Advance? || p.WakePop? || p.WakeCheck? || p.WakeSend? }

  function TripWeight(p: PC): int { if Trips(p) then 1 else 0 }

  /** Arrivals of the current round. */
  function Here(n: int, m: Memory): int { |m.who| - m.round * n }

  /** The round accounting; c threads are coming and r are tripping. */
  ghost predicate RoundOk(n: int, m: Memory, c: int, r: int) {
    && 0 < n && 0 <= Here(n, m) && Here(n, m) + c == m.started <= n
    && r == (if m.tripping then 1 else 0)
    && (m.tripping <==> Here(n, m) == n) && m.round <= m.gen
    && (!m.tripping ==> m.gen == m.round && m.arrived == Here(n, m))
  }

  /** p is a call that has arrived and not returned. */
  predicate Carries(p: PC) {
    Trips(p) || p.Link? || p.Recheck? || p.Cancel? || p.Wait? || p.Return?
  }

  /** The call is the (k-1)-th of round g, and nothing was returned to it yet. */
  ghost predicate Placed(n: int, m: Memory, t: Tid, p: PC)
    requires Carries(p)
  {
    && 0 <= p.g <= m.round && 0 < p.k <= n && p.j == p.g * n + p.k - 1
    && p.j < |m.who| && m.who[p.j] == t && p.j !in m.ret
  }

  /** What holds of a call of thread t, by where it is. */
  ghost predicate CallOk(n: int, m: Memory, t: Tid, p: PC) {
    && !p.Over?
    && (p.Arrive? ==> p.g == m.gen == m.round && !m.tripping)
    && (p.Reset? ==> m.gen == m.round && m.arrived == n)
    && (p.Advance? ==> m.gen == m.round && m.arrived == 0)
    && (p.WakePop? || p.WakeCheck? || p.WakeSend? ==> m.gen == m.round + 1 && m.arrived == 0)
    && (Trips(p) ==> m.tripping && p.g == m.round)
    && (Carries(p) ==> Placed(n, m, t, p))
    && ((p.Recheck? || p.Wait?) && p.w < |m.q.ws| && m.q.ws[p.w].place != Queued ==> p.g < m.gen)
    && (p.Cancel? || p.Return? ==> p.g < m.gen)
    && (p.Wait? && p.g < m.round && p.w < |m.q.ws| ==> m.q.ws[p.w].place != Queued)
  }

  /** An arrival has been answered with its place in a full round, or its call still runs. */
  ghost predicate Answered(n: int, m: Memory, pc: map<Tid, PC>, j: nat)
    requires j < |m.who|
  {
    if j in m.ret then exists g :: Filled(n, m, j, m.ret[j], g)
    else m.who[j] in pc && Carries(pc[m.who[j]]) && pc[m.who[j]].j == j
  }

  ghost predicate Filled(n: int, m: Memory, j: nat, i: int, g: int) {
    0 <= g && 0 <= i < n && j == g * n + i && g * n + n <= |m.who|
  }

  ghost predicate Linked(q: Queue, t: Tid, p: PC) { Books(q, t, HandOf(p), LiveOf(p)) }

  ghost predicate Safe(s: State) {
    && s.m.q.Valid() && Known(s.m.q, s.pc.Keys)
    && RoundOk(s.n, s.m, Total(s.pc, Coming), Total(s.pc, TripWeight))
    && (forall t {:trigger Linked(s.m.q, t, s.pc[t])} :: t in s.pc ==> Linked(s.m.q, t, s.pc[t]))
    && (forall t {:trigger CallOk(s.n, s.m, t, s.pc[t])} :: t in s.pc ==> CallOk(s.n, s.m, t, s.pc[t]))
    && (forall j {:trigger Answered(s.n, s.m, s.pc, j)} :: 0 <= j < |s.m.who| ==> Answered(s.n, s.m, s.pc, j))
    && (forall j :: j in s.m.ret ==> j < |s.m.who|)
  }

  lemma InitSafe(n: int, threads: set<Tid>)
    requires 0 < n
    ensures Safe(Init(n, threads))
  {
    TotalZero(Init(n, threads).pc, Coming);
    TotalZero(Init(n, threads).pc, TripWeight);
  }

  lemma SafeThread(s: State, t: Tid)
    requires Safe(s) && t in s.pc
    ensures Enabled(s, t) && Linked(s.m.q, t, s.pc[t]) && CallOk(s.n, s.m, t, s.pc[t])
  {
    hide Known, RoundOk, Answered;
    assert Linked(s.m.q, t, s.pc[t]) && CallOk(s.n, s.m, t, s.pc[t]);
    BooksInRange(s.m.q, t, HandOf(s.pc[t]), LiveOf(s.pc[t]));
  }

  lemma DoLinked(n: int, m: Memory, t: Tid, p: PC, a: Action)
    requires m.q.Valid() && Linked(m.q, t, p) && Typed(p, |m.q.ws|)
    ensures var (m', p') := Do(n, m, t, p, a);
            m'.q.Valid() && Evolves(m.q, m'.q, t) && Linked(m'.q, t, p')
  {
    hide Books, Evolves, Queue.Valid;
    var q, hand, live := m.q, HandOf(p), LiveOf(p);
    SameBooks(q, t);
    if p.Link? {
      LinkBooks(q, t, hand, live);
      assert live + {|q.ws|} == {|q.ws|};
    } else if p.Cancel? {
      CancelBooks(q, t, hand, live, p.w);
      assert live - {p.w} == {};
    } else if p.Wait? && q.ws[p.w].token {
      ReceiveBooks(q, t, hand, live, p.w);
      assert live - {p.w} == {};
    } else if p.WakePop? && !q.Empty() {
      PopBooks(q, t, hand, live);
      assert hand + {q.head} == {q.head};
    } else if p.WakeCheck? && q.ws[p.w].cancelled {
      DiscardBooks(q, t, hand, live, p.w);
      assert hand - {p.w} == {};
    } else if p.WakeSend? {
      SendBooks(q, t, hand, live, p.w);
      assert hand - {p.w} == {};
    }
  }

  lemma Distribute(n: int, g: int)
    ensures (g + 1) * n == g * n + n
  {
  }

  /** A step keeps the round accounting. */
  lemma DoRound(n: int, m: Memory, t: Tid, p: PC, a: Action, c: int, r: int)
    requires Typed(p, |m.q.ws|) && CallOk(n, m, t, p) && RoundOk(n, m, c, r) && Coming(p) <= c && TripWeight(p) <= r
    ensures var (m', p') := Do(n, m, t, p, a);
            RoundOk(n, m', c - Coming(p) + Coming(p'), r - TripWeight(p) + TripWeight(p'))
  {
    Distribute(n, m.round);
  }

  predicate Arriving(p: PC) { p.Idle? || p.LoadGen? || p.Arrive? || p.Over? || p.Return? }

  lemma ArrivingCall(n: int, m: Memory, t: Tid, p: PC, a: Action, c: int, r: int)
    requires Arriving(p) && CallOk(n, m, t, p) && RoundOk(n, m, c, r) && Coming(p) <= c
    requires forall j :: j in m.ret ==> j < |m.who|
    ensures var (m', p') := Do(n, m, t, p, a); CallOk(n, m', t, p')
  {
    hide Queue.Valid;
  }

  lemma TrippingCall(n: int, m: Memory, t: Tid, p: PC, a: Action)
    requires Trips(p) && Typed(p, |m.q.ws|) && CallOk(n, m, t, p)
    ensures var (m', p') := Do(n, m, t, p, a); CallOk(n, m', t, p')
  {
    hide Queue.Valid;
  }

  lemma WaitingCall(n: int, m: Memory, t: Tid, p: PC, a: Action, c: int, r: int)
    requires p.Link? || p.Recheck? || p.Cancel? || p.Wait?
    requires Typed(p, |m.q.ws|) && (p.Recheck? ==> p.w < |m.q.ws|) && (p.Wait? ==> Own(m.q, t, p.w, false))
    requires m.q.Valid() && CallOk(n, m, t, p) && RoundOk(n, m, c, r)
    ensures var (m', p') := Do(n, m, t, p, a); CallOk(n, m', t, p')
  {
  }

  /** A step of thread t keeps the condition of the call of another thread u. */
  lemma OthersCall(n: int, m: Memory, t: Tid, p: PC, a: Action, u: Tid, v: PC, c: int, r: int)
    requires u != t && m.q.Valid() && Typed(p, |m.q.ws|) && Linked(m.q, t, p)
    requires forall w :: w in LiveOf(v) ==> w < |m.q.ws|
    requires CallOk(n, m, t, p) && CallOk(n, m, u, v) && RoundOk(n, m, c, r)
    requires Coming(p) + Coming(v) <= c && TripWeight(p) + TripWeight(v) <= r
    ensures var (m', p') := Do(n, m, t, p, a); CallOk(n, m', u, v)
  {
    hide Books;
    Distribute(n, m.round);
    assert p.WakeCheck? || p.WakeSend? ==> m.q.ws[p.w].place == Hand(t) by {
      if p.WakeCheck? || p.WakeSend? { InHand(m.q, t, HandOf(p), LiveOf(p), p.w); }
    }
    if v.Recheck? || v.Wait? { assert v.w in LiveOf(v); }
  }

  /** A step keeps every answer that was right. */
  lemma DoAnswered(s: State, t: Tid, a: Action, j: nat)
    requires Safe(s) && t in s.pc && Enabled(s, t)
    requires j < |Step(s, t, a).m.who|
    ensures var s' := Step(s, t, a); Answered(s'.n, s'.m, s'.pc, j)
  {
    hide Books, Known, Queue.Valid, Linked;
    var s', p := Step(s, t, a), s.pc[t];
    SafeThread(s, t);
    if j < |s.m.who| {
      assert Answered(s.n, s.m, s.pc, j);
      if j in s.m.ret {
        var g :| Filled(s.n, s.m, j, s.m.ret[j], g);
        assert j in s'.m.ret && s'.m.ret[j] == s.m.ret[j];
        assert Filled(s'.n, s'.m, j, s'.m.ret[j], g);
      } else if p.Return? && p.j == j {
        FullRound(s.n, s.m, p.g, Total(s.pc, Coming), Total(s.pc, TripWeight));
        assert Filled(s'.n, s'.m, j, s'.m.ret[j], p.g);
      }
    } else {
      assert p.Arrive?;
      TotalNonNegative(s.pc, Coming);
    }
  }

  /** Every round below the generation has all its arrivals. */
  lemma FullRound(n: int, m: Memory, g: int, c: int, r: int)
    requires RoundOk(n, m, c, r) && 0 <= g < m.gen && g <= m.round
    ensures g * n + n <= |m.who|
  {
    Distribute(n, g);
    if g < m.round { Scale(g + 1, m.round, n); }
  }

  lemma Scale(x: int, y: int, n: int)
    requires x <= y && 0 <= n
    ensures x * n <= y * n
  {
  }

  lemma StepCalls(s: State, t: Tid, a: Action, u: Tid)
    requires Safe(s) && t in s.pc && u in s.pc
    ensures var s' := Step(s, t, a); CallOk(s'.n, s'.m, u, s'.pc[u])
  {
    hide Books, Known, Answered, CallOk, RoundOk, Do;
    var p, v, c, r := s.pc[t], s.pc[u], Total(s.pc, Coming), Total(s.pc, TripWeight);
    SafeThread(s, t);
    SafeThread(s, u);
    BooksInRange(s.m.q, u, HandOf(v), LiveOf(v));
    TotalNonNegative(s.pc, Coming);
    if u != t {
      TotalCoversTwo(s.pc, Coming, t, u);
      TotalCoversTwo(s.pc, TripWeight, t, u);
      OthersCall(s.n, s.m, t, p, a, u, v, c, r);
    } else if Arriving(p) {
      ArrivingCall(s.n, s.m, t, p, a, c, r);
    } else if Trips(p) {
      TrippingCall(s.n, s.m, t, p, a);
    } else {
      assert p.Recheck? || p.Cancel? || p.Wait? ==> p.w in LiveOf(p);
      assert p.Wait? ==> Own(s.m.q, t, p.w, false) by { OwnOf(s.m.q, t, p); }
      WaitingCall(s.n, s.m, t, p, a, c, r);
    }
  }

  lemma OwnOf(q: Queue, t: Tid, p: PC)
    requires Linked(q, t, p)
    ensures forall w :: w in LiveOf(p) ==> Own(q, t, w, false)
  {
    forall w | w in LiveOf(p) ensures Own(q, t, w, false) { assert Own(q, t, w, w in {}); }
  }

  lemma {:induction false} StepAccounts(s: State, t: Tid, a: Action)
    requires Safe(s) && t in s.pc && Enabled(s, t)
    ensures var s' := Step(s, t, a); RoundOk(s'.n, s'.m, Total(s'.pc, Coming), Total(s'.pc, TripWeight))
  {
    hide Linked, Known, Answered, CallOk, RoundOk, Queue.Valid, Do;
    var s', p := Step(s, t, a), s.pc[t];
    SafeThread(s, t);
    TotalNonNegative(s.pc, Coming);
    TotalNonNegative(s.pc, TripWeight);
    TotalUpdate(s.pc, Coming, t, s'.pc[t]);
    TotalUpdate(s.pc, TripWeight, t, s'.pc[t]);
    DoRound(s.n, s.m, t, p, a, Total(s.pc, Coming), Total(s.pc, TripWeight));
  }

  /** Every step of every thread keeps the invariant. */
  lemma StepSafe(s: State, t: Tid, a: Action)
    requires Safe(s)
    ensures Safe(Step(s, t, a))
  {
    hide Books, Known, Evolves, Answered, CallOk, RoundOk, Queue.Valid, Do;
    if t in s.pc {
      var s', p := Step(s, t, a), s.pc[t];
      SafeThread(s, t);
      DoLinked(s.n, s.m, t, p, a);
      assert s'.pc.Keys == s.pc.Keys;
      KnownEvolves(s.m.q, s'.m.q, t, s.pc.Keys);
      StepAccounts(s, t, a);
      forall u | u in s'.pc ensures Linked(s'.m.q, u, s'.pc[u]) {
        if u != t { SafeThread(s, u); OthersBooks(s.m.q, s'.m.q, t, u, HandOf(s.pc[u]), LiveOf(s.pc[u])); }
      }
      forall u | u in s'.pc ensures CallOk(s'.n, s'.m, u, s'.pc[u]) { StepCalls(s, t, a, u); }
      forall j | 0 <= j < |s'.m.who| ensures Answered(s'.n, s'.m, s'.pc, j) { DoAnswered(s, t, a, j); }
      StepKeys(s, t, a);
    }
  }

  lemma StepKeys(s: State, t: Tid, a: Action)
    requires Safe(s) && t in s.pc && Enabled(s, t)
    ensures var s' := Step(s, t, a); forall j :: j in s'.m.ret ==> j < |s'.m.who|
  {
    hide Books, Known, RoundOk, Answered, Queue.Valid;
    SafeThread(s, t);
  }

  lemma {:induction false} ExecSafe(n: int, threads: set<Tid>, run: seq<Event>)
    requires 0 < n
    ensures Safe(Exec(n, threads, run)) && Exec(n, threads, run).n == n
    ensures Exec(n, threads, run).pc.Keys == threads
  {
    hide Safe, Do;
    if run == [] {
      InitSafe(n, threads);
    } else {
      var k := |run| - 1;
      ExecSafe(n, threads, run[..k]);
      StepSafe(Exec(n, threads, run[..k]), run[k].0, run[k].1);
    }
  }

  // ---- Theorems ----------------------------------------------------------

  /**
   Nobody returns before all parties of its round have arrived, whether it was
   the last one, was woken, or found the generation advanced; and no call runs
   into the over-subscription guard.
   */
  lemma {:induction false} ReturnsAfterAll(n: int, threads: set<Tid>, run: seq<Event>, t: Tid)
    requires 0 < n && t in Exec(n, threads, run).pc
    ensures var s := Exec(n, threads, run);
            && !s.pc[t].Over?
            && (s.pc[t].Return? ==>
                  var p := s.pc[t];
                  && 0 <= p.g && p.g * n <= p.j < p.g * n + n <= |s.m.who|
                  && s.m.who[p.j] == t && p.k - 1 == p.j - p.g * n)
  {
    hide Books, Known, Answered, Queue.Valid, Do;
    ExecSafe(n, threads, run);
    var s := Exec(n, threads, run);
    SafeThread(s, t);
    if s.pc[t].Return? { FullRound(n, s.m, s.pc[t].g, Total(s.pc, Coming), Total(s.pc, TripWeight)); }
  }

  /** The answers given to the n arrivals of a round are 0, 1, ..., n - 1, each to one of them. */
  lemma {:induction false} IndicesOfRound(n: int, threads: set<Tid>, run: seq<Event>, r: nat, i: nat)
    requires 0 < n && i < n
    ensures var m := Exec(n, threads, run).m;
            r * n + i in m.ret ==> m.ret[r * n + i] == i && r * n + n <= |m.who|
  {
    hide Books, Known, Queue.Valid, Do, CallOk, RoundOk;
    ExecSafe(n, threads, run);
    var s := Exec(n, threads, run);
    var j := r * n + i;
    if j in s.m.ret {
      assert Answered(n, s.m, s.pc, j);
      var g :| Filled(n, s.m, j, s.m.ret[j], g);
      SameRound(n, r, i, g, s.m.ret[j]);
    }
  }

  lemma SameRound(n: int, r: int, i: int, g: int, k: int)
    requires 0 <= i < n && 0 <= k < n && r * n + i == g * n + k
    ensures r == g && i == k
  {
    if r < g { Scale(r + 1, g, n); Distribute(n, r); }
    if g < r { Scale(g + 1, r, n); Distribute(n, g); }
  }

  /** No thread can take a step: each is outside Wait or parked on its channel. */
  ghost predicate Quiescent(s: State) {
    forall t :: t in s.pc ==> s.pc[t].Idle? || Parked(s, t)
  }

  ghost predicate Parked(s: State, t: Tid) {
    t in s.pc && s.pc[t].Wait? && s.pc[t].w < |s.m.q.ws| && !s.m.q.ws[s.pc[t].w].token
  }

  /** A parked thread of a quiescent state still has its waiter in the queue. */
  lemma ParkedIsQueued(s: State, t: Tid)
    requires Safe(s) && Quiescent(s) && Parked(s, t)
    ensures s.m.q.ws[s.pc[t].w].place == Queued
  {
    hide Answered, CallOk, RoundOk;
    var q, w := s.m.q, s.pc[t].w;
    SafeThread(s, t);
    OwnOf(q, t, s.pc[t]);
    assert w in LiveOf(s.pc[t]);
    assert Own(q, t, w, false);
    if q.ws[w].place.Hand? {
      var x := q.ws[w].place.popper;
      SafeThread(s, x);
      assert false;
    }
  }

  /**
   Nobody is left parked: when nothing can move, the calls of the current round
   are fewer than n, the parked threads are among them, and each arrival of an
   earlier round has been answered.
   */
  lemma {:induction false} NobodyLeftParked(n: int, threads: set<Tid>, run: seq<Event>)
    requires 0 < n && Quiescent(Exec(n, threads, run))
    ensures var s := Exec(n, threads, run);
            && 0 <= s.m.started < n && |s.m.who| == s.m.round * n + s.m.started
            && (forall t :: Parked(s, t) ==> s.m.round * n <= s.pc[t].j < s.m.round * n + s.m.started)
            && (forall j :: 0 <= j < s.m.round * n ==> j in s.m.ret)
  {
    hide Books, Known, Queue.Valid, Do, Answered, CallOk, RoundOk;
    ExecSafe(n, threads, run);
    var s := Exec(n, threads, run);
    QuiescentRound(s);
    forall t | Parked(s, t) ensures s.m.round * n <= s.pc[t].j < s.m.round * n + s.m.started {
      QuiescentCall(s, t);
    }
    forall j | 0 <= j < s.m.round * n ensures j in s.m.ret { QuiescentAnswer(s, j); }
  }

  lemma QuiescentRound(s: State)
    requires Safe(s) && Quiescent(s)
    ensures 0 <= s.m.started < s.n && |s.m.who| == s.m.round * s.n + s.m.started
  {
    hide Books, Known, Queue.Valid, CallOk, Answered;
    TotalZero(s.pc, Coming);
    TotalZero(s.pc, TripWeight);
  }

  lemma QuiescentCall(s: State, t: Tid)
    requires Safe(s) && Quiescent(s) && Parked(s, t)
    ensures s.pc[t].g == s.m.round && s.m.round * s.n <= s.pc[t].j < |s.m.who|
  {
    hide Books, Known, Queue.Valid, RoundOk, Answered;
    SafeThread(s, t);
    ParkedIsQueued(s, t);
  }

  lemma QuiescentAnswer(s: State, j: nat)
    requires Safe(s) && Quiescent(s) && j < s.m.round * s.n && s.m.round * s.n <= |s.m.who|
    ensures j in s.m.ret
  {
    hide Books, Known, Queue.Valid, RoundOk, CallOk;
    assert Answered(s.n, s.m, s.pc, j);
    if j !in s.m.ret { QuiescentCall(s, s.m.who[j]); }
  }

  // ---- A thread on its own -----------------------------------------------

  /** The thread is outside a call or parked without a token. */
  predicate Rests(s: State, t: Tid) {
    t in s.pc && (s.pc[t].Idle? || s.pc[t].Over? || (s.pc[t].Wait? && s.pc[t].w < |s.m.q.ws| && !s.m.q.ws[s.pc[t].w].token))
  }

  /** A thread can move unless it rests. */
  lemma MovesExactly(s: State, t: Tid)
    requires Enabled(s, t)
    ensures Step(s, t, Run) == s <==> Rests(s, t)
  {
    assert s.pc == s.pc[t := s.pc[t]];
    if Step(s, t, Run) == s { assert Step(s, t, Run).pc[t] == s.pc[t]; }
  }

  /** The state after k steps of t alone. */
  ghost function Alone(s: State, t: Tid, k: nat): State
    decreases k
  {
    if k == 0 then s else Alone(Step(s, t, Run), t, k - 1)
  }

  lemma {:induction false} AloneAdds(s: State, t: Tid, a: nat, b: nat)
    ensures Alone(Alone(s, t, a), t, b) == Alone(s, t, a + b)
    decreases a
  {
    hide Step;
    if a == 0 {
      assert Alone(s, t, a) == s;
    } else {
      AloneAdds(Step(s, t, Run), t, a - 1, b);
    }
  }

  lemma AloneFew(s: State, t: Tid)
    ensures Alone(s, t, 1) == Step(s, t, Run)
    ensures Alone(s, t, 2) == Step(Step(s, t, Run), t, Run)
    ensures Alone(s, t, 3) == Step(Step(Step(s, t, Run), t, Run), t, Run)
  {
    hide Step;
    var s1 := Step(s, t, Run);
    var s2 := Step(s1, t, Run);
    assert Alone(s, t, 1) == Alone(s1, t, 0);
    assert Alone(s, t, 2) == Alone(s1, t, 1) == Alone(s2, t, 0);
    assert Alone(s, t, 3) == Alone(s1, t, 2) == Alone(s2, t, 1) == Alone(Step(s2, t, Run), t, 0);
  }

  /** The next turn of wakeAll passes over a cancelled waiter, */
  lemma WakeSkips(s: State, t: Tid)
    requires t in s.pc && s.pc[t].WakePop? && !s.m.q.Empty() && s.m.q.ws[s.m.q.head].cancelled
    ensures Alone(s, t, 2) == s.(m := s.m.(q := FirstDropped(s.m.q, t)))
  {
    hide Alone;
    AloneFew(s, t);
    var s1, p := Step(s, t, Run), s.pc[t];
    assert s1 == s.(m := s.m.(q := s.m.q.Pop(t)), pc := s.pc[t := WakeCheck(p.g, p.j, p.k, s.m.q.head)]);
    assert s.pc[t := p] == s.pc;
  }

  /** serves a live one, */
  lemma WakeServes(s: State, t: Tid)
    requires t in s.pc && s.pc[t].WakePop? && !s.m.q.Empty() && !s.m.q.ws[s.m.q.head].cancelled
    ensures Alone(s, t, 3) == s.(m := s.m.(q := FirstServed(s.m.q, t)))
  {
    hide Alone;
    AloneFew(s, t);
    var s1, p := Step(s, t, Run), s.pc[t];
    assert s1 == s.(m := s.m.(q := s.m.q.Pop(t)), pc := s.pc[t := WakeCheck(p.g, p.j, p.k, s.m.q.head)]);
    var s2 := Step(s1, t, Run);
    assert s2 == s1.(pc := s.pc[t := WakeSend(p.g, p.j, p.k, s.m.q.head)]);
    assert s.pc[t := p] == s.pc;
  }

  /** and returns when there is nobody left. */
  lemma WakeEnds(s: State, t: Tid)
    requires t in s.pc && s.pc[t].WakePop? && s.m.q.Empty()
    ensures var p := s.pc[t];
            Alone(s, t, 2) == s.(m := s.m.(tripping := false, started := 0, round := s.m.round + 1, ret := s.m.ret[p.j := p.k - 1]),
                                 pc := s.pc[t := Idle])
  {
    hide Alone;
    AloneFew(s, t);
    var s1, p := Step(s, t, Run), s.pc[t];
    assert s1 == s.(m := s.m.(tripping := false, started := 0, round := s.m.round + 1), pc := s.pc[t := Return(p.g, p.j, p.k)]);
  }

  lemma {:induction false} WakesMany(s: State, t: Tid, many: int) returns (n: nat)
    requires t in s.pc && s.pc[t].WakePop? && s.m.q.Valid() && many >= |s.m.q.ws| - s.m.q.head
    ensures var s', p := Alone(s, t, n), s.pc[t];
            && s'.pc == s.pc[t := Idle] && Woken(s.m.q, s'.m.q, many) && s'.m.ret == s.m.ret[p.j := p.k - 1]
            && s'.m.gen == s.m.gen && s'.m.arrived == s.m.arrived && s'.m.round == s.m.round + 1
    decreases |s.m.q.ws| - s.m.q.head
  {
    hide Step, Alone, Woken, FirstDropped, FirstServed, Queue.Valid;
    var q := s.m.q;
    if q.Empty() {
      WakeEnds(s, t);
      n := 2;
      WokenNone(q, many);
    } else if q.ws[q.head].cancelled {
      WakeSkips(s, t);
      DroppedOut(q, t);
      n := WakesMany(Alone(s, t, 2), t, many);
      AloneAdds(s, t, 2, n);
      n := 2 + n;
      WokenSkip(q, FirstDropped(q, t), Alone(s, t, n).m.q, many);
    } else {
      WakeServes(s, t);
      ServedOut(q, t);
      n := WakesMany(Alone(s, t, 3), t, many - 1);
      AloneAdds(s, t, 3, n);
      n := 3 + n;
      WokenFirst(q, FirstServed(q, t), Alone(s, t, n).m.q, many);
    }
  }

  lemma TripSteps(s: State, t: Tid)
    requires t in s.pc && s.pc[t].Reset?
    ensures var p := s.pc[t];
            Alone(s, t, 2) == s.(m := s.m.(arrived := 0, gen := s.m.gen + 1), pc := s.pc[t := WakePop(p.g, p.j, p.k)])
  {
    hide Alone;
    AloneFew(s, t);
    var s1, p := Step(s, t, Run), s.pc[t];
    assert s1 == s.(m := s.m.(arrived := 0), pc := s.pc[t := Advance(p.g, p.j, p.k)]);
  }

  /** An undisturbed last arrival opens the next generation, gives a token to every waiter that is parked or about to park
      and to nobody else, and returns its own index. */
  lemma {:induction false} TripAlone(s: State, t: Tid) returns (n: nat)
    requires t in s.pc && s.pc[t].Reset? && s.m.q.Valid()
    ensures var s', p := Alone(s, t, n), s.pc[t];
            && s'.pc == s.pc[t := Idle] && AllWoken(s.m.q, s'.m.q) && s'.m.ret == s.m.ret[p.j := p.k - 1]
            && s'.m.gen == s.m.gen + 1 && s'.m.arrived == 0 && s'.m.round == s.m.round + 1
  {
    hide Step, Alone, Woken, AllWoken, Queue.Valid;
    TripSteps(s, t);
    var s1 := Alone(s, t, 2);
    n := WakesMany(s1, t, |s.m.q.ws|);
    AloneAdds(s, t, 2, n);
    n := 2 + n;
    assert s1.pc[t := Idle] == s.pc[t := Idle];
    WokenAll(s.m.q, Alone(s, t, n).m.q, |s.m.q.ws|);
  }
}
