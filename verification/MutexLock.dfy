/**
 Mutex (condvar.go, lines 14-157) as a machine over any finite set of
 goroutines.  One step is one atomic operation on shared memory, so a run is
 any interleaving of Lock, LockContext, TryLock and Unlock calls.
 */
module MutexLock {
  import opened Threads
  import opened WaitQueue

  datatype PC =
    | Idle
    | Holding
    | LockCas               // fast path
    | LockEnqueue
    | LockRecheck(w: nat)   // second compare-and-swap, after the enqueue
    | LockCancel(w: nat)    // acquired there, `cancelled` not stored yet
    | LockWait(w: nat)
    | UnlockLoad
    | UnlockStore
    | Dequeue
    | SawEmpty              // Dequeue has seen an empty queue and not re-read the head yet
    | DequeueCheck(w: nat)  // popped, `cancelled` not read yet
    | Signal(w: nat)

  /** What the environment lets a thread do next. */
  datatype Action =
    | CallLock
    | CallTryLock
    | CallUnlock
    | Run
    | Retry                 // the head that Dequeue has read is out of date
    | GiveUp                // ctx.Done() in LockContext

  /** Shared memory: the state word, the waiter queue, and whether a panic ended the process. */
  datatype Memory = Memory(word: int, q: Queue, crashed: bool)

  datatype State = State(m: Memory, pc: map<Tid, PC>)

  function Init(threads: set<Tid>): State {
    State(Memory(0, EMPTY, false), map t | t in threads :: Idle)
  }

  /** The waiter that an unlocking thread at p has popped. */
  function HandOf(p: PC): set<nat> {
    match p
    case DequeueCheck(w) => {w}
    case Signal(w) => {w}
    case _ => {}
  }

  /** The waiter that a locking thread at p has enqueued and not settled. */
  function LiveOf(p: PC): set<nat> {
    match p
    case LockRecheck(w) => {w}
    case LockCancel(w) => {w}
    case LockWait(w) => {w}
    case _ => {}
  }

  /** The waiter that p refers to exists. */
  predicate Typed(p: PC, n: nat) {
    match p
    case LockRecheck(w) => w < n
    case LockCancel(w) => w < n
    case LockWait(w) => w < n
    case DequeueCheck(w) => w < n
    case Signal(w) => w < n
    case _ => true
  }

  /** One atomic operation of thread t at p: the new memory and where t is then.
      An action that does not fit changes nothing. */
  function Do(m: Memory, t: Tid, p: PC, a: Action): (Memory, PC)
    requires Typed(p, |m.q.ws|)
  {
    match p
    case Idle =>
      if a == CallLock then (m, LockCas)
      else if a == CallTryLock && m.word == 0 then (m.(word := 1), Holding)
      else (m, p)
    case Holding => if a == CallUnlock then (m, UnlockLoad) else (m, p)
    case LockCas => if m.word == 0 then (m.(word := 1), Holding) else (m, LockEnqueue)
    case LockEnqueue =>
      if a == GiveUp then (m, Idle) else (m.(q := m.q.Link(t)), LockRecheck(|m.q.ws|))
    case LockRecheck(w) =>
      if m.word == 0 then (m.(word := 1), LockCancel(w)) else (m, LockWait(w))
    case LockCancel(w) => (m.(q := m.q.Cancel(w)), Holding)
    case LockWait(w) =>
      if a == GiveUp then (m.(q := m.q.Cancel(w)), Idle)
      else if m.q.ws[w].token then (m.(q := m.q.Receive(w)), LockCas)
      else (m, p)
    case UnlockLoad => if m.word != 1 then (m.(crashed := true), p) else (m, UnlockStore)
    case UnlockStore => (m.(word := 0), Dequeue)
    case Dequeue =>
      if m.q.Empty() then (m, SawEmpty) else (m.(q := m.q.Pop(t)), DequeueCheck(m.q.head))
    case SawEmpty => if a == Retry then (m, Dequeue) else (m, Idle)
    case DequeueCheck(w) =>
      if m.q.ws[w].cancelled then (m.(q := m.q.Discard(w)), Dequeue) else (m, Signal(w))
    case Signal(w) => (m.(q := m.q.Send(w)), Idle)
  }

  predicate Enabled(s: State, t: Tid) {
    !s.m.crashed && t in s.pc && Typed(s.pc[t], |s.m.q.ws|)
  }

  function Step(s: State, t: Tid, a: Action): State {
    if Enabled(s, t) then
      var (m, p) := Do(s.m, t, s.pc[t], a);
      State(m, s.pc[t := p])
    else s
  }

  type Event = (Tid, Action)

  /** The state after a run, oldest event first. */
  ghost function Exec(threads: set<Tid>, run: seq<Event>): State {
    if run == [] then Init(threads)
    else Step(Exec(threads, run[..|run| - 1]), run[|run| - 1].0, run[|run| - 1].1)
  }

  // ---- Safety ------------------------------------------------------------

  predicate Holds(p: PC) {
    p.Holding? || p.LockCancel? || p.UnlockLoad? || p.UnlockStore?
  }

  function HoldWeight(p: PC): int { if Holds(p) then 1 else 0 }

  ghost predicate Exclusive(s: State) {
    && s.m.word == Total(s.pc, HoldWeight)
    && 0 <= s.m.word <= 1
    && !s.m.crashed
  }

  ghost predicate Linked(q: Queue, t: Tid, p: PC) {
    Books(q, t, HandOf(p), LiveOf(p))
  }

  ghost predicate Safe(s: State) {
    && s.m.q.Valid() && Exclusive(s) && Known(s.m.q, s.pc.Keys)
    && forall t {:trigger Linked(s.m.q, t, s.pc[t])} :: t in s.pc ==> Linked(s.m.q, t, s.pc[t])
  }

  lemma InitSafe(threads: set<Tid>)
    ensures Safe(Init(threads))
  {
    TotalZero(Init(threads).pc, HoldWeight);
  }

  lemma SafeThread(s: State, t: Tid)
    requires Safe(s) && t in s.pc
    ensures Enabled(s, t) && Linked(s.m.q, t, s.pc[t])
  {
    assert Linked(s.m.q, t, s.pc[t]);
    BooksInRange(s.m.q, t, HandOf(s.pc[t]), LiveOf(s.pc[t]));
  }

  /** A step keeps the books of the stepping thread, and changes records only as Evolves allows. */
  lemma DoLinked(m: Memory, t: Tid, p: PC, a: Action)
    requires m.q.Valid() && Linked(m.q, t, p) && Typed(p, |m.q.ws|)
    ensures var (m', p') := Do(m, t, p, a);
            m'.q.Valid() && Evolves(m.q, m'.q, t) && Linked(m'.q, t, p')
  {
    hide Books, Evolves, Queue.Valid;
    var q, hand, live := m.q, HandOf(p), LiveOf(p);
    SameBooks(q, t);
    match p
    case LockEnqueue =>
      LinkBooks(q, t, hand, live);
      assert live + {|q.ws|} == {|q.ws|};
    case LockCancel(w) =>
      CancelBooks(q, t, hand, live, w);
      assert live - {w} == {};
    case LockWait(w) =>
      assert live - {w} == {};
      if a == GiveUp {
        CancelBooks(q, t, hand, live, w);
      } else if q.ws[w].token {
        ReceiveBooks(q, t, hand, live, w);
      }
    case Dequeue =>
      if !q.Empty() {
        PopBooks(q, t, hand, live);
        assert hand + {q.head} == {q.head};
      }
    case DequeueCheck(w) =>
      assert hand - {w} == {};
      if q.ws[w].cancelled { DiscardBooks(q, t, hand, live, w); }
    case Signal(w) =>
      assert hand - {w} == {};
      SendBooks(q, t, hand, live, w);
    case _ =>
  }

  /** The word changes by exactly what the stepping thread gains or gives back. */
  lemma DoWord(m: Memory, t: Tid, p: PC, a: Action)
    requires Typed(p, |m.q.ws|) && !m.crashed && HoldWeight(p) <= m.word <= 1
    ensures var (m', p') := Do(m, t, p, a);
            && m'.word == m.word - HoldWeight(p) + HoldWeight(p')
            && 0 <= m'.word <= 1 && !m'.crashed
  {
  }

  lemma StepExclusive(s: State, t: Tid, a: Action)
    requires Exclusive(s) && Enabled(s, t)
    ensures Exclusive(Step(s, t, a))
  {
    TotalNonNegative(s.pc, HoldWeight);
    DoWord(s.m, t, s.pc[t], a);
    hide Do;
    TotalUpdate(s.pc, HoldWeight, t, Step(s, t, a).pc[t]);
  }

  lemma StepSafe(s: State, t: Tid, a: Action)
    requires Safe(s) && t in s.pc
    ensures Safe(Step(s, t, a)) && Evolves(s.m.q, Step(s, t, a).m.q, t)
  {
    hide Do, Books, Evolves, Known, Queue.Valid, Exclusive, Typed;
    SafeThread(s, t);
    DoLinked(s.m, t, s.pc[t], a);
    StepExclusive(s, t, a);
    var s' := Step(s, t, a);
    KnownEvolves(s.m.q, s'.m.q, t, s.pc.Keys);
    forall u | u in s'.pc ensures Linked(s'.m.q, u, s'.pc[u]) {
      if u != t {
        assert Linked(s.m.q, u, s.pc[u]);
        OthersBooks(s.m.q, s'.m.q, t, u, HandOf(s.pc[u]), LiveOf(s.pc[u]));
      }
    }
    assert s'.pc.Keys == s.pc.Keys;
  }

  lemma {:induction false} ExecSafe(threads: set<Tid>, run: seq<Event>)
    ensures Safe(Exec(threads, run)) && Exec(threads, run).pc.Keys == threads
  {
    if run == [] {
      InitSafe(threads);
    } else {
      var s := Exec(threads, run[..|run| - 1]);
      ExecSafe(threads, run[..|run| - 1]);
      if run[|run| - 1].0 in s.pc {
        StepSafe(s, run[|run| - 1].0, run[|run| - 1].1);
      }
    }
  }

  /** In every run the word is 1 exactly when some thread holds the mutex, no two
      threads hold it, and the unlock panic is never reached. */
  lemma {:induction false} MutualExclusion(threads: set<Tid>, run: seq<Event>)
    ensures var s := Exec(threads, run);
            && !s.m.crashed
            && (s.m.word == 1 <==> exists t :: t in s.pc && Holds(s.pc[t]))
            && (s.m.word == 0 <==> forall t :: t in s.pc ==> !Holds(s.pc[t]))
            && (forall t, u :: t in s.pc && u in s.pc && Holds(s.pc[t]) && Holds(s.pc[u]) ==> t == u)
  {
    var s := Exec(threads, run);
    ExecSafe(threads, run);
    TotalNonNegative(s.pc, HoldWeight);
    if s.m.word == 1 {
      var t := TotalContributor(s.pc, HoldWeight);
      assert Holds(s.pc[t]);
    }
    forall t, u | t in s.pc && u in s.pc && Holds(s.pc[t]) && Holds(s.pc[u]) ensures t == u {
      if t != u {
        TotalCoversTwo(s.pc, HoldWeight, t, u);
      }
    }
  }

  // ---- Nobody is stranded ------------------------------------------------

  /** The owner of w has neither acquired nor given up. */
  ghost predicate LiveWaiter(s: State, w: nat) {
    && w < |s.m.q.ws| && s.m.q.ws[w].owner in s.pc
    && var p := s.pc[s.m.q.ws[w].owner];
       p == LockRecheck(w) || p == LockWait(w)
  }

  /** Thread u will still dequeue, signal a live waiter, or try the word again. */
  ghost predicate Useful(s: State, u: Tid) {
    u in s.pc &&
    match s.pc[u]
    case Dequeue => true
    case DequeueCheck(_) => true
    case Signal(w) => LiveWaiter(s, w)
    case LockCas => true
    case LockRecheck(_) => true
    case LockWait(w) => w < |s.m.q.ws| && s.m.q.ws[w].token
    case _ => false
  }

  ghost predicate Pending(s: State, w: nat) {
    s.m.q.Contains(w) && !s.m.q.ws[w].cancelled
  }

  /** A free mutex with an enqueued live waiter has a useful thread. */
  ghost predicate Responsible(s: State) {
    s.m.word == 0 && (exists w :: Pending(s, w)) ==> exists u :: Useful(s, u)
  }

  /** A give-up is late when the signal is already on its way to the waiter. */
  ghost predicate LateGiveUp(s: State, t: Tid, a: Action) {
    && t in s.pc && a == GiveUp && s.pc[t].LockWait? && s.pc[t].w < |s.m.q.ws|
    && var place := s.m.q.ws[s.pc[t].w].place;
       place == Signaled || (place.Hand? && place.popper in s.pc && s.pc[place.popper].Signal?)
  }

  /** While the mutex is free, a popped waiter that is not cancelled is still waiting. */
  lemma FreeMutexWaiterIsLive(s: State, w: nat)
    requires Safe(s) && s.m.word == 0 && w < |s.m.q.ws|
    requires s.m.q.ws[w].place.Hand? && !s.m.q.ws[w].cancelled
    ensures LiveWaiter(s, w)
  {
    SafeThread(s, s.m.q.ws[w].owner);
    TotalNonNegative(s.pc, HoldWeight);
  }

  /** A step of another thread leaves u useful, unless it takes the mutex. */
  lemma OthersStayUseful(s: State, t: Tid, a: Action, u: Tid)
    requires Safe(s) && t in s.pc && u != t && Useful(s, u) && !LateGiveUp(s, t, a)
    requires s.m.word == 0 && Step(s, t, a).m.word == 0
    ensures Useful(Step(s, t, a), u)
  {
    StepSafe(s, t, a);
    SafeThread(s, u);
    SafeThread(s, t);
    hide Exclusive, Known;
  }

  /** A useful thread that steps leaves some thread useful, unless it takes the mutex. */
  lemma SelfLeavesUseful(s: State, t: Tid, a: Action, w: nat) returns (v: Tid)
    requires Safe(s) && Useful(s, t) && !LateGiveUp(s, t, a)
    requires s.m.word == 0 && Step(s, t, a).m.word == 0 && Pending(Step(s, t, a), w)
    ensures Useful(Step(s, t, a), v)
  {
    SafeThread(s, t);
    v := t;
    if s.pc[t].DequeueCheck? && !s.m.q.ws[s.pc[t].w].cancelled {
      FreeMutexWaiterIsLive(s, s.pc[t].w);
    } else if s.pc[t].Signal? {
      v := s.m.q.ws[s.pc[t].w].owner;
    }
  }

  lemma StepResponsible(s: State, t: Tid, a: Action)
    requires Safe(s) && Responsible(s) && t in s.pc && !LateGiveUp(s, t, a)
    ensures Responsible(Step(s, t, a))
  {
    SafeThread(s, t);
    var s' := Step(s, t, a);
    if w :| s'.m.word == 0 && Pending(s', w) && !Useful(s', t) {
      assert s.m.word == 0 && Pending(s, w) by { hide Safe; }
      hide Do, Safe, Linked;
      var u :| Useful(s, u);
      if u == t {
        var v := SelfLeavesUseful(s, t, a, w);
      } else {
        OthersStayUseful(s, t, a, u);
      }
    }
  }

  /** No event of the run drops a signal that is already on its way. */
  ghost predicate NoLateGiveUp(threads: set<Tid>, run: seq<Event>) {
    forall i {:trigger run[i]} :: 0 <= i < |run| ==>
      !LateGiveUp(Exec(threads, run[..i]), run[i].0, run[i].1)
  }

  lemma {:induction false} ExecResponsible(threads: set<Tid>, run: seq<Event>)
    requires NoLateGiveUp(threads, run)
    ensures Responsible(Exec(threads, run))
  {
    hide Do, Safe, Linked, LateGiveUp;
    if run == [] {
      assert !exists w :: Pending(Init(threads), w);
    } else {
      var k := |run| - 1;
      var before := run[..k];
      forall i | 0 <= i < k ensures !LateGiveUp(Exec(threads, before[..i]), before[i].0, before[i].1) {
        assert before[..i] == run[..i] && before[i] == run[i];
      }
      ExecResponsible(threads, before);
      ExecSafe(threads, before);
      var s := Exec(threads, before);
      if run[k].0 in s.pc {
        StepResponsible(s, run[k].0, run[k].1);
      }
    }
  }

  /** No thread can take a step on its own: each is outside a call or parked without a token. */
  ghost predicate Quiescent(s: State) {
    forall t :: t in s.pc ==>
      s.pc[t].Idle? || s.pc[t].Holding? ||
      (s.pc[t].LockWait? && s.pc[t].w < |s.m.q.ws| && !s.m.q.ws[s.pc[t].w].token)
  }

  lemma QuiescentFree(s: State, t: Tid)
    requires Safe(s) && Responsible(s) && Quiescent(s) && s.m.word == 0 && t in s.pc
    ensures s.pc[t] == Idle
  {
    TotalNonNegative(s.pc, HoldWeight);
    SafeThread(s, t);
    if s.pc[t].LockWait? {
      var x := s.m.q.ws[s.pc[t].w];
      if x.place.Hand? { SafeThread(s, x.place.popper); }
      assert Pending(s, s.pc[t].w);
      assert false;
    }
  }

  /** In every run without a late give-up, a quiescent free mutex has nobody parked. */
  lemma {:induction false} NobodyStranded(threads: set<Tid>, run: seq<Event>)
    requires NoLateGiveUp(threads, run)
    ensures var s := Exec(threads, run);
            Quiescent(s) && s.m.word == 0 ==> forall t :: t in s.pc ==> s.pc[t] == Idle
  {
    ExecSafe(threads, run);
    ExecResponsible(threads, run);
    var s := Exec(threads, run);
    if Quiescent(s) && s.m.word == 0 {
      forall t | t in s.pc ensures s.pc[t] == Idle {
        QuiescentFree(s, t);
      }
    }
  }

  /** No caller has a timer or a context that ends. */
  predicate NoGiveUp(run: seq<Event>) { forall i :: 0 <= i < |run| ==> run[i].1 != GiveUp }

  /** In particular callers of the forms without timeout or context strand nobody. */
  lemma {:induction false} PlainCallsStrandNobody(threads: set<Tid>, run: seq<Event>)
    requires NoGiveUp(run)
    ensures var s := Exec(threads, run);
            Quiescent(s) && s.m.word == 0 ==> forall t :: t in s.pc ==> s.pc[t] == Idle
  {
    hide Exec, Quiescent;
    NobodyStranded(threads, run);
  }

  // ---- A thread on its own -----------------------------------------------

  /** The thread is parked, with or without a token in its channel. */
  predicate ParkedWith(s: State, t: Tid, token: bool) {
    t in s.pc && s.pc[t].LockWait? && s.pc[t].w < |s.m.q.ws| && s.m.q.ws[s.pc[t].w].token == token
  }

  /** A thread can move unless it is outside a call or parked without a token. */
  lemma MovesExactly(s: State, t: Tid)
    requires Safe(s) && t in s.pc
    ensures Step(s, t, Run) == s <==>
            s.pc[t].Idle? || s.pc[t].Holding? || ParkedWith(s, t, false)
  {
    hide Known, Books;
    SafeThread(s, t);
    assert s.pc == s.pc[t := s.pc[t]];
    if s.pc[t].UnlockLoad? { TotalNonNegative(s.pc, HoldWeight); }
    if Step(s, t, Run) == s { assert Step(s, t, Run).pc[t] == s.pc[t]; }
  }

  /** The state after n steps of t alone. */
  ghost function Alone(s: State, t: Tid, n: nat): State
    decreases n
  {
    if n == 0 then s else Alone(Step(s, t, Run), t, n - 1)
  }

  /** TryLock succeeds exactly if the mutex is free, and leaves everything else alone. */
  lemma TryLockExactly(s: State, t: Tid)
    requires Safe(s) && t in s.pc && s.pc[t].Idle?
    ensures Step(s, t, CallTryLock) == if s.m.word == 0 then State(s.m.(word := 1), s.pc[t := Holding]) else s
  {
    hide Known, Books;
    SafeThread(s, t);
    assert s.pc == s.pc[t := s.pc[t]];
  }

  /** An undisturbed Lock of a free mutex acquires it, also when it has just been woken. */
  lemma LockAlone(s: State, t: Tid)
    requires Safe(s) && t in s.pc && s.m.word == 0
    ensures s.pc[t].Idle? ==> Alone(Step(s, t, CallLock), t, 1) == State(s.m.(word := 1), s.pc[t := Holding])
    ensures ParkedWith(s, t, true) ==>
              Alone(s, t, 2).pc == s.pc[t := Holding] && Alone(s, t, 2).m.word == 1
  {
    hide Known, Books;
    SafeThread(s, t);
    if s.pc[t].Idle? {
      var s1 := Step(s, t, CallLock);
      assert Alone(s1, t, 1) == Alone(Step(s1, t, Run), t, 0);
    } else if ParkedWith(s, t, true) {
      var s1 := Step(s, t, Run);
      assert Alone(s, t, 2) == Alone(s1, t, 1) == Alone(Step(s1, t, Run), t, 0);
    }
  }

  lemma {:induction false} AloneAdds(s: State, t: Tid, a: nat, b: nat)
    ensures Alone(Alone(s, t, a), t, b) == Alone(s, t, a + b)
    decreases a
  {
    hide Step;
    if a == 0 {
      assert Alone(s, t, a) == s;
    } else {
      AloneAdds(Step(s, t, Run), t, a - 1, b);
    }
  }

  lemma TurnSkips(s: State, t: Tid)
    requires !s.m.crashed && t in s.pc && s.pc[t].Dequeue? && !s.m.q.Empty() && s.m.q.ws[s.m.q.head].cancelled
    ensures Alone(s, t, 2) == s.(m := s.m.(q := FirstDropped(s.m.q, t)))
  {
    var s1 := Step(s, t, Run);
    assert Alone(s, t, 2) == Alone(s1, t, 1) == Alone(Step(s1, t, Run), t, 0);
    assert s.pc == s.pc[t := s.pc[t]];
  }

  lemma TurnEnds(s: State, t: Tid)
    requires !s.m.crashed && t in s.pc && s.pc[t].Dequeue? && (s.m.q.Empty() || !s.m.q.ws[s.m.q.head].cancelled)
    ensures s.m.q.Empty() ==> Alone(s, t, 2) == s.(pc := s.pc[t := Idle])
    ensures !s.m.q.Empty() ==> Alone(s, t, 3) == s.(m := s.m.(q := FirstServed(s.m.q, t)), pc := s.pc[t := Idle])
  {
    var s1 := Step(s, t, Run);
    var s2 := Step(s1, t, Run);
    assert Alone(s, t, 2) == Alone(s1, t, 1) == Alone(s2, t, 0);
    assert Alone(s, t, 3) == Alone(s1, t, 2) == Alone(s2, t, 1) == Alone(Step(s2, t, Run), t, 0);
  }

  /** An undisturbed wake-up gives a token to the first live waiter, if there is one, and to nobody else. */
  lemma {:induction false} WakesFirst(s: State, t: Tid) returns (n: nat)
    requires !s.m.crashed && t in s.pc && s.pc[t].Dequeue? && s.m.q.Valid()
    ensures var s' := Alone(s, t, n);
            s'.pc == s.pc[t := Idle] && s'.m == s.m.(q := s'.m.q) && Woken(s.m.q, s'.m.q, 1)
    decreases |s.m.q.ws| - s.m.q.head
  {
    hide Step, Alone, Woken, FirstDropped, FirstServed, Queue.Valid;
    var q := s.m.q;
    if !q.Empty() && q.ws[q.head].cancelled {
      DroppedOut(q, t);
      TurnSkips(s, t);
      var k := WakesFirst(Alone(s, t, 2), t);
      AloneAdds(s, t, 2, k);
      n := 2 + k;
      WokenSkip(q, FirstDropped(q, t), Alone(s, t, n).m.q, 1);
    } else {
      TurnEnds(s, t);
      if q.Empty() {
        n := 2;
        WokenNone(q, 1);
      } else {
        n := 3;
        ServedOut(q, t);
        WokenNone(FirstServed(q, t), 0);
        WokenFirst(q, FirstServed(q, t), FirstServed(q, t), 1);
      }
    }
  }

  /** So does an undisturbed Unlock, which frees the mutex. */
  lemma {:induction false} UnlockAlone(s: State, t: Tid) returns (n: nat)
    requires Safe(s) && t in s.pc && s.pc[t].Holding?
    ensures var s' := Alone(Step(s, t, CallUnlock), t, n);
            s'.pc == s.pc[t := Idle] && s'.m.word == 0 && Woken(s.m.q, s'.m.q, 1)
  {
    hide Known, Books, Woken;
    TotalNonNegative(s.pc, HoldWeight);
    SafeThread(s, t);
    var s1 := Step(s, t, CallUnlock);
    var s3 := Step(Step(s1, t, Run), t, Run);
    assert Alone(s1, t, 2) == Alone(Step(s1, t, Run), t, 1) == Alone(s3, t, 0);
    n := WakesFirst(s3, t);
    AloneAdds(s1, t, 2, n);
    n := n + 2;
  }

  /** A call whose context is done ends without the mutex; its waiter, if it has one, is cancelled and nobody is woken. */
  lemma GiveUpEnds(s: State, t: Tid)
    requires Enabled(s, t) && (s.pc[t].LockEnqueue? || s.pc[t].LockWait?)
    ensures var s' := Step(s, t, GiveUp);
            && s'.pc == s.pc[t := Idle]
            && s'.m == if s.pc[t].LockWait? then s.m.(q := s.m.q.Cancel(s.pc[t].w)) else s.m
  {
  }

  // ---- A late give-up does strand a waiter -------------------------------

  lemma {:induction false} ExecSnoc(threads: set<Tid>, run: seq<Event>, e: Event)
    ensures Exec(threads, run + [e]) == Step(Exec(threads, run), e.0, e.1)
  {
    assert (run + [e])[..|run|] == run;
  }

  lemma {:induction false} ExecStart()
    ensures Exec({0, 1, 2}, []) == State(Memory(0, EMPTY, false), map[0 := Idle, 1 := Idle, 2 := Idle])
  {
  }

  /** Thread 0 locks; thread 1 queues up behind it. */
  lemma {:induction false} OneQueued() returns (run: seq<Event>)
    ensures Exec({0, 1, 2}, run) ==
            State(Memory(1, Queue([Waiter(1, false, false, Queued)], 0, 0), false),
                  map[0 := Holding, 1 := LockWait(0), 2 := Idle])
  {
    hide Exec;
    var T := {0, 1, 2};
    run := [];
    ExecStart();
    ExecSnoc(T, run, (0, CallLock)); run := run + [(0, CallLock)];
    ExecSnoc(T, run, (0, Run)); run := run + [(0, Run)];
    ExecSnoc(T, run, (1, CallLock)); run := run + [(1, CallLock)];
    ExecSnoc(T, run, (1, Run)); run := run + [(1, Run)];
    ExecSnoc(T, run, (1, Run)); run := run + [(1, Run)];
    ExecSnoc(T, run, (1, Run)); run := run + [(1, Run)];
  }

  /** Then thread 2. */
  lemma {:induction false} TwoQueued() returns (run: seq<Event>)
    ensures Exec({0, 1, 2}, run) ==
            State(Memory(1, Queue([Waiter(1, false, false, Queued), Waiter(2, false, false, Queued)], 0, 0), false),
                  map[0 := Holding, 1 := LockWait(0), 2 := LockWait(1)])
  {
    hide Exec;
    var T := {0, 1, 2};
    run := OneQueued();
    ExecSnoc(T, run, (2, CallLock)); run := run + [(2, CallLock)];
    ExecSnoc(T, run, (2, Run)); run := run + [(2, Run)];
    ExecSnoc(T, run, (2, Run)); run := run + [(2, Run)];
    ExecSnoc(T, run, (2, Run)); run := run + [(2, Run)];
  }

  /** Thread 0 unlocks. */
  lemma {:induction false} Freed() returns (run: seq<Event>)
    ensures Exec({0, 1, 2}, run) ==
            State(Memory(0, Queue([Waiter(1, false, false, Queued), Waiter(2, false, false, Queued)], 0, 0), false),
                  map[0 := Dequeue, 1 := LockWait(0), 2 := LockWait(1)])
  {
    hide Exec;
    var T := {0, 1, 2};
    run := TwoQueued();
    ExecSnoc(T, run, (0, CallUnlock)); run := run + [(0, CallUnlock)];
    ExecSnoc(T, run, (0, Run)); run := run + [(0, Run)];
    ExecSnoc(T, run, (0, Run)); run := run + [(0, Run)];
  }

  /** It pops thread 1. */
  lemma {:induction false} FirstPopped() returns (run: seq<Event>)
    ensures Exec({0, 1, 2}, run) ==
            State(Memory(0, Queue([Waiter(1, false, false, Hand(0)), Waiter(2, false, false, Queued)], 1, 0), false),
                  map[0 := Signal(0), 1 := LockWait(0), 2 := LockWait(1)])
  {
    hide Exec;
    var T := {0, 1, 2};
    run := Freed();
    ExecSnoc(T, run, (0, Run)); run := run + [(0, Run)];
    ExecSnoc(T, run, (0, Run)); run := run + [(0, Run)];
  }

  /** It signals thread 1. */
  lemma {:induction false} FirstSignaled() returns (run: seq<Event>)
    ensures Exec({0, 1, 2}, run) ==
            State(Memory(0, Queue([Waiter(1, false, true, Signaled), Waiter(2, false, false, Queued)], 1, 0), false),
                  map[0 := Idle, 1 := LockWait(0), 2 := LockWait(1)])
  {
    hide Exec;
    run := FirstPopped();
    ExecSnoc({0, 1, 2}, run, (0, Run));
    run := run + [(0, Run)];
  }

  /** Thread 1's context is then done, and thread 2 waits for ever on a free mutex. */
  lemma {:induction false} LateGiveUpStrands() returns (run: seq<Event>)
    ensures Stranded(Exec({0, 1, 2}, run))
  {
    hide Exec;
    run := FirstSignaled();
    ExecSnoc({0, 1, 2}, run, (1, GiveUp));
    run := run + [(1, GiveUp)];
    assert Exec({0, 1, 2}, run).pc[2] == LockWait(1);
  }

  /** Somebody is parked on a mutex that is free, and no thread can move. */
  ghost predicate Stranded(s: State) {
    Quiescent(s) && s.m.word == 0 && exists t :: t in s.pc && s.pc[t] != Idle
  }

  /** The mutex strands nobody, in any run of the forms that callers use, exactly if none of these has a context. */
  lemma {:induction false} StrandsNobodyExactly(contexts: bool)
    ensures (forall threads, run {:induction false} :: contexts || NoGiveUp(run) ==> !Stranded(Exec(threads, run)))
            <==> !contexts
  {
    hide Exec, Stranded;
    if contexts {
      var run := LateGiveUpStrands();
    } else {
      forall threads, run | NoGiveUp(run) ensures !Stranded(Exec(threads, run)) {
        NotStranded(threads, run);
      }
    }
  }

  lemma {:induction false} NotStranded(threads: set<Tid>, run: seq<Event>)
    requires NoGiveUp(run)
    ensures !Stranded(Exec(threads, run))
  {
    hide Exec, Quiescent;
    PlainCallsStrandNobody(threads, run);
  }
}
