/**
 Semaphore (semaphore.go) as a machine over any finite set of goroutines:
 AcquireN and its timed and context forms, TryAcquireN and ReleaseN, one atomic
 operation a step.  A call whose n the code refuses with a panic or an immediate
 false does not start.
 */
module Semaphore {
  import opened Threads
  import opened WaitQueue

  const MAX_INT32: int := 0x7fff_ffff

  /** Two's-complement truncation to 32 bits. */
  function Wrap32(x: int): int { (x + 0x8000_0000) % 0x1_0000_0000 - 0x8000_0000 }

  datatype PC =
    | Idle
    // AcquireN
    | ALoad(n: int)
    | ACas(n: int, c: int)
    | ALink(n: int)
    | AReload(n: int, w: nat)
    | ARecas(n: int, w: nat, c: int)
    | ACancel(n: int, w: nat)
    | AWait(n: int, w: nat)
    // TryAcquireN
    | TLoad(n: int)
    | TCas(n: int, c: int)
    // ReleaseN, and its remaining calls of wakeOne
    | RLoad(n: int)
    | RCas(n: int, c: int)
    | Wake(i: int)
    | WakeCheck(i: int, w: nat)
    | WakeSignal(i: int, w: nat)

  datatype Action =
    | CallAcquire(k: int)
    | CallTryAcquire(k: int)
    | CallRelease(k: int)    // of units that a finished acquire obtained
    | CallStray(k: int)      // a release of units nobody has returned from acquiring
    | Run
    | GiveUp                 // timeout or ctx.Done()

  /** `acquired` and `released` count units since the start; `owed` are the units of
      finished acquires that no release has been called for. No step reads them. */
  datatype Memory = Memory(count: int, q: Queue, acquired: int, released: int, owed: int)

  datatype State = State(cap: int, m: Memory, pc: map<Tid, PC>)

  function Init(cap: int, threads: set<Tid>): State {
    State(cap, Memory(cap, EMPTY, 0, 0, 0), map t | t in threads :: Idle)
  }

  function HandOf(p: PC): set<nat> {
    if p.WakeCheck? || p.WakeSignal? then {p.w} else {}
  }

  function LiveOf(p: PC): set<nat> {
    if p.AReload? || p.ARecas? || p.ACancel? || p.AWait? then {p.w} else {}
  }

  predicate Typed(p: PC, n: nat) {
    p.WakeCheck? || p.WakeSignal? || p.ACancel? || p.AWait? ==> p.w < n
  }

  function Acquire(m: Memory, n: int): Memory {
    m.(count := m.count - n, acquired := m.acquired + n)
  }

  /** The start of a call, AcquireN and TryAcquireN. */
  function DoAcquire(cap: int, m: Memory, t: Tid, p: PC, a: Action): (Memory, PC)
    requires Typed(p, |m.q.ws|)
  {
    match p
    case Idle =>
      if a.CallAcquire? && 0 < a.k <= cap then (m, ALoad(a.k))
      else if a.CallTryAcquire? && 0 < a.k <= cap then (m, TLoad(a.k))
      else if a.CallRelease? && 0 < a.k <= MAX_INT32 && a.k <= m.owed then (m.(owed := m.owed - a.k), RLoad(a.k))
      else if a.CallStray? && 0 < a.k <= MAX_INT32 then (m, RLoad(a.k))
      else (m, p)
    case ALoad(n) => if m.count >= n then (m, ACas(n, m.count)) else (m, ALink(n))
    case ACas(n, c) =>
      if m.count == c then (Acquire(m, n).(owed := m.owed + n), Idle) else (m, ALoad(n))
    case ALink(n) =>
      if a == GiveUp then (m, Idle) else (m.(q := m.q.Link(t)), AReload(n, |m.q.ws|))
    case AReload(n, w) => if m.count >= n then (m, ARecas(n, w, m.count)) else (m, AWait(n, w))
    case ARecas(n, w, c) => if m.count == c then (Acquire(m, n), ACancel(n, w)) else (m, AWait(n, w))
    case ACancel(n, w) => (m.(q := m.q.Cancel(w), owed := m.owed + n), Idle)
    case AWait(n, w) =>
      if a == GiveUp then (m.(q := m.q.Cancel(w)), Idle)
      else if m.q.ws[w].token then (m.(q := m.q.Receive(w)), ALoad(n))
      else (m, p)
    case TLoad(n) => if m.count >= n then (m, TCas(n, m.count)) else (m, Idle)
    case TCas(n, c) =>
      if m.count == c then (Acquire(m, n).(owed := m.owed + n), Idle) else (m, TLoad(n))
    case _ => (m, p)
  }

  /** ReleaseN and wakeOne. */
  function DoRelease(cap: int, m: Memory, t: Tid, p: PC): (Memory, PC)
    requires Typed(p, |m.q.ws|)
  {
    match p
    case RLoad(n) => if Wrap32(m.count + n) > cap then (m, Idle) else (m, RCas(n, m.count))
    case RCas(n, c) =>
      if m.count == c then (m.(count := Wrap32(c + n), released := m.released + n), Wake(n)) else (m, RLoad(n))
    case Wake(i) =>
      if i <= 0 then (m, Idle)
      else if m.q.Empty() then (m, Wake(i - 1))
      else (m.(q := m.q.Pop(t)), WakeCheck(i, m.q.head))
    case WakeCheck(i, w) =>
      if m.q.ws[w].cancelled then (m.(q := m.q.Discard(w)), Wake(i)) else (m, WakeSignal(i, w))
    case WakeSignal(i, w) => (m.(q := m.q.Send(w)), Wake(i - 1))
    case _ => (m, p)
  }

  predicate Releasing(p: PC) { p.RLoad? || p.RCas? || p.Wake? || p.WakeCheck? || p.WakeSignal? }

  function Do(cap: int, m: Memory, t: Tid, p: PC, a: Action): (Memory, PC)
    requires Typed(p, |m.q.ws|)
  {
    if Releasing(p) then DoRelease(cap, m, t, p) else DoAcquire(cap, m, t, p, a)
  }

  predicate Enabled(s: State, t: Tid) { t in s.pc && Typed(s.pc[t], |s.m.q.ws|) }

  function Step(s: State, t: Tid, a: Action): State {
    if Enabled(s, t) then
      var (m, p) := Do(s.cap, s.m, t, s.pc[t], a);
      State(s.cap, m, s.pc[t := p])
    else s
  }

  type Event = (Tid, Action)

  ghost function Exec(cap: int, threads: set<Tid>, run: seq<Event>): State {
    if run == [] then Init(cap, threads)
    else Step(Exec(cap, threads, run[..|run| - 1]), run[|run| - 1].0, run[|run| - 1].1)
  }

  // ---- Conservation ------------------------------------------------------

  /** The overflow guard of ReleaseN is right exactly when count + n fits in an int32. */
  lemma GuardExact(cap: int, count: int, n: int)
    requires 0 <= count <= cap <= MAX_INT32 && 0 < n <= MAX_INT32
    ensures (Wrap32(count + n) > cap <==> count + n > cap) <==> count + n <= MAX_INT32
  {
  }

  ghost predicate LocalOk(cap: int, p: PC) {
    && (p.ALoad? || p.ACas? || p.ALink? || p.AReload? || p.ARecas? || p.ACancel? || p.AWait? || p.TLoad? || p.TCas?
        ==> 0 < p.n <= cap)
    && (p.ACas? || p.ARecas? || p.TCas? ==> p.n <= p.c)
    && (p.RLoad? ==> 0 < p.n <= MAX_INT32)
    && (p.RCas? ==> 0 < p.n && 0 <= p.c && p.c + p.n <= cap)
    && (p.WakeCheck? || p.WakeSignal? ==> p.i > 0)
  }

  ghost predicate Counts(cap: int, m: Memory) {
    0 <= m.count <= cap <= MAX_INT32 && m.count == cap - m.acquired + m.released && 0 <= m.owed
  }

  ghost predicate Linked(q: Queue, t: Tid, p: PC) { Books(q, t, HandOf(p), LiveOf(p)) }

  ghost predicate Safe(s: State) {
    && Counts(s.cap, s.m) && s.m.q.Valid() && Known(s.m.q, s.pc.Keys)
    && (forall t {:trigger LocalOk(s.cap, s.pc[t])} :: t in s.pc ==> LocalOk(s.cap, s.pc[t]))
    && (forall t {:trigger Linked(s.m.q, t, s.pc[t])} :: t in s.pc ==> Linked(s.m.q, t, s.pc[t]))
  }

  /** The sum that a release of t is about to compute is an int32. */
  predicate Fits(s: State, t: Tid) {
    t in s.pc && s.pc[t].RLoad? ==> s.m.count + s.pc[t].n <= MAX_INT32
  }

  lemma InitSafe(cap: int, threads: set<Tid>)
    requires 0 < cap <= MAX_INT32
    ensures Safe(Init(cap, threads))
  {
    assert forall t :: t in threads ==> LocalOk(cap, Idle);
  }

  lemma AcquireCounts(cap: int, m: Memory, t: Tid, p: PC, a: Action)
    requires Typed(p, |m.q.ws|) && Counts(cap, m) && LocalOk(cap, p) && !Releasing(p)
    ensures var (m', p') := DoAcquire(cap, m, t, p, a); Counts(cap, m') && LocalOk(cap, p')
  {
  }

  lemma ReleaseCounts(cap: int, m: Memory, t: Tid, p: PC)
    requires Typed(p, |m.q.ws|) && Counts(cap, m) && LocalOk(cap, p) && Releasing(p)
    requires p.RLoad? ==> m.count + p.n <= MAX_INT32
    ensures var (m', p') := DoRelease(cap, m, t, p); Counts(cap, m') && LocalOk(cap, p')
  {
  }

  lemma AcquireLinked(cap: int, m: Memory, t: Tid, p: PC, a: Action)
    requires m.q.Valid() && Linked(m.q, t, p) && Typed(p, |m.q.ws|) && !Releasing(p)
    ensures var (m', p') := DoAcquire(cap, m, t, p, a);
            m'.q.Valid() && Evolves(m.q, m'.q, t) && Linked(m'.q, t, p')
  {
    hide Books, Evolves, Queue.Valid;
    var q, hand, live := m.q, HandOf(p), LiveOf(p);
    SameBooks(q, t);
    if p.ALink? {
      LinkBooks(q, t, hand, live);
      assert live + {|q.ws|} == {|q.ws|};
    } else if p.ACancel? || (p.AWait? && a == GiveUp) {
      CancelBooks(q, t, hand, live, p.w);
      assert live - {p.w} == {};
    } else if p.AWait? && q.ws[p.w].token {
      ReceiveBooks(q, t, hand, live, p.w);
      assert live - {p.w} == {};
    }
  }

  lemma ReleaseLinked(cap: int, m: Memory, t: Tid, p: PC)
    requires m.q.Valid() && Linked(m.q, t, p) && Typed(p, |m.q.ws|) && Releasing(p)
    ensures var (m', p') := DoRelease(cap, m, t, p);
            m'.q.Valid() && Evolves(m.q, m'.q, t) && Linked(m'.q, t, p')
  {
    hide Books, Evolves, Queue.Valid, Wrap32;
    var q, hand, live := m.q, HandOf(p), LiveOf(p);
    SameBooks(q, t);
    if p.Wake? && p.i > 0 && !q.Empty() {
      PopBooks(q, t, hand, live);
      assert hand + {q.head} == {q.head};
    } else if p.WakeCheck? && q.ws[p.w].cancelled {
      DiscardBooks(q, t, hand, live, p.w);
      assert hand - {p.w} == {};
    } else if p.WakeSignal? {
      SendBooks(q, t, hand, live, p.w);
      assert hand - {p.w} == {};
    }
  }

  lemma SafeThread(s: State, t: Tid)
    requires Safe(s) && t in s.pc
    ensures Enabled(s, t) && Linked(s.m.q, t, s.pc[t]) && LocalOk(s.cap, s.pc[t])
  {
    hide Known;
    assert Linked(s.m.q, t, s.pc[t]) && LocalOk(s.cap, s.pc[t]);
    BooksInRange(s.m.q, t, HandOf(s.pc[t]), LiveOf(s.pc[t]));
  }

  /** The waiter records are in order, whatever the count. */
  ghost predicate QueueOk(s: State) {
    && s.m.q.Valid()
    && (forall t {:trigger Linked(s.m.q, t, s.pc[t])} :: t in s.pc ==> Linked(s.m.q, t, s.pc[t]))
  }

  lemma QueueThread(s: State, t: Tid)
    requires QueueOk(s) && t in s.pc
    ensures Enabled(s, t) && Linked(s.m.q, t, s.pc[t])
  {
    assert Linked(s.m.q, t, s.pc[t]);
    BooksInRange(s.m.q, t, HandOf(s.pc[t]), LiveOf(s.pc[t]));
  }

  lemma StepQueue(s: State, t: Tid, a: Action)
    requires QueueOk(s) && t in s.pc
    ensures QueueOk(Step(s, t, a)) && Evolves(s.m.q, Step(s, t, a).m.q, t)
  {
    hide DoAcquire, DoRelease, Books, Evolves, Queue.Valid, Typed;
    QueueThread(s, t);
    var s' := Step(s, t, a);
    if Releasing(s.pc[t]) { ReleaseLinked(s.cap, s.m, t, s.pc[t]); } else { AcquireLinked(s.cap, s.m, t, s.pc[t], a); }
    forall u | u in s'.pc ensures Linked(s'.m.q, u, s'.pc[u]) {
      if u != t {
        assert Linked(s.m.q, u, s.pc[u]);
        OthersBooks(s.m.q, s'.m.q, t, u, HandOf(s.pc[u]), LiveOf(s.pc[u]));
      }
    }
  }

  lemma {:induction false} ExecQueue(cap: int, threads: set<Tid>, run: seq<Event>)
    ensures QueueOk(Exec(cap, threads, run))
  {
    hide QueueOk, Do;
    if run == [] {
      InitQueue(cap, threads);
    } else {
      var k := |run| - 1;
      ExecQueue(cap, threads, run[..k]);
      var s := Exec(cap, threads, run[..k]);
      if run[k].0 in s.pc { StepQueue(s, run[k].0, run[k].1); }
    }
  }

  lemma InitQueue(cap: int, threads: set<Tid>)
    ensures QueueOk(Init(cap, threads))
  {
  }

  lemma StepSafe(s: State, t: Tid, a: Action)
    requires Safe(s) && t in s.pc && Fits(s, t)
    ensures Safe(Step(s, t, a)) && Evolves(s.m.q, Step(s, t, a).m.q, t)
  {
    hide DoAcquire, DoRelease, Linked, Evolves, Known, Queue.Valid, Counts, LocalOk, Typed;
    SafeThread(s, t);
    var s' := Step(s, t, a);
    StepQueue(s, t, a);
    if Releasing(s.pc[t]) { ReleaseCounts(s.cap, s.m, t, s.pc[t]); } else { AcquireCounts(s.cap, s.m, t, s.pc[t], a); }
    KnownEvolves(s.m.q, s'.m.q, t, s.pc.Keys);
    forall u | u in s'.pc ensures LocalOk(s'.cap, s'.pc[u]) {
      if u != t { assert LocalOk(s.cap, s.pc[u]); }
    }
    assert s'.pc.Keys == s.pc.Keys;
  }

  /** Every release of the run is of a size that cannot overflow the counter. */
  predicate Modest(cap: int, run: seq<Event>) {
    forall i :: 0 <= i < |run| && (run[i].1.CallRelease? || run[i].1.CallStray?) ==> cap + run[i].1.k <= MAX_INT32
  }

  ghost predicate Sized(s: State) {
    forall t :: t in s.pc && (s.pc[t].RLoad? || s.pc[t].RCas?) ==> s.cap + s.pc[t].n <= MAX_INT32
  }

  lemma StepSized(s: State, t: Tid, a: Action)
    requires Safe(s) && Sized(s) && t in s.pc
    requires a.CallRelease? || a.CallStray? ==> s.cap + a.k <= MAX_INT32
    ensures Fits(s, t) && Sized(Step(s, t, a))
  {
    hide Books, Known, Queue.Valid;
  }

  lemma {:induction false} ExecSized(cap: int, threads: set<Tid>, run: seq<Event>)
    requires 0 < cap <= MAX_INT32 && Modest(cap, run)
    ensures var s := Exec(cap, threads, run); Safe(s) && Sized(s) && s.cap == cap && s.pc.Keys == threads
  {
    hide Safe, Do;
    if run == [] {
      InitSafe(cap, threads);
    } else {
      var k := |run| - 1;
      ExecSized(cap, threads, run[..k]);
      var s := Exec(cap, threads, run[..k]);
      if run[k].0 in s.pc {
        StepSized(s, run[k].0, run[k].1);
        StepSafe(s, run[k].0, run[k].1);
      }
    }
  }

  /** In every run, matched or not, the count stays between 0 and the capacity and is
      the capacity minus the units acquired plus the units released. */
  lemma {:induction false} Conservation(cap: int, threads: set<Tid>, run: seq<Event>)
    requires 0 < cap <= MAX_INT32 && Modest(cap, run)
    ensures var m := Exec(cap, threads, run).m;
            0 <= m.count <= cap && m.count == cap - m.acquired + m.released
  {
    ExecSized(cap, threads, run);
  }

  /** A release that would exceed the capacity returns without touching the semaphore,
      and any other goes on to its compare-and-swap. */
  lemma OverReleaseRefused(s: State, t: Tid, a: Action)
    requires Safe(s) && t in s.pc && Fits(s, t) && s.pc[t].RLoad?
    ensures var s' := Step(s, t, a);
            && s'.m == s.m
            && s'.pc[t] == if s.m.count + s.pc[t].n > s.cap then Idle else RCas(s.pc[t].n, s.m.count)
  {
    hide Books, Known, Queue.Valid;
    SafeThread(s, t);
    GuardExact(s.cap, s.m.count, s.pc[t].n);
  }

  // ---- Matched releases --------------------------------------------------

  /** Units that a call has taken from or not yet given back to the count. */
  function Units(p: PC): int {
    if (p.ACancel? || p.RLoad? || p.RCas?) && p.n > 0 then p.n else 0
  }

  /** Every unit is in the count, owed by a caller, or inside a call. */
  ghost predicate Ledger(s: State) {
    s.m.count + s.m.owed + Total(s.pc, Units) == s.cap
  }

  lemma DoLedger(cap: int, m: Memory, t: Tid, p: PC, a: Action)
    requires Typed(p, |m.q.ws|) && Counts(cap, m) && LocalOk(cap, p) && !a.CallStray?
    requires m.count + m.owed + Units(p) <= cap
    ensures var (m', p') := Do(cap, m, t, p, a);
            m'.count + m'.owed + Units(p') == m.count + m.owed + Units(p)
  {
  }

  lemma StepLedger(s: State, t: Tid, a: Action)
    requires Safe(s) && Ledger(s) && t in s.pc && !a.CallStray?
    ensures Fits(s, t) && Ledger(Step(s, t, a))
  {
    hide Do, Books, Known, Queue.Valid, Typed;
    SafeThread(s, t);
    TotalNonNegative(s.pc, Units);
    DoLedger(s.cap, s.m, t, s.pc[t], a);
    TotalUpdate(s.pc, Units, t, Step(s, t, a).pc[t]);
  }

  predicate Matched(run: seq<Event>) {
    forall i :: 0 <= i < |run| ==> !run[i].1.CallStray?
  }

  lemma {:induction false} ExecLedger(cap: int, threads: set<Tid>, run: seq<Event>)
    requires 0 < cap <= MAX_INT32 && Matched(run)
    ensures var s := Exec(cap, threads, run); Safe(s) && Ledger(s) && s.cap == cap && s.pc.Keys == threads
  {
    hide Safe, Do;
    if run == [] {
      InitSafe(cap, threads);
      TotalZero(Init(cap, threads).pc, Units);
    } else {
      var k := |run| - 1;
      ExecLedger(cap, threads, run[..k]);
      var s := Exec(cap, threads, run[..k]);
      if run[k].0 in s.pc {
        StepLedger(s, run[k].0, run[k].1);
        StepSafe(s, run[k].0, run[k].1);
      }
    }
  }

  /** When every release gives back units that were obtained, none is ever refused. */
  lemma {:induction false} MatchedReleaseSucceeds(cap: int, threads: set<Tid>, run: seq<Event>, t: Tid, a: Action)
    requires 0 < cap <= MAX_INT32 && Matched(run)
    requires var s := Exec(cap, threads, run); t in s.pc && s.pc[t].RLoad?
    ensures Step(Exec(cap, threads, run), t, a).pc[t].RCas?
  {
    hide Do, Books, Known, Queue.Valid;
    var s := Exec(cap, threads, run);
    ExecLedger(cap, threads, run);
    SafeThread(s, t);
    TotalNonNegative(s.pc, Units);
    OverReleaseRefused(s, t, a);
  }

  // ---- Nobody is stranded ------------------------------------------------

  /** The owner of w has neither acquired nor given up. */
  ghost predicate LiveWaiter(s: State, w: nat) {
    && w < |s.m.q.ws| && s.m.q.ws[w].owner in s.pc
    && Waits(s.pc[s.m.q.ws[w].owner], w)
  }

  predicate Waits(p: PC, w: nat) { (p.AReload? || p.ARecas? || p.AWait?) && p.w == w }

  /** Thread u will still pop a waiter, signal a live one, or try a full count. */
  ghost predicate Useful(s: State, u: Tid) {
    u in s.pc &&
    var p := s.pc[u];
    || (p.Wake? && p.i > 0) || p.WakeCheck?
    || (p.WakeSignal? && LiveWaiter(s, p.w))
    || p.ALoad? || p.ACas? || p.AReload? || (p.ARecas? && p.c == s.cap)
    || ((p.ARecas? || p.AWait?) && p.w < |s.m.q.ws| && s.m.q.ws[p.w].token)
  }

  /** A waiter that can no longer take a full count by itself. */
  predicate Commits(cap: int, p: PC, w: nat) {
    (p.AWait? && p.w == w) || (p.ARecas? && p.w == w && p.c != cap)
  }

  ghost predicate Committed(s: State, w: nat) {
    && s.m.q.Contains(w) && s.m.q.ws[w].owner in s.pc
    && Commits(s.cap, s.pc[s.m.q.ws[w].owner], w)
  }

  ghost predicate Served(s: State) {
    s.m.count == s.cap && (exists w :: Committed(s, w)) ==> exists u :: Useful(s, u)
  }

  /** A give-up is late when the signal is already on its way to the waiter. */
  ghost predicate LateGiveUp(s: State, t: Tid, a: Action) {
    && t in s.pc && a == GiveUp && s.pc[t].AWait? && s.pc[t].w < |s.m.q.ws|
    && var place := s.m.q.ws[s.pc[t].w].place;
       place == Signaled || (place.Hand? && place.popper in s.pc && s.pc[place.popper].WakeSignal?)
  }

  /** When every unit is in the count, a popped waiter that is not cancelled is still waiting. */
  lemma FullWaiterIsLive(s: State, w: nat)
    requires Safe(s) && Ledger(s) && s.m.count == s.cap && w < |s.m.q.ws|
    requires s.m.q.ws[w].place.Hand? && !s.m.q.ws[w].cancelled
    ensures LiveWaiter(s, w)
  {
    SafeThread(s, s.m.q.ws[w].owner);
    TotalNonNegative(s.pc, Units);
  }

  lemma WaitsOn(cap: int, m: Memory, t: Tid, p: PC, a: Action, w: nat)
    requires Typed(p, |m.q.ws|) && LocalOk(cap, p) && Waits(p, w) && w < |m.q.ws| && !m.q.ws[w].token
    requires m.count == cap && Do(cap, m, t, p, a).0.count == cap && !(p.AWait? && a == GiveUp)
    ensures Waits(Do(cap, m, t, p, a).1, w)
  {
  }

  /** A step of another thread leaves u useful, unless it takes units. */
  lemma OthersStayUseful(s: State, t: Tid, a: Action, u: Tid)
    requires Safe(s) && t in s.pc && Fits(s, t) && u != t && Useful(s, u) && !LateGiveUp(s, t, a)
    requires s.m.count == s.cap && Step(s, t, a).m.count == s.cap
    ensures Useful(Step(s, t, a), u)
  {
    hide Do, Known, Counts, Typed;
    StepSafe(s, t, a);
    SafeThread(s, u);
    SafeThread(s, t);
    if s.pc[u].WakeSignal? && s.m.q.ws[s.pc[u].w].owner == t {
      InHand(s.m.q, u, HandOf(s.pc[u]), LiveOf(s.pc[u]), s.pc[u].w);
      WaitsOn(s.cap, s.m, t, s.pc[t], a, s.pc[u].w);
    }
  }

  /** A useful thread that steps leaves some thread useful, unless it takes units. */
  lemma SelfLeavesUseful(s: State, t: Tid, a: Action, w: nat) returns (v: Tid)
    requires Safe(s) && Ledger(s) && Useful(s, t) && !LateGiveUp(s, t, a)
    requires s.m.count == s.cap && Step(s, t, a).m.count == s.cap && Committed(Step(s, t, a), w)
    ensures Useful(Step(s, t, a), v)
  {
    SafeThread(s, t);
    v := t;
    if s.pc[t].WakeCheck? && !s.m.q.ws[s.pc[t].w].cancelled {
      FullWaiterIsLive(s, s.pc[t].w);
    } else if s.pc[t].WakeSignal? {
      v := s.m.q.ws[s.pc[t].w].owner;
    }
  }

  /** While the count stays full nobody commits, and it fills up only by a release. */
  lemma FullStep(cap: int, m: Memory, t: Tid, p: PC, a: Action, w: nat)
    requires Typed(p, |m.q.ws|) && LocalOk(cap, p) && Counts(cap, m) && Do(cap, m, t, p, a).0.count == cap
    requires p.RLoad? ==> m.count + p.n <= MAX_INT32
    ensures var (m', p') := Do(cap, m, t, p, a);
            && (m.count != cap ==> p'.Wake? && p'.i > 0)
            && (m.count == cap && Commits(cap, p', w) ==> Commits(cap, p, w))
            && m.q.head <= m'.q.head && (|m.q.ws| == |m'.q.ws| || p'.AReload?)
  {
  }

  lemma StepServed(s: State, t: Tid, a: Action)
    requires Safe(s) && Ledger(s) && Served(s) && t in s.pc && !LateGiveUp(s, t, a) && !a.CallStray?
    ensures Served(Step(s, t, a))
  {
    hide Do, Useful, Ledger, Known, Books, Counts, LateGiveUp, Typed, LocalOk, Queue.Valid;
    StepLedger(s, t, a);
    StepSafe(s, t, a);
    SafeThread(s, t);
    var s' := Step(s, t, a);
    if w :| s'.m.count == s'.cap && Committed(s', w) {
      FullStepOf(s, t, a, w);
      if s.m.count == s.cap {
        assert Committed(s, w);
        var u :| Useful(s, u);
        if u == t {
          var v := SelfLeavesUseful(s, t, a, w);
        } else {
          OthersStayUseful(s, t, a, u);
        }
      } else {
        WakeIsUseful(s', t);
      }
    }
  }

  lemma FullStepOf(s: State, t: Tid, a: Action, w: nat)
    requires Safe(s) && t in s.pc && Fits(s, t) && Step(s, t, a).m.count == s.cap
    ensures var s' := Step(s, t, a);
            && (s.m.count != s.cap ==> s'.pc[t].Wake? && s'.pc[t].i > 0)
            && (s.m.count == s.cap && Commits(s.cap, s'.pc[t], w) ==> Commits(s.cap, s.pc[t], w))
            && s.m.q.head <= s'.m.q.head && (|s.m.q.ws| == |s'.m.q.ws| || s'.pc[t].AReload?)
  {
    hide Do, Books, Known;
    SafeThread(s, t);
    FullStep(s.cap, s.m, t, s.pc[t], a, w);
  }

  lemma WakeIsUseful(s: State, t: Tid)
    requires t in s.pc && s.pc[t].Wake? && s.pc[t].i > 0
    ensures Useful(s, t)
  {
  }

  ghost predicate NoLateGiveUp(cap: int, threads: set<Tid>, run: seq<Event>) {
    forall i {:trigger run[i]} :: 0 <= i < |run| ==>
      !LateGiveUp(Exec(cap, threads, run[..i]), run[i].0, run[i].1)
  }

  lemma {:induction false} ExecServed(cap: int, threads: set<Tid>, run: seq<Event>)
    requires 0 < cap <= MAX_INT32 && Matched(run) && NoLateGiveUp(cap, threads, run)
    ensures Served(Exec(cap, threads, run))
  {
    hide Do, Safe, LateGiveUp, Useful, Ledger;
    if run == [] {
      assert !exists w :: Committed(Init(cap, threads), w);
    } else {
      var k := |run| - 1;
      var before := run[..k];
      forall i | 0 <= i < k ensures !LateGiveUp(Exec(cap, threads, before[..i]), before[i].0, before[i].1) {
        assert before[..i] == run[..i] && before[i] == run[i];
      }
      ExecServed(cap, threads, before);
      ExecLedger(cap, threads, before);
      var s := Exec(cap, threads, before);
      if run[k].0 in s.pc {
        StepServed(s, run[k].0, run[k].1);
      }
    }
  }

  /** No thread can take a step on its own: each is outside a call or parked without a token. */
  ghost predicate Quiescent(s: State) {
    forall t {:trigger s.pc[t]} :: t in s.pc ==>
      s.pc[t].Idle? || (s.pc[t].AWait? && s.pc[t].w < |s.m.q.ws| && !s.m.q.ws[s.pc[t].w].token)
  }

  lemma QuiescentFull(s: State, t: Tid)
    requires Safe(s) && Served(s) && Quiescent(s) && s.m.count == s.cap && t in s.pc
    ensures s.pc[t] == Idle
  {
    assert forall u :: !Useful(s, u);
    assert forall w :: !Committed(s, w);
    if s.pc[t].AWait? {
      assert !Committed(s, s.pc[t].w);
      SafeThread(s, t);
      var x := s.m.q.ws[s.pc[t].w];
      if x.place.Hand? { SafeThread(s, x.place.popper); }
      assert false;
    }
  }

  /** For every mix of sizes: in a run of matched releases without a late give-up, when all
      units are back and nobody is in the middle of a call, no acquirer is parked. */
  lemma {:induction false} NobodyStranded(cap: int, threads: set<Tid>, run: seq<Event>)
    requires 0 < cap <= MAX_INT32 && Matched(run) && NoLateGiveUp(cap, threads, run)
    ensures var s := Exec(cap, threads, run);
            Quiescent(s) && s.m.count == cap ==> forall t :: t in s.pc ==> s.pc[t] == Idle
  {
    hide Exec, Safe, Served;
    ExecLedger(cap, threads, run);
    ExecServed(cap, threads, run);
    var s := Exec(cap, threads, run);
    if Quiescent(s) && s.m.count == cap {
      forall t | t in s.pc ensures s.pc[t] == Idle {
        QuiescentFull(s, t);
      }
    }
  }

  /** No caller has a timer or a context that ends. */
  predicate NoGiveUp(run: seq<Event>) { forall i :: 0 <= i < |run| ==> run[i].1 != GiveUp }

  /** In particular callers of the forms without timeout or context strand nobody. */
  lemma {:induction false} PlainCallsStrandNobody(cap: int, threads: set<Tid>, run: seq<Event>)
    requires 0 < cap <= MAX_INT32 && Matched(run) && NoGiveUp(run)
    ensures var s := Exec(cap, threads, run);
            Quiescent(s) && s.m.count == cap ==> forall t :: t in s.pc ==> s.pc[t] == Idle
  {
    hide Exec, Quiescent;
    NobodyStranded(cap, threads, run);
  }

  // ---- A thread on its own -----------------------------------------------

  /** The thread is parked, with or without a token in its channel. */
  predicate ParkedWith(s: State, t: Tid, token: bool) {
    t in s.pc && s.pc[t].AWait? && s.pc[t].w < |s.m.q.ws| && s.m.q.ws[s.pc[t].w].token == token
  }

  /** A thread can move unless it is outside a call or parked without a token. */
  lemma MovesExactly(s: State, t: Tid)
    requires Safe(s) && t in s.pc
    ensures Step(s, t, Run) == s <==> s.pc[t].Idle? || ParkedWith(s, t, false)
  {
    hide Known, Books, Wrap32;
    SafeThread(s, t);
    assert s.pc == s.pc[t := s.pc[t]];
    if Step(s, t, Run) == s { assert Step(s, t, Run).pc[t] == s.pc[t]; }
  }

  /** The state after n steps of t alone. */
  ghost function Alone(s: State, t: Tid, n: nat): State
    decreases n
  {
    if n == 0 then s else Alone(Step(s, t, Run), t, n - 1)
  }

  /** An undisturbed TryAcquireN takes its units exactly if they are there, and changes nothing else. */
  lemma TryAcquireExactly(s: State, t: Tid, k: int)
    requires t in s.pc && s.pc[t].Idle? && 0 < k <= s.cap
    ensures Alone(Step(s, t, CallTryAcquire(k)), t, 2) ==
            if s.m.count >= k then
              s.(m := s.m.(count := s.m.count - k, acquired := s.m.acquired + k, owed := s.m.owed + k))
            else s
  {
    hide Wrap32;
    var s1 := Step(s, t, CallTryAcquire(k));
    var s2 := Step(s1, t, Run);
    assert Alone(s1, t, 2) == Alone(s2, t, 1) == Alone(Step(s2, t, Run), t, 0);
    assert s.pc == s.pc[t := Idle];
  }

  /** A call whose timer or context is done ends without units; its waiter, if it has one, is cancelled and nobody is woken. */
  lemma GiveUpEnds(s: State, t: Tid)
    requires Enabled(s, t) && (s.pc[t].ALink? || s.pc[t].AWait?)
    ensures var s' := Step(s, t, GiveUp);
            && s'.pc == s.pc[t := Idle]
            && s'.m == if s.pc[t].AWait? then s.m.(q := s.m.q.Cancel(s.pc[t].w)) else s.m
  {
  }

  /** An undisturbed AcquireN takes its units at once if they are there, */
  lemma AcquiresAlone(s: State, t: Tid, k: int)
    requires t in s.pc && s.pc[t].Idle? && 0 < k <= s.cap && s.m.count >= k
    ensures Alone(Step(s, t, CallAcquire(k)), t, 2) ==
            s.(m := s.m.(count := s.m.count - k, acquired := s.m.acquired + k, owed := s.m.owed + k))
  {
    hide Wrap32, DoRelease;
    var s1 := Step(s, t, CallAcquire(k));
    var s2 := Step(s1, t, Run);
    assert Alone(s1, t, 2) == Alone(s2, t, 1) == Alone(Step(s2, t, Run), t, 0);
    assert s.pc == s.pc[t := Idle];
  }

  /** also when it has just been woken, */
  lemma WokenAcquires(s: State, t: Tid)
    requires ParkedWith(s, t, true) && s.m.count >= s.pc[t].n
    ensures var s', k := Alone(s, t, 3), s.pc[t].n;
            s'.pc == s.pc[t := Idle] && s'.m.count == s.m.count - k && s'.m.acquired == s.m.acquired + k
  {
    hide Wrap32, DoRelease, Alone;
    AloneFew(s, t);
    var s1 := Step(s, t, Run);
    assert s1 == s.(m := s.m.(q := s.m.q.Receive(s.pc[t].w)), pc := s.pc[t := ALoad(s.pc[t].n)]);
    var s2 := Step(s1, t, Run);
    assert s2 == s1.(pc := s1.pc[t := ACas(s.pc[t].n, s.m.count)]);
  }

  /** and parks otherwise. */
  lemma ParksAlone(s: State, t: Tid, k: int)
    requires t in s.pc && s.pc[t].Idle? && 0 < k <= s.cap && s.m.count < k
    ensures Alone(Step(s, t, CallAcquire(k)), t, 3) ==
            s.(m := s.m.(q := s.m.q.Link(t)), pc := s.pc[t := AWait(k, |s.m.q.ws|)])
  {
    hide Wrap32, DoRelease;
    var s1 := Step(s, t, CallAcquire(k));
    var s2 := Step(s1, t, Run);
    assert s2 == s.(pc := s.pc[t := ALink(k)]);
    var s3 := Step(s2, t, Run);
    assert s3 == s.(m := s.m.(q := s.m.q.Link(t)), pc := s.pc[t := AReload(k, |s.m.q.ws|)]);
    assert Alone(s1, t, 3) == Alone(s2, t, 2) == Alone(s3, t, 1) == Alone(Step(s3, t, Run), t, 0);
  }

  /** The wake-ups of an undisturbed release of i units give a token to exactly the first i live waiters, or to all if
      there are fewer. */
  lemma {:induction false} WakesAsMany(s: State, t: Tid) returns (n: nat)
    requires t in s.pc && s.pc[t].Wake? && s.m.q.Valid()
    ensures var s' := Alone(s, t, n);
            s'.pc == s.pc[t := Idle] && s'.m == s.m.(q := s'.m.q) && Woken(s.m.q, s'.m.q, s.pc[t].i)
    decreases |s.m.q.ws| - s.m.q.head, s.pc[t].i
  {
    hide Wrap32, DoAcquire;
    var q, i, s1 := s.m.q, s.pc[t].i, Step(s, t, Run);
    if i <= 0 {
      n := 1;
      assert Alone(s, t, 1) == Alone(s1, t, 0);
      WokenNone(q, i);
    } else if q.Empty() {
      n := WakesAsMany(s1, t);
      assert Alone(s, t, n + 1) == Alone(s1, t, n);
      n := n + 1;
      WokenEmpty(q, Alone(s, t, n).m.q, i);
    } else {
      n := WakeOne(s, t);
    }
  }

  lemma AloneFew(s: State, t: Tid)
    ensures Alone(s, t, 1) == Step(s, t, Run)
    ensures Alone(s, t, 2) == Step(Step(s, t, Run), t, Run)
    ensures Alone(s, t, 3) == Step(Step(Step(s, t, Run), t, Run), t, Run)
  {
    hide Step;
    var s1 := Step(s, t, Run);
    var s2 := Step(s1, t, Run);
    assert Alone(s, t, 1) == Alone(s1, t, 0);
    assert Alone(s, t, 2) == Alone(s1, t, 1) == Alone(s2, t, 0);
    assert Alone(s, t, 3) == Alone(s1, t, 2) == Alone(s2, t, 1) == Alone(Step(s2, t, Run), t, 0);
  }

  lemma PopStep(s: State, t: Tid)
    requires t in s.pc && s.pc[t].Wake? && s.pc[t].i > 0 && !s.m.q.Empty()
    ensures Step(s, t, Run) == s.(m := s.m.(q := s.m.q.Pop(t)), pc := s.pc[t := WakeCheck(s.pc[t].i, s.m.q.head)])
  {
    hide Wrap32, DoAcquire;
  }

  lemma CheckStep(s: State, t: Tid)
    requires t in s.pc && s.pc[t].WakeCheck? && s.pc[t].w < |s.m.q.ws|
    ensures var (p, q) := (s.pc[t], s.m.q);
            Step(s, t, Run) ==
            if q.ws[p.w].cancelled then s.(m := s.m.(q := q.Discard(p.w)), pc := s.pc[t := Wake(p.i)])
            else s.(pc := s.pc[t := WakeSignal(p.i, p.w)])
  {
    hide Wrap32, DoAcquire;
  }

  lemma SendStep(s: State, t: Tid)
    requires t in s.pc && s.pc[t].WakeSignal? && s.pc[t].w < |s.m.q.ws|
    ensures Step(s, t, Run) == s.(m := s.m.(q := s.m.q.Send(s.pc[t].w)), pc := s.pc[t := Wake(s.pc[t].i - 1)])
  {
    hide Wrap32, DoAcquire;
  }

  lemma TurnSkips(s: State, t: Tid)
    requires t in s.pc && s.pc[t].Wake? && s.pc[t].i > 0 && !s.m.q.Empty() && s.m.q.ws[s.m.q.head].cancelled
    ensures Alone(s, t, 2) == s.(m := s.m.(q := FirstDropped(s.m.q, t)))
  {
    hide Step, Alone;
    AloneFew(s, t);
    PopStep(s, t);
    CheckStep(Step(s, t, Run), t);
    assert s.pc[t := s.pc[t]] == s.pc;
  }

  lemma TurnServes(s: State, t: Tid)
    requires t in s.pc && s.pc[t].Wake? && s.pc[t].i > 0 && !s.m.q.Empty() && !s.m.q.ws[s.m.q.head].cancelled
    ensures Alone(s, t, 3) == s.(m := s.m.(q := FirstServed(s.m.q, t)), pc := s.pc[t := Wake(s.pc[t].i - 1)])
  {
    hide Step, Alone;
    AloneFew(s, t);
    PopStep(s, t);
    CheckStep(Step(s, t, Run), t);
    SendStep(Step(Step(s, t, Run), t, Run), t);
  }

  lemma {:induction false} AloneAdds(s: State, t: Tid, a: nat, b: nat)
    ensures Alone(Alone(s, t, a), t, b) == Alone(s, t, a + b)
    decreases a
  {
    hide Step;
    if a == 0 {
      assert Alone(s, t, a) == s;
    } else {
      AloneAdds(Step(s, t, Run), t, a - 1, b);
    }
  }

  /** One turn of the loop on a queue that is not empty, and the rest. */
  lemma {:induction false} WakeOne(s: State, t: Tid) returns (n: nat)
    requires t in s.pc && s.pc[t].Wake? && s.m.q.Valid() && s.pc[t].i > 0 && !s.m.q.Empty()
    ensures var s' := Alone(s, t, n);
            s'.pc == s.pc[t := Idle] && s'.m == s.m.(q := s'.m.q) && Woken(s.m.q, s'.m.q, s.pc[t].i)
    decreases |s.m.q.ws| - s.m.q.head, 0
  {
    hide Step, Alone, Woken, FirstDropped, FirstServed, Queue.Valid;
    var q, i := s.m.q, s.pc[t].i;
    if q.ws[q.head].cancelled {
      DroppedOut(q, t);
      TurnSkips(s, t);
      var k := WakesAsMany(Alone(s, t, 2), t);
      AloneAdds(s, t, 2, k);
      n := 2 + k;
      WokenSkip(q, FirstDropped(q, t), Alone(s, t, n).m.q, i);
    } else {
      ServedOut(q, t);
      TurnServes(s, t);
      var k := WakesAsMany(Alone(s, t, 3), t);
      AloneAdds(s, t, 3, k);
      n := 3 + k;
      WokenFirst(q, FirstServed(q, t), Alone(s, t, n).m.q, i);
    }
  }

  /** An undisturbed release of n units that the capacity has room for counts them and wakes the first n live waiters. */
  lemma {:induction false} ReleaseAlone(s: State, t: Tid, n: int) returns (steps: nat)
    requires Safe(s) && t in s.pc && s.pc[t].Idle? && 0 < n <= s.m.owed && s.m.count + n <= s.cap
    ensures var s' := Alone(Step(s, t, CallRelease(n)), t, steps);
            && s'.pc == s.pc[t := Idle] && s'.m.count == s.m.count + n && s'.m.released == s.m.released + n
            && Woken(s.m.q, s'.m.q, n)
  {
    hide Wrap32, Woken, Books, Known, Alone;
    SafeThread(s, t);
    WrapAround(s.m.count + n);
    var s1 := Step(s, t, CallRelease(n));
    var s2 := Step(s1, t, Run);
    assert s2 == s.(m := s.m.(owed := s.m.owed - n), pc := s.pc[t := RCas(n, s.m.count)]);
    var s3 := Step(s2, t, Run);
    AloneFew(s1, t);
    steps := WakesAsMany(s3, t);
    AloneAdds(s1, t, 2, steps);
    steps := 2 + steps;
  }

  // ---- The wake-ups of a release, disturbed or not -----------------------

  /** Some waiter has got its token in this step. */
  ghost predicate Signals(s: State, s': State) {
    exists w :: 0 <= w < |s.m.q.ws| && w < |s'.m.q.ws|
                && s.m.q.ws[w].place != Signaled && s'.m.q.ws[w].place == Signaled && s'.m.q.ws[w].token
  }

  /** How many of the events i to j - 1 are steps of t that give a waiter its token. */
  ghost function SentBy(cap: int, threads: set<Tid>, run: seq<Event>, t: Tid, i: nat, j: nat): nat
    requires i <= j <= |run|
    decreases j
  {
    if i == j then 0
    else
      SentBy(cap, threads, run, t, i, j - 1)
      + if run[j - 1].0 == t && Signals(Exec(cap, threads, run[..j - 1]), Exec(cap, threads, run[..j])) then 1 else 0
  }

  /** Event k is a step of t that finds the queue empty when it looks for a waiter to wake. */
  ghost predicate FindsNobody(cap: int, threads: set<Tid>, run: seq<Event>, t: Tid, k: nat)
    requires k < |run|
  {
    var s := Exec(cap, threads, run[..k]);
    run[k].0 == t && t in s.pc && s.pc[t].Wake? && s.m.q.Empty()
  }

  predicate Wakes(p: PC) { (p.Wake? && p.i >= 0) || ((p.WakeCheck? || p.WakeSignal?) && p.i > 0) }

  /** Each turn of the loop sends a token or finds nobody. */
  lemma WakeTurn(s: State, t: Tid, a: Action)
    requires QueueOk(s) && t in s.pc && Wakes(s.pc[t])
    ensures t in Step(s, t, a).pc
    ensures var (s', p, p') := (Step(s, t, a), s.pc[t], Step(s, t, a).pc[t]);
            && (p'.Idle? ==> p == Wake(0))
            && (!p'.Idle? ==> Wakes(p') && (p'.i == p.i || p'.i == p.i - 1))
            && (!p'.Idle? && p'.i < p.i && !(p.Wake? && s.m.q.Empty()) ==> Signals(s, s'))
            && (p'.Idle? || p'.i == p.i ==> !Signals(s, s'))
  {
    hide Wrap32, DoAcquire;
    QueueThread(s, t);
    if s.pc[t].WakeSignal? {
      InHand(s.m.q, t, HandOf(s.pc[t]), LiveOf(s.pc[t]), s.pc[t].w);
      assert Step(s, t, a).m.q.ws[s.pc[t].w].place == Signaled;
    }
  }

  /** While t is at its wake-ups, the tokens sent and those to send make up n, unless it has found nobody. */
  lemma {:induction false} WakesSoFar(cap: int, threads: set<Tid>, run: seq<Event>, t: Tid, i: nat, j: nat, n: nat)
    requires i <= j <= |run|
    requires t in Exec(cap, threads, run[..i]).pc && Exec(cap, threads, run[..i]).pc[t] == Wake(n)
    requires forall k :: i <= k < j ==> t in Exec(cap, threads, run[..k]).pc && !Exec(cap, threads, run[..k]).pc[t].Idle?
    ensures t in Exec(cap, threads, run[..j]).pc
    ensures var p := Exec(cap, threads, run[..j]).pc[t];
            && (p.Idle? || Wakes(p))
            && ((exists k :: i <= k < j && FindsNobody(cap, threads, run, t, k))
                || SentBy(cap, threads, run, t, i, j) + (if p.Idle? then 0 else p.i) == n)
    decreases j
  {
    hide Exec, Signals, Step, QueueOk;
    if i == j {
      assert SentBy(cap, threads, run, t, i, j) == 0;
    } else {
      WakesSoFar(cap, threads, run, t, i, j - 1, n);
      var s := Exec(cap, threads, run[..j - 1]);
      var u, a := run[j - 1].0, run[j - 1].1;
      assert run[..j] == run[..j - 1] + [(u, a)];
      StepOf(cap, threads, run[..j - 1], (u, a));
      ExecQueue(cap, threads, run[..j - 1]);
      if u == t {
        WakeTurn(s, t, a);
        assert FindsNobody(cap, threads, run, t, j - 1) <==> s.pc[t].Wake? && s.m.q.Empty();
      } else {
        OtherStep(s, u, a, t);
      }
    }
  }

  lemma {:induction false} StepOf(cap: int, threads: set<Tid>, run: seq<Event>, e: Event)
    ensures Exec(cap, threads, run + [e]) == Step(Exec(cap, threads, run), e.0, e.1)
  {
    assert (run + [e])[..|run|] == run;
  }

  lemma OtherStep(s: State, u: Tid, a: Action, t: Tid)
    requires t in s.pc && t != u
    ensures t in Step(s, u, a).pc && Step(s, u, a).pc[t] == s.pc[t]
  {
  }

  /** A release of n units that has counted them returns only after it has sent n tokens, or found nobody to wake. */
  lemma {:induction false} ReturnsAfterWaking(cap: int, threads: set<Tid>, run: seq<Event>, t: Tid, i: nat, j: nat, n: nat)
    requires i <= j <= |run|
    requires t in Exec(cap, threads, run[..i]).pc && Exec(cap, threads, run[..i]).pc[t] == Wake(n)
    requires forall k :: i <= k < j ==> t in Exec(cap, threads, run[..k]).pc && !Exec(cap, threads, run[..k]).pc[t].Idle?
    requires t in Exec(cap, threads, run[..j]).pc && Exec(cap, threads, run[..j]).pc[t].Idle?
    ensures || SentBy(cap, threads, run, t, i, j) == n
            || exists k :: i <= k < j && FindsNobody(cap, threads, run, t, k)
  {
    hide Exec, Signals;
    WakesSoFar(cap, threads, run, t, i, j, n);
  }

  // ---- A stray release does strand a waiter ------------------------------

  const THREE: set<Tid> := {0, 1, 2}

  function At(cap: int, m: Memory, p: PC, q: PC, r: PC): State { State(cap, m, map[0 := p, 1 := q, 2 := r]) }

  /** The waiter of thread 1, and that of thread 2 in the queue. */
  function Two(x: Waiter, head: nat): Queue { Queue([x, Waiter(2, false, false, Queued)], head, 0) }

  lemma {:induction false} ExecSnoc(cap: int, run: seq<Event>, e: Event)
    ensures Exec(cap, THREE, run + [e]) == Step(Exec(cap, THREE, run), e.0, e.1)
  {
    assert (run + [e])[..|run|] == run;
  }

  lemma {:induction false} ExecStart(cap: int)
    ensures Exec(cap, THREE, []) == At(cap, Memory(cap, EMPTY, 0, 0, 0), Idle, Idle, Idle)
  {
  }

  /** A sum that fits int32 is computed as it is; one beyond it becomes negative. */
  lemma WrapAround(x: int)
    ensures 0 <= x <= MAX_INT32 ==> Wrap32(x) == x
    ensures MAX_INT32 < x <= 2 * MAX_INT32 ==> Wrap32(x) < 0
  {
  }

  /** Thread 0 takes all units. */
  lemma {:induction false} AllTaken(cap: int) returns (run: seq<Event>)
    requires 0 < cap <= MAX_INT32
    ensures NoGiveUp(run) && Exec(cap, THREE, run) ==
            At(cap, Memory(0, EMPTY, cap, 0, cap), Idle, Idle, Idle)
  {
    hide Exec, Wrap32;
    run := [];
    ExecStart(cap);
    ExecSnoc(cap, run, (0, CallAcquire(cap))); run := run + [(0, CallAcquire(cap))];
    ExecSnoc(cap, run, (0, Run)); run := run + [(0, Run)];
    ExecSnoc(cap, run, (0, Run)); run := run + [(0, Run)];
  }

  /** Thread 1, which wants one unit, and thread 2, which wants all, find none and are about to enqueue. */
  lemma {:induction false} BothMissed(cap: int) returns (run: seq<Event>)
    requires 0 < cap <= MAX_INT32
    ensures NoGiveUp(run) && Exec(cap, THREE, run) ==
            At(cap, Memory(0, EMPTY, cap, 0, cap), Idle, ALink(1), ALink(cap))
  {
    hide Exec, Wrap32;
    run := AllTaken(cap);
    ExecSnoc(cap, run, (1, CallAcquire(1))); run := run + [(1, CallAcquire(1))];
    ExecSnoc(cap, run, (1, Run)); run := run + [(1, Run)];
    ExecSnoc(cap, run, (2, CallAcquire(cap))); run := run + [(2, CallAcquire(cap))];
    ExecSnoc(cap, run, (2, Run)); run := run + [(2, Run)];
  }

  /** Thread 0 sets out to give all back. */
  lemma {:induction false} AllOffered(cap: int) returns (run: seq<Event>)
    requires 0 < cap <= MAX_INT32
    ensures NoGiveUp(run) && Exec(cap, THREE, run) ==
            At(cap, Memory(0, EMPTY, cap, 0, 0), RCas(cap, 0), ALink(1), ALink(cap))
  {
    hide Exec, Wrap32;
    run := BothMissed(cap);
    WrapAround(cap);
    ExecSnoc(cap, run, (0, CallRelease(cap))); run := run + [(0, CallRelease(cap))];
    ExecSnoc(cap, run, (0, Run)); run := run + [(0, Run)];
  }

  /** It counts the units. */
  lemma {:induction false} AllCounted(cap: int) returns (run: seq<Event>)
    requires 0 < cap <= MAX_INT32
    ensures NoGiveUp(run) && Exec(cap, THREE, run) ==
            At(cap, Memory(cap, EMPTY, cap, cap, 0), Wake(cap), ALink(1), ALink(cap))
  {
    hide Exec, Wrap32;
    run := AllOffered(cap);
    WrapAround(cap);
    ExecSnoc(cap, run, (0, Run)); run := run + [(0, Run)];
  }

  /** Its wake-ups find nobody, one after the other. */
  lemma {:induction false} WakesNobody(cap: int, i: nat) returns (run: seq<Event>)
    requires 0 < cap <= MAX_INT32 && i <= cap
    ensures NoGiveUp(run)
    ensures Exec(cap, THREE, run) == At(cap, Memory(cap, EMPTY, cap, cap, 0), Wake(i), ALink(1), ALink(cap))
    decreases cap - i
  {
    hide Exec, Wrap32;
    if i == cap {
      run := AllCounted(cap);
    } else {
      run := WakesNobody(cap, i + 1);
      ExecSnoc(cap, run, (0, Run)); run := run + [(0, Run)];
    }
  }

  /** Thread 1 enqueues, takes its unit after all and has not cancelled its waiter yet. */
  lemma {:induction false} TakenAgain(cap: int) returns (run: seq<Event>)
    requires 0 < cap <= MAX_INT32
    ensures NoGiveUp(run) && Exec(cap, THREE, run) ==
            At(cap, Memory(cap - 1, Queue([Waiter(1, false, false, Queued)], 0, 0), cap + 1, cap, 0),
               Idle, ACancel(1, 0), ALink(cap))
  {
    hide Exec, Wrap32;
    run := WakesNobody(cap, 0);
    ExecSnoc(cap, run, (0, Run)); run := run + [(0, Run)];
    ExecSnoc(cap, run, (1, Run)); run := run + [(1, Run)];
    ExecSnoc(cap, run, (1, Run)); run := run + [(1, Run)];
    ExecSnoc(cap, run, (1, Run)); run := run + [(1, Run)];
  }

  /** Thread 2 parks. */
  lemma {:induction false} SecondParked(cap: int) returns (run: seq<Event>)
    requires 0 < cap <= MAX_INT32
    ensures NoGiveUp(run) && Exec(cap, THREE, run) ==
            At(cap, Memory(cap - 1, Two(Waiter(1, false, false, Queued), 0), cap + 1, cap, 0),
               Idle, ACancel(1, 0), AWait(cap, 1))
  {
    hide Exec, Wrap32;
    run := TakenAgain(cap);
    ExecSnoc(cap, run, (2, Run)); run := run + [(2, Run)];
    ExecSnoc(cap, run, (2, Run)); run := run + [(2, Run)];
  }

  /** Thread 0 sets out to release a unit it does not have. */
  lemma {:induction false} StrayOffered(cap: int) returns (run: seq<Event>)
    requires 0 < cap <= MAX_INT32
    ensures NoGiveUp(run) && Exec(cap, THREE, run) ==
            At(cap, Memory(cap - 1, Two(Waiter(1, false, false, Queued), 0), cap + 1, cap, 0),
               RCas(1, cap - 1), ACancel(1, 0), AWait(cap, 1))
  {
    hide Exec, Wrap32;
    run := SecondParked(cap);
    WrapAround(cap);
    ExecSnoc(cap, run, (0, CallStray(1))); run := run + [(0, CallStray(1))];
    ExecSnoc(cap, run, (0, Run)); run := run + [(0, Run)];
  }

  /** It counts the unit. */
  lemma {:induction false} StrayCounted(cap: int) returns (run: seq<Event>)
    requires 0 < cap <= MAX_INT32
    ensures NoGiveUp(run) && Exec(cap, THREE, run) ==
            At(cap, Memory(cap, Two(Waiter(1, false, false, Queued), 0), cap + 1, cap + 1, 0),
               Wake(1), ACancel(1, 0), AWait(cap, 1))
  {
    hide Exec, Wrap32;
    run := StrayOffered(cap);
    WrapAround(cap);
    ExecSnoc(cap, run, (0, Run)); run := run + [(0, Run)];
  }

  /** It pops thread 1, which holds that unit, */
  lemma {:induction false} PhantomPopped(cap: int) returns (run: seq<Event>)
    requires 0 < cap <= MAX_INT32
    ensures NoGiveUp(run) && Exec(cap, THREE, run) ==
            At(cap, Memory(cap, Two(Waiter(1, false, false, Hand(0)), 1), cap + 1, cap + 1, 0),
               WakeSignal(1, 0), ACancel(1, 0), AWait(cap, 1))
  {
    hide Exec, Wrap32;
    run := StrayCounted(cap);
    ExecSnoc(cap, run, (0, Run)); run := run + [(0, Run)];
    ExecSnoc(cap, run, (0, Run)); run := run + [(0, Run)];
  }

  /** and spends the wake-up on it. */
  lemma {:induction false} WakeWasted(cap: int) returns (run: seq<Event>)
    requires 0 < cap <= MAX_INT32
    ensures NoGiveUp(run) && Exec(cap, THREE, run) ==
            At(cap, Memory(cap, Two(Waiter(1, false, true, Signaled), 1), cap + 1, cap + 1, 0),
               Wake(0), ACancel(1, 0), AWait(cap, 1))
  {
    hide Exec, Wrap32;
    run := PhantomPopped(cap);
    ExecSnoc(cap, run, (0, Run)); run := run + [(0, Run)];
  }

  /** Somebody is parked although all units are there, and no thread can move. */
  ghost predicate Stranded(s: State) {
    Quiescent(s) && s.m.count == s.cap && exists t :: t in s.pc && s.pc[t] != Idle
  }

  /** With any capacity: after one release of a unit that its caller did not have, thread 2 waits for ever on a semaphore
      whose count is full. */
  lemma {:induction false} StrayReleaseStrands(cap: int) returns (run: seq<Event>)
    requires 0 < cap <= MAX_INT32
    ensures NoGiveUp(run) && Stranded(Exec(cap, THREE, run))
  {
    hide Exec, Wrap32;
    run := WakeWasted(cap);
    ExecSnoc(cap, run, (0, Run)); run := run + [(0, Run)];
    ExecSnoc(cap, run, (1, Run)); run := run + [(1, Run)];
    assert Exec(cap, THREE, run).pc[2] == AWait(cap, 1);
  }

  // ---- So does a late give-up --------------------------------------------

  /** Thread 0 takes one unit. */
  lemma {:induction false} OneTaken(cap: int) returns (run: seq<Event>)
    requires 0 < cap <= MAX_INT32
    ensures Matched(run) && Exec(cap, THREE, run) ==
            At(cap, Memory(cap - 1, EMPTY, 1, 0, 1), Idle, Idle, Idle)
  {
    hide Exec, Wrap32;
    run := [];
    ExecStart(cap);
    ExecSnoc(cap, run, (0, CallAcquire(1))); run := run + [(0, CallAcquire(1))];
    ExecSnoc(cap, run, (0, Run)); run := run + [(0, Run)];
    ExecSnoc(cap, run, (0, Run)); run := run + [(0, Run)];
  }

  /** Thread 1 wants all and parks. */
  lemma {:induction false} OneParked(cap: int) returns (run: seq<Event>)
    requires 0 < cap <= MAX_INT32
    ensures Matched(run) && Exec(cap, THREE, run) ==
            At(cap, Memory(cap - 1, Queue([Waiter(1, false, false, Queued)], 0, 0), 1, 0, 1),
               Idle, AWait(cap, 0), Idle)
  {
    hide Exec, Wrap32;
    run := OneTaken(cap);
    ExecSnoc(cap, run, (1, CallAcquire(cap))); run := run + [(1, CallAcquire(cap))];
    ExecSnoc(cap, run, (1, Run)); run := run + [(1, Run)];
    ExecSnoc(cap, run, (1, Run)); run := run + [(1, Run)];
    ExecSnoc(cap, run, (1, Run)); run := run + [(1, Run)];
  }

  /** So does thread 2. */
  lemma {:induction false} TwoParked(cap: int) returns (run: seq<Event>)
    requires 0 < cap <= MAX_INT32
    ensures Matched(run) && Exec(cap, THREE, run) ==
            At(cap, Memory(cap - 1, Two(Waiter(1, false, false, Queued), 0), 1, 0, 1),
               Idle, AWait(cap, 0), AWait(cap, 1))
  {
    hide Exec, Wrap32;
    run := OneParked(cap);
    ExecSnoc(cap, run, (2, CallAcquire(cap))); run := run + [(2, CallAcquire(cap))];
    ExecSnoc(cap, run, (2, Run)); run := run + [(2, Run)];
    ExecSnoc(cap, run, (2, Run)); run := run + [(2, Run)];
    ExecSnoc(cap, run, (2, Run)); run := run + [(2, Run)];
  }

  /** Thread 0 sets out to give its unit back. */
  lemma {:induction false} OneOffered(cap: int) returns (run: seq<Event>)
    requires 0 < cap <= MAX_INT32
    ensures Matched(run) && Exec(cap, THREE, run) ==
            At(cap, Memory(cap - 1, Two(Waiter(1, false, false, Queued), 0), 1, 0, 0),
               RCas(1, cap - 1), AWait(cap, 0), AWait(cap, 1))
  {
    hide Exec, Wrap32;
    run := TwoParked(cap);
    WrapAround(cap);
    ExecSnoc(cap, run, (0, CallRelease(1))); run := run + [(0, CallRelease(1))];
    ExecSnoc(cap, run, (0, Run)); run := run + [(0, Run)];
  }

  /** It counts the unit. */
  lemma {:induction false} OneCounted(cap: int) returns (run: seq<Event>)
    requires 0 < cap <= MAX_INT32
    ensures Matched(run) && Exec(cap, THREE, run) ==
            At(cap, Memory(cap, Two(Waiter(1, false, false, Queued), 0), 1, 1, 0),
               Wake(1), AWait(cap, 0), AWait(cap, 1))
  {
    hide Exec, Wrap32;
    run := OneOffered(cap);
    WrapAround(cap);
    ExecSnoc(cap, run, (0, Run)); run := run + [(0, Run)];
  }

  /** It pops thread 1, */
  lemma {:induction false} OnePopped(cap: int) returns (run: seq<Event>)
    requires 0 < cap <= MAX_INT32
    ensures Matched(run) && Exec(cap, THREE, run) ==
            At(cap, Memory(cap, Two(Waiter(1, false, false, Hand(0)), 1), 1, 1, 0),
               WakeSignal(1, 0), AWait(cap, 0), AWait(cap, 1))
  {
    hide Exec, Wrap32;
    run := OneCounted(cap);
    ExecSnoc(cap, run, (0, Run)); run := run + [(0, Run)];
    ExecSnoc(cap, run, (0, Run)); run := run + [(0, Run)];
  }

  /** and signals it. */
  lemma {:induction false} OneSignaled(cap: int) returns (run: seq<Event>)
    requires 0 < cap <= MAX_INT32
    ensures Matched(run) && Exec(cap, THREE, run) ==
            At(cap, Memory(cap, Two(Waiter(1, false, true, Signaled), 1), 1, 1, 0),
               Idle, AWait(cap, 0), AWait(cap, 1))
  {
    hide Exec, Wrap32;
    run := OnePopped(cap);
    ExecSnoc(cap, run, (0, Run)); run := run + [(0, Run)];
    ExecSnoc(cap, run, (0, Run)); run := run + [(0, Run)];
  }

  /** With any capacity: the timer of thread 1 then fires, and thread 2 waits for ever although all units are there. */
  lemma {:induction false} LateGiveUpStrands(cap: int) returns (run: seq<Event>)
    requires 0 < cap <= MAX_INT32
    ensures Matched(run) && Stranded(Exec(cap, THREE, run))
  {
    hide Exec, Wrap32;
    run := OneSignaled(cap);
    ExecSnoc(cap, run, (1, GiveUp)); run := run + [(1, GiveUp)];
    assert Exec(cap, THREE, run).pc[2] == AWait(cap, 1);
  }

  /** The semaphore strands nobody, in any run of the calls that are made, exactly if none of these has a timer or a
      context and none releases what it has not acquired. */
  lemma {:induction false} StrandsNobodyExactly(cap: int, timed: bool, stray: bool)
    requires 0 < cap <= MAX_INT32
    ensures (forall threads, run {:induction false} :: (timed || NoGiveUp(run)) && (stray || Matched(run)) ==>
               !Stranded(Exec(cap, threads, run)))
            <==> !timed && !stray
  {
    hide Exec, Stranded;
    if timed {
      var run := LateGiveUpStrands(cap);
    } else if stray {
      var run := StrayReleaseStrands(cap);
    } else {
      forall threads, run | NoGiveUp(run) && Matched(run) ensures !Stranded(Exec(cap, threads, run)) {
        NotStranded(cap, threads, run);
      }
    }
  }

  lemma {:induction false} NotStranded(cap: int, threads: set<Tid>, run: seq<Event>)
    requires 0 < cap <= MAX_INT32 && NoGiveUp(run) && Matched(run)
    ensures !Stranded(Exec(cap, threads, run))
  {
    hide Exec, Quiescent;
    PlainCallsStrandNobody(cap, threads, run);
    CapacityKept(cap, threads, run);
  }

  lemma {:induction false} CapacityKept(cap: int, threads: set<Tid>, run: seq<Event>)
    ensures Exec(cap, threads, run).cap == cap
  {
    hide Do;
    if run == [] {
      assert Exec(cap, threads, run) == Init(cap, threads);
    } else {
      CapacityKept(cap, threads, run[..|run| - 1]);
    }
  }

  // ---- The int32 guard ---------------------------------------------------

  /** With any capacity: a first release whose sum with the capacity is beyond int32 passes the overflow guard and
      leaves a negative count. */
  lemma {:induction false} HugeReleaseBreaksCount(cap: int, n: int) returns (run: seq<Event>)
    requires 0 < cap <= MAX_INT32 && n <= MAX_INT32 < cap + n
    ensures ReleasesAtMost(run, n) && Exec(cap, THREE, run).m.count < 0
  {
    hide Exec, Wrap32;
    run := [];
    ExecStart(cap);
    WrapAround(cap + n);
    ExecSnoc(cap, run, (0, CallStray(n))); run := run + [(0, CallStray(n))];
    ExecSnoc(cap, run, (0, Run)); run := run + [(0, Run)];
    ExecSnoc(cap, run, (0, Run)); run := run + [(0, Run)];
  }

  /** Every release in the run is of at most n units. */
  predicate ReleasesAtMost(run: seq<Event>, n: int) {
    forall i :: 0 <= i < |run| && (run[i].1.CallRelease? || run[i].1.CallStray?) ==> run[i].1.k <= n
  }

  /** The count is within its bounds and accounts for every unit. */
  ghost predicate Conserves(s: State) {
    0 <= s.m.count <= s.cap && s.m.count == s.cap - s.m.acquired + s.m.released
  }

  /** All runs with releases of up to n units conserve units exactly if the capacity and n together fit int32. */
  lemma {:induction false} ConservesExactly(cap: int, n: int)
    requires 0 < cap <= MAX_INT32 && 0 < n <= MAX_INT32
    ensures (forall threads, run {:induction false} :: ReleasesAtMost(run, n) ==> Conserves(Exec(cap, threads, run)))
            <==> cap + n <= MAX_INT32
  {
    hide Exec;
    if cap + n <= MAX_INT32 {
      forall threads, run | ReleasesAtMost(run, n) ensures Conserves(Exec(cap, threads, run)) {
        Conservation(cap, threads, run);
        CapacityKept(cap, threads, run);
      }
    } else {
      var run := HugeReleaseBreaksCount(cap, n);
      assert !Conserves(Exec(cap, THREE, run));
    }
  }
}
