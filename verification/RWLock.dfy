/**
 RWLock (rwlock.go) as a machine over any finite set of goroutines: RLock, Lock,
 their Context forms, TryRLock, TryLock, RUnlock and Unlock, one atomic
 operation a step.  The reader queue's size counter is written but never read
 by these operations, so only the writer queue's counter is kept.
 */
module RWLock {
  import opened RWWord
  import opened Threads
  import opened WaitQueue

  datatype PC =
    | Idle
    | ReadHold
    | WriteHold
    // RLock
    | RLoad
    | RSize(st: int)
    | RCas(st: int)
    | RLink
    | RReload(w: nat)
    | RResize(w: nat, st: int)
    | RRecas(w: nat, st: int)
    | RCancel(w: nat)
    | RWait(w: nat)
    // Lock
    | WLoad
    | WCas
    | WLink
    | WAdd(w: nat)          // linked, size counter not incremented yet
    | WRecas(w: nat)
    | WCancel(w: nat)
    | WWait(w: nat)
    // TryRLock
    | TryLoad
    | TrySize(st: int)
    | TryCas(st: int)
    // RUnlock, Unlock
    | RuLoad
    | RuCas(st: int)
    | UwLoad
    | UwCas(st: int)
    // writerQueue.Dequeue and the signal
    | PopW
    | SubW(w: nat)          // popped, size counter not decremented yet
    | CheckW(w: nat)
    | SignalW(w: nat)
    // wakeAllReaders
    | PopR
    | CheckR(w: nat)
    | SignalR(w: nat)

  datatype Action =
    | CallRLock | CallLock | CallTryRLock | CallTryLock | CallRUnlock | CallUnlock
    | Run
    | RunContext            // the step of an RLockContext caller, which waits where RLock panics
    | GiveUp(kind: Kind)    // ctx.Done() in RLockContext or LockContext

  datatype Memory = Memory(word: int, rq: Queue, wq: Queue, crashed: bool)

  datatype State = State(m: Memory, pc: map<Tid, PC>)

  function Init(threads: set<Tid>): State {
    State(Memory(0, EMPTY, EMPTY, false), map t | t in threads :: Idle)
  }

  function HandR(p: PC): set<nat> {
    match p
    case CheckR(w) => {w}
    case SignalR(w) => {w}
    case _ => {}
  }

  function LiveR(p: PC): set<nat> {
    match p
    case RReload(w) => {w}
    case RResize(w, _) => {w}
    case RRecas(w, _) => {w}
    case RCancel(w) => {w}
    case RWait(w) => {w}
    case _ => {}
  }

  function HandW(p: PC): set<nat> {
    match p
    case SubW(w) => {w}
    case CheckW(w) => {w}
    case SignalW(w) => {w}
    case _ => {}
  }

  function LiveW(p: PC): set<nat> {
    match p
    case WAdd(w) => {w}
    case WRecas(w) => {w}
    case WCancel(w) => {w}
    case WWait(w) => {w}
    case _ => {}
  }

  /** The waiter that p refers to exists. */
  predicate Typed(p: PC, m: Memory) {
    match p
    case RReload(w) => w < |m.rq.ws|
    case RResize(w, _) => w < |m.rq.ws|
    case RRecas(w, _) => w < |m.rq.ws|
    case RCancel(w) => w < |m.rq.ws|
    case RWait(w) => w < |m.rq.ws|
    case CheckR(w) => w < |m.rq.ws|
    case SignalR(w) => w < |m.rq.ws|
    case WAdd(w) => w < |m.wq.ws|
    case WRecas(w) => w < |m.wq.ws|
    case WCancel(w) => w < |m.wq.ws|
    case WWait(w) => w < |m.wq.ws|
    case SubW(w) => w < |m.wq.ws|
    case CheckW(w) => w < |m.wq.ws|
    case SignalW(w) => w < |m.wq.ws|
    case _ => true
  }

  /** RLock and RLockContext. */
  function DoReader(m: Memory, t: Tid, p: PC, a: Action): (Memory, PC)
    requires Typed(p, m)
  {
    match p
    case RLoad => if HasWriter(m.word) then (m, RLink) else (m, RSize(m.word))
    case RSize(st) =>
      if !m.wq.SizeIsZero() then (m, RLink)
      else if st < MAX_READERS then (m, RCas(st))
      else if a == RunContext then (m, RLink)
      else (m.(crashed := true), p)
    case RCas(st) => if m.word == st then (m.(word := st + 1), ReadHold) else (m, RLoad)
    case RLink => if a == GiveUp(Reader) then (m, Idle) else (m.(rq := m.rq.Link(t)), RReload(|m.rq.ws|))
    case RReload(w) => if HasWriter(m.word) then (m, RWait(w)) else (m, RResize(w, m.word))
    case RResize(w, st) => if m.wq.SizeIsZero() then (m, RRecas(w, st)) else (m, RWait(w))
    case RRecas(w, st) =>
      if st < MAX_READERS && m.word == st then (m.(word := st + 1), RCancel(w)) else (m, RWait(w))
    case RCancel(w) => (m.(rq := m.rq.Cancel(w)), ReadHold)
    case RWait(w) =>
      if a == GiveUp(Reader) then (m.(rq := m.rq.Cancel(w)), Idle)
      else if m.rq.ws[w].token then (m.(rq := m.rq.Receive(w)), RLoad)
      else (m, p)
    case _ => (m, p)
  }

  /** Lock and LockContext. */
  function DoWriter(m: Memory, t: Tid, p: PC, a: Action): (Memory, PC)
    requires Typed(p, m)
  {
    match p
    case WLoad => if m.word != 0 then (m, WLink) else (m, WCas)
    case WCas => if m.word == 0 then (m.(word := WRITER), WriteHold) else (m, WLoad)
    case WLink => if a == GiveUp(Writer) then (m, Idle) else (m.(wq := m.wq.Link(t)), WAdd(|m.wq.ws|))
    case WAdd(w) => (m.(wq := m.wq.Add(1)), WRecas(w))
    case WRecas(w) =>
      if m.word == 0 then (m.(word := WRITER), WCancel(w)) else (m, WWait(w))
    case WCancel(w) => (m.(wq := m.wq.Cancel(w)), WriteHold)
    case WWait(w) =>
      if a == GiveUp(Writer) then (m.(wq := m.wq.Cancel(w)), Idle)
      else if m.wq.ws[w].token then (m.(wq := m.wq.Receive(w)), WLoad)
      else (m, p)
    case _ => (m, p)
  }

  /** The start of every call, and TryRLock and TryLock. */
  function DoCall(m: Memory, p: PC, a: Action): (Memory, PC) {
    match p
    case Idle =>
      if a == CallRLock then (m, RLoad)
      else if a == CallLock then (m, WLoad)
      else if a == CallTryRLock then (m, TryLoad)
      else if a == CallTryLock && m.word == 0 then (m.(word := WRITER), WriteHold)
      else (m, p)
    case ReadHold => if a == CallRUnlock then (m, RuLoad) else (m, p)
    case WriteHold => if a == CallUnlock then (m, UwLoad) else (m, p)
    case TryLoad => if HasWriter(m.word) then (m, Idle) else (m, TrySize(m.word))
    case TrySize(st) =>
      if !m.wq.SizeIsZero() || st >= MAX_READERS then (m, Idle) else (m, TryCas(st))
    case TryCas(st) => if m.word == st then (m.(word := st + 1), ReadHold) else (m, TryLoad)
    case _ => (m, p)
  }

  /** RUnlock and Unlock up to the compare-and-swap that gives the lock back. */
  function DoRelease(m: Memory, p: PC): (Memory, PC) {
    match p
    case RuLoad => if ReaderCount(m.word) == 0 then (m.(crashed := true), p) else (m, RuCas(m.word))
    case RuCas(st) =>
      if m.word == st then (m.(word := st - 1), if ReaderCount(st - 1) == 0 then PopW else Idle)
      else (m, RuLoad)
    case UwLoad => if !HasWriter(m.word) then (m.(crashed := true), p) else (m, UwCas(m.word))
    case UwCas(st) => if m.word == st then (m.(word := 0), PopW) else (m.(crashed := true), p)
    case _ => (m, p)
  }

  /** The wake-up after a release: one writer or, when there is none, all readers. */
  function DoWake(m: Memory, t: Tid, p: PC): (Memory, PC)
    requires Typed(p, m)
  {
    match p
    case PopW => if m.wq.Empty() then (m, PopR) else (m.(wq := m.wq.Pop(t)), SubW(m.wq.head))
    case SubW(w) => (m.(wq := m.wq.Add(-1)), CheckW(w))
    case CheckW(w) =>
      if m.wq.ws[w].cancelled then (m.(wq := m.wq.Discard(w)), PopW) else (m, SignalW(w))
    case SignalW(w) => (m.(wq := m.wq.Send(w)), Idle)
    case _ => (m, p)
  }

  /** wakeAllReaders. */
  function DoDrain(m: Memory, t: Tid, p: PC): (Memory, PC)
    requires Typed(p, m)
  {
    match p
    case PopR => if m.rq.Empty() then (m, Idle) else (m.(rq := m.rq.Pop(t)), CheckR(m.rq.head))
    case CheckR(w) =>
      if m.rq.ws[w].cancelled then (m.(rq := m.rq.Discard(w)), PopR) else (m, SignalR(w))
    case SignalR(w) => (m.(rq := m.rq.Send(w)), PopR)
    case _ => (m, p)
  }

  datatype Phase = Calling | Reading | Writing | Releasing | Waking | Draining

  function PhaseOf(p: PC): Phase {
    match p
    case Idle => Calling case ReadHold => Calling case WriteHold => Calling
    case TryLoad => Calling case TrySize(_) => Calling case TryCas(_) => Calling
    case RuLoad => Releasing case RuCas(_) => Releasing case UwLoad => Releasing case UwCas(_) => Releasing
    case PopW => Waking case SubW(_) => Waking case CheckW(_) => Waking case SignalW(_) => Waking
    case PopR => Draining case CheckR(_) => Draining case SignalR(_) => Draining
    case WLoad => Writing case WCas => Writing case WLink => Writing case WAdd(_) => Writing
    case WRecas(_) => Writing case WCancel(_) => Writing case WWait(_) => Writing
    case _ => Reading
  }

  /** One atomic operation of thread t at p. An action that does not fit changes nothing. */
  function Do(m: Memory, t: Tid, p: PC, a: Action): (Memory, PC)
    requires Typed(p, m)
  {
    match PhaseOf(p)
    case Calling => DoCall(m, p, a)
    case Reading => DoReader(m, t, p, a)
    case Writing => DoWriter(m, t, p, a)
    case Releasing => DoRelease(m, p)
    case Waking => DoWake(m, t, p)
    case Draining => DoDrain(m, t, p)
  }

  predicate Enabled(s: State, t: Tid) {
    !s.m.crashed && t in s.pc && Typed(s.pc[t], s.m)
  }

  function Step(s: State, t: Tid, a: Action): State {
    if Enabled(s, t) then
      var (m, p) := Do(s.m, t, s.pc[t], a);
      State(m, s.pc[t := p])
    else s
  }

  type Event = (Tid, Action)

  /** The state after a run, oldest event first. */
  ghost function Exec(threads: set<Tid>, run: seq<Event>): State {
    if run == [] then Init(threads)
    else Step(Exec(threads, run[..|run| - 1]), run[|run| - 1].0, run[|run| - 1].1)
  }

  // ---- The state word ----------------------------------------------------

  predicate HoldsRead(p: PC) { p.ReadHold? || p.RCancel? || p.RuLoad? || p.RuCas? }

  predicate HoldsWrite(p: PC) { p.WriteHold? || p.WCancel? || p.UwLoad? || p.UwCas? }

  function ReadWeight(p: PC): int { if HoldsRead(p) then 1 else 0 }

  function WriteWeight(p: PC): int { if HoldsWrite(p) then 1 else 0 }

  /** The words a thread remembers are words that the lock has had; n bounds the readers. */
  predicate Remembers(p: PC, n: nat) {
    match p
    case RSize(st) => st <= n
    case RCas(st) => st < MAX_READERS
    case TryCas(st) => st < MAX_READERS
    case UwCas(st) => st == WRITER
    case _ => true
  }

  ghost predicate WordOk(s: State) {
    && Encodes(s.m.word, Total(s.pc, ReadWeight), Total(s.pc, WriteWeight))
    && (s.m.crashed ==> |s.pc| >= MAX_READERS)
    && forall t :: t in s.pc ==> Remembers(s.pc[t], |s.pc|)
  }

  /** Taking the lock: the word gains one reader or becomes the writer bit. */
  lemma AcquireWord(m: Memory, t: Tid, p: PC, a: Action, r: int, w: int, n: nat)
    requires Typed(p, m) && !m.crashed && Encodes(m.word, r, w) && Remembers(p, n) && r <= n
    requires ReadWeight(p) <= r && WriteWeight(p) <= w
    requires PhaseOf(p) == Reading || PhaseOf(p) == Writing
    ensures var (m', p') := Do(m, t, p, a);
            && Encodes(m'.word, r - ReadWeight(p) + ReadWeight(p'), w - WriteWeight(p) + WriteWeight(p'))
            && Remembers(p', n)
            && (m'.crashed ==> n >= MAX_READERS)
  {
  }

  /** The word always encodes what the threads hold; only a saturated reader count can panic. */
  lemma DoWord(m: Memory, t: Tid, p: PC, a: Action, r: int, w: int, n: nat)
    requires Typed(p, m) && !m.crashed && Encodes(m.word, r, w) && Remembers(p, n) && r <= n
    requires ReadWeight(p) <= r && WriteWeight(p) <= w
    ensures var (m', p') := Do(m, t, p, a);
            && Encodes(m'.word, r - ReadWeight(p) + ReadWeight(p'), w - WriteWeight(p) + WriteWeight(p'))
            && Remembers(p', n)
            && (m'.crashed ==> n >= MAX_READERS)
  {
    if PhaseOf(p) == Reading || PhaseOf(p) == Writing {
      AcquireWord(m, t, p, a, r, w, n);
      hide Do;
    }
  }

  lemma StepWord(s: State, t: Tid, a: Action)
    requires WordOk(s) && Enabled(s, t)
    ensures WordOk(Step(s, t, a))
  {
    TotalNonNegative(s.pc, ReadWeight);
    TotalNonNegative(s.pc, WriteWeight);
    TotalAtMost(s.pc, ReadWeight);
    DoWord(s.m, t, s.pc[t], a, Total(s.pc, ReadWeight), Total(s.pc, WriteWeight), |s.pc|);
    hide Do, Remembers, Encodes;
    var s' := Step(s, t, a);
    TotalUpdate(s.pc, ReadWeight, t, s'.pc[t]);
    TotalUpdate(s.pc, WriteWeight, t, s'.pc[t]);
    assert s'.pc.Keys == s.pc.Keys;
    assert |s'.pc| == |s'.pc.Keys| == |s.pc|;
  }

  // ---- Waiter records and the size counter -------------------------------

  ghost predicate Linked(m: Memory, t: Tid, p: PC) {
    Books(m.rq, t, HandR(p), LiveR(p)) && Books(m.wq, t, HandW(p), LiveW(p))
  }

  function SizeWeight(p: PC): int {
    if p.SubW? then 1 else if p.WAdd? then -1 else 0
  }

  /** The counter lags behind the list by the pops and links still in flight. */
  ghost predicate SizeOk(s: State) {
    s.m.wq.size == |s.m.wq.ws| - s.m.wq.head + Total(s.pc, SizeWeight)
  }

  ghost predicate Evolve(m: Memory, m': Memory, t: Tid) {
    && m'.rq.Valid() && m'.wq.Valid()
    && Evolves(m.rq, m'.rq, t) && Evolves(m.wq, m'.wq, t)
  }

  ghost predicate Safe(s: State) {
    && s.m.rq.Valid() && s.m.wq.Valid() && WordOk(s) && SizeOk(s)
    && Known(s.m.rq, s.pc.Keys) && Known(s.m.wq, s.pc.Keys)
    && forall t {:trigger Linked(s.m, t, s.pc[t])} :: t in s.pc ==> Linked(s.m, t, s.pc[t])
  }

  lemma InitSafe(threads: set<Tid>)
    ensures Safe(Init(threads))
  {
    TotalZero(Init(threads).pc, ReadWeight);
    TotalZero(Init(threads).pc, WriteWeight);
    TotalZero(Init(threads).pc, SizeWeight);
  }

  lemma SafeThread(s: State, t: Tid)
    requires Safe(s) && t in s.pc
    ensures Typed(s.pc[t], s.m) && Linked(s.m, t, s.pc[t])
  {
    assert Linked(s.m, t, s.pc[t]);
    BooksInRange(s.m.rq, t, HandR(s.pc[t]), LiveR(s.pc[t]));
    BooksInRange(s.m.wq, t, HandW(s.pc[t]), LiveW(s.pc[t]));
  }

  lemma ReaderLinked(m: Memory, t: Tid, p: PC, a: Action)
    requires m.rq.Valid() && m.wq.Valid() && Typed(p, m) && Linked(m, t, p) && PhaseOf(p) == Reading
    ensures var (m', p') := DoReader(m, t, p, a); Evolve(m, m', t) && Linked(m', t, p')
  {
    hide Books, Evolves, Queue.Valid;
    var q, hand, live := m.rq, HandR(p), LiveR(p);
    SameBooks(m.rq, t);
    SameBooks(m.wq, t);
    match p
    case RLink =>
      LinkBooks(q, t, hand, live);
      assert live + {|q.ws|} == {|q.ws|};
    case RCancel(w) =>
      CancelBooks(q, t, hand, live, w);
      assert live - {w} == {};
    case RWait(w) =>
      assert live - {w} == {};
      if a == GiveUp(Reader) {
        CancelBooks(q, t, hand, live, w);
      } else if q.ws[w].token {
        ReceiveBooks(q, t, hand, live, w);
      }
    case _ =>
  }

  lemma WriterLinked(m: Memory, t: Tid, p: PC, a: Action)
    requires m.rq.Valid() && m.wq.Valid() && Typed(p, m) && Linked(m, t, p) && PhaseOf(p) == Writing
    ensures var (m', p') := DoWriter(m, t, p, a); Evolve(m, m', t) && Linked(m', t, p')
  {
    hide Books, Evolves, Queue.Valid;
    var q, hand, live := m.wq, HandW(p), LiveW(p);
    SameBooks(m.rq, t);
    SameBooks(m.wq, t);
    match p
    case WLink =>
      LinkBooks(q, t, hand, live);
      assert live + {|q.ws|} == {|q.ws|};
    case WAdd(w) => AddBooks(q, t, hand, live, 1);
    case WCancel(w) =>
      CancelBooks(q, t, hand, live, w);
      assert live - {w} == {};
    case WWait(w) =>
      assert live - {w} == {};
      if a == GiveUp(Writer) {
        CancelBooks(q, t, hand, live, w);
      } else if q.ws[w].token {
        ReceiveBooks(q, t, hand, live, w);
      }
    case _ =>
  }

  lemma WakeLinked(m: Memory, t: Tid, p: PC)
    requires m.rq.Valid() && m.wq.Valid() && Typed(p, m) && Linked(m, t, p) && PhaseOf(p) == Waking
    ensures var (m', p') := DoWake(m, t, p); Evolve(m, m', t) && Linked(m', t, p')
  {
    hide Books, Evolves, Queue.Valid;
    SameBooks(m.rq, t);
    SameBooks(m.wq, t);
    match p
    case PopW =>
      if !m.wq.Empty() {
        PopBooks(m.wq, t, {}, {});
        assert {} + {m.wq.head} == {m.wq.head};
      }
    case SubW(w) => AddBooks(m.wq, t, {w}, {}, -1);
    case CheckW(w) =>
      assert {w} - {w} == {};
      if m.wq.ws[w].cancelled { DiscardBooks(m.wq, t, {w}, {}, w); }
    case SignalW(w) =>
      assert {w} - {w} == {};
      SendBooks(m.wq, t, {w}, {}, w);
  }

  lemma DrainLinked(m: Memory, t: Tid, p: PC)
    requires m.rq.Valid() && m.wq.Valid() && Typed(p, m) && Linked(m, t, p) && PhaseOf(p) == Draining
    ensures var (m', p') := DoDrain(m, t, p); Evolve(m, m', t) && Linked(m', t, p')
  {
    hide Books, Evolves, Queue.Valid;
    SameBooks(m.rq, t);
    SameBooks(m.wq, t);
    match p
    case PopR =>
      if !m.rq.Empty() {
        PopBooks(m.rq, t, {}, {});
        assert {} + {m.rq.head} == {m.rq.head};
      }
    case CheckR(w) =>
      assert {w} - {w} == {};
      if m.rq.ws[w].cancelled { DiscardBooks(m.rq, t, {w}, {}, w); }
    case SignalR(w) =>
      assert {w} - {w} == {};
      SendBooks(m.rq, t, {w}, {}, w);
  }

  lemma BareLinked(m: Memory, t: Tid, p: PC, a: Action)
    requires m.rq.Valid() && m.wq.Valid() && Typed(p, m) && Linked(m, t, p)
    requires PhaseOf(p) == Calling || PhaseOf(p) == Releasing
    ensures var (m', p') := Do(m, t, p, a); Evolve(m, m', t) && Linked(m', t, p')
  {
    hide Books, Evolves, Queue.Valid, DoReader, DoWriter, DoWake, DoDrain;
    SameBooks(m.rq, t);
    SameBooks(m.wq, t);
  }

  /** A step keeps the books of the stepping thread, and changes records only as Evolves allows. */
  lemma DoLinked(m: Memory, t: Tid, p: PC, a: Action)
    requires m.rq.Valid() && m.wq.Valid() && Typed(p, m) && Linked(m, t, p)
    ensures var (m', p') := Do(m, t, p, a); Evolve(m, m', t) && Linked(m', t, p')
  {
    hide Linked, Evolve, Queue.Valid, PhaseOf, Typed, DoCall, DoReader, DoWriter, DoRelease, DoWake, DoDrain;
    match PhaseOf(p)
    case Reading => ReaderLinked(m, t, p, a);
    case Writing => WriterLinked(m, t, p, a);
    case Waking => WakeLinked(m, t, p);
    case Draining => DrainLinked(m, t, p);
    case _ => BareLinked(m, t, p, a);
  }

  lemma DoSize(m: Memory, t: Tid, p: PC, a: Action)
    requires Typed(p, m)
    ensures var (m', p') := Do(m, t, p, a);
            && m'.wq.size - (|m'.wq.ws| - m'.wq.head) ==
               m.wq.size - (|m.wq.ws| - m.wq.head) + SizeWeight(p') - SizeWeight(p)
  {
  }

  lemma OthersLinked(m: Memory, m': Memory, t: Tid, u: Tid, p: PC)
    requires m.rq.Valid() && m.wq.Valid() && Evolve(m, m', t) && u != t && Linked(m, u, p)
    ensures Linked(m', u, p)
  {
    hide Books, Evolves, Queue.Valid, HandR, LiveR, HandW, LiveW;
    OthersBooks(m.rq, m'.rq, t, u, HandR(p), LiveR(p));
    OthersBooks(m.wq, m'.wq, t, u, HandW(p), LiveW(p));
  }

  lemma StepSize(s: State, t: Tid, a: Action)
    requires SizeOk(s) && t in s.pc && Typed(s.pc[t], s.m)
    ensures SizeOk(Step(s, t, a))
  {
    hide Do, SizeWeight, Typed;
    var s' := Step(s, t, a);
    DoSize(s.m, t, s.pc[t], a);
    TotalUpdate(s.pc, SizeWeight, t, s'.pc[t]);
  }

  lemma StepSafe(s: State, t: Tid, a: Action)
    requires Safe(s) && t in s.pc
    ensures Safe(Step(s, t, a)) && Evolve(s.m, Step(s, t, a).m, t)
  {
    hide Do, Books, Evolves, Known, Queue.Valid, WordOk, Typed, SizeOk, Linked;
    SafeThread(s, t);
    SameBooks(s.m.rq, t);
    SameBooks(s.m.wq, t);
    if !s.m.crashed {
      var s' := Step(s, t, a);
      DoLinked(s.m, t, s.pc[t], a);
      StepWord(s, t, a);
      StepSize(s, t, a);
      KnownEvolves(s.m.rq, s'.m.rq, t, s.pc.Keys);
      KnownEvolves(s.m.wq, s'.m.wq, t, s.pc.Keys);
      forall u | u in s'.pc ensures Linked(s'.m, u, s'.pc[u]) {
        if u != t {
          assert Linked(s.m, u, s.pc[u]);
          OthersLinked(s.m, s'.m, t, u, s.pc[u]);
        }
      }
      assert s'.pc.Keys == s.pc.Keys;
    }
  }

  lemma {:induction false} ExecSafe(threads: set<Tid>, run: seq<Event>)
    ensures Safe(Exec(threads, run)) && Exec(threads, run).pc.Keys == threads
  {
    if run == [] {
      InitSafe(threads);
    } else {
      var s := Exec(threads, run[..|run| - 1]);
      ExecSafe(threads, run[..|run| - 1]);
      if run[|run| - 1].0 in s.pc {
        StepSafe(s, run[|run| - 1].0, run[|run| - 1].1);
      }
    }
  }

  function Readers(s: State): set<Tid> { set t | t in s.pc && HoldsRead(s.pc[t]) }

  function Writers(s: State): set<Tid> { set t | t in s.pc && HoldsWrite(s.pc[t]) }

  /** Where an unlock looks at the word, it finds what it needs: RUnlock a reader, Unlock the writer bit, and its
      compare-and-swap the word it has read. Each of these tests guards a panic. */
  predicate UnlockFits(m: Memory, p: PC) {
    && (p.RuLoad? || p.RuCas? ==> ReaderCount(m.word) != 0)
    && (p.UwLoad? || p.UwCas? ==> HasWriter(m.word))
    && (p.UwCas? ==> p.st == m.word)
  }

  /** The unlock and inconsistency panics are never reached, with any number of goroutines. */
  lemma {:induction false} UnlocksDoNotPanic(threads: set<Tid>, run: seq<Event>, t: Tid)
    requires t in Exec(threads, run).pc
    ensures var s := Exec(threads, run);
            UnlockFits(s.m, s.pc[t]) && (DoRelease(s.m, s.pc[t]).0.crashed ==> s.m.crashed)
  {
    hide Exec, Linked, Known, SizeOk;
    var s := Exec(threads, run);
    ExecSafe(threads, run);
    TotalNonNegative(s.pc, ReadWeight);
    TotalNonNegative(s.pc, WriteWeight);
  }

  /** In every run the word is the exact number of read holders, or the writer bit
      with exactly one write holder; the only panic there can be, that of a saturated
      reader count, needs 2^30-1 goroutines. */
  lemma {:induction false} WordWellFormed(threads: set<Tid>, run: seq<Event>)
    ensures var s := Exec(threads, run);
            && ((Writers(s) == {} && s.m.word == |Readers(s)| <= MAX_READERS)
                || (|Writers(s)| == 1 && Readers(s) == {} && s.m.word == WRITER))
            && (s.m.crashed ==> |threads| >= MAX_READERS)
  {
    var s := Exec(threads, run);
    ExecSafe(threads, run);
    hide Exec;
    TotalCounts(s.pc, ReadWeight, Readers(s));
    TotalCounts(s.pc, WriteWeight, Writers(s));
    assert |s.pc| == |s.pc.Keys|;
  }

  // ---- Nobody is stranded ------------------------------------------------

  /** The writer that owns w has neither acquired nor given up. */
  ghost predicate LiveWriter(s: State, w: nat) {
    && w < |s.m.wq.ws| && s.m.wq.ws[w].owner in s.pc
    && var p := s.pc[s.m.wq.ws[w].owner];
       p == WAdd(w) || p == WRecas(w) || p == WWait(w)
  }

  /** Thread u will still dequeue a writer, signal a live one, or try the word as a writer. */
  ghost predicate Active(s: State, u: Tid) {
    u in s.pc &&
    var p := s.pc[u];
    || p.PopW? || p.SubW? || p.CheckW?
    || (p.SignalW? && LiveWriter(s, p.w))
    || p.WLoad? || p.WCas? || p.WAdd? || p.WRecas?
    || (p.WWait? && p.w < |s.m.wq.ws| && s.m.wq.ws[p.w].token)
  }

  ghost predicate Busy(s: State, u: Tid) {
    Active(s, u) || (u in s.pc && PhaseOf(s.pc[u]) == Draining)
  }

  /** Nodes in the writer queue of a free lock, phantom or not, leave someone active. */
  ghost predicate WritersServed(s: State) {
    s.m.word == 0 && !s.m.wq.Empty() ==> exists u :: Active(s, u)
  }

  /** An enqueued reader that can no longer take the lock by itself while it stays free. */
  ghost predicate Committed(s: State, w: nat) {
    && s.m.rq.Contains(w) && !s.m.rq.ws[w].cancelled && s.m.rq.ws[w].owner in s.pc
    && Commits(s.pc[s.m.rq.ws[w].owner], w)
  }

  predicate Commits(p: PC, w: nat) {
    p == RWait(w) || (p.RResize? && p.w == w && p.st != 0) || (p.RRecas? && p.w == w && p.st != 0)
  }

  ghost predicate ReadersServed(s: State) {
    s.m.word == 0 && (exists w :: Committed(s, w)) ==> exists u :: Busy(s, u)
  }

  /** A writer gives up late when the signal is already on its way to it. */
  ghost predicate LateGiveUp(s: State, t: Tid, a: Action) {
    && t in s.pc && a == GiveUp(Writer) && s.pc[t].WWait? && s.pc[t].w < |s.m.wq.ws|
    && var place := s.m.wq.ws[s.pc[t].w].place;
       place == Signaled || (place.Hand? && place.popper in s.pc && s.pc[place.popper].SignalW?)
  }

  /** While the lock is free, a popped writer that is not cancelled is still waiting. */
  lemma FreeLockWriterIsLive(s: State, w: nat)
    requires Safe(s) && s.m.word == 0 && w < |s.m.wq.ws|
    requires s.m.wq.ws[w].place.Hand? && !s.m.wq.ws[w].cancelled
    ensures LiveWriter(s, w)
  {
    SafeThread(s, s.m.wq.ws[w].owner);
    TotalNonNegative(s.pc, WriteWeight);
  }

  lemma WriterStaysLive(m: Memory, t: Tid, p: PC, a: Action, w: nat)
    requires Typed(p, m) && (p == WAdd(w) || p == WRecas(w) || p == WWait(w))
    requires m.word == 0 && Do(m, t, p, a).0.word == 0 && !m.wq.ws[w].token && !(p.WWait? && a == GiveUp(Writer))
    ensures var p' := Do(m, t, p, a).1; p' == WAdd(w) || p' == WRecas(w) || p' == WWait(w)
  {
  }

  /** A step of another thread leaves u active, unless it takes the lock. */
  lemma OthersStayActive(s: State, t: Tid, a: Action, u: Tid)
    requires Safe(s) && t in s.pc && u != t && Active(s, u) && !LateGiveUp(s, t, a)
    requires s.m.word == 0 && Step(s, t, a).m.word == 0
    ensures Active(Step(s, t, a), u)
  {
    hide Do, WordOk, Known, SizeOk;
    StepSafe(s, t, a);
    SafeThread(s, u);
    SafeThread(s, t);
    if s.pc[u].SignalW? && s.m.wq.ws[s.pc[u].w].owner == t && !s.m.crashed {
      InHand(s.m.wq, u, HandW(s.pc[u]), LiveW(s.pc[u]), s.pc[u].w);
      WriterStaysLive(s.m, t, s.pc[t], a, s.pc[u].w);
    }
  }

  lemma SignalLeavesBusy(s: State, t: Tid, a: Action)
    requires Safe(s) && Active(s, t) && t in s.pc && s.pc[t].SignalW? && !s.m.crashed
    ensures s.pc[t].w < |s.m.wq.ws| && Active(Step(s, t, a), s.m.wq.ws[s.pc[t].w].owner)
  {
    hide Known, SizeOk, DoDrain, DoRelease, DoCall, DoReader, DoWriter, WordOk, Books, Queue.Valid, Safe, HandR, LiveR;
    SafeThread(s, t);
  }

  lemma CheckLeavesBusy(s: State, t: Tid, a: Action)
    requires Safe(s) && t in s.pc && s.pc[t].CheckW? && !s.m.crashed && s.m.word == 0
    ensures Active(Step(s, t, a), t)
  {
    hide Known, SizeOk, DoDrain, DoRelease, DoCall, DoReader, DoWriter, WordOk, Books, Queue.Valid, Safe, HandR, LiveR;
    SafeThread(s, t);
    if !s.m.wq.ws[s.pc[t].w].cancelled {
      InHand(s.m.wq, t, HandW(s.pc[t]), LiveW(s.pc[t]), s.pc[t].w);
      FreeLockWriterIsLive(s, s.pc[t].w);
    }
  }

  lemma PopLeavesBusy(s: State, t: Tid, a: Action)
    requires Safe(s) && t in s.pc && (s.pc[t].PopW? || s.pc[t].SubW?) && !s.m.crashed
    ensures Busy(Step(s, t, a), t)
    ensures !Step(s, t, a).m.wq.Empty() ==> Active(Step(s, t, a), t)
  {
    hide Known, SizeOk, DoDrain, DoRelease, DoCall, DoReader, DoWriter, WordOk, Books, Queue.Valid, Safe, LiveWriter, Linked;
    SafeThread(s, t);
  }

  lemma WakerLeavesBusy(s: State, t: Tid, a: Action) returns (v: Tid)
    requires Safe(s) && Active(s, t) && s.m.word == 0 && PhaseOf(s.pc[t]) == Waking
    ensures Busy(Step(s, t, a), v)
    ensures !Step(s, t, a).m.wq.Empty() ==> Active(Step(s, t, a), v)
  {
    hide Safe, Do, LiveWriter;
    SafeThread(s, t);
    v := t;
    if !s.m.crashed {
      if s.pc[t].SignalW? {
        v := s.m.wq.ws[s.pc[t].w].owner;
        SignalLeavesBusy(s, t, a);
      } else if s.pc[t].CheckW? {
        CheckLeavesBusy(s, t, a);
      } else {
        PopLeavesBusy(s, t, a);
      }
    }
  }

  /** An active thread that steps leaves some thread busy, unless it takes the lock. */
  lemma SelfLeavesBusy(s: State, t: Tid, a: Action) returns (v: Tid)
    requires Safe(s) && Active(s, t) && !LateGiveUp(s, t, a)
    requires s.m.word == 0 && Step(s, t, a).m.word == 0
    ensures Busy(Step(s, t, a), v)
    ensures !Step(s, t, a).m.wq.Empty() ==> Active(Step(s, t, a), v)
  {
    hide Known, SizeOk, DoDrain, DoRelease, DoCall, DoReader, DoWake, WordOk;
    v := t;
    if PhaseOf(s.pc[t]) == Waking {
      v := WakerLeavesBusy(s, t, a);
    } else {
      SafeThread(s, t);
    }
  }

  /** The size counter of a free lock shows waiting writers only when someone is active. */
  lemma PositiveSize(s: State) returns (u: Tid)
    requires Safe(s) && WritersServed(s) && s.m.word == 0 && !s.m.wq.SizeIsZero()
    ensures Active(s, u)
  {
    if s.m.wq.Empty() {
      u := TotalPositive(s.pc, SizeWeight);
    } else {
      u :| Active(s, u);
    }
  }

  lemma OnlyReleaseFrees(m: Memory, t: Tid, p: PC, a: Action)
    requires Typed(p, m) && m.word > 0 && PhaseOf(p) != Releasing
    ensures Do(m, t, p, a).0.word > 0
  {
  }

  /** Only a release frees the word, and then the releasing thread is active. */
  lemma FreedByActive(s: State, t: Tid, a: Action)
    requires Safe(s) && t in s.pc && s.m.word != 0 && Step(s, t, a).m.word == 0
    ensures Active(Step(s, t, a), t)
  {
    hide Known, SizeOk, DoDrain, DoCall, DoReader, DoWriter, DoWake, Books, Queue.Valid;
    SafeThread(s, t);
    if PhaseOf(s.pc[t]) != Releasing {
      OnlyReleaseFrees(s.m, t, s.pc[t], a);
    }
  }

  /** Only the link of a writer adds to the writer queue. */
  lemma WriterLinks(m: Memory, t: Tid, p: PC, a: Action)
    requires Typed(p, m) && PhaseOf(p) == Writing && m.wq.Empty() && !DoWriter(m, t, p, a).0.wq.Empty()
    ensures DoWriter(m, t, p, a).1.WAdd?
  {
  }

  lemma OthersDoNotLink(m: Memory, t: Tid, p: PC, a: Action)
    requires Typed(p, m) && PhaseOf(p) != Writing
    ensures m.wq.Empty() ==> Do(m, t, p, a).0.wq.Empty()
  {
    hide DoWriter;
  }

  /** A node that appears in the writer queue belongs to an active thread. */
  lemma LinkedByActive(m: Memory, t: Tid, p: PC, a: Action)
    requires Typed(p, m) && m.wq.Empty() && !Do(m, t, p, a).0.wq.Empty()
    ensures Do(m, t, p, a).1.WAdd?
  {
    hide PhaseOf, Typed, DoCall, DoReader, DoWriter, DoRelease, DoWake, DoDrain;
    if PhaseOf(p) == Writing { WriterLinks(m, t, p, a); } else { OthersDoNotLink(m, t, p, a); }
  }

  lemma StepWriters(s: State, t: Tid, a: Action)
    requires Safe(s) && WritersServed(s) && t in s.pc && !LateGiveUp(s, t, a)
    ensures WritersServed(Step(s, t, a))
  {
    hide Do, Safe, LateGiveUp;
    SafeThread(s, t);
    var s' := Step(s, t, a);
    if s'.m.word == 0 && !s'.m.wq.Empty() && !s.m.crashed {
      if s.m.word != 0 {
        FreedByActive(s, t, a);
      } else if s.m.wq.Empty() {
        LinkedByActive(s.m, t, s.pc[t], a);
        assert Active(s', t);
      } else {
        var u :| Active(s, u);
        if u == t {
          var v := SelfLeavesBusy(s, t, a);
        } else {
          OthersStayActive(s, t, a, u);
        }
      }
    }
  }

  lemma ReaderCommits(m: Memory, t: Tid, p: PC, a: Action, w: nat)
    requires Typed(p, m) && m.word == 0 && Do(m, t, p, a).0.word == 0
    requires Commits(Do(m, t, p, a).1, w) && !Commits(p, w)
    ensures !m.wq.SizeIsZero() && Do(m, t, p, a).0 == m && p.RResize?
  {
    hide DoCall, DoWriter, DoRelease, DoWake, DoDrain;
    assert PhaseOf(p) == Reading by { NotReading(m, t, p, a, w); }
  }

  lemma NotReading(m: Memory, t: Tid, p: PC, a: Action, w: nat)
    requires Typed(p, m) && Commits(Do(m, t, p, a).1, w)
    ensures PhaseOf(p) == Reading
  {
  }

  /** A reader commits on a free lock only because the size counter showed a writer. */
  lemma CommitsOnSize(s: State, t: Tid, a: Action, w: nat)
    requires Safe(s) && t in s.pc && !s.m.crashed
    ensures var s' := Step(s, t, a);
            s.m.word == s'.m.word == 0 && Committed(s', w) && !Committed(s, w) ==> !s.m.wq.SizeIsZero()
  {
    hide Do, Safe, Typed, Books, Queue.Valid;
    SafeThread(s, t);
    StepSafe(s, t, a);
    HeadGrows(s.m, t, s.pc[t], a);
    var s' := Step(s, t, a);
    if s.m.word == s'.m.word == 0 && Committed(s', w) && !Committed(s, w) {
      if s'.m.rq.ws[w].owner == t && !Commits(s.pc[t], w) {
        ReaderCommits(s.m, t, s.pc[t], a, w);
      }
    }
  }

  lemma HeadGrows(m: Memory, t: Tid, p: PC, a: Action)
    requires Typed(p, m)
    ensures m.rq.head <= Do(m, t, p, a).0.rq.head
    ensures Do(m, t, p, a).1.RReload? || |m.rq.ws| == |Do(m, t, p, a).0.rq.ws|
  {
  }

  lemma StepReaders(s: State, t: Tid, a: Action)
    requires Safe(s) && WritersServed(s) && ReadersServed(s) && t in s.pc && !LateGiveUp(s, t, a)
    ensures ReadersServed(Step(s, t, a))
  {
    hide Do, Safe, LateGiveUp, Active, Committed;
    SafeThread(s, t);
    var s' := Step(s, t, a);
    if w :| s'.m.word == 0 && Committed(s', w) && !s.m.crashed {
      if s.m.word != 0 {
        FreedByActive(s, t, a);
        assert Busy(s', t);
      } else if !Committed(s, w) {
        CommitsOnSize(s, t, a, w);
        var u := PositiveSize(s);
        StillBusy(s, t, a, u, w);
      } else {
        var u :| Busy(s, u);
        StillBusy(s, t, a, u, w);
      }
    }
  }

  /** A busy thread stays busy or passes it on, as long as a committed reader is queued. */
  lemma StillBusy(s: State, t: Tid, a: Action, u: Tid, w: nat)
    requires Safe(s) && t in s.pc && !s.m.crashed && !LateGiveUp(s, t, a) && Busy(s, u)
    requires s.m.word == 0 && Step(s, t, a).m.word == 0 && Committed(Step(s, t, a), w)
    ensures exists v :: Busy(Step(s, t, a), v)
  {
    var s' := Step(s, t, a);
    hide Safe, LateGiveUp, Active, DoCall, DoReader, DoWriter, DoRelease, DoWake;
    SafeThread(s, t);
    if Active(s, u) {
      if u == t {
        var v := SelfLeavesBusy(s, t, a);
      } else {
        OthersStayActive(s, t, a, u);
        assert Busy(s', u);
      }
    } else {
      assert Busy(s', u);
    }
  }

  /** No event of the run drops a signal that is already on its way to a writer. */
  ghost predicate NoLateGiveUp(threads: set<Tid>, run: seq<Event>) {
    forall i {:trigger run[i]} :: 0 <= i < |run| ==>
      !LateGiveUp(Exec(threads, run[..i]), run[i].0, run[i].1)
  }

  lemma {:induction false} ExecServed(threads: set<Tid>, run: seq<Event>)
    requires NoLateGiveUp(threads, run)
    ensures WritersServed(Exec(threads, run)) && ReadersServed(Exec(threads, run))
  {
    hide Do, Safe, LateGiveUp, Active, Committed;
    if run == [] {
      InitServed(threads);
    } else {
      var k := |run| - 1;
      var before := run[..k];
      forall i | 0 <= i < k ensures !LateGiveUp(Exec(threads, before[..i]), before[i].0, before[i].1) {
        assert before[..i] == run[..i] && before[i] == run[i];
      }
      ExecServed(threads, before);
      ExecSafe(threads, before);
      var s := Exec(threads, before);
      if run[k].0 in s.pc {
        StepWriters(s, run[k].0, run[k].1);
        StepReaders(s, run[k].0, run[k].1);
      }
    }
  }

  lemma InitServed(threads: set<Tid>)
    ensures WritersServed(Init(threads)) && ReadersServed(Init(threads))
  {
  }

  /** No thread can take a step on its own: each is outside a call or parked without a token. */
  ghost predicate Quiescent(s: State) {
    forall t {:trigger s.pc[t]} :: t in s.pc ==>
      || s.pc[t].Idle? || s.pc[t].ReadHold? || s.pc[t].WriteHold?
      || (s.pc[t].RWait? && s.pc[t].w < |s.m.rq.ws| && !s.m.rq.ws[s.pc[t].w].token)
      || (s.pc[t].WWait? && s.pc[t].w < |s.m.wq.ws| && !s.m.wq.ws[s.pc[t].w].token)
  }

  lemma NoParkedWriter(s: State, t: Tid)
    requires Safe(s) && WritersServed(s) && Quiescent(s) && s.m.word == 0 && t in s.pc
    ensures !s.pc[t].WWait?
  {
    hide WordOk, SizeOk, ReadersServed, LateGiveUp;
    SafeThread(s, t);
    if s.pc[t].WWait? {
      var x := s.m.wq.ws[s.pc[t].w];
      if x.place.Hand? { SafeThread(s, x.place.popper); }
      assert false;
    }
  }

  lemma NoParkedReader(s: State, t: Tid)
    requires Safe(s) && ReadersServed(s) && Quiescent(s) && s.m.word == 0 && t in s.pc
    ensures !s.pc[t].RWait?
  {
    hide WordOk, SizeOk, WritersServed, LateGiveUp;
    SafeThread(s, t);
    if s.pc[t].RWait? {
      var w := s.pc[t].w;
      assert !Committed(s, w);
      if s.m.rq.ws[w].place.Hand? { SafeThread(s, s.m.rq.ws[w].place.popper); }
      assert false;
    }
  }

  lemma QuiescentFree(s: State, t: Tid)
    requires Safe(s) && WritersServed(s) && ReadersServed(s) && Quiescent(s) && s.m.word == 0 && t in s.pc
    ensures s.pc[t] == Idle
  {
    hide WritersServed, ReadersServed, SizeOk, Known, Queue.Valid, Linked;
    TotalNonNegative(s.pc, ReadWeight);
    TotalNonNegative(s.pc, WriteWeight);
    NoParkedWriter(s, t);
    NoParkedReader(s, t);
  }

  /** In every run without a late give-up, when nobody holds the lock and nobody is
      in the middle of an operation, no reader and no writer is parked. */
  lemma {:induction false} NobodyStranded(threads: set<Tid>, run: seq<Event>)
    requires NoLateGiveUp(threads, run)
    ensures var s := Exec(threads, run);
            Quiescent(s) && Readers(s) == {} && Writers(s) == {} ==> forall t :: t in s.pc ==> s.pc[t] == Idle
  {
    ExecSafe(threads, run);
    ExecServed(threads, run);
    WordWellFormed(threads, run);
    var s := Exec(threads, run);
    hide Exec, Safe;
    if Quiescent(s) && Readers(s) == {} && Writers(s) == {} {
      assert s.m.word == 0;
      forall t | t in s.pc ensures s.pc[t] == Idle {
        QuiescentFree(s, t);
      }
    }
  }

  /** No caller of this kind has a context that ends. */
  predicate NoGiveUp(run: seq<Event>, kind: Kind) { forall i :: 0 <= i < |run| ==> run[i].1 != GiveUp(kind) }

  /** In particular callers strand nobody as long as those of Lock have no context; those of RLock may have one, since a
      release that finds no writer wakes all readers. */
  lemma {:induction false} PlainWritersStrandNobody(threads: set<Tid>, run: seq<Event>)
    requires NoGiveUp(run, Writer)
    ensures var s := Exec(threads, run);
            Quiescent(s) && Readers(s) == {} && Writers(s) == {} ==> forall t :: t in s.pc ==> s.pc[t] == Idle
  {
    hide Exec, Quiescent;
    NobodyStranded(threads, run);
  }

  // ---- Writer preference -------------------------------------------------

  /** The call has looked at the writer queue and found it empty, or reads. */
  predicate PastWriters(p: PC) { p.RCas? || p.TryCas? || p.RRecas? || HoldsRead(p) }

  lemma GivesWay(m: Memory, t: Tid, p: PC, a: Action)
    requires Typed(p, m) && !m.wq.SizeIsZero() && !PastWriters(p)
    ensures !PastWriters(Do(m, t, p, a).1)
  {
  }

  lemma StepGivesWay(s: State, u: Tid, a: Action, t: Tid)
    requires t in s.pc && !s.m.wq.SizeIsZero() && !PastWriters(s.pc[t])
    ensures t in Step(s, u, a).pc && !PastWriters(Step(s, u, a).pc[t])
  {
    hide Do, PastWriters;
    if u == t && Enabled(s, t) { GivesWay(s.m, t, s.pc[t], a); }
  }

  /** A reader gives way to waiting writers: as long as the writer queue's counter is positive, a thread that was outside
      a call, and any that has not looked at the counter since it was not, does not come to read. */
  lemma {:induction false} ReadersGiveWay(threads: set<Tid>, run: seq<Event>, i: nat, k: nat, t: Tid)
    requires i <= k <= |run| && t in Exec(threads, run[..i]).pc && !PastWriters(Exec(threads, run[..i]).pc[t])
    requires forall j :: i <= j < k ==> !Exec(threads, run[..j]).m.wq.SizeIsZero()
    ensures t in Exec(threads, run[..k]).pc && !PastWriters(Exec(threads, run[..k]).pc[t])
    ensures t !in Readers(Exec(threads, run[..k]))
    decreases k
  {
    hide Exec, PastWriters;
    if i == k {
      assert t in Exec(threads, run[..k]).pc;
    } else {
      ReadersGiveWay(threads, run, i, k - 1, t);
      assert run[..k] == run[..k - 1] + [run[k - 1]];
      RunOn(threads, run[..k - 1], run[k - 1]);
      StepGivesWay(Exec(threads, run[..k - 1]), run[k - 1].0, run[k - 1].1, t);
    }
    ReadsPast(Exec(threads, run[..k]).pc[t]);
  }

  lemma ReadsPast(p: PC)
    ensures HoldsRead(p) ==> PastWriters(p)
  {
  }

  lemma {:induction false} RunOn(threads: set<Tid>, run: seq<Event>, e: Event)
    ensures Exec(threads, run + [e]) == Step(Exec(threads, run), e.0, e.1)
  {
    assert (run + [e])[..|run|] == run;
  }

  // ---- A thread on its own -----------------------------------------------

  /** The thread is parked without a token. */
  predicate Parked(s: State, t: Tid) {
    && t in s.pc
    && ((s.pc[t].RWait? && s.pc[t].w < |s.m.rq.ws| && !s.m.rq.ws[s.pc[t].w].token)
        || (s.pc[t].WWait? && s.pc[t].w < |s.m.wq.ws| && !s.m.wq.ws[s.pc[t].w].token))
  }

  /** The thread is outside a call or parked without a token. */
  predicate Rests(s: State, t: Tid) { t in s.pc && (s.pc[t].Idle? || s.pc[t].ReadHold? || s.pc[t].WriteHold? || Parked(s, t)) }

  lemma DoMoves(m: Memory, t: Tid, p: PC)
    requires Typed(p, m) && !m.crashed
    ensures Do(m, t, p, Run) == (m, p) <==>
            || p.Idle? || p.ReadHold? || p.WriteHold?
            || (p.RWait? && !m.rq.ws[p.w].token) || (p.WWait? && !m.wq.ws[p.w].token)
  {
  }

  /** A thread can move unless it rests. */
  lemma MovesExactly(s: State, t: Tid)
    requires Safe(s) && t in s.pc && !s.m.crashed
    ensures Step(s, t, Run) == s <==> Rests(s, t)
  {
    hide Known, Books, Do;
    SafeThread(s, t);
    DoMoves(s.m, t, s.pc[t]);
    assert s.pc == s.pc[t := s.pc[t]];
    if Step(s, t, Run) == s { assert Step(s, t, Run).pc[t] == s.pc[t]; }
  }

  /** The state after n steps of t alone. */
  ghost function Alone(s: State, t: Tid, n: nat): State
    decreases n
  {
    if n == 0 then s else Alone(Step(s, t, Run), t, n - 1)
  }

  lemma {:induction false} AloneAdds(s: State, t: Tid, a: nat, b: nat)
    ensures Alone(Alone(s, t, a), t, b) == Alone(s, t, a + b)
    decreases a
  {
    hide Step;
    if a == 0 {
      assert Alone(s, t, a) == s;
    } else {
      AloneAdds(Step(s, t, Run), t, a - 1, b);
    }
  }

  lemma AloneFew(s: State, t: Tid)
    ensures Alone(s, t, 1) == Step(s, t, Run)
    ensures Alone(s, t, 2) == Step(Step(s, t, Run), t, Run)
    ensures Alone(s, t, 3) == Step(Step(Step(s, t, Run), t, Run), t, Run)
  {
    hide Step;
    var s1 := Step(s, t, Run);
    var s2 := Step(s1, t, Run);
    assert Alone(s, t, 1) == Alone(s1, t, 0);
    assert Alone(s, t, 2) == Alone(s1, t, 1) == Alone(s2, t, 0);
    assert Alone(s, t, 3) == Alone(s1, t, 2) == Alone(s2, t, 1) == Alone(Step(s2, t, Run), t, 0);
  }

  /** No writer holds the lock, none is counted as waiting, and there is room for a reader. */
  predicate OpenToReaders(m: Memory) { !HasWriter(m.word) && m.wq.size <= 0 && m.word < MAX_READERS }

  lemma TryLoadStep(s: State, t: Tid)
    requires !s.m.crashed && t in s.pc && s.pc[t].TryLoad?
    ensures Step(s, t, Run) == s.(pc := s.pc[t := if HasWriter(s.m.word) then Idle else TrySize(s.m.word)])
  {
    hide DoReader, DoWriter, DoRelease, DoWake, DoDrain;
  }

  lemma TrySizeStep(s: State, t: Tid)
    requires !s.m.crashed && t in s.pc && s.pc[t].TrySize?
    ensures var st := s.pc[t].st;
            Step(s, t, Run) == s.(pc := s.pc[t := if s.m.wq.size > 0 || st >= MAX_READERS then Idle else TryCas(st)])
  {
    hide DoReader, DoWriter, DoRelease, DoWake, DoDrain;
  }

  lemma TryCasStep(s: State, t: Tid)
    requires !s.m.crashed && t in s.pc && s.pc[t].TryCas? && s.pc[t].st == s.m.word
    ensures Step(s, t, Run) == State(s.m.(word := s.m.word + 1), s.pc[t := ReadHold])
  {
    hide DoReader, DoWriter, DoRelease, DoWake, DoDrain;
  }

  lemma IdleStep(s: State, t: Tid)
    requires !s.m.crashed && t in s.pc && s.pc[t].Idle?
    ensures Step(s, t, Run) == s && Step(s, t, CallTryRLock) == s.(pc := s.pc[t := TryLoad])
  {
    assert s.pc == s.pc[t := Idle];
  }

  /** An undisturbed TryRLock succeeds exactly if the lock is open to readers, and changes nothing otherwise. */
  lemma TryRLockExactly(s: State, t: Tid)
    requires !s.m.crashed && t in s.pc && s.pc[t].Idle?
    ensures Alone(Step(s, t, CallTryRLock), t, 3) ==
            if OpenToReaders(s.m) then State(s.m.(word := s.m.word + 1), s.pc[t := ReadHold]) else s
  {
    hide Alone, Step, HasWriter;
    IdleStep(s, t);
    var s1 := Step(s, t, CallTryRLock);
    AloneFew(s1, t);
    assert s.pc == s.pc[t := Idle];
    TryLoadStep(s1, t);
    var s2 := Step(s1, t, Run);
    assert s.pc[t := TryLoad][t := Idle] == s.pc;
    if HasWriter(s.m.word) {
      assert s2 == s;
    } else {
      TrySizeStep(s2, t);
      var s3 := Step(s2, t, Run);
      if OpenToReaders(s.m) {
        TryCasStep(s3, t);
        assert s3.pc[t := ReadHold] == s.pc[t := ReadHold];
      } else {
        assert s3.pc == s.pc[t := Idle];
        assert s3 == s;
      }
    }
  }

  lemma TryLockExactly(s: State, t: Tid)
    requires !s.m.crashed && t in s.pc && s.pc[t].Idle?
    ensures Step(s, t, CallTryLock) == if s.m.word == 0 then State(s.m.(word := WRITER), s.pc[t := WriteHold]) else s
  {
    assert s.pc == s.pc[t := Idle];
  }

  /** An undisturbed RLock of a lock that is open to readers gets in. */
  lemma RLockAlone(s: State, t: Tid)
    requires !s.m.crashed && t in s.pc && s.pc[t].Idle? && OpenToReaders(s.m)
    ensures Alone(Step(s, t, CallRLock), t, 3) == State(s.m.(word := s.m.word + 1), s.pc[t := ReadHold])
  {
    hide Alone, DoWriter, DoRelease, DoWake, DoDrain;
    var s1 := Step(s, t, CallRLock);
    AloneFew(s1, t);
    var s2 := Step(s1, t, Run);
    assert s2 == s.(pc := s.pc[t := RSize(s.m.word)]);
  }

  /** An undisturbed Lock of a free lock gets in. */
  lemma LockAlone(s: State, t: Tid)
    requires !s.m.crashed && t in s.pc && s.pc[t].Idle? && s.m.word == 0
    ensures Alone(Step(s, t, CallLock), t, 2) == State(s.m.(word := WRITER), s.pc[t := WriteHold])
  {
    hide Alone, DoReader, DoRelease, DoWake, DoDrain;
    AloneFew(Step(s, t, CallLock), t);
  }

  lemma ReaderStep(s: State, t: Tid)
    requires Enabled(s, t) && PhaseOf(s.pc[t]) == Reading
    ensures var (m, p) := DoReader(s.m, t, s.pc[t], Run); Step(s, t, Run) == State(m, s.pc[t := p])
  {
    hide DoReader;
  }

  lemma WriterStep(s: State, t: Tid)
    requires Enabled(s, t) && PhaseOf(s.pc[t]) == Writing
    ensures var (m, p) := DoWriter(s.m, t, s.pc[t], Run); Step(s, t, Run) == State(m, s.pc[t := p])
  {
    hide DoWriter;
  }

  lemma ReadsFromLoad(s: State, t: Tid)
    requires Enabled(s, t) && s.pc[t].RLoad? && OpenToReaders(s.m)
    ensures Alone(s, t, 3) == State(s.m.(word := s.m.word + 1), s.pc[t := ReadHold])
  {
    hide Alone, Step, HasWriter;
    AloneFew(s, t);
    ReaderStep(s, t);
    var s1 := Step(s, t, Run);
    assert s1 == s.(pc := s.pc[t := RSize(s.m.word)]);
    ReaderStep(s1, t);
    ReaderStep(Step(s1, t, Run), t);
  }

  /** A reader that has been woken gets in if the lock is still open to readers, */
  lemma WokenReads(s: State, t: Tid)
    requires Enabled(s, t) && s.pc[t].RWait? && s.m.rq.ws[s.pc[t].w].token && OpenToReaders(s.m)
    ensures Alone(s, t, 4) ==
            State(s.m.(word := s.m.word + 1, rq := s.m.rq.Receive(s.pc[t].w)), s.pc[t := ReadHold])
  {
    hide Alone, Step, HasWriter;
    AloneFew(s, t);
    ReaderStep(s, t);
    AloneAdds(s, t, 1, 3);
    ReadsFromLoad(Alone(s, t, 1), t);
  }

  /** and a writer if the lock is still free. */
  lemma WokenWrites(s: State, t: Tid)
    requires Enabled(s, t) && s.pc[t].WWait? && s.m.wq.ws[s.pc[t].w].token && s.m.word == 0
    ensures Alone(s, t, 3) == State(s.m.(word := WRITER, wq := s.m.wq.Receive(s.pc[t].w)), s.pc[t := WriteHold])
  {
    hide Alone, Step;
    AloneFew(s, t);
    WriterStep(s, t);
    var s1 := Step(s, t, Run);
    assert s1 == State(s.m.(wq := s.m.wq.Receive(s.pc[t].w)), s.pc[t := WLoad]);
    WriterStep(s1, t);
    WriterStep(Step(s1, t, Run), t);
  }

  // ---- Whom an undisturbed release wakes ---------------------------------

  lemma DrainStep(s: State, t: Tid)
    requires !s.m.crashed && t in s.pc && PhaseOf(s.pc[t]) == Draining && Typed(s.pc[t], s.m)
    ensures Step(s, t, Run) == State(DoDrain(s.m, t, s.pc[t]).0, s.pc[t := DoDrain(s.m, t, s.pc[t]).1])
  {
    hide DoDrain;
  }

  /** The four steps of the wake-up of a writer. */
  lemma PopWStep(s: State, t: Tid)
    requires !s.m.crashed && t in s.pc && s.pc[t].PopW?
    ensures Step(s, t, Run) ==
            if s.m.wq.Empty() then s.(pc := s.pc[t := PopR])
            else s.(m := s.m.(wq := s.m.wq.Pop(t)), pc := s.pc[t := SubW(s.m.wq.head)])
  {
    hide DoReader, DoWriter, DoCall, DoRelease, DoDrain;
  }

  lemma SubWStep(s: State, t: Tid)
    requires !s.m.crashed && t in s.pc && s.pc[t].SubW? && s.pc[t].w < |s.m.wq.ws|
    ensures Step(s, t, Run) == s.(m := s.m.(wq := s.m.wq.Add(-1)), pc := s.pc[t := CheckW(s.pc[t].w)])
  {
    hide DoReader, DoWriter, DoCall, DoRelease, DoDrain;
  }

  lemma CheckWStep(s: State, t: Tid)
    requires !s.m.crashed && t in s.pc && s.pc[t].CheckW? && s.pc[t].w < |s.m.wq.ws|
    ensures var (q, w) := (s.m.wq, s.pc[t].w);
            Step(s, t, Run) ==
            if q.ws[w].cancelled then s.(m := s.m.(wq := q.Discard(w)), pc := s.pc[t := PopW])
            else s.(pc := s.pc[t := SignalW(w)])
  {
    hide DoReader, DoWriter, DoCall, DoRelease, DoDrain;
  }

  lemma SignalWStep(s: State, t: Tid)
    requires !s.m.crashed && t in s.pc && s.pc[t].SignalW? && s.pc[t].w < |s.m.wq.ws|
    ensures Step(s, t, Run) == s.(m := s.m.(wq := s.m.wq.Send(s.pc[t].w)), pc := s.pc[t := Idle])
  {
    hide DoReader, DoWriter, DoCall, DoRelease, DoDrain;
  }

  lemma DrainTurn(s: State, t: Tid)
    requires !s.m.crashed && t in s.pc && s.pc[t].PopR?
    ensures s.m.rq.Empty() ==> Alone(s, t, 1) == s.(pc := s.pc[t := Idle])
    ensures !s.m.rq.Empty() && s.m.rq.ws[s.m.rq.head].cancelled ==>
              Alone(s, t, 2) == s.(m := s.m.(rq := FirstDropped(s.m.rq, t)))
    ensures !s.m.rq.Empty() && !s.m.rq.ws[s.m.rq.head].cancelled ==>
              Alone(s, t, 3) == s.(m := s.m.(rq := FirstServed(s.m.rq, t)))
  {
    hide Step, Alone;
    AloneFew(s, t);
    DrainStep(s, t);
    assert s.pc[t := s.pc[t]] == s.pc;
    if !s.m.rq.Empty() {
      DrainStep(Step(s, t, Run), t);
      if !s.m.rq.ws[s.m.rq.head].cancelled { DrainStep(Step(Step(s, t, Run), t, Run), t); }
    }
  }

  lemma {:induction false} DrainsMany(s: State, t: Tid, many: int) returns (n: nat)
    requires !s.m.crashed && t in s.pc && s.pc[t].PopR? && s.m.rq.Valid() && many >= |s.m.rq.ws| - s.m.rq.head
    ensures var s' := Alone(s, t, n);
            s'.pc == s.pc[t := Idle] && s'.m == s.m.(rq := s'.m.rq) && Woken(s.m.rq, s'.m.rq, many)
    decreases |s.m.rq.ws| - s.m.rq.head
  {
    hide Step, Alone, Woken, FirstDropped, FirstServed, Queue.Valid, DoDrain, DoWake;
    var q := s.m.rq;
    DrainTurn(s, t);
    if q.Empty() {
      n := 1;
      WokenNone(q, many);
    } else if q.ws[q.head].cancelled {
      DroppedOut(q, t);
      var k := DrainsMany(Alone(s, t, 2), t, many);
      AloneAdds(s, t, 2, k);
      n := 2 + k;
      WokenSkip(q, FirstDropped(q, t), Alone(s, t, n).m.rq, many);
    } else {
      ServedOut(q, t);
      var k := DrainsMany(Alone(s, t, 3), t, many - 1);
      AloneAdds(s, t, 3, k);
      n := 3 + k;
      WokenFirst(q, FirstServed(q, t), Alone(s, t, n).m.rq, many);
    }
  }

  /** Without a writer to wake, every live reader gets a token, and nobody else. */
  lemma {:induction false} DrainsAll(s: State, t: Tid) returns (n: nat)
    requires !s.m.crashed && t in s.pc && s.pc[t].PopR? && s.m.rq.Valid()
    ensures var s' := Alone(s, t, n);
            s'.pc == s.pc[t := Idle] && s'.m == s.m.(rq := s'.m.rq) && AllWoken(s.m.rq, s'.m.rq)
  {
    hide Step, Alone, Woken, AllWoken, Queue.Valid;
    n := DrainsMany(s, t, |s.m.rq.ws|);
    WokenAll(s.m.rq, Alone(s, t, n).m.rq, |s.m.rq.ws|);
  }

  /** The first writer popped, counted down, and dropped or signaled. */
  function WriterDropped(q: Queue, t: Tid): Queue
    requires !q.Empty()
  {
    q.Pop(t).Add(-1).Discard(q.head)
  }

  function WriterServed(q: Queue, t: Tid): Queue
    requires !q.Empty()
  {
    q.Pop(t).Add(-1).Send(q.head)
  }

  lemma WriterOut(q: Queue, t: Tid)
    requires !q.Empty()
    ensures FirstOut(q, WriterDropped(q, t)) && WriterDropped(q, t).ws[q.head].token == q.ws[q.head].token
    ensures q.Valid() && q.ws[q.head].cancelled ==> WriterDropped(q, t).Valid()
    ensures FirstOut(q, WriterServed(q, t)) && WriterServed(q, t).ws[q.head].token
    ensures WriterServed(q, t).ws[q.head].place == Signaled
  {
  }

  lemma WakeTurnSkips(s: State, t: Tid)
    requires !s.m.crashed && t in s.pc && s.pc[t].PopW? && !s.m.wq.Empty() && s.m.wq.ws[s.m.wq.head].cancelled
    ensures Alone(s, t, 3) == s.(m := s.m.(wq := WriterDropped(s.m.wq, t)))
  {
    hide Step, Alone;
    AloneFew(s, t);
    var s1 := Step(s, t, Run);
    PopWStep(s, t);
    SubWStep(s1, t);
    CheckWStep(Step(s1, t, Run), t);
    assert s.pc[t := s.pc[t]] == s.pc;
  }

  lemma WakeTurnServes(s: State, t: Tid)
    requires !s.m.crashed && t in s.pc && s.pc[t].PopW? && !s.m.wq.Empty() && !s.m.wq.ws[s.m.wq.head].cancelled
    ensures Alone(s, t, 4) == s.(m := s.m.(wq := WriterServed(s.m.wq, t)), pc := s.pc[t := Idle])
  {
    hide Step, Alone;
    AloneFew(s, t);
    AloneAdds(s, t, 3, 1);
    AloneFew(Alone(s, t, 3), t);
    var s1 := Step(s, t, Run);
    PopWStep(s, t);
    SubWStep(s1, t);
    var s2 := Step(s1, t, Run);
    CheckWStep(s2, t);
    SignalWStep(Step(s2, t, Run), t);
  }

  /** No writer in the queue is live. */
  ghost predicate NoLiveWriter(q: Queue) { forall w :: !LiveIn(q, w) }

  /** An undisturbed wake-up prefers writers: the first live writer gets a token, and nobody else; only if there is none
      do all live readers. */
  lemma {:induction false} WakesWriterOrReaders(s: State, t: Tid) returns (n: nat)
    requires !s.m.crashed && t in s.pc && s.pc[t].PopW? && s.m.wq.Valid() && s.m.rq.Valid()
    ensures var s' := Alone(s, t, n);
            && s'.pc == s.pc[t := Idle] && s'.m.word == s.m.word && Woken(s.m.wq, s'.m.wq, 1)
            && (if NoLiveWriter(s.m.wq) then AllWoken(s.m.rq, s'.m.rq) else s'.m.rq == s.m.rq)
    decreases |s.m.wq.ws| - s.m.wq.head
  {
    hide Step, Alone, Woken, AllWoken, WriterDropped, WriterServed, Queue.Valid, DoDrain, DoWake;
    var q := s.m.wq;
    if q.Empty() {
      AloneFew(s, t);
      PopWStep(s, t);
      var k := DrainsAll(Alone(s, t, 1), t);
      AloneAdds(s, t, 1, k);
      n := 1 + k;
      WokenNone(q, 1);
    } else if q.ws[q.head].cancelled {
      WriterOut(q, t);
      WakeTurnSkips(s, t);
      var k := WakesWriterOrReaders(Alone(s, t, 3), t);
      AloneAdds(s, t, 3, k);
      n := 3 + k;
      WokenSkip(q, WriterDropped(q, t), Alone(s, t, n).m.wq, 1);
      SameLive(q, WriterDropped(q, t));
    } else {
      WriterOut(q, t);
      WakeTurnServes(s, t);
      n := 4;
      WokenNone(WriterServed(q, t), 0);
      WokenFirst(q, WriterServed(q, t), WriterServed(q, t), 1);
      assert LiveIn(q, q.head);
    }
  }

  lemma SameLive(q: Queue, q1: Queue)
    requires FirstOut(q, q1) && q.ws[q.head].cancelled
    ensures NoLiveWriter(q) <==> NoLiveWriter(q1)
  {
    forall w: nat ensures LiveIn(q, w) <==> LiveIn(q1, w) { }
  }

  lemma ReleaseStep(s: State, t: Tid)
    requires !s.m.crashed && t in s.pc && PhaseOf(s.pc[t]) == Releasing && Typed(s.pc[t], s.m)
    ensures Step(s, t, Run) == State(DoRelease(s.m, s.pc[t]).0, s.pc[t := DoRelease(s.m, s.pc[t]).1])
  {
    hide DoRelease;
  }

  lemma CallStep(s: State, t: Tid, a: Action)
    requires !s.m.crashed && t in s.pc && PhaseOf(s.pc[t]) == Calling && Typed(s.pc[t], s.m)
    ensures Step(s, t, a) == State(DoCall(s.m, s.pc[t], a).0, s.pc[t := DoCall(s.m, s.pc[t], a).1])
  {
    hide DoCall;
  }

  lemma UnlockSteps(s: State, t: Tid)
    requires !s.m.crashed && t in s.pc && s.pc[t].WriteHold? && s.m.word == WRITER
    ensures Alone(Step(s, t, CallUnlock), t, 2) == State(s.m.(word := 0), s.pc[t := PopW])
  {
    hide Alone, Step;
    CallStep(s, t, CallUnlock);
    var s1 := Step(s, t, CallUnlock);
    AloneFew(s1, t);
    ReleaseStep(s1, t);
    ReleaseStep(Step(s1, t, Run), t);
  }

  /** An undisturbed Unlock frees the lock and wakes the first live writer or, if there is none, all live readers. */
  lemma {:induction false} UnlockAlone(s: State, t: Tid) returns (n: nat)
    requires Safe(s) && !s.m.crashed && t in s.pc && s.pc[t].WriteHold?
    ensures var s' := Alone(Step(s, t, CallUnlock), t, n);
            && s'.pc == s.pc[t := Idle] && s'.m.word == 0 && Woken(s.m.wq, s'.m.wq, 1)
            && (if NoLiveWriter(s.m.wq) then AllWoken(s.m.rq, s'.m.rq) else s'.m.rq == s.m.rq)
  {
    hide Alone, Woken, AllWoken, Known, Linked, SizeOk, Step, NoLiveWriter, Queue.Valid;
    TotalNonNegative(s.pc, ReadWeight);
    TotalNonNegative(s.pc, WriteWeight);
    var s1 := Step(s, t, CallUnlock);
    UnlockSteps(s, t);
    n := WakesWriterOrReaders(Alone(s1, t, 2), t);
    AloneAdds(s1, t, 2, n);
    n := 2 + n;
  }

  lemma RUnlockSteps(s: State, t: Tid)
    requires !s.m.crashed && t in s.pc && s.pc[t].ReadHold? && 1 <= s.m.word <= MAX_READERS
    ensures Alone(Step(s, t, CallRUnlock), t, 2) ==
            State(s.m.(word := s.m.word - 1), s.pc[t := if s.m.word == 1 then PopW else Idle])
  {
    hide Alone, Step;
    CallStep(s, t, CallRUnlock);
    var s1 := Step(s, t, CallRUnlock);
    AloneFew(s1, t);
    ReleaseStep(s1, t);
    ReleaseStep(Step(s1, t, Run), t);
  }

  /** An undisturbed RUnlock takes one reader off; the last one wakes as Unlock does, any other wakes nobody. */
  lemma {:induction false} RUnlockAlone(s: State, t: Tid) returns (n: nat)
    requires Safe(s) && !s.m.crashed && t in s.pc && s.pc[t].ReadHold?
    ensures var s' := Alone(Step(s, t, CallRUnlock), t, n);
            && s'.pc == s.pc[t := Idle] && s'.m.word == s.m.word - 1
            && (if s.m.word != 1 then s'.m.wq == s.m.wq && s'.m.rq == s.m.rq
                else Woken(s.m.wq, s'.m.wq, 1)
                     && if NoLiveWriter(s.m.wq) then AllWoken(s.m.rq, s'.m.rq) else s'.m.rq == s.m.rq)
  {
    hide Alone, Woken, AllWoken, Known, Linked, SizeOk, Step, NoLiveWriter, Queue.Valid;
    TotalNonNegative(s.pc, ReadWeight);
    TotalNonNegative(s.pc, WriteWeight);
    var s1 := Step(s, t, CallRUnlock);
    RUnlockSteps(s, t);
    if s.m.word == 1 {
      n := WakesWriterOrReaders(Alone(s1, t, 2), t);
      AloneAdds(s1, t, 2, n);
      n := 2 + n;
    } else {
      n := 2;
    }
  }

  /** A call whose context is done ends without the lock; its waiter, if it has one, is cancelled and nobody is woken. */
  lemma GiveUpEnds(s: State, t: Tid)
    requires Enabled(s, t) && (s.pc[t].RLink? || s.pc[t].RWait? || s.pc[t].WLink? || s.pc[t].WWait?)
    ensures var p := s.pc[t];
            var s' := Step(s, t, GiveUp(if p.RLink? || p.RWait? then Reader else Writer));
            && s'.pc == s.pc[t := Idle]
            && s'.m == if p.RWait? then s.m.(rq := s.m.rq.Cancel(p.w))
                       else if p.WWait? then s.m.(wq := s.m.wq.Cancel(p.w)) else s.m
  {
  }

  // ---- A late give-up does strand a waiter -------------------------------

  const THREE: set<Tid> := {0, 1, 2}

  /** Three threads, no readers. */
  function At(word: int, wq: Queue, p: PC, q: PC, r: PC): State {
    State(Memory(word, EMPTY, wq, false), map[0 := p, 1 := q, 2 := r])
  }

  lemma {:induction false} ExecSnoc(run: seq<Event>, e: Event)
    ensures Exec(THREE, run + [e]) == Step(Exec(THREE, run), e.0, e.1)
  {
    assert (run + [e])[..|run|] == run;
  }

  lemma {:induction false} ExecStart()
    ensures Exec(THREE, []) == At(0, EMPTY, Idle, Idle, Idle)
  {
  }

  /** Thread 0 takes the lock. */
  lemma {:induction false} FirstHolds() returns (run: seq<Event>)
    ensures NoGiveUp(run, Reader) && Exec(THREE, run) ==
            At(WRITER, EMPTY, WriteHold, Idle, Idle)
  {
    hide Exec;
    run := [];
    ExecStart();
    ExecSnoc(run, (0, CallLock)); run := run + [(0, CallLock)];
    ExecSnoc(run, (0, Run)); run := run + [(0, Run)];
    ExecSnoc(run, (0, Run)); run := run + [(0, Run)];
  }

  /** Thread 1 enqueues a writer. */
  lemma {:induction false} SecondLinked() returns (run: seq<Event>)
    ensures NoGiveUp(run, Reader) && Exec(THREE, run) ==
            At(WRITER, Queue([Waiter(1, false, false, Queued)], 0, 0), WriteHold, WAdd(0), Idle)
  {
    hide Exec;
    run := FirstHolds();
    ExecSnoc(run, (1, CallLock)); run := run + [(1, CallLock)];
    ExecSnoc(run, (1, Run)); run := run + [(1, Run)];
    ExecSnoc(run, (1, Run)); run := run + [(1, Run)];
  }

  /** It parks. */
  lemma {:induction false} SecondParked() returns (run: seq<Event>)
    ensures NoGiveUp(run, Reader) && Exec(THREE, run) ==
            At(WRITER, Queue([Waiter(1, false, false, Queued)], 0, 1), WriteHold, WWait(0), Idle)
  {
    hide Exec;
    run := SecondLinked();
    ExecSnoc(run, (1, Run)); run := run + [(1, Run)];
    ExecSnoc(run, (1, Run)); run := run + [(1, Run)];
  }

  /** So does thread 2. */
  lemma {:induction false} ThirdLinked() returns (run: seq<Event>)
    ensures NoGiveUp(run, Reader) && Exec(THREE, run) ==
            At(WRITER, Queue([Waiter(1, false, false, Queued), Waiter(2, false, false, Queued)], 0, 1),
               WriteHold, WWait(0), WAdd(1))
  {
    hide Exec;
    run := SecondParked();
    ExecSnoc(run, (2, CallLock)); run := run + [(2, CallLock)];
    ExecSnoc(run, (2, Run)); run := run + [(2, Run)];
    ExecSnoc(run, (2, Run)); run := run + [(2, Run)];
  }

  /** Both are parked. */
  lemma {:induction false} ThirdParked() returns (run: seq<Event>)
    ensures NoGiveUp(run, Reader) && Exec(THREE, run) ==
            At(WRITER, Queue([Waiter(1, false, false, Queued), Waiter(2, false, false, Queued)], 0, 2),
               WriteHold, WWait(0), WWait(1))
  {
    hide Exec;
    run := ThirdLinked();
    ExecSnoc(run, (2, Run)); run := run + [(2, Run)];
    ExecSnoc(run, (2, Run)); run := run + [(2, Run)];
  }

  /** Thread 0 unlocks. */
  lemma {:induction false} Freed() returns (run: seq<Event>)
    ensures NoGiveUp(run, Reader) && Exec(THREE, run) ==
            At(0, Queue([Waiter(1, false, false, Queued), Waiter(2, false, false, Queued)], 0, 2),
               PopW, WWait(0), WWait(1))
  {
    hide Exec;
    run := ThirdParked();
    ExecSnoc(run, (0, CallUnlock)); run := run + [(0, CallUnlock)];
    ExecSnoc(run, (0, Run)); run := run + [(0, Run)];
    ExecSnoc(run, (0, Run)); run := run + [(0, Run)];
  }

  /** It pops thread 1, */
  lemma {:induction false} FirstPopped() returns (run: seq<Event>)
    ensures NoGiveUp(run, Reader) && Exec(THREE, run) ==
            At(0, Queue([Waiter(1, false, false, Hand(0)), Waiter(2, false, false, Queued)], 1, 1),
               CheckW(0), WWait(0), WWait(1))
  {
    hide Exec;
    run := Freed();
    ExecSnoc(run, (0, Run)); run := run + [(0, Run)];
    ExecSnoc(run, (0, Run)); run := run + [(0, Run)];
  }

  /** and signals it. */
  lemma {:induction false} FirstSignaled() returns (run: seq<Event>)
    ensures NoGiveUp(run, Reader) && Exec(THREE, run) ==
            At(0, Queue([Waiter(1, false, true, Signaled), Waiter(2, false, false, Queued)], 1, 1),
               Idle, WWait(0), WWait(1))
  {
    hide Exec;
    run := FirstPopped();
    ExecSnoc(run, (0, Run)); run := run + [(0, Run)];
    ExecSnoc(run, (0, Run)); run := run + [(0, Run)];
  }

  /** The context of thread 1 is then done, and thread 2 waits for ever on a free lock. */
  lemma {:induction false} LateGiveUpStrands() returns (run: seq<Event>)
    ensures NoGiveUp(run, Reader) && Stranded(Exec(THREE, run))
  {
    hide Exec;
    run := FirstSignaled();
    ExecSnoc(run, (1, GiveUp(Writer))); run := run + [(1, GiveUp(Writer))];
    assert Exec(THREE, run).pc[2] == WWait(1);
  }

  /** Somebody is parked on a lock that is free, and no thread can move. */
  ghost predicate Stranded(s: State) {
    Quiescent(s) && Readers(s) == {} && Writers(s) == {} && exists t :: t in s.pc && s.pc[t] != Idle
  }

  /** The lock strands nobody, in any run of the forms that callers use, exactly if Lock is not used with a context.
      Whether RLock is makes no difference. */
  lemma {:induction false} StrandsNobodyExactly(readers: bool, writers: bool)
    ensures (forall threads, run {:induction false} ::
               (readers || NoGiveUp(run, Reader)) && (writers || NoGiveUp(run, Writer)) ==>
                 !Stranded(Exec(threads, run)))
            <==> !writers
  {
    hide Exec, Stranded;
    if writers {
      var run := LateGiveUpStrands();
    } else {
      forall threads, run | NoGiveUp(run, Writer) ensures !Stranded(Exec(threads, run)) {
        NotStranded(threads, run);
      }
    }
  }

  lemma {:induction false} NotStranded(threads: set<Tid>, run: seq<Event>)
    requires NoGiveUp(run, Writer)
    ensures !Stranded(Exec(threads, run))
  {
    hide Exec, Quiescent;
    PlainWritersStrandNobody(threads, run);
  }
}
