/**
 FairRWLock (fair_rwlock.go, fair_waiter.go and the peek, dequeue and
 dequeueReaders of fair_waiter_queue.go) as a machine over any finite set of
 goroutines, one atomic operation a step.
 */
module FairRWLock {
  import opened RWWord
  import opened Threads
  import opened WaitQueue

  /** Who asked for the first live node, and the readers collected so far. */
  datatype Peeker =
    | Self(w: nat)             // tryAcquireQueuedReader, tryAcquireQueuedWriter
    | Wake                     // wakeNextWaiters
    | More(list: seq<nat>)     // the loop of dequeueReaders

  /** Which dequeue runs: for a writer at the head, or the first or a later one of dequeueReaders. */
  datatype Batch = Single | First | Next

  datatype PC =
    | Idle
    | ReadHold
    | WriteHold
    // RLock and Lock before they enqueue
    | RLoad
    | RSize(st: int)
    | RCas(st: int)
    | WSize
    | WCas
    | Link(kind: Kind)
    | Add(w: nat)              // linked, size counter not incremented yet
    // the loop with an enqueued waiter
    | TestFlag(w: nat)
    | SigLoad(w: nat)          // tryAcquireSignaledReader
    | SigCas(w: nat, st: int)
    | SigCasW(w: nat)          // tryAcquireSignaledWriter
    | OwnLoad(w: nat)          // tryAcquireQueuedReader, after peek
    | OwnCas(w: nat, st: int)
    | OwnCasW(w: nat)          // tryAcquireQueuedWriter, after peek
    | CancelR(w: nat)          // acquired at the head of the queue, `cancelled` not stored yet
    | CancelW(w: nat)
    | Wait(w: nat)
    // TryRLock, TryLock
    | TryLoad
    | TrySize(st: int)
    | TryCas(st: int)
    | TrySizeW
    | TryCasW
    // RUnlock, Unlock
    | RuLoad
    | RuCas(st: int)
    | UwLoad
    | UwCas
    // peek
    | Peek(who: Peeker)
    | PeekCheck(who: Peeker, y: nat)  // y was the first node; its `cancelled` is not read yet
    | PeekDrop(who: Peeker, y: nat)
    | PeekSub(who: Peeker)
    // dequeue
    | Pop(list: seq<nat>, batch: Batch)
    | PopSub(list: seq<nat>, batch: Batch, w: nat)
    | PopCheck(list: seq<nat>, batch: Batch, w: nat)
    // signal every waiter of the list
    | SetFlag(list: seq<nat>)
    | SendToken(list: seq<nat>)

  datatype Action =
    | CallRLock | CallLock | CallTryRLock | CallTryLock | CallRUnlock | CallUnlock
    | Run
    | RunContext               // the step of an RLockContext caller, which retries where RLock panics
    | GiveUp(kind: Kind)       // ctx.Done() in RLockContext or LockContext

  /** `flagged` are the waiters whose `signaled` flag is set. */
  datatype Memory = Memory(word: int, q: Queue, kinds: seq<Kind>, flagged: set<nat>, crashed: bool)

  datatype State = State(m: Memory, pc: map<Tid, PC>)

  function Init(threads: set<Tid>): State {
    State(Memory(0, EMPTY, [], {}, false), map t | t in threads :: Idle)
  }

  /** The waiters that a releasing thread has popped and not signaled. */
  function HandOf(p: PC): seq<nat> {
    if p.Pop? || p.SetFlag? || p.SendToken? then p.list
    else if p.PopSub? || p.PopCheck? then p.list + [p.w]
    else if (p.Peek? || p.PeekCheck? || p.PeekDrop? || p.PeekSub?) && p.who.More? then p.who.list
    else []
  }

  /** The waiter of a call that has not acquired. */
  function LiveOf(p: PC): set<nat> {
    if p.Add? || p.TestFlag? || p.SigLoad? || p.SigCas? || p.SigCasW? || p.OwnLoad? || p.OwnCas?
       || p.OwnCasW? || p.CancelR? || p.CancelW? || p.Wait?
    then {p.w}
    else if (p.Peek? || p.PeekCheck? || p.PeekDrop? || p.PeekSub?) && p.who.Self? then {p.who.w}
    else {}
  }

  /** The waiters that the next step of p reads or writes exist. */
  predicate Typed(p: PC, m: Memory) {
    && |m.kinds| == |m.q.ws|
    && (p.TestFlag? || p.CancelR? || p.CancelW? || p.Wait? || p.PopCheck? ==> p.w < |m.kinds|)
    && (p.PeekCheck? ==> p.y < |m.kinds| && (p.who.Self? ==> p.who.w < |m.kinds|))
    && (p.SendToken? ==> p.list != [] && p.list[0] < |m.kinds|)
  }

  /** The start of every call, and TryRLock and TryLock. */
  function DoCall(m: Memory, p: PC, a: Action): (Memory, PC) {
    match p
    case Idle =>
      if a == CallRLock then (m, RLoad)
      else if a == CallLock then (m, WSize)
      else if a == CallTryRLock then (m, TryLoad)
      else if a == CallTryLock then (m, TrySizeW)
      else (m, p)
    case ReadHold => if a == CallRUnlock then (m, RuLoad) else (m, p)
    case WriteHold => if a == CallUnlock then (m, UwLoad) else (m, p)
    case TryLoad => if HasWriter(m.word) then (m, Idle) else (m, TrySize(m.word))
    case TrySize(st) =>
      if !m.q.SizeIsZero() || st >= MAX_READERS then (m, Idle) else (m, TryCas(st))
    case TryCas(st) => if m.word == st then (m.(word := st + 1), ReadHold) else (m, TryLoad)
    case TrySizeW => if m.q.SizeIsZero() then (m, TryCasW) else (m, Idle)
    case TryCasW => if m.word == 0 then (m.(word := WRITER), WriteHold) else (m, Idle)
    case _ => (m, p)
  }

  /** RLock and Lock up to the enqueue. */
  function DoFast(m: Memory, t: Tid, p: PC, a: Action): (Memory, PC) {
    match p
    case RLoad => if HasWriter(m.word) then (m, Link(Reader)) else (m, RSize(m.word))
    case RSize(st) =>
      if !m.q.SizeIsZero() then (m, Link(Reader))
      else if st < MAX_READERS then (m, RCas(st))
      else if a == RunContext then (m, RLoad)
      else (m.(crashed := true), p)
    case RCas(st) => if m.word == st then (m.(word := st + 1), ReadHold) else (m, RLoad)
    case WSize => if m.q.SizeIsZero() then (m, WCas) else (m, Link(Writer))
    case WCas => if m.word == 0 then (m.(word := WRITER), WriteHold) else (m, Link(Writer))
    case Link(k) =>
      if a == GiveUp(k) then (m, Idle)
      else (m.(q := m.q.Link(t), kinds := m.kinds + [k]), Add(|m.q.ws|))
    case Add(w) => (m.(q := m.q.Add(1)), TestFlag(w))
    case _ => (m, p)
  }

  /** The context of a parked call is done. */
  predicate GivesUp(m: Memory, p: PC, a: Action) { p.Wait? && p.w < |m.kinds| && a == GiveUp(m.kinds[p.w]) }

  /** The loop of a call whose waiter is enqueued. */
  function DoWaiting(m: Memory, p: PC, a: Action): (Memory, PC)
    requires Typed(p, m)
  {
    match p
    case TestFlag(w) =>
      if w !in m.flagged then (m, Peek(Self(w)))
      else if m.kinds[w] == Reader then (m, SigLoad(w)) else (m, SigCasW(w))
    case SigLoad(w) =>
      if HasWriter(m.word) then (m, TestFlag(w))
      else if m.word >= MAX_READERS then (m.(crashed := true), p)
      else (m, SigCas(w, m.word))
    case SigCas(w, st) => if m.word == st then (m.(word := st + 1), ReadHold) else (m, SigLoad(w))
    case SigCasW(w) => if m.word == 0 then (m.(word := WRITER), WriteHold) else (m, TestFlag(w))
    case OwnLoad(w) =>
      if HasWriter(m.word) then (m, Wait(w))
      else if m.word >= MAX_READERS then (m.(crashed := true), p)
      else (m, OwnCas(w, m.word))
    case OwnCas(w, st) => if m.word == st then (m.(word := st + 1), CancelR(w)) else (m, OwnLoad(w))
    case OwnCasW(w) => if m.word == 0 then (m.(word := WRITER), CancelW(w)) else (m, Wait(w))
    case CancelR(w) => (m.(q := m.q.Cancel(w)), ReadHold)
    case CancelW(w) => (m.(q := m.q.Cancel(w)), WriteHold)
    case Wait(w) =>
      if a == GiveUp(m.kinds[w]) then (m.(q := m.q.Cancel(w)), Idle)
      else if m.q.ws[w].token then (m.(q := m.q.Receive(w)), TestFlag(w))
      else (m, p)
    case _ => (m, p)
  }

  /** RUnlock and Unlock up to the compare-and-swap that gives the lock back. */
  function DoRelease(m: Memory, p: PC): (Memory, PC) {
    match p
    case RuLoad => if ReaderCount(m.word) == 0 then (m.(crashed := true), p) else (m, RuCas(m.word))
    case RuCas(st) =>
      if m.word == st then (m.(word := st - 1), if ReaderCount(st - 1) == 0 then Peek(Wake) else Idle)
      else (m, RuLoad)
    case UwLoad => if m.word != WRITER then (m.(crashed := true), p) else (m, UwCas)
    case UwCas => if m.word == WRITER then (m.(word := 0), Peek(Wake)) else (m.(crashed := true), p)
    case _ => (m, p)
  }

  /** Where peek's caller goes when there is no live node. */
  function PeekedNothing(who: Peeker): PC {
    match who
    case Self(w) => Wait(w)
    case Wake => Idle
    case More(list) => SetFlag(list)
  }

  /** Where peek's caller goes when y is the first live node. */
  function Peeked(m: Memory, who: Peeker, y: nat): PC
    requires y < |m.kinds|
  {
    match who
    case Self(w) => if y != w then Wait(w) else if m.kinds[y] == Reader then OwnLoad(w) else OwnCasW(w)
    case Wake => if m.kinds[y] == Reader then Pop([], First) else Pop([], Single)
    case More(list) => if m.kinds[y] == Reader then Pop(list, Next) else SetFlag(list)
  }

  function DoPeek(m: Memory, p: PC): (Memory, PC)
    requires Typed(p, m)
  {
    match p
    case Peek(who) => if m.q.Empty() then (m, PeekedNothing(who)) else (m, PeekCheck(who, m.q.head))
    case PeekCheck(who, y) =>
      if m.q.ws[y].cancelled then (m, PeekDrop(who, y)) else (m, Peeked(m, who, y))
    case PeekDrop(who, y) =>
      if m.q.head == y && !m.q.Empty() then (m.(q := m.q.Unlink()), PeekSub(who)) else (m, Peek(who))
    case PeekSub(who) => (m.(q := m.q.Add(-1)), Peek(who))
    case _ => (m, p)
  }

  /** dequeue, and what dequeueReaders and wakeNextWaiters do with its result. */
  function DoPop(m: Memory, t: Tid, p: PC): (Memory, PC)
    requires Typed(p, m)
  {
    match p
    case Pop(list, batch) =>
      if m.q.Empty() then (m, SetFlag(list)) else (m.(q := m.q.Pop(t)), PopSub(list, batch, m.q.head))
    case PopSub(list, batch, w) => (m.(q := m.q.Add(-1)), PopCheck(list, batch, w))
    case PopCheck(list, batch, w) =>
      if m.q.ws[w].cancelled then (m.(q := m.q.Discard(w)), Pop(list, batch))
      else if batch == Single || m.kinds[w] == Writer then (m, SetFlag(list + [w]))
      else (m, Peek(More(list + [w])))
    case _ => (m, p)
  }

  /** signal, once for every popped waiter: the flag, then the token. */
  function DoSignal(m: Memory, p: PC): (Memory, PC)
    requires Typed(p, m)
  {
    match p
    case SetFlag(list) =>
      if list == [] then (m, Idle) else (m.(flagged := m.flagged + {list[0]}), SendToken(list))
    case SendToken(list) => (m.(q := m.q.Send(list[0])), SetFlag(list[1..]))
    case _ => (m, p)
  }

  datatype Phase = Calling | Starting | Waiting | Releasing | Peeking | Popping | Signaling

  function PhaseOf(p: PC): Phase {
    if p.Peek? || p.PeekCheck? || p.PeekDrop? || p.PeekSub? then Peeking
    else if p.Pop? || p.PopSub? || p.PopCheck? then Popping
    else if p.SetFlag? || p.SendToken? then Signaling
    else if p.RuLoad? || p.RuCas? || p.UwLoad? || p.UwCas? then Releasing
    else if p.RLoad? || p.RSize? || p.RCas? || p.WSize? || p.WCas? || p.Link? || p.Add? then Starting
    else if p.Idle? || p.ReadHold? || p.WriteHold? || p.TryLoad? || p.TrySize? || p.TryCas? || p.TrySizeW? || p.TryCasW?
    then Calling
    else Waiting
  }

  /** One atomic operation of thread t at p. An action that does not fit changes nothing. */
  function Do(m: Memory, t: Tid, p: PC, a: Action): (Memory, PC)
    requires Typed(p, m)
  {
    match PhaseOf(p)
    case Calling => DoCall(m, p, a)
    case Starting => DoFast(m, t, p, a)
    case Waiting => DoWaiting(m, p, a)
    case Releasing => DoRelease(m, p)
    case Peeking => DoPeek(m, p)
    case Popping => DoPop(m, t, p)
    case Signaling => DoSignal(m, p)
  }

  predicate Enabled(s: State, t: Tid) {
    !s.m.crashed && t in s.pc && Typed(s.pc[t], s.m)
  }

  function Step(s: State, t: Tid, a: Action): State {
    if Enabled(s, t) then
      var (m, p) := Do(s.m, t, s.pc[t], a);
      State(m, s.pc[t := p])
    else s
  }

  type Event = (Tid, Action)

  /** The state after a run, oldest event first. */
  ghost function Exec(threads: set<Tid>, run: seq<Event>): State {
    if run == [] then Init(threads)
    else Step(Exec(threads, run[..|run| - 1]), run[|run| - 1].0, run[|run| - 1].1)
  }

  // ---- The state word ----------------------------------------------------

  predicate HoldsRead(p: PC) { p.ReadHold? || p.CancelR? || p.RuLoad? || p.RuCas? }

  predicate HoldsWrite(p: PC) { p.WriteHold? || p.CancelW? || p.UwLoad? || p.UwCas? }

  function ReadWeight(p: PC): int { if HoldsRead(p) then 1 else 0 }

  function WriteWeight(p: PC): int { if HoldsWrite(p) then 1 else 0 }

  function Readers(s: State): set<Tid> { set t | t in s.pc && HoldsRead(s.pc[t]) }

  function Writers(s: State): set<Tid> { set t | t in s.pc && HoldsWrite(s.pc[t]) }

  /** The words a thread remembers are words that the lock has had; n bounds the readers. */
  predicate Remembers(p: PC, n: nat) {
    && (p.RSize? ==> p.st <= n)
    && (p.RCas? || p.TryCas? || p.SigCas? || p.OwnCas? ==> p.st < MAX_READERS)
  }

  ghost predicate WordOk(s: State) {
    && Encodes(s.m.word, Total(s.pc, ReadWeight), Total(s.pc, WriteWeight))
    && (s.m.crashed ==> |s.pc| >= MAX_READERS)
    && forall t :: t in s.pc ==> Remembers(s.pc[t], |s.pc|)
  }

  ghost predicate WordKept(m: Memory, p: PC, r: int, w: int, n: nat, m': Memory, p': PC) {
    && Encodes(m'.word, r - ReadWeight(p) + ReadWeight(p'), w - WriteWeight(p) + WriteWeight(p'))
    && Remembers(p', n)
    && (m'.crashed ==> n >= MAX_READERS)
  }

  ghost predicate WordKnown(m: Memory, p: PC, r: int, w: int, n: nat) {
    && Typed(p, m) && !m.crashed && Encodes(m.word, r, w) && Remembers(p, n) && r <= n
    && ReadWeight(p) <= r && WriteWeight(p) <= w
  }

  lemma CallWord(m: Memory, p: PC, a: Action, r: int, w: int, n: nat)
    requires WordKnown(m, p, r, w, n) && PhaseOf(p) == Calling
    ensures var (m', p') := DoCall(m, p, a); WordKept(m, p, r, w, n, m', p')
  {
  }

  lemma FastWord(m: Memory, t: Tid, p: PC, a: Action, r: int, w: int, n: nat)
    requires WordKnown(m, p, r, w, n) && PhaseOf(p) == Starting
    ensures var (m', p') := DoFast(m, t, p, a); WordKept(m, p, r, w, n, m', p')
  {
  }

  lemma WaitingWord(m: Memory, p: PC, a: Action, r: int, w: int, n: nat)
    requires WordKnown(m, p, r, w, n) && PhaseOf(p) == Waiting
    ensures var (m', p') := DoWaiting(m, p, a); WordKept(m, p, r, w, n, m', p')
  {
  }

  lemma ReleaseWord(m: Memory, p: PC, r: int, w: int, n: nat)
    requires WordKnown(m, p, r, w, n) && PhaseOf(p) == Releasing
    ensures var (m', p') := DoRelease(m, p); WordKept(m, p, r, w, n, m', p')
  {
  }

  /** The word always encodes what the threads hold; only a saturated reader count can panic. */
  lemma DoWord(m: Memory, t: Tid, p: PC, a: Action, r: int, w: int, n: nat)
    requires WordKnown(m, p, r, w, n)
    ensures var (m', p') := Do(m, t, p, a); WordKept(m, p, r, w, n, m', p')
  {
    hide DoCall, DoFast, DoWaiting, DoRelease;
    match PhaseOf(p)
    case Calling => CallWord(m, p, a, r, w, n);
    case Starting => FastWord(m, t, p, a, r, w, n);
    case Waiting => WaitingWord(m, p, a, r, w, n);
    case Releasing => ReleaseWord(m, p, r, w, n);
    case _ =>
  }

  lemma StepWord(s: State, t: Tid, a: Action)
    requires WordOk(s) && Enabled(s, t)
    ensures WordOk(Step(s, t, a))
  {
    TotalNonNegative(s.pc, ReadWeight);
    TotalNonNegative(s.pc, WriteWeight);
    TotalAtMost(s.pc, ReadWeight);
    DoWord(s.m, t, s.pc[t], a, Total(s.pc, ReadWeight), Total(s.pc, WriteWeight), |s.pc|);
    hide Do, Remembers, Encodes;
    var s' := Step(s, t, a);
    TotalUpdate(s.pc, ReadWeight, t, s'.pc[t]);
    TotalUpdate(s.pc, WriteWeight, t, s'.pc[t]);
    assert s'.pc.Keys == s.pc.Keys;
    assert |s'.pc| == |s'.pc.Keys| == |s.pc|;
  }

  // ---- Waiter records ----------------------------------------------------

  function Elems(list: seq<nat>): set<nat> { set w | w in list }

  function HandSet(p: PC): set<nat> { Elems(HandOf(p)) }

  ghost predicate Distinct(list: seq<nat>) {
    forall i, j :: 0 <= i < j < |list| ==> list[i] != list[j]
  }

  /** Signaled waiters are flagged, and flagged ones have left the queue. */
  ghost predicate MemoryOk(m: Memory) {
    && m.q.Valid() && |m.kinds| == |m.q.ws|
    && (forall w :: 0 <= w < |m.q.ws| && m.q.ws[w].place == Signaled ==> w in m.flagged)
    && (forall w :: w in m.flagged ==> w < m.q.head)
  }

  /** A call that may still park: a token that was sent to it has not been received. */
  predicate MayPark(p: PC) {
    || ((p.Peek? || p.PeekCheck? || p.PeekDrop? || p.PeekSub?) && p.who.Self?)
    || p.OwnLoad? || p.OwnCas? || p.OwnCasW? || p.Wait?
  }

  /** Its waiter. */
  function ParksOn(p: PC): nat
    requires MayPark(p)
  {
    if p.Peek? || p.PeekCheck? || p.PeekDrop? || p.PeekSub? then p.who.w else p.w
  }

  /** A call that has found its own waiter at the head of the queue. */
  predicate AtHead(p: PC) { p.OwnLoad? || p.OwnCas? || p.OwnCasW? }

  /** What a thread at p knows besides its books. */
  ghost predicate Local(m: Memory, p: PC) {
    && (MayPark(p) && ParksOn(p) < |m.q.ws| && m.q.ws[ParksOn(p)].place == Signaled ==> m.q.ws[ParksOn(p)].token)
    && (AtHead(p) ==> p.w <= m.q.head)
    && (p.SigLoad? || p.SigCas? || p.SigCasW? ==> p.w in m.flagged)
    && (p.SendToken? ==> p.list != [] && p.list[0] in m.flagged)
    && (p.PopSub? || p.PopCheck? ==> p.w !in m.flagged)
    && (p.PeekCheck? || p.PeekDrop? ==> p.y < |m.q.ws| && p.y <= m.q.head)
    && (p.PeekDrop? ==> m.q.ws[p.y].cancelled)
    && ((p.Pop? || p.PopSub? || p.PopCheck?) && p.batch != Next ==> p.list == [])
  }

  ghost predicate Booked(m: Memory, t: Tid, p: PC) {
    Books(m.q, t, HandSet(p), LiveOf(p), m.flagged) && Distinct(HandOf(p))
  }

  ghost predicate Linked(m: Memory, t: Tid, p: PC) {
    Booked(m, t, p) && Local(m, p)
  }

  ghost predicate Evolve(m: Memory, m': Memory, t: Tid) {
    Evolves(m.q, m'.q, t) && Forward(m, m', t)
  }

  ghost predicate Safe(s: State) {
    && MemoryOk(s.m) && WordOk(s) && Known(s.m.q, s.pc.Keys)
    && forall t {:trigger Linked(s.m, t, s.pc[t])} :: t in s.pc ==> Linked(s.m, t, s.pc[t])
  }

  lemma InitSafe(threads: set<Tid>)
    ensures Safe(Init(threads))
  {
    TotalZero(Init(threads).pc, ReadWeight);
    TotalZero(Init(threads).pc, WriteWeight);
  }

  lemma LinkedTyped(m: Memory, t: Tid, p: PC)
    requires MemoryOk(m) && Linked(m, t, p)
    ensures Typed(p, m)
  {
    BooksInRange(m.q, t, HandSet(p), LiveOf(p), m.flagged);
    assert p.PopCheck? ==> p.w == HandOf(p)[|HandOf(p)| - 1];
    assert p.PopCheck? ==> p.w in HandSet(p);
  }

  lemma OthersLocal(m: Memory, m': Memory, t: Tid, u: Tid, p: PC)
    requires MemoryOk(m) && Evolve(m, m', t) && u != t && Local(m, p)
    requires MayPark(p) ==> ParksOn(p) < |m.q.ws| && m.q.ws[ParksOn(p)].owner == u
    requires p.PopSub? || p.PopCheck? ==> p.w < |m.q.ws| && m.q.ws[p.w].place == Hand(u)
    ensures Local(m', p)
  {
    hide Known, WordOk, HandOf, LiveOf, HandSet, Distinct;
  }

  /** What a thread knows survives the steps of every other thread. */
  lemma OthersLinked(m: Memory, m': Memory, t: Tid, u: Tid, p: PC)
    requires MemoryOk(m) && Evolve(m, m', t) && u != t && Linked(m, u, p)
    ensures Linked(m', u, p)
  {
    hide Local;
    OthersBooks(m.q, m'.q, t, u, HandSet(p), LiveOf(p), m.flagged);
    FlagBooks(m'.q, u, HandSet(p), LiveOf(p), m.flagged, m'.flagged);
    if MayPark(p) { assert WaitQueue.Own(m.q, u, ParksOn(p), ParksOn(p) in m.flagged); }
    if p.PopSub? || p.PopCheck? { assert HandOf(p)[|p.list|] == p.w && p.w in HandSet(p); }
    OthersLocal(m, m', t, u, p);
  }

  lemma FastBooked(m: Memory, t: Tid, p: PC, a: Action)
    requires MemoryOk(m) && Booked(m, t, p) && Local(m, p) && PhaseOf(p) == Starting && Typed(p, m)
    ensures var (m', p') := DoFast(m, t, p, a);
            m'.q.Valid() && Evolves(m.q, m'.q, t) && Booked(m', t, p')
  {
    hide Books, Evolves, Queue.Valid, Local;
    var q, hand, live := m.q, HandSet(p), LiveOf(p);
    var (m', p') := DoFast(m, t, p, a);
    assert HandOf(p') == HandOf(p);
    SameBooks(q, t);
    if p.Link? {
      LinkBooks(q, t, hand, live, m.flagged);
      assert live + {|q.ws|} == {|q.ws|};
    } else if p.Add? {
      AddBooks(q, t, hand, live, 1, m.flagged);
    }
  }

  lemma WaitingBooked(m: Memory, t: Tid, p: PC, a: Action)
    requires MemoryOk(m) && Booked(m, t, p) && Local(m, p) && PhaseOf(p) == Waiting && Typed(p, m)
    ensures var (m', p') := DoWaiting(m, p, a);
            m'.q.Valid() && Evolves(m.q, m'.q, t) && Booked(m', t, p')
  {
    hide Books, Evolves, Queue.Valid;
    var q, hand, live := m.q, HandSet(p), LiveOf(p);
    var (m', p') := DoWaiting(m, p, a);
    assert HandOf(p') == HandOf(p);
    SameBooks(q, t);
    if p.CancelR? || p.CancelW? || GivesUp(m, p, a) {
      CancelBooks(q, t, hand, live, p.w, m.flagged);
      assert live - {p.w} == {};
    } else if p.Wait? && q.ws[p.w].token {
      TokenFlagged(m, p.w);
      KeepBooks(q, t, hand, live, p.w, m.flagged);
    } else if (p.SigCas? || p.SigCasW?) && LiveOf(p') == {} {
      ForgetBooks(q, t, hand, p.w, m.flagged);
    }
  }

  lemma TokenFlagged(m: Memory, w: nat)
    requires MemoryOk(m) && w < |m.q.ws| && m.q.ws[w].token
    ensures w in m.flagged
  {
  }

  lemma PeekBooked(m: Memory, t: Tid, p: PC)
    requires MemoryOk(m) && Booked(m, t, p) && Local(m, p) && PhaseOf(p) == Peeking && Typed(p, m)
    ensures var (m', p') := DoPeek(m, p);
            m'.q.Valid() && Evolves(m.q, m'.q, t) && Booked(m', t, p')
  {
    hide Books, Evolves, Queue.Valid;
    var q, hand, live := m.q, HandSet(p), LiveOf(p);
    var (m', p') := DoPeek(m, p);
    assert HandOf(p') == HandOf(p);
    SameBooks(q, t);
    if p.PeekSub? {
      AddBooks(q, t, hand, live, -1, m.flagged);
    } else if p.PeekDrop? && q.head == p.y && !q.Empty() {
      UnlinkBooks(q, t, hand, live, m.flagged);
    }
  }

  lemma QueuedNotInHand(q: Queue, t: Tid, hand: set<nat>, live: set<nat>, flagged: set<nat>)
    requires q.Valid() && Books(q, t, hand, live, flagged) && !q.Empty()
    ensures q.head !in hand
  {
  }

  lemma SnocElems(list: seq<nat>, w: nat)
    ensures Elems(list + [w]) == Elems(list) + {w}
    ensures Distinct(list + [w]) <==> Distinct(list) && w !in Elems(list)
    ensures w !in Elems(list) ==> Elems(list + [w]) - {w} == Elems(list)
  {
    if Distinct(list + [w]) {
      forall i | 0 <= i < |list| ensures list[i] != w { assert (list + [w])[i] != (list + [w])[|list|]; }
      forall i, j | 0 <= i < j < |list| ensures list[i] != list[j] { assert (list + [w])[i] != (list + [w])[j]; }
    }
  }

  lemma TailElems(list: seq<nat>)
    requires list != [] && Distinct(list)
    ensures list[0] in Elems(list) && Elems(list[1..]) == Elems(list) - {list[0]} && Distinct(list[1..])
  {
    assert list == [list[0]] + list[1..];
  }

  lemma PopBooked(m: Memory, t: Tid, p: PC)
    requires MemoryOk(m) && Booked(m, t, p) && Local(m, p) && PhaseOf(p) == Popping && Typed(p, m)
    ensures var (m', p') := DoPop(m, t, p);
            m'.q.Valid() && Evolves(m.q, m'.q, t) && Booked(m', t, p')
  {
    hide Books, Evolves, Queue.Valid, Local, Elems, Distinct;
    var q, hand, live := m.q, HandSet(p), LiveOf(p);
    var (m', p') := DoPop(m, t, p);
    SameBooks(q, t);
    if p.PopSub? {
      AddBooks(q, t, hand, live, -1, m.flagged);
    } else if p.Pop? && !q.Empty() {
      QueuedNotInHand(q, t, hand, live, m.flagged);
      SnocElems(p.list, q.head);
      PopBooks(q, t, hand, live, m.flagged);
    } else if p.PopCheck? && q.ws[p.w].cancelled {
      SnocElems(p.list, p.w);
      DiscardBooks(q, t, hand, live, p.w, m.flagged);
    } else {
      assert HandOf(p') == HandOf(p);
    }
  }

  lemma SignalBooked(m: Memory, t: Tid, p: PC)
    requires MemoryOk(m) && Booked(m, t, p) && Local(m, p) && PhaseOf(p) == Signaling && Typed(p, m)
    ensures var (m', p') := DoSignal(m, p);
            m'.q.Valid() && Evolves(m.q, m'.q, t) && Booked(m', t, p')
  {
    hide Books, Evolves, Queue.Valid, Local, Elems, Distinct;
    var q, hand, live := m.q, HandSet(p), LiveOf(p);
    var (m', p') := DoSignal(m, p);
    SameBooks(q, t);
    if p.SetFlag? && p.list != [] {
      FlagBooks(q, t, hand, live, m.flagged, m'.flagged);
    } else if p.SendToken? {
      TailElems(p.list);
      SendBooks(q, t, hand, live, p.list[0], m.flagged);
    }
  }

  /** A step keeps the books of the stepping thread, and changes records only as Evolves allows. */
  lemma DoBooked(m: Memory, t: Tid, p: PC, a: Action)
    requires MemoryOk(m) && Booked(m, t, p) && Local(m, p) && Typed(p, m)
    ensures var (m', p') := Do(m, t, p, a);
            m'.q.Valid() && Evolves(m.q, m'.q, t) && Booked(m', t, p')
  {
    hide Books, Evolves, Queue.Valid, Local, DoCall, DoFast, DoWaiting, DoRelease, DoPeek, DoPop, DoSignal;
    hide HandOf, HandSet, LiveOf, Distinct, PhaseOf, MemoryOk, Typed, Booked;
    if PhaseOf(p) == Starting { FastBooked(m, t, p, a); }
    else if PhaseOf(p) == Waiting { WaitingBooked(m, t, p, a); }
    else if PhaseOf(p) == Peeking { PeekBooked(m, t, p); }
    else if PhaseOf(p) == Popping { PopBooked(m, t, p); }
    else if PhaseOf(p) == Signaling { SignalBooked(m, t, p); }
    else { BareBooked(m, t, p, a); }
  }

  /** A place in a call that has no waiter, popped or enqueued. */
  predicate Bare(p: PC) {
    || PhaseOf(p) == Calling || PhaseOf(p) == Releasing || p == Peek(Wake)
    || (PhaseOf(p) == Starting && !p.Add?)
  }

  lemma BareLinked(m: Memory, p: PC)
    requires Bare(p)
    ensures HandOf(p) == [] && HandSet(p) == {} && LiveOf(p) == {} && Distinct(HandOf(p)) && Local(m, p)
  {
  }

  /** Calls without a waiter leave the queue alone. */
  lemma BareStep(m: Memory, t: Tid, p: PC, a: Action)
    requires Typed(p, m) && (PhaseOf(p) == Calling || PhaseOf(p) == Releasing)
    ensures var (m', p') := Do(m, t, p, a);
            m'.q == m.q && m'.kinds == m.kinds && m'.flagged == m.flagged && Bare(p')
  {
  }

  lemma BareBooked(m: Memory, t: Tid, p: PC, a: Action)
    requires MemoryOk(m) && Typed(p, m) && Booked(m, t, p) && (PhaseOf(p) == Calling || PhaseOf(p) == Releasing)
    ensures var (m', p') := Do(m, t, p, a);
            m'.q.Valid() && Evolves(m.q, m'.q, t) && Booked(m', t, p')
  {
    hide Books, Evolves, Queue.Valid, Do, Typed;
    SameBooks(m.q, t);
    BareStep(m, t, p, a);
    BareLinked(m, p);
    BareLinked(m, Do(m, t, p, a).1);
  }

  lemma FastLocal(m: Memory, t: Tid, p: PC, a: Action)
    requires MemoryOk(m) && Local(m, p) && Typed(p, m) && PhaseOf(p) == Starting
    ensures var (m', p') := DoFast(m, t, p, a); Local(m', p')
  {
    hide HandOf, LiveOf, HandSet, Distinct, Booked;
  }

  predicate OnSignalPath(p: PC) { p.TestFlag? || p.SigLoad? || p.SigCas? || p.SigCasW? }

  lemma SignaledLocal(m: Memory, p: PC, a: Action)
    requires MemoryOk(m) && Local(m, p) && Typed(p, m) && OnSignalPath(p)
    ensures var (m', p') := DoWaiting(m, p, a); Local(m', p')
  {
    hide HandOf, LiveOf, HandSet, Distinct, Booked, Queue.Valid;
  }

  predicate OnQueuePath(p: PC) { p.OwnLoad? || p.OwnCas? || p.OwnCasW? }

  lemma QueuedLocal(m: Memory, p: PC, a: Action)
    requires MemoryOk(m) && Local(m, p) && Typed(p, m) && OnQueuePath(p)
    ensures var (m', p') := DoWaiting(m, p, a); Local(m', p')
  {
    hide HandOf, LiveOf, HandSet, Distinct, Booked, Queue.Valid;
  }

  lemma WaitingLocal(m: Memory, p: PC, a: Action)
    requires MemoryOk(m) && Local(m, p) && Typed(p, m) && PhaseOf(p) == Waiting
    ensures var (m', p') := DoWaiting(m, p, a); Local(m', p')
  {
    hide HandOf, LiveOf, HandSet, Distinct, Booked, Queue.Valid;
    if OnSignalPath(p) { SignaledLocal(m, p, a); } else if OnQueuePath(p) { QueuedLocal(m, p, a); }
  }

  lemma PeekLocal(m: Memory, p: PC)
    requires MemoryOk(m) && Local(m, p) && Typed(p, m) && PhaseOf(p) == Peeking
    ensures var (m', p') := DoPeek(m, p); Local(m', p')
  {
    hide HandOf, LiveOf, HandSet, Distinct, Booked;
  }

  lemma PopLocal(m: Memory, t: Tid, p: PC)
    requires MemoryOk(m) && Local(m, p) && Typed(p, m) && PhaseOf(p) == Popping
    ensures var (m', p') := DoPop(m, t, p); Local(m', p')
  {
  }

  lemma SignalLocal(m: Memory, p: PC)
    requires MemoryOk(m) && Local(m, p) && Typed(p, m) && PhaseOf(p) == Signaling
    ensures var (m', p') := DoSignal(m, p); Local(m', p')
  {
  }

  lemma DoLocal(m: Memory, t: Tid, p: PC, a: Action)
    requires MemoryOk(m) && Local(m, p) && Typed(p, m)
    ensures var (m', p') := Do(m, t, p, a); Local(m', p')
  {
    hide Local, MemoryOk, DoCall, DoFast, DoWaiting, DoRelease, DoPeek, DoPop, DoSignal, PhaseOf, Bare, Typed;
    match PhaseOf(p)
    case Starting => FastLocal(m, t, p, a);
    case Waiting => WaitingLocal(m, p, a);
    case Peeking => PeekLocal(m, p);
    case Popping => PopLocal(m, t, p);
    case Signaling => SignalLocal(m, p);
    case _ =>
      BareStep(m, t, p, a);
      BareLinked(Do(m, t, p, a).0, Do(m, t, p, a).1);
  }

  ghost predicate Forward(m: Memory, m': Memory, t: Tid) {
    && MemoryOk(m') && m.q.head <= m'.q.head && m.flagged <= m'.flagged
    && (forall w :: w in m'.flagged && w !in m.flagged ==> w < |m.q.ws| && m.q.ws[w].place == Hand(t))
  }

  lemma SignalForward(m: Memory, t: Tid, p: PC)
    requires MemoryOk(m) && Typed(p, m) && Booked(m, t, p) && Local(m, p) && PhaseOf(p) == Signaling
    requires DoSignal(m, p).0.q.Valid()
    ensures Forward(m, DoSignal(m, p).0, t)
  {
    assert p.list != [] ==> p.list[0] in HandSet(p);
  }

  lemma FastForward(m: Memory, t: Tid, p: PC, a: Action)
    requires MemoryOk(m) && Typed(p, m) && PhaseOf(p) == Starting
    ensures Forward(m, DoFast(m, t, p, a).0, t)
  {
    hide HandOf, LiveOf;
  }

  lemma WaitingForward(m: Memory, t: Tid, p: PC, a: Action)
    requires MemoryOk(m) && Typed(p, m) && PhaseOf(p) == Waiting
    ensures Forward(m, DoWaiting(m, p, a).0, t)
  {
    hide HandOf, LiveOf;
  }

  lemma PeekForward(m: Memory, t: Tid, p: PC)
    requires MemoryOk(m) && Typed(p, m) && PhaseOf(p) == Peeking && DoPeek(m, p).0.q.Valid()
    ensures Forward(m, DoPeek(m, p).0, t)
  {
    hide HandOf, LiveOf;
  }

  lemma PopForward(m: Memory, t: Tid, p: PC)
    requires MemoryOk(m) && Typed(p, m) && PhaseOf(p) == Popping && DoPop(m, t, p).0.q.Valid()
    ensures Forward(m, DoPop(m, t, p).0, t)
  {
    hide HandOf, LiveOf;
  }

  lemma WordForward(m: Memory, t: Tid, p: PC, a: Action)
    requires MemoryOk(m)
    ensures Forward(m, DoCall(m, p, a).0, t) && Forward(m, DoRelease(m, p).0, t)
  {
    hide HandOf, LiveOf;
  }

  /** Which waiters are flagged or signaled changes only in signal; the queue only moves forward. */
  lemma DoForward(m: Memory, t: Tid, p: PC, a: Action)
    requires MemoryOk(m) && Typed(p, m) && Booked(m, t, p) && Local(m, p) && Do(m, t, p, a).0.q.Valid()
    ensures Forward(m, Do(m, t, p, a).0, t)
  {
    hide Local, Booked, Forward, MemoryOk, Typed, PhaseOf, DoCall, DoFast, DoWaiting, DoRelease, DoPeek, DoPop, DoSignal;
    match PhaseOf(p)
    case Calling => WordForward(m, t, p, a);
    case Starting => FastForward(m, t, p, a);
    case Waiting => WaitingForward(m, t, p, a);
    case Releasing => WordForward(m, t, p, a);
    case Peeking => PeekForward(m, t, p);
    case Popping => PopForward(m, t, p);
    case Signaling => SignalForward(m, t, p);
  }

  lemma SafeThread(s: State, t: Tid)
    requires Safe(s) && t in s.pc
    ensures Typed(s.pc[t], s.m) && Booked(s.m, t, s.pc[t]) && Local(s.m, s.pc[t]) && MemoryOk(s.m)
  {
    hide Typed, Booked, Local, MemoryOk;
    assert Linked(s.m, t, s.pc[t]);
    LinkedTyped(s.m, t, s.pc[t]);
  }

  lemma DoEvolve(m: Memory, t: Tid, p: PC, a: Action)
    requires MemoryOk(m) && Linked(m, t, p) && Typed(p, m)
    ensures Evolve(m, Do(m, t, p, a).0, t) && Linked(Do(m, t, p, a).0, t, Do(m, t, p, a).1)
  {
    hide MemoryOk, Booked, Local, Typed, Do, Evolves, Queue.Valid;
    DoBooked(m, t, p, a);
    DoLocal(m, t, p, a);
    DoForward(m, t, p, a);
  }

  lemma StepSafe(s: State, t: Tid, a: Action)
    requires Safe(s) && t in s.pc
    ensures Safe(Step(s, t, a)) && Evolve(s.m, Step(s, t, a).m, t)
  {
    hide Do, Known, WordOk, Typed, Booked, Local, MemoryOk, Evolves;
    SafeThread(s, t);
    if s.m.crashed {
      SameEvolve(s.m, t);
    } else {
      var s' := Step(s, t, a);
      assert Linked(s.m, t, s.pc[t]);
      DoEvolve(s.m, t, s.pc[t], a);
      StepWord(s, t, a);
      KnownEvolves(s.m.q, s'.m.q, t, s.pc.Keys);
      forall u | u in s'.pc ensures Linked(s'.m, u, s'.pc[u]) {
        if u != t {
          assert Linked(s.m, u, s.pc[u]);
          OthersLinked(s.m, s'.m, t, u, s.pc[u]);
        }
      }
      assert s'.pc.Keys == s.pc.Keys;
    }
  }

  lemma SameEvolve(m: Memory, t: Tid)
    requires MemoryOk(m)
    ensures Evolve(m, m, t)
  {
  }

  lemma {:induction false} ExecSafe(threads: set<Tid>, run: seq<Event>)
    ensures Safe(Exec(threads, run)) && Exec(threads, run).pc.Keys == threads
  {
    hide Do, Safe, Typed;
    if run == [] {
      InitSafe(threads);
    } else {
      var s := Exec(threads, run[..|run| - 1]);
      ExecSafe(threads, run[..|run| - 1]);
      if run[|run| - 1].0 in s.pc {
        StepSafe(s, run[|run| - 1].0, run[|run| - 1].1);
      }
    }
  }

  /** Where an unlock looks at the word, it finds what it needs: RUnlock a reader, and Unlock the writer bit alone,
      twice. Each of these tests guards a panic. */
  predicate UnlockFits(m: Memory, p: PC) {
    && (p.RuLoad? || p.RuCas? ==> ReaderCount(m.word) != 0)
    && (p.UwLoad? || p.UwCas? ==> m.word == WRITER)
  }

  /** The unlock and inconsistency panics are never reached, with any number of goroutines. */
  lemma {:induction false} UnlocksDoNotPanic(threads: set<Tid>, run: seq<Event>, t: Tid)
    requires t in Exec(threads, run).pc
    ensures var s := Exec(threads, run);
            UnlockFits(s.m, s.pc[t]) && (DoRelease(s.m, s.pc[t]).0.crashed ==> s.m.crashed)
  {
    hide Exec, Linked, Known, MemoryOk;
    var s := Exec(threads, run);
    ExecSafe(threads, run);
    TotalNonNegative(s.pc, ReadWeight);
    TotalNonNegative(s.pc, WriteWeight);
  }

  /** In every run the word is the exact number of read holders, or the writer bit
      with exactly one write holder; the only panic there can be, that of a saturated
      reader count, needs 2^30-1 goroutines. */
  lemma {:induction false} WordWellFormed(threads: set<Tid>, run: seq<Event>)
    ensures var s := Exec(threads, run);
            && ((Writers(s) == {} && s.m.word == |Readers(s)| <= MAX_READERS)
                || (|Writers(s)| == 1 && Readers(s) == {} && s.m.word == WRITER))
            && (s.m.crashed ==> |threads| >= MAX_READERS)
  {
    hide Exec, Linked, Known, MemoryOk;
    var s := Exec(threads, run);
    ExecSafe(threads, run);
    TotalCounts(s.pc, ReadWeight, Readers(s));
    TotalCounts(s.pc, WriteWeight, Writers(s));
    assert |s.pc| == |s.pc.Keys|;
  }

  // ---- Nobody overtakes inside the queue ---------------------------------

  /** Waiter w has left the queue: to be signaled, or because it was cancelled. */
  ghost predicate Passed(m: Memory, w: nat) {
    w < |m.q.ws| && w < m.q.head && (m.q.ws[w].cancelled || m.q.ws[w].place.Hand? || m.q.ws[w].place == Signaled)
  }

  /** Only the loop of an enqueued waiter acquires for it: signaled, or at the head of the queue. */
  lemma WaitingInOrder(m: Memory, p: PC, a: Action, w: nat)
    requires Typed(p, m) && Local(m, p) && MemoryOk(m) && PhaseOf(p) == Waiting && w in LiveOf(p)
    requires !HoldsRead(p) && !HoldsWrite(p)
    ensures var p' := DoWaiting(m, p, a).1; HoldsRead(p') || HoldsWrite(p') ==> w <= m.q.head
  {
    hide HandOf, Queue.Valid;
  }

  lemma LivePhases(m: Memory, t: Tid, p: PC, a: Action, w: nat)
    requires Typed(p, m) && w in LiveOf(p)
    ensures PhaseOf(p) != Waiting ==> var p' := Do(m, t, p, a).1; !HoldsRead(p') && !HoldsWrite(p')
  {
    hide HandOf, DoCall, DoRelease, DoWaiting, DoPop, DoSignal;
  }

  lemma AcquiresInOrder(m: Memory, t: Tid, p: PC, a: Action, w: nat)
    requires Typed(p, m) && Local(m, p) && MemoryOk(m) && w in LiveOf(p) && !HoldsRead(p) && !HoldsWrite(p)
    requires var p' := Do(m, t, p, a).1; HoldsRead(p') || HoldsWrite(p')
    ensures w <= m.q.head
  {
    hide PhaseOf, LiveOf, Typed, Local, MemoryOk, HoldsRead, HoldsWrite;
    hide DoCall, DoFast, DoWaiting, DoRelease, DoPeek, DoPop, DoSignal;
    LivePhases(m, t, p, a, w);
    WaitingInOrder(m, p, a, w);
  }

  /** In every run, when a thread acquires after it has enqueued waiter w, every
      waiter enqueued before w has been popped for signalling or was cancelled. */
  lemma {:induction false} NeverOvertakes(threads: set<Tid>, run: seq<Event>, t: Tid, a: Action, w: nat)
    requires var s := Exec(threads, run);
             var s' := Step(s, t, a);
             && t in s.pc && t in s'.pc && w in LiveOf(s.pc[t]) && !HoldsRead(s.pc[t]) && !HoldsWrite(s.pc[t])
             && (HoldsRead(s'.pc[t]) || HoldsWrite(s'.pc[t]))
    ensures forall v :: 0 <= v < w ==> Passed(Exec(threads, run).m, v)
  {
    hide Exec, Typed, Booked, Local, Do, LiveOf, HoldsRead, HoldsWrite, WordOk, Known;
    var s := Exec(threads, run);
    ExecSafe(threads, run);
    SafeThread(s, t);
    AcquiresInOrder(s.m, t, s.pc[t], a, w);
    forall v | 0 <= v < w ensures Passed(s.m, v) {
      OwnerBound(s.m, t, s.pc[t], w);
    }
  }

  lemma OwnerBound(m: Memory, t: Tid, p: PC, w: nat)
    requires Booked(m, t, p) && w in LiveOf(p)
    ensures w < |m.q.ws| && m.q.ws[w].owner == t && !m.q.ws[w].cancelled
  {
    assert WaitQueue.Own(m.q, t, w, w in m.flagged);
  }

  // ---- Newcomers queue behind those who wait -----------------------------

  /** The call has found nobody waiting and is about to take the lock without a waiter of its own. */
  predicate Barging(p: PC) { p.RCas? || p.WCas? || p.TryCas? || p.TryCasW? }

  predicate Holds(p: PC) { HoldsRead(p) || HoldsWrite(p) }

  lemma CallQueues(m: Memory, t: Tid, p: PC, a: Action)
    requires Typed(p, m) && !m.q.SizeIsZero() && !Barging(p) && (PhaseOf(p) == Calling || PhaseOf(p) == Starting)
    ensures !Barging(Do(m, t, p, a).1)
  {
  }

  lemma QueueQueues(m: Memory, t: Tid, p: PC)
    requires Typed(p, m) && (PhaseOf(p) == Peeking || PhaseOf(p) == Popping || PhaseOf(p) == Signaling)
    ensures !Barging(Do(m, t, p, Run).1) && forall a :: Do(m, t, p, a) == Do(m, t, p, Run)
  {
  }

  lemma Queues(m: Memory, t: Tid, p: PC, a: Action)
    requires Typed(p, m) && !m.q.SizeIsZero() && !Barging(p)
    ensures !Barging(Do(m, t, p, a).1)
  {
    hide DoCall, DoFast, DoPeek, DoPop, DoSignal;
    match PhaseOf(p)
    case Calling => CallQueues(m, t, p, a);
    case Starting => CallQueues(m, t, p, a);
    case Waiting =>
    case Releasing =>
    case _ => QueueQueues(m, t, p);
  }

  /** Without barging, only a call with a waiter comes to hold the lock. */
  lemma AcquiresQueued(m: Memory, t: Tid, p: PC, a: Action)
    requires Typed(p, m) && !Barging(p) && !Holds(p) && Holds(Do(m, t, p, a).1)
    ensures LiveOf(p) != {}
  {
  }

  lemma StepQueues(s: State, u: Tid, a: Action, t: Tid)
    requires t in s.pc && !s.m.q.SizeIsZero() && !Barging(s.pc[t])
    ensures t in Step(s, u, a).pc && !Barging(Step(s, u, a).pc[t])
  {
    hide Do, Barging;
    if u == t && Enabled(s, t) { Queues(s.m, t, s.pc[t], a); }
  }

  lemma {:induction false} RunOn(threads: set<Tid>, run: seq<Event>, e: Event)
    ensures Exec(threads, run + [e]) == Step(Exec(threads, run), e.0, e.1)
  {
    assert (run + [e])[..|run|] == run;
  }

  lemma {:induction false} NeverBarges(threads: set<Tid>, run: seq<Event>, i: nat, k: nat, t: Tid)
    requires i <= k <= |run| && t in Exec(threads, run[..i]).pc && !Barging(Exec(threads, run[..i]).pc[t])
    requires forall j :: i <= j < k ==> !Exec(threads, run[..j]).m.q.SizeIsZero()
    ensures t in Exec(threads, run[..k]).pc && !Barging(Exec(threads, run[..k]).pc[t])
    decreases k
  {
    hide Exec, Barging;
    if i == k {
      assert t in Exec(threads, run[..k]).pc;
    } else {
      NeverBarges(threads, run, i, k - 1, t);
      assert run[..k] == run[..k - 1] + [run[k - 1]];
      RunOn(threads, run[..k - 1], run[k - 1]);
      StepQueues(Exec(threads, run[..k - 1]), run[k - 1].0, run[k - 1].1, t);
    }
  }

  lemma HasWaiter(s: State, t: Tid, a: Action)
    requires t in s.pc && t in Step(s, t, a).pc && !Barging(s.pc[t])
    requires !Holds(s.pc[t]) && Holds(Step(s, t, a).pc[t])
    ensures LiveOf(s.pc[t]) != {}
  {
    hide Do, Barging, Holds, LiveOf;
    if Enabled(s, t) { AcquiresQueued(s.m, t, s.pc[t], a); }
  }

  /** As long as the queue's counter is positive, a thread that was outside a call, or has not looked at the counter since
      it was not, acquires only with a waiter of its own, and after every waiter enqueued before that one. */
  lemma {:induction false} NewcomersQueue(threads: set<Tid>, run: seq<Event>, i: nat, k: nat, t: Tid) returns (w: nat)
    requires i <= k < |run| && run[k].0 == t
    requires t in Exec(threads, run[..i]).pc && !Barging(Exec(threads, run[..i]).pc[t])
    requires forall j :: i <= j < k ==> !Exec(threads, run[..j]).m.q.SizeIsZero()
    requires t in Exec(threads, run[..k]).pc && !Holds(Exec(threads, run[..k]).pc[t])
    requires t in Exec(threads, run[..k + 1]).pc && Holds(Exec(threads, run[..k + 1]).pc[t])
    ensures w in LiveOf(Exec(threads, run[..k]).pc[t])
    ensures forall v :: 0 <= v < w ==> Passed(Exec(threads, run[..k]).m, v)
  {
    hide Exec, Barging, LiveOf, Step, HoldsRead, HoldsWrite, Passed;
    var s := Exec(threads, run[..k]);
    NeverBarges(threads, run, i, k, t);
    assert run[..k + 1] == run[..k] + [run[k]];
    RunOn(threads, run[..k], run[k]);
    HasWaiter(s, t, run[k].1);
    w :| w in LiveOf(s.pc[t]);
    NeverOvertakes(threads, run[..k], t, run[k].1, w);
  }

  // ---- Nobody is stranded ------------------------------------------------

  /** A call with waiter w that has not acquired. */
  predicate Waits(p: PC, w: nat) { w in LiveOf(p) && !p.CancelR? && !p.CancelW? }

  ghost predicate LiveWaiter(s: State, w: nat) {
    w < |s.m.q.ws| && s.m.q.ws[w].owner in s.pc && Waits(s.pc[s.m.q.ws[w].owner], w)
  }

  ghost predicate Pending(m: Memory, w: nat) { m.q.Contains(w) && !m.q.ws[w].cancelled }

  /** The first live waiter of the queue. */
  ghost predicate Front(m: Memory, w: nat) {
    Pending(m, w) && forall v :: m.q.head <= v < w ==> m.q.ws[v].cancelled
  }

  /** The owner of w will still look at the head of the queue, or has seen itself there. */
  predicate Watching(m: Memory, p: PC, w: nat) {
    && Waits(p, w) && !p.Wait?
    && (p.PeekCheck? ==> p.y == w || (p.y < |m.q.ws| && m.q.ws[p.y].cancelled))
  }

  /** A releasing thread that is still going to pop a live waiter, its first or one more. */
  predicate Waking(p: PC) {
    || ((p.Peek? || p.PeekCheck? || p.PeekDrop? || p.PeekSub?) && p.who.Wake?)
    || p.Pop? || p.PopSub? || p.PopCheck?
  }

  /** Thread u will still pop a waiter, signal the live waiter w, retry as the
      flagged waiter w, or try the word as the first live waiter w. */
  ghost predicate Useful(s: State, u: Tid, w: nat) {
    u in s.pc &&
    var p := s.pc[u];
    || Waking(p)
    || (w in HandOf(p) && LiveWaiter(s, w))
    || (Waits(p, w) && w in s.m.flagged)
    || (Front(s.m, w) && Watching(s.m, p, w))
  }

  /** A free lock with a live waiter in the queue has a useful thread. */
  ghost predicate Served(s: State) {
    s.m.word == 0 && (exists w :: Pending(s.m, w)) ==> exists u, w :: Useful(s, u, w)
  }

  /** The popper of w has not yet looked at its cancelled flag. */
  predicate Undecided(p: PC, w: nat) { (p.PopSub? || p.PopCheck?) && p.w == w }

  /** Waiter w is going to be signaled whatever its owner does. */
  ghost predicate Decided(s: State, w: nat) {
    w < |s.m.q.ws| &&
    var place := s.m.q.ws[w].place;
    place == Signaled || (place.Hand? && place.popper in s.pc && !Undecided(s.pc[place.popper], w))
  }

  /** A give-up is late when the signal is already on its way to the waiter. */
  ghost predicate LateGiveUp(s: State, t: Tid, a: Action) {
    t in s.pc && GivesUp(s.m, s.pc[t], a) && Decided(s, s.pc[t].w)
  }

  lemma FastWaitsOn(m: Memory, t: Tid, p: PC, a: Action, w: nat)
    requires Typed(p, m) && PhaseOf(p) == Starting && Waits(p, w)
    ensures Waits(DoFast(m, t, p, a).1, w)
  {
    hide HandOf, Local;
  }

  lemma WaitingWaitsOn(m: Memory, p: PC, a: Action, w: nat)
    requires Typed(p, m) && PhaseOf(p) == Waiting && Waits(p, w) && m.word == 0 && DoWaiting(m, p, a).0.word == 0
    requires !GivesUp(m, p, a)
    ensures Waits(DoWaiting(m, p, a).1, w)
  {
    hide HandOf, Local;
  }

  lemma PeekWaitsOn(m: Memory, p: PC, w: nat)
    requires Typed(p, m) && PhaseOf(p) == Peeking && Waits(p, w)
    ensures Waits(DoPeek(m, p).1, w)
  {
    hide HandOf, Local;
  }

  /** A thread that waits is in one of these phases. */
  lemma WaitingPhases(p: PC, w: nat)
    requires Waits(p, w)
    ensures PhaseOf(p) == Starting || PhaseOf(p) == Waiting || PhaseOf(p) == Peeking
  {
  }

  /** Only acquiring or giving up ends a wait. */
  lemma WaitsOn(m: Memory, t: Tid, p: PC, a: Action, w: nat)
    requires Typed(p, m) && Waits(p, w) && m.word == 0 && Do(m, t, p, a).0.word == 0
    requires !GivesUp(m, p, a)
    ensures Waits(Do(m, t, p, a).1, w)
  {
    hide PhaseOf, Waits, Typed, DoCall, DoFast, DoWaiting, DoRelease, DoPeek, DoPop, DoSignal;
    WaitingPhases(p, w);
    if PhaseOf(p) == Starting {
      FastWaitsOn(m, t, p, a, w);
    } else if PhaseOf(p) == Waiting {
      WaitingWaitsOn(m, p, a, w);
    } else {
      PeekWaitsOn(m, p, w);
    }
  }

  /** While the lock is free, a popped waiter that is neither cancelled nor flagged is still waiting. */
  lemma FreeLockWaiterIsLive(s: State, w: nat)
    requires Safe(s) && s.m.word == 0 && w < |s.m.q.ws| && w !in s.m.flagged
    requires s.m.q.ws[w].place.Hand? && !s.m.q.ws[w].cancelled
    ensures LiveWaiter(s, w)
  {
    hide Local, MemoryOk;
    SafeThread(s, s.m.q.ws[w].owner);
    TotalNonNegative(s.pc, ReadWeight);
    TotalNonNegative(s.pc, WriteWeight);
  }

  /** What a step from p to p' may do to the queue's ends and to the word. */
  ghost predicate Effect(m: Memory, m': Memory, p': PC) {
    // the head moves past a live waiter only when the stepping thread pops it
    && (|| m'.q.head == m.q.head
        || (m'.q.head == m.q.head + 1 <= |m.q.ws|
            && ((p'.PopSub? && p'.w == m.q.head) || m.q.ws[m.q.head].cancelled)))
    // a node appears only when the stepping thread links its own
    && (|m'.q.ws| == |m.q.ws| || (|m'.q.ws| == |m.q.ws| + 1 && p' == Add(|m.q.ws|)))
    // only a release frees the word, and then the releasing thread looks for a waiter
    && (m.word > 0 && m'.word == 0 ==> p' == Peek(Wake))
  }

  lemma CallEffect(m: Memory, p: PC, a: Action)
    requires Typed(p, m) && Local(m, p) && PhaseOf(p) == Calling
    ensures var (m', p') := DoCall(m, p, a); Effect(m, m', p')
  {
    hide HandOf, LiveOf;
  }

  lemma FastEffect(m: Memory, t: Tid, p: PC, a: Action)
    requires Typed(p, m) && Local(m, p) && PhaseOf(p) == Starting
    ensures var (m', p') := DoFast(m, t, p, a); Effect(m, m', p')
  {
    hide HandOf, LiveOf;
  }

  lemma WaitingEffect(m: Memory, p: PC, a: Action)
    requires Typed(p, m) && Local(m, p) && PhaseOf(p) == Waiting
    ensures var (m', p') := DoWaiting(m, p, a); Effect(m, m', p')
  {
    hide HandOf, LiveOf;
  }

  lemma ReleaseEffect(m: Memory, p: PC)
    requires Typed(p, m) && Local(m, p) && PhaseOf(p) == Releasing
    ensures var (m', p') := DoRelease(m, p); Effect(m, m', p')
  {
    hide HandOf, LiveOf;
  }

  lemma PeekEffect(m: Memory, p: PC)
    requires Typed(p, m) && Local(m, p) && PhaseOf(p) == Peeking
    ensures var (m', p') := DoPeek(m, p); Effect(m, m', p')
  {
    hide HandOf, LiveOf;
  }

  lemma PopEffect(m: Memory, t: Tid, p: PC)
    requires Typed(p, m) && Local(m, p) && PhaseOf(p) == Popping
    ensures var (m', p') := DoPop(m, t, p); Effect(m, m', p')
  {
    hide HandOf, LiveOf;
  }

  lemma SignalEffect(m: Memory, p: PC)
    requires Typed(p, m) && Local(m, p) && PhaseOf(p) == Signaling
    ensures var (m', p') := DoSignal(m, p); Effect(m, m', p')
  {
    hide HandOf, LiveOf;
  }

  lemma DoEffect(m: Memory, t: Tid, p: PC, a: Action)
    requires Typed(p, m) && Local(m, p)
    ensures var (m', p') := Do(m, t, p, a); Effect(m, m', p')
  {
    hide Local, DoCall, DoFast, DoWaiting, DoRelease, DoPeek, DoPop, DoSignal, PhaseOf, Typed, Effect;
    match PhaseOf(p)
    case Calling => CallEffect(m, p, a);
    case Starting => FastEffect(m, t, p, a);
    case Waiting => WaitingEffect(m, p, a);
    case Releasing => ReleaseEffect(m, p);
    case Peeking => PeekEffect(m, p);
    case Popping => PopEffect(m, t, p);
    case Signaling => SignalEffect(m, p);
  }

  lemma FrontKept(m: Memory, m': Memory, t: Tid, w: nat)
    requires Front(m, w) && Evolves(m.q, m'.q, t) && m.q.head <= m'.q.head <= w && !m'.q.ws[w].cancelled
    ensures Front(m', w)
  {
  }

  /** The first live waiter exists when there is a live one. */
  lemma {:induction false} FrontExists(m: Memory, v: nat) returns (w: nat)
    requires Pending(m, v)
    ensures Front(m, w) && w <= v
    decreases v
  {
    if u: nat :| m.q.head <= u < v && !m.q.ws[u].cancelled {
      w := FrontExists(m, u);
    } else {
      w := v;
    }
  }

  ghost predicate StillWatched(m: Memory, p: PC, w: nat) {
    Watching(m, p, w) && m.q.head <= w < |m.q.ws| && !m.q.ws[w].cancelled
  }

  lemma FastWatches(m: Memory, t: Tid, p: PC, a: Action, w: nat)
    requires MemoryOk(m) && Typed(p, m) && PhaseOf(p) == Starting && Front(m, w) && Watching(m, p, w)
    ensures var (m', p') := DoFast(m, t, p, a); StillWatched(m', p', w)
  {
    hide HandOf, Queue.Valid, Local;
  }

  lemma WaitingWatches(m: Memory, p: PC, a: Action, w: nat)
    requires MemoryOk(m) && Typed(p, m) && Local(m, p) && PhaseOf(p) == Waiting && Front(m, w) && Watching(m, p, w)
    requires m.word == 0 && DoWaiting(m, p, a).0.word == 0
    ensures var (m', p') := DoWaiting(m, p, a); StillWatched(m', p', w)
  {
    hide HandOf, Queue.Valid;
  }

  lemma PeekWatches(m: Memory, p: PC, w: nat)
    requires MemoryOk(m) && Typed(p, m) && Local(m, p) && PhaseOf(p) == Peeking && Front(m, w) && Watching(m, p, w)
    requires m.word == 0
    ensures var (m', p') := DoPeek(m, p); StillWatched(m', p', w)
  {
    hide HandOf, Queue.Valid;
  }

  /** The owner of the first live waiter goes on watching, unless it takes the lock. */
  lemma WatchStep(m: Memory, t: Tid, p: PC, a: Action, w: nat)
    requires MemoryOk(m) && Typed(p, m) && Local(m, p) && Front(m, w) && Watching(m, p, w)
    requires m.word == 0 && Do(m, t, p, a).0.word == 0
    ensures var (m', p') := Do(m, t, p, a);
            Watching(m', p', w) && m'.q.head <= w < |m'.q.ws| && !m'.q.ws[w].cancelled
  {
    hide PhaseOf, Waits, Typed, Local, MemoryOk, Front, DoCall, DoFast, DoWaiting, DoRelease, DoPeek, DoPop, DoSignal;
    WaitingPhases(p, w);
    if PhaseOf(p) == Starting {
      FastWatches(m, t, p, a, w);
    } else if PhaseOf(p) == Waiting {
      WaitingWatches(m, p, a, w);
    } else {
      PeekWatches(m, p, w);
    }
  }

  /** A step of another thread keeps u useful or makes the stepping thread so. */
  lemma OthersStayUseful(s: State, t: Tid, a: Action, u: Tid, w: nat)
    requires Safe(s) && t in s.pc && u != t && Useful(s, u, w) && !LateGiveUp(s, t, a) && !s.m.crashed
    requires s.m.word == 0 && Step(s, t, a).m.word == 0
    ensures Useful(Step(s, t, a), u, w) || Useful(Step(s, t, a), t, w)
  {
    hide Do, Booked, Local, WordOk, Known, Typed, Waking, LiveOf, HandOf, Waits;
    var s' := Step(s, t, a);
    SafeThread(s, t);
    SafeThread(s, u);
    StepSafe(s, t, a);
    var p := s.pc[u];
    if Waking(p) {
      assert Useful(s', u, w);
    } else if w in HandOf(p) && LiveWaiter(s, w) {
      HandPlace(s.m, u, p, w);
      HandDecided(p, w);
      if s.m.q.ws[w].owner == t { StillWaits(s, t, a, w); }
      assert LiveWaiter(s', w);
    } else if Front(s.m, w) && Watching(s.m, p, w) {
      WaitsOwner(s.m, u, p, w);
      DoEffect(s.m, t, s.pc[t], a);
      if s'.m.q.head <= w {
        FrontKept(s.m, s'.m, t, w);
      } else {
        PopSubWakes(s'.pc[t]);
      }
    }
  }

  lemma HandPlace(m: Memory, u: Tid, p: PC, w: nat)
    requires Booked(m, u, p) && w in HandOf(p)
    ensures w < |m.q.ws| && m.q.ws[w].place == Hand(u)
  {
    assert w in HandSet(p);
  }

  lemma WaitsOwner(m: Memory, u: Tid, p: PC, w: nat)
    requires Booked(m, u, p) && Waits(p, w)
    ensures w < |m.q.ws| && m.q.ws[w].owner == u && !m.q.ws[w].cancelled
  {
    OwnerBound(m, u, p, w);
  }

  lemma PopSubWakes(p: PC)
    requires p.PopSub?
    ensures Waking(p)
  {
  }

  lemma HandDecided(p: PC, w: nat)
    requires !Waking(p)
    ensures !Undecided(p, w)
  {
  }

  /** A flagged waiter was popped, and its popper has decided to signal it. */
  lemma FlaggedDecided(s: State, w: nat)
    requires Safe(s) && w in s.m.flagged && w < |s.m.q.ws| && !s.m.q.ws[w].cancelled
    ensures Decided(s, w)
  {
    hide WordOk, Books;
    if s.m.q.ws[w].place.Hand? { SafeThread(s, s.m.q.ws[w].place.popper); }
  }

  lemma StillWaits(s: State, t: Tid, a: Action, w: nat)
    requires t in s.pc && Typed(s.pc[t], s.m) && !s.m.crashed && Waits(s.pc[t], w) && w < |s.m.q.ws|
    requires s.m.word == 0 && Step(s, t, a).m.word == 0 && Decided(s, w) && !LateGiveUp(s, t, a)
    ensures Waits(Step(s, t, a).pc[t], w)
  {
    hide Do, Typed;
    assert s.pc[t].Wait? ==> s.pc[t].w == w;
    WaitsOn(s.m, t, s.pc[t], a, w);
  }

  lemma WakingStep(m: Memory, t: Tid, p: PC, a: Action)
    requires Typed(p, m) && Waking(p) && !Do(m, t, p, a).0.q.Empty()
    ensures var p' := Do(m, t, p, a).1;
            Waking(p') || (p.PopCheck? && !m.q.ws[p.w].cancelled && p.w in HandOf(p'))
  {
    hide Books, LiveOf, DoCall, DoFast, DoWaiting, DoRelease, DoSignal;
    if p.PopCheck? { assert (p.list + [p.w])[|p.list|] == p.w; }
  }

  lemma PeekHands(m: Memory, p: PC, w: nat)
    requires Typed(p, m) && PhaseOf(p) == Peeking && w in HandOf(p)
    ensures w in HandOf(DoPeek(m, p).1)
  {
    hide LiveOf;
  }

  lemma PopHands(m: Memory, t: Tid, p: PC, w: nat)
    requires Typed(p, m) && PhaseOf(p) == Popping && w in HandOf(p) && w < |m.q.ws| && !m.q.ws[w].cancelled
    ensures w in HandOf(DoPop(m, t, p).1)
  {
    hide LiveOf;
  }

  lemma SignalHands(m: Memory, p: PC, w: nat)
    requires Typed(p, m) && Local(m, p) && PhaseOf(p) == Signaling && w in HandOf(p)
    ensures w in HandOf(DoSignal(m, p).1) || (w in m.flagged && p.SendToken?)
  {
    hide LiveOf;
    assert p.SendToken? ==> p.list == [p.list[0]] + p.list[1..];
  }

  lemma HandPhases(p: PC, w: nat)
    requires w in HandOf(p)
    ensures PhaseOf(p) == Popping || PhaseOf(p) == Peeking || PhaseOf(p) == Signaling
  {
  }

  /** A popped live waiter stays in hand until its token is sent. */
  lemma HandStep(m: Memory, t: Tid, p: PC, a: Action, w: nat)
    requires Typed(p, m) && Local(m, p) && w in HandOf(p) && w < |m.q.ws| && !m.q.ws[w].cancelled
    ensures w in HandOf(Do(m, t, p, a).1) || (w in m.flagged && p.SendToken?)
  {
    hide PhaseOf, HandOf, Typed, Local, DoCall, DoFast, DoWaiting, DoRelease, DoPeek, DoPop, DoSignal;
    HandPhases(p, w);
    if PhaseOf(p) == Popping {
      PopHands(m, t, p, w);
    } else if PhaseOf(p) == Peeking {
      PeekHands(m, p, w);
    } else {
      SignalHands(m, p, w);
    }
  }

  /** A useful thread that steps leaves some thread useful, unless it takes the lock. */
  lemma SelfLeavesUseful(s: State, t: Tid, a: Action, w: nat) returns (u': Tid, w': nat)
    requires Safe(s) && Useful(s, t, w) && !LateGiveUp(s, t, a) && !s.m.crashed
    requires s.m.word == 0 && Step(s, t, a).m.word == 0 && !Step(s, t, a).m.q.Empty()
    ensures Useful(Step(s, t, a), u', w')
  {
    hide Do, Booked, Local, WordOk, Known, Typed, Waking, LiveOf, HandOf, Waits;
    var s' := Step(s, t, a);
    SafeThread(s, t);
    StepSafe(s, t, a);
    u', w' := t, w;
    var p := s.pc[t];
    if Waking(p) {
      WakingStep(s.m, t, p, a);
      if !Waking(s'.pc[t]) {
        w' := p.w;
        PoppedUnflagged(s.m, t, p);
        FreeLockWaiterIsLive(s, p.w);
        HandsDoNotWait(p, p.w, 0);
        StillLive(s, t, a, p.w);
      }
    } else if w in HandOf(p) && LiveWaiter(s, w) {
      LiveNotCancelled(s, w);
      HandStep(s.m, t, p, a, w);
      HandsDoNotWait(p, w, w);
      StillLive(s, t, a, w);
      if w !in HandOf(s'.pc[t]) {
        u' := s.m.q.ws[w].owner;
      }
    } else if Waits(p, w) && w in s.m.flagged {
      WaitsOwner(s.m, t, p, w);
      FlaggedDecided(s, w);
      StillWaits(s, t, a, w);
    } else {
      WatchStep(s.m, t, p, a, w);
      FrontKept(s.m, s'.m, t, w);
    }
  }

  lemma PoppedUnflagged(m: Memory, t: Tid, p: PC)
    requires Booked(m, t, p) && Local(m, p) && p.PopCheck?
    ensures p.w !in m.flagged && p.w < |m.q.ws| && m.q.ws[p.w].place == Hand(t)
  {
    assert HandOf(p)[|p.list|] == p.w;
    HandPlace(m, t, p, p.w);
  }

  lemma LiveNotCancelled(s: State, w: nat)
    requires Safe(s) && LiveWaiter(s, w)
    ensures !s.m.q.ws[w].cancelled
  {
    hide Local, MemoryOk, WordOk, Known;
    var u := s.m.q.ws[w].owner;
    SafeThread(s, u);
    WaitsOwner(s.m, u, s.pc[u], w);
  }

  /** The owner of a popped waiter is another thread than one that releases. */
  lemma StillLive(s: State, t: Tid, a: Action, w: nat)
    requires Safe(s) && t in s.pc && LiveWaiter(s, w)
    requires !Waits(s.pc[t], w)
    ensures LiveWaiter(Step(s, t, a), w) && Step(s, t, a).m.q.ws[w].owner == s.m.q.ws[w].owner
    ensures var u := s.m.q.ws[w].owner; u != t && Step(s, t, a).pc[u] == s.pc[u]
  {
    hide Do, Booked, Local, WordOk, Known, Typed, LiveOf, HandOf, Waits, Safe;
    StepSafe(s, t, a);
  }

  lemma HandsDoNotWait(p: PC, w: nat, v: nat)
    requires v in HandOf(p) || Waking(p)
    ensures !Waits(p, w)
  {
  }

  lemma StepServed(s: State, t: Tid, a: Action)
    requires Safe(s) && Served(s) && t in s.pc && !LateGiveUp(s, t, a)
    ensures Served(Step(s, t, a))
  {
    hide Do, Safe, Useful, Front, Evolves, LateGiveUp, Typed;
    var s' := Step(s, t, a);
    if v: nat :| s'.m.word == 0 && Pending(s'.m, v) && !s.m.crashed {
      SafeThread(s, t);
      if s.m.word != 0 {
        WordPositive(s);
        DoEffect(s.m, t, s.pc[t], a);
        WakingIsUseful(s', t);
      } else if x :| Pending(s.m, x) {
        var u, w :| Useful(s, u, w);
        if u == t {
          var u', w' := SelfLeavesUseful(s, t, a, w);
        } else {
          OthersStayUseful(s, t, a, u, w);
        }
      } else {
        NewWaiterIsUseful(s, t, a, v);
      }
    }
  }

  lemma WordPositive(s: State)
    requires Safe(s) && s.m.word != 0
    ensures s.m.word > 0
  {
  }

  lemma WakingIsUseful(s: State, t: Tid)
    requires t in s.pc && s.pc[t] == Peek(Wake)
    ensures Useful(s, t, 0)
  {
  }

  /** The first waiter to enter a queue without live ones watches the head. */
  lemma NewWaiterIsUseful(s: State, t: Tid, a: Action, v: nat)
    requires Safe(s) && t in s.pc && !s.m.crashed && Pending(Step(s, t, a).m, v)
    requires !exists x :: Pending(s.m, x)
    ensures exists w :: Useful(Step(s, t, a), t, w)
  {
    hide Do, Safe, Typed, LateGiveUp;
    SafeThread(s, t);
    StepSafe(s, t, a);
    var s' := Step(s, t, a);
    var w := FrontExists(s'.m, v);
    assert !Pending(s.m, w);
    DoEffect(s.m, t, s.pc[t], a);
    assert Useful(s', t, w);
  }

  /** No event of the run drops a signal that is already on its way. */
  ghost predicate NoLateGiveUp(threads: set<Tid>, run: seq<Event>) {
    forall i {:trigger run[i]} :: 0 <= i < |run| ==>
      !LateGiveUp(Exec(threads, run[..i]), run[i].0, run[i].1)
  }

  lemma {:induction false} ExecServed(threads: set<Tid>, run: seq<Event>)
    requires NoLateGiveUp(threads, run)
    ensures Served(Exec(threads, run))
  {
    hide Do, Safe, LateGiveUp, Useful, Typed;
    if run == [] {
      assert !exists w :: Pending(Init(threads).m, w);
    } else {
      var k := |run| - 1;
      var before := run[..k];
      forall i | 0 <= i < k ensures !LateGiveUp(Exec(threads, before[..i]), before[i].0, before[i].1) {
        assert before[..i] == run[..i] && before[i] == run[i];
      }
      ExecServed(threads, before);
      ExecSafe(threads, before);
      var s := Exec(threads, before);
      if run[k].0 in s.pc {
        StepServed(s, run[k].0, run[k].1);
      }
    }
  }

  /** No thread can take a step on its own: each is outside a call or parked without a token. */
  ghost predicate Quiescent(s: State) {
    forall t {:trigger s.pc[t]} :: t in s.pc ==>
      || s.pc[t].Idle? || s.pc[t].ReadHold? || s.pc[t].WriteHold?
      || (s.pc[t].Wait? && s.pc[t].w < |s.m.q.ws| && !s.m.q.ws[s.pc[t].w].token)
  }

  lemma QuiescentUseless(s: State, u: Tid, w: nat)
    requires Safe(s) && Quiescent(s)
    ensures !Useful(s, u, w)
  {
    hide WordOk;
    if u in s.pc && s.pc[u].Wait? {
      SafeThread(s, u);
      if Waits(s.pc[u], w) && w in s.m.flagged {
        WaitsOwner(s.m, u, s.pc[u], w);
        var place := s.m.q.ws[w].place;
        if place.Hand? { SafeThread(s, place.popper); }
      }
    }
  }

  lemma QuiescentNotParked(s: State, t: Tid)
    requires Safe(s) && Served(s) && t in s.pc && s.pc[t].Wait?
    ensures !(Quiescent(s) && s.m.word == 0)
  {
    hide Useful, WordOk;
    SafeThread(s, t);
    if Quiescent(s) && s.m.word == 0 {
      forall u, w ensures !Useful(s, u, w) { QuiescentUseless(s, u, w); }
      assert !Pending(s.m, s.pc[t].w);
      var x := s.m.q.ws[s.pc[t].w];
      WaitsOwner(s.m, t, s.pc[t], s.pc[t].w);
      if x.place.Hand? { SafeThread(s, x.place.popper); }
    }
  }

  lemma QuiescentFree(s: State, t: Tid)
    requires Safe(s) && Served(s) && t in s.pc
    ensures Quiescent(s) && s.m.word == 0 ==> s.pc[t] == Idle
  {
    hide Linked, Known, MemoryOk, Served;
    TotalNonNegative(s.pc, ReadWeight);
    TotalNonNegative(s.pc, WriteWeight);
    if s.pc[t].Wait? { QuiescentNotParked(s, t); }
  }

  /** In every run without a late give-up, when nobody holds the lock and nobody is
      in the middle of an operation, no reader and no writer is parked. */
  lemma {:induction false} NobodyStranded(threads: set<Tid>, run: seq<Event>)
    requires NoLateGiveUp(threads, run)
    ensures var s := Exec(threads, run);
            Quiescent(s) && Readers(s) == {} && Writers(s) == {} ==> forall t :: t in s.pc ==> s.pc[t] == Idle
  {
    hide Exec, Safe, Useful;
    ExecSafe(threads, run);
    ExecServed(threads, run);
    WordWellFormed(threads, run);
    var s := Exec(threads, run);
    if Quiescent(s) && Readers(s) == {} && Writers(s) == {} {
      forall t | t in s.pc ensures s.pc[t] == Idle {
        QuiescentFree(s, t);
      }
    }
  }

  /** No caller of this kind has a context that ends. */
  predicate NoGiveUp(run: seq<Event>, kind: Kind) { forall i :: 0 <= i < |run| ==> run[i].1 != GiveUp(kind) }

  lemma TwoGiveUps(a: Action)
    ensures a.GiveUp? <==> a == GiveUp(Reader) || a == GiveUp(Writer)
  {
    if a.GiveUp? { assert a.kind == Reader || a.kind == Writer; }
  }

  /** In particular callers of the forms without a context strand nobody. */
  lemma {:induction false} PlainCallsStrandNobody(threads: set<Tid>, run: seq<Event>)
    requires NoGiveUp(run, Reader) && NoGiveUp(run, Writer)
    ensures var s := Exec(threads, run);
            Quiescent(s) && Readers(s) == {} && Writers(s) == {} ==> forall t :: t in s.pc ==> s.pc[t] == Idle
  {
    hide Exec, Quiescent;
    forall i | 0 <= i < |run| ensures !run[i].1.GiveUp? { TwoGiveUps(run[i].1); }
    NobodyStranded(threads, run);
  }

  // ---- A thread on its own -----------------------------------------------

  /** The thread is outside a call or parked without a token. */
  predicate Rests(s: State, t: Tid) {
    t in s.pc && (s.pc[t].Idle? || s.pc[t].ReadHold? || s.pc[t].WriteHold? || Parked(s, t))
  }

  predicate Parked(s: State, t: Tid) {
    t in s.pc && s.pc[t].Wait? && s.pc[t].w < |s.m.q.ws| && !s.m.q.ws[s.pc[t].w].token
  }

  lemma DoMoves(m: Memory, t: Tid, p: PC)
    requires Typed(p, m) && !m.crashed
    ensures Do(m, t, p, Run) == (m, p) <==> p.Idle? || p.ReadHold? || p.WriteHold? || (p.Wait? && !m.q.ws[p.w].token)
  {
  }

  /** A thread can move unless it rests. */
  lemma MovesExactly(s: State, t: Tid)
    requires Safe(s) && t in s.pc && !s.m.crashed
    ensures Step(s, t, Run) == s <==> Rests(s, t)
  {
    hide Known, Books, Do, Safe;
    SafeThread(s, t);
    DoMoves(s.m, t, s.pc[t]);
    assert s.pc == s.pc[t := s.pc[t]];
    if Step(s, t, Run) == s { assert Step(s, t, Run).pc[t] == s.pc[t]; }
  }

  /** The state after n steps of t alone. */
  ghost function Alone(s: State, t: Tid, n: nat): State
    decreases n
  {
    if n == 0 then s else Alone(Step(s, t, Run), t, n - 1)
  }

  lemma {:induction false} AloneAdds(s: State, t: Tid, a: nat, b: nat)
    ensures Alone(Alone(s, t, a), t, b) == Alone(s, t, a + b)
    decreases a
  {
    hide Step;
    if a == 0 {
      assert Alone(s, t, a) == s;
    } else {
      AloneAdds(Step(s, t, Run), t, a - 1, b);
    }
  }

  lemma AloneFew(s: State, t: Tid)
    ensures Alone(s, t, 1) == Step(s, t, Run)
    ensures Alone(s, t, 2) == Step(Step(s, t, Run), t, Run)
    ensures Alone(s, t, 3) == Step(Step(Step(s, t, Run), t, Run), t, Run)
  {
    hide Step;
    var s1 := Step(s, t, Run);
    var s2 := Step(s1, t, Run);
    assert Alone(s, t, 1) == Alone(s1, t, 0);
    assert Alone(s, t, 2) == Alone(s1, t, 1) == Alone(s2, t, 0);
    assert Alone(s, t, 3) == Alone(s1, t, 2) == Alone(s2, t, 1) == Alone(Step(s2, t, Run), t, 0);
  }

  // ---- Whom an undisturbed release wakes ---------------------------------

  /** Waiter w is a live reader with no live writer before it. */
  ghost predicate InBlock(m: Memory, w: nat)
    requires |m.kinds| == |m.q.ws|
  {
    && LiveIn(m.q, w) && m.kinds[w] == Reader
    && (forall v: nat :: LiveIn(m.q, v) && v < w ==> m.kinds[v] == Reader)
  }

  /** Waiter w is a writer and the first live waiter. */
  ghost predicate FirstWriter(m: Memory, w: nat)
    requires |m.kinds| == |m.q.ws|
  {
    && LiveIn(m.q, w) && m.kinds[w] == Writer
    && (forall v: nat :: LiveIn(m.q, v) ==> w <= v)
  }

  /** The turn of w: the first live waiter alone if it is a writer, else the readers before the first live writer. */
  ghost predicate Turn(m: Memory, w: nat)
    requires |m.kinds| == |m.q.ws|
  {
    FirstWriter(m, w) || InBlock(m, w)
  }

  /** Exactly the waiters whose turn it is have been flagged and sent a token; the other live ones are still queued. */
  ghost predicate TurnWoken(m: Memory, m': Memory)
    requires |m.kinds| == |m.q.ws|
  {
    && m'.word == m.word && m'.kinds == m.kinds && m'.crashed == m.crashed && |m'.q.ws| == |m.q.ws|
    && (forall w: nat :: w in m'.flagged <==> w in m.flagged || Turn(m, w))
    && (forall w: nat {:trigger TurnWokenAt(m, m', w)} :: w < |m.q.ws| ==> TurnWokenAt(m, m', w))
  }

  ghost predicate TurnWokenAt(m: Memory, m': Memory, w: nat)
    requires w < |m.kinds| == |m.q.ws| == |m'.q.ws|
  {
    var x, x' := m.q.ws[w], m'.q.ws[w];
    && x'.owner == x.owner && x'.cancelled == x.cancelled
    && (if Turn(m, w) then x'.token && x'.place == Signaled else x'.token == x.token)
    && (LiveIn(m.q, w) && !Turn(m, w) ==> LiveIn(m'.q, w) && x' == x)
    && (w < m.q.head ==> x' == x)
  }

  /** The waiters of the list are out of the queue, the other live ones still in it. */
  ghost predicate Taken(q: Queue, q1: Queue, list: seq<nat>) {
    && |q1.ws| == |q.ws|
    && (forall w: nat {:trigger TakenAt(q, q1, list, w)} :: w < |q.ws| ==> TakenAt(q, q1, list, w))
  }

  ghost predicate TakenAt(q: Queue, q1: Queue, list: seq<nat>, w: nat)
    requires w < |q.ws| == |q1.ws|
  {
    var x, x1 := q.ws[w], q1.ws[w];
    && x1.owner == x.owner && x1.cancelled == x.cancelled && x1.token == x.token
    && (LiveIn(q, w) && w !in list ==> LiveIn(q1, w) && x1 == x)
    && (w < q.head ==> x1 == x)
  }

  lemma PeekStep(s: State, t: Tid)
    requires !s.m.crashed && t in s.pc && PhaseOf(s.pc[t]) == Peeking && Typed(s.pc[t], s.m)
    ensures Step(s, t, Run) == State(DoPeek(s.m, s.pc[t]).0, s.pc[t := DoPeek(s.m, s.pc[t]).1])
  {
    hide DoPeek;
  }

  lemma PopStep(s: State, t: Tid)
    requires !s.m.crashed && t in s.pc && PhaseOf(s.pc[t]) == Popping && Typed(s.pc[t], s.m)
    ensures Step(s, t, Run) == State(DoPop(s.m, t, s.pc[t]).0, s.pc[t := DoPop(s.m, t, s.pc[t]).1])
  {
    hide DoPop;
  }

  lemma SignalStep(s: State, t: Tid)
    requires !s.m.crashed && t in s.pc && PhaseOf(s.pc[t]) == Signaling && Typed(s.pc[t], s.m)
    ensures Step(s, t, Run) == State(DoSignal(s.m, s.pc[t]).0, s.pc[t := DoSignal(s.m, s.pc[t]).1])
  {
    hide DoSignal;
  }

  predicate AtPeek(s: State, t: Tid) {
    !s.m.crashed && t in s.pc && s.pc[t].Peek? && !s.pc[t].who.Self? && |s.m.kinds| == |s.m.q.ws|
  }

  /** peek finds nothing. */
  lemma PeekEmpty(s: State, t: Tid)
    requires AtPeek(s, t) && s.m.q.Empty()
    ensures Alone(s, t, 1) == s.(pc := s.pc[t := PeekedNothing(s.pc[t].who)])
  {
    hide Step, Alone;
    AloneFew(s, t);
    PeekStep(s, t);
  }

  function HeadDropped(q: Queue): Queue
    requires !q.Empty()
  {
    q.Unlink().Add(-1)
  }

  function HeadTaken(q: Queue, t: Tid): Queue
    requires !q.Empty()
  {
    q.Pop(t).Add(-1)
  }

  lemma HeadOut(q: Queue, t: Tid)
    requires !q.Empty()
    ensures FirstOut(q, HeadDropped(q)) && HeadDropped(q).ws[q.head].token == q.ws[q.head].token
    ensures FirstOut(q, HeadTaken(q, t)) && HeadTaken(q, t).ws[q.head].token == q.ws[q.head].token
  {
  }

  /** peek sees a cancelled first node, */
  lemma PeekSeesDead(s: State, t: Tid)
    requires AtPeek(s, t) && !s.m.q.Empty() && s.m.q.ws[s.m.q.head].cancelled
    ensures Alone(s, t, 2) == s.(pc := s.pc[t := PeekDrop(s.pc[t].who, s.m.q.head)])
  {
    hide Step, Alone;
    AloneFew(s, t);
    PeekStep(s, t);
    PeekStep(Step(s, t, Run), t);
  }

  /** unlinks it and counts it down. */
  lemma PeekDrops(s: State, t: Tid)
    requires !s.m.crashed && t in s.pc && s.pc[t].PeekDrop? && s.pc[t].y == s.m.q.head && !s.m.q.Empty()
    requires |s.m.kinds| == |s.m.q.ws|
    ensures Alone(s, t, 2) == State(s.m.(q := HeadDropped(s.m.q)), s.pc[t := Peek(s.pc[t].who)])
  {
    hide Step, Alone;
    AloneFew(s, t);
    PeekStep(s, t);
    PeekStep(Step(s, t, Run), t);
  }

  lemma PeekSkips(s: State, t: Tid)
    requires AtPeek(s, t) && !s.m.q.Empty() && s.m.q.ws[s.m.q.head].cancelled
    ensures Alone(s, t, 4) == s.(m := s.m.(q := HeadDropped(s.m.q)))
  {
    hide Step, Alone, HeadDropped;
    PeekSeesDead(s, t);
    PeekDrops(Alone(s, t, 2), t);
    AloneAdds(s, t, 2, 2);
    assert s.pc[t := s.pc[t]] == s.pc;
  }

  /** peek finds a live first node. */
  lemma PeekFinds(s: State, t: Tid)
    requires AtPeek(s, t) && !s.m.q.Empty() && !s.m.q.ws[s.m.q.head].cancelled
    ensures Alone(s, t, 2) == s.(pc := s.pc[t := Peeked(s.m, s.pc[t].who, s.m.q.head)])
  {
    hide Step, Alone;
    AloneFew(s, t);
    PeekStep(s, t);
    PeekStep(Step(s, t, Run), t);
  }

  /** dequeue takes a live first node. */
  lemma PopTakes(s: State, t: Tid)
    requires !s.m.crashed && t in s.pc && s.pc[t].Pop? && |s.m.kinds| == |s.m.q.ws|
    requires !s.m.q.Empty() && !s.m.q.ws[s.m.q.head].cancelled
    ensures var w, list := s.m.q.head, s.pc[t].list + [s.m.q.head];
            Alone(s, t, 3) == State(s.m.(q := HeadTaken(s.m.q, t)),
              s.pc[t := if s.pc[t].batch == Single || s.m.kinds[w] == Writer then SetFlag(list) else Peek(More(list))])
  {
    hide Step, Alone;
    AloneFew(s, t);
    PopStep(s, t);
    var s1 := Step(s, t, Run);
    PopStep(s1, t);
    PopStep(Step(s1, t, Run), t);
  }

  /** A reader at the head joins the list. */
  lemma TakesReader(s: State, t: Tid)
    requires AtPeek(s, t) && !s.m.q.Empty() && !s.m.q.ws[s.m.q.head].cancelled && s.m.kinds[s.m.q.head] == Reader
    ensures var list := if s.pc[t].who.Wake? then [] else s.pc[t].who.list;
            Alone(s, t, 5) == State(s.m.(q := HeadTaken(s.m.q, t)), s.pc[t := Peek(More(list + [s.m.q.head]))])
  {
    hide Step, Alone, HeadTaken;
    PeekFinds(s, t);
    AloneAdds(s, t, 2, 3);
    PopTakes(Alone(s, t, 2), t);
  }

  /** A writer at the head of the queue of a wake-up is taken alone. */
  lemma TakesWriter(s: State, t: Tid)
    requires AtPeek(s, t) && !s.m.q.Empty() && !s.m.q.ws[s.m.q.head].cancelled && s.m.kinds[s.m.q.head] == Writer
    requires s.pc[t].who.Wake?
    ensures Alone(s, t, 5) == State(s.m.(q := HeadTaken(s.m.q, t)), s.pc[t := SetFlag([s.m.q.head])])
  {
    hide Step, Alone, HeadTaken;
    PeekFinds(s, t);
    AloneAdds(s, t, 2, 3);
    assert [] + [s.m.q.head] == [s.m.q.head];
    PopTakes(Alone(s, t, 2), t);
  }

  lemma TakenNone(q: Queue)
    ensures Taken(q, q, [])
  {
    forall w: nat | w < |q.ws| ensures TakenAt(q, q, [], w) { }
  }

  /** The first node out of the queue: a cancelled one, or one that goes onto the list. */
  lemma TakenBehind(q: Queue, q1: Queue, q': Queue, list: seq<nat>, list': seq<nat>)
    requires FirstOut(q, q1) && q1.ws[q.head].token == q.ws[q.head].token && Taken(q1, q', list)
    requires list' == if q.ws[q.head].cancelled then list else [q.head] + list
    ensures Taken(q, q', list')
  {
    forall w: nat | w < |q.ws| ensures TakenAt(q, q', list', w) {
      assert TakenAt(q1, q', list, w);
      if w != q.head { assert w in list' <==> w in list; } else if !q.ws[w].cancelled { assert list'[0] == w; }
    }
  }

  lemma LiveBehind(q: Queue, q1: Queue, w: nat)
    requires FirstOut(q, q1)
    ensures LiveIn(q, w) <==> LiveIn(q1, w) || (w == q.head && !q.ws[w].cancelled)
  {
  }

  /** A cancelled first node makes no difference to the turn. */
  lemma TurnBehind(m: Memory, m1: Memory, w: nat)
    requires |m.kinds| == |m.q.ws| && m1.kinds == m.kinds && FirstOut(m.q, m1.q) && m.q.ws[m.q.head].cancelled
    ensures InBlock(m, w) <==> InBlock(m1, w)
    ensures FirstWriter(m, w) <==> FirstWriter(m1, w)
  {
    hide LiveIn, FirstOut;
    forall v: nat ensures LiveIn(m.q, v) <==> LiveIn(m1.q, v) { LiveBehind(m.q, m1.q, v); }
  }

  /** Behind a live reader the block goes on. */
  lemma BlockGoesOn(m: Memory, m1: Memory, w: nat)
    requires |m.kinds| == |m.q.ws| && m1.kinds == m.kinds && FirstOut(m.q, m1.q) && !m.q.ws[m.q.head].cancelled
    requires m.kinds[m.q.head] == Reader
    ensures InBlock(m, w) <==> w == m.q.head || InBlock(m1, w)
    ensures !FirstWriter(m, w)
  {
    hide FirstOut;
    forall v: nat ensures LiveIn(m.q, v) <==> LiveIn(m1.q, v) || v == m.q.head { LiveBehind(m.q, m1.q, v); }
    assert LiveIn(m.q, m.q.head);
    assert forall v: nat :: LiveIn(m.q, v) ==> v >= m.q.head;
  }

  /** A live writer at the head ends the block, and is alone when it comes first. */
  lemma BlockEnds(m: Memory, w: nat)
    requires |m.kinds| == |m.q.ws| && !m.q.Empty() && !m.q.ws[m.q.head].cancelled && m.kinds[m.q.head] == Writer
    ensures !InBlock(m, w)
    ensures FirstWriter(m, w) <==> w == m.q.head
  {
    assert LiveIn(m.q, m.q.head);
  }

  lemma NothingInEmpty(m: Memory, w: nat)
    requires |m.kinds| == |m.q.ws| && m.q.Empty()
    ensures !InBlock(m, w) && !FirstWriter(m, w)
  {
  }

  /** The loop of dequeueReaders collects the block at the head of the queue. */
  lemma {:induction false} Collects(s: State, t: Tid, list: seq<nat>) returns (n: nat, more: seq<nat>)
    requires AtPeek(s, t) && s.pc[t] == Peek(More(list))
    ensures var s' := Alone(s, t, n);
            s'.pc == s.pc[t := SetFlag(list + more)] && s'.m == s.m.(q := s'.m.q) && Taken(s.m.q, s'.m.q, more)
    ensures forall w: nat :: w in more <==> InBlock(s.m, w)
    decreases |s.m.q.ws| - s.m.q.head
  {
    hide Step, Alone, Taken, HeadTaken, HeadDropped, InBlock, FirstWriter;
    var m := s.m;
    var q := s.m.q;
    if q.Empty() {
      PeekEmpty(s, t);
      n, more := 1, [];
      TakenNone(q);
      assert list + more == list;
      forall w: nat ensures w !in more && !InBlock(m, w) { NothingInEmpty(m, w); }
    } else if q.ws[q.head].cancelled {
      PeekSkips(s, t);
      HeadOut(q, t);
      var s1 := Alone(s, t, 4);
      n, more := Collects(s1, t, list);
      AloneAdds(s, t, 4, n);
      n := 4 + n;
      TakenBehind(q, s1.m.q, Alone(s, t, n).m.q, more, more);
      forall w: nat ensures InBlock(m, w) <==> InBlock(s1.m, w) { TurnBehind(m, s1.m, w); }
    } else if m.kinds[q.head] == Reader {
      TakesReader(s, t);
      HeadOut(q, t);
      var s1 := Alone(s, t, 5);
      var k, rest := Collects(s1, t, list + [q.head]);
      AloneAdds(s, t, 5, k);
      n, more := 5 + k, [q.head] + rest;
      assert list + [q.head] + rest == list + more;
      assert s1.pc[t := SetFlag(list + more)] == s.pc[t := SetFlag(list + more)];
      TakenBehind(q, s1.m.q, Alone(s, t, n).m.q, rest, more);
      forall w: nat ensures w in more <==> InBlock(m, w) { BlockGoesOn(m, s1.m, w); }
    } else {
      PeekFinds(s, t);
      n, more := 2, [];
      TakenNone(q);
      assert list + more == list;
      forall w: nat ensures w !in more && !InBlock(m, w) { BlockEnds(m, w); }
    }
  }

  /** A wake-up collects those whose turn it is; it is over at once if there is nobody. */
  lemma {:induction false} Gathers(s: State, t: Tid) returns (n: nat, list: seq<nat>)
    requires AtPeek(s, t) && s.pc[t] == Peek(Wake)
    ensures var s' := Alone(s, t, n);
            && (s'.pc == s.pc[t := SetFlag(list)] || (list == [] && s'.pc == s.pc[t := Idle]))
            && s'.m == s.m.(q := s'.m.q) && Taken(s.m.q, s'.m.q, list)
    ensures forall w: nat :: w in list <==> Turn(s.m, w)
    decreases |s.m.q.ws| - s.m.q.head
  {
    hide Step, Alone, Taken, HeadTaken, HeadDropped, InBlock, FirstWriter;
    var m := s.m;
    var q := s.m.q;
    if q.Empty() {
      PeekEmpty(s, t);
      n, list := 1, [];
      TakenNone(q);
      forall w: nat ensures w !in list && !Turn(m, w) { NothingInEmpty(m, w); }
    } else if q.ws[q.head].cancelled {
      PeekSkips(s, t);
      HeadOut(q, t);
      var s1 := Alone(s, t, 4);
      n, list := Gathers(s1, t);
      AloneAdds(s, t, 4, n);
      n := 4 + n;
      TakenBehind(q, s1.m.q, Alone(s, t, n).m.q, list, list);
      forall w: nat ensures Turn(m, w) <==> Turn(s1.m, w) { TurnBehind(m, s1.m, w); }
    } else if m.kinds[q.head] == Reader {
      TakesReader(s, t);
      HeadOut(q, t);
      var s1 := Alone(s, t, 5);
      assert [] + [q.head] == [q.head];
      var k, rest := Collects(s1, t, [q.head]);
      AloneAdds(s, t, 5, k);
      n, list := 5 + k, [q.head] + rest;
      assert s1.pc[t := SetFlag(list)] == s.pc[t := SetFlag(list)];
      TakenBehind(q, s1.m.q, Alone(s, t, n).m.q, rest, list);
      forall w: nat ensures w in list <==> Turn(m, w) { BlockGoesOn(m, s1.m, w); }
    } else {
      TakesWriter(s, t);
      HeadOut(q, t);
      n, list := 5, [q.head];
      TakenNone(HeadTaken(q, t));
      assert [q.head] + [] == list;
      TakenBehind(q, HeadTaken(q, t), HeadTaken(q, t), [], list);
      forall w: nat ensures w in list <==> Turn(m, w) { BlockEnds(m, w); }
    }
  }

  /** Every waiter of the list has been flagged and sent a token, and nothing else changed. */
  ghost predicate Sent(m: Memory, m': Memory, list: seq<nat>) {
    && m' == m.(q := m.q.(ws := m'.q.ws), flagged := m'.flagged) && |m'.q.ws| == |m.q.ws|
    && (forall w: nat :: w in m'.flagged <==> w in m.flagged || w in list)
    && (forall w: nat :: w < |m.q.ws| ==>
          m'.q.ws[w] == if w in list then m.q.ws[w].(place := Signaled, token := true) else m.q.ws[w])
  }

  lemma SendsOne(s: State, t: Tid)
    requires !s.m.crashed && t in s.pc && s.pc[t].SetFlag? && |s.m.kinds| == |s.m.q.ws|
    requires s.pc[t].list != [] && s.pc[t].list[0] < |s.m.q.ws|
    ensures var w := s.pc[t].list[0];
            Alone(s, t, 2) == State(s.m.(q := s.m.q.Send(w), flagged := s.m.flagged + {w}), s.pc[t := SetFlag(s.pc[t].list[1..])])
  {
    hide Step, Alone;
    AloneFew(s, t);
    SignalStep(s, t);
    SignalStep(Step(s, t, Run), t);
  }

  lemma SentOn(m: Memory, m1: Memory, m': Memory, list: seq<nat>)
    requires list != [] && list[0] < |m.q.ws|
    requires m1 == m.(q := m.q.Send(list[0]), flagged := m.flagged + {list[0]}) && Sent(m1, m', list[1..])
    ensures Sent(m, m', list)
  {
    assert forall w: nat :: w in list <==> w == list[0] || w in list[1..];
  }

  lemma {:induction false} SendsAll(s: State, t: Tid) returns (n: nat)
    requires !s.m.crashed && t in s.pc && s.pc[t].SetFlag? && |s.m.kinds| == |s.m.q.ws|
    requires forall i :: 0 <= i < |s.pc[t].list| ==> s.pc[t].list[i] < |s.m.q.ws|
    ensures var s' := Alone(s, t, n); s'.pc == s.pc[t := Idle] && Sent(s.m, s'.m, s.pc[t].list)
    decreases |s.pc[t].list|
  {
    hide Step, Alone;
    var list := s.pc[t].list;
    if list == [] {
      AloneFew(s, t);
      SignalStep(s, t);
      n := 1;
    } else {
      hide Sent;
      SendsOne(s, t);
      var s1 := Alone(s, t, 2);
      n := SendsAll(s1, t);
      AloneAdds(s, t, 2, n);
      n := 2 + n;
      assert s1.pc[t := Idle] == s.pc[t := Idle];
      SentOn(s.m, s1.m, Alone(s, t, n).m, list);
    }
  }

  lemma SentIsWoken(m: Memory, m1: Memory, m': Memory, list: seq<nat>)
    requires |m.kinds| == |m.q.ws| && m1 == m.(q := m1.q) && Taken(m.q, m1.q, list) && Sent(m1, m', list)
    requires forall w: nat :: w in list <==> Turn(m, w)
    ensures TurnWoken(m, m')
  {
    hide FirstWriter, InBlock;
    forall w: nat | w < |m.q.ws| ensures TurnWokenAt(m, m', w) {
      assert TakenAt(m.q, m1.q, list, w);
      if Turn(m, w) { TurnIsLive(m, w); }
    }
  }

  lemma TurnIsLive(m: Memory, w: nat)
    requires |m.kinds| == |m.q.ws| && Turn(m, w)
    ensures LiveIn(m.q, w)
  {
  }

  /** An undisturbed wake-up flags and signals the first live waiter alone if it is a writer, and otherwise every live
      reader before the first live writer; nobody else. */
  lemma {:induction false} WakesTurn(s: State, t: Tid) returns (n: nat)
    requires !s.m.crashed && t in s.pc && s.pc[t] == Peek(Wake) && |s.m.kinds| == |s.m.q.ws|
    ensures var s' := Alone(s, t, n); s'.pc == s.pc[t := Idle] && TurnWoken(s.m, s'.m)
  {
    hide Step, Alone, Taken, TurnWoken, Turn, Sent;
    var k, list := Gathers(s, t);
    var s1 := Alone(s, t, k);
    forall i | 0 <= i < |list| ensures list[i] < |s.m.q.ws| { assert list[i] in list; TurnInRange(s.m, list[i]); }
    TakenLength(s.m.q, s1.m.q, list);
    if s1.pc == s.pc[t := Idle] && list == [] {
      n := k;
      SentNone(s1.m);
      SentIsWoken(s.m, s1.m, s1.m, list);
    } else {
      n := SendsAll(s1, t);
      AloneAdds(s, t, k, n);
      n := k + n;
      assert s1.pc[t := Idle] == s.pc[t := Idle];
      SentIsWoken(s.m, s1.m, Alone(s, t, n).m, list);
    }
  }

  lemma TurnInRange(m: Memory, w: nat)
    requires |m.kinds| == |m.q.ws| && Turn(m, w)
    ensures w < |m.q.ws|
  {
  }

  lemma TakenLength(q: Queue, q1: Queue, list: seq<nat>)
    requires Taken(q, q1, list)
    ensures |q1.ws| == |q.ws|
  {
  }

  lemma SentNone(m: Memory)
    ensures Sent(m, m, [])
  {
  }

  lemma ReleaseStep(s: State, t: Tid)
    requires !s.m.crashed && t in s.pc && PhaseOf(s.pc[t]) == Releasing && Typed(s.pc[t], s.m)
    ensures Step(s, t, Run) == State(DoRelease(s.m, s.pc[t]).0, s.pc[t := DoRelease(s.m, s.pc[t]).1])
  {
    hide DoRelease;
  }

  lemma CallStep(s: State, t: Tid, a: Action)
    requires !s.m.crashed && t in s.pc && PhaseOf(s.pc[t]) == Calling && Typed(s.pc[t], s.m)
    ensures Step(s, t, a) == State(DoCall(s.m, s.pc[t], a).0, s.pc[t := DoCall(s.m, s.pc[t], a).1])
  {
    hide DoCall;
  }

  lemma UnlockSteps(s: State, t: Tid)
    requires !s.m.crashed && t in s.pc && s.pc[t].WriteHold? && s.m.word == WRITER && |s.m.kinds| == |s.m.q.ws|
    ensures Alone(Step(s, t, CallUnlock), t, 2) == State(s.m.(word := 0), s.pc[t := Peek(Wake)])
  {
    hide Alone, Step;
    CallStep(s, t, CallUnlock);
    var s1 := Step(s, t, CallUnlock);
    AloneFew(s1, t);
    ReleaseStep(s1, t);
    ReleaseStep(Step(s1, t, Run), t);
  }

  lemma RUnlockSteps(s: State, t: Tid)
    requires !s.m.crashed && t in s.pc && s.pc[t].ReadHold? && 1 <= s.m.word <= MAX_READERS && |s.m.kinds| == |s.m.q.ws|
    ensures Alone(Step(s, t, CallRUnlock), t, 2) ==
            State(s.m.(word := s.m.word - 1), s.pc[t := if s.m.word == 1 then Peek(Wake) else Idle])
  {
    hide Alone, Step;
    CallStep(s, t, CallRUnlock);
    var s1 := Step(s, t, CallRUnlock);
    AloneFew(s1, t);
    ReleaseStep(s1, t);
    ReleaseStep(Step(s1, t, Run), t);
  }

  /** An undisturbed Unlock frees the lock and wakes those whose turn it is. */
  lemma {:induction false} UnlockAlone(s: State, t: Tid) returns (n: nat)
    requires Safe(s) && !s.m.crashed && t in s.pc && s.pc[t].WriteHold?
    ensures var s' := Alone(Step(s, t, CallUnlock), t, n);
            s'.pc == s.pc[t := Idle] && s'.m.word == 0 && TurnWoken(s.m.(word := 0), s'.m)
  {
    hide Alone, Known, Linked, Step, Queue.Valid, TurnWokenAt, Turn;
    TotalNonNegative(s.pc, ReadWeight);
    TotalNonNegative(s.pc, WriteWeight);
    var s1 := Step(s, t, CallUnlock);
    UnlockSteps(s, t);
    n := WakesTurn(Alone(s1, t, 2), t);
    AloneAdds(s1, t, 2, n);
    n := 2 + n;
  }

  /** An undisturbed RUnlock takes one reader off; the last one wakes as Unlock does, any other wakes nobody. */
  lemma {:induction false} RUnlockAlone(s: State, t: Tid) returns (n: nat)
    requires Safe(s) && !s.m.crashed && t in s.pc && s.pc[t].ReadHold?
    ensures var s' := Alone(Step(s, t, CallRUnlock), t, n);
            && s'.pc == s.pc[t := Idle] && s'.m.word == s.m.word - 1
            && (if s.m.word == 1 then TurnWoken(s.m.(word := 0), s'.m) else s'.m == s.m.(word := s.m.word - 1))
  {
    hide Alone, Known, Linked, Step, Queue.Valid, TurnWokenAt, Turn;
    TotalNonNegative(s.pc, ReadWeight);
    TotalNonNegative(s.pc, WriteWeight);
    var s1 := Step(s, t, CallRUnlock);
    RUnlockSteps(s, t);
    if s.m.word == 1 {
      n := WakesTurn(Alone(s1, t, 2), t);
      AloneAdds(s1, t, 2, n);
      n := 2 + n;
    } else {
      n := 2;
    }
  }

  // ---- What an undisturbed caller gets -----------------------------------

  /** No writer holds the lock, nobody is counted as waiting, and there is room for a reader. */
  predicate OpenToReaders(m: Memory) { !HasWriter(m.word) && m.q.size <= 0 && m.word < MAX_READERS }

  /** Nobody holds the lock and nobody is counted as waiting. */
  predicate OpenToWriters(m: Memory) { m.word == 0 && m.q.size <= 0 }

  lemma IdleStep(s: State, t: Tid)
    requires !s.m.crashed && t in s.pc && s.pc[t].Idle?
    ensures Step(s, t, Run) == s
  {
    assert s.pc == s.pc[t := Idle];
  }

  /** An undisturbed TryRLock succeeds exactly if the lock is open to readers, and changes nothing otherwise. */
  lemma TryRLockExactly(s: State, t: Tid)
    requires !s.m.crashed && t in s.pc && s.pc[t].Idle? && |s.m.kinds| == |s.m.q.ws|
    ensures Alone(Step(s, t, CallTryRLock), t, 3) ==
            if OpenToReaders(s.m) then State(s.m.(word := s.m.word + 1), s.pc[t := ReadHold]) else s
  {
    hide Alone, Step, HasWriter;
    CallStep(s, t, CallTryRLock);
    var s1 := Step(s, t, CallTryRLock);
    AloneFew(s1, t);
    IdleStep(s, t);
    assert s.pc == s.pc[t := Idle];
    CallStep(s1, t, Run);
    var s2 := Step(s1, t, Run);
    if HasWriter(s.m.word) {
      assert s2.pc == s.pc[t := Idle];
      assert s2 == s;
    } else {
      CallStep(s2, t, Run);
      var s3 := Step(s2, t, Run);
      if OpenToReaders(s.m) {
        CallStep(s3, t, Run);
        assert s3.pc[t := ReadHold] == s.pc[t := ReadHold];
      } else {
        assert s3.pc == s.pc[t := Idle];
        assert s3 == s;
      }
    }
  }

  /** An undisturbed TryLock succeeds exactly if the lock is open to writers, and changes nothing otherwise. */
  lemma TryLockExactly(s: State, t: Tid)
    requires !s.m.crashed && t in s.pc && s.pc[t].Idle? && |s.m.kinds| == |s.m.q.ws|
    ensures Alone(Step(s, t, CallTryLock), t, 2) ==
            if OpenToWriters(s.m) then State(s.m.(word := WRITER), s.pc[t := WriteHold]) else s
  {
    hide Alone, Step;
    CallStep(s, t, CallTryLock);
    var s1 := Step(s, t, CallTryLock);
    AloneFew(s1, t);
    IdleStep(s, t);
    assert s.pc == s.pc[t := Idle];
    CallStep(s1, t, Run);
    var s2 := Step(s1, t, Run);
    if s.m.q.size > 0 {
      assert s2.pc == s.pc[t := Idle];
      assert s2 == s;
    } else {
      CallStep(s2, t, Run);
    }
  }

  lemma FastStep(s: State, t: Tid)
    requires !s.m.crashed && t in s.pc && PhaseOf(s.pc[t]) == Starting && Typed(s.pc[t], s.m)
    ensures Step(s, t, Run) == State(DoFast(s.m, t, s.pc[t], Run).0, s.pc[t := DoFast(s.m, t, s.pc[t], Run).1])
  {
    hide DoFast;
  }

  /** An undisturbed RLock of a lock that is open to readers gets in. */
  lemma RLockAlone(s: State, t: Tid)
    requires !s.m.crashed && t in s.pc && s.pc[t].Idle? && |s.m.kinds| == |s.m.q.ws| && OpenToReaders(s.m)
    ensures Alone(Step(s, t, CallRLock), t, 3) == State(s.m.(word := s.m.word + 1), s.pc[t := ReadHold])
  {
    hide Alone, Step, HasWriter;
    CallStep(s, t, CallRLock);
    var s1 := Step(s, t, CallRLock);
    AloneFew(s1, t);
    FastStep(s1, t);
    FastStep(Step(s1, t, Run), t);
    FastStep(Step(Step(s1, t, Run), t, Run), t);
  }

  /** An undisturbed Lock of a lock that is open to writers gets in. */
  lemma LockAlone(s: State, t: Tid)
    requires !s.m.crashed && t in s.pc && s.pc[t].Idle? && |s.m.kinds| == |s.m.q.ws| && OpenToWriters(s.m)
    ensures Alone(Step(s, t, CallLock), t, 2) == State(s.m.(word := WRITER), s.pc[t := WriteHold])
  {
    hide Alone, Step;
    CallStep(s, t, CallLock);
    var s1 := Step(s, t, CallLock);
    AloneFew(s1, t);
    FastStep(s1, t);
    FastStep(Step(s1, t, Run), t);
  }

  lemma WaitingStep(s: State, t: Tid)
    requires Enabled(s, t) && PhaseOf(s.pc[t]) == Waiting
    ensures var (m, p) := DoWaiting(s.m, s.pc[t], Run); Step(s, t, Run) == State(m, s.pc[t := p])
  {
    hide DoWaiting;
  }

  lemma WokenTests(s: State, t: Tid)
    requires Enabled(s, t) && s.pc[t].Wait? && s.m.q.ws[s.pc[t].w].token && s.pc[t].w in s.m.flagged
    ensures var w := s.pc[t].w;
            Alone(s, t, 2) == State(s.m.(q := s.m.q.Receive(w)),
                                    s.pc[t := if s.m.kinds[w] == Reader then SigLoad(w) else SigCasW(w)])
  {
    hide Alone, Step;
    AloneFew(s, t);
    WaitingStep(s, t);
    WaitingStep(Step(s, t, Run), t);
  }

  lemma SignaledReads(s: State, t: Tid)
    requires Enabled(s, t) && s.pc[t].SigLoad? && !HasWriter(s.m.word) && s.m.word < MAX_READERS
    ensures Alone(s, t, 2) == State(s.m.(word := s.m.word + 1), s.pc[t := ReadHold])
  {
    hide Alone, Step, HasWriter;
    AloneFew(s, t);
    WaitingStep(s, t);
    WaitingStep(Step(s, t, Run), t);
  }

  /** A call that has been flagged and woken gets in if the lock is open to its kind, whoever is in the queue. */
  lemma WokenReads(s: State, t: Tid)
    requires Enabled(s, t) && s.pc[t].Wait? && s.m.q.ws[s.pc[t].w].token && s.pc[t].w in s.m.flagged
    requires s.m.kinds[s.pc[t].w] == Reader && !HasWriter(s.m.word) && s.m.word < MAX_READERS
    ensures Alone(s, t, 4) == State(s.m.(word := s.m.word + 1, q := s.m.q.Receive(s.pc[t].w)), s.pc[t := ReadHold])
  {
    hide Alone, Step, HasWriter;
    WokenTests(s, t);
    SignaledReads(Alone(s, t, 2), t);
    AloneAdds(s, t, 2, 2);
  }

  lemma WokenWrites(s: State, t: Tid)
    requires Enabled(s, t) && s.pc[t].Wait? && s.m.q.ws[s.pc[t].w].token && s.pc[t].w in s.m.flagged
    requires s.m.kinds[s.pc[t].w] == Writer && s.m.word == 0
    ensures Alone(s, t, 3) == State(s.m.(word := WRITER, q := s.m.q.Receive(s.pc[t].w)), s.pc[t := WriteHold])
  {
    hide Alone, Step;
    WokenTests(s, t);
    AloneAdds(s, t, 2, 1);
    AloneFew(Alone(s, t, 2), t);
    WaitingStep(Alone(s, t, 2), t);
  }

  /** A call whose context is done ends without the lock; its waiter, if it has one, is cancelled and nobody is woken. */
  lemma GiveUpEnds(s: State, t: Tid)
    requires Enabled(s, t) && (s.pc[t].Link? || s.pc[t].Wait?)
    ensures var p := s.pc[t];
            var s' := Step(s, t, GiveUp(if p.Link? then p.kind else s.m.kinds[p.w]));
            && s'.pc == s.pc[t := Idle]
            && s'.m == if p.Wait? then s.m.(q := s.m.q.Cancel(p.w)) else s.m
  {
    hide DoCall, DoRelease, DoPeek, DoPop, DoSignal;
  }

  // ---- A late give-up does strand a waiter -------------------------------

  const THREE: set<Tid> := {0, 1, 2}

  /** Three threads. The first two waiters, if there are any, are of kind k and a writer. */
  function At(k: Kind, word: int, q: Queue, flagged: set<nat>, p0: PC, p1: PC, p2: PC): State
    requires |q.ws| <= 2
  {
    State(Memory(word, q, [k, Writer][..|q.ws|], flagged, false), map[0 := p0, 1 := p1, 2 := p2])
  }

  predicate Patient(run: seq<Event>) { NoGiveUp(run, Reader) && NoGiveUp(run, Writer) }

  lemma {:induction false} ExecSnoc(run: seq<Event>, e: Event)
    ensures Exec(THREE, run + [e]) == Step(Exec(THREE, run), e.0, e.1)
  {
    assert (run + [e])[..|run|] == run;
  }

  lemma {:induction false} ExecStart(k: Kind)
    ensures Exec(THREE, []) == At(k, 0, EMPTY, {}, Idle, Idle, Idle)
  {
  }

  /** Thread 0 takes the lock. */
  lemma {:induction false} FirstHolds(k: Kind) returns (run: seq<Event>)
    ensures Patient(run) && Exec(THREE, run) ==
            At(k, WRITER, EMPTY, {}, WriteHold, Idle, Idle)
  {
    hide Exec, DoWaiting, DoRelease, DoPeek, DoPop, DoSignal;
    run := [];
    ExecStart(k);
    ExecSnoc(run, (0, CallLock)); run := run + [(0, CallLock)];
    ExecSnoc(run, (0, Run)); run := run + [(0, Run)];
    ExecSnoc(run, (0, Run)); run := run + [(0, Run)];
  }

  /** Thread 1, a reader or a writer, finds it taken, */
  lemma {:induction false} SecondMissed(k: Kind) returns (run: seq<Event>)
    ensures Patient(run) && Exec(THREE, run) == At(k, WRITER, EMPTY, {}, WriteHold, Link(k), Idle)
  {
    if k == Reader { run := ReaderMissed(); } else { run := WriterMissed(); }
  }

  lemma {:induction false} ReaderMissed() returns (run: seq<Event>)
    ensures Patient(run) && Exec(THREE, run) == At(Reader, WRITER, EMPTY, {}, WriteHold, Link(Reader), Idle)
  {
    hide Exec, DoWaiting, DoRelease, DoPeek, DoPop, DoSignal;
    run := FirstHolds(Reader);
    ExecSnoc(run, (1, CallRLock)); run := run + [(1, CallRLock)];
    ExecSnoc(run, (1, Run)); run := run + [(1, Run)];
  }

  lemma {:induction false} WriterMissed() returns (run: seq<Event>)
    ensures Patient(run) && Exec(THREE, run) == At(Writer, WRITER, EMPTY, {}, WriteHold, Link(Writer), Idle)
  {
    hide Exec, DoWaiting, DoRelease, DoPeek, DoPop, DoSignal;
    run := FirstHolds(Writer);
    ExecSnoc(run, (1, CallLock)); run := run + [(1, CallLock)];
    ExecSnoc(run, (1, Run)); run := run + [(1, Run)];
    ExecSnoc(run, (1, Run)); run := run + [(1, Run)];
  }

  /** enqueues, */
  lemma {:induction false} SecondLinked(k: Kind) returns (run: seq<Event>)
    ensures Patient(run) && Exec(THREE, run) ==
            At(k, WRITER, Queue([Waiter(1, false, false, Queued)], 0, 0), {}, WriteHold, Add(0), Idle)
  {
    hide Exec, DoCall, DoWaiting, DoRelease, DoPeek, DoPop, DoSignal;
    run := SecondMissed(k);
    ExecSnoc(run, (1, Run)); run := run + [(1, Run)];
  }

  /** finds itself at the head */
  lemma {:induction false} SecondLooks(k: Kind) returns (run: seq<Event>)
    ensures Patient(run) && Exec(THREE, run) ==
            At(k, WRITER, Queue([Waiter(1, false, false, Queued)], 0, 1), {},
               WriteHold, PeekCheck(Self(0), 0), Idle)
  {
    hide Exec, DoCall, DoRelease, DoPop, DoSignal;
    run := SecondLinked(k);
    ExecSnoc(run, (1, Run)); run := run + [(1, Run)];
    ExecSnoc(run, (1, Run)); run := run + [(1, Run)];
    ExecSnoc(run, (1, Run)); run := run + [(1, Run)];
  }

  /** of a lock that is held, and parks. */
  lemma {:induction false} SecondParked(k: Kind) returns (run: seq<Event>)
    ensures Patient(run) && Exec(THREE, run) ==
            At(k, WRITER, Queue([Waiter(1, false, false, Queued)], 0, 1), {}, WriteHold, Wait(0), Idle)
  {
    hide Exec, DoCall, DoFast, DoRelease, DoPop, DoSignal;
    run := SecondLooks(k);
    ExecSnoc(run, (1, Run)); run := run + [(1, Run)];
    ExecSnoc(run, (1, Run)); run := run + [(1, Run)];
  }

  /** Thread 2, a writer, enqueues, */
  lemma {:induction false} ThirdLinked(k: Kind) returns (run: seq<Event>)
    ensures Patient(run) && Exec(THREE, run) ==
            At(k, WRITER, Queue([Waiter(1, false, false, Queued), Waiter(2, false, false, Queued)], 0, 1), {},
               WriteHold, Wait(0), Add(1))
  {
    hide Exec, DoWaiting, DoRelease, DoPeek, DoPop, DoSignal;
    run := SecondParked(k);
    ExecSnoc(run, (2, CallLock)); run := run + [(2, CallLock)];
    ExecSnoc(run, (2, Run)); run := run + [(2, Run)];
    ExecSnoc(run, (2, Run)); run := run + [(2, Run)];
  }

  /** finds thread 1 before it */
  lemma {:induction false} ThirdLooks(k: Kind) returns (run: seq<Event>)
    ensures Patient(run) && Exec(THREE, run) ==
            At(k, WRITER, Queue([Waiter(1, false, false, Queued), Waiter(2, false, false, Queued)], 0, 2), {},
               WriteHold, Wait(0), PeekCheck(Self(1), 0))
  {
    hide Exec, DoCall, DoRelease, DoPop, DoSignal;
    run := ThirdLinked(k);
    ExecSnoc(run, (2, Run)); run := run + [(2, Run)];
    ExecSnoc(run, (2, Run)); run := run + [(2, Run)];
    ExecSnoc(run, (2, Run)); run := run + [(2, Run)];
  }

  /** and parks. */
  lemma {:induction false} ThirdParked(k: Kind) returns (run: seq<Event>)
    ensures Patient(run) && Exec(THREE, run) ==
            At(k, WRITER, Queue([Waiter(1, false, false, Queued), Waiter(2, false, false, Queued)], 0, 2), {},
               WriteHold, Wait(0), Wait(1))
  {
    hide Exec, DoCall, DoFast, DoWaiting, DoRelease, DoPop, DoSignal;
    run := ThirdLooks(k);
    ExecSnoc(run, (2, Run)); run := run + [(2, Run)];
  }

  /** Thread 0 unlocks, */
  lemma {:induction false} Freed(k: Kind) returns (run: seq<Event>)
    ensures Patient(run) && Exec(THREE, run) ==
            At(k, 0, Queue([Waiter(1, false, false, Queued), Waiter(2, false, false, Queued)], 0, 2), {},
               Peek(Wake), Wait(0), Wait(1))
  {
    hide Exec, DoFast, DoWaiting, DoPeek, DoPop, DoSignal;
    run := ThirdParked(k);
    ExecSnoc(run, (0, CallUnlock)); run := run + [(0, CallUnlock)];
    ExecSnoc(run, (0, Run)); run := run + [(0, Run)];
    ExecSnoc(run, (0, Run)); run := run + [(0, Run)];
  }

  /** How the thread that wakes goes about a first waiter of kind k. */
  function BatchFor(k: Kind): Batch { if k == Reader then First else Single }

  function AfterFirst(k: Kind): PC { if k == Reader then Peek(More([0])) else SetFlag([0]) }

  /** looks at the head, */
  lemma {:induction false} HeadSeen(k: Kind) returns (run: seq<Event>)
    ensures Patient(run) && Exec(THREE, run) ==
            At(k, 0, Queue([Waiter(1, false, false, Queued), Waiter(2, false, false, Queued)], 0, 2), {},
               Pop([], BatchFor(k)), Wait(0), Wait(1))
  {
    hide Exec, DoCall, DoFast, DoWaiting, DoRelease, DoPop, DoSignal;
    run := Freed(k);
    ExecSnoc(run, (0, Run)); run := run + [(0, Run)];
    ExecSnoc(run, (0, Run)); run := run + [(0, Run)];
  }

  /** pops thread 1, */
  lemma {:induction false} FirstPopped(k: Kind) returns (run: seq<Event>)
    ensures Patient(run) && Exec(THREE, run) ==
            At(k, 0, Queue([Waiter(1, false, false, Hand(0)), Waiter(2, false, false, Queued)], 1, 1), {},
               PopCheck([], BatchFor(k), 0), Wait(0), Wait(1))
  {
    hide Exec, DoCall, DoFast, DoWaiting, DoRelease, DoPeek, DoSignal;
    run := HeadSeen(k);
    ExecSnoc(run, (0, Run)); run := run + [(0, Run)];
    ExecSnoc(run, (0, Run)); run := run + [(0, Run)];
  }

  /** finds it not cancelled, */
  lemma {:induction false} FirstKept(k: Kind) returns (run: seq<Event>)
    ensures Patient(run) && Exec(THREE, run) ==
            At(k, 0, Queue([Waiter(1, false, false, Hand(0)), Waiter(2, false, false, Queued)], 1, 1), {},
               AfterFirst(k), Wait(0), Wait(1))
  {
    hide Exec, DoCall, DoFast, DoWaiting, DoRelease, DoPeek, DoSignal;
    run := FirstPopped(k);
    var none: seq<nat> := [];
    assert none + [0] == [0];
    ExecSnoc(run, (0, Run)); run := run + [(0, Run)];
  }

  /** goes no further than the writer behind it, */
  lemma {:induction false} FirstChosen(k: Kind) returns (run: seq<Event>)
    ensures Patient(run) && Exec(THREE, run) ==
            At(k, 0, Queue([Waiter(1, false, false, Hand(0)), Waiter(2, false, false, Queued)], 1, 1), {},
               SetFlag([0]), Wait(0), Wait(1))
  {
    hide Exec, DoCall, DoFast, DoWaiting, DoRelease, DoPop, DoSignal;
    run := FirstKept(k);
    if k == Reader {
      ExecSnoc(run, (0, Run)); run := run + [(0, Run)];
      ExecSnoc(run, (0, Run)); run := run + [(0, Run)];
    }
  }

  /** flags thread 1 */
  lemma {:induction false} FirstFlagged(k: Kind) returns (run: seq<Event>)
    ensures Patient(run) && Exec(THREE, run) ==
            At(k, 0, Queue([Waiter(1, false, false, Hand(0)), Waiter(2, false, false, Queued)], 1, 1), {0},
               SendToken([0]), Wait(0), Wait(1))
  {
    hide Exec, DoCall, DoFast, DoWaiting, DoRelease, DoPeek, DoPop;
    run := FirstChosen(k);
    assert {} + {0} == {0};
    ExecSnoc(run, (0, Run)); run := run + [(0, Run)];
  }

  /** and sends the token. */
  lemma {:induction false} FirstSignaled(k: Kind) returns (run: seq<Event>)
    ensures Patient(run) && Exec(THREE, run) ==
            At(k, 0, Queue([Waiter(1, false, true, Signaled), Waiter(2, false, false, Queued)], 1, 1), {0},
               Idle, Wait(0), Wait(1))
  {
    hide Exec, DoCall, DoFast, DoWaiting, DoRelease, DoPeek, DoPop;
    run := FirstFlagged(k);
    ExecSnoc(run, (0, Run)); run := run + [(0, Run)];
    ExecSnoc(run, (0, Run)); run := run + [(0, Run)];
  }

  /** The context of thread 1, in RLockContext or LockContext, is then done, and thread 2 waits for ever on a free lock. */
  lemma {:induction false} LateGiveUpStrands(k: Kind) returns (run: seq<Event>)
    ensures (forall kind :: kind != k ==> NoGiveUp(run, kind)) && Stranded(Exec(THREE, run))
  {
    hide Exec, DoCall, DoFast, DoRelease, DoPeek, DoPop, DoSignal;
    run := FirstSignaled(k);
    ExecSnoc(run, (1, GiveUp(k))); run := run + [(1, GiveUp(k))];
    assert Exec(THREE, run).pc[2] == Wait(1);
  }

  /** Somebody is parked on a lock that is free, and no thread can move. */
  ghost predicate Stranded(s: State) {
    Quiescent(s) && Readers(s) == {} && Writers(s) == {} && exists t :: t in s.pc && s.pc[t] != Idle
  }

  /** The lock strands nobody, in any run of the forms that callers use, exactly if neither RLock nor Lock is used with
      a context. */
  lemma {:induction false} StrandsNobodyExactly(readers: bool, writers: bool)
    ensures (forall threads, run {:induction false} ::
               (readers || NoGiveUp(run, Reader)) && (writers || NoGiveUp(run, Writer)) ==>
                 !Stranded(Exec(threads, run)))
            <==> !readers && !writers
  {
    hide Exec, Stranded;
    if readers {
      var run := LateGiveUpStrands(Reader);
    } else if writers {
      var run := LateGiveUpStrands(Writer);
    } else {
      forall threads, run | Patient(run) ensures !Stranded(Exec(threads, run)) {
        NotStranded(threads, run);
      }
    }
  }

  lemma {:induction false} NotStranded(threads: set<Tid>, run: seq<Event>)
    requires Patient(run)
    ensures !Stranded(Exec(threads, run))
  {
    hide Exec, Quiescent;
    PlainCallsStrandNobody(threads, run);
  }
}
