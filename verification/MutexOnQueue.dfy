/**
 Mutex (condvar.go, lines 45-152) on the pointer-level queue (waiter.go, lines
 90-149): Lock and Unlock run Enqueue and Dequeue one atomic operation at a time.
 Every run is a run of the machine of MutexLock, whose queue operations are
 single steps, with other steps in between that it does not see; so what is
 proved there holds here.
 */
module MutexOnQueue {
  import opened Threads
  import opened WaitQueue
  import M = MutexLock
  import Q = MSQueue

  type Addr = Q.Addr

  datatype PC =
    | Idle
    | Holding
    | LockCas
    | LockEnqueue
    | Enqueueing(x: Addr)    // Enqueue is running
    | Recheck(x: Addr)
    | Cancel(x: Addr)
    | Wait(x: Addr)
    | UnlockLoad
    | UnlockStore
    | Dequeue
    | Dequeueing             // Dequeue is running
    | Signal(x: Addr)

  /** `tokens` are the waiters with a token in their channel. `sent` and `dropped` are history: the waiters that were
      signaled, and those that Dequeue passed over because they were cancelled. */
  datatype State = State(word: int, crashed: bool, q: Q.State, tokens: set<Addr>, sent: set<Addr>, dropped: set<Addr>,
                         pc: map<Tid, PC>)

  function Init(threads: set<Tid>): State {
    State(0, false, Q.Init(threads), {}, {}, {}, map t | t in threads :: Idle)
  }

  function At(s: State, t: Tid, p: PC): State { s.(pc := s.pc[t := p]) }

  /** One atomic operation of thread t on the queue. */
  function OnQueue(s: State, t: Tid, a: Q.Action): State { s.(q := Q.Step(s.q, t, a)) }

  predicate Present(s: State, t: Tid) { !s.crashed && t in s.pc && t in s.q.pc }

  function DoLock(s: State, t: Tid, a: M.Action): State
    requires Present(s, t)
  {
    match s.pc[t]
    case Idle =>
      if a == M.CallLock then At(s, t, LockCas)
      else if a == M.CallTryLock && s.word == 0 then At(s.(word := 1), t, Holding)
      else s
    case LockCas => if s.word == 0 then At(s.(word := 1), t, Holding) else At(s, t, LockEnqueue)
    case LockEnqueue =>
      if a == M.GiveUp then At(s, t, Idle)
      else At(OnQueue(s, t, Q.CallEnqueue(0)), t, Enqueueing(|s.q.m.heap|))
    case Enqueueing(x) =>
      var s' := OnQueue(s, t, Q.Run);
      if t in s'.q.pc && s'.q.pc[t] == Q.Idle then At(s', t, Recheck(x)) else s'
    case Recheck(x) => if s.word == 0 then At(s.(word := 1), t, Cancel(x)) else At(s, t, Wait(x))
    case Cancel(x) => At(OnQueue(s, t, Q.SetFlag(x, true)), t, Holding)
    case Wait(x) =>
      if a == M.GiveUp then At(OnQueue(s, t, Q.SetFlag(x, true)), t, Idle)
      else if x in s.tokens then At(s.(tokens := s.tokens - {x}), t, LockCas)
      else s
    case _ => s
  }

  /** The waiter that a step of Dequeue passes over. */
  function PassedOver(p: Q.PC, p': Q.PC): set<Addr> { if p.CheckFlag? && p'.LoadHead? then {p.item} else {} }

  /** Where a step of Dequeue leads: it returns a node or nil, or goes on. */
  function AfterDequeue(p: Q.PC): PC { if p.Taken? then Signal(p.item) else if p == Q.Idle then Idle else Dequeueing }

  function DoUnlock(s: State, t: Tid, a: M.Action): State
    requires Present(s, t)
  {
    match s.pc[t]
    case Holding => if a == M.CallUnlock then At(s, t, UnlockLoad) else s
    case UnlockLoad => if s.word != 1 then s.(crashed := true) else At(s, t, UnlockStore)
    case UnlockStore => At(s.(word := 0), t, Dequeue)
    case Dequeue => At(OnQueue(s, t, Q.Call(Q.Dequeue)), t, Dequeueing)
    case Dequeueing =>
      var s' := OnQueue(s, t, Q.Run);
      if t !in s'.q.pc then s'
      else
        var p' := s'.q.pc[t];
        At(s'.(dropped := s.dropped + PassedOver(s.q.pc[t], p')), t, AfterDequeue(p'))
    case Signal(x) => At(OnQueue(s, t, Q.Run).(tokens := s.tokens + {x}, sent := s.sent + {x}), t, Idle)
    case _ => s
  }

  predicate Locking(p: PC) {
    p.Idle? || p.LockCas? || p.LockEnqueue? || p.Enqueueing? || p.Recheck? || p.Cancel? || p.Wait?
  }

  function Step(s: State, t: Tid, a: M.Action): State {
    if !Present(s, t) then s
    else if Locking(s.pc[t]) then DoLock(s, t, a)
    else DoUnlock(s, t, a)
  }

  ghost function Exec(threads: set<Tid>, run: seq<M.Event>): State {
    if run == [] then Init(threads)
    else Step(Exec(threads, run[..|run| - 1]), run[|run| - 1].0, run[|run| - 1].1)
  }

  // ---- What MutexLock sees -----------------------------------------------

  /** The number of a linked node among the waiters. */
  function Index(m: Q.Memory, x: Addr): nat { if Q.At(m, x) >= 1 then Q.At(m, x) - 1 else 0 }

  function PlaceOf(s: State, x: Addr): Place
    requires x < |s.q.m.heap|
  {
    if Q.At(s.q.m, x) > Q.At(s.q.m, s.q.m.head) then Queued
    else if x in s.sent then Signaled
    else if x in s.dropped then Discarded
    else if s.q.m.heap[x].out.By? then Hand(s.q.m.heap[x].out.t)
    else Queued
  }

  function WaiterOf(s: State, x: Addr): Waiter {
    if x < |s.q.m.heap| then
      Waiter(s.q.m.heap[x].owner, s.q.m.heap[x].cancelled, x in s.tokens, PlaceOf(s, x))
    else Waiter(0, false, false, Queued)
  }

  function QueueOf(s: State): Queue {
    var m := s.q.m;
    var n := if |m.chain| > 0 then |m.chain| - 1 else 0;
    Queue(seq(n, i => WaiterOf(s, if 0 <= i < |m.chain| - 1 then m.chain[i + 1] else 0)),
          if Q.At(m, m.head) >= 0 then Q.At(m, m.head) else 0, 0)
  }

  function PcOf(m: Q.Memory, p: PC, qp: Q.PC): M.PC {
    match p
    case Idle => M.Idle
    case Holding => M.Holding
    case LockCas => M.LockCas
    case LockEnqueue => M.LockEnqueue
    case Enqueueing(x) => if Q.At(m, x) < 0 then M.LockEnqueue else M.LockRecheck(Index(m, x))
    case Recheck(x) => M.LockRecheck(Index(m, x))
    case Cancel(x) => M.LockCancel(Index(m, x))
    case Wait(x) => M.LockWait(Index(m, x))
    case UnlockLoad => M.UnlockLoad
    case UnlockStore => M.UnlockStore
    case Dequeue => M.Dequeue
    case Dequeueing =>
      if qp.CountDown? || qp.CheckFlag? then M.DequeueCheck(Index(m, qp.item))
      else if qp.Nothing? then M.Idle
      else if qp.VerifyHead? && qp.next == Q.Nil then M.SawEmpty
      else M.Dequeue
    case Signal(x) => M.Signal(Index(m, x))
  }

  function AbsOf(s: State): M.State {
    M.State(M.Memory(s.word, QueueOf(s), s.crashed),
            map t | t in s.pc :: PcOf(s.q.m, s.pc[t], if t in s.q.pc then s.q.pc[t] else Q.Idle))
  }

  // ---- Invariant ---------------------------------------------------------

  /** The steps of Dequeue. */
  predicate InDequeue(p: Q.PC) {
    || ((p.LoadHead? || p.ReadTail? || p.ReadNext? || p.VerifyHead? || p.Help? || p.SwingHead? || p.CountDown?)
        && p.op == Q.Dequeue)
    || p.CheckFlag? || p.Nothing?
  }

  predicate Mine(m: Q.Memory, t: Tid, x: Addr) { Q.At(m, x) >= 1 && m.heap[x].owner == t }

  predicate Linked(qp: Q.PC) { qp.SwingTail? || qp.CountUp? }

  /** Where a thread is in the mutex tells where it is in the queue. */
  ghost predicate Coupled(s: State, t: Tid, p: PC, qp: Q.PC) {
    var m := s.q.m;
    match p
    case Enqueueing(x) => Q.Enqueues(qp) && qp.node == x && (Linked(qp) ==> Mine(m, t, x))
    case Recheck(x) => qp == Q.Idle && Mine(m, t, x)
    case Cancel(x) => qp == Q.Idle && Mine(m, t, x)
    case Wait(x) => qp == Q.Idle && Mine(m, t, x)
    case Dequeueing => InDequeue(qp) && (qp.CountDown? || qp.CheckFlag? ==> qp.item !in s.dropped)
    case Signal(x) => qp == Q.Taken(x) && x !in s.sent && x !in s.dropped
    case _ => qp == Q.Idle
  }

  /** Only linked waiters are cancelled; what was signaled had been returned by Dequeue; what was passed over had not. */
  ghost predicate NodeOk(s: State, x: Addr) {
    var m := s.q.m;
    && (x in s.tokens ==> x in s.sent)
    && (x in s.sent ==> Q.Given(m, x))
    && (x in s.dropped ==> x < |m.heap| && m.heap[x].out != Q.Nobody && !m.heap[x].given)
    && (x < |m.heap| && m.heap[x].cancelled ==> m.heap[x].at >= 1)
  }

  ghost predicate Inv(s: State) {
    && Q.Safe(s.q) && s.q.pc.Keys == s.pc.Keys
    && (forall t {:trigger Coupled(s, t, s.pc[t], s.q.pc[t])} :: t in s.pc ==> Coupled(s, t, s.pc[t], s.q.pc[t]))
    && (forall x {:trigger NodeOk(s, x)} :: NodeOk(s, x))
  }

  /** What others rely on: nodes keep their places, owners and removers, and the histories grow by the stepping
      thread's own. */
  ghost predicate Grows(s: State, s': State, t: Tid) {
    && Q.Evolves(s.q.m, s'.q.m, t)
    && (forall x :: x in s'.sent && x !in s.sent ==> Q.Holds(s.q.m, t, x))
    && (forall x :: x in s'.dropped && x !in s.dropped ==> Q.Holds(s.q.m, t, x))
  }

  lemma OthersCoupled(s: State, s': State, t: Tid, u: Tid, p: PC, qp: Q.PC)
    requires u != t && Coupled(s, u, p, qp) && Grows(s, s', t) && Q.CallOk(s.q.m, u, qp)
    ensures Coupled(s', u, p, qp)
    ensures PcOf(s'.q.m, p, qp) == PcOf(s.q.m, p, qp)
  {
    hide Q.Upto, Q.NextIs;
  }

  // ---- The queue that MutexLock sees -------------------------------------

  /** The node behind waiter i. */
  function Nth(m: Q.Memory, i: nat): Addr
    requires i + 1 < |m.chain|
  {
    m.chain[i + 1]
  }

  lemma QueueShape(s: State)
    requires Q.MemOk(s.q.m)
    ensures var q, m := QueueOf(s), s.q.m;
            && |q.ws| == |m.chain| - 1 && q.head == Q.At(m, m.head) <= |q.ws| && q.size == 0
            && (forall i {:trigger q.ws[i]} {:trigger Nth(m, i)} :: 0 <= i < |q.ws| ==>
                  q.ws[i] == WaiterOf(s, Nth(m, i)) && Q.At(m, Nth(m, i)) == i + 1)
  {
    var m := s.q.m;
    forall i | 0 <= i < |m.chain| - 1 ensures Q.At(m, Nth(m, i)) == i + 1 { assert Q.OnChain(m, i + 1); }
  }

  /** A linked node is the waiter with its index. */
  lemma IndexOf(s: State, x: Addr)
    requires Q.MemOk(s.q.m) && Q.At(s.q.m, x) >= 1
    ensures var q, i := QueueOf(s), Index(s.q.m, x); i < |q.ws| && q.ws[i] == WaiterOf(s, x) && Nth(s.q.m, i) == x
  {
    QueueShape(s);
    assert Q.NodeOk(s.q.m, x);
  }

  /** The two states have the same list with the same owners and flags. */
  ghost predicate SameList(s: State, s': State) {
    && s'.q.m.chain == s.q.m.chain && Q.At(s'.q.m, s'.q.m.head) == Q.At(s.q.m, s.q.m.head)
    && |s.q.m.heap| <= |s'.q.m.heap|
  }

  /** If all waiters but those with index w look the same, the queue differs at w only. */
  lemma QueueDiffers(s: State, s': State, w: nat)
    requires Q.MemOk(s.q.m) && Q.MemOk(s'.q.m) && SameList(s, s')
    requires forall i {:trigger Nth(s.q.m, i)} :: 0 <= i < |s.q.m.chain| - 1 && i != w ==>
               WaiterOf(s', Nth(s.q.m, i)) == WaiterOf(s, Nth(s.q.m, i))
    ensures w >= |QueueOf(s).ws| ==> QueueOf(s') == QueueOf(s)
    ensures w < |QueueOf(s).ws| ==>
              && w < |QueueOf(s').ws|
              && QueueOf(s') == QueueOf(s).(ws := QueueOf(s).ws[w := QueueOf(s').ws[w]])
  {
    hide WaiterOf;
    QueueShape(s);
    QueueShape(s');
    forall i | 0 <= i < |QueueOf(s).ws| && i != w ensures QueueOf(s').ws[i] == QueueOf(s).ws[i] {
      assert Nth(s'.q.m, i) == Nth(s.q.m, i);
    }
  }

  /** Nothing that MutexLock sees of the queue has changed. */
  lemma QueueSame(s: State, s': State)
    requires Q.MemOk(s.q.m) && Q.MemOk(s'.q.m)
    requires s'.q.m.heap == s.q.m.heap && s'.q.m.head == s.q.m.head && s'.q.m.chain == s.q.m.chain
    requires s'.tokens == s.tokens && s'.sent == s.sent && s'.dropped == s.dropped
    ensures QueueOf(s') == QueueOf(s)
  {
    QueueDiffers(s, s', |QueueOf(s).ws|);
  }

  lemma QueueAlloc(s: State, s': State, t: Tid)
    requires Q.MemOk(s.q.m) && Q.MemOk(s'.q.m) && s'.q.m == s.q.m.Alloc(0, t)
    requires s'.tokens == s.tokens && s'.sent == s.sent && s'.dropped == s.dropped
    ensures QueueOf(s') == QueueOf(s)
  {
    QueueShape(s);
    QueueDiffers(s, s', |QueueOf(s).ws|);
  }

  lemma QueueLink(s: State, s': State, t: Tid, last: Addr, node: Addr)
    requires Q.MayLink(s.q.m, last, node, t) && Q.MemOk(s'.q.m) && s'.q.m == s.q.m.Link(last, node)
    requires s'.tokens == s.tokens && s'.sent == s.sent && s'.dropped == s.dropped && NodeOk(s, node)
    ensures QueueOf(s') == QueueOf(s).Link(t) && Index(s'.q.m, node) == |QueueOf(s).ws|
    ensures Q.At(s'.q.m, node) == |s.q.m.chain| >= 1
  {
    var m := s.q.m;
    QueueShape(s);
    QueueShape(s');
    assert Q.NodeOk(m, node) && Q.NodeOk(m, last);
    forall i | 0 <= i < |m.chain| - 1 ensures QueueOf(s').ws[i] == QueueOf(s).ws[i] {
      assert Nth(s'.q.m, i) == Nth(m, i);
    }
  }

  lemma QueuePop(s: State, s': State, t: Tid, first: Addr)
    requires Q.MemOk(s.q.m) && Q.NextIs(s.q.m, s.q.m.head, Q.To(first)) && Q.Upto(s.q.m, first, s.q.m.tail)
    requires Q.MemOk(s'.q.m) && s'.q.m == s.q.m.Unlink(first, t)
    requires s'.tokens == s.tokens && s'.sent == s.sent && s'.dropped == s.dropped && NodeOk(s, first)
    ensures !QueueOf(s).Empty() && QueueOf(s') == QueueOf(s).Pop(t) && Index(s'.q.m, first) == QueueOf(s).head
  {
    var m := s.q.m;
    QueueShape(s);
    QueueShape(s');
    Q.NextOf(m, m.head);
    assert Q.NodeOk(m, first);
    forall i | 0 <= i < |m.chain| - 1 && i != QueueOf(s).head ensures QueueOf(s').ws[i] == QueueOf(s).ws[i] {
      assert Nth(s'.q.m, i) == Nth(m, i);
    }
  }

  /** Dequeue returns a node: MutexLock sees nothing of it in the queue. */
  lemma QueueGive(s: State, s': State, x: Addr)
    requires Q.MemOk(s.q.m) && Q.MemOk(s'.q.m) && x < |s.q.m.heap| && s'.q.m == s.q.m.Give(x)
    requires s'.tokens == s.tokens && s'.sent == s.sent && s'.dropped == s.dropped
    ensures QueueOf(s') == QueueOf(s)
  {
    QueueDiffers(s, s', |QueueOf(s).ws|);
  }

  lemma QueueDrop(s: State, s': State, t: Tid, x: Addr)
    requires Q.MemOk(s.q.m) && s'.q.m == s.q.m && Q.Holds(s.q.m, t, x) && x !in s.sent
    requires s'.tokens == s.tokens && s'.sent == s.sent && s'.dropped == s.dropped + {x}
    ensures var w := Index(s.q.m, x); w < |QueueOf(s).ws| && QueueOf(s') == QueueOf(s).Discard(w)
  {
    var w := Index(s.q.m, x);
    IndexOf(s, x);
    IndexOf(s', x);
    OtherNodes(s, x);
    QueueDiffers(s, s', w);
  }

  lemma QueueSend(s: State, s': State, t: Tid, x: Addr)
    requires Q.MemOk(s.q.m) && s'.q.m == s.q.m && Q.Holds(s.q.m, t, x)
    requires s'.tokens == s.tokens + {x} && s'.sent == s.sent + {x} && s'.dropped == s.dropped
    ensures var w := Index(s.q.m, x); w < |QueueOf(s).ws| && QueueOf(s') == QueueOf(s).Send(w)
  {
    IndexOf(s, x);
    IndexOf(s', x);
    OtherNodes(s, x);
    QueueDiffers(s, s', Index(s.q.m, x));
  }

  lemma QueueReceive(s: State, s': State, x: Addr)
    requires Q.MemOk(s.q.m) && s'.q.m == s.q.m && Q.At(s.q.m, x) >= 1
    requires s'.tokens == s.tokens - {x} && s'.sent == s.sent && s'.dropped == s.dropped
    ensures var w := Index(s.q.m, x); w < |QueueOf(s).ws| && QueueOf(s') == QueueOf(s).Receive(w)
  {
    IndexOf(s, x);
    IndexOf(s', x);
    OtherNodes(s, x);
    QueueDiffers(s, s', Index(s.q.m, x));
  }

  lemma QueueFlag(s: State, s': State, x: Addr)
    requires Q.MemOk(s.q.m) && Q.MemOk(s'.q.m) && s'.q.m == s.q.m.Flag(x, true) && Q.At(s.q.m, x) >= 1
    requires s'.tokens == s.tokens && s'.sent == s.sent && s'.dropped == s.dropped
    ensures var w := Index(s.q.m, x); w < |QueueOf(s).ws| && QueueOf(s') == QueueOf(s).Cancel(w)
  {
    IndexOf(s, x);
    IndexOf(s', x);
    OtherNodes(s, x);
    QueueDiffers(s, s', Index(s.q.m, x));
  }

  /** The node behind every other waiter is another one. */
  lemma OtherNodes(s: State, x: Addr)
    requires Q.MemOk(s.q.m) && Q.At(s.q.m, x) >= 1
    ensures forall i {:trigger Nth(s.q.m, i)} :: 0 <= i < |s.q.m.chain| - 1 && i != Index(s.q.m, x) ==> Nth(s.q.m, i) != x
  {
    QueueShape(s);
  }

  // ---- What the steps of the queue do ------------------------------------

  /** Steps that touch neither the list nor a flag. */
  predicate Quiet(p: Q.PC) { !p.Idle? && !p.LinkNode? && !p.SwingHead? && !p.CheckFlag? }

  lemma QuietStep(m: Q.Memory, t: Tid, p: Q.PC, a: Q.Action, now: nat)
    requires Q.Typed(p, |m.heap|) && Quiet(p)
    ensures var m' := Q.Do(m, t, p, a, now).0; m'.heap == m.heap && m'.head == m.head && m'.chain == m.chain
  {
  }

  /** Only a Dequeue that returns a node marks it, and only SetFlag cancels. */
  lemma FlagsOf(m: Q.Memory, t: Tid, p: Q.PC, a: Q.Action, now: nat, x: Addr)
    requires Q.Typed(p, |m.heap|)
    ensures var (m', p') := Q.Do(m, t, p, a, now);
            && (Q.Given(m, x) ==> Q.Given(m', x))
            && (Q.Given(m', x) ==> Q.Given(m, x) || (p.CheckFlag? && p.item == x && p' == Q.Taken(x)))
            && (x < |m'.heap| && m'.heap[x].cancelled ==>
                  x < |m.heap| && (m.heap[x].cancelled || (p.Idle? && a == Q.SetFlag(x, true))))
  {
    if Quiet(p) { QuietStep(m, t, p, a, now); }
  }

  lemma EnqueueNext(m: Q.Memory, t: Tid, p: Q.PC, a: Q.Action, now: nat)
    requires Q.Typed(p, |m.heap|) && Q.Enqueues(p)
    ensures var p' := Q.Do(m, t, p, a, now).1;
            && (p' == Q.Idle <==> p.CountUp?)
            && (p' != Q.Idle ==> Q.Enqueues(p') && p'.node == p.node)
            && (Linked(p') ==> Linked(p) || (p.LinkNode? && m.heap[p.tail].next == Q.Nil))
  {
  }

  lemma DequeueNext(m: Q.Memory, t: Tid, p: Q.PC, a: Q.Action, now: nat)
    requires Q.Typed(p, |m.heap|) && InDequeue(p)
    ensures var p' := Q.Do(m, t, p, a, now).1;
            && (p' == Q.Idle <==> p.Nothing?)
            && (p'.Taken? ==> p.CheckFlag? && p' == Q.Taken(p.item) && !m.heap[p.item].cancelled)
            && (!p'.Taken? && p' != Q.Idle ==> InDequeue(p'))
            && (p'.CountDown? ==> p.SwingHead? && p'.item == p.first && p.head == m.head)
            && (p'.CheckFlag? ==> p.CountDown? && p'.item == p.item)
  {
  }

  // ---- One step of both machines -----------------------------------------

  function MemoryOf(s: State): M.Memory { M.Memory(s.word, QueueOf(s), s.crashed) }

  function SeenPc(s: State, t: Tid): M.PC
    requires t in s.pc && t in s.q.pc
  {
    PcOf(s.q.m, s.pc[t], s.q.pc[t])
  }

  /** The step of t is the step b of MutexLock. */
  ghost predicate Matches(s: State, t: Tid, s': State, b: M.Action) {
    && t in s.pc && t in s.q.pc && t in s'.pc && t in s'.q.pc && M.Typed(SeenPc(s, t), |QueueOf(s).ws|)
    && (MemoryOf(s'), SeenPc(s', t)) == M.Do(MemoryOf(s), t, SeenPc(s, t), b)
  }

  /** MutexLock does not see the step. */
  ghost predicate Silent(s: State, t: Tid, s': State) {
    && t in s.pc && t in s.q.pc && t in s'.pc && t in s'.q.pc
    && MemoryOf(s') == MemoryOf(s) && SeenPc(s', t) == SeenPc(s, t)
  }

  /** The step of t moves t alone and keeps the invariant for t and for the nodes. */
  ghost predicate Kept(s: State, t: Tid, s': State) {
    && s'.pc.Keys == s.pc.Keys == s'.q.pc.Keys && t in s'.pc && t in s'.q.pc
    && (forall u :: u in s.pc && u != t ==> s'.pc[u] == s.pc[u])
    && (forall u :: u in s.q.pc && u != t ==> u in s'.q.pc && s'.q.pc[u] == s.q.pc[u])
    && Q.Safe(s'.q) && Grows(s, s', t)
    && Coupled(s', t, s'.pc[t], s'.q.pc[t])
    && (forall x {:trigger NodeOk(s', x)} :: NodeOk(s', x))
  }

  /** The step is kept, and silent or the step of MutexLock with the same action, or with one that is no give-up. */
  ghost predicate Simulated(s: State, t: Tid, a: M.Action, s': State) {
    && Kept(s, t, s')
    && (Silent(s, t, s') || Matches(s, t, s', a) || Matches(s, t, s', M.Run) || Matches(s, t, s', M.Retry))
  }

  lemma InvThread(s: State, t: Tid)
    requires Inv(s) && t in s.pc
    ensures t in s.q.pc && Coupled(s, t, s.pc[t], s.q.pc[t]) && Q.CallOk(s.q.m, t, s.q.pc[t])
    ensures Q.Enabled(s.q, t) && Q.MemOk(s.q.m)
  {
    assert Coupled(s, t, s.pc[t], s.q.pc[t]);
    Q.StepSafe(s.q, t, Q.Run);
    assert Q.CallOk(s.q.m, t, s.q.pc[t]);
  }

  /** A step of t on the queue, seen from here. */
  lemma QueueStep(s: State, t: Tid, a: Q.Action)
    requires Inv(s) && t in s.pc
    ensures t in s.q.pc && Q.Enabled(s.q, t)
    ensures var q' := Q.Step(s.q, t, a);
            && Q.Safe(q') && Q.Evolves(s.q.m, q'.m, t) && q'.pc.Keys == s.q.pc.Keys
            && (forall u :: u in s.q.pc && u != t ==> u in q'.pc && q'.pc[u] == s.q.pc[u])
            && (q'.m, q'.pc[t]) == Q.Do(s.q.m, t, s.q.pc[t], a, s.q.now)
            && Q.CallOk(q'.m, t, q'.pc[t]) && Q.MemOk(s.q.m) && Q.MemOk(q'.m)
  {
    hide Q.Do, Q.Evolves, Q.MemOk, Coupled, NodeOk;
    Q.StepSafe(s.q, t, a);
    var q' := Q.Step(s.q, t, a);
    assert t in q'.pc;
    assert Q.CallOk(q'.m, t, q'.pc[t]);
  }

  predicate PlainStep(p: PC, a: M.Action) {
    p.Idle? || p.LockCas? || p.Recheck? || p.Holding? || p.UnlockLoad? || p.UnlockStore?
    || (p.LockEnqueue? && a == M.GiveUp) || (p.Wait? && a != M.GiveUp)
  }

  lemma PlainShape(s: State, t: Tid, a: M.Action)
    requires Present(s, t) && PlainStep(s.pc[t], a)
    ensures var (s', p) := (Step(s, t, a), s.pc[t]);
            && s'.q == s.q && t in s'.pc && s'.pc == s.pc[t := s'.pc[t]] && s'.sent == s.sent && s'.dropped == s.dropped
            && s'.tokens == if p.Wait? && p.x in s.tokens then s.tokens - {p.x} else s.tokens
  {
    assert s.pc == s.pc[t := s.pc[t]];
  }

  lemma PlainCoupled(s: State, t: Tid, a: M.Action)
    requires Present(s, t) && PlainStep(s.pc[t], a) && Coupled(s, t, s.pc[t], s.q.pc[t])
    ensures var s' := Step(s, t, a); t in s'.pc && t in s'.q.pc && Coupled(s', t, s'.pc[t], s'.q.pc[t])
  {
  }

  lemma PlainKept(s: State, t: Tid, a: M.Action)
    requires Inv(s) && Present(s, t) && PlainStep(s.pc[t], a)
    ensures Kept(s, t, Step(s, t, a))
  {
    hide Q.MemOk, Q.CallOk, Q.Safe, Q.Evolves, Step, Coupled;
    InvThread(s, t);
    PlainShape(s, t, a);
    PlainCoupled(s, t, a);
    Q.SameOk(s.q.m, t);
    forall x ensures NodeOk(Step(s, t, a), x) { assert NodeOk(s, x); }
  }

  lemma PlainQueue(s: State, t: Tid, a: M.Action)
    requires Inv(s) && Present(s, t) && PlainStep(s.pc[t], a)
    ensures var (s', p) := (Step(s, t, a), s.pc[t]);
            && (p.Recheck? || p.Wait? ==>
                  Index(s.q.m, p.x) < |QueueOf(s).ws| && (QueueOf(s).ws[Index(s.q.m, p.x)].token <==> p.x in s.tokens))
            && QueueOf(s') == (if p.Wait? && p.x in s.tokens then QueueOf(s).Receive(Index(s.q.m, p.x)) else QueueOf(s))
  {
    hide Step, Kept, QueueOf, Q.CallOk;
    InvThread(s, t);
    PlainShape(s, t, a);
    var s', p := Step(s, t, a), s.pc[t];
    if p.Recheck? || p.Wait? { IndexOf(s, p.x); }
    if p.Wait? && p.x in s.tokens { QueueReceive(s, s', p.x); } else { QueueSame(s, s'); }
  }

  lemma PlainLock(s: State, t: Tid, a: M.Action)
    requires Inv(s) && Present(s, t) && PlainStep(s.pc[t], a) && Locking(s.pc[t])
    ensures Matches(s, t, Step(s, t, a), a)
  {
    hide Q.MemOk, Q.CallOk, Q.Safe, QueueOf, NodeOk, Inv, DoUnlock;
    PlainQueue(s, t, a);
    PlainShape(s, t, a);
    InvThread(s, t);
  }

  lemma PlainUnlock(s: State, t: Tid, a: M.Action)
    requires Inv(s) && Present(s, t) && PlainStep(s.pc[t], a) && !Locking(s.pc[t])
    ensures Matches(s, t, Step(s, t, a), a)
  {
    hide Q.MemOk, Q.CallOk, Q.Safe, QueueOf, NodeOk, Inv, DoLock;
    PlainQueue(s, t, a);
    PlainShape(s, t, a);
    InvThread(s, t);
  }

  lemma PlainSimulated(s: State, t: Tid, a: M.Action)
    requires Inv(s) && Present(s, t) && PlainStep(s.pc[t], a)
    ensures Simulated(s, t, a, Step(s, t, a))
  {
    hide Inv, Kept, Matches, Silent, Step;
    PlainKept(s, t, a);
    if Locking(s.pc[t]) { PlainLock(s, t, a); } else { PlainUnlock(s, t, a); }
  }

  /** What a step with an operation on the queue must say about the histories. */
  ghost predicate Records(s: State, t: Tid, a: Q.Action, s': State)
    requires t in s.q.pc && t in s'.q.pc
  {
    var p, p', m := s.q.pc[t], s'.q.pc[t], s.q.m;
    && s.sent <= s'.sent && (forall x :: x in s'.sent && x !in s.sent ==> Q.Holds(m, t, x) && Q.Given(m, x))
    && (forall x :: x in s'.tokens ==> x in s.tokens || x in s'.sent)
    && (forall x :: x in s'.dropped && x !in s.dropped ==>
          Q.Holds(m, t, x) && p.CheckFlag? && p.item == x && p'.LoadHead?)
    && (p.CheckFlag? ==> p.item !in s.dropped && !Q.Given(m, p.item))
    && (p.Idle? && a.SetFlag? ==> Q.At(m, a.a) >= 1)
  }

  lemma RunNodes(s: State, t: Tid, a: Q.Action, s': State, x: Addr)
    requires Inv(s) && t in s.pc && s'.q == Q.Step(s.q, t, a) && t in s.q.pc && t in s'.q.pc && Records(s, t, a, s')
    ensures NodeOk(s', x)
  {
    hide Q.Safe, Q.MemOk, Q.CallOk, Coupled, Q.Do, Q.Typed;
    QueueStep(s, t, a);
    FlagsOf(s.q.m, t, s.q.pc[t], a, s.q.now, x);
    assert NodeOk(s, x);
  }

  lemma RunKept(s: State, t: Tid, a: Q.Action, s': State)
    requires Inv(s) && t in s.pc && s'.q == Q.Step(s.q, t, a) && t in s.q.pc && t in s'.q.pc && Records(s, t, a, s')
    requires t in s'.pc && s'.pc == s.pc[t := s'.pc[t]] && Coupled(s', t, s'.pc[t], s'.q.pc[t])
    ensures Kept(s, t, s')
  {
    hide Q.Safe, Q.MemOk, Q.CallOk, Coupled, Q.Do, Q.Typed, Q.Evolves, NodeOk;
    QueueStep(s, t, a);
    forall x ensures NodeOk(s', x) { RunNodes(s, t, a, s', x); }
  }

  // ---- Enqueue -----------------------------------------------------------

  lemma CallEnqueueSimulated(s: State, t: Tid, a: M.Action)
    requires Inv(s) && Present(s, t) && s.pc[t].LockEnqueue? && a != M.GiveUp
    ensures Simulated(s, t, a, Step(s, t, a))
  {
    hide Q.Safe, Q.MemOk, Q.Evolves, NodeOk, QueueOf, Inv, Kept, Q.DoEnqueue, Q.DoRead, Q.DoRemove, Q.CallOk, Q.Typed;
    InvThread(s, t);
    QueueStep(s, t, Q.CallEnqueue(0));
    var s' := Step(s, t, a);
    RunKept(s, t, Q.CallEnqueue(0), s');
    QueueAlloc(s, s', t);
    assert Silent(s, t, s') by { FreshIndex(s, s', t); }
  }

  lemma FreshIndex(s: State, s': State, t: Tid)
    requires s'.q.m == s.q.m.Alloc(0, t)
    ensures Q.At(s'.q.m, |s.q.m.heap|) == -1
  {
  }

  lemma EnqueueShape(s: State, t: Tid, a: M.Action)
    requires Inv(s) && Present(s, t) && s.pc[t].Enqueueing?
    ensures var s' := Step(s, t, a);
            && s'.q == Q.Step(s.q, t, Q.Run) && t in s'.q.pc && t in s'.pc && s'.pc == s.pc[t := s'.pc[t]]
            && s'.pc[t] == (if s'.q.pc[t] == Q.Idle then Recheck(s.pc[t].x) else s.pc[t])
            && s'.tokens == s.tokens && s'.sent == s.sent && s'.dropped == s.dropped
            && s'.word == s.word && s'.crashed == s.crashed
  {
    hide Q.Do, Q.Safe, Q.Evolves, Q.CallOk, Coupled, NodeOk, Q.MemOk;
    QueueStep(s, t, Q.Run);
    assert s.pc == s.pc[t := s.pc[t]];
  }

  lemma LinkSimulated(s: State, t: Tid, a: M.Action)
    requires Inv(s) && Present(s, t) && s.pc[t].Enqueueing?
    requires t in s.q.pc && s.q.pc[t].LinkNode? && Q.Typed(s.q.pc[t], |s.q.m.heap|)
    requires s.q.m.heap[s.q.pc[t].tail].next == Q.Nil
    ensures Simulated(s, t, a, Step(s, t, a))
  {
    hide Q.Safe, Q.MemOk, Q.Evolves, QueueOf, Inv, Kept, Step, Q.DoRead, Q.DoRemove, Q.DoOutside;
    InvThread(s, t);
    EnqueueShape(s, t, a);
    QueueStep(s, t, Q.Run);
    var s', p := Step(s, t, a), s.q.pc[t];
    assert s'.q.m == s.q.m.Link(p.tail, p.node);
    assert NodeOk(s, p.node) by { InvNode(s, p.node); }
    QueueLink(s, s', t, p.tail, p.node);
    RunKept(s, t, Q.Run, s');
    assert Matches(s, t, s', M.Run);
  }

  lemma InvNode(s: State, x: Addr)
    requires Inv(s)
    ensures NodeOk(s, x)
  {
  }

  lemma EnqueueQuiet(s: State, t: Tid, a: M.Action)
    requires Inv(s) && Present(s, t) && s.pc[t].Enqueueing?
    requires t in s.q.pc && Q.Typed(s.q.pc[t], |s.q.m.heap|)
    requires s.q.pc[t].LinkNode? ==> s.q.m.heap[s.q.pc[t].tail].next != Q.Nil
    ensures Simulated(s, t, a, Step(s, t, a))
  {
    hide Q.Safe, Q.MemOk, Q.Evolves, QueueOf, Inv, Kept, Step, Q.DoEnqueue, Q.DoRead, Q.DoRemove, Q.DoOutside, NodeOk;
    InvThread(s, t);
    EnqueueShape(s, t, a);
    QueueStep(s, t, Q.Run);
    var s', p, m := Step(s, t, a), s.q.pc[t], s.q.m;
    EnqueueNext(m, t, p, Q.Run, s.q.now);
    assert s'.q.m.heap == m.heap && s'.q.m.head == m.head && s'.q.m.chain == m.chain by {
      if Quiet(p) { QuietStep(m, t, p, Q.Run, s.q.now); } else { FailedLink(m, t, p, s.q.now); }
    }
    QueueSame(s, s');
    RunKept(s, t, Q.Run, s');
    assert Silent(s, t, s');
  }

  lemma FailedLink(m: Q.Memory, t: Tid, p: Q.PC, now: nat)
    requires p.LinkNode? && Q.Typed(p, |m.heap|) && m.heap[p.tail].next != Q.Nil
    ensures Q.Do(m, t, p, Q.Run, now).0 == m
  {
  }

  // ---- Cancelling, signalling and the call of Dequeue --------------------

  lemma CancelSimulated(s: State, t: Tid, a: M.Action)
    requires Inv(s) && Present(s, t) && (s.pc[t].Cancel? || (s.pc[t].Wait? && a == M.GiveUp))
    ensures Simulated(s, t, a, Step(s, t, a))
  {
    hide Q.Safe, Q.MemOk, Q.Evolves, QueueOf, Inv, Kept, Q.DoEnqueue, Q.DoRead, Q.DoRemove, Q.CallOk, Q.Typed, NodeOk;
    InvThread(s, t);
    var x := s.pc[t].x;
    QueueStep(s, t, Q.SetFlag(x, true));
    var s' := Step(s, t, a);
    QueueFlag(s, s', x);
    RunKept(s, t, Q.SetFlag(x, true), s');
    assert Matches(s, t, s', a);
  }

  lemma SignalSimulated(s: State, t: Tid, a: M.Action)
    requires Inv(s) && Present(s, t) && s.pc[t].Signal?
    ensures Simulated(s, t, a, Step(s, t, a))
  {
    hide Q.Safe, Q.MemOk, Q.Evolves, QueueOf, Inv, Kept, Q.DoEnqueue, Q.DoRead, Q.DoRemove, Q.Typed, NodeOk, Q.EnqueueOk;
    InvThread(s, t);
    var x := s.pc[t].x;
    QueueStep(s, t, Q.Run);
    var s' := Step(s, t, a);
    QueueSend(s, s', t, x);
    RunKept(s, t, Q.Run, s');
    assert Matches(s, t, s', a);
  }

  lemma CallDequeueSimulated(s: State, t: Tid, a: M.Action)
    requires Inv(s) && Present(s, t) && s.pc[t].Dequeue?
    ensures Simulated(s, t, a, Step(s, t, a))
  {
    hide Q.Safe, Q.MemOk, Q.Evolves, QueueOf, Inv, Kept, Q.DoEnqueue, Q.DoRead, Q.DoRemove, Q.CallOk, Q.Typed, NodeOk;
    InvThread(s, t);
    QueueStep(s, t, Q.Call(Q.Dequeue));
    var s' := Step(s, t, a);
    QueueSame(s, s');
    RunKept(s, t, Q.Call(Q.Dequeue), s');
    assert Silent(s, t, s');
  }

  // ---- Dequeue -----------------------------------------------------------

  lemma DequeueShape(s: State, t: Tid, a: M.Action)
    requires Inv(s) && Present(s, t) && s.pc[t].Dequeueing?
    ensures var s' := Step(s, t, a);
            && s'.q == Q.Step(s.q, t, Q.Run) && t in s'.q.pc && t in s'.pc && s'.pc == s.pc[t := s'.pc[t]]
            && s'.pc[t] == AfterDequeue(s'.q.pc[t]) && s'.dropped == s.dropped + PassedOver(s.q.pc[t], s'.q.pc[t])
            && s'.tokens == s.tokens && s'.sent == s.sent && s'.word == s.word && s'.crashed == s.crashed
  {
    hide Q.Do, Q.Safe, Q.Evolves, Q.CallOk, Coupled, NodeOk, Q.MemOk, PassedOver;
    QueueStep(s, t, Q.Run);
  }

  /** Everything about a step of Dequeue but what MutexLock sees of it. */
  lemma DequeueKept(s: State, t: Tid, a: M.Action)
    requires Inv(s) && Present(s, t) && s.pc[t].Dequeueing?
    ensures Kept(s, t, Step(s, t, a))
  {
    hide Q.Safe, Q.MemOk, Q.Evolves, Inv, Kept, Step, Q.Do, NodeOk, Q.EnqueueOk;
    InvThread(s, t);
    DequeueShape(s, t, a);
    QueueStep(s, t, Q.Run);
    var s', p := Step(s, t, a), s.q.pc[t];
    DequeueNext(s.q.m, t, p, Q.Run, s.q.now);
    if p.CheckFlag? { InvNode(s, p.item); HeldNotSent(s, t, p.item); }
    if p.SwingHead? && p.head == s.q.m.head { FirstIsNew(s, t); }
    assert Coupled(s', t, s'.pc[t], s'.q.pc[t]);
    RunKept(s, t, Q.Run, s');
  }

  /** The first node of the queue was neither signaled nor passed over. */
  lemma FirstIsNew(s: State, t: Tid)
    requires Inv(s) && t in s.q.pc && s.q.pc[t].SwingHead? && s.q.pc[t].head == s.q.m.head
    requires Q.MemOk(s.q.m) && Q.RemoveOk(s.q.m, t, s.q.pc[t])
    ensures var first := s.q.pc[t].first; first !in s.dropped && first !in s.sent && NodeOk(s, first)
  {
    hide Q.Safe, Coupled;
    var m, first := s.q.m, s.q.pc[t].first;
    Q.NextOf(m, m.head);
    assert Q.NodeOk(m, first);
    InvNode(s, first);
  }

  lemma HeldNotSent(s: State, t: Tid, x: Addr)
    requires NodeOk(s, x)
    ensures !Q.Given(s.q.m, x) ==> x !in s.sent
  {
  }

  /** A nil next pointer says that the head is current and the queue empty. */
  lemma NilMeansEmpty(s: State, t: Tid)
    requires t in s.q.pc && s.q.pc[t].ReadNext? && Q.MemOk(s.q.m) && Q.RemoveOk(s.q.m, t, s.q.pc[t])
    ensures s.q.pc[t].head < |s.q.m.heap|
    ensures s.q.m.heap[s.q.pc[t].head].next == Q.Nil ==> QueueOf(s).Empty()
  {
    Q.NextOf(s.q.m, s.q.pc[t].head);
    QueueShape(s);
  }

  /** The queue of MutexLock does not change where the list and the flags do not. */
  lemma DequeueQuiet(s: State, t: Tid, a: M.Action)
    requires Inv(s) && Present(s, t) && s.pc[t].Dequeueing? && t in s.q.pc && Quiet(s.q.pc[t])
    ensures var s' := Step(s, t, a);
            && t in s'.pc && t in s'.q.pc && MemoryOf(s') == MemoryOf(s)
            && s'.q.m.heap == s.q.m.heap && s'.pc[t] == AfterDequeue(s'.q.pc[t])
            && Q.Enabled(s.q, t) && s'.q.pc[t] == Q.Do(s.q.m, t, s.q.pc[t], Q.Run, s.q.now).1
  {
    hide Q.Safe, Q.MemOk, Q.Evolves, Step, Q.Do, NodeOk, Q.CallOk, QueueOf, Coupled;
    DequeueShape(s, t, a);
    QueueStep(s, t, Q.Run);
    QuietStep(s.q.m, t, s.q.pc[t], Q.Run, s.q.now);
    assert s.dropped + {} == s.dropped;
    QueueSame(s, Step(s, t, a));
  }

  /** Reading the head and the tail, helping, and counting down are silent; so is the return of nil. */
  lemma QuietSilent(s: State, t: Tid, a: M.Action)
    requires Inv(s) && Present(s, t) && s.pc[t].Dequeueing? && t in s.q.pc
    requires Quiet(s.q.pc[t]) && InDequeue(s.q.pc[t]) && !s.q.pc[t].ReadNext? && !s.q.pc[t].VerifyHead?
    ensures Silent(s, t, Step(s, t, a))
  {
    hide Q.Safe, Q.MemOk, Q.Evolves, Step, NodeOk, Q.CallOk, QueueOf, Coupled, Inv, Q.DoEnqueue;
    DequeueQuiet(s, t, a);
  }

  /** Loading a nil next pointer is where MutexLock sees an empty queue. */
  lemma ReadNextSeen(s: State, t: Tid, a: M.Action)
    requires Inv(s) && Present(s, t) && s.pc[t].Dequeueing? && t in s.q.pc && s.q.pc[t].ReadNext?
    ensures Silent(s, t, Step(s, t, a)) || Matches(s, t, Step(s, t, a), M.Run)
  {
    hide Q.Safe, Q.MemOk, Q.Evolves, Step, NodeOk, QueueOf, Coupled, Inv, Q.DoEnqueue, Q.DoRemove, Q.DoOutside, Q.EnqueueOk;
    InvThread(s, t);
    DequeueQuiet(s, t, a);
    NilMeansEmpty(s, t);
    var s' := Step(s, t, a);
    if s.q.m.heap[s.q.pc[t].head].next == Q.Nil { assert Matches(s, t, s', M.Run); } else { assert Silent(s, t, s'); }
  }

  /** Re-reading the head confirms that, or makes Dequeue start over. */
  lemma VerifyHeadSeen(s: State, t: Tid, a: M.Action)
    requires Inv(s) && Present(s, t) && s.pc[t].Dequeueing? && t in s.q.pc && s.q.pc[t].VerifyHead?
    requires s.q.pc[t].op == Q.Dequeue
    ensures Silent(s, t, Step(s, t, a)) || Matches(s, t, Step(s, t, a), M.Run) || Matches(s, t, Step(s, t, a), M.Retry)
  {
    hide Q.Safe, Q.MemOk, Q.Evolves, Step, NodeOk, QueueOf, Coupled, Inv, Q.DoEnqueue, Q.DoRemove, Q.DoOutside, Q.CallOk;
    DequeueQuiet(s, t, a);
    var s', p := Step(s, t, a), s.q.pc[t];
    if p.next == Q.Nil {
      if p.head == s.q.m.head { assert Matches(s, t, s', M.Run); } else { assert Matches(s, t, s', M.Retry); }
    } else {
      assert Silent(s, t, s');
    }
  }

  /** The compare-and-swap on the head is the pop of MutexLock. */
  lemma SwingHeadSeen(s: State, t: Tid, a: M.Action)
    requires Inv(s) && Present(s, t) && s.pc[t].Dequeueing? && t in s.q.pc && s.q.pc[t].SwingHead?
    requires s.q.pc[t].op == Q.Dequeue
    ensures Silent(s, t, Step(s, t, a)) || Matches(s, t, Step(s, t, a), M.Run)
  {
    hide Q.Safe, Q.MemOk, Q.Evolves, Step, NodeOk, QueueOf, Coupled, Inv, Q.DoEnqueue, Q.DoRead, Q.DoOutside, Q.EnqueueOk;
    InvThread(s, t);
    DequeueShape(s, t, a);
    QueueStep(s, t, Q.Run);
    var s', p := Step(s, t, a), s.q.pc[t];
    assert s.dropped + {} == s.dropped;
    if p.head == s.q.m.head {
      FirstIsNew(s, t);
      QueuePop(s, s', t, p.first);
      assert Matches(s, t, s', M.Run);
    } else {
      QueueSame(s, s');
      assert Silent(s, t, s');
    }
  }

  /** The look at the flag is the one of MutexLock. */
  lemma CheckFlagSeen(s: State, t: Tid, a: M.Action)
    requires Inv(s) && Present(s, t) && s.pc[t].Dequeueing? && t in s.q.pc && s.q.pc[t].CheckFlag?
    ensures Matches(s, t, Step(s, t, a), M.Run)
  {
    hide Q.Safe, Q.MemOk, Q.Evolves, Step, QueueOf, Inv, Q.DoEnqueue, Q.DoRead, Q.DoOutside, Q.EnqueueOk;
    InvThread(s, t);
    DequeueShape(s, t, a);
    QueueStep(s, t, Q.Run);
    var s', x := Step(s, t, a), s.q.pc[t].item;
    InvNode(s, x);
    IndexOf(s, x);
    if s.q.m.heap[x].cancelled {
      QueueDrop(s, s', t, x);
    } else {
      assert s.dropped + {} == s.dropped;
      QueueGive(s, s', x);
    }
  }

  lemma DequeueSimulated(s: State, t: Tid, a: M.Action)
    requires Inv(s) && Present(s, t) && s.pc[t].Dequeueing?
    ensures Simulated(s, t, a, Step(s, t, a))
  {
    hide Inv, Kept, Silent, Matches, Step, Q.CallOk, Q.MemOk, Q.Typed;
    InvThread(s, t);
    DequeueKept(s, t, a);
    var p := s.q.pc[t];
    if p.ReadNext? {
      ReadNextSeen(s, t, a);
    } else if p.VerifyHead? {
      VerifyHeadSeen(s, t, a);
    } else if p.SwingHead? {
      SwingHeadSeen(s, t, a);
    } else if p.CheckFlag? {
      CheckFlagSeen(s, t, a);
    } else {
      QuietSilent(s, t, a);
    }
  }

  /** Every step is a step of MutexLock or one that it does not see. */
  lemma StepSimulated(s: State, t: Tid, a: M.Action)
    requires Inv(s) && Present(s, t)
    ensures Simulated(s, t, a, Step(s, t, a))
  {
    hide Inv, Simulated, Step, Q.CallOk, Q.MemOk, Coupled;
    InvThread(s, t);
    var p := s.pc[t];
    if PlainStep(p, a) {
      PlainSimulated(s, t, a);
    } else if p.LockEnqueue? {
      CallEnqueueSimulated(s, t, a);
    } else if p.Enqueueing? {
      var qp := s.q.pc[t];
      if qp.LinkNode? && s.q.m.heap[qp.tail].next == Q.Nil { LinkSimulated(s, t, a); } else { EnqueueQuiet(s, t, a); }
    } else if p.Cancel? || p.Wait? {
      CancelSimulated(s, t, a);
    } else if p.Dequeue? {
      CallDequeueSimulated(s, t, a);
    } else if p.Dequeueing? {
      DequeueSimulated(s, t, a);
    } else {
      SignalSimulated(s, t, a);
    }
  }

  /** The other threads are where they were, here and in MutexLock. */
  lemma OthersSeen(s: State, t: Tid, s': State, u: Tid)
    requires Inv(s) && Kept(s, t, s') && u in s.pc && u != t && t in s.pc
    ensures u in s'.pc && u in s'.q.pc && u in s.q.pc
    ensures Coupled(s', u, s'.pc[u], s'.q.pc[u]) && SeenPc(s', u) == SeenPc(s, u)
  {
    hide Q.Safe, Q.MemOk, Q.CallOk, Coupled, Grows, NodeOk, PcOf;
    InvThread(s, u);
    OthersCoupled(s, s', t, u, s.pc[u], s.q.pc[u]);
  }

  lemma StepInv(s: State, t: Tid, s': State)
    requires Inv(s) && t in s.pc && Kept(s, t, s')
    ensures Inv(s')
  {
    hide Q.Safe, Coupled, Grows, NodeOk;
    forall u | u in s'.pc ensures Coupled(s', u, s'.pc[u], s'.q.pc[u]) {
      if u != t { OthersSeen(s, t, s', u); }
    }
  }

  lemma SilentAbs(s: State, t: Tid, s': State)
    requires Inv(s) && Kept(s, t, s') && Silent(s, t, s')
    ensures AbsOf(s') == AbsOf(s)
  {
    hide Q.Safe, Coupled, Grows, NodeOk, PcOf, QueueOf;
    forall u | u in s.pc && u != t ensures SeenPc(s', u) == SeenPc(s, u) { OthersSeen(s, t, s', u); }
    assert AbsOf(s').pc == AbsOf(s).pc;
  }

  lemma MatchesAbs(s: State, t: Tid, s': State, b: M.Action)
    requires Inv(s) && !s.crashed && Kept(s, t, s') && Matches(s, t, s', b)
    ensures AbsOf(s') == M.Step(AbsOf(s), t, b)
  {
    hide Q.Safe, Coupled, Grows, NodeOk, PcOf, QueueOf, M.Do;
    forall u | u in s.pc && u != t ensures SeenPc(s', u) == SeenPc(s, u) { OthersSeen(s, t, s', u); }
    assert AbsOf(s').pc == M.Step(AbsOf(s), t, b).pc;
  }

  /** One event here is at most one event there. */
  lemma StepAbs(s: State, t: Tid, a: M.Action) returns (more: seq<M.Event>)
    requires Inv(s)
    ensures Inv(Step(s, t, a))
    ensures |more| <= 1 && (a != M.GiveUp ==> M.NoGiveUp(more))
    ensures AbsOf(Step(s, t, a)) == if more == [] then AbsOf(s) else M.Step(AbsOf(s), more[0].0, more[0].1)
  {
    hide Inv, Kept, Silent, Matches, Step, AbsOf, M.Step;
    more := [];
    if Present(s, t) {
      var s' := Step(s, t, a);
      StepSimulated(s, t, a);
      StepInv(s, t, s');
      if Silent(s, t, s') {
        SilentAbs(s, t, s');
      } else {
        var b := if Matches(s, t, s', a) then a else if Matches(s, t, s', M.Run) then M.Run else M.Retry;
        MatchesAbs(s, t, s', b);
        more := [(t, b)];
      }
    } else {
      AbsentStep(s, t, a);
    }
  }

  lemma AbsentStep(s: State, t: Tid, a: M.Action)
    requires !Present(s, t)
    ensures Step(s, t, a) == s
  {
  }

  lemma InitAbs(threads: set<Tid>)
    ensures Inv(Init(threads)) && AbsOf(Init(threads)) == M.Init(threads)
  {
    Q.InitSafe(threads);
    assert QueueOf(Init(threads)) == EMPTY;
  }

  /** Every run of the mutex on the pointer-level queue is a run of MutexLock, which sees the same word and the same
      threads with the same waiters; and if nobody gives up here, nobody does there. */
  lemma {:induction false} Refines(threads: set<Tid>, run: seq<M.Event>) returns (seen: seq<M.Event>)
    ensures Inv(Exec(threads, run)) && AbsOf(Exec(threads, run)) == M.Exec(threads, seen)
    ensures |seen| <= |run| && (M.NoGiveUp(run) ==> M.NoGiveUp(seen))
  {
    hide Inv, AbsOf, Step, M.Step, M.Exec, M.NoGiveUp;
    if run == [] {
      seen := [];
      RunStart(threads);
      assert M.NoGiveUp([]) by { PatienceStart(); }
    } else {
      var k := |run| - 1;
      seen := Refines(threads, run[..k]);
      var more := StepAbs(Exec(threads, run[..k]), run[k].0, run[k].1);
      RunOn(threads, seen, more);
      PatienceParts(run, seen, more);
      seen := seen + more;
    }
  }

  lemma {:induction false} RunStart(threads: set<Tid>)
    ensures Inv(Init(threads)) && AbsOf(Init(threads)) == M.Exec(threads, [])
  {
    hide Inv, AbsOf;
    InitAbs(threads);
  }

  lemma {:induction false} RunOn(threads: set<Tid>, seen: seq<M.Event>, more: seq<M.Event>)
    requires |more| <= 1
    ensures M.Exec(threads, seen + more) ==
            if more == [] then M.Exec(threads, seen) else M.Step(M.Exec(threads, seen), more[0].0, more[0].1)
  {
    hide M.Exec, M.Step;
    if more == [] {
      assert seen + more == seen;
    } else {
      assert more == [more[0]];
      M.ExecSnoc(threads, seen, more[0]);
    }
  }

  lemma PatienceParts(run: seq<M.Event>, seen: seq<M.Event>, more: seq<M.Event>)
    requires run != []
    ensures M.NoGiveUp(run) ==> M.NoGiveUp(run[..|run| - 1]) && run[|run| - 1].1 != M.GiveUp
    ensures M.NoGiveUp(seen) && M.NoGiveUp(more) ==> M.NoGiveUp(seen + more)
  {
  }

  lemma PatienceStart()
    ensures M.NoGiveUp([])
  {
  }

  // ---- Theorems ----------------------------------------------------------

  predicate Holds(p: PC) { p.Holding? || p.Cancel? || p.UnlockLoad? || p.UnlockStore? }

  /** In every run at most one thread holds the mutex, and the word says whether one does. */
  lemma {:induction false} MutualExclusion(threads: set<Tid>, run: seq<M.Event>)
    ensures var s := Exec(threads, run);
            && !s.crashed
            && (s.word == 1 <==> exists t :: t in s.pc && Holds(s.pc[t]))
            && (forall t, u :: t in s.pc && u in s.pc && Holds(s.pc[t]) && Holds(s.pc[u]) ==> t == u)
  {
    hide Exec, M.Exec, Inv, QueueOf;
    var seen := Refines(threads, run);
    var s := Exec(threads, run);
    M.MutualExclusion(threads, seen);
    forall t | t in s.pc ensures Holds(s.pc[t]) <==> M.Holds(AbsOf(s).pc[t]) { HoldsSeen(s, t); }
  }

  lemma HoldsSeen(s: State, t: Tid)
    requires t in s.pc
    ensures Holds(s.pc[t]) <==> M.Holds(AbsOf(s).pc[t])
  {
    hide QueueOf;
  }

  /** No thread can take a step on its own: each is outside a call or parked without a token. */
  ghost predicate Quiescent(s: State) {
    forall t {:trigger s.pc[t]} :: t in s.pc ==>
      s.pc[t].Idle? || s.pc[t].Holding? || (s.pc[t].Wait? && s.pc[t].x !in s.tokens)
  }

  /** In every run of calls without a context, a quiescent free mutex has nobody parked. */
  lemma {:induction false} NobodyStranded(threads: set<Tid>, run: seq<M.Event>)
    requires M.NoGiveUp(run)
    ensures var s := Exec(threads, run);
            Quiescent(s) && s.word == 0 ==> forall t :: t in s.pc ==> s.pc[t] == Idle
  {
    hide Exec, M.Exec, Inv, QueueOf, M.Quiescent, Quiescent;
    var seen := Refines(threads, run);
    var s := Exec(threads, run);
    M.PlainCallsStrandNobody(threads, seen);
    if Quiescent(s) && s.word == 0 {
      QuiescentSeen(s);
      forall t | t in s.pc ensures s.pc[t] == Idle { IdleSeen(s, t); }
    }
  }

  lemma QuiescentSeen(s: State)
    requires Inv(s) && Quiescent(s)
    ensures M.Quiescent(AbsOf(s))
  {
    hide QueueOf, Q.CallOk, Q.MemOk;
    forall t | t in s.pc && s.pc[t].Wait?
      ensures Index(s.q.m, s.pc[t].x) < |QueueOf(s).ws| && !QueueOf(s).ws[Index(s.q.m, s.pc[t].x)].token
    {
      InvThread(s, t);
      IndexOf(s, s.pc[t].x);
    }
  }

  lemma IdleSeen(s: State, t: Tid)
    requires Quiescent(s) && t in s.pc && AbsOf(s).pc[t] == M.Idle
    ensures s.pc[t] == Idle
  {
    hide QueueOf;
  }
}
