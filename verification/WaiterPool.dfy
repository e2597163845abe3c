/**
 The life of pooled waiters (waiter.go, lines 40-72, 137-146 and 166-204) under
 every blocking call of every primitive at once.

 The nodes of all queues form one bag from which any node may be popped, which
 allows more than the first-in first-out order of each queue.  Giving up stands
 for a timer or a context.  A goroutine that wakes others while its own waiter
 is queued, as CondVar.Wait does when it unlocks, counts as two threads here.
 One step is one access to shared memory.
 */
module WaiterPool {
  import opened Threads

  type Addr = nat

  datatype Place =
    | Pool
    | Private(t: Tid)    // only t has a reference it will use
    | Queued
    | Hand(popper: Tid)
    | Sent               // signaled: the owner's if it still waits, abandoned otherwise
    | Gone               // dropped by the pool

  datatype Interest = Nobody | Of(t: Tid)

  datatype Token = Empty | Full(life: nat)

  /** `token` and `cancelled` are the waiter's fields, the content of the channel being marked with the
      lifecycle of the node whose popper sent it. The rest is history: the lifecycle, the place,
      the thread that may still wait, and how often this lifecycle was put back. */
  datatype Waiter = Waiter(token: Token, cancelled: bool, life: nat, place: Place, owner: Interest, puts: nat)

  /** A queue node, marked with the lifecycle in which it was made. */
  datatype Node = Node(w: Addr, life: nat)

  datatype Memory = Memory(ws: seq<Waiter>, pool: multiset<Addr>, queued: multiset<Node>)

  /** Each program counter carries the waiter and the lifecycle in which it came by it. */
  datatype PC =
    | Idle
    | GetDrain(w: Addr, life: nat)
    | GetReset(w: Addr, life: nat)
    | Got(w: Addr, life: nat)
    | Enqueued(w: Addr, life: nat)
    | Wait(w: Addr, life: nat)
    | Cancel(w: Addr, life: nat)       // the lock was acquired, or the wait given up
    | Popped(w: Addr, life: nat)
    | Signal(w: Addr, life: nat)
    | PutDrain(w: Addr, life: nat)
    | PutReset(w: Addr, life: nat)
    | PutBack(w: Addr, life: nat)

  datatype Action = New | Get(w: Addr) | Pop(node: Node) | Lose(w: Addr) | Leave | Run

  datatype State = State(m: Memory, pc: map<Tid, PC>)

  function Init(threads: set<Tid>): State {
    State(Memory([], multiset{}, multiset{}), map t | t in threads :: Idle)
  }

  predicate Typed(p: PC, n: nat) { p.Idle? || p.w < n }

  function DoIdle(m: Memory, t: Tid, a: Action): (Memory, PC) {
    match a
    case New =>
      (m.(ws := m.ws + [Waiter(Empty, false, 1, Private(t), Nobody, 0)]), GetDrain(|m.ws|, 1))
    case Get(w) =>
      if w in m.pool && w < |m.ws| then
        var x := m.ws[w];
        (m.(pool := m.pool - multiset{w}, ws := m.ws[w := x.(place := Private(t), life := x.life + 1, puts := 0)]),
         GetDrain(w, x.life + 1))
      else (m, Idle)
    case Pop(node) =>
      if node in m.queued && node.w < |m.ws| then
        (m.(queued := m.queued - multiset{node}, ws := m.ws[node.w := m.ws[node.w].(place := Hand(t))]),
         Popped(node.w, node.life))
      else (m, Idle)
    case Lose(w) =>
      if w in m.pool && w < |m.ws| then
        (m.(pool := m.pool - multiset{w}, ws := m.ws[w := m.ws[w].(place := Gone)]), Idle)
      else (m, Idle)
    case _ => (m, Idle)
  }

  function Put(m: Memory, w: Addr, x: Waiter): Memory
    requires w < |m.ws|
  {
    m.(ws := m.ws[w := x])
  }

  function Do(m: Memory, t: Tid, p: PC, a: Action): (Memory, PC)
    requires Typed(p, |m.ws|)
  {
    if p.Idle? then DoIdle(m, t, a)
    else
      var w, l, x := p.w, p.life, m.ws[p.w];
      match p
      case GetDrain(_, _) => (Put(m, w, x.(token := Empty)), GetReset(w, l))
      case GetReset(_, _) => (Put(m, w, x.(cancelled := false)), Got(w, l))
      case Got(_, _) =>
        (Put(m, w, x.(place := Queued, owner := Of(t))).(queued := m.queued + multiset{Node(w, l)}), Enqueued(w, l))
      case Enqueued(_, _) => (m, if a == Leave then Cancel(w, l) else Wait(w, l))
      case Wait(_, _) =>
        if a == Leave then (m, Cancel(w, l))
        else if x.token.Full? then (Put(m, w, x.(token := Empty, place := Private(t), owner := Nobody)), PutDrain(w, l))
        else (m, p)
      case Cancel(_, _) => (Put(m, w, x.(cancelled := true, owner := Nobody)), Idle)
      case Popped(_, _) => if x.cancelled then (Put(m, w, x.(place := Private(t))), PutDrain(w, l)) else (m, Signal(w, l))
      case Signal(_, _) => (Put(m, w, x.(place := Sent, token := if x.token.Full? then x.token else Full(l))), Idle)
      case PutDrain(_, _) => (Put(m, w, x.(token := Empty)), PutReset(w, l))
      case PutReset(_, _) => (Put(m, w, x.(cancelled := false)), PutBack(w, l))
      case PutBack(_, _) =>
        (Put(m, w, x.(place := Pool, puts := x.puts + 1)).(pool := m.pool + multiset{w}), Idle)
  }

  predicate Enabled(s: State, t: Tid) { t in s.pc && Typed(s.pc[t], |s.m.ws|) }

  function Step(s: State, t: Tid, a: Action): State {
    if Enabled(s, t) then
      var (m, p) := Do(s.m, t, s.pc[t], a);
      State(m, s.pc[t := p])
    else s
  }

  type Event = (Tid, Action)

  ghost function Exec(threads: set<Tid>, run: seq<Event>): State {
    if run == [] then Init(threads)
    else Step(Exec(threads, run[..|run| - 1]), run[|run| - 1].0, run[|run| - 1].1)
  }

  // ---- Ownership ---------------------------------------------------------

  /** The thread is the only user of its waiter. */
  predicate Alone(p: PC) { p.GetDrain? || p.GetReset? || p.Got? || p.PutDrain? || p.PutReset? || p.PutBack? }

  predicate Holding(p: PC) { p.Popped? || p.Signal? }

  predicate Waiting(p: PC) { p.Enqueued? || p.Wait? || p.Cancel? }

  predicate Resting(x: Waiter) { x.place == Pool || x.place == Gone }

  predicate Sharing(x: Waiter) { x.place == Queued || x.place.Hand? || x.place == Sent }

  /** The pool has w once or not at all, and so have the queues, as a node of its current lifecycle. */
  ghost predicate CountsOk(m: Memory, w: Addr)
    requires w < |m.ws|
  {
    && m.pool[w] == (if m.ws[w].place == Pool then 1 else 0)
    && (forall l :: m.queued[Node(w, l)] == if m.ws[w].place == Queued && l == m.ws[w].life then 1 else 0)
  }

  ghost predicate FieldsOk(x: Waiter) {
    && (x.token.Full? ==> x.place == Sent && x.token.life == x.life)
    && (Resting(x) ==> !x.cancelled)
    && (if Sharing(x) then x.cancelled <==> x.owner == Nobody else x.owner == Nobody)
    && (x.place == Sent && x.owner != Nobody ==> x.token.Full?)
    && x.puts == (if Resting(x) then 1 else 0)
  }

  ghost predicate WaiterOk(m: Memory, w: Addr)
    requires w < |m.ws|
  {
    CountsOk(m, w) && FieldsOk(m.ws[w])
  }

  /** What thread t may rely on while it is at p. */
  ghost predicate CallOk(m: Memory, t: Tid, p: PC) {
    p.Idle? ||
    (&& p.w < |m.ws|
     && var x := m.ws[p.w];
        && p.life == x.life
        && (Alone(p) ==> x.place == Private(t))
        && (Holding(p) ==> x.place == Hand(t))
        && (Waiting(p) ==> x.owner == Of(t))
        && (p.Got? || p.PutBack? ==> !x.cancelled))
  }

  /** The thread recorded with a waiter is indeed at work on it. */
  ghost predicate Attended(ws: seq<Waiter>, pc: map<Tid, PC>, w: Addr)
    requires w < |ws|
  {
    var x := ws[w];
    && (x.place.Private? ==> x.place.t in pc && Alone(pc[x.place.t]) && pc[x.place.t].w == w)
    && (x.place.Hand? ==> x.place.popper in pc && Holding(pc[x.place.popper]) && pc[x.place.popper].w == w)
    && (x.owner.Of? ==> x.owner.t in pc && Waiting(pc[x.owner.t]) && pc[x.owner.t].w == w)
  }

  ghost predicate Safe(s: State) {
    && InRange(s.m)
    && (forall w {:trigger WaiterOk(s.m, w)} :: 0 <= w < |s.m.ws| ==> WaiterOk(s.m, w))
    && (forall w {:trigger Attended(s.m.ws, s.pc, w)} :: 0 <= w < |s.m.ws| ==> Attended(s.m.ws, s.pc, w))
    && (forall t {:trigger CallOk(s.m, t, s.pc[t])} :: t in s.pc ==> CallOk(s.m, t, s.pc[t]))
  }

  ghost predicate InRange(m: Memory) {
    && (forall w {:trigger m.pool[w]} :: w in m.pool ==> w < |m.ws|)
    && (forall n {:trigger m.queued[n]} :: n in m.queued ==> n.w < |m.ws|)
  }

  /** What a step of thread t may do to a waiter that others look at. */
  ghost predicate Evolves(x: Waiter, x': Waiter, t: Tid) {
    && (x'.life != x.life ==> x.place == Pool)
    && (x'.place == x.place
        || x.place == Pool || x.place == Private(t) || x.place == Hand(t)
        || (x.place == Queued && x'.place == Hand(t)) || (x.place == Sent && x'.place == Private(t)))
    && (x'.place.Private? && x'.place != x.place ==> x'.place.t == t)
    && (x'.place.Hand? && x'.place != x.place ==> x'.place.popper == t)
    && (x'.owner == x.owner || (x.owner == Of(t) && x'.owner == Nobody) || (x.place == Private(t) && x'.owner == Of(t)))
    && (x'.cancelled == x.cancelled || x.place == Private(t) || (Sharing(x) && x.owner == Of(t)))
  }

  /** The waiter a step works on; |m.ws| if there is none yet. */
  function Target(m: Memory, p: PC, a: Action): Addr {
    if !p.Idle? then p.w
    else if a.Get? || a.Lose? then a.w
    else if a.Pop? then a.node.w
    else |m.ws|
  }

  /** What the memory has of waiter w is the same. */
  ghost predicate SameWaiter(m: Memory, m': Memory, w: Addr) {
    && w < |m.ws| && w < |m'.ws| && m'.ws[w] == m.ws[w] && m'.pool[w] == m.pool[w]
    && (forall l :: m'.queued[Node(w, l)] == m.queued[Node(w, l)])
  }

  lemma IdleFrame(m: Memory, t: Tid, a: Action, w: Addr)
    requires w < |m.ws| && w != Target(m, Idle, a)
    ensures SameWaiter(m, DoIdle(m, t, a).0, w)
  {
  }

  lemma BusyFrame(m: Memory, t: Tid, p: PC, a: Action, w: Addr)
    requires Typed(p, |m.ws|) && !p.Idle? && w < |m.ws| && w != p.w
    ensures SameWaiter(m, Do(m, t, p, a).0, w)
  {
  }

  /** A step leaves every other waiter as it is. */
  lemma DoFrame(m: Memory, t: Tid, p: PC, a: Action, w: Addr)
    requires Typed(p, |m.ws|) && w < |m.ws| && w != Target(m, p, a) && CountsOk(m, w)
    ensures var m' := Do(m, t, p, a).0; w < |m'.ws| && m'.ws[w] == m.ws[w] && CountsOk(m', w)
  {
    hide DoIdle;
    if p.Idle? {
      IdleFrame(m, t, a, w);
    } else {
      assert SameWaiter(m, Do(m, t, p, a).0, w) by { BusyFrame(m, t, p, a, w); }
    }
  }

  /** Where a waiter names thread t, t is at work on it. */
  ghost predicate Mine(x: Waiter, t: Tid, p: PC, w: Addr) {
    && (x.place == Private(t) ==> Alone(p) && p.w == w)
    && (x.place == Hand(t) ==> Holding(p) && p.w == w)
    && (x.owner == Of(t) ==> Waiting(p) && p.w == w)
  }

  /** The outcome of a step for the waiter it works on. */
  ghost predicate Worked(m: Memory, w: Addr, m': Memory, t: Tid, p': PC) {
    && InRange(m') && CallOk(m', t, p')
    && (w < |m'.ws| ==> WaiterOk(m', w) && Mine(m'.ws[w], t, p', w))
    && (if w < |m.ws| then w < |m'.ws| && Evolves(m.ws[w], m'.ws[w], t)
        else w < |m'.ws| ==> m'.ws[w].place == Private(t) && m'.ws[w].owner == Nobody)
  }

  lemma IdleTarget(m: Memory, t: Tid, a: Action)
    requires InRange(m) && var w := Target(m, Idle, a); w < |m.ws| ==> WaiterOk(m, w) && Mine(m.ws[w], t, Idle, w)
    ensures var (m', p') := DoIdle(m, t, a); Worked(m, Target(m, Idle, a), m', t, p')
  {
    var w := Target(m, Idle, a);
    if a.Pop? {
      if w < |m.ws| { PopTarget(m, t, a.node); }
    } else if a.New? {
      assert forall l :: m.queued[Node(w, l)] == 0;
    }
  }

  lemma PopTarget(m: Memory, t: Tid, node: Node)
    requires InRange(m) && node.w < |m.ws| && WaiterOk(m, node.w) && Mine(m.ws[node.w], t, Idle, node.w)
    ensures var (m', p') := DoIdle(m, t, Pop(node)); Worked(m, node.w, m', t, p')
  {
    assert node == Node(node.w, node.life);
  }

  /** The steps that put a waiter into a queue or into the pool. */
  lemma InsertTarget(m: Memory, t: Tid, p: PC, a: Action)
    requires p.Got? || p.PutBack?
    requires InRange(m) && CallOk(m, t, p) && WaiterOk(m, p.w) && Mine(m.ws[p.w], t, p, p.w)
    ensures var (m', p') := Do(m, t, p, a); Worked(m, p.w, m', t, p')
  {
  }

  lemma AloneTarget(m: Memory, t: Tid, p: PC, a: Action)
    requires Alone(p) && !p.Got? && !p.PutBack?
    requires InRange(m) && CallOk(m, t, p) && WaiterOk(m, p.w) && Mine(m.ws[p.w], t, p, p.w)
    ensures var (m', p') := Do(m, t, p, a); Worked(m, p.w, m', t, p')
  {
    hide CountsOk;
    assert CountsOk(Do(m, t, p, a).0, p.w) by { SameCounts(m, Do(m, t, p, a).0, p.w); }
  }

  lemma BusyTarget(m: Memory, t: Tid, p: PC, a: Action)
    requires Waiting(p) || Holding(p)
    requires InRange(m) && CallOk(m, t, p) && WaiterOk(m, p.w) && Mine(m.ws[p.w], t, p, p.w)
    ensures var (m', p') := Do(m, t, p, a); Worked(m, p.w, m', t, p')
  {
    hide CountsOk;
    assert CountsOk(Do(m, t, p, a).0, p.w) by { SameCounts(m, Do(m, t, p, a).0, p.w); }
  }

  lemma SameCounts(m: Memory, m': Memory, w: Addr)
    requires w < |m.ws| && w < |m'.ws| && CountsOk(m, w) && m'.pool == m.pool && m'.queued == m.queued
    requires m'.ws[w].life == m.ws[w].life
    requires m'.ws[w].place == m.ws[w].place
          || !(m.ws[w].place == Pool || m.ws[w].place == Queued || m'.ws[w].place == Pool || m'.ws[w].place == Queued)
    ensures CountsOk(m', w)
  {
  }

  lemma OthersCall(m: Memory, m': Memory, t: Tid, u: Tid, p: PC)
    requires CallOk(m, u, p) && u != t
    requires !p.Idle? ==> WaiterOk(m, p.w) && p.w < |m'.ws| && Evolves(m.ws[p.w], m'.ws[p.w], t)
    ensures CallOk(m', u, p)
  {
  }

  lemma SafeThread(s: State, t: Tid, w: Addr)
    requires Safe(s) && t in s.pc
    ensures CallOk(s.m, t, s.pc[t]) && Enabled(s, t)
    ensures w < |s.m.ws| ==> WaiterOk(s.m, w) && Attended(s.m.ws, s.pc, w) && Mine(s.m.ws[w], t, s.pc[t], w)
  {
    assert CallOk(s.m, t, s.pc[t]);
    if w < |s.m.ws| { assert WaiterOk(s.m, w) && Attended(s.m.ws, s.pc, w); }
  }

  lemma StepTarget(s: State, t: Tid, a: Action)
    requires Safe(s) && t in s.pc
    ensures var s' := Step(s, t, a);
            |s.m.ws| <= |s'.m.ws| <= |s.m.ws| + 1 && (|s'.m.ws| > |s.m.ws| ==> Target(s.m, s.pc[t], a) == |s.m.ws|)
    ensures Worked(s.m, Target(s.m, s.pc[t], a), Step(s, t, a).m, t, Step(s, t, a).pc[t])
  {
    hide WaiterOk, Attended, Worked, Mine;
    var p, w := s.pc[t], Target(s.m, s.pc[t], a);
    SafeThread(s, t, w);
    if p.Idle? {
      IdleTarget(s.m, t, a);
    } else if p.Got? || p.PutBack? {
      InsertTarget(s.m, t, p, a);
    } else if Alone(p) {
      AloneTarget(s.m, t, p, a);
    } else {
      BusyTarget(s.m, t, p, a);
    }
  }

  /** How a step of thread t changes any waiter. */
  lemma StepWaiter(s: State, t: Tid, a: Action, w: Addr)
    requires Safe(s) && t in s.pc
    requires w < |Step(s, t, a).m.ws|
    ensures var s' := Step(s, t, a);
            && WaiterOk(s'.m, w) && Mine(s'.m.ws[w], t, s'.pc[t], w) && Attended(s'.m.ws, s'.pc, w)
            && (w < |s.m.ws| ==> Evolves(s.m.ws[w], s'.m.ws[w], t))
  {
    hide Do, CountsOk, FieldsOk;
    StepTarget(s, t, a);
    SafeThread(s, t, w);
    if w != Target(s.m, s.pc[t], a) { DoFrame(s.m, t, s.pc[t], a, w); }
  }

  /** Every step of every thread keeps the invariant. */
  lemma StepSafe(s: State, t: Tid, a: Action)
    requires Safe(s)
    ensures Safe(Step(s, t, a))
  {
    hide Do, WaiterOk, Attended, CallOk, InRange, Evolves, Mine;
    if t in s.pc {
      var s' := Step(s, t, a);
      StepTarget(s, t, a);
      forall w | 0 <= w < |s'.m.ws| ensures WaiterOk(s'.m, w) && Attended(s'.m.ws, s'.pc, w) { StepWaiter(s, t, a, w); }
      forall u | u in s'.pc ensures CallOk(s'.m, u, s'.pc[u]) {
        if u != t {
          var p := s.pc[u];
          SafeThread(s, u, 0);
          if !p.Idle? { SafeThread(s, u, p.w); StepWaiter(s, t, a, p.w); }
          OthersCall(s.m, s'.m, t, u, p);
        }
      }
    }
  }

  lemma {:induction false} ExecSafe(threads: set<Tid>, run: seq<Event>)
    ensures Safe(Exec(threads, run)) && Exec(threads, run).pc.Keys == threads
  {
    hide Do;
    if run == [] {
      assert Init(threads).m.ws == [];
    } else {
      var k := |run| - 1;
      ExecSafe(threads, run[..k]);
      StepSafe(Exec(threads, run[..k]), run[k].0, run[k].1);
    }
  }

  // ---- Theorems ----------------------------------------------------------

  /** The possible holders of a waiter. */
  datatype Holder = ThePool | OneThread(t: Tid) | QueueNode | Signaler(t: Tid) | Signaled(t: Tid) | Abandoned

  ghost predicate HeldBy(s: State, w: Addr, h: Holder)
    requires w < |s.m.ws|
  {
    match h
    case ThePool => s.m.pool[w] > 0
    case OneThread(t) => t in s.pc && Alone(s.pc[t]) && s.pc[t].w == w
    case QueueNode => exists l :: s.m.queued[Node(w, l)] > 0
    case Signaler(t) => t in s.pc && Holding(s.pc[t]) && s.pc[t].w == w
    case Signaled(t) => t in s.pc && Waiting(s.pc[t]) && s.pc[t].w == w && s.m.ws[w].token.Full?
    case Abandoned => s.m.ws[w].place == Gone || (s.m.ws[w].place == Sent && s.m.ws[w].cancelled)
  }

  ghost function HolderOf(x: Waiter): Holder {
    match x.place
    case Pool => ThePool
    case Private(t) => OneThread(t)
    case Queued => QueueNode
    case Hand(t) => Signaler(t)
    case Sent => if x.owner == Nobody then Abandoned else Signaled(x.owner.t)
    case Gone => Abandoned
  }

  /** Each waiter always has exactly one holder, and no pool or queue has it twice. */
  lemma {:induction false} LinearOwnership(threads: set<Tid>, run: seq<Event>, w: Addr, h: Holder)
    ensures var s := Exec(threads, run);
            w < |s.m.ws| ==> (HeldBy(s, w, h) <==> h == HolderOf(s.m.ws[w]))
    ensures var m := Exec(threads, run).m; m.pool[w] <= 1 && forall l :: m.queued[Node(w, l)] <= 1
  {
    hide Do, Exec, Step;
    ExecSafe(threads, run);
    var s := Exec(threads, run);
    if w < |s.m.ws| { SafeHolder(s, w, h); }
  }

  lemma SafeHolder(s: State, w: Addr, h: Holder)
    requires Safe(s) && w < |s.m.ws|
    ensures HeldBy(s, w, h) <==> h == HolderOf(s.m.ws[w])
    ensures s.m.pool[w] <= 1 && forall l :: s.m.queued[Node(w, l)] <= 1
  {
    assert WaiterOk(s.m, w) && Attended(s.m.ws, s.pc, w);
    if !h.ThePool? && !h.QueueNode? && !h.Abandoned? && h.t in s.pc { assert CallOk(s.m, h.t, s.pc[h.t]); }
    if s.m.ws[w].place == Queued { assert s.m.queued[Node(w, s.m.ws[w].life)] == 1; }
  }

  /** A lifecycle ends with at most one return to the pool, and what is in the pool is clean. */
  lemma {:induction false} PutAtMostOnce(threads: set<Tid>, run: seq<Event>, w: Addr)
    ensures var m := Exec(threads, run).m;
            && (w < |m.ws| ==> m.ws[w].puts <= 1)
            && (w in m.pool ==> w < |m.ws| && m.ws[w].puts == 1 && m.ws[w].token == Empty && !m.ws[w].cancelled)
  {
    hide Do, Exec, Step, Attended, CallOk;
    ExecSafe(threads, run);
    var m := Exec(threads, run).m;
    if w < |m.ws| { assert WaiterOk(m, w); }
  }

  /** A return from Wait takes a token sent in the same lifecycle; neither drain ever finds one, and
      Signal never finds the channel full. */
  lemma {:induction false} TokensMatchLifecycles(threads: set<Tid>, run: seq<Event>, t: Tid)
    ensures var s := Exec(threads, run);
            t in s.pc && !s.pc[t].Idle? ==>
              && s.pc[t].w < |s.m.ws|
              && var p, token := s.pc[t], s.m.ws[s.pc[t].w].token;
                 && (p.Wait? && token.Full? ==> token.life == p.life == s.m.ws[p.w].life)
                 && (Alone(p) || Holding(p) ==> token == Empty)
  {
    hide Do, Exec, Step, Attended;
    ExecSafe(threads, run);
    var s := Exec(threads, run);
    if t in s.pc && !s.pc[t].Idle? {
      assert CallOk(s.m, t, s.pc[t]);
      assert WaiterOk(s.m, s.pc[t].w);
    }
  }

  // ---- A thread on its own -----------------------------------------------

  /** The state after n steps of t alone. */
  ghost function Solo(s: State, t: Tid, n: nat): State
    decreases n
  {
    if n == 0 then s else Solo(Step(s, t, Run), t, n - 1)
  }

  lemma {:induction false} SoloAdds(s: State, t: Tid, a: nat, b: nat)
    ensures Solo(Solo(s, t, a), t, b) == Solo(s, t, a + b)
    decreases a
  {
    hide Step;
    if a == 0 {
      assert Solo(s, t, a) == s;
    } else {
      SoloAdds(Step(s, t, Run), t, a - 1, b);
    }
  }

  lemma SoloFew(s: State, t: Tid)
    ensures Solo(s, t, 1) == Step(s, t, Run)
    ensures Solo(s, t, 2) == Step(Step(s, t, Run), t, Run)
    ensures Solo(s, t, 3) == Step(Step(Step(s, t, Run), t, Run), t, Run)
  {
    hide Step;
    var s1 := Step(s, t, Run);
    var s2 := Step(s1, t, Run);
    assert Solo(s, t, 1) == Solo(s1, t, 0);
    assert Solo(s, t, 2) == Solo(s1, t, 1) == Solo(s2, t, 0);
    assert Solo(s, t, 3) == Solo(s1, t, 2) == Solo(s2, t, 1) == Solo(Step(s2, t, Run), t, 0);
  }

  /** A waiter as the pool has it: no token, not cancelled, put back once more. */
  predicate Cleaned(x: Waiter, x': Waiter) {
    x' == x.(token := Empty, cancelled := false, place := Pool, owner := x'.owner, puts := x.puts + 1)
  }

  /** The thread is outside a call, and the waiter it had is clean in the pool; nothing else has changed. */
  predicate PutAway(s: State, t: Tid, w: Addr, s': State) {
    && s'.pc == s.pc[t := Idle] && s'.m.pool == s.m.pool + multiset{w} && s'.m.queued == s.m.queued
    && w < |s.m.ws| && w < |s'.m.ws| && s'.m.ws == s.m.ws[w := s'.m.ws[w]] && Cleaned(s.m.ws[w], s'.m.ws[w])
  }

  /** The thread is outside a call, and the waiter it had has a token; nothing else has changed. */
  predicate Sends(s: State, t: Tid, w: Addr, s': State) {
    && s'.pc == s.pc[t := Idle] && s'.m.pool == s.m.pool && s'.m.queued == s.m.queued
    && w < |s.m.ws| && w < |s'.m.ws| && s'.m.ws == s.m.ws[w := s'.m.ws[w]]
    && s'.m.ws[w].token.Full? && s'.m.ws[w] == s.m.ws[w].(token := s'.m.ws[w].token, place := Sent)
  }

  /** putWaiter cleans the waiter and puts it into the pool. */
  lemma PutAlone(s: State, t: Tid)
    requires Enabled(s, t) && s.pc[t].PutDrain?
    ensures PutAway(s, t, s.pc[t].w, Solo(s, t, 3))
  {
    hide Solo, DoIdle;
    SoloFew(s, t);
    var s1, w, l := Step(s, t, Run), s.pc[t].w, s.pc[t].life;
    assert s1 == State(Put(s.m, w, s.m.ws[w].(token := Empty)), s.pc[t := PutReset(w, l)]);
    var s2 := Step(s1, t, Run);
    assert s2 == State(Put(s.m, w, s.m.ws[w].(token := Empty, cancelled := false)), s.pc[t := PutBack(w, l)]);
  }

  /** What becomes of a popped waiter: a cancelled one goes back to the pool, any other gets a token. */
  lemma PoppedAlone(s: State, t: Tid)
    requires Enabled(s, t) && s.pc[t].Popped?
    ensures var w := s.pc[t].w;
            if s.m.ws[w].cancelled then PutAway(s, t, w, Solo(s, t, 4)) else Sends(s, t, w, Solo(s, t, 2))
  {
    hide Solo, DoIdle;
    SoloFew(s, t);
    var s1, w, l := Step(s, t, Run), s.pc[t].w, s.pc[t].life;
    if s.m.ws[w].cancelled {
      assert s1 == State(Put(s.m, w, s.m.ws[w].(place := Private(t))), s.pc[t := PutDrain(w, l)]);
      PutAlone(s1, t);
      SoloAdds(s, t, 1, 3);
    } else {
      assert s1 == s.(pc := s.pc[t := Signal(w, l)]);
    }
  }

  /** An owner that finds its token puts its waiter back. */
  lemma WokenAlone(s: State, t: Tid)
    requires Enabled(s, t) && s.pc[t].Wait? && s.m.ws[s.pc[t].w].token.Full?
    ensures PutAway(s, t, s.pc[t].w, Solo(s, t, 4))
  {
    hide Solo, DoIdle;
    SoloFew(s, t);
    var s1, w, l := Step(s, t, Run), s.pc[t].w, s.pc[t].life;
    assert s1 == State(Put(s.m, w, s.m.ws[w].(token := Empty, place := Private(t), owner := Nobody)), s.pc[t := PutDrain(w, l)]);
    PutAlone(s1, t);
    SoloAdds(s, t, 1, 3);
  }

  /** getWaiter hands out a clean waiter of its own. */
  lemma GetAlone(s: State, t: Tid)
    requires Enabled(s, t) && s.pc[t].GetDrain?
    ensures var s', w := Solo(s, t, 2), s.pc[t].w;
            && s'.pc == s.pc[t := Got(w, s.pc[t].life)] && s'.m.pool == s.m.pool && s'.m.queued == s.m.queued
            && s'.m.ws == s.m.ws[w := s.m.ws[w].(token := Empty, cancelled := false)]
  {
    hide Solo, DoIdle;
    SoloFew(s, t);
    var s1, w, l := Step(s, t, Run), s.pc[t].w, s.pc[t].life;
    assert s1 == State(Put(s.m, w, s.m.ws[w].(token := Empty)), s.pc[t := GetReset(w, l)]);
  }
}
