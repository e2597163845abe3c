/**
 The Michael-Scott queues at pointer level (waiter.go, lines 90-159, and its
 intrusive twin fair_waiter_queue.go, lines 19-88): any number of threads run
 Enqueue, Dequeue and peek, one atomic load, store, add or compare-and-swap a
 step, while cancelled flags change at any time.
 */
module MSQueue {
  import opened Threads

  type Addr = nat

  datatype Pointer = Nil | To(a: Addr)

  /** The first three are the node's own. The rest is history that no step reads: who enqueued it, its place in link
      order (-1 before the link), who removed it, whether it was ever cancelled, and whether a Dequeue returned it. */
  datatype Node = Node(value: int, next: Pointer, cancelled: bool,
                       owner: Tid, at: int, out: Taker, ever: bool, given: bool)

  datatype Taker = Nobody | By(t: Tid)

  /** `chain` is the history of links, sentinel first, and `popped` that of removals. */
  datatype Memory = Memory(heap: seq<Node>, head: Addr, tail: Addr, size: int, chain: seq<Addr>, popped: seq<Addr>)
  {
    function Alloc(value: int, t: Tid): Memory {
      this.(heap := heap + [Node(value, Nil, false, t, -1, Nobody, false, false)])
    }

    /** The link compare-and-swap on the next pointer of `last`, when it succeeds. */
    function Link(last: Addr, node: Addr): Memory
      requires last < |heap| && node < |heap|
    {
      var linked := heap[last := heap[last].(next := To(node))];
      this.(heap := linked[node := linked[node].(at := |chain|)], chain := chain + [node])
    }

    /** A compare-and-swap on the tail pointer. */
    function Swing(expected: Addr, next: Addr): Memory { if tail == expected then this.(tail := next) else this }

    /** The compare-and-swap on the head pointer, when it succeeds. */
    function Unlink(first: Addr, t: Tid): Memory
      requires first < |heap|
    {
      this.(heap := heap[first := heap[first].(out := By(t))], head := first, popped := popped + [first])
    }

    function Flag(a: Addr, flag: bool): Memory {
      if a < |heap| then this.(heap := heap[a := heap[a].(cancelled := flag, ever := heap[a].ever || flag)]) else this
    }

    /** Only a record: Dequeue returns the node. */
    function Give(a: Addr): Memory
      requires a < |heap|
    {
      this.(heap := heap[a := heap[a].(given := true)])
    }

    function Add(d: int): Memory { this.(size := size + d) }
  }

  datatype Op = Dequeue | Peek

  /** The local variables of the two loops. `since` is when the call started and `seen`
      when it loaded the next pointer, counted in steps of the run. */
  datatype PC =
    | Idle
    | LoadTail(node: Addr)
    | LoadTailNext(node: Addr, tail: Addr)
    | VerifyTail(node: Addr, tail: Addr, next: Pointer)
    | LinkNode(node: Addr, tail: Addr)
    | HelpTail(node: Addr, tail: Addr, last: Addr)
    | SwingTail(node: Addr, tail: Addr)
    | CountUp(node: Addr)
    | LoadHead(op: Op, since: nat)
    | ReadTail(op: Op, since: nat, head: Addr)
    | ReadNext(op: Op, since: nat, head: Addr, tail: Addr)
    | VerifyHead(op: Op, since: nat, head: Addr, tail: Addr, next: Pointer, seen: nat)
    | Help(op: Op, since: nat, tail: Addr, last: Addr)
    | PeekFlag(since: nat, head: Addr, first: Addr, seen: nat)
    | SwingHead(op: Op, since: nat, head: Addr, first: Addr)
    | CountDown(op: Op, since: nat, item: Addr)
    | CheckFlag(since: nat, item: Addr)
    | Taken(item: Addr)
    | Peeked(item: Addr, since: nat, seen: nat)
    | Nothing(op: Op, since: nat, seen: nat)

  datatype Action = CallEnqueue(value: int) | Call(op: Op) | SetFlag(a: Addr, flag: bool) | Run

  datatype State = State(m: Memory, pc: map<Tid, PC>, now: nat)

  function Init(threads: set<Tid>): State {
    State(Memory([Node(0, Nil, false, 0, 0, Nobody, false, false)], 0, 0, 0, [0], []), map t | t in threads :: Idle, 0)
  }

  /** The addresses the next step dereferences: they are allocated, and not nil where the code does not test. */
  predicate Typed(p: PC, n: nat) {
    && (p.LoadTailNext? || p.LinkNode? ==> p.tail < n)
    && (p.LinkNode? ==> p.node < n)
    && (p.ReadNext? ==> p.head < n)
    && (p.VerifyHead? && p.head != p.tail ==> p.next.To?)
    && (p.PeekFlag? || p.SwingHead? ==> p.first < n)
    && (p.CheckFlag? ==> p.item < n)
  }

  function DoEnqueue(m: Memory, t: Tid, p: PC): (Memory, PC)
    requires Typed(p, |m.heap|)
  {
    match p
    case LoadTail(node) => (m, LoadTailNext(node, m.tail))
    case LoadTailNext(node, tail) => (m, VerifyTail(node, tail, m.heap[tail].next))
    case VerifyTail(node, tail, next) =>
      if tail != m.tail then (m, LoadTail(node))
      else if next == Nil then (m, LinkNode(node, tail))
      else (m, HelpTail(node, tail, next.a))
    case LinkNode(node, tail) =>
      if m.heap[tail].next == Nil then (m.Link(tail, node), SwingTail(node, tail)) else (m, LoadTail(node))
    case HelpTail(node, tail, last) => (m.Swing(tail, last), LoadTail(node))
    case SwingTail(node, tail) => (m.Swing(tail, node), CountUp(node))
    case CountUp(node) => (m.Add(1), Idle)
    case _ => (m, p)
  }

  function DoRead(m: Memory, t: Tid, p: PC, now: nat): (Memory, PC)
    requires Typed(p, |m.heap|)
  {
    match p
    case LoadHead(op, since) => (m, ReadTail(op, since, m.head))
    case ReadTail(op, since, head) => (m, ReadNext(op, since, head, m.tail))
    case ReadNext(op, since, head, tail) => (m, VerifyHead(op, since, head, tail, m.heap[head].next, now))
    case VerifyHead(op, since, head, tail, next, seen) =>
      if head != m.head then (m, LoadHead(op, since))
      else if head == tail then
        if next == Nil then (m, Nothing(op, since, seen)) else (m, Help(op, since, tail, next.a))
      else if op == Peek then (m, PeekFlag(since, head, next.a, seen))
      else (m, SwingHead(op, since, head, next.a))
    case Help(op, since, tail, last) => (m.Swing(tail, last), LoadHead(op, since))
    case _ => (m, p)
  }

  function DoRemove(m: Memory, t: Tid, p: PC): (Memory, PC)
    requires Typed(p, |m.heap|)
  {
    match p
    case PeekFlag(since, head, first, seen) =>
      if m.heap[first].cancelled then (m, SwingHead(Peek, since, head, first)) else (m, Peeked(first, since, seen))
    case SwingHead(op, since, head, first) =>
      if m.head == head then (m.Unlink(first, t), CountDown(op, since, first)) else (m, LoadHead(op, since))
    case CountDown(op, since, item) =>
      (m.Add(-1), if op == Peek then LoadHead(op, since) else CheckFlag(since, item))
    case CheckFlag(since, item) =>
      if m.heap[item].cancelled then (m, LoadHead(Dequeue, since)) else (m.Give(item), Taken(item))
    case _ => (m, p)
  }

  predicate Enqueues(p: PC) {
    p.LoadTail? || p.LoadTailNext? || p.VerifyTail? || p.LinkNode? || p.HelpTail? || p.SwingTail? || p.CountUp?
  }

  predicate Reads(p: PC) { p.LoadHead? || p.ReadTail? || p.ReadNext? || p.VerifyHead? || p.Help? }

  predicate Removes(p: PC) { p.PeekFlag? || p.SwingHead? || p.CountDown? || p.CheckFlag? }

  /** A call starts, a returned call ends, or a flag changes. */
  function DoOutside(m: Memory, t: Tid, p: PC, a: Action, now: nat): (Memory, PC) {
    if !p.Idle? then (m, Idle)
    else match a
      case CallEnqueue(value) => (m.Alloc(value, t), LoadTail(|m.heap|))
      case Call(op) => (m, LoadHead(op, now))
      case SetFlag(x, flag) => (m.Flag(x, flag), Idle)
      case Run => (m, Idle)
  }

  function Do(m: Memory, t: Tid, p: PC, a: Action, now: nat): (Memory, PC)
    requires Typed(p, |m.heap|)
  {
    if Enqueues(p) then DoEnqueue(m, t, p)
    else if Reads(p) then DoRead(m, t, p, now)
    else if Removes(p) then DoRemove(m, t, p)
    else DoOutside(m, t, p, a, now)
  }

  predicate Enabled(s: State, t: Tid) { t in s.pc && Typed(s.pc[t], |s.m.heap|) }

  function Step(s: State, t: Tid, a: Action): State {
    if Enabled(s, t) then
      var (m, p) := Do(s.m, t, s.pc[t], a, s.now);
      State(m, s.pc[t := p], s.now + 1)
    else s.(now := s.now + 1)
  }

  type Event = (Tid, Action)

  ghost function Exec(threads: set<Tid>, run: seq<Event>): State {
    if run == [] then Init(threads)
    else Step(Exec(threads, run[..|run| - 1]), run[|run| - 1].0, run[|run| - 1].1)
  }

  // ---- The list in memory ------------------------------------------------

  /** Following next pointers from a meets exactly the nodes of s and then nil. */
  ghost predicate Leads(heap: seq<Node>, a: Addr, s: seq<Addr>)
    decreases |s|
  {
    && a < |heap|
    && (if s == [] then heap[a].next == Nil else heap[a].next == To(s[0]) && Leads(heap, s[0], s[1..]))
  }

  function At(m: Memory, a: Addr): int { if a < |m.heap| then m.heap[a].at else -1 }

  ghost predicate ChainOk(m: Memory) {
    && |m.chain| > 0
    && (forall i {:trigger OnChain(m, i)} :: 0 <= i < |m.chain| ==> OnChain(m, i))
    && (forall a {:trigger NodeOk(m, a)} :: 0 <= a < |m.heap| ==> NodeOk(m, a))
  }

  ghost predicate OnChain(m: Memory, i: nat)
    requires i < |m.chain|
  {
    m.chain[i] < |m.heap| && m.heap[m.chain[i]].at == i
  }

  /** A node not linked yet is blank; the next pointer of a linked one is its successor in link order. */
  ghost predicate NodeOk(m: Memory, a: Addr)
    requires a < |m.heap|
  {
    var x := m.heap[a];
    && (x.cancelled ==> x.ever) && (x.given ==> x.out != Nobody)
    && if x.at < 0 then x.next == Nil && x.out == Nobody
       else
      && x.at < |m.chain| && m.chain[x.at] == a
      && x.next == (if x.at + 1 < |m.chain| then To(m.chain[x.at + 1]) else Nil)
  }

  ghost predicate EndsOk(m: Memory) {
    && 0 <= At(m, m.head) <= At(m, m.tail) < |m.chain| <= At(m, m.tail) + 2
    && m.popped == m.chain[1..At(m, m.head) + 1]
    && (forall a :: 0 <= a < |m.heap| && m.heap[a].at > At(m, m.head) ==> m.heap[a].out == Nobody)
  }

  ghost predicate MemOk(m: Memory) { ChainOk(m) && EndsOk(m) }

  /** The queue: nodes linked and not removed. */
  ghost function Abs(m: Memory): seq<Addr>
    requires MemOk(m)
  {
    m.chain[At(m, m.head) + 1..]
  }

  // ---- What a call knows -------------------------------------------------

  predicate NextIs(m: Memory, a: Addr, next: Pointer) { a < |m.heap| && m.heap[a].next == next }

  /** a has been linked, not later than b. */
  predicate Upto(m: Memory, a: Addr, b: Addr) { 0 <= At(m, a) <= At(m, b) }

  ghost predicate Fresh(m: Memory, t: Tid, a: Addr) { a < |m.heap| && m.heap[a].at < 0 && m.heap[a].owner == t }

  ghost predicate Holds(m: Memory, t: Tid, a: Addr) {
    a < |m.heap| && m.heap[a].out == By(t) && 0 < m.heap[a].at <= At(m, m.head)
  }

  /** The node was returned by a Dequeue; it was cancelled at some time. */
  predicate Given(m: Memory, a: Addr) { a < |m.heap| && m.heap[a].given }

  predicate Ever(m: Memory, a: Addr) { a < |m.heap| && m.heap[a].ever }

  ghost predicate EnqueueOk(m: Memory, t: Tid, p: PC) {
    && (p.LoadTail? || p.LoadTailNext? || p.VerifyTail? || p.LinkNode? || p.HelpTail? ==> Fresh(m, t, p.node))
    && (p.LoadTailNext? || p.VerifyTail? || p.LinkNode? || p.HelpTail? || p.SwingTail? ==> Upto(m, p.tail, m.tail))
    && (p.VerifyTail? && p.next.To? ==> NextIs(m, p.tail, p.next))
    && (p.HelpTail? ==> NextIs(m, p.tail, To(p.last)))
    && (p.SwingTail? ==> NextIs(m, p.tail, To(p.node)))
  }

  ghost predicate RemoveOk(m: Memory, t: Tid, p: PC) {
    && (p.ReadTail? || p.ReadNext? || p.VerifyHead? || p.PeekFlag? || p.SwingHead? ==> Upto(m, p.head, m.head))
    && (p.ReadNext? || p.VerifyHead? ==> Upto(m, p.head, p.tail) && Upto(m, p.tail, m.tail))
    && (p.VerifyHead? && p.next.To? ==> NextIs(m, p.head, p.next))
    && (p.VerifyHead? && p.head != p.tail ==> p.next.To?)
    && (p.Help? ==> Upto(m, p.tail, m.tail) && NextIs(m, p.tail, To(p.last)))
    && (p.PeekFlag? || p.SwingHead? ==> NextIs(m, p.head, To(p.first)) && Upto(m, p.first, m.tail))
    && (p.CountDown? || p.CheckFlag? || p.Taken? ==> Holds(m, t, p.item))
    && (p.CountDown? || p.CheckFlag? ==> !Given(m, p.item))
    && (p.SwingHead? && p.op == Peek ==> Ever(m, p.first))
    && (p.CountDown? && p.op == Peek ==> Ever(m, p.item))
    && (p.Taken? ==> Given(m, p.item))
  }

  ghost predicate CallOk(m: Memory, t: Tid, p: PC) { EnqueueOk(m, t, p) && RemoveOk(m, t, p) }

  /** What a step of thread t may do to the memory. */
  ghost predicate Evolves(m: Memory, m': Memory, t: Tid) {
    && |m.heap| <= |m'.heap|
    && (forall a :: 0 <= a < |m.heap| ==> NodeEvolves(m.heap[a], m'.heap[a], t))
    && At(m, m.head) <= At(m', m'.head)
    && At(m, m.tail) <= At(m', m'.tail)
  }

  ghost predicate NodeEvolves(x: Node, x': Node, t: Tid) {
    && x'.owner == x.owner && x'.value == x.value
    && (x'.at == x.at || (x.at < 0 && x.owner == t))
    && (x'.next == x.next || x.next == Nil)
    && (x'.out == x.out || x.out == Nobody)
    && (x.ever ==> x'.ever)
    && (x'.given == x.given || x.out == By(t))
  }

  // ---- The memory operations ---------------------------------------------

  lemma AllocOk(m: Memory, value: int, t: Tid)
    requires MemOk(m)
    ensures var m' := m.Alloc(value, t); MemOk(m') && Evolves(m, m', t) && Abs(m') == Abs(m)
  {
    var m' := m.Alloc(value, t);
    forall i | 0 <= i < |m'.chain| ensures OnChain(m', i) { assert OnChain(m, i); }
    forall a | 0 <= a < |m'.heap| ensures NodeOk(m', a) { if a < |m.heap| { assert NodeOk(m, a); } }
  }

  /** What the link compare-and-swap relies on. */
  ghost predicate MayLink(m: Memory, last: Addr, node: Addr, t: Tid) {
    MemOk(m) && Fresh(m, t, node) && Upto(m, last, m.tail) && NextIs(m, last, Nil)
  }

  lemma LinkNodes(m: Memory, last: Addr, node: Addr, t: Tid, a: Addr)
    requires MayLink(m, last, node, t) && a < |m.heap|
    ensures NodeOk(m.Link(last, node), a)
  {
    hide EndsOk;
    assert NodeOk(m, last) && NodeOk(m, node) && NodeOk(m, a);
  }

  lemma LinkEnds(m: Memory, last: Addr, node: Addr, t: Tid)
    requires MayLink(m, last, node, t)
    ensures var m' := m.Link(last, node);
            && EndsOk(m') && Evolves(m, m', t) && NextIs(m', last, To(node)) && Upto(m', last, m'.tail)
            && m'.chain[At(m', m'.head) + 1..] == m.chain[At(m, m.head) + 1..] + [node]
  {
    assert NodeOk(m, last) && NodeOk(m, node);
  }

  lemma LinkOk(m: Memory, last: Addr, node: Addr, t: Tid)
    requires MayLink(m, last, node, t)
    ensures var m' := m.Link(last, node);
            && MemOk(m') && Evolves(m, m', t) && Abs(m') == Abs(m) + [node]
            && NextIs(m', last, To(node)) && Upto(m', last, m'.tail)
  {
    hide EndsOk, NodeOk, Evolves;
    var m' := m.Link(last, node);
    LinkEnds(m, last, node, t);
    forall i | 0 <= i < |m'.chain| ensures OnChain(m', i) { if i < |m.chain| { assert OnChain(m, i); } }
    forall a | 0 <= a < |m'.heap| ensures NodeOk(m', a) { LinkNodes(m, last, node, t, a); }
  }

  lemma SwingOk(m: Memory, expected: Addr, next: Addr, t: Tid)
    requires MemOk(m) && Upto(m, expected, m.tail) && NextIs(m, expected, To(next))
    ensures var m' := m.Swing(expected, next); MemOk(m') && Evolves(m, m', t) && Abs(m') == Abs(m)
  {
    var m' := m.Swing(expected, next);
    NextOf(m, expected);
    forall i | 0 <= i < |m'.chain| ensures OnChain(m', i) { assert OnChain(m, i); }
    forall a | 0 <= a < |m'.heap| ensures NodeOk(m', a) { assert NodeOk(m, a); }
  }

  /** The next pointer of a linked node is nil or leads one place further. */
  lemma NextOf(m: Memory, a: Addr)
    requires ChainOk(m) && 0 <= At(m, a)
    ensures m.heap[a].next.To? <==> At(m, a) + 1 < |m.chain|
    ensures m.heap[a].next.To? ==> m.heap[a].next.a == m.chain[At(m, a) + 1] && At(m, m.heap[a].next.a) == At(m, a) + 1
  {
    assert NodeOk(m, a);
    if At(m, a) + 1 < |m.chain| { assert OnChain(m, At(m, a) + 1); }
  }

  lemma UnlinkOk(m: Memory, first: Addr, t: Tid)
    requires MemOk(m) && NextIs(m, m.head, To(first)) && Upto(m, first, m.tail)
    ensures var m' := m.Unlink(first, t);
            && MemOk(m') && Evolves(m, m', t) && Abs(m) == [first] + Abs(m') && Holds(m', t, first)
            && !Given(m', first) && (Ever(m, first) ==> Ever(m', first))
  {
    var m' := m.Unlink(first, t);
    NextOf(m, m.head);
    assert NodeOk(m, first);
    forall i | 0 <= i < |m'.chain| ensures OnChain(m', i) { assert OnChain(m, i); }
    forall a | 0 <= a < |m'.heap| ensures NodeOk(m', a) { assert NodeOk(m, a); }
  }

  lemma FlagOk(m: Memory, x: Addr, flag: bool, t: Tid)
    requires MemOk(m)
    ensures var m' := m.Flag(x, flag); MemOk(m') && Evolves(m, m', t) && Abs(m') == Abs(m)
  {
    var m' := m.Flag(x, flag);
    forall i | 0 <= i < |m'.chain| ensures OnChain(m', i) { assert OnChain(m, i); }
    forall a | 0 <= a < |m'.heap| ensures NodeOk(m', a) { assert NodeOk(m, a); }
  }

  lemma GiveOk(m: Memory, x: Addr, t: Tid)
    requires MemOk(m) && Holds(m, t, x)
    ensures var m' := m.Give(x);
            MemOk(m') && Evolves(m, m', t) && Abs(m') == Abs(m) && Holds(m', t, x) && Given(m', x)
  {
    var m' := m.Give(x);
    forall i | 0 <= i < |m'.chain| ensures OnChain(m', i) { assert OnChain(m, i); }
    forall a | 0 <= a < |m'.heap| ensures NodeOk(m', a) { assert NodeOk(m, a); }
  }

  lemma AddOk(m: Memory, d: int, t: Tid)
    requires MemOk(m)
    ensures var m' := m.Add(d); MemOk(m') && Evolves(m, m', t) && Abs(m') == Abs(m)
  {
    var m' := m.Add(d);
    forall i | 0 <= i < |m'.chain| ensures OnChain(m', i) { assert OnChain(m, i); }
    forall a | 0 <= a < |m'.heap| ensures NodeOk(m', a) { assert NodeOk(m, a); }
  }

  lemma SameOk(m: Memory, t: Tid)
    requires MemOk(m)
    ensures Evolves(m, m, t)
  {
  }

  lemma DistinctPlaces(m: Memory, a: Addr, b: Addr)
    requires ChainOk(m) && 0 <= At(m, a) && 0 <= At(m, b) && a != b
    ensures At(m, a) != At(m, b)
  {
    assert NodeOk(m, a) && NodeOk(m, b);
  }

  // ---- Steps -------------------------------------------------------------

  lemma StepEnqueue(m: Memory, t: Tid, p: PC)
    requires MemOk(m) && Typed(p, |m.heap|) && EnqueueOk(m, t, p) && Enqueues(p)
    ensures var (m', p') := DoEnqueue(m, t, p);
            && MemOk(m') && Evolves(m, m', t) && CallOk(m', t, p')
            && Abs(m') == (if p.LinkNode? && p'.SwingTail? then Abs(m) + [p.node] else Abs(m))
  {
    hide MemOk, Evolves, Abs, Memory.Link, Memory.Add, Holds, Given, Ever;
    SameOk(m, t);
    assert Upto(m, m.tail, m.tail) by { TailLinked(m); }
    if p.LinkNode? && m.heap[p.tail].next == Nil {
      LinkOk(m, p.tail, p.node, t);
    } else if p.HelpTail? {
      SwingOk(m, p.tail, p.last, t);
    } else if p.SwingTail? {
      SwingOk(m, p.tail, p.node, t);
    } else if p.CountUp? {
      AddOk(m, 1, t);
    }
  }

  lemma TailLinked(m: Memory)
    requires MemOk(m)
    ensures Upto(m, m.head, m.tail)
  {
  }

  lemma StepRead(m: Memory, t: Tid, p: PC, now: nat)
    requires MemOk(m) && Typed(p, |m.heap|) && RemoveOk(m, t, p) && Reads(p)
    ensures var (m', p') := DoRead(m, t, p, now);
            MemOk(m') && Evolves(m, m', t) && CallOk(m', t, p') && Abs(m') == Abs(m)
  {
    hide MemOk, Evolves, Abs, Holds, Given, Ever;
    SameOk(m, t);
    TailLinked(m);
    if p.ReadNext? || p.VerifyHead? {
      NextPlace(m, p.head, p.tail);
    } else if p.Help? {
      SwingOk(m, p.tail, p.last, t);
    }
  }

  lemma NextPlace(m: Memory, head: Addr, tail: Addr)
    requires MemOk(m) && Upto(m, head, tail) && Upto(m, tail, m.tail)
    ensures head != tail ==> m.heap[head].next.To? && Upto(m, m.heap[head].next.a, m.tail)
  {
    NextOf(m, head);
    if head != tail { DistinctPlaces(m, head, tail); }
  }

  lemma StepUnlink(m: Memory, t: Tid, p: PC)
    requires MemOk(m) && Typed(p, |m.heap|) && RemoveOk(m, t, p) && (p.PeekFlag? || p.SwingHead?)
    ensures var (m', p') := DoRemove(m, t, p);
            && MemOk(m') && Evolves(m, m', t) && CallOk(m', t, p')
            && Abs(m) == (if p.SwingHead? && p'.CountDown? then [p.first] + Abs(m') else Abs(m'))
  {
    hide MemOk, Evolves, Abs, Memory.Unlink, Memory.Give;
    SameOk(m, t);
    if p.SwingHead? && m.head == p.head {
      UnlinkOk(m, p.first, t);
    } else if p.PeekFlag? {
      CancelledOnce(m, p.first);
    }
  }

  lemma StepDecide(m: Memory, t: Tid, p: PC)
    requires MemOk(m) && Typed(p, |m.heap|) && RemoveOk(m, t, p) && (p.CountDown? || p.CheckFlag?)
    ensures var (m', p') := DoRemove(m, t, p);
            MemOk(m') && Evolves(m, m', t) && CallOk(m', t, p') && Abs(m) == Abs(m')
  {
    hide MemOk, Evolves, Abs, Memory.Unlink, Memory.Give;
    SameOk(m, t);
    if p.CountDown? {
      AddOk(m, -1, t);
    } else if !m.heap[p.item].cancelled {
      GiveOk(m, p.item, t);
    }
  }

  lemma CancelledOnce(m: Memory, a: Addr)
    requires MemOk(m) && a < |m.heap|
    ensures m.heap[a].cancelled ==> Ever(m, a)
  {
    assert NodeOk(m, a);
  }

  lemma StepOutside(m: Memory, t: Tid, p: PC, a: Action, now: nat)
    requires MemOk(m)
    ensures var (m', p') := DoOutside(m, t, p, a, now);
            MemOk(m') && Evolves(m, m', t) && CallOk(m', t, p') && Abs(m') == Abs(m)
  {
    hide MemOk, Evolves, Abs;
    SameOk(m, t);
    if p.Idle? && a.CallEnqueue? {
      AllocOk(m, a.value, t);
    } else if p.Idle? && a.SetFlag? {
      FlagOk(m, a.a, a.flag, t);
    }
  }

  /** What stays true under the steps of another thread. */
  lemma Stable(m: Memory, m': Memory, t: Tid, u: Tid)
    requires Evolves(m, m', t) && u != t
    ensures forall a, b :: Upto(m, a, b) ==> Upto(m', a, b)
    ensures forall a :: Upto(m, a, m.tail) ==> Upto(m', a, m'.tail)
    ensures forall a :: Upto(m, a, m.head) ==> Upto(m', a, m'.head)
    ensures forall a, x :: NextIs(m, a, To(x)) ==> NextIs(m', a, To(x))
    ensures forall a :: Fresh(m, u, a) ==> Fresh(m', u, a)
    ensures forall a :: Holds(m, u, a) ==> Holds(m', u, a) && (Given(m', a) <==> Given(m, a))
    ensures forall a :: Ever(m, a) ==> Ever(m', a)
  {
  }

  lemma OthersCall(m: Memory, m': Memory, t: Tid, u: Tid, p: PC)
    requires Evolves(m, m', t) && u != t && CallOk(m, u, p)
    ensures CallOk(m', u, p)
  {
    hide Evolves, Upto, NextIs, Fresh, Holds, Given, Ever;
    Stable(m, m', t, u);
  }

  /** The two steps that change the abstract queue. */
  predicate Links(p: PC, p': PC) { p.LinkNode? && p'.SwingTail? }

  predicate Unlinks(p: PC, p': PC) { p.SwingHead? && p'.CountDown? }

  /** Removed and not yet subtracted from the size counter; linked and not yet added to it. */
  function Uncounted(p: PC): int { if p.CountDown? then 1 else 0 }

  function Unadded(p: PC): int { if p.SwingTail? || p.CountUp? then 1 else 0 }

  ghost predicate SizeKept(m: Memory, p: PC, m': Memory, p': PC)
    requires MemOk(m) && MemOk(m')
  {
    m'.size - |Abs(m')| - Uncounted(p') + Unadded(p') == m.size - |Abs(m)| - Uncounted(p) + Unadded(p)
  }

  ghost predicate Refines(m: Memory, p: PC, m': Memory, p': PC)
    requires MemOk(m) && MemOk(m')
  {
    if Links(p, p') then Abs(m') == Abs(m) + [p.node] && m'.popped == m.popped
    else if Unlinks(p, p') then Abs(m) == [p.first] + Abs(m') && m'.popped == m.popped + [p.first]
    else Abs(m') == Abs(m) && m'.popped == m.popped
  }

  lemma DoOk(m: Memory, t: Tid, p: PC, a: Action, now: nat)
    requires MemOk(m) && Typed(p, |m.heap|) && CallOk(m, t, p)
    ensures var (m', p') := Do(m, t, p, a, now);
            && MemOk(m') && Evolves(m, m', t) && CallOk(m', t, p')
            && Refines(m, p, m', p') && SizeKept(m, p, m', p')
  {
    hide MemOk, Evolves, Abs, EnqueueOk, RemoveOk;
    if Enqueues(p) {
      StepEnqueue(m, t, p);
    } else if Reads(p) {
      StepRead(m, t, p, now);
    } else if p.PeekFlag? || p.SwingHead? {
      StepUnlink(m, t, p);
    } else if Removes(p) {
      StepDecide(m, t, p);
    } else {
      StepOutside(m, t, p, a, now);
    }
  }

  ghost predicate Safe(s: State) {
    && MemOk(s.m)
    && s.m.size == |Abs(s.m)| + Total(s.pc, Uncounted) - Total(s.pc, Unadded)
    && (forall t {:trigger CallOk(s.m, t, s.pc[t])} :: t in s.pc ==> CallOk(s.m, t, s.pc[t]))
  }

  lemma InitSafe(threads: set<Tid>)
    ensures Safe(Init(threads)) && Abs(Init(threads).m) == []
  {
    var m := Init(threads).m;
    assert OnChain(m, 0) && NodeOk(m, 0);
    TotalZero(Init(threads).pc, Uncounted);
    TotalZero(Init(threads).pc, Unadded);
  }

  /** Every step keeps the invariant, and changes the queue by one link, one removal or nothing. */
  lemma StepSafe(s: State, t: Tid, a: Action)
    requires Safe(s)
    ensures Safe(Step(s, t, a))
    ensures var s' := Step(s, t, a);
            if t in s.pc then Enabled(s, t) && Refines(s.m, s.pc[t], s'.m, s'.pc[t]) && Evolves(s.m, s'.m, t)
            else s'.m == s.m && s'.pc == s.pc
  {
    hide MemOk, Evolves, Abs, Do, Refines;
    if t in s.pc {
      assert CallOk(s.m, t, s.pc[t]);
      var s' := Step(s, t, a);
      DoOk(s.m, t, s.pc[t], a, s.now);
      TotalUpdate(s.pc, Uncounted, t, s'.pc[t]);
      TotalUpdate(s.pc, Unadded, t, s'.pc[t]);
      forall u | u in s'.pc ensures CallOk(s'.m, u, s'.pc[u]) {
        if u != t { OthersCall(s.m, s'.m, t, u, s.pc[u]); }
      }
    }
  }

  lemma {:induction false} ExecSafe(threads: set<Tid>, run: seq<Event>)
    ensures Safe(Exec(threads, run)) && Exec(threads, run).now == |run| && Exec(threads, run).pc.Keys == threads
  {
    hide Safe, Do;
    if run == [] {
      InitSafe(threads);
    } else {
      var k := |run| - 1;
      ExecSafe(threads, run[..k]);
      StepSafe(Exec(threads, run[..k]), run[k].0, run[k].1);
    }
  }

  // ---- Hindsight ---------------------------------------------------------

  /** s0 is the state in which p, whose call goes on in s, loaded the next pointer of the head it had read. */
  ghost predicate Loaded(s0: State, s: State, head: Addr, next: Pointer) {
    && NextIs(s0.m, head, next) && Upto(s0.m, head, s0.m.head)
    && At(s0.m, head) == At(s.m, head) && At(s0.m, s0.m.head) <= At(s.m, s.m.head)
  }

  predicate Looks(p: PC) { p.VerifyHead? || p.PeekFlag? || p.Peeked? || p.Nothing? }

  predicate Calls(p: PC) { Reads(p) || Removes(p) || p.Peeked? || p.Nothing? }

  function Seen(p: PC): nat { if Looks(p) then p.seen else 0 }

  function Since(p: PC): nat { if Calls(p) then p.since else 0 }

  /** What the call saw at its load, in the light of what it has checked since. */
  ghost predicate Hindsight(s0: State, s: State, p: PC)
    requires MemOk(s0.m) && Looks(p)
  {
    && (p.VerifyHead? ==> Loaded(s0, s, p.head, p.next))
    && (p.PeekFlag? ==> Abs(s0.m) != [] && Abs(s0.m)[0] == p.first)
    && (p.Peeked? ==> Abs(s0.m) != [] && Abs(s0.m)[0] == p.item)
    && (p.Nothing? ==> Abs(s0.m) == [])
  }

  ghost predicate Witnessed(threads: set<Tid>, run: seq<Event>, t: Tid)
    requires t in Exec(threads, run).pc
  {
    var p := Exec(threads, run).pc[t];
    && Since(p) <= |run|
    && (Looks(p) ==> Since(p) <= Seen(p) <= |run| && Safe(Exec(threads, run[..Seen(p)]))
                     && Hindsight(Exec(threads, run[..Seen(p)]), Exec(threads, run), p))
  }

  /** When the head has not moved since it was read, the pointer loaded in between was to the first node. */
  lemma HeadUnmoved(s0: State, s: State, head: Addr, next: Pointer)
    requires MemOk(s0.m) && MemOk(s.m) && Loaded(s0, s, head, next) && s.m.head == head
    ensures if next == Nil then Abs(s0.m) == [] else Abs(s0.m) != [] && Abs(s0.m)[0] == next.a
  {
    if s0.m.head != head { DistinctPlaces(s0.m, s0.m.head, head); }
    NextOf(s0.m, head);
  }

  /** The stepping thread's view of its own load. */
  lemma StepHindsight(s0: State, s: State, t: Tid, a: Action)
    requires MemOk(s0.m) && Safe(s) && t in s.pc && Looks(s.pc[t]) && Hindsight(s0, s, s.pc[t])
    requires Looks(Step(s, t, a).pc[t])
    ensures Hindsight(s0, Step(s, t, a), Step(s, t, a).pc[t])
  {
    hide MemOk, Abs, Evolves, EnqueueOk;
    var p := s.pc[t];
    assert CallOk(s.m, t, p);
    if p.VerifyHead? && s.m.head == p.head { HeadUnmoved(s0, s, p.head, p.next); }
  }

  lemma OthersHindsight(s0: State, s: State, s': State, t: Tid, p: PC)
    requires MemOk(s0.m) && Evolves(s.m, s'.m, t) && Looks(p) && Hindsight(s0, s, p)
    ensures Hindsight(s0, s', p)
  {
    hide MemOk, Abs;
  }

  lemma {:induction false} ExecWitnessed(threads: set<Tid>, run: seq<Event>, t: Tid)
    requires t in threads
    ensures t in Exec(threads, run).pc && Witnessed(threads, run, t)
  {
    hide Safe, Do, Hindsight;
    ExecSafe(threads, run);
    if run == [] {
      assert Init(threads).pc[t] == Idle;
    } else {
      var k := |run| - 1;
      var s, u, a := Exec(threads, run[..k]), run[k].0, run[k].1;
      ExecSafe(threads, run[..k]);
      ExecWitnessed(threads, run[..k], t);
      StepWitnessed(threads, run, t);
    }
  }

  ghost predicate Times(p: PC, p': PC, now: nat) {
    && (Since(p') == Since(p) || Since(p') == 0 || (!Calls(p) && Since(p') == now))
    && (Looks(p') ==> Since(p') == Since(p) && if Looks(p) then Seen(p') == Seen(p) else p.ReadNext? && Seen(p') == now)
  }

  /** When a call starts and when it loads the next pointer, by the clock of the run. */
  lemma DoTimes(m: Memory, t: Tid, p: PC, a: Action, now: nat)
    requires Typed(p, |m.heap|)
    ensures var p' := Do(m, t, p, a, now).1;
            Times(p, p', now)
  {
  }

  lemma {:induction false} StepWitnessed(threads: set<Tid>, run: seq<Event>, t: Tid)
    requires run != [] && t in Exec(threads, run[..|run| - 1]).pc && Witnessed(threads, run[..|run| - 1], t)
    ensures t in Exec(threads, run).pc && Witnessed(threads, run, t)
  {
    hide Hindsight, Safe, Do, Looks, Calls, Step, Seen, Since;
    var k := |run| - 1;
    var s := Exec(threads, run[..k]);
    ExecSafe(threads, run);
    ExecSafe(threads, run[..k]);
    StepTimes(s, t, run[k].0, run[k].1);
    var p, p' := s.pc[t], Exec(threads, run).pc[t];
    if Looks(p') {
      if Looks(p) {
        assert run[..k][..Seen(p)] == run[..Seen(p)];
      } else {
        assert run[..k] == run[..Seen(p')];
      }
      StepView(Exec(threads, run[..Seen(p')]), s, t, run[k].0, run[k].1);
    }
  }

  lemma StepTimes(s: State, t: Tid, u: Tid, a: Action)
    requires Safe(s) && t in s.pc
    ensures var s' := Step(s, u, a);
            && t in s'.pc && s'.now == s.now + 1
            && Times(s.pc[t], s'.pc[t], s.now)
  {
    hide MemOk, Evolves, Abs, CallOk, Do, Refines;
    StepSafe(s, u, a);
    if u == t { DoTimes(s.m, t, s.pc[t], a, s.now); }
  }

  /** A look at the head survives the steps of every thread. */
  lemma StepView(s0: State, s: State, t: Tid, u: Tid, a: Action)
    requires Safe(s0) && Safe(s) && t in s.pc && t in Step(s, u, a).pc && Looks(Step(s, u, a).pc[t])
    requires if Looks(s.pc[t]) then Hindsight(s0, s, s.pc[t]) else s0 == s
    ensures Hindsight(s0, Step(s, u, a), Step(s, u, a).pc[t])
  {
    hide Hindsight, MemOk, Evolves, Abs, CallOk, Do, Refines, Calls, Looks, Reads, Removes;
    StepSafe(s, u, a);
    StepTimes(s, t, u, a);
    var s', p := Step(s, u, a), s.pc[t];
    if u == t {
      if Looks(p) { StepHindsight(s0, s, t, a); } else { FirstLook(s, t, a); }
    } else if u in s.pc {
      OthersHindsight(s0, s, s', u, p);
    } else {
      SameOk(s.m, t);
      OthersHindsight(s0, s, s', t, p);
    }
  }

  lemma FirstLook(s: State, t: Tid, a: Action)
    requires Safe(s) && t in s.pc && s.pc[t].ReadNext? && Enabled(s, t)
    ensures Looks(Step(s, t, a).pc[t]) && Hindsight(s, Step(s, t, a), Step(s, t, a).pc[t])
  {
    hide MemOk, Abs, Evolves;
    assert CallOk(s.m, t, s.pc[t]);
  }

  // ---- Theorems ----------------------------------------------------------

  lemma {:induction false} ChainLeads(m: Memory, i: nat)
    requires ChainOk(m) && i < |m.chain|
    ensures Leads(m.heap, m.chain[i], m.chain[i + 1..])
    decreases |m.chain| - i
  {
    assert OnChain(m, i);
    NextOf(m, m.chain[i]);
    if i + 1 == |m.chain| {
      assert m.chain[i + 1..] == [];
    } else {
      ChainLeads(m, i + 1);
      assert m.chain[i + 1..][1..] == m.chain[i + 2..];
    }
  }

  /** In every reachable state the pointers from head spell out the queue, which reaches tail at its
      last or second-to-last node. */
  lemma {:induction false} ListWellFormed(threads: set<Tid>, run: seq<Event>)
    ensures var m := Exec(threads, run).m;
            && MemOk(m) && Leads(m.heap, m.head, Abs(m))
            && var nodes := [m.head] + Abs(m);
               m.tail == nodes[|nodes| - 1] || (|nodes| > 1 && m.tail == nodes[|nodes| - 2])
  {
    hide CallOk, Do, Exec, Step;
    ExecSafe(threads, run);
    var m := Exec(threads, run).m;
    assert NodeOk(m, m.head) && NodeOk(m, m.tail);
    ChainLeads(m, At(m, m.head));
  }

  /** Nodes leave in the order they were linked, each at most once. */
  lemma {:induction false} LinkOrder(threads: set<Tid>, run: seq<Event>)
    ensures var m := Exec(threads, run).m;
            && MemOk(m) && m.popped + Abs(m) == m.chain[1..]
            && forall i, j :: 0 <= i < j < |m.chain| ==> m.chain[i] != m.chain[j]
  {
    hide CallOk, Do, Exec, Step;
    ExecSafe(threads, run);
    var m := Exec(threads, run).m;
    forall i, j | 0 <= i < j < |m.chain| ensures m.chain[i] != m.chain[j] {
      assert OnChain(m, i) && OnChain(m, j);
    }
  }

  /** No step of any thread dereferences nil or an address that was not allocated. */
  lemma {:induction false} NoBadDereference(threads: set<Tid>, run: seq<Event>, t: Tid)
    requires t in threads
    ensures t in Exec(threads, run).pc && Typed(Exec(threads, run).pc[t], |Exec(threads, run).m.heap|)
  {
    hide Do, Abs, MemOk;
    ExecSafe(threads, run);
    var s := Exec(threads, run);
    assert CallOk(s.m, t, s.pc[t]);
  }

  /** Event i of the run makes a Dequeue return x. */
  ghost predicate Takes(threads: set<Tid>, run: seq<Event>, i: nat, x: Addr)
    requires i < |run|
  {
    var s, s', t := Exec(threads, run[..i]), Exec(threads, run[..i + 1]), run[i].0;
    t in s.pc && t in s'.pc && s.pc[t] != Taken(x) && s'.pc[t] == Taken(x)
  }

  /** A node was not returned before the step that returns it and was after it; it stays so. */
  lemma {:induction false} GivenStep(threads: set<Tid>, run: seq<Event>, i: nat, x: Addr)
    requires i < |run|
    ensures var m, m' := Exec(threads, run[..i]).m, Exec(threads, run[..i + 1]).m;
            && (Given(m, x) ==> Given(m', x))
            && (Takes(threads, run, i, x) ==> !Given(m, x) && Given(m', x))
  {
    hide Do, Abs, MemOk, EnqueueOk, Refines, Upto, NextIs, Fresh;
    var s, t, a := Exec(threads, run[..i]), run[i].0, run[i].1;
    assert run[..i + 1][..i] == run[..i];
    ExecSafe(threads, run[..i]);
    StepSafe(s, t, a);
    if t in s.pc {
      assert CallOk(s.m, t, s.pc[t]) && CallOk(Step(s, t, a).m, t, Step(s, t, a).pc[t]);
      GivenStays(s, t, a, x);
      if Step(s, t, a).pc[t] == Taken(x) && s.pc[t] != Taken(x) { TakenFromCheck(s, t, a); }
    }
  }

  lemma GivenStays(s: State, t: Tid, a: Action, x: Addr)
    requires Safe(s) && Enabled(s, t)
    ensures Given(s.m, x) ==> Given(Step(s, t, a).m, x)
  {
    hide MemOk, Abs, EnqueueOk, RemoveOk;
  }

  lemma TakenFromCheck(s: State, t: Tid, a: Action)
    requires Enabled(s, t) && Step(s, t, a).pc[t].Taken?
    ensures s.pc[t].CheckFlag? && s.pc[t].item == Step(s, t, a).pc[t].item
  {
  }

  lemma {:induction false} GivenPersists(threads: set<Tid>, run: seq<Event>, i: nat, j: nat, x: Addr)
    requires i <= j <= |run| && Given(Exec(threads, run[..i]).m, x)
    ensures Given(Exec(threads, run[..j]).m, x)
    decreases j - i
  {
    hide Exec, Given;
    if i == j {
      assert Given(Exec(threads, run[..j]).m, x);
    } else {
      GivenStep(threads, run, i, x);
      GivenPersists(threads, run, i + 1, j, x);
    }
  }

  /** Over a whole run a node is returned at most once, by whichever threads and however far apart. */
  lemma {:induction false} TakenOnce(threads: set<Tid>, run: seq<Event>, i: nat, j: nat, x: Addr)
    requires i < |run| && j < |run| && Takes(threads, run, i, x) && Takes(threads, run, j, x)
    ensures i == j
  {
    hide Exec, Given, Takes;
    GivenStep(threads, run, i, x);
    GivenStep(threads, run, j, x);
    if i < j {
      GivenPersists(threads, run, i + 1, j, x);
    } else if j < i {
      GivenPersists(threads, run, j + 1, i, x);
    }
  }

  /** What a Dequeue returns was removed from the queue, and was not cancelled when it looked. */
  lemma {:induction false} TakenWasRemoved(threads: set<Tid>, run: seq<Event>, i: nat, x: Addr)
    requires i < |run| && Takes(threads, run, i, x)
    ensures var m := Exec(threads, run[..i]).m; x in m.popped && x < |m.heap| && !m.heap[x].cancelled
  {
    hide Do, EnqueueOk;
    var s, t, a := Exec(threads, run[..i]), run[i].0, run[i].1;
    assert run[..i + 1][..i] == run[..i];
    ExecSafe(threads, run[..i]);
    assert CallOk(s.m, t, s.pc[t]);
    TakenFromCheck(s, t, a);
    CheckDecides(s, t, a);
    assert NodeOk(s.m, x);
    assert s.m.popped[At(s.m, x) - 1] == x;
  }

  lemma CheckDecides(s: State, t: Tid, a: Action)
    requires Enabled(s, t) && s.pc[t].CheckFlag?
    ensures Step(s, t, a).pc[t].Taken? <==> !s.m.heap[s.pc[t].item].cancelled
  {
  }

  /** The thread that removed a for a Dequeue has not yet decided what to do with it. */
  predicate Decides(p: PC, a: Addr) { (p.CheckFlag? || (p.CountDown? && p.op == Dequeue)) && p.item == a }

  /** A removed node was returned, or was cancelled, or is with its remover. */
  ghost predicate Accounted(s: State, a: Addr)
    requires a < |s.m.heap|
  {
    var x := s.m.heap[a];
    x.out.By? && !x.given && !x.ever ==> x.out.t in s.pc && Decides(s.pc[x.out.t], a)
  }

  lemma EnqueueAccounts(m: Memory, t: Tid, p: PC, a: Addr)
    requires Typed(p, |m.heap|) && Enqueues(p) && a < |m.heap|
    ensures var m' := DoEnqueue(m, t, p).0;
            |m'.heap| == |m.heap| && m'.heap[a].out == m.heap[a].out && m'.heap[a].given == m.heap[a].given
            && m'.heap[a].ever == m.heap[a].ever
  {
  }

  /** A step of the removing half: a node counts as returned only by the step that returns it, which has found it not
      cancelled; and its remover passes over it only if it was cancelled. */
  lemma RemoveAccounts(m: Memory, t: Tid, p: PC, a: Addr)
    requires MemOk(m) && Typed(p, |m.heap|) && RemoveOk(m, t, p) && Removes(p) && a < |m.heap|
    ensures var (m', p') := DoRemove(m, t, p);
            && |m'.heap| == |m.heap| && m'.heap[a].ever == m.heap[a].ever
            && (if m'.heap[a].given then m.heap[a].given || (p' == Taken(a) && !m.heap[a].cancelled) else !m.heap[a].given)
            && (m'.heap[a].out == m.heap[a].out || (m'.heap[a].out == By(t) && (Decides(p', a) || m.heap[a].ever)))
            && (Decides(p, a) ==> Decides(p', a) || m'.heap[a].given || m.heap[a].ever)
  {
    hide ChainOk, EndsOk, Upto, NextIs;
    if p.CheckFlag? { CancelledOnce(m, p.item); }
  }

  lemma StepAccounts(s: State, t: Tid, a: Action, x: Addr)
    requires Safe(s) && t in s.pc && Enabled(s, t) && x < |Step(s, t, a).m.heap|
    requires x < |s.m.heap| ==> Accounted(s, x)
    ensures Accounted(Step(s, t, a), x)
  {
    hide MemOk, Abs, EnqueueOk;
    assert CallOk(s.m, t, s.pc[t]);
    var p := s.pc[t];
    if x < |s.m.heap| {
      if Enqueues(p) {
        EnqueueAccounts(s.m, t, p, x);
      } else if Removes(p) {
        RemoveAccounts(s.m, t, p, x);
      }
    }
  }

  /** Nothing is lost: every removed node has been returned by a Dequeue, or was cancelled at some time, or its remover
      is about to look at its flag. */
  lemma {:induction false} NothingLost(threads: set<Tid>, run: seq<Event>, x: Addr)
    requires x < |Exec(threads, run).m.heap|
    ensures Accounted(Exec(threads, run), x)
  {
    hide Safe, Do, Accounted;
    if run == [] {
      InitAccounts(threads, x);
    } else {
      var k := |run| - 1;
      var s := Exec(threads, run[..k]);
      ExecSafe(threads, run[..k]);
      StepSafe(s, run[k].0, run[k].1);
      if x < |s.m.heap| { NothingLost(threads, run[..k], x); }
      if run[k].0 in s.pc {
        StepAccounts(s, run[k].0, run[k].1, x);
      } else {
        SameAccounts(s, s.(now := s.now + 1), x);
      }
    }
  }

  lemma InitAccounts(threads: set<Tid>, x: Addr)
    requires x < |Init(threads).m.heap|
    ensures Accounted(Init(threads), x)
  {
  }

  lemma SameAccounts(s: State, s': State, x: Addr)
    requires x < |s.m.heap| && Accounted(s, x) && s'.m == s.m && s'.pc == s.pc
    ensures Accounted(s', x)
  {
  }

  /** The size counter is the length of the queue, plus removals not yet subtracted, minus links not yet added. */
  lemma {:induction false} SizeCounter(threads: set<Tid>, run: seq<Event>, removed: set<Tid>, linked: set<Tid>)
    requires var pc := Exec(threads, run).pc;
             && (forall t :: t in removed <==> t in pc && pc[t].CountDown?)
             && (forall t :: t in linked <==> t in pc && (pc[t].SwingTail? || pc[t].CountUp?))
    ensures var m := Exec(threads, run).m;
            MemOk(m) && m.size == |Abs(m)| + |removed| - |linked|
  {
    hide MemOk, Abs, CallOk, Do;
    ExecSafe(threads, run);
    TotalCounts(Exec(threads, run).pc, Uncounted, removed);
    TotalCounts(Exec(threads, run).pc, Unadded, linked);
  }

  /** Each event of a run leaves the queue alone, appends the caller's own new node, or removes the first node. */
  lemma {:induction false} RefinesFifo(threads: set<Tid>, run: seq<Event>, t: Tid, a: Action)
    requires t in threads
    ensures var s, s' := Exec(threads, run), Exec(threads, run + [(t, a)]);
            && MemOk(s.m) && MemOk(s'.m) && t in s.pc && t in s'.pc
            && (|| Abs(s'.m) == Abs(s.m)
                || (Links(s.pc[t], s'.pc[t]) && Abs(s'.m) == Abs(s.m) + [s.pc[t].node] && s.pc[t].node !in s.m.chain)
                || (Unlinks(s.pc[t], s'.pc[t]) && Abs(s.m) == [s'.pc[t].item] + Abs(s'.m)))
  {
    hide Evolves, RemoveOk, Do, Typed;
    var s, run' := Exec(threads, run), run + [(t, a)];
    assert run'[..|run|] == run;
    ExecSafe(threads, run);
    StepSafe(s, t, a);
    assert CallOk(s.m, t, s.pc[t]);
    if s.pc[t].LinkNode? {
      forall i | 0 <= i < |s.m.chain| ensures s.m.chain[i] != s.pc[t].node { assert OnChain(s.m, i); }
    }
    if Unlinks(s.pc[t], Step(s, t, a).pc[t]) { RemovedItem(s, t, a); }
  }

  lemma RemovedItem(s: State, t: Tid, a: Action)
    requires Enabled(s, t) && Unlinks(s.pc[t], Step(s, t, a).pc[t])
    ensures Step(s, t, a).pc[t].item == s.pc[t].first
  {
  }

  /** A call that returns nil did so because the queue was empty at an instant between its start and its return. */
  lemma {:induction false} NilOnlyIfEmpty(threads: set<Tid>, run: seq<Event>, t: Tid)
    requires t in threads && t in Exec(threads, run).pc && Exec(threads, run).pc[t].Nothing?
    ensures var p := Exec(threads, run).pc[t];
            p.since <= p.seen <= |run| && var m := Exec(threads, run[..p.seen]).m; MemOk(m) && Abs(m) == []
  {
    hide MemOk, Abs, CallOk, Do;
    ExecWitnessed(threads, run, t);
  }

  /** The node a peek returns was the first of the queue at an instant between its start and its return. */
  lemma {:induction false} PeekedWasFirst(threads: set<Tid>, run: seq<Event>, t: Tid)
    requires t in threads && t in Exec(threads, run).pc && Exec(threads, run).pc[t].Peeked?
    ensures var p := Exec(threads, run).pc[t];
            p.since <= p.seen <= |run| &&
            var m := Exec(threads, run[..p.seen]).m; MemOk(m) && Abs(m) != [] && Abs(m)[0] == p.item
  {
    hide MemOk, Abs, CallOk, Do;
    ExecWitnessed(threads, run, t);
  }

  // ---- A thread on its own -----------------------------------------------

  /** The state after n steps of t alone. */
  ghost function Alone(s: State, t: Tid, n: nat): State
    decreases n
  {
    if n == 0 then s else Alone(Step(s, t, Run), t, n - 1)
  }

  lemma {:induction false} AloneAdds(s: State, t: Tid, a: nat, b: nat)
    ensures Alone(Alone(s, t, a), t, b) == Alone(s, t, a + b)
    decreases a
  {
    hide Step;
    if a == 0 {
      assert Alone(s, t, a) == s;
    } else {
      AloneAdds(Step(s, t, Run), t, a - 1, b);
    }
  }

  lemma AloneFew(s: State, t: Tid)
    ensures Alone(s, t, 1) == Step(s, t, Run)
    ensures Alone(s, t, 2) == Step(Step(s, t, Run), t, Run)
    ensures Alone(s, t, 3) == Step(Step(Step(s, t, Run), t, Run), t, Run)
  {
    hide Step;
    var s1 := Step(s, t, Run);
    var s2 := Step(s1, t, Run);
    assert Alone(s, t, 1) == Alone(s1, t, 0);
    assert Alone(s, t, 2) == Alone(s1, t, 1) == Alone(s2, t, 0);
    assert Alone(s, t, 3) == Alone(s1, t, 2) == Alone(s2, t, 1) == Alone(Step(s2, t, Run), t, 0);
  }

  /** Where t is and what it has done to the memory, after `more` steps. */
  function Now(s: State, t: Tid, m: Memory, p: PC, more: nat): State { State(m, s.pc[t := p], s.now + more) }

  lemma EnqueueStep(s: State, t: Tid)
    requires Enabled(s, t) && Enqueues(s.pc[t])
    ensures var (m, p) := DoEnqueue(s.m, t, s.pc[t]); Step(s, t, Run) == Now(s, t, m, p, 1)
  {
    hide DoEnqueue, DoRead, DoRemove;
  }

  lemma ReadStep(s: State, t: Tid)
    requires Enabled(s, t) && Reads(s.pc[t])
    ensures var (m, p) := DoRead(s.m, t, s.pc[t], s.now); Step(s, t, Run) == Now(s, t, m, p, 1)
  {
    hide DoEnqueue, DoRead, DoRemove;
  }

  lemma RemoveStep(s: State, t: Tid)
    requires Enabled(s, t) && Removes(s.pc[t])
    ensures var (m, p) := DoRemove(s.m, t, s.pc[t]); Step(s, t, Run) == Now(s, t, m, p, 1)
  {
    hide DoEnqueue, DoRead, DoRemove;
  }

  /** Enqueue looks at the tail, */
  lemma EnqueueLooks(s: State, t: Tid, node: Addr)
    requires t in s.pc && s.pc[t] == LoadTail(node) && s.m.tail < |s.m.heap|
    ensures var next := s.m.heap[s.m.tail].next;
            Alone(s, t, 3) ==
            Now(s, t, s.m, if next == Nil then LinkNode(node, s.m.tail) else HelpTail(node, s.m.tail, next.a), 3)
  {
    hide Step, Alone;
    AloneFew(s, t);
    EnqueueStep(s, t);
    EnqueueStep(Step(s, t, Run), t);
    EnqueueStep(Step(Step(s, t, Run), t, Run), t);
  }

  /** brings a tail that lags behind up to the last node, */
  lemma EnqueueHelps(s: State, t: Tid, node: Addr)
    requires t in s.pc && s.pc[t] == LoadTail(node) && s.m.tail < |s.m.heap| && s.m.heap[s.m.tail].next.To?
    ensures Alone(s, t, 4) == s.(m := s.m.Swing(s.m.tail, s.m.heap[s.m.tail].next.a), now := s.now + 4)
  {
    hide Step, Alone;
    EnqueueLooks(s, t, node);
    AloneAdds(s, t, 3, 1);
    var s1 := Alone(s, t, 3);
    AloneFew(s1, t);
    EnqueueStep(s1, t);
    assert s.pc[t := LoadTail(node)] == s.pc;
  }

  /** and links its node behind it. */
  lemma EnqueueLinks(s: State, t: Tid, node: Addr)
    requires t in s.pc && s.pc[t] == LoadTail(node) && s.m.tail < |s.m.heap| && s.m.heap[s.m.tail].next == Nil
    requires node < |s.m.heap|
    ensures Alone(s, t, 6) == Now(s, t, s.m.Link(s.m.tail, node).Swing(s.m.tail, node).Add(1), Idle, 6)
  {
    hide Step, Alone, Memory.Link;
    EnqueueLooks(s, t, node);
    AloneAdds(s, t, 3, 3);
    var s1 := Alone(s, t, 3);
    AloneFew(s1, t);
    EnqueueStep(s1, t);
    EnqueueStep(Step(s1, t, Run), t);
    EnqueueStep(Step(Step(s1, t, Run), t, Run), t);
  }

  /** The nodes there were have kept what the queue's users put into them. */
  ghost predicate SameNodes(m: Memory, m': Memory) {
    && |m.heap| <= |m'.heap|
    && (forall a :: 0 <= a < |m.heap| ==>
          m'.heap[a].value == m.heap[a].value && m'.heap[a].cancelled == m.heap[a].cancelled && m'.heap[a].owner == m.heap[a].owner)
  }

  lemma LinkSame(m: Memory, last: Addr, node: Addr)
    requires last < |m.heap| && node < |m.heap|
    ensures var m' := m.Link(last, node).Swing(m.tail, node).Add(1);
            && SameNodes(m, m') && |m'.heap| == |m.heap| && m'.tail == node && m'.size == m.size + 1
  {
  }

  lemma TailEnds(m: Memory)
    requires MemOk(m)
    ensures m.tail < |m.heap|
    ensures m.heap[m.tail].next.To? ==> NextIs(m.Swing(m.tail, m.heap[m.tail].next.a), m.heap[m.tail].next.a, Nil)
  {
    NextOf(m, m.tail);
    if m.heap[m.tail].next.To? { NextOf(m, m.heap[m.tail].next.a); }
  }

  /** The link on memory that Enqueue does with a tail that is the last node. */
  lemma LinkLast(m: Memory, node: Addr, t: Tid)
    requires MemOk(m) && Fresh(m, t, node) && NextIs(m, m.tail, Nil)
    ensures var m' := m.Link(m.tail, node).Swing(m.tail, node).Add(1);
            && MemOk(m') && Abs(m') == Abs(m) + [node] && SameNodes(m, m') && |m'.heap| == |m.heap|
            && m'.tail == node && m'.size == m.size + 1
  {
    hide MemOk, Abs, Memory.Link, Memory.Swing, Memory.Add, SameNodes, Evolves;
    TailLinked(m);
    assert Upto(m, m.tail, m.tail);
    LinkOk(m, m.tail, node, t);
    var m1 := m.Link(m.tail, node);
    SwingOk(m1, m.tail, node, t);
    AddOk(m1.Swing(m.tail, node), 1, t);
    LinkSame(m, m.tail, node);
  }

  /** An undisturbed Enqueue puts a new node with its value at the end of the queue, and counts it. */
  lemma {:induction false} EnqueueAlone(s: State, t: Tid, value: int) returns (n: nat)
    requires Safe(s) && t in s.pc && s.pc[t].Idle?
    ensures var s', node := Alone(Step(s, t, CallEnqueue(value)), t, n), |s.m.heap|;
            && MemOk(s'.m) && s'.pc == s.pc && SameNodes(s.m, s'.m) && |s'.m.heap| == node + 1
            && Abs(s'.m) == Abs(s.m) + [node] && s'.m.tail == node && s'.m.size == s.m.size + 1
            && s'.m.heap[node].value == value && s'.m.heap[node].owner == t && !s'.m.heap[node].cancelled
  {
    hide MemOk, Abs, Alone, Step, Memory.Link, Memory.Swing, Memory.Add;
    var node := |s.m.heap|;
    var m1 := s.m.Alloc(value, t);
    AllocOk(s.m, value, t);
    var s1 := Step(s, t, CallEnqueue(value));
    CallStep(s, t, CallEnqueue(value));
    assert s1 == Now(s, t, m1, LoadTail(node), 1);
    TailEnds(m1);
    var s2 := s1;
    n := 0;
    assert Alone(s1, t, 0) == s1 by { AloneNone(s1, t); }
    if m1.heap[m1.tail].next.To? {
      EnqueueHelps(s1, t, node);
      n := 4;
      s2 := Alone(s1, t, 4);
      assert Upto(m1, m1.tail, m1.tail) by { TailLinked(m1); }
      SwingOk(m1, m1.tail, m1.heap[m1.tail].next.a, t);
      SwingSame(m1, m1.heap[m1.tail].next.a);
    }
    TailEnds(s2.m);
    EnqueueLinks(s2, t, node);
    AloneAdds(s1, t, n, 6);
    n := n + 6;
    LinkLast(s2.m, node, t);
    assert s2.pc[t := Idle] == s.pc;
  }

  lemma AloneNone(s: State, t: Tid)
    ensures Alone(s, t, 0) == s
  {
  }

  lemma SwingSame(m: Memory, last: Addr)
    ensures var m' := m.Swing(m.tail, last); m' == m.(tail := last)
  {
  }

  lemma CallStep(s: State, t: Tid, a: Action)
    requires t in s.pc && s.pc[t].Idle?
    ensures var (m, p) := DoOutside(s.m, t, Idle, a, s.now); Step(s, t, a) == Now(s, t, m, p, 1)
  {
    hide DoOutside, DoEnqueue, DoRead, DoRemove;
  }

  /** The node at the front, if there is one. */
  lemma FrontNode(m: Memory)
    requires MemOk(m)
    ensures m.head < |m.heap|
    ensures Abs(m) == [] ==> m.head == m.tail && m.heap[m.head].next == Nil
    ensures Abs(m) != [] ==> m.heap[m.head].next == To(Abs(m)[0]) && Abs(m)[0] < |m.heap| && Abs(m)[0] != m.head
    ensures m.head != m.tail ==> Abs(m) != [] && Upto(m, Abs(m)[0], m.tail)
  {
    NextOf(m, m.head);
    if m.head != m.tail { DistinctPlaces(m, m.head, m.tail); }
    if Abs(m) != [] { assert OnChain(m, At(m, m.head) + 1); }
  }

  /** Dequeue and peek look at the head, the tail and the node behind the head, and go on from there. */
  lemma LookAtEnds(s: State, t: Tid, op: Op, since: nat)
    requires t in s.pc && s.pc[t] == LoadHead(op, since)
    ensures Alone(s, t, 2) == Now(s, t, s.m, ReadNext(op, since, s.m.head, s.m.tail), 2)
  {
    hide Step, Alone, Memory.Swing;
    AloneFew(s, t);
    ReadStep(s, t);
    ReadStep(Step(s, t, Run), t);
  }

  lemma LookStep(s: State, t: Tid, op: Op, since: nat)
    requires t in s.pc && s.pc[t] == LoadHead(op, since) && s.m.head < |s.m.heap|
    ensures Alone(s, t, 3) ==
            Now(s, t, s.m, VerifyHead(op, since, s.m.head, s.m.tail, s.m.heap[s.m.head].next, s.now + 2), 3)
  {
    hide Step, Alone, Memory.Swing;
    LookAtEnds(s, t, op, since);
    var s2 := Alone(s, t, 2);
    AloneAdds(s, t, 2, 1);
    AloneFew(s2, t);
    ReadStep(s2, t);
  }

  lemma LookAtHead(s: State, t: Tid, op: Op, since: nat)
    requires t in s.pc && s.pc[t] == LoadHead(op, since) && s.m.head < |s.m.heap|
    requires s.m.head != s.m.tail ==> s.m.heap[s.m.head].next.To?
    ensures var (head, next) := (s.m.head, s.m.heap[s.m.head].next);
            Alone(s, t, 4) == Now(s, t, s.m,
              if head == s.m.tail then
                if next == Nil then Nothing(op, since, s.now + 2) else Help(op, since, head, next.a)
              else if op == Peek then PeekFlag(since, head, next.a, s.now + 2)
              else SwingHead(op, since, head, next.a), 4)
  {
    hide Step, Alone;
    LookStep(s, t, op, since);
    AloneAdds(s, t, 3, 1);
    AloneFew(Alone(s, t, 3), t);
    ReadStep(Alone(s, t, 3), t);
  }

  lemma LookHelps(s: State, t: Tid, op: Op, since: nat)
    requires t in s.pc && s.pc[t] == LoadHead(op, since) && s.m.head < |s.m.heap|
    requires s.m.head == s.m.tail && s.m.heap[s.m.head].next.To?
    ensures Alone(s, t, 5) == s.(m := s.m.(tail := s.m.heap[s.m.head].next.a), now := s.now + 5)
  {
    hide Step, Alone;
    LookAtHead(s, t, op, since);
    AloneAdds(s, t, 4, 1);
    AloneFew(Alone(s, t, 4), t);
    ReadStep(Alone(s, t, 4), t);
    assert s.pc[t := LoadHead(op, since)] == s.pc;
  }

  /** Removing the first node, with the tail ahead of the head. */
  lemma SwingAway(s: State, t: Tid, op: Op, since: nat, head: Addr, first: Addr)
    requires t in s.pc && s.pc[t] == SwingHead(op, since, head, first) && s.m.head == head && first < |s.m.heap|
    ensures Alone(s, t, 2) ==
            Now(s, t, s.m.Unlink(first, t).Add(-1), if op == Peek then LoadHead(op, since) else CheckFlag(since, first), 2)
  {
    hide Step, Alone, Memory.Unlink;
    AloneFew(s, t);
    RemoveStep(s, t);
    RemoveStep(Step(s, t, Run), t);
  }

  /** A turn of the loop that drops a cancelled node, seven steps for either operation. */
  lemma PeekDrops(s: State, t: Tid, since: nat)
    requires t in s.pc && s.pc[t] == LoadHead(Peek, since) && s.m.head < |s.m.heap| && s.m.head != s.m.tail
    requires var next := s.m.heap[s.m.head].next;
             next.To? && next.a < |s.m.heap| && s.m.heap[next.a].cancelled
    ensures var first := s.m.heap[s.m.head].next.a;
            Alone(s, t, 7) == s.(m := s.m.Unlink(first, t).Add(-1), now := s.now + 7)
  {
    hide Step, Alone, Memory.Unlink;
    var first := s.m.heap[s.m.head].next.a;
    LookAtHead(s, t, Peek, since);
    var s1 := Alone(s, t, 4);
    AloneAdds(s, t, 4, 1);
    AloneFew(s1, t);
    RemoveStep(s1, t);
    var s2 := Alone(s, t, 5);
    assert s2 == Now(s, t, s.m, SwingHead(Peek, since, s.m.head, first), 5);
    SwingAway(s2, t, Peek, since, s.m.head, first);
    AloneAdds(s, t, 5, 2);
    assert s.pc[t := LoadHead(Peek, since)] == s.pc;
  }

  lemma DequeueDrops(s: State, t: Tid, since: nat)
    requires t in s.pc && s.pc[t] == LoadHead(Dequeue, since) && s.m.head < |s.m.heap| && s.m.head != s.m.tail
    requires var next := s.m.heap[s.m.head].next;
             next.To? && next.a < |s.m.heap| && s.m.heap[next.a].cancelled
    ensures var first := s.m.heap[s.m.head].next.a;
            Alone(s, t, 7) == s.(m := s.m.Unlink(first, t).Add(-1), now := s.now + 7)
  {
    hide Step, Alone;
    var first := s.m.heap[s.m.head].next.a;
    LookAtHead(s, t, Dequeue, since);
    SwingAway(Alone(s, t, 4), t, Dequeue, since, s.m.head, first);
    AloneAdds(s, t, 4, 2);
    var s2 := Alone(s, t, 6);
    AloneAdds(s, t, 6, 1);
    AloneFew(s2, t);
    RemoveStep(s2, t);
    assert s.pc[t := LoadHead(Dequeue, since)] == s.pc;
  }

  /** The turn that ends with a live node. */
  lemma LookTakes(s: State, t: Tid, since: nat)
    requires t in s.pc && s.pc[t] == LoadHead(Dequeue, since) && s.m.head < |s.m.heap| && s.m.head != s.m.tail
    requires var next := s.m.heap[s.m.head].next;
             next.To? && next.a < |s.m.heap| && !s.m.heap[next.a].cancelled
    ensures var first := s.m.heap[s.m.head].next.a;
            Alone(s, t, 7) == Now(s, t, s.m.Unlink(first, t).Add(-1).Give(first), Taken(first), 7)
  {
    hide Step, Alone;
    var first := s.m.heap[s.m.head].next.a;
    LookAtHead(s, t, Dequeue, since);
    SwingAway(Alone(s, t, 4), t, Dequeue, since, s.m.head, first);
    AloneAdds(s, t, 4, 2);
    var s2 := Alone(s, t, 6);
    AloneAdds(s, t, 6, 1);
    AloneFew(s2, t);
    RemoveStep(s2, t);
  }

  lemma LookPeeks(s: State, t: Tid, since: nat)
    requires t in s.pc && s.pc[t] == LoadHead(Peek, since) && s.m.head < |s.m.heap| && s.m.head != s.m.tail
    requires var next := s.m.heap[s.m.head].next;
             next.To? && next.a < |s.m.heap| && !s.m.heap[next.a].cancelled
    ensures Alone(s, t, 5) == Now(s, t, s.m, Peeked(s.m.heap[s.m.head].next.a, since, s.now + 2), 5)
  {
    hide Step, Alone;
    LookAtHead(s, t, Peek, since);
    var s1 := Alone(s, t, 4);
    AloneAdds(s, t, 4, 1);
    AloneFew(s1, t);
    RemoveStep(s1, t);
  }

  /** The first k nodes of the queue are cancelled. */
  ghost predicate DeadUpto(m: Memory, k: nat)
    requires MemOk(m)
  {
    k <= |Abs(m)| && forall i :: 0 <= i < k ==> Abs(m)[i] < |m.heap| && m.heap[Abs(m)[i]].cancelled
  }

  /** What a call of op makes of the queue, of which the first k nodes were cancelled and the next one was not. */
  ghost predicate Answers(m: Memory, op: Op, k: nat, m': Memory, p': PC)
    requires MemOk(m)
  {
    && MemOk(m') && DeadUpto(m, k) && SameNodes(m, m') && |m'.heap| == |m.heap|
    && (k == |Abs(m)| ==> p'.Nothing? && Abs(m') == [] && m'.size == m.size - k)
    && (k < |Abs(m)| ==> Abs(m)[k] < |m.heap| && !m.heap[Abs(m)[k]].cancelled)
    && (k < |Abs(m)| && op == Dequeue ==> p' == Taken(Abs(m)[k]) && Abs(m') == Abs(m)[k + 1..] && m'.size == m.size - k - 1)
    && (k < |Abs(m)| && op == Peek ==> p'.Peeked? && p'.item == Abs(m)[k] && Abs(m') == Abs(m)[k..] && m'.size == m.size - k)
  }

  /** Removing the first node, on memory. */
  lemma FirstUnlinked(m: Memory, t: Tid)
    requires MemOk(m) && m.head != m.tail
    ensures Abs(m) != [] && Abs(m)[0] < |m.heap|
    ensures var m' := m.Unlink(Abs(m)[0], t).Add(-1);
            && MemOk(m') && Abs(m') == Abs(m)[1..] && SameNodes(m, m') && |m'.heap| == |m.heap| && m'.size == m.size - 1
            && Holds(m', t, Abs(m)[0])
  {
    FrontNode(m);
    var first := Abs(m)[0];
    UnlinkSame(m, first, t);
    hide MemOk, Abs, Memory.Unlink, SameNodes, Evolves;
    UnlinkOk(m, first, t);
    AddOk(m.Unlink(first, t), -1, t);
  }

  lemma UnlinkSame(m: Memory, first: Addr, t: Tid)
    requires first < |m.heap|
    ensures var m' := m.Unlink(first, t).Add(-1); SameNodes(m, m') && |m'.heap| == |m.heap| && m'.size == m.size - 1
    ensures forall x :: Holds(m.Unlink(first, t), t, x) ==> Holds(m.Unlink(first, t).Add(-1), t, x)
  {
  }

  lemma GiveSame(m: Memory, x: Addr)
    requires x < |m.heap|
    ensures var m' := m.Give(x); SameNodes(m, m') && |m'.heap| == |m.heap| && m'.size == m.size
  {
  }

  lemma SameAgain(m: Memory, m1: Memory, m2: Memory)
    requires SameNodes(m, m1) && SameNodes(m1, m2)
    ensures SameNodes(m, m2)
  {
  }

  /** Behind a cancelled first node the rest decides. */
  lemma AnswersBehind(m: Memory, m1: Memory, op: Op, k: nat, m': Memory, p': PC)
    requires MemOk(m) && MemOk(m1) && Abs(m) != [] && Abs(m)[0] < |m.heap| && m.heap[Abs(m)[0]].cancelled
    requires Abs(m1) == Abs(m)[1..] && SameNodes(m, m1) && |m1.heap| == |m.heap| && m1.size == m.size - 1
    requires Answers(m1, op, k, m', p')
    ensures Answers(m, op, k + 1, m', p')
  {
    hide MemOk, Abs;
    SameAgain(m, m1, m');
    forall i | 0 <= i < k + 1 ensures Abs(m)[i] < |m.heap| && m.heap[Abs(m)[i]].cancelled {
      if i > 0 { assert Abs(m)[i] == Abs(m1)[i - 1]; }
    }
    if k < |Abs(m1)| {
      assert Abs(m)[k + 1] == Abs(m1)[k];
      assert Abs(m1)[k + 1..] == Abs(m)[k + 2..] && Abs(m1)[k..] == Abs(m)[k + 1..];
    }
  }

  lemma AnswersSame(m: Memory, m1: Memory, op: Op, k: nat, m': Memory, p': PC)
    requires MemOk(m) && MemOk(m1) && Abs(m1) == Abs(m) && m1.heap == m.heap && m1.size == m.size
    requires Answers(m1, op, k, m', p')
    ensures Answers(m, op, k, m', p')
  {
    hide MemOk, Abs;
  }

  /** The last turn. */
  lemma AnswersNow(m: Memory, op: Op, t: Tid, m': Memory, p': PC)
    requires MemOk(m) && m.head != m.tail && Abs(m) != [] && Abs(m)[0] < |m.heap| && !m.heap[Abs(m)[0]].cancelled
    requires if op == Dequeue then m' == m.Unlink(Abs(m)[0], t).Add(-1).Give(Abs(m)[0]) && p' == Taken(Abs(m)[0])
             else m' == m && p'.Peeked? && p'.item == Abs(m)[0]
    ensures Answers(m, op, 0, m', p')
  {
    var first := Abs(m)[0];
    FirstUnlinked(m, t);
    hide MemOk, Abs, Memory.Unlink, Memory.Add, Memory.Give, Holds, Evolves;
    if op == Dequeue {
      var m1 := m.Unlink(first, t).Add(-1);
      GiveOk(m1, first, t);
      GiveSame(m1, first);
      SameAgain(m, m1, m');
    } else {
      assert Abs(m)[0..] == Abs(m);
    }
  }

  lemma SwungSame(m: Memory, t: Tid)
    requires MemOk(m) && m.head == m.tail && Abs(m) != []
    ensures var m1 := m.(tail := Abs(m)[0]);
            MemOk(m1) && Abs(m1) == Abs(m) && m1.head != m1.tail && m1.heap == m.heap && m1.size == m.size
  {
    FrontNode(m);
    SwingSame(m, Abs(m)[0]);
    hide MemOk, Abs, Memory.Swing, Evolves;
    assert Upto(m, m.tail, m.tail) by { TailLinked(m); }
    SwingOk(m, m.tail, Abs(m)[0], t);
  }

  /** An undisturbed Dequeue returns the first node that is not cancelled, and so does an undisturbed peek, which leaves
      it in the queue; both drop the cancelled nodes before it, and return nil if there is no other. */
  lemma {:induction false} AnswersAlone(s: State, t: Tid, op: Op, since: nat) returns (n: nat, k: nat)
    requires MemOk(s.m) && t in s.pc && s.pc[t] == LoadHead(op, since)
    ensures var s' := Alone(s, t, n);
            t in s'.pc && s'.pc == s.pc[t := s'.pc[t]] && Answers(s.m, op, k, s'.m, s'.pc[t])
    decreases |Abs(s.m)|, s.m.head == s.m.tail
  {
    hide MemOk, Abs, Alone, Step, Answers, Memory.Unlink, Memory.Add, Memory.Give;
    var m := s.m;
    FrontNode(m);
    if Abs(m) == [] {
      LookAtHead(s, t, op, since);
      n, k := 4, 0;
      NothingThere(m, op, Alone(s, t, n).pc[t]);
    } else if m.head == m.tail {
      LookHelps(s, t, op, since);
      SwungSame(m, t);
      var s1 := Alone(s, t, 5);
      n, k := AnswersAlone(s1, t, op, since);
      AloneAdds(s, t, 5, n);
      n := 5 + n;
      AnswersSame(m, s1.m, op, k, Alone(s, t, n).m, Alone(s, t, n).pc[t]);
    } else if m.heap[Abs(m)[0]].cancelled {
      if op == Peek { PeekDrops(s, t, since); } else { DequeueDrops(s, t, since); }
      FirstUnlinked(m, t);
      var s1 := Alone(s, t, 7);
      n, k := AnswersAlone(s1, t, op, since);
      AloneAdds(s, t, 7, n);
      n := 7 + n;
      AnswersBehind(m, s1.m, op, k, Alone(s, t, n).m, Alone(s, t, n).pc[t]);
      k := k + 1;
    } else if op == Dequeue {
      LookTakes(s, t, since);
      n, k := 7, 0;
      AnswersNow(m, op, t, Alone(s, t, n).m, Alone(s, t, n).pc[t]);
    } else {
      LookPeeks(s, t, since);
      n, k := 5, 0;
      AnswersNow(m, op, t, Alone(s, t, n).m, Alone(s, t, n).pc[t]);
    }
  }

  lemma NothingThere(m: Memory, op: Op, p: PC)
    requires MemOk(m) && Abs(m) == [] && p.Nothing?
    ensures Answers(m, op, 0, m, p)
  {
  }

  /** The same from the call on, in every reachable state. */
  lemma {:induction false} CallAlone(s: State, t: Tid, op: Op) returns (n: nat, k: nat)
    requires Safe(s) && t in s.pc && s.pc[t].Idle?
    ensures var s' := Alone(Step(s, t, Call(op)), t, n);
            t in s'.pc && s'.pc == s.pc[t := s'.pc[t]] && Answers(s.m, op, k, s'.m, s'.pc[t])
  {
    hide MemOk, Abs, Alone, Step, Answers;
    CallStep(s, t, Call(op));
    var s1 := Step(s, t, Call(op));
    n, k := AnswersAlone(s1, t, op, s.now);
  }
}
