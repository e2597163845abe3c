/**
 Group.Do of singleflight.go, lines 47-91, with Forget: any number of threads,
 one access to shared memory a step.  The function passed to Do runs for any
 number of steps, ends with any value and error, and does not panic.
 */
module Singleflight {
  import opened Threads

  type Key = string

  datatype Outcome = Outcome(val: int, err: int)

  /** A call record: `val`, `err` and `done` (the wait group) are its fields; `key` and `leader` say
      who made it and `outcome` what the function of that leader returned. */
  datatype Record = Record(val: int, err: int, done: bool, key: Key, leader: Tid, outcome: Ended)

  datatype Ended = Running | With(o: Outcome)

  datatype PC =
    | Idle
    | Lock(key: Key)
    | Look(key: Key)
    | JoinUnlock(key: Key, c: nat)
    | CountShared(key: Key, c: nat)
    | Join(key: Key, c: nat)               // wg.Wait
    | ReadShared(key: Key, c: nat)
    | LeadUnlock(key: Key, c: nat)
    | CountTotal(key: Key, c: nat)
    | InFn(key: Key, c: nat)
    | SetVal(key: Key, c: nat, o: Outcome)
    | SetErr(key: Key, c: nat, o: Outcome)
    | WgDone(key: Key, c: nat)
    | Relock(key: Key, c: nat)
    | Delete(key: Key, c: nat)
    | LastUnlock(key: Key, c: nat)
    | ReadOwn(key: Key, c: nat)
    | Return(key: Key, c: nat, o: Outcome, shared: bool)
    | ForgetLock(key: Key)
    | ForgetDelete(key: Key)
    | ForgetUnlock(key: Key)

  datatype Action = Do(key: Key) | Forget(key: Key) | Finish(o: Outcome) | Run

  datatype Mutex = Free | HeldBy(t: Tid)

  /** `started` counts the calls of Do. */
  datatype Memory = Memory(mu: Mutex, calls: map<Key, nat>, recs: seq<Record>, total: int, shared: int, started: int)

  datatype State = State(m: Memory, pc: map<Tid, PC>)

  function Init(threads: set<Tid>): State {
    State(Memory(Free, map[], [], 0, 0, 0), map t | t in threads :: Idle)
  }

  predicate Typed(p: PC, n: nat) {
    p.Join? || p.ReadShared? || p.InFn? || p.SetVal? || p.SetErr? || p.WgDone? || p.ReadOwn? ==> p.c < n
  }

  /** From the call to the table lookup, and Forget. */
  function DoTable(m: Memory, t: Tid, p: PC, a: Action): (Memory, PC) {
    match p
    case Idle =>
      if a.Do? then (m.(started := m.started + 1), Lock(a.key))
      else if a.Forget? then (m, ForgetLock(a.key))
      else (m, p)
    case Lock(key) => if m.mu == Free then (m.(mu := HeldBy(t)), Look(key)) else (m, p)
    case Look(key) =>
      if key in m.calls then (m, JoinUnlock(key, m.calls[key]))
      else
        var c := |m.recs|;
        (m.(recs := m.recs + [Record(0, 0, false, key, t, Running)], calls := m.calls[key := c]), LeadUnlock(key, c))
    case Relock(key, c) => if m.mu == Free then (m.(mu := HeldBy(t)), Delete(key, c)) else (m, p)
    case Delete(key, c) => (m.(calls := m.calls - {key}), LastUnlock(key, c))
    case LastUnlock(key, c) => (m.(mu := Free), ReadOwn(key, c))
    case ForgetLock(key) => if m.mu == Free then (m.(mu := HeldBy(t)), ForgetDelete(key)) else (m, p)
    case ForgetDelete(key) => (m.(calls := m.calls - {key}), ForgetUnlock(key))
    case ForgetUnlock(key) => (m.(mu := Free), Idle)
    case _ => (m, p)
  }

  function DoRecord(m: Memory, t: Tid, p: PC, a: Action): (Memory, PC)
    requires Typed(p, |m.recs|)
  {
    match p
    case JoinUnlock(key, c) => (m.(mu := Free), CountShared(key, c))
    case CountShared(key, c) => (m.(shared := m.shared + 1), Join(key, c))
    case Join(key, c) => if m.recs[c].done then (m, ReadShared(key, c)) else (m, p)
    case ReadShared(key, c) => (m, Return(key, c, Outcome(m.recs[c].val, m.recs[c].err), true))
    case LeadUnlock(key, c) => (m.(mu := Free), CountTotal(key, c))
    case CountTotal(key, c) => (m.(total := m.total + 1), InFn(key, c))
    case InFn(key, c) =>
      if a.Finish? then (m.(recs := m.recs[c := m.recs[c].(outcome := With(a.o))]), SetVal(key, c, a.o)) else (m, p)
    case SetVal(key, c, o) => (m.(recs := m.recs[c := m.recs[c].(val := o.val)]), SetErr(key, c, o))
    case SetErr(key, c, o) => (m.(recs := m.recs[c := m.recs[c].(err := o.err)]), WgDone(key, c))
    case WgDone(key, c) => (m.(recs := m.recs[c := m.recs[c].(done := true)]), Relock(key, c))
    case ReadOwn(key, c) => (m, Return(key, c, Outcome(m.recs[c].val, m.recs[c].err), false))
    case Return(key, c, o, shared) => (m, Idle)
    case _ => (m, p)
  }

  predicate AtTable(p: PC) {
    p.Idle? || p.Lock? || p.Look? || p.Relock? || p.Delete? || p.LastUnlock? || p.ForgetLock? || p.ForgetDelete?
    || p.ForgetUnlock?
  }

  function DoStep(m: Memory, t: Tid, p: PC, a: Action): (Memory, PC)
    requires Typed(p, |m.recs|)
  {
    if AtTable(p) then DoTable(m, t, p, a) else DoRecord(m, t, p, a)
  }

  predicate Enabled(s: State, t: Tid) { t in s.pc && Typed(s.pc[t], |s.m.recs|) }

  function Step(s: State, t: Tid, a: Action): State {
    if Enabled(s, t) then
      var (m, p) := DoStep(s.m, t, s.pc[t], a);
      State(m, s.pc[t := p])
    else s
  }

  type Event = (Tid, Action)

  ghost function Exec(threads: set<Tid>, run: seq<Event>): State {
    if run == [] then Init(threads)
    else Step(Exec(threads, run[..|run| - 1]), run[|run| - 1].0, run[|run| - 1].1)
  }

  // ---- Invariants --------------------------------------------------------

  predicate HasMutex(p: PC) {
    p.Look? || p.JoinUnlock? || p.LeadUnlock? || p.Delete? || p.LastUnlock? || p.ForgetDelete? || p.ForgetUnlock?
  }

  predicate Leads(p: PC) {
    p.LeadUnlock? || p.CountTotal? || p.InFn? || p.SetVal? || p.SetErr? || p.WgDone? || p.Relock? || p.Delete?
    || p.LastUnlock? || p.ReadOwn?
  }

  predicate Joins(p: PC) { p.JoinUnlock? || p.CountShared? || p.Join? || p.ReadShared? }

  /** A leader whose record is in the table, as long as nobody forgets it. */
  predicate InFlight(p: PC) { Leads(p) && !p.LastUnlock? && !p.ReadOwn? }

  predicate BeforeEnd(p: PC) { p.LeadUnlock? || p.CountTotal? || p.InFn? }

  predicate BeforeDone(p: PC) { BeforeEnd(p) || p.SetVal? || p.SetErr? || p.WgDone? }

  ghost predicate CallOk(m: Memory, t: Tid, p: PC) {
    && (HasMutex(p) <==> m.mu == HeldBy(t))
    && (Leads(p) || Joins(p) || p.Return? ==> p.c < |m.recs| && m.recs[p.c].key == p.key)
    && (Leads(p) ==>
          var x := m.recs[p.c];
          && x.leader == t
          && (x.done <==> !BeforeDone(p))
          && (x.outcome == Running <==> BeforeEnd(p))
          && (p.SetVal? || p.SetErr? ==> x.outcome == With(p.o))
          && (p.SetErr? ==> x.val == p.o.val)
          && (p.WgDone? ==> x.outcome == With(Outcome(x.val, x.err))))
    && (p.ReadShared? ==> m.recs[p.c].done)
    && (p.Return? ==> m.recs[p.c].outcome == With(p.o))
  }

  /** A finished record carries what its function returned; an unfinished one has a leader at work on it. */
  ghost predicate RecordOk(m: Memory, pc: map<Tid, PC>, c: nat)
    requires c < |m.recs|
  {
    var x := m.recs[c];
    if x.done then x.outcome == With(Outcome(x.val, x.err))
    else x.leader in pc && BeforeDone(pc[x.leader]) && pc[x.leader].c == c
  }

  function Uncounted(p: PC): int {
    if p.Lock? || p.Look? || p.JoinUnlock? || p.CountShared? || p.LeadUnlock? || p.CountTotal? then 1 else 0
  }

  function UncountedLeader(p: PC): int { if p.LeadUnlock? || p.CountTotal? then 1 else 0 }

  ghost predicate Safe(s: State) {
    && (forall t {:trigger CallOk(s.m, t, s.pc[t])} :: t in s.pc ==> CallOk(s.m, t, s.pc[t]))
    && (forall c {:trigger RecordOk(s.m, s.pc, c)} :: 0 <= c < |s.m.recs| ==> RecordOk(s.m, s.pc, c))
    && TableOk(s.m)
    && (s.m.mu.HeldBy? ==> s.m.mu.t in s.pc)
    && s.m.total + s.m.shared + Total(s.pc, Uncounted) == s.m.started
    && s.m.total + Total(s.pc, UncountedLeader) == |s.m.recs|
  }

  lemma InitSafe(threads: set<Tid>)
    ensures Safe(Init(threads))
  {
    TotalZero(Init(threads).pc, Uncounted);
    TotalZero(Init(threads).pc, UncountedLeader);
  }

  /** What a step of thread t may do to a record. */
  ghost predicate Evolves(x: Record, x': Record, t: Tid) {
    && x'.key == x.key && x'.leader == x.leader
    && (x' == x || (x.leader == t && !x.done))
    && (x.outcome != Running ==> x'.outcome == x.outcome)
    && (x.done ==> x'.done)
  }

  ghost predicate TableOk(m: Memory) {
    forall key :: key in m.calls ==> m.calls[key] < |m.recs| && m.recs[m.calls[key]].key == key
  }

  ghost predicate MutexEvolves(mu: Mutex, mu': Mutex, t: Tid) {
    mu' == mu || (mu' == Free && mu == HeldBy(t)) || (mu == Free && mu' == HeldBy(t))
  }

  /** What every step of thread t guarantees. */
  ghost predicate Guarantee(m: Memory, t: Tid, p: PC, m': Memory, p': PC) {
    && |m.recs| <= |m'.recs|
    && (forall c :: 0 <= c < |m.recs| ==> Evolves(m.recs[c], m'.recs[c], t))
    && MutexEvolves(m.mu, m'.mu, t)
    && m'.total + m'.shared + Uncounted(p') - m'.started == m.total + m.shared + Uncounted(p) - m.started
    && m'.total + UncountedLeader(p') - |m'.recs| == m.total + UncountedLeader(p) - |m.recs|
  }

  lemma TableCall(m: Memory, t: Tid, p: PC, a: Action)
    requires AtTable(p) && CallOk(m, t, p) && TableOk(m)
    ensures var (m', p') := DoTable(m, t, p, a); CallOk(m', t, p')
  {
  }

  lemma TableGuarantee(m: Memory, t: Tid, p: PC, a: Action)
    requires AtTable(p) && (HasMutex(p) <==> m.mu == HeldBy(t)) && TableOk(m)
    ensures var (m', p') := DoTable(m, t, p, a); TableOk(m') && Guarantee(m, t, p, m', p')
  {
  }

  ghost predicate Settled(x: Record) { x.done ==> x.outcome == With(Outcome(x.val, x.err)) }

  lemma RecordCall(m: Memory, t: Tid, p: PC, a: Action)
    requires !AtTable(p) && Typed(p, |m.recs|) && CallOk(m, t, p)
    requires p.ReadShared? || p.ReadOwn? ==> Settled(m.recs[p.c])
    ensures var (m', p') := DoRecord(m, t, p, a); CallOk(m', t, p')
  {
  }

  lemma RecordGuarantee(m: Memory, t: Tid, p: PC, a: Action)
    requires !AtTable(p) && Typed(p, |m.recs|) && CallOk(m, t, p)
    ensures var (m', p') := DoRecord(m, t, p, a); Guarantee(m, t, p, m', p')
  {
  }

  lemma RecordTable(m: Memory, t: Tid, p: PC, a: Action)
    requires !AtTable(p) && Typed(p, |m.recs|) && TableOk(m)
    ensures var (m', p') := DoRecord(m, t, p, a); TableOk(m')
  {
  }

  lemma OthersCall(m: Memory, m': Memory, t: Tid, u: Tid, p: PC)
    requires u != t && CallOk(m, u, p) && |m.recs| <= |m'.recs|
    requires forall c :: 0 <= c < |m.recs| ==> Evolves(m.recs[c], m'.recs[c], t)
    requires MutexEvolves(m.mu, m'.mu, t)
    ensures CallOk(m', u, p)
  {
  }

  lemma SafeThread(s: State, t: Tid)
    requires Safe(s) && t in s.pc
    ensures CallOk(s.m, t, s.pc[t]) && Enabled(s, t)
    ensures s.pc[t].ReadShared? || s.pc[t].ReadOwn? ==> Settled(s.m.recs[s.pc[t].c])
  {
    assert CallOk(s.m, t, s.pc[t]);
    if s.pc[t].ReadShared? || s.pc[t].ReadOwn? { assert RecordOk(s.m, s.pc, s.pc[t].c); }
  }

  lemma MutexOf(m: Memory, t: Tid, p: PC)
    requires CallOk(m, t, p)
    ensures HasMutex(p) <==> m.mu == HeldBy(t)
  {
  }

  lemma StepOk(s: State, t: Tid, a: Action)
    requires Safe(s) && t in s.pc
    ensures var s' := Step(s, t, a);
            Enabled(s, t) && CallOk(s'.m, t, s'.pc[t]) && TableOk(s'.m) && Guarantee(s.m, t, s.pc[t], s'.m, s'.pc[t])
  {
    hide CallOk, RecordOk, Guarantee, DoTable, DoRecord;
    SafeThread(s, t);
    var p := s.pc[t];
    if AtTable(p) {
      TableCall(s.m, t, p, a);
      assert HasMutex(p) <==> s.m.mu == HeldBy(t) by { MutexOf(s.m, t, p); }
      TableGuarantee(s.m, t, p, a);
    } else {
      RecordCall(s.m, t, p, a);
      RecordGuarantee(s.m, t, p, a);
      RecordTable(s.m, t, p, a);
    }
  }

  lemma StepRecord(s: State, t: Tid, a: Action, c: nat)
    requires Safe(s) && t in s.pc && c < |Step(s, t, a).m.recs|
    ensures var s' := Step(s, t, a); RecordOk(s'.m, s'.pc, c)
  {
    hide TableOk, HasMutex, Joins;
    SafeThread(s, t);
    if c < |s.m.recs| { assert RecordOk(s.m, s.pc, c); }
  }

  /** Every step of every thread keeps the invariant, Forget included. */
  lemma StepSafe(s: State, t: Tid, a: Action)
    requires Safe(s)
    ensures Safe(Step(s, t, a))
  {
    hide DoStep, CallOk, RecordOk, Evolves;
    if t in s.pc {
      var s' := Step(s, t, a);
      StepOk(s, t, a);
      TotalUpdate(s.pc, Uncounted, t, s'.pc[t]);
      TotalUpdate(s.pc, UncountedLeader, t, s'.pc[t]);
      forall u | u in s'.pc ensures CallOk(s'.m, u, s'.pc[u]) {
        if u != t { OthersCall(s.m, s'.m, t, u, s.pc[u]); }
      }
      forall c | 0 <= c < |s'.m.recs| ensures RecordOk(s'.m, s'.pc, c) { StepRecord(s, t, a, c); }
    }
  }

  lemma {:induction false} ExecSafe(threads: set<Tid>, run: seq<Event>)
    ensures Safe(Exec(threads, run)) && Exec(threads, run).pc.Keys == threads
  {
    hide Safe, DoStep;
    if run == [] {
      InitSafe(threads);
    } else {
      var k := |run| - 1;
      ExecSafe(threads, run[..k]);
      StepSafe(Exec(threads, run[..k]), run[k].0, run[k].1);
    }
  }

  // ---- One flight per key ------------------------------------------------

  predicate Forgets(p: PC) { p.ForgetLock? || p.ForgetDelete? || p.ForgetUnlock? }

  /** The thread does not forget key, and if it leads a call of key its record is the one in the table. */
  ghost predicate Flying(m: Memory, key: Key, p: PC) {
    && (Forgets(p) ==> p.key != key)
    && (InFlight(p) && p.key == key ==> key in m.calls && m.calls[key] == p.c)
  }

  ghost predicate AllFlying(s: State, key: Key) {
    forall t {:trigger Flying(s.m, key, s.pc[t])} :: t in s.pc ==> Flying(s.m, key, s.pc[t])
  }

  /** Nobody forgets this key. */
  predicate NeverForgets(run: seq<Event>, key: Key) { forall i :: 0 <= i < |run| ==> run[i].1 != Forget(key) }

  lemma TableFlying(m: Memory, t: Tid, p: PC, a: Action, key: Key)
    requires AtTable(p) && Flying(m, key, p) && a != Forget(key)
    ensures var (m', p') := DoTable(m, t, p, a); Flying(m', key, p')
  {
  }

  lemma RecordFlying(m: Memory, t: Tid, p: PC, a: Action, key: Key)
    requires !AtTable(p) && Typed(p, |m.recs|) && Flying(m, key, p)
    ensures var (m', p') := DoRecord(m, t, p, a); Flying(m', key, p')
  {
  }

  lemma OwnFlying(s: State, t: Tid, a: Action, key: Key)
    requires Safe(s) && t in s.pc && Flying(s.m, key, s.pc[t]) && a != Forget(key)
    ensures var s' := Step(s, t, a); Flying(s'.m, key, s'.pc[t])
  {
    hide RecordOk, TableOk, CallOk, DoTable, DoRecord, AtTable, Flying;
    SafeThread(s, t);
    if AtTable(s.pc[t]) {
      TableFlying(s.m, t, s.pc[t], a, key);
    } else {
      RecordFlying(s.m, t, s.pc[t], a, key);
    }
  }

  /** How a step changes the table. */
  lemma StepTable(s: State, t: Tid, a: Action)
    requires Safe(s) && t in s.pc
    ensures var (m, m', p) := (s.m, Step(s, t, a).m, s.pc[t]);
            || m'.calls == m.calls
            || ((p.Delete? || p.ForgetDelete?) && m'.calls == m.calls - {p.key})
            || (p.Look? && p.key !in m.calls && m'.calls == m.calls[p.key := |m.recs|])
  {
    hide RecordOk, TableOk, CallOk;
    SafeThread(s, t);
  }

  /** The leader that deletes a key deletes its own record, and a new leader finds the key free. */
  lemma StepFlying(s: State, t: Tid, a: Action, u: Tid, key: Key)
    requires Safe(s) && AllFlying(s, key) && t in s.pc && u in s.pc && a != Forget(key)
    ensures var s' := Step(s, t, a); Flying(s'.m, key, s'.pc[u])
  {
    hide RecordOk, DoStep;
    SafeThread(s, t);
    SafeThread(s, u);
    assert Flying(s.m, key, s.pc[u]) && Flying(s.m, key, s.pc[t]);
    StepTable(s, t, a);
    if t == u { OwnFlying(s, t, a, key); }
  }

  lemma {:induction false} ExecFlying(threads: set<Tid>, run: seq<Event>, key: Key)
    requires NeverForgets(run, key)
    ensures AllFlying(Exec(threads, run), key)
  {
    hide Safe, DoStep, Flying, Step;
    if run == [] {
      InitFlying(threads, key);
    } else {
      var k := |run| - 1;
      var s, t, a := Exec(threads, run[..k]), run[k].0, run[k].1;
      ExecSafe(threads, run[..k]);
      ExecFlying(threads, run[..k], key);
      StepAllFlying(s, t, a, key);
    }
  }

  lemma InitFlying(threads: set<Tid>, key: Key)
    ensures AllFlying(Init(threads), key)
  {
  }

  lemma StepAllFlying(s: State, t: Tid, a: Action, key: Key)
    requires Safe(s) && AllFlying(s, key) && a != Forget(key)
    ensures AllFlying(Step(s, t, a), key)
  {
    hide Safe, DoStep, Flying;
    var s' := Step(s, t, a);
    if t in s.pc {
      forall u | u in s'.pc ensures Flying(s'.m, key, s'.pc[u]) { StepFlying(s, t, a, u, key); }
    }
  }

  // ---- Theorems ----------------------------------------------------------

  /** A key that is never forgotten, whatever else is, has its function run by one thread at a time. */
  lemma {:induction false} OneFlightPerKey(threads: set<Tid>, run: seq<Event>, key: Key, t: Tid, u: Tid)
    requires NeverForgets(run, key) && t != u
    requires var pc := Exec(threads, run).pc; t in pc && u in pc && pc[t].InFn? && pc[u].InFn?
    ensures !(Exec(threads, run).pc[t].key == Exec(threads, run).pc[u].key == key)
  {
    hide DoStep, RecordOk;
    ExecSafe(threads, run);
    ExecFlying(threads, run, key);
    var s := Exec(threads, run);
    SafeThread(s, t);
    SafeThread(s, u);
    assert Flying(s.m, key, s.pc[t]) && Flying(s.m, key, s.pc[u]);
  }

  /** Whoever returns, leader or not, returns the value and the error of the function run for its key by the
      leader of the record it joined. */
  lemma {:induction false} ReturnsLeadersOutcome(threads: set<Tid>, run: seq<Event>, t: Tid)
    requires t in Exec(threads, run).pc && Exec(threads, run).pc[t].Return?
    ensures var s := Exec(threads, run);
            var p := s.pc[t];
            p.c < |s.m.recs| && s.m.recs[p.c].key == p.key && s.m.recs[p.c].outcome == With(p.o)
  {
    hide DoStep, RecordOk;
    ExecSafe(threads, run);
    SafeThread(Exec(threads, run), t);
  }

  /** When no call is in progress, leader calls and shared calls add up to the calls of Do, and every leader
      call has its own record. */
  lemma {:induction false} CallsAddUp(threads: set<Tid>, run: seq<Event>)
    requires forall t :: t in Exec(threads, run).pc ==> Exec(threads, run).pc[t].Idle?
    ensures var m := Exec(threads, run).m; m.total + m.shared == m.started && m.total == |m.recs|
  {
    hide DoStep, RecordOk, CallOk;
    ExecSafe(threads, run);
    TotalZero(Exec(threads, run).pc, Uncounted);
    TotalZero(Exec(threads, run).pc, UncountedLeader);
  }

  ghost predicate Blocked(s: State, t: Tid)
    requires t in s.pc
  {
    var p := s.pc[t];
    || p.Idle?
    || ((p.Lock? || p.Relock? || p.ForgetLock?) && s.m.mu != Free)
    || (p.Join? && p.c < |s.m.recs| && !s.m.recs[p.c].done)
  }

  /** As long as a thread is inside a call, some thread can move: nobody waits for a leader that is gone. */
  lemma {:induction false} NobodyStuck(threads: set<Tid>, run: seq<Event>, t: Tid)
    requires t in Exec(threads, run).pc && !Exec(threads, run).pc[t].Idle?
    ensures exists u :: u in Exec(threads, run).pc && !Blocked(Exec(threads, run), u)
  {
    hide DoStep, Exec, Step;
    ExecSafe(threads, run);
    var s := Exec(threads, run);
    SafeThread(s, t);
    if s.m.mu.HeldBy? {
      SafeThread(s, s.m.mu.t);
      assert !Blocked(s, s.m.mu.t);
    } else if Blocked(s, t) {
      assert RecordOk(s.m, s.pc, s.pc[t].c);
      var u := s.m.recs[s.pc[t].c].leader;
      assert !Blocked(s, u);
    }
  }

  /** A thread cannot move by itself exactly if it is outside a call, waits for the mutex or for a leader, or its
      function is running. */
  lemma MovesExactly(s: State, t: Tid)
    requires Safe(s) && t in s.pc
    ensures Step(s, t, Run) == s <==> Blocked(s, t) || s.pc[t].InFn?
  {
    hide RecordOk, TableOk;
    SafeThread(s, t);
    assert s.pc == s.pc[t := s.pc[t]];
    if Step(s, t, Run) == s { assert Step(s, t, Run).pc[t] == s.pc[t]; }
  }

  // ---- The table ---------------------------------------------------------

  /** The record of key in the table has its leader at work on it, not past the delete. */
  ghost predicate Attended(m: Memory, pc: map<Tid, PC>, key: Key)
    requires key in m.calls
  {
    var c := m.calls[key];
    && c < |m.recs| && m.recs[c].leader in pc
    && var p := pc[m.recs[c].leader]; InFlight(p) && p.c == c && p.key == key
  }

  /** Who joins a record is not its leader, and who returns says whether it is. */
  ghost predicate ShareOk(m: Memory, t: Tid, p: PC) {
    && (Joins(p) ==> p.c < |m.recs| && m.recs[p.c].leader != t)
    && (p.Return? ==> p.c < |m.recs| && (p.shared <==> m.recs[p.c].leader != t))
  }

  ghost predicate Tabled(s: State) {
    && (forall key {:trigger Attended(s.m, s.pc, key)} :: key in s.m.calls ==> Attended(s.m, s.pc, key))
    && (forall t {:trigger ShareOk(s.m, t, s.pc[t])} :: t in s.pc ==> ShareOk(s.m, t, s.pc[t]))
  }

  /** A leader goes on with its record until it deletes the key. */
  lemma LeaderGoesOn(m: Memory, t: Tid, p: PC, a: Action)
    requires Typed(p, |m.recs|) && InFlight(p)
    ensures var (m', p') := DoStep(m, t, p, a);
            if p.Delete? then p.key !in m'.calls else InFlight(p') && p'.c == p.c && p'.key == p.key
  {
  }

  /** A lookup that finds nothing makes the caller the leader. */
  lemma LookLeads(m: Memory, t: Tid, p: PC, a: Action)
    requires p.Look? && p.key !in m.calls
    ensures var (m', p') := DoStep(m, t, p, a);
            p' == LeadUnlock(p.key, |m.recs|) && |m'.recs| == |m.recs| + 1 && m'.recs[|m.recs|].leader == t
  {
  }

  lemma StepAttended(s: State, t: Tid, a: Action, key: Key)
    requires Safe(s) && Tabled(s) && t in s.pc && key in Step(s, t, a).m.calls
    ensures Attended(Step(s, t, a).m, Step(s, t, a).pc, key)
  {
    hide DoStep, RecordOk, CallOk, ShareOk, InFlight;
    SafeThread(s, t);
    StepOk(s, t, a);
    StepTable(s, t, a);
    var s', p := Step(s, t, a), s.pc[t];
    if key in s.m.calls && s'.m.calls[key] == s.m.calls[key] {
      assert Attended(s.m, s.pc, key);
      if s.m.recs[s.m.calls[key]].leader == t { LeaderGoesOn(s.m, t, p, a); }
    } else {
      LookLeads(s.m, t, p, a);
      LeadsFlies(s'.pc[t]);
    }
  }

  lemma LeadsFlies(p: PC)
    requires p.LeadUnlock?
    ensures InFlight(p)
  {
  }

  /** The record that a lookup joins is in the hands of another thread. */
  lemma LookShares(s: State, t: Tid, a: Action)
    requires Safe(s) && Tabled(s) && t in s.pc && s.pc[t].Look? && s.pc[t].key in s.m.calls
    ensures var p' := Step(s, t, a).pc[t]; p' == JoinUnlock(s.pc[t].key, s.m.calls[s.pc[t].key])
    ensures ShareOk(Step(s, t, a).m, t, Step(s, t, a).pc[t])
  {
    hide RecordOk;
    SafeThread(s, t);
    assert Attended(s.m, s.pc, s.pc[t].key);
  }

  lemma OwnShares(m: Memory, t: Tid, p: PC, a: Action)
    requires Typed(p, |m.recs|) && ShareOk(m, t, p) && CallOk(m, t, p) && !(p.Look? && p.key in m.calls)
    ensures var (m', p') := DoStep(m, t, p, a); ShareOk(m', t, p')
  {
  }

  lemma StepShares(s: State, t: Tid, a: Action, u: Tid)
    requires Safe(s) && Tabled(s) && t in s.pc && u in s.pc
    ensures ShareOk(Step(s, t, a).m, u, Step(s, t, a).pc[u])
  {
    hide DoStep, RecordOk, CallOk, Attended;
    SafeThread(s, t);
    StepOk(s, t, a);
    assert ShareOk(s.m, u, s.pc[u]);
    if u == t {
      if s.pc[t].Look? && s.pc[t].key in s.m.calls { LookShares(s, t, a); } else { OwnShares(s.m, t, s.pc[t], a); }
    }
  }

  lemma {:induction false} ExecTabled(threads: set<Tid>, run: seq<Event>)
    ensures Tabled(Exec(threads, run))
  {
    hide Safe, DoStep, Attended, ShareOk;
    if run == [] {
      InitTabled(threads);
    } else {
      var k := |run| - 1;
      var s, t, a := Exec(threads, run[..k]), run[k].0, run[k].1;
      ExecSafe(threads, run[..k]);
      ExecTabled(threads, run[..k]);
      StepTabled(s, t, a);
    }
  }

  lemma InitTabled(threads: set<Tid>)
    ensures Tabled(Init(threads))
  {
  }

  lemma StepTabled(s: State, t: Tid, a: Action)
    requires Safe(s) && Tabled(s)
    ensures Tabled(Step(s, t, a))
  {
    hide Safe, DoStep, Attended, ShareOk;
    var s' := Step(s, t, a);
    if t in s.pc {
      forall key | key in s'.m.calls ensures Attended(s'.m, s'.pc, key) { StepAttended(s, t, a, key); }
      forall u | u in s'.pc ensures ShareOk(s'.m, u, s'.pc[u]) { StepShares(s, t, a, u); }
    }
  }

  /** In every run, Forget included, the leader of each record in the table is still in its call, at work on that record;
      so when no call is in progress the table is empty. */
  lemma {:induction false} TableHoldsFlights(threads: set<Tid>, run: seq<Event>)
    ensures var s := Exec(threads, run);
            && (forall key :: key in s.m.calls ==> Attended(s.m, s.pc, key))
            && ((forall t :: t in s.pc ==> s.pc[t].Idle?) ==> s.m.calls == map[])
  {
    hide Exec, ShareOk;
    ExecTabled(threads, run);
    var s := Exec(threads, run);
    forall key | key in s.m.calls ensures Attended(s.m, s.pc, key) { assert Attended(s.m, s.pc, key); }
  }

  /** Whoever joins a record looked it up while its leader, another thread, was still in its call for that key. */
  lemma {:induction false} JoinsFlight(threads: set<Tid>, run: seq<Event>, t: Tid, a: Action)
    requires var s := Exec(threads, run); t in s.pc && s.pc[t].Look? && Step(s, t, a).pc[t].JoinUnlock?
    ensures var s, p := Exec(threads, run), Step(Exec(threads, run), t, a).pc[t];
            && p.key == s.pc[t].key && p.c < |s.m.recs| && s.m.recs[p.c].leader != t && s.m.recs[p.c].leader in s.pc
            && var l := s.pc[s.m.recs[p.c].leader]; InFlight(l) && l.c == p.c && l.key == p.key
  {
    hide Exec, RecordOk;
    ExecSafe(threads, run);
    ExecTabled(threads, run);
    var s := Exec(threads, run);
    SafeThread(s, t);
    if s.pc[t].key in s.m.calls { assert Attended(s.m, s.pc, s.pc[t].key); }
  }

  /** A call says that its result was shared exactly if another thread's call ran the function. */
  lemma {:induction false} SharedExactly(threads: set<Tid>, run: seq<Event>, t: Tid)
    requires t in Exec(threads, run).pc && Exec(threads, run).pc[t].Return?
    ensures var s := Exec(threads, run);
            s.pc[t].c < |s.m.recs| && (s.pc[t].shared <==> s.m.recs[s.pc[t].c].leader != t)
  {
    hide Exec, Attended;
    ExecTabled(threads, run);
    assert ShareOk(Exec(threads, run).m, t, Exec(threads, run).pc[t]);
  }

  // ---- Forget ------------------------------------------------------------

  lemma {:induction false} ExecSnoc(threads: set<Tid>, run: seq<Event>, e: Event)
    ensures Exec(threads, run + [e]) == Step(Exec(threads, run), e.0, e.1)
  {
    assert (run + [e])[..|run|] == run;
  }

  /** From any state with a free mutex, a caller that does not find its key enters the table. */
  lemma {:induction false} Enters(threads: set<Tid>, run: seq<Event>, t: Tid, key: Key) returns (run': seq<Event>)
    requires var s := Exec(threads, run); s.m.mu == Free && key !in s.m.calls && t in s.pc && s.pc[t] == Idle
    ensures var (s, s') := (Exec(threads, run), Exec(threads, run'));
            && s'.m.mu == HeldBy(t) && s'.pc == s.pc[t := LeadUnlock(key, |s.m.recs|)]
            && s'.m.calls == s.m.calls[key := |s.m.recs|] && |s'.m.recs| == |s.m.recs| + 1
  {
    hide Exec, DoRecord;
    var s := Exec(threads, run);
    ExecSnoc(threads, run, (t, Do(key)));
    ExecSnoc(threads, run + [(t, Do(key))], (t, Run));
    var s2 := Exec(threads, run + [(t, Do(key))] + [(t, Run)]);
    assert s2 == State(s.m.(started := s.m.started + 1, mu := HeldBy(t)), s.pc[t := Look(key)]);
    run' := run + [(t, Do(key))] + [(t, Run)] + [(t, Run)];
    ExecSnoc(threads, run + [(t, Do(key))] + [(t, Run)], (t, Run));
  }

  lemma {:induction false} Runs(threads: set<Tid>, run: seq<Event>, t: Tid, key: Key) returns (run': seq<Event>)
    requires var s := Exec(threads, run); s.m.mu == Free && key !in s.m.calls && t in s.pc && s.pc[t] == Idle
    ensures var (s, s') := (Exec(threads, run), Exec(threads, run'));
            && s'.m.mu == Free && s'.pc == s.pc[t := InFn(key, |s.m.recs|)]
            && s'.m.calls == s.m.calls[key := |s.m.recs|] && |s'.m.recs| == |s.m.recs| + 1
  {
    hide Exec, DoTable;
    run' := Enters(threads, run, t, key);
    ExecSnoc(threads, run', (t, Run));
    ExecSnoc(threads, run' + [(t, Run)], (t, Run));
    run' := run' + [(t, Run)] + [(t, Run)];
  }

  lemma {:induction false} Forgotten(threads: set<Tid>, run: seq<Event>, t: Tid, key: Key) returns (run': seq<Event>)
    requires var s := Exec(threads, run); s.m.mu == Free && t in s.pc && s.pc[t] == Idle
    ensures var (s, s') := (Exec(threads, run), Exec(threads, run'));
            s'.m == s.m.(calls := s.m.calls - {key}) && s'.pc == s.pc
  {
    hide Exec, DoRecord;
    var s := Exec(threads, run);
    ExecSnoc(threads, run, (t, Forget(key)));
    ExecSnoc(threads, run + [(t, Forget(key))], (t, Run));
    run' := run + [(t, Forget(key))] + [(t, Run)];
    assert Exec(threads, run') == State(s.m.(mu := HeldBy(t)), s.pc[t := ForgetDelete(key)]);
    ExecSnoc(threads, run', (t, Run));
    ExecSnoc(threads, run' + [(t, Run)], (t, Run));
    run' := run' + [(t, Run)] + [(t, Run)];
  }

  /** With Forget the promise fails: after a Forget of any key, its function runs twice at the same time. */
  lemma {:induction false} ForgetOverlaps(key: Key) returns (run: seq<Event>)
    ensures Overlaps(Exec({0, 1, 2}, run), key, 0, 2)
  {
    hide Step;
    run := Runs({0, 1, 2}, [], 0, key);
    run := Forgotten({0, 1, 2}, run, 1, key);
    run := Runs({0, 1, 2}, run, 2, key);
  }

  /** The function for key is run by two threads at the same time. */
  predicate Overlaps(s: State, key: Key, t: Tid, u: Tid) {
    t != u && t in s.pc && u in s.pc && s.pc[t].InFn? && s.pc[u].InFn? && s.pc[t].key == s.pc[u].key == key
  }

  /** The function for a key never runs twice at a time, in any run, exactly if that key is not forgotten. */
  lemma {:induction false} OneFlightExactly(key: Key, forgets: bool)
    ensures (forall threads, run, t, u {:induction false} ::
               forgets || NeverForgets(run, key) ==> !Overlaps(Exec(threads, run), key, t, u))
            <==> !forgets
  {
    hide Exec;
    if forgets {
      var run := ForgetOverlaps(key);
    } else {
      forall threads, run, t, u | NeverForgets(run, key) ensures !Overlaps(Exec(threads, run), key, t, u) {
        if Overlaps(Exec(threads, run), key, t, u) { OneFlightPerKey(threads, run, key, t, u); }
      }
    }
  }
}
