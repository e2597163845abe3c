/**
 CondVar (condvar.go, lines 159-288) over the Mutex machine: WaitFor, the loop
 around WaitTimeout, Signal and Broadcast, with clients that change a predicate only while they
 hold the mutex and follow each change to true by a Broadcast.
 */
module CondVar {
  import opened Threads
  import opened WaitQueue
  import M = MutexLock

  datatype PC =
    | Out                    // outside CondVar; may use the mutex
    | Test                   // the loop of WaitFor evaluates the predicate
    | Check                  // Wait: the IsLocked test
    | Enqueue
    | Unlocking(w: nat)      // m.Unlock() is running
    | Parked(w: nat)
    | Relocking              // m.Lock() is running
    | TimedOut(w: nat)       // the timer of WaitTimeout has fired
    | Leaving                // m.Lock() is running after that
    | BroadcastPop
    | BroadcastCheck(w: nat)
    | BroadcastSend(w: nat)
    | SignalPop
    | SignalCheck(w: nat)
    | SignalSend(w: nat)

  datatype Action =
    | Mutex(a: M.Action)     // any mutex operation outside CondVar
    | CallWaitFor
    | CallSignal
    | CallBroadcast
    | SetTrue
    | SetFalse
    | TimeOut
    | Run

  /** `owes` are the threads that have set the predicate and not finished a Broadcast since. */
  datatype State = State(m: M.State, q: Queue, holds: bool, owes: set<Tid>, pc: map<Tid, PC>, panicked: bool)

  function Init(threads: set<Tid>): State {
    State(M.Init(threads), EMPTY, false, {}, map t | t in threads :: Out, false)
  }

  function HandOf(p: PC): set<nat> {
    if p.BroadcastCheck? || p.BroadcastSend? || p.SignalCheck? || p.SignalSend? then {p.w} else {}
  }

  function LiveOf(p: PC): set<nat> {
    if p.Unlocking? || p.Parked? || p.TimedOut? then {p.w} else {}
  }

  predicate Typed(p: PC, n: nat) {
    HandOf(p) != {} || p.Parked? || p.TimedOut? ==> p.w < n
  }

  predicate Enabled(s: State, t: Tid) {
    !s.panicked && t in s.pc && t in s.m.pc && Typed(s.pc[t], |s.q.ws|)
  }

  function At(s: State, t: Tid, p: PC): State { s.(pc := s.pc[t := p]) }

  /** A client outside CondVar. */
  function DoOut(s: State, t: Tid, a: Action): State
    requires Enabled(s, t)
  {
    if a.Mutex? then s.(m := M.Step(s.m, t, a.a))
    else if s.m.pc[t] != M.Idle && s.m.pc[t] != M.Holding then s
    else if a == CallSignal then At(s, t, SignalPop)
    else if a == CallBroadcast then At(s, t, BroadcastPop)
    else if s.m.pc[t] != M.Holding then s
    else if a == CallWaitFor then At(s, t, Test)
    else if a == SetTrue then s.(holds := true, owes := s.owes + {t})
    else if a == SetFalse then s.(holds := false)
    else s
  }

  /** WaitFor, Wait and WaitTimeout, whose select may take the timer although there is a token. */
  function DoWait(s: State, t: Tid, a: Action): State
    requires Enabled(s, t)
  {
    match s.pc[t]
    case Test => At(s, t, if s.holds then Out else Check)
    case Check => if s.m.m.word != 1 then s.(panicked := true) else At(s, t, Enqueue)
    case Enqueue => At(s.(q := s.q.Link(t), m := M.Step(s.m, t, M.CallUnlock)), t, Unlocking(|s.q.ws|))
    case Unlocking(w) =>
      var m := M.Step(s.m, t, if a == Mutex(M.Retry) then M.Retry else M.Run);
      At(s.(m := m), t, if t in m.pc && m.pc[t] == M.Idle then Parked(w) else Unlocking(w))
    case Parked(w) =>
      if a == TimeOut then At(s, t, TimedOut(w))
      else if s.q.ws[w].token then At(s.(q := s.q.Receive(w), m := M.Step(s.m, t, M.CallLock)), t, Relocking) else s
    case Relocking =>
      var m := M.Step(s.m, t, M.Run);
      At(s.(m := m), t, if t in m.pc && m.pc[t] == M.Holding then Test else Relocking)
    case TimedOut(w) => At(s.(q := s.q.Cancel(w), m := M.Step(s.m, t, M.CallLock)), t, Leaving)
    case Leaving =>
      var m := M.Step(s.m, t, M.Run);
      At(s.(m := m), t, if t in m.pc && m.pc[t] == M.Holding then Out else Leaving)
    case _ => s
  }

  /** Signal and Broadcast. */
  function DoWake(s: State, t: Tid): State
    requires Enabled(s, t)
  {
    match s.pc[t]
    case BroadcastPop =>
      if s.q.Empty() then At(s.(owes := s.owes - {t}), t, Out)
      else At(s.(q := s.q.Pop(t)), t, BroadcastCheck(s.q.head))
    case BroadcastCheck(w) =>
      if s.q.ws[w].cancelled then At(s.(q := s.q.Discard(w)), t, BroadcastPop) else At(s, t, BroadcastSend(w))
    case BroadcastSend(w) => At(s.(q := s.q.Send(w)), t, BroadcastPop)
    case SignalPop =>
      if s.q.Empty() then At(s, t, Out) else At(s.(q := s.q.Pop(t)), t, SignalCheck(s.q.head))
    case SignalCheck(w) =>
      if s.q.ws[w].cancelled then At(s.(q := s.q.Discard(w)), t, SignalPop) else At(s, t, SignalSend(w))
    case SignalSend(w) => At(s.(q := s.q.Send(w)), t, Out)
    case _ => s
  }

  predicate Waking(p: PC) { p.BroadcastPop? || p.SignalPop? || HandOf(p) != {} }

  function Step(s: State, t: Tid, a: Action): State {
    if !Enabled(s, t) then s
    else if s.pc[t] == Out then DoOut(s, t, a)
    else if Waking(s.pc[t]) then DoWake(s, t)
    else DoWait(s, t, a)
  }

  type Event = (Tid, Action)

  ghost function Exec(threads: set<Tid>, run: seq<Event>): State {
    if run == [] then Init(threads)
    else Step(Exec(threads, run[..|run| - 1]), run[|run| - 1].0, run[|run| - 1].1)
  }

  // ---- Safety ------------------------------------------------------------

  /** Where a thread at p is in the mutex. */
  predicate Coupled(p: PC, mp: M.PC) {
    && (p.Test? || p.Check? || p.Enqueue? ==> mp.Holding?)
    && (p.Unlocking? ==> UnlockRuns(mp))
    && (p.Parked? || p.TimedOut? ==> mp.Idle?)
    && (p.Relocking? || p.Leaving? ==> LockRuns(mp))
    && (Waking(p) ==> mp.Idle? || mp.Holding?)
  }

  predicate UnlockRuns(mp: M.PC) {
    mp.UnlockLoad? || mp.UnlockStore? || mp.Dequeue? || mp.SawEmpty? || mp.DequeueCheck? || mp.Signal?
  }

  predicate LockRuns(mp: M.PC) {
    mp.LockCas? || mp.LockEnqueue? || mp.LockRecheck? || mp.LockCancel? || mp.LockWait?
  }

  ghost predicate Linked(q: Queue, t: Tid, p: PC) { Books(q, t, HandOf(p), LiveOf(p)) }

  /** What holds of thread t besides its books. */
  ghost predicate Local(s: State, t: Tid)
    requires t in s.pc
  {
    && t in s.m.pc && Coupled(s.pc[t], s.m.pc[t])
    && (s.pc[t].Check? || s.pc[t].Enqueue? ==> !s.holds)
  }

  ghost predicate Safe(s: State) {
    && !s.panicked && M.Safe(s.m)
    && s.q.Valid() && Known(s.q, s.pc.Keys) && s.m.pc.Keys == s.pc.Keys
    && s.owes <= s.pc.Keys
    && (forall t {:trigger Linked(s.q, t, s.pc[t])} :: t in s.pc ==> Linked(s.q, t, s.pc[t]))
    && (forall t {:trigger Local(s, t)} :: t in s.pc ==> Local(s, t))
    // a queued waiter of a true predicate is owed a broadcast
    && (s.holds && !s.q.Empty() ==> s.owes != {})
  }

  /** A mutex step keeps what the mutex proves and moves only its thread; unless it is a late give-up, it also keeps
      somebody responsible for the waiters. */
  lemma MutexStep(m: M.State, t: Tid, a: M.Action)
    requires M.Safe(m) && t in m.pc
    ensures var m' := M.Step(m, t, a);
            && M.Safe(m') && m'.pc.Keys == m.pc.Keys
            && (forall u :: u in m.pc && u != t ==> m'.pc[u] == m.pc[u])
            && (M.Responsible(m) && !M.LateGiveUp(m, t, a) ==> M.Responsible(m'))
  {
    hide M.Do, M.Safe, M.Responsible, M.Typed, M.LateGiveUp;
    M.StepSafe(m, t, a);
    if M.Responsible(m) && !M.LateGiveUp(m, t, a) { M.StepResponsible(m, t, a); }
  }

  /** An unlocking thread goes through Unlock to Idle, a locking one through Lock to Holding. */
  lemma MutexCall(m: M.State, t: Tid)
    requires M.Safe(m) && t in m.pc
    ensures M.Enabled(m, t)
    ensures UnlockRuns(m.pc[t]) ==> var p := M.Step(m, t, M.Run).pc[t]; p.Idle? || UnlockRuns(p)
    ensures UnlockRuns(m.pc[t]) ==> var p := M.Step(m, t, M.Retry).pc[t]; p.Idle? || UnlockRuns(p)
    ensures LockRuns(m.pc[t]) ==> var p := M.Step(m, t, M.Run).pc[t]; p.Holding? || LockRuns(p)
    ensures m.pc[t].Holding? ==> UnlockRuns(M.Step(m, t, M.CallUnlock).pc[t])
    ensures m.pc[t].Idle? ==> LockRuns(M.Step(m, t, M.CallLock).pc[t])
  {
    M.SafeThread(m, t);
    if M.Holds(m.pc[t]) { HolderHasWord(m, t); }
  }

  lemma HolderHasWord(m: M.State, t: Tid)
    requires M.Safe(m) && t in m.pc && M.Holds(m.pc[t])
    ensures m.m.word == 1
  {
    TotalNonNegative(m.pc, M.HoldWeight);
  }

  lemma InitSafe(threads: set<Tid>)
    ensures Safe(Init(threads))
  {
    M.InitSafe(threads);
    assert forall t :: t in threads ==> Local(Init(threads), t);
  }

  lemma SafeParts(s: State)
    requires Safe(s)
    ensures M.Safe(s.m) && !s.panicked && s.m.pc.Keys == s.pc.Keys && s.q.Valid()
  {
  }

  lemma SafeThread(s: State, t: Tid)
    requires Safe(s) && t in s.pc
    ensures Enabled(s, t) && Linked(s.q, t, s.pc[t]) && Local(s, t)
  {
    hide M.Safe, M.Responsible, Known;
    assert Linked(s.q, t, s.pc[t]) && Local(s, t);
    BooksInRange(s.q, t, HandOf(s.pc[t]), LiveOf(s.pc[t]));
  }

  /** The stepping thread keeps its books, changes records only as Evolves allows, and moves alone. */
  ghost predicate Booked(s: State, t: Tid, s': State) {
    && t in s'.pc && s'.q.Valid() && Evolves(s.q, s'.q, t) && Linked(s'.q, t, s'.pc[t])
    && s'.pc.Keys == s.pc.Keys && (forall u :: u in s.pc && u != t ==> s'.pc[u] == s.pc[u])
  }

  lemma WaitBooked(s: State, t: Tid, a: Action)
    requires Enabled(s, t) && s.q.Valid() && Linked(s.q, t, s.pc[t]) && s.pc[t] != Out && !Waking(s.pc[t])
    ensures var s' := DoWait(s, t, a); Booked(s, t, s')
  {
    hide Books, Evolves, Queue.Valid, M.Step;
    var q, hand, live := s.q, HandOf(s.pc[t]), LiveOf(s.pc[t]);
    var p := s.pc[t];
    SameBooks(q, t);
    if p.Enqueue? {
      LinkBooks(q, t, hand, live);
      assert live + {|q.ws|} == {|q.ws|};
    } else if p.Parked? && a != TimeOut && q.ws[p.w].token {
      ReceiveBooks(q, t, hand, live, p.w);
      assert live - {p.w} == {};
    } else if p.TimedOut? {
      CancelBooks(q, t, hand, live, p.w);
      assert live - {p.w} == {};
    }
  }

  lemma WakeBooked(s: State, t: Tid)
    requires Enabled(s, t) && s.q.Valid() && Linked(s.q, t, s.pc[t]) && Waking(s.pc[t])
    ensures var s' := DoWake(s, t); Booked(s, t, s')
  {
    hide Books, Evolves, Queue.Valid, M.Step, Known;
    var q, hand, live := s.q, HandOf(s.pc[t]), LiveOf(s.pc[t]);
    var p := s.pc[t];
    SameBooks(q, t);
    if (p.BroadcastPop? || p.SignalPop?) && !q.Empty() {
      PopBooks(q, t, hand, live);
      assert hand + {q.head} == {q.head};
    } else if (p.BroadcastCheck? || p.SignalCheck?) && q.ws[p.w].cancelled {
      DiscardBooks(q, t, hand, live, p.w);
      assert hand - {p.w} == {};
    } else if p.BroadcastSend? || p.SignalSend? {
      SendBooks(q, t, hand, live, p.w);
      assert hand - {p.w} == {};
    }
  }

  lemma StepBooked(s: State, t: Tid, a: Action)
    requires Enabled(s, t) && s.q.Valid() && Linked(s.q, t, s.pc[t])
    ensures Booked(s, t, Step(s, t, a)) && t in Step(s, t, a).pc
  {
    hide Books, Evolves, Queue.Valid, M.Step, DoWait, DoWake, Typed;
    if s.pc[t] == Out {
      SameBooks(s.q, t);
    } else if Waking(s.pc[t]) {
      WakeBooked(s, t);
    } else {
      WaitBooked(s, t, a);
    }
  }

  /** A client's LockContext gives up after the signal was committed to it. */
  ghost predicate LateGiveUp(s: State, t: Tid, a: Action) {
    t in s.pc && s.pc[t] == Out && a.Mutex? && M.LateGiveUp(s.m, t, a.a)
  }

  /** What a step may do to the mutex: nothing, or one mutex step of the same thread. */
  ghost predicate MutexKept(s: State, t: Tid, late: bool, s': State) {
    && M.Safe(s'.m) && s'.m.pc.Keys == s.m.pc.Keys
    && (forall u :: u in s.m.pc && u != t ==> s'.m.pc[u] == s.m.pc[u])
    && (M.Responsible(s.m) && !late ==> M.Responsible(s'.m))
  }

  lemma WaitMutex(s: State, t: Tid, a: Action)
    requires Enabled(s, t) && M.Safe(s.m) && s.pc[t] != Out && !Waking(s.pc[t])
    ensures MutexKept(s, t, false, DoWait(s, t, a))
  {
    hide M.Safe, M.Responsible, M.Step, Typed, Waking, HandOf, Queue.Link, Queue.Receive, Queue.Cancel;
    if s.pc[t].Enqueue? {
      MutexStep(s.m, t, M.CallUnlock);
    } else if s.pc[t].Parked? || s.pc[t].TimedOut? {
      MutexStep(s.m, t, M.CallLock);
    } else if s.pc[t].Unlocking? || s.pc[t].Relocking? || s.pc[t].Leaving? {
      MutexStep(s.m, t, M.Run);
      MutexStep(s.m, t, M.Retry);
    }
  }

  lemma OutMutex(s: State, t: Tid, a: Action)
    requires Enabled(s, t) && M.Safe(s.m) && s.pc[t] == Out
    ensures MutexKept(s, t, LateGiveUp(s, t, a), DoOut(s, t, a))
  {
    hide M.Safe, M.Responsible, M.Step, Typed;
    if a.Mutex? { MutexStep(s.m, t, a.a); }
  }

  lemma WakeMutex(s: State, t: Tid)
    requires Enabled(s, t)
    ensures DoWake(s, t).m == s.m && DoWake(s, t).holds == s.holds && DoWake(s, t).panicked == s.panicked
  {
  }

  lemma StepMutex(s: State, t: Tid, a: Action)
    requires Safe(s) && t in s.pc
    ensures MutexKept(s, t, LateGiveUp(s, t, a), Step(s, t, a))
  {
    hide M.Safe, M.Responsible, M.Step, Books, Known, Evolves, Queue.Valid, Local, Typed, DoWait, DoOut, DoWake, Waking;
    hide M.LateGiveUp;
    SafeThread(s, t);
    if s.pc[t] == Out {
      OutMutex(s, t, a);
    } else if Waking(s.pc[t]) {
      WakeMutex(s, t);
    } else {
      WaitMutex(s, t, a);
    }
  }

  /** A thread in WaitFor stays coupled to the mutex, and its predicate test stays valid. */
  lemma WaitLocal(s: State, t: Tid, a: Action)
    requires Enabled(s, t) && M.Safe(s.m) && Local(s, t) && s.pc[t] != Out && !Waking(s.pc[t])
    ensures var s' := DoWait(s, t, a); !s'.panicked && t in s'.m.pc ==> Local(s', t)
    ensures !DoWait(s, t, a).panicked
  {
    hide M.Safe, M.Step, LockRuns, UnlockRuns;
    MutexCall(s.m, t);
    if s.pc[t].Check? { HolderHasWord(s.m, t); }
  }

  lemma OutLocal(s: State, t: Tid, a: Action)
    requires Enabled(s, t) && M.Safe(s.m) && Local(s, t) && s.pc[t] == Out
    ensures var s' := DoOut(s, t, a); !s'.panicked && t in s'.pc && (t in s'.m.pc ==> Local(s', t))
  {
    hide M.Safe, M.Step, LockRuns, UnlockRuns;
  }

  lemma WakeLocal(s: State, t: Tid)
    requires Enabled(s, t) && Local(s, t) && Waking(s.pc[t])
    ensures var s' := DoWake(s, t); t in s'.pc && Local(s', t)
  {
    hide M.Safe, M.Step, LockRuns, UnlockRuns;
  }

  lemma StepLocal(s: State, t: Tid, a: Action)
    requires Safe(s) && t in s.pc
    ensures var s' := Step(s, t, a); !s'.panicked && t in s'.pc && Local(s', t)
  {
    hide M.Safe, M.Responsible, M.Step, Safe, Books, Typed, DoWait, DoOut, DoWake, Waking, Coupled;
    SafeThread(s, t);
    SafeParts(s);
    StepMutex(s, t, a);
    StepBooked(s, t, a);
    if s.pc[t] == Out {
      OutLocal(s, t, a);
    } else if Waking(s.pc[t]) {
      WakeMutex(s, t);
      WakeLocal(s, t);
    } else {
      WaitLocal(s, t, a);
    }
  }

  /** Only a thread that holds the mutex changes the predicate, so nobody else is testing it. */
  lemma OthersLocal(s: State, t: Tid, a: Action, u: Tid)
    requires Safe(s) && t in s.pc && u in s.pc && u != t
    ensures var s' := Step(s, t, a); u in s'.pc && Local(s', u)
  {
    hide M.Responsible, M.Step, Books, Known, Evolves, Queue.Valid;
    SafeThread(s, t);
    SafeThread(s, u);
    StepMutex(s, t, a);
    StepBooked(s, t, a);
    if (s.pc[u].Check? || s.pc[u].Enqueue?) && s.m.pc[t] == M.Holding {
      TotalCoversTwo(s.m.pc, M.HoldWeight, t, u);
    }
  }

  /** A true predicate with queued waiters leaves a broadcast owed. */
  lemma StepOwes(s: State, t: Tid, a: Action)
    requires Safe(s) && t in s.pc
    ensures var s' := Step(s, t, a);
            s'.owes <= s.pc.Keys && (s'.holds && !s'.q.Empty() ==> s'.owes != {})
  {
    hide M.Safe, M.Responsible, M.Step, Books, Known, Evolves, Queue.Valid;
    SafeThread(s, t);
    var s' := Step(s, t, a);
    if s.pc[t] == Out && a == SetTrue && s'.owes != s.owes { assert t in s'.owes; }
  }

  lemma StepSafe(s: State, t: Tid, a: Action)
    requires Safe(s) && t in s.pc
    ensures Safe(Step(s, t, a)) && Step(s, t, a).pc.Keys == s.pc.Keys
  {
    hide M.Safe, M.Responsible, Step, Books, Known, Evolves, Queue.Valid, Local, Typed;
    SafeThread(s, t);
    StepMutex(s, t, a);
    StepBooked(s, t, a);
    StepLocal(s, t, a);
    StepOwes(s, t, a);
    var s' := Step(s, t, a);
    KnownEvolves(s.q, s'.q, t, s.pc.Keys);
    forall u | u in s'.pc ensures Linked(s'.q, u, s'.pc[u]) {
      if u != t {
        assert Linked(s.q, u, s.pc[u]);
        OthersBooks(s.q, s'.q, t, u, HandOf(s.pc[u]), LiveOf(s.pc[u]));
      }
    }
    forall u | u in s'.pc ensures Local(s', u) {
      if u != t { OthersLocal(s, t, a, u); }
    }
  }

  lemma {:induction false} ExecSafe(threads: set<Tid>, run: seq<Event>)
    ensures Safe(Exec(threads, run)) && Exec(threads, run).pc.Keys == threads
  {
    hide Safe, Step;
    if run == [] {
      InitSafe(threads);
    } else {
      var s := Exec(threads, run[..|run| - 1]);
      ExecSafe(threads, run[..|run| - 1]);
      if run[|run| - 1].0 in s.pc {
        StepSafe(s, run[|run| - 1].0, run[|run| - 1].1);
      } else {
        UnknownThread(s, run[|run| - 1].0, run[|run| - 1].1);
      }
    }
  }

  lemma UnknownThread(s: State, t: Tid, a: Action)
    requires t !in s.pc
    ensures Step(s, t, a) == s
  {
  }

  // ---- Theorems ----------------------------------------------------------

  /** In every run WaitFor and WaitTimeout, wherever the call stands, return only to the one thread that holds the mutex,
      and WaitFor only while the predicate is true: the one other way out is that the timer has fired. */
  lemma {:induction false} WaitForReturnsTrue(threads: set<Tid>, run: seq<Event>, t: Tid, a: Action)
    requires var s := Exec(threads, run);
             && t in s.pc && s.pc[t] != Out && !Waking(s.pc[t])
             && t in Step(s, t, a).pc && Step(s, t, a).pc[t] == Out
    ensures var s, s' := Exec(threads, run), Step(Exec(threads, run), t, a);
            && (s'.holds || s.pc[t].Leaving?) && t in s'.m.pc && s'.m.pc[t] == M.Holding && s'.m.m.word == 1
            && forall u :: u in s'.m.pc && M.Holds(s'.m.pc[u]) ==> u == t
  {
    hide M.Responsible, M.Step, Books, Known, Evolves, Queue.Valid, Exec, M.Linked, DoWake, DoOut;
    var s := Exec(threads, run);
    var s' := Step(s, t, a);
    ExecSafe(threads, run);
    SafeThread(s, t);
    StepMutex(s, t, a);
    HolderHasWord(s'.m, t);
    forall u | u in s'.m.pc && M.Holds(s'.m.pc[u]) ensures u == t {
      if u != t { TotalCoversTwo(s'.m.pc, M.HoldWeight, t, u); }
    }
  }

  /** The call is on the way out because its timer has fired. */
  predicate TimedWay(p: PC) { p.TimedOut? || p.Leaving? }

  lemma OnlyTimerLeaves(s: State, t: Tid, a: Action)
    requires Enabled(s, t) && !TimedWay(s.pc[t]) && t in Step(s, t, a).pc && TimedWay(Step(s, t, a).pc[t])
    ensures s.pc[t].Parked? && a == TimeOut
  {
    hide M.Step;
  }

  /** No thread can take a step on its own: each is outside a call or parked without a token. */
  ghost predicate Quiescent(s: State) {
    && s.owes == {}
    && (forall t {:trigger s.pc[t]} :: t in s.pc ==>
          s.pc[t] == Out || s.pc[t] == Relocking || s.pc[t] == Leaving
          || (s.pc[t].Parked? && s.pc[t].w < |s.q.ws| && !s.q.ws[s.pc[t].w].token))
    && M.Quiescent(s.m)
  }

  lemma QuiescentTrue(s: State, t: Tid)
    requires Safe(s) && Quiescent(s) && s.holds && t in s.pc
    ensures !s.pc[t].Parked?
  {
    hide M.Safe, M.Responsible, M.Quiescent;
    assert s.q.Empty();
    if s.pc[t].Parked? {
      SafeThread(s, t);
      var x := s.q.ws[s.pc[t].w];
      if x.place.Hand? { SafeThread(s, x.place.popper); }
      assert false;
    }
  }

  /** No client of the mutex drops a signal that is already on its way. */
  ghost predicate NoLateGiveUp(threads: set<Tid>, run: seq<Event>) {
    forall i {:trigger run[i]} :: 0 <= i < |run| ==>
      !LateGiveUp(Exec(threads, run[..i]), run[i].0, run[i].1)
  }

  lemma {:induction false} ExecResponsible(threads: set<Tid>, run: seq<Event>)
    requires NoLateGiveUp(threads, run)
    ensures M.Responsible(Exec(threads, run).m)
  {
    hide Safe, Step, LateGiveUp, M.Responsible;
    if run == [] {
      InitResponsible(threads);
    } else {
      var k := |run| - 1;
      var before := run[..k];
      forall i | 0 <= i < k ensures !LateGiveUp(Exec(threads, before[..i]), before[i].0, before[i].1) {
        assert before[..i] == run[..i] && before[i] == run[i];
      }
      ExecResponsible(threads, before);
      ExecSafe(threads, before);
      var s := Exec(threads, before);
      if run[k].0 in s.pc {
        StepMutex(s, run[k].0, run[k].1);
      } else {
        UnknownThread(s, run[k].0, run[k].1);
      }
    }
  }

  lemma InitResponsible(threads: set<Tid>)
    ensures M.Responsible(Init(threads).m)
  {
  }

  /** In every run, whoever gives up on the mutex and when: if nobody is in the middle of an operation and no broadcast
      is owed, nobody is parked, timed or not, while the predicate is true. And if no client gives up late and the mutex is
      free too, nobody is inside WaitFor at all. */
  lemma {:induction false} NoMissedWakeup(threads: set<Tid>, run: seq<Event>)
    ensures var s := Exec(threads, run);
            && (Quiescent(s) && s.holds ==> forall t :: t in s.pc ==> !s.pc[t].Parked?)
            && (Quiescent(s) && s.holds && s.m.m.word == 0 && NoLateGiveUp(threads, run) ==>
                  forall t :: t in s.pc ==> s.pc[t] == Out)
  {
    hide M.Responsible, M.Quiescent, Books, Known, Queue.Valid, Exec, M.Linked, Coupled, NoLateGiveUp;
    var s := Exec(threads, run);
    ExecSafe(threads, run);
    if Quiescent(s) && s.holds {
      forall t | t in s.pc ensures !s.pc[t].Parked? {
        QuiescentTrue(s, t);
      }
      if s.m.m.word == 0 && NoLateGiveUp(threads, run) {
        ExecResponsible(threads, run);
        forall t | t in s.pc ensures s.pc[t] == Out {
          M.QuiescentFree(s.m, t);
          NotRelocking(s, t);
        }
      }
    }
  }

  lemma NotRelocking(s: State, t: Tid)
    requires Safe(s) && t in s.pc && s.m.pc[t] == M.Idle
    ensures s.pc[t] != Relocking && s.pc[t] != Leaving
  {
    SafeThread(s, t);
  }

  // ---- A thread on its own -----------------------------------------------

  lemma WakeStep(s: State, t: Tid)
    requires Enabled(s, t) && Waking(s.pc[t])
    ensures Step(s, t, Run) == DoWake(s, t)
  {
    hide DoWake, DoWait, DoOut;
  }

  /** The state after n steps of t alone. */
  ghost function Alone(s: State, t: Tid, n: nat): State
    decreases n
  {
    if n == 0 then s else Alone(Step(s, t, Run), t, n - 1)
  }

  lemma {:induction false} AloneAdds(s: State, t: Tid, a: nat, b: nat)
    ensures Alone(Alone(s, t, a), t, b) == Alone(s, t, a + b)
    decreases a
  {
    hide Step;
    if a == 0 {
      assert Alone(s, t, a) == s;
    } else {
      AloneAdds(Step(s, t, Run), t, a - 1, b);
    }
  }

  lemma AloneFew(s: State, t: Tid)
    ensures Alone(s, t, 1) == Step(s, t, Run)
    ensures Alone(s, t, 2) == Step(Step(s, t, Run), t, Run)
    ensures Alone(s, t, 3) == Step(Step(Step(s, t, Run), t, Run), t, Run)
  {
    hide Step;
    var s1 := Step(s, t, Run);
    var s2 := Step(s1, t, Run);
    assert Alone(s, t, 1) == Alone(s1, t, 0);
    assert Alone(s, t, 2) == Alone(s1, t, 1) == Alone(s2, t, 0);
    assert Alone(s, t, 3) == Alone(s1, t, 2) == Alone(s2, t, 1) == Alone(Step(s2, t, Run), t, 0);
  }

  /** The next turn of Signal passes over a cancelled waiter, */
  lemma SignalSkips(s: State, t: Tid)
    requires Enabled(s, t) && s.pc[t].SignalPop? && !s.q.Empty() && s.q.ws[s.q.head].cancelled
    ensures Alone(s, t, 2) == s.(q := FirstDropped(s.q, t))
  {
    hide Step, Alone;
    AloneFew(s, t);
    WakeStep(s, t);
    WakeStep(Step(s, t, Run), t);
    assert s.pc[t := s.pc[t]] == s.pc;
  }

  /** ends on an empty queue, */
  lemma SignalEnds(s: State, t: Tid)
    requires Enabled(s, t) && s.pc[t].SignalPop? && s.q.Empty()
    ensures Alone(s, t, 1) == At(s, t, Out)
  {
    hide Step, Alone;
    AloneFew(s, t);
    WakeStep(s, t);
  }

  /** or serves a live one. */
  lemma SignalServes(s: State, t: Tid)
    requires Enabled(s, t) && s.pc[t].SignalPop? && !s.q.Empty() && !s.q.ws[s.q.head].cancelled
    ensures Alone(s, t, 3) == At(s.(q := FirstServed(s.q, t)), t, Out)
  {
    hide Step, Alone;
    AloneFew(s, t);
    WakeStep(s, t);
    var s1 := Step(s, t, Run);
    assert s1 == At(s.(q := s.q.Pop(t)), t, SignalCheck(s.q.head));
    WakeStep(s1, t);
    var s2 := Step(s1, t, Run);
    assert s2 == At(s1, t, SignalSend(s.q.head));
    WakeStep(s2, t);
  }

  /** An undisturbed Signal gives a token to the first live waiter, if there is one, and to nobody else. */
  lemma {:induction false} SignalAlone(s: State, t: Tid) returns (n: nat)
    requires Enabled(s, t) && s.pc[t].SignalPop? && s.q.Valid()
    ensures var s' := Alone(s, t, n); s' == At(s.(q := s'.q), t, Out) && Woken(s.q, s'.q, 1)
    decreases |s.q.ws| - s.q.head
  {
    hide Step, Alone, Woken, FirstDropped, FirstServed, Queue.Valid;
    var q := s.q;
    if q.Empty() {
      SignalEnds(s, t);
      n := 1;
      WokenNone(q, 1);
    } else if q.ws[q.head].cancelled {
      SignalSkips(s, t);
      DroppedOut(q, t);
      n := SignalAlone(Alone(s, t, 2), t);
      AloneAdds(s, t, 2, n);
      n := 2 + n;
      WokenSkip(q, FirstDropped(q, t), Alone(s, t, n).q, 1);
    } else {
      SignalServes(s, t);
      ServedOut(q, t);
      n := 3;
      WokenNone(FirstServed(q, t), 0);
      WokenFirst(q, FirstServed(q, t), FirstServed(q, t), 1);
    }
  }

  lemma BroadcastTurn(s: State, t: Tid)
    requires Enabled(s, t) && s.pc[t].BroadcastPop?
    ensures s.q.Empty() ==> Alone(s, t, 1) == At(s.(owes := s.owes - {t}), t, Out)
    ensures !s.q.Empty() && s.q.ws[s.q.head].cancelled ==> Alone(s, t, 2) == s.(q := FirstDropped(s.q, t))
    ensures !s.q.Empty() && !s.q.ws[s.q.head].cancelled ==> Alone(s, t, 3) == s.(q := FirstServed(s.q, t))
  {
    hide Step, Alone;
    AloneFew(s, t);
    WakeStep(s, t);
    assert s.pc[t := s.pc[t]] == s.pc;
    if !s.q.Empty() {
      WakeStep(Step(s, t, Run), t);
      if !s.q.ws[s.q.head].cancelled { WakeStep(Step(Step(s, t, Run), t, Run), t); }
    }
  }

  lemma {:induction false} BroadcastMany(s: State, t: Tid, many: int) returns (n: nat)
    requires Enabled(s, t) && s.pc[t].BroadcastPop? && s.q.Valid() && many >= |s.q.ws| - s.q.head
    ensures var s' := Alone(s, t, n);
            s' == At(s.(q := s'.q, owes := s.owes - {t}), t, Out) && Woken(s.q, s'.q, many)
    decreases |s.q.ws| - s.q.head
  {
    hide Step, Alone, Woken, FirstDropped, FirstServed, Queue.Valid;
    var q := s.q;
    BroadcastTurn(s, t);
    if q.Empty() {
      n := 1;
      WokenNone(q, many);
    } else if q.ws[q.head].cancelled {
      DroppedOut(q, t);
      n := BroadcastMany(Alone(s, t, 2), t, many);
      AloneAdds(s, t, 2, n);
      n := 2 + n;
      WokenSkip(q, FirstDropped(q, t), Alone(s, t, n).q, many);
    } else {
      ServedOut(q, t);
      n := BroadcastMany(Alone(s, t, 3), t, many - 1);
      AloneAdds(s, t, 3, n);
      n := 3 + n;
      WokenFirst(q, FirstServed(q, t), Alone(s, t, n).q, many);
    }
  }

  /** An undisturbed Broadcast gives a token to every live waiter, and to nobody else. */
  lemma {:induction false} BroadcastAlone(s: State, t: Tid) returns (n: nat)
    requires Enabled(s, t) && s.pc[t].BroadcastPop? && s.q.Valid()
    ensures var s' := Alone(s, t, n);
            s' == At(s.(q := s'.q, owes := s.owes - {t}), t, Out) && AllWoken(s.q, s'.q)
  {
    hide Step, Alone, Woken, AllWoken, Queue.Valid;
    n := BroadcastMany(s, t, |s.q.ws|);
    WokenAll(s.q, Alone(s, t, n).q, |s.q.ws|);
  }

  /** Nothing that t can do on its own, inside CondVar or in the mutex, changes anything. */
  predicate Stuck(s: State, t: Tid) { Step(s, t, Run) == s && Step(s, t, Mutex(M.Run)) == s }

  /** t is outside, or locking the mutex again, and can do nothing in the mutex; or it is parked without a token. */
  predicate Rests(s: State, t: Tid)
    requires t in s.pc && t in s.m.pc
  {
    || (s.pc[t].Parked? && s.pc[t].w < |s.q.ws| && !s.q.ws[s.pc[t].w].token)
    || (s.pc[t].Out? && (s.m.pc[t].Idle? || s.m.pc[t].Holding? || M.ParkedWith(s.m, t, false)))
    || ((s.pc[t].Relocking? || s.pc[t].Leaving?) && M.ParkedWith(s.m, t, false))
  }

  lemma WakerMoves(s: State, t: Tid)
    requires Enabled(s, t) && Waking(s.pc[t])
    ensures Step(s, t, Run).pc != s.pc
  {
    WakeStep(s, t);
    hide Step;
    assert DoWake(s, t).pc[t] != s.pc[t];
  }

  lemma UnlockerMoves(s: State, t: Tid)
    requires Enabled(s, t) && M.Safe(s.m) && Local(s, t) && s.pc[t].Unlocking?
    ensures Step(s, t, Run) != s
  {
    hide M.Safe, M.Step, DoOut, DoWake;
    M.MovesExactly(s.m, t);
    assert Step(s, t, Run).m != s.m;
  }

  lemma OutMoves(s: State, t: Tid)
    requires Enabled(s, t) && M.Safe(s.m) && Local(s, t) && s.pc[t].Out?
    ensures Stuck(s, t) <==> Rests(s, t)
  {
    hide M.Safe, M.Step, DoWait, DoWake;
    M.MovesExactly(s.m, t);
    if Stuck(s, t) { assert Step(s, t, Mutex(M.Run)).m == s.m; }
  }

  lemma LockerMoves(s: State, t: Tid)
    requires Enabled(s, t) && M.Safe(s.m) && Local(s, t) && (s.pc[t].Relocking? || s.pc[t].Leaving?)
    ensures Stuck(s, t) <==> Rests(s, t)
  {
    hide M.Safe, M.Step, DoOut, DoWake;
    M.MovesExactly(s.m, t);
    assert s.pc == s.pc[t := s.pc[t]];
    if Stuck(s, t) { assert Step(s, t, Run).m == s.m; }
  }

  /** A thread can move unless it rests. */
  lemma MovesExactly(s: State, t: Tid)
    requires Safe(s) && t in s.pc
    ensures t in s.m.pc && (Stuck(s, t) <==> Rests(s, t))
  {
    hide M.Safe, M.Step, M.ParkedWith, Step, Local, Books, Known, Stuck, Waking, Queue.Valid;
    SafeThread(s, t);
    SafeParts(s);
    if s.pc[t].Out? {
      OutMoves(s, t);
    } else if s.pc[t].Relocking? || s.pc[t].Leaving? {
      LockerMoves(s, t);
    } else {
      StuckParked(s, t);
    }
  }

  lemma StuckParked(s: State, t: Tid)
    requires Safe(s) && t in s.pc && !s.pc[t].Out? && !s.pc[t].Relocking? && !s.pc[t].Leaving?
    ensures t in s.m.pc && (Stuck(s, t) <==> Rests(s, t))
  {
    hide M.Safe, M.Step, M.ParkedWith, Local, Books, Known, Queue.Valid, DoWake, DoOut;
    SafeThread(s, t);
    SafeParts(s);
    if Waking(s.pc[t]) {
      WakerMoves(s, t);
    } else if s.pc[t].Unlocking? {
      UnlockerMoves(s, t);
    } else if Stuck(s, t) {
      assert Step(s, t, Run).pc[t] == s.pc[t];
    }
  }
}
