# Synchronization primitives: a verified model

This project models the concurrent core of the synchronization library and the
stateful, sequential core of its web server, in Dafny, and proves what they
promise.

**The concurrent part** (`internal/primitives`). Every lock, queue and pool is a
step machine over any finite number of threads. A thread's program counter and
local variables are a value of the datatype `PC`; one step is one atomic load,
store, add, compare-and-swap, channel send or channel receive, and atomics are
sequentially consistent. `Exec` runs any sequence of (thread, action) events, so
a statement about `Exec(threads, run)` for all `run` is a statement about every
interleaving. Actions that do not fit the thread's program counter change
nothing. The calls of a run are matched where the library demands it: an unlock
is called by a holder.

* `Threads` sums a weight over all program counters. That is how a machine word
  or a size counter is tied to what the threads are doing.
* `MSQueue` is the Michael-Scott queue at pointer level.
* `WaitQueue` is the queue the locks use: an append-only log of waiter records
  from which the head removes the first. `MSQueue.RefinesFifo` and its
  neighbours justify it: links and removals are single steps, and a nil result
  is right at an instant within the call. `MutexOnQueue` runs the mutex on the
  pointer-level queue and proves that each of its runs is one of `MutexLock`.
* `WaiterPool` follows pooled waiters through their lifecycles.
* `MutexLock`, `RWLock`, `FairRWLock`, `Semaphore`, `CondVar`, `Barrier` and
  `Singleflight` are the protocols. `RWWord` has the constants of the packed
  word.

The proofs are rely-guarantee proofs. `WaitQueue.Evolves` says what a step of a
thread may do to the waiter records and `WaitQueue.Books` what a thread may
believe about them whatever the others do. "Nobody is stranded" comes from an
invariant of the form: while the lock is free and a live waiter is queued, some
thread is still going to pop, signal, re-check or retry.

What holds of every interleaving says little about what a call achieves, so each
module also has a section on a thread on its own: `Alone(s, t, n)` is the state
after n steps of t that nobody disturbs, and lemmas say which state an
undisturbed call ends in, whom exactly it wakes (`WaitQueue.Woken`,
`WaitQueue.AllWoken`, `FairRWLock.TurnWoken`) and when exactly a try succeeds.
`MovesExactly` shows that the quiescent states of the theorems are those in which
no thread can take a step.

**The sequential part** (`web`, `internal/audit`). State that the source updates
in place is a class, and its methods carry the source's loops; each is tied to a
function of the old state, and the promise is proved about that function over
whole runs. `Namespaces`, `DeltaBroadcast`, `RateLimiter`, `AuditLog` and
`Snapshot` are one component each; `DeltaRace` is the machine of the two
goroutines that send to one browser. A Go `range` over a map takes an arbitrary
remaining key each time.

## Findings

Properties that one might expect and that the code does not have. Each has a
run or an input that shows it and a lemma that says exactly when the property
holds:

* Mutex, RWLock and FairRWLock strand a waiter when a context is done after the
  token was sent (`LateGiveUpStrands` in each module). More finely, only a
  give-up after the wake-up was committed to the waiter does harm
  (`NobodyStranded`). In terms of the calls that are made, nobody is stranded in
  any run (`StrandsNobodyExactly` in each module): by Mutex exactly if
  LockContext is not used; by RWLock exactly if LockContext is not used, while
  RLockContext does no harm, since a release wakes all readers; and by
  FairRWLock exactly if neither is used, since there the wake-up of a reader is
  one reader's.
* A semaphore of any capacity strands an acquirer at full count after a release
  of units that the caller had not finished acquiring
  (`Semaphore.StrayReleaseStrands`): the wake-up is spent on a thread that has
  just helped itself. The same happens when a timer fires late
  (`Semaphore.LateGiveUpStrands`). It strands nobody exactly if neither is
  allowed (`Semaphore.StrandsNobodyExactly`).
* The overflow guard of `ReleaseN` compares an int32 sum that may wrap around
  (`Semaphore.HugeReleaseBreaksCount`). It is right exactly when the sum fits
  (`Semaphore.GuardExact`), and runs with releases of up to n units conserve
  units exactly when capacity and n fit together (`Semaphore.ConservesExactly`).
* `Forget` lets a function run twice at a time for the key it names, and only
  for that one (`Singleflight.ForgetOverlaps`, `Singleflight.OneFlightExactly`).
* Seeding the delta baseline and sending the full state are two steps, and so are
  building and sending a delta. As long as messages are sent in the order in
  which they changed the baseline, however the goroutines interleave, the browser
  agrees (`DeltaRace.InOrderAgrees`). A delta that overtakes the state it was
  built on leaves browser and baseline agreeing exactly if it was empty
  (`DeltaRace.LateState`); a state that overtakes a delta, exactly if the delta
  says nothing that the state does not (`DeltaRace.LateDelta`). In the first case
  the next update makes the browser ask for a refresh exactly if the state had
  loaded its number, and not zero, before the update was counted; in the second
  it never does. `DeltaRace.MissesUnnoticed` is such a run.
* `restoreSnapshotPrimitives` does not look for existing ids; it keeps the typed
  maps disjoint exactly for files that give no id two types
  (`Snapshot.RestoreDisjointExactly`).
* In the empty namespace, which the server never uses, an id without a slash and
  the same id behind a slash collide (`Namespaces.EmptyNamespaceCollides`), and
  no other names do (`Namespaces.SplitCollides`).

## Model

| member | source | states |
|---|---|---|
| MSQueue.RefinesFifo | internal/primitives/waiter.go:90-149 | every step of every run leaves the queue alone, appends the caller's own node, never linked before, or removes exactly the first node |
| MSQueue.ListWellFormed | internal/primitives/waiter.go:23-112 | in every reachable state the next pointers from head spell out the queue and end in nil, and tail is its last or second-to-last node |
| MSQueue.LinkOrder | internal/primitives/waiter.go:99-106 | the removed nodes followed by the queue are all linked nodes in link order, none of them twice |
| MSQueue.TakenOnce | internal/primitives/waiter.go:137-146 | over a whole run a node is returned by at most one step of one thread |
| MSQueue.TakenWasRemoved | internal/primitives/waiter.go:137-146 | what a Dequeue returns had been removed from the queue and was not cancelled when it looked |
| MSQueue.NoBadDereference | internal/primitives/waiter.go:119-137 | no step dereferences nil or an address that was not allocated; in particular next is not nil where head and tail differ |
| MSQueue.NothingLost | internal/primitives/waiter.go:137-146 | in every run each removed node was returned by a Dequeue, or was cancelled at some time, or its remover is about to look at its flag |
| MSQueue.RemoveAccounts | internal/primitives/fair_waiter_queue.go:55-61 | only the step that returns a node it found not cancelled marks it returned, and a remover passes over cancelled nodes only |
| MSQueue.SizeCounter | internal/primitives/waiter.go:151-159 | the size counter is the length plus the threads between removal and decrement minus those between link and increment |
| MSQueue.NilOnlyIfEmpty | internal/primitives/fair_waiter_queue.go:39-53 | a call that returns nil had an instant between its start and its return at which the queue was empty |
| MSQueue.PeekedWasFirst | internal/primitives/fair_waiter_queue.go:65-88 | the node a peek returns was the first of the queue at an instant within the call |
| MSQueue.StepSafe | internal/primitives/fair_waiter_queue.go:19-88 | each atomic step keeps the pointer invariant, what every other thread has read, and the size equation |
| MSQueue.HeadUnmoved | internal/primitives/waiter.go:119-125 | if head is the same after the load of next as before, that load saw the first node, or nil on an empty queue |
| MSQueue.EnqueueAlone | internal/primitives/waiter.go:90-112 | from every reachable state an undisturbed Enqueue ends with a new node that holds its value at the end of the queue, which tail points to and size counts, also when it has to bring a lagging tail up first; every other node is as it was |
| MSQueue.CallAlone | internal/primitives/fair_waiter_queue.go:39-88 | from every reachable state an undisturbed dequeue returns the first node that is not cancelled and removes it, an undisturbed peek returns it and leaves it; the cancelled ones before it are dropped and counted down, and nil is returned if there is no other |
| MSQueue.AnswersAlone | internal/primitives/waiter.go:117-149 | the same from any turn of the loop, with a tail that lags or not |
| WaiterPool.LinearOwnership | internal/primitives/waiter.go:40-72 | each waiter has exactly one holder at any time: pool, one thread, one queue node, one signaler, a token on its way to its owner, or nobody any more |
| WaiterPool.PutAtMostOnce | internal/primitives/waiter.go:61-72 | a lifecycle puts its waiter back at most once, and waiters in the pool are drained and not cancelled |
| WaiterPool.TokensMatchLifecycles | internal/primitives/waiter.go:166-204 | a return from Wait takes a token sent in the same lifecycle, no drain finds a token, and Signal never finds the channel full |
| WaiterPool.StepSafe | internal/primitives/waiter.go:137-146 | every step of getting, enqueueing, waiting, giving up, cancelling, popping, signalling and putting back keeps the ownership invariant |
| WaiterPool.PoppedAlone | internal/primitives/waiter.go:137-146 | a popped waiter that is cancelled ends clean in the pool, once more put back, and any other with a token; nothing else changes |
| WaiterPool.WokenAlone | internal/primitives/rwlock.go:93-94 | an owner that finds its token leaves its waiter clean in the pool |
| WaiterPool.PutAlone | internal/primitives/waiter.go:61-72 | putting back drains, clears the flag and adds the waiter to the pool, and changes no other |
| WaiterPool.GetAlone | internal/primitives/waiter.go:48-58 | getting gives the caller a drained waiter that is not cancelled |
| MutexLock.MutualExclusion | internal/primitives/condvar.go:45-152 | in every run, with give-ups, the state is 1 exactly when one thread holds the mutex and 0 exactly when none does, and no unlock panics |
| MutexLock.NobodyStranded | internal/primitives/condvar.go:45-152 | unless somebody gives up after a signal was committed to it, when no thread can move and the mutex is free, nobody is parked |
| MutexLock.PlainCallsStrandNobody | internal/primitives/condvar.go:45-102 | the same for every run of calls without a context |
| MutexLock.StrandsNobodyExactly | internal/primitives/condvar.go:106-143 | over all runs of the calls that are made, nobody is stranded if and only if none of these has a context |
| MutexLock.StepResponsible | internal/primitives/condvar.go:86-102 | a step keeps the invariant that a live waiter of a free mutex has a thread that will still dequeue, signal or retry |
| MutexLock.LateGiveUpStrands | internal/primitives/condvar.go:134-138 | a run in which a context that is done after the signal leaves a waiter parked on a free mutex |
| MutexLock.UnlockAlone | internal/primitives/condvar.go:86-102 | an undisturbed Unlock frees the mutex and gives a token to exactly the first waiter that is not cancelled, if there is one |
| MutexLock.WakesFirst | internal/primitives/waiter.go:117-149 | the same for its Dequeue and Signal from any state, whatever cancelled waiters are in front |
| MutexLock.TryLockExactly | internal/primitives/condvar.go:146-152 | TryLock succeeds if and only if the mutex is free, and changes nothing otherwise |
| MutexLock.LockAlone | internal/primitives/condvar.go:45-84 | an undisturbed Lock of a free mutex acquires it, a woken one too |
| MutexLock.GiveUpEnds | internal/primitives/condvar.go:134-138 | a call whose context is done ends without the mutex, with its waiter cancelled and nobody woken |
| MutexLock.MovesExactly | internal/primitives/condvar.go:45-152 | a thread cannot move if and only if it is outside a call or parked without a token, which is what quiescent means |
| MutexOnQueue.Refines | internal/primitives/condvar.go:45-102 | every run of the mutex on the pointer-level queue, one atomic operation of Enqueue and Dequeue at a time, is a run of the mutex with single-step queue operations, with the same word, threads and waiters |
| MutexOnQueue.StepSimulated | internal/primitives/waiter.go:90-149 | each step is one of that mutex or one it does not see: the link and head compare-and-swaps, the load of a nil next pointer, the re-read of the head and the look at the flag are its steps |
| MutexOnQueue.NilMeansEmpty | internal/primitives/waiter.go:119-130 | a nil next pointer of a head that may be out of date says that the queue is empty at that load |
| MutexOnQueue.MutualExclusion | internal/primitives/condvar.go:45-152 | on the pointer-level queue at most one thread holds the mutex and the word says whether one does |
| MutexOnQueue.NobodyStranded | internal/primitives/condvar.go:45-102 | on the pointer-level queue, in every run of calls without a context, when no thread can move and the mutex is free nobody is parked |
| RWLock.WordWellFormed | internal/primitives/rwlock.go:69-356 | the word is the exact number of readers, at most 2^30-1, or the writer bit with one writer; a panic needs 2^30-1 threads |
| RWLock.UnlocksDoNotPanic | internal/primitives/rwlock.go:117-202 | with any number of threads RUnlock finds a reader, Unlock finds the writer bit and its compare-and-swap the word it read, so neither panics |
| RWLock.NobodyStranded | internal/primitives/rwlock.go:69-366 | unless a writer gives up after a signal was committed to it, when nobody holds the lock and no thread can move, no reader and no writer is parked, whatever phantom nodes, lagging size counters and failed re-checks there were |
| RWLock.PlainWritersStrandNobody | internal/primitives/rwlock.go:69-215 | the same for every run in which Lock is called without a context, RLock with or without one |
| RWLock.LateGiveUpStrands | internal/primitives/rwlock.go:304-307 | a run in which a context that is done after the signal leaves a writer parked on a free lock |
| RWLock.StrandsNobodyExactly | internal/primitives/rwlock.go:219-312 | over all runs of the calls that are made, nobody is stranded if and only if LockContext is not among them, whether RLockContext is or not |
| RWLock.PositiveSize | internal/primitives/rwlock.go:76-92 | on a free lock a writer-queue size that is not zero, which ReadersGiveWay says readers give way to, means some thread is still active |
| RWLock.StepWriters | internal/primitives/rwlock.go:153-215 | a step keeps the invariant that nodes in the writer queue of a free lock leave somebody active |
| RWLock.StepReaders | internal/primitives/rwlock.go:117-148 | a step keeps the invariant that a reader that can only be woken leaves somebody busy while the lock is free |
| RWLock.ReadersGiveWay | internal/primitives/rwlock.go:69-113 | over runs: as long as the writer queue counts a waiting writer, no thread that was outside a call, or has not yet passed the look at that count, comes to read, by RLock, its re-check, RLockContext or TryRLock |
| RWLock.TryRLockExactly | internal/primitives/rwlock.go:319-341 | an undisturbed TryRLock succeeds if and only if there is no writer bit, no writer is counted as waiting and the word is below 2^30-1; otherwise nothing changes |
| RWLock.TryLockExactly | internal/primitives/rwlock.go:345-356 | TryLock succeeds if and only if the word is zero, and changes nothing otherwise |
| RWLock.RLockAlone | internal/primitives/rwlock.go:69-113 | an undisturbed RLock of a lock that is open to readers gets in at once |
| RWLock.LockAlone | internal/primitives/rwlock.go:153-188 | an undisturbed Lock of a free lock gets in at once |
| RWLock.WokenReads | internal/primitives/rwlock.go:93-113 | a woken reader gets in if the lock is still open to readers |
| RWLock.WokenWrites | internal/primitives/rwlock.go:173-188 | a woken writer gets in if the lock is still free |
| RWLock.WakesWriterOrReaders | internal/primitives/rwlock.go:204-215 | an undisturbed wake-up gives a token to exactly the first live writer, and exactly if there is none to every live reader |
| RWLock.UnlockAlone | internal/primitives/rwlock.go:192-215 | an undisturbed Unlock frees the lock and wakes so |
| RWLock.RUnlockAlone | internal/primitives/rwlock.go:117-148 | an undisturbed RUnlock takes one reader off; the last one wakes so, any other wakes nobody |
| RWLock.DrainsAll | internal/primitives/rwlock.go:358-366 | wakeAllReaders gives a token to every live reader and to nobody else |
| RWLock.GiveUpEnds | internal/primitives/rwlock.go:219-312 | a call whose context is done ends without the lock, with its waiter cancelled and nobody woken |
| RWLock.MovesExactly | internal/primitives/rwlock.go:69-366 | a thread cannot move if and only if it is outside a call or parked without a token |
| FairRWLock.WordWellFormed | internal/primitives/fair_rwlock.go:65-310 | the word is the exact number of readers or the writer bit with one writer; a panic needs 2^30-1 threads |
| FairRWLock.UnlocksDoNotPanic | internal/primitives/fair_rwlock.go:110-181 | with any number of threads RUnlock finds a reader and Unlock twice finds the writer bit alone, so neither panics |
| FairRWLock.NeverOvertakes | internal/primitives/fair_rwlock.go:312-383 | when an enqueued waiter acquires, on the queue path or the signaled path, every waiter enqueued before it was popped or cancelled |
| FairRWLock.NobodyStranded | internal/primitives/fair_rwlock.go:65-383 | unless somebody gives up after its popper decided to signal it, when nobody holds the lock and no thread can move, nobody is parked, even if a signal went to a waiter that acquired by itself |
| FairRWLock.PlainCallsStrandNobody | internal/primitives/fair_rwlock.go:65-181 | the same for every run of calls without a context |
| FairRWLock.LateGiveUpStrands | internal/primitives/fair_waiter.go:47-55 | for RLockContext and for LockContext a run in which a context that is done after the token was sent leaves a writer parked on a free lock |
| FairRWLock.StrandsNobodyExactly | internal/primitives/fair_rwlock.go:184-277 | over all runs of the calls that are made, nobody is stranded if and only if neither RLockContext nor LockContext is among them |
| FairRWLock.StepServed | internal/primitives/fair_rwlock.go:368-383 | a step keeps the invariant that a live waiter of a free lock has a thread that will still wake, look at the head or be signaled |
| FairRWLock.DoForward | internal/primitives/fair_waiter.go:35-41 | waiters are flagged only by the thread that popped them, and flags and the head never go back |
| FairRWLock.WakesTurn | internal/primitives/fair_rwlock.go:368-383 | an undisturbed wake-up flags and signals exactly these waiters: the first live one alone if it is a writer, and otherwise every live reader before the first live writer; the other live ones stay queued |
| FairRWLock.Collects | internal/primitives/fair_waiter_queue.go:90-113 | dequeueReaders collects the whole block of live readers at the front and stops before the first live writer |
| FairRWLock.UnlockAlone | internal/primitives/fair_rwlock.go:170-181 | an undisturbed Unlock frees the lock and wakes so |
| FairRWLock.RUnlockAlone | internal/primitives/fair_rwlock.go:110-128 | an undisturbed RUnlock takes one reader off; the last one wakes so, any other wakes nobody |
| FairRWLock.NewcomersQueue | internal/primitives/fair_rwlock.go:65-168 | over runs: as long as the queue counts somebody waiting, a thread that was outside a call acquires only with a waiter of its own, and after every waiter enqueued before it |
| FairRWLock.TryRLockExactly | internal/primitives/fair_rwlock.go:281-297 | an undisturbed TryRLock succeeds if and only if there is no writer bit, nobody is counted as waiting and the word is below 2^30-1; otherwise nothing changes |
| FairRWLock.TryLockExactly | internal/primitives/fair_rwlock.go:300-309 | an undisturbed TryLock succeeds if and only if the word is zero and nobody is counted as waiting; otherwise nothing changes |
| FairRWLock.RLockAlone | internal/primitives/fair_rwlock.go:90-101 | an undisturbed RLock of a lock that is open to readers gets in at once |
| FairRWLock.LockAlone | internal/primitives/fair_rwlock.go:157-161 | an undisturbed Lock of a lock that is open to writers gets in at once |
| FairRWLock.WokenReads | internal/primitives/fair_rwlock.go:344-357 | a flagged and woken reader gets in if no writer holds the lock, whoever is queued |
| FairRWLock.WokenWrites | internal/primitives/fair_rwlock.go:360-365 | a flagged and woken writer gets in if the lock is free, whoever is queued |
| FairRWLock.GiveUpEnds | internal/primitives/fair_rwlock.go:184-277 | a call whose context is done ends without the lock, with its waiter cancelled and nobody woken |
| FairRWLock.MovesExactly | internal/primitives/fair_rwlock.go:65-383 | a thread cannot move if and only if it is outside a call or parked without a token |
| Semaphore.Conservation | internal/primitives/semaphore.go:52-164 | if capacity and release sizes fit int32, the count stays within 0 and capacity and is capacity minus units acquired plus units released |
| Semaphore.ConservesExactly | internal/primitives/semaphore.go:111-135 | all runs with releases of up to n units conserve units if and only if capacity and n together fit int32 |
| Semaphore.GuardExact | internal/primitives/semaphore.go:117-122 | the int32 comparison decides overflow of the capacity correctly if and only if the sum fits int32 |
| Semaphore.OverReleaseRefused | internal/primitives/semaphore.go:111-126 | a release that would exceed the capacity ends without changing the count, any other goes on to its compare-and-swap |
| Semaphore.MatchedReleaseSucceeds | internal/primitives/semaphore.go:111-135 | in runs of matched releases none is ever refused, for any capacity and size |
| Semaphore.NobodyStranded | internal/primitives/semaphore.go:52-135 | with matched releases of any sizes and nobody giving up after a signal was committed to it, when the count is full and no thread can move, nobody is parked |
| Semaphore.PlainCallsStrandNobody | internal/primitives/semaphore.go:52-135 | the same for every run of calls without timer or context |
| Semaphore.LateGiveUpStrands | internal/primitives/semaphore.go:217-224 | for every capacity a run in which a timer that fires after the signal leaves an acquirer parked at full count |
| Semaphore.StrandsNobodyExactly | internal/primitives/semaphore.go:174-289 | for every capacity, over all runs of the calls that are made, nobody is stranded if and only if none has a timer or context and none releases what it has not acquired |
| Semaphore.StepServed | internal/primitives/semaphore.go:292-297 | a step keeps the invariant that at full count a live waiter has a thread that will still wake it or retry |
| Semaphore.StrayReleaseStrands | internal/primitives/semaphore.go:80-92 | for every capacity a run in which one unmatched release leaves an acquirer parked at full count |
| Semaphore.HugeReleaseBreaksCount | internal/primitives/semaphore.go:117-126 | for every capacity and size that together exceed int32, a run in which that release passes the guard and leaves a negative count |
| Semaphore.WakesAsMany | internal/primitives/semaphore.go:292-297 | the wake-ups of an undisturbed ReleaseN(n) give a token to exactly the first n live waiters in queue order, or to all if there are fewer |
| Semaphore.ReleaseAlone | internal/primitives/semaphore.go:111-135 | an undisturbed ReleaseN(n) within the capacity adds n to the count and wakes so |
| Semaphore.ReturnsAfterWaking | internal/primitives/semaphore.go:129-131 | over runs, whatever the others do: a ReleaseN(n) that has counted its units returns only after it has sent n tokens or found the queue empty |
| Semaphore.TryAcquireExactly | internal/primitives/semaphore.go:143-164 | an undisturbed TryAcquireN takes its units if and only if they are there, and changes nothing otherwise |
| Semaphore.AcquiresAlone | internal/primitives/semaphore.go:60-72 | an undisturbed AcquireN takes its units at once if they are there |
| Semaphore.ParksAlone | internal/primitives/semaphore.go:75-94 | and otherwise leaves a waiter at the end of the queue and parks |
| Semaphore.WokenAcquires | internal/primitives/semaphore.go:60-101 | a woken acquirer takes its units if they are there |
| Semaphore.GiveUpEnds | internal/primitives/semaphore.go:217-224 | a call whose timer or context is done ends without units, with its waiter cancelled and nobody woken |
| Semaphore.MovesExactly | internal/primitives/semaphore.go:52-164 | a thread cannot move if and only if it is outside a call or parked without a token |
| CondVar.WaitForReturnsTrue | internal/primitives/condvar.go:193-259 | wherever the call stands, Wait, WaitTimeout and WaitFor return only with the mutex held by the caller and nobody else, and WaitFor only with the predicate true unless its timer has fired |
| CondVar.NoMissedWakeup | internal/primitives/condvar.go:193-249 | when the predicate changes under the mutex and becoming true is followed by Broadcast, no thread is parked in WaitFor or WaitTimeout while it holds and nothing can move, whoever gives up and when; and on a free mutex whose clients do not give up late nobody is inside at all |
| CondVar.StepSafe | internal/primitives/condvar.go:255-288 | every step of mutex and condition variable together keeps that a queued waiter of a true predicate is owed a broadcast |
| CondVar.SignalAlone | internal/primitives/condvar.go:262-270 | an undisturbed Signal gives a token to exactly the first waiter that is not cancelled, if there is one, and changes nothing else |
| CondVar.BroadcastAlone | internal/primitives/condvar.go:273-288 | an undisturbed Broadcast gives a token to every waiter that is not cancelled and to nobody else |
| CondVar.OnlyTimerLeaves | internal/primitives/condvar.go:220-249 | only a timer that fires on a parked call takes it off the loop |
| CondVar.MovesExactly | internal/primitives/condvar.go:193-288 | nothing a thread does by itself changes anything if and only if it is parked without a token, here or in the mutex, or outside both |
| Barrier.ReturnsAfterAll | internal/primitives/barrier.go:53-127 | in any round nobody returns before all parties of that round have arrived, and the over-subscription guard is not reached |
| Barrier.IndicesOfRound | internal/primitives/barrier.go:65-127 | the answers to the arrivals of a round are 0 to parties-1, the i-th arrival getting i |
| Barrier.NobodyLeftParked | internal/primitives/barrier.go:348-364 | when no thread can move, fewer than parties calls of the current round have started, only they are parked, and every arrival of earlier rounds was answered |
| Barrier.StepSafe | internal/primitives/barrier.go:53-127 | every step keeps the round accounting, each call's place in its round, and the answers given |
| Barrier.TripAlone | internal/primitives/barrier.go:84-96 | an undisturbed last arrival resets the count, opens the next generation, gives a token to every waiter that is not cancelled and to nobody else, and returns its index |
| Barrier.MovesExactly | internal/primitives/barrier.go:53-127 | a thread cannot move if and only if it is outside a call or parked without a token |
| Singleflight.OneFlightPerKey | internal/primitives/singleflight.go:49-73 | a key that is never forgotten, whatever happens to others, has its function run by one caller at a time |
| Singleflight.OneFlightExactly | internal/primitives/singleflight.go:49-91 | for each key, its function never runs twice at a time in any run if and only if that key is not forgotten |
| Singleflight.ReturnsLeadersOutcome | internal/primitives/singleflight.go:51-55 | every caller, sharing or leading, returns the value and error that the leader of its record got for its key |
| Singleflight.CallsAddUp | internal/primitives/singleflight.go:49-63 | when no call is in progress, leader calls plus shared calls are the calls of Do, and each leader call has one record |
| Singleflight.NobodyStuck | internal/primitives/singleflight.go:54-70 | while any thread is inside a call, some thread can move |
| Singleflight.StepFlying | internal/primitives/singleflight.go:58-70 | a step keeps that the record of a leader in flight is the one in the table: a leader deletes its own record only and a new leader finds the key free; that it does delete it is TableHoldsFlights |
| Singleflight.ForgetOverlaps | internal/primitives/singleflight.go:87-91 | for every key, a run with Forget in which its function runs twice at the same time |
| Singleflight.TableHoldsFlights | internal/primitives/singleflight.go:49-73 | in every run, with Forget, the leader of each record in the table is between creating and deleting that record; so when no call is in progress the table is empty and the next call runs its function again |
| Singleflight.JoinsFlight | internal/primitives/singleflight.go:51-56 | whoever joins a record looked it up while its leader, another thread, was still in its call for that key |
| Singleflight.SharedExactly | internal/primitives/singleflight.go:55-73 | a call reports shared if and only if another thread leads its record |
| Singleflight.MovesExactly | internal/primitives/singleflight.go:49-91 | a thread cannot move by itself if and only if it is outside a call, waits for the mutex or a leader, or its function is running |
| Namespaces.SplitQualify | web/server.go:902-912 | splitting a qualified name gives back namespace and id if and only if the namespace has no slash |
| Namespaces.QualifySplit | web/server.go:906-912 | qualifying the parts of a name with a slash gives back the name, and a name without one is in the empty namespace |
| Namespaces.SplitCollides | web/server.go:906-912 | two names split alike if and only if they are equal or one is the other, which has no slash, behind a slash |
| Namespaces.EmptyNamespaceCollides | web/server.go:906-912 | every id without a slash and the same id behind one are different names that split alike |
| Namespaces.FilterPrimitives | web/server.go:924-936 | the loop returns the primitives of the namespace under their own ids, in a named namespace whatever the order of iteration |
| Namespaces.FilterUnion | web/server.go:924-936 | filtering the union of all namespaces gives back exactly one namespace's map |
| DeltaBroadcast.DeltaEqualsFull | web/server.go:2234-2272 | after any number of delivered messages of any run the browser's copy has exactly the ids of the latest snapshot of the namespace, each with equal id, type, name, creation time, blocked count and every statistic but Age |
| DeltaBroadcast.DeltaAgrees | web/server.go:2247-2261 | one delta takes a copy that agrees with the baseline to one that agrees with the snapshot |
| DeltaBroadcast.DeltaIsMinimal | web/server.go:2274-2296 | a delta names exactly the primitives that are new, differ in some field or in a statistic other than Age, or are gone |
| DeltaBroadcast.KeyExactly | web/server.go:2274-2296 | two primitives have the same key if and only if they agree in id, type, name, creation time, blocked count and in every statistic other than Age |
| DeltaBroadcast.KeysExactly | web/server.go:773-787 | two snapshots give the same baseline if and only if they have the same ids, with such primitives |
| DeltaBroadcast.StateOvertaken | web/server.go:753-770 | a full state sent after an update that was built on it leaves copy and baseline equal if and only if that update was empty |
| DeltaBroadcast.DeltaOvertaken | web/server.go:1068-1083 | an update sent after a full state that it was not built on leaves them equal if and only if it says nothing else than the state |
| DeltaBroadcast.Broadcast | web/server.go:2187-2223 | running the server's methods and the browser's on any sequence of events, with the counter advancing on updates only, leaves the copy agreeing with the latest snapshot in everything but Age, and the browser never asks for a refresh |
| DeltaRace.InOrderAgrees | web/server.go:753-787 | in every interleaving of the connection's handler and the broadcaster in which no message overtakes one that changed the baseline before it, the browser is on its way to agreement with the baseline, and agrees when nothing is on its way |
| DeltaRace.StepAgrees | web/server.go:2234-2263 | seeding, building, and sending in turn keep the browser on its way to agreement |
| DeltaRace.LateState | web/server.go:1068-1084 | after a delta overtook the state it was built on, browser and baseline agree if and only if it was empty, and the next update makes the browser ask if and only if the state loaded a number that is not zero before the update was counted |
| DeltaRace.LateDelta | web/server.go:2203-2213 | after a state overtook a delta, they agree if and only if the delta says nothing else, and the next update never makes the browser ask |
| DeltaRace.AsksExactly | web/static/js/app.js:257-264 | when nothing is on its way, the next update makes the browser ask if and only if it has seen a number and not the latest |
| DeltaRace.RefreshHeals | web/server.go:1046-1084 | a full state seeded and sent while nothing is on its way restores agreement from any state |
| DeltaRace.MissesUnnoticed | web/server.go:756-763 | a run in which the browser is left without a new primitive and the next update does not make it ask |
| DeltaBroadcast.DeltaState.Seed | web/server.go:773-787 | the baseline becomes the keys of the snapshot |
| DeltaBroadcast.DeltaState.Build | web/server.go:2234-2263 | returns exactly the changed primitives and lists each missing one once, and the baseline becomes the keys of the snapshot |
| DeltaBroadcast.Client.HandleInitialState | web/static/js/app.js:241-253 | replaces the copy, and the last sequence number unless the new one is zero |
| DeltaBroadcast.Client.HandleUpdate | web/static/js/app.js:255-279 | merges the changes, drops the deleted, and asks for a refresh exactly on a gap in the sequence numbers |
| RateLimiter.EveryWindow | web/server.go:449-503 | every half-open window of one second contains at most as many accepted attempts as the limit |
| RateLimiter.AtMostLimit | web/server.go:449-503 | any set of accepted attempts that lie within one second is no larger than the limit |
| RateLimiter.KeepsLastSecond | web/server.go:465-473 | the window is exactly the attempts of the last second, rejected ones included |
| RateLimiter.RefusedExactly | web/server.go:473-476 | an attempt is let through if and only if those of the 1 000 000 000 nanoseconds ending with it are at most the limit |
| RateLimiter.Attempt | web/server.go:451-476 | driving the window through any run of attempts leaves exactly the window, and gives exactly the answers, that the theorems are about |
| RateLimiter.Window.Compact | web/server.go:467-472 | compaction in the slice's own array leaves exactly the entries after the cutoff, in order |
| RateLimiter.CheckRateLimit | web/server.go:451-476 | unknown connections pass; otherwise the message window slides, the answer is whether it has at most 200 entries, and the operation window is untouched |
| RateLimiter.CheckOpRateLimit | web/server.go:480-503 | the same for operations with a limit of 50 |
| AuditLog.FilesHoldSuffix | internal/audit/audit.go:133-198 | rotated files have numbers without gaps, at most keepFiles of them, and read back from the oldest to the current one they are a suffix of everything written |
| AuditLog.LosesExactly | internal/audit/audit.go:169-183 | no line is lost if and only if the log has rotated at most keepFiles times |
| AuditLog.FilesJustFull | internal/audit/audit.go:152-156 | the text of each rotated file has at least maxBytes bytes, and less without its last line; that of the current file has fewer; without a limit there is one file with every line |
| AuditLog.CutsWhereFull | internal/audit/audit.go:133-198 | what is written is cut into pieces exactly where the text of a file reaches maxBytes, one for each rotation; the rotated files are the last keepFiles of them, youngest first; a file that was over the limit when it was opened is closed by the first line |
| AuditLog.SizeIsText | internal/audit/audit.go:145-152 | the count of bytes is the length of the text of the file |
| AuditLog.Logger.WriteEntry | internal/audit/audit.go:133-159 | a closed log ignores the line; otherwise it is appended, and the files shift exactly when the limit is reached |
| AuditLog.Logger.RotateLocked | internal/audit/audit.go:161-198 | file k moves to k+1 up to keepFiles, the oldest goes, files beyond stay, and the current one is empty |
| AuditLog.WriteHolds | internal/audit/audit.go:133-159 | the renames on numbered files do to the log what appending and rotating do |
| AuditLog.Record | internal/audit/audit.go:114-131 | writing the lines of a run one by one leaves the files holding the log of that run |
| Snapshot.RestoreUndoesSave | web/server.go:2429-2484 | for files in any order, restoring what was saved gives the same ids with the same type, name and capacity or parties |
| Snapshot.RestoreDisjointExactly | web/server.go:2572-2703 | restoring keeps the nine maps disjoint if and only if the file gives no id two known types |
| Snapshot.RestoredSlots | web/server.go:2576-2579 | restoring any file reaches exactly the slots of entries with an id and a known type |
| Snapshot.LastEntryWins | web/server.go:2572-2703 | for any file, the last entry of a type and id gives the size, where a semaphore without capacity and a barrier without parties get one |
| Snapshot.LastNameWins | web/server.go:2572-2703 | for any file, the last entry of an id gives its name |
| Snapshot.KindRoundTrip | web/server.go:2581-2699 | the type name written for a kind selects the same kind when read |
| Snapshot.Registry.Create | web/server.go:1096-1568 | a create succeeds exactly for a fresh id of 1 to 256 characters, a name of at most 256 and a positive size where there is one, and keeps the nine maps disjoint; otherwise nothing changes |
| Snapshot.Registry.Delete | web/server.go:1571-1622 | a delete succeeds exactly for an existing id, takes it out of all nine maps and its name out of the scheduler, and leaves every other entry as it was |
| Snapshot.Registry.Save | web/server.go:2429-2473 | the file lists every primitive once and nothing else |
| Snapshot.Registry.Restore | web/server.go:2572-2703 | the loop applies the entries in order: empty ids and unknown types are skipped and sizes below one become one |
| Snapshot.ExistsInSome | web/server.go:152-163 | primExists is true if and only if some typed map has the id |

## Left out

- The concurrent primitives are transition functions on values, not classes with methods: an interleaving of several threads cannot be written as one method's body. Update in place by a single thread is not lost, since every step changes the shared memory of the state.
- RWLock, FairRWLock, Semaphore, CondVar and Barrier use the abstract queue; only for Mutex is it proved, in MutexOnQueue, that the pointer-level one may take its place. For the others the argument rests on the theorems of MSQueue.
- MutexLock.NobodyStranded: for callers that do not give up after the wake-up was committed to them; the `select` of waiter.go:196-204 may drop a delivered token. What a caller can check, whether its calls have a context, is decided by StrandsNobodyExactly.
- RWLock.NobodyStranded: the same condition, on writers only; readers may give up at any time. See its StrandsNobodyExactly.
- FairRWLock.NobodyStranded: the same condition; see its StrandsNobodyExactly.
- Semaphore.NobodyStranded: the same condition, for runs whose releases follow finished acquires; see its StrandsNobodyExactly.
- Barrier.ReturnsAfterAll: calls of a round start after wakeAll of the round before has returned; Break, Reset, WaitTimeout and WaitContext are not modelled.
- Barrier.IndicesOfRound: under the same discipline of calls.
- Barrier.NobodyLeftParked: under the same discipline of calls.
- CondVar.NoMissedWakeup: for waiters that find the predicate false before they wait, as WaitFor does.
- RWLock: the size counter of the reader queue, which no decision reads, is not kept.
- RWLock.WordWellFormed: calls that the library refuses by a panic about unmatched unlocks are not started.
- FairRWLock.WordWellFormed: likewise.
- Singleflight.OneFlightPerKey: for keys that are not forgotten; OneFlightExactly shows that this is the exact condition.
- Semaphore.Conservation: for release sizes whose sum with the capacity fits int32; ConservesExactly shows that this is the exact condition.
- Undisturbed calls, the lemmas named Alone and Woken: they say what a call achieves when no other thread takes a step; under interference only what is stated over runs is claimed.
- RWLock.RLockAlone: what RLock and RLockContext do with 2^30-1 readers, a panic and a wait, is modelled and not stated.
- FairRWLock.RLockAlone: likewise.
- MSQueue: dequeueReaders is modelled in FairRWLock, on the abstract queue.
- DeltaBroadcast.DeltaEqualsFull: for a session that starts with an empty copy and whose messages are sent in the order in which the baseline changed; the other orders are in DeltaRace. The text of the JSON and object keys with a meaning to JavaScript are not modelled.
- AuditLog: errors of the file system, the bounded channel and its dropped entries.
- DeltaRace: lost connections, several browsers at once, and the limit of one refresh a second.
- RateLimiter: a clock that goes back.
- Snapshot: handlers of several connections at the same time, the legacy file format, the contexts and metrics of primitives.
- WaitGroup and Once: no lemma is stated about them. WaitGroup repeats the re-check and drain of Barrier, and Once a plain mutex.
- Metrics, wait times, the writerHeld flag, wrap-around of 64-bit counters, HTTP and WebSocket handling, authentication, the scheduler, the client SDK and the rest of the browser code.
