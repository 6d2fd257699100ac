# Verified model of the threading library and the base64 codec

A Dafny model of the concurrency protocols under `POSIX/` (POSIX threads on Win32) and of the
base64 codec of the HTTP host, with proofs of the properties they exist for.
`dafny verify dfyconfig.toml` checks the whole project.

## How the protocols are modelled

Each protocol is a state machine: shared variables, plus one program counter for each of any
number of threads.  One step is one interlocked operation, one access to a shared field, or one
operation of the layer below.  `Ready` says when a thread can move and `After...` where it goes;
`Step` lets one thread move, `Reachable` is the end of some run, and every theorem about
`Reachable` states covers every interleaving.  Timeouts may strike at any time at which the code
allows them.  Progress is stated twice: some thread can always move, and (`CallsEnd`) unless new calls
are made every run, whatever its schedule, is short and ends with all calls returned or rightly waiting.  Where the code rewrites the fields of a structure under a lock, a
class has those fields and methods that do the same, proved equal to the functions that the state
machine uses.

| module | what it models |
|---|---|
| `Runs` | runs of a state machine: what every step keeps, and how long a run can be |
| `ThreadCounts` | sums over program counters, the tool of all invariants that count threads |
| `McsLock` | the MCS queue lock with handshake flags that hold 0, -1 or an event |
| `Semaphores` | counting semaphores with a value that goes negative, in 32-bit arithmetic |
| `Mutexes` | normal, recursive and error-checking mutexes |
| `CondVar` | condition variables, Algorithm 9 of Terekhov |
| `RwLocks` | read/write locks |
| `Barriers` | barriers, with the lock that another thread releases |
| `ThreadKeys` | thread-specific data: two families of doubly linked lists on the heap, and thread exit |
| `ThreadPool` | the pool of thread structs and the reuse counter in handles |
| `Base64` | the codec, the decoder in place |
| `CInts` | the range of a C `int` and its wrap-around |

The layers rest on each other by contract: the semaphores are atomic operations for the condition
variable, the barrier and so on, because `Semaphores.RefinesCountingSemaphore` shows that they refine
atomic ones, and likewise the mutex (`Mutexes.RefinesLock`) and the queue lock (`McsLock.RefinesLock`).
The read/write lock uses the condition variable as a wait that may end at any time.

Some state is history, which the code does not have and no step of the model depends on: `queue`,
`order` and `acquired` of `McsLock`, `posted` and `taken` of `Semaphores`, `round`, `arrived`, `left`,
`serials`, `arrivals` and `departures` of `Barriers`, and the ghost grid of `ThreadKeys` and ghost fields
of `ThreadPool`.

## Where code and documentation differ

- `sem_post_multiple` documents EINVAL for a count of zero or less.  The code has no such check: zero
  succeeds if the value is not negative, a negative count mostly fails with ERANGE, and no failure changes
  anything.  `Semaphores.PostManyIsExact` says for every count what is returned,
  `Semaphores.EinvalIsAsDocumentedWhen` is the exact condition under which EINVAL is returned as
  documented, and `Semaphores.EinvalIsNotAsDocumented` has two counts for which it is not.
- The comment on thread handles says that a copy of a destroyed thread's handle has a counter that differs
  from the present one, namely a smaller one.  Both hold until the counter goes round:
  `ThreadPool.StaleCopiesShowWhen` is the exact condition for "differs" and
  `ThreadPool.StaleCopiesAreSmallerWhen` that for "smaller", and `ThreadPool.StaleCopiesCanMislead` makes
  a pool, for any size of the counter, with copies that do not.  The structs form a queue, though the
  comment calls them a stack.
- A comment of `pthread_cond_destroy` says that, once the test for waiters has failed, it is safe to
  destroy.  `CondVar.DestroyIsSafeWhen` gives the exact condition under which no other call is still
  inside: no signaller has still to post; `CondVar.PosterCanBeLate` is a run in which one has.
- The decoder has no notion of padding: given the padded text it returns a length that is too large.
  `Base64.PaddingMustBeCut` gives the exact condition.

## Model

| member | source | states |
|---|---|---|
| `CondVar.CondCounters.AccountForLeaving` | POSIX/pthread_cond_wait.c:298-302 | a waiter that stops waiting makes the waiters accounted for one less, be they promised a wakeup or not; the result is 1 exactly for the one that ends a wave, and the reset is asked for exactly at INT_MAX / 2 |
| `CondVar.CondCounters.SignalBeforeGate` | POSIX/pthread_cond_signal.c:94-112 | the first look of a signaller: no-op, join the wave under way, or close the gate; the new counters are those of the specification function, and no waiter is lost or made up |
| `CondVar.CondCounters.SignalBehindGate` | POSIX/pthread_cond_signal.c:121-135 | starting a wave behind the closed gate: the gone are written off, the waiters accounted for stay the same, and exactly the waiters to unblock are signalled |
| `CondVar.StepKeepsInv` | POSIX/pthread_cond_wait.c:276-452 | every atomic step of wait, timed wait, signal, broadcast and destroy keeps the invariant of gate, mutex, accounts and wakeups |
| `CondVar.NoWakeupIsLost` | POSIX/pthread_cond_signal.c:94-148 | units of the queue semaphore, plus signals counted and not posted, plus units taken and not accounted for, cover nWaitersToUnblock, whenever waiters time out; and no more wakeups are promised than there are waiters |
| `CondVar.AccountsAreExact` | POSIX/pthread_cond_wait.c:298-327 | whenever mtxUnblockLock is free, nWaitersBlocked - nWaitersGone + nWaitersToUnblock is the number of registered waiters, 0 <= nWaitersGone <= nWaitersBlocked, and a wave under way excludes gone waiters |
| `CondVar.DestroyTestIsExact` | POSIX/pthread_cond_destroy.c:164-174 | the busy test of destroy holds if and only if some thread is a registered waiter |
| `CondVar.OneGateToken` | POSIX/pthread_cond_wait.c:335-342 | the gate is open, or held by exactly one thread, or closed by the wave; while a wave is released nobody holds it, so nobody joins |
| `CondVar.GateIsOpenedOnce` | POSIX/pthread_cond_wait.c:302-342 | over any run: the times that semBlockLock was taken and those that it was posted differ by one while it is taken and by none else, and no post finds it posted already: each closing of the gate is opened exactly once, but for the present one |
| `CondVar.DecisionCovers` | POSIX/pthread_cond_signal.c:94-140 | at its linearization point a broadcast, through any branch, has promised a wakeup to every registered waiter, and a signal to one more if there is one; it then posts exactly the difference; behind the gate there is always somebody to unblock in spite of the racy test |
| `CondVar.WaveIsClosed` | POSIX/pthread_cond_wait.c:386-396 | no step of a thread that does not hold the gate adds a waiter while a wave is released; those outside the wave can only be taken into it |
| `CondVar.WaveReleasesPromised` | POSIX/pthread_cond_wait.c:386-452 | over a run: by the end of a wave at least as many waiters have stopped waiting as wakeups were promised at any time in it |
| `CondVar.DecisionIsCarriedOut` | POSIX/pthread_cond_signal.c:94-148 | over a run: from the deciding step of a signal or broadcast, through any branch, to the end of its wave at least as many waiters stop waiting as it has promised wakeups, and nobody joins them |
| `CondVar.BroadcastReleasesEveryone` | POSIX/pthread_cond_signal.c:121-148 | over a run: from the deciding step of a broadcast to the end of its wave every waiter it found stops waiting, and nobody joins meanwhile |
| `CondVar.CountersFitInt` | POSIX/pthread_cond_wait.c:302-327 | with at most INT_MAX / 2 threads the counters stay in the range of an int |
| `CondVar.PostsFit` | POSIX/pthread_cond_signal.c:140-148 | although waiters that time out leave units behind, the queue semaphore has room for every post: none takes it beyond n * n + n units for n threads, which is within SEM_VALUE_MAX for up to 46340 |
| `CondVar.MutexHolderGetsGate` | POSIX/pthread_cond_wait.c:302-327 | a thread that holds mtxUnblockLock while it waits for the gate finds it open, or the thread that has it can move and does not need the mutex |
| `CondVar.WaveMoves` | POSIX/pthread_cond_wait.c:335-342 | while a wave is released some registered waiter or signaller has a step to take |
| `CondVar.NoDeadlock` | POSIX/pthread_cond_signal.c:112-148 | whenever a thread is inside other than to wait for a signal, or a wakeup is promised, some thread has a step to take |
| `CondVar.CallsEnd` | POSIX/pthread_cond_wait.c:276-452 | unless new calls are made every run ends, after at most 13 steps a thread and one; and then, unless the condition variable was destroyed, every call has returned, but for waits that no signal has reached |
| `CondVar.DestroyFindsOnlyPosters` | POSIX/pthread_cond_destroy.c:129-174 | when destroy succeeds no other call is past its first lock, except a signal or broadcast that has still to post |
| `CondVar.DestroyIsSafeWhen` | POSIX/pthread_cond_destroy.c:164-181 | when destroy succeeds no other call is past its first lock if and only if no signaller has still to post |
| `CondVar.PosterCanBeLate` | POSIX/pthread_cond_destroy.c:129-181 | that exception is real: a run in which destroy succeeds while a signaller has still to post to the queue semaphore |
| `McsLock.StepKeepsInv` | POSIX/ptw32_MCS_lock.c:172-305 | every atomic step of acquire, try-acquire, release and transfer keeps the invariant of the queue, its links and its handshake flags |
| `McsLock.OneOwner` | POSIX/ptw32_MCS_lock.c:172-239 | at most one thread owns the lock, and its node is the head of the queue |
| `McsLock.RefinesLock` | POSIX/ptw32_MCS_lock.c:172-305 | every step takes the lock when it was free and is recorded as the next grant, or is the owner giving it up, or leaves it as it is: the queue lock refines a lock |
| `McsLock.GrantsFollowArrivals` | POSIX/ptw32_MCS_lock.c:181-191 | ownership passes in exactly the order of the tail exchanges |
| `McsLock.QueueChanges` | POSIX/ptw32_MCS_lock.c:206-305 | the queue changes only by a tail exchange at its end, a release at its head, and a transfer that puts the new node in the place of the old |
| `McsLock.StepLeavesAlone` | POSIX/ptw32_MCS_lock.c:172-305 | a step reads and writes only the nodes that its thread touches: it leaves every other node as it is, and is possible with the same effect whatever that node contains |
| `McsLock.FreeNodeIsUntouched` | POSIX/ptw32_MCS_lock.c:226-238 | once release, or transfer of the old node, has returned, no step of any thread reads or writes that node until a thread takes it into use again, and then no other thread does until it is queued |
| `McsLock.NodeIsUntouchedBeforeReturn` | POSIX/ptw32_MCS_lock.c:231-238 | already when release or transfer has waited for nextFlag no step of another thread reads or writes the node |
| `McsLock.KnownSuccessorMayStillWrite` | POSIX/ptw32_MCS_lock.c:231-235 | the wait for nextFlag is needed even if next is known: a reachable state in which the owner knows its successor, and the successor's next step writes the owner's node |
| `McsLock.HeadIsAwake` | POSIX/ptw32_MCS_lock.c:106-158 | a waiter at the head of the queue can always go on: the flag set is never lost to a waiter that is storing its event |
| `McsLock.OwnerOrSuccessorMoves` | POSIX/ptw32_MCS_lock.c:226-235 | an owner that waits for its successor to link itself can go on, or the successor can |
| `McsLock.NoStall` | POSIX/ptw32_MCS_lock.c:107-158 | whenever the queue is not empty and its owner is not in the critical section, some thread in the code of the lock has a step to take |
| `McsLock.CallsEnd` | POSIX/ptw32_MCS_lock.c:172-305 | unless new calls are made every run ends, after at most 8 steps a thread; and then all calls have returned, or the lock is held |
| `Semaphores.Semaphore.SemPostMultiple` | POSIX/sem_post_multiple.c:88-126 | the new state and result are those of PostMany, including the undone addition when the release fails |
| `Semaphores.Semaphore.SemPost` | POSIX/sem_post.c:84-111 | the new state and result are those of Post |
| `Semaphores.Semaphore.Enter` | POSIX/ptw32_semwait.c:77-94 | a wait takes an available unit, or else blocks and is one more to be let through; it blocks exactly if all available units have been posted for others |
| `Semaphores.Semaphore.SemTryWait` | POSIX/sem_trywait.c:87-101 | a try takes an available unit unless all have been posted for others, and then fails with EAGAIN and changes nothing; it never makes the caller one to be let through |
| `Semaphores.Semaphore.Cleanup` | POSIX/sem_timedwait.c:64-93 | a wait that timed out is no longer to be let through; it takes a unit that was posted meanwhile, or else reports ETIMEDOUT and takes none |
| `Semaphores.PostManyIsExact` | POSIX/sem_post_multiple.c:88-129 | for every 32-bit count: when it succeeds, when it fails with EINVAL and when with ERANGE, and what is posted |
| `Semaphores.EinvalIsAsDocumentedWhen` | POSIX/sem_post_multiple.c:72-129 | EINVAL is returned exactly for counts of zero or less, as documented, if and only if the count is positive, or there are waiters and the count is zero or so low that the comparison wraps |
| `Semaphores.EinvalIsNotAsDocumented` | POSIX/sem_post_multiple.c:72-129 | an instance: zero succeeds and -1 fails with ERANGE |
| `Semaphores.UnitsAreConserved` | POSIX/sem_timedwait.c:64-93 | max(0, -value) plus the units of the system semaphore is the number of threads that decremented below zero and have not finished; no unit is created or lost; the value never exceeds SEM_VALUE_MAX |
| `Semaphores.RefinesCountingSemaphore` | POSIX/sem_timedwait.c:99-211 | each step takes one available unit, adds the posted ones or changes nothing, as its label says, and fails only with the error and in the case named there: the pair refines a counting semaphore |
| `Semaphores.BlockedWaitsForUnitsOnly` | POSIX/ptw32_semwait.c:97-108 | a blocked thread can go on if and only if a unit is available |
| `Semaphores.WakeupsFit` | POSIX/sem_post_multiple.c:105-112 | a post always finds room for the wakeups it owes |
| `Mutexes.StepKeepsInv` | POSIX/pthread_mutex_timedlock.c:142-203 | every atomic step of lock, timed lock, try lock and unlock keeps the invariant |
| `Mutexes.MutualExclusion` | POSIX/pthread_mutex_lock.c:77-144 | at most one thread holds the mutex, and the word is 0 if and only if none does |
| `Mutexes.RefinesLock` | POSIX/pthread_mutex_lock.c:77-144 | every step takes the mutex when it was free, gives it up when the thread held it, or leaves the holders alone: the mutex refines a lock |
| `Mutexes.AnswersAreTrue` | POSIX/pthread_mutex_timedlock.c:142-203 | a lock, timed lock or try lock that returns success holds the mutex once more than before; one that answers EDEADLK, EBUSY or ETIMEDOUT holds it as often as before; only a timed wait times out |
| `Mutexes.HolderWillWake` | POSIX/pthread_mutex_lock.c:80-97 | while a thread sleeps, the word is -1, or the event is set, or some thread is about to mark the word or to set the event, although the fast path overwrites the mark |
| `Mutexes.FreeMutexMoves` | POSIX/pthread_mutex_unlock.c:62-109 | a free mutex strands nobody: some thread in its code has a step to take, timeouts left aside |
| `Mutexes.CallsEnd` | POSIX/pthread_mutex_lock.c:77-144 | unless new calls are made every run ends, after at most 6 steps a thread and two, in spite of the loop around the event; and then every call has returned, or sleeps while a thread holds the mutex and the word is -1 |
| `Mutexes.OwnerChecksAreExact` | POSIX/pthread_mutex_lock.c:99-144 | recursive and error-checking mutexes answer by the own holding of the caller: count, EDEADLK, EBUSY, EPERM, although the owner is read without a lock |
| `RwLocks.RwCounts.ReaderArrives` | POSIX/pthread_rwlock_rdlock.c:83-84 | the counts stand for one reader more, and overflow is reported exactly at INT_MAX |
| `RwLocks.RwCounts.ReaderFolds` | POSIX/pthread_rwlock_rdlock.c:92-93 | the fold keeps the number of readers that the counts stand for, and makes room in the shared count |
| `RwLocks.RwCounts.ReaderLeaves` | POSIX/pthread_rwlock_unlock.c:78-81 | the counts stand for one reader less, be a writer draining or not; it signals exactly when the drained readers are all gone |
| `RwLocks.RwCounts.WriterClaims` | POSIX/pthread_rwlock_wrlock.c:89-131 | a writer keeps the number of readers, and must wait for them exactly if there are any; otherwise it claims the lock |
| `RwLocks.RwCounts.WriterTries` | POSIX/pthread_rwlock_trywrlock.c:90-120 | a try keeps the number of readers, and is busy exactly if there are any or the lock is held exclusively; otherwise it claims the lock |
| `RwLocks.RwCounts.WriterCancels` | POSIX/ptw32_rwlock_cancelwrwait.c:47-48 | a writer that gives up turns the drain back into a count of exactly the readers that are left |
| `RwLocks.StepKeepsInv` | POSIX/pthread_rwlock_timedwrlock.c:79-141 | every atomic step of all lock, try, timed and unlock operations keeps the invariant |
| `RwLocks.WriterIsAlone` | POSIX/pthread_rwlock_wrlock.c:89-132 | a writer excludes readers and other writers |
| `RwLocks.CountsAreExact` | POSIX/pthread_rwlock_wrlock.c:91-124 | active readers are nSharedAccessCount - nCompletedSharedAccessCount, or -nCompletedSharedAccessCount while a writer drains, across folds, spurious wakeups and writers that time out |
| `RwLocks.UnlockPicksOwnBranch` | POSIX/pthread_rwlock_unlock.c:70-91 | the unlocked read of nExclusiveAccessCount always picks the branch of the caller |
| `RwLocks.WritersNeverFindBusy` | POSIX/pthread_rwlock_wrlock.c:89-134 | no writer that has both mutexes finds the lock held exclusively |
| `RwLocks.NoDeadlock` | POSIX/pthread_rwlock_unlock.c:70-91 | while nobody reads or writes and some thread is in the code of the lock, some thread has a step to take |
| `RwLocks.CallsEnd` | POSIX/pthread_rwlock_wrlock.c:99-118 | unless new calls are made, or a wait ends for no reason, every run ends, after at most 9 steps a thread and four, in spite of the loop around the condition wait; and then every call has returned, or some thread reads or writes |
| `RwLocks.SleeperHasHelp` | POSIX/pthread_rwlock_wrlock.c:99-118 | what a draining writer waits for can move |
| `Barriers.StepKeepsInv` | POSIX/pthread_barrier_wait.c:56-103 | every atomic step keeps the invariant of lock, height, semaphore and round |
| `Barriers.RoundsNeverMix` | POSIX/pthread_barrier_wait.c:56-103 | a thread inside takes part in the current round; nobody leaves a round before as many as the height arrived, and nobody arrives before that many left |
| `Barriers.OneSerialThreadARound` | POSIX/pthread_barrier_wait.c:92-103 | all calls that ever arrived are height times the calls that returned PTHREAD_BARRIER_SERIAL_THREAD, plus those of the present round, and likewise all that ever left; when all of a round have left one thread is about to be its serial one |
| `Barriers.DecrementIsAlone` | POSIX/pthread_barrier_wait.c:59-93 | the plain decrement never overlaps an interlocked increment or another decrement |
| `Barriers.OneReleaser` | POSIX/pthread_barrier_wait.c:92-102 | one thread releases the transferred lock, and only when nobody else is inside |
| `Barriers.BarrierOpens` | POSIX/pthread_barrier_wait.c:59-103 | a barrier that was reached, or has a thread inside that is not asleep, has a thread with a step to take |
| `Barriers.CallsEnd` | POSIX/pthread_barrier_wait.c:56-103 | unless new calls are made every run ends, after at most 8 steps a thread; and then nobody is inside but as many sleepers as have arrived, fewer than the height, with the lock free and no unit left over |
| `ThreadKeys.RemovalKeepsRest` | POSIX/ptw32_tkAssocDestroy.c:86-93 | taking an association off a chain and moving the cursor past it removes it, and nothing else, from what is left to scan |
| `ThreadKeys.RemovalKeepsCrossing` | POSIX/ptw32_tkAssocDestroy.c:65-114 | all other associations stay on both their lists |
| `ThreadKeys.PairIsUnique` | POSIX/ptw32_tkAssocCreate.c:45-56 | no two associations are of one thread and one key |
| `ThreadKeys.UnlinkFromChains` | POSIX/ptw32_tkAssocDestroy.c:69-93 | unlinking in place keeps every chain linked both ways, in order, and every cursor on what was left of its chain |
| `ThreadKeys.UnlinkFromRows` | POSIX/ptw32_tkAssocDestroy.c:95-111 | unlinking in place keeps every row linked both ways, in order |
| `ThreadKeys.TkAssocDestroy` | POSIX/ptw32_tkAssocDestroy.c:45-116 | the grid without the association, consistent, with all cursors on the remaining suffixes |
| `ThreadKeys.TkAssocCreate` | POSIX/ptw32_tkAssocCreate.c:86-118 | the grid with a new association at the head of both its lists, consistent, with all cursors on what they had still to visit; without memory nothing changes |
| `ThreadKeys.KeyCreate` | POSIX/pthread_key_create.c:80-110 | a new key has a slot that is NULL for every thread, and an empty row; nothing else changes |
| `ThreadKeys.ThreadStart` | POSIX/create.c:205-215 | a new thread has an empty chain and NULL for every key; no other chain, nor what is left to scan of it, changes |
| `ThreadKeys.SetSpecific` | POSIX/pthread_setspecific.c:108-168 | the slot is set; an association is added if and only if key and value need one and there is none; no cursor moves; ENOMEM is returned exactly if an association is needed and there is no memory, and then nothing changes |
| `ThreadKeys.SettingKeepsCovered` | POSIX/pthread_setspecific.c:112-157 | every value that a destructor must see has an association |
| `ThreadKeys.KeyDelete` | POSIX/pthread_key_delete.c:74-124 | exactly the associations and slots of the key are gone; every other row is unchanged; every chain, and what is left to scan of it, keeps its order; every value with a destructor stays covered |
| `ThreadKeys.DrainKey` | POSIX/pthread_key_delete.c:88-108 | the loop that destroys the head of the row until it is empty |
| `ThreadKeys.WithoutForeignKey` | POSIX/pthread_key_delete.c:80-87 | deleting a key leaves lists without it unchanged |
| `ThreadKeys.CallUserDestroyRoutines` | POSIX/ptw32_callUserDestroyRoutines.c:79-234 | whatever destructors and other threads do, which may set values, with or without memory, delete and create keys, start threads and run their own exits: at most ITERATIONS passes call destructors and one more follows, each call is for a non-NULL value and at most once per key and pass, the chain is empty on return and no value with a destructor is left; if nobody interferes, exactly the owed calls are made, in order |
| `ThreadKeys.CallDestructor` | POSIX/ptw32_callUserDestroyRoutines.c:169-215 | a destructor is called only with a non-NULL value whose slot is already cleared, in one of the allowed passes |
| `ThreadKeys.Visit` | POSIX/ptw32_callUserDestroyRoutines.c:156-229 | one iteration: the cursor moves on, the slot is cleared, and the association is kept for its destructor or destroyed |
| `ThreadKeys.VisitKeepsCalls` | POSIX/ptw32_callUserDestroyRoutines.c:156-229 | no visit calls a destructor twice for one key in one pass, and a pass without calls destroys all it visits |
| `ThreadKeys.VisitKeepsQuiet` | POSIX/ptw32_callUserDestroyRoutines.c:156-229 | calls made and calls owed add up to the values held at exit |
| `ThreadKeys.OwedIgnores` | POSIX/ptw32_callUserDestroyRoutines.c:169-170 | clearing the slot of one key leaves the calls owed for the others |
| `ThreadPool.Pool.ReusePop` | POSIX/ptw32_reuse.c:80-109 | the struct that was pushed first is taken off the pool; an empty pool yields the NULL handle |
| `ThreadPool.Pool.ReusePush` | POSIX/ptw32_reuse.c:118-155 | the struct is wiped but for its handle, its counter is bumped, and it becomes the last of the pool |
| `ThreadPool.Pool.New` | POSIX/ptw32_new.c:44-100 | with no other call between: the oldest pooled struct or a new one with counter 0 is issued, unless memory or the event fails; a struct whose event failed goes back to the end of the pool |
| `ThreadPool.Pool.Obtain` | POSIX/ptw32_new.c:50-72 | the part up to the default state: the oldest pooled struct, or a new one, is out of the pool and not live, and all others are as they were; without memory nothing changes |
| `ThreadPool.Pool.Destroy` | POSIX/ptw32_threadDestroy.c:45-82 | the struct goes to the end of the pool with its counter bumped; exactly the system handles it held before are closed |
| `ThreadPool.HandlesAreUnique` | POSIX/ptw32_reuse.c:43-74 | before any counter has gone round no two handles ever issued are equal |
| `ThreadPool.HandlesAreEqualWhen` | POSIX/ptw32_reuse.c:63-67 | two issued handles are equal if and only if they are of one struct and the bumps between them add up to a multiple of the counter size |
| `ThreadPool.StaleCopiesShow` | POSIX/ptw32_reuse.c:69-72 | while the counter has not gone round since, a copy differs from the present handle of its struct if and only if its thread was destroyed |
| `ThreadPool.StaleCopiesShowWhen` | POSIX/ptw32_reuse.c:132-137 | at any time: a copy differs if and only if the bumps since then do not add up to a multiple of the counter size |
| `ThreadPool.StaleCopiesAreSmallerWhen` | POSIX/ptw32_reuse.c:69-72 | at any time: a copy is smaller than the present handle, as the comment has it, if and only if the bumps since then neither add up to a multiple of the counter size nor take the counter past it |
| `ThreadPool.CounterGoesRound` | POSIX/ptw32_reuse.c:132-137 | after as many reuses as the counter has values it is back where it was, for every increment |
| `ThreadPool.StaleCopiesCanMislead` | POSIX/ptw32_reuse.c:69-72 | for every size of the counter, a pool with a stale copy that equals the present handle of its struct, and, with increments of 1, a stale copy that is larger |
| `Base64.Encode` | StackHost/core/http.c:169-212 | the output buffer holds the padded text of the input, a zero after it, and is unchanged beyond; the length returned is that of whole groups |
| `Base64.Decode` | StackHost/core/http.c:214-257 | decoding in place leaves the decoded text at the front, a zero after it, and the rest unchanged, for every size and every content, and returns its length; from the symbols of any byte string it makes that string |
| `Base64.EncodingSpellsInput` | StackHost/core/http.c:183-205 | the encoding of section 4 of RFC 4648: the symbols, six bits each, spell the input, eight bits each, completed with zero bits |
| `Base64.RoundTrip` | StackHost/core/http.c:169-257 | decoding the symbols of any byte string gives it back |
| `Base64.TextDecodes` | StackHost/core/http.c:169-257 | cutting an encoded text at its padding and decoding it gives the input back |
| `Base64.PaddingMustBeCut` | StackHost/core/http.c:207-224 | decoding the padded text leaves the input at the front, and returns its length if and only if there was no padding |
| `Base64.ReEncoding` | StackHost/core/http.c:214-257 | encoding what was decoded gives the symbols back if and only if they are canonical: no lone symbol and no stray bits in the last one |
| `Base64.SymbolsAreInverse` | StackHost/core/http.c:111-131 | the decoding table undoes the alphabet of the encoder |

## Left out

- Win32 itself: an auto-reset event is a boolean, a system semaphore a count, thread-local storage a map; creating objects, SetEvent and ReleaseSemaphore (within its maximum) succeed, except where a method takes the failure as a parameter.
- The variants for systems without ReleaseSemaphore (NEED_SEM), which this configuration does not build.
- Cancellation and unwinding: `pthread_cancel`, cleanup handlers run by it, and the cancel handler of `sem_wait`.
- Robust mutexes and owner death: the state check and the exchange of the lock word are separate steps there, and the clean statements do not hold over all interleavings.
- `pthread_rwlock_timedrdlock`, whose overflow path changes the completed count without its mutex; the other read locks are modelled for fewer than INT_MAX threads.
- Weak memory: interlocked operations, and the plain accesses between them, are sequentially consistent.
- Static initializers, attribute objects, the list of all condition variables, and argument checks for NULL.
- Error returns of the inner locks and semaphores, which the contracts of the lower layers exclude; for the posts of a signaller, with up to 46340 threads (`CondVar.PostsFit`).
- RwLocks.CallsEnd: does not bound runs in which condition waits keep ending for no reason, which can keep a draining writer in its loop for as long as they do.
- The caller's mutex of a condition wait: it is released and taken back outside the modelled state.
- Use after destruction: a run of `CondVar` ends at `pthread_cond_destroy`; `CondVar.PosterCanBeLate` shows that a signaller may still owe a post to the destroyed queue semaphore, and what that post then does is not modelled.
- Unlocking a Normal mutex by a thread that does not hold it, which the code does not notice.
- Contention for the two locks of an association: `ThreadKeys` runs each critical section as one method and other threads act only between them; a failed try-lock changes nothing, so any finite number of retries is covered, and that they come to an end is not proved.
- `pthread_getspecific`, the error returns of `pthread_key_create`, and a destructor that calls `pthread_exit`.
- ThreadPool.Pool.New: does not model concurrent calls; the code holds the reuse lock only inside the pop and the push, and increments the sequence number without a lock, so that between concurrent calls a struct's number need not be the last one issued.  It does not set scheduling, cancellation and affinity defaults either, which the pool does not depend on.
- Base64.Encode: does not model 32-bit wrap-around of the output length, which needs inputs of 3 * 2^30 bytes or more.
- Base64.Decode: does not model sizes of 2^31 - 3 or more, for which the signed count of symbols wraps; `http_base64_length`, a scan for the first character that is not a symbol, is left out as easy.
- The HTTP server, the multipart and URL code, the compiler, the virtual machine and its allocator.
