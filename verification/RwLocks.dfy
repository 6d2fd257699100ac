/** The read/write lock.

Three counts, two mutexes and a condition variable: nSharedAccessCount and
nCompletedSharedAccessCount count the readers that came and went, each under its own mutex, so
that readers do not wait for readers; a writer that finds readers turns the completed count
negative and waits until they have brought it back to zero.  `Counts` holds the three; the
functions on them are the bodies of the critical sections, and class `RwCounts` executes those
bodies in place.  The mutexes are used through the contract proved in module Mutexes and the
condition variable through that of module CondVar: a wait may end at any time.
*/
module RwLocks {
  import opened CInts
  import opened ThreadCounts
  import Runs

  // ---------------------------------------------------------------------------------------
  // The critical sections
  // ---------------------------------------------------------------------------------------

  /** nSharedAccessCount, nCompletedSharedAccessCount and nExclusiveAccessCount. */
  datatype Counts = Counts(shared: int, completed: int, exclusive: int)

  /** The readers that went are taken off those that came. */
  function Fold(c: Counts): Counts {
    Counts(c.shared - c.completed, 0, c.exclusive)
  }

  function FoldIfAny(c: Counts): Counts {
    if c.completed > 0 then Fold(c) else c
  }

  /** A writer that has both mutexes looks for readers. */
  datatype Finding = Free | Busy | Drain

  function Look(c: Counts): Finding {
    if c.exclusive == 0 && FoldIfAny(c).shared > 0 then Drain
    else if c.exclusive == 0 then Free
    else Busy
  }

  /** ... and claims the lock, or sets the completed count to what it has to wait for. */
  function Claim(c: Counts): Counts {
    match Look(c)
    case Drain => var f := FoldIfAny(c); f.(completed := -f.shared)
    case Free => var f := FoldIfAny(c); f.(exclusive := f.exclusive + 1)
    case Busy => c.(exclusive := c.exclusive + 1)
  }

  function TryClaim(c: Counts): Counts {
    match Look(c)
    case Drain => FoldIfAny(c)
    case Free => FoldIfAny(c).(exclusive := 1)
    case Busy => c
  }

  /** A writer that gives up while readers remain. */
  function CancelDrain(c: Counts): Counts {
    Counts(-c.completed, 0, c.exclusive)
  }

  /** The readers that the counts stand for, while a writer drains and otherwise. */
  function Readers(c: Counts, draining: bool): int {
    if draining then -c.completed else c.shared - c.completed
  }

  class RwCounts {
    var nSharedAccessCount: int
    var nCompletedSharedAccessCount: int
    var nExclusiveAccessCount: int

    function View(): Counts
      reads this
    {
      Counts(nSharedAccessCount, nCompletedSharedAccessCount, nExclusiveAccessCount)
    }

    /** One reader more; no writer drains, as the caller holds mtxExclusiveAccess. */
    method ReaderArrives() returns (overflow: bool)
      modifies this
      ensures View() == old(View()).(shared := old(nSharedAccessCount) + 1)
      ensures Readers(View(), false) == Readers(old(View()), false) + 1
      ensures overflow == (nSharedAccessCount == INT_MAX)
    {
      nSharedAccessCount := nSharedAccessCount + 1;
      overflow := nSharedAccessCount == INT_MAX;
    }

    /** The fold makes room in the shared count and keeps the number of readers. */
    method ReaderFolds()
      modifies this
      ensures View() == Fold(old(View()))
      ensures Readers(View(), false) == Readers(old(View()), false)
      ensures old(nCompletedSharedAccessCount) > 0 ==> nSharedAccessCount < old(nSharedAccessCount)
    {
      nSharedAccessCount := nSharedAccessCount - nCompletedSharedAccessCount;
      nCompletedSharedAccessCount := 0;
    }

    /** One reader less, whether or not a writer drains; the last one it drains signals. */
    method ReaderLeaves() returns (signal: bool)
      modifies this
      ensures View() == old(View()).(completed := old(nCompletedSharedAccessCount) + 1)
      ensures forall draining :: Readers(View(), draining) == Readers(old(View()), draining) - 1
      ensures signal <==> Readers(View(), true) == 0
    {
      nCompletedSharedAccessCount := nCompletedSharedAccessCount + 1;
      signal := nCompletedSharedAccessCount == 0;
    }

    /** pthread_rwlock_wrlock up to its wait. */
    method WriterClaims() returns (mustWait: bool)
      modifies this
      ensures View() == Claim(old(View()))
      ensures mustWait == Look(old(View())).Drain?
      ensures old(nExclusiveAccessCount) == 0 && old(nCompletedSharedAccessCount) >= 0 ==>
                && Readers(View(), mustWait) == Readers(old(View()), false)
                && (mustWait <==> Readers(old(View()), false) > 0)
    {
      mustWait := false;
      if nExclusiveAccessCount == 0 {
        if nCompletedSharedAccessCount > 0 {
          nSharedAccessCount := nSharedAccessCount - nCompletedSharedAccessCount;
          nCompletedSharedAccessCount := 0;
        }
        if nSharedAccessCount > 0 {
          nCompletedSharedAccessCount := -nSharedAccessCount;
          mustWait := true;
        }
      }
      if !mustWait {
        nExclusiveAccessCount := nExclusiveAccessCount + 1;
      }
    }

    method WriterTries() returns (busy: bool)
      modifies this
      ensures View() == TryClaim(old(View()))
      ensures busy == !Look(old(View())).Free?
      ensures Readers(View(), false) == Readers(old(View()), false)
      ensures old(nExclusiveAccessCount) == 0 && old(nCompletedSharedAccessCount) >= 0 ==>
                (busy <==> Readers(old(View()), false) > 0)
    {
      busy := true;
      if nExclusiveAccessCount == 0 {
        if nCompletedSharedAccessCount > 0 {
          nSharedAccessCount := nSharedAccessCount - nCompletedSharedAccessCount;
          nCompletedSharedAccessCount := 0;
        }
        if nSharedAccessCount <= 0 {
          nExclusiveAccessCount := 1;
          busy := false;
        }
      }
    }

    /** A drain that ends turns back into a count of the readers that are left. */
    method WriterCancels()
      modifies this
      ensures View() == CancelDrain(old(View()))
      ensures Readers(View(), false) == Readers(old(View()), true) && nCompletedSharedAccessCount == 0
    {
      nSharedAccessCount := -nCompletedSharedAccessCount;
      nCompletedSharedAccessCount := 0;
    }
  }

  // ---------------------------------------------------------------------------------------
  // The protocol
  // ---------------------------------------------------------------------------------------

  /** How a writer asks: pthread_rwlock_wrlock, _timedwrlock or _trywrlock. */
  datatype Mode = Wait | Timed | Try

  /** Where a thread is; each names the step the thread takes next. */
  datatype PC =
    | Out
      // pthread_rwlock_rdlock and pthread_rwlock_tryrdlock
    | RdLockE                  // lock or trylock mtxExclusiveAccess
    | RdArrive
    | RdLockS                  // overflow: lock mtxSharedAccessCompleted
    | RdFold
    | RdUnlockS
    | RdUnlockE
    | Reading
      // pthread_rwlock_wrlock, _timedwrlock, _trywrlock
    | WrLockE(mode: Mode)
    | WrLockS(mode: Mode)
    | WrClaim(mode: Mode)
    | WrWait(timed: bool)      // pthread_cond_wait: join the waiters, unlock mtxSharedAccessCompleted
    | WrSleep(timed: bool)
    | WrRelock(timed: bool, late: bool)  // late: the wait timed out
    | WrCheck(timed: bool, late: bool)
    | WrGiveUpS                // unlock both mutexes and return an error
    | WrGiveUpE
    | WrLeaked                 // returned EBUSY without unlocking
    | Writing
      // pthread_rwlock_unlock
    | UnLook(writer: bool)     // is nExclusiveAccessCount 0?
    | UnLockS
    | UnLeave
    | UnSignal
    | UnUnlockS
    | UnWriter                 // nExclusiveAccessCount--
    | UnWriterS
    | UnWriterE

  /** `e` and `s` are 1 when the mutexes are free; `signalled`: the waiting writer was woken. */
  datatype Shared = Shared(c: Counts, e: nat, s: nat, signalled: bool)

  datatype Outcome = Outcome(m: Shared, q: PC)

  predicate Ready(m: Shared, p: PC) {
    match p
    case Out | Reading | Writing | WrLeaked => false
    case RdLockE | WrLockE(_) => m.e > 0
    case WrLockS(mode) => m.s > 0 || mode == Try
    case RdLockS | UnLockS | WrRelock(_, _) => m.s > 0
    case WrSleep(_) => m.signalled
    case _ => true
  }

  predicate InRead(p: PC) {
    p.RdLockE? || p.RdArrive? || p.RdLockS? || p.RdFold? || p.RdUnlockS? || p.RdUnlockE?
  }

  function AfterRead(m: Shared, p: PC): Outcome
    requires Ready(m, p) && InRead(p)
  {
    match p
    case RdLockE => Outcome(m.(e := m.e - 1), RdArrive)
    case RdArrive =>
      var c' := m.c.(shared := m.c.shared + 1);
      Outcome(m.(c := c'), if c'.shared == INT_MAX then RdLockS else RdUnlockE)
    case RdLockS => Outcome(m.(s := m.s - 1), RdFold)
    case RdFold => Outcome(m.(c := Fold(m.c)), RdUnlockS)
    case RdUnlockS => Outcome(m.(s := m.s + 1), RdUnlockE)
    case RdUnlockE => Outcome(m.(e := m.e + 1), Reading)
  }

  predicate InWrite(p: PC) {
    p.WrLockE? || p.WrLockS? || p.WrClaim? || p.WrWait? || p.WrSleep? || p.WrRelock? || p.WrCheck?
    || p.WrGiveUpS? || p.WrGiveUpE?
  }

  function AfterWrite(m: Shared, p: PC): Outcome
    requires Ready(m, p) && InWrite(p)
  {
    match p
    case WrLockE(mode) => Outcome(m.(e := m.e - 1), WrLockS(mode))
    case WrLockS(mode) => if m.s > 0 then Outcome(m.(s := m.s - 1), WrClaim(mode)) else Outcome(m, WrGiveUpE)
    case WrClaim(mode) =>
      if mode == Try then
        Outcome(m.(c := TryClaim(m.c)),
                match Look(m.c) case Free => Writing case Drain => WrGiveUpS case Busy => WrLeaked)
      else
        Outcome(m.(c := Claim(m.c)), if Look(m.c) == Drain then WrWait(mode == Timed) else Writing)
    case WrWait(timed) => Outcome(m.(s := m.s + 1, signalled := false), WrSleep(timed))
    case WrSleep(timed) => Outcome(m, WrRelock(timed, false))
    case WrRelock(timed, late) => Outcome(m.(s := m.s - 1), WrCheck(timed, late))
    case WrCheck(timed, late) =>
      if late then Outcome(m.(c := CancelDrain(m.c)), WrGiveUpS)
      else if m.c.completed < 0 then Outcome(m, WrWait(timed))
      else Outcome(m.(c := m.c.(shared := 0, exclusive := m.c.exclusive + 1)), Writing)
    case WrGiveUpS => Outcome(m.(s := m.s + 1), WrGiveUpE)
    case WrGiveUpE => Outcome(m.(e := m.e + 1), Out)
  }

  predicate InUnlock(p: PC) {
    p.UnLook? || p.UnLockS? || p.UnLeave? || p.UnSignal? || p.UnUnlockS? || p.UnWriter? || p.UnWriterS? || p.UnWriterE?
  }

  function AfterUnlock(m: Shared, p: PC): Outcome
    requires Ready(m, p) && InUnlock(p)
  {
    match p
    case UnLook(_) => Outcome(m, if m.c.exclusive == 0 then UnLockS else UnWriter)
    case UnLockS => Outcome(m.(s := m.s - 1), UnLeave)
    case UnLeave =>
      var c' := m.c.(completed := m.c.completed + 1);
      Outcome(m.(c := c'), if c'.completed == 0 then UnSignal else UnUnlockS)
    case UnSignal => Outcome(m.(signalled := true), UnUnlockS)
    case UnUnlockS => Outcome(m.(s := m.s + 1), Out)
    case UnWriter => Outcome(m.(c := m.c.(exclusive := m.c.exclusive - 1)), UnWriterS)
    case UnWriterS => Outcome(m.(s := m.s + 1), UnWriterE)
    case UnWriterE => Outcome(m.(e := m.e + 1), Out)
  }

  /** Calls, waits that end early, and lock attempts that fail or time out. */
  predicate Chance(p: PC, q: PC) {
    || (p == Out && (q == RdLockE || q.WrLockE?))
    || (p == Reading && q == UnLook(false))
    || (p == Writing && q == UnLook(true))
    || (p == RdLockE && q == Out)
    || (p.WrLockE? && p.mode != Wait && q == Out)
    || (p == WrLockS(Timed) && q == WrGiveUpE)
    || (p.WrSleep? && (q == WrRelock(p.timed, false) || (p.timed && q == WrRelock(true, true))))
  }

  predicate Move(m: Shared, p: PC, m': Shared, q: PC) {
    || (m' == m && Chance(p, q))
    || (Ready(m, p)
        && if InRead(p) then AfterRead(m, p) == Outcome(m', q)
           else if InWrite(p) then AfterWrite(m, p) == Outcome(m', q)
           else AfterUnlock(m, p) == Outcome(m', q))
  }

  datatype State = State(m: Shared, pcs: seq<PC>)

  ghost predicate Step(s: State, t: nat, s': State)
    requires t < |s.pcs|
  {
    && |s'.pcs| == |s.pcs|
    && s'.pcs == s.pcs[t := s'.pcs[t]]
    && Move(s.m, s.pcs[t], s'.m, s'.pcs[t])
  }

  /** Fewer than INT_MAX threads, so that the readers can be counted. */
  ghost predicate Init(s: State) {
    && s.m == Shared(Counts(0, 0, 0), 1, 1, false)
    && |s.pcs| < INT_MAX
    && forall t :: 0 <= t < |s.pcs| ==> s.pcs[t] == Out
  }

  ghost predicate Next(s: State, s': State) {
    exists t: nat :: t < |s.pcs| && Step(s, t, s')
  }

  ghost predicate Reachable(s: State) {
    Runs.Reachable(Init, Next, s)
  }

  // ---------------------------------------------------------------------------------------
  // The groups of threads the invariant counts
  // ---------------------------------------------------------------------------------------

  /** Readers from their arrival to their departure. */
  function Reads(p: PC): nat {
    if p.RdLockS? || p.RdFold? || p.RdUnlockS? || p.RdUnlockE? || p.Reading? || p == UnLook(false)
       || p.UnLockS? || p.UnLeave? then 1 else 0
  }

  function Writes(p: PC): nat {
    if p.Writing? || p == UnLook(true) || p.UnWriter? then 1 else 0
  }

  /** Writers waiting for the readers to drain. */
  function Drains(p: PC): nat {
    if p.WrWait? || p.WrSleep? || p.WrRelock? || p.WrCheck? then 1 else 0
  }

  function HoldsE(p: PC): nat {
    if p.RdArrive? || p.RdLockS? || p.RdFold? || p.RdUnlockS? || p.RdUnlockE? || p.WrLockS? || p.WrClaim?
       || Drains(p) == 1 || p.WrGiveUpS? || p.WrGiveUpE? || p.WrLeaked? || Writes(p) == 1
       || p.UnWriterS? || p.UnWriterE? then 1 else 0
  }

  function HoldsS(p: PC): nat {
    if p.RdFold? || p.RdUnlockS? || p.WrClaim? || p.WrWait? || p.WrCheck? || p.WrGiveUpS? || p.WrLeaked?
       || Writes(p) == 1 || p.UnLeave? || p.UnSignal? || p.UnUnlockS? || p.UnWriterS? then 1 else 0
  }

  /** Readers at the overflow, before the fold. */
  function Overflows(p: PC): nat {
    if p.RdLockS? || p.RdFold? then 1 else 0
  }

  /** What only the holder of mtxExclusiveAccess does. */
  function NeedsE(p: PC): nat {
    WritesOrDrains(p) + Overflows(p)
  }

  function WritesOrDrains(p: PC): nat {
    Writes(p) + Drains(p)
  }

  function Sleeps(p: PC): nat {
    if p.WrSleep? then 1 else 0
  }

  function Signals(p: PC): nat {
    if p.UnSignal? then 1 else 0
  }

  datatype Tally = Tally(
    readers: int, writers: int, drainers: int, e: int, s: int, overflows: int, sleepers: int, signals: int)

  ghost function Count(pcs: seq<PC>): Tally {
    Tally(Sum(pcs, Reads), Sum(pcs, Writes), Sum(pcs, Drains), Sum(pcs, HoldsE), Sum(pcs, HoldsS),
          Sum(pcs, Overflows), Sum(pcs, Sleeps), Sum(pcs, Signals))
  }

  // ---------------------------------------------------------------------------------------
  // The invariant
  // ---------------------------------------------------------------------------------------

  ghost predicate MutexesOk(m: Shared, n: Tally) {
    m.e + n.e == 1 && m.s + n.s == 1
  }

  ghost predicate CountsOk(c: Counts, n: Tally) {
    && c.exclusive == n.writers
    && (n.writers > 0 ==> c.shared == c.completed == n.readers == 0)
    && (n.drainers > 0 ==> n.readers == -c.completed)
    && (n.drainers == 0 ==> n.readers == c.shared - c.completed && c.completed >= 0)
    && c.shared <= INT_MAX
    && (c.shared == INT_MAX ==> n.overflows > 0)
  }

  /** A sleeping writer has readers to wait for, or was signalled, or is about to be. */
  ghost predicate SleeperOk(m: Shared, n: Tally) {
    n.sleepers > 0 ==> m.c.completed < 0 || m.signalled || n.signals > 0
  }

  ghost predicate TallyOk(m: Shared, n: Tally, threads: int) {
    MutexesOk(m, n) && CountsOk(m.c, n) && SleeperOk(m, n) && n.readers <= threads < INT_MAX
  }

  ghost predicate PcOk(c: Counts, p: PC) {
    match p
    case WrWait(_) => c.completed < 0
    case WrLeaked => false
    case RdLockS | RdFold => c.shared == INT_MAX
    case _ => true
  }

  ghost predicate Inv(s: State) {
    && TallyOk(s.m, Count(s.pcs), |s.pcs|)
    && forall t :: 0 <= t < |s.pcs| ==> PcOk(s.m.c, s.pcs[t])
  }

  ghost predicate Shifted(n: Tally, p: PC, q: PC, n': Tally) {
    && n'.readers == n.readers - Reads(p) + Reads(q)
    && n'.writers == n.writers - Writes(p) + Writes(q)
    && n'.drainers == n.drainers - Drains(p) + Drains(q)
    && n'.e == n.e - HoldsE(p) + HoldsE(q)
    && n'.s == n.s - HoldsS(p) + HoldsS(q)
    && n'.overflows == n.overflows - Overflows(p) + Overflows(q)
    && n'.sleepers == n.sleepers - Sleeps(p) + Sleeps(q)
    && n'.signals == n.signals - Signals(p) + Signals(q)
  }

  /** A thread at `p` is one of those counted; of the others, only the holder of the first mutex
      can write, drain, overflow or sleep. */
  ghost predicate Includes(n: Tally, p: PC) {
    && Reads(p) <= n.readers && HoldsS(p) <= n.s
    && 0 <= n.writers - Writes(p) && 0 <= n.overflows - Overflows(p)
    && 0 <= n.sleepers - Sleeps(p) <= n.drainers - Drains(p)
    && (n.writers - Writes(p)) + (n.drainers - Drains(p)) + (n.overflows - Overflows(p)) <= n.e - HoldsE(p)
    && 0 <= n.signals - Signals(p)
  }

  lemma CountMoves(pcs: seq<PC>, t: nat, q: PC)
    requires t < |pcs|
    ensures Shifted(Count(pcs), pcs[t], q, Count(pcs[t := q]))
  {
    SumUpdate(pcs, Reads, t, q);
    SumUpdate(pcs, Writes, t, q);
    SumUpdate(pcs, Drains, t, q);
    SumUpdate(pcs, HoldsE, t, q);
    SumUpdate(pcs, HoldsS, t, q);
    SumUpdate(pcs, Overflows, t, q);
    SumUpdate(pcs, Sleeps, t, q);
    SumUpdate(pcs, Signals, t, q);
  }

  lemma CountIncludes(pcs: seq<PC>, t: nat)
    requires t < |pcs|
    ensures Includes(Count(pcs), pcs[t])
  {
    var others := pcs[t := Out];
    CountMoves(pcs, t, Out);
    SumAdd(others, Writes, Drains, WritesOrDrains);
    SumAdd(others, WritesOrDrains, Overflows, NeedsE);
    SumMonotone(others, NeedsE, HoldsE);
    SumMonotone(others, Sleeps, Drains);
  }

  lemma ReadKeepsTally(m: Shared, p: PC, m': Shared, q: PC, n: Tally, n': Tally, threads: int)
    requires InRead(p) && Ready(m, p) && AfterRead(m, p) == Outcome(m', q) && PcOk(m.c, p)
    requires TallyOk(m, n, threads) && Includes(n, p) && Shifted(n, p, q, n') && n'.readers <= threads
    ensures TallyOk(m', n', threads) && PcOk(m'.c, q)
  {
  }

  lemma WriteKeepsCounts(m: Shared, p: PC, m': Shared, q: PC, n: Tally, n': Tally, threads: int)
    requires InWrite(p) && Ready(m, p) && AfterWrite(m, p) == Outcome(m', q) && PcOk(m.c, p)
    requires TallyOk(m, n, threads) && Includes(n, p) && Shifted(n, p, q, n') && n'.readers <= threads
    ensures CountsOk(m'.c, n')
  {
  }

  lemma WriteKeepsTally(m: Shared, p: PC, m': Shared, q: PC, n: Tally, n': Tally, threads: int)
    requires InWrite(p) && Ready(m, p) && AfterWrite(m, p) == Outcome(m', q) && PcOk(m.c, p)
    requires TallyOk(m, n, threads) && Includes(n, p) && Shifted(n, p, q, n') && n'.readers <= threads
    ensures TallyOk(m', n', threads) && PcOk(m'.c, q)
  {
    WriteKeepsCounts(m, p, m', q, n, n', threads);
  }

  lemma UnlockKeepsTally(m: Shared, p: PC, m': Shared, q: PC, n: Tally, n': Tally, threads: int)
    requires InUnlock(p) && Ready(m, p) && AfterUnlock(m, p) == Outcome(m', q) && PcOk(m.c, p)
    requires TallyOk(m, n, threads) && Includes(n, p) && Shifted(n, p, q, n') && n'.readers <= threads
    ensures TallyOk(m', n', threads) && PcOk(m'.c, q)
  {
  }

  lemma ChanceKeepsTally(m: Shared, p: PC, q: PC, n: Tally, n': Tally, threads: int)
    requires Chance(p, q) && PcOk(m.c, p)
    requires TallyOk(m, n, threads) && Includes(n, p) && Shifted(n, p, q, n') && n'.readers <= threads
    ensures TallyOk(m, n', threads) && PcOk(m.c, q)
  {
  }

  lemma MoveKeepsTally(m: Shared, p: PC, m': Shared, q: PC, n: Tally, n': Tally, threads: int)
    requires Move(m, p, m', q) && PcOk(m.c, p)
    requires TallyOk(m, n, threads) && Includes(n, p) && Shifted(n, p, q, n') && n'.readers <= threads
    ensures TallyOk(m', n', threads) && PcOk(m'.c, q)
  {
    if m' == m && Chance(p, q) {
      ChanceKeepsTally(m, p, q, n, n', threads);
    } else if InRead(p) {
      ReadKeepsTally(m, p, m', q, n, n', threads);
    } else if InWrite(p) {
      WriteKeepsTally(m, p, m', q, n, n', threads);
    } else {
      UnlockKeepsTally(m, p, m', q, n, n', threads);
    }
  }

  lemma MoveKeepsOthersOk(m: Shared, p: PC, m': Shared, q: PC, other: PC)
    requires Move(m, p, m', q) && PcOk(m.c, p) && PcOk(m.c, other)
    requires HoldsE(p) + HoldsE(other) <= 1 && HoldsS(p) + HoldsS(other) <= 1
    ensures PcOk(m'.c, other)
  {
  }

  lemma Exclusive(s: State, t: nat, u: nat)
    requires MutexesOk(s.m, Count(s.pcs)) && t < |s.pcs| && u < |s.pcs| && t != u
    ensures HoldsE(s.pcs[t]) + HoldsE(s.pcs[u]) <= 1
    ensures HoldsS(s.pcs[t]) + HoldsS(s.pcs[u]) <= 1
  {
    SumAtLeastTwo(s.pcs, HoldsE, t, u);
    SumAtLeastTwo(s.pcs, HoldsS, t, u);
  }

  /** Every atomic step of any thread keeps the invariant. */
  lemma StepKeepsInv(s: State, t: nat, s': State)
    requires t < |s.pcs| && Inv(s) && Step(s, t, s')
    ensures Inv(s')
  {
    var p, q := s.pcs[t], s'.pcs[t];
    CountMoves(s.pcs, t, q);
    CountIncludes(s.pcs, t);
    SumBounded(s'.pcs, Reads);
    MoveKeepsTally(s.m, p, s'.m, q, Count(s.pcs), Count(s'.pcs), |s.pcs|);
    forall u | 0 <= u < |s.pcs| ensures PcOk(s'.m.c, s'.pcs[u]) {
      if u != t {
        Exclusive(s, t, u);
        MoveKeepsOthersOk(s.m, p, s'.m, q, s.pcs[u]);
      }
    }
  }

  lemma NobodyCounts(pcs: seq<PC>)
    requires forall t :: 0 <= t < |pcs| ==> pcs[t] == Out
    ensures Count(pcs) == Tally(0, 0, 0, 0, 0, 0, 0, 0)
  {
    SumZero(pcs, Reads);
    SumZero(pcs, Writes);
    SumZero(pcs, Drains);
    SumZero(pcs, HoldsE);
    SumZero(pcs, HoldsS);
    SumZero(pcs, Overflows);
    SumZero(pcs, Sleeps);
    SumZero(pcs, Signals);
  }

  lemma OutIsOk(c: Counts)
    ensures PcOk(c, Out)
  {
  }

  lemma IdleTally(m: Shared, n: Tally, threads: nat)
    requires m == Shared(Counts(0, 0, 0), 1, 1, false) && n == Tally(0, 0, 0, 0, 0, 0, 0, 0) && threads < INT_MAX
    ensures TallyOk(m, n, threads)
  {
  }

  lemma InitTally(s: State)
    requires Init(s)
    ensures TallyOk(s.m, Count(s.pcs), |s.pcs|)
  {
    NobodyCounts(s.pcs);
    IdleTally(s.m, Count(s.pcs), |s.pcs|);
  }

  lemma InitIsInv(s: State)
    requires Init(s)
    ensures Inv(s)
  {
    InitTally(s);
    forall t | 0 <= t < |s.pcs| ensures PcOk(s.m.c, s.pcs[t]) {
      OutIsOk(s.m.c);
    }
  }

  lemma NextKeepsInv(s: State, s': State)
    requires Inv(s) && Next(s, s')
    ensures Inv(s')
  {
    var t: nat :| t < |s.pcs| && Step(s, t, s');
    StepKeepsInv(s, t, s');
  }

  /** The invariant holds at the start of every run, and every step keeps it, for any number of threads. */
  lemma InvIsInductive()
    ensures Runs.Starts(Init, Inv) && Runs.Keeps(Next, Inv)
  {
    forall s | Init(s) ensures Inv(s) {
      InitIsInv(s);
    }
    forall s, s' | Inv(s) && Next(s, s') ensures Inv(s') {
      NextKeepsInv(s, s');
    }
  }

  lemma ReachableIsInv(s: State)
    requires Reachable(s)
    ensures Inv(s)
  {
    InvIsInductive();
    Runs.ReachableKeeps(Init, Next, Inv, s);
  }

  // ---------------------------------------------------------------------------------------
  // What the lock promises
  // ---------------------------------------------------------------------------------------

  /** A writer excludes readers and other writers. */
  lemma WriterIsAlone(s: State, t: nat, u: nat)
    requires Reachable(s) && t < |s.pcs| && u < |s.pcs| && t != u && Writes(s.pcs[t]) == 1
    ensures Reads(s.pcs[u]) == 0 && Writes(s.pcs[u]) == 0
  {
    ReachableIsInv(s);
    Exclusive(s, t, u);
    SumAtLeast(s.pcs, Writes, t);
    SumAtLeast(s.pcs, Reads, u);
  }

  /** The counts tell the number of readers, across folds, spurious wakeups and writers that give
      up; and the number of writers. */
  lemma CountsAreExact(s: State)
    requires Reachable(s)
    ensures Sum(s.pcs, Reads) == Readers(s.m.c, Sum(s.pcs, Drains) > 0)
    ensures Sum(s.pcs, Writes) == s.m.c.exclusive <= 1
    ensures s.m.c.shared <= INT_MAX
  {
    ReachableIsInv(s);
    SumMonotone(s.pcs, Writes, HoldsE);
  }

  /** pthread_rwlock_unlock reads nExclusiveAccessCount without a lock, and still takes the branch
      of its caller: a reader's, or a writer's. */
  lemma UnlockPicksOwnBranch(s: State, t: nat, s': State)
    requires Reachable(s) && t < |s.pcs| && s.pcs[t].UnLook? && Step(s, t, s')
    ensures s'.pcs[t] == if s.pcs[t].writer then UnWriter else UnLockS
  {
    ReachableIsInv(s);
    SumAtLeast(s.pcs, Reads, t);
    SumAtLeast(s.pcs, Writes, t);
  }

  /** The branches for a lock that is held exclusively cannot be reached by another writer. */
  lemma WritersNeverFindBusy(s: State, t: nat)
    requires Reachable(s) && t < |s.pcs| && (s.pcs[t].WrClaim? || s.pcs[t].WrLeaked?)
    ensures s.pcs[t].WrClaim? && Look(s.m.c) != Busy
  {
    ReachableIsInv(s);
    CountIncludes(s.pcs, t);
    assert PcOk(s.m.c, s.pcs[t]);
  }

  /** No thread but a writer's or reader's own use of the lock can keep it from moving: while
      nobody is reading or writing and some thread is in the lock's code, some thread can move. */
  lemma NoDeadlock(s: State, t: nat)
    requires Reachable(s) && t < |s.pcs| && s.pcs[t] != Out
    requires forall u :: 0 <= u < |s.pcs| ==> !s.pcs[u].Reading? && !s.pcs[u].Writing?
    ensures exists u :: 0 <= u < |s.pcs| && Ready(s.m, s.pcs[u])
  {
    ReachableIsInv(s);
    var u := SomebodyMoves(s, t);
  }

  lemma SomebodyMoves(s: State, t: nat) returns (u: nat)
    requires Inv(s) && t < |s.pcs| && s.pcs[t] != Out
    requires forall u :: 0 <= u < |s.pcs| ==> !s.pcs[u].Reading? && !s.pcs[u].Writing?
    ensures u < |s.pcs| && Ready(s.m, s.pcs[u])
  {
    u := t;
    assert PcOk(s.m.c, s.pcs[u]);
    if s.m.s == 0 {
      u := SumWitness(s.pcs, HoldsS);
    } else if s.m.e == 0 {
      u := SumWitness(s.pcs, HoldsE);
      if !Ready(s.m, s.pcs[u]) && s.pcs[u].WrSleep? {
        u := SleeperHasHelp(s, u);
      }
    } else if s.pcs[t].WrSleep? {
      SumAtLeast(s.pcs, HoldsE, t);
    }
    assert PcOk(s.m.c, s.pcs[u]);
  }

  /** Whoever a sleeping writer waits for can move. */
  lemma SleeperHasHelp(s: State, t: nat) returns (u: nat)
    requires Inv(s) && t < |s.pcs| && s.pcs[t].WrSleep? && !s.m.signalled && s.m.s == 1
    requires forall u :: 0 <= u < |s.pcs| ==> !s.pcs[u].Reading? && !s.pcs[u].Writing?
    ensures u < |s.pcs| && Ready(s.m, s.pcs[u])
  {
    SumAtLeast(s.pcs, Sleeps, t);
    SumAtLeast(s.pcs, Drains, t);
    if s.m.c.completed < 0 {
      u := SumWitness(s.pcs, Reads);
    } else {
      u := SumWitness(s.pcs, Signals);
    }
  }

  /** How many steps a thread at `p` can take before its call returns, at most, unless it sleeps again;
      a reader that signals may cost a sleeping writer one more round. */
  function Rank(p: PC): nat {
    match p
    case Out | Reading | Writing | WrLeaked => 0
    case RdLockE => 6
    case RdArrive => 5
    case RdLockS => 4
    case RdFold => 3
    case RdUnlockS => 2
    case RdUnlockE => 1
    case WrLockE(_) => 9
    case WrLockS(_) => 8
    case WrClaim(_) => 7
    case WrRelock(_, late) => if late then 4 else 8
    case WrCheck(_, late) => if late then 3 else 7
    case WrWait(_) => 6
    case WrSleep(_) => 5
    case WrGiveUpS => 2
    case WrGiveUpE => 1
    case UnLook(_) => 9
    case UnLockS => 8
    case UnLeave => 7
    case UnSignal => 6
    case UnUnlockS => 1
    case UnWriter => 3
    case UnWriterS => 2
    case UnWriterE => 1
  }

  /** A signal that was given leaves a sleeper three steps more than it had. */
  ghost function Extra(m: Shared, sleepers: int): int {
    if m.signalled then 4 * sleepers else 0
  }

  ghost function Left(s: State): nat {
    Sum(s.pcs, Rank) + Extra(s.m, Sum(s.pcs, Sleeps))
  }

  /** A thread at `p` calls, or wakes up though it was not signalled. */
  predicate Outward(m: Shared, p: PC, q: PC) {
    || p == Out || p == Reading || p == Writing
    || (p.WrSleep? && !m.signalled && q == WrRelock(p.timed, false))
  }

  /** A step of a thread that is inside one of the functions, other than a spurious wakeup. */
  ghost predicate Inner(s: State, s': State) {
    exists t: nat :: t < |s.pcs| && Step(s, t, s') && !Outward(s.m, s.pcs[t], s'.pcs[t])
  }

  lemma ReadUsesRank(m: Shared, p: PC, m': Shared, q: PC)
    requires Ready(m, p) && InRead(p) && AfterRead(m, p) == Outcome(m', q)
    ensures Rank(q) < Rank(p) && Sleeps(q) == Sleeps(p) && m'.signalled == m.signalled
  {
  }

  lemma WriteUsesRank(m: Shared, p: PC, m': Shared, q: PC)
    requires Ready(m, p) && InWrite(p) && AfterWrite(m, p) == Outcome(m', q)
    ensures if p.WrSleep? then Rank(q) < Rank(p) + 4 && Sleeps(q) == 0 && m.signalled else Rank(q) < Rank(p)
    ensures if p.WrWait? then !m'.signalled else m'.signalled == m.signalled && Sleeps(q) == 0
  {
  }

  lemma UnlockUsesRank(m: Shared, p: PC, m': Shared, q: PC)
    requires Ready(m, p) && InUnlock(p) && AfterUnlock(m, p) == Outcome(m', q)
    ensures Sleeps(q) == Sleeps(p) == 0
    ensures if p.UnSignal? then Rank(q) + 4 < Rank(p) else Rank(q) < Rank(p) && m'.signalled == m.signalled
  {
  }

  lemma ChanceUsesRank(m: Shared, p: PC, q: PC)
    requires Chance(p, q) && !Outward(m, p, q)
    ensures Sleeps(q) == 0
    ensures Rank(q) < Rank(p) || (p.WrSleep? && m.signalled && Rank(q) < Rank(p) + 4)
  {
  }

  lemma MoveUsesRank(m: Shared, p: PC, m': Shared, q: PC, sleepers: int)
    requires Move(m, p, m', q) && !Outward(m, p, q) && Sleeps(p) <= sleepers <= 1
    ensures Rank(q) + Extra(m', sleepers - Sleeps(p) + Sleeps(q)) < Rank(p) + Extra(m, sleepers)
  {
    if m' == m && Chance(p, q) {
      ChanceUsesRank(m, p, q);
    } else if InRead(p) {
      ReadUsesRank(m, p, m', q);
    } else if InWrite(p) {
      WriteUsesRank(m, p, m', q);
    } else {
      UnlockUsesRank(m, p, m', q);
    }
  }

  lemma OneSleeper(s: State)
    requires Reachable(s)
    ensures Sum(s.pcs, Sleeps) <= 1
  {
    ReachableIsInv(s);
    SumMonotone(s.pcs, Sleeps, HoldsE);
  }

  lemma InnerDescends(s: State, s': State)
    requires Reachable(s) && Inner(s, s')
    ensures Reachable(s') && Left(s') < Left(s)
  {
    var t: nat :| t < |s.pcs| && Step(s, t, s') && !Outward(s.m, s.pcs[t], s'.pcs[t]);
    Runs.ReachesOn(Init, Next, s, s');
    OneSleeper(s);
    SumAtLeast(s.pcs, Sleeps, t);
    SumUpdate(s.pcs, Sleeps, t, s'.pcs[t]);
    SumUpdate(s.pcs, Rank, t, s'.pcs[t]);
    MoveUsesRank(s.m, s.pcs[t], s'.m, s'.pcs[t], Sum(s.pcs, Sleeps));
  }

  ghost predicate NobodyReady(s: State) {
    forall t :: 0 <= t < |s.pcs| ==> !Ready(s.m, s.pcs[t])
  }

  /** Every call has returned, or some thread reads or writes, which the others wait for. */
  ghost predicate AtRest(s: State) {
    || (forall t :: 0 <= t < |s.pcs| ==> s.pcs[t] == Out)
    || (exists t :: 0 <= t < |s.pcs| && (s.pcs[t].Reading? || s.pcs[t].Writing?))
  }

  lemma NothingReady(s: State)
    requires Reachable(s) && NobodyReady(s)
    ensures AtRest(s)
  {
    ReachableIsInv(s);
    forall t | 0 <= t < |s.pcs| && !(exists u :: 0 <= u < |s.pcs| && (s.pcs[u].Reading? || s.pcs[u].Writing?))
      ensures s.pcs[t] == Out
    {
      if s.pcs[t] != Out {
        var u := SomebodyMoves(s, t);
      }
    }
  }

  lemma InnerIsDescent()
    ensures Runs.Keeps(Inner, Reachable) && Runs.Descends(Inner, Reachable, Left)
  {
    forall s, s' | Reachable(s) && Inner(s, s') ensures Reachable(s') && Left(s') < Left(s) {
      InnerDescends(s, s');
    }
  }

  /** Unless new calls are made, or waits end for no reason, every run comes to an end, after at most 9
      steps a thread and four; and at an end that no timeout can put off, all calls have returned or
      some thread reads or writes. */
  lemma CallsEnd(run: seq<State>)
    requires Runs.IsChain(Inner, run) && Reachable(run[0])
    ensures |run| <= 9 * |run[0].pcs| + 5
    ensures var s := run[|run| - 1]; NobodyReady(s) ==> AtRest(s)
  {
    InnerIsDescent();
    Runs.ChainIsShort(Inner, Reachable, Left, run, |run| - 1);
    SumAtMost(run[0].pcs, Rank, 9);
    OneSleeper(run[0]);
    var s := run[|run| - 1];
    if NobodyReady(s) {
      NothingReady(s);
    }
  }
}
