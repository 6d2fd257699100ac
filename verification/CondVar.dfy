/** The condition variable: Alexander Terekhov's Algorithm 9.

`Counters` are the three integers of a condition variable.  The functions on them are the
bodies of its two critical sections; class `CondCounters` executes those bodies in place.
A `State` adds the gate semaphore semBlockLock, the queue semaphore semBlockQueue, the mutex
mtxUnblockLock and one program counter for each of any number of threads, and `Step` lets
one thread take one atomic step.  Both semaphores are used through the contract proved in
module Semaphores and the mutex through that of module Mutexes.
*/
module CondVar {
  import opened CInts
  import opened ThreadCounts
  import Runs

  const HALF := INT_MAX / 2

  // ---------------------------------------------------------------------------------------
  // The critical sections
  // ---------------------------------------------------------------------------------------

  datatype Counters = Counters(blocked: int, gone: int, toUnblock: int)

  /** What a waiter does to the counters once it stops waiting, however that came about. */
  function Account(c: Counters): Counters {
    if c.toUnblock != 0 then c.(toUnblock := c.toUnblock - 1) else c.(gone := c.gone + 1)
  }

  /** What the first look at the counters tells a signaller to do. */
  datatype Verdict = NoOp | Issue(signals: int) | CloseGate

  function Look(c: Counters, all: bool): Verdict {
    if c.toUnblock != 0 then
      if c.blocked == 0 then NoOp else Issue(if all then c.blocked else 1)
    else if c.blocked > c.gone then CloseGate
    else NoOp
  }

  /** Adding `n` more waiters to a wave that is being released. */
  function Extend(c: Counters, n: int): Counters {
    c.(blocked := c.blocked - n, toUnblock := c.toUnblock + n)
  }

  /** Starting a wave behind a closed gate; waiters that left in the meantime are written off. */
  function StartWave(c: Counters, all: bool): Counters {
    var present := c.blocked - c.gone;
    if all then Counters(0, 0, present) else Counters(present - 1, 0, 1)
  }

  /** The waiters that the counters stand for. */
  function Present(c: Counters): int {
    c.blocked - c.gone + c.toUnblock
  }

  class CondCounters {
    var nWaitersBlocked: int
    var nWaitersGone: int
    var nWaitersToUnblock: int

    function View(): Counters
      reads this
    {
      Counters(nWaitersBlocked, nWaitersGone, nWaitersToUnblock)
    }

    /** A waiter's accounting: there is one waiter less, and one wakeup less is promised if any was.
        `overflow` asks for the reset at INT_MAX / 2; nSignalsWasLeft is 1 for the last of a wave. */
    method AccountForLeaving() returns (nSignalsWasLeft: int, overflow: bool)
      modifies this
      ensures View() == Account(old(View()))
      ensures Present(View()) == Present(old(View())) - 1
      ensures nSignalsWasLeft == 1 <==> old(nWaitersToUnblock) != 0 && nWaitersToUnblock == 0
      ensures nSignalsWasLeft == old(nWaitersToUnblock)
      ensures overflow <==> nSignalsWasLeft == 0 && nWaitersGone == HALF
    {
      overflow := false;
      nSignalsWasLeft := nWaitersToUnblock;
      if nSignalsWasLeft != 0 {
        nWaitersToUnblock := nWaitersToUnblock - 1;
      } else {
        nWaitersGone := nWaitersGone + 1;
        overflow := nWaitersGone == HALF;
      }
    }

    /** A signaller's first look; joins a wave that is already being released. */
    method SignalBeforeGate(unblockAll: bool) returns (verdict: Verdict)
      modifies this
      ensures verdict == Look(old(View()), unblockAll)
      ensures View() == if verdict.Issue? then Extend(old(View()), verdict.signals) else old(View())
      ensures Present(View()) == Present(old(View()))
    {
      if nWaitersToUnblock != 0 {
        if nWaitersBlocked == 0 {
          return NoOp;
        }
        if unblockAll {
          verdict := Issue(nWaitersBlocked);
          nWaitersToUnblock := nWaitersToUnblock + nWaitersBlocked;
          nWaitersBlocked := 0;
        } else {
          verdict := Issue(1);
          nWaitersToUnblock := nWaitersToUnblock + 1;
          nWaitersBlocked := nWaitersBlocked - 1;
        }
      } else if nWaitersBlocked > nWaitersGone {
        verdict := CloseGate;
      } else {
        verdict := NoOp;
      }
    }

    /** A signaller that has closed the gate. */
    method SignalBehindGate(unblockAll: bool) returns (nSignalsToIssue: int)
      modifies this
      ensures View() == StartWave(old(View()), unblockAll)
      ensures nSignalsToIssue == nWaitersToUnblock
      ensures old(nWaitersToUnblock) == 0 ==> Present(View()) == Present(old(View()))
    {
      if nWaitersGone != 0 {
        nWaitersBlocked := nWaitersBlocked - nWaitersGone;
        nWaitersGone := 0;
      }
      if unblockAll {
        nWaitersToUnblock := nWaitersBlocked;
        nSignalsToIssue := nWaitersToUnblock;
        nWaitersBlocked := 0;
      } else {
        nWaitersToUnblock := 1;
        nSignalsToIssue := 1;
        nWaitersBlocked := nWaitersBlocked - 1;
      }
    }
  }

  // ---------------------------------------------------------------------------------------
  // The protocol
  // ---------------------------------------------------------------------------------------

  /** Where a thread is; each names the step the thread takes next. */
  datatype PC =
    | Idle
      // pthread_cond_wait and pthread_cond_timedwait
    | WaitGate                     // sem_wait(semBlockLock)
    | WaitRead                     // ++nWaitersBlocked, its read
    | WaitWrite(seen: int)         //   and its write
    | WaitOpen                     // sem_post(semBlockLock)
    | Waiting                      // sem_timedwait(semBlockQueue)
    | Woken(unit: bool)            // lock mtxUnblockLock; `unit`: it took a unit, it did not time out
    | Accounting(unit: bool)
    | ResetGate                    // the INT_MAX / 2 reset: sem_wait(semBlockLock)
    | ResetSubtract                //   nWaitersBlocked -= nWaitersGone
    | ResetOpen                    //   sem_post(semBlockLock)
    | ResetClear                   //   nWaitersGone = 0
    | LeaveUnlock(left: int)       // unlock mtxUnblockLock; left: nSignalsWasLeft
    | OpenGate                     // sem_post(semBlockLock) by the last waiter of a wave
      // pthread_cond_signal and pthread_cond_broadcast
    | SigLock(all: bool)           // lock mtxUnblockLock
    | SigLook(all: bool)
    | SigGate(all: bool)           // sem_wait(semBlockLock)
    | SigClosed(all: bool)
    | SigUnlock(signals: int)      // unlock mtxUnblockLock
    | SigPost(signals: int)        // sem_post_multiple(semBlockQueue, signals)
      // pthread_cond_destroy
    | DesGate                      // sem_wait(semBlockLock)
    | DesTry                       // trylock mtxUnblockLock
    | DesRefuse                    // sem_post(semBlockLock): the mutex was busy
    | DesTest
    | DesBusyOpen                  // sem_post(semBlockLock): there are waiters
    | DesBusyUnlock                // unlock mtxUnblockLock

  /** `gate` and `queue` are semaphore values; `mutex` is 1 when mtxUnblockLock is free. */
  datatype Shared = Shared(c: Counters, gate: nat, queue: nat, mutex: nat, destroyed: bool)

  datatype State = State(m: Shared, pcs: seq<PC>)

  ghost predicate Init(s: State) {
    && s.m == Shared(Counters(0, 0, 0), 1, 0, 1, false)
    && forall t :: 0 <= t < |s.pcs| ==> s.pcs[t] == Idle
  }

  /** What a thread at `p` needs in order to move; the rest of the time it blocks. */
  predicate Ready(m: Shared, p: PC) {
    match p
    case WaitGate | ResetGate | SigGate(_) | DesGate => m.gate > 0
    case Woken(_) | SigLock(_) => m.mutex > 0
    case Waiting => m.queue > 0
    case SigPost(n) => n >= 0
    case Idle => false
    case _ => true
  }

  /** Where a ready thread goes, and what it leaves behind. */
  datatype Outcome = Outcome(m: Shared, q: PC)

  predicate InWait(p: PC) {
    p.WaitGate? || p.WaitRead? || p.WaitWrite? || p.WaitOpen? || p.Waiting? || p.Woken?
  }

  /** One atomic step of pthread_cond_wait or pthread_cond_timedwait. */
  function AfterWait(m: Shared, p: PC): Outcome
    requires Ready(m, p) && InWait(p)
  {
    match p
    case WaitGate => Outcome(m.(gate := m.gate - 1), WaitRead)
    case WaitRead => Outcome(m, WaitWrite(m.c.blocked))
    case WaitWrite(seen) => Outcome(m.(c := m.c.(blocked := seen + 1)), WaitOpen)
    case WaitOpen => Outcome(m.(gate := m.gate + 1), Waiting)
    case Waiting => Outcome(m.(queue := m.queue - 1), Woken(true))
    case Woken(unit) => Outcome(m.(mutex := m.mutex - 1), Accounting(unit))
  }

  predicate InCleanup(p: PC) {
    p.Accounting? || p.ResetGate? || p.ResetSubtract? || p.ResetOpen? || p.ResetClear?
    || p.LeaveUnlock? || p.OpenGate?
  }

  /** One atomic step of the cleanup that every wait ends with. */
  function AfterCleanup(m: Shared, p: PC): Outcome
    requires Ready(m, p) && InCleanup(p)
  {
    match p
    case Accounting(_) =>
      var c' := Account(m.c);
      Outcome(m.(c := c'),
              if m.c.toUnblock == 0 && c'.gone == HALF then ResetGate else LeaveUnlock(m.c.toUnblock))
    case ResetGate => Outcome(m.(gate := m.gate - 1), ResetSubtract)
    case ResetSubtract => Outcome(m.(c := m.c.(blocked := m.c.blocked - m.c.gone)), ResetOpen)
    case ResetOpen => Outcome(m.(gate := m.gate + 1), ResetClear)
    case ResetClear => Outcome(m.(c := m.c.(gone := 0)), LeaveUnlock(0))
    case LeaveUnlock(left) => Outcome(m.(mutex := m.mutex + 1), if left == 1 then OpenGate else Idle)
    case OpenGate => Outcome(m.(gate := m.gate + 1), Idle)
  }

  predicate InSignal(p: PC) {
    p.SigLock? || p.SigLook? || p.SigGate? || p.SigClosed? || p.SigUnlock? || p.SigPost?
  }

  /** One atomic step of pthread_cond_signal or pthread_cond_broadcast. */
  function AfterSignal(m: Shared, p: PC): Outcome
    requires Ready(m, p) && InSignal(p)
  {
    match p
    case SigLock(all) => Outcome(m.(mutex := m.mutex - 1), SigLook(all))
    case SigLook(all) =>
      (match Look(m.c, all)
       case NoOp => Outcome(m, SigUnlock(0))
       case Issue(n) => Outcome(m.(c := Extend(m.c, n)), SigUnlock(n))
       case CloseGate => Outcome(m, SigGate(all)))
    case SigGate(all) => Outcome(m.(gate := m.gate - 1), SigClosed(all))
    case SigClosed(all) =>
      var c' := StartWave(m.c, all);
      Outcome(m.(c := c'), SigUnlock(c'.toUnblock))
    case SigUnlock(n) => Outcome(m.(mutex := m.mutex + 1), if n == 0 then Idle else SigPost(n))
    case SigPost(n) => Outcome(m.(queue := m.queue + n), Idle)
  }

  predicate InDestroy(p: PC) {
    p.DesGate? || p.DesTry? || p.DesRefuse? || p.DesTest? || p.DesBusyOpen? || p.DesBusyUnlock?
  }

  /** One atomic step of pthread_cond_destroy. */
  function AfterDestroy(m: Shared, p: PC): Outcome
    requires Ready(m, p) && InDestroy(p)
  {
    match p
    case DesGate => Outcome(m.(gate := m.gate - 1), DesTry)
    case DesTry =>
      if m.mutex > 0 then Outcome(m.(mutex := m.mutex - 1), DesTest) else Outcome(m, DesRefuse)
    case DesRefuse => Outcome(m.(gate := m.gate + 1), Idle)
    case DesTest =>
      if m.c.blocked > m.c.gone then Outcome(m, DesBusyOpen) else Outcome(m.(destroyed := true), DesTest)
    case DesBusyOpen => Outcome(m.(gate := m.gate + 1), DesBusyUnlock)
    case DesBusyUnlock => Outcome(m.(mutex := m.mutex + 1), Idle)
  }

  function After(m: Shared, p: PC): Outcome
    requires Ready(m, p)
  {
    if InWait(p) then AfterWait(m, p)
    else if InCleanup(p) then AfterCleanup(m, p)
    else if InSignal(p) then AfterSignal(m, p)
    else AfterDestroy(m, p)
  }

  /** A thread calls one of the functions. */
  predicate Call(m: Shared, p: PC, m': Shared, q: PC) {
    p == Idle && m' == m && (q == WaitGate || q.SigLock? || q == DesGate)
  }

  /** A waiter times out, at any time at which there is no unit; a timed wait that runs out takes a
      unit if it finds one. */
  predicate Timeout(m: Shared, p: PC, m': Shared, q: PC) {
    p == Waiting && m.queue == 0 && m' == m && q == Woken(false)
  }

  /** Any atomic step.  Once the condition variable is destroyed no thread may use it again. */
  predicate Move(m: Shared, p: PC, m': Shared, q: PC) {
    && !m.destroyed
    && (Call(m, p, m', q) || Timeout(m, p, m', q) || (Ready(m, p) && After(m, p) == Outcome(m', q)))
  }

  /** Thread `t` takes one atomic step. */
  ghost predicate Step(s: State, t: nat, s': State)
    requires t < |s.pcs|
  {
    && |s'.pcs| == |s.pcs|
    && s'.pcs == s.pcs[t := s'.pcs[t]]
    && Move(s.m, s.pcs[t], s'.m, s'.pcs[t])
  }

  ghost predicate Next(s: State, s': State) {
    exists t: nat :: t < |s.pcs| && Step(s, t, s')
  }

  ghost predicate IsRun(run: seq<State>) {
    Runs.IsRun(Init, Next, run)
  }

  /** What the step of a thread at `p` does to the gate: it waits for semBlockLock, or posts it. */
  function GateMove(p: PC): int {
    if p.WaitGate? || p.ResetGate? || p.SigGate? || p.DesGate? then -1
    else if p.WaitOpen? || p.ResetOpen? || p.OpenGate? || p.DesRefuse? || p.DesBusyOpen? then 1
    else 0
  }

  /** How many steps a thread at `p` can take before its call returns, at most. */
  function Rank(p: PC): nat {
    match p
    case Idle => 0
    case WaitGate => 13
    case WaitRead => 12
    case WaitWrite(_) => 11
    case WaitOpen => 10
    case Waiting => 9
    case Woken(_) => 8
    case Accounting(_) => 7
    case ResetGate => 6
    case ResetSubtract => 5
    case ResetOpen => 4
    case ResetClear => 3
    case LeaveUnlock(_) => 2
    case OpenGate => 1
    case SigLock(_) => 6
    case SigLook(_) => 5
    case SigGate(_) => 4
    case SigClosed(_) => 3
    case SigUnlock(_) => 2
    case SigPost(_) => 1
    case DesGate => 5
    case DesTry => 4
    case DesTest => 3
    case DesBusyOpen => 2
    case DesBusyUnlock | DesRefuse => 1
  }

  lemma WaitIsOneStep(m: Shared, p: PC)
    requires InWait(p) && Ready(m, p)
    ensures AfterWait(m, p).m.gate == m.gate + GateMove(p) && AfterWait(m, p).m.destroyed == m.destroyed
    ensures Rank(AfterWait(m, p).q) < Rank(p)
  {
  }

  lemma CleanupIsOneStep(m: Shared, p: PC)
    requires InCleanup(p) && Ready(m, p)
    ensures AfterCleanup(m, p).m.gate == m.gate + GateMove(p) && AfterCleanup(m, p).m.destroyed == m.destroyed
    ensures Rank(AfterCleanup(m, p).q) < Rank(p)
  {
  }

  lemma SignalIsOneStep(m: Shared, p: PC)
    requires InSignal(p) && Ready(m, p)
    ensures AfterSignal(m, p).m.gate == m.gate + GateMove(p) && AfterSignal(m, p).m.destroyed == m.destroyed
    ensures Rank(AfterSignal(m, p).q) < Rank(p)
  {
  }

  lemma DestroyIsOneStep(m: Shared, p: PC)
    requires InDestroy(p) && Ready(m, p) && !m.destroyed
    ensures AfterDestroy(m, p).m.gate == m.gate + GateMove(p)
    ensures if AfterDestroy(m, p).m.destroyed then AfterDestroy(m, p).q == p else Rank(AfterDestroy(m, p).q) < Rank(p)
  {
  }

  lemma MoveIsOneStep(m: Shared, p: PC, m': Shared, q: PC)
    requires Move(m, p, m', q)
    ensures m'.gate == m.gate + GateMove(p)
    ensures p != Idle ==> if m'.destroyed then q == p else Rank(q) < Rank(p)
  {
    if Call(m, p, m', q) || Timeout(m, p, m', q) {
    } else if InWait(p) {
      WaitIsOneStep(m, p);
    } else if InCleanup(p) {
      CleanupIsOneStep(m, p);
    } else if InSignal(p) {
      SignalIsOneStep(m, p);
    } else {
      DestroyIsOneStep(m, p);
    }
  }

  // ---------------------------------------------------------------------------------------
  // The groups of threads the invariant counts
  // ---------------------------------------------------------------------------------------

  /** Threads between `++nWaitersBlocked` and their accounting. */
  function Registered(p: PC): nat {
    if p.WaitOpen? || p.Waiting? || p.Woken? || p.Accounting? then 1 else 0
  }

  function HoldsMutex(p: PC): nat {
    if p.Accounting? || InReset(p) == 1 || p.LeaveUnlock? || p.SigLook? || p.SigGate? || p.SigClosed?
       || p.SigUnlock? || p.DesTest? || p.DesBusyOpen? || p.DesBusyUnlock? then 1 else 0
  }

  /** Threads that closed the gate and have not opened it again, or owe its opening. */
  function HoldsGate(p: PC): nat {
    if p.WaitRead? || p.WaitWrite? || p.WaitOpen? || p.ResetSubtract? || p.ResetOpen? || p.OpenGate?
       || (p.LeaveUnlock? && p.left == 1) || p.SigClosed?
       || p.DesTry? || p.DesRefuse? || p.DesTest? || p.DesBusyOpen? then 1 else 0
  }

  /** Wakeups on their way: signals counted but not posted, and units taken but not accounted. */
  function InFlight(p: PC): nat {
    if (p.SigUnlock? || p.SigPost?) && p.signals > 0 then p.signals
    else if (p.Woken? || p.Accounting?) && p.unit then 1
    else 0
  }

  /** Threads in the reset, and those of them that have already written off the leavers. */
  function InReset(p: PC): nat {
    if p.ResetGate? || p.ResetSubtract? || p.ResetOpen? || p.ResetClear? then 1 else 0
  }

  function WrittenOff(p: PC): nat {
    if p.ResetOpen? || p.ResetClear? then 1 else 0
  }

  /** All the counts of a state at once. */
  datatype Tally = Tally(registered: int, mutex: int, gate: int, inFlight: int, inReset: int, writtenOff: int)

  ghost function Count(pcs: seq<PC>): Tally {
    Tally(Sum(pcs, Registered), Sum(pcs, HoldsMutex), Sum(pcs, HoldsGate), Sum(pcs, InFlight),
          Sum(pcs, InReset), Sum(pcs, WrittenOff))
  }

  // ---------------------------------------------------------------------------------------
  // The invariant
  // ---------------------------------------------------------------------------------------

  ghost predicate MutexOk(m: Shared, n: Tally) {
    m.mutex + n.mutex == 1
  }

  /** The gate token: in the semaphore, with a thread, or spent on the wave being released. */
  ghost predicate GateOk(m: Shared, n: Tally) {
    m.gate + n.gate + (if m.c.toUnblock > 0 then 1 else 0) == 1
  }

  /** The leavers that nWaitersBlocked still includes. */
  ghost function Leavers(c: Counters, n: Tally): int {
    if n.writtenOff > 0 then 0 else c.gone
  }

  ghost predicate AccountsOk(c: Counters, n: Tally) {
    && c.blocked - Leavers(c, n) + c.toUnblock == n.registered
    && 0 <= Leavers(c, n) <= c.blocked
    && 0 <= c.toUnblock
    && 0 <= c.gone <= HALF
    && (c.toUnblock > 0 ==> c.gone == 0)
    && (c.gone == HALF ==> n.inReset > 0)
  }

  ghost predicate WakeupsOk(m: Shared, n: Tally) {
    m.queue + n.inFlight >= m.c.toUnblock
  }

  ghost predicate CountsOk(m: Shared, n: Tally) {
    MutexOk(m, n) && GateOk(m, n) && AccountsOk(m.c, n) && WakeupsOk(m, n)
  }

  ghost predicate PcOk(c: Counters, p: PC) {
    match p
    case WaitWrite(seen) => seen == c.blocked
    case ResetGate | ResetSubtract | ResetOpen | ResetClear => c.toUnblock == 0 && c.gone == HALF
    case SigGate(_) | SigClosed(_) => c.toUnblock == 0 && c.blocked > c.gone
    case LeaveUnlock(left) => left >= 0
    case SigUnlock(n) => n >= 0
    case SigPost(n) => n > 0
    case _ => true
  }

  ghost predicate Inv(s: State) {
    && CountsOk(s.m, Count(s.pcs))
    && forall t :: 0 <= t < |s.pcs| ==> PcOk(s.m.c, s.pcs[t])
  }

  /** `n'` are the counts after a thread moved from `p` to `q`. */
  ghost predicate Shifted(n: Tally, p: PC, q: PC, n': Tally) {
    && n'.registered == n.registered - Registered(p) + Registered(q)
    && n'.mutex == n.mutex - HoldsMutex(p) + HoldsMutex(q)
    && n'.gate == n.gate - HoldsGate(p) + HoldsGate(q)
    && n'.inFlight == n.inFlight - InFlight(p) + InFlight(q)
    && n'.inReset == n.inReset - InReset(p) + InReset(q)
    && n'.writtenOff == n.writtenOff - WrittenOff(p) + WrittenOff(q)
  }

  /** A thread at `p` is one of those counted, and the groups are nested among the others. */
  ghost predicate Includes(n: Tally, p: PC) {
    && Registered(p) <= n.registered && HoldsGate(p) <= n.gate && InFlight(p) <= n.inFlight
    && 0 <= n.writtenOff - WrittenOff(p) <= n.inReset - InReset(p) <= n.mutex - HoldsMutex(p)
  }

  lemma CountIncludes(pcs: seq<PC>, t: nat)
    requires t < |pcs|
    ensures Includes(Count(pcs), pcs[t])
  {
    CountMoves(pcs, t, Idle);
    SumMonotone(pcs[t := Idle], WrittenOff, InReset);
    SumMonotone(pcs[t := Idle], InReset, HoldsMutex);
  }

  lemma CountMoves(pcs: seq<PC>, t: nat, q: PC)
    requires t < |pcs|
    ensures Shifted(Count(pcs), pcs[t], q, Count(pcs[t := q]))
  {
    SumUpdate(pcs, Registered, t, q);
    SumUpdate(pcs, HoldsMutex, t, q);
    SumUpdate(pcs, HoldsGate, t, q);
    SumUpdate(pcs, InFlight, t, q);
    SumUpdate(pcs, InReset, t, q);
    SumUpdate(pcs, WrittenOff, t, q);
  }

  /** Mutex and gate are each held by one thread at most, and a wave keeps the gate to itself. */
  lemma Exclusive(s: State, t: nat, u: nat)
    requires CountsOk(s.m, Count(s.pcs)) && t < |s.pcs| && u < |s.pcs| && t != u
    ensures HoldsMutex(s.pcs[t]) + HoldsMutex(s.pcs[u]) <= 1
    ensures HoldsGate(s.pcs[t]) + HoldsGate(s.pcs[u]) <= 1
    ensures s.m.c.toUnblock > 0 ==> HoldsGate(s.pcs[t]) == HoldsGate(s.pcs[u]) == 0
  {
    SumAtLeastTwo(s.pcs, HoldsMutex, t, u);
    SumAtLeastTwo(s.pcs, HoldsGate, t, u);
  }

  lemma WaitKeepsCounts(m: Shared, p: PC, m': Shared, q: PC, n: Tally, n': Tally)
    requires InWait(p) && Ready(m, p) && AfterWait(m, p) == Outcome(m', q) && PcOk(m.c, p)
    requires CountsOk(m, n) && Includes(n, p) && Shifted(n, p, q, n')
    ensures CountsOk(m', n') && PcOk(m'.c, q)
  {
  }

  lemma CleanupKeepsCounts(m: Shared, p: PC, m': Shared, q: PC, n: Tally, n': Tally)
    requires InCleanup(p) && Ready(m, p) && AfterCleanup(m, p) == Outcome(m', q) && PcOk(m.c, p)
    requires CountsOk(m, n) && Includes(n, p) && Shifted(n, p, q, n')
    ensures CountsOk(m', n') && PcOk(m'.c, q)
  {
  }

  lemma SignalKeepsCounts(m: Shared, p: PC, m': Shared, q: PC, n: Tally, n': Tally)
    requires InSignal(p) && Ready(m, p) && AfterSignal(m, p) == Outcome(m', q) && PcOk(m.c, p)
    requires CountsOk(m, n) && Includes(n, p) && Shifted(n, p, q, n')
    ensures CountsOk(m', n') && PcOk(m'.c, q)
  {
  }

  lemma DestroyKeepsCounts(m: Shared, p: PC, m': Shared, q: PC, n: Tally, n': Tally)
    requires InDestroy(p) && Ready(m, p) && AfterDestroy(m, p) == Outcome(m', q) && PcOk(m.c, p)
    requires CountsOk(m, n) && Includes(n, p) && Shifted(n, p, q, n')
    ensures CountsOk(m', n') && PcOk(m'.c, q)
  {
  }

  lemma MoveKeepsCounts(m: Shared, p: PC, m': Shared, q: PC, n: Tally, n': Tally)
    requires Move(m, p, m', q) && PcOk(m.c, p)
    requires CountsOk(m, n) && Includes(n, p) && Shifted(n, p, q, n')
    ensures CountsOk(m', n') && PcOk(m'.c, q)
  {
    if Call(m, p, m', q) || Timeout(m, p, m', q) {
    } else if InWait(p) {
      WaitKeepsCounts(m, p, m', q, n, n');
    } else if InCleanup(p) {
      CleanupKeepsCounts(m, p, m', q, n, n');
    } else if InSignal(p) {
      SignalKeepsCounts(m, p, m', q, n, n');
    } else {
      DestroyKeepsCounts(m, p, m', q, n, n');
    }
  }

  /** What the program counter of one thread promises survives the step of another. */
  lemma MoveKeepsOthersOk(m: Shared, p: PC, m': Shared, q: PC, other: PC)
    requires Move(m, p, m', q) && PcOk(m.c, p) && PcOk(m.c, other)
    requires HoldsMutex(p) + HoldsMutex(other) <= 1 && HoldsGate(p) + HoldsGate(other) <= 1
    requires m.c.toUnblock >= 0 && (m.c.toUnblock > 0 ==> HoldsGate(p) == 0)
    requires m.c.toUnblock > 0 ==> HoldsGate(other) == 0
    ensures PcOk(m'.c, other)
  {
  }

  /** Every atomic step of any thread keeps the invariant. */
  lemma StepKeepsInv(s: State, t: nat, s': State)
    requires t < |s.pcs| && Inv(s) && Step(s, t, s')
    ensures Inv(s')
  {
    var p, q := s.pcs[t], s'.pcs[t];
    CountMoves(s.pcs, t, q);
    CountIncludes(s.pcs, t);
    MoveKeepsCounts(s.m, p, s'.m, q, Count(s.pcs), Count(s'.pcs));
    forall u | 0 <= u < |s.pcs| ensures PcOk(s'.m.c, s'.pcs[u]) {
      if u != t {
        Exclusive(s, t, u);
        MoveKeepsOthersOk(s.m, p, s'.m, q, s.pcs[u]);
      }
    }
  }

  lemma NobodyCounts(pcs: seq<PC>)
    requires forall t :: 0 <= t < |pcs| ==> pcs[t] == Idle
    ensures Count(pcs) == Tally(0, 0, 0, 0, 0, 0)
  {
    SumZero(pcs, Registered);
    SumZero(pcs, HoldsMutex);
    SumZero(pcs, HoldsGate);
    SumZero(pcs, InFlight);
    SumZero(pcs, InReset);
    SumZero(pcs, WrittenOff);
  }

  lemma IdleCounts(m: Shared, n: Tally)
    requires m.c.blocked == m.c.gone == m.c.toUnblock == 0 && m.gate == m.mutex == 1 && m.queue == 0
    requires n.registered == n.mutex == n.gate == n.inFlight == n.inReset == n.writtenOff == 0
    ensures CountsOk(m, n)
  {
  }

  lemma IdleIsOk(c: Counters)
    ensures PcOk(c, Idle)
  {
  }

  lemma InitCounts(s: State)
    requires Init(s)
    ensures CountsOk(s.m, Count(s.pcs))
  {
    NobodyCounts(s.pcs);
    IdleCounts(s.m, Count(s.pcs));
  }

  lemma InitIsInv(s: State)
    requires Init(s)
    ensures Inv(s)
  {
    InitCounts(s);
    forall t | 0 <= t < |s.pcs| ensures PcOk(s.m.c, s.pcs[t]) {
      IdleIsOk(s.m.c);
    }
  }

  lemma NextKeepsInv(s: State, s': State)
    requires Inv(s) && Next(s, s')
    ensures Inv(s')
  {
    var t: nat :| t < |s.pcs| && Step(s, t, s');
    StepKeepsInv(s, t, s');
  }

  /** The invariant holds at the start of every run, and every step keeps it, for any number of threads. */
  lemma InvIsInductive()
    ensures Runs.Starts(Init, Inv) && Runs.Keeps(Next, Inv)
  {
    forall s | Init(s) ensures Inv(s) {
      InitIsInv(s);
    }
    forall s, s' | Inv(s) && Next(s, s') ensures Inv(s') {
      NextKeepsInv(s, s');
    }
  }

  ghost predicate Reachable(s: State) {
    Runs.Reachable(Init, Next, s)
  }

  lemma ReachesOn(s: State, t: nat, s': State)
    requires Reachable(s) && t < |s.pcs| && Step(s, t, s')
    ensures Reachable(s')
  {
    Runs.ReachesOn(Init, Next, s, s');
  }

  lemma RunKeepsInv(run: seq<State>, i: nat)
    requires IsRun(run) && i < |run|
    ensures Inv(run[i])
  {
    InvIsInductive();
    Runs.ChainKeeps(Next, Inv, run, i);
  }

  lemma ReachableIsInv(s: State)
    requires Reachable(s)
    ensures Inv(s)
  {
    InvIsInductive();
    Runs.ReachableKeeps(Init, Next, Inv, s);
  }

  // ---------------------------------------------------------------------------------------
  // What the protocol promises
  // ---------------------------------------------------------------------------------------

  /** No promised wakeup is lost, whenever waiters time out; and each has a waiter to take it. */
  lemma NoWakeupIsLost(s: State)
    requires Reachable(s)
    ensures s.m.queue + Sum(s.pcs, InFlight) >= s.m.c.toUnblock
    ensures s.m.c.toUnblock <= Sum(s.pcs, Registered)
  {
    ReachableIsInv(s);
  }

  /** Whenever mtxUnblockLock is free the counters account for the waiters exactly. */
  lemma AccountsAreExact(s: State)
    requires Reachable(s) && s.m.mutex == 1
    ensures s.m.c.blocked - s.m.c.gone + s.m.c.toUnblock == Sum(s.pcs, Registered)
    ensures 0 <= s.m.c.gone <= s.m.c.blocked && 0 <= s.m.c.toUnblock
    ensures s.m.c.toUnblock > 0 ==> s.m.c.gone == 0
  {
    ReachableIsInv(s);
    SumMonotone(s.pcs, WrittenOff, HoldsMutex);
  }

  /** The test of pthread_cond_destroy finds waiters exactly when there are any. */
  lemma DestroyTestIsExact(s: State, t: nat)
    requires Reachable(s) && t < |s.pcs| && s.pcs[t] == DesTest
    ensures s.m.c.blocked > s.m.c.gone <==> exists u :: 0 <= u < |s.pcs| && Registered(s.pcs[u]) == 1
  {
    ReachableIsInv(s);
    CountIncludes(s.pcs, t);
    SumAtLeast(s.pcs, HoldsGate, t);
    SumAtLeast(s.pcs, HoldsMutex, t);
    if s.m.c.blocked > s.m.c.gone {
      var u := SumWitness(s.pcs, Registered);
    }
    forall u | 0 <= u < |s.pcs| && Registered(s.pcs[u]) == 1 ensures s.m.c.blocked > s.m.c.gone {
      SumAtLeast(s.pcs, Registered, u);
    }
  }

  /** There is one gate token.  While a wave is being released no thread has it, so no thread
      can join the waiters; and a thread that has it leaves none for any other. */
  lemma OneGateToken(s: State)
    requires Reachable(s)
    ensures s.m.gate + Sum(s.pcs, HoldsGate) + (if s.m.c.toUnblock > 0 then 1 else 0) == 1
    ensures s.m.c.toUnblock > 0 ==> forall t :: 0 <= t < |s.pcs| ==> HoldsGate(s.pcs[t]) == 0
    ensures forall t, u | 0 <= t < |s.pcs| && 0 <= u < |s.pcs| && t != u && HoldsGate(s.pcs[t]) == 1 ::
              HoldsGate(s.pcs[u]) == 0
  {
    ReachableIsInv(s);
    forall t | 0 <= t < |s.pcs| && s.m.c.toUnblock > 0 ensures HoldsGate(s.pcs[t]) == 0 {
      SumAtLeast(s.pcs, HoldsGate, t);
    }
    forall t, u | 0 <= t < |s.pcs| && 0 <= u < |s.pcs| && t != u && HoldsGate(s.pcs[t]) == 1
      ensures HoldsGate(s.pcs[u]) == 0
    {
      Exclusive(s, t, u);
    }
  }

  ghost predicate Closing(s: State, s': State) {
    exists t: nat :: t < |s.pcs| && Step(s, t, s') && GateMove(s.pcs[t]) == -1
  }

  ghost predicate Opening(s: State, s': State) {
    exists t: nat :: t < |s.pcs| && Step(s, t, s') && GateMove(s.pcs[t]) == 1
  }

  ghost function Closings(run: seq<State>): nat {
    if |run| < 2 then 0
    else Closings(run[..|run| - 1]) + if Closing(run[|run| - 2], run[|run| - 1]) then 1 else 0
  }

  ghost function Openings(run: seq<State>): nat {
    if |run| < 2 then 0
    else Openings(run[..|run| - 1]) + if Opening(run[|run| - 2], run[|run| - 1]) then 1 else 0
  }

  /** A step closes the gate exactly if it takes the one unit of semBlockLock, and opens it exactly if
      it gives that back. */
  lemma StepMovesGate(s: State, s': State)
    requires Next(s, s')
    ensures Closing(s, s') <==> s'.m.gate == s.m.gate - 1
    ensures Opening(s, s') <==> s'.m.gate == s.m.gate + 1
    ensures s.m.gate - 1 <= s'.m.gate <= s.m.gate + 1
  {
    forall t: nat | t < |s.pcs| && Step(s, t, s')
      ensures s.m.gate - 1 <= s'.m.gate <= s.m.gate + 1
      ensures s'.m.gate == s.m.gate - 1 ==> Closing(s, s')
      ensures s'.m.gate == s.m.gate + 1 ==> Opening(s, s')
    {
      MoveIsOneStep(s.m, s.pcs[t], s'.m, s'.pcs[t]);
    }
  }

  lemma {:induction false} GateBalances(run: seq<State>)
    requires IsRun(run)
    ensures Closings(run) - Openings(run) == 1 - run[|run| - 1].m.gate
  {
    var n := |run| - 1;
    if n > 0 {
      var shorter := run[..n];
      forall i | 0 <= i < n - 1 ensures Runs.NextAt(Next, shorter, i) {
        assert Runs.NextAt(Next, run, i);
      }
      GateBalances(shorter);
      assert Runs.NextAt(Next, run, n - 1);
      StepMovesGate(run[n - 1], run[n]);
    }
  }

  /** Over any run the gate has been opened once after each time it was closed, but for the last time
      if it is closed now; no post finds it open. */
  lemma GateIsOpenedOnce(run: seq<State>)
    requires IsRun(run)
    ensures Closings(run) - Openings(run) == 1 - run[|run| - 1].m.gate
    ensures 0 <= run[|run| - 1].m.gate <= 1
    ensures forall s' :: Opening(run[|run| - 1], s') ==> run[|run| - 1].m.gate == 0 && s'.m.gate == 1
  {
    GateBalances(run);
    RunKeepsInv(run, |run| - 1);
    var s := run[|run| - 1];
    forall s' | Opening(s, s') ensures s.m.gate == 0 && s'.m.gate == 1 {
      StepMovesGate(s, s');
      NextKeepsInv(s, s');
    }
  }

  /** The step at which a signal or broadcast decides, through any of its branches. */
  ghost predicate Decides(p: PC, all: bool, q: PC) {
    (p == SigLook(all) && !q.SigGate?) || p == SigClosed(all)
  }

  /** The number of wakeups that is promised once a signal or broadcast has decided. */
  ghost function Promised(s: State, all: bool): int {
    var waiting := Sum(s.pcs, Registered);
    if all then waiting else if s.m.c.toUnblock < waiting then s.m.c.toUnblock + 1 else s.m.c.toUnblock
  }

  lemma DecisionPromises(s: State, t: nat, s': State, all: bool)
    requires Inv(s) && t < |s.pcs| && Step(s, t, s') && Decides(s.pcs[t], all, s'.pcs[t])
    ensures Sum(s'.pcs, Registered) == Sum(s.pcs, Registered) && s'.m.c.toUnblock == Promised(s, all)
    ensures s'.pcs[t] == SigUnlock(s'.m.c.toUnblock - s.m.c.toUnblock)
    ensures s.pcs[t].SigClosed? ==> s'.m.c.toUnblock > 0
  {
    CountMoves(s.pcs, t, s'.pcs[t]);
    CountIncludes(s.pcs, t);
    assert PcOk(s.m.c, s.pcs[t]);
  }

  /** A broadcast promises a wakeup to every waiter; a signal to one more, if there is one. */
  lemma DecisionCovers(s: State, t: nat, s': State, all: bool)
    requires Reachable(s) && t < |s.pcs| && Step(s, t, s') && Decides(s.pcs[t], all, s'.pcs[t])
    ensures Sum(s'.pcs, Registered) == Sum(s.pcs, Registered)
    ensures all ==> s'.m.c.toUnblock == Sum(s'.pcs, Registered)
    ensures !all ==> s'.m.c.toUnblock == if s.m.c.toUnblock < Sum(s.pcs, Registered)
                                         then s.m.c.toUnblock + 1 else s.m.c.toUnblock
    ensures s'.pcs[t] == SigUnlock(s'.m.c.toUnblock - s.m.c.toUnblock)
    ensures s.pcs[t].SigClosed? ==> s'.m.c.toUnblock > 0
  {
    ReachableIsInv(s);
    DecisionPromises(s, t, s', all);
  }

  /** While a wave is being released nobody joins the waiters, and those that are not in the
      wave can only be taken into it. */
  lemma WaveIsClosed(m: Shared, p: PC, m': Shared, q: PC)
    requires Move(m, p, m', q) && PcOk(m.c, p) && m.c.toUnblock > 0 && HoldsGate(p) == 0
    ensures Registered(q) <= Registered(p)
    ensures m.c.blocked >= 0 ==> m'.c.blocked <= m.c.blocked
    ensures m.c.blocked == m.c.gone == 0 ==> m'.c.blocked == m'.c.gone == 0
  {
  }

  ghost predicate NoneJoined(before: State, after: State) {
    && |after.pcs| == |before.pcs|
    && forall t :: 0 <= t < |before.pcs| ==> Registered(after.pcs[t]) <= Registered(before.pcs[t])
  }

  lemma NextKeepsWaveClosed(s: State, s': State)
    requires Inv(s) && Next(s, s') && s.m.c.toUnblock > 0
    ensures s'.m.c.blocked <= s.m.c.blocked && NoneJoined(s, s')
  {
    var t: nat :| t < |s.pcs| && Step(s, t, s');
    SumAtLeast(s.pcs, HoldsGate, t);
    WaveIsClosed(s.m, s.pcs[t], s'.m, s'.pcs[t]);
  }

  lemma NoneJoinedIsTransitive(s0: State, s1: State, s2: State)
    requires NoneJoined(s0, s1) && NoneJoined(s1, s2)
    ensures NoneJoined(s0, s2)
  {
  }

  ghost predicate WaveLasts(run: seq<State>, i: nat, k: nat)
    requires k < |run|
  {
    forall j :: i <= j < k ==> run[j].m.c.toUnblock > 0
  }

  lemma {:induction false} WaveStaysClosed(run: seq<State>, i: nat, k: nat)
    requires IsRun(run) && i <= k < |run| && WaveLasts(run, i, k)
    ensures run[k].m.c.blocked <= run[i].m.c.blocked && NoneJoined(run[i], run[k])
  {
    if i < k {
      WaveStaysClosed(run, i, k - 1);
      RunKeepsInv(run, k - 1);
      assert Runs.NextAt(Next, run, k - 1);
      NextKeepsWaveClosed(run[k - 1], run[k]);
      NoneJoinedIsTransitive(run[i], run[k - 1], run[k]);
    }
  }

  /** At the end of a wave at least as many waiters have stopped waiting as wakeups were promised
      at any time in it, and nobody has joined. */
  lemma WaveReleasesPromised(run: seq<State>, i: nat, k: nat)
    requires IsRun(run) && i <= k < |run| && WaveLasts(run, i, k) && run[k].m.c.toUnblock == 0
    ensures Sum(run[k].pcs, Registered) <= Sum(run[i].pcs, Registered) - run[i].m.c.toUnblock
    ensures forall j :: i <= j <= k ==> NoneJoined(run[i], run[j])
  {
    RunKeepsInv(run, i);
    RunKeepsInv(run, k);
    WaveStaysClosed(run, i, k);
    if i < k {
      assert run[i].m.c.toUnblock > 0;
    }
    forall j | i <= j <= k ensures NoneJoined(run[i], run[j]) {
      WaveStaysClosed(run, i, j);
    }
  }

  lemma DecisionLetsNobodyIn(s: State, t: nat, s': State, all: bool)
    requires t < |s.pcs| && Step(s, t, s') && Decides(s.pcs[t], all, s'.pcs[t])
    ensures NoneJoined(s, s')
  {
  }

  /** What a run shows of a decision: the wakeups it promises, and that nobody joins. */
  lemma DecisionStarts(run: seq<State>, i: nat, t: nat, all: bool)
    requires IsRun(run) && i + 1 < |run| && t < |run[i].pcs|
    requires Step(run[i], t, run[i + 1]) && Decides(run[i].pcs[t], all, run[i + 1].pcs[t])
    ensures Sum(run[i + 1].pcs, Registered) - run[i + 1].m.c.toUnblock
         == Sum(run[i].pcs, Registered) - Promised(run[i], all)
    ensures NoneJoined(run[i], run[i + 1])
  {
    RunKeepsInv(run, i);
    DecisionPromises(run[i], t, run[i + 1], all);
    DecisionLetsNobodyIn(run[i], t, run[i + 1], all);
  }

  lemma NoneJoinedSince(run: seq<State>, i: nat, k: nat)
    requires i < k < |run| && NoneJoined(run[i], run[i + 1])
    requires forall j :: i + 1 <= j <= k ==> NoneJoined(run[i + 1], run[j])
    ensures forall j :: i <= j <= k ==> NoneJoined(run[i], run[j])
  {
    forall j | i < j <= k ensures NoneJoined(run[i], run[j]) {
      NoneJoinedIsTransitive(run[i], run[i + 1], run[j]);
    }
  }

  /** From its decision to the end of its wave a signal or broadcast makes at least as many waiters
      stop waiting as it has then promised wakeups, and nobody joins them meanwhile. */
  lemma DecisionIsCarriedOut(run: seq<State>, i: nat, k: nat, t: nat, all: bool)
    requires IsRun(run) && i < k < |run| && t < |run[i].pcs|
    requires Step(run[i], t, run[i + 1]) && Decides(run[i].pcs[t], all, run[i + 1].pcs[t])
    requires WaveLasts(run, i + 1, k) && run[k].m.c.toUnblock == 0
    ensures Sum(run[k].pcs, Registered) <= Sum(run[i].pcs, Registered) - Promised(run[i], all)
    ensures forall j :: i <= j <= k ==> NoneJoined(run[i], run[j])
  {
    DecisionStarts(run, i, t, all);
    WaveReleasesPromised(run, i + 1, k);
    NoneJoinedSince(run, i, k);
  }

  /** A broadcast releases everyone it found waiting before anyone else can wait: when its wave
      is over, none of those waiters is waiting any more, and nobody joined them meanwhile. */
  lemma BroadcastReleasesEveryone(run: seq<State>, i: nat, k: nat, t: nat)
    requires IsRun(run) && i < k < |run| && t < |run[i].pcs|
    requires Step(run[i], t, run[i + 1]) && Decides(run[i].pcs[t], true, run[i + 1].pcs[t])
    requires WaveLasts(run, i + 1, k) && run[k].m.c.toUnblock == 0
    ensures forall u :: 0 <= u < |run[k].pcs| ==> Registered(run[k].pcs[u]) == 0
    ensures forall j :: i <= j <= k ==> NoneJoined(run[i], run[j])
  {
    DecisionIsCarriedOut(run, i, k, t, true);
    forall u | 0 <= u < |run[k].pcs| ensures Registered(run[k].pcs[u]) == 0 {
      SumAtLeast(run[k].pcs, Registered, u);
    }
  }

  /** With at most INT_MAX / 2 threads the counters never leave the range of an int. */
  lemma CountersFitInt(s: State)
    requires Reachable(s) && |s.pcs| <= HALF
    ensures 0 <= s.m.c.blocked <= INT_MAX && 0 <= s.m.c.gone <= INT_MAX && 0 <= s.m.c.toUnblock <= INT_MAX
  {
    ReachableIsInv(s);
    SumBounded(s.pcs, Registered);
  }

  // ---------------------------------------------------------------------------------------
  // Posts to the queue semaphore
  // ---------------------------------------------------------------------------------------

  /** The signals a thread has still to post, or 1 if it is past its wait and not accounted for. */
  function Owing(p: PC): nat {
    if (p.SigUnlock? || p.SigPost?) && p.signals > 0 then p.signals
    else if p.Woken? || p.Accounting? then 1
    else 0
  }

  /** The units that are left over when the waiters for them time out are bounded. */
  ghost predicate QueueOk(m: Shared, owing: int, threads: int) {
    m.queue + owing - m.c.toUnblock <= threads * threads
  }

  ghost predicate SignalsOk(p: PC, threads: int) {
    Owing(p) <= threads
  }

  ghost predicate Bounded(s: State) {
    && Inv(s) && QueueOk(s.m, Sum(s.pcs, Owing), |s.pcs|)
    && forall t :: 0 <= t < |s.pcs| ==> SignalsOk(s.pcs[t], |s.pcs|)
  }

  /** No step but a timeout adds to what may be left over. */
  lemma MoveAddsNothing(m: Shared, p: PC, m': Shared, q: PC)
    requires Move(m, p, m', q) && PcOk(m.c, p) && !Timeout(m, p, m', q) && m.c.blocked >= 0 && m.c.toUnblock >= 0
    ensures m'.queue + Owing(q) - m'.c.toUnblock <= m.queue + Owing(p) - m.c.toUnblock
  {
  }

  lemma MoveOwesFew(m: Shared, p: PC, m': Shared, q: PC, threads: int)
    requires Move(m, p, m', q) && PcOk(m.c, p) && m.c.toUnblock >= 0 && m'.c.toUnblock <= threads
    requires SignalsOk(p, threads) && threads > 0
    ensures SignalsOk(q, threads)
  {
  }

  lemma StepKeepsSignalsOk(s: State, t: nat, s': State)
    requires Bounded(s) && t < |s.pcs| && Step(s, t, s')
    ensures Inv(s') && forall u :: 0 <= u < |s'.pcs| ==> SignalsOk(s'.pcs[u], |s'.pcs|)
  {
    StepKeepsInv(s, t, s');
    SumBounded(s'.pcs, Registered);
    assert SignalsOk(s.pcs[t], |s.pcs|);
    MoveOwesFew(s.m, s.pcs[t], s'.m, s'.pcs[t], |s.pcs|);
    forall u | 0 <= u < |s'.pcs| ensures SignalsOk(s'.pcs[u], |s'.pcs|) {
      assert SignalsOk(s.pcs[u], |s.pcs|);
    }
  }

  lemma StepKeepsBounded(s: State, t: nat, s': State)
    requires Bounded(s) && t < |s.pcs| && Step(s, t, s')
    ensures Bounded(s')
  {
    StepKeepsSignalsOk(s, t, s');
    if Timeout(s.m, s.pcs[t], s'.m, s'.pcs[t]) {
      forall u | 0 <= u < |s'.pcs| ensures Owing(s'.pcs[u]) <= |s'.pcs| {
        assert SignalsOk(s'.pcs[u], |s'.pcs|);
      }
      SumAtMost(s'.pcs, Owing, |s'.pcs|);
    } else {
      SumUpdate(s.pcs, Owing, t, s'.pcs[t]);
      MoveAddsNothing(s.m, s.pcs[t], s'.m, s'.pcs[t]);
    }
  }

  lemma NobodyOwes(pcs: seq<PC>)
    requires forall t :: 0 <= t < |pcs| ==> pcs[t] == Idle
    ensures Sum(pcs, Owing) == 0 && 0 <= |pcs| * |pcs|
    ensures forall t :: 0 <= t < |pcs| ==> SignalsOk(pcs[t], |pcs|)
  {
    SumZero(pcs, Owing);
  }

  lemma EmptyQueueIsOk(m: Shared, threads: int)
    requires m.queue == m.c.toUnblock == 0 && 0 <= threads * threads
    ensures QueueOk(m, 0, threads)
  {
  }

  lemma InitIsBounded(s: State)
    requires Init(s)
    ensures Bounded(s)
  {
    InitIsInv(s);
    NobodyOwes(s.pcs);
    EmptyQueueIsOk(s.m, |s.pcs|);
  }

  lemma ReachableIsBounded(s: State)
    requires Reachable(s)
    ensures Bounded(s)
  {
    forall s | Init(s) ensures Bounded(s) {
      InitIsBounded(s);
    }
    forall s, s' | Bounded(s) && Next(s, s') ensures Bounded(s') {
      var t: nat :| t < |s.pcs| && Step(s, t, s');
      StepKeepsBounded(s, t, s');
    }
    Runs.ReachableKeeps(Init, Next, Bounded, s);
  }

  lemma ProductsFit(n: nat)
    requires n <= 46340
    ensures n * n + n <= INT_MAX
  {
    Monotone(n, 46340, n);
  }

  lemma Monotone(a: nat, b: nat, c: nat)
    requires a <= b
    ensures a * c <= b * c
  {
  }

  /** A signaller's post always finds room: the queue semaphore stays within a bound that depends on
      the number of threads only, and within SEM_VALUE_MAX for up to 46340 of them. */
  lemma PostsFit(s: State, t: nat)
    requires Reachable(s) && t < |s.pcs| && s.pcs[t].SigPost?
    ensures s.m.queue + s.pcs[t].signals <= |s.pcs| * |s.pcs| + |s.pcs|
    ensures |s.pcs| <= 46340 ==> s.m.queue + s.pcs[t].signals <= INT_MAX
  {
    ReachableIsBounded(s);
    SumAtLeast(s.pcs, Owing, t);
    SumBounded(s.pcs, Registered);
    assert PcOk(s.m.c, s.pcs[t]);
    if |s.pcs| <= 46340 {
      ProductsFit(|s.pcs|);
    }
  }

  // ---------------------------------------------------------------------------------------
  // Progress
  // ---------------------------------------------------------------------------------------

  /** A thread that holds the gate never has to wait for anything to open it again. */
  lemma GateHolderIsReady(m: Shared, p: PC)
    requires HoldsGate(p) == 1
    ensures Ready(m, p)
  {
  }

  /** Holding mtxUnblockLock while waiting for the gate cannot deadlock: the gate is open, or a
      thread that does not need the mutex is about to open it. */
  lemma MutexHolderGetsGate(s: State, t: nat) returns (u: nat)
    requires Inv(s) && t < |s.pcs| && (s.pcs[t].SigGate? || s.pcs[t].ResetGate?)
    ensures u < |s.pcs| && Ready(s.m, s.pcs[u])
    ensures u == t || (HoldsGate(s.pcs[u]) == 1 && HoldsMutex(s.pcs[u]) == 0)
  {
    assert PcOk(s.m.c, s.pcs[t]);
    u := t;
    if s.m.gate == 0 {
      u := SumWitness(s.pcs, HoldsGate);
      Exclusive(s, t, u);
      GateHolderIsReady(s.m, s.pcs[u]);
    }
  }

  /** While a wave is being released, some registered waiter or its signaller can move. */
  lemma WaveMoves(s: State) returns (u: nat)
    requires Inv(s) && s.m.c.toUnblock > 0 && s.m.mutex > 0
    ensures u < |s.pcs| && Ready(s.m, s.pcs[u])
  {
    if s.m.queue > 0 {
      u := SumWitness(s.pcs, Registered);
    } else {
      u := SumWitness(s.pcs, InFlight);
      assert PcOk(s.m.c, s.pcs[u]);
    }
  }

  /** The condition variable never deadlocks: as long as any thread is inside other than to
      wait for a signal, or any promised wakeup is outstanding, some thread has a step to take. */
  lemma NoDeadlock(s: State, t: nat)
    requires Reachable(s) && !s.m.destroyed
    requires t < |s.pcs| && (s.pcs[t] in {Idle, Waiting} ==> s.m.c.toUnblock > 0)
    ensures exists u :: 0 <= u < |s.pcs| && Ready(s.m, s.pcs[u])
  {
    ReachableIsInv(s);
    var u := SomebodyMoves(s, t);
  }

  lemma SomebodyMoves(s: State, t: nat) returns (u: nat)
    requires Inv(s) && t < |s.pcs| && (s.pcs[t] in {Idle, Waiting} ==> s.m.c.toUnblock > 0)
    ensures u < |s.pcs| && Ready(s.m, s.pcs[u])
  {
    u := t;
    if s.m.mutex == 0 {
      u := SumWitness(s.pcs, HoldsMutex);
      if s.pcs[u].SigGate? || s.pcs[u].ResetGate? {
        u := MutexHolderGetsGate(s, u);
      }
    } else if s.m.c.toUnblock > 0 {
      u := WaveMoves(s);
    } else if !Ready(s.m, s.pcs[t]) {
      assert PcOk(s.m.c, s.pcs[t]);
      SumAtLeast(s.pcs, HoldsMutex, t);
      u := SumWitness(s.pcs, HoldsGate);
      GateHolderIsReady(s.m, s.pcs[u]);
    }
    assert PcOk(s.m.c, s.pcs[u]);
  }

  ghost function Left(s: State): nat {
    Sum(s.pcs, Rank) + if s.m.destroyed then 0 else 1
  }

  /** A step of a thread that is inside one of the functions. */
  ghost predicate Inner(s: State, s': State) {
    exists t: nat :: t < |s.pcs| && s.pcs[t] != Idle && Step(s, t, s')
  }

  lemma InnerDescends(s: State, s': State)
    requires Reachable(s) && Inner(s, s')
    ensures Reachable(s') && Left(s') < Left(s)
  {
    var t: nat :| t < |s.pcs| && s.pcs[t] != Idle && Step(s, t, s');
    Runs.ReachesOn(Init, Next, s, s');
    SumUpdate(s.pcs, Rank, t, s'.pcs[t]);
    MoveIsOneStep(s.m, s.pcs[t], s'.m, s'.pcs[t]);
  }

  ghost predicate NobodyReady(s: State) {
    forall t :: 0 <= t < |s.pcs| ==> !Ready(s.m, s.pcs[t])
  }

  /** Every call has returned, but for waits that no signal has reached. */
  ghost predicate AtRest(s: State) {
    && s.m.c.toUnblock == 0
    && forall t :: 0 <= t < |s.pcs| ==> s.pcs[t] == Idle || s.pcs[t] == Waiting
  }

  lemma NothingReady(s: State)
    requires Reachable(s) && NobodyReady(s)
    ensures AtRest(s)
  {
    ReachableIsInv(s);
    forall t | 0 <= t < |s.pcs| ensures (s.pcs[t] == Idle || s.pcs[t] == Waiting) && s.m.c.toUnblock == 0 {
      if !(s.pcs[t] in {Idle, Waiting} && s.m.c.toUnblock == 0) {
        var u := SomebodyMoves(s, t);
      }
    }
  }

  lemma InnerIsDescent()
    ensures Runs.Keeps(Inner, Reachable) && Runs.Descends(Inner, Reachable, Left)
  {
    forall s, s' | Reachable(s) && Inner(s, s') ensures Reachable(s') && Left(s') < Left(s) {
      InnerDescends(s, s');
    }
  }

  /** Unless new calls are made every run comes to an end, after at most 13 steps a thread and one; and
      at an end that no timeout can put off, all threads have returned or wait for a signal. */
  lemma CallsEnd(run: seq<State>)
    requires Runs.IsChain(Inner, run) && Reachable(run[0])
    ensures |run| <= 13 * |run[0].pcs| + 2
    ensures var s := run[|run| - 1]; !s.m.destroyed && NobodyReady(s) ==> AtRest(s)
  {
    InnerIsDescent();
    Runs.ChainIsShort(Inner, Reachable, Left, run, |run| - 1);
    SumAtMost(run[0].pcs, Rank, 13);
    var s := run[|run| - 1];
    if !s.m.destroyed && NobodyReady(s) {
      NothingReady(s);
    }
  }

  // ---------------------------------------------------------------------------------------
  // Destruction
  // ---------------------------------------------------------------------------------------

  /** When pthread_cond_destroy succeeds, no other call is past its first lock, but for a signal
      or broadcast that has still to post. */
  lemma DestroyFindsOnlyPosters(s: State, t: nat, u: nat)
    requires Reachable(s) && t < |s.pcs| && u < |s.pcs| && u != t
    requires s.pcs[t] == DesTest && s.m.c.blocked <= s.m.c.gone
    ensures var p := s.pcs[u]; p.Idle? || p.WaitGate? || p.SigLock? || p.DesGate? || p.SigPost?
  {
    ReachableIsInv(s);
    Exclusive(s, t, u);
    if Registered(s.pcs[u]) == 1 {
      DestroyTestIsExact(s, t);
    }
  }

  predicate PastFirstLock(p: PC) {
    !p.Idle? && !p.WaitGate? && !p.SigLock? && !p.DesGate?
  }

  /** Destruction is as safe as the code takes it to be, in that no other call still has to do with
      the condition variable that has already got into it, exactly if no signaller has still to post. */
  lemma DestroyIsSafeWhen(s: State, t: nat)
    requires Reachable(s) && t < |s.pcs| && s.pcs[t] == DesTest && s.m.c.blocked <= s.m.c.gone
    ensures (forall u :: 0 <= u < |s.pcs| && u != t ==> !PastFirstLock(s.pcs[u]))
            <==> (forall u :: 0 <= u < |s.pcs| && u != t ==> !s.pcs[u].SigPost?)
  {
    forall u | 0 <= u < |s.pcs| && u != t ensures PastFirstLock(s.pcs[u]) <==> s.pcs[u].SigPost? {
      DestroyFindsOnlyPosters(s, t, u);
    }
  }

  /** A reachable state of three threads. */
  ghost predicate Reached(m: Shared, p: PC, q: PC, r: PC) {
    Reachable(State(m, [p, q, r]))
  }

  lemma StartIsReached(m: Shared)
    requires m.c.blocked == m.c.gone == m.c.toUnblock == 0 && m.gate == m.mutex == 1 && m.queue == 0 && !m.destroyed
    ensures Reached(m, Idle, Idle, Idle)
  {
    Runs.StartIsReachable(Init, Next, State(m, [Idle, Idle, Idle]));
  }

  lemma FirstGoes(m: Shared, p: PC, q: PC, r: PC, m': Shared, p': PC)
    requires Reached(m, p, q, r) && Move(m, p, m', p')
    ensures Reached(m', p', q, r)
  {
    assert [p, q, r][0 := p'] == [p', q, r];
    ReachesOn(State(m, [p, q, r]), 0, State(m', [p', q, r]));
  }

  lemma SecondGoes(m: Shared, p: PC, q: PC, r: PC, m': Shared, q': PC)
    requires Reached(m, p, q, r) && Move(m, q, m', q')
    ensures Reached(m', p, q', r)
  {
    assert [p, q, r][1 := q'] == [p, q', r];
    ReachesOn(State(m, [p, q, r]), 1, State(m', [p, q', r]));
  }

  lemma ThirdGoes(m: Shared, p: PC, q: PC, r: PC, m': Shared, r': PC)
    requires Reached(m, p, q, r) && Move(m, r, m', r')
    ensures Reached(m', p, q, r')
  {
    assert [p, q, r][2 := r'] == [p, q, r'];
    ReachesOn(State(m, [p, q, r]), 2, State(m', [p, q, r']));
  }

  lemma WaiterComes(m: Shared) returns (m': Shared)
    requires Reached(m, Idle, Idle, Idle) && m.c.blocked == 0 && m.gate == 1 && !m.destroyed
    ensures m' == m.(gate := 0) && Reached(m', WaitWrite(0), Idle, Idle)
  {
    FirstGoes(m, Idle, Idle, Idle, m, WaitGate);
    m' := m.(gate := 0);
    FirstGoes(m, WaitGate, Idle, Idle, m', WaitRead);
    FirstGoes(m', WaitRead, Idle, Idle, m', WaitWrite(0));
  }

  lemma WaiterRegisters(m: Shared) returns (m': Shared)
    requires Reached(m, WaitWrite(0), Idle, Idle) && m.gate == 0 && !m.destroyed
    ensures m' == m.(c := m.c.(blocked := 1), gate := 1) && Reached(m', Waiting, Idle, Idle)
  {
    var counted := m.(c := m.c.(blocked := 1));
    FirstGoes(m, WaitWrite(0), Idle, Idle, counted, WaitOpen);
    m' := counted.(gate := 1);
    FirstGoes(counted, WaitOpen, Idle, Idle, m', Waiting);
  }

  lemma SignalCloses(m: Shared) returns (m': Shared)
    requires Reached(m, Waiting, Idle, Idle) && !m.destroyed && m.gate == m.mutex == 1
    requires m.c.toUnblock == 0 && m.c.blocked > m.c.gone
    ensures m' == m.(mutex := 0, gate := 0) && Reached(m', Waiting, SigClosed(false), Idle)
  {
    var locked := m.(mutex := 0);
    SecondGoes(m, Waiting, Idle, Idle, m, SigLock(false));
    SecondGoes(m, Waiting, SigLock(false), Idle, locked, SigLook(false));
    SecondGoes(locked, Waiting, SigLook(false), Idle, locked, SigGate(false));
    m' := locked.(gate := 0);
    SecondGoes(locked, Waiting, SigGate(false), Idle, m', SigClosed(false));
  }

  lemma SignalDecides(m: Shared) returns (m': Shared)
    requires Reached(m, Waiting, SigClosed(false), Idle) && !m.destroyed && m.mutex == 0
    requires m.c.blocked == 1 && m.c.gone == 0
    ensures m' == m.(c := m'.c, mutex := 1) && m'.c.blocked == m'.c.gone == 0 && m'.c.toUnblock == 1
    ensures Reached(m', Waiting, SigPost(1), Idle)
  {
    var decided := m.(c := StartWave(m.c, false));
    SecondGoes(m, Waiting, SigClosed(false), Idle, decided, SigUnlock(1));
    m' := decided.(mutex := 1);
    SecondGoes(decided, Waiting, SigUnlock(1), Idle, m', SigPost(1));
  }

  lemma WaiterLeaves(m: Shared) returns (m': Shared)
    requires Reached(m, Waiting, SigPost(1), Idle) && !m.destroyed && m.queue == m.gate == 0 && m.mutex == 1
    requires m.c.toUnblock == 1
    ensures m' == m.(c := m.c.(toUnblock := 0), gate := 1) && Reached(m', Idle, SigPost(1), Idle)
  {
    var locked := m.(mutex := 0);
    var accounted := locked.(c := m.c.(toUnblock := 0));
    var unlocked := accounted.(mutex := 1);
    FirstGoes(m, Waiting, SigPost(1), Idle, m, Woken(false));
    FirstGoes(m, Woken(false), SigPost(1), Idle, locked, Accounting(false));
    FirstGoes(locked, Accounting(false), SigPost(1), Idle, accounted, LeaveUnlock(1));
    FirstGoes(accounted, LeaveUnlock(1), SigPost(1), Idle, unlocked, OpenGate);
    m' := unlocked.(gate := 1);
    FirstGoes(unlocked, OpenGate, SigPost(1), Idle, m', Idle);
  }

  lemma DestroyComes(m: Shared) returns (m': Shared)
    requires Reached(m, Idle, SigPost(1), Idle) && !m.destroyed && m.gate == m.mutex == 1
    ensures m' == m.(gate := 0, mutex := 0) && Reached(m', Idle, SigPost(1), DesTest)
  {
    var closed := m.(gate := 0);
    ThirdGoes(m, Idle, SigPost(1), Idle, m, DesGate);
    ThirdGoes(m, Idle, SigPost(1), DesGate, closed, DesTry);
    m' := closed.(mutex := 0);
    ThirdGoes(closed, Idle, SigPost(1), DesTry, m', DesTest);
  }

  /** A signaller that has not posted yet can outlive the condition variable: a waiter registers,
      a signal promises it a wakeup, the waiter times out and takes the promise with it, and a
      third thread destroys. */
  lemma PosterCanBeLate() returns (s: State)
    ensures Reachable(s) && |s.pcs| == 3
    ensures s.pcs[2] == DesTest && s.m.c.blocked <= s.m.c.gone && s.pcs[1] == SigPost(1)
  {
    var m := Shared(Counters(0, 0, 0), 1, 0, 1, false);
    StartIsReached(m);
    m := WaiterComes(m);
    m := WaiterRegisters(m);
    m := SignalCloses(m);
    m := SignalDecides(m);
    m := WaiterLeaves(m);
    m := DestroyComes(m);
    s := State(m, [Idle, SigPost(1), DesTest]);
  }
}
