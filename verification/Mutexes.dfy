/** The non-robust mutex: an interlocked word and an auto-reset event.

The word `lock_idx` is 0 when the mutex is free, 1 when it is held, and -1 when it is held and
some thread may be waiting for the event.  Recursive and error-checking mutexes also record
their owner.  Every interlocked operation, event operation and access to the owner is one
atomic step.
*/
module Mutexes {
  import opened ThreadCounts
  import Runs

  datatype Kind = Normal | Recursive | ErrorCheck

  datatype Owner = Nobody | Thread(t: nat)

  datatype Mutex = Mutex(lockIdx: int, count: int, owner: Owner, event: bool)

  /** Where a thread is; `d` is how often it holds the mutex already. */
  datatype PC =
    | Outside(d: nat)                  // not in a mutex function
      // pthread_mutex_lock and pthread_mutex_timedlock
    | Enter(d: nat, timed: bool)       // the first exchange, or compare-exchange
    | LookOwner(d: nat, timed: bool)   // is the owner this thread?
    | Retry(d: nat, timed: bool)       // exchange -1
    | Sleep(d: nat, timed: bool)       // wait for the event
    | SetCount                         // recursive_count = 1
    | SetOwner                         // ownerThread = self
      // pthread_mutex_trylock
    | Try(d: nat)                      // compare-exchange
    | TryOwner(d: nat)                 // is the owner this thread?
      // pthread_mutex_unlock
    | Unlock(d: nat)                   // Normal: exchange 0; otherwise: is the owner this thread?
    | ClearOwner                       // ownerThread.p = NULL
    | Release                          // exchange 0
    | Wake                             // set the event

  /** What a call that returns at this step returns; `Going` if it does not return. */
  datatype Answer = Going | Ok | EDEADLK | EBUSY | EPERM | ETIMEDOUT

  datatype Outcome = Outcome(m: Mutex, q: PC, a: Answer)

  /** After winning the word, a mutex that is not Normal records its owner. */
  function Won(k: Kind): PC {
    if k == Normal then Outside(1) else SetCount
  }

  predicate Ready(m: Mutex, p: PC) {
    match p
    case Outside(_) => false
    case Sleep(_, _) => m.event
    case _ => true
  }

  /** The next step of thread `t` at `p`. */
  function After(k: Kind, m: Mutex, t: nat, p: PC): Outcome
    requires Ready(m, p)
  {
    match p
    case Enter(d, timed) =>
      if k == Normal then
        if m.lockIdx == 0 then Outcome(m.(lockIdx := 1), Outside(1), Ok)
        else Outcome(m.(lockIdx := 1), Retry(d, timed), Going)
      else if m.lockIdx == 0 then Outcome(m.(lockIdx := 1), SetCount, Going)
      else Outcome(m, LookOwner(d, timed), Going)
    case LookOwner(d, timed) =>
      if m.owner == Thread(t) then
        if k == Recursive then Outcome(m.(count := m.count + 1), Outside(d + 1), Ok)
        else Outcome(m, Outside(d), EDEADLK)
      else Outcome(m, Retry(d, timed), Going)
    case Retry(d, timed) =>
      var next := if m.lockIdx == 0 then Won(k) else Sleep(d, timed);
      Outcome(m.(lockIdx := -1), next, if next.Outside? then Ok else Going)
    case Sleep(d, timed) => Outcome(m.(event := false), Retry(d, timed), Going)
    case SetCount => Outcome(m.(count := 1), SetOwner, Going)
    case SetOwner => Outcome(m.(owner := Thread(t)), Outside(1), Ok)
    case Try(d) =>
      if m.lockIdx == 0 then Outcome(m.(lockIdx := 1), Won(k), if k == Normal then Ok else Going)
      else Outcome(m, TryOwner(d), Going)
    case TryOwner(d) =>
      if k == Recursive && m.owner == Thread(t) then Outcome(m.(count := m.count + 1), Outside(d + 1), Ok)
      else Outcome(m, Outside(d), EBUSY)
    case Unlock(d) =>
      if k == Normal then
        Outcome(m.(lockIdx := 0), if m.lockIdx < 0 then Wake else Outside(0), if m.lockIdx < 0 then Going else Ok)
      else if m.owner != Thread(t) then Outcome(m, Outside(d), EPERM)
      else if k == Recursive && m.count - 1 != 0 then
        Outcome(m.(count := m.count - 1), Outside(if d > 0 then d - 1 else 0), Ok)
      else Outcome(if k == Recursive then m.(count := m.count - 1) else m, ClearOwner, Going)
    case ClearOwner => Outcome(m.(owner := Nobody), Release, Going)
    case Release =>
      Outcome(m.(lockIdx := 0), if m.lockIdx < 0 then Wake else Outside(0), if m.lockIdx < 0 then Going else Ok)
    case Wake => Outcome(m.(event := true), Outside(0), Ok)
  }

  /** A thread calls one of the functions; nobody unlocks a Normal mutex without holding it. */
  predicate Call(k: Kind, p: PC, q: PC) {
    && p.Outside?
    && (q == Enter(p.d, true) || q == Enter(p.d, false) || q == Try(p.d)
        || (q == Unlock(p.d) && (k == Normal ==> p.d > 0)))
  }

  /** Where a timed wait goes that runs out. */
  function Expire(m: Mutex, p: PC): Outcome
    requires p.Sleep?
  {
    Outcome(m, Outside(p.d), ETIMEDOUT)
  }

  /** A timed wait runs out, whether or not the event is set. */
  predicate Timeout(m: Mutex, p: PC, m': Mutex, q: PC) {
    p.Sleep? && p.timed && Expire(m, p).m == m' && Expire(m, p).q == q
  }

  predicate Move(k: Kind, m: Mutex, t: nat, p: PC, m': Mutex, q: PC) {
    || (m' == m && Call(k, p, q))
    || Timeout(m, p, m', q)
    || (Ready(m, p) && After(k, m, t, p).m == m' && After(k, m, t, p).q == q)
  }

  datatype State = State(k: Kind, m: Mutex, pcs: seq<PC>)

  ghost predicate Step(s: State, t: nat, s': State)
    requires t < |s.pcs|
  {
    && |s'.pcs| == |s.pcs| && s'.k == s.k
    && s'.pcs == s.pcs[t := s'.pcs[t]]
    && Move(s.k, s.m, t, s.pcs[t], s'.m, s'.pcs[t])
  }

  ghost predicate Init(s: State) {
    && s.m == Mutex(0, 0, Nobody, false)
    && forall t :: 0 <= t < |s.pcs| ==> s.pcs[t] == Outside(0)
  }

  ghost predicate Next(s: State, s': State) {
    exists t: nat :: t < |s.pcs| && Step(s, t, s')
  }

  ghost predicate Reachable(s: State) {
    Runs.Reachable(Init, Next, s)
  }

  // ---------------------------------------------------------------------------------------
  // The invariant
  // ---------------------------------------------------------------------------------------

  function Depth(p: PC): nat {
    if p.Outside? || p.Enter? || p.LookOwner? || p.Retry? || p.Sleep? || p.Try? || p.TryOwner? || p.Unlock?
    then p.d else 0
  }

  /** Threads that have won the word and not given it back. */
  function Holds(p: PC): nat {
    if Depth(p) > 0 || p.SetCount? || p.SetOwner? || p.ClearOwner? || p.Release? then 1 else 0
  }

  function Sleeping(p: PC): nat {
    if p.Sleep? then 1 else 0
  }

  /** Threads on their way to mark the word with -1, or to set the event. */
  function Stirring(p: PC): nat {
    if p.Retry? || p.Wake? then 1 else 0
  }

  /** Threads that a mutex which is not Normal has on record as its owner. */
  predicate OnRecord(p: PC) {
    Depth(p) > 0 || p.ClearOwner?
  }

  ghost predicate WordOk(m: Mutex, holding: int) {
    && (m.lockIdx == 0 || m.lockIdx == 1 || m.lockIdx == -1)
    && holding == if m.lockIdx == 0 then 0 else 1
  }

  /** A sleeper is never forgotten: the word says that somebody may be waiting, or the event is
      set, or some thread is about to see to either. */
  ghost predicate SleepersOk(m: Mutex, sleeping: int, stirring: int) {
    sleeping > 0 ==> m.lockIdx == -1 || m.event || stirring > 0
  }

  ghost predicate PcOk(k: Kind, m: Mutex, t: nat, p: PC) {
    && (k == Normal ==>
          && Depth(p) <= 1 && (p.Unlock? ==> p.d == 1)
          && !p.LookOwner? && !p.SetCount? && !p.SetOwner? && !p.ClearOwner? && !p.Release?)
    && (k != Normal ==>
          && (m.owner == Thread(t) <==> OnRecord(p))
          && (Depth(p) > 0 ==> Depth(p) == if k == Recursive then m.count else 1)
          && (p.Retry? || p.Sleep? ==> p.d == 0)
          && (p.SetOwner? ==> m.count == 1))
  }

  ghost predicate Inv(s: State) {
    && WordOk(s.m, Sum(s.pcs, Holds))
    && SleepersOk(s.m, Sum(s.pcs, Sleeping), Sum(s.pcs, Stirring))
    && (forall t :: 0 <= t < |s.pcs| ==> PcOk(s.k, s.m, t, s.pcs[t]))
  }

  lemma MoveKeepsWord(k: Kind, m: Mutex, t: nat, p: PC, m': Mutex, q: PC, holding: int)
    requires Move(k, m, t, p, m', q) && WordOk(m, holding) && PcOk(k, m, t, p) && Holds(p) <= holding
    ensures WordOk(m', holding - Holds(p) + Holds(q))
  {
  }

  lemma MoveKeepsSleepers(k: Kind, m: Mutex, t: nat, p: PC, m': Mutex, q: PC, sleeping: int, stirring: int)
    requires Move(k, m, t, p, m', q) && SleepersOk(m, sleeping, stirring) && PcOk(k, m, t, p)
    requires Sleeping(p) <= sleeping && Stirring(p) <= stirring
    ensures SleepersOk(m', sleeping - Sleeping(p) + Sleeping(q), stirring - Stirring(p) + Stirring(q))
  {
  }

  lemma AfterKeepsPcOk(k: Kind, m: Mutex, t: nat, p: PC)
    requires Ready(m, p) && PcOk(k, m, t, p)
    requires m.lockIdx == 0 ==> Holds(p) == 0
    ensures PcOk(k, After(k, m, t, p).m, t, After(k, m, t, p).q)
  {
  }

  lemma MoveKeepsPcOk(k: Kind, m: Mutex, t: nat, p: PC, m': Mutex, q: PC)
    requires Move(k, m, t, p, m', q) && PcOk(k, m, t, p)
    requires m.lockIdx == 0 ==> Holds(p) == 0
    ensures PcOk(k, m', t, q)
  {
    if Ready(m, p) {
      AfterKeepsPcOk(k, m, t, p);
    }
  }

  lemma MoveKeepsOthersOk(k: Kind, m: Mutex, t: nat, p: PC, m': Mutex, q: PC, u: nat, other: PC)
    requires Move(k, m, t, p, m', q) && PcOk(k, m, t, p) && PcOk(k, m, u, other) && u != t
    requires Holds(p) + Holds(other) <= 1
    requires m.lockIdx == 0 ==> Holds(other) == 0
    ensures PcOk(k, m', u, other)
  {
  }

  lemma OneHolder(s: State, t: nat, u: nat)
    requires WordOk(s.m, Sum(s.pcs, Holds)) && t < |s.pcs| && u < |s.pcs| && t != u
    ensures Holds(s.pcs[t]) + Holds(s.pcs[u]) <= 1
    ensures s.m.lockIdx == 0 ==> Holds(s.pcs[u]) == 0
  {
    SumAtLeastTwo(s.pcs, Holds, t, u);
  }

  lemma StepKeepsInv(s: State, t: nat, s': State)
    requires t < |s.pcs| && Inv(s) && Step(s, t, s')
    ensures Inv(s')
  {
    var p, q := s.pcs[t], s'.pcs[t];
    SumUpdate(s.pcs, Holds, t, q);
    SumUpdate(s.pcs, Sleeping, t, q);
    SumUpdate(s.pcs, Stirring, t, q);
    SumAtLeast(s.pcs, Holds, t);
    SumAtLeast(s.pcs, Sleeping, t);
    SumAtLeast(s.pcs, Stirring, t);
    MoveKeepsWord(s.k, s.m, t, p, s'.m, q, Sum(s.pcs, Holds));
    MoveKeepsSleepers(s.k, s.m, t, p, s'.m, q, Sum(s.pcs, Sleeping), Sum(s.pcs, Stirring));
    forall u | 0 <= u < |s.pcs| ensures PcOk(s.k, s'.m, u, s'.pcs[u]) {
      if u == t {
        MoveKeepsPcOk(s.k, s.m, t, p, s'.m, q);
      } else {
        OneHolder(s, t, u);
        MoveKeepsOthersOk(s.k, s.m, t, p, s'.m, q, u, s.pcs[u]);
      }
    }
  }

  lemma InitIsInv(s: State)
    requires Init(s)
    ensures Inv(s)
  {
    SumZero(s.pcs, Holds);
    SumZero(s.pcs, Sleeping);
  }

  lemma NextKeepsInv(s: State, s': State)
    requires Inv(s) && Next(s, s')
    ensures Inv(s')
  {
    var t: nat :| t < |s.pcs| && Step(s, t, s');
    StepKeepsInv(s, t, s');
  }

  /** The invariant holds at the start of every run, and every step keeps it, for any number of threads. */
  lemma InvIsInductive()
    ensures Runs.Starts(Init, Inv) && Runs.Keeps(Next, Inv)
  {
    forall s | Init(s) ensures Inv(s) {
      InitIsInv(s);
    }
    forall s, s' | Inv(s) && Next(s, s') ensures Inv(s') {
      NextKeepsInv(s, s');
    }
  }

  lemma ReachableIsInv(s: State)
    requires Reachable(s)
    ensures Inv(s)
  {
    InvIsInductive();
    Runs.ReachableKeeps(Init, Next, Inv, s);
  }

  // ---------------------------------------------------------------------------------------
  // What a mutex promises
  // ---------------------------------------------------------------------------------------

  /** At most one thread holds the mutex, and the word is 0 exactly when none does. */
  lemma MutualExclusion(s: State)
    requires Reachable(s)
    ensures forall t, u | 0 <= t < |s.pcs| && 0 <= u < |s.pcs| && t != u && Holds(s.pcs[t]) == 1 ::
              Holds(s.pcs[u]) == 0
    ensures s.m.lockIdx == 0 <==> forall t :: 0 <= t < |s.pcs| ==> Holds(s.pcs[t]) == 0
  {
    ReachableIsInv(s);
    forall t, u | 0 <= t < |s.pcs| && 0 <= u < |s.pcs| && t != u && Holds(s.pcs[t]) == 1
      ensures Holds(s.pcs[u]) == 0
    {
      OneHolder(s, t, u);
    }
    forall t | 0 <= t < |s.pcs| && s.m.lockIdx == 0 ensures Holds(s.pcs[t]) == 0 {
      SumAtLeast(s.pcs, Holds, t);
    }
    if s.m.lockIdx != 0 {
      var t := SumWitness(s.pcs, Holds);
    }
  }

  /** What a call answers when it returns at this step. */
  function Answered(k: Kind, m: Mutex, t: nat, p: PC, m': Mutex, q: PC): Answer {
    if Ready(m, p) && After(k, m, t, p).m == m' && After(k, m, t, p).q == q then After(k, m, t, p).a
    else if Timeout(m, p, m', q) then Expire(m, p).a
    else Going
  }

  /** The mutex refines a lock: each step takes it when it was free, gives it up when the thread
      held it, or leaves the holders alone. */
  lemma RefinesLock(s: State, t: nat, s': State)
    requires Reachable(s) && t < |s.pcs| && Step(s, t, s')
    ensures var held, held' := Sum(s.pcs, Holds), Sum(s'.pcs, Holds);
            || (held == 0 && held' == 1 && Holds(s.pcs[t]) == 0 && Holds(s'.pcs[t]) == 1)
            || (held == 1 && held' == 0 && Holds(s.pcs[t]) == 1 && Holds(s'.pcs[t]) == 0)
            || (held' == held && Holds(s'.pcs[t]) == Holds(s.pcs[t]))
  {
    ReachableIsInv(s);
    StepKeepsInv(s, t, s');
    SumUpdate(s.pcs, Holds, t, s'.pcs[t]);
    SumAtLeast(s.pcs, Holds, t);
    SumAtLeast(s'.pcs, Holds, t);
  }

  /** A call that returns from locking tells whether the thread holds the mutex: it does after Ok, and
      after a refusal or a timeout exactly as often as before. */
  lemma AnswersAreTrue(s: State, t: nat, s': State)
    requires Reachable(s) && t < |s.pcs| && Step(s, t, s') && s'.pcs[t].Outside?
    requires var p := s.pcs[t]; p.Enter? || p.LookOwner? || p.Retry? || p.Sleep? || p.SetOwner? || p.Try? || p.TryOwner?
    ensures var p, a := s.pcs[t], Answered(s.k, s.m, t, s.pcs[t], s'.m, s'.pcs[t]);
            && a in {Ok, EDEADLK, EBUSY, ETIMEDOUT}
            && (a == Ok ==> s'.pcs[t].d == if p.SetOwner? then 1 else Depth(p) + 1)
            && (a != Ok ==> s'.m == s.m && s'.pcs[t].d == Depth(p))
            && (a == ETIMEDOUT ==> p.Sleep? && p.timed)
  {
    ReachableIsInv(s);
    assert PcOk(s.k, s.m, t, s.pcs[t]);
    if s.m.lockIdx == 0 {
      SumAtLeast(s.pcs, Holds, t);
    }
  }

  /** A waiter is never stranded: while the mutex is free and some thread is inside the mutex's
      code, some thread there has a step to take, timeouts left aside. */
  lemma FreeMutexMoves(s: State, t: nat)
    requires Reachable(s) && s.m.lockIdx == 0 && t < |s.pcs| && !s.pcs[t].Outside?
    ensures exists u :: 0 <= u < |s.pcs| && Ready(s.m, s.pcs[u])
  {
    ReachableIsInv(s);
    if !Ready(s.m, s.pcs[t]) {
      SumAtLeast(s.pcs, Sleeping, t);
      var u := SumWitness(s.pcs, Stirring);
    }
  }

  /** A held mutex that a thread sleeps on will be handed on: the word tells the holder to set the
      event, or a thread is about to see to that, or the event is set already. */
  lemma HolderWillWake(s: State, t: nat)
    requires Reachable(s) && t < |s.pcs| && s.pcs[t].Sleep?
    ensures s.m.lockIdx == -1 || s.m.event || exists u :: 0 <= u < |s.pcs| && Stirring(s.pcs[u]) == 1
  {
    ReachableIsInv(s);
    SumAtLeast(s.pcs, Sleeping, t);
    if Sum(s.pcs, Stirring) > 0 {
      var u := SumWitness(s.pcs, Stirring);
    }
  }

  /** A mutex that is not Normal answers by the caller's own holding, although its owner field is
      read without any lock: a recursive one counts, the other refuses, and only the holder may
      unlock. */
  lemma OwnerChecksAreExact(s: State, t: nat, s': State)
    requires Reachable(s) && s.k != Normal && t < |s.pcs| && Step(s, t, s') && Ready(s.m, s.pcs[t])
    requires s.pcs[t].LookOwner? || s.pcs[t].TryOwner? || s.pcs[t].Unlock?
    ensures var d, a := s.pcs[t].d, After(s.k, s.m, t, s.pcs[t]).a;
            if s.pcs[t].LookOwner? then
              if d == 0 then s'.pcs[t].Retry? else if s.k == Recursive then a == Ok && s'.pcs[t] == Outside(d + 1)
              else a == EDEADLK && s'.pcs[t] == Outside(d)
            else if s.pcs[t].TryOwner? then
              if d > 0 && s.k == Recursive then a == Ok && s'.pcs[t] == Outside(d + 1)
              else a == EBUSY && s'.pcs[t] == Outside(d)
            else
              if d == 0 then a == EPERM && s' == s.(pcs := s'.pcs) && s'.pcs[t] == Outside(0)
              else if d > 1 then a == Ok && s'.pcs[t] == Outside(d - 1)
              else s'.pcs[t] == ClearOwner
  {
    ReachableIsInv(s);
    assert PcOk(s.k, s.m, t, s.pcs[t]);
  }

  /** How many steps a thread at `p` can take, at most, before its call returns or it sleeps for good;
      one that sets the event can make a sleeper go round twice. */
  function Rank(p: PC): nat {
    match p
    case Outside(_) => 0
    case Enter(_, _) => 5
    case LookOwner(_, _) => 4
    case Retry(_, _) => 3
    case Sleep(_, _) => 2
    case SetCount => 2
    case SetOwner => 1
    case Try(_) => 3
    case TryOwner(_) => 1
    case Unlock(_) => 6
    case ClearOwner => 5
    case Release => 4
    case Wake => 3
  }

  ghost function Left(s: State): nat {
    Sum(s.pcs, Rank) + if s.m.event then 2 else 0
  }

  /** A step of a thread that is inside one of the functions. */
  ghost predicate Inner(s: State, s': State) {
    exists t: nat :: t < |s.pcs| && !s.pcs[t].Outside? && Step(s, t, s')
  }

  lemma MoveUsesRank(k: Kind, m: Mutex, t: nat, p: PC, m': Mutex, q: PC)
    requires Move(k, m, t, p, m', q) && !p.Outside?
    ensures Rank(q) + (if m'.event then 2 else 0) < Rank(p) + if m.event then 2 else 0
  {
  }

  lemma InnerDescends(s: State, s': State)
    requires Reachable(s) && Inner(s, s')
    ensures Reachable(s') && Left(s') < Left(s)
  {
    var t: nat :| t < |s.pcs| && !s.pcs[t].Outside? && Step(s, t, s');
    Runs.ReachesOn(Init, Next, s, s');
    SumUpdate(s.pcs, Rank, t, s'.pcs[t]);
    MoveUsesRank(s.k, s.m, t, s.pcs[t], s'.m, s'.pcs[t]);
  }

  ghost predicate NobodyReady(s: State) {
    forall t :: 0 <= t < |s.pcs| ==> !Ready(s.m, s.pcs[t])
  }

  /** Every call has returned, but for those that sleep while another thread holds the mutex, outside
      its functions; and the word tells that thread to wake one of them. */
  ghost predicate AtRest(s: State) {
    && (forall t :: 0 <= t < |s.pcs| ==> s.pcs[t].Outside? || s.pcs[t].Sleep?)
    && ((exists t :: 0 <= t < |s.pcs| && s.pcs[t].Sleep?) ==> s.m.lockIdx == -1)
    && (s.m.lockIdx != 0 ==> exists t :: 0 <= t < |s.pcs| && Holds(s.pcs[t]) == 1)
  }

  lemma NothingReady(s: State)
    requires Reachable(s) && NobodyReady(s)
    ensures AtRest(s)
  {
    ReachableIsInv(s);
    if t :| 0 <= t < |s.pcs| && s.pcs[t].Sleep? {
      SumAtLeast(s.pcs, Sleeping, t);
      SumZero(s.pcs, Stirring);
    }
    if s.m.lockIdx != 0 {
      var t := SumWitness(s.pcs, Holds);
    }
  }

  lemma InnerIsDescent()
    ensures Runs.Keeps(Inner, Reachable) && Runs.Descends(Inner, Reachable, Left)
  {
    forall s, s' | Reachable(s) && Inner(s, s') ensures Reachable(s') && Left(s') < Left(s) {
      InnerDescends(s, s');
    }
  }

  /** Unless new calls are made every run comes to an end, after at most 6 steps a thread and two; and
      at an end that no timeout can put off, all calls have returned or sleep for the holder's unlock. */
  lemma CallsEnd(run: seq<State>)
    requires Runs.IsChain(Inner, run) && Reachable(run[0])
    ensures |run| <= 6 * |run[0].pcs| + 3
    ensures var s := run[|run| - 1]; NobodyReady(s) ==> AtRest(s)
  {
    InnerIsDescent();
    Runs.ChainIsShort(Inner, Reachable, Left, run, |run| - 1);
    SumAtMost(run[0].pcs, Rank, 6);
    var s := run[|run| - 1];
    if NobodyReady(s) {
      NothingReady(s);
    }
  }
}
