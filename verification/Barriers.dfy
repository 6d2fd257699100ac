/** The barrier.

The last thread to arrive moves its node of the barrier's queue lock into the barrier itself
and lets the others through a semaphore; the last thread to leave, which may be any of them,
releases the lock from there.  `current` counts down to 0 under the lock, in two steps, and
back up to the height by interlocked increments without it.  The lock, its transfer included,
is used through the contract proved in module McsLock, and the semaphore through that of
module Semaphores.
*/
module Barriers {
  import opened ThreadCounts
  import Runs

  /** Where a thread is; `k` is the round it takes part in. */
  datatype PC =
    | Idle
    | Lock                       // acquire the lock
    | Read(k: nat)               // --nCurrentBarrierHeight: its read
    | Write(k: nat, seen: int)   //   and its write
    | Test(k: nat, result: int)  //   and the test of its result
    | Transfer(k: nat)           // move the lock node into the barrier
    | Post(k: nat)               // sem_post_multiple
    | Unlock(k: nat)             // release the lock
    | Sleep(k: nat)              // wait for the semaphore
    | Increment(k: nat)          // the interlocked increment
    | Release(k: nat)            // release the lock from the barrier

  /** `lock` is 1 when the lock is free; `proxy`: it is held from within the barrier.  The other
      fields are history: the round, and the threads that arrived and left in it; how many threads
      ever arrived and left; and how many calls returned PTHREAD_BARRIER_SERIAL_THREAD. */
  datatype Shared = Shared(
    current: int, lock: nat, proxy: bool, sem: nat,
    round: nat, arrived: int, left: int,
    arrivals: nat, departures: nat, serials: nat)

  datatype Outcome = Outcome(m: Shared, q: PC)

  predicate Ready(m: Shared, p: PC) {
    match p
    case Idle => false
    case Lock => m.lock > 0
    case Sleep(_) => m.sem > 0
    case _ => true
  }

  /** The next step of a thread at `p`, at a barrier of height `n`. */
  function After(n: int, m: Shared, p: PC): Outcome
    requires n > 0 && Ready(m, p)
  {
    match p
    case Lock => Outcome(m.(lock := m.lock - 1), Read(m.round))
    case Read(k) => Outcome(m, Write(k, m.current))
    case Write(k, seen) =>
      Outcome(m.(current := seen - 1, arrived := m.arrived + 1, arrivals := m.arrivals + 1), Test(k, seen - 1))
    case Test(k, result) => Outcome(m, if result == 0 then Transfer(k) else Unlock(k))
    case Transfer(k) => Outcome(m.(proxy := true), if n > 1 then Post(k) else Increment(k))
    case Post(k) => Outcome(m.(sem := m.sem + (n - 1)), Increment(k))
    case Unlock(k) => Outcome(m.(lock := m.lock + 1), Sleep(k))
    case Sleep(k) => Outcome(m.(sem := m.sem - 1), Increment(k))
    case Increment(k) =>
      Outcome(m.(current := m.current + 1, left := m.left + 1, departures := m.departures + 1),
              if m.current + 1 == n then Release(k) else Idle)
    case Release(k) =>
      Outcome(m.(proxy := false, lock := m.lock + 1, round := m.round + 1, arrived := 0, left := 0,
                 serials := m.serials + 1), Idle)
  }

  predicate Move(n: int, m: Shared, p: PC, m': Shared, q: PC)
    requires n > 0
  {
    (p == Idle && q == Lock && m' == m) || (Ready(m, p) && After(n, m, p) == Outcome(m', q))
  }

  /** Any number of threads may use the barrier. */
  datatype State = State(n: int, m: Shared, pcs: seq<PC>)

  ghost predicate Step(s: State, t: nat, s': State)
    requires t < |s.pcs|
  {
    && s.n > 0 && s'.n == s.n && |s'.pcs| == |s.pcs|
    && s'.pcs == s.pcs[t := s'.pcs[t]]
    && Move(s.n, s.m, s.pcs[t], s'.m, s'.pcs[t])
  }

  ghost predicate Init(s: State) {
    && s.n > 0
    && s.m == Shared(s.n, 1, false, 0, 0, 0, 0, 0, 0, 0)
    && forall t :: 0 <= t < |s.pcs| ==> s.pcs[t] == Idle
  }

  ghost predicate Next(s: State, s': State) {
    exists t: nat :: t < |s.pcs| && Step(s, t, s')
  }

  ghost predicate Reachable(s: State) {
    Runs.Reachable(Init, Next, s)
  }

  // ---------------------------------------------------------------------------------------
  // The invariant
  // ---------------------------------------------------------------------------------------

  function HoldsLock(p: PC): nat {
    if p.Read? || p.Write? || p.Test? || p.Transfer? || p.Unlock? then 1 else 0
  }

  /** Arrived, that is, counted down, and holding the lock. */
  function ArrivedLocked(p: PC): nat {
    if p.Test? || p.Transfer? || p.Unlock? then 1 else 0
  }

  function Posts(p: PC): nat {
    if p.Post? then 1 else 0
  }

  function Sleeps(p: PC): nat {
    if p.Sleep? then 1 else 0
  }

  function Increments(p: PC): nat {
    if p.Increment? then 1 else 0
  }

  function Releases(p: PC): nat {
    if p.Release? then 1 else 0
  }

  datatype Tally = Tally(lock: int, locked: int, posts: int, sleeps: int, increments: int, releases: int)

  ghost function Count(pcs: seq<PC>): Tally {
    Tally(Sum(pcs, HoldsLock), Sum(pcs, ArrivedLocked), Sum(pcs, Posts), Sum(pcs, Sleeps),
          Sum(pcs, Increments), Sum(pcs, Releases))
  }

  /** Threads that have counted down and not up again. */
  ghost function Inside(c: Tally): int {
    c.locked + c.posts + c.sleeps + c.increments
  }

  ghost predicate TallyOk(n: int, m: Shared, c: Tally) {
    && n > 0 && m.current >= 0
    && m.lock + c.lock + (if m.proxy then 1 else 0) == 1
    && m.current + Inside(c) == n
    && c.locked >= 0 && c.posts >= 0 && c.sleeps >= 0 && c.increments >= 0 && c.releases >= 0
    && (!m.proxy ==> c.posts == c.increments == c.releases == 0 && m.sem == 0)
    && (m.proxy ==>
          && c.locked == 0
          && (if c.posts > 0 then c.posts == 1 && c.increments == 0 && m.sem == 0 && m.current == 0
              else m.sem == c.sleeps)
          && c.releases == if m.current == n then 1 else 0)
    && m.arrived == (if m.proxy then n else n - m.current)
    && m.left == (if m.proxy then m.current else 0)
    && m.serials == m.round
  }

  ghost predicate PcOk(n: int, m: Shared, p: PC) {
    && (!p.Idle? && !p.Lock? ==> p.k == m.round)
    && (p.Read? ==> m.current > 0)
    && (p.Write? ==> p.seen == m.current > 0)
    && (p.Test? ==> p.result == m.current)
    && (p.Transfer? ==> m.current == 0)
    && (p.Unlock? ==> m.current > 0)
    && (p.Sleep? && !m.proxy ==> m.current < n)
  }

  /** While the lock is free a thread has yet to arrive. */
  ghost predicate Inv(s: State) {
    && TallyOk(s.n, s.m, Count(s.pcs))
    && (s.m.lock > 0 ==> s.m.current > 0)
    && forall t :: 0 <= t < |s.pcs| ==> PcOk(s.n, s.m, s.pcs[t])
  }

  ghost predicate Shifted(c: Tally, p: PC, q: PC, c': Tally) {
    && c'.lock == c.lock - HoldsLock(p) + HoldsLock(q)
    && c'.locked == c.locked - ArrivedLocked(p) + ArrivedLocked(q)
    && c'.posts == c.posts - Posts(p) + Posts(q)
    && c'.sleeps == c.sleeps - Sleeps(p) + Sleeps(q)
    && c'.increments == c.increments - Increments(p) + Increments(q)
    && c'.releases == c.releases - Releases(p) + Releases(q)
  }

  /** A thread at `p` is one of those counted; others that arrived locked hold the lock. */
  ghost predicate Includes(c: Tally, p: PC) {
    && 0 <= c.locked - ArrivedLocked(p) <= c.lock - HoldsLock(p)
    && Posts(p) <= c.posts && Sleeps(p) <= c.sleeps && Increments(p) <= c.increments && Releases(p) <= c.releases
  }

  lemma CountMoves(pcs: seq<PC>, t: nat, q: PC)
    requires t < |pcs|
    ensures Shifted(Count(pcs), pcs[t], q, Count(pcs[t := q]))
  {
    SumUpdate(pcs, HoldsLock, t, q);
    SumUpdate(pcs, ArrivedLocked, t, q);
    SumUpdate(pcs, Posts, t, q);
    SumUpdate(pcs, Sleeps, t, q);
    SumUpdate(pcs, Increments, t, q);
    SumUpdate(pcs, Releases, t, q);
  }

  lemma CountIncludes(pcs: seq<PC>, t: nat)
    requires t < |pcs|
    ensures Includes(Count(pcs), pcs[t])
  {
    CountMoves(pcs, t, Idle);
    SumMonotone(pcs[t := Idle], ArrivedLocked, HoldsLock);
  }

  lemma MoveKeepsTally(n: int, m: Shared, p: PC, m': Shared, q: PC, c: Tally, c': Tally)
    requires n > 0 && Move(n, m, p, m', q) && PcOk(n, m, p) && (m.lock > 0 ==> m.current > 0)
    requires TallyOk(n, m, c) && Includes(c, p) && Shifted(c, p, q, c')
    ensures TallyOk(n, m', c') && PcOk(n, m', q) && (m'.lock > 0 ==> m'.current > 0)
  {
  }

  lemma MoveKeepsOthersOk(n: int, m: Shared, p: PC, m': Shared, q: PC, other: PC, c: Tally)
    requires n > 0 && Move(n, m, p, m', q) && PcOk(n, m, p) && PcOk(n, m, other)
    requires TallyOk(n, m, c) && Includes(c, p) && Includes(c, other)
    requires HoldsLock(p) + HoldsLock(other) <= 1
    requires Releases(p) + Releases(other) <= c.releases
    ensures PcOk(n, m', other)
  {
  }

  lemma StepKeepsInv(s: State, t: nat, s': State)
    requires t < |s.pcs| && Inv(s) && Step(s, t, s')
    ensures Inv(s')
  {
    var p, q := s.pcs[t], s'.pcs[t];
    var c := Count(s.pcs);
    CountMoves(s.pcs, t, q);
    CountIncludes(s.pcs, t);
    MoveKeepsTally(s.n, s.m, p, s'.m, q, c, Count(s'.pcs));
    forall u | 0 <= u < |s.pcs| ensures PcOk(s.n, s'.m, s'.pcs[u]) {
      if u != t {
        CountIncludes(s.pcs, u);
        SumAtLeastTwo(s.pcs, HoldsLock, t, u);
        SumAtLeastTwo(s.pcs, Releases, t, u);
        MoveKeepsOthersOk(s.n, s.m, p, s'.m, q, s.pcs[u], c);
      }
    }
  }

  lemma NobodyCounts(pcs: seq<PC>)
    requires forall t :: 0 <= t < |pcs| ==> pcs[t] == Idle
    ensures Count(pcs) == Tally(0, 0, 0, 0, 0, 0)
  {
    SumZero(pcs, HoldsLock);
    SumZero(pcs, ArrivedLocked);
    SumZero(pcs, Posts);
    SumZero(pcs, Sleeps);
    SumZero(pcs, Increments);
    SumZero(pcs, Releases);
  }

  lemma FreshTallyOk(n: int, m: Shared, c: Tally)
    requires n > 0 && m == Shared(n, 1, false, 0, 0, 0, 0, 0, 0, 0) && c == Tally(0, 0, 0, 0, 0, 0)
    ensures TallyOk(n, m, c)
  {
  }

  lemma InitTallyOk(s: State)
    requires Init(s)
    ensures TallyOk(s.n, s.m, Count(s.pcs))
  {
    NobodyCounts(s.pcs);
    FreshTallyOk(s.n, s.m, Count(s.pcs));
  }

  lemma InitIsInv(s: State)
    requires Init(s)
    ensures Inv(s)
  {
    InitTallyOk(s);
  }

  lemma NextKeepsInv(s: State, s': State)
    requires Inv(s) && Next(s, s')
    ensures Inv(s')
  {
    var t: nat :| t < |s.pcs| && Step(s, t, s');
    StepKeepsInv(s, t, s');
  }

  /** The invariant holds at the start of every run, and every step keeps it, for any number of threads. */
  lemma InvIsInductive()
    ensures Runs.Starts(Init, Inv) && Runs.Keeps(Next, Inv)
  {
    forall s | Init(s) ensures Inv(s) {
      InitIsInv(s);
    }
    forall s, s' | Inv(s) && Next(s, s') ensures Inv(s') {
      NextKeepsInv(s, s');
    }
  }

  lemma ReachableIsInv(s: State)
    requires Reachable(s)
    ensures Inv(s)
  {
    InvIsInductive();
    Runs.ReachableKeeps(Init, Next, Inv, s);
  }

  // ---------------------------------------------------------------------------------------
  // What a barrier promises
  // ---------------------------------------------------------------------------------------

  lemma ThreadOk(s: State, t: nat)
    requires Reachable(s) && t < |s.pcs|
    ensures TallyOk(s.n, s.m, Count(s.pcs)) && PcOk(s.n, s.m, s.pcs[t]) && Includes(Count(s.pcs), s.pcs[t])
    ensures Count(s.pcs).locked <= Count(s.pcs).lock && HoldsLock(s.pcs[t]) <= Count(s.pcs).lock
  {
    ReachableIsInv(s);
    CountIncludes(s.pcs, t);
    SumAtLeast(s.pcs, HoldsLock, t);
    SumMonotone(s.pcs, ArrivedLocked, HoldsLock);
  }

  /** Rounds never mix: a thread inside takes part in the current round; nobody leaves before as
      many as the height have arrived, and nobody arrives before that many have left. */
  lemma RoundsNeverMix(s: State, t: nat)
    requires Reachable(s) && t < |s.pcs|
    ensures !s.pcs[t].Idle? && !s.pcs[t].Lock? ==> s.pcs[t].k == s.m.round
    ensures 0 <= s.m.left <= s.m.arrived <= s.n
    ensures s.m.left > 0 ==> s.m.arrived == s.n
    ensures s.pcs[t].Write? ==> s.m.left == 0 && s.m.arrived < s.n
    ensures s.pcs[t].Increment? ==> s.m.arrived == s.n && s.m.left < s.n
    ensures s.pcs[t].Release? ==> s.m.left == s.m.arrived == s.n
  {
    ThreadOk(s, t);
    TallyBoundsRound(s.n, s.m, Count(s.pcs), s.pcs[t]);
  }

  /** Every round so far had as many arrivals and departures as the barrier is high. */
  ghost predicate TotalsOk(n: int, m: Shared) {
    m.arrivals == n * m.round + m.arrived && m.departures == n * m.round + m.left
  }

  lemma MoveShiftsTotals(n: int, m: Shared, p: PC, m': Shared, q: PC, total: int)
    requires n > 0 && Move(n, m, p, m', q) && (p.Release? ==> m.arrived == m.left == n)
    requires m.arrivals == total + m.arrived && m.departures == total + m.left
    ensures var total' := if m'.round == m.round then total else total + n;
            m'.arrivals == total' + m'.arrived && m'.departures == total' + m'.left
    ensures m'.round == m.round || m'.round == m.round + 1
  {
  }

  lemma MoveKeepsTotals(n: int, m: Shared, p: PC, m': Shared, q: PC)
    requires n > 0 && Move(n, m, p, m', q) && TotalsOk(n, m)
    requires p.Release? ==> m.arrived == m.left == n
    ensures TotalsOk(n, m')
  {
    MoveShiftsTotals(n, m, p, m', q, n * m.round);
    OneMore(n, m.round);
  }

  lemma OneMore(n: int, r: int)
    ensures n * (r + 1) == n * r + n
  {
  }

  lemma ReleaseComesLast(n: int, m: Shared, p: PC, c: Tally)
    requires TallyOk(n, m, c) && Includes(c, p) && p.Release?
    ensures m.arrived == m.left == n
  {
  }

  lemma StepKeepsTotals(s: State, t: nat, s': State)
    requires t < |s.pcs| && Inv(s) && TotalsOk(s.n, s.m) && Step(s, t, s')
    ensures TotalsOk(s'.n, s'.m)
  {
    if s.pcs[t].Release? {
      CountIncludes(s.pcs, t);
      ReleaseComesLast(s.n, s.m, s.pcs[t], Count(s.pcs));
    }
    MoveKeepsTotals(s.n, s.m, s.pcs[t], s'.m, s'.pcs[t]);
  }

  ghost predicate Balanced(s: State) {
    Inv(s) && TotalsOk(s.n, s.m)
  }

  lemma ReachableIsBalanced(s: State)
    requires Reachable(s)
    ensures Balanced(s)
  {
    forall s | Init(s) ensures Balanced(s) {
      InitIsInv(s);
    }
    forall s, s' | Balanced(s) && Next(s, s') ensures Balanced(s') {
      var t: nat :| t < |s.pcs| && Step(s, t, s');
      StepKeepsInv(s, t, s');
      StepKeepsTotals(s, t, s');
    }
    Runs.ReachableKeeps(Init, Next, Balanced, s);
  }

  /** One thread a round is the serial one: of every `n` threads that ever arrived and left, exactly
      one call returned PTHREAD_BARRIER_SERIAL_THREAD, the last one's perhaps still about to. */
  lemma OneSerialThreadARound(s: State)
    requires Reachable(s)
    ensures s.m.arrivals == s.n * s.m.serials + s.m.arrived && 0 <= s.m.arrived <= s.n
    ensures s.m.departures == s.n * s.m.serials + s.m.left && 0 <= s.m.left <= s.m.arrived
    ensures s.m.left == s.n ==> exists t :: 0 <= t < |s.pcs| && s.pcs[t].Release?
  {
    ReachableIsBalanced(s);
    SumMonotone(s.pcs, ArrivedLocked, HoldsLock);
    TotalsBoundRound(s.n, s.m, Count(s.pcs));
    if s.m.left == s.n {
      var t := SumWitness(s.pcs, Releases);
    }
  }

  lemma TotalsBoundRound(n: int, m: Shared, c: Tally)
    requires TallyOk(n, m, c) && c.locked <= c.lock
    ensures 0 <= m.left <= m.arrived <= n && m.serials == m.round
    ensures m.left == n ==> c.releases > 0
  {
  }

  lemma TallyBoundsRound(n: int, m: Shared, c: Tally, p: PC)
    requires TallyOk(n, m, c) && PcOk(n, m, p) && Includes(c, p) && c.locked <= c.lock && HoldsLock(p) <= c.lock
    ensures 0 <= m.left <= m.arrived <= n
    ensures m.left > 0 ==> m.arrived == n
    ensures p.Write? ==> m.left == 0 && m.arrived < n
    ensures p.Increment? ==> m.arrived == n && m.left < n
    ensures p.Release? ==> m.left == m.arrived == n
  {
  }

  /** The plain decrement never overlaps an interlocked increment, nor another decrement. */
  lemma DecrementIsAlone(s: State, t: nat, u: nat)
    requires Reachable(s) && t < |s.pcs| && u < |s.pcs| && t != u && (s.pcs[t].Read? || s.pcs[t].Write?)
    ensures !s.pcs[u].Increment? && !s.pcs[u].Read? && !s.pcs[u].Write?
  {
    ThreadOk(s, t);
    ThreadOk(s, u);
    SumAtLeastTwo(s.pcs, HoldsLock, t, u);
  }

  /** While a thread releases the lock nobody else is counted anywhere. */
  lemma ReleaserEmpties(n: int, m: Shared, c: Tally, other: PC)
    requires TallyOk(n, m, c) && Includes(c, other) && c.locked <= c.lock && HoldsLock(other) <= c.lock
    ensures c.releases > 0 ==> m.proxy && m.lock == 0 && c.releases == 1
    ensures c.releases > 0 ==> other.Idle? || other.Lock? || other.Release?
  {
  }

  /** The lock is released exactly once a round, by one thread, when everybody has left. */
  lemma OneReleaser(s: State, t: nat, u: nat)
    requires Reachable(s) && t < |s.pcs| && s.pcs[t].Release? && u < |s.pcs| && u != t
    ensures s.m.proxy && s.m.lock == 0 && (s.pcs[u].Idle? || s.pcs[u].Lock?)
  {
    ThreadOk(s, u);
    ReleaserEmpties(s.n, s.m, Count(s.pcs), s.pcs[u]);
    SumAtLeastTwo(s.pcs, Releases, t, u);
  }

  /** Which group of threads moves next while the barrier lets its threads out. */
  lemma OpenBarrierHasMovers(n: int, m: Shared, c: Tally)
    requires TallyOk(n, m, c) && m.proxy
    ensures c.releases > 0 || c.posts > 0 || c.increments > 0 || (c.sleeps > 0 && m.sem > 0)
  {
  }

  lemma OpenBarrierMover(s: State) returns (u: nat)
    requires Inv(s) && s.m.proxy
    ensures u < |s.pcs| && Ready(s.m, s.pcs[u])
  {
    var c := Count(s.pcs);
    OpenBarrierHasMovers(s.n, s.m, c);
    if c.releases > 0 {
      u := SumWitness(s.pcs, Releases);
    } else if c.posts > 0 {
      u := SumWitness(s.pcs, Posts);
    } else if c.increments > 0 {
      u := SumWitness(s.pcs, Increments);
    } else {
      u := SumWitness(s.pcs, Sleeps);
    }
  }

  /** A barrier that enough threads have reached lets them all out: while the last arrival's lock
      is in the barrier, or a thread inside is not asleep, some thread can move. */
  lemma BarrierOpens(s: State, t: nat)
    requires Reachable(s) && t < |s.pcs|
    requires s.m.proxy || !(s.pcs[t].Idle? || s.pcs[t].Sleep?)
    ensures exists u :: 0 <= u < |s.pcs| && Ready(s.m, s.pcs[u])
  {
    ReachableIsInv(s);
    var u := t;
    if s.m.proxy {
      u := OpenBarrierMover(s);
    } else if s.pcs[t].Lock? && s.m.lock == 0 {
      u := SumWitness(s.pcs, HoldsLock);
    }
    assert Ready(s.m, s.pcs[u]);
  }

  /** How many steps a thread at `p` can take before its call returns, at most. */
  function Rank(p: PC): nat {
    match p
    case Idle => 0
    case Lock => 8
    case Read(_) => 7
    case Write(_, _) => 6
    case Test(_, _) => 5
    case Transfer(_) => 4
    case Post(_) => 3
    case Unlock(_) => 4
    case Sleep(_) => 3
    case Increment(_) => 2
    case Release(_) => 1
  }

  ghost function Left(s: State): nat {
    Sum(s.pcs, Rank)
  }

  /** A step of a thread that is inside pthread_barrier_wait. */
  ghost predicate Inner(s: State, s': State) {
    exists t: nat :: t < |s.pcs| && s.pcs[t] != Idle && Step(s, t, s')
  }

  lemma MoveUsesRank(n: int, m: Shared, p: PC, m': Shared, q: PC)
    requires n > 0 && Move(n, m, p, m', q) && p != Idle
    ensures Rank(q) < Rank(p)
  {
  }

  lemma InnerDescends(s: State, s': State)
    requires Reachable(s) && Inner(s, s')
    ensures Reachable(s') && Left(s') < Left(s)
  {
    var t: nat :| t < |s.pcs| && s.pcs[t] != Idle && Step(s, t, s');
    Runs.ReachesOn(Init, Next, s, s');
    MoveUsesRank(s.n, s.m, s.pcs[t], s'.m, s'.pcs[t]);
    SumUpdate(s.pcs, Rank, t, s'.pcs[t]);
  }

  ghost predicate NobodyReady(s: State) {
    forall t :: 0 <= t < |s.pcs| ==> !Ready(s.m, s.pcs[t])
  }

  /** Nobody is inside but threads that wait for the barrier's height to be reached. */
  ghost predicate AtRest(s: State) {
    && (forall t :: 0 <= t < |s.pcs| ==> s.pcs[t].Idle? || s.pcs[t].Sleep?)
    && !s.m.proxy && s.m.lock == 1 && s.m.sem == 0
    && Sum(s.pcs, Sleeps) == s.m.arrived < s.n
  }

  lemma NobodyInRest(pcs: seq<PC>)
    requires forall t :: 0 <= t < |pcs| ==> pcs[t].Idle? || pcs[t].Sleep?
    ensures Sum(pcs, HoldsLock) == Sum(pcs, ArrivedLocked) == Sum(pcs, Posts) == Sum(pcs, Increments) == 0
  {
    SumZero(pcs, HoldsLock);
    SumZero(pcs, ArrivedLocked);
    SumZero(pcs, Posts);
    SumZero(pcs, Increments);
  }

  lemma RestingTally(n: int, m: Shared, c: Tally)
    requires TallyOk(n, m, c) && !m.proxy && (m.lock > 0 ==> m.current > 0)
    requires c.lock == c.locked == c.posts == c.increments == 0
    ensures m.lock == 1 && m.sem == 0 && c.sleeps == m.arrived < n
  {
  }

  lemma NothingReady(s: State)
    requires Reachable(s) && NobodyReady(s)
    ensures AtRest(s)
  {
    ReachableIsInv(s);
    if s.m.proxy {
      var u := OpenBarrierMover(s);
    }
    if s.m.lock == 0 {
      var u := SumWitness(s.pcs, HoldsLock);
    }
    NobodyInRest(s.pcs);
    RestingTally(s.n, s.m, Count(s.pcs));
  }

  lemma InnerIsDescent()
    ensures Runs.Keeps(Inner, Reachable) && Runs.Descends(Inner, Reachable, Left)
  {
    forall s, s' | Reachable(s) && Inner(s, s') ensures Reachable(s') && Left(s') < Left(s) {
      InnerDescends(s, s');
    }
  }

  /** Unless new calls are made every run comes to an end, after at most 8 steps a thread, and at its end
      nobody is inside but the threads that wait for more to arrive. */
  lemma CallsEnd(run: seq<State>)
    requires Runs.IsChain(Inner, run) && Reachable(run[0])
    ensures |run| <= 8 * |run[0].pcs| + 1
    ensures var s := run[|run| - 1]; NobodyReady(s) ==> AtRest(s)
  {
    InnerIsDescent();
    Runs.ChainIsShort(Inner, Reachable, Left, run, |run| - 1);
    SumAtMost(run[0].pcs, Rank, 8);
    var s := run[|run| - 1];
    if NobodyReady(s) {
      NothingReady(s);
    }
  }
}
