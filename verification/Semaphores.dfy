/** POSIX semaphores over a Win32 semaphore.

`value` counts down past zero: a negative value is the number of waiters, and the Win32
semaphore, `units`, holds the wakeups that were posted for them and not yet taken.  The
functions are the bodies of the critical sections under the semaphore's lock; class
`Semaphore` executes those bodies in place.
*/
module Semaphores {
  import opened CInts
  import opened ThreadCounts
  import Runs

  const SEM_VALUE_MAX := INT_MAX

  datatype Sem = Sem(value: int, units: nat)

  /** What a call returns: success, or the error it leaves in errno. */
  datatype Result = Ok | EAGAIN | EINVAL | ERANGE | ETIMEDOUT

  /** ReleaseSemaphore on a Win32 semaphore of maximum SEM_VALUE_MAX. */
  predicate CanRelease(units: nat, n: int) {
    0 < n && units + n <= SEM_VALUE_MAX
  }

  function PostMany(s: Sem, count: Int32): (Sem, Result) {
    if s.value <= Wrap(SEM_VALUE_MAX - count) then
      var waiters := -s.value;
      var n := if waiters <= count then waiters else count;
      if waiters <= 0 then (s.(value := Wrap(s.value + count)), Ok)
      else if CanRelease(s.units, n) then (Sem(Wrap(s.value + count), s.units + n), Ok)
      else (s.(value := Wrap(Wrap(s.value + count) - count)), EINVAL)
    else (s, ERANGE)
  }

  function Post(s: Sem): (Sem, Result) {
    if s.value < SEM_VALUE_MAX then
      if s.value + 1 <= 0 then
        if CanRelease(s.units, 1) then (Sem(s.value + 1, s.units + 1), Ok) else (s, EINVAL)
      else (s.(value := s.value + 1), Ok)
    else (s, ERANGE)
  }

  function TryWait(s: Sem): (Sem, Result) {
    if s.value > 0 then (s.(value := s.value - 1), Ok) else (s, EAGAIN)
  }

  /** A waiter that timed out tries once more before it withdraws. */
  function Withdraw(s: Sem): (Sem, Result) {
    if s.units > 0 then (s.(units := s.units - 1), Ok) else (s.(value := s.value + 1), ETIMEDOUT)
  }

  function Max(a: int, b: int): int {
    if a < b then b else a
  }

  /** The value of the counting semaphore that the pair implements. */
  function Available(s: Sem): int {
    Max(0, s.value) + s.units
  }

  /** The threads that the pair has still to let through, or has a wakeup for. */
  function Pending(s: Sem): int {
    Max(0, -s.value) + s.units
  }

  lemma WithdrawTells(s: Sem)
    ensures Pending(s) > 0 ==> Pending(Withdraw(s).0) == Pending(s) - 1
    ensures Withdraw(s).1 == Ok ==> Available(Withdraw(s).0) == Available(s) - 1
    ensures Withdraw(s).1 != Ok && Pending(s) > 0 ==>
              Withdraw(s).1 == ETIMEDOUT && s.units == 0 && Available(Withdraw(s).0) == Available(s)
  {
  }

  class Semaphore {
    var value: int
    var units: nat

    function View(): Sem
      reads this
    {
      Sem(value, units)
    }

    /** ReleaseSemaphore. */
    method Release(n: int) returns (ok: bool)
      modifies this`units
      ensures ok == CanRelease(old(units), n)
      ensures units == if ok then old(units) + n else old(units)
    {
      ok := CanRelease(units, n);
      if ok {
        units := units + n;
      }
    }

    /** The first half of sem_wait, sem_timedwait and __ptw32_semwait: it takes a unit that is
        available without waiting, or else makes the caller one of those to be let through. */
    method Enter() returns (mustWait: bool)
      modifies this
      ensures View() == old(View()).(value := old(value) - 1)
      ensures mustWait <==> Available(old(View())) == old(units)
      ensures mustWait ==> Available(View()) == Available(old(View())) && Pending(View()) == Pending(old(View())) + 1
      ensures !mustWait ==> Available(View()) == Available(old(View())) - 1 && Pending(View()) == Pending(old(View()))
    {
      value := value - 1;
      mustWait := value < 0;
    }

    /** It takes a unit unless all that there are have been posted for others, and never waits. */
    method SemTryWait() returns (result: Result)
      modifies this
      ensures (View(), result) == TryWait(old(View()))
      ensures Pending(View()) == Pending(old(View()))
      ensures Available(old(View())) > old(units) ==> result == Ok && Available(View()) == Available(old(View())) - 1
      ensures Available(old(View())) == old(units) ==> result == EAGAIN && View() == old(View())
    {
      result := Ok;
      if value > 0 {
        value := value - 1;
      } else {
        result := EAGAIN;
      }
    }

    method SemPost() returns (result: Result)
      modifies this
      ensures (View(), result) == Post(old(View()))
    {
      result := Ok;
      if value < SEM_VALUE_MAX {
        value := value + 1;
        if value <= 0 {
          var ok := Release(1);
          if !ok {
            value := value - 1;
            result := EINVAL;
          }
        }
      } else {
        result := ERANGE;
      }
    }

    method SemPostMultiple(count: Int32) returns (result: Result)
      modifies this
      ensures (View(), result) == PostMany(old(View()), count)
    {
      result := Ok;
      if value <= Wrap(SEM_VALUE_MAX - count) {
        var waiters := -value;
        value := Wrap(value + count);
        if waiters > 0 {
          var ok := Release(if waiters <= count then waiters else count);
          if !ok {
            value := Wrap(value - count);
            result := EINVAL;
          }
        }
      } else {
        result := ERANGE;
      }
    }

    /** The cleanup of a sem_timedwait that timed out: the caller is no longer to be let through,
        and it took a unit if and only if it reports success. */
    method Cleanup() returns (result: Result)
      modifies this
      ensures (View(), result) == Withdraw(old(View()))
      ensures Pending(old(View())) > 0 ==> Pending(View()) == Pending(old(View())) - 1
      ensures result == Ok ==> Available(View()) == Available(old(View())) - 1
      ensures result != Ok && Pending(old(View())) > 0 ==>
                result == ETIMEDOUT && old(units) == 0 && Available(View()) == Available(old(View()))
    {
      WithdrawTells(View());
      if units > 0 {
        units := units - 1;
        result := Ok;
      } else {
        value := value + 1;
        result := ETIMEDOUT;
      }
    }
  }

  // ---------------------------------------------------------------------------------------
  // Any number of threads
  // ---------------------------------------------------------------------------------------

  datatype PC =
    | Idle
    | Blocked(timed: bool)   // waits for a unit of the Win32 semaphore
    | Expired                // timed out; about to run the cleanup

  /** `posted` and `taken` are history: units posted and units handed to callers so far. */
  datatype Shared = Shared(s: Sem, posted: int, taken: int)

  datatype State = State(initial: int, m: Shared, pcs: seq<PC>)

  function Grant(m: Shared, s: Sem): Shared {
    Shared(s, m.posted, m.taken + 1)
  }

  /** One atomic step of a thread, and what its call returns if it returns. */
  datatype Label =
    | WaitReturns | WaitBlocks(timed: bool) | Wakes | TimesOut | Cleans(r: Result)
    | Tries(r: Result) | Posts(r: Result) | PostsMany(count: Int32, r: Result)

  ghost predicate Move(m: Shared, p: PC, a: Label, m': Shared, q: PC) {
    var entered := m.s.(value := m.s.value - 1);
    match a
    case WaitReturns => p == Idle && entered.value >= 0 && m' == Grant(m, entered) && q == Idle
    case WaitBlocks(timed) => p == Idle && entered.value < 0 && m' == m.(s := entered) && q == Blocked(timed)
    case Wakes => p.Blocked? && m.s.units > 0 && m' == Grant(m, m.s.(units := m.s.units - 1)) && q == Idle
    case TimesOut => p == Blocked(true) && m' == m && q == Expired
    case Cleans(r) =>
      && p == Expired && q == Idle && r == Withdraw(m.s).1
      && m' == if r == Ok then Grant(m, Withdraw(m.s).0) else m.(s := Withdraw(m.s).0)
    case Tries(r) =>
      && p == Idle && q == Idle && r == TryWait(m.s).1
      && m' == if r == Ok then Grant(m, TryWait(m.s).0) else m.(s := TryWait(m.s).0)
    case Posts(r) =>
      && p == Idle && q == Idle && r == Post(m.s).1
      && m' == m.(s := Post(m.s).0, posted := m.posted + if r == Ok then 1 else 0)
    case PostsMany(count, r) =>
      && p == Idle && q == Idle && r == PostMany(m.s, count).1
      && m' == m.(s := PostMany(m.s, count).0, posted := m.posted + if r == Ok then count else 0)
  }

  ghost predicate Step(s: State, t: nat, a: Label, s': State)
    requires t < |s.pcs|
  {
    && |s'.pcs| == |s.pcs| && s'.initial == s.initial
    && s'.pcs == s.pcs[t := s'.pcs[t]]
    && Move(s.m, s.pcs[t], a, s'.m, s'.pcs[t])
  }

  /** Started by sem_init; there are never more threads than a Win32 semaphore can count. */
  ghost predicate Init(s: State) {
    && 0 <= s.initial <= SEM_VALUE_MAX && |s.pcs| <= SEM_VALUE_MAX
    && s.m == Shared(Sem(s.initial, 0), 0, 0)
    && forall t :: 0 <= t < |s.pcs| ==> s.pcs[t] == Idle
  }

  ghost predicate Next(s: State, s': State) {
    exists t: nat, a :: t < |s.pcs| && Step(s, t, a, s')
  }

  ghost predicate Reachable(s: State) {
    Runs.Reachable(Init, Next, s)
  }

  /** Threads that decremented the value below zero and have not finished. */
  function Waits(p: PC): nat {
    if p == Idle then 0 else 1
  }

  ghost predicate CountsOk(initial: int, m: Shared, waiting: int, threads: int) {
    && Pending(m.s) == waiting
    && waiting <= threads <= SEM_VALUE_MAX
    && m.s.value <= SEM_VALUE_MAX
    && Available(m.s) == initial + m.posted - m.taken
  }

  ghost predicate Inv(s: State) {
    CountsOk(s.initial, s.m, Sum(s.pcs, Waits), |s.pcs|)
  }

  /** A post of any number finds room for its wakeups. */
  lemma WakeupsFit(m: Shared, waiting: int, threads: int, initial: int, n: int)
    requires CountsOk(initial, m, waiting, threads) && 0 < n <= -m.s.value
    ensures CanRelease(m.s.units, n)
  {
  }

  /** sem_post_multiple in one formula: what it posts, and when it fails with which error. */
  lemma PostManyIsExact(s: Sem, count: Int32)
    requires -SEM_VALUE_MAX <= s.value <= SEM_VALUE_MAX && Pending(s) <= SEM_VALUE_MAX
    ensures PostMany(s, count).1 == Ok <==> (if count == 0 then s.value >= 0
                                             else count > 0 && s.value + count <= SEM_VALUE_MAX)
    ensures PostMany(s, count).1 == EINVAL <==>
            count <= 0 && s.value < 0 && (count == 0 || s.value <= -0x8000_0001 - count)
    ensures PostMany(s, count).1 in {Ok, EINVAL, ERANGE}
    ensures PostMany(s, count).0 ==
            if PostMany(s, count).1 != Ok then s
            else Sem(s.value + count, s.units + Max(0, if -s.value <= count then -s.value else count))
    ensures PostMany(s, count).1 == Ok ==> Available(PostMany(s, count).0) == Available(s) + count
  {
  }

  /** A count of zero or less is documented to give EINVAL.  That is so exactly if there are
      waiters, and the count is zero or so low that the comparison with SEM_VALUE_MAX wraps past
      their number; a positive count never gives it. */
  lemma EinvalIsAsDocumentedWhen(s: Sem, count: Int32)
    requires -SEM_VALUE_MAX <= s.value <= SEM_VALUE_MAX && Pending(s) <= SEM_VALUE_MAX
    ensures (PostMany(s, count).1 == EINVAL <==> count <= 0) <==>
            count > 0 || (s.value < 0 && (count == 0 || s.value <= -0x8000_0001 - count))
  {
    PostManyIsExact(s, count);
  }

  /** The documentation fails: zero succeeds, and a negative count is said to be too large. */
  lemma EinvalIsNotAsDocumented()
    ensures PostMany(Sem(5, 0), 0).1 == Ok && PostMany(Sem(5, 0), -1).1 == ERANGE
  {
  }

  lemma MoveKeepsCounts(initial: int, m: Shared, p: PC, a: Label, m': Shared, q: PC, waiting: int, threads: int)
    requires Move(m, p, a, m', q) && CountsOk(initial, m, waiting, threads)
    requires Waits(p) <= waiting && waiting - Waits(p) + Waits(q) <= threads
    ensures CountsOk(initial, m', waiting - Waits(p) + Waits(q), threads)
  {
    if a.PostsMany? {
      PostManyIsExact(m.s, a.count);
    }
  }

  lemma StepKeepsInv(s: State, t: nat, a: Label, s': State)
    requires t < |s.pcs| && Inv(s) && Step(s, t, a, s')
    ensures Inv(s')
  {
    var p, q := s.pcs[t], s'.pcs[t];
    var waiting, waiting' := Sum(s.pcs, Waits), Sum(s'.pcs, Waits);
    assert waiting' == waiting - Waits(p) + Waits(q) && Waits(p) <= waiting && waiting' <= |s.pcs| by {
      SumUpdate(s.pcs, Waits, t, q);
      SumAtLeast(s.pcs, Waits, t);
      SumBounded(s'.pcs, Waits);
    }
    MoveKeepsCounts(s.initial, s.m, p, a, s'.m, q, waiting, |s.pcs|);
  }

  lemma InitIsInv(s: State)
    requires Init(s)
    ensures Inv(s)
  {
    SumZero(s.pcs, Waits);
  }

  lemma NextKeepsInv(s: State, s': State)
    requires Inv(s) && Next(s, s')
    ensures Inv(s')
  {
    var t: nat, a :| t < |s.pcs| && Step(s, t, a, s');
    StepKeepsInv(s, t, a, s');
  }

  /** The invariant holds at the start of every run, and every step keeps it, for any number of threads. */
  lemma InvIsInductive()
    ensures Runs.Starts(Init, Inv) && Runs.Keeps(Next, Inv)
  {
    forall s | Init(s) ensures Inv(s) {
      InitIsInv(s);
    }
    forall s, s' | Inv(s) && Next(s, s') ensures Inv(s') {
      NextKeepsInv(s, s');
    }
  }

  lemma ReachableIsInv(s: State)
    requires Reachable(s)
    ensures Inv(s)
  {
    InvIsInductive();
    Runs.ReachableKeeps(Init, Next, Inv, s);
  }

  // ---------------------------------------------------------------------------------------
  // What a semaphore promises
  // ---------------------------------------------------------------------------------------

  /** Waiters and units balance in every reachable state, and no unit is created or lost. */
  lemma UnitsAreConserved(s: State)
    requires Reachable(s)
    ensures Pending(s.m.s) == Sum(s.pcs, Waits)
    ensures Available(s.m.s) == s.initial + s.m.posted - s.m.taken
    ensures s.m.s.value <= SEM_VALUE_MAX
  {
    ReachableIsInv(s);
  }

  /** What a counting semaphore does at a step: it takes one available unit, adds the posted ones, or
      leaves their number alone; and which of these it is, and with which error, the label tells. */
  ghost predicate Counts(m: Shared, a: Label, m': Shared) {
    match a
    case WaitReturns | Wakes => Available(m.s) > 0 && Available(m'.s) == Available(m.s) - 1
    case WaitBlocks(_) | TimesOut => Available(m'.s) == Available(m.s)
    case Cleans(r) =>
      if r == Ok then Available(m.s) > 0 && Available(m'.s) == Available(m.s) - 1
      else r == ETIMEDOUT && Available(m'.s) == Available(m.s) == 0
    case Tries(r) =>
      if r == Ok then Available(m.s) > 0 && Available(m'.s) == Available(m.s) - 1
      else r == EAGAIN && Available(m'.s) == Available(m.s) == m.s.units
    case Posts(r) =>
      if r == Ok then Available(m'.s) == Available(m.s) + 1
      else r == ERANGE && m' == m && m.s.value == SEM_VALUE_MAX
    case PostsMany(count, r) =>
      if r == Ok then count >= 0 && Available(m'.s) == Available(m.s) + count
      else
        && m' == m && (count <= 0 || m.s.value + count > SEM_VALUE_MAX)
        && r == if count <= 0 && m.s.value < 0 && (count == 0 || m.s.value <= -0x8000_0001 - count)
                then EINVAL else ERANGE
  }

  lemma PostingManyCounts(m: Shared, p: PC, a: Label, m': Shared, q: PC, initial: int, waiting: int, threads: int)
    requires Move(m, p, a, m', q) && CountsOk(initial, m, waiting, threads) && a.PostsMany?
    ensures Counts(m, a, m')
  {
    PostManyIsExact(m.s, a.count);
  }

  lemma PostingCounts(m: Shared, p: PC, a: Label, m': Shared, q: PC, initial: int, waiting: int, threads: int)
    requires Move(m, p, a, m', q) && CountsOk(initial, m, waiting, threads) && a.Posts?
    ensures Counts(m, a, m')
  {
  }

  lemma WaitingCounts(m: Shared, p: PC, a: Label, m': Shared, q: PC, initial: int, waiting: int, threads: int)
    requires Move(m, p, a, m', q) && CountsOk(initial, m, waiting, threads) && Waits(p) <= waiting
    requires !a.PostsMany? && !a.Posts?
    ensures Counts(m, a, m')
  {
  }

  /** The pair refines a counting semaphore. */
  lemma RefinesCountingSemaphore(s: State, t: nat, a: Label, s': State)
    requires Reachable(s) && t < |s.pcs| && Step(s, t, a, s')
    ensures Counts(s.m, a, s'.m)
  {
    ReachableIsInv(s);
    var p, q, waiting := s.pcs[t], s'.pcs[t], Sum(s.pcs, Waits);
    if a.PostsMany? {
      PostingManyCounts(s.m, p, a, s'.m, q, s.initial, waiting, |s.pcs|);
    } else if a.Posts? {
      PostingCounts(s.m, p, a, s'.m, q, s.initial, waiting, |s.pcs|);
    } else {
      SumAtLeast(s.pcs, Waits, t);
      WaitingCounts(s.m, p, a, s'.m, q, s.initial, waiting, |s.pcs|);
    }
  }

  /** A blocked thread can go on whenever a unit is available. */
  lemma BlockedWaitsForUnitsOnly(s: State, t: nat)
    requires Reachable(s) && t < |s.pcs| && s.pcs[t].Blocked?
    ensures s.m.s.units > 0 <==> Available(s.m.s) > 0
    ensures s.m.s.units > 0 <==> exists s' :: Step(s, t, Wakes, s')
  {
    ReachableIsInv(s);
    SumAtLeast(s.pcs, Waits, t);
    if s.m.s.units > 0 {
      var m' := Grant(s.m, s.m.s.(units := s.m.s.units - 1));
      assert Step(s, t, Wakes, s.(m := m', pcs := s.pcs[t := Idle]));
    }
  }
}
