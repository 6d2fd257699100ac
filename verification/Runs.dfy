/** Runs of a state machine.

A protocol is given by its initial states and by the relation of a state to the states that one
atomic step leads to.  A run is a chain of steps from an initial state; what holds at its start
and is kept by every step holds throughout, and a run whose steps all use up some measure is no
longer than the measure at its start.
*/
module Runs {

  ghost predicate NextAt<S(!new)>(next: (S, S) -> bool, run: seq<S>, i: nat)
    requires i < |run| - 1
  {
    next(run[i], run[i + 1])
  }

  ghost predicate IsChain<S(!new)>(next: (S, S) -> bool, run: seq<S>) {
    run != [] && forall i :: 0 <= i < |run| - 1 ==> NextAt(next, run, i)
  }

  ghost predicate IsRun<S(!new)>(init: S -> bool, next: (S, S) -> bool, run: seq<S>) {
    IsChain(next, run) && init(run[0])
  }

  ghost predicate Reachable<S(!new)>(init: S -> bool, next: (S, S) -> bool, s: S) {
    exists run :: IsRun(init, next, run) && run[|run| - 1] == s
  }

  ghost predicate Starts<S(!new)>(init: S -> bool, inv: S -> bool) {
    forall s :: init(s) ==> inv(s)
  }

  ghost predicate Keeps<S(!new)>(next: (S, S) -> bool, inv: S -> bool) {
    forall s, s' :: inv(s) && next(s, s') ==> inv(s')
  }

  /** What every step keeps holds in every state of a chain if it holds in the first. */
  lemma {:induction false} ChainKeeps<S(!new)>(next: (S, S) -> bool, inv: S -> bool, run: seq<S>, i: nat)
    requires IsChain(next, run) && Keeps(next, inv) && inv(run[0]) && i < |run|
    ensures inv(run[i])
  {
    if i > 0 {
      ChainKeeps(next, inv, run, i - 1);
      assert NextAt(next, run, i - 1);
    }
  }

  /** An invariant holds in every reachable state. */
  lemma ReachableKeeps<S(!new)>(init: S -> bool, next: (S, S) -> bool, inv: S -> bool, s: S)
    requires Starts(init, inv) && Keeps(next, inv) && Reachable(init, next, s)
    ensures inv(s)
  {
    var run :| IsRun(init, next, run) && run[|run| - 1] == s;
    ChainKeeps(next, inv, run, |run| - 1);
  }

  /** Every state of a run is reachable. */
  lemma RunReaches<S(!new)>(init: S -> bool, next: (S, S) -> bool, run: seq<S>, i: nat)
    requires IsRun(init, next, run) && i < |run|
    ensures Reachable(init, next, run[i])
  {
    var shorter := run[..i + 1];
    forall j | 0 <= j < |shorter| - 1 ensures NextAt(next, shorter, j) {
      assert NextAt(next, run, j);
    }
    assert shorter[|shorter| - 1] == run[i];
  }

  /** A run can be continued by any step. */
  lemma ReachesOn<S(!new)>(init: S -> bool, next: (S, S) -> bool, s: S, s': S)
    requires Reachable(init, next, s) && next(s, s')
    ensures Reachable(init, next, s')
  {
    var run :| IsRun(init, next, run) && run[|run| - 1] == s;
    var longer := run + [s'];
    forall i | 0 <= i < |longer| - 1 ensures NextAt(next, longer, i) {
      assert i < |run| - 1 ==> NextAt(next, run, i);
    }
    assert longer[|longer| - 1] == s';
  }

  lemma StartIsReachable<S(!new)>(init: S -> bool, next: (S, S) -> bool, s: S)
    requires init(s)
    ensures Reachable(init, next, s)
  {
    assert IsRun(init, next, [s]) && [s][|[s]| - 1] == s;
  }

  /** Where `inv` holds every step uses up some of what is `left`. */
  ghost predicate Descends<S(!new)>(next: (S, S) -> bool, inv: S -> bool, left: S -> nat) {
    forall s, s' :: inv(s) && next(s, s') ==> left(s') < left(s)
  }

  /** A chain of such steps is no longer than what is left at its start. */
  lemma {:induction false} ChainIsShort<S(!new)>(
      next: (S, S) -> bool, inv: S -> bool, left: S -> nat, run: seq<S>, i: nat)
    requires IsChain(next, run) && inv(run[0]) && i < |run|
    requires Keeps(next, inv) && Descends(next, inv, left)
    ensures inv(run[i]) && i + left(run[i]) <= left(run[0])
  {
    if i > 0 {
      ChainIsShort(next, inv, left, run, i - 1);
      assert NextAt(next, run, i - 1);
    }
  }
}
