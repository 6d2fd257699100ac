/** Counting over the program counters of any number of threads.

A protocol state holds one program counter per thread, `pcs: seq<P>`.  Its invariants
speak of weighted counts `Sum(pcs, w)`, where `w` says what a thread at a given program
counter contributes: 1 when it is a member of some group, or the number of semaphore
units it still has to post.
*/
module ThreadCounts {

  ghost function Sum<P>(pcs: seq<P>, w: P -> nat): nat {
    if pcs == [] then 0 else Sum(pcs[..|pcs| - 1], w) + w(pcs[|pcs| - 1])
  }

  /** One thread moving changes a count by exactly what that thread contributes. */
  lemma {:induction false} SumUpdate<P>(pcs: seq<P>, w: P -> nat, t: nat, p: P)
    requires t < |pcs|
    ensures Sum(pcs[t := p], w) == Sum(pcs, w) - w(pcs[t]) + w(p)
  {
    var n := |pcs| - 1;
    var after := pcs[t := p];
    if t == n {
      assert after[..n] == pcs[..n];
    } else {
      assert after[..n] == pcs[..n][t := p];
      SumUpdate(pcs[..n], w, t, p);
    }
  }

  /** A thread's own contribution is part of the count. */
  lemma {:induction false} SumAtLeast<P>(pcs: seq<P>, w: P -> nat, t: nat)
    requires t < |pcs|
    ensures w(pcs[t]) <= Sum(pcs, w)
  {
    var n := |pcs| - 1;
    if t < n {
      assert pcs[..n][t] == pcs[t];
      SumAtLeast(pcs[..n], w, t);
    }
  }

  /** Two different threads contribute separately. */
  lemma {:induction false} SumAtLeastTwo<P>(pcs: seq<P>, w: P -> nat, t: nat, u: nat)
    requires t < |pcs| && u < |pcs| && t != u
    ensures w(pcs[t]) + w(pcs[u]) <= Sum(pcs, w)
  {
    var n := |pcs| - 1;
    if t < n && u < n {
      assert pcs[..n][t] == pcs[t] && pcs[..n][u] == pcs[u];
      SumAtLeastTwo(pcs[..n], w, t, u);
    } else {
      var v := if t == n then u else t;
      assert pcs[..n][v] == pcs[v];
      SumAtLeast(pcs[..n], w, v);
    }
  }

  /** A positive count has a thread behind it. */
  lemma {:induction false} SumWitness<P>(pcs: seq<P>, w: P -> nat) returns (t: nat)
    requires Sum(pcs, w) > 0
    ensures t < |pcs| && w(pcs[t]) > 0
  {
    var n := |pcs| - 1;
    if w(pcs[n]) > 0 {
      t := n;
    } else {
      t := SumWitness(pcs[..n], w);
      assert pcs[..n][t] == pcs[t];
    }
  }

  /** The count of a group never exceeds that of a larger group. */
  lemma {:induction false} SumMonotone<P>(pcs: seq<P>, w: P -> nat, v: P -> nat)
    requires forall t :: 0 <= t < |pcs| ==> w(pcs[t]) <= v(pcs[t])
    ensures Sum(pcs, w) <= Sum(pcs, v)
  {
    if pcs != [] {
      var n := |pcs| - 1;
      assert forall t :: 0 <= t < n ==> pcs[..n][t] == pcs[t];
      SumMonotone(pcs[..n], w, v);
    }
  }

  lemma {:induction false} SumZero<P>(pcs: seq<P>, w: P -> nat)
    requires forall t :: 0 <= t < |pcs| ==> w(pcs[t]) == 0
    ensures Sum(pcs, w) == 0
  {
    if Sum(pcs, w) > 0 {
      var t := SumWitness(pcs, w);
    }
  }

  /** A group is no larger than the number of threads. */
  lemma {:induction false} SumBounded<P>(pcs: seq<P>, w: P -> nat)
    requires forall t :: 0 <= t < |pcs| ==> w(pcs[t]) <= 1
    ensures Sum(pcs, w) <= |pcs|
  {
    if pcs != [] {
      var n := |pcs| - 1;
      assert forall t :: 0 <= t < n ==> pcs[..n][t] == pcs[t];
      SumBounded(pcs[..n], w);
    }
  }

  /** Threads that contribute `most` at most. */
  lemma {:induction false} SumAtMost<P>(pcs: seq<P>, w: P -> nat, most: nat)
    requires forall t :: 0 <= t < |pcs| ==> w(pcs[t]) <= most
    ensures Sum(pcs, w) <= most * |pcs|
  {
    if pcs != [] {
      var n := |pcs| - 1;
      assert forall t :: 0 <= t < n ==> pcs[..n][t] == pcs[t];
      SumAtMost(pcs[..n], w, most);
      assert most * |pcs| == most * n + most;
    }
  }

  /** The count of a sum of contributions. */
  lemma {:induction false} SumAdd<P>(pcs: seq<P>, v: P -> nat, w: P -> nat, both: P -> nat)
    requires forall t :: 0 <= t < |pcs| ==> both(pcs[t]) == v(pcs[t]) + w(pcs[t])
    ensures Sum(pcs, both) == Sum(pcs, v) + Sum(pcs, w)
  {
    if pcs != [] {
      var n := |pcs| - 1;
      assert forall t :: 0 <= t < n ==> pcs[..n][t] == pcs[t];
      SumAdd(pcs[..n], v, w, both);
    }
  }
}
