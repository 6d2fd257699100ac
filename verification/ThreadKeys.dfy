/** Thread-specific data: the associations between threads and keys.

An association sits at the crossing of two doubly linked lists, its thread's chain and its
key's row.  The ghost maps `chains` and `rows` are the contents of those lists.  The two locks
that guard an association are not modelled: every method runs with them held.
*/
module ThreadKeys {

  class KeyRec {
    const hasDestructor: bool
    var threads: Assoc?

    constructor (hasDestructor: bool)
      ensures this.hasDestructor == hasDestructor && threads == null
    {
      this.hasDestructor := hasDestructor;
      threads := null;
    }
  }

  class ThreadRec {
    var keys: Assoc?
    var nextAssoc: Assoc?

    constructor ()
      ensures keys == null && nextAssoc == null
    {
      keys := null;
      nextAssoc := null;
    }
  }

  class Assoc {
    const thread: ThreadRec
    const key: KeyRec
    var nextKey: Assoc?
    var prevKey: Assoc?
    var nextThread: Assoc?
    var prevThread: Assoc?

    constructor (thread: ThreadRec, key: KeyRec)
      ensures this.thread == thread && this.key == key
    {
      this.thread := thread;
      this.key := key;
      nextKey := null;
      prevKey := null;
      nextThread := null;
      prevThread := null;
    }
  }

  type Slots = map<(ThreadRec, KeyRec), nat>
  type Chains = map<ThreadRec, seq<Assoc>>
  type Rows = map<KeyRec, seq<Assoc>>

  /** All associations, the chain of every thread and the row of every live key. */
  datatype Grid = Grid(assocs: set<Assoc>, chains: Chains, rows: Rows)

  // ---------------------------------------------------------------------------------------
  // Lists of associations
  // ---------------------------------------------------------------------------------------

  /** The element at `i`, or null outside the list. */
  ghost function At(s: seq<Assoc>, i: int): Assoc? {
    if 0 <= i < |s| then s[i] else null
  }

  /** `s` without its element at `i`. */
  ghost function Drop<T>(s: seq<T>, i: nat): seq<T>
    requires i < |s|
  {
    s[..i] + s[i + 1..]
  }

  lemma AtDrop(s: seq<Assoc>, i: nat, j: int)
    requires i < |s|
    ensures At(Drop(s, i), j) == At(s, if j < i then j else j + 1)
  {
  }

  ghost function IndexOf(s: seq<Assoc>, a: Assoc): (i: nat)
    requires a in s
    ensures i < |s| && s[i] == a
  {
    var i :| 0 <= i < |s| && s[i] == a;
    i
  }

  /** `s` without `a`. */
  ghost function Without(s: seq<Assoc>, a: Assoc): seq<Assoc> {
    if a in s then Drop(s, IndexOf(s, a)) else s
  }

  /** What is left of `s` from `a` on; nothing if `a` is null. */
  ghost function From(s: seq<Assoc>, a: Assoc?): seq<Assoc> {
    if a == null || a !in s then [] else s[IndexOf(s, a)..]
  }

  /** `s` without the associations of `k`, in the same order. */
  ghost function WithoutKey(s: seq<Assoc>, k: KeyRec): (r: seq<Assoc>)
    ensures |r| <= |s|
  {
    if s == [] then []
    else if s[0].key == k then WithoutKey(s[1..], k)
    else [s[0]] + WithoutKey(s[1..], k)
  }

  ghost predicate HasKey(s: seq<Assoc>, k: KeyRec) {
    exists a :: a in s && a.key == k
  }

  ghost predicate DistinctKeys(s: seq<Assoc>) {
    forall i, j :: 0 <= i < j < |s| ==> s[i].key != s[j].key
  }

  ghost predicate DistinctThreads(s: seq<Assoc>) {
    forall i, j :: 0 <= i < j < |s| ==> s[i].thread != s[j].thread
  }

  lemma InDrop(s: seq<Assoc>, i: nat, b: Assoc)
    requires i < |s| && b in s && b != s[i]
    ensures b in Drop(s, i)
  {
    var j :| 0 <= j < |s| && s[j] == b;
    assert Drop(s, i)[if j < i then j else j - 1] == b;
  }

  lemma {:induction false} WithoutKeyOfDrop(s: seq<Assoc>, i: nat)
    requires i < |s|
    ensures WithoutKey(Drop(s, i), s[i].key) == WithoutKey(s, s[i].key)
  {
    if i == 0 {
      assert Drop(s, 0) == s[1..];
    } else {
      WithoutKeyOfDrop(s[1..], i - 1);
      assert Drop(s, i) == [s[0]] + Drop(s[1..], i - 1);
    }
  }

  lemma WithoutKeyOfWithout(s: seq<Assoc>, a: Assoc)
    ensures WithoutKey(Without(s, a), a.key) == WithoutKey(s, a.key)
  {
    if a in s {
      WithoutKeyOfDrop(s, IndexOf(s, a));
    }
  }

  lemma {:induction false} WithoutForeignKey(s: seq<Assoc>, k: KeyRec)
    requires !HasKey(s, k)
    ensures WithoutKey(s, k) == s
  {
    if s != [] {
      assert s[0] in s;
      WithoutForeignKey(s[1..], k);
    }
  }

  lemma IndexIsUnique(s: seq<Assoc>, i: nat)
    requires DistinctKeys(s) && i < |s|
    ensures IndexOf(s, s[i]) == i
  {
  }

  /** An association that is still to be visited is removed. */
  lemma RemovalAhead(s: seq<Assoc>, i: nat, c: nat, cursor': Assoc?)
    requires DistinctKeys(s) && c <= i < |s| && cursor' == At(s, if c == i then i + 1 else c)
    ensures From(Drop(s, i), cursor') == Without(s[c..], s[i])
  {
    var d, rest := Drop(s, i), s[c..];
    assert DistinctKeys(d) && DistinctKeys(rest) && rest[i - c] == s[i];
    IndexIsUnique(rest, i - c);
    if cursor' != null {
      assert d[c] == cursor';
      IndexIsUnique(d, c);
      assert d[c..] == Drop(rest, i - c);
    } else {
      assert Drop(rest, i - c) == [];
    }
  }

  /** An association that was visited already is removed. */
  lemma RemovalBehind(s: seq<Assoc>, i: nat, c: nat)
    requires DistinctKeys(s) && i < c < |s|
    ensures From(Drop(s, i), s[c]) == Without(s[c..], s[i])
  {
    var d, rest := Drop(s, i), s[c..];
    assert DistinctKeys(d) && d[c - 1] == s[c];
    IndexIsUnique(d, c - 1);
    assert d[c - 1..] == rest;
    assert s[i] !in rest;
  }

  /** Removing an association and moving the cursor past it removes it from what is left. */
  lemma RemovalKeepsRest(s: seq<Assoc>, i: nat, cursor: Assoc?, cursor': Assoc?)
    requires DistinctKeys(s) && i < |s| && (cursor == null || cursor in s)
    requires cursor' == if cursor == s[i] then At(s, i + 1) else cursor
    ensures DistinctKeys(Drop(s, i)) && (cursor' == null || cursor' in Drop(s, i))
    ensures From(Drop(s, i), cursor') == Without(From(s, cursor), s[i])
  {
    assert DistinctKeys(Drop(s, i));
    if cursor != null {
      var c := IndexOf(s, cursor);
      if c <= i {
        RemovalAhead(s, i, c, cursor');
        assert cursor' != null ==> Drop(s, i)[c] == cursor';
      } else {
        RemovalBehind(s, i, c);
        assert Drop(s, i)[c - 1] == cursor';
      }
    }
  }

  lemma {:induction false} WithoutKeyHolds(s: seq<Assoc>, k: KeyRec, a: Assoc)
    ensures a in WithoutKey(s, k) <==> a in s && a.key != k
  {
    if s != [] {
      WithoutKeyHolds(s[1..], k, a);
    }
  }

  /** Every list without the associations of `k`. */
  ghost function WithoutKeyAll(m: Chains, k: KeyRec): Chains {
    map t | t in m :: WithoutKey(m[t], k)
  }

  lemma WithoutKeyAllIgnores(m: Chains, t: ThreadRec, a: Assoc)
    requires t in m
    ensures WithoutKeyAll(m[t := Without(m[t], a)], a.key) == WithoutKeyAll(m, a.key)
  {
    WithoutKeyOfWithout(m[t], a);
  }

  // ---------------------------------------------------------------------------------------
  // Chains and rows
  // ---------------------------------------------------------------------------------------

  ghost predicate InChain(th: ThreadRec, a: Assoc, p: Assoc?, n: Assoc?)
    reads a`prevKey, a`nextKey
  {
    a.thread == th && a.prevKey == p && a.nextKey == n
  }

  ghost predicate ChainAt(th: ThreadRec, s: seq<Assoc>, i: nat)
    requires i < |s|
    reads s`prevKey, s`nextKey
  {
    InChain(th, s[i], At(s, i - 1), At(s, i + 1))
  }

  /** The thread's chain is `s`, linked both ways, and the cursor is on it. */
  ghost predicate ChainOk(th: ThreadRec, s: seq<Assoc>)
    reads th`keys, th`nextAssoc, s`prevKey, s`nextKey
  {
    && (forall i :: 0 <= i < |s| ==> ChainAt(th, s, i))
    && th.keys == At(s, 0)
    && (th.nextAssoc == null || th.nextAssoc in s)
  }

  ghost predicate InRow(k: KeyRec, a: Assoc, p: Assoc?, n: Assoc?)
    reads a`prevThread, a`nextThread
  {
    a.key == k && a.prevThread == p && a.nextThread == n
  }

  ghost predicate RowAt(k: KeyRec, s: seq<Assoc>, i: nat)
    requires i < |s|
    reads s`prevThread, s`nextThread
  {
    InRow(k, s[i], At(s, i - 1), At(s, i + 1))
  }

  /** The key's row is `s`, linked both ways. */
  ghost predicate RowOk(k: KeyRec, s: seq<Assoc>)
    reads k`threads, s`prevThread, s`nextThread
  {
    && (forall i :: 0 <= i < |s| ==> RowAt(k, s, i))
    && k.threads == At(s, 0)
  }

  ghost predicate ChainOf(t: ThreadRec, s: seq<Assoc>, assocs: set<Assoc>) {
    (forall a :: a in s ==> a.thread == t && a in assocs) && DistinctKeys(s)
  }

  ghost predicate RowOf(k: KeyRec, s: seq<Assoc>, assocs: set<Assoc>) {
    (forall a :: a in s ==> a.key == k && a in assocs) && DistinctThreads(s)
  }

  ghost predicate OnBoth(a: Assoc, chains: Chains, rows: Rows) {
    && a.thread in chains && a in chains[a.thread]
    && a.key in rows && a in rows[a.key]
    && a.key.hasDestructor
  }

  /** Every association is on its thread's chain and on its key's row. */
  ghost predicate Crossed(assocs: set<Assoc>, chains: Chains, rows: Rows) {
    forall a :: a in assocs ==> OnBoth(a, chains, rows)
  }

  /** The chains hold only `assocs`, and are linked. */
  ghost predicate ChainsOk(assocs: set<Assoc>, chains: Chains)
    reads chains.Keys`keys, chains.Keys`nextAssoc, assocs`prevKey, assocs`nextKey
  {
    forall t :: t in chains ==> ChainOf(t, chains[t], assocs) && ChainOk(t, chains[t])
  }

  /** The rows hold only `assocs`, and are linked. */
  ghost predicate RowsOk(assocs: set<Assoc>, rows: Rows)
    reads rows.Keys`threads, assocs`prevThread, assocs`nextThread
  {
    forall k :: k in rows ==> RowOf(k, rows[k], assocs) && RowOk(k, rows[k])
  }

  /** The associations form a grid: each on exactly its two lists, all lists linked both ways. */
  ghost predicate GridOk(g: Grid)
    reads g.chains.Keys`keys, g.chains.Keys`nextAssoc, g.assocs`prevKey, g.assocs`nextKey
    reads g.rows.Keys`threads, g.assocs`prevThread, g.assocs`nextThread
  {
    Crossed(g.assocs, g.chains, g.rows) && ChainsOk(g.assocs, g.chains) && RowsOk(g.assocs, g.rows)
  }

  /** What a scan of each thread's chain, from its cursor on, has still to visit. */
  ghost function Rests(chains: Chains): Chains
    reads chains.Keys`nextAssoc
  {
    map t | t in chains :: From(chains[t], t.nextAssoc)
  }

  /** The grid without `a`. */
  ghost function Removed(g: Grid, a: Assoc): Grid
    requires OnBoth(a, g.chains, g.rows)
  {
    Grid(g.assocs - {a},
         g.chains[a.thread := Without(g.chains[a.thread], a)],
         g.rows[a.key := Without(g.rows[a.key], a)])
  }

  /** The grid with `a` at the head of both its lists. */
  ghost function Added(g: Grid, a: Assoc): Grid
    requires a.thread in g.chains && a.key in g.rows
  {
    Grid(g.assocs + {a},
         g.chains[a.thread := [a] + g.chains[a.thread]],
         g.rows[a.key := [a] + g.rows[a.key]])
  }

  /** No thread has two associations with the same key. */
  lemma PairIsUnique(g: Grid, a: Assoc, b: Assoc)
    requires GridOk(g) && a in g.assocs && b in g.assocs && a.thread == b.thread && a.key == b.key
    ensures a == b
  {
    assert OnBoth(a, g.chains, g.rows) && OnBoth(b, g.chains, g.rows);
    assert ChainOf(a.thread, g.chains[a.thread], g.assocs);
  }

  lemma DropFromChain(th: ThreadRec, s: seq<Assoc>, i: nat, j: nat)
    requires i < |s| && j < |s| - 1
    requires var m := if j < i then j else j + 1;
             InChain(th, s[m], At(s, if m == i + 1 then i - 1 else m - 1), At(s, if m == i - 1 then i + 1 else m + 1))
    ensures ChainAt(th, Drop(s, i), j)
  {
    AtDrop(s, i, j - 1);
    AtDrop(s, i, j);
    AtDrop(s, i, j + 1);
  }

  lemma DropFromRow(k: KeyRec, s: seq<Assoc>, i: nat, j: nat)
    requires i < |s| && j < |s| - 1
    requires var m := if j < i then j else j + 1;
             InRow(k, s[m], At(s, if m == i + 1 then i - 1 else m - 1), At(s, if m == i - 1 then i + 1 else m + 1))
    ensures RowAt(k, Drop(s, i), j)
  {
    AtDrop(s, i, j - 1);
    AtDrop(s, i, j);
    AtDrop(s, i, j + 1);
  }

  lemma WithoutHolds(s: seq<Assoc>, a: Assoc, b: Assoc)
    requires b in s && b != a
    ensures b in Without(s, a)
  {
    if a in s {
      InDrop(s, IndexOf(s, a), b);
    }
  }

  /** Taking an association off both its lists keeps the crossing of all the others. */
  lemma RemovalKeepsCrossing(g: Grid, a: Assoc)
    requires Crossed(g.assocs, g.chains, g.rows) && a in g.assocs
    ensures OnBoth(a, g.chains, g.rows)
    ensures Crossed(g.assocs - {a}, Removed(g, a).chains, Removed(g, a).rows)
  {
    assert OnBoth(a, g.chains, g.rows);
    var g' := Removed(g, a);
    forall b | b in g'.assocs ensures OnBoth(b, g'.chains, g'.rows) {
      assert OnBoth(b, g.chains, g.rows);
      WithoutHolds(g.chains[b.thread], a, b);
      WithoutHolds(g.rows[b.key], a, b);
    }
  }

  /** Takes `a`, at place `i`, off its thread's chain `s`, and moves the cursor past it. */
  method UnlinkFromThread(a: Assoc, ghost s: seq<Assoc>, ghost i: nat)
    requires ChainOk(a.thread, s) && DistinctKeys(s)
    requires i < |s| && s[i] == a
    modifies a.thread`keys, a.thread`nextAssoc, s`nextKey, s`prevKey
    ensures ChainOk(a.thread, Drop(s, i))
    ensures From(Drop(s, i), a.thread.nextAssoc) == Without(From(s, old(a.thread.nextAssoc)), a)
  {
    assert ChainAt(a.thread, s, i);
    var prev, next := a.prevKey, a.nextKey;
    if prev != null {
      prev.nextKey := next;
    }
    if next != null {
      next.prevKey := prev;
    }
    if a.thread.keys == a {
      a.thread.keys := next;
    }
    if a.thread.nextAssoc == a {
      a.thread.nextAssoc := next;
    }
    forall j | 0 <= j < |s| - 1 ensures ChainAt(a.thread, Drop(s, i), j) {
      var m := if j < i then j else j + 1;
      assert old(ChainAt(a.thread, s, m));
      DropFromChain(a.thread, s, i, j);
    }
    AtDrop(s, i, 0);
    RemovalKeepsRest(s, i, old(a.thread.nextAssoc), a.thread.nextAssoc);
  }

  /** Takes `a`, at place `i`, off its key's row. */
  method UnlinkFromKey(a: Assoc, ghost s: seq<Assoc>, ghost i: nat)
    requires RowOk(a.key, s) && DistinctThreads(s)
    requires i < |s| && s[i] == a
    modifies a.key`threads, s`nextThread, s`prevThread
    ensures RowOk(a.key, Drop(s, i))
  {
    assert RowAt(a.key, s, i);
    var prev, next := a.prevThread, a.nextThread;
    if prev != null {
      prev.nextThread := next;
    }
    if next != null {
      next.prevThread := prev;
    }
    if a.key.threads == a {
      a.key.threads := next;
    }
    forall j | 0 <= j < |s| - 1 ensures RowAt(a.key, Drop(s, i), j) {
      var m := if j < i then j else j + 1;
      assert old(RowAt(a.key, s, m));
      DropFromRow(a.key, s, i, j);
    }
    AtDrop(s, i, 0);
  }

  /** Takes `a` off its thread's chain; all other chains, and all rows, keep their links. */
  method UnlinkFromChains(a: Assoc, ghost g: Grid)
    requires a.thread in g.chains && a in g.chains[a.thread]
    requires ChainsOk(g.assocs, g.chains) && RowsOk(g.assocs, g.rows)
    modifies a.thread`keys, a.thread`nextAssoc, g.assocs`nextKey, g.assocs`prevKey
    ensures ChainsOk(g.assocs - {a}, g.chains[a.thread := Without(g.chains[a.thread], a)]) && RowsOk(g.assocs, g.rows)
    ensures Rests(g.chains[a.thread := Without(g.chains[a.thread], a)])
         == old(Rests(g.chains))[a.thread := Without(old(Rests(g.chains))[a.thread], a)]
  {
    ghost var s := g.chains[a.thread];
    assert ChainOf(a.thread, s, g.assocs);
    UnlinkFromThread(a, s, IndexOf(s, a));
    assert RowsOk(g.assocs, g.rows) == old(RowsOk(g.assocs, g.rows));
    ghost var chains' := g.chains[a.thread := Without(s, a)];
    forall t | t in chains' ensures ChainOf(t, chains'[t], g.assocs - {a}) && ChainOk(t, chains'[t]) {
      if t != a.thread {
        assert old(ChainOf(t, g.chains[t], g.assocs) && ChainOk(t, g.chains[t]));
        forall l | 0 <= l < |g.chains[t]| ensures ChainAt(t, g.chains[t], l) {
          assert old(ChainAt(t, g.chains[t], l));
        }
      }
    }
  }

  /** Takes `a` off its key's row; all other rows, and the chains it is not on, keep their links. */
  method UnlinkFromRows(a: Assoc, ghost g: Grid, ghost chains: Chains)
    requires a.key in g.rows && a in g.rows[a.key]
    requires RowsOk(g.assocs, g.rows) && ChainsOk(g.assocs - {a}, chains)
    modifies a.key`threads, g.assocs`nextThread, g.assocs`prevThread
    ensures RowsOk(g.assocs - {a}, g.rows[a.key := Without(g.rows[a.key], a)]) && ChainsOk(g.assocs - {a}, chains)
    ensures Rests(chains) == old(Rests(chains))
  {
    ghost var s := g.rows[a.key];
    assert RowOf(a.key, s, g.assocs);
    UnlinkFromKey(a, s, IndexOf(s, a));
    assert ChainsOk(g.assocs - {a}, chains) == old(ChainsOk(g.assocs - {a}, chains));
    ghost var rows' := g.rows[a.key := Without(s, a)];
    forall k | k in rows' ensures RowOf(k, rows'[k], g.assocs - {a}) && RowOk(k, rows'[k]) {
      if k != a.key {
        assert old(RowOf(k, g.rows[k], g.assocs) && RowOk(k, g.rows[k]));
        forall l | 0 <= l < |g.rows[k]| ensures RowAt(k, g.rows[k], l) {
          assert old(RowAt(k, g.rows[k], l));
        }
      }
    }
  }

  /** Takes `a` off both its lists. */
  method TkAssocDestroy(a: Assoc, ghost g: Grid)
    requires GridOk(g) && a in g.assocs
    modifies a.thread`keys, a.thread`nextAssoc, a.key`threads
    modifies g.assocs`nextKey, g.assocs`prevKey, g.assocs`nextThread, g.assocs`prevThread
    ensures OnBoth(a, g.chains, g.rows) && GridOk(Removed(g, a))
    ensures Rests(Removed(g, a).chains)
         == old(Rests(g.chains))[a.thread := Without(old(Rests(g.chains))[a.thread], a)]
  {
    RemovalKeepsCrossing(g, a);
    UnlinkFromChains(a, g);
    UnlinkFromRows(a, g, Removed(g, a).chains);
  }

  /** Pushes `a` on the head of its thread's chain. */
  method LinkToThread(a: Assoc, ghost s: seq<Assoc>)
    requires ChainOk(a.thread, s) && a !in s
    modifies a.thread`keys, a`nextKey, a`prevKey, s`prevKey
    ensures ChainOk(a.thread, [a] + s)
  {
    assert s != [] ==> ChainAt(a.thread, s, 0);
    a.prevKey := null;
    a.nextKey := a.thread.keys;
    if a.nextKey != null {
      a.nextKey.prevKey := a;
    }
    a.thread.keys := a;
    forall j | 0 <= j < |s| + 1 ensures ChainAt(a.thread, [a] + s, j) {
      assert j > 0 ==> old(ChainAt(a.thread, s, j - 1));
    }
  }

  /** Pushes `a` on the head of its key's row. */
  method LinkToKey(a: Assoc, ghost s: seq<Assoc>)
    requires RowOk(a.key, s) && a !in s
    modifies a.key`threads, a`nextThread, a`prevThread, s`prevThread
    ensures RowOk(a.key, [a] + s)
  {
    assert s != [] ==> RowAt(a.key, s, 0);
    a.prevThread := null;
    a.nextThread := a.key.threads;
    if a.nextThread != null {
      a.nextThread.prevThread := a;
    }
    a.key.threads := a;
    forall j | 0 <= j < |s| + 1 ensures RowAt(a.key, [a] + s, j) {
      assert j > 0 ==> old(RowAt(a.key, s, j - 1));
    }
  }

  /** Pushes `a` on its key's row; all other rows, and all chains, keep their links. */
  method LinkToRows(a: Assoc, ghost g: Grid)
    requires a.key in g.rows && a !in g.assocs
    requires forall b :: b in g.rows[a.key] ==> b.thread != a.thread
    requires RowsOk(g.assocs, g.rows) && ChainsOk(g.assocs, g.chains)
    modifies a.key`threads, a`nextThread, a`prevThread, g.assocs`prevThread
    ensures RowsOk(g.assocs + {a}, g.rows[a.key := [a] + g.rows[a.key]]) && ChainsOk(g.assocs, g.chains)
    ensures Rests(g.chains) == old(Rests(g.chains))
  {
    ghost var s := g.rows[a.key];
    assert RowOf(a.key, s, g.assocs);
    LinkToKey(a, s);
    assert ChainsOk(g.assocs, g.chains) == old(ChainsOk(g.assocs, g.chains));
    ghost var rows' := g.rows[a.key := [a] + s];
    forall k | k in rows' ensures RowOf(k, rows'[k], g.assocs + {a}) && RowOk(k, rows'[k]) {
      if k != a.key {
        assert old(RowOf(k, g.rows[k], g.assocs) && RowOk(k, g.rows[k]));
        forall l | 0 <= l < |g.rows[k]| ensures RowAt(k, g.rows[k], l) {
          assert old(RowAt(k, g.rows[k], l));
        }
      }
    }
  }

  /** Pushes `a` on its thread's chain; all other chains, and the rows, keep their links. */
  method LinkToChains(a: Assoc, ghost g: Grid, ghost rows: Rows)
    requires a.thread in g.chains && a !in g.assocs && !HasKey(g.chains[a.thread], a.key)
    requires ChainsOk(g.assocs, g.chains) && RowsOk(g.assocs + {a}, rows)
    modifies a.thread`keys, a`nextKey, a`prevKey, g.assocs`prevKey
    ensures ChainsOk(g.assocs + {a}, g.chains[a.thread := [a] + g.chains[a.thread]]) && RowsOk(g.assocs + {a}, rows)
    ensures Rests(g.chains) == old(Rests(g.chains))
  {
    ghost var s := g.chains[a.thread];
    assert ChainOf(a.thread, s, g.assocs);
    LinkToThread(a, s);
    assert RowsOk(g.assocs + {a}, rows) == old(RowsOk(g.assocs + {a}, rows));
    ghost var chains' := g.chains[a.thread := [a] + s];
    forall t | t in chains' ensures ChainOf(t, chains'[t], g.assocs + {a}) && ChainOk(t, chains'[t]) {
      if t != a.thread {
        assert old(ChainOf(t, g.chains[t], g.assocs) && ChainOk(t, g.chains[t]));
        forall l | 0 <= l < |g.chains[t]| ensures ChainAt(t, g.chains[t], l) {
          assert old(ChainAt(t, g.chains[t], l));
        }
      }
    }
  }

  /** Adding an association between a thread and a key that have none keeps the crossing. */
  lemma AdditionKeepsCrossing(g: Grid, a: Assoc)
    requires Crossed(g.assocs, g.chains, g.rows)
    requires a.thread in g.chains && a.key in g.rows && a.key.hasDestructor
    ensures Crossed(g.assocs + {a}, Added(g, a).chains, Added(g, a).rows)
  {
    var g' := Added(g, a);
    assert ([a] + g.chains[a.thread])[0] == a && ([a] + g.rows[a.key])[0] == a;
    forall b | b in g.assocs ensures OnBoth(b, g'.chains, g'.rows) {
      assert OnBoth(b, g.chains, g.rows);
    }
  }

  /** A thread that has no association with a key is not in that key's row. */
  lemma NoneInRow(g: Grid, th: ThreadRec, k: KeyRec)
    requires Crossed(g.assocs, g.chains, g.rows) && th in g.chains && k in g.rows
    requires RowOf(k, g.rows[k], g.assocs) && !HasKey(g.chains[th], k)
    ensures forall b :: b in g.rows[k] ==> b.thread != th
  {
    forall b | b in g.rows[k] ensures b.thread != th {
      assert OnBoth(b, g.chains, g.rows);
    }
  }

  lemma PushKeepsRest(s: seq<Assoc>, a: Assoc, cursor: Assoc?)
    requires DistinctKeys([a] + s) && (cursor == null || cursor in s)
    ensures From([a] + s, cursor) == From(s, cursor)
  {
    if cursor != null {
      var c := IndexOf(s, cursor);
      assert ([a] + s)[c + 1] == cursor;
      IndexIsUnique([a] + s, c + 1);
    }
  }

  /** Adding an association in front of the cursor leaves what is still to be visited. */
  lemma AdditionKeepsRests(g: Grid, a: Assoc)
    requires a.thread in g.chains && a.key in g.rows && GridOk(Added(g, a))
    requires a.thread.nextAssoc == null || a.thread.nextAssoc in g.chains[a.thread]
    ensures Rests(Added(g, a).chains) == Rests(g.chains)
  {
    assert ChainOf(a.thread, Added(g, a).chains[a.thread], Added(g, a).assocs);
    PushKeepsRest(g.chains[a.thread], a, a.thread.nextAssoc);
  }

  /** Pushes `a` on both its lists, in front of the cursor. */
  method LinkToBoth(a: Assoc, ghost g: Grid)
    requires GridOk(g) && a !in g.assocs && a.thread in g.chains && a.key in g.rows && a.key.hasDestructor
    requires !HasKey(g.chains[a.thread], a.key)
    modifies a.thread`keys, a.key`threads, a, g.assocs`prevKey, g.assocs`prevThread
    ensures GridOk(Added(g, a)) && Rests(Added(g, a).chains) == old(Rests(g.chains))
  {
    assert RowOf(a.key, g.rows[a.key], g.assocs);
    NoneInRow(g, a.thread, a.key);
    assert ChainOk(a.thread, g.chains[a.thread]);
    LinkToRows(a, g);
    LinkToChains(a, g, Added(g, a).rows);
    AdditionKeepsCrossing(g, a);
    AdditionKeepsRests(g, a);
  }

  /** Associates `th` and `k`; without memory there is no association, and no link has changed. */
  method TkAssocCreate(th: ThreadRec, k: KeyRec, memory: bool, ghost g: Grid) returns (assoc: Assoc?)
    requires GridOk(g) && th in g.chains && k in g.rows && k.hasDestructor && !HasKey(g.chains[th], k)
    modifies th`keys, k`threads, g.assocs`prevKey, g.assocs`prevThread
    ensures assoc != null <==> memory
    ensures assoc == null ==> GridOk(g)
    ensures assoc != null ==> fresh(assoc) && assoc.thread == th && assoc.key == k && GridOk(Added(g, assoc))
    ensures Rests(if assoc == null then g.chains else Added(g, assoc).chains) == old(Rests(g.chains))
  {
    if !memory {
      return null;
    }
    assoc := new Assoc(th, k);
    assert GridOk(g) == old(GridOk(g));
    assert Rests(g.chains) == old(Rests(g.chains));
    LinkToBoth(assoc, g);
  }

  // ---------------------------------------------------------------------------------------
  // Values and keys
  // ---------------------------------------------------------------------------------------

  /** The process: the keys with a slot and the slots' values per thread, 0 for NULL; and all threads
      and keys there have been, numbered in the order of their creation. */
  class Tls {
    var live: set<KeyRec>
    var slots: Slots
    var created: seq<KeyRec>
    var started: seq<ThreadRec>

    constructor ()
      ensures live == {} && slots == map[] && Good(this, Grid({}, map[], map[]))
    {
      live, slots := {}, map[];
      created, started := [], [];
    }
  }

  datatype Result = Ok | ENOMEM

  function Slot(slots: Slots, t: ThreadRec, k: KeyRec): nat {
    if (t, k) in slots then slots[(t, k)] else 0
  }

  /** A value that a destructor must see has an association, so its thread's exit will find it. */
  ghost predicate Covered(slots: Slots, g: Grid) {
    forall p :: p in slots && slots[p] != 0 && p.1.hasDestructor && p.0 in g.chains ==> HasKey(g.chains[p.0], p.1)
  }

  /** The grid is consistent, its rows are those of the live keys, its chains those of all threads, and
      every value is covered. */
  ghost predicate Good(tls: Tls, g: Grid)
    reads tls, g.chains.Keys`keys, g.chains.Keys`nextAssoc, g.assocs`prevKey, g.assocs`nextKey
    reads g.rows.Keys`threads, g.assocs`prevThread, g.assocs`nextThread
  {
    && GridOk(g) && Covered(tls.slots, g) && tls.live == g.rows.Keys
    && (forall k :: k in tls.live ==> k in tls.created)
    && (forall t :: t in tls.started ==> t in g.chains) && (forall t :: t in g.chains ==> t in tls.started)
  }

  /** Whatever is new in `g'` was allocated meanwhile. */
  twostate predicate Grows(g: Grid, new g': Grid) {
    && (forall t :: t in g'.chains && t !in g.chains ==> fresh(t))
    && (forall k :: k in g'.rows && k !in g.rows ==> fresh(k))
    && (forall a :: a in g'.assocs && a !in g.assocs ==> fresh(a))
  }

  /** The search for an association of a thread with a key. */
  method Find(th: ThreadRec, k: KeyRec, ghost s: seq<Assoc>) returns (a: Assoc?)
    requires ChainOk(th, s)
    ensures a == null <==> !HasKey(s, k)
    ensures a != null ==> a in s && a.key == k
  {
    a := th.keys;
    ghost var i := 0;
    while a != null && a.key != k
      invariant 0 <= i <= |s| && a == At(s, i)
      invariant forall j :: 0 <= j < i ==> s[j].key != k
      decreases |s| - i
    {
      assert ChainAt(th, s, i);
      a := a.nextKey;
      i := i + 1;
    }
  }

  /** `g'` is `g` with an association between `th` and `k`: the one it had, or a new one. */
  ghost predicate Associated(g: Grid, th: ThreadRec, k: KeyRec, g': Grid)
    requires th in g.chains && k in g.rows
  {
    if HasKey(g.chains[th], k) then g' == g
    else exists a :: a in g'.assocs && a !in g.assocs && a.thread == th && a.key == k && g' == Added(g, a)
  }

  /** Makes sure that `th` and `k` are associated, if there is memory. */
  method Associate(th: ThreadRec, k: KeyRec, memory: bool, ghost g: Grid) returns (result: Result, ghost g': Grid)
    requires GridOk(g) && th in g.chains && k in g.rows && k.hasDestructor
    modifies th`keys, k`threads, g.assocs`prevKey, g.assocs`prevThread
    ensures GridOk(g') && (forall b :: b in g'.assocs && b !in g.assocs ==> fresh(b))
    ensures result == Ok <==> memory || HasKey(g.chains[th], k)
    ensures if result == Ok then Associated(g, th, k, g') else g' == g
    ensures Rests(g'.chains) == old(Rests(g.chains))
  {
    result, g' := Ok, g;
    var a := Find(th, k, g.chains[th]);
    if a == null {
      a := TkAssocCreate(th, k, memory, g);
      if a == null {
        result := ENOMEM;
      } else {
        g' := Added(g, a);
      }
    }
  }

  /** Associating a pair and then giving it a value keeps every value covered. */
  lemma SettingKeepsCovered(slots: Slots, g: Grid, th: ThreadRec, k: KeyRec, value: nat, g': Grid)
    requires Covered(slots, g) && th in g.chains && k in g.rows
    requires if k.hasDestructor && value != 0 then Associated(g, th, k, g') else g' == g
    ensures Covered(slots[(th, k) := value], g')
  {
    if g' != g {
      var a :| a in g'.assocs && a.thread == th && a.key == k && g' == Added(g, a);
      assert Added(g, a).chains[th] == [a] + g.chains[th];
      assert g'.chains == Added(g, a).chains;
      assert g'.chains[th][0] == a;
      forall b | b in g.chains[th] ensures b in g'.chains[th] {
        assert g'.chains[th][IndexOf(g.chains[th], b) + 1] == b;
      }
    }
  }

  /** The part of setting a value that needs the two locks. */
  method Prepare(th: ThreadRec, k: KeyRec, value: nat, memory: bool, ghost g: Grid)
      returns (result: Result, ghost g': Grid)
    requires GridOk(g) && th in g.chains && k in g.rows
    modifies th`keys, k`threads, g.assocs`prevKey, g.assocs`prevThread
    ensures GridOk(g') && (forall b :: b in g'.assocs && b !in g.assocs ==> fresh(b))
    ensures result == Ok <==> memory || !k.hasDestructor || value == 0 || HasKey(g.chains[th], k)
    ensures if result == Ok && k.hasDestructor && value != 0 then Associated(g, th, k, g') else g' == g
    ensures Rests(g'.chains) == old(Rests(g.chains))
  {
    result, g' := Ok, g;
    if k.hasDestructor && value != 0 {
      result, g' := Associate(th, k, memory, g);
    }
  }

  /** Stores a value; no list changes. */
  method SetSlot(tls: Tls, th: ThreadRec, k: KeyRec, value: nat, ghost g: Grid)
    requires GridOk(g)
    modifies tls`slots
    ensures GridOk(g) && Rests(g.chains) == old(Rests(g.chains))
    ensures tls.slots == old(tls.slots)[(th, k) := value]
  {
    tls.slots := tls.slots[(th, k) := value];
    assert GridOk(g) == old(GridOk(g));
  }

  method SetSpecific(tls: Tls, th: ThreadRec, k: KeyRec, value: nat, memory: bool, ghost g: Grid)
      returns (result: Result, ghost g': Grid)
    requires GridOk(g) && th in g.chains && k in g.rows
    modifies tls`slots, th`keys, k`threads, g.assocs`prevKey, g.assocs`prevThread
    ensures GridOk(g') && (forall b :: b in g'.assocs && b !in g.assocs ==> fresh(b))
    ensures result == Ok <==> memory || !k.hasDestructor || value == 0 || HasKey(g.chains[th], k)
    ensures tls.slots == if result == Ok then old(tls.slots)[(th, k) := value] else old(tls.slots)
    ensures if result == Ok && k.hasDestructor && value != 0 then Associated(g, th, k, g') else g' == g
    ensures Rests(g'.chains) == old(Rests(g.chains))
  {
    result, g' := Prepare(th, k, value, memory, g);
    if result == Ok {
      SetSlot(tls, th, k, value, g');
    }
  }

  /** An empty row leaves no association of its key on any chain. */
  lemma EmptyRow(g: Grid, k: KeyRec)
    requires GridOk(g) && k in g.rows && g.rows[k] == []
    ensures forall t :: t in g.chains ==> !HasKey(g.chains[t], k)
  {
    forall t, a | t in g.chains && a in g.chains[t] ensures a.key != k {
      assert ChainOf(t, g.chains[t], g.assocs);
      assert OnBoth(a, g.chains, g.rows);
    }
  }

  /** Once the row of `k` is empty, ignoring `k` changes nothing. */
  lemma DrainedRow(k: KeyRec, g: Grid)
    requires GridOk(g) && k in g.rows && k.threads == null
    ensures g.rows[k] == [] && forall a :: a in g.assocs ==> a.key != k
    ensures WithoutKeyAll(g.chains, k) == g.chains
    ensures WithoutKeyAll(Rests(g.chains), k) == Rests(g.chains)
  {
    assert RowOk(k, g.rows[k]);
    EmptyRow(g, k);
    forall a | a in g.assocs ensures a.key != k {
      assert OnBoth(a, g.chains, g.rows);
    }
    forall t | t in g.chains
      ensures WithoutKey(g.chains[t], k) == g.chains[t]
      ensures WithoutKey(Rests(g.chains)[t], k) == Rests(g.chains)[t]
    {
      WithoutForeignKey(g.chains[t], k);
      WithoutForeignKey(Rests(g.chains)[t], k);
    }
  }

  /** Only a key with a destructor has associations. */
  lemma RowNeedsDestructor(k: KeyRec, g: Grid)
    requires GridOk(g) && k in g.rows && k.threads != null
    ensures k.hasDestructor
  {
    assert RowOf(k, g.rows[k], g.assocs) && RowOk(k, g.rows[k]);
    assert OnBoth(g.rows[k][0], g.chains, g.rows);
  }

  /** Associations of `k`, and no others, are gone from `g` and `rests`. */
  ghost predicate Draining(k: KeyRec, g: Grid, rests: Chains, g': Grid, rests': Chains)
    requires k in g.rows
  {
    && g'.chains.Keys == g.chains.Keys && k in g'.rows && g'.rows == g.rows[k := g'.rows[k]]
    && g'.assocs <= g.assocs && (forall a :: a in g.assocs && a.key != k ==> a in g'.assocs)
    && WithoutKeyAll(g'.chains, k) == WithoutKeyAll(g.chains, k)
    && WithoutKeyAll(rests', k) == WithoutKeyAll(rests, k)
  }

  lemma DrainingOn(k: KeyRec, g: Grid, r: Chains, g1: Grid, r1: Chains, g2: Grid, r2: Chains)
    requires k in g.rows && Draining(k, g, r, g1, r1) && Draining(k, g1, r1, g2, r2)
    ensures Draining(k, g, r, g2, r2)
  {
  }

  /** Destroys the first association in the row of `k`. */
  method DestroyFirst(k: KeyRec, ghost g: Grid) returns (ghost g': Grid)
    requires GridOk(g) && k in g.rows && k.threads != null
    modifies g.chains.Keys`keys, g.chains.Keys`nextAssoc, k`threads
    modifies g.assocs`nextKey, g.assocs`prevKey, g.assocs`nextThread, g.assocs`prevThread
    ensures GridOk(g') && Draining(k, g, old(Rests(g.chains)), g', Rests(g'.chains)) && |g'.rows[k]| < |g.rows[k]|
  {
    var a := k.threads;
    assert RowOf(k, g.rows[k], g.assocs) && RowOk(k, g.rows[k]);
    assert a == g.rows[k][0];
    assert OnBoth(a, g.chains, g.rows);
    WithoutKeyAllIgnores(g.chains, a.thread, a);
    WithoutKeyAllIgnores(Rests(g.chains), a.thread, a);
    g' := Removed(g, a);
    TkAssocDestroy(a, g);
  }

  /** Destroys every association of `k`. */
  method DrainKey(k: KeyRec, ghost g: Grid) returns (ghost g': Grid)
    requires GridOk(g) && k in g.rows
    modifies g.chains.Keys`keys, g.chains.Keys`nextAssoc, k`threads
    modifies g.assocs`nextKey, g.assocs`prevKey, g.assocs`nextThread, g.assocs`prevThread
    ensures GridOk(g') && g'.rows == g.rows[k := []]
    ensures g'.assocs <= g.assocs && forall a :: a in g.assocs ==> (a in g'.assocs <==> a.key != k)
    ensures g'.chains == WithoutKeyAll(g.chains, k)
    ensures Rests(g'.chains) == WithoutKeyAll(old(Rests(g.chains)), k)
  {
    g' := g;
    ghost var rests := Rests(g.chains);
    while k.threads != null
      invariant GridOk(g') && Draining(k, g, rests, g', Rests(g'.chains))
      decreases |g'.rows[k]|
    {
      ghost var g1, rests1 := g', Rests(g'.chains);
      g' := DestroyFirst(k, g');
      DrainingOn(k, g, rests, g1, rests1, g', Rests(g'.chains));
    }
    DrainedRow(k, g');
  }

  /** `slots` without those of a freed index. */
  function WithoutSlots(slots: Slots, k: KeyRec): Slots {
    map p | p in slots && p.1 != k :: slots[p]
  }

  lemma RowsForget(rows: Rows, k: KeyRec)
    ensures rows[k := []] - {k} == rows - {k} && (rows - {k}).Keys == rows.Keys - {k}
  {
  }

  lemma ForgettingKeepsGrid(g: Grid, k: KeyRec)
    requires GridOk(g) && k in g.rows && forall a :: a in g.assocs ==> a.key != k
    ensures GridOk(g.(rows := g.rows - {k}))
  {
    forall a | a in g.assocs ensures OnBoth(a, g.chains, g.rows - {k}) {
      assert OnBoth(a, g.chains, g.rows);
    }
  }

  lemma DeletionKeepsCovered(slots: Slots, g: Grid, k: KeyRec, g': Grid)
    requires Covered(slots, g) && g'.chains == WithoutKeyAll(g.chains, k)
    ensures Covered(WithoutSlots(slots, k), g')
  {
    var slots' := WithoutSlots(slots, k);
    forall p | p in slots' && slots'[p] != 0 && p.1.hasDestructor && p.0 in g'.chains
      ensures HasKey(g'.chains[p.0], p.1)
    {
      var a :| a in g.chains[p.0] && a.key == p.1;
      WithoutKeyHolds(g.chains[p.0], k, a);
    }
  }

  /** `g'` and `rests'` are what deleting `k` leaves of `g` and `rests`. */
  ghost predicate Deleted(g: Grid, rests: Chains, k: KeyRec, g': Grid, rests': Chains) {
    && g'.rows == g.rows - {k}
    && g'.assocs <= g.assocs && (forall a :: a in g.assocs ==> (a in g'.assocs <==> a.key != k))
    && g'.chains == WithoutKeyAll(g.chains, k)
    && rests' == WithoutKeyAll(rests, k)
  }

  /** The part of deleting a key that destroys its associations. */
  method Detach(k: KeyRec, ghost g: Grid) returns (ghost g': Grid)
    requires GridOk(g) && k in g.rows
    modifies g.chains.Keys`keys, g.chains.Keys`nextAssoc, k`threads
    modifies g.assocs`nextKey, g.assocs`prevKey, g.assocs`nextThread, g.assocs`prevThread
    ensures GridOk(g') && g'.rows == g.rows[k := []]
    ensures g'.assocs <= g.assocs && forall a :: a in g.assocs ==> (a in g'.assocs <==> a.key != k)
    ensures g'.chains == WithoutKeyAll(g.chains, k)
    ensures Rests(g'.chains) == WithoutKeyAll(old(Rests(g.chains)), k)
  {
    if k.threads != null {
      RowNeedsDestructor(k, g);
    }
    if k.threads != null && k.hasDestructor {
      g' := DrainKey(k, g);
    } else {
      g' := g;
      DrainedRow(k, g);
    }
  }

  /** Frees the slots of a key; no list changes. */
  method FreeSlots(tls: Tls, k: KeyRec, ghost g: Grid)
    requires GridOk(g)
    modifies tls`live, tls`slots
    ensures GridOk(g) && Rests(g.chains) == old(Rests(g.chains))
    ensures tls.live == old(tls.live) - {k} && tls.slots == WithoutSlots(old(tls.slots), k)
  {
    tls.live := tls.live - {k};
    tls.slots := WithoutSlots(tls.slots, k);
    assert GridOk(g) == old(GridOk(g));
  }

  /** Deletes a key, with its associations and its slots. */
  method KeyDelete(tls: Tls, k: KeyRec, ghost g: Grid) returns (ghost g': Grid)
    requires Good(tls, g) && k in g.rows
    modifies tls`live, tls`slots, g.chains.Keys`keys, g.chains.Keys`nextAssoc, k`threads
    modifies g.assocs`nextKey, g.assocs`prevKey, g.assocs`nextThread, g.assocs`prevThread
    ensures Good(tls, g') && Deleted(g, old(Rests(g.chains)), k, g', Rests(g'.chains))
    ensures tls.live == old(tls.live) - {k} && tls.slots == WithoutSlots(old(tls.slots), k)
  {
    g' := Detach(k, g);
    ForgettingKeepsGrid(g', k);
    RowsForget(g.rows, k);
    g' := g'.(rows := g'.rows - {k});
    DeletionKeepsCovered(tls.slots, g, k, g');
    FreeSlots(tls, k, g');
  }

  // ---------------------------------------------------------------------------------------
  // Thread exit
  // ---------------------------------------------------------------------------------------

  /** What a user destructor, or another thread, may do: set a value, delete or create a key, start a
      thread, or go on with the exit of another thread, which starts a pass or handles one association
      (and discards it, if it is in its `last` pass).  Threads and keys are named by their numbers. */
  datatype Action =
    | Set(who: nat, key: nat, value: nat, memory: bool)
    | Delete(key: nat)
    | CreateKey(hasDestructor: bool)
    | StartThread
    | StartPass(who: nat)
    | Scan(who: nat, last: bool)

  ghost predicate Within(s: seq<Assoc>, t: seq<Assoc>) {
    forall a :: a in s ==> a in t
  }

  /** What actions leave of the scan of `th`: its rest only shrinks, and if the rest is the whole
      chain then it stays so unless `th` itself set values. */
  ghost predicate Kept(th: ThreadRec, own: bool, g: Grid, rests: Chains, g': Grid, rests': Chains)
    requires th in g.chains && th in rests
  {
    && g.chains.Keys <= g'.chains.Keys && th in rests'
    && |rests'[th]| <= |rests[th]| && Within(rests'[th], rests[th])
    && (!own && rests[th] == g.chains[th] ==> rests'[th] == g'.chains[th])
  }

  lemma SettingKeeps(th: ThreadRec, own: bool, g: Grid, rests: Chains, who: ThreadRec, k: KeyRec, g': Grid)
    requires who in g.chains && k in g.rows && th in g.chains && th in rests && (own || who != th)
    requires g' == g || Associated(g, who, k, g')
    ensures Kept(th, own, g, rests, g', rests) && g'.chains.Keys == g.chains.Keys && g'.rows.Keys == g.rows.Keys
  {
    if g' != g {
      var a :| a in g'.assocs && a.thread == who && a.key == k && g' == Added(g, a);
      assert g'.chains == Added(g, a).chains && g'.rows == Added(g, a).rows;
    }
  }

  /** The grid with an empty chain for `th`. */
  ghost function WithChain(g: Grid, th: ThreadRec): Grid {
    g.(chains := g.chains[th := []])
  }

  lemma EmptyChainIsOk(g: Grid, th: ThreadRec)
    requires GridOk(g) && th !in g.chains && th.keys == null && th.nextAssoc == null
    ensures GridOk(WithChain(g, th))
    ensures forall t :: t in g.chains ==> Rests(WithChain(g, th).chains)[t] == Rests(g.chains)[t]
  {
    var g' := WithChain(g, th);
    forall a | a in g.assocs ensures OnBoth(a, g'.chains, g'.rows) {
      assert OnBoth(a, g.chains, g.rows);
    }
  }

  /** A new thread has an empty chain, and NULL for every key. */
  method ThreadStart(tls: Tls, ghost g: Grid) returns (th: ThreadRec)
    requires Good(tls, g)
    modifies tls`started
    ensures fresh(th) && tls.started == old(tls.started) + [th]
    ensures Good(tls, WithChain(g, th))
    ensures forall t :: t in g.chains ==> Rests(WithChain(g, th).chains)[t] == old(Rests(g.chains))[t]
    ensures forall k :: k in g.rows ==> Slot(tls.slots, th, k) == 0
  {
    th := new ThreadRec();
    tls.started := tls.started + [th];
    assert GridOk(g) == old(GridOk(g));
    assert Rests(g.chains) == old(Rests(g.chains));
    EmptyChainIsOk(g, th);
  }

  /** The grid with an empty row for `k`. */
  ghost function WithRow(g: Grid, k: KeyRec): Grid {
    g.(rows := g.rows[k := []])
  }

  lemma EmptyRowIsOk(g: Grid, k: KeyRec)
    requires GridOk(g) && k !in g.rows && k.threads == null
    ensures GridOk(WithRow(g, k))
  {
    var g' := WithRow(g, k);
    forall a | a in g.assocs ensures OnBoth(a, g'.chains, g'.rows) {
      assert OnBoth(a, g.chains, g.rows);
    }
  }

  /** A new key gets a slot, NULL for every thread, and an empty row. */
  method KeyCreate(tls: Tls, hasDestructor: bool, ghost g: Grid) returns (k: KeyRec)
    requires Good(tls, g)
    modifies tls`live, tls`created
    ensures fresh(k) && k.hasDestructor == hasDestructor
    ensures tls.live == old(tls.live) + {k} && tls.created == old(tls.created) + [k]
    ensures Good(tls, WithRow(g, k)) && Rests(g.chains) == old(Rests(g.chains))
  {
    k := new KeyRec(hasDestructor);
    tls.live := tls.live + {k};
    tls.created := tls.created + [k];
    assert GridOk(g) == old(GridOk(g));
    assert Rests(g.chains) == old(Rests(g.chains));
    EmptyRowIsOk(g, k);
  }

  lemma RestIsDistinct(g: Grid, th: ThreadRec)
    requires GridOk(g) && th in g.chains
    ensures DistinctKeys(Rests(g.chains)[th]) && Within(Rests(g.chains)[th], g.chains[th])
    ensures forall a :: a in g.chains[th] ==> a.thread == th && a in g.assocs
    ensures th.nextAssoc == null <==> Rests(g.chains)[th] == []
    ensures th.nextAssoc != null ==> Rests(g.chains)[th][0] == th.nextAssoc
  {
    assert ChainOf(th, g.chains[th], g.assocs) && ChainOk(th, g.chains[th]);
  }

  lemma AdvanceSkipsFirst(s: seq<Assoc>, i: nat)
    requires DistinctKeys(s) && i < |s|
    ensures From(s, At(s, i + 1)) == From(s, s[i])[1..]
  {
    IndexIsUnique(s, i);
    if i + 1 < |s| {
      IndexIsUnique(s, i + 1);
    }
  }

  /** Puts the cursor of one thread somewhere on its chain; no list changes. */
  method SetCursor(th: ThreadRec, a: Assoc?, ghost g: Grid)
    requires GridOk(g) && th in g.chains && (a == null || a in g.chains[th])
    modifies th`nextAssoc
    ensures GridOk(g) && th.nextAssoc == a
    ensures Rests(g.chains) == old(Rests(g.chains))[th := From(g.chains[th], a)]
  {
    assert ChainOk(th, g.chains[th]);
    th.nextAssoc := a;
    assert RowsOk(g.assocs, g.rows) == old(RowsOk(g.assocs, g.rows));
    forall t | t in g.chains ensures ChainOf(t, g.chains[t], g.assocs) && ChainOk(t, g.chains[t]) {
      assert old(ChainOf(t, g.chains[t], g.assocs) && ChainOk(t, g.chains[t]));
    }
  }

  /** Moves the cursor past the association it is at. */
  method Advance(th: ThreadRec, ghost g: Grid) returns (a: Assoc)
    requires GridOk(g) && th in g.chains && th.nextAssoc != null
    modifies th`nextAssoc
    ensures GridOk(g) && a in g.assocs && a.thread == th
    ensures old(Rests(g.chains))[th] != [] && a == old(Rests(g.chains))[th][0]
    ensures Rests(g.chains) == old(Rests(g.chains))[th := old(Rests(g.chains))[th][1..]]
  {
    RestIsDistinct(g, th);
    ghost var s := g.chains[th];
    a := th.nextAssoc;
    assert ChainOf(th, s, g.assocs) && ChainOk(th, s);
    ghost var i := IndexOf(s, a);
    assert ChainAt(th, s, i);
    AdvanceSkipsFirst(s, i);
    SetCursor(th, a.nextKey, g);
  }

  /** Puts the cursor back on the head of the chain. */
  method Rewind(th: ThreadRec, ghost g: Grid)
    requires GridOk(g) && th in g.chains
    modifies th`nextAssoc
    ensures GridOk(g) && Rests(g.chains) == old(Rests(g.chains))[th := g.chains[th]]
  {
    assert ChainOf(th, g.chains[th], g.assocs) && ChainOk(th, g.chains[th]);
    if th.keys != null {
      IndexIsUnique(g.chains[th], 0);
    }
    SetCursor(th, th.keys, g);
  }

  /** What thread exit sees of the grid: the thread's chain, what is left to scan, and all values. */
  datatype View = View(chain: seq<Assoc>, rest: seq<Assoc>, slots: Slots)

  ghost function ViewOf(tls: Tls, th: ThreadRec, g: Grid): View
    requires th in g.chains
    reads tls, g.chains.Keys`nextAssoc
  {
    View(g.chains[th], Rests(g.chains)[th], tls.slots)
  }

  /** Takes the association at the cursor: moves on, reads the value and clears its slot. */
  method Take(tls: Tls, th: ThreadRec, ghost g: Grid) returns (a: Assoc, value: nat)
    requires Good(tls, g) && th in g.chains && th.nextAssoc != null
    modifies tls`slots, th`nextAssoc
    ensures Good(tls, g) && a in g.assocs && a.thread == th
    ensures old(Rests(g.chains))[th] != [] && a == old(Rests(g.chains))[th][0]
    ensures ViewOf(tls, th, g)
         == View(g.chains[th], old(Rests(g.chains))[th][1..], old(tls.slots)[(th, a.key) := 0])
    ensures value == Slot(old(tls.slots), th, a.key)
    ensures Rests(g.chains) == old(Rests(g.chains))[th := old(Rests(g.chains))[th][1..]]
  {
    a := Advance(th, g);
    value := Slot(tls.slots, th, a.key);
    SetSlot(tls, th, a.key, 0, g);
  }

  lemma RemovalKeepsCovered(slots: Slots, g: Grid, a: Assoc)
    requires Covered(slots, g) && OnBoth(a, g.chains, g.rows) && Slot(slots, a.thread, a.key) == 0
    ensures Covered(slots, Removed(g, a))
    ensures Removed(g, a).chains.Keys == g.chains.Keys && Removed(g, a).rows.Keys == g.rows.Keys
  {
    var s := g.chains[a.thread];
    forall b | b in s && b != a ensures b in Without(s, a) {
      WithoutHolds(s, a, b);
    }
  }

  /** Destroys an association whose value was NULL, or whose destructor may no longer run. */
  method Discard(tls: Tls, a: Assoc, ghost g: Grid)
    requires Good(tls, g) && a in g.assocs && Slot(tls.slots, a.thread, a.key) == 0
    modifies a.thread`keys, a.thread`nextAssoc, a.key`threads
    modifies g.assocs`nextKey, g.assocs`prevKey, g.assocs`nextThread, g.assocs`prevThread
    ensures OnBoth(a, g.chains, g.rows) && Good(tls, Removed(g, a))
    ensures Rests(Removed(g, a).chains)
         == old(Rests(g.chains))[a.thread := Without(old(Rests(g.chains))[a.thread], a)]
  {
    RemovalKeepsCrossing(g, a);
    RemovalKeepsCovered(tls.slots, g, a);
    TkAssocDestroy(a, g);
  }

  method DoSet(tls: Tls, th: ThreadRec, own: bool, who: ThreadRec, k: KeyRec, value: nat, memory: bool, ghost g: Grid)
      returns (ghost g': Grid)
    requires Good(tls, g) && who in g.chains && k in g.rows
    requires th in g.chains && (own || who != th)
    modifies tls, who, k, g.assocs
    ensures Good(tls, g') && Grows(g, g')
    ensures Kept(th, own, g, old(Rests(g.chains)), g', Rests(g'.chains))
  {
    var result;
    result, g' := SetSpecific(tls, who, k, value, memory, g);
    SettingKeeps(th, own, g, Rests(g'.chains), who, k, g');
    if result == Ok {
      SettingKeepsCovered(old(tls.slots), g, who, k, value, g');
    }
  }

  lemma DeletionKeeps(th: ThreadRec, own: bool, g: Grid, rests: Chains, k: KeyRec, g': Grid, rests': Chains)
    requires Deleted(g, rests, k, g', rests') && th in g.chains && rests.Keys == g.chains.Keys
    ensures Kept(th, own, g, rests, g', rests') && g'.chains.Keys == g.chains.Keys
    ensures g'.rows.Keys <= g.rows.Keys && g'.assocs <= g.assocs
  {
    forall a | a in rests'[th] ensures a in rests[th] {
      WithoutKeyHolds(rests[th], k, a);
    }
  }

  method DoDelete(tls: Tls, th: ThreadRec, own: bool, k: KeyRec, ghost g: Grid) returns (ghost g': Grid)
    requires Good(tls, g) && k in g.rows && th in g.chains
    modifies tls, g.chains.Keys, k, g.assocs
    ensures Good(tls, g') && g'.rows.Keys <= g.rows.Keys && g'.assocs <= g.assocs
    ensures Kept(th, own, g, old(Rests(g.chains)), g', Rests(g'.chains)) && g'.chains.Keys == g.chains.Keys
  {
    ghost var rests := Rests(g.chains);
    g' := KeyDelete(tls, k, g);
    ghost var rests' := Rests(g'.chains);
    assert Kept(th, own, g, rests, g', rests') && g'.chains.Keys == g.chains.Keys by {
      DeletionKeeps(th, own, g, rests, k, g', rests');
    }
  }

  /** Another thread's exit handles the association at its cursor. */
  method DoScan(tls: Tls, th: ThreadRec, own: bool, who: ThreadRec, last: bool, ghost g: Grid) returns (ghost g': Grid)
    requires Good(tls, g) && who in g.chains && th in g.chains && who != th
    modifies tls, g.chains.Keys, g.rows.Keys, g.assocs
    ensures Good(tls, g') && Grows(g, g')
    ensures Kept(th, own, g, old(Rests(g.chains)), g', Rests(g'.chains))
  {
    g' := g;
    if who.nextAssoc != null {
      var a, value := Take(tls, who, g);
      if value == 0 || last {
        assert OnBoth(a, g.chains, g.rows);
        Discard(tls, a, g);
        g' := Removed(g, a);
      }
    }
  }

  /** One action; keys that are gone, and numbers that stand for nothing, are not used. */
  method Act(tls: Tls, th: ThreadRec, own: bool, act: Action, ghost g: Grid) returns (ghost g': Grid)
    requires Good(tls, g) && th in g.chains
    modifies tls, g.chains.Keys, g.rows.Keys, g.assocs
    ensures Good(tls, g') && Grows(g, g')
    ensures Kept(th, own, g, old(Rests(g.chains)), g', Rests(g'.chains))
  {
    g' := g;
    match act
    case Set(who, key, value, memory) =>
      if who < |tls.started| && key < |tls.created| && tls.created[key] in tls.live {
        if own || tls.started[who] != th {
          g' := DoSet(tls, th, own, tls.started[who], tls.created[key], value, memory, g);
        }
      }
    case Delete(key) =>
      if key < |tls.created| && tls.created[key] in tls.live {
        g' := DoDelete(tls, th, own, tls.created[key], g);
      }
    case CreateKey(hasDestructor) =>
      var k := KeyCreate(tls, hasDestructor, g);
      g' := WithRow(g, k);
    case StartThread =>
      var t := ThreadStart(tls, g);
      g' := WithChain(g, t);
    case StartPass(who) =>
      if who < |tls.started| && tls.started[who] != th {
        Rewind(tls.started[who], g);
      }
    case Scan(who, last) =>
      if who < |tls.started| && tls.started[who] != th {
        g' := DoScan(tls, th, own, tls.started[who], last, g);
      }
  }

  lemma KeptTwice(th: ThreadRec, own: bool, g: Grid, r: Chains, g1: Grid, r1: Chains, g2: Grid, r2: Chains)
    requires th in g.chains && th in r && Kept(th, own, g, r, g1, r1)
    requires th in r1 && Kept(th, own, g1, r1, g2, r2)
    ensures Kept(th, own, g, r, g2, r2)
  {
  }

  method RunActions(tls: Tls, th: ThreadRec, own: bool, acts: seq<Action>, ghost g: Grid)
      returns (ghost g': Grid)
    requires Good(tls, g) && th in g.chains
    modifies tls, g.chains.Keys, g.rows.Keys, g.assocs
    ensures Good(tls, g') && Grows(g, g')
    ensures Kept(th, own, g, old(Rests(g.chains)), g', Rests(g'.chains))
    ensures acts == [] ==> g' == g && tls.slots == old(tls.slots) && Rests(g.chains) == old(Rests(g.chains))
  {
    if acts == [] {
      g' := g;
    } else {
      ghost var g1 := Act(tls, th, own, acts[0], g);
      ghost var rests := Rests(g1.chains);
      g' := RunActions(tls, th, own, acts[1..], g1);
      KeptTwice(th, own, g, old(Rests(g.chains)), g1, rests, g', Rests(g'.chains));
    }
  }

  /** PTHREAD_DESTRUCTOR_ITERATIONS. */
  const ITERATIONS := 4

  /** A destructor call: the key, the value it was given, and the pass it was made in. */
  datatype Call = Call(key: KeyRec, value: nat, pass: nat)

  /** What becomes of an association that was taken: its destructor is called, or it is destroyed. */
  ghost predicate Handled(v: View, a: Assoc, value: nat, calls: seq<Call>, pass: nat, quiet: bool,
                          v': View, calls': seq<Call>, called: bool)
  {
    && called == (value != 0 && pass <= ITERATIONS)
    && calls' == (if called then calls + [Call(a.key, value, pass)] else calls)
    && |v'.rest| <= |v.rest| && Within(v'.rest, v.rest)
    && (!called ==> v' == View(Without(v.chain, a), v.rest, v.slots))
    && (called && quiet ==> v' == v)
  }

  /** One visit of the scan: the first association left is taken, its slot cleared, and it is handled. */
  ghost predicate Visited(th: ThreadRec, v: View, calls: seq<Call>, pass: nat, quiet: bool,
                          v': View, calls': seq<Call>, called: bool)
    requires v.rest != []
  {
    var a := v.rest[0];
    Handled(View(v.chain, v.rest[1..], v.slots[(th, a.key) := 0]), a, Slot(v.slots, th, a.key),
            calls, pass, quiet, v', calls', called)
  }

  /** What a destructor leaves of what thread exit sees; all of it if the destructor does nothing. */
  ghost predicate Survives(v: View, quiet: bool, v': View) {
    |v'.rest| <= |v.rest| && Within(v'.rest, v.rest) && (quiet ==> v' == v)
  }

  /** The destructor runs with the slot already cleared and both locks released: it may do anything. */
  method CallDestructor(tls: Tls, th: ThreadRec, k: KeyRec, value: nat, pass: nat,
                        calls: seq<Call>, acts: seq<Action>, ghost g: Grid)
      returns (calls': seq<Call>, ghost g': Grid)
    requires Good(tls, g) && th in g.chains
    requires value != 0 && Slot(tls.slots, th, k) == 0 && 1 <= pass <= ITERATIONS
    modifies tls, g.chains.Keys, g.rows.Keys, g.assocs
    ensures Good(tls, g') && Grows(g, g')
    ensures g.chains.Keys <= g'.chains.Keys
    ensures Survives(old(ViewOf(tls, th, g)), acts == [], ViewOf(tls, th, g'))
    ensures calls' == calls + [Call(k, value, pass)]
  {
    calls' := calls + [Call(k, value, pass)];
    g' := RunActions(tls, th, true, acts, g);
  }

  method Handle(tls: Tls, th: ThreadRec, a: Assoc, value: nat, pass: nat,
                calls: seq<Call>, acts: seq<Action>, ghost g: Grid)
      returns (calls': seq<Call>, called: bool, ghost g': Grid)
    requires Good(tls, g) && th in g.chains && pass >= 1
    requires a in g.assocs && a.thread == th && Slot(tls.slots, th, a.key) == 0 && a !in Rests(g.chains)[th]
    modifies tls, g.chains.Keys, g.rows.Keys, g.assocs
    ensures Good(tls, g') && Grows(g, g')
    ensures g.chains.Keys <= g'.chains.Keys
    ensures Handled(old(ViewOf(tls, th, g)), a, value, calls, pass, acts == [], ViewOf(tls, th, g'), calls', called)
  {
    called := value != 0 && pass <= ITERATIONS;
    if called {
      calls', g' := CallDestructor(tls, th, a.key, value, pass, calls, acts, g);
    } else {
      calls' := calls;
      assert OnBoth(a, g.chains, g.rows);
      Discard(tls, a, g);
      g' := Removed(g, a);
    }
  }

  lemma FirstIsOnce(g: Grid, th: ThreadRec)
    requires GridOk(g) && th in g.chains && th.nextAssoc != null
    ensures var rest := Rests(g.chains)[th]; rest != [] && rest[0] !in rest[1..]
  {
    RestIsDistinct(g, th);
  }

  method Visit(tls: Tls, th: ThreadRec, pass: nat,
               calls: seq<Call>, acts: seq<Action>, ghost g: Grid)
      returns (calls': seq<Call>, called: bool, ghost g': Grid)
    requires Good(tls, g) && th in g.chains && th.nextAssoc != null && pass >= 1
    modifies tls, g.chains.Keys, g.rows.Keys, g.assocs
    ensures Good(tls, g') && Grows(g, g')
    ensures g.chains.Keys <= g'.chains.Keys
    ensures old(ViewOf(tls, th, g)).rest != []
    ensures Visited(th, old(ViewOf(tls, th, g)), calls, pass, acts == [], ViewOf(tls, th, g'), calls', called)
  {
    FirstIsOnce(g, th);
    var a, value := Take(tls, th, g);
    calls', called, g' := Handle(tls, th, a, value, pass, calls, acts, g);
  }

  /** What other threads may leave of what thread exit sees. */
  ghost predicate Interfered(v: View, quiet: bool, v': View) {
    Survives(v, quiet, v') && (v.rest == v.chain ==> v'.rest == v'.chain)
  }

  /** While neither lock is held, other threads may act. */
  method LetOthersRun(tls: Tls, th: ThreadRec, acts: seq<Action>, ghost g: Grid)
      returns (ghost g': Grid)
    requires Good(tls, g) && th in g.chains
    modifies tls, g.chains.Keys, g.rows.Keys, g.assocs
    ensures Good(tls, g') && Grows(g, g')
    ensures g.chains.Keys <= g'.chains.Keys
    ensures Interfered(old(ViewOf(tls, th, g)), acts == [], ViewOf(tls, th, g'))
  {
    g' := RunActions(tls, th, false, acts, g);
  }

  // ---- The bookkeeping of the passes, on values ----

  /** Every call is for a value, in one of the allowed passes, and at most once per key and pass. */
  ghost predicate CallsOk(calls: seq<Call>, passes: nat) {
    && (forall c :: c in calls ==> c.value != 0 && 1 <= c.pass <= passes && c.pass <= ITERATIONS)
    && (forall i, j :: 0 <= i < j < |calls| && calls[i].pass == calls[j].pass ==> calls[i].key != calls[j].key)
  }

  /** The calls a thread owes for the values it holds when it exits. */
  ghost function Owed(th: ThreadRec, s: seq<Assoc>, slots: Slots): seq<Call> {
    if s == [] then []
    else
      var value := Slot(slots, th, s[0].key);
      (if value != 0 then [Call(s[0].key, value, 1)] else []) + Owed(th, s[1..], slots)
  }

  lemma {:induction false} OwedIgnores(th: ThreadRec, s: seq<Assoc>, slots: Slots, k: KeyRec)
    requires !HasKey(s, k)
    ensures Owed(th, s, slots[(th, k) := 0]) == Owed(th, s, slots)
  {
    if s != [] {
      assert s[0] in s;
      OwedIgnores(th, s[1..], slots, k);
    }
  }

  ghost predicate Cleared(th: ThreadRec, s: seq<Assoc>, rest: seq<Assoc>, slots: Slots) {
    forall a :: a in s && a !in rest ==> Slot(slots, th, a.key) == 0
  }

  /** With destructors and other threads that do nothing: the first pass makes the owed calls, and
      a second one finds nothing to call. */
  ghost predicate QuietScan(th: ThreadRec, v: View, calls: seq<Call>, pass: nat, remaining: nat, owed: seq<Call>) {
    && (pass == 1 ==> calls + Owed(th, v.rest, v.slots) == owed && Cleared(th, v.chain, v.rest, v.slots))
    && (pass > 1 ==> pass == 2 && calls == owed && remaining == 0 && Cleared(th, v.chain, [], v.slots))
  }

  ghost predicate Scanning(th: ThreadRec, v: View, calls: seq<Call>, pass: nat, remaining: nat,
                           quiet: bool, owed: seq<Call>)
  {
    && CallsOk(calls, pass)
    && (forall c :: c in calls && c.pass == pass ==> !HasKey(v.rest, c.key))
    && (remaining == 0 ==> v.rest == v.chain)
    && (pass > ITERATIONS ==> remaining == 0)
    && (quiet ==> QuietScan(th, v, calls, pass, remaining, owed))
  }

  lemma WithoutFirst(s: seq<Assoc>)
    requires DistinctKeys(s) && s != []
    ensures Without(s, s[0]) == s[1..] && !HasKey(s[1..], s[0].key)
  {
    IndexIsUnique(s, 0);
  }

  lemma VisitKeepsCalls(th: ThreadRec, v: View, calls: seq<Call>, pass: nat, remaining: nat, quiet: bool,
                        idle: bool, owed: seq<Call>, v': View, calls': seq<Call>, called: bool)
    requires Scanning(th, v, calls, pass, remaining, quiet, owed) && pass >= 1
    requires v.rest != [] && DistinctKeys(v.rest)
    requires Visited(th, v, calls, pass, idle, v', calls', called)
    ensures CallsOk(calls', pass)
    ensures forall c :: c in calls' && c.pass == pass ==> !HasKey(v'.rest, c.key)
    ensures !called && remaining == 0 ==> v'.rest == v'.chain
  {
    var a := v.rest[0];
    WithoutFirst(v.rest);
    assert a in v.rest;
    forall c | c in calls' && c.pass == pass ensures !HasKey(v'.rest, c.key) {
      assert c in calls || c.key == a.key;
    }
  }

  lemma OwedAdvances(th: ThreadRec, s: seq<Assoc>, slots: Slots)
    requires s != [] && !HasKey(s[1..], s[0].key)
    ensures var value := Slot(slots, th, s[0].key);
            Owed(th, s, slots) == (if value != 0 then [Call(s[0].key, value, 1)] else [])
                                  + Owed(th, s[1..], slots[(th, s[0].key) := 0])
  {
    OwedIgnores(th, s[1..], slots, s[0].key);
  }

  lemma FirstPassKeepsQuiet(th: ThreadRec, v: View, calls: seq<Call>, remaining: nat,
                            owed: seq<Call>, v': View, calls': seq<Call>, called: bool)
    requires QuietScan(th, v, calls, 1, remaining, owed)
    requires v.rest != [] && DistinctKeys(v.rest) && Within(v.rest, v.chain)
    requires Visited(th, v, calls, 1, true, v', calls', called)
    ensures calls' + Owed(th, v'.rest, v'.slots) == owed && Cleared(th, v'.chain, v'.rest, v'.slots)
  {
    var a := v.rest[0];
    WithoutFirst(v.rest);
    OwedAdvances(th, v.rest, v.slots);
    assert a in v.chain;
    assert Within(Without(v.chain, a), v.chain);
  }

  lemma SecondPassIsQuiet(th: ThreadRec, v: View, calls: seq<Call>, pass: nat, remaining: nat,
                          owed: seq<Call>, v': View, calls': seq<Call>, called: bool)
    requires QuietScan(th, v, calls, pass, remaining, owed) && pass > 1
    requires v.rest != [] && Within(v.rest, v.chain)
    requires Visited(th, v, calls, pass, true, v', calls', called)
    ensures !called && calls' == calls && Cleared(th, v'.chain, [], v'.slots)
  {
    var a := v.rest[0];
    assert a in v.rest && a in v.chain;
    assert Within(Without(v.chain, a), v.chain);
  }

  lemma VisitKeepsQuiet(th: ThreadRec, v: View, calls: seq<Call>, pass: nat, remaining: nat,
                        owed: seq<Call>, v': View, calls': seq<Call>, called: bool)
    requires QuietScan(th, v, calls, pass, remaining, owed) && pass >= 1
    requires v.rest != [] && DistinctKeys(v.rest) && Within(v.rest, v.chain)
    requires Visited(th, v, calls, pass, true, v', calls', called)
    ensures QuietScan(th, v', calls', pass, if called then remaining + 1 else remaining, owed)
  {
    if pass == 1 {
      FirstPassKeepsQuiet(th, v, calls, remaining, owed, v', calls', called);
    } else {
      SecondPassIsQuiet(th, v, calls, pass, remaining, owed, v', calls', called);
    }
  }

  lemma VisitKeepsScanning(th: ThreadRec, v: View, calls: seq<Call>, pass: nat, remaining: nat, quiet: bool,
                           idle: bool, owed: seq<Call>, v': View, calls': seq<Call>, called: bool)
    requires Scanning(th, v, calls, pass, remaining, quiet, owed) && pass >= 1 && (quiet ==> idle)
    requires v.rest != [] && DistinctKeys(v.rest) && Within(v.rest, v.chain)
    requires Visited(th, v, calls, pass, idle, v', calls', called)
    ensures Scanning(th, v', calls', pass, if called then remaining + 1 else remaining, quiet, owed)
  {
    VisitKeepsCalls(th, v, calls, pass, remaining, quiet, idle, owed, v', calls', called);
    if quiet {
      VisitKeepsQuiet(th, v, calls, pass, remaining, owed, v', calls', called);
    }
  }

  lemma OthersKeepScanning(th: ThreadRec, v: View, calls: seq<Call>, pass: nat, remaining: nat, quiet: bool,
                           idle: bool, owed: seq<Call>, v': View)
    requires Scanning(th, v, calls, pass, remaining, quiet, owed) && Interfered(v, idle, v') && (quiet ==> idle)
    ensures Scanning(th, v', calls, pass, remaining, quiet, owed)
  {
  }

  /** The end of one pass and the start of the next. */
  lemma PassStarts(th: ThreadRec, v: View, calls: seq<Call>, pass: nat, remaining: nat, quiet: bool, owed: seq<Call>)
    requires if pass == 0 then calls == [] && owed == Owed(th, v.chain, v.slots)
             else v.rest == [] && remaining > 0 && Scanning(th, v, calls, pass, remaining, quiet, owed)
    ensures Scanning(th, v.(rest := v.chain), calls, pass + 1, 0, quiet, owed)
  {
  }

  /** One iteration of the scan: others may run, then the association at the cursor is visited. */
  method ScanOne(tls: Tls, th: ThreadRec, pass: nat, remaining: nat, calls: seq<Call>,
                 others: seq<Action>, own: seq<Action>, ghost quiet: bool, ghost owed: seq<Call>, ghost g: Grid)
      returns (done: bool, remaining': nat, calls': seq<Call>, ghost g': Grid)
    requires Good(tls, g) && th in g.chains && pass >= 1
    requires quiet ==> others == [] && own == []
    requires Scanning(th, ViewOf(tls, th, g), calls, pass, remaining, quiet, owed)
    modifies tls, g.chains.Keys, g.rows.Keys, g.assocs
    ensures Good(tls, g') && Grows(g, g')
    ensures g.chains.Keys <= g'.chains.Keys
    ensures Scanning(th, ViewOf(tls, th, g'), calls', pass, remaining', quiet, owed)
    ensures if done then ViewOf(tls, th, g').rest == []
            else |ViewOf(tls, th, g').rest| < |old(ViewOf(tls, th, g)).rest|
  {
    calls', remaining', done := calls, remaining, false;
    g' := LetOthersRun(tls, th, others, g);
    ghost var v := ViewOf(tls, th, g');
    OthersKeepScanning(th, old(ViewOf(tls, th, g)), calls, pass, remaining, quiet, others == [], owed, v);
    RestIsDistinct(g', th);
    if th.nextAssoc == null {
      done := true;
    } else {
      var called;
      calls', called, g' := Visit(tls, th, pass, calls, own, g');
      VisitKeepsScanning(th, v, calls, pass, remaining, quiet, own == [], owed, ViewOf(tls, th, g'), calls', called);
      if called {
        remaining' := remaining + 1;
      }
    }
  }

  ghost predicate Idle(script: nat -> seq<Action>) {
    forall n :: script(n) == []
  }

  /** What holds before each pass, and at the end when `remaining` is 0. */
  ghost predicate BetweenPasses(th: ThreadRec, v: View, calls: seq<Call>, passes: nat, remaining: nat,
                                quiet: bool, owed: seq<Call>)
  {
    if passes == 0 then calls == [] && remaining > 0 && owed == Owed(th, v.chain, v.slots)
    else passes <= ITERATIONS + 1 && v.rest == [] && Scanning(th, v, calls, passes, remaining, quiet, owed)
  }

  /** One pass over the chain, from its head until the cursor runs off its end. */
  method RunPass(tls: Tls, th: ThreadRec, pass: nat, before: nat, calls: seq<Call>, step: nat,
                 others: nat -> seq<Action>, own: nat -> seq<Action>,
                 ghost quiet: bool, ghost owed: seq<Call>, ghost g: Grid)
      returns (remaining: nat, calls': seq<Call>, step': nat, ghost g': Grid)
    requires Good(tls, g) && th in g.chains && pass >= 1 && before > 0
    requires quiet ==> Idle(others) && Idle(own)
    requires BetweenPasses(th, ViewOf(tls, th, g), calls, pass - 1, before, quiet, owed)
    modifies tls, g.chains.Keys, g.rows.Keys, g.assocs
    ensures Good(tls, g') && Grows(g, g')
    ensures g.chains.Keys <= g'.chains.Keys
    ensures BetweenPasses(th, ViewOf(tls, th, g'), calls', pass, remaining, quiet, owed)
  {
    PassStarts(th, ViewOf(tls, th, g), calls, pass - 1, before, quiet, owed);
    Rewind(th, g);
    remaining, calls', step', g' := 0, calls, step, g;
    var done := false;
    while !done
      invariant Good(tls, g') && Grows(g, g')
      invariant g.chains.Keys <= g'.chains.Keys
      invariant Scanning(th, ViewOf(tls, th, g'), calls', pass, remaining, quiet, owed)
      invariant done ==> ViewOf(tls, th, g').rest == []
      decreases !done, |ViewOf(tls, th, g').rest|
    {
      done, remaining, calls', g' :=
        ScanOne(tls, th, pass, remaining, calls', others(step'), own(step'), quiet, owed, g');
      step' := step' + 1;
    }
  }

  /** A thread's exit.  `others` and `own` say what other threads, and the destructors, do at each
      step; whatever it is, the passes end, and no value with a destructor is left behind. */
  method CallUserDestroyRoutines(tls: Tls, th: ThreadRec,
                                 others: nat -> seq<Action>, own: nat -> seq<Action>, ghost g: Grid)
      returns (calls: seq<Call>, passes: nat, ghost g': Grid)
    requires Good(tls, g) && th in g.chains
    modifies tls, g.chains.Keys, g.rows.Keys, g.assocs
    ensures Good(tls, g') && g.chains.Keys <= g'.chains.Keys && g'.chains[th] == []
    ensures forall k :: k in g'.rows && k.hasDestructor ==> Slot(tls.slots, th, k) == 0
    ensures 1 <= passes <= ITERATIONS + 1 && CallsOk(calls, passes)
    ensures Idle(others) && Idle(own) ==> calls == Owed(th, g.chains[th], old(tls.slots)) && passes <= 2
  {
    ghost var quiet := Idle(others) && Idle(own);
    ghost var owed := Owed(th, g.chains[th], tls.slots);
    var remaining, step := 1, 0;
    calls, passes, g' := [], 0, g;
    while remaining > 0
      invariant Good(tls, g') && Grows(g, g')
      invariant g.chains.Keys <= g'.chains.Keys
      invariant BetweenPasses(th, ViewOf(tls, th, g'), calls, passes, remaining, quiet, owed)
      decreases ITERATIONS + 1 - passes
    {
      passes := passes + 1;
      remaining, calls, step, g' :=
        RunPass(tls, th, passes, remaining, calls, step, others, own, quiet, owed, g');
    }
  }
}
