/** The pool of thread structs: structs are never freed, and each reuse bumps a counter in the
handle, which is how a stale copy of a handle is told from a live one.

`generation` counts the bumps of a struct without the counter's wrap-around, `queue` is the pool
as a sequence, and `issued` lists every handle that was ever given out.
*/
module ThreadPool {

  datatype State = Initial | Running | Reuse

  /** A link of the pool: NULL, the end mark, or a struct. */
  datatype Link = Null | End | To(struct: ThreadStruct)

  /** A copy of a thread's handle; Nil is the handle with a NULL pointer. */
  datatype Handle = Nil | Handle(p: ThreadStruct, x: nat)

  class ThreadStruct {
    var x: nat
    var prevReuse: Link
    var state: State
    var seqNumber: nat
    var threadH: nat
    var cancelEvent: nat
    ghost var generation: nat

    constructor ()
      ensures x == 0 && prevReuse == Null && state == Initial && seqNumber == 0 && threadH == 0 && cancelEvent == 0
      ensures generation == 0
    {
      x, prevReuse, state, seqNumber, threadH, cancelEvent := 0, Null, Initial, 0, 0, 0;
      generation := 0;
    }
  }

  /** A handle (p, x) that was given out, with the generation of its struct at that time. */
  datatype Issue = Issue(p: ThreadStruct, x: nat, generation: nat)

  /** The counter's value in a generation. */
  ghost function Counter(generation: nat, increment: nat, word: nat): nat
    requires word > 0
  {
    generation * increment % word
  }

  // ---------------------------------------------------------------------------------------
  // When the counter repeats
  // ---------------------------------------------------------------------------------------

  lemma AtLeastOne(word: int, m: int)
    requires word > 0 && m >= 1
    ensures word * m >= word
  {
  }

  /** No multiple of `word` but 0 lies strictly between `-word` and `word`. */
  lemma OnlyZero(word: int, m: int)
    requires word > 0 && -word < word * m < word
    ensures m == 0
  {
    if m >= 1 {
      AtLeastOne(word, m);
    } else if m <= -1 {
      AtLeastOne(word, -m);
    }
  }

  lemma SameRemainder(a: int, b: int, word: int)
    requires word > 0
    ensures a % word == b % word <==> (b - a) % word == 0
  {
    var qa, qb, q := a / word, b / word, (b - a) / word;
    assert a == word * qa + a % word && b == word * qb + b % word;
    assert b - a == word * q + (b - a) % word;
    var m := q - (qb - qa);
    assert word * m == b % word - a % word - (b - a) % word;
    if a % word == b % word || (b - a) % word == 0 {
      OnlyZero(word, m);
    }
  }

  /** Two generations have the same counter exactly if their distance, times the increment, is a
      multiple of the word. */
  lemma CounterRepeats(g: nat, g': nat, increment: nat, word: nat)
    requires word > 0
    ensures Counter(g, increment, word) == Counter(g', increment, word) <==> (g' - g) * increment % word == 0
  {
    SameRemainder(g * increment, g' * increment, word);
    assert (g' - g) * increment == g' * increment - g * increment;
  }

  /** Before the counter has gone round once, no two generations share it. */
  lemma CounterIsUnique(g: nat, g': nat, increment: nat, word: nat)
    requires word > 0 && increment > 0 && g < g' && g' * increment < word
    ensures Counter(g, increment, word) != Counter(g', increment, word)
  {
    AtLeastOne(increment, g' - g);
    assert increment * (g' - g) == g' * increment - g * increment;
    Small(g * increment, word);
    Small(g' * increment, word);
  }

  lemma Small(a: nat, word: nat)
    requires a < word
    ensures a % word == a
  {
  }

  // ---------------------------------------------------------------------------------------
  // The pool
  // ---------------------------------------------------------------------------------------

  ghost function LinkAt(q: seq<ThreadStruct>, i: int): Link {
    if 0 <= i < |q| then To(q[i]) else End
  }

  ghost predicate Distinct(q: seq<ThreadStruct>) {
    forall i, j :: 0 <= i < j < |q| ==> q[i] != q[j]
  }

  ghost predicate LinkedAt(q: seq<ThreadStruct>, i: nat)
    requires i < |q|
    reads q[i]
  {
    q[i].prevReuse == LinkAt(q, i + 1)
  }

  class Pool {
    const word: nat
    const increment: nat
    var top: Link
    var bottom: Link
    var seqNumber: nat
    ghost var all: set<ThreadStruct>
    ghost var queue: seq<ThreadStruct>
    ghost var issued: seq<Issue>

    /** The pool is a queue: linked from `top` to `bottom`, both of which are End exactly if it is empty. */
    ghost predicate Queued()
      reads this, all
    {
      && (forall t :: t in queue ==> t in all)
      && Distinct(queue)
      && (forall i :: 0 <= i < |queue| ==> LinkedAt(queue, i))
      && top == LinkAt(queue, 0)
      && bottom == LinkAt(queue, |queue| - 1)
    }

    ghost predicate Counted()
      reads this, all
    {
      word > 0 && forall t :: t in all ==> t.x == Counter(t.generation, increment, word)
    }

    ghost predicate IssueOk(i: Issue)
      requires word > 0
      reads this, all
    {
      && i.p in all && i.x == Counter(i.generation, increment, word)
      && i.generation <= i.p.generation
      && (i.p in queue ==> i.generation < i.p.generation)
    }

    /** A struct's handles are issued in ever later generations; a pooled struct is past all of its. */
    ghost predicate IssuesOk()
      requires word > 0
      reads this, all
    {
      && (forall i :: 0 <= i < |issued| ==> IssueOk(issued[i]))
      && (forall i, j :: 0 <= i < j < |issued| && issued[i].p == issued[j].p ==>
            issued[i].generation < issued[j].generation)
    }

    /** Every struct that is not pooled is live: its present handle was issued. */
    ghost predicate Live(t: ThreadStruct)
      reads this, t
    {
      t !in queue && exists i :: 0 <= i < |issued| && issued[i].p == t && issued[i].generation == t.generation
    }

    ghost predicate Valid()
      reads this, all
    {
      && Queued() && Counted() && IssuesOk()
      && forall t :: t in all && t !in queue ==> Live(t)
    }

    constructor (word: nat, increment: nat)
      requires word > 0
      ensures this.word == word && this.increment == increment
      ensures Valid() && all == {} && queue == [] && issued == []
    {
      this.word, this.increment := word, increment;
      top, bottom, seqNumber := End, End, 0;
      all, queue, issued := {}, [], [];
    }

    /** Takes the struct that has been in the pool the longest, if any. */
    method ReusePop() returns (h: Handle)
      requires Queued()
      modifies this`top, this`bottom, this`queue, all`prevReuse
      ensures Queued()
      ensures old(queue) == [] ==> h == Nil && queue == []
      ensures old(queue) != [] ==> queue == old(queue)[1..] && h == Handle(old(queue)[0], old(queue)[0].x)
      ensures h != Nil ==> h.p !in queue && h.p.prevReuse == Null
    {
      h := Nil;
      if top != End {
        var tp := top.struct;
        assert LinkedAt(queue, 0);
        top := tp.prevReuse;
        if top == End {
          bottom := End;
        }
        tp.prevReuse := Null;
        h := Handle(tp, tp.x);
        queue := queue[1..];
        forall i | 0 <= i < |queue| ensures LinkedAt(queue, i) {
          assert old(LinkedAt(queue, i + 1));
        }
      }
    }

    /** Wipes a struct, all but its handle, and bumps its counter. */
    method Wipe(tp: ThreadStruct)
      requires Counted() && tp in all
      modifies tp
      ensures Counted() && tp.generation == old(tp.generation) + 1 && tp.state == Reuse
      ensures tp.seqNumber == 0 && tp.threadH == 0 && tp.cancelEvent == 0
    {
      var x := tp.x;
      tp.x, tp.prevReuse, tp.state, tp.seqNumber, tp.threadH, tp.cancelEvent := 0, Null, Initial, 0, 0, 0;
      tp.x := (x + increment) % word;
      tp.generation := tp.generation + 1;
      CounterAdvances(tp.generation - 1, increment, word);
      tp.state := Reuse;
    }

    /** Wipes a struct, bumps its counter and puts it at the end of the pool. */
    method ReusePush(tp: ThreadStruct)
      requires Queued() && Counted() && tp in all && tp !in queue
      modifies this`top, this`bottom, this`queue, all`prevReuse, tp
      ensures Queued() && Counted() && queue == old(queue) + [tp]
      ensures tp.generation == old(tp.generation) + 1 && tp.state == Reuse
      ensures tp.seqNumber == 0 && tp.threadH == 0 && tp.cancelEvent == 0
    {
      Wipe(tp);
      tp.prevReuse := End;
      if bottom != End {
        bottom.struct.prevReuse := To(tp);
      } else {
        top := To(tp);
      }
      bottom := To(tp);
      queue := queue + [tp];
      forall i | 0 <= i < |queue| ensures LinkedAt(queue, i) {
        assert i < |old(queue)| ==> old(LinkedAt(queue, i));
      }
    }

    /** All is well but for `tp`, which is neither in the pool nor live. */
    ghost predicate ValidBut(tp: ThreadStruct)
      reads this, all
    {
      && Queued() && Counted() && IssuesOk()
      && tp in all && tp !in queue
      && (forall i :: 0 <= i < |issued| && issued[i].p == tp ==> issued[i].generation < tp.generation)
      && forall t :: t in all && t !in queue && t != tp ==> Live(t)
    }

    /** What a popped struct leaves behind. */
    lemma KeepOthers(h: Handle, was: seq<ThreadStruct>)
      requires Queued() && Counted() && IssuesOk() && h.Handle? && h.p in all && h.p !in queue
      requires was == [h.p] + queue && forall t :: t in all && t !in was ==> Live(t)
      requires forall i :: 0 <= i < |issued| && issued[i].p == h.p ==> issued[i].generation < h.p.generation
      ensures ValidBut(h.p)
    {
      forall t | t in all && t !in queue && t != h.p ensures Live(t) {
        assert t !in was;
      }
    }

    /** Makes a new struct. */
    method Allocate() returns (tp: ThreadStruct)
      requires Valid()
      modifies this`all
      ensures fresh(tp) && tp.x == 0 && tp.generation == 0 && all == old(all) + {tp} && ValidBut(tp)
    {
      tp := new ThreadStruct();
      all := all + {tp};
      Small(0, word);
      forall i | 0 <= i < |queue| ensures LinkedAt(queue, i) {
        assert old(LinkedAt(queue, i));
      }
      forall i | 0 <= i < |issued| ensures IssueOk(issued[i]) {
        assert old(IssueOk(issued[i]));
      }
      forall t | t in all && t !in queue && t != tp ensures Live(t) {
        assert old(Live(t));
      }
    }

    /** Sets the default state. */
    method SetUp(tp: ThreadStruct, event: nat)
      requires ValidBut(tp)
      modifies this`seqNumber, tp`seqNumber, tp`cancelEvent
      ensures ValidBut(tp) && tp.cancelEvent == event && tp.seqNumber == seqNumber
    {
      seqNumber := (seqNumber + 1) % 0x1_0000_0000_0000_0000;
      tp.seqNumber := seqNumber;
      tp.cancelEvent := event;
      assert ValidBut(tp) == old(ValidBut(tp));
    }

    /** The struct goes back to the pool if its event could not be made; else its handle is issued. */
    method Finish(h: Handle, event: nat) returns (h': Handle)
      requires h.Handle? && ValidBut(h.p) && h.x == h.p.x
      modifies this, all
      ensures Valid() && all == old(all)
      ensures if event == 0 then h' == Nil && issued == old(issued) && queue == old(queue) + [h.p]
              else h' == h && issued == old(issued) + [Issue(h.p, h.x, h.p.generation)] && queue == old(queue)
      ensures event != 0 ==> h.p.x == h.x && h.p.cancelEvent == event && h.p.seqNumber == seqNumber
      ensures event != 0 ==> forall t :: t in all ==> t.generation == old(t.generation)
    {
      h' := h;
      SetUp(h.p, event);
      if event == 0 {
        Recycle(h.p);
        h' := Nil;
      } else {
        Grant(h);
      }
    }

    lemma NotInRest(t: ThreadStruct, was: seq<ThreadStruct>, first: ThreadStruct)
      requires was == [first] + queue && t !in was
      ensures t !in queue
    {
    }

    /** The oldest struct of the pool, or else a new one, if there is memory; it is not live yet. */
    method Obtain(memory: bool) returns (h: Handle)
      requires Valid()
      modifies this, all
      ensures h == Nil <==> old(queue) == [] && !memory
      ensures h == Nil ==> Valid() && queue == [] && all == old(all)
      ensures h != Nil ==> ValidBut(h.p) && h.x == h.p.x
      ensures h != Nil && old(queue) != [] ==> h.p == old(queue)[0] && queue == old(queue)[1..] && all == old(all)
      ensures h != Nil && old(queue) == [] ==>
                fresh(h.p) && h.x == 0 && h.p.generation == 0 && queue == [] && all == old(all) + {h.p}
      ensures issued == old(issued) && seqNumber == old(seqNumber)
      ensures forall t :: t in old(all) ==> t.generation == old(t.generation)
    {
      h := ReusePop();
      if h != Nil {
        assert old(queue) == [h.p] + queue;
        forall t | t in all && t !in old(queue) ensures Live(t) {
          assert old(Live(t));
          NotInRest(t, old(queue), h.p);
        }
        KeepOthers(h, old(queue));
      } else if memory {
        var tp := Allocate();
        h := Handle(tp, 0);
      }
    }

    /** A thread gets a struct: the oldest in the pool, or else a new one.  Making it may fail for
        want of memory or of an event; then no handle is issued. */
    method New(memory: bool, event: nat) returns (h: Handle)
      requires Valid()
      modifies this, all
      ensures Valid() && old(all) <= all && forall t :: t in all && t !in old(all) ==> fresh(t)
      ensures h == Nil <==> event == 0 || (old(queue) == [] && !memory)
      ensures issued == if h == Nil then old(issued) else old(issued) + [Issue(h.p, h.x, h.p.generation)]
      ensures h != Nil ==> h.p.x == h.x && queue == (if old(queue) == [] then [] else old(queue)[1..])
      ensures h != Nil ==> if old(queue) == [] then fresh(h.p) && h.x == 0 else h.p == old(queue)[0]
      ensures h != Nil ==> h.p.cancelEvent == event && h.p.seqNumber == seqNumber
      ensures h != Nil ==> h.p in all && forall t :: t in old(all) ==> t.generation == old(t.generation)
      ensures h != Nil && old(queue) == [] ==> h.p.generation == 0 && all == old(all) + {h.p}
      ensures h != Nil && old(queue) != [] ==> all == old(all)
      ensures h == Nil && old(queue) != [] ==> queue == old(queue)[1..] + [old(queue)[0]]
      ensures h == Nil && old(queue) == [] ==> |queue| == if memory then 1 else 0
    {
      h := Obtain(memory);
      if h != Nil {
        h := Finish(h, event);
      }
    }

    /** A struct that is not live goes back to the pool. */
    method Recycle(tp: ThreadStruct)
      requires ValidBut(tp)
      modifies this`top, this`bottom, this`queue, all`prevReuse, tp
      ensures Valid() && queue == old(queue) + [tp]
    {
      ReusePush(tp);
      forall i | 0 <= i < |issued| ensures IssueOk(issued[i]) {
        assert old(IssueOk(issued[i]));
      }
      forall t | t in all && t !in queue ensures Live(t) {
        assert old(Live(t));
      }
    }

    /** Records that a handle is given out: its struct is now live. */
    ghost method Grant(h: Handle)
      requires h.Handle? && ValidBut(h.p) && h.x == h.p.x
      modifies this`issued
      ensures Valid() && issued == old(issued) + [Issue(h.p, h.x, h.p.generation)]
    {
      issued := issued + [Issue(h.p, h.x, h.p.generation)];
      assert issued[|issued| - 1].p == h.p;
      forall i | 0 <= i < |issued| - 1 ensures IssueOk(issued[i]) {
        assert old(IssueOk(issued[i]));
      }
      forall t | t in all && t !in queue ensures Live(t) {
        if t != h.p {
          assert old(Live(t));
          var i :| 0 <= i < |old(issued)| && old(issued)[i].p == t && old(issued)[i].generation == t.generation;
          assert issued[i] == old(issued)[i];
        }
      }
    }

    /** A thread's struct goes back to the pool; the system handles it held are closed. */
    method Destroy(h: Handle) returns (closed: seq<nat>)
      requires Valid() && (h == Nil || (h.p in all && h.p !in queue))
      modifies this, all
      ensures Valid() && all == old(all) && issued == old(issued)
      ensures h == Nil ==> queue == old(queue) && closed == []
      ensures h != Nil ==> queue == old(queue) + [h.p] && h.p.generation == old(h.p.generation) + 1
      ensures h != Nil ==> forall c :: c in closed <==> c != 0 && (c == old(h.p.cancelEvent) || c == old(h.p.threadH))
      ensures forall t :: t in all && (h == Nil || t != h.p) ==> t.x == old(t.x) && t.generation == old(t.generation)
    {
      closed := [];
      if h != Nil {
        var tp := h.p;
        var threadH, cancelEvent := tp.threadH, tp.cancelEvent;
        ReusePush(tp);
        if cancelEvent != 0 {
          closed := closed + [cancelEvent];
        }
        if threadH != 0 {
          closed := closed + [threadH];
        }
      }
    }
  }

  lemma CounterAdvances(g: nat, increment: nat, word: nat)
    requires word > 0
    ensures (Counter(g, increment, word) + increment) % word == Counter(g + 1, increment, word)
  {
    var a := g * increment;
    assert (g + 1) * increment == a + increment;
    assert a == word * (a / word) + a % word;
    var m := a / word;
    SameRemainder(a % word + increment, a + increment, word);
    assert a + increment - (a % word + increment) == word * m;
    MultipleOf(word, m);
  }

  lemma MultipleOf(word: int, m: int)
    requires word > 0
    ensures word * m % word == 0
  {
    var r, q := word * m % word, word * m / word;
    assert word * m == word * q + r;
    assert word * (m - q) == r;
    OnlyZero(word, m - q);
  }

  // ---------------------------------------------------------------------------------------
  // What the handles tell
  // ---------------------------------------------------------------------------------------

  /** Two issued handles are equal exactly if they are of one struct, a number of generations apart
      that the counter cannot tell from none. */
  lemma HandlesAreEqualWhen(pool: Pool, i: nat, j: nat)
    requires pool.Valid() && i < j < |pool.issued|
    ensures var a, b := pool.issued[i], pool.issued[j];
            Handle(a.p, a.x) == Handle(b.p, b.x)
            <==> a.p == b.p && (b.generation - a.generation) * pool.increment % pool.word == 0
  {
    var a, b := pool.issued[i], pool.issued[j];
    assert pool.IssueOk(a) && pool.IssueOk(b);
    CounterRepeats(a.generation, b.generation, pool.increment, pool.word);
  }

  /** Before any counter has gone round, no two issued handles are equal. */
  lemma HandlesAreUnique(pool: Pool, i: nat, j: nat)
    requires pool.Valid() && i < j < |pool.issued| && pool.increment > 0
    requires forall t :: t in pool.all ==> t.generation * pool.increment < pool.word
    ensures Handle(pool.issued[i].p, pool.issued[i].x) != Handle(pool.issued[j].p, pool.issued[j].x)
  {
    var a, b := pool.issued[i], pool.issued[j];
    assert pool.IssueOk(a) && pool.IssueOk(b);
    if a.p == b.p {
      Monotone(b.generation, b.p.generation, pool.increment);
      CounterIsUnique(a.generation, b.generation, pool.increment, pool.word);
    }
  }

  lemma Monotone(a: nat, b: nat, c: nat)
    requires a <= b
    ensures a * c <= b * c
  {
  }

  /** A copy differs from its struct's present handle exactly if the thread it was issued to has been
      destroyed; this is so as long as the counter has not gone round since. */
  lemma StaleCopiesShow(pool: Pool, i: nat)
    requires pool.Valid() && i < |pool.issued| && pool.increment > 0
    requires var a := pool.issued[i]; (a.p.generation - a.generation) * pool.increment < pool.word
    ensures var a := pool.issued[i]; a.x != a.p.x <==> (a.p in pool.queue || a.generation < a.p.generation)
  {
    var a := pool.issued[i];
    assert pool.IssueOk(a);
    var d := a.p.generation - a.generation;
    CounterRepeats(a.generation, a.p.generation, pool.increment, pool.word);
    if d > 0 {
      AtLeastOne(pool.increment, d);
      Small(d * pool.increment, pool.word);
    }
  }

  /** At any time: the copy differs exactly if the bumps since then do not add up to a multiple of the word. */
  lemma StaleCopiesShowWhen(pool: Pool, i: nat)
    requires pool.Valid() && i < |pool.issued|
    ensures var a := pool.issued[i];
            a.x != a.p.x <==> (a.p.generation - a.generation) * pool.increment % pool.word != 0
  {
    var a := pool.issued[i];
    assert pool.IssueOk(a);
    CounterRepeats(a.generation, a.p.generation, pool.increment, pool.word);
  }

  /** The counter after `b` more bumps than gave `a`: it grows unless it goes round. */
  lemma CounterGrowsWhen(a: nat, b: nat, word: nat)
    requires word > 0 && a <= b
    ensures var d := (b - a) % word; a % word < b % word <==> d != 0 && a % word + d < word
  {
    var x, d := a % word, (b - a) % word;
    RemaindersAdd(a, b - a, word);
    assert (x + d) % word == b % word;
    if x + d < word {
      Small(x + d, word);
    } else {
      SameRemainder(x + d - word, x + d, word);
      MultipleOf(word, 1);
      Small(x + d - word, word);
    }
  }

  lemma RemaindersAdd(a: nat, c: nat, word: nat)
    requires word > 0
    ensures (a % word + c % word) % word == (a + c) % word
  {
    Quotients(a, c, word, a / word, c / word, a % word, c % word);
  }

  lemma Quotients(a: int, c: int, word: nat, q: int, q': int, r: int, r': int)
    requires word > 0 && a == word * q + r && c == word * q' + r'
    ensures (r + r') % word == (a + c) % word
  {
    assert word * q + word * q' == word * (q + q');
    MultipleOf(word, q + q');
    SameRemainder(r + r', a + c, word);
  }

  /** A copy is smaller than its struct's present handle, as a stale one is documented to be, exactly
      if the bumps since then neither add up to a multiple of the word nor take the counter past it. */
  lemma StaleCopiesAreSmallerWhen(pool: Pool, i: nat)
    requires pool.Valid() && i < |pool.issued|
    ensures var a := pool.issued[i];
            var d := (a.p.generation - a.generation) * pool.increment % pool.word;
            a.x < a.p.x <==> d != 0 && a.x + d < pool.word
  {
    var a := pool.issued[i];
    assert pool.IssueOk(a);
    var n, n' := a.generation * pool.increment, a.p.generation * pool.increment;
    assert n' - n == (a.p.generation - a.generation) * pool.increment;
    Monotone(a.generation, a.p.generation, pool.increment);
    CounterGrowsWhen(n, n', pool.word);
  }

  /** The last value of a counter before it goes round is larger than the next. */
  lemma LastCounterIsLargest(word: nat)
    requires word > 1
    ensures Counter(word - 1, 1, word) > Counter(word, 1, word)
  {
    Small(word - 1, word);
    MultipleOf(word, 1);
  }

  /** Once a struct has been reused as often as the counter has values, the counter is back where it was. */
  lemma CounterGoesRound(g: nat, increment: nat, word: nat)
    requires word > 0
    ensures Counter(g, increment, word) == Counter(g + word, increment, word)
  {
    MultipleOf(word, increment);
    CounterRepeats(g, g + word, increment, word);
  }

  /** A thread that is destroyed and created anew `times` times, all in one struct: the handles of the
      first, the last but one and the last. */
  method Reuse(word: nat, increment: nat, times: nat)
      returns (pool: Pool, first: Handle, last: Handle, present: Handle)
    requires word > 0 && times > 0
    ensures fresh(pool) && pool.word == word && pool.increment == increment && pool.Valid()
    ensures first != Nil && last != Nil && present != Nil && first.p == last.p == present.p
    ensures pool.all == {present.p} && pool.queue == [] && present.p.generation == times
    ensures |pool.issued| == times + 1 && pool.issued[0] == Issue(first.p, first.x, 0)
    ensures pool.issued[times - 1] == Issue(last.p, last.x, times - 1)
    ensures pool.issued[times] == Issue(present.p, present.x, times)
  {
    pool := new Pool(word, increment);
    first := pool.New(true, 1);
    last, present := first, first;
    var n := 0;
    while n < times
      invariant n <= times && fresh(pool) && pool.Valid() && first != Nil && last != Nil && present != Nil
      invariant first.p == last.p == present.p && fresh(first.p)
      invariant pool.all == {first.p} && pool.queue == [] && first.p.generation == n && |pool.issued| == n + 1
      invariant pool.issued[0] == Issue(first.p, first.x, 0) && pool.issued[n] == Issue(present.p, present.x, n)
      invariant n > 0 ==> pool.issued[n - 1] == Issue(last.p, last.x, n - 1)
    {
      var closed := pool.Destroy(present);
      last := present;
      present := pool.New(true, 1);
      n := n + 1;
    }
  }

  /** Stale copies that do not show, or are larger, for every size of the counter.  The first handle of
      a struct equals the one issued after `word` reuses, when its own thread is long gone; and with
      increments of 1 the one issued just before, just as stale, is larger than the present one. */
  method StaleCopiesCanMislead(word: nat, increment: nat)
      returns (pool: Pool, first: Handle, last: Handle, present: Handle)
    requires word > 0
    ensures fresh(pool) && pool.word == word && pool.increment == increment && pool.Valid()
    ensures first != Nil && last != Nil && present != Nil && first.p == last.p == present.p
    ensures pool.all == {present.p} && pool.queue == [] && present.p.generation == word
    ensures |pool.issued| == word + 1 && pool.issued[0] == Issue(first.p, first.x, 0)
    ensures pool.issued[word - 1] == Issue(last.p, last.x, word - 1)
    ensures pool.issued[word] == Issue(present.p, present.x, word)
    ensures first == present
    ensures increment == 1 && word > 1 ==> last.x > present.x
  {
    pool, first, last, present := Reuse(word, increment, word);
    assert pool.IssueOk(pool.issued[0]) && pool.IssueOk(pool.issued[word - 1]) && pool.IssueOk(pool.issued[word]);
    CounterGoesRound(0, increment, word);
    if increment == 1 && word > 1 {
      LastCounterIsLargest(word);
    }
  }
}
