/** The MCS queue lock with blocking waiters.

Nodes live at addresses 0, 1, 2, ... and threads are numbered likewise.  Every Interlocked
operation, every plain access to a node another thread may reach, and every event operation
is one atomic step.  Three fields of `State` are history that the code does not have:
`queue`, the nodes from the owner to the tail; `order`, the threads in the order of their
tail exchanges; and `acquired`, the threads in the order in which they got the lock.
*/
module McsLock {
  import opened ThreadCounts
  import Runs

  /** A pointer to a node. */
  datatype Ptr = Null | To(node: nat)

  /** A handshake flag: 0, -1, or the handle of an event that thread `waiter` created. */
  datatype Flag = Clear | Set | Handle(waiter: nat)

  datatype Node = Node(next: Ptr, nextFlag: Flag, readyFlag: Flag)

  const FRESH := Node(Null, Clear, Clear)

  /** Where a thread is; `n` is the node it passed in. */
  datatype PC =
    | Idle
      // __ptw32_mcs_lock_acquire
    | AcqSwap(n: nat)                   // exchange the tail
    | AcqLink(n: nat, pred: nat)        // pred->next = node
    | AcqTell(n: nat, pred: nat)        // flag_set(&pred->nextFlag): its compare-exchange
    | AcqTellEvent(n: nat, waiter: nat) //   its SetEvent
    | AcqCheck(n: nat)                  // flag_wait(&node->readyFlag): its read
    | AcqStore(n: nat)                  //   its compare-exchange of a new event
    | AcqBlock(n: nat)                  //   its WaitForSingleObject
    | TrySwap(n: nat)                   // __ptw32_mcs_lock_try_acquire
    | Held(n: nat)                      // the caller's critical section
      // __ptw32_mcs_lock_release
    | RelRead(n: nat)                   // read node->next
    | RelSwap(n: nat)                   // compare-exchange the tail
    | RelCheck(n: nat, known: Ptr)      // flag_wait(&node->nextFlag), as above
    | RelStore(n: nat, known: Ptr)
    | RelBlock(n: nat, known: Ptr)
    | RelReread(n: nat)                 // read node->next again
    | RelPass(n: nat, succ: nat)        // flag_set(&next->readyFlag)
    | RelPassEvent(n: nat, waiter: nat)
      // __ptw32_mcs_node_transfer; `n` is the old node
    | MovSwap(n: nat, dest: nat)        // compare-exchange the tail
    | MovSpin(n: nat, dest: nat)        // while old_node->next is 0, yield
    | MovCheck(n: nat, dest: nat)       // flag_wait(&old_node->nextFlag)
    | MovStore(n: nat, dest: nat)
    | MovBlock(n: nat, dest: nat)
    | MovCopyNext(n: nat, dest: nat)
    | MovCopyFlag(n: nat, dest: nat, copied: Ptr) // `copied`: the next pointer just copied

  /** Who may use a node: nobody, a thread, or whoever comes to release it. */
  datatype User = Free | Thread(t: nat) | Parked

  datatype State = State(
    tail: Ptr,
    nodes: seq<Node>,
    users: seq<User>,
    events: seq<bool>,
    queue: seq<nat>,
    order: seq<nat>,
    acquired: seq<nat>,
    pcs: seq<PC>)

  predicate InQueue(p: PC) {
    !p.Idle? && !p.AcqSwap? && !p.TrySwap?
  }

  predicate Moving(p: PC) {
    p.MovSwap? || p.MovSpin? || p.MovCheck? || p.MovStore? || p.MovBlock? || p.MovCopyNext? || p.MovCopyFlag?
  }

  /** Queued, and not yet the owner. */
  predicate Waiting(p: PC) {
    p.AcqLink? || p.AcqTell? || p.AcqTellEvent? || p.AcqCheck? || p.AcqStore? || p.AcqBlock?
  }

  /** Owner of the lock: in the critical section, releasing, or moving its node. */
  predicate Owns(p: PC) {
    InQueue(p) && !Waiting(p)
  }

  // ---------------------------------------------------------------------------------------
  // Steps
  // ---------------------------------------------------------------------------------------

  /** The indices that the steps of a thread at `p` use are in range. */
  predicate InRange(s: State, p: PC) {
    && |s.users| == |s.nodes|
    && |s.events| == |s.pcs|
    && (p != Idle ==> p.n < |s.nodes|)
    && (Moving(p) ==> p.dest < |s.nodes|)
    && (p.AcqLink? || p.AcqTell? ==> p.pred < |s.nodes|)
    && (p.AcqTellEvent? || p.RelPassEvent? ==> p.waiter < |s.pcs|)
    && (p.RelPass? ==> p.succ < |s.nodes|)
  }

  function Goto(s: State, t: nat, p: PC): State
    requires t < |s.pcs|
  {
    s.(pcs := s.pcs[t := p])
  }

  function SetNode(s: State, n: nat, node: Node): State
    requires n < |s.nodes|
  {
    s.(nodes := s.nodes[n := node])
  }

  function SetUser(s: State, n: nat, u: User): State
    requires n < |s.users|
  {
    s.(users := s.users[n := u])
  }

  function SetEvent(s: State, t: nat, on: bool): State
    requires t < |s.events|
  {
    s.(events := s.events[t := on])
  }

  /** Thread `t` has the lock now. */
  function Got(s: State, t: nat, n: nat): State
    requires t < |s.pcs|
  {
    Goto(s, t, Held(n)).(acquired := s.acquired + [t])
  }

  /** Thread `t` returns from releasing node `n`; ownership moves on. */
  function Passed(s: State, t: nat, n: nat): State
    requires t < |s.pcs| && n < |s.users|
  {
    Goto(SetUser(s, n, Free), t, Idle).(queue := if s.queue == [] then [] else s.queue[1..])
  }

  /** Thread `t`, with a free node `n` at hand, calls acquire or try-acquire; or some thread
      calls release on a node that was left held. */
  ghost predicate CallStep(s: State, t: nat, s': State)
    requires t < |s.pcs| && InRange(s, s.pcs[t])
  {
    && s.pcs[t] == Idle
    && exists n: nat :: n < |s.nodes|
         && ( || (s.users[n] == Free
                  && (s' == Goto(SetUser(SetNode(s, n, FRESH), n, Thread(t)), t, AcqSwap(n))
                      || s' == Goto(SetUser(SetNode(s, n, FRESH), n, Thread(t)), t, TrySwap(n))))
              || (s.users[n] == Parked && s' == Goto(SetUser(s, n, Thread(t)), t, RelRead(n))))
  }

  /** What a thread in the lock's code needs in order to move; the rest of the time it waits. */
  predicate Ready(s: State, t: nat)
    requires t < |s.pcs| && InRange(s, s.pcs[t])
  {
    match s.pcs[t]
    case Idle | Held(_) => false
    case AcqBlock(_) => s.events[t]
    case RelBlock(_, _) => s.events[t]
    case MovBlock(_, _) => s.events[t]
    case RelReread(n) => s.nodes[n].next != Null
    case MovSpin(n, _) => s.nodes[n].next != Null
    case _ => true
  }

  predicate InAcquire(p: PC) {
    Waiting(p) || p.AcqSwap? || p.TrySwap?
  }

  function AfterAcquire(s: State, t: nat): State
    requires t < |s.pcs| && InRange(s, s.pcs[t]) && InAcquire(s.pcs[t])
  {
    match s.pcs[t]
    case AcqSwap(n) =>
      var s1 := s.(tail := To(n), queue := s.queue + [n], order := s.order + [t]);
      if s.tail == Null then Got(s1, t, n) else Goto(s1, t, AcqLink(n, s.tail.node))
    case AcqLink(n, pred) =>
      Goto(SetNode(s, pred, s.nodes[pred].(next := To(n))), t, AcqTell(n, pred))
    case AcqTell(n, pred) =>
      (match s.nodes[pred].nextFlag
       case Clear => Goto(SetNode(s, pred, s.nodes[pred].(nextFlag := Set)), t, AcqCheck(n))
       case Set => Goto(s, t, AcqCheck(n))
       case Handle(w) => Goto(s, t, AcqTellEvent(n, w)))
    case AcqTellEvent(n, w) => Goto(SetEvent(s, w, true), t, AcqCheck(n))
    case AcqCheck(n) =>
      if s.nodes[n].readyFlag == Clear then Goto(s, t, AcqStore(n)) else Got(s, t, n)
    case AcqStore(n) =>
      if s.nodes[n].readyFlag == Clear
      then Goto(SetEvent(SetNode(s, n, s.nodes[n].(readyFlag := Handle(t))), t, false), t, AcqBlock(n))
      else Got(s, t, n)
    case AcqBlock(n) => Got(SetEvent(s, t, false), t, n)
    case TrySwap(n) =>
      if s.tail == Null
      then Got(s.(tail := To(n), queue := s.queue + [n], order := s.order + [t]), t, n)
      else Goto(SetUser(s, n, Free), t, Idle)
  }

  ghost predicate AcquireStep(s: State, t: nat, s': State)
    requires t < |s.pcs| && InRange(s, s.pcs[t])
  {
    InAcquire(s.pcs[t]) && Ready(s, t) && s' == AfterAcquire(s, t)
  }

  /** The owner leaves its critical section: it calls release, or transfer to a free node, or
      leaves the node held for another thread to release. */
  ghost predicate LeaveStep(s: State, t: nat, s': State)
    requires t < |s.pcs| && InRange(s, s.pcs[t])
  {
    match s.pcs[t]
    case Held(n) =>
      || s' == Goto(s, t, RelRead(n))
      || s' == Goto(SetUser(s, n, Parked), t, Idle)
      || exists m: nat :: m < |s.nodes| && s.users[m] == Free
           && s' == Goto(SetUser(SetNode(s, m, FRESH), m, Thread(t)), t, MovSwap(n, m))
    case _ => false
  }

  /** What release does once flag_wait has returned. */
  function AfterWait(n: nat, known: Ptr): PC {
    if known == Null then RelReread(n) else RelPass(n, known.node)
  }

  predicate InRelease(p: PC) {
    p.RelRead? || p.RelSwap? || p.RelCheck? || p.RelStore? || p.RelBlock? || p.RelReread?
    || p.RelPass? || p.RelPassEvent?
  }

  function AfterRelease(s: State, t: nat): State
    requires t < |s.pcs| && InRange(s, s.pcs[t]) && InRelease(s.pcs[t]) && Ready(s, t)
  {
    match s.pcs[t]
    case RelRead(n) =>
      if s.nodes[n].next == Null then Goto(s, t, RelSwap(n)) else Goto(s, t, RelCheck(n, s.nodes[n].next))
    case RelSwap(n) =>
      if s.tail == To(n) then Passed(s.(tail := Null), t, n) else Goto(s, t, RelCheck(n, Null))
    case RelCheck(n, known) =>
      if s.nodes[n].nextFlag == Clear then Goto(s, t, RelStore(n, known)) else Goto(s, t, AfterWait(n, known))
    case RelStore(n, known) =>
      if s.nodes[n].nextFlag == Clear
      then Goto(SetEvent(SetNode(s, n, s.nodes[n].(nextFlag := Handle(t))), t, false), t, RelBlock(n, known))
      else Goto(s, t, AfterWait(n, known))
    case RelBlock(n, known) => Goto(SetEvent(s, t, false), t, AfterWait(n, known))
    case RelReread(n) => Goto(s, t, RelPass(n, s.nodes[n].next.node))
    case RelPass(n, succ) =>
      (match s.nodes[succ].readyFlag
       case Clear => Passed(SetNode(s, succ, s.nodes[succ].(readyFlag := Set)), t, n)
       case Set => Passed(s, t, n)
       case Handle(w) => Goto(s, t, RelPassEvent(n, w)))
    case RelPassEvent(n, w) => Passed(SetEvent(s, w, true), t, n)
  }

  ghost predicate ReleaseStep(s: State, t: nat, s': State)
    requires t < |s.pcs| && InRange(s, s.pcs[t])
  {
    InRelease(s.pcs[t]) && Ready(s, t) && s' == AfterRelease(s, t)
  }

  /** The new node takes the old one's place at the head of the queue. */
  function Moved(s: State, t: nat, n: nat, m: nat): State
    requires t < |s.pcs| && n < |s.users|
  {
    Goto(SetUser(s, n, Free), t, Held(m)).(queue := if s.queue == [] then [] else s.queue[0 := m])
  }

  function AfterTransfer(s: State, t: nat): State
    requires t < |s.pcs| && InRange(s, s.pcs[t]) && Moving(s.pcs[t])
  {
    match s.pcs[t]
    case MovSwap(n, m) =>
      if s.tail == To(n) then Moved(s.(tail := To(m)), t, n, m) else Goto(s, t, MovSpin(n, m))
    case MovSpin(n, m) => Goto(s, t, MovCheck(n, m))
    case MovCheck(n, m) =>
      if s.nodes[n].nextFlag == Clear then Goto(s, t, MovStore(n, m)) else Goto(s, t, MovCopyNext(n, m))
    case MovStore(n, m) =>
      if s.nodes[n].nextFlag == Clear
      then Goto(SetEvent(SetNode(s, n, s.nodes[n].(nextFlag := Handle(t))), t, false), t, MovBlock(n, m))
      else Goto(s, t, MovCopyNext(n, m))
    case MovBlock(n, m) => Goto(SetEvent(s, t, false), t, MovCopyNext(n, m))
    case MovCopyNext(n, m) =>
      Goto(SetNode(s, m, s.nodes[m].(next := s.nodes[n].next)), t, MovCopyFlag(n, m, s.nodes[n].next))
    case MovCopyFlag(n, m, _) =>
      Moved(SetNode(s, m, s.nodes[m].(nextFlag := s.nodes[n].nextFlag)), t, n, m)
  }

  ghost predicate TransferStep(s: State, t: nat, s': State)
    requires t < |s.pcs| && InRange(s, s.pcs[t])
  {
    Moving(s.pcs[t]) && Ready(s, t) && s' == AfterTransfer(s, t)
  }

  ghost predicate Step(s: State, t: nat, s': State)
    requires t < |s.pcs|
  {
    && InRange(s, s.pcs[t])
    && (CallStep(s, t, s') || AcquireStep(s, t, s') || LeaveStep(s, t, s') || ReleaseStep(s, t, s')
        || TransferStep(s, t, s'))
  }

  ghost predicate Init(s: State) {
    && s.tail == Null && s.queue == [] && s.order == [] && s.acquired == []
    && |s.users| == |s.nodes| && |s.events| == |s.pcs|
    && (forall n :: 0 <= n < |s.users| ==> s.users[n] == Free)
    && (forall t :: 0 <= t < |s.pcs| ==> s.pcs[t] == Idle)
  }

  // ---------------------------------------------------------------------------------------
  // The invariant
  // ---------------------------------------------------------------------------------------

  /** Every node in use is used by one thread, at one place. */
  ghost predicate ThreadOk(s: State, t: nat)
    requires t < |s.pcs|
  {
    var p := s.pcs[t];
    && InRange(s, p)
    && (p != Idle ==> s.users[p.n] == Thread(t) && (InQueue(p) <==> p.n in s.queue))
    && (p.AcqSwap? || p.TrySwap? ==> s.nodes[p.n] == FRESH)
    && (Moving(p) ==>
          && s.users[p.dest] == Thread(t) && p.dest != p.n && p.dest !in s.queue
          && s.nodes[p.dest] == if p.MovCopyFlag? then Node(p.copied, Clear, Clear) else FRESH)
  }

  ghost predicate SlotOk(s: State, i: nat)
    requires i < |s.queue|
  {
    var n := s.queue[i];
    && n < |s.nodes| && |s.nodes| == |s.users|
    && (s.users[n].Thread? ==>
          && s.users[n].t < |s.pcs| && s.users[n].t < |s.events|
          && InQueue(s.pcs[s.users[n].t]) && s.pcs[s.users[n].t].n == n)
    && s.users[n] != Free
    && forall j :: 0 <= j < i ==> s.queue[j] != n
  }

  ghost predicate Shape(s: State) {
    && |s.users| == |s.nodes| && |s.events| == |s.pcs|
    && (forall t :: 0 <= t < |s.pcs| ==> ThreadOk(s, t))
    && (forall i :: 0 <= i < |s.queue| ==> SlotOk(s, i))
    && (forall n :: 0 <= n < |s.users| && s.users[n] == Parked ==> n in s.queue)
    && s.tail == if s.queue == [] then Null else To(s.queue[|s.queue| - 1])
  }

  /** What the invariant says about one place in the queue: its node, whose it is, where that
      thread is (a parked node is held), and its event. */
  datatype Row = Row(n: nat, user: User, p: PC, node: Node, ev: bool)

  ghost function RowAt(s: State, i: nat): Row
    requires i < |s.queue| && SlotOk(s, i)
  {
    var n := s.queue[i];
    if s.users[n].Thread?
    then Row(n, s.users[n], s.pcs[s.users[n].t], s.nodes[n], s.events[s.users[n].t])
    else Row(n, s.users[n], Held(n), s.nodes[n], false)
  }

  /** Blocked on the event stored in its own nextFlag. */
  predicate BlocksForNext(p: PC) {
    p.RelBlock? || p.MovBlock?
  }

  /** Past flag_wait on its own nextFlag. */
  predicate PastNextFlag(p: PC) {
    p.RelReread? || p.RelPass? || p.RelPassEvent? || p.MovCopyNext? || p.MovCopyFlag?
  }

  /** Knows that there is a successor. */
  predicate HasNext(p: PC) {
    p.RelCheck? || p.RelStore? || p.MovSpin? || p.MovCheck? || p.MovStore? || BlocksForNext(p) || PastNextFlag(p)
  }

  /** Knows that its successor has linked itself. */
  predicate NextLinked(p: PC) {
    || p.MovCheck? || p.MovStore? || p.MovBlock? || PastNextFlag(p)
    || ((p.RelCheck? || p.RelStore? || p.RelBlock?) && p.known.To?)
  }

  /** A row by itself; only the first may own the lock or have been handed it. */
  ghost predicate OwnOk(first: bool, r: Row) {
    && (r.user.Thread? || (r.user.Parked? && r.p == Held(r.n)))
    && InQueue(r.p) && r.p.n == r.n
    && (Owns(r.p) ==> first)
    && (Waiting(r.p) && !first ==>
          if r.p.AcqBlock? then r.node.readyFlag == Handle(r.user.t) && !r.ev else r.node.readyFlag == Clear)
    && (Waiting(r.p) && first ==>
          || (r.p.AcqBlock? && r.node.readyFlag == Handle(r.user.t) && r.ev)
          || ((r.p.AcqCheck? || r.p.AcqStore?) && r.node.readyFlag == Set))
    && (BlocksForNext(r.p) ==> r.node.nextFlag == Handle(r.user.t))
  }

  /** A row and its successor. */
  ghost predicate LinkOk(r: Row, r': Row) {
    && Waiting(r'.p)
    && (r'.p.AcqLink? || r'.p.AcqTell? ==> r'.p.pred == r.n)
    && r.node.next == (if r'.p.AcqLink? then Null else To(r'.n))
    && (NextLinked(r.p) ==> !r'.p.AcqLink?)
    && ((r.p.RelCheck? || r.p.RelStore? || r.p.RelBlock?) && r.p.known.To? ==> r.p.known == To(r'.n))
    && (PastNextFlag(r.p) ==> r'.p.AcqCheck? || r'.p.AcqStore? || r'.p.AcqBlock?)
    && (r.p.RelPass? ==> r.p.succ == r'.n)
    && (r.p.MovCopyFlag? ==> r.p.copied == To(r'.n))
    && (r.p.RelPassEvent? ==> r'.p.AcqBlock? && r'.user == Thread(r.p.waiter))
    && (if r'.p.AcqLink? || r'.p.AcqTell? then
          if BlocksForNext(r.p) then !r.ev else r.node.nextFlag == Clear
        else if r'.p.AcqTellEvent? then
          BlocksForNext(r.p) && !r.ev && r.user == Thread(r'.p.waiter)
        else
          r.node.nextFlag != Clear && (BlocksForNext(r.p) ==> r.ev))
  }

  /** The last row. */
  ghost predicate LastOk(r: Row) {
    r.node.next == Null && r.node.nextFlag == Clear && !HasNext(r.p)
  }

  ghost predicate RowOk(s: State, i: nat)
    requires i < |s.queue| && SlotOk(s, i) && (i + 1 < |s.queue| ==> SlotOk(s, i + 1))
  {
    && OwnOk(i == 0, RowAt(s, i))
    && if i + 1 < |s.queue| then LinkOk(RowAt(s, i), RowAt(s, i + 1)) else LastOk(RowAt(s, i))
  }

  ghost predicate RowsOk(s: State)
    requires forall i :: 0 <= i < |s.queue| ==> SlotOk(s, i)
  {
    forall i :: 0 <= i < |s.queue| ==> RowOk(s, i)
  }

  /** 1 if the first of the queue owns the lock, else 0. */
  ghost function Owned(s: State): nat
    requires forall i :: 0 <= i < |s.queue| ==> SlotOk(s, i)
  {
    if s.queue != [] && Owns(RowAt(s, 0).p) then 1 else 0
  }

  /** The lock's history: threads get the lock in the order of their tail exchanges, and those
      still waiting are the queue, in that order. */
  ghost predicate HistoryOk(s: State)
    requires forall i :: 0 <= i < |s.queue| ==> SlotOk(s, i)
  {
    var owned := Owned(s);
    && |s.acquired| >= owned
    && |s.order| - |s.acquired| == |s.queue| - owned
    && s.acquired == s.order[..|s.acquired|]
    && forall i :: owned <= i < |s.queue| ==> RowAt(s, i).user == Thread(s.order[|s.acquired| - owned + i])
  }

  ghost predicate Inv(s: State) {
    Shape(s) && RowsOk(s) && HistoryOk(s)
  }

  // ---------------------------------------------------------------------------------------
  // Steps inside the queue
  // ---------------------------------------------------------------------------------------

  /** Thread `t`, which stays in the queue at its node, steps to `q`; it may write nodes of the
      queue, its own spare node, and events. */
  ghost predicate Quiet(s: State, t: nat, s': State)
    requires t < |s.pcs|
  {
    && s'.tail == s.tail && s'.queue == s.queue && s'.users == s.users
    && |s'.nodes| == |s.nodes| && |s'.events| == |s.events| && |s'.pcs| == |s.pcs|
    && s'.pcs == s.pcs[t := s'.pcs[t]]
    && InQueue(s.pcs[t]) && InQueue(s'.pcs[t]) && s'.pcs[t].n == s.pcs[t].n
    && (Moving(s'.pcs[t]) ==> Moving(s.pcs[t]) && s'.pcs[t].dest == s.pcs[t].dest)
    && forall n :: 0 <= n < |s.nodes| && s'.nodes[n] != s.nodes[n] ==>
         n in s.queue || (Moving(s.pcs[t]) && n == s.pcs[t].dest)
  }

  lemma QuietKeepsShape(s: State, t: nat, s': State)
    requires t < |s.pcs| && Shape(s) && Quiet(s, t, s')
    requires ThreadOk(s', t)
    ensures Shape(s')
  {
    assert ThreadOk(s, t);
    forall u | 0 <= u < |s.pcs| ensures ThreadOk(s', u) {
      assert ThreadOk(s, u);
    }
    forall i | 0 <= i < |s.queue| ensures SlotOk(s', i) {
      assert SlotOk(s, i);
    }
  }

  /** The place of thread `t` in the queue. */
  lemma PlaceOf(s: State, t: nat) returns (k: nat)
    requires t < |s.pcs| && Shape(s) && InQueue(s.pcs[t])
    ensures k < |s.queue| && SlotOk(s, k) && s.queue[k] == s.pcs[t].n && s.users[s.queue[k]] == Thread(t)
    ensures RowAt(s, k) == Row(s.pcs[t].n, Thread(t), s.pcs[t], s.nodes[s.pcs[t].n], s.events[t])
  {
    assert ThreadOk(s, t);
    k :| k < |s.queue| && s.queue[k] == s.pcs[t].n;
    assert SlotOk(s, k);
  }

  /** Rows `lo` to `hi` changed and still fit together with their neighbours. */
  lemma RowsFit(s: State, s': State, lo: nat, hi: nat)
    requires Shape(s) && Shape(s') && |s'.queue| == |s.queue|
    requires RowsOk(s)
    requires forall i :: 0 <= i < |s.queue| && (i < lo || i > hi) ==> RowAt(s', i) == RowAt(s, i)
    requires forall i :: 0 <= i < |s.queue| && lo - 1 <= i <= hi ==> RowOk(s', i)
    ensures RowsOk(s')
  {
    forall i | 0 <= i < |s.queue| ensures RowOk(s', i) {
      assert RowOk(s, i);
    }
  }

  /** A quiet step that touches nobody else's node or event. */
  ghost predicate Own(s: State, t: nat, s': State)
    requires t < |s.pcs|
  {
    && Quiet(s, t, s')
    && (forall n :: 0 <= n < |s.nodes| && n in s.queue && n != s.pcs[t].n ==> s'.nodes[n] == s.nodes[n])
    && (forall u :: 0 <= u < |s.events| && u != t ==> s'.events[u] == s.events[u])
  }

  lemma OwnKeepsOtherRows(s: State, t: nat, s': State, k: nat, i: nat)
    requires t < |s.pcs| && Shape(s) && Shape(s') && Own(s, t, s')
    requires k < |s.queue| && s.queue[k] == s.pcs[t].n && i < |s.queue| && i != k
    ensures RowAt(s', i) == RowAt(s, i)
  {
    assert ThreadOk(s, t) && SlotOk(s, i) && SlotOk(s', i) && SlotOk(s, k);
  }

  /** The row of thread `t` still fits: it alone, with its predecessor, with its successor. */
  ghost predicate Fits(s: State, k: nat, r': Row)
    requires Shape(s) && k < |s.queue|
  {
    && OwnOk(k == 0, r')
    && (k > 0 ==> LinkOk(RowAt(s, k - 1), r'))
    && if k + 1 < |s.queue| then LinkOk(r', RowAt(s, k + 1)) else LastOk(r')
  }

  lemma OwnKeepsRows(s: State, t: nat, s': State, k: nat)
    requires t < |s.pcs| && Shape(s) && Shape(s') && RowsOk(s) && Own(s, t, s')
    requires k < |s.queue| && s.queue[k] == s.pcs[t].n && Fits(s, k, RowAt(s', k))
    ensures RowsOk(s')
  {
    forall i | 0 <= i < |s.queue| && i != k ensures RowAt(s', i) == RowAt(s, i) {
      OwnKeepsOtherRows(s, t, s', k, i);
    }
    if k > 0 {
      assert RowOk(s, k - 1);
    }
    RowsFit(s, s', k, k);
  }

  lemma RowFits(s: State, k: nat)
    requires Shape(s) && RowsOk(s) && k < |s.queue|
    ensures Fits(s, k, RowAt(s, k))
    ensures k + 1 < |s.queue| ==> SlotOk(s, k + 1) && OwnOk(false, RowAt(s, k + 1))
  {
    assert RowOk(s, k);
    if k + 1 < |s.queue| {
      assert RowOk(s, k + 1);
    }
    if k > 0 {
      assert RowOk(s, k - 1);
    }
  }

  predicate OwnAcquire(p: PC) {
    p.AcqCheck? || p.AcqStore? || p.AcqBlock?
  }

  lemma OwnAcquireIsOwn(s: State, t: nat, s': State)
    requires t < |s.pcs| && ThreadOk(s, t) && AcquireStep(s, t, s') && OwnAcquire(s.pcs[t])
    ensures Own(s, t, s') && ThreadOk(s', t)
  {
  }

  lemma OwnAcquireKeepsRows(s: State, t: nat, s': State)
    requires t < |s.pcs| && Inv(s) && InRange(s, s.pcs[t]) && AcquireStep(s, t, s') && OwnAcquire(s.pcs[t])
    ensures Shape(s') && RowsOk(s')
  {
    assert ThreadOk(s, t);
    OwnAcquireIsOwn(s, t, s');
    QuietKeepsShape(s, t, s');
    var k := PlaceOf(s, t);
    var k' := PlaceOf(s', t);
    RowFits(s, k);
    OwnKeepsRows(s, t, s', k);
  }

  lemma OwnReleaseIsOwn(s: State, t: nat, s': State)
    requires t < |s.pcs| && ThreadOk(s, t) && ReleaseStep(s, t, s') && InQueue(s'.pcs[t])
    ensures Own(s, t, s')
  {
  }

  lemma OwnReleaseKeepsThreadOk(s: State, t: nat, s': State, r: Row, next: Row)
    requires t < |s.pcs| && ThreadOk(s, t) && ReleaseStep(s, t, s') && InQueue(s'.pcs[t])
    requires r == Row(s.pcs[t].n, Thread(t), s.pcs[t], s.nodes[s.pcs[t].n], s.events[t])
    requires || LastOk(r)
             || (LinkOk(r, next) && OwnOk(false, next) && next.n < |s.nodes| && next.node == s.nodes[next.n]
                 && (next.user.Thread? ==> next.user.t < |s.pcs|))
    ensures ThreadOk(s', t)
  {
  }

  /** The owner's row, which is the first, and what follows it. */
  ghost predicate OwnerFits(r: Row, hasNext: bool, next: Row) {
    OwnOk(true, r) && if hasNext then LinkOk(r, next) && OwnOk(false, next) else LastOk(r)
  }

  lemma OwnReleaseKeepsOwn(s: State, t: nat, s': State, r: Row, r': Row, hasNext: bool, next: Row)
    requires t < |s.pcs| && ThreadOk(s, t) && ReleaseStep(s, t, s') && InQueue(s'.pcs[t]) && ThreadOk(s', t)
    requires r == Row(s.pcs[t].n, Thread(t), s.pcs[t], s.nodes[s.pcs[t].n], s.events[t])
    requires r' == Row(s'.pcs[t].n, Thread(t), s'.pcs[t], s'.nodes[s'.pcs[t].n], s'.events[t])
    requires OwnerFits(r, hasNext, next)
    requires hasNext ==> next.n < |s.nodes| && next.node == s.nodes[next.n]
    requires !hasNext ==> s.tail == To(r.n)
    ensures OwnOk(true, r')
  {
  }

  lemma OwnReleaseFits(s: State, t: nat, s': State, r: Row, r': Row, hasNext: bool, next: Row)
    requires t < |s.pcs| && ThreadOk(s, t) && ReleaseStep(s, t, s') && InQueue(s'.pcs[t]) && ThreadOk(s', t)
    requires r == Row(s.pcs[t].n, Thread(t), s.pcs[t], s.nodes[s.pcs[t].n], s.events[t])
    requires r' == Row(s'.pcs[t].n, Thread(t), s'.pcs[t], s'.nodes[s'.pcs[t].n], s'.events[t])
    requires OwnerFits(r, hasNext, next)
    requires hasNext ==> next.n < |s.nodes| && next.node == s.nodes[next.n]
    requires !hasNext ==> s.tail == To(r.n)
    ensures OwnerFits(r', hasNext, next)
  {
    OwnReleaseKeepsOwn(s, t, s', r, r', hasNext, next);
  }

  lemma OwnerIsFirst(s: State, t: nat) returns (hasNext: bool, next: Row)
    requires t < |s.pcs| && Shape(s) && RowsOk(s) && Owns(s.pcs[t])
    ensures |s.queue| > 0 && SlotOk(s, 0) && s.queue[0] == s.pcs[t].n
    ensures RowAt(s, 0) == Row(s.pcs[t].n, Thread(t), s.pcs[t], s.nodes[s.pcs[t].n], s.events[t])
    ensures hasNext == (|s.queue| > 1) && (hasNext ==> SlotOk(s, 1) && next == RowAt(s, 1))
    ensures !hasNext ==> s.tail == To(s.pcs[t].n)
    ensures OwnerFits(RowAt(s, 0), hasNext, next)
  {
    var k := PlaceOf(s, t);
    RowFits(s, k);
    hasNext := |s.queue| > 1;
    if hasNext {
      RowFits(s, 1);
      next := RowAt(s, 1);
    } else {
      next := RowAt(s, 0);
    }
  }

  lemma OwnReleaseKeepsRows(s: State, t: nat, s': State)
    requires t < |s.pcs| && Inv(s) && InRange(s, s.pcs[t]) && ReleaseStep(s, t, s') && InQueue(s'.pcs[t])
    ensures Own(s, t, s') && Shape(s') && RowsOk(s')
  {
    assert ThreadOk(s, t);
    OwnReleaseIsOwn(s, t, s');
    var hasNext, next := OwnerIsFirst(s, t);
    OwnReleaseKeepsThreadOk(s, t, s', RowAt(s, 0), next);
    QuietKeepsShape(s, t, s');
    assert SlotOk(s', 0);
    OwnReleaseFits(s, t, s', RowAt(s, 0), RowAt(s', 0), hasNext, next);
    OwnKeepsRows(s, t, s', 0);
  }

  /** A transfer goes on, or ends with the new node in the place of the old one. */
  lemma TransferStaysOrEnds(s: State, t: nat, s': State)
    requires t < |s.pcs| && InRange(s, s.pcs[t]) && TransferStep(s, t, s')
    ensures |s'.pcs| == |s.pcs| && (Moving(s'.pcs[t]) || s'.pcs[t].Held?)
    ensures s'.order == s.order && s'.acquired == s.acquired
  {
  }

  /** A transfer that is not past its wait for the successor. */
  predicate MoveWaits(p: PC) {
    p.MovSwap? || p.MovSpin? || p.MovCheck? || p.MovStore? || p.MovBlock?
  }

  lemma MoveWaitIsQuiet(s: State, t: nat, s': State)
    requires t < |s.pcs| && ThreadOk(s, t) && TransferStep(s, t, s') && |s'.pcs| == |s.pcs| && Moving(s'.pcs[t])
    requires MoveWaits(s.pcs[t])
    ensures Quiet(s, t, s')
  {
  }

  lemma MoveCopyIsQuiet(s: State, t: nat, s': State)
    requires t < |s.pcs| && ThreadOk(s, t) && TransferStep(s, t, s') && |s'.pcs| == |s.pcs| && Moving(s'.pcs[t])
    requires !MoveWaits(s.pcs[t])
    ensures Quiet(s, t, s')
  {
  }

  lemma OwnTransferIsQuiet(s: State, t: nat, s': State)
    requires t < |s.pcs| && ThreadOk(s, t) && TransferStep(s, t, s') && |s'.pcs| == |s.pcs| && Moving(s'.pcs[t])
    ensures Quiet(s, t, s')
  {
    if MoveWaits(s.pcs[t]) {
      MoveWaitIsQuiet(s, t, s');
    } else {
      MoveCopyIsQuiet(s, t, s');
    }
  }

 lemma MoveWaitKeepsThreadOk(s: State, t: nat, s': State)
    requires t < |s.pcs| && ThreadOk(s, t) && TransferStep(s, t, s') && |s'.pcs| == |s.pcs| && Moving(s'.pcs[t])
    requires MoveWaits(s.pcs[t])
    ensures ThreadOk(s', t)
  {
  }

  lemma MoveCopyKeepsThreadOk(s: State, t: nat, s': State)
    requires t < |s.pcs| && ThreadOk(s, t) && TransferStep(s, t, s') && |s'.pcs| == |s.pcs| && Moving(s'.pcs[t])
    requires !MoveWaits(s.pcs[t])
    ensures ThreadOk(s', t)
  {
  }

  lemma OwnTransferKeepsThreadOk(s: State, t: nat, s': State)
    requires t < |s.pcs| && ThreadOk(s, t) && TransferStep(s, t, s') && |s'.pcs| == |s.pcs| && Moving(s'.pcs[t])
    ensures ThreadOk(s', t)
  {
    if MoveWaits(s.pcs[t]) {
      MoveWaitKeepsThreadOk(s, t, s');
    } else {
      MoveCopyKeepsThreadOk(s, t, s');
    }
  }

  lemma OwnTransferIsOwn(s: State, t: nat, s': State)
    requires t < |s.pcs| && ThreadOk(s, t) && TransferStep(s, t, s') && |s'.pcs| == |s.pcs| && Moving(s'.pcs[t])
    ensures Own(s, t, s') && ThreadOk(s', t)
  {
    OwnTransferIsQuiet(s, t, s');
    OwnTransferKeepsThreadOk(s, t, s');
  }

  lemma MoveWaitFits(s: State, t: nat, s': State, r: Row, r': Row, hasNext: bool, next: Row)
    requires t < |s.pcs| && ThreadOk(s, t) && TransferStep(s, t, s') && Moving(s'.pcs[t]) && ThreadOk(s', t)
    requires r == Row(s.pcs[t].n, Thread(t), s.pcs[t], s.nodes[s.pcs[t].n], s.events[t])
    requires r' == Row(s'.pcs[t].n, Thread(t), s'.pcs[t], s'.nodes[s'.pcs[t].n], s'.events[t])
    requires OwnerFits(r, hasNext, next)
    requires !hasNext ==> s.tail == To(r.n)
    requires MoveWaits(s.pcs[t])
    ensures OwnerFits(r', hasNext, next)
  {
  }

  lemma MoveCopyFits(s: State, t: nat, s': State, r: Row, r': Row, hasNext: bool, next: Row)
    requires t < |s.pcs| && ThreadOk(s, t) && TransferStep(s, t, s') && Moving(s'.pcs[t]) && ThreadOk(s', t)
    requires r == Row(s.pcs[t].n, Thread(t), s.pcs[t], s.nodes[s.pcs[t].n], s.events[t])
    requires r' == Row(s'.pcs[t].n, Thread(t), s'.pcs[t], s'.nodes[s'.pcs[t].n], s'.events[t])
    requires OwnerFits(r, hasNext, next)
    requires !hasNext ==> s.tail == To(r.n)
    requires !MoveWaits(s.pcs[t])
    ensures OwnerFits(r', hasNext, next)
  {
  }

  lemma OwnTransferFits(s: State, t: nat, s': State, r: Row, r': Row, hasNext: bool, next: Row)
    requires t < |s.pcs| && ThreadOk(s, t) && TransferStep(s, t, s') && Moving(s'.pcs[t]) && ThreadOk(s', t)
    requires r == Row(s.pcs[t].n, Thread(t), s.pcs[t], s.nodes[s.pcs[t].n], s.events[t])
    requires r' == Row(s'.pcs[t].n, Thread(t), s'.pcs[t], s'.nodes[s'.pcs[t].n], s'.events[t])
    requires OwnerFits(r, hasNext, next)
    requires !hasNext ==> s.tail == To(r.n)
    ensures OwnerFits(r', hasNext, next)
  {
    if MoveWaits(s.pcs[t]) {
      MoveWaitFits(s, t, s', r, r', hasNext, next);
    } else {
      MoveCopyFits(s, t, s', r, r', hasNext, next);
    }
  }

  lemma OwnTransferKeepsRows(s: State, t: nat, s': State)
    requires t < |s.pcs| && Inv(s) && InRange(s, s.pcs[t]) && TransferStep(s, t, s')
    requires |s'.pcs| == |s.pcs| && Moving(s'.pcs[t])
    ensures Own(s, t, s') && Shape(s') && RowsOk(s')
  {
    assert ThreadOk(s, t);
    OwnTransferIsOwn(s, t, s');
    var hasNext, next := OwnerIsFirst(s, t);
    QuietKeepsShape(s, t, s');
    assert SlotOk(s', 0);
    OwnTransferFits(s, t, s', RowAt(s, 0), RowAt(s', 0), hasNext, next);
    OwnKeepsRows(s, t, s', 0);
  }

  lemma QuietKeepsUsers(s: State, t: nat, s': State, i: nat)
    requires t < |s.pcs| && Shape(s) && Shape(s') && Quiet(s, t, s') && i < |s.queue|
    ensures SlotOk(s, i) && SlotOk(s', i) && RowAt(s', i).user == RowAt(s, i).user
    ensures s.queue[i] != s.pcs[t].n ==> RowAt(s', i).p == RowAt(s, i).p
  {
    assert ThreadOk(s, t) && SlotOk(s, i) && SlotOk(s', i);
  }

  /** Only the first of the queue can come to own the lock, or own it. */
  lemma QuietMovesOwned(s: State, t: nat, s': State)
    requires t < |s.pcs| && Shape(s) && RowsOk(s) && Shape(s') && RowsOk(s') && Quiet(s, t, s')
    ensures Owns(s.pcs[t]) || Owns(s'.pcs[t]) ==> s.queue != [] && RowAt(s, 0).user == Thread(t)
    ensures Owned(s') == Owned(s) - (if Owns(s.pcs[t]) then 1 else 0) + if Owns(s'.pcs[t]) then 1 else 0
  {
    var k := PlaceOf(s, t);
    var k' := PlaceOf(s', t);
    QuietKeepsUsers(s, t, s', 0);
    assert SlotOk(s, k') && SlotOk(s', k);
    RowFits(s, k);
    RowFits(s', k);
  }

  /** The history fits as long as the users of the queue stay, and the first is recorded when it gets
      the lock. */
  lemma HistoryGoesOn(s: State, s': State, t: nat)
    requires Shape(s) && Shape(s') && HistoryOk(s) && s'.queue == s.queue && s'.order == s.order
    requires forall i :: 0 <= i < |s.queue| ==> RowAt(s', i).user == RowAt(s, i).user
    requires || (s'.acquired == s.acquired && Owned(s') == Owned(s))
             || (s'.acquired == s.acquired + [t] && Owned(s) == 0 && Owned(s') == 1
                 && s.queue != [] && RowAt(s, 0).user == Thread(t))
    ensures HistoryOk(s')
  {
    if s'.acquired == s.acquired + [t] {
      assert RowAt(s, 0).user == Thread(s.order[|s.acquired|]);
      assert s.order[..|s.acquired| + 1] == s.order[..|s.acquired|] + [t];
    }
  }

  lemma QuietKeepsHistory(s: State, t: nat, s': State)
    requires t < |s.pcs| && Inv(s) && Shape(s') && RowsOk(s') && Quiet(s, t, s') && s'.order == s.order
    requires if Waiting(s.pcs[t]) && Owns(s'.pcs[t]) then s'.acquired == s.acquired + [t]
             else s'.acquired == s.acquired && Owns(s'.pcs[t]) == Owns(s.pcs[t])
    ensures HistoryOk(s')
  {
    forall i | 0 <= i < |s.queue| ensures RowAt(s', i).user == RowAt(s, i).user {
      QuietKeepsUsers(s, t, s', i);
    }
    QuietMovesOwned(s, t, s');
    HistoryGoesOn(s, s', t);
  }

  // ---------------------------------------------------------------------------------------
  // A new arrival linking itself behind its predecessor
  // ---------------------------------------------------------------------------------------

  predicate Linking(p: PC) {
    p.AcqLink? || p.AcqTell? || p.AcqTellEvent?
  }

  lemma LinkingHasPredecessor(s: State, t: nat) returns (k: nat)
    requires t < |s.pcs| && Shape(s) && RowsOk(s) && Linking(s.pcs[t])
    ensures 0 < k < |s.queue| && s.queue[k] == s.pcs[t].n && SlotOk(s, k)
    ensures RowAt(s, k) == Row(s.pcs[t].n, Thread(t), s.pcs[t], s.nodes[s.pcs[t].n], s.events[t])
    ensures SlotOk(s, k - 1) && Fits(s, k - 1, RowAt(s, k - 1)) && Fits(s, k, RowAt(s, k))
  {
    k := PlaceOf(s, t);
    RowFits(s, k);
    RowFits(s, k - 1);
  }

  /** A quiet step that touches only the predecessor's node and event. */
  ghost predicate OnPred(s: State, t: nat, s': State, k: nat)
    requires t < |s.pcs| && Shape(s) && 0 < k < |s.queue|
  {
    && Quiet(s, t, s')
    && (forall n :: 0 <= n < |s.nodes| && n != s.queue[k - 1] ==> s'.nodes[n] == s.nodes[n])
    && (forall u :: 0 <= u < |s.events| && s'.events[u] != s.events[u] ==> RowAt(s, k - 1).user == Thread(u))
  }

  lemma OnPredKeepsOtherRows(s: State, t: nat, s': State, k: nat, i: nat)
    requires t < |s.pcs| && Shape(s) && Shape(s') && 0 < k < |s.queue| && OnPred(s, t, s', k)
    requires s.queue[k] == s.pcs[t].n && i < |s.queue| && i != k && i != k - 1
    ensures RowAt(s', i) == RowAt(s, i)
  {
    assert ThreadOk(s, t) && SlotOk(s, i) && SlotOk(s', i) && SlotOk(s, k) && SlotOk(s, k - 1);
  }

  lemma OnPredKeepsRows(s: State, t: nat, s': State, k: nat)
    requires t < |s.pcs| && Shape(s) && Shape(s') && RowsOk(s) && 0 < k < |s.queue| && OnPred(s, t, s', k)
    requires s.queue[k] == s.pcs[t].n
    requires OwnOk(k == 1, RowAt(s', k - 1)) && OwnOk(false, RowAt(s', k))
    requires k > 1 ==> LinkOk(RowAt(s, k - 2), RowAt(s', k - 1))
    requires LinkOk(RowAt(s', k - 1), RowAt(s', k))
    requires if k + 1 < |s.queue| then LinkOk(RowAt(s', k), RowAt(s, k + 1)) else LastOk(RowAt(s', k))
    ensures RowsOk(s')
  {
    forall i | 0 <= i < |s.queue| && (i < k - 1 || i > k) ensures RowAt(s', i) == RowAt(s, i) {
      OnPredKeepsOtherRows(s, t, s', k, i);
    }
    if k > 1 {
      assert RowOk(s, k - 2);
    }
    RowsFit(s, s', k - 1, k);
  }

  lemma LinkingIsOnPred(s: State, t: nat, s': State, k: nat)
    requires t < |s.pcs| && Shape(s) && InRange(s, s.pcs[t]) && AcquireStep(s, t, s') && Linking(s.pcs[t])
    requires 0 < k < |s.queue| && s.queue[k] == s.pcs[t].n && SlotOk(s, k) && SlotOk(s, k - 1)
    requires Fits(s, k, RowAt(s, k))
    ensures OnPred(s, t, s', k)
  {
    assert ThreadOk(s, t);
  }

  lemma LinkingKeepsThreadOk(s: State, t: nat, s': State, k: nat)
    requires t < |s.pcs| && Shape(s) && InRange(s, s.pcs[t]) && AcquireStep(s, t, s') && Linking(s.pcs[t])
    requires 0 < k < |s.queue| && s.queue[k] == s.pcs[t].n && SlotOk(s, k) && SlotOk(s, k - 1)
    requires Fits(s, k, RowAt(s, k)) && OwnOk(k == 1, RowAt(s, k - 1))
    ensures ThreadOk(s', t)
  {
    assert ThreadOk(s, t);
  }

  lemma LinkingKeepsOwn(s: State, t: nat, s': State, k: nat)
    requires t < |s.pcs| && Shape(s) && InRange(s, s.pcs[t]) && AcquireStep(s, t, s') && Linking(s.pcs[t])
    requires 0 < k < |s.queue| && s.queue[k] == s.pcs[t].n && OnPred(s, t, s', k) && Shape(s')
    requires Fits(s, k, RowAt(s, k)) && Fits(s, k - 1, RowAt(s, k - 1))
    ensures OwnOk(k == 1, RowAt(s', k - 1)) && OwnOk(false, RowAt(s', k))
  {
    assert ThreadOk(s, t) && SlotOk(s, k) && SlotOk(s, k - 1) && SlotOk(s', k) && SlotOk(s', k - 1);
  }

  lemma LinkingKeepsFirstLink(s: State, t: nat, s': State, k: nat)
    requires t < |s.pcs| && Shape(s) && InRange(s, s.pcs[t]) && AcquireStep(s, t, s') && Linking(s.pcs[t])
    requires 0 < k < |s.queue| && s.queue[k] == s.pcs[t].n && OnPred(s, t, s', k) && Shape(s')
    requires Fits(s, k, RowAt(s, k)) && Fits(s, k - 1, RowAt(s, k - 1))
    ensures k > 1 ==> LinkOk(RowAt(s, k - 2), RowAt(s', k - 1))
  {
    assert ThreadOk(s, t) && SlotOk(s, k) && SlotOk(s, k - 1) && SlotOk(s', k - 1);
  }

  lemma LinkingKeepsOwnLink(s: State, t: nat, s': State, k: nat)
    requires t < |s.pcs| && Shape(s) && InRange(s, s.pcs[t]) && AcquireStep(s, t, s') && Linking(s.pcs[t])
    requires 0 < k < |s.queue| && s.queue[k] == s.pcs[t].n && OnPred(s, t, s', k) && Shape(s')
    requires Fits(s, k, RowAt(s, k)) && Fits(s, k - 1, RowAt(s, k - 1))
    ensures LinkOk(RowAt(s', k - 1), RowAt(s', k))
  {
    assert ThreadOk(s, t) && SlotOk(s, k) && SlotOk(s, k - 1) && SlotOk(s', k) && SlotOk(s', k - 1);
  }

  /** What follows a waiter's row does not depend on how far the waiter is. */
  lemma WaitersLinkAlike(r: Row, r': Row, next: Row)
    requires Waiting(r.p) && Waiting(r'.p) && r'.node == r.node && r'.n == r.n
    ensures LinkOk(r, next) ==> LinkOk(r', next)
    ensures LastOk(r) ==> LastOk(r')
  {
  }

  lemma LinkingKeepsLastLink(s: State, t: nat, s': State, k: nat)
    requires t < |s.pcs| && Shape(s) && InRange(s, s.pcs[t]) && AcquireStep(s, t, s') && Linking(s.pcs[t])
    requires 0 < k < |s.queue| && s.queue[k] == s.pcs[t].n && OnPred(s, t, s', k) && Shape(s')
    requires Fits(s, k, RowAt(s, k)) && Fits(s, k - 1, RowAt(s, k - 1))
    ensures if k + 1 < |s.queue| then LinkOk(RowAt(s', k), RowAt(s, k + 1)) else LastOk(RowAt(s', k))
  {
    assert ThreadOk(s, t) && SlotOk(s, k) && SlotOk(s, k - 1) && SlotOk(s', k);
    var next := if k + 1 < |s.queue| then RowAt(s, k + 1) else RowAt(s, k);
    WaitersLinkAlike(RowAt(s, k), RowAt(s', k), next);
  }

  lemma LinkingKeepsRows(s: State, t: nat, s': State)
    requires t < |s.pcs| && Inv(s) && InRange(s, s.pcs[t]) && AcquireStep(s, t, s') && Linking(s.pcs[t])
    ensures Quiet(s, t, s') && Shape(s') && RowsOk(s')
  {
    var k := LinkingHasPredecessor(s, t);
    LinkingIsOnPred(s, t, s', k);
    LinkingKeepsThreadOk(s, t, s', k);
    QuietKeepsShape(s, t, s');
    LinkingKeepsOwn(s, t, s', k);
    LinkingKeepsFirstLink(s, t, s', k);
    LinkingKeepsOwnLink(s, t, s', k);
    LinkingKeepsLastLink(s, t, s', k);
    OnPredKeepsRows(s, t, s', k);
  }

  // ---------------------------------------------------------------------------------------
  // Joining the queue
  // ---------------------------------------------------------------------------------------

  predicate Joining(p: PC) {
    p.AcqSwap? || p.TrySwap?
  }

  /** Thread `t` puts its node at the end of the queue and goes to `q`. */
  ghost predicate Joins(s: State, t: nat, s': State)
    requires t < |s.pcs| && Joining(s.pcs[t])
  {
    var n := s.pcs[t].n;
    && s'.tail == To(n) && s'.queue == s.queue + [n] && s'.order == s.order + [t]
    && s'.nodes == s.nodes && s'.users == s.users && s'.events == s.events
    && |s'.pcs| == |s.pcs| && s'.pcs == s.pcs[t := s'.pcs[t]]
    && if s.queue == [] then s'.pcs[t] == Held(n) && s'.acquired == s.acquired + [t]
       else s'.pcs[t] == AcqLink(n, s.queue[|s.queue| - 1]) && s'.acquired == s.acquired
  }

  lemma JoinKeepsSlot(s: State, t: nat, s': State, i: nat)
    requires t < |s.pcs| && Shape(s) && Joining(s.pcs[t]) && Joins(s, t, s') && i <= |s.queue|
    ensures SlotOk(s', i)
  {
    assert ThreadOk(s, t);
    if i < |s.queue| {
      assert SlotOk(s, i);
    }
  }

  lemma JoinKeepsThreadOk(s: State, t: nat, s': State, u: nat)
    requires t < |s.pcs| && Shape(s) && Joining(s.pcs[t]) && Joins(s, t, s') && u < |s.pcs|
    requires s.queue != [] ==> s.queue[|s.queue| - 1] < |s.nodes|
    ensures ThreadOk(s', u)
  {
    assert ThreadOk(s, t) && ThreadOk(s, u);
  }

  lemma JoinKeepsShape(s: State, t: nat, s': State)
    requires t < |s.pcs| && Shape(s) && Joining(s.pcs[t]) && Joins(s, t, s')
    ensures Shape(s')
  {
    forall i | 0 <= i <= |s.queue| ensures SlotOk(s', i) {
      JoinKeepsSlot(s, t, s', i);
    }
    if s.queue != [] {
      assert SlotOk(s, |s.queue| - 1);
    }
    forall u | 0 <= u < |s.pcs| ensures ThreadOk(s', u) {
      JoinKeepsThreadOk(s, t, s', u);
    }
  }

  lemma JoinKeepsRow(s: State, t: nat, s': State, i: nat)
    requires t < |s.pcs| && Shape(s) && Shape(s') && Joining(s.pcs[t]) && Joins(s, t, s') && i < |s.queue|
    ensures SlotOk(s', i) && RowAt(s', i) == RowAt(s, i)
  {
    assert SlotOk(s, i) && SlotOk(s', i) && ThreadOk(s, t);
  }

  lemma JoinKeepsRows(s: State, t: nat, s': State)
    requires t < |s.pcs| && Shape(s) && RowsOk(s) && Shape(s') && Joining(s.pcs[t]) && Joins(s, t, s')
    ensures RowsOk(s')
  {
    var m := |s.queue|;
    assert ThreadOk(s, t) && SlotOk(s', m);
    forall i | 0 <= i <= m ensures RowOk(s', i) {
      if i < m {
        assert RowOk(s, i);
        JoinKeepsRow(s, t, s', i);
        if i + 1 < m {
          JoinKeepsRow(s, t, s', i + 1);
        }
      }
    }
  }

  lemma JoinKeepsHistory(s: State, t: nat, s': State)
    requires t < |s.pcs| && Inv(s) && Shape(s') && RowsOk(s') && Joining(s.pcs[t]) && Joins(s, t, s')
    ensures HistoryOk(s')
  {
    forall i | 0 <= i < |s.queue| ensures SlotOk(s', i) && RowAt(s', i) == RowAt(s, i) {
      JoinKeepsRow(s, t, s', i);
    }
    assert ThreadOk(s, t) && SlotOk(s', |s.queue|);
  }

  // ---------------------------------------------------------------------------------------
  // Handing the lock on
  // ---------------------------------------------------------------------------------------

  /** The head leaves the queue; the new head may have been told so in its node or its event. */
  ghost predicate Leaves(s: State, t: nat, s': State)
    requires t < |s.pcs| && InQueue(s.pcs[t])
  {
    var n := s.pcs[t].n;
    && n < |s.users| && s.queue != [] && s.queue[0] == n
    && s'.queue == s.queue[1..] && s'.order == s.order && s'.acquired == s.acquired
    && s'.users == s.users[n := Free] && s'.pcs == s.pcs[t := Idle]
    && s'.tail == (if |s.queue| == 1 then Null else s.tail)
    && |s'.nodes| == |s.nodes| && |s'.events| == |s.events|
    && (forall m :: 0 <= m < |s.nodes| && s'.nodes[m] != s.nodes[m] ==> |s.queue| > 1 && m == s.queue[1])
  }

  lemma LeaveKeepsShape(s: State, t: nat, s': State)
    requires t < |s.pcs| && Shape(s) && InQueue(s.pcs[t]) && Leaves(s, t, s')
    ensures Shape(s')
  {
    assert ThreadOk(s, t);
    forall i | 0 <= i < |s'.queue| ensures SlotOk(s', i) && s'.queue[i] != s.queue[0] {
      assert SlotOk(s, i + 1);
    }
    forall u | 0 <= u < |s.pcs| ensures ThreadOk(s', u) {
      assert ThreadOk(s, u);
    }
  }

  lemma LeaveKeepsRow(s: State, t: nat, s': State, i: nat)
    requires t < |s.pcs| && Shape(s) && Shape(s') && InQueue(s.pcs[t]) && Leaves(s, t, s')
    requires i < |s'.queue|
    requires i > 0 && RowAt(s, i + 1).user.Thread? ==>
      s'.events[RowAt(s, i + 1).user.t] == s.events[RowAt(s, i + 1).user.t]
    ensures SlotOk(s, i + 1) && SlotOk(s', i)
    ensures i > 0 ==> RowAt(s', i) == RowAt(s, i + 1)
    ensures RowAt(s', 0).(node := RowAt(s, 1).node, ev := RowAt(s, 1).ev) == RowAt(s, 1)
  {
    assert ThreadOk(s, t) && SlotOk(s, 0) && SlotOk(s, 1) && SlotOk(s, i + 1) && SlotOk(s', i) && SlotOk(s', 0);
  }

  predicate Leaving(p: PC) {
    p.RelSwap? || p.RelPass? || p.RelPassEvent?
  }

  /** The one who leaves is at the head, and whoever follows fits. */
  lemma LeavingIsHead(s: State, t: nat)
    requires t < |s.pcs| && Shape(s) && RowsOk(s) && Leaving(s.pcs[t])
    ensures |s.queue| > 0 && SlotOk(s, 0) && s.queue[0] == s.pcs[t].n
    ensures RowAt(s, 0) == Row(s.pcs[t].n, Thread(t), s.pcs[t], s.nodes[s.pcs[t].n], s.events[t])
    ensures OwnOk(true, RowAt(s, 0))
    ensures |s.queue| > 1 ==> SlotOk(s, 1) && LinkOk(RowAt(s, 0), RowAt(s, 1)) && OwnOk(false, RowAt(s, 1))
    ensures |s.queue| == 1 ==> LastOk(RowAt(s, 0))
  {
    var k := PlaceOf(s, t);
    RowFits(s, k);
  }

  lemma LeavingLeaves(s: State, t: nat, s': State)
    requires t < |s.pcs| && Shape(s) && RowsOk(s) && InRange(s, s.pcs[t]) && ReleaseStep(s, t, s')
    requires Leaving(s.pcs[t]) && s'.pcs[t] == Idle
    ensures Leaves(s, t, s')
    ensures s.pcs[t].RelSwap? ==> |s.queue| == 1
    ensures !s.pcs[t].RelSwap? ==> |s.queue| > 1
    ensures forall u :: 0 <= u < |s.events| && s'.events[u] != s.events[u] ==> RowAt(s, 1).user == Thread(u)
  {
    LeavingIsHead(s, t);
    assert ThreadOk(s, t);
    assert SlotOk(s, |s.queue| - 1);
  }

  /** The new head, if there is one, is an owner-to-be that has been told so. */
  ghost predicate HandsOn(s: State, t: nat, s': State)
    requires t < |s.pcs| && Shape(s) && Shape(s') && InQueue(s.pcs[t])
  {
    && Leaves(s, t, s')
    && (forall u :: 0 <= u < |s.events| && s'.events[u] != s.events[u] ==>
          |s.queue| > 1 && RowAt(s, 1).user == Thread(u))
    && (|s.queue| > 1 ==>
          && OwnOk(true, RowAt(s', 0)) && Waiting(RowAt(s', 0).p)
          && RowAt(s', 0).node.next == RowAt(s, 1).node.next
          && RowAt(s', 0).node.nextFlag == RowAt(s, 1).node.nextFlag)
  }

  lemma LeavingHandsOn(s: State, t: nat, s': State)
    requires t < |s.pcs| && Shape(s) && RowsOk(s) && Shape(s') && InRange(s, s.pcs[t]) && ReleaseStep(s, t, s')
    requires Leaving(s.pcs[t]) && s'.pcs[t] == Idle && Leaves(s, t, s')
    ensures HandsOn(s, t, s')
  {
    LeavingIsHead(s, t);
    LeavingLeaves(s, t, s');
    assert ThreadOk(s, t);
    if |s.queue| > 1 {
      LeaveKeepsRow(s, t, s', 0);
    }
  }

  lemma OtherEventsKept(s: State, i: nat)
    requires Shape(s) && 1 < i < |s.queue| && SlotOk(s, i) && SlotOk(s, 1)
    requires RowAt(s, i).user.Thread?
    ensures RowAt(s, 1).user != RowAt(s, i).user
  {
  }

  lemma HandOnKeepsRow(s: State, t: nat, s': State, i: nat)
    requires t < |s.pcs| && Shape(s) && Shape(s') && InQueue(s.pcs[t]) && HandsOn(s, t, s')
    requires 0 < i < |s'.queue|
    ensures SlotOk(s, i + 1) && SlotOk(s', i) && RowAt(s', i) == RowAt(s, i + 1)
  {
    assert SlotOk(s, i + 1) && SlotOk(s, 1);
    if RowAt(s, i + 1).user.Thread? {
      OtherEventsKept(s, i + 1);
    }
    LeaveKeepsRow(s, t, s', i);
  }

  lemma HandOnKeepsHead(s: State, t: nat, s': State)
    requires t < |s.pcs| && Shape(s) && RowsOk(s) && Shape(s') && InQueue(s.pcs[t]) && HandsOn(s, t, s')
    requires s'.queue != []
    ensures RowOk(s', 0)
  {
    assert RowOk(s, 1);
    LeaveKeepsRow(s, t, s', 0);
    if 1 < |s'.queue| {
      HandOnKeepsRow(s, t, s', 1);
    }
  }

  lemma HandOnKeepsLater(s: State, t: nat, s': State, i: nat)
    requires t < |s.pcs| && Shape(s) && RowsOk(s) && Shape(s') && InQueue(s.pcs[t]) && HandsOn(s, t, s')
    requires 0 < i < |s'.queue|
    ensures RowOk(s', i)
  {
    assert RowOk(s, i + 1);
    HandOnKeepsRow(s, t, s', i);
    if i + 1 < |s'.queue| {
      HandOnKeepsRow(s, t, s', i + 1);
    }
  }

  lemma HandOnKeepsRows(s: State, t: nat, s': State)
    requires t < |s.pcs| && Shape(s) && RowsOk(s) && Shape(s') && InQueue(s.pcs[t]) && HandsOn(s, t, s')
    ensures RowsOk(s')
  {
    forall i | 0 <= i < |s'.queue| ensures RowOk(s', i) {
      if i > 0 {
        HandOnKeepsLater(s, t, s', i);
      } else {
        HandOnKeepsHead(s, t, s');
      }
    }
  }

  lemma HandOnKeepsHistory(s: State, t: nat, s': State)
    requires t < |s.pcs| && Inv(s) && Shape(s') && RowsOk(s') && InQueue(s.pcs[t]) && HandsOn(s, t, s')
    requires SlotOk(s, 0) && Owns(RowAt(s, 0).p)
    ensures HistoryOk(s')
  {
    forall i | 0 <= i < |s'.queue|
      ensures SlotOk(s, i + 1) && SlotOk(s', i) && RowAt(s', i).user == RowAt(s, i + 1).user
    {
      if i > 0 {
        HandOnKeepsRow(s, t, s', i);
      } else {
        LeaveKeepsRow(s, t, s', 0);
      }
    }
  }

  // ---------------------------------------------------------------------------------------
  // Entering and leaving the lock's code
  // ---------------------------------------------------------------------------------------

  /** Only the claim on one node changes: `n` becomes `u`'s, freshly initialised if it was free. */
  ghost predicate Claims(s: State, t: nat, s': State, n: nat, u: User, q: PC)
    requires t < |s.pcs|
  {
    && n < |s.users| && |s.users| == |s.nodes|
    && s'.tail == s.tail && s'.queue == s.queue && s'.order == s.order && s'.acquired == s.acquired
    && s'.users == s.users[n := u] && s'.events == s.events && s'.pcs == s.pcs[t := q]
    && s'.nodes == (if s.users[n] == Free then s.nodes[n := FRESH] else s.nodes)
  }

  predicate ClaimAllowed(p: PC, before: User, n: nat, t: nat, u: User, q: PC) {
    || (p == Idle && before == Free && u == Thread(t) && (q == AcqSwap(n) || q == TrySwap(n)))
    || (p == Idle && before == Parked && u == Thread(t) && q == RelRead(n))
    || (p == Held(n) && u == Parked && q == Idle)
    || (p.Held? && before == Free && u == Thread(t) && q == MovSwap(p.n, n))
    || (p == TrySwap(n) && u == Free && q == Idle)
  }

  lemma FreeIsUnqueued(s: State, n: nat)
    requires Shape(s) && n < |s.users| && s.users[n] == Free
    ensures n !in s.queue
  {
    forall i | 0 <= i < |s.queue| ensures s.queue[i] != n {
      assert SlotOk(s, i);
    }
  }

  lemma ClaimKeepsThreadOk(s: State, t: nat, s': State, n: nat, u: User, q: PC, v: nat)
    requires t < |s.pcs| && Shape(s) && Claims(s, t, s', n, u, q) && v < |s.pcs|
    requires ClaimAllowed(s.pcs[t], s.users[n], n, t, u, q)
    ensures ThreadOk(s', v)
  {
    if s.users[n] == Free {
      FreeIsUnqueued(s, n);
    }
    assert ThreadOk(s, t) && ThreadOk(s, v);
  }

  lemma ClaimKeepsSlot(s: State, t: nat, s': State, n: nat, u: User, q: PC, i: nat)
    requires t < |s.pcs| && Shape(s) && Claims(s, t, s', n, u, q) && i < |s.queue|
    requires ClaimAllowed(s.pcs[t], s.users[n], n, t, u, q)
    ensures SlotOk(s', i)
  {
    if s.users[n] == Free {
      FreeIsUnqueued(s, n);
    }
    assert ThreadOk(s, t) && SlotOk(s, i);
  }

  lemma ClaimKeepsShape(s: State, t: nat, s': State, n: nat, u: User, q: PC)
    requires t < |s.pcs| && Shape(s) && Claims(s, t, s', n, u, q)
    requires ClaimAllowed(s.pcs[t], s.users[n], n, t, u, q)
    ensures Shape(s')
  {
    assert ThreadOk(s, t);
    forall i | 0 <= i < |s.queue| ensures SlotOk(s', i) {
      ClaimKeepsSlot(s, t, s', n, u, q, i);
    }
    forall v | 0 <= v < |s.pcs| ensures ThreadOk(s', v) {
      ClaimKeepsThreadOk(s, t, s', n, u, q, v);
    }
  }

  /** An owner that has not begun to look for its successor. */
  predicate Settled(p: PC) {
    p.Held? || p.RelRead? || p.MovSwap?
  }

  /** A row before and after a claim. */
  ghost predicate SameButSettled(r: Row, r': Row) {
    || r' == r
    || (r'.n == r.n && r'.node == r.node && Settled(r.p) && Settled(r'.p) && r'.p.n == r.p.n
        && (r'.user.Thread? || (r'.user.Parked? && r'.p == Held(r.n))))
  }

  lemma ClaimKeepsRow(s: State, t: nat, s': State, n: nat, u: User, q: PC, i: nat)
    requires t < |s.pcs| && Shape(s) && Shape(s') && Claims(s, t, s', n, u, q)
    requires ClaimAllowed(s.pcs[t], s.users[n], n, t, u, q) && i < |s.queue|
    ensures SlotOk(s, i) && SlotOk(s', i) && SameButSettled(RowAt(s, i), RowAt(s', i))
  {
    assert ThreadOk(s, t) && SlotOk(s, i) && SlotOk(s', i);
  }

  lemma SettledFitsFirst(r: Row, r': Row, first: bool)
    requires OwnOk(first, r) && SameButSettled(r, r')
    ensures OwnOk(first, r') && (LastOk(r) ==> LastOk(r'))
  {
  }

  lemma SettledFitsLink(r: Row, r': Row, next: Row, next': Row)
    requires LinkOk(r, next) && SameButSettled(r, r') && SameButSettled(next, next')
    ensures LinkOk(r', next')
  {
  }

  lemma ClaimKeepsRows(s: State, t: nat, s': State, n: nat, u: User, q: PC)
    requires t < |s.pcs| && Shape(s) && RowsOk(s) && Shape(s') && Claims(s, t, s', n, u, q)
    requires ClaimAllowed(s.pcs[t], s.users[n], n, t, u, q)
    ensures RowsOk(s')
  {
    forall i | 0 <= i < |s'.queue| ensures RowOk(s', i) {
      assert RowOk(s, i);
      ClaimKeepsRow(s, t, s', n, u, q, i);
      SettledFitsFirst(RowAt(s, i), RowAt(s', i), i == 0);
      if i + 1 < |s.queue| {
        ClaimKeepsRow(s, t, s', n, u, q, i + 1);
        SettledFitsLink(RowAt(s, i), RowAt(s', i), RowAt(s, i + 1), RowAt(s', i + 1));
      }
    }
  }

  lemma SettledKeepsHistory(s: State, s': State)
    requires s'.queue == s.queue && s'.order == s.order && s'.acquired == s.acquired
    requires forall i :: 0 <= i < |s.queue| ==> SlotOk(s, i)
    requires forall i :: 0 <= i < |s.queue| ==> SlotOk(s', i)
    requires forall i :: 0 <= i < |s.queue| ==> SameButSettled(RowAt(s, i), RowAt(s', i))
    requires forall i :: 0 < i < |s.queue| ==> !Owns(RowAt(s, i).p)
    requires HistoryOk(s)
    ensures HistoryOk(s')
  {
  }

  lemma ClaimKeepsHistory(s: State, t: nat, s': State, n: nat, u: User, q: PC)
    requires t < |s.pcs| && Inv(s) && Shape(s') && Claims(s, t, s', n, u, q)
    requires ClaimAllowed(s.pcs[t], s.users[n], n, t, u, q)
    ensures HistoryOk(s')
  {
    forall i | 0 <= i < |s.queue|
      ensures SlotOk(s, i) && SlotOk(s', i) && SameButSettled(RowAt(s, i), RowAt(s', i))
      ensures Owns(RowAt(s, i).p) ==> i == 0
    {
      ClaimKeepsRow(s, t, s', n, u, q, i);
      assert RowOk(s, i);
    }
    SettledKeepsHistory(s, s');
  }

  lemma ClaimKeepsInv(s: State, t: nat, s': State, n: nat, u: User, q: PC)
    requires t < |s.pcs| && Inv(s) && Claims(s, t, s', n, u, q)
    requires ClaimAllowed(s.pcs[t], s.users[n], n, t, u, q)
    ensures Inv(s')
  {
    ClaimKeepsShape(s, t, s', n, u, q);
    ClaimKeepsRows(s, t, s', n, u, q);
    ClaimKeepsHistory(s, t, s', n, u, q);
  }

  // ---------------------------------------------------------------------------------------
  // Moving the owner's node
  // ---------------------------------------------------------------------------------------

  /** The new node `m` replaces the old one, `n`, at the head of the queue. */
  ghost predicate Replaces(s: State, t: nat, s': State)
    requires t < |s.pcs| && Moving(s.pcs[t])
  {
    var n, m := s.pcs[t].n, s.pcs[t].dest;
    && n < |s.users| && m < |s.nodes| && s.queue != [] && s.queue[0] == n
    && s'.queue == s.queue[0 := m] && s'.order == s.order && s'.acquired == s.acquired
    && s'.users == s.users[n := Free] && s'.pcs == s.pcs[t := Held(m)] && s'.events == s.events
    && s'.tail == (if |s.queue| == 1 then To(m) else s.tail)
    && |s'.nodes| == |s.nodes| && s'.nodes == s.nodes[m := s'.nodes[m]]
  }

  lemma ReplaceKeepsSlots(s: State, t: nat, s': State, i: nat)
    requires t < |s.pcs| && Shape(s) && Moving(s.pcs[t]) && Replaces(s, t, s') && i < |s.queue|
    ensures SlotOk(s', i) && (i > 0 ==> s'.queue[i] == s.queue[i] != s.queue[0])
  {
    assert ThreadOk(s, t) && SlotOk(s, i);
  }

  lemma ReplaceKeepsThreadOk(s: State, t: nat, s': State, u: nat)
    requires t < |s.pcs| && Shape(s) && Moving(s.pcs[t]) && Replaces(s, t, s') && u < |s.pcs|
    requires forall n :: n in s'.queue <==> n == s.pcs[t].dest || (n in s.queue && n != s.pcs[t].n)
    ensures ThreadOk(s', u)
  {
    assert ThreadOk(s, t) && ThreadOk(s, u);
  }

  lemma ReplaceKeepsShape(s: State, t: nat, s': State)
    requires t < |s.pcs| && Shape(s) && Moving(s.pcs[t]) && Replaces(s, t, s')
    ensures Shape(s')
  {
    assert ThreadOk(s, t);
    forall i | 0 <= i < |s'.queue|
      ensures SlotOk(s', i) && (i > 0 ==> s'.queue[i] == s.queue[i] != s.queue[0])
    {
      ReplaceKeepsSlots(s, t, s', i);
    }
    assert s.pcs[t].dest == s'.queue[0];
    assert forall n :: n in s'.queue <==> n == s.pcs[t].dest || (n in s.queue && n != s.pcs[t].n);
    forall u | 0 <= u < |s.pcs| ensures ThreadOk(s', u) {
      ReplaceKeepsThreadOk(s, t, s', u);
    }
  }

  lemma TransferReplaces(s: State, t: nat, s': State)
    requires t < |s.pcs| && Shape(s) && RowsOk(s) && InRange(s, s.pcs[t]) && TransferStep(s, t, s')
    requires s'.pcs[t].Held?
    ensures Moving(s.pcs[t]) && Replaces(s, t, s')
    ensures |s.queue| > 0 && SlotOk(s, 0) && RowAt(s, 0).p == s.pcs[t] && RowAt(s, 0).user == Thread(t)
    ensures |s.queue| > 1 ==> s.pcs[t].MovCopyFlag?
    ensures s'.nodes[s.pcs[t].dest] == if |s.queue| == 1 then FRESH
              else Node(s.pcs[t].copied, s.nodes[s.pcs[t].n].nextFlag, Clear)
  {
    assert ThreadOk(s, t);
    var k := PlaceOf(s, t);
    RowFits(s, k);
    assert SlotOk(s, |s.queue| - 1);
  }

  lemma ReplaceKeepsRows(s: State, t: nat, s': State)
    requires t < |s.pcs| && Shape(s) && RowsOk(s) && Shape(s') && InRange(s, s.pcs[t]) && TransferStep(s, t, s')
    requires s'.pcs[t].Held?
    ensures RowsOk(s')
  {
    TransferReplaces(s, t, s');
    assert ThreadOk(s, t);
    forall i | 0 < i < |s'.queue| ensures SlotOk(s, i) && SlotOk(s', i) && RowAt(s', i) == RowAt(s, i) {
      assert SlotOk(s, i) && SlotOk(s', i) && SlotOk(s, 0);
    }
    assert SlotOk(s', 0);
    forall i | 0 <= i < |s'.queue| ensures RowOk(s', i) {
      assert RowOk(s, i);
    }
  }

  lemma ReplaceKeepsHistory(s: State, t: nat, s': State)
    requires t < |s.pcs| && Inv(s) && Shape(s') && RowsOk(s') && InRange(s, s.pcs[t]) && TransferStep(s, t, s')
    requires s'.pcs[t].Held?
    ensures HistoryOk(s')
  {
    TransferReplaces(s, t, s');
    forall i | 0 < i < |s'.queue| ensures SlotOk(s, i) && SlotOk(s', i) && RowAt(s', i).user == RowAt(s, i).user {
      assert SlotOk(s, i) && SlotOk(s', i) && SlotOk(s, 0);
    }
    assert ThreadOk(s, t) && SlotOk(s', 0);
    assert RowAt(s', 0).p.Held? && Owns(RowAt(s, 0).p);
  }

  // ---------------------------------------------------------------------------------------
  // Every step, every run
  // ---------------------------------------------------------------------------------------

  lemma CallKeepsInv(s: State, t: nat, s': State)
    requires t < |s.pcs| && Inv(s) && InRange(s, s.pcs[t]) && CallStep(s, t, s')
    ensures Inv(s')
  {
    var n: nat :| n < |s.nodes| && s.users[n] != Thread(t)
      && (s.users[n] == Free || s.users[n] == Parked)
      && Claims(s, t, s', n, Thread(t), s'.pcs[t]) && ClaimAllowed(s.pcs[t], s.users[n], n, t, Thread(t), s'.pcs[t]);
    ClaimKeepsInv(s, t, s', n, Thread(t), s'.pcs[t]);
  }

  lemma QuietKeepsInv(s: State, t: nat, s': State)
    requires t < |s.pcs| && Inv(s) && Quiet(s, t, s') && Shape(s') && RowsOk(s') && s'.order == s.order
    requires if Waiting(s.pcs[t]) && Owns(s'.pcs[t]) then s'.acquired == s.acquired + [t]
             else s'.acquired == s.acquired && Owns(s'.pcs[t]) == Owns(s.pcs[t])
    ensures Inv(s')
  {
    QuietKeepsHistory(s, t, s');
  }

  lemma JoinKeepsInv(s: State, t: nat, s': State)
    requires t < |s.pcs| && Inv(s) && InRange(s, s.pcs[t]) && AcquireStep(s, t, s') && Joining(s.pcs[t])
    ensures Inv(s')
  {
    if s.pcs[t].TrySwap? && s.tail != Null {
      assert ThreadOk(s, t);
      ClaimKeepsInv(s, t, s', s.pcs[t].n, Free, Idle);
    } else {
      JoinKeepsShape(s, t, s');
      JoinKeepsRows(s, t, s');
      JoinKeepsHistory(s, t, s');
    }
  }

  lemma AcquireKeepsInv(s: State, t: nat, s': State)
    requires t < |s.pcs| && Inv(s) && InRange(s, s.pcs[t]) && AcquireStep(s, t, s')
    ensures Inv(s')
  {
    var p := s.pcs[t];
    if Joining(p) {
      JoinKeepsInv(s, t, s');
    } else if Linking(p) {
      LinkingKeepsRows(s, t, s');
      QuietKeepsInv(s, t, s');
    } else {
      assert ThreadOk(s, t);
      OwnAcquireIsOwn(s, t, s');
      OwnAcquireKeepsRows(s, t, s');
      QuietKeepsInv(s, t, s');
    }
  }

  lemma LeaveKeepsInv(s: State, t: nat, s': State)
    requires t < |s.pcs| && Inv(s) && InRange(s, s.pcs[t]) && LeaveStep(s, t, s')
    ensures Inv(s')
  {
    var n := s.pcs[t].n;
    if s' == Goto(s, t, RelRead(n)) {
      assert ThreadOk(s, t);
      QuietKeepsShape(s, t, s');
      var k := PlaceOf(s, t);
      var k' := PlaceOf(s', t);
      RowFits(s, k);
      OwnKeepsRows(s, t, s', k);
      QuietKeepsInv(s, t, s');
    } else if s' == Goto(SetUser(s, n, Parked), t, Idle) {
      assert ThreadOk(s, t);
      ClaimKeepsInv(s, t, s', n, Parked, Idle);
    } else {
      var m: nat :| m < |s.nodes| && s.users[m] == Free
        && s' == Goto(SetUser(SetNode(s, m, FRESH), m, Thread(t)), t, MovSwap(n, m));
      ClaimKeepsInv(s, t, s', m, Thread(t), MovSwap(n, m));
    }
  }

  lemma PassKeepsInv(s: State, t: nat, s': State)
    requires t < |s.pcs| && Inv(s) && InRange(s, s.pcs[t]) && ReleaseStep(s, t, s')
    requires Leaving(s.pcs[t]) && s'.pcs[t] == Idle
    ensures Inv(s')
  {
    LeavingIsHead(s, t);
    LeavingLeaves(s, t, s');
    LeaveKeepsShape(s, t, s');
    LeavingHandsOn(s, t, s');
    HandOnKeepsRows(s, t, s');
    HandOnKeepsHistory(s, t, s');
  }

  lemma ReleaseStaysOrPasses(s: State, t: nat, s': State)
    requires t < |s.pcs| && InRange(s, s.pcs[t]) && ReleaseStep(s, t, s') && ThreadOk(s, t)
    ensures InQueue(s'.pcs[t]) || (Leaving(s.pcs[t]) && s'.pcs[t] == Idle)
    ensures InQueue(s'.pcs[t]) ==> s'.order == s.order && s'.acquired == s.acquired && Owns(s'.pcs[t])
  {
  }

  lemma ReleaseKeepsInv(s: State, t: nat, s': State)
    requires t < |s.pcs| && Inv(s) && InRange(s, s.pcs[t]) && ReleaseStep(s, t, s')
    ensures Inv(s')
  {
    assert ThreadOk(s, t);
    ReleaseStaysOrPasses(s, t, s');
    if InQueue(s'.pcs[t]) {
      OwnReleaseKeepsRows(s, t, s');
      QuietKeepsInv(s, t, s');
    } else {
      PassKeepsInv(s, t, s');
    }
  }

  lemma OwnTransferKeepsInv(s: State, t: nat, s': State)
    requires t < |s.pcs| && Inv(s) && InRange(s, s.pcs[t]) && TransferStep(s, t, s')
    requires |s'.pcs| == |s.pcs| && Moving(s'.pcs[t])
    ensures Inv(s')
  {
    TransferStaysOrEnds(s, t, s');
    OwnTransferKeepsRows(s, t, s');
    QuietKeepsInv(s, t, s');
  }

  lemma EndOfTransferKeepsInv(s: State, t: nat, s': State)
    requires t < |s.pcs| && Inv(s) && InRange(s, s.pcs[t]) && TransferStep(s, t, s')
    requires |s'.pcs| == |s.pcs| && s'.pcs[t].Held?
    ensures Inv(s')
  {
    TransferReplaces(s, t, s');
    ReplaceKeepsShape(s, t, s');
    ReplaceKeepsRows(s, t, s');
    ReplaceKeepsHistory(s, t, s');
  }

  lemma TransferKeepsInv(s: State, t: nat, s': State)
    requires t < |s.pcs| && Inv(s) && InRange(s, s.pcs[t]) && TransferStep(s, t, s')
    ensures Inv(s')
  {
    TransferStaysOrEnds(s, t, s');
    if Moving(s'.pcs[t]) {
      OwnTransferKeepsInv(s, t, s');
    } else {
      EndOfTransferKeepsInv(s, t, s');
    }
  }

  /** Every atomic step of any thread keeps the invariant. */
  lemma StepKeepsInv(s: State, t: nat, s': State)
    requires t < |s.pcs| && Inv(s) && Step(s, t, s')
    ensures Inv(s')
  {
    if CallStep(s, t, s') {
      CallKeepsInv(s, t, s');
    } else if AcquireStep(s, t, s') {
      AcquireKeepsInv(s, t, s');
    } else if LeaveStep(s, t, s') {
      LeaveKeepsInv(s, t, s');
    } else if ReleaseStep(s, t, s') {
      ReleaseKeepsInv(s, t, s');
    } else {
      TransferKeepsInv(s, t, s');
    }
  }

  lemma InitIsInv(s: State)
    requires Init(s)
    ensures Inv(s)
  {
  }

  ghost predicate Next(s: State, s': State) {
    exists t: nat :: t < |s.pcs| && Step(s, t, s')
  }

  lemma NextKeepsInv(s: State, s': State)
    requires Inv(s) && Next(s, s')
    ensures Inv(s')
  {
    var t: nat :| t < |s.pcs| && Step(s, t, s');
    StepKeepsInv(s, t, s');
  }

  /** The invariant holds at the start of every run, and every step keeps it, for any number of threads. */
  lemma InvIsInductive()
    ensures Runs.Starts(Init, Inv) && Runs.Keeps(Next, Inv)
  {
    forall s | Init(s) ensures Inv(s) {
      InitIsInv(s);
    }
    forall s, s' | Inv(s) && Next(s, s') ensures Inv(s') {
      NextKeepsInv(s, s');
    }
  }

  ghost predicate Reachable(s: State) {
    Runs.Reachable(Init, Next, s)
  }

  lemma ReachesOn(s: State, t: nat, s': State)
    requires Reachable(s) && t < |s.pcs| && Step(s, t, s')
    ensures Reachable(s')
  {
    Runs.ReachesOn(Init, Next, s, s');
  }

  lemma ReachableIsInv(s: State)
    requires Reachable(s)
    ensures Inv(s)
  {
    InvIsInductive();
    Runs.ReachableKeeps(Init, Next, Inv, s);
  }

  // ---------------------------------------------------------------------------------------
  // What the lock promises
  // ---------------------------------------------------------------------------------------

  ghost predicate IsHead(s: State, n: nat) {
    s.queue != [] && s.queue[0] == n
  }

  lemma ParkedIsHead(s: State, n: nat)
    requires Inv(s) && n < |s.users| && s.users[n] == Parked
    ensures IsHead(s, n)
  {
    var i :| 0 <= i < |s.queue| && s.queue[i] == n;
    assert RowOk(s, i);
  }

  /** Mutual exclusion: one owner at most, be it a thread or a node left held. */
  lemma OneOwner(s: State, t: nat)
    requires Reachable(s) && t < |s.pcs| && Owns(s.pcs[t])
    ensures IsHead(s, s.pcs[t].n)
    ensures forall u :: 0 <= u < |s.pcs| && u != t ==> !Owns(s.pcs[u])
    ensures forall n :: 0 <= n < |s.users| ==> s.users[n] != Parked
  {
    ReachableIsInv(s);
    var hasNext, next := OwnerIsFirst(s, t);
    forall u | 0 <= u < |s.pcs| && Owns(s.pcs[u]) ensures u == t {
      var hasNext', next' := OwnerIsFirst(s, u);
    }
    forall n | 0 <= n < |s.users| ensures s.users[n] != Parked {
      if s.users[n] == Parked {
        ParkedIsHead(s, n);
      }
    }
  }

  /** 1 while the lock is owned, be it by a thread or by a node left held; else 0. */
  ghost function Taken(s: State): int {
    |s.queue| - |s.order| + |s.acquired|
  }

  lemma TakenMeansOwned(s: State)
    requires Inv(s)
    ensures Taken(s) == 0 || Taken(s) == 1
    ensures Taken(s) == 1 ==> s.queue != [] && SlotOk(s, 0) && Owns(RowAt(s, 0).p)
  {
    assert s.queue != [] ==> SlotOk(s, 0);
  }

  ghost predicate TakenMoves(s: State, t: nat, s': State)
    requires t < |s.pcs| == |s'.pcs|
  {
    || (Taken(s') == Taken(s) + 1 && s'.acquired == s.acquired + [t] && Owns(s'.pcs[t]))
    || (Taken(s') == Taken(s) - 1 && s'.acquired == s.acquired && Owns(s.pcs[t]) && s'.pcs[t] == Idle)
    || (Taken(s') == Taken(s) && s'.acquired == s.acquired)
  }

  lemma AcquireMovesTaken(s: State, t: nat, s': State)
    requires t < |s.pcs| && InRange(s, s.pcs[t]) && AcquireStep(s, t, s')
    ensures |s'.pcs| == |s.pcs| && TakenMoves(s, t, s')
  {
  }

  lemma StepMovesTaken(s: State, t: nat, s': State)
    requires t < |s.pcs| && ThreadOk(s, t) && Step(s, t, s')
    requires Owns(s.pcs[t]) ==> s.queue != []
    ensures |s'.pcs| == |s.pcs| && TakenMoves(s, t, s')
  {
    if AcquireStep(s, t, s') {
      AcquireMovesTaken(s, t, s');
    }
  }

  /** The queue lock refines a lock: each step takes it when it was free, and is then recorded as
      the next grant, or is the owner's and gives it up, or leaves it as it is. */
  lemma RefinesLock(s: State, t: nat, s': State)
    requires Reachable(s) && t < |s.pcs| && Step(s, t, s')
    ensures |s'.pcs| == |s.pcs|
    ensures || (Taken(s) == 0 && Taken(s') == 1 && s'.acquired == s.acquired + [t] && Owns(s'.pcs[t]))
            || (Taken(s) == 1 && Taken(s') == 0 && s'.acquired == s.acquired && Owns(s.pcs[t]))
            || (Taken(s') == Taken(s) && s'.acquired == s.acquired)
    ensures Taken(s) == 1 <==>
      || (exists u :: 0 <= u < |s.pcs| && Owns(s.pcs[u]))
      || (exists n :: 0 <= n < |s.users| && s.users[n] == Parked)
  {
    ReachableIsInv(s);
    StepKeepsInv(s, t, s');
    TakenMeansOwned(s);
    TakenMeansOwned(s');
    TakenIsByOne(s);
    assert ThreadOk(s, t);
    if Owns(s.pcs[t]) {
      var k := PlaceOf(s, t);
    }
    StepMovesTaken(s, t, s');
  }

  lemma TakenIsByOne(s: State)
    requires Inv(s)
    ensures Taken(s) == 1 <==>
      || (exists u :: 0 <= u < |s.pcs| && Owns(s.pcs[u]))
      || (exists n :: 0 <= n < |s.users| && s.users[n] == Parked)
  {
    TakenMeansOwned(s);
    if Taken(s) == 1 {
      var n := s.queue[0];
      assert if s.users[n].Thread? then Owns(s.pcs[s.users[n].t]) else s.users[n] == Parked;
    }
    forall u | 0 <= u < |s.pcs| && Owns(s.pcs[u]) ensures Taken(s) == 1 {
      var hasNext, next := OwnerIsFirst(s, u);
    }
    forall n | 0 <= n < |s.users| && s.users[n] == Parked ensures Taken(s) == 1 {
      ParkedIsHead(s, n);
      assert SlotOk(s, 0);
    }
  }

  /** The lock is granted exactly in the order of the tail exchanges, and the next thread to get
      it is the one at the head of the queue. */
  lemma GrantsFollowArrivals(s: State)
    requires Reachable(s)
    ensures s.acquired <= s.order
    ensures forall t :: 0 <= t < |s.pcs| && Waiting(s.pcs[t]) && IsHead(s, s.pcs[t].n) ==>
              |s.acquired| < |s.order| && s.order[|s.acquired|] == t
  {
    ReachableIsInv(s);
    forall t | 0 <= t < |s.pcs| && Waiting(s.pcs[t]) && IsHead(s, s.pcs[t].n)
      ensures |s.acquired| < |s.order| && s.order[|s.acquired|] == t
    {
      var k := PlaceOf(s, t);
      assert SlotOk(s, k) && k == 0;
    }
  }

  ghost predicate QueueMoves(s: State, t: nat, s': State)
    requires t < |s.pcs|
  {
    || s'.queue == s.queue
    || (Joining(s.pcs[t]) && s'.queue == s.queue + [s.pcs[t].n])
    || (Leaving(s.pcs[t]) && s.queue != [] && s.queue[0] == s.pcs[t].n && s'.queue == s.queue[1..])
    || (Moving(s.pcs[t]) && s.queue != [] && s.queue[0] == s.pcs[t].n && s'.queue == s.queue[0 := s.pcs[t].dest])
  }

  lemma StepMovesQueue(s: State, t: nat, s': State)
    requires t < |s.pcs| && ThreadOk(s, t) && Step(s, t, s')
    requires Owns(s.pcs[t]) ==> s.queue != [] && s.queue[0] == s.pcs[t].n
    ensures QueueMoves(s, t, s')
  {
  }

  /** The queue changes in four ways only: at its end by a tail exchange, at its head by the
      owner's release, and by a transfer, which puts the new node where the old one was. */
  lemma QueueChanges(s: State, t: nat, s': State)
    requires t < |s.pcs| && Reachable(s) && Step(s, t, s')
    ensures QueueMoves(s, t, s')
  {
    ReachableIsInv(s);
    assert ThreadOk(s, t);
    if Owns(s.pcs[t]) {
      var hasNext, next := OwnerIsFirst(s, t);
    }
    StepMovesQueue(s, t, s');
  }

  /** The nodes that a thread at `p` may still read or write. */
  function Touches(p: PC): set<nat> {
    (if p == Idle then {} else {p.n})
    + (if Moving(p) then {p.dest} else {})
    + (if p.AcqLink? || p.AcqTell? then {p.pred} else {})
    + (if (p.RelCheck? || p.RelStore? || p.RelBlock?) && p.known.To? then {p.known.node} else {})
    + (if p.RelPass? then {p.succ} else {})
  }

  lemma TouchedIsInUse(s: State, u: nat, x: nat)
    requires Inv(s) && u < |s.pcs| && x in Touches(s.pcs[u])
    ensures x < |s.users| && s.users[x] != Free
    ensures s.users[x] != Thread(u) ==> x in s.queue
  {
    assert ThreadOk(s, u);
    if InQueue(s.pcs[u]) {
      var k := PlaceOf(s, u);
      RowFits(s, k);
      if k > 0 {
        assert SlotOk(s, k - 1);
      }
    }
  }

  /** `s`, but with other contents of node `x`. */
  function WithNode(s: State, x: nat, v: Node): State {
    if x < |s.nodes| then s.(nodes := s.nodes[x := v]) else s
  }

  lemma ReadyIgnores(s: State, t: nat, x: nat, v: Node)
    requires t < |s.pcs| && InRange(s, s.pcs[t]) && x !in Touches(s.pcs[t])
    ensures InRange(WithNode(s, x, v), s.pcs[t]) && Ready(WithNode(s, x, v), t) == Ready(s, t)
  {
  }

  lemma AcquireIgnores(s: State, t: nat, x: nat, v: Node)
    requires t < |s.pcs| && InRange(s, s.pcs[t]) && InAcquire(s.pcs[t]) && x !in Touches(s.pcs[t])
    ensures InRange(WithNode(s, x, v), s.pcs[t])
    ensures AfterAcquire(WithNode(s, x, v), t) == WithNode(AfterAcquire(s, t), x, v)
  {
  }

  lemma ReleaseIgnores(s: State, t: nat, x: nat, v: Node)
    requires t < |s.pcs| && InRange(s, s.pcs[t]) && InRelease(s.pcs[t]) && Ready(s, t) && x !in Touches(s.pcs[t])
    ensures InRange(WithNode(s, x, v), s.pcs[t]) && Ready(WithNode(s, x, v), t)
    ensures AfterRelease(WithNode(s, x, v), t) == WithNode(AfterRelease(s, t), x, v)
  {
  }

  lemma TransferIgnores(s: State, t: nat, x: nat, v: Node)
    requires t < |s.pcs| && InRange(s, s.pcs[t]) && Moving(s.pcs[t]) && x !in Touches(s.pcs[t])
    ensures InRange(WithNode(s, x, v), s.pcs[t])
    ensures AfterTransfer(WithNode(s, x, v), t) == WithNode(AfterTransfer(s, t), x, v)
  {
  }

  /** The step of `t` from `s` to `s'` neither writes node `x` nor depends on what is in it. */
  ghost predicate LeavesAlone(s: State, t: nat, s': State, x: nat)
    requires t < |s.pcs|
  {
    && |s'.nodes| == |s.nodes| && (x < |s.nodes| ==> s'.nodes[x] == s.nodes[x])
    && forall v :: Step(WithNode(s, x, v), t, WithNode(s', x, v))
  }

  lemma CallIgnores(s: State, t: nat, s': State, x: nat, v: Node)
    requires t < |s.pcs| && InRange(s, s.pcs[t]) && CallStep(s, t, s') && x !in Touches(s'.pcs[t])
    ensures |s'.nodes| == |s.nodes| && (x < |s.nodes| ==> s'.nodes[x] == s.nodes[x])
    ensures Step(WithNode(s, x, v), t, WithNode(s', x, v))
  {
    var n := s'.pcs[t].n;
    var w, w' := WithNode(s, x, v), WithNode(s', x, v);
    if s.users[n] == Free && x < |s.nodes| {
      assert s.nodes[n := FRESH][x := v] == s.nodes[x := v][n := FRESH];
    }
    assert w.users[n] == s.users[n];
    assert CallStep(w, t, w');
  }

  lemma LeaveIgnores(s: State, t: nat, s': State, x: nat, v: Node)
    requires t < |s.pcs| && InRange(s, s.pcs[t]) && LeaveStep(s, t, s') && x !in Touches(s'.pcs[t])
    ensures |s'.nodes| == |s.nodes| && (x < |s.nodes| ==> s'.nodes[x] == s.nodes[x])
    ensures Step(WithNode(s, x, v), t, WithNode(s', x, v))
  {
    var w, w' := WithNode(s, x, v), WithNode(s', x, v);
    if s'.pcs[t].MovSwap? {
      var m := s'.pcs[t].dest;
      if x < |s.nodes| {
        assert s.nodes[m := FRESH][x := v] == s.nodes[x := v][m := FRESH];
      }
      assert w.users[m] == s.users[m];
    }
    assert LeaveStep(w, t, w');
  }

  lemma CodeIgnores(s: State, t: nat, s': State, x: nat, v: Node)
    requires t < |s.pcs| && InRange(s, s.pcs[t]) && x !in Touches(s.pcs[t])
    requires AcquireStep(s, t, s') || ReleaseStep(s, t, s') || TransferStep(s, t, s')
    ensures Step(WithNode(s, x, v), t, WithNode(s', x, v))
  {
    var w, w' := WithNode(s, x, v), WithNode(s', x, v);
    ReadyIgnores(s, t, x, v);
    if InAcquire(s.pcs[t]) {
      AcquireIgnores(s, t, x, v);
      assert AcquireStep(w, t, w');
    } else if InRelease(s.pcs[t]) {
      ReleaseIgnores(s, t, x, v);
      assert ReleaseStep(w, t, w');
    } else {
      TransferIgnores(s, t, x, v);
      assert TransferStep(w, t, w');
    }
  }

  lemma CodeWritesTouched(s: State, t: nat, s': State, x: nat)
    requires t < |s.pcs| && InRange(s, s.pcs[t]) && x !in Touches(s.pcs[t])
    requires AcquireStep(s, t, s') || ReleaseStep(s, t, s') || TransferStep(s, t, s')
    ensures |s'.nodes| == |s.nodes| && (x < |s.nodes| ==> s'.nodes[x] == s.nodes[x])
  {
  }

  /** A step reads and writes no nodes but those that its thread touches before or after it. */
  lemma StepLeavesAlone(s: State, t: nat, s': State, x: nat)
    requires t < |s.pcs| && Step(s, t, s') && x !in Touches(s.pcs[t]) && x !in Touches(s'.pcs[t])
    ensures LeavesAlone(s, t, s', x)
  {
    forall v
      ensures Step(WithNode(s, x, v), t, WithNode(s', x, v))
      ensures |s'.nodes| == |s.nodes| && (x < |s.nodes| ==> s'.nodes[x] == s.nodes[x])
    {
      if CallStep(s, t, s') {
        CallIgnores(s, t, s', x, v);
      } else if LeaveStep(s, t, s') {
        LeaveIgnores(s, t, s', x, v);
      } else {
        CodeIgnores(s, t, s', x, v);
        CodeWritesTouched(s, t, s', x);
      }
    }
    assert Step(WithNode(s, x, FRESH), t, WithNode(s', x, FRESH));
  }

  /** Thread `u` has nothing to do with node `x`: nobody uses it, or another thread that has not
      queued it. */
  predicate Foreign(s: State, x: nat, u: nat) {
    && x < |s.users|
    && (s.users[x] == Free || (s.users[x].Thread? && s.users[x].t != u && x !in s.queue))
  }

  lemma ForeignIsUntouched(s: State, x: nat, u: nat)
    requires Inv(s) && u < |s.pcs| && Foreign(s, x, u)
    ensures x !in Touches(s.pcs[u])
  {
    if x in Touches(s.pcs[u]) {
      TouchedIsInUse(s, u, x);
    }
  }

  lemma StepQueuesOwnNodes(s: State, u: nat, s': State, x: nat)
    requires u < |s.pcs| && Inv(s) && Step(s, u, s') && x in s'.queue && x !in s.queue
    ensures x < |s.users| && s.users[x] == Thread(u)
  {
    assert ThreadOk(s, u);
    if Owns(s.pcs[u]) {
      var hasNext, next := OwnerIsFirst(s, u);
    }
    StepMovesQueue(s, u, s');
  }

  lemma StaysForeign(s: State, x: nat, u: nat, s': State)
    requires u < |s.pcs| && Inv(s) && Step(s, u, s') && Foreign(s, x, u)
    requires x < |s'.users| && s'.users[x] == s.users[x]
    ensures Foreign(s', x, u)
  {
    if x in s'.queue && x !in s.queue {
      StepQueuesOwnNodes(s, u, s', x);
    }
  }

  lemma StepKeepsSize(s: State, u: nat, s': State)
    requires u < |s.pcs| && Step(s, u, s')
    ensures |s'.pcs| == |s.pcs|
  {
  }

  lemma ForeignStaysUntouched(s: State, x: nat, u: nat, s': State)
    requires u < |s.pcs| && Inv(s) && Step(s, u, s') && Foreign(s, x, u)
    requires x < |s'.users| && s'.users[x] == s.users[x]
    ensures |s'.pcs| == |s.pcs| && x !in Touches(s.pcs[u]) && x !in Touches(s'.pcs[u])
  {
    StepKeepsSize(s, u, s');
    ForeignIsUntouched(s, x, u);
    StaysForeign(s, x, u, s');
    StepKeepsInv(s, u, s');
    ForeignIsUntouched(s', x, u);
  }

  /** Nobody has anything left to do with a node once its user has returned from release, or from a
      transfer to another node: until a thread takes it into use again no step reads or writes it,
      so it may be reused at once; and while its new user prepares it no other thread's step does. */
  lemma FreeNodeIsUntouched(s: State, x: nat, u: nat, s': State)
    requires Reachable(s) && u < |s.pcs| && Step(s, u, s') && Foreign(s, x, u)
    requires x < |s'.users| && s'.users[x] == s.users[x]
    ensures LeavesAlone(s, u, s', x)
  {
    ReachableIsInv(s);
    ForeignStaysUntouched(s, x, u, s');
    StepLeavesAlone(s, u, s', x);
  }

  /** Whose node a thread at `p` touches besides its own: its predecessor's or its successor's. */
  lemma TouchedIsNeighbour(s: State, u: nat, x: nat) returns (k: nat)
    requires Inv(s) && u < |s.pcs| && InQueue(s.pcs[u]) && x in Touches(s.pcs[u]) && x in s.queue
    requires x != s.pcs[u].n
    ensures k < |s.queue| && s.queue[k] == s.pcs[u].n && SlotOk(s, k) && RowAt(s, k).p == s.pcs[u]
    ensures || (k > 0 && x == s.queue[k - 1] && (s.pcs[u].AcqLink? || s.pcs[u].AcqTell?))
            || (k + 1 < |s.queue| && x == s.queue[k + 1])
    ensures x == s.queue[0] ==> k == 1 && (s.pcs[u].AcqLink? || s.pcs[u].AcqTell?)
  {
    assert ThreadOk(s, u);
    k := PlaceOf(s, u);
    RowFits(s, k);
    assert (k > 0 ==> SlotOk(s, k - 1)) && (k + 1 < |s.queue| ==> SlotOk(s, k + 1));
  }

  lemma NobodyTouchesLeaver(s: State, t: nat, u: nat)
    requires Inv(s) && t < |s.pcs| && u < |s.pcs| && t != u && PastNextFlag(s.pcs[t])
    ensures s.pcs[t].n !in Touches(s.pcs[u])
  {
    var n := s.pcs[t].n;
    var hasNext, next := OwnerIsFirst(s, t);
    assert ThreadOk(s, t) && ThreadOk(s, u);
    if n in Touches(s.pcs[u]) {
      TouchedIsInUse(s, u, n);
      var k := TouchedIsNeighbour(s, u, n);
    }
  }

  /** Already when release or transfer has waited for nextFlag, no other thread's step reads or
      writes the node. */
  lemma NodeIsUntouchedBeforeReturn(s: State, t: nat, u: nat, s': State)
    requires Reachable(s) && t < |s.pcs| && u < |s.pcs| && t != u && PastNextFlag(s.pcs[t]) && Step(s, u, s')
    ensures LeavesAlone(s, u, s', s.pcs[t].n)
  {
    ReachableIsInv(s);
    StepKeepsInv(s, u, s');
    OthersStay(s, u, s', t);
    NobodyTouchesLeaver(s, t, u);
    NobodyTouchesLeaver(s', t, u);
    StepLeavesAlone(s, u, s', s.pcs[t].n);
  }

  lemma OthersStay(s: State, u: nat, s': State, t: nat)
    requires u < |s.pcs| && Step(s, u, s') && t < |s.pcs| && t != u
    ensures |s'.pcs| == |s.pcs| && s'.pcs[t] == s.pcs[t]
  {
    if InnerBy(s, u, s') {
      InnerUsesRank(s, u, s');
    }
  }

  lemma AcquiresOn(s: State, t: nat)
    requires Reachable(s) && t < |s.pcs| && InRange(s, s.pcs[t]) && InAcquire(s.pcs[t]) && Ready(s, t)
    ensures Reachable(AfterAcquire(s, t))
  {
    assert AcquireStep(s, t, AfterAcquire(s, t));
    ReachesOn(s, t, AfterAcquire(s, t));
  }

  lemma CallsOn(s: State, t: nat, n: nat)
    requires Reachable(s) && t < |s.pcs| && InRange(s, Idle) && s.pcs[t] == Idle && n < |s.nodes| && s.users[n] == Free
    ensures Reachable(Goto(SetUser(SetNode(s, n, FRESH), n, Thread(t)), t, AcqSwap(n)))
  {
    var s' := Goto(SetUser(SetNode(s, n, FRESH), n, Thread(t)), t, AcqSwap(n));
    assert CallStep(s, t, s');
    ReachesOn(s, t, s');
  }

  lemma FirstCalls() returns (s: State)
    ensures Reachable(s)
    ensures s == State(Null, [FRESH, FRESH], [Thread(0), Free], [false, false], [], [], [], [AcqSwap(0), Idle])
  {
    var s0 := State(Null, [FRESH, FRESH], [Free, Free], [false, false], [], [], [], [Idle, Idle]);
    Runs.StartIsReachable(Init, Next, s0);
    CallsOn(s0, 0, 0);
    s := Goto(SetUser(SetNode(s0, 0, FRESH), 0, Thread(0)), 0, AcqSwap(0));
  }

  /** Thread 0 holds the lock with node 0. */
  lemma FirstHolds() returns (s: State)
    ensures Reachable(s)
    ensures s == State(To(0), [FRESH, FRESH], [Thread(0), Free], [false, false], [0], [0], [0], [Held(0), Idle])
  {
    var s1 := FirstCalls();
    AcquiresOn(s1, 0);
    s := AfterAcquire(s1, 0);
  }

  lemma SecondCalls() returns (s: State)
    ensures Reachable(s)
    ensures s == State(To(0), [FRESH, FRESH], [Thread(0), Thread(1)], [false, false],
                       [0], [0], [0], [Held(0), AcqSwap(1)])
  {
    var s2 := FirstHolds();
    CallsOn(s2, 1, 1);
    s := Goto(SetUser(SetNode(s2, 1, FRESH), 1, Thread(1)), 1, AcqSwap(1));
  }

  lemma SecondQueues() returns (s: State)
    ensures Reachable(s)
    ensures s == State(To(1), [FRESH, FRESH], [Thread(0), Thread(1)], [false, false],
                       [0, 1], [0, 1], [0], [Held(0), AcqLink(1, 0)])
  {
    var s3 := SecondCalls();
    AcquiresOn(s3, 1);
    s := AfterAcquire(s3, 1);
  }

  /** The wait for nextFlag is needed even if the successor is known: in a reachable state the owner
      knows its successor, and the successor's next step writes the owner's node. */
  lemma KnownSuccessorMayStillWrite() returns (s: State, s': State)
    ensures Reachable(s) && s.pcs == [RelCheck(0, To(1)), AcqTell(1, 0)]
    ensures Step(s, 1, s') && s'.nodes[0] != s.nodes[0]
  {
    var s4 := SecondQueues();
    AcquiresOn(s4, 1);
    var s5 := AfterAcquire(s4, 1);
    var s6 := Goto(s5, 0, RelRead(0));
    s := ReleaseBegins(s5, s6);
    AcquiresOn(s, 1);
    s' := AfterAcquire(s, 1);
    assert AcquireStep(s, 1, s');
  }

  lemma ReleaseBegins(s5: State, s6: State) returns (s: State)
    requires Reachable(s5) && |s5.nodes| == |s5.users| == |s5.events| == 2
    requires s5.pcs == [Held(0), AcqTell(1, 0)] && s5.nodes[0] == Node(To(1), Clear, Clear)
    requires s6 == Goto(s5, 0, RelRead(0))
    ensures Reachable(s) && s == s5.(pcs := [RelCheck(0, To(1)), AcqTell(1, 0)])
  {
    assert LeaveStep(s5, 0, s6);
    ReachesOn(s5, 0, s6);
    s := AfterRelease(s6, 0);
    assert ReleaseStep(s6, 0, s);
    ReachesOn(s6, 0, s);
  }

  /** No flag is lost to a waiter that is storing its event: a blocked waiter whose turn it is
      has its event set. */
  lemma HeadIsAwake(s: State, t: nat)
    requires Inv(s) && t < |s.pcs| && Waiting(s.pcs[t]) && IsHead(s, s.pcs[t].n)
    ensures InRange(s, s.pcs[t]) && Ready(s, t)
  {
    var k := PlaceOf(s, t);
    assert SlotOk(s, k) && RowOk(s, 0) && ThreadOk(s, t);
  }

  /** An owner that waits for its successor can go on, or the successor can. */
  lemma OwnerOrSuccessorMoves(s: State, t: nat) returns (u: nat)
    requires Inv(s) && t < |s.pcs| && Owns(s.pcs[t]) && !s.pcs[t].Held?
    ensures u < |s.pcs| && InRange(s, s.pcs[u]) && Ready(s, u)
  {
    assert ThreadOk(s, t);
    u := t;
    if !Ready(s, t) {
      var hasNext, next := OwnerIsFirst(s, t);
      u := next.user.t;
      assert SlotOk(s, 1) && ThreadOk(s, u);
    }
  }

  lemma ReadySteps(s: State, u: nat)
    requires u < |s.pcs| && InRange(s, s.pcs[u]) && Ready(s, u)
    ensures exists s' :: Step(s, u, s')
  {
    if InAcquire(s.pcs[u]) {
      assert Step(s, u, AfterAcquire(s, u));
    } else if InRelease(s.pcs[u]) {
      assert Step(s, u, AfterRelease(s, u));
    } else {
      assert Step(s, u, AfterTransfer(s, u));
    }
  }

  lemma SomebodyMoves(s: State) returns (u: nat)
    requires Inv(s) && s.queue != []
    requires forall t :: 0 <= t < |s.pcs| ==> !s.pcs[t].Held?
    requires forall n :: 0 <= n < |s.users| ==> s.users[n] != Parked
    ensures u < |s.pcs| && InRange(s, s.pcs[u]) && Ready(s, u)
  {
    assert SlotOk(s, 0);
    u := s.users[s.queue[0]].t;
    assert ThreadOk(s, u);
    if Waiting(s.pcs[u]) {
      HeadIsAwake(s, u);
    } else {
      u := OwnerOrSuccessorMoves(s, u);
    }
  }

  /** The lock never stalls: whenever its queue is not empty and nobody is in the critical section
      or has left it held, some thread in the lock's code has a step to take. */
  lemma NoStall(s: State)
    requires Reachable(s) && s.queue != []
    requires forall t :: 0 <= t < |s.pcs| ==> !s.pcs[t].Held?
    requires forall n :: 0 <= n < |s.users| ==> s.users[n] != Parked
    ensures exists u, s' :: 0 <= u < |s.pcs| && s.pcs[u] != Idle && Step(s, u, s')
  {
    ReachableIsInv(s);
    var u := SomebodyMoves(s);
    ReadySteps(s, u);
  }

  /** How many steps a thread at `p` can take before its call returns, at most. */
  function Rank(p: PC): nat {
    match p
    case Idle | Held(_) => 0
    case AcqSwap(_) => 7
    case AcqLink(_, _) => 6
    case AcqTell(_, _) => 5
    case AcqTellEvent(_, _) => 4
    case AcqCheck(_) => 3
    case AcqStore(_) => 2
    case AcqBlock(_) => 1
    case TrySwap(_) => 1
    case RelRead(_) => 8
    case RelSwap(_) => 7
    case RelCheck(_, _) => 6
    case RelStore(_, _) => 5
    case RelBlock(_, _) => 4
    case RelReread(_) => 3
    case RelPass(_, _) => 2
    case RelPassEvent(_, _) => 1
    case MovSwap(_, _) => 7
    case MovSpin(_, _) => 6
    case MovCheck(_, _) => 5
    case MovStore(_, _) => 4
    case MovBlock(_, _) => 3
    case MovCopyNext(_, _) => 2
    case MovCopyFlag(_, _, _) => 1
  }

  ghost function Left(s: State): nat {
    Sum(s.pcs, Rank)
  }

  /** A step of a thread that is inside one of the routines. */
  ghost predicate InnerBy(s: State, t: nat, s': State)
    requires t < |s.pcs|
  {
    InRange(s, s.pcs[t]) && (AcquireStep(s, t, s') || ReleaseStep(s, t, s') || TransferStep(s, t, s'))
  }

  ghost predicate Inner(s: State, s': State) {
    exists t: nat :: t < |s.pcs| && InnerBy(s, t, s')
  }

  lemma AcquireUsesRank(s: State, t: nat)
    requires t < |s.pcs| && InRange(s, s.pcs[t]) && InAcquire(s.pcs[t])
    ensures var s' := AfterAcquire(s, t);
            |s'.pcs| == |s.pcs| && s'.pcs == s.pcs[t := s'.pcs[t]] && Rank(s'.pcs[t]) < Rank(s.pcs[t])
  {
  }

  lemma ReleaseUsesRank(s: State, t: nat)
    requires t < |s.pcs| && InRange(s, s.pcs[t]) && InRelease(s.pcs[t]) && Ready(s, t)
    ensures var s' := AfterRelease(s, t);
            |s'.pcs| == |s.pcs| && s'.pcs == s.pcs[t := s'.pcs[t]] && Rank(s'.pcs[t]) < Rank(s.pcs[t])
  {
  }

  lemma TransferUsesRank(s: State, t: nat)
    requires t < |s.pcs| && InRange(s, s.pcs[t]) && Moving(s.pcs[t])
    ensures var s' := AfterTransfer(s, t);
            |s'.pcs| == |s.pcs| && s'.pcs == s.pcs[t := s'.pcs[t]] && Rank(s'.pcs[t]) < Rank(s.pcs[t])
  {
  }

  lemma InnerUsesRank(s: State, t: nat, s': State)
    requires t < |s.pcs| && InnerBy(s, t, s')
    ensures Step(s, t, s')
    ensures |s'.pcs| == |s.pcs| && s'.pcs == s.pcs[t := s'.pcs[t]] && Rank(s'.pcs[t]) < Rank(s.pcs[t])
  {
    if InAcquire(s.pcs[t]) {
      AcquireUsesRank(s, t);
    } else if InRelease(s.pcs[t]) {
      ReleaseUsesRank(s, t);
    } else {
      TransferUsesRank(s, t);
    }
  }

  lemma InnerDescends(s: State, s': State)
    requires Reachable(s) && Inner(s, s')
    ensures Reachable(s') && Left(s') < Left(s)
  {
    var t: nat :| t < |s.pcs| && InnerBy(s, t, s');
    InnerUsesRank(s, t, s');
    Runs.ReachesOn(Init, Next, s, s');
    SumUpdate(s.pcs, Rank, t, s'.pcs[t]);
  }

  ghost predicate NobodyReady(s: State) {
    forall t :: 0 <= t < |s.pcs| ==> InRange(s, s.pcs[t]) && !Ready(s, t)
  }

  /** Somebody is in the critical section, or has left it with the lock held. */
  ghost predicate Occupied(s: State) {
    || (exists t :: 0 <= t < |s.pcs| && s.pcs[t].Held?)
    || (exists n :: 0 <= n < |s.users| && s.users[n] == Parked)
  }

  lemma NothingReady(s: State)
    requires Reachable(s) && NobodyReady(s) && !Occupied(s)
    ensures forall t :: 0 <= t < |s.pcs| ==> s.pcs[t] == Idle
  {
    ReachableIsInv(s);
    if s.queue != [] {
      var u := SomebodyMoves(s);
    }
    forall t | 0 <= t < |s.pcs| ensures s.pcs[t] == Idle {
      assert ThreadOk(s, t);
    }
  }

  lemma InnerIsDescent()
    ensures Runs.Keeps(Inner, Reachable) && Runs.Descends(Inner, Reachable, Left)
  {
    forall s, s' | Reachable(s) && Inner(s, s') ensures Reachable(s') && Left(s') < Left(s) {
      InnerDescends(s, s');
    }
  }

  /** Unless new calls are made every run comes to an end, after at most 8 steps a thread; and at its end
      the lock is occupied, or all calls have returned. */
  lemma CallsEnd(run: seq<State>)
    requires Runs.IsChain(Inner, run) && Reachable(run[0])
    ensures |run| <= 8 * |run[0].pcs| + 1
    ensures var s := run[|run| - 1];
            NobodyReady(s) ==> Occupied(s) || forall t :: 0 <= t < |s.pcs| ==> s.pcs[t] == Idle
  {
    InnerIsDescent();
    Runs.ChainIsShort(Inner, Reachable, Left, run, |run| - 1);
    SumAtMost(run[0].pcs, Rank, 8);
    var s := run[|run| - 1];
    if NobodyReady(s) && !Occupied(s) {
      NothingReady(s);
    }
  }
}
