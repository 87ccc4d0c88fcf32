/**
 The state that `f->lock` protects: the node tree, each node's treelock, lookup
 count and reference count, and the requests inside the library; and the
 invariant that every critical section keeps.
 */
module PathState {
  import opened Basics
  import opened Forest
  import opened TreeLocks
  import opened Requests

  /**
   The keys of `lock` are the live nodes. `reqs` lists the requests inside the
   library in order of arrival; the lock queue is the subsequence of those for
   which `InQueue` holds. `pins` are the references fuse_lib_lookup takes on ".".
   */
  datatype State = State(
    tree: Tree, lock: Locks, nlookup: map<Id, nat>, refctr: map<Id, nat>,
    pins: multiset<Id>, reqs: seq<Elem>)

  ghost predicate TreeInv(s: State) {
    && ROOT in s.lock && ROOT !in s.tree
    && s.nlookup.Keys == s.lock.Keys && s.refctr.Keys == s.lock.Keys
    && Covers(s.tree, s.lock) && Unique(s.tree)
  }

  function Children(t: Tree, n: Id): set<Id> {
    set c | c in t && t[c].parent == n
  }

  function Expected(s: State, x: multiset<Id>, n: Id): nat
    requires n in s.nlookup
  {
    Bit(s.nlookup[n] > 0) + |Children(s.tree, n)| + s.pins[n] + x[n]
  }

  predicate RefOk(s: State, x: multiset<Id>, n: Id) {
    n in s.nlookup && n in s.refctr && s.refctr[n] == Expected(s, x, n) && s.refctr[n] > 0
  }

  /** `x` are references about to be dropped by the running critical section. */
  ghost predicate RefInv(s: State, x: multiset<Id>)
    requires TreeInv(s)
  {
    && (forall n {:trigger RefOk(s, x, n)} :: n in s.lock ==> RefOk(s, x, n))
    && s.nlookup[ROOT] > 0
    && (forall n :: n in s.pins ==> n in s.lock)
  }

  predicate LockOk(lock: Locks, q: seq<Elem>, n: Id)
    requires n in lock
  {
    Encodes(lock[n], Sum(Readers(n), q), Sum(Writers(n), q))
  }

  /** Every treelock says exactly who holds its node. */
  ghost predicate LockInv(lock: Locks, q: seq<Elem>) {
    forall n {:trigger LockOk(lock, q, n)} :: n in lock ==> LockOk(lock, q, n)
  }

  /** Kept alive by a lookup or a pin, not merely by its children. */
  predicate Named(s: State, n: Id) {
    n in s.lock && n in s.nlookup && (s.nlookup[n] > 0 || s.pins[n] > 0)
  }

  predicate Under(e: Elem, d: Id) {
    e.Path? && ((e.h1.Some? && e.h1.value.dir == d) || (e.h2.Some? && e.h2.value.dir == d))
  }

  /** Where the target of a hold may hang. */
  ghost predicate TargetOk(s: State, e: Elem, r: Req, w: Id)
    requires e.Path?
  {
    && r.wr && Named(s, w)
    && (w in s.tree ==> if e.committed then Under(e, s.tree[w].parent) else s.tree[w].parent == r.dir)
  }

  ghost predicate HoldOk(s: State, e: Elem, r: Req, h: Hold)
    requires e.Path? && r.Valid()
  {
    && h.dir == r.dir && Chain(s.tree, h.dir, h.chain) && Top(s.tree, h.dir, h.chain) == ROOT
    && (h.wnode.Some? ==> TargetOk(s, e, r, h.wnode.value))
    && (r.wr && !e.committed ==> forall n :: n in s.tree && s.tree[n] == r.Entry() ==> h.wnode == Some(n))
  }

  ghost predicate SlotOk(s: State, e: Elem, j: Side)
    requires Has(e, j)
  {
    var r := ReqOf(e, j);
    && r.Valid() && Named(s, r.dir)
    && match HoldOf(e, j)
       case None => !e.committed && (r.wr ==> forall n :: n in s.tree && s.tree[n] == r.Entry() ==> Named(s, n))
       case Some(h) => HoldOk(s, e, r, h)
  }

  ghost predicate ElemOk(s: State, e: Elem) {
    match e
    case Path(_, r2, _, h2, queued, _, _, committed) =>
      && SlotOk(s, e, First) && (Has(e, Second) ==> SlotOk(s, e, Second))
      && (r2.None? ==> h2.None?)
      && (queued ==> !committed)
    case Waiter(n, k) => k >= 1 && n in s.lock && n != ROOT
  }

  /** One of the directories of `e` hangs below an unlinked node outside `a`. */
  ghost predicate Gone(t: Tree, e: Elem, a: set<Id>)
    requires Acyclic(t)
  {
    exists j :: Has(e, j) && GoneSide(t, ReqOf(e, j).dir, a)
  }

  ghost predicate GoneSide(t: Tree, d: Id, a: set<Id>)
    requires Acyclic(t)
  {
    Top(t, d, ChainOf(t, d)) != ROOT && Top(t, d, ChainOf(t, d)) !in a
  }

  ghost predicate GoneOk(s: State, a: set<Id>)
    requires Acyclic(s.tree)
  {
    forall e :: e in s.reqs && e.Path? && e.failed ==> Gone(s.tree, e, a)
  }

  ghost predicate CountInv(s: State) {
    && (forall l :: Sum(Changing(l), s.reqs) <= 1)
    && Sum(Slots, s.reqs) < INT_MAX
    && (forall n :: n in s.nlookup ==> Sum(Waits(n), s.reqs) <= s.nlookup[n])
  }

  /** Everything but the shape of the queue. */
  ghost predicate Core(s: State, x: multiset<Id>) {
    && TreeInv(s) && RefInv(s, x) && LockInv(s.lock, s.reqs) && CountInv(s)
    && (forall e :: e in s.reqs ==> ElemOk(s, e))
    && GoneOk(s, {})
  }

  predicate IsHead(q: seq<Elem>, i: nat) {
    i < |q| && q[i].InQueue() && forall k :: 0 <= k < i ==> !q[k].InQueue()
  }

  /** Only the head of the queue may hold one of its two paths. */
  ghost predicate ShapeAt(q: seq<Elem>, i: nat)
    requires i < |q|
  {
    var e := q[i];
    e.Path? ==>
      && (!e.queued ==> e.Full() && !e.failed)
      && (e.queued && !IsHead(q, i) ==> e.Full() || e.Empty())
      && (e.queued && e.done ==> if e.failed then e.Empty() else e.Full())
      && (e.failed ==> e.done)
  }

  ghost predicate Shape(q: seq<Elem>) {
    forall i :: 0 <= i < |q| ==> ShapeAt(q, i)
  }

  ghost predicate Inv(s: State) {
    Core(s, multiset{}) && Shape(s.reqs)
  }

  // ----- what the critical sections compute ---------------------------------

  datatype Tried = Tried(state: State, err: Errno)
  datatype Errno = Ok | EAGAIN | ENOENT

  predicate SlotAt(s: State, i: nat, j: Side) {
    i < |s.reqs| && Has(s.reqs[i], j) && ReqOf(s.reqs[i], j).Valid()
  }

  predicate PathAt(s: State, i: nat) {
    SlotAt(s, i, First) && (s.reqs[i].r2.Some? ==> s.reqs[i].r2.value.Valid())
  }

  /** `u` differs from `s` only in treelocks and in what request `i` holds. */
  predicate OnlyLocks(s: State, u: State, i: nat)
    requires PathAt(s, i)
  {
    && u == s.(lock := u.lock, reqs := u.reqs) && u.lock.Keys == s.lock.Keys
    && |u.reqs| == |s.reqs| && u.reqs == s.reqs[i := u.reqs[i]] && u.reqs[i].Path?
    && u.reqs[i] == s.reqs[i].(h1 := u.reqs[i].h1, h2 := u.reqs[i].h2)
  }

  /** `u` differs from `s` only in treelocks, in what request `i` holds and in how its turn ended. */
  predicate OnlyTurn(s: State, u: State, i: nat)
    requires i < |s.reqs|
  {
    && u == s.(lock := u.lock, reqs := u.reqs) && u.lock.Keys == s.lock.Keys
    && |u.reqs| == |s.reqs| && u.reqs == s.reqs[i := u.reqs[i]]
    && (if s.reqs[i].Waiter? then u.reqs[i] == s.reqs[i]
        else u.reqs[i].Path? && u.reqs[i] == s.reqs[i].(h1 := u.reqs[i].h1, h2 := u.reqs[i].h2,
                                                        done := u.reqs[i].done, failed := u.reqs[i].failed))
  }

  /** try_get_path for one side of a request. */
  ghost function TrySlot(s: State, i: nat, j: Side): (r: Tried)
    requires Covers(s.tree, s.lock) && SlotAt(s, i, j) && PathAt(s, i)
    ensures OnlyLocks(s, r.state, i)
  {
    match Try(s.tree, s.lock, ReqOf(s.reqs[i], j))
    case Granted(l, h) => Tried(s.(lock := l, reqs := s.reqs[i := WithHold(s.reqs[i], j, Some(h))]), Ok)
    case Again(l) => Tried(s.(lock := l), EAGAIN)
    case NoEnt => Tried(s, ENOENT)
  }

  /** unlock_path for one side of a request, if it is locked. */
  function DropSlot(s: State, i: nat, j: Side): (r: State)
    requires SlotAt(s, i, j) && PathAt(s, i)
    ensures OnlyLocks(s, r, i)
  {
    match HoldOf(s.reqs[i], j)
    case None => s
    case Some(h) =>
      s.(lock := Release(s.lock, h.chain, h.wnode), reqs := s.reqs[i := WithHold(s.reqs[i], j, None)])
  }

  /** queue_element_unlock. */
  function UnlockElem(s: State, i: nat): (r: State)
    requires PathAt(s, i)
    ensures OnlyLocks(s, r, i)
  {
    var s1 := DropSlot(s, i, First);
    if s1.reqs[i].r2.Some? then DropSlot(s1, i, Second) else s1
  }

  ghost function TryIfNeeded(s: State, i: nat, j: Side): (r: Tried)
    requires Covers(s.tree, s.lock) && PathAt(s, i)
    ensures OnlyLocks(s, r.state, i)
  {
    if Has(s.reqs[i], j) && HoldOf(s.reqs[i], j).None? then TrySlot(s, i, j) else Tried(s, Ok)
  }

  function Finish(s: State, i: nat, failed: bool): (u: State)
    requires PathAt(s, i)
    ensures OnlyTurn(s, u, i)
  {
    s.(reqs := s.reqs[i := s.reqs[i].(done := true, failed := failed)])
  }

  /** The err_unlock exit of queue_element_wakeup. */
  function Fail(s: State, i: nat): (u: State)
    requires PathAt(s, i)
    ensures OnlyTurn(s, u, i)
  {
    Finish(UnlockElem(s, i), i, true)
  }

  /** Both attempts made: done, half locked at the head, or everything given back. */
  function WakeLast(s: State, i: nat, head: bool): (u: State)
    requires PathAt(s, i)
    ensures OnlyTurn(s, u, i)
  {
    if s.reqs[i].Full() then Finish(s, i, false) else if head then s else UnlockElem(s, i)
  }

  ghost function WakeSecond(s: State, i: nat, head: bool): (u: State)
    requires Covers(s.tree, s.lock) && PathAt(s, i)
    ensures OnlyTurn(s, u, i)
  {
    var b := TryIfNeeded(s, i, Second);
    if b.err == ENOENT then Fail(b.state, i) else WakeLast(b.state, i, head)
  }

  /** queue_element_wakeup. */
  ghost function WakeElem(s: State, i: nat): (u: State)
    requires Covers(s.tree, s.lock) && i < |s.reqs|
    requires s.reqs[i].Path? ==> PathAt(s, i)
    ensures OnlyTurn(s, u, i)
  {
    if !s.reqs[i].Path? || !s.reqs[i].queued then s
    else
      var a := TryIfNeeded(s, i, First);
      if a.err == ENOENT then Fail(a.state, i) else WakeSecond(a.state, i, IsHead(s.reqs, i))
  }
}
