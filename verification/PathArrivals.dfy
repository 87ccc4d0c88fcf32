/**
 Requests coming and going: get_path and its variants, the return of a waiter
 from the queue, and free_path with the wake-up pass it runs.
 */
module PathArrivals {
  import opened Basics
  import opened Forest
  import opened TreeLocks
  import opened Requests
  import opened PathState
  import opened PathLocks
  import opened PathQueue
  import opened PathWake

  function Append(s: State, e: Elem): State {
    s.(reqs := s.reqs + [e])
  }

  function Remove(s: State, i: nat): State
    requires i < |s.reqs|
  {
    s.(reqs := Without(s.reqs, i))
  }

  function NewElem(r1: Req, r2: Option<Req>): Elem {
    Path(r1, r2, None, None, false, false, false, false)
  }

  /** What the kernel promises about the paths a new request names. */
  ghost predicate Presentable(s: State, r: Req) {
    && r.Valid() && Named(s, r.dir)
    && (r.wr ==> forall n :: n in s.tree && s.tree[n] == r.Entry() ==> Named(s, n))
  }

  ghost predicate Admissible(s: State, e: Elem) {
    && Sum(Slots, s.reqs) + Weight(Slots, e) < INT_MAX
    && (forall l :: Sum(Changing(l), s.reqs) + Weight(Changing(l), e) <= 1)
    && (forall n :: n in s.nlookup ==> Sum(Waits(n), s.reqs) + Weight(Waits(n), e) <= s.nlookup[n])
  }

  lemma AppendCounts(s: State, e: Elem)
    requires CountInv(s) && LockInv(s.lock, s.reqs) && e.Empty() && Admissible(s, e)
    ensures CountInv(Append(s, e)) && LockInv(s.lock, Append(s, e).reqs)
  {
    var q := Append(s, e).reqs;
    forall m ensures Sum(m, q) == Sum(m, s.reqs) + Weight(m, e) {
      SumAppend(m, s.reqs, e);
    }
    LockSame(s.lock, s.reqs, s.lock, q);
  }

  lemma RemoveCounts(s: State, i: nat)
    requires CountInv(s) && LockInv(s.lock, s.reqs) && i < |s.reqs| && s.reqs[i].Empty()
    ensures CountInv(Remove(s, i)) && LockInv(s.lock, Remove(s, i).reqs)
  {
    var q := Remove(s, i).reqs;
    forall m ensures Sum(m, q) + Weight(m, s.reqs[i]) == Sum(m, s.reqs) {
      SumRemove(m, s.reqs, i);
    }
    LockSame(s.lock, s.reqs, s.lock, q);
  }

  lemma AppendCore(s: State, e: Elem)
    requires Core(s, multiset{}) && ElemOk(s, e) && e.Empty() && Admissible(s, e)
    requires e.Path? ==> !e.failed
    ensures Core(Append(s, e), multiset{})
  {
    var u := Append(s, e);
    RefsKept(s, u, multiset{});
    AppendCounts(s, e);
    forall d | d in u.reqs
      ensures ElemOk(u, d)
      ensures d.Path? && d.failed ==> Gone(u.tree, d, {})
    {
      if d != e {
        assert ElemOk(s, d);
      }
      ElemOkSame(s, u, d);
    }
  }

  lemma RemoveCore(s: State, i: nat)
    requires Core(s, multiset{}) && i < |s.reqs| && s.reqs[i].Empty()
    ensures Core(Remove(s, i), multiset{})
  {
    var u := Remove(s, i);
    RefsKept(s, u, multiset{});
    RemoveCounts(s, i);
    RemoveElems(s, u, i);
  }

  lemma RemoveElems(s: State, u: State, i: nat)
    requires i < |s.reqs| && Acyclic(s.tree) && GoneOk(s, {})
    requires forall k :: 0 <= k < |s.reqs| && k != i ==> ElemOk(s, s.reqs[k])
    requires u == s.(lock := u.lock, reqs := Without(s.reqs, i)) && u.lock.Keys == s.lock.Keys
    ensures forall e :: e in u.reqs ==> ElemOk(u, e)
    ensures GoneOk(u, {})
  {
    forall d | d in u.reqs
      ensures ElemOk(u, d)
      ensures d.Path? && d.failed ==> Gone(u.tree, d, {})
    {
      var k :| 0 <= k < |u.reqs| && u.reqs[k] == d;
      assert d == s.reqs[if k < i then k else k + 1];
      ElemOkSame(s, u, d);
    }
  }

  // ----- shapes -------------------------------------------------------------

  lemma ShapeAppend(q: seq<Elem>, e: Elem)
    requires Shape(q) && Settled(e, false)
    ensures Shape(q + [e])
  {
    forall i | 0 <= i < |q| + 1 ensures ShapeAt(q + [e], i) {
      if i < |q| {
        assert ShapeAt(q, i);
        assert IsHead(q, i) ==> IsHead(q + [e], i);
      }
    }
  }

  lemma ShapeRemove(q: seq<Elem>, i: nat)
    requires Shape(q) && i < |q|
    ensures Shape(Without(q, i))
  {
    var q' := Without(q, i);
    forall k | 0 <= k < |q'| ensures ShapeAt(q', k) {
      var m := if k < i then k else k + 1;
      assert q'[k] == q[m] && ShapeAt(q, m);
      if IsHead(q, m) {
        forall j | 0 <= j < k ensures !q'[j].InQueue() {
          assert q'[j] == q[if j < i then j else j + 1];
        }
      }
    }
  }

  lemma ShapeSet(q: seq<Elem>, i: nat, e: Elem)
    requires Shape(q) && i < |q| && Settled(e, false) && (e.InQueue() ==> q[i].InQueue())
    ensures Shape(q[i := e])
  {
    var q' := q[i := e];
    forall k | 0 <= k < |q'| ensures ShapeAt(q', k) {
      assert ShapeAt(q, k);
      if k != i && IsHead(q, k) {
        assert IsHead(q', k);
      }
    }
  }

  // ----- get_path, get_path_wrlock, get_path2 -------------------------------

  function Enqueue(s: State, i: nat): State
    requires PathAt(s, i)
  {
    SetElem(s, i, s.reqs[i].(queued := true))
  }

  /** What becomes of a request that could not lock everything at once. */
  function Refuse(s: State, i: nat, err: Errno): State
    requires PathAt(s, i)
  {
    if err == EAGAIN then Enqueue(s, i) else Remove(s, i)
  }

  /** try_get_path2, or try_get_path alone if there is no second path. */
  ghost function BothTried(s: State, i: nat): (r: Tried)
    requires Covers(s.tree, s.lock) && PathAt(s, i)
    ensures OnlyLocks(s, r.state, i)
  {
    var a := TrySlot(s, i, First);
    if a.err != Ok || s.reqs[i].r2.None? then a
    else
      var b := TrySlot(a.state, i, Second);
      if b.err == Ok then b else Tried(DropSlot(b.state, i, First), b.err)
  }

  /** get_path_common (no second path) and get_path2. */
  ghost function GetPath(s: State, r1: Req, r2: Option<Req>): State
    requires Covers(s.tree, s.lock) && r1.Valid() && (r2.Some? ==> r2.value.Valid())
  {
    var a := BothTried(Append(s, NewElem(r1, r2)), |s.reqs|);
    if a.err == Ok then a.state else Refuse(a.state, |s.reqs|, a.err)
  }

  /** The request at the end of the list is the one that has just arrived. */
  ghost predicate Arriving(s: State, i: nat) {
    && Core(s, multiset{}) && PathAt(s, i) && i + 1 == |s.reqs| && Shape(s.reqs[..i])
    && !s.reqs[i].queued && !s.reqs[i].done && !s.reqs[i].failed && !s.reqs[i].committed
  }

  lemma RefuseInv(s: State, i: nat, err: Errno)
    requires Arriving(s, i) && s.reqs[i].Empty()
    ensures Inv(Refuse(s, i, err))
  {
    var q := s.reqs[..i];
    if err == EAGAIN {
      var e := s.reqs[i].(queued := true);
      FlagsCore(s, i, e, multiset{});
      assert s.reqs[i := e] == q + [e];
      ShapeAppend(q, e);
    } else {
      RemoveCore(s, i);
      assert Without(s.reqs, i) == q;
    }
  }

  lemma GrantInv(s: State, i: nat)
    requires Arriving(s, i) && s.reqs[i].Full()
    ensures Inv(s)
  {
    assert s.reqs == s.reqs[..i] + [s.reqs[i]];
    ShapeAppend(s.reqs[..i], s.reqs[i]);
  }

  lemma ArrivingKept(s: State, u: State, i: nat)
    requires Arriving(s, i) && OnlyLocks(s, u, i) && Core(u, multiset{})
    ensures Arriving(u, i)
  {
    assert u.reqs[..i] == s.reqs[..i];
  }

  lemma BothTriedInv(s: State, i: nat)
    requires Arriving(s, i) && s.reqs[i].Empty()
    ensures var r := BothTried(s, i);
      Arriving(r.state, i) && if r.err == Ok then r.state.reqs[i].Full() else r.state.reqs[i].Empty()
  {
    var a := TrySlot(s, i, First);
    TrySlotCore(s, i, First, multiset{});
    ArrivingKept(s, a.state, i);
    if a.err == Ok && s.reqs[i].r2.Some? {
      SecondTried(a.state, i);
    }
  }

  lemma SecondTried(s: State, i: nat)
    requires Arriving(s, i) && s.reqs[i].r2.Some? && s.reqs[i].h1.Some? && s.reqs[i].h2.None?
    ensures var b := TrySlot(s, i, Second);
      && Arriving(b.state, i)
      && (b.err == Ok ==> b.state.reqs[i].Full())
      && (b.err != Ok ==> Arriving(DropSlot(b.state, i, First), i) && DropSlot(b.state, i, First).reqs[i].Empty())
  {
    var b := TrySlot(s, i, Second);
    TrySlotCore(s, i, Second, multiset{});
    ArrivingKept(s, b.state, i);
    if b.err != Ok {
      DropSlotCore(b.state, i, First, multiset{});
      ArrivingKept(b.state, DropSlot(b.state, i, First), i);
    }
  }

  lemma NewArriving(s: State, r1: Req, r2: Option<Req>)
    requires Inv(s) && Presentable(s, r1) && (r2.Some? ==> Presentable(s, r2.value))
    requires Admissible(s, NewElem(r1, r2))
    ensures Arriving(Append(s, NewElem(r1, r2)), |s.reqs|)
  {
    var e := NewElem(r1, r2);
    assert SlotOk(s, e, First);
    if r2.Some? {
      assert SlotOk(s, e, Second);
    }
    AppendCore(s, e);
    assert Append(s, e).reqs[..|s.reqs|] == s.reqs;
  }

  /** A new request keeps the invariant, whether it is granted, queued or turned away. */
  lemma GetPathInv(s: State, r1: Req, r2: Option<Req>)
    requires Inv(s) && Presentable(s, r1) && (r2.Some? ==> Presentable(s, r2.value))
    requires Admissible(s, NewElem(r1, r2))
    ensures Inv(GetPath(s, r1, r2))
  {
    var i := |s.reqs|;
    var s0 := Append(s, NewElem(r1, r2));
    NewArriving(s, r1, r2);
    BothTriedInv(s0, i);
    var a := BothTried(s0, i);
    if a.err == Ok {
      GrantInv(a.state, i);
    } else {
      RefuseInv(a.state, i, a.err);
    }
  }

  // ----- the waiter returns -------------------------------------------------

  /** wait_path after `done`: dequeue_path, and return the error or the locks. */
  function Return(s: State, i: nat): State
    requires i < |s.reqs| && s.reqs[i].Path?
  {
    if s.reqs[i].failed then Remove(s, i) else SetElem(s, i, s.reqs[i].(queued := false))
  }

  lemma ReturnInv(s: State, i: nat)
    requires Inv(s) && i < |s.reqs| && s.reqs[i].Path? && s.reqs[i].queued && s.reqs[i].done
    ensures Inv(Return(s, i))
  {
    assert ShapeAt(s.reqs, i);
    SlotFacts(s, multiset{}, i, First);
    if s.reqs[i].failed {
      RemoveCore(s, i);
      ShapeRemove(s.reqs, i);
    } else {
      var e := s.reqs[i].(queued := false);
      FlagsCore(s, i, e, multiset{});
      ShapeSet(s.reqs, i, e);
    }
  }

  // ----- free_path ----------------------------------------------------------

  /** unlock_path for each path of a finished request. */
  function Freed(s: State, i: nat): State
    requires PathAt(s, i)
  {
    Remove(UnlockElem(s, i), i)
  }

  lemma UnlockLocks(s: State, i: nat)
    requires PathAt(s, i) && LockInv(s.lock, s.reqs) && Sum(Slots, s.reqs) < INT_MAX
    requires s.reqs[i].r2.None? ==> s.reqs[i].h2.None?
    ensures LockInv(UnlockElem(s, i).lock, UnlockElem(s, i).reqs) && UnlockElem(s, i).reqs[i].Empty()
    ensures Sum(Slots, UnlockElem(s, i).reqs) == Sum(Slots, s.reqs)
  {
    var u := DropSlot(s, i, First);
    if s.reqs[i].h1.Some? {
      LockDrop(s.lock, s.reqs, i, First);
      SumUpdate(Slots, s.reqs, i, u.reqs[i]);
    }
    if u.reqs[i].r2.Some? && u.reqs[i].h2.Some? {
      LockDrop(u.lock, u.reqs, i, Second);
      SumUpdate(Slots, u.reqs, i, DropSlot(u, i, Second).reqs[i]);
    }
  }

  lemma FreedCore(s: State, i: nat)
    requires Core(s, multiset{}) && PathAt(s, i)
    ensures Core(Freed(s, i), multiset{})
  {
    var v := UnlockElem(s, i);
    var u := Freed(s, i);
    SlotFacts(s, multiset{}, i, First);
    UnlockLocks(s, i);
    assert u.reqs == Without(s.reqs, i);
    RefsKept(s, u, multiset{});
    CountsKept(s, v, i);
    RemoveCounts(v, i);
    RemoveElems(s, u, i);
  }

  /** free_path, free_path_wrlock and free_path2: release, then wake the queue. */
  ghost function Free(s: State, i: nat): State
    requires PathAt(s, i) && Ready(Freed(s, i))
  {
    WakeFrom(Freed(s, i), 0)
  }

  lemma FreedInv(s: State, i: nat)
    requires Inv(s) && PathAt(s, i)
    ensures Ready(Freed(s, i)) && Inv(Freed(s, i))
  {
    FreedCore(s, i);
    assert Freed(s, i).reqs == Without(s.reqs, i);
    ShapeRemove(s.reqs, i);
    CoreReady(Freed(s, i), multiset{});
  }

  lemma FreeInv(s: State, i: nat)
    requires Inv(s) && PathAt(s, i)
    ensures Ready(Freed(s, i)) && Inv(Free(s, i))
  {
    FreedInv(s, i);
    WakeFromInv(Freed(s, i), 0);
  }
}
