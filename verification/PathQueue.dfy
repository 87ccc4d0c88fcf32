/**
 The lock queue: one wake-up pass keeps the invariant, only the head of the
 queue ever holds half of what it wants, and exactly when a pass lets the head go.
 */
module PathQueue {
  import opened Forest
  import opened Requests
  import opened PathState
  import opened PathLocks

  predicate SameHolds(e: Elem, d: Elem) {
    e.Path? && d.Path? && e.r1 == d.r1 && e.r2 == d.r2 && e.h1 == d.h1 && e.h2 == d.h2
    && e.committed == d.committed
  }

  function SetElem(s: State, i: nat, e: Elem): State
    requires i < |s.reqs|
  {
    s.(reqs := s.reqs[i := e])
  }

  lemma SameSums(q: seq<Elem>, i: nat, e: Elem)
    requires i < |q| && forall m :: Weight(m, q[i]) == Weight(m, e)
    ensures forall m :: Sum(m, q[i := e]) == Sum(m, q)
  {
    forall m ensures Sum(m, q[i := e]) == Sum(m, q) {
      SumUpdate(m, q, i, e);
    }
  }

  /** Queue flags may change freely; a failure needs a path that is gone. */
  lemma FlagsCore(s: State, i: nat, e: Elem, x: multiset<Id>)
    requires Core(s, x) && i < |s.reqs| && SameHolds(s.reqs[i], e)
    requires e.queued ==> !e.committed
    requires e.failed ==> Gone(s.tree, e, {})
    ensures Core(SetElem(s, i, e), x)
  {
    var u := SetElem(s, i, e);
    SameSums(s.reqs, i, e);
    LockSame(s.lock, s.reqs, u.lock, u.reqs);
    assert CountInv(u);
    RefsKept(s, u, x);
    SlotFacts(s, x, i, First);
    FlagsElem(s, u, s.reqs[i], e);
    ElemSet(s, u, i);
  }

  lemma ElemSet(s: State, u: State, i: nat)
    requires i < |s.reqs| && |u.reqs| == |s.reqs| && u == SetElem(s, i, u.reqs[i]) && Acyclic(s.tree)
    requires forall e :: e in s.reqs ==> ElemOk(s, e)
    requires GoneOk(s, {}) && ElemOk(u, u.reqs[i])
    requires u.reqs[i].Path? && u.reqs[i].failed ==> Gone(s.tree, u.reqs[i], {})
    ensures forall e :: e in u.reqs ==> ElemOk(u, e)
    ensures GoneOk(u, {})
  {
    forall d | d in u.reqs
      ensures ElemOk(u, d)
      ensures d.Path? && d.failed ==> Gone(u.tree, d, {})
    {
      var k :| 0 <= k < |u.reqs| && u.reqs[k] == d;
      if k != i {
        assert d == s.reqs[k] && ElemOk(s, d);
        ElemOkSame(s, u, d);
      }
    }
  }

  lemma FlagsElem(s: State, u: State, e: Elem, d: Elem)
    requires u == s.(reqs := u.reqs) && ElemOk(s, e) && SameHolds(e, d)
    requires d.queued ==> !d.committed
    ensures ElemOk(u, d)
  {
    assert SlotOk(s, e, First) && SlotOk(u, d, First);
    if Has(e, Second) {
      assert SlotOk(s, e, Second) && SlotOk(u, d, Second);
    }
  }

  lemma TryIfNeededCore(s: State, i: nat, j: Side)
    requires Core(s, multiset{}) && PathAt(s, i)
    ensures var r := TryIfNeeded(s, i, j);
      && Core(r.state, multiset{})
      && (r.err == Ok && Has(s.reqs[i], j) ==> HoldOf(r.state.reqs[i], j).Some?)
      && (r.err != Ok ==> r.state.reqs == s.reqs && Has(s.reqs[i], j) && HoldOf(s.reqs[i], j).None?)
      && (r.err == ENOENT ==> Gone(s.tree, s.reqs[i], {}))
  {
    if Has(s.reqs[i], j) && HoldOf(s.reqs[i], j).None? {
      TrySlotCore(s, i, j, multiset{});
    }
  }

  /** A request one of whose paths is gone fails again on every pass, holding nothing. */
  lemma WakeGone(s: State, i: nat)
    requires Core(s, multiset{}) && PathAt(s, i) && s.reqs[i].queued && Gone(s.tree, s.reqs[i], {})
    ensures TryIfNeeded(s, i, First).err == ENOENT
         || TryIfNeeded(TryIfNeeded(s, i, First).state, i, Second).err == ENOENT
  {
    var a := TryIfNeeded(s, i, First);
    var j :| Has(s.reqs[i], j) && GoneSide(s.tree, ReqOf(s.reqs[i], j).dir, {});
    if j.First? {
      GoneNoEnt(s, multiset{}, i, First);
    } else {
      TryIfNeededCore(s, i, First);
      GoneNoEnt(a.state, multiset{}, i, Second);
    }
  }

  ghost predicate Settled(e: Elem, head: bool) {
    e.Path? ==>
      && (!e.queued ==> e.Full() && !e.failed)
      && (e.queued && !head ==> e.Full() || e.Empty())
      && (e.queued && e.done ==> if e.failed then e.Empty() else e.Full())
      && (e.failed ==> e.done)
  }

  lemma FailCore(s: State, i: nat)
    requires Core(s, multiset{}) && PathAt(s, i) && s.reqs[i].queued && Gone(s.tree, s.reqs[i], {})
    ensures Core(Fail(s, i), multiset{}) && Settled(Fail(s, i).reqs[i], false)
  {
    SlotFacts(s, multiset{}, i, First);
    UnlockElemCore(s, i, multiset{});
    var v := UnlockElem(s, i);
    var e := v.reqs[i].(done := true, failed := true);
    GoneSame(s.tree, s.reqs[i], e);
    FlagsCore(v, i, e, multiset{});
  }

  lemma WakeLastCore(s: State, i: nat, head: bool)
    requires Core(s, multiset{}) && PathAt(s, i) && s.reqs[i].queued
    requires !s.reqs[i].failed && (s.reqs[i].done ==> s.reqs[i].Full())
    ensures Core(WakeLast(s, i, head), multiset{}) && Settled(WakeLast(s, i, head).reqs[i], head)
  {
    SlotFacts(s, multiset{}, i, First);
    if s.reqs[i].Full() {
      FlagsCore(s, i, s.reqs[i].(done := true, failed := false), multiset{});
    } else if !head {
      UnlockElemCore(s, i, multiset{});
    }
  }

  lemma WakeSecondCore(s: State, i: nat, head: bool)
    requires Core(s, multiset{}) && PathAt(s, i) && s.reqs[i].queued
    requires s.reqs[i].failed ==> TryIfNeeded(s, i, Second).err == ENOENT
    requires s.reqs[i].done && !s.reqs[i].failed ==> s.reqs[i].Full()
    ensures Core(WakeSecond(s, i, head), multiset{}) && Settled(WakeSecond(s, i, head).reqs[i], head)
  {
    var b := TryIfNeeded(s, i, Second);
    TryIfNeededCore(s, i, Second);
    if b.err == ENOENT {
      FailCore(b.state, i);
    } else {
      WakeLastCore(b.state, i, head);
    }
  }

  /** One queue element's turn keeps the invariant and leaves the element settled. */
  lemma WakeElemCore(s: State, i: nat)
    requires Core(s, multiset{}) && i < |s.reqs| && (s.reqs[i].Path? ==> PathAt(s, i))
    requires Settled(s.reqs[i], IsHead(s.reqs, i))
    ensures Core(WakeElem(s, i), multiset{})
    ensures Settled(WakeElem(s, i).reqs[i], IsHead(s.reqs, i))
  {
    if s.reqs[i].Path? && s.reqs[i].queued {
      var a := TryIfNeeded(s, i, First);
      TryIfNeededCore(s, i, First);
      if a.err == ENOENT {
        FailCore(a.state, i);
      } else {
        if s.reqs[i].failed {
          assert Gone(s.tree, s.reqs[i], {});
          WakeGone(s, i);
        }
        WakeSecondCore(a.state, i, IsHead(s.reqs, i));
      }
    }
  }
}
