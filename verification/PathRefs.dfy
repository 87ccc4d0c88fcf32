/**
 Reference counts: dropping a reference deletes a node whose count reaches
 zero, which drops its reference on the parent, and so on up the tree. The
 cascade keeps the invariant and frees only nodes that nobody has locked.
 */
module PathRefs {
  import opened Basics
  import opened Forest
  import opened Requests
  import opened PathState
  import opened PathLocks

  function Erase(s: State, n: Id): State {
    s.(tree := s.tree - {n}, lock := s.lock - {n}, nlookup := s.nlookup - {n}, refctr := s.refctr - {n})
  }

  lemma ErasedChain(t: Tree, n: Id, p: seq<Id>)
    requires Chain(t, n, p) && n in t
    ensures Chain(t - {n}, t[n].parent, p[1..])
    ensures Top(t - {n}, t[n].parent, p[1..]) == Top(t, n, p)
  {
    TopUnnamed(t, n, p);
    forall x | x in p[1..] ensures x != n {
      var i: nat :| i < |p[1..]| && p[1..][i] == x;
      ChainDistinct(t, n, p, 0, i + 1);
    }
    ChainFrame(t, t - {n}, {n}, t[n].parent, p[1..]);
  }

  /**
   unref_node and delete_node, `p` being the walk from `n`. A count of zero
   would trip the assertion in unref_node; the state is then left alone. The
   node goes before the reference on its parent does: all of this is one
   critical section.
   */
  ghost function Unref(s: State, n: Id, p: seq<Id>): State
    requires Chain(s.tree, n, p)
    decreases |p|
  {
    if n !in s.refctr || s.refctr[n] == 0 then s
    else if s.refctr[n] > 1 then s.(refctr := s.refctr[n := s.refctr[n] - 1])
    else if n !in s.tree then Erase(s, n)
    else
      ErasedChain(s.tree, n, p);
      Unref(Erase(s, n), s.tree[n].parent, p[1..])
  }

  /** The last reference is being dropped: no lookup, no pin, no child. */
  lemma LastReference(s: State, n: Id)
    requires TreeInv(s) && RefInv(s, multiset{n}) && n in s.lock && s.refctr[n] == 1
    ensures !Named(s, n) && s.nlookup[n] == 0 && n != ROOT
    ensures forall c :: c in s.tree ==> s.tree[c].parent != n
  {
    assert RefOk(s, multiset{n}, n);
    assert Children(s.tree, n) == {};
    forall c | c in s.tree ensures s.tree[c].parent != n {
      assert c !in Children(s.tree, n);
    }
  }

  /** A node that is neither named nor a parent is on nobody's path. */
  lemma NotOnChain(s: State, x: multiset<Id>, n: Id, i: nat, j: Side)
    requires Core(s, x) && i < |s.reqs| && Has(s.reqs[i], j) && HoldOf(s.reqs[i], j).Some?
    requires !Named(s, n) && forall c :: c in s.tree ==> s.tree[c].parent != n
    ensures n !in HoldOf(s.reqs[i], j).value.chain
    ensures HoldOf(s.reqs[i], j).value.wnode != Some(n)
  {
    SlotFacts(s, x, i, j);
    var h := HoldOf(s.reqs[i], j).value;
    if n in h.chain {
      var c := ChainPredecessor(s.tree, h.dir, h.chain, n);
      assert false;
    }
  }

  lemma NobodyLocks(s: State, x: multiset<Id>, n: Id)
    requires Core(s, x) && n in s.lock
    requires !Named(s, n) && forall c :: c in s.tree ==> s.tree[c].parent != n
    ensures s.lock[n] == 0
  {
    if Sum(Readers(n), s.reqs) > 0 {
      var i := SumWitness(Readers(n), s.reqs);
      var e := s.reqs[i];
      var j: Side :| Has(e, j) && HoldOf(e, j).Some? && n in HoldOf(e, j).value.chain;
      NotOnChain(s, x, n, i, j);
    } else if Sum(Writers(n), s.reqs) > 0 {
      var i := SumWitness(Writers(n), s.reqs);
      var e := s.reqs[i];
      var j: Side :| Has(e, j) && HoldOf(e, j).Some? && HoldOf(e, j).value.wnode == Some(n);
      NotOnChain(s, x, n, i, j);
    } else {
      assert LockOk(s.lock, s.reqs, n);
    }
  }

  lemma ErasedAcyclic(t: Tree, n: Id)
    requires Acyclic(t)
    ensures Acyclic(t - {n})
  {
    RelinkAcyclic(t, t - {n}, {n});
  }

  /** A walk that starts elsewhere does not notice the loss of a childless node. */
  lemma ErasedWalk(t: Tree, n: Id, d: Id)
    requires Acyclic(t) && Acyclic(t - {n}) && d != n
    requires forall c :: c in t ==> t[c].parent != n
    ensures ChainOf(t - {n}, d) == ChainOf(t, d)
    ensures Top(t - {n}, d, ChainOf(t - {n}, d)) == Top(t, d, ChainOf(t, d))
  {
    var p := ChainOf(t, d);
    TopUnnamed(t, d, p);
    if n in p {
      var c := ChainPredecessor(t, d, p, n);
      assert false;
    }
    ChainFrame(t, t - {n}, {n}, d, p);
    ChainUnique(t - {n}, d, p, ChainOf(t - {n}, d));
  }

  lemma EraseTree(s: State, n: Id)
    requires TreeInv(s) && n in s.lock && n != ROOT
    requires forall c :: c in s.tree ==> s.tree[c].parent != n
    ensures TreeInv(Erase(s, n))
  {
    ErasedAcyclic(s.tree, n);
  }

  ghost function ParentRef(t: Tree, n: Id): multiset<Id> {
    if n in t then multiset{t[n].parent} else multiset{}
  }

  lemma ChildLost(t: Tree, n: Id, m: Id)
    requires n in t
    ensures |Children(t, m)| == |Children(t - {n}, m)| + Bit(t[n].parent == m)
  {
    if t[n].parent == m {
      assert Children(t, m) == Children(t - {n}, m) + {n};
    } else {
      assert Children(t, m) == Children(t - {n}, m);
    }
  }

  lemma EraseRef(s: State, n: Id, m: Id)
    requires TreeInv(s) && m in s.nlookup && m != n
    ensures Expected(Erase(s, n), ParentRef(s.tree, n), m) == Expected(s, multiset{n}, m)
  {
    if n in s.tree {
      ChildLost(s.tree, n, m);
    } else {
      assert s.tree - {n} == s.tree;
    }
  }

  lemma EraseRefs(s: State, n: Id)
    requires TreeInv(s) && RefInv(s, multiset{n}) && n != ROOT && s.pins[n] == 0
    requires TreeInv(Erase(s, n))
    ensures RefInv(Erase(s, n), ParentRef(s.tree, n))
  {
    var u := Erase(s, n);
    forall m | m in u.lock
      ensures RefOk(u, ParentRef(s.tree, n), m)
    {
      assert m in s.lock && RefOk(s, multiset{n}, m);
      EraseRef(s, n, m);
    }
  }

  lemma EraseSlot(s: State, n: Id, e: Elem, j: Side)
    requires TreeInv(s) && Has(e, j) && SlotOk(s, e, j)
    requires !Named(s, n) && n != ROOT && forall c :: c in s.tree ==> s.tree[c].parent != n
    ensures SlotOk(Erase(s, n), e, j)
  {
    var u := Erase(s, n);
    match HoldOf(e, j) {
      case None =>
      case Some(h) =>
        if n in h.chain {
          var c := ChainPredecessor(s.tree, h.dir, h.chain, n);
          assert false;
        }
        ChainFrame(s.tree, u.tree, {n}, h.dir, h.chain);
        assert HoldOk(u, e, ReqOf(e, j), h);
    }
  }

  lemma EraseElem(s: State, n: Id, e: Elem)
    requires TreeInv(s) && ElemOk(s, e)
    requires !Named(s, n) && n != ROOT && forall c :: c in s.tree ==> s.tree[c].parent != n
    requires e.Waiter? ==> e.node != n
    ensures ElemOk(Erase(s, n), e)
  {
    if e.Path? {
      EraseSlot(s, n, e, First);
      if Has(e, Second) {
        EraseSlot(s, n, e, Second);
      }
    }
  }

  lemma EraseGone(s: State, n: Id, e: Elem)
    requires TreeInv(s) && TreeInv(Erase(s, n)) && ElemOk(s, e) && Gone(s.tree, e, {})
    requires !Named(s, n) && forall c :: c in s.tree ==> s.tree[c].parent != n
    ensures Gone(Erase(s, n).tree, e, {})
  {
    var j :| Has(e, j) && GoneSide(s.tree, ReqOf(e, j).dir, {});
    assert SlotOk(s, e, j);
    ErasedWalk(s.tree, n, ReqOf(e, j).dir);
    assert GoneSide(Erase(s, n).tree, ReqOf(e, j).dir, {});
  }

  lemma WaiterElsewhere(s: State, n: Id, i: nat)
    requires CountInv(s) && n in s.nlookup && s.nlookup[n] == 0 && i < |s.reqs| && ElemOk(s, s.reqs[i])
    ensures s.reqs[i].Waiter? ==> s.reqs[i].node != n
  {
    SumOne(Waits(n), s.reqs, i);
  }

  /** Deleting a node nobody refers to any more. */
  lemma EraseCore(s: State, n: Id)
    requires Core(s, multiset{n}) && n in s.lock && s.refctr[n] == 1
    ensures Core(Erase(s, n), ParentRef(s.tree, n)) && s.lock[n] == 0 && n != ROOT
  {
    var u := Erase(s, n);
    LastReference(s, n);
    NobodyLocks(s, multiset{n}, n);
    EraseTree(s, n);
    EraseRefs(s, n);
    LockSame(s.lock, s.reqs, u.lock, u.reqs);
    forall e | e in u.reqs
      ensures ElemOk(u, e)
      ensures e.Path? && e.failed ==> Gone(u.tree, e, {})
    {
      EraseOne(s, n, e);
    }
  }

  lemma EraseOne(s: State, n: Id, e: Elem)
    requires Core(s, multiset{n}) && TreeInv(Erase(s, n)) && e in s.reqs
    requires n in s.lock && !Named(s, n) && n != ROOT && s.nlookup[n] == 0
    requires forall c :: c in s.tree ==> s.tree[c].parent != n
    ensures ElemOk(Erase(s, n), e)
    ensures e.Path? && e.failed ==> Gone(Erase(s, n).tree, e, {})
  {
    var i :| 0 <= i < |s.reqs| && s.reqs[i] == e;
    WaiterElsewhere(s, n, i);
    EraseElem(s, n, e);
    if e.Path? && e.failed {
      EraseGone(s, n, e);
    }
  }

  lemma DecrementRefs(s: State, n: Id)
    requires TreeInv(s) && RefInv(s, multiset{n}) && n in s.lock && s.refctr[n] > 1
    ensures var u := s.(refctr := s.refctr[n := s.refctr[n] - 1]); TreeInv(u) && RefInv(u, multiset{})
  {
    var u := s.(refctr := s.refctr[n := s.refctr[n] - 1]);
    forall m | m in u.lock ensures RefOk(u, multiset{}, m) {
      assert RefOk(s, multiset{n}, m);
    }
  }

  lemma DecrementCore(s: State, n: Id)
    requires Core(s, multiset{n}) && n in s.lock && s.refctr[n] > 1
    ensures Core(s.(refctr := s.refctr[n := s.refctr[n] - 1]), multiset{})
  {
    var u := s.(refctr := s.refctr[n := s.refctr[n] - 1]);
    DecrementRefs(s, n);
    forall e | e in u.reqs ensures ElemOk(u, e) {
      assert ElemOk(s, e);
      ElemOkRef(s, u, e);
    }
  }

  lemma ElemOkRef(s: State, u: State, e: Elem)
    requires u == s.(refctr := u.refctr) && ElemOk(s, e)
    ensures ElemOk(u, e)
  {
  }

  /** Only unlocked, unnamed nodes have gone; the rest is as it was. */
  ghost predicate Shrunk(s: State, u: State) {
    && u == s.(tree := u.tree, lock := u.lock, nlookup := u.nlookup, refctr := u.refctr)
    && (forall m :: m in u.lock ==> m in s.lock && u.lock[m] == s.lock[m])
    && (forall m :: m in s.lock && m !in u.lock ==> s.lock[m] == 0 && !Named(s, m))
    && (forall m :: m in s.tree && m in u.lock ==> m in u.tree && u.tree[m] == s.tree[m])
    && (forall m :: m in u.tree ==> m in s.tree)
    && (forall m :: m in u.nlookup ==> m in s.nlookup && u.nlookup[m] == s.nlookup[m])
  }

  lemma ShrunkErase(s: State, n: Id, u: State)
    requires n in s.lock && s.lock[n] == 0 && !Named(s, n) && Shrunk(Erase(s, n), u)
    ensures Shrunk(s, u)
  {
    forall m | m in s.lock && m !in u.lock ensures s.lock[m] == 0 && !Named(s, m) {
      if m != n {
        assert m in Erase(s, n).lock;
      }
    }
  }

  lemma LastErased(s: State, n: Id)
    requires Core(s, multiset{n}) && n in s.lock && s.refctr[n] == 1
    ensures Core(Erase(s, n), ParentRef(s.tree, n)) && Shrunk(s, Erase(s, n)) && ROOT in Erase(s, n).lock
    ensures s.lock[n] == 0 && !Named(s, n)
    ensures n in s.tree ==> s.tree[n].parent in Erase(s, n).lock
  {
    EraseCore(s, n);
    LastReference(s, n);
    ShrunkErase(s, n, Erase(s, n));
  }

  /**
   Dropping a reference, with the whole cascade it may start: the invariant is
   restored, every node that is freed is unlocked (the assertion in
   delete_node), freed once, and the root survives.
   */
  lemma {:induction false} UnrefCore(s: State, n: Id, p: seq<Id>) returns (u: State)
    requires Core(s, multiset{n}) && n in s.lock && Chain(s.tree, n, p)
    ensures u == Unref(s, n, p) && Core(u, multiset{}) && Shrunk(s, u) && ROOT in u.lock
    decreases |p|
  {
    assert RefOk(s, multiset{n}, n);
    if s.refctr[n] > 1 {
      DecrementCore(s, n);
      u := s.(refctr := s.refctr[n := s.refctr[n] - 1]);
    } else {
      LastErased(s, n);
      if n in s.tree {
        ErasedChain(s.tree, n, p);
        u := UnrefCore(Erase(s, n), s.tree[n].parent, p[1..]);
        ShrunkErase(s, n, u);
      } else {
        u := Erase(s, n);
      }
    }
  }
}
