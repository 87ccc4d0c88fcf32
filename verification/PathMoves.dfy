/**
 Taking a node out of the tree and putting it back: unhash_name, hash_name, and
 the unlink, rename, hide, exchange and create operations made of them.
 */
module PathMoves {
  import opened Basics
  import opened Forest
  import opened Requests
  import opened PathState
  import opened PathLocks
  import opened PathRefs

  function Cut(s: State, n: Id): State {
    s.(tree := s.tree - {n})
  }

  /** unhash_name: nothing happens to a node without a name. */
  ghost function UnhashName(s: State, n: Id): State {
    if n in s.tree && Acyclic(s.tree) then
      ErasedAcyclic(s.tree, n);
      var d := s.tree[n].parent;
      Unref(Cut(s, n), d, ChainOf(s.tree - {n}, d))
    else s
  }

  /** hash_name: get_node would abort if the new parent were not live. */
  function HashName(s: State, n: Id, l: Link): State {
    if l.parent in s.refctr then
      s.(tree := s.tree[n := l], refctr := s.refctr[l.parent := s.refctr[l.parent] + 1])
    else s
  }

  // ----- cutting a write-locked node off ------------------------------------

  lemma WriterExcludes(s: State, n: Id, i: nat, j: Side)
    requires LockInv(s.lock, s.reqs) && n in s.lock && Sum(Writers(n), s.reqs) > 0
    requires i < |s.reqs| && Has(s.reqs[i], j) && HoldOf(s.reqs[i], j).Some?
    ensures n !in HoldOf(s.reqs[i], j).value.chain
  {
    SumOne(Readers(n), s.reqs, i);
    assert LockOk(s.lock, s.reqs, n);
  }

  lemma CutSlot(s: State, n: Id, e: Elem, j: Side)
    requires TreeInv(s) && Has(e, j) && SlotOk(s, e, j)
    requires HoldOf(e, j).Some? ==> n !in HoldOf(e, j).value.chain
    ensures SlotOk(Cut(s, n), e, j)
  {
    match HoldOf(e, j) {
      case None =>
      case Some(h) => ChainFrame(s.tree, Cut(s, n).tree, {n}, h.dir, h.chain);
    }
  }

  lemma CutElem(s: State, x: multiset<Id>, n: Id, i: nat)
    requires Core(s, x) && n in s.lock && Sum(Writers(n), s.reqs) > 0 && i < |s.reqs|
    ensures ElemOk(Cut(s, n), s.reqs[i])
  {
    var e := s.reqs[i];
    assert ElemOk(s, e);
    if e.Path? {
      if e.h1.Some? {
        WriterExcludes(s, n, i, First);
      }
      CutSlot(s, n, e, First);
      if Has(e, Second) {
        if e.h2.Some? {
          WriterExcludes(s, n, i, Second);
        }
        CutSlot(s, n, e, Second);
      }
    }
  }

  /** A walk to an unlinked node does not meet a reachable node. */
  lemma GoneWalkCut(t: Tree, n: Id, d: Id, a: set<Id>)
    requires Acyclic(t) && Acyclic(t - {n}) && n in t && Attached(t, n) && GoneSide(t, d, a)
    ensures GoneSide(t - {n}, d, a + {n})
  {
    var p := ChainOf(t, d);
    TopUnnamed(t, d, p);
    if n in p {
      ChainMember(t, d, p, n, ChainOf(t, n));
      assert false;
    }
    ChainFrame(t, t - {n}, {n}, d, p);
    ChainUnique(t - {n}, d, p, ChainOf(t - {n}, d));
  }

  lemma CutGone(s: State, n: Id, a: set<Id>)
    requires Acyclic(s.tree) && Acyclic(s.tree - {n}) && n in s.tree && Attached(s.tree, n) && GoneOk(s, a)
    ensures GoneOk(Cut(s, n), a + {n}) && GoneOk(Cut(s, n), {})
  {
    forall e | e in s.reqs && e.Path? && e.failed
      ensures Gone(s.tree - {n}, e, a + {n}) && Gone(s.tree - {n}, e, {})
    {
      assert Gone(s.tree, e, a);
      var j :| Has(e, j) && GoneSide(s.tree, ReqOf(e, j).dir, a);
      GoneWalkCut(s.tree, n, ReqOf(e, j).dir, a);
      assert GoneSide(s.tree - {n}, ReqOf(e, j).dir, {});
    }
  }

  lemma CutRefs(s: State, n: Id)
    requires TreeInv(s) && RefInv(s, multiset{}) && n in s.tree
    ensures TreeInv(Cut(s, n)) && RefInv(Cut(s, n), multiset{s.tree[n].parent})
  {
    ErasedAcyclic(s.tree, n);
    var u := Cut(s, n);
    forall m | m in u.lock ensures RefOk(u, multiset{s.tree[n].parent}, m) {
      assert RefOk(s, multiset{}, m);
      ExpectedMove(s, u, n, m);
    }
  }

  /** A cut link counts as a reference about to be dropped. */
  lemma ExpectedMove(s: State, u: State, n: Id, m: Id)
    requires n in s.tree && u.tree == s.tree - {n} && u.nlookup == s.nlookup && u.pins == s.pins && m in s.nlookup
    ensures Expected(s, multiset{}, m) == Expected(u, multiset{s.tree[n].parent}, m)
    ensures Expected(s, multiset{}, m) == Expected(u, multiset{}, m) + Bit(m == s.tree[n].parent)
  {
    ChildLost(s.tree, n, m);
  }

  /** Only a write-locked node is ever cut off, so no held chain breaks. */
  lemma CutCore(s: State, n: Id, a: set<Id>)
    requires Core(s, multiset{}) && n in s.tree && Sum(Writers(n), s.reqs) > 0 && GoneOk(s, a)
    ensures Core(Cut(s, n), multiset{s.tree[n].parent}) && GoneOk(Cut(s, n), a + {n})
  {
    WriterAttached(s, multiset{}, n);
    CutRefs(s, n);
    CutGone(s, n, a);
    forall e | e in s.reqs ensures ElemOk(Cut(s, n), e) {
      var i :| 0 <= i < |s.reqs| && s.reqs[i] == e;
      CutElem(s, multiset{}, n, i);
    }
  }

  /** unhash_name of a write-locked node below a named directory deletes nothing. */
  lemma UnhashCore(s: State, n: Id, a: set<Id>) returns (u: State)
    requires Core(s, multiset{}) && n in s.tree && Sum(Writers(n), s.reqs) > 0 && GoneOk(s, a)
    requires Named(s, s.tree[n].parent)
    ensures u == UnhashName(s, n) && Core(u, multiset{}) && GoneOk(u, a + {n})
    ensures u == s.(tree := s.tree - {n}, refctr := u.refctr)
  {
    var d := s.tree[n].parent;
    var v := Cut(s, n);
    CutCore(s, n, a);
    NamedCount(v, d);
    DecrementCore(v, d);
    u := v.(refctr := v.refctr[d := v.refctr[d] - 1]);
  }

  lemma NamedCount(s: State, d: Id)
    requires TreeInv(s) && RefInv(s, multiset{d}) && Named(s, d)
    ensures s.refctr[d] > 1
  {
    assert RefOk(s, multiset{d}, d);
  }

  // ----- hanging an unlinked node somewhere ---------------------------------

  lemma HashedAcyclic(t: Tree, n: Id, l: Link)
    requires Acyclic(t) && n !in t && Top(t, l.parent, ChainOf(t, l.parent)) != n
    ensures Acyclic(t[n := l])
  {
    var p := ChainOf(t, l.parent);
    TopUnnamed(t, l.parent, p);
    OffChain(t, l.parent, p, n);
    RelinkAcyclic(t, t[n := l], {n});
  }

  lemma OffChain(t: Tree, d: Id, p: seq<Id>, n: Id)
    requires Chain(t, d, p) && n !in t
    ensures n !in p
  {
    if n in p {
      var i: nat :| i < |p| && p[i] == n;
      ChainSuffix(t, d, p, i);
      assert false;
    }
  }

  /** No request may find `n` where it does not expect it. */
  ghost predicate Welcome(s: State, n: Id, l: Link) {
    && (forall e :: e in s.reqs && Weight(Changing(l), e) > 0 ==> e.Path? && e.committed)
    && (forall e, j :: e in s.reqs && Has(e, j) && HoldOf(e, j).Some? && HoldOf(e, j).value.wnode == Some(n) ==>
          if e.committed then Under(e, l.parent) else l.parent == ReqOf(e, j).dir)
  }

  lemma HashSlot(s: State, n: Id, l: Link, e: Elem, j: Side)
    requires TreeInv(s) && Has(e, j) && SlotOk(s, e, j) && n !in s.tree && n != ROOT && l.parent in s.refctr
    requires Weight(Changing(l), e) > 0 ==> e.committed
    requires HoldOf(e, j).Some? && HoldOf(e, j).value.wnode == Some(n) ==>
          if e.committed then Under(e, l.parent) else l.parent == ReqOf(e, j).dir
    ensures SlotOk(HashName(s, n, l), e, j)
  {
    var u := HashName(s, n, l);
    match HoldOf(e, j) {
      case None =>
      case Some(h) =>
        OffChain(s.tree, h.dir, h.chain, n);
        ChainFrame(s.tree, u.tree, {n}, h.dir, h.chain);
    }
  }

  lemma HashElem(s: State, n: Id, l: Link, e: Elem)
    requires TreeInv(s) && ElemOk(s, e) && e in s.reqs && n !in s.tree && n != ROOT && l.parent in s.refctr
    requires Welcome(s, n, l)
    ensures ElemOk(HashName(s, n, l), e)
  {
    if e.Path? {
      HashSlot(s, n, l, e, First);
      if Has(e, Second) {
        HashSlot(s, n, l, e, Second);
      }
    }
  }

  lemma GoneWalkHash(t: Tree, n: Id, l: Link, d: Id, a: set<Id>)
    requires Acyclic(t) && Acyclic(t[n := l]) && n !in t && n in a && n != ROOT && GoneSide(t, d, a)
    ensures GoneSide(t[n := l], d, a) && GoneSide(t[n := l], d, {})
  {
    var p := ChainOf(t, d);
    TopUnnamed(t, d, p);
    OffChain(t, d, p, n);
    ChainFrame(t, t[n := l], {n}, d, p);
    ChainUnique(t[n := l], d, p, ChainOf(t[n := l], d));
  }

  lemma HashGone(s: State, n: Id, l: Link, a: set<Id>)
    requires Acyclic(s.tree) && Acyclic(s.tree[n := l]) && l.parent in s.refctr
    requires n !in s.tree && n != ROOT && n in a && GoneOk(s, a)
    ensures GoneOk(HashName(s, n, l), a) && GoneOk(HashName(s, n, l), {})
  {
    var u := HashName(s, n, l);
    forall e | e in s.reqs && e.Path? && e.failed
      ensures Gone(u.tree, e, a) && Gone(u.tree, e, {})
    {
      assert Gone(s.tree, e, a);
      var j :| Has(e, j) && GoneSide(s.tree, ReqOf(e, j).dir, a);
      GoneWalkHash(s.tree, n, l, ReqOf(e, j).dir, a);
    }
  }

  lemma HashRefs(s: State, u: State, n: Id, l: Link)
    requires TreeInv(s) && RefInv(s, multiset{}) && n !in s.tree && l.parent in s.lock
    requires u == HashName(s, n, l) && TreeInv(u)
    ensures RefInv(u, multiset{})
  {
    assert u.tree - {n} == s.tree;
    forall m | m in u.lock ensures RefOk(u, multiset{}, m) {
      assert RefOk(s, multiset{}, m);
      ExpectedMove(u, s, n, m);
    }
  }

  lemma HashTree(s: State, n: Id, l: Link)
    requires TreeInv(s) && n in s.lock && n !in s.tree && n != ROOT && l.parent in s.lock
    requires Lookup(s.tree, l) == None && Acyclic(s.tree[n := l])
    ensures TreeInv(HashName(s, n, l))
  {
  }

  /** Hanging an unlinked live node under a new name. */
  lemma HashCore(s: State, n: Id, l: Link, a: set<Id>) returns (u: State)
    requires Core(s, multiset{}) && GoneOk(s, a) && n in a
    requires n in s.lock && n !in s.tree && n != ROOT && l.parent in s.lock
    requires Lookup(s.tree, l) == None && Top(s.tree, l.parent, ChainOf(s.tree, l.parent)) != n
    requires Welcome(s, n, l)
    ensures u == HashName(s, n, l) && Core(u, multiset{}) && GoneOk(u, a)
  {
    u := HashName(s, n, l);
    HashedAcyclic(s.tree, n, l);
    HashTree(s, n, l);
    HashRefs(s, u, n, l);
    HashGone(s, n, l, a);
    forall e | e in s.reqs ensures ElemOk(u, e) {
      assert ElemOk(s, e);
      HashElem(s, n, l, e);
    }
  }
}
