/**
 Creating, looking up and forgetting nodes: find_node, forget_node, and the
 pins that fuse_lib_lookup takes for ".".
 */
module PathNodes {
  import opened Basics
  import opened Forest
  import opened Requests
  import opened PathState
  import opened PathLocks
  import opened PathRefs
  import opened PathMoves

  /** inc_nlookup. */
  function IncLookup(s: State, n: Id): State
    requires n in s.nlookup && n in s.refctr
  {
    s.(nlookup := s.nlookup[n := s.nlookup[n] + 1],
       refctr := if s.nlookup[n] == 0 then s.refctr[n := s.refctr[n] + 1] else s.refctr)
  }

  /** A node fresh from alloc_node that has been looked up once and has no name yet. */
  function Allocate(s: State, n: Id): State {
    s.(lock := s.lock[n := 0], nlookup := s.nlookup[n := 1], refctr := s.refctr[n := 1])
  }

  /** find_node with a name; `fresh` is the id next_id would return. */
  ghost function FindNode(s: State, l: Link, n: Id): State {
    match Lookup(s.tree, l)
    case Some(x) => if x in s.nlookup && x in s.refctr then IncLookup(s, x) else s
    case None => HashName(Allocate(s, n), n, l)
  }

  /** The counting half of forget_node; the assertion in it guards the subtraction. */
  ghost function ForgetNode(s: State, n: Id, k: nat): State {
    if n in s.nlookup && k <= s.nlookup[n] && Acyclic(s.tree) then
      var v := s.(nlookup := s.nlookup[n := s.nlookup[n] - k]);
      if v.nlookup[n] == 0 then Unref(v, n, ChainOf(s.tree, n)) else v
    else s
  }

  function Pin(s: State, n: Id): State
    requires n in s.refctr
  {
    s.(pins := s.pins + multiset{n}, refctr := s.refctr[n := s.refctr[n] + 1])
  }

  ghost function Unpin(s: State, n: Id): State {
    if Acyclic(s.tree) then Unref(s.(pins := s.pins - multiset{n}), n, ChainOf(s.tree, n)) else s
  }

  // ----- changes of the counts only -----------------------------------------

  /** More names is fine for every request. */
  lemma ElemGrows(s: State, u: State, e: Elem)
    requires u == s.(nlookup := u.nlookup, refctr := u.refctr, pins := u.pins) && ElemOk(s, e)
    requires forall n :: Named(s, n) ==> Named(u, n)
    ensures ElemOk(u, e)
  {
    if e.Path? {
      assert SlotOk(s, e, First) && SlotOk(u, e, First);
      if Has(e, Second) {
        assert SlotOk(s, e, Second) && SlotOk(u, e, Second);
      }
    }
  }

  lemma IncCore(s: State, n: Id)
    requires Core(s, multiset{}) && n in s.lock
    ensures Core(IncLookup(s, n), multiset{})
  {
    var u := IncLookup(s, n);
    assert u == s.(nlookup := u.nlookup, refctr := u.refctr, pins := u.pins);
    forall m | m in u.lock ensures RefOk(u, multiset{}, m) {
      assert RefOk(s, multiset{}, m);
    }
    forall e | e in u.reqs ensures ElemOk(u, e) {
      assert ElemOk(s, e);
      ElemGrows(s, u, e);
    }
  }

  lemma PinCore(s: State, n: Id)
    requires Core(s, multiset{}) && n in s.lock
    ensures Core(Pin(s, n), multiset{})
  {
    var u := Pin(s, n);
    forall m | m in u.lock ensures RefOk(u, multiset{}, m) {
      assert RefOk(s, multiset{}, m);
    }
    forall e | e in u.reqs ensures ElemOk(u, e) {
      assert ElemOk(s, e);
      ElemGrows(s, u, e);
    }
  }

  // ----- losing a name ------------------------------------------------------

  /** Side `j` of `e` does not rely on `n` being looked up. */
  ghost predicate Spares(s: State, e: Elem, j: Side, n: Id)
    requires Has(e, j)
  {
    var r := ReqOf(e, j);
    && r.dir != n
    && match HoldOf(e, j)
       case None => r.wr && r.name.Some? && n in s.tree ==> s.tree[n] != r.Entry()
       case Some(h) => h.wnode != Some(n)
  }

  ghost predicate Unneeded(s: State, n: Id) {
    forall e, j :: e in s.reqs && Has(e, j) ==> Spares(s, e, j, n)
  }

  lemma ElemSpared(s: State, u: State, e: Elem, n: Id)
    requires u == s.(nlookup := u.nlookup, pins := u.pins) && ElemOk(s, e)
    requires forall m :: m != n && Named(s, m) ==> Named(u, m)
    requires forall j :: Has(e, j) ==> Spares(s, e, j, n)
    ensures ElemOk(u, e)
  {
    if e.Path? {
      assert SlotOk(s, e, First) && Spares(s, e, First, n);
      assert SlotOk(u, e, First);
      if Has(e, Second) {
        assert SlotOk(s, e, Second) && Spares(s, e, Second, n);
        assert SlotOk(u, e, Second);
      }
    }
  }

  lemma ForgetMeans(s: State, u: State, n: Id, x: multiset<Id>)
    requires Core(s, multiset{}) && n in s.lock && (n != ROOT || u.nlookup == s.nlookup)
    requires u == s.(nlookup := u.nlookup, pins := u.pins) && u.nlookup.Keys == s.nlookup.Keys
    requires forall m :: m in s.nlookup && m != n ==> u.nlookup[m] == s.nlookup[m] && u.pins[m] == s.pins[m] && x[m] == 0
    requires Bit(u.nlookup[n] > 0) + u.pins[n] + x[n] == Bit(s.nlookup[n] > 0) + s.pins[n]
    requires Sum(Waits(n), s.reqs) <= u.nlookup[n] && u.pins <= s.pins
    requires Named(u, n) || Unneeded(s, n)
    ensures Core(u, x)
  {
    forall m | m in u.lock ensures RefOk(u, x, m) {
      assert RefOk(s, multiset{}, m);
    }
    forall e | e in u.reqs ensures ElemOk(u, e) {
      assert ElemOk(s, e);
      if Named(u, n) {
        ElemGrows(s, u, e);
      } else {
        ElemSpared(s, u, e, n);
      }
    }
  }

  /** Forgetting keeps the invariant, also when the last lookup goes and the node with it. */
  lemma ForgetCore(s: State, n: Id, k: nat) returns (u: State)
    requires Core(s, multiset{}) && n in s.lock && n != ROOT && 1 <= k
    requires k + Sum(Waits(n), s.reqs) <= s.nlookup[n]
    requires k == s.nlookup[n] && s.pins[n] == 0 ==> Unneeded(s, n)
    ensures u == ForgetNode(s, n, k) && Core(u, multiset{}) && Shrunk(s.(nlookup := s.nlookup[n := s.nlookup[n] - k]), u)
  {
    var v := s.(nlookup := s.nlookup[n := s.nlookup[n] - k]);
    if v.nlookup[n] == 0 {
      ForgetAll(s, v, n);
      u := UnrefCore(v, n, ChainOf(s.tree, n));
    } else {
      ForgetSome(s, v, n);
      u := v;
    }
  }

  /** Forgetting takes `k` lookups from the node and none from any other; a node that goes had none left. */
  lemma ForgetCounts(s: State, n: Id, k: nat)
    requires Core(s, multiset{}) && n in s.lock && n != ROOT && 1 <= k
    requires k + Sum(Waits(n), s.reqs) <= s.nlookup[n]
    requires k == s.nlookup[n] && s.pins[n] == 0 ==> Unneeded(s, n)
    ensures var u := ForgetNode(s, n, k);
      && Core(u, multiset{})
      && (forall m :: Known(u, m) == Known(s, m) - if m == n then k else 0)
      && (k == s.nlookup[n] && s.pins[n] == 0 && Children(s.tree, n) == {} ==> n !in u.lock)
  {
    var u := ForgetCore(s, n, k);
    ShrunkKnows(s.(nlookup := s.nlookup[n := s.nlookup[n] - k]), u);
    if k == s.nlookup[n] && s.pins[n] == 0 && n in u.lock {
      OnlyChildrenKeep(u, n);
      ChildrenShrink(s, u, n);
    }
  }

  lemma ShrunkKnows(s: State, u: State)
    requires Shrunk(s, u) && s.nlookup.Keys == s.lock.Keys && u.nlookup.Keys == u.lock.Keys
    ensures forall m :: Known(u, m) == Known(s, m)
  {
    forall m ensures Known(u, m) == Known(s, m) {
      if m in s.nlookup && m !in u.nlookup {
        assert m in s.lock && m !in u.lock;
      }
    }
  }

  lemma OnlyChildrenKeep(u: State, n: Id)
    requires Core(u, multiset{}) && n in u.lock && u.nlookup[n] == 0 && u.pins[n] == 0
    ensures Children(u.tree, n) != {}
  {
    assert RefOk(u, multiset{}, n);
  }

  /** The lookups of a node, dead or alive. */
  function Known(s: State, n: Id): nat {
    if n in s.nlookup then s.nlookup[n] else 0
  }

  lemma ChildrenShrink(s: State, u: State, n: Id)
    requires TreeInv(s) && TreeInv(u) && (forall m :: m in u.lock ==> m in s.lock)
    requires forall m :: m in s.tree && m in u.lock ==> m in u.tree && u.tree[m] == s.tree[m]
    requires forall m :: m in u.tree ==> m in s.tree
    ensures Children(u.tree, n) <= Children(s.tree, n)
  {
  }

  lemma ForgetAll(s: State, v: State, n: Id)
    requires Core(s, multiset{}) && n in s.lock && n != ROOT && Sum(Waits(n), s.reqs) == 0 && s.nlookup[n] > 0
    requires v == s.(nlookup := s.nlookup[n := 0]) && (s.pins[n] == 0 ==> Unneeded(s, n))
    ensures Core(v, multiset{n})
  {
    ForgetMeans(s, v, n, multiset{n});
  }

  lemma ForgetSome(s: State, v: State, n: Id)
    requires Core(s, multiset{}) && n in s.lock && n != ROOT && n in v.nlookup && v.nlookup[n] > 0 && s.nlookup[n] > 0
    requires v == s.(nlookup := s.nlookup[n := v.nlookup[n]]) && Sum(Waits(n), s.reqs) <= v.nlookup[n]
    ensures Core(v, multiset{})
  {
    ForgetMeans(s, v, n, multiset{});
  }

  lemma UnpinCore(s: State, n: Id) returns (u: State)
    requires Core(s, multiset{}) && n in s.pins
    requires s.pins[n] == 1 && s.nlookup[n] == 0 ==> Unneeded(s, n)
    ensures u == Unpin(s, n) && Core(u, multiset{}) && Shrunk(s.(pins := s.pins - multiset{n}), u)
  {
    var v := s.(pins := s.pins - multiset{n});
    ForgetMeans(s, v, n, multiset{n});
    u := UnrefCore(v, n, ChainOf(s.tree, n));
  }

  /** A node whose treelock is zero is neither a held directory nor a held target. */
  lemma UnlockedSpared(s: State, n: Id)
    requires Core(s, multiset{}) && n in s.lock && n != ROOT && s.lock[n] == 0
    requires forall e, j :: e in s.reqs && Has(e, j) && HoldOf(e, j).None? ==> Spares(s, e, j, n)
    ensures Unneeded(s, n)
  {
    forall e, j | e in s.reqs && Has(e, j) ensures Spares(s, e, j, n) {
      if HoldOf(e, j).Some? {
        var i :| 0 <= i < |s.reqs| && s.reqs[i] == e;
        SlotFacts(s, multiset{}, i, j);
        HeldLocks(s.lock, s.reqs, i, j);
      }
    }
  }

  // ----- a new node ---------------------------------------------------------

  lemma NobodyKnows(s: State, n: Id, e: Elem, j: Side)
    requires TreeInv(s) && n !in s.lock && ElemOk(s, e) && Has(e, j)
    ensures ReqOf(e, j).dir != n
    ensures HoldOf(e, j).Some? ==> n !in HoldOf(e, j).value.chain && HoldOf(e, j).value.wnode != Some(n)
  {
    assert SlotOk(s, e, j);
    if HoldOf(e, j).Some? {
      OffChain(s.tree, HoldOf(e, j).value.dir, HoldOf(e, j).value.chain, n);
    }
  }

  lemma NewLock(s: State, n: Id)
    requires Core(s, multiset{}) && n !in s.lock
    ensures LockInv(s.lock[n := 0], s.reqs)
  {
    if Sum(Readers(n), s.reqs) > 0 {
      var i := SumWitness(Readers(n), s.reqs);
      var e := s.reqs[i];
      var j: Side :| Has(e, j) && HoldOf(e, j).Some? && n in HoldOf(e, j).value.chain;
      NobodyKnows(s, n, e, j);
    }
    if Sum(Writers(n), s.reqs) > 0 {
      var i := SumWitness(Writers(n), s.reqs);
      var e := s.reqs[i];
      var j: Side :| Has(e, j) && HoldOf(e, j).Some? && HoldOf(e, j).value.wnode == Some(n);
      NobodyKnows(s, n, e, j);
    }
    var lock' := s.lock[n := 0];
    forall m | m in lock' ensures LockOk(lock', s.reqs, m) {
      if m != n {
        assert LockOk(s.lock, s.reqs, m);
      }
    }
  }

  lemma TopLive(s: State, d: Id)
    requires TreeInv(s) && d in s.lock
    ensures Top(s.tree, d, ChainOf(s.tree, d)) in s.lock
  {
    TopLiveChain(s, d, ChainOf(s.tree, d));
  }

  lemma {:induction false} TopLiveChain(s: State, d: Id, p: seq<Id>)
    requires TreeInv(s) && d in s.lock && Chain(s.tree, d, p)
    ensures Top(s.tree, d, p) in s.lock
    decreases |p|
  {
    if p != [] {
      TopLiveChain(s, s.tree[d].parent, p[1..]);
    }
  }

  lemma NewGone(s: State, n: Id)
    requires Core(s, multiset{}) && n !in s.lock
    ensures GoneOk(s, {n})
  {
    forall e | e in s.reqs && e.Path? && e.failed ensures Gone(s.tree, e, {n}) {
      assert ElemOk(s, e) && Gone(s.tree, e, {});
      var j :| Has(e, j) && GoneSide(s.tree, ReqOf(e, j).dir, {});
      assert SlotOk(s, e, j);
      TopLive(s, ReqOf(e, j).dir);
      assert GoneSide(s.tree, ReqOf(e, j).dir, {n});
    }
  }

  lemma NoChildren(s: State, n: Id)
    requires TreeInv(s) && n !in s.lock
    ensures Children(s.tree, n) == {}
  {
  }

  /** Waiting forgets concern live nodes. */
  lemma NoWaits(s: State, n: Id)
    requires Core(s, multiset{}) && n !in s.lock
    ensures Sum(Waits(n), s.reqs) == 0
  {
    forall i | 0 <= i < |s.reqs| ensures Weight(Waits(n), s.reqs[i]) == 0 {
      assert ElemOk(s, s.reqs[i]);
    }
    if Sum(Waits(n), s.reqs) > 0 {
      var i := SumWitness(Waits(n), s.reqs);
    }
  }

  lemma AllocateRefs(s: State, n: Id)
    requires TreeInv(s) && RefInv(s, multiset{}) && n !in s.lock
    ensures TreeInv(Allocate(s, n)) && RefInv(Allocate(s, n), multiset{})
  {
    var u := Allocate(s, n);
    NoChildren(s, n);
    forall m | m in u.lock ensures RefOk(u, multiset{}, m) {
      if m != n {
        assert RefOk(s, multiset{}, m);
      }
    }
  }

  lemma AllocateElem(s: State, n: Id, e: Elem)
    requires TreeInv(s) && n !in s.lock && ElemOk(s, e)
    ensures ElemOk(Allocate(s, n), e)
  {
    var u := Allocate(s, n);
    if e.Path? {
      assert SlotOk(s, e, First) && SlotOk(u, e, First);
      if Has(e, Second) {
        assert SlotOk(s, e, Second) && SlotOk(u, e, Second);
      }
    }
  }

  lemma AllocateCore(s: State, n: Id)
    requires Core(s, multiset{}) && n !in s.lock
    ensures Core(Allocate(s, n), multiset{}) && GoneOk(Allocate(s, n), {n})
  {
    var u := Allocate(s, n);
    AllocateRefs(s, n);
    NewLock(s, n);
    NewGone(s, n);
    NoWaits(s, n);
    forall e | e in u.reqs ensures ElemOk(u, e) {
      assert ElemOk(s, e);
      AllocateElem(s, n, e);
    }
  }

  lemma WelcomeNew(s: State, n: Id, l: Link)
    requires Core(s, multiset{}) && n !in s.lock && Sum(Changing(l), s.reqs) == 0
    ensures Welcome(s, n, l)
  {
    forall e | e in s.reqs ensures Weight(Changing(l), e) == 0 {
      var k :| 0 <= k < |s.reqs| && s.reqs[k] == e;
      SumOne(Changing(l), s.reqs, k);
    }
    forall e, j | e in s.reqs && Has(e, j) && HoldOf(e, j).Some? ensures HoldOf(e, j).value.wnode != Some(n) {
      NobodyKnows(s, n, e, j);
    }
  }

  /** find_node keeps the invariant as long as nobody is changing the entry it creates. */
  lemma FindCore(s: State, l: Link, n: Id) returns (u: State, x: Id)
    requires Core(s, multiset{}) && l.parent in s.lock && n !in s.lock
    requires Lookup(s.tree, l).None? ==> Sum(Changing(l), s.reqs) == 0
    ensures u == FindNode(s, l, n) && Core(u, multiset{}) && u.reqs == s.reqs
    ensures x in u.tree && u.tree[x] == l && u.nlookup[x] >= 1
  {
    match Lookup(s.tree, l) {
      case Some(y) =>
        x := y;
        IncCore(s, x);
        u := IncLookup(s, x);
      case None =>
        AllocateCore(s, n);
        TopLive(s, l.parent);
        WelcomeNew(s, n, l);
        x := n;
        u := HashCore(Allocate(s, n), n, l, {n});
    }
  }
}
