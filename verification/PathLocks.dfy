/**
 Locking and unlocking a path keep the invariant, whoever does it and whatever
 the outcome.
 */
module PathLocks {
  import opened Basics
  import opened Forest
  import opened TreeLocks
  import opened Requests
  import opened PathState

  /** Granting a path adds exactly its holder to every count. */
  lemma SlotSums(q: seq<Elem>, i: nat, j: Side, h: Hold, n: Id)
    requires i < |q| && Has(q[i], j) && HoldOf(q[i], j).None?
    ensures var q' := q[i := WithHold(q[i], j, Some(h))];
      && Sum(Readers(n), q') == Sum(Readers(n), q) + Bit(n in h.chain)
      && Sum(Writers(n), q') == Sum(Writers(n), q) + Bit(h.wnode == Some(n))
  {
    var e := WithHold(q[i], j, Some(h));
    SumUpdate(Readers(n), q, i, e);
    SumUpdate(Writers(n), q, i, e);
  }

  lemma LockTake(lock: Locks, q: seq<Elem>, i: nat, j: Side, h: Hold)
    requires LockInv(lock, q) && Sum(Slots, q) < INT_MAX
    requires i < |q| && Has(q[i], j) && HoldOf(q[i], j).None?
    requires forall n :: n in h.chain ==> n in lock && lock[n] >= 0 && h.wnode != Some(n)
    requires h.wnode.Some? && h.wnode.value in lock ==> lock[h.wnode.value] == 0
    ensures LockInv(Take(lock, h.chain, h.wnode), q[i := WithHold(q[i], j, Some(h))])
  {
    var l' := Take(lock, h.chain, h.wnode);
    var q' := q[i := WithHold(q[i], j, Some(h))];
    forall n | n in l' ensures LockOk(l', q', n) {
      SlotSums(q, i, j, h, n);
      ReadersBounded(q, n);
      assert LockOk(lock, q, n);
    }
  }

  /** Releasing a path removes exactly its holder; a wait mark goes with the last reader. */
  lemma LockDrop(lock: Locks, q: seq<Elem>, i: nat, j: Side)
    requires LockInv(lock, q) && Sum(Slots, q) < INT_MAX
    requires i < |q| && Has(q[i], j) && HoldOf(q[i], j).Some?
    ensures var h := HoldOf(q[i], j).value;
      LockInv(Release(lock, h.chain, h.wnode), q[i := WithHold(q[i], j, None)])
  {
    var h := HoldOf(q[i], j).value;
    var l' := Release(lock, h.chain, h.wnode);
    var q' := q[i := WithHold(q[i], j, None)];
    assert q'[i := WithHold(q'[i], j, Some(h))] == q;
    forall n | n in l' ensures LockOk(l', q', n) {
      SlotSums(q', i, j, h, n);
      ReadersBounded(q, n);
      assert LockOk(lock, q, n);
      DropEncodes(lock[n], Sum(Readers(n), q'), Sum(Writers(n), q'), n in h.chain, h.wnode == Some(n));
    }
  }

  lemma DropEncodes(v: int, r: nat, w: nat, reader: bool, writer: bool)
    requires Encodes(v, r + Bit(reader), w + Bit(writer)) && r + Bit(reader) < INT_MAX
    ensures Encodes(if writer then 0 else if reader then Drop(v) else v, r, w)
  {
  }

  /** Other treelocks and other counts change nothing. */
  lemma LockSame(lock: Locks, q: seq<Elem>, lock': Locks, q': seq<Elem>)
    requires LockInv(lock, q) && forall n :: n in lock' ==> n in lock && lock'[n] == lock[n]
    requires forall m: Measure :: m.Readers? || m.Writers? ==> Sum(m, q') == Sum(m, q)
    ensures LockInv(lock', q')
  {
    forall n | n in lock' ensures LockOk(lock', q', n) {
      assert LockOk(lock, q, n);
    }
  }

  /** Marking a waiting writer changes no holder count. */
  lemma LockMark(lock: Locks, q: seq<Elem>, w: Id)
    requires LockInv(lock, q) && w in lock && Sum(Slots, q) < INT_MAX
    ensures LockInv(Mark(lock, w), q)
  {
    ReadersBounded(q, w);
    forall n | n in lock ensures LockOk(Mark(lock, w), q, n) {
      assert LockOk(lock, q, n);
    }
  }

  /** The assertions in unlock_path hold for every granted path. */
  lemma HeldLocks(lock: Locks, q: seq<Elem>, i: nat, j: Side)
    requires LockInv(lock, q) && Sum(Slots, q) < INT_MAX
    requires i < |q| && Has(q[i], j) && HoldOf(q[i], j).Some?
    ensures var h := HoldOf(q[i], j).value;
      && (forall n :: n in h.chain && n in lock ==> lock[n] > 0 || TREELOCK_WAIT_OFFSET < lock[n] < TREELOCK_WRITE)
      && (h.wnode.Some? && h.wnode.value in lock ==> lock[h.wnode.value] == TREELOCK_WRITE)
      && (forall n :: n in h.chain && n in lock ==> h.wnode != Some(n))
  {
    var h := HoldOf(q[i], j).value;
    forall n | n in lock
      ensures n in h.chain ==>
        (lock[n] > 0 || TREELOCK_WAIT_OFFSET < lock[n] < TREELOCK_WRITE) && h.wnode != Some(n)
      ensures h.wnode == Some(n) ==> lock[n] == TREELOCK_WRITE
    {
      SumOne(Readers(n), q, i);
      SumOne(Writers(n), q, i);
      ReadersBounded(q, n);
      assert LockOk(lock, q, n);
    }
  }

  /** The counts that do not depend on holds. */
  lemma CountsKept(s: State, u: State, i: nat)
    requires PathAt(s, i) && OnlyLocks(s, u, i) && CountInv(s)
    ensures CountInv(u)
  {
    forall m: Measure | m.Changing? || m.Slots? || m.Waits?
      ensures Sum(m, u.reqs) == Sum(m, s.reqs)
    {
      SumUpdate(m, s.reqs, i, u.reqs[i]);
    }
  }

  lemma PathAtOk(s: State, i: nat)
    requires i < |s.reqs| && s.reqs[i].Path? && ElemOk(s, s.reqs[i])
    ensures PathAt(s, i)
  {
    assert SlotOk(s, s.reqs[i], First);
    if s.reqs[i].r2.Some? {
      assert SlotOk(s, s.reqs[i], Second);
    }
  }

  lemma RefsKept(s: State, u: State, x: multiset<Id>)
    requires TreeInv(s) && RefInv(s, x)
    requires u == s.(lock := u.lock, reqs := u.reqs) && u.lock.Keys == s.lock.Keys
    ensures TreeInv(u) && RefInv(u, x)
  {
    forall n | n in u.lock ensures RefOk(u, x, n) {
      assert n in s.lock && RefOk(s, x, n);
    }
  }

  lemma ElemsKept(s: State, u: State, i: nat)
    requires PathAt(s, i) && OnlyLocks(s, u, i)
    requires forall e :: e in s.reqs ==> ElemOk(s, e)
    requires ElemOk(u, u.reqs[i])
    ensures forall e :: e in u.reqs ==> ElemOk(u, e)
  {
    forall e | e in u.reqs ensures ElemOk(u, e) {
      var k :| 0 <= k < |u.reqs| && u.reqs[k] == e;
      if k != i {
        assert e == s.reqs[k] && ElemOk(s, e);
        ElemOkSame(s, u, e);
      }
    }
  }

  lemma GoneKept(s: State, u: State, i: nat)
    requires PathAt(s, i) && OnlyLocks(s, u, i) && Acyclic(s.tree) && GoneOk(s, {})
    ensures GoneOk(u, {})
  {
    forall e | e in u.reqs && e.Path? && e.failed ensures Gone(u.tree, e, {}) {
      var k :| 0 <= k < |u.reqs| && u.reqs[k] == e;
      assert Gone(s.tree, s.reqs[k], {});
      if k == i {
        GoneSame(s.tree, s.reqs[i], e);
      }
    }
  }

  /** Requests other than `i` do not notice. */
  lemma OthersKept(s: State, u: State, i: nat, x: multiset<Id>)
    requires Core(s, x) && PathAt(s, i) && OnlyLocks(s, u, i)
    requires ElemOk(u, u.reqs[i])
    requires LockInv(u.lock, u.reqs)
    ensures Core(u, x)
  {
    CountsKept(s, u, i);
    RefsKept(s, u, x);
    ElemsKept(s, u, i);
    GoneKept(s, u, i);
  }

  lemma GoneSame(t: Tree, e: Elem, d: Elem)
    requires Acyclic(t) && e.Path? && d.Path? && d.r1 == e.r1 && d.r2 == e.r2
    ensures Gone(t, e, {}) ==> Gone(t, d, {})
  {
    if Gone(t, e, {}) {
      var j :| Has(e, j) && GoneSide(t, ReqOf(e, j).dir, {});
      assert Has(d, j) && GoneSide(t, ReqOf(d, j).dir, {});
    }
  }

  lemma ElemOkSame(s: State, u: State, e: Elem)
    requires u == s.(lock := u.lock, reqs := u.reqs) && u.lock.Keys == s.lock.Keys
    requires ElemOk(s, e)
    ensures ElemOk(u, e)
  {
  }

  lemma SlotFacts(s: State, x: multiset<Id>, i: nat, j: Side)
    requires Core(s, x) && i < |s.reqs| && Has(s.reqs[i], j)
    ensures ElemOk(s, s.reqs[i]) && SlotOk(s, s.reqs[i], j)
  {
  }

  /** An attempt keeps the invariant; when it fails it changes no holder count. */
  lemma TrySlotCore(s: State, i: nat, j: Side, x: multiset<Id>)
    requires Core(s, x) && PathAt(s, i) && SlotAt(s, i, j) && HoldOf(s.reqs[i], j).None?
    ensures Core(TrySlot(s, i, j).state, x)
    ensures TrySlot(s, i, j).err != Ok ==> TrySlot(s, i, j).state.reqs == s.reqs
    ensures TrySlot(s, i, j).err == Ok ==> HoldOf(TrySlot(s, i, j).state.reqs[i], j).Some?
    ensures TrySlot(s, i, j).err == ENOENT ==> GoneSide(s.tree, ReqOf(s.reqs[i], j).dir, {})
  {
    match Try(s.tree, s.lock, ReqOf(s.reqs[i], j)) {
      case Granted(l, h) => GrantedCore(s, i, j, x);
      case Again(l) => AgainCore(s, i, j, x);
      case NoEnt =>
    }
  }

  lemma GrantedCore(s: State, i: nat, j: Side, x: multiset<Id>)
    requires Core(s, x) && PathAt(s, i) && SlotAt(s, i, j) && HoldOf(s.reqs[i], j).None?
    requires Try(s.tree, s.lock, ReqOf(s.reqs[i], j)).Granted?
    ensures Core(TrySlot(s, i, j).state, x)
  {
    var u := TrySlot(s, i, j).state;
    GrantedLocks(s, u, i, j);
    assert ElemOk(s, s.reqs[i]) by { SlotFacts(s, x, i, j); }
    GrantedElem(s, u, i, j);
    OthersKept(s, u, i, x);
  }

  lemma GrantedLocks(s: State, u: State, i: nat, j: Side)
    requires Covers(s.tree, s.lock) && LockInv(s.lock, s.reqs) && Sum(Slots, s.reqs) < INT_MAX
    requires PathAt(s, i) && SlotAt(s, i, j) && HoldOf(s.reqs[i], j).None?
    requires TrySlot(s, i, j) == Tried(u, Ok)
    ensures LockInv(u.lock, u.reqs)
  {
    var a := Try(s.tree, s.lock, ReqOf(s.reqs[i], j));
    GrantedMeans(s.tree, s.lock, ReqOf(s.reqs[i], j));
    LockTake(s.lock, s.reqs, i, j, a.hold);
    assert u.lock == a.lock && u.reqs == s.reqs[i := WithHold(s.reqs[i], j, Some(a.hold))];
  }

  lemma AgainLocks(t: Tree, lock: Locks, q: seq<Elem>, r: Req)
    requires r.Valid() && Covers(t, lock) && LockInv(lock, q) && Sum(Slots, q) < INT_MAX
    requires Try(t, lock, r).Again?
    ensures LockInv(Try(t, lock, r).lock, q) && Try(t, lock, r).lock.Keys == lock.Keys
  {
    if Target(t, r).Some? {
      LockMark(lock, q, Target(t, r).value);
    }
  }

  lemma AgainCore(s: State, i: nat, j: Side, x: multiset<Id>)
    requires Core(s, x) && PathAt(s, i) && SlotAt(s, i, j) && HoldOf(s.reqs[i], j).None?
    requires Try(s.tree, s.lock, ReqOf(s.reqs[i], j)).Again?
    ensures Core(TrySlot(s, i, j).state, x)
  {
    AgainLocks(s.tree, s.lock, s.reqs, ReqOf(s.reqs[i], j));
    LocksOnly(s, Try(s.tree, s.lock, ReqOf(s.reqs[i], j)).lock, i, x);
  }

  lemma LocksOnly(s: State, lock: Locks, i: nat, x: multiset<Id>)
    requires Core(s, x) && PathAt(s, i)
    requires LockInv(lock, s.reqs) && lock.Keys == s.lock.Keys
    ensures Core(s.(lock := lock), x)
  {
    SlotFacts(s, x, i, First);
    ElemOkSame(s, s.(lock := lock), s.reqs[i]);
    OthersKept(s, s.(lock := lock), i, x);
  }

  lemma GrantedElem(s: State, u: State, i: nat, j: Side)
    requires Covers(s.tree, s.lock) && Unique(s.tree) && PathAt(s, i) && SlotAt(s, i, j)
    requires ElemOk(s, s.reqs[i]) && HoldOf(s.reqs[i], j).None?
    requires TrySlot(s, i, j) == Tried(u, Ok)
    ensures ElemOk(u, u.reqs[i])
  {
    var e := s.reqs[i];
    assert SlotOk(s, e, j);
    GrantedMeans(s.tree, s.lock, ReqOf(e, j));
    var h := Try(s.tree, s.lock, ReqOf(e, j)).hold;
    assert HoldOk(u, u.reqs[i], ReqOf(e, j), h);
    var k := if j.First? then Second else First;
    if Has(e, k) {
      assert SlotOk(s, e, k);
      assert SlotOk(u, u.reqs[i], k);
    }
  }

  lemma DroppedElem(s: State, u: State, i: nat, j: Side)
    requires PathAt(s, i) && SlotAt(s, i, j) && OnlyLocks(s, u, i)
    requires ElemOk(s, s.reqs[i]) && !s.reqs[i].committed
    requires HoldOf(s.reqs[i], j).Some? && u.reqs[i] == WithHold(s.reqs[i], j, None)
    ensures ElemOk(u, u.reqs[i])
  {
    var e := s.reqs[i];
    assert SlotOk(s, e, j);
    assert SlotOk(u, u.reqs[i], j);
    var k := if j.First? then Second else First;
    if Has(e, k) {
      assert SlotOk(s, e, k);
      assert SlotOk(u, u.reqs[i], k);
    }
  }

  /** Giving one path of an uncommitted request back keeps the invariant. */
  lemma DropSlotCore(s: State, i: nat, j: Side, x: multiset<Id>)
    requires Core(s, x) && PathAt(s, i) && SlotAt(s, i, j) && !s.reqs[i].committed
    ensures Core(DropSlot(s, i, j), x)
    ensures HoldOf(DropSlot(s, i, j).reqs[i], j).None?
  {
    var u := DropSlot(s, i, j);
    if HoldOf(s.reqs[i], j).Some? {
      assert LockInv(u.lock, u.reqs) by {
        LockDrop(s.lock, s.reqs, i, j);
      }
      assert ElemOk(u, u.reqs[i]) by {
        SlotFacts(s, x, i, j);
        DroppedElem(s, u, i, j);
      }
      OthersKept(s, u, i, x);
    }
  }

  lemma UnlockElemCore(s: State, i: nat, x: multiset<Id>)
    requires Core(s, x) && PathAt(s, i) && !s.reqs[i].committed
    ensures Core(UnlockElem(s, i), x) && UnlockElem(s, i).reqs[i].Empty()
  {
    DropSlotCore(s, i, First, x);
    if s.reqs[i].r2.Some? {
      DropSlotCore(DropSlot(s, i, First), i, Second, x);
    } else {
      SlotFacts(s, x, i, First);
    }
  }

  lemma ReaderAttached(s: State, x: multiset<Id>, n: Id)
    requires Core(s, x) && Sum(Readers(n), s.reqs) > 0
    ensures n in s.tree && Attached(s.tree, n)
  {
    var i := SumWitness(Readers(n), s.reqs);
    var e := s.reqs[i];
    var j: Side :| Has(e, j) && HoldOf(e, j).Some? && n in HoldOf(e, j).value.chain;
    SlotFacts(s, x, i, j);
    var h := HoldOf(e, j).value;
    var k: nat :| k < |h.chain| && h.chain[k] == n;
    ChainSuffix(s.tree, h.dir, h.chain, k);
    ChainMember(s.tree, h.dir, h.chain, n, ChainOf(s.tree, n));
  }

  lemma DirAttached(s: State, x: multiset<Id>, i: nat, j: Side)
    requires Core(s, x) && i < |s.reqs| && Has(s.reqs[i], j) && HoldOf(s.reqs[i], j).Some?
    ensures Attached(s.tree, HoldOf(s.reqs[i], j).value.dir)
  {
    SlotFacts(s, x, i, j);
    var h := HoldOf(s.reqs[i], j).value;
    ChainUnique(s.tree, h.dir, h.chain, ChainOf(s.tree, h.dir));
  }

  lemma ParentAttached(t: Tree, n: Id)
    requires Acyclic(t) && n in t
    ensures Attached(t, t[n].parent) <==> Attached(t, n)
  {
    var p := ChainOf(t, n);
    ChainUnique(t, t[n].parent, p[1..], ChainOf(t, t[n].parent));
  }

  lemma WriterAttached(s: State, x: multiset<Id>, n: Id)
    requires Core(s, x) && Sum(Writers(n), s.reqs) > 0 && n in s.tree
    ensures Attached(s.tree, n)
  {
    var i := SumWitness(Writers(n), s.reqs);
    var e := s.reqs[i];
    var j: Side :| Has(e, j) && HoldOf(e, j).Some? && HoldOf(e, j).value.wnode == Some(n);
    SlotFacts(s, x, i, j);
    var k := HolderOf(e, j, s.tree[n].parent);
    DirAttached(s, x, i, k);
    ParentAttached(s.tree, n);
  }

  lemma HolderOf(e: Elem, j: Side, d: Id) returns (k: Side)
    requires Has(e, j) && (e.r2.None? ==> e.h2.None?)
    requires Under(e, d) || (HoldOf(e, j).Some? && HoldOf(e, j).value.dir == d)
    ensures Has(e, k) && HoldOf(e, k).Some? && HoldOf(e, k).value.dir == d
  {
    k := if e.h1.Some? && e.h1.value.dir == d then First else Second;
  }

  /** A node below an unlinked one is not locked by anybody. */
  lemma DetachedUnlocked(s: State, x: multiset<Id>, n: Id)
    requires Core(s, x) && n in s.tree && !Attached(s.tree, n)
    ensures s.lock[n] == 0
  {
    if Sum(Readers(n), s.reqs) > 0 {
      ReaderAttached(s, x, n);
    } else if Sum(Writers(n), s.reqs) > 0 {
      WriterAttached(s, x, n);
    } else {
      assert LockOk(s.lock, s.reqs, n);
    }
  }

  lemma GoneChainUnlocked(s: State, x: multiset<Id>, d: Id, n: Id)
    requires Core(s, x) && !Attached(s.tree, d) && n in ChainOf(s.tree, d)
    ensures n in s.lock && s.lock[n] == 0
  {
    var p := ChainOf(s.tree, d);
    var k: nat :| k < |p| && p[k] == n;
    ChainSuffix(s.tree, d, p, k);
    ChainMember(s.tree, d, p, n, ChainOf(s.tree, n));
    DetachedUnlocked(s, x, n);
  }

  lemma TryNoEnt(t: Tree, lock: Locks, r: Req)
    requires r.Valid() && Covers(t, lock) && Top(t, r.dir, ChainOf(t, r.dir)) != ROOT
    requires forall n :: n in ChainOf(t, r.dir) && n in lock ==> lock[n] == 0
    requires Target(t, r).Some? ==> lock[Target(t, r).value] == 0
    ensures Try(t, lock, r) == NoEnt
  {
  }

  lemma GoneEmpty(s: State, x: multiset<Id>, i: nat, j: Side)
    requires Core(s, x) && SlotAt(s, i, j) && !Attached(s.tree, ReqOf(s.reqs[i], j).dir)
    ensures HoldOf(s.reqs[i], j).None?
  {
    if HoldOf(s.reqs[i], j).Some? {
      SlotFacts(s, x, i, j);
      DirAttached(s, x, i, j);
    }
  }

  lemma GoneTarget(s: State, x: multiset<Id>, r: Req)
    requires Core(s, x) && r.Valid() && !Attached(s.tree, r.dir) && Target(s.tree, r).Some?
    ensures s.lock[Target(s.tree, r).value] == 0
  {
    var w := Target(s.tree, r).value;
    ParentAttached(s.tree, w);
    DetachedUnlocked(s, x, w);
  }

  /** A path that is gone is reported ENOENT on every attempt. */
  lemma GoneNoEnt(s: State, x: multiset<Id>, i: nat, j: Side)
    requires Core(s, x) && PathAt(s, i) && SlotAt(s, i, j)
    requires !Attached(s.tree, ReqOf(s.reqs[i], j).dir)
    ensures TrySlot(s, i, j) == Tried(s, ENOENT)
    ensures HoldOf(s.reqs[i], j).None?
  {
    var r := ReqOf(s.reqs[i], j);
    GoneEmpty(s, x, i, j);
    forall n | n in ChainOf(s.tree, r.dir) && n in s.lock ensures s.lock[n] == 0 {
      GoneChainUnlocked(s, x, r.dir, n);
    }
    if Target(s.tree, r).Some? {
      GoneTarget(s, x, r);
    }
    TryNoEnt(s.tree, s.lock, r);
  }
}
