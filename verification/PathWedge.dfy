/**
 Why a half-locked head can wait for ever: a wait mark on a directory that it
 has read-locked for its first path and needs again for its second one. The
 mark stays as long as the head reads the directory, and nobody can move the
 second path away from below it, since that would take a path through the
 directory too.
 */
module PathWedge {
  import opened Basics
  import opened Forest
  import opened TreeLocks
  import opened Requests
  import opened PathState
  import opened PathLocks
  import opened PathQueue
  import opened PathWake
  import opened PathOps
  import opened PathArrivals
  import opened PathRuns
  import opened PathLinks

  /** `p` lists the nodes from `d` up to, but not including, `m`. */
  ghost predicate Stem(t: Tree, d: Id, m: Id, p: seq<Id>)
    decreases |p|
  {
    if d == m then p == [] else p != [] && p[0] == d && d in t && Stem(t, t[d].parent, m, p[1..])
  }

  /** `m` is marked or written, and nobody writes what hangs on the stem below it. */
  ghost predicate Jam(s: State, d: Id, m: Id, p: seq<Id>) {
    && m in s.tree && m in s.lock && s.lock[m] < 0 && Stem(s.tree, d, m, p)
    && (forall x :: x in p ==> Sum(Writers(x), s.reqs) == 0)
  }

  function Other(j: Side): Side { if j.First? then Second else First }

  /** Half locked: `m` is read-locked for the one path, and the path of side `j` is still wanted. */
  predicate Halved(e: Elem, j: Side, m: Id) {
    && Has(e, Second) && e.queued && !e.done && HoldOf(e, j).None?
    && HoldOf(e, Other(j)).Some? && m in HoldOf(e, Other(j)).value.chain
  }

  /** A mark on a directory of the locked path is in the way of the other one. */
  ghost predicate Wedged(s: State, e: Elem, j: Side, m: Id, p: seq<Id>) {
    Halved(e, j, m) && e in s.reqs && Jam(s, ReqOf(e, j).dir, m, p)
  }

  // ----- the stem -----------------------------------------------------------

  lemma {:induction false} StemMeets(t: Tree, d: Id, m: Id, p: seq<Id>, c: seq<Id>)
    requires Stem(t, d, m, p) && m in t && Chain(t, d, c)
    ensures m in c
    decreases |p|
  {
    if p != [] {
      StemMeets(t, t[d].parent, m, p[1..], c[1..]);
    }
  }

  /** Whoever hangs a node of the stem somewhere else has to walk through `m`. */
  lemma {:induction false} StemBelow(t: Tree, d: Id, m: Id, p: seq<Id>, x: Id, c: seq<Id>)
    requires Stem(t, d, m, p) && m in t && x in p
    requires x in t ==> Chain(t, t[x].parent, c)
    ensures x in t && m in c
    decreases |p|
  {
    if x == d {
      StemMeets(t, t[d].parent, m, p[1..], c);
    } else {
      StemBelow(t, t[d].parent, m, p[1..], x, c);
    }
  }

  // ----- treelocks ----------------------------------------------------------

  lemma JamTry(s: State, i: nat, j: Side, d: Id, m: Id, p: seq<Id>)
    requires Covers(s.tree, s.lock) && SlotAt(s, i, j) && PathAt(s, i) && HoldOf(s.reqs[i], j).None? && Jam(s, d, m, p)
    ensures Jam(TrySlot(s, i, j).state, d, m, p)
  {
    var r := ReqOf(s.reqs[i], j);
    var a := Try(s.tree, s.lock, r);
    if a.Granted? {
      GrantedMeans(s.tree, s.lock, r);
      var h := a.hold;
      forall x | x in p ensures Sum(Writers(x), TrySlot(s, i, j).state.reqs) == 0 {
        SlotSums(s.reqs, i, j, h, x);
        if h.wnode == Some(x) {
          StemBelow(s.tree, d, m, p, x, h.chain);
        }
      }
    }
  }

  lemma DroppedWriters(q: seq<Elem>, i: nat, j: Side, x: Id)
    requires i < |q| && Has(q[i], j) && Sum(Writers(x), q) == 0
    ensures Sum(Writers(x), q[i := WithHold(q[i], j, None)]) == 0
  {
    SumUpdate(Writers(x), q, i, WithHold(q[i], j, None));
  }

  /** A reader other than the one at `k` leaves: the mark stays. */
  lemma JamDrop(s: State, i: nat, j: Side, d: Id, m: Id, p: seq<Id>, k: nat)
    requires LockInv(s.lock, s.reqs) && Sum(Slots, s.reqs) < INT_MAX && SlotAt(s, i, j) && PathAt(s, i) && Jam(s, d, m, p)
    requires k < |s.reqs| && k != i && Weight(Readers(m), s.reqs[k]) > 0
    ensures Jam(DropSlot(s, i, j), d, m, p)
  {
    if HoldOf(s.reqs[i], j).Some? {
      assert LockOk(s.lock, s.reqs, m);
      SumTwo(Readers(m), s.reqs, i, k);
      SumOne(Writers(m), s.reqs, i);
      ReadersBounded(s.reqs, m);
      forall x | x in p ensures Sum(Writers(x), DropSlot(s, i, j).reqs) == 0 {
        DroppedWriters(s.reqs, i, j, x);
      }
    }
  }

  // ----- turns --------------------------------------------------------------

  lemma JamTryIfNeeded(s: State, i: nat, j: Side, d: Id, m: Id, p: seq<Id>)
    requires Core(s, multiset{}) && PathAt(s, i) && Jam(s, d, m, p)
    ensures Jam(TryIfNeeded(s, i, j).state, d, m, p)
  {
    if Has(s.reqs[i], j) && HoldOf(s.reqs[i], j).None? {
      JamTry(s, i, j, d, m, p);
    }
  }

  lemma JamUnlock(s: State, i: nat, d: Id, m: Id, p: seq<Id>, k: nat)
    requires LockInv(s.lock, s.reqs) && Sum(Slots, s.reqs) < INT_MAX && PathAt(s, i) && Jam(s, d, m, p)
    requires k < |s.reqs| && k != i && Weight(Readers(m), s.reqs[k]) > 0
    ensures Jam(UnlockElem(s, i), d, m, p)
  {
    JamDrop(s, i, First, d, m, p, k);
    var u := DropSlot(s, i, First);
    if s.reqs[i].h1.Some? {
      LockDrop(s.lock, s.reqs, i, First);
      SumUpdate(Slots, s.reqs, i, u.reqs[i]);
    }
    if u.reqs[i].r2.Some? {
      JamDrop(u, i, Second, d, m, p, k);
    }
  }

  /** Somebody else's turn. */
  lemma JamTurn(s: State, i: nat, d: Id, m: Id, p: seq<Id>, k: nat)
    requires Core(s, multiset{}) && i < |s.reqs| && (s.reqs[i].Path? ==> PathAt(s, i)) && Jam(s, d, m, p)
    requires k < |s.reqs| && k != i && Weight(Readers(m), s.reqs[k]) > 0
    ensures Jam(WakeElem(s, i), d, m, p)
  {
    if s.reqs[i].Path? && s.reqs[i].queued {
      var a := TryIfNeeded(s, i, First);
      TryIfNeededCore(s, i, First);
      JamTryIfNeeded(s, i, First, d, m, p);
      if a.err == ENOENT {
        JamUnlock(a.state, i, d, m, p, k);
        JamFinish(UnlockElem(a.state, i), i, true, d, m, p);
      } else {
        JamSecond(a.state, i, IsHead(s.reqs, i), d, m, p, k);
      }
    }
  }

  lemma JamSecond(s: State, i: nat, head: bool, d: Id, m: Id, p: seq<Id>, k: nat)
    requires Core(s, multiset{}) && PathAt(s, i) && Jam(s, d, m, p)
    requires k < |s.reqs| && k != i && Weight(Readers(m), s.reqs[k]) > 0
    ensures Jam(WakeSecond(s, i, head), d, m, p)
  {
    var b := TryIfNeeded(s, i, Second);
    TryIfNeededCore(s, i, Second);
    JamTryIfNeeded(s, i, Second, d, m, p);
    JamLast(b.state, i, head, d, m, p, k);
  }

  lemma JamLast(s: State, i: nat, head: bool, d: Id, m: Id, p: seq<Id>, k: nat)
    requires Core(s, multiset{}) && PathAt(s, i) && Jam(s, d, m, p)
    requires k < |s.reqs| && k != i && Weight(Readers(m), s.reqs[k]) > 0
    ensures Jam(Fail(s, i), d, m, p) && Jam(WakeLast(s, i, head), d, m, p)
  {
    JamUnlock(s, i, d, m, p, k);
    JamFinish(UnlockElem(s, i), i, true, d, m, p);
    JamFinish(s, i, false, d, m, p);
  }

  lemma JamFinish(s: State, i: nat, failed: bool, d: Id, m: Id, p: seq<Id>)
    requires PathAt(s, i) && Jam(s, d, m, p)
    ensures Jam(Finish(s, i, failed), d, m, p)
  {
    SameSums(s.reqs, i, s.reqs[i].(done := true, failed := failed));
  }

  lemma OwnTry(s: State, e: Elem, j: Side, m: Id, p: seq<Id>, k: nat) returns (u: State)
    requires Covers(s.tree, s.lock) && k < |s.reqs| && s.reqs[k] == e && PathAt(s, k) && Wedged(s, e, j, m, p)
    ensures TrySlot(s, k, j) == Tried(u, EAGAIN) && u == s.(lock := u.lock) && u.lock.Keys == s.lock.Keys
    ensures Jam(u, ReqOf(e, j).dir, m, p)
  {
    var c := ChainOf(s.tree, ReqOf(e, j).dir);
    StemMeets(s.tree, ReqOf(e, j).dir, m, p, c);
    assert Blocked(s.lock, c);
    JamTry(s, k, j, ReqOf(e, j).dir, m, p);
    u := TrySlot(s, k, j).state;
  }

  /** The wedged element's own turn: it keeps what it has and gets nothing. */
  lemma OwnTurn(s: State, e: Elem, j: Side, m: Id, p: seq<Id>, k: nat)
    requires Inv(s) && k < |s.reqs| && s.reqs[k] == e && PathAt(s, k) && Wedged(s, e, j, m, p)
    ensures WakeElem(s, k).reqs == s.reqs && Jam(WakeElem(s, k), ReqOf(e, j).dir, m, p)
  {
    assert ShapeAt(s.reqs, k);
    var u := OwnTry(s, e, j, m, p, k);
    OwnOutcome(s, e, j, k, u);
  }

  lemma OwnOutcome(s: State, e: Elem, j: Side, k: nat, u: State)
    requires Covers(s.tree, s.lock) && PathAt(s, k) && s.reqs[k] == e && e.queued && IsHead(s.reqs, k)
    requires Has(e, Second) && HoldOf(e, j).None? && HoldOf(e, Other(j)).Some?
    requires TrySlot(s, k, j) == Tried(u, EAGAIN) && u == s.(lock := u.lock) && u.lock.Keys == s.lock.Keys
    ensures WakeElem(s, k) == u
  {
    if j.First? {
      assert TryIfNeeded(s, k, First) == Tried(u, EAGAIN);
      assert TryIfNeeded(u, k, Second) == Tried(u, Ok);
    } else {
      assert TryIfNeeded(s, k, First) == Tried(s, Ok);
      assert TryIfNeeded(s, k, Second) == Tried(u, EAGAIN);
    }
  }

  lemma TurnWedged(s: State, n: nat, e: Elem, j: Side, m: Id, p: seq<Id>, k: nat) returns (u: State)
    requires Inv(s) && Ready(s) && n < |s.reqs| && k < |s.reqs| && s.reqs[k] == e && Wedged(s, e, j, m, p)
    ensures u == WakeElem(s, n) && Inv(u) && Ready(u) && |u.reqs| == |s.reqs| && u.reqs[k] == e && Wedged(u, e, j, m, p)
  {
    u := WakeElem(s, n);
    if n == k {
      OwnTurn(s, e, j, m, p, k);
    } else {
      JamTurn(s, n, ReqOf(e, j).dir, m, p, k);
    }
    WakeElemInv(s, n);
    ReadyKept(s, u, n);
    assert u.reqs[k] == e;
  }

  /** A pass over the queue leaves a wedged element wedged. */
  lemma {:induction false} PassWedged(s: State, n: nat, e: Elem, j: Side, m: Id, p: seq<Id>, k: nat) returns (u: State)
    requires Inv(s) && Ready(s) && n <= |s.reqs| && k < |s.reqs| && s.reqs[k] == e && Wedged(s, e, j, m, p)
    ensures u == WakeFrom(s, n) && Wedged(u, e, j, m, p)
    decreases |s.reqs| - n
  {
    if n < |s.reqs| {
      var v := TurnWedged(s, n, e, j, m, p, k);
      u := PassWedged(v, n + 1, e, j, m, p, k);
    } else {
      u := s;
    }
  }

  // ----- steps --------------------------------------------------------------

  lemma {:induction false} StemKept(s: State, u: State, d: Id, m: Id, p: seq<Id>)
    requires TreeInv(u) && Stem(s.tree, d, m, p) && d in u.lock
    requires forall x :: x in p ==> Kept(s, u, x) && Sum(Writers(x), s.reqs) == 0
    ensures Stem(u.tree, d, m, p)
    decreases |p|
  {
    if p != [] {
      assert p[0] in p && forall x :: x in p[1..] ==> x in p;
      StemKept(s, u, s.tree[d].parent, m, p[1..]);
    }
  }

  ghost predicate AllKept(s: State, u: State) {
    forall x :: Kept(s, u, x)
  }

  /** Steps that touch nodes and leave the treelocks alone. */
  lemma JamFrame(s: State, u: State, e: Elem, j: Side, m: Id, p: seq<Id>)
    requires Inv(s) && Inv(u) && Wedged(s, e, j, m, p) && e in u.reqs
    requires AllKept(s, u)
    requires m in s.lock && m in u.lock ==> u.lock[m] == s.lock[m]
    requires forall x :: x in p ==> Sum(Writers(x), u.reqs) == 0
    ensures Wedged(u, e, j, m, p)
  {
    MarkRead(s, e, j, m);
    assert Kept(s, u, m);
    assert ElemOk(u, e) && SlotOk(u, e, j);
    StemKept(s, u, ReqOf(e, j).dir, m, p);
  }

  lemma MarkRead(s: State, e: Elem, j: Side, m: Id)
    requires Inv(s) && Halved(e, j, m) && e in s.reqs && m in s.lock
    ensures Sum(Readers(m), s.reqs) > 0 && Sum(Writers(m), s.reqs) == 0
  {
    var k :| 0 <= k < |s.reqs| && s.reqs[k] == e;
    SumOne(Readers(m), s.reqs, k);
    assert LockOk(s.lock, s.reqs, m);
  }

  lemma JamSet(s: State, i: nat, f: Elem, d: Id, m: Id, p: seq<Id>)
    requires i < |s.reqs| && (forall x :: Weight(Writers(x), f) == Weight(Writers(x), s.reqs[i])) && Jam(s, d, m, p)
    ensures Jam(SetElem(s, i, f), d, m, p)
  {
    forall x | x in p ensures Sum(Writers(x), s.reqs[i := f]) == 0 {
      SumUpdate(Writers(x), s.reqs, i, f);
    }
  }

  lemma JamRemove(s: State, i: nat, d: Id, m: Id, p: seq<Id>)
    requires i < |s.reqs| && Jam(s, d, m, p)
    ensures Jam(Remove(s, i), d, m, p)
  {
    forall x | x in p ensures Sum(Writers(x), Without(s.reqs, i)) == 0 {
      SumRemove(Writers(x), s.reqs, i);
    }
  }

  lemma StillThere(q: seq<Elem>, i: nat, e: Elem)
    requires i < |q| && e in q && e != q[i]
    ensures e in Without(q, i)
  {
    var k :| 0 <= k < |q| && q[k] == e;
    assert Without(q, i)[if k < i then k else k - 1] == e;
  }

  lemma JamTried(s: State, i: nat, j: Side, d: Id, m: Id, p: seq<Id>) returns (b: Tried)
    requires Core(s, multiset{}) && PathAt(s, i) && SlotAt(s, i, j) && HoldOf(s.reqs[i], j).None? && Jam(s, d, m, p)
    ensures b == TrySlot(s, i, j) && Core(b.state, multiset{}) && Jam(b.state, d, m, p)
  {
    b := TrySlot(s, i, j);
    JamTry(s, i, j, d, m, p);
    TrySlotCore(s, i, j, multiset{});
  }

  lemma JamBoth(s: State, i: nat, d: Id, m: Id, p: seq<Id>, k: nat)
    requires Core(s, multiset{}) && PathAt(s, i) && s.reqs[i].Empty() && Jam(s, d, m, p)
    requires k < |s.reqs| && k != i && Weight(Readers(m), s.reqs[k]) > 0
    ensures Jam(BothTried(s, i).state, d, m, p)
  {
    var a := JamTried(s, i, First, d, m, p);
    if a.err == Ok && s.reqs[i].r2.Some? {
      var b := JamTried(a.state, i, Second, d, m, p);
      JamDrop(b.state, i, First, d, m, p, k);
    }
  }

  lemma JamAppend(s: State, f: Elem, d: Id, m: Id, p: seq<Id>)
    requires f.Empty() && Jam(s, d, m, p)
    ensures Jam(Append(s, f), d, m, p)
  {
    forall x | x in p ensures Sum(Writers(x), s.reqs + [f]) == 0 {
      SumAppend(Writers(x), s.reqs, f);
    }
  }

  lemma WedgedGet(s: State, r1: Req, r2: Option<Req>, e: Elem, j: Side, m: Id, p: seq<Id>)
    requires Inv(s) && Allowed(s, Get(r1, r2)) && Wedged(s, e, j, m, p)
    ensures Wedged(GetPath(s, r1, r2), e, j, m, p)
  {
    var i, d := |s.reqs|, ReqOf(e, j).dir;
    var s0 := Append(s, NewElem(r1, r2));
    var k :| 0 <= k < |s.reqs| && s.reqs[k] == e;
    NewArriving(s, r1, r2);
    JamAppend(s, NewElem(r1, r2), d, m, p);
    JamBoth(s0, i, d, m, p, k);
    WedgedSettled(BothTried(s0, i), i, e, j, m, p, k);
  }

  lemma WedgedSettled(a: Tried, i: nat, e: Elem, j: Side, m: Id, p: seq<Id>, k: nat)
    requires PathAt(a.state, i) && k < |a.state.reqs| && k != i && a.state.reqs[k] == e
    requires Halved(e, j, m) && Jam(a.state, ReqOf(e, j).dir, m, p)
    ensures Wedged(if a.err == Ok then a.state else Refuse(a.state, i, a.err), e, j, m, p)
  {
    var s, d := a.state, ReqOf(e, j).dir;
    var f := s.reqs[i].(queued := true);
    JamSet(s, i, f, d, m, p);
    JamRemove(s, i, d, m, p);
    assert s.reqs[i := f][k] == e;
    assert Without(s.reqs, i)[if k < i then k else k - 1] == e;
  }

  lemma WedgedWake(s: State, i: nat, e: Elem, j: Side, m: Id, p: seq<Id>)
    requires Inv(s) && Allowed(s, Wake(i)) && Wedged(s, e, j, m, p)
    ensures Wedged(Return(s, i), e, j, m, p)
  {
    var d := ReqOf(e, j).dir;
    var f := s.reqs[i].(queued := false);
    StillThere(s.reqs, i, e);
    JamSet(s, i, f, d, m, p);
    JamRemove(s, i, d, m, p);
    var k :| 0 <= k < |s.reqs| && s.reqs[k] == e;
    assert s.reqs[i := f][k] == e;
  }

  lemma WedgedRemove(s: State, i: nat, e: Elem, j: Side, m: Id, p: seq<Id>, k: nat) returns (k': nat)
    requires i < |s.reqs| && k < |s.reqs| && k != i && s.reqs[k] == e && Halved(e, j, m) && Jam(s, ReqOf(e, j).dir, m, p)
    ensures k' < |s.reqs| - 1 && Remove(s, i).reqs[k'] == e && Wedged(Remove(s, i), e, j, m, p)
  {
    JamRemove(s, i, ReqOf(e, j).dir, m, p);
    k' := if k < i then k else k - 1;
    assert Remove(s, i).reqs[k'] == e;
  }

  lemma WedgedFreed(s: State, i: nat, e: Elem, j: Side, m: Id, p: seq<Id>) returns (u: State, k: nat)
    requires Inv(s) && Allowed(s, Done(i)) && Wedged(s, e, j, m, p)
    ensures u == Freed(s, i) && k < |u.reqs| && u.reqs[k] == e && Wedged(u, e, j, m, p)
  {
    k :| 0 <= k < |s.reqs| && s.reqs[k] == e;
    JamUnlock(s, i, ReqOf(e, j).dir, m, p, k);
    k := WedgedRemove(UnlockElem(s, i), i, e, j, m, p, k);
    u := Freed(s, i);
  }

  lemma WedgedDone(s: State, i: nat, e: Elem, j: Side, m: Id, p: seq<Id>)
    requires Inv(s) && Allowed(s, Done(i)) && Wedged(s, e, j, m, p)
    ensures Wedged(Apply(s, Done(i)), e, j, m, p)
  {
    var u, k := WedgedFreed(s, i, e, j, m, p);
    FreedOf(s, i, u);
    var v := PassWedged(u, 0, e, j, m, p, k);
  }

  lemma FreedOf(s: State, i: nat, u: State)
    requires Inv(s) && PathAt(s, i) && u == Freed(s, i)
    ensures Ready(u) && Inv(u)
  {
    FreedInv(s, i);
  }

  lemma StepFrame(s: State, a: Action, u: State)
    requires Inv(s) && Allowed(s, a) && u == Apply(s, a)
    ensures Inv(u) && AllKept(s, u)
  {
    StepInv(s, a);
    forall x ensures Kept(s, u, x) {
      StepKeeps(s, a, x);
    }
  }

  lemma WedgedFrame(s: State, a: Action, u: State, e: Elem, j: Side, m: Id, p: seq<Id>)
    requires Inv(s) && Allowed(s, a) && u == Apply(s, a) && Wedged(s, e, j, m, p) && SameLocks(s, u)
    ensures Wedged(u, e, j, m, p)
  {
    StepFrame(s, a, u);
    JamFrame(s, u, e, j, m, p);
  }

  lemma WedgedMove(s: State, a: Action, u: State, e: Elem, j: Side, m: Id, p: seq<Id>)
    requires Inv(s) && Allowed(s, a) && (a.Unlink? || a.Hide? || a.Rename? || a.Exchange?) && Wedged(s, e, j, m, p)
    requires u == Apply(s, a)
    ensures Wedged(u, e, j, m, p)
  {
    MovesKeep(s, a, m);
    if a.Rename? || a.Exchange? {
      WedgedCommit(s, a, u, e, j, m, p);
    } else {
      WedgedFrame(s, a, u, e, j, m, p);
    }
  }

  lemma WedgedCommit(s: State, a: Action, u: State, e: Elem, j: Side, m: Id, p: seq<Id>)
    requires Inv(s) && Allowed(s, a) && (a.Rename? || a.Exchange?) && Wedged(s, e, j, m, p)
    requires u == Apply(s, a) && SameLocks(Commit(s, a.i), u)
    ensures Wedged(u, e, j, m, p)
  {
    StepFrame(s, a, u);
    CommitFrame(s, a.i, u.reqs, e, j, m, p);
    JamFrame(s, u, e, j, m, p);
  }

  lemma CommitFrame(s: State, i: nat, q: seq<Elem>, e: Elem, j: Side, m: Id, p: seq<Id>)
    requires i < |s.reqs| && s.reqs[i].Path? && !s.reqs[i].queued && q == Commit(s, i).reqs && Wedged(s, e, j, m, p)
    ensures e in q && forall x :: x in p ==> Sum(Writers(x), q) == 0
  {
    forall x | x in p ensures Sum(Writers(x), q) == 0 {
      CommitSums(s, i, x);
    }
    var k :| 0 <= k < |s.reqs| && s.reqs[k] == e;
    assert q[k] == e;
  }

  lemma WedgedForget(s: State, x: Id, c: nat, u: State, e: Elem, j: Side, m: Id, p: seq<Id>)
    requires Inv(s) && Allowed(s, Forget(x, c)) && Wedged(s, e, j, m, p) && u == Apply(s, Forget(x, c))
    ensures Wedged(u, e, j, m, p)
  {
    ForgetKeeps(s, x, c, m);
    WedgedFrame(s, Forget(x, c), u, e, j, m, p);
  }

  lemma WedgedNode(s: State, a: Action, u: State, e: Elem, j: Side, m: Id, p: seq<Id>)
    requires Inv(s) && Allowed(s, a) && (a.Find? || a.Again? || a.PinDot? || a.UnpinDot?) && Wedged(s, e, j, m, p)
    requires u == Apply(s, a)
    ensures Wedged(u, e, j, m, p)
  {
    NodesKeep(s, a, m);
    WedgedFrame(s, a, u, e, j, m, p);
  }

  lemma WedgedResume(s: State, i: nat, e: Elem, j: Side, m: Id, p: seq<Id>)
    requires Inv(s) && Allowed(s, ForgetResume(i)) && Wedged(s, e, j, m, p)
    ensures Wedged(Apply(s, ForgetResume(i)), e, j, m, p)
  {
    ResumeForgets(s, i);
    StillThere(s.reqs, i, e);
    JamRemove(s, i, ReqOf(e, j).dir, m, p);
    WedgedForget(Remove(s, i), s.reqs[i].node, s.reqs[i].count, Apply(s, ForgetResume(i)), e, j, m, p);
  }

  lemma WedgedRequest(s: State, a: Action, e: Elem, j: Side, m: Id, p: seq<Id>)
    requires Inv(s) && Allowed(s, a) && (a.Get? || a.Wake? || a.Done? || a.ForgetWait?) && Wedged(s, e, j, m, p)
    ensures Wedged(Apply(s, a), e, j, m, p)
  {
    match a {
      case Get(r1, r2) => WedgedGet(s, r1, r2, e, j, m, p);
      case Wake(i) => WedgedWake(s, i, e, j, m, p);
      case Done(i) => WedgedDone(s, i, e, j, m, p);
      case ForgetWait(n, c) => JamAppend(s, Waiter(n, c), ReqOf(e, j).dir, m, p);
    }
  }

  /** No critical section of anybody lets a wedged element go on. */
  lemma WedgedStep(s: State, a: Action, e: Elem, j: Side, m: Id, p: seq<Id>)
    requires Inv(s) && Allowed(s, a) && Wedged(s, e, j, m, p)
    ensures Wedged(Apply(s, a), e, j, m, p)
  {
    if a.Get? || a.Wake? || a.Done? || a.ForgetWait? {
      WedgedRequest(s, a, e, j, m, p);
    } else if a.Unlink? || a.Hide? || a.Rename? || a.Exchange? {
      WedgedMove(s, a, Apply(s, a), e, j, m, p);
    } else if a.Forget? {
      WedgedForget(s, a.n, a.k, Apply(s, a), e, j, m, p);
    } else if a.ForgetResume? {
      WedgedResume(s, a.i, e, j, m, p);
    } else {
      WedgedNode(s, a, Apply(s, a), e, j, m, p);
    }
  }

  lemma WedgedNext(acts: seq<Action>, tr: seq<State>, k: nat, u: State, e: Elem, j: Side, m: Id, p: seq<Id>)
    requires Run(acts, tr) && k < |acts| && u == tr[k + 1] && Wedged(tr[k], e, j, m, p)
    ensures Wedged(u, e, j, m, p)
  {
    RunInv(acts, tr, k);
    assert StepAt(acts, tr, k);
    WedgedStep(tr[k], acts[k], e, j, m, p);
  }

  /** An element wedged once stays queued, half locked and not done for the rest of the run, whatever happens. */
  lemma {:induction false} WedgedForever(acts: seq<Action>, tr: seq<State>, k: nat, k': nat, e: Elem, j: Side, m: Id, p: seq<Id>)
    requires Run(acts, tr) && k <= k' < |tr| && Wedged(tr[k], e, j, m, p)
    ensures Wedged(tr[k'], e, j, m, p)
    decreases k'
  {
    if k < k' {
      var q := k' - 1;
      WedgedForever(acts, tr, k, q, e, j, m, p);
      WedgedNext(acts, tr, q, tr[k'], e, j, m, p);
    }
  }

  // ----- when the head is wedged --------------------------------------------

  lemma {:induction false} StemOf(t: Tree, d: Id, c: seq<Id>, q: nat)
    requires Chain(t, d, c) && q < |c|
    ensures Stem(t, d, c[q], c[..q])
    decreases q
  {
    if q > 0 {
      ChainDistinct(t, d, c, 0, q);
      StemOf(t, t[d].parent, c[1..], q - 1);
      assert c[..q][1..] == c[1..][..q - 1];
    }
  }

  lemma OneSideHeld(s: State, j: Side, n: Id)
    requires Idle(s, 0) && Has(s.reqs[0], j) && HoldOf(s.reqs[0], j).None? && n in s.lock && s.lock[n] != 0
    ensures Has(s.reqs[0], Second) && HoldOf(s.reqs[0], Other(j)).Some? && !s.reqs[0].done
  {
    assert ShapeAt(s.reqs, 0);
    if s.reqs[0].Empty() {
      AllFree(s, 0, n);
    }
    assert ElemOk(s, s.reqs[0]);
  }

  lemma NobodyWrites(s: State, j: Side, x: Id)
    requires Idle(s, 0) && Has(s.reqs[0], Second) && HoldOf(s.reqs[0], j).None? && HoldOf(s.reqs[0], Other(j)).Some?
    requires x in ChainOf(s.tree, ReqOf(s.reqs[0], j).dir)
    ensures HoldOf(s.reqs[0], Other(j)).value.wnode != Some(x) && Sum(Writers(x), s.reqs) == 0
  {
    LonelySums(s.reqs, 0, Writers(x));
    assert Foot(s.tree, s.reqs[0], j).chain == ChainOf(s.tree, ReqOf(s.reqs[0], j).dir);
  }

  /** A head that the pass will not finish, although nobody else holds a lock, is wedged. */
  lemma MarkedWedges(s: State) returns (j: Side, m: Id, p: seq<Id>)
    requires Idle(s, 0) && !Unmarked(s, 0)
    ensures Wedged(s, s.reqs[0], j, m, p)
  {
    var e := s.reqs[0];
    j :| Has(e, j) && HoldOf(e, j).None? && Blocked(s.lock, ChainOf(s.tree, ReqOf(e, j).dir));
    var d := ReqOf(e, j).dir;
    var c := ChainOf(s.tree, d);
    m :| m in c && m in s.lock && s.lock[m] < 0;
    OneSideHeld(s, j, m);
    NobodyWrites(s, j, m);
    LonelyLock(s, 0, j, Other(j), m);
    var q :| 0 <= q < |c| && c[q] == m;
    p := c[..q];
    StemOf(s.tree, d, c, q);
    ChainSuffix(s.tree, d, c, q);
    forall x | x in p ensures Sum(Writers(x), s.reqs) == 0 {
      NobodyWrites(s, j, x);
    }
  }

  /**
   With only the head of the queue holding locks and its paths reachable and
   free of each other, either the next pass finishes it (`HeadFinishes`), or no
   pass ever will: in every later state of every continuation of the run it
   stands in the queue as it does now.
   */
  lemma HeadFinishesOrNever(acts: seq<Action>, tr: seq<State>, k: nat, k': nat)
    requires Run(acts, tr) && k <= k' < |tr| && Idle(tr[k], 0)
    ensures Finished(WakeFrom(tr[k], 0).reqs[0])
         || (tr[k].reqs[0] in tr[k'].reqs && tr[k].reqs[0].queued && !tr[k].reqs[0].done && !tr[k].reqs[0].Full())
  {
    if Unmarked(tr[k], 0) {
      HeadFinishes(tr[k]);
    } else {
      var j, m, p := MarkedWedges(tr[k]);
      WedgedForever(acts, tr, k, k', tr[k].reqs[0], j, m, p);
    }
  }
}
