/**
 wake_up_queued: a whole pass over the queue, and exactly when it lets the head go.
 */
module PathWake {
  import opened Basics
  import opened Forest
  import opened TreeLocks
  import opened Requests
  import opened PathState
  import opened PathLocks
  import opened PathQueue

  ghost predicate Ready(s: State) {
    Covers(s.tree, s.lock) && forall i :: 0 <= i < |s.reqs| && s.reqs[i].Path? ==> PathAt(s, i)
  }

  lemma CoreReady(s: State, x: multiset<Id>)
    requires Core(s, x)
    ensures Ready(s)
  {
    forall i | 0 <= i < |s.reqs| && s.reqs[i].Path? ensures PathAt(s, i) {
      SlotFacts(s, x, i, First);
      PathAtOk(s, i);
    }
  }

  lemma ReadyKept(s: State, u: State, i: nat)
    requires Ready(s) && i < |s.reqs| && OnlyTurn(s, u, i)
    ensures Ready(u)
  {
    forall k | 0 <= k < |u.reqs| && u.reqs[k].Path? ensures PathAt(u, k) {
      assert s.reqs[k].Path? && PathAt(s, k);
    }
  }

  /** wake_up_queued from element `k` on. */
  ghost function WakeFrom(s: State, k: nat): (u: State)
    requires Ready(s) && k <= |s.reqs|
    ensures |u.reqs| == |s.reqs| && Ready(u)
    decreases |s.reqs| - k
  {
    if k == |s.reqs| then s
    else
      var u := WakeElem(s, k);
      ReadyKept(s, u, k);
      WakeFrom(u, k + 1)
  }

  lemma HeadKept(s: State, u: State, i: nat, k: nat)
    requires i < |s.reqs| && OnlyTurn(s, u, i) && k < |s.reqs|
    ensures IsHead(u.reqs, k) <==> IsHead(s.reqs, k)
  {
    forall m | 0 <= m < |s.reqs| ensures u.reqs[m].InQueue() == s.reqs[m].InQueue() {
    }
  }

  lemma ShapeKept(s: State, u: State, i: nat)
    requires i < |s.reqs| && OnlyTurn(s, u, i) && Shape(s.reqs)
    requires Settled(u.reqs[i], IsHead(s.reqs, i))
    ensures Shape(u.reqs)
  {
    forall k | 0 <= k < |u.reqs| ensures ShapeAt(u.reqs, k) {
      HeadKept(s, u, i, k);
      assert ShapeAt(s.reqs, k);
    }
  }

  lemma WakeElemInv(s: State, i: nat)
    requires Inv(s) && i < |s.reqs| && Ready(s)
    ensures Inv(WakeElem(s, i))
  {
    assert ShapeAt(s.reqs, i);
    WakeElemCore(s, i);
    ShapeKept(s, WakeElem(s, i), i);
  }

  /** A wake-up pass keeps the invariant. */
  lemma {:induction false} WakeFromInv(s: State, k: nat)
    requires Inv(s) && k <= |s.reqs| && Ready(s)
    ensures Inv(WakeFrom(s, k))
    decreases |s.reqs| - k
  {
    if k < |s.reqs| {
      var u := WakeElem(s, k);
      WakeElemInv(s, k);
      ReadyKept(s, u, k);
      WakeFromInv(u, k + 1);
    }
  }

  lemma {:induction false} WakeFromKeeps(s: State, k: nat, i: nat)
    requires Ready(s) && i < k <= |s.reqs|
    ensures WakeFrom(s, k).reqs[i] == s.reqs[i]
    decreases |s.reqs| - k
  {
    if k < |s.reqs| {
      var u := WakeElem(s, k);
      ReadyKept(s, u, k);
      WakeFromKeeps(u, k + 1, i);
    }
  }

  // ----- when the head finishes ---------------------------------------------

  /** Nobody but request `h` holds anything. */
  ghost predicate OnlyHolder(s: State, h: nat) {
    forall i :: 0 <= i < |s.reqs| && i != h ==> s.reqs[i].Empty()
  }

  /** What one side of a request locks, or would lock if it were granted now. */
  ghost function Foot(t: Tree, e: Elem, j: Side): Hold
    requires Acyclic(t) && Has(e, j) && ReqOf(e, j).Valid()
  {
    match HoldOf(e, j)
    case Some(h) => h
    case None => Hold(ReqOf(e, j).dir, ChainOf(t, ReqOf(e, j).dir), Target(t, ReqOf(e, j)))
  }

  ghost predicate Disjoint(a: Hold, b: Hold) {
    && (forall n :: n in a.chain ==> b.wnode != Some(n))
    && (forall n :: n in b.chain ==> a.wnode != Some(n))
    && (a.wnode.Some? ==> a.wnode != b.wnode)
  }

  /** Neither path of the request runs into the other one's locks. */
  ghost predicate NoSelfConflict(s: State, h: nat) {
    Acyclic(s.tree) && PathAt(s, h) && (Has(s.reqs[h], Second) ==> Disjoint(Foot(s.tree, s.reqs[h], First), Foot(s.tree, s.reqs[h], Second)))
  }

  /** Both directories are still reachable from the root. */
  ghost predicate Reachable(s: State, h: nat) {
    Acyclic(s.tree) && PathAt(s, h) && (forall j :: Has(s.reqs[h], j) ==> Attached(s.tree, ReqOf(s.reqs[h], j).dir))
  }

  /** No node on a path still to be locked carries the mark of a waiting writer. */
  ghost predicate Unmarked(s: State, h: nat) {
    Acyclic(s.tree) && PathAt(s, h) && (forall j :: Has(s.reqs[h], j) && HoldOf(s.reqs[h], j).None? ==>
      !Blocked(s.lock, ChainOf(s.tree, ReqOf(s.reqs[h], j).dir)))
  }

  lemma {:induction false} LonelySums(q: seq<Elem>, h: nat, m: Measure)
    requires h < |q| && (m.Readers? || m.Writers?)
    requires forall i :: 0 <= i < |q| && i != h ==> q[i].Empty()
    ensures Sum(m, q) == Weight(m, q[h])
  {
    var k := |q| - 1;
    if h == k {
      EmptySums(q[..k], m);
    } else {
      LonelySums(q[..k], h, m);
    }
  }

  lemma {:induction false} EmptySums(q: seq<Elem>, m: Measure)
    requires (m.Readers? || m.Writers?) && forall i :: 0 <= i < |q| ==> q[i].Empty()
    ensures Sum(m, q) == 0
  {
    if q != [] {
      EmptySums(q[..|q| - 1], m);
    }
  }

  /** An element that holds nothing is the only holder: every treelock is zero. */
  lemma AllFree(s: State, h: nat, n: Id)
    requires LockInv(s.lock, s.reqs) && h < |s.reqs| && OnlyHolder(s, h) && s.reqs[h].Empty() && n in s.lock
    ensures s.lock[n] == 0
  {
    EmptySums(s.reqs, Readers(n));
    EmptySums(s.reqs, Writers(n));
    assert LockOk(s.lock, s.reqs, n);
  }

  /** With only path `k` of request `h` held, the node `n` carries what that hold put there. */
  lemma LonelyLock(s: State, h: nat, j: Side, k: Side, n: Id)
    requires LockInv(s.lock, s.reqs) && PathAt(s, h) && OnlyHolder(s, h) && n in s.lock
    requires k != j && Has(s.reqs[h], j) && Has(s.reqs[h], k)
    requires HoldOf(s.reqs[h], j).None? && HoldOf(s.reqs[h], k).Some?
    requires HoldOf(s.reqs[h], k).value.wnode != Some(n)
    ensures n !in HoldOf(s.reqs[h], k).value.chain ==> s.lock[n] == 0
    ensures n in HoldOf(s.reqs[h], k).value.chain ==> s.lock[n] == 1 || s.lock[n] == TREELOCK_WAIT_OFFSET + 1
  {
    LonelySums(s.reqs, h, Readers(n));
    LonelySums(s.reqs, h, Writers(n));
    assert LockOk(s.lock, s.reqs, n);
  }

  /** With the rest of the world idle, the pending path is granted exactly if nothing on it is marked. */
  lemma PendingTry(s: State, h: nat, j: Side, k: Side)
    requires Core(s, multiset{}) && PathAt(s, h) && OnlyHolder(s, h) && NoSelfConflict(s, h)
    requires k != j && Has(s.reqs[h], j) && Has(s.reqs[h], k)
    requires HoldOf(s.reqs[h], j).None? && HoldOf(s.reqs[h], k).Some?
    requires ReqOf(s.reqs[h], j).Valid() && Attached(s.tree, ReqOf(s.reqs[h], j).dir)
    ensures TrySlot(s, h, j).err == if Blocked(s.lock, ChainOf(s.tree, ReqOf(s.reqs[h], j).dir)) then EAGAIN else Ok
  {
    var w := Target(s.tree, ReqOf(s.reqs[h], j));
    assert w == Foot(s.tree, s.reqs[h], j).wnode;
    if w.Some? {
      LonelyLock(s, h, j, k, w.value);
    }
  }

  /** Nobody holds anything: a reachable path is granted at once. */
  lemma FreeTry(s: State, h: nat, j: Side)
    requires Core(s, multiset{}) && PathAt(s, h) && OnlyHolder(s, h) && s.reqs[h].Empty()
    requires Has(s.reqs[h], j) && ReqOf(s.reqs[h], j).Valid() && Attached(s.tree, ReqOf(s.reqs[h], j).dir)
    ensures TrySlot(s, h, j).err == Ok
    ensures !Blocked(s.lock, ChainOf(s.tree, ReqOf(s.reqs[h], j).dir))
  {
    forall n | n in s.lock ensures s.lock[n] == 0 {
      AllFree(s, h, n);
    }
  }

  /** Everything was free and the first path has just been taken: nothing is marked. */
  lemma FreshlyUnmarked(s: State, h: nat, p: seq<Id>)
    requires LockInv(s.lock, s.reqs) && PathAt(s, h) && OnlyHolder(s, h) && s.reqs[h].Empty()
    requires Covers(s.tree, s.lock) && Try(s.tree, s.lock, s.reqs[h].r1).Granted?
    requires Target(s.tree, s.reqs[h].r1).Some? ==> Target(s.tree, s.reqs[h].r1).value !in p
    ensures !Blocked(Try(s.tree, s.lock, s.reqs[h].r1).lock, p)
  {
    GrantedMeans(s.tree, s.lock, s.reqs[h].r1);
    forall n | n in s.lock ensures s.lock[n] == 0 {
      AllFree(s, h, n);
    }
  }

  /** The waiter will return with everything it wanted. */
  predicate Finished(e: Elem) {
    e.Path? && e.done && !e.failed && e.Full()
  }

  ghost predicate Idle(s: State, h: nat) {
    && Inv(s) && Ready(s) && IsHead(s.reqs, h) && s.reqs[h].Path?
    && OnlyHolder(s, h) && NoSelfConflict(s, h) && Reachable(s, h)
  }

  /** The turn of an element ends with both paths locked exactly if neither attempt failed. */
  lemma WakeOutcome(s: State, h: nat, a: Tried, b: Tried)
    requires Covers(s.tree, s.lock) && PathAt(s, h) && s.reqs[h].queued && (s.reqs[h].done ==> s.reqs[h].Full())
    requires a == TryIfNeeded(s, h, First) && a.err != ENOENT
    requires b == TryIfNeeded(a.state, h, Second) && b.err != ENOENT
    ensures Finished(WakeElem(s, h).reqs[h]) <==> a.err == Ok && b.err == Ok
  {
    TriedHold(s, h, First);
    TriedHold(a.state, h, Second);
  }

  lemma TriedHold(s: State, h: nat, j: Side)
    requires Covers(s.tree, s.lock) && PathAt(s, h)
    ensures var a := TryIfNeeded(s, h, j);
      && a.state.reqs[h].done == s.reqs[h].done
      && (Has(s.reqs[h], j) ==> (a.err == Ok <==> HoldOf(a.state.reqs[h], j).Some?))
      && (!Has(s.reqs[h], j) ==> a.err == Ok)
      && (j.First? ==> a.state.reqs[h].h2 == s.reqs[h].h2)
      && (j.Second? ==> a.state.reqs[h].h1 == s.reqs[h].h1)
  {
  }

  lemma SecondAfterFirst(s: State, u: State, h: nat)
    requires Core(s, multiset{}) && PathAt(s, h) && OnlyHolder(s, h) && s.reqs[h].Empty()
    requires NoSelfConflict(s, h) && Reachable(s, h) && s.reqs[h].r2.Some?
    requires TrySlot(s, h, First) == Tried(u, Ok)
    ensures Covers(u.tree, u.lock) && TrySlot(u, h, Second).err == Ok
  {
    var e := s.reqs[h];
    TrySlotCore(s, h, First, multiset{});
    FreshlyUnmarked(s, h, ChainOf(s.tree, e.r2.value.dir));
    FirstFoot(s, u, h);
    PendingTry(u, h, Second, First);
  }

  lemma FirstFoot(s: State, u: State, h: nat)
    requires Covers(s.tree, s.lock) && PathAt(s, h) && s.reqs[h].Empty() && s.reqs[h].r2.Some?
    requires TrySlot(s, h, First) == Tried(u, Ok)
    ensures forall j :: Has(s.reqs[h], j) ==> Foot(u.tree, u.reqs[h], j) == Foot(s.tree, s.reqs[h], j)
    ensures u.reqs[h].h1.Some? && u.reqs[h].h2.None?
  {
    GrantedMeans(s.tree, s.lock, s.reqs[h].r1);
  }

  lemma HeadEmpty(s: State, h: nat)
    requires Core(s, multiset{}) && PathAt(s, h) && OnlyHolder(s, h) && s.reqs[h].Empty()
    requires NoSelfConflict(s, h) && Reachable(s, h)
    ensures TryIfNeeded(s, h, First).err == Ok && TryIfNeeded(TryIfNeeded(s, h, First).state, h, Second).err == Ok
    ensures Unmarked(s, h)
  {
    FreeTry(s, h, First);
    if s.reqs[h].r2.Some? {
      FreeTry(s, h, Second);
      SecondAfterFirst(s, TrySlot(s, h, First).state, h);
    }
  }

  /** One path held: the turn gets the other one exactly if it is unmarked. */
  lemma HeadHalf(s: State, h: nat, j: Side, k: Side)
    requires Core(s, multiset{}) && PathAt(s, h) && OnlyHolder(s, h)
    requires NoSelfConflict(s, h) && Reachable(s, h)
    requires k != j && Has(s.reqs[h], Second)
    requires HoldOf(s.reqs[h], j).None? && HoldOf(s.reqs[h], k).Some?
    ensures TryIfNeeded(s, h, j).err == if Unmarked(s, h) then Ok else EAGAIN
    ensures TryIfNeeded(s, h, k) == Tried(s, Ok)
  {
    PendingTry(s, h, j, k);
    var p := ChainOf(s.tree, ReqOf(s.reqs[h], j).dir);
    assert Unmarked(s, h) <==> !Blocked(s.lock, p);
  }

  lemma HeadTurn(s: State, h: nat)
    requires Idle(s, h) && !s.reqs[h].Full()
    ensures var a := TryIfNeeded(s, h, First); var b := TryIfNeeded(a.state, h, Second);
      a.err != ENOENT && b.err != ENOENT && (Unmarked(s, h) <==> a.err == Ok && b.err == Ok)
  {
    var e := s.reqs[h];
    SlotFacts(s, multiset{}, h, First);
    if e.h1.None? && e.h2.None? {
      HeadEmpty(s, h);
    } else if e.h1.None? {
      HeadHalf(s, h, First, Second);
      TriedHold(s, h, First);
    } else {
      HeadHalf(s, h, Second, First);
    }
  }

  /** If only the head of the queue holds locks, it is the oldest request of all. */
  lemma HeadIsFirst(s: State, h: nat)
    requires Shape(s.reqs) && IsHead(s.reqs, h) && OnlyHolder(s, h)
    ensures h == 0
  {
    assert ShapeAt(s.reqs, 0);
  }

  lemma PassFirst(s: State)
    requires Ready(s) && |s.reqs| > 0
    ensures WakeFrom(s, 0).reqs[0] == WakeElem(s, 0).reqs[0]
  {
    var u := WakeElem(s, 0);
    ReadyKept(s, u, 0);
    WakeFromKeeps(u, 1, 0);
  }

  /**
   If only the head of the queue holds locks, its paths are reachable and do not
   conflict with each other, then one pass finishes it with both paths locked
   exactly if no node on a path it still wants is marked by a waiting writer.
   */
  lemma HeadFinishes(s: State)
    requires Ready(s) && |s.reqs| > 0 && Idle(s, 0)
    ensures Finished(WakeFrom(s, 0).reqs[0]) <==> Unmarked(s, 0)
  {
    PassFirst(s);
    HeadTurnOutcome(s);
  }

  lemma HeadTurnOutcome(s: State)
    requires Idle(s, 0)
    ensures Finished(WakeElem(s, 0).reqs[0]) <==> Unmarked(s, 0)
  {
    assert ShapeAt(s.reqs, 0);
    if s.reqs[0].Full() {
      FullTurn(s, 0);
    } else {
      NotGone(s, 0);
      HeadTurn(s, 0);
      var a := TryIfNeeded(s, 0, First);
      WakeOutcome(s, 0, a, TryIfNeeded(a.state, 0, Second));
    }
  }

  lemma FullTurn(s: State, h: nat)
    requires Covers(s.tree, s.lock) && PathAt(s, h) && s.reqs[h].queued && s.reqs[h].Full()
    ensures WakeElem(s, h) == Finish(s, h, false)
  {
  }

  lemma NotGone(s: State, h: nat)
    requires Acyclic(s.tree) && GoneOk(s, {}) && PathAt(s, h) && Reachable(s, h)
    ensures !s.reqs[h].failed
  {
    forall j | Has(s.reqs[h], j) ensures !GoneSide(s.tree, ReqOf(s.reqs[h], j).dir, {}) {
      assert Attached(s.tree, ReqOf(s.reqs[h], j).dir);
    }
  }
}
