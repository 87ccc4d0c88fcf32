/**
 A run after which the head of the queue waits for ever: the wait mark that
 another request has left on a directory of its locked path keeps it from
 read-locking that directory once more for its second path.
 */
module PathStarvation {
  import opened Basics
  import opened Forest
  import opened TreeLocks
  import opened Requests
  import opened PathState
  import opened PathWake
  import opened PathArrivals
  import opened PathRuns
  import opened PathWedge

  const MARK: int := TREELOCK_WAIT_OFFSET

  /** A rename from /a/f to /a/g, queued, with its first path locked. */
  const Half: Elem :=
    Path(Req(2, Some("f"), true), Some(Req(2, Some("g"), true)), Some(Hold(2, [2], Some(4))), None,
         true, false, false, false)

  /** The same rename, queued and holding nothing. */
  const Waiting: Elem := Half.(h1 := None)

  /** A rename of /a to /b, queued. */
  const Behind: Elem :=
    Path(Req(ROOT, Some("a"), true), Some(Req(ROOT, Some("b"), true)), None, None, true, false, false, false)

  /** A read of /a/g that is running. */
  const Reader: Elem := Path(Req(3, None, false), None, Some(Hold(3, [3, 2], None)), None, false, false, false, false)

  /** Some request on the root that is running. */
  const Visitor: Elem := Path(Req(ROOT, None, false), None, Some(Hold(ROOT, [], None)), None, false, false, false, false)

  const Names: Tree := map[2 := Link(1, "a"), 3 := Link(2, "g"), 4 := Link(2, "f")]

  function Locked(l2: int, l3: int, l4: int): Locks {
    map[1 := 0, 2 := l2, 3 := l3, 4 := l4]
  }

  /** The three nodes, each looked up once, with the given treelocks and requests. */
  function Scene(lock: Locks, reqs: seq<Elem>): State {
    State(Names, lock, map[1 := 1, 2 := 1, 3 := 1, 4 := 1], map[1 := 2, 2 := 3, 3 := 1, 4 := 1], multiset{}, reqs)
  }

  const Empty: State := Scene(Locked(0, 0, 0), [])
  const Reading: State := Scene(Locked(1, 1, 0), [Reader])
  const Visited: State := Scene(Locked(1, 1, 0), [Reader, Visitor])
  const Queued: State := Scene(Locked(1, MARK + 1, 0), [Reader, Visitor, Waiting])
  const Left: State := Scene(Locked(1, MARK + 1, 0), [Reader, Waiting])
  const Halfway: State := Scene(Locked(2, MARK + 1, TREELOCK_WRITE), [Reader, Half])
  const Marked: State := Scene(Locked(MARK + 2, MARK + 1, TREELOCK_WRITE), [Reader, Half, Behind])

  /** The rename of /a/f heads the queue, the rename of /a waits behind it and has marked /a; nothing else is going on. */
  const Stuck: State := Scene(Locked(MARK + 1, 0, TREELOCK_WRITE), [Half, Behind])

  // ----- the tree -----------------------------------------------------------

  lemma NameChains()
    ensures Acyclic(Names)
    ensures ChainOf(Names, 2) == [2] && Top(Names, 2, [2]) == ROOT
    ensures ChainOf(Names, 3) == [3, 2] && Top(Names, 3, [3, 2]) == ROOT
    ensures ChainOf(Names, ROOT) == [] && Top(Names, ROOT, []) == ROOT
  {
    assert [2][1..] == [] && [3, 2][1..] == [2] && [4, 2][1..] == [2];
    assert Chain(Names, 2, [2]) && Chain(Names, 3, [3, 2]) && Chain(Names, 4, [4, 2]);
    forall n: Id ensures HasChain(Names, n) {
      if n !in Names {
        assert Chain(Names, n, []);
      }
    }
    ChainUnique(Names, 2, [2], ChainOf(Names, 2));
    ChainUnique(Names, 3, [3, 2], ChainOf(Names, 3));
  }

  lemma NameLookups()
    ensures Lookup(Names, Link(ROOT, "a")) == Some(2) && Lookup(Names, Link(2, "g")) == Some(3)
    ensures Lookup(Names, Link(2, "f")) == Some(4) && Lookup(Names, Link(ROOT, "b")) == None
  {
    assert Names[2] == Link(ROOT, "a") && Names[3] == Link(2, "g") && Names[4] == Link(2, "f");
  }

  lemma SceneCovered(l2: int, l3: int, l4: int)
    ensures Covers(Names, Locked(l2, l3, l4))
  {
    NameChains();
  }

  // ----- attempts -----------------------------------------------------------

  lemma ReaderGranted()
    ensures Covers(Names, Locked(0, 0, 0))
    ensures Try(Names, Locked(0, 0, 0), Reader.r1) == Granted(Locked(1, 1, 0), Reader.h1.value)
  {
    SceneCovered(0, 0, 0);
    NameChains();
    assert Take(Locked(0, 0, 0), [3, 2], None) == Locked(1, 1, 0);
  }

  lemma VisitorGranted(l: Locks)
    requires l == Locked(1, 1, 0)
    ensures Covers(Names, l) && Try(Names, l, Visitor.r1) == Granted(l, Visitor.h1.value)
  {
    SceneCovered(1, 1, 0);
    NameChains();
    assert Take(l, [], None) == l;
  }

  lemma FirstGranted(l3: int, l: Locks, l1: Locks)
    requires l == Locked(1, l3, 0) && l1 == Locked(2, l3, TREELOCK_WRITE)
    ensures Covers(Names, l) && Try(Names, l, Half.r1) == Granted(l1, Half.h1.value)
  {
    SceneCovered(1, l3, 0);
    NameChains();
    NameLookups();
    assert Take(l, [2], Some(4)) == l1;
  }

  /** The read of /a/g is in the way of the second path, which marks it. */
  lemma SecondRefused(l3: int, l1: Locks, l2: Locks)
    requires (l3 == 1 || l3 == MARK + 1) && l1 == Locked(2, l3, TREELOCK_WRITE) && l2 == Locked(2, MARK + 1, TREELOCK_WRITE)
    ensures Covers(Names, l1) && Try(Names, l1, Half.r2.value) == Attempt.Again(l2)
  {
    SceneCovered(2, l3, TREELOCK_WRITE);
    NameLookups();
  }

  lemma BehindRefused()
    ensures Covers(Names, Halfway.lock) && Try(Names, Halfway.lock, Behind.r1) == Attempt.Again(Marked.lock)
  {
    SceneCovered(2, MARK + 1, TREELOCK_WRITE);
    NameLookups();
  }

  /** With the reader gone it is the mark on /a that is in the way. */
  lemma StillRefused(l: Locks)
    requires l == Stuck.lock
    ensures Covers(Names, l) && Try(Names, l, Half.r2.value) == Attempt.Again(l)
  {
    SceneCovered(MARK + 1, 0, TREELOCK_WRITE);
    NameChains();
    NameLookups();
    assert 2 in ChainOf(Names, 2) && l[2] < 0;
  }

  lemma BehindTries(l: Locks)
    requires l == Stuck.lock
    ensures Covers(Names, l) && Try(Names, l, Behind.r1) == Attempt.Again(l)
    ensures Try(Names, l, Behind.r2.value) == Granted(l, Hold(ROOT, [], None))
  {
    SceneCovered(MARK + 1, 0, TREELOCK_WRITE);
    NameChains();
    NameLookups();
    assert Take(l, [], None) == l;
  }

  // ----- requests coming and going ------------------------------------------

  lemma SumPair(m: Measure, a: Elem, b: Elem)
    ensures Sum(m, [a]) == Weight(m, a) && Sum(m, [a, b]) == Weight(m, a) + Weight(m, b)
  {
    SumAppend(m, [], a);
    SumAppend(m, [a], b);
    assert [] + [a] == [a] && [a] + [b] == [a, b];
  }

  lemma LastReplaced(q: seq<Elem>, d: Elem, e: Elem)
    ensures (q + [d])[|q| := e] == q + [e] && (q + [d])[|q|] == d
  {
  }

  lemma GetGranted(s: State, r: Req, l: Locks, h: Hold)
    requires Covers(s.tree, s.lock) && r.Valid() && Try(s.tree, s.lock, r) == Granted(l, h)
    ensures GetPath(s, r, None) == s.(lock := l, reqs := s.reqs + [NewElem(r, None).(h1 := Some(h))])
  {
    LastReplaced(s.reqs, NewElem(r, None), NewElem(r, None).(h1 := Some(h)));
  }

  lemma GetQueued(s: State, r1: Req, r2: Option<Req>, l: Locks)
    requires Covers(s.tree, s.lock) && r1.Valid() && (r2.Some? ==> r2.value.Valid())
    requires Try(s.tree, s.lock, r1) == Attempt.Again(l)
    ensures GetPath(s, r1, r2) == s.(lock := l, reqs := s.reqs + [NewElem(r1, r2).(queued := true)])
  {
    var e, i := NewElem(r1, r2), |s.reqs|;
    LastReplaced(s.reqs, e, e.(queued := true));
    assert TrySlot(Append(s, e), i, First) == Tried(Append(s, e).(lock := l), EAGAIN);
  }

  /** The second path is refused, so the first is given back. */
  lemma GetRefused(s: State, r1: Req, r2: Req, l1: Locks, h: Hold, l2: Locks)
    requires Covers(s.tree, s.lock) && r1.Valid() && r2.Valid() && Try(s.tree, s.lock, r1) == Granted(l1, h)
    requires Covers(s.tree, l1) && Try(s.tree, l1, r2) == Attempt.Again(l2)
    ensures GetPath(s, r1, Some(r2)) ==
      s.(lock := Release(l2, h.chain, h.wnode), reqs := s.reqs + [NewElem(r1, Some(r2)).(queued := true)])
  {
    var e, i := NewElem(r1, Some(r2)), |s.reqs|;
    var g, q := e.(h1 := Some(h)), e.(queued := true);
    LastReplaced(s.reqs, e, g);
    LastReplaced(s.reqs, g, e);
    LastReplaced(s.reqs, e, q);
    var a := s.(lock := l1, reqs := s.reqs + [g]);
    assert TrySlot(Append(s, e), i, First) == Tried(a, Ok);
    assert TrySlot(a, i, Second) == Tried(a.(lock := l2), EAGAIN);
  }

  lemma StepTo(s: State, r1: Req, r2: Option<Req>, u: State)
    requires Presentable(s, r1) && (r2.Some? ==> Presentable(s, r2.value)) && Admissible(s, NewElem(r1, r2))
    requires Covers(s.tree, s.lock) && GetPath(s, r1, r2) == u
    ensures Allowed(s, Get(r1, r2)) && Apply(s, Get(r1, r2)) == u
  {
  }

  lemma ScenePresentable(l2: int, l3: int, l4: int, reqs: seq<Elem>, r: Req)
    requires 1 <= r.dir <= 4 && r.Valid()
    ensures Presentable(Scene(Locked(l2, l3, l4), reqs), r)
  {
    var s := Scene(Locked(l2, l3, l4), reqs);
    assert Named(s, 1) && Named(s, 2) && Named(s, 3) && Named(s, 4);
  }

  lemma ReadingPath()
    ensures Covers(Names, Empty.lock) && GetPath(Empty, Reader.r1, None) == Reading
  {
    ReaderGranted();
    GetGranted(Empty, Reader.r1, Reading.lock, Reader.h1.value);
    assert [] + [Reader] == [Reader];
  }

  lemma ToReading()
    ensures Allowed(Empty, Get(Reader.r1, None)) && Apply(Empty, Get(Reader.r1, None)) == Reading
  {
    ScenePresentable(0, 0, 0, [], Reader.r1);
    ReadingPath();
    StepTo(Empty, Reader.r1, None, Reading);
  }

  lemma VisitedAdmissible()
    ensures Admissible(Reading, NewElem(Visitor.r1, None))
  {
    forall m ensures Sum(m, [Reader]) == Weight(m, Reader) {
      SumPair(m, Reader, Reader);
    }
  }

  lemma VisitedPath()
    ensures Covers(Names, Reading.lock) && GetPath(Reading, Visitor.r1, None) == Visited
  {
    VisitorGranted(Reading.lock);
    GetGranted(Reading, Visitor.r1, Visited.lock, Visitor.h1.value);
    assert [Reader] + [Visitor] == [Reader, Visitor];
  }

  lemma ToVisited()
    ensures Allowed(Reading, Get(Visitor.r1, None)) && Apply(Reading, Get(Visitor.r1, None)) == Visited
  {
    VisitedAdmissible();
    ScenePresentable(1, 1, 0, [Reader], Visitor.r1);
    VisitedPath();
    StepTo(Reading, Visitor.r1, None, Visited);
  }

  lemma QueuedAdmissible()
    ensures Admissible(Visited, NewElem(Half.r1, Half.r2))
  {
    forall m ensures Sum(m, [Reader, Visitor]) == Weight(m, Reader) + Weight(m, Visitor) {
      SumPair(m, Reader, Visitor);
    }
  }

  lemma QueuedFrom(s: State, l1: Locks, l2: Locks)
    requires s.tree == Names && s.lock == Visited.lock
    requires l1 == Locked(2, 1, TREELOCK_WRITE) && l2 == Locked(2, MARK + 1, TREELOCK_WRITE)
    ensures Covers(s.tree, s.lock) && GetPath(s, Half.r1, Half.r2) == s.(lock := Queued.lock, reqs := s.reqs + [Waiting])
  {
    FirstGranted(1, s.lock, l1);
    SecondRefused(1, l1, l2);
    GetRefused(s, Half.r1, Half.r2.value, l1, Half.h1.value, l2);
    QueuedLocks(l2);
  }

  lemma QueuedPath()
    ensures Covers(Names, Visited.lock) && GetPath(Visited, Half.r1, Half.r2) == Queued
  {
    QueuedFrom(Visited, Locked(2, 1, TREELOCK_WRITE), Locked(2, MARK + 1, TREELOCK_WRITE));
    assert [Reader, Visitor] + [Waiting] == [Reader, Visitor, Waiting];
  }

  lemma QueuedLocks(l2: Locks)
    requires l2 == Locked(2, MARK + 1, TREELOCK_WRITE)
    ensures Release(l2, [2], Some(4)) == Queued.lock
  {
    assert Release(l2, [2], Some(4)) == Locked(1, MARK + 1, 0);
  }

  /** The rename of /a/f arrives while /a/g is being read, and queues up. */
  lemma ToQueued()
    ensures Allowed(Visited, Get(Half.r1, Half.r2)) && Apply(Visited, Get(Half.r1, Half.r2)) == Queued
  {
    QueuedAdmissible();
    ScenePresentable(1, 1, 0, [Reader, Visitor], Half.r1);
    ScenePresentable(1, 1, 0, [Reader, Visitor], Half.r2.value);
    QueuedPath();
    StepTo(Visited, Half.r1, Half.r2, Queued);
  }

  lemma MarkedAdmissible()
    ensures Admissible(Halfway, NewElem(Behind.r1, Behind.r2))
  {
    forall m ensures Sum(m, [Reader, Half]) == Weight(m, Reader) + Weight(m, Half) {
      SumPair(m, Reader, Half);
    }
  }

  lemma MarkedPath()
    ensures Covers(Names, Halfway.lock) && GetPath(Halfway, Behind.r1, Behind.r2) == Marked
  {
    BehindRefused();
    GetQueued(Halfway, Behind.r1, Behind.r2, Marked.lock);
    assert [Reader, Half] + [Behind] == [Reader, Half, Behind];
  }

  /** The rename of /a arrives, marks it and queues up. */
  lemma ToMarked()
    ensures Allowed(Halfway, Get(Behind.r1, Behind.r2)) && Apply(Halfway, Get(Behind.r1, Behind.r2)) == Marked
  {
    MarkedAdmissible();
    ScenePresentable(2, MARK + 1, TREELOCK_WRITE, [Reader, Half], Behind.r1);
    ScenePresentable(2, MARK + 1, TREELOCK_WRITE, [Reader, Half], Behind.r2.value);
    MarkedPath();
    StepTo(Halfway, Behind.r1, Behind.r2, Marked);
  }

  // ----- the two wake-up passes ---------------------------------------------

  /** The head gets its first path but not its second, and keeps what it has. */
  lemma HeadHalf(s: State, i: nat, l: Locks, h: Hold)
    requires Covers(s.tree, s.lock) && Covers(s.tree, l) && PathAt(s, i) && IsHead(s.reqs, i)
    requires var e := s.reqs[i];
      && e.queued && e.r2.Some? && e.h1.None? && e.h2.None?
      && Try(s.tree, s.lock, e.r1) == Granted(l, h) && Try(s.tree, l, e.r2.value) == Attempt.Again(l)
    ensures WakeElem(s, i) == s.(lock := l, reqs := s.reqs[i := s.reqs[i].(h1 := Some(h))])
  {
    var u := s.(lock := l, reqs := s.reqs[i := s.reqs[i].(h1 := Some(h))]);
    assert TrySlot(s, i, First) == Tried(u, Ok);
    assert TrySlot(u, i, Second) == Tried(u, EAGAIN);
  }

  lemma LeftReady()
    ensures Ready(Left) && IsHead(Left.reqs, 1) && WakeElem(Left, 0) == Left
  {
    SceneCovered(1, MARK + 1, 0);
  }

  lemma LeftHead()
    ensures Ready(Left) && WakeElem(Left, 1) == Halfway
  {
    LeftReady();
    FirstGranted(MARK + 1, Left.lock, Halfway.lock);
    SecondRefused(MARK + 1, Halfway.lock, Halfway.lock);
    HeadHalf(Left, 1, Halfway.lock, Half.h1.value);
    assert [Reader, Waiting][1 := Half] == [Reader, Half];
  }

  lemma PassTwo(s: State, t: State, u: State)
    requires Ready(s) && |s.reqs| == 2 && WakeElem(s, 0) == t && Ready(t) && |t.reqs| == 2 && WakeElem(t, 1) == u
    ensures WakeFrom(s, 0) == u
  {
    ReadyKept(t, u, 1);
    assert WakeFrom(u, 2) == u;
    assert WakeFrom(t, 1) == u;
  }

  lemma VisitorFreed()
    ensures PathAt(Queued, 1) && Freed(Queued, 1) == Left
  {
    assert Release(Queued.lock, [], None) == Queued.lock;
    assert Without([Reader, Visitor.(h1 := None), Waiting], 1) == [Reader, Waiting];
  }

  /** The visitor leaves; now the rename is the head of the queue and keeps its first path. */
  lemma ToHalfway()
    ensures Allowed(Queued, Done(1)) && Apply(Queued, Done(1)) == Halfway
  {
    VisitorFreed();
    LeftReady();
    LeftHead();
    PassTwo(Left, Left, Halfway);
  }

  /** Behind the head, a first path refused and a second one granted are worth nothing. */
  lemma TailTurn(s: State, i: nat, h: Hold)
    requires Covers(s.tree, s.lock) && PathAt(s, i) && !IsHead(s.reqs, i) && h.chain == [] && h.wnode == None
    requires var e := s.reqs[i];
      && e.queued && e.r2.Some? && e.h1.None? && e.h2.None?
      && Try(s.tree, s.lock, e.r1) == Attempt.Again(s.lock) && Try(s.tree, s.lock, e.r2.value) == Granted(s.lock, h)
    ensures WakeElem(s, i) == s
  {
    var e := s.reqs[i];
    var u := s.(reqs := s.reqs[i := e.(h2 := Some(h))]);
    assert TrySlot(s, i, First) == Tried(s, EAGAIN);
    assert TrySlot(s, i, Second) == Tried(u, Ok);
    assert Release(s.lock, [], None) == s.lock;
    assert u.reqs[i := e] == s.reqs;
  }

  /** The head has its first path and is refused its second one: nothing changes. */
  lemma HeadTurn(s: State, i: nat)
    requires Covers(s.tree, s.lock) && PathAt(s, i) && IsHead(s.reqs, i)
    requires var e := s.reqs[i];
      && e.queued && e.r2.Some? && e.h1.Some? && e.h2.None? && Try(s.tree, s.lock, e.r2.value) == Attempt.Again(s.lock)
    ensures WakeElem(s, i) == s
  {
    assert TrySlot(s, i, Second) == Tried(s, EAGAIN);
    OwnOutcome(s, s.reqs[i], Second, i, s);
  }

  lemma StuckReady()
    ensures Ready(Stuck) && IsHead(Stuck.reqs, 0) && !IsHead(Stuck.reqs, 1)
  {
    SceneCovered(MARK + 1, 0, TREELOCK_WRITE);
    assert Stuck.reqs[0].InQueue();
  }

  lemma StuckHead()
    ensures Ready(Stuck) && WakeElem(Stuck, 0) == Stuck
  {
    StuckReady();
    StillRefused(Stuck.lock);
    HeadTurn(Stuck, 0);
  }

  lemma StuckTail()
    ensures Ready(Stuck) && WakeElem(Stuck, 1) == Stuck
  {
    StuckReady();
    BehindTries(Stuck.lock);
    TailTurn(Stuck, 1, Hold(ROOT, [], None));
  }

  lemma ReaderFreed()
    ensures PathAt(Marked, 0) && Freed(Marked, 0) == Stuck
  {
    assert Release(Marked.lock, [3, 2], None) == Stuck.lock;
    assert Without([Reader.(h1 := None), Half, Behind], 0) == [Half, Behind];
  }

  /** The read is over; nobody but the head holds a lock any more. */
  lemma ToStuck()
    ensures Allowed(Marked, Done(0)) && Apply(Marked, Done(0)) == Stuck
  {
    ReaderFreed();
    StuckHead();
    StuckTail();
    PassTwo(Stuck, Stuck, Stuck);
  }

  // ----- the run ------------------------------------------------------------

  const One: State :=
    State(map[2 := Link(1, "a")], map[1 := 0, 2 := 0], map[1 := 1, 2 := 1], map[1 := 2, 2 := 1], multiset{}, [])
  const Two: State :=
    State(map[2 := Link(1, "a"), 3 := Link(2, "g")], map[1 := 0, 2 := 0, 3 := 0], map[1 := 1, 2 := 1, 3 := 1],
          map[1 := 2, 2 := 2, 3 := 1], multiset{}, [])

  lemma ToOne()
    ensures Allowed(Init, Find(Link(1, "a"), 2)) && Apply(Init, Find(Link(1, "a"), 2)) == One
  {
  }

  lemma ToTwo()
    ensures Allowed(One, Find(Link(2, "g"), 3)) && Apply(One, Find(Link(2, "g"), 3)) == Two
  {
  }

  lemma ToEmpty()
    ensures Allowed(Two, Find(Link(2, "f"), 4)) && Apply(Two, Find(Link(2, "f"), 4)) == Empty
  {
  }

  ghost predicate Reached(s: State) {
    exists acts, tr :: Run(acts, tr) && tr[|acts|] == s
  }

  lemma Extended(acts: seq<Action>, tr: seq<State>, a: Action, u: State)
    requires Run(acts, tr) && Allowed(tr[|acts|], a) && Apply(tr[|acts|], a) == u
    ensures Run(acts + [a], tr + [u])
  {
    var more, to := acts + [a], tr + [u];
    forall i | 0 <= i < |more| ensures StepAt(more, to, i) {
      if i < |acts| {
        assert StepAt(acts, tr, i);
        assert to[i] == tr[i] && to[i + 1] == tr[i + 1] && more[i] == acts[i];
      }
    }
  }

  lemma Reach(s: State, a: Action, u: State)
    requires Reached(s) && Allowed(s, a) && Apply(s, a) == u
    ensures Reached(u)
  {
    var acts, tr :| Run(acts, tr) && tr[|acts|] == s;
    Extended(acts, tr, a, u);
    assert (tr + [u])[|acts + [a]|] == u;
  }

  lemma ReachedTree()
    ensures Reached(Empty)
  {
    var none: seq<Action> := [];
    assert Run(none, [Init]) && [Init][|none|] == Init;
    ToOne();
    Reach(Init, Find(Link(1, "a"), 2), One);
    ToTwo();
    Reach(One, Find(Link(2, "g"), 3), Two);
    ToEmpty();
    Reach(Two, Find(Link(2, "f"), 4), Empty);
  }

  lemma ReachedQueue()
    ensures Reached(Queued)
  {
    ReachedTree();
    ToReading();
    Reach(Empty, Get(Reader.r1, None), Reading);
    ToVisited();
    Reach(Reading, Get(Visitor.r1, None), Visited);
    ToQueued();
    Reach(Visited, Get(Half.r1, Half.r2), Queued);
  }

  lemma ReachedStuck()
    ensures Reached(Stuck)
  {
    ReachedQueue();
    ToHalfway();
    Reach(Queued, Done(1), Halfway);
    ToMarked();
    Reach(Halfway, Get(Behind.r1, Behind.r2), Marked);
    ToStuck();
    Reach(Marked, Done(0), Stuck);
  }

  lemma ReachedInv(s: State)
    requires Reached(s)
    ensures Inv(s) && Ready(s)
  {
    var acts, tr :| Run(acts, tr) && tr[|acts|] == s;
    RunInv(acts, tr, |acts|);
    CoreReady(s, multiset{});
  }

  lemma StuckShape()
    ensures Acyclic(Names) && IsHead(Stuck.reqs, 0) && OnlyHolder(Stuck, 0) && Reachable(Stuck, 0) && !Unmarked(Stuck, 0)
  {
    NameChains();
    assert 2 in ChainOf(Names, 2) && Stuck.lock[2] < 0;
    assert Has(Half, Second) && HoldOf(Half, Second).None? && ReqOf(Half, Second).dir == 2;
  }

  lemma StuckApart()
    ensures NoSelfConflict(Stuck, 0)
  {
    NameChains();
    NameLookups();
  }

  /**
   A run ends with nobody but the head of the queue holding a lock and with its
   two paths reachable and free of each other, and yet the next pass over the
   queue does not finish it.
   */
  lemma StuckReached()
    ensures Reached(Stuck) && Idle(Stuck, 0) && !Finished(WakeFrom(Stuck, 0).reqs[0])
  {
    ReachedStuck();
    ReachedInv(Stuck);
    StuckShape();
    StuckApart();
    HeadFinishes(Stuck);
  }

  /** ... and neither does any other pass in any continuation of the run. */
  lemma HeadStarves(acts: seq<Action>, tr: seq<State>, k: nat, k': nat)
    requires Run(acts, tr) && k <= k' < |tr| && tr[k] == Stuck
    ensures Half in tr[k'].reqs && !Half.done && !Half.Full()
  {
    StuckReached();
    HeadFinishesOrNever(acts, tr, k, k');
  }
}
