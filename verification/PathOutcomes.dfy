/**
 What a request is told, in terms of who holds what; and that nobody else's step
 touches what it has been given or its place among the others.
 */
module PathOutcomes {
  import opened Basics
  import opened Forest
  import opened TreeLocks
  import opened Requests
  import opened PathState
  import opened PathLocks
  import opened PathWake
  import opened PathOps
  import opened PathNodes
  import opened PathArrivals
  import opened PathRuns
  import opened PathLinks

  /** Some writer waits for the readers of `n` to leave. */
  ghost predicate WaitedFor(s: State, n: Id) {
    n in s.lock && Sum(Readers(n), s.reqs) > 0 && s.lock[n] != Sum(Readers(n), s.reqs)
  }

  ghost predicate FreeOfWriters(s: State, n: Id) {
    Sum(Writers(n), s.reqs) == 0 && !WaitedFor(s, n)
  }

  ghost predicate FreeOfAll(s: State, n: Id) {
    Sum(Writers(n), s.reqs) == 0 && Sum(Readers(n), s.reqs) == 0
  }

  lemma LockMeans(s: State, n: Id)
    requires Core(s, multiset{}) && n in s.lock
    ensures s.lock[n] >= 0 <==> FreeOfWriters(s, n)
    ensures s.lock[n] == 0 <==> FreeOfAll(s, n)
  {
    assert LockOk(s.lock, s.reqs, n);
    ReadersBounded(s.reqs, n);
  }

  /** Nothing that anybody holds or waits for is in the way of the request. */
  ghost predicate NothingInTheWay(s: State, r: Req)
    requires r.Valid() && Acyclic(s.tree)
  {
    && (forall n :: n in ChainOf(s.tree, r.dir) ==> FreeOfWriters(s, n))
    && (Target(s.tree, r).Some? ==> FreeOfAll(s, Target(s.tree, r).value))
  }

  /**
   A path is granted exactly if its directory is reachable and nobody is in the
   way: no writer, granted or waiting, on the walk, and nobody at all at the
   entry to be changed. ENOENT means exactly that the directory is cut off.
   */
  lemma AttemptOutcome(s: State, r: Req)
    requires Core(s, multiset{}) && r.Valid() && r.dir in s.lock
    ensures Covers(s.tree, s.lock)
    ensures var a := Try(s.tree, s.lock, r);
      && (a.Granted? <==> Attached(s.tree, r.dir) && NothingInTheWay(s, r))
      && (a.NoEnt? <==> !Attached(s.tree, r.dir))
  {
    var p, w := ChainOf(s.tree, r.dir), Target(s.tree, r);
    if !Attached(s.tree, r.dir) {
      forall n | n in p ensures n in s.lock && s.lock[n] == 0 {
        GoneChainUnlocked(s, multiset{}, r.dir, n);
      }
      if w.Some? {
        GoneTarget(s, multiset{}, r);
      }
      TryNoEnt(s.tree, s.lock, r);
    } else {
      forall n | n in p ensures n in s.lock && (s.lock[n] >= 0 <==> FreeOfWriters(s, n)) {
        OnWalk(s, r.dir, n);
        LockMeans(s, n);
      }
      if w.Some? {
        LockMeans(s, w.value);
      }
    }
  }

  lemma OnWalk(s: State, d: Id, n: Id)
    requires TreeInv(s) && n in ChainOf(s.tree, d)
    ensures n in s.lock
  {
    var p := ChainOf(s.tree, d);
    var i :| 0 <= i < |p| && p[i] == n;
    ChainSuffix(s.tree, d, p, i);
  }

  /**
   A request for one path runs at once with its path if that is granted, is
   turned away if its directory is cut off, and queues up at the end otherwise.
   */
  lemma GetOutcome(s: State, r: Req)
    requires Inv(s) && Allowed(s, Get(r, None))
    ensures var u := Apply(s, Get(r, None)); var n := |s.reqs|;
      && u.tree == s.tree
      && (!Attached(s.tree, r.dir) ==> u.reqs == s.reqs)
      && (Attached(s.tree, r.dir) ==> |u.reqs| == n + 1 && u.reqs[..n] == s.reqs && u.reqs[n].Path? && u.reqs[n].r1 == r)
      && (Attached(s.tree, r.dir) && NothingInTheWay(s, r) ==> !u.reqs[n].queued && u.reqs[n].Full())
      && (Attached(s.tree, r.dir) && !NothingInTheWay(s, r) ==> u.reqs[n].queued && u.reqs[n].Empty() && !u.reqs[n].done)
  {
    AttemptOutcome(s, r);
    var n := |s.reqs|;
    var s0 := Append(s, NewElem(r, None));
    assert s0.reqs[n] == NewElem(r, None);
    assert Without(s0.reqs, n) == s.reqs;
  }

  /** Once a writer waits for a node no further path through it is granted until the readers have gone. */
  lemma WaitingWriterBlocks(t: Tree, l: Locks, r: Req, k: Locks, r': Req)
    requires Covers(t, l) && r.Valid() && r'.Valid() && Try(t, l, r) == Attempt.Again(k)
    requires Target(t, r).Some? && 0 < l[Target(t, r).value] < INT_MAX
    ensures k == l[Target(t, r).value := k[Target(t, r).value]] && k[Target(t, r).value] < 0
    ensures Target(t, r).value in ChainOf(t, r'.dir) ==> Covers(t, k) && !Try(t, k, r').Granted?
  {
  }

  // ----- two paths ----------------------------------------------------------

  /** Neither of the two paths writes what the other one locks. */
  ghost predicate Apart(t: Tree, r1: Req, r2: Req)
    requires r1.Valid() && r2.Valid() && Acyclic(t)
  {
    var w1, w2 := Target(t, r1), Target(t, r2);
    && (w1.Some? ==> w1.value !in ChainOf(t, r2.dir) && w1 != w2)
    && (w2.Some? ==> w2.value !in ChainOf(t, r1.dir))
  }

  /** The second path after the first one has been granted. */
  lemma SecondOutcome(s: State, r1: Req, r2: Req)
    requires Core(s, multiset{}) && r1.Valid() && r1.dir in s.lock && r2.Valid() && r2.dir in s.lock
    requires Attached(s.tree, r1.dir) && NothingInTheWay(s, r1)
    ensures Covers(s.tree, s.lock) && Try(s.tree, s.lock, r1).Granted?
    ensures var l := Try(s.tree, s.lock, r1).lock;
      && Covers(s.tree, l)
      && (Try(s.tree, l, r2).Granted? <==> Attached(s.tree, r2.dir) && NothingInTheWay(s, r2) && Apart(s.tree, r1, r2))
      && (Try(s.tree, l, r2).NoEnt? <==> !Attached(s.tree, r2.dir))
  {
    AttemptOutcome(s, r1);
    AttemptOutcome(s, r2);
    GrantedMeans(s.tree, s.lock, r1);
    var p1, w1, p2, w2 := ChainOf(s.tree, r1.dir), Target(s.tree, r1), ChainOf(s.tree, r2.dir), Target(s.tree, r2);
    var l := Try(s.tree, s.lock, r1).lock;
    ChainUnique(s.tree, r1.dir, p1, Try(s.tree, s.lock, r1).hold.chain);
    forall n | n in p2 ensures n in s.lock {
      OnWalk(s, r2.dir, n);
    }
    assert l == Take(s.lock, p1, w1);
    if Attached(s.tree, r2.dir) {
      SecondReachable(s.tree, s.lock, r1, r2, l);
    } else {
      SecondCutOff(s, r1, r2, l);
    }
  }

  /** What has just been locked is in the way exactly if one of the two writes it. */
  lemma SecondReachable(t: Tree, lock: Locks, r1: Req, r2: Req, l: Locks)
    requires Covers(t, lock) && Covers(t, l) && r1.Valid() && r2.Valid() && Attached(t, r2.dir)
    requires Try(t, lock, r1).Granted? && l == Take(lock, ChainOf(t, r1.dir), Target(t, r1))
    requires forall n :: n in ChainOf(t, r2.dir) ==> n in lock
    ensures Try(t, l, r2).Granted? <==> Try(t, lock, r2).Granted? && Apart(t, r1, r2)
    ensures !Try(t, l, r2).NoEnt?
  {
    GrantedMeans(t, lock, r1);
  }

  lemma SecondCutOff(s: State, r1: Req, r2: Req, l: Locks)
    requires Core(s, multiset{}) && r1.Valid() && r2.Valid() && r2.dir in s.lock
    requires Attached(s.tree, r1.dir) && !Attached(s.tree, r2.dir)
    requires Covers(s.tree, l) && l == Take(s.lock, ChainOf(s.tree, r1.dir), Target(s.tree, r1))
    ensures Try(s.tree, l, r2).NoEnt?
  {
    CutOffApart(s, r1, r2);
    forall n | n in ChainOf(s.tree, r2.dir) && n in l ensures l[n] == 0 {
      GoneChainUnlocked(s, multiset{}, r2.dir, n);
    }
    if Target(s.tree, r2).Some? {
      GoneTarget(s, multiset{}, r2);
    }
    TryNoEnt(s.tree, l, r2);
  }

  /** What a reachable path locks is not below a directory that is cut off. */
  lemma CutOffApart(s: State, r1: Req, r2: Req)
    requires Core(s, multiset{}) && r1.Valid() && r2.Valid() && Attached(s.tree, r1.dir) && !Attached(s.tree, r2.dir)
    ensures Apart(s.tree, r1, r2) && forall n :: n in ChainOf(s.tree, r1.dir) ==> n !in ChainOf(s.tree, r2.dir)
  {
    var t := s.tree;
    var p1, w1, p2, w2 := ChainOf(t, r1.dir), Target(t, r1), ChainOf(t, r2.dir), Target(t, r2);
    forall n | n in p2 ensures n in t && !Attached(t, n) {
      ReachMember(t, r2.dir, n);
    }
    forall n | n in p1 ensures n in t && Attached(t, n) {
      ReachMember(t, r1.dir, n);
    }
    if w1.Some? {
      ParentAttached(t, w1.value);
    }
    if w2.Some? {
      ParentAttached(t, w2.value);
    }
  }

  lemma ReachMember(t: Tree, d: Id, n: Id)
    requires Acyclic(t) && n in ChainOf(t, d)
    ensures n in t && (Attached(t, n) <==> Attached(t, d))
  {
    var p := ChainOf(t, d);
    var i :| 0 <= i < |p| && p[i] == n;
    ChainSuffix(t, d, p, i);
    ChainMember(t, d, p, n, ChainOf(t, n));
  }

  /** The request is the last one now, with all of what it asked for or nothing. */
  predicate Joined(s: State, u: State, r1: Req, r2: Req) {
    var n := |s.reqs|;
    && |u.reqs| == n + 1 && u.reqs[..n] == s.reqs && u.reqs[n].Path? && u.reqs[n].r1 == r1 && u.reqs[n].r2 == Some(r2)
    && !u.reqs[n].done && (if u.reqs[n].queued then u.reqs[n].Empty() else u.reqs[n].Full())
  }

  /**
   A request for two paths runs at once exactly if each of them would be granted
   alone and neither writes what the other one locks; it then has both. It is
   turned away if a directory is found cut off before somebody is in the way.
   Otherwise it queues up at the end and has nothing.
   */
  lemma GetTwoOutcome(s: State, r1: Req, r2: Req)
    requires Inv(s) && Allowed(s, Get(r1, Some(r2)))
    ensures var u := Apply(s, Get(r1, Some(r2))); var n := |s.reqs|;
      var first := Attached(s.tree, r1.dir) && NothingInTheWay(s, r1);
      var second := Attached(s.tree, r2.dir) && NothingInTheWay(s, r2) && Apart(s.tree, r1, r2);
      && u.tree == s.tree
      && (!Attached(s.tree, r1.dir) || (first && !Attached(s.tree, r2.dir)) <==> u.reqs == s.reqs)
      && (u.reqs != s.reqs ==> Joined(s, u, r1, r2) && u.reqs[n].queued == !(first && second))
  {
    var n, e := |s.reqs|, NewElem(r1, Some(r2));
    var s0 := Append(s, e);
    assert s0.reqs[n] == e && Without(s0.reqs, n) == s.reqs;
    AttemptOutcome(s, r1);
    if Attached(s.tree, r1.dir) && NothingInTheWay(s, r1) {
      FirstGrantedOutcome(s, r1, r2);
    }
  }

  lemma FirstGrantedOutcome(s: State, r1: Req, r2: Req)
    requires Inv(s) && r1.Valid() && r1.dir in s.lock && r2.Valid() && r2.dir in s.lock
    requires Attached(s.tree, r1.dir) && NothingInTheWay(s, r1)
    ensures Covers(s.tree, s.lock)
    ensures var u := GetPath(s, r1, Some(r2)); var n := |s.reqs|;
      var second := Attached(s.tree, r2.dir) && NothingInTheWay(s, r2) && Apart(s.tree, r1, r2);
      && u.tree == s.tree && (!Attached(s.tree, r2.dir) <==> u.reqs == s.reqs)
      && (u.reqs != s.reqs ==> Joined(s, u, r1, r2) && u.reqs[n].queued == !second)
  {
    SecondOutcome(s, r1, r2);
    TwoTried(s, r1, r2);
    TwoSettled(s, r1, r2, BothTried(Append(s, NewElem(r1, Some(r2))), |s.reqs|));
  }

  lemma TwoSettled(s: State, r1: Req, r2: Req, r: Tried)
    requires r1.Valid() && r2.Valid() && |r.state.reqs| == |s.reqs| + 1 && r.state.reqs[..|s.reqs|] == s.reqs
    requires if r.err == Ok then Joined(s, r.state, r1, r2) && !r.state.reqs[|s.reqs|].queued
             else r.state.reqs[|s.reqs|] == NewElem(r1, Some(r2))
    ensures PathAt(r.state, |s.reqs|)
    ensures var u := if r.err == Ok then r.state else Refuse(r.state, |s.reqs|, r.err);
      && u.tree == r.state.tree && (r.err == ENOENT <==> u.reqs == s.reqs)
      && (r.err != ENOENT ==> Joined(s, u, r1, r2) && u.reqs[|s.reqs|].queued == (r.err == EAGAIN))
  {
    assert Without(r.state.reqs, |s.reqs|) == s.reqs;
  }

  lemma TwoTried(s: State, r1: Req, r2: Req)
    requires Covers(s.tree, s.lock) && r1.Valid() && r2.Valid() && Try(s.tree, s.lock, r1).Granted?
    requires Covers(s.tree, Try(s.tree, s.lock, r1).lock)
    ensures var b := Try(s.tree, Try(s.tree, s.lock, r1).lock, r2); var n := |s.reqs|;
      var r := BothTried(Append(s, NewElem(r1, Some(r2))), n);
      && r.state.tree == s.tree && |r.state.reqs| == n + 1 && r.state.reqs[..n] == s.reqs
      && (r.err == Ok <==> b.Granted?) && (r.err == ENOENT <==> b.NoEnt?)
      && (b.Granted? ==> Joined(s, r.state, r1, r2) && !r.state.reqs[n].queued)
      && (!b.Granted? ==> r.state.reqs[n] == NewElem(r1, Some(r2)))
  {
    var n, e := |s.reqs|, NewElem(r1, Some(r2));
    var s0 := Append(s, e);
    assert s0.reqs[n] == e && s0.reqs[..n] == s.reqs;
    var a := Try(s.tree, s.lock, r1);
    var v := s0.(lock := a.lock, reqs := s0.reqs[n := e.(h1 := Some(a.hold))]);
    assert TrySlot(s0, n, First) == Tried(v, Ok);
    assert v.reqs[..n] == s.reqs;
  }

  // ----- nobody else's step -------------------------------------------------

  /** The place of request `k` after a critical section, if it is still there. */
  function Place(s: State, a: Action, k: nat): Option<nat>
    requires k < |s.reqs|
  {
    var gone :=
      if a.Done? || a.ForgetResume? || (a.Wake? && a.i < |s.reqs| && s.reqs[a.i].Path? && s.reqs[a.i].failed) then a.i else |s.reqs|;
    if k < gone then Some(k) else if k == gone then None else Some(k - 1)
  }

  /** A request that runs has what it had; one that waits still waits for what it waited for. */
  predicate Undisturbed(e: Elem, d: Elem) {
    match e
    case Waiter(_, _) => d == e
    case Path(r1, r2, h1, h2, queued, _, _, _) =>
      d.Path? && d.r1 == r1 && d.r2 == r2 && d.queued == queued && (!queued ==> d.h1 == h1 && d.h2 == h2)
  }

  predicate SameRequests(p: seq<Elem>, q: seq<Elem>) {
    |q| == |p| && forall k :: 0 <= k < |p| ==> Undisturbed(p[k], q[k])
  }

  lemma {:induction false} PassUndisturbed(s: State, k: nat)
    requires Ready(s) && k <= |s.reqs|
    ensures SameRequests(s.reqs, WakeFrom(s, k).reqs)
    decreases |s.reqs| - k
  {
    if k < |s.reqs| {
      var u := WakeElem(s, k);
      ReadyKept(s, u, k);
      TurnUndisturbed(s, k, u);
      PassUndisturbed(u, k + 1);
      SameTrans(s.reqs, u.reqs, WakeFrom(u, k + 1).reqs);
    }
  }

  lemma TurnUndisturbed(s: State, k: nat, u: State)
    requires Ready(s) && k < |s.reqs| && u == WakeElem(s, k)
    ensures SameRequests(s.reqs, u.reqs)
  {
    assert s.reqs[k].Path? && s.reqs[k].queued ==> u.reqs[k].queued;
  }

  lemma SameTrans(p: seq<Elem>, q: seq<Elem>, r: seq<Elem>)
    requires SameRequests(p, q) && SameRequests(q, r)
    ensures SameRequests(p, r)
  {
  }

  lemma CommitUndisturbed(s: State, i: nat)
    requires i < |s.reqs| && s.reqs[i].Path?
    ensures SameRequests(s.reqs, Commit(s, i).reqs)
  {
  }

  lemma MoveRequests(s: State, a: Action)
    requires Inv(s) && Allowed(s, a) && (a.Unlink? || a.Hide? || a.Rename? || a.Exchange?)
    ensures SameRequests(s.reqs, Apply(s, a).reqs)
  {
    MovesKeep(s, a, 0);
    if a.Rename? || a.Exchange? {
      CommitUndisturbed(s, a.i);
    }
  }

  lemma NodeRequests(s: State, a: Action)
    requires Inv(s) && Allowed(s, a) && (a.Find? || a.Again? || a.PinDot? || a.UnpinDot?)
    ensures Apply(s, a).reqs == s.reqs
  {
    NodesKeep(s, a, 0);
  }

  /**
   No step of anybody else takes from a running request what it has been
   granted, nor a waiting one from the queue, nor changes the order: requests
   come in at the end and leave only by their own step.
   */
  lemma StepOrder(s: State, a: Action, k: nat)
    requires Inv(s) && Allowed(s, a) && k < |s.reqs|
    ensures Place(s, a, k).None? ==> (a.Done? || a.ForgetResume? || a.Wake?) && a.i == k
    ensures var u := Apply(s, a); var at := Place(s, a, k);
      at.Some? ==> at.value < |u.reqs| && (a == Wake(k) || Undisturbed(s.reqs[k], u.reqs[at.value]))
  {
    if Place(s, a, k).None? || a == Wake(k) {
      return;
    }
    if a.Done? {
      DoneOrder(s, a.i, k);
    } else if a.ForgetResume? {
      ResumeOrder(s, a.i, k);
    } else if a.Get? {
      GetOrder(s, a.r1, a.r2, k);
    } else if a.Wake? || a.ForgetWait? {
      LeaveOrder(s, a, k);
    } else if a.Unlink? || a.Hide? || a.Rename? || a.Exchange? {
      MoveRequests(s, a);
    } else if a.Forget? {
      ForgetRequests(s, a.n, a.k);
    } else {
      NodeRequests(s, a);
    }
  }

  lemma LeaveOrder(s: State, a: Action, k: nat)
    requires Allowed(s, a) && k < |s.reqs| && (a.Wake? || a.ForgetWait?) && a != Wake(k)
    ensures var q := Apply(s, a).reqs; var at := Place(s, a, k);
      at.Some? && at.value < |q| && Undisturbed(s.reqs[k], q[at.value])
  {
  }

  lemma RestAt(q: seq<Elem>, i: nat, k: nat)
    requires i < |q| && k < |q| && k != i
    ensures var at := if k < i then k else k - 1; at < |Without(q, i)| && Without(q, i)[at] == q[k]
  {
  }

  lemma FreedRequests(s: State, i: nat)
    requires PathAt(s, i)
    ensures Freed(s, i).reqs == Without(s.reqs, i)
  {
  }

  lemma DoneRequests(s: State, i: nat)
    requires Inv(s) && Allowed(s, Done(i))
    ensures SameRequests(Without(s.reqs, i), Apply(s, Done(i)).reqs)
  {
    FreedInv(s, i);
    FreedRequests(s, i);
    PassUndisturbed(Freed(s, i), 0);
  }

  lemma DoneOrder(s: State, i: nat, k: nat)
    requires Inv(s) && Allowed(s, Done(i)) && k < |s.reqs| && k != i
    ensures var q := Apply(s, Done(i)).reqs; var at := if k < i then k else k - 1;
      at < |q| && Undisturbed(s.reqs[k], q[at])
  {
    DoneRequests(s, i);
    RestAt(s.reqs, i, k);
  }

  lemma ResumeRequests(s: State, i: nat)
    requires Inv(s) && Allowed(s, ForgetResume(i))
    ensures Apply(s, ForgetResume(i)).reqs == Without(s.reqs, i)
  {
    ResumeForgets(s, i);
    ForgetRequests(Remove(s, i), s.reqs[i].node, s.reqs[i].count);
  }

  lemma ResumeOrder(s: State, i: nat, k: nat)
    requires Inv(s) && Allowed(s, ForgetResume(i)) && k < |s.reqs| && k != i
    ensures var q := Apply(s, ForgetResume(i)).reqs; var at := if k < i then k else k - 1;
      at < |q| && q[at] == s.reqs[k]
  {
    ResumeRequests(s, i);
    RestAt(s.reqs, i, k);
  }

  lemma ForgetRequests(s: State, n: Id, k: nat)
    requires Inv(s) && Allowed(s, Forget(n, k))
    ensures ForgetNode(s, n, k).reqs == s.reqs
  {
    ForgetKeeps(s, n, k, n);
  }

  lemma GetOrder(s: State, r1: Req, r2: Option<Req>, k: nat)
    requires Inv(s) && Allowed(s, Get(r1, r2)) && k < |s.reqs|
    ensures k < |GetPath(s, r1, r2).reqs| && GetPath(s, r1, r2).reqs[k] == s.reqs[k]
  {
    var s0 := Append(s, NewElem(r1, r2));
    NewArriving(s, r1, r2);
    var a := BothTried(s0, |s.reqs|);
    assert a.state.reqs[k] == s.reqs[k];
  }
}
