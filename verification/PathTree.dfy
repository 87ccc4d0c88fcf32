/**
 The critical sections of fuse.c as they are written: loops over parent
 pointers and over the lock queue that update the nodes in place. Each method
 is proved to compute the state that the invariant proofs talk about.
 */
module PathTree {
  import opened Basics
  import opened Forest
  import opened PathNames
  import opened TreeLocks
  import opened Requests
  import opened PathState
  import opened PathLocks
  import opened PathQueue
  import opened PathWake
  import opened PathRefs
  import opened PathMoves
  import opened PathOps
  import opened PathNodes
  import opened PathArrivals
  import opened NodeTables

  ghost predicate Inverse(t: Tree, m: map<Link, Id>) {
    && (forall n :: n in t ==> t[n] in m && m[t[n]] == n)
    && (forall l :: l in m ==> m[l] in t && t[m[l]] == l)
  }

  class Fuse {
    var tree: map<Id, Link>         // node->parent, node->name
    const names: NodeTable<Link, Id>
    var lock: map<Id, int>          // node->treelock
    var nlookup: map<Id, nat>       // node->nlookup
    var refctr: map<Id, nat>        // node->refctr
    var reqs: seq<Elem>             // lockq, and the requests that have left it
    ghost var pins: multiset<Id>

    ghost function View(): State
      reads this
    {
      State(tree, lock, nlookup, refctr, pins, reqs)
    }

    /** The name table holds the inverse of the links. */
    ghost predicate Valid()
      reads this, names
    {
      names.Valid() && Inverse(tree, names.model)
    }

    constructor (hash: Link -> nat)
      ensures Valid() && View().tree == map[] && View().lock == map[ROOT := 0]
      ensures View().nlookup == map[ROOT := 1] && View().refctr == map[ROOT := 1]
      ensures View().pins == multiset{} && View().reqs == [] && fresh(names)
    {
      tree, lock := map[], map[ROOT := 0];
      names := new NodeTable(hash, NODE_TABLE_MIN_SIZE);
      nlookup, refctr, reqs := map[ROOT := 1], map[ROOT := 1], [];
      pins := multiset{};
    }

    /** lookup_node. */
    method LookupNode(l: Link) returns (r: Option<Id>)
      requires Valid()
      ensures r == Lookup(tree, l)
    {
      r := names.Find(l);
      LookupIs(r, l);
    }

    lemma LookupIs(r: Option<Id>, l: Link)
      requires Valid() && r == if l in names.model then Some(names.model[l]) else None
      ensures r == Lookup(tree, l)
    {
      var x := Lookup(tree, l);
      if x.Some? {
        assert x.value in tree && tree[x.value] == l;
      }
    }

    /** unlock_path; `k` nodes of the walk `p` from `dir` come before `end`. */
    method UnlockPath(dir: Id, wnode: Option<Id>, end: Option<Id>, ghost p: seq<Id>, ghost k: nat)
      requires Chain(tree, dir, p) && k <= |p| && ROOT !in tree
      requires forall n :: n in p ==> n in lock
      requires EndsAt(tree, dir, p, k, end)
      requires wnode.Some? ==> wnode.value in lock && lock[wnode.value] == TREELOCK_WRITE && wnode.value !in p
      requires forall i :: 0 <= i < k ==> lock[p[i]] > 0 || TREELOCK_WAIT_OFFSET < lock[p[i]] < TREELOCK_WRITE
      modifies this`lock
      ensures lock == Release(old(lock), p[..k], wnode)
    {
      ghost var before := lock;
      if wnode.Some? {
        assert lock[wnode.value] == TREELOCK_WRITE;
        lock := lock[wnode.value := 0];
      }
      WalkDown(dir, end, p, k);
      ReleaseTarget(before, p[..k], wnode);
    }

    /** The loop of unlock_path. */
    method WalkDown(dir: Id, end: Option<Id>, ghost p: seq<Id>, ghost k: nat)
      requires Chain(tree, dir, p) && k <= |p| && ROOT !in tree
      requires forall n :: n in p ==> n in lock
      requires EndsAt(tree, dir, p, k, end)
      requires forall i :: 0 <= i < k ==> lock[p[i]] > 0 || TREELOCK_WAIT_OFFSET < lock[p[i]] < TREELOCK_WRITE
      modifies this`lock
      ensures lock == Release(old(lock), p[..k], None)
    {
      ghost var before := lock;
      var node := dir;
      ghost var i := 0;
      ReleaseNone(before);
      while end != Some(node) && node != ROOT
        invariant 0 <= i <= k && lock == Release(before, p[..i], None)
        invariant node == NodeAt(tree, dir, p, i)
        decreases k - i
      {
        WalkStep(tree, dir, p, i, k, end);
        NotYet(tree, dir, p, i);
        ReleaseMore(before, p, i);
        assert lock[node] != 0 && lock[node] != TREELOCK_WAIT_OFFSET && lock[node] != TREELOCK_WRITE;
        var v := lock[node] - 1;
        if v == TREELOCK_WAIT_OFFSET {
          v := 0;
        }
        lock := lock[node := v];
        node := tree[node].parent;
        i := i + 1;
      }
      WalkEnd(tree, dir, p, i, k, end);
    }

    /** try_get_path with need_lock set. */
    method TryGetPath(r: Req) returns (err: Errno, path: string, hold: Hold)
      requires Valid() && Covers(tree, lock) && ROOT !in tree && r.Valid()
      modifies this`lock
      ensures match Try(tree, old(lock), r)
              case Granted(l, h) => err == Ok && lock == l && hold == h && path == FullText(tree, r)
              case Again(l) => err == EAGAIN && lock == l
              case NoEnt => err == ENOENT && lock == old(lock)
      ensures err == Ok && ProperNames(tree, r) ==> Spells(tree, r, path)
    {
      if ProperNames(tree, r) {
        PathSpells(tree, r);
      }
      path, hold := if r.name.Some? then "/" + r.name.value else "", Hold(r.dir, [], None);
      var wnode: Option<Id> := None;
      if r.wr {
        wnode := LookupNode(r.Entry());
        if wnode.Some? {
          TargetOffChain(tree, r);
          if lock[wnode.value] != 0 {
            if lock[wnode.value] > 0 {
              lock := lock[wnode.value := lock[wnode.value] + TREELOCK_WAIT_OFFSET];
            }
            err := EAGAIN;
            return;
          }
        }
      }
      var chain;
      err, path, chain := WalkUp(r.dir, wnode, path);
      hold := Hold(r.dir, chain, wnode);
    }

    /**
     The rest of try_get_path: write-lock the free target and walk up,
     read-locking; on meeting an unlinked or blocked node, undo (out_unlock).
     */
    method WalkUp(dir: Id, wnode: Option<Id>, tail: string) returns (err: Errno, path: string, chain: seq<Id>)
      requires Covers(tree, lock) && ROOT !in tree
      requires wnode.Some? ==> wnode.value in lock && lock[wnode.value] == 0 && wnode.value !in ChainOf(tree, dir)
      modifies this`lock
      ensures var p := ChainOf(tree, dir);
        err == if Blocked(old(lock), p) then EAGAIN else if Top(tree, dir, p) != ROOT then ENOENT else Ok
      ensures if err == Ok then lock == Take(old(lock), ChainOf(tree, dir), wnode) else lock == old(lock)
      ensures err == Ok ==> path == Slashed(Text(tree, dir, tail)) && chain == ChainOf(tree, dir)
    {
      ghost var p := ChainOf(tree, dir);
      ghost var before := lock;
      if wnode.Some? {
        lock := lock[wnode.value := TREELOCK_WRITE];
      }
      ChainNamed(tree, dir, p);
      TakeNone(before, p, wnode);
      var node;
      node, path, chain := Climb(dir, wnode, tail, before, p);
      ghost var i := |chain|;
      if node == ROOT {
        WalkRoot(tree, dir, p, i);
        NotBlocked(before, p);
        path := Slashed(path);
        err := Ok;
      } else {
        GiveUp(before, p, i, wnode);
        UnlockPath(dir, wnode, Some(node), p, i);
        if node !in tree {
          WalkStop(tree, dir, p, i);
          NotBlocked(before, p);
          err := ENOENT;
        } else {
          WalkOn(tree, dir, p, i);
          err := EAGAIN;
        }
      }
    }

    /** The loop of try_get_path; `p` is the whole walk. */
    method Climb(dir: Id, wnode: Option<Id>, tail: string, ghost before: Locks, ghost p: seq<Id>)
      returns (node: Id, path: string, chain: seq<Id>)
      requires Chain(tree, dir, p) && ROOT !in tree && lock == Take(before, [], wnode)
      requires forall n :: n in p ==> n in tree && n in before && wnode != Some(n)
      modifies this`lock
      ensures |chain| <= |p| && chain == p[..|chain|] && node == NodeAt(tree, dir, p, |chain|)
      ensures node == ROOT || node !in tree || Blocked(before, p)
      ensures lock == Take(before, chain, wnode) && Clear(before, chain)
      ensures PathText(tree, p[|chain|..], path) == PathText(tree, p, tail)
    {
      ghost var t := tree;
      node, path, chain := dir, tail, [];
      assert p[0..] == p && p[..0] == [];
      NodeLive(t, dir, p, 0);
      ghost var i := 0;
      while node != ROOT && node in tree && lock[node] >= 0
        invariant tree == t && (node in t ==> node in lock)
        invariant i <= |p| && chain == p[..i] && node == NodeAt(t, dir, p, i)
        invariant lock == Take(before, p[..i], wnode) && Clear(before, p[..i])
        invariant PathText(t, p[i..], path) == PathText(t, p, tail)
        decreases |p| - i
      {
        ClimbStep(t, before, dir, p, i, wnode, path);
        path := "/" + tree[node].name + path;
        lock := lock[node := lock[node] + 1];
        chain := chain + [node];
        node := tree[node].parent;
        i := i + 1;
        NodeLive(t, dir, p, i);
      }
      if node != ROOT && node in tree {
        ClimbStep(t, before, dir, p, i, wnode, path);
      }
    }

    // ----- the lock queue ---------------------------------------------------

    /** unlock_path for one side of request `i`, if it is locked. */
    method UnlockSide(i: nat, j: Side)
      requires SlotAt(View(), i, j) && PathAt(View(), i) && Unlockable(View(), i, j)
      modifies this`lock, this`reqs
      ensures View() == DropSlot(old(View()), i, j)
    {
      var e := reqs[i];
      var h := HoldOf(e, j);
      if h.Some? {
        HeldLocks(lock, reqs, i, j);
        UnlockPath(h.value.dir, h.value.wnode, None, h.value.chain, |h.value.chain|);
        assert h.value.chain[..|h.value.chain|] == h.value.chain;
        reqs := reqs[i := WithHold(e, j, None)];
      }
    }

    /** queue_element_unlock. */
    method QueueElementUnlock(i: nat)
      requires PathAt(View(), i) && Core(View(), multiset{})
      modifies this`lock, this`reqs
      ensures View() == UnlockElem(old(View()), i)
    {
      ghost var s := View();
      CoreUnlockable(s, i, First);
      UnlockSide(i, First);
      if reqs[i].r2.Some? {
        SecondUnlockable(s, i);
        UnlockSide(i, Second);
      }
    }

    /** try_get_path for one side of request `i`. */
    method TrySide(i: nat, j: Side) returns (err: Errno)
      requires Valid() && Covers(tree, lock) && ROOT !in tree && SlotAt(View(), i, j) && PathAt(View(), i)
      modifies this`lock, this`reqs
      ensures Tried(View(), err) == TrySlot(old(View()), i, j)
    {
      var path, hold;
      err, path, hold := TryGetPath(ReqOf(reqs[i], j));
      if err == Ok {
        reqs := reqs[i := WithHold(reqs[i], j, Some(hold))];
      }
    }

    method SetDone(i: nat, failed: bool)
      requires PathAt(View(), i)
      modifies this`reqs
      ensures View() == Finish(old(View()), i, failed)
    {
      reqs := reqs[i := reqs[i].(done := true, failed := failed)];
    }

    /** The guard on each try of queue_element_wakeup: only for a path that is wanted and not locked yet. */
    method TryIfNeeded(i: nat, j: Side) returns (err: Errno)
      requires Valid() && Core(View(), multiset{}) && PathAt(View(), i)
      modifies this`lock, this`reqs
      ensures Valid() && Core(View(), multiset{}) && PathAt(View(), i)
      ensures Tried(View(), err) == PathState.TryIfNeeded(old(View()), i, j)
    {
      TryIfNeededCore(View(), i, j);
      err := Ok;
      if (j.First? || reqs[i].r2.Some?) && HoldOf(reqs[i], j).None? {
        err := TrySide(i, j);
      }
    }

    /** queue_element_wakeup. */
    method QueueElementWakeup(i: nat)
      requires Valid() && Core(View(), multiset{}) && i < |reqs|
      requires reqs[i].Path? ==> PathAt(View(), i)
      modifies this`lock, this`reqs
      ensures View() == WakeElem(old(View()), i)
    {
      if reqs[i].Waiter? || !reqs[i].queued {
        return;
      }
      var first := forall k :: 0 <= k < i ==> !reqs[k].InQueue();
      assert first == IsHead(reqs, i);
      var err := TryIfNeeded(i, First);
      if err == ENOENT {
        QueueElementUnlock(i);
        SetDone(i, true);
      } else {
        SecondHalf(i, first);
      }
    }

    /** queue_element_wakeup from the second path on. */
    method SecondHalf(i: nat, first: bool)
      requires Valid() && Core(View(), multiset{}) && PathAt(View(), i)
      modifies this`lock, this`reqs
      ensures View() == WakeSecond(old(View()), i, first)
    {
      var err := TryIfNeeded(i, Second);
      if err == ENOENT {
        QueueElementUnlock(i);
        SetDone(i, true);
      } else if reqs[i].Full() {
        SetDone(i, false);
      } else if !first {
        QueueElementUnlock(i);
      }
    }

    /** wake_up_queued: the pass over the queue that every free_path makes. */
    method WakeUpQueued()
      requires Valid() && Inv(View()) && Ready(View())
      modifies this`lock, this`reqs
      ensures View() == WakeFrom(old(View()), 0)
    {
      ghost var s := View();
      var i := 0;
      PassStart(s);
      while i < |reqs|
        invariant Valid() && Pass(s, i, View())
      {
        WakeUpOne(s, i);
        i := i + 1;
      }
      PassDone(s, i, View());
    }

    /** One turn of that pass, which began in `s`. */
    method WakeUpOne(ghost s: State, i: nat)
      requires Valid() && Ready(s) && Inv(s) && Pass(s, i, View()) && i < |s.reqs|
      modifies this`lock, this`reqs
      ensures Valid() && Pass(s, i + 1, View())
    {
      ghost var u := View();
      PassStep(s, i, u);
      QueueElementWakeup(i);
      assert View() == WakeElem(u, i);
    }

    // ----- requests ---------------------------------------------------------

    /** get_path_common and get_path2, up to the wait: granted, queued, or turned away. */
    method GetPath(r1: Req, r2: Option<Req>) returns (err: Errno)
      requires Valid() && Inv(View()) && Presentable(View(), r1) && (r2.Some? ==> Presentable(View(), r2.value))
      requires Admissible(View(), NewElem(r1, r2))
      modifies this`lock, this`reqs
      ensures Valid() && View() == PathArrivals.GetPath(old(View()), r1, r2)
      ensures err == Ok <==> |reqs| == |old(reqs)| + 1 && !reqs[|old(reqs)|].queued
      ensures err == ENOENT <==> |reqs| == |old(reqs)|
    {
      NewArriving(View(), r1, r2);
      var i := |reqs|;
      reqs := reqs + [NewElem(r1, r2)];
      err := TryBoth(i);
      if err == EAGAIN {
        reqs := reqs[i := reqs[i].(queued := true)];
      } else if err == ENOENT {
        reqs := Without(reqs, i);
      }
    }

    /** try_get_path2, or try_get_path alone if there is no second path. */
    method TryBoth(i: nat) returns (err: Errno)
      requires Valid() && Core(View(), multiset{}) && PathAt(View(), i) && reqs[i].h1.None? && reqs[i].h2.None?
      modifies this`lock, this`reqs
      ensures Valid() && Covers(tree, old(lock)) && PathAt(View(), i)
      ensures Tried(View(), err) == BothTried(old(View()), i)
    {
      ghost var s := View();
      err := TrySide(i, First);
      TrySlotCore(s, i, First, multiset{});
      if err == Ok && reqs[i].r2.Some? {
        err := TryOther(i);
      }
    }

    /** The second half of try_get_path2: if it fails the first path is unlocked again. */
    method TryOther(i: nat) returns (err: Errno)
      requires Valid() && Core(View(), multiset{}) && PathAt(View(), i) && reqs[i].r2.Some? && reqs[i].h2.None?
      modifies this`lock, this`reqs
      ensures Valid() && Covers(tree, old(lock)) && err == TrySlot(old(View()), i, Second).err
      ensures View() == var b := TrySlot(old(View()), i, Second).state; if err == Ok then b else DropSlot(b, i, First)
    {
      ghost var s := View();
      err := TrySide(i, Second);
      TrySlotCore(s, i, Second, multiset{});
      if err != Ok {
        CoreUnlockable(View(), i, First);
        UnlockSide(i, First);
      }
    }

    /** free_path, free_path_wrlock and free_path2. */
    method FreePath(i: nat)
      requires Valid() && Inv(View()) && PathAt(View(), i)
      modifies this`lock, this`reqs
      ensures Valid() && Ready(Freed(old(View()), i)) && View() == Free(old(View()), i)
    {
      FreedInv(View(), i);
      QueueElementUnlock(i);
      reqs := Without(reqs, i);
      WakeUpQueued();
    }

    // ----- the tree ---------------------------------------------------------

    /** find_node with a name; `n` is what next_id returns. */
    method FindNode(l: Link, n: Id) returns (node: Id)
      requires Valid() && TreeInv(View()) && l.parent in lock && n !in lock
      modifies this`tree, names, this`lock, this`nlookup, this`refctr
      ensures Valid() && View() == PathNodes.FindNode(old(View()), l, n)
      ensures Lookup(tree, l) == Some(node) && node in nlookup && nlookup[node] > 0
      ensures node == (if Lookup(old(tree), l).Some? then Lookup(old(tree), l).value else n)
      ensures tree == if Lookup(old(tree), l).Some? then old(tree) else old(tree)[n := l]
      ensures forall m :: Known(View(), m) == Known(old(View()), m) + if m == node then 1 else 0
    {
      var r := LookupNode(l);
      if r.Some? {
        node := r.value;
        IncLookup(node);
      } else {
        node := n;
        NewNode(l, n);
      }
    }

    /** inc_nlookup. */
    method IncLookup(n: Id)
      requires n in nlookup && n in refctr
      modifies this`nlookup, this`refctr
      ensures View() == PathNodes.IncLookup(old(View()), n)
    {
      if nlookup[n] == 0 {
        refctr := refctr[n := refctr[n] + 1];
      }
      nlookup := nlookup[n := nlookup[n] + 1];
    }

    /** The allocating half of find_node. */
    method NewNode(l: Link, n: Id)
      requires Valid() && l.parent in refctr && n !in tree && n !in refctr && Lookup(tree, l) == None
      modifies this`tree, names, this`lock, this`nlookup, this`refctr
      ensures Valid() && View() == PathMoves.HashName(Allocate(old(View()), n), n, l) && Lookup(tree, l) == Some(n)
    {
      lock, nlookup, refctr := lock[n := 0], nlookup[n := 1], refctr[n := 1];
      FreeEntry(l);
      HashName(n, l);
      InverseUnique(tree, names.model);
      Hashed(tree, n, l);
    }

    /** forget_node once it need not wait. */
    method ForgetNode(n: Id, k: nat)
      requires Valid() && Core(View(), multiset{}) && n in lock && n != ROOT && 1 <= k
      requires k + Sum(Waits(n), reqs) <= nlookup[n] && (k == nlookup[n] && pins[n] == 0 ==> Unneeded(View(), n))
      modifies this`tree, names, this`lock, this`nlookup, this`refctr
      ensures Valid() && View() == PathNodes.ForgetNode(old(View()), n, k)
      ensures forall m :: Known(View(), m) == Known(old(View()), m) - if m == n then k else 0
      ensures old(nlookup[n] == k && pins[n] == 0 && Children(tree, n) == {}) ==> n !in lock
    {
      ForgetCounts(View(), n, k);
      DropLookups(n, k);
    }

    method DropLookups(n: Id, k: nat)
      requires Valid() && Core(View(), multiset{}) && n in lock && n != ROOT && 1 <= k
      requires k + Sum(Waits(n), reqs) <= nlookup[n] && (k == nlookup[n] && pins[n] == 0 ==> Unneeded(View(), n))
      modifies this`tree, names, this`lock, this`nlookup, this`refctr
      ensures Valid() && View() == PathNodes.ForgetNode(old(View()), n, k)
    {
      ghost var s := View();
      nlookup := nlookup[n := nlookup[n] - k];
      if nlookup[n] == 0 {
        ForgetMeans(s, View(), n, multiset{n});
        UnrefNode(n, ChainOf(tree, n));
      }
    }

    /** remove_node for the running request `i`, which has locked the entry. */
    method RemoveNode(i: nat)
      requires Valid() && Core(View(), multiset{}) && Changer(View(), i, First) && !reqs[i].committed
      modifies this`tree, names, this`lock, this`nlookup, this`refctr
      ensures Valid() && View() == PathOps.RemoveNode(old(View()), EntryAt(old(View()), i, First))
      ensures tree == old(tree) - Single(Lookup(old(tree), old(reqs[i].r1.Entry())))
    {
      ghost var u := PathOps.RemoveCore(View(), i, First);
      var node := LookupNode(reqs[i].r1.Entry());
      if node.Some? {
        EntryHeld(View(), i, First, node.value);
        CutCore(View(), node.value, {});
        UnhashName(node.value);
      }
    }

    /** unref_node, with delete_node and the cascade; `p` is the walk from `n`. */
    method UnrefNode(n: Id, ghost p: seq<Id>)
      requires Valid() && Core(View(), multiset{n}) && n in lock && Chain(tree, n, p)
      modifies this`tree, names, this`lock, this`nlookup, this`refctr
      ensures Valid() && View() == Unref(old(View()), n, p)
      decreases |p|, 1
    {
      ghost var s := View();
      assert RefOk(s, multiset{n}, n);
      if refctr[n] > 1 {
        refctr := refctr[n := refctr[n] - 1];
      } else {
        UnrefLast(n, p);
      }
    }

    /** unref_node when the count reaches zero: delete_node, and the reference on the parent. */
    method UnrefLast(n: Id, ghost p: seq<Id>)
      requires Valid() && Core(View(), multiset{n}) && n in lock && n in refctr && refctr[n] == 1 && Chain(tree, n, p)
      modifies this`tree, names, this`lock, this`nlookup, this`refctr
      ensures Valid() && View() == Unref(old(View()), n, p)
      decreases |p|, 0
    {
      ghost var s := View();
      LastErased(s, n);
      var parent := if n in tree then Some(tree[n].parent) else None;
      DeleteNode(n);
      if parent.Some? {
        ErasedChain(s.tree, n, p);
        UnrefNode(parent.value, p[1..]);
      }
    }

    /** delete_node up to the reference on the parent. */
    method DeleteNode(n: Id)
      requires Valid() && n in lock && lock[n] == 0
      modifies this`tree, names, this`lock, this`nlookup, this`refctr
      ensures Valid() && View() == Erase(old(View()), n)
    {
      ForgetName(n);
      lock, nlookup, refctr := lock - {n}, nlookup - {n}, refctr - {n};
    }

    /** Taking a node out of its hash chain. */
    method ForgetName(n: Id)
      requires Valid()
      modifies this`tree, names
      ensures Valid() && tree == old(tree) - {n}
    {
      if n in tree {
        names.Unhash(tree[n], n);
      }
      tree := tree - {n};
    }

    /** unhash_name; the reference on the parent may be its last. */
    method UnhashName(n: Id)
      requires Valid() && n in tree && Core(Cut(View(), n), multiset{tree[n].parent}) && tree[n].parent in lock
      requires Acyclic(tree)
      modifies this`tree, names, this`lock, this`nlookup, this`refctr
      ensures Valid() && View() == PathMoves.UnhashName(old(View()), n)
    {
      var d := tree[n].parent;
      ErasedAcyclic(tree, n);
      ForgetName(n);
      UnrefNode(d, ChainOf(tree, d));
    }

    /** hash_name. */
    method HashName(n: Id, l: Link)
      requires Valid() && n !in tree && l !in names.model && l.parent in refctr
      modifies this`tree, names, this`refctr
      ensures Valid() && View() == PathMoves.HashName(old(View()), n, l)
    {
      refctr := refctr[l.parent := refctr[l.parent] + 1];
      InverseHashed(tree, names.model, n, l);
      names.Hash(l, n);
      tree := tree[n := l];
    }

    /** unhash_name of a node the caller has write-locked. */
    method UnhashOwned(n: Option<Id>, ghost i: nat, ghost a: set<Id>)
      requires Valid() && Core(View(), multiset{}) && GoneOk(View(), a)
      requires n.Some? ==> n.value in tree && Owns(View(), i, n.value) && Named(View(), tree[n.value].parent)
      modifies this`tree, names, this`lock, this`nlookup, this`refctr
      ensures Valid() && View() == UnhashOpt(old(View()), n)
    {
      if n.Some? {
        CutCore(View(), n.value, a);
        UnhashName(n.value);
      }
    }

    method HashOwned(n: Option<Id>, l: Link)
      requires Valid() && (n.Some? ==> n.value !in tree && l !in names.model && l.parent in refctr)
      modifies this`tree, names, this`refctr
      ensures Valid() && View() == HashOpt(old(View()), n, l)
    {
      if n.Some? {
        HashName(n.value, l);
      }
    }

    /** Both unhash_name calls of rename_node and exchange_node. */
    method UnhashBoth(m: Option<Id>, n: Option<Id>, ghost i: nat)
      requires Valid() && Core(View(), multiset{})
      requires m.Some? ==> m.value in tree && Owns(View(), i, m.value) && Named(View(), tree[m.value].parent)
      requires n.Some? ==> n.value in tree && Owns(View(), i, n.value) && Named(View(), tree[n.value].parent)
      requires m.Some? ==> m != n
      modifies this`tree, names, this`lock, this`nlookup, this`refctr
      ensures Valid() && View() == UnhashOpt(UnhashOpt(old(View()), m), n)
    {
      ghost var u := TakeOut(View(), i, m, {});
      UnhashOwned(m, i, {});
      UnhashOwned(n, i, Single(m));
    }

    /** rename_node for the running request `i`, which has locked both entries. */
    method RenameNode(i: nat)
      requires Valid() && Core(View(), multiset{}) && Mover(View(), i) && !reqs[i].committed
      modifies this`tree, names, this`lock, this`nlookup, this`refctr, this`reqs
      ensures Valid()
      ensures View() == PathOps.RenameNode(Commit(old(View()), i), EntryAt(old(View()), i, First), EntryAt(old(View()), i, Second), false)
      ensures Renamed(old(tree), tree, old(reqs[i].r1.Entry()), old(reqs[i].r2.value.Entry()))
    {
      ghost var u := RenameCore(View(), i);
      CommitLocated(View(), i);
      reqs := reqs[i := reqs[i].(committed := true)];
      MoveEntry(i);
    }

    method MoveEntry(i: nat)
      requires Valid() && Core(View(), multiset{}) && Mover(View(), i)
      requires Located(View(), i, First, Lookup(tree, EntryAt(View(), i, First)))
      requires Located(View(), i, Second, Lookup(tree, EntryAt(View(), i, Second)))
      requires EntryAt(View(), i, First) != EntryAt(View(), i, Second)
      modifies this`tree, names, this`lock, this`nlookup, this`refctr
      ensures Valid()
      ensures View() == PathOps.RenameNode(old(View()), EntryAt(old(View()), i, First), EntryAt(old(View()), i, Second), false)
    {
      ghost var s := View();
      var src, dst := reqs[i].r1.Entry(), reqs[i].r2.value.Entry();
      var node := LookupNode(src);
      var newnode := LookupNode(dst);
      if node.Some? {
        TwoEntries(tree, src, dst);
        ghost var u := TakeBoth(s, i, newnode, node);
        UnhashBoth(newnode, node, i);
        AfterTaking(u, i, dst);
        FreeEntry(dst);
        HashOwned(node, dst);
      }
    }

    /** exchange_node for the running request `i`, which has locked both entries. */
    method ExchangeNode(i: nat)
      requires Valid() && Core(View(), multiset{}) && Mover(View(), i) && !reqs[i].committed
      modifies this`tree, names, this`lock, this`nlookup, this`refctr, this`reqs
      ensures Valid()
      ensures View() == PathOps.ExchangeNode(Commit(old(View()), i), EntryAt(old(View()), i, First), EntryAt(old(View()), i, Second))
      ensures Exchanged(old(tree), tree, old(reqs[i].r1.Entry()), old(reqs[i].r2.value.Entry()))
    {
      ghost var u := ExchangeCore(View(), i);
      CommitLocated(View(), i);
      reqs := reqs[i := reqs[i].(committed := true)];
      SwapEntries(i);
    }

    method SwapEntries(i: nat)
      requires Valid() && Core(View(), multiset{}) && Mover(View(), i)
      requires Located(View(), i, First, Lookup(tree, EntryAt(View(), i, First)))
      requires Located(View(), i, Second, Lookup(tree, EntryAt(View(), i, Second)))
      requires EntryAt(View(), i, First) != EntryAt(View(), i, Second)
      modifies this`tree, names, this`lock, this`nlookup, this`refctr
      ensures Valid()
      ensures View() == PathOps.ExchangeNode(old(View()), EntryAt(old(View()), i, First), EntryAt(old(View()), i, Second))
    {
      ghost var s := View();
      var src, dst := reqs[i].r1.Entry(), reqs[i].r2.value.Entry();
      var oldnode := LookupNode(src);
      var newnode := LookupNode(dst);
      TwoEntries(tree, src, dst);
      ghost var u := TakeBoth(s, i, oldnode, newnode);
      UnhashBoth(oldnode, newnode, i);
      AfterTaking(u, i, src);
      AfterTaking(u, i, dst);
      HashBoth(oldnode, newnode, src, dst);
    }

    /** Both hash_name calls of exchange_node. */
    method HashBoth(m: Option<Id>, n: Option<Id>, src: Link, dst: Link)
      requires Valid() && src != dst && Lookup(tree, src) == None && Lookup(tree, dst) == None
      requires src.parent in refctr && dst.parent in refctr
      requires (m.Some? ==> m.value !in tree && m != n) && (n.Some? ==> n.value !in tree)
      modifies this`tree, names, this`refctr
      ensures Valid() && View() == HashOpt(HashOpt(old(View()), m, dst), n, src)
    {
      FreeEntry(src);
      FreeEntry(dst);
      HashOwned(m, dst);
      HashOwned(n, src);
    }

    lemma FreeEntry(l: Link)
      requires Valid() && Lookup(tree, l) == None
      ensures l !in names.model
    {
    }
  }

  lemma InverseHashed(t: Tree, m: map<Link, Id>, n: Id, l: Link)
    requires Inverse(t, m) && n !in t && l !in m
    ensures Inverse(t[n := l], m[l := n])
  {
  }

  lemma InverseUnique(t: Tree, m: map<Link, Id>)
    requires Inverse(t, m)
    ensures Unique(t)
  {
  }

  lemma Hashed(t: Tree, n: Id, l: Link)
    requires n in t && t[n] == l && Unique(t)
    ensures Lookup(t, l) == Some(n)
  {
  }

  /** From now on the request's nodes may hang below either of its directories. */
  lemma CommitLocated(s: State, i: nat)
    requires Core(s, multiset{}) && Mover(s, i) && !s.reqs[i].committed
    ensures var c := Commit(s, i);
      && Core(c, multiset{}) && Mover(c, i) && EntryAt(c, i, First) != EntryAt(c, i, Second)
      && EntryAt(c, i, First) == EntryAt(s, i, First) && EntryAt(c, i, Second) == EntryAt(s, i, Second)
      && Located(c, i, First, Lookup(c.tree, EntryAt(c, i, First)))
      && Located(c, i, Second, Lookup(c.tree, EntryAt(c, i, Second)))
  {
    CommitCore(s, i);
    EntriesDiffer(s, i);
    LocatedAfterCommit(s, i, First);
    LocatedAfterCommit(s, i, Second);
  }

  /** The directories of a mover are live, whatever has been unhashed. */
  lemma AfterTaking(u: State, i: nat, l: Link)
    requires Core(u, multiset{}) && Mover(u, i) && (l == EntryAt(u, i, First) || l == EntryAt(u, i, Second))
    ensures l.parent in u.refctr
  {
    SlotFacts(u, multiset{}, i, First);
    SlotFacts(u, multiset{}, i, Second);
  }

  // ----- steps of the walks -------------------------------------------------

  /** The node a walk stands on after `i` steps. */
  ghost function NodeAt(t: Tree, d: Id, p: seq<Id>, i: nat): Id
    requires Chain(t, d, p) && i <= |p|
  {
    if i < |p| then p[i] else Top(t, d, p)
  }

  /** `end` stops the walk after `k` steps: a node on it, or the root if there is none. */
  ghost predicate EndsAt(t: Tree, d: Id, p: seq<Id>, k: nat, end: Option<Id>)
    requires Chain(t, d, p) && k <= |p|
  {
    if end.None? then k == |p| && Top(t, d, p) == ROOT else end.value == NodeAt(t, d, p, k)
  }

  lemma {:induction false} TopParent(t: Tree, d: Id, p: seq<Id>, i: nat)
    requires Chain(t, d, p) && i < |p|
    ensures p[i] in t && t[p[i]].parent == if i + 1 < |p| then p[i + 1] else Top(t, d, p)
    decreases i
  {
    ChainSuffix(t, d, p, i);
    if i + 1 < |p| {
      assert p[i..][1..] == p[i + 1..];
    } else {
      assert p[i..][1..] == [];
    }
  }

  lemma WalkOn(t: Tree, d: Id, p: seq<Id>, i: nat)
    requires Chain(t, d, p) && i <= |p| && NodeAt(t, d, p, i) in t
    ensures i < |p| && p[i] == NodeAt(t, d, p, i) && t[p[i]].parent == NodeAt(t, d, p, i + 1)
  {
    TopUnnamed(t, d, p);
    TopParent(t, d, p, i);
  }

  lemma WalkStop(t: Tree, d: Id, p: seq<Id>, i: nat)
    requires Chain(t, d, p) && i <= |p| && NodeAt(t, d, p, i) !in t
    ensures i == |p|
  {
    if i < |p| {
      TopParent(t, d, p, i);
    }
  }

  lemma WalkRoot(t: Tree, d: Id, p: seq<Id>, i: nat)
    requires Chain(t, d, p) && i <= |p| && ROOT !in t && NodeAt(t, d, p, i) == ROOT
    ensures i == |p|
  {
    WalkStop(t, d, p, i);
  }

  lemma NotYet(t: Tree, d: Id, p: seq<Id>, i: nat)
    requires Chain(t, d, p) && i < |p|
    ensures p[i] !in p[..i]
  {
    if p[i] in p[..i] {
      var j: nat :| j < i && p[..i][j] == p[i];
      ChainDistinct(t, d, p, j, i);
      assert false;
    }
  }

  lemma WalkStep(t: Tree, d: Id, p: seq<Id>, i: nat, k: nat, end: Option<Id>)
    requires Chain(t, d, p) && i <= k <= |p| && ROOT !in t
    requires EndsAt(t, d, p, k, end) && end != Some(NodeAt(t, d, p, i)) && NodeAt(t, d, p, i) != ROOT
    ensures i < k && p[i] in t && p[i] == NodeAt(t, d, p, i) && t[p[i]].parent == NodeAt(t, d, p, i + 1)
  {
    if i < |p| {
      TopParent(t, d, p, i);
    }
  }

  lemma WalkEnd(t: Tree, d: Id, p: seq<Id>, i: nat, k: nat, end: Option<Id>)
    requires Chain(t, d, p) && i <= k <= |p| && ROOT !in t
    requires EndsAt(t, d, p, k, end) && (end == Some(NodeAt(t, d, p, i)) || NodeAt(t, d, p, i) == ROOT)
    ensures i == k
  {
    TopUnnamed(t, d, p);
    if i < |p| {
      TopParent(t, d, p, i);
      if i < k < |p| {
        TopParent(t, d, p, k);
        ChainDistinct(t, d, p, i, k);
      }
    }
  }

  /** `u` is what the first `i` turns of a pass make of `s`. */
  ghost predicate Pass(s: State, i: nat, u: State)
    requires Ready(s)
  {
    i <= |s.reqs| == |u.reqs| && Ready(u) && WakeFrom(u, i) == WakeFrom(s, 0) && (Inv(s) ==> Inv(u))
  }

  lemma PassStart(s: State)
    requires Ready(s)
    ensures Pass(s, 0, s)
  {
  }

  lemma PassStep(s: State, i: nat, u: State)
    requires Ready(s) && Inv(s) && Pass(s, i, u) && i < |s.reqs|
    ensures Core(u, multiset{}) && (u.reqs[i].Path? ==> PathAt(u, i))
    ensures Pass(s, i + 1, WakeElem(u, i))
  {
    WakeElemInv(u, i);
    ReadyKept(u, WakeElem(u, i), i);
  }

  lemma PassDone(s: State, i: nat, u: State)
    requires Ready(s) && Pass(s, i, u) && i == |s.reqs|
    ensures u == WakeFrom(s, 0)
  {
  }

  /** What unlock_path may rely on. */
  ghost predicate Unlockable(s: State, i: nat, j: Side)
    requires SlotAt(s, i, j)
  {
    && LockInv(s.lock, s.reqs) && Sum(Slots, s.reqs) < INT_MAX && ROOT !in s.tree
    && (HoldOf(s.reqs[i], j).Some? ==>
          var h := HoldOf(s.reqs[i], j).value;
          && Chain(s.tree, h.dir, h.chain) && Top(s.tree, h.dir, h.chain) == ROOT
          && (forall n :: n in h.chain ==> n in s.lock)
          && (h.wnode.Some? ==> h.wnode.value in s.lock))
  }

  lemma CoreUnlockable(s: State, i: nat, j: Side)
    requires Core(s, multiset{}) && SlotAt(s, i, j)
    ensures Unlockable(s, i, j)
  {
    SlotFacts(s, multiset{}, i, j);
    if HoldOf(s.reqs[i], j).Some? {
      ChainNamed(s.tree, HoldOf(s.reqs[i], j).value.dir, HoldOf(s.reqs[i], j).value.chain);
    }
  }

  /** Giving the first path back leaves the second as releasable as it was. */
  lemma SecondUnlockable(s: State, i: nat)
    requires Core(s, multiset{}) && PathAt(s, i) && s.reqs[i].r2.Some?
    ensures Unlockable(DropSlot(s, i, First), i, Second)
  {
    var u := DropSlot(s, i, First);
    CoreUnlockable(s, i, Second);
    if s.reqs[i].h1.Some? {
      LockDrop(s.lock, s.reqs, i, First);
      SumUpdate(Slots, s.reqs, i, u.reqs[i]);
    }
  }

  lemma NodeLive(t: Tree, d: Id, p: seq<Id>, i: nat)
    requires Chain(t, d, p) && i <= |p|
    ensures NodeAt(t, d, p, i) in t ==> NodeAt(t, d, p, i) in p
  {
    TopUnnamed(t, d, p);
  }

  /** One step of try_get_path: the count, the text and the list of locked nodes move on together. */
  lemma ClimbStep(t: Tree, before: Locks, d: Id, p: seq<Id>, i: nat, w: Option<Id>, s: string)
    requires Chain(t, d, p) && i <= |p| && NodeAt(t, d, p, i) in t && Clear(before, p[..i])
    requires forall n :: n in p ==> n in t && n in before && w != Some(n)
    ensures i < |p| && p[i] == NodeAt(t, d, p, i) && t[p[i]].parent == NodeAt(t, d, p, i + 1)
    ensures p[..i] + [p[i]] == p[..i + 1]
    ensures var l := Take(before, p[..i], w);
      && p[i] in l && l[p[i] := l[p[i]] + 1] == Take(before, p[..i + 1], w)
      && (l[p[i]] < 0 ==> Blocked(before, p))
      && (l[p[i]] >= 0 ==> Clear(before, p[..i + 1]))
    ensures PathText(t, p[i..], s) == PathText(t, p[i + 1..], "/" + t[p[i]].name + s)
  {
    WalkOn(t, d, p, i);
    NotYet(t, d, p, i);
    TakeMore(before, p, i, w);
    TextStep(t, p, i, s);
  }

  // ----- the treelocks along the walk ---------------------------------------

  /** Nobody along `p` is write-locked or waited for. */
  ghost predicate Clear(before: Locks, p: seq<Id>) {
    forall n :: n in p ==> n in before && before[n] >= 0
  }

  lemma GiveUp(before: Locks, p: seq<Id>, i: nat, w: Option<Id>)
    requires i <= |p| && Clear(before, p[..i])
    requires w.Some? ==> w.value in before && before[w.value] == 0 && w.value !in p
    ensures Release(Take(before, p[..i], w), p[..i], w) == before
    ensures forall j :: 0 <= j < i ==> p[j] in before && Take(before, p[..i], w)[p[j]] > 0
    ensures w.Some? ==> Take(before, p[..i], w)[w.value] == TREELOCK_WRITE
  {
    TakeRelease(before, p[..i], w);
    forall j | 0 <= j < i ensures p[j] in before && Take(before, p[..i], w)[p[j]] > 0 {
      assert p[..i][j] == p[j] && p[j] in p[..i];
    }
  }

  lemma TakeNone(before: Locks, p: seq<Id>, w: Option<Id>)
    requires w.Some? ==> w.value in before
    ensures p[..0] == [] && p[0..] == p
    ensures Take(before, p[..0], w) == if w.Some? then before[w.value := TREELOCK_WRITE] else before
  {
  }

  lemma ReleaseNone(before: Locks)
    ensures Release(before, [], None) == before
  {
  }

  lemma ReleaseMore(before: Locks, p: seq<Id>, i: nat)
    requires i < |p| && p[i] in before && p[i] !in p[..i]
    ensures var l := Release(before, p[..i], None);
      l[p[i]] == before[p[i]] && l[p[i] := Drop(l[p[i]])] == Release(before, p[..i + 1], None)
  {
    assert p[..i + 1] == p[..i] + [p[i]];
  }

  lemma ReleaseTarget(before: Locks, p: seq<Id>, w: Option<Id>)
    requires w.Some? ==> w.value in before && w.value !in p
    ensures Release(if w.Some? then before[w.value := 0] else before, p, None) == Release(before, p, w)
  {
  }

  lemma NotBlocked(before: Locks, p: seq<Id>)
    requires Clear(before, p[..|p|])
    ensures !Blocked(before, p) && p[..|p|] == p && p[|p|..] == []
  {
    assert p[..|p|] == p;
  }

  lemma TakeMore(before: Locks, p: seq<Id>, i: nat, w: Option<Id>)
    requires i < |p| && p[i] in before && p[i] !in p[..i] && w != Some(p[i]) && Clear(before, p[..i])
    ensures var l := Take(before, p[..i], w);
      && l[p[i]] == before[p[i]] && l[p[i] := l[p[i]] + 1] == Take(before, p[..i + 1], w)
      && (l[p[i]] < 0 ==> Blocked(before, p))
      && (l[p[i]] >= 0 ==> Clear(before, p[..i + 1]))
  {
    assert p[..i + 1] == p[..i] + [p[i]];
    assert p[i] in p;
  }
}
