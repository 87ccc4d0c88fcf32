/**
 The values a node's `treelock` takes, and the effect of one attempt to lock a
 path (try_get_path) and of one release (unlock_path) on all of them at once.
 */
module TreeLocks {
  import opened Basics
  import opened Forest

  const INT_MIN: int := -0x8000_0000
  const INT_MAX: int := 0x7fff_ffff
  const TREELOCK_WRITE: int := -1
  const TREELOCK_WAIT_OFFSET: int := INT_MIN

  type Locks = map<Id, int>

  /** One path a request wants: a directory, and the entry in it when `name` is given. */
  datatype Req = Req(dir: Id, name: Option<string>, wr: bool) {
    predicate Valid() { wr ==> name.Some? }

    function Entry(): Link
      requires name.Some?
    {
      Link(dir, name.value)
    }
  }

  /** One granted path: the read-locked chain and the write-locked child, if it exists. */
  datatype Hold = Hold(dir: Id, chain: seq<Id>, wnode: Option<Id>)

  datatype Attempt = Granted(lock: Locks, hold: Hold) | Again(lock: Locks) | NoEnt

  /** `v` is what a node with `r` readers and `w` writers carries. */
  predicate Encodes(v: int, r: nat, w: nat) {
    w <= 1 && if w == 1 then r == 0 && v == TREELOCK_WRITE
              else v == r || (r > 0 && v == TREELOCK_WAIT_OFFSET + r)
  }

  function Take(lock: Locks, p: seq<Id>, w: Option<Id>): Locks {
    map n | n in lock :: if w == Some(n) then TREELOCK_WRITE else if n in p then lock[n] + 1 else lock[n]
  }

  function Drop(v: int): int {
    if v - 1 == TREELOCK_WAIT_OFFSET then 0 else v - 1
  }

  function Release(lock: Locks, p: seq<Id>, w: Option<Id>): Locks {
    map n | n in lock :: if w == Some(n) then 0 else if n in p then Drop(lock[n]) else lock[n]
  }

  function Mark(lock: Locks, w: Id): Locks
    requires w in lock
  {
    if lock[w] > 0 then lock[w := lock[w] + TREELOCK_WAIT_OFFSET] else lock
  }

  ghost function Target(t: Tree, r: Req): Option<Id>
    requires r.Valid()
  {
    if r.wr then Lookup(t, r.Entry()) else None
  }

  /** The tree is acyclic and every node on it, with every parent, has a treelock. */
  ghost predicate Covers(t: Tree, lock: Locks) {
    Acyclic(t) && (forall n :: n in t ==> n in lock && t[n].parent in lock)
  }

  ghost predicate Blocked(lock: Locks, p: seq<Id>) {
    exists n :: n in p && n in lock && lock[n] < 0
  }

  /** try_get_path with need_lock: what the attempt leaves behind. */
  ghost function Try(t: Tree, lock: Locks, r: Req): (a: Attempt)
    requires r.Valid() && Covers(t, lock)
    ensures a.Granted? ==> a.lock == Take(lock, a.hold.chain, a.hold.wnode)
  {
    var w := Target(t, r);
    var p := ChainOf(t, r.dir);
    if w.Some? && lock[w.value] != 0 then Again(Mark(lock, w.value))
    else if Blocked(lock, p) then Again(lock)
    else if Top(t, r.dir, p) != ROOT then NoEnt
    else Granted(Take(lock, p, w), Hold(r.dir, p, w))
  }

  /** A child is never on the walk of its own parent. */
  lemma TargetOffChain(t: Tree, r: Req)
    requires r.Valid() && Acyclic(t) && Target(t, r).Some?
    ensures Target(t, r).value !in ChainOf(t, r.dir)
  {
    var w := Target(t, r).value;
    var p := ChainOf(t, r.dir);
    if w in p {
      var i: nat :| i < |p| && p[i] == w;
      ChainSuffix(t, r.dir, p, i);
      assert Chain(t, w, [w] + p) by { assert ([w] + p)[1..] == p; }
      ChainUnique(t, w, [w] + p, p[i..]);
      assert false;
    }
  }

  /** Taking a path and releasing it again restores every treelock, marks included. */
  lemma TakeRelease(lock: Locks, p: seq<Id>, w: Option<Id>)
    requires forall n :: n in p && n in lock ==> lock[n] >= 0
    requires w.Some? && w.value in lock ==> lock[w.value] == 0
    ensures Release(Take(lock, p, w), p, w) == lock
  {
  }

  /** A granted attempt found no writer and no waiting writer on the chain, and nobody at the target. */
  lemma GrantedMeans(t: Tree, lock: Locks, r: Req)
    requires r.Valid() && Covers(t, lock) && Try(t, lock, r).Granted?
    ensures var h := Try(t, lock, r).hold;
      && h.dir == r.dir && Chain(t, h.dir, h.chain) && Top(t, h.dir, h.chain) == ROOT
      && h.wnode == Target(t, r)
      && (forall n :: n in h.chain ==> n in lock && lock[n] >= 0 && h.wnode != Some(n))
      && (h.wnode.Some? ==> lock[h.wnode.value] == 0)
  {
    var p := ChainOf(t, r.dir);
    forall n | n in p ensures n in lock {
      var i: nat :| i < |p| && p[i] == n;
      ChainSuffix(t, r.dir, p, i);
    }
    if Target(t, r).Some? {
      TargetOffChain(t, r);
    }
  }
}
