/**
 What the invariant means for the users of the path locks, for every state of
 every run.
 */
module PathTheorems {
  import opened Basics
  import opened Forest
  import opened TreeLocks
  import opened Requests
  import opened PathState
  import opened PathLocks
  import opened PathOps
  import opened PathRuns

  /** A treelock is -1 exactly for a writer, and otherwise the number of readers, marked or not. */
  lemma TreelockExact(acts: seq<Action>, tr: seq<State>, k: nat, n: Id)
    requires Run(acts, tr) && k < |tr| && n in tr[k].lock
    ensures var s := tr[k]; var r := Sum(Readers(n), s.reqs); var w := Sum(Writers(n), s.reqs);
      && (s.lock[n] == TREELOCK_WRITE <==> w == 1)
      && w <= 1 && (w == 1 ==> r == 0)
      && (w == 0 ==> s.lock[n] == r || (r > 0 && s.lock[n] == TREELOCK_WAIT_OFFSET + r))
  {
    RunInv(acts, tr, k);
    ReadersBounded(tr[k].reqs, n);
    assert LockOk(tr[k].lock, tr[k].reqs, n);
  }

  predicate Holds(s: State, i: nat, j: Side) {
    i < |s.reqs| && Has(s.reqs[i], j) && HoldOf(s.reqs[i], j).Some?
  }

  function HoldAt(s: State, i: nat, j: Side): Hold
    requires Holds(s, i, j)
  {
    HoldOf(s.reqs[i], j).value
  }

  /** A node locked for writing by one path is locked by no other path in any way. */
  lemma MutualExclusion(acts: seq<Action>, tr: seq<State>, k: nat, i: nat, j: Side, i': nat, j': Side, n: Id)
    requires Run(acts, tr) && k < |tr| && Holds(tr[k], i, j) && Holds(tr[k], i', j')
    requires HoldAt(tr[k], i, j).wnode == Some(n)
    ensures n !in HoldAt(tr[k], i', j').chain
    ensures (i, j) != (i', j') ==> HoldAt(tr[k], i', j').wnode != Some(n)
  {
    RunInv(acts, tr, k);
    WriterAlone(tr[k], i, j, i', j', n);
  }

  lemma WriterAlone(s: State, i: nat, j: Side, i': nat, j': Side, n: Id)
    requires Core(s, multiset{}) && Holds(s, i, j) && Holds(s, i', j')
    requires HoldAt(s, i, j).wnode == Some(n)
    ensures n !in HoldAt(s, i', j').chain
    ensures (i, j) != (i', j') ==> HoldAt(s, i', j').wnode != Some(n)
  {
    SlotFacts(s, multiset{}, i, j);
    assert LockOk(s.lock, s.reqs, n);
    SumOne(Writers(n), s.reqs, i);
    SumOne(Readers(n), s.reqs, i');
    if i != i' {
      SumTwo(Writers(n), s.reqs, i, i');
    }
  }

  /** unlock_path walks exactly the nodes that try_get_path locked: the chain is still the directory's chain. */
  lemma HeldChainIntact(acts: seq<Action>, tr: seq<State>, k: nat, i: nat, j: Side)
    requires Run(acts, tr) && k < |tr| && Holds(tr[k], i, j)
    ensures var t := tr[k].tree; var h := HoldAt(tr[k], i, j);
      Acyclic(t) && h.chain == ChainOf(t, h.dir) && Top(t, h.dir, h.chain) == ROOT
  {
    RunInv(acts, tr, k);
    SlotFacts(tr[k], multiset{}, i, j);
    var h := HoldAt(tr[k], i, j);
    ChainUnique(tr[k].tree, h.dir, h.chain, ChainOf(tr[k].tree, h.dir));
  }

  /** A directory is never granted a place below itself: rename and exchange cannot make a loop. */
  lemma NeverBelowItself(acts: seq<Action>, tr: seq<State>, k: nat, i: nat)
    requires Run(acts, tr) && k < |tr| && Mover(tr[k], i) && !tr[k].reqs[i].committed
    ensures var s := tr[k]; Acyclic(s.tree)
    ensures var s := tr[k]; var m := Lookup(s.tree, EntryAt(s, i, First)); var n := Lookup(s.tree, EntryAt(s, i, Second));
      && (m.Some? ==> m.value !in ChainOf(s.tree, EntryAt(s, i, Second).parent))
      && (n.Some? ==> n.value !in ChainOf(s.tree, EntryAt(s, i, First).parent))
      && (m.Some? ==> m != n)
  {
    RunInv(acts, tr, k);
    var s := tr[k];
    HeldChainIntact(acts, tr, k, i, First);
    HeldChainIntact(acts, tr, k, i, Second);
    SlotFacts(s, multiset{}, i, First);
    SlotFacts(s, multiset{}, i, Second);
    EntriesDiffer(s, i);
    var m, n := Lookup(s.tree, EntryAt(s, i, First)), Lookup(s.tree, EntryAt(s, i, Second));
    if m.Some? {
      EntryHeld(s, i, First, m.value);
      WriterAlone(s, i, First, i, Second, m.value);
    }
    if n.Some? {
      EntryHeld(s, i, Second, n.value);
      WriterAlone(s, i, Second, i, First, n.value);
    }
  }

  /** A reference count is one for the lookups, one per child and one per pin; nobody lives with zero. */
  lemma RefctrExact(acts: seq<Action>, tr: seq<State>, k: nat, n: Id)
    requires Run(acts, tr) && k < |tr| && n in tr[k].lock
    ensures var s := tr[k];
      && n in s.refctr && n in s.nlookup && s.refctr[n] > 0
      && s.refctr[n] == Bit(s.nlookup[n] > 0) + |Children(s.tree, n)| + s.pins[n]
      && ROOT in s.lock && (n in s.tree ==> s.tree[n].parent in s.lock)
  {
    RunInv(acts, tr, k);
    assert RefOk(tr[k], multiset{}, n);
  }

  /** After any run at most one node has a given parent and name, and the tree has no cycle. */
  lemma NamesUnique(acts: seq<Action>, tr: seq<State>, k: nat, a: Id, b: Id)
    requires Run(acts, tr) && k < |tr| && a in tr[k].tree && b in tr[k].tree && tr[k].tree[a] == tr[k].tree[b]
    ensures a == b && HasChain(tr[k].tree, a)
  {
    RunInv(acts, tr, k);
  }

  /** Behind the head of the queue a request holds all it wants or nothing. */
  lemma QueueAllOrNothing(acts: seq<Action>, tr: seq<State>, k: nat, i: nat)
    requires Run(acts, tr) && k < |tr| && i < |tr[k].reqs| && tr[k].reqs[i].InQueue() && !IsHead(tr[k].reqs, i)
    ensures tr[k].reqs[i].Full() || tr[k].reqs[i].Empty()
  {
    RunInv(acts, tr, k);
    assert ShapeAt(tr[k].reqs, i);
  }

  /** A waiter that is told ENOENT holds nothing, one that is told success holds everything. */
  lemma DoneAllOrNothing(acts: seq<Action>, tr: seq<State>, k: nat, i: nat)
    requires Run(acts, tr) && k < |tr| && Allowed(tr[k], Wake(i))
    ensures if tr[k].reqs[i].failed then tr[k].reqs[i].Empty() else tr[k].reqs[i].Full()
  {
    RunInv(acts, tr, k);
    assert ShapeAt(tr[k].reqs, i);
  }
}
