/**
 Who may move a node: a critical section changes the link of a write-locked
 node only, so what anybody has read-locked stays where it is.
 */
module PathLinks {
  import opened Forest
  import opened TreeLocks
  import PathNames
  import opened Requests
  import opened PathState
  import opened PathLocks
  import opened PathQueue
  import opened PathWake
  import opened PathOps
  import opened PathNodes
  import opened PathArrivals
  import opened PathRuns

  /** A locked node stays alive; a node that lives on and is not write-locked keeps its parent and its name. */
  ghost predicate Kept(s: State, u: State, n: Id) {
    && (n in s.lock && s.lock[n] != 0 ==> n in u.lock)
    && (n in s.tree && Sum(Writers(n), s.reqs) == 0 && n in u.lock ==> n in u.tree && u.tree[n] == s.tree[n])
  }

  /** `u` has the requests of `s`, and the nodes that live on have the same treelocks. */
  ghost predicate SameLocks(s: State, u: State) {
    u.reqs == s.reqs && forall n :: n in s.lock && n in u.lock ==> u.lock[n] == s.lock[n]
  }

  predicate SameNodes(s: State, u: State) {
    u.tree == s.tree && u.lock.Keys == s.lock.Keys
  }

  lemma {:induction false} WakeFromNodes(s: State, k: nat)
    requires Ready(s) && k <= |s.reqs|
    ensures SameNodes(s, WakeFrom(s, k))
    decreases |s.reqs| - k
  {
    if k < |s.reqs| {
      ReadyKept(s, WakeElem(s, k), k);
      WakeFromNodes(WakeElem(s, k), k + 1);
    }
  }

  lemma RequestsKeep(s: State, a: Action)
    requires Inv(s) && Allowed(s, a) && (a.Get? || a.Wake? || a.Done? || a.ForgetWait?)
    ensures SameNodes(s, Apply(s, a))
  {
    if a.Done? {
      FreedInv(s, a.i);
      WakeFromNodes(Freed(s, a.i), 0);
    }
  }

  lemma CommitSums(s: State, i: nat, n: Id)
    requires i < |s.reqs| && s.reqs[i].Path?
    ensures Sum(Writers(n), Commit(s, i).reqs) == Sum(Writers(n), s.reqs)
  {
    SameSums(s.reqs, i, s.reqs[i].(committed := true));
  }

  lemma MovesKeep(s: State, a: Action, n: Id)
    requires Inv(s) && Allowed(s, a) && (a.Unlink? || a.Hide? || a.Rename? || a.Exchange?)
    ensures Kept(s, Apply(s, a), n)
    ensures SameLocks(if a.Rename? || a.Exchange? then Commit(s, a.i) else s, Apply(s, a))
  {
    match a {
      case Unlink(i) =>
        var u := PathOps.RemoveCore(s, i, First);
      case Hide(i, j, name) =>
        var u := HideCore(s, i, j, name);
      case Rename(i) =>
        CommitSums(s, i, n);
        var u := RenameCore(s, i);
      case Exchange(i) =>
        CommitSums(s, i, n);
        var u := ExchangeCore(s, i);
    }
  }

  lemma ForgetKeeps(s: State, x: Id, k: nat, n: Id)
    requires Inv(s) && Allowed(s, Forget(x, k))
    ensures Kept(s, ForgetNode(s, x, k), n) && SameLocks(s, ForgetNode(s, x, k))
  {
    if k == s.nlookup[x] {
      UnlockedSpared(s, x);
    }
    var u := ForgetCore(s, x, k);
  }

  lemma ForgetResumeKeeps(s: State, i: nat, n: Id)
    requires Inv(s) && Allowed(s, ForgetResume(i))
    ensures Kept(s, Apply(s, ForgetResume(i)), n) && SameLocks(Remove(s, i), Apply(s, ForgetResume(i)))
  {
    var u := Remove(s, i);
    ResumeForgets(s, i);
    SumRemove(Writers(n), s.reqs, i);
    ForgetKeeps(u, s.reqs[i].node, s.reqs[i].count, n);
  }

  lemma NodesKeep(s: State, a: Action, n: Id)
    requires Inv(s) && Allowed(s, a) && (a.Find? || a.Again? || a.PinDot? || a.UnpinDot?)
    ensures Kept(s, Apply(s, a), n) && SameLocks(s, Apply(s, a))
  {
    match a {
      case UnpinDot(x) => UnpinKeeps(s, x, n);
      case _ =>
    }
  }

  lemma UnpinKeeps(s: State, x: Id, n: Id)
    requires Inv(s) && Allowed(s, UnpinDot(x))
    ensures Kept(s, Unpin(s, x), n) && SameLocks(s, Unpin(s, x))
  {
    var u := UnpinCore(s, x);
  }

  /** A critical section frees no locked node and moves none that is not write-locked. */
  lemma StepKeeps(s: State, a: Action, n: Id)
    requires Inv(s) && Allowed(s, a)
    ensures Kept(s, Apply(s, a), n)
  {
    match a {
      case Get(_, _) => RequestsKeep(s, a);
      case Wake(_) => RequestsKeep(s, a);
      case Done(_) => RequestsKeep(s, a);
      case ForgetWait(_, _) => RequestsKeep(s, a);
      case Unlink(_) => MovesKeep(s, a, n);
      case Hide(_, _, _) => MovesKeep(s, a, n);
      case Rename(_) => MovesKeep(s, a, n);
      case Exchange(_) => MovesKeep(s, a, n);
      case Find(_, _) => NodesKeep(s, a, n);
      case Again(_) => NodesKeep(s, a, n);
      case PinDot(_) => NodesKeep(s, a, n);
      case UnpinDot(_) => NodesKeep(s, a, n);
      case Forget(x, k) => ForgetKeeps(s, x, k, n);
      case ForgetResume(i) => ForgetResumeKeeps(s, i, n);
    }
  }

  /** No step of anybody changes the parent or the name of a node that some path has read-locked. */
  lemma ReadHeldKept(s: State, a: Action, n: Id)
    requires Inv(s) && Allowed(s, a) && Sum(Readers(n), s.reqs) > 0
    ensures n in s.tree && n in Apply(s, a).tree && Apply(s, a).tree[n] == s.tree[n]
  {
    ReaderAttached(s, multiset{}, n);
    assert LockOk(s.lock, s.reqs, n);
    ReadersBounded(s.reqs, n);
    StepKeeps(s, a, n);
  }

  lemma HeldNext(acts: seq<Action>, tr: seq<State>, k: nat, n: Id)
    requires Run(acts, tr) && k < |acts| && Sum(Readers(n), tr[k].reqs) > 0
    ensures n in tr[k].tree && n in tr[k + 1].tree && tr[k + 1].tree[n] == tr[k].tree[n]
  {
    RunInv(acts, tr, k);
    assert StepAt(acts, tr, k);
    ReadHeldKept(tr[k], acts[k], n);
  }

  ghost predicate ReadHeld(tr: seq<State>, k: nat, k': nat, n: Id)
    requires k' <= |tr|
  {
    forall q :: k <= q < k' ==> Sum(Readers(n), tr[q].reqs) > 0
  }

  /** As long as a node is read-locked throughout, it stays where it is, whatever is done meanwhile. */
  lemma {:induction false} HeldParentsFixed(acts: seq<Action>, tr: seq<State>, k: nat, k': nat, n: Id)
    requires Run(acts, tr) && k < k' < |tr| && ReadHeld(tr, k, k', n)
    ensures n in tr[k].tree && n in tr[k'].tree && tr[k'].tree[n] == tr[k].tree[n]
    decreases k'
  {
    var q := k' - 1;
    assert k <= q < k' && Sum(Readers(n), tr[q].reqs) > 0;
    HeldNext(acts, tr, q, n);
    if k < q {
      HeldParentsFixed(acts, tr, k, q, n);
    }
  }

  lemma {:induction false} SameWalk(t: Tree, u: Tree, d: Id, p: seq<Id>, text: string)
    requires Chain(t, d, p) && Top(t, d, p) !in u && forall n :: n in p ==> n in t && n in u && u[n] == t[n]
    ensures Chain(u, d, p) && PathNames.PathText(u, p, text) == PathNames.PathText(t, p, text)
    decreases |p|
  {
    if p != [] {
      SameWalk(t, u, t[d].parent, p[1..], "/" + t[d].name + text);
    }
  }

  /** As long as the chain of a path is read-locked, the path the file system was given is the path of the entry. */
  lemma HeldPathFixed(acts: seq<Action>, tr: seq<State>, k: nat, k': nat, r: Req)
    requires Run(acts, tr) && k < k' < |tr| && Acyclic(tr[k].tree) && Attached(tr[k].tree, r.dir)
    requires forall n :: n in ChainOf(tr[k].tree, r.dir) ==> ReadHeld(tr, k, k', n)
    ensures Acyclic(tr[k'].tree) && ChainOf(tr[k'].tree, r.dir) == ChainOf(tr[k].tree, r.dir)
    ensures PathNames.FullText(tr[k'].tree, r) == PathNames.FullText(tr[k].tree, r)
  {
    var t, u, p := tr[k].tree, tr[k'].tree, ChainOf(tr[k].tree, r.dir);
    RunInv(acts, tr, k');
    forall n | n in p ensures n in t && n in u && u[n] == t[n] {
      HeldParentsFixed(acts, tr, k, k', n);
    }
    SameWalk(t, u, r.dir, p, if r.name.Some? then "/" + r.name.value else "");
    ChainUnique(u, r.dir, p, ChainOf(u, r.dir));
  }
}
