/**
 Whole runs: every interleaving of the critical sections that `f->lock`
 protects, under the promises the kernel makes.
 */
module PathRuns {
  import opened Basics
  import opened Forest
  import opened TreeLocks
  import opened Requests
  import opened PathState
  import opened PathWake
  import opened PathOps
  import opened PathNodes
  import opened PathArrivals

  datatype Action =
    | Get(r1: Req, r2: Option<Req>)        // get_path, get_path_wrlock, get_path2
    | Wake(i: nat)                         // wait_path returns
    | Done(i: nat)                         // free_path, free_path_wrlock, free_path2
    | Unlink(i: nat)                       // remove_node
    | Hide(i: nat, j: Side, name: string)  // rename_node from hide_node
    | Rename(i: nat)                       // rename_node
    | Exchange(i: nat)                     // exchange_node
    | Find(l: Link, n: Id)                 // find_node with a name
    | Again(n: Id)                         // find_node without a name
    | Forget(n: Id, k: nat)                // forget_node that need not wait
    | ForgetWait(n: Id, k: nat)            // forget_node queues itself
    | ForgetResume(i: nat)                 // ... and goes on
    | PinDot(n: Id)                        // fuse_lib_lookup of "." takes a reference
    | UnpinDot(n: Id)                      // ... and drops it

  const Init: State := State(map[], map[ROOT := 0], map[ROOT := 1], map[ROOT := 1], multiset{}, [])

  /** No request that is still waiting for its path relies on `n` being looked up. */
  ghost predicate Spared(s: State, n: Id) {
    forall e, j :: e in s.reqs && Has(e, j) && HoldOf(e, j).None? ==> Spares(s, e, j, n)
  }

  /** A forget of `k` lookups stays within what the kernel has been given. */
  predicate Forgettable(s: State, n: Id, k: nat) {
    n in s.lock && n in s.nlookup && n != ROOT && 1 <= k && k + Sum(Waits(n), s.reqs) <= s.nlookup[n]
  }

  /** When a critical section may run: what the code waits for, and what the kernel promises. */
  ghost predicate Allowed(s: State, a: Action) {
    match a
    case Get(r1, r2) =>
      Presentable(s, r1) && (r2.Some? ==> Presentable(s, r2.value)) && Admissible(s, NewElem(r1, r2))
    case Wake(i) => i < |s.reqs| && s.reqs[i].Path? && s.reqs[i].queued && s.reqs[i].done
    case Done(i) => PathAt(s, i) && !s.reqs[i].queued
    case Unlink(i) => Changer(s, i, First) && !s.reqs[i].committed
    case Hide(i, j, name) =>
      Changer(s, i, j) && !s.reqs[i].committed && Sum(Changing(Link(ReqOf(s.reqs[i], j).dir, name)), s.reqs) == 0
    case Rename(i) => Mover(s, i) && !s.reqs[i].committed
    case Exchange(i) => Mover(s, i) && !s.reqs[i].committed
    case Find(l, n) =>
      l.parent in s.lock && n !in s.lock && (Lookup(s.tree, l).None? ==> Sum(Changing(l), s.reqs) == 0)
    case Again(n) => n in s.lock && n in s.nlookup && n in s.refctr
    case Forget(n, k) =>
      Forgettable(s, n, k) && (k == s.nlookup[n] ==> s.lock[n] == 0 && Spared(s, n))
    case ForgetWait(n, k) => Forgettable(s, n, k) && k == s.nlookup[n] && s.lock[n] != 0
    case ForgetResume(i) =>
      && i < |s.reqs| && s.reqs[i].Waiter?
      && s.reqs[i].node in s.lock && s.reqs[i].node in s.nlookup
      && (s.reqs[i].count == s.nlookup[s.reqs[i].node] ==> s.lock[s.reqs[i].node] == 0 && Spared(s, s.reqs[i].node))
    case PinDot(n) => n in s.lock && n in s.refctr
    case UnpinDot(n) => n in s.pins && n in s.nlookup && (s.pins[n] == 1 && s.nlookup[n] == 0 ==> Unneeded(s, n))
  }

  /**
   The state after a critical section. Where the code would walk a broken tree
   (and abort or loop) the state is left alone; `StepInv` shows it never does.
   */
  ghost function Apply(s: State, a: Action): State
    requires Allowed(s, a)
  {
    match a
    case Get(r1, r2) => if Covers(s.tree, s.lock) then GetPath(s, r1, r2) else s
    case Wake(i) => Return(s, i)
    case Done(i) => if Ready(Freed(s, i)) then Free(s, i) else s
    case Unlink(i) => RemoveNode(s, EntryAt(s, i, First))
    case Hide(i, j, name) => RenameNode(s, EntryAt(s, i, j), Link(ReqOf(s.reqs[i], j).dir, name), true)
    case Rename(i) => RenameNode(Commit(s, i), EntryAt(s, i, First), EntryAt(s, i, Second), false)
    case Exchange(i) => ExchangeNode(Commit(s, i), EntryAt(s, i, First), EntryAt(s, i, Second))
    case Find(l, n) => FindNode(s, l, n)
    case Again(n) => IncLookup(s, n)
    case Forget(n, k) => ForgetNode(s, n, k)
    case ForgetWait(n, k) => Append(s, Waiter(n, k))
    case ForgetResume(i) => ForgetNode(Remove(s, i), s.reqs[i].node, s.reqs[i].count)
    case PinDot(n) => Pin(s, n)
    case UnpinDot(n) => Unpin(s, n)
  }

  lemma WaiterCovered(s: State, i: nat)
    requires CountInv(s) && i < |s.reqs| && s.reqs[i].Waiter? && s.reqs[i].node in s.nlookup
    ensures s.reqs[i].count <= s.nlookup[s.reqs[i].node]
  {
    SumOne(Waits(s.reqs[i].node), s.reqs, i);
  }

  // ----- each step keeps the invariant --------------------------------------

  lemma InitInv()
    ensures Inv(Init)
  {
    forall n: Id ensures HasChain(Init.tree, n) {
      assert Chain(Init.tree, n, []);
    }
    assert Children(Init.tree, ROOT) == {};
    assert RefOk(Init, multiset{}, ROOT);
  }

  lemma MoveInv(s: State, a: Action)
    requires Inv(s) && Allowed(s, a) && (a.Unlink? || a.Hide? || a.Rename? || a.Exchange?)
    ensures Inv(Apply(s, a))
  {
    match a {
      case Unlink(i) =>
        var u := PathOps.RemoveCore(s, i, First);
      case Hide(i, j, name) =>
        var u := HideCore(s, i, j, name);
      case Rename(i) =>
        var u := RenameCore(s, i);
        ShapeCommit(s, i);
      case Exchange(i) =>
        var u := ExchangeCore(s, i);
        ShapeCommit(s, i);
    }
  }

  lemma ShapeCommit(s: State, i: nat)
    requires Shape(s.reqs) && i < |s.reqs| && s.reqs[i].Path? && !s.reqs[i].queued
    ensures Shape(Commit(s, i).reqs)
  {
    assert ShapeAt(s.reqs, i);
    ShapeSet(s.reqs, i, s.reqs[i].(committed := true));
  }

  lemma ForgetInv(s: State, n: Id, k: nat)
    requires Inv(s) && Allowed(s, Forget(n, k))
    ensures Inv(ForgetNode(s, n, k))
  {
    if k == s.nlookup[n] {
      UnlockedSpared(s, n);
    }
    var u := ForgetCore(s, n, k);
  }

  lemma ForgetWaitInv(s: State, n: Id, k: nat)
    requires Inv(s) && Forgettable(s, n, k)
    ensures Inv(Append(s, Waiter(n, k)))
  {
    AppendCore(s, Waiter(n, k));
    ShapeAppend(s.reqs, Waiter(n, k));
  }

  /** A forget that resumes is then an ordinary one. */
  lemma ResumeForgets(s: State, i: nat)
    requires i < |s.reqs| && s.reqs[i].Waiter? && Inv(s) && Allowed(s, ForgetResume(i))
    ensures Inv(Remove(s, i)) && Allowed(Remove(s, i), Forget(s.reqs[i].node, s.reqs[i].count))
  {
    var u := Remove(s, i);
    var n, k := s.reqs[i].node, s.reqs[i].count;
    WaiterCovered(s, i);
    assert ElemOk(s, s.reqs[i]);
    PathArrivals.RemoveCore(s, i);
    ShapeRemove(s.reqs, i);
    SumRemove(Waits(n), s.reqs, i);
    if k == u.nlookup[n] {
      forall e, j | e in u.reqs && Has(e, j) && HoldOf(e, j).None? ensures Spares(u, e, j, n) {
        assert e in s.reqs && Spares(s, e, j, n);
      }
    }
  }

  lemma ForgetResumeInv(s: State, i: nat)
    requires Inv(s) && Allowed(s, ForgetResume(i))
    ensures Inv(Apply(s, ForgetResume(i)))
  {
    ResumeForgets(s, i);
    ForgetInv(Remove(s, i), s.reqs[i].node, s.reqs[i].count);
  }

  lemma FindInv(s: State, l: Link, n: Id)
    requires Inv(s) && Allowed(s, Find(l, n))
    ensures Inv(FindNode(s, l, n))
  {
    var u, x := FindCore(s, l, n);
  }

  lemma NodeInv(s: State, a: Action)
    requires Inv(s) && Allowed(s, a) && (a.Find? || a.Again? || a.PinDot? || a.UnpinDot?)
    ensures Inv(Apply(s, a))
  {
    match a {
      case Find(l, n) => FindInv(s, l, n);
      case Again(n) => IncCore(s, n);
      case PinDot(n) => PinCore(s, n);
      case UnpinDot(n) =>
        var u := UnpinCore(s, n);
    }
  }

  /** Every critical section keeps the invariant. */
  lemma StepInv(s: State, a: Action)
    requires Inv(s) && Allowed(s, a)
    ensures Inv(Apply(s, a))
  {
    match a {
      case Get(r1, r2) => GetPathInv(s, r1, r2);
      case Wake(i) => ReturnInv(s, i);
      case Done(i) => FreeInv(s, i);
      case Unlink(_) => MoveInv(s, a);
      case Hide(_, _, _) => MoveInv(s, a);
      case Rename(_) => MoveInv(s, a);
      case Exchange(_) => MoveInv(s, a);
      case Find(_, _) => NodeInv(s, a);
      case Again(_) => NodeInv(s, a);
      case Forget(n, k) => ForgetInv(s, n, k);
      case ForgetWait(n, k) => ForgetWaitInv(s, n, k);
      case ForgetResume(i) => ForgetResumeInv(s, i);
      case PinDot(_) => NodeInv(s, a);
      case UnpinDot(_) => NodeInv(s, a);
    }
  }

  /** The states a run of critical sections passes through, from the freshly mounted file system on. */
  ghost predicate Run(acts: seq<Action>, tr: seq<State>) {
    && |tr| == |acts| + 1 && tr[0] == Init
    && forall i {:trigger StepAt(acts, tr, i)} :: 0 <= i < |acts| ==> StepAt(acts, tr, i)
  }

  ghost predicate StepAt(acts: seq<Action>, tr: seq<State>, i: nat)
    requires i < |acts| && i + 1 < |tr|
  {
    Allowed(tr[i], acts[i]) && tr[i + 1] == Apply(tr[i], acts[i])
  }

  lemma FirstInv(s: State)
    requires s == Init
    ensures Inv(s)
  {
    InitInv();
  }

  lemma NextInv(acts: seq<Action>, tr: seq<State>, i: nat, u: State)
    requires Run(acts, tr) && i < |acts| && Inv(tr[i]) && u == tr[i + 1]
    ensures Inv(u)
  {
    assert StepAt(acts, tr, i);
    StepInv(tr[i], acts[i]);
  }

  /** The invariant holds in every state of every run. */
  lemma {:induction false} RunInv(acts: seq<Action>, tr: seq<State>, k: nat)
    requires Run(acts, tr) && k < |tr|
    ensures Inv(tr[k])
    decreases k
  {
    if k == 0 {
      FirstInv(tr[k]);
    } else {
      var i := k - 1;
      RunInv(acts, tr, i);
      NextInv(acts, tr, i, tr[k]);
    }
  }
}
