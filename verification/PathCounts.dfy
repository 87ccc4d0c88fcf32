/**
 What the kernel has been given and has given back: lookup counts over whole runs.
 */
module PathCounts {
  import opened Forest
  import opened Requests
  import opened PathState
  import opened PathWake
  import opened PathOps
  import opened PathNodes
  import opened PathArrivals
  import opened PathRuns

  /** The lookups of `n` that a critical section hands out. */
  ghost function Given(s: State, a: Action, n: Id): nat {
    match a
    case Find(l, m) => Bit(n == if Lookup(s.tree, l).Some? then Lookup(s.tree, l).value else m)
    case Again(m) => Bit(n == m)
    case _ => 0
  }

  /** The lookups of `n` that it takes back. */
  function Taken(s: State, a: Action, n: Id): nat {
    match a
    case Forget(m, k) => if m == n then k else 0
    case ForgetResume(i) => if i < |s.reqs| && s.reqs[i].Waiter? && s.reqs[i].node == n then s.reqs[i].count else 0
    case _ => 0
  }

  lemma ForgetTakes(s: State, m: Id, k: nat, n: Id)
    requires Inv(s) && Allowed(s, Forget(m, k))
    ensures Known(ForgetNode(s, m, k), n) + (if m == n then k else 0) == Known(s, n)
  {
    if k == s.nlookup[m] {
      UnlockedSpared(s, m);
    }
    ForgetCounts(s, m, k);
  }

  lemma ResumeTakes(s: State, i: nat, n: Id)
    requires Inv(s) && Allowed(s, ForgetResume(i))
    ensures Known(Apply(s, ForgetResume(i)), n) + Taken(s, ForgetResume(i), n) == Known(s, n)
  {
    ResumeForgets(s, i);
    ForgetTakes(Remove(s, i), s.reqs[i].node, s.reqs[i].count, n);
  }

  lemma UnpinTakes(s: State, m: Id, n: Id)
    requires Inv(s) && Allowed(s, UnpinDot(m))
    ensures Known(Unpin(s, m), n) == Known(s, n)
  {
    var u := UnpinCore(s, m);
    if n in s.nlookup && n !in u.nlookup {
      assert n in s.lock && n !in u.lock;
    }
  }

  lemma MovesTake(s: State, a: Action, n: Id)
    requires Inv(s) && Allowed(s, a) && (a.Unlink? || a.Hide? || a.Rename? || a.Exchange?)
    ensures Known(Apply(s, a), n) == Known(s, n)
  {
    match a {
      case Unlink(i) =>
        var u := PathOps.RemoveCore(s, i, First);
      case Hide(i, j, name) =>
        var u := HideCore(s, i, j, name);
      case Rename(i) =>
        var u := RenameCore(s, i);
      case Exchange(i) =>
        var u := ExchangeCore(s, i);
    }
  }

  lemma {:induction false} PassTakes(s: State, k: nat, n: Id)
    requires Ready(s) && k <= |s.reqs|
    ensures Known(WakeFrom(s, k), n) == Known(s, n)
    decreases |s.reqs| - k
  {
    if k < |s.reqs| {
      ReadyKept(s, WakeElem(s, k), k);
      PassTakes(WakeElem(s, k), k + 1, n);
    }
  }

  lemma RequestsTake(s: State, a: Action, n: Id)
    requires Inv(s) && Allowed(s, a) && (a.Get? || a.Wake? || a.Done? || a.ForgetWait?)
    ensures Known(Apply(s, a), n) == Known(s, n)
  {
    if a.Done? {
      FreedInv(s, a.i);
      PassTakes(Freed(s, a.i), 0, n);
    }
  }

  lemma NodesTake(s: State, a: Action, n: Id)
    requires Inv(s) && Allowed(s, a) && (a.Find? || a.Again? || a.PinDot? || a.UnpinDot?)
    ensures Known(Apply(s, a), n) == Known(s, n) + Given(s, a, n)
  {
    match a {
      case UnpinDot(m) => UnpinTakes(s, m, n);
      case _ =>
    }
  }

  /** Each critical section changes the lookup count of each node by what it hands out and takes back, also when it frees nodes. */
  lemma StepLookups(s: State, a: Action, n: Id)
    requires Inv(s) && Allowed(s, a)
    ensures Known(Apply(s, a), n) + Taken(s, a, n) == Known(s, n) + Given(s, a, n)
  {
    if a.Get? || a.Wake? || a.Done? || a.ForgetWait? {
      RequestsTake(s, a, n);
    } else if a.Unlink? || a.Hide? || a.Rename? || a.Exchange? {
      MovesTake(s, a, n);
    } else if a.Forget? {
      ForgetTakes(s, a.n, a.k, n);
    } else if a.ForgetResume? {
      ResumeTakes(s, a.i, n);
    } else {
      NodesTake(s, a, n);
    }
  }

  ghost function AllGiven(acts: seq<Action>, tr: seq<State>, k: nat, n: Id): nat
    requires k <= |acts| && k <= |tr|
  {
    if k == 0 then 0 else AllGiven(acts, tr, k - 1, n) + Given(tr[k - 1], acts[k - 1], n)
  }

  function AllTaken(acts: seq<Action>, tr: seq<State>, k: nat, n: Id): nat
    requires k <= |acts| && k <= |tr|
  {
    if k == 0 then 0 else AllTaken(acts, tr, k - 1, n) + Taken(tr[k - 1], acts[k - 1], n)
  }

  lemma LookupsNext(acts: seq<Action>, tr: seq<State>, k: nat, n: Id)
    requires Run(acts, tr) && k < |acts|
    ensures Known(tr[k + 1], n) + Taken(tr[k], acts[k], n) == Known(tr[k], n) + Given(tr[k], acts[k], n)
  {
    RunInv(acts, tr, k);
    assert StepAt(acts, tr, k);
    StepLookups(tr[k], acts[k], n);
  }

  /** After any run the lookup count of a node is what was handed out less what was taken back; the root starts with one. */
  lemma {:induction false} LookupsBalance(acts: seq<Action>, tr: seq<State>, k: nat, n: Id)
    requires Run(acts, tr) && k < |tr|
    ensures Known(tr[k], n) + AllTaken(acts, tr, k, n) == AllGiven(acts, tr, k, n) + Bit(n == ROOT)
    decreases k
  {
    if k > 0 {
      LookupsBalance(acts, tr, k - 1, n);
      LookupsNext(acts, tr, k - 1, n);
    }
  }

  /** A node lives only as long as it is looked up, pinned, or somebody's parent. */
  lemma AliveForAReason(acts: seq<Action>, tr: seq<State>, k: nat, n: Id)
    requires Run(acts, tr) && k < |tr|
    ensures n in tr[k].lock <==> Known(tr[k], n) > 0 || tr[k].pins[n] > 0 || Children(tr[k].tree, n) != {}
  {
    RunInv(acts, tr, k);
    var s := tr[k];
    if n in s.lock {
      assert RefOk(s, multiset{}, n);
    }
    if Children(s.tree, n) != {} {
      var c :| c in Children(s.tree, n);
      assert s.tree[c].parent in s.lock;
    }
  }
}
