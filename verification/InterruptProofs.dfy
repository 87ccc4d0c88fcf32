/**
 The interrupt protocol is safe for every interleaving of its steps.
 */
module InterruptProofs {
  import opened Basics
  import opened Interrupts

  lemma UsersSame(s: State, u: State, r: Rid)
    requires u.threads.Keys == s.threads.Keys
    requires forall t :: t in s.threads ==> u.threads[t].curr == s.threads[t].curr
    ensures Users(u, r) == Users(s, r)
  {
  }

  /** Pending interrupts depend on the lists and on who is active only. */
  lemma PendingSame(s: State, u: State)
    requires u.interrupts == s.interrupts && u.list == s.list && u.irecs == s.irecs && u.evicted == s.evicted
    requires u.recs.Keys == s.recs.Keys && forall r :: r in s.recs ==> u.recs[r].unique == s.recs[r].unique
    requires forall k {:trigger PendingOk(s, k)} :: 0 <= k < |s.interrupts| ==> PendingOk(s, k)
    ensures forall k {:trigger PendingOk(u, k)} :: 0 <= k < |u.interrupts| ==> PendingOk(u, k)
  {
    forall k | 0 <= k < |u.interrupts| ensures PendingOk(u, k) {
      assert PendingOk(s, k);
    }
  }

  lemma WithoutFacts<T>(q: seq<T>, i: nat)
    requires i < |q|
    ensures |Without(q, i)| == |q| - 1
    ensures forall k :: 0 <= k < |q| - 1 ==> Without(q, i)[k] == q[if k < i then k else k + 1]
    ensures forall k :: 0 <= k < |q| && k != i ==> q[k] in Without(q, i)
  {
    forall k | 0 <= k < |q| && k != i ensures q[k] in Without(q, i) {
      assert Without(q, i)[if k < i then k else k - 1] == q[k];
    }
  }

  lemma AnswerInv(s: State, i: Rid)
    requires Inv(s) && Allowed(s, DoAnswer(i))
    ensures Inv(Answer(s, i))
  {
    var u := Answer(s, i);
    forall x | x in u.recs ensures RecOk(u, x) {
      assert RecOk(s, x) && Users(u, x) == Users(s, x);
    }
    forall t | t in u.threads ensures ThreadOk(u, t) {
      assert ThreadOk(s, t);
    }
    forall k | 0 <= k < |u.interrupts| ensures PendingOk(u, k) {
      assert PendingOk(s, k);
    }
  }

  lemma EvictInv(s: State, k: nat)
    requires Inv(s) && k < |s.interrupts|
    ensures Inv(Evict(s, k)) && s.interrupts[k].irec in Evict(s, k).evicted && s.interrupts[k].irec in s.irecs
  {
    var u := Evict(s, k);
    WithoutFacts(s.interrupts, k);
    assert PendingOk(s, k);
    forall j | 0 <= j < |u.interrupts| ensures PendingOk(u, j) {
      assert PendingOk(s, if j < k then j else j + 1);
    }
    forall t | t in u.threads ensures ThreadOk(u, t) {
      assert ThreadOk(s, t);
    }
    forall x | x in u.recs ensures RecOk(u, x) {
      assert RecOk(s, x) && Users(u, x) == Users(s, x);
    }
  }

  /** After check_interrupt nothing is pending for the new request. */
  lemma CheckInv(s: State, unique: nat)
    requires Inv(s)
    ensures Inv(CheckInterrupt(s, unique))
    ensures forall p :: p in CheckInterrupt(s, unique).interrupts ==> p.target != unique
    ensures forall r :: r in CheckInterrupt(s, unique).dead ==> r in s.dead || r in s.irecs
  {
    var k := PendingFor(s.interrupts, unique);
    if k < |s.interrupts| {
      EvictInv(s, k);
      AnswerInv(Evict(s, k), s.interrupts[k].irec);
      ClearedTarget(s, k);
    } else if s.interrupts != [] {
      EvictInv(s, 0);
      WithoutFacts(s.interrupts, 0);
    }
  }

  lemma ClearedTarget(s: State, k: nat)
    requires Inv(s) && k < |s.interrupts|
    ensures forall p :: p in Without(s.interrupts, k) ==> p.target != s.interrupts[k].target
  {
    assert PendingOk(s, k);
    WithoutFacts(s.interrupts, k);
  }

  lemma AddInv(s: State, r: Rid, unique: nat, interrupted: bool)
    requires Inv(s) && r !in s.recs && r !in s.irecs && r !in s.dead && !Active(s, unique)
    requires forall p :: p in s.interrupts ==> p.target != unique
    ensures Inv(AddReq(s, r, unique, interrupted))
  {
    var u := AddReq(s, r, unique, interrupted);
    forall t | t in u.threads ensures ThreadOk(u, t) && u.threads[t].curr != r {
      assert ThreadOk(s, t);
    }
    forall x | x in u.recs ensures RecOk(u, x) {
      assert Users(u, x) == Users(s, x);
      if x != r {
        assert RecOk(s, x);
      } else {
        assert Users(u, r) == {};
      }
    }
    forall k | 0 <= k < |u.interrupts| ensures PendingOk(u, k) {
      assert PendingOk(s, k) && u.interrupts[k] in s.interrupts;
    }
  }

  lemma ArriveInv(s: State, r: Rid, unique: nat)
    requires Inv(s) && Allowed(s, DoArrive(r, unique))
    ensures Inv(Arrive(s, r, unique))
  {
    var u := CheckInterrupt(s, unique);
    CheckInv(s, unique);
    AddInv(u, r, unique, PendingFor(s.interrupts, unique) < |s.interrupts|);
  }

  lemma InterruptFoundRecs(s: State, t: Tid, i: Rid, target: nat, j: nat)
    requires Inv(s) && Allowed(s, DoInterrupt(t, i, target, j)) && j < |s.list|
    ensures var u := Interrupt(s, t, i, target, j); forall x :: x in u.recs ==> RecOk(u, x)
  {
    var u := Interrupt(s, t, i, target, j);
    forall x | x in u.recs ensures RecOk(u, x) {
      assert RecOk(s, x);
      if x == s.list[j] {
        assert Users(u, x) == Users(s, x) + {t};
      } else {
        assert Users(u, x) == Users(s, x);
      }
    }
  }

  lemma InterruptFoundInv(s: State, t: Tid, i: Rid, target: nat, j: nat)
    requires Inv(s) && Allowed(s, DoInterrupt(t, i, target, j)) && j < |s.list|
    ensures Inv(Interrupt(s, t, i, target, j))
  {
    var u := Interrupt(s, t, i, target, j);
    InterruptFoundRecs(s, t, i, target, j);
    forall v | v in u.threads ensures ThreadOk(u, v) {
      if v != t {
        assert ThreadOk(s, v);
      }
      forall k | 0 <= k < |u.interrupts| ensures u.interrupts[k].irec != u.threads[v].irec {
        assert PendingOk(s, k);
      }
    }
    forall v | v in s.threads ensures s.threads[v].irec != i {
      assert ThreadOk(s, v);
    }
    forall k | 0 <= k < |u.interrupts| ensures PendingOk(u, k) {
      assert PendingOk(s, k);
    }
  }

  lemma InterruptEarlyInv(s: State, t: Tid, i: Rid, target: nat)
    requires Inv(s) && Allowed(s, DoInterrupt(t, i, target, |s.list|))
    ensures Inv(Interrupt(s, t, i, target, |s.list|))
  {
    var u := Interrupt(s, t, i, target, |s.list|);
    forall x | x in u.recs ensures RecOk(u, x) {
      assert RecOk(s, x) && Users(u, x) == Users(s, x);
    }
    forall k | 0 <= k < |s.interrupts| ensures s.interrupts[k].irec != i {
      assert PendingOk(s, k);
    }
    forall v | v in u.threads ensures ThreadOk(u, v) {
      assert ThreadOk(s, v);
    }
    forall k | 0 <= k < |u.interrupts| ensures PendingOk(u, k) {
      if k < |s.interrupts| {
        assert PendingOk(s, k);
      }
    }
  }

  lemma TakeLockRecs(s: State, t: Tid)
    requires Inv(s) && Allowed(s, DoTakeLock(t))
    ensures var u := TakeLock(s, t); forall x {:trigger RecOk(u, x)} :: x in u.recs ==> RecOk(u, x)
  {
    var u := TakeLock(s, t);
    assert ThreadOk(s, t);
    forall x | x in u.recs ensures RecOk(u, x) {
      assert RecOk(s, x);
      UsersSame(s, u, x);
    }
  }

  lemma TakeLockInv(s: State, t: Tid)
    requires Inv(s) && Allowed(s, DoTakeLock(t))
    ensures Inv(TakeLock(s, t))
  {
    var u := TakeLock(s, t);
    TakeLockRecs(s, t);
    assert ThreadOk(s, t) && RecOk(s, s.threads[t].curr);
    forall v | v in u.threads ensures ThreadOk(u, v) {
      assert ThreadOk(s, v);
    }
    PendingSame(s, u);
  }

  lemma CalledRecs(s: State, t: Tid)
    requires Inv(s) && Allowed(s, DoCalled(t))
    ensures var u := Called(s, t); forall x {:trigger RecOk(u, x)} :: x in u.recs ==> RecOk(u, x)
  {
    var u := Called(s, t);
    assert ThreadOk(s, t);
    forall x | x in u.recs ensures RecOk(u, x) {
      assert RecOk(s, x);
      UsersSame(s, u, x);
    }
  }

  lemma CalledInv(s: State, t: Tid)
    requires Inv(s) && Allowed(s, DoCalled(t))
    ensures Inv(Called(s, t))
  {
    var u := Called(s, t);
    CalledRecs(s, t);
    assert ThreadOk(s, t) && RecOk(s, s.threads[t].curr);
    forall v | v in u.threads ensures ThreadOk(u, v) {
      assert ThreadOk(s, v);
    }
    PendingSame(s, u);
  }

  lemma LastUser(s: State, t: Tid)
    requires Inv(s) && Allowed(s, DoFinish(t))
    ensures Users(Finish(s, t), s.threads[t].curr) == Users(s, s.threads[t].curr) - {t}
    ensures s.recs[s.threads[t].curr].ctr == 1 ==> Users(s, s.threads[t].curr) == {t} && s.recs[s.threads[t].curr].freed
  {
    var r := s.threads[t].curr;
    assert RecOk(s, r) && t in Users(s, r);
    if s.recs[r].ctr == 1 {
      assert Users(s, r) == {t} + (Users(s, r) - {t});
      assert |Users(s, r) - {t}| == |Users(s, r)| - 1;
    }
  }

  lemma FinishInv(s: State, t: Tid)
    requires Inv(s) && Allowed(s, DoFinish(t))
    ensures Inv(Finish(s, t))
  {
    var u := Finish(s, t);
    var r := s.threads[t].curr;
    LastUser(s, t);
    assert ThreadOk(s, t) && RecOk(s, r);
    forall x | x in u.recs ensures RecOk(u, x) {
      assert RecOk(s, x);
      if x != r {
        assert Users(u, x) == Users(s, x);
      }
    }
    FinishDead(s, t);
    FinishRest(s, t);
  }

  lemma FinishRest(s: State, t: Tid)
    requires Inv(s) && Allowed(s, DoFinish(t))
    ensures var u := Finish(s, t);
      && (forall v :: v in u.threads ==> ThreadOk(u, v))
      && (forall k :: 0 <= k < |u.interrupts| ==> PendingOk(u, k))
  {
    var u := Finish(s, t);
    var r := s.threads[t].curr;
    LastUser(s, t);
    assert ThreadOk(s, t) && RecOk(s, r);
    forall v | v in u.threads ensures ThreadOk(u, v) {
      assert ThreadOk(s, v) && v != t;
      assert s.threads[v].curr == r ==> v in Users(s, r);
    }
    forall k | 0 <= k < |u.interrupts| ensures PendingOk(u, k) {
      assert PendingOk(s, k);
    }
  }

  lemma FinishDead(s: State, t: Tid)
    requires Inv(s) && Allowed(s, DoFinish(t))
    ensures ListOk(Finish(s, t)) && DeadOk(Finish(s, t))
  {
    var r := s.threads[t].curr;
    LastUser(s, t);
    assert ThreadOk(s, t) && RecOk(s, r);
  }

  lemma RegisterInv(s: State, r: Rid, f: Option<Func>)
    requires Inv(s) && Allowed(s, DoRegister(r, f))
    ensures Inv(Register(s, r, f))
  {
    var u := Register(s, r, f);
    forall x | x in u.recs ensures RecOk(u, x) {
      assert RecOk(s, x);
      UsersSame(s, u, x);
    }
    forall v | v in u.threads ensures ThreadOk(u, v) {
      assert ThreadOk(s, v);
    }
    PendingSame(s, u);
  }

  lemma RegisteredInv(s: State, r: Rid)
    requires Inv(s) && Allowed(s, DoRegistered(r))
    ensures Inv(Registered(s, r))
  {
    var u := Registered(s, r);
    forall x | x in u.recs ensures RecOk(u, x) {
      assert RecOk(s, x);
      UsersSame(s, u, x);
    }
    forall v | v in u.threads ensures ThreadOk(u, v) {
      assert ThreadOk(s, v);
    }
    PendingSame(s, u);
  }

  lemma WithoutDistinct<T>(q: seq<T>, i: nat)
    requires i < |q| && forall j, k :: 0 <= j < k < |q| ==> q[j] != q[k]
    ensures forall x :: x in Without(q, i) <==> x in q && x != q[i]
    ensures forall j, k :: 0 <= j < k < |q| - 1 ==> Without(q, i)[j] != Without(q, i)[k]
  {
    WithoutFacts(q, i);
    forall x | x in q && x != q[i] ensures x in Without(q, i) {
      var k :| 0 <= k < |q| && q[k] == x;
    }
    forall x | x in Without(q, i) ensures x in q && x != q[i] {
      var k :| 0 <= k < |q| - 1 && Without(q, i)[k] == x;
    }
  }

  lemma FreeList(s: State, r: Rid, j: nat)
    requires ListOk(s) && Allowed(s, DoFree(r, j))
    ensures ListOk(FreeReq(s, r, j))
    ensures forall x :: x in Without(s.list, j) <==> x in s.list && x != r
  {
    WithoutDistinct(s.list, j);
    WithoutFacts(s.list, j);
  }

  lemma FreeInv(s: State, r: Rid, j: nat)
    requires Inv(s) && Allowed(s, DoFree(r, j))
    ensures Inv(FreeReq(s, r, j))
  {
    var u := FreeReq(s, r, j);
    FreeList(s, r, j);
    assert RecOk(s, r);
    forall x | x in u.recs ensures RecOk(u, x) {
      assert RecOk(s, x);
      UsersSame(s, u, x);
    }
    forall v | v in u.threads ensures ThreadOk(u, v) {
      assert ThreadOk(s, v);
    }
    forall k | 0 <= k < |u.interrupts| ensures PendingOk(u, k) {
      assert PendingOk(s, k);
      forall i | 0 <= i < |u.list| ensures u.recs[u.list[i]].unique != u.interrupts[k].target {
        assert u.list[i] in Without(s.list, j);
      }
    }
  }

  lemma DestroyInv(s: State, r: Rid)
    requires Inv(s) && Allowed(s, DoDestroy(r))
    ensures Inv(Destroy(s, r))
  {
    var u := Destroy(s, r);
    assert RecOk(s, r);
    forall x | x in u.recs ensures RecOk(u, x) {
      assert RecOk(s, x) && Users(u, x) == Users(s, x);
    }
    forall v | v in u.threads ensures ThreadOk(u, v) {
      assert ThreadOk(s, v);
      assert s.threads[v].curr == r ==> v in Users(s, r);
    }
    forall k | 0 <= k < |u.interrupts| ensures PendingOk(u, k) {
      assert PendingOk(s, k);
    }
  }

  lemma StepInv(s: State, a: Action)
    requires Inv(s) && Allowed(s, a)
    ensures Inv(Apply(s, a))
  {
    match a {
      case DoArrive(r, unique) => ArriveInv(s, r, unique);
      case DoAnswer(i) => AnswerInv(s, i);
      case DoInterrupt(t, i, target, j) =>
        if j < |s.list| {
          InterruptFoundInv(s, t, i, target, j);
        } else {
          InterruptEarlyInv(s, t, i, target);
        }
      case DoTakeLock(t) => TakeLockInv(s, t);
      case DoCalled(t) => CalledInv(s, t);
      case DoFinish(t) => FinishInv(s, t);
      case DoRegister(r, f) => RegisterInv(s, r, f);
      case DoRegistered(r) => RegisteredInv(s, r);
      case DoFree(r, j) => FreeInv(s, r, j);
      case DoDestroy(r) => DestroyInv(s, r);
    }
  }

  predicate Run(acts: seq<Action>, tr: seq<State>) {
    && |tr| == |acts| + 1 && tr[0] == Init
    && forall i :: 0 <= i < |acts| ==> Allowed(tr[i], acts[i]) && tr[i + 1] == Apply(tr[i], acts[i])
  }

  /** The invariant holds in every state of every interleaving. */
  lemma {:induction false} RunInv(acts: seq<Action>, tr: seq<State>, k: nat)
    requires Run(acts, tr) && k < |tr|
    ensures Inv(tr[k])
    decreases k
  {
    if k > 0 {
      RunInv(acts, tr, k - 1);
      assert Allowed(tr[k - 1], acts[k - 1]);
      StepInv(tr[k - 1], acts[k - 1]);
    }
  }

  // ----- what it means ------------------------------------------------------

  /** No active request has a pending interrupt aimed at it, and no two pending interrupts have one target. */
  lemma PendingMeansEarly(acts: seq<Action>, tr: seq<State>, k: nat, i: nat, j: nat)
    requires Run(acts, tr) && k < |tr| && i < |tr[k].interrupts|
    ensures j < |tr[k].list| ==> tr[k].list[j] in tr[k].recs && tr[k].recs[tr[k].list[j]].unique != tr[k].interrupts[i].target
    ensures j < |tr[k].interrupts| && j != i ==> tr[k].interrupts[j].target != tr[k].interrupts[i].target
  {
    RunInv(acts, tr, k);
    assert PendingOk(tr[k], i);
  }

  /** An interrupted request with a registered callback has had it run, whichever came first. */
  lemma CallbackHasRun(acts: seq<Action>, tr: seq<State>, k: nat, r: Rid)
    requires Run(acts, tr) && k < |tr| && r in tr[k].recs
    requires tr[k].recs[r].interrupted && tr[k].recs[r].func.Some? && tr[k].recs[r].lock.Free?
    ensures tr[k].recs[r].ran
  {
    RunInv(acts, tr, k);
    assert RecOk(tr[k], r);
  }

  /** No callback is registered for `r`, and no thread is running one. */
  predicate Quiet(s: State, r: Rid) {
    && (r in s.recs ==> s.recs[r].func.None?)
    && (forall t :: t in s.threads && s.threads[t].Calling? && s.threads[t].curr == r ==> s.threads[t].func.None?)
  }

  /** Once an owner has no callback registered, none is running. */
  lemma QuietWhenUnregistered(acts: seq<Action>, tr: seq<State>, k: nat, r: Rid)
    requires Run(acts, tr) && k < |tr| && r in tr[k].recs && !tr[k].recs[r].freed && tr[k].recs[r].func.None?
    ensures Quiet(tr[k], r)
  {
    RunInv(acts, tr, k);
    forall t | t in tr[k].threads && tr[k].threads[t].Calling? && tr[k].threads[t].curr == r
      ensures tr[k].threads[t].func.None?
    {
      assert ThreadOk(tr[k], t);
    }
  }

  /** Only a registration by the owner can end the quiet. */
  lemma QuietStep(s: State, a: Action, r: Rid)
    requires Allowed(s, a) && Quiet(s, r) && !(a.DoRegister? && a.r == r)
    ensures Quiet(Apply(s, a), r)
  {
  }

  /** After unregistering no callback runs or starts until the next registration, whatever everybody does. */
  lemma {:induction false} StaysQuiet(acts: seq<Action>, tr: seq<State>, k: nat, k': nat, r: Rid)
    requires Run(acts, tr) && k <= k' < |tr| && r in tr[k].recs && !tr[k].recs[r].freed && tr[k].recs[r].func.None?
    requires forall i :: k <= i < k' ==> !(acts[i].DoRegister? && acts[i].r == r)
    ensures Quiet(tr[k'], r)
    decreases k'
  {
    if k == k' {
      QuietWhenUnregistered(acts, tr, k, r);
    } else {
      StaysQuiet(acts, tr, k, k' - 1, r);
      assert Allowed(tr[k' - 1], acts[k' - 1]);
      QuietStep(tr[k' - 1], acts[k' - 1], r);
    }
  }

  /** While the owner is inside fuse_req_interrupt_func nobody else runs the request's callback. */
  lemma OwnerExcludesHandlers(acts: seq<Action>, tr: seq<State>, k: nat, r: Rid, t: Tid)
    requires Run(acts, tr) && k < |tr| && r in tr[k].recs && tr[k].recs[r].lock.Owner?
    requires t in tr[k].threads && tr[k].threads[t].curr == r
    ensures !tr[k].threads[t].Calling?
  {
    RunInv(acts, tr, k);
    assert ThreadOk(tr[k], t);
  }

  /** No record is destroyed twice. */
  lemma DestroyedOnce(acts: seq<Action>, tr: seq<State>, k: nat, i: nat, j: nat)
    requires Run(acts, tr) && k < |tr| && i < j < |tr[k].dead|
    ensures tr[k].dead[i] != tr[k].dead[j]
  {
    RunInv(acts, tr, k);
  }

  /** Nothing leads to a record that has been destroyed: no list, no thread, no owner who is about to free it. */
  lemma DeadUnused(acts: seq<Action>, tr: seq<State>, k: nat, i: nat)
    requires Run(acts, tr) && k < |tr| && i < |tr[k].dead|
    ensures var s := tr[k]; var r := s.dead[i];
      && r !in s.recs && r !in s.irecs && r !in s.list && r !in s.doomed && r !in s.evicted
      && (forall p :: p in s.interrupts ==> p.irec != r)
      && (forall t :: t in s.threads ==> s.threads[t].curr != r && s.threads[t].irec != r)
  {
    RunInv(acts, tr, k);
    var s := tr[k];
    forall p | p in s.interrupts ensures p.irec in s.irecs {
      var j :| 0 <= j < |s.interrupts| && s.interrupts[j] == p;
      assert PendingOk(s, j);
    }
    forall t | t in s.threads ensures s.threads[t].curr in s.recs && s.threads[t].irec in s.irecs {
      assert ThreadOk(s, t);
    }
  }

  /** A live request is still to be answered, or some thread holds a reference, or its owner is about to destroy it. */
  lemma NotForgotten(acts: seq<Action>, tr: seq<State>, k: nat, r: Rid)
    requires Run(acts, tr) && k < |tr| && r in tr[k].recs
    ensures r in tr[k].list || Users(tr[k], r) != {} || r in tr[k].doomed
  {
    RunInv(acts, tr, k);
    assert RecOk(tr[k], r);
  }

  /** A record leaves the live ones only by being destroyed. */
  lemma NeverLost(s: State, a: Action, r: Rid)
    requires Inv(s) && Allowed(s, a) && (r in s.recs || r in s.irecs)
    ensures r in Apply(s, a).recs || r in Apply(s, a).irecs || r in Apply(s, a).dead
  {
  }
}
