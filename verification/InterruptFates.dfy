/**
 What becomes of an interrupt: it marks its request, at once or when the request
 arrives, unless it repeats one that is waiting already or is thrown out to be
 answered with EAGAIN.
 */
module InterruptFates {
  import opened Basics
  import opened Interrupts
  import opened InterruptProofs

  /** An interrupt for `unique` has come before its request. */
  predicate Awaited(s: State, unique: nat) {
    exists p :: p in s.interrupts && p.target == unique
  }

  lemma AwaitedFound(s: State, unique: nat)
    ensures Awaited(s, unique) <==> PendingFor(s.interrupts, unique) < |s.interrupts|
  {
    var k := PendingFor(s.interrupts, unique);
    if k < |s.interrupts| {
      assert s.interrupts[k] in s.interrupts;
    }
  }

  /** A request is interrupted on arrival exactly if an interrupt for it has come before. */
  lemma ArrivalMarks(s: State, r: Rid, unique: nat)
    requires Allowed(s, DoArrive(r, unique))
    ensures var u := Apply(s, DoArrive(r, unique)); r in u.recs && (u.recs[r].interrupted <==> Awaited(s, unique))
  {
    AwaitedFound(s, unique);
  }

  /** The interrupt at `k` was for this request: it is off the list and destroyed. */
  predicate TakenOff(s: State, u: State, unique: nat, k: nat) {
    && k < |s.interrupts| && s.interrupts[k].target == unique
    && u.interrupts == Without(s.interrupts, k) && u.evicted == s.evicted && u.dead == s.dead + [s.interrupts[k].irec]
  }

  /**
   An arrival takes its own interrupt off the list and destroys it; without one
   it takes off the oldest, to be answered with EAGAIN. The others stay in order.
   */
  lemma ArrivalTakes(s: State, r: Rid, unique: nat)
    requires Inv(s) && Allowed(s, DoArrive(r, unique))
    ensures var u := Apply(s, DoArrive(r, unique));
      && (Awaited(s, unique) ==> exists k: nat :: TakenOff(s, u, unique, k))
      && (!Awaited(s, unique) && s.interrupts != [] ==>
            u.interrupts == s.interrupts[1..] && u.evicted == s.evicted + {s.interrupts[0].irec} && u.dead == s.dead)
      && (s.interrupts == [] ==> u.interrupts == [] && u.evicted == s.evicted && u.dead == s.dead)
  {
    AwaitedFound(s, unique);
    var k := PendingFor(s.interrupts, unique);
    if k < |s.interrupts| {
      assert PendingOk(s, k);
      assert TakenOff(s, Apply(s, DoArrive(r, unique)), unique, k);
    } else if s.interrupts != [] {
      assert Without(s.interrupts, 0) == s.interrupts[1..];
    }
  }

  // ----- marks stay ---------------------------------------------------------

  /** Interrupted, or destroyed by now. */
  predicate Marked(s: State, r: Rid) {
    r in s.dead || (r in s.recs && s.recs[r].interrupted)
  }

  /** A request once interrupted stays so for as long as it lives. */
  lemma StaysMarked(s: State, a: Action, r: Rid)
    requires Inv(s) && Allowed(s, a) && Marked(s, r)
    ensures Marked(Apply(s, a), r)
  {
  }

  lemma {:induction false} MarkedForever(acts: seq<Action>, tr: seq<State>, k: nat, k': nat, r: Rid)
    requires Run(acts, tr) && k <= k' < |tr| && Marked(tr[k], r)
    ensures Marked(tr[k'], r)
    decreases k'
  {
    if k < k' {
      MarkedForever(acts, tr, k, k' - 1, r);
      RunInv(acts, tr, k' - 1);
      assert Allowed(tr[k' - 1], acts[k' - 1]);
      StaysMarked(tr[k' - 1], acts[k' - 1], r);
    }
  }

  // ----- an interrupt for an active request ---------------------------------

  /** The handler `t` has yet to take the lock of request `r`. */
  predicate StillWaiting(s: State, t: Tid, r: Rid, i: Rid) {
    t in s.threads && s.threads[t] == Waiting(r, i)
  }

  lemma HandlerStep(s: State, a: Action, t: Tid, r: Rid, i: Rid)
    requires Inv(s) && Allowed(s, a) && StillWaiting(s, t, r, i)
    ensures StillWaiting(Apply(s, a), t, r, i) || Marked(Apply(s, a), r)
  {
    assert ThreadOk(s, t);
  }

  lemma HandlerStarts(s: State, t: Tid, i: Rid, target: nat, j: nat)
    requires Inv(s) && Allowed(s, DoInterrupt(t, i, target, j)) && Active(s, target)
    ensures j < |s.list| && s.list[j] in s.recs && s.recs[s.list[j]].unique == target
    ensures StillWaiting(Apply(s, DoInterrupt(t, i, target, j)), t, s.list[j], i)
  {
  }

  /** An interrupt for an active request marks it as soon as its handler has taken the request's lock. */
  lemma {:induction false} ActiveIsMarked(acts: seq<Action>, tr: seq<State>, q: nat, k: nat, t: Tid, i: Rid, target: nat, j: nat) returns (r: Rid)
    requires Run(acts, tr) && q < k < |tr| && acts[q] == DoInterrupt(t, i, target, j) && Active(tr[q], target)
    ensures r in tr[q].recs && r in tr[q].list && tr[q].recs[r].unique == target
    ensures StillWaiting(tr[k], t, r, i) || Marked(tr[k], r)
    decreases k
  {
    RunInv(acts, tr, q);
    assert Allowed(tr[q], acts[q]) && tr[q + 1] == Apply(tr[q], acts[q]);
    HandlerStarts(tr[q], t, i, target, j);
    if k == q + 1 {
      r := tr[q].list[j];
    } else {
      r := ActiveIsMarked(acts, tr, q, k - 1, t, i, target, j);
      HandlerNext(acts, tr, k - 1, t, r, i);
    }
  }

  lemma HandlerNext(acts: seq<Action>, tr: seq<State>, k: nat, t: Tid, r: Rid, i: Rid)
    requires Run(acts, tr) && k < |acts| && (StillWaiting(tr[k], t, r, i) || Marked(tr[k], r))
    ensures StillWaiting(tr[k + 1], t, r, i) || Marked(tr[k + 1], r)
  {
    RunInv(acts, tr, k);
    assert Allowed(tr[k], acts[k]) && tr[k + 1] == Apply(tr[k], acts[k]);
    if StillWaiting(tr[k], t, r, i) {
      HandlerStep(tr[k], acts[k], t, r, i);
    } else {
      StaysMarked(tr[k], acts[k], r);
    }
  }

  // ----- an interrupt that comes first --------------------------------------

  /** The arrival at step `p` was the request the interrupt waited for, and is marked. */
  predicate Consumed(acts: seq<Action>, tr: seq<State>, p: nat, target: nat)
    requires p < |acts| && p + 1 < |tr|
  {
    acts[p].DoArrive? && acts[p].unique == target && Marked(tr[p + 1], acts[p].r)
  }

  /** The arrival at step `p` was of another request, without an interrupt of its own, and this one was the oldest. */
  predicate ThrownOut(acts: seq<Action>, tr: seq<State>, p: nat, i: Rid)
    requires p < |acts| && p + 1 < |tr|
  {
    && acts[p].DoArrive? && !Awaited(tr[p], acts[p].unique)
    && tr[p].interrupts != [] && tr[p].interrupts[0].irec == i && i in tr[p + 1].evicted
  }

  lemma PendingStep(s: State, a: Action, i: Rid, target: nat)
    requires Inv(s) && Allowed(s, a) && Pending(i, target) in s.interrupts
    ensures Pending(i, target) in Apply(s, a).interrupts
      || (a.DoArrive? && a.unique == target && Marked(Apply(s, a), a.r))
      || (a.DoArrive? && !Awaited(s, a.unique) && s.interrupts[0].irec == i && i in Apply(s, a).evicted)
  {
    if a.DoArrive? {
      var k :| 0 <= k < |s.interrupts| && s.interrupts[k] == Pending(i, target);
      ArrivalTakes(s, a.r, a.unique);
      ArrivalMarks(s, a.r, a.unique);
      var m := PendingFor(s.interrupts, a.unique);
      AwaitedFound(s, a.unique);
      if m < |s.interrupts| && m != k {
        WithoutFacts(s.interrupts, m);
      }
    }
  }

  /**
   An interrupt that came before its request is still waiting for it, or has
   marked it on arrival, or was thrown out as the oldest by another arrival.
   */
  lemma {:induction false} EarlyIsKept(acts: seq<Action>, tr: seq<State>, q: nat, k: nat, t: Tid, i: Rid, target: nat, j: nat)
    requires Run(acts, tr) && q < k < |tr| && acts[q] == DoInterrupt(t, i, target, j)
    requires !Active(tr[q], target) && !Awaited(tr[q], target)
    ensures Pending(i, target) in tr[k].interrupts
         || exists p :: q < p < k && (Consumed(acts, tr, p, target) || ThrownOut(acts, tr, p, i))
    decreases k
  {
    RunInv(acts, tr, k - 1);
    assert Allowed(tr[k - 1], acts[k - 1]) && tr[k] == Apply(tr[k - 1], acts[k - 1]);
    if k == q + 1 {
      AwaitedFound(tr[q], target);
    } else {
      EarlyIsKept(acts, tr, q, k - 1, t, i, target, j);
      if Pending(i, target) in tr[k - 1].interrupts {
        PendingStep(tr[k - 1], acts[k - 1], i, target);
        assert Pending(i, target) in tr[k].interrupts || Consumed(acts, tr, k - 1, target) || ThrownOut(acts, tr, k - 1, i);
      }
    }
  }

  /** A repeated early interrupt is dropped at once; the one that waits already stands for both. */
  lemma RepeatIsDropped(s: State, t: Tid, i: Rid, target: nat, j: nat)
    requires Allowed(s, DoInterrupt(t, i, target, j)) && !Active(s, target) && Awaited(s, target)
    ensures Apply(s, DoInterrupt(t, i, target, j)) == s.(dead := s.dead + [i])
  {
    AwaitedFound(s, target);
  }

  /** A callback runs only for an interrupted request, and has run once such a request has one registered. */
  lemma CallbackRuns(acts: seq<Action>, tr: seq<State>, k: nat, k': nat, r: Rid)
    requires Run(acts, tr) && k <= k' < |tr| && r in tr[k'].recs
    ensures tr[k'].recs[r].ran ==> tr[k'].recs[r].interrupted
    ensures Marked(tr[k], r) && tr[k'].recs[r].func.Some? && tr[k'].recs[r].lock.Free? ==> tr[k'].recs[r].ran
  {
    RunInv(acts, tr, k');
    assert RecOk(tr[k'], r);
    if Marked(tr[k], r) {
      MarkedForever(acts, tr, k, k', r);
    }
  }
}
