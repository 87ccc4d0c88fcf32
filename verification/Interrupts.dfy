/**
 The interrupt protocol of fuse_lowlevel.c. A step is what one thread does
 between taking and releasing a lock: `se->lock`, which protects the lists and
 the counters, or a request's own lock, under which callbacks run.
 */
module Interrupts {
  import opened Basics

  type Rid = nat    // a request record
  type Tid = nat    // a thread serving an INTERRUPT message
  type Func = nat   // a callback

  datatype Lock = Free | Owner | Handler(t: Tid)

  /**
   A request record. `freed` is set by fuse_free_req; `ran` says that the
   callback has run since it was registered.
   */
  datatype Rec = Rec(unique: nat, ctr: int, interrupted: bool, func: Option<Func>, lock: Lock, freed: bool, ran: bool)

  /** Where a thread in find_interrupted stands with request `curr`. */
  datatype Phase =
    | Waiting(curr: Rid, irec: Rid)
    | Calling(curr: Rid, irec: Rid, func: Option<Func>)
    | Finishing(curr: Rid, irec: Rid)

  datatype Pending = Pending(irec: Rid, target: nat)

  /**
   `dead` lists the records destroyed so far. `irecs` are the live records of
   INTERRUPT messages, `evicted` those of them taken off the list to be answered
   with EAGAIN, `doomed` the requests whose owner is about to destroy them.
   */
  datatype State = State(
    recs: map<Rid, Rec>, irecs: set<Rid>, list: seq<Rid>, interrupts: seq<Pending>,
    threads: map<Tid, Phase>, evicted: set<Rid>, doomed: set<Rid>, dead: seq<Rid>)

  // ----- the invariant ------------------------------------------------------

  function Users(s: State, r: Rid): set<Tid> {
    set t | t in s.threads && s.threads[t].curr == r
  }

  predicate RecOk(s: State, r: Rid)
    requires r in s.recs
  {
    var q := s.recs[r];
    && q.ctr == (if q.freed then 0 else 1) + |Users(s, r)|
    && (q.freed ==> q.func.None? && !q.lock.Owner?)
    && (!q.freed <==> r in s.list)
    && (q.ctr == 0 <==> r in s.doomed)
    && (q.lock.Handler? ==> q.lock.t in s.threads && s.threads[q.lock.t].Calling? && s.threads[q.lock.t].curr == r)
    && (q.lock.Free? && q.interrupted && q.func.Some? ==> q.ran)
    && (q.ran ==> q.interrupted)
  }

  predicate ThreadOk(s: State, t: Tid)
    requires t in s.threads
  {
    var p := s.threads[t];
    && p.curr in s.recs && p.irec in s.irecs && p.irec !in s.evicted
    && (forall k :: 0 <= k < |s.interrupts| ==> s.interrupts[k].irec != p.irec)
    && (!p.Waiting? ==> s.recs[p.curr].interrupted)
    && (p.Calling? ==> s.recs[p.curr].lock == Handler(t)
                       && (p.func == s.recs[p.curr].func || s.recs[p.curr].freed))
  }

  predicate PendingOk(s: State, k: nat)
    requires k < |s.interrupts|
  {
    var p := s.interrupts[k];
    && p.irec in s.irecs && p.irec !in s.evicted
    && (forall j :: 0 <= j < |s.list| && s.list[j] in s.recs ==> s.recs[s.list[j]].unique != p.target)
    && (forall j :: 0 <= j < |s.interrupts| && j != k ==>
          s.interrupts[j].target != p.target && s.interrupts[j].irec != p.irec)
  }

  predicate ListOk(s: State) {
    && (forall j :: 0 <= j < |s.list| ==> s.list[j] in s.recs)
    && (forall j, k :: 0 <= j < k < |s.list| ==> s.list[j] != s.list[k])
    && (forall j, k :: 0 <= j < k < |s.list| ==> s.recs[s.list[j]].unique != s.recs[s.list[k]].unique)
  }

  /** No record is destroyed twice, and none that is in use has been destroyed. */
  predicate DeadOk(s: State) {
    && (forall j, k :: 0 <= j < k < |s.dead| ==> s.dead[j] != s.dead[k])
    && (forall r :: r in s.recs || r in s.irecs ==> r !in s.dead)
    && (forall r :: r in s.recs ==> r !in s.irecs)
    && s.evicted <= s.irecs && (forall r :: r in s.doomed ==> r in s.recs)
  }

  ghost predicate Inv(s: State) {
    && ListOk(s) && DeadOk(s)
    && (forall r {:trigger RecOk(s, r)} :: r in s.recs ==> RecOk(s, r))
    && (forall t {:trigger ThreadOk(s, t)} :: t in s.threads ==> ThreadOk(s, t))
    && (forall k {:trigger PendingOk(s, k)} :: 0 <= k < |s.interrupts| ==> PendingOk(s, k))
    && (forall t, u :: t in s.threads && u in s.threads && t != u ==> s.threads[t].irec != s.threads[u].irec)
  }

  // ----- the steps ----------------------------------------------------------

  predicate Fresh(s: State, r: Rid) {
    r !in s.recs && r !in s.irecs && r !in s.dead
  }

  predicate Active(s: State, unique: nat) {
    exists j :: 0 <= j < |s.list| && s.list[j] in s.recs && s.recs[s.list[j]].unique == unique
  }

  function NewRec(unique: nat, interrupted: bool): Rec {
    Rec(unique, 1, interrupted, None, Free, false, false)
  }

  /** The pending interrupt for `unique`, or the number of them. */
  function PendingFor(q: seq<Pending>, unique: nat): (k: nat)
    ensures k <= |q| && (k < |q| ==> q[k].target == unique)
    ensures forall j :: 0 <= j < k ==> q[j].target != unique
  {
    if q == [] then 0 else if q[0].target == unique then 0 else
      var k := PendingFor(q[1..], unique);
      assert forall j :: 0 < j < k + 1 ==> q[j] == q[1..][j - 1];
      k + 1
  }

  /** check_interrupt: drop the interrupt aimed at the new request, or else evict the oldest one. */
  function CheckInterrupt(s: State, unique: nat): State {
    var k := PendingFor(s.interrupts, unique);
    if k < |s.interrupts| then Answer(Evict(s, k), s.interrupts[k].irec)
    else if s.interrupts == [] then s
    else Evict(s, 0)
  }

  /** Taking a pending interrupt off the list. */
  function Evict(s: State, k: nat): State
    requires k < |s.interrupts|
  {
    s.(interrupts := Without(s.interrupts, k), evicted := s.evicted + {s.interrupts[k].irec})
  }

  /** list_add_req of a new request. */
  function AddReq(s: State, r: Rid, unique: nat, interrupted: bool): State {
    s.(recs := s.recs[r := NewRec(unique, interrupted)], list := s.list + [r])
  }

  /** The arrival step of fuse_session_process_buf_int. */
  function Arrive(s: State, r: Rid, unique: nat): State {
    AddReq(CheckInterrupt(s, unique), r, unique, PendingFor(s.interrupts, unique) < |s.interrupts|)
  }

  /** fuse_reply_err(intr, EAGAIN) of an evicted interrupt, which frees its record. */
  function Answer(s: State, i: Rid): State {
    s.(evicted := s.evicted - {i}, irecs := s.irecs - {i}, dead := s.dead + [i])
  }

  /** do_interrupt up to the point where find_interrupted lets go of `se->lock`. */
  function Interrupt(s: State, t: Tid, i: Rid, target: nat, j: nat): State {
    if j < |s.list| && s.list[j] in s.recs then
      var r := s.list[j];
      s.(recs := s.recs[r := s.recs[r].(ctr := s.recs[r].ctr + 1)],
         threads := s.threads[t := Waiting(r, i)], irecs := s.irecs + {i})
    else if PendingFor(s.interrupts, target) < |s.interrupts| then s.(dead := s.dead + [i])
    else s.(interrupts := s.interrupts + [Pending(i, target)], irecs := s.irecs + {i})
  }

  /** find_interrupted takes the request's lock and marks it interrupted. */
  function TakeLock(s: State, t: Tid): State
    requires t in s.threads && s.threads[t].curr in s.recs
  {
    var p := s.threads[t];
    var q := s.recs[p.curr];
    s.(recs := s.recs[p.curr := q.(lock := Handler(t), interrupted := true)],
       threads := s.threads[t := Calling(p.curr, p.irec, q.func)])
  }

  /** The callback, if there is one, has run; the request's lock is released. */
  function Called(s: State, t: Tid): State
    requires t in s.threads && s.threads[t].Calling? && s.threads[t].curr in s.recs
  {
    var p := s.threads[t];
    var q := s.recs[p.curr];
    s.(recs := s.recs[p.curr := q.(lock := Free, ran := q.ran || p.func.Some?)],
       threads := s.threads[t := Finishing(p.curr, p.irec)])
  }

  /** The rest of find_interrupted and of do_interrupt under `se->lock`. */
  function Finish(s: State, t: Tid): State
    requires t in s.threads && s.threads[t].curr in s.recs
  {
    var p := s.threads[t];
    var q := s.recs[p.curr].(ctr := s.recs[p.curr].ctr - 1);
    var u := s.(threads := s.threads - {t}, irecs := s.irecs - {p.irec});
    if q.ctr == 0 then u.(recs := s.recs - {p.curr}, dead := s.dead + [p.curr, p.irec])
    else u.(recs := s.recs[p.curr := q], dead := s.dead + [p.irec])
  }

  /** fuse_req_interrupt_func up to the release of `se->lock`. */
  function Register(s: State, r: Rid, f: Option<Func>): State
    requires r in s.recs
  {
    s.(recs := s.recs[r := s.recs[r].(lock := Owner, func := f, ran := false)])
  }

  /** ... and from there on: run the callback if the request has been interrupted. */
  function Registered(s: State, r: Rid): State
    requires r in s.recs
  {
    var q := s.recs[r];
    s.(recs := s.recs[r := q.(lock := Free, ran := q.interrupted && q.func.Some?)])
  }

  /** fuse_free_req under `se->lock`. */
  function FreeReq(s: State, r: Rid, j: nat): State
    requires r in s.recs && j < |s.list|
  {
    var q := s.recs[r].(func := None, ctr := s.recs[r].ctr - 1, freed := true);
    s.(recs := s.recs[r := q], list := Without(s.list, j),
       doomed := if q.ctr == 0 then s.doomed + {r} else s.doomed)
  }

  /** The owner destroys a request that nobody else was using. */
  function Destroy(s: State, r: Rid): State {
    s.(recs := s.recs - {r}, doomed := s.doomed - {r}, dead := s.dead + [r])
  }

  datatype Action =
    | DoArrive(r: Rid, unique: nat)
    | DoAnswer(r: Rid)
    | DoInterrupt(t: Tid, i: Rid, target: nat, j: nat)
    | DoTakeLock(t: Tid)
    | DoCalled(t: Tid)
    | DoFinish(t: Tid)
    | DoRegister(r: Rid, f: Option<Func>)
    | DoRegistered(r: Rid)
    | DoFree(r: Rid, j: nat)
    | DoDestroy(r: Rid)

  /**
   When a step may happen. The kernel gives concurrent requests distinct unique
   numbers; a request's owner registers callbacks before it replies, replies
   once, and does one thing at a time; records are new memory.
   */
  predicate Allowed(s: State, a: Action) {
    match a
    case DoArrive(r, unique) => Fresh(s, r) && !Active(s, unique)
    case DoAnswer(i) => i in s.evicted
    case DoInterrupt(t, i, target, j) =>
      && t !in s.threads && Fresh(s, i) && j <= |s.list|
      && (j < |s.list| ==> s.list[j] in s.recs && s.recs[s.list[j]].unique == target)
      && (j == |s.list| ==> !Active(s, target))
    case DoTakeLock(t) =>
      t in s.threads && s.threads[t].Waiting? && s.threads[t].curr in s.recs && s.recs[s.threads[t].curr].lock.Free?
    case DoCalled(t) => t in s.threads && s.threads[t].Calling? && s.threads[t].curr in s.recs
    case DoFinish(t) => t in s.threads && s.threads[t].Finishing? && s.threads[t].curr in s.recs
    case DoRegister(r, f) => r in s.recs && !s.recs[r].freed && s.recs[r].lock.Free?
    case DoRegistered(r) => r in s.recs && s.recs[r].lock.Owner?
    case DoFree(r, j) =>
      r in s.recs && !s.recs[r].freed && !s.recs[r].lock.Owner? && j < |s.list| && s.list[j] == r
    case DoDestroy(r) => r in s.doomed
  }

  function Apply(s: State, a: Action): State
    requires Allowed(s, a)
  {
    match a
    case DoArrive(r, unique) => Arrive(s, r, unique)
    case DoAnswer(i) => Answer(s, i)
    case DoInterrupt(t, i, target, j) => Interrupt(s, t, i, target, j)
    case DoTakeLock(t) => TakeLock(s, t)
    case DoCalled(t) => Called(s, t)
    case DoFinish(t) => Finish(s, t)
    case DoRegister(r, f) => Register(s, r, f)
    case DoRegistered(r) => Registered(s, r)
    case DoFree(r, j) => FreeReq(s, r, j)
    case DoDestroy(r) => Destroy(s, r)
  }

  const Init: State := State(map[], {}, [], [], map[], {}, {}, [])

  // ----- the code -----------------------------------------------------------

  class Session {
    var recs: map<Rid, Rec>
    var irecs: set<Rid>
    var list: seq<Rid>              // se->list
    var interrupts: seq<Pending>    // se->interrupts
    var threads: map<Tid, Phase>
    var evicted: set<Rid>
    var doomed: set<Rid>
    ghost var dead: seq<Rid>

    ghost function View(): State
      reads this
    {
      State(recs, irecs, list, interrupts, threads, evicted, doomed, dead)
    }

    constructor ()
      ensures View() == Init
    {
      recs, irecs, list, interrupts, threads := map[], {}, [], [], map[];
      evicted, doomed, dead := {}, {}, [];
    }

    /** The walk over se->interrupts. */
    method FindPending(unique: nat) returns (k: nat)
      ensures k == PendingFor(interrupts, unique)
    {
      k := 0;
      while k < |interrupts| && interrupts[k].target != unique
        invariant k <= |interrupts| && forall j :: 0 <= j < k ==> interrupts[j].target != unique
      {
        k := k + 1;
      }
    }

    /** The walk over se->list. */
    method FindActive(unique: nat) returns (j: nat)
      requires ListOk(View())
      ensures j <= |list|
      ensures j < |list| ==> list[j] in recs && recs[list[j]].unique == unique
      ensures j == |list| ==> !Active(View(), unique)
    {
      j := 0;
      while j < |list| && recs[list[j]].unique != unique
        invariant j <= |list| && forall i :: 0 <= i < j ==> recs[list[i]].unique != unique
      {
        j := j + 1;
      }
    }

    /** The arrival step of fuse_session_process_buf_int, with check_interrupt. */
    method ProcessRequest(r: Rid, unique: nat)
      requires Allowed(View(), DoArrive(r, unique))
      modifies this
      ensures View() == Apply(old(View()), DoArrive(r, unique))
      ensures recs[r].interrupted <==> old(exists p :: p in interrupts && p.target == unique)
    {
      var k := FindPending(unique);
      var interrupted := false;
      if k < |interrupts| {
        var i := interrupts[k].irec;
        interrupted := true;
        irecs, evicted, dead := irecs - {i}, evicted - {i}, dead + [i];
        interrupts := Without(interrupts, k);
      } else if interrupts != [] {
        evicted := evicted + {interrupts[0].irec};
        interrupts := Without(interrupts, 0);
      }
      recs := recs[r := NewRec(unique, interrupted)];
      list := list + [r];
    }

    /** do_interrupt, and find_interrupted until it drops se->lock; says whether a request was found. */
    method HandleInterrupt(t: Tid, i: Rid, target: nat) returns (j: nat)
      requires ListOk(View()) && t !in threads && Fresh(View(), i)
      modifies this
      ensures Allowed(old(View()), DoInterrupt(t, i, target, j))
      ensures View() == Apply(old(View()), DoInterrupt(t, i, target, j))
    {
      j := FindActive(target);
      if j < |list| {
        var r := list[j];
        recs := recs[r := recs[r].(ctr := recs[r].ctr + 1)];
        threads := threads[t := Waiting(r, i)];
        irecs := irecs + {i};
      } else {
        var k := FindPending(target);
        if k < |interrupts| {
          dead := dead + [i];
        } else {
          interrupts := interrupts + [Pending(i, target)];
          irecs := irecs + {i};
        }
      }
    }

    /** fuse_req_interrupt_func: the two halves, between which the request's lock stays taken. */
    method SetInterruptFunc(r: Rid, f: Option<Func>)
      requires Allowed(View(), DoRegister(r, f))
      modifies this`recs
      ensures View() == Registered(Register(old(View()), r, f), r)
    {
      recs := recs[r := recs[r].(lock := Owner, func := f, ran := false)];
      if recs[r].interrupted && f.Some? {
        recs := recs[r := recs[r].(ran := true)];
      }
      recs := recs[r := recs[r].(lock := Free)];
    }

    /** fuse_free_req; says whether the caller must destroy the record. */
    method FreeRequest(r: Rid, j: nat) returns (last: bool)
      requires Allowed(View(), DoFree(r, j))
      modifies this
      ensures View() == Apply(old(View()), DoFree(r, j))
      ensures last <==> View().recs[r].ctr == 0
      ensures Inv(old(View())) ==> (last <==> Users(old(View()), r) == {})
    {
      assert Inv(View()) ==> RecOk(View(), r);
      recs := recs[r := recs[r].(func := None, ctr := recs[r].ctr - 1, freed := true)];
      list := Without(list, j);
      last := recs[r].ctr == 0;
      if last {
        doomed := doomed + {r};
      }
    }
  }
}
