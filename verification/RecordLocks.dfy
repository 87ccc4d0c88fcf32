/**
 POSIX byte-range locks of one node: locks_conflict and locks_insert on the
 node's list, against the map from owner and byte to the kind of lock held
 that fcntl() record locking describes.
 */
module RecordLocks {
  import opened Basics

  datatype Kind = F_RDLCK | F_WRLCK | F_UNLCK

  const OFFSET_MAX: int := 0x7fff_ffff_ffff_ffff

  datatype Lock = Lock(kind: Kind, start: int, end: int, pid: int, owner: nat)

  predicate InRange(l: Lock) {
    0 <= l.start <= l.end <= OFFSET_MAX
  }

  predicate Covers(l: Lock, off: int) {
    l.start <= off <= l.end
  }

  /** Some lock of `owner` on the list covers byte `off` with `kind`. */
  predicate Held(ls: seq<Lock>, owner: nat, off: int, kind: Kind) {
    exists l :: l in ls && l.owner == owner && l.kind == kind && Covers(l, off)
  }

  /** `a` ends before `b` starts, with a gap in between if they could be one lock. */
  predicate Before(a: Lock, b: Lock) {
    if a.kind == b.kind then a.end + 1 < b.start else a.end < b.start
  }

  /** Each owner's locks are sorted, disjoint and merged wherever they can be. */
  ghost predicate Ordered(ls: seq<Lock>) {
    ls == [] ||
    ((forall l :: l in ls[1..] && l.owner == ls[0].owner ==> Before(ls[0], l)) && Ordered(ls[1..]))
  }

  ghost predicate Proper(ls: seq<Lock>) {
    Ordered(ls) && forall l :: l in ls ==> InRange(l) && l.kind != F_UNLCK
  }

  // ----- locks_insert as a function of the list -----------------------------

  datatype Turn = Skip(l: Lock) | Stop(l: Lock) | Inside | Absorb(lock: Lock) | Split(l: Lock, m: Lock)

  /** What the loop does with the list element `l` while inserting `lock`. */
  function Look(l: Lock, lock: Lock): Turn {
    if l.owner != lock.owner then Skip(l)
    else if lock.kind == l.kind then
      if l.end < lock.start - 1 then Skip(l)
      else if lock.end < l.start - 1 then Stop(l)
      else if l.start <= lock.start && lock.end <= l.end then Inside
      else Absorb(lock.(start := if l.start < lock.start then l.start else lock.start,
                        end := if lock.end < l.end then l.end else lock.end))
    else
      if l.end < lock.start then Skip(l)
      else if lock.end < l.start then Stop(l)
      else if lock.start <= l.start && l.end <= lock.end then Absorb(lock)
      else if l.end <= lock.end then Skip(l.(end := lock.start - 1))
      else if lock.start <= l.start then Stop(l.(start := lock.end + 1))
      else Split(l.(end := lock.start - 1), l.(start := lock.end + 1))
  }

  function Placed(lock: Lock): seq<Lock> {
    if lock.kind == F_UNLCK then [] else [lock]
  }

  function Insert(ls: seq<Lock>, lock: Lock): seq<Lock> {
    if ls == [] then Placed(lock)
    else
      match Look(ls[0], lock)
      case Skip(l) => [l] + Insert(ls[1..], lock)
      case Stop(l) => Placed(lock) + [l] + ls[1..]
      case Inside => ls
      case Absorb(wider) => Insert(ls[1..], wider)
      case Split(l, m) => [l] + Placed(lock) + [m] + ls[1..]
  }

  // ----- the list stays proper ----------------------------------------------

  /** Whatever comes before the new lock and before the old ones comes before the result. */
  lemma {:induction false} InsertAfter(ls: seq<Lock>, lock: Lock, a: Lock, e: Lock)
    requires Before(a, lock) && e in Insert(ls, lock) && e.owner == lock.owner
    requires forall l :: l in ls && l.owner == lock.owner ==> Before(a, l)
    ensures Before(a, e)
    decreases |ls|
  {
    if ls != [] {
      assert ls[0] in ls && forall l :: l in ls[1..] ==> l in ls;
      match Look(ls[0], lock) {
        case Skip(l) => if e != l { InsertAfter(ls[1..], lock, a, e); }
        case Stop(l) =>
        case Inside =>
        case Absorb(wider) => InsertAfter(ls[1..], wider, a, e);
        case Split(l, m) =>
      }
    }
  }

  /** The other owners' locks are all there, untouched and in the same order. */
  lemma {:induction false} InsertOthers(ls: seq<Lock>, lock: Lock)
    ensures Others(Insert(ls, lock), lock.owner) == Others(ls, lock.owner)
    decreases |ls|
  {
    if ls == [] {
    } else {
      var rest := ls[1..];
      match Look(ls[0], lock) {
        case Skip(l) =>
          InsertOthers(rest, lock);
          OthersCat([l], Insert(rest, lock), lock.owner);
        case Stop(l) =>
          OthersCat(Placed(lock), [l] + rest, lock.owner);
          OthersCat([l], rest, lock.owner);
          assert Placed(lock) + [l] + rest == Placed(lock) + ([l] + rest);
        case Inside =>
        case Absorb(wider) => InsertOthers(rest, wider);
        case Split(l, m) =>
          OthersCat([l] + Placed(lock) + [m], rest, lock.owner);
          OthersCat([l] + Placed(lock), [m], lock.owner);
          OthersCat([l], Placed(lock), lock.owner);
      }
    }
  }

  function Others(ls: seq<Lock>, owner: nat): seq<Lock> {
    if ls == [] then [] else (if ls[0].owner == owner then [] else [ls[0]]) + Others(ls[1..], owner)
  }

  lemma {:induction false} OthersCat(a: seq<Lock>, b: seq<Lock>, owner: nat)
    ensures Others(a + b, owner) == Others(a, owner) + Others(b, owner)
  {
    if a == [] {
      assert a + b == b;
    } else {
      OthersCat(a[1..], b, owner);
      assert (a + b)[1..] == a[1..] + b && (a + b)[0] == a[0];
      Associative(if a[0].owner == owner then [] else [a[0]], Others(a[1..], owner), Others(b, owner));
    }
  }

  lemma {:induction false} OthersMember(ls: seq<Lock>, owner: nat, l: Lock)
    ensures l in Others(ls, owner) <==> l in ls && l.owner != owner
  {
    if ls != [] {
      OthersMember(ls[1..], owner, l);
      assert ls == [ls[0]] + ls[1..];
    }
  }

  lemma OtherIn(ls: seq<Lock>, lock: Lock, l: Lock)
    requires l.owner != lock.owner
    ensures l in Insert(ls, lock) <==> l in ls
  {
    InsertOthers(ls, lock);
    OthersMember(ls, lock.owner, l);
    OthersMember(Insert(ls, lock), lock.owner, l);
  }

  /** Every element of the result is in range and is a real lock. */
  lemma {:induction false} InsertRange(ls: seq<Lock>, lock: Lock, e: Lock)
    requires InRange(lock) && e in Insert(ls, lock)
    requires forall l :: l in ls ==> InRange(l) && l.kind != F_UNLCK
    ensures InRange(e) && e.kind != F_UNLCK
    decreases |ls|
  {
    if ls != [] {
      assert ls[0] in ls && forall l :: l in ls[1..] ==> l in ls;
      match Look(ls[0], lock) {
        case Skip(l) => if e != l { InsertRange(ls[1..], lock, e); }
        case Stop(l) =>
        case Inside =>
        case Absorb(wider) => InsertRange(ls[1..], wider, e);
        case Split(l, m) =>
      }
    }
  }

  lemma OrderedCons(l: Lock, rest: seq<Lock>)
    requires Ordered(rest) && forall e :: e in rest && e.owner == l.owner ==> Before(l, e)
    ensures Ordered([l] + rest)
  {
    assert ([l] + rest)[1..] == rest;
  }

  lemma OrderedPlaced(lock: Lock, rest: seq<Lock>)
    requires Ordered(rest) && forall e :: e in rest && e.owner == lock.owner ==> Before(lock, e)
    ensures Ordered(Placed(lock) + rest)
  {
    if lock.kind == F_UNLCK {
      assert Placed(lock) + rest == rest;
    } else {
      OrderedCons(lock, rest);
    }
  }

  lemma OrderedStop(l: Lock, rest: seq<Lock>, lock: Lock)
    requires Proper([l] + rest) && InRange(lock) && Look(l, lock).Stop?
    ensures Ordered(Placed(lock) + [Look(l, lock).l] + rest)
  {
    var k := Look(l, lock).l;
    assert ([l] + rest)[1..] == rest && l in [l] + rest;
    assert forall e :: e in rest ==> e in [l] + rest;
    OrderedCons(k, rest);
    OrderedPlaced(lock, [k] + rest);
    assert Placed(lock) + [k] + rest == Placed(lock) + ([k] + rest);
  }

  lemma OrderedSplit(l: Lock, rest: seq<Lock>, lock: Lock)
    requires Proper([l] + rest) && InRange(lock) && Look(l, lock).Split?
    ensures Ordered([Look(l, lock).l] + Placed(lock) + [Look(l, lock).m] + rest)
  {
    var k, m := Look(l, lock).l, Look(l, lock).m;
    assert ([l] + rest)[1..] == rest && l in [l] + rest;
    assert forall e :: e in rest ==> e in [l] + rest;
    OrderedCons(m, rest);
    OrderedPlaced(lock, [m] + rest);
    OrderedCons(k, Placed(lock) + ([m] + rest));
    assert [k] + Placed(lock) + [m] + rest == [k] + (Placed(lock) + ([m] + rest));
  }

  lemma OrderedSkip(l: Lock, rest: seq<Lock>, lock: Lock)
    requires Proper([l] + rest) && InRange(lock) && Look(l, lock).Skip? && Ordered(Insert(rest, lock))
    ensures Ordered([Look(l, lock).l] + Insert(rest, lock))
  {
    var k := Look(l, lock).l;
    assert ([l] + rest)[1..] == rest && l in [l] + rest;
    forall e | e in Insert(rest, lock) && e.owner == k.owner ensures Before(k, e) {
      if l.owner == lock.owner {
        InsertAfter(rest, lock, k, e);
      } else {
        OtherIn(rest, lock, e);
      }
    }
    OrderedCons(k, Insert(rest, lock));
  }

  lemma ProperRest(ls: seq<Lock>)
    requires Proper(ls) && ls != []
    ensures Proper(ls[1..]) && ls == [ls[0]] + ls[1..] && InRange(ls[0])
  {
    assert ls[0] in ls && forall l :: l in ls[1..] ==> l in ls;
  }

  lemma {:induction false} InsertOrdered(ls: seq<Lock>, lock: Lock)
    requires Proper(ls) && InRange(lock)
    ensures Ordered(Insert(ls, lock))
    decreases |ls|
  {
    if ls == [] {
      OrderedPlaced(lock, []);
      assert Placed(lock) + [] == Placed(lock);
    } else {
      ProperRest(ls);
      match Look(ls[0], lock) {
        case Skip(l) =>
          InsertOrdered(ls[1..], lock);
          OrderedSkip(ls[0], ls[1..], lock);
        case Stop(l) => OrderedStop(ls[0], ls[1..], lock);
        case Inside =>
        case Absorb(wider) => InsertOrdered(ls[1..], wider);
        case Split(l, m) => OrderedSplit(ls[0], ls[1..], lock);
      }
    }
  }

  /** Inserting keeps every owner's list sorted, disjoint and maximally merged. */
  lemma InsertProper(ls: seq<Lock>, lock: Lock)
    requires Proper(ls) && InRange(lock)
    ensures Proper(Insert(ls, lock))
  {
    InsertOrdered(ls, lock);
    forall e | e in Insert(ls, lock) ensures InRange(e) && e.kind != F_UNLCK {
      InsertRange(ls, lock, e);
    }
  }

  // ----- the list refines the byte map --------------------------------------

  predicate AsAsked(lock: Lock, off: int, kind: Kind) {
    Covers(lock, off) && kind == lock.kind && kind != F_UNLCK
  }

  lemma HeldCons(l: Lock, rest: seq<Lock>, owner: nat, off: int, kind: Kind)
    ensures Held([l] + rest, owner, off, kind) <==>
      (l.owner == owner && l.kind == kind && Covers(l, off)) || Held(rest, owner, off, kind)
  {
    assert l in [l] + rest;
    assert forall e :: e in [l] + rest <==> e == l || e in rest;
  }

  lemma HeldPlaced(lock: Lock, rest: seq<Lock>, owner: nat, off: int, kind: Kind)
    ensures Held(Placed(lock) + rest, owner, off, kind) <==>
      (lock.owner == owner && AsAsked(lock, off, kind)) || Held(rest, owner, off, kind)
  {
    if lock.kind == F_UNLCK {
      assert Placed(lock) + rest == rest;
    } else {
      HeldCons(lock, rest, owner, off, kind);
    }
  }

  /** No lock of the owner behind `l` reaches a byte before `l` ends. */
  lemma NothingLater(l: Lock, rest: seq<Lock>, off: int, kind: Kind)
    requires forall e :: e in rest && e.owner == l.owner ==> Before(l, e)
    requires off <= l.end
    ensures !Held(rest, l.owner, off, kind)
  {
  }

  /** What the map says after the request, given what it said before. */
  predicate Wanted(ls: seq<Lock>, lock: Lock, off: int, kind: Kind) {
    if Covers(lock, off) then AsAsked(lock, off, kind) else Held(ls, lock.owner, off, kind)
  }

  lemma OwnSkip(l: Lock, rest: seq<Lock>, lock: Lock, off: int, kind: Kind)
    requires InRange(lock) && InRange(l) && Look(l, lock).Skip?
    requires Held(Insert(rest, lock), lock.owner, off, kind) <==> Wanted(rest, lock, off, kind)
    ensures Held([Look(l, lock).l] + Insert(rest, lock), lock.owner, off, kind) <==> Wanted([l] + rest, lock, off, kind)
  {
    HeldCons(l, rest, lock.owner, off, kind);
    HeldCons(Look(l, lock).l, Insert(rest, lock), lock.owner, off, kind);
  }

  lemma OwnStop(l: Lock, rest: seq<Lock>, lock: Lock, off: int, kind: Kind)
    requires InRange(lock) && InRange(l) && Look(l, lock).Stop?
    requires forall e :: e in rest && e.owner == l.owner ==> Before(l, e)
    ensures Held(Placed(lock) + [Look(l, lock).l] + rest, lock.owner, off, kind) <==> Wanted([l] + rest, lock, off, kind)
  {
    var k := Look(l, lock).l;
    HeldCons(l, rest, lock.owner, off, kind);
    HeldCons(k, rest, lock.owner, off, kind);
    HeldPlaced(lock, [k] + rest, lock.owner, off, kind);
    assert Placed(lock) + [k] + rest == Placed(lock) + ([k] + rest);
    if off <= l.end {
      NothingLater(l, rest, off, kind);
    }
  }

  lemma OwnSplit(l: Lock, rest: seq<Lock>, lock: Lock, off: int, kind: Kind)
    requires InRange(lock) && InRange(l) && Look(l, lock).Split?
    requires forall e :: e in rest && e.owner == l.owner ==> Before(l, e)
    ensures Held([Look(l, lock).l] + Placed(lock) + [Look(l, lock).m] + rest, lock.owner, off, kind)
       <==> Wanted([l] + rest, lock, off, kind)
  {
    var k, m := Look(l, lock).l, Look(l, lock).m;
    HeldCons(l, rest, lock.owner, off, kind);
    HeldCons(m, rest, lock.owner, off, kind);
    HeldPlaced(lock, [m] + rest, lock.owner, off, kind);
    HeldCons(k, Placed(lock) + ([m] + rest), lock.owner, off, kind);
    assert [k] + Placed(lock) + [m] + rest == [k] + (Placed(lock) + ([m] + rest));
    if off <= l.end {
      NothingLater(l, rest, off, kind);
    }
  }

  lemma OwnAbsorb(l: Lock, rest: seq<Lock>, lock: Lock, off: int, kind: Kind)
    requires InRange(lock) && InRange(l) && Look(l, lock).Absorb? && l.kind != F_UNLCK
    requires forall e :: e in rest && e.owner == l.owner ==> Before(l, e)
    ensures Wanted(rest, Look(l, lock).lock, off, kind) <==> Wanted([l] + rest, lock, off, kind)
  {
    HeldCons(l, rest, lock.owner, off, kind);
    if off <= l.end {
      NothingLater(l, rest, off, kind);
    }
  }

  lemma OwnInside(l: Lock, rest: seq<Lock>, lock: Lock, off: int, kind: Kind)
    requires InRange(lock) && Look(l, lock).Inside? && l.kind != F_UNLCK
    requires forall e :: e in rest && e.owner == l.owner ==> Before(l, e)
    ensures Held([l] + rest, lock.owner, off, kind) <==> Wanted([l] + rest, lock, off, kind)
  {
    HeldCons(l, rest, lock.owner, off, kind);
    if off <= l.end {
      NothingLater(l, rest, off, kind);
    }
  }

  /**
   The owner's bytes in the requested range become the requested kind, or
   nothing for F_UNLCK; all its other bytes stay as they were.
   */
  lemma {:induction false} InsertOwn(ls: seq<Lock>, lock: Lock, off: int, kind: Kind)
    requires Proper(ls) && InRange(lock)
    ensures Held(Insert(ls, lock), lock.owner, off, kind) <==>
      if Covers(lock, off) then AsAsked(lock, off, kind) else Held(ls, lock.owner, off, kind)
    decreases |ls|
  {
    if ls == [] {
      HeldPlaced(lock, [], lock.owner, off, kind);
      assert Placed(lock) + [] == Placed(lock);
    } else {
      ProperRest(ls);
      match Look(ls[0], lock) {
        case Skip(l) =>
          InsertOwn(ls[1..], lock, off, kind);
          OwnSkip(ls[0], ls[1..], lock, off, kind);
        case Stop(l) => OwnStop(ls[0], ls[1..], lock, off, kind);
        case Inside => OwnInside(ls[0], ls[1..], lock, off, kind);
        case Absorb(wider) =>
          InsertOwn(ls[1..], wider, off, kind);
          OwnAbsorb(ls[0], ls[1..], lock, off, kind);
        case Split(l, m) => OwnSplit(ls[0], ls[1..], lock, off, kind);
      }
    }
  }

  lemma InsertForeign(ls: seq<Lock>, lock: Lock, owner: nat, off: int, kind: Kind)
    requires owner != lock.owner
    ensures Held(Insert(ls, lock), owner, off, kind) <==> Held(ls, owner, off, kind)
  {
    forall l: Lock | l.owner == owner ensures l in Insert(ls, lock) <==> l in ls {
      OtherIn(ls, lock, l);
    }
  }

  // ----- conflicts ----------------------------------------------------------

  predicate Clashes(l: Lock, lock: Lock) {
    && l.owner != lock.owner && lock.start <= l.end && l.start <= lock.end
    && (l.kind == F_WRLCK || lock.kind == F_WRLCK)
  }

  /** Locks of different owners share a byte only if both are read locks. */
  ghost predicate Compatible(ls: seq<Lock>) {
    forall o, p, off, k, m :: o != p && Held(ls, o, off, k) && Held(ls, p, off, m) ==> k == F_RDLCK && m == F_RDLCK
  }

  /** Inserting a request without a conflict keeps the whole list free of conflicts at every byte. */
  lemma InsertCompatible(ls: seq<Lock>, lock: Lock)
    requires Proper(ls) && InRange(lock) && Compatible(ls)
    requires lock.kind == F_UNLCK || forall l :: l in ls ==> !Clashes(l, lock)
    ensures Compatible(Insert(ls, lock))
  {
    var ns := Insert(ls, lock);
    forall o, p, off, k, m | o != p && Held(ns, o, off, k) && Held(ns, p, off, m)
      ensures k == F_RDLCK && m == F_RDLCK
    {
      if o == lock.owner {
        PairCompatible(ls, lock, p, off, k, m);
      } else if p == lock.owner {
        PairCompatible(ls, lock, o, off, m, k);
      } else {
        InsertForeign(ls, lock, o, off, k);
        InsertForeign(ls, lock, p, off, m);
      }
    }
  }

  lemma PairCompatible(ls: seq<Lock>, lock: Lock, p: nat, off: int, k: Kind, m: Kind)
    requires Proper(ls) && InRange(lock) && Compatible(ls) && p != lock.owner
    requires lock.kind == F_UNLCK || forall l :: l in ls ==> !Clashes(l, lock)
    requires Held(Insert(ls, lock), lock.owner, off, k) && Held(Insert(ls, lock), p, off, m)
    ensures k == F_RDLCK && m == F_RDLCK
  {
    InsertForeign(ls, lock, p, off, m);
    InsertOwn(ls, lock, off, k);
    if Covers(lock, off) && lock.kind != F_UNLCK {
      var l :| l in ls && l.owner == p && l.kind == m && Covers(l, off);
      assert !Clashes(l, lock);
    }
  }

  // ----- whole histories ----------------------------------------------------

  /** The list after a history of requests on a fresh node. */
  function After(history: seq<Lock>): seq<Lock> {
    if history == [] then [] else Insert(After(history[..|history| - 1]), history[|history| - 1])
  }

  /** What the owner's last request on a byte left there. */
  function LastWord(history: seq<Lock>, owner: nat, off: int): Option<Kind> {
    if history == [] then None
    else
      var r := history[|history| - 1];
      if r.owner == owner && Covers(r, off) then (if r.kind == F_UNLCK then None else Some(r.kind))
      else LastWord(history[..|history| - 1], owner, off)
  }

  /** After any history the list says, byte by byte and owner by owner, exactly what was last asked for. */
  lemma {:induction false} HistoryRefines(history: seq<Lock>, owner: nat, off: int, kind: Kind)
    requires forall r :: r in history ==> InRange(r)
    ensures Proper(After(history))
    ensures Held(After(history), owner, off, kind) <==> LastWord(history, owner, off) == Some(kind)
  {
    if history != [] {
      var prefix, r := history[..|history| - 1], history[|history| - 1];
      assert r in history && forall q :: q in prefix ==> q in history;
      HistoryRefines(prefix, owner, off, kind);
      InsertProper(After(prefix), r);
      if r.owner == owner {
        InsertOwn(After(prefix), r, off, kind);
      } else {
        InsertForeign(After(prefix), r, owner, off, kind);
      }
    }
  }

  /** If each lock was asked for only when locks_conflict found nothing, no byte is ever held in conflict. */
  lemma {:induction false} HistoryCompatible(history: seq<Lock>)
    requires forall r :: r in history ==> InRange(r)
    requires forall k, l :: 0 <= k < |history| && l in After(history[..k]) ==>
      history[k].kind == F_UNLCK || !Clashes(l, history[k])
    ensures Compatible(After(history))
  {
    if history != [] {
      var n := |history| - 1;
      var prefix, r := history[..n], history[n];
      assert r in history && forall q :: q in prefix ==> q in history;
      forall k, l | 0 <= k < |prefix| && l in After(prefix[..k])
        ensures prefix[k].kind == F_UNLCK || !Clashes(l, prefix[k])
      {
        assert prefix[..k] == history[..k];
      }
      HistoryCompatible(prefix);
      HistoryRefines(prefix, 0, 0, F_RDLCK);
      InsertCompatible(After(prefix), r);
    }
  }

  // ----- the code -----------------------------------------------------------

  class Node {
    var locks: seq<Lock>

    constructor ()
      ensures locks == []
    {
      locks := [];
    }

    /** locks_conflict: the first lock another owner holds against the request. */
    method Conflict(lock: Lock) returns (r: Option<Lock>)
      requires InRange(lock) && Proper(locks)
      ensures r.Some? ==> exists i :: 0 <= i < |locks| && locks[i] == r.value && Clashes(r.value, lock)
                                   && forall k :: 0 <= k < i ==> !Clashes(locks[k], lock)
      ensures r.Some? <==> exists o, off, k :: o != lock.owner && Covers(lock, off) && Held(locks, o, off, k)
                                               && (k == F_WRLCK || lock.kind == F_WRLCK)
    {
      var i := 0;
      while i < |locks|
        invariant i <= |locks| && forall k :: 0 <= k < i ==> !Clashes(locks[k], lock)
      {
        var l := locks[i];
        if l.owner != lock.owner && lock.start <= l.end && l.start <= lock.end
           && (l.kind == F_WRLCK || lock.kind == F_WRLCK) {
          var off := if l.start < lock.start then lock.start else l.start;
          assert Covers(lock, off) && Covers(l, off);
          assert Held(locks, l.owner, off, l.kind);
          return Some(l);
        }
        i := i + 1;
      }
      r := None;
    }

    /**
     locks_insert, with the spare records taken as allocated; `newl2` says that
     the second one is there and still unused.
     */
    method InsertLock(request: Lock)
      requires Proper(locks) && InRange(request)
      modifies this
      ensures locks == Insert(old(locks), request)
    {
      ghost var full := Insert(locks, request);
      var lock := request;
      var newl2 := request.kind != F_UNLCK || request.start != 0 || request.end != OFFSET_MAX;
      var i: nat := 0;
      var v := GoOn;
      AtStart(locks, lock);
      while v.GoOn? && i < |locks|
        invariant i <= |locks|
        invariant v.GoOn? ==> Going(full, locks, i, lock) && SpareOk(locks, i, lock, newl2)
        invariant v.Break? ==> full == locks[..i] + Placed(lock) + locks[i..]
        invariant v.Out? ==> full == locks
        decreases v.GoOn?, |locks| - i + if newl2 then 1 else 0
      {
        locks, i, lock, newl2, v := LoopBody(locks, i, lock, newl2, full);
      }
      if v.Out? {
        return;
      }
      if v.GoOn? {
        AtEnd(full, locks, i, lock);
      }
      Put(locks, i, lock);
      if lock.kind != F_UNLCK {
        locks := locks[..i] + [lock] + locks[i..];
      }
    }
  }

  datatype Verdict = GoOn | Break | Out

  /** The spare record is there whenever it will be needed. */
  predicate SpareOk(s: seq<Lock>, i: nat, lock: Lock, newl2: bool) {
    newl2 || AllOfIt(lock) || (i < |s| && Look(s[i], lock).Stop?)
  }

  /** The loop of locks_insert, one list element at a time. */
  method LoopBody(s: seq<Lock>, i: nat, request: Lock, newl2: bool, ghost full: seq<Lock>)
    returns (t: seq<Lock>, j: nat, lock: Lock, spare: bool, v: Verdict)
    requires i < |s| && Going(full, s, i, request) && SpareOk(s, i, request, newl2)
    ensures j <= |t|
    ensures v.GoOn? ==> Going(full, t, j, lock) && SpareOk(t, j, lock, spare)
    ensures v.GoOn? ==> |t| - j + (if spare then 1 else 0) < |s| - i + if newl2 then 1 else 0
    ensures v.Break? ==> full == t[..j] + Placed(lock) + t[j..]
    ensures v.Out? ==> full == t
  {
    t, j, lock, spare, v := s, i, request, newl2, GoOn;
    var l := s[i];
    if l.owner != lock.owner {
      TurnSkip(full, s, i, lock);
      j := i + 1;
    } else if lock.kind == l.kind {
      if l.end < lock.start - 1 {
        TurnSkip(full, s, i, lock);
        j := i + 1;
      } else if lock.end < l.start - 1 {
        TurnStop(full, s, i, lock);
        v := Break;
      } else if l.start <= lock.start && lock.end <= l.end {
        TurnInside(full, s, i, lock);
        v := Out;
      } else {
        TurnAbsorb(full, s, i, lock);
        if l.start < lock.start {
          lock := lock.(start := l.start);
        }
        if lock.end < l.end {
          lock := lock.(end := l.end);
        }
        t := s[..i] + s[i + 1..];
      }
    } else if l.end < lock.start {
      TurnSkip(full, s, i, lock);
      j := i + 1;
    } else if lock.end < l.start {
      TurnStop(full, s, i, lock);
      v := Break;
    } else if lock.start <= l.start && l.end <= lock.end {
      TurnAbsorb(full, s, i, lock);
      t := s[..i] + s[i + 1..];
    } else if l.end <= lock.end {
      TurnSkip(full, s, i, lock);
      t := s[i := l.(end := lock.start - 1)];
      j := i + 1;
    } else if lock.start <= l.start {
      assert lock.end + 1 <= OFFSET_MAX;
      TurnStop(full, s, i, lock);
      t := s[i := l.(start := lock.end + 1)];
      v := Break;
    } else {
      assert newl2 && lock.end + 1 <= OFFSET_MAX;
      TurnSplit(full, s, i, lock);
      t := s[..i] + [l.(end := lock.start - 1)] + [l.(start := lock.end + 1)] + s[i + 1..];
      spare := false;
      j := i + 1;
    }
  }

  lemma Put(s: seq<Lock>, i: nat, lock: Lock)
    requires i <= |s|
    ensures lock.kind == F_UNLCK ==> s == s[..i] + Placed(lock) + s[i..]
  {
  }

  predicate AllOfIt(lock: Lock) {
    lock.kind == F_UNLCK && lock.start == 0 && lock.end == OFFSET_MAX
  }

  // ----- one turn of the loop -----------------------------------------------

  /** The first `i` records are done; the rest is still to be merged with `lock`. */
  ghost predicate Going(full: seq<Lock>, s: seq<Lock>, i: nat, lock: Lock)
    requires i <= |s|
  {
    && InRange(lock) && (forall k :: 0 <= k < |s| ==> InRange(s[k]))
    && full == s[..i] + Insert(s[i..], lock)
  }

  lemma AtStart(s: seq<Lock>, lock: Lock)
    requires Proper(s) && InRange(lock)
    ensures Going(Insert(s, lock), s, 0, lock)
  {
    assert s[..0] == [] && s[0..] == s;
    assert forall k :: 0 <= k < |s| ==> s[k] in s;
  }

  lemma AtEnd(full: seq<Lock>, s: seq<Lock>, i: nat, lock: Lock)
    requires i == |s| && Going(full, s, i, lock)
    ensures full == s[..i] + Placed(lock) + s[i..]
  {
    assert s[i..] == [];
  }

  lemma Unfold(s: seq<Lock>, i: nat, lock: Lock)
    requires i < |s|
    ensures s[i..] != [] && s[i..][0] == s[i] && s[i..][1..] == s[i + 1..]
  {
  }

  lemma TurnSkip(full: seq<Lock>, s: seq<Lock>, i: nat, lock: Lock)
    requires i < |s| && Going(full, s, i, lock) && Look(s[i], lock).Skip?
    ensures Going(full, s[i := Look(s[i], lock).l], i + 1, lock)
  {
    Unfold(s, i, lock);
    var k := Look(s[i], lock).l;
    var t := s[i := k];
    assert t[..i + 1] == s[..i] + [k] && t[i + 1..] == s[i + 1..];
    assert full == s[..i] + ([k] + Insert(s[i + 1..], lock));
  }

  lemma TurnStop(full: seq<Lock>, s: seq<Lock>, i: nat, lock: Lock)
    requires i < |s| && Going(full, s, i, lock) && Look(s[i], lock).Stop?
    ensures var t := s[i := Look(s[i], lock).l]; full == t[..i] + Placed(lock) + t[i..]
  {
    Unfold(s, i, lock);
    var k := Look(s[i], lock).l;
    var t := s[i := k];
    assert t[..i] == s[..i] && t[i..] == [k] + s[i + 1..];
    assert full == s[..i] + (Placed(lock) + [k] + s[i + 1..]);
  }

  lemma TurnInside(full: seq<Lock>, s: seq<Lock>, i: nat, lock: Lock)
    requires i < |s| && Going(full, s, i, lock) && Look(s[i], lock).Inside?
    ensures full == s
  {
    Unfold(s, i, lock);
  }

  lemma TurnAbsorb(full: seq<Lock>, s: seq<Lock>, i: nat, lock: Lock)
    requires i < |s| && Going(full, s, i, lock) && Look(s[i], lock).Absorb?
    ensures Going(full, s[..i] + s[i + 1..], i, Look(s[i], lock).lock)
  {
    Unfold(s, i, lock);
    var t := s[..i] + s[i + 1..];
    assert t[..i] == s[..i] && t[i..] == s[i + 1..];
  }

  lemma TurnSplit(full: seq<Lock>, s: seq<Lock>, i: nat, lock: Lock)
    requires i < |s| && Going(full, s, i, lock) && Look(s[i], lock).Split?
    ensures var l, m := Look(s[i], lock).l, Look(s[i], lock).m;
      var t := s[..i] + [l] + [m] + s[i + 1..];
      Going(full, t, i + 1, lock) && t[i + 1] == m && Look(m, lock).Stop?
  {
    Unfold(s, i, lock);
    var l, m := Look(s[i], lock).l, Look(s[i], lock).m;
    var t := s[..i] + [l] + [m] + s[i + 1..];
    assert t[..i + 1] == s[..i] + [l] && t[i + 1..] == [m] + s[i + 1..];
    assert t[i + 1..][1..] == s[i + 1..];
    assert full == s[..i] + ([l] + Placed(lock) + [m] + s[i + 1..]);
    assert Insert(t[i + 1..], lock) == Placed(lock) + [m] + s[i + 1..];
  }
}
