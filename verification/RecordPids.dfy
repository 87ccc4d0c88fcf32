/**
 Which process a byte-range lock is recorded for: locks_insert keeps, replaces
 and merges records, and F_GETLK reports what they say.
 */
module RecordPids {
  import opened Basics
  import opened RecordLocks

  /** `Held`, with the process that the record names. */
  predicate HeldBy(ls: seq<Lock>, owner: nat, off: int, kind: Kind, pid: int) {
    exists l :: l in ls && l.owner == owner && l.kind == kind && l.pid == pid && Covers(l, off)
  }

  /** `l` overlaps the request or touches it, and is of its kind: the two become one record. */
  predicate Joins(l: Lock, lock: Lock) {
    l.owner == lock.owner && l.kind == lock.kind && l.start <= lock.end + 1 && lock.start <= l.end + 1
  }

  predicate Joined(ls: seq<Lock>, lock: Lock, off: int) {
    exists l :: l in ls && Joins(l, lock) && Covers(l, off)
  }

  /** One record of the owner already says all that is asked for. */
  predicate Whole(ls: seq<Lock>, lock: Lock) {
    exists l :: l in ls && l.owner == lock.owner && l.kind == lock.kind && l.start <= lock.start && lock.end <= l.end
  }

  /** What is recorded of the owner's byte after the request, given what was recorded before. */
  predicate Recorded(ls: seq<Lock>, lock: Lock, off: int, kind: Kind, pid: int) {
    if !Whole(ls, lock) && lock.kind != F_UNLCK && (Covers(lock, off) || Joined(ls, lock, off)) then
      kind == lock.kind && pid == lock.pid
    else if !Whole(ls, lock) && Covers(lock, off) then false
    else HeldBy(ls, lock.owner, off, kind, pid)
  }

  // ----- one request --------------------------------------------------------

  lemma MemberCons(l: Lock, rest: seq<Lock>)
    ensures forall e :: e in [l] + rest <==> e == l || e in rest
  {
  }

  lemma HeldByCons(l: Lock, rest: seq<Lock>, owner: nat, off: int, kind: Kind, pid: int)
    ensures HeldBy([l] + rest, owner, off, kind, pid) <==>
      (l.owner == owner && l.kind == kind && l.pid == pid && Covers(l, off)) || HeldBy(rest, owner, off, kind, pid)
  {
    MemberCons(l, rest);
  }

  lemma JoinedCons(l: Lock, rest: seq<Lock>, lock: Lock, off: int)
    ensures Joined([l] + rest, lock, off) <==> (Joins(l, lock) && Covers(l, off)) || Joined(rest, lock, off)
  {
    MemberCons(l, rest);
  }

  lemma WholeCons(l: Lock, rest: seq<Lock>, lock: Lock)
    ensures Whole([l] + rest, lock) <==>
      (l.owner == lock.owner && l.kind == lock.kind && l.start <= lock.start && lock.end <= l.end) || Whole(rest, lock)
  {
    MemberCons(l, rest);
  }

  lemma HeldByPlaced(lock: Lock, rest: seq<Lock>, owner: nat, off: int, kind: Kind, pid: int)
    ensures HeldBy(Placed(lock) + rest, owner, off, kind, pid) <==>
      (lock.owner == owner && AsAsked(lock, off, kind) && pid == lock.pid) || HeldBy(rest, owner, off, kind, pid)
  {
    if lock.kind == F_UNLCK {
      assert Placed(lock) + rest == rest;
    } else {
      HeldByCons(lock, rest, owner, off, kind, pid);
    }
  }

  /** The owner's records behind `l` begin behind its end. */
  ghost predicate Later(l: Lock, rest: seq<Lock>) {
    forall e :: e in rest && e.owner == l.owner ==> Before(l, e)
  }

  /** Behind a record that reaches the end of the request nothing touches the request any more. */
  lemma NothingJoins(l: Lock, rest: seq<Lock>, lock: Lock, off: int)
    requires Later(l, rest) && InRange(l) && InRange(lock) && l.owner == lock.owner
    requires forall e :: e in rest ==> InRange(e)
    requires l.end > lock.end || (l.kind == lock.kind && l.end >= lock.end)
    ensures !Joined(rest, lock, off) && !Whole(rest, lock)
    ensures off <= l.end ==> forall k, p :: !HeldBy(rest, lock.owner, off, k, p)
  {
  }

  lemma RecordSkip(l: Lock, rest: seq<Lock>, lock: Lock, off: int, kind: Kind, pid: int)
    requires InRange(lock) && InRange(l) && Look(l, lock).Skip? && l.kind != F_UNLCK && Later(l, rest)
    requires HeldBy(Insert(rest, lock), lock.owner, off, kind, pid) <==> Recorded(rest, lock, off, kind, pid)
    ensures HeldBy([Look(l, lock).l] + Insert(rest, lock), lock.owner, off, kind, pid) <==> Recorded([l] + rest, lock, off, kind, pid)
  {
    HeldByCons(l, rest, lock.owner, off, kind, pid);
    HeldByCons(Look(l, lock).l, Insert(rest, lock), lock.owner, off, kind, pid);
    JoinedCons(l, rest, lock, off);
    WholeCons(l, rest, lock);
  }

  lemma RecordStop(l: Lock, rest: seq<Lock>, lock: Lock, off: int, kind: Kind, pid: int)
    requires InRange(lock) && InRange(l) && Look(l, lock).Stop? && l.kind != F_UNLCK && Later(l, rest)
    requires forall e :: e in rest ==> InRange(e)
    ensures HeldBy(Placed(lock) + [Look(l, lock).l] + rest, lock.owner, off, kind, pid) <==> Recorded([l] + rest, lock, off, kind, pid)
  {
    var k := Look(l, lock).l;
    HeldByCons(l, rest, lock.owner, off, kind, pid);
    HeldByCons(k, rest, lock.owner, off, kind, pid);
    HeldByPlaced(lock, [k] + rest, lock.owner, off, kind, pid);
    Associative(Placed(lock), [k], rest);
    JoinedCons(l, rest, lock, off);
    WholeCons(l, rest, lock);
    NothingJoins(l, rest, lock, off);
  }

  lemma RecordSplit(l: Lock, rest: seq<Lock>, lock: Lock, off: int, kind: Kind, pid: int)
    requires InRange(lock) && InRange(l) && Look(l, lock).Split? && l.kind != F_UNLCK && Later(l, rest)
    requires forall e :: e in rest ==> InRange(e)
    ensures HeldBy([Look(l, lock).l] + Placed(lock) + [Look(l, lock).m] + rest, lock.owner, off, kind, pid)
       <==> Recorded([l] + rest, lock, off, kind, pid)
  {
    var k, m := Look(l, lock).l, Look(l, lock).m;
    HeldByCons(l, rest, lock.owner, off, kind, pid);
    HeldByCons(m, rest, lock.owner, off, kind, pid);
    HeldByPlaced(lock, [m] + rest, lock.owner, off, kind, pid);
    HeldByCons(k, Placed(lock) + ([m] + rest), lock.owner, off, kind, pid);
    assert [k] + Placed(lock) + [m] + rest == [k] + (Placed(lock) + ([m] + rest));
    JoinedCons(l, rest, lock, off);
    WholeCons(l, rest, lock);
    NothingJoins(l, rest, lock, off);
  }

  lemma RecordInside(l: Lock, rest: seq<Lock>, lock: Lock, off: int, kind: Kind, pid: int)
    requires InRange(lock) && Look(l, lock).Inside? && l.kind != F_UNLCK
    ensures HeldBy([l] + rest, lock.owner, off, kind, pid) <==> Recorded([l] + rest, lock, off, kind, pid)
  {
    WholeCons(l, rest, lock);
  }

  lemma RecordAbsorb(l: Lock, rest: seq<Lock>, lock: Lock, off: int, kind: Kind, pid: int)
    requires InRange(lock) && InRange(l) && Look(l, lock).Absorb? && l.kind != F_UNLCK && Later(l, rest)
    requires forall e :: e in rest ==> InRange(e)
    ensures Recorded(rest, Look(l, lock).lock, off, kind, pid) <==> Recorded([l] + rest, lock, off, kind, pid)
  {
    HeldByCons(l, rest, lock.owner, off, kind, pid);
    JoinedCons(l, rest, lock, off);
    WholeCons(l, rest, lock);
    if l.kind == lock.kind {
      AbsorbJoins(l, rest, lock, off);
    }
  }

  /** Absorbing a record of the same kind widens the request by just that record. */
  lemma AbsorbJoins(l: Lock, rest: seq<Lock>, lock: Lock, off: int)
    requires InRange(lock) && InRange(l) && Look(l, lock).Absorb? && l.kind == lock.kind && Later(l, rest)
    requires forall e :: e in rest ==> InRange(e)
    ensures var wider := Look(l, lock).lock;
      && (Covers(wider, off) <==> Covers(lock, off) || Covers(l, off))
      && (forall e :: e in rest ==> (Joins(e, wider) <==> Joins(e, lock)))
      && !Whole(rest, lock) && !Whole(rest, wider) && Joins(l, lock)
      && (Joined(rest, wider, off) <==> Joined(rest, lock, off))
      && (Covers(l, off) ==> forall k, p :: !HeldBy(rest, lock.owner, off, k, p))
  {
  }

  /**
   After a request each of its bytes is recorded for the process that asked,
   unless a record of that kind covered the whole request already, which is then
   kept as it is. What touched the request and is of its kind goes over to that
   process too; every other byte keeps what was recorded of it.
   */
  lemma {:induction false} InsertRecorded(ls: seq<Lock>, lock: Lock, off: int, kind: Kind, pid: int)
    requires Proper(ls) && InRange(lock)
    ensures HeldBy(Insert(ls, lock), lock.owner, off, kind, pid) <==> Recorded(ls, lock, off, kind, pid)
    decreases |ls|
  {
    if ls == [] {
      HeldByPlaced(lock, [], lock.owner, off, kind, pid);
      assert Placed(lock) + [] == Placed(lock);
    } else {
      ProperRest(ls);
      match Look(ls[0], lock) {
        case Skip(l) =>
          InsertRecorded(ls[1..], lock, off, kind, pid);
          RecordSkip(ls[0], ls[1..], lock, off, kind, pid);
        case Stop(l) => RecordStop(ls[0], ls[1..], lock, off, kind, pid);
        case Inside => RecordInside(ls[0], ls[1..], lock, off, kind, pid);
        case Absorb(wider) =>
          InsertRecorded(ls[1..], wider, off, kind, pid);
          RecordAbsorb(ls[0], ls[1..], lock, off, kind, pid);
        case Split(l, m) => RecordSplit(ls[0], ls[1..], lock, off, kind, pid);
      }
    }
  }

  lemma InsertOthersRecorded(ls: seq<Lock>, lock: Lock, owner: nat, off: int, kind: Kind, pid: int)
    requires owner != lock.owner
    ensures HeldBy(Insert(ls, lock), owner, off, kind, pid) <==> HeldBy(ls, owner, off, kind, pid)
  {
    forall l: Lock | l.owner == owner ensures l in Insert(ls, lock) <==> l in ls {
      OtherIn(ls, lock, l);
    }
  }

  // ----- whole histories ----------------------------------------------------

  lemma {:induction false} OrderedPair(ls: seq<Lock>, l: Lock, e: Lock)
    requires Ordered(ls) && l in ls && e in ls && l.owner == e.owner && l != e
    ensures Before(l, e) || Before(e, l)
  {
    assert ls == [ls[0]] + ls[1..];
    if l != ls[0] && e != ls[0] {
      OrderedPair(ls[1..], l, e);
    }
  }

  /** Bytes held without a gap and in one way are held by one record. */
  lemma {:induction false} RunIsRecord(ls: seq<Lock>, owner: nat, kind: Kind, a: int, b: int) returns (l: Lock)
    requires Proper(ls) && a <= b && forall x :: a <= x <= b ==> Held(ls, owner, x, kind)
    ensures l in ls && l.owner == owner && l.kind == kind && l.start <= a && b <= l.end
    decreases b - a
  {
    if a == b {
      assert Held(ls, owner, a, kind);
      l :| l in ls && l.owner == owner && l.kind == kind && Covers(l, a);
    } else {
      l := RunIsRecord(ls, owner, kind, a, b - 1);
      assert Held(ls, owner, b, kind);
      var e: Lock :| e in ls && e.owner == owner && e.kind == kind && Covers(e, b);
      if l != e {
        OrderedPair(ls, l, e);
      }
    }
  }

  datatype Who = Who(kind: Kind, pid: int)

  /** After `history` all bytes from `a` to `b` are held in this way. */
  ghost predicate Run(history: seq<Lock>, owner: nat, kind: Kind, a: int, b: int) {
    forall x :: a <= x <= b ==> LastWord(history, owner, x) == Some(kind)
  }

  /** From the byte to the request everything is held as the request asks. */
  ghost predicate Linked(history: seq<Lock>, r: Lock, off: int) {
    if off < r.start then Run(history, r.owner, r.kind, off, r.start - 1) else Run(history, r.owner, r.kind, r.end + 1, off)
  }

  /**
   How a byte is held and for which process, byte by byte: by the last request
   of its owner that covered it or reached it through bytes held in the same
   way, other than requests for what was all held in that way already.
   */
  ghost function LastWho(history: seq<Lock>, owner: nat, off: int): Option<Who> {
    if history == [] then None
    else
      var prev, r := history[..|history| - 1], history[|history| - 1];
      if r.owner != owner || Run(prev, owner, r.kind, r.start, r.end) then LastWho(prev, owner, off)
      else if r.kind == F_UNLCK then (if Covers(r, off) then None else LastWho(prev, owner, off))
      else if Covers(r, off) || Linked(prev, r, off) then Some(Who(r.kind, r.pid))
      else LastWho(prev, owner, off)
  }

  lemma RunHeld(history: seq<Lock>, owner: nat, kind: Kind, a: int, b: int)
    requires forall q :: q in history ==> InRange(q)
    ensures Proper(After(history))
    ensures Run(history, owner, kind, a, b) <==> forall x :: a <= x <= b ==> Held(After(history), owner, x, kind)
  {
    HistoryRefines(history, owner, a, kind);
    forall x | a <= x <= b ensures LastWord(history, owner, x) == Some(kind) <==> Held(After(history), owner, x, kind) {
      HistoryRefines(history, owner, x, kind);
    }
  }

  lemma RunWhole(history: seq<Lock>, r: Lock)
    requires InRange(r) && forall q :: q in history ==> InRange(q)
    ensures Run(history, r.owner, r.kind, r.start, r.end) <==> Whole(After(history), r)
  {
    RunHeld(history, r.owner, r.kind, r.start, r.end);
    if Run(history, r.owner, r.kind, r.start, r.end) {
      var l := RunIsRecord(After(history), r.owner, r.kind, r.start, r.end);
    }
  }

  lemma LinkedJoined(history: seq<Lock>, r: Lock, off: int)
    requires InRange(r) && !Covers(r, off) && forall q :: q in history ==> InRange(q)
    ensures Linked(history, r, off) <==> Joined(After(history), r, off)
  {
    var a, b := if off < r.start then off else r.end + 1, if off < r.start then r.start - 1 else off;
    RunHeld(history, r.owner, r.kind, a, b);
    if Linked(history, r, off) {
      var l := RunIsRecord(After(history), r.owner, r.kind, a, b);
      assert Joins(l, r) && Covers(l, off);
    }
  }

  /** After any history each byte is recorded for exactly the process the requests say. */
  lemma {:induction false} HistoryRecords(history: seq<Lock>, owner: nat, off: int, kind: Kind, pid: int)
    requires forall r :: r in history ==> InRange(r)
    ensures HeldBy(After(history), owner, off, kind, pid) <==> LastWho(history, owner, off) == Some(Who(kind, pid))
  {
    if history != [] {
      var prev, r := history[..|history| - 1], history[|history| - 1];
      assert r in history && forall q :: q in prev ==> q in history;
      HistoryRecords(prev, owner, off, kind, pid);
      HistoryRefines(prev, owner, off, kind);
      if r.owner == owner {
        InsertRecorded(After(prev), r, off, kind, pid);
        RunWhole(prev, r);
        if !Covers(r, off) {
          LinkedJoined(prev, r, off);
        }
      } else {
        InsertOthersRecorded(After(prev), r, owner, off, kind, pid);
      }
    }
  }

  /** What a test for a conflict reports is how some byte of the request is held, and for whom. */
  lemma ConflictReports(history: seq<Lock>, l: Lock, lock: Lock) returns (off: int)
    requires (forall r :: r in history ==> InRange(r)) && InRange(lock)
    requires l in After(history) && Clashes(l, lock)
    ensures Covers(lock, off) && LastWho(history, l.owner, off) == Some(Who(l.kind, l.pid))
  {
    HistoryRefines(history, l.owner, l.start, l.kind);
    off := if l.start < lock.start then lock.start else l.start;
    assert HeldBy(After(history), l.owner, off, l.kind, l.pid);
    HistoryRecords(history, l.owner, off, l.kind, l.pid);
  }
}
