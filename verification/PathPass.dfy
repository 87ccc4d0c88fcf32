/**
 No wake-up is lost: after a pass over the queue every request that still waits
 is one that the treelocks, as they are now, do not allow.
 */
module PathPass {
  import opened Basics
  import opened Forest
  import opened TreeLocks
  import opened Requests
  import opened PathState
  import opened PathLocks
  import PathQueue
  import opened PathWake
  import opened PathArrivals
  import opened PathRuns

  /** What is locked in `l` is locked in `k`, and what is marked or written is marked or written. */
  ghost predicate Grown(l: Locks, k: Locks) {
    k.Keys == l.Keys && forall n :: n in l ==> (l[n] < 0 ==> k[n] < 0) && (l[n] != 0 ==> k[n] != 0)
  }

  /** The treelocks do not let `e` have all that it still wants. */
  ghost predicate Refused(t: Tree, l: Locks, e: Elem)
    requires Covers(t, l) && e.Path? && e.r1.Valid() && (e.r2.Some? ==> e.r2.value.Valid())
  {
    if e.h1.Some? then e.r2.Some? && e.h2.None? && Try(t, l, e.r2.value).Again?
    else if e.r2.Some? && e.h2.Some? then Try(t, l, e.r1).Again?
    else
      var a := Try(t, l, e.r1);
      a.Again? || (a.Granted? && e.r2.Some? && Covers(t, a.lock) && Try(t, a.lock, e.r2.value).Again?)
  }

  // ----- more locks, more refusals ------------------------------------------

  lemma GrownTrans(a: Locks, b: Locks, c: Locks)
    requires Grown(a, b) && Grown(b, c)
    ensures Grown(a, c)
  {
  }

  lemma RefusalGrows(t: Tree, l: Locks, k: Locks, r: Req)
    requires Covers(t, l) && Grown(l, k) && r.Valid() && Try(t, l, r).Again?
    ensures Covers(t, k) && Try(t, k, r).Again?
  {
  }

  lemma GrantShrinks(t: Tree, l: Locks, k: Locks, r: Req)
    requires Covers(t, l) && Grown(l, k) && r.Valid() && Try(t, l, r).Granted? && Covers(t, k)
    ensures Try(t, k, r).Again? || (Try(t, k, r).Granted? && Grown(Try(t, l, r).lock, Try(t, k, r).lock))
  {
  }

  lemma RefusedGrows(t: Tree, l: Locks, k: Locks, e: Elem)
    requires Covers(t, l) && Grown(l, k) && e.Path? && e.r1.Valid() && (e.r2.Some? ==> e.r2.value.Valid()) && Refused(t, l, e)
    ensures Covers(t, k) && Refused(t, k, e)
  {
    if e.h1.Some? {
      RefusalGrows(t, l, k, e.r2.value);
    } else if e.r2.Some? && e.h2.Some? {
      RefusalGrows(t, l, k, e.r1);
    } else if Try(t, l, e.r1).Again? {
      RefusalGrows(t, l, k, e.r1);
    } else {
      GrantShrinks(t, l, k, e.r1);
      if Try(t, k, e.r1).Granted? {
        RefusalGrows(t, Try(t, l, e.r1).lock, Try(t, k, e.r1).lock, e.r2.value);
      }
    }
  }

  /** Far from the values that mark a waiting writer. */
  predicate Bounded(l: Locks) {
    forall n :: n in l ==> l[n] < INT_MAX
  }

  lemma LocksBounded(s: State)
    requires Core(s, multiset{})
    ensures Bounded(s.lock)
  {
    forall n | n in s.lock ensures s.lock[n] < INT_MAX {
      assert LockOk(s.lock, s.reqs, n);
      ReadersBounded(s.reqs, n);
    }
  }

  ghost predicate Touched(l: Locks, k: Locks) {
    k == l || exists w :: w in l && k == Mark(l, w)
  }

  lemma TouchedGrows(l: Locks, k: Locks)
    requires Bounded(l) && Touched(l, k)
    ensures Grown(l, k)
  {
  }

  /** An attempt never unlocks anything. */
  lemma TryGrows(t: Tree, l: Locks, r: Req)
    requires Covers(t, l) && r.Valid() && Bounded(l)
    ensures Try(t, l, r).Again? ==> Touched(l, Try(t, l, r).lock) && Grown(l, Try(t, l, r).lock)
    ensures Try(t, l, r).Granted? ==> Grown(l, Try(t, l, r).lock)
  {
    if Try(t, l, r).Granted? {
      GrantedMeans(t, l, r);
    } else if Try(t, l, r).Again? {
      TouchedGrows(l, Try(t, l, r).lock);
    }
  }

  /** A path taken and given back, with a mark set in between, leaves no lock behind that was not there, and removes none. */
  lemma GivenBack(t: Tree, l: Locks, r: Req, k: Locks)
    requires Covers(t, l) && r.Valid() && Try(t, l, r).Granted? && Bounded(l) && Touched(Try(t, l, r).lock, k)
    ensures var h := Try(t, l, r).hold; Grown(l, Release(k, h.chain, h.wnode))
  {
    GrantedMeans(t, l, r);
  }

  lemma GivenBackWhole(t: Tree, l: Locks, r: Req)
    requires Covers(t, l) && r.Valid() && Try(t, l, r).Granted?
    ensures var h := Try(t, l, r).hold; Release(Try(t, l, r).lock, h.chain, h.wnode) == l
  {
    GrantedMeans(t, l, r);
    TakeRelease(l, Try(t, l, r).hold.chain, Try(t, l, r).hold.wnode);
  }

  // ----- what a turn comes to -----------------------------------------------

  predicate Sound(e: Elem) {
    e.Path? && e.r1.Valid() && (e.r2.Some? ==> e.r2.value.Valid())
  }

  function Put(s: State, i: nat, l: Locks, e: Elem): State
    requires i < |s.reqs|
  {
    s.(lock := l, reqs := s.reqs[i := e])
  }

  lemma PutBack(s: State, i: nat, l: Locks, e: Elem, k: Locks)
    requires i < |s.reqs|
    ensures Put(Put(s, i, l, e), i, k, s.reqs[i]) == s.(lock := k)
  {
    assert s.reqs[i := e][i := s.reqs[i]] == s.reqs;
  }

  lemma UnlockNothing(s: State, i: nat)
    requires i < |s.reqs| && Sound(s.reqs[i]) && s.reqs[i].Empty()
    ensures PathAt(s, i) && UnlockElem(s, i) == s
  {
  }

  lemma UnlockFirst(s: State, i: nat, h: Hold)
    requires i < |s.reqs| && Sound(s.reqs[i]) && s.reqs[i].h1 == Some(h) && s.reqs[i].h2.None?
    ensures PathAt(s, i) && UnlockElem(s, i) == Put(s, i, Release(s.lock, h.chain, h.wnode), s.reqs[i].(h1 := None))
  {
  }

  lemma UnlockSecond(s: State, i: nat, h: Hold)
    requires i < |s.reqs| && Sound(s.reqs[i]) && s.reqs[i].r2.Some? && s.reqs[i].h1.None? && s.reqs[i].h2 == Some(h)
    ensures PathAt(s, i) && UnlockElem(s, i) == Put(s, i, Release(s.lock, h.chain, h.wnode), s.reqs[i].(h2 := None))
  {
  }

  lemma SecondTry(s: State, i: nat)
    requires Covers(s.tree, s.lock) && i < |s.reqs| && Sound(s.reqs[i]) && s.reqs[i].h2.None?
    ensures PathAt(s, i)
    ensures s.reqs[i].r2.None? ==> TryIfNeeded(s, i, Second) == Tried(s, Ok)
    ensures s.reqs[i].r2.Some? ==>
      match Try(s.tree, s.lock, s.reqs[i].r2.value)
      case Granted(l, h) => TryIfNeeded(s, i, Second) == Tried(Put(s, i, l, s.reqs[i].(h2 := Some(h))), Ok)
      case Again(l) => TryIfNeeded(s, i, Second) == Tried(s.(lock := l), EAGAIN)
      case NoEnt => TryIfNeeded(s, i, Second) == Tried(s, ENOENT)
  {
  }

  // ----- a turn behind the head ---------------------------------------------

  /** Nothing held: a second path that is granted alone is given back. */
  lemma AloneGranted(s: State, i: nat, l: Locks, h: Hold)
    requires Covers(s.tree, s.lock) && i < |s.reqs| && Sound(s.reqs[i]) && s.reqs[i].Empty() && s.reqs[i].r2.Some?
    requires Try(s.tree, s.lock, s.reqs[i].r2.value) == Granted(l, h)
    ensures PathAt(s, i) && WakeSecond(s, i, false) == s
  {
    var e := s.reqs[i];
    var v := Put(s, i, l, e.(h2 := Some(h)));
    SecondTry(s, i);
    UnlockSecond(v, i, h);
    GivenBackWhole(s.tree, s.lock, e.r2.value);
    assert v.reqs[i].(h2 := None) == e;
    PutBack(s, i, l, e.(h2 := Some(h)), s.lock);
  }

  lemma AloneRefused(s: State, i: nat, l: Locks)
    requires Covers(s.tree, s.lock) && i < |s.reqs| && Sound(s.reqs[i]) && s.reqs[i].Empty() && s.reqs[i].r2.Some?
    requires Try(s.tree, s.lock, s.reqs[i].r2.value) == Attempt.Again(l)
    ensures PathAt(s, i) && WakeSecond(s, i, false) == s.(lock := l)
  {
    SecondTry(s, i);
    UnlockNothing(s.(lock := l), i);
  }

  lemma AloneGone(s: State, i: nat)
    requires Covers(s.tree, s.lock) && i < |s.reqs| && Sound(s.reqs[i]) && s.reqs[i].Empty() && s.reqs[i].r2.Some?
    requires Try(s.tree, s.lock, s.reqs[i].r2.value).NoEnt?
    ensures PathAt(s, i) && WakeSecond(s, i, false) == Put(s, i, s.lock, s.reqs[i].(done := true, failed := true))
  {
    SecondTry(s, i);
    UnlockNothing(s, i);
  }

  lemma AloneMissing(s: State, i: nat)
    requires Covers(s.tree, s.lock) && i < |s.reqs| && Sound(s.reqs[i]) && s.reqs[i].Empty() && s.reqs[i].r2.None?
    ensures PathAt(s, i) && WakeSecond(s, i, false) == s
  {
    SecondTry(s, i);
    UnlockNothing(s, i);
  }

  /** The first path held, the second one granted or not wanted: done. */
  lemma BothGranted(s: State, i: nat, l: Locks, h: Hold, head: bool)
    requires Covers(s.tree, s.lock) && i < |s.reqs| && Sound(s.reqs[i]) && s.reqs[i].h1.Some? && s.reqs[i].h2.None?
    requires s.reqs[i].r2.Some? && Try(s.tree, s.lock, s.reqs[i].r2.value) == Granted(l, h)
    ensures PathAt(s, i) && WakeSecond(s, i, head) == Put(s, i, l, s.reqs[i].(h2 := Some(h), done := true, failed := false))
  {
    SecondTry(s, i);
    assert s.reqs[i := s.reqs[i].(h2 := Some(h))][i := s.reqs[i].(h2 := Some(h), done := true, failed := false)]
        == s.reqs[i := s.reqs[i].(h2 := Some(h), done := true, failed := false)];
  }

  lemma OneGranted(s: State, i: nat, head: bool)
    requires Covers(s.tree, s.lock) && i < |s.reqs| && Sound(s.reqs[i]) && s.reqs[i].h1.Some? && s.reqs[i].h2.None? && s.reqs[i].r2.None?
    ensures PathAt(s, i) && WakeSecond(s, i, head) == Put(s, i, s.lock, s.reqs[i].(done := true, failed := false))
  {
    SecondTry(s, i);
  }

  /** The first path held, the second one refused: behind the head, the first is given back. */
  lemma SecondRefused(s: State, i: nat, l: Locks, h: Hold)
    requires Covers(s.tree, s.lock) && i < |s.reqs| && Sound(s.reqs[i]) && s.reqs[i].h1 == Some(h) && s.reqs[i].h2.None?
    requires s.reqs[i].r2.Some? && Try(s.tree, s.lock, s.reqs[i].r2.value) == Attempt.Again(l)
    ensures PathAt(s, i) && WakeSecond(s, i, true) == s.(lock := l)
    ensures WakeSecond(s, i, false) == Put(s, i, Release(l, h.chain, h.wnode), s.reqs[i].(h1 := None))
  {
    SecondTry(s, i);
    UnlockFirst(s.(lock := l), i, h);
  }

  lemma SecondGone(s: State, i: nat, h: Hold, head: bool)
    requires Covers(s.tree, s.lock) && i < |s.reqs| && Sound(s.reqs[i]) && s.reqs[i].h1 == Some(h) && s.reqs[i].h2.None?
    requires s.reqs[i].r2.Some? && Try(s.tree, s.lock, s.reqs[i].r2.value).NoEnt?
    ensures PathAt(s, i) && WakeSecond(s, i, head)
      == Put(s, i, Release(s.lock, h.chain, h.wnode), s.reqs[i].(h1 := None, done := true, failed := true))
  {
    SecondTry(s, i);
    UnlockFirst(s, i, h);
  }

  lemma TailAlone(s: State, i: nat) returns (u: State)
    requires Covers(s.tree, s.lock) && Bounded(s.lock) && i < |s.reqs| && Sound(s.reqs[i]) && s.reqs[i].Empty()
    ensures PathAt(s, i) && u == WakeSecond(s, i, false) && Grown(s.lock, u.lock)
    ensures u.reqs[i].Path? && (u.reqs[i].done || u.reqs[i] == s.reqs[i])
  {
    var e := s.reqs[i];
    if e.r2.None? {
      AloneMissing(s, i);
      u := s;
    } else {
      TryGrows(s.tree, s.lock, e.r2.value);
      match Try(s.tree, s.lock, e.r2.value) {
        case Granted(l, h) =>
          AloneGranted(s, i, l, h);
          u := s;
        case Again(l) =>
          AloneRefused(s, i, l);
          u := s.(lock := l);
        case NoEnt =>
          AloneGone(s, i);
          u := Put(s, i, s.lock, e.(done := true, failed := true));
      }
    }
  }

  lemma TailBoth(s: State, i: nat, l: Locks, h: Hold) returns (u: State)
    requires Covers(s.tree, s.lock) && Bounded(s.lock) && i < |s.reqs| && Sound(s.reqs[i]) && s.reqs[i].h1 == Some(h) && s.reqs[i].h2.None?
    requires Covers(s.tree, l) && Bounded(l) && Try(s.tree, l, s.reqs[i].r1) == Granted(s.lock, h)
    ensures PathAt(s, i) && u == WakeSecond(s, i, false) && Grown(l, u.lock) && u.reqs[i].Path?
    ensures u.reqs[i].done || (u.reqs[i] == s.reqs[i].(h1 := None) && s.reqs[i].r2.Some? && Try(s.tree, s.lock, s.reqs[i].r2.value).Again?)
  {
    var e := s.reqs[i];
    TryGrows(s.tree, l, e.r1);
    if e.r2.None? {
      OneGranted(s, i, false);
      u := Put(s, i, s.lock, e.(done := true, failed := false));
    } else {
      TryGrows(s.tree, s.lock, e.r2.value);
      match Try(s.tree, s.lock, e.r2.value) {
        case Granted(k, g) =>
          BothGranted(s, i, k, g, false);
          GrownTrans(l, s.lock, k);
          u := Put(s, i, k, e.(h2 := Some(g), done := true, failed := false));
        case Again(k) =>
          SecondRefused(s, i, k, h);
          GivenBack(s.tree, l, e.r1, k);
          u := Put(s, i, Release(k, h.chain, h.wnode), e.(h1 := None));
        case NoEnt =>
          SecondGone(s, i, h, false);
          GivenBackWhole(s.tree, l, e.r1);
          u := Put(s, i, l, e.(h1 := None, done := true, failed := true));
      }
    }
  }

  lemma FirstTry(s: State, i: nat)
    requires Covers(s.tree, s.lock) && i < |s.reqs| && Sound(s.reqs[i])
    ensures PathAt(s, i)
    ensures s.reqs[i].h1.Some? ==> TryIfNeeded(s, i, First) == Tried(s, Ok)
    ensures s.reqs[i].h1.None? ==>
      match Try(s.tree, s.lock, s.reqs[i].r1)
      case Granted(l, h) => TryIfNeeded(s, i, First) == Tried(Put(s, i, l, s.reqs[i].(h1 := Some(h))), Ok)
      case Again(l) => TryIfNeeded(s, i, First) == Tried(s.(lock := l), EAGAIN)
      case NoEnt => TryIfNeeded(s, i, First) == Tried(s, ENOENT)
  {
  }

  /** What the elements of a wake-up pass may rely on, whoever's turn it is. */
  ghost predicate Ticking(s: State, i: nat) {
    Core(s, multiset{}) && i < |s.reqs| && Sound(s.reqs[i]) && s.reqs[i].queued
  }

  lemma TickFirst(s: State, i: nat)
    requires Ticking(s, i)
    ensures PathAt(s, i) && Bounded(s.lock)
    ensures Core(TryIfNeeded(s, i, First).state, multiset{}) && Bounded(TryIfNeeded(s, i, First).state.lock)
  {
    LocksBounded(s);
    PathQueue.TryIfNeededCore(s, i, First);
    LocksBounded(TryIfNeeded(s, i, First).state);
  }

  /** A turn behind the head unlocks nothing and ends done or refused. */
  lemma TailTurn(s: State, i: nat) returns (u: State)
    requires Ticking(s, i) && s.reqs[i].Empty() && !IsHead(s.reqs, i)
    ensures PathAt(s, i) && u == WakeElem(s, i) && Grown(s.lock, u.lock) && u.reqs[i].Path?
    ensures u.reqs[i].done || (u.reqs[i] == s.reqs[i] && Refused(s.tree, s.lock, s.reqs[i]))
  {
    var e := s.reqs[i];
    FirstTry(s, i);
    TickFirst(s, i);
    TryGrows(s.tree, s.lock, e.r1);
    match Try(s.tree, s.lock, e.r1) {
      case Granted(l, h) =>
        u := TailBoth(Put(s, i, l, e.(h1 := Some(h))), i, s.lock, h);
        assert e.(h1 := Some(h)).(h1 := None) == e;
      case Again(l) =>
        u := TailAlone(s.(lock := l), i);
        GrownTrans(s.lock, l, u.lock);
      case NoEnt =>
        UnlockNothing(s, i);
        u := Put(s, i, s.lock, e.(done := true, failed := true));
    }
  }

  // ----- the head's turn ----------------------------------------------------

  /** Done, or wanting something that the treelocks do not allow. */
  ghost predicate Settled(s: State, i: nat) {
    && Covers(s.tree, s.lock) && i < |s.reqs| && Sound(s.reqs[i])
    && (s.reqs[i].done || Refused(s.tree, s.lock, s.reqs[i]))
  }

  /** The head, being `e` before its turn, keeps what it had; what it still lacks the treelocks do not allow. */
  ghost predicate Clings(e: Elem, s: State, i: nat) {
    && Settled(s, i) && e.Path?
    && var d := s.reqs[i];
      d.done ||
      ((e.h1.Some? ==> d.h1 == e.h1) && (e.h2.Some? ==> d.h2 == e.h2)
       && (d.h1.None? ==> Try(s.tree, s.lock, d.r1).Again?)
       && (d.r2.Some? && d.h2.None? ==> Try(s.tree, s.lock, d.r2.value).Again?))
  }

  lemma HeadAloneGranted(s: State, i: nat, k: Locks, g: Hold) returns (u: State)
    requires Covers(s.tree, s.lock) && i < |s.reqs| && Sound(s.reqs[i]) && s.reqs[i].Empty() && s.reqs[i].r2.Some?
    requires Try(s.tree, s.lock, s.reqs[i].r2.value) == Granted(k, g) && Grown(s.lock, k) && Try(s.tree, s.lock, s.reqs[i].r1).Again?
    ensures PathAt(s, i) && u == WakeSecond(s, i, true) && Clings(s.reqs[i], u, i)
  {
    SecondTry(s, i);
    RefusalGrows(s.tree, s.lock, k, s.reqs[i].r1);
    u := Put(s, i, k, s.reqs[i].(h2 := Some(g)));
  }

  lemma HeadAlone(s: State, i: nat, l: Locks) returns (u: State)
    requires Covers(s.tree, s.lock) && Bounded(s.lock) && i < |s.reqs| && Sound(s.reqs[i]) && s.reqs[i].Empty()
    requires Covers(s.tree, l) && Grown(l, s.lock) && Try(s.tree, l, s.reqs[i].r1).Again?
    ensures PathAt(s, i) && u == WakeSecond(s, i, true) && Clings(s.reqs[i], u, i)
  {
    var e := s.reqs[i];
    SecondTry(s, i);
    RefusalGrows(s.tree, l, s.lock, e.r1);
    if e.r2.None? {
      u := s;
    } else {
      TryGrows(s.tree, s.lock, e.r2.value);
      match Try(s.tree, s.lock, e.r2.value) {
        case Granted(k, g) => u := HeadAloneGranted(s, i, k, g);
        case Again(k) =>
          RefusalGrows(s.tree, s.lock, k, e.r1);
          RefusalGrows(s.tree, s.lock, k, e.r2.value);
          u := s.(lock := k);
        case NoEnt =>
          AloneGone(s, i);
          u := Put(s, i, s.lock, e.(done := true, failed := true));
      }
    }
  }

  lemma HeadBoth(s: State, i: nat, h: Hold) returns (u: State)
    requires Covers(s.tree, s.lock) && Bounded(s.lock) && i < |s.reqs| && Sound(s.reqs[i]) && s.reqs[i].h1 == Some(h) && s.reqs[i].h2.None?
    ensures PathAt(s, i) && u == WakeSecond(s, i, true) && Clings(s.reqs[i], u, i)
  {
    var e := s.reqs[i];
    if e.r2.None? {
      OneGranted(s, i, true);
      u := Put(s, i, s.lock, e.(done := true, failed := false));
    } else {
      TryGrows(s.tree, s.lock, e.r2.value);
      match Try(s.tree, s.lock, e.r2.value) {
        case Granted(k, g) =>
          BothGranted(s, i, k, g, true);
          u := Put(s, i, k, e.(h2 := Some(g), done := true, failed := false));
        case Again(k) =>
          SecondRefused(s, i, k, h);
          RefusalGrows(s.tree, s.lock, k, e.r2.value);
          u := s.(lock := k);
        case NoEnt =>
          SecondGone(s, i, h, true);
          u := Put(s, i, Release(s.lock, h.chain, h.wnode), e.(h1 := None, done := true, failed := true));
      }
    }
  }

  /** The second path held already, the first one to be tried. */
  lemma HeadFirst(s: State, i: nat, g: Hold) returns (u: State)
    requires Ticking(s, i) && IsHead(s.reqs, i) && s.reqs[i].h1.None? && s.reqs[i].h2 == Some(g) && s.reqs[i].r2.Some?
    ensures PathAt(s, i) && u == WakeElem(s, i) && Clings(s.reqs[i], u, i)
  {
    var e := s.reqs[i];
    FirstTry(s, i);
    TickFirst(s, i);
    TryGrows(s.tree, s.lock, e.r1);
    match Try(s.tree, s.lock, e.r1) {
      case Granted(l, h) => u := SecondHeld(Put(s, i, l, e.(h1 := Some(h))), i, g);
      case Again(l) =>
        RefusalGrows(s.tree, s.lock, l, e.r1);
        u := SecondHeld(s.(lock := l), i, g);
      case NoEnt =>
        UnlockSecond(s, i, g);
        u := Fail(s, i);
    }
  }

  lemma SecondHeld(s: State, i: nat, g: Hold) returns (u: State)
    requires Covers(s.tree, s.lock) && i < |s.reqs| && Sound(s.reqs[i]) && s.reqs[i].r2.Some? && s.reqs[i].h2 == Some(g)
    requires s.reqs[i].h1.Some? || Try(s.tree, s.lock, s.reqs[i].r1).Again?
    ensures PathAt(s, i) && u == WakeSecond(s, i, true) && Clings(s.reqs[i], u, i)
  {
    assert TryIfNeeded(s, i, Second) == Tried(s, Ok);
    u := WakeLast(s, i, true);
  }

  lemma HeadTurn(s: State, i: nat) returns (u: State)
    requires Ticking(s, i) && IsHead(s.reqs, i) && s.reqs[i].h2.None?
    ensures PathAt(s, i) && u == WakeElem(s, i) && Clings(s.reqs[i], u, i)
  {
    var e := s.reqs[i];
    FirstTry(s, i);
    TickFirst(s, i);
    if e.h1.Some? {
      u := HeadBoth(s, i, e.h1.value);
    } else {
      TryGrows(s.tree, s.lock, e.r1);
      match Try(s.tree, s.lock, e.r1) {
        case Granted(l, h) => u := HeadBoth(Put(s, i, l, e.(h1 := Some(h))), i, h);
        case Again(l) => u := HeadAlone(s.(lock := l), i, s.lock);
        case NoEnt =>
          UnlockNothing(s, i);
          u := Put(s, i, s.lock, e.(done := true, failed := true));
      }
    }
  }

  lemma FullTurn(s: State, i: nat) returns (u: State)
    requires Ticking(s, i) && s.reqs[i].Full()
    ensures PathAt(s, i) && u == WakeElem(s, i) && u == Put(s, i, s.lock, s.reqs[i].(done := true, failed := false))
  {
    FirstTry(s, i);
    assert TryIfNeeded(s, i, Second) == Tried(s, Ok);
    u := Finish(s, i, false);
  }

  // ----- a pass -------------------------------------------------------------

  lemma SettledStays(s: State, u: State, i: nat)
    requires Settled(s, i) && u.tree == s.tree && Grown(s.lock, u.lock) && i < |u.reqs| && u.reqs[i] == s.reqs[i]
    ensures Settled(u, i)
  {
    if !s.reqs[i].done {
      RefusedGrows(s.tree, s.lock, u.lock, s.reqs[i]);
    }
  }

  /** A turn settles its own element. Behind the head it unlocks nothing; the head gives nothing back unless it is done, and takes what it can. */
  lemma TurnSettles(s: State, i: nat) returns (u: State)
    requires Inv(s) && i < |s.reqs| && s.reqs[i].Path? && s.reqs[i].queued
    ensures PathAt(s, i) && u == WakeElem(s, i) && Settled(u, i)
    ensures if IsHead(s.reqs, i) then Clings(s.reqs[i], u, i) else Grown(s.lock, u.lock)
  {
    var e := s.reqs[i];
    SlotFacts(s, multiset{}, i, First);
    assert ShapeAt(s.reqs, i);
    PathAtOk(s, i);
    if e.Full() {
      u := FullTurn(s, i);
    } else if IsHead(s.reqs, i) {
      if e.h2.Some? {
        u := HeadFirst(s, i, e.h2.value);
      } else {
        u := HeadTurn(s, i);
      }
    } else {
      u := TailTurn(s, i);
      if !u.reqs[i].done {
        RefusedGrows(s.tree, s.lock, u.lock, e);
      }
    }
  }

  /** Somebody else's turn, with `i` settled already: whoever it is, it is not the head. */
  lemma TurnKeeps(s: State, k: nat, i: nat) returns (u: State)
    requires Inv(s) && Ready(s) && i < k < |s.reqs| && s.reqs[i].InQueue() && Settled(s, i)
    ensures u == WakeElem(s, k) && Inv(u) && Ready(u) && |u.reqs| == |s.reqs| && u.reqs[i].InQueue() && Settled(u, i)
  {
    u := WakeElem(s, k);
    WakeElemInv(s, k);
    ReadyKept(s, u, k);
    if s.reqs[k].Path? && s.reqs[k].queued {
      var v := TurnSettles(s, k);
      SettledStays(s, u, i);
    }
  }

  predicate Waits(s: State, i: nat) {
    i < |s.reqs| && s.reqs[i].Path? && s.reqs[i].queued
  }

  /** The states a pass goes through: `tr[j]` is the one before the turn of element `k + j`. */
  ghost predicate Turns(tr: seq<State>, k: nat) {
    tr != [] && forall j {:trigger TurnAt(tr, k, j)} :: 0 <= j < |tr| - 1 ==> TurnAt(tr, k, j)
  }

  ghost predicate TurnAt(tr: seq<State>, k: nat, j: nat)
    requires j + 1 < |tr|
  {
    Ready(tr[j]) && k + j < |tr[j].reqs| && tr[j + 1] == WakeElem(tr[j], k + j) && |tr[j + 1].reqs| == |tr[j].reqs|
  }

  lemma TurnNext(s: State, k: nat) returns (u: State)
    requires Ready(s) && k < |s.reqs|
    ensures u == WakeElem(s, k) && Ready(u) && |u.reqs| == |s.reqs| && WakeFrom(s, k) == WakeFrom(u, k + 1)
  {
    u := WakeElem(s, k);
    ReadyKept(s, u, k);
  }

  ghost predicate Traces(tr: seq<State>, s: State, k: nat, t: State) {
    Turns(tr, k) && tr[0] == s && tr[|tr| - 1] == t
  }

  lemma {:induction false} TurnsOf(s: State, k: nat, t: State) returns (tr: seq<State>)
    requires Ready(s) && k <= |s.reqs| && t == WakeFrom(s, k)
    ensures |tr| == |s.reqs| - k + 1 && Traces(tr, s, k, t)
    decreases |s.reqs| - k
  {
    if k == |s.reqs| {
      tr := [s];
    } else {
      var u := TurnNext(s, k);
      var rest := TurnsOf(u, k + 1, t);
      tr := TurnsCons(s, u, rest, k, t);
    }
  }

  lemma TurnsCons(s: State, u: State, rest: seq<State>, k: nat, t: State) returns (tr: seq<State>)
    requires Ready(s) && k < |s.reqs| && u == WakeElem(s, k) && |u.reqs| == |s.reqs| && Traces(rest, u, k + 1, t)
    ensures |tr| == |rest| + 1 && Traces(tr, s, k, t)
  {
    tr := [s] + rest;
    forall j | 0 <= j < |tr| - 1 ensures TurnAt(tr, k, j) {
      if j > 0 {
        assert TurnAt(rest, k + 1, j - 1);
      }
    }
  }

  lemma TurnInv(tr: seq<State>, j: nat, v: State)
    requires Turns(tr, 0) && j + 1 < |tr| && Inv(tr[j]) && v == tr[j + 1]
    ensures Inv(v)
  {
    assert TurnAt(tr, 0, j);
    WakeElemInv(tr[j], j);
  }

  lemma {:induction false} TurnsInv(tr: seq<State>, j: nat)
    requires Turns(tr, 0) && j < |tr| && Inv(tr[0])
    ensures Inv(tr[j])
    decreases j
  {
    if j > 0 {
      var i := j - 1;
      TurnsInv(tr, i);
      TurnInv(tr, i, tr[j]);
    }
  }

  lemma OwnTurnSettles(tr: seq<State>, i: nat, v: State)
    requires Turns(tr, 0) && i + 1 < |tr| && Inv(tr[0]) && Waits(tr[i], i) && v == tr[i + 1]
    ensures Settled(v, i)
  {
    TurnsInv(tr, i);
    assert TurnAt(tr, 0, i);
    var u := TurnSettles(tr[i], i);
  }

  lemma OtherTurnKeeps(tr: seq<State>, j: nat, i: nat, v: State)
    requires Turns(tr, 0) && i < j && j + 1 < |tr| && Inv(tr[0]) && v == tr[j + 1]
    requires i < |tr[j].reqs| && tr[j].reqs[i].InQueue() && Settled(tr[j], i)
    ensures i < |v.reqs| && v.reqs[i].InQueue() && Settled(v, i)
  {
    TurnsInv(tr, j);
    assert TurnAt(tr, 0, j);
    var u := TurnKeeps(tr[j], j, i);
  }

  lemma SamePlaces(tr: seq<State>, j: nat, i: nat)
    requires Turns(tr, 0) && j + 1 < |tr|
    ensures |tr[j + 1].reqs| == |tr[j].reqs| && (Waits(tr[j + 1], i) <==> Waits(tr[j], i))
  {
    assert TurnAt(tr, 0, j);
  }

  /** A pass changes nobody's place in the queue. */
  lemma {:induction false} PlacesKept(tr: seq<State>, j: nat, i: nat)
    requires Turns(tr, 0) && j < |tr|
    ensures |tr[j].reqs| == |tr[0].reqs| && (Waits(tr[j], i) <==> Waits(tr[0], i))
    decreases j
  {
    if j > 0 {
      PlacesKept(tr, j - 1, i);
      SamePlaces(tr, j - 1, i);
    }
  }

  /** Settled by its own turn, a request stays settled to the end of the pass. */
  lemma {:induction false} SettledOnwards(tr: seq<State>, j: nat, i: nat)
    requires Turns(tr, 0) && i < j < |tr| && Inv(tr[0]) && Waits(tr[i], i)
    ensures i < |tr[j].reqs| && tr[j].reqs[i].InQueue() && Settled(tr[j], i)
    decreases j
  {
    var k := j - 1;
    if k == i {
      OwnTurnSettles(tr, i, tr[j]);
      SamePlaces(tr, i, i);
    } else {
      SettledOnwards(tr, k, i);
      OtherTurnKeeps(tr, k, i, tr[j]);
    }
  }

  /** After a pass every request that waits is settled. */
  lemma PassSettles(s: State, i: nat, u: State)
    requires Inv(s) && Ready(s) && u == WakeFrom(s, 0) && Waits(u, i)
    ensures Settled(u, i)
  {
    var tr := TurnsOf(s, 0, u);
    PlacesKept(tr, |tr| - 1, i);
    PlacesKept(tr, i, i);
    SettledOnwards(tr, |tr| - 1, i);
  }

  lemma DoneSettles(s: State, i: nat, j: nat, u: State)
    requires Inv(s) && Allowed(s, Done(i)) && u == Apply(s, Done(i)) && Waits(u, j)
    ensures Settled(u, j)
  {
    FreedInv(s, i);
    PassSettles(Freed(s, i), j, u);
  }

  /**
   After a request has given its paths back, every request that still waits and
   is not told to go on wants something that the treelocks do not allow: no
   wake-up is lost, however many wait.
   */
  lemma NobodyOverlooked(acts: seq<Action>, tr: seq<State>, k: nat, i: nat)
    requires Run(acts, tr) && k < |acts| && acts[k].Done? && Waits(tr[k + 1], i) && !tr[k + 1].reqs[i].done
    ensures var s := tr[k + 1]; var e := s.reqs[i];
      Covers(s.tree, s.lock) && Sound(e) && Refused(s.tree, s.lock, e)
  {
    RunInv(acts, tr, k);
    assert StepAt(acts, tr, k);
    DoneSettles(tr[k], acts[k].i, i, tr[k + 1]);
  }
}
