/**
 The operations on the node tree that run while paths are locked (remove_node,
 rename_node, exchange_node), with the proof that each keeps the invariant for
 every request that was granted the paths it names.
 */
module PathOps {
  import opened Basics
  import opened Forest
  import opened Requests
  import opened PathState
  import opened PathLocks
  import opened PathQueue
  import opened PathMoves

  ghost function UnhashOpt(s: State, n: Option<Id>): State {
    match n
    case None => s
    case Some(x) => UnhashName(s, x)
  }

  function HashOpt(s: State, n: Option<Id>, l: Link): State {
    match n
    case None => s
    case Some(x) => HashName(s, x, l)
  }

  /** remove_node. */
  ghost function RemoveNode(s: State, l: Link): State {
    UnhashOpt(s, Lookup(s.tree, l))
  }

  /** rename_node; with `hiding`, an existing new entry is an error. */
  ghost function RenameNode(s: State, src: Link, dst: Link, hiding: bool): State {
    match Lookup(s.tree, src)
    case None => s
    case Some(n) =>
      var newnode := Lookup(s.tree, dst);
      if hiding && newnode.Some? then s
      else HashName(UnhashName(UnhashOpt(s, newnode), n), n, dst)
  }

  /** exchange_node. */
  ghost function ExchangeNode(s: State, src: Link, dst: Link): State {
    var a := Lookup(s.tree, src);
    var b := Lookup(s.tree, dst);
    HashOpt(HashOpt(UnhashOpt(UnhashOpt(s, a), b), a, dst), b, src)
  }

  /** Request `i` runs between get_path and free_path with its side `j` locked for a change. */
  predicate Changer(s: State, i: nat, j: Side) {
    && i < |s.reqs| && Has(s.reqs[i], j) && !s.reqs[i].queued && s.reqs[i].Full()
    && ReqOf(s.reqs[i], j).wr && ReqOf(s.reqs[i], j).name.Some?
  }

  function EntryAt(s: State, i: nat, j: Side): Link
    requires Changer(s, i, j)
  {
    ReqOf(s.reqs[i], j).Entry()
  }

  // ----- what becomes of the tree -------------------------------------------

  function Single(n: Option<Id>): set<Id> {
    if n.Some? then {n.value} else {}
  }

  function Hung(t: Tree, n: Option<Id>, l: Link): Tree {
    if n.Some? then t[n.value := l] else t
  }

  /** The node at `src` is at `dst` now, and what was there has no name any more. */
  ghost predicate Renamed(t: Tree, u: Tree, src: Link, dst: Link) {
    match Lookup(t, src)
    case None => u == t
    case Some(n) => u == (t - Single(Lookup(t, dst)))[n := dst]
  }

  /** The same, but an existing `dst` is left alone, and so is everything else. */
  ghost predicate Hidden(t: Tree, u: Tree, src: Link, dst: Link) {
    match Lookup(t, src)
    case None => u == t
    case Some(n) => u == if Lookup(t, dst).Some? then t else t[n := dst]
  }

  /** The nodes at `src` and at `dst`, as far as there are any, have changed places. */
  ghost predicate Exchanged(t: Tree, u: Tree, src: Link, dst: Link) {
    var m, n := Lookup(t, src), Lookup(t, dst);
    && (forall x :: x in u <==> x in t)
    && (forall x :: x in t ==> u[x] == if m == Some(x) then dst else if n == Some(x) then src else t[x])
  }

  /** After a rename the new name leads where the old one led, the old one leads nowhere, and all others lead where they did. */
  lemma RenamedLookups(t: Tree, u: Tree, src: Link, dst: Link)
    requires Unique(t) && src != dst && Renamed(t, u, src, dst)
    ensures Lookup(t, src).Some? ==> Lookup(u, dst) == Lookup(t, src)
    ensures Lookup(u, src) == None
    ensures forall l :: l != src && l != dst ==> Lookup(u, l) == Lookup(t, l)
    ensures Lookup(t, src).None? ==> Lookup(u, dst) == Lookup(t, dst)
  {
    forall l | l != src && l != dst ensures Lookup(u, l) == Lookup(t, l) {
      SameLookup(t, u, l);
    }
    if Lookup(t, src).Some? {
      assert Lookup(t, src).value in u && u[Lookup(t, src).value] == dst;
    }
  }

  lemma SameLookup(t: Tree, u: Tree, l: Link)
    requires Unique(t)
    requires forall x :: x in t && t[x] == l ==> x in u && u[x] == l
    requires forall x :: x in u && u[x] == l ==> x in t && t[x] == l
    ensures Lookup(u, l) == Lookup(t, l)
  {
  }

  /** Hiding to a free name is a rename; to a taken one it is nothing. */
  lemma HiddenLookups(t: Tree, u: Tree, src: Link, dst: Link)
    requires Unique(t) && Hidden(t, u, src, dst)
    ensures Lookup(t, dst).Some? ==> u == t
    ensures Lookup(t, dst).None? ==> Renamed(t, u, src, dst)
  {
    assert t - {} == t;
  }

  /** After an exchange each of the two names leads where the other one led. */
  lemma ExchangedLookups(t: Tree, u: Tree, src: Link, dst: Link)
    requires Unique(t) && src != dst && Exchanged(t, u, src, dst)
    ensures Lookup(u, dst) == Lookup(t, src) && Lookup(u, src) == Lookup(t, dst)
    ensures forall l :: l != src && l != dst ==> Lookup(u, l) == Lookup(t, l)
  {
    forall l | l != src && l != dst ensures Lookup(u, l) == Lookup(t, l) {
      SameLookup(t, u, l);
    }
    var m, n := Lookup(t, src), Lookup(t, dst);
    assert m.Some? ==> m.value in u && u[m.value] == dst;
    assert n.Some? ==> n.value in u && u[n.value] == src;
    var a, b := Lookup(u, dst), Lookup(u, src);
    assert a.Some? ==> a.value in t && u[a.value] == dst;
    assert b.Some? ==> b.value in t && u[b.value] == src;
  }

  /** After a removal the name leads nowhere, and all others lead where they did. */
  lemma RemovedLookups(t: Tree, l: Link)
    requires Unique(t)
    ensures var u := t - Single(Lookup(t, l));
      Lookup(u, l) == None && forall k :: k != l ==> Lookup(u, k) == Lookup(t, k)
  {
    var u := t - Single(Lookup(t, l));
    forall k | k != l ensures Lookup(u, k) == Lookup(t, k) {
      SameLookup(t, u, k);
    }
  }

  /** Only nodes that are write-locked have got another link. */
  ghost predicate OnlyWritten(s: State, u: State) {
    && u == s.(tree := u.tree, refctr := u.refctr)
    && (forall n :: n in s.tree && Sum(Writers(n), s.reqs) == 0 ==> n in u.tree && u.tree[n] == s.tree[n])
  }

  /** The node found at a locked entry is the write-locked one. */
  lemma EntryHeld(s: State, i: nat, j: Side, n: Id)
    requires Core(s, multiset{}) && Changer(s, i, j) && !s.reqs[i].committed
    requires Lookup(s.tree, EntryAt(s, i, j)) == Some(n)
    ensures n in s.tree && n in s.lock && n != ROOT
    ensures s.tree[n] == EntryAt(s, i, j) && Named(s, s.tree[n].parent)
    ensures Weight(Writers(n), s.reqs[i]) > 0 && Sum(Writers(n), s.reqs) > 0
    ensures HoldOf(s.reqs[i], j).value.wnode == Some(n)
  {
    SlotFacts(s, multiset{}, i, j);
    SumOne(Writers(n), s.reqs, i);
  }

  lemma RemoveCore(s: State, i: nat, j: Side) returns (u: State)
    requires Core(s, multiset{}) && Changer(s, i, j) && !s.reqs[i].committed
    ensures u == RemoveNode(s, EntryAt(s, i, j)) && Core(u, multiset{}) && OnlyWritten(s, u)
    ensures u.tree == s.tree - Single(Lookup(s.tree, EntryAt(s, i, j)))
  {
    var n := Lookup(s.tree, EntryAt(s, i, j));
    if n.Some? {
      u := RemoveFound(s, i, j, n.value);
    } else {
      u := s;
      NothingTaken(s.tree);
    }
  }

  lemma NothingTaken(t: Tree)
    ensures t - Single(None) == t
  {
  }

  lemma RemoveFound(s: State, i: nat, j: Side, n: Id) returns (u: State)
    requires Core(s, multiset{}) && Changer(s, i, j) && !s.reqs[i].committed && Lookup(s.tree, EntryAt(s, i, j)) == Some(n)
    ensures u == UnhashName(s, n) && Core(u, multiset{}) && OnlyWritten(s, u) && u.tree == s.tree - {n}
  {
    EntryHeld(s, i, j, n);
    u := UnhashCore(s, n, {});
  }

  // ----- committing ---------------------------------------------------------

  function Commit(s: State, i: nat): State
    requires i < |s.reqs| && s.reqs[i].Path?
  {
    SetElem(s, i, s.reqs[i].(committed := true))
  }

  lemma CommitCore(s: State, i: nat)
    requires Core(s, multiset{}) && i < |s.reqs| && s.reqs[i].Path? && !s.reqs[i].queued && s.reqs[i].Full()
    ensures Core(Commit(s, i), multiset{})
  {
    var u := Commit(s, i);
    var e := s.reqs[i];
    SameSums(s.reqs, i, u.reqs[i]);
    LockSame(s.lock, s.reqs, u.lock, u.reqs);
    RefsKept(s, u, multiset{});
    SlotFacts(s, multiset{}, i, First);
    CommitElem(s, u, e);
    if e.failed {
      GoneSame(s.tree, e, u.reqs[i]);
    }
    ElemSet(s, u, i);
  }

  lemma CommitElem(s: State, u: State, e: Elem)
    requires e.Path? && !e.queued && e.Full() && ElemOk(s, e) && u == s.(reqs := u.reqs)
    ensures ElemOk(u, e.(committed := true))
  {
    var d := e.(committed := true);
    assert SlotOk(s, e, First);
    assert SlotOk(u, d, First);
    if Has(e, Second) {
      assert SlotOk(s, e, Second);
      assert SlotOk(u, d, Second);
    }
  }

  // ----- who may be surprised -----------------------------------------------

  /** Nobody else changes the entry and nobody else holds the node. */
  lemma WelcomeOwn(s: State, i: nat, n: Id, l: Link)
    requires LockInv(s.lock, s.reqs) && CountInv(s) && n in s.lock
    requires i < |s.reqs| && s.reqs[i].Path? && s.reqs[i].committed && Under(s.reqs[i], l.parent)
    requires Weight(Changing(l), s.reqs[i]) > 0 && Weight(Writers(n), s.reqs[i]) > 0
    ensures Welcome(s, n, l)
  {
    assert LockOk(s.lock, s.reqs, n);
    forall k | 0 <= k < |s.reqs| && k != i
      ensures Weight(Changing(l), s.reqs[k]) == 0 && Weight(Writers(n), s.reqs[k]) == 0
    {
      SumTwo(Changing(l), s.reqs, i, k);
      SumTwo(Writers(n), s.reqs, i, k);
    }
  }

  /** An entry nobody changes, in the directory of the one hold on the node. */
  lemma WelcomeHidden(s: State, i: nat, j: Side, n: Id, l: Link)
    requires LockInv(s.lock, s.reqs) && n in s.lock && Sum(Changing(l), s.reqs) == 0
    requires i < |s.reqs| && Has(s.reqs[i], j) && !s.reqs[i].committed && HoldOf(s.reqs[i], j).Some?
    requires HoldOf(s.reqs[i], j).value.wnode == Some(n) && l.parent == ReqOf(s.reqs[i], j).dir
    requires s.reqs[i].r2.None? ==> s.reqs[i].h2.None?
    ensures Welcome(s, n, l)
  {
    assert LockOk(s.lock, s.reqs, n);
    SumOne(Writers(n), s.reqs, i);
    forall k | 0 <= k < |s.reqs| ensures Weight(Changing(l), s.reqs[k]) == 0 {
      SumOne(Changing(l), s.reqs, k);
    }
    forall k | 0 <= k < |s.reqs| && k != i ensures Weight(Writers(n), s.reqs[k]) == 0 {
      SumTwo(Writers(n), s.reqs, i, k);
    }
  }

  // ----- hide ---------------------------------------------------------------

  lemma HideCore(s: State, i: nat, j: Side, name: string) returns (u: State)
    requires Core(s, multiset{}) && Changer(s, i, j) && !s.reqs[i].committed
    requires Sum(Changing(Link(ReqOf(s.reqs[i], j).dir, name)), s.reqs) == 0
    ensures u == RenameNode(s, EntryAt(s, i, j), Link(ReqOf(s.reqs[i], j).dir, name), true)
    ensures Core(u, multiset{}) && OnlyWritten(s, u)
    ensures Hidden(s.tree, u.tree, EntryAt(s, i, j), Link(ReqOf(s.reqs[i], j).dir, name))
  {
    var src := EntryAt(s, i, j);
    var dst := Link(src.parent, name);
    var node := Lookup(s.tree, src);
    if node.None? || Lookup(s.tree, dst).Some? {
      u := s;
    } else {
      u := HideFound(s, i, j, dst, node.value);
    }
  }

  lemma HideFound(s: State, i: nat, j: Side, dst: Link, n: Id) returns (u: State)
    requires Core(s, multiset{}) && Changer(s, i, j) && !s.reqs[i].committed && dst.parent == ReqOf(s.reqs[i], j).dir
    requires Sum(Changing(dst), s.reqs) == 0
    requires Lookup(s.tree, EntryAt(s, i, j)) == Some(n) && Lookup(s.tree, dst) == None
    ensures u == HashName(UnhashName(s, n), n, dst) && Core(u, multiset{}) && OnlyWritten(s, u)
    ensures u.tree == s.tree[n := dst]
  {
    EntryHeld(s, i, j, n);
    SlotFacts(s, multiset{}, i, j);
    var v := UnhashCore(s, n, {});
    DirAttached(v, multiset{}, i, j);
    WelcomeHidden(v, i, j, n, dst);
    u := HashCore(v, n, dst, {n});
    HungElsewhere(s, v, u, n, dst);
  }

  lemma HungElsewhere(s: State, v: State, u: State, n: Id, dst: Link)
    requires v == s.(tree := s.tree - {n}, refctr := v.refctr) && u == HashName(v, n, dst) && dst.parent in v.refctr
    requires Sum(Writers(n), s.reqs) > 0
    ensures u.tree == s.tree[n := dst] && OnlyWritten(s, u)
  {
  }

  // ----- rename and exchange ------------------------------------------------

  predicate Mover(s: State, i: nat) {
    Changer(s, i, First) && Changer(s, i, Second)
  }

  lemma EntriesDiffer(s: State, i: nat)
    requires CountInv(s) && Mover(s, i)
    ensures EntryAt(s, i, First) != EntryAt(s, i, Second)
  {
    SumOne(Changing(EntryAt(s, i, First)), s.reqs, i);
  }

  /** What a mover knows after committing: its entries' nodes are its own write-locked nodes. */
  ghost predicate Owns(s: State, i: nat, n: Id) {
    && i < |s.reqs| && s.reqs[i].Path? && s.reqs[i].committed && s.reqs[i].Full()
    && n in s.lock && n != ROOT && Weight(Writers(n), s.reqs[i]) > 0 && Sum(Writers(n), s.reqs) > 0
  }

  /** `n` is what the lookup of side `j`'s entry returns to the committed mover `i`. */
  ghost predicate Located(s: State, i: nat, j: Side, n: Option<Id>) {
    && Changer(s, i, j) && n == Lookup(s.tree, EntryAt(s, i, j))
    && (n.Some? ==> Owns(s, i, n.value) && Named(s, s.tree[n.value].parent))
  }

  lemma LocatedAfterCommit(s: State, i: nat, j: Side)
    requires Core(s, multiset{}) && Mover(s, i) && !s.reqs[i].committed
    ensures Located(Commit(s, i), i, j, Lookup(s.tree, EntryAt(s, i, j)))
  {
    var c := Commit(s, i);
    var n := Lookup(s.tree, EntryAt(s, i, j));
    if n.Some? {
      EntryHeld(s, i, j, n.value);
      SameSums(s.reqs, i, c.reqs[i]);
    }
  }

  /** Taking an owned node, if there is one, out of the tree. */
  lemma TakeOut(s: State, i: nat, n: Option<Id>, a: set<Id>) returns (u: State)
    requires Core(s, multiset{}) && GoneOk(s, a)
    requires n.Some? ==> n.value in s.tree && Owns(s, i, n.value) && Named(s, s.tree[n.value].parent)
    ensures u == UnhashOpt(s, n) && Core(u, multiset{}) && GoneOk(u, a + Single(n))
    ensures u == s.(tree := s.tree - Single(n), refctr := u.refctr)
  {
    if n.Some? {
      u := UnhashCore(s, n.value, a);
      assert Single(n) == {n.value};
    } else {
      u := s;
      assert a + Single(n) == a && s.tree - Single(n) == s.tree;
    }
  }

  /** Hanging an owned, unlinked node, if there is one, at the entry of side `j`. */
  lemma PutBack(s: State, i: nat, j: Side, n: Option<Id>, a: set<Id>) returns (u: State)
    requires Core(s, multiset{}) && GoneOk(s, a) && Changer(s, i, j)
    requires n.Some? ==> n.value in a && Owns(s, i, n.value) && n.value !in s.tree
    requires n.Some? ==> Lookup(s.tree, EntryAt(s, i, j)) == None
    ensures u == HashOpt(s, n, EntryAt(s, i, j)) && Core(u, multiset{}) && GoneOk(u, a)
    ensures u == s.(tree := u.tree, refctr := u.refctr)
    ensures u.tree == Hung(s.tree, n, EntryAt(s, i, j))
  {
    if n.Some? {
      SlotFacts(s, multiset{}, i, j);
      DirAttached(s, multiset{}, i, j);
      WelcomeOwn(s, i, n.value, EntryAt(s, i, j));
      u := HashCore(s, n.value, EntryAt(s, i, j), a);
    } else {
      u := s;
    }
  }

  /** Both entries cleared by their committed owner. */
  lemma TakeBoth(s: State, i: nat, m: Option<Id>, n: Option<Id>) returns (u: State)
    requires Core(s, multiset{})
    requires m.Some? ==> m.value in s.tree && Owns(s, i, m.value) && Named(s, s.tree[m.value].parent)
    requires n.Some? ==> n.value in s.tree && Owns(s, i, n.value) && Named(s, s.tree[n.value].parent)
    requires m.Some? ==> m != n
    ensures u == UnhashOpt(UnhashOpt(s, m), n) && Core(u, multiset{}) && GoneOk(u, Single(m) + Single(n))
    ensures u == s.(tree := s.tree - Single(m) - Single(n), refctr := u.refctr)
  {
    var v := TakeOut(s, i, m, {});
    u := TakeOut(v, i, n, Single(m));
  }

  lemma TwoEntries(t: Tree, k: Link, l: Link)
    requires Unique(t) && k != l
    ensures Lookup(t, k).Some? ==> Lookup(t, k) != Lookup(t, l)
    ensures Lookup(t - Single(Lookup(t, k)) - Single(Lookup(t, l)), k) == None
    ensures Lookup(t - Single(Lookup(t, k)) - Single(Lookup(t, l)), l) == None
    ensures Lookup(t - Single(Lookup(t, l)) - Single(Lookup(t, k)), l) == None
  {
  }

  lemma OtherLinks(c: State, v: State, u: State, m: Option<Id>, n: Option<Id>)
    requires v == c.(tree := c.tree - Single(m) - Single(n), refctr := v.refctr)
    requires u == v.(tree := u.tree, refctr := u.refctr)
    requires forall x :: x in v.tree && m != Some(x) && n != Some(x) ==> x in u.tree && u.tree[x] == v.tree[x]
    requires (m.Some? ==> Sum(Writers(m.value), c.reqs) > 0) && (n.Some? ==> Sum(Writers(n.value), c.reqs) > 0)
    ensures OnlyWritten(c, u)
  {
  }

  lemma HungOthers(t: Tree, n: Option<Id>, l: Link)
    ensures forall x :: x in t && n != Some(x) ==> x in Hung(t, n, l) && Hung(t, n, l)[x] == t[x]
  {
  }

  lemma RenamedTree(t: Tree, u: Tree, src: Link, dst: Link)
    requires Unique(t) && src != dst && Lookup(t, src).Some?
    requires u == Hung(t - Single(Lookup(t, dst)) - Single(Lookup(t, src)), Lookup(t, src), dst)
    ensures Renamed(t, u, src, dst)
  {
  }

  lemma ExchangedTree(t: Tree, u: Tree, src: Link, dst: Link)
    requires Unique(t) && src != dst
    requires u == Hung(Hung(t - Single(Lookup(t, src)) - Single(Lookup(t, dst)), Lookup(t, src), dst), Lookup(t, dst), src)
    ensures Exchanged(t, u, src, dst)
  {
  }

  /** A granted rename keeps the invariant; above all the tree stays acyclic. */
  lemma RenameCore(s: State, i: nat) returns (u: State)
    requires Core(s, multiset{}) && Mover(s, i) && !s.reqs[i].committed
    ensures u == RenameNode(Commit(s, i), EntryAt(s, i, First), EntryAt(s, i, Second), false)
    ensures Core(u, multiset{}) && OnlyWritten(Commit(s, i), u)
    ensures Renamed(s.tree, u.tree, EntryAt(s, i, First), EntryAt(s, i, Second))
  {
    CommitCore(s, i);
    EntriesDiffer(s, i);
    LocatedAfterCommit(s, i, First);
    LocatedAfterCommit(s, i, Second);
    u := RenameCommitted(Commit(s, i), i);
  }

  lemma RenameCommitted(c: State, i: nat) returns (u: State)
    requires Core(c, multiset{}) && Mover(c, i) && EntryAt(c, i, First) != EntryAt(c, i, Second)
    requires Located(c, i, First, Lookup(c.tree, EntryAt(c, i, First)))
    requires Located(c, i, Second, Lookup(c.tree, EntryAt(c, i, Second)))
    ensures u == RenameNode(c, EntryAt(c, i, First), EntryAt(c, i, Second), false)
    ensures Core(u, multiset{}) && OnlyWritten(c, u)
    ensures Renamed(c.tree, u.tree, EntryAt(c, i, First), EntryAt(c, i, Second))
  {
    var node := Lookup(c.tree, EntryAt(c, i, First));
    if node.None? {
      u := c;
    } else {
      var newnode := Lookup(c.tree, EntryAt(c, i, Second));
      TwoEntries(c.tree, EntryAt(c, i, First), EntryAt(c, i, Second));
      var v := TakeBoth(c, i, newnode, node);
      u := PutBack(v, i, Second, node, Single(newnode) + Single(node));
      HungOthers(v.tree, node, EntryAt(c, i, Second));
      OtherLinks(c, v, u, newnode, node);
      RenamedTree(c.tree, u.tree, EntryAt(c, i, First), EntryAt(c, i, Second));
    }
  }

  /** A granted exchange keeps the invariant. */
  lemma ExchangeCore(s: State, i: nat) returns (u: State)
    requires Core(s, multiset{}) && Mover(s, i) && !s.reqs[i].committed
    ensures u == ExchangeNode(Commit(s, i), EntryAt(s, i, First), EntryAt(s, i, Second))
    ensures Core(u, multiset{}) && OnlyWritten(Commit(s, i), u)
    ensures Exchanged(s.tree, u.tree, EntryAt(s, i, First), EntryAt(s, i, Second))
  {
    CommitCore(s, i);
    EntriesDiffer(s, i);
    LocatedAfterCommit(s, i, First);
    LocatedAfterCommit(s, i, Second);
    u := ExchangeCommitted(Commit(s, i), i);
  }

  lemma ExchangeCommitted(c: State, i: nat) returns (u: State)
    requires Core(c, multiset{}) && Mover(c, i) && EntryAt(c, i, First) != EntryAt(c, i, Second)
    requires Located(c, i, First, Lookup(c.tree, EntryAt(c, i, First)))
    requires Located(c, i, Second, Lookup(c.tree, EntryAt(c, i, Second)))
    ensures u == ExchangeNode(c, EntryAt(c, i, First), EntryAt(c, i, Second))
    ensures Core(u, multiset{}) && OnlyWritten(c, u)
    ensures Exchanged(c.tree, u.tree, EntryAt(c, i, First), EntryAt(c, i, Second))
  {
    var m := Lookup(c.tree, EntryAt(c, i, First));
    var n := Lookup(c.tree, EntryAt(c, i, Second));
    TwoEntries(c.tree, EntryAt(c, i, First), EntryAt(c, i, Second));
    var v := TakeBoth(c, i, m, n);
    u := PutBoth(v, i, m, n);
    HungOthers(v.tree, m, EntryAt(c, i, Second));
    HungOthers(Hung(v.tree, m, EntryAt(c, i, Second)), n, EntryAt(c, i, First));
    OtherLinks(c, v, u, m, n);
    ExchangedTree(c.tree, u.tree, EntryAt(c, i, First), EntryAt(c, i, Second));
  }

  lemma PutBoth(v: State, i: nat, m: Option<Id>, n: Option<Id>) returns (u: State)
    requires Core(v, multiset{}) && GoneOk(v, Single(m) + Single(n)) && Mover(v, i)
    requires EntryAt(v, i, First) != EntryAt(v, i, Second)
    requires Lookup(v.tree, EntryAt(v, i, First)) == None && Lookup(v.tree, EntryAt(v, i, Second)) == None
    requires m.Some? ==> Owns(v, i, m.value) && m.value !in v.tree && m != n
    requires n.Some? ==> Owns(v, i, n.value) && n.value !in v.tree
    ensures u == HashOpt(HashOpt(v, m, EntryAt(v, i, Second)), n, EntryAt(v, i, First))
    ensures Core(u, multiset{}) && u == v.(tree := u.tree, refctr := u.refctr)
    ensures u.tree == Hung(Hung(v.tree, m, EntryAt(v, i, Second)), n, EntryAt(v, i, First))
  {
    var w := PutBack(v, i, Second, m, Single(m) + Single(n));
    u := PutBack(w, i, First, n, Single(m) + Single(n));
  }
}
