/**
 The parent relation of the node store. Every node that has a name carries a
 link to its parent; the root and unlinked nodes carry none. Parent walks
 (`for (node = ...; ...; node = node->parent)`) are described by chains.
 */
module Forest {
  import opened Basics

  type Id = nat

  const ROOT: Id := 1

  datatype Link = Link(parent: Id, name: string)

  type Tree = map<Id, Link>

  /** `p` lists the named nodes met by walking from `n` through the parents. */
  ghost predicate Chain(t: Tree, n: Id, p: seq<Id>)
    decreases |p|
  {
    if n !in t then p == [] else p != [] && p[0] == n && Chain(t, t[n].parent, p[1..])
  }

  /** The unnamed node at which the walk `p` from `n` stops. */
  ghost function Top(t: Tree, n: Id, p: seq<Id>): Id
    requires Chain(t, n, p)
    decreases |p|
  {
    if p == [] then n else Top(t, t[n].parent, p[1..])
  }

  ghost predicate HasChain(t: Tree, n: Id) {
    exists p :: Chain(t, n, p)
  }

  /** Every parent walk ends. */
  ghost predicate Acyclic(t: Tree) {
    forall n: Id :: HasChain(t, n)
  }

  ghost function ChainOf(t: Tree, n: Id): (p: seq<Id>)
    requires Acyclic(t)
    ensures Chain(t, n, p)
  {
    assert HasChain(t, n);
    var p :| Chain(t, n, p);
    p
  }

  /** The walk from `n` stops at the root. */
  ghost predicate Attached(t: Tree, n: Id)
    requires Acyclic(t)
  {
    Top(t, n, ChainOf(t, n)) == ROOT
  }

  /** At most one node per (parent, name). */
  ghost predicate Unique(t: Tree) {
    forall a, b :: a in t && b in t && t[a] == t[b] ==> a == b
  }

  /** What lookup_node returns. */
  ghost function Lookup(t: Tree, l: Link): (r: Option<Id>)
    ensures r.Some? ==> r.value in t && t[r.value] == l
    ensures r.None? ==> forall n :: n in t ==> t[n] != l
  {
    if n :| n in t && t[n] == l then Some(n) else None
  }

  lemma {:induction false} ChainUnique(t: Tree, n: Id, p: seq<Id>, q: seq<Id>)
    requires Chain(t, n, p) && Chain(t, n, q)
    ensures p == q
    decreases |p|
  {
    if n in t {
      ChainUnique(t, t[n].parent, p[1..], q[1..]);
      assert p == [n] + p[1..] && q == [n] + q[1..];
    }
  }

  lemma {:induction false} ChainSuffix(t: Tree, n: Id, p: seq<Id>, i: nat)
    requires Chain(t, n, p) && i < |p|
    ensures p[i] in t && Chain(t, p[i], p[i..]) && Top(t, p[i], p[i..]) == Top(t, n, p)
    decreases i
  {
    if i == 0 {
      assert p[0..] == p;
    } else {
      ChainSuffix(t, t[n].parent, p[1..], i - 1);
      assert p[1..][i - 1..] == p[i..];
    }
  }

  /** A walk never meets the same node twice. */
  lemma ChainDistinct(t: Tree, n: Id, p: seq<Id>, i: nat, j: nat)
    requires Chain(t, n, p) && i < j < |p|
    ensures p[i] != p[j]
  {
    ChainSuffix(t, n, p, i);
    ChainSuffix(t, n, p, j);
    if p[i] == p[j] {
      ChainUnique(t, p[i], p[i..], p[j..]);
      assert false;
    }
  }

  lemma {:induction false} TopUnnamed(t: Tree, n: Id, p: seq<Id>)
    requires Chain(t, n, p)
    ensures Top(t, n, p) !in t
    decreases |p|
  {
    if n in t {
      TopUnnamed(t, t[n].parent, p[1..]);
    }
  }

  /** Everything on a chain leads where the chain leads. */
  lemma ChainMember(t: Tree, n: Id, p: seq<Id>, m: Id, q: seq<Id>)
    requires Chain(t, n, p) && m in p && Chain(t, m, q)
    ensures Top(t, m, q) == Top(t, n, p)
  {
    var i: nat :| i < |p| && p[i] == m;
    ChainSuffix(t, n, p, i);
    ChainUnique(t, m, p[i..], q);
  }

  /** An element of a chain is its start or the parent of another element. */
  lemma ChainPredecessor(t: Tree, n: Id, p: seq<Id>, m: Id) returns (c: Id)
    requires Chain(t, n, p) && m in p && m != n
    ensures c in p && c in t && t[c].parent == m
  {
    var i: nat :| i < |p| && p[i] == m;
    assert p[0] == n;
    ChainSuffix(t, n, p, i - 1);
    assert p[i - 1..][1..] == p[i..];
    c := p[i - 1];
  }

  /** `u` differs from `t` only in the links of the nodes in `m`. */
  ghost predicate Agree(t: Tree, u: Tree, m: set<Id>) {
    forall n :: n !in m ==> (n in t <==> n in u) && (n in t ==> t[n] == u[n])
  }

  /** A change of other nodes' links leaves a walk as it was. */
  lemma {:induction false} ChainFrame(t: Tree, u: Tree, m: set<Id>, n: Id, p: seq<Id>)
    requires Agree(t, u, m) && Chain(t, n, p)
    requires forall x :: x in p ==> x !in m
    requires Top(t, n, p) !in u
    ensures Chain(u, n, p) && Top(u, n, p) == Top(t, n, p)
    decreases |p|
  {
    if n in t {
      assert n == p[0];
      ChainFrame(t, u, m, t[n].parent, p[1..]);
    }
  }

  /** Each moved node hangs below a directory whose walk meets no moved node. */
  ghost predicate SafeMoves(t: Tree, u: Tree, m: set<Id>)
    requires Acyclic(t)
  {
    forall x :: x in m && x in u ==> SafeMove(t, u, m, u[x].parent)
  }

  ghost predicate SafeMove(t: Tree, u: Tree, m: set<Id>, d: Id)
    requires Acyclic(t)
  {
    (forall y :: y in ChainOf(t, d) ==> y !in m) && Top(t, d, ChainOf(t, d)) !in u
  }

  lemma {:induction false} RelinkChain(t: Tree, u: Tree, m: set<Id>, n: Id, p: seq<Id>) returns (q: seq<Id>)
    requires Acyclic(t) && Agree(t, u, m) && SafeMoves(t, u, m)
    requires Chain(t, n, p)
    ensures Chain(u, n, q)
    decreases |p|
  {
    if n !in u {
      q := [];
    } else if n in m {
      var d := u[n].parent;
      assert SafeMove(t, u, m, d);
      ChainFrame(t, u, m, d, ChainOf(t, d));
      q := [n] + ChainOf(t, d);
      assert q[1..] == ChainOf(t, d);
    } else {
      var r := RelinkChain(t, u, m, t[n].parent, p[1..]);
      q := [n] + r;
      assert q[1..] == r;
    }
  }

  /** Safe moves keep the parent relation acyclic. */
  lemma RelinkAcyclic(t: Tree, u: Tree, m: set<Id>)
    requires Acyclic(t) && Agree(t, u, m) && SafeMoves(t, u, m)
    ensures Acyclic(u)
  {
    forall n: Id ensures HasChain(u, n) {
      var q := RelinkChain(t, u, m, n, ChainOf(t, n));
    }
  }
}
