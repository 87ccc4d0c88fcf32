/**
 Requests inside the library, and weighted counts over them: how many holds
 read-lock a node, how many write-lock it, how many requests change an entry.
 */
module Requests {
  import opened Basics
  import opened Forest
  import opened TreeLocks

  /**
   A request that locks one or two paths, or a forget that waits for its node to
   be unlocked. A queued element stands in the lock queue; an element that is
   not queued belongs to a thread that is running between get_path and free_path.
   `committed` is set once the request has renamed or exchanged its entries.
   */
  datatype Elem =
    | Path(r1: Req, r2: Option<Req>, h1: Option<Hold>, h2: Option<Hold>,
           queued: bool, done: bool, failed: bool, committed: bool)
    | Waiter(node: Id, count: nat)
  {
    predicate Full() { Path? && h1.Some? && (r2.Some? ==> h2.Some?) }

    predicate Empty() { Path? ==> h1.None? && h2.None? }

    predicate InQueue() { Waiter? || queued }
  }

  datatype Side = First | Second

  predicate Has(e: Elem, j: Side) {
    e.Path? && (j.Second? ==> e.r2.Some?)
  }

  function ReqOf(e: Elem, j: Side): Req
    requires Has(e, j)
  {
    if j.First? then e.r1 else e.r2.value
  }

  function HoldOf(e: Elem, j: Side): Option<Hold>
    requires Has(e, j)
  {
    if j.First? then e.h1 else e.h2
  }

  function WithHold(e: Elem, j: Side, h: Option<Hold>): Elem
    requires Has(e, j)
  {
    if j.First? then e.(h1 := h) else e.(h2 := h)
  }

  /** What is counted over the requests. */
  datatype Measure = Readers(n: Id) | Writers(n: Id) | Changing(l: Link) | Slots | Waits(n: Id)

  function Bit(b: bool): nat { if b then 1 else 0 }

  function SlotWeight(m: Measure, r: Req, h: Option<Hold>): nat {
    match m
    case Readers(n) => Bit(h.Some? && n in h.value.chain)
    case Writers(n) => Bit(h.Some? && h.value.wnode == Some(n))
    case Changing(l) => Bit(r.wr && r.name.Some? && r.Entry() == l)
    case Slots => 1
    case Waits(_) => 0
  }

  function Weight(m: Measure, e: Elem): nat {
    match e
    case Path(r1, r2, h1, h2, _, _, _, _) =>
      SlotWeight(m, r1, h1) + if r2.Some? then SlotWeight(m, r2.value, h2) else 0
    case Waiter(n, k) => if m == Waits(n) then k else 0
  }

  function Sum(m: Measure, q: seq<Elem>): nat {
    if q == [] then 0 else Sum(m, q[..|q| - 1]) + Weight(m, q[|q| - 1])
  }

  lemma SumAppend(m: Measure, q: seq<Elem>, e: Elem)
    ensures Sum(m, q + [e]) == Sum(m, q) + Weight(m, e)
  {
    assert (q + [e])[..|q|] == q;
  }

  lemma {:induction false} SumUpdate(m: Measure, q: seq<Elem>, i: nat, e: Elem)
    requires i < |q|
    ensures Sum(m, q[i := e]) + Weight(m, q[i]) == Sum(m, q) + Weight(m, e)
  {
    var k := |q| - 1;
    if i == k {
      assert q[i := e][..k] == q[..k];
    } else {
      SumUpdate(m, q[..k], i, e);
      assert q[i := e][..k] == q[..k][i := e];
    }
  }

  lemma {:induction false} SumRemove(m: Measure, q: seq<Elem>, i: nat)
    requires i < |q|
    ensures Sum(m, Without(q, i)) + Weight(m, q[i]) == Sum(m, q)
  {
    var k := |q| - 1;
    if i == k {
      assert Without(q, i) == q[..k];
    } else {
      SumRemove(m, q[..k], i);
      assert Without(q, i) == Without(q[..k], i) + [q[k]];
      SumAppend(m, Without(q[..k], i), q[k]);
    }
  }

  lemma {:induction false} SumOne(m: Measure, q: seq<Elem>, i: nat)
    requires i < |q|
    ensures Weight(m, q[i]) <= Sum(m, q)
  {
    SumRemove(m, q, i);
  }

  lemma SumTwo(m: Measure, q: seq<Elem>, i: nat, j: nat)
    requires i < |q| && j < |q| && i != j
    ensures Weight(m, q[i]) + Weight(m, q[j]) <= Sum(m, q)
  {
    SumRemove(m, q, i);
    var k := if j < i then j else j - 1;
    assert Without(q, i)[k] == q[j];
    SumOne(m, Without(q, i), k);
  }

  /** A positive count has a contributor. */
  lemma {:induction false} SumWitness(m: Measure, q: seq<Elem>) returns (i: nat)
    requires Sum(m, q) > 0
    ensures i < |q| && Weight(m, q[i]) > 0
  {
    var k := |q| - 1;
    if Weight(m, q[k]) > 0 {
      i := k;
    } else {
      i := SumWitness(m, q[..k]);
    }
  }

  /** No node has more readers than there are slots. */
  lemma {:induction false} ReadersBounded(q: seq<Elem>, n: Id)
    ensures Sum(Readers(n), q) <= Sum(Slots, q)
  {
    if q != [] {
      ReadersBounded(q[..|q| - 1], n);
    }
  }
}
