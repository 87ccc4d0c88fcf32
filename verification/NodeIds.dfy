/**
 next_id: node ids count through 32 bits and the generation counts the laps,
 so that a node id together with its generation is never given out twice until
 the generation itself wraps.
 */
module NodeIds {
  import opened Forest

  const ID_SPACE: nat := 0x1_0000_0000
  const UNKNOWN_INO: nat := 0xffff_ffff

  /** Position in the sequence of all (generation, id) pairs. */
  function Key(generation: nat, id: nat): nat {
    generation * ID_SPACE + id
  }

  predicate Usable(live: set<nat>, id: nat) {
    0 < id < ID_SPACE && id != UNKNOWN_INO && id !in live
  }

  /** How many steps from `ctr` to `id`, counting up modulo 2^32. */
  function Distance(ctr: nat, id: nat): nat
    requires ctr < ID_SPACE && id < ID_SPACE
  {
    if id > ctr then id - ctr else id + ID_SPACE - ctr
  }

  lemma {:induction false} CardinalityBelow(n: nat, s: set<nat>)
    requires forall x: nat :: 1 <= x <= n ==> x in s
    ensures |s| >= n
  {
    if n > 0 {
      CardinalityBelow(n - 1, s - {n});
    }
  }

  /** With fewer than 2^32 - 2 live ids some id is free. */
  lemma SomeUsable(live: set<nat>) returns (id: nat)
    requires |live| < ID_SPACE - 2
    ensures Usable(live, id)
  {
    if forall x: nat :: 1 <= x <= ID_SPACE - 2 ==> x in live {
      CardinalityBelow(ID_SPACE - 2, live);
      assert false;
    }
    id :| 1 <= id <= ID_SPACE - 2 && id !in live;
  }

  class Ids {
    var ctr: nat
    var generation: nat
    var live: set<nat>                     // keys of the id table
    ghost var given: seq<(nat, nat)>       // (generation, id) of every node, oldest first

    ghost predicate Valid()
      reads this
    {
      && ctr < ID_SPACE && 0 < |given|
      && (forall i :: 0 <= i < |given| ==> given[i].1 < ID_SPACE && Key(given[i].0, given[i].1) <= Top())
      && (forall i, j :: 0 <= i < j < |given| ==> given[i] != given[j])
      && (forall id :: id in live ==> id < ID_SPACE)
    }

    /** Nothing beyond this has been given out; the root's id 1 predates the counter. */
    ghost function Top(): nat
      reads this
    {
      if Key(generation, ctr) < 1 then 1 else Key(generation, ctr)
    }

    /** fuse_new: the counter starts at zero and the root takes id 1. */
    constructor ()
      ensures Valid() && live == {ROOT} && given == [(0, ROOT)] && ctr == 0 && generation == 0
    {
      ctr, generation, live, given := 0, 0, {ROOT}, [(0, ROOT)];
    }

    /**
     next_id. It ends because the distance to some usable id shrinks; the pair
     it produces lies beyond every pair produced before.
     */
    method NextId() returns (id: nat)
      requires Valid() && |live| < ID_SPACE - 2 && ROOT in live
      modifies this`ctr, this`generation
      ensures id == ctr && ctr < ID_SPACE && Usable(live, id)
      ensures Key(generation, id) > old(Top()) && generation <= old(generation) + 1
      ensures forall x: nat :: old(Key(generation, ctr)) < x < Key(generation, ctr) ==> !Usable(live, x % ID_SPACE)
    {
      ghost var target := SomeUsable(live);
      ghost var start, gen := Key(generation, ctr), generation;
      ghost var steps := 0;
      ghost var span := Distance(ctr, target);
      Advance();
      while ctr == 0 || ctr == UNKNOWN_INO || ctr in live
        invariant ctr < ID_SPACE && steps < span && Key(generation, ctr) == start + steps + 1
        invariant gen <= generation <= gen + 1 && (generation == gen + 1 ==> ctr <= target)
        invariant span - steps - 1 == if ctr == target then 0 else Distance(ctr, target)
        invariant forall x: nat :: start < x < Key(generation, ctr) ==> !Usable(live, x % ID_SPACE)
        decreases span - steps
      {
        KeyMod(generation, ctr);
        Advance();
        steps := steps + 1;
      }
      KeyMod(generation, ctr);
      id := ctr;
    }

    /** The body of the loop: add one modulo 2^32, a new generation at zero. */
    method Advance()
      requires ctr < ID_SPACE
      modifies this`ctr, this`generation
      ensures ctr < ID_SPACE && Key(generation, ctr) == old(Key(generation, ctr)) + 1
      ensures ctr == (old(ctr) + 1) % ID_SPACE
      ensures generation == old(generation) + if ctr == 0 then 1 else 0
    {
      ctr := (ctr + 1) % ID_SPACE;
      if ctr == 0 {
        generation := generation + 1;
      }
    }

    /** find_node's allocation of a node: the id is fresh, the pair new for the life of the file system. */
    method Allocate() returns (id: nat, gen: nat)
      requires Valid() && |live| < ID_SPACE - 2 && ROOT in live
      modifies this
      ensures Valid() && id !in old(live) && 0 < id < ID_SPACE && id != UNKNOWN_INO
      ensures live == old(live) + {id} && given == old(given) + [(gen, id)]
      ensures (gen, id) !in old(given)
    {
      ghost var before := given;
      id := NextId();
      gen := generation;
      NewPair(before, gen, id, old(Top()));
      live := live + {id};
      given := given + [(gen, id)];
    }

    /** unhash_id of a deleted node. */
    method Release(id: nat)
      requires Valid() && id != ROOT
      modifies this`live
      ensures Valid() && live == old(live) - {id}
    {
      live := live - {id};
    }
  }

  lemma KeyMod(generation: nat, ctr: nat)
    requires ctr < ID_SPACE
    ensures Key(generation, ctr) % ID_SPACE == ctr
  {
  }

  lemma NewPair(given: seq<(nat, nat)>, gen: nat, id: nat, top: nat)
    requires forall i :: 0 <= i < |given| ==> Key(given[i].0, given[i].1) <= top
    requires Key(gen, id) > top
    ensures (gen, id) !in given
  {
  }
}
