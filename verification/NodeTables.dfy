/**
 The two hash tables of fuse.c (nodes by id, nodes by parent and name) grow and
 shrink by linear hashing, one bucket at a time. The code is the same for both;
 here it is generic in the key, the hash being an arbitrary function.
 */
module NodeTables {
  import opened Basics

  const NODE_TABLE_MIN_SIZE: nat := 8192

  datatype Entry<K, V> = Entry(key: K, value: V)

  /** id_hash and name_hash after the hash proper: the bucket of `h`. */
  function Slot(h: nat, size: nat, split: nat): nat
    requires size >= 2
  {
    var x := h % size;
    var o := x % (size / 2);
    if o >= split then o else x
  }

  // ----- arithmetic of the buckets ------------------------------------------

  lemma HalfMod(x: nat, half: nat)
    requires 0 < half && x < 2 * half
    ensures x % half == if x < half then x else x - half
  {
    if x >= half {
      ModStep(half, x - half);
    }
  }

  lemma ModStep(n: nat, x: nat)
    requires n > 0
    ensures (x + n) % n == x % n
  {
    var q, r, a, b := x / n, x % n, (x + n) / n, (x + n) % n;
    assert n * a - n * q - n == r - b;
    MulStep(n, a - q - 1);
    assert n * (a - q - 1) == n * a - n * q - n;
  }

  lemma MulStep(n: nat, d: int)
    requires n > 0
    ensures d >= 1 ==> n * d >= n
    ensures d <= -1 ==> n * d <= 0 - n
  {
  }

  lemma {:induction false} ModMany(x: nat, n: nat, k: nat)
    requires n > 0
    ensures (x + n * k) % n == x % n
  {
    if k > 0 {
      ModMany(x, n, k - 1);
      assert x + n * k == x + n * (k - 1) + n;
      ModStep(n, x + n * (k - 1));
    }
  }

  /** Reducing modulo twice a number does not change the remainder modulo the number. */
  lemma ModTwice(h: nat, n: nat, m: nat, q: nat, r: nat)
    requires n > 0 && m == 2 * n && h == m * q + r
    ensures r % n == h % n
  {
    Rearranged(n, m, q);
    SameRemainder(h, r, n, 2 * q);
  }

  lemma Divided(h: nat, m: nat) returns (q: nat)
    requires m > 0
    ensures h == m * q + h % m
  {
    q := h / m;
  }

  lemma SameRemainder(h: nat, r: nat, n: nat, k: nat)
    requires n > 0 && h == r + n * k
    ensures h % n == r % n
  {
    ModMany(r, n, k);
  }

  lemma Rearranged(n: nat, m: nat, q: nat)
    requires m == 2 * n
    ensures m * q == n * (2 * q)
  {
  }

  predicate Shaped(size: nat, split: nat) {
    size >= 2 && size % 2 == 0 && split <= size / 2
  }

  /** Only the first size/2 + split buckets are in use. */
  lemma SlotLive(h: nat, size: nat, split: nat)
    requires Shaped(size, split)
    ensures Slot(h, size, split) < size / 2 + split
    ensures Slot(h, size, split) < size
  {
    HalfMod(h % size, size / 2);
  }

  /** Splitting a bucket moves some of its keys up by half the table, and no others. */
  lemma SlotSplit(h: nat, size: nat, split: nat)
    requires Shaped(size, split) && split < size / 2
    ensures Slot(h, size, split) != split ==> Slot(h, size, split + 1) == Slot(h, size, split)
    ensures Slot(h, size, split) == split ==>
      Slot(h, size, split + 1) == split || Slot(h, size, split + 1) == split + size / 2
    ensures Slot(h, size, split + 1) == split + size / 2 ==> Slot(h, size, split) == split
    ensures Slot(h, size, split + 1) == split ==> Slot(h, size, split) == split
  {
    HalfMod(h % size, size / 2);
  }

  /** A fully split table is the unsplit table of twice the size. */
  lemma SlotDouble(h: nat, size: nat)
    requires Shaped(size, size / 2)
    ensures Slot(h, 2 * size, 0) == Slot(h, size, size / 2)
  {
    var q := Divided(h, 2 * size);
    ModTwice(h, size, 2 * size, q, h % (2 * size));
    assert (2 * size) / 2 == size;
    HalfMod(h % size, size / 2);
  }

  // ----- what a table holds -------------------------------------------------

  ghost predicate Sound<K(!new), V>(b: seq<seq<Entry<K, V>>>, i: nat, hash: K -> nat, size: nat, split: nat, m: map<K, V>)
    requires i < |b| && size >= 2
  {
    && (forall e :: e in b[i] ==> Slot(hash(e.key), size, split) == i && e.key in m && m[e.key] == e.value)
    && Distinct(b[i])
  }

  ghost predicate Distinct<K(!new), V>(c: seq<Entry<K, V>>) {
    forall j, k :: 0 <= j < k < |c| ==> c[j].key != c[k].key
  }

  /** The buckets hold exactly the map, each node in the bucket its key hashes to. */
  ghost predicate Refines<K(!new), V>(b: seq<seq<Entry<K, V>>>, hash: K -> nat, size: nat, split: nat, m: map<K, V>) {
    && Shaped(size, split) && |b| == size
    && (forall i :: 0 <= i < size ==> Sound(b, i, hash, size, split, m))
    && (forall k :: k in m ==> Stored(b, hash, size, split, k, m[k]))
  }

  ghost predicate Stored<K(!new), V>(b: seq<seq<Entry<K, V>>>, hash: K -> nat, size: nat, split: nat, k: K, v: V)
    requires size >= 2
  {
    Slot(hash(k), size, split) < |b| && Entry(k, v) in b[Slot(hash(k), size, split)]
  }

  /** Buckets at or above size/2 + split are empty. */
  lemma DeadBuckets<K(!new), V>(b: seq<seq<Entry<K, V>>>, hash: K -> nat, size: nat, split: nat, m: map<K, V>, i: nat)
    requires Refines(b, hash, size, split, m) && size / 2 + split <= i < size
    ensures b[i] == []
  {
    if b[i] != [] {
      var e := b[i][0];
      assert Sound(b, i, hash, size, split, m) && e in b[i];
      SlotLive(hash(e.key), size, split);
    }
  }

  // ----- changing one bucket ------------------------------------------------

  lemma PushRefines<K(!new), V>(b: seq<seq<Entry<K, V>>>, hash: K -> nat, size: nat, split: nat, m: map<K, V>, k: K, v: V)
    requires Refines(b, hash, size, split, m) && k !in m
    ensures Slot(hash(k), size, split) < |b|
    ensures var i := Slot(hash(k), size, split); Refines(b[i := [Entry(k, v)] + b[i]], hash, size, split, m[k := v])
  {
    SlotLive(hash(k), size, split);
    var i := Slot(hash(k), size, split);
    var c := [Entry(k, v)] + b[i];
    var b' := b[i := c];
    var m' := m[k := v];
    assert Sound(b, i, hash, size, split, m);
    forall j | 0 <= j < size ensures Sound(b', j, hash, size, split, m') {
      assert Sound(b, j, hash, size, split, m);
    }
    forall x | x in m' ensures Stored(b', hash, size, split, x, m'[x]) {
      if x == k {
        assert Entry(k, v) in c;
      } else {
        assert Stored(b, hash, size, split, x, m[x]);
      }
    }
  }

  lemma DropRefines<K(!new), V>(b: seq<seq<Entry<K, V>>>, hash: K -> nat, size: nat, split: nat, m: map<K, V>, i: nat, j: nat)
    requires Refines(b, hash, size, split, m) && i < size && j < |b[i]|
    ensures b[i][j].key in m
    ensures Refines(b[i := b[i][..j] + b[i][j + 1..]], hash, size, split, m - {b[i][j].key})
  {
    var e := b[i][j];
    var c := b[i][..j] + b[i][j + 1..];
    var b' := b[i := c];
    var m' := m - {e.key};
    assert Sound(b, i, hash, size, split, m) && e in b[i];
    DropChain(b[i], j);
    forall n | 0 <= n < size ensures Sound(b', n, hash, size, split, m') {
      assert Sound(b, n, hash, size, split, m);
    }
    forall x | x in m' ensures Stored(b', hash, size, split, x, m'[x]) {
      assert Stored(b, hash, size, split, x, m[x]);
    }
  }

  lemma DoubleRefines<K(!new), V>(b: seq<seq<Entry<K, V>>>, hash: K -> nat, size: nat, m: map<K, V>, e: seq<seq<Entry<K, V>>>)
    requires Refines(b, hash, size, size / 2, m) && |e| == size && forall i :: 0 <= i < size ==> e[i] == []
    ensures Refines(b + e, hash, 2 * size, 0, m)
  {
    forall i | 0 <= i < 2 * size ensures Sound(b + e, i, hash, 2 * size, 0, m) {
      if i < size {
        assert Sound(b, i, hash, size, size / 2, m);
        forall x | x in b[i] ensures Slot(hash(x.key), 2 * size, 0) == i {
          SlotDouble(hash(x.key), size);
        }
      }
    }
    forall k | k in m ensures Stored(b + e, hash, 2 * size, 0, k, m[k]) {
      assert Stored(b, hash, size, size / 2, k, m[k]);
      SlotDouble(hash(k), size);
    }
  }

  lemma HalveRefines<K(!new), V>(b: seq<seq<Entry<K, V>>>, hash: K -> nat, size: nat, m: map<K, V>)
    requires Refines(b, hash, 2 * size, 0, m) && Shaped(size, size / 2)
    ensures Refines(b[..size], hash, size, size / 2, m)
  {
    forall i | 0 <= i < size ensures Sound(b[..size], i, hash, size, size / 2, m) {
      assert Sound(b, i, hash, 2 * size, 0, m);
      forall x | x in b[i] ensures Slot(hash(x.key), size, size / 2) == i {
        SlotDouble(hash(x.key), size);
      }
    }
    forall k | k in m ensures Stored(b[..size], hash, size, size / 2, k, m[k]) {
      assert Stored(b, hash, 2 * size, 0, k, m[k]);
      SlotDouble(hash(k), size);
      SlotLive(hash(k), size, size / 2);
    }
  }

  function Merged<K, V>(b: seq<seq<Entry<K, V>>>, lo: nat, hi: nat): seq<seq<Entry<K, V>>>
    requires lo < |b| && hi < |b|
  {
    b[lo := b[lo] + b[hi]][hi := []]
  }

  lemma NothingToMerge<K, V>(b: seq<seq<Entry<K, V>>>, lo: nat, hi: nat)
    requires lo < |b| && hi < |b|
    ensures b[hi] == [] ==> Merged(b, lo, hi) == b
  {
    if b[hi] == [] {
      assert b[lo] + b[hi] == b[lo];
    }
  }

  /** Appending the upper bucket of a pair to the lower one undoes the split. */
  lemma MergeRefines<K(!new), V>(b: seq<seq<Entry<K, V>>>, hash: K -> nat, size: nat, split: nat, m: map<K, V>)
    requires Refines(b, hash, size, split + 1, m)
    ensures Refines(Merged(b, split, split + size / 2), hash, size, split, m)
  {
    var hi := split + size / 2;
    var c := b[split] + b[hi];
    var b' := b[split := c][hi := []];
    assert Sound(b, split, hash, size, split + 1, m) && Sound(b, hi, hash, size, split + 1, m);
    forall k: K ensures Slot(hash(k), size, split) == (if Slot(hash(k), size, split + 1) == hi then split else Slot(hash(k), size, split + 1)) {
      SlotSplit(hash(k), size, split);
    }
    forall x, y | 0 <= x < |b[split]| && 0 <= y < |b[hi]| ensures b[split][x].key != b[hi][y].key {
      assert b[split][x] in b[split] && b[hi][y] in b[hi];
    }
    forall i | 0 <= i < size ensures Sound(b', i, hash, size, split, m) {
      assert Sound(b, i, hash, size, split + 1, m);
    }
    forall k | k in m ensures Stored(b', hash, size, split, k, m[k]) {
      assert Stored(b, hash, size, split + 1, k, m[k]);
    }
  }

  // ----- splitting a bucket -------------------------------------------------

  /** The bucket being split has been sorted out up to its element `j`. */
  ghost predicate Splitting<K(!new), V>(b: seq<seq<Entry<K, V>>>, hash: K -> nat, size: nat, split: nat, m: map<K, V>, j: nat) {
    && Shaped(size, split) && split < size / 2 && |b| == size && j <= |b[split]|
    && (forall i :: 0 <= i < size && i != split ==> SoundNext(b, i, hash, size, split, m))
    && Sound(b, split, hash, size, split, m)
    && (forall n :: 0 <= n < j ==> Slot(hash(b[split][n].key), size, split + 1) == split)
    && (forall x, y :: x in b[split] && y in b[split + size / 2] ==> x.key != y.key)
    && (forall k :: k in m ==> Kept(b, hash, size, split, k, m[k]))
  }

  /** Sound for the table with one more bucket split. */
  ghost predicate SoundNext<K(!new), V>(b: seq<seq<Entry<K, V>>>, i: nat, hash: K -> nat, size: nat, split: nat, m: map<K, V>)
    requires i < |b| && size >= 2
  {
    Sound(b, i, hash, size, split + 1, m)
  }

  /** In its new bucket, or still waiting in the one being split. */
  ghost predicate Kept<K(!new), V>(b: seq<seq<Entry<K, V>>>, hash: K -> nat, size: nat, split: nat, k: K, v: V)
    requires size >= 2 && split < |b|
  {
    Stored(b, hash, size, split + 1, k, v) || Entry(k, v) in b[split]
  }

  lemma SplitStart<K(!new), V>(b: seq<seq<Entry<K, V>>>, hash: K -> nat, size: nat, split: nat, m: map<K, V>)
    requires Refines(b, hash, size, split, m) && split < size / 2
    ensures Splitting(b, hash, size, split, m, 0)
  {
    DeadBuckets(b, hash, size, split, m, split + size / 2);
    forall k: K ensures Slot(hash(k), size, split) != split ==> Slot(hash(k), size, split + 1) == Slot(hash(k), size, split) {
      SlotSplit(hash(k), size, split);
    }
    forall i | 0 <= i < size && i != split ensures SoundNext(b, i, hash, size, split, m) {
      assert Sound(b, i, hash, size, split, m);
    }
    forall k | k in m ensures Kept(b, hash, size, split, k, m[k]) {
      assert Stored(b, hash, size, split, k, m[k]);
    }
  }

  lemma SplitTarget<K(!new), V>(b: seq<seq<Entry<K, V>>>, hash: K -> nat, size: nat, split: nat, m: map<K, V>, j: nat)
    requires Splitting(b, hash, size, split, m, j) && j < |b[split]|
    ensures var to := Slot(hash(b[split][j].key), size, split + 1); to == split || to == split + size / 2
  {
    assert b[split][j] in b[split];
    SlotSplit(hash(b[split][j].key), size, split);
  }

  function Moved<K, V>(b: seq<seq<Entry<K, V>>>, lo: nat, j: nat, to: nat): seq<seq<Entry<K, V>>>
    requires lo < |b| && j < |b[lo]| && to < |b|
  {
    b[lo := b[lo][..j] + b[lo][j + 1..]][to := [b[lo][j]] + b[to]]
  }

  lemma MovedSound<K(!new), V>(b: seq<seq<Entry<K, V>>>, hash: K -> nat, size: nat, split: nat, m: map<K, V>, j: nat, i: nat)
    requires Splitting(b, hash, size, split, m, j) && j < |b[split]| && i < size && i != split
    requires Slot(hash(b[split][j].key), size, split + 1) == split + size / 2
    ensures SoundNext(Moved(b, split, j, split + size / 2), i, hash, size, split, m)
  {
    assert SoundNext(b, i, hash, size, split, m);
    assert b[split][j] in b[split];
  }

  lemma MovedKept<K(!new), V>(b: seq<seq<Entry<K, V>>>, hash: K -> nat, size: nat, split: nat, m: map<K, V>, j: nat, k: K)
    requires Splitting(b, hash, size, split, m, j) && j < |b[split]| && k in m
    requires Slot(hash(b[split][j].key), size, split + 1) == split + size / 2
    ensures Kept(Moved(b, split, j, split + size / 2), hash, size, split, k, m[k])
  {
    DropChain(b[split], j);
    assert Kept(b, hash, size, split, k, m[k]);
  }

  lemma SplitMove<K(!new), V>(b: seq<seq<Entry<K, V>>>, hash: K -> nat, size: nat, split: nat, m: map<K, V>, j: nat)
    requires Splitting(b, hash, size, split, m, j) && j < |b[split]|
    requires Slot(hash(b[split][j].key), size, split + 1) == split + size / 2
    ensures Splitting(Moved(b, split, j, split + size / 2), hash, size, split, m, j)
  {
    var b' := Moved(b, split, j, split + size / 2);
    DropChain(b[split], j);
    forall i | 0 <= i < size && i != split ensures SoundNext(b', i, hash, size, split, m) {
      MovedSound(b, hash, size, split, m, j, i);
    }
    forall k | k in m ensures Kept(b', hash, size, split, k, m[k]) {
      MovedKept(b, hash, size, split, m, j, k);
    }
  }

  /** One round of the loop, whichever way it goes. */
  lemma SplitRound<K(!new), V>(b: seq<seq<Entry<K, V>>>, hash: K -> nat, size: nat, split: nat, m: map<K, V>, j: nat)
    requires Splitting(b, hash, size, split, m, j) && j < |b[split]|
    ensures var to := Slot(hash(b[split][j].key), size, split + 1);
      if to == split then Splitting(b, hash, size, split, m, j + 1)
      else
        && to < size && Splitting(Moved(b, split, j, to), hash, size, split, m, j)
        && |Moved(b, split, j, to)| == size && |Moved(b, split, j, to)[split]| == |b[split]| - 1
  {
    SplitTarget(b, hash, size, split, m, j);
    if Slot(hash(b[split][j].key), size, split + 1) != split {
      SplitMove(b, hash, size, split, m, j);
    }
  }

  lemma DropChain<K(!new), V>(chain: seq<Entry<K, V>>, j: nat)
    requires Distinct(chain) && j < |chain|
    ensures var c := chain[..j] + chain[j + 1..];
      && Distinct(c)
      && (forall x :: x in c ==> x in chain && x.key != chain[j].key)
      && (forall x :: x in chain ==> x == chain[j] || x in c)
  {
    var c := chain[..j] + chain[j + 1..];
    forall x | x in c ensures x in chain && x.key != chain[j].key {
      var n :| 0 <= n < |c| && c[n] == x;
      assert x == chain[if n < j then n else n + 1];
    }
    forall x | x in chain ensures x == chain[j] || x in c {
      var n :| 0 <= n < |chain| && chain[n] == x;
      if n != j {
        assert x == c[if n < j then n else n - 1];
      }
    }
  }

  lemma SplitEnd<K(!new), V>(b: seq<seq<Entry<K, V>>>, hash: K -> nat, size: nat, split: nat, m: map<K, V>)
    requires |b| == size && split < size && Splitting(b, hash, size, split, m, |b[split]|)
    ensures Refines(b, hash, size, split + 1, m)
  {
    forall k | k in m ensures Stored(b, hash, size, split + 1, k, m[k]) {
      assert Kept(b, hash, size, split, k, m[k]);
      if Entry(k, m[k]) in b[split] {
        var n :| 0 <= n < |b[split]| && b[split][n] == Entry(k, m[k]);
      }
    }
    forall e | e in b[split] ensures Slot(hash(e.key), size, split + 1) == split {
      var n :| 0 <= n < |b[split]| && b[split][n] == e;
    }
    var next := split + 1;
    forall i | 0 <= i < size ensures Sound(b, i, hash, size, next, m) {
      if i != split {
        assert SoundNext(b, i, hash, size, split, m);
      }
    }
  }

  // ----- the code -----------------------------------------------------------

  /** `size` is `min` doubled some number of times. */
  predicate Doubled(size: nat, min: nat) {
    size == min || (size > min && size % 2 == 0 && Doubled(size / 2, min))
  }

  lemma HalfDoubled(size: nat, min: nat)
    requires Doubled(size, min) && min >= 2 && min % 2 == 0 && size / 2 >= min
    ensures Doubled(size / 2, min) && size == 2 * (size / 2) && size / 2 % 2 == 0
  {
  }

  lemma LeastSize(size: nat, min: nat)
    requires Doubled(size, min) && min >= 2 && min % 2 == 0
    ensures size / 2 < min <==> size == min
  {
  }

  /**
   Of `live` buckets in use some have been merged away, down to `left`: up to the
   first occupied one, or eight, or until no bucket is split.
   */
  ghost predicate MergedDown<K, V>(before: seq<seq<Entry<K, V>>>, live: nat, left: nat, split: nat) {
    && live <= |before| && left < live <= left + 8
    && (forall i :: left < i < live ==> before[i] == [])
    && (live == left + 8 || split == 0 || before[left] != [])
  }

  lemma MergedPrefix<K, V>(before: seq<seq<Entry<K, V>>>, n: nat, live: nat, left: nat, split: nat)
    requires n <= |before| && MergedDown(before[..n], live, left, split)
    ensures MergedDown(before, live, left, split)
  {
  }

  class NodeTable<K(!new, ==), V(==)> {
    const hash: K -> nat
    const minSize: nat              // NODE_TABLE_MIN_SIZE
    var buckets: seq<seq<Entry<K, V>>>
    var use: nat
    var size: nat
    var split: nat
    ghost var model: map<K, V>      // what is in the table

    /** Everything but the load. */
    ghost predicate Sane()
      reads this
    {
      && minSize >= 2 && minSize % 2 == 0 && Doubled(size, minSize)
      && Refines(buckets, hash, size, split, model) && use == |model|
    }

    /** There are never more nodes than live buckets, and there is always a bucket left to split. */
    ghost predicate Valid()
      reads this
    {
      Sane() && split < size / 2 && use <= size / 2 + split
    }

    /** The buckets in use are the first so many. */
    ghost function Live(): nat
      reads this
    {
      size / 2 + split
    }

    /** node_table_init. */
    constructor (hash: K -> nat, minSize: nat)
      requires minSize >= 2 && minSize % 2 == 0
      ensures Valid() && model == map[] && this.hash == hash && this.minSize == minSize
    {
      this.hash, this.minSize := hash, minSize;
      buckets := seq(minSize, _ => []);
      use, size, split := 0, minSize, 0;
      model := map[];
    }

    /** get_node_nocheck and lookup_node. */
    method Find(k: K) returns (r: Option<V>)
      requires Valid()
      ensures r == if k in model then Some(model[k]) else None
    {
      SlotLive(hash(k), size, split);
      var i := Slot(hash(k), size, split);
      assert Sound(buckets, i, hash, size, split, model);
      assert k in model ==> Stored(buckets, hash, size, split, k, model[k]);
      var chain := buckets[i];
      for j := 0 to |chain|
        invariant forall n :: 0 <= n < j ==> chain[n].key != k
      {
        assert chain[j] in buckets[i];
        if chain[j].key == k {
          return Some(chain[j].value);
        }
      }
      r := None;
    }

    /** hash_id and hash_name: at the head of its bucket, then split one bucket if the table is filling up. */
    method Hash(k: K, v: V)
      requires Valid() && k !in model
      modifies this
      ensures Valid() && model == old(model)[k := v]
      ensures Live() == old(Live()) + if use >= old(size) / 2 then 1 else 0
    {
      PushRefines(buckets, hash, size, split, model, k, v);
      var i := Slot(hash(k), size, split);
      buckets := buckets[i := [Entry(k, v)] + buckets[i]];
      use, model := use + 1, model[k := v];
      if use >= size / 2 {
        Rehash();
      }
    }

    /** rehash_id and rehash_name. */
    method Rehash()
      requires Sane() && split < size / 2 && use <= size / 2 + split + 1
      modifies this`buckets, this`size, this`split
      ensures Valid() && Live() == old(Live()) + 1
    {
      var lo := split;
      split := split + 1;
      SplitBucket(lo);
      if split == size / 2 {
        Resize();
      }
    }

    /** The loop of rehash_id and rehash_name: what hashes elsewhere now moves to the head of its new bucket. */
    method SplitBucket(lo: nat)
      requires split == lo + 1 && lo < size / 2 && Refines(buckets, hash, size, lo, model)
      modifies this`buckets
      ensures Refines(buckets, hash, size, split, model)
    {
      SplitStart(buckets, hash, size, lo, model);
      ghost var n := size;
      var j := 0;
      while j < |buckets[lo]|
        invariant |buckets| == n == size && split == lo + 1 && Splitting(buckets, hash, size, lo, model, j)
        decreases |buckets[lo]| - j
      {
        SplitRound(buckets, hash, size, lo, model, j);
        var to := Slot(hash(buckets[lo][j].key), size, split);
        if to != lo {
          buckets := Moved(buckets, lo, j, to);
        } else {
          j := j + 1;
        }
      }
      SplitEnd(buckets, hash, size, lo, model);
    }

    /** node_table_resize, when the allocation succeeds. */
    method Resize()
      requires Sane() && split == size / 2 && use <= size
      modifies this`buckets, this`size, this`split
      ensures Valid() && Live() == old(Live())
    {
      var more := seq(size, _ => []);
      DoubleRefines(buckets, hash, size, model, more);
      buckets := buckets + more;
      size, split := 2 * size, 0;
    }

    /** unhash_id and unhash_name: a node that is not in its bucket is left alone. */
    method Unhash(k: K, v: V)
      requires Valid()
      modifies this
      ensures Valid()
      ensures model == if k in old(model) && old(model)[k] == v then old(model) - {k} else old(model)
      ensures Live() != old(Live()) ==> model != old(model) && use < old(size) / 4 && Live() < old(Live()) <= Live() + 8
      ensures Live() == old(Live()) ==> model == old(model) || use >= old(size) / 4 || (split == 0 && size == minSize)
    {
      SlotLive(hash(k), size, split);
      var i := Slot(hash(k), size, split);
      assert Sound(buckets, i, hash, size, split, model);
      var j := 0;
      while j < |buckets[i]| && buckets[i][j] != Entry(k, v)
        invariant j <= |buckets[i]| && forall n :: 0 <= n < j ==> buckets[i][n] != Entry(k, v)
      {
        j := j + 1;
      }
      if j < |buckets[i]| {
        assert buckets[i][j] in buckets[i];
        DropRefines(buckets, hash, size, split, model, i, j);
        buckets := buckets[i := buckets[i][..j] + buckets[i][j + 1..]];
        use, model := use - 1, model - {k};
        if use < size / 4 {
          Remerge();
        }
      } else if k in model {
        assert Stored(buckets, hash, size, split, k, model[k]);
      }
    }

    /** remerge_id and remerge_name, with node_table_reduce. */
    method Remerge()
      requires Sane() && split < size / 2 && use < size / 4
      modifies this`buckets, this`size, this`split
      ensures Valid()
      ensures if old(split) == 0 && old(size) == minSize then Live() == old(Live()) else MergedDown(old(buckets), old(Live()), Live(), split)
    {
      if split == 0 {
        Reduce();
      }
      if split > 0 {
        ghost var n := |buckets|;
        MergeDown();
        MergedPrefix(old(buckets), n, old(Live()), Live(), split);
      }
    }

    /** The loop of remerge_id and remerge_name. */
    method MergeDown()
      requires Sane() && split > 0 && use < size / 2
      modifies this`buckets, this`split
      ensures Valid() && MergedDown(old(buckets), old(Live()), Live(), split)
    {
      ghost var before, live, n := buckets, Live(), size;
      var iter := 8;
      while split > 0 && iter > 0
        invariant Sane() && size == n && use < size / 2 && (split < size / 2 || iter == 8)
        invariant live == Live() + 8 - iter && (iter == 8 ==> split > 0)
        invariant buckets == before && forall i :: Live() <= i < live ==> before[i] == []
        decreases iter
      {
        var occupied := MergeOne();
        iter := iter - 1;
        if occupied {
          break;
        }
      }
    }

    /** The upper bucket of the last split pair goes to the end of the lower one. */
    method MergeOne() returns (occupied: bool)
      requires Sane() && split > 0
      modifies this`buckets, this`split
      ensures Sane() && split == old(split) - 1 && use == old(use) && size == old(size)
      ensures Live() < |old(buckets)| && (occupied <==> old(buckets)[Live()] != [])
      ensures !occupied ==> buckets == old(buckets)
    {
      split := split - 1;
      MergeRefines(buckets, hash, size, split, model);
      NothingToMerge(buckets, split, split + size / 2);
      occupied := buckets[split + size / 2] != [];
      if occupied {
        buckets := Merged(buckets, split, split + size / 2);
      }
    }

    /** node_table_reduce. */
    method Reduce()
      requires Sane() && split == 0 && use < size / 4
      modifies this`buckets, this`size, this`split
      ensures Sane() && use < size / 2 && split <= size / 2 && (split == 0 || split == size / 2)
      ensures Live() == old(Live()) && |buckets| <= |old(buckets)| && buckets == old(buckets)[..|buckets|]
      ensures split == 0 <==> old(size) == minSize
    {
      LeastSize(size, minSize);
      var newsize := size / 2;
      if newsize < minSize {
        assert buckets[..|buckets|] == buckets;
        return;
      }
      HalfDoubled(size, minSize);
      HalveRefines(buckets, hash, newsize, model);
      buckets := buckets[..newsize];
      size, split := newsize, newsize / 2;
    }
  }
}
