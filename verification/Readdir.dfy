/**
 Reading a directory in chunks: readdir_fill_from_list packs records into the
 kernel's buffer with fuse_add_direntry, and the kernel comes back with the
 offset in the last record it got.
 */
module Readdir {
  import opened Basics

  /** One entry of the directory handle: inode number, mode and name. */
  datatype Entry = Entry(ino: nat, mode: nat, name: seq<byte>)

  /** struct fuse_dirent. */
  datatype Dirent = Dirent(ino: nat, off: nat, kind: nat, name: seq<byte>)

  const NAME_OFFSET: nat := 24
  const U32: nat := 0x1_0000_0000
  const U64: nat := 0x1_0000_0000_0000_0000

  /** FUSE_DIRENT_ALIGN. */
  function Align(x: nat): (r: nat)
    ensures x <= r < x + 8
  {
    (x + 7) / 8 * 8
  }

  function Bytes(k: nat, v: nat): (s: seq<byte>)
    ensures |s| == k
  {
    if k == 0 then [] else [v % 256] + Bytes(k - 1, v / 256)
  }

  function Value(s: seq<byte>): nat {
    if s == [] then 0 else s[0] + 256 * Value(s[1..])
  }

  function Pow256(k: nat): nat { if k == 0 then 1 else 256 * Pow256(k - 1) }

  lemma {:induction false} BytesValue(k: nat, v: nat)
    requires v < Pow256(k)
    ensures Value(Bytes(k, v)) == v
  {
    if k > 0 {
      BytesValue(k - 1, v / 256);
      assert Bytes(k, v)[1..] == Bytes(k - 1, v / 256);
    }
  }

  lemma Widths()
    ensures Pow256(4) == U32 && Pow256(8) == U64
  {
    assert Pow256(2) == 0x1_0000;
    assert Pow256(4) == U32;
    assert Pow256(6) == 0x1_0000_0000_0000;
  }

  function Zeros(n: nat): (s: seq<byte>)
    ensures |s| == n
  {
    seq(n, _ => 0)
  }

  predicate Fits(d: Dirent) {
    d.ino < U64 && d.off < U64 && d.kind < U32 && |d.name| < U32
  }

  /** The size of a record. */
  function Size(name: seq<byte>): nat {
    Align(NAME_OFFSET + |name|)
  }

  /** The record fuse_add_direntry writes: header, name, zero padding. */
  function Encode(d: Dirent): (s: seq<byte>)
    ensures |s| == Size(d.name)
  {
    Bytes(8, d.ino) + Bytes(8, d.off) + Bytes(4, |d.name|) + Bytes(4, d.kind)
    + d.name + Zeros(Size(d.name) - NAME_OFFSET - |d.name|)
  }

  /** How the kernel reads a chunk: record by record, as long as a whole one is left. */
  function Decode(s: seq<byte>): seq<Dirent>
    decreases |s|
  {
    if |s| < NAME_OFFSET then []
    else
      var namelen := Value(s[16..20]);
      var size := Align(NAME_OFFSET + namelen);
      if |s| < size then []
      else
        [Dirent(Value(s[..8]), Value(s[8..16]), Value(s[20..24]), s[NAME_OFFSET..NAME_OFFSET + namelen])]
        + Decode(s[size..])
  }

  lemma DecodeOne(d: Dirent, rest: seq<byte>)
    requires Fits(d)
    ensures Decode(Encode(d) + rest) == [d] + Decode(rest)
  {
    var s := Encode(d) + rest;
    Widths();
    BytesValue(8, d.ino);
    BytesValue(8, d.off);
    BytesValue(4, |d.name|);
    BytesValue(4, d.kind);
    assert s[..8] == Bytes(8, d.ino);
    assert s[8..16] == Bytes(8, d.off);
    assert s[16..20] == Bytes(4, |d.name|);
    assert s[20..24] == Bytes(4, d.kind);
    assert s[NAME_OFFSET..NAME_OFFSET + |d.name|] == d.name;
    assert s[Size(d.name)..] == rest;
  }

  // ----- one call -----------------------------------------------------------

  /** The record for the entry at index `i`; its offset is where the next one starts. */
  function Record(e: Entry, i: nat): Dirent {
    Dirent(e.ino, i + 1, e.mode / 0x1000 % 16, e.name)
  }

  function Records(l: seq<Entry>): (r: seq<Dirent>)
    ensures |r| == |l| && forall i :: 0 <= i < |l| ==> r[i] == Record(l[i], i)
  {
    seq(|l|, i requires 0 <= i < |l| => Record(l[i], i))
  }

  predicate Storable(l: seq<Entry>) {
    |l| < U64 - 1 && forall i :: 0 <= i < |l| ==> l[i].ino < U64 && |l[i].name| < U32
  }

  /** How many entries from `pos` on fit into `room` bytes. */
  function Count(l: seq<Entry>, pos: nat, room: nat): (n: nat)
    requires pos <= |l|
    ensures pos + n <= |l| && (pos < |l| && Size(l[pos].name) <= room ==> n > 0)
    decreases |l| - pos
  {
    if pos == |l| || Size(l[pos].name) > room then 0
    else 1 + Count(l, pos + 1, room - Size(l[pos].name))
  }

  /** Records one after the other. */
  function Packed(ds: seq<Dirent>): seq<byte> {
    if ds == [] then [] else Encode(ds[0]) + Packed(ds[1..])
  }

  /** The chunk for the entries from `pos` on in a buffer with `room` bytes left. */
  function Fill(l: seq<Entry>, pos: nat, room: nat): seq<byte>
    requires pos <= |l|
  {
    Packed(Records(l)[pos..pos + Count(l, pos, room)])
  }

  lemma PackedCons(r: seq<Dirent>, a: nat, b: nat)
    requires a < b <= |r|
    ensures Packed(r[a..b]) == Encode(r[a]) + Packed(r[a + 1..b])
  {
    assert r[a..b][1..] == r[a + 1..b] && r[a..b][0] == r[a];
  }

  /** The first record that fits, and the chunk behind it. */
  lemma FillNext(l: seq<Entry>, pos: nat, room: nat)
    requires pos < |l| && Size(l[pos].name) <= room
    ensures Fill(l, pos, room) == Encode(Records(l)[pos]) + Fill(l, pos + 1, room - Size(l[pos].name))
  {
    PackedCons(Records(l), pos, pos + Count(l, pos, room));
  }

  // ----- where the records stand --------------------------------------------

  /** The size of the first `k` records, in units of eight bytes. */
  function Units(ds: seq<Dirent>, k: nat): nat
    requires k <= |ds|
  {
    if k == 0 then 0 else Size(ds[0].name) / 8 + Units(ds[1..], k - 1)
  }

  lemma SizeUnits(name: seq<byte>)
    ensures Size(name) == 8 * (Size(name) / 8)
  {
  }

  lemma Shifted(e: seq<byte>, f: seq<byte>, a: nat, b: nat)
    requires a <= b <= |f|
    ensures (e + f)[|e| + a..|e| + b] == f[a..b]
  {
  }

  lemma Leading(e: seq<byte>, f: seq<byte>)
    ensures (e + f)[0..|e|] == e
  {
  }

  lemma {:induction false} PackedAt(ds: seq<Dirent>, k: nat)
    requires k < |ds|
    ensures var at := 8 * Units(ds, k);
      at + |Encode(ds[k])| <= |Packed(ds)| && Packed(ds)[at..at + |Encode(ds[k])|] == Encode(ds[k])
  {
    var e, f := Encode(ds[0]), Packed(ds[1..]);
    assert Packed(ds) == e + f;
    if k == 0 {
      Leading(e, f);
    } else {
      PackedAt(ds[1..], k - 1);
      SizeUnits(ds[0].name);
      assert ds[1..][k - 1] == ds[k];
      Shifted(e, f, 8 * Units(ds[1..], k - 1), 8 * Units(ds[1..], k - 1) + |Encode(ds[k])|);
    }
  }

  /** Every record of a chunk starts at a multiple of eight, and stands there whole. */
  lemma RecordAligned(l: seq<Entry>, pos: nat, room: nat, k: nat)
    requires pos <= |l| && k < Count(l, pos, room)
    ensures var at := 8 * Units(Records(l)[pos..pos + Count(l, pos, room)], k); var e := Encode(Records(l)[pos + k]);
      at + |e| <= |Fill(l, pos, room)| && Fill(l, pos, room)[at..at + |e|] == e
  {
    PackedAt(Records(l)[pos..pos + Count(l, pos, room)], k);
  }

  /** The chunk fits into the room there is. */
  lemma {:induction false} FillFits(l: seq<Entry>, pos: nat, room: nat)
    requires pos <= |l|
    ensures |Fill(l, pos, room)| <= room
    decreases |l| - pos
  {
    if pos < |l| && Size(l[pos].name) <= room {
      FillFits(l, pos + 1, room - Size(l[pos].name));
      FillNext(l, pos, room);
    }
  }

  // ----- reading it back ----------------------------------------------------

  lemma {:induction false} PackedDecodes(ds: seq<Dirent>)
    requires forall i :: 0 <= i < |ds| ==> Fits(ds[i])
    ensures Decode(Packed(ds)) == ds
  {
    if ds != [] {
      PackedDecodes(ds[1..]);
      DecodeOne(ds[0], Packed(ds[1..]));
      assert [ds[0]] + ds[1..] == ds;
    }
  }

  /** A chunk decodes to the next entries, whole and in order. */
  lemma FillDecodes(l: seq<Entry>, pos: nat, room: nat)
    requires pos <= |l| && Storable(l)
    ensures Decode(Fill(l, pos, room)) == Records(l)[pos..pos + Count(l, pos, room)]
  {
    PackedDecodes(Records(l)[pos..pos + Count(l, pos, room)]);
  }

  lemma Slices<T>(r: seq<T>, a: nat, b: nat, c: nat)
    requires a <= b <= c <= |r|
    ensures r[a..b] + r[b..c] == r[a..c] && r[a..b] + r[b..] == r[a..]
  {
  }

  // ----- a whole listing ----------------------------------------------------

  function Clip(l: seq<Entry>, off: nat): nat {
    if off <= |l| then off else |l|
  }

  /** Where the kernel resumes after a chunk. */
  function Resume(chunk: seq<Dirent>, off: nat): nat {
    if chunk == [] then off else chunk[|chunk| - 1].off
  }

  /** The records of consecutive calls with buffers of the given sizes, starting at offset `off`. */
  function Listing(read: (nat, nat) -> seq<Dirent>, off: nat, sizes: seq<nat>): seq<Dirent>
    decreases |sizes|
  {
    if sizes == [] then []
    else
      var chunk := read(off, sizes[0]);
      chunk + Listing(read, Resume(chunk, off), sizes[1..])
  }

  /** What the kernel reads out of one call. */
  function Reader(l: seq<Entry>): (nat, nat) -> seq<Dirent> {
    (off: nat, size: nat) => Decode(Fill(l, Clip(l, off), size))
  }

  /** `c` is a stretch of `r` from index `off` on, without gap or repetition. */
  predicate Stretch(c: seq<Dirent>, r: seq<Dirent>, off: nat) {
    off + |c| <= |r| && c == r[off..off + |c|]
  }

  ghost predicate Faithful(read: (nat, nat) -> seq<Dirent>, r: seq<Dirent>) {
    forall off: nat, size: nat :: off <= |r| ==> Stretch(read(off, size), r, off)
  }

  predicate Numbered(r: seq<Dirent>) {
    forall i :: 0 <= i < |r| ==> r[i].off == i + 1
  }

  function Largest(l: seq<Entry>): nat {
    if l == [] then 0 else
      var m := Largest(l[..|l| - 1]);
      var n := Size(l[|l| - 1].name);
      if n > m then n else m
  }

  lemma {:induction false} LargestBounds(l: seq<Entry>, i: nat)
    requires i < |l|
    ensures Size(l[i].name) <= Largest(l)
  {
    if i < |l| - 1 {
      LargestBounds(l[..|l| - 1], i);
    }
  }

  lemma ReaderStretch(l: seq<Entry>, off: nat, size: nat)
    requires Storable(l) && off <= |l|
    ensures Stretch(Reader(l)(off, size), Records(l), off)
  {
    FillDecodes(l, off, size);
    Cut(Records(l), off, Count(l, off, size));
  }

  lemma Cut(r: seq<Dirent>, off: nat, n: nat)
    requires off + n <= |r|
    ensures Stretch(r[off..off + n], r, off) && |r[off..off + n]| == n
  {
  }

  lemma ReaderFaithful(l: seq<Entry>)
    requires Storable(l)
    ensures Faithful(Reader(l), Records(l))
  {
    forall off: nat, size: nat | off <= |Records(l)| ensures Stretch(Reader(l)(off, size), Records(l), off) {
      ReaderStretch(l, off, size);
    }
  }

  /** A buffer that holds any one entry never comes back empty before the end. */
  lemma ReaderMoves(l: seq<Entry>, off: nat, size: nat)
    requires Storable(l) && off < |l| && size >= Largest(l)
    ensures Reader(l)(off, size) != []
  {
    FillDecodes(l, off, size);
    LargestBounds(l, off);
  }

  /** One call of a listing: the kernel resumes right behind what it got. */
  lemma ListingStep(read: (nat, nat) -> seq<Dirent>, r: seq<Dirent>, off: nat, sizes: seq<nat>) returns (n: nat)
    requires Faithful(read, r) && Numbered(r) && off <= |r| && sizes != []
    ensures n == |read(off, sizes[0])| && off + n <= |r|
    ensures Listing(read, off, sizes) == r[off..off + n] + Listing(read, off + n, sizes[1..])
  {
    var chunk := read(off, sizes[0]);
    n := |chunk|;
    assert Stretch(chunk, r, off);
    StretchResumes(chunk, r, off);
    assert Listing(read, off, sizes) == chunk + Listing(read, Resume(chunk, off), sizes[1..]);
  }

  lemma StretchResumes(c: seq<Dirent>, r: seq<Dirent>, off: nat)
    requires Stretch(c, r, off) && Numbered(r)
    ensures Resume(c, off) == off + |c|
  {
    assert c != [] ==> c[|c| - 1] == r[off + |c| - 1];
  }

  lemma {:induction false} ListingStretch(read: (nat, nat) -> seq<Dirent>, r: seq<Dirent>, off: nat, sizes: seq<nat>)
    requires Faithful(read, r) && Numbered(r) && off <= |r|
    ensures Stretch(Listing(read, off, sizes), r, off)
    decreases |sizes|
  {
    if sizes != [] {
      var n := ListingStep(read, r, off, sizes);
      ListingStretch(read, r, off + n, sizes[1..]);
      Slices(r, off, off + n, off + n + |Listing(read, off + n, sizes[1..])|);
    }
  }

  /** Whatever the buffer sizes, what has been listed is a stretch of the directory without gap or repetition. */
  lemma ListingPrefix(l: seq<Entry>, off: nat, sizes: seq<nat>)
    requires Storable(l) && off <= |l|
    ensures Stretch(Listing(Reader(l), off, sizes), Records(l), off)
  {
    ReaderFaithful(l);
    ListingStretch(Reader(l), Records(l), off, sizes);
  }

  lemma {:induction false} ListingEnds(read: (nat, nat) -> seq<Dirent>, r: seq<Dirent>, off: nat, sizes: seq<nat>)
    requires Faithful(read, r) && Numbered(r) && off <= |r| <= off + |sizes|
    requires forall i, o: nat :: 0 <= i < |sizes| && o < |r| ==> read(o, sizes[i]) != []
    ensures Listing(read, off, sizes) == r[off..]
    decreases |sizes|
  {
    if sizes != [] {
      var n := ListingStep(read, r, off, sizes);
      ListingEnds(read, r, off + n, sizes[1..]);
      Slices(r, off, off + n, |r|);
    }
  }

  /**
   Calls with buffers that hold any one entry list every entry exactly once and
   in order: no call repeats or skips one, and each makes progress until the
   end, after which they return nothing.
   */
  lemma ListingComplete(l: seq<Entry>, off: nat, sizes: seq<nat>)
    requires Storable(l) && off <= |l| <= off + |sizes|
    requires forall i :: 0 <= i < |sizes| ==> sizes[i] >= Largest(l)
    ensures Listing(Reader(l), off, sizes) == Records(l)[off..]
  {
    ReaderFaithful(l);
    forall i, o: nat | 0 <= i < |sizes| && o < |l| ensures Reader(l)(o, sizes[i]) != [] {
      ReaderMoves(l, o, sizes[i]);
    }
    ListingEnds(Reader(l), Records(l), off, sizes);
  }

  /** A record says what its entry says: inode number and name, and the four type bits of the mode. */
  predicate Tells(d: Dirent, e: Entry) {
    d.ino == e.ino && d.name == e.name && d.kind < 16 && e.mode % 0x10000 == d.kind * 0x1000 + e.mode % 0x1000
  }

  lemma RecordTells(e: Entry, i: nat)
    ensures Tells(Record(e, i), e)
  {
  }

  /** What the kernel reads at each place of a listing is the entry whose turn it is, and where the next one starts. */
  lemma ListingTells(l: seq<Entry>, off: nat, sizes: seq<nat>, k: nat)
    requires Storable(l) && off <= |l| && k < |Listing(Reader(l), off, sizes)|
    ensures off + k < |l| && Tells(Listing(Reader(l), off, sizes)[k], l[off + k])
    ensures Listing(Reader(l), off, sizes)[k].off == off + k + 1
  {
    ListingPrefix(l, off, sizes);
    assert Listing(Reader(l), off, sizes)[k] == Records(l)[off + k];
    RecordTells(l[off + k], off + k);
  }

  /** What is packed so far, with what is still to come, makes the chunk. */
  ghost predicate Pending(c: seq<byte>, len: nat, l: seq<Entry>, pos: nat, needlen: nat, goal: seq<byte>)
    requires len <= needlen <= |c| && pos <= |l|
  {
    c[..len] + Fill(l, pos, needlen - len) == goal
  }

  lemma PendingStart(c: seq<byte>, l: seq<Entry>, pos: nat, needlen: nat)
    requires needlen <= |c| && pos <= |l|
    ensures Pending(c, 0, l, pos, needlen, Fill(l, pos, needlen))
  {
    assert c[..0] == [];
  }

  lemma PendingEnd(c: seq<byte>, len: nat, l: seq<Entry>, needlen: nat, goal: seq<byte>)
    requires len <= needlen <= |c| && Pending(c, len, l, |l|, needlen, goal)
    ensures c[..len] == goal
  {
    assert Fill(l, |l|, needlen - len) == [];
  }

  /** A written record joins the chunk. */
  lemma Extended(c: seq<byte>, at: nat, size: nat, l: seq<Entry>, pos: nat, room: nat)
    requires pos < |l| && size == Size(l[pos].name) <= room && at + size <= |c|
    requires c[at..at + size] == Encode(Record(l[pos], pos))
    ensures c[..at + size] + Fill(l, pos + 1, room - size) == c[..at] + Fill(l, pos, room)
  {
    var e, f := Encode(Record(l[pos], pos)), Fill(l, pos + 1, room - size);
    FillNext(l, pos, room);
    Written(c, at, size, e, f);
  }

  lemma PendingFull(c: seq<byte>, len: nat, l: seq<Entry>, pos: nat, needlen: nat, goal: seq<byte>)
    requires len <= needlen <= |c| && pos < |l| && len + Size(l[pos].name) > needlen
    requires Pending(c, len, l, pos, needlen, goal)
    ensures c[..len] == goal
  {
    assert Fill(l, pos, needlen - len) == [];
  }

  lemma PendingMore(c: seq<byte>, c': seq<byte>, len: nat, size: nat, l: seq<Entry>, pos: nat, needlen: nat, goal: seq<byte>)
    requires len + size <= needlen <= |c| == |c'| && pos < |l| && size == Size(l[pos].name)
    requires Pending(c, len, l, pos, needlen, goal) && c'[..len] == c[..len]
    requires c'[len..len + size] == Encode(Record(l[pos], pos))
    ensures Pending(c', len + size, l, pos + 1, needlen, goal)
  {
    Extended(c', len, size, l, pos, needlen - len);
  }

  lemma Written(c: seq<byte>, at: nat, size: nat, e: seq<byte>, f: seq<byte>)
    requires at + size <= |c| && c[at..at + size] == e
    ensures c[..at + size] + f == c[..at] + (e + f)
  {
    assert c[..at + size] == c[..at] + e;
    Associative(c[..at], e, f);
  }

  // ----- the code -----------------------------------------------------------

  class DirHandle {
    const entries: seq<Entry>       // dh->first
    const contents: array<byte>
    var len: nat

    constructor (entries: seq<Entry>, size: nat)
      ensures this.entries == entries && fresh(contents) && contents.Length == size && len == 0
    {
      this.entries, contents, len := entries, new byte[size](_ => 0), 0;
    }

    /** readdir_fill_from_list; extend_contents has made `contents` at least `needlen` long. */
    method FillFromList(off: nat, needlen: nat)
      requires needlen <= contents.Length
      modifies this`len, contents
      ensures len <= needlen && contents[..len] == Fill(entries, Clip(entries, off), needlen)
    {
      len := 0;
      var pos := 0;
      while pos < off && pos < |entries|
        invariant pos <= off && pos <= |entries|
      {
        pos := pos + 1;
      }
      ghost var goal := Fill(entries, pos, needlen);
      PendingStart(contents[..], entries, pos, needlen);
      var more := true;
      while more && pos < |entries|
        invariant pos <= |entries| && len <= needlen
        invariant if more then Pending(contents[..], len, entries, pos, needlen, goal) else contents[..len] == goal
        decreases more, |entries| - pos
      {
        more := Pack(pos, needlen, goal);
        pos := pos + 1;
      }
      if more {
        PendingEnd(contents[..], len, entries, needlen, goal);
      }
    }

    /** One entry: false when it does not fit any more. */
    method Pack(pos: nat, needlen: nat, ghost goal: seq<byte>) returns (more: bool)
      requires pos < |entries| && len <= needlen <= contents.Length
      requires Pending(contents[..], len, entries, pos, needlen, goal)
      modifies this`len, contents
      ensures len <= needlen
      ensures if more then Pending(contents[..], len, entries, pos + 1, needlen, goal) else contents[..len] == goal
    {
      ghost var c := contents[..];
      var thislen := AddDirentry(len, needlen - len, entries[pos], pos + 1);
      if len + thislen > needlen {
        PendingFull(c, len, entries, pos, needlen, goal);
        return false;
      }
      PendingMore(c, contents[..], len, thislen, entries, pos, needlen, goal);
      len := len + thislen;
      more := true;
    }

    /** fuse_add_direntry at `at`: returns the size of the record and writes it if it fits. */
    method AddDirentry(at: nat, bufsize: nat, e: Entry, off: nat) returns (size: nat)
      requires at + bufsize <= contents.Length && off > 0
      modifies contents
      ensures size == Size(e.name)
      ensures size > bufsize ==> contents[..] == old(contents[..])
      ensures size <= bufsize ==> contents[at..at + size] == Encode(Record(e, off - 1))
      ensures contents[..at] == old(contents[..at])
      ensures size <= bufsize ==> contents[at + size..] == old(contents[..])[at + size..]
    {
      size := Align(NAME_OFFSET + |e.name|);
      if size > bufsize {
        return;
      }
      var r := Encode(Record(e, off - 1));
      forall k | 0 <= k < size {
        contents[at + k] := r[k];
      }
    }
  }
}
