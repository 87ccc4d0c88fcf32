/**
 fuse_buf_copy for memory buffers: a source and a destination scattered over
 one memory, copied piece by piece through two cursors.
 */
module BufVec {
  import opened Basics

  datatype Buf = Buf(mem: nat, size: nat)

  function Range(a: nat, n: nat): (s: seq<nat>)
    ensures |s| == n && forall k :: 0 <= k < n ==> s[k] == a + k
  {
    seq(n, k requires 0 <= k < n => a + k)
  }

  predicate Cursor(bufs: seq<Buf>, idx: nat, off: nat) {
    idx <= |bufs| && (idx < |bufs| ==> off <= bufs[idx].size)
  }

  /** The addresses still ahead of a cursor, in order: the flattened rest of the vector. */
  function Rest(bufs: seq<Buf>, idx: nat, off: nat): seq<nat>
    requires Cursor(bufs, idx, off)
    decreases |bufs| - idx
  {
    if idx == |bufs| then []
    else Range(bufs[idx].mem + off, bufs[idx].size - off) + Rest(bufs, idx + 1, 0)
  }

  const SIZE_MAX: nat := 0xffff_ffff_ffff_ffff

  /** fuse_buf_size in 64 bits: SIZE_MAX stands for a buffer of unknown size, and what follows it is added on. */
  function Total(bufs: seq<Buf>): nat {
    if bufs == [] then 0
    else
      var last := bufs[|bufs| - 1].size;
      if last == SIZE_MAX then SIZE_MAX else (Total(bufs[..|bufs| - 1]) + last) % (SIZE_MAX + 1)
  }

  /** The total is the number of bytes as long as that is below SIZE_MAX. */
  lemma {:induction false} TotalExact(bufs: seq<Buf>)
    requires |Rest(bufs, 0, 0)| < SIZE_MAX
    ensures Total(bufs) == |Rest(bufs, 0, 0)|
  {
    if bufs != [] {
      RestSnoc(bufs, 0, 0);
      TotalExact(bufs[..|bufs| - 1]);
    }
  }

  lemma {:induction false} RestSnoc(bufs: seq<Buf>, idx: nat, off: nat)
    requires Cursor(bufs, idx, off) && idx < |bufs|
    ensures idx + 1 < |bufs| ==> Cursor(bufs[..|bufs| - 1], idx, off)
    ensures idx + 1 < |bufs| ==> |Rest(bufs, idx, off)| == |Rest(bufs[..|bufs| - 1], idx, off)| + bufs[|bufs| - 1].size
    ensures idx + 1 == |bufs| ==> |Rest(bufs, idx, off)| == bufs[idx].size - off
    decreases |bufs| - idx
  {
    if idx + 1 < |bufs| {
      RestSnoc(bufs, idx + 1, 0);
    }
  }

  /** The destination's bytes are distinct and none of them is a source byte. */
  ghost predicate Apart(d: seq<nat>, s: seq<nat>) {
    && (forall j, k :: 0 <= j < k < |d| ==> d[j] != d[k])
    && (forall j, k :: 0 <= j < |d| && 0 <= k < |s| ==> d[j] != s[k])
  }

  /** `n` bytes have gone from `s` to `d`, and nothing else has changed. */
  ghost predicate Copied(before: seq<byte>, after: seq<byte>, d: seq<nat>, s: seq<nat>, n: nat) {
    && n <= |d| && n <= |s| && |after| == |before|
    && (forall k :: 0 <= k < n && d[k] < |before| && s[k] < |before| ==> after[d[k]] == before[s[k]])
    && (forall a :: 0 <= a < |before| && a !in d[..n] ==> after[a] == before[a])
  }

  function Min(a: nat, b: nat): nat { if a < b then a else b }

  /** A memory-to-memory piece, as memmove does it. */
  function Moved(m: seq<byte>, dst: nat, src: nat, n: nat): (r: seq<byte>)
    requires dst + n <= |m| && src + n <= |m|
    ensures |r| == |m| && forall a :: 0 <= a < |m| ==> r[a] == if dst <= a < dst + n then m[src + a - dst] else m[a]
  {
    m[..dst] + m[src..src + n] + m[dst + n..]
  }

  /** Where a cursor stands after moving over `n` bytes of its buffer. */
  predicate Stepped(bufs: seq<Buf>, idx: nat, off: nat, n: nat, idx': nat, off': nat)
    requires idx < |bufs|
  {
    if off + n == bufs[idx].size then idx' == idx + 1 && (idx' < |bufs| ==> off' == 0) else idx' == idx && off' == off + n
  }

  lemma RestSplit(bufs: seq<Buf>, idx: nat, off: nat, n: nat)
    requires idx < |bufs| && off + n <= bufs[idx].size
    ensures Rest(bufs, idx, off)[..n] == Range(bufs[idx].mem + off, n)
    ensures Rest(bufs, idx, off)[n..] == Rest(bufs, idx, off + n)
    ensures n <= |Rest(bufs, idx, off)|
  {
    var a, b := Range(bufs[idx].mem + off, bufs[idx].size - off), Range(bufs[idx].mem + off + n, bufs[idx].size - off - n);
    assert a[n..] == b;
    assert (a + Rest(bufs, idx + 1, 0))[n..] == a[n..] + Rest(bufs, idx + 1, 0);
  }

  /** The next piece of both flattened vectors lies at `dst` and `src`. */
  ghost predicate Piece(d: seq<nat>, s: seq<nat>, c: nat, n: nat, dst: nat, src: nat) {
    && c + n <= |d| && c + n <= |s|
    && d[c..c + n] == Range(dst, n) && s[c..c + n] == Range(src, n)
  }

  lemma PieceAt(d: seq<nat>, s: seq<nat>, c: nat, n: nat, dst: nat, src: nat, k: nat)
    requires Piece(d, s, c, n, dst, src) && c <= k < c + n
    ensures d[k] == dst + (k - c) && s[k] == src + (k - c)
  {
    assert d[k] == d[c..c + n][k - c] && s[k] == s[c..c + n][k - c];
  }

  lemma PieceMisses(d: seq<nat>, s: seq<nat>, c: nat, n: nat, dst: nat, src: nat, v: nat)
    requires Piece(d, s, c, n, dst, src) && v !in d[c..c + n]
    ensures v < dst || dst + n <= v
  {
    RangeMember(dst, n, v);
  }

  lemma EarlierByte(d: seq<nat>, s: seq<nat>, c: nat, n: nat, dst: nat, src: nat, k: nat)
    requires Apart(d, s) && Piece(d, s, c, n, dst, src) && k < c
    ensures d[k] < dst || dst + n <= d[k]
  {
    PieceMisses(d, s, c, n, dst, src, d[k]);
  }

  /** Copying the next piece extends what has been copied. */
  lemma CopiedMore(m0: seq<byte>, m1: seq<byte>, m2: seq<byte>, d: seq<nat>, s: seq<nat>, c: nat, n: nat, dst: nat, src: nat)
    requires Apart(d, s) && Copied(m0, m1, d, s, c) && Piece(d, s, c, n, dst, src)
    requires dst + n <= |m1| && src + n <= |m1| && m2 == Moved(m1, dst, src, n)
    ensures Copied(m0, m2, d, s, c + n)
  {
    forall k | 0 <= k < c + n && d[k] < |m0| && s[k] < |m0| ensures m2[d[k]] == m0[s[k]] {
      if k < c {
        EarlierByte(d, s, c, n, dst, src, k);
      } else {
        PieceAt(d, s, c, n, dst, src, k);
        assert s[k] !in d[..c];
      }
    }
    assert d[..c + n] == d[..c] + d[c..c + n];
    forall a | 0 <= a < |m0| && a !in d[..c + n] ensures m2[a] == m0[a] {
      PieceMisses(d, s, c, n, dst, src, a);
    }
  }

  lemma RangeMember(a: nat, n: nat, v: nat)
    ensures v in Range(a, n) <==> a <= v < a + n
  {
    if a <= v < a + n {
      assert Range(a, n)[v - a] == v;
    }
  }

  class Vec {
    const bufs: seq<Buf>
    var idx: nat
    var off: nat

    ghost predicate Valid(m: array<byte>)
      reads this
    {
      Cursor(bufs, idx, off) && forall i :: 0 <= i < |bufs| ==> bufs[i].mem + bufs[i].size <= m.Length
    }

    ghost function Ahead(): seq<nat>
      reads this
      requires Cursor(bufs, idx, off)
    {
      Rest(bufs, idx, off)
    }

    constructor (bufs: seq<Buf>)
      ensures this.bufs == bufs && idx == 0 && off == 0
    {
      this.bufs, idx, off := bufs, 0, 0;
    }

    /** fuse_bufvec_advance by no more than is left of the current piece. */
    method Advance(len: nat) returns (more: bool)
      requires Cursor(bufs, idx, off) && idx < |bufs| && off + len <= bufs[idx].size
      modifies this
      ensures Cursor(bufs, idx, off) && more == (idx < |bufs|)
      ensures len <= |old(Ahead())| && Ahead() == old(Ahead())[len..]
      ensures Stepped(bufs, old(idx), old(off), len, idx, off)
    {
      RestSplit(bufs, idx, off, len);
      off := off + len;
      if off == bufs[idx].size {
        assert Range(bufs[idx].mem + off, 0) == [];
        idx := idx + 1;
        if idx == |bufs| {
          return false;
        }
        off := 0;
      }
      more := true;
    }

    /** fuse_buf_size. */
    method Size() returns (size: nat)
      ensures size == Total(bufs)
    {
      size := 0;
      for i := 0 to |bufs|
        invariant size == Total(bufs[..i])
      {
        assert bufs[..i + 1][..i] == bufs[..i];
        if bufs[i].size == SIZE_MAX {
          size := SIZE_MAX;
        } else {
          size := (size + bufs[i].size) % (SIZE_MAX + 1);
        }
      }
      assert bufs[..|bufs|] == bufs;
    }
  }

  /** The memory case of fuse_buf_copy_one. */
  method CopyOne(m: array<byte>, dst: nat, src: nat, len: nat) returns (res: nat)
    requires dst + len <= m.Length && src + len <= m.Length
    modifies m
    ensures res == len && m[..] == Moved(old(m[..]), dst, src, len)
  {
    if dst != src {
      forall k | 0 <= k < len {
        m[dst + k] := m[src + k];
      }
    }
    res := len;
  }

  /** One round of fuse_buf_copy: the longest piece that both current buffers have room for. */
  method CopyPiece(dstv: Vec, srcv: Vec, m: array<byte>) returns (res: nat, more: bool, ghost a: nat, ghost b: nat)
    requires dstv != srcv && dstv.Valid(m) && srcv.Valid(m)
    requires srcv.idx < |srcv.bufs| && dstv.idx < |dstv.bufs|
    modifies dstv, srcv, m
    ensures dstv.Valid(m) && srcv.Valid(m)
    ensures res <= |old(srcv.Ahead())| && res <= |old(dstv.Ahead())|
    ensures a + res <= m.Length && b + res <= m.Length && m[..] == Moved(old(m[..]), a, b, res)
    ensures old(dstv.Ahead())[..res] == Range(a, res) && old(srcv.Ahead())[..res] == Range(b, res)
    ensures srcv.Ahead() == old(srcv.Ahead())[res..]
    ensures dstv.Ahead() == if srcv.idx < |srcv.bufs| then old(dstv.Ahead())[res..] else old(dstv.Ahead())
    ensures more == (srcv.idx < |srcv.bufs| && dstv.idx < |dstv.bufs|)
    ensures more ==> srcv.idx + dstv.idx > old(srcv.idx + dstv.idx)
    ensures old(LagOf(dstv, srcv)) == if srcv.idx < |srcv.bufs| then LagOf(dstv, srcv) else res
  {
    var src, dst := srcv.bufs[srcv.idx], dstv.bufs[dstv.idx];
    var len := Min(src.size - srcv.off, dst.size - dstv.off);
    RestSplit(srcv.bufs, srcv.idx, srcv.off, len);
    RestSplit(dstv.bufs, dstv.idx, dstv.off, len);
    a, b := dst.mem + dstv.off, src.mem + srcv.off;
    res := CopyOne(m, dst.mem + dstv.off, src.mem + srcv.off, len);
    ghost var si, so, di, do := srcv.idx, srcv.off, dstv.idx, dstv.off;
    more := srcv.Advance(res);
    if more {
      more := dstv.Advance(res);
      LagKept(srcv.bufs, si, so, srcv.idx, srcv.off, dstv.bufs, di, do, dstv.idx, dstv.off);
    } else {
      LagLast(srcv.bufs, si, so, dstv.bufs, di, do);
    }
  }

  /**
   fuse_buf_copy. It returns the smaller of the two amounts that lie ahead, and
   the source cursor moves by exactly that much. The destination cursor does so
   if and only if the destination is the shorter one or the last source buffer
   has nothing left; otherwise it stays behind by the last piece, `Lag`. If the
   destination overlaps neither itself nor the source, those bytes, and only
   those, are copied in order.
   */
  method Copy(dstv: Vec, srcv: Vec, m: array<byte>) returns (copied: nat)
    requires dstv.Valid(m) && srcv.Valid(m)
    modifies dstv, srcv, m
    ensures dstv == srcv ==> copied == Total(dstv.bufs) && m[..] == old(m[..]) && dstv.idx == old(dstv.idx) && dstv.off == old(dstv.off)
    ensures dstv.Valid(m) && srcv.Valid(m)
    ensures dstv != srcv ==>
      && copied == Min(|old(srcv.Ahead())|, |old(dstv.Ahead())|)
      && srcv.Ahead() == old(srcv.Ahead())[copied..]
      && old(LagOf(dstv, srcv)) <= copied && dstv.Ahead() == old(dstv.Ahead())[copied - old(LagOf(dstv, srcv))..]
      && (dstv.Ahead() == old(dstv.Ahead())[copied..] <==>
            |old(srcv.Ahead())| > |old(dstv.Ahead())| || LastLeft(srcv.bufs, old(srcv.idx), old(srcv.off)) == 0)
      && (Apart(old(dstv.Ahead()), old(srcv.Ahead())) ==>
            Copied(old(m[..]), m[..], old(dstv.Ahead()), old(srcv.Ahead()), copied))
  {
    if dstv == srcv {
      copied := dstv.Size();
    } else {
      ghost var d, lag := dstv.Ahead(), LagOf(dstv, srcv);
      LagZero(srcv.bufs, srcv.idx, srcv.off, dstv.bufs, dstv.idx, dstv.off);
      copied := CopyPieces(dstv, srcv, m);
      LagSeen(d, copied, lag);
    }
  }

  /** The loop of fuse_buf_copy. */
  method CopyPieces(dstv: Vec, srcv: Vec, m: array<byte>) returns (copied: nat)
    requires dstv != srcv && dstv.Valid(m) && srcv.Valid(m)
    modifies dstv, srcv, m
    ensures dstv.Valid(m) && srcv.Valid(m)
    ensures copied == Min(|old(srcv.Ahead())|, |old(dstv.Ahead())|)
    ensures Progress(old(m[..]), m[..], old(dstv.Ahead()), old(srcv.Ahead()), dstv.Ahead(), srcv.Ahead(), copied, old(LagOf(dstv, srcv)), false)
  {
    copied := 0;
    ghost var d, s, m0, lag := dstv.Ahead(), srcv.Ahead(), m[..], LagOf(dstv, srcv);
    var more := srcv.idx < |srcv.bufs| && dstv.idx < |dstv.bufs|;
    NothingCopied(m0, d, s, lag, srcv.idx < |srcv.bufs|);
    while more
      invariant dstv.Valid(m) && srcv.Valid(m) && more == (srcv.idx < |srcv.bufs| && dstv.idx < |dstv.bufs|)
      invariant srcv.idx < |srcv.bufs| ==> LagOf(dstv, srcv) == lag
      invariant Progress(m0, m[..], d, s, dstv.Ahead(), srcv.Ahead(), copied, lag, srcv.idx < |srcv.bufs|)
      decreases more, |srcv.bufs| - srcv.idx + |dstv.bufs| - dstv.idx
    {
      copied, more := CopyNext(dstv, srcv, m, copied, m0, d, s);
    }
    if srcv.idx < |srcv.bufs| {
      LastLeftFits(srcv.bufs, srcv.idx, srcv.off);
    }
    AllCopied(m0, m[..], d, s, dstv.Ahead(), srcv.Ahead(), copied, lag, srcv.idx < |srcv.bufs|);
  }

  /** The body of that loop, `before` bytes having been copied from `s` to `d`. */
  method CopyNext(dstv: Vec, srcv: Vec, m: array<byte>, before: nat, ghost m0: seq<byte>, ghost d: seq<nat>, ghost s: seq<nat>)
    returns (copied: nat, more: bool)
    requires dstv != srcv && dstv.Valid(m) && srcv.Valid(m)
    requires srcv.idx < |srcv.bufs| && dstv.idx < |dstv.bufs|
    requires Progress(m0, m[..], d, s, dstv.Ahead(), srcv.Ahead(), before, LagOf(dstv, srcv), true)
    modifies dstv, srcv, m
    ensures dstv.Valid(m) && srcv.Valid(m) && more == (srcv.idx < |srcv.bufs| && dstv.idx < |dstv.bufs|)
    ensures more ==> srcv.idx + dstv.idx > old(srcv.idx + dstv.idx)
    ensures srcv.idx < |srcv.bufs| ==> LagOf(dstv, srcv) == old(LagOf(dstv, srcv))
    ensures Progress(m0, m[..], d, s, dstv.Ahead(), srcv.Ahead(), copied, old(LagOf(dstv, srcv)), srcv.idx < |srcv.bufs|)
  {
    ghost var a, b, m1, da, sa, lag := 0, 0, m[..], dstv.Ahead(), srcv.Ahead(), LagOf(dstv, srcv);
    var res;
    res, more, a, b := CopyPiece(dstv, srcv, m);
    NextPiece(m0, m1, m[..], d, s, da, sa, dstv.Ahead(), srcv.Ahead(), before, res, a, b, lag, srcv.idx < |srcv.bufs|);
    copied := before + res;
  }

  /** One byte copied from one buffer to another: the destination cursor has not moved. */
  method CursorStays() returns (dstv: Vec, copied: nat)
    ensures copied == 1 && dstv.bufs == [Buf(1, 1)] && Cursor(dstv.bufs, dstv.idx, dstv.off) && dstv.Ahead() == [1]
  {
    var m := new byte[2](_ => 0);
    var srcv := new Vec([Buf(0, 1)]);
    dstv := new Vec([Buf(1, 1)]);
    assert Rest(srcv.bufs, 0, 0) == [0] && Rest(dstv.bufs, 0, 0) == [1];
    copied := Copy(dstv, srcv, m);
  }

  // ----- where the destination cursor ends ----------------------------------

  /** What is left of the last buffer when the cursor stands here. */
  function LastLeft(bufs: seq<Buf>, idx: nat, off: nat): nat
    requires Cursor(bufs, idx, off)
  {
    if idx == |bufs| then 0 else if idx + 1 == |bufs| then bufs[idx].size - off else bufs[|bufs| - 1].size
  }

  lemma {:induction false} LastLeftFits(bufs: seq<Buf>, idx: nat, off: nat)
    requires Cursor(bufs, idx, off)
    ensures LastLeft(bufs, idx, off) <= |Rest(bufs, idx, off)|
    decreases |bufs| - idx
  {
    if idx < |bufs| {
      LastLeftFits(bufs, idx + 1, 0);
    }
  }

  /** How far into its buffer, or past the cursor if that stands in it, the `n`th byte ahead ends. */
  function Into(bufs: seq<Buf>, idx: nat, off: nat, n: nat): (r: nat)
    requires Cursor(bufs, idx, off) && 0 < n <= |Rest(bufs, idx, off)|
    ensures 0 < r <= n
    decreases |bufs| - idx
  {
    var left := bufs[idx].size - off;
    if n <= left then n else Into(bufs, idx + 1, 0, n - left)
  }

  /** The last piece, if the source runs out with it: from where both of its buffers had begun. */
  function Lag(sb: seq<Buf>, si: nat, so: nat, db: seq<Buf>, di: nat, do: nat): (r: nat)
    requires Cursor(sb, si, so) && Cursor(db, di, do)
  {
    var n := |Rest(sb, si, so)|;
    LastLeftFits(sb, si, so);
    if n > |Rest(db, di, do)| || LastLeft(sb, si, so) == 0 then 0
    else Min(LastLeft(sb, si, so), Into(db, di, do, n))
  }

  ghost function LagOf(dstv: Vec, srcv: Vec): nat
    reads dstv, srcv
    requires Cursor(dstv.bufs, dstv.idx, dstv.off) && Cursor(srcv.bufs, srcv.idx, srcv.off)
  {
    Lag(srcv.bufs, srcv.idx, srcv.off, dstv.bufs, dstv.idx, dstv.off)
  }

  lemma LagZero(sb: seq<Buf>, si: nat, so: nat, db: seq<Buf>, di: nat, do: nat)
    requires Cursor(sb, si, so) && Cursor(db, di, do)
    ensures Lag(sb, si, so, db, di, do) == 0 <==> |Rest(sb, si, so)| > |Rest(db, di, do)| || LastLeft(sb, si, so) == 0
  {
    LastLeftFits(sb, si, so);
  }

  lemma LagSeen(d: seq<nat>, copied: nat, lag: nat)
    requires lag <= copied <= |d|
    ensures d[copied - lag..] == d[copied..] <==> lag == 0
  {
    assert |d[copied - lag..]| == |d| - copied + lag;
  }

  /** A round after which the source is not at its end leaves the final lag as it was. */
  lemma LagKept(sb: seq<Buf>, si: nat, so: nat, si': nat, so': nat, db: seq<Buf>, di: nat, do: nat, di': nat, do': nat)
    requires Cursor(sb, si, so) && Cursor(db, di, do) && si < |sb| && di < |db| && si' < |sb|
    requires var n := Min(sb[si].size - so, db[di].size - do);
      Stepped(sb, si, so, n, si', so') && Stepped(db, di, do, n, di', do')
    ensures Lag(sb, si', so', db, di', do') == Lag(sb, si, so, db, di, do)
  {
    var n := Min(sb[si].size - so, db[di].size - do);
    LastLeftFits(sb, si', so');
    RestShrinks(sb, si, so, n, si', so');
    RestShrinks(db, di, do, n, di', do');
    var s, d := |Rest(sb, si, so)|, |Rest(db, di, do)|;
    if s <= d && LastLeft(sb, si', so') != 0 {
      IntoKept(db, di, do, n, di', do', s);
      if si' == si && si + 1 == |sb| {
        assert Rest(sb, si + 1, 0) == [];
      }
    }
  }

  lemma RestShrinks(bufs: seq<Buf>, idx: nat, off: nat, n: nat, idx': nat, off': nat)
    requires idx < |bufs| && off + n <= bufs[idx].size && Stepped(bufs, idx, off, n, idx', off')
    ensures Cursor(bufs, idx', off') && |Rest(bufs, idx', off')| == |Rest(bufs, idx, off)| - n
  {
    RestSplit(bufs, idx, off, n);
  }

  /** Moving the cursor shortens the way into the buffer it is in, and no other. */
  lemma IntoKept(bufs: seq<Buf>, idx: nat, off: nat, n: nat, idx': nat, off': nat, k: nat)
    requires idx < |bufs| && off + n <= bufs[idx].size && Stepped(bufs, idx, off, n, idx', off')
    requires n < k <= |Rest(bufs, idx, off)|
    ensures Cursor(bufs, idx', off') && k - n <= |Rest(bufs, idx', off')|
    ensures Into(bufs, idx, off, k) == if idx' == idx && off + k <= bufs[idx].size then k else Into(bufs, idx', off', k - n)
    ensures idx' == idx && off + k <= bufs[idx].size ==> Into(bufs, idx', off', k - n) == k - n
  {
    RestShrinks(bufs, idx, off, n, idx', off');
  }

  lemma LagLast(sb: seq<Buf>, si: nat, so: nat, db: seq<Buf>, di: nat, do: nat)
    requires Cursor(sb, si, so) && Cursor(db, di, do) && si + 1 == |sb| && di < |db|
    requires sb[si].size - so <= db[di].size - do
    ensures Lag(sb, si, so, db, di, do) == sb[si].size - so
  {
    assert Rest(sb, si + 1, 0) == [];
    assert |Rest(db, di, do)| >= db[di].size - do;
  }

  // ----- what has been copied -----------------------------------------------

  /** What holds after `copied` bytes; `live` says that the source has not run out. */
  ghost predicate Progress(m0: seq<byte>, m: seq<byte>, d: seq<nat>, s: seq<nat>, da: seq<nat>, sa: seq<nat>, copied: nat, lag: nat, live: bool) {
    && copied <= |d| && copied <= |s| && sa == s[copied..]
    && (if live then da == d[copied..] else lag <= copied && da == d[copied - lag..])
    && (Apart(d, s) ==> Copied(m0, m, d, s, copied))
  }

  lemma NothingCopied(m: seq<byte>, d: seq<nat>, s: seq<nat>, lag: nat, live: bool)
    requires live || lag == 0
    ensures Progress(m, m, d, s, d, s, 0, lag, live)
  {
  }

  lemma NextPiece(m0: seq<byte>, m1: seq<byte>, m2: seq<byte>, d: seq<nat>, s: seq<nat>, da: seq<nat>, sa: seq<nat>,
                  db: seq<nat>, sb: seq<nat>, c: nat, n: nat, dst: nat, src: nat, lag: nat, live: bool)
    requires Progress(m0, m1, d, s, da, sa, c, lag, true) && n <= |da| && n <= |sa|
    requires dst + n <= |m1| && src + n <= |m1| && m2 == Moved(m1, dst, src, n)
    requires da[..n] == Range(dst, n) && sa[..n] == Range(src, n)
    requires sb == sa[n..] && (if live then db == da[n..] else db == da && lag == n)
    ensures Progress(m0, m2, d, s, db, sb, c + n, lag, live)
  {
    Chunk(s, c, n);
    Chunk(d, c, n);
    if Apart(d, s) {
      CopiedMore(m0, m1, m2, d, s, c, n, dst, src);
    }
  }

  lemma AllCopied(m0: seq<byte>, m: seq<byte>, d: seq<nat>, s: seq<nat>, da: seq<nat>, sa: seq<nat>, c: nat, lag: nat, live: bool)
    requires Progress(m0, m, d, s, da, sa, c, lag, live)
    requires if live then da == [] && lag == 0 else sa == []
    ensures c == Min(|s|, |d|) && Progress(m0, m, d, s, da, sa, c, lag, false)
  {
  }

  lemma Chunk(s: seq<nat>, c: nat, n: nat)
    requires c <= |s| && n <= |s[c..]|
    ensures s[c..][..n] == s[c..c + n] && s[c..][n..] == s[c + n..]
  {
  }
}
