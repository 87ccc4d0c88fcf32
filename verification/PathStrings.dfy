/**
 The path text: add_name writes it backwards into a growing buffer, and looking
 its components up from the root leads back to the node it was built for.
 */
module PathStrings {
  import opened Basics
  import opened Forest
  import opened PathNames
  import opened TreeLocks
  import opened PathTree

  const UINT_MAX: nat := 0xffff_ffff

  // ----- the buffer ---------------------------------------------------------

  class PathBuf {
    var buf: array<char>
    var s: nat

    ghost predicate Valid()
      reads this, buf
    {
      s < buf.Length <= UINT_MAX && 256 <= buf.Length && buf[buf.Length - 1] == NUL
    }

    /** The text between the cursor and the final NUL. */
    ghost function Text(): string
      reads this, buf
      requires Valid()
    {
      buf[s..buf.Length - 1]
    }

    /** The start of try_get_path: 256 bytes with a NUL at the end. */
    constructor ()
      ensures Valid() && Text() == "" && fresh(buf)
    {
      buf := new char[256](_ => NUL);
      s := 255;
    }

    /**
     add_name. Nothing is written outside the buffer; a text that would not fit
     32-bit sizes is excluded, as the doubling loop would not end on it.
     */
    method AddName(name: string)
      requires Valid() && |Text()| + |name| + 2 <= UINT_MAX
      modifies this, buf
      ensures Valid() && Text() == "/" + name + old(Text()) && (buf == old(buf) || fresh(buf))
    {
      if s <= |name| {
        Grow(|name|);
      }
      Put(name);
      Put("/");
    }

    /** Write in front of the text; there is room. */
    method Put(w: string)
      requires Valid() && |w| <= s
      modifies this`s, buf
      ensures Valid() && Text() == w + old(Text()) && s == old(s) - |w| && buf == old(buf)
    {
      ghost var before := buf[s..buf.Length - 1];
      s := s - |w|;
      forall i | 0 <= i < |w| {
        buf[s + i] := w[i];
      }
      assert buf[s..buf.Length - 1] == buf[s..s + |w|] + buf[s + |w|..buf.Length - 1];
      assert buf[s..s + |w|] == w && buf[s + |w|..buf.Length - 1] == before;
    }

    /** The reallocation in add_name: the size doubles until the name fits, the text moves to the end. */
    method Grow(len: nat)
      requires Valid() && s <= len && |Text()| + len + 2 <= UINT_MAX
      modifies this, buf
      ensures Valid() && Text() == old(Text()) && s > len && fresh(buf)
    {
      var pathlen := buf.Length - s;
      var newbufsize := buf.Length;
      while newbufsize < pathlen + len + 1
        invariant buf.Length <= newbufsize <= UINT_MAX
        decreases UINT_MAX - newbufsize
      {
        if newbufsize >= 0x8000_0000 {
          newbufsize := UINT_MAX;
        } else {
          newbufsize := newbufsize * 2;
        }
      }
      var newbuf := new char[newbufsize](_ => NUL);
      var to := newbufsize - pathlen;
      forall i | 0 <= i < pathlen {
        newbuf[to + i] := buf[s + i];
      }
      SameEnd(buf[..], s, newbuf[..], to, pathlen);
      buf, s := newbuf, to;
    }
  }

  /** The last `n` characters have been moved to the end of a longer text. */
  lemma SameEnd(a: string, i: nat, b: string, j: nat, n: nat)
    requires n > 0 && i + n == |a| && j + n == |b| && forall x :: j <= x < |b| ==> b[x] == a[x - j + i]
    ensures b[j..|b| - 1] == a[i..|a| - 1] && b[|b| - 1] == a[|a| - 1]
  {
  }

  /** try_get_path's use of the buffer: the name, then the names up the chain. */
  method BuildPath(t: Tree, dir: Id, name: Option<string>, ghost p: seq<Id>) returns (b: PathBuf)
    requires Chain(t, dir, p) && Top(t, dir, p) == ROOT && ROOT !in t && (forall n :: n in p ==> n in t)
    requires |PathText(t, p, if name.Some? then "/" + name.value else "")| + 1 <= UINT_MAX
    ensures b.Valid() && b.Text() == PathText(t, p, if name.Some? then "/" + name.value else "")
    ensures Acyclic(t) ==> Slashed(b.Text()) == FullText(t, Req(dir, name, false))
  {
    if Acyclic(t) {
      ChainUnique(t, dir, p, ChainOf(t, dir));
    }
    ghost var goal := PathText(t, p, if name.Some? then "/" + name.value else "");
    b := new PathBuf();
    TextGrows(t, p, if name.Some? then "/" + name.value else "");
    if name.Some? {
      b.AddName(name.value);
      assert "/" + name.value + "" == "/" + name.value;
    }
    var node := dir;
    ghost var i := 0;
    assert p[0..] == p;
    while node != ROOT
      invariant i <= |p| && node == NodeAt(t, dir, p, i) && b.Valid() && fresh(b) && fresh(b.buf)
      invariant PathText(t, p[i..], b.Text()) == goal
      decreases |p| - i
    {
      if i == |p| {
        assert false;
      }
      TopParent(t, dir, p, i);
      TextStep(t, p, i, b.Text());
      TextGrows(t, p[i + 1..], "/" + t[p[i]].name + b.Text());
      b.AddName(t[node].name);
      node := t[node].parent;
      i := i + 1;
    }
    WalkRoot(t, dir, p, i);
    assert p[i..] == [];
  }
}
