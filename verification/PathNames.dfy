/**
 The text of a path: what the walk up from a directory spells, and that looking
 its components up from the root leads back to where it was built for.
 */
module PathNames {
  import opened Basics
  import opened Forest
  import opened TreeLocks

  /** The text built by walking the chain `p` and putting "/name" in front each time. */
  ghost function PathText(t: Tree, p: seq<Id>, s: string): string
    requires forall n :: n in p ==> n in t
  {
    if p == [] then s else PathText(t, p[1..], "/" + t[p[0]].name + s)
  }

  lemma ChainNamed(t: Tree, d: Id, p: seq<Id>)
    requires Chain(t, d, p)
    ensures forall n :: n in p ==> n in t
  {
    forall n | n in p ensures n in t {
      var i: nat :| i < |p| && p[i] == n;
      ChainSuffix(t, d, p, i);
    }
  }

  lemma TextStep(t: Tree, p: seq<Id>, i: nat, s: string)
    requires (forall n :: n in p ==> n in t) && i < |p|
    ensures PathText(t, p[i..], s) == PathText(t, p[i + 1..], "/" + t[p[i]].name + s)
  {
    assert p[i..][1..] == p[i + 1..];
  }

  ghost function Text(t: Tree, d: Id, tail: string): string
    requires Acyclic(t)
  {
    ChainNamed(t, d, ChainOf(t, d));
    PathText(t, ChainOf(t, d), tail)
  }

  function Slashed(s: string): string {
    if s == "" then "/" else s
  }

  /** The path a request is given. */
  ghost function FullText(t: Tree, r: Req): string
    requires Acyclic(t)
  {
    Slashed(Text(t, r.dir, if r.name.Some? then "/" + r.name.value else ""))
  }

  lemma {:induction false} TextGrows(t: Tree, p: seq<Id>, s: string)
    requires forall n :: n in p ==> n in t
    ensures |s| <= |PathText(t, p, s)|
  {
    if p != [] {
      TextGrows(t, p[1..], "/" + t[p[0]].name + s);
    }
  }

  // ----- from the text back to the node -------------------------------------

  /** The names along a chain, from the top down. */
  ghost function Names(t: Tree, p: seq<Id>): seq<string>
    requires forall n :: n in p ==> n in t
  {
    if p == [] then [] else Names(t, p[1..]) + [t[p[0]].name]
  }

  function Render(names: seq<string>): string {
    if names == [] then "" else Render(names[..|names| - 1]) + ("/" + names[|names| - 1])
  }

  /** try_get_path builds exactly the root-to-node chain of "/name". */
  lemma {:induction false} TextIsChain(t: Tree, p: seq<Id>, s: string)
    requires forall n :: n in p ==> n in t
    ensures PathText(t, p, s) == Render(Names(t, p)) + s
  {
    if p != [] {
      var name := t[p[0]].name;
      TextIsChain(t, p[1..], "/" + name + s);
      var m := Names(t, p[1..]);
      assert (m + [name])[..|m|] == m;
      assert Render(m) + ("/" + name + s) == Render(m) + ("/" + name) + s;
    }
  }

  predicate SlashFree(s: string) { '/' !in s }

  /** The components of a text that starts with a slash, `cur` being read. */
  function Pieces(s: string, cur: string): seq<string> {
    if s == "" then [cur]
    else if s[0] == '/' then [cur] + Pieces(s[1..], "")
    else Pieces(s[1..], cur + [s[0]])
  }

  function Split(s: string): seq<string> {
    if s == "" || s == "/" then [] else if s[0] == '/' then Pieces(s[1..], "") else Pieces(s, "")
  }

  lemma {:induction false} PiecesSnoc(s: string, cur: string, name: string)
    requires SlashFree(name)
    ensures Pieces(s + ("/" + name), cur) == Pieces(s, cur) + [name]
    decreases |s|
  {
    var u := s + ("/" + name);
    if s == "" {
      assert u == "/" + name && u[1..] == name;
      PieceOnly(name, "");
      assert "" + name == name;
    } else {
      assert u[0] == s[0] && u[1..] == s[1..] + ("/" + name);
      if s[0] == '/' {
        PiecesSnoc(s[1..], "", name);
      } else {
        PiecesSnoc(s[1..], cur + [s[0]], name);
      }
    }
  }

  lemma {:induction false} PieceOnly(s: string, cur: string)
    requires SlashFree(s)
    ensures Pieces(s, cur) == [cur + s]
  {
    if s == "" {
      assert cur + s == cur;
    } else {
      assert s[0] in s && forall c :: c in s[1..] ==> c in s;
      PieceOnly(s[1..], cur + [s[0]]);
      assert cur + [s[0]] + s[1..] == cur + s;
    }
  }

  lemma RenderOne(name: string)
    requires SlashFree(name)
    ensures Render([name]) == "/" + name && Pieces(("/" + name)[1..], "") == [name]
  {
    assert [name][..0] == [] && "" + ("/" + name) == "/" + name && ("/" + name)[1..] == name;
    PieceOnly(name, "");
    assert "" + name == name;
  }

  lemma {:induction false} RenderSplit(names: seq<string>)
    requires forall n :: n in names ==> SlashFree(n)
    ensures names != [] ==> Render(names) != "" && Render(names)[0] == '/' && Pieces(Render(names)[1..], "") == names
  {
    if |names| == 1 {
      assert names[0] in names && names == [names[0]];
      RenderOne(names[0]);
    } else if names != [] {
      var k := |names| - 1;
      var m, name := names[..k], names[k];
      assert name in names && forall n :: n in m ==> n in names;
      RenderSplit(m);
      var r := Render(m);
      assert (r + ("/" + name))[1..] == r[1..] + ("/" + name);
      PiecesSnoc(r[1..], "", name);
      assert names == m + [name];
    }
  }

  /** lookup_node component by component. */
  ghost function Walk(t: Tree, n: Id, names: seq<string>): Option<Id> {
    if names == [] then Some(n)
    else
      match Walk(t, n, names[..|names| - 1])
      case None => None
      case Some(d) => Lookup(t, Link(d, names[|names| - 1]))
  }

  lemma {:induction false} WalkNames(t: Tree, d: Id, p: seq<Id>)
    requires Unique(t) && Chain(t, d, p) && forall n :: n in p ==> n in t
    ensures Walk(t, Top(t, d, p), Names(t, p)) == Some(d)
    decreases |p|
  {
    if p != [] {
      WalkNames(t, t[d].parent, p[1..]);
      var m := Names(t, p[1..]);
      assert (m + [t[d].name])[..|m|] == m;
      assert d in t && t[d] == Link(t[d].parent, t[d].name);
    }
  }

  /** Names as the kernel sends them. */
  predicate ProperName(s: string) { s != "" && SlashFree(s) }

  ghost predicate ProperNames(t: Tree, r: Req) {
    (forall n :: n in t ==> ProperName(t[n].name)) && (r.name.Some? ==> ProperName(r.name.value))
  }

  /** What a request names: the names down to its directory, and then its own, if it has one. */
  ghost function Components(t: Tree, r: Req, p: seq<Id>): seq<string>
    requires forall n :: n in p ==> n in t
  {
    Names(t, p) + (if r.name.Some? then [r.name.value] else [])
  }

  predicate Absolute(path: string) { path != "" && path[0] == '/' }

  /** The path starts at the root; splitting it at its slashes gives the names from there down, the request's own included. */
  ghost predicate Spells(t: Tree, r: Req, path: string)
    requires Acyclic(t)
  {
    ChainNamed(t, r.dir, ChainOf(t, r.dir));
    Absolute(path) && Split(path) == Components(t, r, ChainOf(t, r.dir))
  }

  lemma PathSpells(t: Tree, r: Req)
    requires Acyclic(t) && ProperNames(t, r)
    ensures Spells(t, r, FullText(t, r))
  {
    var p := ChainOf(t, r.dir);
    ChainNamed(t, r.dir, p);
    NamesProper(t, p);
    var names := Names(t, p);
    if r.name.Some? {
      TextIsChain(t, p, "/" + r.name.value);
      assert (names + [r.name.value])[..|names|] == names;
      SlashedSplit(names + [r.name.value]);
    } else {
      TextIsChain(t, p, "");
      assert Render(names) + "" == Render(names) && names + [] == names;
      SlashedSplit(names);
    }
  }

  /**
   Looking the components of a path up from the root gives the directory it was
   built for, or what the request's entry in it holds.
   */
  lemma PathLeadsBack(t: Tree, r: Req)
    requires Acyclic(t) && Unique(t) && Attached(t, r.dir) && ProperNames(t, r)
    ensures Walk(t, ROOT, Split(FullText(t, r))) == if r.name.Some? then Lookup(t, r.Entry()) else Some(r.dir)
  {
    var p := ChainOf(t, r.dir);
    PathSpells(t, r);
    ChainNamed(t, r.dir, p);
    WalkNames(t, r.dir, p);
    var names := Names(t, p);
    if r.name.Some? {
      assert (names + [r.name.value])[..|names|] == names;
    } else {
      assert names + [] == names;
    }
  }

  lemma {:induction false} NamesProper(t: Tree, p: seq<Id>)
    requires (forall n :: n in p ==> n in t) && forall n :: n in t ==> ProperName(t[n].name)
    ensures forall x :: x in Names(t, p) ==> ProperName(x)
  {
    if p != [] {
      NamesProper(t, p[1..]);
      assert p[0] in p;
    }
  }

  lemma SlashedSplit(names: seq<string>)
    requires forall n :: n in names ==> ProperName(n)
    ensures Absolute(Slashed(Render(names))) && Split(Slashed(Render(names))) == names
  {
    RenderSplit(names);
    if names != [] {
      var r := Render(names);
      assert names[0] in names;
      assert r == "/" + r[1..];
    }
  }
}
