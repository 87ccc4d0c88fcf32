/**
 fuse_opt_parse without templates and without a callback: what it makes of an
 argument vector, that doing it again changes nothing, and the code itself.
 */
module OptParse {
  import opened Basics
  import opened Options

  /** struct fuse_opt_context as far as it changes. */
  datatype Ctx = Ctx(out: seq<string>, opts: Option<string>, nonopt: nat)

  predicate IsGroup(arg: string) { |arg| >= 2 && arg[0] == '-' && arg[1] == 'o' }

  /** Passed on unchanged wherever it stands before "--". */
  predicate IsPlain(arg: string) { !IsGroup(arg) && arg != "--" }

  function Group(c: Ctx, s: string): Ctx {
    c.(opts := AddOpts(c.opts, Parse(s, "")))
  }

  /** process_one for each remaining argument; no result when "-o" is the last one. */
  function Args(argv: seq<string>, c: Ctx): Option<Ctx> {
    if argv == [] then Some(c)
    else
      var arg := argv[0];
      if c.nonopt != 0 || IsPlain(arg) then Args(argv[1..], c.(out := c.out + [arg]))
      else if arg == "--" then Args(argv[1..], c.(out := c.out + [arg], nonopt := |c.out| + 1))
      else if |arg| > 2 then Args(argv[1..], Group(c, arg[2..]))
      else if |argv| < 2 then None
      else Args(argv[2..], Group(c, argv[1]))
  }

  function WithOpts(c: Ctx): seq<string>
    requires c.out != []
  {
    if c.opts.Some? then c.out[..1] + ["-o", c.opts.value] + c.out[1..] else c.out
  }

  /** The end of opt_parse: the options go to the front, a separator at the very end goes. */
  function Close(c: Ctx): seq<string>
    requires c.out != []
  {
    var o := WithOpts(c);
    if c.nonopt != 0 && c.nonopt == |o| && o[|o| - 1] == "--" then o[..|o| - 1] else o
  }

  function Start(arg: string): Ctx { Ctx([arg], None, 0) }

  lemma {:induction false} ArgsKeepOut(argv: seq<string>, c: Ctx)
    requires c.out != []
    ensures Args(argv, c).Some? ==> Args(argv, c).value.out != []
    decreases |argv|
  {
    if argv != [] {
      var arg := argv[0];
      if c.nonopt != 0 || IsPlain(arg) {
        ArgsKeepOut(argv[1..], c.(out := c.out + [arg]));
      } else if arg == "--" {
        ArgsKeepOut(argv[1..], c.(out := c.out + [arg], nonopt := |c.out| + 1));
      } else if |arg| > 2 {
        ArgsKeepOut(argv[1..], Group(c, arg[2..]));
      } else if |argv| >= 2 {
        ArgsKeepOut(argv[2..], Group(c, argv[1]));
      }
    }
  }

  /** fuse_opt_parse: nothing happens to an empty vector. */
  function ParseArgs(argv: seq<string>): Option<seq<string>> {
    if argv == [] then Some([])
    else
      ArgsKeepOut(argv[1..], Start(argv[0]));
      match Args(argv[1..], Start(argv[0]))
      case None => None
      case Some(c) => Some(Close(c))
  }

  // ----- doing it twice -----------------------------------------------------

  lemma {:induction false} AddOptsCat(o: Option<string>, k: seq<string>, l: seq<string>)
    ensures AddOpts(AddOpts(o, k), l) == AddOpts(o, k + l)
  {
    if l == [] {
      assert k + l == k;
    } else {
      AddOptsCat(o, k, l[..|l| - 1]);
      assert (k + l)[..|k + l| - 1] == k + l[..|l| - 1];
    }
  }

  /** The separator and what follows it. */
  predicate IsTail(t: seq<string>) { t == [] || t[0] == "--" }

  function Collected(c: Ctx, a: seq<string>, l: seq<string>, t: seq<string>): Ctx {
    Ctx(c.out + a + t, AddOpts(c.opts, l), if t == [] then 0 else |c.out| + |a| + 1)
  }

  /** After "--" everything is passed on. */
  lemma {:induction false} ArgsAfter(argv: seq<string>, c: Ctx)
    requires c.nonopt != 0
    ensures Args(argv, c) == Some(c.(out := c.out + argv))
    decreases |argv|
  {
    if argv == [] {
      assert c.out + argv == c.out;
    } else {
      ArgsAfter(argv[1..], c.(out := c.out + [argv[0]]));
      assert c.out + [argv[0]] + argv[1..] == c.out + argv;
    }
  }

  // ----- what an argument vector says ---------------------------------------

  /** A plain argument, or a group of options in either spelling. */
  datatype Item = Word(text: string) | Joined(text: string) | Apart(text: string)

  predicate Proper(item: Item) { (item.Word? ==> IsPlain(item.text)) && (item.Joined? ==> item.text != "") }

  ghost predicate AllProper(its: seq<Item>) { forall item :: item in its ==> Proper(item) }

  function Spelt(item: Item): seq<string> {
    match item
    case Word(s) => [s]
    case Joined(s) => ["-o" + s]
    case Apart(s) => ["-o", s]
  }

  function Spell(its: seq<Item>): seq<string> {
    if its == [] then [] else Spelt(its[0]) + Spell(its[1..])
  }

  function PlainOf(its: seq<Item>): seq<string> {
    if its == [] then [] else (if its[0].Word? then [its[0].text] else []) + PlainOf(its[1..])
  }

  function OptionsOf(its: seq<Item>): seq<string> {
    if its == [] then [] else (if its[0].Word? then [] else Parse(its[0].text, "")) + OptionsOf(its[1..])
  }

  /** Every vector is spelt by items and a tail, unless it ends in a "-o" without its argument. */
  lemma {:induction false} Spelling(argv: seq<string>) returns (its: seq<Item>, rest: seq<string>)
    ensures argv == Spell(its) + rest && AllProper(its) && (IsTail(rest) || rest == ["-o"])
    decreases |argv|
  {
    if IsTail(argv) || argv == ["-o"] {
      its, rest := [], argv;
    } else {
      var arg := argv[0];
      assert |arg| == 2 && IsGroup(arg) ==> arg == "-o" && argv != [arg];
      var item := if IsPlain(arg) then Word(arg) else if |arg| > 2 then Joined(arg[2..]) else Apart(argv[1]);
      var tail;
      tail, rest := Spelling(argv[|Spelt(item)|..]);
      Spoken(argv, item);
      Associative(Spelt(item), Spell(tail), rest);
      its := [item] + tail;
      assert its[1..] == tail;
    }
  }

  /** The first words of a vector. */
  lemma Spoken(argv: seq<string>, item: Item)
    requires argv != [] && match item
      case Word(s) => argv[0] == s
      case Joined(s) => IsGroup(argv[0]) && s == argv[0][2..]
      case Apart(s) => |argv| > 1 && argv[0] == "-o" && argv[1] == s
    ensures |Spelt(item)| <= |argv| && argv == Spelt(item) + argv[|Spelt(item)|..]
  {
    if item.Joined? {
      assert argv[0] == "-o" + argv[0][2..];
    }
  }

  lemma ArgsItem(item: Item, rest: seq<string>, c: Ctx)
    requires Proper(item) && c.nonopt == 0
    ensures Args(Spelt(item) + rest, c) ==
      Args(rest, if item.Word? then c.(out := c.out + [item.text]) else Group(c, item.text))
  {
    var argv := Spelt(item) + rest;
    assert argv[|Spelt(item)|..] == rest;
    if item.Joined? {
      assert argv[0] == "-o" + item.text && argv[0][2..] == item.text;
    }
  }

  lemma {:induction false} ArgsSpelt(its: seq<Item>, rest: seq<string>, c: Ctx)
    requires AllProper(its) && c.nonopt == 0 && (IsTail(rest) || rest == ["-o"])
    ensures Args(Spell(its) + rest, c) == if rest == ["-o"] then None else Some(Collected(c, PlainOf(its), OptionsOf(its), rest))
    decreases |its|
  {
    if its == [] {
      assert Spell(its) + rest == rest;
      if rest != ["-o"] {
        assert [] + rest == rest;
        ArgsPlain([], rest, c);
      }
    } else {
      var item := its[0];
      var d := if item.Word? then c.(out := c.out + [item.text]) else Group(c, item.text);
      Associative(Spelt(item), Spell(its[1..]), rest);
      ArgsItem(item, Spell(its[1..]) + rest, c);
      ArgsSpelt(its[1..], rest, d);
      if item.Word? {
        assert [] + OptionsOf(its[1..]) == OptionsOf(its[1..]);
        Associative(c.out, [item.text], PlainOf(its[1..]));
      } else {
        assert [] + PlainOf(its[1..]) == PlainOf(its[1..]);
        AddOptsCat(c.opts, Parse(item.text, ""), OptionsOf(its[1..]));
      }
    }
  }

  lemma {:induction false} SpeltClean(its: seq<Item>)
    requires AllProper(its)
    ensures (forall x :: x in PlainOf(its) ==> IsPlain(x)) && AllNulFree(OptionsOf(its))
  {
    if its != [] {
      assert its[0] in its;
      SpeltClean(its[1..]);
      ParseClean(its[0].text, "");
    }
  }

  /** The options behind the program name, then the plain arguments and the tail. */
  function Gathered(arg0: string, a: seq<string>, l: seq<string>, rest: seq<string>): seq<string> {
    if l == [] then [arg0] + (a + if rest == ["--"] then [] else rest)
    else [arg0] + (["-o", Text(Trim(l))] + (a + rest))
  }

  lemma CloseGathers(arg0: string, a: seq<string>, l: seq<string>, rest: seq<string>)
    requires IsTail(rest)
    ensures Close(Collected(Start(arg0), a, l, rest)) == Gathered(arg0, a, l, rest)
  {
    var c := Collected(Start(arg0), a, l, rest);
    if l == [] {
      assert c.out == [arg0] + (a + rest);
      assert rest == ["--"] ==> c.out[..|c.out| - 1] == [arg0] + (a + []);
    } else {
      AddOptsText(l);
      CloseOpts(arg0, a, c.opts.value, rest, c.nonopt);
    }
  }

  lemma ParseCloses(arg0: string, argv: seq<string>)
    ensures ParseArgs([arg0] + argv).Some? <==> Args(argv, Start(arg0)).Some?
    ensures Args(argv, Start(arg0)).Some? ==>
      var c := Args(argv, Start(arg0)).value; c.out != [] && ParseArgs([arg0] + argv) == Some(Close(c))
  {
    assert ([arg0] + argv)[1..] == argv;
    ArgsKeepOut(argv, Start(arg0));
  }

  /**
   What fuse_opt_parse makes of a vector: the options of all groups go, as one
   list, behind the program name, the plain arguments follow in their order, and
   then the tail, but for a separator at the very end when there are no options.
   */
  lemma ParseSpelt(arg0: string, its: seq<Item>, rest: seq<string>)
    requires AllProper(its) && (IsTail(rest) || rest == ["-o"])
    ensures ParseArgs([arg0] + (Spell(its) + rest)) ==
      if rest == ["-o"] then None else Some(Gathered(arg0, PlainOf(its), OptionsOf(its), rest))
  {
    ParseCloses(arg0, Spell(its) + rest);
    ArgsSpelt(its, rest, Start(arg0));
    if rest != ["-o"] {
      CloseGathers(arg0, PlainOf(its), OptionsOf(its), rest);
    }
  }

  /** Plain arguments and a tail are passed on as they are. */
  lemma {:induction false} ArgsPlain(a: seq<string>, t: seq<string>, c: Ctx)
    requires c.nonopt == 0 && (forall x :: x in a ==> IsPlain(x)) && IsTail(t)
    ensures Args(a + t, c) == Some(Collected(c, a, [], t))
    decreases |a|
  {
    if a == [] {
      assert a + t == t;
      if t == [] {
        assert c.out + a + t == c.out;
      } else {
        ArgsAfter(t[1..], c.(out := c.out + [t[0]], nonopt := |c.out| + 1));
        assert [t[0]] + t[1..] == t && c.out + [] == c.out;
        Associative(c.out, [t[0]], t[1..]);
      }
    } else {
      assert a[0] in a && forall x :: x in a[1..] ==> x in a;
      ArgsPlain(a[1..], t, c.(out := c.out + [a[0]]));
      assert (a + t)[1..] == a[1..] + t && (a + t)[0] == a[0];
      Associative(c.out, [a[0]], a[1..]);
      assert [a[0]] + a[1..] == a;
    }
  }

  /** Without options the output is the plain arguments and the tail, and is its own normal form. */
  lemma TwiceBare(arg0: string, a: seq<string>, t: seq<string>, out: seq<string>)
    requires (forall x :: x in a ==> IsPlain(x)) && IsTail(t)
    requires out == Close(Collected(Start(arg0), a, [], t))
    ensures ParseArgs(out) == Some(out)
  {
    var u := if |t| == 1 then [] else t;
    assert WithOpts(Collected(Start(arg0), a, [], t)) == [arg0] + a + t;
    assert out == [arg0] + a + u;
    BareTail(arg0, a, u);
    ArgsPlain(a, u, Start(arg0));
  }

  lemma BareTail(arg0: string, a: seq<string>, u: seq<string>)
    ensures ([arg0] + a + u)[0] == arg0 && ([arg0] + a + u)[1..] == a + u
  {
  }

  lemma GroupFirst(o: string, rest: seq<string>, c: Ctx)
    requires c.nonopt == 0
    ensures Args(["-o", o] + rest, c) == Args(rest, Group(c, o))
  {
    var argv := ["-o", o] + rest;
    assert argv[0] == "-o" && argv[1] == o && argv[2..] == rest;
  }

  /** With options, the separator is never at the index `nonopt` expects, so nothing is dropped. */
  lemma CloseOpts(arg0: string, a: seq<string>, o: string, t: seq<string>, n: nat)
    requires n <= |a| + |t| + 1
    ensures Close(Ctx([arg0] + a + t, Some(o), n)) == [arg0] + (["-o", o] + (a + t))
  {
    var c := Ctx([arg0] + a + t, Some(o), n);
    assert c.out[..1] == [arg0] && c.out[1..] == a + t;
    assert WithOpts(c) == [arg0] + (["-o", o] + (a + t));
  }

  /** With options the second pass meets the same options and arrives at the same context. */
  lemma TwiceOpts(arg0: string, a: seq<string>, l: seq<string>, t: seq<string>, out: seq<string>)
    requires (forall x :: x in a ==> IsPlain(x)) && IsTail(t) && AllNulFree(l) && l != []
    requires out == Close(Collected(Start(arg0), a, l, t))
    ensures ParseArgs(out) == Some(out)
  {
    var o := AddOpts(None, l).value;
    var c := Collected(Start(arg0), a, l, t);
    CloseOpts(arg0, a, o, t, c.nonopt);
    assert out[0] == arg0 && out[1..] == ["-o", o] + (a + t);
    GroupFirst(o, a + t, Start(arg0));
    assert Group(Start(arg0), o) == Start(arg0).(opts := Some(o)) by { Renormalise(l); }
    ArgsPlain(a, t, Start(arg0).(opts := Some(o)));
  }

  /** fuse_opt_parse leaves its own output alone, whatever the arguments were. */
  lemma ParseIdempotent(argv: seq<string>, out: seq<string>)
    requires ParseArgs(argv) == Some(out)
    ensures ParseArgs(out) == Some(out)
  {
    if argv != [] {
      var its, t := Spelling(argv[1..]);
      ArgsSpelt(its, t, Start(argv[0]));
      SpeltClean(its);
      if OptionsOf(its) == [] {
        TwiceBare(argv[0], PlainOf(its), t, out);
      } else {
        TwiceOpts(argv[0], PlainOf(its), OptionsOf(its), t, out);
      }
    }
  }

  // ----- the separator ------------------------------------------------------

  lemma {:induction false} ArgsCat(a: seq<string>, b: seq<string>, c: Ctx)
    requires Args(a, c).Some?
    ensures Args(a + b, c) == Args(b, Args(a, c).value)
    decreases |a|
  {
    if a == [] {
      assert a + b == b;
    } else {
      var arg := a[0];
      assert (a + b)[1..] == a[1..] + b && (a + b)[0] == arg;
      if c.nonopt != 0 || IsPlain(arg) {
        ArgsCat(a[1..], b, c.(out := c.out + [arg]));
      } else if arg == "--" {
        ArgsCat(a[1..], b, c.(out := c.out + [arg], nonopt := |c.out| + 1));
      } else if |arg| > 2 {
        ArgsCat(a[1..], b, Group(c, arg[2..]));
      } else {
        assert (a + b)[2..] == a[2..] + b && (a + b)[1] == a[1];
        ArgsCat(a[2..], b, Group(c, a[1]));
      }
    }
  }

  /** Some argument before the separator starts or is a group of options. */
  predicate HasGroup(argv: seq<string>) { exists x :: x in argv && IsGroup(x) }

  /** As long as no separator was met, options have been collected exactly if some argument is a group. */
  lemma {:induction false} OptsCollected(argv: seq<string>, c: Ctx)
    requires c.nonopt == 0 && Args(argv, c).Some? && Args(argv, c).value.nonopt == 0
    ensures Args(argv, c).value.opts.Some? <==> c.opts.Some? || HasGroup(argv)
    decreases |argv|
  {
    if argv != [] {
      var arg := argv[0];
      assert argv == [arg] + argv[1..];
      if IsPlain(arg) {
        OptsCollected(argv[1..], c.(out := c.out + [arg]));
      } else if arg == "--" {
        ArgsAfter(argv[1..], c.(out := c.out + [arg], nonopt := |c.out| + 1));
      } else if |arg| > 2 {
        OptsCollected(argv[1..], Group(c, arg[2..]));
      } else {
        OptsCollected(argv[2..], Group(c, argv[1]));
      }
    }
  }

  lemma CloseSeparator(c: Ctx)
    requires c.out != [] && c.nonopt == 0
    ensures Close(c.(out := c.out + ["--"], nonopt := |c.out| + 1)) == if c.opts.Some? then Close(c) + ["--"] else Close(c)
  {
    var d := c.(out := c.out + ["--"], nonopt := |c.out| + 1);
    if c.opts.Some? {
      assert d.out[..1] == c.out[..1] && d.out[1..] == c.out[1..] + ["--"];
    } else {
      assert (c.out + ["--"])[..|c.out|] == c.out;
    }
  }

  /**
   An option separator that is the last argument is removed if and only if there
   are no options: `nonopt` is compared with the number of arguments after the
   options have been inserted.
   */
  lemma SeparatorRemoved(argv: seq<string>)
    requires argv != [] && Args(argv[1..], Start(argv[0])).Some? && Args(argv[1..], Start(argv[0])).value.nonopt == 0
    ensures ParseArgs(argv).Some?
    ensures ParseArgs(argv + ["--"]) ==
      if HasGroup(argv[1..]) then Some(ParseArgs(argv).value + ["--"]) else ParseArgs(argv)
  {
    var c := Args(argv[1..], Start(argv[0])).value;
    var all := argv + ["--"];
    assert all[1..] == argv[1..] + ["--"] && all[0] == argv[0];
    ArgsCat(argv[1..], ["--"], Start(argv[0]));
    ArgsKeepOut(argv[1..], Start(argv[0]));
    OptsCollected(argv[1..], Start(argv[0]));
    CloseSeparator(c);
    assert ["--"][1..] == [];
  }

  lemma ReadOnlyText()
    ensures Escape("ro") == "ro" && Parse("ro", "") == ["ro"] && AddOpts(None, ["ro"]) == Some("ro")
  {
    assert "ro"[1..] == "o" && "o"[1..] == "" && ["r"[0]] + "o" == "ro";
    assert Escape("o") == "o";
    assert ["ro"][..0] == [];
    ReadBack(["ro"]);
  }

  lemma ReadOnlyArgs()
    ensures Args(["-oro"], Start("p")) == Some(Ctx(["p"], Some("ro"), 0))
  {
    ReadOnlyText();
    var arg := "-oro";
    assert arg[2..] == "ro" && arg[1] == 'o' && IsGroup(arg);
    assert Group(Start("p"), "ro") == Ctx(["p"], Some("ro"), 0);
    assert ["-oro"][1..] == [];
  }

  lemma ReadOnlyClosed()
    ensures Close(Ctx(["p"], Some("ro"), 0)) == ["p", "-o", "ro"]
  {
    var p := ["p"];
    assert p[..1] == p && p[1..] == [];
    assert p + ["-o", "ro"] + [] == ["p", "-o", "ro"];
  }

  lemma ReadOnlyParsed(a: seq<string>)
    requires a == ["p", "-oro"]
    ensures a[1..] == ["-oro"] && Args(a[1..], Start(a[0])) == Some(Ctx(["p"], Some("ro"), 0))
    ensures ParseArgs(a) == Some(["p", "-o", "ro"])
  {
    assert a[1..] == ["-oro"];
    ReadOnlyArgs();
    ReadOnlyClosed();
  }

  /** With an option the final separator stays, without one it goes. */
  lemma SeparatorStays()
    ensures ParseArgs(["p", "-oro", "--"]) == Some(["p", "-o", "ro", "--"])
    ensures ParseArgs(["p", "--"]) == Some(["p"])
  {
    var a, b := ["p", "-oro"], ["p"];
    ReadOnlyParsed(a);
    assert HasGroup(a[1..]) by { assert "-oro" in a[1..] && IsGroup("-oro"); }
    SeparatorRemoved(a);
    assert a + ["--"] == ["p", "-oro", "--"] && ["p", "-o", "ro"] + ["--"] == ["p", "-o", "ro", "--"];
    assert b[1..] == [];
    SeparatorRemoved(b);
    assert b + ["--"] == ["p", "--"];
  }

  // ----- the code -----------------------------------------------------------

  function Escaped(opt: string, esc: bool): string {
    if esc then Escape(opt) else opt
  }

  /** What add_opt_common puts before the new option. */
  function Prefix(opts: Option<string>): string {
    if opts.Some? && opts.value != "" then opts.value + "," else ""
  }

  lemma PrefixAdds(opts: Option<string>, opt: string)
    ensures Prefix(opts) + Escaped(opt, true) == AddOpt(opts, opt)
  {
  }

  /** add_opt_common: the buffer it allocates is always large enough. */
  method AddOptCommon(opts: Option<string>, opt: string, esc: bool) returns (buf: array<char>, len: nat)
    ensures fresh(buf) && buf.Length == (if opts.Some? then |opts.value| else 0) + 1 + |opt| * 2 + 1
    ensures len < buf.Length && buf[len] == NUL && buf[..len] == Prefix(opts) + Escaped(opt, esc)
  {
    var oldlen := if opts.Some? then |opts.value| else 0;
    var prefix := Prefix(opts);
    buf := new char[oldlen + 1 + |opt| * 2 + 1](_ => NUL);
    forall i | 0 <= i < |prefix| {
      buf[i] := prefix[i];
    }
    assert buf[..|prefix|] == prefix;
    len := WriteEscaped(buf, |prefix|, opt, esc);
    buf[len] := NUL;
  }

  /** The escaping loop: at most two characters are written for each one read. */
  method WriteEscaped(buf: array<char>, start: nat, opt: string, esc: bool) returns (d: nat)
    requires start + 2 * |opt| < buf.Length
    modifies buf
    ensures start <= d <= start + 2 * |opt| && buf[..d] == old(buf[..start]) + Escaped(opt, esc)
  {
    d := start;
    ghost var goal := buf[..start] + Escaped(opt, esc);
    assert opt[0..] == opt;
    for i := 0 to |opt|
      invariant start <= d <= start + 2 * i
      invariant buf[..d] + Escaped(opt[i..], esc) == goal
    {
      ghost var was := buf[..d];
      if esc && Special(opt[i]) {
        buf[d] := '\\';
        d := d + 1;
      }
      buf[d] := opt[i];
      d := d + 1;
      assert buf[..d] == was + EscapedChar(opt[i], esc);
      EscapedStep(was, opt, i, esc);
    }
    assert opt[|opt|..] == "" && buf[..d] + "" == buf[..d];
  }

  function EscapedChar(c: char, esc: bool): string {
    if esc && Special(c) then ['\\', c] else [c]
  }

  lemma EscapedStep(was: string, opt: string, i: nat, esc: bool)
    requires i < |opt|
    ensures was + EscapedChar(opt[i], esc) + Escaped(opt[i + 1..], esc) == was + Escaped(opt[i..], esc)
  {
    assert opt[i..][1..] == opt[i + 1..] && opt[i..][0] == opt[i];
    assert Escaped(opt[i..], esc) == EscapedChar(opt[i], esc) + Escaped(opt[i + 1..], esc);
    Associative(was, EscapedChar(opt[i], esc), Escaped(opt[i + 1..], esc));
  }

  /** How far one round of the splitting loop reads, and what it adds to the current option. */
  datatype Read = Read(next: nat, c: char)

  function ReadAt(text: string, s: nat): Read
    requires s < |text|
  {
    if text[s] == '\\' && s + 1 < |text| then
      if IsOctal(text[s + 1..]) then Read(s + 4, OctalValue(text[s + 1..])) else Read(s + 2, text[s + 1])
    else Read(s + 1, text[s])
  }

  lemma ParseRead(text: string, s: nat, acc: string)
    requires s <= |text|
    ensures s == |text| ==> Parse(text[s..], acc) == [CStr(acc)]
    ensures s < |text| && text[s] == ',' ==> Parse(text[s..], acc) == [CStr(acc)] + Parse(text[s + 1..], "")
    ensures s < |text| && text[s] != ',' ==>
      var r := ReadAt(text, s); r.next <= |text| && Parse(text[s..], acc) == Parse(text[r.next..], acc + [r.c])
  {
    var rest := text[s..];
    if s < |text| {
      assert rest[0] == text[s] && rest[1..] == text[s + 1..];
      if s + 1 < |text| {
        assert rest[1] == text[s + 1] && rest[2..] == text[s + 2..];
        if s + 3 < |text| {
          assert rest[4..] == text[s + 4..];
        }
      }
    }
  }

  /** process_real_option_group: the options, each unescaped over the text already read. */
  method ProcessGroup(a: array<char>, n: nat) returns (l: seq<string>)
    requires n < a.Length && a[n] == NUL && NulFree(a[..n])
    modifies a
    ensures l == Parse(old(a[..n]), "")
  {
    ghost var text := a[..n];
    var s, d, end := 0, 0, false;
    l := [];
    assert text[0..] == text && a[..0] == "" && [] + Parse(text, "") == Parse(text, "");
    while !end
      invariant d <= s <= n + 1 && (end <==> s == n + 1)
      invariant s <= n ==> a[s..n] == text[s..] && a[n] == NUL && Parse(text, "") == l + Parse(text[s..], a[..d])
      invariant end ==> l == Parse(text, "")
      decreases n + 1 - s
    {
      ghost var acc := a[..d];
      ParseRead(text, s, acc);
      SameText(a[..], text, s, n);
      if a[s] == NUL {
        end := true;
      }
      if a[s] == ',' || end {
        a[d] := NUL;
        assert a[..d] == acc;
        Associative(l, [CStr(acc)], Parse(text[if end then n else s + 1..], ""));
        l := l + [CStr(a[..d])];
        d := 0;
        s := s + 1;
      } else {
        var c;
        c, s := ReadOne(a, s, n, text);
        a[d] := c;
        d := d + 1;
        assert a[..d] == acc + [c];
      }
    }
  }

  /** The escape cases of the loop. */
  method ReadOne(a: array<char>, start: nat, n: nat, ghost text: string) returns (c: char, s: nat)
    requires start < n < a.Length && a[n] == NUL && |text| == n && NulFree(text) && a[start..n] == text[start..]
    ensures Read(s, c) == ReadAt(text, start) && start < s <= n
  {
    s := start;
    SameText(a[..], text, start, n);
    if a[s] == '\\' && a[s + 1] != NUL {
      s := s + 1;
      if '0' <= a[s] <= '3' && '0' <= a[s + 1] <= '7' && '0' <= a[s + 2] <= '7' {
        c := OctalValue([a[s], a[s + 1], a[s + 2]]);
        s := s + 2;
      } else {
        c := a[s];
      }
    } else {
      c := a[s];
    }
    s := s + 1;
  }

  lemma SameText(a: string, text: string, s: nat, n: nat)
    requires s <= n < |a| && |text| == n && NulFree(text) && a[n] == NUL && a[s..n] == text[s..]
    ensures forall k :: s <= k < n ==> a[k] == text[k] && a[k] != NUL
  {
    forall k | s <= k < n ensures a[k] == text[k] && a[k] != NUL {
      assert a[s..n][k - s] == text[s..][k - s] && text[k] in text;
    }
  }

  class Context {
    const argv: seq<string>
    var argctr: nat
    var outargs: seq<string>
    var opts: Option<string>
    var nonopt: nat

    ghost function View(): Ctx
      reads this
    {
      Ctx(outargs, opts, nonopt)
    }

    constructor (argv: seq<string>)
      ensures this.argv == argv && View() == Ctx([], None, 0)
    {
      this.argv, argctr, outargs, opts, nonopt := argv, 0, [], None, 0;
    }

    /** process_option_group: a copy of the text is split in place, and add_opt called for each option. */
    method ProcessOptionGroup(s: string)
      requires NulFree(s)
      modifies this`opts
      ensures View() == Group(old(View()), s)
    {
      var copy := new char[|s| + 1](_ => NUL);
      forall i | 0 <= i < |s| {
        copy[i] := s[i];
      }
      assert copy[..|s|] == s;
      var l := ProcessGroup(copy, |s|);
      ghost var before := opts;
      for i := 0 to |l|
        invariant opts == AddOpts(before, l[..i])
      {
        assert l[..i + 1][..i] == l[..i];
        assert l[..i + 1][i] == l[i];
        var buf, len := AddOptCommon(opts, l[i], true);
        PrefixAdds(opts, l[i]);
        opts := Some(buf[..len]);
      }
      assert l[..|l|] == l;
    }

    /** process_one and the step to the next argument; false when "-o" lacks its argument. */
    method ProcessOne() returns (ok: bool)
      requires argctr < |argv| && AllNulFree(argv)
      modifies this`argctr, this`outargs, this`opts, this`nonopt
      ensures ok ==> old(argctr) < argctr <= |argv| && Args(argv[argctr..], View()) == old(Args(argv[argctr..], View()))
      ensures !ok ==> old(Args(argv[argctr..], View())) == None
    {
      var arg := argv[argctr];
      assert arg in argv;
      Here(argv, argctr);
      ok := true;
      if nonopt != 0 || arg == "" || arg[0] != '-' {
        outargs := outargs + [arg];
      } else if |arg| >= 2 && arg[1] == 'o' {
        if |arg| > 2 {
          ProcessOptionGroup(arg[2..]);
        } else {
          if argctr + 1 >= |argv| {
            return false;
          }
          argctr := argctr + 1;
          assert argv[argctr] in argv;
          ProcessOptionGroup(argv[argctr]);
        }
      } else if arg == "--" {
        outargs := outargs + [arg];
        nonopt := |outargs|;
      } else {
        outargs := outargs + [arg];
      }
      argctr := argctr + 1;
    }

    /** opt_parse. */
    method ParseVector() returns (r: Option<seq<string>>)
      requires View() == Ctx([], None, 0) && AllNulFree(argv)
      modifies this
      ensures r == ParseArgs(argv)
    {
      if argv == [] {
        return Some([]);
      }
      outargs := outargs + [argv[0]];
      assert View() == Start(argv[0]);
      argctr := 1;
      ghost var all := Args(argv[1..], Start(argv[0]));
      while argctr < |argv|
        invariant argctr <= |argv| && Args(argv[argctr..], View()) == all
        decreases |argv| - argctr
      {
        var ok := ProcessOne();
        if !ok {
          return None;
        }
      }
      assert argv[argctr..] == [];
      ArgsKeepOut(argv[1..], Start(argv[0]));
      ghost var c := View();
      if opts.Some? {
        outargs := InsertArg(outargs, 1, "-o");
        outargs := InsertArg(outargs, 2, opts.value);
      }
      assert outargs == WithOpts(c);
      if nonopt != 0 && nonopt == |outargs| && outargs[|outargs| - 1] == "--" {
        outargs := outargs[..|outargs| - 1];
      }
      r := Some(outargs);
    }
  }

  /** fuse_opt_insert_arg. */
  function InsertArg(args: seq<string>, pos: nat, arg: string): seq<string>
    requires pos <= |args|
  {
    args[..pos] + [arg] + args[pos..]
  }

  lemma Here(argv: seq<string>, i: nat)
    requires i < |argv|
    ensures argv[i..] != [] && argv[i..][0] == argv[i] && argv[i..][1..] == argv[i + 1..] && |argv[i..]| == |argv| - i
    ensures i + 1 < |argv| ==> argv[i..][1] == argv[i + 1] && argv[i..][2..] == argv[i + 2..]
  {
  }
}
