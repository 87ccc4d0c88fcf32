/**
 The command line that mount.fuse hands to /bin/sh -c: add_arg quotes each
 argument so that the shell's word splitting gives the arguments back.
 */
module ShellQuote {
  import opened Basics

  // ----- the shell's side ---------------------------------------------------

  datatype Mode = Plain | Single

  /** Characters that mean something to the shell outside quotes (section 2.2 of the POSIX Shell Command Language). */
  predicate Active(c: char) {
    c in "|&;<>()$`\"\n*?[#~=%"
  }

  predicate Blank(c: char) { c == ' ' || c == '\t' }

  function Grown(cur: Option<string>, c: char): Option<string> {
    Some((if cur.Some? then cur.value else "") + [c])
  }

  /**
   The words of a simple command by the rules for the escape character (2.2.1)
   and single quotes (2.2.2); no result if a quote is left open or the line
   holds an unquoted character that does more than stand for itself.
   */
  function Lex(s: string, mode: Mode, cur: Option<string>): Option<seq<string>>
    decreases |s|
  {
    if s == "" then
      if mode == Single then None else Some(if cur.Some? then [cur.value] else [])
    else
      var c, rest := s[0], s[1..];
      if mode == Single then
        if c == '\'' then Lex(rest, Plain, cur) else Lex(rest, Single, Grown(cur, c))
      else if Blank(c) then
        match cur
        case None => Lex(rest, Plain, None)
        case Some(w) =>
          (match Lex(rest, Plain, None)
           case None => None
           case Some(ws) => Some([w] + ws))
      else if c == '\'' then Lex(rest, Single, Some(if cur.Some? then cur.value else ""))
      else if c == '\\' then
        if rest == "" then Lex(rest, Plain, Grown(cur, c))
        else if rest[0] == '\n' then Lex(rest[1..], Plain, cur)
        else Lex(rest[1..], Plain, Grown(cur, rest[0]))
      else if Active(c) then None
      else Lex(rest, Plain, Grown(cur, c))
  }

  function Words(s: string): Option<seq<string>> {
    Lex(s, Plain, None)
  }

  // ----- add_arg ------------------------------------------------------------

  function QuotedChar(c: char): string {
    if c == '\'' then "'\\''" else [c]
  }

  function Body(opt: string): string {
    if opt == "" then "" else QuotedChar(opt[0]) + Body(opt[1..])
  }

  function Quote(opt: string): string {
    "'" + Body(opt) + "'"
  }

  function AddArg(cmd: Option<string>, opt: string): string {
    (if cmd.Some? then cmd.value + " " else "") + Quote(opt)
  }

  /** The command after add_arg for each argument in turn. */
  function Command(args: seq<string>): (r: Option<string>)
    ensures r.Some? <==> args != []
  {
    if args == [] then None else Some(AddArg(Command(args[..|args| - 1]), args[|args| - 1]))
  }

  /** Two quotes, and three characters more for each quote in the argument. */
  lemma QuoteLength(opt: string)
    ensures |Quote(opt)| == |opt| + 3 * multiset(opt)['\''] + 2
  {
    BodyLength(opt);
  }

  lemma {:induction false} BodyLength(opt: string)
    ensures |Body(opt)| == |opt| + 3 * multiset(opt)['\'']
  {
    if opt != "" {
      BodyLength(opt[1..]);
      assert opt == [opt[0]] + opt[1..];
    }
  }

  // ----- splitting undoes quoting -------------------------------------------

  lemma LexClose(rest: string, cur: Option<string>)
    ensures Lex("'" + rest, Single, cur) == Lex(rest, Plain, cur)
  {
    assert ("'" + rest)[1..] == rest;
  }

  lemma LexOpen(rest: string, w: string)
    ensures Lex("'" + rest, Plain, Some(w)) == Lex(rest, Single, Some(w))
  {
    assert ("'" + rest)[1..] == rest;
  }

  lemma LexEscape(c: char, rest: string, cur: Option<string>)
    requires c != '\n'
    ensures Lex(['\\', c] + rest, Plain, cur) == Lex(rest, Plain, Grown(cur, c))
  {
    var s := ['\\', c] + rest;
    assert s[0] == '\\' && s[1..] == [c] + rest && s[1..][1..] == rest;
  }

  lemma LexQuoted(c: char, rest: string, acc: string)
    requires c != '\''
    ensures Lex([c] + rest, Single, Some(acc)) == Lex(rest, Single, Some(acc + [c]))
  {
    assert ([c] + rest)[1..] == rest;
  }

  /** Leaving the quotes, an escaped quote, and entering them again. */
  lemma LexEscapedQuote(more: string, acc: string)
    ensures Lex("'\\''" + more, Single, Some(acc)) == Lex(more, Single, Some(acc + "'"))
  {
    var t := "'" + more;
    assert "'\\''" + more == "'" + (['\\', '\''] + t);
    LexClose(['\\', '\''] + t, Some(acc));
    LexEscape('\'', t, Some(acc));
    LexOpen(more, acc + "'");
  }

  lemma {:induction false} LexBody(opt: string, rest: string, acc: string)
    ensures Lex(Body(opt) + ("'" + rest), Single, Some(acc)) == Lex(rest, Plain, Some(acc + opt))
    decreases |opt|
  {
    var tail := "'" + rest;
    if opt == "" {
      assert Body(opt) + tail == tail && acc + opt == acc;
      LexClose(rest, Some(acc));
    } else {
      var c, more := opt[0], Body(opt[1..]) + tail;
      LexBody(opt[1..], rest, acc + [c]);
      Associative(acc, [c], opt[1..]);
      assert [c] + opt[1..] == opt;
      Associative(QuotedChar(c), Body(opt[1..]), tail);
      if c == '\'' {
        LexEscapedQuote(more, acc);
      } else {
        LexQuoted(c, more, acc);
      }
    }
  }

  lemma LexQuote(opt: string, rest: string)
    ensures Lex(Quote(opt) + rest, Plain, None) == Lex(rest, Plain, Some(opt))
  {
    var s := Quote(opt) + rest;
    assert s[0] == '\'' && s[1..] == Body(opt) + ("'" + rest);
    LexBody(opt, rest, "");
    assert "" + opt == opt;
  }

  function Line(args: seq<string>): string
    requires args != []
  {
    Quote(args[0]) + if |args| == 1 then "" else " " + Line(args[1..])
  }

  lemma {:induction false} LexLine(args: seq<string>)
    requires args != []
    ensures Words(Line(args)) == Some(args)
  {
    if |args| == 1 {
      LexQuote(args[0], "");
      assert args == [args[0]];
    } else {
      LexLine(args[1..]);
      var rest := " " + Line(args[1..]);
      LexQuote(args[0], rest);
      assert rest[1..] == Line(args[1..]) && args == [args[0]] + args[1..];
    }
  }

  lemma Regrouped(x: string, y: string, z: string)
    ensures x + (" " + (y + " " + z)) == x + (" " + y) + " " + z
  {
  }

  lemma {:induction false} LineSnoc(args: seq<string>, a: string)
    requires args != []
    ensures Line(args + [a]) == Line(args) + " " + Quote(a)
  {
    assert (args + [a])[1..] == args[1..] + [a];
    if |args| == 1 {
      assert args[1..] + [a] == [a];
      assert Line(args) == Quote(args[0]) && Line([a]) == Quote(a) + "";
      assert Quote(a) + "" == Quote(a);
      Associative(Quote(args[0]), " ", Quote(a));
    } else {
      LineSnoc(args[1..], a);
      Regrouped(Quote(args[0]), Line(args[1..]), Quote(a));
    }
  }

  lemma {:induction false} CommandLine(args: seq<string>)
    requires args != []
    ensures Command(args) == Some(Line(args))
  {
    var n := |args| - 1;
    var p, a := args[..n], args[n];
    if n == 0 {
      assert args == [a] && "" + Quote(a) == Quote(a) + "";
    } else {
      CommandLine(p);
      LineSnoc(p, a);
      assert args == p + [a];
    }
  }

  /** The shell sees exactly the arguments that were added, whatever they contain. */
  lemma SplitCommand(args: seq<string>)
    requires args != []
    ensures Words(Command(args).value) == Some(args)
  {
    CommandLine(args);
    LexLine(args);
  }

  // ----- the command assembly at the end of main ----------------------------

  /** The words a mount helper is to be started with, place by place. */
  predicate MountWords(w: seq<string>, kind: string, source: Option<string>, mountpoint: string, options: Option<string>) {
    var m := if source.Some? then 2 else 1;
    && |w| == m + (if options.Some? then 3 else 1)
    && w[0] == kind && (source.Some? ==> w[1] == source.value) && w[m] == mountpoint
    && (options.Some? ==> w[m + 1] == "-o" && w[m + 2] == options.value)
  }

  /** The words of the command that runs another one as `user`. */
  predicate SuWords(w: seq<string>, user: string) {
    |w| == 5 && w[0] == "su" && w[1] == "-" && w[2] == user && w[3] == "-c"
  }

  lemma CommandSnoc(args: seq<string>, a: string)
    ensures Command(args + [a]) == Some(AddArg(Command(args), a))
  {
    assert (args + [a])[..|args|] == args;
  }

  // ----- the code -----------------------------------------------------------

  lemma BodyStep(was: string, opt: string, i: nat)
    requires i < |opt|
    ensures was + QuotedChar(opt[i]) + Body(opt[i + 1..]) == was + Body(opt[i..])
  {
    assert opt[i..][1..] == opt[i + 1..];
    Associative(was, QuotedChar(opt[i]), Body(opt[i + 1..]));
  }

  lemma Assembled(cmd: Option<string>, opt: string)
    ensures (if cmd.Some? then cmd.value + " " else "") + "'" + Body(opt) + "'" == AddArg(cmd, opt)
  {
  }

  /** add_arg: cmdlen + 4 * optlen + 4 characters are always enough. */
  method AddArgBuffer(cmd: Option<string>, opt: string) returns (buf: array<char>, len: nat)
    ensures fresh(buf) && buf.Length == (if cmd.Some? then |cmd.value| else 0) + |opt| * 4 + 4
    ensures len < buf.Length && buf[len] == '\0' && buf[..len] == AddArg(cmd, opt)
  {
    var cmdlen := if cmd.Some? then |cmd.value| else 0;
    buf := new char[cmdlen + |opt| * 4 + 4](_ => '\0');
    var start := (if cmd.Some? then cmd.value + " " else "") + "'";
    forall i | 0 <= i < |start| {
      buf[i] := start[i];
    }
    assert buf[..|start|] == start;
    var s := WriteBody(buf, |start|, opt);
    ghost var body := buf[..s];
    buf[s] := '\'';
    buf[s + 1] := '\0';
    len := s + 1;
    assert buf[..len] == body + "'";
    Assembled(cmd, opt);
  }

  /** The quoting loop: at most four characters are written for each one read. */
  method WriteBody(buf: array<char>, start: nat, opt: string) returns (s: nat)
    requires start + 4 * |opt| + 2 <= buf.Length
    modifies buf
    ensures start <= s <= start + 4 * |opt| && buf[..s] == old(buf[..start]) + Body(opt)
  {
    s := start;
    ghost var goal := buf[..start] + Body(opt);
    assert opt[0..] == opt;
    for i := 0 to |opt|
      invariant start <= s <= start + 4 * i
      invariant buf[..s] + Body(opt[i..]) == goal
    {
      ghost var was := buf[..s];
      if opt[i] == '\'' {
        buf[s] := '\'';
        buf[s + 1] := '\\';
        buf[s + 2] := '\'';
        buf[s + 3] := '\'';
        s := s + 4;
      } else {
        buf[s] := opt[i];
        s := s + 1;
      }
      assert buf[..s] == was + QuotedChar(opt[i]);
      BodyStep(was, opt, i);
    }
    assert opt[|opt|..] == "" && buf[..s] + "" == buf[..s];
  }

  method Add(cmd: Option<string>, opt: string, ghost args: seq<string>) returns (r: Option<string>)
    requires cmd == Command(args)
    ensures r == Command(args + [opt])
  {
    CommandSnoc(args, opt);
    var buf, len := AddArgBuffer(cmd, opt);
    r := Some(buf[..len]);
  }

  /** The first half of the assembly: the mount helper and its arguments. */
  method MountCommand(kind: string, source: Option<string>, mountpoint: string, options: Option<string>) returns (command: Option<string>)
    ensures command.Some? && Words(command.value).Some?
    ensures MountWords(Words(command.value).value, kind, source, mountpoint, options)
  {
    ghost var args: seq<string> := [];
    command := Add(None, kind, args);
    args := args + [kind];
    if source.Some? {
      command := Add(command, source.value, args);
      args := args + [source.value];
    }
    command := Add(command, mountpoint, args);
    args := args + [mountpoint];
    if options.Some? {
      command := Add(command, "-o", args);
      args := args + ["-o"];
      command := Add(command, options.value, args);
      args := args + [options.value];
    }
    SplitCommand(args);
  }

  /**
   The end of main: the shell starts the mount helper with exactly these words;
   with a user given it starts su with them, and the shell that su starts finds
   the words of the mount helper in the last one.
   */
  method Assemble(kind: string, source: Option<string>, mountpoint: string, options: Option<string>, setuid: Option<string>)
    returns (command: string)
    ensures Words(command).Some?
    ensures setuid.None? || setuid.value == "" ==> MountWords(Words(command).value, kind, source, mountpoint, options)
    ensures setuid.Some? && setuid.value != "" ==>
      var w := Words(command).value;
      SuWords(w, setuid.value) && Words(w[4]).Some? && MountWords(Words(w[4]).value, kind, source, mountpoint, options)
  {
    var inner := MountCommand(kind, source, mountpoint, options);
    if setuid.Some? && setuid.value != "" {
      var c := Add(None, "su", []);
      c := Add(c, "-", ["su"]);
      assert ["su"] + ["-"] == ["su", "-"];
      c := Add(c, setuid.value, ["su", "-"]);
      ghost var args := ["su", "-", setuid.value];
      assert ["su", "-"] + [setuid.value] == args;
      c := Add(c, "-c", args);
      c := Add(c, inner.value, args + ["-c"]);
      SplitCommand(args + ["-c"] + [inner.value]);
      command := c.value;
    } else {
      command := inner.value;
    }
  }
}
