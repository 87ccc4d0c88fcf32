/**
 Option strings of fuse_opt.c: escaping options into a comma-separated list,
 splitting such a list again, and the normal form fuse_opt_parse produces.
 */
module Options {
  import opened Basics

  predicate NulFree(s: string) { NUL !in s }

  ghost predicate AllNulFree(l: seq<string>) { forall s :: s in l ==> NulFree(s) }

  // ----- add_opt_common -----------------------------------------------------

  predicate Special(c: char) { c == ',' || c == '\\' }

  function Escape(opt: string): string {
    if opt == "" then "" else (if Special(opt[0]) then ['\\', opt[0]] else [opt[0]]) + Escape(opt[1..])
  }

  /** add_opt: an empty list is not followed by a comma. */
  function AddOpt(opts: Option<string>, opt: string): string {
    if opts.Some? && opts.value != "" then opts.value + "," + Escape(opt) else Escape(opt)
  }

  function AddOpts(opts: Option<string>, l: seq<string>): Option<string> {
    if l == [] then opts else Some(AddOpt(AddOpts(opts, l[..|l| - 1]), l[|l| - 1]))
  }

  // ----- process_real_option_group ------------------------------------------

  /** What a C function sees of a buffer. */
  function CStr(s: string): string {
    if s == "" || s[0] == NUL then "" else [s[0]] + CStr(s[1..])
  }

  predicate IsOctal(s: string) {
    |s| >= 3 && '0' <= s[0] <= '3' && '0' <= s[1] <= '7' && '0' <= s[2] <= '7'
  }

  function OctalValue(s: string): char
    requires IsOctal(s)
  {
    ((s[0] - '0') as int * 64 + (s[1] - '0') as int * 8 + (s[2] - '0') as int) as char
  }

  /** The options of the list `s`, the current one having begun with `acc`. */
  function Parse(s: string, acc: string): (r: seq<string>)
    ensures r != []
    decreases |s|
  {
    if s == "" then [CStr(acc)]
    else if s[0] == ',' then [CStr(acc)] + Parse(s[1..], "")
    else if s[0] == '\\' && |s| > 1 then
      if IsOctal(s[1..]) then Parse(s[4..], acc + [OctalValue(s[1..])]) else Parse(s[2..], acc + [s[1]])
    else Parse(s[1..], acc + [s[0]])
  }

  // ----- round trip ---------------------------------------------------------

  lemma {:induction false} CStrWhole(s: string)
    requires NulFree(s)
    ensures CStr(s) == s
  {
    if s != "" {
      assert forall c :: c in s[1..] ==> c in s;
      CStrWhole(s[1..]);
      assert s == [s[0]] + s[1..];
    }
  }

  lemma {:induction false} CStrClean(s: string)
    ensures NulFree(CStr(s))
  {
    if s != "" && s[0] != NUL {
      CStrClean(s[1..]);
    }
  }

  lemma ParseSpecial(c: char, tail: string, acc: string)
    requires Special(c)
    ensures Parse(['\\', c] + tail, acc) == Parse(tail, acc + [c])
  {
    assert (['\\', c] + tail)[2..] == tail;
  }

  /** The three octal digits of a byte. */
  function Octal(v: nat): string
    requires v < 256
  {
    [Digit(v / 64), Digit(v / 8 % 8), Digit(v % 8)]
  }

  function Digit(d: nat): char
    requires d < 8
  {
    ['0', '1', '2', '3', '4', '5', '6', '7'][d]
  }

  lemma DigitValue(d: nat)
    requires d < 8
    ensures '0' <= Digit(d) <= '7' && (Digit(d) - '0') as int == d && (d < 4 ==> Digit(d) <= '3')
  {
  }

  /** A backslash and the octal digits of a byte read as that byte. */
  lemma ParseOctal(v: nat, rest: string, acc: string)
    requires v < 256
    ensures Parse("\\" + Octal(v) + rest, acc) == Parse(rest, acc + [v as char])
  {
    OctalReads(v, rest);
    ReadOctal(Octal(v), rest, acc);
  }

  lemma OctalReads(v: nat, rest: string)
    requires v < 256
    ensures IsOctal(Octal(v) + rest) && OctalValue(Octal(v) + rest) as int == v
  {
    DigitValue(v / 64);
    DigitValue(v / 8 % 8);
    DigitValue(v % 8);
  }

  lemma ReadOctal(o: string, rest: string, acc: string)
    requires |o| == 3 && IsOctal(o + rest)
    ensures Parse("\\" + o + rest, acc) == Parse(rest, acc + [OctalValue(o + rest)])
  {
    var s := "\\" + o + rest;
    assert s[1..] == o + rest && s[4..] == rest;
  }

  /** A backslash before anything else stands for what follows it, and at the very end for itself. */
  lemma ParseBackslash(c: char, rest: string, acc: string)
    requires !IsOctal([c] + rest)
    ensures Parse(['\\', c] + rest, acc) == Parse(rest, acc + [c])
    ensures Parse("\\", acc) == [CStr(acc + "\\")]
  {
    var s := ['\\', c] + rest;
    assert s[1..] == [c] + rest && s[2..] == rest;
    assert "\\"[1..] == "";
  }

  /** Every other character but a comma stands for itself. */
  lemma ParsePlain(c: char, rest: string, acc: string)
    requires !Special(c)
    ensures Parse([c] + rest, acc) == Parse(rest, acc + [c])
    ensures Parse("," + rest, acc) == [CStr(acc)] + Parse(rest, "")
  {
    assert ([c] + rest)[1..] == rest && ("," + rest)[1..] == rest;
  }

  /** Parsing reads an escaped option back, character by character. */
  lemma {:induction false} ParseEscape(opt: string, rest: string, acc: string)
    ensures Parse(Escape(opt) + rest, acc) == Parse(rest, acc + opt)
    decreases |opt|
  {
    if opt == "" {
      assert Escape(opt) + rest == rest && acc + opt == acc;
    } else {
      var c, tail := opt[0], Escape(opt[1..]) + rest;
      ParseEscape(opt[1..], rest, acc + [c]);
      Associative(acc, [c], opt[1..]);
      assert [c] + opt[1..] == opt;
      if Special(c) {
        Associative(['\\', c], Escape(opt[1..]), rest);
        ParseSpecial(c, tail, acc);
      } else {
        Associative([c], Escape(opt[1..]), rest);
        assert ([c] + tail)[1..] == tail;
      }
    }
  }

  /** The list as text, every option but the last followed by a comma. */
  function Text(l: seq<string>): string
    requires l != []
  {
    if |l| == 1 then Escape(l[0]) else Escape(l[0]) + ("," + Text(l[1..]))
  }

  lemma {:induction false} ParseText(l: seq<string>)
    requires l != [] && AllNulFree(l)
    ensures Parse(Text(l), "") == l
  {
    assert l[0] in l;
    CStrWhole(l[0]);
    if |l| == 1 {
      ParseEscape(l[0], "", "");
      assert Escape(l[0]) + "" == Escape(l[0]) && "" + l[0] == l[0];
    } else {
      assert forall s :: s in l[1..] ==> s in l;
      ParseText(l[1..]);
      var rest := "," + Text(l[1..]);
      ParseEscape(l[0], rest, "");
      assert "" + l[0] == l[0] && rest[1..] == Text(l[1..]);
      assert l == [l[0]] + l[1..];
    }
  }

  /** Leading empty options leave no trace, unless there is nothing else. */
  function Trim(l: seq<string>): (r: seq<string>)
    ensures l != [] ==> r != []
  {
    if |l| > 1 && l[0] == "" then Trim(l[1..]) else l
  }

  lemma {:induction false} TextSnoc(l: seq<string>, o: string)
    requires l != []
    ensures Text(l + [o]) == Text(l) + "," + Escape(o)
  {
    if |l| == 1 {
      assert (l + [o])[1..] == [o];
    } else {
      TextSnoc(l[1..], o);
      assert (l + [o])[1..] == l[1..] + [o];
      assert Escape(l[0]) + ("," + (Text(l[1..]) + "," + Escape(o))) == Escape(l[0]) + ("," + Text(l[1..])) + "," + Escape(o);
    }
  }

  /** One character is added for each comma and each backslash, and none besides. */
  lemma {:induction false} EscapeLength(opt: string)
    ensures |Escape(opt)| == |opt| + multiset(opt)[','] + multiset(opt)['\\']
  {
    if opt != "" {
      EscapeLength(opt[1..]);
      assert opt == [opt[0]] + opt[1..];
    }
  }

  lemma EscapeEmpty(o: string)
    ensures Escape(o) == "" <==> o == ""
  {
  }

  lemma {:induction false} TrimSnoc(l: seq<string>, o: string)
    requires l != []
    ensures Trim(l + [o]) == if Trim(l) == [""] then [o] else Trim(l) + [o]
  {
    assert (l + [o])[1..] == l[1..] + [o];
    if |l| == 1 {
      if l[0] == "" {
        assert l == [""] && l[1..] + [o] == [o];
      }
    } else if l[0] == "" {
      TrimSnoc(l[1..], o);
    }
  }

  lemma TextEmpty(l: seq<string>)
    requires l != []
    ensures Text(l) == "" <==> l == [""]
  {
    EscapeEmpty(l[0]);
  }

  /** Adding options one at a time makes the text of the trimmed list. */
  lemma {:induction false} AddOptsText(l: seq<string>)
    requires l != []
    ensures AddOpts(None, l) == Some(Text(Trim(l)))
  {
    var n := |l| - 1;
    if n == 0 {
      assert l == [l[0]];
    } else {
      var p, o := l[..n], l[n];
      assert l == p + [o];
      AddOptsText(p);
      TrimSnoc(p, o);
      TextEmpty(Trim(p));
      if Trim(p) != [""] {
        TextSnoc(Trim(p), o);
      }
    }
  }

  lemma {:induction false} TrimShorter(l: seq<string>)
    ensures |Trim(l)| <= |l| && (|Trim(l)| == |l| <==> |l| <= 1 || l[0] != "")
    ensures AllNulFree(l) ==> AllNulFree(Trim(l))
    ensures Trim(Trim(l)) == Trim(l)
  {
    if |l| > 1 && l[0] == "" {
      TrimShorter(l[1..]);
      assert forall s :: s in l[1..] ==> s in l;
    }
  }

  /** The list that comes back from escaping and splitting. */
  lemma ReadBack(l: seq<string>)
    requires l != [] && AllNulFree(l)
    ensures Parse(AddOpts(None, l).value, "") == Trim(l)
  {
    AddOptsText(l);
    TrimShorter(l);
    ParseText(Trim(l));
  }

  /** Escaping and splitting returns a list unchanged exactly if it has one option or starts with a non-empty one. */
  lemma RoundTrip(l: seq<string>)
    requires l != [] && AllNulFree(l)
    ensures Parse(AddOpts(None, l).value, "") == l <==> |l| == 1 || l[0] != ""
  {
    ReadBack(l);
    TrimShorter(l);
  }

  /** Two options of which the first is empty come back as one. */
  lemma EmptyFirstIsLost()
    ensures Parse(AddOpts(None, ["", "ro"]).value, "") == ["ro"]
  {
    var l := ["", "ro"];
    ReadBack(l);
    assert l[1..] == ["ro"];
    assert Trim(["ro"]) == ["ro"];
  }

  /** Splitting the escaped list and escaping the pieces again gives the same text. */
  lemma Renormalise(l: seq<string>)
    requires l != [] && AllNulFree(l)
    ensures AddOpts(None, Parse(AddOpts(None, l).value, "")) == AddOpts(None, l)
  {
    ReadBack(l);
    TrimShorter(l);
    AddOptsText(l);
    AddOptsText(Trim(l));
  }

  lemma {:induction false} ParseClean(s: string, acc: string)
    ensures AllNulFree(Parse(s, acc))
    decreases |s|
  {
    CStrClean(acc);
    if s != "" {
      if s[0] == ',' {
        ParseClean(s[1..], "");
      } else if s[0] == '\\' && |s| > 1 {
        if IsOctal(s[1..]) {
          ParseClean(s[4..], acc + [OctalValue(s[1..])]);
        } else {
          ParseClean(s[2..], acc + [s[1]]);
        }
      } else {
        ParseClean(s[1..], acc + [s[0]]);
      }
    }
  }
}
