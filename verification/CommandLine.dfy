/**
 * The Windows command line: quoting of arguments, joining them, and the splitting rules of the
 * Microsoft C runtime that undo both.
 */
module CommandLine {

  function Backslashes(n: nat): (s: string)
    ensures |s| == n
  {
    seq(n, _ => '\\')
  }

  // ---------- Quoting ----------

  predicate IsSpecial(c: char) {
    c == ' ' || c == '\t' || c == '\n' || c == '\U{0B}' || c == '"'
  }

  predicate NeedsQuotes(arg: string) {
    exists i :: 0 <= i < |arg| && IsSpecial(arg[i])
  }

  /** The text between the quotes for n pending backslashes and the rest s of the argument. */
  function Body(n: nat, s: string): string
    decreases |s|
  {
    if s == "" then Backslashes(2 * n)
    else if s[0] == '\\' then Body(n + 1, s[1..])
    else if s[0] == '"' then Backslashes(2 * n + 1) + "\"" + Body(0, s[1..])
    else Backslashes(n) + [s[0]] + Body(0, s[1..])
  }

  function Escaped(arg: string): string {
    if arg == "" then "\"\"" else if !NeedsQuotes(arg) then arg else "\"" + Body(0, arg) + "\""
  }

  method Escape(arg: string) returns (s: string)
    ensures s == Escaped(arg)
  {
    if arg == "" {
      return "\"\"";
    }
    if !NeedsQuotes(arg) {
      return arg;
    }
    s := "\"";
    var it := 0;
    assert arg[0..] == arg;
    while true
      invariant it <= |arg| && s + Body(0, arg[it..]) == "\"" + Body(0, arg)
      decreases |arg| - it
    {
      var nbacksl, from := 0, it;
      while it != |arg| && arg[it] == '\\'
        invariant from <= it <= |arg| && nbacksl == it - from
        invariant s + Body(nbacksl, arg[it..]) == "\"" + Body(0, arg)
        decreases |arg| - it
      {
        assert arg[it..][1..] == arg[it + 1..];
        it, nbacksl := it + 1, nbacksl + 1;
      }
      if it == |arg| {
        s := s + Backslashes(nbacksl * 2);
        break;
      } else if arg[it] == '"' {
        s := s + Backslashes(nbacksl * 2 + 1);
        s := s + [arg[it]];
      } else {
        s := s + Backslashes(nbacksl);
        s := s + [arg[it]];
      }
      assert arg[it..][1..] == arg[it + 1..];
      it := it + 1;
    }
    s := s + "\"";
  }

  /** The program name with its slashes turned around. */
  function Turned(program: string): (t: string)
    ensures |t| == |program|
  {
    seq(|program|, i requires 0 <= i < |program| => if program[i] == '/' then '\\' else program[i])
  }

  /** The arguments, each with a space before it, quoted or as they are. */
  function Joined(raw: bool, args: seq<string>): string {
    if args == [] then ""
    else " " + (if raw then args[0] else Escaped(args[0])) + Joined(raw, args[1..])
  }

  method BuildCommandLine(program: string, arguments: seq<string>, noArgumentEscaping: bool) returns (argv: string)
    ensures argv == Escaped(Turned(program)) + Joined(noArgumentEscaping, arguments)
  {
    hide Escaped;
    argv := Escape(Turned(program));
    ghost var line := argv + Joined(noArgumentEscaping, arguments);
    var i := 0;
    assert arguments[0..] == arguments;
    while i < |arguments|
      invariant i <= |arguments| && argv + Joined(noArgumentEscaping, arguments[i..]) == line
    {
      assert arguments[i..][1..] == arguments[i + 1..];
      argv := argv + " ";
      if noArgumentEscaping {
        argv := argv + arguments[i];
      } else {
        var e := Escape(arguments[i]);
        argv := argv + e;
      }
      i := i + 1;
    }
  }

  // ---------- The form of the line ----------

  /** Slashes become backslashes, and nothing else changes. */
  lemma TurnedExactly(program: string, i: nat)
    requires i < |program|
    ensures |Turned(program)| == |program| && '/' !in Turned(program)
    ensures program[i] == '/' ==> Turned(program)[i] == '\\'
    ensures program[i] != '/' ==> Turned(program)[i] == program[i]
  {
  }

  const SPECIAL: string := " \t\n\U{0B}\""

  lemma SpecialExactly(c: char)
    ensures IsSpecial(c) <==> c in SPECIAL
  {
    assert SPECIAL[0] == ' ' && SPECIAL[1] == '\t' && SPECIAL[2] == '\n' && SPECIAL[3] == '\U{0B}' && SPECIAL[4] == '"';
  }

  /** The argument has one of the characters that make quotes necessary. */
  predicate HasSpecial(arg: string) {
    exists i :: 0 <= i < |arg| && arg[i] in SPECIAL
  }

  /** Every quote in the text has a backslash before it, unless it is the first character. */
  predicate QuotesEscaped(s: string) {
    forall i :: 0 < i < |s| && s[i] == '"' ==> s[i - 1] == '\\'
  }

  lemma {:induction false} BodyEscapesQuotes(n: nat, s: string)
    ensures QuotesEscaped(Body(n, s)) && (Body(n, s) != "" ==> Body(n, s)[0] != '"')
    decreases |s|
  {
    hide Backslashes;
    if s != "" {
      if s[0] == '\\' {
        BodyEscapesQuotes(n + 1, s[1..]);
      } else {
        var k := if s[0] == '"' then 2 * n + 1 else n;
        BodyEscapesQuotes(0, s[1..]);
        EscapedFront(k, s[0], Body(0, s[1..]));
        assert Body(n, s) == Backslashes(k) + [s[0]] + Body(0, s[1..]);
      }
    } else {
      OnlyBackslashes(2 * n);
    }
  }

  lemma OnlyBackslashes(k: nat)
    ensures QuotesEscaped(Backslashes(k)) && (k > 0 ==> Backslashes(k)[0] == '\\')
  {
  }

  lemma EscapedFront(k: nat, c: char, rest: string)
    requires QuotesEscaped(rest) && (rest != "" ==> rest[0] != '"') && (c == '"' ==> k > 0)
    ensures var t := Backslashes(k) + [c] + rest; QuotesEscaped(t) && t[0] != '"'
  {
    var t := Backslashes(k) + [c] + rest;
    forall i | 0 < i < |t| && t[i] == '"'
      ensures t[i - 1] == '\\'
    {
      if i > k {
        assert t[i] == rest[i - k - 1];
      }
    }
  }

  /**
   * An argument is quoted if and only if it is empty or has a blank, a tab, a line feed, a vertical tab or a
   * quote in it; otherwise it is left as it is. Inside the quotes every quote is escaped.
   */
  lemma EscapedExactly(arg: string)
    ensures arg != "" && !HasSpecial(arg) ==> Escaped(arg) == arg
    ensures arg == "" ==> Escaped(arg) == "\"\""
    ensures HasSpecial(arg) ==>
      var e := Escaped(arg); |e| >= 2 && e[0] == e[|e| - 1] == '"' && QuotesEscaped(e[1..|e| - 1])
  {
    forall i | 0 <= i < |arg|
      ensures IsSpecial(arg[i]) == (arg[i] in SPECIAL)
    {
      SpecialExactly(arg[i]);
    }
    assert NeedsQuotes(arg) == HasSpecial(arg);
    BodyEscapesQuotes(0, arg);
    hide Body;
    if HasSpecial(arg) {
      var e := Escaped(arg);
      assert e[1..|e| - 1] == Body(0, arg);
    }
  }

  lemma {:induction false} BodyPending(n: nat, k: nat, s: string)
    ensures Body(n, Backslashes(k) + s) == Body(n + k, s)
    decreases k
  {
    hide Body;
    if k == 0 {
      assert Backslashes(0) + s == s;
    } else {
      var t := Backslashes(k) + s;
      assert t[0] == '\\' && t[1..] == Backslashes(k - 1) + s;
      BodyPending(n + 1, k - 1, s);
      BodyOfBackslash(n, t);
    }
  }

  lemma BodyOfBackslash(n: nat, s: string)
    requires s != "" && s[0] == '\\'
    ensures Body(n, s) == Body(n + 1, s[1..])
  {
  }

  /** A text that does not end in a backslash leaves nothing pending. */
  lemma {:induction false} BodySum(n: nat, p: string, s: string)
    requires p != "" && p[|p| - 1] != '\\'
    ensures Body(n, p + s) == Body(n, p) + Body(0, s)
    decreases |p|
  {
    hide Backslashes;
    assert (p + s)[1..] == p[1..] + s && (p + s)[0] == p[0];
    if |p| == 1 {
      assert p[1..] == "" && "" + s == s && Body(0, "") == Backslashes(0);
      NoBackslashes();
    } else if p[0] == '\\' {
      BodySum(n + 1, p[1..], s);
    } else {
      BodySum(0, p[1..], s);
    }
  }

  lemma NoBackslashes()
    ensures Backslashes(0) == ""
  {
  }

  /**
   * What the quoted form makes of n backslashes behind a text p that does not end in one: twice as many and
   * one more before a quote, twice as many at the end, and the same before any other character.
   */
  lemma BackslashesExactly(p: string, n: nat, c: char, rest: string)
    requires p == "" || p[|p| - 1] != '\\'
    ensures Body(0, p + (Backslashes(n) + ("\"" + rest))) ==
      Body(0, p) + (Backslashes(2 * n + 1) + "\"" + Body(0, rest))
    ensures Body(0, p + Backslashes(n)) == Body(0, p) + Backslashes(2 * n)
    ensures c != '"' && c != '\\' ==>
      Body(0, p + (Backslashes(n) + ([c] + rest))) == Body(0, p) + (Backslashes(n) + [c] + Body(0, rest))
  {
    BodyBehind(p, Backslashes(n) + ("\"" + rest));
    BodyBehind(p, Backslashes(n));
    BodyBehind(p, Backslashes(n) + ([c] + rest));
    BodyPending(0, n, "\"" + rest);
    BodyPending(0, n, "");
    BodyPending(0, n, [c] + rest);
    assert Backslashes(n) + "" == Backslashes(n);
    assert ("\"" + rest)[1..] == rest && ([c] + rest)[1..] == rest;
    hide Backslashes;
  }

  lemma BodyBehind(p: string, s: string)
    requires p == "" || p[|p| - 1] != '\\'
    ensures Body(0, p + s) == Body(0, p) + Body(0, s)
  {
    if p == "" {
      assert "" + s == s && Body(0, "") == "";
      assert "" + Body(0, s) == Body(0, s);
    } else {
      BodySum(0, p, s);
    }
  }

  /** One blank before each argument. */
  lemma {:induction false} JoinedMore(raw: bool, args: seq<string>, arg: string)
    ensures Joined(raw, args + [arg]) == Joined(raw, args) + " " + (if raw then arg else Escaped(arg))
  {
    hide Escaped;
    if args == [] {
      assert [arg][1..] == [];
    } else {
      assert (args + [arg])[1..] == args[1..] + [arg];
      JoinedMore(raw, args[1..], arg);
    }
  }

  // ---------- The splitting rules of the C runtime ----------

  predicate IsBlank(c: char) {
    c == ' ' || c == '\t'
  }

  function Before(front: string, r: (string, string)): (string, string) {
    (front + r.0, r.1)
  }

  /**
   * One argument and the rest of the line, after n pending backslashes, inside quotes or not:
   * 2n backslashes and a quote are n backslashes and a delimiter, 2n+1 are n and a literal quote, and
   * within quotes a doubled quote is a literal one.
   */
  function ParseArg(inQuotes: bool, n: nat, s: string): (r: (string, string))
    ensures |r.1| <= |s|
    ensures s != "" && (inQuotes || !IsBlank(s[0])) ==> |r.1| < |s|
    decreases |s|
  {
    if s == "" then (Backslashes(n), "")
    else if s[0] == '\\' then ParseArg(inQuotes, n + 1, s[1..])
    else if s[0] == '"' then
      if n % 2 == 1 then Before(Backslashes(n / 2) + "\"", ParseArg(inQuotes, 0, s[1..]))
      else if inQuotes && |s| > 1 && s[1] == '"' then Before(Backslashes(n / 2) + "\"", ParseArg(true, 0, s[2..]))
      else Before(Backslashes(n / 2), ParseArg(!inQuotes, 0, s[1..]))
    else if !inQuotes && IsBlank(s[0]) then (Backslashes(n), s)
    else Before(Backslashes(n) + [s[0]], ParseArg(inQuotes, 0, s[1..]))
  }

  function ParseArgs(s: string): seq<string>
    decreases |s|
  {
    if s == "" then []
    else if IsBlank(s[0]) then ParseArgs(s[1..])
    else
      var r := ParseArg(false, 0, s);
      [r.0] + ParseArgs(r.1)
  }

  /** The program name: quotes only toggle, and backslashes are ordinary characters. */
  function ParseProgram(inQuotes: bool, s: string): (string, string)
    decreases |s|
  {
    if s == "" then ("", "")
    else if s[0] == '"' then ParseProgram(!inQuotes, s[1..])
    else if !inQuotes && IsBlank(s[0]) then ("", s)
    else Before([s[0]], ParseProgram(inQuotes, s[1..]))
  }

  function ParseLine(line: string): seq<string> {
    var p := ParseProgram(false, line);
    [p.0] + ParseArgs(p.1)
  }

  // ---------- Round trip of the arguments ----------

  predicate Ends(tail: string) {
    tail == "" || IsBlank(tail[0])
  }

  lemma {:induction false} PendingBackslashes(q: bool, n: nat, k: nat, s: string)
    ensures ParseArg(q, n, Backslashes(k) + s) == ParseArg(q, n + k, s)
    decreases k
  {
    if k == 0 {
      assert Backslashes(0) + s == s;
    } else {
      var t := Backslashes(k) + s;
      assert t[1..] == Backslashes(k - 1) + s;
      PendingBackslashes(q, n + 1, k - 1, s);
    }
  }

  lemma ClosingQuote(n: nat, tail: string)
    requires Ends(tail)
    ensures ParseArg(true, 2 * n, "\"" + tail) == (Backslashes(n), tail)
  {
    assert ("\"" + tail)[1..] == tail;
    assert ParseArg(false, 0, tail) == (Backslashes(0), tail);
    assert Backslashes(n) + Backslashes(0) == Backslashes(n);
  }

  /** A quoted character other than a backslash, after its backslashes. */
  lemma QuotedChar(n: nat, c: char, rest: string)
    requires c != '\\'
    ensures ParseArg(true, 0, Backslashes(if c == '"' then 2 * n + 1 else n) + ([c] + rest)) ==
      Before(Backslashes(n) + [c], ParseArg(true, 0, rest))
  {
    var k := if c == '"' then 2 * n + 1 else n;
    var t := [c] + rest;
    PendingBackslashes(true, 0, k, t);
    assert t[1..] == rest;
  }

  lemma BodyStep(n: nat, s: string, close: string)
    requires s != "" && s[0] != '\\'
    ensures Body(n, s) + close ==
      Backslashes(if s[0] == '"' then 2 * n + 1 else n) + ([s[0]] + (Body(0, s[1..]) + close))
  {
    hide Backslashes;
  }

  lemma MoreBackslashes(n: nat, s: string)
    requires s != ""
    ensures s[0] == '\\' ==> Backslashes(n + 1) + s[1..] == Backslashes(n) + s
    ensures Backslashes(n) + [s[0]] + s[1..] == Backslashes(n) + s
    ensures Backslashes(0) + s[1..] == s[1..]
  {
  }

  lemma {:induction false} QuotedBody(n: nat, s: string, tail: string)
    requires Ends(tail)
    ensures ParseArg(true, 0, Body(n, s) + ("\"" + tail)) == (Backslashes(n) + s, tail)
    decreases |s|
  {
    hide ParseArg;
    var close := "\"" + tail;
    if s == "" {
      PendingBackslashes(true, 0, 2 * n, close);
      ClosingQuote(n, tail);
      assert Backslashes(n) + s == Backslashes(n);
    } else {
      MoreBackslashes(n, s);
      if s[0] == '\\' {
        QuotedBody(n + 1, s[1..], tail);
      } else {
        BodyStep(n, s, close);
        QuotedBody(0, s[1..], tail);
        hide Body, Backslashes;
        QuotedChar(n, s[0], Body(0, s[1..]) + close);
      }
    }
  }

  /** A text that the runtime reads as it is, outside quotes. */
  predicate PlainText(s: string) {
    forall i :: 0 <= i < |s| ==> s[i] != '"' && !IsBlank(s[i])
  }

  lemma {:induction false} PlainArgument(n: nat, s: string, tail: string)
    requires Ends(tail) && PlainText(s)
    ensures ParseArg(false, n, s + tail) == (Backslashes(n) + s, tail)
    decreases |s|
  {
    if s == "" {
      assert s + tail == tail;
      assert Backslashes(n) + s == Backslashes(n);
    } else {
      assert (s + tail)[1..] == s[1..] + tail;
      assert forall i :: 0 <= i < |s[1..]| ==> s[1..][i] == s[i + 1];
      assert s[0] != '"' && !IsBlank(s[0]);
      if s[0] == '\\' {
        PlainArgument(n + 1, s[1..], tail);
        assert Backslashes(n + 1) + s[1..] == Backslashes(n) + s;
      } else {
        PlainArgument(0, s[1..], tail);
        assert Backslashes(n) + [s[0]] + (Backslashes(0) + s[1..]) == Backslashes(n) + s;
      }
    }
  }

  lemma UnquotedIsPlain(s: string)
    requires !NeedsQuotes(s)
    ensures PlainText(s)
  {
    forall i | 0 <= i < |s|
      ensures s[i] != '"' && !IsBlank(s[i])
    {
      assert !IsSpecial(s[i]);
    }
  }

  lemma OneArgument(arg: string, tail: string)
    requires Ends(tail)
    ensures ParseArg(false, 0, Escaped(arg) + tail) == (arg, tail)
    ensures Escaped(arg) != "" && !IsBlank(Escaped(arg)[0])
  {
    if arg == "" {
      assert "\"\"" + tail == "\"" + ("\"" + tail);
      assert ("\"" + ("\"" + tail))[1..] == "\"" + tail;
      ClosingQuote(0, tail);
    } else if !NeedsQuotes(arg) {
      UnquotedIsPlain(arg);
      PlainArgument(0, arg, tail);
      assert Backslashes(0) + arg == arg;
      assert !IsSpecial(arg[0]);
    } else {
      var t := Body(0, arg) + ("\"" + tail);
      assert Escaped(arg) + tail == "\"" + t;
      assert ("\"" + t)[1..] == t;
      QuotedBody(0, arg, tail);
      assert Backslashes(0) + arg == arg;
    }
  }

  /** Splitting the joined arguments gives exactly the arguments back. */
  lemma {:induction false} ArgumentsRoundTrip(args: seq<string>)
    ensures ParseArgs(Joined(false, args)) == args
  {
    if args != [] {
      var tail := Joined(false, args[1..]);
      var t := Escaped(args[0]) + tail;
      assert Joined(false, args) == " " + t;
      assert (" " + t)[1..] == t;
      OneArgument(args[0], tail);
      ArgumentsRoundTrip(args[1..]);
      assert [args[0]] + args[1..] == args;
    }
  }

  // ---------- The program name ----------

  /** A name that needs quotes may hold no quote and may not end in a backslash. */
  predicate SafeProgram(p: string) {
    !NeedsQuotes(p) || ('"' !in p && p[|p| - 1] != '\\')
  }

  predicate EndsInBackslash(n: nat, s: string) {
    if s == "" then n > 0 else s[|s| - 1] == '\\'
  }

  lemma {:induction false} BodyWithoutQuotes(n: nat, s: string)
    requires '"' !in s
    ensures '"' !in Body(n, s)
    ensures if EndsInBackslash(n, s) then |Body(n, s)| > n + |s| else Body(n, s) == Backslashes(n) + s
    decreases |s|
  {
    if s == "" {
      assert n == 0 ==> Body(n, s) == Backslashes(n) + s;
    } else if s[0] == '\\' {
      BodyWithoutQuotes(n + 1, s[1..]);
      assert Backslashes(n + 1) + s[1..] == Backslashes(n) + s;
    } else {
      BodyWithoutQuotes(0, s[1..]);
      assert Backslashes(n) + [s[0]] + s[1..] == Backslashes(n) + s;
      assert Backslashes(0) + s[1..] == s[1..];
    }
  }

  lemma {:induction false} ProgramInQuotes(s: string, tail: string)
    requires '"' !in s && Ends(tail)
    ensures ParseProgram(true, s + ("\"" + tail)) == (s, tail)
    decreases |s|
  {
    if s == "" {
      assert s + ("\"" + tail) == "\"" + tail && ("\"" + tail)[1..] == tail;
    } else {
      assert (s + ("\"" + tail))[1..] == s[1..] + ("\"" + tail);
      ProgramInQuotes(s[1..], tail);
      assert [s[0]] + s[1..] == s;
    }
  }

  lemma {:induction false} ProgramPlain(s: string, tail: string)
    requires !NeedsQuotes(s) && Ends(tail)
    ensures ParseProgram(false, s + tail) == (s, tail)
    decreases |s|
  {
    if s == "" {
      assert s + tail == tail;
    } else {
      assert (s + tail)[1..] == s[1..] + tail;
      assert forall i :: 0 <= i < |s[1..]| ==> s[1..][i] == s[i + 1];
      assert !IsSpecial(s[0]);
      ProgramPlain(s[1..], tail);
      assert [s[0]] + s[1..] == s;
    }
  }

  lemma {:induction false} ProgramHasNoQuotes(q: bool, s: string)
    ensures '"' !in ParseProgram(q, s).0
    decreases |s|
  {
    if s != "" {
      ProgramHasNoQuotes(q, s[1..]);
      ProgramHasNoQuotes(!q, s[1..]);
    }
  }

  /** A name in quotes comes back exactly when it has no quote and no backslash at its end. */
  lemma QuotedProgram(p: string, tail: string)
    requires p != ""
    ensures var r := ParseProgram(true, Body(0, p) + ("\"" + tail));
      && (Ends(tail) ==> (r.0 == p <==> '"' !in p && p[|p| - 1] != '\\'))
      && (Ends(tail) && r.0 == p ==> r.1 == tail)
  {
    var t := Body(0, p) + ("\"" + tail);
    assert Backslashes(0) + p == p;
    hide Body, ParseProgram, Backslashes;
    if '"' in p {
      ProgramHasNoQuotes(true, t);
    } else if Ends(tail) {
      BodyWithoutQuotes(0, p);
      ProgramInQuotes(Body(0, p), tail);
    }
  }

  lemma OpeningQuote(t: string)
    ensures ParseProgram(false, "\"" + t) == ParseProgram(true, t)
  {
    assert ("\"" + t)[1..] == t;
  }

  /** The runtime finds the program name again exactly when it is safe. */
  lemma ProgramExact(p: string, tail: string)
    requires Ends(tail)
    ensures ParseProgram(false, Escaped(p) + tail).0 == p <==> SafeProgram(p)
    ensures SafeProgram(p) ==> ParseProgram(false, Escaped(p) + tail).1 == tail
  {
    hide ParseProgram, Body;
    if p == "" {
      assert "\"\"" + tail == "\"" + ("\"" + tail) && "" + ("\"" + tail) == "\"" + tail;
      OpeningQuote("\"" + tail);
      ProgramInQuotes("", tail);
    } else if !NeedsQuotes(p) {
      ProgramPlain(p, tail);
    } else {
      var t := Body(0, p) + ("\"" + tail);
      assert Escaped(p) + tail == "\"" + t;
      OpeningQuote(t);
      QuotedProgram(p, tail);
    }
  }

  /** A quoted name that ends in a backslash comes back with two of them. */
  lemma TrailingBackslashDoubled()
    ensures ParseProgram(false, Escaped("a b\\") + "").0 != "a b\\"
  {
    hide ParseProgram, Escaped;
    var p := "a b\\";
    assert IsSpecial(p[1]) && p[|p| - 1] == '\\';
    ProgramExact(p, "");
  }

  /** The whole line: the program name and the arguments come back exactly when the name is safe. */
  lemma LineRoundTrip(program: string, args: seq<string>)
    ensures var p := Turned(program);
            ParseLine(Escaped(p) + Joined(false, args)) == [p] + args <==> SafeProgram(p)
  {
    var p := Turned(program);
    ProgramExact(p, Joined(false, args));
    ArgumentsRoundTrip(args);
    if !SafeProgram(p) {
      assert ParseLine(Escaped(p) + Joined(false, args))[0] != ([p] + args)[0];
    }
  }

  // ---------- Arguments without escaping ----------

  /** The characters of the arguments and one blank before each. */
  function Weight(args: seq<string>): nat {
    if args == [] then 0 else |args[0]| + 1 + Weight(args[1..])
  }

  lemma {:induction false} JoinedWeight(args: seq<string>)
    ensures |Joined(true, args)| == Weight(args) && Ends(Joined(true, args))
  {
    if args != [] {
      JoinedWeight(args[1..]);
    }
  }

  /** r is what an argument and the rest of s look like after n backslashes; shorter if a quote was read. */
  predicate Reads(n: nat, s: string, r: (string, string)) {
    && Ends(r.1) && |r.1| <= |s| && |r.0| + |r.1| <= n + |s|
    && r.1 == s[|s| - |r.1|..]
    && (|r.0| + |r.1| == n + |s| ==> '"' !in s[..|s| - |r.1|])
  }

  lemma ReadsOne(n: nat, s: string, r: (string, string), m: nat, front: nat)
    requires s != "" && Reads(m, s[1..], r) && s[0] != '"' && front + m <= n + 1
    ensures forall t: string :: |t| == front + |r.0| ==> Reads(n, s, (t, r.1))
  {
    FirstOf(s, |s| - |r.1|);
  }

  lemma ReadsQuote(n: nat, s: string, r: (string, string), skip: nat, front: nat)
    requires 1 <= skip <= |s| && Reads(0, s[skip..], r) && front < n + skip
    ensures forall t: string :: |t| == front + |r.0| ==> Reads(n, s, (t, r.1))
  {
  }

  /** An argument takes at most as many characters as are read for it, and fewer if there is a quote among them. */
  lemma {:induction false} ArgLength(q: bool, n: nat, s: string)
    ensures Reads(n, s, ParseArg(q, n, s))
    decreases |s|
  {
    if s == "" {
    } else if s[0] == '\\' {
      ArgLength(q, n + 1, s[1..]);
      ReadsOne(n, s, ParseArg(q, n + 1, s[1..]), n + 1, 0);
      hide Reads;
    } else if s[0] == '"' {
      if n % 2 == 1 {
        ArgLength(q, 0, s[1..]);
        ReadsQuote(n, s, ParseArg(q, 0, s[1..]), 1, n / 2 + 1);
      } else if q && |s| > 1 && s[1] == '"' {
        ArgLength(true, 0, s[2..]);
        ReadsQuote(n, s, ParseArg(true, 0, s[2..]), 2, n / 2 + 1);
      } else {
        ArgLength(!q, 0, s[1..]);
        ReadsQuote(n, s, ParseArg(!q, 0, s[1..]), 1, n / 2);
      }
      hide Reads;
    } else if q || !IsBlank(s[0]) {
      ArgLength(q, 0, s[1..]);
      ReadsOne(n, s, ParseArg(q, 0, s[1..]), 0, n + 1);
      hide Reads;
    }
  }

  lemma FirstOf(s: string, k: nat)
    requires 0 < k <= |s|
    ensures s[..k] == [s[0]] + s[1..][..k - 1]
  {
  }

  lemma {:induction false} ArgsWeight(s: string)
    ensures Weight(ParseArgs(s)) <= |s| + (if Ends(s) then 0 else 1)
    ensures Weight(ParseArgs(s)) == |s| + (if Ends(s) then 0 else 1) ==> '"' !in s
    decreases |s|
  {
    if s != "" {
      if IsBlank(s[0]) {
        ArgsWeight(s[1..]);
        FirstOf(s, |s|);
      } else {
        var r := ParseArg(false, 0, s);
        ArgLength(false, 0, s);
        ArgsWeight(r.1);
        assert ([r.0] + ParseArgs(r.1))[1..] == ParseArgs(r.1);
        assert s == s[..|s| - |r.1|] + r.1;
      }
    }
  }

  lemma {:induction false} ArgWithoutQuotes(n: nat, s: string)
    requires '"' !in s
    ensures var r := ParseArg(false, n, s);
      PlainText(r.0) && (n > 0 || !Ends(s) ==> r.0 != "") && '"' !in r.1
    decreases |s|
  {
    if s != "" {
      assert '"' !in s[1..];
      if s[0] == '\\' {
        ArgWithoutQuotes(n + 1, s[1..]);
      } else if !IsBlank(s[0]) {
        ArgWithoutQuotes(0, s[1..]);
      }
    }
  }

  lemma {:induction false} ArgsWithoutQuotes(s: string)
    requires '"' !in s
    ensures forall i :: 0 <= i < |ParseArgs(s)| ==> ParseArgs(s)[i] != "" && PlainText(ParseArgs(s)[i])
    decreases |s|
  {
    if s != "" {
      if IsBlank(s[0]) {
        ArgsWithoutQuotes(s[1..]);
      } else {
        var r := ParseArg(false, 0, s);
        ArgWithoutQuotes(0, s);
        ArgsWithoutQuotes(r.1);
      }
    }
  }

  lemma {:induction false} RawComesBack(args: seq<string>)
    requires forall i :: 0 <= i < |args| ==> args[i] != "" && PlainText(args[i])
    ensures ParseArgs(Joined(true, args)) == args
  {
    if args != [] {
      var tail := Joined(true, args[1..]);
      var t := args[0] + tail;
      assert Joined(true, args) == " " + t;
      assert (" " + t)[1..] == t;
      JoinedWeight(args[1..]);
      PlainArgument(0, args[0], tail);
      assert Backslashes(0) + args[0] == args[0];
      assert !IsBlank(t[0]);
      RawComesBack(args[1..]);
      assert [args[0]] + args[1..] == args;
    }
  }

  /** Without escaping the list comes back if and only if no argument is empty or has a blank, tab or quote. */
  lemma RawArguments(args: seq<string>)
    ensures ParseArgs(Joined(true, args)) == args
      <==> forall i :: 0 <= i < |args| ==> args[i] != "" && PlainText(args[i])
  {
    var line := Joined(true, args);
    JoinedWeight(args);
    ArgsWeight(line);
    hide Joined, ParseArgs;
    if '"' !in line {
      ArgsWithoutQuotes(line);
    }
    if forall i :: 0 <= i < |args| ==> args[i] != "" && PlainText(args[i]) {
      RawComesBack(args);
    }
  }
}
