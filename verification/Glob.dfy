/**
 * File name patterns: the translation to a regular expression, the ECMAScript reading of that
 * expression, and what the pattern itself means.
 */
module Glob {
  import opened Common

  // ---------- The translation ----------

  /** The syntax characters of ECMAScript regular expressions. */
  predicate IsSyntax(c: char) {
    c == '^' || c == '$' || c == '\\' || c == '.' || c == '*' || c == '+' || c == '?' || c == '(' || c == ')'
    || c == '[' || c == ']' || c == '{' || c == '}' || c == '|'
  }

  /** What one character of a pattern becomes. */
  function Piece(c: char): string {
    if c == '?' then "."
    else if c == '*' then ".*"
    else if IsSyntax(c) then ['\\', c]
    else [c]
  }

  function Translated(pattern: string): string {
    if pattern == "" then "" else Piece(pattern[0]) + Translated(pattern[1..])
  }

  /** The expression that is built for a pattern. */
  function Expression(pattern: string): string {
    if pattern == "" then ".*" else "^" + Translated(pattern) + "$"
  }

  method SearchRegex(pattern: string) returns (pt: string)
    ensures pt == Expression(pattern)
  {
    if pattern == "" {
      return ".*";
    }
    pt := "^";
    var i := 0;
    assert pattern[0..] == pattern;
    assert pattern[|pattern|..] == "" && Translated("") == "";
    hide Translated, Piece;
    while i < |pattern|
      invariant i <= |pattern| && pt + Translated(pattern[i..]) == "^" + Translated(pattern)
    {
      OnePiece(pt, pattern, i);
      pt := AddPiece(pt, pattern[i]);
      i := i + 1;
    }
    pt := pt + "$";
  }

  /** The switch over one character of the pattern. */
  method AddPiece(before: string, e: char) returns (pt: string)
    ensures pt == before + Piece(e)
  {
    pt := before;
    match e {
      case '?' =>
        pt := pt + ".";
      case '*' =>
        pt := pt + ".*";
      case '.' | '\\' | '(' | ')' | '[' | ']' | '{' | '}' | '^' | '$' | '+' | '|' =>
        pt := pt + "\\";
        pt := pt + [e];
        assert pt == before + ['\\', e];
      case _ =>
        pt := pt + [e];
    }
  }

  lemma OnePiece(pt: string, pattern: string, i: nat)
    requires i < |pattern|
    ensures pt + Translated(pattern[i..]) == pt + Piece(pattern[i]) + Translated(pattern[i + 1..])
  {
    hide Piece;
    assert pattern[i..][1..] == pattern[i + 1..];
  }

  // ---------- The expression ----------

  datatype Atom = AnyChar | Literal(c: char)

  datatype Term = Begin | End | One(atom: Atom) | Star(atom: Atom)

  /** An atom that was just read, and the star that may follow it. */
  function WithQuantifier(atom: Atom, rest: string): (r: (Term, string))
    ensures |r.1| <= |rest|
  {
    if rest != "" && rest[0] == '*' then (Star(atom), rest[1..]) else (One(atom), rest)
  }

  /**
   * The terms of an expression made of assertions, dots, literals, escaped syntax characters and stars;
   * None where ECMA-262 sees a group, a class, an alternative, another quantifier or an error.
   */
  function Parse(s: string): Option<seq<Term>>
    decreases |s|
  {
    if s == "" then Some([])
    else if s[0] == '^' then Cons(Begin, Parse(s[1..]))
    else if s[0] == '$' then Cons(End, Parse(s[1..]))
    else if s[0] == '\\' then
      if |s| == 1 || !IsSyntax(s[1]) then None
      else
        var r := WithQuantifier(Literal(s[1]), s[2..]);
        Cons(r.0, Parse(r.1))
    else if s[0] != '.' && IsSyntax(s[0]) then None
    else
      var r := WithQuantifier(if s[0] == '.' then AnyChar else Literal(s[0]), s[1..]);
      Cons(r.0, Parse(r.1))
  }

  function Cons(t: Term, rest: Option<seq<Term>>): Option<seq<Term>> {
    if rest.None? then None else Some([t] + rest.value)
  }

  predicate IsLineTerminator(c: char) {
    c == '\n' || c == '\r'
  }

  /** The dot is any character that ends no line; literals are compared after canon. */
  predicate Accepts(canon: char -> char, a: Atom, c: char) {
    match a
    case AnyChar => !IsLineTerminator(c)
    case Literal(d) => canon(c) == canon(d)
  }

  /** The terms match all of s from position i on. */
  predicate Matches(canon: char -> char, terms: seq<Term>, s: string, i: nat)
    requires i <= |s|
    decreases |terms|, |s| - i
  {
    if terms == [] then i == |s|
    else match terms[0]
      case Begin => i == 0 && Matches(canon, terms[1..], s, i)
      case End => i == |s| && Matches(canon, terms[1..], s, i)
      case One(a) => i < |s| && Accepts(canon, a, s[i]) && Matches(canon, terms[1..], s, i + 1)
      case Star(a) =>
        Matches(canon, terms[1..], s, i) ||
        (i < |s| && Accepts(canon, a, s[i]) && Matches(canon, terms, s, i + 1))
  }

  /** The test a file name has to pass. */
  predicate Found(canon: char -> char, pattern: string, name: string) {
    pattern == "" ||
    (Parse(Expression(pattern)).Some? && Matches(canon, Parse(Expression(pattern)).value, name, 0))
  }

  // ---------- The pattern ----------

  /** A star fits any run, a question mark any one character, anything else itself. */
  predicate Fits(canon: char -> char, p: char, part: string) {
    if p == '*' then true
    else if p == '?' then |part| == 1
    else |part| == 1 && canon(part[0]) == canon(p)
  }

  /** As above, except that stars and question marks stand for characters that end no line. */
  predicate FitsInLine(canon: char -> char, p: char, part: string) {
    Fits(canon, p, part) && (p == '*' || p == '?' ==> forall i :: 0 <= i < |part| ==> !IsLineTerminator(part[i]))
  }

  /** The name falls into parts that fit the characters of the pattern one by one. */
  ghost predicate IsSplit(canon: char -> char, pattern: string, name: string, parts: seq<string>) {
    && |parts| == |pattern| && Concat(parts) == name
    && forall i :: 0 <= i < |parts| ==> FitsInLine(canon, pattern[i], parts[i])
  }

  ghost predicate IsGlobSplit(canon: char -> char, pattern: string, name: string, parts: seq<string>) {
    && |parts| == |pattern| && Concat(parts) == name
    && forall i :: 0 <= i < |parts| ==> Fits(canon, pattern[i], parts[i])
  }

  ghost predicate GlobMatches(canon: char -> char, pattern: string, name: string) {
    exists parts :: IsGlobSplit(canon, pattern, name, parts)
  }

  // ---------- The translation is read as intended ----------

  function TermOf(c: char): Term {
    if c == '?' then One(AnyChar) else if c == '*' then Star(AnyChar) else One(Literal(c))
  }

  function TermsOf(pattern: string): (r: seq<Term>)
    ensures |r| == |pattern|
  {
    seq(|pattern|, i requires 0 <= i < |pattern| => TermOf(pattern[i]))
  }

  lemma {:induction false} ParseTranslated(pattern: string)
    ensures Parse(Translated(pattern) + "$") == Some(TermsOf(pattern) + [End])
    ensures (Translated(pattern) + "$")[0] != '*'
    decreases |pattern|
  {
    if pattern == "" {
      assert "" + "$" == "$" && "$"[1..] == "";
      assert Parse("") == Some([]) && Parse("$") == Cons(End, Parse("$"[1..]));
      assert Translated(pattern) + "$" == "$";
      assert [End] + [] == [End] == TermsOf(pattern) + [End];
    } else {
      hide Parse, Translated, Piece;
      var rest := Translated(pattern[1..]) + "$";
      ParseTranslated(pattern[1..]);
      assert TermsOf(pattern) + [End] == [TermOf(pattern[0])] + (TermsOf(pattern[1..]) + [End]);
      PieceFirst(pattern);
      ParsePiece(pattern[0], rest);
    }
  }

  lemma PieceFirst(pattern: string)
    requires pattern != ""
    ensures Translated(pattern) + "$" == Piece(pattern[0]) + (Translated(pattern[1..]) + "$")
  {
    hide Piece;
  }

  /** A translated character in front of anything but a star is read as its term. */
  lemma ParsePiece(c: char, rest: string)
    requires rest == "" || rest[0] != '*'
    ensures Parse(Piece(c) + rest) == Cons(TermOf(c), Parse(rest))
    ensures (Piece(c) + rest)[0] != '*'
  {
    var s := Piece(c) + rest;
    if c == '*' {
      assert s[1..] == "*" + rest && s[1..][1..] == rest;
    } else if c != '?' && IsSyntax(c) {
      assert s[0] == '\\' && s[1] == c && s[2..] == rest;
    } else {
      assert s[1..] == rest;
    }
  }

  // ---------- The syntax of the standard ----------

  /** The SyntaxCharacters of ECMA-262. */
  const SYNTAX: string := "^$\\.*+?()[]{}|"

  lemma SyntaxAt()
    ensures |SYNTAX| == 14
    ensures SYNTAX[0] == '^' && SYNTAX[1] == '$' && SYNTAX[2] == '\\' && SYNTAX[3] == '.' && SYNTAX[4] == '*'
    ensures SYNTAX[5] == '+' && SYNTAX[6] == '?' && SYNTAX[7] == '(' && SYNTAX[8] == ')' && SYNTAX[9] == '['
    ensures SYNTAX[10] == ']' && SYNTAX[11] == '{' && SYNTAX[12] == '}' && SYNTAX[13] == '|'
  {
  }

  lemma SyntaxExactly(c: char)
    ensures IsSyntax(c) <==> c in SYNTAX
  {
    SyntaxAt();
    hide SYNTAX;
  }

  /** A quantifier, bracket or bar that is not escaped is never read as a term, whatever stands before and behind it. */
  lemma {:induction false} UnescapedRefused(pattern: string, c: char, rest: string)
    requires c in "+?()[]{}|"
    ensures Parse(Translated(pattern) + [c] + rest) == None
    ensures (Translated(pattern) + [c] + rest)[0] != '*'
    decreases |pattern|
  {
    hide Parse, Translated, Piece;
    if pattern == "" {
      RefusedFirst(c, rest);
    } else {
      UnescapedRefused(pattern[1..], c, rest);
      var more := Translated(pattern[1..]) + [c] + rest;
      PieceInFront(pattern, [c] + rest);
      assert Translated(pattern) + [c] + rest == Translated(pattern) + ([c] + rest);
      assert more == Translated(pattern[1..]) + ([c] + rest);
      ParsePiece(pattern[0], more);
    }
  }

  lemma RefusedFirst(c: char, rest: string)
    requires c in "+?()[]{}|"
    ensures Parse(Translated("") + [c] + rest) == None && (Translated("") + [c] + rest)[0] == c != '*'
  {
    assert Translated("") + [c] + rest == [c] + rest;
  }

  lemma PieceInFront(pattern: string, s: string)
    requires pattern != ""
    ensures Translated(pattern) + s == Piece(pattern[0]) + (Translated(pattern[1..]) + s)
  {
    hide Piece;
  }

  /** A backslash stands before every syntax character of the pattern but the two wildcards, and nowhere else. */
  lemma PieceExactly(c: char)
    ensures Piece(c) ==
      if c == '?' then "." else if c == '*' then ".*" else if c in SYNTAX then "\\" + [c] else [c]
  {
    SyntaxExactly(c);
    hide SYNTAX;
  }

  /** The pieces of the pattern, one behind the other. */
  lemma {:induction false} PiecesInOrder(pattern: string)
    ensures Translated(pattern) == Concat(seq(|pattern|, i requires 0 <= i < |pattern| => Piece(pattern[i])))
  {
    hide Piece;
    var pieces := seq(|pattern|, i requires 0 <= i < |pattern| => Piece(pattern[i]));
    if pattern != "" {
      PiecesInOrder(pattern[1..]);
      assert pieces[1..] == seq(|pattern[1..]|, i requires 0 <= i < |pattern[1..]| => Piece(pattern[1..][i]));
    }
  }

  lemma PlusEscaped()
    ensures Expression("a+b") == "^a\\+b$" && Expression("") == ".*"
  {
    assert "a+b"[1..] == "+b" && "+b"[1..] == "b" && "b"[1..] == "";
    assert Piece('a') == "a" && Piece('+') == "\\+" && Piece('b') == "b";
    assert Translated("b") == "b" + Translated("");
    assert Translated("+b") == "\\+" + Translated("b");
  }

  lemma TermsStep(pattern: string)
    requires pattern != ""
    ensures TermsOf(pattern) + [End] != [] && (TermsOf(pattern) + [End])[0] == TermOf(pattern[0])
    ensures (TermsOf(pattern) + [End])[1..] == TermsOf(pattern[1..]) + [End]
  {
  }

  lemma NoTerms()
    ensures TermsOf("") + [End] == [End]
  {
  }

  lemma Extends(part: string, rest: seq<string>, c: char, s: string, i: nat)
    requires i < |s| && c == s[i] && Concat([part] + rest) == s[i + 1..]
    ensures Concat([[c] + part] + rest) == s[i..]
  {
    assert ([part] + rest)[1..] == rest && ([[c] + part] + rest)[1..] == rest;
    assert [c] + part + Concat(rest) == [c] + (part + Concat(rest));
    assert s[i..] == [s[i]] + s[i + 1..];
  }

  /** A match tells which part of the name each character of the pattern stands for. */
  lemma {:induction false} MatchSplits(canon: char -> char, pattern: string, s: string, i: nat) returns (parts: seq<string>)
    requires i <= |s| && Matches(canon, TermsOf(pattern) + [End], s, i)
    ensures IsSplit(canon, pattern, s[i..], parts)
    decreases |pattern|, |s| - i
  {
    if pattern == "" {
      NoTerms();
      parts := [];
    } else {
      TermsStep(pattern);
      var c := pattern[0];
      if c == '*' && Matches(canon, TermsOf(pattern[1..]) + [End], s, i) {
        var rest := MatchSplits(canon, pattern[1..], s, i);
        parts := [""] + rest;
        SplitFront(canon, pattern, s, i, "", rest);
      } else if c == '*' {
        var more := MatchSplits(canon, pattern, s, i + 1);
        parts := [[s[i]] + more[0]] + more[1..];
        assert more == [more[0]] + more[1..];
        Extends(more[0], more[1..], s[i], s, i);
        assert FitsInLine(canon, c, more[0]);
        assert forall k :: 0 < k < |parts| ==> parts[k] == more[k];
      } else {
        var rest := MatchSplits(canon, pattern[1..], s, i + 1);
        parts := [[s[i]]] + rest;
        SplitFront(canon, pattern, s, i, [s[i]], rest);
      }
    }
  }

  lemma SplitFront(canon: char -> char, pattern: string, s: string, i: nat, part: string, rest: seq<string>)
    requires pattern != "" && i + |part| <= |s| && s[i..i + |part|] == part
    requires FitsInLine(canon, pattern[0], part) && IsSplit(canon, pattern[1..], s[i + |part|..], rest)
    ensures IsSplit(canon, pattern, s[i..], [part] + rest)
  {
    var parts := [part] + rest;
    assert parts[1..] == rest;
    assert s[i..] == s[i..i + |part|] + s[i + |part|..];
    assert forall k :: 0 < k < |parts| ==> parts[k] == rest[k - 1] && pattern[k] == pattern[1..][k - 1];
  }

  /** What the first part says: the rest splits behind it, or, for a star, one character further on. */
  lemma SplitRest(canon: char -> char, pattern: string, s: string, i: nat, parts: seq<string>)
    requires i <= |s| && IsSplit(canon, pattern, s[i..], parts) && pattern != ""
    ensures |parts| == |pattern| && i + |parts[0]| <= |s|
    ensures IsSplit(canon, pattern[1..], s[i + |parts[0]|..], parts[1..])
    ensures FitsInLine(canon, pattern[0], parts[0])
    ensures parts[0] != "" ==> parts[0][0] == s[i]
  {
    assert s[i..] == parts[0] + Concat(parts[1..]);
    assert Concat(parts[1..]) == s[i + |parts[0]|..];
    assert forall k :: 0 <= k < |parts[1..]| ==> parts[1..][k] == parts[k + 1] && pattern[1..][k] == pattern[k + 1];
  }

  /** A part of a star without its first character, one position on. */
  lemma ShorterPart(canon: char -> char, pattern: string, s: string, i: nat, parts: seq<string>)
    requires i < |s| && IsSplit(canon, pattern, s[i..], parts) && pattern != "" && pattern[0] == '*' && parts[0] != ""
    ensures IsSplit(canon, pattern, s[i + 1..], [parts[0][1..]] + parts[1..])
  {
    var part, rest := parts[0], parts[1..];
    var more := [part[1..]] + rest;
    assert FitsInLine(canon, '*', part);
    assert part == [part[0]] + part[1..];
    assert s[i..] == [s[i]] + s[i + 1..];
    assert more[1..] == rest && Concat(more) == s[i + 1..];
    assert forall k :: 0 < k < |more| ==> more[k] == parts[k];
    assert forall k :: 0 <= k < |part[1..]| ==> part[1..][k] == part[k + 1];
  }

  /** Parts that fit make a match. */
  lemma {:induction false} SplitMatches(canon: char -> char, pattern: string, s: string, i: nat, parts: seq<string>)
    requires i <= |s| && IsSplit(canon, pattern, s[i..], parts)
    ensures Matches(canon, TermsOf(pattern) + [End], s, i)
    decreases |pattern|, |s| - i
  {
    if pattern == "" {
      NoTerms();
    } else {
      SplitRest(canon, pattern, s, i, parts);
      if pattern[0] == '*' && parts[0] != "" {
        ShorterPart(canon, pattern, s, i, parts);
      }
      TermsStep(pattern);
      hide IsSplit, TermsOf;
      if pattern[0] == '*' && parts[0] != "" {
        SplitMatches(canon, pattern, s, i + 1, [parts[0][1..]] + parts[1..]);
      } else {
        SplitMatches(canon, pattern[1..], s, i + |parts[0]|, parts[1..]);
      }
    }
  }

  // ---------- What the search finds ----------

  /** The built expression is one that ECMA-262 reads, and it is read as the terms of the pattern. */
  lemma ExpressionParses(pattern: string)
    requires pattern != ""
    ensures Parse(Expression(pattern)) == Some([Begin] + (TermsOf(pattern) + [End]))
  {
    hide Translated;
    ParseTranslated(pattern);
    var rest := Translated(pattern) + "$";
    assert Expression(pattern) == "^" + rest && ("^" + rest)[1..] == rest;
  }

  /** A name is found if and only if it falls into parts that fit the pattern, character by character. */
  lemma FoundExactly(canon: char -> char, pattern: string, name: string)
    requires pattern != ""
    ensures Found(canon, pattern, name) <==> exists parts :: IsSplit(canon, pattern, name, parts)
  {
    ExpressionParses(pattern);
    hide Parse, Expression, IsSplit;
    var terms := TermsOf(pattern) + [End];
    assert ([Begin] + terms)[1..] == terms && name[0..] == name;
    if Matches(canon, terms, name, 0) {
      var parts := MatchSplits(canon, pattern, name, 0);
    }
    if parts :| IsSplit(canon, pattern, name, parts) {
      SplitMatches(canon, pattern, name, 0, parts);
    }
  }

  predicate OneLine(name: string) {
    forall i :: 0 <= i < |name| ==> !IsLineTerminator(name[i])
  }

  lemma OneLineExactly(name: string)
    ensures OneLine(name) <==> '\n' !in name && '\r' !in name
  {
  }

  lemma {:induction false} PartsInLine(parts: seq<string>)
    requires OneLine(Concat(parts))
    ensures forall k :: 0 <= k < |parts| ==> OneLine(parts[k])
  {
    if parts != [] {
      var all := Concat(parts);
      assert forall i :: 0 <= i < |parts[0]| ==> parts[0][i] == all[i];
      assert forall i :: 0 <= i < |Concat(parts[1..])| ==> Concat(parts[1..])[i] == all[|parts[0]| + i];
      PartsInLine(parts[1..]);
    }
  }

  /**
   * For every pattern and every name without line terminators, with or without regard to case, the
   * search finds the name if and only if the pattern matches it.
   */
  lemma FindsWhatMatches(canon: char -> char, pattern: string, name: string)
    requires pattern != "" && OneLine(name)
    ensures Found(canon, pattern, name) <==> GlobMatches(canon, pattern, name)
  {
    FoundExactly(canon, pattern, name);
    hide Found;
    if parts :| IsGlobSplit(canon, pattern, name, parts) {
      PartsInLine(parts);
      assert forall k :: 0 <= k < |parts| ==> OneLine(parts[k]);
      assert IsSplit(canon, pattern, name, parts);
    }
    if parts :| IsSplit(canon, pattern, name, parts) {
      assert forall i :: 0 <= i < |parts| ==> FitsInLine(canon, pattern[i], parts[i]);
      assert IsGlobSplit(canon, pattern, name, parts);
    }
  }

  /** What is found always matches; a name of two lines can match and not be found. */
  lemma FoundMatches(canon: char -> char, pattern: string, name: string)
    requires pattern != "" && Found(canon, pattern, name)
    ensures GlobMatches(canon, pattern, name)
  {
    FoundExactly(canon, pattern, name);
    var parts :| IsSplit(canon, pattern, name, parts);
    assert forall i :: 0 <= i < |parts| ==> FitsInLine(canon, pattern[i], parts[i]);
    assert IsGlobSplit(canon, pattern, name, parts);
  }

  /** A star alone matches every name and finds those of one line. */
  lemma StarFinds(canon: char -> char, name: string)
    ensures GlobMatches(canon, "*", name)
    ensures Found(canon, "*", name) <==> OneLine(name)
  {
    FoundExactly(canon, "*", name);
    assert Concat([name]) == name + Concat([name][1..]) == name;
    assert IsGlobSplit(canon, "*", name, [name]);
    if OneLine(name) {
      FindsWhatMatches(canon, "*", name);
    } else {
      forall parts
        ensures !IsSplit(canon, "*", name, parts)
      {
        if |parts| == 1 && Concat(parts) == name {
          assert Concat(parts) == parts[0] + Concat(parts[1..]) == parts[0];
          assert !FitsInLine(canon, '*', parts[0]);
        }
      }
    }
  }

  /** Every pattern finds a name exactly when it matches it if and only if the name has no line terminator. */
  lemma AgreesExactly(canon: char -> char, name: string)
    ensures (forall pattern :: pattern != "" ==> (Found(canon, pattern, name) <==> GlobMatches(canon, pattern, name)))
      <==> OneLine(name)
  {
    StarFinds(canon, name);
    if OneLine(name) {
      forall pattern | pattern != ""
        ensures Found(canon, pattern, name) <==> GlobMatches(canon, pattern, name)
      {
        FindsWhatMatches(canon, pattern, name);
      }
    } else {
      hide Found, GlobMatches;
      var pattern := "*";
      assert !(Found(canon, pattern, name) <==> GlobMatches(canon, pattern, name));
    }
  }

  lemma TwoLinesNotFound()
    ensures GlobMatches(c => c, "*", "\n") && !Found(c => c, "*", "\n")
  {
    StarFinds(c => c, "\n");
    assert !OneLine("\n") by {
      assert IsLineTerminator("\n"[0]);
    }
    hide Found, GlobMatches;
  }
}
