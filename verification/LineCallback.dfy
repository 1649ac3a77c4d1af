/** Splitting the output of a child process into lines for a callback, whatever pieces it arrives in. */
module LineCallback {
  import opened Common

  /** What the callback returns: a text instead of the line, true, or anything else. */
  datatype Answer = Replaces(text: string) | Keeps | Skips

  // ---------- Lines ----------

  /** The index of the first line feed, or -1. */
  function LineEnd(s: string): (p: int)
    ensures -1 <= p < |s|
    ensures p >= 0 ==> s[p] == '\n'
    ensures p < 0 ==> '\n' !in s
  {
    if s == "" then -1
    else if s[0] == '\n' then 0
    else
      var q := LineEnd(s[1..]);
      assert s == [s[0]] + s[1..];
      if q < 0 then -1 else q + 1
  }

  lemma {:induction false} LineEndIsFirst(s: string)
    requires LineEnd(s) >= 0
    ensures '\n' !in s[..LineEnd(s)]
  {
    var p := LineEnd(s);
    if p > 0 {
      LineEndIsFirst(s[1..]);
      assert s[..p] == [s[0]] + s[1..][..p - 1];
    }
  }

  lemma {:induction false} LineEndUnique(s: string, p: int)
    requires -1 <= p < |s|
    requires if p < 0 then '\n' !in s else s[p] == '\n' && '\n' !in s[..p]
    ensures LineEnd(s) == p
  {
    if p > 0 {
      assert s[0] == s[..p][0];
      assert s[1..][..p - 1] == s[..p][1..];
      LineEndUnique(s[1..], p - 1);
    }
  }

  /** The complete lines, each with its line feed. */
  function FullLines(s: string): seq<string>
    decreases |s|
  {
    var p := LineEnd(s);
    if p < 0 then [] else [s[..p + 1]] + FullLines(s[p + 1..])
  }

  /** What comes after the last line feed. */
  function Tail(s: string): (t: string)
    ensures '\n' !in t && |t| <= |s|
    decreases |s|
  {
    var p := LineEnd(s);
    if p < 0 then s else Tail(s[p + 1..])
  }

  /** A line feed at the end, and none before it. */
  predicate IsLine(s: string) {
    s != "" && s[|s| - 1] == '\n' && '\n' !in s[..|s| - 1]
  }

  /** Every text is its lines, each with its line feed at the end, and a rest without line feeds. */
  lemma {:induction false} LinesExactly(s: string)
    ensures Concat(FullLines(s)) + Tail(s) == s && '\n' !in Tail(s)
    ensures forall i :: 0 <= i < |FullLines(s)| ==> IsLine(FullLines(s)[i])
    decreases |s|
  {
    hide LineEnd, Concat, FullLines, Tail;
    var p := LineEnd(s);
    LinesStep(s);
    if p >= 0 {
      var line, rest := s[..p + 1], s[p + 1..];
      LinesExactly(rest);
      OneMoreLine(line, FullLines(rest));
      LineEndIsFirst(s);
      assert line[..p] == s[..p] && IsLine(line);
      assert line + rest == s;
      assert line + Concat(FullLines(rest)) + Tail(rest) == line + (Concat(FullLines(rest)) + Tail(rest));
    } else {
      NoLines();
      NoLineIn(s);
    }
  }

  lemma NoLineIn(s: string)
    requires LineEnd(s) < 0
    ensures '\n' !in s && "" + s == s
  {
    hide LineEnd;
  }

  lemma OneMoreLine(line: string, lines: seq<string>)
    ensures Concat([line] + lines) == line + Concat(lines)
  {
    assert ([line] + lines)[1..] == lines;
  }

  lemma NoLines()
    ensures Concat([]) == ""
  {
  }

  function AllLines(s: string): seq<string> {
    FullLines(s) + if Tail(s) == "" then [] else [Tail(s)]
  }

  /** All lines, the last one with or without a line feed, are together the text, and none is empty. */
  lemma AllLinesExactly(s: string)
    ensures Concat(AllLines(s)) == s
    ensures forall i :: 0 <= i < |AllLines(s)| ==> AllLines(s)[i] != ""
    ensures forall i :: 0 <= i < |AllLines(s)| - 1 ==> IsLine(AllLines(s)[i])
  {
    hide FullLines, Tail, Concat;
    LinesExactly(s);
    var rest := if Tail(s) == "" then [] else [Tail(s)];
    ConcatSum(FullLines(s), rest);
    ConcatSingle(Tail(s));
  }

  /** Without the line feeds and carriage returns at the end. */
  function Strip(s: string): (t: string)
    ensures t <= s && (t != "" ==> t[|t| - 1] != '\n' && t[|t| - 1] != '\r')
    ensures forall i :: |t| <= i < |s| ==> s[i] == '\n' || s[i] == '\r'
  {
    if s != "" && (s[|s| - 1] == '\n' || s[|s| - 1] == '\r') then Strip(s[..|s| - 1]) else s
  }

  function StripAll(lines: seq<string>): (r: seq<string>)
    ensures |r| == |lines|
  {
    seq(|lines|, i requires 0 <= i < |lines| => Strip(lines[i]))
  }

  // ---------- What the loop takes from the buffer ----------

  /** The pieces taken from a buffer and what stays: an empty line takes the rest with it. */
  function Pieces(buf: string): (r: (seq<string>, string))
    decreases |buf|
  {
    var p := LineEnd(buf);
    if p < 0 then ([], buf)
    else if p == |buf| - 1 then ([buf], "")
    else if p == 0 then ([buf[..1]], "")
    else
      var r := Pieces(buf[p + 1..]);
      ([buf[..p + 1]] + r.0, r.1)
  }

  /** The text that the answers to the lines add up to; an answer may depend on all calls so far. */
  function Answers(callback: seq<string> -> Answer, lines: seq<string>): string {
    if lines == [] then ""
    else
      var n := |lines| - 1;
      Answers(callback, lines[..n]) +
      match callback(lines)
      case Replaces(text) => text
      case Keeps => lines[n]
      case Skips => ""
  }

  /** No empty line with more text behind it. */
  predicate Clean(buf: string) {
    forall i :: 0 <= i < |buf| - 1 && buf[i] == '\n' ==> i > 0 && buf[i - 1] != '\n'
  }

  lemma CleanRest(buf: string, p: int)
    requires 0 < p < |buf| - 1 && buf[p] == '\n' && '\n' !in buf[..p]
    ensures Clean(buf) <==> Clean(buf[p + 1..])
  {
    var rest := buf[p + 1..];
    assert forall i :: 0 <= i < |rest| ==> rest[i] == buf[p + 1 + i];
    assert forall i :: 0 <= i < p ==> buf[i] == buf[..p][i];
    if Clean(buf) {
      forall i | 0 <= i < |rest| - 1 && rest[i] == '\n'
        ensures i > 0 && rest[i - 1] != '\n'
      {
        assert buf[p + 1 + i - 1] != '\n';
      }
    }
    if Clean(rest) {
      forall i | 0 <= i < |buf| - 1 && buf[i] == '\n'
        ensures i > 0 && buf[i - 1] != '\n'
      {
        if i > p {
          assert rest[i - p - 1] == '\n';
          assert i - p - 1 > 0 && rest[i - p - 2] != '\n';
        }
      }
    }
  }

  lemma OneLineClean(buf: string)
    requires LineEnd(buf) == |buf| - 1 && buf != ""
    ensures Clean(buf)
  {
    LineEndIsFirst(buf);
    assert forall i :: 0 <= i < |buf| - 1 ==> buf[i] == buf[..|buf| - 1][i];
  }

  lemma OneLine(buf: string)
    requires LineEnd(buf) == |buf| - 1 && buf != ""
    ensures FullLines(buf) == [buf] && Tail(buf) == "" && Concat([buf]) == buf
  {
    hide LineEnd;
    var p := LineEnd(buf);
    assert buf[..p + 1] == buf && buf[p + 1..] == "";
    Nothing();
    assert [buf] + FullLines("") == [buf];
    assert [buf][1..] == [];
  }

  lemma Nothing()
    ensures LineEnd("") == -1 && FullLines("") == [] && Tail("") == ""
  {
  }

  lemma EmptyLineFirst(buf: string)
    requires LineEnd(buf) == 0 && |buf| > 1
    ensures !Clean(buf) && |Concat([buf[..1]])| == 1
  {
    assert Concat([buf[..1]]) == buf[..1] + Concat([buf[..1]][1..]);
  }

  /** The loop takes the lines and keeps the rest exactly when no empty line has text behind it. */
  lemma {:induction false} PiecesExact(buf: string)
    ensures Clean(buf) ==> Pieces(buf) == (FullLines(buf), Tail(buf))
    ensures |Concat(Pieces(buf).0)| + |Pieces(buf).1| <= |buf|
    ensures |Concat(Pieces(buf).0)| + |Pieces(buf).1| == |buf| <==> Clean(buf)
    decreases |buf|
  {
    hide Clean, LineEnd;
    var p := LineEnd(buf);
    if p < 0 {
      assert Clean(buf) by { NoLineClean(buf); }
    } else if p == |buf| - 1 {
      OneLineClean(buf);
      OneLine(buf);
    } else if p == 0 {
      EmptyLineFirst(buf);
    } else {
      var rest := buf[p + 1..];
      PiecesExact(rest);
      LineEndIsFirst(buf);
      CleanRest(buf, p);
      var r := Pieces(rest);
      assert ([buf[..p + 1]] + r.0)[1..] == r.0;
    }
  }

  lemma NoLineClean(buf: string)
    requires '\n' !in buf
    ensures Clean(buf)
  {
  }

  lemma {:induction false} StripAllAppend(a: seq<string>, b: seq<string>)
    ensures StripAll(a + b) == StripAll(a) + StripAll(b)
  {
  }

  lemma StripAllOne(calls: seq<string>, done: seq<string>, chunk: string)
    ensures calls + StripAll(done) + [Strip(chunk)] == calls + StripAll(done + [chunk])
  {
    assert StripAll(done + [chunk]) == StripAll(done) + [Strip(chunk)];
  }

  lemma AnswersOne(callback: seq<string> -> Answer, lines: seq<string>, line: string)
    ensures Answers(callback, lines + [line]) == Answers(callback, lines) +
      match callback(lines + [line])
      case Replaces(text) => text
      case Keeps => line
      case Skips => ""
  {
    assert (lines + [line])[..|lines|] == lines;
  }

  /** Callbacks that always keep, always drop or always replace the line. */
  lemma {:induction false} AnswersExactly(callback: seq<string> -> Answer, lines: seq<string>, text: string)
    ensures (forall l: seq<string> :: callback(l) == Keeps) ==> Answers(callback, lines) == Concat(lines)
    ensures (forall l: seq<string> :: callback(l) == Skips) ==> Answers(callback, lines) == ""
    ensures (forall l: seq<string> :: callback(l) == Replaces(text)) ==>
      Answers(callback, lines) == Concat(seq(|lines|, _ => text))
  {
    if lines != [] {
      var n := |lines| - 1;
      AnswersExactly(callback, lines[..n], text);
      ConcatOne(lines);
      var texts := seq(|lines|, _ => text);
      ConcatOne(texts);
      assert texts[..n] == seq(n, _ => text);
      hide Concat;
    }
  }

  lemma ConcatOne(parts: seq<string>)
    requires parts != []
    ensures Concat(parts) == Concat(parts[..|parts| - 1]) + parts[|parts| - 1]
  {
    var n := |parts| - 1;
    ConcatSum(parts[..n], [parts[n]]);
    assert parts[..n] + [parts[n]] == parts && [parts[n]][1..] == [];
  }

  class Reader {
    var buf: string
    var out: string
    var calls: seq<string>
    const callback: seq<string> -> Answer

    ghost predicate Valid()
      reads this
    {
      '\n' !in buf && out == Answers(callback, calls)
    }

    constructor (callback: seq<string> -> Answer)
      ensures Valid() && buf == "" && out == "" && calls == [] && this.callback == callback
    {
      this.callback, buf, out, calls := callback, "", "", [];
    }

    /** Strips a line, passes it to the callback, and adds what the answer says. */
    method Call(line: string)
      requires out == Answers(callback, calls)
      modifies `out, `calls
      ensures calls == old(calls) + [Strip(line)] && out == Answers(callback, calls)
    {
      var chunk := line;
      while chunk != "" && (chunk[|chunk| - 1] == '\n' || chunk[|chunk| - 1] == '\r')
        invariant Strip(chunk) == Strip(line)
        decreases |chunk|
      {
        chunk := chunk[..|chunk| - 1];
      }
      AnswersOne(callback, calls, chunk);
      calls := calls + [chunk];
      match callback(calls) {
        case Replaces(text) => out := out + text;
        case Keeps => out := out + chunk;
        case Skips =>
      }
    }

    /** Takes new data, or flushes the buffer when there is none. */
    method ReadCallback(data: string)
      requires Valid()
      modifies this
      ensures Valid()
      ensures data != "" ==>
        calls == old(calls) + StripAll(Pieces(old(buf) + data).0) && buf == Pieces(old(buf) + data).1
      ensures data == "" ==> calls == old(calls) + [Strip(old(buf))] && buf == ""
    {
      hide Pieces, Strip, Answers;
      if data != "" {
        buf := buf + data;
      }
      ghost var all, done := Pieces(buf), [];
      assert |StripAll(done)| == 0 && done + all.0 == all.0;
      LastPiece("");
      while true
        invariant out == Answers(callback, calls)
        invariant calls == old(calls) + StripAll(done)
        invariant data == "" ==> done == [] && buf == old(buf)
        invariant data != "" ==> done + Pieces(buf).0 == all.0 && Pieces(buf).1 == all.1
        decreases |buf|
      {
        var chunk;
        var p := LineEnd(buf);
        if 0 < p < |buf| - 1 {
          NextPiece(done, buf);
        } else {
          LastPiece(buf);
        }
        if p < 0 && data != "" {
          assert done == all.0;
          return;
        } else if p < 0 || p >= |buf| - 1 {
          chunk, buf := buf, "";
        } else {
          chunk := buf[..p + 1];
          if |chunk| <= 1 {
            buf := "";
          } else {
            buf := buf[p + 1..];
          }
        }
        Call(chunk);
        StripAllOne(old(calls), done, chunk);
        done := done + [chunk];
        if buf == "" {
          assert data != "" ==> done == all.0;
          break;
        }
      }
    }
  }

  /** The pieces one turn of the loop at a time. */
  lemma LastPiece(buf: string)
    requires LineEnd(buf) <= 0 || LineEnd(buf) == |buf| - 1
    ensures var p, r := LineEnd(buf), Pieces(buf);
      r == if p < 0 then ([], buf) else ([if p == |buf| - 1 then buf else buf[..1]], "")
  {
    hide LineEnd;
    if LineEnd(buf) == |buf| - 1 && buf != "" {
      assert buf[..LineEnd(buf) + 1] == buf;
    }
  }

  lemma NextPiece(done: seq<string>, buf: string)
    requires 0 < LineEnd(buf) < |buf| - 1
    ensures var p := LineEnd(buf);
      var r, t := Pieces(buf), Pieces(buf[p + 1..]);
      done + r.0 == done + [buf[..p + 1]] + t.0 && r.1 == t.1
  {
    hide LineEnd;
    var p := LineEnd(buf);
    assert Pieces(buf).0 == [buf[..p + 1]] + Pieces(buf[p + 1..]).0;
  }

  // ---------- Whole streams ----------

  /** The text of all chunks. */
  function Stream(chunks: seq<string>): string {
    if chunks == [] then "" else Stream(chunks[..|chunks| - 1]) + chunks[|chunks| - 1]
  }

  /** The pieces taken so far and the buffer, after all chunks. */
  function Fed(chunks: seq<string>): (seq<string>, string) {
    if chunks == [] then ([], "")
    else
      var n := |chunks| - 1;
      var r := Fed(chunks[..n]);
      var p := Pieces(r.1 + chunks[n]);
      (r.0 + p.0, p.1)
  }

  /** An empty line ends the chunk that its line feed is in. */
  predicate Harmless(chunks: seq<string>) {
    chunks == [] ||
    (Harmless(chunks[..|chunks| - 1]) && Clean(Tail(Stream(chunks[..|chunks| - 1])) + chunks[|chunks| - 1]))
  }

  lemma LinesStep(s: string)
    ensures var p := LineEnd(s);
      if p < 0 then FullLines(s) == [] && Tail(s) == s
      else FullLines(s) == [s[..p + 1]] + FullLines(s[p + 1..]) && Tail(s) == Tail(s[p + 1..])
  {
    hide LineEnd;
  }

  lemma {:induction false} LinesOfSum(s: string, t: string)
    ensures FullLines(s + t) == FullLines(s) + FullLines(Tail(s) + t)
    ensures Tail(s + t) == Tail(Tail(s) + t)
    decreases |s|
  {
    hide LineEnd, FullLines, Tail;
    var p := LineEnd(s);
    LinesStep(s);
    if p >= 0 {
      EarlyLineEnd(s, t);
      LinesStep(s + t);
      assert (s + t)[..p + 1] == s[..p + 1];
      assert (s + t)[p + 1..] == s[p + 1..] + t;
      LinesOfSum(s[p + 1..], t);
    }
  }

  lemma EarlyLineEnd(s: string, t: string)
    requires LineEnd(s) >= 0
    ensures LineEnd(s + t) == LineEnd(s)
  {
    var p := LineEnd(s);
    assert (s + t)[..p] == s[..p];
    LineEndIsFirst(s);
    LineEndUnique(s + t, p);
  }

  /**
   * For every chunking: no byte is dropped if and only if every empty line ends its chunk, and then the
   * pieces are the lines of the whole stream and the buffer holds exactly what comes after them.
   */
  lemma {:induction false} FedExact(chunks: seq<string>)
    ensures Harmless(chunks) ==> Fed(chunks) == (FullLines(Stream(chunks)), Tail(Stream(chunks)))
    ensures |Concat(Fed(chunks).0)| + |Fed(chunks).1| <= |Stream(chunks)|
    ensures |Concat(Fed(chunks).0)| + |Fed(chunks).1| == |Stream(chunks)| <==> Harmless(chunks)
  {
    hide Pieces, Clean, LineEnd;
    if chunks == [] {
      Nothing();
      assert Concat([]) == "";
    } else {
      hide Concat, FullLines, Tail;
      var n := |chunks| - 1;
      var before := Stream(chunks[..n]);
      var r := Fed(chunks[..n]);
      FedExact(chunks[..n]);
      PiecesExact(r.1 + chunks[n]);
      ConcatSum(r.0, Pieces(r.1 + chunks[n]).0);
      LinesOfSum(before, chunks[n]);
    }
  }

  predicate NoEmptyLines(s: string) {
    forall i :: 0 <= i < |s| && s[i] == '\n' ==> i > 0 && s[i - 1] != '\n'
  }

  /** There are no empty lines when no line is a line feed only. */
  lemma {:induction false} NoEmptyLinesExactly(s: string)
    ensures NoEmptyLines(s) <==> "\n" !in FullLines(s)
    decreases |s|
  {
    hide LineEnd, FullLines;
    var p := LineEnd(s);
    LinesStep(s);
    if p >= 0 {
      NoEmptyLinesExactly(s[p + 1..]);
      LineEndIsFirst(s);
      SplitLines(s, p);
      assert |s[..p + 1]| == p + 1 && (p == 0 ==> s[..p + 1] == "\n");
      assert FullLines(s) == [s[..p + 1]] + FullLines(s[p + 1..]);
    }
  }

  lemma SplitLines(s: string, p: nat)
    requires p < |s| && s[p] == '\n' && '\n' !in s[..p]
    ensures NoEmptyLines(s) <==> p > 0 && NoEmptyLines(s[p + 1..])
  {
    var rest := s[p + 1..];
    assert forall i :: 0 <= i < |rest| ==> rest[i] == s[p + 1 + i];
    assert forall i :: 0 <= i < p ==> s[i] == s[..p][i];
    if NoEmptyLines(s) {
      forall i | 0 <= i < |rest| && rest[i] == '\n'
        ensures i > 0 && rest[i - 1] != '\n'
      {
        assert s[p + 1 + i] == '\n' && s[p + i] != '\n';
      }
    }
    if p > 0 && NoEmptyLines(rest) {
      forall i | 0 <= i < |s| && s[i] == '\n'
        ensures i > 0 && s[i - 1] != '\n'
      {
        if i > p {
          assert rest[i - p - 1] == '\n';
        }
      }
    }
  }

  lemma SuffixOfSuffix(s: string, i: nat, j: nat)
    requires i <= |s| && j <= |s| - i
    ensures s[i..][j..] == s[i + j..] && (j > 0 ==> s[i..][j - 1] == s[i + j - 1])
  {
  }

  lemma {:induction false} TailIsSuffix(s: string)
    ensures Tail(s) == s[|s| - |Tail(s)|..]
    ensures |Tail(s)| < |s| ==> s[|s| - |Tail(s)| - 1] == '\n'
    decreases |s|
  {
    hide LineEnd, Tail, FullLines;
    var p := LineEnd(s);
    LinesStep(s);
    if p >= 0 {
      var rest := s[p + 1..];
      var tail := Tail(rest);
      TailIsSuffix(rest);
      SuffixOfSuffix(s, p + 1, |rest| - |tail|);
      assert |rest| == |tail| ==> s[p] == '\n';
    } else {
      assert s[0..] == s;
    }
  }

  lemma LastChunkClean(before: string, chunk: string)
    requires NoEmptyLines(before + chunk)
    ensures Clean(Tail(before) + chunk)
  {
    hide Tail;
    TailIsSuffix(before);
    var s, buf, k := before + chunk, Tail(before) + chunk, |before| - |Tail(before)|;
    assert s[k..] == buf;
    assert k > 0 ==> s[k - 1] == before[k - 1];
    forall i | 0 <= i < |buf| - 1 && buf[i] == '\n'
      ensures i > 0 && buf[i - 1] != '\n'
    {
      assert s[k + i] == buf[i];
      assert i > 0 ==> s[k + i - 1] == buf[i - 1];
    }
  }

  /** Without empty lines no chunking does harm. */
  lemma {:induction false} NoEmptyLinesHarmless(chunks: seq<string>)
    requires NoEmptyLines(Stream(chunks))
    ensures Harmless(chunks)
  {
    hide Clean, Tail;
    if chunks != [] {
      var n := |chunks| - 1;
      var before := Stream(chunks[..n]);
      assert forall i :: 0 <= i < |before| ==> Stream(chunks)[i] == before[i];
      NoEmptyLinesHarmless(chunks[..n]);
      LastChunkClean(before, chunks[n]);
    }
  }

  /** What the loop makes of lines, an empty line, and more text: the text is gone. */
  lemma {:induction false} EmptyLineDrops(lines: string, rest: string)
    requires NoEmptyLines(lines) && (lines == "" || lines[|lines| - 1] == '\n') && rest != ""
    ensures Pieces(lines + "\n" + rest) == (FullLines(lines) + ["\n"], "")
    decreases |lines|
  {
    hide LineEnd, FullLines, Pieces, NoEmptyLines;
    if lines == "" {
      EmptyLineOnly(rest);
    } else {
      FirstOfLines(lines, rest);
      var p := LineEnd(lines);
      EmptyLineDrops(lines[p + 1..], rest);
      OneLineMore(lines, rest, p);
    }
  }

  lemma EmptyLineOnly(rest: string)
    requires rest != ""
    ensures Pieces("" + "\n" + rest) == (FullLines("") + ["\n"], "")
  {
    hide LineEnd, FullLines, Pieces;
    var s := "\n" + rest;
    assert "" + "\n" + rest == s && s[..0] == "" && s[..1] == "\n";
    Nothing();
    LineEndUnique(s, 0);
    LastPiece(s);
    assert [] + ["\n"] == ["\n"];
  }

  lemma OneLineMore(lines: string, rest: string, p: nat)
    requires var s := lines + "\n" + rest; p == LineEnd(lines) == LineEnd(s) && 0 < p < |lines| && p < |s| - 1
    requires Pieces(lines[p + 1..] + "\n" + rest) == (FullLines(lines[p + 1..]) + ["\n"], "")
    ensures Pieces(lines + "\n" + rest) == (FullLines(lines) + ["\n"], "")
  {
    hide LineEnd, FullLines, Pieces;
    var s, more := lines + "\n" + rest, lines[p + 1..];
    assert s[p + 1..] == more + "\n" + rest && s[..p + 1] == lines[..p + 1];
    LinesStep(lines);
    NextPiece([], s);
    Front(Pieces(s).0, [lines[..p + 1]], FullLines(more), ["\n"]);
  }

  lemma Front(all: seq<string>, a: seq<string>, b: seq<string>, c: seq<string>)
    requires [] + all == [] + a + (b + c)
    ensures all == a + b + c
  {
    assert [] + all == all;
  }

  lemma FirstOfLines(lines: string, rest: string)
    requires NoEmptyLines(lines) && lines != "" && lines[|lines| - 1] == '\n' && rest != ""
    ensures var p, s := LineEnd(lines), lines + "\n" + rest;
      && 0 < p < |s| - 1 && LineEnd(s) == p && p < |lines|
      && NoEmptyLines(lines[p + 1..]) && (lines[p + 1..] == "" || lines[p + 1..][|lines| - p - 2] == '\n')
  {
    hide LineEnd;
    var p, s := LineEnd(lines), lines + "\n" + rest;
    LineEndIsFirst(lines);
    assert s[..p] == lines[..p];
    LineEndUnique(s, p);
    var more := lines[p + 1..];
    forall i | 0 <= i < |more| && more[i] == '\n'
      ensures i > 0 && more[i - 1] != '\n'
    {
      assert lines[p + 1 + i] == '\n' && lines[p + i] != '\n';
    }
  }

  /** An empty line with text behind it in one chunk takes that text with it. */
  lemma TextDropped()
    ensures Fed(["\nx"]) == (["\n"], "") && FullLines("\nx") == ["\n"] && Tail("\nx") == "x"
  {
    var s := "\nx";
    LineEndUnique(s, 0);
    LineEndUnique("x", -1);
    assert s[..1] == "\n" && s[1..] == "x" && "" + s == s;
    LinesStep("x");
    LinesStep(s);
    LastPiece(s);
    hide Pieces, FullLines, Tail, LineEnd;
    assert [s][..0] == [] && Fed([]) == ([], "");
    assert Pieces(s) == (["\n"], "");
    assert Fed([s]) == ([] + Pieces("" + s).0, Pieces("" + s).1);
    assert [] + Pieces(s).0 == Pieces(s).0;
  }

  /**
   * Everything a child writes in pieces, and the flush at the end: the callback sees the lines of the
   * whole stream in order, stripped, and the output is what its answers say.
   */
  method DeliverAll(callback: seq<string> -> Answer, chunks: seq<string>) returns (reader: Reader)
    ensures Harmless(chunks) ==> reader.calls == StripAll(AllLines(Stream(chunks)))
    ensures NoEmptyLines(Stream(chunks)) ==> reader.calls == StripAll(AllLines(Stream(chunks)))
    ensures reader.out == Answers(callback, reader.calls)
  {
    hide Pieces, Answers, Strip, LineEnd, Clean, Tail, FullLines;
    reader := new Reader(callback);
    var i := 0;
    while i < |chunks|
      invariant i <= |chunks| && reader.Valid() && reader.callback == callback
      invariant reader.calls == StripAll(Fed(chunks[..i]).0) && reader.buf == Fed(chunks[..i]).1
    {
      assert chunks[..i + 1][..i] == chunks[..i];
      if chunks[i] != "" {
        StripAllAppend(Fed(chunks[..i]).0, Pieces(reader.buf + chunks[i]).0);
        reader.ReadCallback(chunks[i]);
      } else {
        assert reader.buf + "" == reader.buf;
        NoPiece(reader.buf);
        assert Fed(chunks[..i]).0 + [] == Fed(chunks[..i]).0;
      }
      i := i + 1;
    }
    assert chunks[..i] == chunks;
    FedExact(chunks);
    if NoEmptyLines(Stream(chunks)) {
      NoEmptyLinesHarmless(chunks);
    }
    StripAllAppend(FullLines(Stream(chunks)), if reader.buf == "" then [] else [reader.buf]);
    if reader.buf != "" {
      reader.ReadCallback("");
    }
  }

  lemma NoPiece(buf: string)
    requires '\n' !in buf
    ensures Pieces(buf) == ([], buf)
  {
  }
}
