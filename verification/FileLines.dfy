/** Line-wise reading and writing of file objects on top of single-byte reads and partial writes. */
module FileLines {

  /** What one read call of the kernel does: it delivers the next byte or the end of file, or not. */
  datatype ReadAnswer = Delivers | ReadInterrupted | ReadFails

  /** What one write call of the kernel does: it takes at most n bytes, is interrupted, or fails. */
  datatype WriteAnswer = Takes(n: nat) | WriteInterrupted | WriteFails

  datatype ReadResult = Undefined | Line(text: string) | ReadError

  datatype WriteResult = Written(count: nat) | WriteError(accepted: nat)

  datatype LineResult = Done | NotAllWritten | LineError

  // ---------- Searching ----------

  predicate OccursAt(t: string, s: string, p: int) {
    0 <= p && p + |t| <= |s| && s[p..p + |t|] == t
  }

  ghost predicate IsFirst(t: string, s: string, p: int) {
    if p < 0 then p == -1 && forall q :: !OccursAt(t, s, q)
    else OccursAt(t, s, p) && forall q :: q < p ==> !OccursAt(t, s, q)
  }

  function FindFrom(t: string, s: string, i: nat): int
    decreases |s| - i
  {
    if i + |t| > |s| then -1 else if OccursAt(t, s, i) then i else FindFrom(t, s, i + 1)
  }

  lemma {:induction false} FindFromIsFirst(t: string, s: string, i: nat)
    requires forall q :: q < i ==> !OccursAt(t, s, q)
    ensures IsFirst(t, s, FindFrom(t, s, i))
    decreases |s| - i
  {
    if i + |t| <= |s| && !OccursAt(t, s, i) {
      FindFromIsFirst(t, s, i + 1);
    }
  }

  /** The first occurrence of t in s, or -1. */
  function Find(t: string, s: string): (p: int)
    ensures p == -1 || 0 <= p <= |s| - |t|
    ensures IsFirst(t, s, p)
  {
    FindFromIsFirst(t, s, 0);
    FindFrom(t, s, 0)
  }

  function RFindTo(t: string, s: string, i: nat): int {
    if OccursAt(t, s, i) then i else if i == 0 then -1 else RFindTo(t, s, i - 1)
  }

  lemma {:induction false} RFindToIsLast(t: string, s: string, i: nat)
    requires forall q :: q > i ==> !OccursAt(t, s, q)
    ensures var p := RFindTo(t, s, i);
            if p < 0 then p == -1 && forall q :: !OccursAt(t, s, q)
            else OccursAt(t, s, p) && forall q :: q > p ==> !OccursAt(t, s, q)
  {
    if !OccursAt(t, s, i) && i > 0 {
      RFindToIsLast(t, s, i - 1);
    }
  }

  /** The last occurrence of t in s, or -1. */
  function RFind(t: string, s: string): (p: int)
    ensures p < 0 ==> p == -1 && forall q :: !OccursAt(t, s, q)
    ensures p >= 0 ==> OccursAt(t, s, p) && forall q :: q > p ==> !OccursAt(t, s, q)
  {
    RFindToIsLast(t, s, |s|);
    RFindTo(t, s, |s|)
  }

  lemma FirstIsUnique(t: string, s: string, p: int)
    requires IsFirst(t, s, p)
    ensures Find(t, s) == p
  {
    hide Find;
    var q := Find(t, s);
    assert p >= 0 ==> OccursAt(t, s, p);
    assert q >= 0 ==> OccursAt(t, s, q);
  }

  lemma OccursInPrefix(t: string, s: string, k: nat, p: int)
    requires k <= |s|
    ensures OccursAt(t, s[..k], p) <==> OccursAt(t, s, p) && p + |t| <= k
  {
    if 0 <= p && p + |t| <= k {
      assert s[..k][p..p + |t|] == s[p..p + |t|];
    }
  }

  /** A prefix that holds t shows the first occurrence of t in the whole. */
  lemma FindInPrefix(t: string, s: string, k: nat)
    requires k <= |s| && Find(t, s[..k]) >= 0
    ensures Find(t, s) == Find(t, s[..k])
  {
    hide Find;
    var p := Find(t, s[..k]);
    OccursInPrefix(t, s, k, p);
    forall q | q < p
      ensures !OccursAt(t, s, q)
    {
      OccursInPrefix(t, s, k, q);
    }
    FirstIsUnique(t, s, p);
  }

  /**
   * In a text that did not hold t before its last character came, t can only be at the very end; so
   * looking when that character is the last one of t, and looking from behind, find the first t.
   */
  lemma OnlyAtEnd(t: string, s: string, k: nat)
    requires t != "" && k < |s| && Find(t, s[..k]) < 0
    ensures s[k] != t[|t| - 1] ==> Find(t, s[..k + 1]) < 0
    ensures RFind(t, s[..k + 1]) == Find(t, s[..k + 1])
    ensures Find(t, s[..k + 1]) >= 0 ==> Find(t, s[..k + 1]) + |t| == k + 1
  {
    hide Find, RFind;
    var u := s[..k + 1];
    forall p | OccursAt(t, u, p)
      ensures p + |t| == k + 1 && s[k] == t[|t| - 1]
    {
      OccursInPrefix(t, s, k, p);
      OccursInPrefix(t, s, k + 1, p);
      assert s[p..p + |t|][|t| - 1] == s[p + |t| - 1];
    }
    assert Find(t, u) >= 0 ==> OccursAt(t, u, Find(t, u));
    assert RFind(t, u) >= 0 ==> OccursAt(t, u, RFind(t, u));
  }

  // ---------- What one line is ----------

  /** Line feeds end a line when no newline text is configured. */
  function Terminator(newline: string): (nl: string)
    ensures nl != "" && (newline == "" ==> |nl| == 1)
  {
    if newline == "" then "\n" else newline
  }

  function DropReturn(s: string): string {
    if s != "" && s[|s| - 1] == '\r' then s[..|s| - 1] else s
  }

  /** The line before the first terminator at p in s; the default mode takes one CR off. */
  function Cut(newline: string, s: string, p: nat): string
    requires p <= |s|
  {
    if newline == "" then DropReturn(s[..p]) else s[..p]
  }

  /** The text read and how much of s it takes, when reading can go as far as the end of s. */
  function FirstLine(newline: string, s: string): (r: (string, nat))
    ensures r.1 <= |s| && |r.0| <= r.1
    ensures s != "" ==> r.1 > 0
  {
    var p := Find(Terminator(newline), s);
    if p >= 0 then (Cut(newline, s, p), p + |Terminator(newline)|) else (s, |s|)
  }

  /** The kernel's answer to read call i. */
  function ReadCall(kernel: nat -> ReadAnswer, i: nat): ReadAnswer {
    kernel(i)
  }

  /** The kernel's answer to write call i for n bytes; behind the given answers it takes everything. */
  function WriteCall(kernel: seq<WriteAnswer>, i: nat, n: nat): WriteAnswer {
    if i < |kernel| then kernel[i] else Takes(n)
  }

  /** The number of read calls, from call i on, that deliver, up to n. */
  function Delivered(kernel: nat -> ReadAnswer, i: nat, n: nat): (d: nat)
    ensures d <= n
    decreases n
  {
    if n == 0 || !ReadCall(kernel, i).Delivers? then 0 else 1 + Delivered(kernel, i + 1, n - 1)
  }

  lemma {:induction false} DeliveredStep(kernel: nat -> ReadAnswer, i: nat, n: nat, k: nat)
    requires k <= Delivered(kernel, i, n)
    ensures k < n && ReadCall(kernel, i + k).Delivers? ==> k + 1 <= Delivered(kernel, i, n)
    ensures k == n || !ReadCall(kernel, i + k).Delivers? ==> k == Delivered(kernel, i, n)
    decreases k
  {
    if k > 0 {
      DeliveredStep(kernel, i + 1, n - 1, k - 1);
    }
  }

  /** What a call returns, how far it moves, and what it leaves in feof. */
  function Outcome(newline: string, rest: string, kernel: nat -> ReadAnswer, feof: bool): (ReadResult, nat, bool) {
    var n := Delivered(kernel, 0, |rest|);
    var s := rest[..n];
    var r := FirstLine(newline, s);
    if Find(Terminator(newline), s) >= 0 then (Line(r.0), r.1, false)
    else if ReadCall(kernel, n).ReadFails? then (ReadError, n, feof)
    else if ReadCall(kernel, n).Delivers? && s == "" then (Undefined, n, true)
    else (Line(s), n, ReadCall(kernel, n).Delivers?)
  }

  /** The number of bytes, of n, that the write calls from call i on take, and whether one failed. */
  function Accepted(kernel: seq<WriteAnswer>, i: nat, n: nat): (r: (nat, bool))
    ensures r.0 <= n
    decreases |kernel| - i, n
  {
    if n == 0 then (0, false)
    else match WriteCall(kernel, i, n)
      case WriteInterrupted => (0, false)
      case WriteFails => (0, true)
      case Takes(k) =>
        if k >= n then (n, false)
        else
          var r := Accepted(kernel, i + 1, n - k);
          (k + r.0, r.1)
  }

  /** The bytes that the first k answers take, when all of them take some. */
  function TakenBy(kernel: seq<WriteAnswer>, k: nat): nat
    requires k <= |kernel| && forall i :: 0 <= i < k ==> kernel[i].Takes?
  {
    if k == 0 then 0 else TakenBy(kernel, k - 1) + kernel[k - 1].n
  }

  /** The n bytes are accepted up to the first answer that takes none because it is interrupted or fails. */
  lemma {:induction false} AcceptedExactly(kernel: seq<WriteAnswer>, k: nat, n: nat)
    requires k <= |kernel| && forall i :: 0 <= i < k ==> kernel[i].Takes?
    ensures TakenBy(kernel, k) < n && k < |kernel| && !kernel[k].Takes? ==>
      Accepted(kernel, 0, n) == (TakenBy(kernel, k), kernel[k].WriteFails?)
    ensures TakenBy(kernel, k) >= n || k == |kernel| ==> Accepted(kernel, 0, n) == (n, false)
  {
    if k == 0 {
      assert n == 0 ==> Accepted(kernel, 0, n) == (0, false);
      if k == |kernel| && n > 0 {
        assert WriteCall(kernel, 0, n) == Takes(n);
      }
    } else {
      AcceptedFrom(kernel, 0, k, n);
    }
  }

  lemma {:induction false} AcceptedFrom(kernel: seq<WriteAnswer>, i: nat, k: nat, n: nat)
    requires i <= k <= |kernel| && forall j :: 0 <= j < k ==> kernel[j].Takes?
    ensures TakenBy(kernel, i) <= TakenBy(kernel, k)
    ensures var t := TakenBy(kernel, k) - TakenBy(kernel, i);
      && (t < n && k < |kernel| && !kernel[k].Takes? ==> Accepted(kernel, i, n) == (t, kernel[k].WriteFails?))
      && (t >= n || k == |kernel| ==> Accepted(kernel, i, n) == (n, false))
    decreases k - i
  {
    if i < k {
      var m := kernel[i].n;
      AcceptedFrom(kernel, i + 1, k, if m >= n then 0 else n - m);
      assert TakenBy(kernel, i + 1) == TakenBy(kernel, i) + m;
    }
  }

  lemma TakesTheRest(kernel: seq<WriteAnswer>, i: nat, n: nat)
    ensures i >= |kernel| ==> WriteCall(kernel, i, n) == Takes(n)
  {
  }

  lemma AcceptedNone(kernel: seq<WriteAnswer>, i: nat)
    ensures Accepted(kernel, i, 0) == (0, false)
  {
  }

  lemma AcceptedStep(kernel: seq<WriteAnswer>, i: nat, n: nat)
    requires n > 0
    ensures WriteCall(kernel, i, n).WriteInterrupted? ==> Accepted(kernel, i, n) == (0, false)
    ensures WriteCall(kernel, i, n).WriteFails? ==> Accepted(kernel, i, n) == (0, true)
    ensures WriteCall(kernel, i, n).Takes? ==>
      var k := if WriteCall(kernel, i, n).n >= n then n else WriteCall(kernel, i, n).n;
      var r := Accepted(kernel, i + 1, n - k);
      Accepted(kernel, i, n) == (k + r.0, r.1)
  {
  }

  /** The content after writing s over what is at p. */
  function Overlay(data: string, p: nat, s: string): (r: string)
    requires p <= |data|
    ensures p + |s| <= |r|
  {
    data[..p] + s + (if p + |s| <= |data| then data[p + |s|..] else "")
  }

  /** What is written stands at its place, and everything else stays. */
  lemma OverlayExactly(data: string, p: nat, s: string)
    requires p <= |data|
    ensures |Overlay(data, p, s)| == if p + |s| > |data| then p + |s| else |data|
    ensures forall i :: 0 <= i < |Overlay(data, p, s)| ==>
      Overlay(data, p, s)[i] == if p <= i < p + |s| then s[i - p] else data[i]
  {
  }

  lemma NothingOverlaid(data: string, p: nat, s: string)
    requires p <= |data|
    ensures Overlay(data, p, s[..0]) == data
  {
  }

  lemma OverlayMore(data: string, p: nat, s: string, w: nat, n: nat)
    requires p <= |data| && w + n <= |s|
    ensures Overlay(Overlay(data, p, s[..w]), p + w, s[w..][..n]) == Overlay(data, p, s[..w + n])
    ensures s[w..][n..] == s[w + n..]
  {
    assert s[..w + n] == s[..w] + s[w..][..n];
  }

  class File {
    var data: string
    var pos: nat
    var feof: bool
    var newline: string
    var nonblocking: bool

    ghost predicate Valid()
      reads this
    {
      pos <= |data|
    }

    ghost function Rest(): string
      reads this
      requires Valid()
    {
      data[pos..]
    }

    constructor (newline: string)
      ensures Valid() && data == "" && this.newline == newline && !nonblocking
    {
      data, pos, feof, nonblocking := "", 0, false, false;
      this.newline := newline;
    }

    /** One read of a single byte: the byte, or nothing when interrupted or at the end of file. */
    method ReadOne(answer: ReadAnswer) returns (s: string, iseof: bool, failed: bool)
      requires Valid()
      modifies `pos
      ensures Valid() && failed == answer.ReadFails?
      ensures iseof == (failed || (answer.Delivers? && old(pos) == |data|))
      ensures s == if answer.Delivers? && old(pos) < |data| then [data[old(pos)]] else ""
      ensures pos == old(pos) + |s|
    {
      s, iseof, failed := "", false, false;
      match answer {
        case Delivers =>
          if pos < |data| {
            s, pos := [data[pos]], pos + 1;
          } else {
            iseof := true;
          }
        case ReadInterrupted =>
        case ReadFails =>
          iseof, failed := true, true;
      }
    }

    /** Read call k, after k calls that delivered the first k bytes of what there was to read. */
    method ReadAt(kernel: nat -> ReadAnswer, k: nat, ghost all: string) returns (s: string, iseof: bool, failed: bool)
      requires Valid() && k <= Delivered(kernel, 0, |all|) && Rest() == all[k..]
      modifies `pos
      ensures Valid() && pos == old(pos) + |s| && Fetched(kernel, all, k, s, iseof, failed)
      ensures |s| <= 1 && (s != "" ==> k + 1 <= Delivered(kernel, 0, |all|) && Rest() == all[k + 1..])
    {
      DeliveredStep(kernel, 0, |all|, k);
      hide Delivered, ReadCall;
      ghost var was := Rest();
      s, iseof, failed := ReadOne(ReadCall(kernel, k));
      assert was != [] ==> was[0] == all[k] && was[1..] == all[k + 1..];
      assert s != "" ==> Rest() == was[1..];
    }

    /** Reads byte by byte up to a terminator, the end of file or an answer that delivers nothing. */
    method ReadLoop(kernel: nat -> ReadAnswer) returns (out: string, iseof: bool, failed: bool)
      requires Valid()
      modifies `pos
      ensures Valid()
      ensures (if failed then ReadError else if out == "" && iseof then Undefined else Line(out), pos - old(pos),
          if failed then feof else iseof) == Outcome(newline, old(Rest()), kernel, feof)
    {
      hide TakenOff, Outcome, Fetched, Before, Delivered;
      ghost var all := Rest();
      var nl, autonl := newline, false;
      if nl == "" {
        autonl, nl := true, "\n";
      }
      assert nl == Terminator(newline);
      hide Terminator;
      var lastchar := nl[|nl| - 1];
      out := "";
      var k: nat, s := 0, "";
      NothingBefore(newline, all);
      s, iseof, failed := ReadAt(kernel, k, all);
      while s != ""
        modifies `pos
        invariant pos == old(pos) + k + |s| && Fetched(kernel, all, k, s, iseof, failed)
        invariant k <= |all| && Before(newline, all, k, out)
        decreases |all| - k
      {
        ByteAppended(newline, kernel, all, feof, k, out, s, iseof, failed);
        out := out + s;
        if s[|s| - 1] == lastchar {
          var ended: bool;
          out, ended := TakeOff(nl, autonl, out);
          if ended {
            return;
          }
        }
        k := k + 1;
        s, iseof, failed := ReadAt(kernel, k, all);
      }
      FetchedNothing(newline, kernel, all, k, out, iseof, failed, feof);
    }

    /**
     * The line that ends at the first terminator in what can be read, or else all of that. The end of
     * file is noticed only by a read behind it, and a failing read leaves the flag as it is.
     */
    method Readln(kernel: nat -> ReadAnswer) returns (r: ReadResult)
      requires Valid()
      modifies `pos, `feof
      ensures Valid()
      ensures nonblocking ==> r == ReadError && pos == old(pos) && feof == old(feof)
      ensures !nonblocking ==> (r, pos - old(pos), feof) == Outcome(newline, old(Rest()), kernel, old(feof))
    {
      if nonblocking {
        return ReadError;
      }
      var out, iseof, failed := ReadLoop(kernel);
      if failed {
        return ReadError;
      }
      feof := iseof;
      r := if out == "" && iseof then Undefined else Line(out);
    }

    method Rewind()
      modifies `pos
      ensures Valid() && pos == 0
    {
      pos := 0;
    }

    /** Writes all of s unless the kernel stops it; what is left of s is returned. */
    method Write(s: string, kernel: seq<WriteAnswer>) returns (r: WriteResult, rest: string)
      requires Valid()
      modifies `data, `pos
      ensures Valid()
      ensures var (n, failed) := Accepted(kernel, 0, |s|);
        && r == (if failed then WriteError(n) else Written(n))
        && rest == s[n..] && pos == old(pos) + n && data == Overlay(old(data), old(pos), s[..n])
    {
      hide Overlay, Accepted, WriteCall;
      rest := s;
      assert s[0..] == s && Overlay(data, pos, s[..0]) == data by { NothingOverlaid(data, pos, s); }
      AcceptedNone(kernel, 0);
      if s == "" {
        return Written(0), rest;
      }
      var written: nat, i: nat := 0, 0;
      while rest != ""
        invariant written <= |s| && rest == s[written..]
        invariant pos == old(pos) + written && data == Overlay(old(data), old(pos), s[..written])
        invariant var a := Accepted(kernel, i, |rest|);
          Accepted(kernel, 0, |s|) == (written + a.0, a.1)
        invariant rest == "" || i <= |kernel|
        decreases |kernel| - i
      {
        AcceptedStep(kernel, i, |rest|);
        TakesTheRest(kernel, i, |rest|);
        match WriteCall(kernel, i, |rest|) {
          case Takes(k) =>
            var n := if k >= |rest| then |rest| else k;
            OverlayMore(old(data), old(pos), s, written, n);
            data, pos := Overlay(data, pos, rest[..n]), pos + n;
            rest, written := rest[n..], written + n;
          case WriteInterrupted =>
            return Written(written), rest;
          case WriteFails =>
            return WriteError(written), rest;
        }
        i := i + 1;
      }
      AcceptedNone(kernel, i);
      r := Written(written);
    }

    /** Done means that the line and its terminator are in the file; anything less is an error. */
    method Writeln(line: string, kernel: seq<WriteAnswer>) returns (r: LineResult)
      requires Valid()
      modifies `data, `pos
      ensures Valid()
      ensures nonblocking ==> r == LineError && pos == old(pos) && data == old(data)
      ensures !nonblocking ==>
        var s := line + Terminator(newline);
        var (n, failed) := Accepted(kernel, 0, |s|);
        && pos == old(pos) + n && data == Overlay(old(data), old(pos), s[..n])
        && r == (if failed then LineError else if n < |s| then NotAllWritten else Done)
    {
      if nonblocking {
        return LineError;
      }
      var nl := newline;
      if nl == "" {
        nl := "\n";
      }
      var w, rest := Write(line + nl, kernel);
      if w.WriteError? {
        return LineError;
      }
      if rest != "" {
        return NotAllWritten;
      }
      r := Done;
    }
  }

  /** The text without the terminator at its end, and whether there is one. */
  function TakenOff(nl: string, autonl: bool, text: string): (r: (string, bool))
    requires text != ""
    ensures !r.1 ==> r.0 == text
  {
    if autonl then (DropReturn(text[..|text| - 1]), true)
    else if RFind(nl, text) >= 0 then (text[..RFind(nl, text)], true)
    else (text, false)
  }

  /** Takes the terminator off a text that ends in the last character of it; LF takes a CR with it. */
  method TakeOff(nl: string, autonl: bool, text: string) returns (out: string, ended: bool)
    requires nl != "" && text != ""
    ensures (out, ended) == TakenOff(nl, autonl, text)
  {
    hide RFind;
    out, ended := text, autonl;
    if autonl {
      out := out[..|out| - 1];
      if out != "" && out[|out| - 1] == '\r' {
        out := out[..|out| - 1];
      }
    } else {
      var p := RFind(nl, out);
      if p >= 0 {
        out, ended := out[..p], true;
      }
    }
  }

  /** Call k delivers byte k, or it is the last call. */
  ghost predicate Fetched(kernel: nat -> ReadAnswer, all: string, k: nat, s: string, iseof: bool, failed: bool) {
    var answer, n := ReadCall(kernel, k), Delivered(kernel, 0, |all|);
    && failed == answer.ReadFails?
    && if s == "" then k == n && iseof == !answer.ReadInterrupted?
       else k < n && answer.Delivers? && !iseof && s == [all[k]]
  }

  /** The first k bytes were read and hold no terminator. */
  predicate Before(newline: string, all: string, k: nat, out: string) {
    k <= |all| && out == all[..k] && Find(Terminator(newline), out) < 0
  }

  lemma NothingBefore(newline: string, all: string)
    ensures Before(newline, all, 0, "")
  {
    hide Find, Terminator;
    NotInNothing(Terminator(newline));
  }

  /** A byte that came ends the line, or leaves a longer text without a terminator. */
  lemma ByteAppended(newline: string, kernel: nat -> ReadAnswer, all: string, feof: bool, k: nat, out: string,
                     s: string, iseof: bool, failed: bool)
    requires Before(newline, all, k, out) && Fetched(kernel, all, k, s, iseof, failed) && s != ""
    ensures k < Delivered(kernel, 0, |all|) && !iseof && !failed && |s| == 1
    ensures var nl := Terminator(newline);
      var r := TakenOff(nl, newline == "", out + s);
      if s[0] == nl[|nl| - 1] && r.1 then Outcome(newline, all, kernel, feof) == (Line(r.0), k + 1, false)
      else Before(newline, all, k + 1, out + s)
  {
    hide Find, RFind, IsFirst, OccursAt, Outcome, DropReturn, FirstLine, Delivered, ReadCall, Terminator;
    FetchedByte(kernel, all, k, s, iseof, failed);
    OneMore(newline, all, kernel, feof, k);
    Snoc(all, k);
  }

  lemma FetchedByte(kernel: nat -> ReadAnswer, all: string, k: nat, s: string, iseof: bool, failed: bool)
    requires Fetched(kernel, all, k, s, iseof, failed) && s != ""
    ensures k < Delivered(kernel, 0, |all|) && s == [all[k]] && !iseof && !failed
  {
  }

  lemma FetchedNothing(newline: string, kernel: nat -> ReadAnswer, all: string, k: nat, out: string,
                       iseof: bool, failed: bool, feof: bool)
    requires Fetched(kernel, all, k, "", iseof, failed) && Before(newline, all, k, out)
    ensures Outcome(newline, all, kernel, feof) ==
      if failed then (ReadError, k, feof)
      else (if out == "" && iseof then Undefined else Line(out), k, iseof)
  {
    hide Delivered, Find, ReadCall, Outcome;
    NoLineFound(newline, all, kernel, feof);
  }

  lemma NotInNothing(t: string)
    requires t != ""
    ensures Find(t, "") < 0
  {
    hide Find;
    assert t != "" ==> !OccursAt(t, "", Find(t, ""));
  }

  lemma SingleAtEnd(t: string, s: string, k: nat)
    requires |t| == 1 && k < |s| && s[k] == t[0] && Find(t, s[..k]) < 0
    ensures Find(t, s[..k + 1]) == k
  {
    hide Find;
    OnlyAtEnd(t, s, k);
    assert OccursAt(t, s[..k + 1], k);
  }

  lemma Snoc(s: string, k: nat)
    requires k < |s|
    ensures s[..k] + [s[k]] == s[..k + 1]
  {
  }

  lemma PrefixOfPrefix(s: string, k: nat, n: nat)
    requires k <= n <= |s|
    ensures s[..n][..k] == s[..k]
  {
  }

  lemma LineFound(newline: string, all: string, kernel: nat -> ReadAnswer, feof: bool, k: nat)
    requires k <= Delivered(kernel, 0, |all|) && Find(Terminator(newline), all[..k]) >= 0
    ensures var nl, p := Terminator(newline), Find(Terminator(newline), all[..k]);
      p + |nl| <= k && Outcome(newline, all, kernel, feof) == (Line(Cut(newline, all, p)), p + |nl|, false)
  {
    hide Find, IsFirst, OccursAt, Delivered, DropReturn, FirstLine, Terminator, Outcome;
    var n, p := Delivered(kernel, 0, |all|), Find(Terminator(newline), all[..k]);
    PrefixOfPrefix(all, k, n);
    FindInPrefix(Terminator(newline), all[..n], k);
    assert Find(Terminator(newline), all[..n]) == p;
    CutFound(newline, all, n);
    OutcomeFound(newline, all, kernel, feof);
  }

  lemma CutFound(newline: string, all: string, n: nat)
    requires n <= |all|
    ensures var p := Find(Terminator(newline), all[..n]);
      p >= 0 ==> FirstLine(newline, all[..n]) == (Cut(newline, all, p), p + |Terminator(newline)|)
  {
    hide Find, IsFirst, OccursAt, DropReturn, Terminator;
    var p := Find(Terminator(newline), all[..n]);
    if p >= 0 {
      PrefixOfPrefix(all, p, n);
    }
  }

  lemma OutcomeFound(newline: string, all: string, kernel: nat -> ReadAnswer, feof: bool)
    requires Find(Terminator(newline), all[..Delivered(kernel, 0, |all|)]) >= 0
    ensures var r := FirstLine(newline, all[..Delivered(kernel, 0, |all|)]);
      Outcome(newline, all, kernel, feof) == (Line(r.0), r.1, false)
  {
    hide Find, IsFirst, OccursAt, FirstLine, Delivered, Terminator;
  }

  /** What the byte at k does to a text that holds no terminator yet. */
  lemma OneMore(newline: string, all: string, kernel: nat -> ReadAnswer, feof: bool, k: nat)
    requires k < Delivered(kernel, 0, |all|) && Find(Terminator(newline), all[..k]) < 0
    ensures var nl := Terminator(newline);
      && (all[k] != nl[|nl| - 1] || RFind(nl, all[..k + 1]) < 0 ==> Find(nl, all[..k + 1]) < 0)
      && (newline == "" && all[k] == nl[|nl| - 1] ==>
            Outcome(newline, all, kernel, feof) == (Line(DropReturn(all[..k + 1][..k])), k + 1, false))
      && (var p := RFind(nl, all[..k + 1]);
          p >= 0 ==> p <= k && (newline != "" ==>
            Outcome(newline, all, kernel, feof) == (Line(all[..k + 1][..p]), k + 1, false)))
  {
    hide Find, RFind, IsFirst, OccursAt, Delivered, DropReturn, FirstLine, Terminator, Outcome;
    var nl := Terminator(newline);
    OnlyAtEnd(nl, all, k);
    if newline == "" && all[k] == nl[|nl| - 1] {
      assert |nl| == 1;
      SingleAtEnd(nl, all, k);
    }
    var p := Find(nl, all[..k + 1]);
    if p >= 0 {
      LineFound(newline, all, kernel, feof, k + 1);
      PrefixOfPrefix(all, p, k + 1);
    }
  }

  lemma NoLineFound(newline: string, all: string, kernel: nat -> ReadAnswer, feof: bool)
    requires Find(Terminator(newline), all[..Delivered(kernel, 0, |all|)]) < 0
    ensures var n := Delivered(kernel, 0, |all|);
      Outcome(newline, all, kernel, feof) ==
        if ReadCall(kernel, n).ReadFails? then (ReadError, n, feof)
        else if ReadCall(kernel, n).Delivers? && n == 0 then (Undefined, n, true)
        else (Line(all[..n]), n, ReadCall(kernel, n).Delivers?)
  {
    hide Find, IsFirst, OccursAt, Delivered;
  }

  /**
   * What a call returns and takes: a text with what ended it, or all that was delivered; nothing at the end
   * of the file; and an error exactly when the reading fails before a terminator came.
   */
  lemma NothingSkipped(newline: string, rest: string, kernel: nat -> ReadAnswer, feof: bool)
    ensures var (r, n, eof) := Outcome(newline, rest, kernel, feof);
      var got, nl := rest[..Delivered(kernel, 0, |rest|)], Terminator(newline);
      && n <= |got|
      && (r.Line? ==>
            got[..n] == r.text || got[..n] == r.text + nl || (newline == "" && got[..n] == r.text + "\r" + nl))
      && (r.Undefined? ==> rest == "" && n == 0 && eof)
      && (r.ReadError? <==> Find(nl, got) < 0 && ReadCall(kernel, |got|).ReadFails?)
      && (eof && !r.ReadError? ==> n == |rest|)
  {
    hide Find, Delivered, ReadCall, IsFirst;
    var got, nl := rest[..Delivered(kernel, 0, |rest|)], Terminator(newline);
    DeliveredStep(kernel, 0, |rest|, |got|);
    var p := Find(nl, got);
    if p >= 0 {
      SplitAtFirst(nl, got);
      assert got[..p + |nl|] == got[..p] + nl;
      CutLosesReturn(newline, got, p);
    } else {
      assert got[..|got|] == got;
    }
  }

  lemma CutLosesReturn(newline: string, s: string, p: nat)
    requires p <= |s|
    ensures Cut(newline, s, p) == s[..p] || (newline == "" && Cut(newline, s, p) + "\r" == s[..p])
  {
  }

  // ---------- Lines written come back ----------

  function Text(newline: string, lines: seq<string>): string {
    if lines == [] then "" else lines[0] + Terminator(newline) + Text(newline, lines[1..])
  }

  /** What a read without interruptions returns and takes. */
  function Next(newline: string, s: string): (r: (ReadResult, nat))
    ensures r.1 <= |s|
    ensures s != "" ==> r.0.Line? && r.1 > 0
  {
    if s == "" then (Undefined, 0) else (Line(FirstLine(newline, s).0), FirstLine(newline, s).1)
  }

  function ReadMany(newline: string, s: string, n: nat): (r: seq<ReadResult>)
    ensures |r| == n
  {
    if n == 0 then [] else [Next(newline, s).0] + ReadMany(newline, s[Next(newline, s).1..], n - 1)
  }

  function AsLines(lines: seq<string>): (r: seq<ReadResult>)
    ensures |r| == |lines|
  {
    seq(|lines|, i requires 0 <= i < |lines| => Line(lines[i]))
  }

  /** A line that can be told from its terminator. */
  predicate Readable(newline: string, line: string) {
    if newline == "" then '\n' !in line && (line == "" || line[|line| - 1] != '\r')
    else Find(newline, line + newline) == |line|
  }

  lemma AfterLine(nl: string, line: string, rest: string)
    ensures OccursAt(nl, line + nl + rest, |line|)
    ensures 0 <= Find(nl, line + nl + rest) <= |line|
    ensures Find(nl, line + nl) == Find(nl, line + nl + rest)
  {
    hide Find;
    var s, k := line + nl + rest, |line + nl|;
    assert s[..k] == line + nl;
    assert OccursAt(nl, s[..k], |line|);
    FindInPrefix(nl, s, k);
  }

  /** The default terminator is first found at the end of a line exactly when the line has none. */
  lemma LineFeeds(line: string)
    ensures Find("\n", line + "\n") == |line| <==> '\n' !in line
  {
    hide Find;
    var nl, s := "\n", line + "\n";
    if i :| 0 <= i < |line| && line[i] == '\n' {
      assert OccursAt(nl, s, i);
    } else {
      forall q | q < |line|
        ensures !OccursAt(nl, s, q)
      {
        if 0 <= q {
          assert s[q..q + 1][0] == line[q];
        }
      }
      assert OccursAt(nl, s, |line|);
      FirstIsUnique(nl, s, |line|);
    }
  }

  /** A line can end in the beginning of the newline text, which is then found too early. */
  lemma NewlineOverlaps()
    ensures !Readable("aa", "a")
  {
    hide Find;
    var s := "a" + "aa";
    assert OccursAt("aa", s, 0) by {
      assert s[0..2] == "aa";
    }
  }

  /** Reading behind a written line gives exactly that line if and only if it is readable. */
  lemma LineBack(newline: string, line: string, rest: string)
    ensures var r, nl := FirstLine(newline, line + Terminator(newline) + rest), Terminator(newline);
      && (r.0 == line <==> Readable(newline, line))
      && (r.0 == line ==> r.1 == |line| + |nl|)
  {
    hide Find, IsFirst, OccursAt;
    var nl := Terminator(newline);
    var s := line + nl + rest;
    AfterLine(nl, line, rest);
    var p := Find(nl, s);
    assert s[..p] == line[..p];
    if newline == "" {
      assert nl == "\n";
      LineFeeds(line);
    }
    assert line[..|line|] == line;
  }

  /** Reading as many lines as were written gives them back if and only if all of them are readable. */
  lemma {:induction false} LinesRoundTrip(newline: string, lines: seq<string>)
    ensures ReadMany(newline, Text(newline, lines), |lines|) == AsLines(lines)
      <==> forall i :: 0 <= i < |lines| ==> Readable(newline, lines[i])
  {
    hide FirstLine, Readable, Terminator;
    if lines != [] {
      var s, tail, nl := Text(newline, lines), lines[1..], Terminator(newline);
      LineBack(newline, lines[0], Text(newline, tail));
      LinesRoundTrip(newline, tail);
      var got, want := ReadMany(newline, s, |lines|), AsLines(lines);
      assert want == [Line(lines[0])] + AsLines(tail);
      if Readable(newline, lines[0]) {
        assert s[Next(newline, s).1..] == Text(newline, tail);
        assert got == [Line(lines[0])] + ReadMany(newline, Text(newline, tail), |tail|);
        assert got == want <==> got[1..] == want[1..];
        assert forall i :: 0 <= i < |tail| ==> tail[i] == lines[i + 1];
      } else {
        assert got[0] != want[0];
      }
    }
  }

  /** All that can be read before the end of file is reported. */
  function ReadAll(newline: string, s: string): seq<string>
    decreases |s|
  {
    if s == "" then [] else [FirstLine(newline, s).0] + ReadAll(newline, s[FirstLine(newline, s).1..])
  }

  lemma SplitAtFirst(t: string, s: string)
    requires Find(t, s) >= 0
    ensures s == s[..Find(t, s)] + t + s[Find(t, s) + |t|..]
  {
    hide Find;
    var p := Find(t, s);
    assert OccursAt(t, s, p);
  }

  /** In the default mode a line ends before its LF, and before the one CR that may stand there. */
  lemma DefaultLine(line: string, rest: string)
    requires '\n' !in line
    ensures FirstLine("", line + "\r\n" + rest) == (line, |line| + 2)
    ensures line == "" || line[|line| - 1] != '\r' ==> FirstLine("", line + "\n" + rest) == (line, |line| + 1)
  {
    hide Find;
    FeedAt(line + "\r", rest);
    FeedAt(line, rest);
    assert line + "\r" + "\n" + rest == line + "\r\n" + rest;
    assert (line + "\r\n" + rest)[..|line| + 1] == line + "\r" && (line + "\r")[..|line|] == line;
    assert (line + "\n" + rest)[..|line|] == line;
  }

  lemma FeedAt(line: string, rest: string)
    requires '\n' !in line
    ensures Find("\n", line + "\n" + rest) == |line|
  {
    LineFeeds(line);
    AfterLine("\n", line, rest);
    hide Find;
  }

  /** A CR stands directly before an LF. */
  ghost predicate HasCrLf(s: string) {
    exists i :: CrLfAt(s, i)
  }

  predicate CrLfAt(s: string, i: int) {
    0 <= i && i + 1 < |s| && s[i] == '\r' && s[i + 1] == '\n'
  }

  /** Writing what was read gives the file back, up to a last terminator. */
  predicate Same(newline: string, s: string) {
    var t := Text(newline, ReadAll(newline, s));
    t == s || t == s + Terminator(newline)
  }

  /** Reading and writing a text that holds a terminator treats its first line and the others alike. */
  lemma ReadFirst(newline: string, s: string)
    requires Find(Terminator(newline), s) >= 0
    ensures var nl, p := Terminator(newline), Find(Terminator(newline), s);
      && p + |nl| <= |s|
      && Text(newline, ReadAll(newline, s)) == Cut(newline, s, p) + nl + Text(newline, ReadAll(newline, s[p + |nl|..]))
      && s == s[..p] + nl + s[p + |nl|..]
  {
    hide Find, IsFirst, OccursAt, Terminator, Cut;
    var nl, p := Terminator(newline), Find(Terminator(newline), s);
    SplitAtFirst(nl, s);
    var rest := ReadAll(newline, s[p + |nl|..]);
    assert s != "";
    assert ReadAll(newline, s) == [Cut(newline, s, p)] + rest;
    assert ([Cut(newline, s, p)] + rest)[1..] == rest;
  }

  lemma ReadLast(newline: string, s: string)
    requires Find(Terminator(newline), s) < 0
    ensures Text(newline, ReadAll(newline, s)) == if s == "" then "" else s + Terminator(newline)
  {
    hide Find, IsFirst, OccursAt, Terminator;
    if s != "" {
      assert s[|s|..] == "";
      assert ReadAll(newline, s) == [s];
      assert [s][1..] == [];
    }
  }

  /** Where the first LF of a text stands, a CR before it, and those behind it. */
  lemma FirstCrLf(s: string)
    requires Find("\n", s) >= 0
    ensures var p := Find("\n", s);
      && (HasCrLf(s) <==> DropReturn(s[..p]) != s[..p] || HasCrLf(s[p + 1..]))
  {
    hide Find;
    var p := Find("\n", s);
    assert OccursAt("\n", s, p);
    assert s[p..p + 1][0] == '\n';
    if DropReturn(s[..p]) != s[..p] {
      assert CrLfAt(s, p - 1);
    }
    var rest := s[p + 1..];
    if i :| CrLfAt(rest, i) {
      assert CrLfAt(s, p + 1 + i);
    }
    if i :| CrLfAt(s, i) {
      assert s[i + 1..i + 2] == "\n";
      assert i + 1 < p ==> !OccursAt("\n", s, i + 1);
      if i > p {
        assert CrLfAt(rest, i - p - 1);
      }
    }
  }

  /** The text with an LF at its end. */
  function Ended(s: string): string {
    if s == "" || s[|s| - 1] == '\n' then s else s + "\n"
  }

  /** In the default mode every CR before an LF is missing from what is written again. */
  lemma {:induction false} ReturnsDropped(s: string)
    ensures var t := Text("", ReadAll("", s));
      && (s != "" ==> t != "" && t[|t| - 1] == '\n')
      && (if HasCrLf(s) then |t| < |Ended(s)| else t == Ended(s))
    decreases |s|
  {
    hide Find, IsFirst, OccursAt, ReadAll, Text, HasCrLf, DropReturn;
    var p := Find("\n", s);
    if p >= 0 {
      ReadFirst("", s);
      FirstCrLf(s);
      ReturnsDropped(s[p + 1..]);
      EndedParts(s[..p], s[p + 1..]);
    } else {
      LastCrLf(s);
    }
  }

  lemma EndedParts(line: string, rest: string)
    ensures Ended(line + "\n" + rest) == line + "\n" + Ended(rest)
    ensures |DropReturn(line)| <= |line| && (DropReturn(line) == line || |DropReturn(line)| < |line|)
  {
  }

  lemma NoFeed(s: string, i: nat)
    requires Find("\n", s) < 0 && i < |s|
    ensures s[i] != '\n'
  {
    hide Find;
    assert !OccursAt("\n", s, i);
    assert s[i..i + 1] == [s[i]];
  }

  lemma LastCrLf(s: string)
    requires Find("\n", s) < 0
    ensures Text("", ReadAll("", s)) == Ended(s) && !HasCrLf(s)
  {
    hide Find, ReadAll, Text;
    ReadLast("", s);
    if i :| CrLfAt(s, i) {
      NoFeed(s, i + 1);
    }
    if s != "" {
      NoFeed(s, |s| - 1);
    }
  }

  /** With a newline text of its own a file keeps everything. */
  lemma {:induction false} CustomKept(newline: string, s: string)
    requires newline != ""
    ensures Same(newline, s)
    decreases |s|
  {
    hide Find, IsFirst, OccursAt, Terminator, ReadAll, Text;
    var nl, p := Terminator(newline), Find(Terminator(newline), s);
    if p >= 0 {
      ReadFirst(newline, s);
      CustomKept(newline, s[p + |nl|..]);
    } else {
      ReadLast(newline, s);
    }
  }

  /**
   * Writing what was read gives the file back, up to a terminator that the last line did not have, if
   * and only if a newline text is configured or no CR stands before an LF.
   */
  lemma NothingLost(newline: string, s: string)
    ensures var t := Text(newline, ReadAll(newline, s));
      t == s || t == s + Terminator(newline) <==> newline != "" || !HasCrLf(s)
  {
    hide ReadAll, Text, HasCrLf;
    if newline != "" {
      CustomKept(newline, s);
    } else {
      ReturnsDropped(s);
    }
  }

  lemma {:induction false} AllAccepted(kernel: seq<WriteAnswer>, i: nat, n: nat)
    requires forall j :: 0 <= j < |kernel| ==> kernel[j].Takes?
    ensures Accepted(kernel, i, n) == (n, false)
    decreases |kernel| - i, n
  {
    if n > 0 && WriteCall(kernel, i, n).n < n {
      AllAccepted(kernel, i + 1, n - WriteCall(kernel, i, n).n);
    }
  }

  lemma {:induction false} AllDelivered(kernel: nat -> ReadAnswer, i: nat, n: nat)
    requires forall j: nat :: ReadCall(kernel, j).Delivers?
    ensures Delivered(kernel, i, n) == n
    decreases n
  {
    if n > 0 {
      AllDelivered(kernel, i + 1, n - 1);
    }
  }

  /** Without interruptions a call returns the next line, and sets feof when it ran into the end. */
  lemma UninterruptedOutcome(newline: string, rest: string, kernel: nat -> ReadAnswer, feof: bool)
    requires forall j: nat :: ReadCall(kernel, j).Delivers?
    ensures var r := Next(newline, rest);
      Outcome(newline, rest, kernel, feof) == (r.0, r.1, Find(Terminator(newline), rest) < 0)
  {
    hide Find, IsFirst, OccursAt, Delivered;
    AllDelivered(kernel, 0, |rest|);
    assert rest[..|rest|] == rest;
    if rest == "" {
      NotInNothing(Terminator(newline));
    }
  }

  lemma {:induction false} TextAppend(newline: string, lines: seq<string>, line: string)
    ensures Text(newline, lines + [line]) == Text(newline, lines) + line + Terminator(newline)
  {
    if lines == [] {
      assert [line][1..] == [];
    } else {
      assert (lines + [line])[1..] == lines[1..] + [line];
      TextAppend(newline, lines[1..], line);
    }
  }

  lemma TextSnoc(newline: string, lines: seq<string>, i: nat)
    requires i < |lines|
    ensures Text(newline, lines[..i + 1]) == Text(newline, lines[..i]) + (lines[i] + Terminator(newline))
  {
    hide Terminator;
    assert lines[..i + 1] == lines[..i] + [lines[i]];
    TextAppend(newline, lines[..i], lines[i]);
  }

  lemma OverlaidAtEnd(data: string, s: string)
    ensures Overlay(data, |data|, s[..|s|]) == data + s
  {
    assert s[..|s|] == s;
  }

  /** One writeln call per line, at the end of the file, with a kernel that takes everything. */
  method WriteLines(f: File, lines: seq<string>, kernel: seq<WriteAnswer>)
    requires f.Valid() && !f.nonblocking && f.data == "" && f.pos == 0
    requires forall i :: 0 <= i < |kernel| ==> kernel[i].Takes?
    modifies f`data, f`pos
    ensures f.Valid() && f.data == Text(f.newline, lines)
  {
    hide Accepted, Terminator, WriteCall, Overlay, Text;
    var i := 0;
    NoText(f.newline, lines);
    while i < |lines|
      invariant i <= |lines| && f.pos == |f.data| && f.data == Text(f.newline, lines[..i])
    {
      ghost var s := lines[i] + Terminator(f.newline);
      AllAccepted(kernel, 0, |s|);
      OverlaidAtEnd(f.data, s);
      TextSnoc(f.newline, lines, i);
      var r := f.Writeln(lines[i], kernel);
      i := i + 1;
    }
  }

  lemma NoText(newline: string, lines: seq<string>)
    ensures Text(newline, lines[..0]) == "" && lines[..|lines|] == lines
  {
  }

  /** n readln calls with a kernel that delivers everything. */
  method ReadLines(f: File, n: nat, kernel: nat -> ReadAnswer) returns (got: seq<ReadResult>)
    requires f.Valid() && !f.nonblocking
    requires forall i: nat :: ReadCall(kernel, i).Delivers?
    modifies f`pos, f`feof
    ensures f.Valid() && got == ReadMany(f.newline, old(f.Rest()), n)
  {
    hide Outcome, Next, ReadCall, ReadMany;
    got := [];
    ghost var all := ReadMany(f.newline, f.Rest(), n);
    var i := 0;
    while i < n
      invariant i <= n && f.Valid()
      invariant got + ReadMany(f.newline, f.Rest(), n - i) == all
    {
      ReadManyStep(f.newline, f.Rest(), n - i, got);
      var r := ReadNext(f, kernel);
      got := got + [r];
      i := i + 1;
    }
    ReadManyNone(f.newline, f.Rest(), got);
  }

  method ReadNext(f: File, kernel: nat -> ReadAnswer) returns (r: ReadResult)
    requires f.Valid() && !f.nonblocking
    requires forall i: nat :: ReadCall(kernel, i).Delivers?
    modifies f`pos, f`feof
    ensures f.Valid() && r == Next(f.newline, old(f.Rest())).0
    ensures f.Rest() == old(f.Rest())[Next(f.newline, old(f.Rest())).1..]
  {
    hide Outcome, Next, ReadCall;
    UninterruptedOutcome(f.newline, f.Rest(), kernel, f.feof);
    r := f.Readln(kernel);
  }

  lemma ReadManyStep(newline: string, s: string, n: nat, got: seq<ReadResult>)
    requires n > 0
    ensures var r := Next(newline, s);
      got + ReadMany(newline, s, n) == got + [r.0] + ReadMany(newline, s[r.1..], n - 1)
  {
    hide Next;
  }

  lemma ReadManyNone(newline: string, s: string, got: seq<ReadResult>)
    ensures got + ReadMany(newline, s, 0) == got
  {
  }

  /** A new file, as many writeln calls as there are lines, back to the start, as many readln calls. */
  method WriteThenRead(newline: string, lines: seq<string>, writing: seq<WriteAnswer>, reading: nat -> ReadAnswer)
    returns (got: seq<ReadResult>)
    requires forall i :: 0 <= i < |writing| ==> writing[i].Takes?
    requires forall i: nat :: ReadCall(reading, i).Delivers?
    ensures got == AsLines(lines) <==> forall i :: 0 <= i < |lines| ==> Readable(newline, lines[i])
  {
    hide Text, ReadMany, Readable, AsLines, WriteCall, ReadCall;
    var f := new File(newline);
    WriteLines(f, lines, writing);
    f.Rewind();
    assert f.Rest() == f.data;
    got := ReadLines(f, |lines|, reading);
    LinesRoundTrip(newline, lines);
  }
}
