/** The open options of file objects: reading them in any order and spelling, and their normal form. */
module FileOptions {
  import opened Common

  datatype Options = Options(
    r: bool, w: bool, a: bool, e: bool, b: bool, x: bool, p: bool, n: bool, s: bool, u: bool, mode: string)

  const NO_OPTIONS := Options(false, false, false, false, false, false, false, false, false, false, "")

  predicate IsOctal(c: char) {
    '0' <= c <= '7'
  }

  /** What a character stands for, in either case. */
  datatype Kind = R | W | A | B | T | X | U | E | C | P | S | N | Digit | Separator | Unknown

  function KindOf(c: char): Kind {
    match c
    case 'R' | 'r' => R
    case 'W' | 'w' => W
    case 'A' | 'a' => A
    case 'B' | 'b' => B
    case 'T' | 't' => T
    case 'X' | 'x' => X
    case '+' => U
    case 'E' | 'e' => E
    case 'C' | 'c' => C
    case 'P' | 'p' => P
    case 'S' | 's' => S
    case 'N' | 'n' => N
    case '-' | ',' | ';' | ' ' => Separator
    case _ => if IsOctal(c) then Digit else Unknown
  }

  /** One character of the options; None for a character that is no option. */
  function Read(o: Options, c: char): Option<Options> {
    var k := KindOf(c);
    if k == Unknown then None
    else
      Some(Options(
        o.r || k == R, o.w || k == W, o.a || k == A, k == E || (o.e && k != C), k == B || (o.b && k != T),
        o.x || k == X, o.p || k == P, o.n || k == N, o.s || k == S, o.u || k == U,
        if k == Digit then o.mode + [c] else o.mode))
  }

  function ReadAll(o: Options, text: string): Option<Options>
    decreases |text|
  {
    if text == "" then Some(o)
    else
      var q := Read(o, text[0]);
      if q.None? then None else ReadAll(q.value, text[1..])
  }

  /** Three octal digits, with a leading zero or by default; otherwise None. */
  function ModeOf(mode: string): (r: Option<string>)
    ensures r.Some? ==> |r.value| == 3
  {
    var m := if |mode| == 4 && mode[0] == '0' then mode[1..] else mode;
    if m == "" then Some("644") else if |m| != 3 then None else Some(m)
  }

  /** The meaning of the update sign. */
  function Updated(o: Options): Options {
    if o.u && o.a then o.(r := true)
    else if o.u && o.r then o.(w := true, p := true, e := true)
    else if o.u && o.w then o.(r := true)
    else o
  }

  /** The options, and the ones that follow from others. */
  function Settled(o: Options): Options {
    var q := Updated(o);
    q.(x := q.x && (q.w || q.a) && !q.e, p := q.p || q.a)
  }

  function Flag(set_: bool, c: char): char {
    if set_ then c else '-'
  }

  /** Every option at its own position. */
  function Composed(o: Options, mode: string): (t: string)
    requires |mode| == 3
    ensures |t| == 12
  {
    [Flag(o.r, 'r'), Flag(o.w, 'w'), Flag(o.a, 'a'), Flag(o.e, 'e'), Flag(o.b, 'b'), Flag(o.x, 'x'),
     Flag(o.p, 'p'), Flag(o.n, 'n'), Flag(o.s, 's')] + mode
  }

  function Normal(text: string): Option<string> {
    var o := ReadAll(NO_OPTIONS, text);
    if o.None? then None
    else
      var m := ModeOf(o.value.mode);
      if m.None? then None else Some(Composed(Settled(o.value), m.value))
  }

  /** The loop over the options. */
  method Scan(text: string) returns (options: Option<Options>)
    ensures options == ReadAll(NO_OPTIONS, text)
  {
    hide ReadAll;
    var o := NO_OPTIONS;
    var i := 0;
    assert text[0..] == text;
    while i < |text|
      invariant i <= |text| && ReadAll(o, text[i..]) == ReadAll(NO_OPTIONS, text)
    {
      OneOption(o, text, i);
      var q := ScanOne(o, text[i]);
      if q.None? {
        return None;
      }
      o := q.value;
      i := i + 1;
    }
    assert text[i..] == "";
    NoOption(o);
    options := Some(o);
  }

  method ScanOne(o: Options, c: char) returns (q: Option<Options>)
    ensures q == Read(o, c)
  {
    hide KindOf, Read;
    var k := KindOf(c);
    if k == Unknown {
      UnknownIs(o, c);
      return None;
    }
    var u := o;
    match k {
      case R => u := u.(r := true);
      case W => u := u.(w := true);
      case A => u := u.(a := true);
      case B => u := u.(b := true);
      case T => u := u.(b := false);
      case X => u := u.(x := true);
      case U => u := u.(u := true);
      case E => u := u.(e := true);
      case C => u := u.(e := false);
      case P => u := u.(p := true);
      case S => u := u.(s := true);
      case N => u := u.(n := true);
      case Digit => u := u.(mode := u.mode + [c]);
      case _ =>
    }
    ReadIs(o, c, u);
    q := Some(u);
  }

  lemma UnknownIs(o: Options, c: char)
    requires KindOf(c) == Unknown
    ensures Read(o, c) == None
  {
  }

  lemma ReadIs(o: Options, c: char, q: Options)
    requires var k := KindOf(c);
      && k != Unknown
      && q.r == (o.r || k == R) && q.w == (o.w || k == W) && q.a == (o.a || k == A) && q.x == (o.x || k == X)
      && q.p == (o.p || k == P) && q.n == (o.n || k == N) && q.s == (o.s || k == S) && q.u == (o.u || k == U)
      && q.e == (k == E || (o.e && k != C)) && q.b == (k == B || (o.b && k != T))
      && q.mode == if k == Digit then o.mode + [c] else o.mode
    ensures Read(o, c) == Some(q)
  {
    hide KindOf;
  }

  method CreationMode(mode: string) returns (m: Option<string>)
    ensures m == ModeOf(mode)
  {
    var mod := mode;
    if |mod| == 4 && mod[0] == '0' {
      mod := mod[1..];
    }
    if mod == "" {
      mod := "644";
    } else if |mod| != 3 {
      return None;
    }
    m := Some(mod);
  }

  method Settle(options: Options) returns (o: Options)
    ensures o == Settled(options)
  {
    o := options;
    if o.u {
      if o.a {
        o := o.(r := true);
      } else if o.r {
        o := o.(w := true, p := true, e := true);
      } else if o.w {
        o := o.(r := true);
      }
    }
    assert o == Updated(options);
    hide Updated;
    ghost var q := o;
    if (!o.w && !o.a) || o.e {
      o := o.(x := false);
    }
    if o.a {
      o := o.(p := true);
    }
  }

  method Normalise(text: string) returns (options: Option<string>)
    ensures options == Normal(text)
  {
    hide ReadAll, Composed, ModeOf, Settled;
    var o := Scan(text);
    if o.None? {
      return None;
    }
    var mod := CreationMode(o.value.mode);
    if mod.None? {
      return None;
    }
    var q := Settle(o.value);
    var t := Compose(q, mod.value);
    options := Some(t);
  }

  method Put(options: string, i: nat, set_: bool, c: char) returns (t: string)
    requires i < |options| && options[i] == '-'
    ensures t == options[i := Flag(set_, c)]
  {
    t := options;
    if set_ {
      t := t[i := c];
    }
  }

  method Compose(o: Options, mod: string) returns (options: string)
    requires |mod| == 3
    ensures options == Composed(o, mod)
  {
    hide Flag;
    options := "------------";
    options := Put(options, 0, o.r, 'r');
    options := Put(options, 1, o.w, 'w');
    options := Put(options, 2, o.a, 'a');
    options := Put(options, 3, o.e, 'e');
    options := Put(options, 4, o.b, 'b');
    options := Put(options, 5, o.x, 'x');
    options := Put(options, 6, o.p, 'p');
    options := Put(options, 7, o.n, 'n');
    options := Put(options, 8, o.s, 's');
    options := options[9 := mod[0]];
    options := options[10 := mod[1]];
    options := options[11 := mod[2]];
  }

  lemma NoOption(o: Options)
    ensures ReadAll(o, "") == Some(o)
  {
  }

  lemma OneOption(o: Options, text: string, i: nat)
    requires i < |text|
    ensures ReadAll(o, text[i..]) == var q := Read(o, text[i]); if q.None? then None else ReadAll(q.value, text[i + 1..])
  {
    hide Read;
    assert text[i..][1..] == text[i + 1..];
  }

  // ---------- What the normal form is good for ----------

  predicate Has(text: string, k: Kind) {
    exists i :: 0 <= i < |text| && KindOf(text[i]) == k
  }

  /** An option that one character sets and another one takes back: the last word on it counts. */
  function LastWord(set_: bool, text: string, on: Kind, off: Kind): bool
    decreases |text|
  {
    if text == "" then set_
    else LastWord(KindOf(text[0]) == on || (set_ && KindOf(text[0]) != off), text[1..], on, off)
  }

  function Digits(text: string): string
    decreases |text|
  {
    if text == "" then "" else (if KindOf(text[0]) == Digit then [text[0]] else "") + Digits(text[1..])
  }

  lemma HasFirst(text: string, k: Kind)
    requires text != ""
    ensures Has(text, k) == (KindOf(text[0]) == k || Has(text[1..], k))
  {
    hide KindOf;
    assert text == [text[0]] + text[1..];
    if i :| 0 <= i < |text[1..]| && KindOf(text[1..][i]) == k {
      assert KindOf(text[i + 1]) == k;
    }
    if i :| 0 < i < |text| && KindOf(text[i]) == k {
      assert KindOf(text[1..][i - 1]) == k;
    }
  }

  /** Options are refused for an unknown character only. */
  lemma {:induction false} Refused(o: Options, text: string)
    ensures ReadAll(o, text).None? <==> Has(text, Unknown)
    decreases |text|
  {
    if text != "" {
      HasFirst(text, Unknown);
      hide KindOf, Has;
      if Read(o, text[0]).Some? {
        Refused(Read(o, text[0]).value, text[1..]);
      }
    }
  }

  /** What accepted options mean, whatever their order. */
  lemma {:induction false} OptionsMean(o: Options, text: string)
    requires ReadAll(o, text).Some?
    ensures var q := ReadAll(o, text).value;
      && q.r == (o.r || Has(text, R)) && q.w == (o.w || Has(text, W)) && q.a == (o.a || Has(text, A))
      && q.p == (o.p || Has(text, P)) && q.x == (o.x || Has(text, X)) && q.u == (o.u || Has(text, U))
      && q.n == (o.n || Has(text, N)) && q.s == (o.s || Has(text, S))
      && q.e == LastWord(o.e, text, E, C) && q.b == LastWord(o.b, text, B, T)
    decreases |text|
  {
    if text != "" {
      HasFirst(text, R);
      HasFirst(text, W);
      HasFirst(text, A);
      HasFirst(text, P);
      HasFirst(text, X);
      HasFirst(text, U);
      HasFirst(text, N);
      HasFirst(text, S);
      hide Has, KindOf;
      OptionsMean(Read(o, text[0]).value, text[1..]);
    }
  }

  lemma {:induction false} ModeMeans(o: Options, text: string)
    requires ReadAll(o, text).Some?
    ensures ReadAll(o, text).value.mode == o.mode + Digits(text)
    decreases |text|
  {
    if text != "" {
      hide KindOf, Read;
      ReadMode(o, text[0]);
      ModeMeans(Read(o, text[0]).value, text[1..]);
    }
  }

  lemma ReadMode(o: Options, c: char)
    requires Read(o, c).Some?
    ensures Read(o, c).value.mode == o.mode + if KindOf(c) == Digit then [c] else ""
  {
    hide KindOf;
  }

  lemma {:induction false} DigitsSum(s: string, t: string)
    ensures Digits(s + t) == Digits(s) + Digits(t)
    decreases |s|
  {
    hide KindOf, Digits;
    if s == "" {
      assert s + t == t && Digits("") == "" by { DigitsOf("", true); }
    } else {
      assert (s + t)[1..] == s[1..] + t;
      DigitsSum(s[1..], t);
      DigitsFirst(s);
      DigitsFirst(s + t);
    }
  }

  lemma DigitsFirst(s: string)
    requires s != ""
    ensures Digits(s) == (if KindOf(s[0]) == Digit then [s[0]] else "") + Digits(s[1..])
  {
    hide KindOf;
  }

  lemma {:induction false} DigitsOf(text: string, digits: bool)
    requires forall i :: 0 <= i < |text| ==> (KindOf(text[i]) == Digit) == digits
    ensures Digits(text) == if digits then text else ""
    decreases |text|
  {
    hide KindOf;
    if text != "" {
      DigitsOf(text[1..], digits);
    }
  }

  lemma {:induction false} LastWordAlone(set_: bool, text: string, on: Kind, off: Kind)
    requires on != off && !Has(text, off)
    ensures LastWord(set_, text, on, off) == (set_ || Has(text, on))
    decreases |text|
  {
    if text != "" {
      HasFirst(text, on);
      HasFirst(text, off);
      hide KindOf, Has;
      LastWordAlone(KindOf(text[0]) == on || set_, text[1..], on, off);
    }
  }

  // ---------- The normal form is stable ----------

  predicate AllDigits(text: string) {
    forall i :: 0 <= i < |text| ==> KindOf(text[i]) == Digit
  }

  lemma {:induction false} DigitsAreDigits(text: string)
    ensures AllDigits(Digits(text))
    decreases |text|
  {
    hide KindOf;
    if text != "" {
      DigitsAreDigits(text[1..]);
    }
  }

  lemma Letters()
    ensures KindOf('r') == R && KindOf('w') == W && KindOf('a') == A && KindOf('e') == E && KindOf('b') == B
    ensures KindOf('x') == X && KindOf('p') == P && KindOf('n') == N && KindOf('s') == S && KindOf('-') == Separator
    ensures forall c :: '0' <= c <= '7' ==> KindOf(c) == Digit
  {
  }

  /** The letter of each position, and the option it stands for. */
  function LetterAt(i: nat): Kind {
    if i == 0 then R else if i == 1 then W else if i == 2 then A else if i == 3 then E else if i == 4 then B
    else if i == 5 then X else if i == 6 then P else if i == 7 then N else if i == 8 then S else Digit
  }

  function SetAt(o: Options, i: nat): bool {
    if i == 0 then o.r else if i == 1 then o.w else if i == 2 then o.a else if i == 3 then o.e else if i == 4 then o.b
    else if i == 5 then o.x else if i == 6 then o.p else if i == 7 then o.n else if i == 8 then o.s else true
  }

  function KindAt(o: Options, i: nat): Kind {
    if SetAt(o, i) then LetterAt(i) else Separator
  }

  const LETTERS := "rwaebxpns"

  lemma ComposedChars(o: Options, mode: string)
    requires |mode| == 3
    ensures forall i :: 0 <= i < 9 ==> Composed(o, mode)[i] == Flag(SetAt(o, i), LETTERS[i])
    ensures Composed(o, mode)[9..] == mode
  {
    hide Flag;
  }

  lemma LetterKinds(i: nat)
    requires i < 9
    ensures KindOf(LETTERS[i]) == LetterAt(i)
  {
    hide KindOf;
    Letters();
  }

  lemma ComposedKinds(o: Options, mode: string)
    requires |mode| == 3 && AllDigits(mode)
    ensures forall i :: 0 <= i < 12 ==> KindOf(Composed(o, mode)[i]) == KindAt(o, i)
  {
    hide KindOf, Composed, SetAt;
    var t := Composed(o, mode);
    ComposedChars(o, mode);
    Letters();
    forall i | 0 <= i < 12
      ensures KindOf(t[i]) == KindAt(o, i)
    {
      if i < 9 {
        LetterKinds(i);
      } else {
        assert t[i] == t[9..][i - 9];
        DigitPlaces(o, i);
      }
    }
  }

  lemma DigitPlaces(o: Options, i: nat)
    requires i >= 9
    ensures KindAt(o, i) == Digit
  {
  }

  lemma ComposedHas(o: Options, mode: string, i: nat)
    requires |mode| == 3 && AllDigits(mode) && i < 9
    ensures Has(Composed(o, mode), LetterAt(i)) == SetAt(o, i)
  {
    assert forall j :: 0 <= j < 12 && LetterAt(j) == LetterAt(i) ==> j == i;
    assert LetterAt(i) != Separator;
    hide KindOf, Composed, AllDigits, LetterAt, SetAt;
    ComposedKinds(o, mode);
    assert KindOf(Composed(o, mode)[i]) == KindAt(o, i);
  }

  lemma ComposedLacks(o: Options, mode: string, k: Kind)
    requires |mode| == 3 && AllDigits(mode) && k in {U, C, T, Unknown}
    ensures !Has(Composed(o, mode), k)
  {
    assert forall j :: 0 <= j < 12 ==> KindAt(o, j) != k;
    hide KindOf, Composed, KindAt, AllDigits;
    ComposedKinds(o, mode);
  }

  lemma ComposedDigits(o: Options, mode: string)
    requires |mode| == 3 && AllDigits(mode)
    ensures Digits(Composed(o, mode)) == mode
  {
    hide KindOf, Flag, Digits;
    var t := Composed(o, mode);
    ComposedKinds(o, mode);
    assert t[9..] == mode && t == t[..9] + mode;
    assert forall i :: 0 <= i < 9 ==> KindOf(t[..9][i]) == KindAt(o, i) && KindAt(o, i) != Digit;
    DigitsOf(t[..9], false);
    DigitsOf(mode, true);
    DigitsSum(t[..9], mode);
  }

  lemma ComposedFlags(o: Options, mode: string)
    requires |mode| == 3 && AllDigits(mode)
    ensures var t := Composed(o, mode);
      && Has(t, R) == o.r && Has(t, W) == o.w && Has(t, A) == o.a && Has(t, X) == o.x && Has(t, P) == o.p
      && Has(t, N) == o.n && Has(t, S) == o.s && !Has(t, U) && !Has(t, Unknown)
      && LastWord(false, t, E, C) == o.e && LastWord(false, t, B, T) == o.b
  {
    hide Composed, KindOf, Has, AllDigits, LastWord;
    ComposedHas(o, mode, 0);
    ComposedHas(o, mode, 1);
    ComposedHas(o, mode, 2);
    ComposedHas(o, mode, 3);
    ComposedHas(o, mode, 4);
    ComposedHas(o, mode, 5);
    ComposedHas(o, mode, 6);
    ComposedHas(o, mode, 7);
    ComposedHas(o, mode, 8);
    ComposedLacks(o, mode, U);
    ComposedLacks(o, mode, C);
    ComposedLacks(o, mode, T);
    ComposedLacks(o, mode, Unknown);
    LastWordAlone(false, Composed(o, mode), E, C);
    LastWordAlone(false, Composed(o, mode), B, T);
  }

  /** The normal form, read again, gives the options it was composed from. */
  lemma ReadComposed(o: Options, mode: string)
    requires |mode| == 3 && AllDigits(mode)
    ensures ReadAll(NO_OPTIONS, Composed(o, mode)) == Some(o.(u := false, mode := mode))
  {
    hide ReadAll, Composed, Has, LastWord, Digits, AllDigits;
    var t := Composed(o, mode);
    ComposedFlags(o, mode);
    Refused(NO_OPTIONS, t);
    OptionsMean(NO_OPTIONS, t);
    ModeMeans(NO_OPTIONS, t);
    ComposedDigits(o, mode);
    assert "" + mode == mode;
  }

  lemma DigitMode(mode: string)
    requires AllDigits(mode) && ModeOf(mode).Some?
    ensures AllDigits(ModeOf(mode).value)
  {
    hide KindOf;
    Letters();
  }

  /** Options in normal form are left as they are. */
  lemma NormalFormIsStable(text: string)
    requires Normal(text).Some?
    ensures Normal(Normal(text).value) == Normal(text)
  {
    hide ReadAll, AllDigits, Digits, Composed, Settled, ModeOf;
    var o := ReadAll(NO_OPTIONS, text).value;
    ModeMeans(NO_OPTIONS, text);
    DigitsAreDigits(text);
    assert "" + Digits(text) == Digits(text);
    DigitMode(o.mode);
    var m, q := ModeOf(o.mode).value, Settled(o);
    ReadComposed(q, m);
    SameFlags(q, m);
    SettledStays(o, m);
    ModeStays(o.mode);
  }

  lemma SettledStays(o: Options, mode: string)
    ensures var q := Settled(o);
      Settled(q.(u := false, mode := mode)) == q.(u := false, mode := mode)
  {
  }

  lemma ModeStays(mode: string)
    requires ModeOf(mode).Some?
    ensures ModeOf(ModeOf(mode).value) == ModeOf(mode)
  {
  }

  lemma SameFlags(o: Options, mode: string)
    requires |mode| == 3
    ensures Composed(o.(u := false, mode := mode), mode) == Composed(o, mode)
  {
    hide Flag;
  }

  // ---------- What the system is asked for ----------

  datatype OpenFlags = OpenFlags(
    read: bool, write: bool, append: bool, create: bool, excl: bool, trunc: bool, nonblock: bool, sync: bool)

  /** The flags for the POSIX open call, from options in normal form. */
  function PosixFlags(options: string): OpenFlags
    requires |options| == 12
  {
    var w := options[1] == 'w';
    OpenFlags(
      !w || options[0] == 'r', w, w && options[2] == 'a', w && options[3] != 'e', w && options[5] == 'x',
      w && options[6] != 'p', options[7] == 'n', options[8] == 's')
  }

  /** What any accepted options ask the system for, in terms of the letters they consist of. */
  lemma FlagsExactly(text: string)
    requires Normal(text).Some?
    ensures var f := PosixFlags(Normal(text).value);
      var r, w, a, u := Has(text, R), Has(text, W), Has(text, A), Has(text, U);
      && (f.write <==> w || (u && r && !a))
      && (f.read <==> !f.write || r || u)
      && (f.append <==> f.write && a)
      && (f.trunc <==> f.write && !Has(text, P) && !a && !(u && r))
      && (f.create <==> f.write && !LastWord(false, text, E, C) && !(u && r && !a))
      && (f.excl <==> f.create && Has(text, X))
      && (f.nonblock <==> Has(text, N))
      && (f.sync <==> Has(text, S))
  {
    hide ReadAll, ModeOf, Has, LastWord, Settled, Composed, PosixFlags;
    OptionsMean(NO_OPTIONS, text);
    var o := ReadAll(NO_OPTIONS, text).value;
    SettledLetters(o);
    FlagsOf(Settled(o), ModeOf(o.mode).value);
  }

  lemma FlagsOf(o: Options, mode: string)
    requires |mode| == 3
    ensures PosixFlags(Composed(o, mode)) ==
      OpenFlags(!o.w || o.r, o.w, o.w && o.a, o.w && !o.e, o.w && o.x, o.w && !o.p, o.n, o.s)
  {
  }

  lemma SettledLetters(o: Options)
    ensures var q, update := Settled(o), o.u && o.r && !o.a;
      && q.r == (o.r || (o.u && (o.a || o.w))) && q.w == (o.w || update) && q.a == o.a
      && q.e == (o.e || update) && q.p == (o.p || update || o.a)
      && q.x == (o.x && (q.w || o.a) && !q.e) && q.n == o.n && q.s == o.s && q.b == o.b
  {
  }

  // ---------- The letters themselves ----------

  /** Which characters stand for which option; whatever is in none of these texts is unknown. */
  lemma KindExactly(c: char)
    ensures (KindOf(c) == R <==> c in "Rr") && (KindOf(c) == W <==> c in "Ww") && (KindOf(c) == A <==> c in "Aa")
    ensures (KindOf(c) == B <==> c in "Bb") && (KindOf(c) == T <==> c in "Tt") && (KindOf(c) == X <==> c in "Xx")
    ensures (KindOf(c) == E <==> c in "Ee") && (KindOf(c) == C <==> c in "Cc") && (KindOf(c) == P <==> c in "Pp")
    ensures (KindOf(c) == S <==> c in "Ss") && (KindOf(c) == N <==> c in "Nn") && (KindOf(c) == U <==> c in "+")
    ensures (KindOf(c) == Separator <==> c in "-,; ") && (KindOf(c) == Digit <==> c in "01234567")
  {
    hide KindOf;
    FirstKinds(c);
    LaterKinds(c);
    OtherKinds(c);
  }

  lemma FirstKinds(c: char)
    ensures (KindOf(c) == R <==> c in "Rr") && (KindOf(c) == W <==> c in "Ww") && (KindOf(c) == A <==> c in "Aa")
    ensures (KindOf(c) == B <==> c in "Bb") && (KindOf(c) == T <==> c in "Tt") && (KindOf(c) == X <==> c in "Xx")
  {
    hide IsOctal;
    Pair(c, 'R', 'r');
    Pair(c, 'W', 'w');
    Pair(c, 'A', 'a');
    Pair(c, 'B', 'b');
    Pair(c, 'T', 't');
    Pair(c, 'X', 'x');
  }

  lemma LaterKinds(c: char)
    ensures (KindOf(c) == E <==> c in "Ee") && (KindOf(c) == C <==> c in "Cc") && (KindOf(c) == P <==> c in "Pp")
    ensures (KindOf(c) == S <==> c in "Ss") && (KindOf(c) == N <==> c in "Nn") && (KindOf(c) == U <==> c in "+")
  {
    hide IsOctal;
    Pair(c, 'E', 'e');
    Pair(c, 'C', 'c');
    Pair(c, 'P', 'p');
    Pair(c, 'S', 's');
    Pair(c, 'N', 'n');
  }

  lemma OtherKinds(c: char)
    ensures (KindOf(c) == Separator <==> c in "-,; ") && (KindOf(c) == Digit <==> c in "01234567")
  {
    OctalExactly(c);
  }

  lemma Pair(c: char, u: char, l: char)
    ensures c in [u, l] <==> c == u || c == l
  {
  }

  lemma OctalExactly(c: char)
    ensures IsOctal(c) <==> c in "01234567"
  {
    var s := "01234567";
    forall i | 0 <= i < 8
      ensures s[i] == '0' + i as char
    {
    }
    if IsOctal(c) {
      assert s[c as int - '0' as int] == c;
    }
  }

  /** Rights of three digits are kept, a leading zero is dropped, none are 644, and any other number is refused. */
  lemma ModeExactly(mode: string)
    ensures mode == "" ==> ModeOf(mode) == Some("644")
    ensures |mode| == 3 ==> ModeOf(mode) == Some(mode)
    ensures |mode| == 4 && mode[0] == '0' ==> ModeOf(mode) == Some(mode[1..])
    ensures mode != "" && |mode| != 3 && !(|mode| == 4 && mode[0] == '0') ==> ModeOf(mode) == None
  {
  }

  /** The normal form position by position, in terms of the letters that were given. */
  lemma NormalExactly(text: string)
    requires Normal(text).Some?
    ensures var t := Normal(text).value;
      var r, w, a, u := Has(text, R), Has(text, W), Has(text, A), Has(text, U);
      var update, e := u && r && !a, LastWord(false, text, E, C);
      && (forall i :: 0 <= i < 9 ==> t[i] == "rwaebxpns"[i] || t[i] == '-')
      && (t[0] == 'r' <==> r || (u && (a || w))) && (t[1] == 'w' <==> w || update) && (t[2] == 'a' <==> a)
      && (t[3] == 'e' <==> e || update) && (t[4] == 'b' <==> LastWord(false, text, B, T))
      && (t[5] == 'x' <==> Has(text, X) && (w || a || update) && !(e || update))
      && (t[6] == 'p' <==> Has(text, P) || a || update)
      && (t[7] == 'n' <==> Has(text, N)) && (t[8] == 's' <==> Has(text, S))
      && ModeOf(Digits(text)) == Some(t[9..])
  {
    hide ReadAll, ModeOf, Has, LastWord, Settled, Composed, Digits;
    OptionsMean(NO_OPTIONS, text);
    ModeMeans(NO_OPTIONS, text);
    assert "" + Digits(text) == Digits(text);
    var o := ReadAll(NO_OPTIONS, text).value;
    SettledLetters(o);
    ComposedLetters(Settled(o), ModeOf(o.mode).value);
  }

  lemma ComposedLetters(o: Options, mode: string)
    requires |mode| == 3
    ensures var t := Composed(o, mode);
      && (forall i :: 0 <= i < 9 ==> t[i] == "rwaebxpns"[i] || t[i] == '-')
      && (t[0] == 'r' <==> o.r) && (t[1] == 'w' <==> o.w) && (t[2] == 'a' <==> o.a) && (t[3] == 'e' <==> o.e)
      && (t[4] == 'b' <==> o.b) && (t[5] == 'x' <==> o.x) && (t[6] == 'p' <==> o.p) && (t[7] == 'n' <==> o.n)
      && (t[8] == 's' <==> o.s) && t[9..] == mode
  {
  }
}
