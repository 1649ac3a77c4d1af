/** Printing socket addresses and reading them back, above the address conversions of the system. */
module IpAddress {
  import opened Common

  /** Binary addresses as the system keeps them. */
  type Binary = seq<bv8>

  datatype Address = Unset | V4(addr: Binary, port: nat) | V6(addr: Binary, port: nat)

  /** The system's conversions between binary addresses and their plain text. */
  datatype Net = Net(
    ntop4: Binary -> string, pton4: string -> Option<Binary>,
    ntop6: Binary -> string, pton6: string -> Option<Binary>)

  const PORTS := 0x1_0000

  // ---------- Text ----------

  predicate Lacks(c: char, s: string) {
    forall i :: 0 <= i < |s| ==> s[i] != c
  }

  /** The first position of c in s, or -1. */
  function IndexOf(c: char, s: string): (p: int)
    ensures -1 <= p < |s|
  {
    if s == "" then -1
    else if s[0] == c then 0
    else
      var q := IndexOf(c, s[1..]);
      if q < 0 then -1 else q + 1
  }

  /** The last position of c in s, or -1. */
  function LastIndexOf(c: char, s: string): (p: int)
    ensures -1 <= p < |s|
  {
    if s == "" then -1
    else if s[|s| - 1] == c then |s| - 1
    else LastIndexOf(c, s[..|s| - 1])
  }

  predicate IsDigit(c: char) {
    '0' <= c <= '9'
  }

  predicate AllDigits(s: string) {
    forall i :: 0 <= i < |s| ==> IsDigit(s[i])
  }

  /** Decimal digits, without leading zeros. */
  function Decimal(n: nat): (s: string)
    ensures s != "" && AllDigits(s) && (n > 0 ==> s[0] != '0')
  {
    if n < 10 then ['0' + n as char] else Decimal(n / 10) + ['0' + (n % 10) as char]
  }

  function ValueOf(s: string): nat
    requires AllDigits(s)
  {
    if s == "" then 0 else 10 * ValueOf(s[..|s| - 1]) + (s[|s| - 1] - '0') as nat
  }

  lemma {:induction false} DecimalValue(n: nat)
    ensures ValueOf(Decimal(n)) == n
  {
    if n < 10 {
      assert Decimal(n)[..0] == "";
    } else {
      var front := Decimal(n / 10);
      assert Decimal(n)[..|Decimal(n)| - 1] == front;
      DecimalValue(n / 10);
    }
  }

  const LONG_MAX := 0x7fff_ffff_ffff_ffff

  /** What converting the digits to a long and then to a port gives. */
  function PortOf(digits: string): (port: nat)
    requires AllDigits(digits)
    ensures port < PORTS
  {
    var n := ValueOf(digits);
    (if n > LONG_MAX then LONG_MAX else n) % PORTS
  }

  // ---------- Printing ----------

  function Text(net: Net, a: Address): string {
    match a
    case Unset => ""
    case V4(addr, port) => net.ntop4(addr) + ":" + Decimal(port)
    case V6(addr, port) => "[" + net.ntop6(addr) + "]:" + Decimal(port)
  }

  // ---------- Parsing ----------

  /** The address without brackets, and what follows them. */
  function Unbracket(s: string): Option<(string, string)> {
    var p, p1 := IndexOf('[', s), IndexOf(']', s);
    if p >= 0 then
      if p != 0 || p1 < 0 then None
      else Some((s[..p1][1..], if p1 < |s| - 1 then s[p1 + 1..] else ""))
    else if p1 >= 0 then None
    else Some((s, ""))
  }

  datatype Fields = Fields(adr: string, port: string, subn: string)

  /** Address, port and net mask, from an address with all of them or less. */
  function Separate(adr: string, port: string): Option<Fields> {
    var p := IndexOf('/', adr);
    if p >= 0 then
      if p >= |adr| - 1 then None
      else
        var subn := adr[p + 1..];
        var p1 := IndexOf(':', subn);
        if p1 < 0 then Some(Fields(adr[..p], port, subn))
        else if port != "" || p1 == 0 || p1 >= |subn| - 1 then None
        else Some(Fields(adr[..p], subn[p1 + 1..], subn[..p1]))
    else
      var q := IndexOf(':', adr);
      if q >= 0 && LastIndexOf(':', adr) == q then
        if port != "" || q == 0 then None else Some(Fields(adr[..q], adr[q + 1..], ""))
      else Some(Fields(adr, port, ""))
  }

  function WithoutColon(port: string): string {
    if port != "" && port[0] == ':' then port[1..] else port
  }

  function Resolve(net: Net, adr: string, port: nat): Option<Address> {
    if IndexOf(':', adr) >= 0 then
      match net.pton6(adr)
      case None => None
      case Some(b) => Some(V6(b, port))
    else
      match net.pton4(adr)
      case None => None
      case Some(b) => Some(V4(b, port))
  }

  function Checked(net: Net, f: Fields): Option<Address> {
    var port := WithoutColon(f.port);
    if !AllDigits(port) || |f.subn| > 3 || !AllDigits(f.subn) then None
    else Resolve(net, f.adr, if port == "" then 0 else PortOf(port))
  }

  /** The address a text denotes. */
  function Parse(net: Net, s: string): Option<Address> {
    if |s| < 2 then None
    else
      var u := Unbracket(s);
      if u.None? then None
      else
        var f := Separate(u.value.0, u.value.1);
        if f.None? then None else Checked(net, f.value)
  }

  class IpAddress {
    var address: Address
    const net: Net

    constructor (net: Net)
      ensures address == Unset && this.net == net
    {
      this.net, address := net, Unset;
    }

    method SetPort(port: nat)
      modifies `address
      ensures address == match old(address)
                         case Unset => Unset
                         case V4(a, _) => V4(a, port)
                         case V6(a, _) => V6(a, port)
    {
      match address {
        case V4(a, _) => address := V4(a, port);
        case V6(a, _) => address := V6(a, port);
        case Unset =>
      }
    }

    /** The text of an address is read as that address again; without an address there is no text. */
    method Str() returns (s: string)
      ensures s == Text(net, address)
      ensures Inverse(net) && IsAddress(address) ==> Parse(net, s) == Some(address)
      ensures s == "" <==> address == Unset
    {
      if Inverse(net) && IsAddress(address) {
        RoundTrip(net, address);
      }
      hide Inverse, Parse;
      match address {
        case V6(addr, port) => s := "[" + net.ntop6(addr) + "]:" + Decimal(port);
        case V4(addr, port) => s := net.ntop4(addr) + ":" + Decimal(port);
        case Unset => s := "";
      }
    }

    /** Sets the address that the text denotes; otherwise the address is unset. */
    method SetStr(text: string) returns (ok: bool)
      modifies `address
      ensures ok == Parse(net, text).Some?
      ensures address == if ok then Parse(net, text).value else Unset
    {
      address := Unset;
      var adr := text;
      if |adr| < 2 {
        return false;
      }
      var port := "";
      var p := IndexOf('[', adr);
      if p >= 0 {
        var p1 := IndexOf(']', adr);
        if p != 0 || p1 < 0 || p1 < p {
          return false;
        }
        if p1 > 0 && p1 < |adr| - 1 {
          port := adr[p1 + 1..];
        }
        adr := adr[..p1];
        adr := adr[p + 1..];
      } else if IndexOf(']', adr) >= 0 {
        return false;
      }
      assert Unbracket(text) == Some((adr, port));
      var f := CutFields(adr, port);
      if f.None? {
        return false;
      }
      ok := SetFields(f.value);
    }

    /** Takes net mask and port off an address without brackets. */
    static method CutFields(adr0: string, port0: string) returns (f: Option<Fields>)
      ensures f == Separate(adr0, port0)
    {
      var adr, port, subn := adr0, port0, "";
      var p := IndexOf('/', adr);
      if p >= 0 {
        if p >= |adr| - 1 {
          return None;
        }
        subn := adr[p + 1..];
        var p1 := IndexOf(':', subn);
        if p1 >= 0 {
          if port != "" || p1 == 0 || p1 >= |subn| - 1 {
            return None;
          }
          port := subn[p1 + 1..];
          subn := subn[..p1];
        }
        adr := adr[..p];
      } else {
        p := IndexOf(':', adr);
        if p >= 0 && LastIndexOf(':', adr) == p {
          if port != "" || p == 0 {
            return None;
          }
          port := adr[p + 1..];
          adr := adr[..p];
        }
      }
      f := Some(Fields(adr, port, subn));
    }

    /** Checks the fields and sets address and port. */
    method SetFields(f: Fields) returns (ok: bool)
      requires address == Unset
      modifies `address
      ensures ok == Checked(net, f).Some?
      ensures address == if ok then Checked(net, f).value else Unset
    {
      hide PortOf, IndexOf;
      var port := f.port;
      if port != "" && port[0] == ':' {
        port := port[1..];
      }
      if !AllDigits(port) || |f.subn| > 3 || !AllDigits(f.subn) {
        return false;
      }
      if IndexOf(':', f.adr) >= 0 {
        var b := net.pton6(f.adr);
        if b.None? {
          return false;
        }
        address := V6(b.value, 0);
      } else {
        var b := net.pton4(f.adr);
        if b.None? {
          return false;
        }
        address := V4(b.value, 0);
      }
      if port != "" {
        SetPort(PortOf(port));
      }
      ok := true;
    }
  }

  // ---------- Round trip ----------

  /** A text without brackets and net mask. */
  predicate Plain(s: string) {
    |s| >= 2 && Lacks('[', s) && Lacks(']', s) && Lacks('/', s)
  }

  /** Reading undoes printing; IPv4 texts have no colon, IPv6 texts have at least two. */
  ghost predicate Inverse(net: Net) {
    && (forall a: Binary :: |a| == 4 ==>
          net.pton4(net.ntop4(a)) == Some(a) && Plain(net.ntop4(a)) && Lacks(':', net.ntop4(a)))
    && (forall a: Binary :: |a| == 16 ==>
          net.pton6(net.ntop6(a)) == Some(a) && Plain(net.ntop6(a))
          && 0 <= IndexOf(':', net.ntop6(a)) < LastIndexOf(':', net.ntop6(a)))
    && (forall s: string :: net.pton4(s).Some? ==> |net.pton4(s).value| == 4)
    && (forall s: string :: net.pton6(s).Some? ==> |net.pton6(s).value| == 16)
  }

  predicate IsAddress(a: Address) {
    match a
    case Unset => false
    case V4(addr, port) => |addr| == 4 && port < PORTS
    case V6(addr, port) => |addr| == 16 && port < PORTS
  }

  lemma {:induction false} IndexIs(c: char, s: string, p: int)
    requires if p < 0 then p == -1 && Lacks(c, s) else p < |s| && s[p] == c && Lacks(c, s[..p])
    ensures IndexOf(c, s) == p
    decreases |s|
  {
    if p > 0 {
      assert s[0] == s[..p][0] && s[1..][..p - 1] == s[..p][1..];
      IndexIs(c, s[1..], p - 1);
    } else if p < 0 && s != "" {
      IndexIs(c, s[1..], -1);
    }
  }

  lemma {:induction false} LastIndexIs(c: char, s: string, p: int)
    requires 0 <= p < |s| && s[p] == c && Lacks(c, s[p + 1..])
    ensures LastIndexOf(c, s) == p
    decreases |s|
  {
    var n := |s| - 1;
    if p < n {
      assert s[n] == s[p + 1..][n - p - 1] && s[..n][p + 1..] == s[p + 1..][..n - p - 1];
      LastIndexIs(c, s[..n], p);
    }
  }

  lemma LacksSum(c: char, s: string, t: string)
    requires Lacks(c, s) && Lacks(c, t)
    ensures Lacks(c, s + t)
  {
  }

  lemma DigitsLack(c: char, d: string)
    requires AllDigits(d) && !IsDigit(c)
    ensures Lacks(c, d)
  {
  }

  lemma NoIndex(c: char, t: string, d: string)
    requires Lacks(c, t) && AllDigits(d) && !IsDigit(c) && c != ':'
    ensures IndexOf(c, t + ":" + d) == -1
  {
    DigitsLack(c, d);
    LacksSum(c, t, ":");
    LacksSum(c, t + ":", d);
    IndexIs(c, t + ":" + d, -1);
  }

  lemma OneColon(t: string, d: string)
    requires Lacks(':', t) && AllDigits(d)
    ensures var s := t + ":" + d;
      IndexOf(':', s) == LastIndexOf(':', s) == |t| && s[..|t|] == t && s[|t| + 1..] == d
  {
    var s := t + ":" + d;
    assert s[..|t|] == t && s[|t| + 1..] == d;
    DigitsLack(':', d);
    IndexIs(':', s, |t|);
    LastIndexIs(':', s, |t|);
  }

  /** The fields of an IPv4 text and anything of digits behind a colon. */
  lemma FieldsV4(t: string, d: string)
    requires Plain(t) && Lacks(':', t) && AllDigits(d)
    ensures var s := t + ":" + d;
      |s| >= 2 && Unbracket(s) == Some((s, "")) && Separate(s, "") == Some(Fields(t, d, ""))
  {
    NoIndex('[', t, d);
    NoIndex(']', t, d);
    NoIndex('/', t, d);
    OneColon(t, d);
    hide IndexOf, LastIndexOf, Lacks, AllDigits;
  }

  lemma FieldsV6(t: string, d: string)
    requires Plain(t) && 0 <= IndexOf(':', t) < LastIndexOf(':', t)
    ensures var s := "[" + t + "]:" + d;
      |s| >= 2 && Unbracket(s) == Some((t, ":" + d)) && Separate(t, ":" + d) == Some(Fields(t, ":" + d, ""))
  {
    var s := "[" + t + "]:" + d;
    assert s[..0] == "";
    IndexIs('[', s, 0);
    assert s[..|t| + 1] == "[" + t && ("[" + t)[1..] == t;
    LacksSum(']', "[", t);
    IndexIs(']', s, |t| + 1);
    assert s[|t| + 2..] == ":" + d;
    IndexIs('/', t, -1);
  }

  lemma NetV4(net: Net, a: Binary)
    requires Inverse(net) && |a| == 4
    ensures net.pton4(net.ntop4(a)) == Some(a) && Plain(net.ntop4(a)) && Lacks(':', net.ntop4(a))
  {
  }

  lemma NetV6(net: Net, a: Binary)
    requires Inverse(net) && |a| == 16
    ensures net.pton6(net.ntop6(a)) == Some(a) && Plain(net.ntop6(a))
    ensures 0 <= IndexOf(':', net.ntop6(a)) < LastIndexOf(':', net.ntop6(a))
  {
  }

  /** An IPv4 text with any number behind the colon: numbers beyond the ports are reduced. */
  lemma ParseV4(net: Net, a: Binary, n: nat)
    requires Inverse(net) && |a| == 4
    ensures Parse(net, net.ntop4(a) + ":" + Decimal(n)) == Some(V4(a, (if n < 0x8000_0000_0000_0000 then n % 65536 else 65535)))
  {
    hide Inverse, Unbracket, Separate, Decimal, ValueOf, Plain;
    var t, d := net.ntop4(a), Decimal(n);
    NetV4(net, a);
    FieldsV4(t, d);
    DecimalValue(n);
    IndexIs(':', t, -1);
    hide IndexOf;
    assert WithoutColon(d) == d;
    assert AllDigits("");
  }

  lemma ParseV6(net: Net, a: Binary, n: nat)
    requires Inverse(net) && |a| == 16
    ensures Parse(net, "[" + net.ntop6(a) + "]:" + Decimal(n)) == Some(V6(a, (if n < 0x8000_0000_0000_0000 then n % 65536 else 65535)))
  {
    hide Inverse, Unbracket, Separate, Decimal, ValueOf, Plain, IndexOf, LastIndexOf;
    var t, d := net.ntop6(a), Decimal(n);
    NetV6(net, a);
    FieldsV6(t, d);
    DecimalValue(n);
    assert WithoutColon(":" + d) == d;
    assert AllDigits("");
  }

  /** Every address with its port comes back from its text. */
  lemma RoundTrip(net: Net, a: Address)
    requires Inverse(net) && IsAddress(a)
    ensures Parse(net, Text(net, a)) == Some(a)
  {
    hide Parse, Decimal, Inverse;
    match a
    case V4(addr, port) => ParseV4(net, addr, port);
    case V6(addr, port) => ParseV6(net, addr, port);
  }

  /** What is accepted is an address, and printing it gives a text that is accepted as the same address. */
  lemma AcceptedIsStable(net: Net, s: string)
    requires Inverse(net) && Parse(net, s).Some?
    ensures var a := Parse(net, s).value;
      IsAddress(a) && Parse(net, Text(net, a)) == Some(a)
  {
    hide Unbracket, Separate, PortOf, Text, IndexOf;
    RoundTrip(net, Parse(net, s).value);
  }

  lemma FieldsPlain(t: string)
    requires Plain(t) && (Lacks(':', t) || 0 <= IndexOf(':', t) < LastIndexOf(':', t))
    ensures Unbracket(t) == Some((t, "")) && Separate(t, "") == Some(Fields(t, "", ""))
  {
    IndexIs('[', t, -1);
    IndexIs(']', t, -1);
    IndexIs('/', t, -1);
    if Lacks(':', t) {
      IndexIs(':', t, -1);
    }
    hide IndexOf, LastIndexOf;
  }

  /** The plain texts, without a port, stand for port 0; so does an IPv4 text with a colon behind it. */
  lemma PlainV4(net: Net, a: Binary)
    requires Inverse(net) && |a| == 4
    ensures Parse(net, net.ntop4(a)) == Some(V4(a, 0)) && Parse(net, net.ntop4(a) + ":") == Some(V4(a, 0))
  {
    hide Inverse, Unbracket, Separate;
    var t := net.ntop4(a);
    NetV4(net, a);
    FieldsPlain(t);
    IndexIs(':', t, -1);
    FieldsV4(t, "");
    assert t + ":" + "" == t + ":";
    hide IndexOf;
  }

  lemma PlainV6(net: Net, a: Binary)
    requires Inverse(net) && |a| == 16
    ensures Parse(net, net.ntop6(a)) == Some(V6(a, 0))
  {
    hide Inverse, Unbracket, Separate, IndexOf, LastIndexOf;
    NetV6(net, a);
    FieldsPlain(net.ntop6(a));
  }

  // ---------- Net masks and refusals ----------

  lemma SlashAt(t: string, r: string)
    requires Lacks('/', t)
    ensures var s := t + "/" + r; IndexOf('/', s) == |t| && s[..|t|] == t && s[|t| + 1..] == r
  {
    var s := t + "/" + r;
    assert s[..|t|] == t && s[|t| + 1..] == r;
    IndexIs('/', s, |t|);
  }

  /** The mask ends at the end of the address, or at a colon with a port behind it. */
  lemma SeparateMask(t: string, m: string, port: string)
    requires Lacks('/', t) && m != "" && AllDigits(m)
    ensures Separate(t + "/" + m, port) == Some(Fields(t, port, m))
  {
    SlashAt(t, m);
    DigitsLack(':', m);
    IndexIs(':', m, -1);
    hide IndexOf, LastIndexOf;
  }

  lemma SeparateMaskPort(t: string, m: string, d: string)
    requires Lacks('/', t) && m != "" && AllDigits(m) && d != "" && AllDigits(d)
    ensures Separate(t + "/" + m + ":" + d, "") == Some(Fields(t, d, m))
  {
    hide IndexOf, LastIndexOf, Lacks, AllDigits, Separate;
    var r := m + ":" + d;
    assert t + "/" + m + ":" + d == t + "/" + r;
    SlashAt(t, r);
    DigitsLack(':', m);
    OneColon(m, d);
    SeparateParts(t + "/" + r, t, r, m, d);
  }

  lemma SeparateParts(s: string, t: string, r: string, m: string, d: string)
    requires IndexOf('/', s) == |t| < |s| - 1 && s[..|t|] == t && s[|t| + 1..] == r
    requires 0 < |m| == IndexOf(':', r) < |r| - 1 && r[..|m|] == m && r[|m| + 1..] == d
    ensures Separate(s, "") == Some(Fields(t, d, m))
  {
    hide IndexOf, LastIndexOf;
  }

  lemma NoBrackets(s: string)
    requires Lacks('[', s) && Lacks(']', s)
    ensures Unbracket(s) == Some((s, ""))
  {
    IndexIs('[', s, -1);
    IndexIs(']', s, -1);
  }

  lemma MaskedText(t: string, m: string, d: string)
    requires Plain(t) && AllDigits(m) && AllDigits(d)
    ensures Lacks('[', t + "/" + m) && Lacks(']', t + "/" + m)
    ensures Lacks('[', t + "/" + m + ":" + d) && Lacks(']', t + "/" + m + ":" + d)
  {
    DigitsLack('[', m);
    DigitsLack(']', m);
    DigitsLack('[', d);
    DigitsLack(']', d);
  }

  /** A net mask of one to three digits is accepted, with a port behind it or without, and otherwise ignored. */
  lemma MaskV4(net: Net, a: Binary, m: string, n: nat)
    requires Inverse(net) && |a| == 4 && 1 <= |m| <= 3 && AllDigits(m)
    ensures Parse(net, net.ntop4(a) + "/" + m) == Some(V4(a, 0))
    ensures Parse(net, net.ntop4(a) + "/" + m + ":" + Decimal(n)) ==
      Some(V4(a, (if n < 0x8000_0000_0000_0000 then n % 65536 else 65535)))
  {
    hide Inverse, Unbracket, Separate, Decimal, ValueOf, Plain;
    var t, d := net.ntop4(a), Decimal(n);
    NetV4(net, a);
    MaskedText(t, m, d);
    NoBrackets(t + "/" + m);
    NoBrackets(t + "/" + m + ":" + d);
    PlainLacksSlash(t);
    SeparateMask(t, m, "");
    SeparateMaskPort(t, m, d);
    DecimalValue(n);
    IndexIs(':', t, -1);
    hide IndexOf, Lacks;
    assert WithoutColon(d) == d && WithoutColon("") == "";
  }

  lemma PlainLacksSlash(t: string)
    requires Plain(t)
    ensures Lacks('/', t) && |t| >= 2
  {
  }

  lemma MaskV6(net: Net, a: Binary, m: string, n: nat)
    requires Inverse(net) && |a| == 16 && 1 <= |m| <= 3 && AllDigits(m)
    ensures Parse(net, net.ntop6(a) + "/" + m) == Some(V6(a, 0))
    ensures Parse(net, net.ntop6(a) + "/" + m + ":" + Decimal(n)) ==
      Some(V6(a, (if n < 0x8000_0000_0000_0000 then n % 65536 else 65535)))
  {
    hide Inverse, Unbracket, Separate, Decimal, ValueOf, Plain, IndexOf, LastIndexOf, Lacks;
    var t, d := net.ntop6(a), Decimal(n);
    NetV6(net, a);
    MaskedText(t, m, d);
    NoBrackets(t + "/" + m);
    NoBrackets(t + "/" + m + ":" + d);
    PlainLacksSlash(t);
    SeparateMask(t, m, "");
    SeparateMaskPort(t, m, d);
    DecimalValue(n);
    assert WithoutColon(d) == d && WithoutColon("") == "";
  }

  lemma UnbracketMask(t: string, m: string, rest: string)
    requires Plain(t) && AllDigits(m)
    ensures Unbracket("[" + t + "/" + m + "]" + rest) == Some((t + "/" + m, rest))
  {
    var u := t + "/" + m;
    assert "[" + t + "/" + m + "]" + rest == "[" + u + "]" + rest;
    DigitsLack(']', m);
    LacksSum(']', t, "/");
    LacksSum(']', t + "/", m);
    InBrackets(u, rest);
  }

  /** The same in brackets, with the port behind them. */
  lemma BracketMaskV6(net: Net, a: Binary, m: string, n: nat)
    requires Inverse(net) && |a| == 16 && 1 <= |m| <= 3 && AllDigits(m)
    ensures Parse(net, "[" + net.ntop6(a) + "/" + m + "]") == Some(V6(a, 0))
    ensures Parse(net, "[" + net.ntop6(a) + "/" + m + "]:" + Decimal(n)) ==
      Some(V6(a, (if n < 0x8000_0000_0000_0000 then n % 65536 else 65535)))
  {
    hide Inverse, Unbracket, Separate, Decimal, ValueOf, Plain, IndexOf, LastIndexOf, Lacks;
    var t, d := net.ntop6(a), Decimal(n);
    NetV6(net, a);
    PlainLacksSlash(t);
    UnbracketMask(t, m, "");
    UnbracketMask(t, m, ":" + d);
    assert "[" + t + "/" + m + "]" + "" == "[" + t + "/" + m + "]";
    assert "[" + t + "/" + m + "]:" + d == "[" + t + "/" + m + "]" + (":" + d);
    SeparateMask(t, m, "");
    SeparateMask(t, m, ":" + d);
    DecimalValue(n);
    assert WithoutColon(":" + d) == d && WithoutColon("") == "";
  }

  /** Masks of more than three digits, or with anything but digits in them, are refused, and so is an empty mask. */
  lemma BadMaskRefused(net: Net, t: string, m: string)
    requires Plain(t) && Lacks(':', m) && Lacks('[', m) && Lacks(']', m)
    requires m == "" || |m| > 3 || !AllDigits(m)
    ensures Parse(net, t + "/" + m).None?
  {
    LacksSum('[', t, "/");
    LacksSum('[', t + "/", m);
    LacksSum(']', t, "/");
    LacksSum(']', t + "/", m);
    NoBrackets(t + "/" + m);
    SlashAt(t, m);
    IndexIs(':', m, -1);
    hide Unbracket, IndexOf, LastIndexOf, Lacks, Resolve;
  }

  /** A colon behind a net mask needs a mask before it and a port behind it. */
  lemma BadMaskPortRefused(net: Net, t: string, m: string, d: string)
    requires Plain(t) && AllDigits(m) && AllDigits(d) && (m == "" || d == "")
    ensures Parse(net, t + "/" + m + ":" + d).None?
  {
    var s, r := t + "/" + m + ":" + d, m + ":" + d;
    assert s == t + "/" + r;
    MaskedText(t, m, d);
    NoBrackets(s);
    SlashAt(t, r);
    DigitsLack(':', m);
    OneColon(m, d);
    hide Unbracket, IndexOf, LastIndexOf, Lacks, AllDigits, Checked;
  }

  /** A text that has its only colon at the front is refused, whatever follows it. */
  lemma ColonFirstRefused(net: Net, d: string)
    requires d != "" && Lacks('[', d) && Lacks(']', d) && Lacks('/', d) && Lacks(':', d)
    ensures Parse(net, ":" + d).None?
  {
    var s := ":" + d;
    IndexIs('[', s, -1);
    IndexIs(']', s, -1);
    IndexIs('/', s, -1);
    assert s[..0] == "" && s[1..] == d;
    IndexIs(':', s, 0);
    LastIndexIs(':', s, 0);
    hide IndexOf, LastIndexOf, Lacks, Checked;
  }

  /** A port in the brackets and another one behind them is refused. */
  lemma TwoPortsRefused(net: Net, t: string, d: string, e: string)
    requires Plain(t) && Lacks(':', t) && AllDigits(d)
    ensures Parse(net, "[" + (t + ":" + d) + "]" + (":" + e)).None?
  {
    hide Unbracket, IndexOf, LastIndexOf, Lacks, AllDigits, Checked;
    var u := t + ":" + d;
    PlainLacks(t);
    DigitsLack(']', d);
    NoIndex('/', t, d);
    OneColon(t, d);
    LacksSum(']', t, ":");
    LacksSum(']', t + ":", d);
    InBrackets(u, ":" + e);
  }

  /** So is a port behind a net mask in the brackets and another one behind them. */
  lemma TwoPortsWithMaskRefused(net: Net, t: string, m: string, d: string, e: string)
    requires Plain(t) && AllDigits(m) && AllDigits(d)
    ensures Parse(net, "[" + (t + "/" + m + ":" + d) + "]" + (":" + e)).None?
  {
    hide Unbracket, IndexOf, LastIndexOf, Lacks, AllDigits, Checked;
    var u, r := t + "/" + m + ":" + d, m + ":" + d;
    assert u == t + "/" + r;
    PlainLacks(t);
    MaskedText(t, m, d);
    SlashAt(t, r);
    DigitsLack(':', m);
    OneColon(m, d);
    InBrackets(u, ":" + e);
  }

  lemma PlainLacks(t: string)
    requires Plain(t)
    ensures |t| >= 2 && Lacks('/', t) && Lacks(']', t) && Lacks('[', t)
  {
  }

  lemma InBrackets(u: string, rest: string)
    requires Lacks(']', u)
    ensures Unbracket("[" + u + "]" + rest) == Some((u, rest))
  {
    var s := "[" + u + "]" + rest;
    assert s[..0] == "";
    IndexIs('[', s, 0);
    assert s[..|u| + 1] == "[" + u && ("[" + u)[1..] == u;
    LacksSum(']', "[", u);
    IndexIs(']', s, |u| + 1);
    assert s[|u| + 2..] == rest;
    assert rest == "" ==> |u| + 1 == |s| - 1;
  }

  /** Texts of less than two characters and misplaced brackets are refused. */
  lemma BadFormRefused(net: Net, s: string)
    requires |s| < 2 || (s[0] != '[' && '[' in s) || ('[' in s && ']' !in s) || ('[' !in s && ']' in s)
    ensures Parse(net, s).None?
  {
    HasIndex('[', s);
    HasIndex(']', s);
    hide IndexOf, Separate, Checked;
  }

  lemma {:induction false} HasIndex(c: char, s: string)
    ensures IndexOf(c, s) >= 0 <==> c in s
    ensures IndexOf(c, s) >= 0 ==> s[IndexOf(c, s)] == c
    decreases |s|
  {
    if s != "" && s[0] != c {
      HasIndex(c, s[1..]);
      assert s == [s[0]] + s[1..];
    }
  }

  /** A port with anything but digits in it is refused. */
  lemma BadPortRefused(net: Net, t: string, d: string)
    requires Plain(t) && Lacks(':', t) && Lacks('[', d) && Lacks(']', d) && Lacks('/', d) && Lacks(':', d)
    requires !AllDigits(d)
    ensures Parse(net, t + ":" + d).None?
  {
    var s := t + ":" + d;
    IndexIs('[', s, -1);
    IndexIs(']', s, -1);
    IndexIs('/', s, -1);
    assert s[..|t|] == t && s[|t| + 1..] == d;
    IndexIs(':', s, |t|);
    LastIndexIs(':', s, |t|);
    hide IndexOf, LastIndexOf, Lacks, Resolve;
    assert WithoutColon(d) == d;
  }

  // ---------- The text itself ----------

  /** Decimal digits of a number, with no zero in front of others. */
  predicate IsNumeral(d: string, n: nat) {
    d != "" && AllDigits(d) && ValueOf(d) == n && (|d| > 1 ==> d[0] != '0')
  }

  lemma {:induction false} DecimalIsNumeral(n: nat)
    ensures IsNumeral(Decimal(n), n)
  {
    DecimalValue(n);
    if n == 0 {
      assert Decimal(0) == "0";
    }
    hide Decimal;
  }

  /** An IPv4 address is followed by a colon and its port, an IPv6 address is in brackets before them. */
  lemma TextExactly(net: Net, a: Address)
    ensures a.Unset? ==> Text(net, a) == ""
    ensures a.V4? ==> exists d :: IsNumeral(d, a.port) && Text(net, a) == net.ntop4(a.addr) + ":" + d
    ensures a.V6? ==> exists d :: IsNumeral(d, a.port) && Text(net, a) == "[" + net.ntop6(a.addr) + "]:" + d
  {
    if !a.Unset? {
      DecimalIsNumeral(a.port);
    }
    hide Decimal, ValueOf, IsNumeral;
  }

  lemma DigitsExactly(c: char)
    ensures IsDigit(c) <==> c in "0123456789"
  {
    var s := "0123456789";
    forall i | 0 <= i < 10
      ensures s[i] == '0' + i as char
    {
    }
    if IsDigit(c) {
      assert s[c as int - '0' as int] == c;
    }
  }

  /** Numerals have base ten. */
  lemma BaseTen(s: string, i: nat)
    requires AllDigits(s) && i < 10
    ensures AllDigits(s + ["0123456789"[i]]) && ValueOf(s + ["0123456789"[i]]) == 10 * ValueOf(s) + i && ValueOf("") == 0
  {
    var c := "0123456789"[i];
    assert c == '0' + i as char;
    assert (s + [c])[..|s|] == s;
  }
}
