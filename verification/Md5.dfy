/**
 * The MD5 hasher: RFC 1321 as the reference, and the streaming class with its unrolled transform,
 * partial-block buffer and two-word bit counter.
 */
module Md5 {
  import opened Bytes

  // ---------- RFC 1321 ----------

  datatype State = State(a: bv32, b: bv32, c: bv32, d: bv32)

  const INITIAL := State(0x67452301, 0xefcdab89, 0x98badcfe, 0x10325476)

  function Rol(x: bv32, n: bv6): bv32
    requires n <= 32
  {
    (x << n) | (x >> (32 - n))
  }

  // The four auxiliary functions of section 3.4.
  function F(x: bv32, y: bv32, z: bv32): bv32 { (x & y) | (!x & z) }
  function G(x: bv32, y: bv32, z: bv32): bv32 { (x & z) | (y & !z) }
  function H(x: bv32, y: bv32, z: bv32): bv32 { x ^ y ^ z }
  function I(x: bv32, y: bv32, z: bv32): bv32 { y ^ (x | !z) }

  function Aux(t: nat, x: bv32, y: bv32, z: bv32): bv32 {
    if t < 16 then F(x, y, z) else if t < 32 then G(x, y, z) else if t < 48 then H(x, y, z) else I(x, y, z)
  }

  // Message word, rotation and sine constant of operation t, 0 <= t < 64.
  function WordIndex(t: nat): (k: nat)
    ensures k < 16
  {
    if t < 16 then t else if t < 32 then (5 * t + 1) % 16 else if t < 48 then (3 * t + 5) % 16 else (7 * t) % 16
  }

  function Shift(t: nat): (s: bv6)
    ensures s <= 32
  {
    var i := t % 4;
    if t < 16 then if i == 0 then 7 else if i == 1 then 12 else if i == 2 then 17 else 22
    else if t < 32 then if i == 0 then 5 else if i == 1 then 9 else if i == 2 then 14 else 20
    else if t < 48 then if i == 0 then 4 else if i == 1 then 11 else if i == 2 then 16 else 23
    else if i == 0 then 6 else if i == 1 then 10 else if i == 2 then 15 else 21
  }

  // The integer part of 2^32 * |sin(t + 1)|, one table per round.

  function Sine(t: nat): bv32
    requires t < 64
  {
    if t < 16 then
      if t < 4 then Pick4(t - 0, 0xd76aa478, 0xe8c7b756, 0x242070db, 0xc1bdceee)
      else if t < 8 then Pick4(t - 4, 0xf57c0faf, 0x4787c62a, 0xa8304613, 0xfd469501)
      else if t < 12 then Pick4(t - 8, 0x698098d8, 0x8b44f7af, 0xffff5bb1, 0x895cd7be)
      else Pick4(t - 12, 0x6b901122, 0xfd987193, 0xa679438e, 0x49b40821)
    else if t < 32 then
      if t < 20 then Pick4(t - 16, 0xf61e2562, 0xc040b340, 0x265e5a51, 0xe9b6c7aa)
      else if t < 24 then Pick4(t - 20, 0xd62f105d, 0x02441453, 0xd8a1e681, 0xe7d3fbc8)
      else if t < 28 then Pick4(t - 24, 0x21e1cde6, 0xc33707d6, 0xf4d50d87, 0x455a14ed)
      else Pick4(t - 28, 0xa9e3e905, 0xfcefa3f8, 0x676f02d9, 0x8d2a4c8a)
    else if t < 48 then
      if t < 36 then Pick4(t - 32, 0xfffa3942, 0x8771f681, 0x6d9d6122, 0xfde5380c)
      else if t < 40 then Pick4(t - 36, 0xa4beea44, 0x4bdecfa9, 0xf6bb4b60, 0xbebfbc70)
      else if t < 44 then Pick4(t - 40, 0x289b7ec6, 0xeaa127fa, 0xd4ef3085, 0x04881d05)
      else Pick4(t - 44, 0xd9d4d039, 0xe6db99e5, 0x1fa27cf8, 0xc4ac5665)
    else
      if t < 52 then Pick4(t - 48, 0xf4292244, 0x432aff97, 0xab9423a7, 0xfc93a039)
      else if t < 56 then Pick4(t - 52, 0x655b59c3, 0x8f0ccc92, 0xffeff47d, 0x85845dd1)
      else if t < 60 then Pick4(t - 56, 0x6fa87e4f, 0xfe2ce6e0, 0xa3014314, 0x4e0811a1)
      else Pick4(t - 60, 0xf7537e82, 0xbd3af235, 0x2ad7d2bb, 0xeb86d391)
  }

  /** a = b + ((a + f + x + ac) <<< s), the operation all four rounds share. */
  function Mix(a: bv32, b: bv32, f: bv32, x: bv32, s: bv6, ac: bv32): bv32
    requires s <= 32
  {
    b + Rol(a + f + x + ac, s)
  }

  /** One operation of section 3.4; afterwards the registers move on by one name. */
  function Step(t: nat, s: State, x: seq<bv32>): State
    requires t < 64 && |x| == 16
  {
    State(s.d, Mix(s.a, s.b, Aux(t, s.b, s.c, s.d), x[WordIndex(t)], Shift(t), Sine(t)), s.b, s.c)
  }

  function Steps(t: nat, s: State, x: seq<bv32>): State
    requires t <= 64 && |x| == 16
  {
    if t == 0 then s else Step(t - 1, Steps(t - 1, s, x), x)
  }

  function Word(b: seq<byte>): bv32
    requires |b| == 4
  {
    (b[0] as bv32) | ((b[1] as bv32) << 8) | ((b[2] as bv32) << 16) | ((b[3] as bv32) << 24)
  }

  function Words(block: seq<byte>): (x: seq<bv32>)
    requires |block| == 64
    ensures |x| == 16
  {
    seq(16, i requires 0 <= i < 16 => Word(block[4 * i..4 * i + 4]))
  }

  /** Word i is the number that bytes 4 * i to 4 * i + 3 are, least significant first. */
  lemma WordsValue(block: seq<byte>, i: nat)
    requires |block| == 64 && i < 16
    ensures Words(block)[i] as nat == LeNumber(block[4 * i..4 * i + 4])
  {
    hide Word;
    WordValue(block[4 * i..4 * i + 4]);
  }

  function AddState(s: State, r: State): State {
    State(s.a + r.a, s.b + r.b, s.c + r.c, s.d + r.d)
  }

  function Compress(s: State, block: seq<byte>): State
    requires |block| == 64
  {
    AddState(s, Steps(64, s, Words(block)))
  }

  /** The chaining value after the first k blocks of data. */
  function Chain(data: seq<byte>, k: nat): State
    requires 64 * k <= |data|
  {
    if k == 0 then INITIAL else Compress(Chain(data, k - 1), data[64 * (k - 1)..64 * k])
  }

  /** The bit count of n bytes, of which only the low-order 64 bits are used. */
  function LengthBytes(n: nat): (b: seq<byte>)
    ensures |b| == 8
  {
    Le(8 * n % TWO64, 8)
  }

  /** Sections 3.1 and 3.2: a one bit, zeros up to 56 modulo 64, and the bit count modulo 2^64. */
  function Padded(m: seq<byte>): (p: seq<byte>)
    ensures |p| % 64 == 0
  {
    m + [0x80] + Zeros(PadZeros(|m|)) + LengthBytes(|m|)
  }

  function WordBytes(w: bv32): (b: seq<byte>)
    ensures |b| == 4
  {
    [(w & 0xff) as byte, ((w >> 8) & 0xff) as byte, ((w >> 16) & 0xff) as byte, ((w >> 24) & 0xff) as byte]
  }

  function Output(s: State): (b: seq<byte>)
    ensures |b| == 16
  {
    WordBytes(s.a) + WordBytes(s.b) + WordBytes(s.c) + WordBytes(s.d)
  }

  function Md5(m: seq<byte>): (digest: seq<byte>)
    ensures |digest| == 16
  {
    var p := Padded(m);
    Output(Chain(p, |p| / 64))
  }

  lemma WordJoined(b0: byte, b1: byte, b2: byte, b3: byte, v: bv32, w: bv32)
    requires v == ((b3 as bv32) << 8) | (b2 as bv32) && w == (v << 8) | (b1 as bv32)
    ensures v <= 0xffff && w <= 0xff_ffff && Word([b0, b1, b2, b3]) == (w << 8) | (b0 as bv32)
  {
  }

  lemma WordValueOf(b0: byte, b1: byte, b2: byte, b3: byte)
    ensures Word([b0, b1, b2, b3]) as nat == LeNumber([b0, b1, b2, b3])
  {
    hide Word;
    var v: bv32 := ((b3 as bv32) << 8) | (b2 as bv32);
    var w: bv32 := (v << 8) | (b1 as bv32);
    WordJoined(b0, b1, b2, b3, v, w);
    JoinedValue(b0, b1, b2, b3, v, w, Word([b0, b1, b2, b3]));
    LeNumberOfFour(b0, b1, b2, b3);
  }

  /** The number that the word is. */
  lemma WordValue(b: seq<byte>)
    requires |b| == 4
    ensures Word(b) as nat == LeNumber(b)
  {
    hide Word;
    WordValueOf(b[0], b[1], b[2], b[3]);
    assert b == [b[0], b[1], b[2], b[3]];
  }

  lemma WordBytesInverse(w: bv32)
    ensures Word(WordBytes(w)) == w
  {
  }

  /** The sixteen bytes of a digest determine the four words they come from. */
  lemma OutputInjective(s: State, r: State)
    ensures Output(s) == Output(r) <==> s == r
  {
    hide WordBytes, Word;
    WordBytesInverse(s.a);
    WordBytesInverse(s.b);
    WordBytesInverse(s.c);
    WordBytesInverse(s.d);
    WordBytesInverse(r.a);
    WordBytesInverse(r.b);
    WordBytesInverse(r.c);
    WordBytesInverse(r.d);
    OutputParts(s);
    OutputParts(r);
  }

  lemma OutputParts(s: State)
    ensures Output(s)[..4] == WordBytes(s.a) && Output(s)[4..8] == WordBytes(s.b)
    ensures Output(s)[8..12] == WordBytes(s.c) && Output(s)[12..] == WordBytes(s.d)
  {
    hide WordBytes;
  }

  // ---------- The unrolled rounds ----------

  // The macros of the transform: each returns the new value of its first register.
  function FF(a: bv32, b: bv32, c: bv32, d: bv32, x: bv32, s: bv6, ac: bv32): bv32 requires s <= 32 {
    Mix(a, b, F(b, c, d), x, s, ac)
  }
  function GG(a: bv32, b: bv32, c: bv32, d: bv32, x: bv32, s: bv6, ac: bv32): bv32 requires s <= 32 {
    Mix(a, b, G(b, c, d), x, s, ac)
  }
  function HH(a: bv32, b: bv32, c: bv32, d: bv32, x: bv32, s: bv6, ac: bv32): bv32 requires s <= 32 {
    Mix(a, b, H(b, c, d), x, s, ac)
  }
  function II(a: bv32, b: bv32, c: bv32, d: bv32, x: bv32, s: bv6, ac: bv32): bv32 requires s <= 32 {
    Mix(a, b, I(b, c, d), x, s, ac)
  }

  /** The constants of one operation. */
  datatype Op = Op(k: nat, s: bv6, ac: bv32)

  ghost function OpOf(t: nat): Op
    requires t < 64
  {
    Op(WordIndex(t), Shift(t), Sine(t))
  }

  lemma StepsFF(t: nat, s: State, x: seq<bv32>, o: Op)
    requires |x| == 16 && 0 <= t < 16 && o == OpOf(t)
    ensures o.k < 16 && o.s <= 32
    ensures var p := Steps(t, s, x); Steps(t + 1, s, x) == State(p.d, FF(p.a, p.b, p.c, p.d, x[o.k], o.s, o.ac), p.b, p.c)
  {
    hide Sine, Mix, F, G, H, I;
  }

  lemma StepsGG(t: nat, s: State, x: seq<bv32>, o: Op)
    requires |x| == 16 && 16 <= t < 32 && o == OpOf(t)
    ensures o.k < 16 && o.s <= 32
    ensures var p := Steps(t, s, x); Steps(t + 1, s, x) == State(p.d, GG(p.a, p.b, p.c, p.d, x[o.k], o.s, o.ac), p.b, p.c)
  {
    hide Sine, Mix, F, G, H, I;
  }

  lemma StepsHH(t: nat, s: State, x: seq<bv32>, o: Op)
    requires |x| == 16 && 32 <= t < 48 && o == OpOf(t)
    ensures o.k < 16 && o.s <= 32
    ensures var p := Steps(t, s, x); Steps(t + 1, s, x) == State(p.d, HH(p.a, p.b, p.c, p.d, x[o.k], o.s, o.ac), p.b, p.c)
  {
    hide Sine, Mix, F, G, H, I;
  }

  lemma StepsII(t: nat, s: State, x: seq<bv32>, o: Op)
    requires |x| == 16 && 48 <= t < 64 && o == OpOf(t)
    ensures o.k < 16 && o.s <= 32
    ensures var p := Steps(t, s, x); Steps(t + 1, s, x) == State(p.d, II(p.a, p.b, p.c, p.d, x[o.k], o.s, o.ac), p.b, p.c)
  {
    hide Sine, Mix, F, G, H, I;
  }

  lemma Ops1()
    ensures OpOf(0) == Op(0, 7, 0xd76aa478)
    ensures OpOf(1) == Op(1, 12, 0xe8c7b756)
    ensures OpOf(2) == Op(2, 17, 0x242070db)
    ensures OpOf(3) == Op(3, 22, 0xc1bdceee)
    ensures OpOf(4) == Op(4, 7, 0xf57c0faf)
    ensures OpOf(5) == Op(5, 12, 0x4787c62a)
    ensures OpOf(6) == Op(6, 17, 0xa8304613)
    ensures OpOf(7) == Op(7, 22, 0xfd469501)
    ensures OpOf(8) == Op(8, 7, 0x698098d8)
    ensures OpOf(9) == Op(9, 12, 0x8b44f7af)
    ensures OpOf(10) == Op(10, 17, 0xffff5bb1)
    ensures OpOf(11) == Op(11, 22, 0x895cd7be)
    ensures OpOf(12) == Op(12, 7, 0x6b901122)
    ensures OpOf(13) == Op(13, 12, 0xfd987193)
    ensures OpOf(14) == Op(14, 17, 0xa679438e)
    ensures OpOf(15) == Op(15, 22, 0x49b40821)
  {
  }

  method Round1(s: State, x: seq<bv32>, ghost s0: State) returns (r: State)
    requires |x| == 16 && s == Steps(0, s0, x)
    ensures r == Steps(16, s0, x)
  {
    hide Mix, F, G, H, I, Steps, Step, FF, GG, HH, II, OpOf;
    Ops1();
    var a, b, c, d := s.a, s.b, s.c, s.d;
    StepsFF(0, s0, x, Op(0, 7, 0xd76aa478));  a := FF(a, b, c, d, x[0], 7, 0xd76aa478);
    StepsFF(1, s0, x, Op(1, 12, 0xe8c7b756));  d := FF(d, a, b, c, x[1], 12, 0xe8c7b756);
    StepsFF(2, s0, x, Op(2, 17, 0x242070db));  c := FF(c, d, a, b, x[2], 17, 0x242070db);
    StepsFF(3, s0, x, Op(3, 22, 0xc1bdceee));  b := FF(b, c, d, a, x[3], 22, 0xc1bdceee);
    StepsFF(4, s0, x, Op(4, 7, 0xf57c0faf));  a := FF(a, b, c, d, x[4], 7, 0xf57c0faf);
    StepsFF(5, s0, x, Op(5, 12, 0x4787c62a));  d := FF(d, a, b, c, x[5], 12, 0x4787c62a);
    StepsFF(6, s0, x, Op(6, 17, 0xa8304613));  c := FF(c, d, a, b, x[6], 17, 0xa8304613);
    StepsFF(7, s0, x, Op(7, 22, 0xfd469501));  b := FF(b, c, d, a, x[7], 22, 0xfd469501);
    StepsFF(8, s0, x, Op(8, 7, 0x698098d8));  a := FF(a, b, c, d, x[8], 7, 0x698098d8);
    StepsFF(9, s0, x, Op(9, 12, 0x8b44f7af));  d := FF(d, a, b, c, x[9], 12, 0x8b44f7af);
    StepsFF(10, s0, x, Op(10, 17, 0xffff5bb1));  c := FF(c, d, a, b, x[10], 17, 0xffff5bb1);
    StepsFF(11, s0, x, Op(11, 22, 0x895cd7be));  b := FF(b, c, d, a, x[11], 22, 0x895cd7be);
    StepsFF(12, s0, x, Op(12, 7, 0x6b901122));  a := FF(a, b, c, d, x[12], 7, 0x6b901122);
    StepsFF(13, s0, x, Op(13, 12, 0xfd987193));  d := FF(d, a, b, c, x[13], 12, 0xfd987193);
    StepsFF(14, s0, x, Op(14, 17, 0xa679438e));  c := FF(c, d, a, b, x[14], 17, 0xa679438e);
    StepsFF(15, s0, x, Op(15, 22, 0x49b40821));  b := FF(b, c, d, a, x[15], 22, 0x49b40821);
    r := State(a, b, c, d);
  }

  lemma Ops2()
    ensures OpOf(16) == Op(1, 5, 0xf61e2562)
    ensures OpOf(17) == Op(6, 9, 0xc040b340)
    ensures OpOf(18) == Op(11, 14, 0x265e5a51)
    ensures OpOf(19) == Op(0, 20, 0xe9b6c7aa)
    ensures OpOf(20) == Op(5, 5, 0xd62f105d)
    ensures OpOf(21) == Op(10, 9, 0x02441453)
    ensures OpOf(22) == Op(15, 14, 0xd8a1e681)
    ensures OpOf(23) == Op(4, 20, 0xe7d3fbc8)
    ensures OpOf(24) == Op(9, 5, 0x21e1cde6)
    ensures OpOf(25) == Op(14, 9, 0xc33707d6)
    ensures OpOf(26) == Op(3, 14, 0xf4d50d87)
    ensures OpOf(27) == Op(8, 20, 0x455a14ed)
    ensures OpOf(28) == Op(13, 5, 0xa9e3e905)
    ensures OpOf(29) == Op(2, 9, 0xfcefa3f8)
    ensures OpOf(30) == Op(7, 14, 0x676f02d9)
    ensures OpOf(31) == Op(12, 20, 0x8d2a4c8a)
  {
  }

  method Round2(s: State, x: seq<bv32>, ghost s0: State) returns (r: State)
    requires |x| == 16 && s == Steps(16, s0, x)
    ensures r == Steps(32, s0, x)
  {
    hide Mix, F, G, H, I, Steps, Step, FF, GG, HH, II, OpOf;
    Ops2();
    var a, b, c, d := s.a, s.b, s.c, s.d;
    StepsGG(16, s0, x, Op(1, 5, 0xf61e2562));  a := GG(a, b, c, d, x[1], 5, 0xf61e2562);
    StepsGG(17, s0, x, Op(6, 9, 0xc040b340));  d := GG(d, a, b, c, x[6], 9, 0xc040b340);
    StepsGG(18, s0, x, Op(11, 14, 0x265e5a51));  c := GG(c, d, a, b, x[11], 14, 0x265e5a51);
    StepsGG(19, s0, x, Op(0, 20, 0xe9b6c7aa));  b := GG(b, c, d, a, x[0], 20, 0xe9b6c7aa);
    StepsGG(20, s0, x, Op(5, 5, 0xd62f105d));  a := GG(a, b, c, d, x[5], 5, 0xd62f105d);
    StepsGG(21, s0, x, Op(10, 9, 0x02441453));  d := GG(d, a, b, c, x[10], 9, 0x02441453);
    StepsGG(22, s0, x, Op(15, 14, 0xd8a1e681));  c := GG(c, d, a, b, x[15], 14, 0xd8a1e681);
    StepsGG(23, s0, x, Op(4, 20, 0xe7d3fbc8));  b := GG(b, c, d, a, x[4], 20, 0xe7d3fbc8);
    StepsGG(24, s0, x, Op(9, 5, 0x21e1cde6));  a := GG(a, b, c, d, x[9], 5, 0x21e1cde6);
    StepsGG(25, s0, x, Op(14, 9, 0xc33707d6));  d := GG(d, a, b, c, x[14], 9, 0xc33707d6);
    StepsGG(26, s0, x, Op(3, 14, 0xf4d50d87));  c := GG(c, d, a, b, x[3], 14, 0xf4d50d87);
    StepsGG(27, s0, x, Op(8, 20, 0x455a14ed));  b := GG(b, c, d, a, x[8], 20, 0x455a14ed);
    StepsGG(28, s0, x, Op(13, 5, 0xa9e3e905));  a := GG(a, b, c, d, x[13], 5, 0xa9e3e905);
    StepsGG(29, s0, x, Op(2, 9, 0xfcefa3f8));  d := GG(d, a, b, c, x[2], 9, 0xfcefa3f8);
    StepsGG(30, s0, x, Op(7, 14, 0x676f02d9));  c := GG(c, d, a, b, x[7], 14, 0x676f02d9);
    StepsGG(31, s0, x, Op(12, 20, 0x8d2a4c8a));  b := GG(b, c, d, a, x[12], 20, 0x8d2a4c8a);
    r := State(a, b, c, d);
  }

  lemma Ops3()
    ensures OpOf(32) == Op(5, 4, 0xfffa3942)
    ensures OpOf(33) == Op(8, 11, 0x8771f681)
    ensures OpOf(34) == Op(11, 16, 0x6d9d6122)
    ensures OpOf(35) == Op(14, 23, 0xfde5380c)
    ensures OpOf(36) == Op(1, 4, 0xa4beea44)
    ensures OpOf(37) == Op(4, 11, 0x4bdecfa9)
    ensures OpOf(38) == Op(7, 16, 0xf6bb4b60)
    ensures OpOf(39) == Op(10, 23, 0xbebfbc70)
    ensures OpOf(40) == Op(13, 4, 0x289b7ec6)
    ensures OpOf(41) == Op(0, 11, 0xeaa127fa)
    ensures OpOf(42) == Op(3, 16, 0xd4ef3085)
    ensures OpOf(43) == Op(6, 23, 0x04881d05)
    ensures OpOf(44) == Op(9, 4, 0xd9d4d039)
    ensures OpOf(45) == Op(12, 11, 0xe6db99e5)
    ensures OpOf(46) == Op(15, 16, 0x1fa27cf8)
    ensures OpOf(47) == Op(2, 23, 0xc4ac5665)
  {
  }

  method Round3(s: State, x: seq<bv32>, ghost s0: State) returns (r: State)
    requires |x| == 16 && s == Steps(32, s0, x)
    ensures r == Steps(48, s0, x)
  {
    hide Mix, F, G, H, I, Steps, Step, FF, GG, HH, II, OpOf;
    Ops3();
    var a, b, c, d := s.a, s.b, s.c, s.d;
    StepsHH(32, s0, x, Op(5, 4, 0xfffa3942));  a := HH(a, b, c, d, x[5], 4, 0xfffa3942);
    StepsHH(33, s0, x, Op(8, 11, 0x8771f681));  d := HH(d, a, b, c, x[8], 11, 0x8771f681);
    StepsHH(34, s0, x, Op(11, 16, 0x6d9d6122));  c := HH(c, d, a, b, x[11], 16, 0x6d9d6122);
    StepsHH(35, s0, x, Op(14, 23, 0xfde5380c));  b := HH(b, c, d, a, x[14], 23, 0xfde5380c);
    StepsHH(36, s0, x, Op(1, 4, 0xa4beea44));  a := HH(a, b, c, d, x[1], 4, 0xa4beea44);
    StepsHH(37, s0, x, Op(4, 11, 0x4bdecfa9));  d := HH(d, a, b, c, x[4], 11, 0x4bdecfa9);
    StepsHH(38, s0, x, Op(7, 16, 0xf6bb4b60));  c := HH(c, d, a, b, x[7], 16, 0xf6bb4b60);
    StepsHH(39, s0, x, Op(10, 23, 0xbebfbc70));  b := HH(b, c, d, a, x[10], 23, 0xbebfbc70);
    StepsHH(40, s0, x, Op(13, 4, 0x289b7ec6));  a := HH(a, b, c, d, x[13], 4, 0x289b7ec6);
    StepsHH(41, s0, x, Op(0, 11, 0xeaa127fa));  d := HH(d, a, b, c, x[0], 11, 0xeaa127fa);
    StepsHH(42, s0, x, Op(3, 16, 0xd4ef3085));  c := HH(c, d, a, b, x[3], 16, 0xd4ef3085);
    StepsHH(43, s0, x, Op(6, 23, 0x04881d05));  b := HH(b, c, d, a, x[6], 23, 0x04881d05);
    StepsHH(44, s0, x, Op(9, 4, 0xd9d4d039));  a := HH(a, b, c, d, x[9], 4, 0xd9d4d039);
    StepsHH(45, s0, x, Op(12, 11, 0xe6db99e5));  d := HH(d, a, b, c, x[12], 11, 0xe6db99e5);
    StepsHH(46, s0, x, Op(15, 16, 0x1fa27cf8));  c := HH(c, d, a, b, x[15], 16, 0x1fa27cf8);
    StepsHH(47, s0, x, Op(2, 23, 0xc4ac5665));  b := HH(b, c, d, a, x[2], 23, 0xc4ac5665);
    r := State(a, b, c, d);
  }

  lemma Ops4()
    ensures OpOf(48) == Op(0, 6, 0xf4292244)
    ensures OpOf(49) == Op(7, 10, 0x432aff97)
    ensures OpOf(50) == Op(14, 15, 0xab9423a7)
    ensures OpOf(51) == Op(5, 21, 0xfc93a039)
    ensures OpOf(52) == Op(12, 6, 0x655b59c3)
    ensures OpOf(53) == Op(3, 10, 0x8f0ccc92)
    ensures OpOf(54) == Op(10, 15, 0xffeff47d)
    ensures OpOf(55) == Op(1, 21, 0x85845dd1)
    ensures OpOf(56) == Op(8, 6, 0x6fa87e4f)
    ensures OpOf(57) == Op(15, 10, 0xfe2ce6e0)
    ensures OpOf(58) == Op(6, 15, 0xa3014314)
    ensures OpOf(59) == Op(13, 21, 0x4e0811a1)
    ensures OpOf(60) == Op(4, 6, 0xf7537e82)
    ensures OpOf(61) == Op(11, 10, 0xbd3af235)
    ensures OpOf(62) == Op(2, 15, 0x2ad7d2bb)
    ensures OpOf(63) == Op(9, 21, 0xeb86d391)
  {
  }

  method Round4(s: State, x: seq<bv32>, ghost s0: State) returns (r: State)
    requires |x| == 16 && s == Steps(48, s0, x)
    ensures r == Steps(64, s0, x)
  {
    hide Mix, F, G, H, I, Steps, Step, FF, GG, HH, II, OpOf;
    Ops4();
    var a, b, c, d := s.a, s.b, s.c, s.d;
    StepsII(48, s0, x, Op(0, 6, 0xf4292244));  a := II(a, b, c, d, x[0], 6, 0xf4292244);
    StepsII(49, s0, x, Op(7, 10, 0x432aff97));  d := II(d, a, b, c, x[7], 10, 0x432aff97);
    StepsII(50, s0, x, Op(14, 15, 0xab9423a7));  c := II(c, d, a, b, x[14], 15, 0xab9423a7);
    StepsII(51, s0, x, Op(5, 21, 0xfc93a039));  b := II(b, c, d, a, x[5], 21, 0xfc93a039);
    StepsII(52, s0, x, Op(12, 6, 0x655b59c3));  a := II(a, b, c, d, x[12], 6, 0x655b59c3);
    StepsII(53, s0, x, Op(3, 10, 0x8f0ccc92));  d := II(d, a, b, c, x[3], 10, 0x8f0ccc92);
    StepsII(54, s0, x, Op(10, 15, 0xffeff47d));  c := II(c, d, a, b, x[10], 15, 0xffeff47d);
    StepsII(55, s0, x, Op(1, 21, 0x85845dd1));  b := II(b, c, d, a, x[1], 21, 0x85845dd1);
    StepsII(56, s0, x, Op(8, 6, 0x6fa87e4f));  a := II(a, b, c, d, x[8], 6, 0x6fa87e4f);
    StepsII(57, s0, x, Op(15, 10, 0xfe2ce6e0));  d := II(d, a, b, c, x[15], 10, 0xfe2ce6e0);
    StepsII(58, s0, x, Op(6, 15, 0xa3014314));  c := II(c, d, a, b, x[6], 15, 0xa3014314);
    StepsII(59, s0, x, Op(13, 21, 0x4e0811a1));  b := II(b, c, d, a, x[13], 21, 0x4e0811a1);
    StepsII(60, s0, x, Op(4, 6, 0xf7537e82));  a := II(a, b, c, d, x[4], 6, 0xf7537e82);
    StepsII(61, s0, x, Op(11, 10, 0xbd3af235));  d := II(d, a, b, c, x[11], 10, 0xbd3af235);
    StepsII(62, s0, x, Op(2, 15, 0x2ad7d2bb));  c := II(c, d, a, b, x[2], 15, 0x2ad7d2bb);
    StepsII(63, s0, x, Op(9, 21, 0xeb86d391));  b := II(b, c, d, a, x[9], 21, 0xeb86d391);
    r := State(a, b, c, d);
  }

  // ---------- The streaming hasher ----------

  lemma {:induction false} ChainPrefix(a: seq<byte>, b: seq<byte>, k: nat)
    requires 64 * k <= |a|
    ensures Chain(a + b, k) == Chain(a, k)
  {
    hide Compress;
    if k != 0 {
      ChainPrefix(a, b, k - 1);
      assert (a + b)[64 * (k - 1)..64 * k] == a[64 * (k - 1)..64 * k];
    }
  }

  lemma StepsStart(s: State, x: seq<bv32>)
    requires |x| == 16
    ensures Steps(0, s, x) == s
  {
  }

  ghost predicate Counts(lo: nat, hi: nat, total: nat) {
    lo < TWO32 && hi < TWO32 && lo + TWO32 * hi == 8 * total % TWO64
  }

  function AddLo(lo: nat, size: nat): nat {
    (lo + 8 * size % TWO32) % TWO32
  }

  function AddHi(lo: nat, hi: nat, size: nat): nat {
    ((if AddLo(lo, size) < 8 * size % TWO32 then (hi + 1) % TWO32 else hi) + size / 0x2000_0000) % TWO32
  }

  lemma AddLoCarries(lo: nat, size: nat)
    requires lo < TWO32
    ensures lo + 8 * size % TWO32 == AddLo(lo, size) + (if AddLo(lo, size) < 8 * size % TWO32 then TWO32 else 0)
  {
  }

  lemma AddHiWraps(hi: nat, carry: nat, s: nat, q: nat, r: nat)
    requires carry <= 1 && hi + carry + s == TWO32 * q + r && r < TWO32
    ensures ((if carry == 1 then (hi + 1) % TWO32 else hi) + s) % TWO32 == r
  {
  }

  /** The two 32-bit counter words, with the code's carry test, add 8 * size modulo 2^64. */
  lemma CountsStep(lo: nat, hi: nat, total: nat, size: nat)
    requires Counts(lo, hi, total) && size < TWO32
    ensures Counts(AddLo(lo, size), AddHi(lo, hi, size), total + size)
  {
    var lo' := AddLo(lo, size);
    AddLoCarries(lo, size);
    hide AddLo;
    var bits, s := 8 * size % TWO32, size / 0x2000_0000;
    var carry := if lo' < bits then 1 else 0;
    assert 8 * size == TWO32 * s + bits;
    var sum := hi + carry + s;
    var q, r := sum / TWO32, sum % TWO32;
    AddHiWraps(hi, carry, s, q, r);
    assert AddHi(lo, hi, size) == r;
    hide AddHi;
    var k := 8 * total / TWO64;
    assert 8 * total == TWO64 * k + lo + TWO32 * hi;
    ModUnique(8 * (total + size), TWO64, k + q, lo' + TWO32 * r);
  }

  lemma CountsIndex(lo: nat, hi: nat, total: nat)
    requires Counts(lo, hi, total)
    ensures lo / 8 % 64 == total % 64
  {
    var k := 8 * total / TWO64;
    assert 8 * total == TWO64 * k + lo + TWO32 * hi;
    hide Counts;
    assert lo == 8 * (total - 0x2000_0000_0000_0000 * k - 0x2000_0000 * hi);
    var i := lo / 8;
    assert i == total - 64 * (0x80_0000_0000_0000 * k + 0x80_0000 * hi);
    ModUnique(i, 64, total / 64 - (0x80_0000_0000_0000 * k + 0x80_0000 * hi), total % 64);
  }

  lemma CountsBytes(lo: nat, hi: nat, total: nat)
    requires Counts(lo, hi, total)
    ensures Le(lo, 4) + Le(hi, 4) == LengthBytes(total)
  {
    hide Le;
    Pow256Values();
    hide Pow256;
    LeSplit(lo, hi, 4, 4);
  }

  /**
   * After `before` bytes, an update by `size` bytes stops at a block boundary whose successor
   * is still a 32-bit number.
   */
  predicate Fits(before: nat, size: nat) {
    size < TWO32 && size - (before + size) % 64 + 64 < TWO32
  }

  lemma SmallFits(before: nat, size: nat)
    requires size <= 64
    ensures Fits(before, size)
  {
  }

  /** The 32-bit index at a block boundary, with no further block in the chunk: does adding one wrap? */
  lemma LastIndex(before: nat, size: nat, i: nat, blocks: nat)
    requires size < TWO32 && i <= size < i + 64 && before + i == 64 * blocks
    ensures Fits(before, size) <==> (i + 64) % TWO32 == i + 64
    ensures Fits(before, size) <==> (i + 64) % TWO32 > size
  {
    ModUnique(before + size, 64, blocks, size - i);
  }

  /** The boundary with this many blocks before it is reached by the loop, and the index behind it wraps. */
  predicate WrapsAt(before: nat, size: nat, blocks: nat) {
    before < 64 * blocks <= before + size && (64 * blocks - before + 64) % TWO32 != 64 * blocks - before + 64
  }

  /** Once a chunk fills the buffer, the loop comes to an index that wraps exactly when the chunk does not fit. */
  lemma WrapsExactly(before: nat, size: nat)
    requires size < TWO32 && before % 64 + size >= 64
    ensures (exists blocks: nat :: WrapsAt(before, size, blocks)) <==> !Fits(before, size)
  {
    var n, q := (before + size) / 64, before / 64;
    assert before == 64 * q + before % 64 && before + size == 64 * n + (before + size) % 64;
    assert 64 * (q + 1) <= before + size && n >= q + 1;
    assert before < 64 * n;
    LastIndex(before, size, 64 * n - before, n);
    if blocks: nat :| WrapsAt(before, size, blocks) {
      assert blocks <= n;
    }
    if !Fits(before, size) {
      assert WrapsAt(before, size, n);
    }
  }

  /** The chaining value covers all full blocks; the buffer starts with the bytes after them. */
  ghost predicate Covers(sum: State, buffer: seq<byte>, fed: seq<byte>) {
    && |buffer| == 64
    && sum == Chain(fed, |fed| / 64)
    && buffer[..|fed| % 64] == fed[64 * (|fed| / 64)..]
  }

  lemma CoversIntro(sum: State, buffer: seq<byte>, fed: seq<byte>, blocks: nat)
    requires |buffer| == 64 && 64 * blocks <= |fed| < 64 * blocks + 64
    requires sum == Chain(fed, blocks)
    requires buffer[..|fed| - 64 * blocks] == fed[64 * blocks..]
    ensures Covers(sum, buffer, fed)
  {
    hide Chain;
    ModUnique(|fed|, 64, blocks, |fed| - 64 * blocks);
  }

  /** The buffer after an update that completed no block, and after one that did. */
  lemma CoversMore(sum: State, buffer: seq<byte>, was: seq<byte>, data: seq<byte>, blocks: nat, rest: seq<byte>)
    requires |buffer| == 64 && 64 * blocks <= |was| && |was| - 64 * blocks + |data| < 64
    requires sum == Chain(was, blocks)
    requires buffer == was[64 * blocks..] + data + rest
    ensures Covers(sum, buffer, was + data)
  {
    hide Chain, Covers;
    ChainPrefix(was, data, blocks);
    CoversIntro(sum, buffer, was + data, blocks);
  }

  lemma CoversTail(sum: State, buffer: seq<byte>, was: seq<byte>, data: seq<byte>, i: nat, blocks: nat, rest: seq<byte>)
    requires |buffer| == 64 && i <= |data| < i + 64 && |was| + i == 64 * blocks
    requires sum == Chain(was + data, blocks)
    requires buffer == data[i..] + rest
    ensures Covers(sum, buffer, was + data)
  {
    hide Chain, Covers;
    assert (was + data)[64 * blocks..] == data[i..];
    CoversIntro(sum, buffer, was + data, blocks);
  }

  lemma FirstBlock(was: seq<byte>, data: seq<byte>, blocks: nat)
    requires 64 * blocks <= |was| < 64 * (blocks + 1) <= |was| + |data|
    ensures Chain(was + data, blocks + 1)
         == Compress(Chain(was, blocks), was[64 * blocks..] + data[..64 * (blocks + 1) - |was|])
  {
    hide Compress;
    ChainPrefix(was, data, blocks);
    assert (was + data)[64 * blocks..64 * (blocks + 1)] == was[64 * blocks..] + data[..64 * (blocks + 1) - |was|];
  }

  lemma NextBlock(was: seq<byte>, data: seq<byte>, i: nat, blocks: nat)
    requires |was| + i == 64 * blocks && i + 64 <= |data|
    ensures Chain(was + data, blocks + 1) == Compress(Chain(was + data, blocks), data[i..i + 64])
  {
    hide Compress;
    assert (was + data)[64 * blocks..64 * (blocks + 1)] == data[i..i + 64];
  }

  /** What the counter says about the buffer. */
  lemma CoversElim(lo: nat, hi: nat, sum: State, buffer: seq<byte>, fed: seq<byte>) returns (index: nat, blocks: nat)
    requires Counts(lo, hi, |fed|) && Covers(sum, buffer, fed)
    ensures index == lo / 8 % 64 && |fed| == 64 * blocks + index && index < 64
    ensures |buffer| == 64 && sum == Chain(fed, blocks)
    ensures buffer[..index] == fed[64 * blocks..]
  {
    hide Chain, Counts;
    CountsIndex(lo, hi, |fed|);
    index, blocks := |fed| % 64, |fed| / 64;
  }

  lemma StartIsValid(buffer: seq<byte>)
    requires |buffer| == 64
    ensures Counts(0, 0, 0) && Covers(INITIAL, buffer, [])
  {
    hide Compress;
    assert buffer[..0] == [];
  }

  lemma PaddingPrefix(k: nat)
    requires k < 64
    ensures ([0x80] + Zeros(63))[..k + 1] == [0x80] + Zeros(k)
  {
  }

  lemma PaddedParts(m: seq<byte>, blocks: nat, index: nat, bits: seq<byte>)
    requires |m| == 64 * blocks + index && index < 64 && bits == LengthBytes(|m|)
    ensures m + ([0x80] + Zeros(63))[..if index < 56 then 56 - index else 120 - index] + bits == Padded(m)
  {
    hide LengthBytes;
    assert |m| % 64 == index by { ModUnique(|m|, 64, blocks, index); }
    var k := PadZeros(|m|);
    hide PadZeros;
    PaddingPrefix(k);
  }

  lemma DigestOfPadded(sum: State, m: seq<byte>, blocks: nat, index: nat)
    requires |Padded(m)| == 64 * blocks + index && index < 64
    requires sum == Chain(Padded(m), blocks)
    ensures Output(sum) == Md5(m)
  {
    hide Chain, Output, Padded;
    ModUnique(|Padded(m)|, 64, blocks, index);
  }

  class Hasher {
    const buf: array<byte>
    var cntLo: nat
    var cntHi: nat
    var sum: State
    ghost var fed: seq<byte>

    ghost predicate Valid()
      reads this, buf
    {
      buf.Length == 64 && Counts(cntLo, cntHi, |fed|) && Covers(sum, buf[..], fed)
    }

    constructor ()
      ensures Valid() && fed == [] && fresh(buf)
    {
      buf := new byte[64];
      new;
      Clear();
    }

    method Clear()
      requires buf.Length == 64
      modifies this, buf
      ensures Valid() && fed == []
      ensures cntLo == 0 && cntHi == 0 && sum == INITIAL && buf[..] == Zeros(64)
    {
      hide Counts, Covers, Chain;
      cntLo, cntHi := 0, 0;
      sum := INITIAL;
      fed := [];
      forall i | 0 <= i < 64 {
        buf[i] := 0;
      }
      StartIsValid(buf[..]);
    }

    /** Updates the number of bits. */
    method AddBits(data: seq<byte>)
      requires Counts(cntLo, cntHi, |fed|) && |data| < TWO32
      modifies `cntLo, `cntHi, `fed
      ensures fed == old(fed) + data && Counts(cntLo, cntHi, |fed|)
    {
      var size := |data|;
      CountsStep(cntLo, cntHi, |fed|, size);
      hide Counts;
      var bits := 8 * size % TWO32;
      cntLo := (cntLo + bits) % TWO32;
      if cntLo < bits {
        cntHi := (cntHi + 1) % TWO32;
      }
      cntHi := (cntHi + size / 0x2000_0000) % TWO32;
      fed := fed + data;
    }

    /**
     * False when the 32-bit index wraps, so that the code would go on to read behind the chunk; the model
     * ends there.
     */
    method Update(data: seq<byte>) returns (inBounds: bool)
      requires Valid() && |data| < TWO32
      modifies this, buf
      ensures inBounds == Fits(|old(fed)|, |data|)
      ensures inBounds ==> Valid() && fed == old(fed) + data
    {
      hide Chain, Fits, Counts, Covers, Compress;
      var size := |data|;
      ghost var was := fed;
      ghost var filled, blocks := CoversElim(cntLo, cntHi, sum, buf[..], fed);
      var index := cntLo / 8 % 64;
      AddBits(data);
      var i, thresh := 0, 64 - index;
      if size >= thresh {
        CopyInto(buf, index, data[..thresh]);
        FirstBlock(was, data, blocks);
        assert buf[..] == was[64 * blocks..] + data[..thresh];
        Transform(buf[..]);
        i, blocks := thresh, blocks + 1;
        while (i + 64) % TWO32 <= size
          modifies `sum
          invariant thresh <= i <= size && |was| + i == 64 * blocks
          invariant sum == Chain(was + data, blocks)
          decreases size - i
        {
          if i + 64 > size {
            LastIndex(|was|, size, i, blocks);
            return false;
          }
          NextBlock(was, data, i, blocks);
          Transform(data[i..i + 64]);
          i, blocks := i + 64, blocks + 1;
        }
        LastIndex(|was|, size, i, blocks);
        index := 0;
      } else {
        SmallFits(|was|, size);
      }
      CopyInto(buf, index, data[i..]);
      if size >= thresh {
        CoversTail(sum, buf[..], was, data, i, blocks, buf[size - i..]);
      } else {
        CoversMore(sum, buf[..], was, data, blocks, buf[index + size..]);
      }
      inBounds := true;
    }

    method Transform(block: seq<byte>)
      requires |block| == 64
      modifies `sum
      ensures sum == Compress(old(sum), block)
    {
      hide Word, Steps, AddState;
      var x := new bv32[16];
      for i := 0 to 16
        modifies x
        invariant forall k :: 0 <= k < i ==> x[k] == Word(block[4 * k..4 * k + 4])
      {
        x[i] := Word(block[4 * i..4 * i + 4]);
      }
      var words := x[..];
      assert words == Words(block);
      StepsStart(sum, words);
      var r := Round1(sum, words, sum);
      r := Round2(r, words, sum);
      r := Round3(r, words, sum);
      r := Round4(r, words, sum);
      sum := AddState(sum, r);
    }

    /** Pads, appends the bit count, returns the digest and starts over. */
    method Final() returns (digest: seq<byte>)
      requires Valid()
      modifies this, buf
      ensures digest == Md5(old(fed))
      ensures Valid() && fed == []
      ensures cntLo == 0 && cntHi == 0 && sum == INITIAL && buf[..] == Zeros(64)
    {
      hide Chain, Counts, Covers, Fits, Le, LengthBytes, Padded, Md5, Output;
      ghost var m := fed;
      var padding := [0x80] + Zeros(63);
      var bits := Le(cntLo, 4) + Le(cntHi, 4);
      CountsBytes(cntLo, cntHi, |m|);
      ghost var filled, blocks := CoversElim(cntLo, cntHi, sum, buf[..], fed);
      var index := cntLo / 8 % 64;
      var padLen := if index < 56 then 56 - index else 120 - index;
      SmallFits(|fed|, padLen);
      var _ := Update(padding[..padLen]);
      SmallFits(|fed|, 8);
      var _ := Update(bits);
      PaddedParts(m, blocks, index, bits);
      filled, blocks := CoversElim(cntLo, cntHi, sum, buf[..], fed);
      digest := Output(sum);
      DigestOfPadded(sum, m, blocks, filled);
      Clear();
    }
  }

  /** How the input was cut into updates leaves no trace: counters, chaining value and buffered bytes agree. */
  lemma ChunksLeaveNoTrace(g: Hasher, h: Hasher)
    requires g.Valid() && h.Valid() && g.fed == h.fed
    ensures g.sum == h.sum && g.cntLo == h.cntLo && g.cntHi == h.cntHi
    ensures g.buf[..|g.fed| % 64] == h.buf[..|h.fed| % 64]
  {
    hide Chain;
  }

  /** The size of a chunk as the 32-bit parameter of update. */
  function Narrow(n: nat): nat {
    n % TWO32
  }

  lemma NarrowExact(data: seq<byte>)
    ensures Narrow(|data|) <= |data| && (data[..Narrow(|data|)] == data <==> |data| < TWO32)
    ensures Fits(0, Narrow(|data|)) <==> Narrow(|data|) < TWO32 - 64
  {
  }

  /** The digest of the first size modulo 2^32 bytes: of all the data exactly below 2^32. */
  method Calculate(data: seq<byte>) returns (inBounds: bool, digest: seq<byte>)
    ensures inBounds <==> |data| % TWO32 < TWO32 - 64
    ensures inBounds ==> digest == Md5(data[..|data| % TWO32])
    ensures |data| < TWO32 - 64 ==> inBounds && digest == Md5(data)
  {
    hide Md5, Fits, Counts, Covers, Chain, Padded;
    var r := new Hasher();
    NarrowExact(data);
    inBounds := r.Update(data[..Narrow(|data|)]);
    digest := [];
    if inBounds {
      assert [] + data[..Narrow(|data|)] == data[..Narrow(|data|)];
      digest := r.Final();
    }
  }

  /** The stream form: reads of 64 bytes while they succeed, then the short last read if it got anything. */
  method CalculateStream(stream: seq<byte>) returns (digest: seq<byte>)
    ensures digest == Md5(stream)
  {
    hide Md5, Fits, Counts, Covers, Chain, Padded;
    var r := new Hasher();
    var at := 0;
    while at + 64 <= |stream|
      invariant at <= |stream| && r.Valid() && fresh(r) && fresh(r.buf) && r.fed == stream[..at]
    {
      SmallFits(at, 64);
      var _ := r.Update(stream[at..at + 64]);
      assert stream[..at] + stream[at..at + 64] == stream[..at + 64];
      at := at + 64;
    }
    if at < |stream| {
      SmallFits(at, |stream| - at);
      var _ := r.Update(stream[at..]);
    }
    assert stream[..at] + stream[at..] == stream && r.fed == stream;
    digest := r.Final();
  }

  /** Every chunk fits behind the ones before it. */
  predicate AllFit(chunks: seq<seq<byte>>, n: nat)
    requires n <= |chunks|
  {
    forall i :: 0 <= i < n ==> Fits(|Flat(chunks[..i])|, |chunks[i]|)
  }

  lemma SmallChunksFit(chunks: seq<seq<byte>>)
    ensures (forall i :: 0 <= i < |chunks| ==> |chunks[i]| <= TWO32 - 128) ==> AllFit(chunks, |chunks|)
  {
    hide Flat;
  }

  /** Any list of chunks gives the digest of all of them in one, exactly as far as every chunk fits. */
  method CalculateChunks(chunks: seq<seq<byte>>) returns (inBounds: bool, digest: seq<byte>)
    requires forall i :: 0 <= i < |chunks| ==> |chunks[i]| < TWO32
    ensures inBounds == AllFit(chunks, |chunks|)
    ensures (forall i :: 0 <= i < |chunks| ==> |chunks[i]| <= TWO32 - 128) ==> inBounds
    ensures inBounds ==> digest == Md5(Flat(chunks))
  {
    SmallChunksFit(chunks);
    hide Md5, Fits, Counts, Covers, Chain, Padded, Flat;
    var r := new Hasher();
    var i := 0;
    assert Flat(chunks[..0]) == [] by { FlatNothing(chunks[..0]); }
    while i < |chunks|
      invariant i <= |chunks| && r.Valid() && fresh(r) && fresh(r.buf) && r.fed == Flat(chunks[..i])
      invariant AllFit(chunks, i)
    {
      FlatNext(chunks, i);
      inBounds := r.Update(chunks[i]);
      if !inBounds {
        return false, [];
      }
      i := i + 1;
    }
    assert chunks[..i] == chunks;
    inBounds := true;
    digest := r.Final();
  }
}
