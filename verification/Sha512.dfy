/**
 * The SHA-512 hasher: section 6.4.2 of FIPS 180-4 as the reference, and the streaming class with its
 * in-place round registers, 32-bit size arithmetic and four-byte length field.
 */
module Sha512 {
  import opened Bytes

  /** The lookup table of the class. */
  function Lut(t: nat): bv64
    requires t < 80
  {
    if t < 16 then
      if t < 4 then Pick4(t - 0, 0x428a2f98d728ae22, 0x7137449123ef65cd, 0xb5c0fbcfec4d3b2f, 0xe9b5dba58189dbbc)
      else if t < 8 then Pick4(t - 4, 0x3956c25bf348b538, 0x59f111f1b605d019, 0x923f82a4af194f9b, 0xab1c5ed5da6d8118)
      else if t < 12 then Pick4(t - 8, 0xd807aa98a3030242, 0x12835b0145706fbe, 0x243185be4ee4b28c, 0x550c7dc3d5ffb4e2)
      else Pick4(t - 12, 0x72be5d74f27b896f, 0x80deb1fe3b1696b1, 0x9bdc06a725c71235, 0xc19bf174cf692694)
    else if t < 32 then
      if t < 20 then Pick4(t - 16, 0xe49b69c19ef14ad2, 0xefbe4786384f25e3, 0x0fc19dc68b8cd5b5, 0x240ca1cc77ac9c65)
      else if t < 24 then Pick4(t - 20, 0x2de92c6f592b0275, 0x4a7484aa6ea6e483, 0x5cb0a9dcbd41fbd4, 0x76f988da831153b5)
      else if t < 28 then Pick4(t - 24, 0x983e5152ee66dfab, 0xa831c66d2db43210, 0xb00327c898fb213f, 0xbf597fc7beef0ee4)
      else Pick4(t - 28, 0xc6e00bf33da88fc2, 0xd5a79147930aa725, 0x06ca6351e003826f, 0x142929670a0e6e70)
    else if t < 48 then
      if t < 36 then Pick4(t - 32, 0x27b70a8546d22ffc, 0x2e1b21385c26c926, 0x4d2c6dfc5ac42aed, 0x53380d139d95b3df)
      else if t < 40 then Pick4(t - 36, 0x650a73548baf63de, 0x766a0abb3c77b2a8, 0x81c2c92e47edaee6, 0x92722c851482353b)
      else if t < 44 then Pick4(t - 40, 0xa2bfe8a14cf10364, 0xa81a664bbc423001, 0xc24b8b70d0f89791, 0xc76c51a30654be30)
      else Pick4(t - 44, 0xd192e819d6ef5218, 0xd69906245565a910, 0xf40e35855771202a, 0x106aa07032bbd1b8)
    else if t < 64 then
      if t < 52 then Pick4(t - 48, 0x19a4c116b8d2d0c8, 0x1e376c085141ab53, 0x2748774cdf8eeb99, 0x34b0bcb5e19b48a8)
      else if t < 56 then Pick4(t - 52, 0x391c0cb3c5c95a63, 0x4ed8aa4ae3418acb, 0x5b9cca4f7763e373, 0x682e6ff3d6b2b8a3)
      else if t < 60 then Pick4(t - 56, 0x748f82ee5defb2fc, 0x78a5636f43172f60, 0x84c87814a1f0ab72, 0x8cc702081a6439ec)
      else Pick4(t - 60, 0x90befffa23631e28, 0xa4506cebde82bde9, 0xbef9a3f7b2c67915, 0xc67178f2e372532b)
    else
      if t < 68 then Pick4(t - 64, 0xca273eceea26619c, 0xd186b8c721c0c207, 0xeada7dd6cde0eb1e, 0xf57d4f7fee6ed178)
      else if t < 72 then Pick4(t - 68, 0x06f067aa72176fba, 0x0a637dc5a2c898a6, 0x113f9804bef90dae, 0x1b710b35131c471b)
      else if t < 76 then Pick4(t - 72, 0x28db77f523047d84, 0x32caab7b40c72493, 0x3c9ebe0a15c9bebc, 0x431d67c49c100d4c)
      else Pick4(t - 76, 0x4cc5d4becb3e42b6, 0x597f299cfc657e2a, 0x5fcb6fab3ad6faec, 0x6c44198c4a475817)
  }

  /** The first eighty primes. */
  function Prime(t: nat): nat
    requires t < 80
  {
    if t < 16 then
      if t < 4 then Pick4(t - 0, 2, 3, 5, 7)
      else if t < 8 then Pick4(t - 4, 11, 13, 17, 19)
      else if t < 12 then Pick4(t - 8, 23, 29, 31, 37)
      else Pick4(t - 12, 41, 43, 47, 53)
    else if t < 32 then
      if t < 20 then Pick4(t - 16, 59, 61, 67, 71)
      else if t < 24 then Pick4(t - 20, 73, 79, 83, 89)
      else if t < 28 then Pick4(t - 24, 97, 101, 103, 107)
      else Pick4(t - 28, 109, 113, 127, 131)
    else if t < 48 then
      if t < 36 then Pick4(t - 32, 137, 139, 149, 151)
      else if t < 40 then Pick4(t - 36, 157, 163, 167, 173)
      else if t < 44 then Pick4(t - 40, 179, 181, 191, 193)
      else Pick4(t - 44, 197, 199, 211, 223)
    else if t < 64 then
      if t < 52 then Pick4(t - 48, 227, 229, 233, 239)
      else if t < 56 then Pick4(t - 52, 241, 251, 257, 263)
      else if t < 60 then Pick4(t - 56, 269, 271, 277, 281)
      else Pick4(t - 60, 283, 293, 307, 311)
    else
      if t < 68 then Pick4(t - 64, 313, 317, 331, 337)
      else if t < 72 then Pick4(t - 68, 347, 349, 353, 359)
      else if t < 76 then Pick4(t - 72, 367, 373, 379, 383)
      else Pick4(t - 76, 389, 397, 401, 409)
  }

  /** k is the first 64 bits of the fractional part of the cube root of p, whose integer part is c. */
  predicate CubeRootFraction(k: nat, p: nat, c: nat) {
    && k < TWO64
    && c * c * c <= p < (c + 1) * (c + 1) * (c + 1)
    && var r := c * TWO64 + k;
       r * r * r <= p * (TWO64 * TWO64 * TWO64) < (r + 1) * (r + 1) * (r + 1)
  }

  function Root(p: nat): nat {
    if p < 8 then 1 else if p < 27 then 2 else if p < 64 then 3 else if p < 125 then 4
    else if p < 216 then 5 else if p < 343 then 6 else 7
  }

  predicate RootsIn(t: nat, end: nat)
    requires t <= end <= 80
    decreases end - t
  {
    t == end || (CubeRootFraction(Lut(t) as nat, Prime(t), Root(Prime(t))) && RootsIn(t + 1, end))
  }

  predicate IsRoot(t: nat)
    requires t < 80
  {
    CubeRootFraction(Lut(t) as nat, Prime(t), Root(Prime(t)))
  }

  lemma Roots0()
    ensures RootsIn(0, 10)
  {
  }

  lemma Roots10()
    ensures RootsIn(10, 20)
  {
  }

  lemma Roots20()
    ensures RootsIn(20, 30)
  {
  }

  lemma Roots30()
    ensures RootsIn(30, 40)
  {
  }

  lemma Roots40()
    ensures RootsIn(40, 50)
  {
  }

  lemma Roots50()
    ensures RootsIn(50, 60)
  {
  }

  lemma Roots60()
    ensures RootsIn(60, 70)
  {
  }

  lemma Roots70()
    ensures RootsIn(70, 80)
  {
  }

  lemma {:induction false} RootsAt(from: nat, t: nat, end: nat)
    requires from <= t < end <= 80 && RootsIn(from, end)
    ensures IsRoot(t)
    decreases t - from
  {
    hide CubeRootFraction, Lut, Prime, Root;
    if from < t {
      RootsAt(from + 1, t, end);
    }
  }

  lemma AllRoots(t: nat)
    requires t < 80
    ensures IsRoot(t)
  {
    hide IsRoot, RootsIn;
    if t < 40 {
      RootsBelow40(t);
    } else {
      RootsFrom40(t);
    }
  }

  lemma RootsBelow40(t: nat)
    requires t < 40
    ensures IsRoot(t)
  {
    hide IsRoot, RootsIn;
    if t < 10 {
      Roots0();
      RootsAt(0, t, 10);
    } else if t < 20 {
      Roots10();
      RootsAt(10, t, 20);
    } else if t < 30 {
      Roots20();
      RootsAt(20, t, 30);
    } else {
      Roots30();
      RootsAt(30, t, 40);
    }
  }

  lemma RootsFrom40(t: nat)
    requires 40 <= t < 80
    ensures IsRoot(t)
  {
    hide IsRoot, RootsIn;
    if t < 50 {
      Roots40();
      RootsAt(40, t, 50);
    } else if t < 60 {
      Roots50();
      RootsAt(50, t, 60);
    } else if t < 70 {
      Roots60();
      RootsAt(60, t, 70);
    } else {
      Roots70();
      RootsAt(70, t, 80);
    }
  }

  /** Section 4.2.3: the round constants come from the cube roots of the first eighty primes. */
  lemma LutIsCubeRoots(t: nat)
    requires t < 80
    ensures CubeRootFraction(Lut(t) as nat, Prime(t), Root(Prime(t)))
  {
    AllRoots(t);
    hide CubeRootFraction, Lut, Prime, Root;
  }

  // ---------- FIPS 180-4 ----------

  // Eight 64-bit words.
  type State = s: seq<bv64> | |s| == 8 witness seq(8, _ => 0)

  const INITIAL: State := [
    0x6a09e667f3bcc908, 0xbb67ae8584caa73b, 0x3c6ef372fe94f82b, 0xa54ff53a5f1d36f1,
    0x510e527fade682d1, 0x9b05688c2b3e6c1f, 0x1f83d9abfb41bd6b, 0x5be0cd19137e2179]

  /** k is the first 64 bits of the fractional part of the square root of p, whose integer part is c. */
  predicate SquareRootFraction(k: nat, p: nat, c: nat) {
    && k < TWO64
    && c * c <= p < (c + 1) * (c + 1)
    && var r := c * TWO64 + k;
       r * r <= p * (TWO64 * TWO64) < (r + 1) * (r + 1)
  }

  /** Section 5.3.5: the initial words come from the square roots of the first eight primes. */
  lemma InitialIsSquareRoots()
    ensures SquareRootFraction(INITIAL[0] as nat, 2, 1) && SquareRootFraction(INITIAL[1] as nat, 3, 1)
    ensures SquareRootFraction(INITIAL[2] as nat, 5, 2) && SquareRootFraction(INITIAL[3] as nat, 7, 2)
    ensures SquareRootFraction(INITIAL[4] as nat, 11, 3) && SquareRootFraction(INITIAL[5] as nat, 13, 3)
    ensures SquareRootFraction(INITIAL[6] as nat, 17, 4) && SquareRootFraction(INITIAL[7] as nat, 19, 4)
  {
  }

  // The logical functions of section 4.1.3.
  function Ch(x: bv64, y: bv64, z: bv64): bv64 { (x & y) ^ (!x & z) }
  function Maj(x: bv64, y: bv64, z: bv64): bv64 { (x & y) ^ (x & z) ^ (y & z) }
  function BigSigma0(x: bv64): bv64 { ((x >> 28) | (x << 36)) ^ ((x >> 34) | (x << 30)) ^ ((x >> 39) | (x << 25)) }
  function BigSigma1(x: bv64): bv64 { ((x >> 14) | (x << 50)) ^ ((x >> 18) | (x << 46)) ^ ((x >> 41) | (x << 23)) }
  function SmallSigma0(x: bv64): bv64 { ((x >> 1) | (x << 63)) ^ ((x >> 8) | (x << 56)) ^ (x >> 7) }
  function SmallSigma1(x: bv64): bv64 { ((x >> 19) | (x << 45)) ^ ((x >> 61) | (x << 3)) ^ (x >> 6) }

  function Mix(w2: bv64, w7: bv64, w15: bv64, w16: bv64): bv64 {
    SmallSigma1(w2) + w7 + SmallSigma0(w15) + w16
  }

  /** The message schedule. */
  function W(m: seq<bv64>, t: nat): bv64
    requires |m| == 16
  {
    if t < 16 then m[t] else Mix(W(m, t - 2), W(m, t - 7), W(m, t - 15), W(m, t - 16))
  }

  function T1(e: bv64, f: bv64, g: bv64, h: bv64, k: bv64, w: bv64): bv64 {
    h + BigSigma1(e) + Ch(e, f, g) + k + w
  }

  function T2(a: bv64, b: bv64, c: bv64): bv64 {
    BigSigma0(a) + Maj(a, b, c)
  }

  function Plus(x: bv64, y: bv64): bv64 { x + y }

  function Round(s: State, k: bv64, w: bv64): State {
    var t1, t2 := T1(s[4], s[5], s[6], s[7], k, w), T2(s[0], s[1], s[2]);
    [Plus(t1, t2), s[0], s[1], s[2], Plus(s[3], t1), s[4], s[5], s[6]]
  }

  function Rounds(t: nat, s: State, m: seq<bv64>): State
    requires |m| == 16 && t <= 80
  {
    if t == 0 then s else Round(Rounds(t - 1, s, m), Lut(t - 1), W(m, t - 1))
  }

  function AddState(s: State, r: State): State {
    seq(8, i requires 0 <= i < 8 => Plus(s[i], r[i]))
  }

  function Word(b: seq<byte>): bv64
    requires |b| == 8
  {
    (b[7] as bv64) | ((b[6] as bv64) << 8) | ((b[5] as bv64) << 16) | ((b[4] as bv64) << 24)
    | ((b[3] as bv64) << 32) | ((b[2] as bv64) << 40) | ((b[1] as bv64) << 48) | ((b[0] as bv64) << 56)
  }

  lemma WordJoined(b: seq<byte>, u: bv32, v: bv32)
    requires |b| == 8
    requires u == (b[3] as bv32) | ((b[2] as bv32) << 8) | ((b[1] as bv32) << 16) | ((b[0] as bv32) << 24)
    requires v == (b[7] as bv32) | ((b[6] as bv32) << 8) | ((b[5] as bv32) << 16) | ((b[4] as bv32) << 24)
    ensures Word(b) == ((u as bv64) << 32) | (v as bv64)
  {
  }

  /** The number that the word is. */
  lemma WordValue(b: seq<byte>)
    requires |b| == 8
    ensures Word(b) as nat == TWO32 * BeNumber(b[..4]) + BeNumber(b[4..])
  {
    var u: bv32 := (b[3] as bv32) | ((b[2] as bv32) << 8) | ((b[1] as bv32) << 16) | ((b[0] as bv32) << 24);
    var v: bv32 := (b[7] as bv32) | ((b[6] as bv32) << 8) | ((b[5] as bv32) << 16) | ((b[4] as bv32) << 24);
    WordJoined(b, u, v);
    hide Word;
    JoinHalves(u, v);
    BigEndianValue(b[0], b[1], b[2], b[3], u);
    BigEndianValue(b[4], b[5], b[6], b[7], v);
    assert b[..4] == [b[0], b[1], b[2], b[3]] && b[4..] == [b[4], b[5], b[6], b[7]];
  }

  function Words(block: seq<byte>): (w: seq<bv64>)
    requires |block| == 128
    ensures |w| == 16
  {
    seq(16, i requires 0 <= i < 16 => Word(block[8 * i..8 * i + 8]))
  }

  /** Word i is the number that bytes 8 * i to 8 * i + 7 are, most significant first. */
  lemma WordsValue(block: seq<byte>, i: nat)
    requires |block| == 128 && i < 16
    ensures Words(block)[i] as nat == TWO32 * BeNumber(block[8 * i..8 * i + 4]) + BeNumber(block[8 * i + 4..8 * i + 8])
  {
    hide Word;
    var b := block[8 * i..8 * i + 8];
    WordValue(b);
    assert b[..4] == block[8 * i..8 * i + 4] && b[4..] == block[8 * i + 4..8 * i + 8];
  }

  function Compress(s: State, block: seq<byte>): State
    requires |block| == 128
  {
    AddState(s, Rounds(80, s, Words(block)))
  }

  /** From chaining value s, compress the first k blocks of data. */
  function Chain(s: State, data: seq<byte>, k: nat): State
    requires 128 * k <= |data|
  {
    if k == 0 then s else Compress(Chain(s, data, k - 1), data[128 * (k - 1)..128 * k])
  }

  function PadZeros(n: nat): nat {
    (111 - n) % 128
  }

  /** Section 5.1.2: the length field has 16 bytes. */
  function Padded(m: seq<byte>): seq<byte> {
    m + [0x80] + Zeros(PadZeros(|m|)) + Be(8 * |m|, 16)
  }

  function Sha512(m: seq<byte>): State {
    var p := Padded(m);
    Chain(INITIAL, p, |p| / 128)
  }

  /** The padding of the code: only the last four bytes of the length field are written. */
  function CodePadded(m: seq<byte>): seq<byte> {
    m + ([0x80] + Zeros(PadZeros(|m|) + 12) + Be(8 * |m|, 4))
  }

  function CodeSha512(m: seq<byte>): State {
    var p := CodePadded(m);
    Chain(INITIAL, p, |p| / 128)
  }

  /** For every message the standard admits, the paddings agree exactly below 2^29 bytes. */
  lemma PaddingExact(m: seq<byte>)
    requires 8 * |m| < TWO64 * TWO64
    ensures CodePadded(m) == Padded(m) <==> |m| < 0x2000_0000
  {
    hide Be;
    var n := 8 * |m|;
    var lo, hi := n % TWO32, n / TWO32;
    Pow256Values();
    hide Pow256;
    BeSplit(lo, hi, 12, 4);
    assert Be(n, 16) == Be(hi, 12) + Be(lo, 4);
    BeInjective(n, lo, 4);
    BeInjective(hi, 0, 12);
    BeZero(12);
    var front := m + [0x80] + Zeros(PadZeros(|m|));
    assert CodePadded(m) == front + (Zeros(12) + Be(n, 4));
    assert Padded(m) == front + Be(n, 16);
    assert CodePadded(m)[|front|..] == Zeros(12) + Be(n, 4) && Padded(m)[|front|..] == Be(n, 16);
    assert (Zeros(12) + Be(n, 4))[..12] == Zeros(12) && Be(n, 16)[..12] == Be(hi, 12);
  }

  /** From 2^29 bytes on, the length field is not that of the standard. */
  lemma LongMessageMispadded()
    ensures CodePadded(Zeros(0x2000_0000)) != Padded(Zeros(0x2000_0000))
  {
    hide CodePadded, Padded;
    PaddingExact(Zeros(0x2000_0000));
  }

  lemma {:induction false} BeZero(k: nat)
    ensures Be(0, k) == Zeros(k)
  {
    if k != 0 {
      BeZero(k - 1);
    }
  }

  // ---------- Chaining ----------

  lemma {:induction false} ChainPrefix(s: State, a: seq<byte>, b: seq<byte>, k: nat)
    requires 128 * k <= |a|
    ensures Chain(s, a + b, k) == Chain(s, a, k)
  {
    hide Compress;
    if k != 0 {
      ChainPrefix(s, a, b, k - 1);
      assert (a + b)[128 * (k - 1)..128 * k] == a[128 * (k - 1)..128 * k];
    }
  }

  lemma {:induction false} ChainSplit(s: State, data: seq<byte>, j: nat, k: nat)
    requires 128 * (j + k) <= |data|
    ensures Chain(s, data, j + k) == Chain(Chain(s, data, j), data[128 * j..], k)
  {
    hide Compress;
    if k != 0 {
      ChainSplit(s, data, j, k - 1);
      SliceOfTail(data, 128 * j, 128 * (k - 1), 128 * k);
    }
  }

  lemma ChainNext(s: State, data: seq<byte>, k: nat)
    requires 128 * (k + 1) <= |data|
    ensures Chain(s, data, k + 1) == Compress(Chain(s, data, k), data[128 * k..128 * (k + 1)])
  {
    hide Compress;
  }

  lemma RoundsStart(s: State, m: seq<bv64>)
    requires |m| == 16
    ensures Rounds(0, s, m) == s
  {
  }

  /** Equal modulo 2^32. */
  predicate Agree(x: nat, y: nat) {
    x % TWO32 == y % TWO32
  }

  /**
   * The byte counter, a 64-bit number, and how often an update of nearly 2^32 bytes has added nothing to it
   * because its byte count is a 32-bit number.
   */
  ghost predicate Counted(iterations: nat, wraps: nat, blocks: nat) {
    iterations < TWO64 && exists k: int :: iterations + TWO32 * wraps == 128 * blocks + Turns(k)
  }

  function Turns(k: int): int {
    TWO64 * k
  }

  lemma NothingCounted()
    ensures Counted(0, 0, 0)
  {
    assert Turns(0) == 0;
  }

  /** The blocks of an update with nb full blocks behind the topped-up buffer. */
  function Added(nb: nat): nat {
    128 * (nb + 1)
  }

  lemma CountedStep(iterations: nat, wraps: nat, blocks: nat, nb: nat)
    requires Counted(iterations, wraps, blocks)
    ensures Counted(U64(iterations + Added(nb) % TWO32), wraps + Added(nb) / TWO32, blocks + 1 + nb)
  {
    var k :| iterations + TWO32 * wraps == 128 * blocks + Turns(k);
    var x := iterations + Added(nb) % TWO32;
    var q, j := Added(nb) / TWO32, x / TWO64;
    assert Added(nb) == TWO32 * q + Added(nb) % TWO32 && x == TWO64 * j + U64(x);
    assert Turns(k - j) == Turns(k) - TWO64 * j;
  }

  lemma CountedAgrees(iterations: nat, wraps: nat, blocks: nat)
    requires Counted(iterations, wraps, blocks)
    ensures Agree(iterations, 128 * blocks)
  {
    var k :| iterations + TWO32 * wraps == 128 * blocks + Turns(k);
    var q, r := 128 * blocks / TWO32, 128 * blocks % TWO32;
    ModUnique(iterations, TWO32, q + TWO32 * k - wraps, r);
  }

  /** The counter is the number of hashed bytes modulo 2^64 exactly when the wraps are a multiple of 2^32. */
  lemma CountedExact(iterations: nat, wraps: nat, blocks: nat)
    requires Counted(iterations, wraps, blocks)
    ensures iterations == U64(128 * blocks) <==> wraps % TWO32 == 0
  {
    var k :| iterations + TWO32 * wraps == 128 * blocks + Turns(k);
    var n := 128 * blocks;
    var q, r := n / TWO64, U64(n);
    var c := wraps / TWO32;
    if wraps % TWO32 == 0 {
      assert iterations == TWO64 * (q + k - c) + r;
      ModUnique(iterations, TWO64, q + k - c, r);
      ModUnique(iterations, TWO64, 0, iterations);
    } else if iterations == r {
      assert TWO32 * wraps == TWO32 * (TWO32 * (q + k));
      ModUnique(wraps, TWO32, q + k, 0);
    }
  }

  /** The bytes of one update that are hashed when sz bytes are already buffered. */
  function Taken(sz: nat, data: seq<byte>): seq<byte>
    requires sz < 128
  {
    if |data| < 128 - sz then data else data[..128 - sz + (|data| - (128 - sz)) % TWO32]
  }

  /** All bytes are hashed exactly when those after the top-up number less than 2^32. */
  lemma TakenExact(sz: nat, data: seq<byte>)
    requires sz < 128
    ensures Taken(sz, data) == data <==> |data| < TWO32 + 128 - sz
  {
  }

  /** Whether an update of these bytes adds nothing to the byte counter. */
  function Wraps(sz: nat, data: seq<byte>): nat
    requires sz < 128
  {
    if |data| >= 128 - sz && (|data| - (128 - sz)) % TWO32 >= TWO32 - 128 then 1 else 0
  }

  class Hasher {
    var sum: State
    const block: array<byte>
    var sz: nat
    var iterations: nat
    ghost var fed: seq<byte>
    ghost var blocks: nat
    ghost var wraps: nat

    ghost predicate Valid()
      reads this, block
    {
      && block.Length == 256
      && sz < 128 && |fed| == 128 * blocks + sz
      && block[..sz] == fed[128 * blocks..]
      && sum == Chain(INITIAL, fed, blocks)
      && Counted(iterations, wraps, blocks)
    }

    constructor ()
      ensures Valid() && fed == [] && wraps == 0 && fresh(block)
    {
      block := new byte[256];
      new;
      Clear();
    }

    method Clear()
      requires block.Length == 256
      modifies this, block
      ensures Valid() && fed == [] && wraps == 0
      ensures sz == 0 && iterations == 0 && sum == INITIAL && block[..] == Zeros(256)
    {
      hide Compress;
      sum := INITIAL;
      sz := 0;
      iterations := 0;
      forall i | 0 <= i < 256 {
        block[i] := 0;
      }
      fed, blocks, wraps := [], 0, 0;
      NothingCounted();
    }

    /**
     * The byte counts are 32-bit numbers once the buffer has been topped up, so only that many
     * further bytes of a huge update are used.
     */
    method Update(data: seq<byte>)
      requires Valid()
      modifies this, block
      ensures Valid() && fed == old(fed) + Taken(old(sz), data) && wraps == old(wraps) + Wraps(old(sz), data)
    {
      hide Chain, Compress, Counted, Taken, U64;
      var size := |data|;
      var n := 128 - sz;
      var nTail := if size < n then size else n;
      ghost var was, rest := fed, block[sz + nTail..];
      TakenIs(sz, data);
      CopyInto(block, sz, data[..nTail]);
      assert block[..] == was[128 * blocks..] + data[..nTail] + rest;
      if sz + size < 128 {
        sz := sz + size;
        fed := fed + data;
        ChainPrefix(INITIAL, was, data, blocks);
        return;
      }
      TransformAll(data, nTail);
    }

    /** The second half of update: the topped-up buffer, the full blocks of the data, and the new rest. */
    method TransformAll(data: seq<byte>, filled: nat)
      requires block.Length == 256 && sz < 128 && |fed| == 128 * blocks + sz
      requires filled == 128 - sz <= |data| && block[..128] == fed[128 * blocks..] + data[..filled]
      requires sum == Chain(INITIAL, fed, blocks) && Counted(iterations, wraps, blocks)
      modifies this, block
      ensures Valid() && fed == old(fed) + Taken(old(sz), data) && wraps == old(wraps) + Wraps(old(sz), data)
    {
      hide Chain, Compress, Counted, Taken, U64, Narrow, Wraps, Added;
      TakenLength(sz, data);
      var n := Narrow(|data| - filled);
      var nb, nTail := Blocks(n);
      var p := data[filled..];
      Transform(block[..], 1);
      Transform(p, nb);
      BlocksTaken(fed, data, blocks, sz, block[..], nb, nTail);
      fed := fed + Taken(sz, data);
      KeepRest(p[128 * nb..128 * nb + nTail]);
      WrapsIs(sz, data, nb, nTail);
      AddBlocks(nb);
      sz := nTail;
    }

    /** The rest goes to the front of the buffer. */
    method KeepRest(rest: seq<byte>)
      requires |rest| <= block.Length
      modifies block
      ensures block[..|rest|] == rest
    {
      CopyInto(block, 0, rest);
      assert block[..|rest|] == block[..][..|rest|];
    }

    /** Counts the topped-up buffer and nb blocks in 32-bit arithmetic. */
    method AddBlocks(nb: nat)
      requires Counted(iterations, wraps, blocks)
      modifies `iterations, `blocks, `wraps
      ensures Counted(iterations, wraps, blocks)
      ensures blocks == old(blocks) + 1 + nb && wraps == old(wraps) + Added(nb) / TWO32
    {
      hide Counted, U64;
      CountedStep(iterations, wraps, blocks, nb);
      iterations := U64(iterations + Added(nb) % TWO32);
      blocks, wraps := blocks + 1 + nb, wraps + Added(nb) / TWO32;
    }

    /** Pads inside the buffer, stores the bit count and returns the digest words; the object starts over. */
    method Final() returns (digest: State)
      requires Valid()
      modifies this, block
      ensures digest == CodeSha512(old(fed))
      ensures |old(fed)| < 0x2000_0000 ==> digest == Sha512(old(fed))
      ensures Valid() && fed == [] && wraps == 0
      ensures sz == 0 && iterations == 0 && sum == INITIAL && block[..] == Zeros(256)
    {
      hide Chain, Compress, Counted, Agree, U64, CodeSha512, Sha512, Be, CodePadded;
      ghost var m, tail := fed, block[..sz];
      var nb := if 0x80 - 17 < sz % 128 then 2 else 1;
      var nTotal := U64((iterations + sz) * 8);
      PadBuffer(128 * nb, Be(nTotal, 4));
      ghost var padded := block[..];
      Transform(block[..], nb);
      CountedAgrees(iterations, wraps, blocks);
      PaddedInBuffer(m, blocks, sz, iterations, padded, nb);
      digest := sum;
      if |m| < 0x2000_0000 {
        SmallIsSha512(m);
      }
      Clear();
    }

    /** The rest, a one bit, zeros and the length field fill n bytes of the buffer. */
    method PadBuffer(n: nat, length: seq<byte>)
      requires sz + 5 <= n <= block.Length && |length| == 4
      modifies block
      ensures block[..n] == old(block[..sz]) + ([0x80] + Zeros(n - sz - 5) + length)
    {
      ghost var tail := block[..sz];
      forall i | sz <= i < n {
        block[i] := 0;
      }
      block[sz] := 0x80;
      assert block[..n - 4] == tail + [0x80] + Zeros(n - sz - 5);
      CopyInto(block, n - 4, length);
      assert block[..n] == block[..n - 4] + length;
    }

    /** Decodes one block into the first sixteen schedule words and extends them. */
    method Schedule(w: array<bv64>, b: seq<byte>)
      requires w.Length == 80 && |b| == 128
      modifies w
      ensures forall t :: 0 <= t < 80 ==> w[t] == W(Words(b), t)
    {
      hide Word, Mix, W;
      ghost var m := Words(b);
      for j := 0 to 16
        invariant forall t :: 0 <= t < j ==> w[t] == W(m, t)
      {
        FirstWords(b, j);
        w[j] := Word(b[8 * j..8 * j + 8]);
      }
      for j := 16 to 80
        invariant forall t :: 0 <= t < j ==> w[t] == W(m, t)
      {
        NextWord(m, j);
        w[j] := Mix(w[j - 2], w[j - 7], w[j - 15], w[j - 16]);
      }
    }

    method Transform(data: seq<byte>, size: nat)
      requires 128 * size <= |data|
      modifies `sum
      ensures sum == Chain(old(sum), data, size)
    {
      hide Round, Rounds, Compress, Plus;
      var v := new bv64[8];
      var w := new bv64[80];
      for i := 0 to size
        modifies `sum, v, w
        invariant sum == Chain(old(sum), data, i)
      {
        ghost var s, m := sum, Words(data[128 * i..128 * i + 128]);
        Schedule(w, data[128 * i..128 * i + 128]);
        for j := 0 to 8
          modifies v
          invariant forall k :: 0 <= k < j ==> v[k] == sum[k]
        {
          v[j] := sum[j];
        }
        assert v[..] == s;
        RoundsStart(s, m);
        for j := 0 to 80
          modifies v
          invariant v[..] == Rounds(j, s, m)
        {
          RoundInPlace(v, j, w[j], s, m);
        }
        for j := 0 to 8
          modifies `sum
          invariant forall k :: 0 <= k < j ==> sum[k] == Plus(s[k], v[k])
          invariant forall k :: j <= k < 8 ==> sum[k] == s[k]
        {
          sum := sum[j := Plus(sum[j], v[j])];
        }
        CompressIs(s, data[128 * i..128 * i + 128], v[..]);
        assert sum == AddState(s, v[..]);
        ChainNext(old(sum), data, i);
      }
    }

    /** One pass of the round loop over the eight registers. */
    method RoundInPlace(v: array<bv64>, j: nat, w: bv64, ghost s: State, ghost m: seq<bv64>)
      requires v.Length == 8 && |m| == 16 && j < 80 && w == W(m, j) && v[..] == Rounds(j, s, m)
      modifies v
      ensures v[..] == Rounds(j + 1, s, m)
    {
      hide T1, T2, Plus, Lut, W, Rounds;
      RoundsNext(j, s, m);
      var t := T1(v[4], v[5], v[6], v[7], Lut(j), w);
      var u := T2(v[0], v[1], v[2]);
      RoundIs(v[..], Lut(j), w, t, u);
      hide Round;
      ShiftIn(v, Plus(v[3], t), Plus(t, u));
    }
  }

  lemma FirstWords(b: seq<byte>, j: nat)
    requires |b| == 128 && j < 16
    ensures W(Words(b), j) == Word(b[8 * j..8 * j + 8])
  {
    hide Word;
  }

  lemma NextWord(m: seq<bv64>, j: nat)
    requires |m| == 16 && 16 <= j
    ensures W(m, j) == Mix(W(m, j - 2), W(m, j - 7), W(m, j - 15), W(m, j - 16))
  {
    hide Mix;
  }

  /** The registers move up by one; the fifth and the first get new values. */
  method ShiftIn<T>(v: array<T>, e: T, a: T)
    requires v.Length == 8
    modifies v
    ensures v[..] == var r := old(v[..]); [a, r[0], r[1], r[2], e, r[4], r[5], r[6]]
  {
    v[7] := v[6];
    v[6] := v[5];
    v[5] := v[4];
    v[4] := e;
    v[3] := v[2];
    v[2] := v[1];
    v[1] := v[0];
    v[0] := a;
  }

  lemma RoundIs(s: State, k: bv64, w: bv64, t: bv64, u: bv64)
    requires t == T1(s[4], s[5], s[6], s[7], k, w) && u == T2(s[0], s[1], s[2])
    ensures Round(s, k, w) == [Plus(t, u), s[0], s[1], s[2], Plus(s[3], t), s[4], s[5], s[6]]
  {
    hide T1, T2, Plus;
  }

  lemma RoundsNext(j: nat, s: State, m: seq<bv64>)
    requires |m| == 16 && j < 80
    ensures Rounds(j + 1, s, m) == Round(Rounds(j, s, m), Lut(j), W(m, j))
  {
    hide Round, Lut, W;
  }

  lemma CompressIs(s: State, b: seq<byte>, r: State)
    requires |b| == 128 && r == Rounds(80, s, Words(b))
    ensures Compress(s, b) == AddState(s, r)
  {
    hide Rounds, AddState;
  }

  lemma TakenIs(sz: nat, data: seq<byte>)
    requires sz < 128
    ensures sz + |data| < 128 ==> Taken(sz, data) == data
    ensures sz + |data| >= 128 ==>
      var n := (|data| - (128 - sz)) % TWO32;
      128 - sz + n <= |data| && Taken(sz, data) == data[..128 - sz + n]
  {
  }

  /** A size as a 32-bit number. */
  function Narrow(n: nat): nat {
    n % TWO32
  }

  /** The full blocks in n bytes, and the rest. */
  method Blocks(n: nat) returns (nb: nat, nTail: nat)
    ensures n == 128 * nb + nTail && nTail < 128
  {
    nb, nTail := n / 128, n % 128;
  }

  lemma WrapsIs(sz: nat, data: seq<byte>, nb: nat, nTail: nat)
    requires sz < 128 && |data| >= 128 - sz && nTail < 128
    requires Narrow(|data| - (128 - sz)) == 128 * nb + nTail
    ensures Added(nb) / TWO32 == Wraps(sz, data)
  {
    var q := Wraps(sz, data);
    ModUnique(Added(nb), TWO32, q, Added(nb) - TWO32 * q);
  }

  lemma TakenLength(sz: nat, data: seq<byte>)
    requires sz < 128 && sz + |data| >= 128
    ensures |Taken(sz, data)| == 128 - sz + Narrow(|data| - (128 - sz)) <= |data|
  {
  }

  /** Both transforms of an update together: the topped-up buffer, then nb blocks of the data. */
  lemma BlocksTaken(was: seq<byte>, data: seq<byte>, blocks: nat, sz: nat, buffer: seq<byte>, nb: nat, nTail: nat)
    requires |was| == 128 * blocks + sz && sz < 128 && 128 - sz + 128 * nb + nTail == |Taken(sz, data)|
    requires |buffer| >= 128 && buffer[..128] == was[128 * blocks..] + data[..128 - sz] && |data| + sz >= 128
    ensures 128 * nb + nTail <= |data[128 - sz..]| && 128 <= |buffer|
    ensures |was + Taken(sz, data)| == 128 * (blocks + 1 + nb) + nTail
    ensures (was + Taken(sz, data))[128 * (blocks + 1 + nb)..] == data[128 - sz..][128 * nb..128 * nb + nTail]
    ensures Chain(Chain(Chain(INITIAL, was, blocks), buffer, 1), data[128 - sz..], nb)
         == Chain(INITIAL, was + Taken(sz, data), blocks + 1 + nb)
  {
    hide Compress, Taken;
    var t := Taken(sz, data);
    TakenIs(sz, data);
    var all := was + t;
    ChainPrefix(INITIAL, was, t, blocks);
    ChainNext(INITIAL, all, blocks);
    assert all[128 * blocks..128 * (blocks + 1)] == buffer[..128];
    ChainNext(Chain(INITIAL, was, blocks), buffer, 0);
    ChainSplit(INITIAL, all, blocks + 1, nb);
    var p := data[128 - sz..];
    assert all[128 * (blocks + 1)..] + p[|t| - (128 - sz)..] == p;
    ChainPrefix(Chain(INITIAL, all, blocks + 1), all[128 * (blocks + 1)..], p[|t| - (128 - sz)..], nb);
  }

  lemma SmallIsSha512(m: seq<byte>)
    requires |m| < 0x2000_0000
    ensures CodeSha512(m) == Sha512(m)
  {
    hide Chain, Padded, CodePadded;
    PaddingExact(m);
  }

  lemma CodePaddedRest(m: seq<byte>, blocks: nat, sz: nat, n: nat)
    requires |m| == 128 * blocks + sz && sz < 128 && n == if sz > 111 then 251 - sz else 123 - sz
    ensures CodePadded(m) == m + ([0x80] + Zeros(n) + Be(8 * |m|, 4))
  {
    hide Be, PadZeros, Zeros, CodePadded;
    PadZerosIs(|m|, blocks, sz);
    CodePaddedIs(m, n);
  }

  lemma CodePaddedIs(m: seq<byte>, n: nat)
    requires n == PadZeros(|m|) + 12
    ensures CodePadded(m) == m + ([0x80] + Zeros(n) + Be(8 * |m|, 4))
  {
    hide Be, Zeros;
  }

  lemma PadZerosIs(n: nat, blocks: nat, sz: nat)
    requires n == 128 * blocks + sz && sz < 128
    ensures PadZeros(n) == if sz > 111 then 239 - sz else 111 - sz
  {
    var r := if sz > 111 then 239 - sz else 111 - sz;
    ModUnique(111 - n, 128, (111 - n - r) / 128, r);
  }

  /** What final transforms is the rest of the padded message. */
  lemma PaddedInBuffer(m: seq<byte>, blocks: nat, sz: nat, iterations: nat, buffer: seq<byte>, nb: nat)
    requires |m| == 128 * blocks + sz && sz < 128 && Agree(iterations, 128 * blocks)
    requires nb == if sz > 111 then 2 else 1
    requires |buffer| == 256
    requires buffer[..128 * nb] == m[128 * blocks..] + ([0x80] + Zeros(128 * nb - sz - 5) + Be(U64((iterations + sz) * 8), 4))
    ensures Chain(Chain(INITIAL, m, blocks), buffer, nb) == CodeSha512(m)
  {
    hide Chain, Be, Compress, CodePadded, U64, Agree, CodeSha512, Zeros;
    LengthAgrees(iterations, blocks, sz);
    CodePaddedRest(m, blocks, sz, 128 * nb - sz - 5);
    var tail := [0x80] + Zeros(128 * nb - sz - 5) + Be(8 * |m|, 4);
    ChainTail(m, blocks, tail, buffer, nb);
    CodeSha512Is(m, m + tail, blocks + nb);
  }

  lemma ChainTail(m: seq<byte>, blocks: nat, tail: seq<byte>, buffer: seq<byte>, nb: nat)
    requires 128 * blocks <= |m| && 128 * (blocks + nb) == |m| + |tail| && 128 * nb <= |buffer|
    requires buffer[..128 * nb] == m[128 * blocks..] + tail
    ensures Chain(Chain(INITIAL, m, blocks), buffer, nb) == Chain(INITIAL, m + tail, blocks + nb)
  {
    hide Chain, Compress;
    ChainPrefix(INITIAL, m, tail, blocks);
    ChainSplit(INITIAL, m + tail, blocks, nb);
    assert (m + tail)[128 * blocks..] == buffer[..128 * nb];
    assert buffer == buffer[..128 * nb] + buffer[128 * nb..];
    ChainPrefix(Chain(INITIAL, m, blocks), buffer[..128 * nb], buffer[128 * nb..], nb);
  }

  lemma CodeSha512Is(m: seq<byte>, p: seq<byte>, k: nat)
    requires p == CodePadded(m) && |p| == 128 * k
    ensures CodeSha512(m) == Chain(INITIAL, p, k)
  {
    hide Chain, CodePadded;
  }

  lemma LengthAgrees(iterations: nat, blocks: nat, sz: nat)
    requires Agree(iterations, 128 * blocks)
    ensures Be(U64((iterations + sz) * 8), 4) == Be(8 * (128 * blocks + sz), 4)
  {
    hide Be;
    var x, y := (iterations + sz) * 8, 8 * (128 * blocks + sz);
    var i, j, r := iterations / TWO32, 128 * blocks / TWO32, iterations % TWO32;
    assert x == TWO32 * (8 * i) + 8 * (r + sz) && y == TWO32 * (8 * j) + 8 * (r + sz);
    var k := 8 * (r + sz);
    var u := x / TWO64;
    assert U64(x) == TWO32 * (8 * i - TWO32 * u) + k;
    ModUnique(U64(x), TWO32, 8 * i - TWO32 * u + k / TWO32, k % TWO32);
    ModUnique(y, TWO32, 8 * j + k / TWO32, k % TWO32);
    Pow256Values();
    BeInjective(U64(x), y, 4);
  }

  /**
   * How the input was cut into updates leaves no trace in chaining value and buffer, as long as no update
   * drops bytes; the byte counters agree if and only if their wraps do, modulo 2^32.
   */
  lemma ChunksLeaveNoTrace(g: Hasher, h: Hasher)
    requires g.Valid() && h.Valid() && g.fed == h.fed
    ensures g.sum == h.sum && g.sz == h.sz && g.block[..g.sz] == h.block[..h.sz]
    ensures g.iterations == h.iterations <==> g.wraps % TWO32 == h.wraps % TWO32
  {
    hide Chain, Counted;
    ModUnique(|g.fed|, 128, g.blocks, g.sz);
    ModUnique(|h.fed|, 128, h.blocks, h.sz);
    SameCount(g.iterations, g.wraps, h.iterations, h.wraps, g.blocks);
  }

  lemma SameCount(i: nat, v: nat, j: nat, w: nat, blocks: nat)
    requires Counted(i, v, blocks) && Counted(j, w, blocks)
    ensures i == j <==> v % TWO32 == w % TWO32
  {
    var k :| i + TWO32 * v == 128 * blocks + Turns(k);
    var l :| j + TWO32 * w == 128 * blocks + Turns(l);
    var a, b := v / TWO32, w / TWO32;
    if i == j {
      assert TWO32 * v == TWO32 * (w + TWO32 * (k - l));
      ModUnique(v, TWO32, b + k - l, w % TWO32);
    } else if v % TWO32 == w % TWO32 {
      assert i - j == TWO64 * (k - l - a + b);
      ModUnique(i, TWO64, 0, i);
      ModUnique(i, TWO64, k - l - a + b, j);
    }
  }

  /** The byte counter of an object is the number of hashed bytes exactly when its wraps are a multiple of 2^32. */
  lemma CounterExact(h: Hasher)
    requires h.Valid()
    ensures h.iterations == U64(|h.fed| - h.sz) <==> h.wraps % TWO32 == 0
  {
    hide Chain, Counted, Turns, U64;
    CountedExact(h.iterations, h.wraps, h.blocks);
    assert |h.fed| - h.sz == 128 * h.blocks;
  }

  method Calculate(data: seq<byte>) returns (digest: State)
    ensures |data| < 0x2000_0000 ==> digest == Sha512(data)
    ensures |data| < TWO32 + 128 ==> digest == CodeSha512(data)
  {
    hide CodeSha512, Sha512, Chain, Taken, Counted;
    var r := new Hasher();
    r.Update(data);
    TakenExact(0, data);
    assert [] + Taken(0, data) == Taken(0, data);
    digest := r.Final();
  }

  /** The stream form: reads of 64 bytes while they succeed, then the short last read if it got anything. */
  method CalculateStream(stream: seq<byte>) returns (digest: State)
    ensures digest == CodeSha512(stream)
  {
    hide CodeSha512, Sha512, Chain, Taken, Counted;
    var r := new Hasher();
    var at := 0;
    while at + 64 <= |stream|
      invariant at <= |stream| && r.Valid() && fresh(r) && fresh(r.block) && r.fed == stream[..at]
    {
      TakenExact(r.sz, stream[at..at + 64]);
      r.Update(stream[at..at + 64]);
      assert stream[..at] + stream[at..at + 64] == stream[..at + 64];
      at := at + 64;
    }
    if at < |stream| {
      TakenExact(r.sz, stream[at..]);
      r.Update(stream[at..]);
    }
    assert stream[..at] + stream[at..] == stream && r.fed == stream;
    digest := r.Final();
  }

  /** Any list of chunks below 2^32 bytes each gives the value of all of them in one. */
  method CalculateChunks(chunks: seq<seq<byte>>) returns (digest: State)
    requires forall i :: 0 <= i < |chunks| ==> |chunks[i]| < TWO32
    ensures digest == CodeSha512(Flat(chunks))
    ensures |Flat(chunks)| < 0x2000_0000 ==> digest == Sha512(Flat(chunks))
  {
    hide CodeSha512, Sha512, Chain, Taken, Counted, Flat;
    var r := new Hasher();
    var i := 0;
    assert Flat(chunks[..0]) == [] by { FlatNothing(chunks[..0]); }
    while i < |chunks|
      invariant i <= |chunks| && r.Valid() && fresh(r) && fresh(r.block) && r.fed == Flat(chunks[..i])
    {
      TakenExact(r.sz, chunks[i]);
      FlatNext(chunks, i);
      r.Update(chunks[i]);
      i := i + 1;
    }
    assert chunks[..i] == chunks;
    digest := r.Final();
  }
}
