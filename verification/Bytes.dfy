/** Bytes, fixed-width integer encodings and the number of padding bytes that MD5 and SHA-1 share. */
module Bytes {
  type byte = bv8

  const TWO32: nat := 0x1_0000_0000
  const TWO64: nat := 0x1_0000_0000_0000_0000

  /** The value of uint64_t arithmetic. */
  function U64(n: nat): nat {
    n % TWO64
  }

  lemma U64Next(n: nat)
    ensures U64(U64(n) + 1) == U64(n + 1)
  {
  }

  function Zeros(n: nat): (s: seq<byte>)
    ensures |s| == n
  {
    seq(n, _ => 0)
  }

  /** How many zero bytes take n bytes and the 0x80 byte to 56 modulo 64. */
  function PadZeros(n: nat): (k: nat)
    ensures k < 64 && (n + 1 + k + 8) % 64 == 0
    ensures k == if n % 64 < 56 then 55 - n % 64 else 119 - n % 64
  {
    (55 - n) % 64
  }

  /** One entry of a table row. */
  function Pick4<T>(i: nat, c0: T, c1: T, c2: T, c3: T): T {
    if i < 2 then if i < 1 then c0 else c1 else if i < 3 then c2 else c3
  }

  /** The k low-order bits of n. */
  function LowBits(n: nat, k: nat): byte {
    if k == 0 then 0 else (LowBits(n / 2, k - 1) << 1) | (if n % 2 == 1 then 1 else 0)
  }

  /** The conversion (uint8_t)n, which keeps the eight low-order bits. */
  function ToByte(n: nat): byte {
    LowBits(n, 8)
  }

  function Pow2(k: nat): (p: nat)
    ensures p > 0
  {
    if k == 0 then 1 else 2 * Pow2(k - 1)
  }

  /** All bits up to bit k. */
  function Mask(k: nat): byte {
    if k == 0 then 0 else (Mask(k - 1) << 1) | 1
  }

  lemma {:induction false} LowBitsInMask(n: nat, k: nat)
    requires k <= 8
    ensures LowBits(n, k) & !Mask(k) == 0
    ensures k <= 7 ==> LowBits(n, k) & 0x80 == 0
  {
    if k != 0 {
      LowBitsInMask(n / 2, k - 1);
    }
    assert Mask(0) == 0 && Mask(1) == 1 && Mask(2) == 3 && Mask(3) == 7 && Mask(4) == 15;
    assert Mask(5) == 31 && Mask(6) == 63 && Mask(7) == 127;
  }

  lemma ShiftBitIn(b: byte, p: byte)
    requires b & 0x80 == 0 && p <= 1
    ensures ((b << 1) | p) as nat == 2 * (b as nat) + p as nat
  {
  }

  lemma LowBitsStep(n: nat, k: nat)
    requires 0 < k <= 8
    ensures LowBits(n, k) as nat == 2 * (LowBits(n / 2, k - 1) as nat) + n % 2
  {
    hide Mask;
    LowBitsInMask(n / 2, k - 1);
    var b := LowBits(n / 2, k - 1);
    var p: byte := if n % 2 == 1 then 1 else 0;
    ShiftBitIn(b, p);
    assert LowBits(n, k) == (b << 1) | p && p as nat == n % 2;
  }

  lemma {:induction false} LowBitsValue(n: nat, k: nat)
    requires k <= 8
    ensures LowBits(n, k) as nat == n % Pow2(k)
  {
    if k == 0 {
      assert Pow2(0) == 1;
    } else {
      LowBitsStep(n, k);
      hide LowBits;
      LowBitsValue(n / 2, k - 1);
      ModStep(n, 2, Pow2(k - 1));
    }
  }

  /** The number that the byte is. */
  lemma ToByteValue(n: nat)
    ensures ToByte(n) as nat == n % 256
  {
    LowBitsValue(n, 8);
    assert Pow2(8) == 256;
  }

  lemma SameValue(a: byte, b: byte)
    ensures a as nat == b as nat <==> a == b
  {
  }

  lemma ToByteInjective(n: nat, m: nat)
    ensures ToByte(n) == ToByte(m) <==> n % 256 == m % 256
  {
    ToByteValue(n);
    ToByteValue(m);
    SameValue(ToByte(n), ToByte(m));
  }

  /** The k low-order bytes of n, least significant first. */
  function Le(n: nat, k: nat): (s: seq<byte>)
    ensures |s| == k
    decreases k
  {
    if k == 0 then [] else [ToByte(n)] + Le(n / 256, k - 1)
  }

  /** The k low-order bytes of n, most significant first. */
  function Be(n: nat, k: nat): (s: seq<byte>)
    ensures |s| == k
    decreases k
  {
    if k == 0 then [] else Be(n / 256, k - 1) + [ToByte(n)]
  }

  function Pow256(k: nat): (p: nat)
    ensures p > 0
  {
    if k == 0 then 1 else 256 * Pow256(k - 1)
  }

  lemma Pow256Values()
    ensures Pow256(4) == TWO32 && Pow256(8) == TWO64 && Pow256(12) == TWO64 * TWO32
  {
  }

  /** The number that bytes are in base 256, least significant first. */
  function LeNumber(s: seq<byte>): nat {
    if s == [] then 0 else s[0] as nat + 256 * LeNumber(s[1..])
  }

  /** The same, most significant first. */
  function BeNumber(s: seq<byte>): nat {
    if s == [] then 0 else 256 * BeNumber(s[..|s| - 1]) + s[|s| - 1] as nat
  }

  /** A word grows by one byte. */
  lemma Join32(a: bv32, b: byte)
    requires a < 0x100_0000
    ensures ((a << 8) | (b as bv32)) as nat == 256 * (a as nat) + b as nat
  {
  }

  lemma JoinHalves(u: bv32, v: bv32)
    ensures (((u as bv64) << 32) | (v as bv64)) as nat == TWO32 * (u as nat) + v as nat
  {
  }

  lemma Alone(b: byte)
    ensures (b as bv32) as nat == b as nat && b as bv32 <= 0xff
  {
  }

  lemma JoinedValue(b0: byte, b1: byte, b2: byte, b3: byte, v: bv32, w: bv32, x: bv32)
    requires v == ((b3 as bv32) << 8) | (b2 as bv32) && w == (v << 8) | (b1 as bv32) && x == (w << 8) | (b0 as bv32)
    requires v <= 0xffff && w <= 0xff_ffff
    ensures x as nat == b0 as nat + 256 * (b1 as nat + 256 * (b2 as nat + 256 * (b3 as nat)))
  {
    Alone(b3);
    Join32(b3 as bv32, b2);
    Join32(v, b1);
    Join32(w, b0);
    Nested(b0 as nat, b1 as nat, b2 as nat, b3 as nat, v as nat, w as nat, x as nat);
  }

  lemma Nested(b0: nat, b1: nat, b2: nat, b3: nat, v: nat, w: nat, x: nat)
    requires v == 256 * b3 + b2 && w == 256 * v + b1 && x == 256 * w + b0
    ensures x == b0 + 256 * (b1 + 256 * (b2 + 256 * b3))
  {
  }

  lemma BigEndianJoined(b0: byte, b1: byte, b2: byte, b3: byte, v: bv32, w: bv32, x: bv32)
    requires v == ((b0 as bv32) << 8) | (b1 as bv32) && w == (v << 8) | (b2 as bv32)
    requires x == (b3 as bv32) | ((b2 as bv32) << 8) | ((b1 as bv32) << 16) | ((b0 as bv32) << 24)
    ensures v <= 0xffff && w <= 0xff_ffff && x == (w << 8) | (b3 as bv32)
  {
  }

  /** The number that a big-endian word is. */
  lemma BigEndianValue(b0: byte, b1: byte, b2: byte, b3: byte, x: bv32)
    requires x == (b3 as bv32) | ((b2 as bv32) << 8) | ((b1 as bv32) << 16) | ((b0 as bv32) << 24)
    ensures x as nat == BeNumber([b0, b1, b2, b3])
  {
    var v: bv32 := ((b0 as bv32) << 8) | (b1 as bv32);
    var w: bv32 := (v << 8) | (b2 as bv32);
    BigEndianJoined(b0, b1, b2, b3, v, w, x);
    JoinedValue(b3, b2, b1, b0, v, w, x);
    BeNumberOfFour(b0, b1, b2, b3);
  }

  lemma LeNumberNext(b: byte, s: seq<byte>)
    ensures LeNumber([b] + s) == b as nat + 256 * LeNumber(s)
  {
    assert ([b] + s)[1..] == s;
  }

  lemma BeNumberNext(s: seq<byte>, b: byte)
    ensures BeNumber(s + [b]) == 256 * BeNumber(s) + b as nat
  {
    assert (s + [b])[..|s|] == s;
  }

  lemma LeNumberOfFour(b0: byte, b1: byte, b2: byte, b3: byte)
    ensures LeNumber([b0, b1, b2, b3]) == b0 as nat + 256 * (b1 as nat + 256 * (b2 as nat + 256 * (b3 as nat)))
  {
    assert LeNumber([]) == 0;
    hide LeNumber;
    LeNumberNext(b3, []);
    LeNumberNext(b2, [b3]);
    LeNumberNext(b1, [b2, b3]);
    LeNumberNext(b0, [b1, b2, b3]);
    assert [b3] + [] == [b3] && [b2] + [b3] == [b2, b3] && [b1] + [b2, b3] == [b1, b2, b3];
    assert [b0] + [b1, b2, b3] == [b0, b1, b2, b3];
  }

  lemma BeNumberOfFour(b0: byte, b1: byte, b2: byte, b3: byte)
    ensures BeNumber([b0, b1, b2, b3]) == b3 as nat + 256 * (b2 as nat + 256 * (b1 as nat + 256 * (b0 as nat)))
  {
    assert BeNumber([]) == 0;
    hide BeNumber;
    BeNumberNext([], b0);
    BeNumberNext([b0], b1);
    BeNumberNext([b0, b1], b2);
    BeNumberNext([b0, b1, b2], b3);
    assert [] + [b0] == [b0] && [b0] + [b1] == [b0, b1] && [b0, b1] + [b2] == [b0, b1, b2];
    assert [b0, b1, b2] + [b3] == [b0, b1, b2, b3];
  }

  lemma {:induction false} LeValue(n: nat, k: nat)
    ensures LeNumber(Le(n, k)) == n % Pow256(k)
    decreases k
  {
    hide ToByte;
    if k == 0 {
      assert Pow256(0) == 1;
    } else {
      LeValue(n / 256, k - 1);
      ToByteValue(n);
      ModStep(n, 256, Pow256(k - 1));
      assert Le(n, k)[1..] == Le(n / 256, k - 1);
    }
  }

  lemma {:induction false} BeValue(n: nat, k: nat)
    ensures BeNumber(Be(n, k)) == n % Pow256(k)
    decreases k
  {
    hide ToByte;
    if k == 0 {
      assert Pow256(0) == 1;
    } else {
      BeValue(n / 256, k - 1);
      ToByteValue(n);
      ModStep(n, 256, Pow256(k - 1));
      assert Be(n, k)[..k - 1] == Be(n / 256, k - 1) && Be(n, k)[k - 1] == ToByte(n);
    }
  }

  lemma {:induction false} LeSplit(lo: nat, hi: nat, j: nat, k: nat)
    requires lo < Pow256(j)
    ensures Le(lo + Pow256(j) * hi, j + k) == Le(lo, j) + Le(hi, k)
    decreases j
  {
    hide ToByte;
    if j != 0 {
      var n, p := lo + Pow256(j) * hi, Pow256(j - 1);
      var q := lo / 256 + p * hi;
      assert n == 256 * q + lo % 256 by { assert Pow256(j) * hi == 256 * (p * hi); }
      ModUnique(n, 256, q, lo % 256);
      ToByteInjective(n, lo);
      LeSplit(lo / 256, hi, j - 1, k);
    }
  }

  /** Only the value modulo 256^k is encoded. */
  lemma {:induction false} BeInjective(n: nat, m: nat, k: nat)
    ensures Be(n, k) == Be(m, k) <==> n % Pow256(k) == m % Pow256(k)
    decreases k
  {
    hide ToByte;
    if k == 0 {
      assert Pow256(0) == 1;
    } else {
      BeInjective(n / 256, m / 256, k - 1);
      var p := Pow256(k - 1);
      ModStep(n, 256, p);
      ModStep(m, 256, p);
      var a, b := Be(n / 256, k - 1), Be(m / 256, k - 1);
      assert Be(n, k)[..k - 1] == a && Be(m, k)[..k - 1] == b;
      assert Be(n, k)[k - 1] == ToByte(n) && Be(m, k)[k - 1] == ToByte(m);
      ToByteInjective(n, m);
    }
  }

  lemma {:induction false} BeSplit(lo: nat, hi: nat, j: nat, k: nat)
    requires lo < Pow256(k)
    ensures Be(lo + Pow256(k) * hi, j + k) == Be(hi, j) + Be(lo, k)
    decreases k
  {
    hide ToByte;
    if k != 0 {
      var n, p := lo + Pow256(k) * hi, Pow256(k - 1);
      var q := lo / 256 + p * hi;
      assert n == 256 * q + lo % 256 by { assert Pow256(k) * hi == 256 * (p * hi); }
      ModUnique(n, 256, q, lo % 256);
      ToByteInjective(n, lo);
      BeSplit(lo / 256, hi, j, k - 1);
    }
  }

  lemma ModStep(n: nat, b: nat, p: nat)
    requires b > 0 && p > 0
    ensures b * p > 0 && n % (b * p) == b * (n / b % p) + n % b
  {
    MulBounds(b, p);
    var m := n / b;
    var q, r := m / p, m % p;
    Recombine(n, b, m, n % b, p, q, r);
    ModUnique(n, b * p, q, b * r + n % b);
  }

  lemma Recombine(n: nat, b: nat, m: nat, d: nat, p: nat, q: nat, r: nat)
    requires n == b * m + d && d < b && m == p * q + r && r < p
    ensures n == (b * p) * q + (b * r + d) && 0 <= b * r + d < b * p
  {
    Distribute(b, p * q, r);
    Associate(b, p, q);
    Distribute(b, p - r, r);
    MulBounds(b, p - r);
  }

  lemma Distribute(b: int, x: int, y: int)
    ensures b * (x + y) == b * x + b * y
  {
  }

  lemma Associate(b: int, p: int, q: int)
    ensures b * (p * q) == (b * p) * q
  {
  }

  lemma ModUnique(n: int, d: int, q: int, r: int)
    requires 0 <= r < d && n == d * q + r
    ensures n % d == r && n / d == q
  {
    var k := n / d - q;
    assert d * k == r - n % d;
    MulBounds(d, k);
  }

  lemma MulBounds(d: int, k: int)
    requires d > 0
    ensures k >= 1 ==> d * k >= d
    ensures k <= -1 ==> d * k <= -d
  {
  }

  lemma SliceOfTail(s: seq<byte>, from: nat, lo: nat, hi: nat)
    requires lo <= hi && from + hi <= |s|
    ensures s[from..][lo..hi] == s[from + lo..from + hi]
  {
  }

  /** memcpy: src replaces the bytes of dst from position `at` on. */
  method CopyInto(dst: array<byte>, at: nat, src: seq<byte>)
    requires at + |src| <= dst.Length
    modifies dst
    ensures dst[..] == old(dst[..at]) + src + old(dst[at + |src|..])
  {
    forall i | 0 <= i < |src| {
      dst[at + i] := src[i];
    }
  }

  /** All chunks in one. */
  function Flat(chunks: seq<seq<byte>>): seq<byte> {
    if chunks == [] then [] else Flat(chunks[..|chunks| - 1]) + chunks[|chunks| - 1]
  }

  lemma FlatNext(chunks: seq<seq<byte>>, i: nat)
    requires i < |chunks|
    ensures Flat(chunks[..i + 1]) == Flat(chunks[..i]) + chunks[i]
  {
    assert chunks[..i + 1][..i] == chunks[..i];
  }

  lemma FlatNothing(chunks: seq<seq<byte>>)
    requires chunks == []
    ensures Flat(chunks) == []
  {
  }
}
