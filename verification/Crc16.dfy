/** The instantiation crc16 of the CRC template: its table, its polynomial, and that it has the laws the theory asks for. */
module Crc16 {
  import opened Bytes
  import opened CrcTheory

  /** The register with only bit k set. */
  function Power(k: nat): bv16 {
    if k < 8 then PickAt(k - 0, 0x0001, 0x0002, 0x0004, 0x0008, 0x0010, 0x0020, 0x0040, 0x0080)
    else PickAt(k - 8, 0x0100, 0x0200, 0x0400, 0x0800, 0x1000, 0x2000, 0x4000, 0x8000)
  }

  function Down(c: bv16): bv16 { c >> 1 }

  /** The polynomial if the bit shifted out is set. */
  function Tap(c: bv16): bv16 { 0xa001 & (0 - (c & 1)) }

  /** One step of the reflected division. */
  function Shift(c: bv16): bv16 {
    Xor(Down(c), Tap(c))
  }

  /** The step as section 8 of RFC 1952 writes it, for this polynomial. */
  lemma ShiftIs(c: bv16)
    ensures Shift(c) == if c & 1 == 1 then (c >> 1) ^ 0xa001 else c >> 1
  {
    hide Shift;
    if c & 1 == 1 {
      ShiftTapped(c);
    } else {
      ShiftUntapped(c);
    }
  }

  lemma ShiftTapped(c: bv16)
    requires c & 1 == 1
    ensures Shift(c) == (c >> 1) ^ 0xa001
  {
  }

  lemma ShiftUntapped(c: bv16)
    requires c & 1 != 1
    ensures Shift(c) == c >> 1
  {
  }

  function Tab(i: bv8): bv16 {
    var row, k := i >> 3, i & 7;
    if row == 0 then Pick(k, 0x0000, 0xc0c1, 0xc181, 0x0140, 0xc301, 0x03c0, 0x0280, 0xc241)
    else if row == 1 then Pick(k, 0xc601, 0x06c0, 0x0780, 0xc741, 0x0500, 0xc5c1, 0xc481, 0x0440)
    else if row == 2 then Pick(k, 0xcc01, 0x0cc0, 0x0d80, 0xcd41, 0x0f00, 0xcfc1, 0xce81, 0x0e40)
    else if row == 3 then Pick(k, 0x0a00, 0xcac1, 0xcb81, 0x0b40, 0xc901, 0x09c0, 0x0880, 0xc841)
    else if row == 4 then Pick(k, 0xd801, 0x18c0, 0x1980, 0xd941, 0x1b00, 0xdbc1, 0xda81, 0x1a40)
    else if row == 5 then Pick(k, 0x1e00, 0xdec1, 0xdf81, 0x1f40, 0xdd01, 0x1dc0, 0x1c80, 0xdc41)
    else if row == 6 then Pick(k, 0x1400, 0xd4c1, 0xd581, 0x1540, 0xd701, 0x17c0, 0x1680, 0xd641)
    else if row == 7 then Pick(k, 0xd201, 0x12c0, 0x1380, 0xd341, 0x1100, 0xd1c1, 0xd081, 0x1040)
    else if row == 8 then Pick(k, 0xf001, 0x30c0, 0x3180, 0xf141, 0x3300, 0xf3c1, 0xf281, 0x3240)
    else if row == 9 then Pick(k, 0x3600, 0xf6c1, 0xf781, 0x3740, 0xf501, 0x35c0, 0x3480, 0xf441)
    else if row == 10 then Pick(k, 0x3c00, 0xfcc1, 0xfd81, 0x3d40, 0xff01, 0x3fc0, 0x3e80, 0xfe41)
    else if row == 11 then Pick(k, 0xfa01, 0x3ac0, 0x3b80, 0xfb41, 0x3900, 0xf9c1, 0xf881, 0x3840)
    else if row == 12 then Pick(k, 0x2800, 0xe8c1, 0xe981, 0x2940, 0xeb01, 0x2bc0, 0x2a80, 0xea41)
    else if row == 13 then Pick(k, 0xee01, 0x2ec0, 0x2f80, 0xef41, 0x2d00, 0xedc1, 0xec81, 0x2c40)
    else if row == 14 then Pick(k, 0xe401, 0x24c0, 0x2580, 0xe541, 0x2700, 0xe7c1, 0xe681, 0x2640)
    else if row == 15 then Pick(k, 0x2200, 0xe2c1, 0xe381, 0x2340, 0xe101, 0x21c0, 0x2080, 0xe041)
    else if row == 16 then Pick(k, 0xa001, 0x60c0, 0x6180, 0xa141, 0x6300, 0xa3c1, 0xa281, 0x6240)
    else if row == 17 then Pick(k, 0x6600, 0xa6c1, 0xa781, 0x6740, 0xa501, 0x65c0, 0x6480, 0xa441)
    else if row == 18 then Pick(k, 0x6c00, 0xacc1, 0xad81, 0x6d40, 0xaf01, 0x6fc0, 0x6e80, 0xae41)
    else if row == 19 then Pick(k, 0xaa01, 0x6ac0, 0x6b80, 0xab41, 0x6900, 0xa9c1, 0xa881, 0x6840)
    else if row == 20 then Pick(k, 0x7800, 0xb8c1, 0xb981, 0x7940, 0xbb01, 0x7bc0, 0x7a80, 0xba41)
    else if row == 21 then Pick(k, 0xbe01, 0x7ec0, 0x7f80, 0xbf41, 0x7d00, 0xbdc1, 0xbc81, 0x7c40)
    else if row == 22 then Pick(k, 0xb401, 0x74c0, 0x7580, 0xb541, 0x7700, 0xb7c1, 0xb681, 0x7640)
    else if row == 23 then Pick(k, 0x7200, 0xb2c1, 0xb381, 0x7340, 0xb101, 0x71c0, 0x7080, 0xb041)
    else if row == 24 then Pick(k, 0x5000, 0x90c1, 0x9181, 0x5140, 0x9301, 0x53c0, 0x5280, 0x9241)
    else if row == 25 then Pick(k, 0x9601, 0x56c0, 0x5780, 0x9741, 0x5500, 0x95c1, 0x9481, 0x5440)
    else if row == 26 then Pick(k, 0x9c01, 0x5cc0, 0x5d80, 0x9d41, 0x5f00, 0x9fc1, 0x9e81, 0x5e40)
    else if row == 27 then Pick(k, 0x5a00, 0x9ac1, 0x9b81, 0x5b40, 0x9901, 0x59c0, 0x5880, 0x9841)
    else if row == 28 then Pick(k, 0x8801, 0x48c0, 0x4980, 0x8941, 0x4b00, 0x8bc1, 0x8a81, 0x4a40)
    else if row == 29 then Pick(k, 0x4e00, 0x8ec1, 0x8f81, 0x4f40, 0x8d01, 0x4dc0, 0x4c80, 0x8c41)
    else if row == 30 then Pick(k, 0x4400, 0x84c1, 0x8581, 0x4540, 0x8701, 0x47c0, 0x4680, 0x8641)
    else Pick(k, 0x8201, 0x42c0, 0x4380, 0x8341, 0x4100, 0x81c1, 0x8081, 0x4040)
  }

  function Xor(a: bv16, b: bv16): bv16 { a ^ b }
  function AtLeast(w: bv16, f: bv16): bool { w >= f }
  function Above(w: bv16, k: nat): bool { k < 16 && AtLeast(w, Power(k)) }
  function ByteOf(b: bv8): bv16 { b as bv16 }
  function Low(w: bv16): bv8 { (w & 0xff) as bv8 }
  function Shr(w: bv16): bv16 { w >> 8 }

  const CRC: Register<bv16> := Register(
    16, 0, 1,
    (a, b) => Xor(a, b), c => Shift(c), k => Power(k), (w, k) => Above(w, k),
    b => ByteOf(b), w => Low(w), w => Shr(w), i => Tab(i),
    0xffff, 0xffff)

  lemma XorBits(a: bv16, b: bv16, c: bv16)
    ensures a ^ b == b ^ a && (a ^ b) ^ c == a ^ (b ^ c) && a ^ a == 0 && a ^ 0 == a
  {
  }

  lemma PartsLinear(a: bv16, b: bv16)
    ensures Down(Xor(a, b)) == Xor(Down(a), Down(b)) && Tap(Xor(a, b)) == Xor(Tap(a), Tap(b))
  {
  }

  lemma Swaps(a: bv16, b: bv16, c: bv16)
    ensures Xor(a, b) == Xor(b, a) && Xor(Xor(a, b), c) == Xor(a, Xor(b, c))
  {
  }

  lemma Rearranges(a: bv16, b: bv16, p: bv16, q: bv16)
    ensures Xor(Xor(a, b), Xor(p, q)) == Xor(Xor(a, p), Xor(b, q))
  {
    hide Xor;
    Swaps(a, b, Xor(p, q));
    Swaps(b, p, q);
    Swaps(p, b, q);
    Swaps(a, p, Xor(b, q));
  }

  lemma ShiftLinear(a: bv16, b: bv16)
    ensures Shift(Xor(a, b)) == Xor(Shift(a), Shift(b))
  {
    hide Xor, Down, Tap;
    PartsLinear(a, b);
    Rearranges(Down(a), Down(b), Tap(a), Tap(b));
  }

  lemma ShiftKernel(a: bv16)
    requires Shift(a) == 0
    ensures a == 0
  {
  }

  lemma PowerDoubles(k: nat)
    requires k + 1 < 16
    ensures Power(k + 1) == Power(k) << 1 && Power(k) & 0x8000 == 0
  {
  }

  lemma PowerNonZero(k: nat)
    requires k < 16
    ensures Power(k) != 0
  {
  }

  /** A bit above the lowest place survives one step, at worst one place lower. */
  lemma TopSinksByOne(w: bv16, e: bv16, f: bv16, g: bv16)
    requires f & 0x8000 == 0 && g == f << 1 && AtLeast(w, g) && e <= 1
    ensures AtLeast(Shift(Xor(w, e)), f)
  {
  }

  lemma LowLaws(a: bv16, b: bv16, x: bv8)
    ensures ((a ^ b) & 0xff) as bv8 == (a & 0xff) as bv8 ^ (b & 0xff) as bv8
    ensures (a ^ b) >> 8 == (a >> 8) ^ (b >> 8)
    ensures ((x as bv16) & 0xff) as bv8 == x && (x as bv16) >> 8 == 0
  {
  }

  function Part(b: bv8, mask: bv8): bv16 { (b & mask) as bv16 }

  lemma ByteParts(b: bv8)
    ensures var low := Xor(Xor(Xor(Xor(0, Part(b, 1)), Part(b, 2)), Part(b, 4)), Part(b, 8));
      ByteOf(b) == Xor(Xor(Xor(Xor(low, Part(b, 16)), Part(b, 32)), Part(b, 64)), Part(b, 128))
  {
  }

  function Eight(c: bv16): bv16 {
    Shift(Shift(Shift(Shift(Shift(Shift(Shift(Shift(c))))))))
  }

  lemma TabIsEightLow(i: bv8)
    requires i < 128
    ensures Tab(i) == Eight(i as bv16)
  {
  }

  lemma TabIsEightHigh(i: bv8)
    requires i >= 128
    ensures Tab(i) == Eight(i as bv16)
  {
  }

  /** Every entry of the table is eight division steps of its index. */
  lemma TabIsEight(i: bv8)
    ensures Tab(i) == Eight(i as bv16)
  {
    hide Tab, Eight;
    if i < 128 {
      TabIsEightLow(i);
    } else {
      TabIsEightHigh(i);
    }
  }

  lemma EightOfHigh(w: bv16)
    ensures Eight((w >> 8) << 8) == w >> 8
  {
  }

  lemma SplitByte(w: bv16)
    ensures w == ((w & 0xff) as bv8 as bv16) ^ ((w >> 8) << 8)
  {
  }

  // The laws, one by one.

  lemma OpXor(a: bv16, b: bv16)
    ensures CRC.xor(a, b) == Xor(a, b)
  {
    hide Xor;
  }

  lemma OpShift(a: bv16)
    ensures CRC.shift(a) == Shift(a)
  {
    hide Shift;
  }

  lemma OpBit(k: nat)
    ensures CRC.bit(k) == Power(k)
  {
    hide Power;
  }

  lemma OpAbove(a: bv16, k: nat)
    ensures CRC.above(a, k) == Above(a, k)
  {
    hide Above;
  }

  lemma OpLow(a: bv16)
    ensures CRC.low(a) == Low(a) && CRC.shr8(a) == Shr(a)
  {
    hide Low, Shr;
  }

  lemma OpByte(i: bv8)
    ensures CRC.byteOf(i) == ByteOf(i) && CRC.tab(i) == Tab(i)
  {
    hide ByteOf, Tab;
  }

  lemma Commutes()
    ensures Commutative(CRC)
  {
    forall a: bv16, b: bv16
      ensures CRC.xor(a, b) == CRC.xor(b, a)
    {
      OpXor(a, b);
      OpXor(b, a);
      XorBits(a, b, 0);
    }
  }

  lemma XorAssociates(a: bv16, b: bv16, c: bv16)
    ensures Xor(Xor(a, b), c) == Xor(a, Xor(b, c))
  {
  }

  lemma Associates()
    ensures Associative(CRC)
  {
    hide Xor;
    forall a: bv16, b: bv16, c: bv16
      ensures CRC.xor(CRC.xor(a, b), c) == CRC.xor(a, CRC.xor(b, c))
    {
      OpXor(a, b);
      OpXor(b, c);
      OpXor(Xor(a, b), c);
      OpXor(a, Xor(b, c));
      XorAssociates(a, b, c);
    }
  }

  lemma Cancels()
    ensures SelfInverse(CRC)
  {
    forall a: bv16
      ensures CRC.xor(a, a) == CRC.zero && CRC.xor(a, CRC.zero) == a
    {
      OpXor(a, a);
      OpXor(a, 0);
      XorBits(a, a, a);
    }
  }

  lemma ShiftsLinearly()
    ensures CrcTheory.ShiftLinear(CRC)
  {
    hide Shift, Xor;
    forall a: bv16, b: bv16
      ensures CRC.shift(CRC.xor(a, b)) == CRC.xor(CRC.shift(a), CRC.shift(b))
    {
      OpXor(a, b);
      OpShift(a);
      OpShift(b);
      OpShift(Xor(a, b));
      OpXor(Shift(a), Shift(b));
      ShiftLinear(a, b);
    }
  }

  lemma ShiftsInjectively()
    ensures ShiftInjective(CRC)
  {
    hide Shift;
    forall a: bv16
      ensures CRC.shift(a) == CRC.zero ==> a == CRC.zero
    {
      OpShift(a);
      if Shift(a) == 0 {
        ShiftKernel(a);
      }
    }
  }

  lemma PowerShifts(k: nat)
    requires k < 7
    ensures Shift(Power(k + 1)) == Power(k)
  {
  }

  lemma MovesBitsDown()
    ensures BitsMoveDown(CRC)
  {
    assert Power(0) == 1;
    hide Power, Shift;
    OpBit(0);
    forall k: nat | k < 7
      ensures CRC.shift(CRC.bit(k + 1)) == CRC.bit(k)
    {
      OpBit(k);
      OpBit(k + 1);
      OpShift(Power(k + 1));
      PowerShifts(k);
    }
  }

  lemma AboveStep(w: bv16, k: nat, e: bv16)
    requires k + 1 < 16 && Above(w, k + 1) && e <= 1
    ensures Above(Shift(Xor(w, e)), k)
  {
    hide Power, Shift, Xor, AtLeast;
    PowerDoubles(k);
    TopSinksByOne(w, e, Power(k), Power(k + 1));
  }

  lemma SinksByOne()
    ensures TopSinks(CRC)
  {
    assert Above(Shift(1), 15) by {
      assert Power(15) == 0x8000 && Shift(1) == 0xa001;
    }
    hide Power, Shift, Above, Xor;
    OpShift(1);
    OpAbove(Shift(1), 15);
    forall w: bv16, k: nat, b: bool | k + 1 < 16 && CRC.above(w, k + 1)
      ensures CRC.above(CRC.shift(CRC.xor(w, Lift(CRC, b))), k)
    {
      var e: bv16 := if b then 1 else 0;
      OpAbove(w, k + 1);
      OpXor(w, e);
      OpShift(Xor(w, e));
      OpAbove(Shift(Xor(w, e)), k);
      AboveStep(w, k, e);
    }
  }

  lemma AboveEdges(w: bv16, k: nat)
    ensures Above(w, k) ==> w != 0
    ensures w != 0 ==> Above(w, 0)
  {
    assert Power(0) == 1;
    if k < 16 {
      PowerNonZero(k);
    }
    hide Power;
  }

  lemma AbovesNonZero()
    ensures AboveNonZero(CRC)
  {
    hide Above;
    forall w: bv16, k: nat
      ensures (CRC.above(w, k) ==> w != CRC.zero) && (w != CRC.zero ==> CRC.above(w, 0))
    {
      OpAbove(w, k);
      OpAbove(w, 0);
      AboveEdges(w, k);
    }
  }

  lemma XorLow(a: bv16, b: bv16)
    ensures Low(Xor(a, b)) == Low(a) ^ Low(b) && Shr(Xor(a, b)) == Xor(Shr(a), Shr(b))
  {
    LowLaws(a, b, 0);
  }

  lemma SplitsBytes()
    ensures ByteLaws(CRC)
  {
    hide Xor, Low, Shr;
    forall a: bv16, x: bv16
      ensures CRC.low(CRC.xor(a, x)) == CRC.low(a) ^ CRC.low(x)
      ensures CRC.shr8(CRC.xor(a, x)) == CRC.xor(CRC.shr8(a), CRC.shr8(x))
    {
      OpXor(a, x);
      OpLow(a);
      OpLow(x);
      OpLow(Xor(a, x));
      OpXor(Shr(a), Shr(x));
      XorLow(a, x);
    }
  }

  lemma KeepsBytesLow()
    ensures BytesLow(CRC)
  {
    forall b: bv8
      ensures CRC.low(CRC.byteOf(b)) == b && CRC.shr8(CRC.byteOf(b)) == CRC.zero
    {
      OpByte(b);
      OpLow(ByteOf(b));
      LowLaws(0, 0, b);
    }
  }

  lemma ShrsEmpty()
    ensures ShrEmpties(CRC)
  {
    forall w: bv16
      ensures CrcTheory.Shr(CRC, 2, w) == CRC.zero
    {
      var w1, w2 := Shr(w), Shr(Shr(w));
      assert w2 == 0;
      hide Shr;
      OpLow(w);
      OpLow(w1);
      assert CrcTheory.Shr(CRC, 2, w) == CrcTheory.Shr(CRC, 1, w1) == CrcTheory.Shr(CRC, 0, w2);
    }
  }

  function BitIf(b: bool, k: nat): bv16 {
    if b then Power(k) else 0
  }

  lemma PackNext(s: seq<bool>, k: nat, acc: bv16)
    requires k < |s| && k < 8 && Pack(CRC, s[..k]) == acc
    ensures Pack(CRC, s[..k + 1]) == Xor(acc, BitIf(s[k], k))
  {
    hide Power, Pack, Xor;
    PackStep(CRC, s, k);
    OpBit(k);
    OpXor(acc, BitIf(s[k], k));
  }

  /** The lower four bits packed one by one, and then the upper four. */
  function LowPack(s: seq<bool>): bv16
    requires |s| == 8
  {
    Xor(Xor(Xor(Xor(0, BitIf(s[0], 0)), BitIf(s[1], 1)), BitIf(s[2], 2)), BitIf(s[3], 3))
  }

  function HighPack(s: seq<bool>, low: bv16): bv16
    requires |s| == 8
  {
    Xor(Xor(Xor(Xor(low, BitIf(s[4], 4)), BitIf(s[5], 5)), BitIf(s[6], 6)), BitIf(s[7], 7))
  }

  lemma PacksLow(s: seq<bool>)
    requires |s| == 8
    ensures Pack(CRC, s[..4]) == LowPack(s)
  {
    assert Pack(CRC, s[..0]) == 0;
    hide Pack, BitIf, Xor;
    var p0: bv16 := 0;
    var p1 := Xor(p0, BitIf(s[0], 0));
    var p2 := Xor(p1, BitIf(s[1], 1));
    var p3 := Xor(p2, BitIf(s[2], 2));
    PackNext(s, 0, p0);
    PackNext(s, 1, p1);
    PackNext(s, 2, p2);
    PackNext(s, 3, p3);
  }

  lemma PacksHigh(s: seq<bool>, low: bv16)
    requires |s| == 8 && Pack(CRC, s[..4]) == low
    ensures Pack(CRC, s[..8]) == HighPack(s, low)
  {
    hide Pack, BitIf, Xor;
    var p5 := Xor(low, BitIf(s[4], 4));
    var p6 := Xor(p5, BitIf(s[5], 5));
    var p7 := Xor(p6, BitIf(s[6], 6));
    PackNext(s, 4, low);
    PackNext(s, 5, p5);
    PackNext(s, 6, p6);
    PackNext(s, 7, p7);
  }

  lemma PacksByte(b: bv8)
    ensures CRC.byteOf(b) == Pack(CRC, BitsOf(b))
  {
    hide Pack, LowPack, HighPack, BitsOf;
    var s := BitsOf(b);
    assert s[..8] == s;
    PacksLow(s);
    PacksHigh(s, LowPack(s));
    OpByte(b);
    PackedBits(b);
  }

  lemma BitParts(b: bv8)
    ensures var s := BitsOf(b);
      && BitIf(s[0], 0) == Part(b, 1) && BitIf(s[1], 1) == Part(b, 2)
      && BitIf(s[2], 2) == Part(b, 4) && BitIf(s[3], 3) == Part(b, 8)
      && BitIf(s[4], 4) == Part(b, 16) && BitIf(s[5], 5) == Part(b, 32)
      && BitIf(s[6], 6) == Part(b, 64) && BitIf(s[7], 7) == Part(b, 128)
  {
    assert Power(0) == 1 && Power(1) == 2 && Power(2) == 4 && Power(3) == 8;
    assert Power(4) == 16 && Power(5) == 32 && Power(6) == 64 && Power(7) == 128;
    hide Power;
  }

  lemma PackedBits(b: bv8)
    ensures ByteOf(b) == HighPack(BitsOf(b), LowPack(BitsOf(b)))
  {
    hide BitIf, Part, Xor, ByteOf, BitsOf;
    ByteParts(b);
    BitParts(b);
  }

  lemma PacksBytes()
    ensures BytesPacked(CRC)
  {
    forall b: bv8
      ensures CRC.byteOf(b) == Pack(CRC, BitsOf(b))
    {
      PacksByte(b);
    }
  }

  lemma EightIs(w: bv16)
    ensures CrcTheory.Eight(CRC, w) == Eight(w)
  {
    hide Shift;
    var w1 := Shift(w);
    var w2 := Shift(w1);
    var w3 := Shift(w2);
    var w4 := Shift(w3);
    var w5 := Shift(w4);
    var w6 := Shift(w5);
    var w7 := Shift(w6);
    OpShift(w);
    OpShift(w1);
    OpShift(w2);
    OpShift(w3);
    OpShift(w4);
    OpShift(w5);
    OpShift(w6);
    OpShift(w7);
  }

  lemma EightLinear(a: bv16, b: bv16)
    ensures Eight(Xor(a, b)) == Xor(Eight(a), Eight(b))
  {
    hide Shift, Xor;
    ShiftLinear(a, b);
    var a1, b1 := Shift(a), Shift(b);
    ShiftLinear(a1, b1);
    var a2, b2 := Shift(a1), Shift(b1);
    ShiftLinear(a2, b2);
    var a3, b3 := Shift(a2), Shift(b2);
    ShiftLinear(a3, b3);
    var a4, b4 := Shift(a3), Shift(b3);
    ShiftLinear(a4, b4);
    var a5, b5 := Shift(a4), Shift(b4);
    ShiftLinear(a5, b5);
    var a6, b6 := Shift(a5), Shift(b5);
    ShiftLinear(a6, b6);
    var a7, b7 := Shift(a6), Shift(b6);
    ShiftLinear(a7, b7);
    var a8, b8 := Shift(a7), Shift(b7);
  }

  lemma TableStep(w: bv16)
    ensures Eight(w) == Xor(Tab(Low(w)), Shr(w))
  {
    var lo := Low(w);
    SplitByte(w);
    TabIsEight(lo);
    EightOfHigh(w);
    EightLinear(lo as bv16, (w >> 8) << 8);
    hide Eight, Tab;
  }

  lemma StepsByTable()
    ensures TableSteps(CRC)
  {
    hide CrcTheory.Eight, Eight, Tab, Low, Shr, Xor;
    forall w: bv16
      ensures CrcTheory.Eight(CRC, w) == CRC.xor(CRC.tab(CRC.low(w)), CRC.shr8(w))
    {
      TableStep(w);
      EightIs(w);
      OpLow(w);
      OpByte(Low(w));
      OpXor(Tab(Low(w)), Shr(w));
    }
  }

  lemma Laws()
    ensures CrcTheory.Laws(CRC)
  {
    Commutes();
    Associates();
    Cancels();
    ShiftsLinearly();
    ShiftsInjectively();
    MovesBitsDown();
    SinksByOne();
    AbovesNonZero();
    PacksBytes();
    StepsByTable();
    SplitsBytes();
    KeepsBytesLow();
    ShrsEmpty();
    hide Commutative, Associative, SelfInverse, CrcTheory.ShiftLinear, ShiftInjective, BitsMoveDown, TopSinks;
    hide AboveNonZero, BytesPacked, TableSteps, ByteLaws, BytesLow, ShrEmpties;
  }

  // ---------- What the instantiation guarantees ----------

  /** The checksum as the reference defines it: bit by bit. */
  ghost function Checksum(m: seq<byte>): bv16 {
    Crc(CRC, m)
  }

  method Calculate(data: seq<byte>) returns (crc: bv16)
    ensures crc == Checksum(data)
  {
    Laws();
    hide CrcTheory.Laws;
    crc := CrcTheory.Calculate(CRC, data);
  }

  /** The reference again, byte-wise: xor the byte in and take eight division steps. */
  function Bytewise(m: seq<byte>): bv16 {
    if m == [] then 0xffff else Eight(Xor(Bytewise(m[..|m| - 1]), ByteOf(m[|m| - 1])))
  }

  lemma {:induction false} ChecksumBytewise(m: seq<byte>)
    ensures Checksum(m) == Xor(Bytewise(m), 0xffff)
  {
    BytewiseRun(m);
    hide Run, Bits, Bytewise, Xor;
    OpXor(Bytewise(m), 0xffff);
  }

  lemma RunByte(c: bv16, m: seq<byte>, b: byte)
    ensures Run(CRC, c, Bits(m + [b])) == Eight(Xor(Run(CRC, c, Bits(m)), ByteOf(b)))
  {
    hide Run, Bits, Xor, Eight, ByteOf, CrcTheory.Eight, CrcTheory.Laws;
    Laws();
    RunByteEight(CRC, c, m, b);
    OpByte(b);
    var r: bv16 := Run(CRC, c, Bits(m));
    OpXor(r, ByteOf(b));
    EightIs(Xor(r, ByteOf(b)));
  }

  lemma RunNothing(c: bv16)
    ensures Run(CRC, c, Bits([])) == c
  {
  }

  lemma {:induction false} BytewiseRun(m: seq<byte>)
    ensures Run(CRC, CRC.init, Bits(m)) == Bytewise(m)
  {
    hide Xor, Eight, ByteOf, Run, Bits;
    if m == [] {
      RunNothing(CRC.init);
    } else {
      var n := |m| - 1;
      BytewiseRun(m[..n]);
      RunByte(CRC.init, m[..n], m[n]);
      assert m == m[..n] + [m[n]];
    }
  }

  /** Messages of equal length that differ only in bits within a window of 16 never share a checksum. */
  lemma BurstDetected(x: seq<byte>, y: seq<byte>, from: nat)
    requires |x| == |y| && x != y
    requires forall i :: 0 <= i < |Bits(x)| && Bits(x)[i] != Bits(y)[i] ==> from <= i < from + 16
    ensures Checksum(x) != Checksum(y)
  {
    Laws();
    hide Bits;
    CrcTheory.MessageBurstDetected(CRC, x, y, from);
  }

  /** The same for a damaged stretch of at most 2 whole bytes. */
  lemma DamagedBytesDetected(before: seq<byte>, x: seq<byte>, y: seq<byte>, after: seq<byte>)
    requires |x| == |y| <= 2 && x != y
    ensures Checksum(before + x + after) != Checksum(before + y + after)
  {
    Laws();
    CrcTheory.DamagedBytesDetected(CRC, before, x, y, after);
  }

  function LowBit(w: bv16): bool { w & 1 == 1 }

  lemma DownIsLess(w: bv16)
    ensures w != 0 ==> Down(w) < w
    ensures w == 0 ==> Down(w) == 0 && !LowBit(w)
  {
  }

  /** Whether an odd number of bits is set. */
  function IsOdd(w: bv16): bool
    decreases w
  {
    DownIsLess(w);
    w != 0 && LowBit(w) != IsOdd(Down(w))
  }

  lemma OddStep(w: bv16)
    ensures IsOdd(w) == (LowBit(w) != IsOdd(Down(w)))
  {
    DownIsLess(w);
    hide Down, LowBit;
  }

  lemma LowBitXor(a: bv16, b: bv16)
    ensures LowBit(Xor(a, b)) == (LowBit(a) != LowBit(b)) && (a == 0 && b == 0 ==> Xor(a, b) == 0)
  {
    LowBitMask(a, b);
  }

  lemma LowBitMask(a: bv16, b: bv16)
    ensures (a ^ b) & 1 == (a & 1) ^ (b & 1) && (a & 1 == 0 || a & 1 == 1) && (b & 1 == 0 || b & 1 == 1)
  {
  }

  lemma {:induction false} OddXor(a: bv16, b: bv16)
    ensures IsOdd(Xor(a, b)) == (IsOdd(a) != IsOdd(b))
    decreases a, b
  {
    LowBitXor(a, b);
    PartsLinear(a, b);
    DownIsLess(a);
    DownIsLess(b);
    hide Xor, Down, LowBit, Tap;
    if a != 0 || b != 0 {
      OddXor(Down(a), Down(b));
      OddStep(a);
      OddStep(b);
      OddStep(Xor(a, b));
    }
  }

  lemma PolynomialOdd()
    ensures IsOdd(0xa001)
  {
    assert Down(0xa001) == 0x5000 && Down(0x5000) == 0x2800 && Down(0x2800) == 0x1400 && Down(0x1400) == 0x0a00;
    assert Down(0x0a00) == 0x0500 && Down(0x0500) == 0x0280 && Down(0x0280) == 0x0140 && Down(0x0140) == 0x00a0;
    assert Down(0x00a0) == 0x0050 && Down(0x0050) == 0x0028 && Down(0x0028) == 0x0014 && Down(0x0014) == 0x000a;
    assert IsOdd(0x000a) == IsOdd(0x0050) == IsOdd(0x0280) == IsOdd(0x1400) == IsOdd(0x5000);
    assert Down(0x000a) == 0x0005 && Down(0x0005) == 0x0002 && Down(0x0002) == 0x0001 && Down(0x0001) == 0;
  }

  lemma OddShift(a: bv16)
    ensures IsOdd(Shift(a)) == IsOdd(a)
  {
    OddStep(a);
    hide Shift, IsOdd;
    if LowBit(a) {
      ShiftTapped(a);
      PolynomialOdd();
      OddXor(Down(a), 0xa001);
    } else {
      ShiftUntapped(a);
    }
  }

  /** The polynomial x^16 + x^15 + x^2 + 1 has four terms. */
  lemma ParityKept()
    ensures KeepsParity(CRC, IsOdd)
  {
    assert IsOdd(1) && !IsOdd(0);
    hide IsOdd, Xor, Shift;
    forall a: bv16, b: bv16
      ensures IsOdd(CRC.xor(a, b)) == (IsOdd(a) != IsOdd(b))
    {
      OpXor(a, b);
      OddXor(a, b);
    }
    forall a: bv16
      ensures IsOdd(CRC.shift(a)) == IsOdd(a)
    {
      OpShift(a);
      OddShift(a);
    }
  }

  /** Messages that differ in an odd number of bits, wherever they are, never share a checksum. */
  lemma OddDifferenceDetected(x: seq<byte>, y: seq<byte>)
    requires |x| == |y| && Ones(CrcTheory.XorBits(Bits(x), Bits(y))) % 2 == 1
    ensures Checksum(x) != Checksum(y)
  {
    Laws();
    ParityKept();
    hide CrcTheory.Laws, KeepsParity, Bits, Ones, CrcTheory.XorBits;
    CrcTheory.OddDifferenceDetected(CRC, IsOdd, x, y);
  }

  /** A 2-byte tail turns the checksum into 0x4ffe exactly when it is the checksum of what precedes it. */
  lemma ResidueExact(m: seq<byte>, tail: seq<byte>)
    requires |tail| == 2
    ensures Checksum(m + tail) == 0x4ffe <==> tail == LowBytes(CRC, Checksum(m), 2)
  {
    Laws();
    ResidueValue();
    hide CrcTheory.Laws;
    CrcTheory.ResidueExact(CRC, m, tail);
  }

  lemma ResidueValue()
    ensures Residue(CRC) == 0x4ffe
  {
    RunByte(0xffff, Zeros(0), 0);
    RunByte(0xffff, Zeros(1), 0);
    RunNothing(0xffff);
    assert Zeros(0) + [0] == Zeros(1);
    assert Zeros(1) + [0] == Zeros(2);
    assert Zeros(0) == [];
    assert Eight(Xor(0xffff, ByteOf(0))) == 0x40bf;
    assert Eight(Xor(0x40bf, ByteOf(0))) == 0xb001;
    hide Run, Bits, Zeros, Eight, ByteOf;
    OpXor(0xb001, 0xffff);
  }

  // ---------- A known answer ----------

  /** The text 123456789. */
  const CHECK: seq<byte> := [0x31, 0x32, 0x33, 0x34, 0x35, 0x36, 0x37, 0x38, 0x39]

  /** The check value that catalogues give for this 16-bit code. */
  lemma CheckValue()
    ensures Checksum(CHECK) == 0xb4c8
  {
    ChecksumBytewise(CHECK);
    BytewiseOfCheck();
    LastXor();
    hide Checksum, Bytewise, Xor;
  }

  lemma LastXor()
    ensures Xor(0x4b37, 0xffff) == 0xb4c8
  {
  }

  lemma BytewiseOfCheck()
    ensures Bytewise(CHECK) == 0x4b37
  {
    hide Bytewise, Fed;
    CheckSteps();
    assert CHECK[..0] == [] && CHECK[..9] == CHECK;
    BytewiseAt(0);
    BytewiseAt(1);
    BytewiseAt(2);
    BytewiseAt(3);
    BytewiseAt(4);
    BytewiseAt(5);
    BytewiseAt(6);
    BytewiseAt(7);
    BytewiseAt(8);
  }

  lemma BytewiseAt(k: nat)
    requires k < 9
    ensures k == 0 ==> Bytewise(CHECK[..k]) == 0xffff
    ensures Bytewise(CHECK[..k + 1]) == Fed(Bytewise(CHECK[..k]), CHECK[k])
  {
    hide Eight, Xor, ByteOf;
    assert CHECK[..k + 1][..k] == CHECK[..k];
  }

  function Fed(c: bv16, b: byte): bv16 {
    Eight(Xor(c, ByteOf(b)))
  }

  lemma CheckSteps()
    ensures Fed(0xffff, 0x31) == 0x947e
    ensures Fed(0x947e, 0x32) == 0xf595
    ensures Fed(0xf595, 0x33) == 0x7a75
    ensures Fed(0x7a75, 0x34) == 0x30ba
    ensures Fed(0x30ba, 0x35) == 0xa471
    ensures Fed(0xa471, 0x36) == 0x32e4
    ensures Fed(0x32e4, 0x37) == 0x9d73
    ensures Fed(0x9d73, 0x38) == 0x37dd
    ensures Fed(0x37dd, 0x39) == 0x4b37
  {
  }
}
