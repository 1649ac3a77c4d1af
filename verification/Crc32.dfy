/** The instantiation crc32 of the CRC template: its table, its polynomial, and that it has the laws the theory asks for. */
module Crc32 {
  import opened Bytes
  import opened CrcTheory

  /** The register with only bit k set. */
  function Power(k: nat): bv32 {
    if k < 16 then Half(k) else Half(k - 16) << 16
  }

  function Half(k: nat): bv32 {
    if k < 8 then PickAt(k - 0, 0x00000001, 0x00000002, 0x00000004, 0x00000008, 0x00000010, 0x00000020, 0x00000040, 0x00000080)
    else PickAt(k - 8, 0x00000100, 0x00000200, 0x00000400, 0x00000800, 0x00001000, 0x00002000, 0x00004000, 0x00008000)
  }

  function Down(c: bv32): bv32 { c >> 1 }

  /** The polynomial if the bit shifted out is set. */
  function Tap(c: bv32): bv32 { 0xedb8_8320 & (0 - (c & 1)) }

  /** One step of the reflected division. */
  function Shift(c: bv32): bv32 {
    Xor(Down(c), Tap(c))
  }

  /** The step as section 8 of RFC 1952 writes it, for this polynomial. */
  lemma ShiftIs(c: bv32)
    ensures Shift(c) == if c & 1 == 1 then (c >> 1) ^ 0xedb8_8320 else c >> 1
  {
    hide Shift;
    if c & 1 == 1 {
      ShiftTapped(c);
    } else {
      ShiftUntapped(c);
    }
  }

  lemma ShiftTapped(c: bv32)
    requires c & 1 == 1
    ensures Shift(c) == (c >> 1) ^ 0xedb8_8320
  {
  }

  lemma ShiftUntapped(c: bv32)
    requires c & 1 != 1
    ensures Shift(c) == c >> 1
  {
  }

  function Tab(i: bv8): bv32 {
    var row, k := i >> 3, i & 7;
    if row == 0 then Pick(k, 0x00000000, 0x77073096, 0xee0e612c, 0x990951ba, 0x076dc419, 0x706af48f, 0xe963a535, 0x9e6495a3)
    else if row == 1 then Pick(k, 0x0edb8832, 0x79dcb8a4, 0xe0d5e91e, 0x97d2d988, 0x09b64c2b, 0x7eb17cbd, 0xe7b82d07, 0x90bf1d91)
    else if row == 2 then Pick(k, 0x1db71064, 0x6ab020f2, 0xf3b97148, 0x84be41de, 0x1adad47d, 0x6ddde4eb, 0xf4d4b551, 0x83d385c7)
    else if row == 3 then Pick(k, 0x136c9856, 0x646ba8c0, 0xfd62f97a, 0x8a65c9ec, 0x14015c4f, 0x63066cd9, 0xfa0f3d63, 0x8d080df5)
    else if row == 4 then Pick(k, 0x3b6e20c8, 0x4c69105e, 0xd56041e4, 0xa2677172, 0x3c03e4d1, 0x4b04d447, 0xd20d85fd, 0xa50ab56b)
    else if row == 5 then Pick(k, 0x35b5a8fa, 0x42b2986c, 0xdbbbc9d6, 0xacbcf940, 0x32d86ce3, 0x45df5c75, 0xdcd60dcf, 0xabd13d59)
    else if row == 6 then Pick(k, 0x26d930ac, 0x51de003a, 0xc8d75180, 0xbfd06116, 0x21b4f4b5, 0x56b3c423, 0xcfba9599, 0xb8bda50f)
    else if row == 7 then Pick(k, 0x2802b89e, 0x5f058808, 0xc60cd9b2, 0xb10be924, 0x2f6f7c87, 0x58684c11, 0xc1611dab, 0xb6662d3d)
    else if row == 8 then Pick(k, 0x76dc4190, 0x01db7106, 0x98d220bc, 0xefd5102a, 0x71b18589, 0x06b6b51f, 0x9fbfe4a5, 0xe8b8d433)
    else if row == 9 then Pick(k, 0x7807c9a2, 0x0f00f934, 0x9609a88e, 0xe10e9818, 0x7f6a0dbb, 0x086d3d2d, 0x91646c97, 0xe6635c01)
    else if row == 10 then Pick(k, 0x6b6b51f4, 0x1c6c6162, 0x856530d8, 0xf262004e, 0x6c0695ed, 0x1b01a57b, 0x8208f4c1, 0xf50fc457)
    else if row == 11 then Pick(k, 0x65b0d9c6, 0x12b7e950, 0x8bbeb8ea, 0xfcb9887c, 0x62dd1ddf, 0x15da2d49, 0x8cd37cf3, 0xfbd44c65)
    else if row == 12 then Pick(k, 0x4db26158, 0x3ab551ce, 0xa3bc0074, 0xd4bb30e2, 0x4adfa541, 0x3dd895d7, 0xa4d1c46d, 0xd3d6f4fb)
    else if row == 13 then Pick(k, 0x4369e96a, 0x346ed9fc, 0xad678846, 0xda60b8d0, 0x44042d73, 0x33031de5, 0xaa0a4c5f, 0xdd0d7cc9)
    else if row == 14 then Pick(k, 0x5005713c, 0x270241aa, 0xbe0b1010, 0xc90c2086, 0x5768b525, 0x206f85b3, 0xb966d409, 0xce61e49f)
    else if row == 15 then Pick(k, 0x5edef90e, 0x29d9c998, 0xb0d09822, 0xc7d7a8b4, 0x59b33d17, 0x2eb40d81, 0xb7bd5c3b, 0xc0ba6cad)
    else if row == 16 then Pick(k, 0xedb88320, 0x9abfb3b6, 0x03b6e20c, 0x74b1d29a, 0xead54739, 0x9dd277af, 0x04db2615, 0x73dc1683)
    else if row == 17 then Pick(k, 0xe3630b12, 0x94643b84, 0x0d6d6a3e, 0x7a6a5aa8, 0xe40ecf0b, 0x9309ff9d, 0x0a00ae27, 0x7d079eb1)
    else if row == 18 then Pick(k, 0xf00f9344, 0x8708a3d2, 0x1e01f268, 0x6906c2fe, 0xf762575d, 0x806567cb, 0x196c3671, 0x6e6b06e7)
    else if row == 19 then Pick(k, 0xfed41b76, 0x89d32be0, 0x10da7a5a, 0x67dd4acc, 0xf9b9df6f, 0x8ebeeff9, 0x17b7be43, 0x60b08ed5)
    else if row == 20 then Pick(k, 0xd6d6a3e8, 0xa1d1937e, 0x38d8c2c4, 0x4fdff252, 0xd1bb67f1, 0xa6bc5767, 0x3fb506dd, 0x48b2364b)
    else if row == 21 then Pick(k, 0xd80d2bda, 0xaf0a1b4c, 0x36034af6, 0x41047a60, 0xdf60efc3, 0xa867df55, 0x316e8eef, 0x4669be79)
    else if row == 22 then Pick(k, 0xcb61b38c, 0xbc66831a, 0x256fd2a0, 0x5268e236, 0xcc0c7795, 0xbb0b4703, 0x220216b9, 0x5505262f)
    else if row == 23 then Pick(k, 0xc5ba3bbe, 0xb2bd0b28, 0x2bb45a92, 0x5cb36a04, 0xc2d7ffa7, 0xb5d0cf31, 0x2cd99e8b, 0x5bdeae1d)
    else if row == 24 then Pick(k, 0x9b64c2b0, 0xec63f226, 0x756aa39c, 0x026d930a, 0x9c0906a9, 0xeb0e363f, 0x72076785, 0x05005713)
    else if row == 25 then Pick(k, 0x95bf4a82, 0xe2b87a14, 0x7bb12bae, 0x0cb61b38, 0x92d28e9b, 0xe5d5be0d, 0x7cdcefb7, 0x0bdbdf21)
    else if row == 26 then Pick(k, 0x86d3d2d4, 0xf1d4e242, 0x68ddb3f8, 0x1fda836e, 0x81be16cd, 0xf6b9265b, 0x6fb077e1, 0x18b74777)
    else if row == 27 then Pick(k, 0x88085ae6, 0xff0f6a70, 0x66063bca, 0x11010b5c, 0x8f659eff, 0xf862ae69, 0x616bffd3, 0x166ccf45)
    else if row == 28 then Pick(k, 0xa00ae278, 0xd70dd2ee, 0x4e048354, 0x3903b3c2, 0xa7672661, 0xd06016f7, 0x4969474d, 0x3e6e77db)
    else if row == 29 then Pick(k, 0xaed16a4a, 0xd9d65adc, 0x40df0b66, 0x37d83bf0, 0xa9bcae53, 0xdebb9ec5, 0x47b2cf7f, 0x30b5ffe9)
    else if row == 30 then Pick(k, 0xbdbdf21c, 0xcabac28a, 0x53b39330, 0x24b4a3a6, 0xbad03605, 0xcdd70693, 0x54de5729, 0x23d967bf)
    else Pick(k, 0xb3667a2e, 0xc4614ab8, 0x5d681b02, 0x2a6f2b94, 0xb40bbe37, 0xc30c8ea1, 0x5a05df1b, 0x2d02ef8d)
  }

  function Xor(a: bv32, b: bv32): bv32 { a ^ b }
  function AtLeast(w: bv32, f: bv32): bool { w >= f }
  function Above(w: bv32, k: nat): bool { k < 32 && AtLeast(w, Power(k)) }
  function ByteOf(b: bv8): bv32 { b as bv32 }
  function Low(w: bv32): bv8 { (w & 0xff) as bv8 }
  function Shr(w: bv32): bv32 { w >> 8 }

  const CRC: Register<bv32> := Register(
    32, 0, 1,
    (a, b) => Xor(a, b), c => Shift(c), k => Power(k), (w, k) => Above(w, k),
    b => ByteOf(b), w => Low(w), w => Shr(w), i => Tab(i),
    0xffffffff, 0xffffffff)

  lemma XorBits(a: bv32, b: bv32, c: bv32)
    ensures a ^ b == b ^ a && (a ^ b) ^ c == a ^ (b ^ c) && a ^ a == 0 && a ^ 0 == a
  {
  }

  lemma PartsLinear(a: bv32, b: bv32)
    ensures Down(Xor(a, b)) == Xor(Down(a), Down(b)) && Tap(Xor(a, b)) == Xor(Tap(a), Tap(b))
  {
  }

  lemma Swaps(a: bv32, b: bv32, c: bv32)
    ensures Xor(a, b) == Xor(b, a) && Xor(Xor(a, b), c) == Xor(a, Xor(b, c))
  {
  }

  lemma Rearranges(a: bv32, b: bv32, p: bv32, q: bv32)
    ensures Xor(Xor(a, b), Xor(p, q)) == Xor(Xor(a, p), Xor(b, q))
  {
    hide Xor;
    Swaps(a, b, Xor(p, q));
    Swaps(b, p, q);
    Swaps(p, b, q);
    Swaps(a, p, Xor(b, q));
  }

  lemma ShiftLinear(a: bv32, b: bv32)
    ensures Shift(Xor(a, b)) == Xor(Shift(a), Shift(b))
  {
    hide Xor, Down, Tap;
    PartsLinear(a, b);
    Rearranges(Down(a), Down(b), Tap(a), Tap(b));
  }

  lemma ShiftKernel(a: bv32)
    requires Shift(a) == 0
    ensures a == 0
  {
  }

  lemma HalfDoubles(k: nat)
    requires k < 16
    ensures Half(k) <= 0x8000
    ensures if k < 15 then Half(k + 1) == Half(k) << 1 && Half(k) <= 0x4000 else Half(k) == 0x8000
  {
  }

  lemma Widen(p: bv32)
    requires p <= 0x4000
    ensures (p << 1) << 16 == (p << 16) << 1 && p & 0x8000_0000 == 0 && (p << 16) & 0x8000_0000 == 0
  {
  }

  lemma PowerDoubles(k: nat)
    requires k + 1 < 32
    ensures Power(k + 1) == Power(k) << 1 && Power(k) & 0x8000_0000 == 0
  {
    hide Half, Power;
    PowerIs(k);
    PowerIs(k + 1);
    if k < 15 {
      HalfDoubles(k);
      Widen(Half(k));
    } else if k == 15 {
      HalfDoubles(k);
      HalfStarts();
    } else {
      HalfDoubles(k - 16);
      Widen(Half(k - 16));
    }
  }

  lemma PowerIs(k: nat)
    ensures Power(k) == if k < 16 then Half(k) else Half(k - 16) << 16
  {
  }

  lemma HalfStarts()
    ensures Half(0) == 1
  {
  }

  lemma PowerNonZero(k: nat)
    requires k < 32
    ensures Power(k) != 0
  {
  }

  /** A bit above the lowest place survives one step, at worst one place lower. */
  lemma TopSinksByOne(w: bv32, e: bv32, f: bv32, g: bv32)
    requires f & 0x8000_0000 == 0 && g == f << 1 && AtLeast(w, g) && e <= 1
    ensures AtLeast(Shift(Xor(w, e)), f)
  {
  }

  lemma LowLaws(a: bv32, b: bv32, x: bv8)
    ensures ((a ^ b) & 0xff) as bv8 == (a & 0xff) as bv8 ^ (b & 0xff) as bv8
    ensures (a ^ b) >> 8 == (a >> 8) ^ (b >> 8)
    ensures ((x as bv32) & 0xff) as bv8 == x && (x as bv32) >> 8 == 0
  {
  }

  function Part(b: bv8, mask: bv8): bv32 { (b & mask) as bv32 }

  lemma ByteParts(b: bv8)
    ensures var low := Xor(Xor(Xor(Xor(0, Part(b, 1)), Part(b, 2)), Part(b, 4)), Part(b, 8));
      ByteOf(b) == Xor(Xor(Xor(Xor(low, Part(b, 16)), Part(b, 32)), Part(b, 64)), Part(b, 128))
  {
  }

  function Eight(c: bv32): bv32 {
    Shift(Shift(Shift(Shift(Shift(Shift(Shift(Shift(c))))))))
  }

  lemma TabIsEightLow(i: bv8)
    requires i < 128
    ensures Tab(i) == Eight(i as bv32)
  {
  }

  lemma TabIsEightHigh(i: bv8)
    requires i >= 128
    ensures Tab(i) == Eight(i as bv32)
  {
  }

  /** Every entry of the table is eight division steps of its index. */
  lemma TabIsEight(i: bv8)
    ensures Tab(i) == Eight(i as bv32)
  {
    hide Tab, Eight;
    if i < 128 {
      TabIsEightLow(i);
    } else {
      TabIsEightHigh(i);
    }
  }

  lemma EightOfHigh(w: bv32)
    ensures Eight((w >> 8) << 8) == w >> 8
  {
  }

  lemma SplitByte(w: bv32)
    ensures w == ((w & 0xff) as bv8 as bv32) ^ ((w >> 8) << 8)
  {
  }

  // The laws, one by one.

  lemma OpXor(a: bv32, b: bv32)
    ensures CRC.xor(a, b) == Xor(a, b)
  {
    hide Xor;
  }

  lemma OpShift(a: bv32)
    ensures CRC.shift(a) == Shift(a)
  {
    hide Shift;
  }

  lemma OpBit(k: nat)
    ensures CRC.bit(k) == Power(k)
  {
    hide Power;
  }

  lemma OpAbove(a: bv32, k: nat)
    ensures CRC.above(a, k) == Above(a, k)
  {
    hide Above;
  }

  lemma OpLow(a: bv32)
    ensures CRC.low(a) == Low(a) && CRC.shr8(a) == Shr(a)
  {
    hide Low, Shr;
  }

  lemma OpByte(i: bv8)
    ensures CRC.byteOf(i) == ByteOf(i) && CRC.tab(i) == Tab(i)
  {
    hide ByteOf, Tab;
  }

  lemma Commutes()
    ensures Commutative(CRC)
  {
    forall a: bv32, b: bv32
      ensures CRC.xor(a, b) == CRC.xor(b, a)
    {
      OpXor(a, b);
      OpXor(b, a);
      XorBits(a, b, 0);
    }
  }

  lemma XorAssociates(a: bv32, b: bv32, c: bv32)
    ensures Xor(Xor(a, b), c) == Xor(a, Xor(b, c))
  {
  }

  lemma Associates()
    ensures Associative(CRC)
  {
    hide Xor;
    forall a: bv32, b: bv32, c: bv32
      ensures CRC.xor(CRC.xor(a, b), c) == CRC.xor(a, CRC.xor(b, c))
    {
      OpXor(a, b);
      OpXor(b, c);
      OpXor(Xor(a, b), c);
      OpXor(a, Xor(b, c));
      XorAssociates(a, b, c);
    }
  }

  lemma Cancels()
    ensures SelfInverse(CRC)
  {
    forall a: bv32
      ensures CRC.xor(a, a) == CRC.zero && CRC.xor(a, CRC.zero) == a
    {
      OpXor(a, a);
      OpXor(a, 0);
      XorBits(a, a, a);
    }
  }

  lemma ShiftsLinearly()
    ensures CrcTheory.ShiftLinear(CRC)
  {
    hide Shift, Xor;
    forall a: bv32, b: bv32
      ensures CRC.shift(CRC.xor(a, b)) == CRC.xor(CRC.shift(a), CRC.shift(b))
    {
      OpXor(a, b);
      OpShift(a);
      OpShift(b);
      OpShift(Xor(a, b));
      OpXor(Shift(a), Shift(b));
      ShiftLinear(a, b);
    }
  }

  lemma ShiftsInjectively()
    ensures ShiftInjective(CRC)
  {
    hide Shift;
    forall a: bv32
      ensures CRC.shift(a) == CRC.zero ==> a == CRC.zero
    {
      OpShift(a);
      if Shift(a) == 0 {
        ShiftKernel(a);
      }
    }
  }

  lemma PowerShifts(k: nat)
    requires k < 7
    ensures Shift(Power(k + 1)) == Power(k)
  {
  }

  lemma MovesBitsDown()
    ensures BitsMoveDown(CRC)
  {
    assert Power(0) == 1;
    hide Power, Shift;
    OpBit(0);
    forall k: nat | k < 7
      ensures CRC.shift(CRC.bit(k + 1)) == CRC.bit(k)
    {
      OpBit(k);
      OpBit(k + 1);
      OpShift(Power(k + 1));
      PowerShifts(k);
    }
  }

  lemma AboveStep(w: bv32, k: nat, e: bv32)
    requires k + 1 < 32 && Above(w, k + 1) && e <= 1
    ensures Above(Shift(Xor(w, e)), k)
  {
    hide Power, Shift, Xor, AtLeast;
    PowerDoubles(k);
    TopSinksByOne(w, e, Power(k), Power(k + 1));
  }

  lemma SinksByOne()
    ensures TopSinks(CRC)
  {
    assert Above(Shift(1), 31) by {
      assert Power(31) == 0x8000_0000 && Shift(1) == 0xedb8_8320;
    }
    hide Power, Shift, Above, Xor;
    OpShift(1);
    OpAbove(Shift(1), 31);
    forall w: bv32, k: nat, b: bool | k + 1 < 32 && CRC.above(w, k + 1)
      ensures CRC.above(CRC.shift(CRC.xor(w, Lift(CRC, b))), k)
    {
      var e: bv32 := if b then 1 else 0;
      OpAbove(w, k + 1);
      OpXor(w, e);
      OpShift(Xor(w, e));
      OpAbove(Shift(Xor(w, e)), k);
      AboveStep(w, k, e);
    }
  }

  lemma AboveEdges(w: bv32, k: nat)
    ensures Above(w, k) ==> w != 0
    ensures w != 0 ==> Above(w, 0)
  {
    assert Power(0) == 1;
    if k < 32 {
      PowerNonZero(k);
    }
    hide Power;
  }

  lemma AbovesNonZero()
    ensures AboveNonZero(CRC)
  {
    hide Above;
    forall w: bv32, k: nat
      ensures (CRC.above(w, k) ==> w != CRC.zero) && (w != CRC.zero ==> CRC.above(w, 0))
    {
      OpAbove(w, k);
      OpAbove(w, 0);
      AboveEdges(w, k);
    }
  }

  lemma XorLow(a: bv32, b: bv32)
    ensures Low(Xor(a, b)) == Low(a) ^ Low(b) && Shr(Xor(a, b)) == Xor(Shr(a), Shr(b))
  {
    LowLaws(a, b, 0);
  }

  lemma SplitsBytes()
    ensures ByteLaws(CRC)
  {
    hide Xor, Low, Shr;
    forall a: bv32, x: bv32
      ensures CRC.low(CRC.xor(a, x)) == CRC.low(a) ^ CRC.low(x)
      ensures CRC.shr8(CRC.xor(a, x)) == CRC.xor(CRC.shr8(a), CRC.shr8(x))
    {
      OpXor(a, x);
      OpLow(a);
      OpLow(x);
      OpLow(Xor(a, x));
      OpXor(Shr(a), Shr(x));
      XorLow(a, x);
    }
  }

  lemma KeepsBytesLow()
    ensures BytesLow(CRC)
  {
    forall b: bv8
      ensures CRC.low(CRC.byteOf(b)) == b && CRC.shr8(CRC.byteOf(b)) == CRC.zero
    {
      OpByte(b);
      OpLow(ByteOf(b));
      LowLaws(0, 0, b);
    }
  }

  lemma ShrsEmpty()
    ensures ShrEmpties(CRC)
  {
    forall w: bv32
      ensures CrcTheory.Shr(CRC, 4, w) == CRC.zero
    {
      var w1, w2, w3, w4 := Shr(w), Shr(Shr(w)), Shr(Shr(Shr(w))), Shr(Shr(Shr(Shr(w))));
      assert w4 == 0;
      hide Shr;
      OpLow(w);
      OpLow(w1);
      OpLow(w2);
      OpLow(w3);
      assert CrcTheory.Shr(CRC, 4, w) == CrcTheory.Shr(CRC, 3, w1) == CrcTheory.Shr(CRC, 2, w2) == CrcTheory.Shr(CRC, 1, w3) == CrcTheory.Shr(CRC, 0, w4);
    }
  }

  function BitIf(b: bool, k: nat): bv32 {
    if b then Power(k) else 0
  }

  lemma PackNext(s: seq<bool>, k: nat, acc: bv32)
    requires k < |s| && k < 8 && Pack(CRC, s[..k]) == acc
    ensures Pack(CRC, s[..k + 1]) == Xor(acc, BitIf(s[k], k))
  {
    hide Power, Pack, Xor;
    PackStep(CRC, s, k);
    OpBit(k);
    OpXor(acc, BitIf(s[k], k));
  }

  /** The lower four bits packed one by one, and then the upper four. */
  function LowPack(s: seq<bool>): bv32
    requires |s| == 8
  {
    Xor(Xor(Xor(Xor(0, BitIf(s[0], 0)), BitIf(s[1], 1)), BitIf(s[2], 2)), BitIf(s[3], 3))
  }

  function HighPack(s: seq<bool>, low: bv32): bv32
    requires |s| == 8
  {
    Xor(Xor(Xor(Xor(low, BitIf(s[4], 4)), BitIf(s[5], 5)), BitIf(s[6], 6)), BitIf(s[7], 7))
  }

  lemma PacksLow(s: seq<bool>)
    requires |s| == 8
    ensures Pack(CRC, s[..4]) == LowPack(s)
  {
    assert Pack(CRC, s[..0]) == 0;
    hide Pack, BitIf, Xor;
    var p0: bv32 := 0;
    var p1 := Xor(p0, BitIf(s[0], 0));
    var p2 := Xor(p1, BitIf(s[1], 1));
    var p3 := Xor(p2, BitIf(s[2], 2));
    PackNext(s, 0, p0);
    PackNext(s, 1, p1);
    PackNext(s, 2, p2);
    PackNext(s, 3, p3);
  }

  lemma PacksHigh(s: seq<bool>, low: bv32)
    requires |s| == 8 && Pack(CRC, s[..4]) == low
    ensures Pack(CRC, s[..8]) == HighPack(s, low)
  {
    hide Pack, BitIf, Xor;
    var p5 := Xor(low, BitIf(s[4], 4));
    var p6 := Xor(p5, BitIf(s[5], 5));
    var p7 := Xor(p6, BitIf(s[6], 6));
    PackNext(s, 4, low);
    PackNext(s, 5, p5);
    PackNext(s, 6, p6);
    PackNext(s, 7, p7);
  }

  lemma PacksByte(b: bv8)
    ensures CRC.byteOf(b) == Pack(CRC, BitsOf(b))
  {
    hide Pack, LowPack, HighPack, BitsOf;
    var s := BitsOf(b);
    assert s[..8] == s;
    PacksLow(s);
    PacksHigh(s, LowPack(s));
    OpByte(b);
    PackedBits(b);
  }

  lemma BitParts(b: bv8)
    ensures var s := BitsOf(b);
      && BitIf(s[0], 0) == Part(b, 1) && BitIf(s[1], 1) == Part(b, 2)
      && BitIf(s[2], 2) == Part(b, 4) && BitIf(s[3], 3) == Part(b, 8)
      && BitIf(s[4], 4) == Part(b, 16) && BitIf(s[5], 5) == Part(b, 32)
      && BitIf(s[6], 6) == Part(b, 64) && BitIf(s[7], 7) == Part(b, 128)
  {
    assert Power(0) == 1 && Power(1) == 2 && Power(2) == 4 && Power(3) == 8;
    assert Power(4) == 16 && Power(5) == 32 && Power(6) == 64 && Power(7) == 128;
    hide Power;
  }

  lemma PackedBits(b: bv8)
    ensures ByteOf(b) == HighPack(BitsOf(b), LowPack(BitsOf(b)))
  {
    hide BitIf, Part, Xor, ByteOf, BitsOf;
    ByteParts(b);
    BitParts(b);
  }

  lemma PacksBytes()
    ensures BytesPacked(CRC)
  {
    forall b: bv8
      ensures CRC.byteOf(b) == Pack(CRC, BitsOf(b))
    {
      PacksByte(b);
    }
  }

  lemma EightIs(w: bv32)
    ensures CrcTheory.Eight(CRC, w) == Eight(w)
  {
    hide Shift;
    var w1 := Shift(w);
    var w2 := Shift(w1);
    var w3 := Shift(w2);
    var w4 := Shift(w3);
    var w5 := Shift(w4);
    var w6 := Shift(w5);
    var w7 := Shift(w6);
    OpShift(w);
    OpShift(w1);
    OpShift(w2);
    OpShift(w3);
    OpShift(w4);
    OpShift(w5);
    OpShift(w6);
    OpShift(w7);
  }

  lemma EightLinear(a: bv32, b: bv32)
    ensures Eight(Xor(a, b)) == Xor(Eight(a), Eight(b))
  {
    hide Shift, Xor;
    ShiftLinear(a, b);
    var a1, b1 := Shift(a), Shift(b);
    ShiftLinear(a1, b1);
    var a2, b2 := Shift(a1), Shift(b1);
    ShiftLinear(a2, b2);
    var a3, b3 := Shift(a2), Shift(b2);
    ShiftLinear(a3, b3);
    var a4, b4 := Shift(a3), Shift(b3);
    ShiftLinear(a4, b4);
    var a5, b5 := Shift(a4), Shift(b4);
    ShiftLinear(a5, b5);
    var a6, b6 := Shift(a5), Shift(b5);
    ShiftLinear(a6, b6);
    var a7, b7 := Shift(a6), Shift(b6);
    ShiftLinear(a7, b7);
    var a8, b8 := Shift(a7), Shift(b7);
  }

  lemma TableStep(w: bv32)
    ensures Eight(w) == Xor(Tab(Low(w)), Shr(w))
  {
    var lo := Low(w);
    SplitByte(w);
    TabIsEight(lo);
    EightOfHigh(w);
    EightLinear(lo as bv32, (w >> 8) << 8);
    hide Eight, Tab;
  }

  lemma StepsByTable()
    ensures TableSteps(CRC)
  {
    hide CrcTheory.Eight, Eight, Tab, Low, Shr, Xor;
    forall w: bv32
      ensures CrcTheory.Eight(CRC, w) == CRC.xor(CRC.tab(CRC.low(w)), CRC.shr8(w))
    {
      TableStep(w);
      EightIs(w);
      OpLow(w);
      OpByte(Low(w));
      OpXor(Tab(Low(w)), Shr(w));
    }
  }

  lemma Laws()
    ensures CrcTheory.Laws(CRC)
  {
    Commutes();
    Associates();
    Cancels();
    ShiftsLinearly();
    ShiftsInjectively();
    MovesBitsDown();
    SinksByOne();
    AbovesNonZero();
    PacksBytes();
    StepsByTable();
    SplitsBytes();
    KeepsBytesLow();
    ShrsEmpty();
    hide Commutative, Associative, SelfInverse, CrcTheory.ShiftLinear, ShiftInjective, BitsMoveDown, TopSinks;
    hide AboveNonZero, BytesPacked, TableSteps, ByteLaws, BytesLow, ShrEmpties;
  }

  // ---------- What the instantiation guarantees ----------

  /** The checksum as the reference defines it: bit by bit. */
  ghost function Checksum(m: seq<byte>): bv32 {
    Crc(CRC, m)
  }

  method Calculate(data: seq<byte>) returns (crc: bv32)
    ensures crc == Checksum(data)
  {
    Laws();
    hide CrcTheory.Laws;
    crc := CrcTheory.Calculate(CRC, data);
  }

  /** The reference again, byte-wise: xor the byte in and take eight division steps. */
  function Bytewise(m: seq<byte>): bv32 {
    if m == [] then 0xffffffff else Eight(Xor(Bytewise(m[..|m| - 1]), ByteOf(m[|m| - 1])))
  }

  lemma {:induction false} ChecksumBytewise(m: seq<byte>)
    ensures Checksum(m) == Xor(Bytewise(m), 0xffffffff)
  {
    BytewiseRun(m);
    hide Run, Bits, Bytewise, Xor;
    OpXor(Bytewise(m), 0xffffffff);
  }

  lemma RunByte(c: bv32, m: seq<byte>, b: byte)
    ensures Run(CRC, c, Bits(m + [b])) == Eight(Xor(Run(CRC, c, Bits(m)), ByteOf(b)))
  {
    hide Run, Bits, Xor, Eight, ByteOf, CrcTheory.Eight, CrcTheory.Laws;
    Laws();
    RunByteEight(CRC, c, m, b);
    OpByte(b);
    var r: bv32 := Run(CRC, c, Bits(m));
    OpXor(r, ByteOf(b));
    EightIs(Xor(r, ByteOf(b)));
  }

  lemma RunNothing(c: bv32)
    ensures Run(CRC, c, Bits([])) == c
  {
  }

  lemma {:induction false} BytewiseRun(m: seq<byte>)
    ensures Run(CRC, CRC.init, Bits(m)) == Bytewise(m)
  {
    hide Xor, Eight, ByteOf, Run, Bits;
    if m == [] {
      RunNothing(CRC.init);
    } else {
      var n := |m| - 1;
      BytewiseRun(m[..n]);
      RunByte(CRC.init, m[..n], m[n]);
      assert m == m[..n] + [m[n]];
    }
  }

  /** Messages of equal length that differ only in bits within a window of 32 never share a checksum. */
  lemma BurstDetected(x: seq<byte>, y: seq<byte>, from: nat)
    requires |x| == |y| && x != y
    requires forall i :: 0 <= i < |Bits(x)| && Bits(x)[i] != Bits(y)[i] ==> from <= i < from + 32
    ensures Checksum(x) != Checksum(y)
  {
    Laws();
    hide Bits;
    CrcTheory.MessageBurstDetected(CRC, x, y, from);
  }

  /** The same for a damaged stretch of at most 4 whole bytes. */
  lemma DamagedBytesDetected(before: seq<byte>, x: seq<byte>, y: seq<byte>, after: seq<byte>)
    requires |x| == |y| <= 4 && x != y
    ensures Checksum(before + x + after) != Checksum(before + y + after)
  {
    Laws();
    CrcTheory.DamagedBytesDetected(CRC, before, x, y, after);
  }

  /** Fifteen bits in five bytes: the polynomial itself. */
  const MULTIPLE: seq<byte> := [0x41, 0x06, 0x71, 0xdb, 0x01]

  /** The 32-bit polynomial has fifteen terms, so that an odd number of differing bits can go unnoticed. */
  lemma OddDifferenceMissed()
    ensures Ones(CrcTheory.XorBits(Bits(Zeros(5)), Bits(MULTIPLE))) % 2 == 1
    ensures Checksum(Zeros(5)) == Checksum(MULTIPLE)
  {
    assert |Zeros(5)| == |MULTIPLE| == 5;
    hide CrcTheory.XorBits, Bits, Ones, Xor, Bytewise, Checksum, MULTIPLE;
    OnesOfDifference(Bits(Zeros(5)), Bits(MULTIPLE));
    MultipleOnes();
    ChecksumBytewise(Zeros(5));
    ChecksumBytewise(MULTIPLE);
    ZerosBytewise();
    MultipleBytewise();
  }

  lemma OnesOfFive(a: byte, b: byte, c: byte, d: byte, e: byte)
    ensures Ones(Bits([a, b, c, d, e])) ==
      Ones(BitsOf(a)) + Ones(BitsOf(b)) + Ones(BitsOf(c)) + Ones(BitsOf(d)) + Ones(BitsOf(e))
  {
    hide BitsOf;
    OnesConcat(Bits([]), BitsOf(a));
    OnesConcat(Bits([a]), BitsOf(b));
    OnesConcat(Bits([a, b]), BitsOf(c));
    OnesConcat(Bits([a, b, c]), BitsOf(d));
    OnesConcat(Bits([a, b, c, d]), BitsOf(e));
    hide Ones;
    assert [a][..0] == [] && [a, b][..1] == [a] && [a, b, c][..2] == [a, b] && [a, b, c, d][..3] == [a, b, c];
    assert [a, b, c, d, e][..4] == [a, b, c, d];
    assert Ones(Bits([])) == 0 by { NoOnes(); }
  }

  lemma NoOnes()
    ensures Ones(Bits([])) == 0
  {
  }

  lemma MultipleOnes()
    ensures Ones(Bits(Zeros(5))) == 0 && Ones(Bits(MULTIPLE)) == 15
  {
    assert Zeros(5) == [0, 0, 0, 0, 0];
    OnesOfFive(0, 0, 0, 0, 0);
    OnesOfFive(0x41, 0x06, 0x71, 0xdb, 0x01);
    hide Bits;
    OnesOfByte(0);
    OnesOfByte(0x41);
    OnesOfByte(0x06);
    OnesOfByte(0x71);
    OnesOfByte(0xdb);
    OnesOfByte(0x01);
  }

  function One(b: byte, mask: byte): nat {
    if b & mask != 0 then 1 else 0
  }

  lemma OnesOfByte(b: byte)
    ensures Ones(BitsOf(b)) ==
      One(b, 1) + One(b, 2) + One(b, 4) + One(b, 8) + One(b, 16) + One(b, 32) + One(b, 64) + One(b, 128)
  {
    hide BitsOf, Ones, One;
    BitsAre(b);
    OnesOfEight(BitsOf(b));
  }

  lemma OnesOfEight(s: seq<bool>)
    requires |s| == 8
    ensures Ones(s) ==
      Bit(s, 0) + Bit(s, 1) + Bit(s, 2) + Bit(s, 3) + Bit(s, 4) + Bit(s, 5) + Bit(s, 6) + Bit(s, 7)
  {
    assert s[..8] == s && s[..0] == [] && Ones(s[..0]) == 0;
    hide Ones, Bit;
    OnesNext(s, 0);
    OnesNext(s, 1);
    OnesNext(s, 2);
    OnesNext(s, 3);
    OnesNext(s, 4);
    OnesNext(s, 5);
    OnesNext(s, 6);
    OnesNext(s, 7);
  }

  function Bit(s: seq<bool>, k: nat): nat
    requires k < |s|
  {
    if s[k] then 1 else 0
  }

  lemma BitsAre(b: byte)
    ensures var s := BitsOf(b);
      && Bit(s, 0) == One(b, 1) && Bit(s, 1) == One(b, 2) && Bit(s, 2) == One(b, 4) && Bit(s, 3) == One(b, 8)
      && Bit(s, 4) == One(b, 16) && Bit(s, 5) == One(b, 32) && Bit(s, 6) == One(b, 64) && Bit(s, 7) == One(b, 128)
  {
  }

  lemma OnesNext(s: seq<bool>, k: nat)
    requires k < |s|
    ensures Ones(s[..k + 1]) == Ones(s[..k]) + Bit(s, k)
  {
    assert s[..k + 1][..k] == s[..k];
  }

  lemma BytewiseOfFive(a: byte, b: byte, c: byte, d: byte, e: byte)
    ensures var r: bv32 := Eight(Xor(Eight(Xor(0xffffffff, ByteOf(a))), ByteOf(b)));
      Bytewise([a, b, c, d, e]) == Eight(Xor(Eight(Xor(Eight(Xor(r, ByteOf(c))), ByteOf(d))), ByteOf(e)))
  {
    hide Eight, Xor, ByteOf, Bytewise;
    BytewiseNext([], a);
    BytewiseNext([a], b);
    BytewiseNext([a, b], c);
    BytewiseNext([a, b, c], d);
    BytewiseNext([a, b, c, d], e);
    Appends(a, b, c, d, e);
    BytewiseNothing();
  }

  lemma BytewiseNothing()
    ensures Bytewise([]) == 0xffff_ffff
  {
  }

  lemma Appends(a: byte, b: byte, c: byte, d: byte, e: byte)
    ensures [] + [a] == [a] && [a] + [b] == [a, b] && [a, b] + [c] == [a, b, c]
    ensures [a, b, c] + [d] == [a, b, c, d] && [a, b, c, d] + [e] == [a, b, c, d, e]
  {
  }

  lemma BytewiseNext(m: seq<byte>, b: byte)
    ensures Bytewise(m + [b]) == Eight(Xor(Bytewise(m), ByteOf(b)))
  {
    hide Eight, Xor, ByteOf;
    assert (m + [b])[..|m|] == m;
  }

  lemma ZerosBytewise()
    ensures Bytewise(Zeros(5)) == 0x39dd_08e2
  {
    assert Zeros(5) == [0, 0, 0, 0, 0];
    hide Bytewise, Zeros;
    BytewiseOfFive(0, 0, 0, 0, 0);
    assert Eight(Xor(0xffff_ffff, ByteOf(0))) == 0x2dfd_1072;
    assert Eight(Xor(0x2dfd_1072, ByteOf(0))) == 0xbe26_ed00;
    assert Eight(Xor(0xbe26_ed00, ByteOf(0))) == 0x00be_26ed;
    assert Eight(Xor(0x00be_26ed, ByteOf(0))) == 0xdebb_20e3;
    assert Eight(Xor(0xdebb_20e3, ByteOf(0))) == 0x39dd_08e2;
    hide Eight, Xor, ByteOf;
  }

  lemma MultipleBytewise()
    ensures Bytewise(MULTIPLE) == 0x39dd_08e2
  {
    hide Bytewise;
    BytewiseOfFive(0x41, 0x06, 0x71, 0xdb, 0x01);
    assert Eight(Xor(0xffff_ffff, ByteOf(0x41))) == 0x2c26_6174;
    assert Eight(Xor(0x2c26_6174, ByteOf(0x06))) == 0xbe27_3671;
    assert Eight(Xor(0xbe27_3671, ByteOf(0x71))) == 0x00be_2736;
    assert Eight(Xor(0x00be_2736, ByteOf(0xdb))) == 0xdebb_20e2;
    assert Eight(Xor(0xdebb_20e2, ByteOf(0x01))) == 0x39dd_08e2;
    hide Eight, Xor, ByteOf;
  }

  /** A 4-byte tail turns the checksum into 0x2144_df1c exactly when it is the checksum of what precedes it. */
  lemma ResidueExact(m: seq<byte>, tail: seq<byte>)
    requires |tail| == 4
    ensures Checksum(m + tail) == 0x2144_df1c <==> tail == LowBytes(CRC, Checksum(m), 4)
  {
    Laws();
    ResidueValue();
    hide CrcTheory.Laws;
    CrcTheory.ResidueExact(CRC, m, tail);
  }

  lemma ResidueValue()
    ensures Residue(CRC) == 0x2144_df1c
  {
    RunByte(0xffffffff, Zeros(0), 0);
    RunByte(0xffffffff, Zeros(1), 0);
    RunByte(0xffffffff, Zeros(2), 0);
    RunByte(0xffffffff, Zeros(3), 0);
    RunNothing(0xffffffff);
    assert Zeros(0) + [0] == Zeros(1);
    assert Zeros(1) + [0] == Zeros(2);
    assert Zeros(2) + [0] == Zeros(3);
    assert Zeros(3) + [0] == Zeros(4);
    assert Zeros(0) == [];
    assert Eight(Xor(0xffffffff, ByteOf(0))) == 0x2dfd1072;
    assert Eight(Xor(0x2dfd1072, ByteOf(0))) == 0xbe26ed00;
    assert Eight(Xor(0xbe26ed00, ByteOf(0))) == 0x00be26ed;
    assert Eight(Xor(0x00be26ed, ByteOf(0))) == 0xdebb20e3;
    hide Run, Bits, Zeros, Eight, ByteOf;
    OpXor(0xdebb20e3, 0xffffffff);
  }

  // ---------- A known answer ----------

  /** The text 123456789. */
  const CHECK: seq<byte> := [0x31, 0x32, 0x33, 0x34, 0x35, 0x36, 0x37, 0x38, 0x39]

  /** The check value that catalogues give for this 32-bit code. */
  lemma CheckValue()
    ensures Checksum(CHECK) == 0xcbf4_3926
  {
    ChecksumBytewise(CHECK);
    BytewiseOfCheck();
    LastXor();
    hide Checksum, Bytewise, Xor;
  }

  lemma LastXor()
    ensures Xor(0x340b_c6d9, 0xffff_ffff) == 0xcbf4_3926
  {
  }

  lemma BytewiseOfCheck()
    ensures Bytewise(CHECK) == 0x340b_c6d9
  {
    hide Bytewise, Fed;
    CheckSteps();
    assert CHECK[..0] == [] && CHECK[..9] == CHECK;
    BytewiseAt(0);
    BytewiseAt(1);
    BytewiseAt(2);
    BytewiseAt(3);
    BytewiseAt(4);
    BytewiseAt(5);
    BytewiseAt(6);
    BytewiseAt(7);
    BytewiseAt(8);
  }

  lemma BytewiseAt(k: nat)
    requires k < 9
    ensures k == 0 ==> Bytewise(CHECK[..k]) == 0xffff_ffff
    ensures Bytewise(CHECK[..k + 1]) == Fed(Bytewise(CHECK[..k]), CHECK[k])
  {
    hide Eight, Xor, ByteOf;
    assert CHECK[..k + 1][..k] == CHECK[..k];
  }

  function Fed(c: bv32, b: byte): bv32 {
    Eight(Xor(c, ByteOf(b)))
  }

  lemma CheckSteps()
    ensures Fed(0xffff_ffff, 0x31) == 0x7c23_1048
    ensures Fed(0x7c23_1048, 0x32) == 0xb0ac_bb32
    ensures Fed(0xb0ac_bb32, 0x33) == 0x77b7_9c2d
    ensures Fed(0x77b7_9c2d, 0x34) == 0x641c_1f5c
    ensures Fed(0x641c_1f5c, 0x35) == 0x340a_c5e3
    ensures Fed(0x340a_c5e3, 0x36) == 0xf68d_2c9e
    ensures Fed(0xf68d_2c9e, 0x37) == 0xaffc_9660
    ensures Fed(0xaffc_9660, 0x38) == 0x651f_2550
    ensures Fed(0x651f_2550, 0x39) == 0x340b_c6d9
  {
  }
}
