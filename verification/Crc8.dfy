/** The bit-serial crc8 over a 16-bit register, and its one-byte size argument. */
module Crc8 {
  import opened Bytes

  // ---------- The packet error code: x^8 + x^2 + x + 1, most significant bit first ----------

  function PecShift(c: byte): byte {
    (c << 1) ^ (if c & 0x80 != 0 then 0x07 else 0)
  }

  function Xor(a: byte, b: byte): byte { a ^ b }

  function PecByte(c: byte): byte {
    PecShift(PecShift(PecShift(PecShift(PecShift(PecShift(PecShift(PecShift(c))))))))
  }

  function Pec(m: seq<byte>): byte {
    if m == [] then 0 else PecByte(Xor(Pec(m[..|m| - 1]), m[|m| - 1]))
  }

  ghost function Iter(n: nat, c: byte): byte {
    if n == 0 then c else PecShift(Iter(n - 1, c))
  }

  // ---------- The code ----------

  // The expressions of the loops over the 16-bit register.
  function XorIn(crc: bv16, b: byte): bv16 { crc ^ ((b as bv16) << 8) }
  function Shift(crc: bv16): bv16 { (if crc & 0x8000 != 0 then crc ^ (0x1070 << 3) else crc) << 1 }
  function Result(crc: bv16): byte { (crc >> 8) as byte }

  /** The upper half of the register holds the code, the lower half stays zero. */
  function Wide(c: byte): bv16 { (c as bv16) << 8 }

  lemma ShiftIsPecShift(c: byte)
    ensures Shift(Wide(c)) == Wide(PecShift(c))
  {
  }

  lemma XorInWide(c: byte, b: byte)
    ensures XorIn(Wide(c), b) == Wide(Xor(c, b))
  {
  }

  lemma ResultOfWide(c: byte)
    ensures Result(Wide(c)) == c
  {
  }

  lemma IterTwo(n: nat, c: byte)
    ensures Iter(n + 2, c) == PecShift(PecShift(Iter(n, c)))
  {
    hide PecShift;
    assert Iter(n + 2, c) == PecShift(Iter(n + 1, c));
  }

  lemma EightSteps(c: byte)
    ensures Iter(8, c) == PecByte(c)
  {
    hide PecShift;
    assert Iter(0, c) == c;
    IterTwo(0, c);
    IterTwo(2, c);
    IterTwo(4, c);
    IterTwo(6, c);
  }

  method Crc8(data: seq<byte>, size: nat) returns (r: byte)
    requires size < 256 && size <= |data|
    ensures r == Pec(data[..size])
  {
    hide PecShift, PecByte, Pec, Xor, XorIn, Shift, Result, Wide;
    var p, crc: bv16 := 0, 0;
    var j := size;
    PecEmpty();
    assert data[..0] == [];
    while j != 0
      invariant 0 <= j <= size && p + j == size
      invariant crc == Wide(Pec(data[..p]))
      decreases j
    {
      PecNext(data[..p], data[p]);
      assert data[..p] + [data[p]] == data[..p + 1];
      ghost var c := Xor(Pec(data[..p]), data[p]);
      XorInWide(Pec(data[..p]), data[p]);
      crc := XorIn(crc, data[p]);
      var i := 8;
      while i > 0
        invariant 0 <= i <= 8 && crc == Wide(Iter(8 - i, c))
        decreases i
      {
        ShiftIsPecShift(Iter(8 - i, c));
        crc := Shift(crc);
        i := i - 1;
      }
      EightSteps(c);
      j := j - 1;
      p := p + 1;
    }
    ResultOfWide(Pec(data[..p]));
    r := Result(crc);
  }

  lemma PecEmpty()
    ensures Pec([]) == 0 && Wide(Pec([])) == 0
  {
  }

  lemma PecNext(m: seq<byte>, b: byte)
    ensures Pec(m + [b]) == PecByte(Xor(Pec(m), b))
  {
    hide PecByte, Xor;
    assert (m + [b])[..|m|] == m;
  }

  /** The script function passes the data's size, which becomes one byte on the way. */
  method Wrapper(data: seq<byte>) returns (r: byte)
    ensures r == Pec(data[..|data| % 256])
    ensures |data| < 256 ==> r == Pec(data)
  {
    r := Crc8(data, |data| % 256);
    assert |data| < 256 ==> data[..|data| % 256] == data;
  }

  /** A single one behind zeros, of which only a prefix is checked. */
  lemma LastByteSeen(n: nat, k: nat)
    requires k < n
    ensures var data := Zeros(n - 1) + [1]; data[..k] == Zeros(k) && Pec(data[..k]) == 0 && Pec(data) != 0
  {
    PecZeros(n - 1);
    PecZeros(k);
    PecNext(Zeros(n - 1), 1);
    assert (Zeros(n - 1) + [1])[..k] == Zeros(k);
    assert PecByte(Xor(0, 1)) == 7;
  }

  /** The result is the code of all data of a size if and only if the size is below 256. */
  lemma TruncationExact(n: nat)
    ensures (forall data: seq<byte> :: |data| == n ==> Pec(data[..n % 256]) == Pec(data)) <==> n < 256
  {
    if n < 256 {
      forall data: seq<byte> | |data| == n
        ensures Pec(data[..n % 256]) == Pec(data)
      {
        assert data[..n] == data;
      }
    } else {
      LastByteSeen(n, n % 256);
      hide Pec;
      var data := Zeros(n - 1) + [1];
      assert |data| == n;
    }
  }

  /** The shortest such data. */
  lemma LongDataTruncated()
    ensures var data := Zeros(255) + [1]; |data| == 256 && Pec(data[..|data| % 256]) != Pec(data)
  {
    LastByteSeen(256, 0);
  }

  lemma {:induction false} PecZeros(n: nat)
    ensures Pec(Zeros(n)) == 0
  {
    if n == 0 {
      assert Zeros(0) == [];
    } else {
      PecZeros(n - 1);
      assert Zeros(n) == Zeros(n - 1) + [0];
      PecNext(Zeros(n - 1), 0);
      assert PecByte(Xor(0, 0)) == 0;
    }
  }

  // ---------- A known answer ----------

  /** The text 123456789. */
  const CHECK: seq<byte> := [0x31, 0x32, 0x33, 0x34, 0x35, 0x36, 0x37, 0x38, 0x39]

  /** The check value that catalogues give for this code. */
  lemma CheckValue()
    ensures Pec(CHECK) == 0xf4
  {
    CheckSteps();
    hide Pec, Fed;
    assert CHECK[..0] == [] && CHECK[..9] == CHECK;
    PecAt(0);
    PecAt(1);
    PecAt(2);
    PecAt(3);
    PecAt(4);
    PecAt(5);
    PecAt(6);
    PecAt(7);
    PecAt(8);
  }

  lemma PecAt(k: nat)
    requires k < 9
    ensures k == 0 ==> Pec(CHECK[..k]) == 0
    ensures Pec(CHECK[..k + 1]) == Fed(Pec(CHECK[..k]), CHECK[k])
  {
    hide PecByte, Xor;
    assert CHECK[..k + 1][..k] == CHECK[..k];
  }

  function Fed(c: byte, b: byte): byte {
    PecByte(Xor(c, b))
  }

  lemma CheckSteps()
    ensures Fed(0, 0x31) == 0x97
    ensures Fed(0x97, 0x32) == 0x72
    ensures Fed(0x72, 0x33) == 0xc0
    ensures Fed(0xc0, 0x34) == 0xc2
    ensures Fed(0xc2, 0x35) == 0xcb
    ensures Fed(0xcb, 0x36) == 0xfd
    ensures Fed(0xfd, 0x37) == 0x78
    ensures Fed(0x78, 0x38) == 0xc7
    ensures Fed(0xc7, 0x39) == 0xf4
  {
  }
}
