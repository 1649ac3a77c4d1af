/**
 * The CRC class template: a table-driven loop over an arbitrary register type, refined to the
 * bit-at-a-time division, and what every such register guarantees about damaged messages.
 */
module CrcTheory {
  import opened Bytes

  // One entry of a table row.

  function Pick<T>(k: bv8, c0: T, c1: T, c2: T, c3: T, c4: T, c5: T, c6: T, c7: T): T {
    if k < 4 then if k < 2 then if k < 1 then c0 else c1 else if k < 3 then c2 else c3
    else if k < 6 then if k < 5 then c4 else c5 else if k < 7 then c6 else c7
  }

  function PickAt<T>(k: int, c0: T, c1: T, c2: T, c3: T, c4: T, c5: T, c6: T, c7: T): T {
    if k < 4 then if k < 2 then if k < 1 then c0 else c1 else if k < 3 then c2 else c3
    else if k < 6 then if k < 5 then c4 else c5 else if k < 7 then c6 else c7
  }

  /** The operations of one instantiation of the template, and the bit-serial step it stands for. */
  datatype Register<!W> = Register(
    width: nat,                // bits in the register, a multiple of eight
    zero: W, one: W,
    xor: (W, W) -> W,
    shift: W -> W,             // one step of the reflected division
    bit: nat -> W,             // the register with only bit k set, k < 8
    above: (W, nat) -> bool,   // some bit at position k or higher is set
    byteOf: byte -> W,
    low: W -> byte,            // the low-order byte
    shr8: W -> W,
    tab: byte -> W,            // the lookup table
    init: W, final: W)

  // ---------- The table loop ----------

  /** The register after one more byte: tab[(c ^ b) & 0xff] ^ (c >> 8). */
  function Next<W>(r: Register<W>, c: W, b: byte): W {
    r.xor(r.tab(r.low(r.xor(c, r.byteOf(b)))), r.shr8(c))
  }

  method Calculate<W(!new)>(r: Register<W>, data: seq<byte>) returns (crc: W)
    requires Laws(r)
    ensures crc == Crc(r, data)
  {
    hide Laws, BitsOf;
    crc := r.init;
    assert Run(r, r.init, []) == r.init && data[..0] == [];
    hide Run;
    var p, size := 0, |data|;
    while size != 0
      invariant 0 <= size && p + size == |data|
      invariant crc == Run(r, r.init, Bits(data[..p]))
      decreases size
    {
      size := size - 1;
      TableStep(r, crc, data[p]);
      BitsConcat(data[..p], [data[p]]);
      RunConcat(r, r.init, Bits(data[..p]), BitsOf(data[p]));
      assert data[..p] + [data[p]] == data[..p + 1] && Bits([data[p]]) == BitsOf(data[p]);
      crc := Next(r, crc, data[p]);
      p := p + 1;
    }
    assert data[..p] == data;
    crc := r.xor(crc, r.final);
  }

  // ---------- Bit-at-a-time division ----------

  ghost function Lift<W>(r: Register<W>, b: bool): W {
    if b then r.one else r.zero
  }

  /** The register after the bits, starting from c. */
  ghost function Run<W>(r: Register<W>, c: W, bits: seq<bool>): W {
    if bits == [] then c
    else r.shift(r.xor(Run(r, c, bits[..|bits| - 1]), Lift(r, bits[|bits| - 1])))
  }

  /** The bits of a byte, least significant first. */
  ghost function BitsOf(b: byte): (s: seq<bool>)
    ensures |s| == 8
  {
    [b & 1 != 0, b & 2 != 0, b & 4 != 0, b & 8 != 0, b & 16 != 0, b & 32 != 0, b & 64 != 0, b & 128 != 0]
  }

  ghost function Bits(m: seq<byte>): (s: seq<bool>)
    ensures |s| == 8 * |m|
  {
    if m == [] then [] else Bits(m[..|m| - 1]) + BitsOf(m[|m| - 1])
  }

  ghost function Crc<W>(r: Register<W>, m: seq<byte>): W {
    r.xor(Run(r, r.init, Bits(m)), r.final)
  }

  // ---------- What an instantiation has to provide ----------

  ghost function Iter<W>(r: Register<W>, n: nat, w: W): W {
    if n == 0 then w else r.shift(Iter(r, n - 1, w))
  }

  ghost function Eight<W>(r: Register<W>, w: W): W {
    r.shift(r.shift(r.shift(r.shift(r.shift(r.shift(r.shift(r.shift(w))))))))
  }

  ghost function Shr<W>(r: Register<W>, n: nat, w: W): W {
    if n == 0 then w else Shr(r, n - 1, r.shr8(w))
  }

  /** The xor of the register bits named by bits. */
  ghost function Pack<W>(r: Register<W>, bits: seq<bool>): W {
    if bits == [] then r.zero
    else r.xor(Pack(r, bits[..|bits| - 1]), BitIf(r, bits[|bits| - 1], |bits| - 1))
  }

  ghost predicate Commutative<W(!new)>(r: Register<W>) {
    forall a, b :: r.xor(a, b) == r.xor(b, a)
  }

  ghost predicate Associative<W(!new)>(r: Register<W>) {
    forall a, b, c :: r.xor(r.xor(a, b), c) == r.xor(a, r.xor(b, c))
  }

  ghost predicate SelfInverse<W(!new)>(r: Register<W>) {
    forall a :: r.xor(a, a) == r.zero && r.xor(a, r.zero) == a
  }

  ghost predicate ShiftLinear<W(!new)>(r: Register<W>) {
    forall a, b :: r.shift(r.xor(a, b)) == r.xor(r.shift(a), r.shift(b))
  }

  ghost predicate ShiftInjective<W(!new)>(r: Register<W>) {
    forall a :: r.shift(a) == r.zero ==> a == r.zero
  }

  ghost predicate BitsMoveDown<W>(r: Register<W>) {
    r.bit(0) == r.one && forall k: nat :: k < 7 ==> r.shift(r.bit(k + 1)) == r.bit(k)
  }

  /** One step moves the topmost bit down by at most one place, and the division brings it back to the top. */
  ghost predicate TopSinks<W(!new)>(r: Register<W>) {
    && r.width % 8 == 0 && r.width > 0
    && r.above(r.shift(r.one), r.width - 1)
    && forall w, k: nat, b :: k + 1 < r.width && r.above(w, k + 1) ==> r.above(r.shift(r.xor(w, Lift(r, b))), k)
  }

  ghost predicate AboveNonZero<W(!new)>(r: Register<W>) {
    forall w, k: nat :: (r.above(w, k) ==> w != r.zero) && (w != r.zero ==> r.above(w, 0))
  }

  ghost predicate BytesPacked<W>(r: Register<W>) {
    forall b :: r.byteOf(b) == Pack(r, BitsOf(b))
  }

  /** Each table entry is eight steps of its index, and eight steps of a register are one table step. */
  ghost predicate TableSteps<W(!new)>(r: Register<W>) {
    forall w :: Eight(r, w) == r.xor(r.tab(r.low(w)), r.shr8(w))
  }

  ghost predicate ByteLaws<W(!new)>(r: Register<W>) {
    forall a, x :: r.low(r.xor(a, x)) == r.low(a) ^ r.low(x) && r.shr8(r.xor(a, x)) == r.xor(r.shr8(a), r.shr8(x))
  }

  ghost predicate BytesLow<W>(r: Register<W>) {
    forall b :: r.low(r.byteOf(b)) == b && r.shr8(r.byteOf(b)) == r.zero
  }

  ghost predicate ShrEmpties<W(!new)>(r: Register<W>) {
    forall w :: Shr(r, r.width / 8, w) == r.zero
  }

  ghost predicate Laws<W(!new)>(r: Register<W>) {
    && Commutative(r) && Associative(r) && SelfInverse(r)
    && ShiftLinear(r) && ShiftInjective(r) && BitsMoveDown(r)
    && TopSinks(r) && AboveNonZero(r)
    && BytesPacked(r) && TableSteps(r) && ByteLaws(r) && BytesLow(r) && ShrEmpties(r)
  }

  // ---------- Xor ----------

  lemma Commute<W(!new)>(r: Register<W>, a: W, b: W)
    requires Laws(r)
    ensures r.xor(a, b) == r.xor(b, a)
  {
    hide Associative, SelfInverse, ShiftLinear, ShiftInjective, BitsMoveDown, TopSinks, AboveNonZero, BytesPacked, TableSteps, ByteLaws, BytesLow, ShrEmpties;
  }

  lemma Associate<W(!new)>(r: Register<W>, a: W, b: W, c: W)
    requires Laws(r)
    ensures r.xor(r.xor(a, b), c) == r.xor(a, r.xor(b, c))
  {
    hide Commutative, SelfInverse, ShiftLinear, ShiftInjective, BitsMoveDown, TopSinks, AboveNonZero, BytesPacked, TableSteps, ByteLaws, BytesLow, ShrEmpties;
  }

  lemma Cancel<W(!new)>(r: Register<W>, a: W)
    requires Laws(r)
    ensures r.xor(a, a) == r.zero && r.xor(a, r.zero) == a && r.xor(r.zero, a) == a
  {
    hide Commutative, Associative, ShiftLinear, ShiftInjective, BitsMoveDown, TopSinks, AboveNonZero, BytesPacked, TableSteps, ByteLaws, BytesLow, ShrEmpties;
    Commute(r, r.zero, a);
  }

  lemma Interchange<W(!new)>(r: Register<W>, a: W, b: W, c: W, d: W)
    requires Laws(r)
    ensures r.xor(r.xor(a, b), r.xor(c, d)) == r.xor(r.xor(a, c), r.xor(b, d))
  {
    hide Laws;
    Associate(r, a, b, r.xor(c, d));
    Associate(r, b, c, d);
    Commute(r, b, c);
    Associate(r, c, b, d);
    Associate(r, a, c, r.xor(b, d));
  }

  lemma Equal<W(!new)>(r: Register<W>, a: W, b: W)
    requires Laws(r)
    ensures r.xor(a, b) == r.zero <==> a == b
  {
    hide Laws;
    Cancel(r, a);
    Cancel(r, b);
    Associate(r, a, b, b);
  }

  lemma ShiftXor<W(!new)>(r: Register<W>, a: W, b: W)
    requires Laws(r)
    ensures r.shift(r.xor(a, b)) == r.xor(r.shift(a), r.shift(b))
  {
    hide Commutative, Associative, SelfInverse, ShiftInjective, BitsMoveDown, TopSinks, AboveNonZero, BytesPacked, TableSteps, ByteLaws, BytesLow, ShrEmpties;
  }

  lemma ShiftKernel<W(!new)>(r: Register<W>, w: W)
    requires Laws(r)
    ensures r.shift(w) == r.zero ==> w == r.zero
  {
    hide Commutative, Associative, SelfInverse, ShiftLinear, BitsMoveDown, TopSinks, AboveNonZero, BytesPacked, TableSteps, ByteLaws, BytesLow, ShrEmpties;
  }

  lemma ShiftZero<W(!new)>(r: Register<W>, w: W)
    requires Laws(r)
    ensures r.shift(w) == r.zero <==> w == r.zero
  {
    hide Laws;
    ShiftKernel(r, w);
    ShiftXor(r, r.zero, r.zero);
    Cancel(r, r.zero);
    Cancel(r, r.shift(r.zero));
  }

  // ---------- Runs ----------

  lemma {:induction false} RunConcat<W>(r: Register<W>, c: W, x: seq<bool>, y: seq<bool>)
    ensures Run(r, c, x + y) == Run(r, Run(r, c, x), y)
    decreases |y|
  {
    if y == [] {
      assert x + y == x;
    } else {
      var y' := y[..|y| - 1];
      RunConcat(r, c, x, y');
      assert (x + y)[..|x + y| - 1] == x + y';
    }
  }

  lemma {:induction false} BitsConcat(a: seq<byte>, b: seq<byte>)
    ensures Bits(a + b) == Bits(a) + Bits(b)
    decreases |b|
  {
    hide BitsOf;
    if b == [] {
      assert a + b == a;
    } else {
      var b' := b[..|b| - 1];
      BitsConcat(a, b');
      assert (a + b)[..|a + b| - 1] == a + b';
      assert Bits(a) + Bits(b') + BitsOf(b[|b| - 1]) == Bits(a) + (Bits(b') + BitsOf(b[|b| - 1]));
    }
  }

  /** The bitwise difference of two messages. */
  ghost function XorBits(x: seq<bool>, y: seq<bool>): (d: seq<bool>)
    requires |x| == |y|
    ensures |d| == |x|
  {
    seq(|x|, i requires 0 <= i < |x| => x[i] != y[i])
  }

  /** The difference of two runs is the run of the difference. */
  lemma {:induction false} RunDifference<W(!new)>(r: Register<W>, c: W, d: W, x: seq<bool>, y: seq<bool>)
    requires Laws(r) && |x| == |y|
    ensures r.xor(Run(r, c, x), Run(r, d, y)) == Run(r, r.xor(c, d), XorBits(x, y))
    decreases |x|
  {
    hide Laws;
    if x != [] {
      var n := |x| - 1;
      var x', y' := x[..n], y[..n];
      RunDifference(r, c, d, x', y');
      assert XorBits(x, y)[..n] == XorBits(x', y');
      var p, q, u, v := Run(r, c, x'), Run(r, d, y'), Lift(r, x[n]), Lift(r, y[n]);
      ShiftXor(r, r.xor(p, u), r.xor(q, v));
      Interchange(r, p, u, q, v);
      LiftXor(r, x[n], y[n]);
    }
  }

  lemma LiftXor<W(!new)>(r: Register<W>, a: bool, b: bool)
    requires Laws(r)
    ensures r.xor(Lift(r, a), Lift(r, b)) == Lift(r, a != b)
  {
    hide Laws;
    Cancel(r, r.zero);
    Cancel(r, r.one);
  }

  // ---------- One byte ----------

  lemma {:induction false} IterXor<W(!new)>(r: Register<W>, n: nat, a: W, b: W)
    requires Laws(r)
    ensures Iter(r, n, r.xor(a, b)) == r.xor(Iter(r, n, a), Iter(r, n, b))
  {
    hide Laws;
    if n != 0 {
      IterXor(r, n - 1, a, b);
      ShiftXor(r, Iter(r, n - 1, a), Iter(r, n - 1, b));
    }
  }

  lemma {:induction false} IterInner<W>(r: Register<W>, n: nat, w: W)
    ensures Iter(r, n + 1, w) == Iter(r, n, r.shift(w))
  {
    if n != 0 {
      IterInner(r, n - 1, w);
    }
  }

  lemma {:induction false} IterZero<W(!new)>(r: Register<W>, n: nat)
    requires Laws(r)
    ensures Iter(r, n, r.zero) == r.zero
  {
    hide Laws;
    if n != 0 {
      IterZero(r, n - 1);
      ShiftZero(r, r.zero);
    }
  }

  lemma BitDown<W(!new)>(r: Register<W>, k: nat)
    requires Laws(r)
    ensures r.bit(0) == r.one
    ensures k < 7 ==> r.shift(r.bit(k + 1)) == r.bit(k)
  {
    hide Commutative, Associative, SelfInverse, ShiftLinear, ShiftInjective, TopSinks, AboveNonZero, BytesPacked, TableSteps, ByteLaws, BytesLow, ShrEmpties;
  }

  lemma {:induction false} BitArrives<W(!new)>(r: Register<W>, k: nat)
    requires Laws(r) && k < 8
    ensures Iter(r, k, r.bit(k)) == r.one
  {
    if k != 0 {
      BitArrives(r, k - 1);
      IterInner(r, k - 1, r.bit(k));
      BitDown(r, k - 1);
    } else {
      BitDown(r, 0);
    }
  }

  /** The register with bit k set, or nothing. */
  ghost function BitIf<W>(r: Register<W>, b: bool, k: nat): W {
    if b then r.bit(k) else r.zero
  }

  lemma {:induction false} PackStep<W>(r: Register<W>, bits: seq<bool>, n: nat)
    requires n < |bits|
    ensures Pack(r, bits[..n + 1]) == r.xor(Pack(r, bits[..n]), BitIf(r, bits[n], n))
  {
    assert bits[..n + 1][..n] == bits[..n];
  }

  /** Feeding at most eight bits one by one is the same as xoring them in at once and then shifting. */
  lemma {:induction false} RunIsPack<W(!new)>(r: Register<W>, c: W, bits: seq<bool>)
    requires Laws(r) && |bits| <= 8
    ensures Run(r, c, bits) == Iter(r, |bits|, r.xor(c, Pack(r, bits)))
    decreases |bits|
  {
    hide Laws;
    if bits == [] {
      Cancel(r, c);
    } else {
      var n := |bits| - 1;
      var front, last := bits[..n], bits[n];
      RunIsPack(r, c, front);
      BitArrives(r, n);
      IterZero(r, n);
      var p, b := Pack(r, front), BitIf(r, last, n);
      assert Iter(r, n, b) == Lift(r, last);
      IterXor(r, n, r.xor(c, p), b);
      Associate(r, c, p, b);
    }
  }

  lemma EightIsIter<W>(r: Register<W>, w: W)
    ensures Eight(r, w) == Iter(r, 8, w)
  {
    assert Iter(r, 1, w) == r.shift(Iter(r, 0, w));
    assert Iter(r, 2, w) == r.shift(Iter(r, 1, w));
    assert Iter(r, 3, w) == r.shift(Iter(r, 2, w));
    assert Iter(r, 4, w) == r.shift(Iter(r, 3, w));
    assert Iter(r, 5, w) == r.shift(Iter(r, 4, w));
    assert Iter(r, 6, w) == r.shift(Iter(r, 5, w));
    assert Iter(r, 7, w) == r.shift(Iter(r, 6, w));
    assert Iter(r, 8, w) == r.shift(Iter(r, 7, w));
  }

  lemma TableAt<W(!new)>(r: Register<W>, w: W, b: byte)
    requires Laws(r)
    ensures r.byteOf(b) == Pack(r, BitsOf(b))
    ensures Eight(r, w) == r.xor(r.tab(r.low(w)), r.shr8(w))
  {
    hide Commutative, Associative, SelfInverse, ShiftLinear, ShiftInjective, BitsMoveDown, TopSinks, AboveNonZero, ByteLaws, BytesLow, ShrEmpties;
  }

  lemma ByteAt<W(!new)>(r: Register<W>, a: W, w: W, b: byte)
    requires Laws(r)
    ensures r.low(r.byteOf(b)) == b && r.shr8(r.byteOf(b)) == r.zero
    ensures r.low(r.xor(a, w)) == r.low(a) ^ r.low(w)
    ensures r.shr8(r.xor(a, w)) == r.xor(r.shr8(a), r.shr8(w))
  {
    hide Commutative, Associative, SelfInverse, ShiftLinear, ShiftInjective, BitsMoveDown, TopSinks, AboveNonZero, BytesPacked, TableSteps, ShrEmpties;
  }

  /** The table step is the run over the bits of the byte. */
  lemma TableStep<W(!new)>(r: Register<W>, c: W, b: byte)
    requires Laws(r)
    ensures Next(r, c, b) == Run(r, c, BitsOf(b))
  {
    hide Laws, BitsOf, Pack, Iter;
    RunIsPack(r, c, BitsOf(b));
    hide Run;
    var w := r.xor(c, r.byteOf(b));
    TableAt(r, w, b);
    EightIsIter(r, w);
    ByteAt(r, c, r.byteOf(b), b);
    Cancel(r, r.shr8(c));
  }

  lemma RunByteEight<W(!new)>(r: Register<W>, c: W, m: seq<byte>, b: byte)
    requires Laws(r)
    ensures Run(r, c, Bits(m + [b])) == Eight(r, r.xor(Run(r, c, Bits(m)), r.byteOf(b)))
  {
    hide Laws, BitsOf, Pack, Iter;
    var c' := Run(r, c, Bits(m));
    BitsConcat(m, [b]);
    assert [b][..0] == [] && Bits([b]) == BitsOf(b);
    RunConcat(r, c, Bits(m), BitsOf(b));
    RunIsPack(r, c', BitsOf(b));
    TableAt(r, c', b);
    EightIsIter(r, r.xor(c', r.byteOf(b)));
  }

  // ---------- Damaged messages ----------

  lemma AboveStep<W(!new)>(r: Register<W>, w: W, k: nat, b: bool)
    requires Laws(r)
    ensures r.width > 0 && r.width % 8 == 0 && r.above(r.shift(r.one), r.width - 1)
    ensures k + 1 < r.width && r.above(w, k + 1) ==> r.above(r.shift(r.xor(w, Lift(r, b))), k)
  {
    hide Commutative, Associative, SelfInverse, ShiftLinear, ShiftInjective, BitsMoveDown, AboveNonZero, BytesPacked, TableSteps, ByteLaws, BytesLow, ShrEmpties;
  }

  lemma AboveIsNonZero<W(!new)>(r: Register<W>, w: W, k: nat)
    requires Laws(r)
    ensures (r.above(w, k) ==> w != r.zero) && (w != r.zero ==> r.above(w, 0))
  {
    hide Commutative, Associative, SelfInverse, ShiftLinear, ShiftInjective, BitsMoveDown, TopSinks, BytesPacked, TableSteps, ByteLaws, BytesLow, ShrEmpties;
  }

  lemma FirstDifference(x: seq<bool>, y: seq<bool>) returns (j: nat)
    requires |x| == |y| && x != y
    ensures j < |x| && x[j] != y[j] && x[..j] == y[..j]
  {
    j := 0;
    while x[j] == y[j]
      invariant j < |x| && x[..j] == y[..j] && x[j..] != y[j..]
      decreases |x| - j
    {
      assert x[j..] == [x[j]] + x[j + 1..] && y[j..] == [y[j]] + y[j + 1..];
      j := j + 1;
    }
  }

  lemma RunStep<W>(r: Register<W>, c: W, bits: seq<bool>, n: nat)
    requires n < |bits|
    ensures Run(r, c, bits[..n + 1]) == r.shift(r.xor(Run(r, c, bits[..n]), Lift(r, bits[n])))
  {
    assert bits[..n + 1][..n] == bits[..n];
  }

  lemma {:induction false} RunOfZeros<W(!new)>(r: Register<W>, bits: seq<bool>, n: nat)
    requires Laws(r) && n <= |bits| && forall i :: 0 <= i < n ==> !bits[i]
    ensures Run(r, r.zero, bits[..n]) == r.zero
  {
    hide Laws;
    if n != 0 {
      RunOfZeros(r, bits, n - 1);
      RunStep(r, r.zero, bits, n - 1);
      Cancel(r, r.zero);
      ShiftZero(r, r.zero);
    }
  }

  /**
   * A difference whose first bit is j and whose last is less than j + width never dies out: within
   * the window the topmost register bit sinks by one place a step and is renewed before the end ...
   */
  lemma {:induction false} BurstStaysAbove<W(!new)>(r: Register<W>, d: seq<bool>, j: nat, n: nat)
    requires Laws(r) && j < n <= |d| && n <= j + r.width && d[j]
    requires forall i :: 0 <= i < j ==> !d[i]
    ensures r.above(Run(r, r.zero, d[..n]), j + r.width - n)
    decreases n
  {
    hide Laws;
    var w := Run(r, r.zero, d[..n - 1]);
    RunStep(r, r.zero, d, n - 1);
    AboveStep(r, w, j + r.width - n, d[n - 1]);
    if n == j + 1 {
      RunOfZeros(r, d, j);
      Cancel(r, r.one);
    } else {
      BurstStaysAbove(r, d, j, n - 1);
    }
  }

  /** ... and after the window a nonzero register stays nonzero. */
  lemma {:induction false} BurstSurvives<W(!new)>(r: Register<W>, d: seq<bool>, j: nat, n: nat)
    requires Laws(r) && j < n <= |d| && d[j]
    requires forall i :: 0 <= i < |d| && d[i] ==> j <= i < j + r.width
    ensures Run(r, r.zero, d[..n]) != r.zero
    decreases n
  {
    hide Laws;
    if n <= j + r.width {
      BurstStaysAbove(r, d, j, n);
      AboveIsNonZero(r, Run(r, r.zero, d[..n]), j + r.width - n);
    } else {
      WidthPositive(r);
      BurstSurvives(r, d, j, n - 1);
      var w := Run(r, r.zero, d[..n - 1]);
      RunStep(r, r.zero, d, n - 1);
      Cancel(r, w);
      ShiftZero(r, w);
    }
  }

  lemma WidthPositive<W(!new)>(r: Register<W>)
    requires Laws(r)
    ensures r.width > 0
  {
  }

  /**
   * Burst detection: two different messages of equal length whose bits differ only within a
   * window as wide as the register have different checksums.
   */
  lemma BurstDetected<W(!new)>(r: Register<W>, x: seq<bool>, y: seq<bool>, c: W, from: nat)
    requires Laws(r) && |x| == |y| && x != y
    requires forall i :: 0 <= i < |x| && x[i] != y[i] ==> from <= i < from + r.width
    ensures Run(r, c, x) != Run(r, c, y)
  {
    hide Laws;
    var d := XorBits(x, y);
    var j := FirstDifference(x, y);
    BurstSurvives(r, d, j, |d|);
    assert d[..|d|] == d;
    RunDifference(r, c, c, x, y);
    Cancel(r, c);
    Equal(r, Run(r, c, x), Run(r, c, y));
  }

  lemma BitsOfInjective(a: byte, b: byte)
    ensures BitsOf(a) == BitsOf(b) <==> a == b
  {
    if BitsOf(a) == BitsOf(b) {
      assert forall i :: 0 <= i < 8 ==> BitsOf(a)[i] == BitsOf(b)[i];
      ByteBits(a, b);
    }
  }

  lemma ByteBits(a: byte, b: byte)
    requires (a & 1 != 0) == (b & 1 != 0) && (a & 2 != 0) == (b & 2 != 0) && (a & 4 != 0) == (b & 4 != 0)
    requires (a & 8 != 0) == (b & 8 != 0) && (a & 16 != 0) == (b & 16 != 0) && (a & 32 != 0) == (b & 32 != 0)
    requires (a & 64 != 0) == (b & 64 != 0) && (a & 128 != 0) == (b & 128 != 0)
    ensures a == b
  {
  }

  lemma SplitEqual<T>(p: seq<T>, q: seq<T>, u: seq<T>, v: seq<T>)
    requires |p| == |u|
    ensures p + q == u + v <==> p == u && q == v
  {
    if p + q == u + v {
      assert p == (p + q)[..|p|] && q == (p + q)[|p|..];
      assert u == (u + v)[..|p|] && v == (u + v)[|p|..];
    }
  }

  lemma {:induction false} BitsInjective(a: seq<byte>, b: seq<byte>)
    requires |a| == |b|
    ensures Bits(a) == Bits(b) <==> a == b
  {
    hide BitsOf;
    if a != [] {
      var n := |a| - 1;
      BitsInjective(a[..n], b[..n]);
      BitsOfInjective(a[n], b[n]);
      SplitEqual(Bits(a[..n]), BitsOf(a[n]), Bits(b[..n]), BitsOf(b[n]));
      SplitEqual(a[..n], [a[n]], b[..n], [b[n]]);
      assert a == a[..n] + [a[n]] && b == b[..n] + [b[n]];
    }
  }

  lemma MessageBurstDetected<W(!new)>(r: Register<W>, x: seq<byte>, y: seq<byte>, from: nat)
    requires Laws(r) && |x| == |y| && x != y
    requires forall i :: 0 <= i < |Bits(x)| && Bits(x)[i] != Bits(y)[i] ==> from <= i < from + r.width
    ensures Crc(r, x) != Crc(r, y)
  {
    hide Laws, Bits, Run;
    BitsInjective(x, y);
    BurstDetected(r, Bits(x), Bits(y), r.init, from);
    XorInjective(r, Run(r, r.init, Bits(x)), Run(r, r.init, Bits(y)), r.final);
  }

  /** The same for whole bytes: a damaged stretch no longer than the register is always noticed. */
  lemma DamagedBytesDetected<W(!new)>(r: Register<W>, before: seq<byte>, x: seq<byte>, y: seq<byte>, after: seq<byte>)
    requires Laws(r) && |x| == |y| && 8 * |x| <= r.width && x != y
    ensures Crc(r, before + x + after) != Crc(r, before + y + after)
  {
    hide Laws, BitsOf, Bits, Run;
    BitsConcat(before, x);
    BitsConcat(before, y);
    BitsConcat(before + x, after);
    BitsConcat(before + y, after);
    BitsInjective(x, y);
    var p, q := Bits(before + x + after), Bits(before + y + after);
    assert p[8 * |before|..8 * |before| + 8 * |x|] == Bits(x) && q[8 * |before|..8 * |before| + 8 * |x|] == Bits(y);
    BurstDetected(r, p, q, r.init, 8 * |before|);
    XorInjective(r, Run(r, r.init, p), Run(r, r.init, q), r.final);
  }

  lemma XorInjective<W(!new)>(r: Register<W>, a: W, b: W, c: W)
    requires Laws(r)
    ensures r.xor(a, c) == r.xor(b, c) <==> a == b
  {
    hide Laws;
    Associate(r, a, c, c);
    Associate(r, b, c, c);
    Cancel(r, c);
    Cancel(r, a);
    Cancel(r, b);
  }

  /** The checksum depends on the messages' difference only: an affine law. */
  lemma CrcOfDifference<W(!new)>(r: Register<W>, x: seq<byte>, y: seq<byte>)
    requires Laws(r) && |x| == |y|
    ensures r.xor(Crc(r, x), Crc(r, y)) == Run(r, r.zero, XorBits(Bits(x), Bits(y)))
  {
    hide Laws, Bits, XorBits;
    RunDifference(r, r.init, r.init, Bits(x), Bits(y));
    hide Run;
    var a, b := Run(r, r.init, Bits(x)), Run(r, r.init, Bits(y));
    Interchange(r, a, r.final, b, r.final);
    Cancel(r, r.init);
    Cancel(r, r.final);
    Cancel(r, r.xor(a, b));
  }

  // ---------- Odd differences ----------

  ghost function Ones(bits: seq<bool>): nat {
    if bits == [] then 0 else Ones(bits[..|bits| - 1]) + if bits[|bits| - 1] then 1 else 0
  }

  /** A parity of the register that a step keeps: there is one when the polynomial has an even number of terms. */
  ghost predicate KeepsParity<W(!new)>(r: Register<W>, odd: W -> bool) {
    && odd(r.one) && !odd(r.zero)
    && (forall a, b :: odd(r.xor(a, b)) == (odd(a) != odd(b)))
    && forall a :: odd(r.shift(a)) == odd(a)
  }

  lemma {:induction false} RunParity<W(!new)>(r: Register<W>, odd: W -> bool, c: W, bits: seq<bool>)
    requires KeepsParity(r, odd)
    ensures odd(Run(r, c, bits)) == (odd(c) != (Ones(bits) % 2 == 1))
  {
    if bits != [] {
      var n := |bits| - 1;
      RunParity(r, odd, c, bits[..n]);
      ParityStep(r, odd, Run(r, c, bits[..n]), bits[n]);
      hide KeepsParity;
    }
  }

  lemma ParityStep<W(!new)>(r: Register<W>, odd: W -> bool, w: W, b: bool)
    requires KeepsParity(r, odd)
    ensures odd(r.shift(r.xor(w, Lift(r, b)))) == (odd(w) != b)
  {
  }

  lemma {:induction false} OnesOfDifference(x: seq<bool>, y: seq<bool>)
    requires |x| == |y|
    ensures Ones(XorBits(x, y)) % 2 == 1 <==> Ones(x) % 2 != Ones(y) % 2
  {
    if x != [] {
      var n := |x| - 1;
      OnesOfDifference(x[..n], y[..n]);
      assert XorBits(x, y)[..n] == XorBits(x[..n], y[..n]);
    }
  }

  lemma {:induction false} OnesConcat(x: seq<bool>, y: seq<bool>)
    ensures Ones(x + y) == Ones(x) + Ones(y)
    decreases |y|
  {
    if y == [] {
      assert x + y == x;
    } else {
      var front := y[..|y| - 1];
      OnesConcat(x, front);
      assert (x + y)[..|x + y| - 1] == x + front;
    }
  }

  /** Messages that differ in an odd number of bits, wherever they are, have different checksums. */
  lemma OddDifferenceDetected<W(!new)>(r: Register<W>, odd: W -> bool, x: seq<byte>, y: seq<byte>)
    requires Laws(r) && KeepsParity(r, odd) && |x| == |y|
    requires Ones(XorBits(Bits(x), Bits(y))) % 2 == 1
    ensures Crc(r, x) != Crc(r, y)
  {
    hide Laws, Bits, Run, Ones, XorBits, KeepsParity;
    OnesOfDifference(Bits(x), Bits(y));
    RunParity(r, odd, r.init, Bits(x));
    RunParity(r, odd, r.init, Bits(y));
    XorInjective(r, Run(r, r.init, Bits(x)), Run(r, r.init, Bits(y)), r.final);
  }

  // ---------- The residue ----------

  /** The n low-order bytes of a register, least significant first. */
  ghost function LowBytes<W>(r: Register<W>, w: W, n: nat): (s: seq<byte>)
    ensures |s| == n
  {
    if n == 0 then [] else [r.low(w)] + LowBytes(r, r.shr8(w), n - 1)
  }

  lemma RunByte<W(!new)>(r: Register<W>, c: W, b: byte, rest: seq<byte>)
    requires Laws(r)
    ensures Run(r, c, Bits([b] + rest)) == Run(r, Next(r, c, b), Bits(rest))
  {
    hide Laws, BitsOf;
    assert [b][..0] == [] && Bits([]) == [];
    assert Bits([b]) == BitsOf(b);
    hide Run, Bits;
    BitsConcat([b], rest);
    RunConcat(r, c, BitsOf(b), Bits(rest));
    TableStep(r, c, b);
  }

  lemma NextDifference<W(!new)>(r: Register<W>, c: W, g: W)
    requires Laws(r)
    ensures r.xor(Next(r, c, r.low(r.xor(c, g))), Next(r, g, 0)) == r.shr8(r.xor(c, g))
  {
    hide Laws;
    var b := r.low(r.xor(c, g));
    ByteAt(r, c, g, b);
    ByteAt(r, c, r.byteOf(b), b);
    ByteAt(r, g, r.byteOf(0), 0);
    ByteXor(r.low(c), r.low(g));
    var t := r.tab(r.low(g));
    Interchange(r, t, r.shr8(c), t, r.shr8(g));
    Cancel(r, t);
    Cancel(r, r.shr8(r.xor(c, g)));
  }

  /** Feeding c ^ g into register c leaves what feeding zero bytes into register g leaves. */
  lemma {:induction false} FeedDifference<W(!new)>(r: Register<W>, c: W, g: W, n: nat)
    requires Laws(r) && Shr(r, n, r.xor(c, g)) == r.zero
    ensures Run(r, c, Bits(LowBytes(r, r.xor(c, g), n))) == Run(r, g, Bits(Zeros(n)))
    decreases n
  {
    hide Laws, Run, Bits, Next;
    if n == 0 {
      Equal(r, c, g);
    } else {
      var v := r.xor(c, g);
      var b := r.low(v);
      RunByte(r, c, b, LowBytes(r, r.shr8(v), n - 1));
      RunByte(r, g, 0, Zeros(n - 1));
      assert [0] + Zeros(n - 1) == Zeros(n);
      NextDifference(r, c, g);
      FeedDifference(r, Next(r, c, b), Next(r, g, 0), n - 1);
    }
  }

  lemma ByteXor(x: byte, y: byte)
    ensures x ^ (x ^ y) == y && y ^ 0 == y
  {
  }

  ghost function Residue<W>(r: Register<W>): W {
    r.xor(Run(r, r.final, Bits(Zeros(r.width / 8))), r.final)
  }

  lemma ShrIsEmpty<W(!new)>(r: Register<W>, w: W)
    requires Laws(r)
    ensures Shr(r, r.width / 8, w) == r.zero
  {
    hide Commutative, Associative, SelfInverse, ShiftLinear, ShiftInjective, BitsMoveDown, TopSinks, AboveNonZero, BytesPacked, TableSteps, ByteLaws, BytesLow;
  }

  /**
   * A message with a tail of register size has the residue as its checksum exactly when the tail is
   * the checksum of the message, least significant byte first.
   */
  lemma ResidueExact<W(!new)>(r: Register<W>, m: seq<byte>, tail: seq<byte>)
    requires Laws(r) && 8 * |tail| == r.width
    ensures Crc(r, m + tail) == Residue(r) <==> tail == LowBytes(r, Crc(r, m), |tail|)
  {
    hide Laws, BitsOf;
    var n := |tail|;
    var c, crc := Run(r, r.init, Bits(m)), Crc(r, m);
    var good := LowBytes(r, crc, n);
    assert n == r.width / 8;
    ShrIsEmpty(r, crc);
    FeedDifference(r, c, r.final, n);
    BitsConcat(m, good);
    RunConcat(r, r.init, Bits(m), Bits(good));
    hide Run;
    assert Crc(r, m + good) == Residue(r);
    if tail != good {
      DamagedBytesDetected(r, m, tail, good, []);
      assert m + tail + [] == m + tail && m + good + [] == m + good;
    }
  }
}
