/**
 * The SHA-1 hasher: section 6.1.2 of FIPS 180-4 as the reference, and the streaming class with its
 * circular 16-word schedule, register renaming and char-wise block decoding.
 */
module Sha1 {
  import opened Bytes

  // ---------- FIPS 180-4 ----------

  datatype State = State(a: bv32, b: bv32, c: bv32, d: bv32, e: bv32)

  const INITIAL := State(0x67452301, 0xefcdab89, 0x98badcfe, 0x10325476, 0xc3d2e1f0)

  function Rol1(x: bv32): bv32 { (x << 1) | (x >> 31) }
  function Rol5(x: bv32): bv32 { (x << 5) | (x >> 27) }
  function Rol30(x: bv32): bv32 { (x << 30) | (x >> 2) }

  // The logical functions of section 4.1.1.
  function Ch(x: bv32, y: bv32, z: bv32): bv32 { (x & y) ^ (!x & z) }
  function Parity(x: bv32, y: bv32, z: bv32): bv32 { x ^ y ^ z }
  function Maj(x: bv32, y: bv32, z: bv32): bv32 { (x & y) ^ (x & z) ^ (y & z) }

  function F(t: nat, x: bv32, y: bv32, z: bv32): bv32 {
    if t < 20 then Ch(x, y, z) else if t < 40 then Parity(x, y, z) else if t < 60 then Maj(x, y, z) else Parity(x, y, z)
  }

  function K(t: nat): bv32 {
    if t < 20 then 0x5a827999 else if t < 40 then 0x6ed9eba1 else if t < 60 then 0x8f1bbcdc else 0xca62c1d6
  }

  function Mix(w3: bv32, w8: bv32, w14: bv32, w16: bv32): bv32 {
    Rol1(w3 ^ w8 ^ w14 ^ w16)
  }

  /** The message schedule. */
  function W(m: seq<bv32>, t: nat): bv32
    requires |m| == 16
  {
    if t < 16 then m[t] else Mix(W(m, t - 3), W(m, t - 8), W(m, t - 14), W(m, t - 16))
  }

  /** T = ROTL5(a) + f + e + K + W. */
  function Sum(a: bv32, f: bv32, e: bv32, k: bv32, w: bv32): bv32 {
    Rol5(a) + f + e + k + w
  }

  function Round(t: nat, s: State, w: bv32): State {
    State(Sum(s.a, F(t, s.b, s.c, s.d), s.e, K(t), w), s.a, Rol30(s.b), s.c, s.d)
  }

  function Rounds(t: nat, s: State, m: seq<bv32>): State
    requires |m| == 16
  {
    if t == 0 then s else Round(t - 1, Rounds(t - 1, s, m), W(m, t - 1))
  }

  function AddState(s: State, r: State): State {
    State(s.a + r.a, s.b + r.b, s.c + r.c, s.d + r.d, s.e + r.e)
  }

  function Compress(s: State, m: seq<bv32>): State
    requires |m| == 16
  {
    AddState(s, Rounds(80, s, m))
  }

  // ---------- The transform ----------

  /** Before round t the slot t' % 16 holds the schedule word of the latest t' below t (or its message word). */
  ghost predicate IsWindow(block: seq<bv32>, m: seq<bv32>, t: nat)
    requires |m| == 16
  {
    && |block| == 16
    && if t <= 16 then block == m else forall u :: t - 16 <= u < t ==> block[u % 16] == W(m, u)
  }

  // The expressions inside the round macros.
  function Choose(w: bv32, x: bv32, y: bv32): bv32 { (w & (x ^ y)) ^ y }
  function Majority(w: bv32, x: bv32, y: bv32): bv32 { ((w | x) & y) | (w & x) }
  function Add(z: bv32, f: bv32, word: bv32, k: bv32, v: bv32): bv32 { z + (f + word + k + Rol5(v)) }

  lemma ChooseBits(w: bv32, x: bv32, y: bv32)
    ensures (w & (x ^ y)) ^ y == (w & x) ^ (!w & y)
  {
  }

  lemma MajorityBits(w: bv32, x: bv32, y: bv32)
    ensures ((w | x) & y) | (w & x) == (w & x) ^ (w & y) ^ (x & y)
  {
  }

  lemma ChooseIsCh(w: bv32, x: bv32, y: bv32)
    ensures Choose(w, x, y) == Ch(w, x, y)
  {
    ChooseBits(w, x, y);
  }

  lemma MajorityIsMaj(w: bv32, x: bv32, y: bv32)
    ensures Majority(w, x, y) == Maj(w, x, y)
  {
    MajorityBits(w, x, y);
  }

  lemma AddIsSum(z: bv32, f: bv32, word: bv32, k: bv32, v: bv32)
    ensures Add(z, f, word, k, v) == Sum(v, f, z, k, word)
  {
    hide Rol5;
  }

  lemma RoundStep(t: nat, s0: State, m: seq<bv32>, s: State, f: bv32, word: bv32)
    requires |m| == 16 && s == Rounds(t, s0, m) && f == F(t, s.b, s.c, s.d) && word == W(m, t)
    ensures Rounds(t + 1, s0, m) == State(Add(s.e, f, word, K(t), s.a), s.a, Rol30(s.b), s.c, s.d)
  {
    hide F, K, Rol30, W, Add, Sum;
    AddIsSum(s.e, f, word, K(t), s.a);
  }

  /** The circular-window update; it returns the new schedule word. */
  method Blk(block: array<bv32>, i: nat, ghost m: seq<bv32>) returns (r: bv32)
    requires block.Length == 16 && |m| == 16 && i >= 16 && IsWindow(block[..], m, i)
    modifies block
    ensures r == W(m, i) && IsWindow(block[..], m, i + 1)
  {
    hide Mix;
    WindowSlots(block[..], m, i);
    ghost var was := block[..];
    block[i % 16] := Mix(block[(i + 13) % 16], block[(i + 8) % 16], block[(i + 2) % 16], block[i % 16]);
    r := block[i % 16];
    assert block[..] == was[i % 16 := r];
    WindowMoves(was, m, i);
  }

  lemma WindowSlots(block: seq<bv32>, m: seq<bv32>, i: nat)
    requires |m| == 16 && i >= 16 && IsWindow(block, m, i)
    ensures |block| == 16 && block[(i + 13) % 16] == W(m, i - 3) && block[(i + 8) % 16] == W(m, i - 8)
    ensures block[(i + 2) % 16] == W(m, i - 14) && block[i % 16] == W(m, i - 16)
  {
    hide Mix;
    WindowAt(block, m, i, i - 3);
    WindowAt(block, m, i, i - 8);
    WindowAt(block, m, i, i - 14);
    WindowAt(block, m, i, i - 16);
    SlotOf(i, 3);
    SlotOf(i, 8);
    SlotOf(i, 14);
    SlotOf(i, 16);
  }

  lemma SlotOf(i: nat, d: nat)
    requires d <= 16 <= i
    ensures (i + (16 - d)) % 16 == (i - d) % 16
  {
    var q, r := (i - d) / 16, (i - d) % 16;
    ModUnique(i + (16 - d), 16, q + 1, r);
  }

  lemma WindowAt(block: seq<bv32>, m: seq<bv32>, i: nat, u: nat)
    requires |m| == 16 && i >= 16 && IsWindow(block, m, i) && i - 16 <= u < i
    ensures |block| == 16 && block[u % 16] == W(m, u)
  {
    hide Mix;
  }

  lemma WindowMoves(block: seq<bv32>, m: seq<bv32>, i: nat)
    requires |m| == 16 && i >= 16 && IsWindow(block, m, i)
    ensures IsWindow(block[i % 16 := W(m, i)], m, i + 1)
  {
    var next := block[i % 16 := W(m, i)];
    forall u | i + 1 - 16 <= u < i + 1
      ensures next[u % 16] == W(m, u)
    {
      hide W;
      if u < i {
        WindowAt(block, m, i, u);
        assert u % 16 != i % 16;
      }
    }
  }

  // The round macros: each returns the new values of its last and its second register.

  method R0(block: array<bv32>, v: bv32, w: bv32, x: bv32, y: bv32, z: bv32, i: nat, ghost m: seq<bv32>, ghost s0: State)
    returns (z': bv32, w': bv32)
    requires i < 16 && block.Length == 16 && |m| == 16 && IsWindow(block[..], m, i)
    requires Rounds(i, s0, m) == State(v, w, x, y, z)
    modifies block
    ensures IsWindow(block[..], m, i + 1) && Rounds(i + 1, s0, m) == State(z', v, w', x, y)
  {
    hide Rounds, Choose, Ch, Parity, Majority, Maj, Add, Rol30;
    ChooseIsCh(w, x, y);
    RoundStep(i, s0, m, State(v, w, x, y, z), Choose(w, x, y), W(m, i));
    assert block[..][i] == W(m, i);
    var word := block[i];
    z' := Add(z, Choose(w, x, y), word, 0x5a827999, v);
    w' := Rol30(w);
  }

  method R1(block: array<bv32>, v: bv32, w: bv32, x: bv32, y: bv32, z: bv32, i: nat, ghost m: seq<bv32>, ghost s0: State)
    returns (z': bv32, w': bv32)
    requires 16 <= i < 20 && block.Length == 16 && |m| == 16 && IsWindow(block[..], m, i)
    requires Rounds(i, s0, m) == State(v, w, x, y, z)
    modifies block
    ensures IsWindow(block[..], m, i + 1) && Rounds(i + 1, s0, m) == State(z', v, w', x, y)
  {
    hide Rounds, Choose, Ch, Parity, Majority, Maj, Add, Rol30, W, IsWindow;
    ChooseIsCh(w, x, y);
    RoundStep(i, s0, m, State(v, w, x, y, z), Choose(w, x, y), W(m, i));
    var word := Blk(block, i, m);
    z' := Add(z, Choose(w, x, y), word, 0x5a827999, v);
    w' := Rol30(w);
  }

  method R2(block: array<bv32>, v: bv32, w: bv32, x: bv32, y: bv32, z: bv32, i: nat, ghost m: seq<bv32>, ghost s0: State)
    returns (z': bv32, w': bv32)
    requires 20 <= i < 40 && block.Length == 16 && |m| == 16 && IsWindow(block[..], m, i)
    requires Rounds(i, s0, m) == State(v, w, x, y, z)
    modifies block
    ensures IsWindow(block[..], m, i + 1) && Rounds(i + 1, s0, m) == State(z', v, w', x, y)
  {
    hide Rounds, Choose, Ch, Parity, Majority, Maj, Add, Rol30, W, IsWindow;
    RoundStep(i, s0, m, State(v, w, x, y, z), Parity(w, x, y), W(m, i));
    var word := Blk(block, i, m);
    z' := Add(z, Parity(w, x, y), word, 0x6ed9eba1, v);
    w' := Rol30(w);
  }

  method R3(block: array<bv32>, v: bv32, w: bv32, x: bv32, y: bv32, z: bv32, i: nat, ghost m: seq<bv32>, ghost s0: State)
    returns (z': bv32, w': bv32)
    requires 40 <= i < 60 && block.Length == 16 && |m| == 16 && IsWindow(block[..], m, i)
    requires Rounds(i, s0, m) == State(v, w, x, y, z)
    modifies block
    ensures IsWindow(block[..], m, i + 1) && Rounds(i + 1, s0, m) == State(z', v, w', x, y)
  {
    hide Rounds, Choose, Ch, Parity, Majority, Maj, Add, Rol30, W, IsWindow;
    MajorityIsMaj(w, x, y);
    RoundStep(i, s0, m, State(v, w, x, y, z), Majority(w, x, y), W(m, i));
    var word := Blk(block, i, m);
    z' := Add(z, Majority(w, x, y), word, 0x8f1bbcdc, v);
    w' := Rol30(w);
  }

  method R4(block: array<bv32>, v: bv32, w: bv32, x: bv32, y: bv32, z: bv32, i: nat, ghost m: seq<bv32>, ghost s0: State)
    returns (z': bv32, w': bv32)
    requires 60 <= i < 80 && block.Length == 16 && |m| == 16 && IsWindow(block[..], m, i)
    requires Rounds(i, s0, m) == State(v, w, x, y, z)
    modifies block
    ensures IsWindow(block[..], m, i + 1) && Rounds(i + 1, s0, m) == State(z', v, w', x, y)
  {
    hide Rounds, Choose, Ch, Parity, Majority, Maj, Add, Rol30, W, IsWindow;
    RoundStep(i, s0, m, State(v, w, x, y, z), Parity(w, x, y), W(m, i));
    var word := Blk(block, i, m);
    z' := Add(z, Parity(w, x, y), word, 0xca62c1d6, v);
    w' := Rol30(w);
  }

  method Rounds0(block: array<bv32>, s: State, ghost m: seq<bv32>, ghost s0: State) returns (r: State)
    requires block.Length == 16 && |m| == 16 && IsWindow(block[..], m, 0) && s == Rounds(0, s0, m)
    modifies block
    ensures IsWindow(block[..], m, 20) && r == Rounds(20, s0, m)
  {
    hide IsWindow, Rounds;
    var a, b, c, d, e := s.a, s.b, s.c, s.d, s.e;
    e, b := R0(block, a, b, c, d, e, 0, m, s0);
    d, a := R0(block, e, a, b, c, d, 1, m, s0);
    c, e := R0(block, d, e, a, b, c, 2, m, s0);
    b, d := R0(block, c, d, e, a, b, 3, m, s0);
    a, c := R0(block, b, c, d, e, a, 4, m, s0);
    e, b := R0(block, a, b, c, d, e, 5, m, s0);
    d, a := R0(block, e, a, b, c, d, 6, m, s0);
    c, e := R0(block, d, e, a, b, c, 7, m, s0);
    b, d := R0(block, c, d, e, a, b, 8, m, s0);
    a, c := R0(block, b, c, d, e, a, 9, m, s0);
    e, b := R0(block, a, b, c, d, e, 10, m, s0);
    d, a := R0(block, e, a, b, c, d, 11, m, s0);
    c, e := R0(block, d, e, a, b, c, 12, m, s0);
    b, d := R0(block, c, d, e, a, b, 13, m, s0);
    a, c := R0(block, b, c, d, e, a, 14, m, s0);
    e, b := R0(block, a, b, c, d, e, 15, m, s0);
    d, a := R1(block, e, a, b, c, d, 16, m, s0);
    c, e := R1(block, d, e, a, b, c, 17, m, s0);
    b, d := R1(block, c, d, e, a, b, 18, m, s0);
    a, c := R1(block, b, c, d, e, a, 19, m, s0);
    r := State(a, b, c, d, e);
  }

  method Rounds20(block: array<bv32>, s: State, ghost m: seq<bv32>, ghost s0: State) returns (r: State)
    requires block.Length == 16 && |m| == 16 && IsWindow(block[..], m, 20) && s == Rounds(20, s0, m)
    modifies block
    ensures IsWindow(block[..], m, 40) && r == Rounds(40, s0, m)
  {
    hide IsWindow, Rounds;
    var a, b, c, d, e := s.a, s.b, s.c, s.d, s.e;
    e, b := R2(block, a, b, c, d, e, 20, m, s0);
    d, a := R2(block, e, a, b, c, d, 21, m, s0);
    c, e := R2(block, d, e, a, b, c, 22, m, s0);
    b, d := R2(block, c, d, e, a, b, 23, m, s0);
    a, c := R2(block, b, c, d, e, a, 24, m, s0);
    e, b := R2(block, a, b, c, d, e, 25, m, s0);
    d, a := R2(block, e, a, b, c, d, 26, m, s0);
    c, e := R2(block, d, e, a, b, c, 27, m, s0);
    b, d := R2(block, c, d, e, a, b, 28, m, s0);
    a, c := R2(block, b, c, d, e, a, 29, m, s0);
    e, b := R2(block, a, b, c, d, e, 30, m, s0);
    d, a := R2(block, e, a, b, c, d, 31, m, s0);
    c, e := R2(block, d, e, a, b, c, 32, m, s0);
    b, d := R2(block, c, d, e, a, b, 33, m, s0);
    a, c := R2(block, b, c, d, e, a, 34, m, s0);
    e, b := R2(block, a, b, c, d, e, 35, m, s0);
    d, a := R2(block, e, a, b, c, d, 36, m, s0);
    c, e := R2(block, d, e, a, b, c, 37, m, s0);
    b, d := R2(block, c, d, e, a, b, 38, m, s0);
    a, c := R2(block, b, c, d, e, a, 39, m, s0);
    r := State(a, b, c, d, e);
  }

  method Rounds40(block: array<bv32>, s: State, ghost m: seq<bv32>, ghost s0: State) returns (r: State)
    requires block.Length == 16 && |m| == 16 && IsWindow(block[..], m, 40) && s == Rounds(40, s0, m)
    modifies block
    ensures IsWindow(block[..], m, 60) && r == Rounds(60, s0, m)
  {
    hide IsWindow, Rounds;
    var a, b, c, d, e := s.a, s.b, s.c, s.d, s.e;
    e, b := R3(block, a, b, c, d, e, 40, m, s0);
    d, a := R3(block, e, a, b, c, d, 41, m, s0);
    c, e := R3(block, d, e, a, b, c, 42, m, s0);
    b, d := R3(block, c, d, e, a, b, 43, m, s0);
    a, c := R3(block, b, c, d, e, a, 44, m, s0);
    e, b := R3(block, a, b, c, d, e, 45, m, s0);
    d, a := R3(block, e, a, b, c, d, 46, m, s0);
    c, e := R3(block, d, e, a, b, c, 47, m, s0);
    b, d := R3(block, c, d, e, a, b, 48, m, s0);
    a, c := R3(block, b, c, d, e, a, 49, m, s0);
    e, b := R3(block, a, b, c, d, e, 50, m, s0);
    d, a := R3(block, e, a, b, c, d, 51, m, s0);
    c, e := R3(block, d, e, a, b, c, 52, m, s0);
    b, d := R3(block, c, d, e, a, b, 53, m, s0);
    a, c := R3(block, b, c, d, e, a, 54, m, s0);
    e, b := R3(block, a, b, c, d, e, 55, m, s0);
    d, a := R3(block, e, a, b, c, d, 56, m, s0);
    c, e := R3(block, d, e, a, b, c, 57, m, s0);
    b, d := R3(block, c, d, e, a, b, 58, m, s0);
    a, c := R3(block, b, c, d, e, a, 59, m, s0);
    r := State(a, b, c, d, e);
  }

  method Rounds60(block: array<bv32>, s: State, ghost m: seq<bv32>, ghost s0: State) returns (r: State)
    requires block.Length == 16 && |m| == 16 && IsWindow(block[..], m, 60) && s == Rounds(60, s0, m)
    modifies block
    ensures IsWindow(block[..], m, 80) && r == Rounds(80, s0, m)
  {
    hide IsWindow, Rounds;
    var a, b, c, d, e := s.a, s.b, s.c, s.d, s.e;
    e, b := R4(block, a, b, c, d, e, 60, m, s0);
    d, a := R4(block, e, a, b, c, d, 61, m, s0);
    c, e := R4(block, d, e, a, b, c, 62, m, s0);
    b, d := R4(block, c, d, e, a, b, 63, m, s0);
    a, c := R4(block, b, c, d, e, a, 64, m, s0);
    e, b := R4(block, a, b, c, d, e, 65, m, s0);
    d, a := R4(block, e, a, b, c, d, 66, m, s0);
    c, e := R4(block, d, e, a, b, c, 67, m, s0);
    b, d := R4(block, c, d, e, a, b, 68, m, s0);
    a, c := R4(block, b, c, d, e, a, 69, m, s0);
    e, b := R4(block, a, b, c, d, e, 70, m, s0);
    d, a := R4(block, e, a, b, c, d, 71, m, s0);
    c, e := R4(block, d, e, a, b, c, 72, m, s0);
    b, d := R4(block, c, d, e, a, b, 73, m, s0);
    a, c := R4(block, b, c, d, e, a, 74, m, s0);
    e, b := R4(block, a, b, c, d, e, 75, m, s0);
    d, a := R4(block, e, a, b, c, d, 76, m, s0);
    c, e := R4(block, d, e, a, b, c, 77, m, s0);
    b, d := R4(block, c, d, e, a, b, 78, m, s0);
    a, c := R4(block, b, c, d, e, a, 79, m, s0);
    r := State(a, b, c, d, e);
  }

  // ---------- Blocks and padding ----------

  /** The big-endian word of the standard, and of the masking decoder in final. */
  function Word(b0: byte, b1: byte, b2: byte, b3: byte): bv32 {
    (b3 as bv32) | ((b2 as bv32) << 8) | ((b1 as bv32) << 16) | ((b0 as bv32) << 24)
  }

  /** The number that the word is. */
  lemma WordValue(b0: byte, b1: byte, b2: byte, b3: byte)
    ensures Word(b0, b1, b2, b3) as nat == BeNumber([b0, b1, b2, b3])
  {
    BigEndianValue(b0, b1, b2, b3, Word(b0, b1, b2, b3));
  }

  /** The upper bits of an int converted from a signed char. */
  function Sign(b: byte): bv32 {
    if b < 0x80 then 0 else 0xffff_ff00
  }

  /** The word that update assembles from four unmasked chars where char is signed. */
  function SignedWord(b0: byte, b1: byte, b2: byte, b3: byte): bv32 {
    JoinedWord(b0, b1, b2, b3, Sign(b0), Sign(b1), Sign(b2), Sign(b3))
  }

  function JoinedWord(b0: byte, b1: byte, b2: byte, b3: byte, s0: bv32, s1: bv32, s2: bv32, s3: bv32): bv32 {
    (b3 as bv32 | s3) | ((b2 as bv32 | s2) << 8) | ((b1 as bv32 | s1) << 16) | ((b0 as bv32 | s0) << 24)
  }

  function CharWord(charSigned: bool, b0: byte, b1: byte, b2: byte, b3: byte): bv32 {
    if charSigned then SignedWord(b0, b1, b2, b3) else Word(b0, b1, b2, b3)
  }

  function Words(charSigned: bool, block: seq<byte>): (w: seq<bv32>)
    requires |block| == 64
    ensures |w| == 16
  {
    seq(16, i requires 0 <= i < 16 => CharWord(charSigned, block[4 * i], block[4 * i + 1], block[4 * i + 2], block[4 * i + 3]))
  }

  /** Word i of the standard is the number that bytes 4 * i to 4 * i + 3 are, most significant first. */
  lemma WordsValue(block: seq<byte>, i: nat)
    requires |block| == 64 && i < 16
    ensures Words(false, block)[i] as nat == BeNumber(block[4 * i..4 * i + 4])
  {
    hide Word;
    var b := block[4 * i..4 * i + 4];
    WordValue(b[0], b[1], b[2], b[3]);
    assert b == [b[0], b[1], b[2], b[3]];
  }

  /** From chaining value s, compress the first k blocks of data. */
  function Chain(s: State, charSigned: bool, data: seq<byte>, k: nat): State
    requires 64 * k <= |data|
  {
    if k == 0 then s
    else Compress(Chain(s, charSigned, data, k - 1), Words(charSigned, data[64 * (k - 1)..64 * k]))
  }

  /** Section 5.1.1; Be keeps the 64 bits that the section provides for the length. */
  function Padded(m: seq<byte>): (p: seq<byte>)
    ensures |p| % 64 == 0
  {
    m + [0x80] + Zeros(PadZeros(|m|)) + Be(8 * |m|, 8)
  }

  /** The digest of FIPS 180-4 as five words. */
  function Sha1(m: seq<byte>): State {
    var p := Padded(m);
    Chain(INITIAL, false, p, |p| / 64)
  }

  /**
   * The digest the code computes: the full blocks of the message go through update's decoder,
   * the padded rest through the masking decoder of final.
   */
  function CodeSha1(charSigned: bool, m: seq<byte>): State {
    var full := |m| / 64;
    var rest := Padded(m)[64 * full..];
    Chain(Chain(INITIAL, charSigned, m, full), false, rest, |rest| / 64)
  }

  // ---------- Which messages update decodes as the standard does ----------

  /** No byte after the first spills sign bits over a byte that is not all ones. */
  predicate CleanWord(b0: byte, b1: byte, b2: byte, b3: byte) {
    && (b3 < 0x80 || (b2 == 0xff && b1 == 0xff && b0 == 0xff))
    && (b2 < 0x80 || (b1 == 0xff && b0 == 0xff))
    && (b1 < 0x80 || b0 == 0xff)
  }

  predicate CleanBlock(block: seq<byte>)
    requires |block| == 64
  {
    forall i {:trigger block[4 * i]} :: 0 <= i < 16 ==> CleanWord(block[4 * i], block[4 * i + 1], block[4 * i + 2], block[4 * i + 3])
  }

  function Block(m: seq<byte>, k: nat): (b: seq<byte>)
    requires 64 * (k + 1) <= |m|
    ensures |b| == 64
  {
    m[64 * k..64 * (k + 1)]
  }

  predicate CleanMessage(m: seq<byte>) {
    forall k: nat | k < |m| / 64 :: CleanBlock(Block(m, k))
  }

  lemma OrBits(b0: byte, b1: byte, b2: byte, b3: byte, s0: bv32, s1: bv32, s2: bv32, s3: bv32)
    requires s3 == if b3 < 0x80 then 0 else 0xffff_ff00
    requires s2 == if b2 < 0x80 then 0 else 0xffff_ff00
    requires s1 == if b1 < 0x80 then 0 else 0xffff_ff00
    requires s0 == if b0 < 0x80 then 0 else 0xffff_ff00
    ensures JoinedWord(b0, b1, b2, b3, s0, s1, s2, s3) == Word(b0, b1, b2, b3) <==> CleanWord(b0, b1, b2, b3)
  {
  }

  lemma SignIs(b: byte)
    ensures Sign(b) == if b < 0x80 then 0 else 0xffff_ff00
  {
  }

  lemma SignedWordExact(b0: byte, b1: byte, b2: byte, b3: byte)
    ensures SignedWord(b0, b1, b2, b3) == Word(b0, b1, b2, b3) <==> CleanWord(b0, b1, b2, b3)
  {
    SignIs(b0);
    SignIs(b1);
    SignIs(b2);
    SignIs(b3);
    hide Sign, JoinedWord, Word, CleanWord;
    OrBits(b0, b1, b2, b3, Sign(b0), Sign(b1), Sign(b2), Sign(b3));
  }

  /** Update and the standard read the same sixteen words exactly when the block is clean. */
  lemma WordsExact(block: seq<byte>)
    requires |block| == 64
    ensures Words(true, block) == Words(false, block) <==> CleanBlock(block)
  {
    forall i | 0 <= i < 16
      ensures Words(true, block)[i] == Words(false, block)[i]
          <==> CleanWord(block[4 * i], block[4 * i + 1], block[4 * i + 2], block[4 * i + 3])
    {
      SignedWordExact(block[4 * i], block[4 * i + 1], block[4 * i + 2], block[4 * i + 3]);
      hide SignedWord, CleanWord, Word;
    }
    hide SignedWord, CleanWord, Word;
    assert Words(true, block) == Words(false, block) <==> forall i :: 0 <= i < 16 ==> Words(true, block)[i] == Words(false, block)[i];
  }

  /** Over a whole message: the full blocks are all read as the standard reads them exactly when it is clean. */
  lemma MessageDecodingExact(m: seq<byte>)
    ensures (forall k: nat :: k < |m| / 64 ==> Words(true, Block(m, k)) == Words(false, Block(m, k))) <==> CleanMessage(m)
  {
    forall k: nat | k < |m| / 64
      ensures Words(true, Block(m, k)) == Words(false, Block(m, k)) <==> CleanBlock(Block(m, k))
    {
      WordsExact(Block(m, k));
    }
    hide Words, CleanBlock;
  }

  /** With signed char, one byte 0x80 in the last position of a word already changes the word. */
  lemma HighByteMisread()
    ensures var block := Zeros(3) + [0x80] + Zeros(60);
            Words(true, block) != Words(false, block) && !CleanMessage(block)
  {
    var block := Zeros(3) + [0x80] + Zeros(60);
    WordsExact(block);
    hide Words;
    assert block[4 * 0 + 3] == 0x80 && block[4 * 0 + 2] == 0;
    assert !CleanWord(block[4 * 0], block[4 * 0 + 1], block[4 * 0 + 2], block[4 * 0 + 3]);
    assert !CleanBlock(block);
    hide CleanBlock;
    assert Block(block, 0) == block && |block| / 64 == 1;
  }

  // ---------- Chaining ----------

  lemma {:induction false} ChainPrefix(s: State, charSigned: bool, a: seq<byte>, b: seq<byte>, k: nat)
    requires 64 * k <= |a|
    ensures Chain(s, charSigned, a + b, k) == Chain(s, charSigned, a, k)
  {
    hide Compress, Words;
    if k != 0 {
      ChainPrefix(s, charSigned, a, b, k - 1);
      assert (a + b)[64 * (k - 1)..64 * k] == a[64 * (k - 1)..64 * k];
    }
  }

  lemma ChainNext(s: State, charSigned: bool, data: seq<byte>, k: nat)
    requires 64 * (k + 1) <= |data|
    ensures Chain(s, charSigned, data, k + 1)
         == Compress(Chain(s, charSigned, data, k), Words(charSigned, data[64 * k..64 * (k + 1)]))
  {
    hide Compress, Words;
  }

  lemma {:induction false} ChainSplit(s: State, charSigned: bool, data: seq<byte>, j: nat, k: nat)
    requires 64 * (j + k) <= |data|
    ensures Chain(s, charSigned, data, j + k) == Chain(Chain(s, charSigned, data, j), charSigned, data[64 * j..], k)
  {
    hide Compress, Words;
    if k != 0 {
      ChainSplit(s, charSigned, data, j, k - 1);
      SliceOfTail(data, 64 * j, 64 * (k - 1), 64 * k);
    }
  }

  lemma {:induction false} ChainClean(s: State, m: seq<byte>, k: nat)
    requires CleanMessage(m) && k <= |m| / 64
    ensures Chain(s, true, m, k) == Chain(s, false, m, k)
  {
    hide Compress, Words, CleanBlock;
    if k != 0 {
      ChainClean(s, m, k - 1);
      WordsExact(Block(m, k - 1));
    }
  }

  /** The code computes the standard's digest where char is unsigned, and on every clean message otherwise. */
  lemma CodeIsSha1(charSigned: bool, m: seq<byte>)
    requires charSigned ==> CleanMessage(m)
    ensures CodeSha1(charSigned, m) == Sha1(m)
  {
    hide Compress, Words, CleanMessage, Chain, Be;
    var full, p := |m| / 64, Padded(m);
    if charSigned {
      ChainClean(INITIAL, m, full);
    }
    assert p == m + p[|m|..];
    ChainPrefix(INITIAL, false, m, p[|m|..], full);
    ChainSplit(INITIAL, false, p, full, |p| / 64 - full);
  }

  // ---------- The streaming hasher ----------

  /** The conversion (uint32_t)n. */
  function ToWord(n: nat): bv32 {
    var b := Be(n, 4);
    Word(b[0], b[1], b[2], b[3])
  }

  /** The number that the length word is. */
  lemma ToWordValue(n: nat)
    ensures ToWord(n) as nat == n % TWO32
  {
    hide Be, Word, Pow256;
    Pow256Values();
    var b := Be(n, 4);
    WordValue(b[0], b[1], b[2], b[3]);
    BeValue(n, 4);
    assert b == [b[0], b[1], b[2], b[3]];
  }

  lemma ToWordLow(n: nat)
    ensures ToWord(n) == ToWord(n % TWO32)
  {
    hide Be, Word, Pow256;
    Pow256Values();
    BeInjective(n, n % TWO32, 4);
    var b, c := Be(n, 4), Be(n % TWO32, 4);
    assert b == c;
  }

  /** The eight length bytes are the two words that final stores. */
  lemma LengthWords(n: nat, block: seq<byte>)
    requires |block| == 64 && block[56..] == Be(n, 8)
    ensures Words(false, block)[14] == ToWord(U64(n) / TWO32)
    ensures Words(false, block)[15] == ToWord(U64(n))
  {
    hide Be, Word;
    var low := n % TWO64;
    BeInjective(n, low, 8);
    Pow256Values();
    hide Pow256;
    BeSplit(low % TWO32, low / TWO32, 4, 4);
    ToWordLow(low);
    var l := Be(n, 8);
    assert l == Be(low / TWO32, 4) + Be(low % TWO32, 4);
    assert forall i :: 0 <= i < 4 ==> block[56 + i] == l[i] == Be(low / TWO32, 4)[i];
    assert forall i :: 0 <= i < 4 ==> block[60 + i] == l[4 + i] == Be(low % TWO32, 4)[i];
  }

  /** The bit count in 64-bit arithmetic, although the block counter itself is reduced modulo 2^64. */
  lemma TotalBits(blocks: nat, r: nat)
    ensures U64((U64(blocks) * 64 + r) * 8) == U64(8 * (64 * blocks + r))
  {
    var q, low := blocks / TWO64, blocks % TWO64;
    assert blocks == TWO64 * q + low;
    var n := (low * 64 + r) * 8;
    assert 8 * (64 * blocks + r) == TWO64 * (512 * q + n / TWO64) + n % TWO64;
    ModUnique(8 * (64 * blocks + r), TWO64, 512 * q + n / TWO64, n % TWO64);
  }

  lemma WordsFront(x: seq<byte>, y: seq<byte>, z: seq<byte>)
    requires |x| == 56 && |y| == |z| == 8
    ensures Words(false, x + y)[..14] == Words(false, x + z)[..14]
  {
    hide Word;
    assert forall k :: 0 <= k < 56 ==> (x + y)[k] == x[k] == (x + z)[k];
  }

  /** The last block, built from the words of its first 56 bytes and the two length words. */
  lemma LastBlock(x: seq<byte>, y: seq<byte>, n: nat)
    requires |x| == 56 && |y| == 8
    ensures Words(false, x + Be(n, 8)) == Words(false, x + y)[..14] + [ToWord(U64(n) / TWO32), ToWord(U64(n))]
  {
    hide Words, ToWord, Be, U64;
    WordsFront(x, y, Be(n, 8));
    LengthWords(n, x + Be(n, 8));
    var w := Words(false, x + Be(n, 8));
    assert w == w[..14] + [w[14], w[15]];
  }

  lemma ZeroWords()
    ensures Words(false, Zeros(64))[..14] == seq(14, _ => 0)
  {
    assert Word(0, 0, 0, 0) == 0;
    hide Word;
  }

  /** What final has to hash after the full blocks. */
  lemma PaddedRest(m: seq<byte>, blocks: nat, r: nat)
    requires |m| == 64 * blocks + r && r < 64
    ensures 64 * blocks <= |Padded(m)|
    ensures Padded(m)[64 * blocks..] == m[64 * blocks..] + [0x80] + Zeros(if r < 56 then 55 - r else 119 - r) + Be(8 * |m|, 8)
    ensures |m| / 64 == blocks
  {
    hide Be;
    ModUnique(|m|, 64, blocks, r);
    var tail := [0x80] + Zeros(PadZeros(|m|)) + Be(8 * |m|, 8);
    assert Padded(m) == m + tail;
    assert (m + tail)[64 * blocks..] == m[64 * blocks..] + tail;
  }

  /** The code's digest when the padded rest fits one block. */
  lemma OneBlock(charSigned: bool, m: seq<byte>, blocks: nat, buf64: seq<byte>, w: seq<bv32>)
    requires 64 * blocks <= |m| < 64 * blocks + 56
    requires buf64 == m[64 * blocks..] + [0x80] + Zeros(64 * blocks + 63 - |m|)
    requires w == Words(false, buf64)[..14] + [ToWord(U64(8 * |m|) / TWO32), ToWord(U64(8 * |m|))]
    ensures CodeSha1(charSigned, m) == Compress(Chain(INITIAL, charSigned, m, blocks), w)
  {
    hide Words, ToWord, Be, U64, Compress, Padded;
    var r := |m| - 64 * blocks;
    PaddedRest(m, blocks, r);
    var x := m[64 * blocks..] + [0x80] + Zeros(55 - r);
    assert buf64 == x + Zeros(8);
    LastBlock(x, Zeros(8), 8 * |m|);
    var rest := Padded(m)[64 * blocks..];
    assert rest == x + Be(8 * |m|, 8) && rest[0..64] == rest;
    ChainOne(Chain(INITIAL, charSigned, m, blocks), rest);
    hide Chain;
  }

  lemma ChainOne(s: State, rest: seq<byte>)
    requires |rest| == 64
    ensures Chain(s, false, rest, 1) == Compress(s, Words(false, rest))
  {
    hide Words, Compress;
    assert rest[0..64] == rest;
    assert Chain(s, false, rest, 0) == s;
  }

  /** The code's digest when the length needs a block of its own. */
  lemma TwoBlocks(charSigned: bool, m: seq<byte>, blocks: nat, buf64: seq<byte>, w: seq<bv32>)
    requires 64 * blocks + 56 <= |m| < 64 * blocks + 64
    requires buf64 == m[64 * blocks..] + [0x80] + Zeros(64 * blocks + 63 - |m|)
    requires w == seq(14, _ => 0) + [ToWord(U64(8 * |m|) / TWO32), ToWord(U64(8 * |m|))]
    ensures CodeSha1(charSigned, m) == Compress(Compress(Chain(INITIAL, charSigned, m, blocks), Words(false, buf64)), w)
  {
    hide Words, ToWord, Be, U64, Compress, Padded;
    var r := |m| - 64 * blocks;
    PaddedRest(m, blocks, r);
    var l := Be(8 * |m|, 8);
    var last := Zeros(56) + l;
    var rest := Padded(m)[64 * blocks..];
    assert rest == buf64 + last;
    assert Zeros(56) + Zeros(8) == Zeros(64);
    LastBlock(Zeros(56), Zeros(8), 8 * |m|);
    ZeroWords();
    var s := Chain(INITIAL, charSigned, m, blocks);
    ChainSplit(s, false, rest, 1, 1);
    ChainPrefix(s, false, buf64, last, 1);
    ChainOne(s, buf64);
    assert rest[64..] == last;
    ChainOne(Chain(s, false, rest, 1), last);
    hide Chain;
  }

  class Hasher {
    const charSigned: bool
    var iterations: nat
    var sum: State
    var buf: seq<byte>
    ghost var fed: seq<byte>
    ghost var blocks: nat

    ghost predicate Valid()
      reads this
    {
      && |buf| < 64 && |fed| == 64 * blocks + |buf|
      && buf == fed[64 * blocks..]
      && sum == Chain(INITIAL, charSigned, fed, blocks)
      && iterations == U64(blocks)
    }

    constructor (charSigned: bool)
      ensures Valid() && fed == [] && this.charSigned == charSigned
    {
      this.charSigned := charSigned;
      new;
      Clear();
    }

    method Clear()
      modifies this
      ensures Valid() && fed == []
      ensures iterations == 0 && sum == INITIAL && buf == []
    {
      hide Compress;
      sum := INITIAL;
      iterations := 0;
      buf := [];
      fed, blocks := [], 0;
    }

    method Load(block: array<bv32>, p: seq<byte>)
      requires block.Length == 16 && |p| == 64
      modifies block
      ensures block[..] == Words(charSigned, p)
    {
      hide CharWord;
      for i := 0 to 16
        invariant forall k :: 0 <= k < i ==> block[k] == CharWord(charSigned, p[4 * k], p[4 * k + 1], p[4 * k + 2], p[4 * k + 3])
      {
        block[i] := CharWord(charSigned, p[4 * i], p[4 * i + 1], p[4 * i + 2], p[4 * i + 3]);
      }
    }

    method Transform(block: array<bv32>)
      requires block.Length == 16
      modifies block, `sum, `iterations
      ensures sum == Compress(old(sum), old(block[..]))
      ensures iterations == U64(old(iterations) + 1)
    {
      hide Rounds, AddState;
      ghost var m := block[..];
      RoundsStart(sum, m);
      var r := Rounds0(block, sum, m, sum);
      r := Rounds20(block, r, m, sum);
      r := Rounds40(block, r, m, sum);
      r := Rounds60(block, r, m, sum);
      sum := AddState(sum, r);
      iterations := U64(iterations + 1);
    }

    /** Pads, stores the bit count and returns the five digest words; the object starts over. */
    method Final() returns (digest: State)
      requires Valid()
      modifies this
      ensures digest == CodeSha1(charSigned, old(fed))
      ensures Valid() && fed == []
      ensures iterations == 0 && sum == INITIAL && buf == []
    {
      hide Chain, Compress, Words, U64, ToWord, CodeSha1;
      ghost var m, rest := fed, buf;
      var totalBits := U64((iterations * 64 + |buf|) * 8);
      TotalBits(blocks, |buf|);
      buf := buf + [0x80];
      var sz := |buf|;
      while |buf| < 64
        modifies `buf
        invariant sz <= |buf| <= 64 && buf == rest + [0x80] + Zeros(|buf| - sz)
      {
        buf := buf + [0];
      }
      var block := new bv32[16];
      LoadMasked(block, buf);
      if sz > 56 {
        Transform(block);
        for i := 0 to 14
          modifies block
          invariant forall k :: 0 <= k < i ==> block[k] == 0
        {
          block[i] := 0;
        }
      }
      block[15] := ToWord(totalBits);
      block[14] := ToWord(totalBits / TWO32);
      if sz > 56 {
        assert block[..] == seq(14, _ => 0) + [block[14], block[15]];
        TwoBlocks(charSigned, m, blocks, buf, block[..]);
      } else {
        assert block[..] == Words(false, buf)[..14] + [block[14], block[15]];
        OneBlock(charSigned, m, blocks, buf, block[..]);
      }
      Transform(block);
      digest := sum;
      Clear();
    }

    method LoadMasked(block: array<bv32>, p: seq<byte>)
      requires block.Length == 16 && |p| == 64
      modifies block
      ensures block[..] == Words(false, p)
    {
      hide Word;
      for i := 0 to 16
        invariant forall k :: 0 <= k < i ==> block[k] == Word(p[4 * k], p[4 * k + 1], p[4 * k + 2], p[4 * k + 3])
      {
        block[i] := Word(p[4 * i], p[4 * i + 1], p[4 * i + 2], p[4 * i + 3]);
      }
    }

    /** Appends bytes while there are some and the buffer is short of a block. */
    method Fill(data: seq<byte>) returns (p: nat)
      requires |buf| < 64
      modifies `buf
      ensures p <= |data| && buf == old(buf) + data[..p] && |buf| <= 64
      ensures p == |data| || |buf| == 64
    {
      var size := |data|;
      p := 0;
      while size > 0 && |buf| < 64
        invariant 0 <= size && p + size == |data| && |buf| <= 64
        invariant buf == old(buf) + data[..p]
      {
        buf := buf + [data[p]];
        p, size := p + 1, size - 1;
      }
    }

    method Keep(data: seq<byte>)
      requires buf == []
      modifies `buf
      ensures buf == data
    {
      var p, size := 0, |data|;
      while size > 0
        invariant 0 <= size && p + size == |data| && buf == data[..p]
      {
        size := size - 1;
        buf := buf + [data[p]];
        p := p + 1;
      }
    }

    method Update(data: seq<byte>)
      requires Valid()
      modifies this
      ensures Valid() && fed == old(fed) + data
    {
      hide Chain, Compress, Words, U64;
      if |data| == 0 {
        return;
      }
      var p := 0;
      var block := new bv32[16];
      ghost var was, all := fed, fed + data;
      ChainPrefix(INITIAL, charSigned, was, data, blocks);
      fed := all;
      if |buf| != 0 {
        p := Fill(data);
        assert buf == all[64 * blocks..|was| + p];
        if |buf| < 64 {
          return;
        }
        Load(block, buf);
        ChainNext(INITIAL, charSigned, all, blocks);
        buf := [];
        Transform(block);
        U64Next(blocks);
        blocks := blocks + 1;
      }
      FullBlocks(data, p, block);
    }

    /** Transforms full blocks straight from the data, from position p on, and keeps the rest. */
    method FullBlocks(data: seq<byte>, from: nat, block: array<bv32>)
      requires from <= |data| <= |fed| && fed[|fed| - |data|..] == data
      requires block.Length == 16 && buf == [] && |fed| - |data| + from == 64 * blocks
      requires sum == Chain(INITIAL, charSigned, fed, blocks) && iterations == U64(blocks)
      modifies block, `sum, `iterations, `buf, `blocks
      ensures Valid()
    {
      hide Chain, Compress, Words, U64;
      var p, size := from, |data| - from;
      while size >= 64
        modifies block, `sum, `iterations, `blocks
        invariant 0 <= size && p + size == |data| && |fed| - |data| + p == 64 * blocks
        invariant sum == Chain(INITIAL, charSigned, fed, blocks) && iterations == U64(blocks)
        decreases size
      {
        assert data[p..p + 64] == fed[64 * blocks..64 * (blocks + 1)];
        Load(block, data[p..p + 64]);
        ChainNext(INITIAL, charSigned, fed, blocks);
        p := p + 64;
        Transform(block);
        U64Next(blocks);
        blocks := blocks + 1;
        size := size - 64;
      }
      Keep(data[p..]);
      assert data[p..] == fed[64 * blocks..];
    }
  }

  lemma RoundsStart(s: State, m: seq<bv32>)
    requires |m| == 16
    ensures Rounds(0, s, m) == s && IsWindow(m, m, 0)
  {
  }

  /** How the input was cut into updates leaves no trace. */
  lemma ChunksLeaveNoTrace(g: Hasher, h: Hasher)
    requires g.Valid() && h.Valid() && g.fed == h.fed && g.charSigned == h.charSigned
    ensures g.sum == h.sum && g.iterations == h.iterations && g.buf == h.buf
  {
    hide Chain;
    ModUnique(|g.fed|, 64, g.blocks, |g.buf|);
    ModUnique(|h.fed|, 64, h.blocks, |h.buf|);
  }

  method Calculate(charSigned: bool, data: seq<byte>) returns (digest: State)
    ensures digest == CodeSha1(charSigned, data)
    ensures (charSigned ==> CleanMessage(data)) ==> digest == Sha1(data)
  {
    hide CodeSha1, Sha1, CleanMessage, Chain;
    var r := new Hasher(charSigned);
    r.Update(data);
    assert [] + data == data;
    digest := r.Final();
    if charSigned ==> CleanMessage(data) {
      CodeIsSha1(charSigned, data);
    }
  }

  /** The stream form: reads of 64 bytes while they succeed, then the short last read if it got anything. */
  method CalculateStream(charSigned: bool, stream: seq<byte>) returns (digest: State)
    ensures digest == CodeSha1(charSigned, stream)
  {
    hide CodeSha1, Chain;
    var r := new Hasher(charSigned);
    var at := 0;
    while at + 64 <= |stream|
      invariant at <= |stream| && r.Valid() && fresh(r) && r.fed == stream[..at]
    {
      r.Update(stream[at..at + 64]);
      assert stream[..at] + stream[at..at + 64] == stream[..at + 64];
      at := at + 64;
    }
    if at < |stream| {
      r.Update(stream[at..]);
    }
    assert stream[..at] + stream[at..] == stream && r.fed == stream;
    digest := r.Final();
  }

  /** Any list of chunks gives the value of all of them in one. */
  method CalculateChunks(charSigned: bool, chunks: seq<seq<byte>>) returns (digest: State)
    ensures digest == CodeSha1(charSigned, Flat(chunks))
  {
    hide CodeSha1, Chain, Flat;
    var r := new Hasher(charSigned);
    var i := 0;
    assert Flat(chunks[..0]) == [] by { FlatNothing(chunks[..0]); }
    while i < |chunks|
      invariant i <= |chunks| && r.Valid() && fresh(r) && r.fed == Flat(chunks[..i])
    {
      FlatNext(chunks, i);
      r.Update(chunks[i]);
      i := i + 1;
    }
    assert chunks[..i] == chunks;
    digest := r.Final();
  }
}
