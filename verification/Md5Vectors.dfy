/**
 * A known answer of MD5: the message "abc" of the test suite in section A.5 of RFC 1321, operation by
 * operation. The numbers are those of the standard and name no function of the model.
 */
module Md5Vectors {
  import opened Bytes
  import opened Md5

  const ABC: seq<byte> := [0x61, 0x62, 0x63]

  /** The padded message as sixteen words. */
  const WORDS: seq<bv32> := [0x80636261, 0, 0, 0, 0, 0, 0, 0, 0, 0, 0, 0, 0, 0, 24, 0]

  lemma AbcPadded()
    ensures |Padded(ABC)| == 64 && Words(Padded(ABC)) == WORDS
  {
    hide LengthBytes, Word;
    LengthIs24();
    var p := Padded(ABC);
    assert p[..4] == [0x61, 0x62, 0x63, 0x80] && p[56..60] == [24, 0, 0, 0];
    assert forall i :: 1 <= i < 14 ==> p[4 * i..4 * i + 4] == [0, 0, 0, 0];
    assert p[60..64] == [0, 0, 0, 0];
    AbcWords();
  }

  lemma AbcWords()
    ensures Word([0x61, 0x62, 0x63, 0x80]) == 0x80636261 && Word([24, 0, 0, 0]) == 24 && Word([0, 0, 0, 0]) == 0
  {
  }

  lemma LengthIs24()
    ensures LengthBytes(3) == [24, 0, 0, 0, 0, 0, 0, 0]
  {
    hide ToByte;
    ToByteValue(24);
    ToByteValue(0);
    assert ToByte(24) == 24 && ToByte(0) == 0;
    assert Le(24, 8) == [ToByte(24)] + Le(0, 7);
    Nothing(7);
  }

  lemma {:induction false} Nothing(k: nat)
    ensures Le(0, k) == Zeros(k)
  {
    hide ToByte;
    ToByteValue(0);
    if k != 0 {
      Nothing(k - 1);
    }
  }

  lemma WordsAre()
    ensures |WORDS| == 16 && WORDS[0] == 0x80636261 && WORDS[14] == 24 && WORDS[15] == 0
    ensures forall i :: 1 <= i < 14 ==> WORDS[i] == 0
  {
  }

  lemma Steps0()
    ensures Steps(0, INITIAL, WORDS) == State(0x67452301, 0xefcdab89, 0x98badcfe, 0x10325476)
  {
  }

  lemma Values1()
    ensures FF(0x67452301, 0xefcdab89, 0x98badcfe, 0x10325476, 0x80636261, 7, 0xd76aa478) == 0xd6d117b4
    ensures FF(0x10325476, 0xd6d117b4, 0xefcdab89, 0x98badcfe, 0, 12, 0xe8c7b756) == 0x344a8432
    ensures FF(0x98badcfe, 0x344a8432, 0xd6d117b4, 0xefcdab89, 0, 17, 0x242070db) == 0x2f6fbd72
    ensures FF(0xefcdab89, 0x2f6fbd72, 0x344a8432, 0xd6d117b4, 0, 22, 0xc1bdceee) == 0x7ad956f2
    ensures FF(0xd6d117b4, 0x7ad956f2, 0x2f6fbd72, 0x344a8432, 0, 7, 0xf57c0faf) == 0xc73741ef
    ensures FF(0x344a8432, 0xc73741ef, 0x7ad956f2, 0x2f6fbd72, 0, 12, 0x4787c62a) == 0x8bac3051
    ensures FF(0x2f6fbd72, 0x8bac3051, 0xc73741ef, 0x7ad956f2, 0, 17, 0xa8304613) == 0x207dc67b
    ensures FF(0x7ad956f2, 0x207dc67b, 0x8bac3051, 0xc73741ef, 0, 22, 0xfd469501) == 0x928d99f6
    ensures FF(0xc73741ef, 0x928d99f6, 0x207dc67b, 0x8bac3051, 0, 7, 0x698098d8) == 0x854b3712
    ensures FF(0x8bac3051, 0x854b3712, 0x928d99f6, 0x207dc67b, 0, 12, 0x8b44f7af) == 0x74e2f284
    ensures FF(0x207dc67b, 0x74e2f284, 0x854b3712, 0x928d99f6, 0, 17, 0xffff5bb1) == 0x3020401c
    ensures FF(0x928d99f6, 0x3020401c, 0x74e2f284, 0x854b3712, 0, 22, 0x895cd7be) == 0x5ed49596
    ensures FF(0x854b3712, 0x5ed49596, 0x3020401c, 0x74e2f284, 0, 7, 0x6b901122) == 0xdda9b9a6
    ensures FF(0x74e2f284, 0xdda9b9a6, 0x5ed49596, 0x3020401c, 0, 12, 0xfd987193) == 0xa1051895
    ensures FF(0x3020401c, 0xa1051895, 0xdda9b9a6, 0x5ed49596, 24, 17, 0xa679438e) == 0xe396856b
    ensures FF(0x5ed49596, 0xe396856b, 0xa1051895, 0xdda9b9a6, 0, 22, 0x49b40821) == 0x72aff2e0
  {
  }

  lemma NextFF(t: nat, p: State, w: bv32, o: Op, v: bv32)
    requires 0 <= t < 16 && Steps(t, INITIAL, WORDS) == p && o == OpOf(t) && WORDS[o.k] == w
    requires o.s <= 32 && FF(p.a, p.b, p.c, p.d, w, o.s, o.ac) == v
    ensures Steps(t + 1, INITIAL, WORDS) == State(p.d, v, p.b, p.c)
  {
    hide Steps, FF;
    StepsFF(t, INITIAL, WORDS, o);
  }

  lemma Steps8()
    ensures Steps(8, INITIAL, WORDS) == State(0xc73741ef, 0x928d99f6, 0x207dc67b, 0x8bac3051)
  {
    hide Steps, FF, OpOf, WORDS, INITIAL;
    Steps0();
    WordsAre();
    Values1();
    Ops1();
    NextFF(0, State(0x67452301, 0xefcdab89, 0x98badcfe, 0x10325476), 0x80636261, Op(0, 7, 0xd76aa478), 0xd6d117b4);
    NextFF(1, State(0x10325476, 0xd6d117b4, 0xefcdab89, 0x98badcfe), 0, Op(1, 12, 0xe8c7b756), 0x344a8432);
    NextFF(2, State(0x98badcfe, 0x344a8432, 0xd6d117b4, 0xefcdab89), 0, Op(2, 17, 0x242070db), 0x2f6fbd72);
    NextFF(3, State(0xefcdab89, 0x2f6fbd72, 0x344a8432, 0xd6d117b4), 0, Op(3, 22, 0xc1bdceee), 0x7ad956f2);
    NextFF(4, State(0xd6d117b4, 0x7ad956f2, 0x2f6fbd72, 0x344a8432), 0, Op(4, 7, 0xf57c0faf), 0xc73741ef);
    NextFF(5, State(0x344a8432, 0xc73741ef, 0x7ad956f2, 0x2f6fbd72), 0, Op(5, 12, 0x4787c62a), 0x8bac3051);
    NextFF(6, State(0x2f6fbd72, 0x8bac3051, 0xc73741ef, 0x7ad956f2), 0, Op(6, 17, 0xa8304613), 0x207dc67b);
    NextFF(7, State(0x7ad956f2, 0x207dc67b, 0x8bac3051, 0xc73741ef), 0, Op(7, 22, 0xfd469501), 0x928d99f6);
  }

  lemma Steps16()
    ensures Steps(16, INITIAL, WORDS) == State(0xdda9b9a6, 0x72aff2e0, 0xe396856b, 0xa1051895)
  {
    hide Steps, FF, OpOf, WORDS, INITIAL;
    Steps8();
    WordsAre();
    Values1();
    Ops1();
    NextFF(8, State(0xc73741ef, 0x928d99f6, 0x207dc67b, 0x8bac3051), 0, Op(8, 7, 0x698098d8), 0x854b3712);
    NextFF(9, State(0x8bac3051, 0x854b3712, 0x928d99f6, 0x207dc67b), 0, Op(9, 12, 0x8b44f7af), 0x74e2f284);
    NextFF(10, State(0x207dc67b, 0x74e2f284, 0x854b3712, 0x928d99f6), 0, Op(10, 17, 0xffff5bb1), 0x3020401c);
    NextFF(11, State(0x928d99f6, 0x3020401c, 0x74e2f284, 0x854b3712), 0, Op(11, 22, 0x895cd7be), 0x5ed49596);
    NextFF(12, State(0x854b3712, 0x5ed49596, 0x3020401c, 0x74e2f284), 0, Op(12, 7, 0x6b901122), 0xdda9b9a6);
    NextFF(13, State(0x74e2f284, 0xdda9b9a6, 0x5ed49596, 0x3020401c), 0, Op(13, 12, 0xfd987193), 0xa1051895);
    NextFF(14, State(0x3020401c, 0xa1051895, 0xdda9b9a6, 0x5ed49596), 24, Op(14, 17, 0xa679438e), 0xe396856b);
    NextFF(15, State(0x5ed49596, 0xe396856b, 0xa1051895, 0xdda9b9a6), 0, Op(15, 22, 0x49b40821), 0x72aff2e0);
  }

  lemma Values2()
    ensures GG(0xdda9b9a6, 0x72aff2e0, 0xe396856b, 0xa1051895, 0, 5, 0xf61e2562) == 0x3e9e9126
    ensures GG(0xa1051895, 0x3e9e9126, 0x72aff2e0, 0xe396856b, 0, 9, 0xc040b340) == 0x4a1d804e
    ensures GG(0xe396856b, 0x4a1d804e, 0x3e9e9126, 0x72aff2e0, 0, 14, 0x265e5a51) == 0xe25e1652
    ensures GG(0x72aff2e0, 0xe25e1652, 0x4a1d804e, 0x3e9e9126, 0x80636261, 20, 0xe9b6c7aa) == 0xb5b204e4
    ensures GG(0x3e9e9126, 0xb5b204e4, 0xe25e1652, 0x4a1d804e, 0, 5, 0xd62f105d) == 0x59a8ffda
    ensures GG(0x4a1d804e, 0x59a8ffda, 0xb5b204e4, 0xe25e1652, 0, 9, 0x02441453) == 0x6d002f1e
    ensures GG(0xe25e1652, 0x6d002f1e, 0x59a8ffda, 0xb5b204e4, 0, 14, 0xd8a1e681) == 0xabfc7920
    ensures GG(0xb5b204e4, 0xabfc7920, 0x6d002f1e, 0x59a8ffda, 0, 20, 0xe7d3fbc8) == 0x47092c07
    ensures GG(0x59a8ffda, 0x47092c07, 0xabfc7920, 0x6d002f1e, 0, 5, 0x21e1cde6) == 0xb7f268cf
    ensures GG(0x6d002f1e, 0xb7f268cf, 0x47092c07, 0xabfc7920, 24, 9, 0xc33707d6) == 0x09388eff
    ensures GG(0xabfc7920, 0x09388eff, 0xb7f268cf, 0x47092c07, 0, 14, 0xf4d50d87) == 0xfe1623b1
    ensures GG(0x47092c07, 0xfe1623b1, 0x09388eff, 0xb7f268cf, 0, 20, 0x455a14ed) == 0x786acb8f
    ensures GG(0xb7f268cf, 0x786acb8f, 0xfe1623b1, 0x09388eff, 0, 5, 0xa9e3e905) == 0x790a77fb
    ensures GG(0x09388eff, 0x790a77fb, 0x786acb8f, 0xfe1623b1, 0, 9, 0xfcefa3f8) == 0x9f47e4f8
    ensures GG(0xfe1623b1, 0x9f47e4f8, 0x790a77fb, 0x786acb8f, 0, 14, 0x676f02d9) == 0xa62884aa
    ensures GG(0x786acb8f, 0xa62884aa, 0x9f47e4f8, 0x790a77fb, 0, 20, 0x8d2a4c8a) == 0x726342d3
  {
  }

  lemma NextGG(t: nat, p: State, w: bv32, o: Op, v: bv32)
    requires 16 <= t < 32 && Steps(t, INITIAL, WORDS) == p && o == OpOf(t) && WORDS[o.k] == w
    requires o.s <= 32 && GG(p.a, p.b, p.c, p.d, w, o.s, o.ac) == v
    ensures Steps(t + 1, INITIAL, WORDS) == State(p.d, v, p.b, p.c)
  {
    hide Steps, GG;
    StepsGG(t, INITIAL, WORDS, o);
  }

  lemma Steps24()
    ensures Steps(24, INITIAL, WORDS) == State(0x59a8ffda, 0x47092c07, 0xabfc7920, 0x6d002f1e)
  {
    hide Steps, GG, OpOf, WORDS, INITIAL;
    Steps16();
    WordsAre();
    Values2();
    Ops2();
    NextGG(16, State(0xdda9b9a6, 0x72aff2e0, 0xe396856b, 0xa1051895), 0, Op(1, 5, 0xf61e2562), 0x3e9e9126);
    NextGG(17, State(0xa1051895, 0x3e9e9126, 0x72aff2e0, 0xe396856b), 0, Op(6, 9, 0xc040b340), 0x4a1d804e);
    NextGG(18, State(0xe396856b, 0x4a1d804e, 0x3e9e9126, 0x72aff2e0), 0, Op(11, 14, 0x265e5a51), 0xe25e1652);
    NextGG(19, State(0x72aff2e0, 0xe25e1652, 0x4a1d804e, 0x3e9e9126), 0x80636261, Op(0, 20, 0xe9b6c7aa), 0xb5b204e4);
    NextGG(20, State(0x3e9e9126, 0xb5b204e4, 0xe25e1652, 0x4a1d804e), 0, Op(5, 5, 0xd62f105d), 0x59a8ffda);
    NextGG(21, State(0x4a1d804e, 0x59a8ffda, 0xb5b204e4, 0xe25e1652), 0, Op(10, 9, 0x02441453), 0x6d002f1e);
    NextGG(22, State(0xe25e1652, 0x6d002f1e, 0x59a8ffda, 0xb5b204e4), 0, Op(15, 14, 0xd8a1e681), 0xabfc7920);
    NextGG(23, State(0xb5b204e4, 0xabfc7920, 0x6d002f1e, 0x59a8ffda), 0, Op(4, 20, 0xe7d3fbc8), 0x47092c07);
  }

  lemma Steps32()
    ensures Steps(32, INITIAL, WORDS) == State(0x790a77fb, 0x726342d3, 0xa62884aa, 0x9f47e4f8)
  {
    hide Steps, GG, OpOf, WORDS, INITIAL;
    Steps24();
    WordsAre();
    Values2();
    Ops2();
    NextGG(24, State(0x59a8ffda, 0x47092c07, 0xabfc7920, 0x6d002f1e), 0, Op(9, 5, 0x21e1cde6), 0xb7f268cf);
    NextGG(25, State(0x6d002f1e, 0xb7f268cf, 0x47092c07, 0xabfc7920), 24, Op(14, 9, 0xc33707d6), 0x09388eff);
    NextGG(26, State(0xabfc7920, 0x09388eff, 0xb7f268cf, 0x47092c07), 0, Op(3, 14, 0xf4d50d87), 0xfe1623b1);
    NextGG(27, State(0x47092c07, 0xfe1623b1, 0x09388eff, 0xb7f268cf), 0, Op(8, 20, 0x455a14ed), 0x786acb8f);
    NextGG(28, State(0xb7f268cf, 0x786acb8f, 0xfe1623b1, 0x09388eff), 0, Op(13, 5, 0xa9e3e905), 0x790a77fb);
    NextGG(29, State(0x09388eff, 0x790a77fb, 0x786acb8f, 0xfe1623b1), 0, Op(2, 9, 0xfcefa3f8), 0x9f47e4f8);
    NextGG(30, State(0xfe1623b1, 0x9f47e4f8, 0x790a77fb, 0x786acb8f), 0, Op(7, 14, 0x676f02d9), 0xa62884aa);
    NextGG(31, State(0x786acb8f, 0xa62884aa, 0x9f47e4f8, 0x790a77fb), 0, Op(12, 20, 0x8d2a4c8a), 0x726342d3);
  }

  lemma Values3()
    ensures HH(0x790a77fb, 0x726342d3, 0xa62884aa, 0x9f47e4f8, 0, 4, 0xfffa3942) == 0xb3707ebf
    ensures HH(0x9f47e4f8, 0xb3707ebf, 0x726342d3, 0xa62884aa, 0, 11, 0x8771f681) == 0x60127b2e
    ensures HH(0xa62884aa, 0x60127b2e, 0xb3707ebf, 0x726342d3, 0, 16, 0x6d9d6122) == 0x8d212ff5
    ensures HH(0x726342d3, 0x8d212ff5, 0x60127b2e, 0xb3707ebf, 24, 23, 0xfde5380c) == 0x3b0875c7
    ensures HH(0xb3707ebf, 0x3b0875c7, 0x8d212ff5, 0x60127b2e, 0, 4, 0xa4beea44) == 0x21b117b9
    ensures HH(0x60127b2e, 0x21b117b9, 0x3b0875c7, 0x8d212ff5, 0, 11, 0x4bdecfa9) == 0x6e7429d5
    ensures HH(0x8d212ff5, 0x6e7429d5, 0x21b117b9, 0x3b0875c7, 0, 16, 0xf6bb4b60) == 0x3575227e
    ensures HH(0x3b0875c7, 0x3575227e, 0x6e7429d5, 0x21b117b9, 0, 23, 0xbebfbc70) == 0x5a2f5ea5
    ensures HH(0x21b117b9, 0x5a2f5ea5, 0x3575227e, 0x6e7429d5, 0, 4, 0x289b7ec6) == 0x11de1779
    ensures HH(0x6e7429d5, 0x11de1779, 0x5a2f5ea5, 0x3575227e, 0x80636261, 11, 0xeaa127fa) == 0xfadcaa38
    ensures HH(0x3575227e, 0xfadcaa38, 0x11de1779, 0x5a2f5ea5, 0, 16, 0xd4ef3085) == 0x31c465ca
    ensures HH(0x5a2f5ea5, 0x31c465ca, 0xfadcaa38, 0x11de1779, 0, 23, 0x04881d05) == 0x4c6124f4
    ensures HH(0x11de1779, 0x4c6124f4, 0x31c465ca, 0xfadcaa38, 0, 4, 0xd9d4d039) == 0x7f2e507b
    ensures HH(0xfadcaa38, 0x7f2e507b, 0x4c6124f4, 0x31c465ca, 0, 11, 0xe6db99e5) == 0x99d9679d
    ensures HH(0x31c465ca, 0x99d9679d, 0x7f2e507b, 0x4c6124f4, 0, 16, 0x1fa27cf8) == 0x8fae6399
    ensures HH(0x4c6124f4, 0x8fae6399, 0x99d9679d, 0x7f2e507b, 0, 23, 0xc4ac5665) == 0x7beb9700
  {
  }

  lemma NextHH(t: nat, p: State, w: bv32, o: Op, v: bv32)
    requires 32 <= t < 48 && Steps(t, INITIAL, WORDS) == p && o == OpOf(t) && WORDS[o.k] == w
    requires o.s <= 32 && HH(p.a, p.b, p.c, p.d, w, o.s, o.ac) == v
    ensures Steps(t + 1, INITIAL, WORDS) == State(p.d, v, p.b, p.c)
  {
    hide Steps, HH;
    StepsHH(t, INITIAL, WORDS, o);
  }

  lemma Steps40()
    ensures Steps(40, INITIAL, WORDS) == State(0x21b117b9, 0x5a2f5ea5, 0x3575227e, 0x6e7429d5)
  {
    hide Steps, HH, OpOf, WORDS, INITIAL;
    Steps32();
    WordsAre();
    Values3();
    Ops3();
    NextHH(32, State(0x790a77fb, 0x726342d3, 0xa62884aa, 0x9f47e4f8), 0, Op(5, 4, 0xfffa3942), 0xb3707ebf);
    NextHH(33, State(0x9f47e4f8, 0xb3707ebf, 0x726342d3, 0xa62884aa), 0, Op(8, 11, 0x8771f681), 0x60127b2e);
    NextHH(34, State(0xa62884aa, 0x60127b2e, 0xb3707ebf, 0x726342d3), 0, Op(11, 16, 0x6d9d6122), 0x8d212ff5);
    NextHH(35, State(0x726342d3, 0x8d212ff5, 0x60127b2e, 0xb3707ebf), 24, Op(14, 23, 0xfde5380c), 0x3b0875c7);
    NextHH(36, State(0xb3707ebf, 0x3b0875c7, 0x8d212ff5, 0x60127b2e), 0, Op(1, 4, 0xa4beea44), 0x21b117b9);
    NextHH(37, State(0x60127b2e, 0x21b117b9, 0x3b0875c7, 0x8d212ff5), 0, Op(4, 11, 0x4bdecfa9), 0x6e7429d5);
    NextHH(38, State(0x8d212ff5, 0x6e7429d5, 0x21b117b9, 0x3b0875c7), 0, Op(7, 16, 0xf6bb4b60), 0x3575227e);
    NextHH(39, State(0x3b0875c7, 0x3575227e, 0x6e7429d5, 0x21b117b9), 0, Op(10, 23, 0xbebfbc70), 0x5a2f5ea5);
  }

  lemma Steps48()
    ensures Steps(48, INITIAL, WORDS) == State(0x7f2e507b, 0x7beb9700, 0x8fae6399, 0x99d9679d)
  {
    hide Steps, HH, OpOf, WORDS, INITIAL;
    Steps40();
    WordsAre();
    Values3();
    Ops3();
    NextHH(40, State(0x21b117b9, 0x5a2f5ea5, 0x3575227e, 0x6e7429d5), 0, Op(13, 4, 0x289b7ec6), 0x11de1779);
    NextHH(41, State(0x6e7429d5, 0x11de1779, 0x5a2f5ea5, 0x3575227e), 0x80636261, Op(0, 11, 0xeaa127fa), 0xfadcaa38);
    NextHH(42, State(0x3575227e, 0xfadcaa38, 0x11de1779, 0x5a2f5ea5), 0, Op(3, 16, 0xd4ef3085), 0x31c465ca);
    NextHH(43, State(0x5a2f5ea5, 0x31c465ca, 0xfadcaa38, 0x11de1779), 0, Op(6, 23, 0x04881d05), 0x4c6124f4);
    NextHH(44, State(0x11de1779, 0x4c6124f4, 0x31c465ca, 0xfadcaa38), 0, Op(9, 4, 0xd9d4d039), 0x7f2e507b);
    NextHH(45, State(0xfadcaa38, 0x7f2e507b, 0x4c6124f4, 0x31c465ca), 0, Op(12, 11, 0xe6db99e5), 0x99d9679d);
    NextHH(46, State(0x31c465ca, 0x99d9679d, 0x7f2e507b, 0x4c6124f4), 0, Op(15, 16, 0x1fa27cf8), 0x8fae6399);
    NextHH(47, State(0x4c6124f4, 0x8fae6399, 0x99d9679d, 0x7f2e507b), 0, Op(2, 23, 0xc4ac5665), 0x7beb9700);
  }

  lemma Values4()
    ensures II(0x7f2e507b, 0x7beb9700, 0x8fae6399, 0x99d9679d, 0x80636261, 6, 0xf4292244) == 0x7b201df8
    ensures II(0x99d9679d, 0x7b201df8, 0x7beb9700, 0x8fae6399, 0, 10, 0x432aff97) == 0xf4e8e96e
    ensures II(0x8fae6399, 0xf4e8e96e, 0x7b201df8, 0x7beb9700, 24, 15, 0xab9423a7) == 0xb298cefd
    ensures II(0x7beb9700, 0xb298cefd, 0xf4e8e96e, 0x7b201df8, 0, 21, 0xfc93a039) == 0x8bf025c4
    ensures II(0x7b201df8, 0x8bf025c4, 0xb298cefd, 0xf4e8e96e, 0, 6, 0x655b59c3) == 0x06cc5e8a
    ensures II(0xf4e8e96e, 0x06cc5e8a, 0x8bf025c4, 0xb298cefd, 0, 10, 0x8f0ccc92) == 0x5b0d97aa
    ensures II(0xb298cefd, 0x5b0d97aa, 0x06cc5e8a, 0x8bf025c4, 0, 15, 0xffeff47d) == 0x7d632dd0
    ensures II(0x8bf025c4, 0x7d632dd0, 0x5b0d97aa, 0x06cc5e8a, 0, 21, 0x85845dd1) == 0x3bfa2c27
    ensures II(0x06cc5e8a, 0x3bfa2c27, 0x7d632dd0, 0x5b0d97aa, 0, 6, 0x6fa87e4f) == 0x7f81cc35
    ensures II(0x5b0d97aa, 0x7f81cc35, 0x3bfa2c27, 0x7d632dd0, 0, 10, 0xfe2ce6e0) == 0x094454ab
    ensures II(0x7d632dd0, 0x094454ab, 0x7f81cc35, 0x3bfa2c27, 0, 15, 0xa3014314) == 0x4f9dbe3f
    ensures II(0x3bfa2c27, 0x4f9dbe3f, 0x094454ab, 0x7f81cc35, 0, 21, 0x4e0811a1) == 0x7327d604
    ensures II(0x7f81cc35, 0x7327d604, 0x4f9dbe3f, 0x094454ab, 0, 6, 0xf7537e82) == 0x310ade8f
    ensures II(0x094454ab, 0x310ade8f, 0x7327d604, 0x4f9dbe3f, 0, 10, 0xbd3af235) == 0x624d8cb2
    ensures II(0x4f9dbe3f, 0x624d8cb2, 0x310ade8f, 0x7327d604, 0, 15, 0x2ad7d2bb) == 0xe484b9d8
    ensures II(0x7327d604, 0xe484b9d8, 0x624d8cb2, 0x310ade8f, 0, 21, 0xeb86d391) == 0xc08226b3
  {
  }

  lemma NextII(t: nat, p: State, w: bv32, o: Op, v: bv32)
    requires 48 <= t < 64 && Steps(t, INITIAL, WORDS) == p && o == OpOf(t) && WORDS[o.k] == w
    requires o.s <= 32 && II(p.a, p.b, p.c, p.d, w, o.s, o.ac) == v
    ensures Steps(t + 1, INITIAL, WORDS) == State(p.d, v, p.b, p.c)
  {
    hide Steps, II;
    StepsII(t, INITIAL, WORDS, o);
  }

  lemma Steps56()
    ensures Steps(56, INITIAL, WORDS) == State(0x06cc5e8a, 0x3bfa2c27, 0x7d632dd0, 0x5b0d97aa)
  {
    hide Steps, II, OpOf, WORDS, INITIAL;
    Steps48();
    WordsAre();
    Values4();
    Ops4();
    NextII(48, State(0x7f2e507b, 0x7beb9700, 0x8fae6399, 0x99d9679d), 0x80636261, Op(0, 6, 0xf4292244), 0x7b201df8);
    NextII(49, State(0x99d9679d, 0x7b201df8, 0x7beb9700, 0x8fae6399), 0, Op(7, 10, 0x432aff97), 0xf4e8e96e);
    NextII(50, State(0x8fae6399, 0xf4e8e96e, 0x7b201df8, 0x7beb9700), 24, Op(14, 15, 0xab9423a7), 0xb298cefd);
    NextII(51, State(0x7beb9700, 0xb298cefd, 0xf4e8e96e, 0x7b201df8), 0, Op(5, 21, 0xfc93a039), 0x8bf025c4);
    NextII(52, State(0x7b201df8, 0x8bf025c4, 0xb298cefd, 0xf4e8e96e), 0, Op(12, 6, 0x655b59c3), 0x06cc5e8a);
    NextII(53, State(0xf4e8e96e, 0x06cc5e8a, 0x8bf025c4, 0xb298cefd), 0, Op(3, 10, 0x8f0ccc92), 0x5b0d97aa);
    NextII(54, State(0xb298cefd, 0x5b0d97aa, 0x06cc5e8a, 0x8bf025c4), 0, Op(10, 15, 0xffeff47d), 0x7d632dd0);
    NextII(55, State(0x8bf025c4, 0x7d632dd0, 0x5b0d97aa, 0x06cc5e8a), 0, Op(1, 21, 0x85845dd1), 0x3bfa2c27);
  }

  lemma Steps64()
    ensures Steps(64, INITIAL, WORDS) == State(0x310ade8f, 0xc08226b3, 0xe484b9d8, 0x624d8cb2)
  {
    hide Steps, II, OpOf, WORDS, INITIAL;
    Steps56();
    WordsAre();
    Values4();
    Ops4();
    NextII(56, State(0x06cc5e8a, 0x3bfa2c27, 0x7d632dd0, 0x5b0d97aa), 0, Op(8, 6, 0x6fa87e4f), 0x7f81cc35);
    NextII(57, State(0x5b0d97aa, 0x7f81cc35, 0x3bfa2c27, 0x7d632dd0), 0, Op(15, 10, 0xfe2ce6e0), 0x094454ab);
    NextII(58, State(0x7d632dd0, 0x094454ab, 0x7f81cc35, 0x3bfa2c27), 0, Op(6, 15, 0xa3014314), 0x4f9dbe3f);
    NextII(59, State(0x3bfa2c27, 0x4f9dbe3f, 0x094454ab, 0x7f81cc35), 0, Op(13, 21, 0x4e0811a1), 0x7327d604);
    NextII(60, State(0x7f81cc35, 0x7327d604, 0x4f9dbe3f, 0x094454ab), 0, Op(4, 6, 0xf7537e82), 0x310ade8f);
    NextII(61, State(0x094454ab, 0x310ade8f, 0x7327d604, 0x4f9dbe3f), 0, Op(11, 10, 0xbd3af235), 0x624d8cb2);
    NextII(62, State(0x4f9dbe3f, 0x624d8cb2, 0x310ade8f, 0x7327d604), 0, Op(2, 15, 0x2ad7d2bb), 0xe484b9d8);
    NextII(63, State(0x7327d604, 0xe484b9d8, 0x624d8cb2, 0x310ade8f), 0, Op(9, 21, 0xeb86d391), 0xc08226b3);
  }

  /** The digest 900150983cd24fb0d6963f7d28e17f72. */
  lemma AbcDigest()
    ensures Md5.Md5(ABC) == [
      0x90, 0x01, 0x50, 0x98, 0x3c, 0xd2, 0x4f, 0xb0,
      0xd6, 0x96, 0x3f, 0x7d, 0x28, 0xe1, 0x7f, 0x72]
  {
    Steps64();
    AbcPadded();
    AbcSum();
    AbcOutput();
    hide Steps, WordBytes, Words, Padded, INITIAL;
    var p := Padded(ABC);
    assert p[0..64] == p;
    assert Chain(p, 0) == INITIAL && Chain(p, 1) == Compress(Chain(p, 0), p[0..64]);
  }

  lemma AbcSum()
    ensures AddState(INITIAL, State(0x310ade8f, 0xc08226b3, 0xe484b9d8, 0x624d8cb2)) ==
      State(0x98500190, 0xb04fd23c, 0x7d3f96d6, 0x727fe128)
  {
  }

  lemma AbcOutput()
    ensures Output(State(0x98500190, 0xb04fd23c, 0x7d3f96d6, 0x727fe128)) == [
      0x90, 0x01, 0x50, 0x98, 0x3c, 0xd2, 0x4f, 0xb0,
      0xd6, 0x96, 0x3f, 0x7d, 0x28, 0xe1, 0x7f, 0x72]
  {
  }
}
