/**
 * A known answer of SHA-1: the message "abc" of the examples for FIPS 180-4, schedule word by word and round
 * by round. The numbers are those of the standard and name no function of the model.
 */
module Sha1Vectors {
  import opened Bytes
  import opened Sha1

  const ABC: seq<byte> := [0x61, 0x62, 0x63]

  /** The padded message as sixteen words. */
  const WORDS: seq<bv32> := [0x61626380, 0, 0, 0, 0, 0, 0, 0, 0, 0, 0, 0, 0, 0, 0, 24]

  lemma AbcPadded()
    ensures |Padded(ABC)| == 64 && Words(false, Padded(ABC)) == WORDS
  {
    hide Be, Word;
    LengthIs24();
    var p := Padded(ABC);
    assert p[..4] == [0x61, 0x62, 0x63, 0x80] && p[60..] == [0, 0, 0, 24];
    assert forall i :: 4 <= i < 60 ==> p[i] == 0;
    AbcWords();
  }

  lemma AbcWords()
    ensures Word(0x61, 0x62, 0x63, 0x80) == 0x61626380 && Word(0, 0, 0, 24) == 24 && Word(0, 0, 0, 0) == 0
  {
  }

  lemma LengthIs24()
    ensures Be(24, 8) == [0, 0, 0, 0, 0, 0, 0, 24]
  {
    hide ToByte;
    ToByteValue(24);
    assert ToByte(24) == 24;
    assert Be(24, 8) == Be(0, 7) + [ToByte(24)];
    Nothing(7);
  }

  lemma {:induction false} Nothing(k: nat)
    ensures Be(0, k) == Zeros(k)
  {
    hide ToByte;
    ToByteValue(0);
    if k != 0 {
      Nothing(k - 1);
    }
  }

  // ---------- The schedule ----------

  /** The eighty schedule words of the example. */
  function Scheduled(t: nat): bv32
    requires t < 80
  {
    if t < 16 then if t == 0 then 0x61626380 else if t < 15 then 0 else 24

    else if t < 32 then
      if t < 20 then Pick4(t - 16, 0xc2c4c700, 0, 48, 0x85898e01)
      else if t < 24 then Pick4(t - 20, 0, 96, 0x0b131c03, 48)
      else if t < 28 then Pick4(t - 24, 0x85898ec1, 0x16263806, 0, 0x00000180)
      else Pick4(t - 28, 0x2c4c700c, 0x000000f0, 0x93afb507, 0x5898e048)
    else if t < 48 then
      if t < 36 then Pick4(t - 32, 0x8e9a9202, 0x00000600, 0xb131c0f0, 0x16263bc6)
      else if t < 40 then Pick4(t - 36, 0x4ebed41e, 0x626380a1, 0x16263806, 0x000018c0)
      else if t < 44 then Pick4(t - 40, 0xd2e138c4, 0x00000f00, 0x3afb5079, 0x898e04e5)
      else Pick4(t - 44, 0xe2ba3c2b, 0x000060c0, 0x053a37cd, 0x74458547)
    else if t < 64 then
      if t < 52 then Pick4(t - 48, 0xda9415ed, 0x26380a16, 0x626383a1, 0x4ebf54de)
      else if t < 56 then Pick4(t - 52, 0x3835b44b, 0x0000f600, 0x1e84c7a3, 0x98e04d98)
      else if t < 60 then Pick4(t - 56, 0x651d16a0, 0x62658ca1, 0x458544d6, 0x44584cb7)
      else Pick4(t - 60, 0x7ba06619, 0x6380aea2, 0x0ae55269, 0x627b49a1)
    else
      if t < 68 then Pick4(t - 64, 0x7cd45c9d, 0x000f0000, 0xfb50753a, 0xec6765e8)
      else if t < 72 then Pick4(t - 68, 0xba3c2be2, 0x0060c000, 0x3a37cd05, 0x458546f4)
      else if t < 76 then Pick4(t - 72, 0xb8599dd6, 0x380a1a26, 0x01e02203, 0xe7cc3456)
      else Pick4(t - 76, 0xe6e60b69, 0x00f60a00, 0x5795ef4f, 0x822e0879)
  }

  ghost predicate Known(n: nat)
    requires n <= 80
  {
    forall t: nat :: t < n ==> W(WORDS, t) == Scheduled(t)
  }

  lemma FirstWords()
    ensures Known(16)
  {
  }

  lemma NextWord(t: nat)
    requires 16 <= t < 80 && Known(t)
    requires Mix(Scheduled(t - 3), Scheduled(t - 8), Scheduled(t - 14), Scheduled(t - 16)) == Scheduled(t)
    ensures Known(t + 1)
  {
    hide Mix, Scheduled;
  }

  lemma Mixes32()
    ensures Mix(0, 0, 0, 0x61626380) == 0xc2c4c700
    ensures Mix(0, 0, 0, 0) == 0
    ensures Mix(24, 0, 0, 0) == 48
    ensures Mix(0xc2c4c700, 0, 0, 0) == 0x85898e01
    ensures Mix(0, 0, 0, 0) == 0
    ensures Mix(48, 0, 0, 0) == 96
    ensures Mix(0x85898e01, 0, 0, 0) == 0x0b131c03
    ensures Mix(0, 24, 0, 0) == 48
    ensures Mix(96, 0xc2c4c700, 0, 0) == 0x85898ec1
    ensures Mix(0x0b131c03, 0, 0, 0) == 0x16263806
    ensures Mix(48, 48, 0, 0) == 0
    ensures Mix(0x85898ec1, 0x85898e01, 0, 0) == 0x00000180
    ensures Mix(0x16263806, 0, 0, 0) == 0x2c4c700c
    ensures Mix(0, 96, 24, 0) == 0x000000f0
    ensures Mix(0x00000180, 0x0b131c03, 0xc2c4c700, 0) == 0x93afb507
    ensures Mix(0x2c4c700c, 48, 0, 24) == 0x5898e048
  {
  }

  lemma Words24()
    ensures Known(24)
  {
    hide W, Mix, Known;
    FirstWords();
    Mixes32();
    NextWord(16);
    NextWord(17);
    NextWord(18);
    NextWord(19);
    NextWord(20);
    NextWord(21);
    NextWord(22);
    NextWord(23);
  }

  lemma Words32()
    ensures Known(32)
  {
    hide W, Mix, Known;
    Words24();
    Mixes32();
    NextWord(24);
    NextWord(25);
    NextWord(26);
    NextWord(27);
    NextWord(28);
    NextWord(29);
    NextWord(30);
    NextWord(31);
  }

  lemma Mixes48()
    ensures Mix(0x000000f0, 0x85898ec1, 48, 0xc2c4c700) == 0x8e9a9202
    ensures Mix(0x93afb507, 0x16263806, 0x85898e01, 0) == 0x00000600
    ensures Mix(0x5898e048, 0, 0, 48) == 0xb131c0f0
    ensures Mix(0x8e9a9202, 0x00000180, 96, 0x85898e01) == 0x16263bc6
    ensures Mix(0x00000600, 0x2c4c700c, 0x0b131c03, 0) == 0x4ebed41e
    ensures Mix(0xb131c0f0, 0x000000f0, 48, 96) == 0x626380a1
    ensures Mix(0x16263bc6, 0x93afb507, 0x85898ec1, 0x0b131c03) == 0x16263806
    ensures Mix(0x4ebed41e, 0x5898e048, 0x16263806, 48) == 0x000018c0
    ensures Mix(0x626380a1, 0x8e9a9202, 0, 0x85898ec1) == 0xd2e138c4
    ensures Mix(0x16263806, 0x00000600, 0x00000180, 0x16263806) == 0x00000f00
    ensures Mix(0x000018c0, 0xb131c0f0, 0x2c4c700c, 0) == 0x3afb5079
    ensures Mix(0xd2e138c4, 0x16263bc6, 0x000000f0, 0x00000180) == 0x898e04e5
    ensures Mix(0x00000f00, 0x4ebed41e, 0x93afb507, 0x2c4c700c) == 0xe2ba3c2b
    ensures Mix(0x3afb5079, 0x626380a1, 0x5898e048, 0x000000f0) == 0x000060c0
    ensures Mix(0x898e04e5, 0x16263806, 0x8e9a9202, 0x93afb507) == 0x053a37cd
    ensures Mix(0xe2ba3c2b, 0x000018c0, 0x00000600, 0x5898e048) == 0x74458547
  {
  }

  lemma Words40()
    ensures Known(40)
  {
    hide W, Mix, Known;
    Words32();
    Mixes48();
    NextWord(32);
    NextWord(33);
    NextWord(34);
    NextWord(35);
    NextWord(36);
    NextWord(37);
    NextWord(38);
    NextWord(39);
  }

  lemma Words48()
    ensures Known(48)
  {
    hide W, Mix, Known;
    Words40();
    Mixes48();
    NextWord(40);
    NextWord(41);
    NextWord(42);
    NextWord(43);
    NextWord(44);
    NextWord(45);
    NextWord(46);
    NextWord(47);
  }

  lemma Mixes64()
    ensures Mix(0x000060c0, 0xd2e138c4, 0xb131c0f0, 0x8e9a9202) == 0xda9415ed
    ensures Mix(0x053a37cd, 0x00000f00, 0x16263bc6, 0x00000600) == 0x26380a16
    ensures Mix(0x74458547, 0x3afb5079, 0x4ebed41e, 0xb131c0f0) == 0x626383a1
    ensures Mix(0xda9415ed, 0x898e04e5, 0x626380a1, 0x16263bc6) == 0x4ebf54de
    ensures Mix(0x26380a16, 0xe2ba3c2b, 0x16263806, 0x4ebed41e) == 0x3835b44b
    ensures Mix(0x626383a1, 0x000060c0, 0x000018c0, 0x626380a1) == 0x0000f600
    ensures Mix(0x4ebf54de, 0x053a37cd, 0xd2e138c4, 0x16263806) == 0x1e84c7a3
    ensures Mix(0x3835b44b, 0x74458547, 0x00000f00, 0x000018c0) == 0x98e04d98
    ensures Mix(0x0000f600, 0xda9415ed, 0x3afb5079, 0xd2e138c4) == 0x651d16a0
    ensures Mix(0x1e84c7a3, 0x26380a16, 0x898e04e5, 0x00000f00) == 0x62658ca1
    ensures Mix(0x98e04d98, 0x626383a1, 0xe2ba3c2b, 0x3afb5079) == 0x458544d6
    ensures Mix(0x651d16a0, 0x4ebf54de, 0x000060c0, 0x898e04e5) == 0x44584cb7
    ensures Mix(0x62658ca1, 0x3835b44b, 0x053a37cd, 0xe2ba3c2b) == 0x7ba06619
    ensures Mix(0x458544d6, 0x0000f600, 0x74458547, 0x000060c0) == 0x6380aea2
    ensures Mix(0x44584cb7, 0x1e84c7a3, 0xda9415ed, 0x053a37cd) == 0x0ae55269
    ensures Mix(0x7ba06619, 0x98e04d98, 0x26380a16, 0x74458547) == 0x627b49a1
  {
  }

  lemma Words56()
    ensures Known(56)
  {
    hide W, Mix, Known;
    Words48();
    Mixes64();
    NextWord(48);
    NextWord(49);
    NextWord(50);
    NextWord(51);
    NextWord(52);
    NextWord(53);
    NextWord(54);
    NextWord(55);
  }

  lemma Words64()
    ensures Known(64)
  {
    hide W, Mix, Known;
    Words56();
    Mixes64();
    NextWord(56);
    NextWord(57);
    NextWord(58);
    NextWord(59);
    NextWord(60);
    NextWord(61);
    NextWord(62);
    NextWord(63);
  }

  lemma Mixes80()
    ensures Mix(0x6380aea2, 0x651d16a0, 0x626383a1, 0xda9415ed) == 0x7cd45c9d
    ensures Mix(0x0ae55269, 0x62658ca1, 0x4ebf54de, 0x26380a16) == 0x000f0000
    ensures Mix(0x627b49a1, 0x458544d6, 0x3835b44b, 0x626383a1) == 0xfb50753a
    ensures Mix(0x7cd45c9d, 0x44584cb7, 0x0000f600, 0x4ebf54de) == 0xec6765e8
    ensures Mix(0x000f0000, 0x7ba06619, 0x1e84c7a3, 0x3835b44b) == 0xba3c2be2
    ensures Mix(0xfb50753a, 0x6380aea2, 0x98e04d98, 0x0000f600) == 0x0060c000
    ensures Mix(0xec6765e8, 0x0ae55269, 0x651d16a0, 0x1e84c7a3) == 0x3a37cd05
    ensures Mix(0xba3c2be2, 0x627b49a1, 0x62658ca1, 0x98e04d98) == 0x458546f4
    ensures Mix(0x0060c000, 0x7cd45c9d, 0x458544d6, 0x651d16a0) == 0xb8599dd6
    ensures Mix(0x3a37cd05, 0x000f0000, 0x44584cb7, 0x62658ca1) == 0x380a1a26
    ensures Mix(0x458546f4, 0xfb50753a, 0x7ba06619, 0x458544d6) == 0x01e02203
    ensures Mix(0xb8599dd6, 0xec6765e8, 0x6380aea2, 0x44584cb7) == 0xe7cc3456
    ensures Mix(0x380a1a26, 0xba3c2be2, 0x0ae55269, 0x7ba06619) == 0xe6e60b69
    ensures Mix(0x01e02203, 0x0060c000, 0x627b49a1, 0x6380aea2) == 0x00f60a00
    ensures Mix(0xe7cc3456, 0x3a37cd05, 0x7cd45c9d, 0x0ae55269) == 0x5795ef4f
    ensures Mix(0xe6e60b69, 0x458546f4, 0x000f0000, 0x627b49a1) == 0x822e0879
  {
  }

  lemma Words72()
    ensures Known(72)
  {
    hide W, Mix, Known;
    Words64();
    Mixes80();
    NextWord(64);
    NextWord(65);
    NextWord(66);
    NextWord(67);
    NextWord(68);
    NextWord(69);
    NextWord(70);
    NextWord(71);
  }

  lemma Words80()
    ensures Known(80)
  {
    hide W, Mix, Known;
    Words72();
    Mixes80();
    NextWord(72);
    NextWord(73);
    NextWord(74);
    NextWord(75);
    NextWord(76);
    NextWord(77);
    NextWord(78);
    NextWord(79);
  }

  // ---------- The rounds ----------

  lemma RoundAt(t: nat, p: State)
    requires t < 80 && Rounds(t, INITIAL, WORDS) == p
    ensures Rounds(t + 1, INITIAL, WORDS) == Round(t, p, W(WORDS, t))
  {
    hide W, Round;
  }

  lemma Rounds0()
    ensures Rounds(0, INITIAL, WORDS) == State(0x67452301, 0xefcdab89, 0x98badcfe, 0x10325476, 0xc3d2e1f0)
  {
  }

  lemma Next0(t: nat, p: State, w: bv32, v: bv32, x: bv32)
    requires 0 <= t < 20 && Rounds(t, INITIAL, WORDS) == p && Known(80) && Scheduled(t) == w
    requires Sum(p.a, Ch(p.b, p.c, p.d), p.e, 0x5a827999, w) == v && Rol30(p.b) == x
    ensures Rounds(t + 1, INITIAL, WORDS) == State(v, p.a, x, p.c, p.d)
  {
    hide Rounds, W, Sum, Ch, Rol30, Scheduled;
    RoundAt(t, p);
  }

  lemma Sums10()
    ensures Sum(0x67452301, Ch(0xefcdab89, 0x98badcfe, 0x10325476), 0xc3d2e1f0, 0x5a827999, 0x61626380) == 0x0116fc33
    ensures Rol30(0xefcdab89) == 0x7bf36ae2
    ensures Sum(0x0116fc33, Ch(0x67452301, 0x7bf36ae2, 0x98badcfe), 0x10325476, 0x5a827999, 0) == 0x8990536d
    ensures Rol30(0x67452301) == 0x59d148c0
    ensures Sum(0x8990536d, Ch(0x0116fc33, 0x59d148c0, 0x7bf36ae2), 0x98badcfe, 0x5a827999, 0) == 0xa1390f08
    ensures Rol30(0x0116fc33) == 0xc045bf0c
    ensures Sum(0xa1390f08, Ch(0x8990536d, 0xc045bf0c, 0x59d148c0), 0x7bf36ae2, 0x5a827999, 0) == 0xcdd8e11b
    ensures Rol30(0x8990536d) == 0x626414db
    ensures Sum(0xcdd8e11b, Ch(0xa1390f08, 0x626414db, 0xc045bf0c), 0x59d148c0, 0x5a827999, 0) == 0xcfd499de
    ensures Rol30(0xa1390f08) == 0x284e43c2
    ensures Sum(0xcfd499de, Ch(0xcdd8e11b, 0x284e43c2, 0x626414db), 0xc045bf0c, 0x5a827999, 0) == 0x3fc7ca40
    ensures Rol30(0xcdd8e11b) == 0xf3763846
    ensures Sum(0x3fc7ca40, Ch(0xcfd499de, 0xf3763846, 0x284e43c2), 0x626414db, 0x5a827999, 0) == 0x993e30c1
    ensures Rol30(0xcfd499de) == 0xb3f52677
    ensures Sum(0x993e30c1, Ch(0x3fc7ca40, 0xb3f52677, 0xf3763846), 0x284e43c2, 0x5a827999, 0) == 0x9e8c07d4
    ensures Rol30(0x3fc7ca40) == 0x0ff1f290
    ensures Sum(0x9e8c07d4, Ch(0x993e30c1, 0x0ff1f290, 0xb3f52677), 0xf3763846, 0x5a827999, 0) == 0x4b6ae328
    ensures Rol30(0x993e30c1) == 0x664f8c30
    ensures Sum(0x4b6ae328, Ch(0x9e8c07d4, 0x664f8c30, 0x0ff1f290), 0xb3f52677, 0x5a827999, 0) == 0x8351f929
    ensures Rol30(0x9e8c07d4) == 0x27a301f5
  {
  }

  lemma Rounds10()
    ensures Rounds(10, INITIAL, WORDS) == State(0x8351f929, 0x4b6ae328, 0x27a301f5, 0x664f8c30, 0x0ff1f290)
  {
    hide Rounds, Known, Sum, Ch, Rol30, WORDS, INITIAL;
    Rounds0();
    Words80();
    Sums10();
    Next0(0, State(0x67452301, 0xefcdab89, 0x98badcfe, 0x10325476, 0xc3d2e1f0), 0x61626380, 0x0116fc33, 0x7bf36ae2);
    Next0(1, State(0x0116fc33, 0x67452301, 0x7bf36ae2, 0x98badcfe, 0x10325476), 0, 0x8990536d, 0x59d148c0);
    Next0(2, State(0x8990536d, 0x0116fc33, 0x59d148c0, 0x7bf36ae2, 0x98badcfe), 0, 0xa1390f08, 0xc045bf0c);
    Next0(3, State(0xa1390f08, 0x8990536d, 0xc045bf0c, 0x59d148c0, 0x7bf36ae2), 0, 0xcdd8e11b, 0x626414db);
    Next0(4, State(0xcdd8e11b, 0xa1390f08, 0x626414db, 0xc045bf0c, 0x59d148c0), 0, 0xcfd499de, 0x284e43c2);
    Next0(5, State(0xcfd499de, 0xcdd8e11b, 0x284e43c2, 0x626414db, 0xc045bf0c), 0, 0x3fc7ca40, 0xf3763846);
    Next0(6, State(0x3fc7ca40, 0xcfd499de, 0xf3763846, 0x284e43c2, 0x626414db), 0, 0x993e30c1, 0xb3f52677);
    Next0(7, State(0x993e30c1, 0x3fc7ca40, 0xb3f52677, 0xf3763846, 0x284e43c2), 0, 0x9e8c07d4, 0x0ff1f290);
    Next0(8, State(0x9e8c07d4, 0x993e30c1, 0x0ff1f290, 0xb3f52677, 0xf3763846), 0, 0x4b6ae328, 0x664f8c30);
    Next0(9, State(0x4b6ae328, 0x9e8c07d4, 0x664f8c30, 0x0ff1f290, 0xb3f52677), 0, 0x8351f929, 0x27a301f5);
  }

  lemma Sums20()
    ensures Sum(0x8351f929, Ch(0x4b6ae328, 0x27a301f5, 0x664f8c30), 0x0ff1f290, 0x5a827999, 0) == 0xfbda9e89
    ensures Rol30(0x4b6ae328) == 0x12dab8ca
    ensures Sum(0xfbda9e89, Ch(0x8351f929, 0x12dab8ca, 0x27a301f5), 0x664f8c30, 0x5a827999, 0) == 0x63188fe4
    ensures Rol30(0x8351f929) == 0x60d47e4a
    ensures Sum(0x63188fe4, Ch(0xfbda9e89, 0x60d47e4a, 0x12dab8ca), 0x27a301f5, 0x5a827999, 0) == 0x4607b664
    ensures Rol30(0xfbda9e89) == 0x7ef6a7a2
    ensures Sum(0x4607b664, Ch(0x63188fe4, 0x7ef6a7a2, 0x60d47e4a), 0x12dab8ca, 0x5a827999, 0) == 0x9128f695
    ensures Rol30(0x63188fe4) == 0x18c623f9
    ensures Sum(0x9128f695, Ch(0x4607b664, 0x18c623f9, 0x7ef6a7a2), 0x60d47e4a, 0x5a827999, 0) == 0x196bee77
    ensures Rol30(0x4607b664) == 0x1181ed99
    ensures Sum(0x196bee77, Ch(0x9128f695, 0x1181ed99, 0x18c623f9), 0x7ef6a7a2, 0x5a827999, 24) == 0x20bdd62f
    ensures Rol30(0x9128f695) == 0x644a3da5
    ensures Sum(0x20bdd62f, Ch(0x196bee77, 0x644a3da5, 0x1181ed99), 0x18c623f9, 0x5a827999, 0xc2c4c700) == 0x4e925823
    ensures Rol30(0x196bee77) == 0xc65afb9d
    ensures Sum(0x4e925823, Ch(0x20bdd62f, 0xc65afb9d, 0x644a3da5), 0x1181ed99, 0x5a827999, 0) == 0x82aa6728
    ensures Rol30(0x20bdd62f) == 0xc82f758b
    ensures Sum(0x82aa6728, Ch(0x4e925823, 0xc82f758b, 0xc65afb9d), 0x644a3da5, 0x5a827999, 48) == 0xdc64901d
    ensures Rol30(0x4e925823) == 0xd3a49608
    ensures Sum(0xdc64901d, Ch(0x82aa6728, 0xd3a49608, 0xc82f758b), 0xc65afb9d, 0x5a827999, 0x85898e01) == 0xfd9e1d7d
    ensures Rol30(0x82aa6728) == 0x20aa99ca
  {
  }

  lemma Rounds20()
    ensures Rounds(20, INITIAL, WORDS) == State(0xfd9e1d7d, 0xdc64901d, 0x20aa99ca, 0xd3a49608, 0xc82f758b)
  {
    hide Rounds, Known, Sum, Ch, Rol30, WORDS, INITIAL;
    Rounds10();
    Words80();
    Sums20();
    Next0(10, State(0x8351f929, 0x4b6ae328, 0x27a301f5, 0x664f8c30, 0x0ff1f290), 0, 0xfbda9e89, 0x12dab8ca);
    Next0(11, State(0xfbda9e89, 0x8351f929, 0x12dab8ca, 0x27a301f5, 0x664f8c30), 0, 0x63188fe4, 0x60d47e4a);
    Next0(12, State(0x63188fe4, 0xfbda9e89, 0x60d47e4a, 0x12dab8ca, 0x27a301f5), 0, 0x4607b664, 0x7ef6a7a2);
    Next0(13, State(0x4607b664, 0x63188fe4, 0x7ef6a7a2, 0x60d47e4a, 0x12dab8ca), 0, 0x9128f695, 0x18c623f9);
    Next0(14, State(0x9128f695, 0x4607b664, 0x18c623f9, 0x7ef6a7a2, 0x60d47e4a), 0, 0x196bee77, 0x1181ed99);
    Next0(15, State(0x196bee77, 0x9128f695, 0x1181ed99, 0x18c623f9, 0x7ef6a7a2), 24, 0x20bdd62f, 0x644a3da5);
    Next0(16, State(0x20bdd62f, 0x196bee77, 0x644a3da5, 0x1181ed99, 0x18c623f9), 0xc2c4c700, 0x4e925823, 0xc65afb9d);
    Next0(17, State(0x4e925823, 0x20bdd62f, 0xc65afb9d, 0x644a3da5, 0x1181ed99), 0, 0x82aa6728, 0xc82f758b);
    Next0(18, State(0x82aa6728, 0x4e925823, 0xc82f758b, 0xc65afb9d, 0x644a3da5), 48, 0xdc64901d, 0xd3a49608);
    Next0(19, State(0xdc64901d, 0x82aa6728, 0xd3a49608, 0xc82f758b, 0xc65afb9d), 0x85898e01, 0xfd9e1d7d, 0x20aa99ca);
  }

  lemma Next20(t: nat, p: State, w: bv32, v: bv32, x: bv32)
    requires 20 <= t < 40 && Rounds(t, INITIAL, WORDS) == p && Known(80) && Scheduled(t) == w
    requires Sum(p.a, Parity(p.b, p.c, p.d), p.e, 0x6ed9eba1, w) == v && Rol30(p.b) == x
    ensures Rounds(t + 1, INITIAL, WORDS) == State(v, p.a, x, p.c, p.d)
  {
    hide Rounds, W, Sum, Parity, Rol30, Scheduled;
    RoundAt(t, p);
  }

  lemma Sums30()
    ensures Sum(0xfd9e1d7d, Parity(0xdc64901d, 0x20aa99ca, 0xd3a49608), 0xc82f758b, 0x6ed9eba1, 0) == 0x1a37b0ca
    ensures Rol30(0xdc64901d) == 0x77192407
    ensures Sum(0x1a37b0ca, Parity(0xfd9e1d7d, 0x77192407, 0x20aa99ca), 0xd3a49608, 0x6ed9eba1, 96) == 0x33a23bfc
    ensures Rol30(0xfd9e1d7d) == 0x7f67875f
    ensures Sum(0x33a23bfc, Parity(0x1a37b0ca, 0x7f67875f, 0x77192407), 0x20aa99ca, 0x6ed9eba1, 0x0b131c03) == 0x21283486
    ensures Rol30(0x1a37b0ca) == 0x868dec32
    ensures Sum(0x21283486, Parity(0x33a23bfc, 0x868dec32, 0x7f67875f), 0x77192407, 0x6ed9eba1, 48) == 0xd541f12d
    ensures Rol30(0x33a23bfc) == 0x0ce88eff
    ensures Sum(0xd541f12d, Parity(0x21283486, 0x0ce88eff, 0x868dec32), 0x7f67875f, 0x6ed9eba1, 0x85898ec1) == 0xc7567dc6
    ensures Rol30(0x21283486) == 0x884a0d21
    ensures Sum(0xc7567dc6, Parity(0xd541f12d, 0x884a0d21, 0x0ce88eff), 0x868dec32, 0x6ed9eba1, 0x16263806) == 0x48413ba4
    ensures Rol30(0xd541f12d) == 0x75507c4b
    ensures Sum(0x48413ba4, Parity(0xc7567dc6, 0x75507c4b, 0x884a0d21), 0x0ce88eff, 0x6ed9eba1, 0) == 0xbe35fbd5
    ensures Rol30(0xc7567dc6) == 0xb1d59f71
    ensures Sum(0xbe35fbd5, Parity(0x48413ba4, 0xb1d59f71, 0x75507c4b), 0x884a0d21, 0x6ed9eba1, 0x00000180) == 0x4aa84d97
    ensures Rol30(0x48413ba4) == 0x12104ee9
    ensures Sum(0x4aa84d97, Parity(0xbe35fbd5, 0x12104ee9, 0xb1d59f71), 0x75507c4b, 0x6ed9eba1, 0x2c4c700c) == 0x8370b52e
    ensures Rol30(0xbe35fbd5) == 0x6f8d7ef5
    ensures Sum(0x8370b52e, Parity(0x4aa84d97, 0x6f8d7ef5, 0x12104ee9), 0xb1d59f71, 0x6ed9eba1, 0x000000f0) == 0xc5fbaf5d
    ensures Rol30(0x4aa84d97) == 0xd2aa1365
  {
  }

  lemma Rounds30()
    ensures Rounds(30, INITIAL, WORDS) == State(0xc5fbaf5d, 0x8370b52e, 0xd2aa1365, 0x6f8d7ef5, 0x12104ee9)
  {
    hide Rounds, Known, Sum, Parity, Rol30, WORDS, INITIAL;
    Rounds20();
    Words80();
    Sums30();
    Next20(20, State(0xfd9e1d7d, 0xdc64901d, 0x20aa99ca, 0xd3a49608, 0xc82f758b), 0, 0x1a37b0ca, 0x77192407);
    Next20(21, State(0x1a37b0ca, 0xfd9e1d7d, 0x77192407, 0x20aa99ca, 0xd3a49608), 96, 0x33a23bfc, 0x7f67875f);
    Next20(22, State(0x33a23bfc, 0x1a37b0ca, 0x7f67875f, 0x77192407, 0x20aa99ca), 0x0b131c03, 0x21283486, 0x868dec32);
    Next20(23, State(0x21283486, 0x33a23bfc, 0x868dec32, 0x7f67875f, 0x77192407), 48, 0xd541f12d, 0x0ce88eff);
    Next20(24, State(0xd541f12d, 0x21283486, 0x0ce88eff, 0x868dec32, 0x7f67875f), 0x85898ec1, 0xc7567dc6, 0x884a0d21);
    Next20(25, State(0xc7567dc6, 0xd541f12d, 0x884a0d21, 0x0ce88eff, 0x868dec32), 0x16263806, 0x48413ba4, 0x75507c4b);
    Next20(26, State(0x48413ba4, 0xc7567dc6, 0x75507c4b, 0x884a0d21, 0x0ce88eff), 0, 0xbe35fbd5, 0xb1d59f71);
    Next20(27, State(0xbe35fbd5, 0x48413ba4, 0xb1d59f71, 0x75507c4b, 0x884a0d21), 0x00000180, 0x4aa84d97, 0x12104ee9);
    Next20(28, State(0x4aa84d97, 0xbe35fbd5, 0x12104ee9, 0xb1d59f71, 0x75507c4b), 0x2c4c700c, 0x8370b52e, 0x6f8d7ef5);
    Next20(29, State(0x8370b52e, 0x4aa84d97, 0x6f8d7ef5, 0x12104ee9, 0xb1d59f71), 0x000000f0, 0xc5fbaf5d, 0xd2aa1365);
  }

  lemma Sums40()
    ensures Sum(0xc5fbaf5d, Parity(0x8370b52e, 0xd2aa1365, 0x6f8d7ef5), 0x12104ee9, 0x6ed9eba1, 0x93afb507) == 0x1267b407
    ensures Rol30(0x8370b52e) == 0xa0dc2d4b
    ensures Sum(0x1267b407, Parity(0xc5fbaf5d, 0xa0dc2d4b, 0xd2aa1365), 0x6f8d7ef5, 0x6ed9eba1, 0x5898e048) == 0x3b845d33
    ensures Rol30(0xc5fbaf5d) == 0x717eebd7
    ensures Sum(0x3b845d33, Parity(0x1267b407, 0x717eebd7, 0xa0dc2d4b), 0xd2aa1365, 0x6ed9eba1, 0x8e9a9202) == 0x046faa0a
    ensures Rol30(0x1267b407) == 0xc499ed01
    ensures Sum(0x046faa0a, Parity(0x3b845d33, 0xc499ed01, 0x717eebd7), 0xa0dc2d4b, 0x6ed9eba1, 0x00000600) == 0x2c0ebc11
    ensures Rol30(0x3b845d33) == 0xcee1174c
    ensures Sum(0x2c0ebc11, Parity(0x046faa0a, 0xcee1174c, 0xc499ed01), 0x717eebd7, 0x6ed9eba1, 0xb131c0f0) == 0x21796ad4
    ensures Rol30(0x046faa0a) == 0x811bea82
    ensures Sum(0x21796ad4, Parity(0x2c0ebc11, 0x811bea82, 0xcee1174c), 0xc499ed01, 0x6ed9eba1, 0x16263bc6) == 0xdcbbb0cb
    ensures Rol30(0x2c0ebc11) == 0x4b03af04
    ensures Sum(0xdcbbb0cb, Parity(0x21796ad4, 0x4b03af04, 0x811bea82), 0xcee1174c, 0x6ed9eba1, 0x4ebed41e) == 0x0f511fd8
    ensures Rol30(0x21796ad4) == 0x085e5ab5
    ensures Sum(0x0f511fd8, Parity(0xdcbbb0cb, 0x085e5ab5, 0x4b03af04), 0x811bea82, 0x6ed9eba1, 0x626380a1) == 0xdc63973f
    ensures Rol30(0xdcbbb0cb) == 0xf72eec32
    ensures Sum(0xdc63973f, Parity(0x0f511fd8, 0xf72eec32, 0x085e5ab5), 0x4b03af04, 0x6ed9eba1, 0x16263806) == 0x4c986405
    ensures Rol30(0x0f511fd8) == 0x03d447f6
    ensures Sum(0x4c986405, Parity(0xdc63973f, 0x03d447f6, 0xf72eec32), 0x085e5ab5, 0x6ed9eba1, 0x000018c0) == 0x32de1cba
    ensures Rol30(0xdc63973f) == 0xf718e5cf
  {
  }

  lemma Rounds40()
    ensures Rounds(40, INITIAL, WORDS) == State(0x32de1cba, 0x4c986405, 0xf718e5cf, 0x03d447f6, 0xf72eec32)
  {
    hide Rounds, Known, Sum, Parity, Rol30, WORDS, INITIAL;
    Rounds30();
    Words80();
    Sums40();
    Next20(30, State(0xc5fbaf5d, 0x8370b52e, 0xd2aa1365, 0x6f8d7ef5, 0x12104ee9), 0x93afb507, 0x1267b407, 0xa0dc2d4b);
    Next20(31, State(0x1267b407, 0xc5fbaf5d, 0xa0dc2d4b, 0xd2aa1365, 0x6f8d7ef5), 0x5898e048, 0x3b845d33, 0x717eebd7);
    Next20(32, State(0x3b845d33, 0x1267b407, 0x717eebd7, 0xa0dc2d4b, 0xd2aa1365), 0x8e9a9202, 0x046faa0a, 0xc499ed01);
    Next20(33, State(0x046faa0a, 0x3b845d33, 0xc499ed01, 0x717eebd7, 0xa0dc2d4b), 0x00000600, 0x2c0ebc11, 0xcee1174c);
    Next20(34, State(0x2c0ebc11, 0x046faa0a, 0xcee1174c, 0xc499ed01, 0x717eebd7), 0xb131c0f0, 0x21796ad4, 0x811bea82);
    Next20(35, State(0x21796ad4, 0x2c0ebc11, 0x811bea82, 0xcee1174c, 0xc499ed01), 0x16263bc6, 0xdcbbb0cb, 0x4b03af04);
    Next20(36, State(0xdcbbb0cb, 0x21796ad4, 0x4b03af04, 0x811bea82, 0xcee1174c), 0x4ebed41e, 0x0f511fd8, 0x085e5ab5);
    Next20(37, State(0x0f511fd8, 0xdcbbb0cb, 0x085e5ab5, 0x4b03af04, 0x811bea82), 0x626380a1, 0xdc63973f, 0xf72eec32);
    Next20(38, State(0xdc63973f, 0x0f511fd8, 0xf72eec32, 0x085e5ab5, 0x4b03af04), 0x16263806, 0x4c986405, 0x03d447f6);
    Next20(39, State(0x4c986405, 0xdc63973f, 0x03d447f6, 0xf72eec32, 0x085e5ab5), 0x000018c0, 0x32de1cba, 0xf718e5cf);
  }

  lemma Next40(t: nat, p: State, w: bv32, v: bv32, x: bv32)
    requires 40 <= t < 60 && Rounds(t, INITIAL, WORDS) == p && Known(80) && Scheduled(t) == w
    requires Sum(p.a, Maj(p.b, p.c, p.d), p.e, 0x8f1bbcdc, w) == v && Rol30(p.b) == x
    ensures Rounds(t + 1, INITIAL, WORDS) == State(v, p.a, x, p.c, p.d)
  {
    hide Rounds, W, Sum, Maj, Rol30, Scheduled;
    RoundAt(t, p);
  }

  lemma Sums50()
    ensures Sum(0x32de1cba, Maj(0x4c986405, 0xf718e5cf, 0x03d447f6), 0xf72eec32, 0x8f1bbcdc, 0xd2e138c4) == 0xfc87dedf
    ensures Rol30(0x4c986405) == 0x53261901
    ensures Sum(0xfc87dedf, Maj(0x32de1cba, 0x53261901, 0xf718e5cf), 0x03d447f6, 0x8f1bbcdc, 0x00000f00) == 0x970a0d5c
    ensures Rol30(0x32de1cba) == 0x8cb7872e
    ensures Sum(0x970a0d5c, Maj(0xfc87dedf, 0x8cb7872e, 0x53261901), 0xf718e5cf, 0x8f1bbcdc, 0x3afb5079) == 0x7f193dc5
    ensures Rol30(0xfc87dedf) == 0xff21f7b7
    ensures Sum(0x7f193dc5, Maj(0x970a0d5c, 0xff21f7b7, 0x8cb7872e), 0x53261901, 0x8f1bbcdc, 0x898e04e5) == 0xee1b1aaf
    ensures Rol30(0x970a0d5c) == 0x25c28357
    ensures Sum(0xee1b1aaf, Maj(0x7f193dc5, 0x25c28357, 0xff21f7b7), 0x8cb7872e, 0x8f1bbcdc, 0xe2ba3c2b) == 0x40f28e09
    ensures Rol30(0x7f193dc5) == 0x5fc64f71
    ensures Sum(0x40f28e09, Maj(0xee1b1aaf, 0x5fc64f71, 0x25c28357), 0xff21f7b7, 0x8f1bbcdc, 0x000060c0) == 0x1c51e1f2
    ensures Rol30(0xee1b1aaf) == 0xfb86c6ab
    ensures Sum(0x1c51e1f2, Maj(0x40f28e09, 0xfb86c6ab, 0x5fc64f71), 0x25c28357, 0x8f1bbcdc, 0x053a37cd) == 0xa01b846c
    ensures Rol30(0x40f28e09) == 0x503ca382
    ensures Sum(0xa01b846c, Maj(0x1c51e1f2, 0x503ca382, 0xfb86c6ab), 0x5fc64f71, 0x8f1bbcdc, 0x74458547) == 0xbead02ca
    ensures Rol30(0x1c51e1f2) == 0x8714787c
    ensures Sum(0xbead02ca, Maj(0xa01b846c, 0x8714787c, 0x503ca382), 0xfb86c6ab, 0x8f1bbcdc, 0xda9415ed) == 0xbaf39337
    ensures Rol30(0xa01b846c) == 0x2806e11b
    ensures Sum(0xbaf39337, Maj(0xbead02ca, 0x2806e11b, 0x8714787c), 0x503ca382, 0x8f1bbcdc, 0x26380a16) == 0x120731c5
    ensures Rol30(0xbead02ca) == 0xafab40b2
  {
  }

  lemma Rounds50()
    ensures Rounds(50, INITIAL, WORDS) == State(0x120731c5, 0xbaf39337, 0xafab40b2, 0x2806e11b, 0x8714787c)
  {
    hide Rounds, Known, Sum, Maj, Rol30, WORDS, INITIAL;
    Rounds40();
    Words80();
    Sums50();
    Next40(40, State(0x32de1cba, 0x4c986405, 0xf718e5cf, 0x03d447f6, 0xf72eec32), 0xd2e138c4, 0xfc87dedf, 0x53261901);
    Next40(41, State(0xfc87dedf, 0x32de1cba, 0x53261901, 0xf718e5cf, 0x03d447f6), 0x00000f00, 0x970a0d5c, 0x8cb7872e);
    Next40(42, State(0x970a0d5c, 0xfc87dedf, 0x8cb7872e, 0x53261901, 0xf718e5cf), 0x3afb5079, 0x7f193dc5, 0xff21f7b7);
    Next40(43, State(0x7f193dc5, 0x970a0d5c, 0xff21f7b7, 0x8cb7872e, 0x53261901), 0x898e04e5, 0xee1b1aaf, 0x25c28357);
    Next40(44, State(0xee1b1aaf, 0x7f193dc5, 0x25c28357, 0xff21f7b7, 0x8cb7872e), 0xe2ba3c2b, 0x40f28e09, 0x5fc64f71);
    Next40(45, State(0x40f28e09, 0xee1b1aaf, 0x5fc64f71, 0x25c28357, 0xff21f7b7), 0x000060c0, 0x1c51e1f2, 0xfb86c6ab);
    Next40(46, State(0x1c51e1f2, 0x40f28e09, 0xfb86c6ab, 0x5fc64f71, 0x25c28357), 0x053a37cd, 0xa01b846c, 0x503ca382);
    Next40(47, State(0xa01b846c, 0x1c51e1f2, 0x503ca382, 0xfb86c6ab, 0x5fc64f71), 0x74458547, 0xbead02ca, 0x8714787c);
    Next40(48, State(0xbead02ca, 0xa01b846c, 0x8714787c, 0x503ca382, 0xfb86c6ab), 0xda9415ed, 0xbaf39337, 0x2806e11b);
    Next40(49, State(0xbaf39337, 0xbead02ca, 0x2806e11b, 0x8714787c, 0x503ca382), 0x26380a16, 0x120731c5, 0xafab40b2);
  }

  lemma Sums60()
    ensures Sum(0x120731c5, Maj(0xbaf39337, 0xafab40b2, 0x2806e11b), 0x8714787c, 0x8f1bbcdc, 0x626383a1) == 0x641db2ce
    ensures Rol30(0xbaf39337) == 0xeebce4cd
    ensures Sum(0x641db2ce, Maj(0x120731c5, 0xeebce4cd, 0xafab40b2), 0x2806e11b, 0x8f1bbcdc, 0x4ebf54de) == 0x3847ad66
    ensures Rol30(0x120731c5) == 0x4481cc71
    ensures Sum(0x3847ad66, Maj(0x641db2ce, 0x4481cc71, 0xeebce4cd), 0xafab40b2, 0x8f1bbcdc, 0x3835b44b) == 0xe490436d
    ensures Rol30(0x641db2ce) == 0x99076cb3
    ensures Sum(0xe490436d, Maj(0x3847ad66, 0x99076cb3, 0x4481cc71), 0xeebce4cd, 0x8f1bbcdc, 0x0000f600) == 0x27e9f1d8
    ensures Rol30(0x3847ad66) == 0x8e11eb59
    ensures Sum(0x27e9f1d8, Maj(0xe490436d, 0x8e11eb59, 0x99076cb3), 0x4481cc71, 0x8f1bbcdc, 0x1e84c7a3) == 0x7b71f76d
    ensures Rol30(0xe490436d) == 0x792410db
    ensures Sum(0x7b71f76d, Maj(0x27e9f1d8, 0x792410db, 0x8e11eb59), 0x99076cb3, 0x8f1bbcdc, 0x98e04d98) == 0x5e6456af
    ensures Rol30(0x27e9f1d8) == 0x09fa7c76
    ensures Sum(0x5e6456af, Maj(0x7b71f76d, 0x09fa7c76, 0x792410db), 0x8e11eb59, 0x8f1bbcdc, 0x651d16a0) == 0xc846093f
    ensures Rol30(0x7b71f76d) == 0x5edc7ddb
    ensures Sum(0xc846093f, Maj(0x5e6456af, 0x5edc7ddb, 0x09fa7c76), 0x792410db, 0x8f1bbcdc, 0x62658ca1) == 0xd262ff50
    ensures Rol30(0x5e6456af) == 0xd79915ab
    ensures Sum(0xd262ff50, Maj(0xc846093f, 0xd79915ab, 0x5edc7ddb), 0x09fa7c76, 0x8f1bbcdc, 0x458544d6) == 0x09d785fd
    ensures Rol30(0xc846093f) == 0xf211824f
    ensures Sum(0x09d785fd, Maj(0xd262ff50, 0xf211824f, 0xd79915ab), 0x5edc7ddb, 0x8f1bbcdc, 0x44584cb7) == 0x3f52de5a
    ensures Rol30(0xd262ff50) == 0x3498bfd4
  {
  }

  lemma Rounds60()
    ensures Rounds(60, INITIAL, WORDS) == State(0x3f52de5a, 0x09d785fd, 0x3498bfd4, 0xf211824f, 0xd79915ab)
  {
    hide Rounds, Known, Sum, Maj, Rol30, WORDS, INITIAL;
    Rounds50();
    Words80();
    Sums60();
    Next40(50, State(0x120731c5, 0xbaf39337, 0xafab40b2, 0x2806e11b, 0x8714787c), 0x626383a1, 0x641db2ce, 0xeebce4cd);
    Next40(51, State(0x641db2ce, 0x120731c5, 0xeebce4cd, 0xafab40b2, 0x2806e11b), 0x4ebf54de, 0x3847ad66, 0x4481cc71);
    Next40(52, State(0x3847ad66, 0x641db2ce, 0x4481cc71, 0xeebce4cd, 0xafab40b2), 0x3835b44b, 0xe490436d, 0x99076cb3);
    Next40(53, State(0xe490436d, 0x3847ad66, 0x99076cb3, 0x4481cc71, 0xeebce4cd), 0x0000f600, 0x27e9f1d8, 0x8e11eb59);
    Next40(54, State(0x27e9f1d8, 0xe490436d, 0x8e11eb59, 0x99076cb3, 0x4481cc71), 0x1e84c7a3, 0x7b71f76d, 0x792410db);
    Next40(55, State(0x7b71f76d, 0x27e9f1d8, 0x792410db, 0x8e11eb59, 0x99076cb3), 0x98e04d98, 0x5e6456af, 0x09fa7c76);
    Next40(56, State(0x5e6456af, 0x7b71f76d, 0x09fa7c76, 0x792410db, 0x8e11eb59), 0x651d16a0, 0xc846093f, 0x5edc7ddb);
    Next40(57, State(0xc846093f, 0x5e6456af, 0x5edc7ddb, 0x09fa7c76, 0x792410db), 0x62658ca1, 0xd262ff50, 0xd79915ab);
    Next40(58, State(0xd262ff50, 0xc846093f, 0xd79915ab, 0x5edc7ddb, 0x09fa7c76), 0x458544d6, 0x09d785fd, 0xf211824f);
    Next40(59, State(0x09d785fd, 0xd262ff50, 0xf211824f, 0xd79915ab, 0x5edc7ddb), 0x44584cb7, 0x3f52de5a, 0x3498bfd4);
  }

  lemma Next60(t: nat, p: State, w: bv32, v: bv32, x: bv32)
    requires 60 <= t < 80 && Rounds(t, INITIAL, WORDS) == p && Known(80) && Scheduled(t) == w
    requires Sum(p.a, Parity(p.b, p.c, p.d), p.e, 0xca62c1d6, w) == v && Rol30(p.b) == x
    ensures Rounds(t + 1, INITIAL, WORDS) == State(v, p.a, x, p.c, p.d)
  {
    hide Rounds, W, Sum, Parity, Rol30, Scheduled;
    RoundAt(t, p);
  }

  lemma Sums70()
    ensures Sum(0x3f52de5a, Parity(0x09d785fd, 0x3498bfd4, 0xf211824f), 0xd79915ab, 0xca62c1d6, 0x7ba06619) == 0xd756c147
    ensures Rol30(0x09d785fd) == 0x4275e17f
    ensures Sum(0xd756c147, Parity(0x3f52de5a, 0x4275e17f, 0x3498bfd4), 0xf211824f, 0xca62c1d6, 0x6380aea2) == 0x548c9cb2
    ensures Rol30(0x3f52de5a) == 0x8fd4b796
    ensures Sum(0x548c9cb2, Parity(0xd756c147, 0x8fd4b796, 0x4275e17f), 0x3498bfd4, 0xca62c1d6, 0x0ae55269) == 0xb66c020b
    ensures Rol30(0xd756c147) == 0xf5d5b051
    ensures Sum(0xb66c020b, Parity(0x548c9cb2, 0xf5d5b051, 0x8fd4b796), 0x4275e17f, 0xca62c1d6, 0x627b49a1) == 0x6b61c9e1
    ensures Rol30(0x548c9cb2) == 0x9523272c
    ensures Sum(0x6b61c9e1, Parity(0xb66c020b, 0x9523272c, 0xf5d5b051), 0x8fd4b796, 0xca62c1d6, 0x7cd45c9d) == 0x19dfa7ac
    ensures Rol30(0xb66c020b) == 0xed9b0082
    ensures Sum(0x19dfa7ac, Parity(0x6b61c9e1, 0xed9b0082, 0x9523272c), 0xf5d5b051, 0xca62c1d6, 0x000f0000) == 0x101655f9
    ensures Rol30(0x6b61c9e1) == 0x5ad87278
    ensures Sum(0x101655f9, Parity(0x19dfa7ac, 0x5ad87278, 0xed9b0082), 0x9523272c, 0xca62c1d6, 0xfb50753a) == 0x0c3df2b4
    ensures Rol30(0x19dfa7ac) == 0x0677e9eb
    ensures Sum(0x0c3df2b4, Parity(0x101655f9, 0x0677e9eb, 0x5ad87278), 0xed9b0082, 0xca62c1d6, 0xec6765e8) == 0x78dd4d2b
    ensures Rol30(0x101655f9) == 0x4405957e
    ensures Sum(0x78dd4d2b, Parity(0x0c3df2b4, 0x4405957e, 0x0677e9eb), 0x5ad87278, 0xca62c1d6, 0xba3c2be2) == 0x497093c0
    ensures Rol30(0x0c3df2b4) == 0x030f7cad
    ensures Sum(0x497093c0, Parity(0x78dd4d2b, 0x030f7cad, 0x4405957e), 0x0677e9eb, 0xca62c1d6, 0x0060c000) == 0x3f2588c2
    ensures Rol30(0x78dd4d2b) == 0xde37534a
  {
  }

  lemma Rounds70()
    ensures Rounds(70, INITIAL, WORDS) == State(0x3f2588c2, 0x497093c0, 0xde37534a, 0x030f7cad, 0x4405957e)
  {
    hide Rounds, Known, Sum, Parity, Rol30, WORDS, INITIAL;
    Rounds60();
    Words80();
    Sums70();
    Next60(60, State(0x3f52de5a, 0x09d785fd, 0x3498bfd4, 0xf211824f, 0xd79915ab), 0x7ba06619, 0xd756c147, 0x4275e17f);
    Next60(61, State(0xd756c147, 0x3f52de5a, 0x4275e17f, 0x3498bfd4, 0xf211824f), 0x6380aea2, 0x548c9cb2, 0x8fd4b796);
    Next60(62, State(0x548c9cb2, 0xd756c147, 0x8fd4b796, 0x4275e17f, 0x3498bfd4), 0x0ae55269, 0xb66c020b, 0xf5d5b051);
    Next60(63, State(0xb66c020b, 0x548c9cb2, 0xf5d5b051, 0x8fd4b796, 0x4275e17f), 0x627b49a1, 0x6b61c9e1, 0x9523272c);
    Next60(64, State(0x6b61c9e1, 0xb66c020b, 0x9523272c, 0xf5d5b051, 0x8fd4b796), 0x7cd45c9d, 0x19dfa7ac, 0xed9b0082);
    Next60(65, State(0x19dfa7ac, 0x6b61c9e1, 0xed9b0082, 0x9523272c, 0xf5d5b051), 0x000f0000, 0x101655f9, 0x5ad87278);
    Next60(66, State(0x101655f9, 0x19dfa7ac, 0x5ad87278, 0xed9b0082, 0x9523272c), 0xfb50753a, 0x0c3df2b4, 0x0677e9eb);
    Next60(67, State(0x0c3df2b4, 0x101655f9, 0x0677e9eb, 0x5ad87278, 0xed9b0082), 0xec6765e8, 0x78dd4d2b, 0x4405957e);
    Next60(68, State(0x78dd4d2b, 0x0c3df2b4, 0x4405957e, 0x0677e9eb, 0x5ad87278), 0xba3c2be2, 0x497093c0, 0x030f7cad);
    Next60(69, State(0x497093c0, 0x78dd4d2b, 0x030f7cad, 0x4405957e, 0x0677e9eb), 0x0060c000, 0x3f2588c2, 0xde37534a);
  }

  lemma Sums80()
    ensures Sum(0x3f2588c2, Parity(0x497093c0, 0xde37534a, 0x030f7cad), 0x4405957e, 0xca62c1d6, 0x3a37cd05) == 0xc199f8c7
    ensures Rol30(0x497093c0) == 0x125c24f0
    ensures Sum(0xc199f8c7, Parity(0x3f2588c2, 0x125c24f0, 0xde37534a), 0x030f7cad, 0xca62c1d6, 0x458546f4) == 0x39859de7
    ensures Rol30(0x3f2588c2) == 0x8fc96230
    ensures Sum(0x39859de7, Parity(0xc199f8c7, 0x8fc96230, 0x125c24f0), 0xde37534a, 0xca62c1d6, 0xb8599dd6) == 0xedb42de4
    ensures Rol30(0xc199f8c7) == 0xf0667e31
    ensures Sum(0xedb42de4, Parity(0x39859de7, 0xf0667e31, 0x8fc96230), 0x125c24f0, 0xca62c1d6, 0x380a1a26) == 0x11793f6f
    ensures Rol30(0x39859de7) == 0xce616779
    ensures Sum(0x11793f6f, Parity(0xedb42de4, 0xce616779, 0xf0667e31), 0x8fc96230, 0xca62c1d6, 0x01e02203) == 0x5ee76897
    ensures Rol30(0xedb42de4) == 0x3b6d0b79
    ensures Sum(0x5ee76897, Parity(0x11793f6f, 0x3b6d0b79, 0xce616779), 0xf0667e31, 0xca62c1d6, 0xe7cc3456) == 0x63f7dab7
    ensures Rol30(0x11793f6f) == 0xc45e4fdb
    ensures Sum(0x63f7dab7, Parity(0x5ee76897, 0xc45e4fdb, 0x3b6d0b79), 0xce616779, 0xca62c1d6, 0xe6e60b69) == 0xa079b7d9
    ensures Rol30(0x5ee76897) == 0xd7b9da25
    ensures Sum(0xa079b7d9, Parity(0x63f7dab7, 0xd7b9da25, 0xc45e4fdb), 0x3b6d0b79, 0xca62c1d6, 0x00f60a00) == 0x860d21cc
    ensures Rol30(0x63f7dab7) == 0xd8fdf6ad
    ensures Sum(0x860d21cc, Parity(0xa079b7d9, 0xd8fdf6ad, 0xd7b9da25), 0xc45e4fdb, 0xca62c1d6, 0x5795ef4f) == 0x5738d5e1
    ensures Rol30(0xa079b7d9) == 0x681e6df6
    ensures Sum(0x5738d5e1, Parity(0x860d21cc, 0x681e6df6, 0xd8fdf6ad), 0xd7b9da25, 0xca62c1d6, 0x822e0879) == 0x42541b35
    ensures Rol30(0x860d21cc) == 0x21834873
  {
  }

  lemma Rounds80()
    ensures Rounds(80, INITIAL, WORDS) == State(0x42541b35, 0x5738d5e1, 0x21834873, 0x681e6df6, 0xd8fdf6ad)
  {
    hide Rounds, Known, Sum, Parity, Rol30, WORDS, INITIAL;
    Rounds70();
    Words80();
    Sums80();
    Next60(70, State(0x3f2588c2, 0x497093c0, 0xde37534a, 0x030f7cad, 0x4405957e), 0x3a37cd05, 0xc199f8c7, 0x125c24f0);
    Next60(71, State(0xc199f8c7, 0x3f2588c2, 0x125c24f0, 0xde37534a, 0x030f7cad), 0x458546f4, 0x39859de7, 0x8fc96230);
    Next60(72, State(0x39859de7, 0xc199f8c7, 0x8fc96230, 0x125c24f0, 0xde37534a), 0xb8599dd6, 0xedb42de4, 0xf0667e31);
    Next60(73, State(0xedb42de4, 0x39859de7, 0xf0667e31, 0x8fc96230, 0x125c24f0), 0x380a1a26, 0x11793f6f, 0xce616779);
    Next60(74, State(0x11793f6f, 0xedb42de4, 0xce616779, 0xf0667e31, 0x8fc96230), 0x01e02203, 0x5ee76897, 0x3b6d0b79);
    Next60(75, State(0x5ee76897, 0x11793f6f, 0x3b6d0b79, 0xce616779, 0xf0667e31), 0xe7cc3456, 0x63f7dab7, 0xc45e4fdb);
    Next60(76, State(0x63f7dab7, 0x5ee76897, 0xc45e4fdb, 0x3b6d0b79, 0xce616779), 0xe6e60b69, 0xa079b7d9, 0xd7b9da25);
    Next60(77, State(0xa079b7d9, 0x63f7dab7, 0xd7b9da25, 0xc45e4fdb, 0x3b6d0b79), 0x00f60a00, 0x860d21cc, 0xd8fdf6ad);
    Next60(78, State(0x860d21cc, 0xa079b7d9, 0xd8fdf6ad, 0xd7b9da25, 0xc45e4fdb), 0x5795ef4f, 0x5738d5e1, 0x681e6df6);
    Next60(79, State(0x5738d5e1, 0x860d21cc, 0x681e6df6, 0xd8fdf6ad, 0xd7b9da25), 0x822e0879, 0x42541b35, 0x21834873);
  }

  /** The digest a9993e36 4706816a ba3e2571 7850c26c 9cd0d89d. */
  lemma AbcDigest()
    ensures Sha1.Sha1(ABC) == State(0xa9993e36, 0x4706816a, 0xba3e2571, 0x7850c26c, 0x9cd0d89d)
  {
    Rounds80();
    AbcPadded();
    AbcSum();
    hide Rounds, Words, Padded, INITIAL;
    var p := Padded(ABC);
    assert p[0..64] == p;
    assert Chain(INITIAL, false, p, 0) == INITIAL;
    assert Chain(INITIAL, false, p, 1) == Compress(INITIAL, Words(false, p[0..64]));
  }

  lemma AbcSum()
    ensures AddState(INITIAL, State(0x42541b35, 0x5738d5e1, 0x21834873, 0x681e6df6, 0xd8fdf6ad))
      == State(0xa9993e36, 0x4706816a, 0xba3e2571, 0x7850c26c, 0x9cd0d89d)
  {
  }
}
