/**
 * A known answer of SHA-512: the message "abc" of the examples for FIPS 180-4, schedule word by word and
 * round by round. The numbers are those of the standard and name no function of the model.
 */
module Sha512Vectors {
  import opened Bytes
  import opened Sha512

  const ABC: seq<byte> := [0x61, 0x62, 0x63]

  /** The padded message as sixteen words. */
  const WORDS: seq<bv64> := [0x6162638000000000, 0, 0, 0, 0, 0, 0, 0, 0, 0, 0, 0, 0, 0, 0, 24]

  lemma AbcPadded()
    ensures |Padded(ABC)| == 128 && Words(Padded(ABC)) == WORDS
  {
    hide Be, Word;
    LengthIs24();
    var p := Padded(ABC);
    assert p[..8] == [0x61, 0x62, 0x63, 0x80, 0, 0, 0, 0] && p[120..] == [0, 0, 0, 0, 0, 0, 0, 24];
    assert p[120..128] == p[120..];
    assert forall i :: 4 <= i < 120 ==> p[i] == 0;
    assert forall i :: 1 <= i < 15 ==> p[8 * i..8 * i + 8] == [0, 0, 0, 0, 0, 0, 0, 0];
    AbcWords();
  }

  lemma AbcWords()
    ensures Word([0x61, 0x62, 0x63, 0x80, 0, 0, 0, 0]) == 0x6162638000000000
    ensures Word([0, 0, 0, 0, 0, 0, 0, 24]) == 24 && Word([0, 0, 0, 0, 0, 0, 0, 0]) == 0
  {
  }

  lemma LengthIs24()
    ensures Be(24, 16) == Zeros(15) + [24]
  {
    hide ToByte;
    ToByteValue(24);
    assert ToByte(24) == 24;
    assert Be(24, 16) == Be(0, 15) + [ToByte(24)];
    BeZero(15);
  }

  // ---------- The schedule ----------

  /** The eighty schedule words of the example. */
  function Scheduled(t: nat): bv64
    requires t < 80
  {
    if t < 16 then if t == 0 then 0x6162638000000000 else if t < 15 then 0 else 24
    else if t < 32 then
      if t < 20 then Pick4(t - 16, 0x6162638000000000, 0x00030000000000c0, 0x0a9699a24c700003, 0x00000c0060000603)
      else if t < 24 then Pick4(t - 20, 0x549ef62639858996, 0x00c0003300003c00, 0x1497007a8a0e9dbc, 0x62e56500cc0780f0)
      else if t < 28 then Pick4(t - 24, 0x7760dd475a538797, 0xf1554b711c1c0003, 0xca2993a4345d9ff2, 0x5e0e66b5c783dd32)
      else Pick4(t - 28, 0xe25a625d00494b62, 0x9f44486fb1e4fbd2, 0xb31b8c2b06085f2f, 0x0e987660934142f6)
    else if t < 48 then
      if t < 36 then Pick4(t - 32, 0xa4af2cfd09fbb924, 0xad289e2e0bd53186, 0x3c74563aa2f9673e, 0x6ccdcd14cc14b53f)
      else if t < 40 then Pick4(t - 36, 0xc3f925b337f22bde, 0x5bcc77a75ad95b54, 0x3ec2257adca09a52, 0x28246960001fc5eb)
      else if t < 44 then Pick4(t - 40, 0x04e33a75ce2be88a, 0x7d5314b3c359e0e7, 0xaef7a285ff251266, 0x0b8472581deea04f)
      else Pick4(t - 44, 0xb174e26eddc7b033, 0x5d63bae58ddd88de, 0x4c044007b744ccbb, 0xe6a9aa4d74dc7d43)
    else if t < 64 then
      if t < 52 then Pick4(t - 48, 0xebeaf1237248019c, 0x361e80b2d00f3193, 0x2e9839125df3b175, 0x3319629293ad5363)
      else if t < 56 then Pick4(t - 52, 0x9cbc5d89ac1b89d5, 0x275e23ffeeca50b7, 0x3b80d680bf69ef58, 0x0d0696933945a125)
      else if t < 60 then Pick4(t - 56, 0x7533eabcb786ff00, 0xb89826cee6fbf0e5, 0x249b4fbcad623e9f, 0x4aea9df2b02d6f1e)
      else Pick4(t - 60, 0x2cc57475a55e8d8f, 0xb2574ae938d8be89, 0xc1b35a57b16d6aea, 0xcc4918b5949206bb)
    else
      if t < 68 then Pick4(t - 64, 0x5099c3add79f90ec, 0x5ea81d78e7660bf1, 0xebee6267405ac2a9, 0xb01f21926108a4ab)
      else if t < 72 then Pick4(t - 68, 0x786433dd2fe65556, 0xc54a6eaa24a0552c, 0xb3c8f1530bdbaa9e, 0xbb8abfe56f469338)
      else if t < 76 then Pick4(t - 72, 0xf63d4265cc1c5a78, 0xbe8355ea73129afb, 0x49e2db8ebdcfbeb5, 0x82269d4a883a3d99)
      else Pick4(t - 76, 0xfdf53df3011f362b, 0x464af5671d71c12e, 0xe449b68198ec611c, 0x92aeeed1a7bcf7d2)
  }

  ghost predicate Known(n: nat)
    requires n <= 80
  {
    forall t: nat :: t < n ==> W(WORDS, t) == Scheduled(t)
  }

  lemma FirstWords()
    ensures Known(16)
  {
  }

  lemma NextWord(t: nat)
    requires 16 <= t < 80 && Known(t)
    requires Mix(Scheduled(t - 2), Scheduled(t - 7), Scheduled(t - 15), Scheduled(t - 16)) == Scheduled(t)
    ensures Known(t + 1)
  {
    hide Mix, Scheduled;
  }

  lemma Mixes32()
    ensures Mix(0, 0, 0, 0x6162638000000000) == 0x6162638000000000
    ensures Mix(24, 0, 0, 0) == 0x00030000000000c0
    ensures Mix(0x6162638000000000, 0, 0, 0) == 0x0a9699a24c700003
    ensures Mix(0x00030000000000c0, 0, 0, 0) == 0x00000c0060000603
    ensures Mix(0x0a9699a24c700003, 0, 0, 0) == 0x549ef62639858996
    ensures Mix(0x00000c0060000603, 0, 0, 0) == 0x00c0003300003c00
    ensures Mix(0x549ef62639858996, 24, 0, 0) == 0x1497007a8a0e9dbc
    ensures Mix(0x00c0003300003c00, 0x6162638000000000, 0, 0) == 0x62e56500cc0780f0
    ensures Mix(0x1497007a8a0e9dbc, 0x00030000000000c0, 0, 0) == 0x7760dd475a538797
    ensures Mix(0x62e56500cc0780f0, 0x0a9699a24c700003, 0, 0) == 0xf1554b711c1c0003
    ensures Mix(0x7760dd475a538797, 0x00000c0060000603, 0, 0) == 0xca2993a4345d9ff2
    ensures Mix(0xf1554b711c1c0003, 0x549ef62639858996, 0, 0) == 0x5e0e66b5c783dd32
    ensures Mix(0xca2993a4345d9ff2, 0x00c0003300003c00, 0, 0) == 0xe25a625d00494b62
    ensures Mix(0x5e0e66b5c783dd32, 0x1497007a8a0e9dbc, 0, 0) == 0x9f44486fb1e4fbd2
    ensures Mix(0xe25a625d00494b62, 0x62e56500cc0780f0, 24, 0) == 0xb31b8c2b06085f2f
    ensures Mix(0x9f44486fb1e4fbd2, 0x7760dd475a538797, 0x6162638000000000, 24) == 0x0e987660934142f6
  {
  }

  lemma Words24()
    ensures Known(24)
  {
    hide W, Mix, Known;
    FirstWords();
    Mixes32();
    NextWord(16);
    NextWord(17);
    NextWord(18);
    NextWord(19);
    NextWord(20);
    NextWord(21);
    NextWord(22);
    NextWord(23);
  }

  lemma Words32()
    ensures Known(32)
  {
    hide W, Mix, Known;
    Words24();
    Mixes32();
    NextWord(24);
    NextWord(25);
    NextWord(26);
    NextWord(27);
    NextWord(28);
    NextWord(29);
    NextWord(30);
    NextWord(31);
  }

  lemma Mixes48()
    ensures Mix(0xb31b8c2b06085f2f, 0xf1554b711c1c0003, 0x00030000000000c0, 0x6162638000000000) == 0xa4af2cfd09fbb924
    ensures Mix(0x0e987660934142f6, 0xca2993a4345d9ff2, 0x0a9699a24c700003, 0x00030000000000c0) == 0xad289e2e0bd53186
    ensures Mix(0xa4af2cfd09fbb924, 0x5e0e66b5c783dd32, 0x00000c0060000603, 0x0a9699a24c700003) == 0x3c74563aa2f9673e
    ensures Mix(0xad289e2e0bd53186, 0xe25a625d00494b62, 0x549ef62639858996, 0x00000c0060000603) == 0x6ccdcd14cc14b53f
    ensures Mix(0x3c74563aa2f9673e, 0x9f44486fb1e4fbd2, 0x00c0003300003c00, 0x549ef62639858996) == 0xc3f925b337f22bde
    ensures Mix(0x6ccdcd14cc14b53f, 0xb31b8c2b06085f2f, 0x1497007a8a0e9dbc, 0x00c0003300003c00) == 0x5bcc77a75ad95b54
    ensures Mix(0xc3f925b337f22bde, 0x0e987660934142f6, 0x62e56500cc0780f0, 0x1497007a8a0e9dbc) == 0x3ec2257adca09a52
    ensures Mix(0x5bcc77a75ad95b54, 0xa4af2cfd09fbb924, 0x7760dd475a538797, 0x62e56500cc0780f0) == 0x28246960001fc5eb
    ensures Mix(0x3ec2257adca09a52, 0xad289e2e0bd53186, 0xf1554b711c1c0003, 0x7760dd475a538797) == 0x04e33a75ce2be88a
    ensures Mix(0x28246960001fc5eb, 0x3c74563aa2f9673e, 0xca2993a4345d9ff2, 0xf1554b711c1c0003) == 0x7d5314b3c359e0e7
    ensures Mix(0x04e33a75ce2be88a, 0x6ccdcd14cc14b53f, 0x5e0e66b5c783dd32, 0xca2993a4345d9ff2) == 0xaef7a285ff251266
    ensures Mix(0x7d5314b3c359e0e7, 0xc3f925b337f22bde, 0xe25a625d00494b62, 0x5e0e66b5c783dd32) == 0x0b8472581deea04f
    ensures Mix(0xaef7a285ff251266, 0x5bcc77a75ad95b54, 0x9f44486fb1e4fbd2, 0xe25a625d00494b62) == 0xb174e26eddc7b033
    ensures Mix(0x0b8472581deea04f, 0x3ec2257adca09a52, 0xb31b8c2b06085f2f, 0x9f44486fb1e4fbd2) == 0x5d63bae58ddd88de
    ensures Mix(0xb174e26eddc7b033, 0x28246960001fc5eb, 0x0e987660934142f6, 0xb31b8c2b06085f2f) == 0x4c044007b744ccbb
    ensures Mix(0x5d63bae58ddd88de, 0x04e33a75ce2be88a, 0xa4af2cfd09fbb924, 0x0e987660934142f6) == 0xe6a9aa4d74dc7d43
  {
  }

  lemma Words40()
    ensures Known(40)
  {
    hide W, Mix, Known;
    Words32();
    Mixes48();
    NextWord(32);
    NextWord(33);
    NextWord(34);
    NextWord(35);
    NextWord(36);
    NextWord(37);
    NextWord(38);
    NextWord(39);
  }

  lemma Words48()
    ensures Known(48)
  {
    hide W, Mix, Known;
    Words40();
    Mixes48();
    NextWord(40);
    NextWord(41);
    NextWord(42);
    NextWord(43);
    NextWord(44);
    NextWord(45);
    NextWord(46);
    NextWord(47);
  }

  lemma Mixes64()
    ensures Mix(0x4c044007b744ccbb, 0x7d5314b3c359e0e7, 0xad289e2e0bd53186, 0xa4af2cfd09fbb924) == 0xebeaf1237248019c
    ensures Mix(0xe6a9aa4d74dc7d43, 0xaef7a285ff251266, 0x3c74563aa2f9673e, 0xad289e2e0bd53186) == 0x361e80b2d00f3193
    ensures Mix(0xebeaf1237248019c, 0x0b8472581deea04f, 0x6ccdcd14cc14b53f, 0x3c74563aa2f9673e) == 0x2e9839125df3b175
    ensures Mix(0x361e80b2d00f3193, 0xb174e26eddc7b033, 0xc3f925b337f22bde, 0x6ccdcd14cc14b53f) == 0x3319629293ad5363
    ensures Mix(0x2e9839125df3b175, 0x5d63bae58ddd88de, 0x5bcc77a75ad95b54, 0xc3f925b337f22bde) == 0x9cbc5d89ac1b89d5
    ensures Mix(0x3319629293ad5363, 0x4c044007b744ccbb, 0x3ec2257adca09a52, 0x5bcc77a75ad95b54) == 0x275e23ffeeca50b7
    ensures Mix(0x9cbc5d89ac1b89d5, 0xe6a9aa4d74dc7d43, 0x28246960001fc5eb, 0x3ec2257adca09a52) == 0x3b80d680bf69ef58
    ensures Mix(0x275e23ffeeca50b7, 0xebeaf1237248019c, 0x04e33a75ce2be88a, 0x28246960001fc5eb) == 0x0d0696933945a125
    ensures Mix(0x3b80d680bf69ef58, 0x361e80b2d00f3193, 0x7d5314b3c359e0e7, 0x04e33a75ce2be88a) == 0x7533eabcb786ff00
    ensures Mix(0x0d0696933945a125, 0x2e9839125df3b175, 0xaef7a285ff251266, 0x7d5314b3c359e0e7) == 0xb89826cee6fbf0e5
    ensures Mix(0x7533eabcb786ff00, 0x3319629293ad5363, 0x0b8472581deea04f, 0xaef7a285ff251266) == 0x249b4fbcad623e9f
    ensures Mix(0xb89826cee6fbf0e5, 0x9cbc5d89ac1b89d5, 0xb174e26eddc7b033, 0x0b8472581deea04f) == 0x4aea9df2b02d6f1e
    ensures Mix(0x249b4fbcad623e9f, 0x275e23ffeeca50b7, 0x5d63bae58ddd88de, 0xb174e26eddc7b033) == 0x2cc57475a55e8d8f
    ensures Mix(0x4aea9df2b02d6f1e, 0x3b80d680bf69ef58, 0x4c044007b744ccbb, 0x5d63bae58ddd88de) == 0xb2574ae938d8be89
    ensures Mix(0x2cc57475a55e8d8f, 0x0d0696933945a125, 0xe6a9aa4d74dc7d43, 0x4c044007b744ccbb) == 0xc1b35a57b16d6aea
    ensures Mix(0xb2574ae938d8be89, 0x7533eabcb786ff00, 0xebeaf1237248019c, 0xe6a9aa4d74dc7d43) == 0xcc4918b5949206bb
  {
  }

  lemma Words56()
    ensures Known(56)
  {
    hide W, Mix, Known;
    Words48();
    Mixes64();
    NextWord(48);
    NextWord(49);
    NextWord(50);
    NextWord(51);
    NextWord(52);
    NextWord(53);
    NextWord(54);
    NextWord(55);
  }

  lemma Words64()
    ensures Known(64)
  {
    hide W, Mix, Known;
    Words56();
    Mixes64();
    NextWord(56);
    NextWord(57);
    NextWord(58);
    NextWord(59);
    NextWord(60);
    NextWord(61);
    NextWord(62);
    NextWord(63);
  }

  lemma Mixes80()
    ensures Mix(0xc1b35a57b16d6aea, 0xb89826cee6fbf0e5, 0x361e80b2d00f3193, 0xebeaf1237248019c) == 0x5099c3add79f90ec
    ensures Mix(0xcc4918b5949206bb, 0x249b4fbcad623e9f, 0x2e9839125df3b175, 0x361e80b2d00f3193) == 0x5ea81d78e7660bf1
    ensures Mix(0x5099c3add79f90ec, 0x4aea9df2b02d6f1e, 0x3319629293ad5363, 0x2e9839125df3b175) == 0xebee6267405ac2a9
    ensures Mix(0x5ea81d78e7660bf1, 0x2cc57475a55e8d8f, 0x9cbc5d89ac1b89d5, 0x3319629293ad5363) == 0xb01f21926108a4ab
    ensures Mix(0xebee6267405ac2a9, 0xb2574ae938d8be89, 0x275e23ffeeca50b7, 0x9cbc5d89ac1b89d5) == 0x786433dd2fe65556
    ensures Mix(0xb01f21926108a4ab, 0xc1b35a57b16d6aea, 0x3b80d680bf69ef58, 0x275e23ffeeca50b7) == 0xc54a6eaa24a0552c
    ensures Mix(0x786433dd2fe65556, 0xcc4918b5949206bb, 0x0d0696933945a125, 0x3b80d680bf69ef58) == 0xb3c8f1530bdbaa9e
    ensures Mix(0xc54a6eaa24a0552c, 0x5099c3add79f90ec, 0x7533eabcb786ff00, 0x0d0696933945a125) == 0xbb8abfe56f469338
    ensures Mix(0xb3c8f1530bdbaa9e, 0x5ea81d78e7660bf1, 0xb89826cee6fbf0e5, 0x7533eabcb786ff00) == 0xf63d4265cc1c5a78
    ensures Mix(0xbb8abfe56f469338, 0xebee6267405ac2a9, 0x249b4fbcad623e9f, 0xb89826cee6fbf0e5) == 0xbe8355ea73129afb
    ensures Mix(0xf63d4265cc1c5a78, 0xb01f21926108a4ab, 0x4aea9df2b02d6f1e, 0x249b4fbcad623e9f) == 0x49e2db8ebdcfbeb5
    ensures Mix(0xbe8355ea73129afb, 0x786433dd2fe65556, 0x2cc57475a55e8d8f, 0x4aea9df2b02d6f1e) == 0x82269d4a883a3d99
    ensures Mix(0x49e2db8ebdcfbeb5, 0xc54a6eaa24a0552c, 0xb2574ae938d8be89, 0x2cc57475a55e8d8f) == 0xfdf53df3011f362b
    ensures Mix(0x82269d4a883a3d99, 0xb3c8f1530bdbaa9e, 0xc1b35a57b16d6aea, 0xb2574ae938d8be89) == 0x464af5671d71c12e
    ensures Mix(0xfdf53df3011f362b, 0xbb8abfe56f469338, 0xcc4918b5949206bb, 0xc1b35a57b16d6aea) == 0xe449b68198ec611c
    ensures Mix(0x464af5671d71c12e, 0xf63d4265cc1c5a78, 0x5099c3add79f90ec, 0xcc4918b5949206bb) == 0x92aeeed1a7bcf7d2
  {
  }

  lemma Words72()
    ensures Known(72)
  {
    hide W, Mix, Known;
    Words64();
    Mixes80();
    NextWord(64);
    NextWord(65);
    NextWord(66);
    NextWord(67);
    NextWord(68);
    NextWord(69);
    NextWord(70);
    NextWord(71);
  }

  lemma Words80()
    ensures Known(80)
  {
    hide W, Mix, Known;
    Words72();
    Mixes80();
    NextWord(72);
    NextWord(73);
    NextWord(74);
    NextWord(75);
    NextWord(76);
    NextWord(77);
    NextWord(78);
    NextWord(79);
  }

  // ---------- The rounds ----------

  lemma RoundAt(t: nat, p: State)
    requires t < 80 && Rounds(t, INITIAL, WORDS) == p
    ensures Rounds(t + 1, INITIAL, WORDS) == Round(p, Lut(t), W(WORDS, t))
  {
    hide W, Round, Lut;
  }

  lemma Next(t: nat, a: bv64, b: bv64, c: bv64, d: bv64, e: bv64, f: bv64, g: bv64, h: bv64, k: bv64, w: bv64,
             t1: bv64, t2: bv64, x: bv64, y: bv64)
    requires t < 80 && Rounds(t, INITIAL, WORDS) == [a, b, c, d, e, f, g, h]
    requires Known(80) && Scheduled(t) == w && Lut(t) == k
    requires T1(e, f, g, h, k, w) == t1 && T2(a, b, c) == t2 && Plus(t1, t2) == x && Plus(d, t1) == y
    ensures Rounds(t + 1, INITIAL, WORDS) == [x, a, b, c, y, e, f, g]
  {
    hide Rounds, W, T1, T2, Plus, Lut, Scheduled;
    RoundAt(t, [a, b, c, d, e, f, g, h]);
  }

  lemma Rounds0()
    ensures Rounds(0, INITIAL, WORDS) == [
      0x6a09e667f3bcc908, 0xbb67ae8584caa73b, 0x3c6ef372fe94f82b, 0xa54ff53a5f1d36f1,
      0x510e527fade682d1, 0x9b05688c2b3e6c1f, 0x1f83d9abfb41bd6b, 0x5be0cd19137e2179]
  {
  }

  lemma Sums10()
    ensures T1(0x510e527fade682d1, 0x9b05688c2b3e6c1f, 0x1f83d9abfb41bd6b, 0x5be0cd19137e2179, 0x428a2f98d728ae22, 0x6162638000000000) == 0xb37b0cfa1b97e8a0
    ensures T2(0x6a09e667f3bcc908, 0xbb67ae8584caa73b, 0x3c6ef372fe94f82b) == 0x4334c1bea164f555
    ensures Plus(0xb37b0cfa1b97e8a0, 0x4334c1bea164f555) == 0xf6afceb8bcfcddf5 && Plus(0xa54ff53a5f1d36f1, 0xb37b0cfa1b97e8a0) == 0x58cb02347ab51f91
    ensures T1(0x58cb02347ab51f91, 0x510e527fade682d1, 0x9b05688c2b3e6c1f, 0x1f83d9abfb41bd6b, 0x7137449123ef65cd, 0) == 0x8765f88a49d017cf
    ensures T2(0xf6afceb8bcfcddf5, 0x6a09e667f3bcc908, 0xbb67ae8584caa73b) == 0x8bbb003fb1b714f1
    ensures Plus(0x8765f88a49d017cf, 0x8bbb003fb1b714f1) == 0x1320f8c9fb872cc0 && Plus(0x3c6ef372fe94f82b, 0x8765f88a49d017cf) == 0xc3d4ebfd48650ffa
    ensures T1(0xc3d4ebfd48650ffa, 0x58cb02347ab51f91, 0x510e527fade682d1, 0x9b05688c2b3e6c1f, 0xb5c0fbcfec4d3b2f, 0) == 0x244203b46d9ed0d7
    ensures T2(0x1320f8c9fb872cc0, 0xf6afceb8bcfcddf5, 0x6a09e667f3bcc908) == 0xc78df852b29ec11c
    ensures Plus(0x244203b46d9ed0d7, 0xc78df852b29ec11c) == 0xebcffc07203d91f3 && Plus(0xbb67ae8584caa73b, 0x244203b46d9ed0d7) == 0xdfa9b239f2697812
    ensures T1(0xdfa9b239f2697812, 0xc3d4ebfd48650ffa, 0x58cb02347ab51f91, 0x510e527fade682d1, 0xe9b5dba58189dbbc, 0) == 0xa13dce53256bd006
    ensures T2(0xebcffc07203d91f3, 0x1320f8c9fb872cc0, 0xf6afceb8bcfcddf5) == 0xb945fceb5a993e7c
    ensures Plus(0xa13dce53256bd006, 0xb945fceb5a993e7c) == 0x5a83cb3e80050e82 && Plus(0x6a09e667f3bcc908, 0xa13dce53256bd006) == 0x0b47b4bb1928990e
    ensures T1(0x0b47b4bb1928990e, 0xdfa9b239f2697812, 0xc3d4ebfd48650ffa, 0x58cb02347ab51f91, 0x3956c25bf348b538, 0) == 0x7daafb917731f4ed
    ensures T2(0x5a83cb3e80050e82, 0xebcffc07203d91f3, 0x1320f8c9fb872cc0) == 0x38d599a7da2e5373
    ensures Plus(0x7daafb917731f4ed, 0x38d599a7da2e5373) == 0xb680953951604860 && Plus(0xf6afceb8bcfcddf5, 0x7daafb917731f4ed) == 0x745aca4a342ed2e2
    ensures T1(0x745aca4a342ed2e2, 0x0b47b4bb1928990e, 0xdfa9b239f2697812, 0xc3d4ebfd48650ffa, 0x59f111f1b605d019, 0) == 0x83d5093fbb5508fa
    ensures T2(0xb680953951604860, 0x5a83cb3e80050e82, 0xebcffc07203d91f3) == 0x2b8231c284e980d3
    ensures Plus(0x83d5093fbb5508fa, 0x2b8231c284e980d3) == 0xaf573b02403e89cd && Plus(0x1320f8c9fb872cc0, 0x83d5093fbb5508fa) == 0x96f60209b6dc35ba
    ensures T1(0x96f60209b6dc35ba, 0x745aca4a342ed2e2, 0x0b47b4bb1928990e, 0xdfa9b239f2697812, 0x923f82a4af194f9b, 0) == 0x6e9c7c18349f2e19
    ensures T2(0xaf573b02403e89cd, 0xb680953951604860, 0x5a83cb3e80050e82) == 0x55eadef4461cd952
    ensures Plus(0x6e9c7c18349f2e19, 0x55eadef4461cd952) == 0xc4875b0c7abc076b && Plus(0xebcffc07203d91f3, 0x6e9c7c18349f2e19) == 0x5a6c781f54dcc00c
    ensures T1(0x5a6c781f54dcc00c, 0x96f60209b6dc35ba, 0x745aca4a342ed2e2, 0x0b47b4bb1928990e, 0xab1c5ed5da6d8118, 0) == 0x2c72a72520ebdd88
    ensures T2(0xc4875b0c7abc076b, 0xaf573b02403e89cd, 0xb680953951604860) == 0x54212a70bf19721b
    ensures Plus(0x2c72a72520ebdd88, 0x54212a70bf19721b) == 0x8093d195e0054fa3 && Plus(0x5a83cb3e80050e82, 0x2c72a72520ebdd88) == 0x86f67263a0f0ec0a
    ensures T1(0x86f67263a0f0ec0a, 0x5a6c781f54dcc00c, 0x96f60209b6dc35ba, 0x745aca4a342ed2e2, 0xd807aa98a3030242, 0) == 0x19bfa7003e63b7a2
    ensures T2(0x8093d195e0054fa3, 0xc4875b0c7abc076b, 0xaf573b02403e89cd) == 0xd82cfe540e54da83
    ensures Plus(0x19bfa7003e63b7a2, 0xd82cfe540e54da83) == 0xf1eca5544cb89225 && Plus(0xb680953951604860, 0x19bfa7003e63b7a2) == 0xd0403c398fc40002
    ensures T1(0xd0403c398fc40002, 0x86f67263a0f0ec0a, 0x5a6c781f54dcc00c, 0x96f60209b6dc35ba, 0x12835b0145706fbe, 0) == 0x50b1e443cba5e285
    ensures T2(0xf1eca5544cb89225, 0x8093d195e0054fa3, 0xc4875b0c7abc076b) == 0x30c64906920eac7e
    ensures Plus(0x50b1e443cba5e285, 0x30c64906920eac7e) == 0x81782d4a5db48f03 && Plus(0xaf573b02403e89cd, 0x50b1e443cba5e285) == 0x00091f460be46c52
  {
  }

  lemma Rounds10()
    ensures Rounds(10, INITIAL, WORDS) == [
      0x81782d4a5db48f03, 0xf1eca5544cb89225, 0x8093d195e0054fa3, 0xc4875b0c7abc076b,
      0x00091f460be46c52, 0xd0403c398fc40002, 0x86f67263a0f0ec0a, 0x5a6c781f54dcc00c]
  {
    hide Rounds, Known, T1, T2, Plus, WORDS, INITIAL;
    Rounds0();
    Words80();
    Sums10();
    Next(0, 0x6a09e667f3bcc908, 0xbb67ae8584caa73b, 0x3c6ef372fe94f82b, 0xa54ff53a5f1d36f1,
      0x510e527fade682d1, 0x9b05688c2b3e6c1f, 0x1f83d9abfb41bd6b, 0x5be0cd19137e2179,
      0x428a2f98d728ae22, 0x6162638000000000, 0xb37b0cfa1b97e8a0, 0x4334c1bea164f555, 0xf6afceb8bcfcddf5, 0x58cb02347ab51f91);
    Next(1, 0xf6afceb8bcfcddf5, 0x6a09e667f3bcc908, 0xbb67ae8584caa73b, 0x3c6ef372fe94f82b,
      0x58cb02347ab51f91, 0x510e527fade682d1, 0x9b05688c2b3e6c1f, 0x1f83d9abfb41bd6b,
      0x7137449123ef65cd, 0, 0x8765f88a49d017cf, 0x8bbb003fb1b714f1, 0x1320f8c9fb872cc0, 0xc3d4ebfd48650ffa);
    Next(2, 0x1320f8c9fb872cc0, 0xf6afceb8bcfcddf5, 0x6a09e667f3bcc908, 0xbb67ae8584caa73b,
      0xc3d4ebfd48650ffa, 0x58cb02347ab51f91, 0x510e527fade682d1, 0x9b05688c2b3e6c1f,
      0xb5c0fbcfec4d3b2f, 0, 0x244203b46d9ed0d7, 0xc78df852b29ec11c, 0xebcffc07203d91f3, 0xdfa9b239f2697812);
    Next(3, 0xebcffc07203d91f3, 0x1320f8c9fb872cc0, 0xf6afceb8bcfcddf5, 0x6a09e667f3bcc908,
      0xdfa9b239f2697812, 0xc3d4ebfd48650ffa, 0x58cb02347ab51f91, 0x510e527fade682d1,
      0xe9b5dba58189dbbc, 0, 0xa13dce53256bd006, 0xb945fceb5a993e7c, 0x5a83cb3e80050e82, 0x0b47b4bb1928990e);
    Next(4, 0x5a83cb3e80050e82, 0xebcffc07203d91f3, 0x1320f8c9fb872cc0, 0xf6afceb8bcfcddf5,
      0x0b47b4bb1928990e, 0xdfa9b239f2697812, 0xc3d4ebfd48650ffa, 0x58cb02347ab51f91,
      0x3956c25bf348b538, 0, 0x7daafb917731f4ed, 0x38d599a7da2e5373, 0xb680953951604860, 0x745aca4a342ed2e2);
    Next(5, 0xb680953951604860, 0x5a83cb3e80050e82, 0xebcffc07203d91f3, 0x1320f8c9fb872cc0,
      0x745aca4a342ed2e2, 0x0b47b4bb1928990e, 0xdfa9b239f2697812, 0xc3d4ebfd48650ffa,
      0x59f111f1b605d019, 0, 0x83d5093fbb5508fa, 0x2b8231c284e980d3, 0xaf573b02403e89cd, 0x96f60209b6dc35ba);
    Next(6, 0xaf573b02403e89cd, 0xb680953951604860, 0x5a83cb3e80050e82, 0xebcffc07203d91f3,
      0x96f60209b6dc35ba, 0x745aca4a342ed2e2, 0x0b47b4bb1928990e, 0xdfa9b239f2697812,
      0x923f82a4af194f9b, 0, 0x6e9c7c18349f2e19, 0x55eadef4461cd952, 0xc4875b0c7abc076b, 0x5a6c781f54dcc00c);
    Next(7, 0xc4875b0c7abc076b, 0xaf573b02403e89cd, 0xb680953951604860, 0x5a83cb3e80050e82,
      0x5a6c781f54dcc00c, 0x96f60209b6dc35ba, 0x745aca4a342ed2e2, 0x0b47b4bb1928990e,
      0xab1c5ed5da6d8118, 0, 0x2c72a72520ebdd88, 0x54212a70bf19721b, 0x8093d195e0054fa3, 0x86f67263a0f0ec0a);
    Next(8, 0x8093d195e0054fa3, 0xc4875b0c7abc076b, 0xaf573b02403e89cd, 0xb680953951604860,
      0x86f67263a0f0ec0a, 0x5a6c781f54dcc00c, 0x96f60209b6dc35ba, 0x745aca4a342ed2e2,
      0xd807aa98a3030242, 0, 0x19bfa7003e63b7a2, 0xd82cfe540e54da83, 0xf1eca5544cb89225, 0xd0403c398fc40002);
    Next(9, 0xf1eca5544cb89225, 0x8093d195e0054fa3, 0xc4875b0c7abc076b, 0xaf573b02403e89cd,
      0xd0403c398fc40002, 0x86f67263a0f0ec0a, 0x5a6c781f54dcc00c, 0x96f60209b6dc35ba,
      0x12835b0145706fbe, 0, 0x50b1e443cba5e285, 0x30c64906920eac7e, 0x81782d4a5db48f03, 0x00091f460be46c52);
  }

  lemma Sums20()
    ensures T1(0x00091f460be46c52, 0xd0403c398fc40002, 0x86f67263a0f0ec0a, 0x5a6c781f54dcc00c, 0x243185be4ee4b28c, 0) == 0x0eedec0f635f9c89
    ensures T2(0x81782d4a5db48f03, 0xf1eca5544cb89225, 0x8093d195e0054fa3) == 0x5a97603b3d92bed0
    ensures Plus(0x0eedec0f635f9c89, 0x5a97603b3d92bed0) == 0x69854c4aa0f25b59 && Plus(0xc4875b0c7abc076b, 0x0eedec0f635f9c89) == 0xd375471bde1ba3f4
    ensures T1(0xd375471bde1ba3f4, 0x00091f460be46c52, 0xd0403c398fc40002, 0x86f67263a0f0ec0a, 0x550c7dc3d5ffb4e2, 0) == 0xc6c5a4233a74f689
    ensures T2(0x69854c4aa0f25b59, 0x81782d4a5db48f03, 0xf1eca5544cb89225) == 0x1444f540bd973821
    ensures Plus(0xc6c5a4233a74f689, 0x1444f540bd973821) == 0xdb0a9963f80c2eaa && Plus(0x8093d195e0054fa3, 0xc6c5a4233a74f689) == 0x475975b91a7a462c
    ensures T1(0x475975b91a7a462c, 0xd375471bde1ba3f4, 0x00091f460be46c52, 0xd0403c398fc40002, 0x72be5d74f27b896f, 0) == 0xdc071a9e3b8737b4
    ensures T2(0xdb0a9963f80c2eaa, 0x69854c4aa0f25b59, 0x81782d4a5db48f03) == 0x823a06a54c913460
    ensures Plus(0xdc071a9e3b8737b4, 0x823a06a54c913460) == 0x5e41214388186c14 && Plus(0xf1eca5544cb89225, 0xdc071a9e3b8737b4) == 0xcdf3bff2883fc9d9
    ensures T1(0xcdf3bff2883fc9d9, 0x475975b91a7a462c, 0xd375471bde1ba3f4, 0x00091f460be46c52, 0x80deb1fe3b1696b1, 0) == 0x0492a254a205e05e
    ensures T2(0x5e41214388186c14, 0xdb0a9963f80c2eaa, 0x69854c4aa0f25b59) == 0x3f91f3dc83574c42
    ensures Plus(0x0492a254a205e05e, 0x3f91f3dc83574c42) == 0x44249631255d2ca0 && Plus(0x81782d4a5db48f03, 0x0492a254a205e05e) == 0x860acf9effba6f61
    ensures T1(0x860acf9effba6f61, 0xcdf3bff2883fc9d9, 0x475975b91a7a462c, 0xd375471bde1ba3f4, 0x9bdc06a725c71235, 0) == 0x1dc6b214c9bc43d6
    ensures T2(0x44249631255d2ca0, 0x5e41214388186c14, 0xdb0a9963f80c2eaa) == 0xdccfccd8bbe43c52
    ensures Plus(0x1dc6b214c9bc43d6, 0xdccfccd8bbe43c52) == 0xfa967eed85a08028 && Plus(0x69854c4aa0f25b59, 0x1dc6b214c9bc43d6) == 0x874bfe5f6aae9f2f
    ensures T1(0x874bfe5f6aae9f2f, 0x860acf9effba6f61, 0xcdf3bff2883fc9d9, 0x475975b91a7a462c, 0xc19bf174cf692694, 24) == 0xcc70e29f65c892b7
    ensures T2(0xfa967eed85a08028, 0x44249631255d2ca0, 0x5e41214388186c14) == 0x3e6f99e74b4f89be
    ensures Plus(0xcc70e29f65c892b7, 0x3e6f99e74b4f89be) == 0x0ae07c86b1181c75 && Plus(0xdb0a9963f80c2eaa, 0xcc70e29f65c892b7) == 0xa77b7c035dd4c161
    ensures T1(0xa77b7c035dd4c161, 0x874bfe5f6aae9f2f, 0x860acf9effba6f61, 0xcdf3bff2883fc9d9, 0xe49b69c19ef14ad2, 0x6162638000000000) == 0xcfadab27b1bde164
    ensures T2(0x0ae07c86b1181c75, 0xfa967eed85a08028, 0x44249631255d2ca0) == 0xfb4a6f1aabc223d3
    ensures Plus(0xcfadab27b1bde164, 0xfb4a6f1aabc223d3) == 0xcaf81a425d800537 && Plus(0x5e41214388186c14, 0xcfadab27b1bde164) == 0x2deecc6b39d64d78
    ensures T1(0x2deecc6b39d64d78, 0xa77b7c035dd4c161, 0x874bfe5f6aae9f2f, 0x860acf9effba6f61, 0xefbe4786384f25e3, 0x00030000000000c0) == 0xb059ed22d2a747b5
    ensures T2(0xcaf81a425d800537, 0x0ae07c86b1181c75, 0xfa967eed85a08028) == 0x96cbd101c82a56b6
    ensures Plus(0xb059ed22d2a747b5, 0x96cbd101c82a56b6) == 0x4725be249ad19e6b && Plus(0x44249631255d2ca0, 0xb059ed22d2a747b5) == 0xf47e8353f8047455
    ensures T1(0xf47e8353f8047455, 0x2deecc6b39d64d78, 0xa77b7c035dd4c161, 0x874bfe5f6aae9f2f, 0x0fc19dc68b8cd5b5, 0x0a9699a24c700003) == 0x2ed2e0eb07e15ba8
    ensures T2(0x4725be249ad19e6b, 0xcaf81a425d800537, 0x0ae07c86b1181c75) == 0x0d7860190eace333
    ensures Plus(0x2ed2e0eb07e15ba8, 0x0d7860190eace333) == 0x3c4b4104168e3edb && Plus(0xfa967eed85a08028, 0x2ed2e0eb07e15ba8) == 0x29695fd88d81dbd0
    ensures T1(0x29695fd88d81dbd0, 0xf47e8353f8047455, 0x2deecc6b39d64d78, 0xa77b7c035dd4c161, 0x240ca1cc77ac9c65, 0x00000c0060000603) == 0xe6691c56ae585a09
    ensures T2(0x3c4b4104168e3edb, 0x4725be249ad19e6b, 0xcaf81a425d800537) == 0xb3d6987cdc5e74fd
    ensures Plus(0xe6691c56ae585a09, 0xb3d6987cdc5e74fd) == 0x9a3fb4d38ab6cf06 && Plus(0x0ae07c86b1181c75, 0xe6691c56ae585a09) == 0xf14998dd5f70767e
  {
  }

  lemma Rounds20()
    ensures Rounds(20, INITIAL, WORDS) == [
      0x9a3fb4d38ab6cf06, 0x3c4b4104168e3edb, 0x4725be249ad19e6b, 0xcaf81a425d800537,
      0xf14998dd5f70767e, 0x29695fd88d81dbd0, 0xf47e8353f8047455, 0x2deecc6b39d64d78]
  {
    hide Rounds, Known, T1, T2, Plus, WORDS, INITIAL;
    Rounds10();
    Words80();
    Sums20();
    Next(10, 0x81782d4a5db48f03, 0xf1eca5544cb89225, 0x8093d195e0054fa3, 0xc4875b0c7abc076b,
      0x00091f460be46c52, 0xd0403c398fc40002, 0x86f67263a0f0ec0a, 0x5a6c781f54dcc00c,
      0x243185be4ee4b28c, 0, 0x0eedec0f635f9c89, 0x5a97603b3d92bed0, 0x69854c4aa0f25b59, 0xd375471bde1ba3f4);
    Next(11, 0x69854c4aa0f25b59, 0x81782d4a5db48f03, 0xf1eca5544cb89225, 0x8093d195e0054fa3,
      0xd375471bde1ba3f4, 0x00091f460be46c52, 0xd0403c398fc40002, 0x86f67263a0f0ec0a,
      0x550c7dc3d5ffb4e2, 0, 0xc6c5a4233a74f689, 0x1444f540bd973821, 0xdb0a9963f80c2eaa, 0x475975b91a7a462c);
    Next(12, 0xdb0a9963f80c2eaa, 0x69854c4aa0f25b59, 0x81782d4a5db48f03, 0xf1eca5544cb89225,
      0x475975b91a7a462c, 0xd375471bde1ba3f4, 0x00091f460be46c52, 0xd0403c398fc40002,
      0x72be5d74f27b896f, 0, 0xdc071a9e3b8737b4, 0x823a06a54c913460, 0x5e41214388186c14, 0xcdf3bff2883fc9d9);
    Next(13, 0x5e41214388186c14, 0xdb0a9963f80c2eaa, 0x69854c4aa0f25b59, 0x81782d4a5db48f03,
      0xcdf3bff2883fc9d9, 0x475975b91a7a462c, 0xd375471bde1ba3f4, 0x00091f460be46c52,
      0x80deb1fe3b1696b1, 0, 0x0492a254a205e05e, 0x3f91f3dc83574c42, 0x44249631255d2ca0, 0x860acf9effba6f61);
    Next(14, 0x44249631255d2ca0, 0x5e41214388186c14, 0xdb0a9963f80c2eaa, 0x69854c4aa0f25b59,
      0x860acf9effba6f61, 0xcdf3bff2883fc9d9, 0x475975b91a7a462c, 0xd375471bde1ba3f4,
      0x9bdc06a725c71235, 0, 0x1dc6b214c9bc43d6, 0xdccfccd8bbe43c52, 0xfa967eed85a08028, 0x874bfe5f6aae9f2f);
    Next(15, 0xfa967eed85a08028, 0x44249631255d2ca0, 0x5e41214388186c14, 0xdb0a9963f80c2eaa,
      0x874bfe5f6aae9f2f, 0x860acf9effba6f61, 0xcdf3bff2883fc9d9, 0x475975b91a7a462c,
      0xc19bf174cf692694, 24, 0xcc70e29f65c892b7, 0x3e6f99e74b4f89be, 0x0ae07c86b1181c75, 0xa77b7c035dd4c161);
    Next(16, 0x0ae07c86b1181c75, 0xfa967eed85a08028, 0x44249631255d2ca0, 0x5e41214388186c14,
      0xa77b7c035dd4c161, 0x874bfe5f6aae9f2f, 0x860acf9effba6f61, 0xcdf3bff2883fc9d9,
      0xe49b69c19ef14ad2, 0x6162638000000000, 0xcfadab27b1bde164, 0xfb4a6f1aabc223d3, 0xcaf81a425d800537, 0x2deecc6b39d64d78);
    Next(17, 0xcaf81a425d800537, 0x0ae07c86b1181c75, 0xfa967eed85a08028, 0x44249631255d2ca0,
      0x2deecc6b39d64d78, 0xa77b7c035dd4c161, 0x874bfe5f6aae9f2f, 0x860acf9effba6f61,
      0xefbe4786384f25e3, 0x00030000000000c0, 0xb059ed22d2a747b5, 0x96cbd101c82a56b6, 0x4725be249ad19e6b, 0xf47e8353f8047455);
    Next(18, 0x4725be249ad19e6b, 0xcaf81a425d800537, 0x0ae07c86b1181c75, 0xfa967eed85a08028,
      0xf47e8353f8047455, 0x2deecc6b39d64d78, 0xa77b7c035dd4c161, 0x874bfe5f6aae9f2f,
      0x0fc19dc68b8cd5b5, 0x0a9699a24c700003, 0x2ed2e0eb07e15ba8, 0x0d7860190eace333, 0x3c4b4104168e3edb, 0x29695fd88d81dbd0);
    Next(19, 0x3c4b4104168e3edb, 0x4725be249ad19e6b, 0xcaf81a425d800537, 0x0ae07c86b1181c75,
      0x29695fd88d81dbd0, 0xf47e8353f8047455, 0x2deecc6b39d64d78, 0xa77b7c035dd4c161,
      0x240ca1cc77ac9c65, 0x00000c0060000603, 0xe6691c56ae585a09, 0xb3d6987cdc5e74fd, 0x9a3fb4d38ab6cf06, 0xf14998dd5f70767e);
  }

  lemma Sums30()
    ensures T1(0xf14998dd5f70767e, 0x29695fd88d81dbd0, 0xf47e8353f8047455, 0x2deecc6b39d64d78, 0x2de92c6f592b0275, 0x549ef62639858996) == 0x80c1cc2ab3c5baa5
    ensures T2(0x9a3fb4d38ab6cf06, 0x3c4b4104168e3edb, 0x4725be249ad19e6b) == 0x0d03e23aa2d77db0
    ensures Plus(0x80c1cc2ab3c5baa5, 0x0d03e23aa2d77db0) == 0x8dc5ae65569d3855 && Plus(0xcaf81a425d800537, 0x80c1cc2ab3c5baa5) == 0x4bb9e66d1145bfdc
    ensures T1(0x4bb9e66d1145bfdc, 0xf14998dd5f70767e, 0x29695fd88d81dbd0, 0xf47e8353f8047455, 0x4a7484aa6ea6e483, 0x00c0003300003c00) == 0x470b40e51276e8e8
    ensures T2(0x8dc5ae65569d3855, 0x9a3fb4d38ab6cf06, 0x3c4b4104168e3edb) == 0x932995822ace44e7
    ensures Plus(0x470b40e51276e8e8, 0x932995822ace44e7) == 0xda34d6673d452dcf && Plus(0x4725be249ad19e6b, 0x470b40e51276e8e8) == 0x8e30ff09ad488753
    ensures T1(0x8e30ff09ad488753, 0x4bb9e66d1145bfdc, 0xf14998dd5f70767e, 0x29695fd88d81dbd0, 0x5cb0a9dcbd41fbd4, 0x1497007a8a0e9dbc) == 0xce777019926732eb
    ensures T2(0xda34d6673d452dcf, 0x8dc5ae65569d3855, 0x9a3fb4d38ab6cf06) == 0x6faed43ce909678d
    ensures Plus(0xce777019926732eb, 0x6faed43ce909678d) == 0x3e2644567b709a78 && Plus(0x3c4b4104168e3edb, 0xce777019926732eb) == 0x0ac2b11da8f571c6
    ensures T1(0x0ac2b11da8f571c6, 0x8e30ff09ad488753, 0x4bb9e66d1145bfdc, 0xf14998dd5f70767e, 0x76f988da831153b5, 0x62e56500cc0780f0) == 0x2c205124f2fe832d
    ensures T2(0x3e2644567b709a78, 0xda34d6673d452dcf, 0x8dc5ae65569d3855) == 0x234826909ce6d157
    ensures Plus(0x2c205124f2fe832d, 0x234826909ce6d157) == 0x4f6877b58fe55484 && Plus(0x9a3fb4d38ab6cf06, 0x2c205124f2fe832d) == 0xc66005f87db55233
    ensures T1(0xc66005f87db55233, 0x0ac2b11da8f571c6, 0x8e30ff09ad488753, 0x4bb9e66d1145bfdc, 0x983e5152ee66dfab, 0x7760dd475a538797) == 0x462742d2127ad61a
    ensures T2(0x4f6877b58fe55484, 0x3e2644567b709a78, 0xda34d6673d452dcf) == 0x54d82e442d28d326
    ensures Plus(0x462742d2127ad61a, 0x54d82e442d28d326) == 0x9aff71163fa3a940 && Plus(0x8dc5ae65569d3855, 0x462742d2127ad61a) == 0xd3ecf13769180e6f
    ensures T1(0xd3ecf13769180e6f, 0xc66005f87db55233, 0x0ac2b11da8f571c6, 0x8e30ff09ad488753, 0xa831c66d2db43210, 0xf1554b711c1c0003) == 0x93aa4970b087b567
    ensures T2(0x9aff71163fa3a940, 0x4f6877b58fe55484, 0x3e2644567b709a78) == 0x781bae21485ecc04
    ensures Plus(0x93aa4970b087b567, 0x781bae21485ecc04) == 0x0bc5f791f8e6816b && Plus(0xda34d6673d452dcf, 0x93aa4970b087b567) == 0x6ddf1fd7edcce336
    ensures T1(0x6ddf1fd7edcce336, 0xd3ecf13769180e6f, 0xc66005f87db55233, 0x0ac2b11da8f571c6, 0xb00327c898fb213f, 0xca2993a4345d9ff2) == 0xa8be48441323e8ed
    ensures T2(0x0bc5f791f8e6816b, 0x9aff71163fa3a940, 0x4f6877b58fe55484) == 0xdf8df37e68a11054
    ensures Plus(0xa8be48441323e8ed, 0xdf8df37e68a11054) == 0x884c3bc27bc4f941 && Plus(0x3e2644567b709a78, 0xa8be48441323e8ed) == 0xe6e48c9a8e948365
    ensures T1(0xe6e48c9a8e948365, 0x6ddf1fd7edcce336, 0xd3ecf13769180e6f, 0xc66005f87db55233, 0xbf597fc7beef0ee4, 0x5e0e66b5c783dd32) == 0xb99e12989574b928
    ensures T2(0x884c3bc27bc4f941, 0x0bc5f791f8e6816b, 0x9aff71163fa3a940) == 0x3116974ce1a6d3e1
    ensures Plus(0xb99e12989574b928, 0x3116974ce1a6d3e1) == 0xeab4a9e5771b8d09 && Plus(0x4f6877b58fe55484, 0xb99e12989574b928) == 0x09068a4e255a0dac
    ensures T1(0x09068a4e255a0dac, 0xe6e48c9a8e948365, 0x6ddf1fd7edcce336, 0xd3ecf13769180e6f, 0xc6e00bf33da88fc2, 0xe25a625d00494b62) == 0x74ce8880d14e6c44
    ensures T2(0xeab4a9e5771b8d09, 0x884c3bc27bc4f941, 0x0bc5f791f8e6816b) == 0x7154c0883df966c6
    ensures Plus(0x74ce8880d14e6c44, 0x7154c0883df966c6) == 0xe62349090f47d30a && Plus(0x9aff71163fa3a940, 0x74ce8880d14e6c44) == 0x0fcdf99710f21584
    ensures T1(0x0fcdf99710f21584, 0x09068a4e255a0dac, 0xe6e48c9a8e948365, 0x6ddf1fd7edcce336, 0xd5a79147930aa725, 0x9f44486fb1e4fbd2) == 0xe4e8cb6c1b516f1a
    ensures T2(0xe62349090f47d30a, 0xeab4a9e5771b8d09, 0x884c3bc27bc4f941) == 0x8fd6758c4db7dd49
    ensures Plus(0xe4e8cb6c1b516f1a, 0x8fd6758c4db7dd49) == 0x74bf40f869094c63 && Plus(0x0bc5f791f8e6816b, 0xe4e8cb6c1b516f1a) == 0xf0aec2fe1437f085
  {
  }

  lemma Rounds30()
    ensures Rounds(30, INITIAL, WORDS) == [
      0x74bf40f869094c63, 0xe62349090f47d30a, 0xeab4a9e5771b8d09, 0x884c3bc27bc4f941,
      0xf0aec2fe1437f085, 0x0fcdf99710f21584, 0x09068a4e255a0dac, 0xe6e48c9a8e948365]
  {
    hide Rounds, Known, T1, T2, Plus, WORDS, INITIAL;
    Rounds20();
    Words80();
    Sums30();
    Next(20, 0x9a3fb4d38ab6cf06, 0x3c4b4104168e3edb, 0x4725be249ad19e6b, 0xcaf81a425d800537,
      0xf14998dd5f70767e, 0x29695fd88d81dbd0, 0xf47e8353f8047455, 0x2deecc6b39d64d78,
      0x2de92c6f592b0275, 0x549ef62639858996, 0x80c1cc2ab3c5baa5, 0x0d03e23aa2d77db0, 0x8dc5ae65569d3855, 0x4bb9e66d1145bfdc);
    Next(21, 0x8dc5ae65569d3855, 0x9a3fb4d38ab6cf06, 0x3c4b4104168e3edb, 0x4725be249ad19e6b,
      0x4bb9e66d1145bfdc, 0xf14998dd5f70767e, 0x29695fd88d81dbd0, 0xf47e8353f8047455,
      0x4a7484aa6ea6e483, 0x00c0003300003c00, 0x470b40e51276e8e8, 0x932995822ace44e7, 0xda34d6673d452dcf, 0x8e30ff09ad488753);
    Next(22, 0xda34d6673d452dcf, 0x8dc5ae65569d3855, 0x9a3fb4d38ab6cf06, 0x3c4b4104168e3edb,
      0x8e30ff09ad488753, 0x4bb9e66d1145bfdc, 0xf14998dd5f70767e, 0x29695fd88d81dbd0,
      0x5cb0a9dcbd41fbd4, 0x1497007a8a0e9dbc, 0xce777019926732eb, 0x6faed43ce909678d, 0x3e2644567b709a78, 0x0ac2b11da8f571c6);
    Next(23, 0x3e2644567b709a78, 0xda34d6673d452dcf, 0x8dc5ae65569d3855, 0x9a3fb4d38ab6cf06,
      0x0ac2b11da8f571c6, 0x8e30ff09ad488753, 0x4bb9e66d1145bfdc, 0xf14998dd5f70767e,
      0x76f988da831153b5, 0x62e56500cc0780f0, 0x2c205124f2fe832d, 0x234826909ce6d157, 0x4f6877b58fe55484, 0xc66005f87db55233);
    Next(24, 0x4f6877b58fe55484, 0x3e2644567b709a78, 0xda34d6673d452dcf, 0x8dc5ae65569d3855,
      0xc66005f87db55233, 0x0ac2b11da8f571c6, 0x8e30ff09ad488753, 0x4bb9e66d1145bfdc,
      0x983e5152ee66dfab, 0x7760dd475a538797, 0x462742d2127ad61a, 0x54d82e442d28d326, 0x9aff71163fa3a940, 0xd3ecf13769180e6f);
    Next(25, 0x9aff71163fa3a940, 0x4f6877b58fe55484, 0x3e2644567b709a78, 0xda34d6673d452dcf,
      0xd3ecf13769180e6f, 0xc66005f87db55233, 0x0ac2b11da8f571c6, 0x8e30ff09ad488753,
      0xa831c66d2db43210, 0xf1554b711c1c0003, 0x93aa4970b087b567, 0x781bae21485ecc04, 0x0bc5f791f8e6816b, 0x6ddf1fd7edcce336);
    Next(26, 0x0bc5f791f8e6816b, 0x9aff71163fa3a940, 0x4f6877b58fe55484, 0x3e2644567b709a78,
      0x6ddf1fd7edcce336, 0xd3ecf13769180e6f, 0xc66005f87db55233, 0x0ac2b11da8f571c6,
      0xb00327c898fb213f, 0xca2993a4345d9ff2, 0xa8be48441323e8ed, 0xdf8df37e68a11054, 0x884c3bc27bc4f941, 0xe6e48c9a8e948365);
    Next(27, 0x884c3bc27bc4f941, 0x0bc5f791f8e6816b, 0x9aff71163fa3a940, 0x4f6877b58fe55484,
      0xe6e48c9a8e948365, 0x6ddf1fd7edcce336, 0xd3ecf13769180e6f, 0xc66005f87db55233,
      0xbf597fc7beef0ee4, 0x5e0e66b5c783dd32, 0xb99e12989574b928, 0x3116974ce1a6d3e1, 0xeab4a9e5771b8d09, 0x09068a4e255a0dac);
    Next(28, 0xeab4a9e5771b8d09, 0x884c3bc27bc4f941, 0x0bc5f791f8e6816b, 0x9aff71163fa3a940,
      0x09068a4e255a0dac, 0xe6e48c9a8e948365, 0x6ddf1fd7edcce336, 0xd3ecf13769180e6f,
      0xc6e00bf33da88fc2, 0xe25a625d00494b62, 0x74ce8880d14e6c44, 0x7154c0883df966c6, 0xe62349090f47d30a, 0x0fcdf99710f21584);
    Next(29, 0xe62349090f47d30a, 0xeab4a9e5771b8d09, 0x884c3bc27bc4f941, 0x0bc5f791f8e6816b,
      0x0fcdf99710f21584, 0x09068a4e255a0dac, 0xe6e48c9a8e948365, 0x6ddf1fd7edcce336,
      0xd5a79147930aa725, 0x9f44486fb1e4fbd2, 0xe4e8cb6c1b516f1a, 0x8fd6758c4db7dd49, 0x74bf40f869094c63, 0xf0aec2fe1437f085);
  }

  lemma Sums40()
    ensures T1(0xf0aec2fe1437f085, 0x0fcdf99710f21584, 0x09068a4e255a0dac, 0xe6e48c9a8e948365, 0x06ca6351e003826f, 0xb31b8c2b06085f2f) == 0xeb93ea169fda0562
    ensures T2(0x74bf40f869094c63, 0xe62349090f47d30a, 0xeab4a9e5771b8d09) == 0x60bbd1a0bf3e6e44
    ensures Plus(0xeb93ea169fda0562, 0x60bbd1a0bf3e6e44) == 0x4c4fbbb75f1873a6 && Plus(0x884c3bc27bc4f941, 0xeb93ea169fda0562) == 0x73e025d91b9efea3
    ensures T1(0x73e025d91b9efea3, 0xf0aec2fe1437f085, 0x0fcdf99710f21584, 0x09068a4e255a0dac, 0x142929670a0e6e70, 0x0e987660934142f6) == 0x521edefba2cc8925
    ensures T2(0x4c4fbbb75f1873a6, 0x74bf40f869094c63, 0xe62349090f47d30a) == 0xad2e60236a7a1e11
    ensures Plus(0x521edefba2cc8925, 0xad2e60236a7a1e11) == 0xff4d3f1f0d46a736 && Plus(0xeab4a9e5771b8d09, 0x521edefba2cc8925) == 0x3cd388e119e8162e
    ensures T1(0x3cd388e119e8162e, 0x73e025d91b9efea3, 0xf0aec2fe1437f085, 0x0fcdf99710f21584, 0x27b70a8546d22ffc, 0xa4af2cfd09fbb924) == 0xfadffc6a56023d65
    ensures T2(0xff4d3f1f0d46a736, 0x4c4fbbb75f1873a6, 0x74bf40f869094c63) == 0xa57093ab74068b6f
    ensures Plus(0xfadffc6a56023d65, 0xa57093ab74068b6f) == 0xa0509015ca08c8d4 && Plus(0xe62349090f47d30a, 0xfadffc6a56023d65) == 0xe1034573654a106f
    ensures T1(0xe1034573654a106f, 0x3cd388e119e8162e, 0x73e025d91b9efea3, 0xf0aec2fe1437f085, 0x2e1b21385c26c926, 0xad289e2e0bd53186) == 0x7aec7c938b72b7b7
    ensures T2(0xa0509015ca08c8d4, 0xff4d3f1f0d46a736, 0x4c4fbbb75f1873a6) == 0xe5e86a05d366682f
    ensures Plus(0x7aec7c938b72b7b7, 0xe5e86a05d366682f) == 0x60d4e6995ed91fe6 && Plus(0x74bf40f869094c63, 0x7aec7c938b72b7b7) == 0xefabbd8bf47c041a
    ensures T1(0xefabbd8bf47c041a, 0xe1034573654a106f, 0x3cd388e119e8162e, 0x73e025d91b9efea3, 0x4d2c6dfc5ac42aed, 0x3c74563aa2f9673e) == 0xc36b2ab99b5f9c2d
    ensures T2(0x60d4e6995ed91fe6, 0xa0509015ca08c8d4, 0xff4d3f1f0d46a736) == 0x68eec1bda80389f4
    ensures Plus(0xc36b2ab99b5f9c2d, 0x68eec1bda80389f4) == 0x2c59ec7743632621 && Plus(0x4c4fbbb75f1873a6, 0xc36b2ab99b5f9c2d) == 0x0fbae670fa780fd3
    ensures T1(0x0fbae670fa780fd3, 0xefabbd8bf47c041a, 0xe1034573654a106f, 0x3cd388e119e8162e, 0x53380d139d95b3df, 0x6ccdcd14cc14b53f) == 0xf14ac91042e49d97
    ensures T2(0x2c59ec7743632621, 0x60d4e6995ed91fe6, 0xa0509015ca08c8d4) == 0x28bd51ec17191e95
    ensures Plus(0xf14ac91042e49d97, 0x28bd51ec17191e95) == 0x1a081afc59fdbc2c && Plus(0xff4d3f1f0d46a736, 0xf14ac91042e49d97) == 0xf098082f502b44cd
    ensures T1(0xf098082f502b44cd, 0x0fbae670fa780fd3, 0xefabbd8bf47c041a, 0xe1034573654a106f, 0x650a73548baf63de, 0xc3f925b337f22bde) == 0xef6f400061b67da1
    ensures T2(0x1a081afc59fdbc2c, 0x2c59ec7743632621, 0x60d4e6995ed91fe6) == 0x997045b05a30f773
    ensures Plus(0xef6f400061b67da1, 0x997045b05a30f773) == 0x88df85b0bbe77514 && Plus(0xa0509015ca08c8d4, 0xef6f400061b67da1) == 0x8fbfd0162bbf4675
    ensures T1(0x8fbfd0162bbf4675, 0xf098082f502b44cd, 0x0fbae670fa780fd3, 0xefabbd8bf47c041a, 0x766a0abb3c77b2a8, 0x5bcc77a75ad95b54) == 0x05d8e908ead35bd7
    ensures T2(0x88df85b0bbe77514, 0x1a081afc59fdbc2c, 0x2c59ec7743632621) == 0xfa52cfdbe2c53990
    ensures Plus(0x05d8e908ead35bd7, 0xfa52cfdbe2c53990) == 0x002bb8e4cd989567 && Plus(0x60d4e6995ed91fe6, 0x05d8e908ead35bd7) == 0x66adcfa249ac7bbd
    ensures T1(0x66adcfa249ac7bbd, 0x8fbfd0162bbf4675, 0xf098082f502b44cd, 0x0fbae670fa780fd3, 0x81c2c92e47edaee6, 0x3ec2257adca09a52) == 0x883baa4acc8881bd
    ensures T2(0x002bb8e4cd989567, 0x88df85b0bbe77514, 0x1a081afc59fdbc2c) == 0x2b7fdaf7e6aeec28
    ensures Plus(0x883baa4acc8881bd, 0x2b7fdaf7e6aeec28) == 0xb3bb8542b3376de5 && Plus(0x2c59ec7743632621, 0x883baa4acc8881bd) == 0xb49596c20feba7de
    ensures T1(0xb49596c20feba7de, 0x66adcfa249ac7bbd, 0x8fbfd0162bbf4675, 0xf098082f502b44cd, 0x92722c851482353b, 0x28246960001fc5eb) == 0xf268ef4b606c9a4f
    ensures T2(0xb3bb8542b3376de5, 0x002bb8e4cd989567, 0x88df85b0bbe77514) == 0x9b98f1da57e937d6
    ensures Plus(0xf268ef4b606c9a4f, 0x9b98f1da57e937d6) == 0x8e01e125b855d225 && Plus(0x1a081afc59fdbc2c, 0xf268ef4b606c9a4f) == 0x0c710a47ba6a567b
  {
  }

  lemma Rounds40()
    ensures Rounds(40, INITIAL, WORDS) == [
      0x8e01e125b855d225, 0xb3bb8542b3376de5, 0x002bb8e4cd989567, 0x88df85b0bbe77514,
      0x0c710a47ba6a567b, 0xb49596c20feba7de, 0x66adcfa249ac7bbd, 0x8fbfd0162bbf4675]
  {
    hide Rounds, Known, T1, T2, Plus, WORDS, INITIAL;
    Rounds30();
    Words80();
    Sums40();
    Next(30, 0x74bf40f869094c63, 0xe62349090f47d30a, 0xeab4a9e5771b8d09, 0x884c3bc27bc4f941,
      0xf0aec2fe1437f085, 0x0fcdf99710f21584, 0x09068a4e255a0dac, 0xe6e48c9a8e948365,
      0x06ca6351e003826f, 0xb31b8c2b06085f2f, 0xeb93ea169fda0562, 0x60bbd1a0bf3e6e44, 0x4c4fbbb75f1873a6, 0x73e025d91b9efea3);
    Next(31, 0x4c4fbbb75f1873a6, 0x74bf40f869094c63, 0xe62349090f47d30a, 0xeab4a9e5771b8d09,
      0x73e025d91b9efea3, 0xf0aec2fe1437f085, 0x0fcdf99710f21584, 0x09068a4e255a0dac,
      0x142929670a0e6e70, 0x0e987660934142f6, 0x521edefba2cc8925, 0xad2e60236a7a1e11, 0xff4d3f1f0d46a736, 0x3cd388e119e8162e);
    Next(32, 0xff4d3f1f0d46a736, 0x4c4fbbb75f1873a6, 0x74bf40f869094c63, 0xe62349090f47d30a,
      0x3cd388e119e8162e, 0x73e025d91b9efea3, 0xf0aec2fe1437f085, 0x0fcdf99710f21584,
      0x27b70a8546d22ffc, 0xa4af2cfd09fbb924, 0xfadffc6a56023d65, 0xa57093ab74068b6f, 0xa0509015ca08c8d4, 0xe1034573654a106f);
    Next(33, 0xa0509015ca08c8d4, 0xff4d3f1f0d46a736, 0x4c4fbbb75f1873a6, 0x74bf40f869094c63,
      0xe1034573654a106f, 0x3cd388e119e8162e, 0x73e025d91b9efea3, 0xf0aec2fe1437f085,
      0x2e1b21385c26c926, 0xad289e2e0bd53186, 0x7aec7c938b72b7b7, 0xe5e86a05d366682f, 0x60d4e6995ed91fe6, 0xefabbd8bf47c041a);
    Next(34, 0x60d4e6995ed91fe6, 0xa0509015ca08c8d4, 0xff4d3f1f0d46a736, 0x4c4fbbb75f1873a6,
      0xefabbd8bf47c041a, 0xe1034573654a106f, 0x3cd388e119e8162e, 0x73e025d91b9efea3,
      0x4d2c6dfc5ac42aed, 0x3c74563aa2f9673e, 0xc36b2ab99b5f9c2d, 0x68eec1bda80389f4, 0x2c59ec7743632621, 0x0fbae670fa780fd3);
    Next(35, 0x2c59ec7743632621, 0x60d4e6995ed91fe6, 0xa0509015ca08c8d4, 0xff4d3f1f0d46a736,
      0x0fbae670fa780fd3, 0xefabbd8bf47c041a, 0xe1034573654a106f, 0x3cd388e119e8162e,
      0x53380d139d95b3df, 0x6ccdcd14cc14b53f, 0xf14ac91042e49d97, 0x28bd51ec17191e95, 0x1a081afc59fdbc2c, 0xf098082f502b44cd);
    Next(36, 0x1a081afc59fdbc2c, 0x2c59ec7743632621, 0x60d4e6995ed91fe6, 0xa0509015ca08c8d4,
      0xf098082f502b44cd, 0x0fbae670fa780fd3, 0xefabbd8bf47c041a, 0xe1034573654a106f,
      0x650a73548baf63de, 0xc3f925b337f22bde, 0xef6f400061b67da1, 0x997045b05a30f773, 0x88df85b0bbe77514, 0x8fbfd0162bbf4675);
    Next(37, 0x88df85b0bbe77514, 0x1a081afc59fdbc2c, 0x2c59ec7743632621, 0x60d4e6995ed91fe6,
      0x8fbfd0162bbf4675, 0xf098082f502b44cd, 0x0fbae670fa780fd3, 0xefabbd8bf47c041a,
      0x766a0abb3c77b2a8, 0x5bcc77a75ad95b54, 0x05d8e908ead35bd7, 0xfa52cfdbe2c53990, 0x002bb8e4cd989567, 0x66adcfa249ac7bbd);
    Next(38, 0x002bb8e4cd989567, 0x88df85b0bbe77514, 0x1a081afc59fdbc2c, 0x2c59ec7743632621,
      0x66adcfa249ac7bbd, 0x8fbfd0162bbf4675, 0xf098082f502b44cd, 0x0fbae670fa780fd3,
      0x81c2c92e47edaee6, 0x3ec2257adca09a52, 0x883baa4acc8881bd, 0x2b7fdaf7e6aeec28, 0xb3bb8542b3376de5, 0xb49596c20feba7de);
    Next(39, 0xb3bb8542b3376de5, 0x002bb8e4cd989567, 0x88df85b0bbe77514, 0x1a081afc59fdbc2c,
      0xb49596c20feba7de, 0x66adcfa249ac7bbd, 0x8fbfd0162bbf4675, 0xf098082f502b44cd,
      0x92722c851482353b, 0x28246960001fc5eb, 0xf268ef4b606c9a4f, 0x9b98f1da57e937d6, 0x8e01e125b855d225, 0x0c710a47ba6a567b);
  }

  lemma Sums50()
    ensures T1(0x0c710a47ba6a567b, 0xb49596c20feba7de, 0x66adcfa249ac7bbd, 0x8fbfd0162bbf4675, 0xa2bfe8a14cf10364, 0x04e33a75ce2be88a) == 0x8db08302e8d3a1f7
    ensures T2(0x8e01e125b855d225, 0xb3bb8542b3376de5, 0x002bb8e4cd989567) == 0x22649eda81983f35
    ensures Plus(0x8db08302e8d3a1f7, 0x22649eda81983f35) == 0xb01521dd6a6be12c && Plus(0x88df85b0bbe77514, 0x8db08302e8d3a1f7) == 0x169008b3a4bb170b
    ensures T1(0x169008b3a4bb170b, 0x0c710a47ba6a567b, 0xb49596c20feba7de, 0x66adcfa249ac7bbd, 0xa81a664bbc423001, 0x7d5314b3c359e0e7) == 0xf06dab551a1c774a
    ensures T2(0xb01521dd6a6be12c, 0x8e01e125b855d225, 0xb3bb8542b3376de5) == 0xf901de882eaf6107
    ensures Plus(0xf06dab551a1c774a, 0xf901de882eaf6107) == 0xe96f89dd48cbd851 && Plus(0x002bb8e4cd989567, 0xf06dab551a1c774a) == 0xf0996439e7b50cb1
    ensures T1(0xf0996439e7b50cb1, 0x169008b3a4bb170b, 0x0c710a47ba6a567b, 0xb49596c20feba7de, 0xc24b8b70d0f89791, 0xaef7a285ff251266) == 0xafe133f62e1653ab
    ensures T2(0xe96f89dd48cbd851, 0xb01521dd6a6be12c, 0x8e01e125b855d225) == 0x0c248697b7bd70d5
    ensures Plus(0xafe133f62e1653ab, 0x0c248697b7bd70d5) == 0xbc05ba8de5d3c480 && Plus(0xb3bb8542b3376de5, 0xafe133f62e1653ab) == 0x639cb938e14dc190
    ensures T1(0x639cb938e14dc190, 0xf0996439e7b50cb1, 0x169008b3a4bb170b, 0x0c710a47ba6a567b, 0xc76c51a30654be30, 0x0b8472581deea04f) == 0x3e4f1f73c7013ecd
    ensures T2(0xbc05ba8de5d3c480, 0xe96f89dd48cbd851, 0xb01521dd6a6be12c) == 0xf788c88056ee8d08
    ensures Plus(0x3e4f1f73c7013ecd, 0xf788c88056ee8d08) == 0x35d7e7f41defcbd5 && Plus(0x8e01e125b855d225, 0x3e4f1f73c7013ecd) == 0xcc5100997f5710f2
    ensures T1(0xcc5100997f5710f2, 0x639cb938e14dc190, 0xf0996439e7b50cb1, 0x169008b3a4bb170b, 0xd192e819d6ef5218, 0xb174e26eddc7b033) == 0xd578614d767caff0
    ensures T2(0x35d7e7f41defcbd5, 0xbc05ba8de5d3c480, 0xe96f89dd48cbd851) == 0xef043c0f082bf244
    ensures Plus(0xd578614d767caff0, 0xef043c0f082bf244) == 0xc47c9d5c7ea8a234 && Plus(0xb01521dd6a6be12c, 0xd578614d767caff0) == 0x858d832ae0e8911c
    ensures T1(0x858d832ae0e8911c, 0xcc5100997f5710f2, 0x639cb938e14dc190, 0xf0996439e7b50cb1, 0xd69906245565a910, 0x5d63bae58ddd88de) == 0xffeca07a0e618c88
    ensures T2(0xc47c9d5c7ea8a234, 0x35d7e7f41defcbd5, 0xbc05ba8de5d3c480) == 0x02331a619d49ce3e
    ensures Plus(0xffeca07a0e618c88, 0x02331a619d49ce3e) == 0x021fbadbabab5ac6 && Plus(0xe96f89dd48cbd851, 0xffeca07a0e618c88) == 0xe95c2a57572d64d9
    ensures T1(0xe95c2a57572d64d9, 0x858d832ae0e8911c, 0xcc5100997f5710f2, 0x639cb938e14dc190, 0xf40e35855771202a, 0x4c044007b744ccbb) == 0x0ab67ae627b9e61a
    ensures T2(0x021fbadbabab5ac6, 0xc47c9d5c7ea8a234, 0x35d7e7f41defcbd5) == 0xeb67ec406d24474d
    ensures Plus(0x0ab67ae627b9e61a, 0xeb67ec406d24474d) == 0xf61e672694de2d67 && Plus(0xbc05ba8de5d3c480, 0x0ab67ae627b9e61a) == 0xc6bc35740d8daa9a
    ensures T1(0xc6bc35740d8daa9a, 0xe95c2a57572d64d9, 0x858d832ae0e8911c, 0xcc5100997f5710f2, 0x106aa07032bbd1b8, 0xe6a9aa4d74dc7d43) == 0xff4e5b40a24afcd8
    ensures T2(0xf61e672694de2d67, 0x021fbadbabab5ac6, 0xc47c9d5c7ea8a234) == 0x6c1ba0db123801d4
    ensures Plus(0xff4e5b40a24afcd8, 0x6c1ba0db123801d4) == 0x6b69fc1bb482feac && Plus(0x35d7e7f41defcbd5, 0xff4e5b40a24afcd8) == 0x35264334c03ac8ad
    ensures T1(0x35264334c03ac8ad, 0xc6bc35740d8daa9a, 0xe95c2a57572d64d9, 0x858d832ae0e8911c, 0x19a4c116b8d2d0c8, 0xebeaf1237248019c) == 0x6298e390ed95b41c
    ensures T2(0x6b69fc1bb482feac, 0xf61e672694de2d67, 0x021fbadbabab5ac6) == 0xf4864eaca91dec2b
    ensures Plus(0x6298e390ed95b41c, 0xf4864eaca91dec2b) == 0x571f323d96b3a047 && Plus(0xc47c9d5c7ea8a234, 0x6298e390ed95b41c) == 0x271580ed6c3e5650
    ensures T1(0x271580ed6c3e5650, 0x35264334c03ac8ad, 0xc6bc35740d8daa9a, 0xe95c2a57572d64d9, 0x1e376c085141ab53, 0x361e80b2d00f3193) == 0xddc0d6ff05d78b7f
    ensures T2(0x571f323d96b3a047, 0x6b69fc1bb482feac, 0xf61e672694de2d67) == 0xecdb0163bf2d7d99
    ensures Plus(0xddc0d6ff05d78b7f, 0xecdb0163bf2d7d99) == 0xca9bd862c5050918 && Plus(0x021fbadbabab5ac6, 0xddc0d6ff05d78b7f) == 0xdfe091dab182e645
  {
  }

  lemma Rounds50()
    ensures Rounds(50, INITIAL, WORDS) == [
      0xca9bd862c5050918, 0x571f323d96b3a047, 0x6b69fc1bb482feac, 0xf61e672694de2d67,
      0xdfe091dab182e645, 0x271580ed6c3e5650, 0x35264334c03ac8ad, 0xc6bc35740d8daa9a]
  {
    hide Rounds, Known, T1, T2, Plus, WORDS, INITIAL;
    Rounds40();
    Words80();
    Sums50();
    Next(40, 0x8e01e125b855d225, 0xb3bb8542b3376de5, 0x002bb8e4cd989567, 0x88df85b0bbe77514,
      0x0c710a47ba6a567b, 0xb49596c20feba7de, 0x66adcfa249ac7bbd, 0x8fbfd0162bbf4675,
      0xa2bfe8a14cf10364, 0x04e33a75ce2be88a, 0x8db08302e8d3a1f7, 0x22649eda81983f35, 0xb01521dd6a6be12c, 0x169008b3a4bb170b);
    Next(41, 0xb01521dd6a6be12c, 0x8e01e125b855d225, 0xb3bb8542b3376de5, 0x002bb8e4cd989567,
      0x169008b3a4bb170b, 0x0c710a47ba6a567b, 0xb49596c20feba7de, 0x66adcfa249ac7bbd,
      0xa81a664bbc423001, 0x7d5314b3c359e0e7, 0xf06dab551a1c774a, 0xf901de882eaf6107, 0xe96f89dd48cbd851, 0xf0996439e7b50cb1);
    Next(42, 0xe96f89dd48cbd851, 0xb01521dd6a6be12c, 0x8e01e125b855d225, 0xb3bb8542b3376de5,
      0xf0996439e7b50cb1, 0x169008b3a4bb170b, 0x0c710a47ba6a567b, 0xb49596c20feba7de,
      0xc24b8b70d0f89791, 0xaef7a285ff251266, 0xafe133f62e1653ab, 0x0c248697b7bd70d5, 0xbc05ba8de5d3c480, 0x639cb938e14dc190);
    Next(43, 0xbc05ba8de5d3c480, 0xe96f89dd48cbd851, 0xb01521dd6a6be12c, 0x8e01e125b855d225,
      0x639cb938e14dc190, 0xf0996439e7b50cb1, 0x169008b3a4bb170b, 0x0c710a47ba6a567b,
      0xc76c51a30654be30, 0x0b8472581deea04f, 0x3e4f1f73c7013ecd, 0xf788c88056ee8d08, 0x35d7e7f41defcbd5, 0xcc5100997f5710f2);
    Next(44, 0x35d7e7f41defcbd5, 0xbc05ba8de5d3c480, 0xe96f89dd48cbd851, 0xb01521dd6a6be12c,
      0xcc5100997f5710f2, 0x639cb938e14dc190, 0xf0996439e7b50cb1, 0x169008b3a4bb170b,
      0xd192e819d6ef5218, 0xb174e26eddc7b033, 0xd578614d767caff0, 0xef043c0f082bf244, 0xc47c9d5c7ea8a234, 0x858d832ae0e8911c);
    Next(45, 0xc47c9d5c7ea8a234, 0x35d7e7f41defcbd5, 0xbc05ba8de5d3c480, 0xe96f89dd48cbd851,
      0x858d832ae0e8911c, 0xcc5100997f5710f2, 0x639cb938e14dc190, 0xf0996439e7b50cb1,
      0xd69906245565a910, 0x5d63bae58ddd88de, 0xffeca07a0e618c88, 0x02331a619d49ce3e, 0x021fbadbabab5ac6, 0xe95c2a57572d64d9);
    Next(46, 0x021fbadbabab5ac6, 0xc47c9d5c7ea8a234, 0x35d7e7f41defcbd5, 0xbc05ba8de5d3c480,
      0xe95c2a57572d64d9, 0x858d832ae0e8911c, 0xcc5100997f5710f2, 0x639cb938e14dc190,
      0xf40e35855771202a, 0x4c044007b744ccbb, 0x0ab67ae627b9e61a, 0xeb67ec406d24474d, 0xf61e672694de2d67, 0xc6bc35740d8daa9a);
    Next(47, 0xf61e672694de2d67, 0x021fbadbabab5ac6, 0xc47c9d5c7ea8a234, 0x35d7e7f41defcbd5,
      0xc6bc35740d8daa9a, 0xe95c2a57572d64d9, 0x858d832ae0e8911c, 0xcc5100997f5710f2,
      0x106aa07032bbd1b8, 0xe6a9aa4d74dc7d43, 0xff4e5b40a24afcd8, 0x6c1ba0db123801d4, 0x6b69fc1bb482feac, 0x35264334c03ac8ad);
    Next(48, 0x6b69fc1bb482feac, 0xf61e672694de2d67, 0x021fbadbabab5ac6, 0xc47c9d5c7ea8a234,
      0x35264334c03ac8ad, 0xc6bc35740d8daa9a, 0xe95c2a57572d64d9, 0x858d832ae0e8911c,
      0x19a4c116b8d2d0c8, 0xebeaf1237248019c, 0x6298e390ed95b41c, 0xf4864eaca91dec2b, 0x571f323d96b3a047, 0x271580ed6c3e5650);
    Next(49, 0x571f323d96b3a047, 0x6b69fc1bb482feac, 0xf61e672694de2d67, 0x021fbadbabab5ac6,
      0x271580ed6c3e5650, 0x35264334c03ac8ad, 0xc6bc35740d8daa9a, 0xe95c2a57572d64d9,
      0x1e376c085141ab53, 0x361e80b2d00f3193, 0xddc0d6ff05d78b7f, 0xecdb0163bf2d7d99, 0xca9bd862c5050918, 0xdfe091dab182e645);
  }

  lemma Sums60()
    ensures T1(0xdfe091dab182e645, 0x271580ed6c3e5650, 0x35264334c03ac8ad, 0xc6bc35740d8daa9a, 0x2748774cdf8eeb99, 0x2e9839125df3b175) == 0x118271c8ed3e30b3
    ensures T2(0xca9bd862c5050918, 0x571f323d96b3a047, 0x6b69fc1bb482feac) == 0x6fb7d2143f11ef90
    ensures Plus(0x118271c8ed3e30b3, 0x6fb7d2143f11ef90) == 0x813a43dd2c502043 && Plus(0xf61e672694de2d67, 0x118271c8ed3e30b3) == 0x07a0d8ef821c5e1a
    ensures T1(0x07a0d8ef821c5e1a, 0xdfe091dab182e645, 0x271580ed6c3e5650, 0x35264334c03ac8ad, 0x34b0bcb5e19b48a8, 0x3319629293ad5363) == 0xdcd5848c7a2be392
    ensures T2(0x813a43dd2c502043, 0xca9bd862c5050918, 0x571f323d96b3a047) == 0xf769fee5f8f9f9e5
    ensures Plus(0xdcd5848c7a2be392, 0xf769fee5f8f9f9e5) == 0xd43f83727325dd77 && Plus(0x6b69fc1bb482feac, 0xdcd5848c7a2be392) == 0x483f80a82eaee23e
    ensures T1(0x483f80a82eaee23e, 0x07a0d8ef821c5e1a, 0xdfe091dab182e645, 0x271580ed6c3e5650, 0x391c0cb3c5c95a63, 0x9cbc5d89ac1b89d5) == 0xf93062a66ede2fb3
    ensures T2(0xd43f83727325dd77, 0x813a43dd2c502043, 0xca9bd862c5050918) == 0x0aaeaf0cbe64b250
    ensures Plus(0xf93062a66ede2fb3, 0x0aaeaf0cbe64b250) == 0x03df11b32d42e203 && Plus(0x571f323d96b3a047, 0xf93062a66ede2fb3) == 0x504f94e40591cffa
    ensures T1(0x504f94e40591cffa, 0x483f80a82eaee23e, 0x07a0d8ef821c5e1a, 0xdfe091dab182e645, 0x4ed8aa4ae3418acb, 0x275e23ffeeca50b7) == 0xdbdc469b559cc4ea
    ensures T2(0x03df11b32d42e203, 0xd43f83727325dd77, 0x813a43dd2c502043) == 0xfa632168284241c0
    ensures Plus(0xdbdc469b559cc4ea, 0xfa632168284241c0) == 0xd63f68037ddf06aa && Plus(0xca9bd862c5050918, 0xdbdc469b559cc4ea) == 0xa6781efe1aa1ce02
    ensures T1(0xa6781efe1aa1ce02, 0x504f94e40591cffa, 0x483f80a82eaee23e, 0x07a0d8ef821c5e1a, 0x5b9cca4f7763e373, 0x3b80d680bf69ef58) == 0x1b956f3d5a8eef43
    ensures T2(0xd63f68037ddf06aa, 0x03df11b32d42e203, 0xd43f83727325dd77) == 0xdabb163e011ceb0a
    ensures Plus(0x1b956f3d5a8eef43, 0xdabb163e011ceb0a) == 0xf650857b5babda4d && Plus(0x813a43dd2c502043, 0x1b956f3d5a8eef43) == 0x9ccfb31a86df0f86
    ensures T1(0x9ccfb31a86df0f86, 0xa6781efe1aa1ce02, 0x504f94e40591cffa, 0x483f80a82eaee23e, 0x682e6ff3d6b2b8a3, 0x0d0696933945a125) == 0xf27559b8260be792
    ensures T2(0xf650857b5babda4d, 0xd63f68037ddf06aa, 0x03df11b32d42e203) == 0x713f072c013c99ec
    ensures Plus(0xf27559b8260be792, 0x713f072c013c99ec) == 0x63b460e42748817e && Plus(0xd43f83727325dd77, 0xf27559b8260be792) == 0xc6b4dd2a9931c509
    ensures T1(0xc6b4dd2a9931c509, 0x9ccfb31a86df0f86, 0xa6781efe1aa1ce02, 0x504f94e40591cffa, 0x748f82ee5defb2fc, 0x7533eabcb786ff00) == 0xcf098a0a649d29dd
    ensures T2(0x63b460e42748817e, 0xf650857b5babda4d, 0xd63f68037ddf06aa) == 0xab49071edf380128
    ensures Plus(0xcf098a0a649d29dd, 0xab49071edf380128) == 0x7a52912943d52b05 && Plus(0x03df11b32d42e203, 0xcf098a0a649d29dd) == 0xd2e89bbd91e00be0
    ensures T1(0xd2e89bbd91e00be0, 0xc6b4dd2a9931c509, 0x9ccfb31a86df0f86, 0xa6781efe1aa1ce02, 0x78a5636f43172f60, 0xb89826cee6fbf0e5) == 0x9a10f18494644b02
    ensures T2(0x7a52912943d52b05, 0x63b460e42748817e, 0xf650857b5babda4d) == 0xb170d22a35129f49
    ensures Plus(0x9a10f18494644b02, 0xb170d22a35129f49) == 0x4b81c3aec976ea4b && Plus(0xd63f68037ddf06aa, 0x9a10f18494644b02) == 0x70505988124351ac
    ensures T1(0x70505988124351ac, 0xd2e89bbd91e00be0, 0xc6b4dd2a9931c509, 0x9ccfb31a86df0f86, 0x84c87814a1f0ab72, 0x249b4fbcad623e9f) == 0x73ec1594161ce4e9
    ensures T2(0x4b81c3aec976ea4b, 0x7a52912943d52b05, 0x63b460e42748817e) == 0xe432b59f3fbff4cf
    ensures Plus(0x73ec1594161ce4e9, 0xe432b59f3fbff4cf) == 0x581ecb3355dcd9b8 && Plus(0xf650857b5babda4d, 0x73ec1594161ce4e9) == 0x6a3c9b0f71c8bf36
    ensures T1(0x6a3c9b0f71c8bf36, 0x70505988124351ac, 0xd2e89bbd91e00be0, 0xc6b4dd2a9931c509, 0x8cc702081a6439ec, 0x4aea9df2b02d6f1e) == 0xe3e36d00c5ee8514
    ensures T2(0x581ecb3355dcd9b8, 0x4b81c3aec976ea4b, 0x7a52912943d52b05) == 0x4823d78429302778
    ensures Plus(0xe3e36d00c5ee8514, 0x4823d78429302778) == 0x2c074484ef1eac8c && Plus(0x63b460e42748817e, 0xe3e36d00c5ee8514) == 0x4797cde4ed370692
  {
  }

  lemma Rounds60()
    ensures Rounds(60, INITIAL, WORDS) == [
      0x2c074484ef1eac8c, 0x581ecb3355dcd9b8, 0x4b81c3aec976ea4b, 0x7a52912943d52b05,
      0x4797cde4ed370692, 0x6a3c9b0f71c8bf36, 0x70505988124351ac, 0xd2e89bbd91e00be0]
  {
    hide Rounds, Known, T1, T2, Plus, WORDS, INITIAL;
    Rounds50();
    Words80();
    Sums60();
    Next(50, 0xca9bd862c5050918, 0x571f323d96b3a047, 0x6b69fc1bb482feac, 0xf61e672694de2d67,
      0xdfe091dab182e645, 0x271580ed6c3e5650, 0x35264334c03ac8ad, 0xc6bc35740d8daa9a,
      0x2748774cdf8eeb99, 0x2e9839125df3b175, 0x118271c8ed3e30b3, 0x6fb7d2143f11ef90, 0x813a43dd2c502043, 0x07a0d8ef821c5e1a);
    Next(51, 0x813a43dd2c502043, 0xca9bd862c5050918, 0x571f323d96b3a047, 0x6b69fc1bb482feac,
      0x07a0d8ef821c5e1a, 0xdfe091dab182e645, 0x271580ed6c3e5650, 0x35264334c03ac8ad,
      0x34b0bcb5e19b48a8, 0x3319629293ad5363, 0xdcd5848c7a2be392, 0xf769fee5f8f9f9e5, 0xd43f83727325dd77, 0x483f80a82eaee23e);
    Next(52, 0xd43f83727325dd77, 0x813a43dd2c502043, 0xca9bd862c5050918, 0x571f323d96b3a047,
      0x483f80a82eaee23e, 0x07a0d8ef821c5e1a, 0xdfe091dab182e645, 0x271580ed6c3e5650,
      0x391c0cb3c5c95a63, 0x9cbc5d89ac1b89d5, 0xf93062a66ede2fb3, 0x0aaeaf0cbe64b250, 0x03df11b32d42e203, 0x504f94e40591cffa);
    Next(53, 0x03df11b32d42e203, 0xd43f83727325dd77, 0x813a43dd2c502043, 0xca9bd862c5050918,
      0x504f94e40591cffa, 0x483f80a82eaee23e, 0x07a0d8ef821c5e1a, 0xdfe091dab182e645,
      0x4ed8aa4ae3418acb, 0x275e23ffeeca50b7, 0xdbdc469b559cc4ea, 0xfa632168284241c0, 0xd63f68037ddf06aa, 0xa6781efe1aa1ce02);
    Next(54, 0xd63f68037ddf06aa, 0x03df11b32d42e203, 0xd43f83727325dd77, 0x813a43dd2c502043,
      0xa6781efe1aa1ce02, 0x504f94e40591cffa, 0x483f80a82eaee23e, 0x07a0d8ef821c5e1a,
      0x5b9cca4f7763e373, 0x3b80d680bf69ef58, 0x1b956f3d5a8eef43, 0xdabb163e011ceb0a, 0xf650857b5babda4d, 0x9ccfb31a86df0f86);
    Next(55, 0xf650857b5babda4d, 0xd63f68037ddf06aa, 0x03df11b32d42e203, 0xd43f83727325dd77,
      0x9ccfb31a86df0f86, 0xa6781efe1aa1ce02, 0x504f94e40591cffa, 0x483f80a82eaee23e,
      0x682e6ff3d6b2b8a3, 0x0d0696933945a125, 0xf27559b8260be792, 0x713f072c013c99ec, 0x63b460e42748817e, 0xc6b4dd2a9931c509);
    Next(56, 0x63b460e42748817e, 0xf650857b5babda4d, 0xd63f68037ddf06aa, 0x03df11b32d42e203,
      0xc6b4dd2a9931c509, 0x9ccfb31a86df0f86, 0xa6781efe1aa1ce02, 0x504f94e40591cffa,
      0x748f82ee5defb2fc, 0x7533eabcb786ff00, 0xcf098a0a649d29dd, 0xab49071edf380128, 0x7a52912943d52b05, 0xd2e89bbd91e00be0);
    Next(57, 0x7a52912943d52b05, 0x63b460e42748817e, 0xf650857b5babda4d, 0xd63f68037ddf06aa,
      0xd2e89bbd91e00be0, 0xc6b4dd2a9931c509, 0x9ccfb31a86df0f86, 0xa6781efe1aa1ce02,
      0x78a5636f43172f60, 0xb89826cee6fbf0e5, 0x9a10f18494644b02, 0xb170d22a35129f49, 0x4b81c3aec976ea4b, 0x70505988124351ac);
    Next(58, 0x4b81c3aec976ea4b, 0x7a52912943d52b05, 0x63b460e42748817e, 0xf650857b5babda4d,
      0x70505988124351ac, 0xd2e89bbd91e00be0, 0xc6b4dd2a9931c509, 0x9ccfb31a86df0f86,
      0x84c87814a1f0ab72, 0x249b4fbcad623e9f, 0x73ec1594161ce4e9, 0xe432b59f3fbff4cf, 0x581ecb3355dcd9b8, 0x6a3c9b0f71c8bf36);
    Next(59, 0x581ecb3355dcd9b8, 0x4b81c3aec976ea4b, 0x7a52912943d52b05, 0x63b460e42748817e,
      0x6a3c9b0f71c8bf36, 0x70505988124351ac, 0xd2e89bbd91e00be0, 0xc6b4dd2a9931c509,
      0x8cc702081a6439ec, 0x4aea9df2b02d6f1e, 0xe3e36d00c5ee8514, 0x4823d78429302778, 0x2c074484ef1eac8c, 0x4797cde4ed370692);
  }

  lemma Sums70()
    ensures T1(0x4797cde4ed370692, 0x6a3c9b0f71c8bf36, 0x70505988124351ac, 0xd2e89bbd91e00be0, 0x90befffa23631e28, 0x2cc57475a55e8d8f) == 0x2c5cbd735bab534c
    ensures T2(0x2c074484ef1eac8c, 0x581ecb3355dcd9b8, 0x4b81c3aec976ea4b) == 0x0bfb225fa08c806e
    ensures Plus(0x2c5cbd735bab534c, 0x0bfb225fa08c806e) == 0x3857dfd2fc37d3ba && Plus(0x7a52912943d52b05, 0x2c5cbd735bab534c) == 0xa6af4e9c9f807e51
    ensures T1(0xa6af4e9c9f807e51, 0x4797cde4ed370692, 0x6a3c9b0f71c8bf36, 0x70505988124351ac, 0xa4506cebde82bde9, 0xb2574ae938d8be89) == 0xbe2d220ed7ed639a
    ensures T2(0x3857dfd2fc37d3ba, 0x2c074484ef1eac8c, 0x581ecb3355dcd9b8) == 0x11a0707d7c377f1c
    ensures Plus(0xbe2d220ed7ed639a, 0x11a0707d7c377f1c) == 0xcfcd928c5424e2b6 && Plus(0x4b81c3aec976ea4b, 0xbe2d220ed7ed639a) == 0x09aee5bda1644de5
    ensures T1(0x09aee5bda1644de5, 0xa6af4e9c9f807e51, 0x4797cde4ed370692, 0x6a3c9b0f71c8bf36, 0xbef9a3f7b2c67915, 0xc1b35a57b16d6aea) == 0x2be6bd32802d2c42
    ensures T2(0xcfcd928c5424e2b6, 0x3857dfd2fc37d3ba, 0x2c074484ef1eac8c) == 0x7c3730891eecba01
    ensures Plus(0x2be6bd32802d2c42, 0x7c3730891eecba01) == 0xa81dedbb9f19e643 && Plus(0x581ecb3355dcd9b8, 0x2be6bd32802d2c42) == 0x84058865d60a05fa
    ensures T1(0x84058865d60a05fa, 0x09aee5bda1644de5, 0xa6af4e9c9f807e51, 0x4797cde4ed370692, 0xc67178f2e372532b, 0xcc4918b5949206bb) == 0xa180da60ad880fc7
    ensures T2(0xa81dedbb9f19e643, 0xcfcd928c5424e2b6, 0x3857dfd2fc37d3ba) == 0x09c40e01c8bf7dbe
    ensures Plus(0xa180da60ad880fc7, 0x09c40e01c8bf7dbe) == 0xab44e86276478d85 && Plus(0x2c074484ef1eac8c, 0xa180da60ad880fc7) == 0xcd881ee59ca6bc53
    ensures T1(0xcd881ee59ca6bc53, 0x84058865d60a05fa, 0x09aee5bda1644de5, 0xa6af4e9c9f807e51, 0xca273eceea26619c, 0x5099c3add79f90ec) == 0x722cd0b36c52888b
    ensures T2(0xab44e86276478d85, 0xa81dedbb9f19e643, 0xcfcd928c5424e2b6) == 0xe8539ccb2bcf1c76
    ensures Plus(0x722cd0b36c52888b, 0xe8539ccb2bcf1c76) == 0x5a806d7e9821a501 && Plus(0x3857dfd2fc37d3ba, 0x722cd0b36c52888b) == 0xaa84b086688a5c45
    ensures T1(0xaa84b086688a5c45, 0xcd881ee59ca6bc53, 0x84058865d60a05fa, 0x09aee5bda1644de5, 0xd186b8c721c0c207, 0x5ea81d78e7660bf1) == 0x6b925a8115fab42b
    ensures T2(0x5a806d7e9821a501, 0xab44e86276478d85, 0xa81dedbb9f19e643) == 0x8327679a9a15716d
    ensures Plus(0x6b925a8115fab42b, 0x8327679a9a15716d) == 0xeeb9c21bb0102598 && Plus(0xcfcd928c5424e2b6, 0x6b925a8115fab42b) == 0x3b5fed0d6a1f96e1
    ensures T1(0x3b5fed0d6a1f96e1, 0xaa84b086688a5c45, 0xcd881ee59ca6bc53, 0x84058865d60a05fa, 0xeada7dd6cde0eb1e, 0xebee6267405ac2a9) == 0x81dcc7ec20db4d23
    ensures T2(0xeeb9c21bb0102598, 0x5a806d7e9821a501, 0xab44e86276478d85) == 0xc4e7591e91f0c83a
    ensures Plus(0x81dcc7ec20db4d23, 0xc4e7591e91f0c83a) == 0x46c4210ab2cc155d && Plus(0xa81dedbb9f19e643, 0x81dcc7ec20db4d23) == 0x29fab5a7bff53366
    ensures T1(0x29fab5a7bff53366, 0x3b5fed0d6a1f96e1, 0xaa84b086688a5c45, 0xcd881ee59ca6bc53, 0xf57d4f7fee6ed178, 0xb01f21926108a4ab) == 0x71220c0b1f217e4a
    ensures T2(0x46c4210ab2cc155d, 0xeeb9c21bb0102598, 0x5a806d7e9821a501) == 0xe39829c4377eb5c4
    ensures Plus(0x71220c0b1f217e4a, 0xe39829c4377eb5c4) == 0x54ba35cf56a0340e && Plus(0xab44e86276478d85, 0x71220c0b1f217e4a) == 0x1c66f46d95690bcf
    ensures T1(0x1c66f46d95690bcf, 0x29fab5a7bff53366, 0x3b5fed0d6a1f96e1, 0xaa84b086688a5c45, 0x06f067aa72176fba, 0x786433dd2fe65556) == 0xb05a0b3b9522bc3f
    ensures T2(0x54ba35cf56a0340e, 0x46c4210ab2cc155d, 0xeeb9c21bb0102598) == 0x67be2e9a74a4db09
    ensures Plus(0xb05a0b3b9522bc3f, 0x67be2e9a74a4db09) == 0x181839d609c79748 && Plus(0x5a806d7e9821a501, 0xb05a0b3b9522bc3f) == 0x0ada78ba2d446140
    ensures T1(0x0ada78ba2d446140, 0x1c66f46d95690bcf, 0x29fab5a7bff53366, 0x3b5fed0d6a1f96e1, 0x0a637dc5a2c898a6, 0xc54a6eaa24a0552c) == 0xf4b75a9aa63ceb95
    ensures T2(0x181839d609c79748, 0x54ba35cf56a0340e, 0x46c4210ab2cc155d) == 0x06b3504b2a79b8b2
    ensures Plus(0xf4b75a9aa63ceb95, 0x06b3504b2a79b8b2) == 0xfb6aaae5d0b6a447 && Plus(0xeeb9c21bb0102598, 0xf4b75a9aa63ceb95) == 0xe3711cb6564d112d
  {
  }

  lemma Rounds70()
    ensures Rounds(70, INITIAL, WORDS) == [
      0xfb6aaae5d0b6a447, 0x181839d609c79748, 0x54ba35cf56a0340e, 0x46c4210ab2cc155d,
      0xe3711cb6564d112d, 0x0ada78ba2d446140, 0x1c66f46d95690bcf, 0x29fab5a7bff53366]
  {
    hide Rounds, Known, T1, T2, Plus, WORDS, INITIAL;
    Rounds60();
    Words80();
    Sums70();
    Next(60, 0x2c074484ef1eac8c, 0x581ecb3355dcd9b8, 0x4b81c3aec976ea4b, 0x7a52912943d52b05,
      0x4797cde4ed370692, 0x6a3c9b0f71c8bf36, 0x70505988124351ac, 0xd2e89bbd91e00be0,
      0x90befffa23631e28, 0x2cc57475a55e8d8f, 0x2c5cbd735bab534c, 0x0bfb225fa08c806e, 0x3857dfd2fc37d3ba, 0xa6af4e9c9f807e51);
    Next(61, 0x3857dfd2fc37d3ba, 0x2c074484ef1eac8c, 0x581ecb3355dcd9b8, 0x4b81c3aec976ea4b,
      0xa6af4e9c9f807e51, 0x4797cde4ed370692, 0x6a3c9b0f71c8bf36, 0x70505988124351ac,
      0xa4506cebde82bde9, 0xb2574ae938d8be89, 0xbe2d220ed7ed639a, 0x11a0707d7c377f1c, 0xcfcd928c5424e2b6, 0x09aee5bda1644de5);
    Next(62, 0xcfcd928c5424e2b6, 0x3857dfd2fc37d3ba, 0x2c074484ef1eac8c, 0x581ecb3355dcd9b8,
      0x09aee5bda1644de5, 0xa6af4e9c9f807e51, 0x4797cde4ed370692, 0x6a3c9b0f71c8bf36,
      0xbef9a3f7b2c67915, 0xc1b35a57b16d6aea, 0x2be6bd32802d2c42, 0x7c3730891eecba01, 0xa81dedbb9f19e643, 0x84058865d60a05fa);
    Next(63, 0xa81dedbb9f19e643, 0xcfcd928c5424e2b6, 0x3857dfd2fc37d3ba, 0x2c074484ef1eac8c,
      0x84058865d60a05fa, 0x09aee5bda1644de5, 0xa6af4e9c9f807e51, 0x4797cde4ed370692,
      0xc67178f2e372532b, 0xcc4918b5949206bb, 0xa180da60ad880fc7, 0x09c40e01c8bf7dbe, 0xab44e86276478d85, 0xcd881ee59ca6bc53);
    Next(64, 0xab44e86276478d85, 0xa81dedbb9f19e643, 0xcfcd928c5424e2b6, 0x3857dfd2fc37d3ba,
      0xcd881ee59ca6bc53, 0x84058865d60a05fa, 0x09aee5bda1644de5, 0xa6af4e9c9f807e51,
      0xca273eceea26619c, 0x5099c3add79f90ec, 0x722cd0b36c52888b, 0xe8539ccb2bcf1c76, 0x5a806d7e9821a501, 0xaa84b086688a5c45);
    Next(65, 0x5a806d7e9821a501, 0xab44e86276478d85, 0xa81dedbb9f19e643, 0xcfcd928c5424e2b6,
      0xaa84b086688a5c45, 0xcd881ee59ca6bc53, 0x84058865d60a05fa, 0x09aee5bda1644de5,
      0xd186b8c721c0c207, 0x5ea81d78e7660bf1, 0x6b925a8115fab42b, 0x8327679a9a15716d, 0xeeb9c21bb0102598, 0x3b5fed0d6a1f96e1);
    Next(66, 0xeeb9c21bb0102598, 0x5a806d7e9821a501, 0xab44e86276478d85, 0xa81dedbb9f19e643,
      0x3b5fed0d6a1f96e1, 0xaa84b086688a5c45, 0xcd881ee59ca6bc53, 0x84058865d60a05fa,
      0xeada7dd6cde0eb1e, 0xebee6267405ac2a9, 0x81dcc7ec20db4d23, 0xc4e7591e91f0c83a, 0x46c4210ab2cc155d, 0x29fab5a7bff53366);
    Next(67, 0x46c4210ab2cc155d, 0xeeb9c21bb0102598, 0x5a806d7e9821a501, 0xab44e86276478d85,
      0x29fab5a7bff53366, 0x3b5fed0d6a1f96e1, 0xaa84b086688a5c45, 0xcd881ee59ca6bc53,
      0xf57d4f7fee6ed178, 0xb01f21926108a4ab, 0x71220c0b1f217e4a, 0xe39829c4377eb5c4, 0x54ba35cf56a0340e, 0x1c66f46d95690bcf);
    Next(68, 0x54ba35cf56a0340e, 0x46c4210ab2cc155d, 0xeeb9c21bb0102598, 0x5a806d7e9821a501,
      0x1c66f46d95690bcf, 0x29fab5a7bff53366, 0x3b5fed0d6a1f96e1, 0xaa84b086688a5c45,
      0x06f067aa72176fba, 0x786433dd2fe65556, 0xb05a0b3b9522bc3f, 0x67be2e9a74a4db09, 0x181839d609c79748, 0x0ada78ba2d446140);
    Next(69, 0x181839d609c79748, 0x54ba35cf56a0340e, 0x46c4210ab2cc155d, 0xeeb9c21bb0102598,
      0x0ada78ba2d446140, 0x1c66f46d95690bcf, 0x29fab5a7bff53366, 0x3b5fed0d6a1f96e1,
      0x0a637dc5a2c898a6, 0xc54a6eaa24a0552c, 0xf4b75a9aa63ceb95, 0x06b3504b2a79b8b2, 0xfb6aaae5d0b6a447, 0xe3711cb6564d112d);
  }

  lemma Sums80()
    ensures T1(0xe3711cb6564d112d, 0x0ada78ba2d446140, 0x1c66f46d95690bcf, 0x29fab5a7bff53366, 0x113f9804bef90dae, 0xb3c8f1530bdbaa9e) == 0x69320b8bb3336b9d
    ensures T2(0xfb6aaae5d0b6a447, 0x181839d609c79748, 0x54ba35cf56a0340e) == 0x0d20b9ee182d85ff
    ensures Plus(0x69320b8bb3336b9d, 0x0d20b9ee182d85ff) == 0x7652c579cb60f19c && Plus(0x46c4210ab2cc155d, 0x69320b8bb3336b9d) == 0xaff62c9665ff80fa
    ensures T1(0xaff62c9665ff80fa, 0xe3711cb6564d112d, 0x0ada78ba2d446140, 0x1c66f46d95690bcf, 0x1b710b35131c471b, 0xbb8abfe56f469338) == 0x3fc2082ba8453ce1
    ensures T2(0x7652c579cb60f19c, 0xfb6aaae5d0b6a447, 0x181839d609c79748) == 0xb19c8e390a3af894
    ensures Plus(0x3fc2082ba8453ce1, 0xb19c8e390a3af894) == 0xf15e9664b2803575 && Plus(0x54ba35cf56a0340e, 0x3fc2082ba8453ce1) == 0x947c3dfafee570ef
    ensures T1(0x947c3dfafee570ef, 0xaff62c9665ff80fa, 0xe3711cb6564d112d, 0x0ada78ba2d446140, 0x28db77f523047d84, 0xf63d4265cc1c5a78) == 0x7463260310b1b558
    ensures T2(0xf15e9664b2803575, 0x7652c579cb60f19c, 0xfb6aaae5d0b6a447) == 0xc120e0ce54fd3453
    ensures Plus(0x7463260310b1b558, 0xc120e0ce54fd3453) == 0x358406d165aee9ab && Plus(0x181839d609c79748, 0x7463260310b1b558) == 0x8c7b5fd91a794ca0
    ensures T1(0x8c7b5fd91a794ca0, 0x947c3dfafee570ef, 0xaff62c9665ff80fa, 0xe3711cb6564d112d, 0x32caab7b40c72493, 0xbe8355ea73129afb) == 0x09e28a5082e2a489
    ensures T2(0x358406d165aee9ab, 0xf15e9664b2803575, 0x7652c579cb60f19c) == 0x16a5037ca6eb566c
    ensures Plus(0x09e28a5082e2a489, 0x16a5037ca6eb566c) == 0x20878dcd29cdfaf5 && Plus(0xfb6aaae5d0b6a447, 0x09e28a5082e2a489) == 0x054d3536539948d0
    ensures T1(0x054d3536539948d0, 0x8c7b5fd91a794ca0, 0x947c3dfafee570ef, 0xaff62c9665ff80fa, 0x3c9ebe0a15c9bebc, 0x49e2db8ebdcfbeb5) == 0xb54ebccbe9acf333
    ensures T2(0x20878dcd29cdfaf5, 0x358406d165aee9ab, 0xf15e9664b2803575) == 0x7e85d0dfcba52aaf
    ensures Plus(0xb54ebccbe9acf333, 0x7e85d0dfcba52aaf) == 0x33d48dabb5521de2 && Plus(0x7652c579cb60f19c, 0xb54ebccbe9acf333) == 0x2ba18245b50de4cf
    ensures T1(0x2ba18245b50de4cf, 0x054d3536539948d0, 0x8c7b5fd91a794ca0, 0x947c3dfafee570ef, 0x431d67c49c100d4c, 0x82269d4a883a3d99) == 0xa7f183424cbb6e69
    ensures T2(0x33d48dabb5521de2, 0x20878dcd29cdfaf5, 0x358406d165aee9ab) == 0x20a48b299ba94aad
    ensures Plus(0xa7f183424cbb6e69, 0x20a48b299ba94aad) == 0xc8960e6be864b916 && Plus(0xf15e9664b2803575, 0xa7f183424cbb6e69) == 0x995019a6ff3ba3de
    ensures T1(0x995019a6ff3ba3de, 0x2ba18245b50de4cf, 0x054d3536539948d0, 0x8c7b5fd91a794ca0, 0x4cc5d4becb3e42b6, 0xfdf53df3011f362b) == 0x9935f5652c1f997b
    ensures T2(0xc8960e6be864b916, 0x33d48dabb5521de2, 0x20878dcd29cdfaf5) == 0xcc190446c019032e
    ensures Plus(0x9935f5652c1f997b, 0xcc190446c019032e) == 0x654ef9abec389ca9 && Plus(0x358406d165aee9ab, 0x9935f5652c1f997b) == 0xceb9fc3691ce8326
    ensures T1(0xceb9fc3691ce8326, 0x995019a6ff3ba3de, 0x2ba18245b50de4cf, 0x054d3536539948d0, 0x597f299cfc657e2a, 0x464af5671d71c12e) == 0x0541dcaa3f2d2fae
    ensures T2(0x654ef9abec389ca9, 0xc8960e6be864b916, 0x33d48dabb5521de2) == 0xd1362a314be756c9
    ensures Plus(0x0541dcaa3f2d2fae, 0xd1362a314be756c9) == 0xd67806db8b148677 && Plus(0x20878dcd29cdfaf5, 0x0541dcaa3f2d2fae) == 0x25c96a7768fb2aa3
    ensures T1(0x25c96a7768fb2aa3, 0xceb9fc3691ce8326, 0x995019a6ff3ba3de, 0x2ba18245b50de4cf, 0x5fcb6fab3ad6faec, 0xe449b68198ec611c) == 0x67e045ebc36e61bc
    ensures T2(0xd67806db8b148677, 0x654ef9abec389ca9, 0xc8960e6be864b916) == 0xa8f97ed865e7383a
    ensures Plus(0x67e045ebc36e61bc, 0xa8f97ed865e7383a) == 0x10d9c4c4295599f6 && Plus(0x33d48dabb5521de2, 0x67e045ebc36e61bc) == 0x9bb4d39778c07f9e
    ensures T1(0x9bb4d39778c07f9e, 0x25c96a7768fb2aa3, 0xceb9fc3691ce8326, 0x995019a6ff3ba3de, 0x6c44198c4a475817, 0x92aeeed1a7bcf7d2) == 0x07ee383e910485c1
    ensures T2(0x10d9c4c4295599f6, 0xd67806db8b148677, 0x654ef9abec389ca9) == 0x6bb716fb0ea02bf1
    ensures Plus(0x07ee383e910485c1, 0x6bb716fb0ea02bf1) == 0x73a54f399fa4b1b2 && Plus(0xc8960e6be864b916, 0x07ee383e910485c1) == 0xd08446aa79693ed7
  {
  }

  lemma Rounds80()
    ensures Rounds(80, INITIAL, WORDS) == [
      0x73a54f399fa4b1b2, 0x10d9c4c4295599f6, 0xd67806db8b148677, 0x654ef9abec389ca9,
      0xd08446aa79693ed7, 0x9bb4d39778c07f9e, 0x25c96a7768fb2aa3, 0xceb9fc3691ce8326]
  {
    hide Rounds, Known, T1, T2, Plus, WORDS, INITIAL;
    Rounds70();
    Words80();
    Sums80();
    Next(70, 0xfb6aaae5d0b6a447, 0x181839d609c79748, 0x54ba35cf56a0340e, 0x46c4210ab2cc155d,
      0xe3711cb6564d112d, 0x0ada78ba2d446140, 0x1c66f46d95690bcf, 0x29fab5a7bff53366,
      0x113f9804bef90dae, 0xb3c8f1530bdbaa9e, 0x69320b8bb3336b9d, 0x0d20b9ee182d85ff, 0x7652c579cb60f19c, 0xaff62c9665ff80fa);
    Next(71, 0x7652c579cb60f19c, 0xfb6aaae5d0b6a447, 0x181839d609c79748, 0x54ba35cf56a0340e,
      0xaff62c9665ff80fa, 0xe3711cb6564d112d, 0x0ada78ba2d446140, 0x1c66f46d95690bcf,
      0x1b710b35131c471b, 0xbb8abfe56f469338, 0x3fc2082ba8453ce1, 0xb19c8e390a3af894, 0xf15e9664b2803575, 0x947c3dfafee570ef);
    Next(72, 0xf15e9664b2803575, 0x7652c579cb60f19c, 0xfb6aaae5d0b6a447, 0x181839d609c79748,
      0x947c3dfafee570ef, 0xaff62c9665ff80fa, 0xe3711cb6564d112d, 0x0ada78ba2d446140,
      0x28db77f523047d84, 0xf63d4265cc1c5a78, 0x7463260310b1b558, 0xc120e0ce54fd3453, 0x358406d165aee9ab, 0x8c7b5fd91a794ca0);
    Next(73, 0x358406d165aee9ab, 0xf15e9664b2803575, 0x7652c579cb60f19c, 0xfb6aaae5d0b6a447,
      0x8c7b5fd91a794ca0, 0x947c3dfafee570ef, 0xaff62c9665ff80fa, 0xe3711cb6564d112d,
      0x32caab7b40c72493, 0xbe8355ea73129afb, 0x09e28a5082e2a489, 0x16a5037ca6eb566c, 0x20878dcd29cdfaf5, 0x054d3536539948d0);
    Next(74, 0x20878dcd29cdfaf5, 0x358406d165aee9ab, 0xf15e9664b2803575, 0x7652c579cb60f19c,
      0x054d3536539948d0, 0x8c7b5fd91a794ca0, 0x947c3dfafee570ef, 0xaff62c9665ff80fa,
      0x3c9ebe0a15c9bebc, 0x49e2db8ebdcfbeb5, 0xb54ebccbe9acf333, 0x7e85d0dfcba52aaf, 0x33d48dabb5521de2, 0x2ba18245b50de4cf);
    Next(75, 0x33d48dabb5521de2, 0x20878dcd29cdfaf5, 0x358406d165aee9ab, 0xf15e9664b2803575,
      0x2ba18245b50de4cf, 0x054d3536539948d0, 0x8c7b5fd91a794ca0, 0x947c3dfafee570ef,
      0x431d67c49c100d4c, 0x82269d4a883a3d99, 0xa7f183424cbb6e69, 0x20a48b299ba94aad, 0xc8960e6be864b916, 0x995019a6ff3ba3de);
    Next(76, 0xc8960e6be864b916, 0x33d48dabb5521de2, 0x20878dcd29cdfaf5, 0x358406d165aee9ab,
      0x995019a6ff3ba3de, 0x2ba18245b50de4cf, 0x054d3536539948d0, 0x8c7b5fd91a794ca0,
      0x4cc5d4becb3e42b6, 0xfdf53df3011f362b, 0x9935f5652c1f997b, 0xcc190446c019032e, 0x654ef9abec389ca9, 0xceb9fc3691ce8326);
    Next(77, 0x654ef9abec389ca9, 0xc8960e6be864b916, 0x33d48dabb5521de2, 0x20878dcd29cdfaf5,
      0xceb9fc3691ce8326, 0x995019a6ff3ba3de, 0x2ba18245b50de4cf, 0x054d3536539948d0,
      0x597f299cfc657e2a, 0x464af5671d71c12e, 0x0541dcaa3f2d2fae, 0xd1362a314be756c9, 0xd67806db8b148677, 0x25c96a7768fb2aa3);
    Next(78, 0xd67806db8b148677, 0x654ef9abec389ca9, 0xc8960e6be864b916, 0x33d48dabb5521de2,
      0x25c96a7768fb2aa3, 0xceb9fc3691ce8326, 0x995019a6ff3ba3de, 0x2ba18245b50de4cf,
      0x5fcb6fab3ad6faec, 0xe449b68198ec611c, 0x67e045ebc36e61bc, 0xa8f97ed865e7383a, 0x10d9c4c4295599f6, 0x9bb4d39778c07f9e);
    Next(79, 0x10d9c4c4295599f6, 0xd67806db8b148677, 0x654ef9abec389ca9, 0xc8960e6be864b916,
      0x9bb4d39778c07f9e, 0x25c96a7768fb2aa3, 0xceb9fc3691ce8326, 0x995019a6ff3ba3de,
      0x6c44198c4a475817, 0x92aeeed1a7bcf7d2, 0x07ee383e910485c1, 0x6bb716fb0ea02bf1, 0x73a54f399fa4b1b2, 0xd08446aa79693ed7);
  }

  /** The digest ddaf35a1 93617aba cc417349 ae204131 12e6fa4e 89a97ea2 0a9eeee6 4b55d39a 2192992a 274fc1a8 ... */
  lemma AbcDigest()
    ensures Sha512.Sha512(ABC) == [
      0xddaf35a193617aba, 0xcc417349ae204131, 0x12e6fa4e89a97ea2, 0x0a9eeee64b55d39a,
      0x2192992a274fc1a8, 0x36ba3c23a3feebbd, 0x454d4423643ce80e, 0x2a9ac94fa54ca49f]
  {
    Rounds80();
    AbcPadded();
    AbcSum();
    hide Rounds, Words, Padded, INITIAL, AddState;
    var p := Padded(ABC);
    assert p[0..128] == p;
    assert Chain(INITIAL, p, 0) == INITIAL;
    assert Chain(INITIAL, p, 1) == Compress(INITIAL, p[0..128]);
  }

  lemma AbcSum()
    ensures AddState(INITIAL, [
      0x73a54f399fa4b1b2, 0x10d9c4c4295599f6, 0xd67806db8b148677, 0x654ef9abec389ca9,
      0xd08446aa79693ed7, 0x9bb4d39778c07f9e, 0x25c96a7768fb2aa3, 0xceb9fc3691ce8326]) == [
      0xddaf35a193617aba, 0xcc417349ae204131, 0x12e6fa4e89a97ea2, 0x0a9eeee64b55d39a,
      0x2192992a274fc1a8, 0x36ba3c23a3feebbd, 0x454d4423643ce80e, 0x2a9ac94fa54ca49f]
  {
    AbcSums();
    hide Plus;
  }

  lemma AbcSums()
    ensures Plus(0x6a09e667f3bcc908, 0x73a54f399fa4b1b2) == 0xddaf35a193617aba
    ensures Plus(0xbb67ae8584caa73b, 0x10d9c4c4295599f6) == 0xcc417349ae204131
    ensures Plus(0x3c6ef372fe94f82b, 0xd67806db8b148677) == 0x12e6fa4e89a97ea2
    ensures Plus(0xa54ff53a5f1d36f1, 0x654ef9abec389ca9) == 0x0a9eeee64b55d39a
    ensures Plus(0x510e527fade682d1, 0xd08446aa79693ed7) == 0x2192992a274fc1a8
    ensures Plus(0x9b05688c2b3e6c1f, 0x9bb4d39778c07f9e) == 0x36ba3c23a3feebbd
    ensures Plus(0x1f83d9abfb41bd6b, 0x25c96a7768fb2aa3) == 0x454d4423643ce80e
    ensures Plus(0x5be0cd19137e2179, 0xceb9fc3691ce8326) == 0x2a9ac94fa54ca49f
  {
  }
}
