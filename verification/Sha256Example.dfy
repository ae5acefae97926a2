/**
 The worked example of the standard: the hash of "abc", one block, word by word and round by
 round as it comes out of the definitions.
 */
module Sha256Example {
  import Arithmetic
  import opened Sha256

  const ABC: seq<bv8> := [0x61, 0x62, 0x63]

  /** "abc" padded: one block. */
  ghost predicate IsBlock(b: seq<bv8>) {
    && |b| == 64 && b[0] == 0x61 && b[1] == 0x62 && b[2] == 0x63 && b[3] == 0x80 && b[63] == 0x18
    && forall i | 4 <= i < 63 :: b[i] == 0
  }

  lemma BytesOf24()
    ensures Bytes64(24) == [0, 0, 0, 0, 0, 0, 0, 24]
  {
  }

  lemma CountOfThree()
    ensures BitCount(3) == 24
  {
    assert 8 * 3 % Arithmetic.TWO64 == 24;
  }

  lemma LengthOfThree()
    ensures LengthBytes(3) == [0, 0, 0, 0, 0, 0, 0, 24]
  {
    BytesOf24();
    CountOfThree();
    hide BitCount, Bytes64;
  }

  lemma PaddedIsBlock()
    ensures IsBlock(Padded(ABC))
  {
    LengthOfThree();
    assert ZeroCount(3) == 52;
    hide ZeroCount, LengthBytes;
  }

  lemma FirstWords(b: seq<bv8>)
    requires IsBlock(b)
    ensures W(b, 0) == 0x61626380 && W(b, 15) == 0x18 && forall t | 1 <= t <= 14 :: W(b, t) == 0
  {
    hide W;
    forall t | 0 <= t < 16
      ensures W(b, t) == if t == 0 then 0x61626380 else if t == 15 then 0x18 else 0
    {
      WFirst(b, t);
    }
  }

  lemma NextWord(b: seq<bv8>, t: nat, w16: bv32, w15: bv32, w7: bv32, w2: bv32, w: bv32)
    requires 16 <= t < 64 && |b| == 64
    requires W(b, t - 16) == w16 && W(b, t - 15) == w15 && W(b, t - 7) == w7 && W(b, t - 2) == w2
    requires Sum4(w16, SmallSigma0(w15), w7, SmallSigma1(w2)) == w
    ensures W(b, t) == w
  {
    WNext(b, t);
    hide W, Sum4, SmallSigma0, SmallSigma1;
  }

  lemma Words24(b: seq<bv8>)
    requires IsBlock(b)
    ensures W(b, 16) == 0x61626380 && W(b, 17) == 0x000f0000 && W(b, 18) == 0x7da86405 && W(b, 19) == 0x600003c6
    ensures W(b, 20) == 0x3e9d7b78 && W(b, 21) == 0x0183fc00 && W(b, 22) == 0x12dcbfdb && W(b, 23) == 0xe2e2c38e
  {
    FirstWords(b);
    assert |b| == 64;
    hide W, IsBlock;
    NextWord(b, 16, 0x61626380, 0x00000000, 0x00000000, 0x00000000, 0x61626380);
    NextWord(b, 17, 0x00000000, 0x00000000, 0x00000000, 0x00000018, 0x000f0000);
    NextWord(b, 18, 0x00000000, 0x00000000, 0x00000000, 0x61626380, 0x7da86405);
    NextWord(b, 19, 0x00000000, 0x00000000, 0x00000000, 0x000f0000, 0x600003c6);
    NextWord(b, 20, 0x00000000, 0x00000000, 0x00000000, 0x7da86405, 0x3e9d7b78);
    NextWord(b, 21, 0x00000000, 0x00000000, 0x00000000, 0x600003c6, 0x0183fc00);
    NextWord(b, 22, 0x00000000, 0x00000000, 0x00000018, 0x3e9d7b78, 0x12dcbfdb);
    NextWord(b, 23, 0x00000000, 0x00000000, 0x61626380, 0x0183fc00, 0xe2e2c38e);
  }

  lemma Words32(b: seq<bv8>)
    requires IsBlock(b)
    ensures W(b, 24) == 0xc8215c1a && W(b, 25) == 0xb73679a2 && W(b, 26) == 0xe5bc3909 && W(b, 27) == 0x32663c5b
    ensures W(b, 28) == 0x9d209d67 && W(b, 29) == 0xec8726cb && W(b, 30) == 0x702138a4 && W(b, 31) == 0xd3b7973b
  {
    FirstWords(b);
    Words24(b);
    assert |b| == 64;
    hide W, IsBlock;
    NextWord(b, 24, 0x00000000, 0x00000000, 0x000f0000, 0x12dcbfdb, 0xc8215c1a);
    NextWord(b, 25, 0x00000000, 0x00000000, 0x7da86405, 0xe2e2c38e, 0xb73679a2);
    NextWord(b, 26, 0x00000000, 0x00000000, 0x600003c6, 0xc8215c1a, 0xe5bc3909);
    NextWord(b, 27, 0x00000000, 0x00000000, 0x3e9d7b78, 0xb73679a2, 0x32663c5b);
    NextWord(b, 28, 0x00000000, 0x00000000, 0x0183fc00, 0xe5bc3909, 0x9d209d67);
    NextWord(b, 29, 0x00000000, 0x00000000, 0x12dcbfdb, 0x32663c5b, 0xec8726cb);
    NextWord(b, 30, 0x00000000, 0x00000018, 0xe2e2c38e, 0x9d209d67, 0x702138a4);
    NextWord(b, 31, 0x00000018, 0x61626380, 0xc8215c1a, 0xec8726cb, 0xd3b7973b);
  }

  lemma Words40(b: seq<bv8>)
    requires IsBlock(b)
    ensures W(b, 32) == 0x93f5997f && W(b, 33) == 0x3b68ba73 && W(b, 34) == 0xaff4ffc1 && W(b, 35) == 0xf10a5c62
    ensures W(b, 36) == 0x0a8b3996 && W(b, 37) == 0x72af830a && W(b, 38) == 0x9409e33e && W(b, 39) == 0x24641522
  {
    Words24(b);
    Words32(b);
    assert |b| == 64;
    hide W, IsBlock;
    NextWord(b, 32, 0x61626380, 0x000f0000, 0xb73679a2, 0x702138a4, 0x93f5997f);
    NextWord(b, 33, 0x000f0000, 0x7da86405, 0xe5bc3909, 0xd3b7973b, 0x3b68ba73);
    NextWord(b, 34, 0x7da86405, 0x600003c6, 0x32663c5b, 0x93f5997f, 0xaff4ffc1);
    NextWord(b, 35, 0x600003c6, 0x3e9d7b78, 0x9d209d67, 0x3b68ba73, 0xf10a5c62);
    NextWord(b, 36, 0x3e9d7b78, 0x0183fc00, 0xec8726cb, 0xaff4ffc1, 0x0a8b3996);
    NextWord(b, 37, 0x0183fc00, 0x12dcbfdb, 0x702138a4, 0xf10a5c62, 0x72af830a);
    NextWord(b, 38, 0x12dcbfdb, 0xe2e2c38e, 0xd3b7973b, 0x0a8b3996, 0x9409e33e);
    NextWord(b, 39, 0xe2e2c38e, 0xc8215c1a, 0x93f5997f, 0x72af830a, 0x24641522);
  }

  lemma Words48(b: seq<bv8>)
    requires IsBlock(b)
    ensures W(b, 40) == 0x9f47bf94 && W(b, 41) == 0xf0a64f5a && W(b, 42) == 0x3e246a79 && W(b, 43) == 0x27333ba3
    ensures W(b, 44) == 0x0c4763f2 && W(b, 45) == 0x840abf27 && W(b, 46) == 0x7a290d5d && W(b, 47) == 0x065c43da
  {
    Words32(b);
    Words40(b);
    assert |b| == 64;
    hide W, IsBlock;
    NextWord(b, 40, 0xc8215c1a, 0xb73679a2, 0x3b68ba73, 0x9409e33e, 0x9f47bf94);
    NextWord(b, 41, 0xb73679a2, 0xe5bc3909, 0xaff4ffc1, 0x24641522, 0xf0a64f5a);
    NextWord(b, 42, 0xe5bc3909, 0x32663c5b, 0xf10a5c62, 0x9f47bf94, 0x3e246a79);
    NextWord(b, 43, 0x32663c5b, 0x9d209d67, 0x0a8b3996, 0xf0a64f5a, 0x27333ba3);
    NextWord(b, 44, 0x9d209d67, 0xec8726cb, 0x72af830a, 0x3e246a79, 0x0c4763f2);
    NextWord(b, 45, 0xec8726cb, 0x702138a4, 0x9409e33e, 0x27333ba3, 0x840abf27);
    NextWord(b, 46, 0x702138a4, 0xd3b7973b, 0x24641522, 0x0c4763f2, 0x7a290d5d);
    NextWord(b, 47, 0xd3b7973b, 0x93f5997f, 0x9f47bf94, 0x840abf27, 0x065c43da);
  }

  lemma Words56(b: seq<bv8>)
    requires IsBlock(b)
    ensures W(b, 48) == 0xfb3e89cb && W(b, 49) == 0xcc7617db && W(b, 50) == 0xb9e66c34 && W(b, 51) == 0xa9993667
    ensures W(b, 52) == 0x84badedd && W(b, 53) == 0xc21462bc && W(b, 54) == 0x1487472c && W(b, 55) == 0xb20f7a99
  {
    Words40(b);
    Words48(b);
    assert |b| == 64;
    hide W, IsBlock;
    NextWord(b, 48, 0x93f5997f, 0x3b68ba73, 0xf0a64f5a, 0x7a290d5d, 0xfb3e89cb);
    NextWord(b, 49, 0x3b68ba73, 0xaff4ffc1, 0x3e246a79, 0x065c43da, 0xcc7617db);
    NextWord(b, 50, 0xaff4ffc1, 0xf10a5c62, 0x27333ba3, 0xfb3e89cb, 0xb9e66c34);
    NextWord(b, 51, 0xf10a5c62, 0x0a8b3996, 0x0c4763f2, 0xcc7617db, 0xa9993667);
    NextWord(b, 52, 0x0a8b3996, 0x72af830a, 0x840abf27, 0xb9e66c34, 0x84badedd);
    NextWord(b, 53, 0x72af830a, 0x9409e33e, 0x7a290d5d, 0xa9993667, 0xc21462bc);
    NextWord(b, 54, 0x9409e33e, 0x24641522, 0x065c43da, 0x84badedd, 0x1487472c);
    NextWord(b, 55, 0x24641522, 0x9f47bf94, 0xfb3e89cb, 0xc21462bc, 0xb20f7a99);
  }

  lemma Words64(b: seq<bv8>)
    requires IsBlock(b)
    ensures W(b, 56) == 0xef57b9cd && W(b, 57) == 0xebe6b238 && W(b, 58) == 0x9fe3095e && W(b, 59) == 0x78bc8d4b
    ensures W(b, 60) == 0xa43fcf15 && W(b, 61) == 0x668b2ff8 && W(b, 62) == 0xeeaba2cc && W(b, 63) == 0x12b1edeb
  {
    Words48(b);
    Words56(b);
    assert |b| == 64;
    hide W, IsBlock;
    NextWord(b, 56, 0x9f47bf94, 0xf0a64f5a, 0xcc7617db, 0x1487472c, 0xef57b9cd);
    NextWord(b, 57, 0xf0a64f5a, 0x3e246a79, 0xb9e66c34, 0xb20f7a99, 0xebe6b238);
    NextWord(b, 58, 0x3e246a79, 0x27333ba3, 0xa9993667, 0xef57b9cd, 0x9fe3095e);
    NextWord(b, 59, 0x27333ba3, 0x0c4763f2, 0x84badedd, 0xebe6b238, 0x78bc8d4b);
    NextWord(b, 60, 0x0c4763f2, 0x840abf27, 0xc21462bc, 0x9fe3095e, 0xa43fcf15);
    NextWord(b, 61, 0x840abf27, 0x7a290d5d, 0x1487472c, 0x78bc8d4b, 0x668b2ff8);
    NextWord(b, 62, 0x7a290d5d, 0x065c43da, 0xb20f7a99, 0xa43fcf15, 0xeeaba2cc);
    NextWord(b, 63, 0x065c43da, 0xfb3e89cb, 0xef57b9cd, 0x668b2ff8, 0x12b1edeb);
  }

  /** One more round: the new first and fifth word, the others shifted. */
  lemma OneRound(b: seq<bv8>, t: nat, v: Words, k: bv32, w: bv32, a: bv32, e: bv32) returns (v': Words)
    requires t < 64 && |b| == 64 && Rounds(IV, b, t) == v && Constant(t) == k && W(b, t) == w
    requires Round(v, k, w) == Words(a, v.a, v.b, v.c, e, v.e, v.f, v.g)
    ensures v' == Words(a, v.a, v.b, v.c, e, v.e, v.f, v.g) && Rounds(IV, b, t + 1) == v'
  {
    hide Round, Constant, W;
    v' := Words(a, v.a, v.b, v.c, e, v.e, v.f, v.g);
  }

  lemma Constants8()
    ensures Constant(0) == 0x428a2f98 && Constant(1) == 0x71374491 && Constant(2) == 0xb5c0fbcf && Constant(3) == 0xe9b5dba5
    ensures Constant(4) == 0x3956c25b && Constant(5) == 0x59f111f1 && Constant(6) == 0x923f82a4 && Constant(7) == 0xab1c5ed5
  {
  }

  lemma Rounds8(b: seq<bv8>)
    requires IsBlock(b)
    ensures Rounds(IV, b, 8) ==
              Words(0x85a07b5f, 0xe5030380, 0x2b4209f5, 0x04409a6a, 0x0c657a79, 0x9b27a401, 0x714260ad, 0x43ada245)
  {
    FirstWords(b);
    Constants8();
    assert |b| == 64;
    hide W, IsBlock, Constant;
    var v := Words(0x6a09e667, 0xbb67ae85, 0x3c6ef372, 0xa54ff53a, 0x510e527f, 0x9b05688c, 0x1f83d9ab, 0x5be0cd19);
    v := OneRound(b, 0, v, 0x428a2f98, 0x61626380, 0x5d6aebcd, 0xfa2a4622);
    v := OneRound(b, 1, v, 0x71374491, 0x00000000, 0x5a6ad9ad, 0x78ce7989);
    v := OneRound(b, 2, v, 0xb5c0fbcf, 0x00000000, 0xc8c347a7, 0xf92939eb);
    v := OneRound(b, 3, v, 0xe9b5dba5, 0x00000000, 0xd550f666, 0x24e00850);
    v := OneRound(b, 4, v, 0x3956c25b, 0x00000000, 0x04409a6a, 0x43ada245);
    v := OneRound(b, 5, v, 0x59f111f1, 0x00000000, 0x2b4209f5, 0x714260ad);
    v := OneRound(b, 6, v, 0x923f82a4, 0x00000000, 0xe5030380, 0x9b27a401);
    v := OneRound(b, 7, v, 0xab1c5ed5, 0x00000000, 0x85a07b5f, 0x0c657a79);
  }

  lemma Constants16()
    ensures Constant(8) == 0xd807aa98 && Constant(9) == 0x12835b01 && Constant(10) == 0x243185be && Constant(11) == 0x550c7dc3
    ensures Constant(12) == 0x72be5d74 && Constant(13) == 0x80deb1fe && Constant(14) == 0x9bdc06a7 && Constant(15) == 0xc19bf174
  {
  }

  lemma Rounds16(b: seq<bv8>)
    requires IsBlock(b)
    ensures Rounds(IV, b, 16) ==
              Words(0xb0fa238e, 0xc0645fde, 0xd932eb16, 0x87912990, 0x07590dcd, 0x0b92f20c, 0x745a48de, 0x1e578218)
  {
    FirstWords(b);
    Rounds8(b);
    Constants16();
    assert |b| == 64;
    hide W, Rounds, IsBlock, Constant;
    var v := Words(0x85a07b5f, 0xe5030380, 0x2b4209f5, 0x04409a6a, 0x0c657a79, 0x9b27a401, 0x714260ad, 0x43ada245);
    v := OneRound(b, 8, v, 0xd807aa98, 0x00000000, 0x8e04ecb9, 0x32ca2d8c);
    v := OneRound(b, 9, v, 0x12835b01, 0x00000000, 0x8c87346b, 0x1cc92596);
    v := OneRound(b, 10, v, 0x243185be, 0x00000000, 0x4798a3f4, 0x436b23e8);
    v := OneRound(b, 11, v, 0x550c7dc3, 0x00000000, 0xf71fc5a9, 0x816fd6e9);
    v := OneRound(b, 12, v, 0x72be5d74, 0x00000000, 0x87912990, 0x1e578218);
    v := OneRound(b, 13, v, 0x80deb1fe, 0x00000000, 0xd932eb16, 0x745a48de);
    v := OneRound(b, 14, v, 0x9bdc06a7, 0x00000000, 0xc0645fde, 0x0b92f20c);
    v := OneRound(b, 15, v, 0xc19bf174, 0x00000018, 0xb0fa238e, 0x07590dcd);
  }

  lemma Constants24()
    ensures Constant(16) == 0xe49b69c1 && Constant(17) == 0xefbe4786 && Constant(18) == 0x0fc19dc6 && Constant(19) == 0x240ca1cc
    ensures Constant(20) == 0x2de92c6f && Constant(21) == 0x4a7484aa && Constant(22) == 0x5cb0a9dc && Constant(23) == 0x76f988da
  {
  }

  lemma Rounds24(b: seq<bv8>)
    requires IsBlock(b)
    ensures Rounds(IV, b, 24) ==
              Words(0xc5d53d8d, 0xa7a3623f, 0xc2606d6d, 0x9dc68b63, 0xaa47c347, 0x49f5114a, 0xe1257970, 0x8ada8930)
  {
    Words24(b);
    Rounds16(b);
    Constants24();
    assert |b| == 64;
    hide W, Rounds, IsBlock, Constant;
    var v := Words(0xb0fa238e, 0xc0645fde, 0xd932eb16, 0x87912990, 0x07590dcd, 0x0b92f20c, 0x745a48de, 0x1e578218);
    v := OneRound(b, 16, v, 0xe49b69c1, 0x61626380, 0x21da9a9b, 0x8034229c);
    v := OneRound(b, 17, v, 0xefbe4786, 0x000f0000, 0xc2fbd9d1, 0x846ee454);
    v := OneRound(b, 18, v, 0x0fc19dc6, 0x7da86405, 0xfe777bbf, 0xcc899961);
    v := OneRound(b, 19, v, 0x240ca1cc, 0x600003c6, 0xe1f20c33, 0xb0638179);
    v := OneRound(b, 20, v, 0x2de92c6f, 0x3e9d7b78, 0x9dc68b63, 0x8ada8930);
    v := OneRound(b, 21, v, 0x4a7484aa, 0x0183fc00, 0xc2606d6d, 0xe1257970);
    v := OneRound(b, 22, v, 0x5cb0a9dc, 0x12dcbfdb, 0xa7a3623f, 0x49f5114a);
    v := OneRound(b, 23, v, 0x76f988da, 0xe2e2c38e, 0xc5d53d8d, 0xaa47c347);
  }

  lemma Constants32()
    ensures Constant(24) == 0x983e5152 && Constant(25) == 0xa831c66d && Constant(26) == 0xb00327c8 && Constant(27) == 0xbf597fc7
    ensures Constant(28) == 0xc6e00bf3 && Constant(29) == 0xd5a79147 && Constant(30) == 0x06ca6351 && Constant(31) == 0x14292967
  {
  }

  lemma Rounds32(b: seq<bv8>)
    requires IsBlock(b)
    ensures Rounds(IV, b, 32) ==
              Words(0x73b33bf5, 0xea992a22, 0xa0060b30, 0x363482c9, 0xba591112, 0x0109ab3a, 0xade79437, 0x6112a3b7)
  {
    Words32(b);
    Rounds24(b);
    Constants32();
    assert |b| == 64;
    hide W, Rounds, IsBlock, Constant;
    var v := Words(0xc5d53d8d, 0xa7a3623f, 0xc2606d6d, 0x9dc68b63, 0xaa47c347, 0x49f5114a, 0xe1257970, 0x8ada8930);
    v := OneRound(b, 24, v, 0x983e5152, 0xc8215c1a, 0x1c2c2838, 0x2823ef91);
    v := OneRound(b, 25, v, 0xa831c66d, 0xb73679a2, 0xcde8037d, 0x14383d8e);
    v := OneRound(b, 26, v, 0xb00327c8, 0xe5bc3909, 0xb62ec4bc, 0xc74c6516);
    v := OneRound(b, 27, v, 0xbf597fc7, 0x32663c5b, 0x77d37528, 0xedffbff8);
    v := OneRound(b, 28, v, 0xc6e00bf3, 0x9d209d67, 0x363482c9, 0x6112a3b7);
    v := OneRound(b, 29, v, 0xd5a79147, 0xec8726cb, 0xa0060b30, 0xade79437);
    v := OneRound(b, 30, v, 0x06ca6351, 0x702138a4, 0xea992a22, 0x0109ab3a);
    v := OneRound(b, 31, v, 0x14292967, 0xd3b7973b, 0x73b33bf5, 0xba591112);
  }

  lemma Constants40()
    ensures Constant(32) == 0x27b70a85 && Constant(33) == 0x2e1b2138 && Constant(34) == 0x4d2c6dfc && Constant(35) == 0x53380d13
    ensures Constant(36) == 0x650a7354 && Constant(37) == 0x766a0abb && Constant(38) == 0x81c2c92e && Constant(39) == 0x92722c85
  {
  }

  lemma Rounds40(b: seq<bv8>)
    requires IsBlock(b)
    ensures Rounds(IV, b, 40) ==
              Words(0x79ea687a, 0x6dc57a8a, 0x34df1604, 0x41a65cb1, 0x1efbc0a0, 0xf0781bc8, 0xa507a53d, 0x0772a26b)
  {
    Words40(b);
    Rounds32(b);
    Constants40();
    assert |b| == 64;
    hide W, Rounds, IsBlock, Constant;
    var v := Words(0x73b33bf5, 0xea992a22, 0xa0060b30, 0x363482c9, 0xba591112, 0x0109ab3a, 0xade79437, 0x6112a3b7);
    v := OneRound(b, 32, v, 0x27b70a85, 0x93f5997f, 0x98e12507, 0x9cd9f5f6);
    v := OneRound(b, 33, v, 0x2e1b2138, 0x3b68ba73, 0xfe604df5, 0x59249dd3);
    v := OneRound(b, 34, v, 0x4d2c6dfc, 0xaff4ffc1, 0xa9a7738c, 0x085f3833);
    v := OneRound(b, 35, v, 0x53380d13, 0xf10a5c62, 0x65a0cfe4, 0xf4b002d6);
    v := OneRound(b, 36, v, 0x650a7354, 0x0a8b3996, 0x41a65cb1, 0x0772a26b);
    v := OneRound(b, 37, v, 0x766a0abb, 0x72af830a, 0x34df1604, 0xa507a53d);
    v := OneRound(b, 38, v, 0x81c2c92e, 0x9409e33e, 0x6dc57a8a, 0xf0781bc8);
    v := OneRound(b, 39, v, 0x92722c85, 0x24641522, 0x79ea687a, 0x1efbc0a0);
  }

  lemma Constants48()
    ensures Constant(40) == 0xa2bfe8a1 && Constant(41) == 0xa81a664b && Constant(42) == 0xc24b8b70 && Constant(43) == 0xc76c51a3
    ensures Constant(44) == 0xd192e819 && Constant(45) == 0xd6990624 && Constant(46) == 0xf40e3585 && Constant(47) == 0x106aa070
  {
  }

  lemma Rounds48(b: seq<bv8>)
    requires IsBlock(b)
    ensures Rounds(IV, b, 48) ==
              Words(0x4172328d, 0xa14c14b0, 0x72ab4b91, 0x26628815, 0xfecf0bc6, 0xd57b94a9, 0xb7755da1, 0xa80f11f0)
  {
    Words48(b);
    Rounds40(b);
    Constants48();
    assert |b| == 64;
    hide W, Rounds, IsBlock, Constant;
    var v := Words(0x79ea687a, 0x6dc57a8a, 0x34df1604, 0x41a65cb1, 0x1efbc0a0, 0xf0781bc8, 0xa507a53d, 0x0772a26b);
    v := OneRound(b, 40, v, 0xa2bfe8a1, 0x9f47bf94, 0xd6670766, 0x26352d63);
    v := OneRound(b, 41, v, 0xa81a664b, 0xf0a64f5a, 0xdf46652f, 0x838b2711);
    v := OneRound(b, 42, v, 0xc24b8b70, 0x3e246a79, 0x17aa0dfe, 0xdecd4715);
    v := OneRound(b, 43, v, 0xc76c51a3, 0x27333ba3, 0x9d4baf93, 0xfda24c2e);
    v := OneRound(b, 44, v, 0xd192e819, 0x0c4763f2, 0x26628815, 0xa80f11f0);
    v := OneRound(b, 45, v, 0xd6990624, 0x840abf27, 0x72ab4b91, 0xb7755da1);
    v := OneRound(b, 46, v, 0xf40e3585, 0x7a290d5d, 0xa14c14b0, 0xd57b94a9);
    v := OneRound(b, 47, v, 0x106aa070, 0x065c43da, 0x4172328d, 0xfecf0bc6);
  }

  lemma Constants56()
    ensures Constant(48) == 0x19a4c116 && Constant(49) == 0x1e376c08 && Constant(50) == 0x2748774c && Constant(51) == 0x34b0bcb5
    ensures Constant(52) == 0x391c0cb3 && Constant(53) == 0x4ed8aa4a && Constant(54) == 0x5b9cca4f && Constant(55) == 0x682e6ff3
  {
  }

  lemma Rounds56(b: seq<bv8>)
    requires IsBlock(b)
    ensures Rounds(IV, b, 56) ==
              Words(0x38cc9913, 0x3ec45cdb, 0xf5702fdb, 0x101fd28f, 0x54cb266b, 0xe50e1b4f, 0x9f4787c3, 0x529e7d00)
  {
    Words56(b);
    Rounds48(b);
    Constants56();
    assert |b| == 64;
    hide W, Rounds, IsBlock, Constant;
    var v := Words(0x4172328d, 0xa14c14b0, 0x72ab4b91, 0x26628815, 0xfecf0bc6, 0xd57b94a9, 0xb7755da1, 0xa80f11f0);
    v := OneRound(b, 48, v, 0x19a4c116, 0xfb3e89cb, 0x05757ceb, 0xbd714038);
    v := OneRound(b, 49, v, 0x1e376c08, 0xcc7617db, 0xf11bfaa8, 0x6e5c390c);
    v := OneRound(b, 50, v, 0x2748774c, 0xb9e66c34, 0x7a0508a1, 0x52f1ccf7);
    v := OneRound(b, 51, v, 0x34b0bcb5, 0xa9993667, 0x886e7a22, 0x49231c1e);
    v := OneRound(b, 52, v, 0x391c0cb3, 0x84badedd, 0x101fd28f, 0x529e7d00);
    v := OneRound(b, 53, v, 0x4ed8aa4a, 0xc21462bc, 0xf5702fdb, 0x9f4787c3);
    v := OneRound(b, 54, v, 0x5b9cca4f, 0x1487472c, 0x3ec45cdb, 0xe50e1b4f);
    v := OneRound(b, 55, v, 0x682e6ff3, 0xb20f7a99, 0x38cc9913, 0x54cb266b);
  }

  lemma Constants64()
    ensures Constant(56) == 0x748f82ee && Constant(57) == 0x78a5636f && Constant(58) == 0x84c87814 && Constant(59) == 0x8cc70208
    ensures Constant(60) == 0x90befffa && Constant(61) == 0xa4506ceb && Constant(62) == 0xbef9a3f7 && Constant(63) == 0xc67178f2
  {
  }

  lemma Rounds64(b: seq<bv8>)
    requires IsBlock(b)
    ensures Rounds(IV, b, 64) ==
              Words(0x506e3058, 0xd39a2165, 0x04d24d6c, 0xb85e2ce9, 0x5ef50f24, 0xfb121210, 0x948d25b6, 0x961f4894)
  {
    Words64(b);
    Rounds56(b);
    Constants64();
    assert |b| == 64;
    hide W, Rounds, IsBlock, Constant;
    var v := Words(0x38cc9913, 0x3ec45cdb, 0xf5702fdb, 0x101fd28f, 0x54cb266b, 0xe50e1b4f, 0x9f4787c3, 0x529e7d00);
    v := OneRound(b, 56, v, 0x748f82ee, 0xef57b9cd, 0xfcd1887b, 0x9b5e906c);
    v := OneRound(b, 57, v, 0x78a5636f, 0xebe6b238, 0xc062d46f, 0x7e44008e);
    v := OneRound(b, 58, v, 0x84c87814, 0x9fe3095e, 0xffb70472, 0x6d83bfc6);
    v := OneRound(b, 59, v, 0x8cc70208, 0x78bc8d4b, 0xb6ae8fff, 0xb21bad3d);
    v := OneRound(b, 60, v, 0x90befffa, 0xa43fcf15, 0xb85e2ce9, 0x961f4894);
    v := OneRound(b, 61, v, 0xa4506ceb, 0x668b2ff8, 0x04d24d6c, 0x948d25b6);
    v := OneRound(b, 62, v, 0xbef9a3f7, 0xeeaba2cc, 0xd39a2165, 0xfb121210);
    v := OneRound(b, 63, v, 0xc67178f2, 0x12b1edeb, 0x506e3058, 0x5ef50f24);
  }

  lemma HashWords(b: seq<bv8>)
    requires IsBlock(b)
    ensures Blocks(b) ==
              Words(0xba7816bf, 0x8f01cfea, 0x414140de, 0x5dae2223, 0xb00361a3, 0x96177a9c, 0xb410ff61, 0xf20015ad)
  {
    Rounds64(b);
    BlocksGrow(b);
    assert b[..0] == [] && b[0..] == b;
    hide Rounds, W, IsBlock;
  }

  lemma DigestBytes()
    ensures BigEndian(0xba7816bf) == [0xba, 0x78, 0x16, 0xbf]
    ensures BigEndian(0x8f01cfea) == [0x8f, 0x01, 0xcf, 0xea]
    ensures BigEndian(0x414140de) == [0x41, 0x41, 0x40, 0xde]
    ensures BigEndian(0x5dae2223) == [0x5d, 0xae, 0x22, 0x23]
    ensures BigEndian(0xb00361a3) == [0xb0, 0x03, 0x61, 0xa3]
    ensures BigEndian(0x96177a9c) == [0x96, 0x17, 0x7a, 0x9c]
    ensures BigEndian(0xb410ff61) == [0xb4, 0x10, 0xff, 0x61]
    ensures BigEndian(0xf20015ad) == [0xf2, 0x00, 0x15, 0xad]
  {
  }

  /** The hash of "abc". */
  lemma HashOfAbc()
    ensures Hash(ABC) ==
            [0xba, 0x78, 0x16, 0xbf] + [0x8f, 0x01, 0xcf, 0xea] + [0x41, 0x41, 0x40, 0xde] + [0x5d, 0xae, 0x22, 0x23]
            + [0xb0, 0x03, 0x61, 0xa3] + [0x96, 0x17, 0x7a, 0x9c] + [0xb4, 0x10, 0xff, 0x61] + [0xf2, 0x00, 0x15, 0xad]
  {
    PaddedIsBlock();
    PaddedLength(ABC);
    HashWords(Padded(ABC));
    DigestBytes();
    hide Blocks, Padded, BigEndian;
  }
}
