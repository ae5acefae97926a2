/**
 SHA-256 and HMAC-SHA256 as the firmware computes them: a context that is fed bytes in
 pieces of any size. The one-shot definitions are sections 5 and 6.2 of FIPS 180-4 and
 section 2 of RFC 2104.
 */
module Sha256 {
  import opened Arithmetic

  /** The 64 round constants, eight to the row. */
  const K256: seq<seq<bv32>> := [
    [0x428a2f98, 0x71374491, 0xb5c0fbcf, 0xe9b5dba5, 0x3956c25b, 0x59f111f1, 0x923f82a4, 0xab1c5ed5],
    [0xd807aa98, 0x12835b01, 0x243185be, 0x550c7dc3, 0x72be5d74, 0x80deb1fe, 0x9bdc06a7, 0xc19bf174],
    [0xe49b69c1, 0xefbe4786, 0x0fc19dc6, 0x240ca1cc, 0x2de92c6f, 0x4a7484aa, 0x5cb0a9dc, 0x76f988da],
    [0x983e5152, 0xa831c66d, 0xb00327c8, 0xbf597fc7, 0xc6e00bf3, 0xd5a79147, 0x06ca6351, 0x14292967],
    [0x27b70a85, 0x2e1b2138, 0x4d2c6dfc, 0x53380d13, 0x650a7354, 0x766a0abb, 0x81c2c92e, 0x92722c85],
    [0xa2bfe8a1, 0xa81a664b, 0xc24b8b70, 0xc76c51a3, 0xd192e819, 0xd6990624, 0xf40e3585, 0x106aa070],
    [0x19a4c116, 0x1e376c08, 0x2748774c, 0x34b0bcb5, 0x391c0cb3, 0x4ed8aa4a, 0x5b9cca4f, 0x682e6ff3],
    [0x748f82ee, 0x78a5636f, 0x84c87814, 0x8cc70208, 0x90befffa, 0xa4506ceb, 0xbef9a3f7, 0xc67178f2]]

  function Constant(i: nat): bv32
    requires i < 64
  {
    K256[i / 8][i % 8]
  }

  /** The eight working variables, and the eight hash words. */
  datatype Words = Words(a: bv32, b: bv32, c: bv32, d: bv32, e: bv32, f: bv32, g: bv32, h: bv32)

  const IV := Words(0x6a09e667, 0xbb67ae85, 0x3c6ef372, 0xa54ff53a, 0x510e527f, 0x9b05688c, 0x1f83d9ab, 0x5be0cd19)

  // ---------------------------------------------------------------------------
  // The functions of section 4.1.2 of FIPS 180-4
  // ---------------------------------------------------------------------------

  function Rotr(x: bv32, n: bv32): bv32
    requires 0 < n < 32
  {
    (x >> n) | (x << (32 - n))
  }

  function Ch(x: bv32, y: bv32, z: bv32): bv32 { (x & y) ^ (!x & z) }
  function Maj(x: bv32, y: bv32, z: bv32): bv32 { (x & y) ^ (x & z) ^ (y & z) }
  function BigSigma0(x: bv32): bv32 { Rotr(x, 2) ^ Rotr(x, 13) ^ Rotr(x, 22) }
  function BigSigma1(x: bv32): bv32 { Rotr(x, 6) ^ Rotr(x, 11) ^ Rotr(x, 25) }
  function SmallSigma0(x: bv32): bv32 { Rotr(x, 7) ^ Rotr(x, 18) ^ (x >> 3) }
  function SmallSigma1(x: bv32): bv32 { Rotr(x, 17) ^ Rotr(x, 19) ^ (x >> 10) }

  // ---------------------------------------------------------------------------
  // One-shot definition
  // ---------------------------------------------------------------------------

  /** Four bytes, the first the most significant. */
  function Word(b0: bv8, b1: bv8, b2: bv8, b3: bv8): bv32 {
    (b0 as bv32 << 24) | (b1 as bv32 << 16) | (b2 as bv32 << 8) | (b3 as bv32)
  }

  function WordAt(block: seq<bv8>, i: nat): bv32
    requires |block| == 64 && i < 16
  {
    Word(block[4 * i], block[4 * i + 1], block[4 * i + 2], block[4 * i + 3])
  }

  /** The message schedule, step 1 of section 6.2.2. */
  ghost function W(block: seq<bv8>, t: nat): bv32
    requires |block| == 64
  {
    if t < 16 then WordAt(block, t)
    else Sum4(W(block, t - 16), SmallSigma0(W(block, t - 15)), W(block, t - 7), SmallSigma1(W(block, t - 2)))
  }

  /** Addition modulo 2^32. */
  function Sum4(p: bv32, q: bv32, r: bv32, s: bv32): bv32 { p + q + r + s }

  /** Step 3 of section 6.2.2. */
  function Round(v: Words, k: bv32, w: bv32): Words {
    var t1 := v.h + BigSigma1(v.e) + Ch(v.e, v.f, v.g) + k + w;
    var t2 := BigSigma0(v.a) + Maj(v.a, v.b, v.c);
    Words(t1 + t2, v.a, v.b, v.c, v.d + t1, v.e, v.f, v.g)
  }

  ghost function Rounds(v: Words, block: seq<bv8>, t: nat): Words
    requires |block| == 64 && t <= 64
  {
    if t == 0 then v else Round(Rounds(v, block, t - 1), Constant(t - 1), W(block, t - 1))
  }

  function Add(x: Words, y: Words): Words {
    Words(x.a + y.a, x.b + y.b, x.c + y.c, x.d + y.d, x.e + y.e, x.f + y.f, x.g + y.g, x.h + y.h)
  }

  ghost function Compressed(h: Words, block: seq<bv8>): Words
    requires |block| == 64
  {
    Add(h, Rounds(h, block, 64))
  }

  /** All whole blocks of `m`, in order. */
  ghost function Blocks(m: seq<bv8>): Words
    requires |m| % 64 == 0
    decreases |m|
  {
    if m == [] then IV else Compressed(Blocks(m[..|m| - 64]), m[|m| - 64..])
  }

  function Zeros(n: nat): (z: seq<bv8>)
    ensures |z| == n
  {
    seq(n, _ => 0)
  }

  /** How many zero bytes follow the 0x80: the least number that leaves 8 bytes for the
      length in the last block. */
  function ZeroCount(n: nat): (k: nat)
    ensures k < 64 && (n + 1 + k) % 64 == 56
  {
    (55 - n) % 64
  }

  lemma ZeroCountIsLeast(n: nat, j: nat)
    requires (n + 1 + j) % 64 == 56
    ensures ZeroCount(n) <= j
  {
  }

  /** The length of `n` bytes in bits, a 64-bit number. */
  function BitCount(n: nat): bv64 { (8 * n % TWO64) as bv64 }

  /** Its bytes, the most significant first. */
  function Bytes64(x: bv64): (b: seq<bv8>)
    ensures |b| == 8
  {
    [((x >> 56) & 0xFF) as bv8, ((x >> 48) & 0xFF) as bv8, ((x >> 40) & 0xFF) as bv8, ((x >> 32) & 0xFF) as bv8,
     ((x >> 24) & 0xFF) as bv8, ((x >> 16) & 0xFF) as bv8, ((x >> 8) & 0xFF) as bv8, (x & 0xFF) as bv8]
  }

  function LengthBytes(n: nat): (b: seq<bv8>)
    ensures |b| == 8
  {
    Bytes64(BitCount(n))
  }

  /** Section 5.1.1 of FIPS 180-4. */
  function Padded(m: seq<bv8>): seq<bv8> {
    m + [0x80] + Zeros(ZeroCount(|m|)) + LengthBytes(|m|)
  }

  /** Whole blocks, and no more of them than needed. */
  lemma PaddedLength(m: seq<bv8>)
    ensures |Padded(m)| % 64 == 0 && |m| + 9 <= |Padded(m)| <= |m| + 72
  {
    hide LengthBytes, ZeroCount;
    assert |Padded(m)| == |m| + 1 + ZeroCount(|m|) + 8;
  }

  function BigEndian(x: bv32): (b: seq<bv8>)
    ensures |b| == 4
  {
    [((x >> 24) & 0xFF) as bv8, ((x >> 16) & 0xFF) as bv8, ((x >> 8) & 0xFF) as bv8, (x & 0xFF) as bv8]
  }

  function Digest(h: Words): (d: seq<bv8>)
    ensures |d| == 32
  {
    BigEndian(h.a) + BigEndian(h.b) + BigEndian(h.c) + BigEndian(h.d)
    + BigEndian(h.e) + BigEndian(h.f) + BigEndian(h.g) + BigEndian(h.h)
  }

  /** The hash of a message, section 6.2 of FIPS 180-4. */
  ghost function Hash(m: seq<bv8>): (d: seq<bv8>)
    ensures |d| == 32
  {
    PaddedLength(m);
    Digest(Blocks(Padded(m)))
  }

  // ---------------------------------------------------------------------------
  // What the definitions mean
  // ---------------------------------------------------------------------------

  /** Ch takes each bit from y where x has a one, from z where it has a zero. */
  lemma ChChooses(x: bv32, y: bv32, z: bv32)
    ensures Ch(x, y, z) & x == y & x && Ch(x, y, z) & !x == z & !x
  {
  }

  /** Maj is the majority of three bits: symmetric, and two that agree decide. */
  lemma MajDecides(x: bv32, y: bv32, z: bv32)
    ensures Maj(x, y, z) == Maj(y, x, z) == Maj(x, z, y)
    ensures Maj(x, x, z) == x
  {
  }

  /** Rotating on by the rest of the word undoes a rotation. */
  lemma RotrComesRound(x: bv32, n: bv32)
    requires 0 < n < 32
    ensures Rotr(Rotr(x, n), 32 - n) == x
  {
  }

  /** A word's bytes and the word of its bytes. */
  lemma WordIsBytes(x: bv32)
    ensures var b := BigEndian(x); Word(b[0], b[1], b[2], b[3]) == x
  {
  }

  lemma BytesAreWord(b0: bv8, b1: bv8, b2: bv8, b3: bv8)
    ensures BigEndian(Word(b0, b1, b2, b3)) == [b0, b1, b2, b3]
  {
  }

  /** Apart from two new words a round only moves words along, so three rounds of old a's and
      e's are always at hand. */
  lemma RoundsShift(v: Words, block: seq<bv8>, t: nat)
    requires |block| == 64 && 3 <= t <= 64
    ensures
      var r, r1, r2, r3 := Rounds(v, block, t), Rounds(v, block, t - 1), Rounds(v, block, t - 2), Rounds(v, block, t - 3);
      r.b == r1.a && r.c == r2.a && r.d == r3.a && r.f == r1.e && r.g == r2.e && r.h == r3.e
  {
    hide W, Constant, BigSigma0, BigSigma1, Ch, Maj;
    assert Rounds(v, block, t - 1) == Round(Rounds(v, block, t - 2), Constant(t - 2), W(block, t - 2));
    assert Rounds(v, block, t - 2) == Round(Rounds(v, block, t - 3), Constant(t - 3), W(block, t - 3));
  }

  /** The length field reads as the number of bits, modulo 2^64. */
  lemma LengthIsBits(n: nat)
    ensures
      var b := LengthBytes(n);
      (Word(b[0], b[1], b[2], b[3]) as bv64 << 32) | (Word(b[4], b[5], b[6], b[7]) as bv64) == BitCount(n)
  {
    hide Bytes64, Word, BitCount;
    TwoHalves(BitCount(n));
  }

  lemma TwoHalves(x: bv64)
    ensures
      var b := Bytes64(x);
      (Word(b[0], b[1], b[2], b[3]) as bv64 << 32) | (Word(b[4], b[5], b[6], b[7]) as bv64) == x
  {
  }

  // ---------------------------------------------------------------------------
  // Compression
  // ---------------------------------------------------------------------------

  lemma WFirst(block: seq<bv8>, t: nat)
    requires |block| == 64 && t < 16
    ensures W(block, t) == WordAt(block, t)
  {
  }

  lemma WNext(block: seq<bv8>, t: nat)
    requires |block| == 64 && 16 <= t
    ensures W(block, t) ==
            Sum4(W(block, t - 16), SmallSigma0(W(block, t - 15)), W(block, t - 7), SmallSigma1(W(block, t - 2)))
  {
    hide WordAt, SmallSigma0, SmallSigma1, Sum4;
  }

  method Schedule(block: array<bv8>) returns (w: array<bv32>)
    requires block.Length == 64
    ensures fresh(w) && w.Length == 64 && forall t | 0 <= t < 64 :: w[t] == W(block[..], t)
  {
    hide W, Word, SmallSigma0, SmallSigma1, Sum4;
    w := new bv32[64];
    ghost var b := block[..];
    var i := 0;
    while i < 16
      invariant 0 <= i <= 16 && forall t | 0 <= t < i :: w[t] == W(b, t)
    {
      w[i] := Word(block[4 * i], block[4 * i + 1], block[4 * i + 2], block[4 * i + 3]);
      WFirst(b, i);
      i := i + 1;
    }
    while i < 64
      invariant 16 <= i <= 64 && forall t | 0 <= t < i :: w[t] == W(b, t)
    {
      var s0 := SmallSigma0(w[i - 15]);
      var s1 := SmallSigma1(w[i - 2]);
      w[i] := Sum4(w[i - 16], s0, w[i - 7], s1);
      WNext(b, i);
      i := i + 1;
    }
  }

  method Compress(h: Words, block: array<bv8>) returns (r: Words)
    requires block.Length == 64
    ensures r == Compressed(h, block[..])
  {
    hide Round, W, Constant;
    var w := Schedule(block);
    ghost var b := block[..];
    var v := h;
    var i := 0;
    while i < 64
      invariant 0 <= i <= 64 && v == Rounds(h, b, i)
      invariant forall t | 0 <= t < 64 :: w[t] == W(b, t)
    {
      v := Round(v, Constant(i), w[i]);
      i := i + 1;
    }
    r := Add(h, v);
  }

  // ---------------------------------------------------------------------------
  // Streaming
  // ---------------------------------------------------------------------------

  /** Of everything `fed`, the whole blocks are hashed into `h` and `rest` is left. */
  ghost predicate Absorbed(fed: seq<bv8>, h: Words, rest: seq<bv8>) {
    && |rest| < 64 && |rest| <= |fed| && (|fed| - |rest|) % 64 == 0
    && h == Blocks(fed[..|fed| - |rest|])
    && rest == fed[|fed| - |rest|..]
  }

  lemma AbsorbNone()
    ensures Absorbed([], IV, [])
  {
  }

  /** Bytes that do not fill the block. */
  lemma AbsorbSome(fed: seq<bv8>, h: Words, rest: seq<bv8>, q: seq<bv8>)
    requires Absorbed(fed, h, rest) && |rest| + |q| < 64
    ensures Absorbed(fed + q, h, rest + q)
  {
    hide Blocks;
    assert (fed + q)[..|fed| - |rest|] == fed[..|fed| - |rest|];
  }

  /** Bytes that just fill it. */
  lemma AbsorbBlock(fed: seq<bv8>, h: Words, rest: seq<bv8>, q: seq<bv8>)
    requires Absorbed(fed, h, rest) && |rest| + |q| == 64
    ensures Absorbed(fed + q, Compressed(h, rest + q), [])
  {
    hide Compressed;
    var m := fed + q;
    assert m[..|m| - 64] == fed[..|fed| - |rest|] && m[|m| - 64..] == rest + q;
    BlocksGrow(m);
    hide Blocks;
    assert m[..|m|] == m;
  }

  class Context {
    var h: Words
    const block: array<bv8>
    var used: nat
    var total: nat
    /** Everything fed so far. */
    ghost var fed: seq<bv8>

    /** The whole blocks are hashed, the rest waits in `block`. */
    ghost predicate Valid()
      reads this, block
    {
      && block.Length == 64 && used < 64
      && Absorbed(fed, h, block[..used])
      && total == |fed| % TWO64
    }

    constructor ()
      ensures Valid() && fed == [] && fresh(block)
    {
      h, used, total, fed := IV, 0, 0, [];
      block := new bv8[64];
      new;
      AbsorbNone();
      hide Absorbed;
      assert block[..0] == [];
    }

    /** The pieces may be of any size, including none. */
    method Update(p: seq<bv8>)
      requires Valid()
      modifies this, block
      ensures Valid() && fed == old(fed) + p
    {
      hide Absorbed;
      total := (total + |p|) % TWO64;
      ghost var base := fed;
      var done := 0;
      assert base + p[..0] == base;
      while done < |p|
        invariant 0 <= done <= |p| && fed == base + p[..done]
        invariant block.Length == 64 && used < 64 && Absorbed(fed, h, block[..used])
        invariant total == (|base| % TWO64 + |p|) % TWO64
      {
        var take := if 64 - used > |p| - done then |p| - done else 64 - used;
        Append(p[done..done + take]);
        assert base + p[..done] + p[done..done + take] == base + p[..done + take];
        done := done + take;
      }
      assert p[..|p|] == p;
      CountWraps(|base|, |p|);
    }

    /** At most as many bytes as the block still takes. */
    method Append(q: seq<bv8>)
      requires block.Length == 64 && used < 64 && Absorbed(fed, h, block[..used])
      requires 0 < |q| <= 64 - used
      modifies this`h, this`used, this`fed, block
      ensures fed == old(fed) + q && used < 64 && Absorbed(fed, h, block[..used])
    {
      hide Absorbed, Compressed;
      ghost var rest := block[..used];
      CopyInto(block, used, q);
      if used + |q| == 64 {
        AbsorbBlock(fed, h, rest, q);
        assert block[..] == block[..64];
        h := Compress(h, block);
        used := 0;
        assert block[..0] == [];
      } else {
        AbsorbSome(fed, h, rest, q);
        used := used + |q|;
      }
      fed := fed + q;
    }

    /** Pads, hashes the rest, and returns the digest of everything that was fed. */
    method Final() returns (out: seq<bv8>)
      requires Valid()
      modifies this, block
      ensures out == Hash(old(fed))
    {
      hide Absorbed, Digest, LengthBytes, Hash, ZeroCount;
      ghost var m := fed;
      var count := total;
      Update([0x80]);
      ghost var zeros := 0;
      assert m + [0x80] + Zeros(0) == m + [0x80];
      while used != 56
        invariant Valid() && 0 <= zeros <= ZeroCount(|m|) && fed == m + [0x80] + Zeros(zeros)
        decreases ZeroCount(|m|) - zeros
      {
        NotYet(m, zeros, fed, h, block[..used]);
        Update([0]);
        assert m + [0x80] + Zeros(zeros) + [0] == m + [0x80] + Zeros(zeros + 1);
        zeros := zeros + 1;
      }
      ReachedEnd(m, zeros, fed, h, block[..used]);
      LengthWraps(|m|);
      Update(LengthBytes(count));
      AllHashed(m, fed, h, block[..used]);
      out := Digest(h);
    }
  }

  lemma CountWraps(a: nat, b: nat)
    ensures (a % TWO64 + b) % TWO64 == (a + b) % TWO64
  {
  }

  /** Appending a whole block. */
  lemma BlocksGrow(m: seq<bv8>)
    requires 64 <= |m| && |m| % 64 == 0
    ensures Blocks(m) == Compressed(Blocks(m[..|m| - 64]), m[|m| - 64..])
  {
  }

  /** While the block is not filled to 56 bytes, another zero is due. */
  lemma NotYet(m: seq<bv8>, zeros: nat, fed: seq<bv8>, h: Words, rest: seq<bv8>)
    requires zeros <= ZeroCount(|m|) && |fed| == |m| + 1 + zeros && Absorbed(fed, h, rest) && |rest| != 56
    ensures zeros < ZeroCount(|m|)
  {
    hide Blocks;
  }

  lemma ReachedEnd(m: seq<bv8>, zeros: nat, fed: seq<bv8>, h: Words, rest: seq<bv8>)
    requires zeros <= ZeroCount(|m|) && |fed| == |m| + 1 + zeros && Absorbed(fed, h, rest) && |rest| == 56
    ensures zeros == ZeroCount(|m|)
  {
    hide Blocks, ZeroCount;
    assert (|m| + 1 + zeros) % 64 == 56;
    ZeroCountIsLeast(|m|, zeros);
  }

  /** After the length nothing is left over. */
  lemma AllHashed(m: seq<bv8>, fed: seq<bv8>, h: Words, rest: seq<bv8>)
    requires fed == Padded(m) && Absorbed(fed, h, rest)
    ensures Digest(h) == Hash(m)
  {
    hide Blocks, Digest, Padded;
    PaddedLength(m);
    assert |rest| % 64 == 0;
    assert fed[..|fed|] == fed;
  }

  /** The counter of bytes wraps at 2^64, the counter of bits made from it as well. */
  lemma LengthWraps(n: nat)
    ensures LengthBytes(n % TWO64) == LengthBytes(n)
  {
    BitsWrap(n);
    hide Bytes64;
  }

  lemma BitsWrap(n: nat)
    ensures 8 * (n % TWO64) % TWO64 == 8 * n % TWO64
  {
    var x := 8 * (n % TWO64);
    QuotientRemainder(8 * n, TWO64, 8 * (n / TWO64) + x / TWO64, x % TWO64);
  }

  method HashOf(msg: seq<bv8>) returns (out: seq<bv8>)
    ensures out == Hash(msg)
  {
    hide Hash, Absorbed;
    var c := new Context();
    c.Update(msg);
    assert [] + msg == msg;
    out := c.Final();
  }

  // ---------------------------------------------------------------------------
  // HMAC
  // ---------------------------------------------------------------------------

  function Xor(k: seq<bv8>, x: bv8): (r: seq<bv8>)
    ensures |r| == |k|
  {
    seq(|k|, i requires 0 <= i < |k| => XorByte(k[i], x))
  }

  function XorByte(a: bv8, b: bv8): bv8 { a ^ b }

  /** A key of any length as one block: hashed first if it is longer than that. */
  ghost function KeyBlock(key: seq<bv8>): (k: seq<bv8>)
    ensures |k| == 64
  {
    if |key| > 64 then Hash(key) + Zeros(32) else key + Zeros(64 - |key|)
  }

  /** Section 2 of RFC 2104. */
  ghost function Hmac(key: seq<bv8>, msg: seq<bv8>): (r: seq<bv8>)
    ensures |r| == 32
  {
    Hash(Xor(KeyBlock(key), 0x5c) + Hash(Xor(KeyBlock(key), 0x36) + msg))
  }

  /** Byte by byte: the outer pad is the key block with 0x5c, the inner one with 0x36, and the
      key block is the key, or its hash if it is longer than a block, filled up with zeros. */
  lemma HmacByBytes(key: seq<bv8>, msg: seq<bv8>, short: seq<bv8>, inner: seq<bv8>, outer: seq<bv8>)
    requires |inner| == |outer| == 64 && short == if |key| > 64 then Hash(key) else key
    requires forall i | 0 <= i < 64 :: inner[i] == (if i < |short| then short[i] else 0) ^ 0x36
    requires forall i | 0 <= i < 64 :: outer[i] == (if i < |short| then short[i] else 0) ^ 0x5c
    ensures Hmac(key, msg) == Hash(outer + Hash(inner + msg))
  {
    hide Hash;
    var k := KeyBlock(key);
    assert forall i | 0 <= i < 64 :: k[i] == if i < |short| then short[i] else 0;
    hide KeyBlock;
    assert inner == Xor(k, 0x36) && outer == Xor(k, 0x5c);
  }

  method XorInto(k: array<bv8>, x: bv8, pad: array<bv8>)
    requires k.Length == pad.Length && k != pad
    modifies pad
    ensures pad[..] == Xor(k[..], x)
  {
    hide XorByte;
    var i := 0;
    while i < k.Length
      invariant 0 <= i <= k.Length && k[..] == old(k[..])
      invariant forall j | 0 <= j < i :: pad[j] == XorByte(k[j], x)
    {
      pad[i] := XorByte(k[i], x);
      i := i + 1;
    }
  }

  /** The key block: 64 zero bytes with the key, or its hash, copied over the front. */
  method LoadKey(key: seq<bv8>, k: array<bv8>)
    requires k.Length == 64
    modifies k
    ensures k[..] == KeyBlock(key)
  {
    hide Hash;
    var front := key;
    if |key| > 64 { front := HashOf(key); }
    var i := 0;
    while i < 64
      invariant 0 <= i <= 64 && forall j | 0 <= j < i :: k[j] == if j < |front| then front[j] else 0
    {
      k[i] := if i < |front| then front[i] else 0;
      i := i + 1;
    }
  }

  /** The hash of a pad followed by a message, fed in two pieces. */
  method HashTwo(pad: array<bv8>, msg: seq<bv8>) returns (out: seq<bv8>)
    ensures out == Hash(pad[..] + msg)
  {
    hide Hash, Absorbed;
    var c := new Context();
    c.Update(pad[..]);
    c.Update(msg);
    assert [] + pad[..] + msg == pad[..] + msg;
    out := c.Final();
  }

  method HmacOf(key: seq<bv8>, msg: seq<bv8>) returns (out: seq<bv8>)
    ensures out == Hmac(key, msg)
  {
    hide Hash, KeyBlock, Xor;
    var k := new bv8[64];
    var pad := new bv8[64];
    LoadKey(key, k);
    XorInto(k, 0x36, pad);
    var inner := HashTwo(pad, msg);
    XorInto(k, 0x5c, pad);
    out := HashTwo(pad, inner);
  }

  // ---------------------------------------------------------------------------
  // Device authentication
  // ---------------------------------------------------------------------------

  /** "acq-auth-v1" */
  const DOMAIN: seq<bv8> := [0x61, 0x63, 0x71, 0x2d, 0x61, 0x75, 0x74, 0x68, 0x2d, 0x76, 0x31]

  /** The answer to a challenge: the first half of a MAC over domain, device id, firmware
      version and nonce. */
  ghost function Response(key: seq<bv8>, id: bv32, version: bv32, nonce: seq<bv8>): seq<bv8> {
    Hmac(key, DOMAIN + BigEndian(id) + BigEndian(version) + nonce)[..16]
  }

  /** What is signed: the characters of the domain, then id, version and nonce. */
  lemma ResponseByFields(key: seq<bv8>, id: bv32, version: bv32, nonce: seq<bv8>, domain: seq<bv8>)
    requires |domain| == 11 && forall i | 0 <= i < 11 :: domain[i] as int == "acq-auth-v1"[i] as int
    ensures Response(key, id, version, nonce) == Hmac(key, domain + BigEndian(id) + BigEndian(version) + nonce)[..16]
  {
    hide Hmac, BigEndian;
    DomainIs(domain);
  }

  lemma DomainIs(d: seq<bv8>)
    requires |d| == 11 && forall i | 0 <= i < 11 :: d[i] as int == "acq-auth-v1"[i] as int
    ensures d == DOMAIN
  {
    forall i | 0 <= i < 11
      ensures d[i] == DOMAIN[i]
    {
      assert DOMAIN[i] as int == "acq-auth-v1"[i] as int;
      SameByte(d[i], DOMAIN[i]);
    }
  }

  lemma SameByte(a: bv8, b: bv8)
    requires a as int == b as int
    ensures a == b
  {
  }

  method DevauthCompute(key: seq<bv8>, id: bv32, version: bv32, nonce: seq<bv8>) returns (mac: seq<bv8>)
    requires |key| == 32 && |nonce| == 16
    ensures mac == Response(key, id, version, nonce) && |mac| == 16
  {
    hide Hmac, BigEndian;
    var msg := new bv8[35];
    CopyInto(msg, 0, DOMAIN);
    CopyInto(msg, 11, BigEndian(id));
    CopyInto(msg, 15, BigEndian(version));
    CopyInto(msg, 19, nonce);
    assert msg[..] == msg[..19] + nonce && msg[..19] == msg[..15] + BigEndian(version);
    assert msg[..15] == msg[..11] + BigEndian(id) && msg[..11] == DOMAIN;
    var full := HmacOf(key, msg[..]);
    mac := full[..16];
  }

  method CopyInto(dst: array<bv8>, at: nat, src: seq<bv8>)
    requires at + |src| <= dst.Length
    modifies dst
    ensures dst[..at] == old(dst[..at]) && dst[at..at + |src|] == src
    ensures dst[..at + |src|] == old(dst[..at]) + src
  {
    var i := 0;
    while i < |src|
      invariant 0 <= i <= |src| && dst[..at] == old(dst[..at])
      invariant forall j | 0 <= j < i :: dst[at + j] == src[j]
    {
      dst[at + i] := src[i];
      i := i + 1;
    }
  }

  /** A key has been written unless all its bytes still read erased flash. */
  method KeyPresent(key: seq<bv8>) returns (present: bool)
    ensures present <==> exists i | 0 <= i < |key| :: key[i] != 0xFF
  {
    var i := 0;
    while i < |key|
      invariant 0 <= i <= |key| && forall j | 0 <= j < i :: key[j] == 0xFF
    {
      if key[i] != 0xFF { return true; }
      i := i + 1;
    }
    return false;
  }
}
