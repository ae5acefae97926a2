/**
 Where the constants come from, section 4.2.2 and section 5.3.3 of FIPS 180-4: the first 32
 bits of the fractional parts of the cube roots of the first 64 primes, and of the square
 roots of the first eight.
 */
module Sha256Constants {
  import opened Arithmetic
  import opened Sha256

  const PRIMES: seq<seq<nat>> := [
    [2, 3, 5, 7, 11, 13, 17, 19],
    [23, 29, 31, 37, 41, 43, 47, 53],
    [59, 61, 67, 71, 73, 79, 83, 89],
    [97, 101, 103, 107, 109, 113, 127, 131],
    [137, 139, 149, 151, 157, 163, 167, 173],
    [179, 181, 191, 193, 197, 199, 211, 223],
    [227, 229, 233, 239, 241, 251, 257, 263],
    [269, 271, 277, 281, 283, 293, 307, 311]]

  /** The whole part of a cube root, of a number below 343. */
  function WholeCubeRoot(p: nat): nat {
    if p < 8 then 1 else if p < 27 then 2 else if p < 64 then 3 else if p < 125 then 4 else if p < 216 then 5 else 6
  }

  /** `k` is the fraction of the cube root of `p`, to 32 bits. */
  ghost predicate CubeRoot(p: nat, k: bv32) {
    var c := WholeCubeRoot(p) * TWO32 + k as nat;
    c * c * c <= p * (TWO32 * TWO64) < (c + 1) * (c + 1) * (c + 1)
  }

  function WholeSquareRoot(p: nat): nat { if p < 4 then 1 else if p < 9 then 2 else if p < 16 then 3 else 4 }

  ghost predicate SquareRoot(p: nat, k: bv32) {
    var c := WholeSquareRoot(p) * TWO32 + k as nat;
    c * c <= p * TWO64 < (c + 1) * (c + 1)
  }

  lemma Row0()
    ensures forall j | 0 <= j < 8 :: CubeRoot(PRIMES[0][j], K256[0][j])
  {
  }

  lemma Row1()
    ensures forall j | 0 <= j < 8 :: CubeRoot(PRIMES[1][j], K256[1][j])
  {
  }

  lemma Row2()
    ensures forall j | 0 <= j < 8 :: CubeRoot(PRIMES[2][j], K256[2][j])
  {
  }

  lemma Row3()
    ensures forall j | 0 <= j < 8 :: CubeRoot(PRIMES[3][j], K256[3][j])
  {
  }

  lemma Row4()
    ensures forall j | 0 <= j < 8 :: CubeRoot(PRIMES[4][j], K256[4][j])
  {
  }

  lemma Row5()
    ensures forall j | 0 <= j < 8 :: CubeRoot(PRIMES[5][j], K256[5][j])
  {
  }

  lemma Row6()
    ensures forall j | 0 <= j < 8 :: CubeRoot(PRIMES[6][j], K256[6][j])
  {
  }

  lemma Row7()
    ensures forall j | 0 <= j < 8 :: CubeRoot(PRIMES[7][j], K256[7][j])
  {
  }

  /** Every round constant is what it should be. */
  lemma ConstantsAreCubeRoots(i: nat)
    requires i < 64
    ensures CubeRoot(PRIMES[i / 8][i % 8], Constant(i))
  {
    Row0();
    Row1();
    Row2();
    Row3();
    Row4();
    Row5();
    Row6();
    Row7();
    hide CubeRoot;
    var r, j := i / 8, i % 8;
    assert r == 0 || r == 1 || r == 2 || r == 3 || r == 4 || r == 5 || r == 6 || r == 7;
  }

  /** And every word of the initial hash value. */
  lemma StartIsSquareRoots()
    ensures SquareRoot(2, IV.a) && SquareRoot(3, IV.b) && SquareRoot(5, IV.c) && SquareRoot(7, IV.d)
    ensures SquareRoot(11, IV.e) && SquareRoot(13, IV.f) && SquareRoot(17, IV.g) && SquareRoot(19, IV.h)
  {
  }
}
