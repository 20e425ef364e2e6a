/** The constants of SHA-256, from their definition in FIPS 180-4, sections 4.2.2 and 5.3.3. */
module Sha256Constants {
  import opened Words
  import opened Sha256Spec

  const PRIMES: seq<nat> :=
    [2, 3, 5, 7, 11, 13, 17, 19, 23, 29, 31, 37, 41, 43, 47, 53]
    + [59, 61, 67, 71, 73, 79, 83, 89, 97, 101, 103, 107, 109, 113, 127, 131]
    + [137, 139, 149, 151, 157, 163, 167, 173, 179, 181, 191, 193, 197, 199, 211, 223]
    + [227, 229, 233, 239, 241, 251, 257, 263, 269, 271, 277, 281, 283, 293, 307, 311]

  predicate IsPrime(n: nat) {
    n >= 2 && forall d :: 2 <= d < n ==> n % d != 0
  }

  /** The integer part of the cube root. */
  function CubeRoot(p: nat): (n: nat)
    requires p < 343
    ensures n * n * n <= p < (n + 1) * (n + 1) * (n + 1)
  {
    if p < 1 then 0 else if p < 8 then 1 else if p < 27 then 2 else if p < 64 then 3
    else if p < 125 then 4 else if p < 216 then 5 else 6
  }

  /** `k` is the first 32 bits of the fractional part of the cube root of `p`. */
  predicate CubeRootBits(k: word, p: nat)
    requires p < 343
  {
    var c := CubeRoot(p) * TWO32 + k;
    c * c * c <= p * TWO32 * TWO32 * TWO32 < (c + 1) * (c + 1) * (c + 1)
  }

  /** `k` is the first 32 bits of the fractional part of the square root of `p`. */
  predicate SquareRootBits(k: word, p: nat)
    requires p < 25
  {
    var c := SquareRoot(p) * TWO32 + k;
    c * c <= p * TWO32 * TWO32 < (c + 1) * (c + 1)
  }

  function SquareRoot(p: nat): (n: nat)
    requires p < 25
    ensures n * n <= p < (n + 1) * (n + 1)
  {
    if p < 1 then 0 else if p < 4 then 1 else if p < 9 then 2 else if p < 16 then 3 else 4
  }

  lemma CubeRoots0()
    ensures CubeRootBits(0x428a2f98, 2) && CubeRootBits(0x71374491, 3)
    ensures CubeRootBits(0xb5c0fbcf, 5) && CubeRootBits(0xe9b5dba5, 7)
    ensures CubeRootBits(0x3956c25b, 11) && CubeRootBits(0x59f111f1, 13)
    ensures CubeRootBits(0x923f82a4, 17) && CubeRootBits(0xab1c5ed5, 19)
  {
  }

  lemma CubeRoots1()
    ensures CubeRootBits(0xd807aa98, 23) && CubeRootBits(0x12835b01, 29)
    ensures CubeRootBits(0x243185be, 31) && CubeRootBits(0x550c7dc3, 37)
    ensures CubeRootBits(0x72be5d74, 41) && CubeRootBits(0x80deb1fe, 43)
    ensures CubeRootBits(0x9bdc06a7, 47) && CubeRootBits(0xc19bf174, 53)
  {
  }

  lemma CubeRoots2()
    ensures CubeRootBits(0xe49b69c1, 59) && CubeRootBits(0xefbe4786, 61)
    ensures CubeRootBits(0x0fc19dc6, 67) && CubeRootBits(0x240ca1cc, 71)
    ensures CubeRootBits(0x2de92c6f, 73) && CubeRootBits(0x4a7484aa, 79)
    ensures CubeRootBits(0x5cb0a9dc, 83) && CubeRootBits(0x76f988da, 89)
  {
  }

  lemma CubeRoots3()
    ensures CubeRootBits(0x983e5152, 97) && CubeRootBits(0xa831c66d, 101)
    ensures CubeRootBits(0xb00327c8, 103) && CubeRootBits(0xbf597fc7, 107)
    ensures CubeRootBits(0xc6e00bf3, 109) && CubeRootBits(0xd5a79147, 113)
    ensures CubeRootBits(0x06ca6351, 127) && CubeRootBits(0x14292967, 131)
  {
  }

  lemma CubeRoots4()
    ensures CubeRootBits(0x27b70a85, 137) && CubeRootBits(0x2e1b2138, 139)
    ensures CubeRootBits(0x4d2c6dfc, 149) && CubeRootBits(0x53380d13, 151)
    ensures CubeRootBits(0x650a7354, 157) && CubeRootBits(0x766a0abb, 163)
    ensures CubeRootBits(0x81c2c92e, 167) && CubeRootBits(0x92722c85, 173)
  {
  }

  lemma CubeRoots5()
    ensures CubeRootBits(0xa2bfe8a1, 179) && CubeRootBits(0xa81a664b, 181)
    ensures CubeRootBits(0xc24b8b70, 191) && CubeRootBits(0xc76c51a3, 193)
    ensures CubeRootBits(0xd192e819, 197) && CubeRootBits(0xd6990624, 199)
    ensures CubeRootBits(0xf40e3585, 211) && CubeRootBits(0x106aa070, 223)
  {
  }

  lemma CubeRoots6()
    ensures CubeRootBits(0x19a4c116, 227) && CubeRootBits(0x1e376c08, 229)
    ensures CubeRootBits(0x2748774c, 233) && CubeRootBits(0x34b0bcb5, 239)
    ensures CubeRootBits(0x391c0cb3, 241) && CubeRootBits(0x4ed8aa4a, 251)
    ensures CubeRootBits(0x5b9cca4f, 257) && CubeRootBits(0x682e6ff3, 263)
  {
  }

  lemma CubeRoots7()
    ensures CubeRootBits(0x748f82ee, 269) && CubeRootBits(0x78a5636f, 271)
    ensures CubeRootBits(0x84c87814, 277) && CubeRootBits(0x8cc70208, 281)
    ensures CubeRootBits(0x90befffa, 283) && CubeRootBits(0xa4506ceb, 293)
    ensures CubeRootBits(0xbef9a3f7, 307) && CubeRootBits(0xc67178f2, 311)
  {
  }

  lemma KQuarter0(i: nat)
    requires 0 <= i < 16
    ensures PRIMES[i] < 343 && CubeRootBits(K[i], PRIMES[i])
  {
    hide CubeRootBits;
    CubeRoots0();
    CubeRoots1();
  }

  lemma KQuarter1(i: nat)
    requires 16 <= i < 32
    ensures PRIMES[i] < 343 && CubeRootBits(K[i], PRIMES[i])
  {
    hide CubeRootBits;
    CubeRoots2();
    CubeRoots3();
  }

  lemma KQuarter2(i: nat)
    requires 32 <= i < 48
    ensures PRIMES[i] < 343 && CubeRootBits(K[i], PRIMES[i])
  {
    hide CubeRootBits;
    CubeRoots4();
    CubeRoots5();
  }

  lemma KQuarter3(i: nat)
    requires 48 <= i < 64
    ensures PRIMES[i] < 343 && CubeRootBits(K[i], PRIMES[i])
  {
    hide CubeRootBits;
    CubeRoots6();
    CubeRoots7();
  }

  /** Section 4.2.2: the constants are the first 32 bits of the fractional parts of the cube roots of the first
      sixty-four primes. */
  lemma KFromCubeRoots(i: nat)
    requires i < 64
    ensures PRIMES[i] < 343 && CubeRootBits(K[i], PRIMES[i])
  {
    if i < 16 {
      KQuarter0(i);
    } else if i < 32 {
      KQuarter1(i);
    } else if i < 48 {
      KQuarter2(i);
    } else {
      KQuarter3(i);
    }
  }

  /** Section 5.3.3: the initial hash value, from the square roots of the first eight primes. */
  lemma InitialFromSquareRoots()
    ensures SquareRootBits(H0.a, 2) && SquareRootBits(H0.b, 3) && SquareRootBits(H0.c, 5) && SquareRootBits(H0.d, 7)
    ensures SquareRootBits(H0.e, 11) && SquareRootBits(H0.f, 13)
    ensures SquareRootBits(H0.g, 17) && SquareRootBits(H0.h, 19)
  {
  }

  // ---- The first sixty-four primes ----

  /** No prime up to 17 divides `n`. */
  predicate Sieved(n: nat) {
    n % 2 != 0 && n % 3 != 0 && n % 5 != 0 && n % 7 != 0 && n % 11 != 0 && n % 13 != 0 && n % 17 != 0
  }

  lemma SmallFactor(n: nat, d: nat)
    requires 2 <= d <= 18 && n % d == 0
    ensures !Sieved(n)
  {
    if d % 2 == 0 {
      Factor(n, d, 2);
    } else if d % 3 == 0 {
      Factor(n, d, 3);
    } else if d == 5 {
      Factor(n, d, 5);
    }
  }

  lemma Factor(n: nat, d: nat, p: nat)
    requires 0 < p && 0 < d && n % d == 0 && d % p == 0
    ensures n % p == 0
  {
    var q, r := n / d, d / p;
    DivMod(n, d);
    DivMod(d, p);
    assert n == p * (r * q) by { assert (p * r) * q == p * (r * q); }
    UniqueQuotient(n, p, r * q, 0);
  }

  /** Below 19 squared, the sieve finds the primes. */
  lemma SieveFindsPrimes(n: nat)
    requires 19 <= n < 361
    ensures IsPrime(n) <==> Sieved(n)
  {
    if !Sieved(n) {
      var d := if n % 2 == 0 then 2 else if n % 3 == 0 then 3 else if n % 5 == 0 then 5 else if n % 7 == 0 then 7
               else if n % 11 == 0 then 11 else if n % 13 == 0 then 13 else 17;
      assert n % d == 0;
    } else {
      forall d | 2 <= d < n ensures n % d != 0 {
        if n % d == 0 {
          if d <= 18 {
            SmallFactor(n, d);
          } else {
            LargeFactor(n, d);
            SmallFactor(n, n / d);
          }
        }
      }
    }
  }

  lemma LargeFactor(n: nat, d: nat)
    requires n < 361 && 19 <= d < n && n % d == 0
    ensures 2 <= n / d <= 18 && n % (n / d) == 0
  {
    var q := n / d;
    DivMod(n, d);
    assert n == d * q;
    if q >= 19 { Beyond(d, q, 18); }
    if q <= 1 { assert q == 0 || q == 1; }
    UniqueQuotient(n, q, d, 0);
  }

  predicate Listed(n: nat) {
    n in {
      2, 3, 5, 7, 11, 13, 17, 19, 23, 29, 31, 37, 41, 43, 47, 53, 59, 61, 67, 71, 73, 79,
      83, 89, 97, 101, 103, 107, 109, 113, 127, 131, 137, 139, 149, 151, 157, 163, 167, 173, 179, 181, 191, 193,
      197, 199, 211, 223, 227, 229, 233, 239, 241, 251, 257, 263, 269, 271, 277, 281, 283, 293, 307, 311}
  }

  lemma SievedAreListed0(q: nat, r: nat)
    requires 3 <= q < 10 && (r == 1 || r == 5) && Sieved(6 * q + r)
    ensures Listed(6 * q + r)
  {
  }

  lemma SievedAreListed1(q: nat, r: nat)
    requires 10 <= q < 17 && (r == 1 || r == 5) && Sieved(6 * q + r)
    ensures Listed(6 * q + r)
  {
  }

  lemma SievedAreListed2(q: nat, r: nat)
    requires 17 <= q < 24 && (r == 1 || r == 5) && Sieved(6 * q + r)
    ensures Listed(6 * q + r)
  {
  }

  lemma SievedAreListed3(q: nat, r: nat)
    requires 24 <= q < 31 && (r == 1 || r == 5) && Sieved(6 * q + r)
    ensures Listed(6 * q + r)
  {
  }

  lemma SievedAreListed4(q: nat, r: nat)
    requires 31 <= q < 38 && (r == 1 || r == 5) && Sieved(6 * q + r)
    ensures Listed(6 * q + r)
  {
  }

  lemma SievedAreListed5(q: nat, r: nat)
    requires 38 <= q < 45 && (r == 1 || r == 5) && Sieved(6 * q + r)
    ensures Listed(6 * q + r)
  {
  }

  lemma SievedAreListed6(q: nat, r: nat)
    requires 45 <= q < 52 && (r == 1 || r == 5) && Sieved(6 * q + r)
    ensures Listed(6 * q + r)
  {
  }

  /** What 2 and 3 leave is one more or one less than a multiple of six. */
  lemma SixfoldForm(n: nat) returns (q: nat, r: nat)
    requires n % 2 != 0 && n % 3 != 0
    ensures n == 6 * q + r && (r == 1 || r == 5)
  {
    q, r := n / 6, n % 6;
    DivMod(n, 6);
    if r % 2 == 0 {
      UniqueQuotient(n, 2, 3 * q + r / 2, 0);
    } else if r == 3 {
      UniqueQuotient(n, 3, 2 * q + 1, 0);
    }
  }

  lemma SievedAreListed(n: nat)
    requires 19 <= n < 312 && Sieved(n)
    ensures Listed(n)
  {
    hide Listed;
    var q, r := SixfoldForm(n);
    if q < 10 {
      SievedAreListed0(q, r);
    } else if q < 17 {
      SievedAreListed1(q, r);
    } else if q < 24 {
      SievedAreListed2(q, r);
    } else if q < 31 {
      SievedAreListed3(q, r);
    } else if q < 38 {
      SievedAreListed4(q, r);
    } else if q < 45 {
      SievedAreListed5(q, r);
    } else {
      SievedAreListed6(q, r);
    }
  }

  lemma LowerPrimesAreSieved(i: nat)
    requires 7 <= i < 36
    ensures 19 <= PRIMES[i] < 312 && Sieved(PRIMES[i])
  {
  }

  lemma HigherPrimesAreSieved(i: nat)
    requires 36 <= i < 64
    ensures 19 <= PRIMES[i] < 312 && Sieved(PRIMES[i])
  {
  }

  lemma NothingListedBetween(i: nat, n: nat)
    requires 8 <= i < 64 && PRIMES[i - 1] < n < PRIMES[i]
    ensures 19 <= n < 312 && !Listed(n)
  {
  }

  /** The table holds the first sixty-four primes: it starts with 2, and each entry is the next prime after the
      entry before it. */
  lemma FirstPrimes(i: nat)
    requires i < 64
    ensures IsPrime(PRIMES[i]) && PRIMES[0] == 2
    ensures i > 0 ==> PRIMES[i - 1] < PRIMES[i] && forall n :: PRIMES[i - 1] < n < PRIMES[i] ==> !IsPrime(n)
  {
    if i >= 8 {
      if i < 36 { LowerPrimesAreSieved(i); } else { HigherPrimesAreSieved(i); }
      SieveFindsPrimes(PRIMES[i]);
      forall n | PRIMES[i - 1] < n < PRIMES[i] ensures !IsPrime(n) {
        NothingListedBetween(i, n);
        SieveFindsPrimes(n);
        if Sieved(n) { SievedAreListed(n); }
      }
    } else {
      SmallPrimes(i);
    }
  }

  lemma SmallPrimes(i: nat)
    requires i < 8
    ensures IsPrime(PRIMES[i])
    ensures i > 0 ==> PRIMES[i - 1] < PRIMES[i] && forall n :: PRIMES[i - 1] < n < PRIMES[i] ==> !IsPrime(n)
  {
    forall n | i > 0 && PRIMES[i - 1] < n < PRIMES[i] ensures !IsPrime(n) {
      assert n % 2 == 0 || n % 3 == 0;
    }
  }
}
