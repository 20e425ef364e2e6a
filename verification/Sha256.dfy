/** JavaScript numbers where they stand for 32-bit words: bit operators take any safe integer and return a signed or
    unsigned 32-bit number. */
module JsNumbers {
  import opened Words

  const SAFE := 0x1F_FFFF_FFFF_FFFF     // Number.MAX_SAFE_INTEGER

  function ToUint32(n: int): word {
    n % TWO32
  }

  function ToInt32(n: int): (r: int)
    ensures InRange(r) && ToUint32(r) == ToUint32(n)
  {
    Signed(ToUint32(n))
  }

  /** The signed number with the bits of a word. */
  function Signed(u: word): (r: int)
    ensures InRange(r) && ToUint32(r) == u
  {
    if u >= 0x8000_0000 then u - TWO32 else u
  }

  /** Signed or unsigned 32-bit. */
  predicate InRange(x: int) {
    -0x8000_0000 <= x < TWO32
  }

  /** Addition is exact while it stays within the safe integers. */
  function Plus(x: int, y: int): (r: int)
    requires -SAFE <= x + y <= SAFE
    ensures r == x + y && ToUint32(r) == Add(ToUint32(x), ToUint32(y))
  {
    x + y
  }

  function BitAnd(x: int, y: int): (r: int)
    ensures InRange(r) && ToUint32(r) == And(ToUint32(x), ToUint32(y))
  {
    Signed(And(ToUint32(x), ToUint32(y)))
  }

  function BitOr(x: int, y: int): (r: int)
    ensures InRange(r) && ToUint32(r) == Or(ToUint32(x), ToUint32(y))
  {
    Signed(Or(ToUint32(x), ToUint32(y)))
  }

  function BitXor(x: int, y: int): (r: int)
    ensures InRange(r) && ToUint32(r) == Xor(ToUint32(x), ToUint32(y))
  {
    Signed(Xor(ToUint32(x), ToUint32(y)))
  }

  function BitNot(x: int): (r: int)
    ensures InRange(r) && ToUint32(r) == Not(ToUint32(x))
  {
    NotIsComplement(x);
    -ToInt32(x) - 1
  }

  function ShiftLeft(x: int, n: nat): (r: int)
    requires n < 32
    ensures InRange(r) && ToUint32(r) == Shl(ToUint32(x), n)
  {
    Signed(Shl(ToUint32(x), n))
  }

  function ShiftRightUnsigned(x: int, n: nat): (r: int)
    requires n < 32
    ensures 0 <= r < TWO32 && ToUint32(r) == r == Shr(ToUint32(x), n)
  {
    Shr(ToUint32(x), n)
  }

  lemma NotIsComplement(x: int)
    ensures ToUint32(-ToInt32(x) - 1) == Not(ToUint32(x))
  {
    Pow2Is32();
    ComplementIsDifference(ToUint32(x), 32);
  }
}

/** SHA-256 as FIPS 180-4 defines it. */
module Sha256Spec {
  import opened Words

  type byte = x: int | 0 <= x < 256

  const K: seq<word> :=
      [
        0x428a2f98, 0x71374491, 0xb5c0fbcf, 0xe9b5dba5, 0x3956c25b, 0x59f111f1, 0x923f82a4, 0xab1c5ed5,
        0xd807aa98, 0x12835b01, 0x243185be, 0x550c7dc3, 0x72be5d74, 0x80deb1fe, 0x9bdc06a7, 0xc19bf174]
      + [
        0xe49b69c1, 0xefbe4786, 0x0fc19dc6, 0x240ca1cc, 0x2de92c6f, 0x4a7484aa, 0x5cb0a9dc, 0x76f988da,
        0x983e5152, 0xa831c66d, 0xb00327c8, 0xbf597fc7, 0xc6e00bf3, 0xd5a79147, 0x06ca6351, 0x14292967]
      + [
        0x27b70a85, 0x2e1b2138, 0x4d2c6dfc, 0x53380d13, 0x650a7354, 0x766a0abb, 0x81c2c92e, 0x92722c85,
        0xa2bfe8a1, 0xa81a664b, 0xc24b8b70, 0xc76c51a3, 0xd192e819, 0xd6990624, 0xf40e3585, 0x106aa070]
      + [
        0x19a4c116, 0x1e376c08, 0x2748774c, 0x34b0bcb5, 0x391c0cb3, 0x4ed8aa4a, 0x5b9cca4f, 0x682e6ff3,
        0x748f82ee, 0x78a5636f, 0x84c87814, 0x8cc70208, 0x90befffa, 0xa4506ceb, 0xbef9a3f7, 0xc67178f2]

  /** The eight working variables, and the eight words of a hash value. */
  datatype Words8 = Words8(a: word, b: word, c: word, d: word, e: word, f: word, g: word, h: word)

  const H0 := Words8(
    0x6a09e667, 0xbb67ae85, 0x3c6ef372, 0xa54ff53a, 0x510e527f, 0x9b05688c, 0x1f83d9ab, 0x5be0cd19)

  // Section 4.1.2.
  function Ch(x: word, y: word, z: word): word { Xor(And(x, y), And(Not(x), z)) }
  function Maj(x: word, y: word, z: word): word { Xor(Xor(And(x, y), And(x, z)), And(y, z)) }
  function BigSigma0(x: word): word { Xor(Xor(Rotr(x, 2), Rotr(x, 13)), Rotr(x, 22)) }
  function BigSigma1(x: word): word { Xor(Xor(Rotr(x, 6), Rotr(x, 11)), Rotr(x, 25)) }
  function SmallSigma0(x: word): word { Xor(Xor(Rotr(x, 7), Rotr(x, 18)), Shr(x, 3)) }
  function SmallSigma1(x: word): word { Xor(Xor(Rotr(x, 17), Rotr(x, 19)), Shr(x, 10)) }

  // Section 5.1.1, in bytes: the bit "1" and seven zero bits, zero bytes, and the length in bits.

  const ONE_BIT: seq<byte> := [0x80]

  function ZeroBytes(length: nat): (z: nat)
    ensures z < 64 && (length + 1 + z) % 64 == 56
  {
    (55 - length) % 64
  }

  function Zeros(n: nat): (s: seq<byte>)
    ensures |s| == n && forall i :: 0 <= i < n ==> s[i] == 0
  {
    seq(n, i => 0)
  }

  /** The low `w` bytes of a number, most significant first. */
  function BigEndian(n: nat, w: nat): (s: seq<byte>)
    ensures |s| == w
  {
    if w == 0 then [] else BigEndian(n / 256, w - 1) + [n % 256]
  }

  function FromBigEndian(s: seq<byte>): nat {
    if |s| == 0 then 0 else FromBigEndian(s[..|s| - 1]) * 256 + s[|s| - 1]
  }

  function Padded(message: seq<byte>): (p: seq<byte>)
    ensures |p| % 64 == 0 && |p| >= 64
  {
    var z := ZeroBytes(|message|);
    assert (|message| + 1 + z + 8) % 64 == 0;
    message + ONE_BIT + Zeros(z) + BigEndian(|message| * 8, 8)
  }

  // Section 5.2.1: blocks of sixteen words.

  function WordAt(p: seq<byte>, j: nat): word
    requires j + 4 <= |p|
  {
    p[j] as int * 0x100_0000 + p[j + 1] as int * 0x1_0000 + p[j + 2] as int * 0x100 + p[j + 3] as int
  }

  // Section 6.2.2.

  /** Word `t` of the message schedule of the block at `offset`. */
  function Schedule(p: seq<byte>, offset: nat, t: nat): word
    requires offset + 64 <= |p|
  {
    if t < 16 then WordAt(p, offset + 4 * t)
    else
      Add(Add(Add(SmallSigma1(Schedule(p, offset, t - 2)), Schedule(p, offset, t - 7)),
              SmallSigma0(Schedule(p, offset, t - 15))), Schedule(p, offset, t - 16))
  }

  function Round(v: Words8, k: word, w: word): Words8 {
    var t1 := Add(Add(Add(Add(v.h, BigSigma1(v.e)), Ch(v.e, v.f, v.g)), k), w);
    var t2 := Add(BigSigma0(v.a), Maj(v.a, v.b, v.c));
    Words8(Add(t1, t2), v.a, v.b, v.c, Add(v.d, t1), v.e, v.f, v.g)
  }

  function Rounds(v: Words8, p: seq<byte>, offset: nat, t: nat): Words8
    requires offset + 64 <= |p| && t <= 64
  {
    if t == 0 then v else Round(Rounds(v, p, offset, t - 1), K[t - 1], Schedule(p, offset, t - 1))
  }

  function Sum8(v: Words8, h: Words8): Words8 {
    Words8(Add(v.a, h.a), Add(v.b, h.b), Add(v.c, h.c), Add(v.d, h.d),
           Add(v.e, h.e), Add(v.f, h.f), Add(v.g, h.g), Add(v.h, h.h))
  }

  /** The hash value after `n` blocks. */
  function HashBlocks(p: seq<byte>, n: nat): Words8
    requires 64 * n <= |p|
  {
    if n == 0 then H0
    else
      var h := HashBlocks(p, n - 1);
      Sum8(Rounds(h, p, 64 * (n - 1), 64), h)
  }

  function Digest(message: seq<byte>): Words8 {
    HashBlocks(Padded(message), |Padded(message)| / 64)
  }

  /** The padding is what section 5.1.1 asks for: `k`, the number of zero bits after the bit "1", is the least
      solution of l + 1 + k = 448 modulo 512, and the last eight bytes are the length in bits. */
  lemma PaddingIsMinimal(message: seq<byte>)
    ensures var l, k := 8 * |message|, 7 + 8 * ZeroBytes(|message|);
            && Aligned(l, k) && (forall m: nat :: Aligned(l, m) ==> k <= m)
            && 8 * |Padded(message)| == l + 1 + k + 64
            && (l < 0x1_0000_0000_0000_0000 ==>
                  FromBigEndian(Padded(message)[|Padded(message)| - 8..]) == l)
  {
    ZeroBitsAreLeast(|message|);
    assert Padded(message)[|Padded(message)| - 8..] == BigEndian(|message| * 8, 8);
    if 8 * |message| < 0x1_0000_0000_0000_0000 {
      BigEndianIsExact(|message| * 8, 8);
      assert Pow256(2) == 0x1_0000;
      assert Pow256(4) == 0x1_0000_0000;
      assert Pow256(6) == 0x1_0000_0000_0000;
    }
  }

  predicate Aligned(l: nat, k: nat) {
    (l + 1 + k) % 512 == 448
  }

  lemma ZeroBitsAreLeast(length: nat)
    ensures Aligned(8 * length, 7 + 8 * ZeroBytes(length))
    ensures forall m: nat :: Aligned(8 * length, m) ==> 7 + 8 * ZeroBytes(length) <= m
  {
    forall m: nat | Aligned(8 * length, m) ensures 7 + 8 * ZeroBytes(length) <= m {
      var q, r := (55 - length) / 64, (8 * length + 1 + m) / 512;
      assert 55 - length == 64 * q + ZeroBytes(length);
      assert m == 512 * (q + r) + 8 * ZeroBytes(length) + 7;
    }
  }

  function Pow256(n: nat): (p: nat)
    ensures p > 0
  {
    if n == 0 then 1 else 256 * Pow256(n - 1)
  }

  lemma {:induction false} BigEndianIsExact(n: nat, w: nat)
    ensures n < Pow256(w) ==> FromBigEndian(BigEndian(n, w)) == n
  {
    if w > 0 {
      var s := BigEndian(n, w);
      assert s[..|s| - 1] == BigEndian(n / 256, w - 1);
      BigEndianIsExact(n / 256, w - 1);
    }
  }
}
