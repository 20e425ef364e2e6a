/** 32-bit words: the operations of FIPS 180-4, section 3. */
module Words {
  const TWO32 := 0x1_0000_0000

  type word = x: int | 0 <= x < TWO32

  function Pow2(n: nat): (p: nat)
    ensures p > 0
  {
    if n == 0 then 1 else 2 * Pow2(n - 1)
  }

  /** `x` without its `n` low bits. */
  function Down(x: nat, n: nat): (r: nat)
    ensures r <= x
  {
    if n == 0 then x else Down(x / 2, n - 1)
  }

  /** `x` with `n` zero bits appended. */
  function Up(x: nat, n: nat): (r: nat) {
    if n == 0 then x else 2 * Up(x, n - 1)
  }

  function Bit(x: nat, i: nat): bool {
    Down(x, i) % 2 == 1
  }

  /** The `w` low bits of `x` and `y` combined by `f`. */
  function Bitwise(f: (bool, bool) -> bool, x: nat, y: nat, w: nat): (r: nat)
    ensures r < Pow2(w)
  {
    if w == 0 then 0 else (if f(x % 2 == 1, y % 2 == 1) then 1 else 0) + 2 * Bitwise(f, x / 2, y / 2, w - 1)
  }

  predicate Both(a: bool, b: bool) { a && b }
  predicate Either(a: bool, b: bool) { a || b }
  predicate Differ(a: bool, b: bool) { a != b }
  predicate Neither(a: bool, b: bool) { !a && !b }

  function And(x: word, y: word): word {
    Pow2Is32();
    Bitwise(Both, x, y, 32)
  }

  function Or(x: word, y: word): word {
    Pow2Is32();
    Bitwise(Either, x, y, 32)
  }

  function Xor(x: word, y: word): word {
    Pow2Is32();
    Bitwise(Differ, x, y, 32)
  }

  function Not(x: word): word {
    Pow2Is32();
    Bitwise(Neither, x, 0, 32)
  }

  function Add(x: word, y: word): word {
    (x + y) % TWO32
  }

  function Shr(x: word, n: nat): word {
    Down(x, n)
  }

  function Shl(x: word, n: nat): word {
    Up(x, n) % TWO32
  }

  function Rotr(x: word, n: nat): word
    requires n <= 32
  {
    Or(Shr(x, n), Shl(x, 32 - n))
  }

  lemma Pow2Is32()
    ensures Pow2(32) == TWO32
  {
    assert Pow2(8) == 0x100;
    assert Pow2(16) == 0x1_0000;
    assert Pow2(24) == 0x100_0000;
  }

  // ---- What the operations do to single bits ----

  lemma {:induction false} BitOfBitwise(f: (bool, bool) -> bool, x: nat, y: nat, w: nat, i: nat)
    requires i < w
    ensures Bit(Bitwise(f, x, y, w), i) == f(Bit(x, i), Bit(y, i))
  {
    var rest := Bitwise(f, x / 2, y / 2, w - 1);
    assert Bitwise(f, x, y, w) / 2 == rest;
    if i > 0 { BitOfBitwise(f, x / 2, y / 2, w - 1, i - 1); }
  }

  lemma {:induction false} BitOfDown(x: nat, n: nat, i: nat)
    ensures Bit(Down(x, n), i) == Bit(x, i + n)
  {
    if n > 0 { BitOfDown(x / 2, n - 1, i); }
  }

  lemma {:induction false} BitOfUp(x: nat, n: nat, i: nat)
    ensures Bit(Up(x, n), i) == (i >= n && Bit(x, i - n))
  {
    if n > 0 && i > 0 {
      assert Up(x, n) / 2 == Up(x, n - 1);
      BitOfUp(x, n - 1, i - 1);
    }
  }

  lemma {:induction false} HighBitsAreZero(x: nat, i: nat)
    requires x < Pow2(i)
    ensures Down(x, i) == 0
  {
    if i > 0 { HighBitsAreZero(x / 2, i - 1); }
  }

  /** Reducing modulo a power of two keeps the bits below it. */
  lemma {:induction false} BitOfLow(x: nat, w: nat, i: nat)
    requires i < w
    ensures Bit(x % Pow2(w), i) == Bit(x, i)
  {
    var m := Pow2(w - 1);
    HalveRemainder(x, m);
    if i > 0 { BitOfLow(x / 2, w - 1, i - 1); }
  }

  lemma HalveRemainder(x: nat, m: nat)
    requires m > 0
    ensures x % (2 * m) / 2 == x / 2 % m && x % (2 * m) % 2 == x % 2
  {
    var q, r := x / 2 / m, x / 2 % m;
    DivMod(x / 2, m);
    assert x == (2 * m) * q + (2 * r + x % 2) by { assert 2 * (m * q) == (2 * m) * q; }
    UniqueQuotient(x, 2 * m, q, 2 * r + x % 2);
  }

  lemma DivMod(x: nat, d: nat)
    requires d > 0
    ensures x == d * (x / d) + x % d && 0 <= x % d < d && 0 <= x / d
  {
  }

  lemma Beyond(d: nat, p: int, q: int)
    requires p > q
    ensures d * p >= d * q + d
  {
    var more := p - q - 1;
    assert p == q + 1 + more;
    assert d * p == d * q + d + d * more;
    TimesIsNatural(d, more);
  }

  lemma TimesIsNatural(a: nat, b: nat)
    ensures a * b >= 0
  {
  }

  lemma UniqueQuotient(x: nat, d: nat, q: int, r: nat)
    requires d > 0 && x == d * q + r && r < d
    ensures x / d == q && x % d == r
  {
    DivMod(x, d);
    if x / d > q {
      Beyond(d, x / d, q);
    } else if x / d < q {
      Beyond(d, q, x / d);
    }
  }

  lemma DivideTwice(x: nat, a: nat, b: nat)
    requires a > 0 && b > 0
    ensures a * b > 0 && x / (a * b) == x / a / b
  {
    var s := x / a;
    DivMod(x, a);
    DivMod(s, b);
    var q, r := s / b, a * (s % b) + x % a;
    assert x == a * (b * q + s % b) + x % a;
    assert a * (b * q) == (a * b) * q;
    assert x == (a * b) * q + r;
    Beyond(a, b, s % b);
    assert a * b > 0 by { Beyond(a, b, 0); }
    UniqueQuotient(x, a * b, q, r);
  }

  /** A rotation is circular: bit i of the result is bit i + n, modulo 32, of the argument. */
  lemma RotationIsCircular(x: word, n: nat, i: nat)
    requires 0 < n < 32 && i < 32
    ensures Bit(Rotr(x, n), i) == Bit(x, (i + n) % 32)
  {
    hide Bitwise, Down, Up, Pow2;
    Pow2Is32();
    BitOfBitwise(Either, Shr(x, n), Shl(x, 32 - n), 32, i);
    BitOfDown(x, n, i);
    BitOfLow(Up(x, 32 - n), 32, i);
    BitOfUp(x, 32 - n, i);
    if i + n >= 32 {
      HighBitsAreZero(x, 32);
      BitOfDown(x, 32, i + n - 32);
      DownOfZero(i + n - 32);
    }
  }

  lemma {:induction false} DownOfZero(i: nat)
    ensures Down(0, i) == 0
  {
    if i > 0 { DownOfZero(i - 1); }
  }

  /** The complement of a word, as arithmetic. */
  lemma {:induction false} ComplementIsDifference(x: nat, w: nat)
    requires x < Pow2(w)
    ensures Bitwise(Neither, x, 0, w) == Pow2(w) - 1 - x
  {
    if w > 0 { ComplementIsDifference(x / 2, w - 1); }
  }

  /** Numbers without common bits are joined by adding them. */
  lemma {:induction false} OrIsSum(a: nat, k: nat, b: nat, w: nat)
    requires b < Pow2(k) && k <= w && Up(a, k) < Pow2(w)
    ensures Bitwise(Either, Up(a, k), b, w) == Up(a, k) + b
  {
    if k == 0 {
      OrWithZero(a, w);
    } else {
      OrIsSum(a, k - 1, b / 2, w - 1);
      assert Up(a, k) / 2 == Up(a, k - 1);
    }
  }

  lemma {:induction false} OrWithZero(a: nat, w: nat)
    requires a < Pow2(w)
    ensures Bitwise(Either, a, 0, w) == a
  {
    if w > 0 { OrWithZero(a / 2, w - 1); }
  }
}
