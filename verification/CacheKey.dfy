/** The hand-written SHA-256 of the cache key: loops over JavaScript numbers, signed and unsigned mixed. */
module CacheKey {
  import opened Options
  import opened Words
  import opened JsNumbers
  import opened Sha256Spec
  import opened UriEncoding
  import opened HexText

  // ---- The JavaScript expressions, and the words they stand for ----

  function Rotate(x: int, n: nat): (r: int)
    requires 0 < n < 32
    ensures ToUint32(r) == Rotr(ToUint32(x), n) && InRange(r)
  {
    BitOr(ShiftRightUnsigned(x, n), ShiftLeft(x, 32 - n))
  }

  function Xor3(x: int, y: int, z: int): (r: int)
    ensures ToUint32(r) == Xor(Xor(ToUint32(x), ToUint32(y)), ToUint32(z)) && InRange(r)
  {
    BitXor(BitXor(x, y), z)
  }

  function Expanded(w16: int, w15: int, w7: int, w2: int): int
    requires InRange(w16) && InRange(w15) && InRange(w7) && InRange(w2)
  {
    var s0 := Xor3(Rotate(w15, 7), Rotate(w15, 18), ShiftRightUnsigned(w15, 3));
    var s1 := Xor3(Rotate(w2, 17), Rotate(w2, 19), ShiftRightUnsigned(w2, 10));
    ToInt32(Plus(Plus(Plus(w16, s0), w7), s1))
  }

  lemma ExpandedAgrees(w16: int, w15: int, w7: int, w2: int)
    requires InRange(w16) && InRange(w15) && InRange(w7) && InRange(w2)
    ensures InRange(Expanded(w16, w15, w7, w2))
    ensures ToUint32(Expanded(w16, w15, w7, w2))
         == Add(Add(Add(SmallSigma1(ToUint32(w2)), ToUint32(w7)), SmallSigma0(ToUint32(w15))), ToUint32(w16))
  {
    hide ToUint32, ToInt32, Add, And, Or, Xor, Not, Rotr, Shr, Shl, BitXor, BitOr, Xor3, Rotate, ShiftRightUnsigned;
    var u16, u7 := ToUint32(w16), ToUint32(w7);
    Reorder(u16, SmallSigma0(ToUint32(w15)), u7, SmallSigma1(ToUint32(w2)));
  }

  lemma Reorder(a: word, b: word, c: word, d: word)
    ensures Add(Add(Add(a, b), c), d) == Add(Add(Add(d, c), b), a)
  {
    hide Add;
    AddOnce(a, b);
    AddOnce(Add(a, b), c);
    AddOnce(Add(Add(a, b), c), d);
    AddOnce(d, c);
    AddOnce(Add(d, c), b);
    AddOnce(Add(Add(d, c), b), a);
  }

  lemma AddOnce(x: word, y: word)
    ensures Add(x, y) == if x + y < TWO32 then x + y else x + y - TWO32
  {
  }

  function Temp1(e: int, f: int, g: int, j: int, k: int, w: int): int
    requires InRange(e) && InRange(f) && InRange(g) && InRange(j) && InRange(k) && InRange(w)
  {
    var s1 := Xor3(Rotate(e, 6), Rotate(e, 11), Rotate(e, 25));
    ToInt32(Plus(Plus(Plus(Plus(j, s1), BitXor(BitAnd(e, f), BitAnd(BitNot(e), g))), k), w))
  }

  lemma Temp1Agrees(e: int, f: int, g: int, j: int, k: int, w: int)
    requires InRange(e) && InRange(f) && InRange(g) && InRange(j) && InRange(k) && InRange(w)
    ensures InRange(Temp1(e, f, g, j, k, w))
    ensures ToUint32(Temp1(e, f, g, j, k, w))
         == Add(Add(Add(Add(ToUint32(j), BigSigma1(ToUint32(e))), Ch(ToUint32(e), ToUint32(f), ToUint32(g))),
                ToUint32(k)), ToUint32(w))
  {
    hide ToUint32, ToInt32, Add, And, Or, Xor, Not, Rotr, Shr, Shl, BitXor, BitOr, Xor3, Rotate, ShiftRightUnsigned;
  }

  function Temp2(a: int, b: int, c: int): int
    requires InRange(a) && InRange(b) && InRange(c)
  {
    var s0 := Xor3(Rotate(a, 2), Rotate(a, 13), Rotate(a, 22));
    ToInt32(Plus(s0, Xor3(BitAnd(a, b), BitAnd(a, c), BitAnd(b, c))))
  }

  lemma Temp2Agrees(a: int, b: int, c: int)
    requires InRange(a) && InRange(b) && InRange(c)
    ensures InRange(Temp2(a, b, c))
    ensures ToUint32(Temp2(a, b, c))
         == Add(BigSigma0(ToUint32(a)), Maj(ToUint32(a), ToUint32(b), ToUint32(c)))
  {
    hide ToUint32, ToInt32, Add, And, Or, Xor, Not, Rotr, Shr, Shl, BitXor, BitOr, Xor3, Rotate, ShiftRightUnsigned;
  }

  /** Four bytes joined by shifts; the first shift can make the number negative. */
  function JoinBytes(b0: byte, b1: byte, b2: byte, b3: byte): int {
    BitOr(BitOr(BitOr(ShiftLeft(b0, 24), ShiftLeft(b1, 16)), ShiftLeft(b2, 8)), b3)
  }

  lemma JoinIsSum(b0: byte, b1: byte, b2: byte, b3: byte)
    ensures InRange(JoinBytes(b0, b1, b2, b3))
    ensures ToUint32(JoinBytes(b0, b1, b2, b3))
         == b0 as int * 0x100_0000 + b1 as int * 0x1_0000 + b2 as int * 0x100 + b3 as int
  {
    hide ToUint32, Or, Shl, BitOr, ShiftLeft;
    var x0, x1, x2: word := b0 as int * 0x100_0000, b1 as int * 0x1_0000, b2 as int * 0x100;
    var high, higher := b0 as int * 0x100 + b1, b0 as int * 0x1_0000 + b1 as int * 0x100 + b2;
    ShiftedByte(b0, 24, 0x100_0000);
    ShiftedByte(b1, 16, 0x1_0000);
    ShiftedByte(b2, 8, 0x100);
    JoinLow(b0, 24, 0x100_0000, x1);
    JoinLow(high, 16, 0x1_0000, x2);
    JoinLow(higher, 8, 0x100, b3);
    WordStandsForItself(b3);
    assert x0 + x1 == high * 0x1_0000 && x0 + x1 + x2 == higher * 0x100;
  }

  lemma WordStandsForItself(u: word)
    ensures ToUint32(u) == u && InRange(u)
  {
  }

  /** `m` is the n-th power of two, for a shift by whole bytes. */
  predicate ByteShift(n: nat, m: nat) {
    (n == 8 && m == 0x100) || (n == 16 && m == 0x1_0000) || (n == 24 && m == 0x100_0000)
  }

  lemma ByteShiftIsPow2(n: nat, m: nat)
    requires ByteShift(n, m)
    ensures Pow2(n) == m
  {
    assert Pow2(8) == 0x100;
    assert Pow2(16) == 0x1_0000;
    assert Pow2(24) == 0x100_0000;
  }

  lemma ShiftedByte(b: byte, n: nat, m: nat)
    requires ByteShift(n, m)
    ensures Shl(ToUint32(b), n) == b as int * m
  {
    ByteShiftIsPow2(n, m);
    UpIsTimes(b, n);
  }

  lemma JoinLow(a: nat, k: nat, m: nat, b: word)
    requires ByteShift(k, m) && b < m && a * m < TWO32
    ensures Or(a * m, b) == a * m + b
  {
    Pow2Is32();
    ByteShiftIsPow2(k, m);
    UpIsTimes(a, k);
    OrIsSum(a, k, b, 32);
  }

  lemma {:induction false} UpIsTimes(x: nat, n: nat)
    ensures Up(x, n) == x * Pow2(n)
  {
    if n > 0 { UpIsTimes(x, n - 1); }
  }

  // ---- The loops ----

  method Pad(message: seq<byte>) returns (bytes: seq<byte>)
    ensures bytes == Padded(message)
  {
    var bitLength := |message| * 8;
    bytes := message + ONE_BIT;
    ghost var z := 0;
    while |bytes| % 64 != 56
      invariant bytes == message + ONE_BIT + Zeros(z) && z <= ZeroBytes(|message|)
      decreases ZeroBytes(|message|) - z
    {
      bytes := bytes + Zeros(1);
      z := z + 1;
    }
    assert z == ZeroBytes(|message|);
    ghost var padded := bytes;
    for i := 8 downto 0
      invariant bytes == padded + BigEndian(bitLength, 8)[..8 - i]
    {
      BigEndianByte(bitLength, 8, 7 - i);
      bytes := bytes + [bitLength / Pow256(i) % 256];
    }
  }

  lemma {:induction false} BigEndianByte(n: nat, w: nat, i: nat)
    requires i < w
    ensures BigEndian(n, w)[i] == n / Pow256(w - 1 - i) % 256
  {
    if i < w - 1 {
      BigEndianByte(n / 256, w - 1, i);
      DivideBy256(n, w - 1 - i);
    }
  }

  lemma DivideBy256(n: nat, m: nat)
    requires m > 0
    ensures n / Pow256(m) == n / 256 / Pow256(m - 1)
  {
    DivideTwice(n, 256, Pow256(m - 1));
  }

  /** The message schedule of the block at `offset`. */
  method PrepareSchedule(bytes: seq<byte>, offset: nat) returns (w: array<int>)
    requires offset + 64 <= |bytes|
    ensures fresh(w) && w.Length == 64
    ensures forall t :: 0 <= t < 64 ==> InRange(w[t]) && ToUint32(w[t]) == Schedule(bytes, offset, t)
  {
    hide ToUint32, Add, SmallSigma0, SmallSigma1, Expanded, JoinBytes;
    w := new int[64](_ => 0);
    for i := 0 to 16
      invariant forall t :: 0 <= t < i ==> InRange(w[t]) && ToUint32(w[t]) == Schedule(bytes, offset, t)
    {
      var j := offset + i * 4;
      JoinIsSum(bytes[j], bytes[j + 1], bytes[j + 2], bytes[j + 3]);
      w[i] := JoinBytes(bytes[j], bytes[j + 1], bytes[j + 2], bytes[j + 3]);
    }
    for i := 16 to 64
      invariant forall t :: 0 <= t < i ==> InRange(w[t]) && ToUint32(w[t]) == Schedule(bytes, offset, t)
    {
      ExpandedAgrees(w[i - 16], w[i - 15], w[i - 7], w[i - 2]);
      w[i] := Expanded(w[i - 16], w[i - 15], w[i - 7], w[i - 2]);
    }
  }

  /** An array of eight numbers stands for a hash value. */
  ghost predicate Holds(h: array<int>, v: Words8)
    reads h
  {
    && h.Length == 8 && (forall i :: 0 <= i < 8 ==> InRange(h[i]))
    && v == Words8(ToUint32(h[0]), ToUint32(h[1]), ToUint32(h[2]), ToUint32(h[3]),
                   ToUint32(h[4]), ToUint32(h[5]), ToUint32(h[6]), ToUint32(h[7]))
  }

  /** One block: 64 rounds, then the working variables are added to the hash value in place. */
  method Compress(h: array<int>, w: array<int>, bytes: seq<byte>, offset: nat, ghost before: Words8)
    requires Holds(h, before) && w.Length == 64 && h != w && offset + 64 <= |bytes|
    requires forall t :: 0 <= t < 64 ==> InRange(w[t]) && ToUint32(w[t]) == Schedule(bytes, offset, t)
    modifies h
    ensures Holds(h, Sum8(Rounds(before, bytes, offset, 64), before))
  {
    hide ToUint32, ToInt32, Add, BigSigma0, BigSigma1, Ch, Maj, Temp1, Temp2, Schedule;
    var a, b, c, d, e, f, g, j := h[0], h[1], h[2], h[3], h[4], h[5], h[6], h[7];
    for i := 0 to 64
      invariant Holds(h, before)
      invariant InRange(a) && InRange(b) && InRange(c) && InRange(d)
      invariant InRange(e) && InRange(f) && InRange(g) && InRange(j)
      invariant Rounds(before, bytes, offset, i) ==
                Words8(ToUint32(a), ToUint32(b), ToUint32(c), ToUint32(d),
                       ToUint32(e), ToUint32(f), ToUint32(g), ToUint32(j))
    {
      Temp1Agrees(e, f, g, j, K[i], w[i]);
      Temp2Agrees(a, b, c);
      WordStandsForItself(K[i]);
      var t1 := Temp1(e, f, g, j, K[i], w[i]);
      var t2 := Temp2(a, b, c);
      j, g, f, e, d, c, b, a := g, f, e, ToInt32(Plus(d, t1)), c, b, a, ToInt32(Plus(t1, t2));
    }
    h[0], h[1], h[2], h[3] := Added(h[0], a), Added(h[1], b), Added(h[2], c), Added(h[3], d);
    h[4], h[5], h[6], h[7] := Added(h[4], e), Added(h[5], f), Added(h[6], g), Added(h[7], j);
  }

  function Added(x: int, v: int): (r: int)
    requires InRange(x) && InRange(v)
    ensures InRange(r) && ToUint32(r) == Add(ToUint32(v), ToUint32(x))
  {
    ToInt32(Plus(x, v))
  }

  lemma WordsStandForThemselves()
    ensures forall u: word :: ToUint32(u) == u && InRange(u)
  {
  }

  /** For a message of any length, the loops compute the digest of FIPS 180-4. */
  method Hash(message: seq<byte>) returns (h: array<int>)
    ensures fresh(h) && Holds(h, Digest(message))
  {
    hide ToUint32, Sum8, Rounds, Padded;
    var bytes := Pad(message);
    WordsStandForThemselves();
    h := new int[] [H0.a, H0.b, H0.c, H0.d, H0.e, H0.f, H0.g, H0.h];
    for n := 0 to |bytes| / 64
      invariant fresh(h) && Holds(h, HashBlocks(bytes, n))
    {
      var w := PrepareSchedule(bytes, 64 * n);
      Compress(h, w, bytes, 64 * n, HashBlocks(bytes, n));
    }
  }

  /** The cache key of a text is the SHA-256 of its UTF-8 bytes, in hexadecimal; a text with a lone surrogate is
      refused with a URIError. */
  method CacheNamespace(value: seq<unit>) returns (key: Option<string>)
    ensures key.Some? <==> Utf8Text(value).Some?
    ensures key.Some? ==> key.value == HexOf(Digest(Utf8Text(value).value))
  {
    hide Fixed, HexOf, Digest, ToUint32, Utf8Text, EncodeURIComponent, Decoded;
    var encoded := EncodeURIComponent(value);
    EncodingCarriesUtf8(value);
    if encoded.None? { return None; }
    var bytes := DecodeBytes(encoded.value);
    var h := Hash(bytes);
    var text := "";
    for i := 0 to 8
      invariant Holds(h, Digest(bytes)) && text == HexOf(Digest(bytes))[..8 * i]
    {
      var digits := HexDigits(h[i]);
      HexOfPart(Digest(bytes), i);
      HeldPart(h, Digest(bytes), i);
      text := text + digits;
    }
    return Some(text);
  }

  function Part(v: Words8, i: nat): word
    requires i < 8
  {
    [v.a, v.b, v.c, v.d, v.e, v.f, v.g, v.h][i]
  }

  lemma HeldPart(h: array<int>, v: Words8, i: nat)
    requires Holds(h, v) && i < 8
    ensures Part(v, i) == ToUint32(h[i])
  {
    var parts := [v.a, v.b, v.c, v.d, v.e, v.f, v.g, v.h];
    assert parts[i] == ToUint32(h[i]);
  }

  lemma HexOfPart(v: Words8, i: nat)
    requires i < 8
    ensures HexOf(v)[..8 * (i + 1)] == HexOf(v)[..8 * i] + Fixed(Part(v, i), 8)
  {
    hide Fixed;
    assert HexOf(v)[8 * i..8 * (i + 1)] == Fixed(Part(v, i), 8);
  }

  /** The digits of one word of the digest, whatever its sign. */
  method HexDigits(v: int) returns (digits: string)
    ensures digits == Fixed(ToUint32(v), 8)
  {
    WordHasEightDigits(ToUint32(v));
    digits := PadStart(ToString16(ShiftRightUnsigned(v, 0)), 8);
  }

  lemma WordHasEightDigits(u: word)
    ensures PadStart(ToString16(u), 8) == Fixed(u, 8)
  {
    assert Pow16(4) == 0x1_0000;
    assert Pow16(8) == TWO32;
    PadStartIsFixed(u, 8);
  }
}
