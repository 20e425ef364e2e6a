/** Texts as UTF-16 code units, encodeURIComponent, and the loop that turns its output into bytes. */
module UriEncoding {
  import opened Options
  import opened Sha256Spec

  type unit = x: int | 0 <= x < 0x1_0000
  type scalar = x: int | 0 <= x < 0x11_0000

  const PERCENT := 0x25

  // ---- UTF-16 and UTF-8 ----

  /** The first code point of a text and the number of units it takes; None for a lone surrogate. */
  function CodePointAt(s: seq<unit>): Option<(scalar, nat)>
    requires |s| > 0
  {
    if s[0] < 0xD800 || s[0] > 0xDFFF then Some((s[0], 1))
    else if s[0] < 0xDC00 && |s| > 1 && 0xDC00 <= s[1] <= 0xDFFF then
      Some(((s[0] as int - 0xD800) * 0x400 + (s[1] as int - 0xDC00) + 0x1_0000, 2))
    else None
  }

  /** RFC 3629, section 3. */
  function Utf8(c: scalar): (bytes: seq<byte>)
    ensures |bytes| > 0
  {
    if c < 0x80 then [c]
    else if c < 0x800 then [0xC0 + c / 64, 0x80 + c % 64]
    else if c < 0x1_0000 then [0xE0 + c / 4096, 0x80 + c / 64 % 64, 0x80 + c % 64]
    else [0xF0 + c / 262144, 0x80 + c / 4096 % 64, 0x80 + c / 64 % 64, 0x80 + c % 64]
  }

  function Utf8Text(s: seq<unit>): Option<seq<byte>> {
    if |s| == 0 then Some([])
    else
      match CodePointAt(s)
      case None => None
      case Some((c, n)) =>
        var rest := Utf8Text(s[n..]);
        if rest.Some? then Some(Utf8(c) + rest.value) else None
  }

  // ---- encodeURIComponent ----

  /** Letters, digits and - _ . ! ~ * ' ( ). */
  predicate Unreserved(u: unit) {
    0x30 <= u <= 0x39 || 0x41 <= u <= 0x5A || 0x61 <= u <= 0x7A
    || u in {0x2D, 0x5F, 0x2E, 0x21, 0x7E, 0x2A, 0x27, 0x28, 0x29}
  }

  function HexDigit(d: int): unit
    requires 0 <= d < 16
  {
    if d < 10 then 0x30 + d else 0x41 + d - 10
  }

  function PercentEncode(bytes: seq<byte>): seq<unit> {
    if |bytes| == 0 then []
    else [PERCENT, HexDigit(bytes[0] / 16), HexDigit(bytes[0] % 16)] + PercentEncode(bytes[1..])
  }

  function EncodeURIComponent(s: seq<unit>): Option<seq<unit>> {
    if |s| == 0 then Some([])
    else if Unreserved(s[0]) then
      var rest := EncodeURIComponent(s[1..]);
      if rest.Some? then Some([s[0]] + rest.value) else None
    else
      match CodePointAt(s)
      case None => None
      case Some((c, n)) =>
        var rest := EncodeURIComponent(s[n..]);
        if rest.Some? then Some(PercentEncode(Utf8(c)) + rest.value) else None
  }

  // ---- Back to bytes ----

  function HexValue(u: unit): (r: Option<int>)
    ensures r.Some? ==> 0 <= r.value < 16
  {
    if 0x30 <= u <= 0x39 then Some(u - 0x30)
    else if 0x41 <= u <= 0x46 then Some(u - 0x41 + 10)
    else if 0x61 <= u <= 0x66 then Some(u - 0x61 + 10)
    else None
  }

  /** The bytes a percent-encoded text stands for; None if it is not one. */
  function Decoded(t: seq<unit>): Option<seq<byte>> {
    if |t| == 0 then Some([])
    else if t[0] != PERCENT then
      var rest := Decoded(t[1..]);
      if t[0] < 256 && rest.Some? then Some([t[0]] + rest.value) else None
    else if |t| < 3 || HexValue(t[1]).None? || HexValue(t[2]).None? then None
    else
      var rest := Decoded(t[3..]);
      if rest.Some? then Some([HexValue(t[1]).value * 16 + HexValue(t[2]).value] + rest.value) else None
  }

  lemma DecodedStep(t: seq<unit>, i: nat)
    requires i < |t| && Decoded(t[i..]).Some?
    ensures if t[i] == PERCENT
            then i + 2 < |t| && HexValue(t[i + 1]).Some? && HexValue(t[i + 2]).Some? && Decoded(t[i + 3..]).Some?
                 && Decoded(t[i..]).value
                    == [HexValue(t[i + 1]).value * 16 + HexValue(t[i + 2]).value] + Decoded(t[i + 3..]).value
            else t[i] < 256 && Decoded(t[i + 1..]).Some?
                 && Decoded(t[i..]).value == [t[i]] + Decoded(t[i + 1..]).value
  {
    var rest := t[i..];
    assert rest[1..] == t[i + 1..];
    if t[i] == PERCENT { assert rest[3..] == t[i + 3..]; }
  }

  lemma DecodedNothing(t: seq<unit>)
    requires |t| == 0
    ensures Decoded(t).Some? && Decoded(t).value == []
  {
  }

  method DecodeBytes(encoded: seq<unit>) returns (bytes: seq<byte>)
    requires Decoded(encoded).Some?
    ensures bytes == Decoded(encoded).value
  {
    hide HexValue, Decoded;
    assert encoded[0..] == encoded;
    DecodedNothing(encoded[|encoded|..]);
    bytes := [];
    var i := 0;
    while i < |encoded|
      invariant i <= |encoded| && Decoded(encoded[i..]).Some?
      invariant bytes + Decoded(encoded[i..]).value == Decoded(encoded).value
    {
      DecodedStep(encoded, i);
      if encoded[i] == PERCENT {
        bytes := bytes + [HexValue(encoded[i + 1]).value * 16 + HexValue(encoded[i + 2]).value];
        i := i + 2;
      } else {
        bytes := bytes + [encoded[i]];
      }
      i := i + 1;
    }
  }

  /** Percent-encoding fails exactly on texts that have no UTF-8 form, and otherwise carries their UTF-8 bytes. */
  lemma {:induction false} EncodingCarriesUtf8(s: seq<unit>)
    ensures EncodeURIComponent(s).Some? <==> Utf8Text(s).Some?
    ensures EncodeURIComponent(s).Some? ==> Decoded(EncodeURIComponent(s).value) == Utf8Text(s)
  {
    if |s| > 0 && CodePointAt(s).Some? {
      var (c, n) := CodePointAt(s).value;
      EncodingCarriesUtf8(s[n..]);
      if EncodeURIComponent(s[n..]).Some? {
        var rest := EncodeURIComponent(s[n..]).value;
        if Unreserved(s[0]) {
          assert ([s[0]] + rest)[1..] == rest;
        } else {
          DecodedPercent(Utf8(c), rest);
        }
      }
    }
  }

  lemma HexRoundTrip(b: byte)
    ensures HexValue(HexDigit(b / 16)).Some? && HexValue(HexDigit(b % 16)).Some?
    ensures HexValue(HexDigit(b / 16)).value * 16 + HexValue(HexDigit(b % 16)).value == b
  {
  }

  lemma {:induction false} DecodedPercent(bytes: seq<byte>, rest: seq<unit>)
    requires Decoded(rest).Some?
    ensures Decoded(PercentEncode(bytes) + rest) == Some(bytes + Decoded(rest).value)
  {
    hide HexValue, HexDigit, Decoded;
    if |bytes| == 0 {
      assert PercentEncode(bytes) + rest == rest;
      assert bytes + Decoded(rest).value == Decoded(rest).value;
    } else {
      DecodedPercent(bytes[1..], rest);
      HexRoundTrip(bytes[0]);
      var head := [PERCENT, HexDigit(bytes[0] / 16), HexDigit(bytes[0] % 16)];
      PercentStep(head, PercentEncode(bytes[1..]) + rest);
      assert PercentEncode(bytes) + rest == head + (PercentEncode(bytes[1..]) + rest);
      var d := Decoded(rest).value;
      assert bytes + d == [bytes[0]] + (bytes[1..] + d);
    }
  }

  lemma {:induction false} PercentStep(head: seq<unit>, rest: seq<unit>)
    requires |head| == 3 && head[0] == PERCENT && HexValue(head[1]).Some? && HexValue(head[2]).Some?
    requires Decoded(rest).Some?
    ensures Decoded(head + rest)
         == Some([HexValue(head[1]).value * 16 + HexValue(head[2]).value] + Decoded(rest).value)
  {
    var t := head + rest;
    assert t[3..] == rest && t[0] == head[0] && t[1] == head[1] && t[2] == head[2];
  }
}

/** Hexadecimal text. */
module HexText {
  import opened Words
  import opened Sha256Spec

  const DIGITS := "0123456789abcdef"

  function HexChar(d: nat): char
    requires d < 16
  {
    DIGITS[d]
  }

  /** A number with `w` hexadecimal digits. */
  function Fixed(n: nat, w: nat): (s: string)
    ensures |s| == w
  {
    if w == 0 then "" else Fixed(n / 16, w - 1) + [HexChar(n % 16)]
  }

  function HexOf(v: Words8): (s: string)
    ensures |s| == 64
  {
    Fixed(v.a, 8) + Fixed(v.b, 8) + Fixed(v.c, 8) + Fixed(v.d, 8)
    + Fixed(v.e, 8) + Fixed(v.f, 8) + Fixed(v.g, 8) + Fixed(v.h, 8)
  }

  /** toString(16): no leading zeros. */
  function ToString16(n: nat): (s: string)
    ensures |s| > 0
  {
    if n < 16 then [HexChar(n)] else ToString16(n / 16) + [HexChar(n % 16)]
  }

  function PadStart(s: string, w: nat): string {
    if |s| >= w then s else seq(w - |s|, i => '0') + s
  }

  function Pow16(n: nat): nat {
    if n == 0 then 1 else 16 * Pow16(n - 1)
  }

  lemma PadOne(c: char, w: nat)
    requires w > 0
    ensures PadStart([c], w) == seq(w - 1, i => '0') + [c]
  {
  }

  lemma PadMore(s: string, c: char, w: nat)
    requires w > 0 && |s| <= w - 1
    ensures PadStart(s + [c], w) == PadStart(s, w - 1) + [c]
  {
  }

  lemma {:induction false} PadStartIsFixed(n: nat, w: nat)
    requires w > 0 && n < Pow16(w)
    ensures PadStart(ToString16(n), w) == Fixed(n, w)
  {
    hide HexChar, PadStart;
    if n < 16 {
      FixedZero(w - 1);
      PadOne(HexChar(n), w);
    } else {
      PadStartIsFixed(n / 16, w - 1);
      LengthBound(n / 16, w - 1);
      PadMore(ToString16(n / 16), HexChar(n % 16), w);
    }
  }

  lemma {:induction false} FixedZero(w: nat)
    ensures Fixed(0, w) == seq(w, i => '0')
  {
    if w > 0 { FixedZero(w - 1); }
  }

  lemma {:induction false} LengthBound(n: nat, w: nat)
    requires w > 0 && n < Pow16(w)
    ensures |ToString16(n)| <= w
  {
    if n >= 16 { LengthBound(n / 16, w - 1); }
  }

  lemma DigitsDiffer(c: nat, d: nat)
    requires c < 16 && d < 16 && HexChar(c) == HexChar(d)
    ensures c == d
  {
  }

  /** Different digests have different texts. */
  lemma {:induction false} FixedIsInjective(m: nat, n: nat, w: nat)
    requires m < Pow16(w) && n < Pow16(w) && Fixed(m, w) == Fixed(n, w)
    ensures m == n
  {
    hide HexChar;
    if w > 0 {
      var s, t := Fixed(m, w), Fixed(n, w);
      assert s[..w - 1] == Fixed(m / 16, w - 1) && t[..w - 1] == Fixed(n / 16, w - 1);
      assert s[w - 1] == HexChar(m % 16) && t[w - 1] == HexChar(n % 16);
      DigitsDiffer(m % 16, n % 16);
      FixedIsInjective(m / 16, n / 16, w - 1);
    }
  }
}
