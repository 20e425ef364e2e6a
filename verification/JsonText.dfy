/** JSON texts (RFC 8259) as UTF-16 code units, and JSON.stringify. */
module JsonText {
  import opened Options
  import opened UriEncoding

  /** A value; numbers, true, false and null are kept as their text. */
  datatype Json =
    | Literal(text: seq<unit>)
    | Text(content: seq<unit>)
    | Array(items: seq<Json>)
    | Object(members: seq<Member>)

  datatype Member = Member(name: seq<unit>, value: Json)

  datatype Token = Mark(u: unit) | Word(text: seq<unit>) | Quoted(content: seq<unit>)

  const QUOTE := 0x22
  const BACKSLASH := 0x5C
  const LETTER_U := 0x75
  const COMMA := 0x2C
  const COLON := 0x3A
  const OPEN_ARRAY := 0x5B
  const CLOSE_ARRAY := 0x5D
  const OPEN_OBJECT := 0x7B
  const CLOSE_OBJECT := 0x7D

  // ---- Strings: section 7 of RFC 8259 ----

  function Unescaped(u: unit): Option<unit> {
    if u in {QUOTE, BACKSLASH, 0x2F} then Some(u)
    else if u == 0x62 then Some(0x08)
    else if u == 0x66 then Some(0x0C)
    else if u == 0x6E then Some(0x0A)
    else if u == 0x72 then Some(0x0D)
    else if u == 0x74 then Some(0x09)
    else None
  }

  function FourHex(s: seq<unit>): Option<unit>
    requires |s| == 4
  {
    var a, b, c, d := HexValue(s[0]), HexValue(s[1]), HexValue(s[2]), HexValue(s[3]);
    if a.Some? && b.Some? && c.Some? && d.Some? then
      FourHexBounds(a.value, b.value, c.value, d.value);
      Some(a.value * 0x1000 + b.value * 0x100 + c.value * 0x10 + d.value)
    else None
  }

  lemma FourHexBounds(a: int, b: int, c: int, d: int)
    requires 0 <= a < 16 && 0 <= b < 16 && 0 <= c < 16 && 0 <= d < 16
    ensures 0 <= a * 0x1000 + b * 0x100 + c * 0x10 + d < 0x1_0000
  {
  }

  /** The first unit of a string body and how many units of text it takes. */
  function OneUnit(s: seq<unit>): (r: Option<(unit, nat)>)
    requires |s| > 0
    ensures r.Some? ==> 1 <= r.value.1 <= |s|
  {
    if s[0] == BACKSLASH then
      if |s| < 2 then None
      else if s[1] == LETTER_U then
        if |s| < 6 || FourHex(s[2..6]).None? then None else Some((FourHex(s[2..6]).value, 6))
      else if Unescaped(s[1]).Some? then Some((Unescaped(s[1]).value, 2))
      else None
    else if s[0] < 0x20 || s[0] == QUOTE then None
    else Some((s[0], 1))
  }

  /** The content of a string whose opening quote has been read, and how many units it takes with its closing
      quote. */
  function LexString(s: seq<unit>): (r: Option<(seq<unit>, nat)>)
    ensures r.Some? ==> 1 <= r.value.1 <= |s|
  {
    if |s| == 0 then None
    else if s[0] == QUOTE then Some(([], 1))
    else
      match OneUnit(s)
      case None => None
      case Some((u, n)) =>
        match LexString(s[n..])
        case None => None
        case Some((rest, k)) => Some(([u] + rest, n + k))
  }

  // ---- Tokens ----

  predicate Structural(u: unit) {
    u in {COMMA, COLON, OPEN_ARRAY, CLOSE_ARRAY, OPEN_OBJECT, CLOSE_OBJECT}
  }

  predicate Space(u: unit) {
    u in {0x20, 0x09, 0x0A, 0x0D}
  }

  /** Letters, digits, + - and the decimal point. */
  predicate WordUnit(u: unit) {
    0x30 <= u <= 0x39 || 0x41 <= u <= 0x5A || 0x61 <= u <= 0x7A || u in {0x2B, 0x2D, 0x2E}
  }

  function WordLength(s: seq<unit>): (n: nat)
    ensures n <= |s| && forall i :: 0 <= i < n ==> WordUnit(s[i])
  {
    if |s| > 0 && WordUnit(s[0]) then 1 + WordLength(s[1..]) else 0
  }

  function Prepend(t: Token, rest: Option<seq<Token>>): Option<seq<Token>> {
    if rest.Some? then Some([t] + rest.value) else None
  }

  function Lex(s: seq<unit>): Option<seq<Token>> {
    if |s| == 0 then Some([])
    else if Space(s[0]) then Lex(s[1..])
    else if Structural(s[0]) then Prepend(Mark(s[0]), Lex(s[1..]))
    else if s[0] == QUOTE then
      match LexString(s[1..])
      case None => None
      case Some((content, n)) => Prepend(Quoted(content), Lex(s[1 + n..]))
    else if WordUnit(s[0]) then
      var n := WordLength(s);
      Prepend(Word(s[..n]), Lex(s[n..]))
    else None
  }

  // ---- JSON.stringify ----

  function Digit(d: int): unit
    requires 0 <= d < 16
  {
    if d < 10 then 0x30 + d else 0x61 + d - 10
  }

  function UnicodeEscape(u: unit): seq<unit> {
    [BACKSLASH, LETTER_U, Digit(u / 0x1000), Digit(u / 0x100 % 16), Digit(u / 0x10 % 16), Digit(u % 16)]
  }

  function QuoteUnit(u: unit): seq<unit> {
    if u == 0x08 then [BACKSLASH, 0x62]
    else if u == 0x09 then [BACKSLASH, 0x74]
    else if u == 0x0A then [BACKSLASH, 0x6E]
    else if u == 0x0C then [BACKSLASH, 0x66]
    else if u == 0x0D then [BACKSLASH, 0x72]
    else if u == QUOTE || u == BACKSLASH then [BACKSLASH, u]
    else if u < 0x20 || 0xD800 <= u <= 0xDFFF then UnicodeEscape(u)
    else [u]
  }

  /** Surrogate pairs are kept, lone surrogates escaped. */
  function QuoteBody(s: seq<unit>): seq<unit> {
    if |s| == 0 then []
    else if CodePointAt(s).Some? && CodePointAt(s).value.1 == 2 then [s[0], s[1]] + QuoteBody(s[2..])
    else QuoteUnit(s[0]) + QuoteBody(s[1..])
  }

  function Quote(s: seq<unit>): seq<unit> {
    [QUOTE] + (QuoteBody(s) + [QUOTE])
  }

  function Stringify(v: Json): seq<unit>
    decreases v
  {
    match v
    case Literal(text) => text
    case Text(content) => Quote(content)
    case Array(items) => [OPEN_ARRAY] + (StringifyItems(items) + [CLOSE_ARRAY])
    case Object(members) => [OPEN_OBJECT] + (StringifyMembers(members) + [CLOSE_OBJECT])
  }

  function StringifyItems(items: seq<Json>): seq<unit>
    decreases items
  {
    if |items| == 0 then []
    else if |items| == 1 then Stringify(items[0])
    else Stringify(items[0]) + ([COMMA] + StringifyItems(items[1..]))
  }

  function StringifyMembers(members: seq<Member>): seq<unit>
    decreases members
  {
    if |members| == 0 then []
    else
      var first := Quote(members[0].name) + ([COLON] + Stringify(members[0].value));
      if |members| == 1 then first else first + ([COMMA] + StringifyMembers(members[1..]))
  }
}
