/** Reading a JSON text, and reading back what JSON.stringify wrote. */
module JsonRoundTrip {
  import opened Options
  import opened UriEncoding
  import opened JsonText

  // ---- The grammar of RFC 8259 over tokens ----

  function Digits(s: seq<unit>): (n: nat)
    ensures n <= |s|
  {
    if |s| > 0 && 0x30 <= s[0] <= 0x39 then 1 + Digits(s[1..]) else 0
  }

  /** Section 6: an exponent, or nothing. */
  predicate IsExponent(s: seq<unit>) {
    |s| == 0
    || (s[0] in {0x65, 0x45}
        && var t := if |s| > 1 && s[1] in {0x2B, 0x2D} then s[2..] else s[1..]; |t| > 0 && Digits(t) == |t|)
  }

  predicate IsFraction(s: seq<unit>) {
    if |s| > 0 && s[0] == 0x2E then Digits(s[1..]) > 0 && IsExponent(s[1 + Digits(s[1..])..]) else IsExponent(s)
  }

  predicate IsNumber(s: seq<unit>) {
    var t := if |s| > 0 && s[0] == 0x2D then s[1..] else s;
    Digits(t) > 0 && (t[0] == 0x30 ==> Digits(t) == 1) && IsFraction(t[Digits(t)..])
  }

  const TRUE: seq<unit> := [0x74, 0x72, 0x75, 0x65]
  const FALSE: seq<unit> := [0x66, 0x61, 0x6C, 0x73, 0x65]
  const NULL: seq<unit> := [0x6E, 0x75, 0x6C, 0x6C]

  predicate IsLiteral(s: seq<unit>) {
    s == TRUE || s == FALSE || s == NULL || IsNumber(s)
  }

  function ParseValue(ts: seq<Token>): (r: Option<(Json, seq<Token>)>)
    ensures r.Some? ==> |r.value.1| < |ts|
    decreases |ts|, 1
  {
    if |ts| == 0 then None
    else
      match ts[0]
      case Word(text) => if IsLiteral(text) then Some((Literal(text), ts[1..])) else None
      case Quoted(content) => Some((Text(content), ts[1..]))
      case Mark(u) =>
        if u == OPEN_ARRAY then
          if |ts| > 1 && ts[1] == Mark(CLOSE_ARRAY) then Some((Array([]), ts[2..]))
          else
            match ParseItems(ts[1..])
            case None => None
            case Some((items, rest)) => Some((Array(items), rest))
        else if u == OPEN_OBJECT then
          if |ts| > 1 && ts[1] == Mark(CLOSE_OBJECT) then Some((Object([]), ts[2..]))
          else
            match ParseMembers(ts[1..])
            case None => None
            case Some((members, rest)) => Some((Object(members), rest))
        else None
  }

  function ParseItems(ts: seq<Token>): (r: Option<(seq<Json>, seq<Token>)>)
    ensures r.Some? ==> |r.value.1| < |ts|
    decreases |ts|, 2
  {
    match ParseValue(ts)
    case None => None
    case Some((v, rest)) =>
      if |rest| == 0 then None
      else if rest[0] == Mark(CLOSE_ARRAY) then Some(([v], rest[1..]))
      else if rest[0] == Mark(COMMA) then
        match ParseItems(rest[1..])
        case None => None
        case Some((more, end)) => Some(([v] + more, end))
      else None
  }

  function ParseMembers(ts: seq<Token>): (r: Option<(seq<Member>, seq<Token>)>)
    ensures r.Some? ==> |r.value.1| < |ts|
    decreases |ts|, 2
  {
    if |ts| < 2 || !ts[0].Quoted? || ts[1] != Mark(COLON) then None
    else
      match ParseValue(ts[2..])
      case None => None
      case Some((v, rest)) =>
        var member := Member(ts[0].content, v);
        if |rest| == 0 then None
        else if rest[0] == Mark(CLOSE_OBJECT) then Some(([member], rest[1..]))
        else if rest[0] == Mark(COMMA) then
          match ParseMembers(rest[1..])
          case None => None
          case Some((more, end)) => Some(([member] + more, end))
        else None
  }

  /** The value of a JSON text. */
  function Parse(s: seq<unit>): Option<Json> {
    match Lex(s)
    case None => None
    case Some(ts) =>
      match ParseValue(ts)
      case None => None
      case Some((v, rest)) => if rest == [] then Some(v) else None
  }

  // ---- Printing, token by token ----

  function Tokens(v: Json): (ts: seq<Token>)
    ensures |ts| > 0 && ts[0] !in {Mark(CLOSE_ARRAY), Mark(CLOSE_OBJECT), Mark(COMMA)}
    decreases v
  {
    match v
    case Literal(text) => [Word(text)]
    case Text(content) => [Quoted(content)]
    case Array(items) => [Mark(OPEN_ARRAY)] + (ItemTokens(items) + [Mark(CLOSE_ARRAY)])
    case Object(members) => [Mark(OPEN_OBJECT)] + (MemberTokens(members) + [Mark(CLOSE_OBJECT)])
  }

  function ItemTokens(items: seq<Json>): (ts: seq<Token>)
    ensures |items| > 0 ==> |ts| > 0 && ts[0] != Mark(CLOSE_ARRAY)
    decreases items
  {
    if |items| == 0 then []
    else if |items| == 1 then Tokens(items[0])
    else Tokens(items[0]) + ([Mark(COMMA)] + ItemTokens(items[1..]))
  }

  function MemberTokens(members: seq<Member>): (ts: seq<Token>)
    ensures |members| > 0 ==> |ts| > 0 && ts[0].Quoted?
    decreases members
  {
    if |members| == 0 then []
    else
      var first := [Quoted(members[0].name), Mark(COLON)] + Tokens(members[0].value);
      if |members| == 1 then first else first + ([Mark(COMMA)] + MemberTokens(members[1..]))
  }

  /** Every literal is one: JSON.stringify prints numbers, true, false and null that way. */
  predicate WellFormed(v: Json)
    decreases v
  {
    match v
    case Literal(text) => IsLiteral(text)
    case Text(_) => true
    case Array(items) => forall i :: 0 <= i < |items| ==> WellFormed(items[i])
    case Object(members) => forall i :: 0 <= i < |members| ==> WellFormed(members[i].value)
  }

  lemma {:induction false} ParsesBack(v: Json, rest: seq<Token>)
    requires WellFormed(v)
    ensures ParseValue(Tokens(v) + rest) == Some((v, rest))
    decreases v
  {
    var ts := Tokens(v) + rest;
    match v {
      case Literal(_) =>
      case Text(_) =>
      case Array(items) =>
        var close := [Mark(CLOSE_ARRAY)] + rest;
        assert ts[1..] == ItemTokens(items) + close;
        if |items| == 0 {
          assert ts[2..] == rest;
        } else {
          ItemsParseBack(items, rest);
        }
      case Object(members) =>
        var close := [Mark(CLOSE_OBJECT)] + rest;
        assert ts[1..] == MemberTokens(members) + close;
        if |members| == 0 {
          assert ts[2..] == rest;
        } else {
          MembersParseBack(members, rest);
        }
    }
  }

  lemma {:induction false} ItemsParseBack(items: seq<Json>, rest: seq<Token>)
    requires |items| > 0 && forall i :: 0 <= i < |items| ==> WellFormed(items[i])
    ensures ParseItems(ItemTokens(items) + ([Mark(CLOSE_ARRAY)] + rest)) == Some((items, rest))
    decreases items
  {
    hide Tokens, ParseValue;
    var ts, close := ItemTokens(items) + ([Mark(CLOSE_ARRAY)] + rest), [Mark(CLOSE_ARRAY)] + rest;
    if |items| == 1 {
      ParsesBack(items[0], close);
      assert items == [items[0]];
    } else {
      var more := ItemTokens(items[1..]) + close;
      ItemsParseBack(items[1..], rest);
      ParsesBack(items[0], [Mark(COMMA)] + more);
      assert ts == Tokens(items[0]) + ([Mark(COMMA)] + more);
      assert ([Mark(COMMA)] + more)[1..] == more;
      assert items == [items[0]] + items[1..];
    }
  }

  /** The last member of an object. */
  lemma {:induction false} LastMemberParses(ts: seq<Token>, first: Member, after: seq<Token>)
    requires |ts| > 2 && ts[0] == Quoted(first.name) && ts[1] == Mark(COLON)
    requires ParseValue(ts[2..]) == Some((first.value, after)) && |after| > 0 && after[0] == Mark(CLOSE_OBJECT)
    ensures ParseMembers(ts) == Some(([first], after[1..]))
  {
    hide ParseValue;
  }

  lemma {:induction false} MemberParses(
    ts: seq<Token>, first: Member, after: seq<Token>, more: seq<Member>, end: seq<Token>)
    requires |ts| > 2 && ts[0] == Quoted(first.name) && ts[1] == Mark(COLON)
    requires ParseValue(ts[2..]) == Some((first.value, after)) && |after| > 0 && after[0] == Mark(COMMA)
    requires ParseMembers(after[1..]) == Some((more, end))
    ensures ParseMembers(ts) == Some(([first] + more, end))
  {
    hide ParseValue;
  }

  lemma {:induction false} MembersParseBack(members: seq<Member>, rest: seq<Token>)
    requires |members| > 0 && forall i :: 0 <= i < |members| ==> WellFormed(members[i].value)
    ensures ParseMembers(MemberTokens(members) + ([Mark(CLOSE_OBJECT)] + rest)) == Some((members, rest))
    decreases members
  {
    hide Tokens, ParseValue, ParseMembers;
    var ts, close := MemberTokens(members) + ([Mark(CLOSE_OBJECT)] + rest), [Mark(CLOSE_OBJECT)] + rest;
    var first := members[0];
    var head := [Quoted(first.name), Mark(COLON)] + Tokens(first.value);
    if |members| == 1 {
      ParsesBack(first.value, close);
      assert ts == head + close && ts[2..] == Tokens(first.value) + close && close[1..] == rest;
      LastMemberParses(ts, first, close);
      assert members == [first];
    } else {
      var more := MemberTokens(members[1..]) + close;
      MembersParseBack(members[1..], rest);
      ParsesBack(first.value, [Mark(COMMA)] + more);
      assert ts == head + ([Mark(COMMA)] + more) && ts[2..] == Tokens(first.value) + ([Mark(COMMA)] + more);
      assert ([Mark(COMMA)] + more)[1..] == more;
      MemberParses(ts, first, [Mark(COMMA)] + more, members[1..], rest);
      assert members == [first] + members[1..];
    }
  }

  // ---- Lexing what was printed ----

  predicate StartsNoWord(s: seq<unit>) {
    |s| == 0 || !WordUnit(s[0])
  }

  lemma {:induction false} WordLengthOf(word: seq<unit>, rest: seq<unit>)
    requires (forall i :: 0 <= i < |word| ==> WordUnit(word[i])) && StartsNoWord(rest)
    ensures WordLength(word + rest) == |word|
  {
    if |word| == 0 {
      assert word + rest == rest;
    } else {
      WordLengthOf(word[1..], rest);
      assert (word + rest)[1..] == word[1..] + rest;
    }
  }

  lemma {:induction false} DigitsAreWords(s: seq<unit>)
    ensures forall i :: 0 <= i < Digits(s) ==> WordUnit(s[i])
  {
    if |s| > 0 && 0x30 <= s[0] <= 0x39 { DigitsAreWords(s[1..]); }
  }

  lemma ExponentIsWord(s: seq<unit>)
    requires IsExponent(s)
    ensures forall i :: 0 <= i < |s| ==> WordUnit(s[i])
  {
    if |s| > 0 {
      var k := if |s| > 1 && s[1] in {0x2B, 0x2D} then 2 else 1;
      DigitsAreWords(s[k..]);
      forall i | 0 <= i < |s| ensures WordUnit(s[i]) {
        if i >= k { assert s[i] == s[k..][i - k]; }
      }
    }
  }

  lemma FractionIsWord(s: seq<unit>)
    requires IsFraction(s)
    ensures forall i :: 0 <= i < |s| ==> WordUnit(s[i])
  {
    if |s| > 0 && s[0] == 0x2E {
      var k := 1 + Digits(s[1..]);
      DigitsAreWords(s[1..]);
      ExponentIsWord(s[k..]);
      forall i | 0 <= i < |s| ensures WordUnit(s[i]) {
        if 1 <= i < k { assert s[i] == s[1..][i - 1]; }
        if k <= i { assert s[i] == s[k..][i - k]; }
      }
    } else {
      ExponentIsWord(s);
    }
  }

  lemma LiteralIsWord(s: seq<unit>)
    requires IsLiteral(s)
    ensures |s| > 0 && forall i :: 0 <= i < |s| ==> WordUnit(s[i])
  {
    if IsNumber(s) {
      var m := if |s| > 0 && s[0] == 0x2D then 1 else 0;
      var t := s[m..];
      var k := Digits(t);
      DigitsAreWords(t);
      FractionIsWord(t[k..]);
      forall i | 0 <= i < |s| ensures WordUnit(s[i]) {
        if m <= i { assert s[i] == t[i - m]; }
        if m + k <= i { assert s[i] == t[k..][i - m - k]; }
      }
    }
  }

  lemma LexedWord(word: seq<unit>, rest: seq<unit>)
    requires IsLiteral(word) && StartsNoWord(rest)
    ensures Lex(word + rest) == Prepend(Word(word), Lex(rest))
  {
    LiteralIsWord(word);
    WordLengthOf(word, rest);
    var s := word + rest;
    assert s[0] == word[0] && s[..|word|] == word && s[|word|..] == rest;
  }

  lemma LexedMark(u: unit, rest: seq<unit>)
    requires Structural(u)
    ensures Lex([u] + rest) == Prepend(Mark(u), Lex(rest))
  {
    assert ([u] + rest)[1..] == rest;
  }

  /** One quoted unit reads back as itself. */
  lemma QuotedUnit(u: unit, rest: seq<unit>)
    ensures var s := QuoteUnit(u) + rest; s[0] != QUOTE && OneUnit(s) == Some((u, |QuoteUnit(u)|))
  {
    var s := QuoteUnit(u) + rest;
    if |QuoteUnit(u)| == 6 {
      assert s[2..6] == QuoteUnit(u)[2..];
      FourDigits(u);
    }
  }

  lemma FourDigits(u: unit)
    ensures FourHex(UnicodeEscape(u)[2..]) == Some(u)
  {
    hide Digit, HexValue;
    var h := UnicodeEscape(u)[2..];
    assert h == [Digit(u / 0x1000), Digit(u / 0x100 % 16), Digit(u / 0x10 % 16), Digit(u % 16)];
    DigitValue(u / 0x1000);
    DigitValue(u / 0x100 % 16);
    DigitValue(u / 0x10 % 16);
    DigitValue(u % 16);
    FourPlaces(u);
  }

  lemma FourPlaces(u: unit)
    ensures u / 0x1000 * 0x1000 + u / 0x100 % 16 * 0x100 + u / 0x10 % 16 * 0x10 + u % 16 == u
  {
    var x, y := u / 0x10, u / 0x100;
    assert x / 16 == y && y / 16 == u / 0x1000;
  }

  lemma DigitValue(d: int)
    requires 0 <= d < 16
    ensures HexValue(Digit(d)) == Some(d)
  {
  }

  lemma StringStep(s: seq<unit>, u: unit, n: nat)
    requires |s| > 0 && s[0] != QUOTE && OneUnit(s) == Some((u, n)) && LexString(s[n..]).Some?
    ensures LexString(s) == Some(([u] + LexString(s[n..]).value.0, n + LexString(s[n..]).value.1))
  {
  }

  lemma StringEnds(s: seq<unit>)
    requires |s| > 0 && s[0] == QUOTE
    ensures LexString(s) == Some(([], 1))
  {
  }

  lemma PlainUnit(s: seq<unit>)
    requires |s| > 0 && s[0] >= 0x20 && s[0] != QUOTE && s[0] != BACKSLASH
    ensures OneUnit(s) == Some((s[0], 1))
  {
  }

  lemma {:induction false} QuotedString(content: seq<unit>, rest: seq<unit>)
    ensures LexString(QuoteBody(content) + ([QUOTE] + rest)) == Some((content, |QuoteBody(content)| + 1))
  {
    hide LexString, OneUnit, QuoteUnit;
    var end := [QUOTE] + rest;
    var s := QuoteBody(content) + end;
    if |content| == 0 {
      assert s == end;
      StringEnds(s);
    } else if CodePointAt(content).Some? && CodePointAt(content).value.1 == 2 {
      QuotedString(content[2..], rest);
      var tail := QuoteBody(content[2..]) + end;
      assert s == [content[0], content[1]] + tail;
      assert s[1..][1..] == tail;
      PlainUnit(s[1..]);
      StringStep(s[1..], content[1], 1);
      PlainUnit(s);
      StringStep(s, content[0], 1);
      assert content == [content[0]] + ([content[1]] + content[2..]);
    } else {
      QuotedString(content[1..], rest);
      var head, tail := QuoteUnit(content[0]), QuoteBody(content[1..]) + end;
      assert s == head + tail && s[|head|..] == tail;
      QuotedUnit(content[0], tail);
      StringStep(s, content[0], |head|);
      assert content == [content[0]] + content[1..];
    }
  }

  lemma LexedString(content: seq<unit>, rest: seq<unit>)
    ensures Lex(Quote(content) + rest) == Prepend(Quoted(content), Lex(rest))
  {
    var s, body := Quote(content) + rest, QuoteBody(content) + ([QUOTE] + rest);
    QuotedString(content, rest);
    assert s == [QUOTE] + body && s[1..] == body;
    assert s[1 + |QuoteBody(content)| + 1..] == rest;
  }

  function Joined(ts: seq<Token>, rest: Option<seq<Token>>): Option<seq<Token>> {
    if rest.Some? then Some(ts + rest.value) else None
  }

  lemma JoinTokens(t: Token, ts: seq<Token>, us: seq<Token>, rest: Option<seq<Token>>)
    ensures Prepend(t, Joined(ts, rest)) == Joined([t] + ts, rest)
    ensures Joined(ts, Joined(us, rest)) == Joined(ts + us, rest)
    ensures Joined([t], rest) == Prepend(t, rest)
  {
    if rest.Some? {
      assert [t] + (ts + rest.value) == ([t] + ts) + rest.value;
      assert ts + (us + rest.value) == (ts + us) + rest.value;
    }
  }

  lemma {:induction false} LexesTo(v: Json, rest: seq<unit>)
    requires WellFormed(v) && StartsNoWord(rest)
    ensures Lex(Stringify(v) + rest) == Joined(Tokens(v), Lex(rest))
    decreases v
  {
    hide Lex;
    match v {
      case Literal(text) =>
        LexedWord(text, rest);
      case Text(content) =>
        LexedString(content, rest);
      case Array(items) =>
        var close := [CLOSE_ARRAY] + rest;
        var inner := StringifyItems(items) + close;
        assert Stringify(v) + rest == [OPEN_ARRAY] + inner;
        LexedMark(OPEN_ARRAY, inner);
        LexedMark(CLOSE_ARRAY, rest);
        ItemsLexTo(items, close);
        JoinTokens(Mark(CLOSE_ARRAY), ItemTokens(items), [Mark(CLOSE_ARRAY)], Lex(rest));
        JoinTokens(Mark(OPEN_ARRAY), ItemTokens(items) + [Mark(CLOSE_ARRAY)], [], Lex(rest));
      case Object(members) =>
        var close := [CLOSE_OBJECT] + rest;
        var inner := StringifyMembers(members) + close;
        assert Stringify(v) + rest == [OPEN_OBJECT] + inner;
        LexedMark(OPEN_OBJECT, inner);
        LexedMark(CLOSE_OBJECT, rest);
        MembersLexTo(members, close);
        JoinTokens(Mark(CLOSE_OBJECT), MemberTokens(members), [Mark(CLOSE_OBJECT)], Lex(rest));
        JoinTokens(Mark(OPEN_OBJECT), MemberTokens(members) + [Mark(CLOSE_OBJECT)], [], Lex(rest));
    }
  }

  lemma {:induction false} ItemsLexTo(items: seq<Json>, rest: seq<unit>)
    requires (forall i :: 0 <= i < |items| ==> WellFormed(items[i])) && StartsNoWord(rest)
    ensures Lex(StringifyItems(items) + rest) == Joined(ItemTokens(items), Lex(rest))
    decreases items
  {
    hide Lex, Stringify, Tokens;
    if |items| == 0 {
      assert StringifyItems(items) + rest == rest;
      JoinTokens(Mark(COMMA), [], [], Lex(rest));
      assert Lex(rest).Some? ==> [] + Lex(rest).value == Lex(rest).value;
    } else if |items| == 1 {
      LexesTo(items[0], rest);
    } else {
      var more := StringifyItems(items[1..]) + rest;
      ItemsLexTo(items[1..], rest);
      LexedMark(COMMA, more);
      LexesTo(items[0], [COMMA] + more);
      assert StringifyItems(items) + rest == Stringify(items[0]) + ([COMMA] + more);
      JoinTokens(Mark(COMMA), ItemTokens(items[1..]), [], Lex(rest));
      JoinTokens(Mark(COMMA), Tokens(items[0]), [Mark(COMMA)] + ItemTokens(items[1..]), Lex(rest));
    }
  }

  lemma {:induction false} MembersLexTo(members: seq<Member>, rest: seq<unit>)
    requires (forall i :: 0 <= i < |members| ==> WellFormed(members[i].value)) && StartsNoWord(rest)
    ensures Lex(StringifyMembers(members) + rest) == Joined(MemberTokens(members), Lex(rest))
    decreases members
  {
    hide Lex, Stringify, Tokens, Quote;
    if |members| == 0 {
      assert StringifyMembers(members) + rest == rest;
      assert Lex(rest).Some? ==> [] + Lex(rest).value == Lex(rest).value;
    } else {
      var first, last := members[0], |members| == 1;
      var after := if last then rest else [COMMA] + (StringifyMembers(members[1..]) + rest);
      var end := if last then [] else [Mark(COMMA)] + MemberTokens(members[1..]);
      if last {
        assert Lex(rest).Some? ==> [] + Lex(rest).value == Lex(rest).value;
      } else {
        MembersLexTo(members[1..], rest);
        LexedMark(COMMA, StringifyMembers(members[1..]) + rest);
        JoinTokens(Mark(COMMA), MemberTokens(members[1..]), [], Lex(rest));
      }
      MemberLexesTo(first, after);
      JoinTokens(Mark(COMMA), [Quoted(first.name), Mark(COLON)] + Tokens(first.value), end, Lex(rest));
      MembersUnfold(members, rest, after, end);
    }
  }

  lemma {:induction false} MembersUnfold(members: seq<Member>, rest: seq<unit>, after: seq<unit>, end: seq<Token>)
    requires |members| > 0
    requires after == if |members| == 1 then rest else [COMMA] + (StringifyMembers(members[1..]) + rest)
    requires end == if |members| == 1 then [] else [Mark(COMMA)] + MemberTokens(members[1..])
    ensures StringifyMembers(members) + rest
         == Quote(members[0].name) + ([COLON] + (Stringify(members[0].value) + after))
    ensures MemberTokens(members) == [Quoted(members[0].name), Mark(COLON)] + Tokens(members[0].value) + end
  {
    hide Stringify, Tokens, Quote;
  }

  lemma {:induction false} MemberLexesTo(member: Member, rest: seq<unit>)
    requires WellFormed(member.value) && StartsNoWord(rest)
    ensures Lex(Quote(member.name) + ([COLON] + (Stringify(member.value) + rest)))
         == Joined([Quoted(member.name), Mark(COLON)] + Tokens(member.value), Lex(rest))
    decreases member
  {
    hide Lex, Stringify, Tokens, Quote;
    LexesTo(member.value, rest);
    LexedMark(COLON, Stringify(member.value) + rest);
    LexedString(member.name, [COLON] + (Stringify(member.value) + rest));
    var ts := Tokens(member.value);
    JoinTokens(Mark(COLON), ts, [], Lex(rest));
    JoinTokens(Quoted(member.name), [Mark(COLON)] + ts, [], Lex(rest));
    assert [Quoted(member.name)] + ([Mark(COLON)] + ts) == [Quoted(member.name), Mark(COLON)] + ts;
  }

  /** JSON.stringify writes what the grammar reads. */
  lemma StringifyReadsBack(v: Json)
    requires WellFormed(v)
    ensures Lex(Stringify(v)) == Some(Tokens(v)) && Parse(Stringify(v)) == Some(v)
  {
    LexesTo(v, []);
    ParsesBack(v, []);
    assert Stringify(v) + [] == Stringify(v) && Tokens(v) + [] == Tokens(v);
  }
}
