/** Escaping a bootstrap payload for a script element. */
module Bootstrap {
  import opened Options
  import opened UriEncoding
  import opened JsonText
  import opened JsonRoundTrip
  import opened JsonValues

  /** `<`, `>`, `&` and the two line separators. */
  predicate Special(u: unit) {
    u in {0x3C, 0x3E, 0x26, 0x2028, 0x2029}
  }

  function EscapeUnit(u: unit): seq<unit> {
    if u == 0x3C then [BACKSLASH, LETTER_U, 0x30, 0x30, 0x33, 0x63]
    else if u == 0x3E then [BACKSLASH, LETTER_U, 0x30, 0x30, 0x33, 0x65]
    else if u == 0x26 then [BACKSLASH, LETTER_U, 0x30, 0x30, 0x32, 0x36]
    else if u == 0x2028 then [BACKSLASH, LETTER_U, 0x32, 0x30, 0x32, 0x38]
    else if u == 0x2029 then [BACKSLASH, LETTER_U, 0x32, 0x30, 0x32, 0x39]
    else [u]
  }

  /** The replacement of every special character. */
  function Escape(s: seq<unit>): (r: seq<unit>)
    ensures forall i :: 0 <= i < |r| ==> !Special(r[i])
  {
    if |s| == 0 then [] else EscapeUnit(s[0]) + Escape(s[1..])
  }

  lemma {:induction false} EscapeAppend(s: seq<unit>, t: seq<unit>)
    ensures Escape(s + t) == Escape(s) + Escape(t)
  {
    hide EscapeUnit, Special;
    if |s| == 0 {
      assert s + t == t;
    } else {
      EscapeAppend(s[1..], t);
      var whole := s + t;
      assert whole[0] == s[0] && whole[1..] == s[1..] + t;
      assert Escape(whole) == EscapeUnit(s[0]) + (Escape(s[1..]) + Escape(t));
    }
  }

  lemma {:induction false} EscapePlain(s: seq<unit>)
    requires forall i :: 0 <= i < |s| ==> !Special(s[i])
    ensures Escape(s) == s
  {
    if |s| > 0 { EscapePlain(s[1..]); }
  }

  lemma EscapeSplit(s: seq<unit>, n: nat)
    requires n <= |s|
    ensures Escape(s) == Escape(s[..n]) + Escape(s[n..])
  {
    hide Escape;
    assert s[..n] + s[n..] == s;
    EscapeAppend(s[..n], s[n..]);
  }

  /** Escaping changes how a character is written, not which one it is. */
  lemma EscapedUnit(s: seq<unit>)
    requires |s| > 0 && OneUnit(s).Some?
    ensures var (u, n) := OneUnit(s).value;
            |Escape(s)| > 0 && Escape(s)[0] != QUOTE
            && OneUnit(Escape(s)) == Some((u, |Escape(s[..n])|))
            && Escape(s)[|Escape(s[..n])|..] == Escape(s[n..])
  {
    hide Escape;
    var n := OneUnit(s).value.1;
    EscapeSplit(s, n);
    if n == 1 {
      EscapeOne(s[0]);
      assert s[..1] == [s[0]];
      EscapedAlone(s[0], Escape(s[1..]));
    } else {
      PlainEscape(s, n);
      EscapePlain(s[..n]);
      SameUnit(s, s[..n] + Escape(s[n..]), n);
    }
  }

  lemma EscapeOne(u: unit)
    ensures Escape([u]) == EscapeUnit(u)
  {
    assert [u][1..] == [];
  }

  /** An escape sequence is read the same whatever follows it. */
  lemma SameUnit(s: seq<unit>, t: seq<unit>, n: nat)
    requires |s| > 0 && OneUnit(s).Some? && OneUnit(s).value.1 == n && n > 1
    requires n <= |t| && t[..n] == s[..n]
    ensures OneUnit(t) == OneUnit(s) && t[0] != QUOTE
  {
    assert t[0] == t[..n][0] && t[1] == t[..n][1];
    if n == 6 { assert t[2..6] == t[..6][2..6] == s[2..6]; }
  }

  lemma EscapedAlone(u: unit, rest: seq<unit>)
    requires u != BACKSLASH && u >= 0x20 && u != QUOTE
    ensures OneUnit(EscapeUnit(u) + rest) == Some((u, |EscapeUnit(u)|))
    ensures (EscapeUnit(u) + rest)[0] != QUOTE
  {
    var s := EscapeUnit(u) + rest;
    if Special(u) {
      assert s[2..6] == EscapeUnit(u)[2..];
    }
  }

  lemma PlainEscape(s: seq<unit>, n: nat)
    requires |s| > 0 && OneUnit(s).Some? && OneUnit(s).value.1 == n && n > 1
    ensures forall i :: 0 <= i < n ==> !Special(s[i])
  {
    if n == 6 {
      var h := s[2..6];
      assert h[0] == s[2] && h[1] == s[3] && h[2] == s[4] && h[3] == s[5];
    }
  }

  lemma {:induction false} EscapedString(s: seq<unit>)
    requires LexString(s).Some?
    ensures var (content, n) := LexString(s).value;
            LexString(Escape(s)) == Some((content, |Escape(s[..n])|))
            && Escape(s)[|Escape(s[..n])|..] == Escape(s[n..])
  {
    hide Escape, OneUnit;
    var (content, n) := LexString(s).value;
    EscapeSplit(s, n);
    if s[0] == QUOTE {
      EscapedQuote(s);
    } else {
      var (u, m) := OneUnit(s).value;
      EscapedUnit(s);
      EscapedString(s[m..]);
      assert s[..n] == s[..m] + s[m..][..n - m];
      EscapeAppend(s[..m], s[m..][..n - m]);
    }
  }

  lemma EscapedQuote(s: seq<unit>)
    requires |s| > 0 && s[0] == QUOTE
    ensures Escape(s[..1]) == [QUOTE] && |Escape(s)| > 0 && Escape(s)[0] == QUOTE
  {
    assert s[..1] == [QUOTE] && s[..1][1..] == [];
  }

  lemma EscapedWord(s: seq<unit>)
    ensures WordLength(Escape(s)) == WordLength(s)
    ensures Escape(s)[..WordLength(s)] == s[..WordLength(s)]
    ensures Escape(s)[WordLength(s)..] == Escape(s[WordLength(s)..])
  {
    var n := WordLength(s);
    EscapeSplit(s, n);
    EscapePlain(s[..n]);
    WordEnds(s);
    FirstEscaped(s[n..]);
    WordLengthOf(s[..n], Escape(s[n..]));
  }

  lemma FirstEscaped(s: seq<unit>)
    requires StartsNoWord(s)
    ensures StartsNoWord(Escape(s))
  {
  }

  lemma {:induction false} WordEnds(s: seq<unit>)
    ensures StartsNoWord(s[WordLength(s)..])
  {
    if |s| > 0 && WordUnit(s[0]) {
      WordEnds(s[1..]);
      assert s[WordLength(s)..] == s[1..][WordLength(s) - 1..];
    }
  }

  /** A text that can be read as JSON is read the same after escaping. */
  lemma {:induction false} EscapingKeepsTokens(s: seq<unit>)
    requires Lex(s).Some?
    ensures Lex(Escape(s)) == Lex(s)
    decreases |s|, 1
  {
    hide Lex, Escape, LexString, WordLength;
    if |s| > 0 {
      LexHead(s);
      if s[0] == QUOTE {
        QuotedKeepsTokens(s);
      } else if WordUnit(s[0]) {
        WordKeepsTokens(s);
      } else {
        OtherKeepsTokens(s);
      }
    } else {
      EscapedNothing();
    }
  }

  /** What the first unit of a readable text can be. */
  lemma LexHead(s: seq<unit>)
    requires |s| > 0 && Lex(s).Some?
    ensures Space(s[0]) || Structural(s[0]) || s[0] == QUOTE || WordUnit(s[0])
    ensures s[0] == QUOTE ==> LexString(s[1..]).Some?
  {
  }

  lemma {:induction false} QuotedKeepsTokens(s: seq<unit>)
    requires |s| > 0 && s[0] == QUOTE && Lex(s).Some? && LexString(s[1..]).Some?
    ensures Lex(Escape(s)) == Lex(s)
    decreases |s|, 0
  {
    hide Escape, LexString;
    EscapedQuoted(s);
    EscapingKeepsTokens(s[1 + LexString(s[1..]).value.1..]);
  }

  lemma {:induction false} WordKeepsTokens(s: seq<unit>)
    requires |s| > 0 && WordUnit(s[0]) && Lex(s).Some?
    ensures Lex(Escape(s)) == Lex(s)
    decreases |s|, 0
  {
    hide Escape, WordLength;
    EscapedWord(s);
    WordIsLonger(s);
    EscapingKeepsTokens(s[WordLength(s)..]);
    assert Escape(s)[0] == Escape(s)[..WordLength(s)][0] == s[0];
  }

  lemma {:induction false} OtherKeepsTokens(s: seq<unit>)
    requires |s| > 0 && (Space(s[0]) || Structural(s[0])) && Lex(s).Some?
    ensures Lex(Escape(s)) == Lex(s)
    decreases |s|, 0
  {
    hide Escape;
    EscapedOther(s);
    EscapingKeepsTokens(s[1..]);
  }

  lemma EscapedNothing()
    ensures Escape([]) == []
  {
  }

  lemma WordIsLonger(s: seq<unit>)
    requires |s| > 0 && WordUnit(s[0])
    ensures WordLength(s) > 0
  {
  }

  lemma EscapedOther(s: seq<unit>)
    requires |s| > 0 && !Special(s[0])
    ensures |Escape(s)| > 0 && Escape(s)[0] == s[0] && Escape(s)[1..] == Escape(s[1..])
  {
  }

  lemma EscapedQuoted(s: seq<unit>)
    requires |s| > 0 && s[0] == QUOTE && LexString(s[1..]).Some?
    ensures |Escape(s)| > 0 && Escape(s)[0] == QUOTE && LexString(Escape(s)[1..]).Some?
    ensures LexString(Escape(s)[1..]).value.0 == LexString(s[1..]).value.0
    ensures Escape(s)[1 + LexString(Escape(s)[1..]).value.1..] == Escape(s[1 + LexString(s[1..]).value.1..])
  {
    hide Escape, LexString;
    EscapedOther(s);
    var (content, n) := LexString(s[1..]).value;
    EscapedString(s[1..]);
    assert s[1..][n..] == s[1 + n..];
    var k := |Escape(s[1..][..n])|;
    assert Escape(s)[1 + k..] == Escape(s)[1..][k..];
  }

  /** JSON.stringify with every special character replaced; None where it throws because there is no text. */
  function SerializeBootstrap(payload: Value): Option<seq<unit>> {
    var text := Serialized(payload);
    if text.Some? then Some(Escape(text.value)) else None
  }

  /** The embedded text has none of the characters that could end the script element or break its parse, and it
      reads back as what JSON.stringify keeps of the payload: as all of it exactly when nothing in it is absent or a
      number that is not finite. */
  lemma BootstrapReadsBack(payload: Value)
    requires Printable(payload)
    ensures SerializeBootstrap(payload).None? <==> payload.Absent?
    ensures SerializeBootstrap(payload).Some? ==>
              var text := SerializeBootstrap(payload).value;
              && (forall i :: 0 <= i < |text| ==> !Special(text[i]))
              && Projected(payload).Some? && Parse(text) == Projected(payload)
              && (Revived(Projected(payload).value) == payload <==> Whole(payload))
  {
    hide Serialized, Projected, Revived, Whole, Lex, Escape;
    StringifyReadsProjection(payload);
    ComesBackIff(payload);
    if Serialized(payload).Some? { EscapingKeepsTokens(Serialized(payload).value); }
  }
}
