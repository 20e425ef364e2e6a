/** The Rust raw-string printer of the code generator, against the lexical rules for raw string literals in the Rust
    reference. */
module RustLiteral {
  import opened Options
  import opened UriEncoding

  const LIMIT := 255            // hashes a raw string may have

  function Hashes(n: nat): (s: string)
    ensures |s| == n && forall i :: 0 <= i < n ==> s[i] == '#'
  {
    seq(n, i => '#')
  }

  /** `part` stands at position `i`. */
  predicate At<T(==)>(text: seq<T>, part: seq<T>, i: nat) {
    i + |part| <= |text| && text[i..i + |part|] == part
  }

  predicate Includes<T(==)>(text: seq<T>, part: seq<T>) {
    exists i: nat :: i <= |text| && At(text, part, i)
  }

  function Terminator(n: nat): string {
    "\"" + Hashes(n)
  }

  function Literal(text: string, n: nat): string {
    "r" + Hashes(n) + "\"" + text + Terminator(n)
  }

  // ---- How Rust reads it ----

  /** Before lexing, every CR LF of a source file becomes LF. */
  function Normalized(source: string): string {
    if |source| == 0 then ""
    else if source[0] == '\r' && |source| > 1 && source[1] == '\n' then Normalized(source[1..])
    else [source[0]] + Normalized(source[1..])
  }

  function LeadingHashes(s: string): (n: nat)
    ensures n <= |s|
  {
    if |s| > 0 && s[0] == '#' then 1 + LeadingHashes(s[1..]) else 0
  }

  /** The first position of `part`. */
  function Find<T(==)>(text: seq<T>, part: seq<T>): (r: Option<nat>)
    ensures r.Some? ==> At(text, part, r.value) && forall j :: 0 <= j < r.value ==> !At(text, part, j)
    ensures r.None? ==> !Includes(text, part)
  {
    if At(text, part, 0) then Some(0)
    else if |text| == 0 then None
    else
      var rest := Find(text[1..], part);
      ShiftedAt(text, part);
      if rest.Some? then Some(rest.value + 1) else None
  }

  lemma ShiftedAt<T>(text: seq<T>, part: seq<T>)
    requires |text| > 0
    ensures forall j: nat | j > 0 :: At(text, part, j) == At(text[1..], part, j - 1)
  {
    forall j: nat | j > 0 ensures At(text, part, j) == At(text[1..], part, j - 1) {
      if j + |part| <= |text| {
        var here, there := text[j..j + |part|], text[1..][j - 1..j - 1 + |part|];
        assert |here| == |there| && forall x :: 0 <= x < |here| ==> here[x] == there[x];
      }
    }
  }

  /** A raw string at the start of a source: its content and what follows it. At most 255 hashes, no CR left after
      normalisation, and the content ends at the first terminator. */
  function ReadRaw(source: string): Option<(string, string)> {
    ReadNormalized(Normalized(source))
  }

  function ReadNormalized(s: string): Option<(string, string)> {
    if |s| == 0 || s[0] != 'r' then None
    else
      var n := LeadingHashes(s[1..]);
      if n > LIMIT || |s| <= n + 1 || s[n + 1] != '"' then None
      else
        var body := s[n + 2..];
        match Find(body, Terminator(n))
        case None => None
        case Some(k) =>
          if '\r' in body[..k] then None else Some((body[..k], body[k + 1 + n..]))
  }

  // ---- What of a JavaScript text reaches the file ----

  predicate IsAscii(s: string) {
    forall i :: 0 <= i < |s| ==> s[i] < 128 as char
  }

  function Ascii(s: string): seq<unit>
    requires IsAscii(s)
  {
    seq(|s|, i requires 0 <= i < |s| && s[i] < 128 as char => s[i] as int)
  }

  /** Writing a text as UTF-8 replaces every lone surrogate. */
  function Written(text: seq<unit>): string {
    if |text| == 0 then ""
    else
      match CodePointAt(text)
      case None => ['\U{FFFD}'] + Written(text[1..])
      case Some((c, n)) => [c as char] + Written(text[n..])
  }

  predicate WellFormed(text: seq<unit>) {
    |text| == 0 || (CodePointAt(text).Some? && WellFormed(text[CodePointAt(text).value.1..]))
  }

  /** The text that has these characters. */
  function Units(s: string): seq<unit> {
    if |s| == 0 then [] else UnitsOf(s[0]) + Units(s[1..])
  }

  function UnitsOf(c: char): (units: seq<unit>)
    ensures 1 <= |units| <= 2
  {
    var x := c as int;
    if x < 0x1_0000 then [x] else [0xD800 + (x - 0x1_0000) / 0x400, 0xDC00 + (x - 0x1_0000) % 0x400]
  }

  // ---- The printer ----

  /** The fewest hashes, but at least one, that the text cannot be confused with. */
  predicate Enough(text: string, n: nat) {
    n >= 1 && !Includes(text, Terminator(n))
  }

  ghost function Fewest(text: string): (n: nat)
    ensures Enough(text, n) && forall m: nat :: m < n ==> !Enough(text, m)
  {
    FewestFrom(text, 1)
  }

  /** A text cannot contain a terminator longer than itself. */
  ghost function FewestFrom(text: string, from: nat): (n: nat)
    requires 1 <= from <= |text| + 1 && forall m: nat :: m < from ==> !Enough(text, m)
    ensures Enough(text, n) && forall m: nat :: m < n ==> !Enough(text, m)
    decreases |text| + 1 - from
  {
    if Enough(text, from) then from else FewestFrom(text, from + 1)
  }

  lemma {:induction false} FewestIs(text: string, n: nat)
    requires Enough(text, n) && forall m: nat :: m < n ==> !Enough(text, m)
    ensures Fewest(text) == n
  {
    var f := Fewest(text);
    assert Enough(text, f) && Enough(text, n);
  }

  /** The printer works on code units; the file it ends up in has characters. */
  method Print(text: seq<unit>) returns (literal: seq<unit>)
    ensures var n := Fewest(Written(text));
            && literal == Ascii("r" + Hashes(n) + "\"") + text + Ascii(Terminator(n))
            && Written(literal) == Literal(Written(text), n)
  {
    hide Written, Includes, Find, Fewest;
    var hashes := Ascii("#");
    ghost var n := 1;
    while Contains(text, Ascii("\"") + hashes)
      invariant n >= 1 && hashes == Ascii(Hashes(n)) && Ascii("\"") + hashes == Ascii(Terminator(n))
      invariant forall m: nat :: m < n ==> !Enough(Written(text), m)
      decreases |text| + 1 - n
    {
      SameParts(text, Terminator(n));
      assert !Enough(Written(text), n);
      hashes := hashes + Ascii("#");
      n := n + 1;
    }
    SameParts(text, Terminator(n));
    FewestIs(Written(text), n);
    literal := Ascii("r") + hashes + Ascii("\"") + text + Ascii("\"") + hashes;
    assert literal == Ascii("r" + Hashes(n) + "\"") + text + Ascii(Terminator(n));
    WrittenLiteral(text, n);
  }

  predicate Contains<T(==)>(text: seq<T>, part: seq<T>): (r: bool)
    ensures r <==> Includes(text, part)
  {
    Find(text, part).Some?
  }

  // ---- Texts and files ----

  lemma IncludesStep<T>(text: seq<T>, part: seq<T>)
    requires |text| > 0
    ensures Includes(text, part) <==> At(text, part, 0) || Includes(text[1..], part)
  {
    ShiftedAt(text, part);
    if Includes(text, part) && !At(text, part, 0) {
      var i: nat :| i <= |text| && At(text, part, i);
      assert At(text[1..], part, i - 1);
    }
    if Includes(text[1..], part) {
      var i: nat :| i <= |text[1..]| && At(text[1..], part, i);
      assert At(text, part, i + 1);
    }
  }

  /** A text starts with ASCII characters exactly when its file does. */
  lemma {:induction false} SameStart(text: seq<unit>, part: string)
    requires IsAscii(part)
    ensures At(text, Ascii(part), 0) <==> At(Written(text), part, 0)
    decreases |part|
  {
    if |part| > 0 && |text| > 0 {
      var p := Ascii(part);
      assert p[1..] == Ascii(part[1..]);
      var w := Written(text);
      assert w[0] < 128 as char <==> text[0] < 128;
      StartStep(text, p);
      StartStep(w, part);
      if text[0] < 128 {
        assert w == [text[0] as char] + Written(text[1..]);
        SameStart(text[1..], part[1..]);
      }
    }
  }

  lemma StartStep<T>(text: seq<T>, part: seq<T>)
    requires |text| > 0 && |part| > 0
    ensures At(text, part, 0) <==> text[0] == part[0] && At(text[1..], part[1..], 0)
  {
    if |part| <= |text| {
      assert text[..|part|] == [text[0]] + text[1..][..|part| - 1];
      assert part == [part[0]] + part[1..];
    }
  }

  /** A text contains ASCII characters exactly when its file does. */
  lemma {:induction false} SameParts(text: seq<unit>, part: string)
    requires IsAscii(part) && |part| > 0
    ensures Includes(text, Ascii(part)) <==> Includes(Written(text), part)
    decreases |text|
  {
    if |text| == 0 {
      assert Written(text) == "";
    } else {
      var n := if CodePointAt(text).Some? then CodePointAt(text).value.1 else 1;
      var w := Written(text);
      assert w[1..] == Written(text[n..]);
      SameStart(text, part);
      SameParts(text[n..], part);
      IncludesStep(text, Ascii(part));
      IncludesStep(w, part);
      if n == 2 {
        assert text[1..][1..] == text[2..];
        IncludesStep(text[1..], Ascii(part));
        StartStep(text[1..], Ascii(part));
      }
    }
  }

  lemma {:induction false} WrittenAscii(s: string, rest: seq<unit>)
    requires IsAscii(s)
    ensures Written(Ascii(s) + rest) == s + Written(rest)
  {
    if |s| == 0 {
      assert Ascii(s) + rest == rest;
    } else {
      WrittenAscii(s[1..], rest);
      assert s[0] in s;
      var all := Ascii(s) + rest;
      assert all[1..] == Ascii(s[1..]) + rest;
      assert CodePointAt(all) == Some((all[0], 1));
    }
  }

  /** Two pieces are written one after the other, if no surrogate pair is cut. */
  lemma {:induction false} WrittenJoins(text: seq<unit>, rest: seq<unit>)
    requires |rest| > 0 && rest[0] < 0xD800
    ensures Written(text + rest) == Written(text) + Written(rest)
    decreases |text|
  {
    if |text| == 0 {
      assert text + rest == rest;
    } else {
      var n := if CodePointAt(text).Some? then CodePointAt(text).value.1 else 1;
      assert CodePointAt(text + rest) == CodePointAt(text);
      assert (text + rest)[n..] == text[n..] + rest;
      WrittenJoins(text[n..], rest);
    }
  }

  lemma WrittenLiteral(text: seq<unit>, n: nat)
    ensures Written(Ascii("r" + Hashes(n) + "\"") + text + Ascii(Terminator(n))) == Literal(Written(text), n)
  {
    var head, end := "r" + Hashes(n) + "\"", Terminator(n);
    WrittenAscii(head, text + Ascii(end));
    WrittenJoins(text, Ascii(end));
    WrittenAscii(end, []);
    assert Ascii(end) + [] == Ascii(end);
    assert Ascii(head) + (text + Ascii(end)) == Ascii(head) + text + Ascii(end);
    assert head + (Written(text) + end) == Literal(Written(text), n);
  }

  lemma CodePointOfUnits(c: char, rest: seq<unit>)
    ensures CodePointAt(UnitsOf(c) + rest) == Some((c as int, |UnitsOf(c)|))
  {
  }

  /** Characters come back from their code units, which are well formed. */
  lemma {:induction false} WrittenUnits(s: string)
    ensures Written(Units(s)) == s && WellFormed(Units(s))
  {
    hide CodePointAt, UnitsOf;
    if |s| > 0 {
      WrittenUnits(s[1..]);
      CodePointOfUnits(s[0], Units(s[1..]));
      assert Units(s)[|UnitsOf(s[0])|..] == Units(s[1..]);
    }
  }

  /** Well-formed texts come back from what was written. */
  lemma {:induction false} UnitsWritten(text: seq<unit>)
    requires WellFormed(text)
    ensures Units(Written(text)) == text
    decreases |text|
  {
    if |text| > 0 {
      var (c, n) := CodePointAt(text).value;
      UnitsWritten(text[n..]);
      assert Written(text)[1..] == Written(text[n..]);
      assert UnitsOf(c as char) == text[..n];
    }
  }

  lemma {:induction false} SameCarriageReturns(text: seq<unit>)
    ensures '\r' in Written(text) <==> 0x0D in text
    decreases |text|
  {
    if |text| > 0 {
      var n := if CodePointAt(text).Some? then CodePointAt(text).value.1 else 1;
      SameCarriageReturns(text[n..]);
      assert text == text[..n] + text[n..];
      assert forall u :: u in text[..n] <==> u == text[0] || (n == 2 && u == text[1]);
    }
  }

  // ---- When the literal reads back ----

  /** A longer terminator contains the shorter ones. */
  lemma FewerHashesInside(text: string, m: nat, n: nat)
    requires m <= n && Includes(text, Terminator(n))
    ensures Includes(text, Terminator(m))
  {
    var i: nat :| i <= |text| && At(text, Terminator(n), i);
    assert text[i..i + 1 + m] == text[i..i + 1 + n][..1 + m] == Terminator(m);
    assert At(text, Terminator(m), i);
  }

  lemma {:induction false} NormalizedStep(c: char, rest: string)
    requires c != '\r'
    ensures Normalized([c] + rest) == [c] + Normalized(rest)
  {
    assert ([c] + rest)[1..] == rest;
  }

  lemma {:induction false} NormalizedClean(s: string, rest: string)
    requires '\r' !in s
    ensures Normalized(s + rest) == s + Normalized(rest)
  {
    if |s| == 0 {
      assert s + rest == rest;
    } else {
      NormalizedClean(s[1..], rest);
      assert s[0] in s;
      NormalizedStep(s[0], s[1..] + rest);
      assert s + rest == [s[0]] + (s[1..] + rest);
    }
  }

  lemma {:induction false} LeadingHashesOf(n: nat, rest: string)
    requires |rest| > 0 && rest[0] != '#'
    ensures LeadingHashes(Hashes(n) + rest) == n
  {
    if n == 0 {
      assert Hashes(0) + rest == rest;
    } else {
      LeadingHashesOf(n - 1, rest);
      assert (Hashes(n) + rest)[1..] == Hashes(n - 1) + rest;
    }
  }

  /** The closing terminator is the first one, because one that starts inside the text would end inside it. */
  lemma TerminatorIsFirst(text: string, n: nat, rest: string)
    requires Enough(text, n)
    ensures Find(text + Terminator(n) + rest, Terminator(n)) == Some(|text|)
  {
    var body := text + Terminator(n) + rest;
    assert At(body, Terminator(n), |text|);
    forall j: nat | j < |text| ensures !At(body, Terminator(n), j) {
      if |text| < j + 1 + n {
        assert body[|text|] == '"' && Terminator(n)[|text| - j] == '#';
        if j + 1 + n <= |body| { assert body[j..j + 1 + n][|text| - j] == body[|text|]; }
      } else {
        assert text[j..j + 1 + n] == body[j..j + 1 + n];
        assert !At(text, Terminator(n), j);
      }
    }
  }

  predicate AtCrLf(s: string) {
    |s| > 1 && s[0] == '\r' && s[1] == '\n'
  }

  lemma LineFeedFirst(s: string)
    requires AtCrLf(s)
    ensures |Normalized(s)| > 0 && Normalized(s)[0] == '\n'
  {
  }

  lemma FirstIsKept(s: string)
    requires |Normalized(s)| > 0 && Normalized(s)[0] != '\n'
    ensures |s| > 0 && Normalized(s) == [s[0]] + Normalized(s[1..])
  {
    if AtCrLf(s) { LineFeedFirst(s); }
  }

  /** A part without line ends occurs in a text if it occurs after normalisation. */
  lemma {:induction false} NormalizedStarts(s: string, part: string)
    requires '\r' !in part && '\n' !in part && At(Normalized(s), part, 0)
    ensures At(s, part, 0)
    decreases |s|
  {
    if |part| > 0 {
      assert Normalized(s)[..|part|][0] == part[0] && part[0] in part;
      FirstIsKept(s);
      assert Normalized(s)[1..][..|part| - 1] == part[1..];
      NormalizedStarts(s[1..], part[1..]);
      assert s[..|part|] == [s[0]] + s[1..][..|part| - 1];
    }
  }

  lemma {:induction false} NormalizedIncludes(s: string, part: string)
    requires '\r' !in part && '\n' !in part && Includes(Normalized(s), part)
    ensures Includes(s, part)
    decreases |s|
  {
    var i: nat :| i <= |Normalized(s)| && At(Normalized(s), part, i);
    if |s| == 0 || (i == 0 && !AtCrLf(s)) {
      NormalizedStarts(s, part);
      assert At(s, part, 0);
    } else {
      if !AtCrLf(s) {
        ShiftedAt(Normalized(s), part);
        assert At(Normalized(s[1..]), part, i - 1);
      }
      NormalizedIncludes(s[1..], part);
      var j: nat :| j <= |s[1..]| && At(s[1..], part, j);
      ShiftedAt(s, part);
      assert At(s, part, j + 1);
    }
  }

  /** Normalisation of two pieces, if no CR LF is cut. */
  lemma {:induction false} NormalizedJoins(s: string, rest: string)
    requires |rest| > 0 && rest[0] != '\n'
    ensures Normalized(s + rest) == Normalized(s) + Normalized(rest)
    decreases |s|
  {
    if |s| == 0 {
      assert s + rest == rest;
    } else {
      NormalizedJoins(s[1..], rest);
      var all := s + rest;
      assert all[0] == s[0] && all[1..] == s[1..] + rest && (|s| == 1 ==> all[1] == rest[0]);
      if !AtCrLf(s) { assert [s[0]] + (Normalized(s[1..]) + Normalized(rest)) == Normalized(s) + Normalized(rest); }
    }
  }

  lemma NoCarriageReturn(n: nat)
    ensures '\r' !in Terminator(n) && '\n' !in Terminator(n)
  {
    assert forall c :: c in Terminator(n) ==> c == '"' || c in Hashes(n);
  }

  /** What of a literal is left after normalisation: the literal of the normalised text. */
  lemma NormalizedLiteral(text: string, n: nat, rest: string)
    ensures Normalized(Literal(text, n) + rest)
         == "r" + Hashes(n) + "\"" + Normalized(text) + Terminator(n) + Normalized(rest)
  {
    hide Normalized;
    var head := "r" + Hashes(n) + "\"";
    assert forall c :: c in head ==> c in Hashes(n) || c == 'r' || c == '"';
    NoCarriageReturn(n);
    NormalizedClean(head, text + Terminator(n) + rest);
    NormalizedJoins(text, Terminator(n) + rest);
    NormalizedClean(Terminator(n), rest);
    assert Literal(text, n) + rest == head + (text + Terminator(n) + rest);
    assert text + Terminator(n) + rest == text + (Terminator(n) + rest);
    assert head + (Normalized(text) + (Terminator(n) + Normalized(rest)))
        == head + Normalized(text) + Terminator(n) + Normalized(rest);
  }

  /** How a literal with enough hashes reads: as the text with every CR LF turned into LF, unless a carriage return is
      left. */
  lemma ReadsNormalized(text: string, n: nat, rest: string)
    requires Enough(text, n)
    ensures ReadRaw(Literal(text, n) + rest)
         == if n > LIMIT || '\r' in Normalized(text) then None else Some((Normalized(text), Normalized(rest)))
  {
    hide ReadNormalized, Normalized;
    NormalizedLiteral(text, n, rest);
    NoCarriageReturn(n);
    if Includes(Normalized(text), Terminator(n)) { NormalizedIncludes(text, Terminator(n)); }
    ReadsContent(Normalized(text), n, Normalized(rest));
  }

  lemma ReadsParts(s: string, n: nat, body: string, k: nat)
    requires |s| > n + 1 && s[0] == 'r' && LeadingHashes(s[1..]) == n && s[n + 1] == '"' && s[n + 2..] == body
    requires Find(body, Terminator(n)) == Some(k) && k + 1 + n <= |body|
    ensures ReadNormalized(s)
         == if n > LIMIT || '\r' in body[..k] then None else Some((body[..k], body[k + 1 + n..]))
  {
    hide LeadingHashes, Find;
  }

  lemma ReadsContent(t: string, n: nat, rest: string)
    requires Enough(t, n)
    ensures ReadNormalized("r" + Hashes(n) + "\"" + t + Terminator(n) + rest)
         == if n > LIMIT || '\r' in t then None else Some((t, rest))
  {
    hide LeadingHashes, Find, Includes, ReadNormalized;
    var body := t + Terminator(n) + rest;
    var s := "r" + Hashes(n) + "\"" + t + Terminator(n) + rest;
    assert s[1..] == Hashes(n) + ("\"" + body);
    assert s[n + 2..] == body;
    LeadingHashesOf(n, "\"" + body);
    TerminatorIsFirst(t, n, rest);
    ReadsParts(s, n, body, |t|);
    assert body[..|t|] == t && body[|t| + 1 + n..] == rest;
  }

  lemma {:induction false} NormalizedKeeps(s: string)
    ensures |Normalized(s)| <= |s|
    ensures Normalized(s) == s && '\r' !in Normalized(s) <==> '\r' !in s
  {
    if |s| > 0 {
      NormalizedKeeps(s[1..]);
      assert s == [s[0]] + s[1..];
    }
  }

  /** What Rust reads, for every text: nothing when the text has a quote followed by 255 hashes or a carriage return
      that is not followed by a line feed, and otherwise the text with every CR LF turned into LF. */
  lemma ReadsAs(text: string, rest: string)
    ensures ReadRaw(Literal(text, Fewest(text)) + rest)
         == if Includes(text, Terminator(LIMIT)) || '\r' in Normalized(text) then None
            else Some((Normalized(text), Normalized(rest)))
  {
    hide ReadRaw, Normalized, Includes;
    var n := Fewest(text);
    ReadsNormalized(text, n, rest);
    FewestOverLimit(text);
  }

  lemma FewestOverLimit(text: string)
    ensures Fewest(text) > LIMIT <==> Includes(text, Terminator(LIMIT))
  {
    var n := Fewest(text);
    if n > LIMIT {
      assert !Enough(text, LIMIT);
    } else if Includes(text, Terminator(LIMIT)) {
      FewerHashesInside(text, n, LIMIT);
    }
  }

  /** The printed literal reads back as the text exactly when the text has no carriage return, no quote followed by
      255 hashes, and no lone surrogate. */
  lemma ReadsBackIff(text: seq<unit>, rest: string)
    ensures var r := ReadRaw(Literal(Written(text), Fewest(Written(text))) + rest);
            && ((r.Some? && Units(r.value.0) == text)
                <==> WellFormed(text) && 0x0D !in text && !Includes(text, Ascii(Terminator(LIMIT))))
            && (r.Some? ==> r.value.1 == Normalized(rest))
  {
    hide ReadRaw, Normalized, Includes, Units, Written, Ascii, WellFormed;
    var w := Written(text);
    ReadsAs(w, rest);
    NormalizedKeeps(w);
    SameCarriageReturns(text);
    SameParts(text, Terminator(LIMIT));
    if WellFormed(text) { UnitsWritten(text); }
    if Units(Normalized(w)) == text { WrittenUnits(Normalized(w)); }
  }

  /** A carriage return alone makes a literal that Rust rejects; before a line feed it disappears. */
  lemma CarriageReturnsAreLost(rest: string)
    ensures ReadRaw(Literal("\r", Fewest("\r")) + rest) == None
    ensures ReadRaw(Literal("\r\n", Fewest("\r\n")) + rest) == Some(("\n", Normalized(rest)))
  {
    hide ReadRaw;
    NoQuote("\r");
    NoQuote("\r\n");
    ReadsAs("\r", rest);
    ReadsAs("\r\n", rest);
    assert "\r\n"[1..] == "\n" && "\n"[1..] == "" && "\r"[1..] == "";
    assert Normalized("\r") == "\r" && Normalized("\r\n") == "\n";
  }

  lemma NoQuote(text: string)
    requires '"' !in text
    ensures !Includes(text, Terminator(LIMIT))
  {
    forall i: nat | i <= |text| ensures !At(text, Terminator(LIMIT), i) {
      if i + 1 + LIMIT <= |text| { assert text[i..i + 1 + LIMIT][0] == text[i] && text[i] in text; }
    }
  }
}
