/** When a line break inside a string tears a printed document apart, none of its later pieces makes sense to the
    reader: outside and inside of string literals have changed places, so no key can be read any more. */
module JsonPieces {
  import opened Jobs
  import opened Json
  import opened JsonRoundTrip
  import opened SelfHealerClient

  // ----- text whose literals are all punctuation

  /** What may follow the closing quote of a string. */
  predicate Mark(c: char) { c in {',', ':', '}', ']'} }

  /** Scanned from outside of a string literal: every literal opens with punctuation, at least up to the first
      backslash outside of one, where any parser gives up. */
  predicate Harmless(s: string) {
    s == "" || s[0] == '\\' ||
    (if s[0] == '"' then (1 < |s| ==> Mark(s[1])) && HarmlessIn(s[1..]) else Harmless(s[1..]))
  }

  /** The same, scanned from inside of a literal. */
  predicate HarmlessIn(s: string) {
    s == "" || (s[0] != '\\' && if s[0] == '"' then Harmless(s[1..]) else HarmlessIn(s[1..]))
  }

  predicate PlainChar(c: char) { c !in {'"', '\\'} }

  /** The first `n` characters are neither quotes nor backslashes. */
  predicate PlainTo(s: string, n: nat)
    requires n <= |s|
  {
    forall i :: 0 <= i < n ==> PlainChar(s[i])
  }

  lemma {:induction false} HarmlessPrefix(s: string, n: nat)
    requires n <= |s|
    ensures Harmless(s) ==> Harmless(s[..n])
    ensures HarmlessIn(s) ==> HarmlessIn(s[..n])
  {
    if n == 0 {
    } else {
      HarmlessPrefix(s[1..], n - 1);
      assert s[..n][1..] == s[1..][..n - 1];
    }
  }

  lemma {:induction false} SkipPlain(s: string, n: nat)
    requires n <= |s| && Harmless(s) && PlainTo(s, n)
    ensures Harmless(s[n..])
  {
    if n == 0 {
      assert s[0..] == s;
    } else {
      assert forall i :: 0 <= i < n - 1 ==> s[1..][i] == s[i + 1];
      SkipPlain(s[1..], n - 1);
      assert s[1..][n - 1..] == s[n..];
    }
  }

  // ----- what the parser makes of it

  lemma {:induction false} BlanksKeep(s: string)
    requires Harmless(s)
    ensures Harmless(SkipBlank(s))
  {
    if s != "" && Blank(s[0]) {
      BlanksKeep(s[1..]);
    } else {
    }
  }

  lemma {:induction false} StringKeeps(s: string)
    requires HarmlessIn(s) && ParseString(s).Got?
    ensures Harmless(ParseString(s).rest)
    ensures ParseString(s).value != "" ==> ParseString(s).value[0] == s[0]
  {
    if s[0] == '"' {
    } else {
      StringKeeps(s[1..]);
    }
  }

  lemma {:induction false} DigitsAreDigits(s: string)
    ensures forall i :: 0 <= i < Digits(s) ==> Digit(s[i])
  {
    if s != "" && Digit(s[0]) {
      DigitsAreDigits(s[1..]);
      assert forall i :: 1 <= i < Digits(s) ==> s[i] == s[1..][i - 1];
    } else {
    }
  }

  lemma PlainOn(s: string, m: nat, n: nat)
    requires m <= |s| && n <= |s[m..]| && PlainTo(s, m) && PlainTo(s[m..], n)
    ensures PlainTo(s, m + n)
  {
    forall i | m <= i < m + n
      ensures PlainChar(s[i])
    {
      assert s[i] == s[m..][i - m];
    }
  }

  lemma IntegerPlain(s: string)
    ensures PlainTo(s, IntegerLength(s))
  {
    DigitsAreDigits(s);
    if s != "" && s[0] == '-' {
      DigitsAreDigits(s[1..]);
      PlainOn(s, 1, WholeLength(s[1..]));
    }
  }

  lemma FractionPlain(s: string)
    ensures PlainTo(s, FractionLength(s))
  {
    if FractionLength(s) > 0 {
      DigitsAreDigits(s[1..]);
      PlainOn(s, 1, Digits(s[1..]));
    }
  }

  lemma ExponentPlain(s: string)
    ensures PlainTo(s, ExponentLength(s))
  {
    if ExponentLength(s) > 0 {
      var mark := if 1 < |s| && s[1] in {'+', '-'} then 2 else 1;
      DigitsAreDigits(s[mark..]);
      PlainOn(s, mark, Digits(s[mark..]));
    }
  }

  lemma ScalePlain(s: string)
    ensures PlainTo(s, ScaleLength(s))
  {
    FractionPlain(s);
    ExponentPlain(s[FractionLength(s)..]);
    PlainOn(s, FractionLength(s), ExponentLength(s[FractionLength(s)..]));
  }

  lemma NumberPlain(s: string)
    ensures PlainTo(s, NumberLength(s))
  {
    var i := IntegerLength(s);
    IntegerPlain(s);
    if i != 0 {
      ScalePlain(s[i..]);
      PlainOn(s, i, ScaleLength(s[i..]));
    }
  }

  ghost predicate NoIncident(members: seq<Member>) {
    forall i :: 0 <= i < |members| ==> members[i].key != "incident"
  }

  lemma {:induction false} ValueKeeps(s: string)
    requires Harmless(s) && ParseValue(s).Got?
    ensures Harmless(ParseValue(s).rest)
    ensures ParseValue(s).value.Object? ==> NoIncident(ParseValue(s).value.members)
    decreases |s|, 0
  {
    if s[0] == '"' {
      StringKeeps(s[1..]);
    } else if s[0] == '{' {
      ObjectKeeps(s);
    } else if s[0] == '[' {
      ArrayKeeps(s);
    } else {
      AtomKeeps(s);
    }
  }

  lemma WordPlain(s: string, word: string)
    requires word <= s && PlainTo(word, |word|)
    ensures PlainTo(s, |word|)
  {
    assert forall i :: 0 <= i < |word| ==> s[i] == word[i];
  }

  lemma ConstantPlain(s: string)
    ensures PlainTo(s, ConstantLength(s))
  {
    if "NaN" <= s {
      WordPlain(s, "NaN");
    } else if "Infinity" <= s {
      WordPlain(s, "Infinity");
    } else if "-Infinity" <= s {
      WordPlain(s, "-Infinity");
    }
  }

  lemma NumberKeeps(s: string)
    requires Harmless(s) && (NumberLength(s) > 0 || ConstantLength(s) > 0)
    ensures Harmless(s[if NumberLength(s) > 0 then NumberLength(s) else ConstantLength(s)..])
  {
    if NumberLength(s) > 0 {
      NumberPlain(s);
      SkipPlain(s, NumberLength(s));
    } else {
      ConstantPlain(s);
      SkipPlain(s, ConstantLength(s));
    }
  }

  lemma AtomKeeps(s: string)
    requires Harmless(s) && ParseValue(s).Got? && s[0] !in {'"', '{', '['}
    ensures Harmless(ParseValue(s).rest) && !ParseValue(s).value.Object?
  {
    if "null" <= s || "true" <= s {
      SkipPlain(s, 4);
    } else if "false" <= s {
      SkipPlain(s, 5);
    } else {
      NumberKeeps(s);
    }
  }

  lemma {:induction false} ArrayKeeps(s: string)
    requires Harmless(s) && ParseValue(s).Got? && s[0] == '['
    ensures Harmless(ParseValue(s).rest) && !ParseValue(s).value.Object?
    decreases |s|, -1
  {
    var t := SkipBlank(s[1..]);
    BlanksKeep(s[1..]);
    if t != "" && t[0] == ']' {
    } else {
      ElemsKeep(t);
    }
  }

  lemma {:induction false} ObjectKeeps(s: string)
    requires Harmless(s) && ParseValue(s).Got? && s[0] == '{'
    ensures var p := ParseValue(s); Harmless(p.rest) && p.value.Object? && NoIncident(p.value.members)
    decreases |s|, -1
  {
    var t := SkipBlank(s[1..]);
    BlanksKeep(s[1..]);
    if t != "" && t[0] == '}' {
    } else {
      MembersKeep(t);
    }
  }

  lemma {:induction false} ElemsKeep(s: string)
    requires Harmless(s) && ParseElems(s).Got?
    ensures Harmless(ParseElems(s).rest)
    decreases |s|, 1
  {
    var first := ParseValue(s);
    ValueKeeps(s);
    BlanksKeep(first.rest);
    var t := SkipBlank(first.rest);
    if t[0] == ']' {
    } else {
      BlanksKeep(t[1..]);
      ElemsKeep(SkipBlank(t[1..]));
    }
  }

  lemma {:induction false} MemberKeeps(s: string)
    requires Harmless(s) && ParseMember(s).Got?
    ensures Harmless(ParseMember(s).rest) && ParseMember(s).value.key != "incident"
    decreases |s|, 1
  {
    var key := ParseString(s[1..]);
    StringKeeps(s[1..]);
    assert "incident"[0] == 'i';
    BlanksKeep(key.rest);
    var t := SkipBlank(key.rest);
    BlanksKeep(t[1..]);
    ValueKeeps(SkipBlank(t[1..]));
  }

  lemma {:induction false} MembersKeep(s: string)
    requires Harmless(s) && ParseMembers(s).Got?
    ensures Harmless(ParseMembers(s).rest) && NoIncident(ParseMembers(s).value)
    decreases |s|, 2
  {
    var first := ParseMember(s);
    MemberKeeps(s);
    BlanksKeep(first.rest);
    var t := SkipBlank(first.rest);
    if t[0] == '}' {
    } else {
      BlanksKeep(t[1..]);
      MembersKeep(SkipBlank(t[1..]));
    }
  }

  // ----- what the reader makes of it

  lemma {:induction false} NoIncidentNotFound(members: seq<Member>)
    requires NoIncident(members)
    ensures Lookup(members, "incident") == None
  {
    if members == [] {
    } else {
      NoIncidentNotFound(members[..|members| - 1]);
    }
  }

  lemma {:induction false} StripLeftKeeps(s: string)
    requires Harmless(s)
    ensures Harmless(StripLeft(s))
  {
    if s != "" && Space(s[0]) {
      StripLeftKeeps(s[1..]);
    } else {
    }
  }

  /** A harmless piece of text is never taken for an output of the self-healer. */
  lemma HarmlessRejected(piece: string)
    requires Harmless(piece)
    ensures ParseLine(piece) == None
  {
    var text := Strip(piece);
    StripLeftKeeps(piece);
    assert text == StripLeft(piece)[..|text|];
    HarmlessPrefix(StripLeft(piece), |text|);
    BlanksKeep(text);
    var p := ParseValue(SkipBlank(text));
    if p.Got? {
      ValueKeeps(SkipBlank(text));
      if p.value.Object? {
        NoIncidentNotFound(p.value.members);
      }
    }
  }

  // ----- behind a line break in a rendered document

  /** Behind every line break the text is harmless; and there is no raw `\r` or `\n`. */
  ghost predicate BreaksHarmless(s: string) {
    forall b :: 0 <= b < |s| && s[b] in LINE_BREAKS ==> s[b] !in {'\r', '\n'} && Harmless(s[b + 1..])
  }

  ghost predicate Fine(s: string) { HarmlessIn(s) && BreaksHarmless(s) }

  /** Text that may follow the closing quote of a string. */
  ghost predicate Follows(s: string) { Fine(s) && (s != "" ==> Mark(s[0])) }

  lemma PrependBreaks(c: char, s: string)
    requires BreaksHarmless(s)
    requires c in LINE_BREAKS ==> c !in {'\r', '\n'} && Harmless(s)
    ensures BreaksHarmless([c] + s)
  {
    var text := [c] + s;
    assert text[1..] == s;
    forall b | 0 <= b < |text| && text[b] in LINE_BREAKS
      ensures text[b] !in {'\r', '\n'} && Harmless(text[b + 1..])
    {
      if b == 0 {
      } else {
        assert s[b - 1] == text[b] && s[b..] == text[b + 1..];
      }
    }
  }

  /** Punctuation and letters outside of strings. */
  lemma PrependPlain(c: char, s: string)
    requires Fine(s) && PlainChar(c) && c !in LINE_BREAKS
    ensures Fine([c] + s)
  {
    PrependBreaks(c, s);
    assert ([c] + s)[1..] == s;
  }

  lemma PrependEscape(c: char, s: string)
    requires Harmless(s) && BreaksHarmless(s)
    ensures Harmless(EscapeChar(c) + s) && BreaksHarmless(EscapeChar(c) + s)
  {
    var e := EscapeChar(c);
    if |e| == 1 {
      PrependBreaks(c, s);
      assert ([c] + s)[1..] == s;
    } else {
      PrependBreaks(e[1], s);
      PrependBreaks('\\', [e[1]] + s);
      assert e + s == ['\\'] + ([e[1]] + s);
    }
  }

  lemma CloseHarmless(rest: string)
    requires Follows(rest)
    ensures Harmless(['"'] + rest) && BreaksHarmless(['"'] + rest)
  {
    PrependBreaks('"', rest);
    assert (['"'] + rest)[1..] == rest;
  }

  /** The contents of a string and what follows it, read from outside of a literal. */
  lemma {:induction false} ContentHarmless(s: string, rest: string)
    requires Follows(rest)
    ensures Harmless(Escape(s) + (['"'] + rest)) && BreaksHarmless(Escape(s) + (['"'] + rest))
  {
    if s == "" {
      CloseHarmless(rest);
      assert "" + (['"'] + rest) == ['"'] + rest;
    } else {
      ContentHarmless(s[1..], rest);
      PrependEscape(s[0], Escape(s[1..]) + (['"'] + rest));
      EscapeHead(s, ['"'] + rest);
    }
  }

  lemma QuoteFine(s: string, rest: string)
    requires Follows(rest)
    ensures Fine(Quote(s) + rest)
  {
    var text := Escape(s) + (['"'] + rest);
    ContentHarmless(s, rest);
    PrependBreaks('"', text);
    assert Quote(s) + rest == ['"'] + text && (['"'] + text)[1..] == text;
  }

  lemma {:induction false} WordFine(word: string, rest: string)
    requires Fine(rest) && forall i :: 0 <= i < |word| ==> PlainChar(word[i]) && word[i] !in LINE_BREAKS
    ensures Fine(word + rest)
  {
    if word == "" {
      assert word + rest == rest;
    } else {
      WordFine(word[1..], rest);
      PrependPlain(word[0], word[1..] + rest);
      assert word + rest == [word[0]] + (word[1..] + rest);
    }
  }

  lemma {:induction false} ValueFine(v: Value, rest: string)
    requires Emitted(v) && Follows(rest)
    ensures Fine(Render(v) + rest)
    decreases v, 1
  {
    match v
    case Null => WordFine("null", rest);
    case Bool(b) => WordFine("true", rest); WordFine("false", rest);
    case Str(s) => QuoteFine(s, rest);
    case Array(elems) => ArrayFine(elems, rest);
    case Object(members) => ObjectFine(members, rest);
  }

  lemma FramedFine(open: char, inner: string, close: char, rest: string)
    requires Fine(inner + ([close] + rest)) && PlainChar(open) && open !in LINE_BREAKS
    ensures Fine(([open] + (inner + [close])) + rest)
  {
    PrependPlain(open, inner + ([close] + rest));
    assert ([open] + (inner + [close])) + rest == [open] + (inner + ([close] + rest));
  }

  lemma {:induction false} ArrayFine(elems: seq<Value>, rest: string)
    requires EmittedElems(elems) && Follows(rest)
    ensures Fine(Render(Array(elems)) + rest)
    decreases elems, 1
  {
    PrependPlain(']', rest);
    ElemsFine(elems, [']'] + rest);
    FramedFine('[', RenderElems(elems), ']', rest);
  }

  lemma {:induction false} ObjectFine(members: seq<Member>, rest: string)
    requires EmittedMembers(members) && Follows(rest)
    ensures Fine(Render(Object(members)) + rest)
    decreases members, 1
  {
    PrependPlain('}', rest);
    MembersFine(members, ['}'] + rest);
    FramedFine('{', RenderMembers(members), '}', rest);
  }

  lemma {:induction false} ElemsFine(elems: seq<Value>, rest: string)
    requires EmittedElems(elems) && Follows(rest)
    ensures Fine(RenderElems(elems) + rest)
    decreases elems, 0
  {
    if elems == [] {
      assert RenderElems(elems) + rest == rest;
    } else if |elems| == 1 {
      ValueFine(elems[0], rest);
    } else {
      var more := RenderElems(elems[1..]) + rest;
      ElemsFine(elems[1..], rest);
      PrependPlain(',', more);
      ValueFine(elems[0], [','] + more);
      Regroup(Render(elems[0]), ',', RenderElems(elems[1..]), rest);
    }
  }

  lemma {:induction false} MemberFine(m: Member, rest: string)
    requires Emitted(m.value) && Follows(rest)
    ensures Fine(RenderMember(m) + rest)
    decreases m, 2
  {
    ValueFine(m.value, rest);
    PrependPlain(':', Render(m.value) + rest);
    QuoteFine(m.key, [':'] + (Render(m.value) + rest));
    Regroup(Quote(m.key), ':', Render(m.value), rest);
  }

  lemma {:induction false} MembersFine(members: seq<Member>, rest: string)
    requires EmittedMembers(members) && Follows(rest)
    ensures Fine(RenderMembers(members) + rest)
    decreases members, 0
  {
    if members == [] {
      assert RenderMembers(members) + rest == rest;
    } else if |members| == 1 {
      MemberFine(members[0], rest);
    } else {
      var more := RenderMembers(members[1..]) + rest;
      MembersFine(members[1..], rest);
      PrependPlain(',', more);
      MemberFine(members[0], [','] + more);
      Regroup(RenderMember(members[0]), ',', RenderMembers(members[1..]), rest);
    }
  }

  /** Behind every line break in a rendered document there is only harmless text. */
  lemma DocumentBreaks(v: Value)
    requires Emitted(v)
    ensures BreaksHarmless(Render(v))
  {
    ValueFine(v, "");
    assert Render(v) + "" == Render(v);
  }

  /** Every line of a harmless text is harmless. */
  lemma {:induction false} LinesHarmless(s: string)
    requires Harmless(s) && BreaksHarmless(s)
    ensures forall i :: 0 <= i < |SplitLines(s)| ==> Harmless(SplitLines(s)[i])
  {
    if s == "" {
    } else {
      var n := BreakAt(s);
      HarmlessPrefix(s, n);
      if n == |s| {
        assert s[..n] == s;
      } else {
        BehindBreak(s, n);
        LinesHarmless(s[n + 1..]);
      }
    }
  }

  lemma BehindBreak(s: string, n: nat)
    requires BreaksHarmless(s) && n < |s| && s[n] in LINE_BREAKS
    ensures Harmless(s[n + 1..]) && BreaksHarmless(s[n + 1..]) && s[n] != '\r'
  {
    var rest := s[n + 1..];
    forall b | 0 <= b < |rest| && rest[b] in LINE_BREAKS
      ensures rest[b] !in {'\r', '\n'} && Harmless(rest[b + 1..])
    {
      assert s[n + 1 + b] == rest[b] && s[n + 1 + b + 1..] == rest[b + 1..];
    }
  }

  lemma HarmlessTail(first: string, later: seq<string>)
    requires forall i :: 0 <= i < |later| ==> Harmless(later[i])
    ensures var lines := [first] + later;
            lines[0] == first && forall i :: 1 <= i < |lines| ==> ParseLine(lines[i]) == None
  {
    forall i | 0 <= i < |later|
      ensures ParseLine(later[i]) == None
    {
      HarmlessRejected(later[i]);
    }
  }

  /** The pieces of a rendered document behind its first line break. */
  lemma LaterPiecesRejected(v: Value)
    requires Emitted(v) && BreakAt(Render(v)) < |Render(v)|
    ensures var pieces := SplitLines(Render(v));
            && pieces != [] && pieces[0] == Render(v)[..BreakAt(Render(v))]
            && forall i :: 1 <= i < |pieces| ==> ParseLine(pieces[i]) == None
  {
    var s, n := Render(v), BreakAt(Render(v));
    DocumentBreaks(v);
    BehindBreak(s, n);
    LinesHarmless(s[n + 1..]);
    SplitFirst(s, n);
    HarmlessTail(s[..n], SplitLines(s[n + 1..]));
  }
}
