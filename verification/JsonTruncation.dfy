/** A rendered document that was cut off never parses, wherever the cut is. */
module JsonTruncation {
  import opened Json
  import opened JsonRoundTrip

  lemma CutConcat(a: string, b: string, n: nat)
    requires n <= |a + b|
    ensures (a + b)[..n] == if n <= |a| then a[..n] else a + b[..n - |a|]
  {
  }

  /** Cutting `first`, or what is behind it and its separator. */
  lemma CutSeparated(first: string, mark: char, more: string, n: nat)
    requires n <= |first| + 1 + |more|
    ensures (first + ([mark] + more))[..n] ==
            if n <= |first| then first[..n] else first + ([mark] + more[..n - |first| - 1])
  {
    CutConcat(first, [mark] + more, n);
    if |first| < n {
      CutConcat([mark], more, n - |first|);
    }
  }

  lemma CutEscape(c: char, more: string, n: nat)
    requires n <= |EscapeChar(c)| + |more| && 0 < n
    requires |EscapeChar(c)| <= n ==> ParseString(more[..n - |EscapeChar(c)|]) == Fail
    ensures ParseString((EscapeChar(c) + more)[..n]) == Fail
  {
    CutConcat(EscapeChar(c), more, n);
    if n < |EscapeChar(c)| {
      assert EscapeChar(c)[..n] == ['\\'];
    } else {
      assert EscapeChar(c) + more[..0] == EscapeChar(c);
      ParseOneChar(c, more[..n - |EscapeChar(c)|]);
    }
  }

  lemma {:induction false} CutString(s: string, n: nat)
    requires n <= |Escape(s)|
    ensures ParseString((Escape(s) + ['"'])[..n]) == Fail
  {
    if n == 0 {
    } else {
      var e := EscapeChar(s[0]);
      EscapeHead(s, ['"']);
      if |e| <= n {
        CutString(s[1..], n - |e|);
      }
      CutEscape(s[0], Escape(s[1..]) + ['"'], n);
    }
  }

  lemma CutQuote(s: string, n: nat)
    requires 0 < n < |Quote(s)|
    ensures Quote(s)[..n][0] == '"' && ParseString(Quote(s)[..n][1..]) == Fail
  {
    CutString(s, n - 1);
    assert Quote(s)[..n][1..] == (Escape(s) + ['"'])[..n - 1];
  }

  lemma {:induction false} CutValue(v: Value, n: nat)
    requires Emitted(v) && n < |Render(v)|
    ensures ParseValue(Render(v)[..n]) == Fail
    decreases v, 1
  {
    if n == 0 {
      assert Render(v)[..n] == "";
    } else {
      match v
      case Null => CutWord("null", n);
      case Bool(b) => CutWord("true", n); CutWord("false", n);
      case Str(s) => CutQuote(s, n);
      case Array(elems) => CutArray(elems, n);
      case Object(members) => CutObject(members, n);
    }
  }

  lemma CutWord(word: string, n: nat)
    requires word in {"null", "true", "false"} && 0 < n
    ensures n < |word| ==> ParseValue(word[..n]) == Fail
  {
    if n < |word| {
      var text := word[..n];
      assert !("null" <= text) && !("true" <= text) && !("false" <= text) by {
        assert text[0] == word[0];
      }
      assert text[0..] == text && Digits(text) == 0;
    }
  }

  lemma {:induction false} CutArray(elems: seq<Value>, n: nat)
    requires EmittedElems(elems) && 0 < n < |Render(Array(elems))|
    ensures ParseValue(Render(Array(elems))[..n]) == Fail
    decreases elems, 1
  {
    var inner := (RenderElems(elems) + [']'])[..n - 1];
    assert Render(Array(elems))[..n] == ['['] + inner;
    ParseArray(inner);
    if inner != "" {
      ElemsStart(elems);
      CutElems(elems, n - 1);
    }
  }

  lemma {:induction false} CutObject(members: seq<Member>, n: nat)
    requires EmittedMembers(members) && 0 < n < |Render(Object(members))|
    ensures ParseValue(Render(Object(members))[..n]) == Fail
    decreases members, 1
  {
    var inner := (RenderMembers(members) + ['}'])[..n - 1];
    assert Render(Object(members))[..n] == ['{'] + inner;
    ParseObject(inner);
    if inner != "" {
      MembersStart(members);
      CutMembers(members, n - 1);
    }
  }

  lemma {:induction false} CutElems(elems: seq<Value>, n: nat)
    requires EmittedElems(elems) && elems != [] && n <= |RenderElems(elems)|
    ensures ParseElems((RenderElems(elems) + [']'])[..n]) == Fail
    decreases elems, 0
  {
    var first := Render(elems[0]);
    if n <= |first| {
      assert (RenderElems(elems) + [']'])[..n] == first[..n];
      if n < |first| {
        CutValue(elems[0], n);
      } else {
        ValueTrip(elems[0], "");
        assert first[..n] == first + "";
      }
      ParseElemsStep(first[..n], elems[0], "");
    } else {
      var more := RenderElems(elems[1..]) + [']'];
      var cut := more[..n - |first| - 1];
      Regroup(first, ',', RenderElems(elems[1..]), [']']);
      CutSeparated(first, ',', more, n);
      ValueTrip(elems[0], [','] + cut);
      ElemsStart(elems[1..]);
      CutElems(elems[1..], n - |first| - 1);
      ParseElemsStep(first + ([','] + cut), elems[0], cut);
    }
  }

  lemma {:induction false} CutMember(m: Member, n: nat)
    requires Emitted(m.value) && n < |RenderMember(m)|
    ensures ParseMember(RenderMember(m)[..n]) == Fail
    decreases m, 2
  {
    var key := Quote(m.key);
    var text := RenderMember(m)[..n];
    if n == 0 {
      assert text == "";
    } else if n < |key| {
      CutQuote(m.key, n);
      assert text == key[..n];
      ParseMemberStep(text, m.key, "");
    } else if n == |key| {
      QuoteTrip(m.key, "");
      assert text == key + "";
      ParseMemberStep(text, m.key, "");
    } else {
      var value := Render(m.value)[..n - |key| - 1];
      assert text == key + ([':'] + value);
      QuoteTrip(m.key, [':'] + value);
      RenderStarts(m.value);
      CutValue(m.value, n - |key| - 1);
      ParseMemberStep(text, m.key, value);
    }
  }

  lemma {:induction false} CutMembers(members: seq<Member>, n: nat)
    requires EmittedMembers(members) && members != [] && n <= |RenderMembers(members)|
    ensures ParseMembers((RenderMembers(members) + ['}'])[..n]) == Fail
    decreases members, 0
  {
    var first := RenderMember(members[0]);
    if n <= |first| {
      assert (RenderMembers(members) + ['}'])[..n] == first[..n];
      if n < |first| {
        CutMember(members[0], n);
      } else {
        MemberTrip(members[0], "");
        assert first[..n] == first + "";
      }
      ParseMembersEnd(first[..n], members[0], "");
    } else {
      var more := RenderMembers(members[1..]) + ['}'];
      var cut := more[..n - |first| - 1];
      Regroup(first, ',', RenderMembers(members[1..]), ['}']);
      CutSeparated(first, ',', more, n);
      MemberTrip(members[0], [','] + cut);
      MembersStart(members[1..]);
      CutMembers(members[1..], n - |first| - 1);
      ParseMembersStep(first + ([','] + cut), members[0], cut);
    }
  }
}
