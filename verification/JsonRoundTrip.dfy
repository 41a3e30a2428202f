/** Parsing undoes rendering, exactly when no string holds a raw control character; and no cut-off text parses. */
module JsonRoundTrip {
  import opened Json
  import Jobs

  /** The escapes of the writer cover `\n`, `\r` and `\t`, and no other control character. */
  predicate SafeChar(c: char) { ' ' <= c || c in {'\n', '\r', '\t'} }

  predicate Safe(s: string) { forall i :: 0 <= i < |s| ==> SafeChar(s[i]) }

  predicate SafeValue(v: Value)
    decreases v, 1
  {
    match v
    case Str(s) => Safe(s)
    case Array(elems) => SafeElems(elems)
    case Object(members) => SafeMembers(members)
    case _ => true
  }

  predicate SafeElems(elems: seq<Value>)
    decreases elems, 0
  {
    elems == [] || (SafeValue(elems[0]) && SafeElems(elems[1..]))
  }

  predicate SafeMember(m: Member)
    decreases m, 2
  {
    Safe(m.key) && SafeValue(m.value)
  }

  predicate SafeMembers(members: seq<Member>)
    decreases members, 0
  {
    members == [] || (SafeMember(members[0]) && SafeMembers(members[1..]))
  }

  /** The kinds of value the writer emits. */
  predicate Emitted(v: Value)
    decreases v, 1
  {
    match v
    case Number(_) => false
    case Array(elems) => EmittedElems(elems)
    case Object(members) => EmittedMembers(members)
    case _ => true
  }

  predicate EmittedElems(elems: seq<Value>)
    decreases elems, 0
  {
    elems == [] || (Emitted(elems[0]) && EmittedElems(elems[1..]))
  }

  predicate EmittedMembers(members: seq<Member>)
    decreases members, 0
  {
    members == [] || (Emitted(members[0].value) && EmittedMembers(members[1..]))
  }

  function IfSafe<T>(safe: bool, value: T, rest: string): Parsed<T> {
    if safe then Got(value, rest) else Fail
  }

  lemma ParseOneChar(c: char, more: string)
    ensures ParseString(EscapeChar(c) + more) == if SafeChar(c) then Prepend(c, ParseString(more)) else Fail
  {
    var text := EscapeChar(c) + more;
    assert text[|EscapeChar(c)|..] == more;
    assert text[0] == EscapeChar(c)[0];
  }

  lemma SafeHead(s: string)
    requires s != ""
    ensures Safe(s) <==> SafeChar(s[0]) && Safe(s[1..])
    ensures [s[0]] + s[1..] == s
  {
  }

  lemma EscapeHead(s: string, tail: string)
    requires s != ""
    ensures Escape(s) + tail == EscapeChar(s[0]) + (Escape(s[1..]) + tail)
  {
  }

  lemma {:induction false} StringTrip(s: string, rest: string)
    ensures ParseString(Escape(s) + (['"'] + rest)) == IfSafe(Safe(s), s, rest)
  {
    var tail := ['"'] + rest;
    if s == "" {
      assert Escape(s) + tail == tail;
      assert tail[1..] == rest;
    } else {
      StringTrip(s[1..], rest);
      ParseOneChar(s[0], Escape(s[1..]) + tail);
      EscapeHead(s, tail);
      SafeHead(s);
    }
  }

  lemma QuoteTrip(s: string, rest: string)
    ensures (Quote(s) + rest)[0] == '"'
    ensures ParseString((Quote(s) + rest)[1..]) == IfSafe(Safe(s), s, rest)
  {
    assert (Quote(s) + rest)[1..] == Escape(s) + (['"'] + rest);
    StringTrip(s, rest);
  }

  /** A rendered value starts with a character that is neither blank nor punctuation. */
  lemma RenderStarts(v: Value)
    requires Emitted(v)
    ensures Render(v) != "" && Render(v)[0] in {'n', 't', 'f', '"', '[', '{'}
  {
  }

  lemma ElemsStart(elems: seq<Value>)
    requires EmittedElems(elems) && elems != []
    ensures RenderElems(elems) != "" && RenderElems(elems)[0] in {'n', 't', 'f', '"', '[', '{'}
  {
    RenderStarts(elems[0]);
  }

  lemma MembersStart(members: seq<Member>)
    requires members != []
    ensures RenderMembers(members) != "" && RenderMembers(members)[0] == '"'
  {
    assert RenderMember(members[0])[0] == '"';
  }

  // ----- one step of the parser

  predicate Opens(s: string) { s != "" && s[0] in {'n', 't', 'f', '"', '[', '{'} }

  lemma ParseArray(inner: string)
    ensures Opens(inner) ==> ParseValue(['['] + inner) ==
                             (var p := ParseElems(inner); if p.Fail? then Fail else Got(Array(p.value), p.rest))
    ensures inner != "" && inner[0] == ']' ==> ParseValue(['['] + inner) == Got(Array([]), inner[1..])
    ensures inner == "" ==> ParseValue(['['] + inner) == Fail
  {
    var text := ['['] + inner;
    assert text[1..] == inner && text[0] == '[';
    if inner == "" {
      assert ParseElems(inner) == Fail;
    }
  }

  lemma ParseObject(inner: string)
    ensures inner != "" && inner[0] == '"' ==>
              ParseValue(['{'] + inner) ==
              (var p := ParseMembers(inner); if p.Fail? then Fail else Got(Object(p.value), p.rest))
    ensures inner != "" && inner[0] == '}' ==> ParseValue(['{'] + inner) == Got(Object([]), inner[1..])
    ensures inner == "" ==> ParseValue(['{'] + inner) == Fail
  {
    var text := ['{'] + inner;
    assert text[1..] == inner && text[0] == '{';
    if inner == "" {
      assert ParseMember(inner) == Fail;
    }
  }

  lemma ParseElemsStep(text: string, v: Value, more: string)
    ensures ParseValue(text) == Got(v, [']'] + more) ==> ParseElems(text) == Got([v], more)
    ensures ParseValue(text) == Got(v, [','] + more) && (more == "" || Opens(more)) ==>
              ParseElems(text) ==
              (var p := ParseElems(more); if p.Fail? then Fail else Got([v] + p.value, p.rest))
    ensures ParseValue(text) == Got(v, "") || ParseValue(text) == Fail ==> ParseElems(text) == Fail
  {
    assert ([']'] + more)[1..] == more && ([','] + more)[1..] == more;
  }

  lemma ParseMembersEnd(text: string, m: Member, more: string)
    ensures ParseMember(text) == Got(m, ['}'] + more) ==> ParseMembers(text) == Got([m], more)
    ensures ParseMember(text) == Got(m, "") || ParseMember(text) == Fail ==> ParseMembers(text) == Fail
  {
    assert (['}'] + more)[1..] == more;
  }

  lemma ParseMembersStep(text: string, m: Member, more: string)
    ensures ParseMember(text) == Got(m, [','] + more) && (more == "" || Opens(more)) ==>
              ParseMembers(text) ==
              (var p := ParseMembers(more); if p.Fail? then Fail else Got([m] + p.value, p.rest))
  {
    assert ([','] + more)[1..] == more;
  }

  lemma ParseMemberStep(text: string, key: string, more: string)
    requires text != "" && text[0] == '"'
    ensures ParseString(text[1..]) == Got(key, [':'] + more) && (more == "" || Opens(more)) ==>
              ParseMember(text) ==
              (var p := ParseValue(more); if p.Fail? then Fail else Got(Member(key, p.value), p.rest))
    ensures ParseString(text[1..]) == Fail || ParseString(text[1..]) == Got(key, "") ==> ParseMember(text) == Fail
  {
    assert ([':'] + more)[1..] == more;
  }

  // ----- whole values

  /** The parser's verdict on a rendered value, whatever follows it. */
  lemma {:induction false} ValueTrip(v: Value, rest: string)
    requires Emitted(v)
    ensures ParseValue(Render(v) + rest) == IfSafe(SafeValue(v), v, rest)
    decreases v, 1
  {
    match v
    case Null => assert ("null" + rest)[4..] == rest;
    case Bool(b) =>
      assert ("true" + rest)[4..] == rest;
      assert ("false" + rest)[5..] == rest;
    case Str(s) => QuoteTrip(s, rest);
    case Array(elems) => ArrayTrip(elems, rest);
    case Object(members) => ObjectTrip(members, rest);
  }

  lemma {:induction false} ArrayTrip(elems: seq<Value>, rest: string)
    requires EmittedElems(elems)
    ensures ParseValue(Render(Array(elems)) + rest) == IfSafe(SafeElems(elems), Array(elems), rest)
    decreases elems, 1
  {
    var inner := RenderElems(elems) + ([']'] + rest);
    assert Render(Array(elems)) + rest == ['['] + inner;
    ParseArray(inner);
    if elems == [] {
      assert inner == [']'] + rest && inner[1..] == rest;
    } else {
      ElemsStart(elems);
      ElemsTrip(elems, rest);
    }
  }

  lemma {:induction false} ObjectTrip(members: seq<Member>, rest: string)
    requires EmittedMembers(members)
    ensures ParseValue(Render(Object(members)) + rest) == IfSafe(SafeMembers(members), Object(members), rest)
    decreases members, 1
  {
    var inner := RenderMembers(members) + (['}'] + rest);
    assert Render(Object(members)) + rest == ['{'] + inner;
    ParseObject(inner);
    if members == [] {
      assert inner == ['}'] + rest && inner[1..] == rest;
    } else {
      MembersStart(members);
      MembersTrip(members, rest);
    }
  }

  lemma {:induction false} ElemsTrip(elems: seq<Value>, rest: string)
    requires EmittedElems(elems) && elems != []
    ensures ParseElems(RenderElems(elems) + ([']'] + rest)) == IfSafe(SafeElems(elems), elems, rest)
    decreases elems, 0
  {
    var text := RenderElems(elems) + ([']'] + rest);
    assert [elems[0]] + elems[1..] == elems;
    if |elems| == 1 {
      assert elems == [elems[0]] && elems[1..] == [];
      ValueTrip(elems[0], [']'] + rest);
      ParseElemsStep(text, elems[0], rest);
    } else {
      var more := RenderElems(elems[1..]) + ([']'] + rest);
      ElemsStart(elems[1..]);
      Regroup(Render(elems[0]), ',', RenderElems(elems[1..]), [']'] + rest);
      ValueTrip(elems[0], [','] + more);
      ElemsTrip(elems[1..], rest);
      ParseElemsStep(text, elems[0], more);
    }
  }

  lemma {:induction false} MemberTrip(m: Member, rest: string)
    requires Emitted(m.value)
    ensures ParseMember(RenderMember(m) + rest) == IfSafe(SafeMember(m), m, rest)
    decreases m, 2
  {
    var text := RenderMember(m) + rest;
    var value := Render(m.value) + rest;
    assert text == Quote(m.key) + ([':'] + value);
    QuoteTrip(m.key, [':'] + value);
    RenderStarts(m.value);
    ValueTrip(m.value, rest);
    ParseMemberStep(text, m.key, value);
  }

  lemma {:induction false} MembersTrip(members: seq<Member>, rest: string)
    requires EmittedMembers(members) && members != []
    ensures ParseMembers(RenderMembers(members) + (['}'] + rest)) == IfSafe(SafeMembers(members), members, rest)
    decreases members, 0
  {
    var text := RenderMembers(members) + (['}'] + rest);
    assert [members[0]] + members[1..] == members;
    if |members| == 1 {
      assert members == [members[0]] && members[1..] == [];
      MemberTrip(members[0], ['}'] + rest);
      ParseMembersEnd(text, members[0], rest);
    } else {
      var more := RenderMembers(members[1..]) + (['}'] + rest);
      MembersStart(members[1..]);
      Regroup(RenderMember(members[0]), ',', RenderMembers(members[1..]), ['}'] + rest);
      MemberTrip(members[0], [','] + more);
      MembersTrip(members[1..], rest);
      ParseMembersStep(text, members[0], more);
    }
  }

  /** Reading back a rendered document gives the same value exactly when all its strings are safe,
      and an error otherwise. */
  lemma LoadsInvertsRender(v: Value)
    requires Emitted(v)
    ensures Loads(Render(v)) == if SafeValue(v) then Jobs.Some(v) else Jobs.None
  {
    RenderStarts(v);
    ValueTrip(v, "");
    assert Render(v) + "" == Render(v);
  }
}
