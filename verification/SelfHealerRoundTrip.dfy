/** From the printer through the pipe to the reader: what arrives, and exactly when it arrives. */
module SelfHealerRoundTrip {
  import opened Jobs
  import opened Json
  import opened JsonRoundTrip
  import opened JsonPieces
  import opened JsonTruncation
  import opened JsonWriter
  import opened SelfHealerClient

  // ----- every string of a value

  predicate Every(v: Value, p: string -> bool)
    decreases v, 1
  {
    match v
    case Str(s) => p(s)
    case Array(elems) => EveryElem(elems, p)
    case Object(members) => EveryMember(members, p)
    case _ => true
  }

  predicate EveryElem(elems: seq<Value>, p: string -> bool)
    decreases elems, 0
  {
    elems == [] || (Every(elems[0], p) && EveryElem(elems[1..], p))
  }

  predicate EveryMember(members: seq<Member>, p: string -> bool)
    decreases members, 0
  {
    members == [] || (p(members[0].key) && Every(members[0].value, p) && EveryMember(members[1..], p))
  }

  lemma {:induction false} SafeIff(v: Value)
    ensures SafeValue(v) <==> Every(v, Safe)
    decreases v, 1
  {
    match v
    case Array(elems) => SafeElemsIff(elems);
    case Object(members) => SafeMembersIff(members);
    case _ =>
  }

  lemma {:induction false} SafeElemsIff(elems: seq<Value>)
    ensures SafeElems(elems) <==> EveryElem(elems, Safe)
    decreases elems, 0
  {
    if elems == [] {
    } else {
      SafeIff(elems[0]);
      SafeElemsIff(elems[1..]);
    }
  }

  lemma {:induction false} SafeMembersIff(members: seq<Member>)
    ensures SafeMembers(members) <==> EveryMember(members, Safe)
    decreases members, 0
  {
    if members == [] {
    } else {
      SafeIff(members[0].value);
      SafeMembersIff(members[1..]);
    }
  }

  // ----- line breaks in the rendered text

  /** No line break except those the printer escapes. */
  predicate UnbrokenChar(c: char) { c !in LINE_BREAKS || c in {'\n', '\r'} }

  predicate Unbroken(s: string) { forall i :: 0 <= i < |s| ==> UnbrokenChar(s[i]) }

  predicate OneLine(s: string) { forall i :: 0 <= i < |s| ==> s[i] !in LINE_BREAKS }

  lemma OneLineConcat(a: string, b: string)
    ensures OneLine(a + b) <==> OneLine(a) && OneLine(b)
  {
    var ab := a + b;
    assert forall i :: 0 <= i < |a| ==> a[i] == ab[i];
    assert forall i :: 0 <= i < |b| ==> b[i] == ab[|a| + i];
  }

  lemma EscapedChar(c: char)
    ensures OneLine(EscapeChar(c)) <==> UnbrokenChar(c)
  {
    assert OneLine("\\\\") && OneLine("\\\"") && OneLine("\\n") && OneLine("\\r") && OneLine("\\t");
    assert [c][0] == c;
  }

  lemma {:induction false} EscapedText(s: string)
    ensures OneLine(Escape(s)) <==> Unbroken(s)
  {
    if s == "" {
    } else {
      EscapedChar(s[0]);
      EscapedText(s[1..]);
      OneLineConcat(EscapeChar(s[0]), Escape(s[1..]));
    }
  }

  lemma QuotedText(s: string)
    ensures OneLine(Quote(s)) <==> Unbroken(s)
  {
    EscapedText(s);
    assert OneLine(['"']);
    OneLineConcat(Escape(s), ['"']);
    OneLineConcat(['"'], Escape(s) + ['"']);
  }

  lemma Framed(open: char, inner: string, close: char)
    requires open !in LINE_BREAKS && close !in LINE_BREAKS
    ensures OneLine([open] + (inner + [close])) <==> OneLine(inner)
  {
    assert OneLine([open]) && OneLine([close]);
    OneLineConcat(inner, [close]);
    OneLineConcat([open], inner + [close]);
  }

  lemma Separated(a: string, mark: char, b: string)
    requires mark !in LINE_BREAKS
    ensures OneLine(a + ([mark] + b)) <==> OneLine(a) && OneLine(b)
  {
    assert OneLine([mark]);
    OneLineConcat([mark], b);
    OneLineConcat(a, [mark] + b);
  }

  lemma {:induction false} RenderedOnOneLine(v: Value)
    requires Emitted(v)
    ensures OneLine(Render(v)) <==> Every(v, Unbroken)
    decreases v, 1
  {
    match v
    case Null => assert OneLine("null");
    case Bool(_) => assert OneLine("true") && OneLine("false");
    case Str(s) => QuotedText(s);
    case Array(elems) =>
      Framed('[', RenderElems(elems), ']');
      ElemsOnOneLine(elems);
    case Object(members) =>
      Framed('{', RenderMembers(members), '}');
      MembersOnOneLine(members);
  }

  lemma {:induction false} ElemsOnOneLine(elems: seq<Value>)
    requires EmittedElems(elems)
    ensures OneLine(RenderElems(elems)) <==> EveryElem(elems, Unbroken)
    decreases elems, 0
  {
    if elems == [] {
    } else {
      RenderedOnOneLine(elems[0]);
      ElemsOnOneLine(elems[1..]);
      Separated(Render(elems[0]), ',', RenderElems(elems[1..]));
    }
  }

  lemma {:induction false} MembersOnOneLine(members: seq<Member>)
    requires EmittedMembers(members)
    ensures OneLine(RenderMembers(members)) <==> EveryMember(members, Unbroken)
    decreases members, 0
  {
    if members == [] {
    } else {
      var m := members[0];
      QuotedText(m.key);
      RenderedOnOneLine(m.value);
      Separated(Quote(m.key), ':', Render(m.value));
      MembersOnOneLine(members[1..]);
      Separated(RenderMember(m), ',', RenderMembers(members[1..]));
    }
  }

  // ----- lines

  /** The first line break of a text, if there is none the line feed behind it. */
  lemma {:induction false} BreakAtConcat(text: string, rest: string)
    ensures BreakAt(text + (['\n'] + rest)) == BreakAt(text)
  {
    var all := text + (['\n'] + rest);
    if text == "" {
      assert all[0] == '\n';
    } else {
      BreakAtConcat(text[1..], rest);
      assert all[1..] == text[1..] + (['\n'] + rest);
      assert all[0] == text[0];
    }
  }

  lemma OneLineBreakAt(text: string)
    ensures OneLine(text) <==> BreakAt(text) == |text|
  {
  }

  /** Each document with its line feed, as the printer's main loop writes them. */
  function Stream(docs: seq<string>): string {
    if docs == [] then "" else docs[0] + (['\n'] + Stream(docs[1..]))
  }

  lemma JoinedAt(doc: string, rest: string, n: nat)
    requires n <= |doc|
    ensures var text := doc + (['\n'] + rest);
            && text[..n] == doc[..n]
            && if n == |doc| then text[n] == '\n' && text[n + 1..] == rest
               else text[n] == doc[n] && text[n + 1..] == doc[n + 1..] + (['\n'] + rest)
  {
  }

  /** The document ends within a line, and has no raw carriage return. */
  predicate EndsInLine(doc: string) {
    doc != "" && doc[|doc| - 1] !in LINE_BREAKS && '\r' !in doc
  }

  lemma EndsInLineBehind(doc: string, n: nat)
    requires EndsInLine(doc) && n < |doc| && doc[n] in LINE_BREAKS
    ensures EndsInLine(doc[n + 1..]) && doc[n] != '\r'
  {
    assert doc[n] in doc;
  }

  lemma SplitWhole(doc: string)
    requires doc != "" && BreakAt(doc) == |doc|
    ensures SplitLines(doc) == [doc]
  {
  }

  lemma SplitJoinedFirst(doc: string, rest: string, n: nat)
    requires EndsInLine(doc) && n == BreakAt(doc)
    ensures var more := if n == |doc| then rest else doc[n + 1..] + (['\n'] + rest);
            SplitLines(doc + (['\n'] + rest)) == [doc[..n]] + SplitLines(more)
  {
    BreakAtConcat(doc, rest);
    JoinedAt(doc, rest, n);
    if n < |doc| {
      EndsInLineBehind(doc, n);
    }
    SplitFirst(doc + (['\n'] + rest), n);
  }

  lemma Grouped<T>(a: seq<T>, b: seq<T>, c: seq<T>)
    ensures a + (b + c) == a + b + c
  {
  }

  /** A document and its line feed, in front of other text: the lines of the document, then those of the rest. */
  lemma {:induction false} SplitJoined(doc: string, rest: string)
    requires EndsInLine(doc)
    ensures SplitLines(doc + (['\n'] + rest)) == SplitLines(doc) + SplitLines(rest)
    decreases |doc|
  {
    var n := BreakAt(doc);
    SplitJoinedFirst(doc, rest, n);
    if n == |doc| {
      SplitWhole(doc);
      assert doc[..n] == doc;
    } else {
      var more := doc[n + 1..];
      var later := SplitLines(more + (['\n'] + rest));
      assert later == SplitLines(more) + SplitLines(rest) by {
        EndsInLineBehind(doc, n);
        SplitJoined(more, rest);
      }
      assert SplitLines(doc) == [doc[..n]] + SplitLines(more) by {
        EndsInLineBehind(doc, n);
        SplitFirst(doc, n);
      }
      Grouped([doc[..n]], SplitLines(more), SplitLines(rest));
    }
  }

  lemma DropDoc(doc: string, rest: string)
    requires OneLine(doc)
    ensures SplitLines(doc + (['\n'] + rest)) == [doc] + SplitLines(rest)
  {
    OneLineBreakAt(doc);
    BreakAtConcat(doc, rest);
    JoinedAt(doc, rest, |doc|);
    SplitFirst(doc + (['\n'] + rest), |doc|);
    assert doc[..|doc|] == doc;
  }

  /** A stream of one-line documents splits into exactly these documents, in order. */
  lemma {:induction false} StreamSplits(docs: seq<string>)
    requires forall i :: 0 <= i < |docs| ==> OneLine(docs[i])
    ensures SplitLines(Stream(docs)) == docs
  {
    if docs == [] {
    } else {
      DropDoc(docs[0], Stream(docs[1..]));
      StreamSplits(docs[1..]);
    }
  }

  // ----- the strings of a document

  /** The strings of an item that come from logs and plans. */
  function FreeTexts(incident: Incident, plan: HealingPlan): set<string> {
    {incident.title, incident.jobId, incident.jobType, incident.evidence, plan.strategyName, plan.action}
    + (set s | s in plan.steps) + (set s | s in plan.verificationChecks)
  }

  ghost predicate AllOf(texts: set<string>, p: string -> bool) { forall s :: s in texts ==> p(s) }

  /** The strings the printer brings along itself. */
  predicate FixedTexts(incident: Incident, p: string -> bool) {
    && p(TypeName(incident.typ)) && p(SeverityName(incident.severity))
    && p("type") && p("severity") && p("title") && p("jobId") && p("jobType") && p("evidence")
    && p("strategy") && p("action") && p("dryRun") && p("steps") && p("verificationChecks")
    && p("incident") && p("plan")
  }

  lemma {:induction false} StringTexts(values: seq<string>, p: string -> bool)
    ensures EmittedElems(Strings(values))
    ensures EveryElem(Strings(values), p) <==> forall i :: 0 <= i < |values| ==> p(values[i])
  {
    if values == [] {
    } else {
      StringTexts(values[1..], p);
      assert Strings(values)[1..] == Strings(values[1..]);
      assert forall i :: 1 <= i < |values| ==> values[i] == values[1..][i - 1];
    }
  }

  lemma {:induction false} MembersEvery(members: seq<Member>, p: string -> bool)
    ensures EveryMember(members, p) <==>
            forall i :: 0 <= i < |members| ==> p(members[i].key) && Every(members[i].value, p)
    ensures EmittedMembers(members) <==> forall i :: 0 <= i < |members| ==> Emitted(members[i].value)
  {
    if members == [] {
    } else {
      MembersEvery(members[1..], p);
      assert forall i :: 1 <= i < |members| ==> members[i] == members[1..][i - 1];
    }
  }

  lemma IncidentTexts(incident: Incident, p: string -> bool)
    ensures EmittedMembers(IncidentMembers(incident))
    ensures EveryMember(IncidentMembers(incident), p) <==>
            && p("type") && p("severity") && p("title") && p("jobId") && p("jobType") && p("evidence")
            && p(TypeName(incident.typ)) && p(SeverityName(incident.severity))
            && p(incident.title) && p(incident.jobId) && p(incident.jobType) && p(incident.evidence)
  {
    var m := IncidentMembers(incident);
    MembersEvery(m, p);
    assert Every(m[0].value, p) == p(TypeName(incident.typ));
    assert Every(m[1].value, p) == p(SeverityName(incident.severity));
    assert Every(m[2].value, p) == p(incident.title) && Every(m[3].value, p) == p(incident.jobId);
    assert Every(m[4].value, p) == p(incident.jobType) && Every(m[5].value, p) == p(incident.evidence);
  }

  lemma PlanTexts(plan: HealingPlan, p: string -> bool)
    ensures EmittedMembers(PlanMembers(plan))
    ensures EveryMember(PlanMembers(plan), p) <==>
            && p("strategy") && p("action") && p("dryRun") && p("steps") && p("verificationChecks")
            && p(plan.strategyName) && p(plan.action)
            && (forall i :: 0 <= i < |plan.steps| ==> p(plan.steps[i]))
            && (forall i :: 0 <= i < |plan.verificationChecks| ==> p(plan.verificationChecks[i]))
  {
    StringTexts(plan.steps, p);
    StringTexts(plan.verificationChecks, p);
    var m := PlanMembers(plan);
    MembersEvery(m, p);
    assert Every(m[0].value, p) == p(plan.strategyName) && Every(m[1].value, p) == p(plan.action);
    assert Every(m[2].value, p);
    assert Emitted(m[2].value) && Emitted(m[3].value) && Emitted(m[4].value);
  }

  lemma FreeTextsEvery(incident: Incident, plan: HealingPlan, p: string -> bool)
    ensures AllOf(FreeTexts(incident, plan), p) <==>
            && p(incident.title) && p(incident.jobId) && p(incident.jobType) && p(incident.evidence)
            && p(plan.strategyName) && p(plan.action)
            && (forall i :: 0 <= i < |plan.steps| ==> p(plan.steps[i]))
            && (forall i :: 0 <= i < |plan.verificationChecks| ==> p(plan.verificationChecks[i]))
  {
    var texts := FreeTexts(incident, plan);
    assert incident.title in texts && incident.jobId in texts && incident.jobType in texts;
    assert incident.evidence in texts && plan.strategyName in texts && plan.action in texts;
    assert forall i :: 0 <= i < |plan.steps| ==> plan.steps[i] in texts;
    assert forall i :: 0 <= i < |plan.verificationChecks| ==> plan.verificationChecks[i] in texts;
  }

  lemma DocumentTexts(incident: Incident, plan: HealingPlan, p: string -> bool)
    ensures Emitted(Document(incident, plan))
    ensures Every(Document(incident, plan), p) <==> FixedTexts(incident, p) && AllOf(FreeTexts(incident, plan), p)
  {
    MembersEvery(Document(incident, plan).members, p);
    IncidentTexts(incident, p);
    PlanTexts(plan, p);
    FreeTextsEvery(incident, plan, p);
  }

  predicate Ascii(s: string) { forall i :: 0 <= i < |s| ==> ' ' <= s[i] <= '~' }

  lemma AsciiTravels(s: string)
    ensures Ascii(s) ==> Safe(s) && Unbroken(s)
  {
  }

  lemma NamesAreAscii(incident: Incident)
    ensures Ascii(TypeName(incident.typ)) && Ascii(SeverityName(incident.severity))
  {
    TypeNamesAreAscii();
    SeverityNamesAreAscii();
  }

  lemma TypeNamesAreAscii()
    ensures Ascii("WATCHER_GAP") && Ascii("RATE_LIMITED_JOB") && Ascii("CIRCUIT_OPEN") && Ascii("JOB_EXECUTION_FAILED")
    ensures Ascii("REDIS_DISPATCH_ANOMALY") && Ascii("UNKNOWN")
  {
  }

  lemma SeverityNamesAreAscii()
    ensures Ascii("LOW") && Ascii("MEDIUM") && Ascii("HIGH") && Ascii("CRITICAL")
  {
  }

  lemma FieldsAreAscii()
    ensures Ascii("type") && Ascii("severity") && Ascii("title")
    ensures Ascii("jobId") && Ascii("jobType") && Ascii("evidence")
    ensures Ascii("strategy") && Ascii("action") && Ascii("dryRun") && Ascii("steps") && Ascii("verificationChecks")
    ensures Ascii("incident") && Ascii("plan")
  {
  }

  lemma FixedTextsTravel(incident: Incident)
    ensures FixedTexts(incident, Safe) && FixedTexts(incident, Unbroken)
  {
    NamesAreAscii(incident);
    FieldsAreAscii();
    assert FixedTexts(incident, Ascii);
    forall s
      ensures Ascii(s) ==> Safe(s) && Unbroken(s)
    {
      AsciiTravels(s);
    }
  }

  // ----- main results

  /** The printed line parses back to the same fields exactly when no string holds a control character other than
      line feed, carriage return and tab; otherwise the reader drops it. */
  lemma LineParsesIff(incident: Incident, plan: HealingPlan)
    ensures ParseLine(Line(incident, plan)) ==
            if AllOf(FreeTexts(incident, plan), Safe) then Some(Printed(incident, plan)) else None
  {
    var doc := Document(incident, plan);
    var line := Line(incident, plan);
    DocumentTexts(incident, plan, Safe);
    FixedTextsTravel(incident);
    SafeIff(doc);
    LoadsInvertsRender(doc);
    DocumentValidates(incident, plan);
    assert line[0] == '{' && line[|line| - 1] == '}';
    assert Strip(line) == line;
  }

  /** The printed line stays one line exactly when no string holds a line break other than the two escaped ones. */
  lemma LineIsOneLineIff(incident: Incident, plan: HealingPlan)
    ensures OneLine(Line(incident, plan)) <==> AllOf(FreeTexts(incident, plan), Unbroken)
  {
    DocumentTexts(incident, plan, Unbroken);
    FixedTextsTravel(incident);
    RenderedOnOneLine(Document(incident, plan));
  }

  /** No control character but `\n`, `\r`, `\t`, and none of U+0085, U+2028, U+2029, in any string. */
  ghost predicate Portable(incident: Incident, plan: HealingPlan) {
    AllOf(FreeTexts(incident, plan), Safe) && AllOf(FreeTexts(incident, plan), Unbroken)
  }

  /** Portable characters, by number. */
  predicate PortableChar(c: char) {
    (' ' <= c && c !in {'\U{85}', '\U{2028}', '\U{2029}'}) || c in {'\n', '\r', '\t'}
  }

  lemma PortableByNumber(s: string)
    ensures Safe(s) && Unbroken(s) <==> forall i :: 0 <= i < |s| ==> PortableChar(s[i])
  {
    if Safe(s) && Unbroken(s) {
      forall i | 0 <= i < |s|
        ensures PortableChar(s[i])
      {
        assert SafeChar(s[i]) && UnbrokenChar(s[i]);
      }
    }
    if forall i :: 0 <= i < |s| ==> PortableChar(s[i]) {
      forall i | 0 <= i < |s|
        ensures SafeChar(s[i]) && UnbrokenChar(s[i])
      {
        assert PortableChar(s[i]);
      }
    }
  }

  /** An item is portable exactly when every character of every string of it is. */
  lemma PortableIff(incident: Incident, plan: HealingPlan)
    ensures Portable(incident, plan) <==>
            forall s, i :: s in FreeTexts(incident, plan) && 0 <= i < |s| ==> PortableChar(s[i])
  {
    forall s | s in FreeTexts(incident, plan)
      ensures Safe(s) && Unbroken(s) <==> forall i :: 0 <= i < |s| ==> PortableChar(s[i])
    {
      PortableByNumber(s);
    }
  }

  lemma CutLineRejected(doc: Value, n: nat)
    requires Emitted(doc) && doc.Object? && n < |Render(doc)|
    ensures ParseLine(Render(doc)[..n]).None?
  {
    var cut := Render(doc)[..n];
    if n > 0 {
      assert cut[0] == '{';
      var text := StripRight(cut);
      assert text == Render(doc)[..|text|];
      CutValue(doc, |text|);
    }
  }

  /** The line the reader sees first is accepted, with all fields intact, if and only if the item is portable:
      a line that was broken up is rejected wherever the break falls. */
  lemma FirstLineIff(incident: Incident, plan: HealingPlan, rest: string)
    ensures var lines := SplitLines(Line(incident, plan) + (['\n'] + rest));
            && lines != []
            && ParseLine(lines[0]) == if Portable(incident, plan) then Some(Printed(incident, plan)) else None
  {
    var line := Line(incident, plan);
    var text := line + (['\n'] + rest);
    LineParsesIff(incident, plan);
    LineIsOneLineIff(incident, plan);
    OneLineBreakAt(line);
    BreakAtConcat(line, rest);
    var n := BreakAt(line);
    assert line[0] == '{';
    assert text[..n] == line[..n];
    if n == |line| {
      assert line[..n] == line;
    } else {
      DocumentTexts(incident, plan, Safe);
      CutLineRejected(Document(incident, plan), n);
    }
  }

  // ----- whole streams

  lemma LastOfConcat(a: seq<string>, b: seq<string>)
    requires b != []
    ensures var all := a + b;
            all[..|all| - 1] == a + b[..|b| - 1] && all[|all| - 1] == b[|b| - 1]
  {
  }

  lemma {:induction false} AcceptedConcat(a: seq<string>, b: seq<string>)
    ensures Accepted(a + b) == Accepted(a) + Accepted(b)
  {
    if b == [] {
      assert a + b == a;
    } else {
      var n := |b| - 1;
      AcceptedConcat(a, b[..n]);
      LastOfConcat(a, b);
      var last := ParseLine(b[n]);
      Grouped(Accepted(a), Accepted(b[..n]), if last.Some? then [last.value] else []);
    }
  }

  lemma {:induction false} NothingAccepted(lines: seq<string>)
    requires forall i :: 0 <= i < |lines| ==> ParseLine(lines[i]) == None
    ensures Accepted(lines) == []
  {
    if lines == [] {
    } else {
      NothingAccepted(lines[..|lines| - 1]);
    }
  }

  lemma AcceptedOne(line: string)
    ensures Accepted([line]) == var output := ParseLine(line); if output.Some? then [output.value] else []
  {
    assert Accepted([line][..0]) == [];
  }

  lemma ObjectEnds(members: seq<Member>)
    requires BreaksHarmless(Render(Object(members)))
    ensures EndsInLine(Render(Object(members)))
  {
    var doc := Render(Object(members));
    assert doc[|doc| - 1] == '}';
  }

  lemma LineEnds(incident: Incident, plan: HealingPlan)
    ensures EndsInLine(Line(incident, plan))
  {
    DocumentTexts(incident, plan, Safe);
    DocumentBreaks(Document(incident, plan));
    ObjectEnds(Document(incident, plan).members);
  }

  lemma TornRejected(doc: Value)
    requires Emitted(doc) && doc.Object? && BreakAt(Render(doc)) < |Render(doc)|
    ensures Accepted(SplitLines(Render(doc))) == []
  {
    LaterPiecesRejected(doc);
    CutLineRejected(doc, BreakAt(Render(doc)));
    NothingAccepted(SplitLines(Render(doc)));
  }

  /** The printed text may be torn into several lines, but the reader takes it for the item or for nothing. */
  lemma LinesOfItem(incident: Incident, plan: HealingPlan)
    ensures Accepted(SplitLines(Line(incident, plan))) ==
            if Portable(incident, plan) then [Printed(incident, plan)] else []
  {
    var line := Line(incident, plan);
    LineParsesIff(incident, plan);
    LineIsOneLineIff(incident, plan);
    OneLineBreakAt(line);
    LineEnds(incident, plan);
    if BreakAt(line) == |line| {
      SplitWhole(line);
      AcceptedOne(line);
    } else {
      DocumentTexts(incident, plan, Safe);
      TornRejected(Document(incident, plan));
    }
  }

  datatype Item = Item(incident: Incident, plan: HealingPlan)

  function LinesOf(items: seq<Item>): seq<string> {
    if items == [] then [] else [Line(items[0].incident, items[0].plan)] + LinesOf(items[1..])
  }

  /** What the portable items among `items` say. */
  ghost function PrintedPortable(items: seq<Item>): seq<Output> {
    if items == [] then []
    else
      var first := items[0];
      (if Portable(first.incident, first.plan) then [Printed(first.incident, first.plan)] else [])
      + PrintedPortable(items[1..])
  }

  /** Of everything the printer writes for any sequence of items, exactly the portable items are read back, unchanged
      and in order; nothing is ever made of the fragments of the others. */
  lemma {:induction false} StreamRoundTrip(items: seq<Item>)
    ensures Accepted(SplitLines(Stream(LinesOf(items)))) == PrintedPortable(items)
  {
    if items == [] {
    } else {
      var first := items[0];
      var line, rest := Line(first.incident, first.plan), Stream(LinesOf(items[1..]));
      assert Stream(LinesOf(items)) == line + (['\n'] + rest) by {
        assert LinesOf(items)[1..] == LinesOf(items[1..]);
      }
      LineEnds(first.incident, first.plan);
      SplitJoined(line, rest);
      AcceptedConcat(SplitLines(line), SplitLines(rest));
      LinesOfItem(first.incident, first.plan);
      StreamRoundTrip(items[1..]);
    }
  }

  /** A log line with a Unicode line separator, or with a backspace, makes an incident that never arrives. */
  lemma SeparatorIsLost(plan: HealingPlan)
    ensures Accepted(SplitLines(Line(Incident(WatcherGap, High, "", "", "", "gap\U{2028}"), plan))) == []
    ensures Accepted(SplitLines(Line(Incident(WatcherGap, High, "", "", "", "gap\U{8}"), plan))) == []
  {
    var torn := Incident(WatcherGap, High, "", "", "", "gap\U{2028}");
    var raw := Incident(WatcherGap, High, "", "", "", "gap\U{8}");
    LinesOfItem(torn, plan);
    LinesOfItem(raw, plan);
    assert torn.evidence in FreeTexts(torn, plan) && torn.evidence[3] == '\U{2028}';
    assert raw.evidence in FreeTexts(raw, plan) && raw.evidence[3] == '\U{8}';
    assert !Unbroken(torn.evidence) && !Safe(raw.evidence);
  }
}
