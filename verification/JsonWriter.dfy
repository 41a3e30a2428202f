/** The self-healer's printer: one JSON object per incident and plan, appended piece by piece. */
module JsonWriter {
  import opened Json

  datatype IncidentType =
    WatcherGap | RateLimitedJob | CircuitOpen | JobExecutionFailed | RedisDispatchAnomaly | Unknown

  datatype Severity = Low | Medium | High | Critical

  datatype Incident = Incident(typ: IncidentType, severity: Severity, title: string, jobId: string, jobType: string,
                               evidence: string)

  datatype HealingPlan = HealingPlan(strategyName: string, action: string, dryRun: bool, steps: seq<string>,
                                     verificationChecks: seq<string>)

  function TypeName(typ: IncidentType): string {
    match typ
    case WatcherGap => "WATCHER_GAP"
    case RateLimitedJob => "RATE_LIMITED_JOB"
    case CircuitOpen => "CIRCUIT_OPEN"
    case JobExecutionFailed => "JOB_EXECUTION_FAILED"
    case RedisDispatchAnomaly => "REDIS_DISPATCH_ANOMALY"
    case Unknown => "UNKNOWN"
  }

  function SeverityName(severity: Severity): string {
    match severity
    case Low => "LOW"
    case Medium => "MEDIUM"
    case High => "HIGH"
    case Critical => "CRITICAL"
  }

  // ----- the document the printer stands for

  function Strings(values: seq<string>): seq<Value> {
    seq(|values|, i requires 0 <= i < |values| => Str(values[i]))
  }

  function IncidentMembers(incident: Incident): seq<Member> {
    [Member("type", Str(TypeName(incident.typ))), Member("severity", Str(SeverityName(incident.severity))),
     Member("title", Str(incident.title)), Member("jobId", Str(incident.jobId)),
     Member("jobType", Str(incident.jobType)), Member("evidence", Str(incident.evidence))]
  }

  function PlanMembers(plan: HealingPlan): seq<Member> {
    [Member("strategy", Str(plan.strategyName)), Member("action", Str(plan.action)),
     Member("dryRun", Bool(plan.dryRun)),
     Member("steps", Array(Strings(plan.steps))), Member("verificationChecks", Array(Strings(plan.verificationChecks)))]
  }

  function Document(incident: Incident, plan: HealingPlan): Value {
    Object([Member("incident", Object(IncidentMembers(incident))), Member("plan", Object(PlanMembers(plan)))])
  }

  // ----- appending on the right

  lemma {:induction false} EscapeAppend(s: string, c: char)
    ensures Escape(s + [c]) == Escape(s) + EscapeChar(c)
  {
    if s == "" {
      assert s + [c] == [c];
    } else {
      EscapeAppend(s[1..], c);
      assert (s + [c])[1..] == s[1..] + [c];
    }
  }

  lemma {:induction false} ElemsAppend(elems: seq<Value>, v: Value)
    requires elems != []
    ensures RenderElems(elems + [v]) == RenderElems(elems) + ([','] + Render(v))
  {
    var all := elems + [v];
    if |elems| == 1 {
      assert all[1..] == [v] && RenderElems([v]) == Render(v);
    } else {
      ElemsAppend(elems[1..], v);
      assert all[1..] == elems[1..] + [v] && all[0] == elems[0];
      Regroup(Render(elems[0]), ',', RenderElems(elems[1..]), [','] + Render(v));
    }
  }

  lemma {:induction false} MembersAppend(members: seq<Member>, m: Member)
    requires members != []
    ensures RenderMembers(members + [m]) == RenderMembers(members) + ([','] + RenderMember(m))
  {
    var all := members + [m];
    if |members| == 1 {
      assert all[1..] == [m] && RenderMembers([m]) == RenderMember(m);
    } else {
      MembersAppend(members[1..], m);
      assert all[1..] == members[1..] + [m];
      assert all[0] == members[0];
      Regroup(RenderMember(members[0]), ',', RenderMembers(members[1..]), [','] + RenderMember(m));
    }
  }

  predicate Plain(s: string) { forall i :: 0 <= i < |s| ==> s[i] !in {'\\', '"', '\n', '\r', '\t'} }

  lemma {:induction false} PlainEscape(s: string)
    requires Plain(s)
    ensures Escape(s) == s
  {
    if s == "" {
    } else {
      PlainEscape(s[1..]);
      assert [s[0]] + s[1..] == s;
    }
  }

  // ----- the printer

  method EscapeJson(value: string) returns (escaped: string)
    ensures escaped == Escape(value)
  {
    escaped := "";
    for i := 0 to |value|
      invariant escaped == Escape(value[..i])
    {
      EscapeAppend(value[..i], value[i]);
      assert value[..i + 1] == value[..i] + [value[i]];
      escaped := escaped + EscapeChar(value[i]);
    }
    assert value[..|value|] == value;
  }

  lemma OneMoreString(values: seq<string>, i: nat)
    requires i < |values|
    ensures RenderElems(Strings(values[..i + 1])) ==
            if i == 0 then Quote(values[i]) else RenderElems(Strings(values[..i])) + ([','] + Quote(values[i]))
  {
    assert Strings(values[..i + 1]) == Strings(values[..i]) + [Str(values[i])];
    if i == 0 {
      assert Strings(values[..1]) == [Str(values[0])];
    } else {
      ElemsAppend(Strings(values[..i]), Str(values[i]));
    }
  }

  method StringArray(values: seq<string>) returns (out: string)
    ensures out == Render(Array(Strings(values)))
  {
    out := "[";
    for i := 0 to |values|
      invariant out == ['['] + RenderElems(Strings(values[..i]))
    {
      OneMoreString(values, i);
      var escaped := EscapeJson(values[i]);
      ghost var inner, quoted := RenderElems(Strings(values[..i])), Quote(values[i]);
      if i > 0 {
        Associate(['['], inner, [',']);
        Associate(['['], inner + [','], quoted);
        Associate(inner, [','], quoted);
        out := out + ",";
      }
      out := out + (['"'] + (escaped + ['"']));
    }
    assert values[..|values|] == values;
    out := out + "]";
  }

  /** `"name":"value"` */
  method TextField(name: string, value: string) returns (out: string)
    requires Plain(name)
    ensures out == RenderMember(Member(name, Str(value)))
  {
    PlainEscape(name);
    var escaped := EscapeJson(value);
    out := (['"'] + (name + ['"'])) + ([':'] + (['"'] + (escaped + ['"'])));
  }

  /** `"name":` and a rendered value */
  method OtherField(name: string, text: string, ghost v: Value) returns (out: string)
    requires Plain(name) && text == Render(v)
    ensures out == RenderMember(Member(name, v))
  {
    PlainEscape(name);
    out := (['"'] + (name + ['"'])) + ([':'] + text);
  }

  /** An object under construction, up to its closing brace. */
  ghost predicate Open(out: string, members: seq<Member>) {
    members != [] && out == ['{'] + RenderMembers(members)
  }

  /** Adds one more text member. */
  method AppendText(out: string, name: string, value: string, ghost members: seq<Member>) returns (longer: string)
    requires Open(out, members) && Plain(name)
    ensures Open(longer, members + [Member(name, Str(value))])
  {
    MembersAppend(members, Member(name, Str(value)));
    var field := TextField(name, value);
    longer := out + ([','] + field);
  }

  /** Adds one more member of another kind. */
  method AppendOther(out: string, name: string, text: string, ghost v: Value, ghost members: seq<Member>)
    returns (longer: string)
    requires Open(out, members) && Plain(name) && text == Render(v)
    ensures Open(longer, members + [Member(name, v)])
  {
    MembersAppend(members, Member(name, v));
    var field := OtherField(name, text, v);
    longer := out + ([','] + field);
  }

  method OpenWith(field: string, ghost m: Member) returns (out: string)
    requires field == RenderMember(m)
    ensures Open(out, [m])
  {
    out := ['{'] + field;
  }

  method Close(out: string, ghost members: seq<Member>) returns (text: string)
    requires Open(out, members)
    ensures text == Render(Object(members))
  {
    text := out + ['}'];
  }

  lemma Six(a: Member, b: Member, c: Member, d: Member, e: Member, f: Member)
    ensures [a] + [b] + [c] + [d] + [e] + [f] == [a, b, c, d, e, f]
    ensures [a] + [b] + [c] + [d] + [e] == [a, b, c, d, e]
  {
  }

  method WriteIncident(incident: Incident) returns (text: string)
    ensures text == Render(Object(IncidentMembers(incident)))
  {
    FieldNames();
    ghost var a := Member("type", Str(TypeName(incident.typ)));
    ghost var b := Member("severity", Str(SeverityName(incident.severity)));
    ghost var c, d := Member("title", Str(incident.title)), Member("jobId", Str(incident.jobId));
    ghost var e, f := Member("jobType", Str(incident.jobType)), Member("evidence", Str(incident.evidence));
    Six(a, b, c, d, e, f);
    var field := TextField("type", TypeName(incident.typ));
    var out := OpenWith(field, a);
    out := AppendText(out, "severity", SeverityName(incident.severity), [a]);
    out := AppendText(out, "title", incident.title, [a] + [b]);
    out := AppendText(out, "jobId", incident.jobId, [a] + [b] + [c]);
    out := AppendText(out, "jobType", incident.jobType, [a] + [b] + [c] + [d]);
    out := AppendText(out, "evidence", incident.evidence, [a] + [b] + [c] + [d] + [e]);
    text := Close(out, [a] + [b] + [c] + [d] + [e] + [f]);
  }

  method WritePlan(plan: HealingPlan) returns (text: string)
    ensures text == Render(Object(PlanMembers(plan)))
  {
    FieldNames();
    ghost var a, b := Member("strategy", Str(plan.strategyName)), Member("action", Str(plan.action));
    ghost var c, d := Member("dryRun", Bool(plan.dryRun)), Member("steps", Array(Strings(plan.steps)));
    ghost var e := Member("verificationChecks", Array(Strings(plan.verificationChecks)));
    Six(a, b, c, d, e, e);
    var field := TextField("strategy", plan.strategyName);
    var out := OpenWith(field, a);
    out := AppendText(out, "action", plan.action, [a]);
    out := AppendOther(out, "dryRun", if plan.dryRun then "true" else "false", c.value, [a] + [b]);
    var list := StringArray(plan.steps);
    out := AppendOther(out, "steps", list, d.value, [a] + [b] + [c]);
    list := StringArray(plan.verificationChecks);
    out := AppendOther(out, "verificationChecks", list, e.value, [a] + [b] + [c] + [d]);
    text := Close(out, [a] + [b] + [c] + [d] + [e]);
  }

  lemma FieldNames()
    ensures Plain("type") && Plain("severity") && Plain("title")
    ensures Plain("jobId") && Plain("jobType") && Plain("evidence")
    ensures Plain("strategy") && Plain("action") && Plain("dryRun") && Plain("steps") && Plain("verificationChecks")
    ensures Plain("incident") && Plain("plan")
  {
  }

  /** The whole line is the rendering of the incident and its plan, nothing more and nothing less. */
  method Write(incident: Incident, plan: HealingPlan) returns (out: string)
    ensures out == Render(Document(incident, plan))
  {
    FieldNames();
    ghost var first := Member("incident", Object(IncidentMembers(incident)));
    ghost var second := Member("plan", Object(PlanMembers(plan)));
    var text := WriteIncident(incident);
    var field := OtherField("incident", text, first.value);
    out := OpenWith(field, first);
    text := WritePlan(plan);
    out := AppendOther(out, "plan", text, second.value, [first]);
    out := Close(out, [first] + [second]);
  }

  // ----- the line in so many words

  function Pair(name: string, text: string): string { ['"'] + (name + (['"', ':'] + text)) }

  function Joined(parts: seq<string>): string {
    if parts == [] then "" else if |parts| == 1 then parts[0] else parts[0] + ([','] + Joined(parts[1..]))
  }

  function Braces(parts: seq<string>): string { ['{'] + (Joined(parts) + ['}']) }

  function Brackets(parts: seq<string>): string { ['['] + (Joined(parts) + [']']) }

  lemma MemberIsPair(m: Member)
    requires Plain(m.key)
    ensures RenderMember(m) == Pair(m.key, Render(m.value))
  {
    PlainEscape(m.key);
  }

  lemma {:induction false} MembersAreJoined(members: seq<Member>, parts: seq<string>)
    requires |members| == |parts|
    requires forall i :: 0 <= i < |members| ==> Plain(members[i].key)
    requires forall i :: 0 <= i < |members| ==> parts[i] == Pair(members[i].key, Render(members[i].value))
    ensures RenderMembers(members) == Joined(parts)
  {
    if members == [] {
    } else {
      MemberIsPair(members[0]);
      MembersAreJoined(members[1..], parts[1..]);
    }
  }

  lemma {:induction false} StringsAreJoined(values: seq<string>, parts: seq<string>)
    requires |values| == |parts| && forall i :: 0 <= i < |values| ==> parts[i] == Quote(values[i])
    ensures RenderElems(Strings(values)) == Joined(parts)
  {
    if values == [] {
    } else {
      assert Strings(values)[1..] == Strings(values[1..]);
      StringsAreJoined(values[1..], parts[1..]);
    }
  }

  /** A list of strings in brackets, quoted and separated by commas. */
  function ListText(values: seq<string>): string {
    Brackets(seq(|values|, i requires 0 <= i < |values| => Quote(values[i])))
  }

  lemma ListIsText(values: seq<string>)
    ensures Render(Array(Strings(values))) == ListText(values)
  {
    StringsAreJoined(values, seq(|values|, i requires 0 <= i < |values| => Quote(values[i])));
  }

  /** The six fields of an incident under their names and in their order. */
  lemma IncidentText(incident: Incident)
    ensures Render(Object(IncidentMembers(incident))) ==
            Braces([Pair("type", Quote(TypeName(incident.typ))),
                    Pair("severity", Quote(SeverityName(incident.severity))),
                    Pair("title", Quote(incident.title)), Pair("jobId", Quote(incident.jobId)),
                    Pair("jobType", Quote(incident.jobType)), Pair("evidence", Quote(incident.evidence))])
  {
    FieldNames();
    MembersAreJoined(IncidentMembers(incident),
                     [Pair("type", Quote(TypeName(incident.typ))),
                      Pair("severity", Quote(SeverityName(incident.severity))),
                      Pair("title", Quote(incident.title)), Pair("jobId", Quote(incident.jobId)),
                      Pair("jobType", Quote(incident.jobType)), Pair("evidence", Quote(incident.evidence))]);
  }

  /** The five fields of a plan under their names and in their order. */
  lemma PlanText(plan: HealingPlan)
    ensures Render(Object(PlanMembers(plan))) ==
            Braces([Pair("strategy", Quote(plan.strategyName)), Pair("action", Quote(plan.action)),
                    Pair("dryRun", if plan.dryRun then "true" else "false"), Pair("steps", ListText(plan.steps)),
                    Pair("verificationChecks", ListText(plan.verificationChecks))])
  {
    FieldNames();
    ListIsText(plan.steps);
    ListIsText(plan.verificationChecks);
    MembersAreJoined(PlanMembers(plan),
                     [Pair("strategy", Quote(plan.strategyName)), Pair("action", Quote(plan.action)),
                      Pair("dryRun", if plan.dryRun then "true" else "false"), Pair("steps", ListText(plan.steps)),
                      Pair("verificationChecks", ListText(plan.verificationChecks))]);
  }

  /** The whole line. */
  lemma DocumentText(incident: Incident, plan: HealingPlan)
    ensures Render(Document(incident, plan)) ==
            Braces([Pair("incident", Render(Object(IncidentMembers(incident)))),
                    Pair("plan", Render(Object(PlanMembers(plan))))])
  {
    FieldNames();
    MembersAreJoined(Document(incident, plan).members,
                     [Pair("incident", Render(Object(IncidentMembers(incident)))),
                      Pair("plan", Render(Object(PlanMembers(plan))))]);
  }
}
