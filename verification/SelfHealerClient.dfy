/** The orchestrator's reader of the self-healer's output: split into lines, strip, parse, validate. */
module SelfHealerClient {
  import opened Jobs
  import opened Json
  import opened JsonWriter

  datatype IncidentFields = IncidentFields(typ: string, severity: string, title: string, jobId: string, jobType: string,
                                           evidence: string)

  datatype PlanFields = PlanFields(strategy: string, action: string, dryRun: bool, steps: seq<string>,
                                   verificationChecks: seq<string>)

  datatype Output = Output(incident: IncidentFields, plan: PlanFields)

  // ----- validation of the parsed document

  /** A dictionary keeps the last value of a repeated key. */
  function Lookup(members: seq<Member>, key: string): Option<Value> {
    if members == [] then None
    else
      var last := members[|members| - 1];
      if last.key == key then Some(last.value) else Lookup(members[..|members| - 1], key)
  }

  /** A field under its alias, or else under its own name. */
  function Field(members: seq<Member>, alias: string, name: string): Option<Value> {
    var found := Lookup(members, alias);
    if found.Some? then found else Lookup(members, name)
  }

  function Text(found: Option<Value>, default: Option<string>): Option<string> {
    if found.None? then default else if found.value.Str? then Some(found.value.s) else None
  }

  function Texts(values: seq<Value>): Option<seq<string>> {
    if values == [] then Some([])
    else
      var more := Texts(values[1..]);
      if values[0].Str? && more.Some? then Some([values[0].s] + more.value) else None
  }

  function TextList(found: Option<Value>): Option<seq<string>> {
    if found.None? then Some([]) else if found.value.Array? then Texts(found.value.elems) else None
  }

  /** Conversions of other kinds to a flag are not part of this model. */
  function Flag(found: Option<Value>): Option<bool> {
    if found.None? then Some(true) else if found.value.Bool? then Some(found.value.b) else None
  }

  function ValidateIncident(m: seq<Member>): Option<IncidentFields> {
    var typ, severity := Text(Lookup(m, "type"), None), Text(Lookup(m, "severity"), Some("MEDIUM"));
    var title, evidence := Text(Lookup(m, "title"), Some("")), Text(Lookup(m, "evidence"), Some(""));
    var jobId, jobType := Text(Field(m, "jobId", "job_id"), Some("")), Text(Field(m, "jobType", "job_type"), Some(""));
    if typ.Some? && severity.Some? && title.Some? && jobId.Some? && jobType.Some? && evidence.Some?
    then Some(IncidentFields(typ.value, severity.value, title.value, jobId.value, jobType.value, evidence.value))
    else None
  }

  function ValidatePlan(m: seq<Member>): Option<PlanFields> {
    var strategy, action := Text(Lookup(m, "strategy"), Some("")), Text(Lookup(m, "action"), Some(""));
    var dryRun := Flag(Field(m, "dryRun", "dry_run"));
    var steps, checks := TextList(Lookup(m, "steps")), TextList(Field(m, "verificationChecks", "verification_checks"));
    if strategy.Some? && action.Some? && dryRun.Some? && steps.Some? && checks.Some?
    then Some(PlanFields(strategy.value, action.value, dryRun.value, steps.value, checks.value))
    else None
  }

  function Validate(v: Value): Option<Output> {
    if !v.Object? then None
    else
      var incident, plan := Lookup(v.members, "incident"), Lookup(v.members, "plan");
      if incident.None? || !incident.value.Object? || plan.None? || !plan.value.Object? then None
      else
        var i, p := ValidateIncident(incident.value.members), ValidatePlan(plan.value.members);
        if i.Some? && p.Some? then Some(Output(i.value, p.value)) else None
  }

  // ----- lines

  const LINE_BREAKS :=
    {'\n', '\r', '\U{b}', '\U{c}', '\U{1c}', '\U{1d}', '\U{1e}', '\U{85}', '\U{2028}', '\U{2029}'}

  /** Blanks of `str.strip`. */
  predicate Space(c: char) {
    || '\t' <= c <= '\r' || '\U{1c}' <= c <= ' ' || c in {'\U{85}', '\U{a0}', '\U{1680}'}
    || '\U{2000}' <= c <= '\U{200a}' || c in {'\U{2028}', '\U{2029}', '\U{202f}', '\U{205f}', '\U{3000}'}
  }

  function StripLeft(s: string): (t: string)
    ensures s != "" && !Space(s[0]) ==> t == s
  {
    if s != "" && Space(s[0]) then StripLeft(s[1..]) else s
  }

  function StripRight(s: string): (t: string)
    ensures t <= s
    ensures s != "" && !Space(s[|s| - 1]) ==> t == s
    ensures s != "" && !Space(s[0]) ==> t != ""
  {
    if s != "" && Space(s[|s| - 1]) then StripRight(s[..|s| - 1]) else s
  }

  function Strip(s: string): string { StripRight(StripLeft(s)) }

  function BreakAt(s: string): (n: nat)
    ensures n <= |s|
    ensures forall i :: 0 <= i < n ==> s[i] !in LINE_BREAKS
    ensures n < |s| ==> s[n] in LINE_BREAKS
  {
    if s == "" || s[0] in LINE_BREAKS then 0 else 1 + BreakAt(s[1..])
  }

  function SplitLines(s: string): seq<string> {
    if s == "" then []
    else
      var n := BreakAt(s);
      if n == |s| then [s]
      else [s[..n]] + SplitLines(s[if s[n] == '\r' && n + 1 < |s| && s[n + 1] == '\n' then n + 2 else n + 1..])
  }

  lemma SplitFirst(text: string, n: nat)
    requires n == BreakAt(text) < |text| && text[n] != '\r'
    ensures SplitLines(text) == [text[..n]] + SplitLines(text[n + 1..])
  {
  }

  function ParseLine(line: string): Option<Output> {
    var text := Strip(line);
    if !("{" <= text) then None
    else
      var data := Loads(text);
      if data.None? then None else Validate(data.value)
  }

  function Accepted(lines: seq<string>): seq<Output> {
    if lines == [] then []
    else
      var last := ParseLine(lines[|lines| - 1]);
      Accepted(lines[..|lines| - 1]) + (if last.Some? then [last.value] else [])
  }

  method ParseAll(stdout: string) returns (results: seq<Output>)
    ensures results == Accepted(SplitLines(stdout))
  {
    results := [];
    var lines := SplitLines(stdout);
    for i := 0 to |lines|
      invariant results == Accepted(lines[..i])
    {
      assert lines[..i + 1][..i] == lines[..i];
      var parsed := ParseLine(lines[i]);
      if parsed.Some? {
        results := results + [parsed.value];
      }
    }
    assert lines[..|lines|] == lines;
  }

  lemma {:induction false} AcceptedPrefix(lines: seq<string>, n: nat)
    requires n <= |lines|
    ensures Accepted(lines[..n]) <= Accepted(lines)
  {
    if n < |lines| {
      var k := |lines| - 1;
      AcceptedPrefix(lines[..k], n);
      assert lines[..k][..n] == lines[..n];
      assert Accepted(lines[..k]) <= Accepted(lines);
    } else {
      assert lines[..n] == lines;
    }
  }

  /** The first line that parses, if any does. */
  method ParseStdout(stdout: string) returns (result: Option<Output>)
    ensures var all := Accepted(SplitLines(stdout));
            result == if all == [] then None else Some(all[0])
  {
    var lines := SplitLines(stdout);
    for i := 0 to |lines|
      invariant Accepted(lines[..i]) == []
    {
      assert lines[..i + 1][..i] == lines[..i];
      var parsed := ParseLine(lines[i]);
      if parsed.Some? {
        AcceptedPrefix(lines, i + 1);
        return parsed;
      }
    }
    assert lines[..|lines|] == lines;
    return None;
  }

  // ----- what the printer's line means to the reader

  function Line(incident: Incident, plan: HealingPlan): string { Render(Document(incident, plan)) }

  /** The reader's copy of what was printed. */
  function Printed(incident: Incident, plan: HealingPlan): Output {
    Output(IncidentFields(TypeName(incident.typ), SeverityName(incident.severity), incident.title, incident.jobId,
                          incident.jobType, incident.evidence),
           PlanFields(plan.strategyName, plan.action, plan.dryRun, plan.steps, plan.verificationChecks))
  }

  ghost predicate DistinctKeys(members: seq<Member>) {
    forall i, k :: 0 <= i < k < |members| ==> members[i].key != members[k].key
  }

  lemma {:induction false} LookupUnique(members: seq<Member>, i: nat)
    requires DistinctKeys(members) && i < |members|
    ensures Lookup(members, members[i].key) == Some(members[i].value)
  {
    var n := |members| - 1;
    if i == n {
    } else {
      LookupUnique(members[..n], i);
      assert members[..n][i] == members[i];
    }
  }

  lemma IncidentKeys(incident: Incident)
    ensures DistinctKeys(IncidentMembers(incident))
  {
    assert "title"[0] == 't' && "jobId"[0] == 'j' && "severity"[0] == 's' && "evidence"[0] == 'e';
    assert |"type"| == 4 && |"jobType"| == 7;
  }

  lemma PlanKeys(plan: HealingPlan)
    ensures DistinctKeys(PlanMembers(plan))
  {
    assert "action"[0] == 'a' && "dryRun"[0] == 'd';
    assert |"strategy"| == 8 && |"steps"| == 5 && |"verificationChecks"| == 18;
  }

  lemma {:induction false} TextsOfStrings(values: seq<string>)
    ensures Texts(Strings(values)) == Some(values)
  {
    if values == [] {
    } else {
      TextsOfStrings(values[1..]);
      assert Strings(values)[1..] == Strings(values[1..]);
      assert [values[0]] + values[1..] == values;
    }
  }

  lemma IncidentValidates(incident: Incident, plan: HealingPlan)
    ensures ValidateIncident(IncidentMembers(incident)) == Some(Printed(incident, plan).incident)
  {
    var m := IncidentMembers(incident);
    IncidentKeys(incident);
    LookupUnique(m, 0);
    LookupUnique(m, 1);
    LookupUnique(m, 2);
    LookupUnique(m, 3);
    LookupUnique(m, 4);
    LookupUnique(m, 5);
  }

  lemma PlanValidates(incident: Incident, plan: HealingPlan)
    ensures ValidatePlan(PlanMembers(plan)) == Some(Printed(incident, plan).plan)
  {
    var m := PlanMembers(plan);
    PlanKeys(plan);
    LookupUnique(m, 0);
    LookupUnique(m, 1);
    LookupUnique(m, 2);
    LookupUnique(m, 3);
    LookupUnique(m, 4);
    TextsOfStrings(plan.steps);
    TextsOfStrings(plan.verificationChecks);
  }

  lemma DocumentValidates(incident: Incident, plan: HealingPlan)
    ensures Validate(Document(incident, plan)) == Some(Printed(incident, plan))
  {
    var members := Document(incident, plan).members;
    assert |"incident"| == 8 && |"plan"| == 4;
    assert DistinctKeys(members);
    LookupUnique(members, 0);
    LookupUnique(members, 1);
    IncidentValidates(incident, plan);
    PlanValidates(incident, plan);
  }

  // ----- documents of other writers

  lemma OneMember(m: Member, key: string)
    ensures Lookup([m], key) == if m.key == key then Some(m.value) else None
  {
    assert Lookup([m][..0], key) == None;
  }

  /** What is missing has its default; only the type of the incident must be there. */
  lemma DefaultsApply(typ: string)
    ensures ValidateIncident([Member("type", Str(typ))]) == Some(IncidentFields(typ, "MEDIUM", "", "", "", ""))
    ensures ValidatePlan([]) == Some(PlanFields("", "", true, [], []))
    ensures ValidateIncident([]) == None
  {
    var m := Member("type", Str(typ));
    assert "type"[0] == 't' && "title"[0] == 't' && |"type"| == 4 && |"title"| == 5 && |"severity"| == 8;
    OneMember(m, "type");
    OneMember(m, "severity");
    OneMember(m, "title");
    OneMember(m, "evidence");
    OneMember(m, "jobId");
    OneMember(m, "job_id");
    OneMember(m, "jobType");
    OneMember(m, "job_type");
  }

  lemma ThreeMembers(m: seq<Member>, key: string)
    requires |m| == 3
    ensures Lookup(m, key) == if m[2].key == key then Some(m[2].value) else if m[1].key == key then Some(m[1].value)
                              else if m[0].key == key then Some(m[0].value) else None
  {
    assert m[..2][..1] == m[..1] && m[..1] == [m[0]];
    OneMember(m[0], key);
  }

  /** Job and type are also accepted under their own names. */
  lemma JobUnderOwnNames(typ: string, jobId: string, jobType: string)
    ensures ValidateIncident([Member("type", Str(typ)), Member("job_id", Str(jobId)), Member("job_type", Str(jobType))])
            == Some(IncidentFields(typ, "MEDIUM", "", jobId, jobType, ""))
  {
    var m := [Member("type", Str(typ)), Member("job_id", Str(jobId)), Member("job_type", Str(jobType))];
    ThreeMembers(m, "type");
    ThreeMembers(m, "severity");
    ThreeMembers(m, "title");
    ThreeMembers(m, "evidence");
    ThreeMembers(m, "jobId");
    ThreeMembers(m, "job_id");
    ThreeMembers(m, "jobType");
    ThreeMembers(m, "job_type");
    assert |"type"| == 4 && |"job_id"| == 6 && |"job_type"| == 8 && |"severity"| == 8 && |"evidence"| == 8;
    assert "job_type"[0] == 'j' && "severity"[0] == 's' && "evidence"[0] == 'e';
    assert |"title"| == 5 && |"jobId"| == 5 && |"jobType"| == 7;
  }

  /** So are the flag and the checks of a plan. */
  lemma PlanUnderOwnNames(action: string, dryRun: bool, checks: seq<string>)
    ensures ValidatePlan([Member("action", Str(action)), Member("dry_run", Bool(dryRun)),
                          Member("verification_checks", Array(Strings(checks)))])
            == Some(PlanFields("", action, dryRun, [], checks))
  {
    var m := [Member("action", Str(action)), Member("dry_run", Bool(dryRun)),
              Member("verification_checks", Array(Strings(checks)))];
    TextsOfStrings(checks);
    ThreeMembers(m, "strategy");
    ThreeMembers(m, "action");
    ThreeMembers(m, "dryRun");
    ThreeMembers(m, "dry_run");
    ThreeMembers(m, "steps");
    ThreeMembers(m, "verificationChecks");
    ThreeMembers(m, "verification_checks");
    assert |"action"| == 6 && |"dry_run"| == 7 && |"verification_checks"| == 19 && |"strategy"| == 8;
    assert |"dryRun"| == 6 && "dryRun"[0] == 'd' && "action"[0] == 'a' && |"steps"| == 5;
    assert |"verificationChecks"| == 18;
  }
}
