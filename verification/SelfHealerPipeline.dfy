/** From an incident in the log to a request: the self-healer's program, its printed line, and the agent together. */
module SelfHealerPipeline {
  import opened Jobs
  import opened JsonWriter
  import opened SelfHealerClient
  import opened SelfHealerRoundTrip
  import Healing

  /** The action that the self-healer's strategies plan for an incident type. */
  function StrategyAction(typ: IncidentType): string {
    match typ
    case WatcherGap => "RECOVER_MISSED_SCHEDULE_WINDOWS"
    case RateLimitedJob => "WAIT_FOR_RETRY_WINDOW"
    case CircuitOpen => "PAUSE_AND_ESCALATE_JOB_TYPE"
    case JobExecutionFailed => "VERIFY_RETRY_OR_FINAL_STATE"
    case RedisDispatchAnomaly => "RECONCILE_REDIS_DELAY_QUEUE"
    case Unknown => "ALERT_OPERATOR"
  }

  /** The output as the agent's later stages know it. */
  function Reported(output: Output): Healing.HealerOutput {
    Healing.HealerOutput(
      Healing.HealerIncident(output.incident.typ, output.incident.severity, output.incident.jobId,
                             output.incident.evidence),
      Healing.HealerPlan(output.plan.strategy, output.plan.action))
  }

  /** What the agent is told about the evidence of an incident: the first output on the program's standard output. */
  function FirstReport(outputs: seq<Output>): Option<Healing.HealerOutput> {
    if outputs == [] then None else Some(Reported(outputs[0]))
  }

  predicate Licensed(settings: Healing.Settings, confidence: real) {
    !settings.dryRun && settings.autoExecute && settings.minConfidence <= confidence
  }

  /** The names that are upper case already. */
  predicate KeepsNames(settings: Healing.Settings) {
    && (forall typ :: settings.upper(TypeName(typ)) == TypeName(typ))
    && (forall severity :: settings.upper(SeverityName(severity)) == SeverityName(severity))
  }

  lemma StreamOfOne(incident: Incident, plan: HealingPlan)
    requires Portable(incident, plan)
    ensures Accepted(SplitLines(Stream([Line(incident, plan)]))) == [Printed(incident, plan)]
  {
    var items := [Item(incident, plan)];
    StreamRoundTrip(items);
    assert items[1..] == [] && PrintedPortable(items[1..]) == [] && LinesOf(items[1..]) == [];
    assert LinesOf(items) == [Line(incident, plan)];
    assert PrintedPortable(items) == [Printed(incident, plan)];
  }

  lemma ActionNumbers(typ: IncidentType)
    ensures Healing.ByAction(StrategyAction(typ)) ==
            match typ
            case WatcherGap => 0.95
            case RedisDispatchAnomaly => 0.9
            case RateLimitedJob => 0.85
            case CircuitOpen => 0.8
            case JobExecutionFailed => 0.75
            case Unknown => 0.5
  {
  }

  lemma SeverityNumbers(severity: Severity)
    ensures Healing.BySeverity(SeverityName(severity)) ==
            match severity
            case Critical => 0.9
            case High => 0.85
            case Medium => 0.8
            case Low => 0.7
  {
  }

  /** What the decision is for the actions of the strategies. */
  lemma DecisionByType(typ: IncidentType, jobId: Option<string>, confidence: real, settings: Healing.Settings,
                       succeeded: bool)
    ensures Healing.Decision(StrategyAction(typ), jobId, confidence, settings, succeeded) ==
            match typ
            case WatcherGap =>
              (if Licensed(settings, confidence) then Some(Healing.PostRecover) else None,
               Licensed(settings, confidence) && !succeeded)
            case RedisDispatchAnomaly =>
              (if Licensed(settings, confidence) then Some(Healing.PostReconcile) else None,
               Licensed(settings, confidence) && !succeeded)
            case JobExecutionFailed =>
              (if !settings.dryRun && jobId.Some? then Some(Healing.GetJob(jobId.value)) else None, false)
            case RateLimitedJob => (None, false)
            case CircuitOpen => (None, true)
            case Unknown => (None, true)
  {
  }

  /** The incident that the log detector saw, planned for by its strategy, printed, read back and put through the
      agent: the request and the escalation follow from its type, its job and the settings. */
  lemma TypeToRequest(incident: Incident, plan: HealingPlan, trigger: Healing.Incident,
                      answer: Option<Healing.LlmAnswer>, settings: Healing.Settings, succeeded: bool)
    requires Portable(incident, plan) && plan.action == StrategyAction(incident.typ)
    requires trigger.selfHealer.None? && trigger.plan.None? && trigger.evidence != "" && KeepsNames(settings)
    ensures var found := FirstReport(Accepted(SplitLines(Stream([Line(incident, plan)]))));
            var out := Healing.Process(trigger, found, answer, settings, succeeded);
            match incident.typ
            case WatcherGap =>
              && out.call == (if Licensed(settings, 0.95) then Some(Healing.PostRecover) else None)
              && out.escalated == (Licensed(settings, 0.95) && !succeeded)
            case RedisDispatchAnomaly =>
              && out.call == (if Licensed(settings, 0.9) then Some(Healing.PostReconcile) else None)
              && out.escalated == (Licensed(settings, 0.9) && !succeeded)
            case JobExecutionFailed =>
              && out.call == (if !settings.dryRun && incident.jobId != "" then Some(Healing.GetJob(incident.jobId))
                              else None)
              && !out.escalated
            case RateLimitedJob => out.call == None && !out.escalated
            case CircuitOpen => out.call == None && out.escalated
            case Unknown => out.call == None && out.escalated
  {
    StreamOfOne(incident, plan);
    var output := Reported(Printed(incident, plan));
    Healing.OutputDecides(trigger, Some(output), answer, settings, succeeded);
    var out := Healing.Process(trigger, Some(output), answer, settings, succeeded);
    ActionNumbers(incident.typ);
    SeverityNumbers(incident.severity);
    DecisionByType(incident.typ, Healing.NonEmpty(incident.jobId), out.plan.confidence, settings, succeeded);
  }

  /** The confidence is that of the action or of the severity, whichever is greater. */
  lemma SeverityToConfidence(incident: Incident, plan: HealingPlan, trigger: Healing.Incident,
                             answer: Option<Healing.LlmAnswer>, settings: Healing.Settings, succeeded: bool)
    requires Portable(incident, plan) && plan.action == StrategyAction(incident.typ)
    requires trigger.selfHealer.None? && trigger.plan.None? && trigger.evidence != "" && KeepsNames(settings)
    ensures var found := FirstReport(Accepted(SplitLines(Stream([Line(incident, plan)]))));
            var byAction := Healing.ByAction(StrategyAction(incident.typ));
            var bySeverity := Healing.BySeverity(SeverityName(incident.severity));
            Healing.Process(trigger, found, answer, settings, succeeded).plan.confidence ==
            if byAction < bySeverity then bySeverity else byAction
  {
    StreamOfOne(incident, plan);
    var output := Reported(Printed(incident, plan));
    Healing.OutputDecides(trigger, Some(output), answer, settings, succeeded);
  }

  /** Without the program the agent's own rules choose the same action for each of the program's type names. */
  lemma RulesAgreeWithStrategies(typ: IncidentType, incident: Healing.Incident, settings: Healing.Settings,
                                 succeeded: bool)
    requires incident.typ == TypeName(typ) && incident.selfHealer.None? && KeepsNames(settings)
    ensures Healing.Process(incident, None, None, settings, succeeded).plan.action == StrategyAction(typ)
  {
    Healing.TypeDecides(incident, None, None, settings, succeeded);
  }
}
