/** The self-healing pipeline: enrich, analyze, plan, execute; and what it can do to the job queue. */
module Healing {
  import opened Jobs
  import opened Protocol
  import opened Ownership
  import Admin
  import Watcher

  // ----- incidents and plans

  datatype HealerIncident = HealerIncident(typ: string, severity: string, jobId: string, evidence: string)

  datatype HealerPlan = HealerPlan(strategy: string, action: string)

  datatype HealerOutput = HealerOutput(incident: HealerIncident, plan: HealerPlan)

  datatype Incident = Incident(typ: string, severity: string, jobId: Option<string>, evidence: string,
                               plan: Option<HealerPlan>, selfHealer: Option<HealerOutput>)

  /** What the language model answered. */
  datatype LlmAnswer = LlmAnswer(action: string, confidence: real)

  datatype Analysis = Analysis(action: string, confidence: real, usedLlm: bool)

  datatype PlannedAction = PlannedAction(action: string, endpoint: Option<string>, jobId: Option<string>,
                                         autoExecute: bool, confidence: real)

  /** The agent's settings, and the upper-casing of strings, which is left arbitrary. */
  datatype Settings = Settings(autoExecute: bool, dryRun: bool, minConfidence: real, upper: string -> string)

  const RECOVER := "RECOVER_MISSED_SCHEDULE_WINDOWS"
  const RECONCILE := "RECONCILE_REDIS_DELAY_QUEUE"
  const WAIT := "WAIT_FOR_RETRY_WINDOW"
  const PAUSE := "PAUSE_AND_ESCALATE_JOB_TYPE"
  const VERIFY := "VERIFY_RETRY_OR_FINAL_STATE"
  const ALERT := "ALERT_OPERATOR"

  const RECOVER_ENDPOINT := "/admin/watcher/recover"
  const RECONCILE_ENDPOINT := "/admin/redis/reconcile"

  // ----- the policy table

  datatype Policy = Policy(endpoint: Option<string>, autoExecute: bool, confidence: real)

  function PolicyOf(action: string): Policy {
    if action == RECOVER then Policy(Some(RECOVER_ENDPOINT), true, 0.95)
    else if action == RECONCILE then Policy(Some(RECONCILE_ENDPOINT), true, 0.9)
    else if action == WAIT then Policy(None, false, 0.85)
    else if action == PAUSE then Policy(None, false, 0.8)
    else if action == VERIFY then Policy(None, false, 0.75)
    else Policy(None, false, 0.5)
  }

  function SeverityConfidence(severity: string): real {
    if severity == "CRITICAL" then 0.9
    else if severity == "HIGH" then 0.85
    else if severity == "MEDIUM" then 0.8
    else 0.7
  }

  function FallbackAction(typ: string): string {
    if typ == "WATCHER_GAP" then RECOVER
    else if typ == "REDIS_DISPATCH_ANOMALY" then RECONCILE
    else if typ == "RATE_LIMITED_JOB" then WAIT
    else if typ == "CIRCUIT_OPEN" then PAUSE
    else if typ == "JOB_EXECUTION_FAILED" then VERIFY
    else ALERT
  }

  function NonEmpty(s: string): Option<string> { if s == "" then None else Some(s) }

  /** An id that is present and not empty. */
  function Given(id: Option<string>): Option<string> { if id.Some? then NonEmpty(id.value) else None }

  // ----- enrich and analyze

  /** `found` is what the self-healer binary reported for the evidence, if it is available and reported anything. */
  function Enrich(incident: Incident, found: Option<HealerOutput>): Incident {
    if incident.selfHealer.Some? || incident.plan.Some? || incident.evidence == "" || found.None? then incident
    else
      var seen := found.value.incident;
      Incident(seen.typ, seen.severity, NonEmpty(seen.jobId), seen.evidence, Some(found.value.plan), found)
  }

  function Max(a: real, b: real): real { if a >= b then a else b }

  /** `answer` is None when no model is configured or its call failed; an answer whose confidence is out of
      range fails validation, and the rules take over. */
  function Analyze(incident: Incident, answer: Option<LlmAnswer>, settings: Settings): Analysis {
    if incident.selfHealer.Some? then
      var output := incident.selfHealer.value;
      Analysis(output.plan.action,
               Max(PolicyOf(output.plan.action).confidence,
                   SeverityConfidence(settings.upper(output.incident.severity))), false)
    else if answer.Some? && 0.0 <= answer.value.confidence <= 1.0 then
      Analysis(answer.value.action, answer.value.confidence, true)
    else
      var action := FallbackAction(settings.upper(incident.typ));
      Analysis(action, PolicyOf(action).confidence, false)
  }

  // ----- plan

  function PlanByPolicy(action: string, jobId: Option<string>, confidence: real): PlannedAction {
    var policy := PolicyOf(action);
    PlannedAction(action, policy.endpoint, if action == VERIFY then jobId else None, policy.autoExecute, confidence)
  }

  /** The planner: sets up the action, lets the model override it, then withdraws automatic execution. */
  method Plan(incident: Incident, analysis: Analysis, settings: Settings) returns (planned: PlannedAction)
    ensures planned == PlanOf(incident, analysis, settings)
  {
    if incident.selfHealer.Some? {
      var output := incident.selfHealer.value;
      planned := PlanByPolicy(output.plan.action, NonEmpty(output.incident.jobId), analysis.confidence);
    } else {
      planned := PlanByPolicy(analysis.action, Given(incident.jobId), analysis.confidence);
    }
    if analysis.usedLlm {
      var action := settings.upper(analysis.action);
      var policy := PolicyOf(action);
      planned := planned.(action := action, confidence := analysis.confidence,
                          endpoint := policy.endpoint, autoExecute := policy.autoExecute);
      if action == VERIFY && Given(incident.jobId).Some? {
        planned := planned.(jobId := incident.jobId);
      }
    }
    if !settings.autoExecute {
      planned := planned.(autoExecute := false);
    }
    if planned.confidence < settings.minConfidence {
      planned := planned.(autoExecute := false);
    }
  }

  /** The action the pipeline settles on. */
  function ActionOf(incident: Incident, analysis: Analysis, settings: Settings): string {
    if analysis.usedLlm then settings.upper(analysis.action)
    else if incident.selfHealer.Some? then incident.selfHealer.value.plan.action
    else analysis.action
  }

  function JobIdOf(incident: Incident, analysis: Analysis, settings: Settings): Option<string> {
    var known :=
      if incident.selfHealer.Some? then NonEmpty(incident.selfHealer.value.incident.jobId) else Given(incident.jobId);
    var first := if incident.selfHealer.Some? then incident.selfHealer.value.plan.action else analysis.action;
    if analysis.usedLlm && settings.upper(analysis.action) == VERIFY && Given(incident.jobId).Some? then incident.jobId
    else if first == VERIFY then known
    else None
  }

  function PlanOf(incident: Incident, analysis: Analysis, settings: Settings): PlannedAction {
    var action := ActionOf(incident, analysis, settings);
    PlannedAction(action, PolicyOf(action).endpoint, JobIdOf(incident, analysis, settings),
                  PolicyOf(action).autoExecute && settings.autoExecute && settings.minConfidence <= analysis.confidence,
                  analysis.confidence)
  }

  // ----- execute

  /** A request to the job queue's API. */
  datatype Call =
    | PostRecover
    | PostReconcile
    | PostRequeue(id: string)
    | PostReset(typ: string)
    | GetJob(id: string)

  predicate Mutates(call: Option<Call>) { call.Some? && !call.value.GetJob? }

  predicate EndsWith(s: string, suffix: string) { |suffix| <= |s| && s[|s| - |suffix|..] == suffix }

  /** The path segment after the third slash of an endpoint. */
  function Segment(endpoint: string, slashes: nat): string {
    if endpoint == "" then ""
    else if endpoint[0] == '/' then (if slashes == 3 then "" else Segment(endpoint[1..], slashes + 1))
    else if slashes == 3 then [endpoint[0]] + Segment(endpoint[1..], slashes)
    else Segment(endpoint[1..], slashes)
  }

  /** The request an endpoint stands for; None when the executor raises "Unknown endpoint". */
  function CallFor(endpoint: string, jobId: Option<string>): Option<Call> {
    if endpoint == RECOVER_ENDPOINT then Some(PostRecover)
    else if endpoint == RECONCILE_ENDPOINT then Some(PostReconcile)
    else if "/admin/jobs/" <= endpoint && EndsWith(endpoint, "/requeue") then
      Some(PostRequeue(if Given(jobId).Some? then jobId.value else Segment(endpoint, 0)))
    else if "/admin/circuit/" <= endpoint && EndsWith(endpoint, "/reset") then
      Some(PostReset(Segment(endpoint, 0)))
    else None
  }

  datatype Execution = NoRequest | Request(call: Call) | UnknownEndpoint {
    function Made(): Option<Call> { if Request? then Some(call) else None }

    /** `answered` is what the job queue's API reported, if a request was made. */
    predicate Success(answered: bool) { NoRequest? || (Request? && answered) }
  }

  /** The executor, for any plan whatever: which request it makes. */
  function Execute(plan: PlannedAction, settings: Settings): Execution {
    if settings.dryRun then NoRequest
    else if plan.action == VERIFY then
      (if Given(plan.jobId).Some? then Request(GetJob(plan.jobId.value)) else NoRequest)
    else if plan.action in {WAIT, PAUSE, ALERT} then NoRequest
    else if !plan.autoExecute || plan.endpoint.None? then NoRequest
    else
      var call := CallFor(plan.endpoint.value, plan.jobId);
      if call.Some? then Request(call.value) else UnknownEndpoint
  }

  /** One incident through the pipeline; `succeeded` is what the request made came back with. */
  datatype Outcome = Outcome(plan: PlannedAction, call: Option<Call>, escalated: bool)

  function Process(incident: Incident, found: Option<HealerOutput>, answer: Option<LlmAnswer>, settings: Settings,
                   succeeded: bool): Outcome {
    var enriched := Enrich(incident, found);
    var analysis := Analyze(enriched, answer, settings);
    var plan := PlanOf(enriched, analysis, settings);
    var execution := Execute(plan, settings);
    Outcome(plan, execution.Made(),
            if plan.autoExecute && plan.endpoint.Some? then !execution.Success(succeeded)
            else plan.action in {ALERT, PAUSE})
  }

  // ----- what the pipeline can and cannot do

  /** For every incident, model answer and settings: the only requests that change the job queue are watcher recovery
      and Redis reconciliation, and each is made exactly when its action was settled on, dry run is off, automatic
      execution is on and the confidence meets the threshold. Requeue and circuit reset are out of reach. */
  lemma OnlySafeCalls(incident: Incident, found: Option<HealerOutput>, answer: Option<LlmAnswer>, settings: Settings,
                      succeeded: bool)
    ensures var out := Process(incident, found, answer, settings, succeeded);
            var licensed := !settings.dryRun && settings.autoExecute && settings.minConfidence <= out.plan.confidence;
            && (out.call == Some(PostRecover) <==> licensed && out.plan.action == RECOVER)
            && (out.call == Some(PostReconcile) <==> licensed && out.plan.action == RECONCILE)
            && (Mutates(out.call) ==> out.call.value in {PostRecover, PostReconcile})
  {
  }

  /** When someone is called: an action of the operator kind always escalates, a recovery escalates exactly when its
      request was made and failed, and nothing else does. */
  lemma EscalationIff(incident: Incident, found: Option<HealerOutput>, answer: Option<LlmAnswer>, settings: Settings,
                      succeeded: bool)
    ensures var out := Process(incident, found, answer, settings, succeeded);
            out.escalated <==> out.plan.action in {ALERT, PAUSE} || (Mutates(out.call) && !succeeded)
  {
  }

  const KNOWN_ACTIONS := {RECOVER, RECONCILE, WAIT, PAUSE, VERIFY, ALERT}

  /** Exactly when an incident leads to no request and calls no one. */
  lemma SilenceIff(incident: Incident, found: Option<HealerOutput>, answer: Option<LlmAnswer>, settings: Settings,
                   succeeded: bool)
    ensures var out := Process(incident, found, answer, settings, succeeded);
            var licensed := !settings.dryRun && settings.autoExecute && settings.minConfidence <= out.plan.confidence;
            out.call.None? && !out.escalated <==>
            || out.plan.action !in KNOWN_ACTIONS
            || out.plan.action == WAIT
            || (out.plan.action == VERIFY && (settings.dryRun || Given(out.plan.jobId).None?))
            || (out.plan.action in {RECOVER, RECONCILE} && !licensed)
  {
  }

  /** The model answered, and its confidence passes validation. */
  predicate Usable(answer: Option<LlmAnswer>) { answer.Some? && 0.0 <= answer.value.confidence <= 1.0 }

  /** An action outside the policy table gets the operator's policy but not the operator: no request, no escalation.
      Such an action is settled on exactly when the self-healer planned one, or else the model invented one. */
  lemma UnknownActionIsDropped(incident: Incident, found: Option<HealerOutput>, answer: Option<LlmAnswer>,
                               settings: Settings, succeeded: bool)
    ensures var enriched := Enrich(incident, found);
            var out := Process(incident, found, answer, settings, succeeded);
            var unknown := if enriched.selfHealer.Some? then enriched.selfHealer.value.plan.action !in KNOWN_ACTIONS
                           else Usable(answer) && settings.upper(answer.value.action) !in KNOWN_ACTIONS;
            && (out.plan.action !in KNOWN_ACTIONS <==> unknown)
            && (unknown ==> out.call.None? && !out.escalated && out.plan.endpoint == PolicyOf(ALERT).endpoint)
  {
  }

  /** An open circuit calls someone by the rules alone; with an invented answer of the model no one hears of it. */
  lemma InventedActionSilences(succeeded: bool)
    ensures var incident := Incident("CIRCUIT_OPEN", "HIGH", None, "", None, None);
            var settings := Settings(true, false, 0.7, s => s);
            var invented := Some(LlmAnswer("RESTART_BROKER", 0.9));
            && Process(incident, None, None, settings, succeeded).escalated
            && !Process(incident, None, invented, settings, succeeded).escalated
            && Process(incident, None, invented, settings, succeeded).call.None?
  {
  }

  // ----- from the incident to the request

  /** What comes of an action, in the words and numbers of the policy: the request, and whether someone is called. */
  function Decision(action: string, jobId: Option<string>, confidence: real, settings: Settings, succeeded: bool)
    : (Option<Call>, bool)
  {
    var licensed := !settings.dryRun && settings.autoExecute && settings.minConfidence <= confidence;
    if action == "RECOVER_MISSED_SCHEDULE_WINDOWS" then
      (if licensed then Some(PostRecover) else None, licensed && !succeeded)
    else if action == "RECONCILE_REDIS_DELAY_QUEUE" then
      (if licensed then Some(PostReconcile) else None, licensed && !succeeded)
    else if action == "VERIFY_RETRY_OR_FINAL_STATE" then
      (if !settings.dryRun && jobId.Some? then Some(GetJob(jobId.value)) else None, false)
    else
      (None, action in {"PAUSE_AND_ESCALATE_JOB_TYPE", "ALERT_OPERATOR"})
  }

  /** The self-healer's output that decides about an incident: one that came with it, or else what the binary finds in
      the evidence of an incident without a plan. */
  function Guide(incident: Incident, found: Option<HealerOutput>): Option<HealerOutput> {
    if incident.selfHealer.Some? then incident.selfHealer
    else if incident.plan.None? && incident.evidence != "" then found
    else None
  }

  lemma GuideEnriches(incident: Incident, found: Option<HealerOutput>)
    ensures Enrich(incident, found).selfHealer == Guide(incident, found)
    ensures Guide(incident, found).None? ==> Enrich(incident, found) == incident
  {
  }

  /** The confidence that the policy has in an action. */
  function ByAction(action: string): real {
    if action == "RECOVER_MISSED_SCHEDULE_WINDOWS" then 0.95
    else if action == "RECONCILE_REDIS_DELAY_QUEUE" then 0.9
    else if action == "WAIT_FOR_RETRY_WINDOW" then 0.85
    else if action == "PAUSE_AND_ESCALATE_JOB_TYPE" then 0.8
    else if action == "VERIFY_RETRY_OR_FINAL_STATE" then 0.75
    else 0.5
  }

  function BySeverity(severity: string): real {
    if severity == "CRITICAL" then 0.9
    else if severity == "HIGH" then 0.85
    else if severity == "MEDIUM" then 0.8
    else 0.7
  }

  /** With output of the self-healer its action, its job and the greater of the two confidences decide, whatever a
      model would say. */
  lemma OutputDecides(incident: Incident, found: Option<HealerOutput>, answer: Option<LlmAnswer>, settings: Settings,
                      succeeded: bool)
    requires Guide(incident, found).Some?
    ensures var output := Guide(incident, found).value;
            var out := Process(incident, found, answer, settings, succeeded);
            var action := output.plan.action;
            var byAction, bySeverity := ByAction(action), BySeverity(settings.upper(output.incident.severity));
            && out.plan.action == action
            && out.plan.confidence == (if byAction < bySeverity then bySeverity else byAction)
            && (out.call, out.escalated) ==
               Decision(action, NonEmpty(output.incident.jobId), out.plan.confidence, settings, succeeded)
  {
    GuideEnriches(incident, found);
  }

  /** Without it the model's action, upper-cased, with its confidence and the incident's job decide. */
  lemma ModelDecides(incident: Incident, found: Option<HealerOutput>, answer: Option<LlmAnswer>, settings: Settings,
                     succeeded: bool)
    requires Guide(incident, found).None? && answer.Some? && 0.0 <= answer.value.confidence <= 1.0
    ensures var out := Process(incident, found, answer, settings, succeeded);
            var action := settings.upper(answer.value.action);
            && out.plan.action == action && out.plan.confidence == answer.value.confidence
            && (out.call, out.escalated) ==
               Decision(action, Given(incident.jobId), answer.value.confidence, settings, succeeded)
  {
    GuideEnriches(incident, found);
  }

  /** Without either the upper-cased type of the incident decides. */
  lemma TypeDecides(incident: Incident, found: Option<HealerOutput>, answer: Option<LlmAnswer>, settings: Settings,
                    succeeded: bool)
    requires Guide(incident, found).None?
    requires answer.None? || answer.value.confidence < 0.0 || 1.0 < answer.value.confidence
    ensures var out := Process(incident, found, answer, settings, succeeded);
            var typ := settings.upper(incident.typ);
            var action := if typ == "WATCHER_GAP" then "RECOVER_MISSED_SCHEDULE_WINDOWS"
                          else if typ == "REDIS_DISPATCH_ANOMALY" then "RECONCILE_REDIS_DELAY_QUEUE"
                          else if typ == "RATE_LIMITED_JOB" then "WAIT_FOR_RETRY_WINDOW"
                          else if typ == "CIRCUIT_OPEN" then "PAUSE_AND_ESCALATE_JOB_TYPE"
                          else if typ == "JOB_EXECUTION_FAILED" then "VERIFY_RETRY_OR_FINAL_STATE"
                          else "ALERT_OPERATOR";
            && out.plan.action == action && out.plan.confidence == ByAction(action)
            && (out.call, out.escalated) ==
               Decision(action, Given(incident.jobId), ByAction(action), settings, succeeded)
  {
    GuideEnriches(incident, found);
  }

  // ----- the closed loop

  /** `after` extends `before` by what the request makes the job queue do. */
  ghost predicate Effect(call: Call, before: Run, after: Run) {
    match call
    case PostRecover => Watcher.IsRecovery(before, after)
    case PostReconcile => Admin.IsReconcile(before, after)
    case PostRequeue(_) => after.Then? && after.step.Requeue? && after.past == before
    case PostReset(_) => after.Then? && after.step.ResetCircuit? && after.past == before
    case GetJob(_) => after == before
  }

  /** A history of the job queue and the agent together. */
  datatype Loop =
    | Fresh(clock: int)
    | Own(past: Loop, step: Step)          // the job queue takes a step of its own
    | Handled(past: Loop, incident: Incident, found: Option<HealerOutput>, answer: Option<LlmAnswer>,
              settings: Settings, succeeded: bool)  // the pipeline decides about an incident
    | Posted(past: Loop, call: Call, after: Run)    // a request that was decided on reaches the job queue

  /** What the job queue has been through. */
  function RunOf(l: Loop): Run {
    match l
    case Fresh(clock) => Start(Boot(clock))
    case Own(past, step) => Then(RunOf(past), step)
    case Handled(past, _, _, _, _, _) => RunOf(past)
    case Posted(_, _, after) => after
  }

  /** The requests that the pipeline has decided on. */
  function Decided(l: Loop): set<Call> {
    match l
    case Fresh(_) => {}
    case Own(past, _) => Decided(past)
    case Handled(past, incident, found, answer, settings, succeeded) =>
      var call := Process(incident, found, answer, settings, succeeded).call;
      Decided(past) + (if call.Some? then {call.value} else {})
    case Posted(past, _, _) => Decided(past)
  }

  /** The job queue delivers each message once and keeps Redis; requests come late, again and again, or never. */
  ghost predicate Closed(l: Loop) {
    match l
    case Fresh(clock) => 0 <= clock
    case Own(past, step) =>
      Closed(past) && Enabled(State(RunOf(past)), step) && KindOf(step) !in DUPLICATORS + {LosesRedis}
    case Handled(past, _, _, _, _, _) => Closed(past)
    case Posted(past, call, after) =>
      Closed(past) && call in Decided(past) && Valid(after) && Effect(call, RunOf(past), after)
  }

  predicate Harmless(call: Call) { call in {PostRecover, PostReconcile} || call.GetJob? }

  lemma {:induction false} OnlyHarmlessDecided(l: Loop)
    ensures forall call :: call in Decided(l) ==> Harmless(call)
  {
    match l
    case Fresh(_) =>
    case Own(past, _) => OnlyHarmlessDecided(past);
    case Handled(past, incident, found, answer, settings, succeeded) =>
      OnlyHarmlessDecided(past);
      OnlySafeCalls(incident, found, answer, settings, succeeded);
    case Posted(past, _, _) => OnlyHarmlessDecided(past);
  }

  lemma HarmlessEffect(call: Call, before: Run, after: Run)
    requires Booted(before) && Avoids(before, DUPLICATORS + {LosesRedis}) && Valid(after)
    requires Effect(call, before, after) && Harmless(call)
    ensures Booted(after) && Avoids(after, DUPLICATORS + {LosesRedis})
  {
    if !call.GetJob? {
      assert First(after) == First(after.past) == First(before);
    }
  }

  lemma {:induction false} LoopAvoidsDuplicators(l: Loop)
    requires Closed(l)
    ensures Booted(RunOf(l)) && Avoids(RunOf(l), DUPLICATORS + {LosesRedis})
  {
    match l
    case Fresh(clock) =>
    case Own(past, step) =>
      LoopAvoidsDuplicators(past);
      Extend(RunOf(past), step);
    case Handled(past, _, _, _, _, _) => LoopAvoidsDuplicators(past);
    case Posted(past, call, after) =>
      LoopAvoidsDuplicators(past);
      OnlyHarmlessDecided(past);
      HarmlessEffect(call, RunOf(past), after);
  }

  /** In the closed loop of job queue and agent, whatever incidents come, whatever the model answers, however often
      the client posts a request and whenever it arrives between the steps of the queue: every job keeps one owner. */
  lemma HealingKeepsOwnership(l: Loop)
    requires Closed(l)
    ensures SingleOwner(State(RunOf(l)))
  {
    LoopAvoidsDuplicators(l);
    SingleOwnership(RunOf(l));
  }

  // ----- the orchestrator's bounded history

  const MAX_HISTORY: nat := 100

  function LastOf(all: seq<Outcome>, n: nat): seq<Outcome> {
    if |all| <= n then all else all[|all| - n..]
  }

  class AgentOrchestrator {
    var history: seq<Outcome>
    ghost var all: seq<Outcome>

    ghost predicate Valid()
      reads this
    {
      history == LastOf(all, 100)
    }

    constructor ()
      ensures Valid() && all == []
    {
      history, all := [], [];
    }

    /** Runs the pipeline on one incident and keeps the last hundred outcomes, in order. */
    method ProcessIncident(incident: Incident, found: Option<HealerOutput>, answer: Option<LlmAnswer>,
                           settings: Settings, succeeded: bool) returns (out: Outcome)
      requires Valid()
      modifies this
      ensures Valid() && all == old(all) + [out]
      ensures out == Process(incident, found, answer, settings, succeeded)
    {
      var enriched := Enrich(incident, found);
      var analysis := Analyze(enriched, answer, settings);
      var plan := Plan(enriched, analysis, settings);
      var execution := Execute(plan, settings);
      var escalated := false;
      if plan.autoExecute && plan.endpoint.Some? {
        if !execution.Success(succeeded) {
          escalated := true;
        }
      } else {
        if plan.action in {ALERT, PAUSE} {
          escalated := true;
        }
      }
      out := Outcome(plan, execution.Made(), escalated);
      history := history + [out];
      if |history| > MAX_HISTORY {
        history := history[|history| - MAX_HISTORY..];
      }
      all := all + [out];
    }
  }
}
