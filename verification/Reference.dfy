/** The reference policy and the scenario backend (decision.py, tools.py), and the shape they give a workflow. */
module Reference {
  import opened Prelude
  import opened Models
  import opened Policy
  import opened Tools
  import opened Checkpoints

  // ----- the scenario backend -----

  datatype Scenario = Scenario(
    alert: Json, metrics: Json, logs: Json, dependencies: Json, afterRestart: Json, transientFailures: map<Tool, int>)

  /** `readNumber` is what `float` makes of a text; None when it raises. */
  datatype Fixtures = Fixtures(scenarios: map<string, Scenario>, readNumber: string -> Option<real>)

  function RestartResult(service: Json, environment: Json): Json {
    Obj(map["service" := service, "restarted" := Bool(true), "environment" := environment])
  }

  function Prior(tool: Tool, history: seq<Tool>): nat {
    if history == [] then 0
    else Prior(tool, history[..|history| - 1]) + (if history[|history| - 1] == tool then 1 else 0)
  }

  function ToolName(tool: Tool): string {
    match tool
    case ReadAlert => "read_alert"
    case InspectMetrics => "inspect_metrics"
    case QueryLogs => "query_logs"
    case DependencyHealth => "dependency_health"
    case RestartService => "restart_service"
    case DeleteDatabase => "delete_database"
    case VerifyRecovery => "verify_recovery"
  }

  /** `ScenarioBackend.execute` for validated arguments, on the attempt counted in the history. */
  function ScenarioAnswer(fx: Fixtures, s: WorkflowState, tool: Tool, arguments: Arguments): BackendAnswer {
    if s.scenarioId !in fx.scenarios then BackendPermanent("unknown scenario: " + s.scenarioId)
    else
      var scenario := fx.scenarios[s.scenarioId];
      var attempt := Prior(tool, s.toolHistory);
      var transient := if tool in scenario.transientFailures then scenario.transientFailures[tool] else 0;
      if 0 < attempt <= transient then BackendRetryable(ToolName(tool) + " downstream timed out")
      else match tool
        case ReadAlert => Returned(scenario.alert)
        case InspectMetrics => Returned(scenario.metrics)
        case QueryLogs => Returned(scenario.logs)
        case DependencyHealth => Returned(scenario.dependencies)
        case RestartService =>
          if Service in arguments && Environment in arguments then
            Returned(RestartResult(arguments[Service], arguments[Environment]))
          else BackendCrash
        case VerifyRecovery => Returned(if RestartService in s.completedSteps then scenario.afterRestart else scenario.alert)
        case DeleteDatabase => BackendPermanent("blocked tool reached backend")
  }

  lemma {:induction false} PriorIsCount(tool: Tool, history: seq<Tool>)
    ensures Prior(tool, history) == multiset(history)[tool]
  {
    if history != [] {
      var n := |history| - 1;
      PriorIsCount(tool, history[..n]);
      assert history == history[..n] + [history[n]];
    }
  }

  /**
   The backend, tool by tool: it does not know the scenario, it fails as often as the scenario has it for the tool,
   counted over the requests in the history, or it returns the scenario's entry; the verification's depends on a
   finished restart.
   */
  lemma ScenarioIsExact(fx: Fixtures, s: WorkflowState, tool: Tool, arguments: Arguments)
    requires Service in arguments && Environment in arguments
    ensures var answer := ScenarioAnswer(fx, s, tool, arguments);
            if s.scenarioId !in fx.scenarios then answer == BackendPermanent("unknown scenario: " + s.scenarioId)
            else
              var scenario := fx.scenarios[s.scenarioId];
              if tool in scenario.transientFailures && 0 < multiset(s.toolHistory)[tool] <= scenario.transientFailures[tool]
              then answer == BackendRetryable(ToolName(tool) + " downstream timed out")
              else
                && (tool.ReadAlert? ==> answer == Returned(scenario.alert))
                && (tool.InspectMetrics? ==> answer == Returned(scenario.metrics))
                && (tool.QueryLogs? ==> answer == Returned(scenario.logs))
                && (tool.DependencyHealth? ==> answer == Returned(scenario.dependencies))
                && (tool.RestartService? ==>
                      answer == Returned(Obj(map["service" := arguments[Service], "restarted" := Bool(true),
                                                 "environment" := arguments[Environment]])))
                && (tool.VerifyRecovery? && RestartService in s.completedSteps ==> answer == Returned(scenario.afterRestart))
                && (tool.VerifyRecovery? && RestartService !in s.completedSteps ==> answer == Returned(scenario.alert))
                && (tool.DeleteDatabase? ==> answer == BackendPermanent("blocked tool reached backend"))
  {
    hide ToolName;
    PriorIsCount(tool, s.toolHistory);
  }

  // ----- the reference policy -----

  const SERVICE_NAME: string := "checkout-service"

  function Defaults(): AgentToolArguments {
    AgentToolArguments(Some(SERVICE_NAME), Some("production"), None)
  }

  function Use(tool: Tool, rationale: string, diagnosis: Option<string>): Decision {
    AgentDecision(UseTool, rationale, Some(tool), Defaults(), diagnosis, None, None)
  }

  /** `float(rate) < 1.0` for the rate found in the verification; None when the lookup or `float` raises. */
  function Recovered(fx: Fixtures, verification: Json): Option<bool> {
    if !verification.Obj? then None
    else
      var metrics := if "metrics" in verification.fields then verification.fields["metrics"] else verification;
      if !metrics.Obj? then None
      else if "error_rate_percent" !in metrics.fields then Some(false)
      else match metrics.fields["error_rate_percent"]
        case Null => Some(false)
        case Bool(flag) => Some(!flag)
        case Num(rate) => Some(rate < 1.0)
        case Str(text) =>
          (match fx.readNumber(text)
           case None => None
           case Some(rate) => Some(rate < 1.0))
        case Arr(_) => None
        case Obj(_) => None
  }

  /** The error rate shown: that of the "metrics" object, or of the evidence itself where it has none. */
  predicate RateShown(verification: Json, rate: Option<Json>) {
    && verification.Obj?
    && var metrics := if "metrics" in verification.fields then verification.fields["metrics"] else verification;
    && metrics.Obj?
    && rate == if "error_rate_percent" in metrics.fields then Some(metrics.fields["error_rate_percent"]) else None
  }

  /** An error rate below one is shown, as a number, as a text that reads as one, or as False. */
  ghost predicate Healthy(fx: Fixtures, verification: Json) {
    exists rate :: RateShown(verification, Some(rate)) &&
      (|| (rate.Num? && rate.number < 1.0)
       || (rate.Str? && fx.readNumber(rate.text).Some? && fx.readNumber(rate.text).value < 1.0)
       || rate == Bool(false))
  }

  /** No error rate is shown, or one that is not below one. */
  ghost predicate Unhealthy(fx: Fixtures, verification: Json) {
    || RateShown(verification, None)
    || exists rate :: RateShown(verification, Some(rate)) &&
         (|| rate.Null?
          || (rate.Num? && rate.number >= 1.0)
          || (rate.Str? && fx.readNumber(rate.text).Some? && fx.readNumber(rate.text).value >= 1.0)
          || rate == Bool(true))
  }

  /** The verdict on the evidence itself; anything else raises. */
  lemma VerdictIsExact(fx: Fixtures, verification: Json)
    ensures Recovered(fx, verification) == Some(true) <==> Healthy(fx, verification)
    ensures Recovered(fx, verification) == Some(false) <==> Unhealthy(fx, verification)
  {
    if verification.Obj? {
      var metrics := if "metrics" in verification.fields then verification.fields["metrics"] else verification;
      if metrics.Obj? && "error_rate_percent" in metrics.fields {
        assert RateShown(verification, Some(metrics.fields["error_rate_percent"]));
      }
    }
  }

  /** `DeterministicDecisionEngine.decide`, its sentences shortened; None when it raises. */
  function ReferenceDecision(fx: Fixtures, s: WorkflowState): Option<Decision> {
    if ReadAlert !in s.evidence then Some(Use(ReadAlert, "collect evidence", None))
    else if InspectMetrics !in s.evidence then Some(Use(InspectMetrics, "collect evidence", None))
    else if QueryLogs !in s.evidence then Some(Use(QueryLogs, "collect evidence", None))
    else if DependencyHealth !in s.evidence then Some(Use(DependencyHealth, "collect evidence", None))
    else if RestartService !in s.completedSteps then
      Some(Use(RestartService, "restart", Some("pool exhaustion")))
    else if VerifyRecovery !in s.evidence then Some(Use(VerifyRecovery, "verify", None))
    else match Recovered(fx, s.evidence[VerifyRecovery])
      case None => None
      case Some(true) =>
        Some(AgentDecision(Complete, "recovered", None, AgentToolArguments(None, None, None),
                           Some("pool exhaustion"), Some("restarted"),
                           Some("recovered")))
      case Some(false) =>
        Some(AgentDecision(Fail, "not restored", None, AgentToolArguments(None, None, None),
                           Some("upstream failure"), Some("escalate"), None))
  }

  /** A request of the tool for the checkout service in production. */
  predicate AsksFor(d: Option<Decision>, tool: Tool) {
    && d.Some? && d.value.action.UseTool? && d.value.tool == Some(tool)
    && d.value.arguments == AgentToolArguments(Some("checkout-service"), Some("production"), None)
    && d.value.remediation == None && d.value.finalAnswer == None
  }

  /**
   The policy step by step: the first of the four kinds of evidence that is missing is asked for, then the restart,
   then its verification; and then the verdict on the evidence decides, if there is one.
   */
  lemma ReferenceIsExact(fx: Fixtures, s: WorkflowState)
    ensures var d := ReferenceDecision(fx, s);
            if ReadAlert !in s.evidence then AsksFor(d, ReadAlert)
            else if InspectMetrics !in s.evidence then AsksFor(d, InspectMetrics)
            else if QueryLogs !in s.evidence then AsksFor(d, QueryLogs)
            else if DependencyHealth !in s.evidence then AsksFor(d, DependencyHealth)
            else if RestartService !in s.completedSteps then AsksFor(d, RestartService)
            else if VerifyRecovery !in s.evidence then AsksFor(d, VerifyRecovery)
            else
              && (d.Some? && d.value.action.Complete? <==> Healthy(fx, s.evidence[VerifyRecovery]))
              && (d.Some? && d.value.action.Fail? <==> Unhealthy(fx, s.evidence[VerifyRecovery]))
              && (d.Some? ==> !d.value.action.UseTool?)
  {
    hide Recovered, Healthy, Unhealthy;
    if VerifyRecovery in s.evidence {
      VerdictIsExact(fx, s.evidence[VerifyRecovery]);
    }
  }

  // ----- the fixed order of the six tools -----

  /** Position in the order the policy follows; the blocked tool has none. */
  function Rank(tool: Tool): nat {
    match tool
    case ReadAlert => 0
    case InspectMetrics => 1
    case QueryLogs => 2
    case DependencyHealth => 3
    case RestartService => 4
    case VerifyRecovery => 5
    case DeleteDatabase => 6
  }

  function ToolAt(n: nat): (tool: Tool)
    requires n < 6
    ensures Rank(tool) == n
  {
    if n == 0 then ReadAlert
    else if n == 1 then InspectMetrics
    else if n == 2 then QueryLogs
    else if n == 3 then DependencyHealth
    else if n == 4 then RestartService
    else VerifyRecovery
  }

  /** The validated form of the arguments the policy always sends. */
  function SentArguments(tool: Tool): Arguments {
    var common := map[Service := Str(SERVICE_NAME), Environment := Str("production")];
    if tool.DependencyHealth? then common[Dependency := Null] else common
  }

  lemma DefaultsValidate(tool: Tool, rationale: string, diagnosis: Option<string>)
    ensures ValidatedRequest(Use(tool, rationale, diagnosis)) == Some(SentArguments(tool))
  {
    var raw := RequestedArguments(Defaults());
    assert raw == map[Service := Str(SERVICE_NAME), Environment := Str("production")];
    assert forall i | 0 <= i < |SERVICE_NAME| :: ServiceChar(SERVICE_NAME[i]);
    assert ValidService(raw[Service]) && ValidEnvironment(raw[Environment]);
  }

  lemma LowerProduction()
    ensures Lower("production") == "production"
  {
    hide Lower;
    LowerCaseStays("production");
  }

  lemma OnlyRestartNeedsApproval(tool: Tool)
    requires !tool.DeleteDatabase?
    ensures NeedsApproval(tool, SentArguments(tool)) <==> tool.RestartService?
    ensures Evaluate(tool, SentArguments(tool)).allowed
  {
    hide Lower;
    LowerProduction();
  }

  /** What the tool reports in a run without faults. */
  function Expected(fx: Fixtures, scenarioId: string, tool: Tool): Json
    requires scenarioId in fx.scenarios
  {
    var scenario := fx.scenarios[scenarioId];
    match tool
    case ReadAlert => scenario.alert
    case InspectMetrics => scenario.metrics
    case QueryLogs => scenario.logs
    case DependencyHealth => scenario.dependencies
    case RestartService => RestartResult(Str(SERVICE_NAME), Str("production"))
    case VerifyRecovery => scenario.afterRestart
    case DeleteDatabase => Null
  }

  /** The last tool shows what is left after the restart, and the verdict on that cannot go both ways. */
  lemma ExpectedVerdict(fx: Fixtures, scenarioId: string)
    requires scenarioId in fx.scenarios
    ensures Expected(fx, scenarioId, VerifyRecovery) == fx.scenarios[scenarioId].afterRestart
    ensures !(Healthy(fx, fx.scenarios[scenarioId].afterRestart) && Unhealthy(fx,
                                                                              fx.scenarios[scenarioId].afterRestart))
  {
    hide Recovered, Healthy, Unhealthy;
    VerdictIsExact(fx, fx.scenarios[scenarioId].afterRestart);
  }

  /** Steps done so far. */
  function Progress(s: WorkflowState): nat {
    |s.completedSteps|
  }

  /** The completed steps are the first ones of the order, and their evidence is the fault-free one. */
  predicate OnTrack(fx: Fixtures, s: WorkflowState) {
    && s.scenarioId in fx.scenarios
    && Progress(s) <= 6
    && (forall i | 0 <= i < Progress(s) :: Rank(s.completedSteps[i]) == i)
    && (forall tool :: tool in s.evidence <==> Rank(tool) < Progress(s))
    && (forall tool | tool in s.evidence :: s.evidence[tool] == Expected(fx, s.scenarioId, tool))
  }

  lemma StepDone(fx: Fixtures, s: WorkflowState, tool: Tool)
    requires OnTrack(fx, s)
    ensures tool in s.completedSteps <==> Rank(tool) < Progress(s)
  {
    if Rank(tool) < Progress(s) {
      RankIsInjective(s.completedSteps[Rank(tool)], tool);
    }
  }

  lemma RankIsInjective(a: Tool, b: Tool)
    requires Rank(a) == Rank(b)
    ensures a == b
  {
  }

  /** The policy asks for the next tool of the order, and decides when all six are done. */
  lemma PolicyFollowsOrder(fx: Fixtures, s: WorkflowState)
    requires OnTrack(fx, s)
    ensures Progress(s) < 6 ==>
              var d := ReferenceDecision(fx, s);
              && d.Some? && d.value.action.UseTool? && d.value.tool == Some(ToolAt(Progress(s)))
              && ValidatedRequest(d.value) == Some(SentArguments(ToolAt(Progress(s))))
    ensures Progress(s) == 6 ==>
              var d := ReferenceDecision(fx, s);
              var verified := Expected(fx, s.scenarioId, VerifyRecovery);
              && (d.Some? && d.value.action.Complete? <==> Healthy(fx, verified))
              && (d.Some? && d.value.action.Fail? <==> Unhealthy(fx, verified))
              && (d.Some? ==> !d.value.action.UseTool?)
  {
    hide Recovered, Healthy, Unhealthy, ValidatedRequest, Expected;
    VerdictIsExact(fx, Expected(fx, s.scenarioId, VerifyRecovery));
    StepDone(fx, s, RestartService);
    assert forall tool :: tool in s.evidence <==> Rank(tool) < Progress(s);
    assert Rank(ReadAlert) == 0 && Rank(InspectMetrics) == 1 && Rank(QueryLogs) == 2;
    assert Rank(DependencyHealth) == 3 && Rank(RestartService) == 4 && Rank(VerifyRecovery) == 5;
    var d := ReferenceDecision(fx, s);
    if d.Some? && d.value.action.UseTool? {
      DefaultsValidate(d.value.tool.value, d.value.rationale, d.value.diagnosis);
    }
  }
}
