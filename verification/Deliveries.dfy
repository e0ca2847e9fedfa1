/**
 One delivery from load to settlement, when nobody else touches the tables: the tables and the result as functions
 of the tables before, the answers and the clock, call by call as runtime.py, tools.py and worker.py have it. The
 methods of the classes are proved to compute them, and the lemmas below say what they come to, case by case.
 */
module Deliveries {
  import opened Prelude
  import opened Models
  import opened Tools
  import opened LoopDetector
  import opened Tables

  /** What `ToolGateway.execute` returns or raises. */
  datatype ToolOutcome =
    | ToolResult(result: Json, cached: bool)
    | ToolRetryable(error: Reason)
    | ToolPermanent(error: Reason)
    | ToolUncaught

  /** What `process` returns or raises. */
  datatype Outcome =
    | Processed(state: WorkflowState)
    | RaisedRetryable(error: Reason)
    | RaisedPermanent(error: Reason)
    | Uncaught

  /** Nothing to claim, a delivery that was settled, or an exception that escaped. */
  datatype RunResult = Idle | Worked | Escaped

  // ----- saves -----

  /** The stored version is the one that was loaded. */
  predicate Fresh(w: World, s: WorkflowState) {
    s.taskId in w.workflows && w.workflows[s.taskId].version == s.version
  }

  function Stamped(s: WorkflowState): WorkflowState {
    s.(version := s.version + 1)
  }

  ghost function Stored(w: World, s: WorkflowState): World {
    w.(workflows := w.workflows[s.taskId := WorkflowRow(Stamped(s), s.version + 1)])
  }

  ghost function Noted(w: World, s: WorkflowState, kind: EventKind): World {
    w.(events := w.events + [Event(s.taskId, kind)])
  }

  /** Save, event, and the workflow is returned. */
  ghost function ReportRun(w: World, s: WorkflowState, kind: EventKind): (World, Outcome) {
    if Fresh(w, s) then (Noted(Stored(w, s), s, kind), Processed(Stamped(s))) else (w, RaisedRetryable(StaleCheckpoint))
  }

  /** Save, event, and the error is raised again. */
  ghost function RaiseRun(w: World, s: WorkflowState, kind: EventKind, error: Reason): (World, Outcome) {
    if Fresh(w, s) then (Noted(Stored(w, s), s, kind), RaisedRetryable(error))
    else (w, RaisedRetryable(StaleCheckpoint))
  }

  /** `_fail`. */
  ghost function FailureRun(w: World, s: WorkflowState, reason: Reason): (World, Outcome) {
    ReportRun(w, s.(status := Failed, lastError := Some(reason), currentStep := None), WorkflowFailed)
  }

  // ----- tools -----

  /** `ToolGateway.execute`. */
  ghost function CallRun(cfg: Config, w: World, s: WorkflowState, tool: Tool, raw: Arguments, answer: BackendAnswer)
    : (World, ToolOutcome)
  {
    match Validate(tool, raw)
    case None => (w, ToolPermanent(InvalidArguments(tool)))
    case Some(arguments) =>
      var key, hash := ActionIdOf(cfg, s.taskId, tool, arguments), cfg.argumentsHash(arguments);
      if tool.DeleteDatabase? then (w, ToolPermanent(DeletionProhibited))
      else if key in w.ledger then
        (w, if w.ledger[key].argumentsHash == hash then ToolResult(w.ledger[key].result, true) else ToolUncaught)
      else match answer
        case BackendCrash => (w, ToolUncaught)
        case BackendRetryable(message) => (w, ToolRetryable(Text(message)))
        case BackendPermanent(message) => (w, ToolPermanent(Text(message)))
        case Returned(result) =>
          if result.Obj? && result.fields != map[] then
            (w.(ledger := w.ledger[key := LedgerRow(s.taskId, tool, hash, result)]), ToolResult(result, false))
          else (w, ToolRetryable(InvalidToolOutput(tool)))
  }

  /** Valid, not denied, and nothing recorded: the backend is asked. */
  predicate AsksBackend(cfg: Config, w: World, s: WorkflowState, tool: Tool, raw: Arguments) {
    && Validate(tool, raw).Some? && !tool.DeleteDatabase?
    && ActionIdOf(cfg, s.taskId, tool, Validate(tool, raw).value) !in w.ledger
  }

  /** The state after a finished call. */
  ghost function Achieved(cfg: Config, s: WorkflowState, tool: Tool, result: Json): WorkflowState {
    var evidence := s.evidence[tool := result];
    s.(toolCalls := s.toolCalls + 1, evidence := evidence,
       completedSteps := if tool in s.completedSteps then s.completedSteps else s.completedSteps + [tool],
       pendingAction := None, currentStep := None, lastError := None, status := Queued,
       progressHistory := s.progressHistory + [cfg.fingerprint(evidence)])
  }

  /** `_execute_tool`. */
  ghost function ToolRun(cfg: Config, w: World, s: WorkflowState, tool: Tool, raw: Arguments, a: Answer)
    : (World, Outcome)
  {
    var (v, called) := CallRun(cfg, w, s, tool, raw, a.backend);
    match called
    case ToolUncaught => (v, Uncaught)
    case ToolRetryable(error) =>
      RaiseRun(v, s.(retries := s.retries + 1, lastError := Some(error), status := Queued), ToolRetryableFailure, error)
    case ToolPermanent(error) => FailureRun(v, s, error)
    case ToolResult(result, _) => ReportRun(v, Achieved(cfg, s, tool, result), ToolCompleted)
  }

  lemma AfterCall(cfg: Config, w: World, s: WorkflowState, tool: Tool, raw: Arguments, a: Answer, v: World,
          called: ToolOutcome)
    requires CallRun(cfg, w, s, tool, raw, a.backend) == (v, called)
    ensures ToolRun(cfg, w, s, tool, raw, a) ==
              match called
              case ToolUncaught => (v, Uncaught)
              case ToolRetryable(error) =>
                RaiseRun(v, s.(retries := s.retries + 1, lastError := Some(error), status := Queued),
                         ToolRetryableFailure, error)
              case ToolPermanent(error) => FailureRun(v, s, error)
              case ToolResult(result, _) => ReportRun(v, Achieved(cfg, s, tool, result), ToolCompleted)
  {
  }

  /**
   What the backend's answer does to the stored workflow and to the caller. A permanent error ends the workflow with its
   text, without a retry; a retryable one, or a result that is no filled object, counts a retry and is raised again.
   */
  predicate AnswerKept(w: World, v: World, s: WorkflowState, tool: Tool, answer: BackendAnswer, outcome: Outcome) {
    && s.taskId in v.workflows
    && var after := v.workflows[s.taskId].state;
    match answer
    case BackendPermanent(message) =>
      && outcome == Processed(after)
      && after == s.(status := Failed, lastError := Some(Text(message)), currentStep := None, version := s.version + 1)
    case BackendRetryable(message) =>
      && outcome == RaisedRetryable(Text(message))
      && after == s.(status := Queued, lastError := Some(Text(message)), retries := s.retries + 1,
                     version := s.version + 1)
    case BackendCrash => outcome == Uncaught && v == w
    case Returned(result) =>
      if result.Obj? && result.fields != map[] then
        outcome == Processed(after) && after.status.Queued? && after.evidence == s.evidence[tool := result]
      else
        && outcome == RaisedRetryable(InvalidToolOutput(tool))
        && after == s.(status := Queued, lastError := Some(InvalidToolOutput(tool)), retries := s.retries + 1,
                       version := s.version + 1)
  }

  lemma AnswersAreKept(cfg: Config, w: World, s: WorkflowState, tool: Tool, raw: Arguments, a: Answer)
    ensures var (v, outcome) := ToolRun(cfg, w, s, tool, raw, a);
            AsksBackend(cfg, w, s, tool, raw) && Fresh(w, s) ==> AnswerKept(w, v, s, tool, a.backend, outcome)
  {
    hide Validate, ActionIdOf;
  }

  /** `_resume_approved_action`. */
  ghost function ResumeRun(cfg: Config, w: World, s: WorkflowState, a: Answer): (World, Outcome)
    requires s.pendingAction.Some?
  {
    var pending := s.pendingAction.value;
    if (s.taskId, pending.actionId) in w.approvals && w.approvals[(s.taskId, pending.actionId)].Approved? then
      ToolRun(cfg, Noted(w, s, ApprovedActionResumed), s, pending.tool, pending.arguments, a)
    else (w, Processed(s.(status := WaitingForApproval)))
  }

  // ----- decisions -----

  /** The waiting checkpoint, then the approval row, unless there is one, and its event. */
  ghost function ParkRun(w: World, s: WorkflowState, id: ActionId): (World, Outcome) {
    if !Fresh(w, s) then (w, RaisedRetryable(StaleCheckpoint))
    else
      var v := Stored(w, s);
      var key := (s.taskId, id);
      var asked := if key in v.approvals then v else v.(approvals := v.approvals[key := Undecided]);
      (Noted(asked, s, ApprovalRequired), Processed(Stamped(s)))
  }

  /** The policy gate behind the checkpoint of an accepted request. */
  ghost function GateRun(cfg: Config, w: World, s: WorkflowState, d: Decision, arguments: Arguments, a: Answer)
    : (World, Outcome)
    requires d.action.UseTool?
  {
    var tool := d.tool.value;
    var id := ActionIdOf(cfg, s.taskId, tool, arguments);
    if tool.DeleteDatabase? then FailureRun(Noted(w, s, PolicyDenied), s, DeletionProhibited)
    else if tool.RestartService? && Environment in arguments && arguments[Environment] == Str("production") then
      ParkRun(w, s.(status := WaitingForApproval,
                    pendingAction := Some(PendingAction(id, tool, arguments, High, d.rationale))), id)
    else ToolRun(cfg, w, s, tool, arguments, a)
  }

  /** The state with the request in its histories. */
  ghost function Tried(cfg: Config, s: WorkflowState, tool: Tool): WorkflowState {
    s.(currentStep := Some(tool), toolHistory := s.toolHistory + [tool],
       progressHistory := s.progressHistory + [cfg.fingerprint(s.evidence)])
  }

  /** A tool request: validation, loop guard, checkpoint, gate. */
  ghost function RequestRun(cfg: Config, w: World, s: WorkflowState, d: Decision, a: Answer): (World, Outcome)
    requires cfg.Valid() && d.action.UseTool?
  {
    var tool := d.tool.value;
    match Validate(tool, RequestedArguments(d.arguments))
    case None => (w, RaisedPermanent(InvalidArguments(tool)))
    case Some(arguments) =>
      var next := Tried(cfg, s, tool);
      match LoopReason(cfg, next.toolHistory, next.progressHistory)
      case Some(reason) => ReportRun(w, next.(status := LoopStopped, lastError := Some(reason)), LoopDetected)
      case None =>
        if Fresh(w, next) then GateRun(cfg, Stored(w, next), Stamped(next), d, arguments, a)
        else (w, RaisedRetryable(StaleCheckpoint))
  }

  /** The state with what the decision brings whatever its action. */
  ghost function Advised(s: WorkflowState, d: Decision, u: Usage): WorkflowState {
    s.(modelCalls := s.modelCalls + 1, inputTokens := s.inputTokens + u.input,
       outputTokens := s.outputTokens + u.output,
       diagnosis := if d.diagnosis == None || d.diagnosis == Some("") then s.diagnosis else d.diagnosis,
       remediation := if d.remediation == None || d.remediation == Some("") then s.remediation else d.remediation)
  }

  /** What `process` does with a decision. */
  ghost function ActRun(cfg: Config, w: World, s: WorkflowState, d: Decision, u: Usage, a: Answer): (World, Outcome)
    requires cfg.Valid()
  {
    var v, next := Noted(w, s, AgentDecisionMade), Advised(s, d, u);
    match d.action
    case Complete =>
      ReportRun(v, next.(status := Completed, finalAnswer := d.finalAnswer, currentStep := None), WorkflowCompleted)
    case Fail => FailureRun(v, next, Text(d.rationale))
    case UseTool => RequestRun(cfg, v, next, d, a)
  }

  /** The engine's answer to a running workflow, and what comes of it. */
  ghost function EngineRun(cfg: Config, w: World, s: WorkflowState, a: Answer): (World, Outcome)
    requires cfg.Valid()
  {
    match a.engine
    case EngineCrash => (w, Uncaught)
    case EnginePermanent(message) => (w, RaisedPermanent(Text(message)))
    case EngineRetryable(message) =>
      RaiseRun(w, s.(retries := s.retries + 1, status := Queued, lastError := Some(Text(message))),
               ModelRetryableFailure, Text(message))
    case Decide(d, u) => ActRun(cfg, w, s, d, u, a)
  }

  /** The decision step: a running checkpoint, then the engine. */
  ghost function DecisionRun(cfg: Config, w: World, s: WorkflowState, a: Answer): (World, Outcome)
    requires cfg.Valid()
  {
    var running := s.(status := Running, lastError := None);
    if !Fresh(w, running) then (w, RaisedRetryable(StaleCheckpoint))
    else EngineRun(cfg, Noted(Stored(w, running), s, AgentDecisionStarted), Stamped(running), a)
  }

  /**
   What an error of the engine does. A permanent one is raised as it is, over the running checkpoint, with no retry
   and no event of one; a retryable one counts a retry, is kept and noted, and raised again.
   */
  predicate EngineErrorKept(w: World, v: World, s: WorkflowState, answer: EngineAnswer, outcome: Outcome) {
    && s.taskId in v.workflows
    && var after := v.workflows[s.taskId].state;
    match answer
    case EnginePermanent(message) =>
      && outcome == RaisedPermanent(Text(message))
      && after == s.(status := Running, lastError := None, version := s.version + 1)
      && v.events == w.events + [Event(s.taskId, AgentDecisionStarted)]
    case EngineRetryable(message) =>
      && outcome == RaisedRetryable(Text(message))
      && after == s.(status := Queued, lastError := Some(Text(message)), retries := s.retries + 1,
                     version := s.version + 2)
      && v.events == w.events + [Event(s.taskId, AgentDecisionStarted), Event(s.taskId, ModelRetryableFailure)]
    case EngineCrash =>
      && outcome == Uncaught
      && after == s.(status := Running, lastError := None, version := s.version + 1)
    case Decide(_, _) => true
  }

  lemma EngineErrorsAreKept(cfg: Config, w: World, s: WorkflowState, a: Answer)
    requires cfg.Valid()
    ensures var (v, outcome) := DecisionRun(cfg, w, s, a);
            Fresh(w, s) && !a.engine.Decide? ==> EngineErrorKept(w, v, s, a.engine, outcome)
  {
    hide ActRun;
    assert w.events + [Event(s.taskId, AgentDecisionStarted)] + [Event(s.taskId, ModelRetryableFailure)]
        == w.events + [Event(s.taskId, AgentDecisionStarted), Event(s.taskId, ModelRetryableFailure)];
  }

  /** `process`. */
  ghost function ProcessRun(cfg: Config, w: World, task: TaskId, a: Answer): (World, Outcome)
    requires cfg.Valid()
  {
    if task !in w.workflows then (w, RaisedPermanent(UnknownWorkflow))
    else
      var s := w.workflows[task].state;
      if s.status in {Completed, Failed, DeadLettered, LoopStopped, HumanRejected, WaitingForApproval} then
        (w, Processed(s))
      else if s.pendingAction.Some? then ResumeRun(cfg, w, s, a)
      else DecisionRun(cfg, w, s, a)
  }

  // ----- settlement -----

  /** The handlers of the worker: load again and, unless the workflow has ended, save it with this status and error. */
  ghost function ConcludeRun(w: World, task: TaskId, status: Status, error: Reason, kind: EventKind)
    : (World, RunResult)
  {
    if task !in w.workflows then (w, Worked)
    else
      var s := w.workflows[task].state;
      var ended := s.(status := status, lastError := Some(error));
      if s.status in {Completed, Failed, DeadLettered, LoopStopped, HumanRejected} then (w, Worked)
      else if Fresh(w, ended) then (Noted(Stored(w, ended), s, kind), Worked)
      else (w, Escaped)
  }

  lemma ConcludeCases(w: World, task: TaskId, status: Status, error: Reason, kind: EventKind)
    ensures task !in w.workflows || w.workflows[task].state.Terminal() ==>
              ConcludeRun(w, task, status, error, kind) == (w, Worked)
    ensures task in w.workflows && !w.workflows[task].state.Terminal() ==>
              var s := w.workflows[task].state;
              var ended := s.(status := status, lastError := Some(error));
              ConcludeRun(w, task, status, error, kind) ==
                if Fresh(w, ended) then (Noted(Stored(w, ended), s, kind), Worked) else (w, Escaped)
  {
  }

  /** Done, whoever holds it. */
  ghost function Acknowledged(w: World, id: nat): World {
    if id < |w.queue| then w.(queue := w.queue[id := w.queue[id].(status := Done, leaseUntil := None)]) else w
  }

  /** `run_once` once `process` has come back. */
  ghost function SettleRun(cfg: Config, w: World, d: Delivery, outcome: Outcome, now: real): (World, RunResult) {
    match outcome
    case Uncaught => (w, Escaped)
    case Processed(s) =>
      var v := Acknowledged(w, d.id);
      (if s.status.Queued? && !HasLive(v.queue, s.taskId)
       then v.(queue := v.queue + [QueueRow(s.taskId, Pending, 0, cfg.maxQueueAttempts, now, None, None)]) else v,
       Worked)
    case RaisedRetryable(error) =>
      var dead := d.attempts >= d.maxAttempts;
      var v :=
        if d.id >= |w.queue| then w
        else w.(queue := w.queue[d.id := w.queue[d.id].(
          status := if dead then Dead else Pending,
          availableAt := if dead then now else now + RetryDelay(cfg.retryBaseSeconds, d.attempts),
          leaseUntil := None, worker := None)]);
      if dead then ConcludeRun(v, d.task, DeadLettered, error, DeadLetteredEvent) else (v, Worked)
    case RaisedPermanent(error) => ConcludeRun(Acknowledged(w, d.id), d.task, Failed, error, WorkflowFailed)
  }

  /** `run_once` from the claim on. */
  ghost function DeliveryRun(cfg: Config, w: World, d: Delivery, a: Answer): (World, RunResult)
    requires cfg.Valid()
  {
    var (v, outcome) := ProcessRun(cfg, w, d.task, a);
    SettleRun(cfg, v, d, outcome, a.now)
  }

  /** `run_once`. */
  ghost function RoundRun(cfg: Config, w: World, worker: string, now: real, a: Answer): (World, RunResult)
    requires cfg.Valid()
  {
    var (claimed, delivery) := Claim(w, worker, cfg.leaseSeconds, now);
    if delivery.None? then (claimed, Idle) else DeliveryRun(cfg, claimed, delivery.value, a)
  }

  /** `serve`: one round after the other, until there are no more or an exception escapes. */
  ghost function ServeRun(cfg: Config, w: World, worker: string, rounds: seq<(real, Answer)>): (World, nat)
    requires cfg.Valid()
    decreases |rounds|
  {
    if rounds == [] then (w, 0)
    else
      var (v, result) := RoundRun(cfg, w, worker, rounds[0].0, rounds[0].1);
      if result.Escaped? then (v, 1)
      else
        var (x, n) := ServeRun(cfg, v, worker, rounds[1..]);
        (x, n + 1)
  }
}
