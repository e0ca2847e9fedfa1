/** The data carried by checkpoints and queue deliveries (models.py). */
module Models {
  import opened Prelude

  type TaskId = string

  /** JSON values; numbers are exact. */
  datatype Json =
    | Null
    | Bool(flag: bool)
    | Num(number: real)
    | Str(text: string)
    | Arr(items: seq<Json>)
    | Obj(fields: map<string, Json>)

  /** The keys of an argument dictionary. */
  datatype Field = Service | Environment | Dependency | Other(name: string)

  type Arguments = map<Field, Json>

  datatype Tool =
    | ReadAlert
    | InspectMetrics
    | QueryLogs
    | DependencyHealth
    | RestartService
    | DeleteDatabase
    | VerifyRecovery

  datatype Status =
    | Queued
    | Running
    | WaitingForApproval
    | Completed
    | Failed
    | DeadLettered
    | LoopStopped
    | HumanRejected

  datatype Risk = Low | Medium | High | Blocked

  /** The text kept in `last_error`; the texts the code composes itself are constructors. */
  datatype Reason =
    | Text(text: string)
    | BudgetExceeded(limit: int)
    | RepeatedSequence
    | NoProgress
    | StaleCheckpoint
    | UnknownWorkflow
    | InvalidArguments(tool: Tool)
    | InvalidToolOutput(tool: Tool)
    | DeletionProhibited
    | ProductionRestartNeedsApproval
    | RestartPermitted
    | ReadOnlyAction
    | RejectedByHuman

  /** The three colon-separated parts of an action id; neither of the last two contains a colon. */
  datatype ActionId = ActionId(task: TaskId, tool: Tool, digest: string)

  datatype PendingAction = PendingAction(
    actionId: ActionId, tool: Tool, arguments: Arguments, risk: Risk, rationale: string)

  datatype WorkflowState = WorkflowState(
    taskId: TaskId,
    goal: string,
    scenarioId: string,
    status: Status,
    completedSteps: seq<Tool>,
    currentStep: Option<Tool>,
    evidence: map<Tool, Json>,
    toolHistory: seq<Tool>,
    progressHistory: seq<string>,
    pendingAction: Option<PendingAction>,
    diagnosis: Option<string>,
    remediation: Option<string>,
    finalAnswer: Option<string>,
    lastError: Option<Reason>,
    retries: nat,
    modelCalls: nat,
    inputTokens: nat,
    outputTokens: nat,
    toolCalls: nat,
    version: nat)
  {
    predicate Terminal() {
      status.Completed? || status.Failed? || status.DeadLettered? || status.LoopStopped? || status.HumanRejected?
    }

    /** Queued or running, with an action that went through the approval gate. */
    predicate Resumable() {
      !Terminal() && !status.WaitingForApproval? && pendingAction.Some?
    }
  }

  /** A workflow as `create_incident` builds it. */
  function FreshWorkflow(task: TaskId, goal: string, scenario: string): WorkflowState {
    WorkflowState(task, goal, scenario, Queued, [], None, map[], [], [], None,
                  None, None, None, None, 0, 0, 0, 0, 0, 0)
  }

  datatype Action = UseTool | Complete | Fail

  datatype AgentToolArguments = AgentToolArguments(
    service: Option<string>, environment: Option<string>, dependency: Option<string>)

  datatype AgentDecision = AgentDecision(
    action: Action,
    rationale: string,
    tool: Option<Tool>,
    arguments: AgentToolArguments,
    diagnosis: Option<string>,
    remediation: Option<string>,
    finalAnswer: Option<string>)
  {
    /** `AgentDecision.validate_action`: what a constructed decision satisfies. */
    predicate ValidAction() {
      && (action.UseTool? ==> tool.Some? && Truthy(arguments.service))
      && (action.Complete? ==> Truthy(finalAnswer))
    }
  }

  type Decision = d: AgentDecision | d.ValidAction()
    witness AgentDecision(Fail, "", None, AgentToolArguments(None, None, None), None, None, None)

  /** Input and output tokens reported by `take_usage`. */
  datatype Usage = Usage(input: nat, output: nat)

  datatype EngineAnswer =
    | Decide(decision: Decision, usage: Usage)
    | EngineRetryable(message: string)
    | EnginePermanent(message: string)
    | EngineCrash                       // any other exception, or the end of the process

  datatype BackendAnswer =
    | Returned(result: Json)
    | BackendRetryable(message: string)
    | BackendPermanent(message: string)
    | BackendCrash

  /** What the engine and the backend say if this step asks them, and the clock. */
  datatype Answer = Answer(engine: EngineAnswer, backend: BackendAnswer, now: real)

  datatype Delivery = Delivery(id: nat, task: TaskId, attempts: nat, maxAttempts: nat)

  /** Deployment constants, and the two hashes, about which nothing is assumed. */
  datatype Config = Config(
    repeatThreshold: nat,
    maxToolCalls: int,
    maxQueueAttempts: nat,
    leaseSeconds: real,
    retryBaseSeconds: real,
    argumentsHash: Arguments -> string,
    fingerprint: map<Tool, Json> -> string)
  {
    /** The check made by the constructor of the loop detector. */
    ghost predicate Valid() {
      repeatThreshold >= 2
    }
  }
}
