/**
 The checkpoint transitions: how each saved WorkflowState follows from the one saved before it
 (runtime.py, the handlers of worker.py, the endpoints of api.py, replay in store.py).
 */
module Checkpoints {
  import opened Prelude
  import opened Models
  import opened Policy
  import opened Tools
  import opened LoopDetector

  /** Everything that happens to a state between two saves. */
  datatype Move =
    | Create
    | Start                                       // RUNNING, before the decision
    | ModelRetry(error: Reason)
    | CompleteRun(decision: Decision, usage: Usage)
    | DecisionFail(decision: Decision, usage: Usage)
    | StopLoop(decision: Decision, usage: Usage)
    | Accept(decision: Decision, usage: Usage)    // the tool request passed the loop guard
    | FailRun(error: Reason)                      // policy denial or permanent tool failure
    | Wait(action: PendingAction)
    | RetryTool(error: Reason)
    | FinishTool(tool: Tool, result: Json)
    | DeadLetter(error: Reason)
    | FailDelivery(error: Reason)
    | Approve
    | Reject(error: Reason)
    | Replay

  datatype Commit = Commit(move: Move, state: WorkflowState)

  /** The unsaved effects of a decision: counters, diagnosis, remediation. */
  function Decided(s: WorkflowState, d: Decision, u: Usage): WorkflowState {
    s.(modelCalls := s.modelCalls + 1,
       inputTokens := s.inputTokens + u.input,
       outputTokens := s.outputTokens + u.output,
       diagnosis := if Truthy(d.diagnosis) then d.diagnosis else s.diagnosis,
       remediation := if Truthy(d.remediation) then d.remediation else s.remediation)
  }

  /** The histories with the requested tool appended. */
  function Requested(cfg: Config, s: WorkflowState, tool: Tool): WorkflowState {
    s.(currentStep := Some(tool),
       toolHistory := s.toolHistory + [tool],
       progressHistory := s.progressHistory + [cfg.fingerprint(s.evidence)])
  }

  function AfterRequest(cfg: Config, s: WorkflowState, d: Decision, u: Usage): WorkflowState
    requires d.action.UseTool?
  {
    Requested(cfg, Decided(s, d, u), d.tool.value)
  }

  function RequestReason(cfg: Config, s: WorkflowState, d: Decision, u: Usage): Option<Reason>
    requires d.action.UseTool? && cfg.repeatThreshold > 0
  {
    var r := AfterRequest(cfg, s, d, u);
    LoopReason(cfg, r.toolHistory, r.progressHistory)
  }

  function Failing(s: WorkflowState, error: Reason): WorkflowState {
    s.(status := Failed, lastError := Some(error), currentStep := None)
  }

  function Finished(cfg: Config, s: WorkflowState, tool: Tool, result: Json): WorkflowState {
    var evidence := s.evidence[tool := result];
    s.(toolCalls := s.toolCalls + 1,
       evidence := evidence,
       completedSteps := if tool in s.completedSteps then s.completedSteps else s.completedSteps + [tool],
       pendingAction := None,
       currentStep := None,
       lastError := None,
       status := Queued,
       progressHistory := s.progressHistory + [cfg.fingerprint(evidence)])
  }

  predicate IsRequest(m: Move) {
    (m.Accept? || m.StopLoop?) && m.decision.action.UseTool?
  }

  /** The state a move saves, before the version is stamped. */
  function Effect(cfg: Config, s: WorkflowState, m: Move): WorkflowState
    requires cfg.repeatThreshold > 0
  {
    match m
    case Create => s
    case Start => s.(status := Running, lastError := None)
    case ModelRetry(error) => s.(retries := s.retries + 1, status := Queued, lastError := Some(error))
    case CompleteRun(d, u) =>
      Decided(s, d, u).(status := Completed, finalAnswer := d.finalAnswer, currentStep := None)
    case DecisionFail(d, u) => Failing(Decided(s, d, u), Text(d.rationale))
    case StopLoop(d, u) =>
      if d.action.UseTool? then
        AfterRequest(cfg, s, d, u).(status := LoopStopped, lastError := RequestReason(cfg, s, d, u))
      else s
    case Accept(d, u) => if d.action.UseTool? then AfterRequest(cfg, s, d, u) else s
    case FailRun(error) => Failing(s, error)
    case Wait(action) => s.(pendingAction := Some(action), status := WaitingForApproval)
    case RetryTool(error) => s.(retries := s.retries + 1, lastError := Some(error), status := Queued)
    case FinishTool(tool, result) => Finished(cfg, s, tool, result)
    case DeadLetter(error) => s.(status := DeadLettered, lastError := Some(error))
    case FailDelivery(error) => s.(status := Failed, lastError := Some(error))
    case Approve => s.(status := Queued)
    case Reject(error) => s.(status := HumanRejected, lastError := Some(error), pendingAction := None)
    case Replay => s.(status := Queued, lastError := None)
  }

  function Apply(cfg: Config, s: WorkflowState, m: Move): WorkflowState
    requires cfg.repeatThreshold > 0
  {
    Effect(cfg, s, m).(version := s.version + 1)
  }

  /** The action object built for a tool request. */
  function PendingFor(cfg: Config, task: TaskId, d: Decision, arguments: Arguments): PendingAction
    requires d.action.UseTool?
  {
    PendingAction(ActionIdOf(cfg, task, d.tool.value, arguments), d.tool.value, arguments,
                  Evaluate(d.tool.value, arguments).risk, d.rationale)
  }

  function ValidatedRequest(d: Decision): Option<Arguments>
    requires d.action.UseTool?
  {
    Validate(d.tool.value, RequestedArguments(d.arguments))
  }

  /** A request that was accepted a moment ago and may be executed without a human. */
  predicate DirectlyExecutable(c: Commit, tool: Tool, arguments: Arguments) {
    && IsRequest(c.move) && c.move.Accept?
    && c.move.decision.tool == Some(tool)
    && ValidatedRequest(c.move.decision) == Some(arguments)
    && Evaluate(tool, arguments).allowed && !NeedsApproval(tool, arguments)
  }

  predicate ResumedExecutable(c: Commit, tool: Tool, arguments: Arguments) {
    && c.state.Resumable()
    && c.state.pendingAction.value.tool == tool
    && c.state.pendingAction.value.arguments == arguments
  }

  predicate MayExecute(c: Commit, tool: Tool, arguments: Arguments) {
    Executable(tool, arguments) && (DirectlyExecutable(c, tool, arguments) || ResumedExecutable(c, tool, arguments))
  }

  ghost predicate MayExecuteTool(c: Commit, tool: Tool) {
    exists arguments :: MayExecute(c, tool, arguments)
  }

  /** The call of a tool that the checkpoint allows ended in this error, or in a result the gateway refuses. */
  ghost predicate CallFailed(c: Commit, error: Reason) {
    exists tool :: MayExecuteTool(c, tool) && (error.Text? || error == InvalidToolOutput(tool))
  }

  /** The policy refused the accepted request, for this reason. */
  predicate Denied(c: Commit, error: Reason) {
    && c.move.Accept? && c.move.decision.action.UseTool?
    && var arguments := ValidatedRequest(c.move.decision);
    && arguments.Some?
    && var policy := Evaluate(c.move.decision.tool.value, arguments.value);
    && !policy.allowed && error == policy.reason
  }

  /** When the code saves move `m` on top of checkpoint `c`. */
  ghost predicate Follows(cfg: Config, c: Commit, m: Move)
    requires cfg.Valid()
  {
    match m
    case Create => false
    case Start => !c.state.Terminal() && !c.state.status.WaitingForApproval? && c.state.pendingAction.None?
    case ModelRetry(error) => c.move.Start? && error.Text?
    case CompleteRun(d, _) => c.move.Start? && d.action.Complete?
    case DecisionFail(d, _) => c.move.Start? && d.action.Fail?
    case StopLoop(d, u) =>
      c.move.Start? && d.action.UseTool? && ValidatedRequest(d).Some? && RequestReason(cfg, c.state, d, u).Some?
    case Accept(d, u) =>
      c.move.Start? && d.action.UseTool? && ValidatedRequest(d).Some? && RequestReason(cfg, c.state, d, u).None?
    case FailRun(error) => Denied(c, error) || (error.Text? && CallFailed(c, error))
    case Wait(action) =>
      && c.move.Accept? && c.move.decision.action.UseTool?
      && var arguments := ValidatedRequest(c.move.decision);
      && arguments.Some?
      && Evaluate(c.move.decision.tool.value, arguments.value).allowed
      && NeedsApproval(c.move.decision.tool.value, arguments.value)
      && action == PendingFor(cfg, c.state.taskId, c.move.decision, arguments.value)
    case RetryTool(error) => CallFailed(c, error)
    case FinishTool(tool, result) => MayExecuteTool(c, tool) && StructuredResult(result)
    case DeadLetter(_) => !c.state.Terminal()
    case FailDelivery(_) => !c.state.Terminal()
    case Approve => c.state.status.WaitingForApproval? && c.state.pendingAction.Some?
    case Reject(_) => c.state.status.WaitingForApproval? && c.state.pendingAction.Some?
    case Replay => true
  }

  ghost predicate Linked(cfg: Config, before: Commit, after: Commit)
    requires cfg.Valid()
  {
    Follows(cfg, before, after.move) && after.state == Apply(cfg, before.state, after.move)
  }

  /** Checkpoint i follows from the one before it. */
  ghost predicate LinkedAt(cfg: Config, log: seq<Commit>, i: nat)
    requires cfg.Valid() && 0 < i < |log|
  {
    Linked(cfg, log[i - 1], log[i])
  }

  /** The checkpoints of one task, oldest first. */
  ghost predicate ValidLog(cfg: Config, task: TaskId, log: seq<Commit>)
    requires cfg.Valid()
  {
    && log != []
    && log[0].move.Create?
    && log[0].state == FreshWorkflow(task, log[0].state.goal, log[0].state.scenarioId)
    && forall i: nat | 0 < i < |log| :: LinkedAt(cfg, log, i)
  }

  lemma ValidLogExtends(cfg: Config, task: TaskId, log: seq<Commit>, c: Commit)
    requires cfg.Valid() && ValidLog(cfg, task, log) && Linked(cfg, log[|log| - 1], c)
    ensures ValidLog(cfg, task, log + [c])
  {
    var longer := log + [c];
    forall i: nat | 0 < i < |longer| ensures LinkedAt(cfg, longer, i) {
      if i < |log| {
        assert LinkedAt(cfg, log, i);
      }
    }
  }

  lemma ValidLogPrefix(cfg: Config, task: TaskId, log: seq<Commit>, n: nat)
    requires cfg.Valid() && ValidLog(cfg, task, log) && 0 < n <= |log|
    ensures ValidLog(cfg, task, log[..n])
  {
    forall i: nat | 0 < i < n ensures LinkedAt(cfg, log[..n], i) {
      assert LinkedAt(cfg, log, i);
    }
  }
}
