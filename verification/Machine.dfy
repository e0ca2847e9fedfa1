/**
 One claimed delivery, or one API request, as a program counter: every step is one store call, one
 call of the decision engine or one call of the tool backend, with the code up to the next call.
 */
module Machine {
  import opened Prelude
  import opened Models
  import opened Policy
  import opened Tools
  import opened Tables
  import opened Checkpoints

  datatype Purpose =
    | ToProcess
    | ToDeadLetter(error: Reason)
    | ToFail(error: Reason)
    | ToApprove
    | ToReject(error: Reason)

  /** What `run_once` does after acknowledging. */
  datatype Settlement =
    | Finish                            // a terminal or waiting workflow was returned
    | Park                              // an unapproved action was found: nothing was saved
    | Reenqueue                         // a queued workflow was returned
    | FailAfter(error: Reason)          // a permanent error was raised

  datatype Pc =
    | Loading(purpose: Purpose)
    | Saving(move: Move)
    | Emitting(kind: EventKind, next: Pc)
    | AskingEngine
    | CheckingApproval
    | LookingUp(tool: Tool, arguments: Arguments)
    | Calling(tool: Tool, arguments: Arguments)
    | Recording(tool: Tool, arguments: Arguments, result: Json)
    | PuttingApproval(action: ActionId)
    | Acknowledging(settlement: Settlement)
    | Enqueuing
    | Retrying(error: Reason)
    | Resolving(action: ActionId, approved: bool, error: Reason)
    | Halted

  /** A worker on a delivery, or an API request (no delivery). */
  datatype Proc = Proc(task: TaskId, delivery: Option<Delivery>, base: Option<WorkflowState>, pc: Pc) {
    predicate Live() {
      !pc.Halted?
    }
  }

  /** The head of `process`, and of the handlers, once the workflow is loaded. */
  function AfterLoad(s: WorkflowState, purpose: Purpose): Pc {
    match purpose
    case ToProcess =>
      if s.Terminal() || s.status.WaitingForApproval? then Acknowledging(Finish)
      else if s.pendingAction.Some? then CheckingApproval
      else Saving(Start)
    case ToDeadLetter(error) => if s.Terminal() then Halted else Saving(DeadLetter(error))
    case ToFail(error) => if s.Terminal() then Halted else Saving(FailDelivery(error))
    case ToApprove =>
      if s.status.WaitingForApproval? && s.pendingAction.Some? then
        Resolving(s.pendingAction.value.actionId, true, Text(""))
      else Halted
    case ToReject(error) =>
      if s.status.WaitingForApproval? && s.pendingAction.Some? then
        Resolving(s.pendingAction.value.actionId, false, error)
      else Halted
  }

  function AfterMissing(purpose: Purpose): Pc {
    if purpose.ToProcess? then Acknowledging(FailAfter(UnknownWorkflow)) else Halted
  }

  /** `_execute_tool` up to its first store call. */
  function Execute(tool: Tool, arguments: Arguments): Pc {
    match Validate(tool, arguments)
    case None => Saving(FailRun(InvalidArguments(tool)))
    case Some(validated) =>
      if !Evaluate(tool, validated).allowed then Saving(FailRun(Evaluate(tool, validated).reason))
      else LookingUp(tool, validated)
  }

  function AfterEngine(cfg: Config, s: WorkflowState, answer: EngineAnswer): Pc
    requires cfg.repeatThreshold > 0
  {
    match answer
    case EngineCrash => Halted
    case EnginePermanent(message) => Acknowledging(FailAfter(Text(message)))
    case EngineRetryable(message) => Saving(ModelRetry(Text(message)))
    case Decide(d, u) => Emitting(AgentDecisionMade, AfterDecision(cfg, s, d, u))
  }

  function AfterDecision(cfg: Config, s: WorkflowState, d: Decision, u: Usage): Pc
    requires cfg.repeatThreshold > 0
  {
    match d.action
    case Complete => Saving(CompleteRun(d, u))
    case Fail => Saving(DecisionFail(d, u))
    case UseTool =>
      if ValidatedRequest(d).None? then Acknowledging(FailAfter(InvalidArguments(d.tool.value)))
      else if RequestReason(cfg, s, d, u).Some? then Saving(StopLoop(d, u))
      else Saving(Accept(d, u))
  }

  /** After the accepted request is checkpointed: the policy gate. */
  function AfterAccept(cfg: Config, task: TaskId, d: Decision): Pc
    requires d.action.UseTool? && ValidatedRequest(d).Some?
  {
    var tool, arguments := d.tool.value, ValidatedRequest(d).value;
    var policy := Evaluate(tool, arguments);
    if !policy.allowed then Emitting(PolicyDenied, Saving(FailRun(policy.reason)))
    else if policy.approvalRequired then Saving(Wait(PendingFor(cfg, task, d, arguments)))
    else Execute(tool, arguments)
  }

  /** What follows a successful save. */
  function AfterSave(cfg: Config, task: TaskId, m: Move): Pc {
    match m
    case Create => Halted
    case Start => Emitting(AgentDecisionStarted, AskingEngine)
    case ModelRetry(error) => Emitting(ModelRetryableFailure, Retrying(error))
    case CompleteRun(_, _) => Emitting(WorkflowCompleted, Acknowledging(Finish))
    case DecisionFail(_, _) => Emitting(WorkflowFailed, Acknowledging(Finish))
    case StopLoop(_, _) => Emitting(LoopDetected, Acknowledging(Finish))
    case Accept(d, _) =>
      if d.action.UseTool? && ValidatedRequest(d).Some? then AfterAccept(cfg, task, d) else Halted
    case FailRun(_) => Emitting(WorkflowFailed, Acknowledging(Finish))
    case Wait(action) => PuttingApproval(action.actionId)
    case RetryTool(error) => Emitting(ToolRetryableFailure, Retrying(error))
    case FinishTool(_, _) => Emitting(ToolCompleted, Acknowledging(Reenqueue))
    case DeadLetter(_) => Emitting(DeadLetteredEvent, Halted)
    case FailDelivery(_) => Emitting(WorkflowFailed, Halted)
    case Approve => Emitting(ApprovalGranted, Enqueuing)
    case Reject(_) => Emitting(ApprovalRejected, Halted)
    case Replay => Halted
  }

  /** A stale save is a retryable error inside `process`, and escapes from a handler or an endpoint. */
  function AfterStale(m: Move): Pc {
    if m.DeadLetter? || m.FailDelivery? || m.Approve? || m.Reject? then Halted else Retrying(StaleCheckpoint)
  }

  function AfterBackend(tool: Tool, arguments: Arguments, answer: BackendAnswer): Pc {
    match answer
    case BackendCrash => Halted
    case BackendRetryable(message) => Saving(RetryTool(Text(message)))
    case BackendPermanent(message) => Saving(FailRun(Text(message)))
    case Returned(result) =>
      if StructuredResult(result) then Recording(tool, arguments, result)
      else Saving(RetryTool(InvalidToolOutput(tool)))
  }

  function AfterSettlement(settlement: Settlement): Pc {
    match settlement
    case Finish => Halted
    case Park => Halted
    case Reenqueue => Enqueuing
    case FailAfter(error) => Loading(ToFail(error))
  }

  /** A save of `m` by `p` that finds the version it expects. */
  predicate CommitsNow(w: World, p: Proc) {
    p.pc.Saving? && p.base.Some? && VersionMatches(w, p.base.value.taskId, p.base.value.version)
  }

  function LoadStep(w: World, p: Proc, purpose: Purpose): Proc {
    if p.task in w.workflows then
      var s := w.workflows[p.task].state;
      p.(base := Some(s), pc := AfterLoad(s, purpose))
    else p.(base := None, pc := AfterMissing(purpose))
  }

  function SaveStep(cfg: Config, w: World, p: Proc, m: Move): (World, Proc)
    requires cfg.repeatThreshold > 0
  {
    if p.base.None? then (w, p.(pc := Halted))
    else
      var s := Apply(cfg, p.base.value, m);
      match SaveWorkflow(w, s, p.base.value.version)
      case None => (w, p.(pc := AfterStale(m)))
      case Some(saved) => (saved, p.(base := Some(s), pc := AfterSave(cfg, p.task, m)))
  }

  function EngineStep(cfg: Config, p: Proc, a: Answer): Pc
    requires cfg.repeatThreshold > 0
  {
    if p.base.None? then Halted else AfterEngine(cfg, p.base.value, a.engine)
  }

  function ResumeStep(w: World, p: Proc): Pc {
    if p.base.None? || p.base.value.pendingAction.None? then Halted
    else
      var pending := p.base.value.pendingAction.value;
      if IsApproved(w, p.task, pending.actionId) then
        Emitting(ApprovedActionResumed, Execute(pending.tool, pending.arguments))
      else Acknowledging(Park)
  }

  function LookupStep(cfg: Config, w: World, p: Proc, tool: Tool, arguments: Arguments): Pc {
    match GetToolResult(w, ActionIdOf(cfg, p.task, tool, arguments), cfg.argumentsHash(arguments))
    case HashConflict => Halted
    case Found(result) => Saving(FinishTool(tool, result))
    case Missing => Calling(tool, arguments)
  }

  function RecordStep(cfg: Config, w: World, p: Proc, tool: Tool, arguments: Arguments, result: Json): World {
    SaveToolResult(w, ActionIdOf(cfg, p.task, tool, arguments),
                   LedgerRow(p.task, tool, cfg.argumentsHash(arguments), result))
  }

  function RetryStep(cfg: Config, w: World, p: Proc, error: Reason, now: real): (World, Pc) {
    if p.delivery.None? then (w, Halted)
    else
      var (settled, dead) := RetryOrDeadLetter(w, p.delivery.value, cfg.retryBaseSeconds, now);
      (settled, if dead then Loading(ToDeadLetter(error)) else Halted)
  }

  function ResolveStep(w: World, p: Proc, action: ActionId, approved: bool, error: Reason): (World, Pc) {
    match ResolveApproval(w, p.task, action, approved)
    case None => (w, Halted)
    case Some(resolved) => (resolved, Saving(if approved then Approve else Reject(error)))
  }

  function AcknowledgeStep(w: World, p: Proc): World {
    if p.delivery.Some? then Acknowledge(w, p.delivery.value.id) else w
  }

  /** One step of one process. */
  function StepProc(cfg: Config, w: World, p: Proc, a: Answer): (World, Proc)
    requires cfg.repeatThreshold > 0
  {
    match p.pc
    case Halted => (w, p)
    case Loading(purpose) => (w, LoadStep(w, p, purpose))
    case Saving(m) => SaveStep(cfg, w, p, m)
    case Emitting(kind, next) => (RecordEvent(w, p.task, kind), p.(pc := next))
    case AskingEngine => (w, p.(pc := EngineStep(cfg, p, a)))
    case CheckingApproval => (w, p.(pc := ResumeStep(w, p)))
    case LookingUp(tool, arguments) => (w, p.(pc := LookupStep(cfg, w, p, tool, arguments)))
    case Calling(tool, arguments) => (w, p.(pc := AfterBackend(tool, arguments, a.backend)))
    case Recording(tool, arguments, result) =>
      (RecordStep(cfg, w, p, tool, arguments, result), p.(pc := Saving(FinishTool(tool, result))))
    case PuttingApproval(action) =>
      (CreateApproval(w, p.task, action), p.(pc := Emitting(ApprovalRequired, Acknowledging(Finish))))
    case Acknowledging(settlement) => (AcknowledgeStep(w, p), p.(pc := AfterSettlement(settlement)))
    case Enqueuing => (Enqueue(w, p.task, cfg.maxQueueAttempts, a.now), p.(pc := Halted))
    case Retrying(error) =>
      var (v, pc) := RetryStep(cfg, w, p, error, a.now);
      (v, p.(pc := pc))
    case Resolving(action, approved, error) =>
      var (v, pc) := ResolveStep(w, p, action, approved, error);
      (v, p.(pc := pc))
  }
}
