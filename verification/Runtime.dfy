/** One delivery of a workflow, as the runtime processes it (runtime.py). */
module Runtime {
  import opened Prelude
  import opened Models
  import opened Policy
  import opened Tools
  import opened LoopDetector
  import opened Tables
  import opened Store
  import opened Deliveries
  import opened Checkpoints
  import opened Machine
  import opened Solo
  import opened Gateway

  /** The settlement that the worker owes; a returned state is the last checkpoint, or that one parked. */
  predicate Settles(outcome: Outcome, q: Proc) {
    match outcome
    case Processed(state) =>
      && q.base.Some?
      && if state == q.base.value then q.pc == Acknowledging(if state.status.Queued? then Reenqueue else Finish)
         else q.pc == Acknowledging(Park) && state == q.base.value.(status := WaitingForApproval)
    case RaisedRetryable(error) => q.pc == Retrying(error)
    case RaisedPermanent(error) => q.pc == Acknowledging(FailAfter(error))
    case Uncaught => q.pc == Halted
  }

  class WorkflowRuntime {
    const store: SQLiteStore
    const gateway: ToolGateway
    const cfg: Config

    constructor (store: SQLiteStore, gateway: ToolGateway, cfg: Config)
      requires gateway.store == store && gateway.cfg == cfg && cfg.Valid()
      ensures this.store == store && this.gateway == gateway && this.cfg == cfg && Valid()
    {
      this.store, this.gateway, this.cfg := store, gateway, cfg;
    }

    ghost predicate Valid() {
      gateway.store == store && gateway.cfg == cfg && cfg.Valid()
    }

    /** `_fail`, with the move it stands for: the engine gave up, or the gateway refused. */
    method FailWorkflow(state: WorkflowState, reason: Reason, a: Answer, ghost p: Proc)
      returns (outcome: Outcome, ghost q: Proc)
      requires Valid() && p.task == state.taskId && p.pc.Saving?
      requires (p.pc.move.DecisionFail? || p.pc.move.FailRun?) && p.base.Some?
      requires Failing(state, reason) == Effect(cfg, p.base.value, p.pc.move)
      modifies store
      ensures (store.World(), outcome) == FailureRun(old(store.World()), state, reason)
      ensures Reaches(cfg, old(store.World()), p, a, store.World(), q) && Settles(outcome, q)
      ensures q.task == p.task && q.delivery == p.delivery
    {
      hide StepProc, Effect, Reaches, Tables.SaveWorkflow;
      ghost var w := store.World();
      q := p;
      ReachesSelf(cfg, w, p, a);
      var failed := state.(status := Status.Failed);
      failed := failed.(lastError := Some(reason));
      failed := failed.(currentStep := None);
      OnSave(cfg, w, q, a, failed);
      ReachesStep(cfg, w, p, a, w, q);
      q := StepProc(cfg, w, q, a).1;
      var saved := store.SaveWorkflow(failed, failed.version);
      if saved.Err? {
        return RaisedRetryable(saved.error), q;
      }
      OnEmit(cfg, store.World(), q, a);
      ReachesStep(cfg, w, p, a, store.World(), q);
      q := StepProc(cfg, store.World(), q, a).1;
      store.RecordEvent(state.taskId, WorkflowFailed);
      return Processed(saved.value), q;
    }

    /** The saves that end a delivery with an event and a return: all but the ones with a gate or a retry behind them. */
    method SaveAndReport(state: WorkflowState, kind: EventKind, a: Answer, ghost p: Proc)
      returns (outcome: Outcome, ghost q: Proc)
      requires Valid() && p.task == state.taskId && p.pc.Saving? && p.base.Some?
      requires state == Effect(cfg, p.base.value, p.pc.move)
      requires p.pc.move.CompleteRun? || p.pc.move.StopLoop? || p.pc.move.FinishTool?
      requires AfterSave(cfg, p.task, p.pc.move)
            == Emitting(kind, Acknowledging(if state.status.Queued? then Reenqueue else Finish))
      modifies store
      ensures (store.World(), outcome) == ReportRun(old(store.World()), state, kind)
      ensures Reaches(cfg, old(store.World()), p, a, store.World(), q) && Settles(outcome, q)
      ensures q.task == p.task && q.delivery == p.delivery
    {
      hide StepProc, Effect, Reaches, Tables.SaveWorkflow, AfterSave;
      ghost var w := store.World();
      q := p;
      ReachesSelf(cfg, w, p, a);
      OnSave(cfg, w, q, a, state);
      ReachesStep(cfg, w, p, a, w, q);
      q := StepProc(cfg, w, q, a).1;
      var saved := store.SaveWorkflow(state, state.version);
      if saved.Err? {
        return RaisedRetryable(saved.error), q;
      }
      OnEmit(cfg, store.World(), q, a);
      ReachesStep(cfg, w, p, a, store.World(), q);
      q := StepProc(cfg, store.World(), q, a).1;
      store.RecordEvent(state.taskId, kind);
      return Processed(saved.value), q;
    }

    /** A save after a transient failure, its event, and the error again. */
    method SaveAndRaise(state: WorkflowState, kind: EventKind, error: Reason, a: Answer, ghost p: Proc)
      returns (outcome: Outcome, ghost q: Proc)
      requires Valid() && p.task == state.taskId && p.pc.Saving? && p.base.Some?
      requires state == Effect(cfg, p.base.value, p.pc.move)
      requires p.pc.move == ModelRetry(error) || p.pc.move == RetryTool(error)
      requires AfterSave(cfg, p.task, p.pc.move) == Emitting(kind, Retrying(error))
      modifies store
      ensures (store.World(), outcome) == RaiseRun(old(store.World()), state, kind, error)
      ensures Reaches(cfg, old(store.World()), p, a, store.World(), q) && Settles(outcome, q)
      ensures q.task == p.task && q.delivery == p.delivery
    {
      hide StepProc, Effect, Reaches, Tables.SaveWorkflow, AfterSave;
      ghost var w := store.World();
      q := p;
      ReachesSelf(cfg, w, p, a);
      OnSave(cfg, w, q, a, state);
      ReachesStep(cfg, w, p, a, w, q);
      q := StepProc(cfg, w, q, a).1;
      var saved := store.SaveWorkflow(state, state.version);
      if saved.Err? {
        return RaisedRetryable(saved.error), q;
      }
      OnEmit(cfg, store.World(), q, a);
      ReachesStep(cfg, w, p, a, store.World(), q);
      q := StepProc(cfg, store.World(), q, a).1;
      store.RecordEvent(state.taskId, kind);
      return RaisedRetryable(error), q;
    }

    /** The state after a successful call, its checkpoint and its event. */
    method FinishToolCall(state: WorkflowState, tool: Tool, result: Json, a: Answer, ghost p: Proc)
      returns (outcome: Outcome, ghost q: Proc)
      requires Valid() && p.pc == Saving(FinishTool(tool, result)) && p.task == state.taskId && p.base == Some(state)
      modifies store
      ensures (store.World(), outcome) == ReportRun(old(store.World()), Achieved(cfg, state, tool, result),
                                                    ToolCompleted)
      ensures Reaches(cfg, old(store.World()), p, a, store.World(), q) && Settles(outcome, q)
      ensures q.task == p.task && q.delivery == p.delivery
    {
      hide StepProc, Reaches, Effect;
      var done := state.(toolCalls := state.toolCalls + 1);
      done := done.(evidence := done.evidence[tool := result]);
      if tool !in done.completedSteps {
        done := done.(completedSteps := done.completedSteps + [tool]);
      }
      done := done.(pendingAction := None);
      done := done.(currentStep := None);
      done := done.(lastError := None);
      done := done.(status := Queued);
      done := done.(progressHistory := done.progressHistory + [cfg.fingerprint(done.evidence)]);
      ToolEffect(cfg, state, tool, result, NoProgress);
      outcome, q := SaveAndReport(done, ToolCompleted, a, p);
    }

    /** `_execute_tool`: one guarded call, then the state after success or failure. */
    method ExecuteTool(state: WorkflowState, tool: Tool, arguments: Arguments, a: Answer, ghost p: Proc)
      returns (outcome: Outcome, ghost q: Proc)
      requires Valid() && p.pc == Machine.Execute(tool, arguments) && p.task == state.taskId && p.base == Some(state)
      modifies store
      ensures (store.World(), outcome) == ToolRun(cfg, old(store.World()), state, tool, arguments, a)
      ensures AsksBackend(cfg, old(store.World()), state, tool, arguments) && Fresh(old(store.World()), state) ==>
                AnswerKept(old(store.World()), store.World(), state, tool, a.backend, outcome)
      ensures Reaches(cfg, old(store.World()), p, a, store.World(), q) && Settles(outcome, q)
      ensures q.task == p.task && q.delivery == p.delivery
    {
      hide StepProc, Reaches, Machine.Execute, Effect, CallRun, ReportRun, RaiseRun, FailureRun, Achieved, AsksBackend,
           AnswerKept, Fresh, ToolRun;
      ghost var w := store.World();
      AnswersAreKept(cfg, w, state, tool, arguments, a);
      var executed, t := gateway.Execute(state, tool, arguments, a, p);
      ghost var v := store.World();
      AfterCall(cfg, w, state, tool, arguments, a, v, executed);
      match executed {
        case ToolUncaught =>
          return Uncaught, t;
        case ToolRetryable(error) =>
          var failed := state.(retries := state.retries + 1);
          failed := failed.(lastError := Some(error));
          failed := failed.(status := Queued);
          ToolEffect(cfg, state, tool, Null, error);
          outcome, q := SaveAndRaise(failed, ToolRetryableFailure, error, a, t);
        case ToolPermanent(error) =>
          ToolEffect(cfg, state, tool, Null, error);
          outcome, q := FailWorkflow(state, error, a, t);
        case ToolResult(result, _) =>
          outcome, q := FinishToolCall(state, tool, result, a, t);
      }
      ReachesJoin(cfg, w, p, a, v, t, store.World(), q);
    }

    /** `_resume_approved_action`. */
    method ResumeApprovedAction(state: WorkflowState, a: Answer, ghost p: Proc)
      returns (outcome: Outcome, ghost q: Proc)
      requires Valid() && p.pc == CheckingApproval && p.task == state.taskId && p.base == Some(state)
      requires state.pendingAction.Some?
      requires !state.status.WaitingForApproval?
      modifies store
      ensures (store.World(), outcome) == ResumeRun(cfg, old(store.World()), state, a)
      ensures Reaches(cfg, old(store.World()), p, a, store.World(), q) && Settles(outcome, q)
      ensures q.task == p.task && q.delivery == p.delivery
    {
      hide StepProc, Reaches, Machine.Execute;
      ghost var w := store.World();
      ReachesSelf(cfg, w, p, a);
      OnCheck(cfg, w, p, a);
      ReachesStep(cfg, w, p, a, w, p);
      q := StepProc(cfg, w, p, a).1;
      var pending := state.pendingAction.value;
      var approval := store.ApprovalStatus(state.taskId, pending.actionId);
      if approval != Some(Approved) {
        return Processed(state.(status := WaitingForApproval)), q;
      }
      OnEmit(cfg, w, q, a);
      ReachesStep(cfg, w, p, a, w, q);
      q := StepProc(cfg, w, q, a).1;
      store.RecordEvent(state.taskId, ApprovedActionResumed);
      ghost var v, t := store.World(), q;
      outcome, q := ExecuteTool(state, pending.tool, pending.arguments, a, t);
      ReachesJoin(cfg, w, p, a, v, t, store.World(), q);
    }

    /** The policy gate behind an accepted request: deny, park for a human, or execute. */
    method PassGate(state: WorkflowState, d: Decision, arguments: Arguments, policy: PolicyDecision,
            a: Answer, ghost p: Proc)
      returns (outcome: Outcome, ghost q: Proc)
      requires Valid() && d.action.UseTool? && ValidatedRequest(d) == Some(arguments)
      requires policy == Evaluate(d.tool.value, arguments)
      requires p.pc == AfterAccept(cfg, state.taskId, d) && p.task == state.taskId && p.base == Some(state)
      modifies store
      ensures (store.World(), outcome) == GateRun(cfg, old(store.World()), state, d, arguments, a)
      ensures Reaches(cfg, old(store.World()), p, a, store.World(), q) && Settles(outcome, q)
      ensures q.task == p.task && q.delivery == p.delivery
    {
      hide StepProc, Reaches, Machine.Execute, ValidatedRequest, Evaluate, Tables.SaveWorkflow;
      ghost var w := store.World();
      q := p;
      ReachesSelf(cfg, w, p, a);
      var tool := d.tool.value;
      RequestPolicy(d, arguments);
      if !policy.allowed {
        OnEmit(cfg, w, q, a);
        ReachesStep(cfg, w, p, a, w, q);
        q := StepProc(cfg, w, q, a).1;
        store.RecordEvent(state.taskId, PolicyDenied);
        ghost var v, t := store.World(), q;
        outcome, q := FailWorkflow(state, policy.reason, a, t);
        ReachesJoin(cfg, w, p, a, v, t, store.World(), q);
        return;
      }
      var actionId := gateway.ActionId(state, tool, arguments);
      if policy.approvalRequired {
        var waiting := state.(pendingAction := Some(PendingAction(actionId, tool, arguments, policy.risk,
                                                                  d.rationale)));
        waiting := waiting.(status := WaitingForApproval);
        outcome, q := ParkForApproval(waiting, actionId, a, p);
        return;
      }
      outcome, q := ExecuteTool(state, tool, arguments, a, p);
    }

    /** The waiting checkpoint comes first, its approval row second. */
    method ParkForApproval(state: WorkflowState, actionId: ActionId, a: Answer, ghost p: Proc)
      returns (outcome: Outcome, ghost q: Proc)
      requires Valid() && p.task == state.taskId && p.pc.Saving? && p.base.Some?
      requires state == Effect(cfg, p.base.value, p.pc.move)
      requires p.pc.move.Wait? && p.pc.move.action.actionId == actionId && state.status.WaitingForApproval?
      modifies store
      ensures (store.World(), outcome) == ParkRun(old(store.World()), state, actionId)
      ensures Reaches(cfg, old(store.World()), p, a, store.World(), q) && Settles(outcome, q)
      ensures q.task == p.task && q.delivery == p.delivery
    {
      hide StepProc, Reaches, Effect, Tables.SaveWorkflow;
      ghost var w := store.World();
      q := p;
      ReachesSelf(cfg, w, p, a);
      OnSave(cfg, w, q, a, state);
      ReachesStep(cfg, w, p, a, w, q);
      q := StepProc(cfg, w, q, a).1;
      var saved := store.SaveWorkflow(state, state.version);
      if saved.Err? {
        return RaisedRetryable(saved.error), q;
      }
      OnPut(cfg, store.World(), q, a);
      ReachesStep(cfg, w, p, a, store.World(), q);
      q := StepProc(cfg, store.World(), q, a).1;
      store.CreateApproval(state.taskId, actionId);
      OnEmit(cfg, store.World(), q, a);
      ReachesStep(cfg, w, p, a, store.World(), q);
      q := StepProc(cfg, store.World(), q, a).1;
      store.RecordEvent(state.taskId, ApprovalRequired);
      return Processed(saved.value), q;
    }

    /** A tool request: validation, loop guard, checkpoint, gate. */
    method RequestTool(state: WorkflowState, d: Decision, u: Usage, a: Answer, ghost p: Proc)
      returns (outcome: Outcome, ghost q: Proc)
      requires Valid() && d.action.UseTool? && p.base.Some? && p.task == state.taskId
      requires state == Decided(p.base.value, d, u) && p.pc == AfterDecision(cfg, p.base.value, d, u)
      modifies store
      ensures (store.World(), outcome) == RequestRun(cfg, old(store.World()), state, d, a)
      ensures Reaches(cfg, old(store.World()), p, a, store.World(), q) && Settles(outcome, q)
      ensures q.task == p.task && q.delivery == p.delivery
    {
      hide StepProc, Reaches, Machine.Execute, Evaluate, Validate, LoopReason, AfterAccept, Tables.SaveWorkflow;
      ghost var w := store.World();
      ReachesSelf(cfg, w, p, a);
      var tool := d.tool.value;
      var decided := gateway.ValidateAndDecide(tool, RequestedArguments(d.arguments));
      if decided.None? {
        return RaisedPermanent(InvalidArguments(tool)), p;
      }
      var (arguments, policy) := decided.value;
      var next := state.(currentStep := Some(tool));
      next := next.(toolHistory := next.toolHistory + [tool]);
      next := next.(progressHistory := next.progressHistory + [cfg.fingerprint(next.evidence)]);
      var reason := FindLoopReason(cfg, next.toolHistory, next.progressHistory);
      if reason.Some? {
        next := next.(status := LoopStopped);
        next := next.(lastError := reason);
        outcome, q := SaveAndReport(next, LoopDetected, a, p);
        return;
      }
      OnSave(cfg, w, p, a, next);
      ReachesStep(cfg, w, p, a, w, p);
      q := StepProc(cfg, w, p, a).1;
      var saved := store.SaveWorkflow(next, next.version);
      if saved.Err? {
        return RaisedRetryable(saved.error), q;
      }
      ghost var v, t := store.World(), q;
      outcome, q := PassGate(saved.value, d, arguments, policy, a, t);
      ReachesJoin(cfg, w, p, a, v, t, store.World(), q);
    }

    /** What `process` does with a decision. */
    method Act(state: WorkflowState, d: Decision, u: Usage, a: Answer, ghost p: Proc)
      returns (outcome: Outcome, ghost q: Proc)
      requires Valid() && p.task == state.taskId && p.base == Some(state)
      requires p.pc == Emitting(AgentDecisionMade, AfterDecision(cfg, state, d, u))
      modifies store
      ensures (store.World(), outcome) == ActRun(cfg, old(store.World()), state, d, u, a)
      ensures Reaches(cfg, old(store.World()), p, a, store.World(), q) && Settles(outcome, q)
      ensures q.task == p.task && q.delivery == p.delivery
    {
      hide StepProc, Reaches, RequestReason, ValidatedRequest, Effect, RequestRun, ReportRun;
      ghost var w := store.World();
      var next := state.(modelCalls := state.modelCalls + 1);
      next := next.(inputTokens := next.inputTokens + u.input);
      next := next.(outputTokens := next.outputTokens + u.output);
      ReachesSelf(cfg, w, p, a);
      OnEmit(cfg, w, p, a);
      ReachesStep(cfg, w, p, a, w, p);
      ghost var t := StepProc(cfg, w, p, a).1;
      store.RecordEvent(state.taskId, AgentDecisionMade);
      ghost var v := store.World();
      if Truthy(d.diagnosis) {
        next := next.(diagnosis := d.diagnosis);
      }
      if Truthy(d.remediation) {
        next := next.(remediation := d.remediation);
      }
      assert next == Decided(state, d, u) == Advised(state, d, u);
      DecisionEffect(cfg, state, d, u);
      match d.action {
        case Complete =>
          next := next.(status := Completed);
          next := next.(finalAnswer := d.finalAnswer);
          next := next.(currentStep := None);
          outcome, q := SaveAndReport(next, WorkflowCompleted, a, t);
        case Fail =>
          outcome, q := FailWorkflow(next, Text(d.rationale), a, t);
        case UseTool =>
          outcome, q := RequestTool(next, d, u, a, t);
      }
      ReachesJoin(cfg, w, p, a, v, t, store.World(), q);
    }

    /** The call of the engine, and what comes of its answer. */
    method AskEngine(state: WorkflowState, a: Answer, ghost p: Proc) returns (outcome: Outcome, ghost q: Proc)
      requires Valid() && p.pc == AskingEngine && p.task == state.taskId && p.base == Some(state)
      modifies store
      ensures (store.World(), outcome) == EngineRun(cfg, old(store.World()), state, a)
      ensures Reaches(cfg, old(store.World()), p, a, store.World(), q) && Settles(outcome, q)
      ensures q.task == p.task && q.delivery == p.delivery
    {
      hide StepProc, Reaches, AfterDecision, Effect, ActRun, RaiseRun;
      ghost var w := store.World();
      ReachesSelf(cfg, w, p, a);
      OnEngine(cfg, w, p, a);
      ReachesStep(cfg, w, p, a, w, p);
      ghost var t := StepProc(cfg, w, p, a).1;
      match a.engine {
        case EngineCrash =>
          return Uncaught, t;
        case EnginePermanent(message) =>
          return RaisedPermanent(Text(message)), t;
        case EngineRetryable(message) =>
          var failed := state.(retries := state.retries + 1);
          failed := failed.(status := Queued);
          failed := failed.(lastError := Some(Text(message)));
          EngineEffect(cfg, state, Text(message));
          outcome, q := SaveAndRaise(failed, ModelRetryableFailure, Text(message), a, t);
        case Decide(d, u) =>
          outcome, q := Act(state, d, u, a, t);
      }
      ReachesJoin(cfg, w, p, a, w, t, store.World(), q);
    }

    /** The decision step: a running checkpoint, its event, and the engine. */
    method DecideNext(state: WorkflowState, a: Answer, ghost p: Proc) returns (outcome: Outcome, ghost q: Proc)
      requires Valid() && p.pc == Saving(Start) && p.task == state.taskId && p.base == Some(state)
      modifies store
      ensures (store.World(), outcome) == DecisionRun(cfg, old(store.World()), state, a)
      ensures Fresh(old(store.World()), state) && !a.engine.Decide? ==>
                EngineErrorKept(old(store.World()), store.World(), state, a.engine, outcome)
      ensures Reaches(cfg, old(store.World()), p, a, store.World(), q) && Settles(outcome, q)
      ensures q.task == p.task && q.delivery == p.delivery
    {
      hide StepProc, Reaches, Tables.SaveWorkflow, EngineErrorKept, EngineRun, Effect;
      ghost var w := store.World();
      EngineErrorsAreKept(cfg, w, state, a);
      q := p;
      ReachesSelf(cfg, w, p, a);
      var running := state.(status := Running);
      running := running.(lastError := None);
      EngineEffect(cfg, state, NoProgress);
      OnSave(cfg, w, q, a, running);
      ReachesStep(cfg, w, p, a, w, q);
      q := StepProc(cfg, w, q, a).1;
      var saved := store.SaveWorkflow(running, running.version);
      if saved.Err? {
        return RaisedRetryable(saved.error), q;
      }
      OnEmit(cfg, store.World(), q, a);
      ReachesStep(cfg, w, p, a, store.World(), q);
      q := StepProc(cfg, store.World(), q, a).1;
      store.RecordEvent(state.taskId, AgentDecisionStarted);
      ghost var v, t := store.World(), q;
      outcome, q := AskEngine(saved.value, a, t);
      ReachesJoin(cfg, w, p, a, v, t, store.World(), q);
    }

    /**
     `process`: the tables and the outcome are those of one process that takes its steps alone, from the
     load to the settlement it owes.
     */
    method Process(task: TaskId, a: Answer, ghost p: Proc) returns (outcome: Outcome, ghost q: Proc)
      requires Valid() && p.task == task && p.pc == Loading(ToProcess)
      requires StoredUnderOwnId(store.World(), task)
      modifies store
      ensures (store.World(), outcome) == ProcessRun(cfg, old(store.World()), task, a)
      ensures Reaches(cfg, old(store.World()), p, a, store.World(), q) && Settles(outcome, q)
      ensures q.task == p.task && q.delivery == p.delivery
    {
      hide StepProc, Reaches;
      ghost var w := store.World();
      ReachesSelf(cfg, w, p, a);
      OnLoad(cfg, w, p, a);
      ReachesStep(cfg, w, p, a, w, p);
      ghost var t := StepProc(cfg, w, p, a).1;
      q := t;
      var loaded := store.GetWorkflow(task);
      if loaded.None? {
        return RaisedPermanent(UnknownWorkflow), q;
      }
      var state := loaded.value;
      if state.Terminal() || state.status.WaitingForApproval? {
        return Processed(state), q;
      }
      if state.pendingAction.Some? {
        outcome, q := ResumeApprovedAction(state, a, t);
      } else {
        outcome, q := DecideNext(state, a, t);
      }
      ReachesJoin(cfg, w, p, a, w, t, store.World(), q);
    }
  }

  /** The policy on a valid request. */
  lemma RequestPolicy(d: Decision, arguments: Arguments)
    requires d.action.UseTool? && ValidatedRequest(d) == Some(arguments)
    ensures var policy := Evaluate(d.tool.value, arguments);
            && (!policy.allowed <==> d.tool.value.DeleteDatabase?)
            && (policy.approvalRequired <==>
                  && d.tool.value.RestartService?
                  && Environment in arguments && arguments[Environment] == Str("production"))
            && (!policy.allowed ==> policy.reason == DeletionProhibited)
            && (policy.approvalRequired ==> policy.risk == High)
  {
    hide Validate, Evaluate, AnyCase;
    GateIsExact(d.tool.value, RequestedArguments(d.arguments));
    PolicyIsExact(d.tool.value, arguments);
  }

  /** The row of a task holds a state with that task id. */
  predicate StoredUnderOwnId(w: World, task: TaskId) {
    task in w.workflows ==> w.workflows[task].state.taskId == task
  }
}
