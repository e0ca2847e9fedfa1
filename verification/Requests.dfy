/** What becomes of a request, from the decision to the call: its arguments, the gate, the reasons for stopping it. */
module Requests {
  import opened Prelude
  import opened Models
  import opened Policy
  import opened Tools
  import opened Tables
  import opened LoopDetector
  import opened Checkpoints
  import opened CheckpointFacts
  import opened Machine
  import opened System
  import opened Refinement

  // ----- one request -----

  /** Exactly what the decision asks for, production where it names no environment. */
  predicate AsRequested(d: Decision, tool: Tool, arguments: Arguments) {
    var asked := d.arguments;
    && d.action.UseTool? && d.tool == Some(tool)
    && arguments.Keys == (if tool.DependencyHealth? then {Service, Environment, Dependency} else {Service, Environment})
    && asked.service.Some? && arguments[Service] == Str(asked.service.value)
    && arguments[Environment] == Str(if asked.environment.Some? then asked.environment.value else "production")
    && (tool.DependencyHealth? ==>
          arguments[Dependency] == if asked.dependency.Some? then Str(asked.dependency.value) else Null)
  }

  /** What the schema of the tool accepts; every tool request names a service that is not empty. */
  predicate Requestable(d: Decision) {
    var asked := d.arguments;
    && d.action.UseTool?
    && |asked.service.value| <= 100
    && (forall c | c in asked.service.value ::
          'a' <= c <= 'z' || 'A' <= c <= 'Z' || '0' <= c <= '9' || c == '_' || c == '-')
    && asked.environment in {None, Some("production"), Some("staging"), Some("test")}
    && (d.tool == Some(DependencyHealth) && asked.dependency.Some? ==> |asked.dependency.value| <= 100)
  }

  predicate RestartsProduction(d: Decision) {
    d.tool == Some(RestartService) && d.arguments.environment in {None, Some("production")}
  }

  /** Validation accepts exactly these requests, and hands on what they ask for. */
  lemma RequestIsExact(d: Decision)
    requires d.action.UseTool?
    ensures ValidatedRequest(d).Some? <==> Requestable(d)
    ensures ValidatedRequest(d).Some? ==> AsRequested(d, d.tool.value, ValidatedRequest(d).value)
  {
    hide Validate;
    ValidationIsExact(d.tool.value, RequestedArguments(d.arguments));
  }

  /** The gate, on the decision itself: of the valid requests, production restarts wait and the deletion is denied. */
  lemma GateOnRequest(d: Decision)
    requires d.action.UseTool? && ValidatedRequest(d).Some?
    ensures var policy := Evaluate(d.tool.value, ValidatedRequest(d).value);
            && (policy.approvalRequired <==> RestartsProduction(d))
            && (policy.allowed <==> d.tool != Some(DeleteDatabase))
            && (RestartsProduction(d) ==> policy.risk.High?)
            && (d.tool == Some(DeleteDatabase) ==> policy.reason.DeletionProhibited?)
  {
    hide Evaluate, ValidatedRequest, AnyCase;
    RequestIsExact(d);
    PolicyIsExact(d.tool.value, ValidatedRequest(d).value);
    var name := if d.arguments.environment.Some? then d.arguments.environment.value else "production";
    assert AnyCase(name, "production") <==> name == "production" by {
      EnvironmentCase(name);
    }
  }

  lemma EnvironmentCase(name: string)
    requires name in {"production", "staging", "test"}
    ensures AnyCase(name, "production") <==> name == "production"
  {
  }

  /** The id of the action: task, tool, and sixteen characters of the hash, or all of a shorter one. */
  predicate Identifies(cfg: Config, id: ActionId, task: TaskId, tool: Tool, arguments: Arguments) {
    && id.task == task && id.tool == tool
    && id.digest <= cfg.argumentsHash(arguments)
    && (|id.digest| == 16 || (|id.digest| < 16 && id.digest == cfg.argumentsHash(arguments)))
  }

  /** The action that waits for a human is the production restart that the decision asks for. */
  predicate ParkedFor(cfg: Config, task: TaskId, d: Decision, action: PendingAction) {
    && RestartsProduction(d)
    && AsRequested(d, action.tool, action.arguments)
    && Identifies(cfg, action.actionId, task, action.tool, action.arguments)
    && action.risk.High? && action.rationale == d.rationale
  }

  // ----- requests in a chain of checkpoints -----

  /**
   What follows an accepted request. It waits only if it restarts production, and then as the decision asks; it is
   executed only if it does not, and is neither denied; a denial has the reason of the deletion.
   */
  lemma RequestsAreGated(cfg: Config, task: TaskId, log: seq<Commit>, i: nat)
    requires cfg.Valid() && ValidLog(cfg, task, log) && i + 1 < |log| && log[i].move.Accept?
    ensures var d, next := log[i].move.decision, log[i + 1].move;
            && Requestable(d)
            && (next.Wait? ==> ParkedFor(cfg, task, d, next.action))
            && (next.FinishTool? ==> d.tool == Some(next.tool))
            && (next.FinishTool? || next.RetryTool? || next.FailRun? ==> !RestartsProduction(d))
            && (next.FinishTool? || next.RetryTool? ==> d.tool != Some(DeleteDatabase))
            && (next.FailRun? && d.tool == Some(DeleteDatabase) ==> next.error.DeletionProhibited?)
  {
    hide ValidLog, Evaluate, ValidatedRequest, Requestable, AsRequested, Validate, RequestReason;
    LogWellFormed(cfg, task, log, i);
    LinkOf(cfg, task, log, i + 1);
    var d := log[i].move.decision;
    RequestIsExact(d);
    GateOnRequest(d);
    ActionIdIsExact(cfg, task, d.tool.value, ValidatedRequest(d).value);
  }

  lemma LinkOf(cfg: Config, task: TaskId, log: seq<Commit>, i: nat)
    requires cfg.Valid() && ValidLog(cfg, task, log) && 0 < i < |log|
    ensures LinkedAt(cfg, log, i)
  {
  }

  /** Checkpoint j accepted the request that the action comes from. */
  ghost predicate RequestedAt(cfg: Config, task: TaskId, log: seq<Commit>, j: nat, action: PendingAction)
    requires j < |log|
  {
    log[j].move.Accept? && ParkedFor(cfg, task, log[j].move.decision, action)
  }

  /** A pending action, as long as it is pending, is the production restart that an accepted request asked for. */
  lemma {:induction false} PendingWasRequested(cfg: Config, task: TaskId, log: seq<Commit>, i: nat)
    requires cfg.Valid() && ValidLog(cfg, task, log) && i < |log| && log[i].state.pendingAction.Some?
    ensures exists j: nat | j < i :: RequestedAt(cfg, task, log, j, log[i].state.pendingAction.value)
  {
    hide ValidLog, Follows, ParkedFor, RequestReason;
    if i == 0 {
      FirstIsFresh(cfg, task, log);
    } else {
      LinkOf(cfg, task, log, i);
      if log[i].move.Wait? {
        WaitFollowsRequest(cfg, log, i);
        RequestsAreGated(cfg, task, log, i - 1);
        assert RequestedAt(cfg, task, log, i - 1, log[i].state.pendingAction.value);
      } else {
        PendingWasRequested(cfg, task, log, i - 1);
      }
    }
  }

  lemma FirstIsFresh(cfg: Config, task: TaskId, log: seq<Commit>)
    requires cfg.Valid() && ValidLog(cfg, task, log)
    ensures log != [] && log[0].state.pendingAction.None? && log[0].state.status.Queued? && !log[0].move.StopLoop?
  {
  }

  lemma WaitFollowsRequest(cfg: Config, log: seq<Commit>, i: nat)
    requires cfg.Valid() && 0 < i < |log| && LinkedAt(cfg, log, i) && log[i].move.Wait?
    ensures log[i - 1].move.Accept?
  {
  }

  /**
   Stopped means stopped by the guard, for the reason that `last_error` keeps: the budget, a repeated block, or
   missing progress, in this order, on the histories of the checkpoint itself. And what it let pass had none of them.
   */
  lemma StopsAreExplained(cfg: Config, task: TaskId, log: seq<Commit>, i: nat)
    requires cfg.Valid() && ValidLog(cfg, task, log) && i < |log|
    ensures var c, state := log[i], log[i].state;
            && (state.status.LoopStopped? <==> c.move.StopLoop?)
            && (state.status.LoopStopped? ==>
                  state.lastError.Some? && Explains(cfg, state.toolHistory, state.progressHistory, state.lastError))
            && (c.move.Accept? ==> Explains(cfg, state.toolHistory, state.progressHistory, None))
  {
    hide ValidLog, Linked, Explains, WellFormed;
    if i == 0 {
      FirstIsFresh(cfg, task, log);
      FreshIsCreated(cfg, task, log);
    } else {
      LogWellFormed(cfg, task, log, i - 1);
      LinkOf(cfg, task, log, i);
      OnlyGuardStops(cfg, task, log[i - 1], log[i]);
      GuardHasReasons(cfg, log[i - 1], log[i]);
      LoopReasonIsExact(cfg, log[i].state.toolHistory, log[i].state.progressHistory);
    }
  }

  lemma OnlyGuardStops(cfg: Config, task: TaskId, before: Commit, after: Commit)
    requires cfg.Valid() && WellFormed(cfg, task, before) && Linked(cfg, before, after)
    ensures after.state.status.LoopStopped? <==> after.move.StopLoop?
  {
    hide LoopReason, ValidatedRequest, GatedAction, MayExecuteTool, Denied, CallFailed, PendingFor;
  }

  lemma GuardHasReasons(cfg: Config, before: Commit, after: Commit)
    requires cfg.Valid() && Linked(cfg, before, after)
    ensures var reason := LoopReason(cfg, after.state.toolHistory, after.state.progressHistory);
            && (after.move.StopLoop? ==> reason.Some? && after.state.lastError == reason)
            && (after.move.Accept? ==> reason.None?)
  {
    hide LoopReason, ValidatedRequest, MayExecuteTool, Denied, CallFailed, PendingFor;
    if after.move.StopLoop? || after.move.Accept? {
      RequestSaves(cfg, before.state, after.move);
    }
  }

  lemma RequestSaves(cfg: Config, s: WorkflowState, m: Move)
    requires cfg.Valid() && IsRequest(m)
    ensures var r := AfterRequest(cfg, s, m.decision, m.usage);
            && Apply(cfg, s, m).toolHistory == r.toolHistory && Apply(cfg, s, m).progressHistory == r.progressHistory
            && (m.StopLoop? ==> Apply(cfg, s, m).lastError == RequestReason(cfg, s, m.decision, m.usage))
  {
    hide LoopReason;
  }

  lemma FreshIsCreated(cfg: Config, task: TaskId, log: seq<Commit>)
    requires cfg.Valid() && ValidLog(cfg, task, log)
    ensures log[0].move.Create?
  {
  }

  // ----- requests in every run -----

  /** In every run, a workflow that is stored as stopped shows its reason. */
  lemma StoppedWorkflowsAreExplained(cfg: Config, steps: seq<Step>, s: Sys, task: TaskId)
    requires cfg.Valid() && ReachedBy(cfg, steps, s) && task in s.world.workflows
    requires s.world.workflows[task].state.status.LoopStopped?
    ensures var state := s.world.workflows[task].state;
            state.lastError.Some? && Explains(cfg, state.toolHistory, state.progressHistory, state.lastError)
  {
    hide Run, Inv, ReachedBy, ValidLog, Explains;
    ReachedIsRun(cfg, steps, s);
    RunInv(cfg, steps);
    StoredIsLast(cfg, s, task);
    LogIsOk(cfg, s, task);
    StopsAreExplained(cfg, task, s.log[task], |s.log[task]| - 1);
  }

  /** Checkpoint j accepted the request that this call carries out. */
  ghost predicate CarriesOut(log: seq<Commit>, j: nat, tool: Tool, arguments: Arguments)
    requires j < |log|
  {
    log[j].move.Accept? && AsRequested(log[j].move.decision, tool, arguments)
  }

  /**
   In every run, whoever is about to call the backend does what an accepted request of a committed checkpoint asks
   for, argument by argument: the request of the checkpoint it works from, or, exactly for a restart of production,
   one that was parked, and whose action a human approved.
   */
  lemma CallsAreAsRequested(cfg: Config, steps: seq<Step>, s: Sys, pid: nat)
    requires cfg.Valid() && ReachedBy(cfg, steps, s) && pid in s.procs && s.procs[pid].pc.Calling?
    ensures var p := s.procs[pid];
            && p.base.Some? && p.task in s.log && p.base.value.version < |s.log[p.task]|
            && var log, i := s.log[p.task], p.base.value.version;
            var asked := p.pc.arguments;
            if p.pc.tool.RestartService? && Environment in asked && asked[Environment] == Str("production") then
              && (exists j: nat | j < i :: CarriesOut(log, j, p.pc.tool, p.pc.arguments))
              && (exists id :: Identifies(cfg, id, p.task, p.pc.tool, p.pc.arguments)
                    && (p.task, id) in s.world.approvals && s.world.approvals[(p.task, id)].Approved?)
            else CarriesOut(log, i, p.pc.tool, p.pc.arguments)
  {
    hide Run, Inv, ReachedBy, ValidLog, Follows, Evaluate, ValidatedRequest, AsRequested, Identifies, Validate;
    ReachedIsRun(cfg, steps, s);
    RunInv(cfg, steps);
    var p := s.procs[pid];
    ProcIsOk(cfg, s, pid);
    LogIsOk(cfg, s, p.task);
    var log, i := s.log[p.task], p.base.value.version;
    LogWellFormed(cfg, p.task, log, i);
    CallIsAsRequested(cfg, p.task, log, i, p.pc.tool, p.pc.arguments);
    if NeedsApproval(p.pc.tool, p.pc.arguments) {
      ActionIdIsExact(cfg, p.task, p.pc.tool, p.pc.arguments);
      assert Identifies(cfg, KeyOf(cfg, p), p.task, p.pc.tool, p.pc.arguments) by { KeyIdentifies(cfg, p); }
    }
  }

  lemma KeyIdentifies(cfg: Config, p: Proc)
    requires p.pc.Calling?
    ensures Identifies(cfg, KeyOf(cfg, p), p.task, p.pc.tool, p.pc.arguments)
  {
    ActionIdIsExact(cfg, p.task, p.pc.tool, p.pc.arguments);
  }

  /** The same of a checkpoint that allows the call. */
  lemma CallIsAsRequested(cfg: Config, task: TaskId, log: seq<Commit>, i: nat, tool: Tool, arguments: Arguments)
    requires cfg.Valid() && ValidLog(cfg, task, log) && i < |log| && MayExecute(log[i], tool, arguments)
    ensures NeedsApproval(tool, arguments) <==>
              tool.RestartService? && Environment in arguments && arguments[Environment] == Str("production")
    ensures NeedsApproval(tool, arguments) ==> exists j: nat | j < i :: CarriesOut(log, j, tool, arguments)
    ensures !NeedsApproval(tool, arguments) ==> CarriesOut(log, i, tool, arguments)
  {
    hide ValidLog, Evaluate, ValidatedRequest, AsRequested, Validate, GatedAction, Identifies, ParkedFor;
    LogWellFormed(cfg, task, log, i);
    GateIsExact(tool, arguments);
    if DirectlyExecutable(log[i], tool, arguments) {
      RequestIsExact(log[i].move.decision);
    } else {
      ResumedIsGated(cfg, task, log[i]);
      PendingWasRequested(cfg, task, log, i);
      var j: nat :| j < i && RequestedAt(cfg, task, log, j, log[i].state.pendingAction.value);
      ParkedIsRequested(cfg, task, log[j].move.decision, log[i].state.pendingAction.value);
      assert CarriesOut(log, j, tool, arguments);
    }
  }

  lemma ResumedIsGated(cfg: Config, task: TaskId, c: Commit)
    requires WellFormed(cfg, task, c) && c.state.pendingAction.Some?
    ensures NeedsApproval(c.state.pendingAction.value.tool, c.state.pendingAction.value.arguments)
  {
  }

  lemma ParkedIsRequested(cfg: Config, task: TaskId, d: Decision, action: PendingAction)
    requires ParkedFor(cfg, task, d, action)
    ensures AsRequested(d, action.tool, action.arguments)
  {
  }

  // ----- answers in every run -----

  /** One checkpoint more for the task, with this state, which is stored as well. */
  ghost predicate Commits(s: Sys, r: Sys, task: TaskId, state: WorkflowState) {
    && task in s.log && task in r.log && task in r.world.workflows
    && (exists move :: r.log == s.log[task := s.log[task] + [Commit(move, state)]])
    && r.world.workflows[task] == WorkflowRow(state, state.version)
  }

  /**
   The backend's answer under any interleaving. Whatever others did between the call (in `s`) and the next step of the
   process (in `r`), a permanent error is checkpointed as the end of the workflow, with its text and no retry; a
   retryable one, or a result that is no filled object, as queued again with one retry more; and nothing else is.
   */
  lemma AnswersReachTheCheckpoint(cfg: Config, s: Sys, pid: nat, a: Answer, r: Sys, b: Answer)
    requires cfg.Valid() && pid in s.procs && s.procs[pid].pc.Calling? && s.procs[pid].base.Some?
    requires pid in r.procs && r.procs[pid] == Do(cfg, s, Advance(pid, a)).procs[pid]
    requires var p := s.procs[pid];
             p.task == p.base.value.taskId && p.task in r.log && VersionMatches(r.world, p.task, p.base.value.version)
    ensures var p, t := s.procs[pid], Do(cfg, r, Advance(pid, b));
            var before := p.base.value;
            match a.backend
            case BackendPermanent(message) =>
              Commits(r, t, p.task, before.(status := Failed, lastError := Some(Text(message)), currentStep := None,
                                            version := before.version + 1))
            case BackendRetryable(message) =>
              Commits(r, t, p.task,
                      before.(status := Queued, lastError := Some(Text(message)), retries := before.retries + 1,
                                            version := before.version + 1))
            case BackendCrash => t.log == r.log && t.world == r.world
            case Returned(result) =>
              if result.Obj? && result.fields != map[] then
                t.log == r.log && t.world == r.world.(ledger := t.world.ledger)
              else
                Commits(r, t, p.task, before.(status := Queued, lastError := Some(InvalidToolOutput(p.pc.tool)),
                                              retries := before.retries + 1, version := before.version + 1))
  {
    hide Effect, AfterSave, SeenNow, EngineStep, ResumeStep, LookupStep, RetryStep, ResolveStep, AcknowledgeStep,
         AfterLoad, Enqueue;
    var p := s.procs[pid];
    BackendMoves(cfg, s, pid, a);
    if r.procs[pid].pc.Saving? {
      FailureEffect(cfg, p.base.value, r.procs[pid].pc.move);
      MoveCommits(cfg, r, pid, b);
    }
  }

  lemma BackendMoves(cfg: Config, s: Sys, pid: nat, a: Answer)
    requires cfg.Valid() && pid in s.procs && s.procs[pid].pc.Calling?
    ensures pid in Do(cfg, s, Advance(pid, a)).procs
    ensures var p, q := s.procs[pid], Do(cfg, s, Advance(pid, a)).procs[pid];
            q == p.(pc := match a.backend
                          case BackendPermanent(message) => Saving(FailRun(Text(message)))
                          case BackendRetryable(message) => Saving(RetryTool(Text(message)))
                          case BackendCrash => Halted
                          case Returned(result) =>
                            if result.Obj? && result.fields != map[] then Recording(p.pc.tool, p.pc.arguments, result)
                            else Saving(RetryTool(InvalidToolOutput(p.pc.tool))))
  {
    hide SaveStep, EngineStep, ResumeStep, LookupStep, RecordStep, RetryStep, ResolveStep, AcknowledgeStep,
         AfterLoad, Enqueue;
  }

  lemma FailureEffect(cfg: Config, s: WorkflowState, m: Move)
    requires cfg.Valid()
    ensures m.FailRun? ==>
              Apply(cfg, s, m) == s.(status := Failed, lastError := Some(m.error), currentStep := None,
                                     version := s.version + 1)
    ensures m.RetryTool? ==>
              Apply(cfg, s, m) == s.(status := Queued, lastError := Some(m.error), retries := s.retries + 1,
                                     version := s.version + 1)
  {
  }

  lemma MoveCommits(cfg: Config, s: Sys, pid: nat, a: Answer)
    requires cfg.Valid() && pid in s.procs && s.procs[pid].pc.Saving? && s.procs[pid].base.Some?
    requires var p := s.procs[pid];
             p.task == p.base.value.taskId && p.task in s.log && VersionMatches(s.world, p.task, p.base.value.version)
    ensures var p := s.procs[pid];
            Commits(s, Do(cfg, s, Advance(pid, a)), p.task, Apply(cfg, p.base.value, p.pc.move))
  {
    hide Effect, AfterSave, SeenNow, EngineStep, ResumeStep, LookupStep, RecordStep, RetryStep, ResolveStep,
         AcknowledgeStep, AfterLoad, Enqueue, AfterBackend;
    ApplyKeepsTask(cfg, s.procs[pid].base.value, s.procs[pid].pc.move);
  }

  /**
   The engine's errors under any interleaving: a retryable one is checkpointed, with one retry more; a permanent one is
   not, but acknowledges the row and goes on to the handler that fails the workflow with its text.
   */
  lemma EngineErrorsReachTheCheckpoint(cfg: Config, s: Sys, pid: nat, a: Answer, r: Sys, b: Answer)
    requires cfg.Valid() && pid in s.procs && s.procs[pid].pc.AskingEngine? && s.procs[pid].base.Some?
    requires !a.engine.Decide?
    requires pid in r.procs && r.procs[pid] == Do(cfg, s, Advance(pid, a)).procs[pid]
    requires var p := s.procs[pid];
             && p.delivery.Some? && p.delivery.value.id < |r.world.queue|
             && p.task == p.base.value.taskId && p.task in r.log && VersionMatches(r.world, p.task, p.base.value.version)
    ensures var p, t := s.procs[pid], Do(cfg, r, Advance(pid, b));
            var before, id := p.base.value, p.delivery.value.id;
            match a.engine
            case EnginePermanent(message) =>
              && t.log == r.log && pid in t.procs && t.procs[pid].pc == Loading(ToFail(Text(message)))
              && t.world == r.world.(queue := r.world.queue[id := r.world.queue[id].(status := Done, leaseUntil := None)])
            case EngineRetryable(message) =>
              Commits(r, t, p.task,
                      before.(status := Queued, lastError := Some(Text(message)), retries := before.retries + 1,
                                            version := before.version + 1))
            case EngineCrash => t.log == r.log && t.world == r.world
            case Decide(_, _) => true
  {
    hide Effect, AfterSave, SeenNow, ResumeStep, LookupStep, RecordStep, RetryStep, ResolveStep, AfterLoad, Enqueue,
         AfterBackend, AfterDecision;
    var p := s.procs[pid];
    EngineMoves(cfg, s, pid, a);
    if a.engine.EngineRetryable? {
      RetryEffect(cfg, p.base.value, Text(a.engine.message));
      MoveCommits(cfg, r, pid, b);
    }
  }

  lemma EngineMoves(cfg: Config, s: Sys, pid: nat, a: Answer)
    requires cfg.Valid() && pid in s.procs && s.procs[pid].pc.AskingEngine? && s.procs[pid].base.Some?
    requires !a.engine.Decide?
    ensures pid in Do(cfg, s, Advance(pid, a)).procs
    ensures var p, q := s.procs[pid], Do(cfg, s, Advance(pid, a)).procs[pid];
            q == p.(pc := match a.engine
                          case EnginePermanent(message) => Acknowledging(FailAfter(Text(message)))
                          case EngineRetryable(message) => Saving(ModelRetry(Text(message)))
                          case EngineCrash => Halted
                          case Decide(_, _) => q.pc)
  {
    hide SaveStep, ResumeStep, LookupStep, RecordStep, RetryStep, ResolveStep, AcknowledgeStep, AfterLoad, Enqueue,
         AfterBackend, AfterDecision;
  }

  lemma RetryEffect(cfg: Config, s: WorkflowState, error: Reason)
    requires cfg.Valid()
    ensures Apply(cfg, s, ModelRetry(error)) ==
            s.(status := Queued, lastError := Some(error), retries := s.retries + 1, version := s.version + 1)
  {
  }
}
