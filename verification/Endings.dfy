/** What a delivery comes to, case by case and field by field, when nobody else touches the tables. */
module Endings {
  import opened Prelude
  import opened Models
  import opened Tools
  import opened LoopDetector
  import opened Tables
  import opened Store
  import opened Deliveries
  import opened Requests

  // ----- a claimed row and its end -----

  /** The delivery is of a row, and the workflow is stored under its own id and version. */
  predicate Underway(w: World, d: Delivery, s: WorkflowState) {
    && d.id < |w.queue| && d.task == s.taskId
    && d.task in w.workflows && w.workflows[d.task] == WorkflowRow(s, s.version)
  }

  function DoneRow(row: QueueRow): QueueRow {
    row.(status := Done, leaseUntil := None)
  }

  function DelayedRow(cfg: Config, row: QueueRow, attempts: nat, now: real): QueueRow {
    row.(status := Pending, availableAt := now + RetryDelay(cfg.retryBaseSeconds, attempts), leaseUntil := None,
         worker := None)
  }

  function DeadRow(row: QueueRow, now: real): QueueRow {
    row.(status := Dead, availableAt := now, leaseUntil := None, worker := None)
  }

  function EventsOf(task: TaskId, kinds: seq<EventKind>): (events: seq<Event>)
    ensures |events| == |kinds|
  {
    if kinds == [] then [] else EventsOf(task, kinds[..|kinds| - 1]) + [Event(task, kinds[|kinds| - 1])]
  }

  /** The row and the workflow are like this afterwards, these events were added, and nothing else is different. */
  predicate Leaves(w: World, d: Delivery, v: World, row: QueueRow, s: WorkflowState, kinds: seq<EventKind>)
    requires d.id < |w.queue|
  {
    v == w.(queue := w.queue[d.id := row], workflows := w.workflows[d.task := WorkflowRow(s, s.version)],
            events := w.events + EventsOf(d.task, kinds))
  }

  /** The workflow, saved for another try, is tried again after the delay, or dead-lettered if that was the last one. */
  predicate TriesAgain(cfg: Config, w: World, d: Delivery, v: World, now: real, s: WorkflowState, kinds: seq<EventKind>)
    requires d.id < |w.queue|
  {
    if d.attempts < d.maxAttempts then Leaves(w, d, v, DelayedRow(cfg, w.queue[d.id], d.attempts, now), s, kinds)
    else Leaves(w, d, v, DeadRow(w.queue[d.id], now), s.(status := DeadLettered, version := s.version + 1),
                kinds + [DeadLetteredEvent])
  }

  lemma EventsSnoc(task: TaskId, kinds: seq<EventKind>, kind: EventKind)
    ensures EventsOf(task, kinds + [kind]) == EventsOf(task, kinds) + [Event(task, kind)]
  {
    assert (kinds + [kind])[..|kinds + [kind]| - 1] == kinds;
  }

  /** On the way: the workflow was saved like this, and these events were added. */
  predicate Amid(w: World, d: Delivery, x: World, s: WorkflowState, kinds: seq<EventKind>) {
    && d.id < |w.queue| && d.task == s.taskId
    && x == w.(workflows := w.workflows[d.task := WorkflowRow(s, s.version)],
               events := w.events + EventsOf(d.task, kinds))
  }

  lemma AtFirst(w: World, d: Delivery, s: WorkflowState)
    requires Underway(w, d, s)
    ensures Amid(w, d, w, s, [])
  {
    assert w.workflows[d.task := w.workflows[d.task]] == w.workflows;
    assert w.events + [] == w.events;
  }

  lemma Saves(w: World, d: Delivery, x: World, s: WorkflowState, kinds: seq<EventKind>, t: WorkflowState)
    requires Amid(w, d, x, s, kinds) && t.taskId == s.taskId && t.version == s.version
    ensures Fresh(x, t) && Amid(w, d, Stored(x, t), Stamped(t), kinds)
  {
    var row := WorkflowRow(Stamped(t), t.version + 1);
    assert x.workflows[d.task := row] == w.workflows[d.task := row];
  }

  lemma Notes(w: World, d: Delivery, x: World, s: WorkflowState, kinds: seq<EventKind>, t: WorkflowState,
          kind: EventKind)
    requires Amid(w, d, x, s, kinds) && t.taskId == s.taskId
    ensures Amid(w, d, Noted(x, t, kind), s, kinds + [kind])
  {
    EventsSnoc(d.task, kinds, kind);
    assert w.events + EventsOf(d.task, kinds) + [Event(d.task, kind)] == w.events + EventsOf(d.task, kinds + [kind]);
  }

  /** A workflow that is reported ended or waiting: the row is done. */
  lemma ReportEnds(cfg: Config, w: World, d: Delivery, x: World, s: WorkflowState, kinds: seq<EventKind>,
          t: WorkflowState, kind: EventKind, now: real)
    requires Amid(w, d, x, s, kinds) && t.taskId == s.taskId && t.version == s.version && !t.status.Queued?
    ensures var (y, outcome) := ReportRun(x, t, kind);
            var (v, result) := SettleRun(cfg, y, d, outcome, now);
            result == Worked && Leaves(w, d, v, DoneRow(w.queue[d.id]), t.(version := t.version + 1), kinds + [kind])
  {
    hide Amid, Noted, Stored, Fresh;
    Saves(w, d, x, s, kinds, t);
    Notes(w, d, Stored(x, t), Stamped(t), kinds, t, kind);
    AmidSettles(w, d, Noted(Stored(x, t), t, kind), Stamped(t), kinds + [kind]);
  }

  lemma AmidSettles(w: World, d: Delivery, x: World, s: WorkflowState, kinds: seq<EventKind>)
    requires Amid(w, d, x, s, kinds)
    ensures Leaves(w, d, Acknowledged(x, d.id), DoneRow(w.queue[d.id]), s, kinds)
  {
  }

  /** An error that is raised again: the row is delayed, or dead. */
  lemma RetryEnds(cfg: Config, w: World, d: Delivery, x: World, s: WorkflowState, kinds: seq<EventKind>,
          error: Reason, now: real)
    requires Amid(w, d, x, s, kinds) && !s.Terminal() && s.lastError == Some(error)
    ensures var (v, result) := SettleRun(cfg, x, d, RaisedRetryable(error), now);
            result == Worked && TriesAgain(cfg, w, d, v, now, s, kinds)
  {
    hide Noted, Stored, Fresh;
    if d.attempts >= d.maxAttempts {
      var dead := w.(queue := w.queue[d.id := DeadRow(w.queue[d.id], now)]);
      var y := x.(queue := dead.queue);
      assert Amid(dead, d, y, s, kinds);
      ConcludeCases(y, d.task, DeadLettered, error, DeadLetteredEvent);
      Saves(dead, d, y, s, kinds, s.(status := DeadLettered, lastError := Some(error)));
      Notes(dead, d, Stored(y, s.(status := DeadLettered, lastError := Some(error))),
            Stamped(s.(status := DeadLettered, lastError := Some(error))), kinds, s, DeadLetteredEvent);
    }
  }

  /** A permanent error that nobody has saved yet: the row is done, and the handler fails the workflow. */
  lemma RaiseEnds(cfg: Config, w: World, d: Delivery, x: World, s: WorkflowState, kinds: seq<EventKind>,
          error: Reason, now: real)
    requires Amid(w, d, x, s, kinds) && !s.Terminal()
    ensures var (v, result) := SettleRun(cfg, x, d, RaisedPermanent(error), now);
            && result == Worked
            && Leaves(w, d, v, DoneRow(w.queue[d.id]),
                      s.(status := Failed, lastError := Some(error), version := s.version + 1),
                      kinds + [WorkflowFailed])
  {
    hide Noted, Stored, Fresh;
    var done := w.(queue := w.queue[d.id := DoneRow(w.queue[d.id])]);
    var y, failed := x.(queue := done.queue), s.(status := Failed, lastError := Some(error));
    assert Amid(done, d, y, s, kinds);
    ConcludeCases(y, d.task, Failed, error, WorkflowFailed);
    Saves(done, d, y, s, kinds, failed);
    Notes(done, d, Stored(y, failed), Stamped(failed), kinds, s, WorkflowFailed);
  }

  // ----- nothing to do -----

  /** Ended and waiting workflows are only acknowledged, and so is one whose pending action nobody approved. */
  lemma NothingToDo(cfg: Config, w: World, d: Delivery, s: WorkflowState, a: Answer)
    requires cfg.Valid() && Underway(w, d, s)
    requires || s.status in {Completed, Failed, DeadLettered, LoopStopped, HumanRejected, WaitingForApproval}
             || (s.pendingAction.Some? &&
                 ((d.task, s.pendingAction.value.actionId) in w.approvals ==>
                    !w.approvals[(d.task, s.pendingAction.value.actionId)].Approved?))
    ensures DeliveryRun(cfg, w, d, a) == (w.(queue := w.queue[d.id := DoneRow(w.queue[d.id])]), Worked)
  {
    hide ToolRun, DecisionRun;
  }

  /** A delivery without a workflow is only acknowledged. */
  lemma UnknownWorkflowIsDropped(cfg: Config, w: World, d: Delivery, a: Answer)
    requires cfg.Valid() && d.task !in w.workflows && d.id < |w.queue|
    ensures DeliveryRun(cfg, w, d, a) == (w.(queue := w.queue[d.id := DoneRow(w.queue[d.id])]), Worked)
  {
  }

  // ----- the engine -----

  /** Queued or running with nothing pending: the engine is asked. */
  predicate AtDecision(s: WorkflowState) {
    (s.status.Queued? || s.status.Running?) && s.pendingAction.None?
  }

  /** The tables and the workflow as the engine sees them. */
  lemma EngineSees(cfg: Config, w: World, d: Delivery, s: WorkflowState) returns (x: World, t: WorkflowState)
    requires cfg.Valid() && Underway(w, d, s) && AtDecision(s)
    ensures t == s.(status := Running, lastError := None, version := s.version + 1)
    ensures Amid(w, d, x, t, [AgentDecisionStarted])
    ensures forall a: Answer {:trigger ProcessRun(cfg, w, d.task, a)} ::
              ProcessRun(cfg, w, d.task, a) ==
                match a.engine
                case EngineCrash => (x, Uncaught)
                case EnginePermanent(message) => (x, RaisedPermanent(Text(message)))
                case EngineRetryable(message) =>
                  RaiseRun(x, t.(retries := t.retries + 1, status := Queued, lastError := Some(Text(message))),
                           ModelRetryableFailure, Text(message))
                case Decide(dec, u) => ActRun(cfg, x, t, dec, u, a)
  {
    hide ActRun, RaiseRun, Noted, Stored, Fresh;
    var running := s.(status := Running, lastError := None);
    AtFirst(w, d, s);
    Saves(w, d, w, s, [], running);
    t := Stamped(running);
    x := Noted(Stored(w, running), s, AgentDecisionStarted);
    Notes(w, d, Stored(w, running), t, [], s, AgentDecisionStarted);
    assert [] + [AgentDecisionStarted] == [AgentDecisionStarted];
  }

  /**
   Errors of the engine. A permanent one fails the workflow at once, with its text and no retry, and the delivery is
   done; a retryable one counts a retry and queues it again; after a crash it is running, and the row still leased.
   */
  lemma EngineErrorsEnd(cfg: Config, w: World, d: Delivery, s: WorkflowState, a: Answer)
    requires cfg.Valid() && Underway(w, d, s) && AtDecision(s)
    ensures var (v, result) := DeliveryRun(cfg, w, d, a);
            match a.engine
            case EnginePermanent(message) =>
              && result == Worked
              && Leaves(w, d, v, DoneRow(w.queue[d.id]),
                        s.(status := Failed, lastError := Some(Text(message)), version := s.version + 2),
                        [AgentDecisionStarted, WorkflowFailed])
            case EngineRetryable(message) =>
              && result == Worked
              && TriesAgain(cfg, w, d, v, a.now,
                            s.(status := Queued, lastError := Some(Text(message)), retries := s.retries + 1,
                               version := s.version + 2),
                            [AgentDecisionStarted, ModelRetryableFailure])
            case EngineCrash =>
              && result == Escaped
              && Leaves(w, d, v, w.queue[d.id], s.(status := Running, lastError := None, version := s.version + 1),
                        [AgentDecisionStarted])
            case Decide(_, _) => true
  {
    hide ProcessRun, DecisionRun, ActRun, Noted, Stored, Fresh, Leaves, TriesAgain, ConcludeRun;
    var x, t := EngineSees(cfg, w, d, s);
    assert [AgentDecisionStarted] + [WorkflowFailed] == [AgentDecisionStarted, WorkflowFailed];
    assert [AgentDecisionStarted] + [ModelRetryableFailure] == [AgentDecisionStarted, ModelRetryableFailure];
    match a.engine {
      case EnginePermanent(message) =>
        RaiseEnds(cfg, w, d, x, t, [AgentDecisionStarted], Text(message), a.now);
      case EngineRetryable(message) =>
        var failed := t.(retries := t.retries + 1, status := Queued, lastError := Some(Text(message)));
        Saves(w, d, x, t, [AgentDecisionStarted], failed);
        Notes(w, d, Stored(x, failed), Stamped(failed), [AgentDecisionStarted], failed, ModelRetryableFailure);
        RetryEnds(cfg, w, d, Noted(Stored(x, failed), failed, ModelRetryableFailure), Stamped(failed),
                  [AgentDecisionStarted] + [ModelRetryableFailure], Text(message), a.now);
      case EngineCrash =>
        AmidLeaves(w, d, x, t, [AgentDecisionStarted]);
      case Decide(_, _) =>
    }
  }

  lemma AmidLeaves(w: World, d: Delivery, x: World, s: WorkflowState, kinds: seq<EventKind>)
    requires Amid(w, d, x, s, kinds)
    ensures x.ledger == w.ledger && d.task == s.taskId
    ensures Leaves(w, d, x, w.queue[d.id], s, kinds)
  {
    assert w.queue[d.id := w.queue[d.id]] == w.queue;
  }

  // ----- decisions -----

  /** The workflow with what a decision brings: its cost, and its diagnosis and remediation, if it has any. */
  function Brought(s: WorkflowState, dec: Decision, u: Usage): WorkflowState {
    s.(status := Running, lastError := None, modelCalls := s.modelCalls + 1,
       inputTokens := s.inputTokens + u.input, outputTokens := s.outputTokens + u.output,
       diagnosis := if dec.diagnosis.Some? && dec.diagnosis.value != "" then dec.diagnosis else s.diagnosis,
       remediation := if dec.remediation.Some? && dec.remediation.value != "" then dec.remediation else s.remediation)
  }

  lemma DecisionSees(cfg: Config, w: World, d: Delivery, s: WorkflowState, dec: Decision, u: Usage)
    returns (x: World, t: WorkflowState)
    requires cfg.Valid() && Underway(w, d, s) && AtDecision(s)
    ensures t == Brought(s, dec, u).(version := s.version + 1)
    ensures Amid(w, d, x, s.(status := Running, lastError := None, version := s.version + 1),
                 [AgentDecisionStarted, AgentDecisionMade])
    ensures forall a: Answer {:trigger ProcessRun(cfg, w, d.task, a)} | a.engine == Decide(dec, u) ::
              ProcessRun(cfg, w, d.task, a) ==
                match dec.action
                case Complete =>
                  ReportRun(x, t.(status := Completed, finalAnswer := dec.finalAnswer, currentStep := None),
                            WorkflowCompleted)
                case Fail => FailureRun(x, t, Text(dec.rationale))
                case UseTool => RequestRun(cfg, x, t, dec, a)
  {
    hide DecisionRun, ProcessRun, RequestRun, ReportRun, RaiseRun, FailureRun, Noted, Amid;
    var y, running := EngineSees(cfg, w, d, s);
    x, t := Noted(y, running, AgentDecisionMade), Advised(running, dec, u);
    Notes(w, d, y, running, [AgentDecisionStarted], running, AgentDecisionMade);
    assert [AgentDecisionStarted] + [AgentDecisionMade] == [AgentDecisionStarted, AgentDecisionMade];
  }

  /**
   The final decisions. A completion keeps the answer, a failure the rationale; both count the model call, its tokens,
   and what else the decision brings, and the delivery is done.
   */
  lemma DecisionsEnd(cfg: Config, w: World, d: Delivery, s: WorkflowState, dec: Decision, u: Usage, a: Answer)
    requires cfg.Valid() && Underway(w, d, s) && AtDecision(s) && a.engine == Decide(dec, u)
    ensures var (v, result) := DeliveryRun(cfg, w, d, a);
            var t := Brought(s, dec, u).(currentStep := None, version := s.version + 2);
            match dec.action
            case Complete =>
              && result == Worked
              && Leaves(w, d, v, DoneRow(w.queue[d.id]), t.(status := Completed, finalAnswer := dec.finalAnswer),
                        [AgentDecisionStarted, AgentDecisionMade, WorkflowCompleted])
            case Fail =>
              && result == Worked
              && Leaves(w, d, v, DoneRow(w.queue[d.id]), t.(status := Failed, lastError := Some(Text(dec.rationale))),
                        [AgentDecisionStarted, AgentDecisionMade, WorkflowFailed])
            case UseTool => true
  {
    hide ProcessRun, DecisionRun, RequestRun, ReportRun, SettleRun, Noted, Stored, Fresh, Leaves, Amid;
    var x, t := DecisionSees(cfg, w, d, s, dec, u);
    var before := s.(status := Running, lastError := None, version := s.version + 1);
    var kinds := [AgentDecisionStarted, AgentDecisionMade];
    match dec.action {
      case Complete =>
        assert kinds + [WorkflowCompleted] == [AgentDecisionStarted, AgentDecisionMade, WorkflowCompleted];
        ReportEnds(cfg, w, d, x, before, kinds,
                   t.(status := Completed, finalAnswer := dec.finalAnswer, currentStep := None),
                   WorkflowCompleted, a.now);
      case Fail =>
        assert kinds + [WorkflowFailed] == [AgentDecisionStarted, AgentDecisionMade, WorkflowFailed];
        ReportEnds(cfg, w, d, x, before, kinds,
                   t.(status := Failed, lastError := Some(Text(dec.rationale)), currentStep := None),
                   WorkflowFailed, a.now);
      case UseTool =>
    }
  }

  // ----- requests -----

  /** The workflow with a request in its histories. */
  function WithRequest(cfg: Config, s: WorkflowState, dec: Decision, u: Usage): WorkflowState
    requires dec.tool.Some?
  {
    Brought(s, dec, u).(currentStep := dec.tool, toolHistory := s.toolHistory + [dec.tool.value],
                        progressHistory := s.progressHistory + [cfg.fingerprint(s.evidence)])
  }

  /** Neither the budget nor the repetition nor missing progress stops it. */
  ghost predicate Passes(cfg: Config, t: WorkflowState) {
    Explains(cfg, t.toolHistory, t.progressHistory, None)
  }

  /** The histories stop the request, for this reason. */
  ghost predicate StopsFor(cfg: Config, t: WorkflowState, reason: Reason) {
    Explains(cfg, t.toolHistory, t.progressHistory, Some(reason))
  }

  /**
   Requests that come to nothing. What the schema rejects fails the workflow, and nothing of the decision is kept; what
   the guard stops is kept in the histories, with its reason; the deletion is checkpointed, denied, and fails.
   */
  lemma RefusedRequestsEnd(cfg: Config, w: World, d: Delivery, s: WorkflowState, dec: Decision, u: Usage, a: Answer)
    requires cfg.Valid() && Underway(w, d, s) && AtDecision(s) && a.engine == Decide(dec, u) && dec.action.UseTool?
    ensures var (v, result) := DeliveryRun(cfg, w, d, a);
            var t := WithRequest(cfg, s, dec, u).(version := s.version + 2);
            && (!Requestable(dec) ==>
                  && result == Worked
                  && Leaves(w, d, v, DoneRow(w.queue[d.id]),
                            s.(status := Failed, lastError := Some(InvalidArguments(dec.tool.value)),
                               version := s.version + 2),
                            [AgentDecisionStarted, AgentDecisionMade, WorkflowFailed]))
            && (Requestable(dec) && !Passes(cfg, t) ==>
                  && result == Worked
                  && exists reason :: StopsFor(cfg, t, reason) &&
                       Leaves(w, d, v, DoneRow(w.queue[d.id]), t.(status := LoopStopped, lastError := Some(reason)),
                              [AgentDecisionStarted, AgentDecisionMade, LoopDetected]))
            && (Requestable(dec) && Passes(cfg, t) && dec.tool == Some(DeleteDatabase) ==>
                  && result == Worked
                  && Leaves(w, d, v, DoneRow(w.queue[d.id]),
                            t.(status := Failed, lastError := Some(DeletionProhibited), currentStep := None,
                               version := s.version + 3),
                            [AgentDecisionStarted, AgentDecisionMade, PolicyDenied, WorkflowFailed]))
  {
    hide ProcessRun, DecisionRun, ReportRun, SettleRun, Noted, Stored, Fresh, Leaves, Amid, Explains, Validate,
         Requestable, AsRequested, RequestedArguments, LoopReason, ToolRun, ParkRun, ConcludeRun;
    var x, t := DecisionSees(cfg, w, d, s, dec, u);
    var before := s.(status := Running, lastError := None, version := s.version + 1);
    var kinds, tool := [AgentDecisionStarted, AgentDecisionMade], dec.tool.value;
    assert kinds + [WorkflowFailed] == [AgentDecisionStarted, AgentDecisionMade, WorkflowFailed];
    assert kinds + [LoopDetected] == [AgentDecisionStarted, AgentDecisionMade, LoopDetected];
    assert kinds + [PolicyDenied] + [WorkflowFailed]
        == [AgentDecisionStarted, AgentDecisionMade, PolicyDenied, WorkflowFailed];
    RequestIsExact(dec);
    var next := Tried(cfg, t, tool);
    LoopReasonIsExact(cfg, next.toolHistory, next.progressHistory);
    if !Requestable(dec) {
      RaiseEnds(cfg, w, d, x, before, kinds, InvalidArguments(tool), a.now);
    } else {
      var reason := LoopReason(cfg, next.toolHistory, next.progressHistory);
      if reason.Some? {
        ReportEnds(cfg, w, d, x, before, kinds, next.(status := LoopStopped, lastError := reason), LoopDetected, a.now);
        assert StopsFor(cfg, next, reason.value);
        if Passes(cfg, next) {
          OneExplanation(cfg, next.toolHistory, next.progressHistory, reason, None);
        }
      } else if tool.DeleteDatabase? {
        Saves(w, d, x, before, kinds, next);
        var y := Stored(x, next);
        Notes(w, d, y, Stamped(next), kinds, Stamped(next), PolicyDenied);
        ReportEnds(cfg, w, d, Noted(y, Stamped(next), PolicyDenied), Stamped(next), kinds + [PolicyDenied],
                   Stamped(next).(status := Failed, lastError := Some(DeletionProhibited),
                                  currentStep := None), WorkflowFailed, a.now);
      }
    }
  }

  /**
   A request to restart production. It is checkpointed, then the waiting workflow with the action as the decision asks
   for it, then the approval row, undecided unless there was one; the delivery is done, and nothing is queued.
   */
  lemma ProductionRestartsWait(cfg: Config, w: World, d: Delivery, s: WorkflowState, dec: Decision, u: Usage, a: Answer)
    requires cfg.Valid() && Underway(w, d, s) && AtDecision(s) && a.engine == Decide(dec, u) && dec.action.UseTool?
    requires Requestable(dec) && RestartsProduction(dec) && Passes(cfg, WithRequest(cfg, s, dec, u))
    ensures var (v, result) := DeliveryRun(cfg, w, d, a);
            && result == Worked
            && exists action :: ParkedFor(cfg, d.task, dec, action) &&
                 var t := WithRequest(cfg, s, dec, u).(
                   status := WaitingForApproval, pendingAction := Some(action), version := s.version + 3);
                 var key := (d.task, action.actionId);
                 v == w.(queue := w.queue[d.id := DoneRow(w.queue[d.id])],
                         workflows := w.workflows[d.task := WorkflowRow(t, t.version)],
                         approvals := if key in w.approvals then w.approvals else w.approvals[key := Undecided],
                         events := w.events + EventsOf(d.task,
                                                       [AgentDecisionStarted, AgentDecisionMade, ApprovalRequired]))
  {
    hide ProcessRun, DecisionRun, Explains, Validate, Requestable, AsRequested, RequestedArguments, LoopReason,
         ToolRun, Amid, Noted, Stored, Fresh, Identifies;
    var x, t := DecisionSees(cfg, w, d, s, dec, u);
    var before := s.(status := Running, lastError := None, version := s.version + 1);
    var kinds, tool := [AgentDecisionStarted, AgentDecisionMade], RestartService;
    var arguments, y, next := RequestPasses(cfg, w, d, s, dec, u, x, t, a);
    ActionIdIsExact(cfg, d.task, tool, arguments);
    var action := PendingAction(ActionIdOf(cfg, d.task, tool, arguments), tool, arguments, High, dec.rationale);
    assert ParkedFor(cfg, d.task, dec, action) by { KeyIdentifies(cfg, d.task, tool, arguments); }
    var parked := next.(status := WaitingForApproval, pendingAction := Some(action));
    assert Environment in arguments && arguments[Environment] == Str("production") by {
      AsksForProduction(dec, arguments);
    }
    Parks(cfg, w, d, y, next, kinds, parked, a.now);
    assert kinds + [ApprovalRequired] == [AgentDecisionStarted, AgentDecisionMade, ApprovalRequired];
  }

  lemma KeyIdentifies(cfg: Config, task: TaskId, tool: Tool, arguments: Arguments)
    ensures Identifies(cfg, ActionIdOf(cfg, task, tool, arguments), task, tool, arguments)
  {
    ActionIdIsExact(cfg, task, tool, arguments);
  }

  lemma AsksForProduction(dec: Decision, arguments: Arguments)
    requires AsRequested(dec, RestartService, arguments)
    ensures Environment in arguments
    ensures arguments[Environment] == Str("production") <==> dec.arguments.environment in {None, Some("production")}
  {
  }

  /** The checkpoint of an accepted request, with the gate ahead. */
  lemma RequestPasses(cfg: Config, w: World, d: Delivery, s: WorkflowState, dec: Decision, u: Usage,
          x: World, t: WorkflowState, a: Answer)
    returns (arguments: Arguments, y: World, next: WorkflowState)
    requires cfg.Valid() && Underway(w, d, s) && dec.action.UseTool?
    requires t == Brought(s, dec, u).(version := s.version + 1)
    requires Amid(w, d, x, s.(status := Running, lastError := None, version := s.version + 1),
                  [AgentDecisionStarted, AgentDecisionMade])
    requires Requestable(dec) && Passes(cfg, WithRequest(cfg, s, dec, u))
    ensures AsRequested(dec, dec.tool.value, arguments) && Validate(dec.tool.value, arguments) == Some(arguments)
    ensures next == WithRequest(cfg, s, dec, u).(version := s.version + 2)
    ensures Amid(w, d, y, next, [AgentDecisionStarted, AgentDecisionMade])
    ensures RequestRun(cfg, x, t, dec, a) == GateRun(cfg, y, next, dec, arguments, a)
  {
    hide Amid, Noted, Stored, Fresh, Explains, Validate, Requestable, AsRequested, RequestedArguments,
         LoopReason, GateRun;
    var before := s.(status := Running, lastError := None, version := s.version + 1);
    RequestIsExact(dec);
    arguments := Validate(dec.tool.value, RequestedArguments(dec.arguments)).value;
    ValidateIdempotent(dec.tool.value, RequestedArguments(dec.arguments));
    var tried := Tried(cfg, t, dec.tool.value);
    LoopReasonIsExact(cfg, tried.toolHistory, tried.progressHistory);
    OneExplanation(cfg, tried.toolHistory, tried.progressHistory,
                   LoopReason(cfg, tried.toolHistory, tried.progressHistory), None);
    Saves(w, d, x, before, [AgentDecisionStarted, AgentDecisionMade], tried);
    y, next := Stored(x, tried), Stamped(tried);
  }

  lemma Parks(cfg: Config, w: World, d: Delivery, x: World, s: WorkflowState, kinds: seq<EventKind>,
          parked: WorkflowState, now: real)
    requires Amid(w, d, x, s, kinds) && parked.taskId == s.taskId && parked.version == s.version
    requires parked.status.WaitingForApproval? && parked.pendingAction.Some?
    ensures var id := parked.pendingAction.value.actionId;
            var (y, outcome) := ParkRun(x, parked, id);
            var (v, result) := SettleRun(cfg, y, d, outcome, now);
            && result == Worked
            && v == w.(queue := w.queue[d.id := DoneRow(w.queue[d.id])],
                       workflows := w.workflows[d.task := WorkflowRow(Stamped(parked), s.version + 1)],
                       approvals := if (d.task,
                                        id) in w.approvals then w.approvals else w.approvals[(d.task, id) := Undecided],
                       events := w.events + EventsOf(d.task, kinds + [ApprovalRequired]))
  {
    hide Noted, Stored, Fresh;
    Saves(w, d, x, s, kinds, parked);
    var y := Stored(x, parked);
    var id := parked.pendingAction.value.actionId;
    var asked := if (s.taskId, id) in y.approvals then y else y.(approvals := y.approvals[(s.taskId, id) := Undecided]);
    var wider := w.(approvals := asked.approvals);
    assert Amid(wider, d, asked, Stamped(parked), kinds);
    Notes(wider, d, asked, Stamped(parked), kinds, parked, ApprovalRequired);
    AmidSettles(wider, d, Noted(asked, parked, ApprovalRequired), Stamped(parked), kinds + [ApprovalRequired]);
  }

  // ----- calls -----

  /** A request that passes and neither deletes nor restarts production is carried out, as the decision asks. */
  lemma RequestsAreCarriedOut(cfg: Config, w: World, d: Delivery, s: WorkflowState, dec: Decision, u: Usage, a: Answer)
    returns (arguments: Arguments, x: World)
    requires cfg.Valid() && Underway(w, d, s) && AtDecision(s) && a.engine == Decide(dec, u) && dec.action.UseTool?
    requires Requestable(dec) && !RestartsProduction(dec) && dec.tool != Some(DeleteDatabase)
    requires Passes(cfg, WithRequest(cfg, s, dec, u))
    ensures var t := WithRequest(cfg, s, dec, u).(version := s.version + 2);
            && AsRequested(dec, dec.tool.value, arguments)
            && Amid(w, d, x, t, [AgentDecisionStarted, AgentDecisionMade])
            && ProcessRun(cfg, w, d.task, a) == ToolRun(cfg, x, t, dec.tool.value, arguments, a)
  {
    hide ProcessRun, DecisionRun, Explains, Validate, Requestable, AsRequested, RequestedArguments, LoopReason,
         ToolRun, Amid, Noted, Stored, Fresh;
    var y, t := DecisionSees(cfg, w, d, s, dec, u);
    var next;
    arguments, x, next := RequestPasses(cfg, w, d, s, dec, u, y, t, a);
    if dec.tool.value.RestartService? {
      AsksForProduction(dec, arguments);
    }
  }

  /** An approved action is carried out as it was parked. */
  lemma ApprovedActionsAreCarriedOut(cfg: Config, w: World, d: Delivery, s: WorkflowState, a: Answer) returns (x: World)
    requires cfg.Valid() && Underway(w, d, s) && (s.status.Queued? || s.status.Running?) && s.pendingAction.Some?
    requires (d.task, s.pendingAction.value.actionId) in w.approvals
    requires w.approvals[(d.task, s.pendingAction.value.actionId)].Approved?
    ensures Amid(w, d, x, s, [ApprovedActionResumed])
    ensures ProcessRun(cfg, w, d.task, a) == ToolRun(cfg, x, s, s.pendingAction.value.tool,
                                                     s.pendingAction.value.arguments, a)
  {
    hide ToolRun, DecisionRun, Noted;
    AtFirst(w, d, s);
    x := Noted(w, s, ApprovedActionResumed);
    Notes(w, d, w, s, [], s, ApprovedActionResumed);
    assert [] + [ApprovedActionResumed] == [ApprovedActionResumed];
  }

  /** The workflow with a finished call. */
  function WithResult(cfg: Config, s: WorkflowState, tool: Tool, result: Json): WorkflowState {
    var evidence := s.evidence[tool := result];
    s.(status := Queued, toolCalls := s.toolCalls + 1, evidence := evidence,
       completedSteps := if tool in s.completedSteps then s.completedSteps else s.completedSteps + [tool],
       progressHistory := s.progressHistory + [cfg.fingerprint(evidence)],
       pendingAction := None, currentStep := None, lastError := None)
  }

  /** The tool is done: its result is evidence, the delivery is done, and the workflow has a live row for the next. */
  predicate Advances(cfg: Config, w: World, d: Delivery, v: World, now: real, s: WorkflowState, kinds: seq<EventKind>,
          tool: Tool, result: Json)
    requires d.id < |w.queue|
  {
    var t := WithResult(cfg, s, tool, result).(version := s.version + 1);
    var rows := w.queue[d.id := DoneRow(w.queue[d.id])];
    && v.workflows == w.workflows[d.task := WorkflowRow(t, t.version)]
    && v.events == w.events + EventsOf(d.task, kinds + [ToolCompleted])
    && v.approvals == w.approvals
    && v.queue ==
         if exists row | row in rows :: row.task == d.task && (row.status.Pending? || row.status.Processing?) then rows
         else rows + [QueueRow(d.task, Pending, 0, cfg.maxQueueAttempts, now, None, None)]
  }

  /** A new ledger row under the key of the call, and no other change of the ledger. */
  ghost predicate Records(cfg: Config, w: World, v: World, task: TaskId, tool: Tool, raw: Arguments, result: Json) {
    exists id, arguments :: Validate(tool, raw) == Some(arguments) && Identifies(cfg, id, task, tool, arguments) &&
      v.ledger == w.ledger[id := LedgerRow(task, tool, cfg.argumentsHash(arguments), result)]
  }

  lemma KeyRecords(cfg: Config, w: World, v: World, task: TaskId, tool: Tool, raw: Arguments, result: Json)
    requires Validate(tool, raw).Some?
    requires var arguments := Validate(tool, raw).value;
             v.ledger == w.ledger[ActionIdOf(cfg, task, tool,
                                             arguments) := LedgerRow(task, tool, cfg.argumentsHash(arguments), result)]
    ensures Records(cfg, w, v, task, tool, raw, result)
  {
    hide Identifies, Validate;
    KeyIdentifies(cfg, task, tool, Validate(tool, raw).value);
  }

  /** A workflow that is returned queued: the row is done, and there is a live one. */
  lemma QueuedEnds(cfg: Config, w: World, d: Delivery, x: World, s: WorkflowState, kinds: seq<EventKind>, now: real)
    requires Amid(w, d, x, s, kinds) && s.status.Queued?
    ensures var rows := w.queue[d.id := DoneRow(w.queue[d.id])];
            SettleRun(cfg, x, d, Processed(s), now) ==
              (w.(workflows := w.workflows[d.task := WorkflowRow(s, s.version)],
                  events := w.events + EventsOf(d.task, kinds),
                  queue :=
                    if exists row | row in rows :: row.task == d.task && (row.status.Pending? || row.status.Processing?)
                    then rows else rows + [QueueRow(d.task, Pending, 0, cfg.maxQueueAttempts, now, None, None)]),
               Worked)
  {
    hide HasLive;
    LiveRows(Acknowledged(x, d.id).queue, d.task);
  }

  lemma AchievedIsResult(cfg: Config, s: WorkflowState, tool: Tool, result: Json)
    ensures Achieved(cfg, s, tool, result) == WithResult(cfg, s, tool, result)
    ensures var t := Achieved(cfg, s, tool, result);
            t.taskId == s.taskId && t.version == s.version && t.status == Queued
  {
  }

  lemma AchievedAdvances(cfg: Config, w: World, d: Delivery, x: World, s: WorkflowState, kinds: seq<EventKind>,
          tool: Tool, result: Json, now: real)
    requires Amid(w.(ledger := x.ledger), d, x, s, kinds)
    ensures var (y, outcome) := ReportRun(x, Achieved(cfg, s, tool, result), ToolCompleted);
            var (v, r) := SettleRun(cfg, y, d, outcome, now);
            r == Worked && v.ledger == x.ledger && Advances(cfg, w, d, v, now, s, kinds, tool, result)
  {
    hide Noted, Stored, Fresh, Amid, Achieved, WithResult, SettleRun;
    AchievedIsResult(cfg, s, tool, result);
    var t := Achieved(cfg, s, tool, result);
    var wider := w.(ledger := x.ledger);
    Saves(wider, d, x, s, kinds, t);
    Notes(wider, d, Stored(x, t), Stamped(t), kinds, t, ToolCompleted);
    QueuedEnds(cfg, wider, d, Noted(Stored(x, t), t, ToolCompleted), Stamped(t), kinds + [ToolCompleted], now);
  }

  /**
   The answers of the backend. A permanent error fails the workflow at once, with its text and no retry; a retryable one
   counts a retry and queues it again; a result that is no filled object counts as a retryable error; a result is
   recorded under its key and then kept as evidence; after a crash nothing has happened, and the row is still leased.
   */
  lemma BackendAnswersEnd(cfg: Config, w: World, d: Delivery, x: World, s: WorkflowState, kinds: seq<EventKind>,
          tool: Tool, raw: Arguments, a: Answer)
    requires Amid(w, d, x, s, kinds) && (s.status.Queued? || s.status.Running?) && AsksBackend(cfg, w, s, tool, raw)
    ensures var (y, outcome) := ToolRun(cfg, x, s, tool, raw, a);
            var (v, result) := SettleRun(cfg, y, d, outcome, a.now);
            match a.backend
            case BackendPermanent(message) =>
              && result == Worked
              && Leaves(w, d, v, DoneRow(w.queue[d.id]),
                        s.(status := Failed, lastError := Some(Text(message)), currentStep := None,
                           version := s.version + 1),
                        kinds + [WorkflowFailed])
            case BackendRetryable(message) =>
              && result == Worked
              && TriesAgain(cfg, w, d, v, a.now,
                            s.(status := Queued, lastError := Some(Text(message)), retries := s.retries + 1,
                               version := s.version + 1),
                            kinds + [ToolRetryableFailure])
            case BackendCrash => result == Escaped && Leaves(w, d, v, w.queue[d.id], s, kinds)
            case Returned(output) =>
              && result == Worked
              && if output.Obj? && output.fields != map[] then
                   && Advances(cfg, w, d, v, a.now, s, kinds, tool, output)
                   && Records(cfg, w, v, d.task, tool, raw, output)
                 else
                   TriesAgain(cfg, w, d, v, a.now,
                              s.(status := Queued, lastError := Some(InvalidToolOutput(tool)), retries := s.retries + 1,
                                 version := s.version + 1),
                              kinds + [ToolRetryableFailure])
  {
    hide Noted, Stored, Fresh, Leaves, TriesAgain, Advances, Validate, SettleRun, Achieved, ActionIdOf, Amid, Records,
         ToolRun, RaiseRun, ReportRun, AsksBackend;
    AmidLeaves(w, d, x, s, kinds);
    BackendIsAsked(cfg, w, x, s, tool, raw, a);
    match a.backend {
      case BackendPermanent(message) =>
        var failed := s.(status := Failed, lastError := Some(Text(message)), currentStep := None);
        ReportEnds(cfg, w, d, x, s, kinds, failed, WorkflowFailed, a.now);
      case BackendRetryable(message) => RetryableEnds(cfg, w, d, x, s, kinds, Text(message), a.now);
      case BackendCrash => UncaughtEscapes(cfg, x, d, a.now);
      case Returned(output) =>
        if output.Obj? && output.fields != map[] {
          ReturnedEnds(cfg, w, d, x, s, kinds, tool, raw, a);
        } else {
          RetryableEnds(cfg, w, d, x, s, kinds, InvalidToolOutput(tool), a.now);
        }
    }
  }

  lemma BackendIsAsked(cfg: Config, w: World, x: World, s: WorkflowState, tool: Tool, raw: Arguments, a: Answer)
    requires AsksBackend(cfg, w, s, tool, raw) && x.ledger == w.ledger
    ensures var failed := s.(retries := s.retries + 1, status := Queued);
            match a.backend
            case BackendCrash => ToolRun(cfg, x, s, tool, raw, a) == (x, Uncaught)
            case BackendPermanent(message) => ToolRun(cfg, x, s, tool, raw, a) == FailureRun(x, s, Text(message))
            case BackendRetryable(message) =>
              ToolRun(cfg, x, s, tool, raw, a) ==
              RaiseRun(x, failed.(lastError := Some(Text(message))), ToolRetryableFailure, Text(message))
            case Returned(output) =>
              !(output.Obj? && output.fields != map[]) ==>
                ToolRun(cfg, x, s, tool, raw, a) ==
                RaiseRun(x, failed.(lastError := Some(InvalidToolOutput(tool))), ToolRetryableFailure,
                         InvalidToolOutput(tool))
  {
    hide Validate, ActionIdOf, FailureRun, RaiseRun, ReportRun, Achieved;
  }

  lemma ReturnedEnds(cfg: Config, w: World, d: Delivery, x: World, s: WorkflowState, kinds: seq<EventKind>,
          tool: Tool, raw: Arguments, a: Answer)
    requires Amid(w, d, x, s, kinds) && AsksBackend(cfg, w, s, tool, raw)
    requires a.backend.Returned? && a.backend.result.Obj? && a.backend.result.fields != map[]
    ensures var (y, outcome) := ToolRun(cfg, x, s, tool, raw, a);
            var (v, result) := SettleRun(cfg, y, d, outcome, a.now);
            && result == Worked && Advances(cfg, w, d, v, a.now, s, kinds, tool, a.backend.result)
            && Records(cfg, w, v, d.task, tool, raw, a.backend.result)
  {
    hide Advances, Validate, SettleRun, Achieved, ActionIdOf, Records, ReportRun;
    var arguments, output := Validate(tool, raw).value, a.backend.result;
    var id := ActionIdOf(cfg, d.task, tool, arguments);
    var y := x.(ledger := x.ledger[id := LedgerRow(d.task, tool, cfg.argumentsHash(arguments), output)]);
    AchievedAdvances(cfg, w, d, y, s, kinds, tool, output, a.now);
    var (z, outcome) := ToolRun(cfg, x, s, tool, raw, a);
    KeyRecords(cfg, w, SettleRun(cfg, z, d, outcome, a.now).0, d.task, tool, raw, output);
  }

  lemma RetryableEnds(cfg: Config, w: World, d: Delivery, x: World, s: WorkflowState, kinds: seq<EventKind>,
          error: Reason, now: real)
    requires Amid(w, d, x, s, kinds)
    ensures var t := s.(status := Queued, lastError := Some(error), retries := s.retries + 1, version := s.version + 1);
            var failed := s.(retries := s.retries + 1, lastError := Some(error), status := Queued);
            var (y, outcome) := RaiseRun(x, failed, ToolRetryableFailure, error);
            var (v, result) := SettleRun(cfg, y, d, outcome, now);
            result == Worked && TriesAgain(cfg, w, d, v, now, t, kinds + [ToolRetryableFailure])
  {
    hide Noted, Stored, Fresh, TriesAgain, SettleRun, Amid;
    var failed := s.(retries := s.retries + 1, lastError := Some(error), status := Queued);
    Saves(w, d, x, s, kinds, failed);
    Notes(w, d, Stored(x, failed), Stamped(failed), kinds, failed, ToolRetryableFailure);
    RetryEnds(cfg, w, d, Noted(Stored(x, failed), failed, ToolRetryableFailure), Stamped(failed),
              kinds + [ToolRetryableFailure], error, now);
  }

  lemma UncaughtEscapes(cfg: Config, w: World, d: Delivery, now: real)
    ensures SettleRun(cfg, w, d, Uncaught, now) == (w, Escaped)
  {
  }

  /** A recorded result is used as it is, whatever the backend would say; another hash under its key ends the worker. */
  lemma RecordedResultsEnd(cfg: Config, w: World, d: Delivery, x: World, s: WorkflowState, kinds: seq<EventKind>,
          tool: Tool, raw: Arguments, a: Answer)
    requires Amid(w, d, x, s, kinds) && (s.status.Queued? || s.status.Running?)
    requires Validate(tool, raw).Some? && !tool.DeleteDatabase?
    requires ActionIdOf(cfg, d.task, tool, Validate(tool, raw).value) in w.ledger
    ensures var (y, outcome) := ToolRun(cfg, x, s, tool, raw, a);
            var (v, result) := SettleRun(cfg, y, d, outcome, a.now);
            var arguments := Validate(tool, raw).value;
            var record := w.ledger[ActionIdOf(cfg, d.task, tool, arguments)];
            if record.argumentsHash == cfg.argumentsHash(arguments) then
              result == Worked && v.ledger == w.ledger && Advances(cfg, w, d, v, a.now, s, kinds, tool, record.result)
            else result == Escaped && Leaves(w, d, v, w.queue[d.id], s, kinds)
  {
    hide Noted, Stored, Fresh, Leaves, Advances, Validate, SettleRun, Achieved, ActionIdOf;
    var arguments := Validate(tool, raw).value;
    var record := w.ledger[ActionIdOf(cfg, d.task, tool, arguments)];
    if record.argumentsHash == cfg.argumentsHash(arguments) {
      AchievedAdvances(cfg, w, d, x, s, kinds, tool, record.result, a.now);
    } else {
      AmidLeaves(w, d, x, s, kinds);
      UncaughtEscapes(cfg, x, d, a.now);
    }
  }

  // ----- all errors, by row and workflow -----

  /** Failed with this text and no retry more; the row is done. */
  predicate EndsFailed(w: World, d: Delivery, v: World, message: string) {
    && d.id < |v.queue| && v.queue[d.id].status.Done? && d.task in w.workflows && d.task in v.workflows
    && var before, after := w.workflows[d.task].state, v.workflows[d.task].state;
    after.status.Failed? && after.lastError == Some(Text(message)) && after.retries == before.retries
  }

  /** One retry more with this text: queued with a delayed row, or, after the last attempt, both dead. */
  predicate EndsRetried(cfg: Config, w: World, d: Delivery, v: World, now: real, message: string) {
    && d.id < |v.queue| && d.task in w.workflows && d.task in v.workflows
    && var before, after, row := w.workflows[d.task].state, v.workflows[d.task].state, v.queue[d.id];
    && after.lastError == Some(Text(message)) && after.retries == before.retries + 1
    && if d.attempts < d.maxAttempts then
         row.status.Pending? && row.availableAt == now + RetryDelay(cfg.retryBaseSeconds,
                                                                    d.attempts) && after.status.Queued?
       else row.status.Dead? && after.status.DeadLettered?
  }

  /** The delivery comes to the backend: by an approved action, or by a request that passes and needs no approval. */
  ghost predicate BackendAsked(cfg: Config, w: World, s: WorkflowState, engine: EngineAnswer) {
    && (s.status.Queued? || s.status.Running?)
    && if s.pendingAction.Some? then
         var pending := s.pendingAction.value;
         && (s.taskId, pending.actionId) in w.approvals && w.approvals[(s.taskId, pending.actionId)].Approved?
         && AsksBackend(cfg, w, s, pending.tool, pending.arguments)
       else
         && engine.Decide? && engine.decision.action.UseTool?
         && Requestable(engine.decision) && !RestartsProduction(engine.decision)
         && Passes(cfg, WithRequest(cfg, s, engine.decision, engine.usage))
         && exists arguments :: AsRequested(engine.decision, engine.decision.tool.value, arguments) &&
              AsksBackend(cfg, w, s, engine.decision.tool.value, arguments)
  }

  /** What the errors of engine and backend come to. */
  ghost predicate ErrorsEnd(cfg: Config, w: World, d: Delivery, a: Answer, v: World) {
    forall s | Underway(w, d, s) ::
      && (AtDecision(s) ==>
            && (a.engine.EnginePermanent? ==> EndsFailed(w, d, v, a.engine.message))
            && (a.engine.EngineRetryable? ==> EndsRetried(cfg, w, d, v, a.now, a.engine.message)))
      && (BackendAsked(cfg, w, s, a.engine) ==>
            && (a.backend.BackendPermanent? ==> EndsFailed(w, d, v, a.backend.message))
            && (a.backend.BackendRetryable? ==> EndsRetried(cfg, w, d, v, a.now, a.backend.message)))
  }

  lemma LeavesFailed(w: World, d: Delivery, v: World, s: WorkflowState, t: WorkflowState,
          kinds: seq<EventKind>, message: string)
    requires Underway(w, d, s) && Leaves(w, d, v, DoneRow(w.queue[d.id]), t, kinds)
    requires t.status.Failed? && t.lastError == Some(Text(message)) && t.retries == s.retries
    ensures EndsFailed(w, d, v, message)
  {
  }

  lemma LeavesRetried(cfg: Config, w: World, d: Delivery, v: World, now: real, s: WorkflowState, t: WorkflowState,
          kinds: seq<EventKind>, message: string)
    requires Underway(w, d, s) && TriesAgain(cfg, w, d, v, now, t, kinds)
    requires t.status.Queued? && t.lastError == Some(Text(message)) && t.retries == s.retries + 1
    ensures EndsRetried(cfg, w, d, v, now, message)
  {
  }

  lemma EngineErrorEnds(cfg: Config, w: World, d: Delivery, s: WorkflowState, a: Answer)
    requires cfg.Valid() && Underway(w, d, s) && AtDecision(s)
    ensures var v := DeliveryRun(cfg, w, d, a).0;
            && (a.engine.EnginePermanent? ==> EndsFailed(w, d, v, a.engine.message))
            && (a.engine.EngineRetryable? ==> EndsRetried(cfg, w, d, v, a.now, a.engine.message))
  {
    hide DeliveryRun, Leaves, TriesAgain, EndsFailed, EndsRetried;
    EngineErrorsEnd(cfg, w, d, s, a);
    var v, kinds := DeliveryRun(cfg, w, d, a).0, [AgentDecisionStarted, WorkflowFailed];
    if a.engine.EnginePermanent? {
      var t := s.(status := Failed, lastError := Some(Text(a.engine.message)), version := s.version + 2);
      LeavesFailed(w, d, v, s, t, kinds, a.engine.message);
    } else if a.engine.EngineRetryable? {
      var t := s.(status := Queued, lastError := Some(Text(a.engine.message)), retries := s.retries + 1,
                  version := s.version + 2);
      LeavesRetried(cfg, w, d, v, a.now, s, t, [AgentDecisionStarted, ModelRetryableFailure], a.engine.message);
    }
  }

  lemma CallErrorEnds(cfg: Config, w: World, d: Delivery, s: WorkflowState, x: World, t: WorkflowState,
          kinds: seq<EventKind>,
          tool: Tool, raw: Arguments, a: Answer)
    requires cfg.Valid() && Underway(w, d, s) && Amid(w, d, x, t, kinds) && (t.status.Queued? || t.status.Running?)
    requires t.retries == s.retries && AsksBackend(cfg, w, t, tool, raw)
    requires ProcessRun(cfg, w, d.task, a) == ToolRun(cfg, x, t, tool, raw, a)
    ensures var v := DeliveryRun(cfg, w, d, a).0;
            && (a.backend.BackendPermanent? ==> EndsFailed(w, d, v, a.backend.message))
            && (a.backend.BackendRetryable? ==> EndsRetried(cfg, w, d, v, a.now, a.backend.message))
  {
    hide ProcessRun, ToolRun, SettleRun, Leaves, TriesAgain, EndsFailed, EndsRetried, Amid, Advances, Records,
         AsksBackend;
    BackendAnswersEnd(cfg, w, d, x, t, kinds, tool, raw, a);
    var v := DeliveryRun(cfg, w, d, a).0;
    if a.backend.BackendPermanent? {
      var failed := t.(status := Failed, lastError := Some(Text(a.backend.message)), currentStep := None,
                       version := t.version + 1);
      LeavesFailed(w, d, v, s, failed, kinds + [WorkflowFailed], a.backend.message);
    } else if a.backend.BackendRetryable? {
      var failed := t.(status := Queued, lastError := Some(Text(a.backend.message)), retries := t.retries + 1,
                       version := t.version + 1);
      LeavesRetried(cfg, w, d, v, a.now, s, failed, kinds + [ToolRetryableFailure], a.backend.message);
    }
  }

  lemma SameArguments(dec: Decision, tool: Tool, a: Arguments, b: Arguments)
    requires AsRequested(dec, tool, a) && AsRequested(dec, tool, b)
    ensures a == b
  {
    forall field | field in a.Keys ensures a[field] == b[field] {
      assert field in {Service, Environment, Dependency};
    }
  }

  lemma BackendErrorEnds(cfg: Config, w: World, d: Delivery, s: WorkflowState, a: Answer)
    requires cfg.Valid() && Underway(w, d, s) && BackendAsked(cfg, w, s, a.engine)
    ensures var v := DeliveryRun(cfg, w, d, a).0;
            && (a.backend.BackendPermanent? ==> EndsFailed(w, d, v, a.backend.message))
            && (a.backend.BackendRetryable? ==> EndsRetried(cfg, w, d, v, a.now, a.backend.message))
  {
    hide ProcessRun, ToolRun, SettleRun, EndsFailed, EndsRetried, Amid, Requestable, AsRequested, Explains, Validate,
         RestartsProduction, DeliveryRun;
    if s.pendingAction.Some? {
      var x := ApprovedActionsAreCarriedOut(cfg, w, d, s, a);
      CallErrorEnds(cfg, w, d, s, x, s, [ApprovedActionResumed], s.pendingAction.value.tool,
                    s.pendingAction.value.arguments, a);
    } else {
      var dec, u := a.engine.decision, a.engine.usage;
      var tool := dec.tool.value;
      var asked :| AsRequested(dec, tool, asked) && AsksBackend(cfg, w, s, tool, asked);
      var arguments, x := RequestsAreCarriedOut(cfg, w, d, s, dec, u, a);
      SameArguments(dec, tool, asked, arguments);
      CallErrorEnds(cfg, w, d, s, x, WithRequest(cfg, s, dec, u).(version := s.version + 2),
                    [AgentDecisionStarted, AgentDecisionMade], tool, arguments, a);
    }
  }

  lemma ErrorsSettle(cfg: Config, w: World, d: Delivery, a: Answer)
    requires cfg.Valid()
    ensures ErrorsEnd(cfg, w, d, a, DeliveryRun(cfg, w, d, a).0)
  {
    hide DeliveryRun, EndsFailed, EndsRetried, BackendAsked;
    var v := DeliveryRun(cfg, w, d, a).0;
    forall s | Underway(w, d, s)
      ensures AtDecision(s) ==>
                && (a.engine.EnginePermanent? ==> EndsFailed(w, d, v, a.engine.message))
                && (a.engine.EngineRetryable? ==> EndsRetried(cfg, w, d, v, a.now, a.engine.message))
      ensures BackendAsked(cfg, w, s, a.engine) ==>
                && (a.backend.BackendPermanent? ==> EndsFailed(w, d, v, a.backend.message))
                && (a.backend.BackendRetryable? ==> EndsRetried(cfg, w, d, v, a.now, a.backend.message))
    {
      if AtDecision(s) {
        EngineErrorEnds(cfg, w, d, s, a);
      }
      if BackendAsked(cfg, w, s, a.engine) {
        BackendErrorEnds(cfg, w, d, s, a);
      }
    }
  }
}
