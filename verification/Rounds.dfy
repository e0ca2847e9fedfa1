/**
 What one delivery does for a workflow that the reference policy drives: it finishes the tool that is due,
 fails transiently as the scenario says, asks for the approval of the restart, resumes it, or decides.
 */
module Rounds {
  import opened Prelude
  import opened Models
  import opened Policy
  import opened Tools
  import opened Tables
  import opened Checkpoints
  import opened Machine
  import opened System
  import opened Refinement
  import opened Discipline
  import opened Reference
  import opened ReferenceChains
  import opened ReferenceRuns
  import opened Paths

  /** How often the scenario backend fails a tool, by the attempts counted in the history. */
  function Transient(fx: Fixtures, scenarioId: string, tool: Tool): nat
    requires scenarioId in fx.scenarios
  {
    var failures := fx.scenarios[scenarioId].transientFailures;
    if tool in failures && failures[tool] > 0 then failures[tool] else 0
  }

  /** The next request passes the guard. */
  predicate GuardPasses(cfg: Config, st: WorkflowState) {
    && |st.toolHistory| + 1 < cfg.maxToolCalls
    && Tries(st) < cfg.repeatThreshold - (if Progress(st) == 0 then 1 else 2)
  }

  /** The ledger has the fault-free result for a key of this workflow, or none. */
  predicate LedgerExpects(cfg: Config, fx: Fixtures, w: World, task: TaskId, scenarioId: string, tool: Tool)
    requires scenarioId in fx.scenarios
  {
    var key := ActionIdOf(cfg, task, tool, SentArguments(tool));
    key in w.ledger ==>
      && w.ledger[key].argumentsHash == cfg.argumentsHash(SentArguments(tool))
      && w.ledger[key].result == Expected(fx, scenarioId, tool)
  }

  lemma BackendAnswers(fx: Fixtures, st: WorkflowState)
    requires OnTrack(fx, st) && Progress(st) < 6 && Tries(st) >= 1
    ensures st.scenarioId in fx.scenarios
    ensures var tool := ToolAt(Progress(st));
            ScenarioAnswer(fx, st, tool, SentArguments(tool)) ==
              if Tries(st) <= Transient(fx, st.scenarioId, tool) then BackendRetryable(ToolName(tool) + " downstream timed out")
              else Returned(Expected(fx, st.scenarioId, tool))
  {
    StepDone(fx, st, RestartService);
  }

  // ----- the states of a delivery -----

  function Started(cfg: Config, st: WorkflowState): WorkflowState
    requires cfg.repeatThreshold > 0
  {
    Apply(cfg, st, Start)
  }

  function Accepted(cfg: Config, st: WorkflowState, d: Decision, u: Usage): WorkflowState
    requires cfg.repeatThreshold > 0
  {
    Apply(cfg, Started(cfg, st), Accept(d, u))
  }

  lemma StartedState(cfg: Config, fx: Fixtures, st: WorkflowState)
    requires cfg.Valid() && OnTrack(fx, st) && HistoryOnTrack(cfg, fx, st)
    ensures var r := Started(cfg, st);
            && OnTrack(fx, r) && HistoryOnTrack(cfg, fx, r) && Tries(r) == Tries(st) && Progress(r) == Progress(st)
            && ReferenceDecision(fx, r) == ReferenceDecision(fx, st)
            && r.toolHistory == st.toolHistory && r.pendingAction == st.pendingAction && r.status.Running?
            && r.scenarioId == st.scenarioId && r.evidence == st.evidence && r.completedSteps == st.completedSteps
  {
    hide OnTrack, HistoryOnTrack, ReferenceDecision;
    SameTrack(cfg, fx, st, Apply(cfg, st, Start));
  }

  lemma AcceptedState(cfg: Config, fx: Fixtures, st: WorkflowState, d: Decision, u: Usage)
    requires cfg.Valid() && OnTrack(fx, st) && HistoryOnTrack(cfg, fx, st) && Progress(st) < 6 && Startable(st)
    requires d.action.UseTool? && ReferenceDecision(fx, st) == Some(d)
    ensures var r := Accepted(cfg, st, d, u);
            && OnTrack(fx, r) && HistoryOnTrack(cfg, fx, r) && Tries(r) == Tries(st) + 1 && Progress(r) == Progress(st)
            && r.toolHistory == st.toolHistory + [ToolAt(Progress(st))]
            && r.pendingAction.None? && r.scenarioId == st.scenarioId
  {
    hide OnTrack, HistoryOnTrack, ReferenceDecision, ValidatedRequest;
    var started := Started(cfg, st);
    StartedState(cfg, fx, st);
    PolicyFollowsOrder(fx, started);
    RequestKeepsHistory(cfg, fx, started, d, u);
    SameTrack(cfg, fx, AfterRequest(cfg, started, d, u), Accepted(cfg, st, d, u));
  }

  lemma GuardLetsPass(cfg: Config, fx: Fixtures, st: WorkflowState, d: Decision, u: Usage)
    requires cfg.Valid() && OnTrack(fx, st) && HistoryOnTrack(cfg, fx, st) && Progress(st) < 6 && GuardPasses(cfg, st)
    requires DistinctFingerprints(cfg, fx, st.scenarioId)
    requires d.action.UseTool? && ReferenceDecision(fx, st) == Some(d)
    ensures RequestReason(cfg, Started(cfg, st), d, u).None?
  {
    hide OnTrack, HistoryOnTrack, ReferenceDecision, RequestReason, Started, DistinctFingerprints, Tries;
    StartedState(cfg, fx, st);
    GuardIsExact(cfg, fx, Started(cfg, st), d, u);
  }

  /** The tool that was due is done. */
  predicate StepForward(st: WorkflowState, r: WorkflowState) {
    && r.status.Queued? && r.pendingAction.None? && r.scenarioId == st.scenarioId
    && Progress(r) == Progress(st) + 1 && Tries(r) == 0
  }

  /** The tool that is due was tried once more. */
  predicate TriedAgain(st: WorkflowState, r: WorkflowState) {
    && r.status.Queued? && r.pendingAction.None? && r.scenarioId == st.scenarioId
    && Progress(r) == Progress(st) && Tries(r) == Tries(st) + 1
  }

  lemma FinishedState(cfg: Config, fx: Fixtures, st: WorkflowState)
    requires cfg.Valid() && OnTrack(fx, st) && HistoryOnTrack(cfg, fx, st) && Progress(st) < 6
    ensures var tool := ToolAt(Progress(st));
            var r := Apply(cfg, st, FinishTool(tool, Expected(fx, st.scenarioId, tool)));
            StepForward(st, r) && r.toolHistory == st.toolHistory
  {
    hide Expected;
    var tool := ToolAt(Progress(st));
    FinishKeepsTrack(cfg, fx, st, tool, Expected(fx, st.scenarioId, tool));
    if Progress(st) < 5 {
      NoPrior(st.toolHistory, ToolAt(Progress(st) + 1));
    }
  }

  lemma FailedState(cfg: Config, st: WorkflowState, error: Reason)
    requires cfg.Valid()
    ensures var r := Apply(cfg, st, RetryTool(error));
            && r.status.Queued? && r.pendingAction == st.pendingAction && r.scenarioId == st.scenarioId
            && Progress(r) == Progress(st) && Tries(r) == Tries(st) && r.toolHistory == st.toolHistory
  {
  }

  // ----- from the lookup on -----

  /** The worker owes the enqueue of a finished call. */
  ghost predicate ToolDone(w: World, p: Proc, v: World, q: Proc, st: WorkflowState) {
    && q.pc == Acknowledging(Reenqueue) && q.task == p.task && q.delivery == p.delivery
    && v.queue == w.queue && v.approvals == w.approvals
    && p.task in v.workflows && StepForward(st, v.workflows[p.task].state)
    && v.workflows[p.task].state.toolHistory == st.toolHistory
  }

  /** The worker owes the retry of a failed call. */
  ghost predicate ToolFailed(w: World, p: Proc, v: World, q: Proc, st: WorkflowState) {
    && q.pc.Retrying? && q.task == p.task && q.delivery == p.delivery
    && v.queue == w.queue && v.approvals == w.approvals
    && p.task in v.workflows
    && var r := v.workflows[p.task].state;
    && r.status.Queued? && r.pendingAction == st.pendingAction && r.scenarioId == st.scenarioId
    && Progress(r) == Progress(st) && Tries(r) == Tries(st) && r.toolHistory == st.toolHistory
  }

  /** The result is in hand: from the ledger, or just returned. */
  lemma SavesResult(cfg: Config, fx: Fixtures, w: World, p: Proc, a: Answer, w1: World, p1: Proc, st: WorkflowState)
    returns (v: World, q: Proc)
    requires cfg.Valid() && Leads(cfg, Some(fx), w, p, a, w1, p1) && p1.base == Some(st) && Stored(w1, p1.task, st)
    requires OnTrack(fx, st) && HistoryOnTrack(cfg, fx, st) && Progress(st) < 6
    requires p1.pc == Saving(FinishTool(ToolAt(Progress(st)), Expected(fx, st.scenarioId, ToolAt(Progress(st)))))
    ensures Leads(cfg, Some(fx), w, p, a, v, q) && ToolDone(w1, p1, v, q, st)
  {
    hide Leads, StepProc, Apply, OnTrack, HistoryOnTrack, Expected, StepForward;
    FinishedState(cfg, fx, st);
    v, q := Finishes(cfg, Some(fx), w, p, a, w1, p1, st);
  }

  lemma SavesFailure(cfg: Config, fx: Fixtures, w: World, p: Proc, a: Answer, w1: World, p1: Proc, st: WorkflowState)
    returns (v: World, q: Proc)
    requires cfg.Valid() && Leads(cfg, Some(fx), w, p, a, w1, p1) && p1.base == Some(st) && Stored(w1, p1.task, st)
    requires p1.pc.Saving? && p1.pc.move.RetryTool?
    ensures Leads(cfg, Some(fx), w, p, a, v, q) && ToolFailed(w1, p1, v, q, st)
  {
    hide Leads, StepProc, Apply, Tries;
    FailedState(cfg, st, p1.pc.move.error);
    v, q := FailsTransiently(cfg, Some(fx), w, p, a, w1, p1, st);
  }

  /** The result is there, to be recorded or saved. */
  lemma RecordsResult(cfg: Config, fx: Fixtures, w: World, p: Proc, a: Answer, w1: World, p1: Proc, st: WorkflowState)
    returns (v: World, q: Proc)
    requires cfg.Valid() && Leads(cfg, Some(fx), w, p, a, w1, p1) && p1.base == Some(st) && Stored(w1, p1.task, st)
    requires OnTrack(fx, st) && HistoryOnTrack(cfg, fx, st) && Progress(st) < 6 && st.scenarioId in fx.scenarios
    requires p1.pc == Recording(ToolAt(Progress(st)), SentArguments(ToolAt(Progress(st))),
                                Expected(fx, st.scenarioId, ToolAt(Progress(st))))
    ensures Leads(cfg, Some(fx), w, p, a, v, q) && ToolDone(w1, p1, v, q, st)
  {
    hide Leads, StepProc, Apply, OnTrack, HistoryOnTrack, Expected, SentArguments, ToolDone, Tries;
    var tool := ToolAt(Progress(st));
    ThenRecords(cfg, Some(fx), w, p, a, w1, p1);
    var w2 := SaveToolResult(w1, KeyOf(cfg, p1), LedgerRow(p1.task, tool, cfg.argumentsHash(p1.pc.arguments), p1.pc.result));
    var p2 := p1.(pc := Saving(FinishTool(tool, p1.pc.result)));
    v, q := SavesResult(cfg, fx, w, p, a, w2, p2, st);
    DoneFrom(w1, p1, w2, p2, v, q, st);
  }

  /** Lookup, call and record of the tool that is due. */
  lemma RunsTool(cfg: Config, fx: Fixtures, w: World, p: Proc, a: Answer, w1: World, p1: Proc, st: WorkflowState)
    returns (v: World, q: Proc)
    requires cfg.Valid() && Leads(cfg, Some(fx), w, p, a, w1, p1) && p1.base == Some(st) && Stored(w1, p1.task, st)
    requires OnTrack(fx, st) && HistoryOnTrack(cfg, fx, st) && Progress(st) < 6 && Tries(st) >= 1
    requires var tool := ToolAt(Progress(st));
             && p1.pc == LookingUp(tool, SentArguments(tool))
             && LedgerExpects(cfg, fx, w1, p1.task, st.scenarioId, tool)
             && StructuredResult(Expected(fx, st.scenarioId, tool))
             && a.backend == ScenarioAnswer(fx, st, tool, SentArguments(tool))
    ensures Leads(cfg, Some(fx), w, p, a, v, q)
    ensures ToolDone(w1, p1, v, q, st)
            || (Tries(st) <= Transient(fx, st.scenarioId, ToolAt(Progress(st))) && KeyOf(cfg, p1) !in w1.ledger
                && ToolFailed(w1, p1, v, q, st))
  {
    hide Leads, StepProc, Apply, OnTrack, HistoryOnTrack, Expected, StructuredResult, SentArguments, ActionIdOf,
         ToolDone, ToolFailed, ScenarioAnswer, Tries, Transient;
    var tool := ToolAt(Progress(st));
    BackendAnswers(fx, st);
    var args, result := SentArguments(tool), Expected(fx, st.scenarioId, tool);
    ThenLooksUp(cfg, Some(fx), w, p, a, w1, p1);
    var p2 := p1.(pc := Saving(FinishTool(tool, result)));
    if KeyOf(cfg, p1) in w1.ledger {
      v, q := SavesResult(cfg, fx, w, p, a, w1, p2, st);
      DoneFrom(w1, p1, w1, p2, v, q, st);
    } else {
      CallsBackend(cfg, Some(fx), w, p, a, w1, p1);
      if Tries(st) <= Transient(fx, st.scenarioId, tool) {
        var p3 := p1.(pc := Saving(RetryTool(Text(ToolName(tool) + " downstream timed out"))));
        v, q := SavesFailure(cfg, fx, w, p, a, w1, p3, st);
        FailedFrom(w1, p1, p3, v, q, st);
      } else {
        var p3 := p1.(pc := Recording(tool, args, result));
        v, q := RecordsResult(cfg, fx, w, p, a, w1, p3, st);
        DoneFrom(w1, p1, w1, p3, v, q, st);
      }
    }
  }

  lemma DoneFrom(w: World, p: Proc, w1: World, p1: Proc, v: World, q: Proc, st: WorkflowState)
    requires ToolDone(w1, p1, v, q, st) && p1.task == p.task && p1.delivery == p.delivery
    requires w1.queue == w.queue && w1.approvals == w.approvals
    ensures ToolDone(w, p, v, q, st)
  {
  }

  lemma FailedFrom(w: World, p: Proc, p1: Proc, v: World, q: Proc, st: WorkflowState)
    requires ToolFailed(w, p1, v, q, st) && p1.task == p.task && p1.delivery == p.delivery
    ensures ToolFailed(w, p, v, q, st)
  {
  }

  // ----- whole deliveries -----

  /** A checkpoint of a reference workflow, as the tables hold it. */
  ghost predicate Tracked(cfg: Config, fx: Fixtures, w: World, task: TaskId, st: WorkflowState) {
    && Stored(w, task, st) && OnTrack(fx, st) && HistoryOnTrack(cfg, fx, st)
    && (st.pendingAction.Some? ==>
          && Progress(st) == 4 && Tries(st) >= 1
          && st.pendingAction.value.tool == RestartService
          && st.pendingAction.value.arguments == SentArguments(RestartService)
          && st.pendingAction.value.actionId == RestartKey(cfg, task))
  }

  /** What the fixtures must offer: results the gateway accepts, and an error rate that can be read. */
  ghost predicate Workable(cfg: Config, fx: Fixtures, scenarioId: string) {
    && scenarioId in fx.scenarios
    && DistinctFingerprints(cfg, fx, scenarioId)
    && (forall n: nat | n < 6 :: StructuredResult(Expected(fx, scenarioId, ToolAt(n))))
    && (Healthy(fx, Expected(fx, scenarioId, VerifyRecovery)) || Unhealthy(fx, Expected(fx, scenarioId, VerifyRecovery)))
  }

  /** The answers a delivery gets that is faithful and has nothing but the scenario's failures. */
  function DueAnswer(cfg: Config, fx: Fixtures, st: WorkflowState, now: real): Answer
    requires cfg.repeatThreshold > 0 && ReferenceDecision(fx, st).Some?
  {
    var d := ReferenceDecision(fx, st).value;
    var executing := if Startable(st) then Accepted(cfg, st, d, Usage(0, 0)) else st;
    var tool := if Progress(st) < 6 then ToolAt(Progress(st)) else VerifyRecovery;
    Answer(Decide(d, Usage(0, 0)), ScenarioAnswer(fx, executing, tool, SentArguments(tool)), now)
  }

  /** The scenario fails tools, but it does not end processes. */
  lemma ScenarioIsCalm(fx: Fixtures, s: WorkflowState, tool: Tool)
    ensures !ScenarioAnswer(fx, s, tool, SentArguments(tool)).BackendCrash?
  {
  }

  lemma DueAnswerIsCalm(cfg: Config, fx: Fixtures, st: WorkflowState, now: real)
    requires cfg.Valid() && ReferenceDecision(fx, st).Some?
    ensures CalmAnswer(DueAnswer(cfg, fx, st, now)) && DueAnswer(cfg, fx, st, now).now == now
  {
    hide ScenarioAnswer, ReferenceDecision, SentArguments, Accepted;
    var d := ReferenceDecision(fx, st).value;
    var executing := if Startable(st) then Accepted(cfg, st, d, Usage(0, 0)) else st;
    ScenarioIsCalm(fx, executing, if Progress(st) < 6 then ToolAt(Progress(st)) else VerifyRecovery);
  }

  /** The request that is due passes the guard and gets to the gate. */
  lemma RequestsDue(cfg: Config, fx: Fixtures, w: World, p: Proc, st: WorkflowState, now: real)
    returns (v: World, q: Proc)
    requires cfg.Valid() && p.pc == Loading(ToProcess) && Tracked(cfg, fx, w, p.task, st) && Startable(st)
    requires Workable(cfg, fx, st.scenarioId) && Progress(st) < 6 && GuardPasses(cfg, st)
    ensures ReferenceDecision(fx, st).Some? && ReferenceDecision(fx, st).value.action.UseTool?
    ensures var d := ReferenceDecision(fx, st).value;
            d.tool == Some(ToolAt(Progress(st))) && ValidatedRequest(d) == Some(SentArguments(ToolAt(Progress(st))))
    ensures var a := DueAnswer(cfg, fx, st, now);
            var accepted := Accepted(cfg, st, a.engine.decision, Usage(0, 0));
            && Leads(cfg, Some(fx), w, p, a, v, q) && Stored(v, p.task, accepted) && SameTables(v, Saved(w, accepted))
            && q == p.(base := Some(accepted), pc := AfterAccept(cfg, p.task, a.engine.decision))
  {
    hide Leads, StepProc, Apply, OnTrack, HistoryOnTrack, AfterAccept, RequestReason, ReferenceDecision,
         ValidatedRequest, DistinctFingerprints, ScenarioAnswer, Healthy, Unhealthy, Expected, StructuredResult, GuardPasses,
         Tries;
    PolicyFollowsOrder(fx, st);
    var a := DueAnswer(cfg, fx, st, now);
    StartedState(cfg, fx, st);
    GuardLetsPass(cfg, fx, st, a.engine.decision, Usage(0, 0));
    v, q := Requests(cfg, Some(fx), w, p, a, st);
  }

  /** A delivery for a tool that needs no approval. */
  lemma ToolRound(cfg: Config, fx: Fixtures, w: World, p: Proc, st: WorkflowState, now: real)
    returns (a: Answer, v: World, q: Proc)
    requires cfg.Valid() && p.pc == Loading(ToProcess) && Tracked(cfg, fx, w, p.task, st) && Startable(st)
    requires Workable(cfg, fx, st.scenarioId) && Progress(st) < 6 && Progress(st) != 4 && GuardPasses(cfg, st)
    requires LedgerExpects(cfg, fx, w, p.task, st.scenarioId, ToolAt(Progress(st)))
    ensures CalmAnswer(a) && a.now == now
    ensures Leads(cfg, Some(fx), w, p, a, v, q) && v.queue == w.queue && q.task == p.task && q.delivery == p.delivery
    ensures p.task in v.workflows
    ensures var r := v.workflows[p.task].state;
            && |r.toolHistory| == |st.toolHistory| + 1
            && ((q.pc == Acknowledging(Reenqueue) && StepForward(st, r))
                || (q.pc.Retrying? && TriedAgain(st, r) && Tries(st) < Transient(fx, st.scenarioId, ToolAt(Progress(st)))))
  {
    hide Leads, StepProc, Apply, OnTrack, HistoryOnTrack, AfterAccept, ReferenceDecision, ValidatedRequest, Accepted,
         DistinctFingerprints, ScenarioAnswer, Healthy, Unhealthy, Expected, StructuredResult, GuardPasses, Tries, Transient,
         SentArguments, ActionIdOf;
    var tool := ToolAt(Progress(st));
    var w1, p1 := RequestsDue(cfg, fx, w, p, st, now);
    a := DueAnswer(cfg, fx, st, now);
    DueAnswerIsCalm(cfg, fx, st, now);
    PassesGate(cfg, p.task, a.engine.decision, tool);
    AcceptedState(cfg, fx, st, a.engine.decision, Usage(0, 0));
    v, q := RunsTool(cfg, fx, w, p, a, w1, p1, Accepted(cfg, st, a.engine.decision, Usage(0, 0)));
  }

  /** A delivery that asks for the approval of the restart. */
  lemma ApprovalRound(cfg: Config, fx: Fixtures, w: World, p: Proc, st: WorkflowState, now: real)
    returns (a: Answer, v: World, q: Proc)
    requires cfg.Valid() && p.pc == Loading(ToProcess) && Tracked(cfg, fx, w, p.task, st) && Startable(st)
    requires Workable(cfg, fx, st.scenarioId) && Progress(st) == 4 && GuardPasses(cfg, st)
    requires (p.task, RestartKey(cfg, p.task)) !in w.approvals
    ensures CalmAnswer(a) && a.now == now
    ensures Leads(cfg, Some(fx), w, p, a, v, q) && v.queue == w.queue && q.task == p.task && q.delivery == p.delivery
    ensures q.pc == Acknowledging(Finish) && p.task in v.workflows
    ensures v.approvals == w.approvals[(p.task, RestartKey(cfg, p.task)) := Undecided]
    ensures var r := v.workflows[p.task].state;
            && r.status.WaitingForApproval? && r.pendingAction.Some?
            && r.pendingAction.value.actionId == RestartKey(cfg, p.task) && r.scenarioId == st.scenarioId
            && Progress(r) == 4 && Tries(r) == Tries(st) + 1 && |r.toolHistory| == |st.toolHistory| + 1
  {
    hide Leads, StepProc, Apply, OnTrack, HistoryOnTrack, AfterAccept, ReferenceDecision, ValidatedRequest, Accepted,
         DistinctFingerprints, ScenarioAnswer, Healthy, Unhealthy, Expected, StructuredResult, GuardPasses, Tries, Evaluate,
         SentArguments, ActionIdOf;
    var w1, p1 := RequestsDue(cfg, fx, w, p, st, now);
    a := DueAnswer(cfg, fx, st, now);
    DueAnswerIsCalm(cfg, fx, st, now);
    PassesGate(cfg, p.task, a.engine.decision, RestartService);
    AcceptedState(cfg, fx, st, a.engine.decision, Usage(0, 0));
    var accepted := Accepted(cfg, st, a.engine.decision, Usage(0, 0));
    WaitingState(cfg, accepted, p1.pc.move.action);
    var w2, p2 := Parks(cfg, Some(fx), w, p, a, w1, p1, accepted);
    v, q := Asks(cfg, Some(fx), w, p, a, w2, p2);
  }

  lemma WaitingState(cfg: Config, st: WorkflowState, action: PendingAction)
    requires cfg.Valid()
    ensures var r := Apply(cfg, st, Wait(action));
            && r.status.WaitingForApproval? && r.pendingAction == Some(action) && r.scenarioId == st.scenarioId
            && Progress(r) == Progress(st) && Tries(r) == Tries(st) && r.toolHistory == st.toolHistory
  {
  }

  /** A delivery that resumes the approved restart. */
  lemma ResumeRound(cfg: Config, fx: Fixtures, w: World, p: Proc, st: WorkflowState, now: real)
    returns (a: Answer, v: World, q: Proc)
    requires cfg.Valid() && p.pc == Loading(ToProcess) && Tracked(cfg, fx, w, p.task, st) && st.Resumable()
    requires Workable(cfg, fx, st.scenarioId) && IsApproved(w, p.task, RestartKey(cfg, p.task))
    requires LedgerExpects(cfg, fx, w, p.task, st.scenarioId, RestartService)
    requires Tries(st) > Transient(fx, st.scenarioId, RestartService) || RestartKey(cfg, p.task) in w.ledger
    ensures CalmAnswer(a) && a.now == now
    ensures Leads(cfg, Some(fx), w, p, a, v, q) && ToolDone(w, p, v, q, st)
  {
    hide Leads, StepProc, Apply, OnTrack, HistoryOnTrack, ReferenceDecision, ValidatedRequest, Accepted, Executable,
         DistinctFingerprints, ScenarioAnswer, Healthy, Unhealthy, Expected, StructuredResult, Tries, Transient,
         SentArguments, ActionIdOf;
    PolicyFollowsOrder(fx, st);
    a := DueAnswer(cfg, fx, st, now);
    DueAnswerIsCalm(cfg, fx, st, now);
    PassesGate(cfg, p.task, ReferenceDecision(fx, st).value, RestartService);
    var w1, p1 := Resumes(cfg, Some(fx), w, p, a, st);
    v, q := RunsTool(cfg, fx, w, p, a, w1, p1, st);
    DoneFrom(w, p, w1, p1, v, q, st);
  }

  /** The final decision, as the verified error rate says. */
  ghost predicate RightlyDecided(fx: Fixtures, st: WorkflowState) {
    && OnTrack(fx, st) && Progress(st) == 6 && (st.status.Completed? || st.status.Failed?)
    && (st.status.Completed? <==> Healthy(fx, fx.scenarios[st.scenarioId].afterRestart))
    && (st.status.Failed? <==> Unhealthy(fx, fx.scenarios[st.scenarioId].afterRestart))
  }

  lemma DecidedState(cfg: Config, fx: Fixtures, st: WorkflowState)
    requires cfg.Valid() && OnTrack(fx, st) && HistoryOnTrack(cfg, fx, st) && Progress(st) == 6
    requires ReferenceDecision(fx, st).Some?
    ensures var d := ReferenceDecision(fx, st).value;
            var m := if d.action.Complete? then CompleteRun(d, Usage(0, 0)) else DecisionFail(d, Usage(0, 0));
            RightlyDecided(fx, Apply(cfg, st, m))
  {
    hide OnTrack, HistoryOnTrack, ReferenceDecision, Healthy, Unhealthy, Expected, ValidatedRequest;
    PolicyFollowsOrder(fx, st);
    OnTrackScenario(fx, st);
    ExpectedVerdict(fx, st.scenarioId);
    var d := ReferenceDecision(fx, st).value;
    var m := if d.action.Complete? then CompleteRun(d, Usage(0, 0)) else DecisionFail(d, Usage(0, 0));
    SameTrack(cfg, fx, st, Apply(cfg, st, m));
  }

  /** A delivery that decides. */
  lemma DecisionRound(cfg: Config, fx: Fixtures, w: World, p: Proc, st: WorkflowState, now: real)
    returns (a: Answer, v: World, q: Proc)
    requires cfg.Valid() && p.pc == Loading(ToProcess) && Tracked(cfg, fx, w, p.task, st) && Startable(st)
    requires Workable(cfg, fx, st.scenarioId) && Progress(st) == 6
    ensures CalmAnswer(a) && a.now == now
    ensures Leads(cfg, Some(fx), w, p, a, v, q) && p.task in v.workflows
    ensures RightlyDecided(fx, v.workflows[p.task].state)
  {
    hide Leads, StepProc, Apply, OnTrack, HistoryOnTrack, ReferenceDecision, ValidatedRequest, AfterSave,
         DistinctFingerprints, ScenarioAnswer, Healthy, Unhealthy, Expected, StructuredResult, Tries, RightlyDecided,
         SentArguments;
    PolicyFollowsOrder(fx, st);
    a := DueAnswer(cfg, fx, st, now);
    DueAnswerIsCalm(cfg, fx, st, now);
    StartedState(cfg, fx, st);
    DecidedState(cfg, fx, Started(cfg, st));
    var w1, p1 := Decides(cfg, Some(fx), w, p, a, st);
    ThenSaves(cfg, Some(fx), w, p, a, w1, p1, Started(cfg, st));
    var decided := Apply(cfg, Started(cfg, st), p1.pc.move);
    ApplyKeepsTask(cfg, st, Start);
    ApplyKeepsTask(cfg, Started(cfg, st), p1.pc.move);
    v, q := Saved(w1, decided), p1.(base := Some(decided), pc := AfterSave(cfg, p1.task, p1.pc.move));
  }
}
