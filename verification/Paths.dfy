/** One delivery on its own: where a worker gets that nobody interferes with, if it is given the answers `a`. */
module Paths {
  import opened Prelude
  import opened Models
  import opened Policy
  import opened Tools
  import opened Tables
  import opened Checkpoints
  import opened Machine
  import opened System
  import opened Refinement
  import opened Discipline
  import opened Reference
  import opened ReferenceRuns
  import opened Solo

  /** With fixtures: the policy and the scenario backend, when they answer at all. Without: any answers. */
  predicate Honest(fx: Option<Fixtures>, p: Proc, a: Answer) {
    fx.Some? ==> AnswersFaithfully(fx.value, p, a)
  }

  /** The process takes n steps and settles nothing on the way. */
  predicate Smooth(cfg: Config, fx: Option<Fixtures>, w: World, p: Proc, a: Answer, n: nat)
    requires cfg.repeatThreshold > 0
    decreases n
  {
    n == 0 ||
      (&& p.Live() && !Settling(p.pc) && Honest(fx, p, a)
       && var (v, q) := StepProc(cfg, w, p, a);
       Smooth(cfg, fx, v, q, a, n - 1))
  }

  ghost predicate Leads(cfg: Config, fx: Option<Fixtures>, w: World, p: Proc, a: Answer, v: World, q: Proc)
    requires cfg.repeatThreshold > 0
  {
    exists n: nat :: Smooth(cfg, fx, w, p, a, n) && Steps(cfg, w, p, a, n) == (v, q)
  }

  lemma LeadsSelf(cfg: Config, fx: Option<Fixtures>, w: World, p: Proc, a: Answer)
    requires cfg.Valid()
    ensures Leads(cfg, fx, w, p, a, w, p)
  {
    hide StepProc;
    assert Smooth(cfg, fx, w, p, a, 0) && Steps(cfg, w, p, a, 0) == (w, p);
  }

  lemma {:induction false} SmoothAdd(cfg: Config, fx: Option<Fixtures>, w: World, p: Proc, a: Answer, m: nat, n: nat)
    requires cfg.Valid() && Smooth(cfg, fx, w, p, a, m)
    requires Smooth(cfg, fx, Steps(cfg, w, p, a, m).0, Steps(cfg, w, p, a, m).1, a, n)
    ensures Smooth(cfg, fx, w, p, a, m + n)
    decreases m
  {
    hide StepProc, Honest;
    if m > 0 {
      var (v, q) := StepProc(cfg, w, p, a);
      SmoothAdd(cfg, fx, v, q, a, m - 1, n);
    }
  }

  lemma LeadsJoin(cfg: Config, fx: Option<Fixtures>, w: World, p: Proc, a: Answer, v: World, q: Proc, x: World, y: Proc)
    requires cfg.Valid() && Leads(cfg, fx, w, p, a, v, q) && Leads(cfg, fx, v, q, a, x, y)
    ensures Leads(cfg, fx, w, p, a, x, y)
  {
    hide Steps, Smooth;
    var m: nat :| Smooth(cfg, fx, w, p, a, m) && Steps(cfg, w, p, a, m) == (v, q);
    var n: nat :| Smooth(cfg, fx, v, q, a, n) && Steps(cfg, v, q, a, n) == (x, y);
    SmoothAdd(cfg, fx, w, p, a, m, n);
    StepsAdd(cfg, w, p, a, m, n);
  }

  lemma LeadsThen(cfg: Config, fx: Option<Fixtures>, w: World, p: Proc, a: Answer, v: World, q: Proc)
    requires cfg.Valid() && Leads(cfg, fx, w, p, a, v, q)
    requires q.Live() && !Settling(q.pc) && Honest(fx, q, a)
    ensures Leads(cfg, fx, w, p, a, StepProc(cfg, v, q, a).0, StepProc(cfg, v, q, a).1)
  {
    hide StepProc, Honest, Leads;
    var (x, y) := StepProc(cfg, v, q, a);
    OneStepLeads(cfg, fx, v, q, a);
    LeadsJoin(cfg, fx, w, p, a, v, q, x, y);
  }

  lemma OneStepLeads(cfg: Config, fx: Option<Fixtures>, v: World, q: Proc, a: Answer)
    requires cfg.Valid() && q.Live() && !Settling(q.pc) && Honest(fx, q, a)
    ensures Leads(cfg, fx, v, q, a, StepProc(cfg, v, q, a).0, StepProc(cfg, v, q, a).1)
  {
    hide StepProc, Honest;
    var (x, y) := StepProc(cfg, v, q, a);
    assert Smooth(cfg, fx, x, y, a, 0) && Steps(cfg, x, y, a, 0) == (x, y);
    assert Smooth(cfg, fx, v, q, a, 1) && Steps(cfg, v, q, a, 1) == (x, y);
  }

  // ----- the next step, one lemma for each kind -----

  /** The row of the task holds `st`, under its version. */
  predicate Stored(w: World, task: TaskId, st: WorkflowState) {
    st.taskId == task && task in w.workflows && w.workflows[task] == WorkflowRow(st, st.version)
  }

  function Saved(w: World, st: WorkflowState): World {
    w.(workflows := w.workflows[st.taskId := WorkflowRow(st, st.version)])
  }

  lemma ThenLoads(cfg: Config, fx: Option<Fixtures>, w: World, p: Proc, a: Answer, v: World, q: Proc, st: WorkflowState)
    requires cfg.Valid() && Leads(cfg, fx, w, p, a, v, q) && q.pc == Loading(ToProcess) && Stored(v, q.task, st)
    ensures Leads(cfg, fx, w, p, a, v, q.(base := Some(st), pc := AfterLoad(st, ToProcess)))
  {
    hide StepProc, Leads, AfterLoad;
    OnLoad(cfg, v, q, a);
    LeadsThen(cfg, fx, w, p, a, v, q);
  }

  lemma ThenSaves(cfg: Config, fx: Option<Fixtures>, w: World, p: Proc, a: Answer, v: World, q: Proc, st: WorkflowState)
    requires cfg.Valid() && Leads(cfg, fx, w, p, a, v, q)
    requires q.pc.Saving? && q.base == Some(st) && Stored(v, q.task, st)
    ensures var next := Apply(cfg, st, q.pc.move);
            && Leads(cfg, fx, w, p, a, Saved(v, next), q.(base := Some(next), pc := AfterSave(cfg, q.task, q.pc.move)))
            && Stored(Saved(v, next), q.task, next)
  {
    hide StepProc, Leads, Apply, AfterSave;
    ApplyKeepsTask(cfg, st, q.pc.move);
    CommitStep(cfg, v, q, a);
    LeadsThen(cfg, fx, w, p, a, v, q);
  }

  lemma ThenEmits(cfg: Config, fx: Option<Fixtures>, w: World, p: Proc, a: Answer, v: World, q: Proc)
    requires cfg.Valid() && Leads(cfg, fx, w, p, a, v, q) && q.pc.Emitting?
    ensures Leads(cfg, fx, w, p, a, RecordEvent(v, q.task, q.pc.kind), q.(pc := q.pc.next))
  {
    hide StepProc, Leads;
    OnEmit(cfg, v, q, a);
    LeadsThen(cfg, fx, w, p, a, v, q);
  }

  lemma ThenAsks(cfg: Config, fx: Option<Fixtures>, w: World, p: Proc, a: Answer, v: World, q: Proc)
    requires cfg.Valid() && Leads(cfg, fx, w, p, a, v, q) && q.pc.AskingEngine? && q.base.Some?
    requires fx.Some? ==> EngineFaithful(fx.value, q.base.value, a.engine)
    ensures Leads(cfg, fx, w, p, a, v, q.(pc := AfterEngine(cfg, q.base.value, a.engine)))
  {
    hide StepProc, Leads, AfterEngine, EngineFaithful;
    OnEngine(cfg, v, q, a);
    LeadsThen(cfg, fx, w, p, a, v, q);
  }

  lemma ThenChecks(cfg: Config, fx: Option<Fixtures>, w: World, p: Proc, a: Answer, v: World, q: Proc,
          action: PendingAction)
    requires cfg.Valid() && Leads(cfg, fx, w, p, a, v, q) && q.pc.CheckingApproval?
    requires q.base.Some? && q.base.value.pendingAction == Some(action) && IsApproved(v, q.task, action.actionId)
    ensures Leads(cfg, fx, w, p, a, v, q.(pc := Emitting(ApprovedActionResumed, Execute(action.tool, action.arguments))))
  {
    hide StepProc, Leads, Execute;
    OnCheck(cfg, v, q, a);
    LeadsThen(cfg, fx, w, p, a, v, q);
  }

  lemma ThenLooksUp(cfg: Config, fx: Option<Fixtures>, w: World, p: Proc, a: Answer, v: World, q: Proc)
    requires cfg.Valid() && Leads(cfg, fx, w, p, a, v, q) && q.pc.LookingUp?
    ensures KeyOf(cfg, q) !in v.ledger ==> Leads(cfg, fx, w, p, a, v, q.(pc := Calling(q.pc.tool, q.pc.arguments)))
    ensures KeyOf(cfg, q) in v.ledger && v.ledger[KeyOf(cfg, q)].argumentsHash == cfg.argumentsHash(q.pc.arguments) ==>
              Leads(cfg, fx, w, p, a, v, q.(pc := Saving(FinishTool(q.pc.tool, v.ledger[KeyOf(cfg, q)].result))))
  {
    hide StepProc, Leads;
    OnLookup(cfg, v, q, a);
    LeadsThen(cfg, fx, w, p, a, v, q);
  }

  lemma ThenCalls(cfg: Config, fx: Option<Fixtures>, w: World, p: Proc, a: Answer, v: World, q: Proc)
    requires cfg.Valid() && Leads(cfg, fx, w, p, a, v, q) && q.pc.Calling? && q.base.Some?
    requires fx.Some? ==> BackendFaithful(fx.value, q.base.value, q.pc.tool, q.pc.arguments, a.backend)
    ensures Leads(cfg, fx, w, p, a, v, q.(pc := AfterBackend(q.pc.tool, q.pc.arguments, a.backend)))
  {
    hide StepProc, Leads, AfterBackend, BackendFaithful;
    OnCall(cfg, v, q, a);
    LeadsThen(cfg, fx, w, p, a, v, q);
  }

  lemma ThenRecords(cfg: Config, fx: Option<Fixtures>, w: World, p: Proc, a: Answer, v: World, q: Proc)
    requires cfg.Valid() && Leads(cfg, fx, w, p, a, v, q) && q.pc.Recording?
    ensures var row := LedgerRow(q.task, q.pc.tool, cfg.argumentsHash(q.pc.arguments), q.pc.result);
            Leads(cfg, fx, w, p, a, SaveToolResult(v, KeyOf(cfg, q), row), q.(pc := Saving(FinishTool(q.pc.tool, q.pc.result))))
  {
    hide StepProc, Leads, SaveToolResult;
    OnRecord(cfg, v, q, a);
    LeadsThen(cfg, fx, w, p, a, v, q);
  }

  lemma ThenPuts(cfg: Config, fx: Option<Fixtures>, w: World, p: Proc, a: Answer, v: World, q: Proc)
    requires cfg.Valid() && Leads(cfg, fx, w, p, a, v, q) && q.pc.PuttingApproval?
    ensures Leads(cfg, fx, w, p, a, CreateApproval(v, q.task, q.pc.action), q.(pc := Emitting(ApprovalRequired, Acknowledging(Finish))))
  {
    hide StepProc, Leads, CreateApproval;
    OnPut(cfg, v, q, a);
    LeadsThen(cfg, fx, w, p, a, v, q);
  }

  // ----- the parts of a delivery -----

  predicate Startable(st: WorkflowState) {
    !st.Terminal() && !st.status.WaitingForApproval? && st.pendingAction.None?
  }

  /** Everything but the log of events. */
  predicate SameTables(v: World, w: World) {
    v == w.(events := v.events)
  }

  /** The worker is where the engine's answer has been taken. */
  lemma Decides(cfg: Config, fx: Option<Fixtures>, w: World, p: Proc, a: Answer, st: WorkflowState)
    returns (v: World, q: Proc)
    requires cfg.Valid() && p.pc == Loading(ToProcess) && Stored(w, p.task, st) && Startable(st) && a.engine.Decide?
    requires fx.Some? ==> EngineFaithful(fx.value, Apply(cfg, st, Start), a.engine)
    ensures var started := Apply(cfg, st, Start);
            && Leads(cfg, fx, w, p, a, v, q) && Stored(v, p.task, started) && SameTables(v, Saved(w, started))
            && q == p.(base := Some(started), pc := AfterDecision(cfg, started, a.engine.decision, a.engine.usage))
  {
    hide StepProc, Leads, Apply, AfterDecision, EngineFaithful;
    var started := Apply(cfg, st, Start);
    LeadsSelf(cfg, fx, w, p, a);
    ThenLoads(cfg, fx, w, p, a, w, p, st);
    var p1 := p.(base := Some(st), pc := Saving(Start));
    ThenSaves(cfg, fx, w, p, a, w, p1, st);
    var w2, p2 := Saved(w, started), p.(base := Some(started), pc := Emitting(AgentDecisionStarted, AskingEngine));
    ThenEmits(cfg, fx, w, p, a, w2, p2);
    var w3, p3 := RecordEvent(w2, p.task, AgentDecisionStarted), p2.(pc := AskingEngine);
    ThenAsks(cfg, fx, w, p, a, w3, p3);
    var p4 := p3.(pc := AfterEngine(cfg, started, a.engine));
    ThenEmits(cfg, fx, w, p, a, w3, p4);
    v, q := RecordEvent(w3, p.task, AgentDecisionMade), p4.(pc := AfterDecision(cfg, started, a.engine.decision, a.engine.usage));
  }

  /** A request that passes the guard, up to the policy gate. */
  lemma Requests(cfg: Config, fx: Option<Fixtures>, w: World, p: Proc, a: Answer, st: WorkflowState)
    returns (v: World, q: Proc)
    requires cfg.Valid() && p.pc == Loading(ToProcess) && Stored(w, p.task, st) && Startable(st)
    requires a.engine.Decide? && a.engine.decision.action.UseTool? && ValidatedRequest(a.engine.decision).Some?
    requires fx.Some? ==> EngineFaithful(fx.value, Apply(cfg, st, Start), a.engine)
    requires RequestReason(cfg, Apply(cfg, st, Start), a.engine.decision, a.engine.usage).None?
    ensures var accepted := Apply(cfg, Apply(cfg, st, Start), Accept(a.engine.decision, a.engine.usage));
            && Leads(cfg, fx, w, p, a, v, q) && Stored(v, p.task, accepted) && SameTables(v, Saved(w, accepted))
            && q == p.(base := Some(accepted), pc := AfterAccept(cfg, p.task, a.engine.decision))
  {
    hide StepProc, Leads, Apply, AfterAccept, EngineFaithful, RequestReason, ValidatedRequest;
    var started, m := Apply(cfg, st, Start), Accept(a.engine.decision, a.engine.usage);
    var w1, p1 := Decides(cfg, fx, w, p, a, st);
    ThenSaves(cfg, fx, w, p, a, w1, p1, started);
    var accepted := Apply(cfg, started, m);
    ApplyKeepsTask(cfg, st, Start);
    ApplyKeepsTask(cfg, started, m);
    v, q := Saved(w1, accepted), p1.(base := Some(accepted), pc := AfterSave(cfg, p.task, m));
  }

  /** An approved action, up to the lookup. */
  lemma Resumes(cfg: Config, fx: Option<Fixtures>, w: World, p: Proc, a: Answer, st: WorkflowState)
    returns (v: World, q: Proc)
    requires cfg.Valid() && p.pc == Loading(ToProcess) && Stored(w, p.task, st) && st.Resumable()
    requires IsApproved(w, p.task, st.pendingAction.value.actionId)
    requires Executable(st.pendingAction.value.tool, st.pendingAction.value.arguments)
    ensures Leads(cfg, fx, w, p, a, v, q) && SameTables(v, w)
    ensures q == p.(base := Some(st), pc := LookingUp(st.pendingAction.value.tool, st.pendingAction.value.arguments))
  {
    hide StepProc, Leads, Execute, Executable;
    var action := st.pendingAction.value;
    ExecuteValidated(action.tool, action.arguments);
    LeadsSelf(cfg, fx, w, p, a);
    ThenLoads(cfg, fx, w, p, a, w, p, st);
    var p1 := p.(base := Some(st), pc := CheckingApproval);
    ThenChecks(cfg, fx, w, p, a, w, p1, action);
    var p2 := p1.(pc := Emitting(ApprovedActionResumed, Execute(action.tool, action.arguments)));
    ThenEmits(cfg, fx, w, p, a, w, p2);
    v, q := RecordEvent(w, p.task, ApprovedActionResumed), p2.(pc := LookingUp(action.tool, action.arguments));
  }

  /** A tool result in hand is saved and reported. */
  lemma Finishes(cfg: Config, fx: Option<Fixtures>, w: World, p: Proc, a: Answer, w1: World, p1: Proc,
          st: WorkflowState)
    returns (v: World, q: Proc)
    requires cfg.Valid() && Leads(cfg, fx, w, p, a, w1, p1) && p1.base == Some(st) && Stored(w1, p1.task, st)
    requires p1.pc.Saving? && p1.pc.move.FinishTool?
    ensures var finished := Apply(cfg, st, p1.pc.move);
            && Leads(cfg, fx, w, p, a, v, q) && Stored(v, p1.task, finished) && SameTables(v, Saved(w1, finished))
            && q == p1.(base := Some(finished), pc := Acknowledging(Reenqueue))
  {
    hide StepProc, Leads, Apply;
    ThenSaves(cfg, fx, w, p, a, w1, p1, st);
    var finished := Apply(cfg, st, p1.pc.move);
    var w2, p2 := Saved(w1, finished), p1.(base := Some(finished), pc := Emitting(ToolCompleted, Acknowledging(Reenqueue)));
    ThenEmits(cfg, fx, w, p, a, w2, p2);
    v, q := RecordEvent(w2, p1.task, ToolCompleted), p2.(pc := Acknowledging(Reenqueue));
  }

  /** A retryable failure is saved and reported. */
  lemma FailsTransiently(cfg: Config, fx: Option<Fixtures>, w: World, p: Proc, a: Answer, w1: World,
          p1: Proc, st: WorkflowState)
    returns (v: World, q: Proc)
    requires cfg.Valid() && Leads(cfg, fx, w, p, a, w1, p1) && p1.base == Some(st) && Stored(w1, p1.task, st)
    requires p1.pc.Saving? && p1.pc.move.RetryTool?
    ensures var failed := Apply(cfg, st, p1.pc.move);
            && Leads(cfg, fx, w, p, a, v, q) && Stored(v, p1.task, failed) && SameTables(v, Saved(w1, failed))
            && q == p1.(base := Some(failed), pc := Retrying(p1.pc.move.error))
  {
    hide StepProc, Leads, Apply;
    ThenSaves(cfg, fx, w, p, a, w1, p1, st);
    var failed := Apply(cfg, st, p1.pc.move);
    var w2, p2 := Saved(w1, failed), p1.(base := Some(failed), pc := Emitting(ToolRetryableFailure, Retrying(p1.pc.move.error)));
    ThenEmits(cfg, fx, w, p, a, w2, p2);
    v, q := RecordEvent(w2, p1.task, ToolRetryableFailure), p2.(pc := Retrying(p1.pc.move.error));
  }

  /** The gate holds a request back: checkpoint, then the approval row. */
  lemma Parks(cfg: Config, fx: Option<Fixtures>, w: World, p: Proc, a: Answer, w1: World, p1: Proc, st: WorkflowState)
    returns (v: World, q: Proc)
    requires cfg.Valid() && Leads(cfg, fx, w, p, a, w1, p1) && p1.base == Some(st) && Stored(w1, p1.task, st)
    requires p1.pc.Saving? && p1.pc.move.Wait?
    ensures var waiting := Apply(cfg, st, p1.pc.move);
            && Leads(cfg, fx, w, p, a, v, q) && Stored(v, p1.task, waiting) && SameTables(v, Saved(w1, waiting))
            && q == p1.(base := Some(waiting), pc := PuttingApproval(p1.pc.move.action.actionId))
  {
    hide StepProc, Leads, Apply;
    ThenSaves(cfg, fx, w, p, a, w1, p1, st);
    var waiting := Apply(cfg, st, p1.pc.move);
    v, q := Saved(w1, waiting), p1.(base := Some(waiting), pc := PuttingApproval(p1.pc.move.action.actionId));
  }

  lemma Asks(cfg: Config, fx: Option<Fixtures>, w: World, p: Proc, a: Answer, w1: World, p1: Proc)
    returns (v: World, q: Proc)
    requires cfg.Valid() && Leads(cfg, fx, w, p, a, w1, p1) && p1.pc.PuttingApproval?
    ensures Leads(cfg, fx, w, p, a, v, q) && SameTables(v, CreateApproval(w1, p1.task, p1.pc.action))
    ensures q == p1.(pc := Acknowledging(Finish))
  {
    hide StepProc, Leads, CreateApproval;
    ThenPuts(cfg, fx, w, p, a, w1, p1);
    var w2, p2 := CreateApproval(w1, p1.task, p1.pc.action), p1.(pc := Emitting(ApprovalRequired, Acknowledging(Finish)));
    ThenEmits(cfg, fx, w, p, a, w2, p2);
    v, q := RecordEvent(w2, p1.task, ApprovalRequired), p2.(pc := Acknowledging(Finish));
  }

  /** The backend is called and answers. */
  lemma CallsBackend(cfg: Config, fx: Option<Fixtures>, w: World, p: Proc, a: Answer, w1: World, p1: Proc)
    requires cfg.Valid() && Leads(cfg, fx, w, p, a, w1, p1) && p1.pc.LookingUp? && p1.base.Some?
    requires KeyOf(cfg, p1) !in w1.ledger
    requires fx.Some? ==> BackendFaithful(fx.value, p1.base.value, p1.pc.tool, p1.pc.arguments, a.backend)
    ensures Leads(cfg, fx, w, p, a, w1, p1.(pc := AfterBackend(p1.pc.tool, p1.pc.arguments, a.backend)))
  {
    hide StepProc, Leads, AfterBackend, BackendFaithful;
    ThenLooksUp(cfg, fx, w, p, a, w1, p1);
    ThenCalls(cfg, fx, w, p, a, w1, p1.(pc := Calling(p1.pc.tool, p1.pc.arguments)));
  }

  /** Where a request with the arguments of the reference policy gets at the gate. */
  lemma PassesGate(cfg: Config, task: TaskId, d: Decision, tool: Tool)
    requires d.action.UseTool? && d.tool == Some(tool) && !tool.DeleteDatabase?
    requires ValidatedRequest(d) == Some(SentArguments(tool))
    ensures AfterAccept(cfg, task, d) ==
              if tool.RestartService? then Saving(Wait(PendingFor(cfg, task, d, SentArguments(tool))))
              else LookingUp(tool, SentArguments(tool))
    ensures Executable(tool, SentArguments(tool))
  {
    hide Validate, Evaluate, RequestedArguments, SentArguments;
    OnlyRestartNeedsApproval(tool);
    ValidateIdempotent(tool, RequestedArguments(d.arguments));
    ExecuteValidated(tool, SentArguments(tool));
  }

  /** The claim of a row that no claimable row precedes. */
  lemma ClaimTakes(w: World, worker: string, lease: real, now: real, id: nat)
    requires id < |w.queue| && Claimable(Released(w.queue[id], now), now)
    requires forall j | 0 <= j < id :: !Claimable(Released(w.queue[j], now), now)
    ensures var row := TakenRow(Released(w.queue[id], now), worker, now + lease);
            Claim(w, worker, lease, now) ==
              (w.(queue := ReleaseExpired(w.queue, now)[id := row]), Some(Delivery(id, row.task, row.attempts, row.maxAttempts)))
  {
  }
}
