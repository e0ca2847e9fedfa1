/**
 Crash transparency: whatever crashes, fails transiently, is redelivered or interleaved, a workflow that
 the reference policy and the scenario backend drive is always on the fault-free track.
 */
module ReferenceRuns {
  import opened Prelude
  import opened Models
  import opened Policy
  import opened Tools
  import opened Tables
  import opened Checkpoints
  import opened CheckpointFacts
  import opened Machine
  import opened System
  import opened Refinement
  import opened Reference
  import opened ReferenceChains
  import opened Solo

  /** The engine answers by the policy, fails transiently, or crashes. */
  predicate EngineFaithful(fx: Fixtures, s: WorkflowState, answer: EngineAnswer) {
    match answer
    case Decide(d, _) => ReferenceDecision(fx, s) == Some(d)
    case EnginePermanent(_) => false
    case _ => true
  }

  /** The backend answers by the scenario, fails transiently, or crashes. */
  predicate BackendFaithful(fx: Fixtures, s: WorkflowState, tool: Tool, arguments: Arguments, answer: BackendAnswer) {
    answer.BackendCrash? || answer.BackendRetryable? || answer == ScenarioAnswer(fx, s, tool, arguments)
  }

  predicate Faithful(fx: Fixtures, s: Sys, step: Step) {
    match step
    case CreateIncident(_, _, scenario, _) => scenario in fx.scenarios
    case Advance(pid, a) => pid in s.procs ==> AnswersFaithfully(fx, s.procs[pid], a)
    case _ => true
  }

  predicate AnswersFaithfully(fx: Fixtures, p: Proc, a: Answer) {
    && (p.pc.AskingEngine? && p.base.Some? ==> EngineFaithful(fx, p.base.value, a.engine))
    && (p.pc.Calling? && p.base.Some? ==> BackendFaithful(fx, p.base.value, p.pc.tool, p.pc.arguments, a.backend))
  }

  predicate FaithfulAt(fx: Fixtures, steps: seq<Step>, trace: seq<Sys>, i: nat)
    requires i < |steps| && |trace| == |steps| + 1
  {
    Faithful(fx, trace[i], steps[i])
  }

  ghost predicate FaithfulTrace(cfg: Config, fx: Fixtures, steps: seq<Step>, trace: seq<Sys>)
    requires cfg.repeatThreshold > 0
  {
    IsTrace(cfg, steps, trace) && forall i: nat | i < |steps| :: FaithfulAt(fx, steps, trace, i)
  }

  /** Steps with faithful answers lead from empty tables to `s`. */
  ghost predicate FaithfullyReached(cfg: Config, fx: Fixtures, steps: seq<Step>, s: Sys)
    requires cfg.repeatThreshold > 0
  {
    exists trace :: FaithfulTrace(cfg, fx, steps, trace) && trace[|steps|] == s
  }

  // ----- the invariant -----

  function RestartKey(cfg: Config, task: TaskId): ActionId {
    ActionIdOf(cfg, task, RestartService, SentArguments(RestartService))
  }

  /** A process never fails a reference workflow, and finishes tools with the fault-free result. */
  predicate ReferencePc(cfg: Config, fx: Fixtures, w: World, p: Proc, pc: Pc) {
    match pc
    case Emitting(_, next) => ReferencePc(cfg, fx, w, p, next)
    case Saving(m) =>
      && (p.base.Some? ==> ByReference(fx, p.base.value, m))
      && (m.FinishTool? && m.tool.RestartService? ==> IsApproved(w, p.task, RestartKey(cfg, p.task)))
    case Recording(tool, _, result) =>
      p.base.Some? ==> p.base.value.scenarioId in fx.scenarios && result == Expected(fx, p.base.value.scenarioId, tool)
    case Acknowledging(settlement) => !settlement.FailAfter?
    case Loading(purpose) => !purpose.ToFail? && (purpose.ToProcess? ==> p.task in w.workflows)
    case _ => true
  }

  predicate ExpectedRow(cfg: Config, fx: Fixtures, log: map<TaskId, seq<Commit>>, w: World, key: ActionId,
          row: LedgerRow) {
    && key.task in log && log[key.task] != []
    && log[key.task][0].state.scenarioId in fx.scenarios
    && row.result == Expected(fx, log[key.task][0].state.scenarioId, key.tool)
    && row.argumentsHash == cfg.argumentsHash(SentArguments(key.tool))
    && (key.tool.RestartService? ==> IsApproved(w, key.task, key))
  }

  ghost predicate ExpectedLedger(cfg: Config, fx: Fixtures, log: map<TaskId, seq<Commit>>, w: World) {
    forall key | key in w.ledger :: ExpectedRow(cfg, fx, log, w, key, w.ledger[key])
  }

  ghost predicate RestartsApproved(cfg: Config, s: Sys, task: TaskId) {
    task in s.log && s.log[task] != [] && RestartService in Last(s, task).state.evidence ==>
      IsApproved(s.world, task, RestartKey(cfg, task))
  }

  predicate RowsHaveWorkflows(w: World) {
    forall i | 0 <= i < |w.queue| :: w.queue[i].task in w.workflows
  }

  ghost predicate ReferenceInv(cfg: Config, fx: Fixtures, s: Sys)
    requires cfg.Valid()
  {
    && Inv(cfg, s)
    && (forall task | task in s.log :: ReferenceLog(cfg, fx, task, s.log[task]))
    && (forall task | task in s.log :: RestartsApproved(cfg, s, task))
    && (forall pid | pid in s.procs :: ReferencePc(cfg, fx, s.world, s.procs[pid], s.procs[pid].pc))
    && ExpectedLedger(cfg, fx, s.log, s.world)
    && RowsHaveWorkflows(s.world)
  }

  lemma ReferenceProc(cfg: Config, fx: Fixtures, s: Sys, pid: nat)
    requires cfg.Valid() && ReferenceInv(cfg, fx, s) && pid in s.procs
    ensures Inv(cfg, s) && ReferencePc(cfg, fx, s.world, s.procs[pid], s.procs[pid].pc)
  {
    hide Inv, ReferenceLog, RestartsApproved, ReferencePc, ExpectedLedger, RowsHaveWorkflows;
  }

  /** The checkpoint of a loaded process, with everything known about it. */
  lemma ReferenceBase(cfg: Config, fx: Fixtures, s: Sys, pid: nat)
    requires cfg.Valid() && ReferenceInv(cfg, fx, s) && pid in s.procs && s.procs[pid].base.Some?
    ensures var p := s.procs[pid];
            && p.task in s.log && p.base.value.version < |s.log[p.task]|
            && var c := s.log[p.task][p.base.value.version];
            && c.state == p.base.value && c.state.taskId == p.task
            && WellFormed(cfg, p.task, c) && PcOk(cfg, c, p.pc) && Gated(cfg, s.world, p.task, p.pc)
            && ReferenceCommit(cfg, fx, c) && c.state.scenarioId == s.log[p.task][0].state.scenarioId
  {
    hide Inv, RestartsApproved, ReferencePc, ExpectedLedger, RowsHaveWorkflows, PcOk, Gated, WellFormed,
         ReferenceCommit, ValidLog, ReferenceLog;
    var p := s.procs[pid];
    ReferenceProc(cfg, fx, s, pid);
    ProcIsOk(cfg, s, pid);
    LogIsOk(cfg, s, p.task);
    BaseIsReference(cfg, fx, s, p.task, p.base.value.version);
  }

  lemma BaseIsReference(cfg: Config, fx: Fixtures, s: Sys, task: TaskId, i: nat)
    requires cfg.Valid() && ReferenceInv(cfg, fx, s) && task in s.log && i < |s.log[task]|
    ensures WellFormed(cfg, task, s.log[task][i]) && s.log[task][i].state.taskId == task
    ensures ReferenceCommit(cfg, fx, s.log[task][i])
    ensures s.log[task][i].state.scenarioId == s.log[task][0].state.scenarioId
  {
    hide Inv, RestartsApproved, ReferencePc, ExpectedLedger, RowsHaveWorkflows, ReferenceCommit, LinkedAt, CausedAt;
    assert ReferenceLog(cfg, fx, task, s.log[task]);
    LogWellFormed(cfg, task, s.log[task], i);
    ReferenceStaysOnTrack(cfg, fx, task, s.log[task], i);
  }

  // ----- one step of a process -----

  lemma ScenarioIsExpected(fx: Fixtures, s: WorkflowState, tool: Tool)
    requires OnTrack(fx, s) && Progress(s) < 6 && tool == ToolAt(Progress(s))
    ensures s.scenarioId in fx.scenarios
    ensures var answer := ScenarioAnswer(fx, s, tool, SentArguments(tool));
            answer.BackendRetryable? || answer == Returned(Expected(fx, s.scenarioId, tool))
  {
    StepDone(fx, s, RestartService);
  }

  lemma EngineIsReference(cfg: Config, fx: Fixtures, w: World, p: Proc, c: Commit, answer: EngineAnswer)
    requires cfg.Valid() && p.base == Some(c.state) && ReferenceCommit(cfg, fx, c)
    requires EngineFaithful(fx, c.state, answer)
    ensures ReferencePc(cfg, fx, w, p, AfterEngine(cfg, c.state, answer))
  {
    hide ReferenceDecision, HistoryOnTrack, Healthy, Unhealthy, Expected, ValidatedRequest, RequestReason;
    PolicyFollowsOrder(fx, c.state);
    if answer.Decide? {
      assert ReferencePc(cfg, fx, w, p, AfterDecision(cfg, c.state, answer.decision, answer.usage));
    }
  }

  lemma LookupIsReference(cfg: Config, fx: Fixtures, log: map<TaskId, seq<Commit>>, w: World, p: Proc,
          c: Commit, a: Answer)
    requires cfg.Valid() && p.base == Some(c.state) && c.state.scenarioId in fx.scenarios && p.pc.LookingUp?
    requires Gated(cfg, w, p.task, p.pc) && ExpectedLedger(cfg, fx, log, w)
    requires p.pc.arguments == SentArguments(p.pc.tool)
    requires (NeedsApproval(p.pc.tool, p.pc.arguments) <==> p.pc.tool.RestartService?)
    requires p.task in log && log[p.task] != [] && log[p.task][0].state.scenarioId == c.state.scenarioId
    ensures var (v, q) := StepProc(cfg, w, p, a);
            ReferencePc(cfg, fx, v, q, q.pc) && v == w
  {
    hide StepProc, Expected, NeedsApproval, SentArguments;
    OnLookup(cfg, w, p, a);
    var key := ActionIdOf(cfg, p.task, p.pc.tool, p.pc.arguments);
    assert key in w.ledger ==> ExpectedRow(cfg, fx, log, w, key, w.ledger[key]);
  }

  lemma CallIsReference(cfg: Config, fx: Fixtures, w: World, p: Proc, c: Commit, a: Answer)
    requires cfg.Valid() && p.base == Some(c.state) && ReferenceCommit(cfg, fx, c) && p.pc.Calling?
    requires AnswersFaithfully(fx, p, a)
    requires Progress(c.state) < 6 && p.pc.tool == ToolAt(Progress(c.state))
    requires p.pc.arguments == SentArguments(p.pc.tool)
    ensures var (v, q) := StepProc(cfg, w, p, a);
            ReferencePc(cfg, fx, v, q, q.pc) && v == w
  {
    hide StepProc, Expected, SentArguments, StructuredResult, HistoryOnTrack, Healthy, Unhealthy, ReferenceDecision,
         ScenarioAnswer, OnTrack;
    OnCall(cfg, w, p, a);
    OnTrackScenario(fx, c.state);
    ScenarioIsExpected(fx, c.state, p.pc.tool);
  }

  lemma RecordIsReference(cfg: Config, fx: Fixtures, log: map<TaskId, seq<Commit>>, w: World, p: Proc,
          c: Commit, a: Answer)
    requires cfg.Valid() && p.base == Some(c.state) && c.state.scenarioId in fx.scenarios && p.pc.Recording?
    requires Gated(cfg, w, p.task, p.pc) && ReferencePc(cfg, fx, w, p, p.pc) && ExpectedLedger(cfg, fx, log, w)
    requires p.pc.arguments == SentArguments(p.pc.tool)
    requires (NeedsApproval(p.pc.tool, p.pc.arguments) <==> p.pc.tool.RestartService?)
    requires p.task in log && log[p.task] != [] && log[p.task][0].state.scenarioId == c.state.scenarioId
    ensures var (v, q) := StepProc(cfg, w, p, a);
            ReferencePc(cfg, fx, v, q, q.pc) && ExpectedLedger(cfg, fx, log, v) && v.approvals == w.approvals
  {
    hide StepProc, Expected, NeedsApproval, SentArguments;
    OnRecord(cfg, w, p, a);
  }

  lemma ToolStepIsReference(cfg: Config, fx: Fixtures, log: map<TaskId, seq<Commit>>, w: World, p: Proc,
          c: Commit, a: Answer)
    requires cfg.Valid() && p.base == Some(c.state) && ReferenceCommit(cfg, fx, c)
    requires p.pc.LookingUp? || p.pc.Calling? || p.pc.Recording?
    requires MayExecute(c, p.pc.tool, p.pc.arguments) && Gated(cfg, w, p.task, p.pc)
    requires ReferencePc(cfg, fx, w, p, p.pc) && AnswersFaithfully(fx, p, a) && ExpectedLedger(cfg, fx, log, w)
    requires p.task in log && log[p.task] != [] && log[p.task][0].state.scenarioId == c.state.scenarioId
    ensures var (v, q) := StepProc(cfg, w, p, a);
            ReferencePc(cfg, fx, v, q, q.pc) && ExpectedLedger(cfg, fx, log, v) && v.approvals == w.approvals
  {
    hide StepProc, Expected, NeedsApproval, SentArguments, ReferencePc, ExpectedLedger, Gated, MayExecute,
         AnswersFaithfully, OnTrack, HistoryOnTrack, ReferenceDecision, Healthy, Unhealthy;
    DueToolRuns(cfg, fx, c, p.pc.tool, p.pc.arguments);
    OnTrackScenario(fx, c.state);
    if p.pc.LookingUp? {
      LookupIsReference(cfg, fx, log, w, p, c, a);
    } else if p.pc.Calling? {
      CallIsReference(cfg, fx, w, p, c, a);
    } else {
      RecordIsReference(cfg, fx, log, w, p, c, a);
    }
  }

  lemma OtherStepIsReference(cfg: Config, fx: Fixtures, w: World, p: Proc, c: Commit, a: Answer)
    requires cfg.Valid() && p.base == Some(c.state) && WellFormed(cfg, p.task, c) && PcOk(cfg, c, p.pc)
    requires ReferenceCommit(cfg, fx, c)
    requires !p.pc.LookingUp? && !p.pc.Calling? && !p.pc.Recording? && !p.pc.AskingEngine? && !p.pc.Loading?
    requires !CommitsNow(w, p)
    requires ReferencePc(cfg, fx, w, p, p.pc)
    ensures var (v, q) := StepProc(cfg, w, p, a);
            (VerdictsKept(w, v) && v.workflows == w.workflows ==> ReferencePc(cfg, fx, v, q, q.pc)) && v.ledger == w.ledger
  {
    hide LookupStep, RecordStep, AfterBackend, AfterEngine, Effect, AfterSave, RetryRow, ReferenceCommit,
         Follows, ByReference, Expected, MayExecute, ReferencePc;
    if p.pc.CheckingApproval? {
      ResumeIsReference(cfg, fx, w, p, c, a);
    } else if p.pc.Emitting? {
      EmitIsReference(cfg, fx, w, p, a);
    } else {
      PlainIsReference(cfg, fx, w, p, a);
    }
  }

  lemma ResumeIsReference(cfg: Config, fx: Fixtures, w: World, p: Proc, c: Commit, a: Answer)
    requires cfg.Valid() && p.base == Some(c.state) && WellFormed(cfg, p.task, c) && p.pc.CheckingApproval?
    requires c.state.Resumable()
    ensures var (v, q) := StepProc(cfg, w, p, a);
            v == w && ReferencePc(cfg, fx, v, q, q.pc)
  {
    hide SaveStep, LookupStep, RecordStep, RetryStep, EngineStep, ResolveStep, AfterBackend, LoadStep, Expected,
         ByReference;
    var pending := c.state.pendingAction.value;
    ExecuteValidated(pending.tool, pending.arguments);
    assert ReferencePc(cfg, fx, w, p, LookingUp(pending.tool, pending.arguments));
  }

  lemma EmitIsReference(cfg: Config, fx: Fixtures, w: World, p: Proc, a: Answer)
    requires cfg.Valid() && p.pc.Emitting? && ReferencePc(cfg, fx, w, p, p.pc)
    ensures var (v, q) := StepProc(cfg, w, p, a);
            v == RecordEvent(w, p.task, p.pc.kind) && q == p.(pc := p.pc.next) && ReferencePc(cfg, fx, v, q, q.pc)
  {
    hide ByReference, Expected;
    ReferencePcStable(cfg, fx, w, RecordEvent(w, p.task, p.pc.kind), p, p.(pc := p.pc.next), p.pc.next);
  }

  /** What a program counter promises survives what others do. */
  lemma ReferencePcStable(cfg: Config, fx: Fixtures, w: World, v: World, p: Proc, q: Proc, pc: Pc)
    requires ReferencePc(cfg, fx, w, p, pc) && VerdictsKept(w, v) && w.workflows.Keys <= v.workflows.Keys
    requires q.base == p.base && q.task == p.task
    ensures ReferencePc(cfg, fx, v, q, pc)
  {
    hide ByReference, Expected;
    if pc.Emitting? {
      ReferencePcStable(cfg, fx, w, v, p, q, pc.next);
    }
  }

  lemma PlainIsReference(cfg: Config, fx: Fixtures, w: World, p: Proc, a: Answer)
    requires cfg.Valid() && ReferencePc(cfg, fx, w, p, p.pc) && !CommitsNow(w, p)
    requires p.base.Some? ==> p.base.value.taskId == p.task
    requires !p.pc.LookingUp? && !p.pc.Calling? && !p.pc.Recording? && !p.pc.AskingEngine? && !p.pc.Loading?
    requires !p.pc.CheckingApproval? && !p.pc.Emitting?
    ensures var (v, q) := StepProc(cfg, w, p, a);
            ReferencePc(cfg, fx, v, q, q.pc) && v.ledger == w.ledger
  {
    hide LoadStep, EngineStep, ResumeStep, LookupStep, RecordStep, AfterBackend, Effect, AfterSave, RetryRow, Expected;
    if p.pc.Saving? && p.base.Some? {
      ApplyKeepsTask(cfg, p.base.value, p.pc.move);
    }
  }

  // ----- putting a step together -----

  lemma ExpectedRowStable(cfg: Config, fx: Fixtures, log: map<TaskId, seq<Commit>>, longer: map<TaskId, seq<Commit>>,
          w: World, v: World, key: ActionId, row: LedgerRow)
    requires LogGrows(log, longer) && VerdictsKept(w, v) && ExpectedRow(cfg, fx, log, w, key, row)
    ensures ExpectedRow(cfg, fx, longer, v, key, row)
  {
    hide Expected;
    assert longer[key.task][0] == log[key.task][0];
  }

  lemma SameLedgerExpected(cfg: Config, fx: Fixtures, log: map<TaskId, seq<Commit>>, w: World, v: World)
    requires ExpectedLedger(cfg, fx, log, w) && v.ledger == w.ledger
    ensures VerdictsKept(w, v) ==> ExpectedLedger(cfg, fx, log, v)
  {
    hide Expected, SentArguments, VerdictsKept, ExpectedRow, LogGrows;
    LogsStand(log);
    if VerdictsKept(w, v) {
      forall key | key in v.ledger ensures ExpectedRow(cfg, fx, log, v, key, v.ledger[key]) {
        ExpectedRowStable(cfg, fx, log, log, w, v, key, v.ledger[key]);
      }
    }
  }

  lemma LogsStand(log: map<TaskId, seq<Commit>>)
    ensures LogGrows(log, log)
  {
  }

  ghost predicate ReferenceTask(cfg: Config, fx: Fixtures, s: Sys, task: TaskId)
    requires cfg.Valid() && task in s.log
  {
    ReferenceLog(cfg, fx, task, s.log[task]) && RestartsApproved(cfg, s, task)
  }

  /** Only what a step touched needs a look. */
  lemma AssembleReference(cfg: Config, fx: Fixtures, s: Sys, r: Sys)
    requires cfg.Valid() && ReferenceInv(cfg, fx, s) && Inv(cfg, r)
    requires LogGrows(s.log, r.log) && VerdictsKept(s.world, r.world)
    requires s.world.workflows.Keys <= r.world.workflows.Keys
    requires forall pid | pid in r.procs ::
               (pid in s.procs && r.procs[pid] == s.procs[pid]) || ReferencePc(cfg, fx, r.world, r.procs[pid], r.procs[pid].pc)
    requires forall task | task in r.log :: (task in s.log && r.log[task] == s.log[task]) || ReferenceTask(cfg, fx, r, task)
    requires forall key | key in r.world.ledger ::
               (key in s.world.ledger && r.world.ledger[key] == s.world.ledger[key]) || ExpectedRow(cfg, fx, r.log, r.world, key, r.world.ledger[key])
    requires RowsHaveWorkflows(r.world)
    ensures ReferenceInv(cfg, fx, r)
  {
    hide Inv, ReferencePc, ReferenceLog, VerdictsKept, LogGrows, ExpectedRow, RowsHaveWorkflows;
    forall pid | pid in r.procs ensures ReferencePc(cfg, fx, r.world, r.procs[pid], r.procs[pid].pc) {
      if pid in s.procs && r.procs[pid] == s.procs[pid] {
        ReferencePcStable(cfg, fx, s.world, r.world, s.procs[pid], s.procs[pid], s.procs[pid].pc);
      }
    }
    forall key | key in r.world.ledger ensures ExpectedRow(cfg, fx, r.log, r.world, key, r.world.ledger[key]) {
      if key in s.world.ledger && r.world.ledger[key] == s.world.ledger[key] {
        ExpectedRowStable(cfg, fx, s.log, r.log, s.world, r.world, key, r.world.ledger[key]);
      }
    }
    forall task | task in r.log ensures RestartsApproved(cfg, r, task) {
      if task in s.log && r.log[task] == s.log[task] {
        assert RestartsApproved(cfg, s, task);
        RestartsStayApproved(cfg, s, r, task);
      }
    }
  }

  lemma RestartsStayApproved(cfg: Config, s: Sys, r: Sys, task: TaskId)
    requires RestartsApproved(cfg, s, task) && task in s.log && task in r.log && r.log[task] == s.log[task]
    requires VerdictsKept(s.world, r.world)
    ensures RestartsApproved(cfg, r, task)
  {
  }

  lemma RowsKept(cfg: Config, w: World, p: Proc, a: Answer)
    requires cfg.Valid() && RowsHaveWorkflows(w) && (p.pc.Enqueuing? ==> p.task in w.workflows)
    requires w.workflows.Keys <= StepProc(cfg, w, p, a).0.workflows.Keys
    ensures RowsHaveWorkflows(StepProc(cfg, w, p, a).0)
  {
    hide LoadStep, EngineStep, ResumeStep, LookupStep, AfterBackend, Effect, AfterSave;
  }

  lemma EnqueuerIsLoaded(cfg: Config, s: Sys, pid: nat)
    requires cfg.Valid() && Inv(cfg, s) && pid in s.procs
    ensures s.procs[pid].pc.Enqueuing? ==> s.procs[pid].task in s.world.workflows
  {
    hide Inv, PcOk, Gated, LogOk;
    ProcIsOk(cfg, s, pid);
    LogIsOk(cfg, s, s.procs[pid].task);
  }

  lemma ReferenceTables(cfg: Config, fx: Fixtures, s: Sys)
    requires cfg.Valid() && ReferenceInv(cfg, fx, s)
    ensures Inv(cfg, s) && ExpectedLedger(cfg, fx, s.log, s.world) && RowsHaveWorkflows(s.world)
  {
    hide Inv, ReferenceLog, RestartsApproved, ReferencePc, ExpectedLedger, RowsHaveWorkflows;
  }

  lemma LoadIsReference(cfg: Config, fx: Fixtures, w: World, p: Proc, a: Answer)
    requires cfg.Valid() && p.pc.Loading? && ReferencePc(cfg, fx, w, p, p.pc)
    ensures var (v, q) := StepProc(cfg, w, p, a);
            v == w && ReferencePc(cfg, fx, v, q, q.pc)
  {
    hide SaveStep, EngineStep, ResumeStep, LookupStep, RecordStep, RetryStep, ResolveStep, AfterBackend, Expected;
  }

  /** A step that commits nothing. */
  lemma QuietIsReference(cfg: Config, fx: Fixtures, s: Sys, pid: nat, a: Answer)
    requires cfg.Valid() && ReferenceInv(cfg, fx, s) && pid in s.procs && !CommitsNow(s.world, s.procs[pid])
    requires AnswersFaithfully(fx, s.procs[pid], a)
    ensures var p := s.procs[pid];
            var (v, q) := StepProc(cfg, s.world, p, a);
            && (VerdictsKept(s.world, v) && v.workflows == s.world.workflows ==> ReferencePc(cfg, fx, v, q, q.pc))
            && (VerdictsKept(s.world, v) ==> ExpectedLedger(cfg, fx, s.log, v))
  {
    hide StepProc, ReferenceInv, Inv, ReferencePc, ExpectedLedger, RowsHaveWorkflows, PcOk, Gated, WellFormed,
         ReferenceCommit, AnswersFaithfully, VerdictsKept, CommitsNow;
    var p := s.procs[pid];
    ReferenceProc(cfg, fx, s, pid);
    ReferenceTables(cfg, fx, s);
    if p.pc.Loading? {
      LoadIsReference(cfg, fx, s.world, p, a);
    } else if p.base.None? {
      UnloadedIsReference(cfg, fx, s, pid, a);
      SameLedgerExpected(cfg, fx, s.log, s.world, StepProc(cfg, s.world, p, a).0);
    } else {
      LoadedIsReference(cfg, fx, s, pid, a);
    }
  }

  lemma UnloadedIsReference(cfg: Config, fx: Fixtures, s: Sys, pid: nat, a: Answer)
    requires cfg.Valid() && ReferenceInv(cfg, fx, s) && pid in s.procs && s.procs[pid].base.None?
    requires !s.procs[pid].pc.Loading?
    ensures var (v, q) := StepProc(cfg, s.world, s.procs[pid], a);
            ReferencePc(cfg, fx, v, q, q.pc) && v.ledger == s.world.ledger
  {
    hide Inv, ReferenceInv, LoadStep, SaveStep, EngineStep, ResumeStep, LookupStep, RecordStep, RetryStep,
         ResolveStep, AfterBackend, Expected;
    ReferenceProc(cfg, fx, s, pid);
    ProcIsOk(cfg, s, pid);
  }

  lemma LoadedIsReference(cfg: Config, fx: Fixtures, s: Sys, pid: nat, a: Answer)
    requires cfg.Valid() && ReferenceInv(cfg, fx, s) && pid in s.procs && s.procs[pid].base.Some?
    requires !s.procs[pid].pc.Loading?
    requires AnswersFaithfully(fx, s.procs[pid], a) && !CommitsNow(s.world, s.procs[pid])
    ensures var (v, q) := StepProc(cfg, s.world, s.procs[pid], a);
            && (VerdictsKept(s.world, v) && v.workflows == s.world.workflows ==> ReferencePc(cfg, fx, v, q, q.pc))
            && (VerdictsKept(s.world, v) ==> ExpectedLedger(cfg, fx, s.log, v))
  {
    hide StepProc, ReferenceInv, Inv, ReferencePc, RowsHaveWorkflows, Gated, WellFormed, ReferenceCommit,
         VerdictsKept, CommitsNow, MayExecute, Follows, ReferenceDecision;
    var p := s.procs[pid];
    ReferenceProc(cfg, fx, s, pid);
    ReferenceTables(cfg, fx, s);
    ReferenceBase(cfg, fx, s, pid);
    var c := s.log[p.task][p.base.value.version];
    if p.pc.LookingUp? || p.pc.Calling? || p.pc.Recording? {
      ToolStepIsReference(cfg, fx, s.log, s.world, p, c, a);
    } else if p.pc.AskingEngine? {
      AskingIsReference(cfg, fx, s.world, p, c, a);
    } else {
      OtherStepIsReference(cfg, fx, s.world, p, c, a);
    }
    if !p.pc.LookingUp? && !p.pc.Calling? && !p.pc.Recording? {
      SameLedgerExpected(cfg, fx, s.log, s.world, StepProc(cfg, s.world, p, a).0);
    }
  }

  lemma AskingIsReference(cfg: Config, fx: Fixtures, w: World, p: Proc, c: Commit, a: Answer)
    requires cfg.Valid() && p.base == Some(c.state) && ReferenceCommit(cfg, fx, c) && p.pc.AskingEngine?
    requires AnswersFaithfully(fx, p, a)
    ensures var (v, q) := StepProc(cfg, w, p, a);
            v == w && ReferencePc(cfg, fx, v, q, q.pc)
  {
    hide LoadStep, SaveStep, ResumeStep, LookupStep, RecordStep, RetryStep, ResolveStep, AfterBackend,
         AfterEngine, ReferenceCommit, ReferencePc, EngineFaithful;
    EngineIsReference(cfg, fx, w, p, c, a.engine);
    ReferencePcOfCounter(cfg, fx, w, p, p.(pc := AfterEngine(cfg, c.state, a.engine)), AfterEngine(cfg, c.state, a.engine));
  }

  lemma ReferencePcOfCounter(cfg: Config, fx: Fixtures, w: World, p: Proc, q: Proc, pc: Pc)
    requires ReferencePc(cfg, fx, w, p, pc) && q.base == p.base && q.task == p.task
    ensures ReferencePc(cfg, fx, w, q, pc)
  {
    hide ByReference, Expected;
    if pc.Emitting? {
      ReferencePcOfCounter(cfg, fx, w, p, q, pc.next);
    }
  }

  lemma QuietKeepsReference(cfg: Config, fx: Fixtures, s: Sys, pid: nat, a: Answer)
    requires cfg.Valid() && ReferenceInv(cfg, fx, s) && pid in s.procs && !CommitsNow(s.world, s.procs[pid])
    requires AnswersFaithfully(fx, s.procs[pid], a)
    ensures ReferenceInv(cfg, fx, DoAdvance(cfg, s, pid, a))
  {
    hide StepProc, ReferenceInv, Inv, ReferencePc, RowsHaveWorkflows, AnswersFaithfully, VerdictsKept,
         CommitsNow, LedgerOk, LedgerKept, StructuredResult, ExpectedRow, SeenNow, Apply;
    var p := s.procs[pid];
    var r := DoAdvance(cfg, s, pid, a);
    ReferenceTables(cfg, fx, s);
    ProcIsOk(cfg, s, pid);
    RecordingIsStructured(cfg, s, pid);
    StepKeepsTables(cfg, s.world, p, a);
    AdvanceKeepsInv(cfg, s, pid, a);
    QuietIsReference(cfg, fx, s, pid, a);
    EnqueuerIsLoaded(cfg, s, pid);
    RowsKept(cfg, s.world, p, a);
    AssembleReference(cfg, fx, s, r);
  }

  // ----- commits -----

  /** After an accepted request of the policy comes the approval gate or the lookup, never a failure. */
  lemma AcceptIsReference(cfg: Config, fx: Fixtures, w: World, p: Proc, c: Commit)
    requires cfg.Valid() && c.move.Accept? && ReferenceCommit(cfg, fx, c)
    requires c.move.decision.action.UseTool? && ValidatedRequest(c.move.decision).Some?
    ensures ReferencePc(cfg, fx, w, p, AfterAccept(cfg, p.task, c.move.decision))
  {
    hide ReferenceDecision, HistoryOnTrack, Healthy, Unhealthy, Expected, Validate, Evaluate, RequestedArguments;
    PolicyFollowsOrder(fx, c.state);
    var d := c.move.decision;
    var tool := ToolAt(Progress(c.state));
    OnlyRestartNeedsApproval(tool);
    ValidateIdempotent(tool, RequestedArguments(d.arguments));
    ExecuteValidated(tool, SentArguments(tool));
  }

  lemma AfterSaveIsReference(cfg: Config, fx: Fixtures, w: World, p: Proc, c: Commit)
    requires cfg.Valid() && ReferenceCommit(cfg, fx, c)
    requires !c.move.FailRun? && !c.move.FailDelivery?
    requires c.move.Accept? ==> c.move.decision.action.UseTool? && ValidatedRequest(c.move.decision).Some?
    ensures ReferencePc(cfg, fx, w, p, AfterSave(cfg, p.task, c.move))
  {
    hide ReferenceCommit, AfterAccept, ValidatedRequest;
    if c.move.Accept? {
      AcceptIsReference(cfg, fx, w, p, c);
    } else {
      var next := AfterSave(cfg, p.task, c.move);
      if next.Emitting? {
        assert ReferencePc(cfg, fx, w, p, next.next);
      }
    }
  }

  lemma ReferenceLogExtends(cfg: Config, fx: Fixtures, task: TaskId, log: seq<Commit>, c: Commit)
    requires cfg.Valid() && ReferenceLog(cfg, fx, task, log) && Linked(cfg, log[|log| - 1], c)
    requires ByReference(fx, log[|log| - 1].state, c.move)
    ensures ReferenceLog(cfg, fx, task, log + [c])
  {
    hide Linked, ByReference, LinkedAt;
    ValidLogExtends(cfg, task, log, c);
    var longer := log + [c];
    forall i: nat | 0 < i < |longer| ensures CausedAt(fx, longer, i) {
      if i < |log| {
        assert CausedAt(fx, log, i);
      } else {
        CausedLast(fx, log, c);
      }
    }
  }

  lemma CausedLast(fx: Fixtures, log: seq<Commit>, c: Commit)
    requires log != [] && ByReference(fx, log[|log| - 1].state, c.move)
    ensures CausedAt(fx, log + [c], |log|)
  {
    hide ByReference;
  }

  lemma RestartsAfterCommit(cfg: Config, s: Sys, r: Sys, task: TaskId, m: Move)
    requires cfg.Valid() && task in s.log && s.log[task] != [] && RestartsApproved(cfg, s, task)
    requires r.log == s.log[task := s.log[task] + [Commit(m, Apply(cfg, Last(s, task).state, m))]]
    requires r.world.approvals == s.world.approvals
    requires m.FinishTool? && m.tool.RestartService? ==> IsApproved(s.world, task, RestartKey(cfg, task))
    ensures RestartsApproved(cfg, r, task)
  {
    hide RequestReason, ValidatedRequest;
  }

  lemma CommitKeepsReference(cfg: Config, fx: Fixtures, s: Sys, pid: nat, a: Answer)
    requires cfg.Valid() && ReferenceInv(cfg, fx, s) && pid in s.procs && CommitsNow(s.world, s.procs[pid])
    ensures ReferenceInv(cfg, fx, DoAdvance(cfg, s, pid, a))
  {
    hide DoAdvance, ReferenceInv, Inv, ReferenceLog, RestartsApproved, RowsHaveWorkflows, ExpectedRow, Apply,
         AfterSave, Follows, WellFormed, ValidLog, ByReference, ReferenceCommit, ValidatedRequest;
    var p := s.procs[pid];
    var r := DoAdvance(cfg, s, pid, a);
    var c := CommitOf(cfg, p);
    ReferenceProc(cfg, fx, s, pid);
    ReferenceTables(cfg, fx, s);
    CommitterIsCurrent(cfg, s, pid);
    CommitHasShape(cfg, s, pid, a);
    AdvanceKeepsInv(cfg, s, pid, a);
    CommittedTaskIsReference(cfg, fx, s, r, pid);
    CommitKeepsRows(s, r, pid, c);
    AssembleReference(cfg, fx, s, r);
  }

  lemma CommitKeepsRows(s: Sys, r: Sys, pid: nat, c: Commit)
    requires Commits(s, r, pid, c) && RowsHaveWorkflows(s.world)
    ensures RowsHaveWorkflows(r.world) && s.world.workflows.Keys <= r.world.workflows.Keys
    ensures VerdictsKept(s.world, r.world)
  {
  }

  lemma CommittedTaskIsReference(cfg: Config, fx: Fixtures, s: Sys, r: Sys, pid: nat)
    requires cfg.Valid() && ReferenceInv(cfg, fx, s) && pid in s.procs && CommitsNow(s.world, s.procs[pid])
    requires Inv(cfg, s)
    requires Commits(s, r, pid, CommitOf(cfg, s.procs[pid]))
    requires r.procs[pid].pc == AfterSave(cfg, s.procs[pid].task, s.procs[pid].pc.move)
    ensures ReferenceTask(cfg, fx, r, s.procs[pid].task)
    ensures ReferencePc(cfg, fx, r.world, r.procs[pid], r.procs[pid].pc)
  {
    hide ReferenceInv, Inv, ReferenceLog, RestartsApproved, RowsHaveWorkflows, ExpectedRow, Apply, AfterSave,
         WellFormed, ValidLog, ReferenceCommit, ValidatedRequest, Expected, ReferenceDecision, MayExecuteTool,
         RequestReason;
    var p := s.procs[pid];
    var c := CommitOf(cfg, p);
    ReferenceProc(cfg, fx, s, pid);
    CommitterIsCurrent(cfg, s, pid);
    ReferenceTaskOf(cfg, fx, s, p.task);
    BaseIsReference(cfg, fx, s, p.task, |s.log[p.task]| - 1);
    var last := Last(s, p.task);
    FollowsReference(cfg, fx, p.task, last, p.pc.move);
    ReferenceLogExtends(cfg, fx, p.task, s.log[p.task], c);
    RestartsAfterCommit(cfg, s, r, p.task, p.pc.move);
    AfterSaveIsReference(cfg, fx, r.world, r.procs[pid], c);
  }

  lemma ReferenceTaskOf(cfg: Config, fx: Fixtures, s: Sys, task: TaskId)
    requires cfg.Valid() && ReferenceInv(cfg, fx, s) && task in s.log
    ensures ReferenceTask(cfg, fx, s, task)
  {
    hide Inv, ReferenceLog, RestartsApproved, RowsHaveWorkflows, ExpectedRow, ReferencePc;
  }

  // ----- the other steps -----

  lemma CreateKeepsReference(cfg: Config, fx: Fixtures, s: Sys, task: TaskId, goal: string, scenario: string, now: real)
    requires cfg.Valid() && ReferenceInv(cfg, fx, s) && scenario in fx.scenarios
    ensures ReferenceInv(cfg, fx, DoCreate(cfg, s, task, goal, scenario, now))
  {
    hide ReferenceInv, Inv, ReferencePc, ExpectedRow, LinkedAt, LogGrows;
    ReferenceTables(cfg, fx, s);
    CreateKeepsInv(cfg, s, task, goal, scenario, now);
    var r := DoCreate(cfg, s, task, goal, scenario, now);
    if task !in s.world.workflows {
      LogIsOk(cfg, s, task);
      AssembleReference(cfg, fx, s, r);
    }
  }

  lemma ReplayKeepsReference(cfg: Config, fx: Fixtures, s: Sys, row: nat, task: TaskId, now: real)
    requires cfg.Valid() && ReferenceInv(cfg, fx, s)
    ensures ReferenceInv(cfg, fx, DoReplay(cfg, s, row, task, now))
  {
    hide DoReplay, ReferenceInv, Inv, ReferencePc, ReferenceLog, RestartsApproved, ExpectedRow, Apply, Linked,
         ValidLog, LogGrows, RowsHaveWorkflows;
    if Replayable(s.world, row, task) {
      ReferenceTables(cfg, fx, s);
      ReplayKeepsInv(cfg, s, row, task, now);
      ReplayEffect(cfg, s, row, task, now);
      ReferenceTaskOf(cfg, fx, s, task);
      var r := DoReplay(cfg, s, row, task, now);
      var c := Commit(Replay, Apply(cfg, s.log[task][|s.log[task]| - 1].state, Replay));
      ReferenceLogExtends(cfg, fx, task, s.log[task], c);
      RestartsAfterCommit(cfg, s, r, task, Replay);
      ReplayKeepsRows(cfg, s, row, task, now);
      AssembleReference(cfg, fx, s, r);
    } else {
      NoReplay(cfg, s, row, task, now);
    }
  }

  lemma ReplayKeepsRows(cfg: Config, s: Sys, row: nat, task: TaskId, now: real)
    requires cfg.Valid() && RowsHaveWorkflows(s.world) && task in s.log
    ensures RowsHaveWorkflows(DoReplay(cfg, s, row, task, now).world)
  {
    hide Apply;
  }

  /** A process that has just begun, or ended. */
  predicate Harmless(w: World, p: Proc) {
    p.pc.Halted? || (p.pc.Loading? && !p.pc.purpose.ToFail? && (p.pc.purpose.ToProcess? ==> p.task in w.workflows))
  }

  /** Steps that leave checkpoints, approvals and the ledger alone. */
  lemma UnsavedKeepsReference(cfg: Config, fx: Fixtures, s: Sys, r: Sys)
    requires cfg.Valid() && ReferenceInv(cfg, fx, s) && Inv(cfg, r) && r.log == s.log && RowsHaveWorkflows(r.world)
    requires r.world.workflows == s.world.workflows && r.world.approvals == s.world.approvals
    requires r.world.ledger == s.world.ledger
    requires forall pid | pid in r.procs :: (pid in s.procs && r.procs[pid] == s.procs[pid]) || Harmless(r.world, r.procs[pid])
    ensures ReferenceInv(cfg, fx, r)
  {
    hide ReferenceInv, Inv, ExpectedRow, ByReference, RowsHaveWorkflows, Expected;
    AssembleReference(cfg, fx, s, r);
  }

  lemma ClaimKeepsRows(cfg: Config, w: World, worker: string, now: real)
    requires RowsHaveWorkflows(w)
    ensures var (v, d) := Claim(w, worker, cfg.leaseSeconds, now);
            && v == w.(queue := v.queue) && RowsHaveWorkflows(v)
            && (d.Some? ==> d.value.task in v.workflows)
  {
  }

  lemma ClaimKeepsReference(cfg: Config, fx: Fixtures, s: Sys, pid: nat, worker: string, now: real)
    requires cfg.Valid() && ReferenceInv(cfg, fx, s)
    ensures ReferenceInv(cfg, fx, DoClaim(cfg, s, pid, worker, now))
  {
    hide ReferenceInv, Inv, Claim, RowsHaveWorkflows;
    ReferenceTables(cfg, fx, s);
    DeliveryStepKeepsInv(cfg, s, ClaimNext(pid, worker, now));
    ClaimKeepsRows(cfg, s.world, worker, now);
    UnsavedKeepsReference(cfg, fx, s, DoClaim(cfg, s, pid, worker, now));
  }

  lemma RequestKeepsReference(cfg: Config, fx: Fixtures, s: Sys, pid: nat, task: TaskId, purpose: Purpose)
    requires cfg.Valid() && ReferenceInv(cfg, fx, s) && (purpose.ToApprove? || purpose.ToReject?)
    ensures ReferenceInv(cfg, fx, DoRequest(s, pid, task, purpose))
  {
    hide ReferenceInv, Inv, RowsHaveWorkflows;
    ReferenceTables(cfg, fx, s);
    RequestKeepsInv(cfg, s, pid, task, purpose);
    UnsavedKeepsReference(cfg, fx, s, DoRequest(s, pid, task, purpose));
  }

  lemma PlainStepKeepsReference(cfg: Config, fx: Fixtures, s: Sys, step: Step)
    requires cfg.Valid() && ReferenceInv(cfg, fx, s) && (step.Crash? || step.Heartbeat? || step.NoteHeartbeat?)
    ensures ReferenceInv(cfg, fx, Do(cfg, s, step))
  {
    hide ReferenceInv, Inv, LostByCrash, DoCreate, DoClaim, DoReplay, DoAdvance, DoRequest;
    ReferenceTables(cfg, fx, s);
    DeliveryStepKeepsInv(cfg, s, step);
    UnsavedKeepsReference(cfg, fx, s, Do(cfg, s, step));
  }

  lemma DoKeepsReference(cfg: Config, fx: Fixtures, s: Sys, step: Step)
    requires cfg.Valid() && ReferenceInv(cfg, fx, s) && Faithful(fx, s, step)
    ensures ReferenceInv(cfg, fx, Do(cfg, s, step))
  {
    hide ReferenceInv, Inv, DoAdvance, DoReplay, DoCreate, DoClaim, DoRequest, DoCrash, AnswersFaithfully, CommitsNow;
    match step {
      case CreateIncident(task, goal, scenario, now) => CreateKeepsReference(cfg, fx, s, task, goal, scenario, now);
      case Advance(pid, answer) =>
        if pid !in s.procs {
          NobodyAdvances(cfg, s, pid, answer);
        } else if CommitsNow(s.world, s.procs[pid]) {
          CommitKeepsReference(cfg, fx, s, pid, answer);
        } else {
          QuietKeepsReference(cfg, fx, s, pid, answer);
        }
      case ReplayRow(row, task, now) => ReplayKeepsReference(cfg, fx, s, row, task, now);
      case ClaimNext(pid, worker, now) => ClaimKeepsReference(cfg, fx, s, pid, worker, now);
      case RequestApproval(pid, task) => RequestKeepsReference(cfg, fx, s, pid, task, ToApprove);
      case RequestRejection(pid, task, error) => RequestKeepsReference(cfg, fx, s, pid, task, ToReject(error));
      case _ => PlainStepKeepsReference(cfg, fx, s, step);
    }
  }

  lemma {:induction false} TraceKeepsReference(cfg: Config, fx: Fixtures, steps: seq<Step>, trace: seq<Sys>, i: nat)
    requires cfg.Valid() && FaithfulTrace(cfg, fx, steps, trace) && i <= |steps|
    ensures ReferenceInv(cfg, fx, trace[i])
  {
    hide Do, Faithful;
    if i == 0 {
      RunInv(cfg, []);
    } else {
      TraceKeepsReference(cfg, fx, steps, trace, i - 1);
      assert StepAt(cfg, steps, trace, i - 1) && FaithfulAt(fx, steps, trace, i - 1);
      DoKeepsReference(cfg, fx, trace[i - 1], steps[i - 1]);
    }
  }

  lemma ReachedKeepsReference(cfg: Config, fx: Fixtures, steps: seq<Step>, s: Sys)
    requires cfg.Valid() && FaithfullyReached(cfg, fx, steps, s)
    ensures ReferenceInv(cfg, fx, s)
  {
    hide Do, Faithful, ReferenceInv;
    var trace :| FaithfulTrace(cfg, fx, steps, trace) && trace[|steps|] == s;
    TraceKeepsReference(cfg, fx, steps, trace, |steps|);
  }

  /**
   Crash transparency. After any run in which the engine and the backend, when they answer at all, answer
   by the policy and the scenario: the completed steps are a prefix of the fixed order with exactly the
   fault-free evidence; a completed workflow had its restart approved and its error rate verified below
   one; a failed one had all six tools done.
   */
  lemma CrashesLeaveNoTrace(cfg: Config, fx: Fixtures, steps: seq<Step>, s: Sys, task: TaskId)
    requires cfg.Valid() && FaithfullyReached(cfg, fx, steps, s) && task in s.world.workflows
    ensures var w := s.world;
            var state := w.workflows[task].state;
            && OnTrack(fx, state)
            && (state.status.Completed? ==>
                  && Progress(state) == 6
                  && IsApproved(w, task, RestartKey(cfg, task))
                  && Healthy(fx, state.evidence[VerifyRecovery]))
            && (state.status.Failed? ==> Progress(state) == 6 && Unhealthy(fx, state.evidence[VerifyRecovery]))
  {
    hide Inv, ReferenceInv, FaithfullyReached, HistoryOnTrack, ReferenceDecision, Healthy, Unhealthy, Expected, ReferenceLog,
         ExpectedLedger, WellFormed, RestartKey, SentArguments, RowsHaveWorkflows, Tries;
    ReachedKeepsReference(cfg, fx, steps, s);
    ReferenceTables(cfg, fx, s);
    StoredIsLast(cfg, s, task);
    BaseIsReference(cfg, fx, s, task, |s.log[task]| - 1);
    ReferenceTaskOf(cfg, fx, s, task);
    assert Rank(VerifyRecovery) == 5 && Rank(RestartService) == 4;
  }
}
