/**
 Optimistic concurrency over every interleaving: no hypothesis on leases, settlement or approvals.
 */
module Refinement {
  import opened Prelude
  import opened Models
  import opened Policy
  import opened Tools
  import opened Tables
  import opened Checkpoints
  import opened CheckpointFacts
  import opened Machine
  import opened System

  /** What a program counter promises about the checkpoint its process last loaded or saved. */
  ghost predicate PcOk(cfg: Config, c: Commit, pc: Pc)
    requires cfg.Valid()
  {
    match pc
    case Halted => true
    case Loading(_) => true
    case Saving(m) => Follows(cfg, c, m)
    case Emitting(_, next) => PcOk(cfg, c, next)
    case AskingEngine => c.move.Start?
    case CheckingApproval => c.state.Resumable()
    case LookingUp(tool, arguments) => MayExecute(c, tool, arguments)
    case Calling(tool, arguments) => MayExecute(c, tool, arguments)
    case Recording(tool, arguments, result) => MayExecute(c, tool, arguments) && StructuredResult(result)
    case PuttingApproval(action) => c.move.Wait? && c.move.action.actionId == action
    case Acknowledging(settlement) =>
      (match settlement
       case Finish => c.state.Terminal() || c.state.status.WaitingForApproval?
       case Park => c.state.Resumable()
       case Reenqueue => c.state.status.Queued?
       case FailAfter(_) => c.move.Start?)
    case Enqueuing => c.state.status.Queued?
    case Retrying(error) => error.StaleCheckpoint? || c.state.status.Queued?
    case Resolving(action, _, _) =>
      && c.state.status.WaitingForApproval?
      && c.state.pendingAction.Some?
      && c.state.pendingAction.value.actionId == action
  }

  /** Counters a process can have before any checkpoint was loaded. */
  predicate UnloadedPc(pc: Pc) {
    pc.Halted? || pc.Loading? || (pc.Acknowledging? && pc.settlement.FailAfter?)
  }

  /** An approval-required tool call is only ahead once its own action id is approved. */
  predicate Gated(cfg: Config, w: World, task: TaskId, pc: Pc) {
    match pc
    case Emitting(_, next) => Gated(cfg, w, task, next)
    case LookingUp(tool, arguments) => GatedCall(cfg, w, task, tool, arguments)
    case Calling(tool, arguments) => GatedCall(cfg, w, task, tool, arguments)
    case Recording(tool, arguments, _) => GatedCall(cfg, w, task, tool, arguments)
    case _ => true
  }

  predicate GatedCall(cfg: Config, w: World, task: TaskId, tool: Tool, arguments: Arguments) {
    NeedsApproval(tool, arguments) ==> IsApproved(w, task, ActionIdOf(cfg, task, tool, arguments))
  }

  /** The checkpoint a process works from is one of the committed ones. */
  ghost predicate ProcOk(cfg: Config, w: World, log: map<TaskId, seq<Commit>>, p: Proc)
    requires cfg.Valid()
  {
    && Gated(cfg, w, p.task, p.pc)
    && (p.base.None? ==> UnloadedPc(p.pc))
    && (p.base.Some? ==>
      && p.task in log
      && p.base.value.version < |log[p.task]|
      && log[p.task][p.base.value.version].state == p.base.value
      && PcOk(cfg, log[p.task][p.base.value.version], p.pc))
  }

  ghost predicate LogOk(cfg: Config, w: World, log: map<TaskId, seq<Commit>>, task: TaskId)
    requires cfg.Valid() && task in log && task in w.workflows
  {
    && ValidLog(cfg, task, log[task])
    && w.workflows[task] == WorkflowRow(log[task][|log[task]| - 1].state, |log[task]| - 1)
  }

  predicate LedgerOk(ledger: map<ActionId, LedgerRow>) {
    forall key | key in ledger ::
      StructuredResult(ledger[key].result) && ledger[key].task == key.task && ledger[key].tool == key.tool
  }

  ghost predicate Inv(cfg: Config, s: Sys)
    requires cfg.Valid()
  {
    && s.world.workflows.Keys == s.log.Keys
    && (forall task | task in s.log :: LogOk(cfg, s.world, s.log, task))
    && (forall pid | pid in s.procs :: ProcOk(cfg, s.world, s.log, s.procs[pid]))
    && LedgerOk(s.world.ledger)
  }

  lemma ProcIsOk(cfg: Config, s: Sys, pid: nat)
    requires cfg.Valid() && Inv(cfg, s) && pid in s.procs
    ensures ProcOk(cfg, s.world, s.log, s.procs[pid]) && LedgerOk(s.world.ledger)
  {
    hide ProcOk, LogOk, LedgerOk;
  }

  lemma LogIsOk(cfg: Config, s: Sys, task: TaskId)
    requires cfg.Valid() && Inv(cfg, s)
    ensures task in s.world.workflows <==> task in s.log
    ensures task in s.log ==> LogOk(cfg, s.world, s.log, task) && s.log[task] != []
  {
    hide ProcOk, LedgerOk, LinkedAt;
  }

  /** The stored workflow is the last checkpoint. */
  lemma StoredIsLast(cfg: Config, s: Sys, task: TaskId)
    requires cfg.Valid() && Inv(cfg, s) && task in s.world.workflows
    ensures task in s.log && s.log[task] != [] && s.world.workflows[task].state == Last(s, task).state
  {
    hide ProcOk, LedgerOk, LinkedAt;
    LogIsOk(cfg, s, task);
  }

  ghost predicate LogGrows(before: map<TaskId, seq<Commit>>, after: map<TaskId, seq<Commit>>) {
    forall task | task in before :: task in after && before[task] <= after[task]
  }

  /** A verdict, once given, is never changed; an approval row is never removed. */
  predicate VerdictsKept(before: World, after: World) {
    && (forall key | key in before.approvals ::
          key in after.approvals
          && (before.approvals[key].Undecided? || after.approvals[key] == before.approvals[key]))
  }

  /** A ledger row is never changed or removed. */
  predicate LedgerKept(before: World, after: World) {
    forall key | key in before.ledger :: key in after.ledger && after.ledger[key] == before.ledger[key]
  }

  lemma GatedStable(cfg: Config, before: World, after: World, task: TaskId, pc: Pc)
    requires VerdictsKept(before, after) && Gated(cfg, before, task, pc)
    ensures Gated(cfg, after, task, pc)
  {
  }

  lemma ProcOkStable(cfg: Config, before: World, after: World,
                     log: map<TaskId, seq<Commit>>, longer: map<TaskId, seq<Commit>>, p: Proc)
    requires cfg.Valid() && ProcOk(cfg, before, log, p)
    requires VerdictsKept(before, after) && LogGrows(log, longer)
    ensures ProcOk(cfg, after, longer, p)
  {
    GatedStable(cfg, before, after, p.task, p.pc);
  }

  lemma ExecuteValidated(tool: Tool, arguments: Arguments)
    requires Executable(tool, arguments)
    ensures Execute(tool, arguments) == LookingUp(tool, arguments)
  {
  }

  /** After an accepted request: denial, approval or a lookup that needs no approval. */
  lemma AfterAcceptOk(cfg: Config, w: World, after: Commit)
    requires cfg.Valid() && after.move.Accept? && WellFormed(cfg, after.state.taskId, after)
    ensures PcOk(cfg, after, AfterAccept(cfg, after.state.taskId, after.move.decision))
    ensures Gated(cfg, w, after.state.taskId, AfterAccept(cfg, after.state.taskId, after.move.decision))
  {
    var d := after.move.decision;
    var tool, arguments := d.tool.value, ValidatedRequest(d).value;
    ValidateIdempotent(tool, RequestedArguments(d.arguments));
    if !Evaluate(tool, arguments).allowed {
      assert PcOk(cfg, after, Saving(FailRun(Evaluate(tool, arguments).reason)));
    } else if NeedsApproval(tool, arguments) {
      assert Follows(cfg, after, Wait(PendingFor(cfg, after.state.taskId, d, arguments)));
    } else {
      ExecuteValidated(tool, arguments);
      assert DirectlyExecutable(after, tool, arguments);
    }
  }

  /** After a save, the counter fits the checkpoint just made. */
  lemma AfterSaveOk(cfg: Config, w: World, c: Commit, m: Move)
    requires cfg.Valid() && Follows(cfg, c, m) && WellFormed(cfg, c.state.taskId, c)
    ensures var after := Commit(m, Apply(cfg, c.state, m));
            var pc := AfterSave(cfg, c.state.taskId, m);
            PcOk(cfg, after, pc) && Gated(cfg, w, c.state.taskId, pc)
  {
    var after := Commit(m, Apply(cfg, c.state, m));
    FollowsWellFormed(cfg, c.state.taskId, c, m);
    if m.Accept? {
      AfterAcceptOk(cfg, w, after);
    } else {
      var pc := AfterSave(cfg, c.state.taskId, m);
      if pc.Emitting? {
        assert PcOk(cfg, after, pc.next) && Gated(cfg, w, c.state.taskId, pc.next);
      }
    }
  }

  lemma AfterEngineOk(cfg: Config, w: World, c: Commit, answer: EngineAnswer)
    requires cfg.Valid() && c.move.Start?
    ensures PcOk(cfg, c, AfterEngine(cfg, c.state, answer))
    ensures Gated(cfg, w, c.state.taskId, AfterEngine(cfg, c.state, answer))
  {
    if answer.Decide? {
      var next := AfterDecision(cfg, c.state, answer.decision, answer.usage);
      assert PcOk(cfg, c, next) && Gated(cfg, w, c.state.taskId, next);
    }
  }

  /** A resumed action is looked up under the id that was approved. */
  lemma CheckingApprovalOk(cfg: Config, w: World, c: Commit, p: Proc, a: Answer)
    requires cfg.Valid() && p.base == Some(c.state) && WellFormed(cfg, p.task, c)
    requires p.pc.CheckingApproval? && c.state.Resumable()
    ensures var (v, q) := StepProc(cfg, w, p, a);
            PcOk(cfg, c, q.pc) && Gated(cfg, v, p.task, q.pc)
  {
    hide LoadStep, SaveStep, EngineStep, LookupStep, RecordStep, RetryStep, ResolveStep, AcknowledgeStep,
         AfterBackend, CreateApproval, Enqueue, AfterSettlement, AfterMissing, Follows, Apply;
    var pending := c.state.pendingAction.value;
    ExecuteValidated(pending.tool, pending.arguments);
    var next := LookingUp(pending.tool, pending.arguments);
    if IsApproved(w, p.task, pending.actionId) {
      assert ResumedExecutable(c, pending.tool, pending.arguments);
      assert PcOk(cfg, c, next) && Gated(cfg, w, p.task, next);
    }
  }

  lemma ExecutableTool(c: Commit, tool: Tool, arguments: Arguments)
    requires MayExecute(c, tool, arguments)
    ensures MayExecuteTool(c, tool) && (c.move.Accept? || c.state.Resumable())
  {
    hide Executable, NeedsApproval, ValidatedRequest;
  }

  lemma LookupStepOk(cfg: Config, w: World, c: Commit, p: Proc, a: Answer)
    requires cfg.Valid() && LedgerOk(w.ledger) && p.base == Some(c.state) && p.pc.LookingUp?
    requires MayExecute(c, p.pc.tool, p.pc.arguments) && Gated(cfg, w, p.task, p.pc)
    ensures var (v, q) := StepProc(cfg, w, p, a);
            PcOk(cfg, c, q.pc) && Gated(cfg, v, p.task, q.pc)
  {
    hide LoadStep, SaveStep, EngineStep, ResumeStep, RecordStep, RetryStep, ResolveStep, AcknowledgeStep,
         AfterBackend, CreateApproval, Enqueue, AfterSettlement, AfterMissing, Apply, MayExecute,
         MayExecuteTool;
    ExecutableTool(c, p.pc.tool, p.pc.arguments);
    var key := ActionIdOf(cfg, p.task, p.pc.tool, p.pc.arguments);
    assert key in w.ledger ==> StructuredResult(w.ledger[key].result);
  }

  /** The ledger and the backend: whatever they answer, the next save is legal. */
  lemma ToolStepOk(cfg: Config, w: World, c: Commit, p: Proc, a: Answer)
    requires cfg.Valid() && p.base == Some(c.state)
    requires p.pc.Calling? || p.pc.Recording?
    requires PcOk(cfg, c, p.pc) && Gated(cfg, w, p.task, p.pc)
    ensures var (v, q) := StepProc(cfg, w, p, a);
            PcOk(cfg, c, q.pc) && Gated(cfg, v, p.task, q.pc)
  {
    hide LoadStep, SaveStep, EngineStep, ResumeStep, LookupStep, RetryStep, ResolveStep, AcknowledgeStep,
         CreateApproval, Enqueue, AfterSettlement, AfterMissing, Apply;
    ExecutableTool(c, p.pc.tool, p.pc.arguments);
  }

  lemma ApplyKeepsTask(cfg: Config, s: WorkflowState, m: Move)
    requires cfg.Valid()
    ensures Apply(cfg, s, m).taskId == s.taskId && Apply(cfg, s, m).version == s.version + 1
  {
  }

  /** A stale save changes no table; it is retried, but ends the handlers of the worker and the endpoints. */
  lemma StaleSaveOk(cfg: Config, w: World, c: Commit, p: Proc, a: Answer)
    requires cfg.Valid() && p.base == Some(c.state) && p.pc.Saving? && c.state.taskId == p.task
    requires p.task in w.workflows ==> w.workflows[p.task].version != c.state.version
    ensures var m := p.pc.move;
            StepProc(cfg, w, p, a) ==
              (w, p.(pc := if m.DeadLetter? || m.FailDelivery? || m.Approve? || m.Reject? then Halted else Retrying(StaleCheckpoint)))
  {
    hide LoadStep, EngineStep, ResumeStep, LookupStep, RecordStep, RetryStep, ResolveStep, AcknowledgeStep,
         AfterBackend, CreateApproval, Enqueue, AfterSettlement, AfterMissing, Effect, AfterSave;
    ApplyKeepsTask(cfg, c.state, p.pc.move);
  }

  lemma SettlementStepOk(cfg: Config, w: World, c: Commit, p: Proc, a: Answer)
    requires cfg.Valid() && p.base == Some(c.state) && PcOk(cfg, c, p.pc)
    requires p.pc.Acknowledging? || p.pc.Enqueuing? || p.pc.Retrying? || p.pc.Resolving? || p.pc.Halted?
    ensures var (v, q) := StepProc(cfg, w, p, a);
            PcOk(cfg, c, q.pc) && Gated(cfg, v, p.task, q.pc)
  {
    hide LoadStep, SaveStep, EngineStep, ResumeStep, LookupStep, RecordStep, AfterBackend, CreateApproval,
         AfterMissing, Apply, MayExecute, RetryRow;
  }

  /** No step changes the task of a process, and only loads and commits change its checkpoint. */
  lemma StepFrame(cfg: Config, w: World, p: Proc, a: Answer)
    requires cfg.Valid()
    ensures var q := StepProc(cfg, w, p, a).1;
            q.task == p.task && q.delivery == p.delivery && (!p.pc.Loading? && !CommitsNow(w, p) ==> q.base == p.base)
  {
    hide EngineStep, ResumeStep, LookupStep, RecordStep, RetryStep, ResolveStep, AcknowledgeStep, AfterBackend,
         CreateApproval, Enqueue, AfterSettlement, AfterMissing, Effect, AfterLoad, AfterSave;
    if p.pc.Saving? && p.base.Some? {
      ApplyKeepsTask(cfg, p.base.value, p.pc.move);
    }
  }

  lemma EngineStepOk(cfg: Config, w: World, c: Commit, p: Proc, a: Answer)
    requires cfg.Valid() && p.base == Some(c.state) && c.state.taskId == p.task
    requires p.pc.AskingEngine? && c.move.Start?
    ensures var (v, q) := StepProc(cfg, w, p, a);
            PcOk(cfg, c, q.pc) && Gated(cfg, v, p.task, q.pc)
  {
    hide LoadStep, SaveStep, ResumeStep, LookupStep, RecordStep, RetryStep, ResolveStep, AcknowledgeStep,
         AfterBackend, CreateApproval, Enqueue, AfterSettlement, AfterMissing, Apply, AfterEngine, Gated, PcOk;
    AfterEngineOk(cfg, w, c, a.engine);
  }

  lemma EventStepOk(cfg: Config, w: World, c: Commit, p: Proc, a: Answer)
    requires cfg.Valid() && p.base == Some(c.state) && WellFormed(cfg, p.task, c)
    requires p.pc.Emitting? || p.pc.PuttingApproval?
    requires PcOk(cfg, c, p.pc) && Gated(cfg, w, p.task, p.pc)
    ensures var (v, q) := StepProc(cfg, w, p, a);
            PcOk(cfg, c, q.pc) && Gated(cfg, v, p.task, q.pc)
  {
    hide LoadStep, SaveStep, EngineStep, ResumeStep, LookupStep, RecordStep, RetryStep, ResolveStep,
         AcknowledgeStep, AfterBackend, Enqueue, AfterSettlement, AfterMissing, Apply, Follows, MayExecute;
    if p.pc.Emitting? {
      GatedStable(cfg, w, RecordEvent(w, p.task, p.pc.kind), p.task, p.pc.next);
    } else {
      assert PcOk(cfg, c, Acknowledging(Finish));
    }
  }

  /** The other steps keep the checkpoint and move to a counter that fits it. */
  lemma StepKeepsPcOk(cfg: Config, w: World, c: Commit, p: Proc, a: Answer)
    requires cfg.Valid() && LedgerOk(w.ledger)
    requires p.base == Some(c.state) && WellFormed(cfg, p.task, c)
    requires PcOk(cfg, c, p.pc) && Gated(cfg, w, p.task, p.pc)
    requires !p.pc.Loading? && !CommitsNow(w, p)
    ensures var (v, q) := StepProc(cfg, w, p, a);
            PcOk(cfg, c, q.pc) && Gated(cfg, v, p.task, q.pc)
  {
    hide StepProc, Follows, MayExecute;
    if p.pc.LookingUp? {
      LookupStepOk(cfg, w, c, p, a);
    } else if p.pc.Calling? || p.pc.Recording? {
      ToolStepOk(cfg, w, c, p, a);
    } else if p.pc.AskingEngine? {
      EngineStepOk(cfg, w, c, p, a);
    } else if p.pc.CheckingApproval? {
      CheckingApprovalOk(cfg, w, c, p, a);
    } else if p.pc.Emitting? {
      EventStepOk(cfg, w, c, p, a);
    } else if p.pc.PuttingApproval? {
      EventStepOk(cfg, w, c, p, a);
    } else if p.pc.Saving? {
      StaleSaveOk(cfg, w, c, p, a);
      assert c.state.taskId == p.task;
      assert PcOk(cfg, c, AfterStale(p.pc.move)) && Gated(cfg, w, p.task, AfterStale(p.pc.move));
    } else {
      SettlementStepOk(cfg, w, c, p, a);
    }
  }

  lemma SaveKeepsTables(cfg: Config, w: World, p: Proc, m: Move)
    requires cfg.Valid()
    ensures var v := SaveStep(cfg, w, p, m).0;
            && v.approvals == w.approvals && v.ledger == w.ledger
            && (!(p.base.Some? && VersionMatches(w, p.base.value.taskId, p.base.value.version)) ==> v.workflows == w.workflows)
  {
    hide Effect, AfterSave;
    if p.base.Some? {
      ApplyKeepsTask(cfg, p.base.value, m);
    }
  }

  lemma RecordKeepsTables(cfg: Config, w: World, p: Proc, tool: Tool, arguments: Arguments, result: Json)
    requires LedgerOk(w.ledger) && StructuredResult(result)
    ensures var v := RecordStep(cfg, w, p, tool, arguments, result);
            LedgerKept(w, v) && LedgerOk(v.ledger) && v.approvals == w.approvals && v.workflows == w.workflows
  {
    hide StructuredResult;
  }

  /** The calls that leave checkpoints, ledger and verdicts alone, or only add to the approvals. */
  lemma OtherCallsKeepTables(cfg: Config, w: World, p: Proc, a: Answer)
    requires cfg.Valid() && !p.pc.Saving? && !p.pc.Recording?
    ensures var v := StepProc(cfg, w, p, a).0;
            VerdictsKept(w, v) && v.ledger == w.ledger && v.workflows == w.workflows
  {
    hide LoadStep, SaveStep, EngineStep, ResumeStep, LookupStep, RecordStep, AfterBackend, AfterSettlement,
         AfterMissing, RetryRow;
  }

  /** Effects on the write-once tables. */
  lemma StepKeepsTables(cfg: Config, w: World, p: Proc, a: Answer)
    requires cfg.Valid() && LedgerOk(w.ledger)
    requires p.pc.Recording? ==> StructuredResult(p.pc.result)
    ensures var v := StepProc(cfg, w, p, a).0;
            VerdictsKept(w, v) && LedgerKept(w, v) && LedgerOk(v.ledger) && (!CommitsNow(w, p) ==> v.workflows == w.workflows)
  {
    hide LoadStep, SaveStep, EngineStep, ResumeStep, LookupStep, RecordStep, RetryStep, ResolveStep,
         AcknowledgeStep, AfterBackend, CreateApproval, Enqueue, AfterSettlement, AfterMissing, LedgerOk,
         StructuredResult;
    if p.pc.Saving? {
      SaveKeepsTables(cfg, w, p, p.pc.move);
    } else if p.pc.Recording? {
      RecordKeepsTables(cfg, w, p, p.pc.tool, p.pc.arguments, p.pc.result);
    } else {
      OtherCallsKeepTables(cfg, w, p, a);
    }
  }

  /** Only what a step touched needs a look: the rest is kept. */
  lemma Assemble(cfg: Config, s: Sys, r: Sys)
    requires cfg.Valid() && Inv(cfg, s)
    requires LogGrows(s.log, r.log) && VerdictsKept(s.world, r.world) && LedgerOk(r.world.ledger)
    requires r.world.workflows.Keys == r.log.Keys
    requires forall pid | pid in r.procs ::
               (pid in s.procs && r.procs[pid] == s.procs[pid]) || ProcOk(cfg, r.world, r.log, r.procs[pid])
    requires forall task | task in r.log ::
               (task in s.log && r.log[task] == s.log[task] && r.world.workflows[task] == s.world.workflows[task])
               || LogOk(cfg, r.world, r.log, task)
    ensures Inv(cfg, r)
  {
    hide PcOk, Gated, ValidLog, LedgerOk, VerdictsKept, LogGrows;
    forall pid | pid in r.procs ensures ProcOk(cfg, r.world, r.log, r.procs[pid]) {
      if pid in s.procs && r.procs[pid] == s.procs[pid] {
        ProcOkStable(cfg, s.world, r.world, s.log, r.log, s.procs[pid]);
      }
    }
    forall task | task in r.log ensures LogOk(cfg, r.world, r.log, task) {
      if task in s.log {
        assert LogOk(cfg, s.world, s.log, task);
      }
    }
  }

  function CommitOf(cfg: Config, p: Proc): Commit
    requires cfg.repeatThreshold > 0 && p.pc.Saving? && p.base.Some?
  {
    Commit(p.pc.move, Apply(cfg, p.base.value, p.pc.move))
  }

  /** A process that commits works from the last checkpoint. */
  lemma CommitterIsCurrent(cfg: Config, s: Sys, pid: nat)
    requires cfg.Valid() && Inv(cfg, s) && pid in s.procs && CommitsNow(s.world, s.procs[pid])
    ensures var p := s.procs[pid];
            && p.task in s.log && s.log[p.task] != []
            && var last := s.log[p.task][|s.log[p.task]| - 1];
            && last.state == p.base.value && last.state.taskId == p.task
            && last.state.version == |s.log[p.task]| - 1
            && WellFormed(cfg, p.task, last) && Follows(cfg, last, p.pc.move)
            && ValidLog(cfg, p.task, s.log[p.task])
  {
    hide Follows, LinkedAt, LedgerOk, Gated;
    var p := s.procs[pid];
    ProcIsOk(cfg, s, pid);
    LogIsOk(cfg, s, p.task);
    LogWellFormed(cfg, p.task, s.log[p.task], p.base.value.version);
    LogWellFormed(cfg, p.task, s.log[p.task], |s.log[p.task]| - 1);
  }

  lemma CommitStep(cfg: Config, w: World, p: Proc, a: Answer)
    requires cfg.Valid() && CommitsNow(w, p) && p.base.value.taskId == p.task
    ensures var c := CommitOf(cfg, p);
            StepProc(cfg, w, p, a) ==
              (w.(workflows := w.workflows[p.task := WorkflowRow(c.state, p.base.value.version + 1)]),
               p.(base := Some(c.state), pc := AfterSave(cfg, p.task, p.pc.move)))
  {
    hide LoadStep, EngineStep, ResumeStep, LookupStep, RecordStep, RetryStep, ResolveStep, AcknowledgeStep,
         AfterBackend, CreateApproval, Enqueue, AfterSettlement, AfterMissing, Effect, AfterSave;
    ApplyKeepsTask(cfg, p.base.value, p.pc.move);
  }

  /** The shape of a commit, without the machine that made it. */
  ghost predicate Commits(s: Sys, r: Sys, pid: nat, c: Commit) {
    && pid in s.procs && pid in r.procs && s.procs[pid].task in s.log
    && var p := s.procs[pid];
    && r.procs == s.procs[pid := p.(base := Some(c.state), pc := r.procs[pid].pc)]
    && r.log == s.log[p.task := s.log[p.task] + [c]]
    && r.world == s.world.(workflows := s.world.workflows[p.task := WorkflowRow(c.state, |s.log[p.task]|)])
  }

  /** A commit appends one checkpoint, and nothing else changes but its own process. */
  lemma CommitHasShape(cfg: Config, s: Sys, pid: nat, a: Answer)
    requires cfg.Valid() && Inv(cfg, s) && pid in s.procs && CommitsNow(s.world, s.procs[pid])
    ensures var r := DoAdvance(cfg, s, pid, a);
            && Commits(s, r, pid, CommitOf(cfg, s.procs[pid]))
            && r.procs[pid].pc == AfterSave(cfg, s.procs[pid].task, s.procs[pid].pc.move)
            && r.seen == s.seen
  {
    hide StepProc, Inv, Apply, AfterSave, Follows, WellFormed, ValidLog;
    CommitterIsCurrent(cfg, s, pid);
    CommitStep(cfg, s.world, s.procs[pid], a);
    assert s.seen + multiset{} == s.seen;
  }

  lemma CommittedProcOk(cfg: Config, s: Sys, r: Sys, pid: nat, c: Commit)
    requires cfg.Valid() && Commits(s, r, pid, c) && c.state.version == |s.log[s.procs[pid].task]|
    requires PcOk(cfg, c, r.procs[pid].pc) && Gated(cfg, r.world, s.procs[pid].task, r.procs[pid].pc)
    ensures ProcOk(cfg, r.world, r.log, r.procs[pid]) && LogGrows(s.log, r.log)
  {
    hide PcOk, Gated;
  }

  lemma CommittedLogOk(cfg: Config, s: Sys, r: Sys, pid: nat, c: Commit)
    requires cfg.Valid() && Commits(s, r, pid, c)
    requires var log := s.log[s.procs[pid].task];
             log != [] && ValidLog(cfg, s.procs[pid].task, log) && Linked(cfg, log[|log| - 1], c)
    requires s.world.workflows.Keys == s.log.Keys
    ensures LogOk(cfg, r.world, r.log, s.procs[pid].task) && r.world.workflows.Keys == r.log.Keys
  {
    hide Linked, ValidLog;
    ValidLogExtends(cfg, s.procs[pid].task, s.log[s.procs[pid].task], c);
  }

  lemma CommitKeepsInv(cfg: Config, s: Sys, pid: nat, a: Answer)
    requires cfg.Valid() && Inv(cfg, s) && pid in s.procs && CommitsNow(s.world, s.procs[pid])
    ensures Inv(cfg, DoAdvance(cfg, s, pid, a))
    ensures LogGrows(s.log, DoAdvance(cfg, s, pid, a).log)
  {
    hide DoAdvance, Apply, Follows, AfterSave, PcOk, Gated, WellFormed, ValidLog, LogOk, ProcOk, LedgerOk;
    var p := s.procs[pid];
    var r := DoAdvance(cfg, s, pid, a);
    var c := CommitOf(cfg, p);
    CommitterIsCurrent(cfg, s, pid);
    CommitHasShape(cfg, s, pid, a);
    AfterSaveOk(cfg, r.world, s.log[p.task][|s.log[p.task]| - 1], p.pc.move);
    ApplyKeepsTask(cfg, p.base.value, p.pc.move);
    CommittedProcOk(cfg, s, r, pid, c);
    CommittedLogOk(cfg, s, r, pid, c);
    Assemble(cfg, s, r);
  }

  lemma AfterLoadOk(cfg: Config, w: World, c: Commit, purpose: Purpose)
    requires cfg.Valid() && WellFormed(cfg, c.state.taskId, c)
    ensures PcOk(cfg, c, AfterLoad(c.state, purpose))
    ensures Gated(cfg, w, c.state.taskId, AfterLoad(c.state, purpose))
  {
  }

  lemma LoadedProcOk(cfg: Config, s: Sys, pid: nat, purpose: Purpose)
    requires cfg.Valid() && Inv(cfg, s) && pid in s.procs
    ensures ProcOk(cfg, s.world, s.log, LoadStep(s.world, s.procs[pid], purpose))
  {
    hide AfterLoad, Gated, WellFormed, LinkedAt, Follows;
    var task := s.procs[pid].task;
    LogIsOk(cfg, s, task);
    if task in s.log {
      LogWellFormed(cfg, task, s.log[task], |s.log[task]| - 1);
      LastTask(cfg, task, s.log[task]);
      AfterLoadOk(cfg, s.world, s.log[task][|s.log[task]| - 1], purpose);
    } else {
      MissingIsGated(cfg, s.world, task, purpose);
    }
  }

  lemma LastTask(cfg: Config, task: TaskId, log: seq<Commit>)
    requires cfg.Valid() && ValidLog(cfg, task, log)
    ensures log[|log| - 1].state.taskId == task
  {
    LogWellFormed(cfg, task, log, |log| - 1);
  }

  lemma MissingIsGated(cfg: Config, w: World, task: TaskId, purpose: Purpose)
    ensures Gated(cfg, w, task, AfterMissing(purpose))
  {
  }

  lemma LoadKeepsInv(cfg: Config, s: Sys, pid: nat, a: Answer)
    requires cfg.Valid() && Inv(cfg, s) && pid in s.procs && s.procs[pid].pc.Loading?
    ensures Inv(cfg, DoAdvance(cfg, s, pid, a)) && DoAdvance(cfg, s, pid, a).log == s.log
  {
    hide LoadStep, SaveStep, EngineStep, ResumeStep, LookupStep, RecordStep, RetryStep, ResolveStep,
         AcknowledgeStep, AfterBackend, CreateApproval, Enqueue, AfterSettlement, ProcOk, LogOk, LedgerOk;
    LoadedProcOk(cfg, s, pid, s.procs[pid].pc.purpose);
    Assemble(cfg, s, DoAdvance(cfg, s, pid, a));
  }

  lemma UnloadedStepOk(cfg: Config, w: World, p: Proc, a: Answer)
    requires cfg.Valid() && UnloadedPc(p.pc) && !p.pc.Loading?
    ensures UnloadedPc(StepProc(cfg, w, p, a).1.pc)
    ensures Gated(cfg, StepProc(cfg, w, p, a).0, p.task, StepProc(cfg, w, p, a).1.pc)
  {
    hide LoadStep, SaveStep, EngineStep, ResumeStep, LookupStep, RecordStep, RetryStep, ResolveStep, AfterBackend;
  }

  lemma SteppedProcOk(cfg: Config, s: Sys, pid: nat, a: Answer)
    requires cfg.Valid() && Inv(cfg, s) && pid in s.procs && !s.procs[pid].pc.Loading?
    requires !CommitsNow(s.world, s.procs[pid])
    ensures var (v, q) := StepProc(cfg, s.world, s.procs[pid], a);
            ProcOk(cfg, v, s.log, q)
  {
    hide StepProc, Inv, PcOk, Gated, WellFormed, ValidLog, LedgerOk, CommitsNow;
    var p := s.procs[pid];
    ProcIsOk(cfg, s, pid);
    StepFrame(cfg, s.world, p, a);
    if p.base.Some? {
      LogIsOk(cfg, s, p.task);
      LogWellFormed(cfg, p.task, s.log[p.task], p.base.value.version);
      StepKeepsPcOk(cfg, s.world, s.log[p.task][p.base.value.version], p, a);
    } else {
      UnloadedStepOk(cfg, s.world, p, a);
    }
  }

  lemma RecordingIsStructured(cfg: Config, s: Sys, pid: nat)
    requires cfg.Valid() && Inv(cfg, s) && pid in s.procs
    ensures s.procs[pid].pc.Recording? ==> StructuredResult(s.procs[pid].pc.result)
  {
    hide Inv, Follows, MayExecute, StructuredResult, LedgerOk;
    ProcIsOk(cfg, s, pid);
  }

  lemma OtherStepKeepsInv(cfg: Config, s: Sys, pid: nat, a: Answer)
    requires cfg.Valid() && Inv(cfg, s) && pid in s.procs && !s.procs[pid].pc.Loading?
    requires !CommitsNow(s.world, s.procs[pid])
    ensures Inv(cfg, DoAdvance(cfg, s, pid, a)) && DoAdvance(cfg, s, pid, a).log == s.log
  {
    hide StepProc, Apply, ProcOk, LogOk, LedgerOk, VerdictsKept, LedgerKept, CommitsNow, StructuredResult;
    var p := s.procs[pid];
    RecordingIsStructured(cfg, s, pid);
    StepKeepsTables(cfg, s.world, p, a);
    SteppedProcOk(cfg, s, pid, a);
    Assemble(cfg, s, DoAdvance(cfg, s, pid, a));
  }

  lemma AdvanceKeepsInv(cfg: Config, s: Sys, pid: nat, a: Answer)
    requires cfg.Valid() && Inv(cfg, s) && pid in s.procs
    ensures Inv(cfg, DoAdvance(cfg, s, pid, a)) && LogGrows(s.log, DoAdvance(cfg, s, pid, a).log)
  {
    hide DoAdvance, Inv;
    if CommitsNow(s.world, s.procs[pid]) {
      CommitKeepsInv(cfg, s, pid, a);
    } else if s.procs[pid].pc.Loading? {
      LoadKeepsInv(cfg, s, pid, a);
    } else {
      OtherStepKeepsInv(cfg, s, pid, a);
    }
  }

  /** Steps that leave checkpoints, approvals and the ledger alone. */
  lemma QueueStepKeepsInv(cfg: Config, s: Sys, r: Sys)
    requires cfg.Valid() && Inv(cfg, s) && r.log == s.log
    requires r.world.workflows == s.world.workflows
    requires r.world.approvals == s.world.approvals && r.world.ledger == s.world.ledger
    requires forall pid | pid in r.procs ::
               (pid in s.procs && r.procs[pid] == s.procs[pid]) || (r.procs[pid].pc.Loading? && r.procs[pid].base.None?)
               || (pid in s.procs && r.procs[pid] == s.procs[pid].(pc := Halted))
    ensures Inv(cfg, r)
  {
    hide LogOk, Follows;
    forall pid | pid in r.procs
      ensures (pid in s.procs && r.procs[pid] == s.procs[pid]) || ProcOk(cfg, r.world, r.log, r.procs[pid]) {
      if pid in s.procs {
        ProcIsOk(cfg, s, pid);
      }
    }
    Assemble(cfg, s, r);
  }

  lemma CreateKeepsInv(cfg: Config, s: Sys, task: TaskId, goal: string, scenario: string, now: real)
    requires cfg.Valid() && Inv(cfg, s)
    ensures Inv(cfg, DoCreate(cfg, s, task, goal, scenario, now))
    ensures LogGrows(s.log, DoCreate(cfg, s, task, goal, scenario, now).log)
  {
    hide ProcOk, LedgerOk, ValidLog;
    FreshChainIsValid(cfg, task, goal, scenario);
    Assemble(cfg, s, DoCreate(cfg, s, task, goal, scenario, now));
  }

  lemma FreshChainIsValid(cfg: Config, task: TaskId, goal: string, scenario: string)
    requires cfg.Valid()
    ensures ValidLog(cfg, task, [Commit(Create, FreshWorkflow(task, goal, scenario))])
  {
  }

  /** A replay saves the stored checkpoint again, with its status reset. */
  lemma ReplayEffect(cfg: Config, s: Sys, row: nat, task: TaskId, now: real)
    requires cfg.Valid() && Inv(cfg, s) && Replayable(s.world, row, task)
    ensures var r := DoReplay(cfg, s, row, task, now);
            && task in s.log && s.log[task] != []
            && var c := Commit(Replay, Apply(cfg, s.log[task][|s.log[task]| - 1].state, Replay));
            && ValidLog(cfg, task, s.log[task])
            && Linked(cfg, s.log[task][|s.log[task]| - 1], c)
            && r.log == s.log[task := s.log[task] + [c]]
            && r.world.workflows == s.world.workflows[task := WorkflowRow(c.state, |s.log[task]|)]
            && r.world.approvals == s.world.approvals && r.world.ledger == s.world.ledger && r.procs == s.procs
  {
    hide Inv, WellFormed, ValidLog, MayExecuteTool, RequestReason, ValidatedRequest;
    LogIsOk(cfg, s, task);
    LogWellFormed(cfg, task, s.log[task], |s.log[task]| - 1);
  }

  lemma ReplayKeepsInv(cfg: Config, s: Sys, row: nat, task: TaskId, now: real)
    requires cfg.Valid() && Inv(cfg, s)
    ensures Inv(cfg, DoReplay(cfg, s, row, task, now)) && LogGrows(s.log, DoReplay(cfg, s, row, task, now).log)
  {
    hide DoReplay, Apply, Linked, ProcOk, LedgerOk, ValidLog;
    if Replayable(s.world, row, task) {
      ReplayEffect(cfg, s, row, task, now);
      ValidLogExtends(cfg, task, s.log[task], Commit(Replay, Apply(cfg, s.log[task][|s.log[task]| - 1].state, Replay)));
      Assemble(cfg, s, DoReplay(cfg, s, row, task, now));
    } else {
      NoReplay(cfg, s, row, task, now);
    }
  }

  lemma NoReplay(cfg: Config, s: Sys, row: nat, task: TaskId, now: real)
    requires cfg.Valid() && !Replayable(s.world, row, task)
    ensures DoReplay(cfg, s, row, task, now) == s
  {
    hide Apply;
  }

  lemma RequestKeepsInv(cfg: Config, s: Sys, pid: nat, task: TaskId, purpose: Purpose)
    requires cfg.Valid() && Inv(cfg, s)
    ensures Inv(cfg, DoRequest(s, pid, task, purpose)) && DoRequest(s, pid, task, purpose).log == s.log
  {
    hide Inv;
    QueueStepKeepsInv(cfg, s, DoRequest(s, pid, task, purpose));
  }

  lemma DeliveryStepKeepsInv(cfg: Config, s: Sys, step: Step)
    requires cfg.Valid() && Inv(cfg, s)
    requires step.ClaimNext? || step.Crash? || step.Heartbeat? || step.NoteHeartbeat?
    ensures Inv(cfg, Do(cfg, s, step)) && Do(cfg, s, step).log == s.log
  {
    hide Inv, DoAdvance, DoReplay, DoCreate, ReleaseExpired, FirstClaimable, LostByCrash;
    QueueStepKeepsInv(cfg, s, Do(cfg, s, step));
  }

  /** Every step of the system keeps the invariant and only appends checkpoints. */
  lemma DoKeepsInv(cfg: Config, s: Sys, step: Step)
    requires cfg.Valid() && Inv(cfg, s)
    ensures Inv(cfg, Do(cfg, s, step)) && LogGrows(s.log, Do(cfg, s, step).log)
  {
    hide Inv, DoAdvance, DoReplay, DoCreate, DoClaim, DoRequest, DoCrash;
    match step {
      case CreateIncident(task, goal, scenario, now) => CreateKeepsInv(cfg, s, task, goal, scenario, now);
      case Advance(pid, answer) =>
        if pid in s.procs {
          AdvanceKeepsInv(cfg, s, pid, answer);
        } else {
          NobodyAdvances(cfg, s, pid, answer);
        }
      case RequestApproval(pid, task) => RequestKeepsInv(cfg, s, pid, task, ToApprove);
      case RequestRejection(pid, task, error) => RequestKeepsInv(cfg, s, pid, task, ToReject(error));
      case ReplayRow(row, task, now) => ReplayKeepsInv(cfg, s, row, task, now);
      case _ => DeliveryStepKeepsInv(cfg, s, step);
    }
  }

  lemma NobodyAdvances(cfg: Config, s: Sys, pid: nat, a: Answer)
    requires cfg.Valid() && pid !in s.procs
    ensures DoAdvance(cfg, s, pid, a) == s
  {
    hide StepProc;
  }

  lemma {:induction false} RunInv(cfg: Config, steps: seq<Step>)
    requires cfg.Valid()
    ensures Inv(cfg, Run(cfg, steps))
  {
    hide Do;
    if steps != [] {
      RunInv(cfg, steps[..|steps| - 1]);
      DoKeepsInv(cfg, Run(cfg, steps[..|steps| - 1]), steps[|steps| - 1]);
    }
  }

  lemma RunSnoc(cfg: Config, steps: seq<Step>, step: Step)
    requires cfg.Valid()
    ensures Run(cfg, steps + [step]) == Do(cfg, Run(cfg, steps), step)
  {
    hide Do;
    assert (steps + [step])[..|steps + [step]| - 1] == steps;
  }

  /**
   The refinement theorem. Whatever the interleaving, the committed checkpoints of every task have
   versions 0, 1, 2, ..., each is one legal transition from its immediate predecessor, and the stored
   checkpoint and version column are the last of them.
   */
  lemma CommittedCheckpointsAreLegal(cfg: Config, steps: seq<Step>, s: Sys, task: TaskId)
    requires cfg.Valid() && ReachedBy(cfg, steps, s) && task in s.world.workflows
    ensures && task in s.log && s.log[task] != []
            && s.log[task][0] == Commit(Create, FreshWorkflow(task, s.log[task][0].state.goal, s.log[task][0].state.scenarioId))
            && (forall i | 0 <= i < |s.log[task]| :: s.log[task][i].state.version == i)
            && (forall i: nat | 0 < i < |s.log[task]| :: LinkedAt(cfg, s.log[task], i))
            && s.world.workflows[task].state == s.log[task][|s.log[task]| - 1].state
            && s.world.workflows[task].version == s.world.workflows[task].state.version == |s.log[task]| - 1
  {
    hide Run, Linked;
    ReachedIsRun(cfg, steps, s);
    RunInv(cfg, steps);
    assert LogOk(cfg, s.world, s.log, task);
    forall i | 0 <= i < |s.log[task]| ensures s.log[task][i].state.version == i {
      LogWellFormed(cfg, task, s.log[task], i);
    }
  }

  /** No transition but a replay leaves a terminal status. */
  lemma OnlyReplayLeavesTerminal(cfg: Config, task: TaskId, log: seq<Commit>, i: nat)
    requires cfg.Valid() && ValidLog(cfg, task, log) && i + 1 < |log|
    ensures log[i].state.Terminal() ==> log[i + 1].move.Replay?
  {
    assert LinkedAt(cfg, log, i + 1);
    LogWellFormed(cfg, task, log, i);
  }
}
