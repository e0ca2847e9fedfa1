/** A worker that is at it can go on: it finishes the tool, or writes the waiting checkpoint and its approval row. */
module Continuing {
  import opened Prelude
  import opened Models
  import opened Policy
  import opened Tools
  import opened Tables
  import opened Checkpoints
  import opened CheckpointFacts
  import opened Machine
  import opened System
  import opened Refinement
  import opened ApprovalGate
  import opened Discipline
  import opened LiveRows
  import opened Reference
  import opened ReferenceChains
  import opened ReferenceRuns
  import opened Paths
  import opened FaithfulPlay
  import opened Claims
  import opened Rounds
  import opened Feasibility
  import opened Necessity
  import opened Recovery
  import opened Stranded

  /** What is carried out is the tool that is due, as the policy sends it. */
  predicate Aims(fx: Fixtures, st: WorkflowState, pc: Pc)
    requires st.scenarioId in fx.scenarios && Progress(st) < 6
  {
    var tool := ToolAt(Progress(st));
    match pc
    case LookingUp(t, arguments) => t == tool && arguments == SentArguments(tool)
    case Calling(t, arguments) => t == tool && arguments == SentArguments(tool)
    case Recording(t, arguments, result) =>
      t == tool && arguments == SentArguments(tool) && result == Expected(fx, st.scenarioId, tool)
    case Saving(m) =>
      && (m.FinishTool? ==> m.tool == tool && m.result == Expected(fx, st.scenarioId, tool))
      && (m.Wait? ==> tool.RestartService?)
    case Emitting(_, next) => Aims(fx, st, next)
    case _ => true
  }

  lemma AimsAtDue(cfg: Config, fx: Fixtures, w: World, p: Proc, c: Commit, pc: Pc)
    requires cfg.Valid() && ReferenceCommit(cfg, fx, c) && PcOk(cfg, c, pc) && ReferencePc(cfg, fx, w, p, pc)
    requires p.base == Some(c.state) && c.state.scenarioId in fx.scenarios && Progress(c.state) < 6
    ensures Aims(fx, c.state, pc)
  {
    hide OnTrack, HistoryOnTrack, ReferenceDecision, Healthy, Unhealthy, Expected, SentArguments, MayExecute, Tries,
         RequestReason, PendingFor, Evaluate, ValidatedRequest, CallFailed, Denied;
    match pc {
      case Emitting(_, next) => AimsAtDue(cfg, fx, w, p, c, next);
      case LookingUp(tool, arguments) => DueToolRuns(cfg, fx, c, tool, arguments);
      case Calling(tool, arguments) => DueToolRuns(cfg, fx, c, tool, arguments);
      case Recording(tool, arguments, _) => DueToolRuns(cfg, fx, c, tool, arguments);
      case Saving(m) =>
        if m.FinishTool? {
          var arguments :| MayExecute(c, m.tool, arguments);
          DueToolRuns(cfg, fx, c, m.tool, arguments);
        } else if m.Wait? {
          WaitsAtRestart(cfg, fx, c, m);
        }
      case _ =>
    }
  }

  lemma WaitsAtRestart(cfg: Config, fx: Fixtures, c: Commit, m: Move)
    requires cfg.Valid() && ReferenceCommit(cfg, fx, c) && Follows(cfg, c, m) && m.Wait? && Progress(c.state) < 6
    ensures ToolAt(Progress(c.state)).RestartService?
  {
    hide OnTrack, HistoryOnTrack, ReferenceDecision, Healthy, Unhealthy, Expected, Evaluate, ValidatedRequest,
         SentArguments;
    PolicyFollowsOrder(fx, c.state);
    OnlyRestartNeedsApproval(ToolAt(Progress(c.state)));
  }

  /** What the backend says to this worker. */
  function CarryAnswer(fx: Fixtures, st: WorkflowState, now: real): Answer
    requires Progress(st) < 6
  {
    Answer(EngineRetryable(""), ScenarioAnswer(fx, st, ToolAt(Progress(st)), SentArguments(ToolAt(Progress(st)))), now)
  }

  /** Waiting, with its approval row written. */
  predicate AskedFor(w: World, task: TaskId, v: World, st: WorkflowState) {
    && task in v.workflows && v.queue == w.queue
    && var r := v.workflows[task].state;
    && r.status.WaitingForApproval? && r.pendingAction.Some? && r.scenarioId == st.scenarioId
    && Progress(r) == Progress(st) && Tries(r) == Tries(st) && r.toolHistory == st.toolHistory
    && var key := (task, r.pendingAction.value.actionId);
    && key in v.approvals && v.approvals[key].Undecided?
  }

  /** From the waiting checkpoint on. */
  lemma CarriesWait(cfg: Config, fx: Fixtures, w: World, p: Proc, a: Answer, w1: World, p1: Proc, st: WorkflowState)
    returns (v: World, q: Proc)
    requires cfg.Valid() && Leads(cfg, Some(fx), w, p, a, w1, p1) && p1.base == Some(st) && Stored(w1, p1.task, st)
    requires p1.pc.Saving? && p1.pc.move.Wait? && forall action :: (p1.task, action) !in w1.approvals
    ensures Leads(cfg, Some(fx), w, p, a, v, q) && q.pc == Acknowledging(Finish)
    ensures q.task == p1.task && q.delivery == p1.delivery && AskedFor(w1, p1.task, v, st)
  {
    hide Leads, StepProc, Apply, Tries;
    WaitingState(cfg, st, p1.pc.move.action);
    var w2, p2 := Parks(cfg, Some(fx), w, p, a, w1, p1, st);
    v, q := Asks(cfg, Some(fx), w, p, a, w2, p2);
  }

  /** The backend is called, and returns the result. */
  lemma CarriesCall(cfg: Config, fx: Fixtures, w: World, p: Proc, a: Answer, w1: World, p1: Proc, st: WorkflowState)
    returns (v: World, q: Proc)
    requires cfg.Valid() && Leads(cfg, Some(fx), w, p, a, w1, p1) && p1.base == Some(st) && Stored(w1, p1.task, st)
    requires OnTrack(fx, st) && HistoryOnTrack(cfg, fx, st) && Progress(st) < 6 && st.scenarioId in fx.scenarios
    requires Failures(fx, st.scenarioId, Progress(st)) < Tries(st)
    requires p1.pc == Calling(ToolAt(Progress(st)), SentArguments(ToolAt(Progress(st))))
    requires a.backend == ScenarioAnswer(fx, st, ToolAt(Progress(st)), SentArguments(ToolAt(Progress(st))))
    requires StructuredResult(Expected(fx, st.scenarioId, ToolAt(Progress(st))))
    ensures Leads(cfg, Some(fx), w, p, a, v, q) && ToolDone(w1, p1, v, q, st)
  {
    hide Leads, StepProc, Apply, OnTrack, HistoryOnTrack, Expected, SentArguments, ToolDone, Tries, StructuredResult,
         Transient, ScenarioAnswer;
    BackendAnswers(fx, st);
    ThenCalls(cfg, Some(fx), w, p, a, w1, p1);
    var p2 := p1.(pc := AfterBackend(p1.pc.tool, p1.pc.arguments, a.backend));
    v, q := RecordsResult(cfg, fx, w, p, a, w1, p2, st);
    DoneFrom(w1, p1, w1, p2, v, q, st);
  }

  /** Whatever it was doing for the tool. */
  lemma CarriesOn(cfg: Config, fx: Fixtures, w: World, p: Proc, a: Answer, w1: World, p1: Proc, st: WorkflowState)
    returns (v: World, q: Proc)
    requires cfg.Valid() && Leads(cfg, Some(fx), w, p, a, w1, p1) && p1.base == Some(st) && Stored(w1, p1.task, st)
    requires OnTrack(fx, st) && HistoryOnTrack(cfg, fx, st) && Progress(st) < 6 && st.scenarioId in fx.scenarios
    requires Failures(fx, st.scenarioId, Progress(st)) < Tries(st)
    requires Carrying(p1.pc) && Aims(fx, st, p1.pc)
    requires a.backend == ScenarioAnswer(fx, st, ToolAt(Progress(st)), SentArguments(ToolAt(Progress(st))))
    requires StructuredResult(Expected(fx, st.scenarioId, ToolAt(Progress(st))))
    requires LedgerExpects(cfg, fx, w1, p1.task, st.scenarioId, ToolAt(Progress(st)))
    requires Progress(st) == 4 ==> forall action :: (p1.task, action) !in w1.approvals
    ensures Leads(cfg, Some(fx), w, p, a, v, q)
    ensures ToolDone(w1, p1, v, q, st)
            || (q.pc == Acknowledging(Finish) && q.task == p1.task && q.delivery == p1.delivery
                && AskedFor(w1, p1.task, v, st))
    decreases p1.pc
  {
    hide Leads, StepProc, Apply, OnTrack, HistoryOnTrack, Expected, SentArguments, ToolDone, Tries, StructuredResult,
         Transient, ScenarioAnswer, ActionIdOf;
    match p1.pc {
      case Emitting(kind, next) =>
        ThenEmits(cfg, Some(fx), w, p, a, w1, p1);
        var w2, p2 := RecordEvent(w1, p1.task, kind), p1.(pc := next);
        v, q := CarriesOn(cfg, fx, w, p, a, w2, p2, st);
        if ToolDone(w2, p2, v, q, st) {
          DoneFrom(w1, p1, w2, p2, v, q, st);
        }
      case LookingUp(_, _) => v, q := RunsTool(cfg, fx, w, p, a, w1, p1, st);
      case Calling(_, _) => v, q := CarriesCall(cfg, fx, w, p, a, w1, p1, st);
      case Recording(_, _, _) => v, q := RecordsResult(cfg, fx, w, p, a, w1, p1, st);
      case Saving(m) =>
        if m.FinishTool? {
          v, q := SavesResult(cfg, fx, w, p, a, w1, p1, st);
        } else {
          v, q := CarriesWait(cfg, fx, w, p, a, w1, p1, st);
        }
    }
  }

  /** The approval row is still to be written. */
  lemma WritesOn(cfg: Config, fx: Fixtures, w: World, p: Proc, a: Answer, w1: World, p1: Proc, action: ActionId)
    returns (v: World, q: Proc)
    requires cfg.Valid() && Leads(cfg, Some(fx), w, p, a, w1, p1) && Writing(p1.pc) && OnWaiting(p1.pc, action)
    ensures Leads(cfg, Some(fx), w, p, a, v, q) && q.pc == Acknowledging(Finish)
    ensures q.task == p1.task && q.delivery == p1.delivery
    ensures v.queue == w1.queue && v.workflows == w1.workflows
    ensures v.approvals == CreateApproval(w1, p1.task, action).approvals
    decreases p1.pc
  {
    hide Leads, StepProc;
    if p1.pc.Emitting? {
      ThenEmits(cfg, Some(fx), w, p, a, w1, p1);
      v, q := WritesOn(cfg, fx, w, p, a, RecordEvent(w1, p1.task, p1.pc.kind), p1.(pc := p1.pc.next), action);
    } else {
      v, q := Asks(cfg, Some(fx), w, p, a, w1, p1);
    }
  }

  // ----- the states of such workers -----

  /** A live worker of the task is about to write the missing row of its pending action. */
  ghost predicate AboutToAsk(s: Sys, task: TaskId) {
    && task in s.world.workflows && s.world.workflows[task].state.pendingAction.Some?
    && (task, s.world.workflows[task].state.pendingAction.value.actionId) !in s.world.approvals
    && exists pid :: pid in s.procs && s.procs[pid].Live() && s.procs[pid].task == task && Writing(s.procs[pid].pc)
  }

  /** A worker brings it on that must not stop: nobody else could. */
  ghost predicate CarriedOn(cfg: Config, fx: Fixtures, s: Sys, task: TaskId) {
    && task in s.world.workflows
    && var st := s.world.workflows[task].state;
    && st.scenarioId in fx.scenarios
    && ((st.status.Running? && AtIt(s, task) && Underway(cfg, fx, st))
        || (st.status.WaitingForApproval? && AboutToAsk(s, task) && Feasible(cfg, fx, st)))
  }

  /** The worker at it, and what it aims at. */
  lemma AtItAims(cfg: Config, fx: Fixtures, s: Sys, pid: nat)
    requires cfg.Valid() && Sound(cfg, Some(fx), s) && WorkerLives(s, pid) && Carrying(s.procs[pid].pc)
    requires s.procs[pid].task in s.world.workflows && Progress(s.world.workflows[s.procs[pid].task].state) < 6
    ensures var st := s.world.workflows[s.procs[pid].task].state;
            && s.procs[pid].base == Some(st) && st.scenarioId in fx.scenarios && Aims(fx, st, s.procs[pid].pc)
  {
    hide LiveInv, LeasesSet, ApprovalsWereAskedFor, ReferenceInv, Inv, InProcess, RowHeld, PcOk, ReferencePc,
         ReferenceCommit, WellFormed, Gated, PendingApproved, Aims, OnTrack, HistoryOnTrack, SentArguments,
         ActionIdOf;
    var task := s.procs[pid].task;
    TracksStored(cfg, fx, s, task);
    WorkerIsOk(cfg, s, pid);
    BaseIsLast(cfg, s, pid);
    ReferenceProc(cfg, fx, s, pid);
    BaseIsReference(cfg, fx, s, task, |s.log[task]| - 1);
    AimsAtDue(cfg, fx, s.world, s.procs[pid], Last(s, task), s.procs[pid].pc);
  }

  lemma UnderwayAffords(cfg: Config, fx: Fixtures, st: WorkflowState, r: WorkflowState)
    requires st.scenarioId in fx.scenarios && Underway(cfg, fx, st)
    requires r.scenarioId == st.scenarioId && r.toolHistory == st.toolHistory
    requires StepForward(st, r) || (r.pendingAction.Some? && Progress(st) == 4 == Progress(r) && Tries(r) == Tries(st))
    ensures Progress(r) <= 6 && Feasible(cfg, fx, r)
  {
    hide Transient, Tries;
    if StepForward(st, r) && Progress(r) < 6 {
      assert ToolFits(cfg, fx, st.scenarioId, Progress(r));
    }
  }

  /** The worker finishes its tool, or has its action written down, and settles. */
  lemma FinishesUnderway(cfg: Config, fx: Fixtures, s: Sys, task: TaskId, now: real) returns (r: Sys)
    requires cfg.Valid() && Sound(cfg, Some(fx), s) && task in s.world.workflows && AtIt(s, task)
    requires var st := s.world.workflows[task].state;
             && Workable(cfg, fx, st.scenarioId) && st.status.Running? && Underway(cfg, fx, st)
    ensures Onward(cfg, Some(fx), At(now, false), s, r) && Ready(cfg, fx, false, r, task, 6)
  {
    hide LiveInv, LeasesSet, ApprovalsWereAskedFor, ReferenceInv, Onward, Leads, OnTrack, HistoryOnTrack, Transient,
         Tries, Expected, SentArguments, ActionIdOf, Aims, ScenarioAnswer, NobodyOn, Healthy, Unhealthy,
         DistinctFingerprints, StructuredResult, Carrying, FeasibleUpTo, Inv, ToolsFit, CallsFrom;
    var st := s.world.workflows[task].state;
    var pid :| pid in s.procs && s.procs[pid].Live() && s.procs[pid].task == task && Carrying(s.procs[pid].pc);
    TracksStored(cfg, fx, s, task);
    AtItAims(cfg, fx, s, pid);
    LedgerIsExpected(cfg, fx, s, task, ToolAt(Progress(st)));
    if Progress(st) == 4 {
      forall action ensures (task, action) !in s.world.approvals {
        NotAskedYet(cfg, fx, s, task, action);
      }
    }
    var a := CarryAnswer(fx, st, now);
    LeadsSelf(cfg, Some(fx), s.world, s.procs[pid], a);
    var v, q := CarriesOn(cfg, fx, s.world, s.procs[pid], a, s.world, s.procs[pid], st);
    var s1 := LeadsOnward(cfg, Some(fx), false, s, pid, a, v, q);
    TracksStored(cfg, fx, s1, task);
    UnderwayAffords(cfg, fx, st, v.workflows[task].state);
    if q.pc == Acknowledging(Finish) {
      r := SettlesWaiting(cfg, Some(fx), false, s1, pid, now);
    } else {
      var id;
      r, id := SettlesDone(cfg, Some(fx), false, s1, pid, now);
    }
    OnwardJoin(cfg, Some(fx), At(now, false), now, s, s1, r);
  }

  /** The worker writes the row, and settles. */
  lemma WritesTheRow(cfg: Config, fx: Fixtures, s: Sys, task: TaskId, now: real) returns (r: Sys)
    requires cfg.Valid() && Sound(cfg, Some(fx), s) && task in s.world.workflows && AboutToAsk(s, task)
    requires var st := s.world.workflows[task].state;
             && Workable(cfg, fx, st.scenarioId) && st.status.WaitingForApproval? && Feasible(cfg, fx, st)
    ensures Onward(cfg, Some(fx), At(now, false), s, r) && Ready(cfg, fx, false, r, task, 6)
  {
    hide LiveInv, LeasesSet, ApprovalsWereAskedFor, ReferenceInv, Onward, Leads, OnTrack, HistoryOnTrack, Tries,
         SentArguments, ActionIdOf, NobodyOn, Healthy, Unhealthy, DistinctFingerprints, StructuredResult, Writing,
         FeasibleUpTo, Inv, OnWaiting;
    var pid :| pid in s.procs && s.procs[pid].Live() && s.procs[pid].task == task && Writing(s.procs[pid].pc);
    TracksStored(cfg, fx, s, task);
    LiveInvHasInv(cfg, s);
    StoredIsLast(cfg, s, task);
    WorkerOnWaiting(cfg, s, pid, task);
    LeadsSelf(cfg, Some(fx), s.world, s.procs[pid], Idle(now));
    var v, q := WritesOn(cfg, fx, s.world, s.procs[pid], Idle(now), s.world, s.procs[pid],
                         s.world.workflows[task].state.pendingAction.value.actionId);
    var s1 := LeadsOnward(cfg, Some(fx), false, s, pid, Idle(now), v, q);
    r := SettlesWaiting(cfg, Some(fx), false, s1, pid, now);
    OnwardJoin(cfg, Some(fx), At(now, false), now, s, s1, r);
  }

  /** Either way the workflow is ready for the rounds that decide it. */
  lemma BringsOn(cfg: Config, fx: Fixtures, s: Sys, task: TaskId, now: real) returns (r: Sys)
    requires cfg.Valid() && Sound(cfg, Some(fx), s) && CarriedOn(cfg, fx, s, task)
    requires Workable(cfg, fx, s.world.workflows[task].state.scenarioId)
    ensures Onward(cfg, Some(fx), At(now, false), s, r) && Ready(cfg, fx, false, r, task, 6)
  {
    hide Sound, Onward, Ready, Workable, AtIt, AboutToAsk, Underway, FeasibleUpTo;
    if s.world.workflows[task].state.status.Running? {
      r := FinishesUnderway(cfg, fx, s, task, now);
    } else {
      r := WritesTheRow(cfg, fx, s, task, now);
    }
  }
}
