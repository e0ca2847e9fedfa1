/**
 No result comes free: in every faithful run, under any interleaving and with any crashes, whatever result
 a process or the ledger has, its tool had been requested more often than the scenario fails it.
 */
module Earnings {
  import opened Prelude
  import opened Models
  import opened Policy
  import opened Tools
  import opened Tables
  import opened Checkpoints
  import opened CheckpointFacts
  import opened Histories
  import opened Machine
  import opened System
  import opened Refinement
  import opened Effects
  import opened Reference
  import opened ReferenceChains
  import opened ReferenceRuns
  import opened Rounds

  /** The tool is due at this checkpoint, and has been requested more often than the scenario fails it. */
  predicate Outlasts(fx: Fixtures, c: Commit, tool: Tool) {
    && c.state.scenarioId in fx.scenarios && Progress(c.state) == Rank(tool)
    && Transient(fx, c.state.scenarioId, tool) < Tries(c.state)
  }

  ghost predicate Earned(fx: Fixtures, log: seq<Commit>, tool: Tool) {
    exists i: nat :: i < |log| && Outlasts(fx, log[i], tool)
  }

  /** The tool whose result the process has and has not saved. */
  function InHand(pc: Pc): Option<Tool> {
    match pc
    case Emitting(_, next) => InHand(next)
    case Recording(tool, _, _) => Some(tool)
    case Saving(m) => if m.FinishTool? then Some(m.tool) else None
    case _ => None
  }

  ghost predicate HandEarned(fx: Fixtures, log: map<TaskId, seq<Commit>>, p: Proc) {
    InHand(p.pc).Some? ==> p.task in log && Earned(fx, log[p.task], InHand(p.pc).value)
  }

  ghost predicate LedgerEarned(fx: Fixtures, log: map<TaskId, seq<Commit>>, ledger: map<ActionId, LedgerRow>) {
    forall key | key in ledger :: key.task in log && Earned(fx, log[key.task], key.tool)
  }

  ghost predicate EarnedAt(fx: Fixtures, log: seq<Commit>, i: nat)
    requires i < |log|
  {
    log[i].move.FinishTool? ==> Earned(fx, log[..i], log[i].move.tool)
  }

  ghost predicate LogEarned(fx: Fixtures, log: seq<Commit>) {
    forall i: nat | i < |log| :: EarnedAt(fx, log, i)
  }

  ghost predicate EarnedInv(fx: Fixtures, s: Sys) {
    && LedgerEarned(fx, s.log, s.world.ledger)
    && (forall pid | pid in s.procs :: HandEarned(fx, s.log, s.procs[pid]))
    && (forall task | task in s.log :: LogEarned(fx, s.log[task]))
  }

  // ----- earnings stay -----

  lemma EarnedStays(fx: Fixtures, log: seq<Commit>, longer: seq<Commit>, tool: Tool)
    requires log <= longer && Earned(fx, log, tool)
    ensures Earned(fx, longer, tool)
  {
    hide Outlasts;
    var i: nat :| i < |log| && Outlasts(fx, log[i], tool);
    assert longer[i] == log[i];
  }

  lemma LedgerStaysEarned(fx: Fixtures, log: map<TaskId, seq<Commit>>, longer: map<TaskId, seq<Commit>>,
          ledger: map<ActionId, LedgerRow>)
    requires LogGrows(log, longer) && LedgerEarned(fx, log, ledger)
    ensures LedgerEarned(fx, longer, ledger)
  {
    hide Earned;
    forall key | key in ledger ensures key.task in longer && Earned(fx, longer[key.task], key.tool) {
      EarnedStays(fx, log[key.task], longer[key.task], key.tool);
    }
  }

  lemma HandStaysEarned(fx: Fixtures, log: map<TaskId, seq<Commit>>, longer: map<TaskId, seq<Commit>>, p: Proc)
    requires LogGrows(log, longer) && HandEarned(fx, log, p)
    ensures HandEarned(fx, longer, p)
  {
    hide Earned;
    if InHand(p.pc).Some? {
      EarnedStays(fx, log[p.task], longer[p.task], InHand(p.pc).value);
    }
  }

  lemma LogEarnedExtends(fx: Fixtures, log: seq<Commit>, c: Commit)
    requires LogEarned(fx, log) && (c.move.FinishTool? ==> Earned(fx, log, c.move.tool))
    ensures LogEarned(fx, log + [c])
  {
    hide Earned;
    forall i: nat | i < |log + [c]| ensures EarnedAt(fx, log + [c], i) {
      assert (log + [c])[..i] == log[..i];
      if i < |log| {
        assert EarnedAt(fx, log, i);
      } else {
        assert log[..i] == log;
      }
    }
  }

  /** Only what a step touched needs a look. */
  lemma AssembleEarned(fx: Fixtures, s: Sys, r: Sys)
    requires EarnedInv(fx, s) && LogGrows(s.log, r.log) && LedgerEarned(fx, r.log, r.world.ledger)
    requires forall pid | pid in r.procs ::
               (pid in s.procs && r.procs[pid] == s.procs[pid]) || HandEarned(fx, r.log, r.procs[pid])
    requires forall task | task in r.log :: (task in s.log && r.log[task] == s.log[task]) || LogEarned(fx, r.log[task])
    ensures EarnedInv(fx, r)
  {
    hide HandEarned, LedgerEarned, LogEarned, LogGrows;
    forall pid | pid in r.procs ensures HandEarned(fx, r.log, r.procs[pid]) {
      if pid in s.procs && r.procs[pid] == s.procs[pid] {
        HandStaysEarned(fx, s.log, r.log, r.procs[pid]);
      }
    }
  }

  // ----- one step of a process -----

  lemma SavedHandsAreEmpty(cfg: Config, task: TaskId, m: Move)
    ensures InHand(AfterSave(cfg, task, m)).None?
  {
    hide ValidatedRequest, Evaluate, Validate;
    if m.Accept? && m.decision.action.UseTool? && ValidatedRequest(m.decision).Some? {
      assert InHand(AfterAccept(cfg, task, m.decision)).None?;
    }
  }

  lemma EnginesGiveNothing(cfg: Config, s: WorkflowState, answer: EngineAnswer)
    requires cfg.Valid()
    ensures InHand(AfterEngine(cfg, s, answer)).None?
  {
    hide RequestReason, ValidatedRequest;
    if answer.Decide? {
      assert InHand(AfterDecision(cfg, s, answer.decision, answer.usage)).None?;
    }
  }

  lemma ResumptionsGiveNothing(w: World, p: Proc)
    ensures InHand(ResumeStep(w, p)).None?
  {
    hide Validate, Evaluate;
    if p.base.Some? && p.base.value.pendingAction.Some? {
      var pending := p.base.value.pendingAction.value;
      assert InHand(Execute(pending.tool, pending.arguments)).None?;
    }
  }

  /** Where a result comes from: the process had it, the ledger has it, or the backend returned it. */
  lemma HandsFill(cfg: Config, w: World, p: Proc, a: Answer)
    requires cfg.Valid() && !CommitsNow(w, p)
    ensures var hand := InHand(StepProc(cfg, w, p, a).1.pc);
            || hand.None? || hand == InHand(p.pc)
            || (p.pc.LookingUp? && hand == Some(p.pc.tool) && KeyOf(cfg, p) in w.ledger)
            || (p.pc.Calling? && hand == Some(p.pc.tool) && a.backend.Returned?)
  {
    hide Effect, RetryRow, Enqueue, RequestReason, ValidatedRequest, Evaluate, Validate, StructuredResult, AfterSave;
    if p.pc.AskingEngine? && p.base.Some? {
      EnginesGiveNothing(cfg, p.base.value, a.engine);
    } else if p.pc.CheckingApproval? {
      ResumptionsGiveNothing(w, p);
    } else if p.pc.Saving? && p.base.Some? {
      ApplyKeepsTask(cfg, p.base.value, p.pc.move);
    }
  }

  /** What the backend returns has been requested often enough. */
  lemma ReturnsAreEarned(cfg: Config, fx: Fixtures, s: Sys, pid: nat, a: Answer)
    requires cfg.Valid() && ReferenceInv(cfg, fx, s) && pid in s.procs && s.procs[pid].pc.Calling?
    requires AnswersFaithfully(fx, s.procs[pid], a) && a.backend.Returned?
    ensures s.procs[pid].task in s.log && Earned(fx, s.log[s.procs[pid].task], s.procs[pid].pc.tool)
  {
    hide ReferenceInv, Inv, WellFormed, Gated, MayExecute, OnTrack, HistoryOnTrack, ReferenceDecision, Healthy, Unhealthy,
         Expected, SentArguments, Tries, Transient, ScenarioAnswer;
    var p := s.procs[pid];
    ReferenceProc(cfg, fx, s, pid);
    ProcIsOk(cfg, s, pid);
    ReferenceBase(cfg, fx, s, pid);
    var c := s.log[p.task][p.base.value.version];
    DueToolRuns(cfg, fx, c, p.pc.tool, p.pc.arguments);
    BackendAnswers(fx, c.state);
    assert Outlasts(fx, c, p.pc.tool);
  }

  lemma QuietHandIsEarned(cfg: Config, fx: Fixtures, s: Sys, pid: nat, a: Answer)
    requires cfg.Valid() && ReferenceInv(cfg, fx, s) && EarnedInv(fx, s) && pid in s.procs
    requires !CommitsNow(s.world, s.procs[pid]) && AnswersFaithfully(fx, s.procs[pid], a)
    ensures HandEarned(fx, s.log, StepProc(cfg, s.world, s.procs[pid], a).1)
  {
    hide StepProc, ReferenceInv, Earned, CommitsNow, AnswersFaithfully, LogEarned;
    var p := s.procs[pid];
    HandsFill(cfg, s.world, p, a);
    StepFrame(cfg, s.world, p, a);
    assert HandEarned(fx, s.log, p);
    if p.pc.Calling? && a.backend.Returned? {
      ReturnsAreEarned(cfg, fx, s, pid, a);
    }
  }

  lemma QuietKeepsEarned(cfg: Config, fx: Fixtures, s: Sys, pid: nat, a: Answer)
    requires cfg.Valid() && ReferenceInv(cfg, fx, s) && EarnedInv(fx, s) && pid in s.procs
    requires !CommitsNow(s.world, s.procs[pid]) && AnswersFaithfully(fx, s.procs[pid], a)
    ensures EarnedInv(fx, DoAdvance(cfg, s, pid, a))
  {
    hide StepProc, ReferenceInv, Earned, CommitsNow, AnswersFaithfully, LogEarned, SeenNow;
    var p := s.procs[pid];
    var r := DoAdvance(cfg, s, pid, a);
    QuietHandIsEarned(cfg, fx, s, pid, a);
    StepLedger(cfg, s.world, p, a);
    assert HandEarned(fx, s.log, p);
    AssembleEarned(fx, s, r);
  }

  lemma CommitKeepsEarned(cfg: Config, fx: Fixtures, s: Sys, pid: nat, a: Answer)
    requires cfg.Valid() && Inv(cfg, s) && EarnedInv(fx, s) && pid in s.procs && CommitsNow(s.world, s.procs[pid])
    ensures EarnedInv(fx, DoAdvance(cfg, s, pid, a))
  {
    hide DoAdvance, Inv, Earned, Apply, AfterSave, Follows, WellFormed, ValidLog, LogEarned;
    var p := s.procs[pid];
    var r := DoAdvance(cfg, s, pid, a);
    CommitterIsCurrent(cfg, s, pid);
    CommitHasShape(cfg, s, pid, a);
    SavedHandsAreEmpty(cfg, p.task, p.pc.move);
    assert HandEarned(fx, s.log, p);
    LogEarnedExtends(fx, s.log[p.task], CommitOf(cfg, p));
    LedgerStaysEarned(fx, s.log, r.log, s.world.ledger);
    AssembleEarned(fx, s, r);
  }

  // ----- the other steps -----

  lemma FreshLogEarned(fx: Fixtures, log: seq<Commit>)
    requires |log| == 1 && log[0].move.Create?
    ensures LogEarned(fx, log)
  {
  }

  lemma CreateKeepsEarned(cfg: Config, fx: Fixtures, s: Sys, task: TaskId, goal: string, scenario: string, now: real)
    requires cfg.Valid() && Inv(cfg, s) && EarnedInv(fx, s)
    ensures EarnedInv(fx, DoCreate(cfg, s, task, goal, scenario, now))
  {
    hide Inv, Earned, LogEarned;
    LogIsOk(cfg, s, task);
    var r := DoCreate(cfg, s, task, goal, scenario, now);
    if task !in s.world.workflows {
      FreshLogEarned(fx, r.log[task]);
      LedgerStaysEarned(fx, s.log, r.log, s.world.ledger);
      AssembleEarned(fx, s, r);
    }
  }

  lemma ReplayKeepsEarned(cfg: Config, fx: Fixtures, s: Sys, row: nat, task: TaskId, now: real)
    requires cfg.Valid() && Inv(cfg, s) && EarnedInv(fx, s)
    ensures EarnedInv(fx, DoReplay(cfg, s, row, task, now))
  {
    hide DoReplay, Inv, Earned, Apply, Linked, ValidLog, LogEarned;
    if Replayable(s.world, row, task) {
      ReplayEffect(cfg, s, row, task, now);
      var r := DoReplay(cfg, s, row, task, now);
      LogEarnedExtends(fx, s.log[task], Commit(Replay, Apply(cfg, s.log[task][|s.log[task]| - 1].state, Replay)));
      LedgerStaysEarned(fx, s.log, r.log, s.world.ledger);
      AssembleEarned(fx, s, r);
    } else {
      NoReplay(cfg, s, row, task, now);
    }
  }

  lemma PlainKeepsEarned(cfg: Config, fx: Fixtures, s: Sys, step: Step)
    requires cfg.Valid() && EarnedInv(fx, s) && !step.Advance? && !step.ReplayRow? && !step.CreateIncident?
    ensures EarnedInv(fx, Do(cfg, s, step))
  {
    hide DoReplay, DoAdvance, DoCreate, Claim, LostByCrash, Earned, LogEarned;
    if step.ClaimNext? {
      ClaimTouchesQueueOnly(s.world, step.worker, cfg.leaseSeconds, step.now);
    }
    AssembleEarned(fx, s, Do(cfg, s, step));
  }

  lemma DoKeepsEarned(cfg: Config, fx: Fixtures, s: Sys, step: Step)
    requires cfg.Valid() && ReferenceInv(cfg, fx, s) && EarnedInv(fx, s) && Faithful(fx, s, step)
    ensures EarnedInv(fx, Do(cfg, s, step))
  {
    hide ReferenceInv, Inv, EarnedInv, DoAdvance, DoReplay, DoClaim, DoCreate, DoCrash, DoRequest, CommitsNow,
         AnswersFaithfully;
    ReferenceTables(cfg, fx, s);
    match step {
      case Advance(pid, a) =>
        if pid !in s.procs {
          NobodyAdvances(cfg, s, pid, a);
        } else if CommitsNow(s.world, s.procs[pid]) {
          CommitKeepsEarned(cfg, fx, s, pid, a);
        } else {
          QuietKeepsEarned(cfg, fx, s, pid, a);
        }
      case CreateIncident(task, goal, scenario, now) => CreateKeepsEarned(cfg, fx, s, task, goal, scenario, now);
      case ReplayRow(row, task, now) => ReplayKeepsEarned(cfg, fx, s, row, task, now);
      case _ => PlainKeepsEarned(cfg, fx, s, step);
    }
  }

  lemma {:induction false} TraceKeepsEarned(cfg: Config, fx: Fixtures, steps: seq<Step>, trace: seq<Sys>, i: nat)
    requires cfg.Valid() && FaithfulTrace(cfg, fx, steps, trace) && i <= |steps|
    ensures EarnedInv(fx, trace[i])
    decreases i
  {
    hide Do, Faithful, ReferenceInv;
    if i > 0 {
      TraceKeepsEarned(cfg, fx, steps, trace, i - 1);
      assert StepAt(cfg, steps, trace, i - 1) && FaithfulAt(fx, steps, trace, i - 1);
      TraceKeepsReference(cfg, fx, steps, trace, i - 1);
      DoKeepsEarned(cfg, fx, trace[i - 1], steps[i - 1]);
    }
  }

  // ----- what it says of the checkpoints -----

  lemma {:induction false} PriorGrows(tool: Tool, short: seq<Tool>, long: seq<Tool>)
    requires short <= long
    ensures Prior(tool, short) <= Prior(tool, long)
    decreases |long|
  {
    if |short| < |long| {
      PriorGrows(tool, short, long[..|long| - 1]);
    } else {
      assert short == long;
    }
  }

  /** While a tool is due its requests only get more. */
  lemma TriesGrow(cfg: Config, fx: Fixtures, task: TaskId, log: seq<Commit>, i: nat, j: nat)
    requires cfg.Valid() && ReferenceLog(cfg, fx, task, log) && i <= j < |log|
    requires Progress(log[i].state) == Progress(log[j].state)
    ensures Tries(log[i].state) <= Tries(log[j].state) && log[i].state.scenarioId == log[j].state.scenarioId
  {
    hide CausedAt, ReferenceCommit, LinkedAt;
    ReferenceStaysOnTrack(cfg, fx, task, log, i);
    ReferenceStaysOnTrack(cfg, fx, task, log, j);
    LogGrown(cfg, task, log, i, j);
    if Progress(log[i].state) < 6 {
      PriorGrows(ToolAt(Progress(log[i].state)), log[i].state.toolHistory, log[j].state.toolHistory);
    }
  }

  /** The checkpoint before a finished tool has more requests of it than the scenario fails. */
  lemma FinishedOutlasts(cfg: Config, fx: Fixtures, task: TaskId, log: seq<Commit>, i: nat)
    requires cfg.Valid() && ReferenceLog(cfg, fx, task, log) && LogEarned(fx, log)
    requires 0 < i < |log| && log[i].move.FinishTool?
    ensures Outlasts(fx, log[i - 1], log[i].move.tool)
  {
    hide CausedAt, OnTrack, HistoryOnTrack, MayExecute, Tries, Transient, ReferenceDecision, Healthy, Unhealthy, Expected,
         SentArguments, ReferenceLog;
    var tool := log[i].move.tool;
    assert EarnedAt(fx, log, i);
    var k: nat :| k < |log[..i]| && Outlasts(fx, log[..i][k], tool);
    ReferenceStaysOnTrack(cfg, fx, task, log, i - 1);
    FinishIsDue(cfg, fx, task, log, i);
    TriesGrow(cfg, fx, task, log, k, i - 1);
  }

  lemma FinishIsDue(cfg: Config, fx: Fixtures, task: TaskId, log: seq<Commit>, i: nat)
    requires cfg.Valid() && ReferenceLog(cfg, fx, task, log) && 0 < i < |log| && log[i].move.FinishTool?
    ensures Progress(log[i - 1].state) == Rank(log[i].move.tool) < 6
    ensures log[i - 1].move.Accept? || log[i - 1].state.pendingAction.Some?
  {
    hide CausedAt, OnTrack, HistoryOnTrack, Tries, Transient, ReferenceDecision, Healthy, Unhealthy, Expected,
         SentArguments, Apply;
    ReferenceStaysOnTrack(cfg, fx, task, log, i - 1);
    assert LinkedAt(cfg, log, i);
    var arguments :| MayExecute(log[i - 1], log[i].move.tool, arguments);
    DueToolRuns(cfg, fx, log[i - 1], log[i].move.tool, arguments);
  }

  /**
   In every faithful run, under any interleaving: whatever result the ledger has, its tool had been requested
   more often than the scenario fails it when it was due, and so it is with every finished tool.
   */
  lemma ResultsAreEarned(cfg: Config, fx: Fixtures, steps: seq<Step>, s: Sys, task: TaskId)
    requires cfg.Valid() && FaithfullyReached(cfg, fx, steps, s) && task in s.log
    ensures forall key | key in s.world.ledger && key.task == task :: Earned(fx, s.log[task], key.tool)
    ensures forall i: nat | 0 < i < |s.log[task]| && s.log[task][i].move.FinishTool? ::
              Outlasts(fx, s.log[task][i - 1], s.log[task][i].move.tool)
  {
    hide Do, FaithfulAt, Earned, ReferenceInv, LogEarned, ReferenceLog, Inv;
    var trace :| FaithfulTrace(cfg, fx, steps, trace) && trace[|steps|] == s;
    TraceKeepsEarned(cfg, fx, steps, trace, |steps|);
    TraceKeepsReference(cfg, fx, steps, trace, |steps|);
    ReferenceTaskOf(cfg, fx, s, task);
    forall i: nat | 0 < i < |s.log[task]| && s.log[task][i].move.FinishTool?
      ensures Outlasts(fx, s.log[task][i - 1], s.log[task][i].move.tool)
    {
      FinishedOutlasts(cfg, fx, task, s.log[task], i);
    }
  }
}
