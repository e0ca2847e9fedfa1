/** Why a decision that can still be reached needs the feasible checkpoint, whatever the run does. */
module Necessity {
  import opened Prelude
  import opened Models
  import opened Tables
  import opened Checkpoints
  import opened CheckpointFacts
  import opened Machine
  import opened System
  import opened Refinement
  import opened ApprovalGate
  import opened Discipline
  import opened Holders
  import opened Effects
  import opened LiveRows
  import opened LiveTurns
  import opened Reference
  import opened ReferenceChains
  import opened ReferenceRuns
  import opened FaithfulPlay
  import opened Rounds
  import opened Earnings
  import opened FailingRestarts
  import opened Feasibility

  // ----- disciplined faithful runs are faithful runs -----

  lemma FaithfulTraceExtends(cfg: Config, fx: Fixtures, steps: seq<Step>, trace: seq<Sys>, step: Step)
    requires cfg.Valid() && FaithfulTrace(cfg, fx, steps, trace) && Faithful(fx, trace[|steps|], step)
    ensures FaithfulTrace(cfg, fx, steps + [step], trace + [Do(cfg, trace[|steps|], step)])
  {
    hide Do, Faithful;
    var longer, states := steps + [step], trace + [Do(cfg, trace[|steps|], step)];
    forall i: nat | i < |longer| ensures StepAt(cfg, longer, states, i) && FaithfulAt(fx, longer, states, i) {
      if i < |steps| {
        assert StepAt(cfg, steps, trace, i) && FaithfulAt(fx, steps, trace, i);
      }
    }
  }

  lemma {:induction false} DrainIsFaithful(cfg: Config, fx: Fixtures, steps: seq<Step>, trace: seq<Sys>, pid: nat,
          a: Answer, n: nat)
    returns (more: seq<Step>, states: seq<Sys>)
    requires cfg.Valid() && FaithfulTrace(cfg, fx, steps, trace) && pid in trace[|steps|].procs
    requires !Unsettled(trace[|steps|].procs[pid].pc) || Settling(trace[|steps|].procs[pid].pc)
    ensures FaithfulTrace(cfg, fx, more, states) && states[|more|] == Drain(cfg, trace[|steps|], pid, a, n)
    ensures trace <= states
    decreases n
  {
    hide StepProc, LogAfter, SeenNow, AnswersFaithfully, StepAt, FaithfulAt;
    var s := trace[|steps|];
    if n == 0 || !s.procs[pid].Live() {
      more, states := steps, trace;
    } else {
      QuestionsAreUnsettled(s.procs[pid], fx, a);
      SettlesOnce(cfg, s.world, s.procs[pid], a);
      FaithfulTraceExtends(cfg, fx, steps, trace, Advance(pid, a));
      more, states := DrainIsFaithful(cfg, fx, steps + [Advance(pid, a)], trace + [Do(cfg, s, Advance(pid, a))], pid, a, n - 1);
    }
  }

  lemma TurnIsFaithful(cfg: Config, fx: Fixtures, steps: seq<Step>, trace: seq<Sys>, turn: Turn)
    returns (more: seq<Step>, states: seq<Sys>)
    requires cfg.Valid() && FaithfulTrace(cfg, fx, steps, trace) && Faithful(fx, trace[|steps|], turn.step)
    ensures FaithfulTrace(cfg, fx, more, states) && states[|more|] == Take(cfg, trace[|steps|], turn)
    ensures trace <= states
  {
    hide Do, DoAdvance, Drain, Faithful, LeaseLost, LoadedOn, StepAt, FaithfulAt;
    var s := trace[|steps|];
    if !Permitted(s, turn.step) {
      more, states := steps, trace;
    } else if turn.step.Advance? && Settling(s.procs[turn.step.pid].pc) {
      more, states := DrainIsFaithful(cfg, fx, steps, trace, turn.step.pid, turn.step.answer, SETTLEMENT_STEPS);
    } else if turn.step.RequestApproval? || turn.step.RequestRejection? {
      RequestBegins(cfg, s, turn.step);
      FaithfulTraceExtends(cfg, fx, steps, trace, turn.step);
      more, states := DrainIsFaithful(cfg, fx, steps + [turn.step], trace + [Do(cfg, s, turn.step)], turn.step.pid,
                                      turn.settling, SETTLEMENT_STEPS);
    } else {
      PlainTurn(cfg, s, turn);
      FaithfulTraceExtends(cfg, fx, steps, trace, turn.step);
      more, states := steps + [turn.step], trace + [Do(cfg, s, turn.step)];
    }
  }

  /** A disciplined run up to turn n as a run of the system, in which the state before turn i comes at k. */
  lemma {:induction false} PlayIsFaithful(cfg: Config, fx: Fixtures, turns: seq<Turn>, trace: seq<Sys>, i: nat, n: nat)
    returns (steps: seq<Step>, states: seq<Sys>, k: nat)
    requires cfg.Valid() && HonestPlay(cfg, Some(fx), turns, trace) && i <= n <= |turns|
    ensures FaithfulTrace(cfg, fx, steps, states) && states[|steps|] == trace[n]
    ensures k <= |steps| && states[k] == trace[i]
    decreases n
  {
    hide Take, Faithful, StepAt, FaithfulAt;
    if n == 0 {
      steps, states, k := [], [INITIAL], 0;
    } else {
      var fewer, shorter, at := PlayIsFaithful(cfg, fx, turns, trace, if i < n then i else n - 1, n - 1);
      assert TurnAt(cfg, turns, trace, n - 1) && HonestAt(Some(fx), turns, trace, n - 1);
      steps, states := TurnIsFaithful(cfg, fx, fewer, shorter, turns[n - 1]);
      k := if i < n then at else |steps|;
    }
  }

  // ----- a request that nobody carries on -----

  /** The process may save a result, or the waiting checkpoint, before anything else. */
  predicate Carrying(pc: Pc) {
    match pc
    case LookingUp(_, _) => true
    case Calling(_, _) => true
    case Recording(_, _, _) => true
    case Saving(m) => m.FinishTool? || m.Wait?
    case Emitting(_, next) => Carrying(next)
    case _ => false
  }

  /** Nobody carries on what was saved as the n-th checkpoint of the task. */
  ghost predicate LeftAlone(s: Sys, task: TaskId, n: nat) {
    && task in s.log && 0 < n <= |s.log[task]| && s.log[task][n - 1].state.pendingAction.None?
    && (n < |s.log[task]| ==> !s.log[task][n].move.FinishTool? && !s.log[task][n].move.Wait?)
    && (n == |s.log[task]| ==>
          forall pid | pid in s.procs && s.procs[pid].task == task && s.procs[pid].base.Some?
                       && s.procs[pid].base.value.version == n - 1 ::
            !Carrying(s.procs[pid].pc))
  }

  lemma EnginesCarryNothing(cfg: Config, st: WorkflowState, answer: EngineAnswer)
    requires cfg.Valid()
    ensures !Carrying(AfterEngine(cfg, st, answer))
  {
    hide RequestReason, ValidatedRequest;
    if answer.Decide? {
      assert !Carrying(AfterDecision(cfg, st, answer.decision, answer.usage));
    }
  }

  /** With nothing pending, nobody begins to carry anything before the next checkpoint. */
  lemma RestsOn(cfg: Config, w: World, p: Proc, a: Answer)
    requires cfg.Valid() && !CommitsNow(w, p) && (p.pc.Loading? || !Carrying(p.pc))
    requires p.base.Some? ==> p.base.value.taskId == p.task
    ensures var q := StepProc(cfg, w, p, a).1;
            q.base.Some? && q.base.value.pendingAction.None? ==> !Carrying(q.pc)
  {
    hide Effect, RetryRow, Enqueue, RequestReason, ValidatedRequest, Execute, AfterBackend, AfterSave, AfterEngine;
    if p.pc.Saving? && p.base.Some? {
      ApplyKeepsTask(cfg, p.base.value, p.pc.move);
    } else if p.pc.AskingEngine? && p.base.Some? {
      EnginesCarryNothing(cfg, p.base.value, a.engine);
    }
  }

  lemma QuietLeavesAlone(cfg: Config, s: Sys, pid: nat, a: Answer, task: TaskId, n: nat)
    requires cfg.Valid() && Inv(cfg, s) && LeftAlone(s, task, n) && pid in s.procs && !CommitsNow(s.world, s.procs[pid])
    ensures LeftAlone(DoAdvance(cfg, s, pid, a), task, n)
  {
    hide StepProc, Inv, SeenNow, Carrying, CommitsNow, ValidLog, PcOk, Gated;
    var p := s.procs[pid];
    ProcIsOk(cfg, s, pid);
    LogIsOk(cfg, s, task);
    StepFrame(cfg, s.world, p, a);
    if p.task == task && n == |s.log[task]| {
      if p.base.Some? {
        ProcBaseTask(cfg, s, pid);
      }
      if p.pc.Loading? {
        OnLoading(cfg, s.world, p, a);
        LogWellFormed(cfg, task, s.log[task], n - 1);
        RestsOn(cfg, s.world, p, a);
      } else if p.base.Some? && p.base.value.version == n - 1 {
        RestsOn(cfg, s.world, p, a);
      }
    }
  }

  lemma OnLoading(cfg: Config, w: World, p: Proc, a: Answer)
    requires cfg.Valid() && p.pc.Loading?
    ensures StepProc(cfg, w, p, a).1.base == if p.task in w.workflows then Some(w.workflows[p.task].state) else None
  {
    hide AfterLoad;
  }

  lemma ProcBaseTask(cfg: Config, s: Sys, pid: nat)
    requires cfg.Valid() && Inv(cfg, s) && pid in s.procs && s.procs[pid].base.Some?
    ensures s.procs[pid].base.value.taskId == s.procs[pid].task
  {
    hide Inv, PcOk, Gated, ValidLog;
    ProcIsOk(cfg, s, pid);
    LogIsOk(cfg, s, s.procs[pid].task);
    LogWellFormed(cfg, s.procs[pid].task, s.log[s.procs[pid].task], s.procs[pid].base.value.version);
  }

  lemma CommitLeavesAlone(cfg: Config, s: Sys, pid: nat, a: Answer, task: TaskId, n: nat)
    requires cfg.Valid() && Inv(cfg, s) && LeftAlone(s, task, n) && pid in s.procs && CommitsNow(s.world, s.procs[pid])
    ensures LeftAlone(DoAdvance(cfg, s, pid, a), task, n)
  {
    hide DoAdvance, Inv, Apply, AfterSave, Follows, WellFormed, ValidLog;
    CommitterIsCurrent(cfg, s, pid);
    CommitHasShape(cfg, s, pid, a);
  }

  lemma PlainLeavesAlone(cfg: Config, s: Sys, step: Step, task: TaskId, n: nat)
    requires cfg.Valid() && Inv(cfg, s) && LeftAlone(s, task, n) && !step.Advance? && !step.ReplayRow?
    ensures LeftAlone(Do(cfg, s, step), task, n)
  {
    hide Inv, DoReplay, DoAdvance, Claim, LostByCrash, LogOk;
    LogIsOk(cfg, s, task);
    if step.ClaimNext? {
      ClaimTouchesQueueOnly(s.world, step.worker, cfg.leaseSeconds, step.now);
    }
  }

  lemma ReplayLeavesAlone(cfg: Config, s: Sys, row: nat, other: TaskId, now: real, task: TaskId, n: nat)
    requires cfg.Valid() && Inv(cfg, s) && LeftAlone(s, task, n)
    ensures LeftAlone(DoReplay(cfg, s, row, other, now), task, n)
  {
    hide Inv, DoReplay, Apply, ValidLog, Linked, Carrying;
    if Replayable(s.world, row, other) {
      ReplayEffect(cfg, s, row, other, now);
    } else {
      NoReplay(cfg, s, row, other, now);
    }
  }

  lemma DoLeavesAlone(cfg: Config, s: Sys, step: Step, task: TaskId, n: nat)
    requires cfg.Valid() && Inv(cfg, s) && LeftAlone(s, task, n)
    ensures LeftAlone(Do(cfg, s, step), task, n)
  {
    hide Inv, LeftAlone, DoAdvance, DoReplay, DoClaim, DoCreate, DoCrash, DoRequest, CommitsNow;
    match step {
      case Advance(pid, a) =>
        if pid !in s.procs {
          NobodyAdvances(cfg, s, pid, a);
        } else if CommitsNow(s.world, s.procs[pid]) {
          CommitLeavesAlone(cfg, s, pid, a, task, n);
        } else {
          QuietLeavesAlone(cfg, s, pid, a, task, n);
        }
      case ReplayRow(row, other, now) => ReplayLeavesAlone(cfg, s, row, other, now, task, n);
      case _ => PlainLeavesAlone(cfg, s, step, task, n);
    }
  }

  lemma {:induction false} TraceLeavesAlone(cfg: Config, steps: seq<Step>, trace: seq<Sys>, i: nat, j: nat,
          task: TaskId, n: nat)
    requires cfg.Valid() && IsTrace(cfg, steps, trace) && i <= j <= |steps| && LeftAlone(trace[i], task, n)
    ensures LeftAlone(trace[j], task, n)
    decreases j
  {
    hide Do, Inv, LeftAlone;
    if i < j {
      TraceLeavesAlone(cfg, steps, trace, i, j - 1, task, n);
      assert StepAt(cfg, steps, trace, j - 1);
      TraceHasInv(cfg, steps, trace, j - 1);
      DoLeavesAlone(cfg, trace[j - 1], steps[j - 1], task, n);
    }
  }

  // ----- the condition is necessary -----

  /** A live worker of the task carries out the request that was accepted last. */
  ghost predicate AtIt(s: Sys, task: TaskId) {
    exists pid :: pid in s.procs && s.procs[pid].Live() && s.procs[pid].task == task && Carrying(s.procs[pid].pc)
  }

  lemma NobodyAtIt(cfg: Config, s: Sys, task: TaskId)
    requires cfg.Valid() && Inv(cfg, s) && task in s.log && s.log[task] != [] && Last(s, task).move.Accept?
    requires !AtIt(s, task)
    ensures LeftAlone(s, task, |s.log[task]|)
  {
    hide Inv, LogOk;
    LogShape(cfg, s, task);
    forall pid | pid in s.procs && s.procs[pid].task == task ensures !Carrying(s.procs[pid].pc) {
      assert s.procs[pid].Live() ==> !Carrying(s.procs[pid].pc);
    }
  }

  lemma LogShape(cfg: Config, s: Sys, task: TaskId)
    requires cfg.Valid() && Inv(cfg, s) && task in s.log
    ensures s.log[task] != [] && WellFormed(cfg, task, Last(s, task))
  {
    hide Inv, WellFormed, LinkedAt;
    LogIsOk(cfg, s, task);
    LogWellFormed(cfg, task, s.log[task], |s.log[task]| - 1);
  }

  /** In disciplined runs a rejection is the last checkpoint. */
  lemma RejectionIsLast(cfg: Config, task: TaskId, log: seq<Commit>, i: nat)
    requires cfg.Valid() && ValidLog(cfg, task, log) && ReplaysOfDeadLetters(log) && i < |log| && log[i].move.Reject?
    ensures i == |log| - 1 && log[i].state.status.HumanRejected?
  {
    hide Follows;
    assert i > 0;
    assert LinkedAt(cfg, log, i);
    if i + 1 < |log| {
      OnlyReplayLeavesTerminal(cfg, task, log, i);
      NotDeadLettered(log, i + 1);
    }
  }

  lemma NotDeadLettered(log: seq<Commit>, i: nat)
    requires ReplaysOfDeadLetters(log) && 0 < i < |log| && !log[i - 1].state.status.DeadLettered?
    ensures !log[i].move.Replay?
  {
    assert ReplayFits(log, i);
  }

  /** The chain at the end of a run, and what of it was there at turn i. */
  ghost predicate ChainFrom(cfg: Config, fx: Fixtures, s: Sys, r: Sys, task: TaskId)
    requires cfg.Valid()
  {
    && Inv(cfg, s) && Inv(cfg, r) && task in s.log && s.log[task] != []
    && task in r.log && s.log[task] <= r.log[task]
    && ReferenceLog(cfg, fx, task, r.log[task]) && LogEarned(fx, r.log[task])
    && (Last(s, task).move.Accept? && !AtIt(s, task) ==> LeftAlone(r, task, |s.log[task]|))
  }

  lemma PlayHasChain(cfg: Config, fx: Fixtures, turns: seq<Turn>, trace: seq<Sys>, i: nat, task: TaskId)
    requires cfg.Valid() && HonestPlay(cfg, Some(fx), turns, trace) && i <= |turns| && task in trace[i].world.workflows
    ensures ChainFrom(cfg, fx, trace[i], trace[|turns|], task) && LiveInv(cfg, trace[|turns|])
  {
    hide TurnAt, HonestAt, Do, FaithfulAt, LiveInv, LeasesSet, ReferenceInv, ApprovalsWereAskedFor, Inv, LogOk,
         ReferenceLog, LogEarned, LedgerEarned, HandEarned, LeftAlone, AtIt;
    var s, r := trace[i], trace[|turns|];
    PlayKeepsSound(cfg, Some(fx), turns, trace, i);
    PlayKeepsSound(cfg, Some(fx), turns, trace, |turns|);
    var steps, states, k := PlayIsFaithful(cfg, fx, turns, trace, i, |turns|);
    TraceKeepsEarned(cfg, fx, steps, states, |steps|);
    LiveInvHasInv(cfg, s);
    LiveInvHasInv(cfg, r);
    StoredIsLast(cfg, s, task);
    TraceLogsGrow(cfg, steps, states, k, |steps|, task);
    ReferenceTaskOf(cfg, fx, r, task);
    if Last(s, task).move.Accept? && !AtIt(s, task) {
      NobodyAtIt(cfg, s, task);
      TraceLeavesAlone(cfg, steps, states, k, |steps|, task, |s.log[task]|);
    }
  }

  /** Decided at the end, so feasible everywhere, but for a request that is being carried out. */
  lemma DecidedNeedsFeasible(cfg: Config, fx: Fixtures, turns: seq<Turn>, trace: seq<Sys>, i: nat, task: TaskId)
    requires cfg.Valid() && HonestPlay(cfg, Some(fx), turns, trace) && i <= |turns| && task in trace[i].world.workflows
    requires task in trace[|turns|].world.workflows && RightlyDecided(fx, trace[|turns|].world.workflows[task].state)
    requires var scenarioId := trace[i].world.workflows[task].state.scenarioId;
             scenarioId in fx.scenarios && DistinctFingerprints(cfg, fx, scenarioId)
    ensures var st := trace[i].world.workflows[task].state;
            Feasible(cfg, fx, st) || (st.status.Running? && AtIt(trace[i], task) && Underway(cfg, fx, st))
  {
    hide TurnAt, HonestAt, LiveInv, Inv, ReferenceLog, LogEarned, DistinctFingerprints, FeasibleUpTo, Underway,
         OnTrack, LeftAlone, AtIt, Healthy, Unhealthy, Expected;
    PlayHasChain(cfg, fx, turns, trace, i, task);
    ChainNeedsFeasible(cfg, fx, trace[i], trace[|turns|], task);
  }

  lemma ChainNeedsFeasible(cfg: Config, fx: Fixtures, s: Sys, r: Sys, task: TaskId)
    requires cfg.Valid() && ChainFrom(cfg, fx, s, r, task) && LiveInv(cfg, r) && task in s.world.workflows
    requires task in r.world.workflows && RightlyDecided(fx, r.world.workflows[task].state)
    requires var scenarioId := s.world.workflows[task].state.scenarioId;
             scenarioId in fx.scenarios && DistinctFingerprints(cfg, fx, scenarioId)
    ensures var st := s.world.workflows[task].state;
            Feasible(cfg, fx, st) || (st.status.Running? && AtIt(s, task) && Underway(cfg, fx, st))
  {
    hide LiveInv, Inv, ReferenceLog, LogEarned, DistinctFingerprints, FeasibleUpTo, Underway, OnTrack, LeftAlone, AtIt,
         Healthy, Unhealthy, Expected, WellFormed;
    StoredIsLast(cfg, s, task);
    StoredIsLast(cfg, r, task);
    LogShape(cfg, s, task);
    NothingRejected(cfg, fx, r, task);
    var n := |s.log[task]|;
    SameScenario(cfg, fx, task, r.log[task], n - 1);
    if AtIt(s, task) {
      DecidedWasPossible(cfg, fx, task, r.log[task], n - 1);
      AcceptedIsRunning(cfg, task, Last(s, task));
    } else {
      if Last(s, task).move.Accept? {
        NextIsNoResult(r, task, n);
      }
      DecidedWasFeasible(cfg, fx, task, r.log[task], n - 1);
    }
  }

  lemma AcceptedIsRunning(cfg: Config, task: TaskId, c: Commit)
    requires WellFormed(cfg, task, c)
    ensures c.move.Accept? ==> c.state.status.Running?
  {
    hide GatedAction;
  }

  /** A workflow that has ended, and is not dead-lettered, keeps its last checkpoint. */
  lemma EndsAreFinal(cfg: Config, fx: Fixtures, turns: seq<Turn>, trace: seq<Sys>, i: nat, task: TaskId)
    requires cfg.Valid() && HonestPlay(cfg, Some(fx), turns, trace) && i <= |turns| && task in trace[i].world.workflows
    requires var st := trace[i].world.workflows[task].state; st.Terminal() && !st.status.DeadLettered?
    ensures task in trace[|turns|].world.workflows
    ensures trace[|turns|].world.workflows[task].state == trace[i].world.workflows[task].state
  {
    hide TurnAt, HonestAt, Do, FaithfulAt, LiveInv, LeasesSet, ReferenceInv, ApprovalsWereAskedFor, Inv, LogOk,
         ValidLog, ReplaysOfDeadLetters;
    var s, r := trace[i], trace[|turns|];
    PlayKeepsSound(cfg, Some(fx), turns, trace, i);
    PlayKeepsSound(cfg, Some(fx), turns, trace, |turns|);
    var steps, states, k := PlayIsFaithful(cfg, fx, turns, trace, i, |turns|);
    LiveInvHasInv(cfg, s);
    LiveInvHasInv(cfg, r);
    StoredIsLast(cfg, s, task);
    TraceLogsGrow(cfg, steps, states, k, |steps|, task);
    ChainIsValid(cfg, r, task);
    StoredIsLast(cfg, r, task);
    ReplaysAreOk(cfg, r, task);
    var n := |s.log[task]|;
    if n < |r.log[task]| {
      OnlyReplayLeavesTerminal(cfg, task, r.log[task], n - 1);
      NotDeadLettered(r.log[task], n);
    }
  }

  lemma ChainIsValid(cfg: Config, s: Sys, task: TaskId)
    requires cfg.Valid() && Inv(cfg, s) && task in s.log
    ensures task in s.world.workflows && ValidLog(cfg, task, s.log[task])
  {
    hide Inv, ValidLog;
    LogIsOk(cfg, s, task);
  }

  lemma SameScenario(cfg: Config, fx: Fixtures, task: TaskId, log: seq<Commit>, i: nat)
    requires cfg.Valid() && ReferenceLog(cfg, fx, task, log) && i < |log|
    ensures log[i].state.scenarioId == log[0].state.scenarioId
  {
    hide ReferenceCommit, LinkedAt, CausedAt;
    ReferenceStaysOnTrack(cfg, fx, task, log, i);
  }

  lemma NextIsNoResult(s: Sys, task: TaskId, n: nat)
    requires LeftAlone(s, task, n)
    ensures n < |s.log[task]| ==> !s.log[task][n].move.FinishTool? && !s.log[task][n].move.Wait?
  {
  }

  lemma NothingRejected(cfg: Config, fx: Fixtures, r: Sys, task: TaskId)
    requires cfg.Valid() && LiveInv(cfg, r) && task in r.world.workflows && task in r.log
    requires r.log[task] != [] && r.world.workflows[task].state == Last(r, task).state
    requires RightlyDecided(fx, r.world.workflows[task].state)
    ensures forall j: nat | j < |r.log[task]| :: !r.log[task][j].move.Reject?
  {
    hide LiveInv, Inv, OnTrack, Healthy, Unhealthy, Expected, ReplaysOfDeadLetters, LinkedAt;
    LiveInvHasInv(cfg, r);
    LogIsOk(cfg, r, task);
    ReplaysAreOk(cfg, r, task);
    forall j: nat | j < |r.log[task]| ensures !r.log[task][j].move.Reject? {
      if r.log[task][j].move.Reject? {
        RejectionIsLast(cfg, task, r.log[task], j);
      }
    }
  }
}
