/**
 When a waiting workflow can still be approved. The waiting checkpoint is saved before the approval row is
 written, and a row that exists is left as it is; so a waiting workflow may have no undecided row, and then
 it waits forever.
 */
module Stranded {
  import opened Prelude
  import opened Models
  import opened Tables
  import opened QueueShape
  import opened Checkpoints
  import opened CheckpointFacts
  import opened Machine
  import opened System
  import opened Refinement
  import opened ApprovalGate
  import opened Discipline
  import opened Settlement
  import opened LiveRows
  import opened LiveTurns
  import opened LiveRuns
  import opened Termination
  import opened Solo

  /** The action a waiting workflow waits for has no undecided approval row. */
  ghost predicate Undecidable(s: Sys, task: TaskId) {
    && task in s.log && s.log[task] != []
    && var state := Last(s, task).state;
    && state.status.WaitingForApproval? && state.pendingAction.Some?
    && var key := (task, state.pendingAction.value.actionId);
    && (key !in s.world.approvals || !s.world.approvals[key].Undecided?)
  }

  /** A worker about to write the approval row. */
  predicate Writing(pc: Pc) {
    match pc
    case PuttingApproval(_) => true
    case Emitting(_, next) => Writing(next)
    case _ => false
  }

  /** Its row is decided, or it has none and nobody is about to write one. */
  ghost predicate Lost(s: Sys, task: TaskId) {
    && Undecidable(s, task)
    && ((task, Last(s, task).state.pendingAction.value.actionId) !in s.world.approvals ==>
          forall pid | pid in s.procs && s.procs[pid].Live() && s.procs[pid].task == task :: !Writing(s.procs[pid].pc))
  }

  /** The chain of the task stays, its approval rows stay, and nobody newly goes to write one. */
  lemma StaysLost(s: Sys, r: Sys, task: TaskId)
    requires Lost(s, task) && task in r.log && r.log[task] == s.log[task]
    requires forall action :: (task, action) in r.world.approvals ==> (task, action) in s.world.approvals
    requires VerdictsKept(s.world, r.world)
    requires forall pid | pid in r.procs && r.procs[pid].Live() && r.procs[pid].task == task ::
               Writing(r.procs[pid].pc) ==>
                 pid in s.procs && s.procs[pid].Live() && s.procs[pid].task == task && Writing(s.procs[pid].pc)
    ensures Lost(r, task)
  {
  }

  lemma OtherApprovalsOnly(cfg: Config, s: Sys, pid: nat, a: Answer, task: TaskId)
    requires cfg.Valid() && pid in s.procs && s.procs[pid].task != task
    ensures forall action :: (task, action) in DoAdvance(cfg, s, pid, a).world.approvals ==> (task, action) in s.world.approvals
  {
    hide StepProc, LogAfter, SeenNow;
    forall action | (task, action) in DoAdvance(cfg, s, pid, a).world.approvals ensures (task, action) in s.world.approvals {
      if (task, action) !in s.world.approvals {
        StepAddsApproval(cfg, s.world, s.procs[pid], a, (task, action));
      }
    }
  }

  /** A worker of another task. */
  lemma OthersLeaveItLost(cfg: Config, s: Sys, pid: nat, a: Answer, settling: Answer, task: TaskId)
    requires cfg.Valid() && LiveInv(cfg, s) && Lost(s, task) && WorkerLives(s, pid) && s.procs[pid].task != task
    ensures Lost(Take(cfg, s, Turn(Advance(pid, a), settling)), task)
    ensures Take(cfg, s, Turn(Advance(pid, a), settling)).log[task] == s.log[task]
  {
    hide DoAdvance, Drain, Inv, LiveInv, VerdictsKept, HeadsBack, OneRowTouched, WorkerOk, Apply, AfterSave, Writing;
    LiveInvHasInv(cfg, s);
    var r := Take(cfg, s, Turn(Advance(pid, a), settling));
    if Settling(s.procs[pid].pc) {
      EverySettlement(cfg, s, pid, a);
      SameApprovalsKept(s.world, r.world);
    } else if s.procs[pid].pc.Saving? {
      CommitIsCheckpoint(cfg, s, pid, a);
      SameApprovalsKept(s.world, r.world);
    } else {
      QuietStepShape(cfg, s, pid, a);
      OtherApprovalsOnly(cfg, s, pid, a, task);
      QuietKeepsTask(cfg, s, pid, a);
    }
    StaysLost(s, r, task);
  }

  lemma SameApprovalsKept(w: World, v: World)
    requires v.approvals == w.approvals
    ensures VerdictsKept(w, v)
  {
  }

  lemma QuietKeepsTask(cfg: Config, s: Sys, pid: nat, a: Answer)
    requires cfg.Valid() && pid in s.procs
    ensures pid in DoAdvance(cfg, s, pid, a).procs && DoAdvance(cfg, s, pid, a).procs[pid].task == s.procs[pid].task
  {
    hide StepProc, LogAfter, SeenNow;
    StepFrame(cfg, s.world, s.procs[pid], a);
  }

  /** Where a worker can be whose workflow waits for the verdict on `action`. */
  predicate OnWaiting(pc: Pc, action: ActionId) {
    match pc
    case Loading(purpose) => purpose.ToProcess?
    case Acknowledging(settlement) => settlement.Finish?
    case PuttingApproval(a) => a == action
    case Emitting(_, next) => OnWaiting(next, action)
    case _ => false
  }

  lemma WaitingPcs(cfg: Config, task: TaskId, c: Commit, pc: Pc)
    requires cfg.Valid() && WellFormed(cfg, task, c) && PcOk(cfg, c, pc) && InProcess(pc)
    requires c.state.status.WaitingForApproval? && c.state.pendingAction.Some?
    requires c.move.Wait? ==> c.state.pendingAction == Some(c.move.action)
    ensures OnWaiting(pc, c.state.pendingAction.value.actionId)
  {
    hide RequestReason, ValidatedRequest, GatedAction, PendingFor;
    match pc {
      case Emitting(_, next) => WaitingPcs(cfg, task, c, next);
      case LookingUp(tool, arguments) => ExecutableTool(c, tool, arguments);
      case Calling(tool, arguments) => ExecutableTool(c, tool, arguments);
      case Recording(tool, arguments, _) => ExecutableTool(c, tool, arguments);
      case Saving(m) => WaitingMoves(cfg, task, c, m);
      case _ =>
    }
  }

  lemma WaitingMoves(cfg: Config, task: TaskId, c: Commit, m: Move)
    requires cfg.Valid() && WellFormed(cfg, task, c) && Follows(cfg, c, m) && c.state.status.WaitingForApproval?
    ensures !ProcessMove(m)
  {
    hide RequestReason, ValidatedRequest, GatedAction, PendingFor;
  }

  lemma WorkerOnWaiting(cfg: Config, s: Sys, pid: nat, task: TaskId)
    requires cfg.Valid() && LiveInv(cfg, s) && Undecidable(s, task) && WorkerLives(s, pid) && s.procs[pid].task == task
    ensures OnWaiting(s.procs[pid].pc, Last(s, task).state.pendingAction.value.actionId)
  {
    hide Inv, LiveInv, InProcess, RowHeld, Gated, Apply, PcOk, WellFormed, LinkedAt, OnWaiting;
    WorkerIsOk(cfg, s, pid);
    if s.procs[pid].base.Some? {
      BaseIsLast(cfg, s, pid);
      LiveInvHasInv(cfg, s);
      LogIsOk(cfg, s, task);
      if Last(s, task).move.Wait? {
        WaitShowsAction(cfg, task, s.log[task]);
      }
      WaitingPcs(cfg, task, Last(s, task), s.procs[pid].pc);
    } else {
      LoadingIsOnWaiting(s.procs[pid].pc, Last(s, task).state.pendingAction.value.actionId);
    }
  }

  lemma LoadingIsOnWaiting(pc: Pc, action: ActionId)
    requires pc == Loading(ToProcess)
    ensures OnWaiting(pc, action)
  {
  }

  /** A worker of the task itself finds the workflow waiting and acknowledges. */
  lemma LoadsAndPasses(cfg: Config, s: Sys, pid: nat, a: Answer, task: TaskId)
    requires cfg.Valid() && Inv(cfg, s) && Undecidable(s, task) && pid in s.procs && s.procs[pid].task == task
    requires s.procs[pid].pc == Loading(ToProcess)
    ensures var r := DoAdvance(cfg, s, pid, a);
            && r.log == s.log && r.world == s.world && pid in r.procs && r.procs == s.procs[pid := r.procs[pid]]
            && !Writing(r.procs[pid].pc)
  {
    hide SaveStep, EngineStep, ResumeStep, LookupStep, RecordStep, RetryStep, ResolveStep, AcknowledgeStep,
         AfterBackend, CreateApproval, Enqueue, AfterSettlement, Inv;
    LogIsOk(cfg, s, task);
    StoredIsLast(cfg, s, task);
  }

  lemma EmitsAndPasses(cfg: Config, s: Sys, pid: nat, a: Answer)
    requires cfg.Valid() && pid in s.procs && s.procs[pid].pc.Emitting?
    ensures var r := DoAdvance(cfg, s, pid, a);
            && r.log == s.log && r.world.approvals == s.world.approvals && pid in r.procs
            && r.procs == s.procs[pid := r.procs[pid]]
            && r.procs[pid].task == s.procs[pid].task && (Writing(r.procs[pid].pc) ==> Writing(s.procs[pid].pc))
  {
    hide StepProc;
    OnEmit(cfg, s.world, s.procs[pid], a);
  }

  /** The row is there, and decided: writing it again changes nothing. */
  lemma PutsInVain(cfg: Config, s: Sys, pid: nat, a: Answer)
    requires cfg.Valid() && pid in s.procs && s.procs[pid].pc.PuttingApproval?
    requires (s.procs[pid].task, s.procs[pid].pc.action) in s.world.approvals
    ensures var r := DoAdvance(cfg, s, pid, a);
            && r.log == s.log && r.world.approvals == s.world.approvals && pid in r.procs
            && r.procs == s.procs[pid := r.procs[pid]]
            && r.procs[pid].task == s.procs[pid].task && !Writing(r.procs[pid].pc)
  {
    hide StepProc;
    OnPut(cfg, s.world, s.procs[pid], a);
  }

  lemma OwnWorkerPasses(cfg: Config, s: Sys, pid: nat, a: Answer, settling: Answer, task: TaskId)
    requires cfg.Valid() && LiveInv(cfg, s) && Lost(s, task) && WorkerLives(s, pid) && s.procs[pid].task == task
    ensures Lost(Take(cfg, s, Turn(Advance(pid, a), settling)), task)
    ensures Take(cfg, s, Turn(Advance(pid, a), settling)).log[task] == s.log[task]
  {
    hide DoAdvance, Drain, Inv, LiveInv, VerdictsKept, RowHeld, InProcess;
    LiveInvHasInv(cfg, s);
    WorkerOnWaiting(cfg, s, pid, task);
    var r := Take(cfg, s, Turn(Advance(pid, a), settling));
    match s.procs[pid].pc {
      case Loading(_) => LoadsAndPasses(cfg, s, pid, a, task);
      case Emitting(_, _) => EmitsAndPasses(cfg, s, pid, a);
      case PuttingApproval(_) => PutsInVain(cfg, s, pid, a);
      case Acknowledging(_) =>
        HeldRow(cfg, s, pid);
        RowHeldDelivered(s, pid);
        FinishSettles(cfg, s, pid, a);
    }
    SameApprovalsKept(s.world, r.world);
    StaysLost(s, r, task);
  }

  lemma RequestsLeaveItLost(cfg: Config, s: Sys, pid: nat, other: TaskId, purpose: Purpose, a: Answer, task: TaskId)
    requires cfg.Valid() && LiveInv(cfg, s) && Lost(s, task) && pid !in s.procs && RequestPurpose(purpose)
    ensures var r := Drain(cfg, DoRequest(s, pid, other, purpose), pid, a, SETTLEMENT_STEPS);
            Lost(r, task) && r.log[task] == s.log[task]
  {
    hide Drain, Inv, LiveInv, Apply, HasLive, Writing;
    LiveInvHasInv(cfg, s);
    RequestKeepsInv(cfg, s, pid, other, purpose);
    var t := DoRequest(s, pid, other, purpose);
    var r := Drain(cfg, t, pid, a, SETTLEMENT_STEPS);
    StoredIsLastIfAny(cfg, s, other);
    if MayResolve(s.world, other) {
      RequestResolves(cfg, t, pid, a, other, purpose);
      assert other != task;
    } else {
      RequestRefused(cfg, t, pid, a, other, purpose);
    }
    StaysLost(s, r, task);
  }

  lemma StoredIsLastIfAny(cfg: Config, s: Sys, task: TaskId)
    requires cfg.Valid() && Inv(cfg, s)
    ensures task in s.world.workflows ==> task in s.log && s.log[task] != [] && s.world.workflows[task].state == Last(s, task).state
  {
    hide Inv;
    if task in s.world.workflows {
      StoredIsLast(cfg, s, task);
    }
  }

  lemma PlainTurnLeavesItLost(cfg: Config, s: Sys, step: Step, task: TaskId)
    requires cfg.Valid() && LiveInv(cfg, s) && Lost(s, task)
    requires step.ClaimNext? || step.Crash? || step.Heartbeat? || step.NoteHeartbeat? || step.CreateIncident?
    ensures Lost(Do(cfg, s, step), task) && Do(cfg, s, step).log[task] == s.log[task]
  {
    hide Inv, LiveInv, Claim, LostByCrash, DoAdvance, DoReplay, DoRequest;
    LiveInvHasInv(cfg, s);
    LogIsOk(cfg, s, task);
    if step.ClaimNext? {
      ClaimTouchesQueueOnly(s.world, step.worker, cfg.leaseSeconds, step.now);
    }
    StaysLost(s, Do(cfg, s, step), task);
  }

  lemma ReplayLeavesItLost(cfg: Config, s: Sys, row: nat, other: TaskId, now: real, task: TaskId)
    requires cfg.Valid() && LiveInv(cfg, s) && Lost(s, task)
    ensures var r := DoReplay(cfg, s, row, other, now);
            Lost(r, task) && r.log[task] == s.log[task]
  {
    hide DoReplay, Inv, LiveInv, Apply, Linked, ValidLog, Writing;
    LiveInvHasInv(cfg, s);
    if Replayable(s.world, row, other) {
      StoredIsLast(cfg, s, other);
      DeadRowMeansDeadLettered(cfg, s, row, other);
      assert other != task;
      ReplayEffect(cfg, s, row, other, now);
      StaysLost(s, DoReplay(cfg, s, row, other, now), task);
    } else {
      NoReplay(cfg, s, row, other, now);
    }
  }

  lemma TurnLeavesItLost(cfg: Config, s: Sys, turn: Turn, task: TaskId)
    requires cfg.Valid() && LiveInv(cfg, s) && Lost(s, task)
    ensures Lost(Take(cfg, s, turn), task) && Take(cfg, s, turn).log[task] == s.log[task]
  {
    hide DoAdvance, Drain, Inv, LiveInv, DoClaim, DoCreate, DoReplay, DoCrash, Lost;
    if Permitted(s, turn.step) {
      match turn.step {
        case Advance(pid, a) =>
          if s.procs[pid].task == task {
            OwnWorkerPasses(cfg, s, pid, a, turn.settling, task);
          } else {
            OthersLeaveItLost(cfg, s, pid, a, turn.settling, task);
          }
        case RequestApproval(pid, other) => RequestsLeaveItLost(cfg, s, pid, other, ToApprove, turn.settling, task);
        case RequestRejection(pid, other, error) => RequestsLeaveItLost(cfg, s, pid, other, ToReject(error), turn.settling, task);
        case ReplayRow(row, other, now) => ReplayLeavesItLost(cfg, s, row, other, now, task);
        case _ => PlainTurnLeavesItLost(cfg, s, turn.step, task);
      }
    }
  }

  lemma {:induction false} LostAlong(cfg: Config, s: Sys, turns: seq<Turn>, task: TaskId)
    requires cfg.Valid() && LiveInv(cfg, s) && Lost(s, task)
    ensures Lost(Continue(cfg, s, turns), task) && Continue(cfg, s, turns).log[task] == s.log[task]
    decreases |turns|
  {
    hide Take, LiveInv, Lost;
    if turns != [] {
      TurnLeavesItLost(cfg, s, turns[0], task);
      TakeKeepsLive(cfg, s, turns[0]);
      LostAlong(cfg, Take(cfg, s, turns[0]), turns[1..], task);
    }
  }

  /** A waiting workflow without an undecided approval row never makes another checkpoint. */
  lemma LostForever(cfg: Config, turns: seq<Turn>, s: Sys, more: seq<Turn>, r: Sys, task: TaskId)
    requires cfg.Valid() && PlayedBy(cfg, turns, s) && PlayedBy(cfg, turns + more, r) && Lost(s, task)
    ensures Lost(r, task) && r.log[task] == s.log[task]
  {
    hide Play, LiveInv, Lost, PlayedBy;
    PlayedIsPlay(cfg, turns, s);
    PlayedIsPlay(cfg, turns + more, r);
    PlayKeepsLive(cfg, turns);
    LostAlong(cfg, s, more, task);
    ContinueIsPlay(cfg, turns, more);
  }

  /** This happens: a crash between the waiting checkpoint and its approval row. */
  lemma CrashBeforeTheRowStrands(cfg: Config, turns: seq<Turn>, s: Sys, pid: nat)
    requires cfg.Valid() && PlayedBy(cfg, turns, s) && WorkerLives(s, pid) && s.procs[pid].pc.PuttingApproval?
    requires (s.procs[pid].task, s.procs[pid].pc.action) !in s.world.approvals
    ensures Lost(DoCrash(cfg, s, pid), s.procs[pid].task)
  {
    hide Inv, LiveInv, InProcess, RowHeld, Gated, LostByCrash, PlayedBy, Play;
    PlayedIsPlay(cfg, turns, s);
    PlayKeepsLive(cfg, turns);
    PuttingMeansWaiting(cfg, s, pid);
    AloneOnTask(cfg, s, pid);
  }

  lemma AloneOnTask(cfg: Config, s: Sys, pid: nat)
    requires cfg.Valid() && LiveInv(cfg, s) && WorkerLives(s, pid)
    ensures forall i | i in s.procs && s.procs[i].Live() && s.procs[i].task == s.procs[pid].task :: i == pid
  {
    hide LiveInv;
    forall i | i in s.procs && s.procs[i].Live() && s.procs[i].task == s.procs[pid].task ensures i == pid {
      OneWorkerPerTask(cfg, s, i, pid);
    }
  }

  lemma PuttingMeansWaiting(cfg: Config, s: Sys, pid: nat)
    requires cfg.Valid() && LiveInv(cfg, s) && WorkerLives(s, pid) && s.procs[pid].pc.PuttingApproval?
    ensures var task := s.procs[pid].task;
            && task in s.log && s.log[task] != []
            && Last(s, task).state.status.WaitingForApproval?
            && Last(s, task).state.pendingAction.Some?
            && Last(s, task).state.pendingAction.value.actionId == s.procs[pid].pc.action
  {
    hide Inv, LiveInv, InProcess, RowHeld, Gated, Apply;
    WorkerIsOk(cfg, s, pid);
    BaseIsLast(cfg, s, pid);
    LiveInvHasInv(cfg, s);
    var task := s.procs[pid].task;
    LogIsOk(cfg, s, task);
    WaitShowsAction(cfg, task, s.log[task]);
  }

  lemma WaitShowsAction(cfg: Config, task: TaskId, log: seq<Commit>)
    requires cfg.Valid() && ValidLog(cfg, task, log) && log[|log| - 1].move.Wait?
    ensures log[|log| - 1].state.pendingAction == Some(log[|log| - 1].move.action)
  {
    hide Follows;
    assert LinkedAt(cfg, log, |log| - 1);
  }

  /** And so does a second request of an action that was decided before. */
  lemma DecidedActionStrands(cfg: Config, turns: seq<Turn>, s: Sys, pid: nat, a: Answer)
    requires cfg.Valid() && PlayedBy(cfg, turns, s) && WorkerLives(s, pid) && s.procs[pid].pc.PuttingApproval?
    requires (s.procs[pid].task, s.procs[pid].pc.action) in s.world.approvals
    requires !s.world.approvals[(s.procs[pid].task, s.procs[pid].pc.action)].Undecided?
    ensures Lost(s, s.procs[pid].task) && Lost(DoAdvance(cfg, s, pid, a), s.procs[pid].task)
  {
    hide Inv, LiveInv, StepProc, PlayedBy, Play;
    PlayedIsPlay(cfg, turns, s);
    PlayKeepsLive(cfg, turns);
    PuttingMeansWaiting(cfg, s, pid);
    AloneOnTask(cfg, s, pid);
    OnPut(cfg, s.world, s.procs[pid], a);
  }

  // ----- (H2) an approval is not one step -----

  /** The state after a verdict whose checkpoint was never saved. */
  function CutVerdict(s: Sys, pid: nat, task: TaskId, action: ActionId): Sys {
    s.(world := s.world.(approvals := s.world.approvals[(task, action) := Approved]),
       procs := s.procs[pid := Proc(task, None,
                                    if task in s.world.workflows then Some(s.world.workflows[task].state) else None, Halted)])
  }

  /** The approval, up to its verdict, and the crash before its save. */
  lemma VerdictIsCut(cfg: Config, s: Sys, pid: nat, task: TaskId, a: Answer)
    requires cfg.Valid() && MayResolve(s.world, task) && pid !in s.procs
    ensures var requested := DoRequest(s, pid, task, ToApprove);
            var resolved := DoAdvance(cfg, DoAdvance(cfg, requested, pid, a), pid, a);
            DoCrash(cfg, resolved, pid)
            == CutVerdict(s, pid, task, s.world.workflows[task].state.pendingAction.value.actionId)
  {
    hide DoAdvance;
    var requested := DoRequest(s, pid, task, ToApprove);
    RequestLoads(cfg, requested, pid, a, task, ToApprove);
    var loaded := DoAdvance(cfg, requested, pid, a);
    ResolveAdvances(cfg, loaded, pid, a);
    var resolved := DoAdvance(cfg, loaded, pid, a);
    assert resolved.seen + multiset{} == s.seen;
  }

  /**
   A crash of an approval between its verdict and its save: the workflow waits, its row is approved, no other
   verdict is accepted, and no disciplined continuation makes another checkpoint.
   */
  lemma CutVerdictStrands(cfg: Config, turns: seq<Turn>, s: Sys, pid: nat, task: TaskId, more: seq<Turn>)
    requires cfg.Valid() && PlayedBy(cfg, turns, s) && MayResolve(s.world, task) && pid !in s.procs
    requires forall i | i in s.procs && s.procs[i].task == task :: !s.procs[i].Live()
    ensures var action := s.world.workflows[task].state.pendingAction.value.actionId;
            var r := CutVerdict(s, pid, task, action);
            && IsApproved(r.world, task, action) && !MayResolve(r.world, task)
            && Lost(Continue(cfg, r, more), task) && task in s.log && Continue(cfg, r, more).log[task] == s.log[task]
  {
    hide Play, PlayedBy, Inv, LiveInv, LogOk;
    PlayedIsPlay(cfg, turns, s);
    PlayKeepsLive(cfg, turns);
    LiveInvHasInv(cfg, s);
    StoredIsLast(cfg, s, task);
    var r := CutVerdict(s, pid, task, s.world.workflows[task].state.pendingAction.value.actionId);
    CutVerdictIsLive(cfg, s, r, pid, task);
    LostAlong(cfg, r, more, task);
  }

  lemma CutVerdictKeepsInv(cfg: Config, s: Sys, r: Sys, pid: nat, task: TaskId)
    requires cfg.Valid() && Inv(cfg, s) && MayResolve(s.world, task) && pid !in s.procs
    requires r == CutVerdict(s, pid, task, s.world.workflows[task].state.pendingAction.value.actionId)
    ensures Inv(cfg, r)
  {
    hide ValidLog, Follows, MayExecute, WellFormed;
    LogIsOk(cfg, s, task);
    LogWellFormed(cfg, task, s.log[task], |s.log[task]| - 1);
    Assemble(cfg, s, r);
  }

  lemma CutVerdictIsLive(cfg: Config, s: Sys, r: Sys, pid: nat, task: TaskId)
    requires cfg.Valid() && LiveInv(cfg, s) && MayResolve(s.world, task) && pid !in s.procs
    requires r == CutVerdict(s, pid, task, s.world.workflows[task].state.pendingAction.value.actionId)
    ensures LiveInv(cfg, r)
  {
    hide Inv, RowsFit, InProcess, ReplaysOfDeadLetters, HasLive, RowHeld, PendingApproved;
    CutVerdictKeepsInv(cfg, s, r, pid, task);
    forall t | t in r.log ensures TaskOk(r.world, t) {
      if t in r.world.workflows {
        assert TaskOk(s.world, t);
        PendingApprovedStable(s.world, r.world, r.world.workflows[t].state);
      }
    }
  }
}
