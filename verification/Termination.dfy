/** Every workflow settles a bounded number of deliveries, whatever the engine and the backend answer. */
module Termination {
  import opened Models
  import opened Policy
  import opened Tools
  import opened Tables
  import opened QueueShape
  import opened Checkpoints
  import opened CheckpointFacts
  import opened LoopDetector
  import opened Histories
  import opened Machine
  import opened System
  import opened Refinement
  import opened Discipline
  import opened LiveRows
  import opened LiveTurns
  import opened LiveRuns

  // ----- how many queue rows a workflow can earn -----

  ghost function Approvals(log: seq<Commit>): nat {
    if log == [] then 0
    else Approvals(log[..|log| - 1]) + (if log[|log| - 1].move.Approve? then 1 else 0)
  }

  ghost function Replays(log: seq<Commit>): nat {
    if log == [] then 0
    else Replays(log[..|log| - 1]) + (if log[|log| - 1].move.Replay? then 1 else 0)
  }

  /** A fresh allowance of attempts comes with creation, a finished tool, an approval and a replay. */
  ghost function Credits(log: seq<Commit>): nat
    requires log != []
  {
    1 + log[|log| - 1].state.toolCalls + Approvals(log) + Replays(log)
  }

  function Unspent(s: WorkflowState): nat {
    if s.pendingAction.Some? && !s.status.WaitingForApproval? then 1 else 0
  }

  lemma ApprovalStep(cfg: Config, task: TaskId, c: Commit, m: Move)
    requires cfg.Valid() && WellFormed(cfg, task, c) && Follows(cfg, c, m)
    ensures var after := Apply(cfg, c.state, m);
            c.state.toolCalls + Unspent(c.state) + (if m.Approve? then 1 else 0) <= after.toolCalls + Unspent(after)
  {
    hide RequestReason, ValidatedRequest, GatedAction, MayExecuteTool, PendingFor;
  }

  /** Every approval is paid for by a tool call, except the one still to be resumed. */
  lemma {:induction false} ApprovalsArePaidFor(cfg: Config, task: TaskId, log: seq<Commit>)
    requires cfg.Valid() && ValidLog(cfg, task, log)
    ensures Approvals(log) <= log[|log| - 1].state.toolCalls + Unspent(log[|log| - 1].state)
  {
    hide Follows, Effect, WellFormed;
    var n := |log| - 1;
    if n == 0 {
      assert log[..0] == [];
    } else {
      ValidLogPrefix(cfg, task, log, n);
      ApprovalsArePaidFor(cfg, task, log[..n]);
      LogWellFormed(cfg, task, log, n - 1);
      assert LinkedAt(cfg, log, n);
      ApprovalStep(cfg, task, log[n - 1], log[n].move);
    }
  }

  lemma StopStep(cfg: Config, task: TaskId, c: Commit, m: Move)
    requires cfg.Valid() && WellFormed(cfg, task, c) && Follows(cfg, c, m) && !m.Replay?
    requires Apply(cfg, c.state, m).status.LoopStopped?
    ensures !c.state.status.LoopStopped? && Unspent(Apply(cfg, c.state, m)) == 0
    ensures |Apply(cfg, c.state, m).toolHistory| == |c.state.toolHistory| + 1
  {
    hide RequestReason, ValidatedRequest, MayExecuteTool, GatedAction, PendingFor;
  }

  lemma LoopStopIsLast(cfg: Config, task: TaskId, log: seq<Commit>)
    requires cfg.Valid() && cfg.maxToolCalls >= 1 && ValidLog(cfg, task, log) && LoopStopsAreFinal(log)
    requires log[|log| - 1].state.status.LoopStopped?
    ensures |log[|log| - 1].state.toolHistory| <= cfg.maxToolCalls && Unspent(log[|log| - 1].state) == 0
  {
    hide Follows, Apply, WellFormed, PowerFree, Unspent;
    var n := |log| - 1;
    assert LinkedAt(cfg, log, n);
    assert !ReplayOf(log, n, LoopStopped);
    LogWellFormed(cfg, task, log, n - 1);
    if log[n].move.Replay? {
      ReplayQueues(cfg, log[n - 1].state);
    } else {
      StopStep(cfg, task, log[n - 1], log[n].move);
      AcceptedHistoriesArePowerFree(cfg, task, log, n - 1);
    }
  }

  lemma ReplayQueues(cfg: Config, s: WorkflowState)
    requires cfg.Valid()
    ensures Apply(cfg, s, Replay).status.Queued?
  {
  }

  /** The tool-call budget bounds the credits. */
  lemma CreditsAreBounded(cfg: Config, task: TaskId, log: seq<Commit>)
    requires cfg.Valid() && cfg.maxToolCalls >= 1 && ValidLog(cfg, task, log) && LoopStopsAreFinal(log)
    ensures Credits(log) <= 2 * cfg.maxToolCalls - 1 + Replays(log)
  {
    hide LinkedAt, PowerFree;
    var n := |log| - 1;
    ApprovalsArePaidFor(cfg, task, log);
    LogBookkept(cfg, task, log, n);
    if log[n].state.status.LoopStopped? {
      LoopStopIsLast(cfg, task, log);
    } else {
      AcceptedHistoriesArePowerFree(cfg, task, log, n);
    }
  }

  /** What one more checkpoint adds. */
  lemma CreditsGrow(cfg: Config, log: seq<Commit>, m: Move)
    requires cfg.Valid() && log != []
    ensures var longer := log + [Commit(m, Apply(cfg, log[|log| - 1].state, m))];
            Credits(longer) == Credits(log) + (if m.FinishTool? || m.Approve? || m.Replay? then 1 else 0)
  {
    var c := Commit(m, Apply(cfg, log[|log| - 1].state, m));
    assert (log + [c])[..|log + [c]| - 1] == log;
  }

  // ----- what a live row may still cost -----

  /** Settled deliveries a live row can still bring. */
  function Allowance(cfg: Config, row: QueueRow): nat {
    var left := cfg.maxQueueAttempts - row.attempts + (if row.status.Processing? then 1 else 0);
    if left > 1 then left else 1
  }

  ghost function Funds(cfg: Config, log: seq<Commit>): nat
    requires log != []
  {
    cfg.maxQueueAttempts * Credits(log)
  }

  lemma FundsGrow(cfg: Config, log: seq<Commit>, m: Move)
    requires cfg.Valid() && log != []
    ensures var longer := log + [Commit(m, Apply(cfg, log[|log| - 1].state, m))];
            Funds(cfg, longer) == Funds(cfg, log) + (if m.FinishTool? || m.Approve? || m.Replay? then cfg.maxQueueAttempts else 0)
  {
    CreditsGrow(cfg, log, m);
    var longer := log + [Commit(m, Apply(cfg, log[|log| - 1].state, m))];
    assert cfg.maxQueueAttempts * (Credits(log) + 1) == cfg.maxQueueAttempts * Credits(log) + cfg.maxQueueAttempts;
  }

  function Spent(s: Sys, task: TaskId): nat {
    s.seen[Settled(task)]
  }

  ghost predicate Affords(cfg: Config, s: Sys, task: TaskId, cost: nat) {
    task in s.log && s.log[task] != [] && Spent(s, task) + cost <= Funds(cfg, s.log[task])
  }

  /** What settling this row, or handing it back, may still cost is covered. */
  ghost predicate RowPaid(cfg: Config, s: Sys, i: nat)
    requires i < |s.world.queue|
  {
    s.world.queue[i].Live() ==> Affords(cfg, s, s.world.queue[i].task, Allowance(cfg, s.world.queue[i]))
  }

  ghost predicate WorkerPaid(cfg: Config, s: Sys, p: Proc) {
    HeadsBack(p.pc) ==>
      && p.delivery.Some? && p.delivery.value.id < |s.world.queue|
      && Affords(cfg, s, p.task, Allowance(cfg, s.world.queue[p.delivery.value.id]) + cfg.maxQueueAttempts)
  }

  ghost predicate Paid(cfg: Config, s: Sys) {
    && (forall task | task in s.log :: Affords(cfg, s, task, 0))
    && (forall i: nat | i < |s.world.queue| :: RowPaid(cfg, s, i))
    && (forall pid | pid in s.procs :: WorkerPaid(cfg, s, s.procs[pid]))
    && (forall task | task !in s.log :: Spent(s, task) == 0)
  }

  lemma RowIsPaid(cfg: Config, s: Sys, i: nat)
    requires Paid(cfg, s) && i < |s.world.queue|
    ensures RowPaid(cfg, s, i)
  {
    hide Affords, WorkerPaid, RowPaid;
  }

  ghost predicate SameLogsAndCosts(s: Sys, r: Sys) {
    r.log == s.log && forall task :: Spent(r, task) == Spent(s, task)
  }

  /** Rows only get cheaper, and no worker newly heads back. */
  lemma CheaperStaysPaid(cfg: Config, s: Sys, r: Sys)
    requires cfg.Valid() && Paid(cfg, s) && SameLogsAndCosts(s, r)
    requires SameShape(s.world.queue, r.world.queue)
    requires forall i: nat | i < |s.world.queue| ::
               s.world.queue[i].Live() ==> Allowance(cfg, r.world.queue[i]) <= Allowance(cfg, s.world.queue[i])
    requires forall pid | pid in r.procs && HeadsBack(r.procs[pid].pc) ::
               && pid in s.procs && r.procs[pid].delivery == s.procs[pid].delivery && r.procs[pid].task == s.procs[pid].task
               && HeadsBack(s.procs[pid].pc) && RowHeld(s.world.queue, s.procs[pid])
    ensures Paid(cfg, r)
  {
    hide Funds, Allowance;
    forall i: nat | i < |r.world.queue| ensures RowPaid(cfg, r, i) {
      RowIsPaid(cfg, s, i);
    }
    forall pid | pid in r.procs ensures WorkerPaid(cfg, r, r.procs[pid]) {
      if HeadsBack(r.procs[pid].pc) {
        assert WorkerPaid(cfg, s, s.procs[pid]);
      }
    }
  }

  lemma HeadsBackStep(cfg: Config, w: World, p: Proc, a: Answer)
    requires cfg.Valid() && !p.pc.Saving? && !Settling(p.pc)
    ensures HeadsBack(StepProc(cfg, w, p, a).1.pc) ==> HeadsBack(p.pc)
  {
    hide Effect, RetryRow, Enqueue, RequestReason, ValidatedRequest, Evaluate, Validate, StructuredResult;
    var next := StepProc(cfg, w, p, a).1.pc;
    if next.Emitting? && !p.pc.Emitting? {
      assert !HeadsBack(next.next);
    }
  }

  lemma QuietSpendsNothing(cfg: Config, s: Sys, pid: nat, a: Answer)
    requires cfg.Valid() && pid in s.procs && !s.procs[pid].pc.Saving? && !Settling(s.procs[pid].pc)
    ensures forall task :: Spent(DoAdvance(cfg, s, pid, a), task) == Spent(s, task)
  {
    hide StepProc, LogAfter;
  }

  lemma QuietStaysPaid(cfg: Config, s: Sys, pid: nat, a: Answer)
    requires cfg.Valid() && LiveInv(cfg, s) && Paid(cfg, s) && WorkerLives(s, pid)
    requires !s.procs[pid].pc.Saving? && !Settling(s.procs[pid].pc)
    ensures Paid(cfg, DoAdvance(cfg, s, pid, a))
  {
    hide DoAdvance, LiveInv, Inv, Paid, Spent, VerdictsKept, InProcess, Allowance;
    QuietStepShape(cfg, s, pid, a);
    QuietSpendsNothing(cfg, s, pid, a);
    var r := DoAdvance(cfg, s, pid, a);
    forall i | i in r.procs && HeadsBack(r.procs[i].pc)
      ensures i in s.procs && r.procs[i].delivery == s.procs[i].delivery && r.procs[i].task == s.procs[i].task
      ensures HeadsBack(s.procs[i].pc) && RowHeld(s.world.queue, s.procs[i])
    {
      HeadedBackBefore(cfg, s, pid, a, i);
    }
    CheaperStaysPaid(cfg, s, r);
  }

  lemma HeadedBackBefore(cfg: Config, s: Sys, pid: nat, a: Answer, i: nat)
    requires cfg.Valid() && LiveInv(cfg, s) && WorkerLives(s, pid) && i in s.procs
    requires !s.procs[pid].pc.Saving? && !Settling(s.procs[pid].pc)
    requires i in DoAdvance(cfg, s, pid, a).procs && HeadsBack(DoAdvance(cfg, s, pid, a).procs[i].pc)
    ensures HeadsBack(s.procs[i].pc) && RowHeld(s.world.queue, s.procs[i])
    ensures DoAdvance(cfg, s, pid, a).procs[i].task == s.procs[i].task
    ensures DoAdvance(cfg, s, pid, a).procs[i].delivery == s.procs[i].delivery
  {
    hide StepProc, LiveInv, Inv, InProcess, LogAfter;
    StepFrame(cfg, s.world, s.procs[pid], a);
    HeadsBackStep(cfg, s.world, s.procs[pid], a);
    assert s.procs[i].Live();
    WorkerIsOk(cfg, s, i);
  }

  // ----- saves -----

  lemma OnlyFinishedToolsHeadBack(cfg: Config, task: TaskId, m: Move)
    requires cfg.Valid()
    ensures HeadsBack(AfterSave(cfg, task, m)) ==> m.FinishTool?
  {
    hide ValidatedRequest, Evaluate, Validate, PendingFor;
    var next := AfterSave(cfg, task, m);
    if next.Emitting? {
      assert HeadsBack(next.next) ==> m.FinishTool?;
    }
  }

  /** One more checkpoint of a task, with the queue and the costs as they were. */
  ghost predicate OneMoreCheckpoint(cfg: Config, s: Sys, r: Sys, task: TaskId, m: Move) {
    && cfg.repeatThreshold > 0 && task in s.log && s.log[task] != []
    && r.log == s.log[task := s.log[task] + [Commit(m, Apply(cfg, Last(s, task).state, m))]]
  }

  lemma AffordsAfterCheckpoint(cfg: Config, s: Sys, r: Sys, task: TaskId, m: Move, t: TaskId, cost: nat)
    requires cfg.Valid() && OneMoreCheckpoint(cfg, s, r, task, m) && Spent(r, t) == Spent(s, t)
    requires Affords(cfg, s, t, cost)
    ensures Affords(cfg, r, t, cost)
    ensures t == task && (m.FinishTool? || m.Approve? || m.Replay?) ==> Affords(cfg, r, t, cost + cfg.maxQueueAttempts)
  {
    hide Funds, Apply;
    FundsGrow(cfg, s.log[task], m);
  }

  lemma CommitIsCheckpoint(cfg: Config, s: Sys, pid: nat, a: Answer)
    requires cfg.Valid() && LiveInv(cfg, s) && pid in s.procs && s.procs[pid].pc.Saving?
    ensures var p := s.procs[pid];
            var r := DoAdvance(cfg, s, pid, a);
            && OneMoreCheckpoint(cfg, s, r, p.task, p.pc.move)
            && Commits(s, r, pid, Commit(p.pc.move, Apply(cfg, Last(s, p.task).state, p.pc.move)))
            && r.procs[pid].pc == AfterSave(cfg, p.task, p.pc.move)
            && r.seen == s.seen
            && RowHeld(s.world.queue, p)
  {
    hide DoAdvance, LiveInv, Inv, Apply, AfterSave, InProcess, WellFormed, PcOk, Gated, PendingApproved;
    WorkerIsOk(cfg, s, pid);
    BaseIsLast(cfg, s, pid);
    LiveInvHasInv(cfg, s);
    CommitHasShape(cfg, s, pid, a);
  }

  lemma SaveStaysPaid(cfg: Config, s: Sys, pid: nat, a: Answer)
    requires cfg.Valid() && LiveInv(cfg, s) && Paid(cfg, s) && WorkerLives(s, pid) && s.procs[pid].pc.Saving?
    ensures Paid(cfg, DoAdvance(cfg, s, pid, a))
  {
    hide DoAdvance, LiveInv, Inv, Affords, Allowance, Apply, AfterSave, HeadsBack;
    CommitIsCheckpoint(cfg, s, pid, a);
    var r := DoAdvance(cfg, s, pid, a);
    var task, m := s.procs[pid].task, s.procs[pid].pc.move;
    OnlyFinishedToolsHeadBack(cfg, task, m);
    forall t | t in r.log ensures Affords(cfg, r, t, 0) {
      AffordsAfterCheckpoint(cfg, s, r, task, m, t, 0);
    }
    forall i: nat | i < |r.world.queue| ensures RowPaid(cfg, r, i) {
      RowIsPaid(cfg, s, i);
      if r.world.queue[i].Live() {
        AffordsAfterCheckpoint(cfg, s, r, task, m, r.world.queue[i].task, Allowance(cfg, r.world.queue[i]));
      }
    }
    forall i | i in r.procs ensures WorkerPaid(cfg, r, r.procs[i]) {
      if HeadsBack(r.procs[i].pc) {
        if i == pid {
          RowIsPaid(cfg, s, s.procs[pid].delivery.value.id);
          AffordsAfterCheckpoint(cfg, s, r, task, m, task, Allowance(cfg, s.world.queue[s.procs[pid].delivery.value.id]));
        } else {
          assert WorkerPaid(cfg, s, s.procs[i]);
          AffordsAfterCheckpoint(cfg, s, r, task, m, s.procs[i].task,
                                 Allowance(cfg, s.world.queue[s.procs[i].delivery.value.id]) + cfg.maxQueueAttempts);
        }
      }
    }
  }

  // ----- settlements -----

  /** Settling costs one, and what is left of the row, or its successor, is cheaper by that much. */
  lemma SettledRowPaid(cfg: Config, s: Sys, r: Sys, pid: nat)
    requires cfg.Valid() && cfg.maxQueueAttempts >= 1 && Paid(cfg, s) && SettlesOne(cfg, s, r, pid)
    requires RowHeld(s.world.queue, s.procs[pid])
    ensures var task := s.procs[pid].task;
            var id := s.procs[pid].delivery.value.id;
            && Affords(cfg, s, task, 1)
            && (r.world.queue[id].Live() ==> Affords(cfg, s, task, 1 + Allowance(cfg, r.world.queue[id])))
            && (|r.world.queue| > |s.world.queue| ==>
                  Affords(cfg, s, task, 1 + Allowance(cfg, r.world.queue[|s.world.queue|])))
  {
    hide Funds, Spent, HeadsBack, SettlesLog;
    RowIsPaid(cfg, s, s.procs[pid].delivery.value.id);
    assert WorkerPaid(cfg, s, s.procs[pid]);
  }

  lemma SettlementLogPays(cfg: Config, s: Sys, r: Sys, task: TaskId, t: TaskId, before: nat, after: nat)
    requires cfg.Valid() && SettlesLog(cfg, s, r, task) && Affords(cfg, s, t, before)
    requires Spent(r, t) + after <= Spent(s, t) + before
    ensures Affords(cfg, r, t, after)
  {
    hide Funds, Spent, Apply;
    if r.log != s.log {
      var m: Move :| EndsBy(cfg, s, r, task, m);
      FundsGrow(cfg, s.log[task], m);
    }
  }

  lemma SettlementStaysPaid(cfg: Config, s: Sys, r: Sys, pid: nat)
    requires cfg.Valid() && cfg.maxQueueAttempts >= 1 && LiveInv(cfg, s) && Paid(cfg, s) && WorkerLives(s, pid)
    requires SettlesOne(cfg, s, r, pid) && r.log.Keys == s.log.Keys
    ensures Paid(cfg, r)
  {
    hide LiveInv, Inv, Affords, Allowance, HeadsBack, SettlesLog, InProcess;
    WorkerIsOk(cfg, s, pid);
    SettledRowPaid(cfg, s, r, pid);
    var task, id := s.procs[pid].task, s.procs[pid].delivery.value.id;
    forall t | t in r.log ensures Affords(cfg, r, t, 0) {
      SettlementLogPays(cfg, s, r, task, t, if t == task then 1 else 0, 0);
    }
    forall i: nat | i < |r.world.queue| ensures RowPaid(cfg, r, i) {
      SettledRowStaysPaid(cfg, s, r, pid, i);
    }
    forall i | i in r.procs ensures WorkerPaid(cfg, r, r.procs[i]) {
      if HeadsBack(r.procs[i].pc) {
        OtherWorkerStaysPaid(cfg, s, r, pid, i);
      }
    }
  }

  lemma HaltedHeadsNowhere(p: Proc)
    requires HeadsBack(p.pc)
    ensures p.Live()
  {
  }

  lemma OtherWorkerStaysPaid(cfg: Config, s: Sys, r: Sys, pid: nat, i: nat)
    requires cfg.Valid() && LiveInv(cfg, s) && Paid(cfg, s) && WorkerLives(s, pid)
    requires SettlesOne(cfg, s, r, pid) && i in r.procs && HeadsBack(r.procs[i].pc)
    ensures WorkerPaid(cfg, r, r.procs[i])
  {
    hide LiveInv, Inv, Affords, Allowance, HeadsBack, SettlesLog, InProcess;
    HaltedHeadsNowhere(r.procs[i]);
    WorkersAreExclusive(cfg, s, i, pid);
    if s.procs[i].task == s.procs[pid].task {
      OneWorkerPerTask(cfg, s, i, pid);
    }
    assert WorkerPaid(cfg, s, s.procs[i]);
    var cost := Allowance(cfg, s.world.queue[s.procs[i].delivery.value.id]) + cfg.maxQueueAttempts;
    SettlementLogPays(cfg, s, r, s.procs[pid].task, s.procs[i].task, cost, cost);
  }

  lemma SettledRowStaysPaid(cfg: Config, s: Sys, r: Sys, pid: nat, i: nat)
    requires cfg.Valid() && cfg.maxQueueAttempts >= 1 && LiveInv(cfg, s) && Paid(cfg, s) && WorkerLives(s, pid)
    requires SettlesOne(cfg, s, r, pid) && i < |r.world.queue|
    ensures RowPaid(cfg, r, i)
  {
    hide LiveInv, Inv, Affords, Allowance, HeadsBack, SettlesLog, InProcess;
    WorkerIsOk(cfg, s, pid);
    SettledRowPaid(cfg, s, r, pid);
    var task, id := s.procs[pid].task, s.procs[pid].delivery.value.id;
    if r.world.queue[i].Live() {
      var cost := Allowance(cfg, r.world.queue[i]);
      if i == id || i == |s.world.queue| {
        SettlementLogPays(cfg, s, r, task, task, 1 + cost, cost);
      } else {
        RowIsPaid(cfg, s, i);
        LiveRowsOfOthers(cfg, s, pid, i);
        SettlementLogPays(cfg, s, r, task, r.world.queue[i].task, cost, cost);
      }
    }
  }

  /** No other live row belongs to the task of a worker. */
  lemma LiveRowsOfOthers(cfg: Config, s: Sys, pid: nat, i: nat)
    requires cfg.Valid() && LiveInv(cfg, s) && WorkerLives(s, pid) && i < |s.world.queue| && s.world.queue[i].Live()
    requires RowHeld(s.world.queue, s.procs[pid]) && i != s.procs[pid].delivery.value.id
    ensures s.world.queue[i].task != s.procs[pid].task
  {
    hide LiveInv, Inv, InProcess, PendingApproved;
    HeldRowIsLive(cfg, s, pid);
    assert LiveAt(s.world.queue, i, s.world.queue[i].task);
    assert LiveAt(s.world.queue, s.procs[pid].delivery.value.id, s.procs[pid].task);
  }

  // ----- requests, claims, creation, replay -----

  lemma RequestedRowPaid(cfg: Config, s: Sys, r: Sys, pid: nat, task: TaskId, purpose: Purpose, now: real, i: nat)
    requires cfg.Valid() && cfg.maxQueueAttempts >= 1 && Paid(cfg, s)
    requires Resolved(cfg, s, r, pid, task, purpose, now) && RequestPurpose(purpose) && i < |r.world.queue|
    requires s.world.workflows[task].state == Last(s, task).state
    ensures RowPaid(cfg, r, i)
  {
    hide Affords, Apply, WorkerPaid, HasLive;
    assert Affords(cfg, s, task, 0);
    var m := RequestMove(purpose);
    AffordsAfterCheckpoint(cfg, s, r, task, m, task, 0);
    if i < |s.world.queue| {
      RowIsPaid(cfg, s, i);
      AffordsAfterRow(cfg, s, r, task, m, i);
    }
  }

  lemma AffordsAfterRow(cfg: Config, s: Sys, r: Sys, task: TaskId, m: Move, i: nat)
    requires cfg.Valid() && OneMoreCheckpoint(cfg, s, r, task, m) && r.seen == s.seen && i < |s.world.queue|
    requires RowPaid(cfg, s, i)
    ensures s.world.queue[i].Live() ==> Affords(cfg, r, s.world.queue[i].task, Allowance(cfg, s.world.queue[i]))
  {
    hide Affords, Apply, Allowance;
    if s.world.queue[i].Live() {
      AffordsAfterCheckpoint(cfg, s, r, task, m, s.world.queue[i].task, Allowance(cfg, s.world.queue[i]));
    }
  }

  lemma WorkersAfterCheckpoint(cfg: Config, s: Sys, r: Sys, task: TaskId, m: Move, p: Proc)
    requires cfg.Valid() && OneMoreCheckpoint(cfg, s, r, task, m) && r.seen == s.seen && WorkerPaid(cfg, s, p)
    requires p.delivery.Some? && p.delivery.value.id < |s.world.queue| ==>
               p.delivery.value.id < |r.world.queue| && r.world.queue[p.delivery.value.id] == s.world.queue[p.delivery.value.id]
    ensures WorkerPaid(cfg, r, p)
  {
    hide Affords, Apply, Allowance, HeadsBack;
    if HeadsBack(p.pc) {
      AffordsAfterCheckpoint(cfg, s, r, task, m, p.task, Allowance(cfg, s.world.queue[p.delivery.value.id]) + cfg.maxQueueAttempts);
    }
  }

  lemma ResolvedStaysPaid(cfg: Config, s: Sys, r: Sys, pid: nat, task: TaskId, purpose: Purpose, now: real)
    requires cfg.Valid() && cfg.maxQueueAttempts >= 1 && Paid(cfg, s) && RequestPurpose(purpose)
    requires Resolved(cfg, s, r, pid, task, purpose, now)
    requires s.world.workflows[task].state == Last(s, task).state
    ensures Paid(cfg, r)
  {
    hide Affords, Allowance, HeadsBack, Apply, RowPaid, WorkerPaid, HasLive;
    var m := RequestMove(purpose);
    forall t | t in r.log ensures Affords(cfg, r, t, 0) {
      AffordsAfterCheckpoint(cfg, s, r, task, m, t, 0);
    }
    forall i: nat | i < |r.world.queue| ensures RowPaid(cfg, r, i) {
      RequestedRowPaid(cfg, s, r, pid, task, purpose, now, i);
    }
    forall i | i in r.procs ensures WorkerPaid(cfg, r, r.procs[i]) {
      if i == pid {
        HaltedIsPaid(cfg, r, r.procs[i]);
      } else {
        WorkersAfterCheckpoint(cfg, s, r, task, m, s.procs[i]);
      }
    }
  }

  lemma HaltedIsPaid(cfg: Config, s: Sys, p: Proc)
    requires !p.Live()
    ensures WorkerPaid(cfg, s, p)
  {
  }

  lemma RequestStaysPaid(cfg: Config, s: Sys, pid: nat, task: TaskId, purpose: Purpose, a: Answer)
    requires cfg.Valid() && cfg.maxQueueAttempts >= 1 && LiveInv(cfg, s) && Paid(cfg, s) && RequestPurpose(purpose)
    requires pid !in s.procs
    ensures Paid(cfg, Drain(cfg, DoRequest(s, pid, task, purpose), pid, a, SETTLEMENT_STEPS))
  {
    hide Drain, Inv, LiveInv, LoadedOn, Resolved, Paid;
    LiveInvHasInv(cfg, s);
    RequestKeepsInv(cfg, s, pid, task, purpose);
    var t := DoRequest(s, pid, task, purpose);
    LoadingIsPaid(cfg, s, t, pid);
    if MayResolve(s.world, task) {
      StoredIsLast(cfg, s, task);
      RequestResolves(cfg, t, pid, a, task, purpose);
      ResolvedStaysPaid(cfg, t, Drain(cfg, t, pid, a, SETTLEMENT_STEPS), pid, task, purpose, a.now);
    } else {
      RequestRefused(cfg, t, pid, a, task, purpose);
      LoadingIsPaid(cfg, s, Drain(cfg, t, pid, a, SETTLEMENT_STEPS), pid);
    }
  }

  /** A process that heads nowhere costs nothing. */
  lemma LoadingIsPaid(cfg: Config, s: Sys, t: Sys, pid: nat)
    requires cfg.Valid() && Paid(cfg, s) && pid in t.procs && !HeadsBack(t.procs[pid].pc)
    requires t == s.(procs := s.procs[pid := t.procs[pid]])
    ensures Paid(cfg, t)
  {
    hide Funds, Allowance, HeadsBack;
    forall i: nat | i < |t.world.queue| ensures RowPaid(cfg, t, i) {
      RowIsPaid(cfg, s, i);
    }
  }

  lemma ClaimsAreCheaper(cfg: Config, w: World, worker: string, now: real)
    requires RowsOk(cfg, w)
    ensures var v := Claim(w, worker, cfg.leaseSeconds, now).0;
            && SameShape(w.queue, v.queue)
            && forall i | 0 <= i < |w.queue| :: Allowance(cfg, v.queue[i]) <= Allowance(cfg, w.queue[i])
  {
  }

  lemma ClaimStaysPaid(cfg: Config, s: Sys, pid: nat, worker: string, now: real)
    requires cfg.Valid() && LiveInv(cfg, s) && Paid(cfg, s) && pid !in s.procs
    ensures Paid(cfg, DoClaim(cfg, s, pid, worker, now))
  {
    hide LiveInv, Inv, Paid, Funds, Claim, InProcess, SameShape, Allowance;
    RowsAreOk(cfg, s);
    ClaimsAreCheaper(cfg, s.world, worker, now);
    var r := DoClaim(cfg, s, pid, worker, now);
    HeadedWorkersHold(cfg, s);
    CheaperStaysPaid(cfg, s, r);
  }

  lemma HeadedWorkersHold(cfg: Config, s: Sys)
    requires cfg.Valid() && LiveInv(cfg, s)
    ensures forall i | i in s.procs && HeadsBack(s.procs[i].pc) :: RowHeld(s.world.queue, s.procs[i])
  {
    hide LiveInv, Inv, InProcess, RowHeld;
    forall i | i in s.procs && HeadsBack(s.procs[i].pc) ensures RowHeld(s.world.queue, s.procs[i]) {
      HaltedHeadsNowhere(s.procs[i]);
      WorkerIsOk(cfg, s, i);
    }
  }

  lemma CrashStaysPaid(cfg: Config, s: Sys, pid: nat)
    requires cfg.Valid() && LiveInv(cfg, s) && Paid(cfg, s)
    ensures Paid(cfg, DoCrash(cfg, s, pid))
  {
    hide LiveInv, Inv, Paid, RowHeld;
    HeadedWorkersHold(cfg, s);
    CheaperStaysPaid(cfg, s, DoCrash(cfg, s, pid));
  }

  /** Heartbeats move leases, not attempts. */
  lemma HeartbeatStaysPaid(cfg: Config, s: Sys, step: Step)
    requires cfg.Valid() && LiveInv(cfg, s) && Paid(cfg, s) && (step.Heartbeat? || step.NoteHeartbeat?)
    ensures Paid(cfg, Do(cfg, s, step))
  {
    hide LiveInv, Inv, Paid, RowHeld, DoAdvance, DoCreate, DoReplay;
    HeadedWorkersHold(cfg, s);
    CheaperStaysPaid(cfg, s, Do(cfg, s, step));
  }

  lemma CreateStaysPaid(cfg: Config, s: Sys, task: TaskId, goal: string, scenario: string, now: real)
    requires cfg.Valid() && cfg.maxQueueAttempts >= 1 && LiveInv(cfg, s) && Paid(cfg, s)
    ensures Paid(cfg, DoCreate(cfg, s, task, goal, scenario, now))
  {
    hide Inv, LiveInv, HeadsBack, Allowance;
    LiveInvHasInv(cfg, s);
    LogIsOk(cfg, s, task);
    var r := DoCreate(cfg, s, task, goal, scenario, now);
    if task !in s.log {
      FirstCredit(cfg, r.log[task]);
      forall i: nat | i < |r.world.queue| ensures RowPaid(cfg, r, i) {
        if i < |s.world.queue| {
          RowIsPaid(cfg, s, i);
        } else {
          NewRowAllowance(cfg, r.world.queue[i]);
        }
      }
      forall i | i in r.procs ensures WorkerPaid(cfg, r, r.procs[i]) {
        assert WorkerPaid(cfg, s, s.procs[i]);
      }
    }
  }

  lemma NewRowAllowance(cfg: Config, row: QueueRow)
    requires row.status.Pending? && row.attempts == 0 && cfg.maxQueueAttempts >= 1
    ensures Allowance(cfg, row) == cfg.maxQueueAttempts
  {
  }

  lemma FirstCredit(cfg: Config, log: seq<Commit>)
    requires |log| == 1 && log[0].move.Create? && log[0].state.toolCalls == 0
    ensures Funds(cfg, log) == cfg.maxQueueAttempts
  {
    assert log[..0] == [];
    assert Approvals(log[..0]) == 0 && Replays(log[..0]) == 0;
    assert Credits(log) == 1;
  }

  lemma ReplayStaysPaid(cfg: Config, s: Sys, row: nat, task: TaskId, now: real)
    requires cfg.Valid() && cfg.maxQueueAttempts >= 1 && LiveInv(cfg, s) && Paid(cfg, s)
    requires Replayable(s.world, row, task)
    ensures Paid(cfg, DoReplay(cfg, s, row, task, now))
  {
    hide DoReplay, Inv, LiveInv, HeadsBack, Affords, Apply, Allowance, WorkerPaid, ValidLog, Linked;
    LiveInvHasInv(cfg, s);
    ReplayEffect(cfg, s, row, task, now);
    ReplayedQueue(cfg, s, row, task, now);
    ReplaySpendsNothing(cfg, s, row, task, now);
    var r := DoReplay(cfg, s, row, task, now);
    NewRowAllowance(cfg, ReplayedRow(cfg, task, now));
    forall t | t in r.log ensures Affords(cfg, r, t, 0) {
      AffordsAfterCheckpoint(cfg, s, r, task, Replay, t, 0);
    }
    AffordsAfterCheckpoint(cfg, s, r, task, Replay, task, 0);
    forall i: nat | i < |r.world.queue| ensures RowPaid(cfg, r, i) {
      RowIsPaid(cfg, s, i);
      AffordsAfterRow(cfg, s, r, task, Replay, i);
    }
    forall i | i in r.procs ensures WorkerPaid(cfg, r, r.procs[i]) {
      ReplayedWorkerPaid(cfg, s, r, row, task, i);
    }
  }

  lemma ReplaySpendsNothing(cfg: Config, s: Sys, row: nat, task: TaskId, now: real)
    requires cfg.Valid()
    ensures DoReplay(cfg, s, row, task, now).seen == s.seen
  {
    hide Apply;
  }

  lemma ReplayedWorkerPaid(cfg: Config, s: Sys, r: Sys, row: nat, task: TaskId, i: nat)
    requires cfg.Valid() && LiveInv(cfg, s) && Paid(cfg, s) && Replayable(s.world, row, task) && i in s.procs
    requires r.seen == s.seen && OneMoreCheckpoint(cfg, s, r, task, Replay)
    requires OneRowTouched(s.world.queue, r.world.queue, row)
    ensures WorkerPaid(cfg, r, s.procs[i])
  {
    hide LiveInv, Inv, Affords, Allowance, HeadsBack, InProcess, Apply;
    WorkerIsOk(cfg, s, i);
    assert WorkerPaid(cfg, s, s.procs[i]);
    if HeadsBack(s.procs[i].pc) {
      HaltedHeadsNowhere(s.procs[i]);
      AffordsAfterCheckpoint(cfg, s, r, task, Replay, s.procs[i].task,
                             Allowance(cfg, s.world.queue[s.procs[i].delivery.value.id]) + cfg.maxQueueAttempts);
    }
  }

  // ----- whole runs -----

  lemma AdvanceStaysPaid(cfg: Config, s: Sys, pid: nat, a: Answer, settling: Answer)
    requires cfg.Valid() && cfg.maxQueueAttempts >= 1 && LiveInv(cfg, s) && Paid(cfg, s) && WorkerLives(s, pid)
    ensures Paid(cfg, Take(cfg, s, Turn(Advance(pid, a), settling)))
  {
    hide DoAdvance, Drain, Inv, LiveInv, Do, Paid, SettlesOne;
    if Settling(s.procs[pid].pc) {
      EverySettlement(cfg, s, pid, a);
      SettlementKeepsKeys(cfg, s, Drain(cfg, s, pid, a, SETTLEMENT_STEPS), pid);
      SettlementStaysPaid(cfg, s, Drain(cfg, s, pid, a, SETTLEMENT_STEPS), pid);
    } else if s.procs[pid].pc.Saving? {
      SaveStaysPaid(cfg, s, pid, a);
    } else {
      QuietStaysPaid(cfg, s, pid, a);
    }
  }

  lemma SettlementKeepsKeys(cfg: Config, s: Sys, r: Sys, pid: nat)
    requires SettlesOne(cfg, s, r, pid)
    ensures r.log.Keys == s.log.Keys
  {
    hide Apply, HeadsBack;
  }

  lemma TakeStaysPaid(cfg: Config, s: Sys, turn: Turn)
    requires cfg.Valid() && cfg.maxQueueAttempts >= 1 && LiveInv(cfg, s) && Paid(cfg, s)
    ensures Paid(cfg, Take(cfg, s, turn))
  {
    hide DoAdvance, Drain, Inv, LiveInv, DoClaim, DoCreate, DoReplay, DoCrash, Paid;
    if Permitted(s, turn.step) {
      match turn.step {
        case CreateIncident(task, goal, scenario, now) => CreateStaysPaid(cfg, s, task, goal, scenario, now);
        case Advance(pid, answer) => AdvanceStaysPaid(cfg, s, pid, answer, turn.settling);
        case RequestApproval(pid, task) => RequestStaysPaid(cfg, s, pid, task, ToApprove, turn.settling);
        case RequestRejection(pid, task, error) => RequestStaysPaid(cfg, s, pid, task, ToReject(error), turn.settling);
        case ReplayRow(row, task, now) =>
          if Replayable(s.world, row, task) {
            ReplayStaysPaid(cfg, s, row, task, now);
          } else {
            NoReplay(cfg, s, row, task, now);
          }
        case ClaimNext(pid, worker, now) => ClaimStaysPaid(cfg, s, pid, worker, now);
        case Crash(pid) => CrashStaysPaid(cfg, s, pid);
        case Heartbeat(_, _) => HeartbeatStaysPaid(cfg, s, turn.step);
        case NoteHeartbeat(_) => HeartbeatStaysPaid(cfg, s, turn.step);
      }
    }
  }

  lemma {:induction false} PlayStaysPaid(cfg: Config, turns: seq<Turn>)
    requires cfg.Valid() && cfg.maxQueueAttempts >= 1
    ensures Paid(cfg, Play(cfg, turns))
  {
    hide Take, LiveInv;
    if turns != [] {
      var before := turns[..|turns| - 1];
      PlayStaysPaid(cfg, before);
      PlayKeepsLive(cfg, before);
      TakeStaysPaid(cfg, Play(cfg, before), turns[|turns| - 1]);
    }
  }

  lemma FundsAreBounded(cfg: Config, s: Sys, task: TaskId)
    requires cfg.Valid() && cfg.maxToolCalls >= 1 && LiveInv(cfg, s) && task in s.log
    ensures s.log[task] != []
    ensures Funds(cfg, s.log[task]) <= (2 * cfg.maxToolCalls - 1 + Replays(s.log[task])) * cfg.maxQueueAttempts
  {
    hide Inv, LiveInv, Replays, Approvals, ReplayFits;
    LiveInvHasInv(cfg, s);
    LogIsOk(cfg, s, task);
    ReplaysAreOk(cfg, s, task);
    DeadLetterReplaysOnly(s.log[task]);
    CreditsAreBounded(cfg, task, s.log[task]);
    ProductGrows(cfg.maxQueueAttempts, Credits(s.log[task]), 2 * cfg.maxToolCalls - 1 + Replays(s.log[task]));
  }

  /**
   The termination bound. Whatever the engine and the backend answer, and wherever workers crash, a
   workflow replayed R times settles at most (2 * maxToolCalls - 1 + R) * maxQueueAttempts deliveries.
   */
  lemma DeliveriesAreBounded(cfg: Config, turns: seq<Turn>, s: Sys, task: TaskId)
    requires cfg.Valid() && cfg.maxQueueAttempts >= 1 && cfg.maxToolCalls >= 1
    requires PlayedBy(cfg, turns, s) && task in s.log
    ensures s.seen[Settled(task)] <= (2 * cfg.maxToolCalls - 1 + Replays(s.log[task])) * cfg.maxQueueAttempts
  {
    hide Play, Inv, LiveInv, Replays, PlayedBy, Funds;
    PlayedIsPlay(cfg, turns, s);
    PlayStaysPaid(cfg, turns);
    PlayKeepsLive(cfg, turns);
    FundsAreBounded(cfg, s, task);
    assert Affords(cfg, s, task, 0);
  }

  lemma ProductGrows(a: nat, c: nat, d: nat)
    requires c <= d
    ensures a * c <= d * a
  {
  }

  // ----- deliveries that no settlement ends -----

  /** The processes that claimed a row of the task. */
  ghost function ClaimsOf(s: Sys, task: TaskId): set<nat> {
    set pid | pid in s.procs && s.procs[pid].delivery.Some? && s.procs[pid].task == task
  }

  /** Those of them still at work. */
  ghost function AtWork(s: Sys, task: TaskId): set<nat> {
    set pid | pid in ClaimsOf(s, task) && s.procs[pid].Live()
  }

  /** A worker of the task has ended and settled nothing. */
  ghost predicate CutOff(s: Sys, r: Sys, task: TaskId) {
    !(AtWork(s, task) <= AtWork(r, task)) && Spent(r, task) == Spent(s, task)
  }

  /** How often that happens up to turn n. */
  ghost function CutOffs(trace: seq<Sys>, task: TaskId, n: nat): nat
    requires n < |trace|
  {
    if n == 0 then 0 else CutOffs(trace, task, n - 1) + (if CutOff(trace[n - 1], trace[n], task) then 1 else 0)
  }

  /** What a turn does to the claims of a task: nothing, one more, or one that ends, settled or not. */
  ghost predicate Accounts(s: Sys, r: Sys, task: TaskId) {
    |ClaimsOf(r, task)| + Spent(s, task) + |AtWork(s, task)|
    == |ClaimsOf(s, task)| + Spent(r, task) + |AtWork(r, task)| + (if CutOff(s, r, task) then 1 else 0)
  }

  /** The process goes on with its delivery, or ends it. */
  lemma AdvanceAccounts(s: Sys, r: Sys, pid: nat, task: TaskId)
    requires pid in s.procs && pid in r.procs && s.procs[pid].Live() && r.procs == s.procs[pid := r.procs[pid]]
    requires r.procs[pid].task == s.procs[pid].task && r.procs[pid].delivery == s.procs[pid].delivery
    requires Spent(r, task) == Spent(s, task)
             || (Spent(r, task) == Spent(s, task) + 1 && pid in AtWork(s, task) && !r.procs[pid].Live())
    ensures Accounts(s, r, task)
  {
    assert ClaimsOf(r, task) == ClaimsOf(s, task);
    if r.procs[pid].Live() {
      assert AtWork(r, task) == AtWork(s, task);
    } else {
      assert AtWork(r, task) == AtWork(s, task) - {pid};
    }
  }

  lemma SameAccounts(s: Sys, r: Sys, task: TaskId)
    requires ClaimsOf(r, task) == ClaimsOf(s, task) && AtWork(r, task) == AtWork(s, task)
    requires Spent(r, task) == Spent(s, task)
    ensures Accounts(s, r, task)
  {
  }

  lemma SettlementAccounts(cfg: Config, s: Sys, r: Sys, pid: nat, task: TaskId)
    requires SettlesOne(cfg, s, r, pid) && WorkerLives(s, pid)
    ensures Accounts(s, r, task)
  {
    hide SettlesLog, OneRowTouched, HeadsBack;
    AdvanceAccounts(s, r, pid, task);
  }

  lemma QuietSettlesNothing(cfg: Config, s: Sys, pid: nat, a: Answer, task: TaskId)
    requires cfg.Valid() && pid in s.procs && !Settling(s.procs[pid].pc)
    ensures var r := DoAdvance(cfg, s, pid, a);
            && pid in r.procs && r.procs == s.procs[pid := r.procs[pid]] && Spent(r, task) == Spent(s, task)
            && r.procs[pid].task == s.procs[pid].task && r.procs[pid].delivery == s.procs[pid].delivery
  {
    hide StepProc, LogAfter;
    StepFrame(cfg, s.world, s.procs[pid], a);
  }

  lemma ClaimAccounts(cfg: Config, s: Sys, pid: nat, worker: string, now: real, task: TaskId)
    requires pid !in s.procs
    ensures Accounts(s, DoClaim(cfg, s, pid, worker, now), task)
  {
    hide Claim;
    JoinAccounts(s, DoClaim(cfg, s, pid, worker, now), pid, task);
  }

  lemma JoinAccounts(s: Sys, r: Sys, pid: nat, task: TaskId)
    requires pid !in s.procs && r.seen == s.seen
    requires r.procs == s.procs
             || (pid in r.procs && r.procs == s.procs[pid := r.procs[pid]]
                 && r.procs[pid].delivery.Some? && r.procs[pid].Live())
    ensures Accounts(s, r, task)
  {
    hide ClaimsOf, AtWork;
    if pid in r.procs && r.procs[pid].task == task {
      JoinsIn(s, r, pid, task);
    } else {
      StaysOut(s, r, pid, task);
      SameAccounts(s, r, task);
    }
  }

  lemma JoinsIn(s: Sys, r: Sys, pid: nat, task: TaskId)
    requires pid !in s.procs && pid in r.procs && r.procs == s.procs[pid := r.procs[pid]]
    requires r.procs[pid].delivery.Some? && r.procs[pid].Live() && r.procs[pid].task == task
    ensures ClaimsOf(r, task) == ClaimsOf(s, task) + {pid} && AtWork(r, task) == AtWork(s, task) + {pid}
    ensures pid !in ClaimsOf(s, task) && pid !in AtWork(s, task)
  {
  }

  lemma StaysOut(s: Sys, r: Sys, pid: nat, task: TaskId)
    requires pid !in s.procs
    requires r.procs == s.procs
             || (pid in r.procs && r.procs == s.procs[pid := r.procs[pid]] && r.procs[pid].task != task)
    ensures ClaimsOf(r, task) == ClaimsOf(s, task) && AtWork(r, task) == AtWork(s, task)
  {
  }

  lemma RequestAccounts(cfg: Config, s: Sys, pid: nat, other: TaskId, purpose: Purpose, a: Answer, task: TaskId)
    requires cfg.Valid() && LiveInv(cfg, s) && pid !in s.procs && RequestPurpose(purpose)
    ensures Accounts(s, Drain(cfg, DoRequest(s, pid, other, purpose), pid, a, SETTLEMENT_STEPS), task)
  {
    hide Drain, Inv, LiveInv, MayResolve, Apply;
    LiveInvHasInv(cfg, s);
    RequestKeepsInv(cfg, s, pid, other, purpose);
    var t := DoRequest(s, pid, other, purpose);
    if MayResolve(s.world, other) {
      RequestResolves(cfg, t, pid, a, other, purpose);
    } else {
      RequestRefused(cfg, t, pid, a, other, purpose);
    }
    var r := Drain(cfg, t, pid, a, SETTLEMENT_STEPS);
    assert ClaimsOf(r, task) == ClaimsOf(s, task) && AtWork(r, task) == AtWork(s, task);
  }

  lemma CrashAccounts(cfg: Config, s: Sys, pid: nat, task: TaskId)
    requires cfg.Valid() && WorkerLives(s, pid)
    ensures Accounts(s, DoCrash(cfg, s, pid), task)
  {
    AdvanceAccounts(s, DoCrash(cfg, s, pid), pid, task);
  }

  lemma TakeAccounts(cfg: Config, s: Sys, turn: Turn, task: TaskId)
    requires cfg.Valid() && LiveInv(cfg, s)
    ensures Accounts(s, Take(cfg, s, turn), task)
  {
    hide DoAdvance, Drain, Inv, LiveInv, DoClaim, DoReplay, DoCrash, SettlesOne, Accounts, ClaimsOf, AtWork;
    var r := Take(cfg, s, turn);
    if !Permitted(s, turn.step) {
      SameAccounts(s, r, task);
    } else {
      match turn.step {
        case Advance(pid, answer) =>
          if Settling(s.procs[pid].pc) {
            EverySettlement(cfg, s, pid, answer);
            SettlementAccounts(cfg, s, r, pid, task);
          } else {
            QuietSettlesNothing(cfg, s, pid, answer, task);
            AdvanceAccounts(s, r, pid, task);
          }
        case RequestApproval(pid, other) => RequestAccounts(cfg, s, pid, other, ToApprove, turn.settling, task);
        case RequestRejection(pid, other, error) => RequestAccounts(cfg, s, pid, other, ToReject(error), turn.settling, task);
        case ClaimNext(pid, worker, now) => ClaimAccounts(cfg, s, pid, worker, now, task);
        case Crash(pid) => CrashAccounts(cfg, s, pid, task);
        case _ => OtherTurnsAccount(cfg, s, turn, task);
      }
    }
  }

  lemma OtherTurnsAccount(cfg: Config, s: Sys, turn: Turn, task: TaskId)
    requires cfg.Valid()
    requires turn.step.CreateIncident? || turn.step.Heartbeat? || turn.step.NoteHeartbeat? || turn.step.ReplayRow?
    ensures Accounts(s, Take(cfg, s, turn), task)
  {
    hide Apply;
    SameAccounts(s, Take(cfg, s, turn), task);
  }

  /**
   Every claim is accounted for: in every disciplined run the claims of a task are the deliveries it settled, those
   cut off before that, and the one still at work.
   */
  lemma {:induction false} ClaimsAreCounted(cfg: Config, turns: seq<Turn>, trace: seq<Sys>, task: TaskId, n: nat)
    requires cfg.Valid() && IsPlay(cfg, turns, trace) && n <= |turns|
    ensures |ClaimsOf(trace[n], task)|
            == trace[n].seen[Settled(task)] + CutOffs(trace, task, n) + |AtWork(trace[n], task)|
    decreases n
  {
    hide Take, LiveInv, ClaimsOf, AtWork, CutOff;
    if n == 0 {
      NobodyAtFirst(task);
    } else {
      ClaimsAreCounted(cfg, turns, trace, task, n - 1);
      assert TurnAt(cfg, turns, trace, n - 1);
      TraceKeepsLive(cfg, turns, trace, n - 1);
      TakeAccounts(cfg, trace[n - 1], turns[n - 1], task);
    }
  }

  lemma NobodyAtFirst(task: TaskId)
    ensures ClaimsOf(INITIAL, task) == {} && AtWork(INITIAL, task) == {}
  {
  }

  lemma {:induction false} TraceKeepsLive(cfg: Config, turns: seq<Turn>, trace: seq<Sys>, n: nat)
    requires cfg.Valid() && IsPlay(cfg, turns, trace) && n <= |turns|
    ensures LiveInv(cfg, trace[n])
    decreases n
  {
    hide Take, LiveInv;
    if n == 0 {
      PlayKeepsLive(cfg, []);
    } else {
      TraceKeepsLive(cfg, turns, trace, n - 1);
      assert TurnAt(cfg, turns, trace, n - 1);
      TakeKeepsLive(cfg, trace[n - 1], turns[n - 1]);
    }
  }

  lemma OneAtWork(cfg: Config, s: Sys, task: TaskId)
    requires cfg.Valid() && LiveInv(cfg, s) && Paid(cfg, s) && task in s.log
    ensures Affords(cfg, s, task, |AtWork(s, task)|)
  {
    hide LiveInv, Inv, Funds, InProcess;
    if AtWork(s, task) == {} {
      assert Affords(cfg, s, task, 0);
    } else {
      var pid :| pid in AtWork(s, task);
      forall i | i in AtWork(s, task) ensures i == pid {
        OneWorkerPerTask(cfg, s, i, pid);
      }
      assert AtWork(s, task) == {pid};
      WorkerIsOk(cfg, s, pid);
      HeldRowIsLive(cfg, s, pid);
      RowIsPaid(cfg, s, s.procs[pid].delivery.value.id);
    }
  }

  /** So the claims of a task exceed the termination bound at most by the deliveries that were cut off. */
  lemma ClaimsAreBounded(cfg: Config, turns: seq<Turn>, trace: seq<Sys>, task: TaskId)
    requires cfg.Valid() && cfg.maxQueueAttempts >= 1 && cfg.maxToolCalls >= 1
    requires IsPlay(cfg, turns, trace) && task in trace[|turns|].log
    ensures |ClaimsOf(trace[|turns|], task)|
            <= (2 * cfg.maxToolCalls - 1 + Replays(trace[|turns|].log[task])) * cfg.maxQueueAttempts
               + CutOffs(trace, task, |turns|)
  {
    hide Play, TurnAt, Inv, LiveInv, Paid, Replays, Approvals, ReplayFits, ClaimsOf, AtWork, CutOffs, Funds;
    var s := trace[|turns|];
    ClaimsAreCounted(cfg, turns, trace, task, |turns|);
    TraceIsPlay(cfg, turns, trace);
    PlayStaysPaid(cfg, turns);
    PlayKeepsLive(cfg, turns);
    OneAtWork(cfg, s, task);
    FundsAreBounded(cfg, s, task);
  }
}
