/** Every disciplined turn keeps rows, workflows and workers in agreement. */
module LiveTurns {
  import opened Models
  import opened Tables
  import opened QueueShape
  import opened Checkpoints
  import opened CheckpointFacts
  import opened Machine
  import opened System
  import opened Refinement
  import opened Discipline
  import opened Settlement
  import opened LiveRows

  // ----- settlement -----

  predicate OneRowTouched(before: seq<QueueRow>, after: seq<QueueRow>, id: nat) {
    && id < |before| <= |after|
    && forall j | 0 <= j < |before| && j != id :: after[j] == before[j]
  }

  /** Workers on other rows do not notice that one row and its workflow changed. */
  lemma OtherRowsKeepWorking(cfg: Config, s: Sys, r: Sys, pid: nat)
    requires cfg.Valid() && LiveInv(cfg, s) && pid in s.procs && s.procs[pid].Live()
    requires s.procs[pid].delivery.Some?
    requires OneRowTouched(s.world.queue, r.world.queue, s.procs[pid].delivery.value.id)
    requires forall i | i in s.procs && i != pid :: i in r.procs && r.procs[i] == s.procs[i]
    requires forall t | t in s.world.workflows && t != s.procs[pid].task ::
               t in r.world.workflows && r.world.workflows[t] == s.world.workflows[t]
    ensures forall i | i in s.procs && i != pid :: WorkerOk(r.world, r.procs[i])
  {
    hide Inv, LiveInv, InProcess;
    forall i | i in s.procs && i != pid ensures WorkerOk(r.world, r.procs[i]) {
      WorkerIsOk(cfg, s, i);
      if s.procs[i].Live() {
        WorkersAreExclusive(cfg, s, i, pid);
        if s.procs[i].task == s.procs[pid].task {
          OneWorkerPerTask(cfg, s, i, pid);
        }
      }
    }
  }

  lemma WorkersAreExclusive(cfg: Config, s: Sys, i: nat, j: nat)
    requires cfg.Valid() && LiveInv(cfg, s) && i in s.procs && j in s.procs && i != j
    requires s.procs[i].Live() && s.procs[j].Live()
    ensures s.procs[i].delivery.Some? && s.procs[j].delivery.Some?
    ensures s.procs[i].delivery.value.id != s.procs[j].delivery.value.id
  {
    hide Inv, InProcess, RowsOk, TaskOk;
    WorkerIsOk(cfg, s, i);
    WorkerIsOk(cfg, s, j);
  }

  lemma RowsAreOk(cfg: Config, s: Sys)
    requires cfg.Valid() && LiveInv(cfg, s)
    ensures RowsOk(cfg, s.world) && Exclusive(s)
  {
    hide Inv, RowsOk, WorkerOk, TaskOk, Exclusive;
  }

  lemma ReplaysAreOk(cfg: Config, s: Sys, task: TaskId)
    requires cfg.Valid() && LiveInv(cfg, s) && task in s.log
    ensures ReplaysOfDeadLetters(s.log[task])
  {
    hide Inv, RowsOk, WorkerOk, TaskOk, Exclusive, ReplaysOfDeadLetters;
  }

  /** The row a worker holds, and the facts about its task. */
  lemma HeldRow(cfg: Config, s: Sys, pid: nat)
    requires cfg.Valid() && LiveInv(cfg, s) && pid in s.procs && s.procs[pid].Live()
    ensures var p := s.procs[pid];
            && RowHeld(s.world.queue, p)
            && p.delivery.value.maxAttempts == cfg.maxQueueAttempts
            && p.task in s.world.workflows && InProcess(p.pc)
            && p.task in s.log && s.log[p.task] != []
  {
    hide Inv, LiveInv, InProcess;
    WorkerIsOk(cfg, s, pid);
    RowsAreOk(cfg, s);
    LiveInvHasInv(cfg, s);
    LogIsOk(cfg, s, s.procs[pid].task);
  }

  /** What a settlement leaves of the rows, workflows and approvals. */
  ghost predicate SettledTasks(cfg: Config, s: Sys, r: Sys, task: TaskId) {
    && RowsOk(cfg, r.world)
    && TaskOk(r.world, task)
    && r.world.approvals == s.world.approvals
    && (forall t | t in s.world.workflows && t != task :: t in r.world.workflows && r.world.workflows[t] == s.world.workflows[t])
    && (forall t | t in s.world.workflows && t != task ::
          RowsFit(s.world.queue, t, s.world.workflows[t].state.status) ==> RowsFit(r.world.queue, t, s.world.workflows[t].state.status))
  }

  lemma OtherTasksOk(cfg: Config, s: Sys, r: Sys, task: TaskId)
    requires cfg.Valid() && LiveInv(cfg, s) && SettledTasks(cfg, s, r, task) && r.log.Keys == s.log.Keys
    ensures forall t | t in r.log :: TaskOk(r.world, t)
  {
    hide Inv, LiveInv, RowsFit, PendingApproved, RowsOk;
    LiveInvHasInv(cfg, s);
    forall t | t in r.log ensures TaskOk(r.world, t) {
      if t != task {
        LogIsOk(cfg, s, t);
        TaskIsOk(cfg, s, t);
        PendingApprovedSame(s.world, r.world, s.world.workflows[t].state);
      }
    }
  }

  lemma PendingApprovedSame(v: World, w: World, s: WorkflowState)
    requires v.approvals == w.approvals && PendingApproved(v, s)
    ensures PendingApproved(w, s)
  {
  }

  ghost predicate ReplayLogsOk(log: map<TaskId, seq<Commit>>) {
    forall task | task in log :: ReplaysOfDeadLetters(log[task])
  }

  lemma EndedIsExclusive(cfg: Config, s: Sys, r: Sys, pid: nat)
    requires Exclusive(s) && pid in r.procs && !r.procs[pid].Live()
    requires r.procs == s.procs[pid := r.procs[pid]]
    ensures Exclusive(r)
  {
  }

  lemma SettledKeepsLive(cfg: Config, s: Sys, r: Sys, pid: nat)
    requires cfg.Valid() && LiveInv(cfg, s) && Inv(cfg, r) && pid in s.procs && s.procs[pid].Live()
    requires Ends(s, r, pid) && s.procs[pid].delivery.Some? && r.log.Keys == s.log.Keys
    requires OneRowTouched(s.world.queue, r.world.queue, s.procs[pid].delivery.value.id)
    requires SettledTasks(cfg, s, r, s.procs[pid].task)
    requires ReplayLogsOk(r.log)
    ensures LiveInv(cfg, r)
  {
    hide Inv, RowsFit, InProcess, PendingApproved, RowHeld, ReplaysOfDeadLetters, RowsOk, TaskOk, Exclusive;
    OtherRowsKeepWorking(cfg, s, r, pid);
    OtherTasksOk(cfg, s, r, s.procs[pid].task);
    EndedIsExclusive(cfg, s, r, pid);
  }

  lemma ReplayLogsAreOk(cfg: Config, s: Sys)
    requires cfg.Valid() && LiveInv(cfg, s)
    ensures ReplayLogsOk(s.log)
  {
    hide Inv, RowsOk, WorkerOk, TaskOk, Exclusive, ReplaysOfDeadLetters;
  }

  lemma ReplayLogsExtend(log: map<TaskId, seq<Commit>>, task: TaskId, c: Commit)
    requires task in log && log[task] != [] && ReplayLogsOk(log)
    requires c.move.Replay? ==> log[task][|log[task]| - 1].state.status.DeadLettered?
    ensures ReplayLogsOk(log[task := log[task] + [c]])
  {
    hide ReplaysOfDeadLetters;
    assert ReplaysOfDeadLetters(log[task]);
    ReplaysExtend(log[task], c);
  }

  /** The held row changes and nothing is saved. */
  lemma RequeueKeepsTasks(cfg: Config, s: Sys, r: Sys, pid: nat, row: QueueRow)
    requires cfg.Valid() && LiveInv(cfg, s) && pid in s.procs && s.procs[pid].Live()
    requires RowHeld(s.world.queue, s.procs[pid])
    requires var id := s.procs[pid].delivery.value.id;
             && row.task == s.procs[pid].task && row.maxAttempts == s.world.queue[id].maxAttempts
             && r.world.queue == s.world.queue[id := row]
    requires s.procs[pid].task in r.world.workflows
    requires forall t | t in s.world.workflows && t != s.procs[pid].task ::
               t in r.world.workflows && r.world.workflows[t] == s.world.workflows[t]
    requires r.world.approvals == s.world.approvals && TaskOk(r.world, s.procs[pid].task)
    ensures SettledTasks(cfg, s, r, s.procs[pid].task)
    ensures OneRowTouched(s.world.queue, r.world.queue, s.procs[pid].delivery.value.id)
  {
    hide Inv, LiveInv, RowsFit, PendingApproved;
    RowsAreOk(cfg, s);
    var task, id := s.procs[pid].task, s.procs[pid].delivery.value.id;
    forall t | t in s.world.workflows && t != task && RowsFit(s.world.queue, t, s.world.workflows[t].state.status)
      ensures RowsFit(r.world.queue, t, s.world.workflows[t].state.status)
    {
      OtherTaskFits(s.world.queue, id, row, t, s.world.workflows[t].state.status);
    }
  }

  lemma FinishKeepsLive(cfg: Config, s: Sys, pid: nat, a: Answer)
    requires cfg.Valid() && LiveInv(cfg, s) && pid in s.procs && s.procs[pid].pc == Acknowledging(Finish)
    ensures LiveInv(cfg, Drain(cfg, s, pid, a, SETTLEMENT_STEPS))
  {
    hide Drain, Inv, LiveInv, RowsFit, PendingApproved, WellFormed, PcOk, Gated, ReplayLogsOk;
    HeldRow(cfg, s, pid);
    HeldRowIsLive(cfg, s, pid);
    FinishSettles(cfg, s, pid, a);
    LiveInvHasInv(cfg, s);
    DrainKeepsInv(cfg, s, pid, a, SETTLEMENT_STEPS);
    ReplayLogsAreOk(cfg, s);
    var r := Drain(cfg, s, pid, a, SETTLEMENT_STEPS);
    FinishedTaskOk(cfg, s, r, pid);
    RequeueKeepsTasks(cfg, s, r, pid, DoneRow(s.world.queue[s.procs[pid].delivery.value.id]));
    SettledKeepsLive(cfg, s, r, pid);
  }

  lemma FinishedTaskOk(cfg: Config, s: Sys, r: Sys, pid: nat)
    requires cfg.Valid() && LiveInv(cfg, s) && pid in s.procs && s.procs[pid].pc == Acknowledging(Finish)
    requires RowHeld(s.world.queue, s.procs[pid])
    requires var id := s.procs[pid].delivery.value.id;
             Requeues(s, r, s.procs[pid].task, s.world.queue[id := DoneRow(s.world.queue[id])])
    ensures TaskOk(r.world, s.procs[pid].task)
  {
    hide Inv, LiveInv, RowsFit, PendingApproved, WellFormed, Gated;
    HeldRowIsLive(cfg, s, pid);
    WorkerIsOk(cfg, s, pid);
    BaseIsLast(cfg, s, pid);
    var id := s.procs[pid].delivery.value.id;
    var state := s.world.workflows[s.procs[pid].task].state;
    LastLiveLeaves(s.world.queue, id, DoneRow(s.world.queue[id]), state.status, state.status);
    PendingApprovedSame(s.world, r.world, state);
  }

  lemma {:induction false} DrainKeepsInv(cfg: Config, s: Sys, pid: nat, a: Answer, n: nat)
    requires cfg.Valid() && Inv(cfg, s)
    ensures Inv(cfg, Drain(cfg, s, pid, a, n))
    decreases n
  {
    hide DoAdvance, Inv;
    if n > 0 && pid in s.procs && s.procs[pid].Live() {
      AdvanceKeepsInv(cfg, s, pid, a);
      DrainKeepsInv(cfg, DoAdvance(cfg, s, pid, a), pid, a, n - 1);
    }
  }

  /** The held row is done and another one of the same task is appended. */
  lemma AppendKeepsTasks(cfg: Config, s: Sys, r: Sys, pid: nat, row: QueueRow, more: QueueRow)
    requires cfg.Valid() && LiveInv(cfg, s) && pid in s.procs && s.procs[pid].Live()
    requires RowHeld(s.world.queue, s.procs[pid])
    requires var id := s.procs[pid].delivery.value.id;
             && row.task == s.procs[pid].task && row.maxAttempts == s.world.queue[id].maxAttempts
             && more.task == s.procs[pid].task && more.maxAttempts == cfg.maxQueueAttempts
             && r.world.queue == s.world.queue[id := row] + [more]
    requires r.world.workflows == s.world.workflows && s.procs[pid].task in s.world.workflows
    requires r.world.approvals == s.world.approvals && TaskOk(r.world, s.procs[pid].task)
    ensures SettledTasks(cfg, s, r, s.procs[pid].task)
    ensures OneRowTouched(s.world.queue, r.world.queue, s.procs[pid].delivery.value.id)
  {
    hide Inv, LiveInv, RowsFit, PendingApproved;
    RowsAreOk(cfg, s);
    var task, id := s.procs[pid].task, s.procs[pid].delivery.value.id;
    forall t | t in s.world.workflows && t != task && RowsFit(s.world.queue, t, s.world.workflows[t].state.status)
      ensures RowsFit(r.world.queue, t, s.world.workflows[t].state.status)
    {
      OtherTaskFits(s.world.queue, id, row, t, s.world.workflows[t].state.status);
      AppendOtherFits(s.world.queue[id := row], more, t, s.world.workflows[t].state.status);
    }
  }

  /** The held row is the only live one, so nothing is live once it is done. */
  lemma DoneRowLeavesNothing(cfg: Config, s: Sys, pid: nat)
    requires cfg.Valid() && LiveInv(cfg, s) && pid in s.procs && s.procs[pid].Live()
    ensures var p := s.procs[pid];
            && RowHeld(s.world.queue, p)
            && var queue := s.world.queue[p.delivery.value.id := DoneRow(s.world.queue[p.delivery.value.id])];
            && !HasLive(queue, p.task) && RowsFit(queue, p.task, Completed)
  {
    hide Inv, LiveInv, RowsFit, PendingApproved;
    HeldRowIsLive(cfg, s, pid);
    WorkerIsOk(cfg, s, pid);
    var id := s.procs[pid].delivery.value.id;
    LastLiveLeaves(s.world.queue, id, DoneRow(s.world.queue[id]), s.world.workflows[s.procs[pid].task].state.status, Completed);
  }

  lemma ReenqueueKeepsLive(cfg: Config, s: Sys, pid: nat, a: Answer)
    requires cfg.Valid() && LiveInv(cfg, s) && pid in s.procs && s.procs[pid].pc == Acknowledging(Reenqueue)
    ensures LiveInv(cfg, Drain(cfg, s, pid, a, SETTLEMENT_STEPS))
  {
    hide Drain, Inv, LiveInv, RowsFit, PendingApproved, WellFormed, PcOk, Gated, ReplayLogsOk, HasLive;
    HeldRow(cfg, s, pid);
    DoneRowLeavesNothing(cfg, s, pid);
    ReenqueueSettles(cfg, s, pid, a);
    LiveInvHasInv(cfg, s);
    DrainKeepsInv(cfg, s, pid, a, SETTLEMENT_STEPS);
    ReplayLogsAreOk(cfg, s);
    var r := Drain(cfg, s, pid, a, SETTLEMENT_STEPS);
    var row := DoneRow(s.world.queue[s.procs[pid].delivery.value.id]);
    var more := NewRow(s.procs[pid].task, cfg.maxQueueAttempts, a.now);
    ReenqueuedTaskOk(cfg, s, r, pid, a.now);
    AppendKeepsTasks(cfg, s, r, pid, row, more);
    SettledKeepsLive(cfg, s, r, pid);
  }

  lemma ReenqueuedTaskOk(cfg: Config, s: Sys, r: Sys, pid: nat, now: real)
    requires cfg.Valid() && LiveInv(cfg, s) && pid in s.procs && s.procs[pid].pc == Acknowledging(Reenqueue)
    requires RowHeld(s.world.queue, s.procs[pid])
    requires var id := s.procs[pid].delivery.value.id;
             Requeues(s, r, s.procs[pid].task,
                      s.world.queue[id := DoneRow(s.world.queue[id])] + [NewRow(s.procs[pid].task, cfg.maxQueueAttempts, now)])
    ensures TaskOk(r.world, s.procs[pid].task)
  {
    hide Inv, LiveInv, RowsFit, PendingApproved, WellFormed, Gated, HasLive;
    WorkerIsOk(cfg, s, pid);
    BaseIsLast(cfg, s, pid);
    DoneRowLeavesNothing(cfg, s, pid);
    var id := s.procs[pid].delivery.value.id;
    var state := s.world.workflows[s.procs[pid].task].state;
    AppendFits(s.world.queue[id := DoneRow(s.world.queue[id])], NewRow(s.procs[pid].task, cfg.maxQueueAttempts, now),
               Completed, state.status);
    PendingApprovedSame(s.world, r.world, state);
  }

  /** A worker that failed or must retry has a workflow that did not end. */
  lemma SettlerNotTerminal(cfg: Config, s: Sys, pid: nat)
    requires cfg.Valid() && LiveInv(cfg, s) && pid in s.procs
    requires s.procs[pid].pc.Retrying? || (s.procs[pid].pc.Acknowledging? && s.procs[pid].pc.settlement.FailAfter?)
    ensures Delivered(s, pid) && !Last(s, s.procs[pid].task).state.Terminal()
    ensures Last(s, s.procs[pid].task).state == s.world.workflows[s.procs[pid].task].state
    ensures PendingApproved(s.world, Last(s, s.procs[pid].task).state)
    ensures s.procs[pid].pc.Retrying? ==> Last(s, s.procs[pid].task).state.status.Queued?
  {
    hide Inv, LiveInv, PendingApproved, Gated, GatedAction;
    WorkerIsOk(cfg, s, pid);
    HeldRow(cfg, s, pid);
    BaseIsLast(cfg, s, pid);
  }

  /** The held row leaves the queue, and the workflow ends with it. */
  lemma EndedTaskOk(cfg: Config, s: Sys, r: Sys, pid: nat, row: QueueRow, m: Move)
    requires cfg.Valid() && LiveInv(cfg, s) && pid in s.procs && s.procs[pid].Live()
    requires m.FailDelivery? || m.DeadLetter?
    requires RowHeld(s.world.queue, s.procs[pid]) && Delivered(s, pid)
    requires Last(s, s.procs[pid].task).state == s.world.workflows[s.procs[pid].task].state
    requires Last(s, s.procs[pid].task).state.status.Queued? || m.FailDelivery?
    requires PendingApproved(s.world, Last(s, s.procs[pid].task).state)
    requires row.task == s.procs[pid].task && row.status == (if m.DeadLetter? then Dead else Done)
    requires RequeuesAndSaves(s, r, s.procs[pid].task, s.world.queue[s.procs[pid].delivery.value.id := row],
                              Commit(m, Apply(cfg, Last(s, s.procs[pid].task).state, m)))
    ensures TaskOk(r.world, s.procs[pid].task) && s.procs[pid].task in r.world.workflows
  {
    hide Inv, LiveInv, RowsFit;
    HeldRowIsLive(cfg, s, pid);
    var state := s.world.workflows[s.procs[pid].task].state;
    LastLiveLeaves(s.world.queue, s.procs[pid].delivery.value.id, row, state.status, if m.DeadLetter? then DeadLettered else Failed);
  }

  lemma FailureKeepsLive(cfg: Config, s: Sys, pid: nat, a: Answer)
    requires cfg.Valid() && LiveInv(cfg, s) && pid in s.procs
    requires s.procs[pid].pc.Acknowledging? && s.procs[pid].pc.settlement.FailAfter?
    ensures LiveInv(cfg, Drain(cfg, s, pid, a, SETTLEMENT_STEPS))
  {
    hide Drain, Inv, LiveInv, RowsFit, PendingApproved, ReplayLogsOk, Apply;
    LiveInvHasInv(cfg, s);
    HeldRow(cfg, s, pid);
    SettlerNotTerminal(cfg, s, pid);
    FailureSettles(cfg, s, pid, a);
    DrainKeepsInv(cfg, s, pid, a, SETTLEMENT_STEPS);
    EndedKeepsLive(cfg, s, Drain(cfg, s, pid, a, SETTLEMENT_STEPS), pid,
                   DoneRow(s.world.queue[s.procs[pid].delivery.value.id]), FailDelivery(s.procs[pid].pc.settlement.error));
  }

  lemma EndedKeepsLive(cfg: Config, s: Sys, r: Sys, pid: nat, row: QueueRow, m: Move)
    requires cfg.Valid() && LiveInv(cfg, s) && Inv(cfg, r) && pid in s.procs && s.procs[pid].Live()
    requires m.FailDelivery? || m.DeadLetter?
    requires RowHeld(s.world.queue, s.procs[pid]) && Delivered(s, pid) && Ends(s, r, pid)
    requires Last(s, s.procs[pid].task).state == s.world.workflows[s.procs[pid].task].state
    requires Last(s, s.procs[pid].task).state.status.Queued? || m.FailDelivery?
    requires PendingApproved(s.world, Last(s, s.procs[pid].task).state)
    requires row.task == s.procs[pid].task && row.status == (if m.DeadLetter? then Dead else Done)
    requires row.maxAttempts == s.world.queue[s.procs[pid].delivery.value.id].maxAttempts
    requires RequeuesAndSaves(s, r, s.procs[pid].task, s.world.queue[s.procs[pid].delivery.value.id := row],
                              Commit(m, Apply(cfg, Last(s, s.procs[pid].task).state, m)))
    ensures LiveInv(cfg, r)
  {
    hide Inv, LiveInv, RowsFit, PendingApproved, ReplayLogsOk, Apply;
    ReplayLogsAreOk(cfg, s);
    EndedTaskOk(cfg, s, r, pid, row, m);
    RequeueKeepsTasks(cfg, s, r, pid, row);
    ReplayLogsExtend(s.log, s.procs[pid].task, Commit(m, Apply(cfg, Last(s, s.procs[pid].task).state, m)));
    SettledKeepsLive(cfg, s, r, pid);
  }

  lemma DeadLetterKeepsLive(cfg: Config, s: Sys, pid: nat, a: Answer)
    requires cfg.Valid() && LiveInv(cfg, s) && pid in s.procs && s.procs[pid].pc.Retrying?
    requires s.procs[pid].delivery.Some?
    requires s.procs[pid].delivery.value.attempts >= s.procs[pid].delivery.value.maxAttempts
    ensures LiveInv(cfg, Drain(cfg, s, pid, a, SETTLEMENT_STEPS))
  {
    hide Drain, Inv, LiveInv, RowsFit, PendingApproved, ReplayLogsOk, Apply;
    LiveInvHasInv(cfg, s);
    HeldRow(cfg, s, pid);
    SettlerNotTerminal(cfg, s, pid);
    DeadLetterSettles(cfg, s, pid, a);
    DrainKeepsInv(cfg, s, pid, a, SETTLEMENT_STEPS);
    var d := s.procs[pid].delivery.value;
    EndedKeepsLive(cfg, s, Drain(cfg, s, pid, a, SETTLEMENT_STEPS), pid,
                   RetryRow(s.world.queue[d.id], d, cfg.retryBaseSeconds, a.now), DeadLetter(s.procs[pid].pc.error));
  }

  lemma RetriedTaskOk(cfg: Config, s: Sys, r: Sys, pid: nat, row: QueueRow)
    requires cfg.Valid() && LiveInv(cfg, s) && pid in s.procs && s.procs[pid].Live()
    requires RowHeld(s.world.queue, s.procs[pid])
    requires row.task == s.procs[pid].task && row.Live()
    requires Requeues(s, r, s.procs[pid].task, s.world.queue[s.procs[pid].delivery.value.id := row])
    ensures TaskOk(r.world, s.procs[pid].task) && s.procs[pid].task in r.world.workflows
  {
    hide Inv, LiveInv, RowsFit, PendingApproved;
    WorkerIsOk(cfg, s, pid);
    var task := s.procs[pid].task;
    TaskIsOk(cfg, s, task);
    SameShapeFits(s.world.queue, r.world.queue, task, s.world.workflows[task].state.status);
    PendingApprovedSame(s.world, r.world, s.world.workflows[task].state);
  }

  lemma RetryKeepsLive(cfg: Config, s: Sys, pid: nat, a: Answer)
    requires cfg.Valid() && LiveInv(cfg, s) && pid in s.procs && s.procs[pid].pc.Retrying?
    requires s.procs[pid].delivery.Some?
    requires s.procs[pid].delivery.value.attempts < s.procs[pid].delivery.value.maxAttempts
    ensures LiveInv(cfg, Drain(cfg, s, pid, a, SETTLEMENT_STEPS))
  {
    hide Drain, Inv, LiveInv, RowsFit, PendingApproved, ReplayLogsOk, RetryDelay;
    LiveInvHasInv(cfg, s);
    HeldRow(cfg, s, pid);
    RetrySettles(cfg, s, pid, a);
    DrainKeepsInv(cfg, s, pid, a, SETTLEMENT_STEPS);
    ReplayLogsAreOk(cfg, s);
    var r := Drain(cfg, s, pid, a, SETTLEMENT_STEPS);
    var d := s.procs[pid].delivery.value;
    var row := RetryRow(s.world.queue[d.id], d, cfg.retryBaseSeconds, a.now);
    RetriedTaskOk(cfg, s, r, pid, row);
    RequeueKeepsTasks(cfg, s, r, pid, row);
    SettledKeepsLive(cfg, s, r, pid);
  }

  lemma SettlementKeepsLive(cfg: Config, s: Sys, pid: nat, a: Answer)
    requires cfg.Valid() && LiveInv(cfg, s) && pid in s.procs && Settling(s.procs[pid].pc)
    ensures LiveInv(cfg, Drain(cfg, s, pid, a, SETTLEMENT_STEPS))
  {
    hide Drain, Inv, LiveInv, RowHeld;
    HeldRow(cfg, s, pid);
    var pc := s.procs[pid].pc;
    RowHeldDelivered(s, pid);
    if pc.Retrying? {
      if s.procs[pid].delivery.value.attempts >= s.procs[pid].delivery.value.maxAttempts {
        DeadLetterKeepsLive(cfg, s, pid, a);
      } else {
        RetryKeepsLive(cfg, s, pid, a);
      }
    } else {
      match pc.settlement {
        case Finish => FinishKeepsLive(cfg, s, pid, a);
        case Reenqueue => ReenqueueKeepsLive(cfg, s, pid, a);
        case FailAfter(_) => FailureKeepsLive(cfg, s, pid, a);
        case Park => assert false;
      }
    }
  }

  lemma RowHeldDelivered(s: Sys, pid: nat)
    requires pid in s.procs && RowHeld(s.world.queue, s.procs[pid])
    ensures s.procs[pid].delivery.Some? && s.procs[pid].delivery.value.id < |s.world.queue|
  {
  }

  // ----- all five settlements at once -----

  /** The worker has a finished tool call to hand back to the queue. */
  predicate HeadsBack(pc: Pc) {
    match pc
    case Emitting(_, next) => HeadsBack(next)
    case Acknowledging(settlement) => settlement.Reenqueue?
    case _ => false
  }

  /** What every settlement has in common. */
  ghost predicate SettlesOne(cfg: Config, s: Sys, r: Sys, pid: nat) {
    && Delivered(s, pid) && Ends(s, r, pid)
    && var task := s.procs[pid].task;
    && var id := s.procs[pid].delivery.value.id;
    && r.seen == s.seen + multiset{Settled(task)}
    && r.world.approvals == s.world.approvals && r.world.ledger == s.world.ledger
    && OneRowTouched(s.world.queue, r.world.queue, id) && r.world.queue[id].task == task
    && (r.world.queue[id].Live() ==>
          && r.world.queue[id].status.Pending? && r.world.queue[id].attempts == s.world.queue[id].attempts
          && s.world.queue[id].attempts < cfg.maxQueueAttempts)
    && |r.world.queue| <= |s.world.queue| + 1
    && (|r.world.queue| > |s.world.queue| ==>
          && HeadsBack(s.procs[pid].pc)
          && var row := r.world.queue[|s.world.queue|];
          && row.task == task && row.attempts == 0 && row.maxAttempts == cfg.maxQueueAttempts && row.status.Pending?)
    && SettlesLog(cfg, s, r, task)
  }

  ghost predicate SettlesLog(cfg: Config, s: Sys, r: Sys, task: TaskId) {
    || r.log == s.log
    || exists m: Move :: EndsBy(cfg, s, r, task, m)
  }

  ghost predicate EndsBy(cfg: Config, s: Sys, r: Sys, task: TaskId, m: Move) {
    && (m.FailDelivery? || m.DeadLetter?) && cfg.repeatThreshold > 0 && task in s.log && s.log[task] != []
    && r.log == s.log[task := s.log[task] + [Commit(m, Apply(cfg, Last(s, task).state, m))]]
  }

  lemma RequeuesIsSettlement(cfg: Config, s: Sys, r: Sys, pid: nat, row: QueueRow)
    requires cfg.Valid() && Delivered(s, pid) && Ends(s, r, pid) && RowHeld(s.world.queue, s.procs[pid])
    requires row.task == s.procs[pid].task
    requires row.Live() ==>
               && row.status.Pending?
               && row.attempts == s.world.queue[s.procs[pid].delivery.value.id].attempts < cfg.maxQueueAttempts
    requires Requeues(s, r, s.procs[pid].task, s.world.queue[s.procs[pid].delivery.value.id := row])
    ensures SettlesOne(cfg, s, r, pid)
  {
  }

  lemma RequeuesAndSavesIsSettlement(cfg: Config, s: Sys, r: Sys, pid: nat, row: QueueRow, m: Move)
    requires cfg.Valid() && Delivered(s, pid) && Ends(s, r, pid) && RowHeld(s.world.queue, s.procs[pid])
    requires row.task == s.procs[pid].task && !row.Live() && (m.FailDelivery? || m.DeadLetter?)
    requires RequeuesAndSaves(s, r, s.procs[pid].task, s.world.queue[s.procs[pid].delivery.value.id := row],
                              Commit(m, Apply(cfg, Last(s, s.procs[pid].task).state, m)))
    ensures SettlesOne(cfg, s, r, pid)
  {
    hide Apply;
    assert EndsBy(cfg, s, r, s.procs[pid].task, m);
  }

  lemma AcknowledgmentSettlesOne(cfg: Config, s: Sys, pid: nat, a: Answer)
    requires cfg.Valid() && LiveInv(cfg, s) && pid in s.procs && s.procs[pid].pc.Acknowledging?
    ensures SettlesOne(cfg, s, Drain(cfg, s, pid, a, SETTLEMENT_STEPS), pid)
  {
    hide Drain, Inv, LiveInv, SettlesOne, Apply, HasLive, RowsFit;
    HeldRow(cfg, s, pid);
    LiveInvHasInv(cfg, s);
    var id := s.procs[pid].delivery.value.id;
    var r := Drain(cfg, s, pid, a, SETTLEMENT_STEPS);
    match s.procs[pid].pc.settlement {
      case Finish =>
        FinishSettles(cfg, s, pid, a);
        RequeuesIsSettlement(cfg, s, r, pid, DoneRow(s.world.queue[id]));
      case Reenqueue => ReenqueueSettlesOne(cfg, s, pid, a);
      case FailAfter(error) =>
        SettlerNotTerminal(cfg, s, pid);
        FailureSettles(cfg, s, pid, a);
        RequeuesAndSavesIsSettlement(cfg, s, r, pid, DoneRow(s.world.queue[id]), FailDelivery(error));
      case Park => assert false;
    }
  }

  lemma ReenqueueSettlesOne(cfg: Config, s: Sys, pid: nat, a: Answer)
    requires cfg.Valid() && LiveInv(cfg, s) && pid in s.procs && s.procs[pid].pc == Acknowledging(Reenqueue)
    ensures SettlesOne(cfg, s, Drain(cfg, s, pid, a, SETTLEMENT_STEPS), pid)
  {
    hide Drain, Inv, LiveInv, Apply, HasLive, RowsFit;
    HeldRow(cfg, s, pid);
    DoneRowLeavesNothing(cfg, s, pid);
    ReenqueueSettles(cfg, s, pid, a);
  }

  lemma RetrySettlesOne(cfg: Config, s: Sys, pid: nat, a: Answer)
    requires cfg.Valid() && LiveInv(cfg, s) && pid in s.procs && s.procs[pid].pc.Retrying?
    ensures SettlesOne(cfg, s, Drain(cfg, s, pid, a, SETTLEMENT_STEPS), pid)
  {
    hide Drain, Inv, LiveInv, SettlesOne, Apply, RetryDelay;
    HeldRow(cfg, s, pid);
    LiveInvHasInv(cfg, s);
    SettlerNotTerminal(cfg, s, pid);
    var d := s.procs[pid].delivery.value;
    var row := RetryRow(s.world.queue[d.id], d, cfg.retryBaseSeconds, a.now);
    var r := Drain(cfg, s, pid, a, SETTLEMENT_STEPS);
    if d.attempts >= d.maxAttempts {
      DeadLetterSettles(cfg, s, pid, a);
      RequeuesAndSavesIsSettlement(cfg, s, r, pid, row, DeadLetter(s.procs[pid].pc.error));
    } else {
      RetrySettles(cfg, s, pid, a);
      RequeuesIsSettlement(cfg, s, r, pid, row);
    }
  }

  lemma EverySettlement(cfg: Config, s: Sys, pid: nat, a: Answer)
    requires cfg.Valid() && LiveInv(cfg, s) && pid in s.procs && Settling(s.procs[pid].pc)
    ensures SettlesOne(cfg, s, Drain(cfg, s, pid, a, SETTLEMENT_STEPS), pid)
  {
    hide Drain, LiveInv, SettlesOne;
    if s.procs[pid].pc.Retrying? {
      RetrySettlesOne(cfg, s, pid, a);
    } else {
      AcknowledgmentSettlesOne(cfg, s, pid, a);
    }
  }
}
