/** Why the operating hypotheses are needed: what each forbidden step would do to rows and workflows. */
module Hypotheses {
  import opened Models
  import opened Tables
  import opened QueueShape
  import opened Checkpoints
  import opened Machine
  import opened System
  import opened Refinement
  import opened Discipline
  import opened Settlement
  import opened LiveRows
  import opened LiveTurns
  import opened LiveRuns

  /** A live status without a row to bring it on. */
  predicate Orphaned(s: Sys, task: TaskId) {
    && task in s.world.workflows
    && (s.world.workflows[task].state.status.Queued? || s.world.workflows[task].state.status.Running?)
    && !HasLive(s.world.queue, task)
  }

  /** (H1) A worker that lost its lease settles by row id alone, and so revives a row that is done. */
  lemma StaleRetryRevivesRow(cfg: Config, s: Sys, pid: nat, a: Answer)
    requires cfg.Valid() && pid in s.procs && s.procs[pid].pc.Retrying? && Delivered(s, pid)
    requires s.procs[pid].delivery.value.attempts < s.procs[pid].delivery.value.maxAttempts
    requires s.world.queue[s.procs[pid].delivery.value.id].status.Done?
    ensures var id := s.procs[pid].delivery.value.id;
            LiveAt(DoAdvance(cfg, s, pid, a).world.queue, id, s.world.queue[id].task)
  {
    RetryAdvances(cfg, s, pid, a);
  }

  /** (H2) A crash between the acknowledgment and the enqueue orphans a queued workflow. */
  lemma CrashInSettlementOrphans(cfg: Config, s: Sys, pid: nat, a: Answer)
    requires cfg.Valid() && LiveInv(cfg, s) && pid in s.procs && s.procs[pid].pc == Acknowledging(Reenqueue)
    ensures Orphaned(DoCrash(cfg, DoAdvance(cfg, s, pid, a), pid), s.procs[pid].task)
  {
    hide DoAdvance, LiveInv, Inv, HasLive, RowsFit, Gated, PendingApproved;
    HeldRow(cfg, s, pid);
    DoneRowLeavesNothing(cfg, s, pid);
    WorkerIsOk(cfg, s, pid);
    BaseIsLast(cfg, s, pid);
    AcknowledgeAdvances(cfg, s, pid, a);
  }

  /**
   (H3) An approval between a worker's waiting checkpoint and its acknowledgment finds the worker's own
   row still live, enqueues nothing, and the acknowledgment then completes that row.
   */
  lemma EarlyApprovalOrphans(cfg: Config, s: Sys, pid: nat, request: nat, a: Answer, b: Answer)
    requires cfg.Valid() && LiveInv(cfg, s) && pid in s.procs && s.procs[pid].pc == Acknowledging(Finish)
    requires MayResolve(s.world, s.procs[pid].task) && request !in s.procs
    ensures var task := s.procs[pid].task;
            var approved := Drain(cfg, DoRequest(s, request, task, ToApprove), request, a, SETTLEMENT_STEPS);
            pid in approved.procs && Orphaned(DoAdvance(cfg, approved, pid, b), task)
  {
    hide DoAdvance, Drain, LiveInv, Inv, HasLive, RowsFit, Apply;
    var task := s.procs[pid].task;
    LiveInvHasInv(cfg, s);
    HeldRow(cfg, s, pid);
    HeldRowIsLive(cfg, s, pid);
    DoneRowLeavesNothing(cfg, s, pid);
    RequestKeepsInv(cfg, s, request, task, ToApprove);
    RequestResolves(cfg, DoRequest(s, request, task, ToApprove), request, a, task, ToApprove);
    ApprovedIsQueued(cfg, s.world.workflows[task].state);
    AcknowledgeAdvances(cfg, Drain(cfg, DoRequest(s, request, task, ToApprove), request, a, SETTLEMENT_STEPS), pid, b);
  }

  lemma ApprovedIsQueued(cfg: Config, s: WorkflowState)
    requires cfg.Valid()
    ensures Apply(cfg, s, Approve).status.Queued?
  {
  }
}
