/** The live-row theorem: requests, claims, crashes, heartbeats and replays, and whole disciplined runs. */
module LiveRuns {
  import opened Prelude
  import opened Models
  import opened Tables
  import opened QueueShape
  import opened Checkpoints
  import opened CheckpointFacts
  import opened LoopDetector
  import opened Histories
  import opened Machine
  import opened System
  import opened Refinement
  import opened Discipline
  import opened Settlement
  import opened LiveRows
  import opened LiveTurns

  // ----- approval and rejection requests -----

  function PendingKey(w: World, task: TaskId): (TaskId, ActionId)
    requires MayResolve(w, task)
  {
    (task, w.workflows[task].state.pendingAction.value.actionId)
  }

  /** The queue after a successful request: only an approval enqueues, and not beside a live row. */
  function RequestedQueue(cfg: Config, w: World, task: TaskId, approve: bool, now: real): seq<QueueRow> {
    if approve then Enqueue(w, task, cfg.maxQueueAttempts, now).queue else w.queue
  }

  predicate RequestPurpose(purpose: Purpose) {
    purpose.ToApprove? || purpose.ToReject?
  }

  function RequestMove(purpose: Purpose): Move {
    if purpose.ToReject? then Reject(purpose.error) else Approve
  }

  function VerdictFor(purpose: Purpose): Verdict {
    if purpose.ToReject? then Verdict.Rejected else Approved
  }

  /** A process that has just begun to serve a request. */
  ghost predicate Requesting(s: Sys, pid: nat, task: TaskId, purpose: Purpose) {
    pid in s.procs && s.procs[pid] == Proc(task, None, None, Loading(purpose)) && RequestPurpose(purpose)
  }

  /** Everything a successful request changes. */
  ghost predicate Resolved(cfg: Config, s: Sys, r: Sys, pid: nat, task: TaskId, purpose: Purpose, now: real) {
    && MayResolve(s.world, task) && cfg.repeatThreshold > 0
    && task in s.log && s.log[task] != []
    && var c := Commit(RequestMove(purpose), Apply(cfg, s.world.workflows[task].state, RequestMove(purpose)));
    && r.log == s.log[task := s.log[task] + [c]]
    && r.world.workflows == s.world.workflows[task := WorkflowRow(c.state, |s.log[task]|)]
    && r.world.approvals == s.world.approvals[PendingKey(s.world, task) := VerdictFor(purpose)]
    && r.world.ledger == s.world.ledger
    && r.world.queue == RequestedQueue(cfg, s.world, task, purpose.ToApprove?, now)
    && r.seen == s.seen
    && Ends(s, r, pid)
  }

  lemma RequestLoads(cfg: Config, s: Sys, pid: nat, a: Answer, task: TaskId, purpose: Purpose)
    requires cfg.Valid() && Requesting(s, pid, task, purpose)
    ensures var r := DoAdvance(cfg, s, pid, a);
            && pid in r.procs && r == s.(procs := s.procs[pid := r.procs[pid]])
            && r.procs[pid].task == task && r.procs[pid].delivery == None
            && (!AwaitsVerdict(s.world, task) ==> r.procs[pid].pc.Halted?)
            && (task in s.world.workflows ==> r.procs[pid].base == Some(s.world.workflows[task].state))
            && (AwaitsVerdict(s.world, task) ==>
                var state := s.world.workflows[task].state;
                r.procs[pid].pc == Resolving(state.pendingAction.value.actionId, purpose.ToApprove?,
                                             if purpose.ToReject? then purpose.error else Text("")))
  {
    hide SaveStep, EngineStep, ResumeStep, LookupStep, RecordStep, RetryStep, ResolveStep, AcknowledgeStep,
         AfterBackend, CreateApproval, Enqueue, AfterSettlement;
    assert s.seen + multiset{} == s.seen;
  }

  lemma ResolveAdvances(cfg: Config, s: Sys, pid: nat, a: Answer)
    requires cfg.Valid() && pid in s.procs && s.procs[pid].pc.Resolving?
    ensures var p := s.procs[pid];
            var key := (p.task, p.pc.action);
            var r := DoAdvance(cfg, s, pid, a);
            if key in s.world.approvals && s.world.approvals[key].Undecided? then
              r == s.(world := s.world.(approvals := s.world.approvals[key := if p.pc.approved then Approved else Rejected]),
                      procs := s.procs[pid := p.(pc := Saving(if p.pc.approved then Approve else Reject(p.pc.error)))])
            else r == s.(procs := s.procs[pid := p.(pc := Halted)])
  {
    hide SaveStep, EngineStep, ResumeStep, LookupStep, RecordStep, RetryStep, AcknowledgeStep, AfterBackend,
         CreateApproval, Enqueue, AfterSettlement, AfterLoad;
    assert s.seen + multiset{} == s.seen;
  }

  /** A request that may not resolve anything leaves no trace but its own, ended, process. */
  lemma RequestRefused(cfg: Config, s: Sys, pid: nat, a: Answer, task: TaskId, purpose: Purpose)
    requires cfg.Valid() && Requesting(s, pid, task, purpose) && !MayResolve(s.world, task)
    ensures var r := Drain(cfg, s, pid, a, SETTLEMENT_STEPS);
            Ends(s, r, pid) && r == s.(procs := r.procs)
  {
    hide DoAdvance, Drain;
    RequestLoads(cfg, s, pid, a, task, purpose);
    DrainStep(cfg, s, pid, a, 5);
    var t := DoAdvance(cfg, s, pid, a);
    if t.procs[pid].pc.Halted? {
      DrainStops(cfg, t, pid, a, 4);
    } else {
      ResolveAdvances(cfg, t, pid, a);
      DrainStep(cfg, t, pid, a, 4);
      DrainStops(cfg, DoAdvance(cfg, t, pid, a), pid, a, 3);
    }
  }

  /** Loading and resolving, up to the save. */
  lemma RequestReachesSave(cfg: Config, s: Sys, pid: nat, a: Answer, task: TaskId, purpose: Purpose) returns (t: Sys)
    requires cfg.Valid() && Inv(cfg, s) && Requesting(s, pid, task, purpose) && MayResolve(s.world, task)
    ensures Inv(cfg, t) && Drain(cfg, s, pid, a, 5) == Drain(cfg, t, pid, a, 3)
    ensures t == s.(world := s.world.(approvals := s.world.approvals[PendingKey(s.world, task) := VerdictFor(purpose)]),
                    procs := s.procs[pid := Proc(task, None, Some(s.world.workflows[task].state), Saving(RequestMove(purpose)))])
  {
    hide DoAdvance, Drain, Inv;
    RequestLoads(cfg, s, pid, a, task, purpose);
    DrainStep(cfg, s, pid, a, 5);
    AdvanceKeepsInv(cfg, s, pid, a);
    var u := DoAdvance(cfg, s, pid, a);
    ResolveAdvances(cfg, u, pid, a);
    DrainStep(cfg, u, pid, a, 4);
    AdvanceKeepsInv(cfg, u, pid, a);
    t := DoAdvance(cfg, u, pid, a);
  }

  lemma CurrentSavesCommit(cfg: Config, t: Sys, pid: nat)
    requires cfg.Valid() && Inv(cfg, t) && pid in t.procs && t.procs[pid].pc.Saving?
    requires t.procs[pid].task in t.world.workflows
    requires t.procs[pid].base == Some(t.world.workflows[t.procs[pid].task].state)
    ensures CommitsNow(t.world, t.procs[pid]) && t.procs[pid].task in t.log && t.log[t.procs[pid].task] != []
  {
    hide Inv, WellFormed, ValidLog;
    var task := t.procs[pid].task;
    LogIsOk(cfg, t, task);
    LogWellFormed(cfg, task, t.log[task], |t.log[task]| - 1);
    LastTask(cfg, task, t.log[task]);
  }

  /** The save of a request, with what follows it. */
  lemma RequestSaves(cfg: Config, t: Sys, pid: nat, a: Answer, task: TaskId, purpose: Purpose) returns (u: Sys)
    requires cfg.Valid() && Inv(cfg, t) && pid in t.procs && task in t.world.workflows && RequestPurpose(purpose)
    requires t.procs[pid] == Proc(task, None, Some(t.world.workflows[task].state), Saving(RequestMove(purpose)))
    ensures task in t.log && t.log[task] != []
    ensures var c := Commit(RequestMove(purpose), Apply(cfg, t.world.workflows[task].state, RequestMove(purpose)));
            && Commits(t, u, pid, c) && Drain(cfg, t, pid, a, 3) == Drain(cfg, u, pid, a, 2)
            && u.seen == t.seen
            && u.procs[pid].pc == Emitting(if purpose.ToApprove? then ApprovalGranted else ApprovalRejected,
                                           if purpose.ToApprove? then Enqueuing else Halted)
  {
    hide DoAdvance, Drain, Inv, Apply;
    CurrentSavesCommit(cfg, t, pid);
    CommitHasShape(cfg, t, pid, a);
    DrainStep(cfg, t, pid, a, 3);
    u := DoAdvance(cfg, t, pid, a);
  }

  lemma EmitThenEnqueue(cfg: Config, u: Sys, pid: nat, a: Answer) returns (r: Sys)
    requires cfg.Valid() && pid in u.procs && u.procs[pid].pc.Emitting? && u.procs[pid].pc.next.Enqueuing?
    ensures r == Drain(cfg, u, pid, a, 2)
    ensures Ends(u, r, pid) && r.log == u.log && r.seen == u.seen
    ensures r.world == Enqueue(RecordEvent(u.world, u.procs[pid].task, u.procs[pid].pc.kind),
                               u.procs[pid].task, cfg.maxQueueAttempts, a.now)
  {
    hide Drain, Enqueue;
    DrainStep(cfg, u, pid, a, 2);
    var v := DoAdvance(cfg, u, pid, a);
    assert u.seen + multiset{} == u.seen;
    DrainStep(cfg, v, pid, a, 1);
    r := DoAdvance(cfg, v, pid, a);
    assert v.seen + multiset{} == v.seen;
    DrainStops(cfg, r, pid, a, 0);
  }

  lemma RequestResolves(cfg: Config, s: Sys, pid: nat, a: Answer, task: TaskId, purpose: Purpose)
    requires cfg.Valid() && Inv(cfg, s) && Requesting(s, pid, task, purpose) && MayResolve(s.world, task)
    ensures Resolved(cfg, s, Drain(cfg, s, pid, a, SETTLEMENT_STEPS), pid, task, purpose, a.now)
  {
    hide DoAdvance, Drain, Inv, Apply, HasLive;
    var t := RequestReachesSave(cfg, s, pid, a, task, purpose);
    var u := RequestSaves(cfg, t, pid, a, task, purpose);
    if purpose.ToApprove? {
      var r := EmitThenEnqueue(cfg, u, pid, a);
    } else {
      var r := HandlerEmits(cfg, u, pid, a, 2);
    }
  }

  lemma RequestedRowsFit(cfg: Config, w: World, task: TaskId, approve: bool, now: real)
    requires RowsFit(w.queue, task, WaitingForApproval)
    ensures RowsFit(RequestedQueue(cfg, w, task, approve, now), task, if approve then Queued else HumanRejected)
  {
    hide HasLive, RowsFit;
    if !approve {
      StatusChangeFits(w.queue, task, WaitingForApproval, HumanRejected);
    } else if HasLive(w.queue, task) {
      StatusChangeFits(w.queue, task, WaitingForApproval, Queued);
    } else {
      AppendFits(w.queue, NewRow(task, cfg.maxQueueAttempts, now), WaitingForApproval, Queued);
    }
  }

  /** Requested rows of one task say nothing about another. */
  lemma RequestedOthersFit(cfg: Config, w: World, task: TaskId, approve: bool, now: real, other: TaskId, status: Status)
    requires other != task && RowsFit(w.queue, other, status)
    ensures RowsFit(RequestedQueue(cfg, w, task, approve, now), other, status)
  {
    hide HasLive, RowsFit;
    if approve && !HasLive(w.queue, task) {
      AppendOtherFits(w.queue, NewRow(task, cfg.maxQueueAttempts, now), other, status);
    }
  }

  lemma RequestedWorkersOk(cfg: Config, s: Sys, r: Sys, pid: nat, task: TaskId)
    requires cfg.Valid() && LiveInv(cfg, s) && pid !in s.procs && pid in r.procs && !r.procs[pid].Live()
    requires r.procs == s.procs[pid := r.procs[pid]]
    requires forall w | w in s.procs :: !LoadedOn(s, w, task)
    requires s.world.queue <= r.world.queue && task in r.world.workflows
    requires forall t | t in s.world.workflows && t != task :: t in r.world.workflows && r.world.workflows[t] == s.world.workflows[t]
    ensures forall i | i in r.procs :: WorkerOk(r.world, r.procs[i])
    ensures Exclusive(r)
  {
    hide Inv, LiveInv, InProcess;
    RowsAreOk(cfg, s);
    forall i | i in r.procs ensures WorkerOk(r.world, r.procs[i]) {
      if i != pid {
        WorkerIsOk(cfg, s, i);
        assert !LoadedOn(s, i, task);
      }
    }
  }

  lemma ResolvedTasksOk(cfg: Config, s: Sys, r: Sys, pid: nat, task: TaskId, purpose: Purpose, now: real)
    requires cfg.Valid() && LiveInv(cfg, s) && MayResolve(s.world, task) && RequestPurpose(purpose)
    requires Resolved(cfg, s.(procs := s.procs[pid := Proc(task, None, None, Loading(purpose))]), r, pid, task, purpose, now)
    ensures forall t | t in r.log :: TaskOk(r.world, t)
  {
    hide Inv, LiveInv, RowsFit, RequestedQueue, WellFormed, ValidLog;
    LiveInvHasInv(cfg, s);
    var key := PendingKey(s.world, task);
    forall t | t in r.log ensures TaskOk(r.world, t) {
      LogIsOk(cfg, s, t);
      TaskIsOk(cfg, s, t);
      if t == task {
        LastTask(cfg, task, s.log[task]);
        RequestedRowsFit(cfg, s.world, task, purpose.ToApprove?, now);
      } else {
        RequestedOthersFit(cfg, s.world, task, purpose.ToApprove?, now, t, s.world.workflows[t].state.status);
        PendingApprovedStable(s.world, r.world, s.world.workflows[t].state);
      }
    }
  }

  lemma ResolvedKeepsLive(cfg: Config, s: Sys, r: Sys, pid: nat, task: TaskId, purpose: Purpose, now: real)
    requires cfg.Valid() && LiveInv(cfg, s) && Inv(cfg, r) && MayResolve(s.world, task) && RequestPurpose(purpose)
    requires pid !in s.procs && forall w | w in s.procs :: !LoadedOn(s, w, task)
    requires Resolved(cfg, s.(procs := s.procs[pid := Proc(task, None, None, Loading(purpose))]), r, pid, task, purpose, now)
    ensures LiveInv(cfg, r)
  {
    hide Inv, RowsFit, InProcess, PendingApproved, ReplaysOfDeadLetters, TaskOk, Exclusive, Apply, HasLive,
         WorkerOk, ReplayLogsOk;
    ResolvedTasksOk(cfg, s, r, pid, task, purpose, now);
    RequestedWorkersOk(cfg, s, r, pid, task);
    ReplayLogsAreOk(cfg, s);
    ReplayLogsExtend(s.log, task, Commit(RequestMove(purpose), Apply(cfg, s.world.workflows[task].state, RequestMove(purpose))));
    ReplayLogsSpelledOut(r.log);
  }

  lemma ReplayLogsSpelledOut(log: map<TaskId, seq<Commit>>)
    requires ReplayLogsOk(log)
    ensures forall task | task in log :: ReplaysOfDeadLetters(log[task])
  {
  }

  lemma RefusedKeepsLive(cfg: Config, s: Sys, r: Sys, pid: nat)
    requires cfg.Valid() && LiveInv(cfg, s) && Inv(cfg, r) && pid !in s.procs && pid in r.procs && !r.procs[pid].Live()
    requires r == s.(procs := s.procs[pid := r.procs[pid]])
    ensures LiveInv(cfg, r)
  {
    hide Inv, RowsFit, InProcess, PendingApproved, ReplaysOfDeadLetters, TaskOk, HasLive, RowHeld, RowsOk;
  }

  lemma RequestKeepsLive(cfg: Config, s: Sys, pid: nat, task: TaskId, purpose: Purpose, a: Answer)
    requires cfg.Valid() && LiveInv(cfg, s) && RequestPurpose(purpose)
    requires pid !in s.procs && (MayResolve(s.world, task) ==> forall w | w in s.procs :: !LoadedOn(s, w, task))
    ensures LiveInv(cfg, Drain(cfg, DoRequest(s, pid, task, purpose), pid, a, SETTLEMENT_STEPS))
  {
    hide Drain, Inv, LiveInv, LoadedOn, MayResolve, Resolved;
    LiveInvHasInv(cfg, s);
    RequestKeepsInv(cfg, s, pid, task, purpose);
    var t := DoRequest(s, pid, task, purpose);
    DrainKeepsInv(cfg, t, pid, a, SETTLEMENT_STEPS);
    if MayResolve(s.world, task) {
      RequestResolves(cfg, t, pid, a, task, purpose);
      ResolvedKeepsLive(cfg, s, Drain(cfg, t, pid, a, SETTLEMENT_STEPS), pid, task, purpose, a.now);
    } else {
      RequestRefused(cfg, t, pid, a, task, purpose);
      RefusedKeepsLive(cfg, s, Drain(cfg, t, pid, a, SETTLEMENT_STEPS), pid);
    }
  }

  // ----- claims, heartbeats, crashes -----

  /** A step that moves no row between live, dead and gone, and saves nothing. */
  lemma ReshapedKeepsLive(cfg: Config, s: Sys, r: Sys)
    requires cfg.Valid() && LiveInv(cfg, s) && Inv(cfg, r)
    requires r.log == s.log && r.world.workflows == s.world.workflows && r.world.approvals == s.world.approvals
    requires SameShape(s.world.queue, r.world.queue) && RowsOk(cfg, r.world)
    requires forall i | i in r.procs :: WorkerOk(r.world, r.procs[i])
    requires Exclusive(r)
    ensures LiveInv(cfg, r)
  {
    hide Inv, RowsFit, InProcess, PendingApproved, ReplaysOfDeadLetters, WorkerOk, Exclusive, RowsOk, SameShape;
    forall t | t in r.log ensures TaskOk(r.world, t) {
      assert TaskOk(s.world, t);
      if t in s.world.workflows {
        SameShapeFits(s.world.queue, r.world.queue, t, s.world.workflows[t].state.status);
        PendingApprovedSame(s.world, r.world, s.world.workflows[t].state);
      }
    }
  }

  lemma CrashKeepsLive(cfg: Config, s: Sys, pid: nat)
    requires cfg.Valid() && LiveInv(cfg, s) && pid in s.procs
    ensures LiveInv(cfg, DoCrash(cfg, s, pid))
  {
    hide Inv, InProcess, LostByCrash, RowHeld, RowsFit, LiveInv;
    LiveInvHasInv(cfg, s);
    var r := DoCrash(cfg, s, pid);
    CrashKeepsInv(cfg, s, pid);
    RowsAreOk(cfg, s);
    forall i | i in r.procs ensures WorkerOk(r.world, r.procs[i]) {
      WorkerIsOk(cfg, s, i);
    }
    ReshapedKeepsLive(cfg, s, r);
  }

  lemma CrashKeepsInv(cfg: Config, s: Sys, pid: nat)
    requires cfg.Valid() && Inv(cfg, s)
    ensures Inv(cfg, DoCrash(cfg, s, pid))
  {
    hide Inv, DoCrash;
    DeliveryStepKeepsInv(cfg, s, Step.Crash(pid));
  }

  lemma HeartbeatKeepsLive(cfg: Config, s: Sys, step: Step)
    requires cfg.Valid() && LiveInv(cfg, s) && (step.Heartbeat? || step.NoteHeartbeat?)
    ensures LiveInv(cfg, Do(cfg, s, step))
  {
    hide Inv, InProcess, LiveInv;
    LiveInvHasInv(cfg, s);
    DeliveryStepKeepsInv(cfg, s, step);
    RowsAreOk(cfg, s);
    var r := Do(cfg, s, step);
    forall i | i in r.procs ensures WorkerOk(r.world, r.procs[i]) {
      WorkerIsOk(cfg, s, i);
    }
    ReshapedKeepsLive(cfg, s, r);
  }

  /** A held row whose lease has not run out is not touched by a claim. */
  lemma ClaimLeavesHeldRow(cfg: Config, w: World, worker: string, lease: real, now: real, id: nat)
    requires id < |w.queue| && w.queue[id].status.Processing? && !Expired(w.queue[id], now)
    ensures var (v, d) := Claim(w, worker, lease, now);
            && |v.queue| == |w.queue| && v.queue[id] == w.queue[id]
            && (d.Some? ==> d.value.id != id)
  {
  }

  lemma ClaimShape(cfg: Config, w: World, worker: string, lease: real, now: real)
    requires RowsOk(cfg, w)
    ensures var (v, d) := Claim(w, worker, lease, now);
            && SameShape(w.queue, v.queue) && RowsOk(cfg, v)
            && v == w.(queue := v.queue)
            && (d.Some? ==> RowHeld(v.queue, Proc(d.value.task, d, None, Loading(ToProcess))) && d.value.task in v.workflows)
  {
  }

  lemma ClaimedWorkersOk(cfg: Config, s: Sys, pid: nat, worker: string, now: real)
    requires cfg.Valid() && LiveInv(cfg, s) && pid !in s.procs
    requires forall holder | holder in s.procs :: !LeaseLost(s, holder, now)
    ensures var r := DoClaim(cfg, s, pid, worker, now);
            (forall i | i in r.procs :: WorkerOk(r.world, r.procs[i])) && Exclusive(r)
  {
    hide Inv, LiveInv, Claim;
    RowsAreOk(cfg, s);
    var r := DoClaim(cfg, s, pid, worker, now);
    ClaimShape(cfg, s.world, worker, cfg.leaseSeconds, now);
    forall i | i in s.procs && s.procs[i].Live()
      ensures WorkerOk(r.world, s.procs[i])
      ensures pid in r.procs && r.procs[pid].delivery.Some? && s.procs[i].delivery.Some? ==>
                r.procs[pid].delivery.value.id != s.procs[i].delivery.value.id
    {
      WorkerIsOk(cfg, s, i);
      assert !LeaseLost(s, i, now);
      ClaimLeavesHeldRow(cfg, s.world, worker, cfg.leaseSeconds, now, s.procs[i].delivery.value.id);
    }
  }

  lemma ClaimKeepsLive(cfg: Config, s: Sys, pid: nat, worker: string, now: real)
    requires cfg.Valid() && LiveInv(cfg, s) && pid !in s.procs
    requires forall holder | holder in s.procs :: !LeaseLost(s, holder, now)
    ensures LiveInv(cfg, Do(cfg, s, ClaimNext(pid, worker, now)))
  {
    hide Inv, InProcess, LiveInv, Claim, WorkerOk, Exclusive, SameShape, RowsOk;
    LiveInvHasInv(cfg, s);
    RowsAreOk(cfg, s);
    DeliveryStepKeepsInv(cfg, s, ClaimNext(pid, worker, now));
    ClaimShape(cfg, s.world, worker, cfg.leaseSeconds, now);
    ClaimedWorkersOk(cfg, s, pid, worker, now);
    ReshapedKeepsLive(cfg, s, DoClaim(cfg, s, pid, worker, now));
  }

  // ----- creation and replay -----

  lemma CreatedTasksOk(cfg: Config, s: Sys, task: TaskId, goal: string, scenario: string, now: real)
    requires cfg.Valid() && LiveInv(cfg, s) && task !in s.world.workflows
    ensures var r := DoCreate(cfg, s, task, goal, scenario, now);
            && RowsOk(cfg, r.world)
            && (forall t | t in r.log :: TaskOk(r.world, t))
  {
    hide Inv, LiveInv, RowsFit, HasLive;
    LiveInvHasInv(cfg, s);
    RowsAreOk(cfg, s);
    var r := DoCreate(cfg, s, task, goal, scenario, now);
    var row := NewRow(task, cfg.maxQueueAttempts, now);
    forall t | t in r.log ensures TaskOk(r.world, t) {
      if t == task {
        NoRowsFit(s.world.queue, task);
        AppendFits(s.world.queue, row, Completed, Queued);
      } else {
        LogIsOk(cfg, s, t);
        TaskIsOk(cfg, s, t);
        AppendOtherFits(s.world.queue, row, t, s.world.workflows[t].state.status);
        PendingApprovedSame(s.world, r.world, s.world.workflows[t].state);
      }
    }
  }

  lemma NoRowsFit(queue: seq<QueueRow>, task: TaskId)
    requires forall i | 0 <= i < |queue| :: queue[i].task != task
    ensures RowsFit(queue, task, Completed) && !HasLive(queue, task)
  {
  }

  lemma CreateKeepsLive(cfg: Config, s: Sys, task: TaskId, goal: string, scenario: string, now: real)
    requires cfg.Valid() && LiveInv(cfg, s)
    ensures LiveInv(cfg, DoCreate(cfg, s, task, goal, scenario, now))
  {
    hide Inv, InProcess, RowsFit, PendingApproved;
    if task !in s.world.workflows {
      LiveInvHasInv(cfg, s);
      CreateKeepsInv(cfg, s, task, goal, scenario, now);
      CreatedTasksOk(cfg, s, task, goal, scenario, now);
    }
  }

  /** A dead-lettered task has no live worker. */
  lemma NobodyWorksOnDeadLetters(cfg: Config, s: Sys, pid: nat, task: TaskId)
    requires cfg.Valid() && LiveInv(cfg, s) && task in s.world.workflows
    requires s.world.workflows[task].state.status.DeadLettered?
    requires pid in s.procs && s.procs[pid].Live()
    ensures s.procs[pid].task != task
  {
    hide Inv, LiveInv, RowsFit;
    HeldRowIsLive(cfg, s, pid);
  }

  lemma DeadRowMeansDeadLettered(cfg: Config, s: Sys, row: nat, task: TaskId)
    requires cfg.Valid() && LiveInv(cfg, s) && Replayable(s.world, row, task)
    ensures s.world.workflows[task].state.status.DeadLettered?
  {
    hide Inv, LiveInv, PendingApproved;
    TaskIsOk(cfg, s, task);
    assert DeadAt(s.world.queue, row, task);
  }

  lemma ReplayedWorkersOk(cfg: Config, s: Sys, r: Sys, row: nat, task: TaskId)
    requires cfg.Valid() && LiveInv(cfg, s) && Replayable(s.world, row, task) && r.procs == s.procs
    requires OneRowTouched(s.world.queue, r.world.queue, row)
    requires forall t | t in s.world.workflows && t != task :: t in r.world.workflows && r.world.workflows[t] == s.world.workflows[t]
    ensures forall i | i in r.procs :: WorkerOk(r.world, r.procs[i])
  {
    hide Inv, LiveInv, InProcess;
    DeadRowMeansDeadLettered(cfg, s, row, task);
    forall i | i in r.procs ensures WorkerOk(r.world, r.procs[i]) {
      WorkerIsOk(cfg, s, i);
      if s.procs[i].Live() {
        NobodyWorksOnDeadLetters(cfg, s, i, task);
      }
    }
  }

  function ReplayedRow(cfg: Config, task: TaskId, now: real): QueueRow {
    QueueRow(task, Pending, 0, cfg.maxQueueAttempts, now, None, None)
  }

  lemma ReplayedQueue(cfg: Config, s: Sys, row: nat, task: TaskId, now: real)
    requires cfg.Valid() && Replayable(s.world, row, task) && task in s.log
    ensures DoReplay(cfg, s, row, task, now).world.queue == s.world.queue[row := ReplayedRow(cfg, task, now)]
  {
    hide Apply;
  }

  lemma ReplayedTasksOk(cfg: Config, s: Sys, r: Sys, row: nat, task: TaskId, now: real)
    requires cfg.Valid() && LiveInv(cfg, s) && Replayable(s.world, row, task)
    requires r.world.queue == s.world.queue[row := ReplayedRow(cfg, task, now)]
    requires r.world.approvals == s.world.approvals
    requires r.log.Keys == s.log.Keys
    requires task in r.world.workflows && r.world.workflows == s.world.workflows[task := r.world.workflows[task]]
    requires r.world.workflows[task].state == Apply(cfg, s.world.workflows[task].state, Replay)
    ensures RowsOk(cfg, r.world) && forall t | t in r.log :: TaskOk(r.world, t)
  {
    hide Inv, LiveInv, RowsFit;
    LiveInvHasInv(cfg, s);
    RowsAreOk(cfg, s);
    DeadRowMeansDeadLettered(cfg, s, row, task);
    forall t | t in r.log ensures TaskOk(r.world, t) {
      LogIsOk(cfg, s, t);
      TaskIsOk(cfg, s, t);
      if t == task {
        DeadRowReturns(s.world.queue, row, ReplayedRow(cfg, task, now), Queued);
      } else {
        OtherTaskFits(s.world.queue, row, ReplayedRow(cfg, task, now), t, s.world.workflows[t].state.status);
      }
    }
  }

  lemma ReplayKeepsLive(cfg: Config, s: Sys, row: nat, task: TaskId, now: real)
    requires cfg.Valid() && LiveInv(cfg, s)
    ensures LiveInv(cfg, DoReplay(cfg, s, row, task, now))
  {
    hide DoReplay, Inv, Apply, TaskOk, WorkerOk, ReplaysOfDeadLetters, ValidLog, Linked;
    LiveInvHasInv(cfg, s);
    if Replayable(s.world, row, task) {
      ReplayKeepsInv(cfg, s, row, task, now);
      ReplayEffect(cfg, s, row, task, now);
      ReplayedQueue(cfg, s, row, task, now);
      LogIsOk(cfg, s, task);
      DeadRowMeansDeadLettered(cfg, s, row, task);
      var r := DoReplay(cfg, s, row, task, now);
      ReplayedTasksOk(cfg, s, r, row, task, now);
      ReplayedWorkersOk(cfg, s, r, row, task);
      ReplayLogsAreOk(cfg, s);
      ReplayLogsExtend(s.log, task, Commit(Replay, Apply(cfg, s.log[task][|s.log[task]| - 1].state, Replay)));
      ReplayLogsSpelledOut(r.log);
    } else {
      NoReplay(cfg, s, row, task, now);
    }
  }

  // ----- whole runs -----

  lemma AdvanceKeepsLive(cfg: Config, s: Sys, pid: nat, a: Answer, settling: Answer)
    requires cfg.Valid() && LiveInv(cfg, s) && WorkerLives(s, pid)
    ensures LiveInv(cfg, Take(cfg, s, Turn(Advance(pid, a), settling)))
  {
    hide DoAdvance, Drain, Inv, LiveInv, Do;
    if Settling(s.procs[pid].pc) {
      SettlementKeepsLive(cfg, s, pid, a);
    } else if s.procs[pid].pc.Saving? {
      CommitKeepsLive(cfg, s, pid, a);
    } else {
      QuietStepKeepsLive(cfg, s, pid, a);
    }
  }

  lemma TakeKeepsLive(cfg: Config, s: Sys, turn: Turn)
    requires cfg.Valid() && LiveInv(cfg, s)
    ensures LiveInv(cfg, Take(cfg, s, turn))
  {
    hide DoAdvance, Drain, Inv, LiveInv, DoClaim, DoCreate, DoReplay, DoCrash;
    if Permitted(s, turn.step) {
      match turn.step {
        case CreateIncident(task, goal, scenario, now) => CreateKeepsLive(cfg, s, task, goal, scenario, now);
        case ClaimNext(pid, worker, now) => ClaimKeepsLive(cfg, s, pid, worker, now);
        case Advance(pid, answer) => AdvanceKeepsLive(cfg, s, pid, answer, turn.settling);
        case Crash(pid) => CrashKeepsLive(cfg, s, pid);
        case Heartbeat(_, _) => HeartbeatKeepsLive(cfg, s, turn.step);
        case NoteHeartbeat(_) => HeartbeatKeepsLive(cfg, s, turn.step);
        case RequestApproval(pid, task) => RequestKeepsLive(cfg, s, pid, task, ToApprove, turn.settling);
        case RequestRejection(pid, task, error) => RequestKeepsLive(cfg, s, pid, task, ToReject(error), turn.settling);
        case ReplayRow(row, task, now) => ReplayKeepsLive(cfg, s, row, task, now);
      }
    }
  }

  lemma {:induction false} PlayKeepsLive(cfg: Config, turns: seq<Turn>)
    requires cfg.Valid()
    ensures LiveInv(cfg, Play(cfg, turns))
  {
    hide Take;
    if turns != [] {
      PlayKeepsLive(cfg, turns[..|turns| - 1]);
      TakeKeepsLive(cfg, Play(cfg, turns[..|turns| - 1]), turns[|turns| - 1]);
    }
  }

  /**
   The live-row theorem. After every disciplined run, whatever crashed inside `process`: a task has at
   most one live row, and exactly one while its workflow is queued or running; it has a dead row exactly
   when the workflow is dead-lettered, and then no live one; and an action of a queued or running
   workflow is approved.
   */
  lemma RowsAndWorkflowsAgree(cfg: Config, turns: seq<Turn>, s: Sys, task: TaskId)
    requires cfg.Valid() && PlayedBy(cfg, turns, s) && task in s.world.workflows
    ensures var w := s.world;
            var state := w.workflows[task].state;
            && AtMostOneLive(w.queue, task)
            && AtMostOneDead(w.queue, task)
            && (state.status.Queued? || state.status.Running? ==> HasLive(w.queue, task))
            && (state.status.DeadLettered? <==> HasDead(w.queue, task))
            && (HasDead(w.queue, task) ==> !HasLive(w.queue, task))
            && (state.pendingAction.Some? && (state.status.Queued? || state.status.Running?) ==>
                  IsApproved(w, task, state.pendingAction.value.actionId))
  {
    hide Play, Inv, LiveInv, PlayedBy;
    PlayedIsPlay(cfg, turns, s);
    PlayKeepsLive(cfg, turns);
    TaskIsOk(cfg, s, task);
    PlayInv(cfg, turns);
    LogIsOk(cfg, s, task);
    LastTask(cfg, task, s.log[task]);
  }

  /** No worker ever works from a checkpoint that is not the last, so no save of a worker is ever stale. */
  lemma WorkersAreNeverStale(cfg: Config, turns: seq<Turn>, s: Sys, pid: nat)
    requires cfg.Valid() && PlayedBy(cfg, turns, s) && WorkerLives(s, pid) && s.procs[pid].pc.Saving?
    ensures CommitsNow(s.world, s.procs[pid])
  {
    hide Play, Inv, LiveInv, PlayedBy;
    PlayedIsPlay(cfg, turns, s);
    PlayKeepsLive(cfg, turns);
    WorkerIsOk(cfg, s, pid);
    BaseIsLast(cfg, s, pid);
  }

  /** In disciplined runs only dead letters are replayed, so the loop guard has the last word. */
  lemma HistoriesStayPowerFree(cfg: Config, turns: seq<Turn>, s: Sys, task: TaskId)
    requires cfg.Valid() && cfg.maxToolCalls >= 1 && PlayedBy(cfg, turns, s) && task in s.world.workflows
    ensures var state := s.world.workflows[task].state;
            !state.status.LoopStopped? ==>
              |state.toolHistory| < cfg.maxToolCalls && PowerFree(state.toolHistory, cfg.repeatThreshold)
  {
    hide Play, Inv, LiveInv, PowerFree, ReplayFits, PlayedBy;
    PlayedIsPlay(cfg, turns, s);
    PlayKeepsLive(cfg, turns);
    PlayInv(cfg, turns);
    LogIsOk(cfg, s, task);
    ReplaysAreOk(cfg, s, task);
    var log := s.log[task];
    DeadLetterReplaysOnly(log);
    if !log[|log| - 1].state.status.LoopStopped? {
      AcceptedHistoriesArePowerFree(cfg, task, log, |log| - 1);
    }
  }

  lemma DeadLetterReplaysOnly(log: seq<Commit>)
    requires ReplaysOfDeadLetters(log)
    ensures LoopStopsAreFinal(log)
  {
    forall i: nat | 0 < i < |log| ensures !ReplayOf(log, i, LoopStopped) {
      assert ReplayFits(log, i);
    }
  }
}
