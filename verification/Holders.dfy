/**
 Who holds a row of the queue, in every run in which no claim finds its lease run out: at most one
 process that has not settled, and the row is processing with the attempts that process was given.
 */
module Holders {
  import opened Prelude
  import opened Models
  import opened Tables
  import opened Checkpoints
  import opened Machine
  import opened System
  import opened Refinement
  import opened LiveRows
  import opened LiveRuns
  import opened Leases
  import opened Solo

  /** A worker that still owes the settlement of its delivery. */
  predicate Unsettled(pc: Pc) {
    match pc
    case Loading(purpose) => purpose.ToProcess?
    case Saving(m) => !(m.DeadLetter? || m.FailDelivery? || m.Approve? || m.Reject?)
    case Emitting(_, next) => Unsettled(next)
    case Enqueuing => false
    case Resolving(_, _, _) => false
    case Halted => false
    case _ => true
  }

  predicate Holds(p: Proc, id: nat) {
    Unsettled(p.pc) && p.delivery.Some? && p.delivery.value.id == id
  }

  ghost predicate WellHeld(s: Sys, id: nat) {
    && (forall pid | pid in s.procs && Holds(s.procs[pid], id) :: RowHeld(s.world.queue, s.procs[pid]))
    && (forall i, j | i in s.procs && j in s.procs && Holds(s.procs[i], id) && Holds(s.procs[j], id) :: i == j)
  }

  /** A claim does not find the lease of the row run out. */
  predicate KeepsLease(s: Sys, step: Step, id: nat) {
    step.ClaimNext? && id < |s.world.queue| ==> !Expired(s.world.queue[id], step.now)
  }

  // ----- one step of a process -----

  /** Nobody begins to owe a settlement, and nobody owes one after settling. */
  lemma SettlesOnce(cfg: Config, w: World, p: Proc, a: Answer)
    requires cfg.Valid()
    ensures Unsettled(StepProc(cfg, w, p, a).1.pc) ==> Unsettled(p.pc) && !p.pc.Acknowledging? && !p.pc.Retrying?
  {
    hide Effect, RetryRow, Enqueue, RequestReason, ValidatedRequest, Execute, AfterEngine, AfterBackend;
    var q := StepProc(cfg, w, p, a).1;
    if p.pc.Saving? {
      SaveKeepsOwing(cfg, p.task, p.pc.move);
    }
  }

  lemma SaveKeepsOwing(cfg: Config, task: TaskId, m: Move)
    requires cfg.Valid()
    ensures Unsettled(AfterSave(cfg, task, m)) ==> Unsettled(Saving(m))
    ensures Unsettled(AfterStale(m)) ==> Unsettled(Saving(m))
  {
    hide AfterAccept;
    var next := AfterSave(cfg, task, m);
    if next.Emitting? {
      assert Unsettled(next.next) ==> Unsettled(Saving(m));
    }
  }

  lemma OthersHoldAsBefore(s: Sys, r: Sys, pid: nat, id: nat)
    requires WellHeld(s, id) && pid in s.procs && pid in r.procs && r.procs == s.procs[pid := r.procs[pid]]
    requires r.procs[pid].task == s.procs[pid].task && r.procs[pid].delivery == s.procs[pid].delivery
    requires Unsettled(r.procs[pid].pc) ==> Unsettled(s.procs[pid].pc)
    requires id < |s.world.queue| ==> id < |r.world.queue| && r.world.queue[id] == s.world.queue[id]
    ensures WellHeld(r, id)
  {
  }

  lemma SettledHoldsNothing(s: Sys, r: Sys, pid: nat, id: nat)
    requires WellHeld(s, id) && pid in s.procs && pid in r.procs && r.procs == s.procs[pid := r.procs[pid]]
    requires Holds(s.procs[pid], id) && !Unsettled(r.procs[pid].pc)
    ensures WellHeld(r, id)
  {
  }

  lemma AdvanceKeepsHolders(cfg: Config, s: Sys, pid: nat, a: Answer, id: nat)
    requires cfg.Valid() && WellHeld(s, id) && pid in s.procs
    ensures WellHeld(DoAdvance(cfg, s, pid, a), id)
  {
    hide StepProc, LogAfter, SeenNow, WellHeld, RowHeld, Unsettled;
    var p := s.procs[pid];
    StepFrame(cfg, s.world, p, a);
    SettlesOnce(cfg, s.world, p, a);
    var settles := (p.pc.Acknowledging? || p.pc.Retrying?) && p.delivery.Some? && p.delivery.value.id == id;
    if settles {
      SettlersOwe(p.pc);
      SettledHoldsNothing(s, DoAdvance(cfg, s, pid, a), pid, id);
    } else {
      if id < |s.world.queue| {
        StepQueue(cfg, s.world, p, a, id);
      }
      OthersHoldAsBefore(s, DoAdvance(cfg, s, pid, a), pid, id);
    }
  }

  lemma SettlersOwe(pc: Pc)
    requires pc.Acknowledging? || pc.Retrying?
    ensures Unsettled(pc)
  {
  }

  // ----- the other steps -----

  lemma ClaimKeepsHolders(cfg: Config, s: Sys, pid: nat, worker: string, now: real, id: nat)
    requires cfg.Valid() && WellHeld(s, id) && KeepsLease(s, ClaimNext(pid, worker, now), id)
    ensures WellHeld(DoClaim(cfg, s, pid, worker, now), id)
  {
    hide FirstClaimable, ReleaseExpired;
  }

  lemma PlainKeepsHolders(cfg: Config, s: Sys, step: Step, id: nat)
    requires cfg.Valid() && WellHeld(s, id)
    requires step.Crash? || step.Heartbeat? || step.NoteHeartbeat? || step.CreateIncident? || step.RequestApproval? || step.RequestRejection?
    ensures WellHeld(Do(cfg, s, step), id)
  {
    hide DoAdvance, DoClaim, DoReplay, LostByCrash;
  }

  lemma ReplayKeepsHolders(cfg: Config, s: Sys, row: nat, task: TaskId, now: real, id: nat)
    requires cfg.Valid() && WellHeld(s, id)
    ensures WellHeld(DoReplay(cfg, s, row, task, now), id)
  {
    hide Apply;
  }

  lemma DoKeepsHolders(cfg: Config, s: Sys, step: Step, id: nat)
    requires cfg.Valid() && WellHeld(s, id) && KeepsLease(s, step, id)
    ensures WellHeld(Do(cfg, s, step), id)
  {
    hide DoAdvance, DoClaim, DoReplay, DoCreate, DoCrash, DoRequest, WellHeld, KeepsLease;
    match step {
      case Advance(pid, a) =>
        if pid in s.procs {
          AdvanceKeepsHolders(cfg, s, pid, a, id);
        } else {
          NobodyAdvances(cfg, s, pid, a);
        }
      case ClaimNext(pid, worker, now) => ClaimKeepsHolders(cfg, s, pid, worker, now, id);
      case ReplayRow(row, task, now) => ReplayKeepsHolders(cfg, s, row, task, now, id);
      case _ => PlainKeepsHolders(cfg, s, step, id);
    }
  }

  // ----- what one step does to one row -----

  function RetriedRow(cfg: Config, row: QueueRow, now: real): QueueRow {
    row.(status := Pending, availableAt := now + RetryDelay(cfg.retryBaseSeconds, row.attempts), leaseUntil := None, worker := None)
  }

  predicate ClaimedAs(cfg: Config, row: QueueRow, next: QueueRow, now: real, worker: string) {
    Claimable(Released(row, now), now) && next == TakenRow(Released(row, now), worker, now + cfg.leaseSeconds)
  }

  /** The ways row `id` can change in one step. */
  predicate RowMoves(cfg: Config, row: QueueRow, next: QueueRow, step: Step, id: nat) {
    || next == row
    || (row.status.Processing? && next == row.(leaseUntil := next.leaseUntil))
    || (row.status.Processing? && !next.Live())
    || (step.ClaimNext? && (next == Released(row, step.now) || ClaimedAs(cfg, row, next, step.now, step.worker)))
    || (step.Advance? && row.status.Processing? && row.attempts < row.maxAttempts && next == RetriedRow(cfg, row, step.answer.now))
    || (step.ReplayRow? && step.row == id && row.status.Dead? && next == ReplayedRow(cfg, row.task, step.now))
  }

  lemma SettledRowMoves(cfg: Config, s: Sys, pid: nat, a: Answer, id: nat)
    requires cfg.Valid() && WellHeld(s, id) && pid in s.procs && id < |s.world.queue|
    requires (s.procs[pid].pc.Acknowledging? || s.procs[pid].pc.Retrying?) && Holds(s.procs[pid], id)
    ensures var v := StepProc(cfg, s.world, s.procs[pid], a).0;
            id < |v.queue| && RowMoves(cfg, s.world.queue[id], v.queue[id], Advance(pid, a), id)
  {
    hide StepProc, RetryDelay;
    if s.procs[pid].pc.Retrying? {
      OnRetry(cfg, s.world, s.procs[pid], a);
    } else {
      OnAcknowledge(cfg, s.world, s.procs[pid], a);
    }
  }

  lemma AdvancedRowMoves(cfg: Config, s: Sys, pid: nat, a: Answer, id: nat)
    requires cfg.Valid() && WellHeld(s, id) && pid in s.procs && id < |s.world.queue|
    ensures var r := DoAdvance(cfg, s, pid, a);
            id < |r.world.queue| && RowMoves(cfg, s.world.queue[id], r.world.queue[id], Advance(pid, a), id)
  {
    hide StepProc, LogAfter, SeenNow, WellHeld, RetryDelay;
    var p := s.procs[pid];
    if (p.pc.Acknowledging? || p.pc.Retrying?) && p.delivery.Some? && p.delivery.value.id == id {
      SettledRowMoves(cfg, s, pid, a, id);
    } else {
      StepQueue(cfg, s.world, p, a, id);
    }
  }

  lemma ClaimedRowMoves(cfg: Config, w: World, worker: string, now: real, id: nat)
    requires id < |w.queue|
    ensures var (v, d) := Claim(w, worker, cfg.leaseSeconds, now);
            && id < |v.queue|
            && (v.queue[id] == Released(w.queue[id], now) || ClaimedAs(cfg, w.queue[id], v.queue[id], now, worker))
            && (d.Some? ==> d.value.id < |w.queue|)
            && (d.Some? && d.value.id == id ==> ClaimedAs(cfg, w.queue[id], v.queue[id], now, worker))
            && (d.Some? && Claimable(w.queue[id], now) ==> d.value.id <= id)
            && (Claimable(w.queue[id], now) ==> d.Some?)
  {
  }

  lemma PlainRowMoves(cfg: Config, s: Sys, step: Step, id: nat)
    requires cfg.Valid() && id < |s.world.queue| && !step.Advance?
    ensures var r := Do(cfg, s, step);
            id < |r.world.queue| && RowMoves(cfg, s.world.queue[id], r.world.queue[id], step, id)
  {
    hide DoAdvance, Claim, Apply, LostByCrash, ClaimedAs, Released;
    if step.ClaimNext? {
      ClaimedRowMoves(cfg, s.world, step.worker, step.now, id);
    }
  }

  lemma RowStep(cfg: Config, s: Sys, step: Step, id: nat)
    requires cfg.Valid() && WellHeld(s, id) && id < |s.world.queue|
    ensures var r := Do(cfg, s, step);
            id < |r.world.queue| && RowMoves(cfg, s.world.queue[id], r.world.queue[id], step, id)
  {
    hide DoAdvance, DoClaim, DoReplay, DoCreate, DoCrash, DoRequest, WellHeld, RowMoves;
    if step.Advance? && step.pid in s.procs {
      AdvancedRowMoves(cfg, s, step.pid, step.answer, id);
    } else if step.Advance? {
      NobodyAdvances(cfg, s, step.pid, step.answer);
      RowStands(cfg, s.world.queue[id], step, id);
    } else {
      PlainRowMoves(cfg, s, step, id);
    }
  }

  lemma RowStands(cfg: Config, row: QueueRow, step: Step, id: nat)
    ensures RowMoves(cfg, row, row, step, id)
  {
  }

  predicate Untouched(cfg: Config, row: QueueRow) {
    row.status.Pending? && row.attempts == 0 && row.maxAttempts == cfg.maxQueueAttempts
  }

  lemma StepAppends(cfg: Config, w: World, p: Proc, a: Answer, id: nat)
    requires cfg.Valid() && |w.queue| <= id < |StepProc(cfg, w, p, a).0.queue|
    ensures Untouched(cfg, StepProc(cfg, w, p, a).0.queue[id])
  {
    hide LoadStep, EngineStep, ResumeStep, LookupStep, Effect, AfterSave, AfterBackend, RetryRow;
  }

  lemma NewRowsUntouched(cfg: Config, s: Sys, step: Step, id: nat)
    requires cfg.Valid() && |s.world.queue| <= id < |Do(cfg, s, step).world.queue|
    ensures Untouched(cfg, Do(cfg, s, step).world.queue[id])
  {
    hide StepProc, LogAfter, SeenNow, Apply, LostByCrash;
    if step.Advance? {
      StepAppends(cfg, s.world, s.procs[step.pid], step.answer, id);
    }
  }
}
