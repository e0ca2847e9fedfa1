/** Prompt heartbeats of all live workers are what the first operating hypothesis asks for. */
module Promptness {
  import opened Prelude
  import opened Models
  import opened Tables
  import opened Checkpoints
  import opened Machine
  import opened System
  import opened Refinement
  import opened Discipline
  import opened LiveRows
  import opened LiveTurns
  import opened LiveRuns
  import opened Leases

  /** When each process last showed itself: by its claim, or by a heartbeat. */
  function BeatsAfter(s: Sys, r: Sys, step: Step, beats: map<nat, real>): map<nat, real> {
    match step
    case ClaimNext(pid, _, now) => if pid in r.procs && pid !in s.procs then beats[pid := now] else beats
    case Heartbeat(pid, now) => if HoldsDelivery(s, pid) then beats[pid := now] else beats
    case _ => beats
  }

  function BeatsAt(turns: seq<Turn>, trace: seq<Sys>, i: nat): map<nat, real>
    requires i <= |turns| && |trace| == |turns| + 1
  {
    if i == 0 then map[] else BeatsAfter(trace[i - 1], trace[i], turns[i - 1].step, BeatsAt(turns, trace, i - 1))
  }

  /** At this time no live worker was silent for longer. */
  predicate AllPrompt(s: Sys, beats: map<nat, real>, now: real, silence: real) {
    forall pid | WorkerLives(s, pid) && pid in beats :: now <= beats[pid] + silence
  }

  /** The lease of a live worker runs from when it last showed itself. */
  predicate LeasedSince(cfg: Config, s: Sys, pid: nat, beats: map<nat, real>) {
    WorkerLives(s, pid) && s.procs[pid].delivery.Some? ==>
      && pid in beats && s.procs[pid].delivery.value.id < |s.world.queue|
      && s.world.queue[s.procs[pid].delivery.value.id].leaseUntil == Some(beats[pid] + cfg.leaseSeconds)
  }

  ghost predicate AllLeasedSince(cfg: Config, s: Sys, beats: map<nat, real>) {
    forall pid | pid in s.procs :: LeasedSince(cfg, s, pid, beats)
  }

  /** A worker that goes on has the same delivery and the same row. */
  ghost predicate KeepsRow(s: Sys, r: Sys, pid: nat) {
    WorkerLives(r, pid) && r.procs[pid].delivery.Some? ==>
      && WorkerLives(s, pid) && s.procs[pid].delivery == r.procs[pid].delivery
      && s.procs[pid].delivery.value.id < |s.world.queue| <= |r.world.queue|
      && r.world.queue[s.procs[pid].delivery.value.id] == s.world.queue[s.procs[pid].delivery.value.id]
  }

  lemma RowOfWorker(cfg: Config, s: Sys, pid: nat)
    requires cfg.Valid() && LiveInv(cfg, s) && WorkerLives(s, pid)
    ensures s.procs[pid].delivery.Some? && s.procs[pid].delivery.value.id < |s.world.queue|
    ensures s.world.queue[s.procs[pid].delivery.value.id].status.Processing?
  {
    hide LiveInv, InProcess;
    WorkerIsOk(cfg, s, pid);
  }

  lemma AdvanceKeepsRows(cfg: Config, s: Sys, p: nat, a: Answer, settling: Answer, pid: nat)
    requires cfg.Valid() && LiveInv(cfg, s) && WorkerLives(s, p)
    ensures KeepsRow(s, Take(cfg, s, Turn(Advance(p, a), settling)), pid)
  {
    hide DoAdvance, Drain, LiveInv, Apply, AfterSave, InProcess, WorkerOk, TaskOk, SettlesLog, HeadsBack;
    if Settling(s.procs[p].pc) {
      EverySettlement(cfg, s, p, a);
    } else if s.procs[p].pc.Saving? {
      CommitKeepsTasks(cfg, s, p, a);
    } else {
      QuietStepShape(cfg, s, p, a);
    }
    if pid in s.procs && s.procs[pid].Live() {
      RowOfWorker(cfg, s, pid);
      if pid != p {
        WorkersAreExclusive(cfg, s, pid, p);
      }
    }
  }

  lemma RequestKeepsRows(cfg: Config, s: Sys, p: nat, task: TaskId, purpose: Purpose, a: Answer, pid: nat)
    requires cfg.Valid() && LiveInv(cfg, s) && RequestPurpose(purpose) && p !in s.procs
    ensures KeepsRow(s, Drain(cfg, DoRequest(s, p, task, purpose), p, a, SETTLEMENT_STEPS), pid)
  {
    hide DoAdvance, Drain, Inv, LiveInv, Apply, MayResolve, HasLive;
    LiveInvHasInv(cfg, s);
    RequestKeepsInv(cfg, s, p, task, purpose);
    var t := DoRequest(s, p, task, purpose);
    if MayResolve(s.world, task) {
      RequestResolves(cfg, t, p, a, task, purpose);
    } else {
      RequestRefused(cfg, t, p, a, task, purpose);
    }
    if pid in s.procs && s.procs[pid].Live() {
      RowOfWorker(cfg, s, pid);
    }
  }

  lemma PlainKeepsRows(cfg: Config, s: Sys, step: Step, pid: nat)
    requires cfg.Valid() && LiveInv(cfg, s)
    requires (step.CreateIncident? || step.Crash? || step.NoteHeartbeat? || step.ReplayRow?)
    ensures KeepsRow(s, Do(cfg, s, step), pid)
  {
    hide DoAdvance, DoClaim, LiveInv, Apply, LostByCrash;
    if pid in s.procs && s.procs[pid].Live() {
      RowOfWorker(cfg, s, pid);
    }
  }

  lemma BeatKeepsLeased(cfg: Config, s: Sys, p: nat, now: real, beats: map<nat, real>)
    requires cfg.Valid() && LiveInv(cfg, s) && AllLeasedSince(cfg, s, beats)
    ensures var r := Do(cfg, s, Heartbeat(p, now));
            AllLeasedSince(cfg, r, BeatsAfter(s, r, Heartbeat(p, now), beats))
  {
    hide LiveInv;
    var r := Do(cfg, s, Heartbeat(p, now));
    var after := BeatsAfter(s, r, Heartbeat(p, now), beats);
    forall pid | pid in r.procs ensures LeasedSince(cfg, r, pid, after) {
      assert LeasedSince(cfg, s, pid, beats);
      if WorkerLives(s, pid) {
        RowOfWorker(cfg, s, pid);
        if HoldsDelivery(s, p) && pid != p {
          WorkersAreExclusive(cfg, s, pid, p);
        }
      }
    }
  }

  lemma ClaimKeepsLeased(cfg: Config, s: Sys, p: nat, worker: string, now: real, beats: map<nat, real>)
    requires cfg.Valid() && LiveInv(cfg, s) && AllLeasedSince(cfg, s, beats) && Permitted(s, ClaimNext(p, worker, now))
    ensures var r := Do(cfg, s, ClaimNext(p, worker, now));
            AllLeasedSince(cfg, r, BeatsAfter(s, r, ClaimNext(p, worker, now), beats))
  {
    hide LiveInv, Claim;
    var r := Do(cfg, s, ClaimNext(p, worker, now));
    var after := BeatsAfter(s, r, ClaimNext(p, worker, now), beats);
    ClaimTakesLease(cfg, s.world, worker, now);
    forall pid | pid in r.procs ensures LeasedSince(cfg, r, pid, after) {
      if pid in s.procs && WorkerLives(s, pid) {
        assert LeasedSince(cfg, s, pid, beats) && !LeaseLost(s, pid, now);
        RowOfWorker(cfg, s, pid);
        ClaimLeavesHeldRow(cfg, s.world, worker, cfg.leaseSeconds, now, s.procs[pid].delivery.value.id);
      }
    }
  }

  lemma ClaimTakesLease(cfg: Config, w: World, worker: string, now: real)
    ensures var (v, d) := Claim(w, worker, cfg.leaseSeconds, now);
            d.Some? ==> d.value.id < |v.queue| && v.queue[d.value.id].leaseUntil == Some(now + cfg.leaseSeconds)
  {
  }

  lemma KeptRowsStayLeased(cfg: Config, s: Sys, r: Sys, beats: map<nat, real>)
    requires AllLeasedSince(cfg, s, beats) && forall pid :: KeepsRow(s, r, pid)
    ensures AllLeasedSince(cfg, r, beats)
  {
    forall pid | pid in r.procs ensures LeasedSince(cfg, r, pid, beats) {
      assert KeepsRow(s, r, pid);
      assert pid in s.procs ==> LeasedSince(cfg, s, pid, beats);
    }
  }

  lemma TakeKeepsLeased(cfg: Config, s: Sys, turn: Turn, beats: map<nat, real>)
    requires cfg.Valid() && LiveInv(cfg, s) && AllLeasedSince(cfg, s, beats)
    ensures var r := Take(cfg, s, turn);
            AllLeasedSince(cfg, r, BeatsAfter(s, r, turn.step, beats))
  {
    hide DoAdvance, Drain, LiveInv, DoClaim, DoCreate, DoReplay, DoCrash, DoRequest, KeepsRow, LeasedSince;
    var r := Take(cfg, s, turn);
    if !Permitted(s, turn.step) {
    } else if turn.step.ClaimNext? {
      ClaimKeepsLeased(cfg, s, turn.step.pid, turn.step.worker, turn.step.now, beats);
    } else if turn.step.Heartbeat? {
      BeatKeepsLeased(cfg, s, turn.step.pid, turn.step.now, beats);
    } else {
      forall pid ensures KeepsRow(s, r, pid) {
        match turn.step {
          case Advance(p, a) => AdvanceKeepsRows(cfg, s, p, a, turn.settling, pid);
          case RequestApproval(p, task) => RequestKeepsRows(cfg, s, p, task, ToApprove, turn.settling, pid);
          case RequestRejection(p, task, error) => RequestKeepsRows(cfg, s, p, task, ToReject(error), turn.settling, pid);
          case _ => PlainKeepsRows(cfg, s, turn.step, pid);
        }
      }
      KeptRowsStayLeased(cfg, s, r, beats);
    }
  }

  lemma {:induction false} PlayKeepsLeased(cfg: Config, turns: seq<Turn>, trace: seq<Sys>, i: nat)
    requires cfg.Valid() && IsPlay(cfg, turns, trace) && i <= |turns|
    ensures LiveInv(cfg, trace[i]) && AllLeasedSince(cfg, trace[i], BeatsAt(turns, trace, i))
  {
    hide Take, LeasedSince, BeatsAfter;
    if i == 0 {
      PlayKeepsLive(cfg, []);
    } else {
      PlayKeepsLeased(cfg, turns, trace, i - 1);
      assert TurnAt(cfg, turns, trace, i - 1);
      TakeKeepsLive(cfg, trace[i - 1], turns[i - 1]);
      TakeKeepsLeased(cfg, trace[i - 1], turns[i - 1], BeatsAt(turns, trace, i - 1));
    }
  }

  /**
   The first hypothesis is met by prompt heartbeats. In a disciplined run a claim by a new worker is permitted
   if every live worker was claimed for, or beat, no longer ago than the interval and half a lease, for any
   configured heartbeat interval, when the lease is at least 0.2 s.
   */
  lemma PromptClaimsArePermitted(cfg: Config, turns: seq<Turn>, trace: seq<Sys>, i: nat,
          heartbeatSeconds: real, late: real)
    requires cfg.Valid() && cfg.leaseSeconds >= 0.2 && late <= cfg.leaseSeconds / 2.0
    requires IsPlay(cfg, turns, trace) && i < |turns| && turns[i].step.ClaimNext?
    requires turns[i].step.pid !in trace[i].procs
    requires AllPrompt(trace[i], BeatsAt(turns, trace, i), turns[i].step.now,
                       HeartbeatInterval(heartbeatSeconds, cfg.leaseSeconds) + late)
    ensures Permitted(trace[i], turns[i].step)
  {
    hide LiveInv, TurnAt, HeartbeatInterval;
    PlayKeepsLeased(cfg, turns, trace, i);
    IntervalFitsLease(cfg.leaseSeconds);
    forall holder | holder in trace[i].procs ensures !LeaseLost(trace[i], holder, turns[i].step.now) {
      assert LeasedSince(cfg, trace[i], holder, BeatsAt(turns, trace, i));
    }
  }
}
