/** Who may hold a row, and when: leases, extensions and the heartbeat interval (store.py, worker.py). */
module Leases {
  import opened Prelude
  import opened Models
  import opened Tables
  import opened Checkpoints
  import opened Machine
  import opened System

  // ----- the heartbeat interval -----

  function Max(a: real, b: real): real {
    if a < b then b else a
  }

  function Min(a: real, b: real): real {
    if b < a then b else a
  }

  /** `max(0.1, min(queue_heartbeat_seconds, queue_lease_seconds / 2))`. */
  function HeartbeatInterval(heartbeatSeconds: real, leaseSeconds: real): real {
    Max(0.1, Min(heartbeatSeconds, leaseSeconds / 2.0))
  }

  /**
   A tenth of a second is the least; the interval is longer exactly if both the configured one and half the lease
   are, and then it is the longest that exceeds neither.
   */
  lemma IntervalIsExact(heartbeatSeconds: real, leaseSeconds: real)
    ensures var interval := HeartbeatInterval(heartbeatSeconds, leaseSeconds);
            && interval >= 0.1
            && (interval > 0.1 <==> heartbeatSeconds > 0.1 && leaseSeconds > 0.2)
            && (interval > 0.1 ==>
                  && interval <= heartbeatSeconds && 2.0 * interval <= leaseSeconds
                  && (interval == heartbeatSeconds || 2.0 * interval == leaseSeconds))
  {
  }

  /** Heartbeats come at least twice per lease, for every configured interval, exactly if the lease is 0.2 s or more. */
  lemma IntervalFitsLease(leaseSeconds: real)
    ensures leaseSeconds >= 0.2 <==>
              forall heartbeatSeconds: real :: HeartbeatInterval(heartbeatSeconds, leaseSeconds) <= leaseSeconds / 2.0
  {
    if leaseSeconds < 0.2 {
      assert HeartbeatInterval(0.0, leaseSeconds) == 0.1;
    }
  }

  // ----- runs from any state -----

  function RunFrom(cfg: Config, s: Sys, steps: seq<Step>): Sys
    requires cfg.repeatThreshold > 0
    decreases |steps|
  {
    if steps == [] then s else RunFrom(cfg, Do(cfg, s, steps[0]), steps[1..])
  }

  /** Acknowledging, retrying or replaying row `id`. */
  predicate SettlesRow(s: Sys, step: Step, id: nat) {
    || (step.ReplayRow? && step.row == id)
    || (&& step.Advance? && step.pid in s.procs
        && (s.procs[step.pid].pc.Acknowledging? || s.procs[step.pid].pc.Retrying?)
        && s.procs[step.pid].delivery.Some? && s.procs[step.pid].delivery.value.id == id)
  }

  predicate Extends(s: Sys, step: Step, id: nat) {
    step.Heartbeat? && HoldsDelivery(s, step.pid) && s.procs[step.pid].delivery.value.id == id
  }

  predicate HeldAt(s: Sys, id: nat) {
    id < |s.world.queue| && s.world.queue[id].status.Processing? && s.world.queue[id].leaseUntil.Some?
  }

  function LeaseOf(s: Sys, id: nat): real
    requires HeldAt(s, id)
  {
    s.world.queue[id].leaseUntil.value
  }

  lemma StepQueue(cfg: Config, w: World, p: Proc, a: Answer, id: nat)
    requires cfg.Valid() && id < |w.queue|
    requires (p.pc.Acknowledging? || p.pc.Retrying?) && p.delivery.Some? ==> p.delivery.value.id != id
    ensures var v := StepProc(cfg, w, p, a).0;
            id < |v.queue| && v.queue[id] == w.queue[id]
  {
    hide Effect, AfterLoad, AfterEngine, Execute, AfterSave, RetryRow, LookupStep, ResumeStep, EngineStep, AfterBackend;
  }

  /** What one step does to a leased row that it does not settle. */
  lemma HeldRowStep(cfg: Config, s: Sys, step: Step, id: nat)
    requires cfg.Valid() && HeldAt(s, id) && !SettlesRow(s, step, id)
    requires step.ClaimNext? ==> step.now <= LeaseOf(s, id)
    ensures var r := Do(cfg, s, step);
            && id < |r.world.queue|
            && r.world.queue[id] == s.world.queue[id].(leaseUntil :=
                 Some(if Extends(s, step, id) then step.now + cfg.leaseSeconds else LeaseOf(s, id)))
  {
    hide StepProc, LogAfter, SeenNow, Apply;
    if step.Advance? && step.pid in s.procs {
      StepQueue(cfg, s.world, s.procs[step.pid], step.answer, id);
    }
  }

  /** No step settles the row, and no claim comes after its lease. */
  ghost predicate Undisturbed(cfg: Config, s: Sys, steps: seq<Step>, id: nat)
    requires cfg.repeatThreshold > 0
    decreases |steps|
  {
    steps == [] ||
      (&& !SettlesRow(s, steps[0], id)
       && (steps[0].ClaimNext? && HeldAt(s, id) ==> steps[0].now <= LeaseOf(s, id))
       && Undisturbed(cfg, Do(cfg, s, steps[0]), steps[1..], id))
  }

  /**
   Lease exclusivity. As long as nobody settles a leased row and no claim is made after its last extended
   lease, it is not claimed again: its attempts, which every claim raises, and its worker stay.
   */
  lemma {:induction false} LeaseIsExclusive(cfg: Config, s: Sys, steps: seq<Step>, id: nat)
    requires cfg.Valid() && HeldAt(s, id) && Undisturbed(cfg, s, steps, id)
    ensures var r := RunFrom(cfg, s, steps);
            && HeldAt(r, id)
            && r.world.queue[id].attempts == s.world.queue[id].attempts
            && r.world.queue[id].worker == s.world.queue[id].worker
    decreases |steps|
  {
    hide Do;
    if steps != [] {
      HeldRowStep(cfg, s, steps[0], id);
      LeaseIsExclusive(cfg, Do(cfg, s, steps[0]), steps[1..], id);
    }
  }

  /** A claim that takes a row takes it from nobody, or after its lease. */
  lemma ClaimNeedsExpiry(cfg: Config, s: Sys, pid: nat, worker: string, now: real)
    requires cfg.Valid() && pid !in s.procs && pid in Do(cfg, s, ClaimNext(pid, worker, now)).procs
    ensures var r := Do(cfg, s, ClaimNext(pid, worker, now));
            && r.procs[pid].delivery.Some?
            && var id := r.procs[pid].delivery.value.id;
            && id < |s.world.queue|
            && (s.world.queue[id].status.Pending? || Expired(s.world.queue[id], now))
            && r.world.queue[id].attempts == s.world.queue[id].attempts + 1
            && r.world.queue[id].worker == Some(worker)
            && r.world.queue[id].leaseUntil == Some(now + cfg.leaseSeconds)
  {
  }

  // ----- heartbeats in time -----

  /**
   From `last`, the time of the claim or of the latest heartbeat on row `id`: no claim is made more than
   interval + late after it, and the row is not settled.
   */
  ghost predicate Prompt(cfg: Config, s: Sys, steps: seq<Step>, id: nat, interval: real, late: real, last: real)
    requires cfg.repeatThreshold > 0
    decreases |steps|
  {
    steps == [] ||
      (&& !SettlesRow(s, steps[0], id)
       && (steps[0].ClaimNext? ==> steps[0].now <= last + interval + late)
       && Prompt(cfg, Do(cfg, s, steps[0]), steps[1..], id, interval, late, if Extends(s, steps[0], id) then steps[0].now else last))
  }

  lemma {:induction false} PromptIsUndisturbed(cfg: Config, s: Sys, steps: seq<Step>, id: nat,
          interval: real, late: real, last: real)
    requires cfg.Valid() && HeldAt(s, id) && LeaseOf(s, id) == last + cfg.leaseSeconds
    requires interval + late <= cfg.leaseSeconds && Prompt(cfg, s, steps, id, interval, late, last)
    ensures Undisturbed(cfg, s, steps, id)
    decreases |steps|
  {
    hide Do;
    if steps != [] {
      HeldRowStep(cfg, s, steps[0], id);
      PromptIsUndisturbed(cfg, Do(cfg, s, steps[0]), steps[1..], id, interval, late,
                          if Extends(s, steps[0], id) then steps[0].now else last);
    }
  }

  /**
   A worker whose heartbeats are never more than half a lease late is never overtaken, for any
   configured heartbeat interval, when the lease is at least 0.2 s.
   */
  lemma PromptWorkersAreNotOvertaken(cfg: Config, s: Sys, pid: nat, worker: string, now: real,
          steps: seq<Step>, heartbeatSeconds: real, late: real)
    requires cfg.Valid() && cfg.leaseSeconds >= 0.2 && late <= cfg.leaseSeconds / 2.0
    requires pid !in s.procs && pid in Do(cfg, s, ClaimNext(pid, worker, now)).procs
    requires var claimed := Do(cfg, s, ClaimNext(pid, worker, now));
             claimed.procs[pid].delivery.Some? &&
             Prompt(cfg, claimed, steps, claimed.procs[pid].delivery.value.id,
                    HeartbeatInterval(heartbeatSeconds, cfg.leaseSeconds), late, now)
    ensures var claimed := Do(cfg, s, ClaimNext(pid, worker, now));
            var id := claimed.procs[pid].delivery.value.id;
            var r := RunFrom(cfg, claimed, steps);
            && HeldAt(r, id)
            && r.world.queue[id].attempts == s.world.queue[id].attempts + 1 && r.world.queue[id].worker == Some(worker)
  {
    hide Run, Prompt, Undisturbed, RunFrom;
    ClaimNeedsExpiry(cfg, s, pid, worker, now);
    ClaimHolds(cfg, s, pid, worker, now);
    IntervalFitsLease(cfg.leaseSeconds);
    var claimed := Do(cfg, s, ClaimNext(pid, worker, now));
    var id := claimed.procs[pid].delivery.value.id;
    PromptIsUndisturbed(cfg, claimed, steps, id, HeartbeatInterval(heartbeatSeconds, cfg.leaseSeconds), late, now);
    LeaseIsExclusive(cfg, claimed, steps, id);
  }

  lemma ClaimHolds(cfg: Config, s: Sys, pid: nat, worker: string, now: real)
    requires cfg.Valid() && pid !in s.procs && pid in Do(cfg, s, ClaimNext(pid, worker, now)).procs
    ensures var r := Do(cfg, s, ClaimNext(pid, worker, now));
            r.procs[pid].delivery.Some? && HeldAt(r, r.procs[pid].delivery.value.id)
  {
  }
}
