/** From every state of a disciplined run a worker can get hold of the live row of a task, while the others go on. */
module Claims {
  import opened Prelude
  import opened Models
  import opened Tables
  import opened Machine
  import opened System
  import opened Discipline
  import opened LiveRows
  import opened LiveTurns
  import opened Reference
  import opened ReferenceRuns
  import opened Solo
  import opened Paths
  import opened FaithfulPlay

  const ANYBODY: string := "worker"

  ghost predicate NobodyOn(s: Sys, task: TaskId) {
    forall pid | pid in s.procs && s.procs[pid].Live() :: s.procs[pid].task != task
  }

  /** A claim at `now` may take the row. */
  predicate DueAt(queue: seq<QueueRow>, id: nat, task: TaskId, attempts: nat, now: real) {
    && id < |queue| && queue[id].task == task && queue[id].attempts == attempts
    && Claimable(Released(queue[id], now), now)
  }

  /** Only the queue and the processes differ, and nobody begins to work on the task. */
  ghost predicate SameBesidesQueue(s: Sys, r: Sys) {
    r.world == s.world.(queue := r.world.queue)
  }

  /** An answer of someone who is not asked. */
  function Idle(now: real): Answer {
    Answer(EngineRetryable(""), BackendRetryable(""), now)
  }

  // ----- the worker of the task gives up -----

  lemma Abandons(cfg: Config, fx: Option<Fixtures>, calm: bool, s: Sys, task: TaskId, now: real) returns (r: Sys)
    requires cfg.Valid() && Sound(cfg, fx, s) && (calm ==> NobodyOn(s, task))
    ensures Onward(cfg, fx, At(now, calm), s, r) && Sound(cfg, fx, r) && NobodyOn(r, task) && r.world == s.world
  {
    hide LiveInv, Onward, HonestTurn, LeasesSet, ReferenceInv, LostByCrash;
    OnwardSelf(cfg, fx, At(now, calm), s);
    if NobodyOn(s, task) {
      r := s;
    } else {
      var pid :| pid in s.procs && s.procs[pid].Live() && s.procs[pid].task == task;
      var turn := Turn(Crash(pid), Idle(now));
      CrashIsHonest(fx, s, turn);
      r := Take(cfg, s, turn);
      TakeKeepsSound(cfg, fx, s, turn);
      OnwardTurn(cfg, fx, At(now, calm), s, s, turn);
      forall i | i in r.procs && r.procs[i].Live() ensures r.procs[i].task != task {
        if r.procs[i].task == task {
          OneWorkerPerTask(cfg, s, i, pid);
        }
      }
    }
  }

  lemma CrashIsHonest(fx: Option<Fixtures>, s: Sys, turn: Turn)
    requires turn.step.Crash? || turn.step.Heartbeat? || turn.step.ClaimNext? || turn.step.RequestApproval?
    ensures HonestTurn(fx, s, turn)
  {
  }

  // ----- the other workers keep their leases -----

  ghost function Overdue(s: Sys, now: real): set<nat> {
    set pid | pid in s.procs && LeaseLost(s, pid, now)
  }

  /** A heartbeat at `now` keeps the row of one worker from a claim at `now`, and no other row changes. */
  lemma BeatHelps(cfg: Config, s: Sys, pid: nat, now: real)
    requires cfg.Valid() && LiveInv(cfg, s) && cfg.leaseSeconds >= 0.0 && LeaseLost(s, pid, now)
    ensures var r := Do(cfg, s, Heartbeat(pid, now));
            && r.procs == s.procs && SameBesidesQueue(s, r)
            && OneRowTouched(s.world.queue, r.world.queue, s.procs[pid].delivery.value.id)
            && Overdue(r, now) == Overdue(s, now) - {pid}
  {
    hide LiveInv, InProcess;
    WorkerIsOk(cfg, s, pid);
    var r := Do(cfg, s, Heartbeat(pid, now));
    forall i | i in s.procs && i != pid ensures LeaseLost(r, i, now) <==> LeaseLost(s, i, now) {
      if s.procs[i].Live() {
        WorkersAreExclusive(cfg, s, i, pid);
      }
    }
  }

  lemma OthersHoldOthers(cfg: Config, s: Sys, pid: nat, id: nat, task: TaskId)
    requires cfg.Valid() && LiveInv(cfg, s) && NobodyOn(s, task) && WorkerLives(s, pid)
    requires id < |s.world.queue| && s.world.queue[id].task == task
    ensures s.procs[pid].delivery.Some? && s.procs[pid].delivery.value.id != id
  {
    hide LiveInv, InProcess;
    WorkerIsOk(cfg, s, pid);
  }

  lemma {:induction false} Beats(cfg: Config, fx: Option<Fixtures>, calm: bool, s: Sys, id: nat, task: TaskId,
          attempts: nat, now: real)
    returns (r: Sys)
    requires cfg.Valid() && Sound(cfg, fx, s) && cfg.leaseSeconds >= 0.0
    requires NobodyOn(s, task) && DueAt(s.world.queue, id, task, attempts, now)
    ensures Onward(cfg, fx, At(now, calm), s, r) && Sound(cfg, fx, r) && Overdue(r, now) == {}
    ensures NobodyOn(r, task) && DueAt(r.world.queue, id, task, attempts, now) && SameBesidesQueue(s, r)
    decreases |Overdue(s, now)|
  {
    hide LiveInv, Onward, HonestTurn, LeasesSet, ReferenceInv, LeaseLost;
    if Overdue(s, now) == {} {
      OnwardSelf(cfg, fx, At(now, calm), s);
      r := s;
    } else {
      var pid :| pid in Overdue(s, now);
      var turn := Turn(Heartbeat(pid, now), Idle(now));
      CrashIsHonest(fx, s, turn);
      LateLives(s, pid, now);
      BeatHelps(cfg, s, pid, now);
      OthersHoldOthers(cfg, s, pid, id, task);
      TakeKeepsSound(cfg, fx, s, turn);
      var t := Take(cfg, s, turn);
      r := Beats(cfg, fx, calm, t, id, task, attempts, now);
      OnwardFirst(cfg, fx, At(now, calm), s, turn, r);
    }
  }

  lemma LateLives(s: Sys, pid: nat, now: real)
    requires LeaseLost(s, pid, now)
    ensures WorkerLives(s, pid)
  {
  }

  // ----- claims, until it is the turn of the row -----

  ghost function Earlier(queue: seq<QueueRow>, id: nat, now: real): set<int>
    requires id <= |queue|
  {
    set j | 0 <= j < id && Claimable(Released(queue[j], now), now)
  }

  /** One claim takes the row, or one that precedes it. */
  lemma ClaimsInOrder(cfg: Config, s: Sys, pid: nat, id: nat, task: TaskId, attempts: nat, now: real)
    requires cfg.Valid() && LiveInv(cfg, s) && cfg.leaseSeconds >= 0.0 && pid !in s.procs && Overdue(s, now) == {}
    requires NobodyOn(s, task) && DueAt(s.world.queue, id, task, attempts, now)
    ensures var r := Do(cfg, s, ClaimNext(pid, ANYBODY, now));
            && SameBesidesQueue(s, r) && Overdue(r, now) == {}
            && pid in r.procs && r.procs == s.procs[pid := r.procs[pid]] && r.procs[pid].delivery.Some?
            && r.procs[pid] == Proc(r.procs[pid].task, r.procs[pid].delivery, None, Loading(ToProcess))
            && (r.procs[pid].delivery.value.id == id ==>
                  r.procs[pid].task == task && r.procs[pid].delivery.value.attempts == attempts + 1)
            && (r.procs[pid].delivery.value.id != id ==>
                  && DueAt(r.world.queue, id, task, attempts, now)
                  && Earlier(r.world.queue, id, now) < Earlier(s.world.queue, id, now))
  {
    hide LiveInv, InProcess, Claim;
    var queue := ReleaseExpired(s.world.queue, now);
    var i := FirstClaimable(queue, now, 0);
    ClaimTakes(s.world, ANYBODY, cfg.leaseSeconds, now, i);
    var r := Do(cfg, s, ClaimNext(pid, ANYBODY, now));
    forall p | p in r.procs ensures !LeaseLost(r, p, now) {
      if p != pid && s.procs[p].Live() {
        WorkerIsOk(cfg, s, p);
        assert p !in Overdue(s, now);
      }
    }
    if i < id {
      assert i in Earlier(s.world.queue, id, now) && i !in Earlier(r.world.queue, id, now);
    }
  }

  /** The worker that took another row does not work on the task. */
  lemma TookAnother(cfg: Config, r: Sys, pid: nat, id: nat, task: TaskId, attempts: nat, now: real)
    requires cfg.Valid() && LiveInv(cfg, r) && WorkerLives(r, pid)
    requires r.procs[pid].delivery.Some? && r.procs[pid].delivery.value.id != id
    requires DueAt(r.world.queue, id, task, attempts, now)
    ensures r.procs[pid].task != task
  {
    hide LiveInv, InProcess, PendingApproved;
    WorkerIsOk(cfg, r, pid);
    TaskIsOk(cfg, r, r.procs[pid].task);
    assert LiveAt(r.world.queue, id, task) && LiveAt(r.world.queue, r.procs[pid].delivery.value.id, r.procs[pid].task);
  }

  lemma {:induction false} ClaimsUntil(cfg: Config, fx: Option<Fixtures>, calm: bool, s: Sys, id: nat, task: TaskId,
          attempts: nat, now: real)
    returns (r: Sys, pid: nat)
    requires cfg.Valid() && Sound(cfg, fx, s) && cfg.leaseSeconds >= 0.0 && Overdue(s, now) == {}
    requires NobodyOn(s, task) && DueAt(s.world.queue, id, task, attempts, now)
    ensures Onward(cfg, fx, At(now, calm), s, r) && Sound(cfg, fx, r) && SameBesidesQueue(s, r)
    ensures pid in r.procs && r.procs[pid].delivery.Some? && r.procs[pid].delivery.value.attempts == attempts + 1
    ensures r.procs[pid] == Proc(task, r.procs[pid].delivery, None, Loading(ToProcess))
    decreases Earlier(s.world.queue, id, now)
  {
    hide LiveInv, Onward, HonestTurn, LeasesSet, ReferenceInv, LeaseLost, Earlier, DoClaim;
    pid := UnusedNumber(s.procs.Keys);
    var turn := Turn(ClaimNext(pid, ANYBODY, now), Idle(now));
    CrashIsHonest(fx, s, turn);
    NobodyIsLate(s, now);
    ClaimsInOrder(cfg, s, pid, id, task, attempts, now);
    TakeKeepsSound(cfg, fx, s, turn);
    var t := Take(cfg, s, turn);
    OnwardSelf(cfg, fx, At(now, calm), s);
    OnwardTurn(cfg, fx, At(now, calm), s, s, turn);
    if t.procs[pid].delivery.value.id == id {
      r := t;
    } else {
      TookAnother(cfg, t, pid, id, task, attempts, now);
      r, pid := ClaimsUntil(cfg, fx, calm, t, id, task, attempts, now);
      OnwardJoin(cfg, fx, At(now, calm), now, s, t, r);
    }
  }

  lemma NobodyIsLate(s: Sys, now: real)
    requires Overdue(s, now) == {}
    ensures forall holder | holder in s.procs :: !LeaseLost(s, holder, now)
  {
    hide LeaseLost;
    forall holder | holder in s.procs ensures !LeaseLost(s, holder, now) {
      assert holder !in Overdue(s, now);
    }
  }

  /** The time from `clock` on at which the row can be claimed, its holder being gone. */
  function ClaimTime(row: QueueRow, clock: real): real {
    var free := if row.leaseUntil.Some? && row.leaseUntil.value + 1.0 > row.availableAt then row.leaseUntil.value + 1.0
                else row.availableAt;
    if clock > free then clock else free
  }

  /** Time passes. */
  lemma OnwardWait(cfg: Config, fx: Option<Fixtures>, clock: real, now: real, calm: bool, s: Sys, r: Sys)
    requires cfg.Valid() && clock <= now && Onward(cfg, fx, At(clock, calm), s, r)
    ensures Onward(cfg, fx, Pace(clock, now, calm), s, r)
  {
    hide Onward;
    OnwardSelf(cfg, fx, Pace(clock, now, calm), r);
    OnwardJoin(cfg, fx, Pace(clock, now, calm), clock, s, r, r);
  }

  /**
   Whatever state a disciplined run is in, and whatever the clock shows: the live row of a task can be claimed
   again, its own worker giving up if there is one, the others keeping theirs, and the clock never going back.
   */
  lemma Reclaims(cfg: Config, fx: Option<Fixtures>, calm: bool, s: Sys, task: TaskId, id: nat, clock: real)
    returns (r: Sys, pid: nat, now: real)
    requires cfg.Valid() && Sound(cfg, fx, s) && cfg.leaseSeconds >= 0.0 && LiveAt(s.world.queue, id, task)
    requires calm ==> NobodyOn(s, task)
    ensures Onward(cfg, fx, Pace(clock, now, calm), s, r) && Sound(cfg, fx, r) && SameBesidesQueue(s, r)
    ensures pid in r.procs && r.procs[pid].delivery.Some?
    ensures r.procs[pid].delivery.value.attempts == s.world.queue[id].attempts + 1
    ensures r.procs[pid] == Proc(task, r.procs[pid].delivery, None, Loading(ToProcess))
  {
    hide LiveInv, Onward, ReferenceInv, Overdue, NobodyOn;
    now := ClaimTime(s.world.queue[id], clock);
    var s1 := Abandons(cfg, fx, calm, s, task, clock);
    var s2 := Beats(cfg, fx, calm, s1, id, task, s.world.queue[id].attempts, now);
    r, pid := ClaimsUntil(cfg, fx, calm, s2, id, task, s.world.queue[id].attempts, now);
    OnwardJoin(cfg, fx, At(now, calm), now, s1, s2, r);
    OnwardWait(cfg, fx, clock, now, calm, s, s1);
    OnwardJoin(cfg, fx, Pace(clock, now, calm), now, s, s1, r);
  }
}
