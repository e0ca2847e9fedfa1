/**
 Any number of workers and API requests over one store, interleaved at single store calls.
 `log` and `seen` are bookkeeping of the model: the checkpoints committed per task, and counts of
 what happened outside the tables.
 */
module System {
  import opened Prelude
  import opened Models
  import opened Tools
  import opened Tables
  import opened Checkpoints
  import opened Machine

  datatype Observation =
    | BackendCalled(key: ActionId)
    | BackendReturned(key: ActionId)            // with a structured result
    | ResultLost(key: ActionId)                 // a crash between that return and the ledger write
    | Settled(task: TaskId)                     // an acknowledge or a retry of a delivery
    | EventLost(task: TaskId, kind: EventKind)  // a crash between a save and its event

  datatype Sys = Sys(
    world: World,
    procs: map<nat, Proc>,
    log: map<TaskId, seq<Commit>>,
    seen: multiset<Observation>)

  const INITIAL := Sys(EMPTY_WORLD, map[], map[], multiset{})

  datatype Step =
    | CreateIncident(task: TaskId, goal: string, scenario: string, now: real)
    | ClaimNext(pid: nat, worker: string, now: real)
    | Advance(pid: nat, answer: Answer)
    | Crash(pid: nat)
    | Heartbeat(pid: nat, now: real)
    | NoteHeartbeat(pid: nat)
    | RequestApproval(pid: nat, task: TaskId)
    | RequestRejection(pid: nat, task: TaskId, error: Reason)
    | ReplayRow(row: nat, task: TaskId, now: real)

  function KeyOf(cfg: Config, p: Proc): ActionId
    requires p.pc.Calling? || p.pc.Recording? || p.pc.LookingUp?
  {
    ActionIdOf(cfg, p.task, p.pc.tool, p.pc.arguments)
  }

  function LogAfter(cfg: Config, s: Sys, p: Proc): map<TaskId, seq<Commit>>
    requires cfg.repeatThreshold > 0
  {
    if CommitsNow(s.world, p) && p.task in s.log then
      s.log[p.task := s.log[p.task] + [Commit(p.pc.move, Apply(cfg, p.base.value, p.pc.move))]]
    else s.log
  }

  function SeenNow(cfg: Config, p: Proc, a: Answer): multiset<Observation> {
    match p.pc
    case Calling(_, _) =>
      multiset{BackendCalled(KeyOf(cfg, p))}
      + (if a.backend.Returned? && StructuredResult(a.backend.result) then multiset{BackendReturned(KeyOf(cfg, p))}
         else multiset{})
    case Acknowledging(_) => if p.delivery.Some? then multiset{Settled(p.task)} else multiset{}
    case Retrying(_) => if p.delivery.Some? then multiset{Settled(p.task)} else multiset{}
    case _ => multiset{}
  }

  function LostByCrash(cfg: Config, p: Proc): multiset<Observation> {
    match p.pc
    case Recording(_, _, _) => multiset{ResultLost(KeyOf(cfg, p))}
    case Emitting(kind, _) => multiset{EventLost(p.task, kind)}
    case _ => multiset{}
  }

  function DoCreate(cfg: Config, s: Sys, task: TaskId, goal: string, scenario: string, now: real): Sys {
    var created := FreshWorkflow(task, goal, scenario);
    match CreateWorkflow(s.world, created, cfg.maxQueueAttempts, now)
    case None => s
    case Some(w) => s.(world := w, log := s.log[task := [Commit(Create, created)]])
  }

  function DoClaim(cfg: Config, s: Sys, pid: nat, worker: string, now: real): Sys {
    if pid in s.procs then s
    else
      var (w, delivery) := Claim(s.world, worker, cfg.leaseSeconds, now);
      if delivery.None? then s.(world := w)
      else s.(world := w, procs := s.procs[pid := Proc(delivery.value.task, delivery, None, Loading(ToProcess))])
  }

  function DoAdvance(cfg: Config, s: Sys, pid: nat, a: Answer): Sys
    requires cfg.repeatThreshold > 0
  {
    if pid !in s.procs then s
    else
      var p := s.procs[pid];
      var (w, q) := StepProc(cfg, s.world, p, a);
      Sys(w, s.procs[pid := q], LogAfter(cfg, s, p), s.seen + SeenNow(cfg, p, a))
  }

  function DoCrash(cfg: Config, s: Sys, pid: nat): Sys {
    if pid !in s.procs then s
    else s.(procs := s.procs[pid := s.procs[pid].(pc := Halted)], seen := s.seen + LostByCrash(cfg, s.procs[pid]))
  }

  predicate HoldsDelivery(s: Sys, pid: nat) {
    pid in s.procs && s.procs[pid].Live() && s.procs[pid].delivery.Some?
  }

  function DoRequest(s: Sys, pid: nat, task: TaskId, purpose: Purpose): Sys {
    if pid in s.procs then s else s.(procs := s.procs[pid := Proc(task, None, None, Loading(purpose))])
  }

  function DoReplay(cfg: Config, s: Sys, row: nat, task: TaskId, now: real): Sys
    requires cfg.repeatThreshold > 0
  {
    match ReplayDeadLetter(s.world, row, task, cfg.maxQueueAttempts, now)
    case None => s
    case Some(w) =>
      if task !in s.log then s
      else s.(world := w,
              log := s.log[task := s.log[task] + [Commit(Replay, Apply(cfg, s.world.workflows[task].state, Replay))]])
  }

  /** One step of the system; a step that is not possible changes nothing. */
  function Do(cfg: Config, s: Sys, step: Step): Sys
    requires cfg.repeatThreshold > 0
  {
    match step
    case CreateIncident(task, goal, scenario, now) => DoCreate(cfg, s, task, goal, scenario, now)
    case ClaimNext(pid, worker, now) => DoClaim(cfg, s, pid, worker, now)
    case Advance(pid, answer) => DoAdvance(cfg, s, pid, answer)
    case Crash(pid) => DoCrash(cfg, s, pid)
    case Heartbeat(pid, now) =>
      if HoldsDelivery(s, pid) then
        s.(world := ExtendLease(s.world, s.procs[pid].delivery.value.id, cfg.leaseSeconds, now))
      else s
    case NoteHeartbeat(pid) =>
      if HoldsDelivery(s, pid) then s.(world := RecordEvent(s.world, s.procs[pid].task, QueueLeaseExtended)) else s
    case RequestApproval(pid, task) => DoRequest(s, pid, task, ToApprove)
    case RequestRejection(pid, task, error) => DoRequest(s, pid, task, ToReject(error))
    case ReplayRow(row, task, now) => DoReplay(cfg, s, row, task, now)
  }

  /** The state after a whole run, from empty tables. */
  function Run(cfg: Config, steps: seq<Step>): Sys
    requires cfg.repeatThreshold > 0
  {
    if steps == [] then INITIAL else Do(cfg, Run(cfg, steps[..|steps| - 1]), steps[|steps| - 1])
  }

  /** One step of a run, in its sequence of states. */
  ghost predicate StepAt(cfg: Config, steps: seq<Step>, trace: seq<Sys>, i: nat)
    requires cfg.repeatThreshold > 0 && i < |steps| && |trace| == |steps| + 1
  {
    trace[i + 1] == Do(cfg, trace[i], steps[i])
  }

  /** The states of a run, from empty tables. */
  ghost predicate IsTrace(cfg: Config, steps: seq<Step>, trace: seq<Sys>)
    requires cfg.repeatThreshold > 0
  {
    |trace| == |steps| + 1 && trace[0] == INITIAL && forall i: nat | i < |steps| :: StepAt(cfg, steps, trace, i)
  }

  /** The steps lead from empty tables to `s`. */
  ghost predicate ReachedBy(cfg: Config, steps: seq<Step>, s: Sys)
    requires cfg.repeatThreshold > 0
  {
    exists trace :: IsTrace(cfg, steps, trace) && trace[|steps|] == s
  }

  lemma {:induction false} TraceIsRun(cfg: Config, steps: seq<Step>, trace: seq<Sys>)
    requires cfg.repeatThreshold > 0 && IsTrace(cfg, steps, trace)
    ensures trace[|steps|] == Run(cfg, steps)
  {
    hide Do;
    if steps != [] {
      var n := |steps| - 1;
      var fewer, shorter := steps[..n], trace[..n + 1];
      forall i: nat | i < n ensures StepAt(cfg, fewer, shorter, i) {
        assert StepAt(cfg, steps, trace, i);
      }
      TraceIsRun(cfg, fewer, shorter);
      assert StepAt(cfg, steps, trace, n);
    }
  }

  lemma ReachedIsRun(cfg: Config, steps: seq<Step>, s: Sys)
    requires cfg.repeatThreshold > 0 && ReachedBy(cfg, steps, s)
    ensures s == Run(cfg, steps)
  {
    hide Run, Do;
    var trace :| IsTrace(cfg, steps, trace) && trace[|steps|] == s;
    TraceIsRun(cfg, steps, trace);
  }

  lemma {:induction false} RunIsTrace(cfg: Config, steps: seq<Step>) returns (trace: seq<Sys>)
    requires cfg.repeatThreshold > 0
    ensures IsTrace(cfg, steps, trace) && trace[|steps|] == Run(cfg, steps)
  {
    hide Do;
    if steps == [] {
      trace := [INITIAL];
    } else {
      var n := |steps| - 1;
      var shorter := RunIsTrace(cfg, steps[..n]);
      trace := shorter + [Run(cfg, steps)];
      forall i: nat | i < |steps| ensures StepAt(cfg, steps, trace, i) {
        if i < n {
          assert StepAt(cfg, steps[..n], shorter, i);
        }
      }
    }
  }

  // ----- the clock -----

  /** What the step reads from the clock. */
  function StepReading(step: Step): Option<real> {
    match step
    case CreateIncident(_, _, _, now) => Some(now)
    case ClaimNext(_, _, now) => Some(now)
    case Advance(_, answer) => Some(answer.now)
    case Heartbeat(_, now) => Some(now)
    case ReplayRow(_, _, now) => Some(now)
    case _ => None
  }

  /** The clock never goes back. */
  predicate Timely(steps: seq<Step>, from: real, until: real) {
    && from <= until
    && (forall i | 0 <= i < |steps| && StepReading(steps[i]).Some? :: from <= StepReading(steps[i]).value <= until)
    && (forall i, j | 0 <= i < j < |steps| && StepReading(steps[i]).Some? && StepReading(steps[j]).Some? ::
          StepReading(steps[i]).value <= StepReading(steps[j]).value)
  }

  /** `more` is `steps`, and then nothing but `step`. */
  predicate OnlyAdds(steps: seq<Step>, more: seq<Step>, step: Step) {
    steps <= more && forall i | |steps| <= i < |more| :: more[i] == step
  }

  lemma TimelyAdds(steps: seq<Step>, more: seq<Step>, step: Step, from: real, until: real, now: real)
    requires Timely(steps, from, until) && OnlyAdds(steps, more, step) && until <= now
    requires StepReading(step).Some? ==> StepReading(step).value == now
    ensures Timely(more, from, now)
  {
    hide StepReading;
    assert forall i | 0 <= i < |steps| :: more[i] == steps[i];
  }

  /** The last checkpoint of a task. */
  ghost function Last(s: Sys, task: TaskId): Commit
    requires task in s.log && s.log[task] != []
  {
    s.log[task][|s.log[task]| - 1]
  }
}
