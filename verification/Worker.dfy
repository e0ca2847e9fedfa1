/** The worker: claim, process, settle (worker.py). */
module Worker {
  import opened Prelude
  import opened Models
  import opened Tables
  import opened Store
  import opened Deliveries
  import opened Endings
  import opened Checkpoints
  import opened CheckpointFacts
  import opened Machine
  import opened System
  import opened Refinement
  import opened Solo
  import opened Runtime

  ghost predicate OwnIds(w: World) {
    forall task | task in w.workflows :: w.workflows[task].state.taskId == task
  }

  predicate OwnTask(p: Proc) {
    p.base.Some? ==> p.base.value.taskId == p.task
  }

  lemma StepKeepsOwnIds(cfg: Config, w: World, p: Proc, a: Answer)
    requires cfg.Valid() && OwnIds(w) && OwnTask(p)
    ensures OwnIds(StepProc(cfg, w, p, a).0) && OwnTask(StepProc(cfg, w, p, a).1)
  {
    hide EngineStep, ResumeStep, LookupStep, RetryRow, AfterBackend, AfterLoad, AfterSave, Effect;
    if p.pc.Saving? && p.base.Some? {
      ApplyKeepsTask(cfg, p.base.value, p.pc.move);
    }
  }

  lemma {:induction false} StepsKeepOwnIds(cfg: Config, w: World, p: Proc, a: Answer, n: nat)
    requires cfg.Valid() && OwnIds(w) && OwnTask(p)
    ensures OwnIds(Steps(cfg, w, p, a, n).0) && OwnTask(Steps(cfg, w, p, a, n).1)
    decreases n
  {
    hide StepProc, OwnIds, OwnTask;
    if n > 0 {
      StepKeepsOwnIds(cfg, w, p, a);
      StepsKeepOwnIds(cfg, StepProc(cfg, w, p, a).0, StepProc(cfg, w, p, a).1, a, n - 1);
    }
  }

  lemma ReachesKeepsOwnIds(cfg: Config, w: World, p: Proc, a: Answer, v: World, q: Proc)
    requires cfg.Valid() && OwnIds(w) && OwnTask(p) && Reaches(cfg, w, p, a, v, q)
    ensures OwnIds(v) && OwnTask(q)
  {
    hide Steps, OwnIds, OwnTask;
    var n: nat :| Steps(cfg, w, p, a, n) == (v, q);
    StepsKeepOwnIds(cfg, w, p, a, n);
  }

  lemma ReachableOwnIds(cfg: Config, w: World)
    requires cfg.Valid() && Reachable(cfg, w)
    ensures OwnIds(w)
  {
    hide Run, Inv, WellFormed, ValidLog;
    var steps :| Run(cfg, steps).world == w;
    RunInv(cfg, steps);
    forall task | task in w.workflows ensures w.workflows[task].state.taskId == task {
      StoredIsLast(cfg, Run(cfg, steps), task);
      LogIsOk(cfg, Run(cfg, steps), task);
      LastTask(cfg, task, Run(cfg, steps).log[task]);
    }
  }

  class DurableWorker {
    const store: SQLiteStore
    const runtime: WorkflowRuntime
    const cfg: Config
    const workerId: string

    constructor (store: SQLiteStore, runtime: WorkflowRuntime, cfg: Config, workerId: string)
      requires runtime.store == store && runtime.cfg == cfg && runtime.Valid()
      ensures this.store == store && this.runtime == runtime && this.cfg == cfg && this.workerId == workerId && Valid()
    {
      this.store, this.runtime, this.cfg, this.workerId := store, runtime, cfg, workerId;
    }

    ghost predicate Valid() {
      runtime.store == store && runtime.cfg == cfg && runtime.Valid()
    }

    /** The process that a claimed delivery starts. */
    ghost function Started(w: World, now: real): Proc
      requires Claim(w, workerId, cfg.leaseSeconds, now).1.Some?
    {
      var d := Claim(w, workerId, cfg.leaseSeconds, now).1;
      Proc(d.value.task, d, None, Loading(ToProcess))
    }

    /** The handlers: load the workflow again and, unless it has ended, save it as dead-lettered or failed. */
    method Conclude(task: TaskId, status: Status, error: Reason, kind: EventKind, a: Answer, ghost p: Proc)
      returns (result: RunResult, ghost q: Proc)
      requires cfg.Valid() && p.task == task && p.pc.Loading? && OwnIds(store.World())
      requires p.pc.purpose == (if status.DeadLettered? then ToDeadLetter(error) else ToFail(error))
      requires (status.DeadLettered? && kind.DeadLetteredEvent?) || (status.Failed? && kind.WorkflowFailed?)
      modifies store
      ensures (store.World(), result) == ConcludeRun(old(store.World()), task, status, error, kind)
      ensures Reaches(cfg, old(store.World()), p, a, store.World(), q) && q.pc.Halted? && !result.Idle?
    {
      hide StepProc, Reaches, Tables.SaveWorkflow, Effect, OwnIds, ConcludeRun;
      ghost var w := store.World();
      OwnIdAt(w, task);
      ConcludeCases(w, task, status, error, kind);
      ReachesSelf(cfg, w, p, a);
      OnLoad(cfg, w, p, a);
      ReachesStep(cfg, w, p, a, w, p);
      q := StepProc(cfg, w, p, a).1;
      var loaded := store.GetWorkflow(task);
      if loaded.None? || loaded.value.Terminal() {
        return Worked, q;
      }
      var state := loaded.value.(status := status);
      state := state.(lastError := Some(error));
      HandlerEffect(cfg, loaded.value, status, error);
      OnSave(cfg, w, q, a, state);
      ReachesStep(cfg, w, p, a, w, q);
      q := StepProc(cfg, w, q, a).1;
      var saved := store.SaveWorkflow(state, state.version);
      if saved.Err? {
        return Escaped, q;
      }
      OnEmit(cfg, store.World(), q, a);
      ReachesStep(cfg, w, p, a, store.World(), q);
      q := StepProc(cfg, store.World(), q, a).1;
      store.RecordEvent(state.taskId, kind);
      return Worked, q;
    }

    /** The settlement of each outcome. */
    method Settle(delivery: Delivery, outcome: Outcome, a: Answer, ghost p: Proc)
      returns (result: RunResult, ghost q: Proc)
      requires cfg.Valid() && Settles(outcome, p) && p.delivery == Some(delivery) && p.task == delivery.task
      requires OwnIds(store.World()) && OwnTask(p)
      modifies store
      ensures (store.World(), result) == SettleRun(cfg, old(store.World()), delivery, outcome, a.now)
      ensures Reaches(cfg, old(store.World()), p, a, store.World(), q) && q.pc.Halted? && !result.Idle?
    {
      hide StepProc, Reaches, Tables.Enqueue, Tables.RetryOrDeadLetter, OwnIds, Tables.Acknowledge, ConcludeRun,
           HasLive;
      ghost var w := store.World();
      q := p;
      ReachesSelf(cfg, w, p, a);
      match outcome {
        case Uncaught =>
          return Escaped, q;
        case Processed(state) =>
          OnAcknowledge(cfg, w, q, a);
          ReachesStep(cfg, w, p, a, w, q);
          q := StepProc(cfg, w, q, a).1;
          store.Acknowledge(delivery.id);
          if state.status.Queued? {
            OnEnqueue(cfg, store.World(), q, a);
            ReachesStep(cfg, w, p, a, store.World(), q);
            q := StepProc(cfg, store.World(), q, a).1;
            LiveRows(store.queue, state.taskId);
            store.Enqueue(state.taskId, cfg.maxQueueAttempts, a.now);
          }
          result := Worked;
        case RaisedRetryable(error) =>
          OnRetry(cfg, w, q, a);
          ReachesStep(cfg, w, p, a, w, q);
          q := StepProc(cfg, w, q, a).1;
          var dead := store.RetryOrDeadLetter(delivery, cfg.retryBaseSeconds, a.now);
          result := Worked;
          if dead {
            ghost var v, t := store.World(), q;
            RetryKeepsWorkflows(w, delivery, cfg.retryBaseSeconds, a.now);
            result, q := Conclude(delivery.task, DeadLettered, error, DeadLetteredEvent, a, t);
            ReachesJoin(cfg, w, p, a, v, t, store.World(), q);
          }
        case RaisedPermanent(error) =>
          OnAcknowledge(cfg, w, q, a);
          ReachesStep(cfg, w, p, a, w, q);
          q := StepProc(cfg, w, q, a).1;
          store.Acknowledge(delivery.id);
          ghost var v, t := store.World(), q;
          AcknowledgeKeepsWorkflows(w, delivery.id);
          result, q := Conclude(delivery.task, Failed, error, WorkflowFailed, a, t);
          ReachesJoin(cfg, w, p, a, v, t, store.World(), q);
      }
    }

    /**
     `run_once`: one claim and all the steps of the process it starts, down to its end; so a store that
     some run of the interleaved system could have left is left as such a run could leave it.
     */
    method RunOnce(now: real, a: Answer) returns (result: RunResult)
      requires Valid() && OwnIds(store.World())
      modifies store
      ensures (store.World(), result) == RoundRun(cfg, old(store.World()), workerId, now, a)
      ensures result.Idle? <==> Claim(old(store.World()), workerId, cfg.leaseSeconds, now).1.None?
      ensures result.Idle? ==> store.World() == Claim(old(store.World()), workerId, cfg.leaseSeconds, now).0
      ensures !result.Idle? ==>
                var (claimed, delivery) := Claim(old(store.World()), workerId, cfg.leaseSeconds, now);
                ErrorsEnd(cfg, claimed, delivery.value, a, store.World())
      ensures !result.Idle? ==>
                exists q: Proc :: q.pc.Halted? &&
                  Reaches(cfg, Claim(old(store.World()), workerId, cfg.leaseSeconds, now).0,
                          Started(old(store.World()), now), a, store.World(), q)
      ensures Reachable(cfg, old(store.World())) ==> Reachable(cfg, store.World())
      ensures OwnIds(store.World())
    {
      hide StepProc, Reaches, Reachable, Claim, OwnIds, Runtime.Settles, ProcessRun, SettleRun, ErrorsEnd;
      ghost var before := store.World();
      var delivery := store.Claim(workerId, cfg.leaseSeconds, now);
      ghost var w := store.World();
      ClaimKeepsWorkflows(before, workerId, cfg.leaseSeconds, now);
      if delivery.None? {
        if Reachable(cfg, before) {
          EmptyClaimStaysReachable(cfg, before, workerId, now);
        }
        return Idle;
      }
      ErrorsSettle(cfg, w, delivery.value, a);
      ghost var p := Started(before, now);
      OwnIdAt(w, p.task);
      var outcome, t := runtime.Process(delivery.value.task, a, p);
      ghost var v := store.World();
      ReachesKeepsOwnIds(cfg, w, p, a, v, t);
      ghost var q;
      result, q := Settle(delivery.value, outcome, a, t);
      ReachesJoin(cfg, w, p, a, v, t, store.World(), q);
      ReachesKeepsOwnIds(cfg, w, p, a, store.World(), q);
      if Reachable(cfg, before) {
        DeliveryStaysReachable(cfg, before, workerId, now, a, store.World(), q);
      }
    }

    /**
     `_heartbeat`, woken at `times` until it is cancelled: the row keeps the lease of the last beat as long
     as it is processing, no other row is touched, and every beat leaves an event.
     */
    method Heartbeat(delivery: Delivery, times: seq<real>)
      modifies store
      ensures store.World() == old(store.World()).(queue := store.World().queue, events := store.World().events)
      ensures store.World().events == old(store.World()).events + Beats(delivery.task, |times|)
      ensures |store.World().queue| == |old(store.World()).queue|
      ensures forall i | 0 <= i < |store.World().queue| :: store.World().queue[i] ==
                if i == delivery.id && times != [] && old(store.World()).queue[i].status.Processing?
                then old(store.World()).queue[i].(leaseUntil := Some(times[|times| - 1] + cfg.leaseSeconds))
                else old(store.World()).queue[i]
    {
      for n := 0 to |times|
        invariant store.World() == old(store.World()).(queue := store.World().queue, events := store.World().events)
        invariant store.World().events == old(store.World()).events + Beats(delivery.task, n)
        invariant |store.World().queue| == |old(store.World()).queue|
        invariant forall i | 0 <= i < |store.World().queue| :: store.World().queue[i] ==
                    if i == delivery.id && n > 0 && old(store.World()).queue[i].status.Processing?
                    then old(store.World()).queue[i].(leaseUntil := Some(times[n - 1] + cfg.leaseSeconds))
                    else old(store.World()).queue[i]
      {
        store.ExtendLease(delivery, cfg.leaseSeconds, times[n]);
        store.RecordEvent(delivery.task, QueueLeaseExtended);
      }
    }

    /** `serve` for some rounds, one after the other until an exception escapes; the tables stay reachable. */
    method Serve(rounds: seq<(real, Answer)>) returns (served: nat)
      requires Valid() && OwnIds(store.World())
      modifies store
      ensures (store.World(), served) == ServeRun(cfg, old(store.World()), workerId, rounds)
      ensures OwnIds(store.World()) && (Reachable(cfg, old(store.World())) ==> Reachable(cfg, store.World()))
    {
      hide Reachable, OwnIds, Claim, Reaches, RoundRun, ErrorsEnd;
      ghost var before := store.World();
      served := 0;
      for n := 0 to |rounds|
        invariant served == n
        invariant var (w, more) := ServeRun(cfg, store.World(), workerId, rounds[n..]);
                  ServeRun(cfg, before, workerId, rounds) == (w, n + more)
        invariant OwnIds(store.World()) && (Reachable(cfg, old(store.World())) ==> Reachable(cfg, store.World()))
      {
        assert rounds[n..][1..] == rounds[n + 1..];
        var result := RunOnce(rounds[n].0, rounds[n].1);
        served := served + 1;
        if result.Escaped? {
          return;
        }
      }
    }
  }

  /** The events of n heartbeats. */
  function Beats(task: TaskId, n: nat): seq<Event> {
    if n == 0 then [] else Beats(task, n - 1) + [Event(task, QueueLeaseExtended)]
  }

  lemma OwnIdAt(w: World, task: TaskId)
    requires OwnIds(w)
    ensures StoredUnderOwnId(w, task)
  {
  }

  lemma ClaimKeepsWorkflows(w: World, worker: string, lease: real, now: real)
    requires OwnIds(w)
    ensures OwnIds(Claim(w, worker, lease, now).0)
  {
  }

  lemma RetryKeepsWorkflows(w: World, d: Delivery, base: real, now: real)
    requires OwnIds(w)
    ensures OwnIds(Tables.RetryOrDeadLetter(w, d, base, now).0)
  {
  }

  lemma AcknowledgeKeepsWorkflows(w: World, id: nat)
    requires OwnIds(w)
    ensures OwnIds(Tables.Acknowledge(w, id))
  {
  }
}
