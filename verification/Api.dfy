/** The state-changing endpoints (api.py). */
module Api {
  import opened Prelude
  import opened Models
  import opened Tables
  import opened Store
  import opened Checkpoints
  import opened CheckpointFacts
  import opened Machine
  import opened System
  import opened Refinement
  import opened Discipline
  import opened LiveRuns
  import opened Solo
  import opened Worker

  /** The response: the saved workflow, or 404, 409, or an exception. */
  datatype Response = Accepted(state: WorkflowState) | NotFound | Conflict | ServerError

  /** The version column repeats the version of the stored state, and rows keep their task. */
  ghost predicate Consistent(w: World) {
    OwnIds(w) && forall task | task in w.workflows :: w.workflows[task].version == w.workflows[task].state.version
  }

  lemma ReachableIsConsistent(cfg: Config, w: World)
    requires cfg.Valid() && Reachable(cfg, w)
    ensures Consistent(w)
  {
    hide Run, Inv, WellFormed, ValidLog;
    ReachableOwnIds(cfg, w);
    var steps :| Run(cfg, steps).world == w;
    RunInv(cfg, steps);
    forall task | task in w.workflows ensures w.workflows[task].version == w.workflows[task].state.version {
      LogIsOk(cfg, Run(cfg, steps), task);
      LogWellFormed(cfg, task, Run(cfg, steps).log[task], |Run(cfg, steps).log[task]| - 1);
    }
  }

  /** The verdict on the pending action, the workflow saved over its waiting checkpoint, and the event. */
  ghost predicate VerdictKept(w: World, v: World, task: TaskId, verdict: Verdict, state: WorkflowState, kind: EventKind)
    requires MayResolve(w, task)
  {
    v == w.(workflows := w.workflows[task := WorkflowRow(state, state.version)],
            approvals := w.approvals[(task, w.workflows[task].state.pendingAction.value.actionId) := verdict],
            events := w.events + [Event(task, kind)], queue := v.queue)
  }

  class Endpoints {
    const store: SQLiteStore
    const cfg: Config

    constructor (store: SQLiteStore, cfg: Config)
      ensures this.store == store && this.cfg == cfg
    {
      this.store, this.cfg := store, cfg;
    }

    /** The process of a request that nobody interrupts. */
    ghost function Requested(task: TaskId, purpose: Purpose): Proc {
      Proc(task, None, None, Loading(purpose))
    }

    method CreateIncident(task: TaskId, goal: string, scenario: string, now: real) returns (response: Response)
      requires cfg.Valid()
      modifies store
      ensures response ==
                if task in old(store.World()).workflows then ServerError
                else Accepted(FreshWorkflow(task, goal, scenario))
      ensures response.Accepted? ==>
                response.state == WorkflowState(
                  taskId := task, goal := goal, scenarioId := scenario, status := Queued, completedSteps := [],
                  currentStep := None, evidence := map[], toolHistory := [], progressHistory := [],
                  pendingAction := None, diagnosis := None, remediation := None, finalAnswer := None,
                  lastError := None, retries := 0, modelCalls := 0, inputTokens := 0, outputTokens := 0, toolCalls := 0, version := 0)
      ensures response.Accepted? ==>
                store.World() == old(store.World()).(
                  workflows := old(store.World()).workflows[task := WorkflowRow(response.state, 0)],
                  queue := old(store.World()).queue + 
                           [QueueRow(task, Pending, 0, cfg.maxQueueAttempts, now, None, None)],
                  events := old(store.World()).events + [Event(task, WorkflowCreated)])
      ensures response.ServerError? ==> store.World() == old(store.World())
      ensures response.Accepted? ==>
                CreateWorkflow(old(store.World()), response.state, cfg.maxQueueAttempts, now) == Some(store.World())
      ensures Reachable(cfg, old(store.World())) ==> Reachable(cfg, store.World())
    {
      hide Reachable, StepProc;
      ghost var w := store.World();
      var state := FreshWorkflow(task, goal, scenario);
      var created := store.CreateWorkflow(state, cfg.maxQueueAttempts, now);
      if !created {
        return ServerError;
      }
      if Reachable(cfg, w) {
        CreationStaysReachable(cfg, w, task, goal, scenario, now);
      }
      return Accepted(state);
    }

    /** Both endpoints begin alike: load, insist on a waiting workflow, write the verdict. */
    method ResolveWaiting(task: TaskId, approved: bool, ghost purpose: Purpose, a: Answer, ghost p: Proc)
      returns (refused: Option<Response>, state: WorkflowState, ghost q: Proc)
      requires cfg.Valid() && Consistent(store.World()) && p == Requested(task, purpose)
      requires RequestPurpose(purpose) && approved == purpose.ToApprove?
      modifies store
      ensures refused == if task !in old(store.World()).workflows then Some(NotFound)
                         else if !AwaitsVerdict(old(store.World()), task) then Some(Conflict)
                         else if !MayResolve(old(store.World()), task) then Some(ServerError)
                         else None
      ensures refused.Some? ==> store.World() == old(store.World()) && q.pc.Halted?
      ensures refused.None? ==>
                && state == old(store.World()).workflows[task].state && state.taskId == task
                && VersionMatches(store.World(), task, state.version)
                && store.World() == old(store.World()).(approvals :=
                     old(store.World()).approvals[PendingKey(old(store.World()), task) := VerdictFor(purpose)])
                && q == p.(base := Some(state), pc := Saving(RequestMove(purpose)))
      ensures Reaches(cfg, old(store.World()), p, a, store.World(), q)
    {
      hide StepProc, Reaches;
      ghost var w := store.World();
      ReachesSelf(cfg, w, p, a);
      OnLoad(cfg, w, p, a);
      ReachesStep(cfg, w, p, a, w, p);
      q := StepProc(cfg, w, p, a).1;
      state := FreshWorkflow(task, "", "");
      var loaded := store.GetWorkflow(task);
      if loaded.None? {
        return Some(NotFound), state, q;
      }
      state := loaded.value;
      if !state.status.WaitingForApproval? || state.pendingAction.None? {
        return Some(Conflict), state, q;
      }
      var actionId := state.pendingAction.value.actionId;
      OnResolve(cfg, w, q, a);
      ReachesStep(cfg, w, p, a, w, q);
      q := StepProc(cfg, w, q, a).1;
      var resolved := store.ResolveApproval(task, actionId, approved);
      refused := if resolved then None else Some(ServerError);
    }

    /** The save and the event that follow a verdict. */
    method SaveVerdict(state: WorkflowState, kind: EventKind, a: Answer, ghost p: Proc)
      returns (result: WorkflowState, ghost q: Proc)
      requires cfg.Valid() && p.task == state.taskId && p.pc.Saving? && p.base.Some?
      requires state == Effect(cfg, p.base.value, p.pc.move)
      requires VersionMatches(store.World(), state.taskId, state.version)
      requires AfterSave(cfg, p.task, p.pc.move).Emitting? && AfterSave(cfg, p.task, p.pc.move).kind == kind
      modifies store
      ensures result == state.(version := state.version + 1)
      ensures store.World() == RecordEvent(
                old(store.World()).(workflows :=
                  old(store.World()).workflows[state.taskId := WorkflowRow(result, result.version)]),
                state.taskId, kind)
      ensures Reaches(cfg, old(store.World()), p, a, store.World(), q)
      ensures q == p.(base := Some(result), pc := AfterSave(cfg, p.task, p.pc.move).next)
    {
      hide StepProc, Reaches, Effect, Tables.SaveWorkflow, AfterSave;
      ghost var w := store.World();
      ReachesSelf(cfg, w, p, a);
      SavesNow(w, state);
      OnSave(cfg, w, p, a, state);
      ReachesStep(cfg, w, p, a, w, p);
      q := StepProc(cfg, w, p, a).1;
      var saved := store.SaveWorkflow(state, state.version);
      result := saved.value;
      OnEmit(cfg, store.World(), q, a);
      ReachesStep(cfg, w, p, a, store.World(), q);
      q := StepProc(cfg, store.World(), q, a).1;
      store.RecordEvent(state.taskId, kind);
    }

    /** Accepted exactly when the workflow waits on an undecided action; then it is queued and has a live row. */
    method ApproveAction(task: TaskId, a: Answer) returns (response: Response)
      requires cfg.Valid() && Consistent(store.World())
      modifies store
      ensures response.NotFound? <==> task !in old(store.World()).workflows
      ensures response.Accepted? <==> MayResolve(old(store.World()), task)
      ensures response.Conflict? <==> task in old(store.World()).workflows && !AwaitsVerdict(old(store.World()), task)
      ensures !response.Accepted? ==> store.World() == old(store.World())
      ensures response.Accepted? ==>
                && var before := old(store.World()).workflows[task].state;
                && response.state == before.(status := Queued, version := before.version + 1)
                && VerdictKept(old(store.World()), store.World(), task, Approved, response.state, ApprovalGranted)
                && store.World().queue ==
                     var rows := old(store.World()).queue;
                     if exists row | row in rows :: row.task == task && (row.status.Pending? || row.status.Processing?)
                     then rows else rows + [QueueRow(task, Pending, 0, cfg.maxQueueAttempts, a.now, None, None)]
      ensures exists q: Proc :: q.pc.Halted? &&
                Reaches(cfg, old(store.World()), Requested(task, ToApprove), a, store.World(), q)
      ensures Reachable(cfg, old(store.World())) ==> Reachable(cfg, store.World())
    {
      hide Reachable, StepProc, Reaches;
      ghost var q;
      response, q := ApproveSteps(task, a);
      if Reachable(cfg, old(store.World())) {
        RequestStaysReachable(cfg, old(store.World()), task, ToApprove, a, store.World(), q);
      }
    }

    method ApproveSteps(task: TaskId, a: Answer) returns (response: Response, ghost q: Proc)
      requires cfg.Valid() && Consistent(store.World())
      modifies store
      ensures response.NotFound? <==> task !in old(store.World()).workflows
      ensures response.Accepted? <==> MayResolve(old(store.World()), task)
      ensures response.Conflict? <==> task in old(store.World()).workflows && !AwaitsVerdict(old(store.World()), task)
      ensures !response.Accepted? ==> store.World() == old(store.World())
      ensures response.Accepted? ==>
                && var before := old(store.World()).workflows[task].state;
                && response.state == before.(status := Queued, version := before.version + 1)
                && VerdictKept(old(store.World()), store.World(), task, Approved, response.state, ApprovalGranted)
                && store.World().queue ==
                     var rows := old(store.World()).queue;
                     if exists row | row in rows :: row.task == task && (row.status.Pending? || row.status.Processing?)
                     then rows else rows + [QueueRow(task, Pending, 0, cfg.maxQueueAttempts, a.now, None, None)]
      ensures q.pc.Halted? && Reaches(cfg, old(store.World()), Requested(task, ToApprove), a, store.World(), q)
    {
      hide StepProc, Reaches, Effect, Tables.SaveWorkflow, AfterSave, HasLive, Tables.Enqueue;
      ghost var w, p := store.World(), Requested(task, ToApprove);
      var refused, loaded;
      refused, loaded, q := ResolveWaiting(task, true, ToApprove, a, p);
      if refused.Some? {
        return refused.value, q;
      }
      var state := loaded.(status := Queued);
      ghost var v, t := store.World(), q;
      VerdictEffect(cfg, loaded, RejectedByHuman);
      state, q := SaveVerdict(state, ApprovalGranted, a, t);
      ReachesJoin(cfg, w, p, a, v, t, store.World(), q);
      OnEnqueue(cfg, store.World(), q, a);
      ReachesStep(cfg, w, p, a, store.World(), q);
      q := StepProc(cfg, store.World(), q, a).1;
      store.Enqueue(task, cfg.maxQueueAttempts, a.now);
      return Accepted(state), q;
    }

    /** Accepted exactly when the workflow waits on an undecided action; then it has ended and nothing is queued. */
    method RejectAction(task: TaskId, reason: Option<string>, a: Answer) returns (response: Response)
      requires cfg.Valid() && Consistent(store.World())
      modifies store
      ensures response.NotFound? <==> task !in old(store.World()).workflows
      ensures response.Accepted? <==> MayResolve(old(store.World()), task)
      ensures response.Conflict? <==> task in old(store.World()).workflows && !AwaitsVerdict(old(store.World()), task)
      ensures !response.Accepted? ==> store.World() == old(store.World())
      ensures response.Accepted? ==>
                && var before := old(store.World()).workflows[task].state;
                && response.state == before.(
                     status := HumanRejected, pendingAction := None, version := before.version + 1,
                     lastError := Some(if reason in {None, Some("")} then RejectedByHuman else Text(reason.value)))
                && VerdictKept(old(store.World()), store.World(), task, Rejected, response.state, ApprovalRejected)
                && store.World().queue == old(store.World()).queue
      ensures exists q: Proc :: q.pc.Halted? &&
                Reaches(cfg, old(store.World()), Requested(task, ToReject(RejectionReason(reason))), a,
                        store.World(), q)
      ensures Reachable(cfg, old(store.World())) ==> Reachable(cfg, store.World())
    {
      hide Reachable, StepProc, Reaches;
      ghost var w, purpose := store.World(), ToReject(RejectionReason(reason));
      ghost var q;
      response, q := RejectSteps(task, RejectionReason(reason), a);
      if Reachable(cfg, w) {
        RequestStaysReachable(cfg, w, task, purpose, a, store.World(), q);
      }
    }

    method RejectSteps(task: TaskId, reason: Reason, a: Answer) returns (response: Response, ghost q: Proc)
      requires cfg.Valid() && Consistent(store.World())
      modifies store
      ensures response.NotFound? <==> task !in old(store.World()).workflows
      ensures response.Accepted? <==> MayResolve(old(store.World()), task)
      ensures response.Conflict? <==> task in old(store.World()).workflows && !AwaitsVerdict(old(store.World()), task)
      ensures !response.Accepted? ==> store.World() == old(store.World())
      ensures response.Accepted? ==>
                && var before := old(store.World()).workflows[task].state;
                && response.state == before.(
                     status := HumanRejected, pendingAction := None, version := before.version + 1,
                     lastError := Some(reason))
                && VerdictKept(old(store.World()), store.World(), task, Rejected, response.state, ApprovalRejected)
                && store.World().queue == old(store.World()).queue
      ensures q.pc.Halted? && Reaches(cfg, old(store.World()), Requested(task, ToReject(reason)), a, store.World(), q)
    {
      hide StepProc, Reaches, Effect, Tables.SaveWorkflow, AfterSave;
      ghost var w, p := store.World(), Requested(task, ToReject(reason));
      var refused, loaded;
      refused, loaded, q := ResolveWaiting(task, false, ToReject(reason), a, p);
      if refused.Some? {
        return refused.value, q;
      }
      var state := loaded.(status := HumanRejected);
      state := state.(lastError := Some(reason));
      state := state.(pendingAction := None);
      ghost var v, t := store.World(), q;
      VerdictEffect(cfg, loaded, reason);
      state, q := SaveVerdict(state, ApprovalRejected, a, t);
      ReachesJoin(cfg, w, p, a, v, t, store.World(), q);
      return Accepted(state), q;
    }

    /** Row and workflow return together, or neither. */
    method ReplayDeadLetter(id: nat, task: TaskId, now: real) returns (response: Response)
      requires cfg.Valid()
      modifies store
      ensures response.Accepted? <==> Replayable(old(store.World()), id, task)
      ensures !response.Accepted? ==> response.NotFound? && store.World() == old(store.World())
      ensures response.Accepted? ==>
                var row := old(store.World()).workflows[task];
                && response.state == row.state.(status := Queued, lastError := None, version := row.version + 1)
                && store.World() == old(store.World()).(
                     workflows := old(store.World()).workflows[task := WorkflowRow(response.state, row.version + 1)],
                     queue := old(store.World()).queue[
                       id := QueueRow(task, Pending, 0, cfg.maxQueueAttempts, now, None, None)],
                     events := old(store.World()).events + [Event(task, DlqReplayed)])
      ensures Reachable(cfg, old(store.World())) ==> Reachable(cfg, store.World())
    {
      hide Reachable, StepProc;
      ghost var w := store.World();
      var replayed := store.ReplayDeadLetter(id, task, cfg.maxQueueAttempts, now);
      if replayed.None? {
        return NotFound;
      }
      if Reachable(cfg, w) {
        ReplayStaysReachable(cfg, w, id, task, now);
      }
      return Accepted(replayed.value);
    }
  }

  /** `request.reason or ...`. */
  function RejectionReason(reason: Option<string>): Reason {
    if Truthy(reason) then Text(reason.value) else RejectedByHuman
  }
}
