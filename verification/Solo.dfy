/** What one process does on its own: the steps that the runtime, worker and request methods take in turn. */
module Solo {
  import opened Prelude
  import opened Models
  import opened Tools
  import opened Tables
  import opened Checkpoints
  import opened Machine
  import opened System
  import opened Refinement

  function Steps(cfg: Config, w: World, p: Proc, a: Answer, n: nat): (World, Proc)
    requires cfg.repeatThreshold > 0
    decreases n
  {
    if n == 0 then (w, p)
    else
      var (v, q) := StepProc(cfg, w, p, a);
      Steps(cfg, v, q, a, n - 1)
  }

  /** Some number of steps of the process lead from (w, p) to (v, q), nobody else interfering. */
  ghost predicate Reaches(cfg: Config, w: World, p: Proc, a: Answer, v: World, q: Proc)
    requires cfg.repeatThreshold > 0
  {
    exists n: nat :: Steps(cfg, w, p, a, n) == (v, q)
  }

  lemma ReachesSelf(cfg: Config, w: World, p: Proc, a: Answer)
    requires cfg.Valid()
    ensures Reaches(cfg, w, p, a, w, p)
  {
    hide StepProc;
    assert Steps(cfg, w, p, a, 0) == (w, p);
  }

  lemma {:induction false} StepsAdd(cfg: Config, w: World, p: Proc, a: Answer, m: nat, n: nat)
    requires cfg.Valid()
    ensures Steps(cfg, w, p, a, m + n) == Steps(cfg, Steps(cfg, w, p, a, m).0, Steps(cfg, w, p, a, m).1, a, n)
    decreases m
  {
    hide StepProc;
    if m > 0 {
      var (v, q) := StepProc(cfg, w, p, a);
      StepsAdd(cfg, v, q, a, m - 1, n);
    }
  }

  lemma ReachesJoin(cfg: Config, w: World, p: Proc, a: Answer, v: World, q: Proc, x: World, y: Proc)
    requires cfg.Valid() && Reaches(cfg, w, p, a, v, q) && Reaches(cfg, v, q, a, x, y)
    ensures Reaches(cfg, w, p, a, x, y)
  {
    hide Steps;
    var m: nat :| Steps(cfg, w, p, a, m) == (v, q);
    var n: nat :| Steps(cfg, v, q, a, n) == (x, y);
    StepsAdd(cfg, w, p, a, m, n);
  }

  lemma ReachesStep(cfg: Config, w: World, p: Proc, a: Answer, v: World, q: Proc)
    requires cfg.Valid() && Reaches(cfg, w, p, a, v, q)
    ensures Reaches(cfg, w, p, a, StepProc(cfg, v, q, a).0, StepProc(cfg, v, q, a).1)
  {
    hide StepProc;
    assert Steps(cfg, v, q, a, 1) == StepProc(cfg, v, q, a) by {
      assert Steps(cfg, StepProc(cfg, v, q, a).0, StepProc(cfg, v, q, a).1, a, 0) == StepProc(cfg, v, q, a);
    }
    ReachesJoin(cfg, w, p, a, v, q, StepProc(cfg, v, q, a).0, StepProc(cfg, v, q, a).1);
  }

  // ----- a process on its own is a run of the system -----

  lemma {:induction false} StepsAreRun(cfg: Config, steps: seq<Step>, pid: nat, a: Answer, n: nat)
    returns (more: seq<Step>)
    requires cfg.Valid() && pid in Run(cfg, steps).procs
    ensures var s := Run(cfg, steps);
            && Run(cfg, more).world == Steps(cfg, s.world, s.procs[pid], a, n).0
            && Run(cfg, more).procs == s.procs[pid := Steps(cfg, s.world, s.procs[pid], a, n).1]
    ensures OnlyAdds(steps, more, Advance(pid, a))
    decreases n
  {
    hide Run, StepProc, SeenNow, LogAfter;
    var s := Run(cfg, steps);
    if n == 0 {
      more := steps;
      assert s.procs == s.procs[pid := s.procs[pid]];
    } else {
      RunSnoc(cfg, steps, Advance(pid, a));
      more := StepsAreRun(cfg, steps + [Advance(pid, a)], pid, a, n - 1);
      assert more[|steps|] == (steps + [Advance(pid, a)])[|steps|];
    }
  }

  /** Tables that some run of the interleaved system produces. */
  ghost predicate Reachable(cfg: Config, w: World)
    requires cfg.repeatThreshold > 0
  {
    exists steps :: Run(cfg, steps).world == w
  }

  lemma {:induction false} UnusedNumber(used: set<nat>) returns (n: nat)
    ensures forall x | x in used :: x < n
    decreases |used|
  {
    if used == {} {
      n := 0;
    } else {
      var x :| x in used;
      var m := UnusedNumber(used - {x});
      n := if x < m then m else x + 1;
      forall y | y in used ensures y < n {
        if y != x {
          assert y in used - {x};
        }
      }
    }
  }

  /** A delivery, claimed and worked on by nobody else, leads from reachable tables to reachable tables. */
  lemma DeliveryStaysReachable(cfg: Config, w: World, worker: string, now: real, a: Answer, v: World, q: Proc)
    requires cfg.Valid() && Reachable(cfg, w)
    requires var (u, d) := Claim(w, worker, cfg.leaseSeconds, now);
             d.Some? && Reaches(cfg, u, Proc(d.value.task, d, None, Loading(ToProcess)), a, v, q)
    ensures Reachable(cfg, v)
  {
    hide Run, StepProc, Claim, Steps;
    var (u, d) := Claim(w, worker, cfg.leaseSeconds, now);
    var steps :| Run(cfg, steps).world == w;
    var pid := UnusedNumber(Run(cfg, steps).procs.Keys);
    RunSnoc(cfg, steps, ClaimNext(pid, worker, now));
    var n: nat :| Steps(cfg, u, Proc(d.value.task, d, None, Loading(ToProcess)), a, n) == (v, q);
    var more := StepsAreRun(cfg, steps + [ClaimNext(pid, worker, now)], pid, a, n);
  }

  lemma EmptyClaimStaysReachable(cfg: Config, w: World, worker: string, now: real)
    requires cfg.Valid() && Reachable(cfg, w) && Claim(w, worker, cfg.leaseSeconds, now).1.None?
    ensures Reachable(cfg, Claim(w, worker, cfg.leaseSeconds, now).0)
  {
    hide Run, StepProc, Claim;
    var steps :| Run(cfg, steps).world == w;
    var pid := UnusedNumber(Run(cfg, steps).procs.Keys);
    RunSnoc(cfg, steps, ClaimNext(pid, worker, now));
  }

  lemma RequestStaysReachable(cfg: Config, w: World, task: TaskId, purpose: Purpose, a: Answer, v: World, q: Proc)
    requires cfg.Valid() && Reachable(cfg, w) && (purpose.ToApprove? || purpose.ToReject?)
    requires Reaches(cfg, w, Proc(task, None, None, Loading(purpose)), a, v, q)
    ensures Reachable(cfg, v)
  {
    hide Run, StepProc, Steps;
    var steps :| Run(cfg, steps).world == w;
    var pid := UnusedNumber(Run(cfg, steps).procs.Keys);
    var step := if purpose.ToApprove? then RequestApproval(pid, task) else RequestRejection(pid, task, purpose.error);
    RunSnoc(cfg, steps, step);
    var n: nat :| Steps(cfg, w, Proc(task, None, None, Loading(purpose)), a, n) == (v, q);
    var more := StepsAreRun(cfg, steps + [step], pid, a, n);
  }

  lemma CreationStaysReachable(cfg: Config, w: World, task: TaskId, goal: string, scenario: string, now: real)
    requires cfg.Valid() && Reachable(cfg, w)
    requires CreateWorkflow(w, FreshWorkflow(task, goal, scenario), cfg.maxQueueAttempts, now).Some?
    ensures Reachable(cfg, CreateWorkflow(w, FreshWorkflow(task, goal, scenario), cfg.maxQueueAttempts, now).value)
  {
    hide Run, StepProc, CreateWorkflow;
    var steps :| Run(cfg, steps).world == w;
    RunSnoc(cfg, steps, CreateIncident(task, goal, scenario, now));
    assert Run(cfg, steps + [CreateIncident(task, goal, scenario, now)]).world
           == CreateWorkflow(w, FreshWorkflow(task, goal, scenario), cfg.maxQueueAttempts, now).value;
  }

  lemma ReplayStaysReachable(cfg: Config, w: World, row: nat, task: TaskId, now: real)
    requires cfg.Valid() && Reachable(cfg, w) && ReplayDeadLetter(w, row, task, cfg.maxQueueAttempts, now).Some?
    ensures Reachable(cfg, ReplayDeadLetter(w, row, task, cfg.maxQueueAttempts, now).value)
  {
    hide Run, StepProc, Apply, Inv;
    var steps :| Run(cfg, steps).world == w;
    RunInv(cfg, steps);
    LogIsOk(cfg, Run(cfg, steps), task);
    RunSnoc(cfg, steps, ReplayRow(row, task, now));
    assert Run(cfg, steps + [ReplayRow(row, task, now)]).world == ReplayDeadLetter(w, row, task, cfg.maxQueueAttempts, now).value;
  }

  // ----- single steps, one lemma for each kind -----

  lemma OnLoad(cfg: Config, w: World, p: Proc, a: Answer)
    requires cfg.Valid() && p.pc.Loading?
    ensures StepProc(cfg, w, p, a) ==
              (w, if p.task in w.workflows
                  then p.(base := Some(w.workflows[p.task].state), pc := AfterLoad(w.workflows[p.task].state, p.pc.purpose))
                  else p.(base := None, pc := AfterMissing(p.pc.purpose)))
  {
    hide SaveStep, EngineStep, ResumeStep, LookupStep, RecordStep, RetryStep, ResolveStep, AcknowledgeStep,
         AfterBackend, AfterLoad, Enqueue;
  }

  /** `state` is what the code made of the loaded state before it saves it. */
  lemma OnSave(cfg: Config, w: World, p: Proc, a: Answer, state: WorkflowState)
    requires cfg.Valid() && p.pc.Saving? && p.base.Some? && state == Effect(cfg, p.base.value, p.pc.move)
    ensures state.version == p.base.value.version
    ensures var saved := SaveWorkflow(w, state, state.version);
            StepProc(cfg, w, p, a) ==
              if saved.Some? then
                (saved.value, p.(base := Some(state.(version := state.version + 1)), pc := AfterSave(cfg, p.task, p.pc.move)))
              else (w, p.(pc := AfterStale(p.pc.move)))
  {
    hide EngineStep, ResumeStep, LookupStep, RecordStep, RetryStep, ResolveStep, AcknowledgeStep, AfterBackend,
         AfterLoad, AfterSave, Enqueue, Effect;
    EffectKeepsVersion(cfg, p.base.value, p.pc.move);
  }

  lemma EffectKeepsVersion(cfg: Config, s: WorkflowState, m: Move)
    requires cfg.Valid()
    ensures Effect(cfg, s, m).version == s.version
  {
  }

  // What the moves do to a state, one by one.

  lemma HandlerEffect(cfg: Config, s: WorkflowState, status: Status, error: Reason)
    requires cfg.Valid() && (status.DeadLettered? || status.Failed?)
    ensures Effect(cfg, s, if status.DeadLettered? then DeadLetter(error) else FailDelivery(error))
            == s.(status := status, lastError := Some(error))
  {
  }

  lemma EngineEffect(cfg: Config, s: WorkflowState, error: Reason)
    requires cfg.Valid()
    ensures Effect(cfg, s, Start) == s.(status := Running, lastError := None)
    ensures Effect(cfg, s, ModelRetry(error)) == s.(retries := s.retries + 1, status := Queued, lastError := Some(error))
  {
  }

  lemma VerdictEffect(cfg: Config, s: WorkflowState, error: Reason)
    requires cfg.Valid()
    ensures AfterSave(cfg, s.taskId, Approve) == Emitting(ApprovalGranted, Enqueuing)
    ensures AfterSave(cfg, s.taskId, Reject(error)) == Emitting(ApprovalRejected, Halted)
    ensures Effect(cfg, s, Approve) == s.(status := Queued)
    ensures Effect(cfg, s, Reject(error)) == s.(status := HumanRejected, lastError := Some(error), pendingAction := None)
  {
  }

  lemma ToolEffect(cfg: Config, s: WorkflowState, tool: Tool, result: Json, error: Reason)
    requires cfg.Valid()
    ensures Effect(cfg, s, FinishTool(tool, result)) == Finished(cfg, s, tool, result)
    ensures Effect(cfg, s, RetryTool(error)) == s.(retries := s.retries + 1, lastError := Some(error), status := Queued)
    ensures Effect(cfg, s, FailRun(error)) == Failing(s, error)
  {
  }

  lemma DecisionEffect(cfg: Config, s: WorkflowState, d: Decision, u: Usage)
    requires cfg.Valid()
    ensures Effect(cfg, s, CompleteRun(d, u))
            == Decided(s, d, u).(status := Completed, finalAnswer := d.finalAnswer, currentStep := None)
    ensures Effect(cfg, s, DecisionFail(d, u)) == Failing(Decided(s, d, u), Text(d.rationale))
  {
  }

  /** A save of the stored version goes through. */
  lemma SavesNow(w: World, state: WorkflowState)
    requires VersionMatches(w, state.taskId, state.version)
    ensures var saved := state.(version := state.version + 1);
            Tables.SaveWorkflow(w, state, state.version)
            == Some(w.(workflows := w.workflows[state.taskId := WorkflowRow(saved, saved.version)]))
  {
  }

  lemma OnEmit(cfg: Config, w: World, p: Proc, a: Answer)
    requires cfg.Valid() && p.pc.Emitting?
    ensures StepProc(cfg, w, p, a) == (Tables.RecordEvent(w, p.task, p.pc.kind), p.(pc := p.pc.next))
  {
    hide SaveStep, EngineStep, ResumeStep, LookupStep, RecordStep, RetryStep, ResolveStep, AcknowledgeStep,
         AfterBackend, AfterLoad, Enqueue;
  }

  lemma OnEngine(cfg: Config, w: World, p: Proc, a: Answer)
    requires cfg.Valid() && p.pc.AskingEngine? && p.base.Some?
    ensures StepProc(cfg, w, p, a) == (w, p.(pc := AfterEngine(cfg, p.base.value, a.engine)))
  {
    hide SaveStep, ResumeStep, LookupStep, RecordStep, RetryStep, ResolveStep, AcknowledgeStep, AfterBackend,
         AfterLoad, AfterEngine, Enqueue;
  }

  lemma OnCheck(cfg: Config, w: World, p: Proc, a: Answer)
    requires cfg.Valid() && p.pc.CheckingApproval? && p.base.Some? && p.base.value.pendingAction.Some?
    ensures var pending := p.base.value.pendingAction.value;
            StepProc(cfg, w, p, a) ==
              (w, p.(pc := if IsApproved(w, p.task, pending.actionId)
                           then Emitting(ApprovedActionResumed, Machine.Execute(pending.tool, pending.arguments))
                           else Acknowledging(Park)))
  {
    hide SaveStep, EngineStep, LookupStep, RecordStep, RetryStep, ResolveStep, AcknowledgeStep, AfterBackend,
         AfterLoad, Execute, Enqueue;
  }

  lemma OnLookup(cfg: Config, w: World, p: Proc, a: Answer)
    requires cfg.Valid() && p.pc.LookingUp?
    ensures var key := ActionIdOf(cfg, p.task, p.pc.tool, p.pc.arguments);
            StepProc(cfg, w, p, a) ==
              (w, p.(pc := match Tables.GetToolResult(w, key, cfg.argumentsHash(p.pc.arguments))
                           case HashConflict => Halted
                           case Found(result) => Saving(FinishTool(p.pc.tool, result))
                           case Missing => Calling(p.pc.tool, p.pc.arguments)))
  {
    hide SaveStep, EngineStep, ResumeStep, RecordStep, RetryStep, ResolveStep, AcknowledgeStep, AfterBackend,
         AfterLoad, Enqueue;
  }

  lemma OnCall(cfg: Config, w: World, p: Proc, a: Answer)
    requires cfg.Valid() && p.pc.Calling?
    ensures StepProc(cfg, w, p, a) == (w, p.(pc := AfterBackend(p.pc.tool, p.pc.arguments, a.backend)))
  {
    hide SaveStep, EngineStep, ResumeStep, LookupStep, RecordStep, RetryStep, ResolveStep, AcknowledgeStep,
         AfterBackend, AfterLoad, Enqueue;
  }

  lemma OnRecord(cfg: Config, w: World, p: Proc, a: Answer)
    requires cfg.Valid() && p.pc.Recording?
    ensures var key := ActionIdOf(cfg, p.task, p.pc.tool, p.pc.arguments);
            var row := LedgerRow(p.task, p.pc.tool, cfg.argumentsHash(p.pc.arguments), p.pc.result);
            StepProc(cfg, w, p, a) == (Tables.SaveToolResult(w, key, row), p.(pc := Saving(FinishTool(p.pc.tool, p.pc.result))))
  {
    hide SaveStep, EngineStep, ResumeStep, LookupStep, RetryStep, ResolveStep, AcknowledgeStep, AfterBackend,
         AfterLoad, Enqueue;
  }

  lemma OnPut(cfg: Config, w: World, p: Proc, a: Answer)
    requires cfg.Valid() && p.pc.PuttingApproval?
    ensures StepProc(cfg, w, p, a) ==
              (Tables.CreateApproval(w, p.task, p.pc.action), p.(pc := Emitting(ApprovalRequired, Acknowledging(Finish))))
  {
    hide SaveStep, EngineStep, ResumeStep, LookupStep, RecordStep, RetryStep, ResolveStep, AcknowledgeStep,
         AfterBackend, AfterLoad, Enqueue;
  }

  lemma OnAcknowledge(cfg: Config, w: World, p: Proc, a: Answer)
    requires cfg.Valid() && p.pc.Acknowledging? && p.delivery.Some?
    ensures StepProc(cfg, w, p, a) == (Tables.Acknowledge(w, p.delivery.value.id), p.(pc := AfterSettlement(p.pc.settlement)))
  {
    hide SaveStep, EngineStep, ResumeStep, LookupStep, RecordStep, RetryStep, ResolveStep, AfterBackend,
         AfterLoad, Enqueue;
  }

  lemma OnEnqueue(cfg: Config, w: World, p: Proc, a: Answer)
    requires cfg.Valid() && p.pc.Enqueuing?
    ensures StepProc(cfg, w, p, a) == (Tables.Enqueue(w, p.task, cfg.maxQueueAttempts, a.now), p.(pc := Halted))
  {
    hide SaveStep, EngineStep, ResumeStep, LookupStep, RecordStep, RetryStep, ResolveStep, AcknowledgeStep,
         AfterBackend, AfterLoad, Enqueue;
  }

  lemma OnRetry(cfg: Config, w: World, p: Proc, a: Answer)
    requires cfg.Valid() && p.pc.Retrying? && p.delivery.Some?
    ensures var (v, dead) := Tables.RetryOrDeadLetter(w, p.delivery.value, cfg.retryBaseSeconds, a.now);
            StepProc(cfg, w, p, a) == (v, p.(pc := if dead then Loading(ToDeadLetter(p.pc.error)) else Halted))
  {
    hide SaveStep, EngineStep, ResumeStep, LookupStep, RecordStep, ResolveStep, AcknowledgeStep, AfterBackend,
         AfterLoad, Enqueue, RetryRow;
  }

  lemma OnResolve(cfg: Config, w: World, p: Proc, a: Answer)
    requires cfg.Valid() && p.pc.Resolving?
    ensures var resolved := Tables.ResolveApproval(w, p.task, p.pc.action, p.pc.approved);
            StepProc(cfg, w, p, a) ==
              if resolved.Some? then (resolved.value, p.(pc := Saving(if p.pc.approved then Approve else Reject(p.pc.error))))
              else (w, p.(pc := Halted))
  {
    hide SaveStep, EngineStep, ResumeStep, LookupStep, RecordStep, RetryStep, AcknowledgeStep, AfterBackend,
         AfterLoad, Enqueue;
  }
}
