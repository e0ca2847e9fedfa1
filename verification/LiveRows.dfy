/** Rows, workflows and workers agree in every disciplined run, with crashes anywhere in `process`. */
module LiveRows {
  import opened Prelude
  import opened Models
  import opened Tools
  import opened Tables
  import opened QueueShape
  import opened Checkpoints
  import opened CheckpointFacts
  import opened Machine
  import opened System
  import opened Refinement
  import opened Discipline

  predicate ProcessMove(m: Move) {
    match m
    case Start => true
    case ModelRetry(error) => !error.StaleCheckpoint?
    case CompleteRun(_, _) => true
    case DecisionFail(_, _) => true
    case StopLoop(_, _) => true
    case Accept(_, _) => true
    case FailRun(_) => true
    case Wait(_) => true
    case RetryTool(error) => !error.StaleCheckpoint?
    case FinishTool(_, _) => true
    case _ => false
  }

  /** A worker inside `process`, or about to settle; it never saw a stale save or a missing approval. */
  predicate InProcess(pc: Pc) {
    match pc
    case Loading(purpose) => purpose.ToProcess?
    case Saving(m) => ProcessMove(m)
    case Emitting(_, next) => InProcess(next)
    case Acknowledging(settlement) => !settlement.Park?
    case Retrying(error) => !error.StaleCheckpoint?
    case Enqueuing => false
    case Resolving(_, _, _) => false
    case Halted => false
    case _ => true
  }

  predicate RowHeld(queue: seq<QueueRow>, p: Proc) {
    && p.delivery.Some?
    && var d := p.delivery.value;
    && d.id < |queue|
    && d.task == p.task == queue[d.id].task
    && queue[d.id].status.Processing?
    && queue[d.id].attempts == d.attempts
    && queue[d.id].maxAttempts == d.maxAttempts
  }

  predicate WorkerOk(w: World, p: Proc) {
    p.Live() ==>
      && RowHeld(w.queue, p)
      && p.task in w.workflows
      && InProcess(p.pc)
      && (p.base.None? ==> p.pc == Loading(ToProcess))
      && (p.base.Some? ==> p.base.value == w.workflows[p.task].state)
  }

  predicate Exclusive(s: Sys) {
    forall i, j | i in s.procs && j in s.procs && i != j && s.procs[i].Live() && s.procs[j].Live() ::
      s.procs[i].delivery.Some? && s.procs[j].delivery.Some? ==>
        s.procs[i].delivery.value.id != s.procs[j].delivery.value.id
  }

  /** An action that may be resumed has been approved. */
  predicate PendingApproved(w: World, s: WorkflowState) {
    s.pendingAction.Some? && (s.status.Queued? || s.status.Running? || s.status.DeadLettered?) ==>
      IsApproved(w, s.taskId, s.pendingAction.value.actionId)
  }

  predicate TaskOk(w: World, task: TaskId) {
    task in w.workflows ==>
      && RowsFit(w.queue, task, w.workflows[task].state.status)
      && PendingApproved(w, w.workflows[task].state)
  }

  predicate RowsOk(cfg: Config, w: World) {
    forall i | 0 <= i < |w.queue| :: w.queue[i].maxAttempts == cfg.maxQueueAttempts && w.queue[i].task in w.workflows
  }

  predicate ReplayFits(log: seq<Commit>, i: nat)
    requires 0 < i < |log|
  {
    log[i].move.Replay? ==> log[i - 1].state.status.DeadLettered?
  }

  predicate ReplaysOfDeadLetters(log: seq<Commit>) {
    forall i: nat | 0 < i < |log| :: ReplayFits(log, i)
  }

  ghost predicate LiveInv(cfg: Config, s: Sys)
    requires cfg.Valid()
  {
    && Inv(cfg, s)
    && RowsOk(cfg, s.world)
    && (forall task | task in s.log :: TaskOk(s.world, task))
    && (forall pid | pid in s.procs :: WorkerOk(s.world, s.procs[pid]))
    && Exclusive(s)
    && (forall task | task in s.log :: ReplaysOfDeadLetters(s.log[task]))
  }

  lemma LiveInvHasInv(cfg: Config, s: Sys)
    requires cfg.Valid() && LiveInv(cfg, s)
    ensures Inv(cfg, s)
  {
    hide Inv;
  }

  lemma WorkerIsOk(cfg: Config, s: Sys, pid: nat)
    requires cfg.Valid() && LiveInv(cfg, s) && pid in s.procs
    ensures WorkerOk(s.world, s.procs[pid])
  {
    hide Inv, WorkerOk;
  }

  lemma TaskIsOk(cfg: Config, s: Sys, task: TaskId)
    requires cfg.Valid() && LiveInv(cfg, s) && task in s.world.workflows
    ensures RowsFit(s.world.queue, task, s.world.workflows[task].state.status)
    ensures PendingApproved(s.world, s.world.workflows[task].state)
    ensures task in s.log && ReplaysOfDeadLetters(s.log[task])
  {
    hide LogOk, ProcOk, RowsFit, PendingApproved, ReplaysOfDeadLetters;
  }

  /** A loaded worker works from the last checkpoint. */
  lemma BaseIsLast(cfg: Config, s: Sys, pid: nat)
    requires cfg.Valid() && LiveInv(cfg, s) && pid in s.procs && s.procs[pid].Live() && s.procs[pid].base.Some?
    ensures var p := s.procs[pid];
            && p.task in s.log && s.log[p.task] != []
            && var c := Last(s, p.task);
            && c.state == p.base.value && WellFormed(cfg, p.task, c)
            && PcOk(cfg, c, p.pc) && Gated(cfg, s.world, p.task, p.pc)
            && p.base.value.version == |s.log[p.task]| - 1
            && VersionMatches(s.world, p.base.value.taskId, p.base.value.version)
            && p.base.value.taskId == p.task
            && PendingApproved(s.world, c.state)
  {
    hide Inv, LiveInv, PcOk, Gated, WellFormed, ValidLog, InProcess, PendingApproved, RowsFit;
    var p := s.procs[pid];
    LiveInvHasInv(cfg, s);
    ProcIsOk(cfg, s, pid);
    WorkerIsOk(cfg, s, pid);
    LogIsOk(cfg, s, p.task);
    TaskIsOk(cfg, s, p.task);
    LogWellFormed(cfg, p.task, s.log[p.task], |s.log[p.task]| - 1);
    LastTask(cfg, p.task, s.log[p.task]);
  }

  lemma OneWorkerPerTask(cfg: Config, s: Sys, i: nat, j: nat)
    requires cfg.Valid() && LiveInv(cfg, s) && i in s.procs && j in s.procs && s.procs[i].Live() && s.procs[j].Live()
    requires s.procs[i].task == s.procs[j].task
    ensures i == j
  {
    hide Inv, InProcess, PendingApproved;
    WorkerIsOk(cfg, s, i);
    WorkerIsOk(cfg, s, j);
    var task := s.procs[i].task;
    TaskIsOk(cfg, s, task);
    assert LiveAt(s.world.queue, s.procs[i].delivery.value.id, task);
    assert LiveAt(s.world.queue, s.procs[j].delivery.value.id, task);
  }

  /** The workflow of a held row is not dead-lettered. */
  lemma HeldRowIsLive(cfg: Config, s: Sys, pid: nat)
    requires cfg.Valid() && LiveInv(cfg, s) && pid in s.procs && s.procs[pid].Live()
    ensures var p := s.procs[pid];
            && p.task in s.world.workflows && HasLive(s.world.queue, p.task)
            && RowsFit(s.world.queue, p.task, s.world.workflows[p.task].state.status)
            && !s.world.workflows[p.task].state.status.DeadLettered?
  {
    hide Inv, LiveInv, InProcess, PendingApproved;
    var p := s.procs[pid];
    WorkerIsOk(cfg, s, pid);
    TaskIsOk(cfg, s, p.task);
    assert LiveAt(s.world.queue, p.delivery.value.id, p.task);
  }

  // ----- steps inside process -----

  lemma AfterSaveInProcess(cfg: Config, c: Commit, m: Move)
    requires cfg.Valid() && WellFormed(cfg, c.state.taskId, c) && Follows(cfg, c, m) && ProcessMove(m)
    ensures InProcess(AfterSave(cfg, c.state.taskId, m))
  {
    if m.Accept? {
      var d := m.decision;
      ValidateIdempotent(d.tool.value, RequestedArguments(d.arguments));
    }
  }

  lemma ResumesInProcess(cfg: Config, w: World, c: Commit, p: Proc, a: Answer)
    requires cfg.Valid() && p.base == Some(c.state) && WellFormed(cfg, p.task, c)
    requires p.pc.CheckingApproval? && c.state.Resumable() && PendingApproved(w, c.state)
    ensures var (v, q) := StepProc(cfg, w, p, a);
            v == w && InProcess(q.pc)
  {
    hide Effect, RetryRow;
    var pending := c.state.pendingAction.value;
    ExecuteValidated(pending.tool, pending.arguments);
    assert InProcess(LookingUp(pending.tool, pending.arguments));
  }

  lemma EngineStaysInProcess(cfg: Config, s: WorkflowState, answer: EngineAnswer)
    requires cfg.Valid()
    ensures AfterEngine(cfg, s, answer).Halted? || InProcess(AfterEngine(cfg, s, answer))
  {
    hide RequestReason, ValidatedRequest;
    if answer.Decide? {
      assert InProcess(AfterDecision(cfg, s, answer.decision, answer.usage));
    }
  }

  /** The pcs whose next counter depends neither on the engine nor on an approval. */
  lemma PlainStaysInProcess(cfg: Config, w: World, p: Proc, a: Answer)
    requires cfg.Valid() && p.base.Some? && InProcess(p.pc) && !Settling(p.pc)
    requires !p.pc.Saving? && !p.pc.Loading? && !p.pc.CheckingApproval? && !p.pc.AskingEngine?
    ensures var (v, q) := StepProc(cfg, w, p, a);
            && v.queue == w.queue && v.workflows == w.workflows
            && (q.pc.Halted? || InProcess(q.pc))
  {
    hide Effect, AfterSave, AfterLoad, AfterEngine, RetryRow, Execute, StructuredResult;
  }

  /** A step inside `process` that is not a save stays inside, or ends the process. */
  lemma StepStaysInProcess(cfg: Config, w: World, c: Commit, p: Proc, a: Answer)
    requires cfg.Valid() && p.base == Some(c.state) && WellFormed(cfg, p.task, c)
    requires PcOk(cfg, c, p.pc) && InProcess(p.pc) && !Settling(p.pc) && !p.pc.Saving? && !p.pc.Loading?
    requires PendingApproved(w, c.state)
    ensures var (v, q) := StepProc(cfg, w, p, a);
            && v.queue == w.queue && v.workflows == w.workflows
            && (q.pc.Halted? || InProcess(q.pc))
  {
    hide Effect, AfterSave, AfterLoad, AfterEngine, RetryRow, Execute, Follows, WellFormed, MayExecute;
    if p.pc.CheckingApproval? {
      ResumesInProcess(cfg, w, c, p, a);
    } else if p.pc.AskingEngine? {
      EngineStaysInProcess(cfg, c.state, a.engine);
    } else {
      PlainStaysInProcess(cfg, w, p, a);
    }
  }

  /** What a save inside `process` does to the facts about rows and approvals. */
  lemma MoveKeepsPendingApproved(cfg: Config, w: World, c: Commit, m: Move)
    requires cfg.Valid() && WellFormed(cfg, c.state.taskId, c) && Follows(cfg, c, m) && ProcessMove(m)
    requires PendingApproved(w, c.state)
    ensures PendingApproved(w, Apply(cfg, c.state, m)) && !Apply(cfg, c.state, m).status.DeadLettered?
  {
  }

  lemma PendingApprovedStable(v: World, w: World, s: WorkflowState)
    requires VerdictsKept(v, w) && PendingApproved(v, s)
    ensures PendingApproved(w, s)
  {
  }

  /** Workers other than `pid` do not notice a step that leaves the queue and other tasks alone. */
  lemma OthersKeepWorking(cfg: Config, s: Sys, r: Sys, pid: nat)
    requires cfg.Valid() && LiveInv(cfg, s) && pid in s.procs && s.procs[pid].Live()
    requires r.world.queue == s.world.queue && r.procs.Keys == s.procs.Keys
    requires forall i | i in s.procs && i != pid :: r.procs[i] == s.procs[i]
    requires forall t | t in s.world.workflows && t != s.procs[pid].task ::
               t in r.world.workflows && r.world.workflows[t] == s.world.workflows[t]
    ensures forall i | i in r.procs && i != pid :: WorkerOk(r.world, r.procs[i])
  {
    hide Inv, LiveInv, InProcess;
    forall i | i in r.procs && i != pid ensures WorkerOk(r.world, r.procs[i]) {
      WorkerIsOk(cfg, s, i);
      if s.procs[i].Live() && s.procs[i].task == s.procs[pid].task {
        OneWorkerPerTask(cfg, s, i, pid);
      }
    }
  }

  lemma ExclusiveStable(s: Sys, r: Sys, pid: nat)
    requires Exclusive(s) && pid in s.procs && s.procs[pid].Live()
    requires pid in r.procs && r.procs == s.procs[pid := r.procs[pid]]
    requires r.procs[pid].delivery == s.procs[pid].delivery
    ensures Exclusive(r)
  {
  }

  lemma CommittedTasksOk(cfg: Config, s: Sys, w: World, task: TaskId, next: WorkflowState, version: nat)
    requires cfg.Valid() && LiveInv(cfg, s) && task in s.log
    requires w == s.world.(workflows := s.world.workflows[task := WorkflowRow(next, version)])
    requires RowsFit(s.world.queue, task, next.status) && PendingApproved(s.world, next)
    ensures forall t | t in s.log :: TaskOk(w, t)
  {
    hide Inv, RowsFit, WorkerOk, Exclusive;
    forall t | t in s.log ensures TaskOk(w, t) {
      assert TaskOk(s.world, t);
    }
  }

  lemma CommitKeepsTasks(cfg: Config, s: Sys, pid: nat, a: Answer)
    requires cfg.Valid() && LiveInv(cfg, s) && pid in s.procs && s.procs[pid].pc.Saving?
    ensures var p := s.procs[pid];
            var r := DoAdvance(cfg, s, pid, a);
            && CommitsNow(s.world, p)
            && Commits(s, r, pid, CommitOf(cfg, p)) && InProcess(r.procs[pid].pc)
            && (forall task | task in s.log :: TaskOk(r.world, task))
  {
    hide DoAdvance, Apply, AfterSave, Follows, WellFormed, Inv, RowsFit, PendingApproved, Gated, ValidLog;
    var p := s.procs[pid];
    WorkerIsOk(cfg, s, pid);
    BaseIsLast(cfg, s, pid);
    HeldRowIsLive(cfg, s, pid);
    LiveInvHasInv(cfg, s);
    CommitHasShape(cfg, s, pid, a);
    var c := Last(s, p.task);
    var next := Apply(cfg, c.state, p.pc.move);
    AfterSaveInProcess(cfg, c, p.pc.move);
    MoveKeepsPendingApproved(cfg, s.world, c, p.pc.move);
    StatusChangeFits(s.world.queue, p.task, c.state.status, next.status);
    CommittedTasksOk(cfg, s, DoAdvance(cfg, s, pid, a).world, p.task, next, |s.log[p.task]|);
  }

  lemma ReplaysExtend(log: seq<Commit>, c: Commit)
    requires log != [] && ReplaysOfDeadLetters(log) && (c.move.Replay? ==> log[|log| - 1].state.status.DeadLettered?)
    ensures ReplaysOfDeadLetters(log + [c])
  {
    forall i: nat | 0 < i < |log + [c]| ensures ReplayFits(log + [c], i) {
      if i < |log| {
        assert ReplayFits(log, i);
      }
    }
  }

  lemma CommittedKeepsLive(cfg: Config, s: Sys, r: Sys, pid: nat, c: Commit)
    requires cfg.Valid() && LiveInv(cfg, s) && Inv(cfg, r) && Commits(s, r, pid, c)
    requires s.procs[pid].Live() && InProcess(r.procs[pid].pc) && !c.move.Replay?
    requires s.log[s.procs[pid].task] != []
    requires forall task | task in s.log :: TaskOk(r.world, task)
    ensures LiveInv(cfg, r)
  {
    hide Inv, TaskOk, InProcess, ReplaysOfDeadLetters;
    var p := s.procs[pid];
    WorkerIsOk(cfg, s, pid);
    OthersKeepWorking(cfg, s, r, pid);
    ExclusiveStable(s, r, pid);
    assert WorkerOk(r.world, r.procs[pid]);
    forall task | task in r.log ensures ReplaysOfDeadLetters(r.log[task]) {
      assert ReplaysOfDeadLetters(s.log[task]);
      if task == p.task {
        ReplaysExtend(s.log[task], c);
      }
    }
  }

  lemma CommitKeepsLive(cfg: Config, s: Sys, pid: nat, a: Answer)
    requires cfg.Valid() && LiveInv(cfg, s) && pid in s.procs && s.procs[pid].pc.Saving?
    ensures LiveInv(cfg, DoAdvance(cfg, s, pid, a))
  {
    hide DoAdvance, Inv, Apply, TaskOk, LiveInv, PcOk, Gated, WellFormed, InProcess, ValidLog, RowHeld;
    WorkerIsOk(cfg, s, pid);
    LiveInvHasInv(cfg, s);
    CommitKeepsTasks(cfg, s, pid, a);
    CommitterIsCurrent(cfg, s, pid);
    AdvanceKeepsInv(cfg, s, pid, a);
    SavesAreNotReplays(s.procs[pid]);
    CommittedKeepsLive(cfg, s, DoAdvance(cfg, s, pid, a), pid, CommitOf(cfg, s.procs[pid]));
  }

  lemma SavesAreNotReplays(p: Proc)
    requires p.pc.Saving? && InProcess(p.pc)
    ensures !p.pc.move.Replay?
  {
  }

  lemma LoadStaysInProcess(w: World, p: Proc)
    requires p.task in w.workflows
    ensures var s := w.workflows[p.task].state;
            LoadStep(w, p, ToProcess) == p.(base := Some(s), pc := AfterLoad(s, ToProcess)) && InProcess(AfterLoad(s, ToProcess))
  {
  }

  lemma LoadedStaysOk(cfg: Config, w: World, p: Proc, a: Answer)
    requires cfg.Valid() && p.pc.Loading? && WorkerOk(w, p)
    ensures var (v, q) := StepProc(cfg, w, p, a);
            && v == w && q.delivery == p.delivery && WorkerOk(v, q)
  {
    hide LoadStep, SaveStep, EngineStep, ResumeStep, LookupStep, RecordStep, RetryStep, ResolveStep,
         AcknowledgeStep, AfterBackend, CreateApproval, Enqueue, AfterSettlement;
    LoadStaysInProcess(w, p);
  }

  lemma SteppedStaysOk(cfg: Config, w: World, c: Commit, p: Proc, a: Answer)
    requires cfg.Valid() && p.Live() && WorkerOk(w, p) && p.base == Some(c.state)
    requires WellFormed(cfg, p.task, c) && PcOk(cfg, c, p.pc) && PendingApproved(w, c.state)
    requires !p.pc.Saving? && !p.pc.Loading? && !Settling(p.pc)
    ensures var (v, q) := StepProc(cfg, w, p, a);
            && v.queue == w.queue && v.workflows == w.workflows && q.delivery == p.delivery && WorkerOk(v, q)
  {
    hide StepProc, WellFormed, PcOk, PendingApproved, InProcess;
    StepStaysInProcess(cfg, w, c, p, a);
    StepFrame(cfg, w, p, a);
  }

  lemma QuietStepShape(cfg: Config, s: Sys, pid: nat, a: Answer)
    requires cfg.Valid() && LiveInv(cfg, s) && pid in s.procs && s.procs[pid].Live()
    requires !s.procs[pid].pc.Saving? && !Settling(s.procs[pid].pc)
    ensures var r := DoAdvance(cfg, s, pid, a);
            && pid in r.procs && r.procs == s.procs[pid := r.procs[pid]]
            && r.log == s.log && r.world.queue == s.world.queue && r.world.workflows == s.world.workflows
            && r.procs[pid].delivery == s.procs[pid].delivery && VerdictsKept(s.world, r.world)
            && WorkerOk(r.world, r.procs[pid])
  {
    hide StepProc, LiveInv, Inv, WellFormed, PcOk, Gated, InProcess, PendingApproved, VerdictsKept, LedgerOk,
         StructuredResult, LedgerKept, CommitsNow, Apply;
    var p := s.procs[pid];
    LiveInvHasInv(cfg, s);
    WorkerIsOk(cfg, s, pid);
    ProcIsOk(cfg, s, pid);
    RecordingIsStructured(cfg, s, pid);
    StepKeepsTables(cfg, s.world, p, a);
    NotSavingNoCommit(s.world, p);
    if p.pc.Loading? {
      LoadedStaysOk(cfg, s.world, p, a);
    } else {
      BaseIsLast(cfg, s, pid);
      SteppedStaysOk(cfg, s.world, Last(s, p.task), p, a);
    }
  }

  lemma NotSavingNoCommit(w: World, p: Proc)
    requires !p.pc.Saving?
    ensures !CommitsNow(w, p)
  {
  }

  lemma QuietKeepsLive(cfg: Config, s: Sys, r: Sys, pid: nat)
    requires cfg.Valid() && LiveInv(cfg, s) && Inv(cfg, r) && pid in s.procs && s.procs[pid].Live()
    requires pid in r.procs && r.procs == s.procs[pid := r.procs[pid]]
    requires r.log == s.log && r.world.queue == s.world.queue && r.world.workflows == s.world.workflows
    requires r.procs[pid].delivery == s.procs[pid].delivery && VerdictsKept(s.world, r.world)
    requires WorkerOk(r.world, r.procs[pid])
    ensures LiveInv(cfg, r)
  {
    hide Inv, RowsFit, VerdictsKept, InProcess, PendingApproved, RowHeld, ReplaysOfDeadLetters;
    OthersKeepWorking(cfg, s, r, pid);
    ExclusiveStable(s, r, pid);
    forall task | task in r.log ensures TaskOk(r.world, task) {
      assert TaskOk(s.world, task);
      if task in s.world.workflows {
        PendingApprovedStable(s.world, r.world, s.world.workflows[task].state);
      }
    }
  }

  lemma QuietStepKeepsLive(cfg: Config, s: Sys, pid: nat, a: Answer)
    requires cfg.Valid() && LiveInv(cfg, s) && pid in s.procs && s.procs[pid].Live()
    requires !s.procs[pid].pc.Saving? && !Settling(s.procs[pid].pc)
    ensures LiveInv(cfg, DoAdvance(cfg, s, pid, a))
  {
    hide DoAdvance, Inv, LiveInv, WorkerOk, VerdictsKept;
    LiveInvHasInv(cfg, s);
    QuietStepShape(cfg, s, pid, a);
    AdvanceKeepsInv(cfg, s, pid, a);
    QuietKeepsLive(cfg, s, DoAdvance(cfg, s, pid, a), pid);
  }
}
