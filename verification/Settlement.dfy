/** What settling a delivery does, as one step: the five ways a delivery ends. */
module Settlement {
  import opened Prelude
  import opened Models
  import opened Tables
  import opened Checkpoints
  import opened CheckpointFacts
  import opened Machine
  import opened System
  import opened Refinement
  import opened Discipline

  lemma DrainStep(cfg: Config, s: Sys, pid: nat, a: Answer, n: nat)
    requires cfg.Valid() && pid in s.procs && s.procs[pid].Live() && n > 0
    ensures Drain(cfg, s, pid, a, n) == Drain(cfg, DoAdvance(cfg, s, pid, a), pid, a, n - 1)
  {
  }

  lemma DrainStops(cfg: Config, s: Sys, pid: nat, a: Answer, n: nat)
    requires cfg.Valid() && pid in s.procs && !s.procs[pid].Live()
    ensures Drain(cfg, s, pid, a, n) == s
  {
  }

  /** A process with a delivery whose row and workflow exist. */
  ghost predicate Delivered(s: Sys, pid: nat) {
    && pid in s.procs
    && s.procs[pid].delivery.Some? && s.procs[pid].delivery.value.id < |s.world.queue|
    && s.procs[pid].task in s.log && s.log[s.procs[pid].task] != []
  }

  /** A handler about to load a workflow that has not ended. */
  ghost predicate HandlerReady(s: Sys, pid: nat) {
    && pid in s.procs
    && s.procs[pid].pc.Loading? && (s.procs[pid].pc.purpose.ToFail? || s.procs[pid].pc.purpose.ToDeadLetter?)
    && s.procs[pid].task in s.log && s.log[s.procs[pid].task] != []
    && !Last(s, s.procs[pid].task).state.Terminal()
  }

  /** Only the counter of one process differs between the process tables. */
  ghost predicate OnlyCounterMoved(s: Sys, t: Sys, pid: nat) {
    && pid in s.procs && pid in t.procs
    && t.procs == s.procs[pid := t.procs[pid]]
    && t.procs[pid].task == s.procs[pid].task && t.procs[pid].delivery == s.procs[pid].delivery
  }

  function HandlerMove(purpose: Purpose): Move
    requires purpose.ToFail? || purpose.ToDeadLetter?
  {
    if purpose.ToFail? then FailDelivery(purpose.error) else DeadLetter(purpose.error)
  }

  /** `r` is `s` with one more checkpoint of `task`, and otherwise differs at most in events and processes. */
  ghost predicate AddsCheckpoint(s: Sys, r: Sys, task: TaskId, c: Commit) {
    && task in s.log
    && r.log == s.log[task := s.log[task] + [c]]
    && r.world.workflows == s.world.workflows[task := WorkflowRow(c.state, |s.log[task]|)]
    && r.world.queue == s.world.queue && r.world.approvals == s.world.approvals && r.world.ledger == s.world.ledger
    && r.seen == s.seen
  }

  ghost predicate Ends(s: Sys, r: Sys, pid: nat) {
    && pid in s.procs && pid in r.procs && !r.procs[pid].Live()
    && r.procs == s.procs[pid := r.procs[pid]]
    && r.procs[pid].task == s.procs[pid].task && r.procs[pid].delivery == s.procs[pid].delivery
  }

  /** A save of the loaded checkpoint, when nothing came between. */
  lemma SaveAdvances(cfg: Config, s: Sys, pid: nat, a: Answer)
    requires cfg.Valid() && Inv(cfg, s) && pid in s.procs && s.procs[pid].pc.Saving? && s.procs[pid].base.Some?
    requires s.procs[pid].task in s.log && s.log[s.procs[pid].task] != []
    requires s.procs[pid].base.value == Last(s, s.procs[pid].task).state
    ensures var p := s.procs[pid];
            var m := p.pc.move;
            var c := Commit(m, Apply(cfg, Last(s, p.task).state, m));
            var r := DoAdvance(cfg, s, pid, a);
            && AddsCheckpoint(s, r, p.task, c)
            && r.world.events == s.world.events
            && r.procs == s.procs[pid := p.(base := Some(c.state), pc := AfterSave(cfg, p.task, m))]
  {
    hide DoAdvance, Inv, Apply, AfterSave, WellFormed, ValidLog;
    var p := s.procs[pid];
    LogIsOk(cfg, s, p.task);
    LogWellFormed(cfg, p.task, s.log[p.task], |s.log[p.task]| - 1);
    LastTask(cfg, p.task, s.log[p.task]);
    CommitHasShape(cfg, s, pid, a);
  }

  lemma EmitLastStep(cfg: Config, s: Sys, pid: nat, a: Answer)
    requires cfg.Valid() && pid in s.procs && s.procs[pid].pc.Emitting? && s.procs[pid].pc.next.Halted?
    ensures var r := DoAdvance(cfg, s, pid, a);
            && Ends(s, r, pid) && r.log == s.log && r.seen == s.seen
            && r.world == RecordEvent(s.world, s.procs[pid].task, s.procs[pid].pc.kind)
  {
  }

  lemma HandlerLoads(cfg: Config, s: Sys, pid: nat, a: Answer)
    requires cfg.Valid() && Inv(cfg, s) && HandlerReady(s, pid)
    ensures var p := s.procs[pid];
            DoAdvance(cfg, s, pid, a) ==
              s.(procs := s.procs[pid := p.(base := Some(Last(s, p.task).state), pc := Saving(HandlerMove(p.pc.purpose)))])
  {
    hide SaveStep, EngineStep, ResumeStep, LookupStep, RecordStep, RetryStep, ResolveStep, AcknowledgeStep,
         AfterBackend, CreateApproval, Enqueue, AfterSettlement, Inv, ValidLog;
    LogIsOk(cfg, s, s.procs[pid].task);
    assert s.seen + multiset{} == s.seen;
  }

  /** The save of a handler; what it leaves is named, so that nobody has to compute it again. */
  lemma HandlerSaves(cfg: Config, s: Sys, pid: nat, a: Answer, n: nat) returns (r: Sys)
    requires cfg.Valid() && Inv(cfg, s) && pid in s.procs && n > 0
    requires s.procs[pid].pc.Saving? && (s.procs[pid].pc.move.FailDelivery? || s.procs[pid].pc.move.DeadLetter?)
    requires s.procs[pid].task in s.log && s.log[s.procs[pid].task] != []
    requires s.procs[pid].base == Some(Last(s, s.procs[pid].task).state)
    ensures var p := s.procs[pid];
            var c := Commit(p.pc.move, Apply(cfg, Last(s, p.task).state, p.pc.move));
            && Drain(cfg, s, pid, a, n) == Drain(cfg, r, pid, a, n - 1)
            && AddsCheckpoint(s, r, p.task, c)
            && pid in r.procs && r.procs[pid].pc.Emitting? && r.procs[pid].pc.next.Halted?
            && r.procs == s.procs[pid := r.procs[pid]]
            && r.procs[pid].task == p.task && r.procs[pid].delivery == p.delivery
  {
    hide DoAdvance, Drain;
    SaveAdvances(cfg, s, pid, a);
    DrainStep(cfg, s, pid, a, n);
    r := DoAdvance(cfg, s, pid, a);
  }

  lemma HandlerEmits(cfg: Config, s: Sys, pid: nat, a: Answer, n: nat) returns (r: Sys)
    requires cfg.Valid() && pid in s.procs && s.procs[pid].pc.Emitting? && s.procs[pid].pc.next.Halted? && n > 0
    ensures Drain(cfg, s, pid, a, n) == r
    ensures Ends(s, r, pid) && r.log == s.log && r.seen == s.seen
    ensures r.world == RecordEvent(s.world, s.procs[pid].task, s.procs[pid].pc.kind)
  {
    EmitLastStep(cfg, s, pid, a);
    DrainStep(cfg, s, pid, a, n);
    r := DoAdvance(cfg, s, pid, a);
    DrainStops(cfg, r, pid, a, n - 1);
  }

  lemma HandlerStarts(cfg: Config, s: Sys, pid: nat, a: Answer, n: nat) returns (r: Sys)
    requires cfg.Valid() && Inv(cfg, s) && HandlerReady(s, pid) && n > 0
    ensures var p := s.procs[pid];
            && Drain(cfg, s, pid, a, n) == Drain(cfg, r, pid, a, n - 1) && Inv(cfg, r)
            && r == s.(procs := s.procs[pid := p.(base := Some(Last(s, p.task).state), pc := Saving(HandlerMove(p.pc.purpose)))])
  {
    HandlerLoads(cfg, s, pid, a);
    AdvanceKeepsInv(cfg, s, pid, a);
    DrainStep(cfg, s, pid, a, n);
    r := DoAdvance(cfg, s, pid, a);
  }

  /** The handlers of `run_once` after a permanent or a final retryable error. */
  lemma HandlerRuns(cfg: Config, s: Sys, pid: nat, a: Answer, n: nat) returns (r: Sys)
    requires cfg.Valid() && Inv(cfg, s) && HandlerReady(s, pid) && n >= 3
    ensures var task := s.procs[pid].task;
            var m := HandlerMove(s.procs[pid].pc.purpose);
            && r == Drain(cfg, s, pid, a, n)
            && Ends(s, r, pid) && AddsCheckpoint(s, r, task, Commit(m, Apply(cfg, Last(s, task).state, m)))
  {
    hide DoAdvance, Drain;
    var s1 := HandlerStarts(cfg, s, pid, a, n);
    var s2 := HandlerSaves(cfg, s1, pid, a, n - 1);
    r := HandlerEmits(cfg, s2, pid, a, n - 2);
  }

  /** `r` is `s` with a settled delivery and a new queue. */
  ghost predicate Requeues(s: Sys, r: Sys, task: TaskId, queue: seq<QueueRow>) {
    && r.log == s.log && r.world == s.world.(queue := queue) && r.seen == s.seen + multiset{Settled(task)}
  }

  function DoneRow(row: QueueRow): QueueRow {
    row.(status := Done, leaseUntil := None)
  }

  lemma AcknowledgeAdvances(cfg: Config, s: Sys, pid: nat, a: Answer)
    requires cfg.Valid() && pid in s.procs && s.procs[pid].pc.Acknowledging?
    requires s.procs[pid].delivery.Some? && s.procs[pid].delivery.value.id < |s.world.queue|
    ensures var p := s.procs[pid];
            var id := p.delivery.value.id;
            var r := DoAdvance(cfg, s, pid, a);
            && Requeues(s, r, p.task, s.world.queue[id := DoneRow(s.world.queue[id])])
            && r.procs == s.procs[pid := p.(pc := AfterSettlement(p.pc.settlement))]
  {
  }

  lemma FinishSettles(cfg: Config, s: Sys, pid: nat, a: Answer)
    requires cfg.Valid() && pid in s.procs && s.procs[pid].pc == Acknowledging(Finish)
    requires s.procs[pid].delivery.Some? && s.procs[pid].delivery.value.id < |s.world.queue|
    ensures var id := s.procs[pid].delivery.value.id;
            var r := Drain(cfg, s, pid, a, SETTLEMENT_STEPS);
            Ends(s, r, pid) && Requeues(s, r, s.procs[pid].task, s.world.queue[id := DoneRow(s.world.queue[id])])
  {
    AcknowledgeAdvances(cfg, s, pid, a);
    DrainStep(cfg, s, pid, a, SETTLEMENT_STEPS);
    DrainStops(cfg, DoAdvance(cfg, s, pid, a), pid, a, SETTLEMENT_STEPS - 1);
  }

  lemma EnqueueStep(cfg: Config, s: Sys, pid: nat, a: Answer)
    requires cfg.Valid() && pid in s.procs && s.procs[pid].pc.Enqueuing? && !HasLive(s.world.queue, s.procs[pid].task)
    ensures var p := s.procs[pid];
            var r := DoAdvance(cfg, s, pid, a);
            && r == s.(world := s.world.(queue := s.world.queue + [NewRow(p.task, cfg.maxQueueAttempts, a.now)]),
                       procs := s.procs[pid := p.(pc := Halted)])
  {
    assert s.seen + multiset{} == s.seen;
  }

  lemma ReenqueueSettles(cfg: Config, s: Sys, pid: nat, a: Answer)
    requires cfg.Valid() && pid in s.procs && s.procs[pid].pc == Acknowledging(Reenqueue)
    requires s.procs[pid].delivery.Some? && s.procs[pid].delivery.value.id < |s.world.queue|
    requires var id := s.procs[pid].delivery.value.id;
             !HasLive(s.world.queue[id := DoneRow(s.world.queue[id])], s.procs[pid].task)
    ensures var id := s.procs[pid].delivery.value.id;
            var r := Drain(cfg, s, pid, a, SETTLEMENT_STEPS);
            && Ends(s, r, pid)
            && Requeues(s, r, s.procs[pid].task,
                        s.world.queue[id := DoneRow(s.world.queue[id])] + [NewRow(s.procs[pid].task, cfg.maxQueueAttempts, a.now)])
  {
    AcknowledgeAdvances(cfg, s, pid, a);
    var s1 := DoAdvance(cfg, s, pid, a);
    DrainStep(cfg, s, pid, a, SETTLEMENT_STEPS);
    EnqueueStep(cfg, s1, pid, a);
    DrainStep(cfg, s1, pid, a, SETTLEMENT_STEPS - 1);
    DrainStops(cfg, DoAdvance(cfg, s1, pid, a), pid, a, SETTLEMENT_STEPS - 2);
  }

  /** A new queue and one more checkpoint. */
  ghost predicate RequeuesAndSaves(s: Sys, r: Sys, task: TaskId, queue: seq<QueueRow>, c: Commit) {
    && task in s.log
    && r.log == s.log[task := s.log[task] + [c]]
    && r.world.workflows == s.world.workflows[task := WorkflowRow(c.state, |s.log[task]|)]
    && r.world.queue == queue && r.world.approvals == s.world.approvals && r.world.ledger == s.world.ledger
    && r.seen == s.seen + multiset{Settled(task)}
  }

  lemma SettlesInTwo(s: Sys, t: Sys, r: Sys, pid: nat, task: TaskId, queue: seq<QueueRow>, c: Commit)
    requires Requeues(s, t, task, queue) && OnlyCounterMoved(s, t, pid)
    requires AddsCheckpoint(t, r, task, c) && Ends(t, r, pid)
    ensures RequeuesAndSaves(s, r, task, queue, c) && Ends(s, r, pid)
  {
  }

  /** Settling the row leaves the workflow to be loaded. */
  lemma HandlerComesNext(s: Sys, t: Sys, pid: nat, queue: seq<QueueRow>)
    requires Delivered(s, pid) && !Last(s, s.procs[pid].task).state.Terminal()
    requires OnlyCounterMoved(s, t, pid) && Requeues(s, t, s.procs[pid].task, queue)
    requires t.procs[pid].pc.Loading? && (t.procs[pid].pc.purpose.ToFail? || t.procs[pid].pc.purpose.ToDeadLetter?)
    ensures HandlerReady(t, pid)
  {
  }

  lemma AcknowledgesFirst(cfg: Config, s: Sys, pid: nat, a: Answer) returns (t: Sys)
    requires cfg.Valid() && Inv(cfg, s) && Delivered(s, pid) && !Last(s, s.procs[pid].task).state.Terminal()
    requires s.procs[pid].pc.Acknowledging? && s.procs[pid].pc.settlement.FailAfter?
    ensures var p := s.procs[pid];
            var id := p.delivery.value.id;
            && Inv(cfg, t) && OnlyCounterMoved(s, t, pid)
            && t.procs[pid].pc == Loading(ToFail(p.pc.settlement.error))
            && Requeues(s, t, p.task, s.world.queue[id := DoneRow(s.world.queue[id])])
            && Drain(cfg, s, pid, a, 5) == Drain(cfg, t, pid, a, 4)
  {
    hide DoAdvance, Drain, Inv;
    AcknowledgeAdvances(cfg, s, pid, a);
    AdvanceKeepsInv(cfg, s, pid, a);
    DrainStep(cfg, s, pid, a, 5);
    t := DoAdvance(cfg, s, pid, a);
  }

  lemma FailureSettles(cfg: Config, s: Sys, pid: nat, a: Answer)
    requires cfg.Valid() && Inv(cfg, s) && Delivered(s, pid) && !Last(s, s.procs[pid].task).state.Terminal()
    requires s.procs[pid].pc.Acknowledging? && s.procs[pid].pc.settlement.FailAfter?
    ensures var p := s.procs[pid];
            var id := p.delivery.value.id;
            var m := FailDelivery(p.pc.settlement.error);
            var r := Drain(cfg, s, pid, a, SETTLEMENT_STEPS);
            && Ends(s, r, pid)
            && RequeuesAndSaves(s, r, p.task, s.world.queue[id := DoneRow(s.world.queue[id])],
                                Commit(m, Apply(cfg, Last(s, p.task).state, m)))
  {
    hide Drain, Inv, Apply, AddsCheckpoint, RequeuesAndSaves, Ends, HandlerReady;
    var p := s.procs[pid];
    var m := FailDelivery(p.pc.settlement.error);
    var t := AcknowledgesFirst(cfg, s, pid, a);
    HandlerComesNext(s, t, pid, t.world.queue);
    var r := HandlerRuns(cfg, t, pid, a, 4);
    SettlesInTwo(s, t, r, pid, p.task, t.world.queue, Commit(m, Apply(cfg, Last(s, p.task).state, m)));
  }

  lemma RetryAdvances(cfg: Config, s: Sys, pid: nat, a: Answer)
    requires cfg.Valid() && pid in s.procs && s.procs[pid].pc.Retrying?
    requires s.procs[pid].delivery.Some? && s.procs[pid].delivery.value.id < |s.world.queue|
    ensures var p := s.procs[pid];
            var d := p.delivery.value;
            var r := DoAdvance(cfg, s, pid, a);
            && Requeues(s, r, p.task, s.world.queue[d.id := RetryRow(s.world.queue[d.id], d, cfg.retryBaseSeconds, a.now)])
            && r.procs == s.procs[pid := p.(pc := if d.attempts >= d.maxAttempts then Loading(ToDeadLetter(p.pc.error)) else Halted)]
  {
  }

  lemma RetrySettles(cfg: Config, s: Sys, pid: nat, a: Answer)
    requires cfg.Valid() && pid in s.procs && s.procs[pid].pc.Retrying?
    requires s.procs[pid].delivery.Some? && s.procs[pid].delivery.value.id < |s.world.queue|
    requires s.procs[pid].delivery.value.attempts < s.procs[pid].delivery.value.maxAttempts
    ensures var d := s.procs[pid].delivery.value;
            var r := Drain(cfg, s, pid, a, SETTLEMENT_STEPS);
            && Ends(s, r, pid)
            && Requeues(s, r, s.procs[pid].task,
                        s.world.queue[d.id := RetryRow(s.world.queue[d.id], d, cfg.retryBaseSeconds, a.now)])
  {
    RetryAdvances(cfg, s, pid, a);
    DrainStep(cfg, s, pid, a, SETTLEMENT_STEPS);
    DrainStops(cfg, DoAdvance(cfg, s, pid, a), pid, a, SETTLEMENT_STEPS - 1);
  }

  lemma RetriesFirst(cfg: Config, s: Sys, pid: nat, a: Answer) returns (t: Sys)
    requires cfg.Valid() && Inv(cfg, s) && Delivered(s, pid) && !Last(s, s.procs[pid].task).state.Terminal()
    requires s.procs[pid].pc.Retrying?
    requires s.procs[pid].delivery.value.attempts >= s.procs[pid].delivery.value.maxAttempts
    ensures var p := s.procs[pid];
            var d := p.delivery.value;
            && Inv(cfg, t) && OnlyCounterMoved(s, t, pid)
            && t.procs[pid].pc == Loading(ToDeadLetter(p.pc.error))
            && Requeues(s, t, p.task, s.world.queue[d.id := RetryRow(s.world.queue[d.id], d, cfg.retryBaseSeconds, a.now)])
            && Drain(cfg, s, pid, a, 5) == Drain(cfg, t, pid, a, 4)
  {
    hide DoAdvance, Drain, Inv, RetryRow;
    RetryAdvances(cfg, s, pid, a);
    AdvanceKeepsInv(cfg, s, pid, a);
    DrainStep(cfg, s, pid, a, 5);
    t := DoAdvance(cfg, s, pid, a);
  }

  lemma DeadLetterSettles(cfg: Config, s: Sys, pid: nat, a: Answer)
    requires cfg.Valid() && Inv(cfg, s) && Delivered(s, pid) && !Last(s, s.procs[pid].task).state.Terminal()
    requires s.procs[pid].pc.Retrying?
    requires s.procs[pid].delivery.value.attempts >= s.procs[pid].delivery.value.maxAttempts
    ensures var p := s.procs[pid];
            var d := p.delivery.value;
            var m := DeadLetter(p.pc.error);
            var r := Drain(cfg, s, pid, a, SETTLEMENT_STEPS);
            && Ends(s, r, pid)
            && RequeuesAndSaves(s, r, p.task,
                                s.world.queue[d.id := RetryRow(s.world.queue[d.id], d, cfg.retryBaseSeconds, a.now)],
                                Commit(m, Apply(cfg, Last(s, p.task).state, m)))
  {
    hide Drain, Inv, Apply, AddsCheckpoint, RequeuesAndSaves, RetryRow, Ends, HandlerReady;
    var p := s.procs[pid];
    var m := DeadLetter(p.pc.error);
    var t := RetriesFirst(cfg, s, pid, a);
    HandlerComesNext(s, t, pid, t.world.queue);
    var r := HandlerRuns(cfg, t, pid, a, 4);
    SettlesInTwo(s, t, r, pid, p.task, t.world.queue, Commit(m, Apply(cfg, Last(s, p.task).state, m)));
  }
}
