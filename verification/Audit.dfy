/**
 The audit trail against the counters, over every interleaving: each counted event is written once,
 is still about to be written, or was lost to a crash between the save and the event.
 */
module Audit {
  import opened Models
  import opened Policy
  import opened Tools
  import opened Tables
  import opened Checkpoints
  import opened CheckpointFacts
  import opened Machine
  import opened System
  import opened Refinement

  /** The two counters of a workflow that events repeat. */
  datatype Tally = Calls | Retries

  predicate Counted(tally: Tally, kind: EventKind) {
    match tally
    case Calls => kind.ToolCompleted?
    case Retries => kind.ModelRetryableFailure? || kind.ToolRetryableFailure?
  }

  function CounterOf(tally: Tally, state: WorkflowState): nat {
    match tally
    case Calls => state.toolCalls
    case Retries => state.retries
  }

  ghost function CounterNow(s: Sys, task: TaskId, tally: Tally): nat {
    if task in s.log && s.log[task] != [] then CounterOf(tally, Last(s, task).state) else 0
  }

  function EventCount(events: seq<Event>, task: TaskId, tally: Tally): nat {
    if events == [] then 0
    else
      var e := events[|events| - 1];
      EventCount(events[..|events| - 1], task, tally) + (if e.task == task && Counted(tally, e.kind) then 1 else 0)
  }

  function LostCount(seen: multiset<Observation>, task: TaskId, tally: Tally): nat {
    match tally
    case Calls => seen[EventLost(task, ToolCompleted)]
    case Retries => seen[EventLost(task, ModelRetryableFailure)] + seen[EventLost(task, ToolRetryableFailure)]
  }

  predicate Announces(p: Proc, task: TaskId, tally: Tally) {
    p.pc.Emitting? && p.task == task && Counted(tally, p.pc.kind)
  }

  /** The processes that saved a counted change and have not written its event. */
  function Announcing(s: Sys, task: TaskId, tally: Tally): set<nat> {
    set pid | pid in s.procs && Announces(s.procs[pid], task, tally)
  }

  /** No event is written behind another one without a save between them. */
  predicate Flat(pc: Pc) {
    pc.Emitting? ==> !pc.next.Emitting?
  }

  ghost predicate Balanced(s: Sys, task: TaskId, tally: Tally) {
    EventCount(s.world.events, task, tally) + LostCount(s.seen, task, tally) + |Announcing(s, task, tally)|
    == CounterNow(s, task, tally)
  }

  ghost predicate AllFlat(s: Sys) {
    forall pid | pid in s.procs :: Flat(s.procs[pid].pc)
  }

  // ----- one step of one process -----

  lemma StepStaysFlat(cfg: Config, w: World, p: Proc, a: Answer)
    requires cfg.Valid() && Flat(p.pc)
    ensures Flat(StepProc(cfg, w, p, a).1.pc)
  {
    hide Effect, RetryRow, RequestReason, ValidatedRequest, Evaluate, Validate, StructuredResult;
  }

  /** What a save does to the counters, and what it announces. */
  lemma SaveAnnounces(cfg: Config, s: WorkflowState, m: Move, tally: Tally)
    requires cfg.Valid()
    ensures var pc := AfterSave(cfg, s.taskId, m);
            CounterOf(tally, Apply(cfg, s, m)) == CounterOf(tally, s) + (if pc.Emitting? && Counted(tally, pc.kind) then 1 else 0)
  {
    hide RequestReason, ValidatedRequest, Evaluate, Validate, PendingFor;
  }

  /** A step that saves nothing writes the event it was about to write, or none, and announces nothing new. */
  lemma QuietStepEvents(cfg: Config, w: World, p: Proc, a: Answer, tally: Tally)
    requires cfg.Valid() && Flat(p.pc) && !CommitsNow(w, p) && (p.base.Some? ==> p.base.value.taskId == p.task)
    ensures var (v, q) := StepProc(cfg, w, p, a);
            && v.events == (if p.pc.Emitting? then w.events + [Event(p.task, p.pc.kind)] else w.events)
            && (q.pc.Emitting? ==> !Counted(tally, q.pc.kind))
  {
    hide Effect, RetryRow, RequestReason, ValidatedRequest, Evaluate, Validate, StructuredResult, AfterSave;
    if p.pc.Saving? && p.base.Some? {
      ApplyKeepsTask(cfg, p.base.value, p.pc.move);
    }
  }

  lemma EventCountSnoc(events: seq<Event>, e: Event, task: TaskId, tally: Tally)
    ensures EventCount(events + [e], task, tally)
            == EventCount(events, task, tally) + (if e.task == task && Counted(tally, e.kind) then 1 else 0)
  {
    assert (events + [e])[..|events + [e]| - 1] == events;
  }

  /** Replacing one process changes who announces by at most that process. */
  lemma OneProcessAnnounces(s: Sys, r: Sys, pid: nat, task: TaskId, tally: Tally)
    requires pid in s.procs && pid in r.procs && r.procs == s.procs[pid := r.procs[pid]]
    ensures |Announcing(r, task, tally)| + (if Announces(s.procs[pid], task, tally) then 1 else 0)
            == |Announcing(s, task, tally)| + (if Announces(r.procs[pid], task, tally) then 1 else 0)
  {
    hide Announces;
    SetsDifferByOne(Announcing(s, task, tally), Announcing(r, task, tally), pid);
  }

  lemma SetsDifferByOne(a: set<nat>, b: set<nat>, x: nat)
    requires a - {x} == b - {x}
    ensures |a| + (if x in b then 1 else 0) == |b| + (if x in a then 1 else 0)
  {
    assert x in a ==> a == (a - {x}) + {x};
    assert x in b ==> b == (b - {x}) + {x};
    assert x !in a ==> a == a - {x};
    assert x !in b ==> b == b - {x};
  }

  lemma AdvanceLosesNothing(cfg: Config, s: Sys, pid: nat, a: Answer, task: TaskId, tally: Tally)
    requires cfg.Valid() && pid in s.procs
    ensures LostCount(DoAdvance(cfg, s, pid, a).seen, task, tally) == LostCount(s.seen, task, tally)
  {
    hide StepProc, LogAfter, StructuredResult;
  }

  lemma ProcTask(cfg: Config, s: Sys, pid: nat)
    requires cfg.Valid() && Inv(cfg, s) && pid in s.procs && s.procs[pid].base.Some?
    ensures s.procs[pid].base.value.taskId == s.procs[pid].task
  {
    hide Inv, PcOk, Gated, WellFormed, ValidLog;
    var p := s.procs[pid];
    ProcIsOk(cfg, s, pid);
    LogIsOk(cfg, s, p.task);
    BaseTask(cfg, p.task, s.log[p.task], p.base.value.version);
  }

  lemma BaseTask(cfg: Config, task: TaskId, log: seq<Commit>, i: nat)
    requires cfg.Valid() && ValidLog(cfg, task, log) && i < |log|
    ensures log[i].state.taskId == task
  {
    hide ValidLog;
    LogWellFormed(cfg, task, log, i);
  }

  lemma CommitStaysBalanced(cfg: Config, s: Sys, pid: nat, a: Answer, task: TaskId, tally: Tally)
    requires cfg.Valid() && Inv(cfg, s) && pid in s.procs && CommitsNow(s.world, s.procs[pid])
    requires Balanced(s, task, tally)
    ensures Balanced(DoAdvance(cfg, s, pid, a), task, tally)
  {
    hide DoAdvance, Inv, Apply, AfterSave, CounterOf, Counted, WellFormed, Follows, ValidLog, LostCount, EventCount;
    var p := s.procs[pid];
    CommitterIsCurrent(cfg, s, pid);
    CommitHasShape(cfg, s, pid, a);
    AdvanceLosesNothing(cfg, s, pid, a, task, tally);
    SaveAnnounces(cfg, p.base.value, p.pc.move, tally);
    OneProcessAnnounces(s, DoAdvance(cfg, s, pid, a), pid, task, tally);
  }

  lemma QuietStaysBalanced(cfg: Config, s: Sys, pid: nat, a: Answer, task: TaskId, tally: Tally)
    requires cfg.Valid() && Inv(cfg, s) && pid in s.procs && !CommitsNow(s.world, s.procs[pid]) && AllFlat(s)
    requires Balanced(s, task, tally)
    ensures Balanced(DoAdvance(cfg, s, pid, a), task, tally)
  {
    hide StepProc, Inv, CounterOf, Counted, LostCount, EventCount, CommitsNow, SeenNow, Apply;
    var p := s.procs[pid];
    if p.base.Some? {
      ProcTask(cfg, s, pid);
    }
    QuietStepEvents(cfg, s.world, p, a, tally);
    StepFrame(cfg, s.world, p, a);
    AdvanceLosesNothing(cfg, s, pid, a, task, tally);
    OneProcessAnnounces(s, DoAdvance(cfg, s, pid, a), pid, task, tally);
    EventCountSnoc(s.world.events, Event(p.task, if p.pc.Emitting? then p.pc.kind else WorkflowCreated), task, tally);
  }

  lemma AdvanceStaysFlat(cfg: Config, s: Sys, pid: nat, a: Answer)
    requires cfg.Valid() && pid in s.procs && AllFlat(s)
    ensures AllFlat(DoAdvance(cfg, s, pid, a))
  {
    hide StepProc, LogAfter, SeenNow;
    StepStaysFlat(cfg, s.world, s.procs[pid], a);
  }

  // ----- the other steps -----

  lemma CrashStaysBalanced(cfg: Config, s: Sys, pid: nat, task: TaskId, tally: Tally)
    requires pid in s.procs && Balanced(s, task, tally)
    ensures Balanced(DoCrash(cfg, s, pid), task, tally)
    ensures LostCount(DoCrash(cfg, s, pid).seen, task, tally)
            == LostCount(s.seen, task, tally) + (if Announces(s.procs[pid], task, tally) then 1 else 0)
  {
    hide CounterOf, EventCount;
    OneProcessAnnounces(s, DoCrash(cfg, s, pid), pid, task, tally);
  }

  lemma CreateStaysBalanced(cfg: Config, s: Sys, created: TaskId, goal: string, scenario: string, now: real,
          task: TaskId, tally: Tally)
    requires cfg.Valid() && Inv(cfg, s) && Balanced(s, task, tally)
    ensures Balanced(DoCreate(cfg, s, created, goal, scenario, now), task, tally)
  {
    hide Inv, EventCount, LostCount;
    LogIsOk(cfg, s, created);
    EventCountSnoc(s.world.events, Event(created, WorkflowCreated), task, tally);
    var r := DoCreate(cfg, s, created, goal, scenario, now);
    assert Announcing(r, task, tally) == Announcing(s, task, tally);
  }

  lemma ReplayKeepsCounters(cfg: Config, s: Sys, task: TaskId, tally: Tally)
    requires cfg.Valid()
    ensures task in s.log && s.log[task] != [] ==>
              CounterOf(tally, Apply(cfg, Last(s, task).state, Replay)) == CounterOf(tally, Last(s, task).state)
  {
  }

  lemma ReplayStaysBalanced(cfg: Config, s: Sys, row: nat, replayed: TaskId, now: real, task: TaskId, tally: Tally)
    requires cfg.Valid() && Inv(cfg, s) && Balanced(s, task, tally)
    ensures Balanced(DoReplay(cfg, s, row, replayed, now), task, tally)
  {
    hide Inv, EventCount, LostCount, CounterOf, Apply;
    var r := DoReplay(cfg, s, row, replayed, now);
    ReplayKeepsCounters(cfg, s, replayed, tally);
    if Replayable(s.world, row, replayed) {
      StoredIsLast(cfg, s, replayed);
      EventCountSnoc(s.world.events, Event(replayed, DlqReplayed), task, tally);
    }
    assert Announcing(r, task, tally) == Announcing(s, task, tally);
  }

  /** Processes that have not begun announce nothing. */
  lemma JoiningAnnouncesNothing(s: Sys, r: Sys, task: TaskId, tally: Tally)
    requires forall pid | pid in s.procs :: pid in r.procs && r.procs[pid] == s.procs[pid]
    requires forall pid | pid in r.procs :: pid in s.procs || r.procs[pid].pc.Loading?
    ensures Announcing(r, task, tally) == Announcing(s, task, tally)
  {
  }

  lemma QueueStepStaysBalanced(cfg: Config, s: Sys, step: Step, task: TaskId, tally: Tally)
    requires cfg.Valid() && Balanced(s, task, tally)
    requires step.ClaimNext? || step.Heartbeat? || step.RequestApproval? || step.RequestRejection?
    ensures Balanced(Do(cfg, s, step), task, tally)
  {
    hide EventCount, LostCount, Announcing, CounterOf, Claim, DoAdvance, DoCreate, DoReplay, DoCrash;
    if step.ClaimNext? {
      ClaimTouchesQueueOnly(s.world, step.worker, cfg.leaseSeconds, step.now);
    }
    JoiningAnnouncesNothing(s, Do(cfg, s, step), task, tally);
  }

  lemma NoteStaysBalanced(cfg: Config, s: Sys, pid: nat, task: TaskId, tally: Tally)
    requires cfg.Valid() && Balanced(s, task, tally)
    ensures Balanced(Do(cfg, s, NoteHeartbeat(pid)), task, tally)
  {
    hide EventCount, LostCount, Announcing, CounterOf;
    if HoldsDelivery(s, pid) {
      EventCountSnoc(s.world.events, Event(s.procs[pid].task, QueueLeaseExtended), task, tally);
    }
    JoiningAnnouncesNothing(s, Do(cfg, s, NoteHeartbeat(pid)), task, tally);
  }

  lemma DoStaysBalanced(cfg: Config, s: Sys, step: Step, task: TaskId, tally: Tally)
    requires cfg.Valid() && Inv(cfg, s) && AllFlat(s) && Balanced(s, task, tally)
    ensures Balanced(Do(cfg, s, step), task, tally)
  {
    hide Inv, Balanced, DoAdvance, DoCreate, DoReplay, DoCrash, AllFlat, Flat, DoClaim, DoRequest, CommitsNow,
         HoldsDelivery;
    match step {
      case CreateIncident(created, goal, scenario, now) => CreateStaysBalanced(cfg, s, created, goal, scenario, now, task, tally);
      case Advance(pid, answer) =>
        if pid !in s.procs {
          NobodyAdvances(cfg, s, pid, answer);
        } else if CommitsNow(s.world, s.procs[pid]) {
          CommitStaysBalanced(cfg, s, pid, answer, task, tally);
        } else {
          QuietStaysBalanced(cfg, s, pid, answer, task, tally);
        }
      case Crash(pid) =>
        if pid in s.procs {
          CrashStaysBalanced(cfg, s, pid, task, tally);
        } else {
          NobodyCrashes(cfg, s, pid);
        }
      case ReplayRow(row, replayed, now) => ReplayStaysBalanced(cfg, s, row, replayed, now, task, tally);
      case NoteHeartbeat(pid) => NoteStaysBalanced(cfg, s, pid, task, tally);
      case _ => QueueStepStaysBalanced(cfg, s, step, task, tally);
    }
  }

  lemma NobodyCrashes(cfg: Config, s: Sys, pid: nat)
    requires pid !in s.procs
    ensures DoCrash(cfg, s, pid) == s
  {
  }

  lemma DoStaysFlat(cfg: Config, s: Sys, step: Step)
    requires cfg.Valid() && AllFlat(s)
    ensures AllFlat(Do(cfg, s, step))
  {
    hide DoAdvance, Claim, CreateWorkflow, ReplayDeadLetter;
    if step.Advance? {
      if step.pid in s.procs {
        AdvanceStaysFlat(cfg, s, step.pid, step.answer);
      } else {
        NobodyAdvances(cfg, s, step.pid, step.answer);
      }
    }
  }

  lemma {:induction false} RunStaysFlat(cfg: Config, steps: seq<Step>)
    requires cfg.Valid()
    ensures AllFlat(Run(cfg, steps))
  {
    hide Do;
    if steps != [] {
      RunStaysFlat(cfg, steps[..|steps| - 1]);
      DoStaysFlat(cfg, Run(cfg, steps[..|steps| - 1]), steps[|steps| - 1]);
    }
  }

  lemma {:induction false} RunStaysBalanced(cfg: Config, steps: seq<Step>, task: TaskId, tally: Tally)
    requires cfg.Valid()
    ensures Balanced(Run(cfg, steps), task, tally)
  {
    hide Do, Inv, Counted, CounterOf;
    if steps == [] {
      assert Announcing(INITIAL, task, tally) == {};
    } else {
      var before := steps[..|steps| - 1];
      RunStaysBalanced(cfg, before, task, tally);
      RunInv(cfg, before);
      RunStaysFlat(cfg, before);
      DoStaysBalanced(cfg, Run(cfg, before), steps[|steps| - 1], task, tally);
    }
  }

  /**
   Conservation: for every run, interleaving and crash, the events of a task, the announcements still to
   be written and the ones lost in crashes add up to the counter of its last checkpoint.
   */
  lemma EventsMatchCounters(cfg: Config, steps: seq<Step>, s: Sys, task: TaskId, tally: Tally)
    requires cfg.Valid() && ReachedBy(cfg, steps, s)
    ensures EventCount(s.world.events, task, tally) + LostCount(s.seen, task, tally) + |Announcing(s, task, tally)|
            == CounterNow(s, task, tally)
  {
    hide Run, EventCount, LostCount, Announcing, CounterNow, ReachedBy;
    ReachedIsRun(cfg, steps, s);
    RunStaysBalanced(cfg, steps, task, tally);
  }

  // ----- the shortfall -----

  function Crashes(steps: seq<Step>): nat {
    if steps == [] then 0 else Crashes(steps[..|steps| - 1]) + (if steps[|steps| - 1].Crash? then 1 else 0)
  }

  function AllLost(s: Sys, task: TaskId): nat {
    LostCount(s.seen, task, Calls) + LostCount(s.seen, task, Retries)
  }

  lemma DoLoses(cfg: Config, s: Sys, step: Step, task: TaskId)
    requires cfg.Valid()
    ensures AllLost(Do(cfg, s, step), task) <= AllLost(s, task) + (if step.Crash? then 1 else 0)
  {
    hide DoAdvance, Claim, CreateWorkflow, ReplayDeadLetter;
    if step.Advance? {
      if step.pid in s.procs {
        AdvanceLosesNothing(cfg, s, step.pid, step.answer, task, Calls);
        AdvanceLosesNothing(cfg, s, step.pid, step.answer, task, Retries);
      } else {
        NobodyAdvances(cfg, s, step.pid, step.answer);
      }
    }
  }

  lemma {:induction false} LossesAreCrashes(cfg: Config, steps: seq<Step>, task: TaskId)
    requires cfg.Valid()
    ensures AllLost(Run(cfg, steps), task) <= Crashes(steps)
  {
    hide Do, LostCount;
    if steps == [] {
      NothingLostYet(task);
    } else {
      LossesAreCrashes(cfg, steps[..|steps| - 1], task);
      DoLoses(cfg, Run(cfg, steps[..|steps| - 1]), steps[|steps| - 1], task);
    }
  }

  lemma NothingLostYet(task: TaskId)
    ensures AllLost(INITIAL, task) == 0
  {
  }

  predicate NobodyAnnounces(s: Sys, task: TaskId) {
    Announcing(s, task, Calls) == {} && Announcing(s, task, Retries) == {}
  }

  /**
   Counted events never exceed the counters. When nothing is about to be written, the total shortfall
   is at most the number of crashes, so without crashes trail and counters agree.
   */
  lemma AuditShortfall(cfg: Config, steps: seq<Step>, s: Sys, task: TaskId)
    requires cfg.Valid() && ReachedBy(cfg, steps, s) && task in s.world.workflows
    ensures var state := s.world.workflows[task].state;
            var completed := EventCount(s.world.events, task, Calls);
            var retried := EventCount(s.world.events, task, Retries);
            && completed <= state.toolCalls && retried <= state.retries
            && (NobodyAnnounces(s, task) ==> state.toolCalls - completed + state.retries - retried <= Crashes(steps))
            && (NobodyAnnounces(s, task) && Crashes(steps) == 0 ==> completed == state.toolCalls && retried == state.retries)
  {
    hide Run, Inv, LostCount, Crashes, EventCount, ReachedBy;
    ReachedIsRun(cfg, steps, s);
    EventsMatchCounters(cfg, steps, s, task, Calls);
    EventsMatchCounters(cfg, steps, s, task, Retries);
    LossesAreCrashes(cfg, steps, task);
    RunInv(cfg, steps);
    StoredIsLast(cfg, s, task);
  }
}
