/**
 Side effects under crashes: the ledger makes a backend result stick, and evidence is what it holds. The
 only hypothesis, in runs with any interleaving, is that no two processes execute one key at a time.
 */
module Effects {
  import opened Models
  import opened Policy
  import opened Tools
  import opened Tables
  import opened Checkpoints
  import opened CheckpointFacts
  import opened Machine
  import opened System
  import opened Refinement
  import opened ApprovalGate
  import opened Discipline
  import opened LiveRows
  import opened LiveRuns
  import opened Termination
  import opened Holders
  import opened Audit
  import opened Solo

  // ----- in every run -----

  /** Once a record exists, a lookup of its key never leads to the backend, and what it finds is the record. */
  lemma RecordedResultsAreReused(cfg: Config, steps: seq<Step>, s: Sys, more: seq<Step>, r: Sys,
          key: ActionId, pid: nat, a: Answer)
    requires cfg.Valid() && ReachedBy(cfg, steps, s) && ReachedBy(cfg, steps + more, r) && key in s.world.ledger
    requires pid in r.procs && r.procs[pid].pc.LookingUp? && KeyOf(cfg, r.procs[pid]) == key
    ensures var p := r.procs[pid];
            var row := s.world.ledger[key];
            StepProc(cfg, r.world, p, a).1.pc ==
              if row.argumentsHash == cfg.argumentsHash(p.pc.arguments) then Saving(FinishTool(p.pc.tool, row.result)) else Halted
  {
    hide Run, StepProc, VerdictsKept, ReachedBy;
    ReachedIsRun(cfg, steps, s);
    ReachedIsRun(cfg, steps + more, r);
    VerdictsArePermanent(cfg, steps, more);
    OnLookup(cfg, r.world, r.procs[pid], a);
  }

  // ----- one execution of a key at a time -----

  /** Between a lookup that missed and the ledger write. */
  predicate Executing(cfg: Config, p: Proc, key: ActionId) {
    (p.pc.Calling? || p.pc.Recording?) && KeyOf(cfg, p) == key
  }

  ghost predicate NoOverlap(cfg: Config, s: Sys, key: ActionId) {
    forall i, j | i in s.procs && j in s.procs :: Executing(cfg, s.procs[i], key) && Executing(cfg, s.procs[j], key) ==> i == j
  }

  /** At no point of the run do two processes execute the key. */
  ghost predicate NeverOverlaps(cfg: Config, trace: seq<Sys>, key: ActionId) {
    forall n: nat | n < |trace| :: NoOverlap(cfg, trace[n], key)
  }

  predicate RecordingKey(cfg: Config, p: Proc, key: ActionId) {
    p.pc.Recording? && KeyOf(cfg, p) == key
  }

  /** A structured result has come back and is not yet recorded. */
  ghost predicate InFlight(cfg: Config, s: Sys, key: ActionId) {
    exists pid :: pid in s.procs && RecordingKey(cfg, s.procs[pid], key)
  }

  /** Returns of the backend: the recorded or still unrecorded one, and those lost in crashes. */
  ghost predicate Counted(cfg: Config, s: Sys, key: ActionId) {
    s.seen[BackendReturned(key)] == (if key in s.world.ledger || InFlight(cfg, s, key) then 1 else 0) + s.seen[ResultLost(key)]
  }

  /** No event is about to be written in front of a call or a record. */
  predicate Open(pc: Pc) {
    pc.Emitting? ==> !pc.next.Calling? && !pc.next.Recording? && Open(pc.next)
  }

  ghost predicate KeyOk(cfg: Config, s: Sys, key: ActionId) {
    && Counted(cfg, s, key)
    && (forall pid | pid in s.procs && Executing(cfg, s.procs[pid], key) :: key !in s.world.ledger)
    && (forall pid | pid in s.procs :: Open(s.procs[pid].pc))
  }

  // ----- one step of a process -----

  /** The effect of a quiet step on the counts. */
  lemma QuietCounts(cfg: Config, s: Sys, pid: nat, a: Answer, key: ActionId)
    requires cfg.Valid() && pid in s.procs
    ensures var p := s.procs[pid];
            var r := DoAdvance(cfg, s, pid, a);
            && r.seen[ResultLost(key)] == s.seen[ResultLost(key)]
            && r.seen[BackendReturned(key)] == s.seen[BackendReturned(key)]
               + (if p.pc.Calling? && KeyOf(cfg, p) == key && a.backend.Returned? && StructuredResult(a.backend.result) then 1 else 0)
  {
    hide StepProc, LogAfter, StructuredResult;
  }

  lemma StepLedger(cfg: Config, w: World, p: Proc, a: Answer)
    requires cfg.Valid()
    ensures var v := StepProc(cfg, w, p, a).0;
            v.ledger == if p.pc.Recording? then RecordStep(cfg, w, p, p.pc.tool, p.pc.arguments, p.pc.result).ledger else w.ledger
  {
    hide Effect, RetryRow, RequestReason, ValidatedRequest, Evaluate, Validate, StructuredResult, AfterSave,
         AfterEngine, RecordStep;
  }

  lemma StepRecording(cfg: Config, w: World, p: Proc, a: Answer)
    requires cfg.Valid() && !p.pc.Emitting?
    ensures var q := StepProc(cfg, w, p, a).1;
            q.pc.Recording? <==> p.pc.Calling? && a.backend.Returned? && StructuredResult(a.backend.result)
    ensures var q := StepProc(cfg, w, p, a).1;
            q.pc.Recording? ==> q.task == p.task && q.pc == Recording(p.pc.tool, p.pc.arguments, a.backend.result)
    ensures p.pc.Recording? ==> StepProc(cfg, w, p, a).1.pc == Saving(FinishTool(p.pc.tool, p.pc.result))
  {
    hide Effect, RetryRow, RequestReason, ValidatedRequest, Evaluate, Validate, StructuredResult;
  }

  lemma StepStaysOpen(cfg: Config, w: World, p: Proc, a: Answer)
    requires cfg.Valid() && Open(p.pc)
    ensures Open(StepProc(cfg, w, p, a).1.pc)
  {
    hide Effect, RetryRow, Enqueue, RequestReason, ValidatedRequest, Evaluate, Validate, StructuredResult;
    var next := StepProc(cfg, w, p, a).1.pc;
    if next.Emitting? && !p.pc.Emitting? {
      assert Open(next.next);
    }
  }

  /** An execution begins with a lookup that misses, and goes on with a structured result. */
  lemma StepExecutes(cfg: Config, w: World, p: Proc, a: Answer, key: ActionId)
    requires cfg.Valid() && Open(p.pc) && Executing(cfg, StepProc(cfg, w, p, a).1, key)
    ensures var q := StepProc(cfg, w, p, a).1;
            || (p.pc.LookingUp? && q.pc.Calling? && key !in w.ledger && StepProc(cfg, w, p, a).0 == w)
            || (p.pc.Calling? && q.pc.Recording? && Executing(cfg, p, key))
  {
    hide Effect, RetryRow, Enqueue, RequestReason, ValidatedRequest, Evaluate, Validate, StructuredResult,
         AfterSave, AfterLoad, AfterEngine;
    StepCalls(cfg, w, p, a);
  }

  lemma StepCalls(cfg: Config, w: World, p: Proc, a: Answer)
    requires cfg.Valid() && Open(p.pc)
    ensures StepProc(cfg, w, p, a).1.pc.Calling? ==> p.pc.LookingUp?
    ensures StepProc(cfg, w, p, a).1.pc.Recording? ==> p.pc.Calling?
  {
    hide Effect, RetryRow, Enqueue, RequestReason, ValidatedRequest, Evaluate, Validate, StructuredResult;
  }

  lemma OthersStayInFlight(cfg: Config, s: Sys, r: Sys, pid: nat, key: ActionId)
    requires pid in s.procs && pid in r.procs && r.procs == s.procs[pid := r.procs[pid]]
    requires InFlight(cfg, s, key) && !RecordingKey(cfg, s.procs[pid], key)
    ensures InFlight(cfg, r, key)
  {
    var i :| i in s.procs && RecordingKey(cfg, s.procs[i], key);
    assert i in r.procs && RecordingKey(cfg, r.procs[i], key);
  }

  /** How one step of a process changes processes, ledger and what is in flight. */
  lemma StepEffects(cfg: Config, s: Sys, pid: nat, a: Answer)
    requires cfg.Valid() && pid in s.procs
    ensures var p := s.procs[pid];
            var r := DoAdvance(cfg, s, pid, a);
            && pid in r.procs && r.procs == s.procs[pid := r.procs[pid]] && r.procs[pid].task == p.task
            && r.world.ledger == (if p.pc.Recording?
                                  then RecordStep(cfg, s.world, p, p.pc.tool, p.pc.arguments, p.pc.result).ledger
                                  else s.world.ledger)
            && (p.pc.Calling? && a.backend.Returned? && StructuredResult(a.backend.result) ==>
                  r.procs[pid].pc == Recording(p.pc.tool, p.pc.arguments, a.backend.result))
  {
    hide StepProc, LogAfter, StructuredResult, RecordStep, SeenNow;
    StepLedger(cfg, s.world, s.procs[pid], a);
    StepFrame(cfg, s.world, s.procs[pid], a);
    if !s.procs[pid].pc.Emitting? {
      StepRecording(cfg, s.world, s.procs[pid], a);
    }
  }

  lemma RecordsNow(cfg: Config, r: Sys, pid: nat, key: ActionId)
    requires pid in r.procs && RecordingKey(cfg, r.procs[pid], key)
    ensures InFlight(cfg, r, key)
  {
  }

  /** Nobody else executes the key that `pid` executes. */
  lemma AloneInFlight(cfg: Config, s: Sys, pid: nat, key: ActionId)
    requires NoOverlap(cfg, s, key) && pid in s.procs && Executing(cfg, s.procs[pid], key)
    ensures InFlight(cfg, s, key) <==> s.procs[pid].pc.Recording?
  {
    if s.procs[pid].pc.Recording? {
      RecordsNow(cfg, s, pid, key);
    }
    forall i | i in s.procs && RecordingKey(cfg, s.procs[i], key) ensures i == pid {
      assert Executing(cfg, s.procs[i], key);
    }
  }

  lemma SameFlightsOtherwise(cfg: Config, s: Sys, r: Sys, pid: nat, key: ActionId)
    requires pid in s.procs && pid in r.procs && r.procs == s.procs[pid := r.procs[pid]]
    requires !RecordingKey(cfg, s.procs[pid], key) && !RecordingKey(cfg, r.procs[pid], key)
    ensures InFlight(cfg, s, key) <==> InFlight(cfg, r, key)
  {
    if InFlight(cfg, s, key) {
      OthersStayInFlight(cfg, s, r, pid, key);
    }
    if InFlight(cfg, r, key) {
      var i :| i in r.procs && RecordingKey(cfg, r.procs[i], key);
      assert i in s.procs && RecordingKey(cfg, s.procs[i], key);
    }
  }

  lemma AdvanceKeepsCount(cfg: Config, s: Sys, pid: nat, a: Answer, key: ActionId)
    requires cfg.Valid() && KeyOk(cfg, s, key) && NoOverlap(cfg, s, key) && pid in s.procs
    ensures Counted(cfg, DoAdvance(cfg, s, pid, a), key)
  {
    hide DoAdvance, InFlight, StructuredResult, NoOverlap;
    var p := s.procs[pid];
    var r := DoAdvance(cfg, s, pid, a);
    StepEffects(cfg, s, pid, a);
    QuietCounts(cfg, s, pid, a, key);
    StepReaches(cfg, s, pid, a, key);
    if Executing(cfg, p, key) {
      AloneInFlight(cfg, s, pid, key);
      if Executing(cfg, r.procs[pid], key) {
        RecordsNow(cfg, r, pid, key);
      } else if p.pc.Calling? {
        SameFlightsOtherwise(cfg, s, r, pid, key);
      }
    } else {
      SameFlightsOtherwise(cfg, s, r, pid, key);
    }
  }

  /** Where an execution of the key stands after a step. */
  lemma StepReaches(cfg: Config, s: Sys, pid: nat, a: Answer, key: ActionId)
    requires cfg.Valid() && pid in s.procs && Open(s.procs[pid].pc)
    ensures var p := s.procs[pid];
            var r := DoAdvance(cfg, s, pid, a);
            && pid in r.procs
            && (RecordingKey(cfg, r.procs[pid], key) ==>
                  && p.pc.Calling? && Executing(cfg, p, key)
                  && a.backend.Returned? && StructuredResult(a.backend.result))
            && (Executing(cfg, r.procs[pid], key) && !Executing(cfg, p, key) ==> key !in r.world.ledger)
            && (Executing(cfg, r.procs[pid], key) && Executing(cfg, p, key) ==> r.procs[pid].pc.Recording? && p.pc.Calling?)
  {
    hide StepProc, LogAfter, SeenNow, StructuredResult;
    var p := s.procs[pid];
    StepCalls(cfg, s.world, p, a);
    StepFrame(cfg, s.world, p, a);
    if Executing(cfg, StepProc(cfg, s.world, p, a).1, key) {
      StepExecutes(cfg, s.world, p, a, key);
    }
    if !p.pc.Emitting? {
      StepRecording(cfg, s.world, p, a);
    }
  }

  lemma AdvanceKeepsFresh(cfg: Config, s: Sys, pid: nat, a: Answer, key: ActionId, i: nat)
    requires cfg.Valid() && KeyOk(cfg, s, key) && NoOverlap(cfg, s, key) && pid in s.procs
    requires i in DoAdvance(cfg, s, pid, a).procs && Executing(cfg, DoAdvance(cfg, s, pid, a).procs[i], key)
    ensures key !in DoAdvance(cfg, s, pid, a).world.ledger
  {
    hide DoAdvance, InFlight, StructuredResult, Counted;
    StepEffects(cfg, s, pid, a);
    StepReaches(cfg, s, pid, a, key);
  }

  lemma AdvanceStaysOpen(cfg: Config, s: Sys, pid: nat, a: Answer)
    requires cfg.Valid() && pid in s.procs && forall i | i in s.procs :: Open(s.procs[i].pc)
    ensures forall i | i in DoAdvance(cfg, s, pid, a).procs :: Open(DoAdvance(cfg, s, pid, a).procs[i].pc)
  {
    hide StepProc, LogAfter, SeenNow;
    StepStaysOpen(cfg, s.world, s.procs[pid], a);
  }

  lemma AdvanceKeepsKey(cfg: Config, s: Sys, pid: nat, a: Answer, key: ActionId)
    requires cfg.Valid() && KeyOk(cfg, s, key) && NoOverlap(cfg, s, key) && pid in s.procs
    ensures KeyOk(cfg, DoAdvance(cfg, s, pid, a), key)
  {
    hide DoAdvance, Counted, NoOverlap, Open;
    AdvanceKeepsCount(cfg, s, pid, a, key);
    AdvanceStaysOpen(cfg, s, pid, a);
    var r := DoAdvance(cfg, s, pid, a);
    forall i | i in r.procs && Executing(cfg, r.procs[i], key) ensures key !in r.world.ledger {
      AdvanceKeepsFresh(cfg, s, pid, a, key, i);
    }
  }

  // ----- the other steps -----

  /** A crash between the backend's return and the ledger write is what excuses a second return. */
  lemma CrashKeepsKey(cfg: Config, s: Sys, pid: nat, key: ActionId)
    requires cfg.Valid() && KeyOk(cfg, s, key) && NoOverlap(cfg, s, key) && pid in s.procs
    ensures KeyOk(cfg, DoCrash(cfg, s, pid), key)
  {
    hide InFlight, NoOverlap;
    var r := DoCrash(cfg, s, pid);
    if RecordingKey(cfg, s.procs[pid], key) {
      AloneInFlight(cfg, s, pid, key);
      NobodyLeftInFlight(cfg, s, r, pid, key);
    } else {
      SameFlightsOtherwise(cfg, s, r, pid, key);
    }
  }

  lemma NobodyLeftInFlight(cfg: Config, s: Sys, r: Sys, pid: nat, key: ActionId)
    requires NoOverlap(cfg, s, key) && pid in s.procs && RecordingKey(cfg, s.procs[pid], key)
    requires pid in r.procs && r.procs == s.procs[pid := r.procs[pid]] && r.procs[pid].pc.Halted?
    ensures !InFlight(cfg, r, key)
  {
    assert Executing(cfg, s.procs[pid], key);
    forall i | i in r.procs && i != pid ensures !RecordingKey(cfg, r.procs[i], key) {
      assert Executing(cfg, s.procs[i], key) ==> i == pid;
    }
  }

  /** Steps with the same processes, or one that has just begun. */
  lemma JoiningKeepsKey(cfg: Config, s: Sys, r: Sys, key: ActionId)
    requires KeyOk(cfg, s, key) && r.world.ledger == s.world.ledger && r.seen == s.seen
    requires forall pid | pid in s.procs :: pid in r.procs && r.procs[pid] == s.procs[pid]
    requires forall pid | pid in r.procs :: pid in s.procs || r.procs[pid].pc.Loading?
    ensures KeyOk(cfg, r, key)
  {
    if InFlight(cfg, s, key) {
      var i :| i in s.procs && RecordingKey(cfg, s.procs[i], key);
      assert i in r.procs && RecordingKey(cfg, r.procs[i], key);
    }
    if InFlight(cfg, r, key) {
      var i :| i in r.procs && RecordingKey(cfg, r.procs[i], key);
      assert i in s.procs && RecordingKey(cfg, s.procs[i], key);
    }
  }

  lemma PlainKeepsKey(cfg: Config, s: Sys, step: Step, key: ActionId)
    requires cfg.Valid() && KeyOk(cfg, s, key) && !step.Advance? && !step.Crash?
    ensures KeyOk(cfg, Do(cfg, s, step), key)
  {
    hide KeyOk, Claim, Apply, DoAdvance, DoCrash;
    if step.ClaimNext? {
      ClaimTouchesQueueOnly(s.world, step.worker, cfg.leaseSeconds, step.now);
    }
    JoiningKeepsKey(cfg, s, Do(cfg, s, step), key);
  }

  lemma DoKeepsKey(cfg: Config, s: Sys, step: Step, key: ActionId)
    requires cfg.Valid() && KeyOk(cfg, s, key) && NoOverlap(cfg, s, key)
    ensures KeyOk(cfg, Do(cfg, s, step), key)
  {
    hide KeyOk, NoOverlap, DoAdvance, DoCrash, DoClaim, DoCreate, DoReplay, DoRequest;
    if step.Advance? {
      if step.pid in s.procs {
        AdvanceKeepsKey(cfg, s, step.pid, step.answer, key);
      } else {
        NobodyAdvances(cfg, s, step.pid, step.answer);
      }
    } else if step.Crash? {
      if step.pid in s.procs {
        CrashKeepsKey(cfg, s, step.pid, key);
      } else {
        NobodyCrashes(cfg, s, step.pid);
      }
    } else {
      PlainKeepsKey(cfg, s, step, key);
    }
  }

  lemma {:induction false} TraceKeepsKey(cfg: Config, steps: seq<Step>, trace: seq<Sys>, key: ActionId, n: nat)
    requires cfg.Valid() && IsTrace(cfg, steps, trace) && NeverOverlaps(cfg, trace, key) && n <= |steps|
    ensures KeyOk(cfg, trace[n], key)
  {
    hide Do, NoOverlap, Executing;
    if n > 0 {
      TraceKeepsKey(cfg, steps, trace, key, n - 1);
      assert StepAt(cfg, steps, trace, n - 1) && NoOverlap(cfg, trace[n - 1], key);
      DoKeepsKey(cfg, trace[n - 1], steps[n - 1], key);
    }
  }

  /**
   How often a key is executed successfully, in every run in which no two processes execute it at a time:
   once if it is recorded or about to be, and once more for every crash that lost its result.
   */
  lemma ReturnsAreCounted(cfg: Config, steps: seq<Step>, trace: seq<Sys>, key: ActionId)
    requires cfg.Valid() && IsTrace(cfg, steps, trace) && NeverOverlaps(cfg, trace, key)
    ensures var s := trace[|steps|];
            s.seen[BackendReturned(key)] == (if key in s.world.ledger || InFlight(cfg, s, key) then 1 else 0) + s.seen[ResultLost(key)]
  {
    hide Do, NeverOverlaps, InFlight, Executing;
    TraceKeepsKey(cfg, steps, trace, key, |steps|);
  }

  /** At most once, if and only if no result was lost, or one was and no other has come back since. */
  lemma AtMostOnceIff(cfg: Config, steps: seq<Step>, trace: seq<Sys>, key: ActionId)
    requires cfg.Valid() && IsTrace(cfg, steps, trace) && NeverOverlaps(cfg, trace, key)
    ensures var s := trace[|steps|];
            s.seen[BackendReturned(key)] <= 1 <==>
              || s.seen[ResultLost(key)] == 0
              || (s.seen[ResultLost(key)] == 1 && key !in s.world.ledger && !InFlight(cfg, s, key))
  {
    hide Do, NeverOverlaps, InFlight;
    ReturnsAreCounted(cfg, steps, trace, key);
  }

  /** A key that is recorded is not about to be executed again. */
  lemma RecordedKeysAreNotExecuted(cfg: Config, steps: seq<Step>, trace: seq<Sys>, pid: nat, key: ActionId)
    requires cfg.Valid() && IsTrace(cfg, steps, trace) && NeverOverlaps(cfg, trace, key)
    requires pid in trace[|steps|].procs && Executing(cfg, trace[|steps|].procs[pid], key)
    ensures key !in trace[|steps|].world.ledger
  {
    hide Do, NeverOverlaps, Executing;
    TraceKeepsKey(cfg, steps, trace, key, |steps|);
  }

  // ----- evidence -----

  predicate RecordFor(ledger: map<ActionId, LedgerRow>, task: TaskId, tool: Tool, result: Json) {
    exists key :: key in ledger && key.task == task && key.tool == tool && ledger[key].result == result
  }

  /** A tool about to be finished has this very record. */
  predicate FinishesRecorded(ledger: map<ActionId, LedgerRow>, task: TaskId, pc: Pc) {
    match pc
    case Emitting(_, next) => FinishesRecorded(ledger, task, next)
    case Saving(m) => m.FinishTool? ==> RecordFor(ledger, task, m.tool, m.result)
    case _ => true
  }

  ghost predicate EvidenceRecorded(ledger: map<ActionId, LedgerRow>, task: TaskId, evidence: map<Tool, Json>) {
    forall tool | tool in evidence :: RecordFor(ledger, task, tool, evidence[tool])
  }

  ghost predicate LogRecorded(ledger: map<ActionId, LedgerRow>, task: TaskId, log: seq<Commit>) {
    forall i | 0 <= i < |log| :: EvidenceRecorded(ledger, task, log[i].state.evidence)
  }

  ghost predicate TaskRecorded(s: Sys, task: TaskId) {
    && (task in s.log ==> LogRecorded(s.world.ledger, task, s.log[task]))
    && (forall pid | pid in s.procs && s.procs[pid].task == task :: FinishesRecorded(s.world.ledger, task, s.procs[pid].pc))
  }

  /** At no point of the run do two processes execute one key of the task. */
  ghost predicate TaskNeverOverlaps(cfg: Config, trace: seq<Sys>, task: TaskId) {
    forall key: ActionId :: key.task == task ==> NeverOverlaps(cfg, trace, key)
  }

  lemma RecordForStable(before: map<ActionId, LedgerRow>, after: map<ActionId, LedgerRow>, task: TaskId,
          tool: Tool, result: Json)
    requires forall key | key in before :: key in after && after[key] == before[key]
    requires RecordFor(before, task, tool, result)
    ensures RecordFor(after, task, tool, result)
  {
    var key :| key in before && key.task == task && key.tool == tool && before[key].result == result;
    assert key in after;
  }

  lemma LogRecordedStable(before: map<ActionId, LedgerRow>, after: map<ActionId, LedgerRow>, task: TaskId,
          log: seq<Commit>)
    requires forall key | key in before :: key in after && after[key] == before[key]
    requires LogRecorded(before, task, log)
    ensures LogRecorded(after, task, log)
  {
    hide RecordFor;
    forall i | 0 <= i < |log| ensures EvidenceRecorded(after, task, log[i].state.evidence) {
      forall tool | tool in log[i].state.evidence ensures RecordFor(after, task, tool, log[i].state.evidence[tool]) {
        RecordForStable(before, after, task, tool, log[i].state.evidence[tool]);
      }
    }
  }

  lemma FinishesStable(before: map<ActionId, LedgerRow>, after: map<ActionId, LedgerRow>, task: TaskId, pc: Pc)
    requires forall key | key in before :: key in after && after[key] == before[key]
    requires FinishesRecorded(before, task, pc)
    ensures FinishesRecorded(after, task, pc)
  {
    hide RecordFor;
    if pc.Emitting? {
      FinishesStable(before, after, task, pc.next);
    } else if pc.Saving? && pc.move.FinishTool? {
      RecordForStable(before, after, task, pc.move.tool, pc.move.result);
    }
  }

  lemma AfterSaveFinishesNothing(cfg: Config, ledger: map<ActionId, LedgerRow>, task: TaskId, m: Move)
    requires cfg.Valid()
    ensures FinishesRecorded(ledger, task, AfterSave(cfg, task, m))
  {
    hide ValidatedRequest, Evaluate, Validate, PendingFor, RecordFor;
    var next := AfterSave(cfg, task, m);
    if next.Emitting? {
      assert FinishesRecorded(ledger, task, next.next);
    }
  }

  /** What is found is a record, and what is recorded first is a record. */
  lemma ToolStepRecorded(cfg: Config, w: World, p: Proc, a: Answer)
    requires cfg.Valid() && (p.pc.LookingUp? || p.pc.Calling? || p.pc.Recording?)
    requires p.pc.Recording? ==> KeyOf(cfg, p) !in w.ledger
    ensures var (v, q) := StepProc(cfg, w, p, a);
            FinishesRecorded(v.ledger, p.task, q.pc)
  {
    hide StepProc, StructuredResult;
    var key := KeyOf(cfg, p);
    if p.pc.LookingUp? {
      OnLookup(cfg, w, p, a);
    } else if p.pc.Calling? {
      OnCall(cfg, w, p, a);
    } else {
      OnRecord(cfg, w, p, a);
      assert key in StepProc(cfg, w, p, a).0.ledger;
    }
  }

  lemma OtherStepRecorded(cfg: Config, w: World, p: Proc, a: Answer)
    requires cfg.Valid() && !p.pc.LookingUp? && !p.pc.Calling? && !p.pc.Recording?
    requires FinishesRecorded(w.ledger, p.task, p.pc)
    ensures FinishesRecorded(w.ledger, p.task, StepProc(cfg, w, p, a).1.pc)
  {
    hide Effect, RetryRow, RequestReason, ValidatedRequest, Evaluate, Validate, StructuredResult, RecordFor,
         LookupStep, RecordStep, AfterBackend, AfterSave;
    if p.pc.Saving? {
      AfterSaveFinishesNothing(cfg, w.ledger, p.task, p.pc.move);
    }
    var next := StepProc(cfg, w, p, a).1.pc;
    if next.Emitting? && !p.pc.Emitting? && !p.pc.Saving? {
      assert FinishesRecorded(w.ledger, p.task, next.next);
    }
  }

  lemma AdvancedProcRecorded(cfg: Config, s: Sys, pid: nat, a: Answer)
    requires cfg.Valid() && Inv(cfg, s) && pid in s.procs && TaskRecorded(s, s.procs[pid].task)
    requires s.procs[pid].pc.Recording? ==> KeyOf(cfg, s.procs[pid]) !in s.world.ledger
    ensures var (v, q) := StepProc(cfg, s.world, s.procs[pid], a);
            FinishesRecorded(v.ledger, s.procs[pid].task, q.pc)
  {
    hide StepProc, Inv, RecordFor, LogRecorded, LedgerOk, StructuredResult, VerdictsKept;
    var p := s.procs[pid];
    if p.pc.LookingUp? || p.pc.Calling? || p.pc.Recording? {
      ToolStepRecorded(cfg, s.world, p, a);
    } else {
      OtherStepRecorded(cfg, s.world, p, a);
      StepLedger(cfg, s.world, p, a);
    }
  }

  lemma FinishEvidenceRecorded(cfg: Config, ledger: map<ActionId, LedgerRow>, task: TaskId, s: WorkflowState, m: Move)
    requires cfg.Valid() && EvidenceRecorded(ledger, task, s.evidence)
    requires m.FinishTool? ==> RecordFor(ledger, task, m.tool, m.result)
    ensures EvidenceRecorded(ledger, task, Apply(cfg, s, m).evidence)
  {
    hide RequestReason, RecordFor;
  }

  lemma CheckpointRecorded(cfg: Config, s: Sys, r: Sys, task: TaskId, m: Move)
    requires cfg.Valid() && OneMoreCheckpoint(cfg, s, r, task, m) && LedgerKept(s.world, r.world)
    requires LogRecorded(s.world.ledger, task, s.log[task])
    requires m.FinishTool? ==> RecordFor(s.world.ledger, task, m.tool, m.result)
    ensures LogRecorded(r.world.ledger, task, r.log[task])
  {
    hide Apply, RecordFor, EvidenceRecorded;
    FinishEvidenceRecorded(cfg, s.world.ledger, task, Last(s, task).state, m);
    assert LogRecorded(s.world.ledger, task, r.log[task]);
    LogRecordedStable(s.world.ledger, r.world.ledger, task, r.log[task]);
  }

  lemma AdvancedLogRecorded(cfg: Config, s: Sys, pid: nat, a: Answer, task: TaskId)
    requires cfg.Valid() && Inv(cfg, s) && pid in s.procs && TaskRecorded(s, task)
    ensures var r := DoAdvance(cfg, s, pid, a);
            task in r.log ==> LogRecorded(r.world.ledger, task, r.log[task])
  {
    hide DoAdvance, Inv, LogRecorded, RecordFor, Apply, Follows, WellFormed, ValidLog, AfterSave;
    var p := s.procs[pid];
    var r := DoAdvance(cfg, s, pid, a);
    DoKeepsVerdictsHere(cfg, s, pid, a);
    if CommitsNow(s.world, p) {
      CommitterIsCurrent(cfg, s, pid);
      CommitHasShape(cfg, s, pid, a);
      if task == p.task {
        CheckpointRecorded(cfg, s, r, task, p.pc.move);
      } else if task in s.log {
        LogRecordedStable(s.world.ledger, r.world.ledger, task, s.log[task]);
      }
    } else {
      QuietLog(cfg, s, pid, a);
      if task in s.log {
        LogRecordedStable(s.world.ledger, r.world.ledger, task, s.log[task]);
      }
    }
  }

  lemma QuietLog(cfg: Config, s: Sys, pid: nat, a: Answer)
    requires cfg.Valid() && pid in s.procs && !CommitsNow(s.world, s.procs[pid])
    ensures DoAdvance(cfg, s, pid, a).log == s.log
  {
    hide StepProc, SeenNow;
  }

  lemma DoKeepsVerdictsHere(cfg: Config, s: Sys, pid: nat, a: Answer)
    requires cfg.Valid() && Inv(cfg, s) && pid in s.procs
    ensures LedgerKept(s.world, DoAdvance(cfg, s, pid, a).world)
  {
    hide DoAdvance, Inv, VerdictsKept;
    DoKeepsVerdicts(cfg, s, Advance(pid, a));
  }

  lemma AdvanceKeepsTask(cfg: Config, s: Sys, pid: nat, a: Answer, task: TaskId)
    requires cfg.Valid() && Inv(cfg, s) && pid in s.procs && TaskRecorded(s, task)
    requires s.procs[pid].pc.Recording? && s.procs[pid].task == task ==> KeyOf(cfg, s.procs[pid]) !in s.world.ledger
    ensures TaskRecorded(DoAdvance(cfg, s, pid, a), task)
  {
    hide StepProc, Inv, LogRecorded, RecordFor, FinishesRecorded, SeenNow, LogAfter;
    var r := DoAdvance(cfg, s, pid, a);
    StepFrame(cfg, s.world, s.procs[pid], a);
    AdvancedLogRecorded(cfg, s, pid, a, task);
    DoKeepsVerdictsHere(cfg, s, pid, a);
    if s.procs[pid].task == task {
      AdvancedProcRecorded(cfg, s, pid, a);
    }
    forall i | i in r.procs && i != pid && r.procs[i].task == task ensures FinishesRecorded(r.world.ledger, task, r.procs[i].pc) {
      FinishesStable(s.world.ledger, r.world.ledger, task, s.procs[i].pc);
    }
  }

  /** Steps of nobody save at most evidence that was saved before, or none. */
  lemma PlainKeepsTask(cfg: Config, s: Sys, step: Step, task: TaskId)
    requires cfg.Valid() && Inv(cfg, s) && TaskRecorded(s, task) && !step.Advance? && !step.ReplayRow?
    ensures TaskRecorded(Do(cfg, s, step), task)
  {
    hide Inv, RecordFor, Claim, LostByCrash, DoReplay;
    if step.ClaimNext? {
      ClaimTouchesQueueOnly(s.world, step.worker, cfg.leaseSeconds, step.now);
    }
    LogIsOk(cfg, s, task);
  }

  lemma ReplayKeepsTask(cfg: Config, s: Sys, row: nat, replayed: TaskId, now: real, task: TaskId)
    requires cfg.Valid() && Inv(cfg, s) && TaskRecorded(s, task)
    ensures TaskRecorded(DoReplay(cfg, s, row, replayed, now), task)
  {
    hide DoReplay, Inv, Apply, RecordFor, LogRecorded, FinishesRecorded, ValidLog, Linked;
    if Replayable(s.world, row, replayed) {
      ReplayEffect(cfg, s, row, replayed, now);
      if task == replayed {
        CheckpointRecorded(cfg, s, DoReplay(cfg, s, row, replayed, now), task, Replay);
      }
    } else {
      NoReplay(cfg, s, row, replayed, now);
    }
  }

  lemma DoKeepsTask(cfg: Config, s: Sys, step: Step, task: TaskId)
    requires cfg.Valid() && Inv(cfg, s) && TaskRecorded(s, task)
    requires forall key: ActionId :: key.task == task ==> KeyOk(cfg, s, key)
    ensures TaskRecorded(Do(cfg, s, step), task)
  {
    hide Inv, TaskRecorded, DoAdvance, DoCrash, DoClaim, DoCreate, DoReplay, DoRequest, Counted, Open;
    match step {
      case Advance(pid, a) =>
        if pid in s.procs {
          if s.procs[pid].pc.Recording? && s.procs[pid].task == task {
            assert KeyOk(cfg, s, KeyOf(cfg, s.procs[pid]));
            assert Executing(cfg, s.procs[pid], KeyOf(cfg, s.procs[pid]));
          }
          AdvanceKeepsTask(cfg, s, pid, a, task);
        } else {
          NobodyAdvances(cfg, s, pid, a);
        }
      case ReplayRow(row, replayed, now) => ReplayKeepsTask(cfg, s, row, replayed, now, task);
      case _ => PlainKeepsTask(cfg, s, step, task);
    }
  }

  lemma {:induction false} TraceKeepsTask(cfg: Config, steps: seq<Step>, trace: seq<Sys>, task: TaskId, n: nat)
    requires cfg.Valid() && IsTrace(cfg, steps, trace) && TaskNeverOverlaps(cfg, trace, task) && n <= |steps|
    ensures TaskRecorded(trace[n], task) && Inv(cfg, trace[n])
  {
    hide Do, NeverOverlaps, KeyOk, Inv;
    if n == 0 {
      RunInv(cfg, []);
    } else {
      TraceKeepsTask(cfg, steps, trace, task, n - 1);
      assert StepAt(cfg, steps, trace, n - 1);
      forall key: ActionId | key.task == task ensures KeyOk(cfg, trace[n - 1], key) {
        TraceKeepsKey(cfg, steps, trace, key, n - 1);
      }
      DoKeepsTask(cfg, trace[n - 1], steps[n - 1], task);
      DoKeepsInv(cfg, trace[n - 1], steps[n - 1]);
    }
  }

  /** Every committed piece of evidence is a ledger record of that task and tool, if executions do not overlap. */
  lemma EvidenceIsRecorded(cfg: Config, steps: seq<Step>, trace: seq<Sys>, task: TaskId, i: nat, tool: Tool)
    requires cfg.Valid() && IsTrace(cfg, steps, trace) && TaskNeverOverlaps(cfg, trace, task)
    requires task in trace[|steps|].log && i < |trace[|steps|].log[task]|
    requires tool in trace[|steps|].log[task][i].state.evidence
    ensures RecordFor(trace[|steps|].world.ledger, task, tool, trace[|steps|].log[task][i].state.evidence[tool])
  {
    hide Do, TaskNeverOverlaps, RecordFor, FinishesRecorded, Inv;
    TraceKeepsTask(cfg, steps, trace, task, |steps|);
  }

  // ----- disciplined runs never overlap -----

  /** No two processes execute for one task. */
  ghost predicate Apart(s: Sys) {
    forall i, j | i in s.procs && j in s.procs && s.procs[i].task == s.procs[j].task ::
      (s.procs[i].pc.Calling? || s.procs[i].pc.Recording?) && (s.procs[j].pc.Calling? || s.procs[j].pc.Recording?) ==> i == j
  }

  ghost predicate ApartTrace(cfg: Config, steps: seq<Step>, trace: seq<Sys>)
    requires cfg.repeatThreshold > 0
  {
    IsTrace(cfg, steps, trace) && forall n: nat | n < |trace| :: Apart(trace[n])
  }

  lemma LiveIsApart(cfg: Config, s: Sys)
    requires cfg.Valid() && LiveInv(cfg, s)
    ensures Apart(s)
  {
    hide LiveInv;
    forall i, j | i in s.procs && j in s.procs && s.procs[i].task == s.procs[j].task && s.procs[i].Live() && s.procs[j].Live()
      ensures i == j
    {
      OneWorkerPerTask(cfg, s, i, j);
    }
  }

  lemma ApartTraceExtends(cfg: Config, steps: seq<Step>, trace: seq<Sys>, step: Step)
    requires cfg.Valid() && ApartTrace(cfg, steps, trace) && Apart(Do(cfg, trace[|steps|], step))
    ensures ApartTrace(cfg, steps + [step], trace + [Do(cfg, trace[|steps|], step)])
  {
    hide Do, Apart;
    var longer, states := steps + [step], trace + [Do(cfg, trace[|steps|], step)];
    forall i: nat | i < |longer| ensures StepAt(cfg, longer, states, i) {
      if i < |steps| {
        assert StepAt(cfg, steps, trace, i);
      }
    }
  }

  lemma SettlingStaysApart(cfg: Config, s: Sys, pid: nat, a: Answer)
    requires cfg.Valid() && Apart(s) && pid in s.procs && (!Unsettled(s.procs[pid].pc) || Settling(s.procs[pid].pc))
    ensures var r := DoAdvance(cfg, s, pid, a);
            Apart(r) && pid in r.procs && !Unsettled(r.procs[pid].pc)
  {
    hide StepProc, LogAfter, SeenNow;
    StepFrame(cfg, s.world, s.procs[pid], a);
    SettlesOnce(cfg, s.world, s.procs[pid], a);
  }

  lemma {:induction false} DrainHasTrace(cfg: Config, steps: seq<Step>, trace: seq<Sys>, pid: nat, a: Answer, n: nat)
    returns (more: seq<Step>, states: seq<Sys>)
    requires cfg.Valid() && ApartTrace(cfg, steps, trace) && pid in trace[|steps|].procs
    requires !Unsettled(trace[|steps|].procs[pid].pc) || Settling(trace[|steps|].procs[pid].pc)
    ensures ApartTrace(cfg, more, states) && states[|more|] == Drain(cfg, trace[|steps|], pid, a, n)
    decreases n
  {
    hide DoAdvance, Apart;
    var s := trace[|steps|];
    if n == 0 || !s.procs[pid].Live() {
      more, states := steps, trace;
    } else {
      SettlingStaysApart(cfg, s, pid, a);
      ApartTraceExtends(cfg, steps, trace, Advance(pid, a));
      more, states := DrainHasTrace(cfg, steps + [Advance(pid, a)], trace + [Do(cfg, s, Advance(pid, a))], pid, a, n - 1);
    }
  }

  lemma RequestStaysApart(cfg: Config, s: Sys, turn: Turn)
    requires cfg.Valid() && Apart(s) && Permitted(s, turn.step)
    requires (turn.step.RequestApproval? || turn.step.RequestRejection?)
    ensures var r := Do(cfg, s, turn.step);
            Apart(r) && turn.step.pid in r.procs && !Unsettled(r.procs[turn.step.pid].pc)
  {
    hide DoAdvance, DoClaim, DoCreate, DoReplay, DoCrash;
  }

  lemma TurnHasTrace(cfg: Config, steps: seq<Step>, trace: seq<Sys>, turn: Turn)
    returns (more: seq<Step>, states: seq<Sys>)
    requires cfg.Valid() && ApartTrace(cfg, steps, trace) && LiveInv(cfg, trace[|steps|])
    ensures ApartTrace(cfg, more, states) && states[|more|] == Take(cfg, trace[|steps|], turn)
  {
    hide Do, DoAdvance, Drain, LiveInv, Apart, LeaseLost, LoadedOn;
    var s := trace[|steps|];
    if !Permitted(s, turn.step) {
      more, states := steps, trace;
    } else if turn.step.Advance? && Settling(s.procs[turn.step.pid].pc) {
      more, states := DrainHasTrace(cfg, steps, trace, turn.step.pid, turn.step.answer, SETTLEMENT_STEPS);
    } else if turn.step.RequestApproval? || turn.step.RequestRejection? {
      RequestStaysApart(cfg, s, turn);
      ApartTraceExtends(cfg, steps, trace, turn.step);
      more, states := DrainHasTrace(cfg, steps + [turn.step], trace + [Do(cfg, s, turn.step)], turn.step.pid, turn.settling, SETTLEMENT_STEPS);
    } else {
      PlainTurn(cfg, s, turn);
      TakeKeepsLive(cfg, s, turn);
      LiveIsApart(cfg, Take(cfg, s, turn));
      ApartTraceExtends(cfg, steps, trace, turn.step);
      more, states := steps + [turn.step], trace + [Do(cfg, s, turn.step)];
    }
  }

  lemma PlainTurn(cfg: Config, s: Sys, turn: Turn)
    requires cfg.Valid() && Permitted(s, turn.step)
    requires turn.step.Advance? ==> turn.step.pid in s.procs && !Settling(s.procs[turn.step.pid].pc)
    requires !turn.step.RequestApproval? && !turn.step.RequestRejection?
    ensures Take(cfg, s, turn) == Do(cfg, s, turn.step)
  {
    hide DoAdvance, DoClaim, DoCreate, DoReplay, DoCrash, Drain;
  }

  lemma {:induction false} PlayHasTrace(cfg: Config, turns: seq<Turn>) returns (steps: seq<Step>, trace: seq<Sys>)
    requires cfg.Valid()
    ensures ApartTrace(cfg, steps, trace) && trace[|steps|] == Play(cfg, turns)
  {
    hide Take, Do, LiveInv;
    if turns == [] {
      steps, trace := [], [INITIAL];
    } else {
      var before := turns[..|turns| - 1];
      var fewer, states := PlayHasTrace(cfg, before);
      PlayKeepsLive(cfg, before);
      steps, trace := TurnHasTrace(cfg, fewer, states, turns[|turns| - 1]);
    }
  }

  /** Every run under the hypotheses is a run in which no two processes ever execute one key. */
  lemma DisciplinedRunsNeverOverlap(cfg: Config, turns: seq<Turn>, s: Sys) returns (steps: seq<Step>, trace: seq<Sys>)
    requires cfg.Valid() && PlayedBy(cfg, turns, s)
    ensures IsTrace(cfg, steps, trace) && trace[|steps|] == s
    ensures forall key :: NeverOverlaps(cfg, trace, key)
  {
    hide Do, Play, PlayedBy;
    PlayedIsPlay(cfg, turns, s);
    steps, trace := PlayHasTrace(cfg, turns);
    forall key, n: nat | n < |trace| ensures NoOverlap(cfg, trace[n], key) {
      ApartMeansNoOverlap(cfg, trace[n], key);
    }
  }

  lemma ApartMeansNoOverlap(cfg: Config, s: Sys, key: ActionId)
    requires Apart(s)
    ensures NoOverlap(cfg, s, key)
  {
  }

  /** Under the hypotheses a key is executed successfully at most once, plus once for every crash that lost its result. */
  lemma ReturnsAreExcused(cfg: Config, turns: seq<Turn>, s: Sys, key: ActionId)
    requires cfg.Valid() && PlayedBy(cfg, turns, s)
    ensures s.seen[BackendReturned(key)] == (if key in s.world.ledger || InFlight(cfg, s, key) then 1 else 0) + s.seen[ResultLost(key)]
    ensures s.seen[BackendReturned(key)] <= 1 + s.seen[ResultLost(key)]
  {
    hide Do, PlayedBy, NeverOverlaps, InFlight;
    var steps, trace := DisciplinedRunsNeverOverlap(cfg, turns, s);
    ReturnsAreCounted(cfg, steps, trace, key);
  }

  lemma EvidenceComesFromTheLedger(cfg: Config, turns: seq<Turn>, s: Sys, task: TaskId, i: nat, tool: Tool)
    requires cfg.Valid() && PlayedBy(cfg, turns, s) && task in s.log && i < |s.log[task]|
    requires tool in s.log[task][i].state.evidence
    ensures RecordFor(s.world.ledger, task, tool, s.log[task][i].state.evidence[tool])
  {
    hide Do, PlayedBy, NeverOverlaps, RecordFor;
    var steps, trace := DisciplinedRunsNeverOverlap(cfg, turns, s);
    EvidenceIsRecorded(cfg, steps, trace, task, i, tool);
  }

  lemma RecordedKeysAreNotCalled(cfg: Config, turns: seq<Turn>, s: Sys, pid: nat)
    requires cfg.Valid() && PlayedBy(cfg, turns, s) && pid in s.procs && s.procs[pid].pc.Calling?
    ensures KeyOf(cfg, s.procs[pid]) !in s.world.ledger
  {
    hide Do, PlayedBy, NeverOverlaps;
    var steps, trace := DisciplinedRunsNeverOverlap(cfg, turns, s);
    RecordedKeysAreNotExecuted(cfg, steps, trace, pid, KeyOf(cfg, s.procs[pid]));
  }
}
