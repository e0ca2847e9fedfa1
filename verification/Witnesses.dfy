/**
 Runs from empty tables in which the guarantees fail: each breaks one operating hypothesis, or needs none
 to be broken. All exist for every deployment whose limits let the few calls happen at all.
 */
module Witnesses {
  import opened Prelude
  import opened Models
  import opened Policy
  import opened Tools
  import opened Tables
  import opened QueueShape
  import opened LoopDetector
  import opened Checkpoints
  import opened Machine
  import opened System
  import opened Refinement
  import opened Discipline
  import opened Settlement
  import opened LiveRows
  import opened LiveRuns
  import opened Hypotheses
  import opened Stranded
  import opened Effects
  import opened Reference
  import opened ReferenceRuns
  import opened Solo
  import opened Paths
  import opened FaithfulPlay

  const TASK: TaskId := "t"
  const WORKER: string := "w"
  const FRESH: WorkflowState := FreshWorkflow(TASK, "g", "s")
  const RESULT: Json := Obj(map["ok" := Bool(true)])

  /** The engine asks for `tool`, the backend returns a result. */
  function AnswerFor(tool: Tool, now: real): Answer {
    Answer(Decide(Use(tool, "r", None), Usage(0, 0)), Returned(RESULT), now)
  }

  /** A claim at this time finds a lease taken at time 0 run out. */
  function Later(cfg: Config): real {
    if cfg.leaseSeconds > 0.0 then cfg.leaseSeconds + 1.0 else 1.0
  }

  /** Histories shorter than the threshold pass every guard the budget passes. */
  lemma ShortHistoriesPass(cfg: Config, st: WorkflowState, tool: Tool)
    requires cfg.Valid() && |st.toolHistory| + 1 < cfg.maxToolCalls
    requires |st.toolHistory| + 1 < cfg.repeatThreshold && |st.progressHistory| + 1 < cfg.repeatThreshold
    ensures RequestReason(cfg, Apply(cfg, st, Start), AnswerFor(tool, 0.0).engine.decision, Usage(0, 0)).None?
  {
    hide RepeatedSuffix;
    ShortIsUnrepeated(st.toolHistory + [tool], cfg.repeatThreshold);
  }

  lemma ShortIsUnrepeated(tools: seq<Tool>, k: nat)
    requires |tools| < k
    ensures !RepeatedSuffix(tools, k)
  {
    hide EndsInPower;
  }

  /** One incident is created and claimed. */
  ghost predicate Begun(cfg: Config, s: Sys) {
    && s.procs == map[0 := Proc(TASK, Some(Delivery(0, TASK, 1, cfg.maxQueueAttempts)), None, Loading(ToProcess))]
    && s.world.queue == [QueueRow(TASK, Processing, 1, cfg.maxQueueAttempts, 0.0, Some(cfg.leaseSeconds), Some(WORKER))]
    && s.world.workflows == map[TASK := WorkflowRow(FRESH, 0)]
    && s.world.ledger == map[] && s.world.approvals == map[] && s.seen == multiset{}
  }

  lemma Begins(cfg: Config) returns (turns: seq<Turn>, s: Sys)
    requires cfg.Valid()
    ensures HonestlyPlayed(cfg, None, turns, s) && Begun(cfg, s) && InOrder(turns, 0.0, 0.0)
  {
    hide DoAdvance, Drain, Claim, HonestlyPlayed, HonestPlay;
    var a := AnswerFor(ReadAlert, 0.0);
    var create, claim := Turn(CreateIncident(TASK, "g", "s", 0.0), a), Turn(ClaimNext(0, WORKER, 0.0), a);
    NothingPlayed(cfg, None);
    HonestExtends(cfg, None, [], INITIAL, create);
    var t := Take(cfg, INITIAL, create);
    HonestExtends(cfg, None, [] + [create], t, claim);
    assert t.world.queue == [NewRow(TASK, cfg.maxQueueAttempts, 0.0)];
    ClaimTakes(t.world, WORKER, cfg.leaseSeconds, 0.0, 0);
    turns, s := [] + [create] + [claim], Take(cfg, t, claim);
  }

  /** The whole delivery of an ungated tool on its own tables, up to the settlement it owes. */
  lemma WorksOff(cfg: Config, w: World, p: Proc, now: real) returns (v: World, q: Proc)
    requires cfg.Valid() && cfg.maxToolCalls >= 2 && p.task == TASK && p.pc == Loading(ToProcess)
    requires Stored(w, TASK, FRESH) && w.ledger == map[]
    ensures Leads(cfg, None, w, p, AnswerFor(ReadAlert, now), v, q)
    ensures q.pc == Acknowledging(Reenqueue) && q.task == TASK && q.delivery == p.delivery
    ensures v.queue == w.queue && TASK in v.workflows && v.workflows[TASK].version > FRESH.version
  {
    hide StepProc, Leads, Apply, AfterAccept, RequestReason, ValidatedRequest, SentArguments, StructuredResult;
    var a := AnswerFor(ReadAlert, now);
    var d := a.engine.decision;
    ShortHistoriesPass(cfg, FRESH, ReadAlert);
    DefaultsValidate(ReadAlert, "r", None);
    PassesGate(cfg, TASK, d, ReadAlert);
    var w1, p1 := Requests(cfg, None, w, p, a, FRESH);
    var accepted := p1.base.value;
    CallsBackend(cfg, None, w, p, a, w1, p1);
    ResultIsStructured();
    var p2 := p1.(pc := Recording(ReadAlert, p1.pc.arguments, RESULT));
    ThenRecords(cfg, None, w, p, a, w1, p2);
    var w3 := SaveToolResult(w1, KeyOf(cfg, p2), LedgerRow(TASK, ReadAlert, cfg.argumentsHash(p1.pc.arguments), RESULT));
    var p3 := p2.(pc := Saving(FinishTool(ReadAlert, RESULT)));
    v, q := Finishes(cfg, None, w, p, a, w3, p3, accepted);
    ApplyKeepsTask(cfg, accepted, FinishTool(ReadAlert, RESULT));
  }

  lemma ResultIsStructured()
    ensures StructuredResult(RESULT)
  {
    assert "ok" in RESULT.fields;
  }

  /** A worker's path as turns, one after the other, all at the time of its answers. */
  lemma GoesOn(cfg: Config, before: seq<Turn>, s: Sys, pid: nat, a: Answer, v: World, q: Proc, from: real, until: real)
    returns (turns: seq<Turn>, r: Sys)
    requires cfg.Valid() && HonestlyPlayed(cfg, None, before, s) && pid in s.procs && InOrder(before, from, until)
    requires Leads(cfg, None, s.world, s.procs[pid], a, v, q) && until <= a.now
    ensures HonestlyPlayed(cfg, None, turns, r) && InOrder(turns, from, a.now) && SameLosses(s, r)
    ensures r.world == v && r.procs == s.procs[pid := q]
  {
    hide HonestlyPlayed, Leads, Sound, Onward, InOrder, Paced, SameLosses;
    HonestRunsAreSound(cfg, None, before, s);
    r := LeadsOnward(cfg, None, false, s, pid, a, v, q);
    var more := OnwardIsPlayed(cfg, None, At(a.now, false), before, s, r);
    PacedInOrder(more, At(a.now, false));
    InOrderUntil(before, from, until, a.now);
    InOrderJoin(before, more, from, a.now, a.now);
    turns := before + more;
  }

  lemma InOrderUntil(turns: seq<Turn>, from: real, until: real, now: real)
    requires InOrder(turns, from, until) && until <= now
    ensures InOrder(turns, from, now)
  {
    hide Reading;
  }

  /** A disciplined run as steps that others can follow. */
  lemma AsSteps(cfg: Config, turns: seq<Turn>, s: Sys, from: real, until: real) returns (steps: seq<Step>)
    requires cfg.Valid() && HonestlyPlayed(cfg, None, turns, s) && InOrder(turns, from, until)
    ensures Run(cfg, steps) == s && Timely(steps, from, until)
  {
    hide HonestlyPlayed, PlayedBy, Play, Run, InOrder, Timely;
    HonestIsPlayed(cfg, None, turns, s);
    PlayedIsPlay(cfg, turns, s);
    steps := DisciplinedRunsAreRuns(cfg, turns, from, until);
  }

  /** One more step, at a time that is not before the others. */
  lemma StepOn(cfg: Config, steps: seq<Step>, step: Step, from: real, until: real, now: real) returns (more: seq<Step>)
    requires cfg.Valid() && Timely(steps, from, until) && until <= now
    requires StepReading(step).Some? ==> StepReading(step).value == now
    ensures Run(cfg, more) == Do(cfg, Run(cfg, steps), step) && Timely(more, from, now)
  {
    hide Run, Do, Timely, OnlyAdds;
    RunSnoc(cfg, steps, step);
    AddsOne(steps, step);
    more := steps + [step];
    TimelyAdds(steps, more, step, from, until, now);
  }

  /** (H2 broken) A crash between the acknowledgment and the enqueue. */
  lemma CrashOrphans(cfg: Config)
    requires cfg.Valid() && cfg.maxToolCalls >= 2
    ensures exists steps, s, end :: ReachedBy(cfg, steps, s) && Timely(steps, 0.0, end) && Orphaned(s, TASK)
  {
    hide DoAdvance, DoCrash, HonestlyPlayed, Leads, LiveInv, Run, PlayedBy, Orphaned, Timely, InOrder;
    var a := AnswerFor(ReadAlert, 0.0);
    var before, s := Begins(cfg);
    var v, q := WorksOff(cfg, s.world, s.procs[0], 0.0);
    var turns, r := GoesOn(cfg, before, s, 0, a, v, q, 0.0, 0.0);
    HonestRunsAreSound(cfg, None, turns, r);
    CrashInSettlementOrphans(cfg, r, 0, a);
    var steps := AsSteps(cfg, turns, r, 0.0, 0.0);
    var steps1 := StepOn(cfg, steps, Advance(0, a), 0.0, 0.0, 0.0);
    var steps2 := StepOn(cfg, steps1, Crash(0), 0.0, 0.0, 0.0);
    EndIsReached(cfg, steps2);
  }

  lemma EndIsReached(cfg: Config, steps: seq<Step>)
    requires cfg.Valid()
    ensures ReachedBy(cfg, steps, Run(cfg, steps))
  {
    hide Run, IsTrace;
    var trace := RunIsTrace(cfg, steps);
  }

  /** A slow worker loads, its lease runs out, another one claims the row and works it off. */
  lemma Overtakes(cfg: Config) returns (steps: seq<Step>)
    requires cfg.Valid() && cfg.maxToolCalls >= 2
    ensures Timely(steps, 0.0, Later(cfg))
    ensures var s := Run(cfg, steps);
            && 0 in s.procs && 1 in s.procs
            && s.procs[0] == Proc(TASK, Some(Delivery(0, TASK, 1, cfg.maxQueueAttempts)), Some(FRESH), Saving(Start))
            && s.procs[1].pc == Acknowledging(Reenqueue) && s.procs[1].task == TASK
            && s.procs[1].delivery == Some(Delivery(0, TASK, 2, cfg.maxQueueAttempts))
            && |s.world.queue| == 1 && s.world.queue[0].task == TASK
            && TASK in s.world.workflows && s.world.workflows[TASK].version > FRESH.version
  {
    hide HonestlyPlayed, Leads, Run, StepProc, Claim, Timely, InOrder, OnlyAdds;
    var a := AnswerFor(ReadAlert, Later(cfg));
    var turns, s := Begins(cfg);
    var steps0 := AsSteps(cfg, turns, s, 0.0, 0.0);
    var steps1 := StepOn(cfg, steps0, Advance(0, AnswerFor(ReadAlert, 0.0)), 0.0, 0.0, 0.0);
    OnLoad(cfg, s.world, s.procs[0], AnswerFor(ReadAlert, 0.0));
    var s1 := Run(cfg, steps1);
    var steps2 := StepOn(cfg, steps1, ClaimNext(1, WORKER, Later(cfg)), 0.0, 0.0, Later(cfg));
    ClaimTakes(s1.world, WORKER, cfg.leaseSeconds, Later(cfg), 0);
    var s2 := Run(cfg, steps2);
    var v, q := WorksOff(cfg, s2.world, s2.procs[1], Later(cfg));
    var n := LeadsHasLength(cfg, None, s2.world, s2.procs[1], a, v, q);
    steps := StepsAreRun(cfg, steps2, 1, a, n);
    TimelyAdds(steps2, steps, Advance(1, a), 0.0, Later(cfg), Later(cfg));
  }

  lemma LeadsHasLength(cfg: Config, fx: Option<Fixtures>, w: World, p: Proc, a: Answer, v: World, q: Proc)
    returns (n: nat)
    requires cfg.Valid() && Leads(cfg, fx, w, p, a, v, q)
    ensures Steps(cfg, w, p, a, n) == (v, q)
  {
    hide Steps, Smooth;
    n :| Smooth(cfg, fx, w, p, a, n) && Steps(cfg, w, p, a, n) == (v, q);
  }

  /**
   (H1 broken) The slow worker finds its save stale and returns the row to the queue, beside the row that the
   finished delivery has enqueued. Only the claim was not permitted: both settlements are undivided.
   */
  lemma StaleRetryRevives(cfg: Config)
    requires cfg.Valid() && cfg.maxToolCalls >= 2 && cfg.maxQueueAttempts >= 2
    ensures exists steps, s, end :: ReachedBy(cfg, steps, s) && Timely(steps, 0.0, end)
                                    && !AtMostOneLive(s.world.queue, TASK)
  {
    hide Run, DoAdvance, Inv, RetryDelay, Timely;
    var now := Later(cfg);
    var a := AnswerFor(ReadAlert, now);
    var steps := Overtakes(cfg);
    var s := Run(cfg, steps);
    RunInv(cfg, steps);
    LogIsOk(cfg, s, TASK);
    var steps1 := StepOn(cfg, steps, Advance(1, a), 0.0, now, now);
    AcknowledgeAdvances(cfg, s, 1, a);
    var steps2 := StepOn(cfg, steps1, Advance(1, a), 0.0, now, now);
    EnqueueStep(cfg, Run(cfg, steps1), 1, a);
    var steps3 := StepOn(cfg, steps2, Advance(0, a), 0.0, now, now);
    StaleSaveRetries(cfg, Run(cfg, steps2), a);
    var steps4 := StepOn(cfg, steps3, Advance(0, a), 0.0, now, now);
    StaleRetryRevivesRow(cfg, Run(cfg, steps3), 0, a);
    RetryAdvances(cfg, Run(cfg, steps3), 0, a);
    var queue := Run(cfg, steps4).world.queue;
    assert LiveAt(queue, 0, TASK) && LiveAt(queue, 1, TASK);
    EndIsReached(cfg, steps4);
  }

  lemma StaleSaveRetries(cfg: Config, s: Sys, a: Answer)
    requires cfg.Valid() && 0 in s.procs && TASK in s.world.workflows && s.world.workflows[TASK].version > FRESH.version
    requires s.procs[0] == Proc(TASK, Some(Delivery(0, TASK, 1, cfg.maxQueueAttempts)), Some(FRESH), Saving(Start))
    ensures var r := DoAdvance(cfg, s, 0, a);
            && r.world == s.world && r.log == s.log && r.procs == s.procs[0 := s.procs[0].(pc := Retrying(StaleCheckpoint))]
  {
    hide StepProc, Apply;
    StaleSaveOk(cfg, s.world, Commit(Create, FRESH), s.procs[0], a);
  }

  // ----- a restart of production -----

  /** One request of the restart, and nothing found out yet. */
  predicate RequestedOnce(cfg: Config, st: WorkflowState) {
    st.toolHistory == [RestartService] && st.progressHistory == [cfg.fingerprint(map[])] && st.evidence == map[]
  }

  ghost predicate NothingLost(s: Sys) {
    forall key :: s.seen[ResultLost(key)] == 0
  }

  /** The workflow waits for the verdict on its restart. */
  ghost predicate Waits(cfg: Config, w: World) {
    && TASK in w.workflows && Stored(w, TASK, w.workflows[TASK].state)
    && var st := w.workflows[TASK].state;
    && st.status.WaitingForApproval? && st.pendingAction.Some?
    && st.pendingAction.value.tool == RestartService && st.pendingAction.value.arguments == SentArguments(RestartService)
    && st.pendingAction.value.actionId == RestartKey(cfg, TASK)
    && w.ledger == map[] && RequestedOnce(cfg, st)
  }

  /** The request of the restart on its own tables, up to the call that writes the approval row. */
  lemma GatePath(cfg: Config, w: World, p: Proc) returns (v: World, q: Proc)
    requires cfg.Valid() && cfg.maxToolCalls >= 2 && p.task == TASK && p.pc == Loading(ToProcess)
    requires Stored(w, TASK, FRESH) && w.ledger == map[]
    ensures Leads(cfg, None, w, p, AnswerFor(RestartService, 0.0), v, q)
    ensures q.pc == PuttingApproval(RestartKey(cfg, TASK)) && q.task == TASK && q.delivery == p.delivery
    ensures v.queue == w.queue && v.approvals == w.approvals && Waits(cfg, v)
  {
    hide Leads, StepProc, Apply, AfterAccept, RequestReason, ValidatedRequest, SentArguments, ActionIdOf, Evaluate;
    var a := AnswerFor(RestartService, 0.0);
    ShortHistoriesPass(cfg, FRESH, RestartService);
    DefaultsValidate(RestartService, "r", None);
    PassesGate(cfg, TASK, a.engine.decision, RestartService);
    var w1, p1 := Requests(cfg, None, w, p, a, FRESH);
    WaitEffect(cfg, p1.base.value, p1.pc.move.action);
    RequestEffect(cfg, FRESH, RestartService);
    ApplyKeepsTask(cfg, p1.base.value, p1.pc.move);
    v, q := Parks(cfg, None, w, p, a, w1, p1, p1.base.value);
  }

  lemma Gates(cfg: Config) returns (turns: seq<Turn>, s: Sys)
    requires cfg.Valid() && cfg.maxToolCalls >= 2
    ensures HonestlyPlayed(cfg, None, turns, s) && InOrder(turns, 0.0, 0.0)
    ensures s.procs.Keys == {0} && s.procs[0].pc == PuttingApproval(RestartKey(cfg, TASK)) && s.procs[0].task == TASK
    ensures s.procs[0].delivery == Some(Delivery(0, TASK, 1, cfg.maxQueueAttempts))
    ensures |s.world.queue| == 1 && s.world.approvals == map[] && Waits(cfg, s.world) && NothingLost(s)
  {
    hide HonestlyPlayed, Leads, RestartKey, Waits, InOrder;
    var before, s0 := Begins(cfg);
    var v, q := GatePath(cfg, s0.world, s0.procs[0]);
    turns, s := GoesOn(cfg, before, s0, 0, AnswerFor(RestartService, 0.0), v, q, 0.0, 0.0);
  }

  lemma WaitEffect(cfg: Config, st: WorkflowState, action: PendingAction)
    requires cfg.Valid()
    ensures Apply(cfg, st, Wait(action)).status.WaitingForApproval?
    ensures Apply(cfg, st, Wait(action)).pendingAction == Some(action)
    ensures SameHistories(st, Apply(cfg, st, Wait(action)))
  {
  }

  predicate SameHistories(s: WorkflowState, r: WorkflowState) {
    r.toolHistory == s.toolHistory && r.progressHistory == s.progressHistory && r.evidence == s.evidence
  }

  lemma RequestEffect(cfg: Config, st: WorkflowState, tool: Tool)
    requires cfg.Valid()
    ensures var r := Apply(cfg, Apply(cfg, st, Start), Accept(AnswerFor(tool, 0.0).engine.decision, Usage(0, 0)));
            && r.toolHistory == st.toolHistory + [tool] && r.evidence == st.evidence
            && r.progressHistory == st.progressHistory + [cfg.fingerprint(st.evidence)]
  {
  }

  /** (No hypothesis broken) A crash before the approval row is written: the workflow waits for ever. */
  lemma CrashStrands(cfg: Config)
    requires cfg.Valid() && cfg.maxToolCalls >= 2
    ensures exists turns, s, end :: PlayedBy(cfg, turns, s) && InOrder(turns, 0.0, end) && Lost(s, TASK)
  {
    hide HonestlyPlayed, PlayedBy, Lost, LostByCrash, RestartKey, InOrder;
    var turns, s := Gates(cfg);
    HonestIsPlayed(cfg, None, turns, s);
    CrashBeforeTheRowStrands(cfg, turns, s, 0);
    var crash := Turn(Crash(0), AnswerFor(ReadAlert, 0.0));
    HonestExtends(cfg, None, turns, s, crash);
    HonestIsPlayed(cfg, None, turns + [crash], DoCrash(cfg, s, 0));
    InOrderAdds(turns, crash, 0.0, 0.0);
  }

  /** The same, one step on: the row is written and the delivery only has to be acknowledged. */
  lemma Asked(cfg: Config) returns (turns: seq<Turn>, s: Sys)
    requires cfg.Valid() && cfg.maxToolCalls >= 2
    ensures HonestlyPlayed(cfg, None, turns, s) && InOrder(turns, 0.0, 0.0)
    ensures s.procs.Keys == {0} && s.procs[0].pc == Acknowledging(Finish) && s.procs[0].task == TASK
    ensures s.procs[0].delivery == Some(Delivery(0, TASK, 1, cfg.maxQueueAttempts))
    ensures |s.world.queue| == 1 && Waits(cfg, s.world) && NothingLost(s)
    ensures s.world.approvals == map[(TASK, RestartKey(cfg, TASK)) := Undecided]
  {
    hide HonestlyPlayed, Leads, StepProc, RestartKey, InOrder;
    var a := AnswerFor(RestartService, 0.0);
    var before, s0 := Gates(cfg);
    LeadsSelf(cfg, None, s0.world, s0.procs[0], a);
    var v, q := Asks(cfg, None, s0.world, s0.procs[0], a, s0.world, s0.procs[0]);
    turns, s := GoesOn(cfg, before, s0, 0, a, v, q, 0.0, 0.0);
  }

  /** (H3 broken) The approval comes before the acknowledgment. */
  lemma EarlyApprovalOrphansTask(cfg: Config)
    requires cfg.Valid() && cfg.maxToolCalls >= 2
    ensures exists steps, s, end :: ReachedBy(cfg, steps, s) && Timely(steps, 0.0, end) && Orphaned(s, TASK)
  {
    hide HonestlyPlayed, PlayedBy, Play, Run, DoAdvance, Drain, LiveInv, Orphaned, RestartKey, Timely, InOrder,
         OnlyAdds;
    var a := AnswerFor(RestartService, 0.0);
    var turns, s := Asked(cfg);
    HonestRunsAreSound(cfg, None, turns, s);
    EarlyApprovalOrphans(cfg, s, 0, 1, a, a);
    var before := AsSteps(cfg, turns, s, 0.0, 0.0);
    var steps1 := StepOn(cfg, before, RequestApproval(1, TASK), 0.0, 0.0, 0.0);
    var steps2 := DrainIsRun(cfg, steps1, 1, a, SETTLEMENT_STEPS);
    TimelyAdds(steps1, steps2, Advance(1, a), 0.0, 0.0, 0.0);
    var steps3 := StepOn(cfg, steps2, Advance(0, a), 0.0, 0.0, 0.0);
    EndIsReached(cfg, steps3);
  }

  // ----- a result lost and fetched again -----

  /** The restart is approved and not yet recorded; its only live row is the second one. */
  ghost predicate Granted(cfg: Config, s: Sys) {
    && TASK in s.world.workflows && Stored(s.world, TASK, s.world.workflows[TASK].state)
    && var st := s.world.workflows[TASK].state;
    && st.Resumable()
    && st.pendingAction.value.tool == RestartService && st.pendingAction.value.arguments == SentArguments(RestartService)
    && st.pendingAction.value.actionId == RestartKey(cfg, TASK)
    && IsApproved(s.world, TASK, RestartKey(cfg, TASK)) && s.world.ledger == map[] && RequestedOnce(cfg, st)
    && |s.world.queue| == 2 && s.world.queue[0].status.Done? && s.world.queue[1].task == TASK
    && s.world.queue[1].availableAt == 0.0
  }

  /** The delivery is acknowledged. */
  lemma Acknowledges(cfg: Config) returns (turns: seq<Turn>, s: Sys)
    requires cfg.Valid() && cfg.maxToolCalls >= 2
    ensures HonestlyPlayed(cfg, None, turns, s) && InOrder(turns, 0.0, 0.0)
    ensures s.procs.Keys == {0} && !s.procs[0].Live() && NothingLost(s)
    ensures |s.world.queue| == 1 && s.world.queue[0].status.Done?
    ensures Waits(cfg, s.world) && s.world.approvals == map[(TASK, RestartKey(cfg, TASK)) := Undecided]
  {
    hide HonestlyPlayed, Drain, DoAdvance, RestartKey, Waits, InOrder;
    var a := AnswerFor(RestartService, 0.0);
    var before, s0 := Asked(cfg);
    var settle := Turn(Advance(0, a), a);
    HonestExtends(cfg, None, before, s0, settle);
    FinishSettles(cfg, s0, 0, a);
    InOrderAdds(before, settle, 0.0, 0.0);
    turns, s := before + [settle], Take(cfg, s0, settle);
    SameWorkflowsWait(cfg, s0.world, s.world);
  }

  /** (H2 broken) An approval that crashes between its verdict and its save: approved, and waiting for ever. */
  lemma CutApprovalStrands(cfg: Config)
    requires cfg.Valid() && cfg.maxToolCalls >= 2
    ensures exists steps, s, end :: ReachedBy(cfg, steps, s) && Timely(steps, 0.0, end) && Lost(s, TASK)
                                    && IsApproved(s.world, TASK, RestartKey(cfg, TASK))
  {
    hide HonestlyPlayed, PlayedBy, Run, Do, DoAdvance, Lost, RestartKey, Timely, InOrder;
    var a := AnswerFor(RestartService, 0.0);
    var turns, s := Acknowledges(cfg);
    HonestIsPlayed(cfg, None, turns, s);
    VerdictIsCut(cfg, s, 1, TASK, a);
    CutVerdictStrands(cfg, turns, s, 1, TASK, []);
    var before := AsSteps(cfg, turns, s, 0.0, 0.0);
    var steps1 := StepOn(cfg, before, RequestApproval(1, TASK), 0.0, 0.0, 0.0);
    var steps2 := StepOn(cfg, steps1, Advance(1, a), 0.0, 0.0, 0.0);
    var steps3 := StepOn(cfg, steps2, Advance(1, a), 0.0, 0.0, 0.0);
    var steps4 := StepOn(cfg, steps3, Crash(1), 0.0, 0.0, 0.0);
    DoneInTurn(cfg, s, a);
    EndIsReached(cfg, steps4);
  }

  lemma DoneInTurn(cfg: Config, s: Sys, a: Answer)
    requires cfg.Valid()
    ensures var requested := Do(cfg, s, RequestApproval(1, TASK));
            var resolved := Do(cfg, Do(cfg, requested, Advance(1, a)), Advance(1, a));
            Do(cfg, resolved, Crash(1))
            == DoCrash(cfg, DoAdvance(cfg, DoAdvance(cfg, DoRequest(s, 1, TASK, ToApprove), 1, a), 1, a), 1)
  {
    hide DoAdvance, DoCrash, DoRequest;
  }

  lemma SameWorkflowsWait(cfg: Config, w: World, v: World)
    requires Waits(cfg, w) && v.workflows == w.workflows && v.ledger == w.ledger
    ensures Waits(cfg, v)
  {
    hide RestartKey, SentArguments;
  }

  /** Acknowledged first, and then approved. */
  lemma Grants(cfg: Config) returns (turns: seq<Turn>, s: Sys)
    requires cfg.Valid() && cfg.maxToolCalls >= 2
    ensures HonestlyPlayed(cfg, None, turns, s) && Granted(cfg, s) && InOrder(turns, 0.0, 0.0)
    ensures s.procs.Keys == {0, 1} && !s.procs[0].Live() && !s.procs[1].Live()
    ensures s.world.queue[1] == NewRow(TASK, cfg.maxQueueAttempts, 0.0) && NothingLost(s)
  {
    hide HonestlyPlayed, Drain, DoAdvance, RestartKey, LiveInv, Apply, SentArguments, InOrder;
    var a := AnswerFor(RestartService, 0.0);
    var before, s1 := Acknowledges(cfg);
    var approve := Turn(RequestApproval(1, TASK), a);
    HonestExtends(cfg, None, before, s1, approve);
    HonestRunsAreSound(cfg, None, before, s1);
    Approves(cfg, s1, 1, a);
    InOrderAdds(before, approve, 0.0, 0.0);
    turns, s := before + [approve], Take(cfg, s1, approve);
    HonestRunsAreSound(cfg, None, turns, s);
    SoundIsStored(cfg, None, s, TASK);
  }

  lemma Approves(cfg: Config, s: Sys, pid: nat, a: Answer)
    requires cfg.Valid() && LiveInv(cfg, s) && MayResolve(s.world, TASK) && pid !in s.procs
    requires forall i | i in s.procs :: !s.procs[i].Live()
    requires forall i | 0 <= i < |s.world.queue| :: s.world.queue[i].status.Done?
    ensures var r := Take(cfg, s, Turn(RequestApproval(pid, TASK), a));
            && r.seen == s.seen && (pid in r.procs && r.procs == s.procs[pid := r.procs[pid]] && !r.procs[pid].Live())
            && r.world.queue == s.world.queue + [NewRow(TASK, cfg.maxQueueAttempts, a.now)]
            && r.world.ledger == s.world.ledger
            && IsApproved(r.world, TASK, s.world.workflows[TASK].state.pendingAction.value.actionId)
            && TASK in r.world.workflows
            && r.world.workflows[TASK].state.status.Queued?
            && r.world.workflows[TASK].state.pendingAction == s.world.workflows[TASK].state.pendingAction
            && SameHistories(s.world.workflows[TASK].state, r.world.workflows[TASK].state)
  {
    hide Drain, DoAdvance, Inv, LiveInv;
    LiveInvHasInv(cfg, s);
    RequestKeepsInv(cfg, s, pid, TASK, ToApprove);
    RequestResolves(cfg, DoRequest(s, pid, TASK, ToApprove), pid, a, TASK, ToApprove);
    assert !HasLive(s.world.queue, TASK);
  }

  /** The row is claimed, the action resumed, and the backend has returned. */
  lemma Executes(cfg: Config, before: seq<Turn>, s: Sys, pid: nat, until: real, now: real)
    returns (turns: seq<Turn>, r: Sys)
    requires cfg.Valid() && HonestlyPlayed(cfg, None, before, s) && Granted(cfg, s) && pid !in s.procs
    requires forall i | i in s.procs :: !s.procs[i].Live()
    requires InOrder(before, 0.0, until) && until <= now
    requires Claimable(Released(s.world.queue[1], now), now)
    ensures HonestlyPlayed(cfg, None, turns, r) && Granted(cfg, r) && SameLosses(s, r) && InOrder(turns, 0.0, now)
    ensures pid in r.procs && r.procs == s.procs[pid := r.procs[pid]]
    ensures r.procs[pid].pc == Recording(RestartService, SentArguments(RestartService), RESULT)
    ensures r.procs[pid].task == TASK
    ensures r.procs[pid].base == Some(r.world.workflows[TASK].state)
    ensures r.procs[pid].delivery.Some? && r.procs[pid].delivery.value.id == 1
    ensures r.world.queue[1].status.Processing? && r.world.queue[1].leaseUntil == Some(now + cfg.leaseSeconds)
  {
    hide HonestlyPlayed, Leads, DoAdvance, Drain, Claim, SentArguments, StructuredResult, Executable,
         ActionIdOf, InOrder;
    var a := AnswerFor(RestartService, now);
    var claim := Turn(ClaimNext(pid, WORKER, now), a);
    HonestExtends(cfg, None, before, s, claim);
    ClaimTakes(s.world, WORKER, cfg.leaseSeconds, now, 1);
    var t := Take(cfg, s, claim);
    InOrderAdds(before, claim, 0.0, until);
    PassesRestart(cfg);
    var w1, p1 := Resumes(cfg, None, t.world, t.procs[pid], a, t.world.workflows[TASK].state);
    CallsBackend(cfg, None, t.world, t.procs[pid], a, w1, p1);
    ResultIsStructured();
    var q := p1.(pc := Recording(RestartService, p1.pc.arguments, RESULT));
    turns, r := GoesOn(cfg, before + [claim], t, pid, a, w1, q, 0.0, now);
  }

  lemma PassesRestart(cfg: Config)
    ensures Executable(RestartService, SentArguments(RestartService))
  {
    hide Executable, ValidatedRequest;
    var d := Use(RestartService, "r", None);
    DefaultsValidate(RestartService, "r", None);
    PassesGate(cfg, TASK, d, RestartService);
  }

  /** (No hypothesis broken) A crash before the ledger write: the backend executes one key twice. */
  lemma ExecutesTwice(cfg: Config)
    requires cfg.Valid() && cfg.maxToolCalls >= 2
    ensures exists turns, s, key, end :: PlayedBy(cfg, turns, s) && InOrder(turns, 0.0, end)
                                         && s.seen[BackendReturned(key)] == 2
  {
    hide HonestlyPlayed, PlayedBy, Leads, SentArguments, ActionIdOf, StructuredResult, Stored, InOrder;
    var key := RestartKey(cfg, TASK);
    var before, s0 := Grants(cfg);
    var turns1, s1 := Executes(cfg, before, s0, 2, 0.0, 0.0);
    var crash := Turn(Crash(2), AnswerFor(RestartService, 0.0));
    HonestExtends(cfg, None, turns1, s1, crash);
    var s2 := Take(cfg, s1, crash);
    InOrderAdds(turns1, crash, 0.0, 0.0);
    assert s2.seen[ResultLost(key)] == 1;
    var turns, s := Executes(cfg, turns1 + [crash], s2, 3, 0.0, Later(cfg));
    HonestIsPlayed(cfg, None, turns, s);
    ReturnsAreExcused(cfg, turns, s, key);
    assert RecordingKey(cfg, s.procs[3], key);
  }

  // ----- an action requested again -----

  /** The restart is done and queued for the next decision, as the third row. */
  ghost predicate Restarted(cfg: Config, s: Sys) {
    && TASK in s.world.workflows && Stored(s.world, TASK, s.world.workflows[TASK].state)
    && var st := s.world.workflows[TASK].state;
    && Startable(st) && |st.toolHistory| == 1 && |st.progressHistory| == 2
    && IsApproved(s.world, TASK, RestartKey(cfg, TASK))
    && |s.world.queue| == 3 && s.world.queue[0].status.Done? && s.world.queue[1].status.Done?
    && s.world.queue[2] == NewRow(TASK, cfg.maxQueueAttempts, 0.0)
  }

  /** From the backend's answer to the settlement the worker owes. */
  lemma FinishPath(cfg: Config, w: World, p: Proc, st: WorkflowState) returns (v: World, q: Proc)
    requires cfg.Valid() && p.pc == Recording(RestartService, SentArguments(RestartService), RESULT) && p.task == TASK
    requires p.base == Some(st) && Stored(w, TASK, st) && RequestedOnce(cfg, st)
    ensures Leads(cfg, None, w, p, AnswerFor(RestartService, 0.0), v, q)
    ensures q == p.(base := q.base, pc := Acknowledging(Reenqueue)) && v.queue == w.queue && v.approvals == w.approvals
    ensures TASK in v.workflows
    ensures var r := v.workflows[TASK].state;
            Startable(r) && |r.toolHistory| == 1 && |r.progressHistory| == 2
  {
    hide Leads, StepProc, SentArguments, StructuredResult, ActionIdOf, Apply;
    var a := AnswerFor(RestartService, 0.0);
    LeadsSelf(cfg, None, w, p, a);
    ThenRecords(cfg, None, w, p, a, w, p);
    var w1 := SaveToolResult(w, KeyOf(cfg, p), LedgerRow(TASK, RestartService, cfg.argumentsHash(p.pc.arguments), RESULT));
    var p1 := p.(pc := Saving(FinishTool(RestartService, RESULT)));
    v, q := Finishes(cfg, None, w, p, a, w1, p1, st);
    FinishEffect(cfg, st);
  }

  lemma RecordsAndFinishes(cfg: Config, before: seq<Turn>, s: Sys) returns (turns: seq<Turn>, r: Sys)
    requires cfg.Valid() && HonestlyPlayed(cfg, None, before, s) && Granted(cfg, s) && 2 in s.procs
    requires InOrder(before, 0.0, 0.0)
    requires s.procs[2].pc == Recording(RestartService, SentArguments(RestartService), RESULT)
    requires s.procs[2].task == TASK
    requires s.procs[2].base == Some(s.world.workflows[TASK].state)
    requires s.procs[2].delivery.Some? && s.procs[2].delivery.value.id == 1
    requires forall i | i in s.procs && i != 2 :: !s.procs[i].Live()
    ensures HonestlyPlayed(cfg, None, turns, r) && Restarted(cfg, r) && InOrder(turns, 0.0, 0.0)
    ensures r.procs.Keys == s.procs.Keys && forall i | i in r.procs :: !r.procs[i].Live()
  {
    hide HonestlyPlayed, Leads, DoAdvance, Drain, SentArguments, RestartKey, HasLive, LiveInv, Sound, InOrder;
    var v, q := FinishPath(cfg, s.world, s.procs[2], s.world.workflows[TASK].state);
    var more, t := GoesOn(cfg, before, s, 2, AnswerFor(RestartService, 0.0), v, q, 0.0, 0.0);
    HonestRunsAreSound(cfg, None, more, t);
    SoundIsStored(cfg, None, t, TASK);
    r := SettlesSecond(cfg, more, t);
    var settle := Turn(Advance(2, AnswerFor(RestartService, 0.0)), AnswerFor(RestartService, 0.0));
    InOrderAdds(more, settle, 0.0, 0.0);
    turns := more + [settle];
  }

  lemma SettlesSecond(cfg: Config, before: seq<Turn>, t: Sys) returns (r: Sys)
    requires cfg.Valid() && HonestlyPlayed(cfg, None, before, t) && 2 in t.procs
    requires t.procs[2].pc == Acknowledging(Reenqueue) && t.procs[2].task == TASK
    requires t.procs[2].delivery.Some? && t.procs[2].delivery.value.id == 1
    requires |t.world.queue| == 2 && t.world.queue[0].status.Done?
    ensures var a := AnswerFor(RestartService, 0.0); HonestlyPlayed(cfg, None, before + [Turn(Advance(2, a), a)], r)
    ensures r.world.workflows == t.world.workflows && r.world.approvals == t.world.approvals
    ensures |r.world.queue| == 3 && r.world.queue[0].status.Done? && r.world.queue[1].status.Done?
    ensures r.world.queue[2] == NewRow(TASK, cfg.maxQueueAttempts, 0.0)
    ensures Ends(t, r, 2)
  {
    hide HonestlyPlayed, DoAdvance, Drain, HasLive;
    var a := AnswerFor(RestartService, 0.0);
    HonestExtends(cfg, None, before, t, Turn(Advance(2, a), a));
    NoLiveRow(t.world.queue);
    ReenqueueSettles(cfg, t, 2, a);
    r := Take(cfg, t, Turn(Advance(2, a), a));
  }

  lemma NoLiveRow(queue: seq<QueueRow>)
    requires |queue| == 2 && queue[0].status.Done?
    ensures !HasLive(queue[1 := DoneRow(queue[1])], TASK)
  {
  }

  lemma FinishEffect(cfg: Config, st: WorkflowState)
    requires cfg.Valid() && st.taskId == TASK && RequestedOnce(cfg, st)
    ensures var r := Apply(cfg, st, FinishTool(RestartService, RESULT));
            r.taskId == TASK && Startable(r) && |r.toolHistory| == 1 && |r.progressHistory| == 2
  {
  }

  /** The second request, up to the call that leaves the decided row as it is. */
  lemma GatesAgain(cfg: Config, before: seq<Turn>, s: Sys) returns (turns: seq<Turn>, r: Sys)
    requires cfg.Valid() && cfg.maxToolCalls >= 3 && cfg.repeatThreshold >= 4
    requires HonestlyPlayed(cfg, None, before, s) && Restarted(cfg, s) && 3 !in s.procs
    requires InOrder(before, 0.0, 0.0)
    requires forall i | i in s.procs :: !s.procs[i].Live()
    ensures HonestlyPlayed(cfg, None, turns, r) && InOrder(turns, 0.0, 0.0)
    ensures 3 in r.procs && r.procs[3].pc == PuttingApproval(RestartKey(cfg, TASK)) && r.procs[3].task == TASK
    ensures IsApproved(r.world, TASK, RestartKey(cfg, TASK))
  {
    hide HonestlyPlayed, Leads, DoAdvance, Drain, Claim, Sound, SentArguments, InOrder, Apply, ActionIdOf,
         RequestReason, ValidatedRequest, AfterAccept, Evaluate;
    var a := AnswerFor(RestartService, 0.0);
    var claim := Turn(ClaimNext(3, WORKER, 0.0), a);
    HonestExtends(cfg, None, before, s, claim);
    ClaimTakes(s.world, WORKER, cfg.leaseSeconds, 0.0, 2);
    var t := Take(cfg, s, claim);
    InOrderAdds(before, claim, 0.0, 0.0);
    var st := t.world.workflows[TASK].state;
    ShortHistoriesPass(cfg, st, RestartService);
    DefaultsValidate(RestartService, "r", None);
    PassesGate(cfg, TASK, a.engine.decision, RestartService);
    var w1, p1 := Requests(cfg, None, t.world, t.procs[3], a, st);
    var v, q := Parks(cfg, None, t.world, t.procs[3], a, w1, p1, p1.base.value);
    turns, r := GoesOn(cfg, before + [claim], t, 3, a, v, q, 0.0, 0.0);
  }

  /** (No hypothesis broken) An action requested again after its verdict: the workflow waits for ever. */
  lemma SecondRequestStrands(cfg: Config)
    requires cfg.Valid() && cfg.maxToolCalls >= 3 && cfg.repeatThreshold >= 4
    ensures exists turns, s, end :: PlayedBy(cfg, turns, s) && InOrder(turns, 0.0, end) && Lost(s, TASK)
  {
    hide HonestlyPlayed, PlayedBy, Lost, RestartKey, Restarted, DoAdvance, Stored, InOrder;
    var a := AnswerFor(RestartService, 0.0);
    var turns0, s0 := Grants(cfg);
    var turns1, s1 := Executes(cfg, turns0, s0, 2, 0.0, 0.0);
    var turns2, s2 := RecordsAndFinishes(cfg, turns1, s1);
    var turns3, s3 := GatesAgain(cfg, turns2, s2);
    HonestIsPlayed(cfg, None, turns3, s3);
    DecidedActionStrands(cfg, turns3, s3, 3, a);
    var put := Turn(Advance(3, a), a);
    HonestExtends(cfg, None, turns3, s3, put);
    InOrderAdds(turns3, put, 0.0, 0.0);
    HonestIsPlayed(cfg, None, turns3 + [put], DoAdvance(cfg, s3, 3, a));
  }
}
