/**
 Progress: from every state of a faithful disciplined run, if the remaining faults of the scenario fit the
 limits, some faithful turns lead to the final decision, whatever has crashed before.
 */
module Recovery {
  import opened Prelude
  import opened Models
  import opened Tools
  import opened Tables
  import opened QueueShape
  import opened Checkpoints
  import opened CheckpointFacts
  import opened Machine
  import opened System
  import opened Refinement
  import opened ApprovalGate
  import opened Discipline
  import opened Settlement
  import opened LiveRows
  import opened LiveTurns
  import opened LiveRuns
  import opened Reference
  import opened ReferenceChains
  import opened ReferenceRuns
  import opened Solo
  import opened Paths
  import opened FaithfulPlay
  import opened Claims
  import opened Rounds
  import opened Feasibility

  // ----- the stored checkpoint -----

  lemma TracksStored(cfg: Config, fx: Fixtures, s: Sys, task: TaskId)
    requires cfg.Valid() && Sound(cfg, Some(fx), s) && task in s.world.workflows
    ensures var st := s.world.workflows[task].state;
            && Tracked(cfg, fx, s.world, task, st) && st.scenarioId in fx.scenarios
            && (st.status.Running? ==> st.pendingAction.None?)
            && (st.pendingAction.Some? && st.status.Queued? ==> IsApproved(s.world, task, RestartKey(cfg, task)))
            && (st.status.Queued? || st.status.Running? ==> HasLive(s.world.queue, task))
  {
    hide Inv, LiveInv, ReferenceInv, LeasesSet, ApprovalsWereAskedFor, OnTrack, HistoryOnTrack, ReferenceDecision,
         Healthy, Unhealthy, Expected, SentArguments, ActionIdOf, Executable, NeedsApproval, HasLive;
    SoundIsStored(cfg, Some(fx), s, task);
    LiveInvHasInv(cfg, s);
    StoredIsLast(cfg, s, task);
    BaseIsReference(cfg, fx, s, task, |s.log[task]| - 1);
    OnTrackScenario(fx, s.world.workflows[task].state);
    TaskIsOk(cfg, s, task);
  }

  lemma LedgerIsExpected(cfg: Config, fx: Fixtures, s: Sys, task: TaskId, tool: Tool)
    requires cfg.Valid() && Sound(cfg, Some(fx), s) && task in s.world.workflows
    ensures s.world.workflows[task].state.scenarioId in fx.scenarios
    ensures LedgerExpects(cfg, fx, s.world, task, s.world.workflows[task].state.scenarioId, tool)
  {
    hide Inv, LiveInv, ReferenceInv, LeasesSet, ApprovalsWereAskedFor, ReferenceCommit, WellFormed, Expected,
         SentArguments;
    TracksStored(cfg, fx, s, task);
    LiveInvHasInv(cfg, s);
    StoredIsLast(cfg, s, task);
    BaseIsReference(cfg, fx, s, task, |s.log[task]| - 1);
    ReferenceTables(cfg, fx, s);
    var key := ActionIdOf(cfg, task, tool, SentArguments(tool));
    assert key in s.world.ledger ==> ExpectedRow(cfg, fx, s.log, s.world, key, s.world.ledger[key]);
  }

  // ----- an action is asked for once -----

  /** Once a restart was asked for, it stays pending until it is done or rejected. */
  predicate AskedOrOver(st: WorkflowState) {
    st.pendingAction.Some? || Progress(st) >= 5 || st.status.HumanRejected?
  }

  lemma FinishGoesOn(cfg: Config, fx: Fixtures, c: Commit, m: Move)
    requires cfg.Valid() && ReferenceCommit(cfg, fx, c) && m.FinishTool? && MayExecuteTool(c, m.tool)
    requires ByReference(fx, c.state, m)
    ensures Progress(Apply(cfg, c.state, m)) == Progress(c.state) + 1
  {
    hide Expected, ReferenceDecision, HistoryOnTrack, OnTrack, MayExecute, Healthy, Unhealthy, Finished, Apply, Tries,
         SentArguments;
    var arguments :| MayExecute(c, m.tool, arguments);
    DueToolRuns(cfg, fx, c, m.tool, arguments);
    FinishKeepsTrack(cfg, fx, c.state, m.tool, m.result);
    FinishApplies(cfg, c.state, m.tool, m.result);
  }

  lemma AskedOrOverStays(cfg: Config, fx: Fixtures, task: TaskId, c: Commit, m: Move)
    requires cfg.Valid() && ReferenceCommit(cfg, fx, c) && WellFormed(cfg, task, c) && AskedOrOver(c.state)
    requires Follows(cfg, c, m) && ByReference(fx, c.state, m) && (m.Replay? ==> c.state.status.DeadLettered?)
    ensures AskedOrOver(Apply(cfg, c.state, m))
  {
    hide Expected, ReferenceDecision, HistoryOnTrack, OnTrack, Healthy, Unhealthy, GatedAction, RequestReason, ValidatedRequest,
         MayExecuteTool, PendingFor, Tries;
    if m.FinishTool? {
      FinishGoesOn(cfg, fx, c, m);
      ExecutesUnended(c, m.tool);
    } else if (m.RetryTool? || m.FailRun?) && CallFailed(c, m.error) {
      var tool :| MayExecuteTool(c, tool);
      ExecutesUnended(c, tool);
    }
  }

  lemma ExecutesUnended(c: Commit, tool: Tool)
    requires MayExecuteTool(c, tool)
    ensures c.move.Accept? || c.state.Resumable()
  {
    var arguments :| MayExecute(c, tool, arguments);
    ExecutableTool(c, tool, arguments);
  }

  lemma {:induction false} AskedStaysPending(cfg: Config, fx: Fixtures, task: TaskId, log: seq<Commit>, i: nat, j: nat)
    requires cfg.Valid() && ReferenceLog(cfg, fx, task, log) && ReplaysOfDeadLetters(log)
    requires i <= j < |log| && log[i].move.Wait?
    ensures AskedOrOver(log[j].state)
    decreases j
  {
    hide Follows, ReferenceCommit, ByReference, WellFormed, Apply;
    LogWellFormed(cfg, task, log, j);
    if i == j {
      WaitsPending(cfg, task, log[j]);
    } else {
      AskedStaysPending(cfg, fx, task, log, i, j - 1);
      LogWellFormed(cfg, task, log, j - 1);
      ReferenceStaysOnTrack(cfg, fx, task, log, j - 1);
      assert LinkedAt(cfg, log, j) && CausedAt(fx, log, j) && ReplayFits(log, j);
      AskedOrOverStays(cfg, fx, task, log[j - 1], log[j].move);
    }
  }

  lemma WaitsPending(cfg: Config, task: TaskId, c: Commit)
    requires WellFormed(cfg, task, c) && c.move.Wait?
    ensures AskedOrOver(c.state)
  {
    hide GatedAction;
  }

  /** A workflow that is to be asked for its restart has no approval row for it yet. */
  lemma NotAskedYet(cfg: Config, fx: Fixtures, s: Sys, task: TaskId, action: ActionId)
    requires cfg.Valid() && Sound(cfg, Some(fx), s) && task in s.world.workflows
    requires Startable(s.world.workflows[task].state) && Progress(s.world.workflows[task].state) == 4
    ensures (task, action) !in s.world.approvals
  {
    hide Inv, LiveInv, ReferenceInv, LeasesSet, ReplaysOfDeadLetters, ReferenceLog;
    LiveInvHasInv(cfg, s);
    StoredIsLast(cfg, s, task);
    ReferenceTaskOf(cfg, fx, s, task);
    ReplaysAreOk(cfg, s, task);
    if (task, action) in s.world.approvals {
      assert WaitCommitted(s.log, task, action);
      var i: nat :| i < |s.log[task]| && s.log[task][i].move.Wait? && s.log[task][i].move.action.actionId == action;
      AskedStaysPending(cfg, fx, task, s.log[task], i, |s.log[task]| - 1);
    }
  }

  // ----- settling -----

  lemma SettlingIsHonest(fx: Option<Fixtures>, s: Sys, pid: nat, a: Answer)
    requires pid in s.procs && Settling(s.procs[pid].pc)
    ensures HonestTurn(fx, s, Turn(Advance(pid, a), a))
  {
  }

  /** Whatever a worker owes, it settles in one turn, and then nobody works on the task. */
  lemma Settles(cfg: Config, fx: Option<Fixtures>, calm: bool, s: Sys, pid: nat, now: real) returns (r: Sys)
    requires cfg.Valid() && Sound(cfg, fx, s) && WorkerLives(s, pid) && Settling(s.procs[pid].pc)
    ensures r == Drain(cfg, s, pid, Idle(now), SETTLEMENT_STEPS) && Sound(cfg, fx, r)
    ensures Onward(cfg, fx, At(now, calm), s, r) && NobodyOn(r, s.procs[pid].task)
  {
    hide Drain, DoAdvance, LiveInv, LeasesSet, ApprovalsWereAskedFor, ReferenceInv, Onward, HonestTurn;
    var a := Idle(now);
    var turn := Turn(Advance(pid, a), a);
    SettlingIsHonest(fx, s, pid, a);
    TakeKeepsSound(cfg, fx, s, turn);
    OnwardSelf(cfg, fx, At(now, calm), s);
    OnwardTurn(cfg, fx, At(now, calm), s, s, turn);
    r := Take(cfg, s, turn);
    EverySettlement(cfg, s, pid, a);
    EndsAlone(cfg, s, r, pid);
  }

  lemma EndsAlone(cfg: Config, s: Sys, r: Sys, pid: nat)
    requires cfg.Valid() && LiveInv(cfg, s) && WorkerLives(s, pid) && Ends(s, r, pid)
    ensures NobodyOn(r, s.procs[pid].task)
  {
    hide LiveInv;
    forall i | i in r.procs && r.procs[i].Live() ensures r.procs[i].task != s.procs[pid].task {
      if r.procs[i].task == s.procs[pid].task {
        OneWorkerPerTask(cfg, s, i, pid);
      }
    }
  }

  lemma SettlesRetry(cfg: Config, fx: Option<Fixtures>, calm: bool, s: Sys, pid: nat, now: real)
    returns (r: Sys, id: nat)
    requires cfg.Valid() && Sound(cfg, fx, s) && WorkerLives(s, pid) && s.procs[pid].pc.Retrying?
    requires s.procs[pid].delivery.Some? && s.procs[pid].delivery.value.attempts < cfg.maxQueueAttempts
    ensures Sound(cfg, fx, r) && Onward(cfg, fx, At(now, calm), s, r) && NobodyOn(r, s.procs[pid].task)
    ensures r.world.workflows == s.world.workflows && LiveAt(r.world.queue, id, s.procs[pid].task)
    ensures r.world.queue[id].attempts == s.procs[pid].delivery.value.attempts
  {
    hide Drain, DoAdvance, LiveInv, LeasesSet, ApprovalsWereAskedFor, ReferenceInv, Onward, RetryDelay, NobodyOn;
    HeldRow(cfg, s, pid);
    RetrySettles(cfg, s, pid, Idle(now));
    r := Settles(cfg, fx, calm, s, pid, now);
    id := s.procs[pid].delivery.value.id;
  }

  /** The last attempt failed: the workflow is dead-lettered, otherwise as it was. */
  lemma SettlesDead(cfg: Config, fx: Option<Fixtures>, calm: bool, s: Sys, pid: nat, now: real) returns (r: Sys)
    requires cfg.Valid() && Sound(cfg, fx, s) && WorkerLives(s, pid) && s.procs[pid].pc.Retrying?
    requires s.procs[pid].task in s.world.workflows
    requires s.procs[pid].delivery.Some? && s.procs[pid].delivery.value.attempts >= cfg.maxQueueAttempts
    ensures Sound(cfg, fx, r) && Onward(cfg, fx, At(now, calm), s, r) && NobodyOn(r, s.procs[pid].task)
    ensures var task := s.procs[pid].task;
            && task in r.world.workflows && r.world.workflows[task].state.status.DeadLettered?
            && SameFeasibility(s.world.workflows[task].state, r.world.workflows[task].state)
  {
    hide Drain, DoAdvance, LiveInv, LeasesSet, ApprovalsWereAskedFor, ReferenceInv, Onward, RetryDelay, NobodyOn, Inv;
    LiveInvHasInv(cfg, s);
    HeldRow(cfg, s, pid);
    SettlerNotTerminal(cfg, s, pid);
    DeadLetterSettles(cfg, s, pid, Idle(now));
    r := Settles(cfg, fx, calm, s, pid, now);
  }

  lemma SettlesDone(cfg: Config, fx: Option<Fixtures>, calm: bool, s: Sys, pid: nat, now: real)
    returns (r: Sys, id: nat)
    requires cfg.Valid() && Sound(cfg, fx, s) && WorkerLives(s, pid) && s.procs[pid].pc == Acknowledging(Reenqueue)
    ensures Sound(cfg, fx, r) && Onward(cfg, fx, At(now, calm), s, r) && NobodyOn(r, s.procs[pid].task)
    ensures r.world.workflows == s.world.workflows
    ensures LiveAt(r.world.queue, id, s.procs[pid].task) && r.world.queue[id].attempts == 0
  {
    hide Drain, DoAdvance, LiveInv, LeasesSet, ApprovalsWereAskedFor, ReferenceInv, Onward, HasLive, RowsFit, NobodyOn;
    HeldRow(cfg, s, pid);
    DoneRowLeavesNothing(cfg, s, pid);
    ReenqueueSettles(cfg, s, pid, Idle(now));
    r := Settles(cfg, fx, calm, s, pid, now);
    id := |s.world.queue|;
  }

  lemma SettlesWaiting(cfg: Config, fx: Option<Fixtures>, calm: bool, s: Sys, pid: nat, now: real) returns (r: Sys)
    requires cfg.Valid() && Sound(cfg, fx, s) && WorkerLives(s, pid) && s.procs[pid].pc == Acknowledging(Finish)
    ensures Sound(cfg, fx, r) && Onward(cfg, fx, At(now, calm), s, r) && NobodyOn(r, s.procs[pid].task)
    ensures r.world.workflows == s.world.workflows && r.world.approvals == s.world.approvals
  {
    hide Drain, DoAdvance, LiveInv, LeasesSet, ApprovalsWereAskedFor, ReferenceInv, Onward, NobodyOn;
    HeldRow(cfg, s, pid);
    FinishSettles(cfg, s, pid, Idle(now));
    r := Settles(cfg, fx, calm, s, pid, now);
  }

  // ----- one round: claim, work, settle -----

  /** The tool that is due was requested once more. */
  predicate OnceMore(st: WorkflowState, r: WorkflowState) {
    && r.scenarioId == st.scenarioId && Progress(r) == Progress(st) && Tries(r) == Tries(st) + 1
    && |r.toolHistory| == |st.toolHistory| + 1
  }

  lemma StillOnceMore(st: WorkflowState, after: WorkflowState, r: WorkflowState)
    requires OnceMore(st, after) && SameFeasibility(after, r)
    ensures OnceMore(st, r)
  {
  }

  /** A delivery for a tool without a gate; when its last attempt fails the workflow is dead-lettered. */
  lemma ServesTool(cfg: Config, fx: Fixtures, calm: bool, s: Sys, task: TaskId, id: nat, clock: real)
    returns (r: Sys, next: nat, now: real)
    requires cfg.Valid() && Sound(cfg, Some(fx), s) && cfg.leaseSeconds >= 0.0 && LiveAt(s.world.queue, id, task)
    requires task in s.world.workflows && Startable(s.world.workflows[task].state) && (calm ==> NobodyOn(s, task))
    requires var st := s.world.workflows[task].state;
             Workable(cfg, fx, st.scenarioId) && Progress(st) < 6 && Progress(st) != 4 && GuardPasses(cfg, st)
    ensures Onward(cfg, Some(fx), Pace(clock, now, calm), s, r) && Sound(cfg, Some(fx), r) && NobodyOn(r, task)
    ensures task in r.world.workflows
    ensures var st := s.world.workflows[task].state;
            var after := r.world.workflows[task].state;
            || (StepForward(st, after) && |after.toolHistory| == |st.toolHistory| + 1
                && LiveAt(r.world.queue, next, task) && r.world.queue[next].attempts == 0)
            || (&& OnceMore(st, after) && after.pendingAction.None?
                && Tries(st) < Transient(fx, st.scenarioId, ToolAt(Progress(st)))
                && (if s.world.queue[id].attempts + 1 < cfg.maxQueueAttempts
                    then after.status.Queued? && LiveAt(r.world.queue, next, task)
                         && r.world.queue[next].attempts == s.world.queue[id].attempts + 1
                    else after.status.DeadLettered?))
  {
    hide Sound, Onward, Leads, OnTrack, HistoryOnTrack, Workable, Transient, Tries, GuardPasses, ReferenceDecision,
         Expected, SentArguments, ActionIdOf, NobodyOn, CalmAnswer;
    var st := s.world.workflows[task].state;
    var s1, pid;
    s1, pid, now := Reclaims(cfg, Some(fx), calm, s, task, id, clock);
    TracksStored(cfg, fx, s1, task);
    LedgerIsExpected(cfg, fx, s1, task, ToolAt(Progress(st)));
    var a, v, q := ToolRound(cfg, fx, s1.world, s1.procs[pid], st, now);
    var s2 := LeadsOnward(cfg, Some(fx), calm, s1, pid, a, v, q);
    next := 0;
    if !q.pc.Retrying? {
      r, next := SettlesDone(cfg, Some(fx), calm, s2, pid, now);
    } else if s.world.queue[id].attempts + 1 < cfg.maxQueueAttempts {
      r, next := SettlesRetry(cfg, Some(fx), calm, s2, pid, now);
    } else {
      r := SettlesDead(cfg, Some(fx), calm, s2, pid, now);
      StillOnceMore(st, v.workflows[task].state, r.world.workflows[task].state);
    }
    ThenSettled(cfg, Some(fx), calm, s, s1, s2, r, clock, now);
  }

  /** Claimed, worked off and settled. */
  lemma ThenSettled(cfg: Config, fx: Option<Fixtures>, calm: bool, s: Sys, s1: Sys, s2: Sys, r: Sys,
          clock: real, now: real)
    requires cfg.Valid() && Onward(cfg, fx, Pace(clock, now, calm), s, s1)
    requires Onward(cfg, fx, At(now, calm), s1, s2) && Onward(cfg, fx, At(now, calm), s2, r)
    ensures Onward(cfg, fx, Pace(clock, now, calm), s, r)
  {
    hide Onward;
    OnwardJoin(cfg, fx, Pace(clock, now, calm), now, s, s1, s2);
    OnwardJoin(cfg, fx, Pace(clock, now, calm), now, s, s2, r);
  }

  lemma ServesRequest(cfg: Config, fx: Fixtures, calm: bool, s: Sys, task: TaskId, id: nat, clock: real)
    returns (r: Sys, now: real)
    requires cfg.Valid() && Sound(cfg, Some(fx), s) && cfg.leaseSeconds >= 0.0 && LiveAt(s.world.queue, id, task)
    requires task in s.world.workflows && Startable(s.world.workflows[task].state) && (calm ==> NobodyOn(s, task))
    requires var st := s.world.workflows[task].state;
             Workable(cfg, fx, st.scenarioId) && Progress(st) == 4 && GuardPasses(cfg, st)
    ensures Onward(cfg, Some(fx), Pace(clock, now, calm), s, r) && Sound(cfg, Some(fx), r) && NobodyOn(r, task)
    ensures MayResolve(r.world, task) && OnceMore(s.world.workflows[task].state, r.world.workflows[task].state)
  {
    hide Sound, Onward, Leads, OnTrack, HistoryOnTrack, Workable, Tries, GuardPasses, ReferenceDecision, Expected,
         SentArguments, ActionIdOf, NobodyOn, CalmAnswer;
    var st := s.world.workflows[task].state;
    var s1, pid;
    s1, pid, now := Reclaims(cfg, Some(fx), calm, s, task, id, clock);
    TracksStored(cfg, fx, s1, task);
    NotAskedYet(cfg, fx, s1, task, RestartKey(cfg, task));
    var a, v, q := ApprovalRound(cfg, fx, s1.world, s1.procs[pid], st, now);
    var s2 := LeadsOnward(cfg, Some(fx), calm, s1, pid, a, v, q);
    r := SettlesWaiting(cfg, Some(fx), calm, s2, pid, now);
    ThenSettled(cfg, Some(fx), calm, s, s1, s2, r, clock, now);
  }

  /** A request of the restart whose worker crashes before it waits: it counts, and nothing else happens. */
  lemma ServesVainRequest(cfg: Config, fx: Fixtures, s: Sys, task: TaskId, id: nat, clock: real)
    returns (r: Sys, now: real)
    requires cfg.Valid() && Sound(cfg, Some(fx), s) && cfg.leaseSeconds >= 0.0 && LiveAt(s.world.queue, id, task)
    requires task in s.world.workflows && Startable(s.world.workflows[task].state)
    requires var st := s.world.workflows[task].state;
             Workable(cfg, fx, st.scenarioId) && Progress(st) == 4 && GuardPasses(cfg, st)
    ensures Onward(cfg, Some(fx), Pace(clock, now, false), s, r) && Sound(cfg, Some(fx), r) && NobodyOn(r, task)
    ensures task in r.world.workflows && r.world.workflows[task].state.status.Running?
    ensures r.world.workflows[task].state.pendingAction.None?
    ensures OnceMore(s.world.workflows[task].state, r.world.workflows[task].state)
  {
    hide Sound, Onward, Leads, OnTrack, HistoryOnTrack, Workable, Tries, GuardPasses, ReferenceDecision, Expected,
         SentArguments, ActionIdOf, NobodyOn, CalmAnswer, Apply;
    var st := s.world.workflows[task].state;
    var s1, pid;
    s1, pid, now := Reclaims(cfg, Some(fx), false, s, task, id, clock);
    TracksStored(cfg, fx, s1, task);
    var v, q := RequestsDue(cfg, fx, s1.world, s1.procs[pid], st, now);
    var a := DueAnswer(cfg, fx, st, now);
    DueAnswerIsCalm(cfg, fx, st, now);
    AcceptedState(cfg, fx, st, a.engine.decision, Usage(0, 0));
    AcceptedRuns(cfg, fx, st, a.engine.decision);
    var s2 := LeadsOnward(cfg, Some(fx), false, s1, pid, a, v, q);
    r := Abandons(cfg, Some(fx), false, s2, task, now);
    ThenSettled(cfg, Some(fx), false, s, s1, s2, r, clock, now);
  }

  lemma AcceptedRuns(cfg: Config, fx: Fixtures, st: WorkflowState, d: Decision)
    requires cfg.Valid() && OnTrack(fx, st) && HistoryOnTrack(cfg, fx, st)
    ensures Accepted(cfg, st, d, Usage(0, 0)).status.Running?
  {
    hide OnTrack, HistoryOnTrack;
  }

  lemma ServesResumption(cfg: Config, fx: Fixtures, calm: bool, s: Sys, task: TaskId, id: nat, clock: real)
    returns (r: Sys, next: nat, now: real)
    requires cfg.Valid() && Sound(cfg, Some(fx), s) && cfg.leaseSeconds >= 0.0 && LiveAt(s.world.queue, id, task)
    requires task in s.world.workflows && s.world.workflows[task].state.status.Queued? && (calm ==> NobodyOn(s, task))
    requires var st := s.world.workflows[task].state;
             && Workable(cfg, fx, st.scenarioId) && st.pendingAction.Some?
             && Tries(st) > Transient(fx, st.scenarioId, RestartService)
    ensures Onward(cfg, Some(fx), Pace(clock, now, calm), s, r) && Sound(cfg, Some(fx), r) && NobodyOn(r, task)
    ensures task in r.world.workflows
    ensures LiveAt(r.world.queue, next, task) && r.world.queue[next].attempts == 0
    ensures StepForward(s.world.workflows[task].state, r.world.workflows[task].state)
    ensures r.world.workflows[task].state.toolHistory == s.world.workflows[task].state.toolHistory
  {
    hide Sound, Onward, Leads, OnTrack, HistoryOnTrack, Workable, Transient, Tries, GuardPasses, ReferenceDecision,
         Expected, SentArguments, ActionIdOf, StepForward, NobodyOn, CalmAnswer;
    var st := s.world.workflows[task].state;
    var s1, pid;
    s1, pid, now := Reclaims(cfg, Some(fx), calm, s, task, id, clock);
    TracksStored(cfg, fx, s1, task);
    LedgerIsExpected(cfg, fx, s1, task, RestartService);
    var a, v, q := ResumeRound(cfg, fx, s1.world, s1.procs[pid], st, now);
    var s2 := LeadsOnward(cfg, Some(fx), calm, s1, pid, a, v, q);
    r, next := SettlesDone(cfg, Some(fx), calm, s2, pid, now);
    ThenSettled(cfg, Some(fx), calm, s, s1, s2, r, clock, now);
  }

  lemma ServesDecision(cfg: Config, fx: Fixtures, calm: bool, s: Sys, task: TaskId, id: nat, clock: real)
    returns (r: Sys, now: real)
    requires cfg.Valid() && Sound(cfg, Some(fx), s) && cfg.leaseSeconds >= 0.0 && LiveAt(s.world.queue, id, task)
    requires task in s.world.workflows && Startable(s.world.workflows[task].state) && (calm ==> NobodyOn(s, task))
    requires var st := s.world.workflows[task].state;
             Workable(cfg, fx, st.scenarioId) && Progress(st) == 6
    ensures Onward(cfg, Some(fx), Pace(clock, now, calm), s, r) && Sound(cfg, Some(fx), r) && task in r.world.workflows
    ensures RightlyDecided(fx, r.world.workflows[task].state)
  {
    hide Sound, Onward, Leads, OnTrack, HistoryOnTrack, Workable, Tries, ReferenceDecision, Expected, SentArguments,
         ActionIdOf, RightlyDecided, NobodyOn, CalmAnswer;
    var st := s.world.workflows[task].state;
    var s1, pid;
    s1, pid, now := Reclaims(cfg, Some(fx), calm, s, task, id, clock);
    TracksStored(cfg, fx, s1, task);
    var a, v, q := DecisionRound(cfg, fx, s1.world, s1.procs[pid], st, now);
    r := LeadsOnward(cfg, Some(fx), calm, s1, pid, a, v, q);
    OnwardJoin(cfg, Some(fx), Pace(clock, now, calm), now, s, s1, r);
  }

  // ----- approvals and replays -----

  lemma RequestTurn(cfg: Config, s: Sys, pid: nat, task: TaskId, a: Answer)
    requires cfg.Valid() && LiveInv(cfg, s) && NobodyOn(s, task) && pid !in s.procs && MayResolve(s.world, task)
    ensures var r := Take(cfg, s, Turn(RequestApproval(pid, task), a));
            && task in r.world.workflows && NobodyOn(r, task)
            && r.world.workflows[task].state == Apply(cfg, s.world.workflows[task].state, Approve)
  {
    hide Drain, DoAdvance, Inv, LiveInv, Apply, MayResolve;
    LiveInvHasInv(cfg, s);
    RequestKeepsInv(cfg, s, pid, task, ToApprove);
    RequestResolves(cfg, DoRequest(s, pid, task, ToApprove), pid, a, task, ToApprove);
  }

  lemma ApprovedState(cfg: Config, st: WorkflowState)
    requires cfg.Valid()
    ensures var r := Apply(cfg, st, Approve);
            r.status.Queued? && SameFeasibility(st, r)
  {
  }

  lemma ServesApproval(cfg: Config, fx: Fixtures, calm: bool, s: Sys, task: TaskId, now: real) returns (r: Sys)
    requires cfg.Valid() && Sound(cfg, Some(fx), s) && MayResolve(s.world, task) && (calm ==> NobodyOn(s, task))
    ensures Onward(cfg, Some(fx), At(now, calm), s, r) && Sound(cfg, Some(fx), r) && NobodyOn(r, task)
    ensures task in r.world.workflows && r.world.workflows[task].state.status.Queued?
    ensures SameFeasibility(s.world.workflows[task].state, r.world.workflows[task].state)
  {
    hide LiveInv, LeasesSet, ApprovalsWereAskedFor, ReferenceInv, Onward, HonestTurn, Take, NobodyOn;
    var s1 := Abandons(cfg, Some(fx), calm, s, task, now);
    var pid := UnusedNumber(s1.procs.Keys);
    var turn := Turn(RequestApproval(pid, task), Idle(now));
    CrashIsHonest(Some(fx), s1, turn);
    RequestTurn(cfg, s1, pid, task, Idle(now));
    TakeKeepsSound(cfg, Some(fx), s1, turn);
    OnwardTurn(cfg, Some(fx), At(now, calm), s, s1, turn);
    ApprovedState(cfg, s.world.workflows[task].state);
    r := Take(cfg, s1, turn);
  }

  /** A dead-lettered workflow is replayed. */
  lemma Revives(cfg: Config, fx: Fixtures, s: Sys, task: TaskId, now: real) returns (r: Sys)
    requires cfg.Valid() && Sound(cfg, Some(fx), s) && task in s.world.workflows
    requires s.world.workflows[task].state.status.DeadLettered?
    ensures Onward(cfg, Some(fx), At(now, false), s, r) && Sound(cfg, Some(fx), r) && NobodyOn(r, task)
    ensures task in r.world.workflows && r.world.workflows[task].state.status.Queued?
    ensures SameFeasibility(s.world.workflows[task].state, r.world.workflows[task].state)
  {
    hide LiveInv, LeasesSet, ApprovalsWereAskedFor, ReferenceInv, Onward, DoReplay, Inv;
    LiveInvHasInv(cfg, s);
    TaskIsOk(cfg, s, task);
    var row: nat :| row < |s.world.queue| && DeadAt(s.world.queue, row, task);
    var turn := Turn(ReplayRow(row, task, now), Idle(now));
    r := Take(cfg, s, turn);
    TakeKeepsSound(cfg, Some(fx), s, turn);
    OnwardSelf(cfg, Some(fx), At(now, false), s);
    OnwardTurn(cfg, Some(fx), At(now, false), s, s, turn);
    StoredIsLast(cfg, s, task);
    ReplayEffect(cfg, s, row, task, now);
    forall pid | pid in s.procs && s.procs[pid].Live() ensures s.procs[pid].task != task {
      NobodyWorksOnDeadLetters(cfg, s, pid, task);
    }
  }

  // ----- what is left of guard and budget -----

  /** Requests on the way to `upto`. */
  function CallsAhead(fx: Fixtures, st: WorkflowState, upto: nat): nat
    requires st.scenarioId in fx.scenarios && upto <= 6
  {
    if Progress(st) < upto then CallsDue(fx, st) + CallsFrom(fx, st.scenarioId, Progress(st) + 1, upto) else 0
  }

  /** `r` has no more requests ahead than `st` had, those made in between included, and can make them. */
  predicate Affords(cfg: Config, fx: Fixtures, st: WorkflowState, r: WorkflowState, upto: nat)
    requires st.scenarioId in fx.scenarios && upto <= 6
  {
    && r.scenarioId == st.scenarioId && FeasibleUpTo(cfg, fx, r, upto)
    && |r.toolHistory| + CallsAhead(fx, r, upto) <= |st.toolHistory| + CallsAhead(fx, st, upto)
  }

  lemma ForwardAffords(cfg: Config, fx: Fixtures, st: WorkflowState, r: WorkflowState, upto: nat)
    requires st.scenarioId in fx.scenarios && Progress(st) < upto <= 6 && FeasibleUpTo(cfg, fx, st, upto)
    requires StepForward(st, r) && |r.toolHistory| == |st.toolHistory| + (if st.pendingAction.Some? then 0 else 1)
    ensures Affords(cfg, fx, st, r, upto)
  {
    hide Transient, Tries;
    if Progress(r) < upto {
      assert ToolFits(cfg, fx, st.scenarioId, Progress(r));
    }
  }

  lemma AgainAffords(cfg: Config, fx: Fixtures, st: WorkflowState, r: WorkflowState, upto: nat)
    requires st.scenarioId in fx.scenarios && Progress(st) < upto <= 6 && FeasibleUpTo(cfg, fx, st, upto)
    requires st.pendingAction.None? && r.pendingAction.None? && OnceMore(st, r)
    requires Tries(st) < Failures(fx, st.scenarioId, Progress(st))
    ensures Affords(cfg, fx, st, r, upto) && CallsDue(fx, r) < CallsDue(fx, st)
  {
    hide Transient, Tries, ToolsFit, CallsFrom;
  }

  lemma AskingAffords(cfg: Config, fx: Fixtures, st: WorkflowState, r: WorkflowState, upto: nat)
    requires st.scenarioId in fx.scenarios && Progress(st) < upto <= 6 && FeasibleUpTo(cfg, fx, st, upto)
    requires st.pendingAction.None? && r.pendingAction.Some? && OnceMore(st, r)
    requires Failures(fx, st.scenarioId, Progress(st)) <= Tries(st)
    ensures Affords(cfg, fx, st, r, upto) && CallsDue(fx, r) < CallsDue(fx, st)
  {
    hide Transient, Tries, ToolsFit, CallsFrom;
  }

  lemma SameAffords(cfg: Config, fx: Fixtures, st: WorkflowState, r: WorkflowState, upto: nat)
    requires st.scenarioId in fx.scenarios && upto <= 6 && FeasibleUpTo(cfg, fx, st, upto) && SameFeasibility(st, r)
    ensures Affords(cfg, fx, st, r, upto) && (Progress(st) < 6 ==> CallsDue(fx, r) == CallsDue(fx, st))
  {
    hide Transient, FeasibleUpTo, CallsFrom;
    SameIsFeasible(cfg, fx, st, r);
  }

  lemma FeasiblePassesGuard(cfg: Config, fx: Fixtures, st: WorkflowState, upto: nat)
    requires st.scenarioId in fx.scenarios && Progress(st) < upto <= 6 && FeasibleUpTo(cfg, fx, st, upto)
    requires st.pendingAction.None?
    ensures GuardPasses(cfg, st)
  {
    hide Transient, Tries, ToolsFit, CallsFrom;
  }

  // ----- without crashes and replays -----

  /** The tool is done before its row has no attempts left; a restart that nobody helps must not fail at all. */
  predicate ToolIsCalm(cfg: Config, fx: Fixtures, scenarioId: string, n: nat, tried: nat, attempts: nat)
    requires scenarioId in fx.scenarios && n < 6
  {
    var failures := Failures(fx, scenarioId, n);
    if n == 4 then failures <= tried else failures > tried ==> attempts + (failures - tried) < cfg.maxQueueAttempts
  }

  predicate ToolsAreCalm(cfg: Config, fx: Fixtures, scenarioId: string, n: nat, upto: nat)
    requires scenarioId in fx.scenarios && upto <= 6
  {
    forall m: nat | n <= m < upto :: ToolIsCalm(cfg, fx, scenarioId, m, 0, 0)
  }

  predicate RowIsCalm(cfg: Config, fx: Fixtures, st: WorkflowState, attempts: nat, upto: nat)
    requires st.scenarioId in fx.scenarios && upto <= 6
  {
    var n := Progress(st);
    n < upto && st.pendingAction.None? ==> ToolIsCalm(cfg, fx, st.scenarioId, n, Tries(st), attempts)
  }

  /** It needs neither a crash nor a replay to go on: not dead-lettered, and its live row has attempts enough. */
  ghost predicate Unaided(cfg: Config, fx: Fixtures, s: Sys, task: TaskId, upto: nat)
    requires upto <= 6
  {
    && task in s.world.workflows && NobodyOn(s, task)
    && var st := s.world.workflows[task].state;
    && st.scenarioId in fx.scenarios && !st.status.DeadLettered?
    && ToolsAreCalm(cfg, fx, st.scenarioId, Progress(st) + 1, upto)
    && forall i | LiveAt(s.world.queue, i, task) :: RowIsCalm(cfg, fx, st, s.world.queue[i].attempts, upto)
  }

  /** The row at hand is the only one. */
  lemma OnlyRowIsCalm(cfg: Config, fx: Fixtures, s: Sys, task: TaskId, id: nat, upto: nat)
    requires cfg.Valid() && Sound(cfg, Some(fx), s) && task in s.world.workflows && LiveAt(s.world.queue, id, task)
    requires NobodyOn(s, task) && upto <= 6 && !s.world.workflows[task].state.status.DeadLettered?
    requires var st := s.world.workflows[task].state;
             && st.scenarioId in fx.scenarios && ToolsAreCalm(cfg, fx, st.scenarioId, Progress(st) + 1, upto)
             && RowIsCalm(cfg, fx, st, s.world.queue[id].attempts, upto)
    ensures Unaided(cfg, fx, s, task, upto)
  {
    hide LiveInv, LeasesSet, ApprovalsWereAskedFor, ReferenceInv, RowIsCalm, ToolsAreCalm, PendingApproved, NobodyOn;
    TaskIsOk(cfg, s, task);
  }

  /** With an action pending any row will do. */
  lemma PendingIsCalm(cfg: Config, fx: Fixtures, s: Sys, r: Sys, task: TaskId, upto: nat)
    requires upto <= 6 && Unaided(cfg, fx, s, task, upto) && task in r.world.workflows && NobodyOn(r, task)
    requires var st, after := s.world.workflows[task].state, r.world.workflows[task].state;
             && after.pendingAction.Some? && !after.status.DeadLettered? && after.scenarioId == st.scenarioId
             && Progress(after) == Progress(st)
    ensures Unaided(cfg, fx, r, task, upto)
  {
    hide ToolsAreCalm, ToolIsCalm, NobodyOn, Tries;
  }

  lemma NextIsCalm(cfg: Config, fx: Fixtures, st: WorkflowState, r: WorkflowState, upto: nat)
    requires st.scenarioId in fx.scenarios && upto <= 6 && StepForward(st, r)
    requires ToolsAreCalm(cfg, fx, st.scenarioId, Progress(st) + 1, upto)
    ensures ToolsAreCalm(cfg, fx, r.scenarioId, Progress(r) + 1, upto) && RowIsCalm(cfg, fx, r, 0, upto)
  {
    hide Transient, Tries, ToolIsCalm;
    if Progress(r) < upto {
      assert ToolIsCalm(cfg, fx, st.scenarioId, Progress(r), 0, 0);
    }
  }

  lemma AgainIsCalm(cfg: Config, fx: Fixtures, st: WorkflowState, r: WorkflowState, attempts: nat, upto: nat)
    requires st.scenarioId in fx.scenarios && Progress(st) < upto <= 6 && RowIsCalm(cfg, fx, st, attempts, upto)
    requires OnceMore(st, r) && st.pendingAction.None? && Progress(st) != 4
    requires Tries(st) < Failures(fx, st.scenarioId, Progress(st))
    ensures attempts + 1 < cfg.maxQueueAttempts && RowIsCalm(cfg, fx, r, attempts + 1, upto)
  {
    hide Transient, Tries;
  }

  // ----- rounds on the way -----

  /** What can still go on: queued, running, dead-lettered, or waiting with a verdict to come. */
  predicate Unfinished(w: World, task: TaskId) {
    && task in w.workflows
    && var status := w.workflows[task].state.status;
    status.Queued? || status.Running? || status.DeadLettered? || MayResolve(w, task)
  }

  /** Everything the next round asks for. */
  ghost predicate Ready(cfg: Config, fx: Fixtures, calm: bool, s: Sys, task: TaskId, upto: nat)
    requires cfg.Valid() && upto <= 6
  {
    && Sound(cfg, Some(fx), s) && Unfinished(s.world, task)
    && var st := s.world.workflows[task].state;
    && Workable(cfg, fx, st.scenarioId) && Progress(st) <= upto && FeasibleUpTo(cfg, fx, st, upto)
    && (calm ==> Unaided(cfg, fx, s, task, upto))
  }

  /** Dead-lettered, waiting, or queued: what comes first has the higher number. */
  function Phase(st: WorkflowState): nat {
    if st.status.DeadLettered? then 2 else if st.status.WaitingForApproval? then 1 else 0
  }

  /** A round gets a step further, or takes a request off those that are due. */
  predicate Nearer(fx: Fixtures, st: WorkflowState, r: WorkflowState)
    requires st.scenarioId in fx.scenarios && r.scenarioId == st.scenarioId
  {
    || (Progress(r) == Progress(st) + 1 && r.status.Queued? && r.pendingAction.None? && Tries(r) == 0)
    || (Progress(r) == Progress(st) < 6
        && (CallsDue(fx, r) < CallsDue(fx, st) || (CallsDue(fx, r) == CallsDue(fx, st) && Phase(r) < Phase(st))))
  }

  /** What a round has to come to. */
  ghost predicate Comes(cfg: Config, fx: Fixtures, calm: bool, s: Sys, r: Sys, task: TaskId, clock: real,
          now: real, upto: nat)
    requires cfg.Valid() && upto <= 6
  {
    && Onward(cfg, Some(fx), Pace(clock, now, calm), s, r) && Ready(cfg, fx, calm, r, task, upto) && NobodyOn(r, task)
    && task in s.world.workflows
    && var st := s.world.workflows[task].state;
    && st.scenarioId in fx.scenarios && Affords(cfg, fx, st, r.world.workflows[task].state, upto)
    && Nearer(fx, st, r.world.workflows[task].state)
  }

  lemma ReadyFacts(cfg: Config, fx: Fixtures, calm: bool, s: Sys, task: TaskId, upto: nat)
    requires cfg.Valid() && upto <= 6 && Ready(cfg, fx, calm, s, task, upto)
    ensures Sound(cfg, Some(fx), s) && Unfinished(s.world, task)
    ensures var st := s.world.workflows[task].state;
            && Workable(cfg, fx, st.scenarioId) && Progress(st) <= upto && st.scenarioId in fx.scenarios
            && FeasibleUpTo(cfg, fx, st, upto)
            && (calm ==> Unaided(cfg, fx, s, task, upto) && NobodyOn(s, task) && !st.status.DeadLettered?)
            && (st.pendingAction.Some? ==> Progress(st) == 4)
  {
    hide Sound, FeasibleUpTo, DistinctFingerprints, StructuredResult, Healthy, Unhealthy, Expected, NobodyOn, ToolsAreCalm,
         RowIsCalm, OnTrack, HistoryOnTrack, Tries, SentArguments, ActionIdOf;
    TracksStored(cfg, fx, s, task);
  }

  lemma RevivalComes(cfg: Config, fx: Fixtures, s: Sys, task: TaskId, clock: real, upto: nat) returns (r: Sys)
    requires cfg.Valid() && upto <= 6 && Ready(cfg, fx, false, s, task, upto)
    requires Progress(s.world.workflows[task].state) < upto
    requires s.world.workflows[task].state.status.DeadLettered?
    ensures Comes(cfg, fx, false, s, r, task, clock, clock, upto)
  {
    hide Sound, Onward, FeasibleUpTo, Workable, NobodyOn, Unaided, CallsDue, CallsAhead, Tries;
    ReadyFacts(cfg, fx, false, s, task, upto);
    r := Revives(cfg, fx, s, task, clock);
    SameAffords(cfg, fx, s.world.workflows[task].state, r.world.workflows[task].state, upto);
  }

  lemma ApprovalComes(cfg: Config, fx: Fixtures, calm: bool, s: Sys, task: TaskId, clock: real, upto: nat)
    returns (r: Sys)
    requires cfg.Valid() && upto <= 6 && Ready(cfg, fx, calm, s, task, upto)
    requires Progress(s.world.workflows[task].state) < upto
    requires MayResolve(s.world, task)
    ensures Comes(cfg, fx, calm, s, r, task, clock, clock, upto)
  {
    hide Sound, Onward, FeasibleUpTo, Workable, NobodyOn, Unaided, CallsDue, CallsAhead, Tries;
    ReadyFacts(cfg, fx, calm, s, task, upto);
    r := ServesApproval(cfg, fx, calm, s, task, clock);
    SameAffords(cfg, fx, s.world.workflows[task].state, r.world.workflows[task].state, upto);
    if calm {
      PendingIsCalm(cfg, fx, s, r, task, upto);
    }
  }

  lemma ResumptionComes(cfg: Config, fx: Fixtures, calm: bool, s: Sys, task: TaskId, id: nat, clock: real, upto: nat)
    returns (r: Sys, now: real)
    requires cfg.Valid() && upto <= 6 && Ready(cfg, fx, calm, s, task, upto)
    requires Progress(s.world.workflows[task].state) < upto
    requires cfg.leaseSeconds >= 0.0 && LiveAt(s.world.queue, id, task) && s.world.workflows[task].state.status.Queued?
    requires s.world.workflows[task].state.pendingAction.Some?
    ensures Comes(cfg, fx, calm, s, r, task, clock, now, upto)
  {
    hide Sound, Onward, FeasibleUpTo, Workable, NobodyOn, Unaided, CallsAhead, Tries, ToolsAreCalm, RowIsCalm,
         Transient;
    var st := s.world.workflows[task].state;
    ReadyFacts(cfg, fx, calm, s, task, upto);
    PendingOutlasts(cfg, fx, st, upto);
    var next;
    r, next, now := ServesResumption(cfg, fx, calm, s, task, id, clock);
    var after := r.world.workflows[task].state;
    ForwardAffords(cfg, fx, st, after, upto);
    if calm {
      UnaidedTools(cfg, fx, s, task, upto);
      NextIsCalm(cfg, fx, st, after, upto);
      OnlyRowIsCalm(cfg, fx, r, task, next, upto);
    }
  }

  lemma PendingOutlasts(cfg: Config, fx: Fixtures, st: WorkflowState, upto: nat)
    requires st.scenarioId in fx.scenarios && Progress(st) < upto <= 6 && FeasibleUpTo(cfg, fx, st, upto)
    requires st.pendingAction.Some? && Progress(st) == 4
    ensures Tries(st) > Transient(fx, st.scenarioId, RestartService)
  {
    hide Transient, Tries, ToolsFit, CallsFrom;
  }

  lemma UnaidedTools(cfg: Config, fx: Fixtures, s: Sys, task: TaskId, upto: nat)
    requires upto <= 6 && Unaided(cfg, fx, s, task, upto)
    ensures var st := s.world.workflows[task].state;
            && st.scenarioId in fx.scenarios && ToolsAreCalm(cfg, fx, st.scenarioId, Progress(st) + 1, upto)
            && forall i | LiveAt(s.world.queue, i, task) :: RowIsCalm(cfg, fx, st, s.world.queue[i].attempts, upto)
  {
    hide ToolsAreCalm, RowIsCalm, NobodyOn;
  }

  lemma ToolComes(cfg: Config, fx: Fixtures, calm: bool, s: Sys, task: TaskId, id: nat, clock: real, upto: nat)
    returns (r: Sys, now: real)
    requires cfg.Valid() && upto <= 6 && Ready(cfg, fx, calm, s, task, upto)
    requires Progress(s.world.workflows[task].state) < upto
    requires cfg.leaseSeconds >= 0.0 && LiveAt(s.world.queue, id, task)
    requires Startable(s.world.workflows[task].state) && Progress(s.world.workflows[task].state) != 4
    ensures Comes(cfg, fx, calm, s, r, task, clock, now, upto)
  {
    hide Sound, Onward, FeasibleUpTo, Workable, NobodyOn, Unaided, CallsAhead, Tries, ToolsAreCalm, RowIsCalm,
         Transient, GuardPasses, CallsDue;
    var st := s.world.workflows[task].state;
    ReadyFacts(cfg, fx, calm, s, task, upto);
    FeasiblePassesGuard(cfg, fx, st, upto);
    var next;
    r, next, now := ServesTool(cfg, fx, calm, s, task, id, clock);
    var after := r.world.workflows[task].state;
    if calm {
      UnaidedTools(cfg, fx, s, task, upto);
    }
    if StepForward(st, after) {
      ForwardAffords(cfg, fx, st, after, upto);
      if calm {
        NextIsCalm(cfg, fx, st, after, upto);
        OnlyRowIsCalm(cfg, fx, r, task, next, upto);
      }
    } else {
      AgainAffords(cfg, fx, st, after, upto);
      if calm {
        AgainIsCalm(cfg, fx, st, after, s.world.queue[id].attempts, upto);
        OnlyRowIsCalm(cfg, fx, r, task, next, upto);
      }
    }
  }

  lemma RequestComes(cfg: Config, fx: Fixtures, calm: bool, s: Sys, task: TaskId, id: nat, clock: real, upto: nat)
    returns (r: Sys, now: real)
    requires cfg.Valid() && upto <= 6 && Ready(cfg, fx, calm, s, task, upto)
    requires Progress(s.world.workflows[task].state) < upto
    requires cfg.leaseSeconds >= 0.0 && LiveAt(s.world.queue, id, task)
    requires Startable(s.world.workflows[task].state) && Progress(s.world.workflows[task].state) == 4
    requires Failures(fx, s.world.workflows[task].state.scenarioId, 4) <= Tries(s.world.workflows[task].state)
    ensures Comes(cfg, fx, calm, s, r, task, clock, now, upto)
  {
    hide Sound, Onward, FeasibleUpTo, Workable, NobodyOn, Unaided, CallsAhead, Tries, Transient, GuardPasses, CallsDue;
    var st := s.world.workflows[task].state;
    ReadyFacts(cfg, fx, calm, s, task, upto);
    FeasiblePassesGuard(cfg, fx, st, upto);
    r, now := ServesRequest(cfg, fx, calm, s, task, id, clock);
    AskingAffords(cfg, fx, st, r.world.workflows[task].state, upto);
    if calm {
      PendingIsCalm(cfg, fx, s, r, task, upto);
    }
  }

  lemma VainRequestComes(cfg: Config, fx: Fixtures, s: Sys, task: TaskId, id: nat, clock: real, upto: nat)
    returns (r: Sys, now: real)
    requires cfg.Valid() && upto <= 6 && Ready(cfg, fx, false, s, task, upto)
    requires Progress(s.world.workflows[task].state) < upto
    requires cfg.leaseSeconds >= 0.0 && LiveAt(s.world.queue, id, task)
    requires Startable(s.world.workflows[task].state) && Progress(s.world.workflows[task].state) == 4
    requires Failures(fx, s.world.workflows[task].state.scenarioId, 4) > Tries(s.world.workflows[task].state)
    ensures Comes(cfg, fx, false, s, r, task, clock, now, upto)
  {
    hide Sound, Onward, FeasibleUpTo, Workable, NobodyOn, Unaided, CallsAhead, Tries, Transient, GuardPasses, CallsDue;
    var st := s.world.workflows[task].state;
    ReadyFacts(cfg, fx, false, s, task, upto);
    FeasiblePassesGuard(cfg, fx, st, upto);
    r, now := ServesVainRequest(cfg, fx, s, task, id, clock);
    AgainAffords(cfg, fx, st, r.world.workflows[task].state, upto);
  }

  lemma RestartIsCalm(cfg: Config, fx: Fixtures, s: Sys, task: TaskId, id: nat, upto: nat)
    requires upto <= 6 && Unaided(cfg, fx, s, task, upto) && LiveAt(s.world.queue, id, task)
    requires Progress(s.world.workflows[task].state) == 4 < upto && s.world.workflows[task].state.pendingAction.None?
    ensures Failures(fx, s.world.workflows[task].state.scenarioId, 4) <= Tries(s.world.workflows[task].state)
  {
    hide ToolsAreCalm, NobodyOn, Tries, Transient;
    assert RowIsCalm(cfg, fx, s.world.workflows[task].state, s.world.queue[id].attempts, upto);
  }

  /** Whatever comes next. */
  lemma RoundComes(cfg: Config, fx: Fixtures, calm: bool, s: Sys, task: TaskId, clock: real, upto: nat)
    returns (r: Sys, now: real)
    requires cfg.Valid() && upto <= 6 && Ready(cfg, fx, calm, s, task, upto) && cfg.leaseSeconds >= 0.0
    requires Progress(s.world.workflows[task].state) < upto
    ensures Comes(cfg, fx, calm, s, r, task, clock, now, upto)
  {
    hide Sound, Onward, FeasibleUpTo, Workable, NobodyOn, CallsAhead, Tries, Transient, Comes, ToolsAreCalm, RowIsCalm,
         OnTrack, HistoryOnTrack, SentArguments, ActionIdOf;
    var st := s.world.workflows[task].state;
    ReadyFacts(cfg, fx, calm, s, task, upto);
    TracksStored(cfg, fx, s, task);
    r, now := s, clock;
    if st.status.DeadLettered? {
      r := RevivalComes(cfg, fx, s, task, clock, upto);
    } else if MayResolve(s.world, task) {
      r := ApprovalComes(cfg, fx, calm, s, task, clock, upto);
    } else {
      var id: nat :| id < |s.world.queue| && LiveAt(s.world.queue, id, task);
      if st.pendingAction.Some? {
        r, now := ResumptionComes(cfg, fx, calm, s, task, id, clock, upto);
      } else if Progress(st) != 4 {
        r, now := ToolComes(cfg, fx, calm, s, task, id, clock, upto);
      } else if Failures(fx, st.scenarioId, 4) <= Tries(st) {
        r, now := RequestComes(cfg, fx, calm, s, task, id, clock, upto);
      } else if calm {
        RestartIsCalm(cfg, fx, s, task, id, upto);
        assert false;
      } else {
        r, now := VainRequestComes(cfg, fx, s, task, id, clock, upto);
      }
    }
  }

  // ----- all the way -----

  function DueNow(fx: Fixtures, st: WorkflowState): nat
    requires st.scenarioId in fx.scenarios
  {
    if Progress(st) < 6 then CallsDue(fx, st) else 0
  }

  /** What a round came to, for the next one. */
  lemma CameNearer(cfg: Config, fx: Fixtures, calm: bool, s: Sys, r: Sys, task: TaskId, clock: real,
          now: real, upto: nat)
    requires cfg.Valid() && upto <= 6 && Comes(cfg, fx, calm, s, r, task, clock, now, upto)
    ensures Onward(cfg, Some(fx), Pace(clock, now, calm), s, r) && Ready(cfg, fx, calm, r, task, upto)
    ensures NobodyOn(r, task)
    ensures task in s.world.workflows && task in r.world.workflows
    ensures var st, after := s.world.workflows[task].state, r.world.workflows[task].state;
            && st.scenarioId in fx.scenarios && after.scenarioId == st.scenarioId && Progress(after) <= upto
            && Affords(cfg, fx, st, after, upto) && Nearer(fx, st, after)
  {
    hide Onward, Sound, NobodyOn, Workable, FeasibleUpTo, CallsAhead, CallsDue, Tries, Unaided;
  }

  /** Through all tools before `upto`, and no further. */
  lemma {:induction false} WorksThrough(cfg: Config, fx: Fixtures, calm: bool, s: Sys, task: TaskId,
          clock: real, upto: nat)
    returns (r: Sys, end: real)
    requires cfg.Valid() && upto <= 6 && Ready(cfg, fx, calm, s, task, upto) && cfg.leaseSeconds >= 0.0
    ensures Onward(cfg, Some(fx), Pace(clock, end, calm), s, r) && Ready(cfg, fx, calm, r, task, upto)
    ensures var st, after := s.world.workflows[task].state, r.world.workflows[task].state;
            && Progress(after) == upto && after.scenarioId == st.scenarioId && st.scenarioId in fx.scenarios
            && |after.toolHistory| <= |st.toolHistory| + CallsAhead(fx, st, upto)
            && (Progress(st) < upto ==>
                  after.status.Queued? && after.pendingAction.None? && Tries(after) == 0 && NobodyOn(r, task))
            && (Progress(st) == upto ==> r == s)
    decreases 6 - Progress(s.world.workflows[task].state), DueNow(fx, s.world.workflows[task].state),
              Phase(s.world.workflows[task].state)
  {
    hide Onward, Sound, NobodyOn, Workable, FeasibleUpTo, CallsDue, Tries, Unaided, Comes, Ready, CallsFrom;
    ReadyFacts(cfg, fx, calm, s, task, upto);
    var st := s.world.workflows[task].state;
    r, end := s, clock;
    if Progress(st) == upto {
      OnwardSelf(cfg, Some(fx), Pace(clock, clock, calm), s);
    } else {
      var s1, now := RoundComes(cfg, fx, calm, s, task, clock, upto);
      CameNearer(cfg, fx, calm, s, s1, task, clock, now, upto);
      r, end := WorksThrough(cfg, fx, calm, s1, task, now, upto);
      OnwardJoin(cfg, Some(fx), Pace(clock, end, calm), now, s, s1, r);
    }
  }

  /** All six tools are done. */
  lemma DecisionComes(cfg: Config, fx: Fixtures, calm: bool, s: Sys, task: TaskId, clock: real)
    returns (r: Sys, end: real)
    requires cfg.Valid() && Ready(cfg, fx, calm, s, task, 6) && cfg.leaseSeconds >= 0.0
    requires Progress(s.world.workflows[task].state) == 6
    ensures Onward(cfg, Some(fx), Pace(clock, end, calm), s, r) && task in r.world.workflows
    ensures RightlyDecided(fx, r.world.workflows[task].state)
  {
    hide Onward, Sound, NobodyOn, Workable, FeasibleUpTo, CallsDue, Tries, Unaided, CallsAhead, RightlyDecided, Ready,
         OnTrack, HistoryOnTrack, SentArguments, ActionIdOf;
    ReadyFacts(cfg, fx, calm, s, task, 6);
    TracksStored(cfg, fx, s, task);
    var s1 := s;
    OnwardSelf(cfg, Some(fx), At(clock, calm), s);
    if s.world.workflows[task].state.status.DeadLettered? {
      s1 := Revives(cfg, fx, s, task, clock);
      TracksStored(cfg, fx, s1, task);
    }
    var id: nat :| id < |s1.world.queue| && LiveAt(s1.world.queue, id, task);
    r, end := ServesDecision(cfg, fx, calm, s1, task, id, clock);
    OnwardJoin(cfg, Some(fx), Pace(clock, end, calm), clock, s, s1, r);
  }

  /** All six tools, and then the decision. */
  lemma Recovers(cfg: Config, fx: Fixtures, calm: bool, s: Sys, task: TaskId, clock: real) returns (r: Sys, end: real)
    requires cfg.Valid() && Ready(cfg, fx, calm, s, task, 6) && cfg.leaseSeconds >= 0.0
    ensures Onward(cfg, Some(fx), Pace(clock, end, calm), s, r) && task in r.world.workflows
    ensures RightlyDecided(fx, r.world.workflows[task].state)
  {
    hide Onward, Sound, NobodyOn, Workable, FeasibleUpTo, CallsDue, Tries, Unaided, Ready, Unfinished, CallsAhead,
         RightlyDecided;
    var s1, now := WorksThrough(cfg, fx, calm, s, task, clock, 6);
    r, end := DecisionComes(cfg, fx, calm, s1, task, now);
    OnwardJoin(cfg, Some(fx), Pace(clock, end, calm), now, s, s1, r);
  }
}
