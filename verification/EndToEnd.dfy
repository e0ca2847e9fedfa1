/** The reference workflow from end to end: exactly how many faults it tolerates, and what it ends in. */
module EndToEnd {
  import opened Prelude
  import opened Models
  import opened Tools
  import opened Tables
  import opened QueueShape
  import opened Checkpoints
  import opened CheckpointFacts
  import opened System
  import opened Refinement
  import opened ApprovalGate
  import opened Discipline
  import opened LiveRows
  import opened LiveRuns
  import opened Reference
  import opened ReferenceChains
  import opened ReferenceRuns
  import opened FaithfulPlay
  import opened Claims
  import opened Rounds
  import opened FailingRestarts
  import opened Feasibility
  import opened Necessity
  import opened Recovery
  import opened Continuing
  import opened Stranded

  lemma ReferenceLogOf(cfg: Config, fx: Fixtures, steps: seq<Step>, s: Sys, task: TaskId)
    requires cfg.Valid() && FaithfullyReached(cfg, fx, steps, s) && task in s.log
    ensures ReferenceLog(cfg, fx, task, s.log[task]) && Inv(cfg, s)
  {
    hide Inv, ReferenceInv, FaithfullyReached, ReferenceLog;
    ReachedKeepsReference(cfg, fx, steps, s);
    ReferenceTaskOf(cfg, fx, s, task);
    ReferenceTables(cfg, fx, s);
  }

  /**
   The exact tolerance, over every faithful run: a request of the policy passes the guard if and only if
   the tool budget lasts and the tool was tried in vain at most k - 2 times, k - 3 times if it is not the
   first; one more try and the next request is stopped.
   */
  lemma ToleranceIsExact(cfg: Config, fx: Fixtures, steps: seq<Step>, s: Sys, task: TaskId, i: nat)
    requires cfg.Valid() && FaithfullyReached(cfg, fx, steps, s) && task in s.log && 0 < i < |s.log[task]|
    requires s.log[task][0].state.scenarioId in fx.scenarios
    requires DistinctFingerprints(cfg, fx, s.log[task][0].state.scenarioId)
    requires s.log[task][i].move.Accept? || s.log[task][i].move.StopLoop?
    ensures var before := s.log[task][i - 1].state;
            && Progress(before) < 6
            && (s.log[task][i].move.Accept? <==>
                  && |before.toolHistory| + 1 < cfg.maxToolCalls
                  && Tries(before) <= cfg.repeatThreshold - (if Progress(before) == 0 then 2 else 3))
  {
    hide Inv, FaithfullyReached, ReferenceLog, Tries, DistinctFingerprints;
    ReferenceLogOf(cfg, fx, steps, s, task);
    EndsAreExplained(cfg, fx, task, s.log[task], i);
  }

  lemma PlayedLogOf(cfg: Config, fx: Fixtures, turns: seq<Turn>, s: Sys, task: TaskId)
    requires cfg.Valid() && FaithfullyPlayed(cfg, fx, turns, s) && task in s.log
    ensures PlayedBy(cfg, turns, s) && ReferenceLog(cfg, fx, task, s.log[task]) && Inv(cfg, s)
  {
    hide Inv, ReferenceInv, HonestlyPlayed, ReferenceLog, LiveInv, LeasesSet, PlayedBy;
    HonestIsPlayed(cfg, Some(fx), turns, s);
    HonestRunsAreSound(cfg, Some(fx), turns, s);
    ReferenceTaskOf(cfg, fx, s, task);
    ReferenceTables(cfg, fx, s);
  }

  /**
   What the end is. A faithful and disciplined run that stays within the tolerance has decided a
   workflow once nothing is queued for it, unless it waits for approval, was rejected or dead-lettered:
   all six tools are done, and it is completed or failed as the verified error rate says.
   */
  lemma TolerableRunsDecide(cfg: Config, fx: Fixtures, turns: seq<Turn>, s: Sys, task: TaskId)
    requires cfg.Valid() && FaithfullyPlayed(cfg, fx, turns, s)
    requires task in s.world.workflows && task in s.log && s.log[task] != []
    requires s.log[task][0].state.scenarioId in fx.scenarios
    requires DistinctFingerprints(cfg, fx, s.log[task][0].state.scenarioId)
    requires WithinTolerance(cfg, s.log[task])
    requires !HasLive(s.world.queue, task) && !HasDead(s.world.queue, task)
    requires var status := s.world.workflows[task].state.status;
             !status.WaitingForApproval? && !status.HumanRejected?
    ensures var state := s.world.workflows[task].state;
            && Progress(state) == 6 && OnTrack(fx, state)
            && (state.status.Completed? || state.status.Failed?)
            && (state.status.Completed? <==> Healthy(fx, state.evidence[VerifyRecovery]))
            && (state.status.Failed? <==> Unhealthy(fx, state.evidence[VerifyRecovery]))
  {
    hide Inv, FaithfullyPlayed, PlayedBy, ReferenceLog, HistoryOnTrack, ReferenceDecision, Healthy, Unhealthy, Expected,
         WithinTolerance, DistinctFingerprints, HasLive, HasDead;
    PlayedLogOf(cfg, fx, turns, s, task);
    RowsAndWorkflowsAgree(cfg, turns, s, task);
    StoredIsLast(cfg, s, task);
    TolerableChainsAreNotStopped(cfg, fx, task, s.log[task], |s.log[task]| - 1);
    ReferenceStaysOnTrack(cfg, fx, task, s.log[task], |s.log[task]| - 1);
    ExpectedVerdict(fx, s.world.workflows[task].state.scenarioId);
    assert Rank(VerifyRecovery) == 5;
  }

  /** The run so far, how it goes on at this pace, and that it ends in the right decision. */
  ghost predicate DecidesAfter(cfg: Config, fx: Fixtures, turns: seq<Turn>, more: seq<Turn>, pace: Pace,
          task: TaskId, r: Sys)
    requires cfg.repeatThreshold > 0
  {
    && FaithfullyPlayed(cfg, fx, turns + more, r) && Paced(more, pace)
    && task in r.world.workflows && RightlyDecided(fx, r.world.workflows[task].state)
  }

  /** From `clock` on, some faithful turns lead to the right decision; none of them crashes or replays, if `calm`. */
  ghost predicate Decidable(cfg: Config, fx: Fixtures, turns: seq<Turn>, task: TaskId, clock: real, calm: bool)
    requires cfg.repeatThreshold > 0
  {
    exists more, r, end :: DecidesAfter(cfg, fx, turns, more, Pace(clock, end, calm), task, r)
  }

  /**
   The end is reached. Whatever crashed, failed or was redelivered in a faithful disciplined run, and whatever the
   clock shows by now: as long as a workflow is queued, running, dead-lettered or can still be approved, and guard
   and budget leave enough for the failures its scenario still has, more faithful turns, at times that never go
   back, complete it, or fail it, as the verified error rate says. If nobody works on it and the attempts of its
   row suffice as well, these turns need no crash and no replay.
   */
  lemma DecisionIsReachable(cfg: Config, fx: Fixtures, turns: seq<Turn>, s: Sys, task: TaskId, clock: real, calm: bool)
    requires cfg.Valid() && cfg.leaseSeconds >= 0.0 && FaithfullyPlayed(cfg, fx, turns, s) && Unfinished(s.world, task)
    requires var st := s.world.workflows[task].state;
             Workable(cfg, fx, st.scenarioId) && Feasible(cfg, fx, st)
    requires calm ==> Unaided(cfg, fx, s, task, 6)
    ensures Decidable(cfg, fx, turns, task, clock, calm)
  {
    hide HonestlyPlayed, Sound, Onward, Workable, FeasibleUpTo, Unaided, RightlyDecided, MayResolve, OnTrack,
         HistoryOnTrack, SentArguments, ActionIdOf, Paced;
    HonestRunsAreSound(cfg, Some(fx), turns, s);
    TracksStored(cfg, fx, s, task);
    ProgressBounded(fx, s.world.workflows[task].state);
    var r, end := Recovers(cfg, fx, calm, s, task, clock);
    var more := OnwardIsPlayed(cfg, Some(fx), Pace(clock, end, calm), turns, s, r);
    assert DecidesAfter(cfg, fx, turns, more, Pace(clock, end, calm), task, r);
  }

  lemma SameRunSoFar(cfg: Config, fx: Fixtures, turns: seq<Turn>, s: Sys, more: seq<Turn>, trace: seq<Sys>)
    requires cfg.Valid() && FaithfullyPlayed(cfg, fx, turns, s) && HonestPlay(cfg, Some(fx), turns + more, trace)
    ensures trace[|turns|] == s
  {
    hide Take, HonestAt, HonestlyPlayed, Play;
    HonestIsPlayed(cfg, Some(fx), turns, s);
    PlayedIsPlay(cfg, turns, s);
    var shorter := trace[..|turns| + 1];
    forall i: nat | i < |turns| ensures TurnAt(cfg, turns, shorter, i) {
      assert TurnAt(cfg, turns + more, trace, i);
    }
    TraceIsPlay(cfg, turns, shorter);
  }

  /** The right decision is made, or can still be made. */
  ghost predicate InReach(cfg: Config, fx: Fixtures, s: Sys, task: TaskId)
    requires task in s.world.workflows && s.world.workflows[task].state.scenarioId in fx.scenarios
  {
    var st := s.world.workflows[task].state;
    || RightlyDecided(fx, st)
    || (Unfinished(s.world, task) && Feasible(cfg, fx, st))
    || CarriedOn(cfg, fx, s, task)
  }

  /** Nothing else leads to a decision. */
  lemma OnlyThenDecided(cfg: Config, fx: Fixtures, turns: seq<Turn>, s: Sys, task: TaskId, more: seq<Turn>,
          pace: Pace, r: Sys)
    requires cfg.Valid() && FaithfullyPlayed(cfg, fx, turns, s) && task in s.world.workflows
    requires Workable(cfg, fx, s.world.workflows[task].state.scenarioId)
    requires DecidesAfter(cfg, fx, turns, more, pace, task, r)
    ensures InReach(cfg, fx, s, task)
  {
    hide TurnAt, HonestAt, OnTrack, Healthy, Unhealthy, Expected, FeasibleUpTo, DistinctFingerprints, StructuredResult, Paced,
         MayResolve, Underway, AtIt, AboutToAsk;
    var trace :| HonestPlay(cfg, Some(fx), turns + more, trace) && trace[|turns + more|] == r;
    SameRunSoFar(cfg, fx, turns, s, more, trace);
    DecidedNeedsFeasible(cfg, fx, turns + more, trace, |turns|, task);
    var st := s.world.workflows[task].state;
    if !Unfinished(s.world, task) {
      if st.Terminal() {
        EndsAreFinal(cfg, fx, turns + more, trace, |turns|, task);
      } else if !AboutToAsk(s, task) {
        WaitsForNobody(cfg, fx, turns, s, more, r, task);
      }
    }
  }

  lemma WaitsForNobody(cfg: Config, fx: Fixtures, turns: seq<Turn>, s: Sys, more: seq<Turn>, r: Sys, task: TaskId)
    requires cfg.Valid() && FaithfullyPlayed(cfg, fx, turns, s) && FaithfullyPlayed(cfg, fx, turns + more, r)
    requires task in s.world.workflows && s.world.workflows[task].state.status.WaitingForApproval?
    requires !MayResolve(s.world, task) && !AboutToAsk(s, task)
    ensures task in r.world.workflows ==> !RightlyDecided(fx, r.world.workflows[task].state)
  {
    hide HonestlyPlayed, PlayedBy, LiveInv, ReferenceInv, LeasesSet, ApprovalsWereAskedFor, Inv, WellFormed,
         OnTrack, Healthy, Unhealthy, Writing;
    HonestIsPlayed(cfg, Some(fx), turns, s);
    HonestIsPlayed(cfg, Some(fx), turns + more, r);
    HonestRunsAreSound(cfg, Some(fx), turns, s);
    HonestRunsAreSound(cfg, Some(fx), turns + more, r);
    LiveInvHasInv(cfg, s);
    LiveInvHasInv(cfg, r);
    StoredIsLast(cfg, s, task);
    LogShape(cfg, s, task);
    WaitingHasAction(cfg, task, Last(s, task));
    LostForever(cfg, turns, s, more, r, task);
    if task in r.world.workflows {
      StoredIsLast(cfg, r, task);
    }
  }

  lemma WaitingHasAction(cfg: Config, task: TaskId, c: Commit)
    requires WellFormed(cfg, task, c)
    ensures c.state.status.WaitingForApproval? ==> c.state.pendingAction.Some?
  {
    hide GatedAction;
  }

  /** A worker that must not stop does not. */
  lemma CarriedOnIsDecided(cfg: Config, fx: Fixtures, turns: seq<Turn>, s: Sys, task: TaskId, clock: real)
    requires cfg.Valid() && cfg.leaseSeconds >= 0.0 && FaithfullyPlayed(cfg, fx, turns, s)
    requires CarriedOn(cfg, fx, s, task)
    requires Workable(cfg, fx, s.world.workflows[task].state.scenarioId)
    ensures Decidable(cfg, fx, turns, task, clock, false)
  {
    hide HonestlyPlayed, Sound, Onward, Workable, Ready, RightlyDecided, AtIt, AboutToAsk, Underway,
         FeasibleUpTo, Paced;
    HonestRunsAreSound(cfg, Some(fx), turns, s);
    var s1 := BringsOn(cfg, fx, s, task, clock);
    var r, end := Recovers(cfg, fx, false, s1, task, clock);
    var pace := Pace(clock, end, false);
    OnwardJoin(cfg, Some(fx), pace, clock, s, s1, r);
    var more := OnwardIsPlayed(cfg, Some(fx), pace, turns, s, r);
    assert DecidesAfter(cfg, fx, turns, more, pace, task, r);
  }

  /**
   Exactly when the decision can be reached: in every faithful disciplined run, for every workflow and from every time
   on. It is right already; or the workflow is unfinished, and what guard and budget leave is enough for the failures
   its scenario still has; or a worker is just carrying out a request after which it is enough, or is about to write
   the approval row of such an action.
   */
  lemma DecidableIff(cfg: Config, fx: Fixtures, turns: seq<Turn>, s: Sys, task: TaskId, clock: real)
    requires cfg.Valid() && cfg.leaseSeconds >= 0.0 && FaithfullyPlayed(cfg, fx, turns, s) && task in s.world.workflows
    requires Workable(cfg, fx, s.world.workflows[task].state.scenarioId)
    ensures Decidable(cfg, fx, turns, task, clock, false) <==> InReach(cfg, fx, s, task)
  {
    hide HonestlyPlayed, FeasibleUpTo, RightlyDecided, Unfinished, DecidesAfter, CarriedOn, DistinctFingerprints,
         StructuredResult, Healthy, Unhealthy, Expected;
    if Decidable(cfg, fx, turns, task, clock, false) {
      var more, r, end :| DecidesAfter(cfg, fx, turns, more, Pace(clock, end, false), task, r);
      OnlyThenDecided(cfg, fx, turns, s, task, more, Pace(clock, end, false), r);
    }
    if RightlyDecided(fx, s.world.workflows[task].state) {
      AlreadyDecided(cfg, fx, turns, s, task, clock);
    } else if CarriedOn(cfg, fx, s, task) {
      CarriedOnIsDecided(cfg, fx, turns, s, task, clock);
    } else if Unfinished(s.world, task) && Feasible(cfg, fx, s.world.workflows[task].state) {
      DecisionIsReachable(cfg, fx, turns, s, task, clock, false);
    }
  }

  /** With nobody at work on it, the checkpoint alone decides. */
  lemma DecidableIffFeasible(cfg: Config, fx: Fixtures, turns: seq<Turn>, s: Sys, task: TaskId, clock: real)
    requires cfg.Valid() && cfg.leaseSeconds >= 0.0 && FaithfullyPlayed(cfg, fx, turns, s) && Unfinished(s.world, task)
    requires var st := s.world.workflows[task].state;
             Workable(cfg, fx, st.scenarioId) && (st.status.Running? ==> NobodyOn(s, task))
    ensures Decidable(cfg, fx, turns, task, clock, false) <==> Feasible(cfg, fx, s.world.workflows[task].state)
  {
    hide HonestlyPlayed, FeasibleUpTo, Decidable, DistinctFingerprints, StructuredResult, Healthy, Unhealthy, Expected, OnTrack,
         Underway, Carrying;
    DecidableIff(cfg, fx, turns, s, task, clock);
  }

  lemma AlreadyDecided(cfg: Config, fx: Fixtures, turns: seq<Turn>, s: Sys, task: TaskId, clock: real)
    requires cfg.Valid() && FaithfullyPlayed(cfg, fx, turns, s) && task in s.world.workflows
    requires RightlyDecided(fx, s.world.workflows[task].state)
    ensures Decidable(cfg, fx, turns, task, clock, false)
  {
    hide HonestlyPlayed, RightlyDecided;
    assert turns + [] == turns;
    assert DecidesAfter(cfg, fx, turns, [], Pace(clock, clock, false), task, s);
  }

  // ----- from the beginning -----

  /** Guard and budget have room for every transient failure of the scenario. */
  predicate Tolerable(cfg: Config, fx: Fixtures, scenarioId: string)
    requires scenarioId in fx.scenarios
  {
    ToolsFit(cfg, fx, scenarioId, 0, 6) && CallsFrom(fx, scenarioId, 0, 6) < cfg.maxToolCalls
  }

  /** A new incident. */
  function Opened(task: TaskId, goal: string, scenario: string, now: real): Turn {
    Turn(CreateIncident(task, goal, scenario, now), Idle(now))
  }

  lemma OpenedState(cfg: Config, fx: Fixtures, task: TaskId, goal: string, scenario: string, now: real) returns (s: Sys)
    requires cfg.Valid() && scenario in fx.scenarios
    ensures FaithfullyPlayed(cfg, fx, [Opened(task, goal, scenario, now)], s) && Sound(cfg, Some(fx), s)
    ensures task in s.world.workflows && s.world.workflows[task].state == FreshWorkflow(task, goal, scenario)
    ensures s.world.queue == [NewRow(task, cfg.maxQueueAttempts, now)] && s.procs == map[]
  {
    hide HonestlyPlayed, Sound;
    var turn := Opened(task, goal, scenario, now);
    NothingPlayed(cfg, Some(fx));
    HonestExtends(cfg, Some(fx), [], INITIAL, turn);
    assert [] + [turn] == [turn];
    s := Take(cfg, INITIAL, turn);
    HonestRunsAreSound(cfg, Some(fx), [turn], s);
  }

  lemma FreshIsFeasible(cfg: Config, fx: Fixtures, task: TaskId, goal: string, scenario: string, upto: nat)
    requires scenario in fx.scenarios && 0 < upto <= 6
    ensures FeasibleUpTo(cfg, fx, FreshWorkflow(task, goal, scenario), upto)
            <==> ToolsFit(cfg, fx, scenario, 0, upto) && CallsFrom(fx, scenario, 0, upto) < cfg.maxToolCalls
    ensures CallsAhead(fx, FreshWorkflow(task, goal, scenario), upto) == CallsFrom(fx, scenario, 0, upto)
  {
    hide Transient;
    var st := FreshWorkflow(task, goal, scenario);
    assert Tries(st) == 0;
    if ToolsFit(cfg, fx, scenario, 0, upto) {
      assert ToolFits(cfg, fx, scenario, 0);
    }
  }

  lemma FreshIsUnaided(cfg: Config, fx: Fixtures, s: Sys, task: TaskId, goal: string, scenario: string,
          now: real, upto: nat)
    requires scenario in fx.scenarios && 0 < upto <= 6 && ToolsAreCalm(cfg, fx, scenario, 0, upto)
    requires task in s.world.workflows && s.world.workflows[task].state == FreshWorkflow(task, goal, scenario)
    requires s.world.queue == [NewRow(task, cfg.maxQueueAttempts, now)] && s.procs == map[]
    ensures Unaided(cfg, fx, s, task, upto)
  {
    hide Transient;
    assert ToolIsCalm(cfg, fx, scenario, 0, 0, 0);
  }

  /**
   From empty tables: an incident can be decided if and only if its scenario is tolerable. If the restart does not
   fail, and no tool fails as often as a row may be delivered, then without any crash and any replay.
   */
  lemma NewIncidentsAreDecided(cfg: Config, fx: Fixtures, task: TaskId, goal: string, scenario: string,
          now: real, clock: real)
    requires cfg.Valid() && cfg.leaseSeconds >= 0.0 && Workable(cfg, fx, scenario)
    ensures Decidable(cfg, fx, [Opened(task, goal, scenario, now)], task, clock, false)
            <==> Tolerable(cfg, fx, scenario)
    ensures Tolerable(cfg, fx, scenario) && ToolsAreCalm(cfg, fx, scenario, 0, 6) ==>
              Decidable(cfg, fx, [Opened(task, goal, scenario, now)], task, clock, true)
  {
    hide FaithfullyPlayed, DistinctFingerprints, StructuredResult, Healthy, Unhealthy, Expected, FeasibleUpTo, Sound,
         Decidable, OnTrack, ToolsFit, CallsFrom, CallsAhead, ToolsAreCalm, Unaided, NobodyOn;
    var s := OpenedState(cfg, fx, task, goal, scenario, now);
    FreshIsFeasible(cfg, fx, task, goal, scenario, 6);
    DecidableIffFeasible(cfg, fx, [Opened(task, goal, scenario, now)], s, task, clock);
    if Tolerable(cfg, fx, scenario) && ToolsAreCalm(cfg, fx, scenario, 0, 6) {
      FreshIsUnaided(cfg, fx, s, task, goal, scenario, now, 6);
      DecisionIsReachable(cfg, fx, [Opened(task, goal, scenario, now)], s, task, clock, true);
    }
  }

  /** For the guard's default threshold of four: the transient failures of each tool that can be worked off. */
  lemma DefaultTolerance(cfg: Config, fx: Fixtures, scenario: string)
    requires cfg.repeatThreshold == 4 && scenario in fx.scenarios
    ensures var failures := (tool: Tool) => Transient(fx, scenario, tool);
            Tolerable(cfg, fx, scenario) <==>
              && failures(ReadAlert) <= 2 && failures(InspectMetrics) <= 1 && failures(QueryLogs) <= 1
              && failures(DependencyHealth) <= 1 && failures(RestartService) <= 1 && failures(VerifyRecovery) <= 1
              && 6 + failures(ReadAlert) + failures(InspectMetrics) + failures(QueryLogs) + failures(DependencyHealth)
                 + failures(RestartService) + failures(VerifyRecovery) < cfg.maxToolCalls
    ensures cfg.maxQueueAttempts >= 3 && Tolerable(cfg, fx, scenario) ==>
              (ToolsAreCalm(cfg, fx, scenario, 0, 6) <==> Transient(fx, scenario, RestartService) == 0)
  {
    hide Transient;
    if ToolsFit(cfg, fx, scenario, 0, 6) {
      assert ToolFits(cfg, fx, scenario, 0) && ToolFits(cfg, fx, scenario, 1) && ToolFits(cfg, fx, scenario, 2);
      assert ToolFits(cfg, fx, scenario, 3) && ToolFits(cfg, fx, scenario, 4) && ToolFits(cfg, fx, scenario, 5);
    }
    if ToolsAreCalm(cfg, fx, scenario, 0, 6) {
      assert ToolIsCalm(cfg, fx, scenario, 4, 0, 0);
    }
    SixCalls(fx, scenario);
  }

  lemma SixCalls(fx: Fixtures, scenario: string)
    requires scenario in fx.scenarios
    ensures CallsFrom(fx, scenario, 0, 6)
            == 6 + Failures(fx, scenario, 0) + Failures(fx, scenario, 1) + Failures(fx, scenario, 2)
               + Failures(fx, scenario, 3) + Failures(fx, scenario, 4) + Failures(fx, scenario, 5)
  {
    hide Failures;
    assert CallsFrom(fx, scenario, 4, 6) == Failures(fx, scenario, 4) + 1 + Failures(fx, scenario, 5) + 1;
    assert CallsFrom(fx, scenario, 2, 6)
        == Failures(fx, scenario, 2) + 1 + Failures(fx, scenario, 3) + 1 + CallsFrom(fx, scenario, 4, 6);
  }

  // ----- the restart -----

  /**
   A restart that waits for its approval, or to be resumed: the workflow can be decided if and only if the scenario
   fails the restart less often than it has been requested, whatever the ledger and the workers have by now.
   */
  lemma RestartDecidesIff(cfg: Config, fx: Fixtures, turns: seq<Turn>, s: Sys, task: TaskId, clock: real)
    requires cfg.Valid() && cfg.leaseSeconds >= 0.0 && FaithfullyPlayed(cfg, fx, turns, s) && Unfinished(s.world, task)
    requires var st := s.world.workflows[task].state;
             && Workable(cfg, fx, st.scenarioId) && st.pendingAction.Some?
             && ToolFits(cfg, fx, st.scenarioId, 5)
             && |st.toolHistory| + Failures(fx, st.scenarioId, 5) + 1 < cfg.maxToolCalls
    ensures Decidable(cfg, fx, turns, task, clock, false)
            <==> var st := s.world.workflows[task].state; Transient(fx, st.scenarioId, RestartService) < Tries(st)
  {
    hide HonestlyPlayed, OnTrack, HistoryOnTrack, Healthy, Unhealthy, Expected, SentArguments, ActionIdOf, Decidable, Sound,
         Transient, Tries, DistinctFingerprints, StructuredResult, NobodyOn;
    HonestRunsAreSound(cfg, Some(fx), turns, s);
    TracksStored(cfg, fx, s, task);
    DecidableIffFeasible(cfg, fx, turns, s, task, clock);
    assert CallsFrom(fx, s.world.workflows[task].state.scenarioId, 5, 6)
        == Failures(fx, s.world.workflows[task].state.scenarioId, 5) + 1;
  }

  /**
   It does happen: every scenario that fails the restart, and lets its workflow come as far as that, has runs that
   get stuck in it; without any crash and replay, if the attempts suffice up to there.
   */
  lemma FailingRestartsAreReached(cfg: Config, fx: Fixtures, task: TaskId, goal: string, scenario: string, now: real,
          clock: real, calm: bool)
    requires cfg.Valid() && cfg.leaseSeconds >= 0.0 && Workable(cfg, fx, scenario) && cfg.repeatThreshold >= 3
    requires ToolsFit(cfg, fx, scenario, 0, 4) && CallsFrom(fx, scenario, 0, 4) + 1 < cfg.maxToolCalls
    requires Transient(fx, scenario, RestartService) >= 1 && (calm ==> ToolsAreCalm(cfg, fx, scenario, 0, 4))
    ensures exists more, r, end :: FaithfullyPlayed(cfg, fx, [Opened(task, goal, scenario, now)] + more, r)
                                   && Paced(more, Pace(clock, end, calm)) && Doomed(fx, r, task)
  {
    hide HonestlyPlayed, DistinctFingerprints, StructuredResult, Healthy, Unhealthy, Expected, Transient, Sound, Onward, Doomed,
         FeasibleUpTo, ToolsFit, CallsFrom, CallsAhead, ToolsAreCalm, Unaided, NobodyOn, Tries, Paced, OnTrack;
    var s := OpenedState(cfg, fx, task, goal, scenario, now);
    FreshIsFeasible(cfg, fx, task, goal, scenario, 4);
    if calm {
      FreshIsUnaided(cfg, fx, s, task, goal, scenario, now, 4);
    }
    var s1, stop := WorksThrough(cfg, fx, calm, s, task, clock, 4);
    var r, end := GetsStuck(cfg, fx, calm, s1, task, stop);
    OnwardJoin(cfg, Some(fx), Pace(clock, end, calm), stop, s, s1, r);
    var more := OnwardIsPlayed(cfg, Some(fx), Pace(clock, end, calm), [Opened(task, goal, scenario, now)], s, r);
  }

  /** The first request of a restart that the scenario fails. */
  lemma GetsStuck(cfg: Config, fx: Fixtures, calm: bool, s: Sys, task: TaskId, clock: real) returns (r: Sys, end: real)
    requires cfg.Valid() && cfg.leaseSeconds >= 0.0 && Sound(cfg, Some(fx), s) && Unfinished(s.world, task)
    requires cfg.repeatThreshold >= 3 && NobodyOn(s, task)
    requires var st := s.world.workflows[task].state;
             && Workable(cfg, fx, st.scenarioId) && st.status.Queued? && st.pendingAction.None?
             && Progress(st) == 4 && Tries(st) == 0 && |st.toolHistory| + 1 < cfg.maxToolCalls
             && Transient(fx, st.scenarioId, RestartService) >= 1
    ensures Onward(cfg, Some(fx), Pace(clock, end, calm), s, r) && Doomed(fx, r, task)
  {
    hide LiveInv, LeasesSet, ReferenceInv, ApprovalsWereAskedFor, Inv, Onward, OnTrack, HistoryOnTrack, Tries,
         Transient, SentArguments, ActionIdOf, DistinctFingerprints, StructuredResult, Healthy, Unhealthy, Expected,
         NobodyOn;
    TracksStored(cfg, fx, s, task);
    var id: nat :| id < |s.world.queue| && LiveAt(s.world.queue, id, task);
    r, end := ServesRequest(cfg, fx, calm, s, task, id, clock);
    LiveInvHasInv(cfg, r);
    StoredIsLast(cfg, r, task);
  }
}
