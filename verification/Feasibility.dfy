/**
 When the decision of a reference workflow is still possible: the condition on its checkpoint, and why no
 run can do without it.
 */
module Feasibility {
  import opened Models
  import opened Policy
  import opened Checkpoints
  import opened CheckpointFacts
  import opened Reference
  import opened ReferenceChains
  import opened Rounds
  import opened Earnings

  // ----- the condition -----

  /** How often the scenario fails the n-th tool. */
  function Failures(fx: Fixtures, scenarioId: string, n: nat): nat
    requires scenarioId in fx.scenarios && n < 6
  {
    Transient(fx, scenarioId, ToolAt(n))
  }

  /** From so many requests of the n-th tool on, the guard stops the next one. */
  function Limit(cfg: Config, n: nat): int {
    cfg.repeatThreshold - (if n == 0 then 1 else 2)
  }

  /** The n-th tool can be requested once more than the scenario fails it. */
  predicate ToolFits(cfg: Config, fx: Fixtures, scenarioId: string, n: nat)
    requires scenarioId in fx.scenarios && n < 6
  {
    Failures(fx, scenarioId, n) < Limit(cfg, n)
  }

  /** So can the tools from n on, up to the one before `upto`. */
  predicate ToolsFit(cfg: Config, fx: Fixtures, scenarioId: string, n: nat, upto: nat)
    requires scenarioId in fx.scenarios && upto <= 6
  {
    forall m: nat | n <= m < upto :: ToolFits(cfg, fx, scenarioId, m)
  }

  /** Requests that these tools take. */
  function CallsFrom(fx: Fixtures, scenarioId: string, n: nat, upto: nat): nat
    requires scenarioId in fx.scenarios && upto <= 6
    decreases 6 - n
  {
    if n >= upto then 0 else Failures(fx, scenarioId, n) + 1 + CallsFrom(fx, scenarioId, n + 1, upto)
  }

  /** Requests that the tool which is due still takes. */
  function CallsDue(fx: Fixtures, st: WorkflowState): nat
    requires st.scenarioId in fx.scenarios && Progress(st) < 6
  {
    var failures := Failures(fx, st.scenarioId, Progress(st));
    if st.pendingAction.Some? then 0 else if failures >= Tries(st) then failures - Tries(st) + 1 else 1
  }

  /** Guard and budget leave enough to come through the tools before `upto`. */
  predicate FeasibleUpTo(cfg: Config, fx: Fixtures, st: WorkflowState, upto: nat)
    requires st.scenarioId in fx.scenarios && upto <= 6
  {
    var n := Progress(st);
    n < upto ==>
      && ToolsFit(cfg, fx, st.scenarioId, n + 1, upto)
      && (if st.pendingAction.Some? then Failures(fx, st.scenarioId, n) < Tries(st)
          else Tries(st) < Limit(cfg, n) && ToolFits(cfg, fx, st.scenarioId, n))
      && |st.toolHistory| + CallsDue(fx, st) + CallsFrom(fx, st.scenarioId, n + 1, upto) < cfg.maxToolCalls
  }

  /**
   What guard and budget leave is enough for the failures the scenario has: those of the tool that is due,
   and those of the tools after it. An action that is pending adds no request, so it must outnumber them.
   */
  predicate Feasible(cfg: Config, fx: Fixtures, st: WorkflowState)
    requires st.scenarioId in fx.scenarios
  {
    FeasibleUpTo(cfg, fx, st, 6)
  }

  // ----- no run can do without it -----

  /** The request that was accepted last is enough for its tool, and the rest fits. */
  predicate Underway(cfg: Config, fx: Fixtures, st: WorkflowState)
    requires st.scenarioId in fx.scenarios
  {
    var n := Progress(st);
    && n < 6 && Failures(fx, st.scenarioId, n) < Tries(st)
    && (n < 5 ==>
          && ToolsFit(cfg, fx, st.scenarioId, n + 1, 6)
          && |st.toolHistory| + CallsFrom(fx, st.scenarioId, n + 1, 6) < cfg.maxToolCalls)
  }

  predicate Possible(cfg: Config, fx: Fixtures, c: Commit) {
    c.state.scenarioId in fx.scenarios && (Feasible(cfg, fx, c.state) || (c.move.Accept? && Underway(cfg, fx, c.state)))
  }

  /** What the condition looks at. */
  predicate SameFeasibility(st: WorkflowState, r: WorkflowState) {
    && r.scenarioId == st.scenarioId && r.completedSteps == st.completedSteps && r.toolHistory == st.toolHistory
    && r.pendingAction == st.pendingAction
  }

  lemma SameIsFeasible(cfg: Config, fx: Fixtures, st: WorkflowState, r: WorkflowState)
    requires SameFeasibility(st, r) && st.scenarioId in fx.scenarios
    ensures forall upto: nat | upto <= 6 :: FeasibleUpTo(cfg, fx, r, upto) <==> FeasibleUpTo(cfg, fx, st, upto)
  {
    hide Transient;
  }

  /** A request of the tool that is due, accepted or stopped. */
  lemma RequestWasPossible(cfg: Config, fx: Fixtures, c: Commit, m: Move)
    requires cfg.Valid() && ReferenceCommit(cfg, fx, c) && Follows(cfg, c, m) && ByReference(fx, c.state, m)
    requires c.state.scenarioId in fx.scenarios && DistinctFingerprints(cfg, fx, c.state.scenarioId)
    requires c.state.pendingAction.None? && (m.Accept? || m.StopLoop?)
    requires Possible(cfg, fx, Commit(m, Apply(cfg, c.state, m)))
    ensures Possible(cfg, fx, c)
  {
    hide OnTrack, HistoryOnTrack, ReferenceDecision, Healthy, Unhealthy, Expected, ValidatedRequest, RequestReason, Transient,
         DistinctFingerprints, Tries, ToolsFit, CallsFrom, AfterRequest, Evaluate;
    PolicyFollowsOrder(fx, c.state);
    ProgressBounded(fx, c.state);
    GuardIsExact(cfg, fx, c.state, m.decision, m.usage);
    RequestKeepsHistory(cfg, fx, c.state, m.decision, m.usage);
    RequestKeepsTrack(cfg, fx, c.state, m.decision, m.usage);
    var r := AfterRequest(cfg, c.state, m.decision, m.usage);
    RequestedOnceMore(cfg, c.state, m);
    SameTrack(cfg, fx, r, Apply(cfg, c.state, m));
    NothingAfterTheLast(cfg, fx, c.state.scenarioId);
  }

  lemma NothingAfterTheLast(cfg: Config, fx: Fixtures, scenarioId: string)
    requires scenarioId in fx.scenarios
    ensures ToolsFit(cfg, fx, scenarioId, 6, 6) && CallsFrom(fx, scenarioId, 6, 6) == 0
  {
  }

  lemma RequestedOnceMore(cfg: Config, st: WorkflowState, m: Move)
    requires cfg.Valid() && (m.Accept? || m.StopLoop?) && m.decision.action.UseTool?
    ensures var r := Apply(cfg, st, m);
            var q := AfterRequest(cfg, st, m.decision, m.usage);
            && r.evidence == q.evidence && SameFeasibility(q, r) && r.progressHistory == q.progressHistory
            && |r.toolHistory| == |st.toolHistory| + 1 && q.pendingAction == st.pendingAction
            && q.scenarioId == st.scenarioId && q.completedSteps == st.completedSteps
  {
  }

  /** A finished tool. */
  lemma FinishWasPossible(cfg: Config, fx: Fixtures, c: Commit, m: Move)
    requires cfg.Valid() && ReferenceCommit(cfg, fx, c) && m.FinishTool? && Outlasts(fx, c, m.tool)
    requires Rank(m.tool) < 6 && (c.move.Accept? || c.state.pendingAction.Some?)
    requires ByReference(fx, c.state, m) && Possible(cfg, fx, Commit(m, Apply(cfg, c.state, m)))
    ensures Possible(cfg, fx, c)
  {
    hide OnTrack, HistoryOnTrack, ReferenceDecision, Healthy, Unhealthy, Expected, Transient, Tries, Apply;
    RankIsInjective(m.tool, ToolAt(Progress(c.state)));
    FinishedState(cfg, fx, c.state);
  }

  /** One checkpoint back: every move but a rejection leads only from possible states to possible states. */
  lemma MoveWasPossible(cfg: Config, fx: Fixtures, task: TaskId, c: Commit, m: Move)
    requires cfg.Valid() && WellFormed(cfg, task, c) && ReferenceCommit(cfg, fx, c) && Follows(cfg, c, m)
    requires ByReference(fx, c.state, m) && !m.Reject? && c.state.scenarioId in fx.scenarios
    requires DistinctFingerprints(cfg, fx, c.state.scenarioId)
    requires m.FinishTool? ==>
               Outlasts(fx, c, m.tool) && Rank(m.tool) < 6 && (c.move.Accept? || c.state.pendingAction.Some?)
    requires Possible(cfg, fx, Commit(m, Apply(cfg, c.state, m)))
    ensures Possible(cfg, fx, c)
  {
    hide OnTrack, HistoryOnTrack, ReferenceDecision, Healthy, Unhealthy, Expected, ValidatedRequest, RequestReason, Transient,
         DistinctFingerprints, Tries, CallFailed, Denied, Evaluate, GatedAction, AfterRequest;
    if m.Accept? || m.StopLoop? {
      RequestWasPossible(cfg, fx, c, m);
    } else if m.FinishTool? {
      FinishWasPossible(cfg, fx, c, m);
    } else if m.Wait? {
      WaitWasPossible(cfg, fx, c, m);
    } else {
      OtherMovesKeep(cfg, c.state, m);
      SameIsFeasible(cfg, fx, c.state, Apply(cfg, c.state, m));
    }
  }

  lemma OtherMovesKeep(cfg: Config, st: WorkflowState, m: Move)
    requires cfg.Valid() && !m.Accept? && !m.StopLoop? && !m.FinishTool? && !m.Wait? && !m.Reject?
    ensures SameFeasibility(st, Apply(cfg, st, m))
  {
  }

  /** An accepted request that waits for its approval. */
  lemma WaitWasPossible(cfg: Config, fx: Fixtures, c: Commit, m: Move)
    requires cfg.Valid() && ReferenceCommit(cfg, fx, c) && m.Wait? && c.move.Accept?
    requires c.state.scenarioId in fx.scenarios && Possible(cfg, fx, Commit(m, Apply(cfg, c.state, m)))
    ensures Possible(cfg, fx, c)
  {
    hide OnTrack, HistoryOnTrack, ReferenceDecision, Healthy, Unhealthy, Expected, Transient, Tries, Apply;
    WaitingState(cfg, c.state, m.action);
  }

  /** Every checkpoint of a workflow that came through all six tools. */
  lemma {:induction false} DecidedWasPossible(cfg: Config, fx: Fixtures, task: TaskId, log: seq<Commit>, i: nat)
    requires cfg.Valid() && ReferenceLog(cfg, fx, task, log) && LogEarned(fx, log) && i < |log|
    requires DistinctFingerprints(cfg, fx, log[0].state.scenarioId)
    requires Progress(log[|log| - 1].state) == 6 && forall j: nat | j < |log| :: !log[j].move.Reject?
    ensures Possible(cfg, fx, log[i])
    decreases |log| - i
  {
    hide Follows, Apply, ReferenceCommit, ByReference, WellFormed, DistinctFingerprints, LogEarned, Outlasts, Possible;
    ReferenceStaysOnTrack(cfg, fx, task, log, i);
    CommitOnTrack(cfg, fx, log[i]);
    if i == |log| - 1 {
      EndIsPossible(cfg, fx, log[i]);
    } else {
      DecidedWasPossible(cfg, fx, task, log, i + 1);
      LogWellFormed(cfg, task, log, i);
      assert LinkedAt(cfg, log, i + 1) && CausedAt(fx, log, i + 1);
      if log[i + 1].move.FinishTool? {
        FinishedOutlasts(cfg, fx, task, log, i + 1);
        FinishIsDue(cfg, fx, task, log, i + 1);
      }
      assert log[i + 1] == Commit(log[i + 1].move, Apply(cfg, log[i].state, log[i + 1].move));
      MoveWasPossible(cfg, fx, task, log[i], log[i + 1].move);
    }
  }

  lemma CommitOnTrack(cfg: Config, fx: Fixtures, c: Commit)
    requires ReferenceCommit(cfg, fx, c)
    ensures OnTrack(fx, c.state) && c.state.scenarioId in fx.scenarios
  {
    hide HistoryOnTrack;
  }

  lemma EndIsPossible(cfg: Config, fx: Fixtures, c: Commit)
    requires OnTrack(fx, c.state) && Progress(c.state) == 6
    ensures Possible(cfg, fx, c)
  {
  }

  /** A checkpoint whose worker did not go on with its request. */
  lemma DecidedWasFeasible(cfg: Config, fx: Fixtures, task: TaskId, log: seq<Commit>, i: nat)
    requires cfg.Valid() && ReferenceLog(cfg, fx, task, log) && LogEarned(fx, log) && i < |log|
    requires DistinctFingerprints(cfg, fx, log[0].state.scenarioId)
    requires Progress(log[|log| - 1].state) == 6 && forall j: nat | j < |log| :: !log[j].move.Reject?
    requires log[i].move.Accept? && i + 1 < |log| ==> !log[i + 1].move.FinishTool? && !log[i + 1].move.Wait?
    ensures log[i].state.scenarioId in fx.scenarios && Feasible(cfg, fx, log[i].state)
  {
    hide Apply, ReferenceCommit, ByReference, WellFormed, DistinctFingerprints, LogEarned, Outlasts, FeasibleUpTo,
         ValidatedRequest, RequestReason, CallFailed, Denied;
    ReferenceStaysOnTrack(cfg, fx, task, log, i);
    CommitOnTrack(cfg, fx, log[i]);
    DecidedWasPossible(cfg, fx, task, log, i);
    if log[i].move.Accept? {
      if i + 1 < |log| {
        DecidedWasPossible(cfg, fx, task, log, i + 1);
        assert LinkedAt(cfg, log, i + 1);
        OtherMovesKeep(cfg, log[i].state, log[i + 1].move);
        SameIsFeasible(cfg, fx, log[i].state, log[i + 1].state);
      } else {
        EndIsFeasible(cfg, fx, log[i].state);
      }
    }
  }

  lemma EndIsFeasible(cfg: Config, fx: Fixtures, st: WorkflowState)
    requires st.scenarioId in fx.scenarios && Progress(st) == 6
    ensures Feasible(cfg, fx, st)
  {
  }
}
