/** Checkpoint chains of workflows driven by the reference policy: always on track, and stopped exactly when due. */
module ReferenceChains {
  import opened Prelude
  import opened Models
  import opened Policy
  import opened Tools
  import opened LoopDetector
  import opened Checkpoints
  import opened CheckpointFacts
  import opened Histories
  import opened Reference

  // ----- sequences ordered by rank -----

  ghost predicate Ordered(tools: seq<Tool>) {
    forall i, j | 0 <= i < j < |tools| :: Rank(tools[i]) <= Rank(tools[j])
  }

  ghost predicate UpTo(tools: seq<Tool>, tool: Tool) {
    forall i | 0 <= i < |tools| :: Rank(tools[i]) <= Rank(tool)
  }

  lemma {:induction false} NoPrior(tools: seq<Tool>, tool: Tool)
    requires forall i | 0 <= i < |tools| :: tools[i] != tool
    ensures Prior(tool, tools) == 0
  {
    if tools != [] {
      NoPrior(tools[..|tools| - 1], tool);
    }
  }

  /** The occurrences of the highest tool are the end of the sequence. */
  lemma {:induction false} HighestIsLast(tools: seq<Tool>, tool: Tool)
    requires Ordered(tools) && UpTo(tools, tool)
    ensures Prior(tool, tools) <= |tools|
    ensures forall i | 0 <= i < |tools| :: tools[i] == tool <==> i >= |tools| - Prior(tool, tools)
  {
    if tools != [] {
      var shorter := tools[..|tools| - 1];
      HighestIsLast(shorter, tool);
      if tools[|tools| - 1] != tool {
        forall i | 0 <= i < |tools| ensures tools[i] != tool {
          if tools[i] == tool {
            RankIsInjective(tools[|tools| - 1], tool);
          }
        }
        NoPrior(tools, tool);
      }
    }
  }

  lemma {:induction false} OrderedPeriodIsConstant(tail: seq<Tool>, n: nat, i: nat)
    requires Ordered(tail) && 1 <= n < |tail| && HasPeriod(tail, n) && i < |tail|
    ensures tail[i] == tail[0]
    decreases i
  {
    if i >= n {
      OrderedPeriodIsConstant(tail, n, i - n);
      assert tail[i - n] == tail[i - n + n];
    } else if i > 0 {
      assert tail[0] == tail[0 + n];
      RankIsInjective(tail[i], tail[0]);
    }
  }

  /** In an ordered history only a single tool can repeat. */
  lemma OrderedRepeats(tools: seq<Tool>, k: nat)
    requires Ordered(tools) && k >= 2
    ensures RepeatedSuffix(tools, k) <==> LastAllEqual(tools, k)
  {
    RepeatedSuffixIsPeriod(tools, k);
    if RepeatedSuffix(tools, k) {
      var n: nat :| 1 <= n && n * k <= |tools| && HasPeriod(tools[|tools| - n * k..], n);
      SmallBlock(n, k);
      var tail := tools[|tools| - n * k..];
      forall i | 0 <= i < |tail| ensures tail[i] == tail[0] {
        OrderedPeriodIsConstant(tail, n, i);
      }
    }
    if LastAllEqual(tools, k) {
      var tail := tools[|tools| - 1 * k..];
      assert HasPeriod(tail, 1);
    }
  }

  lemma SmallBlock(n: nat, k: nat)
    requires n >= 1 && k >= 2
    ensures n < n * k && k <= n * k
  {
  }

  /** An ordered history that ends in its highest tool repeats it k times exactly when it occurs k times. */
  lemma RepeatsAreOccurrences(tools: seq<Tool>, tool: Tool, k: nat)
    requires k >= 2 && Ordered(tools + [tool]) && UpTo(tools, tool)
    ensures RepeatedSuffix(tools + [tool], k) <==> Prior(tool, tools) + 1 >= k
  {
    hide RepeatedSuffix, Ordered, UpTo;
    var longer := tools + [tool];
    OrderedRepeats(longer, k);
    HighestExtends(tools, tool);
    HighestIsLast(longer, tool);
    LastRun(longer, tool, Prior(tool, longer), k);
  }

  lemma HighestExtends(tools: seq<Tool>, tool: Tool)
    requires UpTo(tools, tool)
    ensures UpTo(tools + [tool], tool) && Prior(tool, tools + [tool]) == Prior(tool, tools) + 1
  {
    assert (tools + [tool])[..|tools + [tool]| - 1] == tools;
  }

  lemma LastRun(tools: seq<Tool>, tool: Tool, n: nat, k: nat)
    requires k >= 2 && 1 <= n <= |tools|
    requires forall i | 0 <= i < |tools| :: tools[i] == tool <==> i >= |tools| - n
    ensures LastAllEqual(tools, k) <==> n >= k
  {
    if k <= |tools| {
      assert tools[|tools| - k] == tool <==> k <= n;
    }
  }

  // ----- the state of a reference workflow -----

  const ALL_TOOLS: set<Tool> := {ReadAlert, InspectMetrics, QueryLogs, DependencyHealth, RestartService, DeleteDatabase, VerifyRecovery}

  lemma EveryTool(tool: Tool)
    ensures tool in ALL_TOOLS
  {
  }

  /** The evidence of the first n tools of the order. */
  function EvidenceUpTo(fx: Fixtures, scenarioId: string, n: nat): map<Tool, Json>
    requires scenarioId in fx.scenarios
  {
    map tool | tool in ALL_TOOLS && Rank(tool) < n :: Expected(fx, scenarioId, tool)
  }

  function FingerprintAt(cfg: Config, fx: Fixtures, scenarioId: string, n: nat): string
    requires scenarioId in fx.scenarios
  {
    cfg.fingerprint(EvidenceUpTo(fx, scenarioId, n))
  }

  lemma EvidenceIsPrefix(fx: Fixtures, s: WorkflowState)
    requires OnTrack(fx, s)
    ensures s.evidence == EvidenceUpTo(fx, s.scenarioId, Progress(s))
  {
    hide Expected;
    forall tool: Tool ensures tool in ALL_TOOLS {
      EveryTool(tool);
    }
  }

  /** Accepted requests of the tool that is due. */
  function Tries(s: WorkflowState): nat {
    if Progress(s) < 6 then Prior(ToolAt(Progress(s)), s.toolHistory) else 0
  }

  /** Fingerprints of the present evidence at the end of the history. */
  function Streak(s: WorkflowState): nat {
    Tries(s) + (if Progress(s) > 0 then 1 else 0)
  }

  /** Requests follow the order, and the last fingerprints are those of the present evidence. */
  ghost predicate HistoryOnTrack(cfg: Config, fx: Fixtures, s: WorkflowState)
    requires OnTrack(fx, s)
  {
    && Ordered(s.toolHistory)
    && (forall i | 0 <= i < |s.toolHistory| :: Rank(s.toolHistory[i]) <= Progress(s))
    && (Progress(s) < 6 ==>
          && EndsWith(s.progressHistory, FingerprintAt(cfg, fx, s.scenarioId, Progress(s)), Streak(s))
          && (Progress(s) == 0 ==> |s.progressHistory| == Streak(s))
          && (Progress(s) > 0 ==>
                && |s.progressHistory| > Streak(s)
                && s.progressHistory[|s.progressHistory| - Streak(s) - 1] == FingerprintAt(cfg, fx, s.scenarioId, Progress(s) - 1)))
  }

  /** Evidence sets that follow each other have different fingerprints. */
  ghost predicate DistinctFingerprints(cfg: Config, fx: Fixtures, scenarioId: string)
    requires scenarioId in fx.scenarios
  {
    forall n: nat | n < 6 :: FingerprintAt(cfg, fx, scenarioId, n) != FingerprintAt(cfg, fx, scenarioId, n + 1)
  }

  lemma FingerprintStreak(cfg: Config, fx: Fixtures, s: WorkflowState, k: nat)
    requires OnTrack(fx, s) && HistoryOnTrack(cfg, fx, s) && Progress(s) < 6 && k >= 2
    requires DistinctFingerprints(cfg, fx, s.scenarioId)
    ensures LastAllEqual(s.progressHistory + [FingerprintAt(cfg, fx, s.scenarioId, Progress(s))], k) <==> Streak(s) + 1 >= k
  {
    hide EvidenceUpTo, Expected;
    var progress, m, n := s.progressHistory, Streak(s), Progress(s);
    var f := FingerprintAt(cfg, fx, s.scenarioId, n);
    var longer := progress + [f];
    assert forall i | |longer| - m - 1 <= i < |longer| :: longer[i] == f;
    if n > 0 {
      assert FingerprintAt(cfg, fx, s.scenarioId, n - 1) != FingerprintAt(cfg, fx, s.scenarioId, n - 1 + 1);
      assert longer[|longer| - m - 2] == progress[|progress| - m - 1] != f;
    }
  }

  /**
   The guard is exact: the next request of the policy is stopped if and only if the tool budget is used
   up or the tool has already been tried k - 1 times in vain, k - 2 times if it is not the first tool.
   */
  lemma GuardIsExact(cfg: Config, fx: Fixtures, s: WorkflowState, d: Decision, u: Usage)
    requires cfg.Valid() && OnTrack(fx, s) && HistoryOnTrack(cfg, fx, s) && Progress(s) < 6
    requires DistinctFingerprints(cfg, fx, s.scenarioId)
    requires d.action.UseTool? && ReferenceDecision(fx, s) == Some(d)
    ensures RequestReason(cfg, s, d, u).Some? <==>
              |s.toolHistory| + 1 >= cfg.maxToolCalls
              || Tries(s) >= cfg.repeatThreshold - (if Progress(s) == 0 then 1 else 2)
  {
    hide OnTrack, ReferenceDecision, Expected, RepeatedSuffix, LastAllEqual, EvidenceUpTo, EndsWith,
         DistinctFingerprints, ValidatedRequest;
    PolicyFollowsOrder(fx, s);
    EvidenceIsPrefix(fx, s);
    var tool := ToolAt(Progress(s));
    RepeatsAreOccurrences(s.toolHistory, tool, cfg.repeatThreshold);
    FingerprintStreak(cfg, fx, s, cfg.repeatThreshold);
  }

  // ----- chains -----

  /** A move as the reference policy and the scenario backend cause it. */
  predicate ByReference(fx: Fixtures, s: WorkflowState, m: Move) {
    match m
    case CompleteRun(d, _) => ReferenceDecision(fx, s) == Some(d)
    case DecisionFail(d, _) => ReferenceDecision(fx, s) == Some(d)
    case StopLoop(d, _) => ReferenceDecision(fx, s) == Some(d)
    case Accept(d, _) => ReferenceDecision(fx, s) == Some(d)
    case FinishTool(tool, result) => s.scenarioId in fx.scenarios && result == Expected(fx, s.scenarioId, tool)
    case FailRun(_) => false
    case FailDelivery(_) => false
    case _ => true
  }

  /** A checkpoint of a reference workflow. */
  ghost predicate ReferenceCommit(cfg: Config, fx: Fixtures, c: Commit) {
    && OnTrack(fx, c.state) && HistoryOnTrack(cfg, fx, c.state)
    && (c.move.Accept? ==>
          Progress(c.state) < 6 && Tries(c.state) >= 1 && ReferenceDecision(fx, c.state) == Some(c.move.decision))
    && (c.state.pendingAction.Some? ==>
          && Progress(c.state) == 4 && Tries(c.state) >= 1
          && c.state.pendingAction.value.tool == RestartService
          && c.state.pendingAction.value.arguments == SentArguments(RestartService))
    && (c.state.status.Completed? ==>
          Progress(c.state) == 6 && Healthy(fx, Expected(fx, c.state.scenarioId, VerifyRecovery)))
    && (c.state.status.Failed? ==>
          Progress(c.state) == 6 && Unhealthy(fx, Expected(fx, c.state.scenarioId, VerifyRecovery)))
  }

  /** A request leaves evidence and steps alone. */
  lemma RequestKeepsTrack(cfg: Config, fx: Fixtures, s: WorkflowState, d: Decision, u: Usage)
    requires OnTrack(fx, s) && d.action.UseTool?
    ensures var r := AfterRequest(cfg, s, d, u);
            && r.evidence == s.evidence && r.completedSteps == s.completedSteps && r.scenarioId == s.scenarioId
            && OnTrack(fx, r) && r.status == s.status && r.pendingAction == s.pendingAction
            && ReferenceDecision(fx, r) == ReferenceDecision(fx, s)
  {
    hide Expected;
  }

  lemma RequestKeepsHistory(cfg: Config, fx: Fixtures, s: WorkflowState, d: Decision, u: Usage)
    requires OnTrack(fx, s) && HistoryOnTrack(cfg, fx, s) && Progress(s) < 6
    requires d.action.UseTool? && ReferenceDecision(fx, s) == Some(d)
    ensures var r := AfterRequest(cfg, s, d, u);
            && OnTrack(fx, r) && HistoryOnTrack(cfg, fx, r) && Tries(r) == Tries(s) + 1
  {
    hide Expected, ReferenceDecision, ValidatedRequest, EvidenceUpTo;
    RequestKeepsTrack(cfg, fx, s, d, u);
    PolicyFollowsOrder(fx, s);
    EvidenceIsPrefix(fx, s);
    var tool := ToolAt(Progress(s));
    assert (s.toolHistory + [tool])[..|s.toolHistory + [tool]| - 1] == s.toolHistory;
  }

  /** The tool a reference checkpoint may execute is the one that is due. */
  lemma DueToolRuns(cfg: Config, fx: Fixtures, c: Commit, tool: Tool, arguments: Arguments)
    requires cfg.Valid() && ReferenceCommit(cfg, fx, c) && MayExecute(c, tool, arguments)
    ensures Progress(c.state) < 6 && tool == ToolAt(Progress(c.state)) && Tries(c.state) >= 1
    ensures arguments == SentArguments(tool)
    ensures NeedsApproval(tool, arguments) <==> tool.RestartService?
  {
    hide Expected, ReferenceDecision, ValidatedRequest, HistoryOnTrack, Healthy, Unhealthy, Validate, Evaluate;
    PolicyFollowsOrder(fx, c.state);
    OnlyRestartNeedsApproval(tool);
  }

  lemma FinishKeepsTrack(cfg: Config, fx: Fixtures, s: WorkflowState, tool: Tool, result: Json)
    requires cfg.Valid() && OnTrack(fx, s) && Progress(s) < 6 && tool == ToolAt(Progress(s))
    requires result == Expected(fx, s.scenarioId, tool)
    ensures var r := Finished(cfg, s, tool, result);
            && OnTrack(fx, r) && Progress(r) == Progress(s) + 1
            && r.toolHistory == s.toolHistory
            && r.progressHistory == s.progressHistory + [FingerprintAt(cfg, fx, s.scenarioId, Progress(r))]
  {
    hide Expected, EvidenceUpTo;
    StepDone(fx, s, tool);
    var r := Finished(cfg, s, tool, result);
    forall t: Tool ensures t in r.evidence <==> Rank(t) < Progress(r) {
      if Rank(t) == Progress(s) {
        RankIsInjective(t, tool);
      }
    }
    EvidenceIsPrefix(fx, r);
  }

  lemma FinishKeepsHistory(cfg: Config, fx: Fixtures, s: WorkflowState, tool: Tool, result: Json)
    requires cfg.Valid() && OnTrack(fx, s) && HistoryOnTrack(cfg, fx, s) && Progress(s) < 6
    requires tool == ToolAt(Progress(s))
    requires Tries(s) >= 1 && result == Expected(fx, s.scenarioId, tool)
    ensures var r := Finished(cfg, s, tool, result);
            OnTrack(fx, r) && HistoryOnTrack(cfg, fx, r)
  {
    hide Expected, OnTrack, EvidenceUpTo;
    FinishKeepsTrack(cfg, fx, s, tool, result);
    var r := Finished(cfg, s, tool, result);
    if Progress(r) < 6 {
      NoPrior(s.toolHistory, ToolAt(Progress(r)));
    }
  }

  /** Moves that touch neither evidence, steps nor histories. */
  lemma SameTrack(cfg: Config, fx: Fixtures, s: WorkflowState, r: WorkflowState)
    requires OnTrack(fx, s) && HistoryOnTrack(cfg, fx, s)
    requires r.evidence == s.evidence && r.completedSteps == s.completedSteps && r.scenarioId == s.scenarioId
    requires r.toolHistory == s.toolHistory && r.progressHistory == s.progressHistory
    ensures OnTrack(fx, r) && HistoryOnTrack(cfg, fx, r) && Tries(r) == Tries(s) && Progress(r) == Progress(s)
    ensures ReferenceDecision(fx, r) == ReferenceDecision(fx, s)
  {
    hide Expected, EvidenceUpTo;
  }

  lemma RequestIsReference(cfg: Config, fx: Fixtures, c: Commit, m: Move)
    requires cfg.Valid() && ReferenceCommit(cfg, fx, c) && ByReference(fx, c.state, m) && Follows(cfg, c, m)
    requires c.state.pendingAction.None? && !c.state.status.Completed? && !c.state.status.Failed?
    requires m.Accept? || m.StopLoop?
    ensures ReferenceCommit(cfg, fx, Commit(m, Apply(cfg, c.state, m)))
  {
    hide Expected, ReferenceDecision, ValidatedRequest, HistoryOnTrack, OnTrack, RequestReason, Healthy,
         Unhealthy, AfterRequest;
    PolicyFollowsOrder(fx, c.state);
    assert Progress(c.state) < 6 by {
      ProgressBounded(fx, c.state);
    }
    RequestKeepsTrack(cfg, fx, c.state, m.decision, m.usage);
    RequestKeepsHistory(cfg, fx, c.state, m.decision, m.usage);
    var r := AfterRequest(cfg, c.state, m.decision, m.usage);
    SameTrack(cfg, fx, r, Apply(cfg, c.state, m));
  }

  lemma ProgressBounded(fx: Fixtures, s: WorkflowState)
    requires OnTrack(fx, s)
    ensures Progress(s) <= 6
  {
  }

  lemma FinishIsReference(cfg: Config, fx: Fixtures, c: Commit, tool: Tool, result: Json)
    requires cfg.Valid() && ReferenceCommit(cfg, fx, c) && MayExecuteTool(c, tool)
    requires ByReference(fx, c.state, FinishTool(tool, result))
    ensures ReferenceCommit(cfg, fx, Commit(FinishTool(tool, result), Apply(cfg, c.state, FinishTool(tool, result))))
  {
    hide Expected, ReferenceDecision, HistoryOnTrack, OnTrack, MayExecute, Healthy, Unhealthy, Finished, Apply, Tries,
         SentArguments;
    var arguments :| MayExecute(c, tool, arguments);
    DueToolRuns(cfg, fx, c, tool, arguments);
    FinishKeepsTrack(cfg, fx, c.state, tool, result);
    FinishKeepsHistory(cfg, fx, c.state, tool, result);
    FinishApplies(cfg, c.state, tool, result);
    SameTrack(cfg, fx, Finished(cfg, c.state, tool, result), Apply(cfg, c.state, FinishTool(tool, result)));
  }

  lemma FinishApplies(cfg: Config, s: WorkflowState, tool: Tool, result: Json)
    requires cfg.Valid()
    ensures Apply(cfg, s, FinishTool(tool, result)) == Finished(cfg, s, tool, result).(version := s.version + 1)
    ensures Finished(cfg, s, tool, result).status.Queued? && Finished(cfg, s, tool, result).pendingAction.None?
  {
  }

  lemma DecisionIsReference(cfg: Config, fx: Fixtures, c: Commit, m: Move)
    requires cfg.Valid() && ReferenceCommit(cfg, fx, c) && ByReference(fx, c.state, m) && Follows(cfg, c, m)
    requires c.state.pendingAction.None? && (m.CompleteRun? || m.DecisionFail?)
    ensures ReferenceCommit(cfg, fx, Commit(m, Apply(cfg, c.state, m)))
  {
    hide Expected, ReferenceDecision, HistoryOnTrack, OnTrack, Healthy, Unhealthy, ValidatedRequest;
    PolicyFollowsOrder(fx, c.state);
    ProgressBounded(fx, c.state);
    SameTrack(cfg, fx, c.state, Apply(cfg, c.state, m));
  }

  lemma WaitIsReference(cfg: Config, fx: Fixtures, c: Commit, m: Move)
    requires cfg.Valid() && ReferenceCommit(cfg, fx, c) && Follows(cfg, c, m) && m.Wait?
    ensures ReferenceCommit(cfg, fx, Commit(m, Apply(cfg, c.state, m)))
  {
    hide Expected, ReferenceDecision, HistoryOnTrack, OnTrack, Healthy, Unhealthy, Evaluate, ValidatedRequest;
    PolicyFollowsOrder(fx, c.state);
    var tool := ToolAt(Progress(c.state));
    OnlyRestartNeedsApproval(tool);
    SameTrack(cfg, fx, c.state, Apply(cfg, c.state, m));
  }

  lemma FollowsReference(cfg: Config, fx: Fixtures, task: TaskId, c: Commit, m: Move)
    requires cfg.Valid() && WellFormed(cfg, task, c) && ReferenceCommit(cfg, fx, c)
    requires ByReference(fx, c.state, m) && Follows(cfg, c, m)
    ensures ReferenceCommit(cfg, fx, Commit(m, Apply(cfg, c.state, m)))
  {
    hide Expected, ReferenceDecision, HistoryOnTrack, OnTrack, Healthy, Unhealthy, GatedAction, RequestReason,
         ValidatedRequest, MayExecuteTool, PendingFor;
    if m.Accept? || m.StopLoop? {
      RequestIsReference(cfg, fx, c, m);
    } else if m.CompleteRun? || m.DecisionFail? {
      DecisionIsReference(cfg, fx, c, m);
    } else if m.FinishTool? {
      FinishIsReference(cfg, fx, c, m.tool, m.result);
    } else if m.Wait? {
      WaitIsReference(cfg, fx, c, m);
    } else {
      SameTrack(cfg, fx, c.state, Apply(cfg, c.state, m));
    }
  }

  /** A chain in which the reference policy and the scenario backend caused every move. */
  ghost predicate ReferenceLog(cfg: Config, fx: Fixtures, task: TaskId, log: seq<Commit>)
    requires cfg.Valid()
  {
    && ValidLog(cfg, task, log)
    && log[0].state.scenarioId in fx.scenarios
    && forall i: nat | 0 < i < |log| :: CausedAt(fx, log, i)
  }

  predicate CausedAt(fx: Fixtures, log: seq<Commit>, i: nat)
    requires 0 < i < |log|
  {
    ByReference(fx, log[i - 1].state, log[i].move)
  }

  lemma FreshIsReference(cfg: Config, fx: Fixtures, task: TaskId, c: Commit)
    requires c.move.Create? && c.state == FreshWorkflow(task, c.state.goal, c.state.scenarioId)
    requires c.state.scenarioId in fx.scenarios
    ensures ReferenceCommit(cfg, fx, c)
  {
    hide Expected, EvidenceUpTo;
  }

  /** Every checkpoint of a reference chain is on track. */
  lemma {:induction false} ReferenceStaysOnTrack(cfg: Config, fx: Fixtures, task: TaskId, log: seq<Commit>, i: nat)
    requires cfg.Valid() && ReferenceLog(cfg, fx, task, log) && i < |log|
    ensures ReferenceCommit(cfg, fx, log[i]) && log[i].state.scenarioId == log[0].state.scenarioId
  {
    hide Follows, Apply, ReferenceCommit, ByReference, WellFormed;
    if i == 0 {
      FreshIsReference(cfg, fx, task, log[0]);
    } else {
      ReferenceStaysOnTrack(cfg, fx, task, log, i - 1);
      LogWellFormed(cfg, task, log, i - 1);
      assert LinkedAt(cfg, log, i) && CausedAt(fx, log, i);
      FollowsReference(cfg, fx, task, log[i - 1], log[i].move);
      KeepsScenario(cfg, log[i - 1].state, log[i].move);
      assert log[i] == Commit(log[i].move, Apply(cfg, log[i - 1].state, log[i].move));
    }
  }

  lemma KeepsScenario(cfg: Config, s: WorkflowState, m: Move)
    requires cfg.Valid()
    ensures Apply(cfg, s, m).scenarioId == s.scenarioId
  {
  }

  /**
   Fault tolerance of the reference policy. A checkpoint stopped by the guard had its tool budget used
   up, or its tool tried k - 1 times in vain (k - 2 if it is not the first); a failed or completed one
   has all six tools done.
   */
  lemma EndsAreExplained(cfg: Config, fx: Fixtures, task: TaskId, log: seq<Commit>, i: nat)
    requires cfg.Valid() && ReferenceLog(cfg, fx, task, log) && 0 < i < |log|
    requires DistinctFingerprints(cfg, fx, log[0].state.scenarioId)
    ensures log[i].state.scenarioId in fx.scenarios
    ensures log[i].move.StopLoop? ==>
              var before := log[i - 1].state;
              && Progress(before) < 6
              && (|before.toolHistory| + 1 >= cfg.maxToolCalls
                  || Tries(before) >= cfg.repeatThreshold - (if Progress(before) == 0 then 1 else 2))
    ensures log[i].move.Accept? ==>
              var before := log[i - 1].state;
              && Progress(before) < 6
              && |before.toolHistory| + 1 < cfg.maxToolCalls
              && Tries(before) < cfg.repeatThreshold - (if Progress(before) == 0 then 1 else 2)
    ensures log[i].state.status.Completed? || log[i].state.status.Failed? ==> Progress(log[i].state) == 6
  {
    hide Apply, Expected, ReferenceDecision, HistoryOnTrack, OnTrack, Healthy, Unhealthy, RequestReason,
         ValidatedRequest, MayExecuteTool, DistinctFingerprints;
    ReferenceStaysOnTrack(cfg, fx, task, log, i - 1);
    ReferenceStaysOnTrack(cfg, fx, task, log, i);
    assert LinkedAt(cfg, log, i) && CausedAt(fx, log, i);
    var m := log[i].move;
    OnTrackScenario(fx, log[i].state);
    if m.StopLoop? || m.Accept? {
      PolicyFollowsOrder(fx, log[i - 1].state);
      ProgressBounded(fx, log[i - 1].state);
      GuardIsExact(cfg, fx, log[i - 1].state, m.decision, m.usage);
    }
  }

  lemma OnTrackScenario(fx: Fixtures, s: WorkflowState)
    requires OnTrack(fx, s)
    ensures s.scenarioId in fx.scenarios
  {
  }

  /** At every start of a delivery, budget and tries are below what the guard stops. */
  ghost predicate WithinTolerance(cfg: Config, log: seq<Commit>) {
    forall i: nat | i < |log| :: log[i].move.Start? && Progress(log[i].state) < 6 ==>
      && |log[i].state.toolHistory| + 1 < cfg.maxToolCalls
      && Tries(log[i].state) < cfg.repeatThreshold - (if Progress(log[i].state) == 0 then 1 else 2)
  }

  /** Within the tolerance, no checkpoint of a reference chain is stopped by the guard. */
  lemma TolerableChainsAreNotStopped(cfg: Config, fx: Fixtures, task: TaskId, log: seq<Commit>, i: nat)
    requires cfg.Valid() && ReferenceLog(cfg, fx, task, log) && i < |log|
    requires DistinctFingerprints(cfg, fx, log[0].state.scenarioId) && WithinTolerance(cfg, log)
    ensures !log[i].state.status.LoopStopped?
  {
    hide Apply, Follows, ByReference, DistinctFingerprints, WellFormed, Tries;
    if i > 0 && log[i].state.status.LoopStopped? {
      assert LinkedAt(cfg, log, i);
      LogWellFormed(cfg, task, log, i - 1);
      StoppedBefore(cfg, task, log, i);
      EndsAreExplained(cfg, fx, task, log, i);
    }
  }

  lemma StopComesFromGuard(cfg: Config, task: TaskId, c: Commit, m: Move)
    requires cfg.Valid() && WellFormed(cfg, task, c) && Follows(cfg, c, m) && Apply(cfg, c.state, m).status.LoopStopped?
    ensures m.StopLoop? && c.move.Start?
  {
    hide RequestReason, ValidatedRequest, MayExecuteTool, PendingFor, GatedAction;
  }

  lemma StoppedBefore(cfg: Config, task: TaskId, log: seq<Commit>, i: nat)
    requires cfg.Valid() && ValidLog(cfg, task, log) && 0 < i < |log| && log[i].state.status.LoopStopped?
    ensures log[i].move.StopLoop? && log[i - 1].move.Start?
  {
    hide Apply, Follows, WellFormed, ValidLog;
    LinkAt(cfg, task, log, i);
    LogWellFormed(cfg, task, log, i - 1);
    StopComesFromGuard(cfg, task, log[i - 1], log[i].move);
  }

  lemma LinkAt(cfg: Config, task: TaskId, log: seq<Commit>, i: nat)
    requires cfg.Valid() && ValidLog(cfg, task, log) && 0 < i < |log|
    ensures LinkedAt(cfg, log, i)
  {
    hide Linked;
  }
}
