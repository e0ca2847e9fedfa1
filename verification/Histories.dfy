/** Whole-run properties of the checkpoint chain of one task: bookkeeping, no progress, loops. */
module Histories {
  import opened Models
  import opened Tools
  import opened LoopDetector
  import opened Checkpoints
  import opened CheckpointFacts

  predicate NoDuplicates<T(==)>(s: seq<T>) {
    forall i, j | 0 <= i < j < |s| :: s[i] != s[j]
  }

  /** An accepted request, a pending action and a stopped request have a history entry but no tool call. */
  function Outstanding(c: Commit): nat {
    if c.state.pendingAction.Some? || c.move.Accept? || c.state.status.LoopStopped? then 1 else 0
  }

  predicate Bookkept(c: Commit) {
    && |c.state.progressHistory| == |c.state.toolHistory| + c.state.toolCalls
    && c.state.toolCalls + Outstanding(c) <= |c.state.toolHistory| <= c.state.modelCalls
    && NoDuplicates(c.state.completedSteps)
    && (set tool | tool in c.state.completedSteps) == c.state.evidence.Keys
  }

  lemma ExecutionIsOutstanding(c: Commit, tool: Tool)
    requires MayExecuteTool(c, tool)
    ensures Outstanding(c) == 1
  {
    hide Executable, ValidatedRequest, NeedsApproval;
  }

  lemma FinishBookkept(cfg: Config, c: Commit, tool: Tool, result: Json)
    requires cfg.Valid() && Bookkept(c) && Outstanding(c) == 1
    ensures Bookkept(Commit(FinishTool(tool, result), Apply(cfg, c.state, FinishTool(tool, result))))
  {
    var s := Apply(cfg, c.state, FinishTool(tool, result));
    forall t ensures t in s.completedSteps <==> t in s.evidence {
      assert t in c.state.completedSteps <==> t in (set x | x in c.state.completedSteps);
    }
  }

  lemma FollowsBookkept(cfg: Config, task: TaskId, c: Commit, m: Move)
    requires cfg.Valid() && WellFormed(cfg, task, c) && Bookkept(c) && Follows(cfg, c, m)
    ensures Bookkept(Commit(m, Apply(cfg, c.state, m)))
  {
    hide RequestReason, ValidatedRequest, GatedAction, MayExecuteTool;
    if m.FinishTool? {
      ExecutionIsOutstanding(c, m.tool);
      FinishBookkept(cfg, c, m.tool, m.result);
    } else {
      assert Apply(cfg, c.state, m).completedSteps == c.state.completedSteps;
      assert Apply(cfg, c.state, m).evidence == c.state.evidence;
    }
  }

  lemma FreshBookkept(cfg: Config, task: TaskId, c: Commit)
    requires c.move.Create? && c.state == FreshWorkflow(task, c.state.goal, c.state.scenarioId)
    ensures Bookkept(c)
  {
  }

  /** Bookkeeping holds at every committed checkpoint. */
  lemma {:induction false} LogBookkept(cfg: Config, task: TaskId, log: seq<Commit>, i: nat)
    requires cfg.Valid() && ValidLog(cfg, task, log) && i < |log|
    ensures Bookkept(log[i])
  {
    hide Follows, Effect, Bookkept, WellFormed;
    if i == 0 {
      FreshBookkept(cfg, task, log[0]);
    } else {
      LogBookkept(cfg, task, log, i - 1);
      LogWellFormed(cfg, task, log, i - 1);
      assert LinkedAt(cfg, log, i);
      FollowsBookkept(cfg, task, log[i - 1], log[i].move);
      assert log[i] == Commit(log[i].move, Apply(cfg, log[i - 1].state, log[i].move));
    }
  }

  /** Histories grow by suffix; evidence keys and counters never shrink. */
  predicate Grown(before: WorkflowState, after: WorkflowState) {
    && before.toolHistory <= after.toolHistory
    && before.progressHistory <= after.progressHistory
    && before.completedSteps <= after.completedSteps
    && before.evidence.Keys <= after.evidence.Keys
    && before.retries <= after.retries
    && before.modelCalls <= after.modelCalls
    && before.inputTokens <= after.inputTokens
    && before.outputTokens <= after.outputTokens
    && before.toolCalls <= after.toolCalls
  }

  lemma EffectGrows(cfg: Config, s: WorkflowState, m: Move)
    requires cfg.Valid()
    ensures Grown(s, Apply(cfg, s, m))
  {
  }

  lemma GrownReflexive(a: WorkflowState)
    ensures Grown(a, a)
  {
  }

  lemma GrownTransitive(a: WorkflowState, b: WorkflowState, c: WorkflowState)
    requires Grown(a, b) && Grown(b, c)
    ensures Grown(a, c)
  {
  }

  lemma {:induction false} LogGrown(cfg: Config, task: TaskId, log: seq<Commit>, i: nat, j: nat)
    requires cfg.Valid() && ValidLog(cfg, task, log) && i <= j < |log|
    ensures Grown(log[i].state, log[j].state)
    decreases j
  {
    hide Follows, Effect, Grown;
    if i == j {
      GrownReflexive(log[i].state);
    } else {
      LogGrown(cfg, task, log, i, j - 1);
      assert LinkedAt(cfg, log, j);
      EffectGrows(cfg, log[j - 1].state, log[j].move);
      GrownTransitive(log[i].state, log[j - 1].state, log[j].state);
    }
  }

  // ----- no progress -----

  /** Tool requests that passed the loop guard in the checkpoints i + 1 .. j. */
  ghost function Accepted(log: seq<Commit>, i: nat, j: nat): nat
    requires i <= j < |log|
    decreases j
  {
    if i == j then 0 else Accepted(log, i, j - 1) + (if log[j].move.Accept? then 1 else 0)
  }

  ghost predicate SameEvidence(log: seq<Commit>, i: nat, j: nat)
    requires i <= j < |log|
  {
    forall x | i <= x <= j :: log[x].state.evidence == log[i].state.evidence
  }

  ghost predicate EndsWith(progress: seq<string>, f: string, n: nat) {
    n <= |progress| && forall x | |progress| - n <= x < |progress| :: progress[x] == f
  }

  /** The last fingerprint is always that of the current evidence. */
  lemma {:induction false} LastFingerprint(cfg: Config, task: TaskId, log: seq<Commit>, i: nat)
    requires cfg.Valid() && ValidLog(cfg, task, log) && i < |log|
    ensures log[i].state.progressHistory != [] ==> EndsWith(log[i].state.progressHistory, cfg.fingerprint(log[i].state.evidence), 1)
  {
    hide Follows, Apply;
    if i > 0 {
      LastFingerprint(cfg, task, log, i - 1);
      assert LinkedAt(cfg, log, i);
      ProgressStep(cfg, log[i - 1], log[i].move);
    }
  }

  function Started(s: WorkflowState): nat {
    if s.progressHistory != [] then 1 else 0
  }

  /** What one checkpoint does to evidence and fingerprints. */
  lemma ProgressStep(cfg: Config, c: Commit, m: Move)
    requires cfg.Valid() && Follows(cfg, c, m)
    ensures var after := Apply(cfg, c.state, m);
            && (after.evidence == c.state.evidence ==>
                  after.progressHistory == c.state.progressHistory
                  || after.progressHistory == c.state.progressHistory + [cfg.fingerprint(c.state.evidence)])
            && (m.Accept? ==>
                  after.progressHistory == c.state.progressHistory + [cfg.fingerprint(c.state.evidence)]
                  && !LastAllEqual(after.progressHistory, cfg.repeatThreshold))
            && (after.progressHistory != [] ==>
                  (after.progressHistory == c.state.progressHistory && after.evidence == c.state.evidence)
                  || after.progressHistory == c.state.progressHistory + [cfg.fingerprint(after.evidence)])
  {
    hide ValidatedRequest, MayExecuteTool, RepeatedSuffix;
  }

  lemma {:induction false} StreakBound(cfg: Config, task: TaskId, log: seq<Commit>, i: nat, j: nat)
    requires cfg.Valid() && ValidLog(cfg, task, log) && i <= j < |log| && SameEvidence(log, i, j)
    ensures EndsWith(log[j].state.progressHistory, cfg.fingerprint(log[i].state.evidence),
                     Accepted(log, i, j) + Started(log[i].state))
    ensures Accepted(log, i, j) > 0 ==> Accepted(log, i, j) + Started(log[i].state) < cfg.repeatThreshold
    decreases j
  {
    hide Follows, Apply;
    var f := cfg.fingerprint(log[i].state.evidence);
    if i == j {
      LastFingerprint(cfg, task, log, i);
    } else {
      StreakBound(cfg, task, log, i, j - 1);
      var before, after := log[j - 1].state, log[j].state;
      assert LinkedAt(cfg, log, j);
      ProgressStep(cfg, log[j - 1], log[j].move);
      assert after.evidence == before.evidence == log[i].state.evidence;
      if log[j].move.Accept? {
        var n := Accepted(log, i, j) + Started(log[i].state);
        assert EndsWith(after.progressHistory, f, n);
        assert n >= cfg.repeatThreshold ==> LastAllEqual(after.progressHistory, cfg.repeatThreshold);
      }
    }
  }

  /**
   While the evidence does not change, at most k - 1 tool requests pass the loop guard, and at most
   k - 2 once some evidence has been recorded, whatever the engine asks for.
   */
  lemma NoProgressBound(cfg: Config, task: TaskId, log: seq<Commit>, i: nat, j: nat)
    requires cfg.Valid() && ValidLog(cfg, task, log) && i <= j < |log| && SameEvidence(log, i, j)
    ensures Accepted(log, i, j) <= cfg.repeatThreshold - 1
    ensures log[i].state.evidence != map[] ==> Accepted(log, i, j) <= cfg.repeatThreshold - 2
  {
    StreakBound(cfg, task, log, i, j);
    LogBookkept(cfg, task, log, i);
    LogEvidenceCounted(cfg, task, log, i);
  }

  lemma {:induction false} LogEvidenceCounted(cfg: Config, task: TaskId, log: seq<Commit>, i: nat)
    requires cfg.Valid() && ValidLog(cfg, task, log) && i < |log|
    ensures log[i].state.evidence != map[] ==> log[i].state.toolCalls > 0
  {
    if i > 0 {
      LogEvidenceCounted(cfg, task, log, i - 1);
      assert LinkedAt(cfg, log, i);
    }
  }

  // ----- loops -----

  /** Checkpoint i replays a workflow that had this status. */
  predicate ReplayOf(log: seq<Commit>, i: nat, status: Status)
    requires 0 < i < |log|
  {
    log[i].move.Replay? && log[i - 1].state.status == status
  }

  /** No workflow stopped by the loop guard is replayed. */
  ghost predicate LoopStopsAreFinal(log: seq<Commit>) {
    forall i: nat | 0 < i < |log| :: !ReplayOf(log, i, LoopStopped)
  }

  /** The guard looks at suffixes only, and yet no block is ever repeated k times anywhere. */
  lemma {:induction false} AcceptedHistoriesArePowerFree(cfg: Config, task: TaskId, log: seq<Commit>, i: nat)
    requires cfg.Valid() && cfg.maxToolCalls >= 1 && ValidLog(cfg, task, log) && i < |log|
    requires LoopStopsAreFinal(log) && !log[i].state.status.LoopStopped?
    ensures |log[i].state.toolHistory| < cfg.maxToolCalls
    ensures PowerFree(log[i].state.toolHistory, cfg.repeatThreshold)
  {
    hide PowerFree, RepeatedSuffix, Follows, Apply, WellFormed;
    if i == 0 {
      EmptyIsPowerFree<Tool>(cfg.repeatThreshold);
    } else {
      var before := log[i - 1];
      assert LinkedAt(cfg, log, i);
      LogWellFormed(cfg, task, log, i - 1);
      assert !ReplayOf(log, i, LoopStopped);
      NotStoppedBefore(cfg, task, before, log[i].move);
      AcceptedHistoriesArePowerFree(cfg, task, log, i - 1);
      if log[i].move.Accept? {
        AcceptedPasses(cfg, before, log[i].move);
        PowerFreeExtends(before.state.toolHistory, log[i].move.decision.tool.value, cfg.repeatThreshold);
      } else {
        SameHistory(cfg, before.state, log[i].move);
      }
    }
  }

  /** Only a replay leaves a stop, and only the guard stops. */
  lemma NotStoppedBefore(cfg: Config, task: TaskId, c: Commit, m: Move)
    requires cfg.Valid() && WellFormed(cfg, task, c) && Follows(cfg, c, m)
    requires !Apply(cfg, c.state, m).status.LoopStopped?
    ensures !m.StopLoop? && (c.state.status.LoopStopped? ==> m.Replay?)
  {
    hide RequestReason, ValidatedRequest, GatedAction, PendingFor;
  }

  lemma AcceptedPasses(cfg: Config, c: Commit, m: Move)
    requires cfg.Valid() && Follows(cfg, c, m) && m.Accept?
    ensures m.decision.action.UseTool? && m.decision.tool.Some?
    ensures var history := Apply(cfg, c.state, m).toolHistory;
            && history == c.state.toolHistory + [m.decision.tool.value]
            && |history| < cfg.maxToolCalls && !RepeatedSuffix(history, cfg.repeatThreshold)
  {
    hide RepeatedSuffix, ValidatedRequest;
  }

  lemma SameHistory(cfg: Config, st: WorkflowState, m: Move)
    requires cfg.Valid() && !m.Accept? && !m.StopLoop?
    ensures Apply(cfg, st, m).toolHistory == st.toolHistory
  {
  }

  lemma EmptyIsPowerFree<T(!new)>(k: nat)
    requires k >= 2
    ensures PowerFree<T>([], k)
  {
    forall prefix: seq<T>, p, suffix ensures !PowerAt([], prefix, p, k, suffix) {
      if p != [] {
        PowerHead(p, k);
        assert |prefix + Power(p, k) + suffix| > 0;
      }
    }
  }
}
