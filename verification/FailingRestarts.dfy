/**
 The attempts of a tool are counted in the history of requests, and resuming an approved restart adds none.
 So a restart that the scenario still fails at its count fails for ever: it never finishes, in any run.
 */
module FailingRestarts {
  import opened Models
  import opened Policy
  import opened Checkpoints
  import opened CheckpointFacts
  import opened System
  import opened Refinement
  import opened Reference
  import opened ReferenceChains
  import opened ReferenceRuns
  import opened Rounds
  import opened Earnings

  /** The restart waits to be approved or resumed, and will fail whenever it is resumed. */
  predicate Failing(fx: Fixtures, st: WorkflowState) {
    && st.scenarioId in fx.scenarios && st.pendingAction.Some? && Progress(st) == 4
    && Tries(st) <= Transient(fx, st.scenarioId, RestartService)
  }

  ghost predicate Doomed(fx: Fixtures, s: Sys, task: TaskId) {
    task in s.log && s.log[task] != [] && Failing(fx, Last(s, task).state)
  }

  /** A human took the action back. */
  ghost predicate Withdrawn(s: Sys, task: TaskId, n: nat) {
    task in s.log && exists i: nat :: n <= i < |s.log[task]| && s.log[task][i].move.Reject?
  }

  lemma FailingGoesOn(cfg: Config, fx: Fixtures, task: TaskId, c: Commit, m: Move)
    requires cfg.Valid() && WellFormed(cfg, task, c) && Follows(cfg, c, m) && Failing(fx, c.state)
    requires !m.Reject? && (m.FinishTool? ==> Rank(m.tool) == 4 && Outlasts(fx, c, m.tool))
    ensures Failing(fx, Apply(cfg, c.state, m))
  {
    hide GatedAction, RequestReason, ValidatedRequest, CallFailed, Denied, PendingFor, Evaluate, Transient;
    if m.FinishTool? {
      RankIsInjective(m.tool, RestartService);
    } else if m.Accept? || m.StopLoop? || m.Wait? {
      PendingIsNotRunning(cfg, task, c);
    }
  }

  lemma PendingIsNotRunning(cfg: Config, task: TaskId, c: Commit)
    requires WellFormed(cfg, task, c) && c.state.pendingAction.Some?
    ensures !c.move.Start? && !c.move.Accept?
  {
    hide GatedAction;
  }

  lemma {:induction false} StaysFailing(cfg: Config, fx: Fixtures, task: TaskId, log: seq<Commit>, i: nat, j: nat)
    requires cfg.Valid() && ReferenceLog(cfg, fx, task, log) && LogEarned(fx, log) && i <= j < |log|
    requires Failing(fx, log[i].state) && forall k: nat | i < k <= j :: !log[k].move.Reject?
    ensures Failing(fx, log[j].state)
    decreases j
  {
    hide Follows, Apply, WellFormed, Failing, LogEarned, Outlasts, CausedAt, Tries;
    if i < j {
      StaysFailing(cfg, fx, task, log, i, j - 1);
      LogWellFormed(cfg, task, log, j - 1);
      assert LinkedAt(cfg, log, j);
      if log[j].move.FinishTool? {
        FinishedOutlasts(cfg, fx, task, log, j);
        FinishIsDue(cfg, fx, task, log, j);
        AtTheRestart(fx, log[j - 1].state);
      }
      FailingGoesOn(cfg, fx, task, log[j - 1], log[j].move);
    }
  }

  lemma AtTheRestart(fx: Fixtures, st: WorkflowState)
    requires Failing(fx, st)
    ensures Progress(st) == 4
  {
  }

  lemma {:induction false} TraceLogsGrow(cfg: Config, steps: seq<Step>, trace: seq<Sys>, i: nat, j: nat, task: TaskId)
    requires cfg.Valid() && IsTrace(cfg, steps, trace) && i <= j <= |steps| && task in trace[i].log
    ensures Inv(cfg, trace[j]) && task in trace[j].log && trace[i].log[task] <= trace[j].log[task]
    decreases j
  {
    hide Do, Inv;
    if j == 0 {
      RunInv(cfg, []);
    } else if i < j {
      TraceLogsGrow(cfg, steps, trace, i, j - 1, task);
      assert StepAt(cfg, steps, trace, j - 1);
      DoKeepsInv(cfg, trace[j - 1], steps[j - 1]);
    } else {
      TraceHasInv(cfg, steps, trace, j);
    }
  }

  lemma {:induction false} TraceHasInv(cfg: Config, steps: seq<Step>, trace: seq<Sys>, i: nat)
    requires cfg.Valid() && IsTrace(cfg, steps, trace) && i <= |steps|
    ensures Inv(cfg, trace[i])
  {
    hide Do, Inv;
    if i == 0 {
      RunInv(cfg, []);
    } else {
      TraceHasInv(cfg, steps, trace, i - 1);
      assert StepAt(cfg, steps, trace, i - 1);
      DoKeepsInv(cfg, trace[i - 1], steps[i - 1]);
    }
  }

  /**
   A restart that the scenario still fails at its count never finishes: in every faithful run, under any
   interleaving, it stays as it is, dead-lettered and replayed or not, until a human rejects it.
   */
  lemma FailingRestartsNeverFinish(cfg: Config, fx: Fixtures, steps: seq<Step>, trace: seq<Sys>, i: nat, task: TaskId)
    requires cfg.Valid() && FaithfulTrace(cfg, fx, steps, trace) && i <= |steps| && Doomed(fx, trace[i], task)
    requires !Withdrawn(trace[|steps|], task, |trace[i].log[task]|)
    ensures task in trace[|steps|].world.workflows
    ensures var st := trace[|steps|].world.workflows[task].state;
            Failing(fx, st) && !st.status.Completed? && !st.status.Failed?
  {
    hide StepAt, FaithfulAt, Inv, Failing, ReferenceLog, LogEarned, ReferenceCommit;
    TraceHasChain(cfg, fx, steps, trace, i, task);
    var s := trace[|steps|];
    StoredIsLast(cfg, s, task);
    var n, log := |trace[i].log[task]|, s.log[task];
    assert forall k: nat | n <= k < |log| :: !log[k].move.Reject?;
    StaysFailing(cfg, fx, task, log, n - 1, |log| - 1);
    ReferenceEnd(cfg, fx, task, log);
    FailingIsUnended(cfg, fx, Last(s, task));
  }

  /** The chain of a task at the end of a faithful run, and what of it was there before. */
  lemma TraceHasChain(cfg: Config, fx: Fixtures, steps: seq<Step>, trace: seq<Sys>, i: nat, task: TaskId)
    requires cfg.Valid() && FaithfulTrace(cfg, fx, steps, trace) && i <= |steps| && task in trace[i].log
    ensures var s := trace[|steps|];
            && Inv(cfg, s) && task in s.world.workflows && task in s.log && trace[i].log[task] <= s.log[task]
            && ReferenceLog(cfg, fx, task, s.log[task]) && LogEarned(fx, s.log[task])
  {
    hide StepAt, FaithfulAt, ReferenceInv, Inv, LogOk, ReferenceLog, LogEarned, LedgerEarned, HandEarned,
         RestartsApproved;
    var s := trace[|steps|];
    TraceLogsGrow(cfg, steps, trace, i, |steps|, task);
    TraceKeepsReference(cfg, fx, steps, trace, |steps|);
    TraceKeepsEarned(cfg, fx, steps, trace, |steps|);
    ReferenceTaskOf(cfg, fx, s, task);
    LogIsOk(cfg, s, task);
  }

  lemma ReferenceEnd(cfg: Config, fx: Fixtures, task: TaskId, log: seq<Commit>)
    requires cfg.Valid() && ReferenceLog(cfg, fx, task, log)
    ensures log != [] && ReferenceCommit(cfg, fx, log[|log| - 1])
  {
    hide ReferenceCommit, LinkedAt, CausedAt;
    ReferenceStaysOnTrack(cfg, fx, task, log, |log| - 1);
  }

  lemma FailingIsUnended(cfg: Config, fx: Fixtures, c: Commit)
    requires ReferenceCommit(cfg, fx, c) && Failing(fx, c.state)
    ensures !c.state.status.Completed? && !c.state.status.Failed?
  {
    hide OnTrack, HistoryOnTrack, ReferenceDecision, Healthy, Unhealthy, Expected;
  }
}
