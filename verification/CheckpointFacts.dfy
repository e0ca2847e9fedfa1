/** What holds of every checkpoint in a chain of legal transitions, whoever made them. */
module CheckpointFacts {
  import opened Models
  import opened Tools
  import opened Checkpoints

  /** A stored pending action went through validation and the policy, and carries its own ledger key. */
  predicate GatedAction(cfg: Config, task: TaskId, action: PendingAction) {
    && Executable(action.tool, action.arguments)
    && NeedsApproval(action.tool, action.arguments)
    && action.actionId == ActionIdOf(cfg, task, action.tool, action.arguments)
  }

  predicate WellFormed(cfg: Config, task: TaskId, c: Commit) {
    && c.state.taskId == task
    && (c.state.pendingAction.Some? ==> GatedAction(cfg, task, c.state.pendingAction.value))
    && (c.state.status.WaitingForApproval? ==> c.state.pendingAction.Some?)
    && (c.state.status.Running? ==> c.state.pendingAction.None?)
    && (c.move.Start? || c.move.Accept? ==> c.state.status.Running?)
    && (c.move.Accept? ==> c.move.decision.action.UseTool? && ValidatedRequest(c.move.decision).Some?)
    && (c.move.Wait? ==> c.state.status.WaitingForApproval?)
  }

  lemma FollowsWellFormed(cfg: Config, task: TaskId, c: Commit, m: Move)
    requires cfg.Valid() && WellFormed(cfg, task, c) && Follows(cfg, c, m)
    ensures WellFormed(cfg, task, Commit(m, Apply(cfg, c.state, m)))
  {
    if m.Wait? {
      ValidateIdempotent(c.move.decision.tool.value, RequestedArguments(c.move.decision.arguments));
    }
  }

  lemma {:induction false} LogWellFormed(cfg: Config, task: TaskId, log: seq<Commit>, i: nat)
    requires cfg.Valid() && ValidLog(cfg, task, log) && i < |log|
    ensures WellFormed(cfg, task, log[i])
    ensures log[i].state.version == i
  {
    if i > 0 {
      LogWellFormed(cfg, task, log, i - 1);
      assert LinkedAt(cfg, log, i);
      FollowsWellFormed(cfg, task, log[i - 1], log[i].move);
      assert log[i] == Commit(log[i].move, Apply(cfg, log[i - 1].state, log[i].move));
    }
  }
}
