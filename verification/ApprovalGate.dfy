/** The approval gate over every interleaving and crash. */
module ApprovalGate {
  import opened Prelude
  import opened Models
  import opened Tools
  import opened Tables
  import opened Checkpoints
  import opened CheckpointFacts
  import opened Machine
  import opened System
  import opened Refinement

  lemma DoKeepsVerdicts(cfg: Config, s: Sys, step: Step)
    requires cfg.Valid() && Inv(cfg, s)
    ensures VerdictsKept(s.world, Do(cfg, s, step).world) && LedgerKept(s.world, Do(cfg, s, step).world)
  {
    hide StepProc, LogAfter, Inv, ProcOk, LedgerOk, StructuredResult, FirstClaimable, ReleaseExpired;
    if step.Advance? && step.pid in s.procs {
      ProcIsOk(cfg, s, step.pid);
      RecordingIsStructured(cfg, s, step.pid);
      StepKeepsTables(cfg, s.world, s.procs[step.pid], step.answer);
    }
  }

  /** A verdict and a ledger row, once there, stay for the rest of every run. */
  lemma {:induction false} VerdictsArePermanent(cfg: Config, steps: seq<Step>, more: seq<Step>)
    requires cfg.Valid()
    ensures VerdictsKept(Run(cfg, steps).world, Run(cfg, steps + more).world)
    ensures LedgerKept(Run(cfg, steps).world, Run(cfg, steps + more).world)
  {
    hide Run, Do, Inv;
    if more == [] {
      assert steps + more == steps;
    } else {
      var shorter, step := more[..|more| - 1], more[|more| - 1];
      VerdictsArePermanent(cfg, steps, shorter);
      assert steps + more == (steps + shorter) + [step];
      RunSnoc(cfg, steps + shorter, step);
      RunInv(cfg, steps + shorter);
      DoKeepsVerdicts(cfg, Run(cfg, steps + shorter), step);
    }
  }

  /**
   Whenever a process is about to call the backend, the arguments are validated, the tool is not
   blocked, and an approval-required call has its own ledger key approved.
   */
  lemma BackendCallsAreApproved(cfg: Config, steps: seq<Step>, s: Sys, pid: nat)
    requires cfg.Valid() && ReachedBy(cfg, steps, s) && pid in s.procs && s.procs[pid].pc.Calling?
    ensures var p := s.procs[pid];
            && Validate(p.pc.tool, p.pc.arguments) == Some(p.pc.arguments)
            && !p.pc.tool.DeleteDatabase?
            && (NeedsApproval(p.pc.tool, p.pc.arguments) ==> IsApproved(s.world, p.task, KeyOf(cfg, p)))
  {
    hide Run, Inv, Follows;
    ReachedIsRun(cfg, steps, s);
    RunInv(cfg, steps);
    ProcIsOk(cfg, s, pid);
  }

  /** An approval that does not come back: no call that needs one has that action id after a rejection. */
  lemma NoRejectedGatedCall(cfg: Config, steps: seq<Step>, s: Sys, more: seq<Step>, r: Sys, task: TaskId,
          action: ActionId, pid: nat)
    requires cfg.Valid() && ReachedBy(cfg, steps, s) && ReachedBy(cfg, steps + more, r)
    requires (task, action) in s.world.approvals && s.world.approvals[(task, action)].Rejected?
    requires pid in r.procs && r.procs[pid].pc.Calling? && r.procs[pid].task == task
    requires NeedsApproval(r.procs[pid].pc.tool, r.procs[pid].pc.arguments)
    ensures KeyOf(cfg, r.procs[pid]) != action
  {
    hide Run, ReachedBy;
    ReachedIsRun(cfg, steps, s);
    ReachedIsRun(cfg, steps + more, r);
    VerdictsArePermanent(cfg, steps, more);
    BackendCallsAreApproved(cfg, steps + more, r, pid);
  }

  /** The 16 characters kept of the argument hash tell the two argument maps apart. */
  predicate DigestSeparates(cfg: Config, task: TaskId, tool: Tool, a: Arguments, b: Arguments) {
    ActionIdOf(cfg, task, tool, a) == ActionIdOf(cfg, task, tool, b) ==> a == b
  }

  /**
   After a rejection the action never runs: no call at all has its id, if the digest tells the arguments
   of the call from those that were waiting. Checkpoint i is the one that waited for the verdict; every
   approval row has one, by ApprovalsComeFromWaitingCheckpoints.
   */
  lemma RejectedActionsNeverRun(cfg: Config, steps: seq<Step>, s: Sys, more: seq<Step>, r: Sys,
          task: TaskId, i: nat, pid: nat)
    requires cfg.Valid() && ReachedBy(cfg, steps, s) && ReachedBy(cfg, steps + more, r)
    requires task in s.log && i < |s.log[task]| && s.log[task][i].move.Wait?
    requires (task, s.log[task][i].move.action.actionId) in s.world.approvals
    requires s.world.approvals[(task, s.log[task][i].move.action.actionId)].Rejected?
    requires pid in r.procs && r.procs[pid].pc.Calling?
    requires DigestSeparates(cfg, task, r.procs[pid].pc.tool, r.procs[pid].pc.arguments, s.log[task][i].move.action.arguments)
    ensures KeyOf(cfg, r.procs[pid]) != s.log[task][i].move.action.actionId
  {
    hide Run, ReachedBy, Inv, Follows, NeedsApproval, Executable, ValidLog;
    var action := s.log[task][i].move.action;
    ReachedIsRun(cfg, steps, s);
    RunInv(cfg, steps);
    LogIsOk(cfg, s, task);
    WaitIsGated(cfg, task, s.log[task], i);
    if KeyOf(cfg, r.procs[pid]) == action.actionId {
      NoRejectedGatedCall(cfg, steps, s, more, r, task, action.actionId, pid);
    }
  }

  /** The action of a waiting checkpoint passed the gate under its own id. */
  lemma WaitIsGated(cfg: Config, task: TaskId, log: seq<Commit>, i: nat)
    requires cfg.Valid() && ValidLog(cfg, task, log) && i < |log| && log[i].move.Wait?
    ensures GatedAction(cfg, task, log[i].move.action)
  {
    hide Follows, GatedAction;
    LogWellFormed(cfg, task, log, i);
    assert i > 0;
    assert LinkedAt(cfg, log, i);
  }

  /** Every approval row belongs to an action that was checkpointed as waiting. */
  ghost predicate ApprovalsWereAskedFor(s: Sys) {
    forall key | key in s.world.approvals :: WaitCommitted(s.log, key.0, key.1)
  }

  ghost predicate WaitCommitted(log: map<TaskId, seq<Commit>>, task: TaskId, action: ActionId) {
    task in log && exists i | 0 <= i < |log[task]| :: log[task][i].move.Wait? && log[task][i].move.action.actionId == action
  }

  lemma StepAddsApproval(cfg: Config, w: World, p: Proc, a: Answer, key: (TaskId, ActionId))
    requires cfg.Valid() && key in StepProc(cfg, w, p, a).0.approvals && key !in w.approvals
    ensures p.pc.PuttingApproval? && key == (p.task, p.pc.action) && StepProc(cfg, w, p, a).0.workflows == w.workflows
  {
  }

  lemma DoAddsApproval(cfg: Config, s: Sys, step: Step, key: (TaskId, ActionId))
    requires cfg.Valid() && key in Do(cfg, s, step).world.approvals && key !in s.world.approvals
    ensures step.Advance? && step.pid in s.procs
    ensures s.procs[step.pid].pc.PuttingApproval? && key == (s.procs[step.pid].task, s.procs[step.pid].pc.action)
  {
    hide StepProc, Apply;
    if step.Advance? && step.pid in s.procs {
      StepAddsApproval(cfg, s.world, s.procs[step.pid], step.answer, key);
    }
  }

  lemma WaitCommittedStable(log: map<TaskId, seq<Commit>>, longer: map<TaskId, seq<Commit>>, task: TaskId,
          action: ActionId)
    requires LogGrows(log, longer) && WaitCommitted(log, task, action)
    ensures WaitCommitted(longer, task, action)
  {
    var i :| 0 <= i < |log[task]| && log[task][i].move.Wait? && log[task][i].move.action.actionId == action;
    assert longer[task][i] == log[task][i];
  }

  lemma DoKeepsAskedFor(cfg: Config, s: Sys, step: Step)
    requires cfg.Valid() && Inv(cfg, s) && ApprovalsWereAskedFor(s)
    ensures ApprovalsWereAskedFor(Do(cfg, s, step))
  {
    var r := Do(cfg, s, step);
    assert LogGrows(s.log, r.log) by {
      DoKeepsInv(cfg, s, step);
    }
    forall key | key in r.world.approvals ensures WaitCommitted(r.log, key.0, key.1) {
      if key !in s.world.approvals {
        DoAddsApproval(cfg, s, step, key);
        PuttingApprovalWaits(cfg, s, step.pid);
      }
      WaitCommittedStable(s.log, r.log, key.0, key.1);
    }
  }

  lemma PuttingApprovalWaits(cfg: Config, s: Sys, pid: nat)
    requires cfg.Valid() && Inv(cfg, s) && pid in s.procs && s.procs[pid].pc.PuttingApproval?
    ensures WaitCommitted(s.log, s.procs[pid].task, s.procs[pid].pc.action)
  {
    var p := s.procs[pid];
    assert ProcOk(cfg, s.world, s.log, p);
    assert s.log[p.task][p.base.value.version].move.Wait?;
  }

  /** A verdict can only be about an action that a checkpoint of that task shows as waiting. */
  lemma {:induction false} ApprovalsComeFromWaitingCheckpoints(cfg: Config, steps: seq<Step>)
    requires cfg.Valid()
    ensures ApprovalsWereAskedFor(Run(cfg, steps))
  {
    if steps != [] {
      var before := steps[..|steps| - 1];
      ApprovalsComeFromWaitingCheckpoints(cfg, before);
      RunInv(cfg, before);
      DoKeepsAskedFor(cfg, Run(cfg, before), steps[|steps| - 1]);
    }
  }
}
