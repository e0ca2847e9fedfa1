/** The store object: five tables updated in place, one method per store call (store.py). */
module Store {
  import opened Prelude
  import opened Models
  import opened Tables

  predicate LeasePassed(row: QueueRow, now: real) {
    row.status.Processing? && row.leaseUntil.Some? && row.leaseUntil.value < now
  }

  /** Pending or left behind, and due. */
  predicate Obtainable(row: QueueRow, now: real) {
    (row.status.Pending? || LeasePassed(row, now)) && row.availableAt <= now
  }

  lemma LiveRows(queue: seq<QueueRow>, task: TaskId)
    ensures HasLive(queue, task) <==>
              exists row | row in queue :: row.task == task && (row.status.Pending? || row.status.Processing?)
  {
    if i :| 0 <= i < |queue| && LiveAt(queue, i, task) {
      assert queue[i] in queue;
    }
    if row :| row in queue && row.task == task && (row.status.Pending? || row.status.Processing?) {
      var i :| 0 <= i < |queue| && queue[i] == row;
      assert LiveAt(queue, i, task);
    }
  }

  class SQLiteStore {
    var workflows: map<TaskId, WorkflowRow>
    var queue: seq<QueueRow>
    var events: seq<Event>
    var toolResults: map<ActionId, LedgerRow>
    var approvals: map<(TaskId, ActionId), Verdict>

    /** The tables as one value. */
    ghost function World(): World
      reads this
    {
      Tables.World(workflows, queue, events, toolResults, approvals)
    }

    constructor ()
      ensures World() == EMPTY_WORLD
    {
      workflows, queue, events, toolResults, approvals := map[], [], [], map[], map[];
    }

    method RecordEvent(task: TaskId, kind: EventKind)
      modifies this`events
      ensures events == old(events) + [Event(task, kind)]
      ensures World() == Tables.RecordEvent(old(World()), task, kind)
    {
      events := events + [Event(task, kind)];
    }

    /** False is the integrity error of a task id that exists; nothing is inserted then. */
    method CreateWorkflow(state: WorkflowState, maxAttempts: nat, now: real) returns (created: bool)
      modifies this
      ensures created <==> state.taskId !in old(workflows)
      ensures created ==>
                World() == old(World()).(
                  workflows := old(workflows)[state.taskId := WorkflowRow(state, state.version)],
                  queue := old(queue) + [QueueRow(state.taskId, Pending, 0, maxAttempts, now, None, None)],
                  events := old(events) + [Event(state.taskId, WorkflowCreated)])
      ensures created <==> Tables.CreateWorkflow(old(World()), state, maxAttempts, now).Some?
      ensures World() == if created then Tables.CreateWorkflow(old(World()), state, maxAttempts,
                                                               now).value else old(World())
    {
      if state.taskId in workflows {
        return false;
      }
      workflows := workflows[state.taskId := WorkflowRow(state, state.version)];
      queue := queue + [NewRow(state.taskId, maxAttempts, now)];
      RecordEvent(state.taskId, WorkflowCreated);
      created := true;
    }

    method GetWorkflow(task: TaskId) returns (state: Option<WorkflowState>)
      ensures state == if task in workflows then Some(workflows[task].state) else None
    {
      if task in workflows {
        return Some(workflows[task].state);
      }
      return None;
    }

    /** The optimistic update: an error, and no change, unless the version column is the expected one. */
    method SaveWorkflow(state: WorkflowState, expectedVersion: nat) returns (saved: Result<WorkflowState, Reason>)
      modifies this`workflows
      ensures saved.Ok? <==> state.taskId in old(workflows) && old(workflows)[state.taskId].version == expectedVersion
      ensures saved.Ok? ==>
                && saved.value == state.(version := expectedVersion + 1)
                && workflows == old(workflows)[state.taskId := WorkflowRow(saved.value, expectedVersion + 1)]
      ensures saved.Err? ==> saved.error == StaleCheckpoint && workflows == old(workflows)
      ensures saved.Ok? <==> Tables.SaveWorkflow(old(World()), state, expectedVersion).Some?
      ensures World() == if saved.Ok? then Tables.SaveWorkflow(old(World()), state,
                                                               expectedVersion).value else old(World())
    {
      var stamped := state.(version := expectedVersion + 1);
      if state.taskId !in workflows || workflows[state.taskId].version != expectedVersion {
        return Err(StaleCheckpoint);
      }
      workflows := workflows[state.taskId := WorkflowRow(stamped, stamped.version)];
      return Ok(stamped);
    }

    method Enqueue(task: TaskId, maxAttempts: nat, now: real)
      modifies this`queue
      ensures queue ==
                if exists row | row in old(queue) :: row.task == task && (row.status.Pending? || row.status.Processing?)
                then old(queue) else old(queue) + [QueueRow(task, Pending, 0, maxAttempts, now, None, None)]
      ensures World() == Tables.Enqueue(old(World()), task, maxAttempts, now)
    {
      LiveRows(queue, task);
      if exists i | 0 <= i < |queue| :: LiveAt(queue, i, task) {
        return;
      }
      queue := queue + [NewRow(task, maxAttempts, now)];
    }

    /** Expired leases go back to pending, then the lowest available pending row is leased. */
    method Claim(workerId: string, leaseSeconds: real, now: real) returns (delivery: Option<Delivery>)
      modifies this`queue
      ensures |queue| == |old(queue)|
      ensures delivery.Some? <==> exists row | row in old(queue) :: Obtainable(row, now)
      ensures delivery.Some? ==>
                && delivery.value.id < |queue| && Obtainable(old(queue)[delivery.value.id], now)
                && (forall j | 0 <= j < delivery.value.id :: !Obtainable(old(queue)[j], now))
                && var row := old(queue)[delivery.value.id];
                && delivery.value == Delivery(delivery.value.id, row.task, row.attempts + 1, row.maxAttempts)
                && queue[delivery.value.id] == QueueRow(row.task, Processing, row.attempts + 1, row.maxAttempts,
                                                        row.availableAt, Some(now + leaseSeconds), Some(workerId))
      ensures forall i | 0 <= i < |queue| && (delivery.None? || i != delivery.value.id) ::
                queue[i] == if LeasePassed(old(queue)[i], now)
                            then old(queue)[i].(status := Pending, leaseUntil := None,
                                                worker := None) else old(queue)[i]
      ensures (World(), delivery) == Tables.Claim(old(World()), workerId, leaseSeconds, now)
    {
      ghost var before := queue;
      queue := ReleaseExpired(queue, now);
      assert forall i | 0 <= i < |queue| :: Claimable(queue[i], now) <==> Obtainable(before[i], now);
      var id := FirstClaimable(queue, now, 0);
      if id == |queue| {
        return None;
      }
      assert before[id] in before;
      var attempts := queue[id].attempts + 1;
      queue := queue[id := queue[id].(status := Processing, attempts := attempts, worker := Some(workerId),
                                      leaseUntil := Some(now + leaseSeconds))];
      return Some(Delivery(id, queue[id].task, attempts, queue[id].maxAttempts));
    }

    method Acknowledge(id: nat)
      modifies this`queue
      ensures queue == if id < |old(queue)| then old(queue)[id := old(queue)[id].(status := Done, leaseUntil := None)]
                       else old(queue)
      ensures World() == Tables.Acknowledge(old(World()), id)
    {
      if id < |queue| {
        queue := queue[id := queue[id].(status := Done, leaseUntil := None)];
      }
    }

    method ExtendLease(delivery: Delivery, leaseSeconds: real, now: real)
      modifies this`queue
      ensures queue == if delivery.id < |old(queue)| && old(queue)[delivery.id].status.Processing?
                       then old(queue)[delivery.id := old(queue)[delivery.id].(leaseUntil := Some(now + leaseSeconds))]
                       else old(queue)
      ensures World() == Tables.ExtendLease(old(World()), delivery.id, leaseSeconds, now)
    {
      if delivery.id < |queue| && queue[delivery.id].status.Processing? {
        queue := queue[delivery.id := queue[delivery.id].(leaseUntil := Some(now + leaseSeconds))];
      }
    }

    method RetryOrDeadLetter(delivery: Delivery, baseSeconds: real, now: real) returns (dead: bool)
      modifies this`queue
      ensures dead <==> delivery.attempts >= delivery.maxAttempts
      ensures queue ==
                if delivery.id >= |old(queue)| then old(queue)
                else old(queue)[delivery.id := old(queue)[delivery.id].(
                  status := if dead then Dead else Pending,
                  availableAt := if dead then now else now + RetryDelay(baseSeconds, delivery.attempts),
                  leaseUntil := None, worker := None)]
      ensures (World(), dead) == Tables.RetryOrDeadLetter(old(World()), delivery, baseSeconds, now)
    {
      dead := delivery.attempts >= delivery.maxAttempts;
      var delay := RetryDelay(baseSeconds, delivery.attempts);
      var available := if dead then now else now + delay;
      if delivery.id < |queue| {
        queue := queue[delivery.id := queue[delivery.id].(status := if dead then Dead else Pending,
                                                          availableAt := available, leaseUntil := None, worker := None)];
      }
    }

    method GetToolResult(key: ActionId, argumentsHash: string) returns (lookup: Lookup)
      ensures lookup.Missing? <==> key !in toolResults
      ensures lookup.Found? <==> key in toolResults && toolResults[key].argumentsHash == argumentsHash
      ensures lookup.Found? ==> lookup.result == toolResults[key].result
      ensures lookup == Tables.GetToolResult(World(), key, argumentsHash)
    {
      if key !in toolResults {
        return Missing;
      }
      if toolResults[key].argumentsHash != argumentsHash {
        return HashConflict;
      }
      return Found(toolResults[key].result);
    }

    method SaveToolResult(key: ActionId, row: LedgerRow)
      modifies this`toolResults
      ensures toolResults == if key in old(toolResults) then old(toolResults) else old(toolResults)[key := row]
      ensures World() == Tables.SaveToolResult(old(World()), key, row)
    {
      if key !in toolResults {
        toolResults := toolResults[key := row];
      }
    }

    method CreateApproval(task: TaskId, action: ActionId)
      modifies this`approvals
      ensures approvals == if (task, action) in old(approvals) then old(approvals)
                           else old(approvals)[(task, action) := Undecided]
      ensures World() == Tables.CreateApproval(old(World()), task, action)
    {
      if (task, action) !in approvals {
        approvals := approvals[(task, action) := Undecided];
      }
    }

    /** False is the error raised when no undecided row was updated. */
    method ResolveApproval(task: TaskId, action: ActionId, approved: bool) returns (resolved: bool)
      modifies this`approvals
      ensures resolved <==> (task, action) in old(approvals) && old(approvals)[(task, action)].Undecided?
      ensures approvals == if resolved then old(approvals)[(task, action) := if approved then Approved else Rejected]
                           else old(approvals)
      ensures resolved <==> Tables.ResolveApproval(old(World()), task, action, approved).Some?
      ensures World() == if resolved then Tables.ResolveApproval(old(World()), task, action,
                                                                 approved).value else old(World())
    {
      if (task, action) !in approvals || !approvals[(task, action)].Undecided? {
        return false;
      }
      approvals := approvals[(task, action) := if approved then Approved else Rejected];
      return true;
    }

    method ApprovalStatus(task: TaskId, action: ActionId) returns (verdict: Option<Verdict>)
      ensures verdict == if (task, action) in approvals then Some(approvals[(task, action)]) else None
      ensures verdict == Some(Approved) <==> IsApproved(World(), task, action)
    {
      if (task, action) in approvals {
        return Some(approvals[(task, action)]);
      }
      return None;
    }

    /** None when there is no dead row with that id and task, or no workflow. */
    method ReplayDeadLetter(id: nat, task: TaskId, maxAttempts: nat, now: real)
      returns (replayed: Option<WorkflowState>)
      modifies this
      ensures replayed.Some? <==>
                && id < |old(queue)| && old(queue)[id].task == task && old(queue)[id].status.Dead?
                && task in old(workflows)
      ensures replayed.Some? ==>
                var row := old(workflows)[task];
                && replayed.value == row.state.(status := Queued, lastError := None, version := row.version + 1)
                && World() == old(World()).(
                     workflows := old(workflows)[task := WorkflowRow(replayed.value, row.version + 1)],
                     queue := old(queue)[id := QueueRow(task, Pending, 0, maxAttempts, now, None, None)],
                     events := old(events) + [Event(task, DlqReplayed)])
      ensures replayed.Some? <==> Tables.ReplayDeadLetter(old(World()), id, task, maxAttempts, now).Some?
      ensures World() == if replayed.Some? then Tables.ReplayDeadLetter(old(World()), id, task, maxAttempts,
                                                                        now).value else old(World())
      ensures replayed.Some? ==> replayed.value == workflows[task].state
    {
      if id >= |queue| || queue[id].task != task || !queue[id].status.Dead? || task !in workflows {
        return None;
      }
      var state, expectedVersion := workflows[task].state, workflows[task].version;
      state := state.(status := Queued);
      state := state.(lastError := None);
      state := state.(version := expectedVersion + 1);
      workflows := workflows[task := WorkflowRow(state, expectedVersion + 1)];
      queue := queue[id := queue[id].(status := Pending, attempts := 0, maxAttempts := maxAttempts, availableAt := now,
                                      leaseUntil := None, worker := None)];
      RecordEvent(task, DlqReplayed);
      return Some(state);
    }
  }
}
