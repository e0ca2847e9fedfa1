/** How single-row updates change which rows of a task are live or dead. */
module QueueShape {
  import opened Models
  import opened Tables

  predicate DeadAt(queue: seq<QueueRow>, i: int, task: TaskId) {
    0 <= i < |queue| && queue[i].task == task && queue[i].status.Dead?
  }

  predicate HasDead(queue: seq<QueueRow>, task: TaskId) {
    exists i | 0 <= i < |queue| :: DeadAt(queue, i, task)
  }

  predicate AtMostOneLive(queue: seq<QueueRow>, task: TaskId) {
    forall i, j | 0 <= i < |queue| && 0 <= j < |queue| :: LiveAt(queue, i, task) && LiveAt(queue, j, task) ==> i == j
  }

  predicate AtMostOneDead(queue: seq<QueueRow>, task: TaskId) {
    forall i, j | 0 <= i < |queue| && 0 <= j < |queue| :: DeadAt(queue, i, task) && DeadAt(queue, j, task) ==> i == j
  }

  /** The rows a task may have, given the status of its workflow. */
  predicate RowsFit(queue: seq<QueueRow>, task: TaskId, status: Status) {
    && AtMostOneLive(queue, task)
    && AtMostOneDead(queue, task)
    && (status.Queued? || status.Running? ==> HasLive(queue, task))
    && (status.DeadLettered? <==> HasDead(queue, task))
    && (status.DeadLettered? ==> !HasLive(queue, task))
  }

  /** Rows keep their task, and stay live or dead. */
  predicate SameShape(before: seq<QueueRow>, after: seq<QueueRow>) {
    && |before| == |after|
    && forall i | 0 <= i < |before| ::
         before[i].task == after[i].task
         && before[i].Live() == after[i].Live()
         && before[i].status.Dead? == after[i].status.Dead?
  }

  lemma SameShapeFits(before: seq<QueueRow>, after: seq<QueueRow>, task: TaskId, status: Status)
    requires SameShape(before, after) && RowsFit(before, task, status)
    ensures RowsFit(after, task, status)
  {
    assert forall i | 0 <= i < |before| :: LiveAt(before, i, task) == LiveAt(after, i, task);
    assert forall i | 0 <= i < |before| :: DeadAt(before, i, task) == DeadAt(after, i, task);
  }

  /** A row of one task says nothing about another task. */
  lemma OtherTaskFits(queue: seq<QueueRow>, i: nat, row: QueueRow, task: TaskId, status: Status)
    requires i < |queue| && row.task == queue[i].task != task && RowsFit(queue, task, status)
    ensures RowsFit(queue[i := row], task, status)
  {
    var after := queue[i := row];
    assert forall j | 0 <= j < |queue| :: LiveAt(queue, j, task) == LiveAt(after, j, task);
    assert forall j | 0 <= j < |queue| :: DeadAt(queue, j, task) == DeadAt(after, j, task);
  }

  lemma AppendOtherFits(queue: seq<QueueRow>, row: QueueRow, task: TaskId, status: Status)
    requires row.task != task && RowsFit(queue, task, status)
    ensures RowsFit(queue + [row], task, status)
  {
    var after := queue + [row];
    assert forall j | 0 <= j < |queue| :: LiveAt(queue, j, task) == LiveAt(after, j, task);
    assert forall j | 0 <= j < |queue| :: DeadAt(queue, j, task) == DeadAt(after, j, task);
    assert !LiveAt(after, |queue|, task) && !DeadAt(after, |queue|, task);
  }

  /** The only live row leaves the queue: done, or dead. */
  lemma LastLiveLeaves(queue: seq<QueueRow>, i: nat, row: QueueRow, status: Status, next: Status)
    requires i < |queue| && queue[i].Live() && row.task == queue[i].task && !row.Live()
    requires RowsFit(queue, row.task, status) && !status.DeadLettered?
    requires row.status.Dead? <==> next.DeadLettered?
    requires !next.Queued? && !next.Running?
    ensures RowsFit(queue[i := row], row.task, next) && !HasLive(queue[i := row], row.task)
  {
    var after := queue[i := row];
    assert LiveAt(queue, i, row.task);
    forall j | 0 <= j < |queue| ensures !LiveAt(after, j, row.task) {
      if j != i { assert LiveAt(after, j, row.task) == LiveAt(queue, j, row.task); }
    }
    forall j | 0 <= j < |queue| ensures DeadAt(after, j, row.task) <==> j == i && row.status.Dead? {
      if j != i { assert DeadAt(after, j, row.task) == DeadAt(queue, j, row.task); }
    }
    assert DeadAt(after, i, row.task) == row.status.Dead?;
  }

  /** A row is added for a task without a live row. */
  lemma AppendFits(queue: seq<QueueRow>, row: QueueRow, status: Status, next: Status)
    requires RowsFit(queue, row.task, status) && !HasLive(queue, row.task) && row.status.Pending?
    requires !status.DeadLettered? && !next.DeadLettered?
    ensures RowsFit(queue + [row], row.task, next)
  {
    var after := queue + [row];
    assert forall j | 0 <= j < |queue| :: LiveAt(queue, j, row.task) == LiveAt(after, j, row.task);
    assert forall j | 0 <= j < |queue| :: DeadAt(queue, j, row.task) == DeadAt(after, j, row.task);
    assert LiveAt(after, |queue|, row.task) && !DeadAt(after, |queue|, row.task);
  }

  /** The dead row of a task is pending again. */
  lemma DeadRowReturns(queue: seq<QueueRow>, i: nat, row: QueueRow, next: Status)
    requires i < |queue| && queue[i].status.Dead? && row.task == queue[i].task && row.status.Pending?
    requires RowsFit(queue, row.task, DeadLettered) && !next.DeadLettered?
    ensures RowsFit(queue[i := row], row.task, next)
  {
    var after := queue[i := row];
    assert DeadAt(queue, i, row.task);
    forall j | 0 <= j < |queue| ensures LiveAt(after, j, row.task) <==> j == i {
      if j != i {
        assert LiveAt(after, j, row.task) == LiveAt(queue, j, row.task);
      }
    }
    forall j | 0 <= j < |queue| ensures !DeadAt(after, j, row.task) {
      if j != i { assert DeadAt(after, j, row.task) == DeadAt(queue, j, row.task); }
    }
    assert LiveAt(after, i, row.task);
  }

  /** A live row is enough for any status that is not dead-lettered. */
  lemma StatusChangeFits(queue: seq<QueueRow>, task: TaskId, status: Status, next: Status)
    requires RowsFit(queue, task, status) && !status.DeadLettered? && !next.DeadLettered?
    requires HasLive(queue, task) || (!next.Queued? && !next.Running?)
    ensures RowsFit(queue, task, next)
  {
  }
}
