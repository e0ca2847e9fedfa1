/** The five tables of the store, and each store call as one atomic update of them (store.py). */
module Tables {
  import opened Prelude
  import opened Models

  datatype RowStatus = Pending | Processing | Done | Dead

  datatype QueueRow = QueueRow(
    task: TaskId,
    status: RowStatus,
    attempts: nat,
    maxAttempts: nat,
    availableAt: real,
    leaseUntil: Option<real>,
    worker: Option<string>)
  {
    predicate Live() {
      status.Pending? || status.Processing?
    }
  }

  datatype EventKind =
    | WorkflowCreated
    | AgentDecisionStarted
    | ModelRetryableFailure
    | AgentDecisionMade
    | WorkflowCompleted
    | WorkflowFailed
    | LoopDetected
    | PolicyDenied
    | ApprovalRequired
    | ApprovedActionResumed
    | ToolRetryableFailure
    | ToolCompleted
    | DeadLetteredEvent
    | ApprovalGranted
    | ApprovalRejected
    | DlqReplayed
    | QueueLeaseExtended

  datatype Event = Event(task: TaskId, kind: EventKind)

  datatype LedgerRow = LedgerRow(task: TaskId, tool: Tool, argumentsHash: string, result: Json)

  datatype Verdict = Undecided | Approved | Rejected

  /** A workflows row: the stored checkpoint beside its version column. */
  datatype WorkflowRow = WorkflowRow(state: WorkflowState, version: nat)

  /** Row ids of the queue are its indices: rows are never deleted. */
  datatype World = World(
    workflows: map<TaskId, WorkflowRow>,
    queue: seq<QueueRow>,
    events: seq<Event>,
    ledger: map<ActionId, LedgerRow>,
    approvals: map<(TaskId, ActionId), Verdict>)

  const EMPTY_WORLD := World(map[], [], [], map[], map[])

  function NewRow(task: TaskId, maxAttempts: nat, now: real): QueueRow {
    QueueRow(task, Pending, 0, maxAttempts, now, None, None)
  }

  function RecordEvent(w: World, task: TaskId, kind: EventKind): World {
    w.(events := w.events + [Event(task, kind)])
  }

  /** None is the integrity error of a second row with the same task id. */
  function CreateWorkflow(w: World, state: WorkflowState, maxAttempts: nat, now: real): Option<World> {
    if state.taskId in w.workflows then None
    else Some(RecordEvent(w.(
      workflows := w.workflows[state.taskId := WorkflowRow(state, state.version)],
      queue := w.queue + [NewRow(state.taskId, maxAttempts, now)]), state.taskId, WorkflowCreated))
  }

  predicate VersionMatches(w: World, task: TaskId, expected: nat) {
    task in w.workflows && w.workflows[task].version == expected
  }

  /** None is the concurrent-update error: no row has the expected version. */
  function SaveWorkflow(w: World, state: WorkflowState, expected: nat): Option<World> {
    if VersionMatches(w, state.taskId, expected) then
      Some(w.(workflows := w.workflows[state.taskId := WorkflowRow(state.(version := expected + 1), expected + 1)]))
    else None
  }

  predicate LiveAt(queue: seq<QueueRow>, i: int, task: TaskId) {
    0 <= i < |queue| && queue[i].task == task && queue[i].Live()
  }

  predicate HasLive(queue: seq<QueueRow>, task: TaskId) {
    exists i | 0 <= i < |queue| :: LiveAt(queue, i, task)
  }

  /** A live row of the task makes this a no-op. */
  function Enqueue(w: World, task: TaskId, maxAttempts: nat, now: real): World {
    if HasLive(w.queue, task) then w else w.(queue := w.queue + [NewRow(task, maxAttempts, now)])
  }

  predicate Expired(row: QueueRow, now: real) {
    row.status.Processing? && row.leaseUntil.Some? && row.leaseUntil.value < now
  }

  function Released(row: QueueRow, now: real): QueueRow {
    if Expired(row, now) then row.(status := Pending, worker := None, leaseUntil := None) else row
  }

  function ReleaseExpired(queue: seq<QueueRow>, now: real): (r: seq<QueueRow>)
    ensures |r| == |queue|
    ensures forall i | 0 <= i < |queue| :: r[i] == Released(queue[i], now)
  {
    seq(|queue|, i requires 0 <= i < |queue| => Released(queue[i], now))
  }

  predicate Claimable(row: QueueRow, now: real) {
    row.status.Pending? && row.availableAt <= now
  }

  /** The lowest claimable row id from `i` on, or the number of rows. */
  function FirstClaimable(queue: seq<QueueRow>, now: real, i: nat): (r: nat)
    requires i <= |queue|
    ensures i <= r <= |queue|
    ensures r < |queue| ==> Claimable(queue[r], now)
    ensures forall j | i <= j < r :: !Claimable(queue[j], now)
    decreases |queue| - i
  {
    if i == |queue| || Claimable(queue[i], now) then i else FirstClaimable(queue, now, i + 1)
  }

  function TakenRow(row: QueueRow, worker: string, leaseUntil: real): QueueRow {
    row.(status := Processing, attempts := row.attempts + 1, worker := Some(worker), leaseUntil := Some(leaseUntil))
  }

  /** Expired leases are released first; then the lowest claimable row is leased. */
  function Claim(w: World, worker: string, leaseSeconds: real, now: real): (World, Option<Delivery>) {
    var queue := ReleaseExpired(w.queue, now);
    var i := FirstClaimable(queue, now, 0);
    if i == |queue| then (w.(queue := queue), None)
    else
      var row := TakenRow(queue[i], worker, now + leaseSeconds);
      (w.(queue := queue[i := row]), Some(Delivery(i, row.task, row.attempts, row.maxAttempts)))
  }

  lemma ClaimTouchesQueueOnly(w: World, worker: string, leaseSeconds: real, now: real)
    ensures var v := Claim(w, worker, leaseSeconds, now).0;
            v == w.(queue := v.queue)
  {
  }

  /** By id alone, whatever the row's status. */
  function Acknowledge(w: World, id: nat): World {
    if id < |w.queue| then w.(queue := w.queue[id := w.queue[id].(status := Done, leaseUntil := None)]) else w
  }

  function ExtendLease(w: World, id: nat, leaseSeconds: real, now: real): World {
    if id < |w.queue| && w.queue[id].status.Processing? then
      w.(queue := w.queue[id := w.queue[id].(leaseUntil := Some(now + leaseSeconds))])
    else w
  }

  function TwoToThe(n: nat): (r: real)
    ensures r >= 1.0
  {
    if n == 0 then 1.0 else 2.0 * TwoToThe(n - 1)
  }

  /** `min(60.0, base * 2 ** max(0, attempts - 1))`. */
  function RetryDelay(baseSeconds: real, attempts: nat): real {
    var delay := baseSeconds * TwoToThe(if attempts > 0 then attempts - 1 else 0);
    if delay < 60.0 then delay else 60.0
  }

  function RetryRow(row: QueueRow, d: Delivery, baseSeconds: real, now: real): QueueRow {
    if d.attempts >= d.maxAttempts then
      row.(status := Dead, availableAt := now, leaseUntil := None, worker := None)
    else
      row.(status := Pending, availableAt := now + RetryDelay(baseSeconds, d.attempts), leaseUntil := None, worker := None)
  }

  /** By id alone; the delivery's attempt count decides, not the row's. True means dead-lettered. */
  function RetryOrDeadLetter(w: World, d: Delivery, baseSeconds: real, now: real): (World, bool) {
    (if d.id < |w.queue| then w.(queue := w.queue[d.id := RetryRow(w.queue[d.id], d, baseSeconds, now)]) else w,
     d.attempts >= d.maxAttempts)
  }

  datatype Lookup = Missing | Found(result: Json) | HashConflict

  function GetToolResult(w: World, key: ActionId, argumentsHash: string): Lookup {
    if key !in w.ledger then Missing
    else if w.ledger[key].argumentsHash != argumentsHash then HashConflict
    else Found(w.ledger[key].result)
  }

  /** Insert or ignore. */
  function SaveToolResult(w: World, key: ActionId, row: LedgerRow): World {
    if key in w.ledger then w else w.(ledger := w.ledger[key := row])
  }

  /** Insert or ignore. */
  function CreateApproval(w: World, task: TaskId, action: ActionId): World {
    if (task, action) in w.approvals then w else w.(approvals := w.approvals[(task, action) := Undecided])
  }

  /** None is the error raised unless exactly one undecided row was updated. */
  function ResolveApproval(w: World, task: TaskId, action: ActionId, approved: bool): Option<World> {
    if (task, action) in w.approvals && w.approvals[(task, action)].Undecided? then
      Some(w.(approvals := w.approvals[(task, action) := if approved then Approved else Rejected]))
    else None
  }

  predicate IsApproved(w: World, task: TaskId, action: ActionId) {
    (task, action) in w.approvals && w.approvals[(task, action)].Approved?
  }

  predicate Replayable(w: World, id: nat, task: TaskId) {
    id < |w.queue| && w.queue[id].task == task && w.queue[id].status.Dead? && task in w.workflows
  }

  function ReplayedState(state: WorkflowState, version: nat): WorkflowState {
    state.(status := Queued, lastError := None, version := version + 1)
  }

  /** Row and checkpoint move in one transaction. */
  function ReplayDeadLetter(w: World, id: nat, task: TaskId, maxAttempts: nat, now: real): Option<World> {
    if !Replayable(w, id, task) then None
    else
      var version := w.workflows[task].version;
      Some(RecordEvent(w.(
        workflows := w.workflows[task := WorkflowRow(ReplayedState(w.workflows[task].state, version), version + 1)],
        queue := w.queue[id := QueueRow(task, Pending, 0, maxAttempts, now, None, None)]), task, DlqReplayed))
  }
}
