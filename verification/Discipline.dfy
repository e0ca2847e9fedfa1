/**
 The system under the three operating hypotheses:
 (H1) a row is not claimed again while the worker that holds it is alive;
 (H2) settling a delivery, and an approval or rejection request, is one step;
 (H3) no approval or rejection is accepted while a live worker has the workflow loaded; one that the code
 refuses may come at any time.
 Workers still crash after any other store call, and still interleave with everything else.
 */
module Discipline {
  import opened Prelude
  import opened Models
  import opened Tables
  import opened Machine
  import opened System
  import opened Refinement

  /** A step, and the clock for what it settles. */
  datatype Turn = Turn(step: Step, settling: Answer)

  predicate Settling(pc: Pc) {
    pc.Acknowledging? || pc.Retrying?
  }

  /** Run one process alone for at most n steps. */
  function Drain(cfg: Config, s: Sys, pid: nat, a: Answer, n: nat): Sys
    requires cfg.repeatThreshold > 0
    decreases n
  {
    if n == 0 || pid !in s.procs || !s.procs[pid].Live() then s
    else Drain(cfg, DoAdvance(cfg, s, pid, a), pid, a, n - 1)
  }

  /** Every settlement and every request ends within five steps. */
  const SETTLEMENT_STEPS: nat := 5

  predicate WorkerLives(s: Sys, pid: nat) {
    pid in s.procs && s.procs[pid].Live()
  }

  predicate LeaseLost(s: Sys, pid: nat, now: real) {
    && WorkerLives(s, pid)
    && s.procs[pid].delivery.Some?
    && s.procs[pid].delivery.value.id < |s.world.queue|
    && Expired(s.world.queue[s.procs[pid].delivery.value.id], now)
  }

  predicate LoadedOn(s: Sys, pid: nat, task: TaskId) {
    WorkerLives(s, pid) && s.procs[pid].task == task && s.procs[pid].base.Some?
  }

  predicate AwaitsVerdict(w: World, task: TaskId) {
    && task in w.workflows
    && w.workflows[task].state.status.WaitingForApproval?
    && w.workflows[task].state.pendingAction.Some?
  }

  /** A request that finds the workflow waiting on an undecided action. */
  predicate MayResolve(w: World, task: TaskId) {
    && AwaitsVerdict(w, task)
    && var key := (task, w.workflows[task].state.pendingAction.value.actionId);
    && key in w.approvals && w.approvals[key].Undecided?
  }

  /** A verdict that would be accepted finds no live worker with the workflow loaded. */
  predicate VerdictPermitted(s: Sys, pid: nat, task: TaskId) {
    pid !in s.procs && (MayResolve(s.world, task) ==> forall w | w in s.procs :: !LoadedOn(s, w, task))
  }

  predicate Permitted(s: Sys, step: Step) {
    match step
    case ClaimNext(pid, _, now) =>
      pid !in s.procs && forall holder | holder in s.procs :: !LeaseLost(s, holder, now)
    case RequestApproval(pid, task) => VerdictPermitted(s, pid, task)
    case RequestRejection(pid, task, _) => VerdictPermitted(s, pid, task)
    case Advance(pid, _) => WorkerLives(s, pid)
    case Crash(pid) => WorkerLives(s, pid)
    case _ => true
  }

  function Take(cfg: Config, s: Sys, turn: Turn): Sys
    requires cfg.repeatThreshold > 0
  {
    if !Permitted(s, turn.step) then s
    else match turn.step
      case Advance(pid, answer) =>
        if Settling(s.procs[pid].pc) then Drain(cfg, s, pid, answer, SETTLEMENT_STEPS)
        else DoAdvance(cfg, s, pid, answer)
      case RequestApproval(pid, _) => Drain(cfg, Do(cfg, s, turn.step), pid, turn.settling, SETTLEMENT_STEPS)
      case RequestRejection(pid, _, _) => Drain(cfg, Do(cfg, s, turn.step), pid, turn.settling, SETTLEMENT_STEPS)
      case _ => Do(cfg, s, turn.step)
  }

  // ----- the clock of a run -----

  /** What the turn reads from the clock. */
  function Reading(turn: Turn): Option<real> {
    if turn.step.RequestApproval? || turn.step.RequestRejection? then Some(turn.settling.now) else StepReading(turn.step)
  }

  function ClockAfter(turn: Turn, clock: real): real {
    if Reading(turn).Some? then Reading(turn).value else clock
  }

  /** Neither engine nor backend ends the process. */
  predicate CalmAnswer(a: Answer) {
    !a.engine.EngineCrash? && !a.backend.BackendCrash?
  }

  /** Nobody crashes, and nothing is replayed. */
  predicate Calm(turn: Turn) {
    !turn.step.Crash? && !turn.step.ReplayRow? && (turn.step.Advance? ==> CalmAnswer(turn.step.answer))
  }

  /** The times between which turns read the clock, and whether all of them have to be calm. */
  datatype Pace = Pace(from: real, until: real, calm: bool)

  /** The clock never goes back. */
  predicate Paced(turns: seq<Turn>, pace: Pace)
    decreases |turns|
  {
    if turns == [] then pace.from <= pace.until
    else
      && pace.from <= ClockAfter(turns[0], pace.from) && (pace.calm ==> Calm(turns[0]))
      && Paced(turns[1..], pace.(from := ClockAfter(turns[0], pace.from)))
  }

  /** Readings are in order, none is before the start, and the end is not before any. */
  predicate InOrder(turns: seq<Turn>, from: real, until: real) {
    && from <= until
    && (forall i | 0 <= i < |turns| && Reading(turns[i]).Some? :: from <= Reading(turns[i]).value <= until)
    && (forall i, j | 0 <= i < j < |turns| && Reading(turns[i]).Some? && Reading(turns[j]).Some? ::
          Reading(turns[i]).value <= Reading(turns[j]).value)
  }

  lemma InOrderAdds(turns: seq<Turn>, turn: Turn, from: real, until: real)
    requires InOrder(turns, from, until) && until <= ClockAfter(turn, until)
    ensures InOrder(turns + [turn], from, ClockAfter(turn, until))
  {
    hide Reading;
  }

  lemma InOrderJoin(turns: seq<Turn>, more: seq<Turn>, from: real, now: real, until: real)
    requires InOrder(turns, from, now) && InOrder(more, now, until)
    ensures InOrder(turns + more, from, until)
  {
    hide Reading;
    assert forall i | |turns| <= i < |turns + more| :: (turns + more)[i] == more[i - |turns|];
  }

  lemma {:induction false} PacedInOrder(turns: seq<Turn>, pace: Pace)
    requires Paced(turns, pace)
    ensures InOrder(turns, pace.from, pace.until) && (pace.calm ==> forall i | 0 <= i < |turns| :: Calm(turns[i]))
    decreases |turns|
  {
    hide Reading, Calm;
    if turns != [] {
      PacedInOrder(turns[1..], pace.(from := ClockAfter(turns[0], pace.from)));
      assert forall i | 0 < i < |turns| :: turns[i] == turns[1..][i - 1];
    }
  }

  lemma {:induction false} PacedJoin(turns: seq<Turn>, more: seq<Turn>, pace: Pace, now: real)
    requires Paced(turns, pace.(until := now)) && Paced(more, pace.(from := now))
    ensures Paced(turns + more, pace)
    decreases |turns|
  {
    hide Reading, Calm;
    if turns == [] {
      assert turns + more == more;
      PacedEarlier(more, pace, now);
    } else {
      PacedJoin(turns[1..], more, pace.(from := ClockAfter(turns[0], pace.from)), now);
      assert (turns + more)[0] == turns[0] && (turns + more)[1..] == turns[1..] + more;
    }
  }

  /** Turns that begin later begin late enough. */
  lemma {:induction false} PacedEarlier(turns: seq<Turn>, pace: Pace, now: real)
    requires pace.from <= now && Paced(turns, pace.(from := now))
    ensures Paced(turns, pace)
    decreases |turns|
  {
    hide Reading, Calm;
    if turns != [] && Reading(turns[0]).None? {
      PacedEarlier(turns[1..], pace, now);
    }
  }

  function Play(cfg: Config, turns: seq<Turn>): Sys
    requires cfg.repeatThreshold > 0
  {
    if turns == [] then INITIAL else Take(cfg, Play(cfg, turns[..|turns| - 1]), turns[|turns| - 1])
  }

  /** One turn of a disciplined run, in its sequence of states. */
  ghost predicate TurnAt(cfg: Config, turns: seq<Turn>, trace: seq<Sys>, i: nat)
    requires cfg.repeatThreshold > 0 && i < |turns| && |trace| == |turns| + 1
  {
    trace[i + 1] == Take(cfg, trace[i], turns[i])
  }

  /** The states of a disciplined run, from empty tables. */
  ghost predicate IsPlay(cfg: Config, turns: seq<Turn>, trace: seq<Sys>)
    requires cfg.repeatThreshold > 0
  {
    |trace| == |turns| + 1 && trace[0] == INITIAL && forall i: nat | i < |turns| :: TurnAt(cfg, turns, trace, i)
  }

  /** The turns lead from empty tables to `s`. */
  ghost predicate PlayedBy(cfg: Config, turns: seq<Turn>, s: Sys)
    requires cfg.repeatThreshold > 0
  {
    exists trace :: IsPlay(cfg, turns, trace) && trace[|turns|] == s
  }

  lemma {:induction false} TraceIsPlay(cfg: Config, turns: seq<Turn>, trace: seq<Sys>)
    requires cfg.repeatThreshold > 0 && IsPlay(cfg, turns, trace)
    ensures trace[|turns|] == Play(cfg, turns)
  {
    hide Take;
    if turns != [] {
      var n := |turns| - 1;
      var fewer, shorter := turns[..n], trace[..n + 1];
      forall i: nat | i < n ensures TurnAt(cfg, fewer, shorter, i) {
        assert TurnAt(cfg, turns, trace, i);
      }
      TraceIsPlay(cfg, fewer, shorter);
      assert TurnAt(cfg, turns, trace, n);
    }
  }

  lemma PlayedIsPlay(cfg: Config, turns: seq<Turn>, s: Sys)
    requires cfg.repeatThreshold > 0 && PlayedBy(cfg, turns, s)
    ensures s == Play(cfg, turns)
  {
    hide Play, Take;
    var trace :| IsPlay(cfg, turns, trace) && trace[|turns|] == s;
    TraceIsPlay(cfg, turns, trace);
  }

  function Continue(cfg: Config, s: Sys, turns: seq<Turn>): Sys
    requires cfg.repeatThreshold > 0
    decreases |turns|
  {
    if turns == [] then s else Continue(cfg, Take(cfg, s, turns[0]), turns[1..])
  }

  lemma {:induction false} ContinueIsPlay(cfg: Config, turns: seq<Turn>, more: seq<Turn>)
    requires cfg.Valid()
    ensures Continue(cfg, Play(cfg, turns), more) == Play(cfg, turns + more)
    decreases |more|
  {
    hide Take;
    if more == [] {
      assert turns + more == turns;
    } else {
      assert (turns + [more[0]])[..|turns|] == turns;
      ContinueIsPlay(cfg, turns + [more[0]], more[1..]);
      assert turns + more == (turns + [more[0]]) + more[1..];
    }
  }

  // ----- every disciplined run is a run of the unrestricted system -----

  lemma {:induction false} DrainIsRun(cfg: Config, steps: seq<Step>, pid: nat, a: Answer, n: nat)
    returns (more: seq<Step>)
    requires cfg.Valid()
    ensures Run(cfg, more) == Drain(cfg, Run(cfg, steps), pid, a, n) && OnlyAdds(steps, more, Advance(pid, a))
    decreases n
  {
    hide Run, DoAdvance;
    var s := Run(cfg, steps);
    if n == 0 || pid !in s.procs || !s.procs[pid].Live() {
      more := steps;
    } else {
      RunSnoc(cfg, steps, Advance(pid, a));
      more := DrainIsRun(cfg, steps + [Advance(pid, a)], pid, a, n - 1);
      assert more[|steps|] == (steps + [Advance(pid, a)])[|steps|];
    }
  }

  /** The latest time before the last turn. */
  function BeforeLast(turns: seq<Turn>, until: real): real
    requires turns != []
  {
    if Reading(turns[|turns| - 1]).Some? then Reading(turns[|turns| - 1]).value else until
  }

  lemma InOrderBefore(turns: seq<Turn>, from: real, until: real)
    requires turns != [] && InOrder(turns, from, until)
    ensures InOrder(turns[..|turns| - 1], from, BeforeLast(turns, until)) && BeforeLast(turns, until) <= until
  {
    hide Reading;
  }

  /** The steps of the last turn, at its time. */
  lemma LastTurnIsRun(cfg: Config, turns: seq<Turn>, before: seq<Step>, from: real, until: real)
    returns (steps: seq<Step>)
    requires cfg.Valid() && turns != []
    ensures Run(cfg, steps) == Take(cfg, Run(cfg, before), turns[|turns| - 1])
    ensures InOrder(turns, from, until) && Timely(before, from, BeforeLast(turns, until)) ==> Timely(steps, from, until)
  {
    hide Run, Drain, DoAdvance, DoClaim, DoCreate, DoReplay, DoCrash, DoRequest, Timely, OnlyAdds, InOrder,
         LeaseLost, LoadedOn;
    var turn, s, now := turns[|turns| - 1], Run(cfg, before), BeforeLast(turns, until);
    var step := turn.step;
    RunSnoc(cfg, before, step);
    AddsOne(before, step);
    if !Permitted(s, step) {
      steps := before;
      AddsNothing(before, step);
    } else if step.Advance? && Settling(s.procs[step.pid].pc) {
      steps := DrainIsRun(cfg, before, step.pid, step.answer, SETTLEMENT_STEPS);
    } else if step.RequestApproval? || step.RequestRejection? {
      steps := DrainIsRun(cfg, before + [step], step.pid, turn.settling, SETTLEMENT_STEPS);
    } else {
      steps := before + [step];
    }
    if InOrder(turns, from, until) && Timely(before, from, now) {
      InOrderBefore(turns, from, until);
      if step.RequestApproval? || step.RequestRejection? {
        TimelyAdds(before, before + [step], step, from, now, now);
        if Permitted(s, step) {
          TimelyAdds(before + [step], steps, Advance(step.pid, turn.settling), from, now, now);
        }
      } else {
        TimelyAdds(before, steps, step, from, now, now);
      }
      TimelyUntil(steps, from, now, until);
    }
  }

  lemma AddsOne(steps: seq<Step>, step: Step)
    ensures OnlyAdds(steps, steps + [step], step)
  {
  }

  lemma AddsNothing(steps: seq<Step>, step: Step)
    ensures OnlyAdds(steps, steps, step)
  {
  }

  lemma TimelyUntil(steps: seq<Step>, from: real, now: real, until: real)
    requires Timely(steps, from, now) && now <= until
    ensures Timely(steps, from, until)
  {
    hide StepReading;
  }

  /** Every disciplined run is a run of the unrestricted system, at the same times. */
  lemma {:induction false} DisciplinedRunsAreRuns(cfg: Config, turns: seq<Turn>, from: real, until: real)
    returns (steps: seq<Step>)
    requires cfg.Valid()
    ensures Run(cfg, steps) == Play(cfg, turns) && (InOrder(turns, from, until) ==> Timely(steps, from, until))
    decreases |turns|
  {
    hide Take, Do, Reading;
    if turns == [] {
      steps := [];
    } else {
      var before := DisciplinedRunsAreRuns(cfg, turns[..|turns| - 1], from, BeforeLast(turns, until));
      steps := LastTurnIsRun(cfg, turns, before, from, until);
      if InOrder(turns, from, until) {
        InOrderBefore(turns, from, until);
      }
    }
  }

  lemma PlayInv(cfg: Config, turns: seq<Turn>)
    requires cfg.Valid()
    ensures Inv(cfg, Play(cfg, turns))
  {
    var steps := DisciplinedRunsAreRuns(cfg, turns, 0.0, 0.0);
    RunInv(cfg, steps);
  }
}
