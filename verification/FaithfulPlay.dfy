/** Disciplined runs with faithful answers, as one run; and what such a run can still reach. */
module FaithfulPlay {
  import opened Prelude
  import opened Models
  import opened Tables
  import opened Checkpoints
  import opened CheckpointFacts
  import opened Machine
  import opened System
  import opened Refinement
  import opened ApprovalGate
  import opened Discipline
  import opened LiveRows
  import opened LiveRuns
  import opened Holders
  import opened Effects
  import opened Reference
  import opened ReferenceRuns
  import opened Solo
  import opened Paths

  /** With fixtures the step of the turn is faithful. */
  predicate HonestTurn(fx: Option<Fixtures>, s: Sys, turn: Turn) {
    fx.Some? ==> Faithful(fx.value, s, turn.step)
  }

  predicate HonestAt(fx: Option<Fixtures>, turns: seq<Turn>, trace: seq<Sys>, i: nat)
    requires i < |turns| && |trace| == |turns| + 1
  {
    HonestTurn(fx, trace[i], turns[i])
  }

  ghost predicate HonestPlay(cfg: Config, fx: Option<Fixtures>, turns: seq<Turn>, trace: seq<Sys>)
    requires cfg.repeatThreshold > 0
  {
    IsPlay(cfg, turns, trace) && forall i: nat | i < |turns| :: HonestAt(fx, turns, trace, i)
  }

  ghost predicate HonestlyPlayed(cfg: Config, fx: Option<Fixtures>, turns: seq<Turn>, s: Sys)
    requires cfg.repeatThreshold > 0
  {
    exists trace :: HonestPlay(cfg, fx, turns, trace) && trace[|turns|] == s
  }

  /** Turns of a disciplined run in which engine and backend, when they answer, answer by policy and scenario. */
  ghost predicate FaithfullyPlayed(cfg: Config, fx: Fixtures, turns: seq<Turn>, s: Sys)
    requires cfg.repeatThreshold > 0
  {
    HonestlyPlayed(cfg, Some(fx), turns, s)
  }

  lemma NothingPlayed(cfg: Config, fx: Option<Fixtures>)
    requires cfg.Valid()
    ensures HonestlyPlayed(cfg, fx, [], INITIAL)
  {
    assert HonestPlay(cfg, fx, [], [INITIAL]);
  }

  lemma HonestIsPlayed(cfg: Config, fx: Option<Fixtures>, turns: seq<Turn>, s: Sys)
    requires cfg.Valid() && HonestlyPlayed(cfg, fx, turns, s)
    ensures PlayedBy(cfg, turns, s)
  {
    hide TurnAt, HonestAt;
  }

  lemma HonestExtends(cfg: Config, fx: Option<Fixtures>, turns: seq<Turn>, s: Sys, turn: Turn)
    requires cfg.Valid() && HonestlyPlayed(cfg, fx, turns, s) && HonestTurn(fx, s, turn)
    ensures HonestlyPlayed(cfg, fx, turns + [turn], Take(cfg, s, turn))
  {
    hide Take, HonestTurn;
    var trace :| HonestPlay(cfg, fx, turns, trace) && trace[|turns|] == s;
    var longer, states := turns + [turn], trace + [Take(cfg, s, turn)];
    forall i: nat | i < |longer| ensures TurnAt(cfg, longer, states, i) && HonestAt(fx, longer, states, i) {
      if i < |turns| {
        assert TurnAt(cfg, turns, trace, i) && HonestAt(fx, turns, trace, i);
      }
    }
    assert HonestPlay(cfg, fx, longer, states);
  }

  // ----- what holds along such a run -----

  /** A leased row says until when. */
  predicate LeasesSet(queue: seq<QueueRow>) {
    forall i | 0 <= i < |queue| :: queue[i].status.Processing? ==> queue[i].leaseUntil.Some?
  }

  ghost predicate Sound(cfg: Config, fx: Option<Fixtures>, s: Sys)
    requires cfg.Valid()
  {
    && LiveInv(cfg, s) && LeasesSet(s.world.queue) && ApprovalsWereAskedFor(s)
    && (fx.Some? ==> ReferenceInv(cfg, fx.value, s))
  }

  lemma StepKeepsLeases(cfg: Config, w: World, p: Proc, a: Answer)
    requires cfg.Valid() && LeasesSet(w.queue)
    ensures LeasesSet(StepProc(cfg, w, p, a).0.queue)
  {
    hide Effect, AfterLoad, AfterEngine, Execute, AfterSave, LookupStep, ResumeStep, EngineStep, AfterBackend,
         RetryDelay, HasLive;
  }

  lemma DoKeepsLeases(cfg: Config, s: Sys, step: Step)
    requires cfg.Valid() && LeasesSet(s.world.queue)
    ensures LeasesSet(Do(cfg, s, step).world.queue)
  {
    hide StepProc, LogAfter, SeenNow, Apply, LostByCrash;
    if step.Advance? && step.pid in s.procs {
      StepKeepsLeases(cfg, s.world, s.procs[step.pid], step.answer);
    }
  }

  lemma {:induction false} DrainKeepsLeases(cfg: Config, s: Sys, pid: nat, a: Answer, n: nat)
    requires cfg.Valid() && LeasesSet(s.world.queue)
    ensures LeasesSet(Drain(cfg, s, pid, a, n).world.queue)
    decreases n
  {
    hide DoAdvance, LeasesSet;
    if n > 0 && pid in s.procs && s.procs[pid].Live() {
      DoKeepsLeases(cfg, s, Advance(pid, a));
      DrainKeepsLeases(cfg, DoAdvance(cfg, s, pid, a), pid, a, n - 1);
    }
  }

  lemma QuestionsAreUnsettled(p: Proc, fx: Fixtures, a: Answer)
    requires !Unsettled(p.pc) || Settling(p.pc)
    ensures AnswersFaithfully(fx, p, a)
  {
  }

  /** Settling, and serving a request, asks nobody. */
  lemma {:induction false} DrainKeepsReference(cfg: Config, fx: Fixtures, s: Sys, pid: nat, a: Answer, n: nat)
    requires cfg.Valid() && ReferenceInv(cfg, fx, s) && pid in s.procs
    requires !Unsettled(s.procs[pid].pc) || Settling(s.procs[pid].pc)
    ensures ReferenceInv(cfg, fx, Drain(cfg, s, pid, a, n))
    decreases n
  {
    hide StepProc, LogAfter, SeenNow, ReferenceInv, AnswersFaithfully;
    if n > 0 && s.procs[pid].Live() {
      QuestionsAreUnsettled(s.procs[pid], fx, a);
      DoKeepsReference(cfg, fx, s, Advance(pid, a));
      SettlesOnce(cfg, s.world, s.procs[pid], a);
      DrainKeepsReference(cfg, fx, DoAdvance(cfg, s, pid, a), pid, a, n - 1);
    }
  }

  lemma TakeKeepsReference(cfg: Config, fx: Fixtures, s: Sys, turn: Turn)
    requires cfg.Valid() && ReferenceInv(cfg, fx, s) && Faithful(fx, s, turn.step)
    ensures ReferenceInv(cfg, fx, Take(cfg, s, turn))
  {
    hide Do, DoAdvance, Drain, ReferenceInv, Faithful, LeaseLost, LoadedOn;
    if Permitted(s, turn.step) {
      if turn.step.Advance? && Settling(s.procs[turn.step.pid].pc) {
        DrainKeepsReference(cfg, fx, s, turn.step.pid, turn.step.answer, SETTLEMENT_STEPS);
      } else if turn.step.RequestApproval? || turn.step.RequestRejection? {
        DoKeepsReference(cfg, fx, s, turn.step);
        RequestBegins(cfg, s, turn.step);
        DrainKeepsReference(cfg, fx, Do(cfg, s, turn.step), turn.step.pid, turn.settling, SETTLEMENT_STEPS);
      } else {
        PlainTurn(cfg, s, turn);
        DoKeepsReference(cfg, fx, s, turn.step);
      }
    }
  }

  lemma RequestBegins(cfg: Config, s: Sys, step: Step)
    requires cfg.Valid() && Permitted(s, step) && (step.RequestApproval? || step.RequestRejection?)
    ensures var r := Do(cfg, s, step);
            step.pid in r.procs && !Unsettled(r.procs[step.pid].pc)
  {
    hide DoAdvance, DoClaim, DoCreate, DoReplay, DoCrash;
  }

  lemma TakeKeepsLeases(cfg: Config, s: Sys, turn: Turn)
    requires cfg.Valid() && LeasesSet(s.world.queue)
    ensures LeasesSet(Take(cfg, s, turn).world.queue)
  {
    hide Do, DoAdvance, Drain, LeasesSet, LeaseLost, LoadedOn;
    if Permitted(s, turn.step) {
      if turn.step.Advance? && Settling(s.procs[turn.step.pid].pc) {
        DrainKeepsLeases(cfg, s, turn.step.pid, turn.step.answer, SETTLEMENT_STEPS);
      } else if turn.step.RequestApproval? || turn.step.RequestRejection? {
        DoKeepsLeases(cfg, s, turn.step);
        DrainKeepsLeases(cfg, Do(cfg, s, turn.step), turn.step.pid, turn.settling, SETTLEMENT_STEPS);
      } else {
        PlainTurn(cfg, s, turn);
        DoKeepsLeases(cfg, s, turn.step);
      }
    }
  }

  lemma {:induction false} DrainKeepsAskedFor(cfg: Config, s: Sys, pid: nat, a: Answer, n: nat)
    requires cfg.Valid() && Inv(cfg, s) && ApprovalsWereAskedFor(s)
    ensures ApprovalsWereAskedFor(Drain(cfg, s, pid, a, n))
    decreases n
  {
    hide DoAdvance, Inv, ApprovalsWereAskedFor;
    if n > 0 && pid in s.procs && s.procs[pid].Live() {
      DoKeepsAskedFor(cfg, s, Advance(pid, a));
      AdvanceKeepsInv(cfg, s, pid, a);
      DrainKeepsAskedFor(cfg, DoAdvance(cfg, s, pid, a), pid, a, n - 1);
    }
  }

  lemma TakeKeepsAskedFor(cfg: Config, s: Sys, turn: Turn)
    requires cfg.Valid() && Inv(cfg, s) && ApprovalsWereAskedFor(s)
    ensures ApprovalsWereAskedFor(Take(cfg, s, turn))
  {
    hide Do, DoAdvance, Drain, Inv, ApprovalsWereAskedFor, LeaseLost, LoadedOn;
    if Permitted(s, turn.step) {
      if turn.step.Advance? && Settling(s.procs[turn.step.pid].pc) {
        DrainKeepsAskedFor(cfg, s, turn.step.pid, turn.step.answer, SETTLEMENT_STEPS);
      } else if turn.step.RequestApproval? || turn.step.RequestRejection? {
        DoKeepsAskedFor(cfg, s, turn.step);
        DoKeepsInv(cfg, s, turn.step);
        DrainKeepsAskedFor(cfg, Do(cfg, s, turn.step), turn.step.pid, turn.settling, SETTLEMENT_STEPS);
      } else {
        PlainTurn(cfg, s, turn);
        DoKeepsAskedFor(cfg, s, turn.step);
      }
    }
  }

  lemma TakeKeepsSound(cfg: Config, fx: Option<Fixtures>, s: Sys, turn: Turn)
    requires cfg.Valid() && Sound(cfg, fx, s) && HonestTurn(fx, s, turn)
    ensures Sound(cfg, fx, Take(cfg, s, turn))
  {
    hide Take, LiveInv, LeasesSet, ReferenceInv, Faithful, ApprovalsWereAskedFor;
    LiveInvHasInv(cfg, s);
    TakeKeepsAskedFor(cfg, s, turn);
    TakeKeepsLive(cfg, s, turn);
    TakeKeepsLeases(cfg, s, turn);
    if fx.Some? {
      TakeKeepsReference(cfg, fx.value, s, turn);
    }
  }

  lemma {:induction false} PlayKeepsSound(cfg: Config, fx: Option<Fixtures>, turns: seq<Turn>, trace: seq<Sys>, i: nat)
    requires cfg.Valid() && HonestPlay(cfg, fx, turns, trace) && i <= |turns|
    ensures Sound(cfg, fx, trace[i])
  {
    hide Take, HonestTurn;
    if i == 0 {
      RunInv(cfg, []);
    } else {
      PlayKeepsSound(cfg, fx, turns, trace, i - 1);
      assert TurnAt(cfg, turns, trace, i - 1) && HonestAt(fx, turns, trace, i - 1);
      TakeKeepsSound(cfg, fx, trace[i - 1], turns[i - 1]);
    }
  }

  lemma HonestRunsAreSound(cfg: Config, fx: Option<Fixtures>, turns: seq<Turn>, s: Sys)
    requires cfg.Valid() && HonestlyPlayed(cfg, fx, turns, s)
    ensures Sound(cfg, fx, s)
  {
    hide Sound, TurnAt, HonestAt;
    var trace :| HonestPlay(cfg, fx, turns, trace) && trace[|turns|] == s;
    PlayKeepsSound(cfg, fx, turns, trace, |turns|);
  }

  lemma SoundIsStored(cfg: Config, fx: Option<Fixtures>, s: Sys, task: TaskId)
    requires cfg.Valid() && Sound(cfg, fx, s) && task in s.world.workflows
    ensures Stored(s.world, task, s.world.workflows[task].state)
  {
    hide Inv, LiveInv, ReferenceInv, LeasesSet, WellFormed, ValidLog, ApprovalsWereAskedFor;
    LiveInvHasInv(cfg, s);
    LogIsOk(cfg, s, task);
    LogWellFormed(cfg, task, s.log[task], |s.log[task]| - 1);
    LastTask(cfg, task, s.log[task]);
  }

  // ----- continuations -----

  ghost predicate HonestFrom(cfg: Config, fx: Option<Fixtures>, s: Sys, turns: seq<Turn>)
    requires cfg.repeatThreshold > 0
    decreases |turns|
  {
    turns == [] || (HonestTurn(fx, s, turns[0]) && HonestFrom(cfg, fx, Take(cfg, s, turns[0]), turns[1..]))
  }

  /** More honest turns lead from `s` to `r`, at this pace. */
  ghost predicate Onward(cfg: Config, fx: Option<Fixtures>, pace: Pace, s: Sys, r: Sys)
    requires cfg.repeatThreshold > 0
  {
    exists more :: HonestFrom(cfg, fx, s, more) && Continue(cfg, s, more) == r && Paced(more, pace)
  }

  lemma {:induction false} HonestContinuation(cfg: Config, fx: Option<Fixtures>, turns: seq<Turn>, s: Sys,
          more: seq<Turn>)
    requires cfg.Valid() && HonestlyPlayed(cfg, fx, turns, s) && HonestFrom(cfg, fx, s, more)
    ensures HonestlyPlayed(cfg, fx, turns + more, Continue(cfg, s, more))
    decreases |more|
  {
    hide Take, HonestlyPlayed, HonestTurn;
    if more == [] {
      assert turns + more == turns;
    } else {
      HonestExtends(cfg, fx, turns, s, more[0]);
      HonestContinuation(cfg, fx, turns + [more[0]], Take(cfg, s, more[0]), more[1..]);
      assert turns + more == (turns + [more[0]]) + more[1..];
    }
  }

  lemma OnwardIsPlayed(cfg: Config, fx: Option<Fixtures>, pace: Pace, turns: seq<Turn>, s: Sys, r: Sys)
    returns (more: seq<Turn>)
    requires cfg.Valid() && HonestlyPlayed(cfg, fx, turns, s) && Onward(cfg, fx, pace, s, r)
    ensures HonestlyPlayed(cfg, fx, turns + more, r) && Paced(more, pace)
  {
    hide HonestlyPlayed, HonestFrom, Continue, Paced;
    more :| HonestFrom(cfg, fx, s, more) && Continue(cfg, s, more) == r && Paced(more, pace);
    HonestContinuation(cfg, fx, turns, s, more);
  }

  lemma OnwardSelf(cfg: Config, fx: Option<Fixtures>, pace: Pace, s: Sys)
    requires cfg.Valid() && pace.from <= pace.until
    ensures Onward(cfg, fx, pace, s, s)
  {
    assert HonestFrom(cfg, fx, s, []) && Continue(cfg, s, []) == s && Paced([], pace);
  }

  lemma OnwardFirst(cfg: Config, fx: Option<Fixtures>, pace: Pace, s: Sys, turn: Turn, r: Sys)
    requires cfg.Valid() && HonestTurn(fx, s, turn)
    requires pace.from <= ClockAfter(turn, pace.from) && (pace.calm ==> Calm(turn))
    requires Onward(cfg, fx, pace.(from := ClockAfter(turn, pace.from)), Take(cfg, s, turn), r)
    ensures Onward(cfg, fx, pace, s, r)
  {
    hide Take, HonestTurn, Calm, ClockAfter;
    var rest := pace.(from := ClockAfter(turn, pace.from));
    var more :| HonestFrom(cfg, fx, Take(cfg, s, turn), more) && Continue(cfg, Take(cfg, s, turn), more) == r && Paced(more, rest);
    var all := [turn] + more;
    assert all[0] == turn && all[1..] == more;
    assert HonestFrom(cfg, fx, s, all) && Continue(cfg, s, all) == r && Paced(all, pace);
  }

  lemma {:induction false} JoinFrom(cfg: Config, fx: Option<Fixtures>, s: Sys, turns: seq<Turn>, more: seq<Turn>)
    requires cfg.Valid() && HonestFrom(cfg, fx, s, turns) && HonestFrom(cfg, fx, Continue(cfg, s, turns), more)
    ensures HonestFrom(cfg, fx, s, turns + more)
    ensures Continue(cfg, s, turns + more) == Continue(cfg, Continue(cfg, s, turns), more)
    decreases |turns|
  {
    hide Take, HonestTurn;
    if turns == [] {
      assert turns + more == more;
    } else {
      JoinFrom(cfg, fx, Take(cfg, s, turns[0]), turns[1..], more);
      assert (turns + more)[0] == turns[0] && (turns + more)[1..] == turns[1..] + more;
    }
  }

  lemma OnwardJoin(cfg: Config, fx: Option<Fixtures>, pace: Pace, now: real, s: Sys, t: Sys, r: Sys)
    requires cfg.Valid() && Onward(cfg, fx, pace.(until := now), s, t) && Onward(cfg, fx, pace.(from := now), t, r)
    ensures Onward(cfg, fx, pace, s, r)
  {
    hide HonestFrom, Continue, Paced;
    var turns :| HonestFrom(cfg, fx, s, turns) && Continue(cfg, s, turns) == t && Paced(turns, pace.(until := now));
    var more :| HonestFrom(cfg, fx, t, more) && Continue(cfg, t, more) == r && Paced(more, pace.(from := now));
    JoinFrom(cfg, fx, s, turns, more);
    PacedJoin(turns, more, pace, now);
  }

  /** One more turn, at the end. */
  lemma OnwardTurn(cfg: Config, fx: Option<Fixtures>, pace: Pace, s: Sys, t: Sys, turn: Turn)
    requires cfg.Valid() && Onward(cfg, fx, pace, s, t) && HonestTurn(fx, t, turn)
    requires ClockAfter(turn, pace.until) == pace.until && (pace.calm ==> Calm(turn))
    ensures Onward(cfg, fx, pace, s, Take(cfg, t, turn))
  {
    hide Take, HonestTurn, Onward, Calm, ClockAfter;
    var last := pace.(from := pace.until);
    OnwardSelf(cfg, fx, last, Take(cfg, t, turn));
    OnwardFirst(cfg, fx, last, t, turn, Take(cfg, t, turn));
    OnwardJoin(cfg, fx, pace, pace.until, s, t, Take(cfg, t, turn));
  }

  // ----- the path of one worker is a continuation -----

  /** No backend result was lost in between. */
  ghost predicate SameLosses(s: Sys, r: Sys) {
    forall key :: r.seen[ResultLost(key)] == s.seen[ResultLost(key)]
  }

  lemma WorkerTurn(cfg: Config, fx: Option<Fixtures>, s: Sys, pid: nat, a: Answer)
    requires cfg.Valid() && Sound(cfg, fx, s) && WorkerLives(s, pid) && !Settling(s.procs[pid].pc)
    requires Honest(fx, s.procs[pid], a)
    ensures var turn := Turn(Advance(pid, a), a);
            var (v, q) := StepProc(cfg, s.world, s.procs[pid], a);
            var r := Take(cfg, s, turn);
            && HonestTurn(fx, s, turn) && Sound(cfg, fx, r)
            && r.world == v && r.procs == s.procs[pid := q] && SameLosses(s, r)
  {
    hide StepProc, Sound, LogAfter, AnswersFaithfully, Drain;
    TakeKeepsSound(cfg, fx, s, Turn(Advance(pid, a), a));
  }

  /** Everything at one time. */
  function At(now: real, calm: bool): Pace {
    Pace(now, now, calm)
  }

  lemma {:induction false} SmoothOnward(cfg: Config, fx: Option<Fixtures>, calm: bool, s: Sys, pid: nat, a: Answer,
          n: nat) returns (r: Sys)
    requires cfg.Valid() && Sound(cfg, fx, s) && pid in s.procs && Smooth(cfg, fx, s.world, s.procs[pid], a, n)
    requires calm ==> CalmAnswer(a)
    ensures Onward(cfg, fx, At(a.now, calm), s, r) && Sound(cfg, fx, r) && SameLosses(s, r)
    ensures r.world == Steps(cfg, s.world, s.procs[pid], a, n).0
    ensures r.procs == s.procs[pid := Steps(cfg, s.world, s.procs[pid], a, n).1]
    decreases n
  {
    hide StepProc, Take, Sound, HonestTurn, Honest, Onward, CalmAnswer;
    if n == 0 {
      r := s;
      OnwardSelf(cfg, fx, At(a.now, calm), s);
      assert s.procs == s.procs[pid := s.procs[pid]];
    } else {
      WorkerTurn(cfg, fx, s, pid, a);
      var t := Take(cfg, s, Turn(Advance(pid, a), a));
      r := SmoothOnward(cfg, fx, calm, t, pid, a, n - 1);
      assert r.procs == s.procs[pid := r.procs[pid]];
      OnwardFirst(cfg, fx, At(a.now, calm), s, Turn(Advance(pid, a), a), r);
    }
  }

  lemma LeadsOnward(cfg: Config, fx: Option<Fixtures>, calm: bool, s: Sys, pid: nat, a: Answer, v: World, q: Proc)
    returns (r: Sys)
    requires cfg.Valid() && Sound(cfg, fx, s) && pid in s.procs && Leads(cfg, fx, s.world, s.procs[pid], a, v, q)
    requires calm ==> CalmAnswer(a)
    ensures Onward(cfg, fx, At(a.now, calm), s, r) && Sound(cfg, fx, r) && SameLosses(s, r)
    ensures r.world == v && r.procs == s.procs[pid := q]
  {
    hide Sound, Onward, Steps, Smooth, CalmAnswer;
    var n: nat :| Smooth(cfg, fx, s.world, s.procs[pid], a, n) && Steps(cfg, s.world, s.procs[pid], a, n) == (v, q);
    r := SmoothOnward(cfg, fx, calm, s, pid, a, n);
  }
}
