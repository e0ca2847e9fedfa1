/**
 Rows of the queue in every run, whatever crashes and however requests and workers interleave: fairness
 between rows, and the spacing of retries. The only hypothesis is that no claim finds a lease run out.
 */
module Queueing {
  import opened Prelude
  import opened Models
  import opened Tables
  import opened System
  import opened Holders

  // ----- backoff -----

  /** The delays before the second to the n-th delivery, added up. */
  function BackoffSum(baseSeconds: real, n: nat): real {
    if n <= 1 then 0.0 else BackoffSum(baseSeconds, n - 1) + RetryDelay(baseSeconds, n - 1)
  }

  lemma NextDelay(baseSeconds: real, attempts: nat)
    requires baseSeconds >= 0.0
    ensures RetryDelay(baseSeconds, attempts) <= RetryDelay(baseSeconds, attempts + 1)
  {
    if attempts > 0 {
      var power := TwoToThe(attempts - 1);
      assert TwoToThe(attempts) == 2.0 * power;
      assert baseSeconds * (2.0 * power) == 2.0 * (baseSeconds * power);
      assert baseSeconds * power >= 0.0;
    }
  }

  /** The base delay comes first, and each later one doubles the one before it, up to a minute. */
  lemma DelaysDouble(baseSeconds: real, attempts: nat)
    ensures attempts <= 1 ==> RetryDelay(baseSeconds, attempts) == if baseSeconds < 60.0 then baseSeconds else 60.0
    ensures attempts >= 1 ==>
              var twice := 2.0 * RetryDelay(baseSeconds, attempts);
              RetryDelay(baseSeconds, attempts + 1) == if twice < 60.0 then twice else 60.0
  {
    assert TwoToThe(0) == 1.0;
    if attempts >= 1 {
      var power := TwoToThe(attempts - 1);
      assert TwoToThe(attempts) == 2.0 * power;
      assert baseSeconds * (2.0 * power) == 2.0 * (baseSeconds * power);
    }
  }

  /** Delays never exceed a minute, and they never shrink exactly if the base delay is not negative. */
  lemma DelaysGrow(baseSeconds: real)
    ensures forall attempts: nat :: RetryDelay(baseSeconds, attempts) <= 60.0
    ensures baseSeconds >= 0.0 <==>
              forall attempts: nat :: RetryDelay(baseSeconds, attempts) <= RetryDelay(baseSeconds, attempts + 1)
  {
    if baseSeconds >= 0.0 {
      forall attempts: nat ensures RetryDelay(baseSeconds, attempts) <= RetryDelay(baseSeconds, attempts + 1) {
        NextDelay(baseSeconds, attempts);
      }
    } else {
      assert TwoToThe(0) == 1.0 && TwoToThe(1) == 2.0;
      assert RetryDelay(baseSeconds, 1) == baseSeconds && RetryDelay(baseSeconds, 1 + 1) == 2.0 * baseSeconds;
    }
  }

  /** Before the cap is reached the sum is geometric. */
  lemma {:induction false} BackoffClosedForm(baseSeconds: real, n: nat)
    requires n >= 1
    requires n >= 2 ==> baseSeconds * TwoToThe(n - 2) <= 60.0
    ensures BackoffSum(baseSeconds, n) == baseSeconds * (TwoToThe(n - 1) - 1.0)
  {
    if n >= 2 {
      var power := TwoToThe(n - 2);
      if n >= 3 {
        assert power == 2.0 * TwoToThe(n - 3);
        HalfFits(baseSeconds, TwoToThe(n - 3));
      }
      BackoffClosedForm(baseSeconds, n - 1);
      assert TwoToThe(n - 1) == 2.0 * power;
      assert RetryDelay(baseSeconds, n - 1) == baseSeconds * power;
      assert baseSeconds * (power - 1.0) + baseSeconds * power == baseSeconds * (2.0 * power - 1.0);
    }
  }

  lemma HalfFits(base: real, power: real)
    requires power >= 0.0 && base * (2.0 * power) <= 60.0
    ensures base * power <= 60.0
  {
    assert base * (2.0 * power) == 2.0 * (base * power);
  }

  /** The clock after a step; only claims and settlements read it. */
  function ClockAfter(step: Step, clock: real): real {
    if step.ClaimNext? then step.now else if step.Advance? then step.answer.now else clock
  }

  /** The clock after n steps, when it showed `first` after m of them. */
  function ClockAt(steps: seq<Step>, m: nat, first: real, n: nat): real
    requires m <= n <= |steps|
    decreases n
  {
    if n == m then first else ClockAfter(steps[n - 1], ClockAt(steps, m, first, n - 1))
  }

  /** No claim of the run finds the lease of row `id` run out. */
  ghost predicate LeaseKept(steps: seq<Step>, trace: seq<Sys>, id: nat)
    requires |trace| == |steps| + 1
  {
    forall n: nat | n < |steps| :: KeepsLease(trace[n], steps[n], id)
  }

  predicate TicksAt(steps: seq<Step>, m: nat, first: real, n: nat)
    requires m <= n < |steps|
  {
    ClockAt(steps, m, first, n) <= ClockAt(steps, m, first, n + 1)
  }

  /** From step m on the clock never goes back. */
  ghost predicate Ticking(steps: seq<Step>, m: nat, first: real) {
    forall n: nat | m <= n < |steps| :: TicksAt(steps, m, first, n)
  }

  ghost predicate NotReplayed(steps: seq<Step>, m: nat, id: nat) {
    forall n: nat | m <= n < |steps| :: !(steps[n].ReplayRow? && steps[n].row == id)
  }

  /** The row is well held all along. */
  lemma {:induction false} TraceKeepsHolders(cfg: Config, steps: seq<Step>, trace: seq<Sys>, id: nat, n: nat)
    requires cfg.Valid() && IsTrace(cfg, steps, trace) && LeaseKept(steps, trace, id) && n <= |steps|
    ensures WellHeld(trace[n], id)
  {
    hide Do, KeepsLease;
    if n > 0 {
      TraceKeepsHolders(cfg, steps, trace, id, n - 1);
      assert StepAt(cfg, steps, trace, n - 1) && KeepsLease(trace[n - 1], steps[n - 1], id);
      DoKeepsHolders(cfg, trace[n - 1], steps[n - 1], id);
    }
  }

  /** Deliveries so far were spaced, and the next one will be. */
  predicate Spaced(baseSeconds: real, row: QueueRow, first: real, clock: real) {
    row.Live() ==>
      && row.attempts >= 1
      && (row.status.Processing? ==> first + BackoffSum(baseSeconds, row.attempts) <= clock)
      && (row.status.Pending? ==> first + BackoffSum(baseSeconds, row.attempts + 1) <= row.availableAt)
  }

  lemma StepStaysSpaced(cfg: Config, row: QueueRow, next: QueueRow, step: Step, id: nat, first: real, clock: real)
    requires RowMoves(cfg, row, next, step, id) && Spaced(cfg.retryBaseSeconds, row, first, clock)
    requires clock <= ClockAfter(step, clock) && !(step.ReplayRow? && step.row == id)
    requires step.ClaimNext? ==> !Expired(row, step.now)
    ensures Spaced(cfg.retryBaseSeconds, next, first, ClockAfter(step, clock))
  {
    hide RetryDelay;
  }

  lemma {:induction false} TraceStaysSpaced(cfg: Config, steps: seq<Step>, trace: seq<Sys>, id: nat, m: nat,
          first: real, n: nat)
    requires cfg.Valid() && IsTrace(cfg, steps, trace) && LeaseKept(steps, trace, id) && m <= n <= |steps|
    requires id < |trace[m].world.queue| && Spaced(cfg.retryBaseSeconds, trace[m].world.queue[id], first, first)
    requires Ticking(steps, m, first) && NotReplayed(steps, m, id)
    ensures id < |trace[n].world.queue|
    ensures Spaced(cfg.retryBaseSeconds, trace[n].world.queue[id], first, ClockAt(steps, m, first, n))
    decreases n
  {
    hide Do, WellHeld, RowMoves, Spaced, Expired, ClockAfter;
    if n > m {
      TraceStaysSpaced(cfg, steps, trace, id, m, first, n - 1);
      TraceKeepsHolders(cfg, steps, trace, id, n - 1);
      assert StepAt(cfg, steps, trace, n - 1) && KeepsLease(trace[n - 1], steps[n - 1], id);
      assert TicksAt(steps, m, first, n - 1);
      RowStep(cfg, trace[n - 1], steps[n - 1], id);
      StepStaysSpaced(cfg, trace[n - 1].world.queue[id], trace[n].world.queue[id], steps[n - 1], id, first,
                      ClockAt(steps, m, first, n - 1));
    }
  }

  /**
   Backoff over every run: if row `id` is on its first delivery after m steps, at time `first`, and no
   claim of the run finds its lease run out, then at the end it is on its n-th delivery no earlier than
   `first` plus the first n - 1 delays.
   */
  lemma DeliveriesAreSpaced(cfg: Config, steps: seq<Step>, trace: seq<Sys>, id: nat, m: nat, first: real)
    requires cfg.Valid() && IsTrace(cfg, steps, trace) && LeaseKept(steps, trace, id) && m <= |steps|
    requires id < |trace[m].world.queue|
    requires trace[m].world.queue[id].status.Processing? && trace[m].world.queue[id].attempts == 1
    requires Ticking(steps, m, first) && NotReplayed(steps, m, id)
    ensures id < |trace[|steps|].world.queue|
    ensures var row := trace[|steps|].world.queue[id];
            row.status.Processing? ==>
              first + BackoffSum(cfg.retryBaseSeconds, row.attempts) <= ClockAt(steps, m, first, |steps|)
  {
    hide Do, LeaseKept, Ticking, NotReplayed;
    TraceStaysSpaced(cfg, steps, trace, id, m, first, |steps|);
    assert trace[|steps|].world.queue[id].status.Processing? ==> trace[|steps|].world.queue[id].Live();
  }

  // ----- fairness -----

  /** Claims a live row can still take. */
  function ClaimsLeft(row: QueueRow): nat {
    if row.Live() && row.attempts < row.maxAttempts then row.maxAttempts - row.attempts else 0
  }

  /** Claims the first i rows can still take. */
  function ClaimsAhead(queue: seq<QueueRow>, i: nat): nat
    requires i <= |queue|
  {
    if i == 0 then 0 else ClaimsAhead(queue, i - 1) + ClaimsLeft(queue[i - 1])
  }

  lemma {:induction false} AheadShrinks(before: seq<QueueRow>, after: seq<QueueRow>, i: nat)
    requires i <= |before| && i <= |after|
    requires forall j | 0 <= j < i :: ClaimsLeft(after[j]) <= ClaimsLeft(before[j])
    ensures ClaimsAhead(after, i) <= ClaimsAhead(before, i)
  {
    hide ClaimsLeft;
    if i > 0 {
      AheadShrinks(before, after, i - 1);
    }
  }

  lemma {:induction false} AheadShrinksByOne(before: seq<QueueRow>, after: seq<QueueRow>, i: nat, claimed: nat)
    requires i <= |before| && i <= |after| && claimed < i
    requires forall j | 0 <= j < i :: ClaimsLeft(after[j]) <= ClaimsLeft(before[j])
    requires ClaimsLeft(after[claimed]) < ClaimsLeft(before[claimed])
    ensures ClaimsAhead(after, i) < ClaimsAhead(before, i)
  {
    hide ClaimsLeft;
    if claimed < i - 1 {
      AheadShrinksByOne(before, after, i - 1, claimed);
    } else {
      AheadShrinks(before, after, i - 1);
    }
  }

  /** A pending row has attempts left. */
  predicate Fresh(row: QueueRow) {
    row.Live() ==> row.attempts <= row.maxAttempts && (row.status.Pending? ==> row.attempts < row.maxAttempts)
  }

  /** Every row is fresh, and well held. */
  ghost predicate AllFresh(s: Sys) {
    && (forall i: nat | i < |s.world.queue| :: Fresh(s.world.queue[i]))
    && (forall id: nat :: WellHeld(s, id))
  }

  ghost predicate NothingExpired(s: Sys, step: Step) {
    forall id: nat :: KeepsLease(s, step, id)
  }

  /** No claim of the run finds any lease run out. */
  ghost predicate LeasesKept(steps: seq<Step>, trace: seq<Sys>)
    requires |trace| == |steps| + 1
  {
    forall n: nat | n < |steps| :: NothingExpired(trace[n], steps[n])
  }

  lemma RowStaysFresh(cfg: Config, row: QueueRow, next: QueueRow, step: Step, id: nat)
    requires cfg.maxQueueAttempts >= 1 && RowMoves(cfg, row, next, step, id) && Fresh(row)
    requires step.ClaimNext? ==> !Expired(row, step.now)
    ensures Fresh(next)
  {
    hide RetryDelay;
  }

  lemma StepStaysFresh(cfg: Config, s: Sys, step: Step)
    requires cfg.Valid() && cfg.maxQueueAttempts >= 1 && AllFresh(s) && NothingExpired(s, step)
    ensures AllFresh(Do(cfg, s, step))
  {
    hide Do, WellHeld, RowMoves, Expired, Untouched;
    var r := Do(cfg, s, step);
    forall i: nat | i < |r.world.queue| ensures Fresh(r.world.queue[i]) {
      assert KeepsLease(s, step, i);
      if i < |s.world.queue| {
        RowStep(cfg, s, step, i);
        RowStaysFresh(cfg, s.world.queue[i], r.world.queue[i], step, i);
      } else {
        NewRowsUntouched(cfg, s, step, i);
        UntouchedIsFresh(cfg, r.world.queue[i]);
      }
    }
    forall id: nat ensures WellHeld(r, id) {
      DoKeepsHolders(cfg, s, step, id);
    }
  }

  lemma UntouchedIsFresh(cfg: Config, row: QueueRow)
    requires cfg.maxQueueAttempts >= 1 && Untouched(cfg, row)
    ensures Fresh(row)
  {
  }

  lemma {:induction false} TraceStaysFresh(cfg: Config, steps: seq<Step>, trace: seq<Sys>, n: nat)
    requires cfg.Valid() && cfg.maxQueueAttempts >= 1 && IsTrace(cfg, steps, trace) && LeasesKept(steps, trace)
    requires n <= |steps|
    ensures AllFresh(trace[n])
  {
    hide Do, NothingExpired, Fresh;
    if n > 0 {
      TraceStaysFresh(cfg, steps, trace, n - 1);
      assert StepAt(cfg, steps, trace, n - 1) && NothingExpired(trace[n - 1], steps[n - 1]);
      StepStaysFresh(cfg, trace[n - 1], steps[n - 1]);
    }
  }

  /** The row taken by this step, if it is a claim that finds one. */
  function ClaimedRow(cfg: Config, s: Sys, step: Step): Option<nat> {
    if step.ClaimNext? && step.pid !in s.procs then
      match Claim(s.world, step.worker, cfg.leaseSeconds, step.now).1
      case None => None
      case Some(d) => Some(d.id)
    else None
  }

  /** Claims that took a row in the steps m .. n - 1. */
  function ClaimsMade(cfg: Config, steps: seq<Step>, trace: seq<Sys>, m: nat, n: nat): nat
    requires |trace| == |steps| + 1 && m <= n <= |steps|
    decreases n
  {
    if n == m then 0
    else ClaimsMade(cfg, steps, trace, m, n - 1) + (if ClaimedRow(cfg, trace[n - 1], steps[n - 1]).Some? then 1 else 0)
  }

  /** Row i is claimable at this step if it is a claim, and is not the one claimed; nothing is replayed. */
  predicate PassedOver(cfg: Config, s: Sys, step: Step, i: nat) {
    && i < |s.world.queue|
    && (step.ClaimNext? ==> Claimable(s.world.queue[i], step.now))
    && ClaimedRow(cfg, s, step) != Some(i)
    && !step.ReplayRow?
  }

  /** From step m on, row i is passed over at every step. */
  ghost predicate Overtaken(cfg: Config, steps: seq<Step>, trace: seq<Sys>, m: nat, i: nat)
    requires |trace| == |steps| + 1
  {
    forall n: nat | m <= n < |steps| :: PassedOver(cfg, trace[n], steps[n], i)
  }

  lemma ClaimsLeftStep(cfg: Config, row: QueueRow, next: QueueRow, step: Step, id: nat)
    requires RowMoves(cfg, row, next, step, id) && Fresh(row) && !step.ReplayRow?
    requires step.ClaimNext? ==> !Expired(row, step.now)
    ensures ClaimsLeft(next) <= ClaimsLeft(row)
    ensures step.ClaimNext? && ClaimedAs(cfg, row, next, step.now, step.worker) ==> ClaimsLeft(next) < ClaimsLeft(row)
  {
    hide RetryDelay;
  }

  lemma ClaimTakes(cfg: Config, s: Sys, step: Step, i: nat)
    requires cfg.Valid() && i < |s.world.queue| && ClaimedRow(cfg, s, step).Some?
    requires Claimable(s.world.queue[i], step.now)
    ensures var claimed := ClaimedRow(cfg, s, step).value;
            var after := Do(cfg, s, step).world.queue;
            && claimed <= i && claimed < |after|
            && ClaimedAs(cfg, s.world.queue[claimed], after[claimed], step.now, step.worker)
  {
    hide DoAdvance, DoReplay, DoCrash, Claim, ClaimedAs, Claimable;
    var d := Claim(s.world, step.worker, cfg.leaseSeconds, step.now).1.value;
    ClaimedRowMoves(cfg, s.world, step.worker, step.now, i);
    ClaimedRowMoves(cfg, s.world, step.worker, step.now, d.id);
  }

  /** One step that overtakes row i uses up one claim of a row before it. */
  lemma OvertakingUsesUp(cfg: Config, s: Sys, step: Step, i: nat)
    requires cfg.Valid() && AllFresh(s) && NothingExpired(s, step) && PassedOver(cfg, s, step, i)
    ensures var after := Do(cfg, s, step).world.queue;
            && i < |after|
            && ClaimsAhead(after, i) + (if ClaimedRow(cfg, s, step).Some? then 1 else 0) <= ClaimsAhead(s.world.queue, i)
  {
    hide Do, RowMoves, Expired, ClaimsLeft, Fresh, Claimable, ClaimedAs, WellHeld, ClaimedRow;
    var after := Do(cfg, s, step).world.queue;
    RowStep(cfg, s, step, i);
    forall j: nat | j < i ensures j < |after| && ClaimsLeft(after[j]) <= ClaimsLeft(s.world.queue[j]) {
      assert KeepsLease(s, step, j);
      RowStep(cfg, s, step, j);
      ClaimsLeftStep(cfg, s.world.queue[j], after[j], step, j);
    }
    if ClaimedRow(cfg, s, step).Some? {
      ClaimersClaim(cfg, s, step);
      ClaimTakes(cfg, s, step, i);
      var claimed := ClaimedRow(cfg, s, step).value;
      assert KeepsLease(s, step, claimed);
      RowStep(cfg, s, step, claimed);
      ClaimsLeftStep(cfg, s.world.queue[claimed], after[claimed], step, claimed);
      AheadShrinksByOne(s.world.queue, after, i, claimed);
    } else {
      AheadShrinks(s.world.queue, after, i);
    }
  }

  lemma ClaimersClaim(cfg: Config, s: Sys, step: Step)
    requires ClaimedRow(cfg, s, step).Some?
    ensures step.ClaimNext?
  {
  }

  lemma {:induction false} OvertakingAddsUp(cfg: Config, steps: seq<Step>, trace: seq<Sys>, m: nat, i: nat, n: nat)
    requires cfg.Valid() && cfg.maxQueueAttempts >= 1 && IsTrace(cfg, steps, trace) && LeasesKept(steps, trace)
    requires m <= n <= |steps| && Overtaken(cfg, steps, trace, m, i) && i < |trace[m].world.queue|
    ensures i < |trace[n].world.queue|
    ensures ClaimsMade(cfg, steps, trace, m, n) + ClaimsAhead(trace[n].world.queue, i) <= ClaimsAhead(trace[m].world.queue, i)
    decreases n
  {
    hide Do, NothingExpired, AllFresh, PassedOver, ClaimedRow, ClaimsAhead;
    if n > m {
      OvertakingAddsUp(cfg, steps, trace, m, i, n - 1);
      TraceStaysFresh(cfg, steps, trace, n - 1);
      assert StepAt(cfg, steps, trace, n - 1) && NothingExpired(trace[n - 1], steps[n - 1]);
      assert PassedOver(cfg, trace[n - 1], steps[n - 1], i);
      OvertakingUsesUp(cfg, trace[n - 1], steps[n - 1], i);
    }
  }

  /**
   Bounded overtaking, in every run in which no claim finds a lease run out: from any point on, while row
   i is pending and available, at most as many claims go to other rows as the live rows before it have
   attempts left there.
   */
  lemma OvertakingIsBounded(cfg: Config, steps: seq<Step>, trace: seq<Sys>, m: nat, i: nat)
    requires cfg.Valid() && cfg.maxQueueAttempts >= 1 && IsTrace(cfg, steps, trace) && LeasesKept(steps, trace)
    requires m <= |steps| && i < |trace[m].world.queue| && Overtaken(cfg, steps, trace, m, i)
    ensures ClaimsMade(cfg, steps, trace, m, |steps|) <= ClaimsAhead(trace[m].world.queue, i)
  {
    hide Do, LeasesKept, Overtaken, ClaimsMade, ClaimsAhead;
    OvertakingAddsUp(cfg, steps, trace, m, i, |steps|);
  }

  /**
   So no row waits for ever: once more claims than that were made, some step since took the row, replayed
   a dead letter, or was a claim at which the row was not yet available.
   */
  lemma NoRowWaitsForever(cfg: Config, steps: seq<Step>, trace: seq<Sys>, m: nat, i: nat)
    requires cfg.Valid() && cfg.maxQueueAttempts >= 1 && IsTrace(cfg, steps, trace) && LeasesKept(steps, trace)
    requires m <= |steps| && i < |trace[m].world.queue|
    requires ClaimsMade(cfg, steps, trace, m, |steps|) > ClaimsAhead(trace[m].world.queue, i)
    ensures exists n: nat :: m <= n < |steps| && !PassedOver(cfg, trace[n], steps[n], i)
  {
    hide Do, LeasesKept, ClaimsMade, ClaimsAhead, PassedOver;
    if forall n: nat | m <= n < |steps| :: PassedOver(cfg, trace[n], steps[n], i) {
      OvertakingIsBounded(cfg, steps, trace, m, i);
    }
  }
}
