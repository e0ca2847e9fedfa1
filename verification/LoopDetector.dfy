/** The loop guard (loop_detector.py). */
module LoopDetector {
  import opened Prelude
  import opened Models

  /** `list(p) * k`. */
  function Power<T>(p: seq<T>, k: nat): (r: seq<T>)
    ensures |r| == |p| * k
  {
    if k == 0 then [] else p + Power(p, k - 1)
  }

  /** The last `n * k` values are one block of length n written k times. */
  predicate EndsInPower<T(==)>(values: seq<T>, n: nat, k: nat)
    requires n * k <= |values|
  {
    var tail := values[|values| - n * k..];
    n <= n * k && tail == Power(tail[..n], k)
  }

  predicate RepeatedSuffix<T(==)>(values: seq<T>, k: nat)
    requires k > 0
  {
    exists n | 1 <= n <= |values| / k :: n * k <= |values| && EndsInPower(values, n, k)
  }

  lemma DivisionBound(n: nat, k: nat, m: nat)
    requires k > 0
    ensures n <= m / k <==> n * k <= m
  {
    var q, r := m / k, m % k;
    assert m == q * k + r;
    if n <= q {
      assert n * k <= q * k;
    } else {
      assert n * k >= (q + 1) * k == q * k + k;
    }
  }

  lemma BlockFits(n: nat, k: nat)
    requires k > 0
    ensures n <= n * k
  {
  }

  /** The search loop of `_repeated_suffix`. */
  method FindRepeatedSuffix<T(==)>(values: seq<T>, repeatThreshold: nat) returns (found: bool)
    requires repeatThreshold >= 2
    ensures found <==> RepeatedSuffix(values, repeatThreshold)
  {
    var limit := |values| / repeatThreshold;
    for length := 1 to limit + 1
      invariant forall n | 1 <= n < length :: n * repeatThreshold <= |values| && !EndsInPower(values, n, repeatThreshold)
    {
      DivisionBound(length, repeatThreshold, |values|);
      BlockFits(length, repeatThreshold);
      var tail := values[|values| - length * repeatThreshold..];
      var pattern := tail[..length];
      if tail == Power(pattern, repeatThreshold) {
        assert EndsInPower(values, length, repeatThreshold);
        return true;
      }
    }
    return false;
  }

  /** The declarative meaning: some non-empty block, written k times, ends the sequence. */
  ghost predicate EndsInBlock<T>(values: seq<T>, prefix: seq<T>, p: seq<T>, k: nat) {
    p != [] && values == prefix + Power(p, k)
  }

  lemma {:induction false} PowerHead<T>(p: seq<T>, k: nat)
    requires k > 0
    ensures |p| <= |Power(p, k)| && Power(p, k)[..|p|] == p
  {
    BlockFits(|p|, k);
    assert Power(p, k) == p + Power(p, k - 1);
  }

  /** `_repeated_suffix` is exact. */
  lemma RepeatedSuffixExact<T>(values: seq<T>, k: nat)
    requires k >= 2
    ensures RepeatedSuffix(values, k) <==> exists prefix, p :: EndsInBlock(values, prefix, p, k)
  {
    if RepeatedSuffix(values, k) {
      var n :| 1 <= n <= |values| / k && n * k <= |values| && EndsInPower(values, n, k);
      var tail := values[|values| - n * k..];
      assert values == values[..|values| - n * k] + tail;
      assert EndsInBlock(values, values[..|values| - n * k], tail[..n], k);
    }
    if exists prefix, p :: EndsInBlock(values, prefix, p, k) {
      var prefix, p :| EndsInBlock(values, prefix, p, k);
      PowerHead(p, k);
      assert |p| * k <= |values|;
      DivisionBound(|p|, k, |values|);
      assert values[|values| - |p| * k..] == Power(p, k);
      assert EndsInPower(values, |p|, k);
    }
  }

  /** Entry i + |p| of a power repeats entry i. */
  ghost predicate HasPeriod<T>(s: seq<T>, n: nat) {
    forall i | 0 <= i < |s| - n :: s[i] == s[i + n]
  }

  lemma {:induction false} PowerHasPeriod<T>(p: seq<T>, k: nat)
    requires k > 0
    ensures HasPeriod(Power(p, k), |p|)
  {
    if k > 1 {
      PowerHasPeriod(p, k - 1);
      PowerHead(p, k - 1);
      var s, t := Power(p, k), Power(p, k - 1);
      assert s == p + t;
      forall i | 0 <= i < |s| - |p| ensures s[i] == s[i + |p|] {
        if i < |p| {
          assert t[i] == t[..|p|][i];
        } else {
          assert t[i - |p|] == t[i - |p| + |p|];
        }
      }
    } else {
      assert |Power(p, k)| == |p|;
    }
  }

  lemma {:induction false} PeriodIsPower<T>(s: seq<T>, n: nat, k: nat)
    requires |s| == n * k && k > 0 && n <= |s| && HasPeriod(s, n)
    ensures s == Power(s[..n], k)
    decreases k
  {
    if k == 1 {
      assert Power(s[..n], 1) == s[..n] + [];
      assert s == s[..n];
    } else {
      var t := s[n..];
      assert |t| == n * (k - 1);
      BlockFits(n, k - 1);
      assert HasPeriod(t, n) by {
        forall i | 0 <= i < |t| - n ensures t[i] == t[i + n] {
          assert s[i + n] == s[i + n + n];
        }
      }
      PeriodIsPower(t, n, k - 1);
      assert t[..n] == s[..n];
      assert s == s[..n] + t;
    }
  }

  /** Equivalently: some suffix of length n * k has period n. */
  lemma RepeatedSuffixIsPeriod<T>(values: seq<T>, k: nat)
    requires k >= 2
    ensures RepeatedSuffix(values, k) <==>
            exists n: nat :: 1 <= n && n * k <= |values| && HasPeriod(values[|values| - n * k..], n)
  {
    if RepeatedSuffix(values, k) {
      var n: nat :| 1 <= n <= |values| / k && n * k <= |values| && EndsInPower(values, n, k);
      PowerHasPeriod(values[|values| - n * k..][..n], k);
      assert HasPeriod(values[|values| - n * k..], n);
    }
    if n: nat :| 1 <= n && n * k <= |values| && HasPeriod(values[|values| - n * k..], n) {
      BlockFits(n, k);
      PeriodIsPower(values[|values| - n * k..], n, k);
      DivisionBound(n, k, |values|);
      assert EndsInPower(values, n, k);
    }
  }

  /** `len(set(values[-k:])) == 1` once there are k values. */
  predicate LastAllEqual<T(==)>(values: seq<T>, k: nat)
  {
    0 < k <= |values| && forall i | |values| - k <= i < |values| :: values[i] == values[|values| - 1]
  }

  function LoopReason(cfg: Config, tools: seq<Tool>, progress: seq<string>): Option<Reason>
    requires cfg.repeatThreshold > 0
  {
    if |tools| >= cfg.maxToolCalls then Some(BudgetExceeded(cfg.maxToolCalls))
    else if RepeatedSuffix(tools, cfg.repeatThreshold) then Some(RepeatedSequence)
    else if LastAllEqual(progress, cfg.repeatThreshold) then Some(NoProgress)
    else None
  }

  /**
   Which of the three reasons a request is stopped for: a full budget; else some block, written threshold times,
   that ends the tools; else threshold fingerprints at the end that are all the same. None means none of them.
   */
  ghost predicate Explains(cfg: Config, tools: seq<Tool>, progress: seq<string>, reason: Option<Reason>) {
    var budgetLeft := |tools| < cfg.maxToolCalls;
    var repeated := exists prefix, p :: EndsInBlock(tools, prefix, p, cfg.repeatThreshold);
    var stuck := cfg.repeatThreshold <= |progress| &&
                 forall i | |progress| - cfg.repeatThreshold <= i < |progress| :: progress[i] == progress[|progress| - 1];
    && (reason == Some(BudgetExceeded(cfg.maxToolCalls)) <==> !budgetLeft)
    && (reason == Some(RepeatedSequence) <==> budgetLeft && repeated)
    && (reason == Some(NoProgress) <==> budgetLeft && !repeated && stuck)
    && (reason == None <==> budgetLeft && !repeated && !stuck)
  }

  lemma LoopReasonIsExact(cfg: Config, tools: seq<Tool>, progress: seq<string>)
    requires cfg.Valid()
    ensures Explains(cfg, tools, progress, LoopReason(cfg, tools, progress))
  {
    hide RepeatedSuffix, EndsInBlock;
    RepeatedSuffixExact(tools, cfg.repeatThreshold);
  }

  /** There is one answer only. */
  lemma OneExplanation(cfg: Config, tools: seq<Tool>, progress: seq<string>, reason: Option<Reason>,
          other: Option<Reason>)
    requires Explains(cfg, tools, progress, reason) && Explains(cfg, tools, progress, other)
    ensures reason == other
  {
    hide EndsInBlock;
  }

  /** `LoopDetector.reason`. */
  method FindLoopReason(cfg: Config, tools: seq<Tool>, progress: seq<string>) returns (reason: Option<Reason>)
    requires cfg.Valid()
    ensures Explains(cfg, tools, progress, reason)
    ensures reason == LoopReason(cfg, tools, progress)
  {
    LoopReasonIsExact(cfg, tools, progress);
    if |tools| >= cfg.maxToolCalls {
      return Some(BudgetExceeded(cfg.maxToolCalls));
    }
    var repeated := FindRepeatedSuffix(tools, cfg.repeatThreshold);
    if repeated {
      return Some(RepeatedSequence);
    }
    if LastAllEqual(progress, cfg.repeatThreshold) {
      return Some(NoProgress);
    }
    return None;
  }

  /** A block written k times anywhere in the sequence. */
  ghost predicate PowerAt<T>(values: seq<T>, prefix: seq<T>, p: seq<T>, k: nat, suffix: seq<T>) {
    p != [] && values == prefix + Power(p, k) + suffix
  }

  ghost predicate PowerFree<T(!new)>(values: seq<T>, k: nat) {
    forall prefix, p, suffix :: !PowerAt(values, prefix, p, k, suffix)
  }

  /** Looking only at suffixes is enough when the sequence grows one value at a time. */
  lemma PowerFreeExtends<T(!new)>(values: seq<T>, x: T, k: nat)
    requires k >= 2 && PowerFree(values, k) && !RepeatedSuffix(values + [x], k)
    ensures PowerFree(values + [x], k)
  {
    RepeatedSuffixExact(values + [x], k);
    forall prefix, p, suffix ensures !PowerAt(values + [x], prefix, p, k, suffix) {
      if PowerAt(values + [x], prefix, p, k, suffix) {
        if suffix == [] {
          assert values + [x] == prefix + Power(p, k);
          assert EndsInBlock(values + [x], prefix, p, k);
        } else {
          var shorter := suffix[..|suffix| - 1];
          assert values == (values + [x])[..|values|];
          assert values == prefix + Power(p, k) + shorter;
          assert PowerAt(values, prefix, p, k, shorter);
        }
      }
    }
  }
}
