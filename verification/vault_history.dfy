/** What the vault guarantees over every sequence of calls by any callers. */
module VaultHistory {
  import opened Wrappers
  import opened Config
  import opened Dex
  import opened Vault

  datatype Step = Step(env: Env, call: Call)

  type History = seq<Step>

  function Turn(s: VaultState, step: Step): VaultState {
    match Apply(s, step.env, step.call)
    case Done(s') => s'
    case Reverted(_) => s
  }

  function After(s: VaultState, h: History): VaultState
    decreases |h|
  {
    if h == [] then s else Turn(After(s, h[..|h| - 1]), h[|h| - 1])
  }

  predicate Accepted(s: VaultState, h: History, i: nat)
    requires i < |h|
  {
    Apply(After(s, h[..i]), h[i].env, h[i].call).Done?
  }

  predicate Executed(s: VaultState, h: History, i: nat)
    requires i < |h|
  {
    h[i].call.ExecuteSwap? && Accepted(s, h, i)
  }

  lemma {:induction false} AfterBoth(s: VaultState, h: History, more: History)
    ensures After(s, h + more) == After(After(s, h), more)
    decreases |more|
  {
    if more == [] {
      assert h + more == h;
    } else {
      var n := |more| - 1;
      assert (h + more)[..|h + more| - 1] == h + more[..n];
      AfterBoth(s, h, more[..n]);
    }
  }

  /** The state at any earlier time, and the calls since. */
  lemma Since(s: VaultState, h: History, i: nat)
    requires i <= |h|
    ensures After(s, h) == After(After(s, h[..i]), h[i..])
  {
    assert h == h[..i] + h[i..];
    AfterBoth(s, h[..i], h[i..]);
  }

  // ---------- limits ----------

  predicate Sound(s: VaultState) {
    && s.src != s.tokenOut
    && 0.0 < s.limits.maxTradeSize <= s.limits.totalSpendCap
    && 0.0 <= s.spentTotal <= s.limits.totalSpendCap
    && 0 <= s.limits.maxSlippageBps < BPS
    && 0 <= s.limits.cooldownSeconds <= MAX_COOLDOWN_SECONDS
    && 0 < s.limits.maxDeadlineSeconds <= MAX_DEADLINE_SECONDS
  }

  predicate Tighter(limits: Limits, limits': Limits) {
    && limits'.maxTradeSize <= limits.maxTradeSize
    && limits'.totalSpendCap <= limits.totalSpendCap
    && limits'.maxSlippageBps <= limits.maxSlippageBps
    && limits'.cooldownSeconds >= limits.cooldownSeconds
    && limits'.maxDeadlineSeconds <= limits.maxDeadlineSeconds
  }

  lemma SeedIsSound(
    env: Env, keeper: string, pair: int, src: string, tokenOut: string, limits: Limits,
    pairTokens: Option<(string, string)>)
    requires Seed(env, keeper, pair, src, tokenOut, limits, pairTokens).Done?
    ensures var s := Seed(env, keeper, pair, src, tokenOut, limits, pairTokens).state;
            Sound(s) && s.paused && s.spentTotal == 0.0 && s.owner == env.caller
  {
  }

  lemma TurnTightens(s: VaultState, step: Step)
    requires Sound(s)
    ensures var s' := Turn(s, step);
            && Sound(s')
            && Tighter(s.limits, s'.limits)
            && s'.spentTotal >= s.spentTotal
            && (s'.owner, s'.pair, s'.src, s'.tokenOut) == (s.owner, s.pair, s.src, s.tokenOut)
  {
    hide MinimumAllowed, CoolingDown, TokenError;
  }

  /** Limits only tighten, the cap bounds what was spent, and the strategy itself never changes. */
  lemma {:induction false} LimitsTighten(s: VaultState, h: History)
    requires Sound(s)
    ensures var s' := After(s, h);
            && Sound(s')
            && Tighter(s.limits, s'.limits)
            && s'.spentTotal >= s.spentTotal
            && (s'.owner, s'.pair, s'.src, s'.tokenOut) == (s.owner, s.pair, s.src, s.tokenOut)
    decreases |h|
  {
    if h != [] {
      hide Turn;
      LimitsTighten(s, h[..|h| - 1]);
      TurnTightens(After(s, h[..|h| - 1]), h[|h| - 1]);
    }
  }

  // ---------- the budget ----------

  datatype Execution = Execution(at: int, amountIn: real, quote: real, paid: real)

  /** The accepted swaps of a history, in order. */
  function Executions(s: VaultState, h: History): (es: seq<Execution>)
    decreases |h|
  {
    if h == [] then []
    else
      var last := h[|h| - 1];
      Executions(s, h[..|h| - 1]) +
      (if Executed(s, h, |h| - 1) then
         SwapTurn(After(s, h[..|h| - 1]), last);
         [Execution(last.env.now, last.call.amountIn, last.call.quote.value, last.call.paid.value)]
       else [])
  }

  function Spend(es: seq<Execution>): real {
    if es == [] then 0.0 else Spend(es[..|es| - 1]) + es[|es| - 1].amountIn
  }

  lemma SpendMore(es: seq<Execution>, e: Execution)
    ensures Spend(es + [e]) == Spend(es) + e.amountIn
  {
    assert (es + [e])[..|es + [e]| - 1] == es;
  }

  lemma SwapTurn(s: VaultState, step: Step)
    requires step.call.ExecuteSwap? && Apply(s, step.env, step.call).Done?
    ensures var s' := Turn(s, step);
            && s'.spentTotal == s.spentTotal + step.call.amountIn
            && s'.lastExecution == Some(step.env.now)
            && 0.0 < step.call.amountIn <= s.limits.maxTradeSize
            && !CoolingDown(s, step.env.now)
            && step.call.quote.Some?
            && step.call.paid.Some?
            && step.call.paid.value >= MinimumAllowed(step.call.quote.value, s.limits.maxSlippageBps)
            && step.call.paid.value > 0.0
  {
    hide MinimumAllowed, CoolingDown, TokenError;
  }

  lemma OtherTurn(s: VaultState, step: Step)
    requires !step.call.ExecuteSwap? || Apply(s, step.env, step.call).Reverted?
    ensures Turn(s, step).spentTotal == s.spentTotal && Turn(s, step).lastExecution == s.lastExecution
  {
    hide AfterExecuteSwap, TokenError, LimitsError;
  }

  /** What one more call does to the bookkeeping. */
  lemma OneMore(s: VaultState, h: History)
    requires h != []
    ensures var n := |h| - 1;
            var before, after := After(s, h[..n]), After(s, h);
            && after == Turn(before, h[n])
            && (if Executed(s, h, n)
                then
                  && Executions(s, h) == Executions(s, h[..n]) +
                     [Execution(h[n].env.now, h[n].call.amountIn, h[n].call.quote.GetOr(0.0),
                                h[n].call.paid.GetOr(0.0))]
                  && after.spentTotal == before.spentTotal + h[n].call.amountIn
                  && after.lastExecution == Some(h[n].env.now)
                  && 0.0 < h[n].call.amountIn <= before.limits.maxTradeSize
                  && !CoolingDown(before, h[n].env.now)
                else
                  && Executions(s, h) == Executions(s, h[..n])
                  && after.spentTotal == before.spentTotal
                  && after.lastExecution == before.lastExecution)
  {
    hide Apply, Turn, MinimumAllowed, CoolingDown;
    var n := |h| - 1;
    if Executed(s, h, n) {
      SwapTurn(After(s, h[..n]), h[n]);
    } else {
      OtherTurn(After(s, h[..n]), h[n]);
    }
  }

  /** `spent_total` is the sum of the executed inputs. */
  lemma {:induction false} SpentIsSum(s: VaultState, h: History)
    ensures After(s, h).spentTotal == s.spentTotal + Spend(Executions(s, h))
    decreases |h|
  {
    if h != [] {
      var n := |h| - 1;
      OneMore(s, h);
      hide Turn, Executed, Executions;
      SpentIsSum(s, h[..n]);
      if Executed(s, h, n) {
        SpendMore(Executions(s, h[..n]),
                  Execution(h[n].env.now, h[n].call.amountIn, h[n].call.quote.GetOr(0.0), h[n].call.paid.GetOr(0.0)));
      }
    }
  }

  /** From any time on, everything ever spent stays within the cap that was in force then. */
  lemma WithinEarlierCap(s: VaultState, h: History, i: nat)
    requires Sound(s) && i <= |h|
    ensures After(s, h).spentTotal <= After(s, h[..i]).limits.totalSpendCap
    ensures Spend(Executions(After(s, h[..i]), h[i..]))
            <= After(s, h[..i]).limits.totalSpendCap - After(s, h[..i]).spentTotal
  {
    LimitsTighten(s, h[..i]);
    LimitsTighten(After(s, h[..i]), h[i..]);
    Since(s, h, i);
    SpentIsSum(After(s, h[..i]), h[i..]);
  }

  // ---------- the rate ----------

  /** Consecutive executions lie at least `gap` apart. */
  ghost predicate Spaced(es: seq<Execution>, gap: int) {
    forall i :: 0 < i < |es| ==> es[i].at >= es[i - 1].at + gap
  }

  /** Executions are a cooldown apart, whatever clock the calls report and whatever is changed in between. */
  lemma {:induction false} ExecutionsSpaced(s: VaultState, h: History)
    requires Sound(s)
    ensures Spaced(Executions(s, h), s.limits.cooldownSeconds * SECOND)
    ensures var es := Executions(s, h);
            After(s, h).lastExecution == if es == [] then s.lastExecution else Some(es[|es| - 1].at)
    ensures forall e :: e in Executions(s, h) ==> 0.0 < e.amountIn <= s.limits.maxTradeSize
    decreases |h|
  {
    if h != [] {
      var n := |h| - 1;
      OneMore(s, h);
      LimitsTighten(s, h[..n]);
      hide Turn, Executed, Executions, Sound;
      ExecutionsSpaced(s, h[..n]);
    }
  }

  /** The executions in a window of time. */
  function InWindow(es: seq<Execution>, from: int, width: int): seq<Execution> {
    if es == [] then []
    else
      var last := es[|es| - 1];
      InWindow(es[..|es| - 1], from, width) + (if from <= last.at <= from + width then [last] else [])
  }

  lemma {:induction false} SpacedBefore(es: seq<Execution>, gap: int, i: nat)
    requires Spaced(es, gap) && gap >= 0 && i < |es|
    ensures es[|es| - 1].at >= es[i].at + (if i == |es| - 1 then 0 else gap)
    decreases |es|
  {
    if i < |es| - 1 {
      SpacedBefore(es[..|es| - 1], gap, i);
    }
  }

  /** Shrinking a window past the last execution loses nothing. */
  lemma {:induction false} Narrower(es: seq<Execution>, from: int, width: int, width': int)
    requires width' <= width
    requires forall i :: 0 <= i < |es| ==> es[i].at <= from + width'
    ensures InWindow(es, from, width) == InWindow(es, from, width')
  {
    if es != [] {
      Narrower(es[..|es| - 1], from, width, width');
    }
  }

  lemma {:induction false} NoneBefore(es: seq<Execution>, from: int, width: int)
    requires forall i :: 0 <= i < |es| ==> es[i].at < from
    ensures InWindow(es, from, width) == []
  {
    if es != [] {
      NoneBefore(es[..|es| - 1], from, width);
    }
  }

  /** How many instants `gap` apart fit into a window. */
  function Most(width: int, gap: int): int
    requires gap > 0
  {
    width / gap + 1
  }

  lemma Monotone(a: int, b: int, factor: int)
    requires factor > 0
    ensures a >= b ==> a * factor >= b * factor
  {
    if a >= b {
      assert (a - b) * factor >= 0;
    }
  }

  lemma OneGapLess(width: int, width': int, gap: int)
    requires gap > 0 && 0 <= width' <= width - gap
    ensures Most(width', gap) + 1 <= Most(width, gap)
  {
    var a, b := width' / gap, width / gap;
    assert a * gap <= width' && width < (b + 1) * gap;
    assert (a + 1) * gap < (b + 1) * gap;
    Monotone(a + 1, b + 1, gap);
  }

  lemma AtLeastOne(width: int, gap: int)
    requires gap > 0 && width >= 0
    ensures Most(width, gap) >= 1
  {
  }

  lemma {:induction false} SpacedCount(es: seq<Execution>, gap: int, from: int, width: int)
    requires Spaced(es, gap) && gap > 0 && width >= 0
    ensures |InWindow(es, from, width)| <= Most(width, gap)
    decreases |es|
  {
    hide Most;
    AtLeastOne(width, gap);
    if es != [] {
      var before, last := es[..|es| - 1], es[|es| - 1];
      if from <= last.at <= from + width {
        forall i | 0 <= i < |before|
          ensures before[i].at <= last.at - gap
        {
          SpacedBefore(es, gap, i);
        }
        var width' := last.at - gap - from;
        Narrower(before, from, width, width');
        if width' < 0 {
          NoneBefore(before, from, width);
        } else {
          SpacedCount(before, gap, from, width');
          OneGapLess(width, width', gap);
        }
      } else {
        SpacedCount(before, gap, from, width);
      }
    }
  }

  function Times(count: int, size: real): real {
    count as real * size
  }

  lemma TimesMore(count: int, more: int, size: real)
    requires size > 0.0
    ensures Times(count + 1, size) == Times(count, size) + size
    ensures count <= more ==> Times(count, size) <= Times(more, size)
  {
    assert (count as real + 1.0) * size == count as real * size + size;
    if count <= more {
      assert (more - count) as real * size >= 0.0;
      assert more as real * size == (more - count) as real * size + count as real * size;
    }
  }

  lemma {:induction false} WindowSpend(es: seq<Execution>, from: int, width: int, size: real)
    requires size > 0.0 && forall e :: e in es ==> 0.0 < e.amountIn <= size
    ensures Spend(InWindow(es, from, width)) <= Times(|InWindow(es, from, width)|, size)
  {
    if es != [] {
      var before, last := es[..|es| - 1], es[|es| - 1];
      var window := InWindow(before, from, width);
      WindowSpend(before, from, width, size);
      hide Times;
      SpendMore(window, last);
      TimesMore(|window|, |window|, size);
      assert InWindow(es, from, width) == if from <= last.at <= from + width then window + [last] else window;
    }
  }

  /**
   In any window of W seconds the keeper executes at most W/c + 1 swaps, where c is a cooldown in force
   before it, so it spends at most that many times the trade cap then in force.
   */
  lemma RateBound(s: VaultState, h: History, from: int, seconds: nat)
    requires Sound(s) && s.limits.cooldownSeconds > 0
    ensures var window := InWindow(Executions(s, h), from, seconds * SECOND);
            var most := seconds / s.limits.cooldownSeconds + 1;
            && |window| <= most
            && Spend(window) <= most as real * s.limits.maxTradeSize
  {
    hide Executions, InWindow, Spend;
    RateCount(s, h, from, seconds);
    var window := InWindow(Executions(s, h), from, seconds * SECOND);
    TimesMore(|window|, seconds / s.limits.cooldownSeconds + 1, s.limits.maxTradeSize);
  }

  lemma RateCount(s: VaultState, h: History, from: int, seconds: nat)
    requires Sound(s) && s.limits.cooldownSeconds > 0
    ensures var window := InWindow(Executions(s, h), from, seconds * SECOND);
            && |window| <= seconds / s.limits.cooldownSeconds + 1
            && Spend(window) <= Times(|window|, s.limits.maxTradeSize)
  {
    hide Executions, InWindow, Spend, Most, Times, Spaced;
    var gap := s.limits.cooldownSeconds * SECOND;
    ExecutionsSpaced(s, h);
    SpacedCount(Executions(s, h), gap, from, seconds * SECOND);
    WindowSpend(Executions(s, h), from, seconds * SECOND, s.limits.maxTradeSize);
    SameUnits(seconds, s.limits.cooldownSeconds);
  }

  lemma SameUnits(seconds: nat, c: int)
    requires c > 0
    ensures Most(seconds * SECOND, c * SECOND) == seconds / c + 1
  {
    var q, r := seconds / c, seconds % c;
    assert seconds == q * c + r;
    assert seconds * SECOND == q * (c * SECOND) + r * SECOND;
    assert 0 <= r * SECOND < c * SECOND;
    Quotient(seconds * SECOND, c * SECOND, q, r * SECOND);
  }

  lemma Quotient(a: int, b: int, q: int, r: int)
    requires a == q * b + r && 0 <= r < b
    ensures a / b == q
  {
    var d := a / b - q;
    assert a == (a / b) * b + a % b;
    assert d * b == r - a % b;
    Monotone(d, 1, b);
    Monotone(-1, d, b);
  }

  // ---------- the pause ----------

  /** An accepted call after which the vault stays paused until the owner says otherwise. */
  predicate Suspends(call: Call) {
    call.SetKeeper? || call.TightenLimits? || (call.SetPaused? && call.value)
  }

  /** The owner unpaused at `i`, and nothing suspended the vault since. */
  ghost predicate UnpausedAt(s: VaultState, h: History, i: nat) {
    && i < |h|
    && Accepted(s, h, i)
    && h[i].call == SetPaused(false)
    && h[i].env.caller == s.owner
    && forall k :: i < k < |h| ==> !(Suspends(h[k].call) && Accepted(s, h, k))
  }

  lemma UnpausedStill(s: VaultState, h: History, i: nat)
    requires h != [] && UnpausedAt(s, h[..|h| - 1], i)
    requires !(Suspends(h[|h| - 1].call) && Accepted(s, h, |h| - 1))
    ensures UnpausedAt(s, h, i)
  {
    var n := |h| - 1;
    forall k | 0 <= k < n
      ensures h[..n][..k] == h[..k] && h[..n][k] == h[k]
    {
    }
    forall k | i < k < |h|
      ensures !(Suspends(h[k].call) && Accepted(s, h, k))
    {
      if k < n {
        assert h[..n][..k] == h[..k];
        assert !(Suspends(h[..n][k].call) && Accepted(s, h[..n], k));
      }
    }
    assert h[..n][..i] == h[..i];
  }

  lemma TurnKeepsOwner(s: VaultState, step: Step)
    ensures Turn(s, step).owner == s.owner
  {
    hide TokenError, LimitsError, SwapError, MinimumAllowed;
  }

  lemma {:induction false} OwnerStays(s: VaultState, h: History)
    ensures After(s, h).owner == s.owner
    decreases |h|
  {
    if h != [] {
      TurnKeepsOwner(After(s, h[..|h| - 1]), h[|h| - 1]);
      hide Turn;
      OwnerStays(s, h[..|h| - 1]);
    }
  }

  /** A vault that started paused is open only since an owner's unpause that nothing suspended since. */
  lemma {:induction false} OpenSinceUnpause(s: VaultState, h: History)
    requires s.paused && !After(s, h).paused
    ensures exists i: nat :: UnpausedAt(s, h, i)
    decreases |h|
  {
    var n := |h| - 1;
    var before := After(s, h[..n]);
    OwnerStays(s, h[..n]);
    if h[n].call == SetPaused(false) && Accepted(s, h, n) {
      assert UnpausedAt(s, h, n);
    } else {
      assert !before.paused && !(Suspends(h[n].call) && Accepted(s, h, n));
      OpenSinceUnpause(s, h[..n]);
      var i: nat :| UnpausedAt(s, h[..n], i);
      UnpausedStill(s, h, i);
    }
  }

  /** Every execution follows an owner's unpause later than the last keeper change, tightening or pause. */
  lemma ExecutesUnpaused(s: VaultState, h: History, k: nat)
    requires s.paused && k < |h| && Executed(s, h, k)
    ensures exists i: nat :: i < k && UnpausedAt(s, h[..k], i)
  {
    assert !After(s, h[..k]).paused;
    OpenSinceUnpause(s, h[..k]);
    var i: nat :| UnpausedAt(s, h[..k], i);
    assert i < k;
  }

  // ---------- who may do what ----------

  /** The call is the caller's to make. */
  predicate Entitled(s: VaultState, step: Step) {
    match step.call
    case ExecuteSwap(_, _, _, _, _) => step.env.caller == s.keeper
    case SetPaused(value) => step.env.caller == s.owner || (value && step.env.caller == s.keeper)
    case Gift(_, _) => true
    case _ => step.env.caller == s.owner
  }

  /** The keeper was appointed by an accepted call at `i`, and no other was appointed since. */
  ghost predicate AppointedAt(s: VaultState, h: History, i: nat, keeper: string) {
    && i < |h|
    && Accepted(s, h, i)
    && h[i].call == SetKeeper(keeper)
    && forall k :: i < k < |h| ==> !(h[k].call.SetKeeper? && Accepted(s, h, k))
  }

  ghost predicate NoneAppointed(s: VaultState, h: History) {
    forall k :: 0 <= k < |h| ==> !(h[k].call.SetKeeper? && Accepted(s, h, k))
  }

  lemma TurnKeeper(s: VaultState, step: Step)
    ensures Apply(s, step.env, step.call).Done? ==> Entitled(s, step)
    ensures Turn(s, step).keeper == if step.call.SetKeeper? && Apply(s, step.env, step.call).Done?
                                    then step.call.keeper else s.keeper
    ensures step.call.SetKeeper? && Apply(s, step.env, step.call).Done? ==>
              step.call.keeper != "" && Turn(s, step).paused
  {
    hide MinimumAllowed, CoolingDown, TokenError, LimitsError;
  }

  lemma AppointedStill(s: VaultState, h: History, i: nat, keeper: string)
    requires h != [] && !(h[|h| - 1].call.SetKeeper? && Accepted(s, h, |h| - 1))
    ensures NoneAppointed(s, h[..|h| - 1]) ==> NoneAppointed(s, h)
    ensures AppointedAt(s, h[..|h| - 1], i, keeper) ==> AppointedAt(s, h, i, keeper)
  {
    var n := |h| - 1;
    forall k | 0 <= k < n
      ensures h[..n][..k] == h[..k] && h[..n][k] == h[k]
    {
    }
    hide Apply, After;
  }

  /** The keeper at any time is the seeded one or the one appointed last, always by the owner. */
  lemma {:induction false} KeeperIsAppointed(s: VaultState, h: History)
    ensures || (NoneAppointed(s, h) && After(s, h).keeper == s.keeper)
            || exists i: nat :: AppointedAt(s, h, i, After(s, h).keeper) && h[i].env.caller == s.owner
                                && After(s, h).keeper != ""
    decreases |h|
  {
    if h != [] {
      var n := |h| - 1;
      KeeperIsAppointed(s, h[..n]);
      OwnerStays(s, h[..n]);
      TurnKeeper(After(s, h[..n]), h[n]);
      hide Apply, Turn;
      if h[n].call.SetKeeper? && Accepted(s, h, n) {
        assert AppointedAt(s, h, n, After(s, h).keeper);
      } else if NoneAppointed(s, h[..n]) && After(s, h[..n]).keeper == s.keeper {
        AppointedStill(s, h, 0, s.keeper);
      } else {
        var i: nat :| AppointedAt(s, h[..n], i, After(s, h[..n]).keeper);
        AppointedStill(s, h, i, After(s, h[..n]).keeper);
      }
    }
  }

  /**
   Exactly when a swap executes: the keeper of the time calls an open, cooled-down vault within its limits and
   its budget, before a deadline that is not too far off, for no less than the quote allows, and gets it.
   */
  lemma ExecutesExactly(s: VaultState, h: History, k: nat)
    requires k < |h| && h[k].call.ExecuteSwap?
    ensures var before, env, call := After(s, h[..k]), h[k].env, h[k].call;
            Executed(s, h, k) <==>
            && env.caller == before.keeper
            && !before.paused
            && 0.0 < call.amountIn <= before.limits.maxTradeSize
            && before.spentTotal + call.amountIn <= before.limits.totalSpendCap
            && call.amountIn <= before.Balance(before.src)
            && (before.lastExecution.Some? ==>
                  env.now >= before.lastExecution.value + before.limits.cooldownSeconds * SECOND)
            && env.now < call.deadline <= env.now + before.limits.maxDeadlineSeconds * SECOND
            && {before.src, before.tokenOut} <= env.tokens
            && call.quote.Some?
            && call.paid.Some?
            && call.paid.value >= call.amountOutMin > 0.0
            && call.amountOutMin >= call.quote.value * ((10_000 - before.limits.maxSlippageBps) as real / 10_000.0)
  {
  }

  /** What an executed swap does, and nothing else. */
  lemma ExecutionEffect(s: VaultState, h: History, k: nat)
    requires k < |h| && Executed(s, h, k)
    ensures var before, after := After(s, h[..k]), After(s, h[..k + 1]);
            && after == before.(held := after.held,
                                spentTotal := before.spentTotal + h[k].call.amountIn,
                                lastExecution := Some(h[k].env.now))
            && (forall token :: token !in {before.src, before.tokenOut} ==>
                  after.Balance(token) == before.Balance(token))
            && (before.src != before.tokenOut ==>
                  && after.Balance(before.src) == before.Balance(before.src) - h[k].call.amountIn
                  && h[k].call.paid.Some?
                  && after.Balance(before.tokenOut) == before.Balance(before.tokenOut) + h[k].call.paid.value)
  {
    assert h[..k + 1][..k] == h[..k];
    hide SwapError, MinimumAllowed, TokenError;
  }

  /** Every execution is by the keeper of its time: the seeded one, or the one the owner appointed last. */
  lemma ExecutesAsKeeper(s: VaultState, h: History, k: nat)
    requires k < |h| && Executed(s, h, k)
    ensures var before := After(s, h[..k]);
            h[k].env.caller == before.keeper
            && h[k].env.now < h[k].call.deadline <= h[k].env.now + before.limits.maxDeadlineSeconds * SECOND
    ensures || (NoneAppointed(s, h[..k]) && h[k].env.caller == s.keeper)
            || exists i: nat :: i < k && AppointedAt(s, h[..k], i, h[k].env.caller) && h[i].env.caller == s.owner
  {
    ExecutesExactly(s, h, k);
    KeeperIsAppointed(s, h[..k]);
    hide Apply, Executed, After;
    if !(NoneAppointed(s, h[..k]) && h[k].env.caller == s.keeper) {
      var i: nat :| AppointedAt(s, h[..k], i, h[k].env.caller) && h[..k][i].env.caller == s.owner;
      assert h[i] == h[..k][i];
    }
  }

  /** Nobody gets anything accepted that is not theirs to call. */
  lemma OnlyEntitled(s: VaultState, h: History, k: nat)
    requires k < |h| && Accepted(s, h, k)
    ensures Entitled(After(s, h[..k]), h[k]) && After(s, h[..k]).owner == s.owner
  {
    OwnerStays(s, h[..k]);
    TurnKeeper(After(s, h[..k]), h[k]);
    hide Apply, Entitled;
  }

  /** Exactly when an administrative call is accepted. */
  lemma AcceptedExactly(s: VaultState, step: Step)
    requires !step.call.ExecuteSwap? && !step.call.Gift?
    ensures Apply(s, step.env, step.call).Done? <==>
            && Entitled(s, step)
            && match step.call
               case Deposit(token, amount, received) =>
                 && amount > 0.0
                 && token in {s.src, s.tokenOut} * step.env.tokens
                 && received.Some?
                 && received.value > 0.0
               case Withdraw(token, amount) =>
                 0.0 < amount <= s.Balance(token) && token in {s.src, s.tokenOut} * step.env.tokens
               case SetKeeper(keeper) => keeper != ""
               case SetPaused(_) => true
               case TightenLimits(limits) =>
                 && Tighter(s.limits, limits)
                 && 0.0 < limits.maxTradeSize <= limits.totalSpendCap
                 && s.spentTotal <= limits.totalSpendCap
                 && limits.maxSlippageBps >= 0
                 && limits.cooldownSeconds <= 2_592_000
                 && limits.maxDeadlineSeconds > 0
               case _ => true
  {
  }

  ghost predicate OnlyBalance(s: VaultState, s': VaultState, token: string, change: real) {
    && s' == s.(held := s'.held)
    && s'.Balance(token) == s.Balance(token) + change
    && forall other :: other != token ==> s'.Balance(other) == s.Balance(other)
  }

  /** An accepted administrative call changes what it is about and nothing else. */
  lemma AcceptedEffect(s: VaultState, step: Step)
    requires !step.call.ExecuteSwap? && Apply(s, step.env, step.call).Done?
    ensures var s' := Turn(s, step);
            match step.call
            case SetKeeper(keeper) => s' == s.(keeper := keeper, paused := true)
            case SetPaused(value) => s' == s.(paused := value)
            case TightenLimits(limits) => s' == s.(limits := limits, paused := true)
            case Deposit(token, _, received) => OnlyBalance(s, s', token, received.GetOr(0.0))
            case Withdraw(token, amount) => OnlyBalance(s, s', token, -amount)
            case Gift(token, amount) => OnlyBalance(s, s', token, amount)
            case ExecuteSwap(_, _, _, _, _) => true
  {
    hide TokenError, LimitsError;
  }

  /** Exactly when a vault can be seeded, and how it starts. */
  lemma SeedsExactly(
    env: Env, keeper: string, pair: int, src: string, tokenOut: string, limits: Limits,
    pairTokens: Option<(string, string)>)
    ensures var outcome := Seed(env, keeper, pair, src, tokenOut, limits, pairTokens);
            && (outcome.Done? <==>
                  && keeper != ""
                  && pair > 0
                  && src != ""
                  && src != tokenOut
                  && 0.0 < limits.maxTradeSize <= limits.totalSpendCap
                  && 0 <= limits.maxSlippageBps < 10_000
                  && 0 <= limits.cooldownSeconds <= 2_592_000
                  && 0 < limits.maxDeadlineSeconds <= 3_600
                  && pairTokens in {Some((src, tokenOut)), Some((tokenOut, src))})
            && (outcome.Done? ==>
                  && outcome.state.owner == env.caller
                  && (outcome.state.keeper, outcome.state.pair) == (keeper, pair)
                  && (outcome.state.src, outcome.state.tokenOut) == (src, tokenOut)
                  && outcome.state.limits == limits
                  && outcome.state.paused
                  && outcome.state.lastExecution.None?
                  && outcome.state.spentTotal == 0.0
                  && forall token :: outcome.state.Balance(token) == 0.0)
  {
  }

  // ---------- the money ----------

  /** What a call takes out of and puts into the vault's balance of a token. */
  function TakenBy(s: VaultState, step: Step, token: string): real {
    if Apply(s, step.env, step.call).Reverted? then 0.0
    else if step.call.Withdraw? && step.call.token == token then step.call.amount
    else if step.call.ExecuteSwap? && token == s.src then step.call.amountIn
    else 0.0
  }

  function PutBy(s: VaultState, step: Step, token: string): real {
    match Apply(s, step.env, step.call)
    case Reverted(_) => 0.0
    case Done(_) =>
      match step.call
      case Deposit(t, _, received) => if t == token then received.GetOr(0.0) else 0.0
      case Gift(t, amount) => if t == token then amount else 0.0
      case ExecuteSwap(_, _, _, _, paid) => if token == s.tokenOut then paid.GetOr(0.0) else 0.0
      case _ => 0.0
  }

  lemma TurnConserves(s: VaultState, step: Step, token: string)
    requires s.src != s.tokenOut
    ensures Turn(s, step).Balance(token) == s.Balance(token) - TakenBy(s, step, token) + PutBy(s, step, token)
    ensures TakenBy(s, step, token) >= 0.0
    ensures PutBy(s, step, token) >= 0.0
    ensures TakenBy(s, step, token) > 0.0 && !step.call.ExecuteSwap? ==> step.env.caller == s.owner
  {
    hide MinimumAllowed, CoolingDown, TokenError;
  }

  /**
   Without the owner nobody takes anything out of the vault but the keeper, who can only swap: the
   output token never leaves, and the source token leaves by executed inputs alone, within the cap.
   */
  lemma {:induction false} KeeperCannotDrain(s: VaultState, h: History, token: string)
    requires Sound(s) && forall i :: 0 <= i < |h| ==> h[i].env.caller != s.owner
    ensures After(s, h).Balance(token) >=
            s.Balance(token) - (if token == s.src then Spend(Executions(s, h)) else 0.0)
    ensures Spend(Executions(s, h)) <= s.limits.totalSpendCap - s.spentTotal
    decreases |h|
  {
    assert h[..|h|] == h;
    WithinEarlierCap(s, h, 0);
    assert h[..0] == [] && h[0..] == h;
    if h != [] {
      var n := |h| - 1;
      KeeperCannotDrain(s, h[..n], token);
      OneMore(s, h);
      SpentIsSum(s, h);
      SpentIsSum(s, h[..n]);
      LimitsTighten(s, h[..n]);
      TurnConserves(After(s, h[..n]), h[n], token);
      hide Turn, Executions;
    }
  }

  // ---------- the price ----------

  lemma LessSlippage(quote: real, bps: int, bps': int)
    requires quote >= 0.0 && bps' <= bps
    ensures MinimumAllowed(quote, bps') >= MinimumAllowed(quote, bps)
  {
    var f, f' := (BPS as real - bps as real) / BPS as real, (BPS as real - bps' as real) / BPS as real;
    assert f' >= f;
    assert quote * (f' - f) >= 0.0;
    assert quote * f' == quote * f + quote * (f' - f);
  }

  /** Every swap ever executed paid at least its quote less the slippage allowed at any earlier time. */
  lemma {:induction false} FairPrices(s: VaultState, h: History, k: nat)
    requires Sound(s) && k < |Executions(s, h)| && Executions(s, h)[k].quote >= 0.0
    ensures var e := Executions(s, h)[k];
            e.paid >= MinimumAllowed(e.quote, s.limits.maxSlippageBps) && e.paid > 0.0
    decreases |h|
  {
    var n := |h| - 1;
    OneMore(s, h);
    LimitsTighten(s, h[..n]);
    if k < |Executions(s, h[..n])| {
      FairPrices(s, h[..n], k);
    } else {
      SwapTurn(After(s, h[..n]), h[n]);
      hide MinimumAllowed, Executions, Turn;
      LessSlippage(h[n].call.quote.value, s.limits.maxSlippageBps, After(s, h[..n]).limits.maxSlippageBps);
    }
  }
}
