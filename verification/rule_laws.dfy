/** What a price-move rule guarantees over any sequence of evaluations. */
module RuleLaws {
  import opened Wrappers
  import opened Config
  import opened Dex
  import opened Rules

  /** One evaluation; `completed` is when its action was recorded as done, if it ever was. */
  datatype Look = Look(snapshot: PairSnapshot, now: int, completed: Option<int>)

  function Decision(rule: RuleConfig, state: RuleRuntimeState, look: Look): RuleDecision {
    EvaluatePriceMove(rule, look.snapshot, state, look.now)
  }

  predicate Acted(rule: RuleConfig, state: RuleRuntimeState, look: Look) {
    Decision(rule, state, look).shouldExecute && look.completed.Some?
  }

  /** The stored state after an evaluation: a failed or abandoned action leaves it alone. */
  function AfterLook(rule: RuleConfig, state: RuleRuntimeState, look: Look): RuleRuntimeState {
    var decision := Decision(rule, state, look);
    if decision.shouldExecute then
      if look.completed.Some? then RuleRuntimeState(decision.nextBaselinePrice, look.completed) else state
    else if decision.nextBaselinePrice.Some? then state.(baselinePrice := decision.nextBaselinePrice)
    else state
  }

  function AfterLooks(rule: RuleConfig, state: RuleRuntimeState, looks: seq<Look>): RuleRuntimeState
    decreases |looks|
  {
    if looks == [] then state else AfterLooks(rule, AfterLook(rule, state, looks[0]), looks[1..])
  }

  function Actions(rule: RuleConfig, state: RuleRuntimeState, looks: seq<Look>): nat
    decreases |looks|
  {
    if looks == [] then 0
    else
      (if Acted(rule, state, looks[0]) then 1 else 0) + Actions(rule, AfterLook(rule, state, looks[0]), looks[1..])
  }

  function Power(base: real, n: nat): real {
    if n == 0 then 1.0 else base * Power(base, n - 1)
  }

  function Rise(thresholdBps: int): real {
    1.0 + thresholdBps as real / BPS as real
  }

  function Fall(thresholdBps: int): real {
    1.0 - thresholdBps as real / BPS as real
  }

  lemma {:induction false} PowerPositive(base: real, n: nat)
    requires base > 0.0
    ensures Power(base, n) > 0.0
  {
    if n > 0 {
      PowerPositive(base, n - 1);
    }
  }

  lemma Bases(thresholdBps: int)
    requires thresholdBps > 0
    ensures Rise(thresholdBps) > 0.0
    ensures Fall(thresholdBps) > 0.0 <==> thresholdBps < BPS
  {
  }

  /** The thresholds as price bounds, without the division. */
  lemma ChangeBounds(baseline: real, price: real, thresholdBps: int)
    requires baseline > 0.0
    ensures Change(baseline, price) >= thresholdBps as real <==> price >= baseline * Rise(thresholdBps)
    ensures Change(baseline, price) <= -(thresholdBps as real) <==> price <= baseline * Fall(thresholdBps)
  {
    var t := thresholdBps as real / BPS as real;
    var ratio := (price - baseline) / baseline;
    assert ratio * baseline == price - baseline;
    assert Change(baseline, price) >= thresholdBps as real <==> ratio >= t;
    assert Change(baseline, price) <= -(thresholdBps as real) <==> ratio <= -t;
    Scale(ratio, t, baseline);
    Scale(-t, ratio, baseline);
    assert baseline * Rise(thresholdBps) == baseline + t * baseline;
    assert baseline * Fall(thresholdBps) == baseline + (-t) * baseline;
  }

  lemma Scale(a: real, b: real, factor: real)
    requires factor > 0.0
    ensures a >= b <==> a * factor >= b * factor
  {
    if a < b {
      assert (b - a) * factor > 0.0;
    } else {
      assert (a - b) * factor >= 0.0;
    }
  }

  /** From baseline `b` to price `p` the market moved as far as the rule waits for. */
  predicate Moved(trigger: PriceMoveTriggerConfig, b: real, p: real) {
    match trigger.direction
    case Up => p >= b * Rise(trigger.thresholdBps)
    case Down => p <= b * Fall(trigger.thresholdBps)
    case Either => p >= b * Rise(trigger.thresholdBps) || p <= b * Fall(trigger.thresholdBps)
  }

  /** Exactly when a decision to act is taken, in terms of prices. */
  lemma ActsWhen(rule: RuleConfig, state: RuleRuntimeState, look: Look)
    ensures Decision(rule, state, look).shouldExecute <==>
            && look.snapshot.Price().Some?
            && state.baselinePrice.Some?
            && state.baselinePrice.value > 0.0
            && (state.lastActionAt.Some? && rule.trigger.cooldownSeconds > 0 ==>
                  look.now >= state.lastActionAt.value + rule.trigger.cooldownSeconds * SECOND)
            && Moved(rule.trigger, state.baselinePrice.value, look.snapshot.Price().value)
  {
    if look.snapshot.Price().Some? && state.baselinePrice.Some? && state.baselinePrice.value > 0.0 {
      ChangeBounds(state.baselinePrice.value, look.snapshot.Price().value, rule.trigger.thresholdBps);
      hide Change, Rise, Fall;
      EitherSide(Change(state.baselinePrice.value, look.snapshot.Price().value), rule.trigger.thresholdBps);
    }
  }

  /** Without a usable baseline a price becomes the baseline and nothing else happens; with one only acting moves it. */
  lemma SetsBaselineWhen(rule: RuleConfig, state: RuleRuntimeState, look: Look)
    ensures var decision := Decision(rule, state, look);
            && (decision.nextBaselinePrice.Some? <==>
                  look.snapshot.Price().Some? && (decision.shouldExecute || state.baselinePrice.GetOr(0.0) <= 0.0))
            && (decision.nextBaselinePrice.Some? ==> decision.nextBaselinePrice == look.snapshot.Price())
  {
  }

  /** Exactly why a rule does not act. */
  lemma WaitsBecause(rule: RuleConfig, state: RuleRuntimeState, look: Look)
    requires !Decision(rule, state, look).shouldExecute
    ensures var reason := Decision(rule, state, look).reason;
            var price, baseline := look.snapshot.Price(), state.baselinePrice;
            if price.None? then reason == "invalid_reserves"
            else if baseline.None? then reason == "baseline_initialized"
            else if baseline.value <= 0.0 then reason == "invalid_baseline"
            else if Moved(rule.trigger, baseline.value, price.value) then
              && reason == "cooldown_active"
              && state.lastActionAt.Some?
              && look.now < state.lastActionAt.value + rule.trigger.cooldownSeconds * SECOND
            else reason == "threshold_not_reached"
  {
    if look.snapshot.Price().Some? && state.baselinePrice.Some? && state.baselinePrice.value > 0.0 {
      ChangeBounds(state.baselinePrice.value, look.snapshot.Price().value, rule.trigger.thresholdBps);
      hide Change, Rise, Fall;
      EitherSide(Change(state.baselinePrice.value, look.snapshot.Price().value), rule.trigger.thresholdBps);
    }
  }

  lemma EitherSide(change: real, thresholdBps: int)
    ensures ThresholdReached(Either, change, thresholdBps)
            <==> change >= thresholdBps as real || change <= -(thresholdBps as real)
  {
  }

  /** Prices are positive, so evaluations never make a baseline disappear or turn non-positive. */
  lemma BaselineStays(rule: RuleConfig, state: RuleRuntimeState, look: Look)
    requires state.baselinePrice.Some? && state.baselinePrice.value > 0.0
    ensures var after := AfterLook(rule, state, look);
            && after.baselinePrice.Some?
            && after.baselinePrice.value > 0.0
            && after.baselinePrice == if Acted(rule, state, look) then look.snapshot.Price() else state.baselinePrice
  {
    var s := look.snapshot;
    if s.Price().Some? {
      assert s.reserve1 / s.reserve0 > 0.0 by {
        assert (s.reserve1 / s.reserve0) * s.reserve0 == s.reserve1;
      }
    }
  }

  lemma ActedWhen(rule: RuleConfig, state: RuleRuntimeState, look: Look)
    requires Acted(rule, state, look)
    requires state.baselinePrice.Some? && state.baselinePrice.value > 0.0
    ensures var b, t := state.baselinePrice.value, rule.trigger.thresholdBps;
            var p := AfterLook(rule, state, look).baselinePrice;
            && p.Some?
            && (rule.trigger.direction.Up? ==> p.value >= b * Rise(t))
            && (rule.trigger.direction.Down? ==> p.value <= b * Fall(t))
  {
    ActsWhen(rule, state, look);
    BaselineStays(rule, state, look);
  }

  lemma Compound(price: real, b: real, r: real, power: real)
    requires power > 0.0
    ensures price >= b * r <==> price * power >= b * (r * power)
    ensures price <= b * r <==> price * power <= b * (r * power)
  {
    Scale(price, b * r, power);
    Scale(b * r, price, power);
    assert b * r * power == b * (r * power);
  }

  /** An `up` rule that acted n times since its baseline b has seen a price of at least b (1 + t/10000)^n. */
  lemma {:induction false} UpCompounds(rule: RuleConfig, state: RuleRuntimeState, looks: seq<Look>)
    requires rule.trigger.direction.Up? && rule.trigger.thresholdBps > 0
    requires state.baselinePrice.Some? && state.baselinePrice.value > 0.0
    ensures var after := AfterLooks(rule, state, looks).baselinePrice;
            && after.Some?
            && after.value
               >= state.baselinePrice.value * Power(Rise(rule.trigger.thresholdBps), Actions(rule, state, looks))
    decreases |looks|
  {
    hide AfterLook, Acted, Rise, Fall;
    if looks != [] {
      var b, r := state.baselinePrice.value, Rise(rule.trigger.thresholdBps);
      var next := AfterLook(rule, state, looks[0]);
      var n := Actions(rule, next, looks[1..]);
      BaselineStays(rule, state, looks[0]);
      UpCompounds(rule, next, looks[1..]);
      Bases(rule.trigger.thresholdBps);
      PowerPositive(r, n);
      if Acted(rule, state, looks[0]) {
        ActedWhen(rule, state, looks[0]);
        Compound(next.baselinePrice.value, b, r, Power(r, n));
      }
    }
  }

  /** A `down` rule that acted n times is at most at b (1 - t/10000)^n. */
  lemma {:induction false} DownCompounds(rule: RuleConfig, state: RuleRuntimeState, looks: seq<Look>)
    requires rule.trigger.direction.Down? && 0 < rule.trigger.thresholdBps < BPS
    requires state.baselinePrice.Some? && state.baselinePrice.value > 0.0
    ensures var after := AfterLooks(rule, state, looks).baselinePrice;
            && after.Some?
            && after.value
               <= state.baselinePrice.value * Power(Fall(rule.trigger.thresholdBps), Actions(rule, state, looks))
    decreases |looks|
  {
    hide AfterLook, Acted, Rise, Fall;
    if looks != [] {
      var b, r := state.baselinePrice.value, Fall(rule.trigger.thresholdBps);
      var next := AfterLook(rule, state, looks[0]);
      var n := Actions(rule, next, looks[1..]);
      BaselineStays(rule, state, looks[0]);
      DownCompounds(rule, next, looks[1..]);
      Bases(rule.trigger.thresholdBps);
      PowerPositive(r, n);
      if Acted(rule, state, looks[0]) {
        ActedWhen(rule, state, looks[0]);
        Compound(next.baselinePrice.value, b, r, Power(r, n));
      }
    }
  }

  /** A `down` rule can act at all exactly when its threshold is below one hundred percent. */
  lemma DownCanAct(rule: RuleConfig)
    requires rule.trigger.direction.Down? && rule.trigger.thresholdBps > 0
    ensures (exists state, look :: Acted(rule, state, look)) <==> rule.trigger.thresholdBps < BPS
  {
    var t := rule.trigger.thresholdBps;
    forall state, look | Acted(rule, state, look)
      ensures t < BPS
    {
      ActsWhen(rule, state, look);
      BaselineStays(rule, state, look);
      Scale(0.0, Fall(t), state.baselinePrice.value);
    }
    if t < BPS {
      var snapshot := PairSnapshot(rule.trigger.pairId, "a", "b", 1.0, Fall(t));
      var state, look := RuleRuntimeState(Some(1.0), None), Look(snapshot, 0, Some(0));
      assert snapshot.Price() == Some(Fall(t));
      ActsWhen(rule, state, look);
      assert Acted(rule, state, look);
    }
  }

  /**
   After a completed action the same snapshot fires again, whatever the direction, only under a
   threshold the configuration does not admit.
   */
  lemma NeverRefires(rule: RuleConfig, state: RuleRuntimeState, look: Look, again: Look)
    requires Acted(rule, state, look) && again.snapshot == look.snapshot
    ensures var after := AfterLook(rule, state, look);
            Decision(rule, after, again).shouldExecute
            <==> rule.trigger.thresholdBps <= 0 && !Cooling(rule.trigger, after.lastActionAt, again.now)
  {
    var after := AfterLook(rule, state, look);
    var price := look.snapshot.Price().value;
    ActsWhen(rule, state, look);
    BaselineStays(rule, state, look);
    assert after.baselinePrice == Some(price) && price > 0.0;
    assert Change(price, price) == 0.0;
  }

  /** Between two actions of a rule its price moved by the threshold, however many evaluations lie between. */
  lemma {:induction false} MovesBetweenActions(rule: RuleConfig, state: RuleRuntimeState, looks: seq<Look>, again: Look)
    requires state.baselinePrice.Some? && state.baselinePrice.value > 0.0
    requires Actions(rule, state, looks) == 0 && Decision(rule, AfterLooks(rule, state, looks), again).shouldExecute
    ensures again.snapshot.Price().Some?
    ensures var b, p, t := state.baselinePrice.value, again.snapshot.Price().value, rule.trigger.thresholdBps;
            p >= b * Rise(t) || p <= b * Fall(t)
    decreases |looks|
  {
    hide AfterLook, EvaluatePriceMove, Rise, Fall;
    if looks == [] {
      ActsWhen(rule, state, again);
    } else {
      BaselineStays(rule, state, looks[0]);
      MovesBetweenActions(rule, AfterLook(rule, state, looks[0]), looks[1..], again);
    }
  }
}
