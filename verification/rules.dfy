/** The price-move trigger. */
module Rules {
  import opened Wrappers
  import opened Config
  import opened Dex

  datatype RuleRuntimeState = RuleRuntimeState(baselinePrice: Option<real>, lastActionAt: Option<int>)

  const PRICE_MOVE := "price_move_threshold_reached"

  const FRESH := RuleRuntimeState(None, None)

  datatype RuleDecision = RuleDecision(
    shouldExecute: bool,
    reason: string,
    currentPrice: Option<real>,
    changeBps: Option<real>,
    nextBaselinePrice: Option<real>)

  function Change(baseline: real, price: real): real
    requires baseline != 0.0
  {
    ((price - baseline) / baseline) * BPS as real
  }

  predicate ThresholdReached(direction: Direction, changeBps: real, thresholdBps: int) {
    match direction
    case Up => changeBps >= thresholdBps as real
    case Down => changeBps <= -(thresholdBps as real)
    case Either => (if changeBps < 0.0 then -changeBps else changeBps) >= thresholdBps as real
  }

  predicate Cooling(trigger: PriceMoveTriggerConfig, lastActionAt: Option<int>, now: int) {
    && lastActionAt.Some?
    && trigger.cooldownSeconds > 0
    && now < lastActionAt.value + trigger.cooldownSeconds * SECOND
  }

  function EvaluatePriceMove(
    rule: RuleConfig, snapshot: PairSnapshot, state: RuleRuntimeState, now: int): (decision: RuleDecision)
  {
    var current := snapshot.Price();
    if current.None? then
      RuleDecision(false, "invalid_reserves", None, None, None)
    else if state.baselinePrice.None? then
      RuleDecision(false, "baseline_initialized", current, None, current)
    else if state.baselinePrice.value <= 0.0 then
      RuleDecision(false, "invalid_baseline", current, None, current)
    else
      var change := Change(state.baselinePrice.value, current.value);
      if !ThresholdReached(rule.trigger.direction, change, rule.trigger.thresholdBps) then
        RuleDecision(false, "threshold_not_reached", current, Some(change), None)
      else if Cooling(rule.trigger, state.lastActionAt, now) then
        RuleDecision(false, "cooldown_active", current, Some(change), None)
      else
        RuleDecision(true, PRICE_MOVE, current, Some(change), current)
  }
}
