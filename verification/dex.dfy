/** Pair snapshots, the constant-product quote, deadlines and the calls built from them. */
module Dex {
  import opened Wrappers
  import opened Config

  /** Instants are microseconds. */
  const SECOND := 1_000_000

  const DEADLINE_SAFETY_MARGIN_SECONDS := 5

  datatype PairSnapshot = PairSnapshot(
    pairId: int,
    token0: string,
    token1: string,
    reserve0: real,
    reserve1: real)
  {
    function Price(): Option<real> {
      if reserve0 <= 0.0 || reserve1 <= 0.0 then None else Some(reserve1 / reserve0)
    }

    /** Input reserve, output reserve and output token, when `src` is one of the two tokens. */
    function ReservesForSrc(src: string): Option<(real, real, string)> {
      if src == token0 then Some((reserve0, reserve1, token1))
      else if src == token1 then Some((reserve1, reserve0, token0))
      else None
    }
  }

  // ---------- the quote ----------

  /** What is left of an input after the fee. */
  function AfterFee(amountIn: real, feeBps: int): real {
    amountIn * ((BPS as real - feeBps as real) / BPS as real)
  }

  /** The output of the constant-product curve for an input that already paid its fee. */
  function CurveOut(reserveIn: real, reserveOut: real, paid: real): real
    requires reserveIn + paid != 0.0
  {
    (paid * reserveOut) / (reserveIn + paid)
  }

  /** `None` where the client raises: unknown token, no liquidity, division by zero. */
  function QuoteExactIn(snapshot: PairSnapshot, src: string, amountIn: real, feeBps: int): Option<real> {
    match snapshot.ReservesForSrc(src)
    case None => None
    case Some((reserveIn, reserveOut, _)) =>
      var paid := AfterFee(amountIn, feeBps);
      if reserveIn <= 0.0 || reserveOut <= 0.0 || reserveIn + paid == 0.0 then None
      else Some(CurveOut(reserveIn, reserveOut, paid))
  }

  /** The least output the slippage limit allows for a quote. */
  function MinimumAllowed(quote: real, maxSlippageBps: int): real {
    quote * ((BPS as real - maxSlippageBps as real) / BPS as real)
  }

  // ---------- deadlines ----------

  function Min(a: int, b: int): int {
    if a < b then a else b
  }

  function Max(a: int, b: int): int {
    if a < b then b else a
  }

  /** `None` where the request is rejected. */
  function XianDeadline(secondsFromNow: int, base: int): Option<int> {
    if secondsFromNow <= 0 then None
    else
      var margin := Min(DEADLINE_SAFETY_MARGIN_SECONDS, Max(0, secondsFromNow - 1));
      Some(base + (secondsFromNow - margin) * SECOND)
  }

  // ---------- calls ----------

  datatype CallPlan =
    | VaultSwap(contract: string, amountIn: real, amountOutMin: real, deadline: int)
    | RouterSwap(
        contract: string,
        amountIn: real,
        amountOutMin: real,
        pair: int,
        src: string,
        to: string,
        deadline: int)

  /** Python's `or` on optional strings. */
  function OrElse(first: Option<string>, second: Option<string>): Option<string> {
    if first.Some? && first.value != "" then first else second
  }

  /** `None` where building raises. */
  function BuildSwapExactInCall(
    config: AutomationConfig,
    wallet: Option<string>,
    snapshot: PairSnapshot,
    action: SwapExactInActionConfig,
    amountOutMin: real,
    base: int): Option<CallPlan>
  {
    match config.custody
    case StrategyVault(strategy) =>
      (match (snapshot.ReservesForSrc(action.src), XianDeadline(action.deadlineSeconds, base))
       case (Some((_, _, tokenOut)), Some(deadline)) =>
         if snapshot.pairId != strategy.pairId || action.src != strategy.src || tokenOut != strategy.tokenOut then None
         else Some(VaultSwap(strategy.contract, action.amountIn, amountOutMin, deadline))
       case _ => None)
    case DirectWallet =>
      (match (OrElse(OrElse(action.recipient, config.wallet.recipient), wallet),
              XianDeadline(action.deadlineSeconds, base))
       case (Some(to), Some(deadline)) =>
         Some(RouterSwap(config.dex.routerContract, action.amountIn, amountOutMin,
                         snapshot.pairId, action.src, to, deadline))
       case _ => None)
  }

  /** The call a rule's action becomes: quoted, reduced by the slippage and built. */
  function SwapCall(
    config: AutomationConfig,
    wallet: Option<string>,
    snapshot: PairSnapshot,
    action: SwapExactInActionConfig,
    feeBps: int,
    base: int): Option<CallPlan>
  {
    match QuoteExactIn(snapshot, action.src, action.amountIn, feeBps)
    case None => None
    case Some(quote) =>
      BuildSwapExactInCall(config, wallet, snapshot, action, MinimumAllowed(quote, action.maxSlippageBps), base)
  }
}
