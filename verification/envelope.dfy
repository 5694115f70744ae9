/** The service's configuration envelope makes the calls it builds acceptable to the vault. */
module Envelope {
  import opened Wrappers
  import opened Config
  import opened Dex
  import opened Protocol
  import opened History
  import opened Runs
  import opened Theorems
  import opened QuoteLaws
  import V = Vault
  import VaultHistory

  /** The service's picture of the vault promises no more than the vault's own limits. */
  predicate Mirrors(strategy: StrategyVaultConfig, limits: V.Limits) {
    && strategy.maxTradeSize <= limits.maxTradeSize
    && strategy.maxSlippageBps <= limits.maxSlippageBps
    && strategy.maxDeadlineSeconds <= limits.maxDeadlineSeconds
  }

  /** A rounding of decimal results that respects the order. */
  ghost predicate Monotone(round: real -> real) {
    forall x: real, y: real {:trigger round(x), round(y)} :: x <= y ==> round(x) <= round(y)
  }

  /** `quote * ((BPS - slippage) / BPS)`, each operation rounded. */
  function Slipped(round: real -> real, quote: real, slippageBps: int): real {
    round(quote * round((BPS as real - slippageBps as real) / BPS as real))
  }

  /** Allowing less slippage never asks for less output, however the decimals are rounded. */
  lemma SlippedOrder(round: real -> real, quote: real, lower: int, higher: int)
    requires Monotone(round) && quote >= 0.0 && lower <= higher
    ensures Slipped(round, quote, lower) >= Slipped(round, quote, higher)
  {
    var f, g := (BPS as real - higher as real) / BPS as real, (BPS as real - lower as real) / BPS as real;
    assert f <= g;
    assert round(f) <= round(g);
    assert quote * (round(g) - round(f)) >= 0.0;
    assert quote * round(g) == quote * round(f) + quote * (round(g) - round(f));
    assert round(quote * round(f)) <= round(quote * round(g));
  }

  /** The guards of `execute_swap` that the envelope is about. */
  predicate TradeSizeGuard(limits: V.Limits, amountIn: real) {
    0.0 < amountIn <= limits.maxTradeSize
  }

  predicate DeadlineGuard(limits: V.Limits, now: int, deadline: int) {
    now < deadline <= now + limits.maxDeadlineSeconds * SECOND
  }

  /**
   A rule of an accepted configuration whose limits lie within the vault's builds a call that passes
   the trade-size, slippage and deadline guards, provided the vault sees the quote the service saw
   and chain time has passed the base of the deadline but not the deadline itself.
   */
  lemma AcceptedByVault(
    config: AutomationConfig, rule: RuleConfig, limits: V.Limits, snapshot: PairSnapshot, wallet: Option<string>,
    quote: real, base: int, now: int, round: real -> real)
    requires config.custody.StrategyVault? && EnvelopeHolds(config)
    requires rule in config.rules && RuleFieldsOk(rule)
    requires Mirrors(config.custody.strategy, limits)
    requires Monotone(round) && quote >= 0.0
    requires snapshot.pairId == rule.trigger.pairId
    ensures var least := Slipped(round, quote, rule.action.maxSlippageBps);
            var call := BuildSwapExactInCall(config, wallet, snapshot, rule.action, least, base);
            && (call.Some? <==>
                  snapshot.ReservesForSrc(rule.action.src).Some?
                  && snapshot.ReservesForSrc(rule.action.src).value.2 == config.custody.strategy.tokenOut)
            && (call.Some? ==>
                  && call == Some(VaultSwap(config.custody.strategy.contract, rule.action.amountIn, least,
                                            XianDeadline(rule.action.deadlineSeconds, base).GetOr(base)))
                  && TradeSizeGuard(limits, call.value.amountIn)
                  && call.value.amountOutMin >= Slipped(round, quote, limits.maxSlippageBps)
                  && (base <= now < call.value.deadline ==> DeadlineGuard(limits, now, call.value.deadline)))
  {
    assert WithinEnvelope(config.custody.strategy, rule);
    SlippedOrder(round, quote, rule.action.maxSlippageBps, limits.maxSlippageBps);
    DeadlineWindow(rule.action.deadlineSeconds, base);
  }

  /**
   When chain time lags the base, as it may under the wall-clock fallback, the margin taken off the
   deadline and whatever the vault allows beyond the rule's span is the lag that is tolerated.
   */
  lemma LagTolerated(limits: V.Limits, deadlineSeconds: int, base: int, lag: nat)
    requires deadlineSeconds > 0
    ensures var deadline := XianDeadline(deadlineSeconds, base).value;
            var margin := if deadlineSeconds >= 6 then DEADLINE_SAFETY_MARGIN_SECONDS else deadlineSeconds - 1;
            DeadlineGuard(limits, base - lag, deadline)
            <==> lag <= (limits.maxDeadlineSeconds - deadlineSeconds + margin) * SECOND
  {
  }

  /**
   In exact arithmetic: an open, cooled-down vault with the budget and the balance executes the swap a
   rule builds from the quote of the shared snapshot, whatever the pool pays from that quote's minimum up.
   */
  lemma SwapGoesThrough(
    config: AutomationConfig, rule: RuleConfig, s: V.VaultState, env: V.Env, snapshot: PairSnapshot,
    feeBps: int, wallet: Option<string>, base: int, paid: real)
    requires config.custody.StrategyVault? && EnvelopeHolds(config)
    requires rule in config.rules && RuleFieldsOk(rule)
    requires Mirrors(config.custody.strategy, s.limits)
    requires snapshot.pairId == rule.trigger.pairId && snapshot.reserve0 > 0.0 && snapshot.reserve1 > 0.0
    requires snapshot.ReservesForSrc(rule.action.src).Some?
    requires snapshot.ReservesForSrc(rule.action.src).value.2 == config.custody.strategy.tokenOut
    requires 0 <= feeBps < BPS
    requires s.src == rule.action.src && s.tokenOut == config.custody.strategy.tokenOut
    requires {s.src, s.tokenOut} <= env.tokens
    requires env.caller == s.keeper && !s.paused && !V.CoolingDown(s, env.now)
    requires s.spentTotal + rule.action.amountIn <= s.limits.totalSpendCap
    requires rule.action.amountIn <= s.Balance(s.src)
    requires base <= env.now < XianDeadline(rule.action.deadlineSeconds, base).GetOr(base)
    ensures var quote := QuoteExactIn(snapshot, rule.action.src, rule.action.amountIn, feeBps);
            && quote.Some?
            && var least := MinimumAllowed(quote.value, rule.action.maxSlippageBps);
            && var call := BuildSwapExactInCall(config, wallet, snapshot, rule.action, least, base);
            && call.Some?
            && call.value.VaultSwap?
            && (paid >= least ==>
                  V.AfterExecuteSwap(s, env, call.value.amountIn, call.value.amountOutMin, call.value.deadline,
                                     quote, Some(paid)).Done?)
  {
    QuoteExactInIsQuote(snapshot, rule.action.src, rule.action.amountIn, feeBps);
    var quote := QuoteExactIn(snapshot, rule.action.src, rule.action.amountIn, feeBps).value;
    var least := MinimumAllowed(quote, rule.action.maxSlippageBps);
    MinimumPositive(quote, rule.action.maxSlippageBps);
    ExactlyAccepted(config, rule, s.limits, snapshot, wallet, quote, base, env.now);
    var call := BuildSwapExactInCall(config, wallet, snapshot, rule.action, least, base);
    hide QuoteExactIn, MinimumAllowed, BuildSwapExactInCall;
    hide XianDeadline, EnvelopeHolds, V.CoolingDown, V.AfterExecuteSwap;
    if paid >= least {
      GuardsSuffice(s, env, call.value.amountIn, least, call.value.deadline, quote, paid);
    }
  }

  lemma ExactlyAccepted(
    config: AutomationConfig, rule: RuleConfig, limits: V.Limits, snapshot: PairSnapshot, wallet: Option<string>,
    quote: real, base: int, now: int)
    requires config.custody.StrategyVault? && EnvelopeHolds(config)
    requires rule in config.rules && RuleFieldsOk(rule)
    requires Mirrors(config.custody.strategy, limits)
    requires quote >= 0.0 && snapshot.pairId == rule.trigger.pairId
    requires snapshot.ReservesForSrc(rule.action.src).Some?
    requires snapshot.ReservesForSrc(rule.action.src).value.2 == config.custody.strategy.tokenOut
    requires base <= now < XianDeadline(rule.action.deadlineSeconds, base).GetOr(base)
    ensures var least := MinimumAllowed(quote, rule.action.maxSlippageBps);
            var deadline := XianDeadline(rule.action.deadlineSeconds, base).GetOr(base);
            && BuildSwapExactInCall(config, wallet, snapshot, rule.action, least, base)
               == Some(VaultSwap(config.custody.strategy.contract, rule.action.amountIn, least, deadline))
            && TradeSizeGuard(limits, rule.action.amountIn)
            && least >= MinimumAllowed(quote, limits.maxSlippageBps)
            && DeadlineGuard(limits, now, deadline)
  {
    var exact := (x: real) => x;
    assert Slipped(exact, quote, rule.action.maxSlippageBps) == MinimumAllowed(quote, rule.action.maxSlippageBps);
    assert Slipped(exact, quote, limits.maxSlippageBps) == MinimumAllowed(quote, limits.maxSlippageBps);
    hide Slipped, MinimumAllowed, BuildSwapExactInCall, XianDeadline, EnvelopeHolds;
    AcceptedByVault(config, rule, limits, snapshot, wallet, quote, base, now, exact);
  }

  lemma GuardsSuffice(
    s: V.VaultState, env: V.Env, amountIn: real, amountOutMin: real, deadline: int, quote: real, paid: real)
    requires env.caller == s.keeper && !s.paused && !V.CoolingDown(s, env.now)
    requires TradeSizeGuard(s.limits, amountIn) && DeadlineGuard(s.limits, env.now, deadline)
    requires s.spentTotal + amountIn <= s.limits.totalSpendCap && amountIn <= s.Balance(s.src)
    requires 0.0 < amountOutMin <= paid && amountOutMin >= MinimumAllowed(quote, s.limits.maxSlippageBps)
    requires {s.src, s.tokenOut} <= env.tokens
    ensures V.AfterExecuteSwap(s, env, amountIn, amountOutMin, deadline, Some(quote), Some(paid)).Done?
  {
    hide MinimumAllowed, V.CoolingDown;
  }

  lemma MinimumPositive(quote: real, slippageBps: int)
    requires quote > 0.0 && 0 <= slippageBps < BPS
    ensures MinimumAllowed(quote, slippageBps) > 0.0
  {
    Positive(quote, (BPS as real - slippageBps as real) / BPS as real);
  }

  // ---------- what the service journals ----------

  /** Pair and direction are those of the vault. */
  predicate ForStrategy(strategy: StrategyVaultConfig, origin: Origin) {
    var s := origin.snapshot;
    && origin.rule.trigger.pairId == s.pairId == strategy.pairId
    && origin.rule.action.src == strategy.src
    && ((strategy.src == s.token0 && strategy.tokenOut == s.token1)
        || (strategy.src == s.token1 && strategy.tokenOut == s.token0))
  }

  /**
   Every journaled swap carries the call the program makes of four recorded facts: an enabled rule of the
   configuration it names, the snapshot stored with its run, whose price was observed in the rule's market
   before, the fee the router quoted for that snapshot, and the node's base of the deadline.  It is signed
   for the chain that configuration names, if it names one.
   */
  lemma JournaledIsBuilt(w: World, j: nat)
    requires Reachable(w) && j < |w.log| && w.log[j].Journaled?
    ensures var e, origin, before := w.log[j], w.log[j].origin, w.log[..j];
            && origin.rule in e.row.config.rules
            && origin.rule.id == e.ruleId
            && origin.rule.enabled
            && origin.snapshot.pairId == origin.rule.trigger.pairId
            && origin.snapshot.Price().Some?
            && Observed(MarketOf(e.row.config, origin.snapshot.pairId), origin.snapshot.Price().value, e.row) in before
            && Quoted(e.ruleId, origin.snapshot, origin.feeBps) in before
            && Dated(e.tx, origin.base) in before
            && e.run < |w.core.db.runs|
            && w.core.db.runs[e.run].tx == Some(e.tx)
            && w.core.db.runs[e.run].details.snapshot == origin.snapshot
            && e.row.config.network.chainId in {None, Some(e.tx.account.chain)}
            && SwapCall(e.row.config, Some(e.tx.account.sender), origin.snapshot, origin.rule.action,
                        origin.feeBps, origin.base) == Some(e.tx.call)
  {
    hide Reachable, SwapCall;
    ReachableIsLawful(w);
    LawAt(w.log, j);
    ReachableHasEvidence(w, w.log[j]);
  }

  /**
   Every swap ever journaled under a strategy-vault configuration within its envelope is a call to the
   configured vault which, for limits the configuration mirrors, passes the trade-size guard, asks for the
   rule's and hence no less than the vault's share of the quote on the run's own snapshot at the fee the
   router answered, and has a deadline after the node's base, up to which it passes the deadline guard.
   */
  lemma JournaledIsAcceptable(w: World, j: nat, limits: V.Limits)
    requires Reachable(w) && j < |w.log| && w.log[j].Journaled?
    requires var config := w.log[j].row.config;
             && config.custody.StrategyVault?
             && EnvelopeHolds(config)
             && (forall rule :: rule in config.rules ==> RuleFieldsOk(rule))
             && Mirrors(config.custody.strategy, limits)
    ensures w.log[j].run < |w.core.db.runs|
    ensures var call, action := w.log[j].tx.call, w.log[j].origin.rule.action;
            && call.VaultSwap?
            && call.contract == w.log[j].row.config.custody.strategy.contract
            && call.amountIn == action.amountIn
            && TradeSizeGuard(limits, call.amountIn)
            && ForStrategy(w.log[j].row.config.custody.strategy, w.log[j].origin)
    ensures var call, origin := w.log[j].tx.call, w.log[j].origin;
            var snapshot := w.core.db.runs[w.log[j].run].details.snapshot;
            var quote := QuoteExactIn(snapshot, origin.rule.action.src, origin.rule.action.amountIn, origin.feeBps);
            && Quoted(w.log[j].ruleId, snapshot, origin.feeBps) in w.log[..j]
            && quote.Some?
            && call.amountOutMin == Reduced(quote.value, origin.rule.action.maxSlippageBps)
            && (0 <= origin.feeBps < BPS ==>
                  call.amountOutMin > 0.0 && call.amountOutMin >= Reduced(quote.value, limits.maxSlippageBps))
    ensures var call, origin := w.log[j].tx.call, w.log[j].origin;
            && Dated(w.log[j].tx, origin.base) in w.log[..j]
            && call.deadline == origin.base + Span(origin.rule.action.deadlineSeconds) * SECOND
            && origin.base < call.deadline
            && forall now :: origin.base <= now < call.deadline ==> DeadlineGuard(limits, now, call.deadline)
  {
    hide *;
    JournaledIsBuilt(w, j);
    BuiltIsAcceptable(w.log[j].row.config, w.log[j].tx.account.sender, w.log[j].origin, w.log[j].tx.call, limits);
  }

  lemma BuiltIsAcceptable(
    config: AutomationConfig, sender: string, origin: Origin, call: CallPlan, limits: V.Limits)
    requires config.custody.StrategyVault? && EnvelopeHolds(config) && Mirrors(config.custody.strategy, limits)
    requires forall rule :: rule in config.rules ==> RuleFieldsOk(rule)
    requires origin.rule in config.rules && origin.snapshot.pairId == origin.rule.trigger.pairId
    requires origin.snapshot.Price().Some?
    requires SwapCall(config, Some(sender), origin.snapshot, origin.rule.action, origin.feeBps, origin.base)
             == Some(call)
    ensures var action := origin.rule.action;
            && call.VaultSwap?
            && call.contract == config.custody.strategy.contract
            && call.amountIn == action.amountIn
            && TradeSizeGuard(limits, call.amountIn)
            && ForStrategy(config.custody.strategy, origin)
    ensures var action := origin.rule.action;
            var quote := QuoteExactIn(origin.snapshot, action.src, action.amountIn, origin.feeBps);
            && quote.Some?
            && call.amountOutMin == Reduced(quote.value, action.maxSlippageBps)
            && (0 <= origin.feeBps < BPS ==>
                  call.amountOutMin > 0.0 && call.amountOutMin >= Reduced(quote.value, limits.maxSlippageBps))
    ensures call.deadline == origin.base + Span(origin.rule.action.deadlineSeconds) * SECOND
    ensures origin.base < call.deadline
    ensures forall now :: origin.base <= now < call.deadline ==> DeadlineGuard(limits, now, call.deadline)
  {
    var action, snapshot := origin.rule.action, origin.snapshot;
    assert WithinEnvelope(config.custody.strategy, origin.rule);
    var quote := QuoteExactIn(snapshot, action.src, action.amountIn, origin.feeBps).value;
    BuiltCall(config, Some(sender), snapshot, action, MinimumAllowed(quote, action.maxSlippageBps), origin.base);
    DeadlineWindow(action.deadlineSeconds, origin.base);
    if 0 <= origin.feeBps < BPS {
      QuoteExactInIsQuote(snapshot, action.src, action.amountIn, origin.feeBps);
      MinimumPositive(quote, action.maxSlippageBps);
      VaultHistory.LessSlippage(quote, limits.maxSlippageBps, action.maxSlippageBps);
    }
  }

  lemma BuiltCall(
    config: AutomationConfig, wallet: Option<string>, snapshot: PairSnapshot, action: SwapExactInActionConfig,
    least: real, base: int)
    requires config.custody.StrategyVault?
    ensures var call := BuildSwapExactInCall(config, wallet, snapshot, action, least, base);
            call.Some? ==>
              && XianDeadline(action.deadlineSeconds, base).Some?
              && call.value == VaultSwap(config.custody.strategy.contract, action.amountIn, least,
                                         XianDeadline(action.deadlineSeconds, base).value)
              && snapshot.pairId == config.custody.strategy.pairId
              && action.src == config.custody.strategy.src
              && snapshot.ReservesForSrc(action.src).Some?
              && snapshot.ReservesForSrc(action.src).value.2 == config.custody.strategy.tokenOut
  {
  }

  /**
   Every swap ever journaled under a direct-wallet configuration is a call to the configured router for the
   rule's pair, source token and amount, which pays the rule's recipient, else the wallet's, else the signer,
   and asks for the rule's share of the quote on the run's own snapshot at the fee the router answered.
   */
  lemma JournaledIsRouterSwap(w: World, j: nat)
    requires Reachable(w) && j < |w.log| && w.log[j].Journaled?
    requires w.log[j].row.config.custody.DirectWallet?
    ensures w.log[j].run < |w.core.db.runs|
    ensures var e, call, rule := w.log[j], w.log[j].tx.call, w.log[j].origin.rule;
            && call.RouterSwap?
            && call.contract == e.row.config.dex.routerContract
            && call.pair == rule.trigger.pairId
            && call.src == rule.action.src
            && call.amountIn == rule.action.amountIn
            && call.to == Payee(rule.action, e.row.config.wallet, e.tx.account.sender)
    ensures var call, origin := w.log[j].tx.call, w.log[j].origin;
            var snapshot := w.core.db.runs[w.log[j].run].details.snapshot;
            var quote := QuoteExactIn(snapshot, origin.rule.action.src, origin.rule.action.amountIn, origin.feeBps);
            && Quoted(w.log[j].ruleId, snapshot, origin.feeBps) in w.log[..j]
            && quote.Some?
            && call.amountOutMin == Reduced(quote.value, origin.rule.action.maxSlippageBps)
    ensures var call, origin := w.log[j].tx.call, w.log[j].origin;
            && Dated(w.log[j].tx, origin.base) in w.log[..j]
            && origin.rule.action.deadlineSeconds > 0
            && call.deadline == origin.base + Span(origin.rule.action.deadlineSeconds) * SECOND
  {
    hide *;
    JournaledIsBuilt(w, j);
    BuiltIsRouterSwap(w.log[j].row.config, w.log[j].tx.account.sender, w.log[j].origin, w.log[j].tx.call);
  }

  lemma BuiltIsRouterSwap(config: AutomationConfig, sender: string, origin: Origin, call: CallPlan)
    requires config.custody.DirectWallet? && origin.snapshot.pairId == origin.rule.trigger.pairId
    requires SwapCall(config, Some(sender), origin.snapshot, origin.rule.action, origin.feeBps, origin.base)
             == Some(call)
    ensures var action := origin.rule.action;
            && call.RouterSwap?
            && call.contract == config.dex.routerContract
            && call.pair == origin.rule.trigger.pairId
            && call.src == action.src
            && call.amountIn == action.amountIn
            && call.to == Payee(action, config.wallet, sender)
    ensures var action := origin.rule.action;
            var quote := QuoteExactIn(origin.snapshot, action.src, action.amountIn, origin.feeBps);
            quote.Some? && call.amountOutMin == Reduced(quote.value, action.maxSlippageBps)
    ensures origin.rule.action.deadlineSeconds > 0
    ensures call.deadline == origin.base + Span(origin.rule.action.deadlineSeconds) * SECOND
  {
    var action, snapshot := origin.rule.action, origin.snapshot;
    var quote := QuoteExactIn(snapshot, action.src, action.amountIn, origin.feeBps).value;
    DirectCall(config, sender, snapshot, action, MinimumAllowed(quote, action.maxSlippageBps), origin.base);
    DeadlineWindow(action.deadlineSeconds, origin.base);
  }

  /** What an accepted strategy-vault configuration is. */
  lemma EnvelopeExactly(config: AutomationConfig)
    requires config.custody.StrategyVault?
    ensures EnvelopeHolds(config) <==>
            && config.wallet.recipient.None?
            && forall rule :: rule in config.rules ==>
                 var strategy, action, trigger := config.custody.strategy, rule.action, rule.trigger;
                 && trigger.pairId == strategy.pairId
                 && action.src == strategy.src
                 && action.recipient.None?
                 && action.amountIn <= strategy.maxTradeSize
                 && action.maxSlippageBps <= strategy.maxSlippageBps
                 && action.deadlineSeconds <= strategy.maxDeadlineSeconds
                 && trigger.cooldownSeconds >= strategy.cooldownSeconds
  {
  }

  /**
   Under a configuration within its envelope a swap is journaled only on a decision that comes at least the
   vault's own cooldown after every earlier success, dry run or recovered receipt of its rule.
   */
  lemma JournaledAfterCooldown(w: World, j: nat) returns (k: nat)
    requires Reachable(w) && j < |w.log| && w.log[j].Journaled?
    requires w.log[j].row.config.custody.StrategyVault? && EnvelopeHolds(w.log[j].row.config)
    requires w.log[j].row.config.custody.strategy.cooldownSeconds > 0
    ensures k < j && w.log[k].Decided? && w.log[k].ruleId == w.log[j].ruleId
    ensures forall i :: 0 <= i < j && ActionOf(w.log[i], w.log[j].ruleId) ==>
              w.log[k].at >= w.log[i].at + w.log[j].row.config.custody.strategy.cooldownSeconds * SECOND
  {
    hide Reachable;
    k := ActsAfterCooldown(w, j);
    JournaledIsBuilt(w, j);
    EnvelopeExactly(w.log[j].row.config);
    forall i | 0 <= i < j && ActionOf(w.log[i], w.log[j].ruleId)
      ensures w.log[k].at >= w.log[i].at + w.log[j].row.config.custody.strategy.cooldownSeconds * SECOND
    {
      assert w.log[..j][i] == w.log[i] && w.log[i] in w.log[..j];
    }
  }
}
