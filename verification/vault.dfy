/** The strategy vault contract: one owner, one keeper, one action, and limits that only tighten. */
module Vault {
  import opened Wrappers
  import opened Config
  import opened Dex

  const MAX_DEADLINE_SECONDS := 3_600

  const MAX_COOLDOWN_SECONDS := 2_592_000

  datatype Limits = Limits(
    maxTradeSize: real,
    totalSpendCap: real,
    maxSlippageBps: int,
    cooldownSeconds: int,
    maxDeadlineSeconds: int)

  /** The settings, the three variables, and what the token contracts hold for the vault. */
  datatype VaultState = VaultState(
    owner: string,
    keeper: string,
    pair: int,
    src: string,
    tokenOut: string,
    limits: Limits,
    spentTotal: real,
    lastExecution: Option<int>,
    paused: bool,
    held: map<string, real>)
  {
    function Balance(token: string): real {
      if token in held then held[token] else 0.0
    }

    function Credit(token: string, amount: real): VaultState {
      this.(held := held[token := Balance(token) + amount])
    }
  }

  /** The transaction around a call: who, when, and which token contracts are usable. */
  datatype Env = Env(caller: string, now: int, tokens: set<string>)

  /**
   An entrypoint with its arguments, and what the contracts it calls answer: the amount a deposit is
   credited with, the router's quote, and what a swap pays out; `None` is a call that raises.
   `Gift` is somebody else's transfer to the vault.
   */
  datatype Call =
    | Deposit(token: string, amount: real, received: Option<real>)
    | Withdraw(token: string, amount: real)
    | SetKeeper(keeper: string)
    | SetPaused(value: bool)
    | TightenLimits(limits: Limits)
    | ExecuteSwap(amountIn: real, amountOutMin: real, deadline: int, quote: Option<real>, paid: Option<real>)
    | Gift(token: string, amount: real)

  /** A reverted call leaves no trace. */
  datatype Outcome = Done(state: VaultState) | Reverted(error: string)

  // ---------- seed ----------

  function Seed(
    env: Env, keeper: string, pair: int, src: string, tokenOut: string, limits: Limits,
    pairTokens: Option<(string, string)>): Outcome
  {
    if keeper == "" then Reverted("VAULT: INVALID_KEEPER")
    else if pair <= 0 then Reverted("VAULT: INVALID_PAIR")
    else if src == "" then Reverted("VAULT: INVALID_SRC")
    else if tokenOut == src then Reverted("VAULT: INVALID_TOKEN_OUT")
    else if limits.maxTradeSize <= 0.0 then Reverted("VAULT: INVALID_MAX_TRADE_SIZE")
    else if limits.totalSpendCap < limits.maxTradeSize then Reverted("VAULT: INVALID_SPEND_CAP")
    else if !(0 <= limits.maxSlippageBps < BPS) then Reverted("VAULT: INVALID_SLIPPAGE")
    else if !(0 <= limits.cooldownSeconds <= MAX_COOLDOWN_SECONDS) then Reverted("VAULT: INVALID_COOLDOWN")
    else if !(0 < limits.maxDeadlineSeconds <= MAX_DEADLINE_SECONDS) then Reverted("VAULT: INVALID_DEADLINE")
    else if pairTokens.None? then Reverted("VAULT: PAIR_NOT_FOUND")
    else if pairTokens.value != (src, tokenOut) && pairTokens.value != (tokenOut, src) then
      Reverted("VAULT: TOKEN_PAIR_MISMATCH")
    else Done(VaultState(env.caller, keeper, pair, src, tokenOut, limits, 0.0, None, true, map[]))
  }

  // ---------- entrypoints ----------

  /** The error of `require_token`, if any. */
  function TokenError(s: VaultState, env: Env, token: string): Option<string> {
    if token != s.src && token != s.tokenOut then Some("VAULT: TOKEN_NOT_ALLOWED")
    else if token !in env.tokens then Some("VAULT: TOKEN_NOT_FOUND")
    else None
  }

  function AfterDeposit(s: VaultState, env: Env, token: string, amount: real, received: Option<real>): Outcome {
    if env.caller != s.owner then Reverted("VAULT: OWNER_ONLY")
    else if amount <= 0.0 then Reverted("VAULT: INVALID_AMOUNT")
    else if TokenError(s, env, token).Some? then Reverted(TokenError(s, env, token).value)
    else if received.None? then Reverted("transfer failed")
    else if received.value <= 0.0 then Reverted("VAULT: NO_TOKENS_RECEIVED")
    else Done(s.Credit(token, received.value))
  }

  function AfterWithdraw(s: VaultState, env: Env, token: string, amount: real): Outcome {
    if env.caller != s.owner then Reverted("VAULT: OWNER_ONLY")
    else if amount <= 0.0 then Reverted("VAULT: INVALID_AMOUNT")
    else if TokenError(s, env, token).Some? then Reverted(TokenError(s, env, token).value)
    else if s.Balance(token) < amount then Reverted("VAULT: INSUFFICIENT_BALANCE")
    else Done(s.Credit(token, -amount))
  }

  function AfterSetKeeper(s: VaultState, env: Env, keeper: string): Outcome {
    if env.caller != s.owner then Reverted("VAULT: OWNER_ONLY")
    else if keeper == "" then Reverted("VAULT: INVALID_KEEPER")
    else Done(s.(keeper := keeper, paused := true))
  }

  function AfterSetPaused(s: VaultState, env: Env, value: bool): Outcome {
    if value && env.caller != s.owner && env.caller != s.keeper then Reverted("VAULT: PAUSE_FORBIDDEN")
    else if !value && env.caller != s.owner then Reverted("VAULT: OWNER_ONLY")
    else Done(s.(paused := value))
  }

  function LimitsError(s: VaultState, limits: Limits): Option<string> {
    if limits.maxTradeSize <= 0.0 then Some("VAULT: INVALID_MAX_TRADE_SIZE")
    else if limits.maxTradeSize > s.limits.maxTradeSize then Some("VAULT: LIMIT_INCREASE")
    else if limits.totalSpendCap < s.spentTotal then Some("VAULT: CAP_BELOW_SPENT")
    else if limits.totalSpendCap > s.limits.totalSpendCap then Some("VAULT: LIMIT_INCREASE")
    else if limits.maxTradeSize > limits.totalSpendCap then Some("VAULT: INVALID_SPEND_CAP")
    else if !(0 <= limits.maxSlippageBps <= s.limits.maxSlippageBps) then Some("VAULT: LIMIT_INCREASE")
    else if !(s.limits.cooldownSeconds <= limits.cooldownSeconds <= MAX_COOLDOWN_SECONDS)
    then Some("VAULT: LIMIT_INCREASE")
    else if !(0 < limits.maxDeadlineSeconds <= s.limits.maxDeadlineSeconds) then Some("VAULT: LIMIT_INCREASE")
    else None
  }

  function AfterTightenLimits(s: VaultState, env: Env, limits: Limits): Outcome {
    if env.caller != s.owner then Reverted("VAULT: OWNER_ONLY")
    else if LimitsError(s, limits).Some? then Reverted(LimitsError(s, limits).value)
    else Done(s.(limits := limits, paused := true))
  }

  function CoolingDown(s: VaultState, now: int): bool {
    s.lastExecution.Some? && now < s.lastExecution.value + s.limits.cooldownSeconds * SECOND
  }

  /** The guards of `execute_swap` before the router is asked for a quote. */
  function SwapError(s: VaultState, env: Env, amountIn: real, amountOutMin: real, deadline: int): Option<string> {
    if env.caller != s.keeper then Some("VAULT: KEEPER_ONLY")
    else if s.paused then Some("VAULT: PAUSED")
    else if amountIn <= 0.0 then Some("VAULT: INVALID_AMOUNT")
    else if amountIn > s.limits.maxTradeSize then Some("VAULT: TRADE_CAP_EXCEEDED")
    else if s.spentTotal + amountIn > s.limits.totalSpendCap then Some("VAULT: SPEND_CAP_EXCEEDED")
    else if amountOutMin <= 0.0 then Some("VAULT: INVALID_MIN_OUT")
    else if env.now >= deadline then Some("VAULT: EXPIRED")
    else if deadline > env.now + s.limits.maxDeadlineSeconds * SECOND then Some("VAULT: DEADLINE_TOO_LONG")
    else if CoolingDown(s, env.now) then Some("VAULT: COOLDOWN")
    else None
  }

  function AfterExecuteSwap(
    s: VaultState, env: Env, amountIn: real, amountOutMin: real, deadline: int,
    quote: Option<real>, paid: Option<real>): Outcome
  {
    if SwapError(s, env, amountIn, amountOutMin, deadline).Some? then
      Reverted(SwapError(s, env, amountIn, amountOutMin, deadline).value)
    else if quote.None? then Reverted("VAULT: INVALID_QUOTE")
    else if amountOutMin < MinimumAllowed(quote.value, s.limits.maxSlippageBps)
    then Reverted("VAULT: SLIPPAGE_EXCEEDED")
    else if TokenError(s, env, s.src).Some? then Reverted(TokenError(s, env, s.src).value)
    else if TokenError(s, env, s.tokenOut).Some? then Reverted(TokenError(s, env, s.tokenOut).value)
    else if s.Balance(s.src) < amountIn then Reverted("VAULT: INSUFFICIENT_BALANCE")
    else if paid.None? then Reverted("swap failed")
    else if paid.value < amountOutMin then Reverted("VAULT: INSUFFICIENT_OUTPUT")
    else
      Done(s.Credit(s.src, -amountIn).Credit(s.tokenOut, paid.value)
            .(spentTotal := s.spentTotal + amountIn, lastExecution := Some(env.now)))
  }

  function Apply(s: VaultState, env: Env, call: Call): Outcome {
    match call
    case Deposit(token, amount, received) => AfterDeposit(s, env, token, amount, received)
    case Withdraw(token, amount) => AfterWithdraw(s, env, token, amount)
    case SetKeeper(keeper) => AfterSetKeeper(s, env, keeper)
    case SetPaused(value) => AfterSetPaused(s, env, value)
    case TightenLimits(limits) => AfterTightenLimits(s, env, limits)
    case ExecuteSwap(amountIn, amountOutMin, deadline, quote, paid) =>
      AfterExecuteSwap(s, env, amountIn, amountOutMin, deadline, quote, paid)
    case Gift(token, amount) => if amount > 0.0 then Done(s.Credit(token, amount)) else Reverted("transfer failed")
  }

  // ---------- the contract ----------

  /** What a call made of the contract: a reverted one leaves it as it was. */
  predicate Reflects(before: VaultState, outcome: Outcome, error: Option<string>, after: VaultState) {
    match outcome
    case Done(s) => error.None? && after == s
    case Reverted(message) => error == Some(message) && after == before
  }

  class StrategyVault {
    var owner: string
    var keeper: string
    var pair: int
    var src: string
    var tokenOut: string
    var limits: Limits
    var spentTotal: real
    var lastExecution: Option<int>
    var paused: bool
    var held: map<string, real>

    function State(): VaultState
      reads this
    {
      VaultState(owner, keeper, pair, src, tokenOut, limits, spentTotal, lastExecution, paused, held)
    }

    /** The deployed contract of an accepted `seed`. */
    constructor (
      env: Env, keeper: string, pair: int, src: string, tokenOut: string, limits: Limits,
      pairTokens: Option<(string, string)>)
      requires Seed(env, keeper, pair, src, tokenOut, limits, pairTokens).Done?
      ensures Seed(env, keeper, pair, src, tokenOut, limits, pairTokens) == Done(State())
    {
      owner := env.caller;
      this.keeper, this.pair, this.src, this.tokenOut, this.limits := keeper, pair, src, tokenOut, limits;
      spentTotal, lastExecution, paused, held := 0.0, None, true, map[];
    }

    method RequireToken(env: Env, token: string) returns (error: Option<string>)
      ensures error == TokenError(State(), env, token)
    {
      if token != src && token != tokenOut {
        return Some("VAULT: TOKEN_NOT_ALLOWED");
      }
      error := if token in env.tokens then None else Some("VAULT: TOKEN_NOT_FOUND");
    }

    function BalanceOf(token: string): real
      reads this
    {
      if token in held then held[token] else 0.0
    }

    method Deposit(env: Env, token: string, amount: real, received: Option<real>) returns (error: Option<string>)
      modifies this`held
      ensures Reflects(old(State()), AfterDeposit(old(State()), env, token, amount, received), error, State())
    {
      if env.caller != owner {
        return Some("VAULT: OWNER_ONLY");
      }
      if amount <= 0.0 {
        return Some("VAULT: INVALID_AMOUNT");
      }
      error := RequireToken(env, token);
      if error.Some? {
        return;
      }
      if received.None? {
        return Some("transfer failed");
      }
      var before := held;
      held := held[token := BalanceOf(token) + received.value];
      if received.value <= 0.0 {
        held := before;
        return Some("VAULT: NO_TOKENS_RECEIVED");
      }
    }

    method Withdraw(env: Env, token: string, amount: real) returns (error: Option<string>)
      modifies this`held
      ensures Reflects(old(State()), AfterWithdraw(old(State()), env, token, amount), error, State())
    {
      if env.caller != owner {
        return Some("VAULT: OWNER_ONLY");
      }
      if amount <= 0.0 {
        return Some("VAULT: INVALID_AMOUNT");
      }
      error := RequireToken(env, token);
      if error.Some? {
        return;
      }
      if BalanceOf(token) < amount {
        return Some("VAULT: INSUFFICIENT_BALANCE");
      }
      held := held[token := BalanceOf(token) - amount];
    }

    method SetKeeper(env: Env, keeper: string) returns (error: Option<string>)
      modifies this`keeper, this`paused
      ensures Reflects(old(State()), AfterSetKeeper(old(State()), env, keeper), error, State())
    {
      if env.caller != owner {
        return Some("VAULT: OWNER_ONLY");
      }
      if keeper == "" {
        return Some("VAULT: INVALID_KEEPER");
      }
      this.keeper := keeper;
      paused := true;
      error := None;
    }

    method SetPaused(env: Env, value: bool) returns (error: Option<string>)
      modifies this`paused
      ensures Reflects(old(State()), AfterSetPaused(old(State()), env, value), error, State())
    {
      if value {
        if env.caller != owner && env.caller != keeper {
          return Some("VAULT: PAUSE_FORBIDDEN");
        }
      } else if env.caller != owner {
        return Some("VAULT: OWNER_ONLY");
      }
      paused := value;
      error := None;
    }

    method TightenLimits(env: Env, target: Limits) returns (error: Option<string>)
      modifies this`limits, this`paused
      ensures Reflects(old(State()), AfterTightenLimits(old(State()), env, target), error, State())
    {
      if env.caller != owner {
        return Some("VAULT: OWNER_ONLY");
      }
      if target.maxTradeSize <= 0.0 {
        return Some("VAULT: INVALID_MAX_TRADE_SIZE");
      }
      if target.maxTradeSize > limits.maxTradeSize {
        return Some("VAULT: LIMIT_INCREASE");
      }
      if target.totalSpendCap < spentTotal {
        return Some("VAULT: CAP_BELOW_SPENT");
      }
      if target.totalSpendCap > limits.totalSpendCap {
        return Some("VAULT: LIMIT_INCREASE");
      }
      if target.maxTradeSize > target.totalSpendCap {
        return Some("VAULT: INVALID_SPEND_CAP");
      }
      if target.maxSlippageBps < 0 || target.maxSlippageBps > limits.maxSlippageBps {
        return Some("VAULT: LIMIT_INCREASE");
      }
      if target.cooldownSeconds < limits.cooldownSeconds || target.cooldownSeconds > MAX_COOLDOWN_SECONDS {
        return Some("VAULT: LIMIT_INCREASE");
      }
      if target.maxDeadlineSeconds <= 0 || target.maxDeadlineSeconds > limits.maxDeadlineSeconds {
        return Some("VAULT: LIMIT_INCREASE");
      }
      limits := target;
      paused := true;
      error := None;
    }

    /** The guards of `execute_swap` before the router is asked for a quote. */
    method CheckSwap(env: Env, amountIn: real, amountOutMin: real, deadline: int) returns (error: Option<string>)
      ensures error == SwapError(State(), env, amountIn, amountOutMin, deadline)
    {
      if env.caller != keeper {
        return Some("VAULT: KEEPER_ONLY");
      }
      if paused {
        return Some("VAULT: PAUSED");
      }
      if amountIn <= 0.0 {
        return Some("VAULT: INVALID_AMOUNT");
      }
      if amountIn > limits.maxTradeSize {
        return Some("VAULT: TRADE_CAP_EXCEEDED");
      }
      if spentTotal + amountIn > limits.totalSpendCap {
        return Some("VAULT: SPEND_CAP_EXCEEDED");
      }
      if amountOutMin <= 0.0 {
        return Some("VAULT: INVALID_MIN_OUT");
      }
      if env.now >= deadline {
        return Some("VAULT: EXPIRED");
      }
      if deadline > env.now + limits.maxDeadlineSeconds * SECOND {
        return Some("VAULT: DEADLINE_TOO_LONG");
      }
      if lastExecution.Some? {
        var nextExecution := lastExecution.value + limits.cooldownSeconds * SECOND;
        if env.now < nextExecution {
          return Some("VAULT: COOLDOWN");
        }
      }
      error := None;
    }

    method ExecuteSwap(
      env: Env, amountIn: real, amountOutMin: real, deadline: int, quote: Option<real>, paid: Option<real>)
      returns (error: Option<string>)
      modifies this`held, this`spentTotal, this`lastExecution
      ensures var outcome := AfterExecuteSwap(old(State()), env, amountIn, amountOutMin, deadline, quote, paid);
              Reflects(old(State()), outcome, error, State())
    {
      hide SwapError, TokenError, MinimumAllowed;
      error := CheckSwap(env, amountIn, amountOutMin, deadline);
      if error.Some? {
        return;
      }
      if quote.None? {
        return Some("VAULT: INVALID_QUOTE");
      }
      if amountOutMin < MinimumAllowed(quote.value, limits.maxSlippageBps) {
        return Some("VAULT: SLIPPAGE_EXCEEDED");
      }
      error := RequireToken(env, src);
      if error.Some? {
        return;
      }
      error := RequireToken(env, tokenOut);
      if error.Some? {
        return;
      }
      if BalanceOf(src) < amountIn {
        return Some("VAULT: INSUFFICIENT_BALANCE");
      }
      if paid.None? {
        return Some("swap failed");
      }
      var before := held;
      held := held[src := BalanceOf(src) - amountIn];
      held := held[tokenOut := BalanceOf(tokenOut) + paid.value];
      if paid.value < amountOutMin {
        held := before;
        return Some("VAULT: INSUFFICIENT_OUTPUT");
      }
      spentTotal := spentTotal + amountIn;
      lastExecution := Some(env.now);
    }
  }
}
