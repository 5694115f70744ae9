/** The typed configuration and its strategy-vault validation. */
module Config {
  import opened Wrappers

  const BPS := 10_000

  datatype NetworkConfig = NetworkConfig(rpcUrl: string, chainId: Option<string>)

  datatype DexConfig = DexConfig(routerContract: string, pairsContract: string)

  datatype WalletConfig = WalletConfig(execute: bool, recipient: Option<string>)

  datatype StrategyVaultConfig = StrategyVaultConfig(
    contract: string,
    keeperAddress: string,
    pairId: int,
    src: string,
    tokenOut: string,
    maxTradeSize: real,
    totalSpendCap: real,
    maxSlippageBps: int,
    cooldownSeconds: int,
    maxDeadlineSeconds: int)

  /** `custody.strategy_vault` is present exactly in strategy-vault mode. */
  datatype CustodyConfig = DirectWallet | StrategyVault(strategy: StrategyVaultConfig)

  datatype Direction = Up | Down | Either

  datatype PriceMoveTriggerConfig = PriceMoveTriggerConfig(
    pairId: int,
    direction: Direction,
    thresholdBps: int,
    cooldownSeconds: int)

  datatype SwapExactInActionConfig = SwapExactInActionConfig(
    src: string,
    amountIn: real,
    maxSlippageBps: int,
    deadlineSeconds: int,
    recipient: Option<string>)

  datatype RuleConfig = RuleConfig(
    id: string,
    enabled: bool,
    trigger: PriceMoveTriggerConfig,
    action: SwapExactInActionConfig)

  datatype AutomationConfig = AutomationConfig(
    network: NetworkConfig,
    dex: DexConfig,
    wallet: WalletConfig,
    custody: CustodyConfig,
    rules: seq<RuleConfig>)

  // ---------- markets ----------

  /** What a price was read from. */
  datatype Market = Market(rpcUrl: string, chainId: Option<string>, dex: DexConfig, pairId: int)

  function MarketOf(config: AutomationConfig, pairId: int): Market {
    Market(config.network.rpcUrl, config.network.chainId, config.dex, pairId)
  }

  /** The dictionary `{rule.id: rule.trigger.pair_id for rule in rules}`: a later duplicate wins. */
  function PairOf(rules: seq<RuleConfig>, id: string): Option<int> {
    if rules == [] then None
    else if rules[|rules| - 1].id == id then Some(rules[|rules| - 1].trigger.pairId)
    else PairOf(rules[..|rules| - 1], id)
  }

  /** Every enabled rule's id leads to its own pair; the program does not check this. */
  predicate Unambiguous(rules: seq<RuleConfig>) {
    forall k :: 0 <= k < |rules| && rules[k].enabled ==> PairOf(rules, rules[k].id) == Some(rules[k].trigger.pairId)
  }

  /** Every enabled rule's id leads to the rule's own market in the other configuration. */
  predicate SharesMarkets(config: AutomationConfig, other: AutomationConfig) {
    forall k :: 0 <= k < |config.rules| && config.rules[k].enabled ==>
      var pair := PairOf(other.rules, config.rules[k].id);
      pair.Some? && MarketOf(other, pair.value) == MarketOf(config, config.rules[k].trigger.pairId)
  }

  lemma SharesWithItself(config: AutomationConfig)
    ensures SharesMarkets(config, config) <==> Unambiguous(config.rules)
  {
  }

  ghost predicate DistinctIds(rules: seq<RuleConfig>) {
    forall i, j :: 0 <= i < j < |rules| ==> rules[i].id != rules[j].id
  }

  /** Exactly the pair of the last rule listed under the id. */
  lemma {:induction false} PairOfLast(rules: seq<RuleConfig>, id: string, pair: int)
    ensures PairOf(rules, id) == Some(pair)
            <==> exists k :: 0 <= k < |rules| && rules[k].id == id && rules[k].trigger.pairId == pair
                             && forall j :: k < j < |rules| ==> rules[j].id != id
    decreases |rules|
  {
    if rules != [] {
      var n := |rules| - 1;
      if rules[n].id != id {
        PairOfLast(rules[..n], id, pair);
        if k :| 0 <= k < n && rules[..n][k].id == id && rules[..n][k].trigger.pairId == pair
                && forall j :: k < j < n ==> rules[..n][j].id != id {
          assert rules[k] == rules[..n][k];
        }
        if k :| 0 <= k < |rules| && rules[k].id == id && rules[k].trigger.pairId == pair
                && forall j :: k < j < |rules| ==> rules[j].id != id {
          assert rules[k] == rules[..n][k];
        }
      }
    }
  }

  lemma {:induction false} PairOfDistinct(rules: seq<RuleConfig>, k: nat)
    requires DistinctIds(rules) && k < |rules|
    ensures PairOf(rules, rules[k].id) == Some(rules[k].trigger.pairId)
  {
    if k < |rules| - 1 {
      assert rules[..|rules| - 1][k] == rules[k];
      PairOfDistinct(rules[..|rules| - 1], k);
    }
  }

  /** The enabled rules of one pair, in configuration order. */
  function MatchingRules(rules: seq<RuleConfig>, pairId: int): (matching: seq<RuleConfig>)
    ensures forall rule :: rule in matching <==> rule in rules && rule.enabled && rule.trigger.pairId == pairId
  {
    if rules == [] then []
    else
      var rest := MatchingRules(rules[1..], pairId);
      if rules[0].enabled && rules[0].trigger.pairId == pairId then [rules[0]] + rest else rest
  }

  /** These are the positions of the enabled rules of one pair, in increasing order and none missing. */
  ghost predicate Lists(rules: seq<RuleConfig>, pairId: int, at: seq<nat>) {
    && (forall i, j :: 0 <= i < j < |at| ==> at[i] < at[j])
    && (forall k: nat :: k in at <==> k < |rules| && rules[k].enabled && rules[k].trigger.pairId == pairId)
  }

  /** The matching rules are the enabled rules of the pair, each position once and in the order of the rules. */
  lemma {:induction false} MatchingInOrder(rules: seq<RuleConfig>, pairId: int) returns (at: seq<nat>)
    ensures Lists(rules, pairId, at) && Picks(rules, at, MatchingRules(rules, pairId))
    decreases |rules|
  {
    at := [];
    if rules != [] {
      hide Lists, Picks;
      var rest := MatchingInOrder(rules[1..], pairId);
      ListsShifted(rules, pairId, rest);
      PicksShifted(rules, pairId, rest);
      at := (if rules[0].enabled && rules[0].trigger.pairId == pairId then [0] else []) + Shifted(rest);
    }
  }

  /** What is at these positions. */
  ghost predicate Picks(rules: seq<RuleConfig>, at: seq<nat>, found: seq<RuleConfig>) {
    |at| == |found| && forall i :: 0 <= i < |at| ==> at[i] < |rules| && found[i] == rules[at[i]]
  }

  lemma PicksShifted(rules: seq<RuleConfig>, pairId: int, rest: seq<nat>)
    requires rules != [] && Picks(rules[1..], rest, MatchingRules(rules[1..], pairId))
    ensures var matches := rules[0].enabled && rules[0].trigger.pairId == pairId;
            Picks(rules, (if matches then [0] else []) + Shifted(rest), MatchingRules(rules, pairId))
  {
    PicksLater(rules, rest, MatchingRules(rules[1..], pairId));
    PicksFirst(rules, Shifted(rest), MatchingRules(rules[1..], pairId));
    hide Picks, Shifted;
    assert [] + Shifted(rest) == Shifted(rest);
  }

  lemma PicksLater(rules: seq<RuleConfig>, rest: seq<nat>, found: seq<RuleConfig>)
    requires rules != [] && Picks(rules[1..], rest, found)
    ensures Picks(rules, Shifted(rest), found)
  {
  }

  lemma PicksFirst(rules: seq<RuleConfig>, at: seq<nat>, found: seq<RuleConfig>)
    requires rules != [] && Picks(rules, at, found)
    ensures Picks(rules, [0] + at, [rules[0]] + found)
  {
  }

  function Shifted(at: seq<nat>): seq<nat> {
    seq(|at|, i requires 0 <= i < |at| => at[i] + 1)
  }

  lemma ListsShifted(rules: seq<RuleConfig>, pairId: int, rest: seq<nat>)
    requires rules != [] && Lists(rules[1..], pairId, rest)
    ensures var matches := rules[0].enabled && rules[0].trigger.pairId == pairId;
            Lists(rules, pairId, (if matches then [0] else []) + Shifted(rest))
  {
    var matches := rules[0].enabled && rules[0].trigger.pairId == pairId;
    var at := (if matches then [0] else []) + Shifted(rest);
    forall k: nat
      ensures k in at <==> k < |rules| && rules[k].enabled && rules[k].trigger.pairId == pairId
    {
      ShiftedMembers(rest, k);
      assert k > 0 ==> (k - 1 in rest <==> k < |rules| && rules[k].enabled && rules[k].trigger.pairId == pairId);
    }
  }

  lemma ShiftedMembers(rest: seq<nat>, k: nat)
    ensures k in Shifted(rest) <==> k > 0 && k - 1 in rest
  {
    if k > 0 && k - 1 in rest {
      var i :| 0 <= i < |rest| && rest[i] == k - 1;
      assert Shifted(rest)[i] == k;
    }
  }

  // ---------- configured pairs ----------

  ghost predicate Increasing(pairs: seq<int>) {
    forall i, j :: 0 <= i < j < |pairs| ==> pairs[i] < pairs[j]
  }

  function Insert(pairs: seq<int>, pair: int): seq<int> {
    if pairs == [] || pair < pairs[0] then [pair] + pairs
    else if pair == pairs[0] then pairs
    else [pairs[0]] + Insert(pairs[1..], pair)
  }

  lemma {:induction false} InsertedMembers(pairs: seq<int>, pair: int)
    ensures forall p :: p in Insert(pairs, pair) <==> p == pair || p in pairs
    decreases |pairs|
  {
    if pairs != [] && pair > pairs[0] {
      InsertedMembers(pairs[1..], pair);
      assert pairs == [pairs[0]] + pairs[1..];
    }
  }

  lemma Smallest(first: int, rest: seq<int>)
    requires Increasing(rest) && forall p :: p in rest ==> first < p
    ensures Increasing([first] + rest)
  {
    assert forall j :: 0 <= j < |rest| ==> rest[j] in rest;
  }

  lemma {:induction false} Inserted(pairs: seq<int>, pair: int)
    requires Increasing(pairs)
    ensures Increasing(Insert(pairs, pair))
    ensures forall p :: p in Insert(pairs, pair) <==> p == pair || p in pairs
    decreases |pairs|
  {
    InsertedMembers(pairs, pair);
    if pairs == [] {
      assert Insert(pairs, pair) == [pair];
    } else if pair < pairs[0] {
      Smallest(pair, pairs);
    } else if pair > pairs[0] {
      Inserted(pairs[1..], pair);
      Smallest(pairs[0], Insert(pairs[1..], pair));
    }
  }

  /** `sorted({rule.trigger.pair_id for rule in rules if rule.enabled})` */
  function EnabledPairs(rules: seq<RuleConfig>): seq<int> {
    if rules == [] then []
    else if rules[0].enabled then Insert(EnabledPairs(rules[1..]), rules[0].trigger.pairId)
    else EnabledPairs(rules[1..])
  }

  /** Every pair with an enabled rule, once, in increasing order. */
  lemma {:induction false} EnabledPairsExact(rules: seq<RuleConfig>, p: int)
    ensures Increasing(EnabledPairs(rules))
    ensures p in EnabledPairs(rules) <==> exists rule :: rule in rules && rule.enabled && rule.trigger.pairId == p
    decreases |rules|
  {
    if rules != [] {
      assert rules == [rules[0]] + rules[1..];
      EnabledPairsExact(rules[1..], p);
      if rules[0].enabled {
        Inserted(EnabledPairs(rules[1..]), rules[0].trigger.pairId);
      }
    }
  }

  // ---------- field bounds ----------

  predicate RuleFieldsOk(rule: RuleConfig) {
    && rule.trigger.pairId > 0
    && rule.trigger.thresholdBps > 0
    && rule.trigger.cooldownSeconds >= 0
    && rule.action.amountIn > 0.0
    && 0 <= rule.action.maxSlippageBps < BPS
    && rule.action.deadlineSeconds > 0
  }

  // ---------- the strategy envelope ----------

  datatype EnvelopeError =
    | WalletRecipient
    | PairScope(id: string)
    | SrcScope(id: string)
    | RuleRecipient(id: string)
    | TradeSize(id: string)
    | Slippage(id: string)
    | Deadline(id: string)
    | Cooldown(id: string)

  /** A rule stays within the strategy vault's limits. */
  predicate WithinEnvelope(strategy: StrategyVaultConfig, rule: RuleConfig) {
    && rule.trigger.pairId == strategy.pairId
    && rule.action.src == strategy.src
    && rule.action.recipient.None?
    && rule.action.amountIn <= strategy.maxTradeSize
    && rule.action.maxSlippageBps <= strategy.maxSlippageBps
    && rule.action.deadlineSeconds <= strategy.maxDeadlineSeconds
    && rule.trigger.cooldownSeconds >= strategy.cooldownSeconds
  }

  predicate EnvelopeHolds(config: AutomationConfig) {
    config.custody.StrategyVault? ==>
      && config.wallet.recipient.None?
      && forall rule :: rule in config.rules ==> WithinEnvelope(config.custody.strategy, rule)
  }

  /** The error blames the rule for a limit it does break. */
  predicate Blames(error: EnvelopeError, strategy: StrategyVaultConfig, rule: RuleConfig) {
    match error
    case WalletRecipient => false
    case PairScope(id) => id == rule.id && rule.trigger.pairId != strategy.pairId
    case SrcScope(id) => id == rule.id && rule.action.src != strategy.src
    case RuleRecipient(id) => id == rule.id && rule.action.recipient.Some?
    case TradeSize(id) => id == rule.id && rule.action.amountIn > strategy.maxTradeSize
    case Slippage(id) => id == rule.id && rule.action.maxSlippageBps > strategy.maxSlippageBps
    case Deadline(id) => id == rule.id && rule.action.deadlineSeconds > strategy.maxDeadlineSeconds
    case Cooldown(id) => id == rule.id && rule.trigger.cooldownSeconds < strategy.cooldownSeconds
  }

  /** Accepts exactly the configurations within the envelope, and otherwise blames the first rule outside it. */
  method ValidateStrategyRules(config: AutomationConfig) returns (error: Option<EnvelopeError>)
    ensures error.None? <==> EnvelopeHolds(config)
    ensures error.Some? ==>
              && config.custody.StrategyVault?
              && (error.value.WalletRecipient? <==> config.wallet.recipient.Some?)
              && (!error.value.WalletRecipient? ==>
                    exists k :: 0 <= k < |config.rules|
                                && Blames(error.value, config.custody.strategy, config.rules[k])
                                && forall i :: 0 <= i < k ==> WithinEnvelope(config.custody.strategy, config.rules[i]))
  {
    if config.custody.DirectWallet? {
      return None;
    }
    var strategy := config.custody.strategy;
    if config.wallet.recipient.Some? {
      return Some(WalletRecipient);
    }
    for k := 0 to |config.rules|
      invariant forall i :: 0 <= i < k ==> WithinEnvelope(strategy, config.rules[i])
    {
      var rule := config.rules[k];
      var broken: Option<EnvelopeError> := None;
      if rule.trigger.pairId != strategy.pairId {
        broken := Some(PairScope(rule.id));
      } else if rule.action.src != strategy.src {
        broken := Some(SrcScope(rule.id));
      } else if rule.action.recipient.Some? {
        broken := Some(RuleRecipient(rule.id));
      } else if rule.action.amountIn > strategy.maxTradeSize {
        broken := Some(TradeSize(rule.id));
      } else if rule.action.maxSlippageBps > strategy.maxSlippageBps {
        broken := Some(Slippage(rule.id));
      } else if rule.action.deadlineSeconds > strategy.maxDeadlineSeconds {
        broken := Some(Deadline(rule.id));
      } else if rule.trigger.cooldownSeconds < strategy.cooldownSeconds {
        broken := Some(Cooldown(rule.id));
      }
      if broken.Some? {
        assert rule in config.rules && Blames(broken.value, strategy, rule);
        return broken;
      }
    }
    error := None;
  }
}
