/**
 What the history of an execution must look like: for every event, what has to have happened
 before it.  `Lawful` is the safety claim; it is proved of every execution in `Safety`.
 */
module History {
  import opened Wrappers
  import opened Config
  import opened Network
  import opened Tables
  import opened Protocol

  // ---------- questions about a log ----------

  /** The configuration stored when the log ends. */
  function Current(log: Log): Option<ConfigRow>
    decreases |log|
  {
    if log == [] then None
    else if log[|log| - 1].Published? then Some(log[|log| - 1].row)
    else Current(log[..|log| - 1])
  }

  /** `OnHold` from a run's release for consumed nonce on, `Stale` from its receipt recovery on. */
  datatype Phase = Clear | OnHold(run: nat) | Stale

  function PhaseAfter(phase: Phase, ruleId: string, e: Event): Phase {
    match e
    case Held(run, id, _) => if id == ruleId then OnHold(run) else phase
    case Recovered(_, id, _, _, _) => if id == ruleId then Stale else phase
    case Initialised(id) => if id == ruleId && phase == Stale then Clear else phase
    case _ => phase
  }

  function PhaseOf(log: Log, ruleId: string): Phase
    decreases |log|
  {
    if log == [] then Clear
    else PhaseAfter(PhaseOf(log[..|log| - 1], ruleId), ruleId, log[|log| - 1])
  }

  /** A configuration was stored before anything else happened. */
  predicate StartsStored(log: Log) {
    log != [] && log[0].Published?
  }

  /** The row the writer works under is the stored one, or nothing has been stored yet. */
  predicate Under(log: Log, row: ConfigRow) {
    if Current(log).Some? then Current(log).value == row else row.generation == 0
  }

  /**
   The transaction carries the call of an enabled rule of the configuration: quoted for the fee the router
   answered, on a snapshot whose price was observed in the rule's market, and dated from the base the
   node answered.  It is signed for the configured chain, if one is configured.
   */
  predicate Built(log: Log, row: ConfigRow, origin: Origin, tx: Tx) {
    var rule, snapshot := origin.rule, origin.snapshot;
    && rule in row.config.rules
    && rule.enabled
    && snapshot.pairId == rule.trigger.pairId
    && snapshot.Price().Some?
    && Observed(MarketOf(row.config, snapshot.pairId), snapshot.Price().value, row) in log
    && Quoted(rule.id, snapshot, origin.feeBps) in log
    && Dated(tx, origin.base) in log
    && row.config.network.chainId in {None, Some(tx.account.chain)}
    && Dex.SwapCall(row.config, Some(tx.account.sender), snapshot, rule.action, origin.feeBps, origin.base)
       == Some(tx.call)
  }

  /**
   The first publication is by a manager with this configuration, and whoever worked before it had its
   rules in the same markets.
   */
  ghost predicate Agreed(log: Log, own: AutomationConfig) {
    && (forall e :: e in log && e.Observed? && e.under.generation == 0 ==> SharesMarkets(e.under.config, own))
    && (forall e :: e in log && e.Published? && e.replaced.Some? ==> e.replaced.value == own)
  }

  ghost predicate WasPublished(log: Log, row: ConfigRow) {
    exists replaced :: Published(row, replaced) in log
  }

  ghost predicate WasJournaled(log: Log, run: nat, ruleId: string, tx: Tx) {
    exists row, origin :: Journaled(run, ruleId, tx, row, origin) in log
  }

  /** The run left the pending slot. */
  ghost predicate Closed(log: Log, run: nat) {
    || Dismissed(run) in log
    || exists e :: e in log && (e.Finished? || e.Held?) && e.run == run
  }

  ghost predicate WasSent(log: Log, run: nat) {
    exists e :: e in log && e.Sent? && e.run == run
  }

  /** A send after which some node may hold the transaction. */
  ghost predicate MayBeHeld(log: Log, tx: Tx) {
    exists e :: e in log && e.Sent? && e.tx == tx && !e.refused
  }

  ghost predicate SentInTheOpen(log: Log, run: nat) {
    exists e :: e in log && e.Sent? && e.run == run && !e.refused
  }

  ghost predicate FirstRefused(log: Log, run: nat) {
    exists e :: e in log && e.Sent? && e.run == run && e.first && e.refused
  }

  ghost predicate ForeignIn(log: Log, account: Account) {
    exists nonce :: Outside(account, nonce) in log
  }

  ghost predicate HasCommitted(log: Log, tx: Tx) {
    exists success :: Committed(tx, success) in log
  }

  /** A recorded success, dry run or recovered receipt of a rule, and the time it was given. */
  predicate ActionOf(e: Event, ruleId: string) {
    || (e.Finished? && e.success && e.ruleId == ruleId)
    || (e.Recovered? && e.ruleId == ruleId)
    || (e.DryRan? && e.ruleId == ruleId)
  }

  /** At this time the rule was past the cooldown of every action of its own. */
  ghost predicate Cooled(log: Log, ruleId: string, at: int, cooldown: int) {
    forall e :: e in log && ActionOf(e, ruleId) ==>
      at >= e.at && (cooldown > 0 ==> at >= e.at + cooldown * Dex.SECOND)
  }

  /** A decision taken at this time, to which no action has been added since. */
  ghost predicate Stands(log: Log, ruleId: string, at: int, cooldown: int) {
    Decided(ruleId, at, cooldown) in log && Cooled(log, ruleId, at, cooldown)
  }

  ghost predicate Standing(log: Log, ruleId: string, cooldown: int) {
    exists at :: Stands(log, ruleId, at, cooldown)
  }

  // ---------- the laws ----------

  ghost predicate Law(before: Log, e: Event) {
    match e
    case Quiet | Quoted(_, _, _) | Dated(_, _) | Initialised(_) | Outside(_, _) => true
    case Observed(_, _, under) => Under(before, under)
    case Published(row, replaced) =>
      && row.generation > 0
      && (replaced.Some? <==> before != [] && Current(before).None?)
      && (forall e' :: e' in before && e'.Published? ==> e'.row.generation < row.generation)
      && (forall e' :: e' in before && e'.Journaled? ==> Closed(before, e'.run))
    case Decided(ruleId, at, cooldown) =>
      && PhaseOf(before, ruleId) == Clear
      && Cooled(before, ruleId, at, cooldown)
    case DryRan(ruleId, at) =>
      && (Current(before).Some? ==> !Current(before).value.config.wallet.execute)
      && exists cooldown :: Stands(before, ruleId, at, cooldown)
    case Journaled(run, ruleId, tx, row, origin) =>
      && Under(before, row)
      && row.config.wallet.execute
      && origin.rule.id == ruleId
      && Built(before, row, origin, tx)
      && PhaseOf(before, ruleId) == Clear
      && Standing(before, ruleId, origin.rule.trigger.cooldownSeconds)
      && (forall e' :: e' in before && e'.Journaled? ==> e'.run < run && Closed(before, e'.run))
      && (forall e' :: e' in before && e'.Journaled? && e'.tx.account == tx.account ==>
            e'.tx.nonce < tx.nonce || Dismissed(e'.run) in before)
    case Marked(run) =>
      && !Closed(before, run)
      && exists ruleId, tx :: WasJournaled(before, run, ruleId, tx)
    case Sent(run, tx, reported, first, refused, policy) =>
      && Marked(run) in before
      && (exists ruleId :: WasJournaled(before, run, ruleId, tx))
      && !Closed(before, run)
      && reported == tx.account.chain
      && (first ==> !WasSent(before, run))
      && policy.config.wallet.execute
      && (policy.Stored? && Current(before).Some? ==> Current(before).value.config == policy.config)
    case Dismissed(run) =>
      && FirstRefused(before, run)
      && !SentInTheOpen(before, run)
      && !Closed(before, run)
    case Finished(run, ruleId, tx, success, at) =>
      && WasJournaled(before, run, ruleId, tx)
      && Committed(tx, success) in before
      && !Closed(before, run)
    case Held(run, ruleId, tx) =>
      && WasJournaled(before, run, ruleId, tx)
      && Marked(run) in before
      && (HasCommitted(before, tx) || ForeignIn(before, tx.account))
      && PhaseOf(before, ruleId) == Clear
      && !Closed(before, run)
    case Recovered(run, ruleId, tx, success, at) =>
      && Held(run, ruleId, tx) in before
      && Committed(tx, success) in before
      && PhaseOf(before, ruleId) == OnHold(run)
    case Committed(tx, success) =>
      && (forall e' :: e' in before && e'.Committed? && e'.tx.account == tx.account ==> e'.tx.nonce < tx.nonce)
      && (exists run, ruleId ::
            && WasJournaled(before, run, ruleId, tx)
            && SentInTheOpen(before, run)
            && Dismissed(run) !in before)
  }

  ghost predicate Lawful(log: Log)
    decreases |log|
  {
    log == [] || (Lawful(log[..|log| - 1]) && Law(log[..|log| - 1], log[|log| - 1]))
  }

  // ---------- one more event ----------

  lemma Extended(log: Log, e: Event)
    ensures (log + [e])[..|log + [e]| - 1] == log
    ensures Current(log + [e]) == if e.Published? then Some(e.row) else Current(log)
    ensures forall ruleId :: PhaseOf(log + [e], ruleId) == PhaseAfter(PhaseOf(log, ruleId), ruleId, e)
    ensures Lawful(log + [e]) <==> Lawful(log) && Law(log, e)
  {
    assert (log + [e])[..|log + [e]| - 1] == log;
  }

  /** Evidence is never lost. */
  lemma Kept(log: Log, e: Event)
    ensures forall e' :: e' in log + [e] <==> e' in log || e' == e
    ensures forall run, id, tx :: WasJournaled(log, run, id, tx) ==> WasJournaled(log + [e], run, id, tx)
    ensures forall run :: Closed(log, run) ==> Closed(log + [e], run)
    ensures forall run :: FirstRefused(log, run) ==> FirstRefused(log + [e], run)
    ensures forall run :: SentInTheOpen(log, run) ==> SentInTheOpen(log + [e], run)
    ensures forall tx :: MayBeHeld(log, tx) ==> MayBeHeld(log + [e], tx)
    ensures forall account :: ForeignIn(log, account) ==> ForeignIn(log + [e], account)
    ensures forall row :: WasPublished(log, row) ==> WasPublished(log + [e], row)
    ensures forall own :: Agreed(log + [e], own) ==> Agreed(log, own)
  {
    assert forall e' :: e' in log ==> e' in log + [e];
  }

  lemma StandsStill(log: Log, e: Event)
    requires !e.Finished? && !e.Recovered? && !e.DryRan?
    ensures forall id, at, cooldown :: Cooled(log, id, at, cooldown) ==> Cooled(log + [e], id, at, cooldown)
    ensures forall id, at, cooldown :: Stands(log, id, at, cooldown) ==> Stands(log + [e], id, at, cooldown)
    ensures forall id, cooldown :: Standing(log, id, cooldown) ==> Standing(log + [e], id, cooldown)
  {
    assert forall e' :: e' in log ==> e' in log + [e];
  }

  lemma {:induction false} LawAt(log: Log, i: nat)
    requires Lawful(log) && i < |log|
    ensures Law(log[..i], log[i]) && Lawful(log[..i])
    decreases |log|
  {
    if i < |log| - 1 {
      assert log[..|log| - 1][..i] == log[..i];
      LawAt(log[..|log| - 1], i);
    }
  }
}
