/** The invariant of the protocol: what holds of the shared state, of the lock holder, of the locks. */
module Invariant {
  import opened Wrappers
  import opened Config
  import opened Network
  import opened Rules
  import opened Tables
  import opened Protocol
  import opened History

  // ---------- the journal and the run log ----------

  predicate Unresolved(row: RunRow) {
    row.status == Pending || row.status == OutcomeUnknown
  }

  ghost predicate JournalOk(db: Db) {
    && (db.pending.Some? ==>
          var p := db.pending.value;
          && p.run < |db.runs|
          && db.runs[p.run].status == Pending
          && db.runs[p.run].tx == Some(p.swap.tx)
          && db.runs[p.run].reason == PRICE_MOVE)
    && (forall i :: 0 <= i < |db.runs| && db.runs[i].status == Pending ==>
          db.pending.Some? && db.pending.value.run == i)
    && (forall i :: i in db.uncertain ==>
          && i < |db.runs|
          && db.runs[i].status == OutcomeUnknown
          && db.runs[i].tx == Some(db.uncertain[i].tx))
    && (forall i :: 0 <= i < |db.runs| && db.runs[i].status == OutcomeUnknown ==> i in db.uncertain)
    && (forall i, j :: 0 <= i < j < |db.runs| && Unresolved(db.runs[i]) && Unresolved(db.runs[j]) ==>
          db.runs[i].ruleId != db.runs[j].ruleId)
  }

  // ---------- transactions and the chain ----------

  ghost predicate NonceOk(db: Db, net: Net, log: Log) {
    && (forall t :: t in net.live ==>
          || Consumed(net, t)
          || (db.pending.Some? && db.pending.value.swap.tx == t && db.pending.value.broadcastAttempted))
    && (forall i :: 0 <= i < |db.runs| && db.runs[i].tx.Some? && db.runs[i].status != Pending ==>
          Consumed(net, db.runs[i].tx.value) || Dismissed(i) in log)
    && (forall i, j :: 0 <= i < j < |db.runs| && db.runs[i].tx.Some? && db.runs[j].tx.Some?
                       && db.runs[i].tx.value.account == db.runs[j].tx.value.account ==>
          db.runs[i].tx.value.nonce < db.runs[j].tx.value.nonce || Dismissed(i) in log)
    && (db.pending.Some? && !db.pending.value.broadcastAttempted ==> db.pending.value.swap.tx !in net.live)
  }

  ghost predicate ReceiptOk(db: Db, net: Net, log: Log) {
    && (forall t :: t in net.receipts ==> t in net.live && Consumed(net, t))
    && (forall i :: 0 <= i < |db.runs| && db.runs[i].tx.Some? ==>
          var t := db.runs[i].tx.value;
          Consumed(net, t) && t.account !in net.shared && Dismissed(i) !in log ==> t in net.receipts)
  }

  /** The recorded outcomes are true. */
  ghost predicate OutcomeOk(row: RunRow, net: Net, dismissed: bool) {
    match row.status
    case Pending => row.tx.Some? && !dismissed
    case OutcomeUnknown => row.tx.Some? && !dismissed && Consumed(net, row.tx.value)
    case Submitted => row.tx.Some? && !dismissed && row.tx.value in net.receipts && net.receipts[row.tx.value].success
    case Failed =>
      if row.tx.None? then !dismissed
      else dismissed || (row.tx.value in net.receipts && !net.receipts[row.tx.value].success)
    case DryRun => row.tx.None? && !dismissed
  }

  ghost predicate TruthOk(db: Db, net: Net, log: Log) {
    && (forall i :: 0 <= i < |db.runs| ==> OutcomeOk(db.runs[i], net, Dismissed(i) in log))
    && (forall i: nat :: Dismissed(i) in log ==> i < |db.runs|)
  }

  // ---------- the log against the tables ----------

  ghost predicate Evidence(db: Db, e: Event) {
    match e
    case Journaled(run, ruleId, tx, _, origin) =>
      && run < |db.runs|
      && db.runs[run].tx == Some(tx)
      && db.runs[run].ruleId == ruleId
      && db.runs[run].details.snapshot == origin.snapshot
    case Marked(run) =>
      && run < |db.runs|
      && db.runs[run].tx.Some?
      && (db.pending.Some? && db.pending.value.run == run ==> db.pending.value.broadcastAttempted)
    case Sent(run, tx, _, _, _, _) => run < |db.runs| && db.runs[run].tx == Some(tx)
    case Dismissed(run) => run < |db.runs| && db.runs[run].status != Pending
    case Finished(run, _, _, _, _) => run < |db.runs| && db.runs[run].status != Pending
    case Held(run, _, _) => run < |db.runs| && db.runs[run].status != Pending
    case _ => true
  }

  ghost predicate LedgerOk(db: Db, log: Log) {
    && (forall e :: e in log ==> Evidence(db, e))
    && (forall e :: e in log && e.Sent? ==> Marked(e.run) in log)
    && (forall i :: 0 <= i < |db.runs| && db.runs[i].tx.Some? ==>
          WasJournaled(log, i, db.runs[i].ruleId, db.runs[i].tx.value))
    && (forall i :: 0 <= i < |db.runs| && db.runs[i].tx.Some? && db.runs[i].status != Pending ==> Closed(log, i))
    && (db.pending.Some? && db.pending.value.broadcastAttempted ==> Marked(db.pending.value.run) in log)
    && (forall i :: i in db.uncertain && i < |db.runs| ==>
          Held(i, db.runs[i].ruleId, db.uncertain[i].tx) in log)
  }

  ghost predicate ChainOk(db: Db, net: Net, log: Log) {
    && (forall t :: t in net.receipts ==> Committed(t, net.receipts[t].success) in log)
    && (forall e :: e in log && e.Committed? ==> e.tx in net.receipts && net.receipts[e.tx].success == e.success)
    && (forall a :: a in net.shared ==> ForeignIn(log, a))
    && (forall e :: e in log && e.Outside? ==> e.account in net.shared)
    && (forall t :: t in net.live ==> MayBeHeld(log, t))
    && (forall e :: e in log && e.Sent? && !e.refused ==> e.tx in net.live)
    && (db.pending.Some? && db.pending.value.swap.tx in net.live ==> SentInTheOpen(log, db.pending.value.run))
  }

  // ---------- rule state ----------

  ghost predicate ActionsOk(ruleState: map<string, RuleRuntimeState>, clock: int, log: Log) {
    && (forall e, id :: e in log && ActionOf(e, id) ==>
          id in ruleState && ruleState[id].lastActionAt.Some? && e.at <= ruleState[id].lastActionAt.value)
    && (forall id :: id in ruleState && ruleState[id].lastActionAt.Some? ==> ruleState[id].lastActionAt.value <= clock)
  }

  ghost predicate PositiveOk(db: Db) {
    && (forall id :: id in db.ruleState && db.ruleState[id].baselinePrice.Some? ==>
          db.ruleState[id].baselinePrice.value > 0.0)
    && (db.pending.Some? ==> db.pending.value.nextBaselinePrice > 0.0)
  }

  ghost function HeldRules(db: Db): set<string> {
    set i | i in db.uncertain && i < |db.runs| :: db.runs[i].ruleId
  }

  ghost predicate PhaseOk(db: Db, log: Log) {
    && (forall id :: PhaseOf(log, id).OnHold? <==> id in HeldRules(db))
    && (forall i :: i in db.uncertain && i < |db.runs| ==> PhaseOf(log, db.runs[i].ruleId) == OnHold(i))
    && (forall id :: PhaseOf(log, id) == Stale ==> GetRuleState(db, id).baselinePrice == None)
    && (db.pending.Some? && db.pending.value.run < |db.runs| ==>
          PhaseOf(log, db.runs[db.pending.value.run].ruleId) == Clear)
  }

  /** The price was observed in the market this configuration gives the rule. */
  ghost predicate SeenFor(config: AutomationConfig, ruleId: string, price: real, log: Log) {
    var pair := PairOf(config.rules, ruleId);
    pair.Some? && exists under :: Observed(MarketOf(config, pair.value), price, under) in log
  }

  /** Every configuration that was ever stored leads its enabled rules' ids to their own pairs. */
  ghost predicate AllUnambiguous(log: Log) {
    forall e :: e in log && e.Published? ==> Unambiguous(e.row.config.rules)
  }

  ghost predicate MarketUnder(config: AutomationConfig, db: Db, log: Log) {
    && (forall id :: id in db.ruleState && db.ruleState[id].baselinePrice.Some? ==>
          SeenFor(config, id, db.ruleState[id].baselinePrice.value, log))
    && (db.pending.Some? && db.pending.value.run < |db.runs| ==>
          SeenFor(config, db.runs[db.pending.value.run].ruleId, db.pending.value.nextBaselinePrice, log))
  }

  ghost predicate MarketOk(db: Db, log: Log) {
    forall own :: Agreed(log, own) && AllUnambiguous(log) ==> MarketUnder(ActiveConfig(db, own), db, log)
  }

  ghost predicate RowOk(db: Db, log: Log) {
    && log != []
    && Current(log) == db.row
    && (db.row.Some? ==> db.row.value.generation > 0 && WasPublished(log, db.row.value))
    && (forall e :: e in log && e.Published? ==> db.row.Some? && e.row.generation <= db.row.value.generation)
  }

  ghost predicate CoreOk(c: Core, log: Log) {
    && JournalOk(c.db)
    && NonceOk(c.db, c.net, log)
    && ReceiptOk(c.db, c.net, log)
    && TruthOk(c.db, c.net, log)
    && LedgerOk(c.db, log)
    && ChainOk(c.db, c.net, log)
    && ActionsOk(c.db.ruleState, c.clock, log)
    && PositiveOk(c.db)
    && PhaseOk(c.db, log)
    && MarketOk(c.db, log)
    && RowOk(c.db, log)
  }

  // ---------- the holder of the execution lock ----------

  /** The session passes the configuration check: it is bound to the stored row, if there is one. */
  predicate Bound(db: Db, s: Session) {
    if db.row.Some? then db.row.value == ConfigRow(s.config, s.generation) else s.generation == 0
  }

  ghost predicate PassOk(db: Db, log: Log, pass: Pass) {
    && Bound(db, pass.session)
    && (forall rule :: rule in pass.rules ==>
          rule in pass.session.config.rules && rule.enabled && rule.trigger.pairId == pass.session.pairId)
    && pass.snapshot.pairId == pass.session.pairId
    && (pass.snapshot.Price().Some? ==>
          Observed(MarketOf(pass.session.config, pass.session.pairId), pass.snapshot.Price().value,
                   RowOf(pass.session)) in log)
  }

  ghost predicate Unheld(db: Db, ruleId: string) {
    ruleId !in HeldRules(db)
  }

  /** A rule whose decision to act still stands. */
  ghost predicate ActingOk(db: Db, log: Log, pass: Pass, price: real) {
    && PassOk(db, log, pass)
    && pass.rules != []
    && db.pending.None?
    && Unheld(db, pass.rules[0].id)
    && PhaseOf(log, pass.rules[0].id) == Clear
    && pass.snapshot.Price() == Some(price)
  }

  ghost predicate Fresh(db: Db, net: Net, log: Log, tx: Tx) {
    && tx !in net.live
    && (tx.account !in net.shared ==> !Consumed(net, tx))
    && (forall i :: 0 <= i < |db.runs| && db.runs[i].tx.Some? && db.runs[i].tx.value.account == tx.account ==>
          db.runs[i].tx.value.nonce < tx.nonce || Dismissed(i) in log)
  }

  ghost predicate AttemptOk(db: Db, a: Attempt, policy: Policy) {
    && db.pending.Some?
    && a.execution.run == db.pending.value.run < |db.runs|
    && a.execution.swap == db.pending.value.swap
    && a.execution.ruleId == db.runs[a.execution.run].ruleId
    && a.swap.tx == a.execution.swap.tx
    && (a.allow ==> policy.config.wallet.execute)
    && (a.execution.broadcastAttempted ==> db.pending.value.broadcastAttempted)
  }

  /** The reasons a reconciliation reports; only an unsettled one is `submission_pending`. */
  predicate KnownReason(result: Result) {
    && (result.status == Pending <==> result.reason == "submission_pending")
    && result.reason in {"submission_pending", "nonce_consumed_receipt_missing", "submission_failed", PRICE_MOVE}
  }

  ghost predicate RecoveryOk(c: Core, log: Log, r: Recovery, policy: Policy) {
    match r
    case Loading(allow, _) => allow ==> policy.config.wallet.execute
    case FirstLookup(a) => AttemptOk(c.db, a, policy) && a.execution.broadcastAttempted
    case NonceCheck(a) => AttemptOk(c.db, a, policy) && a.execution.broadcastAttempted
    case Releasing(a) =>
      AttemptOk(c.db, a, policy) && a.execution.broadcastAttempted && Consumed(c.net, a.swap.tx)
    case Marking(a) =>
      && AttemptOk(c.db, a, policy)
      && a.allow
      && a.execution.broadcastAttempted == c.db.pending.value.broadcastAttempted
    case Sending(a) =>
      && AttemptOk(c.db, a, policy)
      && a.allow
      && c.db.pending.value.broadcastAttempted
      && (!a.execution.broadcastAttempted ==> a.swap.tx !in c.net.live && !WasSent(log, a.execution.run))
    case Rejecting(a, _) =>
      && AttemptOk(c.db, a, policy)
      && c.db.pending.value.broadcastAttempted
      && a.swap.tx !in c.net.live
      && FirstRefused(log, a.execution.run)
      && !SentInTheOpen(log, a.execution.run)
    case SecondLookup(a) => AttemptOk(c.db, a, policy)
    case Finishing(a, receipt) =>
      && AttemptOk(c.db, a, policy)
      && a.swap.tx in c.net.receipts
      && c.net.receipts[a.swap.tx] == receipt
    case Noting(a, _) => AttemptOk(c.db, a, policy)
    case Settled(result) =>
      && (result.None? || result.value.status != Pending <==> c.db.pending.None?)
      && (result.Some? ==> KnownReason(result.value))
  }

  ghost predicate PurposeOk(db: Db, log: Log, purpose: Purpose) {
    match purpose
    case BeforePass(session) => Bound(db, session)
    case AfterSigning(pass) => PassOk(db, log, pass) && pass.rules != []
    case Background(config) => db.row.Some? ==> db.row.value.config == config
    case Drain(_, _) => true
  }

  ghost predicate HolderOk(c: Core, log: Log, pc: Pc) {
    match pc
    case Observing(s) => Bound(c.db, s) && c.db.pending.None?
    case NextRule(pass) => PassOk(c.db, log, pass) && c.db.pending.None?
    case HeldLookup(pass, run) =>
      && PassOk(c.db, log, pass)
      && c.db.pending.None?
      && pass.rules != []
      && run in c.db.uncertain
      && run < |c.db.runs|
      && c.db.runs[run].ruleId == pass.rules[0].id
    case Resolving(pass, run, receipt) =>
      && PassOk(c.db, log, pass)
      && c.db.pending.None?
      && pass.rules != []
      && run in c.db.uncertain
      && run < |c.db.runs|
      && c.db.runs[run].ruleId == pass.rules[0].id
      && c.db.uncertain[run].tx in c.net.receipts
      && c.net.receipts[c.db.uncertain[run].tx] == receipt
    case Deciding(pass) =>
      PassOk(c.db, log, pass) && c.db.pending.None? && pass.rules != [] && Unheld(c.db, pass.rules[0].id)
    case Initialising(pass, state) =>
      && PassOk(c.db, log, pass)
      && c.db.pending.None?
      && pass.rules != []
      && Unheld(c.db, pass.rules[0].id)
      && pass.snapshot.Price().Some?
      && state == RuleRuntimeState(pass.snapshot.Price(), GetRuleState(c.db, pass.rules[0].id).lastActionAt)
    case Quoting(pass, price, at) => ActingOk(c.db, log, pass, price) && DecidedOk(c, log, pass, at)
    case DryState(pass, price, at) =>
      && ActingOk(c.db, log, pass, price)
      && DecidedOk(c, log, pass, at)
      && !pass.session.config.wallet.execute
    case Preparing(pass, price, feeBps, least) =>
      && ActingOk(c.db, log, pass, price)
      && Standing(log, pass.rules[0].id, pass.rules[0].trigger.cooldownSeconds)
      && LeastOut(pass, feeBps) == Some(least)
      && Quoted(pass.rules[0].id, pass.snapshot, feeBps) in log
      && pass.session.config.wallet.execute
    case Journaling(pass, price, swap, origin) =>
      && ActingOk(c.db, log, pass, price)
      && Standing(log, pass.rules[0].id, pass.rules[0].trigger.cooldownSeconds)
      && pass.session.config.wallet.execute
      && origin.rule == pass.rules[0]
      && origin.snapshot == pass.snapshot
      && Built(log, RowOf(pass.session), origin, swap.tx)
      && Fresh(c.db, c.net, log, swap.tx)
    case Reporting(pass, _, _) => PassOk(c.db, log, pass) && c.db.pending.None? && pass.rules != []
    case DryReport(pass) => PassOk(c.db, log, pass) && c.db.pending.None? && pass.rules != []
    case Recovering(purpose, r) => PurposeOk(c.db, log, purpose) && RecoveryOk(c, log, r, PolicyOf(purpose))
    case Publishing(_) => c.db.pending.None?
    case _ => true
  }

  /** The time of the decision is no earlier than any recorded action of the rule. */
  ghost predicate DecidedOk(c: Core, log: Log, pass: Pass, at: int)
    requires pass.rules != []
  {
    var id := pass.rules[0].id;
    && at <= c.clock
    && (GetRuleState(c.db, id).lastActionAt.Some? ==> GetRuleState(c.db, id).lastActionAt.value <= at)
    && Stands(log, id, at, pass.rules[0].trigger.cooldownSeconds)
  }

  // ---------- locks ----------

  predicate HoldsExec(pc: Pc) {
    !pc.Idle? && !pc.Admitted? && !pc.Gated?
  }

  predicate HoldsGate(pc: Pc) {
    || pc.Gated? || pc.DrainStart? || pc.Draining? || pc.Publishing? || pc.Closing?
    || (pc.Recovering? && pc.purpose.Drain?)
  }

  ghost predicate LocksOk(w: World) {
    && (forall p: Pid :: HoldsExec(At(w, p)) <==> w.exec == Some(p))
    && (forall p: Pid :: HoldsGate(At(w, p)) <==> w.gate == Exclusive(p))
    && (forall p: Pid :: At(w, p).Admitted? <==> w.gate.Shared? && p in w.gate.readers)
  }

  ghost predicate Inv(w: World) {
    && CoreOk(w.core, w.log)
    && Lawful(w.log)
    && LocksOk(w)
    && (w.exec.Some? ==> HolderOk(w.core, w.log, At(w, w.exec.value)))
  }
}
