/** Every database transaction of the protocol, and every send, keeps the shared part of the invariant. */
module JournalSafety {
  import opened Wrappers
  import opened Config
  import opened Network
  import opened Rules
  import opened Tables
  import opened Protocol
  import opened History
  import opened Invariant

  // ---------- the parts of the shared invariant ----------

  lemma CoreParts(c: Core, log: Log)
    requires CoreOk(c, log)
    ensures JournalOk(c.db) && NonceOk(c.db, c.net, log) && ReceiptOk(c.db, c.net, log) && TruthOk(c.db, c.net, log)
    ensures LedgerOk(c.db, log) && ChainOk(c.db, c.net, log) && ActionsOk(c.db.ruleState, c.clock, log)
    ensures PositiveOk(c.db) && PhaseOk(c.db, log) && MarketOk(c.db, log) && RowOk(c.db, log)
  {
    hide JournalOk, NonceOk, ReceiptOk, TruthOk, LedgerOk, ChainOk, ActionsOk, PositiveOk, PhaseOk, MarketOk, RowOk;
  }

  lemma CoreWhole(c: Core, log: Log)
    requires JournalOk(c.db) && NonceOk(c.db, c.net, log) && ReceiptOk(c.db, c.net, log) && TruthOk(c.db, c.net, log)
    requires LedgerOk(c.db, log) && ChainOk(c.db, c.net, log) && ActionsOk(c.db.ruleState, c.clock, log)
    requires PositiveOk(c.db) && PhaseOk(c.db, log) && MarketOk(c.db, log) && RowOk(c.db, log)
    ensures CoreOk(c, log)
  {
    hide JournalOk, NonceOk, ReceiptOk, TruthOk, LedgerOk, ChainOk, ActionsOk, PositiveOk, PhaseOk, MarketOk, RowOk;
  }

  // ---------- a longer log ----------

  lemma GrowNonce(db: Db, net: Net, log: Log, e: Event)
    requires NonceOk(db, net, log) && ReceiptOk(db, net, log)
    ensures NonceOk(db, net, log + [e]) && ReceiptOk(db, net, log + [e])
  {
    Kept(log, e);
  }

  lemma GrowTruth(db: Db, net: Net, log: Log, e: Event)
    requires TruthOk(db, net, log) && !e.Dismissed?
    ensures TruthOk(db, net, log + [e])
  {
    Kept(log, e);
  }

  lemma GrowLedger(db: Db, log: Log, e: Event)
    requires LedgerOk(db, log) && Evidence(db, e)
    requires e.Sent? ==> Marked(e.run) in log
    ensures LedgerOk(db, log + [e])
  {
    Kept(log, e);
  }

  lemma GrowChain(db: Db, net: Net, log: Log, e: Event)
    requires ChainOk(db, net, log) && !e.Committed? && !e.Outside? && !e.Sent?
    ensures ChainOk(db, net, log + [e])
  {
    Kept(log, e);
  }

  lemma GrowActions(ruleState: map<string, RuleRuntimeState>, clock: int, log: Log, e: Event)
    requires ActionsOk(ruleState, clock, log)
    requires forall id :: !ActionOf(e, id)
    ensures ActionsOk(ruleState, clock, log + [e])
  {
    Kept(log, e);
  }

  lemma GrowPhase(db: Db, log: Log, e: Event)
    requires PhaseOk(db, log)
    requires !e.Held? && !e.Recovered? && !e.Initialised?
    ensures PhaseOk(db, log + [e])
  {
    Extended(log, e);
  }

  lemma GrowMarket(db: Db, log: Log, e: Event)
    requires MarketOk(db, log) && RowOk(db, log) && !e.Published?
    ensures MarketOk(db, log + [e]) && RowOk(db, log + [e])
  {
    Kept(log, e);
    Extended(log, e);
    forall own | Agreed(log + [e], own) && AllUnambiguous(log + [e])
      ensures MarketUnder(ActiveConfig(db, own), db, log + [e])
    {
      StillUnambiguous(log, e);
      MarketGrows(ActiveConfig(db, own), db, log, e);
    }
  }

  lemma StillUnambiguous(log: Log, e: Event)
    requires AllUnambiguous(log + [e])
    ensures AllUnambiguous(log)
  {
    assert forall e' :: e' in log ==> e' in log + [e];
  }

  lemma MarketGrows(config: AutomationConfig, db: Db, log: Log, e: Event)
    requires MarketUnder(config, db, log)
    ensures MarketUnder(config, db, log + [e])
  {
    forall id, price | SeenFor(config, id, price, log)
      ensures SeenFor(config, id, price, log + [e])
    {
      SeenStill(config, id, price, log, e);
    }
  }

  lemma SeenStill(config: AutomationConfig, id: string, price: real, log: Log, e: Event)
    requires SeenFor(config, id, price, log)
    ensures SeenFor(config, id, price, log + [e])
  {
    var pair := PairOf(config.rules, id);
    var under :| Observed(MarketOf(config, pair.value), price, under) in log;
    assert Observed(MarketOf(config, pair.value), price, under) in log + [e];
  }

  /** The tables a market claim is about did not change. */
  lemma SameMarkets(db: Db, db': Db, log: Log)
    requires MarketOk(db, log) && db'.row == db.row && db'.ruleState == db.ruleState
    requires db'.pending.Some? && db'.pending.value.run < |db'.runs| ==>
               && db.pending.Some?
               && db'.pending.value.run == db.pending.value.run < |db.runs|
               && db'.pending.value.nextBaselinePrice == db.pending.value.nextBaselinePrice
               && db'.runs[db.pending.value.run].ruleId == db.runs[db.pending.value.run].ruleId
    ensures MarketOk(db', log)
  {
    forall own | Agreed(log, own) && AllUnambiguous(log)
      ensures MarketUnder(ActiveConfig(db', own), db', log)
    {
      assert MarketUnder(ActiveConfig(db, own), db, log);
    }
  }

  // ---------- marking an attempt ----------

  function MarkedDb(db: Db): Db
    requires db.pending.Some?
  {
    db.(pending := Some(db.pending.value.(broadcastAttempted := true)))
  }

  lemma MarkTables(db: Db, net: Net, log: Log)
    requires db.pending.Some?
    requires JournalOk(db) && NonceOk(db, net, log) && ReceiptOk(db, net, log) && TruthOk(db, net, log)
    ensures JournalOk(MarkedDb(db)) && NonceOk(MarkedDb(db), net, log) && ReceiptOk(MarkedDb(db), net, log)
    ensures TruthOk(MarkedDb(db), net, log)
  {
  }

  lemma MarkEvidence(db: Db, log: Log)
    requires db.pending.Some?
    requires forall e :: e in log ==> Evidence(db, e)
    ensures forall e :: e in log ==> Evidence(MarkedDb(db), e)
  {
    forall e | e in log
      ensures Evidence(MarkedDb(db), e)
    {
      assert Evidence(db, e);
    }
  }

  lemma MarkLedger(db: Db, log: Log)
    requires JournalOk(db) && LedgerOk(db, log) && db.pending.Some?
    ensures LedgerOk(MarkedDb(db), log + [Marked(db.pending.value.run)])
  {
    var e := Marked(db.pending.value.run);
    MarkEvidence(db, log);
    assert Evidence(MarkedDb(db), e);
    hide Evidence, Closed, WasJournaled;
    Kept(log, e);
    assert e in log + [e];
  }

  lemma MarkChain(db: Db, net: Net, log: Log)
    requires ChainOk(db, net, log) && db.pending.Some?
    ensures ChainOk(MarkedDb(db), net, log)
  {
  }

  lemma MarkRules(db: Db, log: Log)
    requires db.pending.Some?
    requires PositiveOk(db) && PhaseOk(db, log) && MarketOk(db, log) && RowOk(db, log)
    ensures PositiveOk(MarkedDb(db)) && PhaseOk(MarkedDb(db), log)
    ensures MarketOk(MarkedDb(db), log) && RowOk(MarkedDb(db), log)
  {
    SameMarkets(db, MarkedDb(db), log);
    hide MarketOk;
  }

  lemma MarkLaw(db: Db, log: Log)
    requires JournalOk(db) && LedgerOk(db, log) && db.pending.Some?
    ensures Law(log, Marked(db.pending.value.run))
  {
    var p := db.pending.value;
    assert WasJournaled(log, p.run, db.runs[p.run].ruleId, p.swap.tx);
  }

  lemma MarkKeeps(c: Core, log: Log)
    requires CoreOk(c, log) && c.db.pending.Some?
    ensures var e := Marked(c.db.pending.value.run);
            Law(log, e) && CoreOk(c.(db := MarkedDb(c.db)), log + [e])
  {
    hide JournalOk, NonceOk, ReceiptOk, TruthOk, LedgerOk, ChainOk;
    hide ActionsOk, PositiveOk, PhaseOk, MarketOk, RowOk, Law;
    var e := Marked(c.db.pending.value.run);
    var db := MarkedDb(c.db);
    MarkLaw(c.db, log);
    MarkTables(c.db, c.net, log);
    MarkLedger(c.db, log);
    MarkChain(c.db, c.net, log);
    MarkRules(c.db, log);
    GrowNonce(db, c.net, log, e);
    GrowTruth(db, c.net, log, e);
    GrowChain(db, c.net, log, e);
    GrowActions(db.ruleState, c.clock, log, e);
    GrowPhase(db, log, e);
    GrowMarket(db, log, e);
  }

  // ---------- sending ----------

  /** The pending execution is being sent, durably marked beforehand. */
  ghost predicate SendOk(db: Db, net: Net, log: Log, e: Event) {
    && e.Sent?
    && db.pending.Some?
    && db.pending.value.run == e.run
    && db.pending.value.swap.tx == e.tx
    && db.pending.value.broadcastAttempted
    && e.reported == e.tx.account.chain
    && e.policy.config.wallet.execute
    && (e.policy.Stored? && db.row.Some? ==> db.row.value.config == e.policy.config)
    && (e.first ==> e.tx !in net.live && !WasSent(log, e.run))
  }

  function SentNet(net: Net, e: Event): Net
    requires e.Sent?
  {
    if e.refused then net else net.(live := net.live + {e.tx})
  }

  lemma SendLaw(db: Db, net: Net, log: Log, e: Event)
    requires JournalOk(db) && LedgerOk(db, log) && RowOk(db, log) && SendOk(db, net, log, e)
    ensures Law(log, e)
  {
    assert WasJournaled(log, e.run, db.runs[e.run].ruleId, e.tx);
  }

  lemma SendTables(db: Db, net: Net, log: Log, e: Event)
    requires NonceOk(db, net, log) && ReceiptOk(db, net, log) && TruthOk(db, net, log) && SendOk(db, net, log, e)
    ensures NonceOk(db, SentNet(net, e), log) && ReceiptOk(db, SentNet(net, e), log)
    ensures TruthOk(db, SentNet(net, e), log)
  {
  }

  lemma SendChain(db: Db, net: Net, log: Log, e: Event)
    requires ChainOk(db, net, log) && SendOk(db, net, log, e)
    ensures ChainOk(db, SentNet(net, e), log + [e])
  {
    Kept(log, e);
    assert e in log + [e];
  }

  lemma SendKeeps(c: Core, log: Log, e: Event)
    requires CoreOk(c, log) && SendOk(c.db, c.net, log, e)
    ensures Law(log, e) && CoreOk(c.(net := SentNet(c.net, e)), log + [e])
  {
    hide NonceOk, ReceiptOk, TruthOk, ChainOk, ActionsOk, PositiveOk, PhaseOk, MarketOk, RowOk, Law;
    var net := SentNet(c.net, e);
    SendLaw(c.db, c.net, log, e);
    SendTables(c.db, c.net, log, e);
    SendChain(c.db, c.net, log, e);
    GrowNonce(c.db, net, log, e);
    GrowTruth(c.db, net, log, e);
    GrowLedger(c.db, log, e);
    GrowActions(c.db.ruleState, c.clock, log, e);
    GrowPhase(c.db, log, e);
    GrowMarket(c.db, log, e);
  }

  // ---------- leaving the slot ----------

  /** The pending run leaves the slot with this row; nothing else of the journal changes. */
  ghost predicate SlotLeft(db: Db, db': Db, row: RunRow) {
    && db.pending.Some?
    && db.pending.value.run < |db.runs|
    && row.tx == db.runs[db.pending.value.run].tx == Some(db.pending.value.swap.tx)
    && row.ruleId == db.runs[db.pending.value.run].ruleId
    && row.details.snapshot == db.runs[db.pending.value.run].details.snapshot
    && row.status != Pending
    && db'.pending.None?
    && db'.runs == db.runs[db.pending.value.run := row]
    && db'.row == db.row
  }

  /** Why the transaction needs no further sending. */
  ghost predicate Spent(db: Db, net: Net, log: Log)
    requires db.pending.Some?
  {
    var p := db.pending.value;
    Consumed(net, p.swap.tx) || (Dismissed(p.run) in log && p.swap.tx !in net.live)
  }

  lemma LeaveNonce(db: Db, db': Db, row: RunRow, net: Net, log: Log)
    requires JournalOk(db) && NonceOk(db, net, log) && ReceiptOk(db, net, log)
    requires SlotLeft(db, db', row) && Spent(db, net, log)
    ensures NonceOk(db', net, log) && ReceiptOk(db', net, log)
  {
  }

  lemma LeaveTruth(db: Db, db': Db, row: RunRow, net: Net, log: Log, e: Event)
    requires JournalOk(db) && TruthOk(db, net, log) && SlotLeft(db, db', row)
    requires e.Dismissed? ==> e.run == db.pending.value.run
    requires OutcomeOk(row, net, e.Dismissed?)
    ensures TruthOk(db', net, log + [e])
  {
    Kept(log, e);
    var run := db.pending.value.run;
    forall i | 0 <= i < |db'.runs|
      ensures OutcomeOk(db'.runs[i], net, Dismissed(i) in log + [e])
    {
      if i == run {
        assert !(Dismissed(run) in log);
      }
    }
  }

  lemma LeaveEvidence(db: Db, db': Db, row: RunRow, log: Log)
    requires JournalOk(db) && SlotLeft(db, db', row)
    requires forall e :: e in log ==> Evidence(db, e)
    ensures forall e :: e in log ==> Evidence(db', e)
  {
    forall e | e in log
      ensures Evidence(db', e)
    {
      assert Evidence(db, e);
    }
  }

  lemma LeaveLedger(db: Db, db': Db, row: RunRow, log: Log, e: Event)
    requires JournalOk(db) && LedgerOk(db, log) && SlotLeft(db, db', row)
    requires e.Dismissed? || e.Finished? || e.Held?
    requires e.run == db.pending.value.run
    requires if e.Held?
             then db'.uncertain == db.uncertain[e.run := db.pending.value.swap]
                  && e == Held(e.run, row.ruleId, db.pending.value.swap.tx)
             else db'.uncertain == db.uncertain
    ensures LedgerOk(db', log + [e])
  {
    LeaveEvidence(db, db', row, log);
    LeaveHeld(db, db', row, log, e);
    hide Evidence, WasJournaled, Closed;
    Kept(log, e);
    NowClosed(log, e);
    NowEvident(db', e);
    forall i | 0 <= i < |db'.runs| && db'.runs[i].tx.Some?
      ensures WasJournaled(log + [e], i, db'.runs[i].ruleId, db'.runs[i].tx.value)
      ensures db'.runs[i].status != Pending ==> Closed(log + [e], i)
    {
      assert WasJournaled(log, i, db.runs[i].ruleId, db.runs[i].tx.value);
    }
  }

  lemma LeaveHeld(db: Db, db': Db, row: RunRow, log: Log, e: Event)
    requires JournalOk(db) && LedgerOk(db, log) && SlotLeft(db, db', row)
    requires if e.Held?
             then db'.uncertain == db.uncertain[e.run := db.pending.value.swap]
                  && e == Held(db.pending.value.run, row.ruleId, db.pending.value.swap.tx)
             else db'.uncertain == db.uncertain
    ensures forall i :: i in db'.uncertain && i < |db'.runs| ==>
              Held(i, db'.runs[i].ruleId, db'.uncertain[i].tx) in log + [e]
  {
    hide Evidence, WasJournaled, Closed;
    Kept(log, e);
    forall i | i in db'.uncertain && i < |db'.runs|
      ensures Held(i, db'.runs[i].ruleId, db'.uncertain[i].tx) in log + [e]
    {
      if i != db.pending.value.run {
        assert Held(i, db.runs[i].ruleId, db.uncertain[i].tx) in log;
      }
    }
  }

  lemma NowClosed(log: Log, e: Event)
    requires e.Dismissed? || e.Finished? || e.Held?
    ensures Closed(log + [e], e.run)
  {
    assert e in log + [e];
  }

  lemma NowEvident(db: Db, e: Event)
    requires e.Dismissed? || e.Finished? || e.Held?
    requires e.run < |db.runs| && db.runs[e.run].status != Pending
    ensures Evidence(db, e)
  {
  }

  lemma LeaveChain(db: Db, db': Db, row: RunRow, net: Net, log: Log)
    requires ChainOk(db, net, log) && SlotLeft(db, db', row)
    ensures ChainOk(db', net, log)
  {
  }

  lemma NotYetClosed(db: Db, log: Log)
    requires JournalOk(db) && LedgerOk(db, log) && db.pending.Some?
    ensures !Closed(log, db.pending.value.run)
    ensures WasJournaled(log, db.pending.value.run, db.runs[db.pending.value.run].ruleId, db.pending.value.swap.tx)
  {
    var run := db.pending.value.run;
    assert forall e :: e in log && (e.Finished? || e.Held? || e.Dismissed?) ==> Evidence(db, e);
  }

  lemma LeaveJournal(db: Db, db': Db, row: RunRow)
    requires JournalOk(db) && SlotLeft(db, db', row)
    requires if row.status == OutcomeUnknown
             then db'.uncertain == db.uncertain[db.pending.value.run := db.pending.value.swap]
             else db'.uncertain == db.uncertain
    ensures JournalOk(db')
  {
  }

  // ---------- a first broadcast that was refused ----------

  lemma LeavePhase(db: Db, db': Db, row: RunRow, log: Log)
    requires JournalOk(db) && PhaseOk(db, log) && SlotLeft(db, db', row)
    requires db'.uncertain == db.uncertain
    requires forall id :: PhaseOf(log, id) == Stale ==> GetRuleState(db', id).baselinePrice == None
    ensures PhaseOk(db', log)
  {
    assert forall i :: i in db.uncertain ==> db'.runs[i] == db.runs[i];
    assert HeldRules(db') == HeldRules(db);
  }

  lemma LeaveMarket(db: Db, db': Db, row: RunRow, log: Log)
    requires MarketOk(db, log) && RowOk(db, log)
    requires SlotLeft(db, db', row)
    requires forall id :: id in db'.ruleState && db'.ruleState[id].baselinePrice.Some? ==>
               || (id in db.ruleState && db'.ruleState[id].baselinePrice == db.ruleState[id].baselinePrice)
               || (id == row.ruleId && db'.ruleState[id].baselinePrice == Some(db.pending.value.nextBaselinePrice))
    ensures MarketOk(db', log) && RowOk(db', log)
  {
    forall own | Agreed(log, own) && AllUnambiguous(log)
      ensures MarketUnder(ActiveConfig(db', own), db', log)
    {
      assert MarketUnder(ActiveConfig(db, own), db, log);
    }
  }

  lemma DismissLaw(db: Db, log: Log)
    requires JournalOk(db) && LedgerOk(db, log) && db.pending.Some?
    requires FirstRefused(log, db.pending.value.run) && !SentInTheOpen(log, db.pending.value.run)
    ensures Law(log, Dismissed(db.pending.value.run))
  {
    NotYetClosed(db, log);
  }

  lemma DismissKeeps(c: Core, log: Log, db': Db, row: RunRow)
    requires CoreOk(c, log) && SlotLeft(c.db, db', row)
    requires row.status == Failed
    requires db' == c.db.(runs := db'.runs, pending := None)
    requires c.db.pending.value.swap.tx !in c.net.live
    requires FirstRefused(log, c.db.pending.value.run) && !SentInTheOpen(log, c.db.pending.value.run)
    ensures var e := Dismissed(c.db.pending.value.run);
            Law(log, e) && CoreOk(c.(db := db'), log + [e])
  {
    hide JournalOk, NonceOk, ReceiptOk, TruthOk, LedgerOk, ChainOk, ActionsOk, PhaseOk, MarketOk, RowOk, Law;
    hide FirstRefused, SentInTheOpen;
    var e := Dismissed(c.db.pending.value.run);
    DismissLaw(c.db, log);
    LeaveJournal(c.db, db', row);
    assert e in log + [e];
    GrowNonce(c.db, c.net, log, e);
    LeaveNonce(c.db, db', row, c.net, log + [e]);
    LeaveTruth(c.db, db', row, c.net, log, e);
    LeaveLedger(c.db, db', row, log, e);
    LeaveChain(c.db, db', row, c.net, log);
    GrowChain(db', c.net, log, e);
    GrowActions(db'.ruleState, c.clock, log, e);
    LeavePhaseSame(c.db, db', row, log);
    LeaveMarket(c.db, db', row, log);
    GrowPhase(db', log, e);
    GrowMarket(db', log, e);
  }

  lemma LeavePhaseSame(db: Db, db': Db, row: RunRow, log: Log)
    requires JournalOk(db) && PhaseOk(db, log) && SlotLeft(db, db', row)
    requires db'.uncertain == db.uncertain && db'.ruleState == db.ruleState
    ensures PhaseOk(db', log)
  {
    LeavePhase(db, db', row, log);
  }

  // ---------- a receipt ----------

  lemma FinishActions(db: Db, db': Db, row: RunRow, clock: int, log: Log, e: Event)
    requires ActionsOk(db.ruleState, clock, log) && PositiveOk(db)
    requires SlotLeft(db, db', row)
    requires e == Finished(db.pending.value.run, row.ruleId, db.pending.value.swap.tx, row.status == Submitted, clock)
    requires db'.ruleState ==
             if row.status == Submitted
             then db.ruleState[row.ruleId := RuleRuntimeState(Some(db.pending.value.nextBaselinePrice), Some(clock))]
             else db.ruleState
    ensures PositiveOk(db') && ActionsOk(db'.ruleState, clock, log + [e])
  {
  }

  lemma FinishPhase(db: Db, db': Db, row: RunRow, log: Log)
    requires JournalOk(db) && PhaseOk(db, log) && SlotLeft(db, db', row)
    requires db'.uncertain == db.uncertain
    requires forall id :: id != row.ruleId ==> GetRuleState(db', id) == GetRuleState(db, id)
    ensures PhaseOk(db', log)
  {
    LeavePhase(db, db', row, log);
  }

  lemma FinishLaw(c: Core, log: Log, e: Event)
    requires JournalOk(c.db) && LedgerOk(c.db, log) && ChainOk(c.db, c.net, log)
    requires e.Finished? && c.db.pending.Some? && e.run == c.db.pending.value.run
    requires e.tx == c.db.pending.value.swap.tx && e.ruleId == c.db.runs[e.run].ruleId
    requires e.tx in c.net.receipts && c.net.receipts[e.tx].success == e.success
    ensures Law(log, e)
  {
    NotYetClosed(c.db, log);
  }

  lemma FinishKeeps(c: Core, log: Log, db': Db, row: RunRow, receipt: Receipt)
    requires CoreOk(c, log) && SlotLeft(c.db, db', row)
    requires row.status == if receipt.success then Submitted else Failed
    requires db' == c.db.(runs := db'.runs, pending := None, ruleState := db'.ruleState)
    requires db'.ruleState ==
             if receipt.success
             then c.db.ruleState[row.ruleId :=
                    RuleRuntimeState(Some(c.db.pending.value.nextBaselinePrice), Some(c.clock))]
             else c.db.ruleState
    requires c.db.pending.value.swap.tx in c.net.receipts && c.net.receipts[c.db.pending.value.swap.tx] == receipt
    ensures var e := Finished(c.db.pending.value.run, row.ruleId, c.db.pending.value.swap.tx, receipt.success, c.clock);
            Law(log, e) && CoreOk(c.(db := db'), log + [e])
  {
    hide JournalOk, NonceOk, TruthOk, LedgerOk, ChainOk, ActionsOk, PositiveOk, PhaseOk, MarketOk, RowOk, Law;
    var e := Finished(c.db.pending.value.run, row.ruleId, c.db.pending.value.swap.tx, receipt.success, c.clock);
    FinishLaw(c, log, e);
    LeaveJournal(c.db, db', row);
    assert Consumed(c.net, c.db.pending.value.swap.tx);
    GrowNonce(c.db, c.net, log, e);
    LeaveNonce(c.db, db', row, c.net, log + [e]);
    FinishTruth(c.db, row, c.net, log);
    LeaveTruth(c.db, db', row, c.net, log, e);
    LeaveLedger(c.db, db', row, log, e);
    LeaveChain(c.db, db', row, c.net, log);
    GrowChain(db', c.net, log, e);
    FinishActions(c.db, db', row, c.clock, log, e);
    FinishPhase(c.db, db', row, log);
    LeaveMarket(c.db, db', row, log);
    GrowPhase(db', log, e);
    GrowMarket(db', log, e);
  }

  lemma FinishTruth(db: Db, row: RunRow, net: Net, log: Log)
    requires JournalOk(db) && TruthOk(db, net, log) && db.pending.Some?
    requires row.tx == Some(db.pending.value.swap.tx)
    requires row.tx.value in net.receipts
    requires row.status == if net.receipts[row.tx.value].success then Submitted else Failed
    ensures OutcomeOk(row, net, false)
  {
  }

  // ---------- a consumed nonce ----------

  lemma HeldLaw(c: Core, log: Log)
    requires JournalOk(c.db) && ReceiptOk(c.db, c.net, log) && TruthOk(c.db, c.net, log)
    requires LedgerOk(c.db, log) && ChainOk(c.db, c.net, log) && PhaseOk(c.db, log)
    requires c.db.pending.Some? && c.db.pending.value.broadcastAttempted
    requires Consumed(c.net, c.db.pending.value.swap.tx)
    ensures var p := c.db.pending.value; Law(log, Held(p.run, c.db.runs[p.run].ruleId, p.swap.tx))
  {
    var p := c.db.pending.value;
    NotYetClosed(c.db, log);
    assert Dismissed(p.run) !in log;
    if p.swap.tx.account !in c.net.shared {
      assert p.swap.tx in c.net.receipts;
      assert Committed(p.swap.tx, c.net.receipts[p.swap.tx].success) in log;
    }
  }

  lemma ReleasePhase(db: Db, db': Db, row: RunRow, log: Log)
    requires JournalOk(db) && PhaseOk(db, log) && SlotLeft(db, db', row)
    requires db'.uncertain == db.uncertain[db.pending.value.run := db.pending.value.swap]
    requires db'.ruleState == db.ruleState
    ensures PhaseOk(db', log + [Held(db.pending.value.run, row.ruleId, db.pending.value.swap.tx)])
  {
    var run := db.pending.value.run;
    Extended(log, Held(run, row.ruleId, db.pending.value.swap.tx));
    assert forall i :: i in db.uncertain ==> db'.runs[i] == db.runs[i];
    HoldMore(db, db', run);
    ReleaseHolds(db, db', row, log);
    hide HeldRules, JournalOk;
  }

  lemma ReleaseHolds(db: Db, db': Db, row: RunRow, log: Log)
    requires JournalOk(db) && PhaseOk(db, log) && SlotLeft(db, db', row)
    requires db'.uncertain == db.uncertain[db.pending.value.run := db.pending.value.swap]
    ensures var log' := log + [Held(db.pending.value.run, row.ruleId, db.pending.value.swap.tx)];
            forall i :: i in db'.uncertain && i < |db'.runs| ==> PhaseOf(log', db'.runs[i].ruleId) == OnHold(i)
  {
    hide HeldRules;
    var run := db.pending.value.run;
    var e := Held(run, row.ruleId, db.pending.value.swap.tx);
    Extended(log, e);
    hide PhaseOf;
    forall i | i in db'.uncertain && i < |db'.runs|
      ensures PhaseOf(log + [e], db'.runs[i].ruleId) == OnHold(i)
    {
      if i != run {
        assert PhaseOf(log, db.runs[i].ruleId) == OnHold(i) && PhaseOf(log, row.ruleId) == Clear;
      }
    }
  }

  lemma HoldMore(db: Db, db': Db, run: nat)
    requires db'.uncertain.Keys == db.uncertain.Keys + {run} && |db.runs| == |db'.runs| && run < |db.runs|
    requires forall i :: i in db.uncertain && i < |db.runs| ==> db'.runs[i].ruleId == db.runs[i].ruleId
    ensures HeldRules(db') == HeldRules(db) + {db'.runs[run].ruleId}
  {
    forall id | id in HeldRules(db) + {db'.runs[run].ruleId}
      ensures id in HeldRules(db')
    {
      if id == db'.runs[run].ruleId {
        assert run in db'.uncertain;
      } else {
        var i :| i in db.uncertain && i < |db.runs| && db.runs[i].ruleId == id;
        assert i in db'.uncertain && db'.runs[i].ruleId == id;
      }
    }
  }

  lemma ReleaseKeeps(c: Core, log: Log, db': Db, row: RunRow)
    requires CoreOk(c, log) && SlotLeft(c.db, db', row)
    requires row.status == OutcomeUnknown
    requires db' == c.db.(runs := db'.runs,
                          pending := None,
                          uncertain := c.db.uncertain[c.db.pending.value.run := c.db.pending.value.swap])
    requires c.db.pending.value.broadcastAttempted && Consumed(c.net, c.db.pending.value.swap.tx)
    ensures var e := Held(c.db.pending.value.run, row.ruleId, c.db.pending.value.swap.tx);
            Law(log, e) && CoreOk(c.(db := db'), log + [e])
  {
    hide JournalOk, NonceOk, ReceiptOk, TruthOk, LedgerOk, ChainOk, ActionsOk, PhaseOk, MarketOk, RowOk, Law;
    var e := Held(c.db.pending.value.run, row.ruleId, c.db.pending.value.swap.tx);
    HeldLaw(c, log);
    LeaveJournal(c.db, db', row);
    GrowNonce(c.db, c.net, log, e);
    LeaveNonce(c.db, db', row, c.net, log + [e]);
    LeaveTruth(c.db, db', row, c.net, log, e);
    LeaveLedger(c.db, db', row, log, e);
    LeaveChain(c.db, db', row, c.net, log);
    GrowChain(db', c.net, log, e);
    GrowActions(db'.ruleState, c.clock, log, e);
    ReleasePhase(c.db, db', row, log);
    LeaveMarket(c.db, db', row, log);
    GrowMarket(db', log, e);
  }

  // ---------- steps that only add to the log ----------

  lemma PlainKeeps(c: Core, log: Log, e: Event)
    requires CoreOk(c, log)
    requires e.Quiet? || e.Observed? || e.Decided? || e.Quoted? || e.Dated?
    ensures CoreOk(c, log + [e])
  {
    hide JournalOk, NonceOk, ReceiptOk, TruthOk, LedgerOk, ChainOk, ActionsOk, PositiveOk, PhaseOk, MarketOk, RowOk;
    GrowNonce(c.db, c.net, log, e);
    GrowTruth(c.db, c.net, log, e);
    GrowLedger(c.db, log, e);
    GrowChain(c.db, c.net, log, e);
    GrowActions(c.db.ruleState, c.clock, log, e);
    GrowPhase(c.db, log, e);
    GrowMarket(c.db, log, e);
  }

  // ---------- noting an error, adding a run without a transaction ----------

  /** The same runs up to what their details say of errors, possibly with more that never had a transaction. */
  ghost predicate SameRuns(db: Db, db': Db) {
    && |db.runs| <= |db'.runs|
    && (forall i :: 0 <= i < |db.runs| ==>
          && db'.runs[i].ruleId == db.runs[i].ruleId
          && db'.runs[i].status == db.runs[i].status
          && db'.runs[i].reason == db.runs[i].reason
          && db'.runs[i].details.snapshot == db.runs[i].details.snapshot
          && db'.runs[i].tx == db.runs[i].tx)
    && (forall i :: |db.runs| <= i < |db'.runs| ==>
          db'.runs[i].tx.None? && (db'.runs[i].status == Failed || db'.runs[i].status == DryRun))
    && db' == db.(runs := db'.runs)
  }

  lemma SameJournal(db: Db, db': Db)
    requires SameRuns(db, db') && JournalOk(db)
    ensures JournalOk(db')
  {
    forall i, j | 0 <= i < j < |db'.runs| && Unresolved(db'.runs[i]) && Unresolved(db'.runs[j])
      ensures db'.runs[i].ruleId != db'.runs[j].ruleId
    {
      assert Unresolved(db.runs[i]) && Unresolved(db.runs[j]);
    }
  }

  lemma SameNonce(db: Db, db': Db, net: Net, log: Log)
    requires SameRuns(db, db') && JournalOk(db) && NonceOk(db, net, log) && ReceiptOk(db, net, log)
    ensures NonceOk(db', net, log) && ReceiptOk(db', net, log)
  {
  }

  lemma SameTruth(db: Db, db': Db, net: Net, log: Log)
    requires SameRuns(db, db') && TruthOk(db, net, log)
    ensures TruthOk(db', net, log)
  {
    forall i | 0 <= i < |db'.runs|
      ensures OutcomeOk(db'.runs[i], net, Dismissed(i) in log)
    {
      assert i < |db.runs| ==> OutcomeOk(db.runs[i], net, Dismissed(i) in log);
    }
  }

  lemma SameEvidence(db: Db, db': Db, log: Log)
    requires SameRuns(db, db')
    requires forall e :: e in log ==> Evidence(db, e)
    ensures forall e :: e in log ==> Evidence(db', e)
  {
    forall e | e in log
      ensures Evidence(db', e)
    {
      assert Evidence(db, e);
    }
  }

  lemma SameChain(db: Db, db': Db, net: Net, log: Log)
    requires SameRuns(db, db') && ChainOk(db, net, log)
    ensures ChainOk(db', net, log)
  {
  }

  lemma SameLedger(db: Db, db': Db, log: Log)
    requires SameRuns(db, db') && JournalOk(db) && LedgerOk(db, log)
    ensures LedgerOk(db', log)
  {
    SameEvidence(db, db', log);
    hide Evidence, Closed, WasJournaled;
    forall i | 0 <= i < |db'.runs| && db'.runs[i].tx.Some?
      ensures WasJournaled(log, i, db'.runs[i].ruleId, db'.runs[i].tx.value)
    {
      assert WasJournaled(log, i, db.runs[i].ruleId, db.runs[i].tx.value);
    }
  }

  lemma SameRules(db: Db, db': Db, log: Log)
    requires SameRuns(db, db') && JournalOk(db) && PositiveOk(db) && PhaseOk(db, log) && MarketOk(db, log)
             && RowOk(db, log)
    ensures PositiveOk(db') && PhaseOk(db', log) && MarketOk(db', log) && RowOk(db', log)
    ensures HeldRules(db') == HeldRules(db)
  {
    assert forall i :: i in db.uncertain ==> db'.runs[i].ruleId == db.runs[i].ruleId;
    SameMarkets(db, db', log);
    hide MarketOk;
  }

  lemma SameKeeps(c: Core, log: Log, db': Db)
    requires CoreOk(c, log) && SameRuns(c.db, db')
    ensures CoreOk(c.(db := db'), log + [Quiet])
    ensures HeldRules(db') == HeldRules(c.db)
  {
    hide JournalOk, NonceOk, ReceiptOk, TruthOk, LedgerOk, ChainOk, ActionsOk, PositiveOk, PhaseOk, MarketOk, RowOk;
    SameJournal(c.db, db');
    SameNonce(c.db, db', c.net, log);
    SameTruth(c.db, db', c.net, log);
    SameLedger(c.db, db', log);
    SameChain(c.db, db', c.net, log);
    SameRules(c.db, db', log);
    PlainKeeps(c.(db := db'), log, Quiet);
  }

  // ---------- rule state ----------

  /** Nothing but the state of one rule changes. */
  ghost predicate RuleSaved(db: Db, db': Db, ruleId: string, state: RuleRuntimeState) {
    && db' == db.(ruleState := db'.ruleState)
    && db'.ruleState == db.ruleState[ruleId := state]
  }

  lemma SavedTables(db: Db, db': Db, net: Net, log: Log)
    requires db' == db.(ruleState := db'.ruleState, cursors := db'.cursors, row := db'.row)
    requires JournalOk(db) && NonceOk(db, net, log) && ReceiptOk(db, net, log) && TruthOk(db, net, log)
    ensures JournalOk(db') && NonceOk(db', net, log) && ReceiptOk(db', net, log) && TruthOk(db', net, log)
  {
  }

  lemma SavedLedger(db: Db, db': Db, net: Net, log: Log)
    requires db' == db.(ruleState := db'.ruleState, cursors := db'.cursors, row := db'.row)
    requires LedgerOk(db, log) && ChainOk(db, net, log)
    ensures LedgerOk(db', log) && ChainOk(db', net, log)
    ensures HeldRules(db') == HeldRules(db)
  {
    forall e | e in log
      ensures Evidence(db', e)
    {
      assert Evidence(db, e);
    }
  }

  lemma InitialisePhase(db: Db, db': Db, log: Log, ruleId: string, state: RuleRuntimeState)
    requires PhaseOk(db, log) && RuleSaved(db, db', ruleId, state) && Unheld(db, ruleId)
    ensures PhaseOk(db', log + [Initialised(ruleId)])
  {
    Extended(log, Initialised(ruleId));
    assert HeldRules(db') == HeldRules(db);
  }

  lemma SavedMarket(db: Db, db': Db, log: Log, pass: Pass, state: RuleRuntimeState)
    requires PassOk(db, log, pass) && pass.rules != []
    requires RuleSaved(db, db', pass.rules[0].id, state)
    requires state.baselinePrice.Some? && state.baselinePrice == pass.snapshot.Price()
    requires MarketOk(db, log) && RowOk(db, log) && PositiveOk(db)
    ensures MarketOk(db', log) && RowOk(db', log) && PositiveOk(db')
  {
    forall own | Agreed(log, own) && AllUnambiguous(log)
      ensures MarketUnder(ActiveConfig(db', own), db', log)
    {
      SeenInPass(db, log, pass, own);
      assert MarketUnder(ActiveConfig(db, own), db, log);
    }
    PositivePrice(pass.snapshot);
  }

  lemma PositivePrice(snapshot: Dex.PairSnapshot)
    requires snapshot.Price().Some?
    ensures snapshot.Price().value > 0.0
  {
  }

  /** The snapshot's price belongs to the market of the current rule. */
  lemma SeenInPass(db: Db, log: Log, pass: Pass, own: AutomationConfig)
    requires PassOk(db, log, pass) && pass.rules != [] && pass.snapshot.Price().Some?
    requires RowOk(db, log) && Agreed(log, own) && AllUnambiguous(log)
    ensures SeenFor(ActiveConfig(db, own), pass.rules[0].id, pass.snapshot.Price().value, log)
  {
    SharesNow(db, log, pass, own);
    hide RowOk, Agreed, AllUnambiguous, PairOf, ActiveConfig;
    var rules := pass.session.config.rules;
    assert pass.rules[0] in pass.rules;
    var k :| 0 <= k < |rules| && rules[k] == pass.rules[0];
    assert Observed(MarketOf(pass.session.config, rules[k].trigger.pairId), pass.snapshot.Price().value,
                    RowOf(pass.session)) in log;
  }

  lemma SharesNow(db: Db, log: Log, pass: Pass, own: AutomationConfig)
    requires PassOk(db, log, pass) && pass.snapshot.Price().Some?
    requires RowOk(db, log) && Agreed(log, own) && AllUnambiguous(log)
    ensures SharesMarkets(pass.session.config, ActiveConfig(db, own))
  {
    hide PairOf;
    if db.row.Some? {
      var replaced :| Published(db.row.value, replaced) in log;
      SharesWithItself(db.row.value.config);
    }
    hide SharesMarkets;
  }

  lemma SavedActions(db: Db, db': Db, clock: int, log: Log, ruleId: string, state: RuleRuntimeState)
    requires ActionsOk(db.ruleState, clock, log) && RuleSaved(db, db', ruleId, state)
    requires GetRuleState(db, ruleId).lastActionAt.Some? ==>
               state.lastActionAt.Some? && GetRuleState(db, ruleId).lastActionAt.value <= state.lastActionAt.value
    requires state.lastActionAt.Some? ==> state.lastActionAt.value <= clock
    ensures ActionsOk(db'.ruleState, clock, log)
  {
  }

  lemma InitialiseKeeps(c: Core, log: Log, pass: Pass, state: RuleRuntimeState)
    requires pass.rules != []
    requires CoreOk(c, log) && HolderOk(c, log, Initialising(pass, state))
    ensures var db' := SaveRuleState(c.db, pass.rules[0].id, state);
            CoreOk(c.(db := db'), log + [Initialised(pass.rules[0].id)])
  {
    hide JournalOk, NonceOk, ReceiptOk, TruthOk, LedgerOk, ChainOk, PositiveOk, PhaseOk, MarketOk, RowOk;
    var id := pass.rules[0].id;
    var e := Initialised(id);
    var db' := SaveRuleState(c.db, id, state);
    SavedTables(c.db, db', c.net, log);
    SavedLedger(c.db, db', c.net, log);
    SavedActions(c.db, db', c.clock, log, id, state);
    SavedMarket(c.db, db', log, pass, state);
    InitialisePhase(c.db, db', log, id, state);
    GrowNonce(db', c.net, log, e);
    GrowTruth(db', c.net, log, e);
    GrowLedger(db', log, e);
    GrowChain(db', c.net, log, e);
    GrowActions(db'.ruleState, c.clock, log, e);
    GrowMarket(db', log, e);
  }

  lemma DryPhase(db: Db, db': Db, log: Log, ruleId: string, state: RuleRuntimeState)
    requires PhaseOk(db, log) && RuleSaved(db, db', ruleId, state) && PhaseOf(log, ruleId) == Clear
    ensures PhaseOk(db', log)
  {
    assert HeldRules(db') == HeldRules(db);
  }

  lemma DryActions(db: Db, db': Db, clock: int, log: Log, ruleId: string, state: RuleRuntimeState)
    requires ActionsOk(db'.ruleState, clock, log) && RuleSaved(db, db', ruleId, state) && state.lastActionAt.Some?
    ensures ActionsOk(db'.ruleState, clock, log + [DryRan(ruleId, state.lastActionAt.value)])
  {
  }

  lemma DryLaw(c: Core, log: Log, pass: Pass, at: int)
    requires pass.rules != [] && RowOk(c.db, log) && PassOk(c.db, log, pass) && DecidedOk(c, log, pass, at)
    requires !pass.session.config.wallet.execute
    ensures Law(log, DryRan(pass.rules[0].id, at))
  {
  }

  lemma DryKeeps(c: Core, log: Log, pass: Pass, price: real, at: int)
    requires pass.rules != []
    requires CoreOk(c, log) && HolderOk(c, log, DryState(pass, price, at))
    ensures var id := pass.rules[0].id;
            var db' := SaveRuleState(c.db, id, RuleRuntimeState(Some(price), Some(at)));
            Law(log, DryRan(id, at)) && CoreOk(c.(db := db'), log + [DryRan(id, at)])
  {
    hide *;
    var id := pass.rules[0].id;
    var e := DryRan(id, at);
    var state := RuleRuntimeState(Some(price), Some(at));
    var db' := SaveRuleState(c.db, id, state);
    CoreParts(c, log);
    DryReady(c, log, pass, price, at);
    Saves(c.db, id, state);
    DryLaw(c, log, pass, at);
    SavedTables(c.db, db', c.net, log);
    SavedLedger(c.db, db', c.net, log);
    SavedActions(c.db, db', c.clock, log, id, state);
    SavedMarket(c.db, db', log, pass, state);
    DryPhase(c.db, db', log, id, state);
    DryActions(c.db, db', c.clock, log, id, state);
    SaysNothing(db', e);
    GrowNonce(db', c.net, log, e);
    GrowTruth(db', c.net, log, e);
    GrowLedger(db', log, e);
    GrowChain(db', c.net, log, e);
    GrowPhase(db', log, e);
    GrowMarket(db', log, e);
    CoreWhole(c.(db := db'), log + [e]);
  }

  lemma Saves(db: Db, ruleId: string, state: RuleRuntimeState)
    ensures RuleSaved(db, SaveRuleState(db, ruleId, state), ruleId, state)
    ensures SaveRuleState(db, ruleId, state) == db.(ruleState := SaveRuleState(db, ruleId, state).ruleState)
  {
  }

  lemma SaysNothing(db: Db, e: Event)
    requires e.DryRan?
    ensures Evidence(db, e)
  {
  }

  lemma DryReady(c: Core, log: Log, pass: Pass, price: real, at: int)
    requires pass.rules != [] && HolderOk(c, log, DryState(pass, price, at))
    ensures PassOk(c.db, log, pass) && pass.snapshot.Price() == Some(price)
    ensures PhaseOf(log, pass.rules[0].id) == Clear && DecidedOk(c, log, pass, at)
    ensures !pass.session.config.wallet.execute && at <= c.clock
    ensures GetRuleState(c.db, pass.rules[0].id).lastActionAt.Some? ==>
              GetRuleState(c.db, pass.rules[0].id).lastActionAt.value <= at
  {
    hide PassOk, PhaseOf, Stands, Unheld;
  }

  // ---------- a recovered receipt ----------

  /** The held run gets its outcome and its rule starts over. */
  ghost predicate RunResolved(db: Db, db': Db, run: nat, row: RunRow, now: int) {
    && db.pending.None?
    && run in db.uncertain
    && run < |db.runs|
    && row.ruleId == db.runs[run].ruleId
    && row.tx == db.runs[run].tx == Some(db.uncertain[run].tx)
    && row.details.snapshot == db.runs[run].details.snapshot
    && (row.status == Submitted || row.status == Failed)
    && db' == db.(runs := db.runs[run := row],
                  uncertain := db.uncertain - {run},
                  ruleState := db.ruleState[row.ruleId := RuleRuntimeState(None, Some(now))])
  }

  lemma ResolveJournal(db: Db, db': Db, run: nat, row: RunRow, now: int)
    requires JournalOk(db) && RunResolved(db, db', run, row, now)
    ensures JournalOk(db')
  {
    forall i, j | 0 <= i < j < |db'.runs| && Unresolved(db'.runs[i]) && Unresolved(db'.runs[j])
      ensures db'.runs[i].ruleId != db'.runs[j].ruleId
    {
      assert Unresolved(db.runs[i]) && Unresolved(db.runs[j]);
    }
  }

  lemma ResolveNonce(db: Db, db': Db, run: nat, row: RunRow, now: int, net: Net, log: Log)
    requires JournalOk(db) && NonceOk(db, net, log) && ReceiptOk(db, net, log)
    requires RunResolved(db, db', run, row, now)
    ensures NonceOk(db', net, log) && ReceiptOk(db', net, log)
  {
  }

  lemma ResolveTruth(db: Db, db': Db, run: nat, row: RunRow, now: int, net: Net, log: Log)
    requires JournalOk(db) && TruthOk(db, net, log) && RunResolved(db, db', run, row, now)
    requires row.tx.value in net.receipts
    requires row.status == if net.receipts[row.tx.value].success then Submitted else Failed
    ensures TruthOk(db', net, log)
  {
    forall i | 0 <= i < |db'.runs|
      ensures OutcomeOk(db'.runs[i], net, Dismissed(i) in log)
    {
      assert OutcomeOk(db.runs[i], net, Dismissed(i) in log);
    }
  }

  lemma ResolveEvidence(db: Db, db': Db, run: nat, row: RunRow, now: int, log: Log)
    requires RunResolved(db, db', run, row, now)
    requires forall e :: e in log ==> Evidence(db, e)
    ensures forall e :: e in log ==> Evidence(db', e)
  {
    forall e | e in log
      ensures Evidence(db', e)
    {
      assert Evidence(db, e);
    }
  }

  lemma ResolveLedger(db: Db, db': Db, run: nat, row: RunRow, now: int, log: Log)
    requires LedgerOk(db, log) && RunResolved(db, db', run, row, now)
    requires db.runs[run].status != Pending
    ensures LedgerOk(db', log)
  {
    ResolveEvidence(db, db', run, row, now, log);
    hide Evidence, Closed, WasJournaled;
    forall i | 0 <= i < |db'.runs| && db'.runs[i].tx.Some?
      ensures WasJournaled(log, i, db'.runs[i].ruleId, db'.runs[i].tx.value)
    {
      assert WasJournaled(log, i, db.runs[i].ruleId, db.runs[i].tx.value);
    }
    forall i | 0 <= i < |db'.runs| && db'.runs[i].tx.Some? && db'.runs[i].status != Pending
      ensures Closed(log, i)
    {
      assert db.runs[i].tx.Some? && db.runs[i].status != Pending;
    }
    forall i | i in db'.uncertain && i < |db'.runs|
      ensures Held(i, db'.runs[i].ruleId, db'.uncertain[i].tx) in log
    {
      assert i in db.uncertain && db'.runs[i] == db.runs[i];
    }
  }

  lemma ResolveChain(db: Db, db': Db, run: nat, row: RunRow, now: int, net: Net, log: Log)
    requires ChainOk(db, net, log) && RunResolved(db, db', run, row, now)
    ensures ChainOk(db', net, log)
  {
  }

  lemma ResolveHeld(db: Db, db': Db, run: nat, row: RunRow, now: int)
    requires JournalOk(db) && RunResolved(db, db', run, row, now)
    ensures HeldRules(db') == HeldRules(db) - {row.ruleId}
  {
    forall id
      ensures id in HeldRules(db') <==> id in HeldRules(db) - {row.ruleId}
    {
      if id in HeldRules(db) - {row.ruleId} {
        var i :| i in db.uncertain && i < |db.runs| && db.runs[i].ruleId == id;
        assert i in db'.uncertain && db'.runs[i].ruleId == id;
      }
      ResolveFrees(db, db', run, row, now, id);
    }
  }

  lemma ResolveFrees(db: Db, db': Db, run: nat, row: RunRow, now: int, id: string)
    requires JournalOk(db) && RunResolved(db, db', run, row, now)
    ensures id in HeldRules(db') ==> id in HeldRules(db) - {row.ruleId}
  {
    if id in HeldRules(db') {
      var i :| i in db'.uncertain && i < |db'.runs| && db'.runs[i].ruleId == id;
      assert i in db.uncertain && i != run && db.runs[i].ruleId == id;
      assert Unresolved(db.runs[i]) && Unresolved(db.runs[run]);
    }
  }

  lemma ResolvePhase(db: Db, db': Db, run: nat, row: RunRow, now: int, log: Log, e: Event)
    requires JournalOk(db) && PhaseOk(db, log) && RunResolved(db, db', run, row, now)
    requires e.Recovered? && e.ruleId == row.ruleId
    ensures PhaseOk(db', log + [e])
  {
    hide JournalOk, HeldRules, PhaseOf;
    Extended(log, e);
    ResolveHeld(db, db', run, row, now);
    StillOnHold(db, db', run, row, now, log, e);
    ResolveStale(db, db', run, row, now, log, e);
  }

  lemma ResolveStale(db: Db, db': Db, run: nat, row: RunRow, now: int, log: Log, e: Event)
    requires PhaseOk(db, log) && RunResolved(db, db', run, row, now)
    requires e.Recovered? && e.ruleId == row.ruleId
    ensures forall id :: PhaseOf(log + [e], id) == Stale ==> GetRuleState(db', id).baselinePrice == None
  {
    hide HeldRules, PhaseOf;
    Extended(log, e);
  }

  lemma StillOnHold(db: Db, db': Db, run: nat, row: RunRow, now: int, log: Log, e: Event)
    requires JournalOk(db) && PhaseOk(db, log) && RunResolved(db, db', run, row, now)
    requires e.Recovered? && e.ruleId == row.ruleId
    ensures forall i :: i in db'.uncertain && i < |db'.runs| ==> PhaseOf(log + [e], db'.runs[i].ruleId) == OnHold(i)
  {
    Extended(log, e);
    hide HeldRules, PhaseOf;
    forall i | i in db'.uncertain && i < |db'.runs|
      ensures PhaseOf(log + [e], db'.runs[i].ruleId) == OnHold(i)
    {
      assert db'.runs[i] == db.runs[i] && Unresolved(db.runs[i]) && Unresolved(db.runs[run]);
      assert PhaseOf(log, db.runs[i].ruleId) == OnHold(i);
    }
  }

  lemma ResolveRules(db: Db, db': Db, run: nat, row: RunRow, now: int, log: Log, e: Event)
    requires ActionsOk(db.ruleState, now, log) && PositiveOk(db) && MarketOk(db, log) && RowOk(db, log)
    requires RunResolved(db, db', run, row, now)
    requires e.Recovered? && e.ruleId == row.ruleId && e.at == now
    ensures ActionsOk(db'.ruleState, now, log + [e]) && PositiveOk(db') && MarketOk(db', log) && RowOk(db', log)
  {
    forall own | Agreed(log, own) && AllUnambiguous(log)
      ensures MarketUnder(ActiveConfig(db', own), db', log)
    {
      assert MarketUnder(ActiveConfig(db, own), db, log);
    }
  }

  lemma ResolveLaw(c: Core, log: Log, run: nat, e: Event)
    requires JournalOk(c.db) && LedgerOk(c.db, log) && ChainOk(c.db, c.net, log) && PhaseOk(c.db, log)
    requires run in c.db.uncertain && run < |c.db.runs|
    requires e.Recovered? && e.run == run && e.ruleId == c.db.runs[run].ruleId && e.tx == c.db.uncertain[run].tx
    requires e.tx in c.net.receipts && c.net.receipts[e.tx].success == e.success
    ensures Law(log, e)
  {
    assert e.ruleId in HeldRules(c.db);
  }

  lemma HeldUnresolved(db: Db, run: nat)
    requires JournalOk(db) && run in db.uncertain
    ensures run < |db.runs| && db.runs[run].status == OutcomeUnknown
  {
  }

  lemma ResolveKeeps(c: Core, log: Log, db': Db, run: nat, row: RunRow)
    requires CoreOk(c, log) && RunResolved(c.db, db', run, row, c.clock)
    requires row.tx.value in c.net.receipts
    requires row.status == if c.net.receipts[row.tx.value].success then Submitted else Failed
    ensures var e := Recovered(run, row.ruleId, row.tx.value, row.status == Submitted, c.clock);
            && Law(log, e)
            && CoreOk(c.(db := db'), log + [e])
            && Unheld(db', row.ruleId)
  {
    hide JournalOk, NonceOk, ReceiptOk, TruthOk, LedgerOk, ChainOk;
    hide ActionsOk, PositiveOk, PhaseOk, MarketOk, RowOk, Law;
    var e := Recovered(run, row.ruleId, row.tx.value, row.status == Submitted, c.clock);
    ResolveLaw(c, log, run, e);
    ResolveJournal(c.db, db', run, row, c.clock);
    ResolveNonce(c.db, db', run, row, c.clock, c.net, log);
    ResolveTruth(c.db, db', run, row, c.clock, c.net, log);
    HeldUnresolved(c.db, run);
    ResolveLedger(c.db, db', run, row, c.clock, log);
    ResolveChain(c.db, db', run, row, c.clock, c.net, log);
    ResolvePhase(c.db, db', run, row, c.clock, log, e);
    ResolveRules(c.db, db', run, row, c.clock, log, e);
    ResolveHeld(c.db, db', run, row, c.clock);
    GrowNonce(db', c.net, log, e);
    GrowTruth(db', c.net, log, e);
    GrowLedger(db', log, e);
    GrowChain(db', c.net, log, e);
    GrowMarket(db', log, e);
  }

  // ---------- journaling ----------

  /** A new run takes the free slot. */
  ghost predicate RunBegun(db: Db, db': Db, ruleId: string, swap: PreparedSwap, price: real, row: RunRow) {
    && db.pending.None?
    && row.ruleId == ruleId
    && row.status == Pending
    && row.reason == PRICE_MOVE
    && row.tx == Some(swap.tx)
    && db' == db.(runs := db.runs + [row], pending := Some(PendingRow(|db.runs|, swap, price, false)))
  }

  lemma BeginJournal(db: Db, db': Db, ruleId: string, swap: PreparedSwap, price: real, row: RunRow)
    requires JournalOk(db) && RunBegun(db, db', ruleId, swap, price, row) && Unheld(db, ruleId)
    ensures JournalOk(db') && HeldRules(db') == HeldRules(db)
  {
    assert forall i :: i in db.uncertain ==> db'.runs[i] == db.runs[i];
    forall i, j | 0 <= i < j < |db'.runs| && Unresolved(db'.runs[i]) && Unresolved(db'.runs[j])
      ensures db'.runs[i].ruleId != db'.runs[j].ruleId
    {
      assert Unresolved(db.runs[i]) && i in db.uncertain;
      if j == |db.runs| {
        assert db.runs[i].ruleId in HeldRules(db);
      } else {
        assert Unresolved(db.runs[j]);
      }
    }
  }

  lemma BeginNonce(db: Db, db': Db, ruleId: string, swap: PreparedSwap, price: real, row: RunRow, net: Net, log: Log)
    requires NonceOk(db, net, log) && ReceiptOk(db, net, log) && JournalOk(db)
    requires RunBegun(db, db', ruleId, swap, price, row) && Fresh(db, net, log, swap.tx)
    ensures NonceOk(db', net, log) && ReceiptOk(db', net, log)
  {
  }

  lemma BeginTruth(db: Db, db': Db, ruleId: string, swap: PreparedSwap, price: real, row: RunRow, net: Net, log: Log)
    requires TruthOk(db, net, log) && RunBegun(db, db', ruleId, swap, price, row)
    ensures TruthOk(db', net, log)
  {
    forall i | 0 <= i < |db'.runs|
      ensures OutcomeOk(db'.runs[i], net, Dismissed(i) in log)
    {
      assert i < |db.runs| ==> OutcomeOk(db.runs[i], net, Dismissed(i) in log);
    }
  }

  lemma BeginEvidence(db: Db, db': Db, ruleId: string, swap: PreparedSwap, price: real, row: RunRow, log: Log)
    requires RunBegun(db, db', ruleId, swap, price, row)
    requires forall e :: e in log ==> Evidence(db, e)
    ensures forall e :: e in log ==> Evidence(db', e)
  {
    forall e | e in log
      ensures Evidence(db', e)
    {
      assert Evidence(db, e);
    }
  }

  lemma BeginLedger(
    db: Db, db': Db, ruleId: string, swap: PreparedSwap, price: real, row: RunRow, log: Log, e: Event)
    requires JournalOk(db) && LedgerOk(db, log) && RunBegun(db, db', ruleId, swap, price, row)
    requires e.Journaled? && e.run == |db.runs| && e.ruleId == ruleId && e.tx == swap.tx
    requires e.origin.snapshot == row.details.snapshot
    ensures LedgerOk(db', log + [e])
  {
    BeginEvidence(db, db', ruleId, swap, price, row, log);
    assert Evidence(db', e);
    assert e in log + [e];
    assert e == Journaled(e.run, ruleId, swap.tx, e.row, e.origin);
    assert WasJournaled(log + [e], e.run, ruleId, swap.tx);
    hide Evidence, Closed, WasJournaled;
    Kept(log, e);
    forall i | 0 <= i < |db'.runs| && db'.runs[i].tx.Some?
      ensures WasJournaled(log + [e], i, db'.runs[i].ruleId, db'.runs[i].tx.value)
    {
      if i < |db.runs| {
        assert WasJournaled(log, i, db.runs[i].ruleId, db.runs[i].tx.value);
      }
    }
  }

  lemma BeginChain(db: Db, db': Db, ruleId: string, swap: PreparedSwap, price: real, row: RunRow, net: Net, log: Log)
    requires ChainOk(db, net, log) && RunBegun(db, db', ruleId, swap, price, row) && swap.tx !in net.live
    ensures ChainOk(db', net, log)
  {
  }

  lemma BeginRules(db: Db, db': Db, pass: Pass, swap: PreparedSwap, price: real, row: RunRow, log: Log)
    requires ActingOk(db, log, pass, price) && RunBegun(db, db', pass.rules[0].id, swap, price, row)
    requires JournalOk(db) && PositiveOk(db) && MarketOk(db, log) && RowOk(db, log)
    ensures PositiveOk(db') && MarketOk(db', log) && RowOk(db', log)
  {
    forall own | Agreed(log, own) && AllUnambiguous(log)
      ensures MarketUnder(ActiveConfig(db', own), db', log)
    {
      SeenInPass(db, log, pass, own);
      assert MarketUnder(ActiveConfig(db, own), db, log);
    }
    PositivePrice(pass.snapshot);
  }

  lemma BeginPhase(db: Db, db': Db, ruleId: string, swap: PreparedSwap, price: real, row: RunRow, log: Log)
    requires PhaseOk(db, log) && RunBegun(db, db', ruleId, swap, price, row) && PhaseOf(log, ruleId) == Clear
    requires HeldRules(db') == HeldRules(db)
    ensures PhaseOk(db', log)
  {
  }

  lemma BeginLaw(c: Core, log: Log, pass: Pass, price: real, swap: PreparedSwap, origin: Origin, e: Event)
    requires ActingOk(c.db, log, pass, price) && pass.session.config.wallet.execute
    requires Standing(log, pass.rules[0].id, pass.rules[0].trigger.cooldownSeconds)
    requires origin.rule == pass.rules[0] && Built(log, RowOf(pass.session), origin, swap.tx)
    requires Fresh(c.db, c.net, log, swap.tx)
    requires JournalOk(c.db) && LedgerOk(c.db, log) && RowOk(c.db, log)
    requires e == Journaled(|c.db.runs|, pass.rules[0].id, swap.tx, RowOf(pass.session), origin)
    ensures Law(log, e)
  {
    AllClosed(c.db, log);
    forall e' | e' in log && e'.Journaled? && e'.tx.account == swap.tx.account
      ensures e'.tx.nonce < swap.tx.nonce || Dismissed(e'.run) in log
    {
      assert Evidence(c.db, e');
    }
  }

  /** With the slot free, every journaled run is closed. */
  lemma AllClosed(db: Db, log: Log)
    requires JournalOk(db) && LedgerOk(db, log) && db.pending.None?
    ensures forall e :: e in log && e.Journaled? ==> e.run < |db.runs| && Closed(log, e.run)
  {
    forall e | e in log && e.Journaled?
      ensures e.run < |db.runs| && Closed(log, e.run)
    {
      assert Evidence(db, e);
    }
  }

  lemma BeginKeeps(
    c: Core, log: Log, db': Db, pass: Pass, price: real, swap: PreparedSwap, origin: Origin, row: RunRow)
    requires pass.rules != []
    requires CoreOk(c, log)
    requires ActingOk(c.db, log, pass, price) && pass.session.config.wallet.execute
    requires Standing(log, pass.rules[0].id, pass.rules[0].trigger.cooldownSeconds)
    requires origin.rule == pass.rules[0] && Built(log, RowOf(pass.session), origin, swap.tx)
    requires Fresh(c.db, c.net, log, swap.tx)
    requires RunBegun(c.db, db', pass.rules[0].id, swap, price, row)
    requires row.details.snapshot == origin.snapshot
    ensures var e := Journaled(|c.db.runs|, pass.rules[0].id, swap.tx, RowOf(pass.session), origin);
            Law(log, e) && CoreOk(c.(db := db'), log + [e])
  {
    hide *;
    CoreParts(c, log);
    ActingParts(c.db, log, pass, price);
    NotLive(c, log, swap.tx);
    var id := pass.rules[0].id;
    var e := Journaled(|c.db.runs|, id, swap.tx, RowOf(pass.session), origin);
    BeginLaw(c, log, pass, price, swap, origin, e);
    BeginJournal(c.db, db', id, swap, price, row);
    BeginNonce(c.db, db', id, swap, price, row, c.net, log);
    BeginTruth(c.db, db', id, swap, price, row, c.net, log);
    BeginLedger(c.db, db', id, swap, price, row, log, e);
    BeginChain(c.db, db', id, swap, price, row, c.net, log);
    BeginRules(c.db, db', pass, swap, price, row, log);
    BeginPhase(c.db, db', id, swap, price, row, log);
    Begun(c.db, db', id, swap, price, row, e);
    GrowNonce(db', c.net, log, e);
    GrowTruth(db', c.net, log, e);
    GrowChain(db', c.net, log, e);
    GrowActions(db'.ruleState, c.clock, log, e);
    GrowPhase(db', log, e);
    GrowMarket(db', log, e);
    CoreWhole(c.(db := db'), log + [e]);
  }

  lemma ActingParts(db: Db, log: Log, pass: Pass, price: real)
    requires ActingOk(db, log, pass, price)
    ensures PassOk(db, log, pass) && pass.rules != [] && db.pending.None? && Unheld(db, pass.rules[0].id)
    ensures PhaseOf(log, pass.rules[0].id) == Clear
  {
    hide PassOk, Unheld, PhaseOf;
  }

  lemma NotLive(c: Core, log: Log, tx: Tx)
    requires Fresh(c.db, c.net, log, tx)
    ensures tx !in c.net.live
  {
    hide Consumed;
  }

  lemma Begun(db: Db, db': Db, ruleId: string, swap: PreparedSwap, price: real, row: RunRow, e: Event)
    requires RunBegun(db, db', ruleId, swap, price, row) && e.Journaled?
    ensures db'.ruleState == db.ruleState && forall id :: !ActionOf(e, id)
  {
  }

  // ---------- publishing ----------

  lemma PublishActions(db: Db, target: AutomationConfig, own: AutomationConfig, clock: int, log: Log)
    requires ActionsOk(db.ruleState, clock, log) && PositiveOk(db)
    ensures var db' := SaveActiveConfig(db, target, ActiveConfig(db, own));
            ActionsOk(db'.ruleState, clock, log) && PositiveOk(db')
  {
  }

  lemma PublishPhase(db: Db, target: AutomationConfig, own: AutomationConfig, log: Log)
    requires PhaseOk(db, log)
    ensures var db' := SaveActiveConfig(db, target, ActiveConfig(db, own));
            PhaseOk(db', log)
  {
    assert HeldRules(SaveActiveConfig(db, target, ActiveConfig(db, own))) == HeldRules(db);
  }

  function PublishedEvent(db: Db, target: AutomationConfig, own: AutomationConfig): Event {
    Published(SaveActiveConfig(db, target, ActiveConfig(db, own)).row.value, if db.row.None? then Some(own) else None)
  }

  /** A baseline that survives was observed in the market the rule still has. */
  lemma SurvivesPublishing(db: Db, target: AutomationConfig, previous: AutomationConfig, log: Log)
    requires MarketUnder(previous, db, log) && db.pending.None?
    ensures MarketUnder(target, SaveActiveConfig(db, target, previous), log)
  {
    var db' := SaveActiveConfig(db, target, previous);
    forall id | id in db'.ruleState && db'.ruleState[id].baselinePrice.Some?
      ensures SeenFor(target, id, db'.ruleState[id].baselinePrice.value, log)
    {
      assert id in db.ruleState && db.ruleState[id].baselinePrice.Some?;
      assert SeenFor(previous, id, db.ruleState[id].baselinePrice.value, log);
      var pair := PairOf(target.rules, id);
      assert MarketOf(target, pair.value) == MarketOf(previous, pair.value);
    }
  }

  lemma PublishMarket(db: Db, target: AutomationConfig, own: AutomationConfig, log: Log)
    requires MarketOk(db, log) && RowOk(db, log) && db.pending.None?
    ensures var db' := SaveActiveConfig(db, target, ActiveConfig(db, own));
            var e := PublishedEvent(db, target, own);
            MarketOk(db', log + [e]) && RowOk(db', log + [e])
  {
    var db' := SaveActiveConfig(db, target, ActiveConfig(db, own));
    var e := PublishedEvent(db, target, own);
    Kept(log, e);
    Extended(log, e);
    assert e in log + [e];
    assert WasPublished(log + [e], db'.row.value);
    forall first | Agreed(log + [e], first) && AllUnambiguous(log + [e])
      ensures MarketUnder(ActiveConfig(db', first), db', log + [e])
    {
      StillUnambiguous(log, e);
      assert MarketUnder(ActiveConfig(db, first), db, log);
      SurvivesPublishing(db, target, ActiveConfig(db, own), log);
      MarketGrows(target, db', log, e);
    }
  }

  lemma PublishLaw(db: Db, target: AutomationConfig, own: AutomationConfig, log: Log)
    requires JournalOk(db) && LedgerOk(db, log) && RowOk(db, log) && db.pending.None?
    ensures Law(log, PublishedEvent(db, target, own))
  {
    AllClosed(db, log);
  }

  lemma PublishKeeps(c: Core, log: Log, target: AutomationConfig, own: AutomationConfig)
    requires CoreOk(c, log) && c.db.pending.None?
    ensures var db' := SaveActiveConfig(c.db, target, ActiveConfig(c.db, own));
            var e := PublishedEvent(c.db, target, own);
            Law(log, e) && CoreOk(c.(db := db'), log + [e])
  {
    hide JournalOk, NonceOk, ReceiptOk, TruthOk, LedgerOk, ChainOk;
    hide ActionsOk, PositiveOk, PhaseOk, MarketOk, RowOk, Law;
    var db' := SaveActiveConfig(c.db, target, ActiveConfig(c.db, own));
    var e := PublishedEvent(c.db, target, own);
    PublishLaw(c.db, target, own, log);
    SavedTables(c.db, db', c.net, log);
    SavedLedger(c.db, db', c.net, log);
    PublishActions(c.db, target, own, c.clock, log);
    PublishPhase(c.db, target, own, log);
    PublishMarket(c.db, target, own, log);
    GrowNonce(db', c.net, log, e);
    GrowTruth(db', c.net, log, e);
    GrowLedger(db', log, e);
    GrowChain(db', c.net, log, e);
    GrowActions(db'.ruleState, c.clock, log, e);
    GrowPhase(db', log, e);
  }
}
