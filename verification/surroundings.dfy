/** What happens outside the lock keeps the invariant: blocks, other signers, time, event cursors. */
module Surroundings {
  import opened Wrappers
  import opened Network
  import opened Rules
  import opened Tables
  import opened Protocol
  import opened History
  import opened Invariant
  import opened JournalSafety

  // ---------- a commit ----------

  /** A transaction above the committed nonce commits: it is the pending one. */
  ghost predicate Commits(db: Db, net: Net, tx: Tx) {
    && tx in net.live
    && !Consumed(net, tx)
    && db.pending.Some?
    && db.pending.value.run < |db.runs|
    && db.pending.value.swap.tx == tx
    && db.runs[db.pending.value.run].tx == Some(tx)
  }

  lemma OnlyPendingCommits(db: Db, net: Net, log: Log, tx: Tx)
    requires JournalOk(db) && NonceOk(db, net, log) && tx in net.live && !Consumed(net, tx)
    ensures Commits(db, net, tx)
  {
  }

  function CommittedNet(net: Net, tx: Tx, receipt: Receipt): Net {
    net.(committed := net.committed[tx.account := tx.nonce], receipts := net.receipts[tx := receipt])
  }

  lemma ConsumedGrows(net: Net, tx: Tx, receipt: Receipt)
    requires !Consumed(net, tx)
    ensures forall t :: Consumed(net, t) ==> Consumed(CommittedNet(net, tx, receipt), t)
    ensures forall t :: Consumed(CommittedNet(net, tx, receipt), t) ==>
              Consumed(net, t) || (t.account == tx.account && t.nonce <= tx.nonce)
    ensures Consumed(CommittedNet(net, tx, receipt), tx)
  {
  }

  lemma CommitNonce(db: Db, net: Net, log: Log, tx: Tx, receipt: Receipt)
    requires NonceOk(db, net, log) && Commits(db, net, tx)
    ensures NonceOk(db, CommittedNet(net, tx, receipt), log)
  {
    ConsumedGrows(net, tx, receipt);
    hide Consumed, CommittedNet;
    assert CommittedNet(net, tx, receipt).live == net.live by {
      SameLive(net, tx, receipt);
    }
  }

  lemma SameLive(net: Net, tx: Tx, receipt: Receipt)
    ensures CommittedNet(net, tx, receipt).live == net.live
  {
  }

  /** Every other run of the account was consumed before, or dismissed, or was never so low. */
  lemma CommitReceipts(db: Db, net: Net, log: Log, tx: Tx, receipt: Receipt)
    requires JournalOk(db) && NonceOk(db, net, log) && ReceiptOk(db, net, log) && Commits(db, net, tx)
    ensures ReceiptOk(db, CommittedNet(net, tx, receipt), log)
  {
    var net' := CommittedNet(net, tx, receipt);
    ConsumedGrows(net, tx, receipt);
    forall i | 0 <= i < |db.runs| && db.runs[i].tx.Some?
      ensures var t := db.runs[i].tx.value;
              Consumed(net', t) && t.account !in net'.shared && Dismissed(i) !in log ==> t in net'.receipts
    {
      var t := db.runs[i].tx.value;
      if i != db.pending.value.run && Dismissed(i) !in log {
        assert db.runs[i].status != Pending;
        assert Consumed(net, t);
      }
    }
  }

  lemma CommitTruth(db: Db, net: Net, log: Log, tx: Tx, receipt: Receipt)
    requires TruthOk(db, net, log) && ReceiptOk(db, net, log) && Commits(db, net, tx)
    ensures TruthOk(db, CommittedNet(net, tx, receipt), log)
  {
    var net' := CommittedNet(net, tx, receipt);
    ConsumedGrows(net, tx, receipt);
    assert tx !in net.receipts;
    forall i | 0 <= i < |db.runs|
      ensures OutcomeOk(db.runs[i], net', Dismissed(i) in log)
    {
      assert OutcomeOk(db.runs[i], net, Dismissed(i) in log);
    }
  }

  lemma CommitChain(db: Db, net: Net, log: Log, tx: Tx, receipt: Receipt)
    requires ChainOk(db, net, log) && ReceiptOk(db, net, log) && Commits(db, net, tx)
    ensures ChainOk(db, CommittedNet(net, tx, receipt), log + [Committed(tx, receipt.success)])
  {
    var e := Committed(tx, receipt.success);
    Kept(log, e);
    assert e in log + [e];
    assert tx !in net.receipts;
  }

  lemma CommitLaw(db: Db, net: Net, log: Log, tx: Tx, receipt: Receipt)
    requires JournalOk(db) && ReceiptOk(db, net, log) && TruthOk(db, net, log) && LedgerOk(db, log)
    requires ChainOk(db, net, log) && Commits(db, net, tx)
    ensures Law(log, Committed(tx, receipt.success))
  {
    var run := db.pending.value.run;
    NotYetClosed(db, log);
    assert WasJournaled(log, run, db.runs[run].ruleId, tx);
    assert SentInTheOpen(log, run);
    assert Dismissed(run) !in log;
    forall e | e in log && e.Committed? && e.tx.account == tx.account
      ensures e.tx.nonce < tx.nonce
    {
      assert e.tx in net.receipts;
    }
  }

  lemma CommitKeeps(c: Core, log: Log, tx: Tx, receipt: Receipt)
    requires CoreOk(c, log) && tx in c.net.live && !Consumed(c.net, tx)
    ensures var e := Committed(tx, receipt.success);
            Law(log, e) && CoreOk(c.(net := CommittedNet(c.net, tx, receipt)), log + [e])
  {
    hide JournalOk, NonceOk, ReceiptOk, TruthOk, LedgerOk, ChainOk;
    hide ActionsOk, PositiveOk, PhaseOk, MarketOk, RowOk, Law;
    var e := Committed(tx, receipt.success);
    var net' := CommittedNet(c.net, tx, receipt);
    OnlyPendingCommits(c.db, c.net, log, tx);
    CommitLaw(c.db, c.net, log, tx, receipt);
    CommitNonce(c.db, c.net, log, tx, receipt);
    CommitReceipts(c.db, c.net, log, tx, receipt);
    CommitTruth(c.db, c.net, log, tx, receipt);
    CommitChain(c.db, c.net, log, tx, receipt);
    GrowNonce(c.db, net', log, e);
    GrowTruth(c.db, net', log, e);
    GrowLedger(c.db, log, e);
    GrowActions(c.db.ruleState, c.clock, log, e);
    GrowPhase(c.db, log, e);
    GrowMarket(c.db, log, e);
  }

  // ---------- somebody else's commit ----------

  function ForeignNet(net: Net, account: Account, nonce: nat): Net {
    net.(committed := net.committed[account := nonce], shared := net.shared + {account})
  }

  predicate Ahead(net: Net, account: Account, nonce: nat) {
    account in net.committed ==> nonce > net.committed[account]
  }

  lemma ForeignTables(db: Db, net: Net, log: Log, account: Account, nonce: nat)
    requires NonceOk(db, net, log) && ReceiptOk(db, net, log) && Ahead(net, account, nonce)
    ensures NonceOk(db, ForeignNet(net, account, nonce), log) && ReceiptOk(db, ForeignNet(net, account, nonce), log)
  {
  }

  lemma ForeignTruth(db: Db, net: Net, log: Log, account: Account, nonce: nat)
    requires TruthOk(db, net, log) && Ahead(net, account, nonce)
    ensures TruthOk(db, ForeignNet(net, account, nonce), log)
  {
    forall i | 0 <= i < |db.runs|
      ensures OutcomeOk(db.runs[i], ForeignNet(net, account, nonce), Dismissed(i) in log)
    {
      assert OutcomeOk(db.runs[i], net, Dismissed(i) in log);
    }
  }

  lemma ForeignChain(db: Db, net: Net, log: Log, account: Account, nonce: nat)
    requires ChainOk(db, net, log)
    ensures ChainOk(db, ForeignNet(net, account, nonce), log + [Outside(account, nonce)])
  {
    var e := Outside(account, nonce);
    Kept(log, e);
    assert e in log + [e];
    assert ForeignIn(log + [e], account);
  }

  lemma ForeignKeeps(c: Core, log: Log, account: Account, nonce: nat)
    requires CoreOk(c, log) && Ahead(c.net, account, nonce)
    ensures var e := Outside(account, nonce);
            Law(log, e) && CoreOk(c.(net := ForeignNet(c.net, account, nonce)), log + [e])
  {
    hide JournalOk, NonceOk, ReceiptOk, TruthOk, LedgerOk, ChainOk, ActionsOk, PositiveOk, PhaseOk, MarketOk, RowOk;
    var e := Outside(account, nonce);
    var net' := ForeignNet(c.net, account, nonce);
    ForeignTables(c.db, c.net, log, account, nonce);
    ForeignTruth(c.db, c.net, log, account, nonce);
    ForeignChain(c.db, c.net, log, account, nonce);
    GrowNonce(c.db, net', log, e);
    GrowTruth(c.db, net', log, e);
    GrowLedger(c.db, log, e);
    GrowActions(c.db.ruleState, c.clock, log, e);
    GrowPhase(c.db, log, e);
    GrowMarket(c.db, log, e);
  }

  // ---------- endpoints, time and cursors ----------

  lemma RelabelKeeps(c: Core, log: Log, reports: map<string, string>)
    requires CoreOk(c, log)
    ensures CoreOk(c.(net := c.net.(reports := reports)), log)
  {
    RelabelTables(c.db, c.net, log, reports);
    RelabelTruth(c.db, c.net, log, reports);
    hide JournalOk, NonceOk, ReceiptOk, TruthOk, LedgerOk, ActionsOk, PositiveOk, PhaseOk, MarketOk, RowOk;
  }

  lemma RelabelTables(db: Db, net: Net, log: Log, reports: map<string, string>)
    requires NonceOk(db, net, log) && ReceiptOk(db, net, log)
    ensures NonceOk(db, net.(reports := reports), log) && ReceiptOk(db, net.(reports := reports), log)
  {
    assert forall t :: Consumed(net.(reports := reports), t) <==> Consumed(net, t);
  }

  lemma RelabelTruth(db: Db, net: Net, log: Log, reports: map<string, string>)
    requires TruthOk(db, net, log)
    ensures TruthOk(db, net.(reports := reports), log)
  {
    forall i | 0 <= i < |db.runs|
      ensures OutcomeOk(db.runs[i], net.(reports := reports), Dismissed(i) in log)
    {
      assert OutcomeOk(db.runs[i], net, Dismissed(i) in log);
    }
  }

  lemma TickKeeps(c: Core, log: Log, elapsed: nat)
    requires CoreOk(c, log)
    ensures CoreOk(c.(clock := c.clock + elapsed), log)
  {
    TickActions(c.db.ruleState, c.clock, log, elapsed);
    hide JournalOk, NonceOk, ReceiptOk, TruthOk, LedgerOk, ChainOk, ActionsOk, PositiveOk, PhaseOk, MarketOk, RowOk;
  }

  lemma TickActions(ruleState: map<string, RuleRuntimeState>, clock: int, log: Log, elapsed: nat)
    requires ActionsOk(ruleState, clock, log)
    ensures ActionsOk(ruleState, clock + elapsed, log)
  {
  }

  lemma CursorKeeps(c: Core, log: Log, name: string, cursor: int)
    requires CoreOk(c, log)
    ensures CoreOk(c.(db := SaveCursor(c.db, name, cursor)), log)
  {
    var db' := SaveCursor(c.db, name, cursor);
    SavedTables(c.db, db', c.net, log);
    SavedLedger(c.db, db', c.net, log);
    CursorRules(c.db, db', log);
    hide JournalOk, NonceOk, ReceiptOk, TruthOk, LedgerOk, ChainOk, ActionsOk, PositiveOk, PhaseOk, MarketOk, RowOk;
  }

  lemma CursorRules(db: Db, db': Db, log: Log)
    requires PositiveOk(db) && PhaseOk(db, log) && MarketOk(db, log) && RowOk(db, log)
    requires db' == db.(cursors := db'.cursors)
    ensures PositiveOk(db') && PhaseOk(db', log) && MarketOk(db', log) && RowOk(db', log)
  {
    assert HeldRules(db') == HeldRules(db);
    SameMarkets(db, db', log);
    hide MarketOk;
  }
}
