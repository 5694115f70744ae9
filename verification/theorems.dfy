/**
 What every execution guarantees.  `Reachable(w)` ranges over all of them: any processes, any
 interleaving, deaths anywhere, any answers from the network, any configurations.
 */
module Theorems {
  import opened Wrappers
  import opened Config
  import opened Network
  import opened Dex
  import opened Rules
  import opened Tables
  import opened Protocol
  import opened History
  import opened Invariant
  import opened JournalSafety
  import opened Runs
  import opened Continuity

  // ---------- at most once ----------

  /** No transaction commits twice, and an account's commits have increasing nonces. */
  lemma CommitsOnce(w: World, i: nat, j: nat)
    requires Reachable(w)
    requires i < j < |w.log|
    requires w.log[i].Committed? && w.log[j].Committed?
    ensures var log := w.log;
            && log[i].tx != log[j].tx
            && (log[i].tx.account == log[j].tx.account ==> log[i].tx.nonce < log[j].tx.nonce)
  {
    ReachableIsLawful(w);
    var log := w.log;
    LawAt(log, j);
    assert log[..j][i] == log[i];
    assert log[i] in log[..j];
  }

  /**
   Nonces increase in run order; a nonce is used again only when the earlier run was dismissed,
   that is, its first broadcast was definitively rejected and no send of it was left open.
   */
  lemma NoncesIncrease(w: World, i: nat, j: nat)
    requires Reachable(w)
    requires i < j < |w.core.db.runs|
    requires w.core.db.runs[i].tx.Some? && w.core.db.runs[j].tx.Some?
    requires w.core.db.runs[i].tx.value.account == w.core.db.runs[j].tx.value.account
    ensures || w.core.db.runs[i].tx.value.nonce < w.core.db.runs[j].tx.value.nonce
            || (w.core.db.runs[i].status == Failed && FirstRefused(w.log, i) && !SentInTheOpen(w.log, i))
  {
    ReachableIsSafe(w);
    if Dismissed(i) in w.log {
      assert OutcomeOk(w.core.db.runs[i], w.core.net, true);
      DismissedForGood(w.log, i);
    }
  }

  lemma Position(log: Log, e: Event) returns (i: nat)
    requires e in log
    ensures i < |log| && log[i] == e
  {
    i :| i < |log| && log[i] == e;
  }

  /** A dismissed run had a refused first broadcast and is never sent again. */
  lemma DismissedForGood(log: Log, run: nat)
    requires Lawful(log) && Dismissed(run) in log
    ensures FirstRefused(log, run) && !SentInTheOpen(log, run)
    ensures forall k, m :: 0 <= k < m < |log| && log[k] == Dismissed(run) ==> !(log[m].Sent? && log[m].run == run)
  {
    forall k, m | 0 <= k < m < |log| && log[k] == Dismissed(run)
      ensures !(log[m].Sent? && log[m].run == run)
    {
      NotSentAfter(log, run, k, m);
    }
    var k := Position(log, Dismissed(run));
    LawAt(log, k);
    var e :| e in log[..k] && e.Sent? && e.run == run && e.first && e.refused;
    assert e in log;
    hide Law;
    forall e | e in log && e.Sent? && e.run == run
      ensures e.refused
    {
      var m := Position(log, e);
      assert m < k;
      assert log[..k][m] == e && e in log[..k];
    }
  }

  lemma NotSentAfter(log: Log, run: nat, k: nat, m: nat)
    requires Lawful(log) && k < m < |log| && log[k] == Dismissed(run)
    ensures !(log[m].Sent? && log[m].run == run)
  {
    LawAt(log, m);
    assert log[..m][k] == log[k];
  }

  /** A transaction belongs to one decision: two runs with the same bytes are never both open to commit. */
  lemma OneDecisionPerTransaction(w: World, i: nat, j: nat)
    requires Reachable(w)
    requires i < j < |w.core.db.runs|
    requires w.core.db.runs[i].tx.Some?
    requires w.core.db.runs[i].tx == w.core.db.runs[j].tx
    ensures w.core.db.runs[i].status == Failed
    ensures !SentInTheOpen(w.log, i)
  {
    NoncesIncrease(w, i, j);
  }

  // ---------- truthful outcomes ----------

  lemma SubmittedIsTrue(w: World, run: nat)
    requires Reachable(w)
    requires run < |w.core.db.runs| && w.core.db.runs[run].status == Submitted
    ensures var tx := w.core.db.runs[run].tx;
            && tx.Some?
            && tx.value in w.core.net.receipts
            && w.core.net.receipts[tx.value].success
            && Committed(tx.value, true) in w.log
  {
    ReachableIsSafe(w);
    TrueOutcome(w, run);
  }

  /**
   A failed swap either has a failing receipt or was dismissed: its first broadcast was refused and no
   send of it was left open.
   */
  lemma FailedIsTrue(w: World, run: nat)
    requires Reachable(w)
    requires run < |w.core.db.runs| && w.core.db.runs[run].status == Failed
    requires w.core.db.runs[run].tx.Some?
    ensures var tx := w.core.db.runs[run].tx.value;
            if Dismissed(run) in w.log then FirstRefused(w.log, run) && !SentInTheOpen(w.log, run)
            else tx in w.core.net.receipts && !w.core.net.receipts[tx].success
  {
    TrueOutcome(w, run);
    if Dismissed(run) in w.log {
      ReachableIsLawful(w);
      DismissedForGood(w.log, run);
    }
  }

  /**
   "Never accepted and never will be" fails for a dismissed run in exactly one way: a later run signs
   the same bytes, because the nonce is free again, and sends them in the open.
   */
  lemma DismissedOnNetwork(w: World, run: nat)
    requires Reachable(w)
    requires run < |w.core.db.runs| && Dismissed(run) in w.log && w.core.db.runs[run].tx.Some?
    ensures var tx := w.core.db.runs[run].tx.value;
            tx in w.core.net.live
            <==> exists later: nat :: run < later < |w.core.db.runs| && w.core.db.runs[later].tx == Some(tx)
                                      && SentInTheOpen(w.log, later)
  {
    var tx := w.core.db.runs[run].tx.value;
    ReachableIsLawful(w);
    DismissedForGood(w.log, run);
    if tx in w.core.net.live {
      var e := Opened(w, tx);
      ReachableHasEvidence(w, e);
      assert SentInTheOpen(w.log, e.run);
      if e.run < run {
        OneDecisionPerTransaction(w, e.run, run);
      }
    }
    forall later: nat | run < later < |w.core.db.runs| && w.core.db.runs[later].tx == Some(tx)
           && SentInTheOpen(w.log, later)
      ensures tx in w.core.net.live
    {
      var e :| e in w.log && e.Sent? && e.run == later && !e.refused;
      ReachableHasEvidence(w, e);
      OpenIsLive(w, e);
    }
  }

  lemma OpenIsLive(w: World, e: Event)
    requires Reachable(w) && e in w.log && e.Sent? && !e.refused
    ensures e.tx in w.core.net.live
  {
    ReachableIsSafe(w);
  }

  /** The transactions the network ever accepted have increasing nonces in run order. */
  lemma AcceptedInOrder(w: World, i: nat, j: nat)
    requires Reachable(w)
    requires i < j < |w.core.db.runs|
    requires w.core.db.runs[i].tx.Some? && w.core.db.runs[j].tx.Some?
    requires w.core.db.runs[i].tx.value.account == w.core.db.runs[j].tx.value.account
    requires SentInTheOpen(w.log, i)
    ensures w.core.db.runs[i].tx.value.nonce < w.core.db.runs[j].tx.value.nonce
  {
    NoncesIncrease(w, i, j);
  }

  lemma TrueOutcome(w: World, run: nat)
    requires Reachable(w) && run < |w.core.db.runs|
    ensures OutcomeOk(w.core.db.runs[run], w.core.net, Dismissed(run) in w.log)
  {
    ReachableIsSafe(w);
  }

  lemma Opened(w: World, tx: Tx) returns (e: Event)
    requires Reachable(w) && tx in w.core.net.live
    ensures e in w.log && e.Sent? && e.tx == tx && !e.refused
  {
    ReachableIsSafe(w);
    assert MayBeHeld(w.log, tx);
    e :| e in w.log && e.Sent? && e.tx == tx && !e.refused;
  }

  /** A held run's nonce is consumed; with a dedicated signer its own transaction committed. */
  lemma HeldIsTrue(w: World, run: nat)
    requires Reachable(w)
    requires run < |w.core.db.runs| && w.core.db.runs[run].status == OutcomeUnknown
    ensures var tx := w.core.db.runs[run].tx;
            && tx.Some?
            && Consumed(w.core.net, tx.value)
            && (!ForeignIn(w.log, tx.value.account) ==> tx.value in w.core.net.receipts)
  {
    ReachableIsSafe(w);
    TrueOutcome(w, run);
  }

  // ---------- the journal ----------

  /** Pending means owning the slot, outcome unknown means being held; each rule has at most one of either. */
  lemma JournalAgrees(w: World, i: nat)
    requires Reachable(w) && i < |w.core.db.runs|
    ensures var db := w.core.db;
            && (db.runs[i].status == Pending <==> db.pending.Some? && db.pending.value.run == i)
            && (db.runs[i].status == OutcomeUnknown <==> i in db.uncertain)
            && (forall j: nat :: j < |db.runs| && j != i && Unresolved(db.runs[i]) && Unresolved(db.runs[j]) ==>
                  db.runs[i].ruleId != db.runs[j].ruleId)
  {
    ReachableIsSafe(w);
  }

  // ---------- baselines ----------

  /**
   Every stored baseline was observed in the market the configuration in force gives its rule.  That is
   the stored one; while nothing is stored it is the first publisher's own, provided that the evaluators
   had their rules in the same markets.
   */
  lemma BaselinesBelong(w: World, own: AutomationConfig, ruleId: string)
    requires Reachable(w) && AllUnambiguous(w.log)
    requires StartsStored(w.log) || Agreed(w.log, own)
    requires GetRuleState(w.core.db, ruleId).baselinePrice.Some?
    ensures SeenFor(ActiveConfig(w.core.db, own), ruleId, GetRuleState(w.core.db, ruleId).baselinePrice.value, w.log)
  {
    ReachableIsSafe(w);
    if StartsStored(w.log) {
      StoredAgrees(w.log, own);
    }
    assert MarketUnder(ActiveConfig(w.core.db, own), w.core.db, w.log);
  }

  /** Nobody works without a stored configuration once there is one. */
  lemma {:induction false} StoredAgrees(log: Log, own: AutomationConfig)
    requires Lawful(log) && StartsStored(log)
    ensures Agreed(log, own) && Current(log).Some? && Current(log).value.generation > 0
    decreases |log|
  {
    var n := |log| - 1;
    assert log == log[..n] + [log[n]];
    Extended(log[..n], log[n]);
    if n > 0 {
      StoredAgrees(log[..n], own);
    }
  }

  /** Stored baselines are positive, so no evaluation ever finds an invalid one. */
  lemma BaselinesPositive(w: World, rule: RuleConfig, snapshot: PairSnapshot, now: int)
    requires Reachable(w)
    ensures EvaluatePriceMove(rule, snapshot, GetRuleState(w.core.db, rule.id), now).reason != "invalid_baseline"
  {
    ReachableIsSafe(w);
  }

  /** A publication forgets the baselines of other markets and of rules with another pair; all others stay. */
  lemma BaselinesSurvive(w: World, p: Pid, choice: Choice, ruleId: string)
    requires Reachable(w) && Working(At(w, p)) && At(w, p).Publishing? && choice.Replacing?
    ensures var previous, target := ActiveConfig(w.core.db, choice.own), At(w, p).target;
            var before, after := GetRuleState(w.core.db, ruleId), GetRuleState(Next(w, Act(p, choice)).core.db, ruleId);
            && after.lastActionAt == before.lastActionAt
            && after.baselinePrice ==
               if previous.network.rpcUrl == target.network.rpcUrl
                  && previous.network.chainId == target.network.chainId
                  && previous.dex == target.dex
                  && PairOf(previous.rules, ruleId) == PairOf(target.rules, ruleId)
               then before.baselinePrice else None
  {
    WorkNext(w, p, choice);
    hide PairOf;
    PublishedStates(w.core, At(w, p).target, choice, ruleId);
    hide HolderNext;
  }

  /**
   A publication puts its target under the next generation, drops every cursor if the market is another one
   and none otherwise, and leaves the journal alone.
   */
  lemma PublishesExactly(w: World, p: Pid, choice: Choice, name: string)
    requires Reachable(w) && Working(At(w, p)) && At(w, p).Publishing? && choice.Replacing?
    ensures var previous, target := ActiveConfig(w.core.db, choice.own), At(w, p).target;
            var before, after := w.core.db, Next(w, Act(p, choice)).core.db;
            && after.row == Some(ConfigRow(target, if before.row.Some? then before.row.value.generation + 1 else 1))
            && CursorIn(after, name)
               == (if previous.network.rpcUrl == target.network.rpcUrl
                      && previous.network.chainId == target.network.chainId
                      && previous.dex == target.dex
                   then CursorIn(before, name) else None)
            && after.runs == before.runs
            && after.pending == before.pending == None
            && after.uncertain == before.uncertain
  {
    hide Reachable;
    WorkNext(w, p, choice);
    PublishedTables(w.core, At(w, p).target, choice, name);
    ReachableHolder(w, p);
    PublishesEmpty(w, p);
    hide HolderNext;
  }

  lemma PublishesEmpty(w: World, p: Pid)
    requires At(w, p).Publishing? && HolderOk(w.core, w.log, At(w, p))
    ensures w.core.db.pending.None?
  {
  }

  lemma PublishedTables(c: Core, target: AutomationConfig, choice: Choice, name: string)
    requires choice.Replacing?
    ensures var previous := ActiveConfig(c.db, choice.own);
            var after := HolderNext(c, Publishing(target), choice).core.db;
            && after.row == Some(ConfigRow(target, if c.db.row.Some? then c.db.row.value.generation + 1 else 1))
            && CursorIn(after, name)
               == (if previous.network.rpcUrl == target.network.rpcUrl
                      && previous.network.chainId == target.network.chainId
                      && previous.dex == target.dex
                   then CursorIn(c.db, name) else None)
            && after.runs == c.db.runs
            && after.pending == c.db.pending
            && after.uncertain == c.db.uncertain
  {
    hide ResetBaselines;
  }

  lemma PublishedStates(c: Core, target: AutomationConfig, choice: Choice, ruleId: string)
    requires choice.Replacing?
    ensures var previous := ActiveConfig(c.db, choice.own);
            GetRuleState(HolderNext(c, Publishing(target), choice).core.db, ruleId)
            == GetRuleState(SaveActiveConfig(c.db, target, previous), ruleId)
  {
    hide PairOf;
  }

  // ---------- no replay ----------

  /** Later than `i` the receipt of this run was recovered. */
  ghost predicate RecoveredSince(log: Log, i: nat, ruleId: string, run: nat) {
    exists k :: i < k < |log| && log[k].Recovered? && log[k].ruleId == ruleId && log[k].run == run
  }

  /** And after that its rule was given a fresh baseline. */
  ghost predicate RestartedSince(log: Log, i: nat, ruleId: string, run: nat) {
    exists k, m :: i < k < m < |log| && log[k].Recovered? && log[k].ruleId == ruleId && log[k].run == run
                   && log[m] == Initialised(ruleId)
  }

  lemma SinceKept(log: Log, e: Event, i: nat, ruleId: string, run: nat)
    ensures RecoveredSince(log, i, ruleId, run) ==> RecoveredSince(log + [e], i, ruleId, run)
    ensures RestartedSince(log, i, ruleId, run) ==> RestartedSince(log + [e], i, ruleId, run)
    ensures RecoveredSince(log, i, ruleId, run) && e == Initialised(ruleId) ==>
              RestartedSince(log + [e], i, ruleId, run)
    ensures i < |log| && e.Recovered? && e.ruleId == ruleId && e.run == run ==>
              RecoveredSince(log + [e], i, ruleId, run)
    ensures RestartedSince(log, i, ruleId, run) ==> RecoveredSince(log, i, ruleId, run)
  {
    assert forall k :: 0 <= k < |log| ==> (log + [e])[k] == log[k];
    assert (log + [e])[|log|] == e;
  }

  /** Once a run is held, its rule leaves that hold only by the recovery of this very run. */
  lemma {:induction false} ClearedSince(log: Log, i: nat)
    requires Lawful(log) && i < |log| && log[i].Held?
    ensures PhaseOf(log, log[i].ruleId) == OnHold(log[i].run) || RecoveredSince(log, i, log[i].ruleId, log[i].run)
    ensures PhaseOf(log, log[i].ruleId) == Clear ==> RestartedSince(log, i, log[i].ruleId, log[i].run)
    decreases |log|
  {
    hide RecoveredSince, RestartedSince;
    var n := |log| - 1;
    var before, ruleId, run := log[..n], log[i].ruleId, log[i].run;
    assert log == before + [log[n]];
    Extended(before, log[n]);
    if i < n {
      ClearedSince(before, i);
      SinceKept(before, log[n], i, ruleId, run);
    }
  }

  /**
   After a release for a consumed nonce the rule decides nothing again, dry or signed, before the receipt
   of that very run was recovered and, after that, a fresh baseline was stored.
   */
  lemma NoReplay(w: World, i: nat, j: nat)
    requires Reachable(w)
    requires i < j < |w.log| && w.log[i].Held?
    requires var e := w.log[j]; (e.Decided? || e.Journaled?) && e.ruleId == w.log[i].ruleId
    ensures var log := w.log;
            exists k, m :: i < k < m < j && log[k].Recovered? && log[k].ruleId == log[i].ruleId
                           && log[k].run == log[i].run && log[m] == Initialised(log[i].ruleId)
  {
    ReachableIsLawful(w);
    var log := w.log;
    LawAt(log, j);
    assert log[..j][i] == log[i];
    ClearedSince(log[..j], i);
    var k, m :| i < k < m < j && log[..j][k].Recovered? && log[..j][k].ruleId == log[i].ruleId
                && log[..j][k].run == log[i].run && log[..j][m] == Initialised(log[i].ruleId);
    assert log[k] == log[..j][k] && log[m] == log[..j][m];
  }

  // ---------- write-ahead ----------

  /** Every send was journaled with these bytes, then marked, and went to an endpoint of the original chain. */
  lemma WriteAhead(w: World, j: nat)
    requires Reachable(w) && j < |w.log| && w.log[j].Sent?
    ensures w.log[j].reported == w.log[j].tx.account.chain
    ensures exists i, k :: 0 <= i < k < j && w.log[k] == Marked(w.log[j].run)
                           && w.log[i].Journaled? && w.log[i].run == w.log[j].run && w.log[i].tx == w.log[j].tx
  {
    ReachableIsLawful(w);
    var e := w.log[j];
    LawAt(w.log, j);
    var k := Position(w.log[..j], Marked(e.run));
    assert w.log[k] == Marked(e.run);
    LawAt(w.log, k);
    var ruleId, tx :| WasJournaled(w.log[..k], e.run, ruleId, tx);
    var row, origin :| Journaled(e.run, ruleId, tx, row, origin) in w.log[..k];
    var i := Position(w.log[..k], Journaled(e.run, ruleId, tx, row, origin));
    assert w.log[i] == Journaled(e.run, ruleId, tx, row, origin);
    ReachableHasEvidence(w, w.log[i]);
    ReachableHasEvidence(w, e);
  }

  /** All sends of a run carry the same bytes. */
  lemma SameBytes(w: World, e: Event, e': Event)
    requires Reachable(w)
    requires e in w.log && e' in w.log && e.Sent? && e'.Sent? && e.run == e'.run
    ensures e.tx == e'.tx
  {
    ReachableHasEvidence(w, e);
    ReachableHasEvidence(w, e');
  }

  /** A send obeys `wallet.execute` of the configuration that governs it: the stored one, or a drain's target. */
  lemma SendsAreAllowed(w: World, j: nat)
    requires Reachable(w) && j < |w.log| && w.log[j].Sent?
    ensures w.log[j].policy.config.wallet.execute
    ensures w.log[j].policy.Stored? && Current(w.log[..j]).Some? ==>
              Current(w.log[..j]).value.config == w.log[j].policy.config
  {
    ReachableIsLawful(w);
    LawAt(w.log, j);
  }

  // ---------- configurations ----------

  /** A journal write names the stored configuration and generation, which only ever increases. */
  lemma JournalsUnderStored(w: World, i: nat, j: nat)
    requires Reachable(w) && i < j < |w.log|
    requires w.log[i].Published?
    ensures var log := w.log;
            && (log[j].Journaled? ==>
                  Current(log[..j]) == Some(log[j].row) && log[i].row.generation <= log[j].row.generation)
            && (log[j].Published? ==> log[i].row.generation < log[j].row.generation)
  {
    ReachableIsLawful(w);
    var log := w.log;
    LawAt(log, j);
    assert log[..j][i] == log[i] && log[i] in log[..j];
    if log[j].Journaled? {
      CurrentIsLatest(log[..j], log[i].row);
    }
  }

  lemma {:induction false} CurrentIsLatest(log: Log, row: ConfigRow)
    requires Lawful(log) && WasPublished(log, row)
    ensures Current(log).Some? && row.generation <= Current(log).value.generation
    decreases |log|
  {
    var replaced :| Published(row, replaced) in log;
    var n := |log| - 1;
    assert log == log[..n] + [log[n]];
    if log[n].Published? {
      assert Law(log[..n], log[n]);
      if log[n] != Published(row, replaced) {
        assert Published(row, replaced) in log[..n];
      }
    } else {
      assert Published(row, replaced) in log[..n];
      CurrentIsLatest(log[..n], row);
    }
  }

  /** A publication finds the slot empty, every journaled run closed, and nobody else past a lock. */
  lemma PublishesAlone(w: World, p: Pid, choice: Choice)
    requires Reachable(w)
    requires Next(w, Act(p, choice)).core.db.row != w.core.db.row
    ensures w.core.db.pending.None?
    ensures forall e :: e in w.log && e.Journaled? ==> Closed(w.log, e.run)
    ensures w.exec == Some(p) && w.gate == Exclusive(p)
    ensures forall q: Pid :: q != p ==> !HoldsExec(At(w, q)) && !At(w, q).Admitted?
  {
    hide Next, Inv, CoreOk, Lawful, Reachable, Closed;
    ReachableIsSafe(w);
    InvParts(w);
    OnlyPublishingPublishes(w, p, choice);
    assert HoldsExec(At(w, p));
    EmptySlotCloses(w);
  }

  lemma EmptySlotCloses(w: World)
    requires Reachable(w) && w.core.db.pending.None?
    ensures forall e :: e in w.log && e.Journaled? ==> Closed(w.log, e.run)
  {
    ReachableIsSafe(w);
    AllClosed(w.core.db, w.log);
  }

  lemma OnlyPublishingPublishes(w: World, p: Pid, choice: Choice)
    requires Next(w, Act(p, choice)).core.db.row != w.core.db.row
    ensures At(w, p).Publishing?
  {
    if Working(At(w, p)) && !At(w, p).Publishing? {
      WorkCursors(w.core, At(w, p), choice);
      hide HolderNext;
    }
  }

  /** The session an evaluator works for once its configuration has been checked. */
  function SessionOf(pc: Pc): Option<Session> {
    match pc
    case Observing(s) => Some(s)
    case NextRule(pass) => Some(pass.session)
    case HeldLookup(pass, _) => Some(pass.session)
    case Resolving(pass, _, _) => Some(pass.session)
    case Deciding(pass) => Some(pass.session)
    case Initialising(pass, _) => Some(pass.session)
    case Quoting(pass, _, _) => Some(pass.session)
    case Reporting(pass, _, _) => Some(pass.session)
    case DryState(pass, _, _) => Some(pass.session)
    case DryReport(pass) => Some(pass.session)
    case Preparing(pass, _, _, _) => Some(pass.session)
    case Journaling(pass, _, _, _) => Some(pass.session)
    case Recovering(purpose, _) =>
      (match purpose
       case BeforePass(s) => Some(s)
       case AfterSigning(pass) => Some(pass.session)
       case _ => None)
    case _ => None
  }

  /** Whatever an evaluator reads or writes, it does under the stored configuration and generation. */
  lemma EvaluatesUnderStored(w: World, p: Pid)
    requires Reachable(w) && SessionOf(At(w, p)).Some?
    ensures Bound(w.core.db, SessionOf(At(w, p)).value)
  {
    ReachableHolder(w, p);
    hide Reachable, RecoveryOk, ActingOk, DecidedOk, Fresh, Bound;
    if At(w, p).Quoting? || At(w, p).DryState? || At(w, p).Preparing? || At(w, p).Journaling? {
      ActingIsBound(w.core.db, w.log, At(w, p).pass, At(w, p).price);
    }
  }

  lemma ActingIsBound(db: Db, log: Log, pass: Pass, price: real)
    ensures ActingOk(db, log, pass, price) ==> Bound(db, pass.session)
  {
  }

  /** A drain towards `execute: false` never sends, whatever the stored configuration allows. */
  lemma DrainNeverSends(w: World, p: Pid, choice: Choice, target: AutomationConfig, rest: seq<string>, r: Recovery)
    requires Reachable(w) && At(w, p) == Recovering(Drain(target, rest), r)
    requires !target.wallet.execute
    ensures Next(w, Act(p, choice)).log[|w.log|..] != [] ==> !Next(w, Act(p, choice)).log[|w.log|].Sent?
  {
    hide Reachable, HolderNext, RecoveryNext;
    ReachableHolder(w, p);
    WorkNext(w, p, choice);
    if !r.Settled? {
      DrainSends(w.core, w.log, target, rest, r, choice);
    } else {
      SettledSends(w.core, Drain(target, rest), r, choice);
    }
  }

  lemma DrainSends(
    c: Core, log: Log, target: AutomationConfig, rest: seq<string>, r: Recovery, choice: Choice)
    requires !r.Settled? && HolderOk(c, log, Recovering(Drain(target, rest), r)) && !target.wallet.execute
    ensures !HolderNext(c, Recovering(Drain(target, rest), r), choice).event.Sent?
  {
  }

  lemma SettledSends(c: Core, purpose: Purpose, r: Recovery, choice: Choice)
    requires r.Settled?
    ensures HolderNext(c, Recovering(purpose, r), choice).event == Quiet
  {
  }

  /** A send is made under the execution lock. */
  lemma SendsUnderLock(w: World, t: Turn)
    requires Reachable(w) && Next(w, t).log[|w.log|..] != [] && Next(w, t).log[|w.log|].Sent?
    ensures t.Act? && w.exec == Some(t.pid)
  {
    hide Inv, CoreOk, Lawful, Reachable, LocksOk;
    ReachableIsSafe(w);
    InvParts(w);
    OnlyWorkSends(w, t);
    WorkLocks(w, t.pid, t.choice);
  }

  lemma OnlyWorkSends(w: World, t: Turn)
    requires Next(w, t).log[|w.log|..] != [] && Next(w, t).log[|w.log|].Sent?
    ensures t.Act? && Working(At(w, t.pid))
  {
    hide HolderNext, Working, Move;
  }

  /**
   With a stored configuration an evaluator passes its check exactly when it is bound to that row;
   without one every configuration passes at generation 0.
   */
  lemma AdmittedExactly(db: Db, s: Session)
    ensures !ConfigurationChanged(db, s)
            <==> if db.row.Some? then db.row.value == ConfigRow(s.config, s.generation) else s.generation == 0
  {
  }

  /**
   A lock step gets exactly what is free: admission while no configuration change holds it, the execution
   lock while nobody does.  A background recovery gives up when a change holds admission, because a drain
   owns the recovery policy; otherwise it follows the stored configuration.
   */
  lemma LocksExactly(w: World, p: Pid, choice: Choice)
    requires Reachable(w) && !Working(At(w, p))
    ensures var pc' := At(Next(w, Act(p, choice)), p);
            match At(w, p)
            case Idle =>
              (match choice
               case Evaluate(session) => pc' == if w.gate.Shared? then Admitted(session) else Idle
               case Recover(default) => pc' == if w.exec.None? then Claimed(default) else Idle
               case Update(target) => pc' == if w.gate == Shared({}) then Gated(target) else Idle
               case _ => pc' == Idle)
            case Admitted(session) => pc' == if w.exec.None? then Checking(session) else Idle
            case Claimed(default) =>
              var config := ActiveConfig(w.core.db, default);
              pc' == (if w.gate.Shared? then Recovering(Background(config), Loading(config.wallet.execute, None))
                      else Idle)
            case Gated(target) => pc' == if w.exec.None? then DrainStart(target) else Gated(target)
            case Draining(target, _) => pc' == Gated(target)
            case _ => pc' == Idle
  {
    ActIsLock(w, p, choice);
    hide Reachable, Next;
  }

  // ---------- cooldown ----------

  /** Whatever acts and decides in between, a decision keeps the cooldown after every earlier action of its rule. */
  lemma CooldownKept(w: World, i: nat, j: nat)
    requires Reachable(w) && i < j < |w.log|
    requires w.log[j].Decided? && ActionOf(w.log[i], w.log[j].ruleId)
    requires w.log[j].cooldownSeconds >= 0
    ensures var log := w.log; log[j].at >= log[i].at + log[j].cooldownSeconds * SECOND
  {
    ReachableIsLawful(w);
    var log := w.log;
    LawAt(log, j);
    assert log[..j][i] == log[i] && log[i] in log[..j];
  }

  /** Every dry run and every journaled swap carries out a decision past the cooldown of all actions until then. */
  lemma ActsAfterCooldown(w: World, j: nat) returns (k: nat)
    requires Reachable(w) && j < |w.log|
    requires w.log[j].Journaled? || w.log[j].DryRan?
    ensures k < j && w.log[k].Decided? && w.log[k].ruleId == w.log[j].ruleId
    ensures w.log[j].DryRan? ==> w.log[k].at == w.log[j].at
    ensures w.log[j].Journaled? ==> w.log[k].cooldownSeconds == w.log[j].origin.rule.trigger.cooldownSeconds
    ensures Cooled(w.log[..j], w.log[j].ruleId, w.log[k].at, w.log[k].cooldownSeconds)
  {
    ReachableIsLawful(w);
    var before, id := w.log[..j], w.log[j].ruleId;
    LawAt(w.log, j);
    var at, cooldown :|
      && Stands(before, id, at, cooldown)
      && (w.log[j].DryRan? ==> at == w.log[j].at)
      && (w.log[j].Journaled? ==> cooldown == w.log[j].origin.rule.trigger.cooldownSeconds);
    k := Position(before, Decided(id, at, cooldown));
    assert w.log[k] == before[k];
  }

  /** Nothing erases or lowers the time of a rule's last action. */
  lemma ActionsRemembered(w: World, e: Event, ruleId: string)
    requires Reachable(w) && e in w.log && ActionOf(e, ruleId)
    ensures var state := GetRuleState(w.core.db, ruleId);
            state.lastActionAt.Some? && e.at <= state.lastActionAt.value <= w.core.clock
  {
    ReachableIsSafe(w);
  }
}
