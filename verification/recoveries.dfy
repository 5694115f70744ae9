/**
 What a recovery makes of what it is told.  The process `p` that reconciles takes its turns in order;
 between any two of them everybody else, the chains and the clock may do whatever they like.
 */
module Recoveries {
  import opened Wrappers
  import opened Config
  import opened Network
  import opened Rules
  import opened Tables
  import opened Protocol
  import Deeds
  import opened Invariant
  import opened Runs

  // ---------- the others meanwhile ----------

  /** Turns of everybody but `p`. */
  predicate Aside(turns: seq<Turn>, p: Pid) {
    forall t :: t in turns ==> Deeds.Foreign(t, p)
  }

  /** What may have changed while `p` holds the execution lock: cursors, blocks and time. */
  ghost predicate Meanwhile(w: World, w': World) {
    && w'.core.db == w.core.db.(cursors := w'.core.db.cursors)
    && w'.core.net.live == w.core.net.live
    && (forall t :: t in w.core.net.receipts ==>
          t in w'.core.net.receipts && w'.core.net.receipts[t] == w.core.net.receipts[t])
    && (forall t :: Consumed(w.core.net, t) ==> Consumed(w'.core.net, t))
    && w.log <= w'.log
  }

  lemma OnlyOneWorks(w: World, p: Pid, q: Pid)
    requires Inv(w) && Working(At(w, p)) && q != p
    ensures !Working(At(w, q))
  {
    hide *;
    InvParts(w);
    if Working(At(w, q)) {
      WorkLocks(w, q, Proceed);
      WorkLocks(w, p, Proceed);
    }
  }

  lemma TurnAside(w: World, t: Turn, p: Pid)
    requires Inv(w) && Working(At(w, p)) && Deeds.Foreign(t, p)
    ensures At(Next(w, t), p) == At(w, p) && Meanwhile(w, Next(w, t))
  {
    hide *;
    if t.Act? {
      LockAside(w, t.pid, p, t.choice);
    } else {
      ReceiptsStay(w);
      OutsideAside(w, t, p);
    }
  }

  lemma LockAside(w: World, q: Pid, p: Pid, choice: Choice)
    requires Inv(w) && Working(At(w, p)) && Deeds.Foreign(Act(q, choice), p)
    ensures At(Next(w, Act(q, choice)), p) == At(w, p) && Meanwhile(w, Next(w, Act(q, choice)))
  {
    OnlyOneWorks(w, p, q);
    ActIsLock(w, q, choice);
    LockSpares(w, q, choice, p);
    LockLeaves(w, q, choice);
    hide Inv, Working, Next, LockNext;
    assert w.core.db == w.core.db.(cursors := w.core.db.cursors);
  }

  lemma OutsideAside(w: World, t: Turn, p: Pid)
    requires !t.Act? && Deeds.Foreign(t, p)
    requires forall tx :: tx in w.core.net.receipts ==> Consumed(w.core.net, tx)
    ensures At(Next(w, t), p) == At(w, p) && Meanwhile(w, Next(w, t))
  {
  }

  /** A transaction that has a receipt cannot commit again. */
  lemma ReceiptsStay(w: World)
    requires Inv(w)
    ensures forall t :: t in w.core.net.receipts ==> Consumed(w.core.net, t)
  {
    InvParts(w);
    assert ReceiptOk(w.core.db, w.core.net, w.log);
  }

  lemma {:induction false} AsideKeeps(w: World, turns: seq<Turn>, p: Pid)
    requires Inv(w) && Working(At(w, p)) && Aside(turns, p)
    ensures Inv(Run(w, turns)) && At(Run(w, turns), p) == At(w, p) && Meanwhile(w, Run(w, turns))
    decreases |turns|
  {
    hide Inv, Working, Next, At, Deeds.Foreign;
    if turns != [] {
      var before, last := turns[..|turns| - 1], turns[|turns| - 1];
      AsideKeeps(w, before, p);
      NextKeeps(Run(w, before), last);
      TurnAside(Run(w, before), last, p);
    }
  }

  /** Others move, and then `p` does. */
  function Then(w: World, aside: seq<Turn>, p: Pid, choice: Choice): World {
    Next(Run(w, aside), Act(p, choice))
  }

  lemma Moves(w: World, aside: seq<Turn>, p: Pid, choice: Choice)
    requires Inv(w) && Working(At(w, p)) && Aside(aside, p)
    ensures var before, w' := Run(w, aside), Then(w, aside, p, choice);
            && Inv(before) && Inv(w') && Meanwhile(w, before)
            && At(before, p) == At(w, p)
            && var e := HolderNext(before.core, At(w, p), choice);
            && At(w', p) == e.pc
            && w'.core == e.core
            && w'.log == before.log + [e.event]
  {
    AsideKeeps(w, aside, p);
    NextKeeps(Run(w, aside), Act(p, choice));
    hide Inv, HolderNext, Working;
  }

  // ---------- what is found ----------

  /** The pending execution as a recovery tries it: on the endpoint it was given, or on its own. */
  function AttemptOn(db: Db, allow: bool, rpc: Option<string>): Attempt
    requires db.pending.Some? && db.pending.value.run < |db.runs|
  {
    var row := db.pending.value;
    Attempt(PendingExecution(row.run, db.runs[row.run].ruleId, row.swap, row.broadcastAttempted),
            row.swap.(rpcUrl := rpc.GetOr(row.swap.rpcUrl)),
            allow)
  }

  predicate HasPending(db: Db, attempted: bool) {
    db.pending.Some? && db.pending.value.run < |db.runs| && db.pending.value.broadcastAttempted == attempted
  }

  /** The endpoint reports the transaction's own chain. */
  predicate Reaches(net: Net, url: string, tx: Tx) {
    url in net.reports && net.reports[url] == tx.account.chain
  }

  /** Nothing but the run that is leaving the slot has changed among the runs, and of that run not what it did. */
  ghost predicate OthersStay(db: Db, db': Db, run: nat)
    requires run < |db.runs|
  {
    && |db'.runs| == |db.runs|
    && (forall i :: 0 <= i < |db.runs| && i != run ==> db'.runs[i] == db.runs[i])
    && db'.runs[run].ruleId == db.runs[run].ruleId
    && db'.runs[run].tx == db.runs[run].tx
    && db'.runs[run].details.snapshot == db.runs[run].details.snapshot
    && db'.row == db.row
  }

  /**
   The pending run has got its outcome: the slot is empty, and on success the rule has the run's next baseline
   and a new last action, while a failure leaves every rule alone.
   */
  ghost predicate Completed(db: Db, db': Db, success: bool, message: Option<string>, now: int)
    requires db.pending.Some? && db.pending.value.run < |db.runs|
  {
    var run := db.pending.value.run;
    && OthersStay(db, db', run)
    && db'.pending.None?
    && db'.uncertain == db.uncertain
    && db'.runs[run].details.recoveryError.None?
    && (if success then
          && db'.runs[run].status == Submitted
          && db'.runs[run].reason == db.runs[run].reason
          && db'.ruleState == db.ruleState[db.runs[run].ruleId :=
                                RuleRuntimeState(Some(db.pending.value.nextBaselinePrice), Some(now))]
        else
          && db'.runs[run].status == Failed
          && db'.runs[run].reason == "submission_failed"
          && db'.runs[run].details.error.Some?
          && (message.GetOr("") != "" ==> db'.runs[run].details.error == message)
          && db'.ruleState == db.ruleState)
  }

  /** The pending run is held with its swap for its receipt: the slot is empty, no rule has advanced. */
  ghost predicate PutOnHold(db: Db, db': Db)
    requires db.pending.Some? && db.pending.value.run < |db.runs|
  {
    var run := db.pending.value.run;
    && OthersStay(db, db', run)
    && db'.pending.None?
    && run !in db.uncertain
    && db'.uncertain == db.uncertain[run := db.pending.value.swap]
    && db'.runs[run].status == OutcomeUnknown
    && db'.runs[run].reason == "nonce_consumed_receipt_missing"
    && db'.runs[run].details.nonceConsumed
    && db'.ruleState == db.ruleState
  }

  // ---------- single steps ----------

  lemma Loads(c: Core, purpose: Purpose, allow: bool, rpc: Option<string>, choice: Choice)
    requires c.db.pending.Some? && c.db.pending.value.run < |c.db.runs| && !choice.Fault?
    ensures var a := AttemptOn(c.db, allow, rpc);
            HolderNext(c, Recovering(purpose, Loading(allow, rpc)), choice)
            == Effect(c, Recovering(purpose, if a.execution.broadcastAttempted then FirstLookup(a)
                                             else if allow then Marking(a)
                                             else Settled(Some(PendingResult(a.execution)))), Quiet)
  {
  }

  lemma Looks(c: Core, purpose: Purpose, a: Attempt, choice: Choice)
    requires choice == Shown || choice == NotShown || choice.Fault?
    ensures var seen := choice == Shown && Reaches(c.net, a.swap.rpcUrl, a.swap.tx) && a.swap.tx in c.net.receipts;
            HolderNext(c, Recovering(purpose, FirstLookup(a)), choice)
            == Effect(c, Recovering(purpose, if seen then Finishing(a, c.net.receipts[a.swap.tx]) else NonceCheck(a)),
                      Quiet)
  {
  }

  lemma Records(c: Core, purpose: Purpose, a: Attempt, receipt: Receipt, choice: Choice)
    requires c.db.pending.Some? && c.db.pending.value.run == a.execution.run < |c.db.runs| && !choice.Fault?
    ensures var e := HolderNext(c, Recovering(purpose, Finishing(a, receipt)), choice);
            && Completed(c.db, e.core.db, receipt.success, receipt.message, c.clock)
            && e.core.net == c.net
            && e.pc == Recovering(purpose, Settled(Some(Result(a.execution.ruleId,
                                                              if receipt.success then Submitted else Failed,
                                                              e.core.db.runs[a.execution.run].reason))))
  {
  }

  lemma ReadsNonce(c: Core, purpose: Purpose, a: Attempt, consumed: bool)
    requires Reaches(c.net, a.swap.rpcUrl, a.swap.tx) && (consumed ==> Consumed(c.net, a.swap.tx))
    ensures HolderNext(c, Recovering(purpose, NonceCheck(a)), NonceIs(consumed))
            == Effect(c, Recovering(purpose, if consumed then Releasing(a)
                                             else if a.allow then Marking(a)
                                             else Settled(Some(PendingResult(a.execution)))), Quiet)
  {
  }

  lemma Releases(c: Core, purpose: Purpose, a: Attempt, choice: Choice)
    requires c.db.pending.Some? && c.db.pending.value.run == a.execution.run < |c.db.runs| && !choice.Fault?
    requires a.execution.run !in c.db.uncertain
    ensures var e := HolderNext(c, Recovering(purpose, Releasing(a)), choice);
            && PutOnHold(c.db, e.core.db)
            && e.core.net == c.net
            && e.pc == Recovering(purpose, Settled(Some(Result(a.execution.ruleId, OutcomeUnknown,
                                                              "nonce_consumed_receipt_missing"))))
  {
  }

  lemma Marks(c: Core, purpose: Purpose, a: Attempt, choice: Choice)
    requires c.db.pending.Some? && c.db.pending.value.run == a.execution.run && !choice.Fault?
    ensures HolderNext(c, Recovering(purpose, Marking(a)), choice)
            == Effect(c.(db := c.db.(pending := Some(c.db.pending.value.(broadcastAttempted := true)))),
                      Recovering(purpose, Sending(a)), Marked(a.execution.run))
  {
  }

  /** Where the answer to a send leads: only the refusal of a first send closes the run. */
  lemma Sends(c: Core, purpose: Purpose, a: Attempt, reply: Reply)
    requires Reaches(c.net, a.swap.rpcUrl, a.swap.tx)
    ensures var e := HolderNext(c, Recovering(purpose, Sending(a)), Answered(reply));
            var first := !a.execution.broadcastAttempted;
            && e.core.db == c.db
            && e.core.net == (if reply.Refused? && first then c.net else c.net.(live := c.net.live + {a.swap.tx}))
            && e.core.clock == c.clock
            && e.event == Sent(a.execution.run, a.swap.tx, a.swap.tx.account.chain, first, reply.Refused? && first,
                               PolicyOf(purpose))
            && e.pc == Recovering(purpose, match reply
                                           case Unclear(error) => Noting(a, error)
                                           case Refused(message) =>
                                             if first then Rejecting(a, message) else SecondLookup(a)
                                           case Accepted => SecondLookup(a))
  {
  }

  lemma Rejects(c: Core, purpose: Purpose, a: Attempt, message: string, choice: Choice)
    requires c.db.pending.Some? && c.db.pending.value.run == a.execution.run < |c.db.runs| && !choice.Fault?
    ensures var e := HolderNext(c, Recovering(purpose, Rejecting(a, message)), choice);
            && Completed(c.db, e.core.db, false, Some(message), c.clock)
            && e.core.net == c.net
            && e.pc == Recovering(purpose, Settled(Some(Result(a.execution.ruleId, Failed, "submission_failed"))))
  {
  }

  lemma LooksAgain(c: Core, purpose: Purpose, a: Attempt, choice: Choice)
    requires choice == Shown || choice == NotShown
    requires Reaches(c.net, a.swap.rpcUrl, a.swap.tx) && (choice == Shown ==> a.swap.tx in c.net.receipts)
    ensures HolderNext(c, Recovering(purpose, SecondLookup(a)), choice)
            == Effect(c, Recovering(purpose, if choice == Shown then Finishing(a, c.net.receipts[a.swap.tx])
                                             else Settled(Some(PendingResult(a.execution)))), Quiet)
  {
  }

  // ---------- the attempted execution ----------

  lemma SameSlot(db: Db, db1: Db, db': Db)
    requires db.pending.Some? && db.pending.value.run < |db.runs| && db1 == db.(cursors := db1.cursors)
    ensures forall success, message, now ::
              Completed(db1, db', success, message, now) ==> Completed(db, db', success, message, now)
    ensures PutOnHold(db1, db') ==> PutOnHold(db, db')
    ensures forall allow, rpc :: AttemptOn(db1, allow, rpc) == AttemptOn(db, allow, rpc)
  {
  }

  lemma PendingIsOpen(w: World)
    requires Inv(w) && w.core.db.pending.Some?
    ensures w.core.db.pending.value.run < |w.core.db.runs|
    ensures w.core.db.pending.value.run !in w.core.db.uncertain
  {
    InvParts(w);
    assert JournalOk(w.core.db);
  }

  lemma RecoveringWorks(purpose: Purpose, r: Recovery)
    ensures Working(Recovering(purpose, r))
  {
  }

  /** The endpoint this recovery talks to. */
  function Url(w: World, rpc: Option<string>): string
    requires w.core.db.pending.Some?
  {
    rpc.GetOr(w.core.db.pending.value.swap.rpcUrl)
  }

  /** The swap in the slot. */
  function SlotTx(w: World): Tx
    requires w.core.db.pending.Some?
  {
    w.core.db.pending.value.swap.tx
  }

  /** A process is about to recover the pending execution, which has been attempted or not. */
  ghost predicate Begins(w: World, p: Pid, purpose: Purpose, allow: bool, rpc: Option<string>, attempted: bool) {
    && Reachable(w)
    && At(w, p) == Recovering(purpose, Loading(allow, rpc))
    && w.core.db.pending.Some?
    && w.core.db.pending.value.broadcastAttempted == attempted
  }

  lemma BeginsWith(w: World, p: Pid, purpose: Purpose, allow: bool, rpc: Option<string>, attempted: bool)
    requires Begins(w, p, purpose, allow, rpc, attempted)
    ensures w.core.db.pending.Some? && w.core.db.pending.value.broadcastAttempted == attempted
  {
    hide Reachable;
  }

  /** The attempt is about the execution in the slot. */
  ghost predicate About(w: World, a: Attempt, allow: bool, rpc: Option<string>, attempted: bool)
    requires w.core.db.pending.Some?
  {
    && w.core.db.pending.value.run < |w.core.db.runs|
    && w.core.db.pending.value.run !in w.core.db.uncertain
    && a.execution == PendingExecution(w.core.db.pending.value.run, w.core.db.runs[w.core.db.pending.value.run].ruleId,
                                       w.core.db.pending.value.swap, attempted)
    && a.swap == PreparedSwap(Url(w, rpc), SlotTx(w))
    && a.allow == allow
  }

  /** A turn that changes nothing but where the process is. */
  lemma Steps(w: World, w1: World, o: seq<Turn>, p: Pid, c: Choice, pc: Pc)
    requires Inv(w1) && Meanwhile(w, w1) && Working(At(w1, p)) && Aside(o, p)
    requires HolderNext(Run(w1, o).core, At(w1, p), c) == Effect(Run(w1, o).core, pc, Quiet)
    ensures Inv(Then(w1, o, p, c)) && Meanwhile(w, Then(w1, o, p, c)) && At(Then(w1, o, p, c), p) == pc
  {
    hide Inv, Run, Next, HolderNext, Working, At, Consumed;
    Moves(w1, o, p, c);
  }

  lemma Lasts(w: World, w1: World, o: seq<Turn>, p: Pid)
    requires Inv(w1) && Meanwhile(w, w1) && Working(At(w1, p)) && Aside(o, p)
    ensures Meanwhile(w, Run(w1, o))
  {
    hide Inv, Run, Next, Working, At, Consumed;
    AsideKeeps(w1, o, p);
  }

  /** Its first turn finds the execution. */
  lemma Found(
    w: World, p: Pid, purpose: Purpose, allow: bool, rpc: Option<string>, attempted: bool, o: seq<Turn>, c: Choice)
    returns (a: Attempt)
    requires Begins(w, p, purpose, allow, rpc, attempted) && Aside(o, p) && !c.Fault?
    ensures About(w, a, allow, rpc, attempted)
    ensures Inv(Then(w, o, p, c)) && Meanwhile(w, Then(w, o, p, c))
    ensures At(Then(w, o, p, c), p) == Recovering(purpose, if attempted then FirstLookup(a)
                                                           else if allow then Marking(a)
                                                           else Settled(Some(PendingResult(a.execution))))
  {
    hide Inv, Reachable, Run, Next, HolderNext, Working, At, Consumed;
    ReachableIsSafe(w);
    PendingIsOpen(w);
    RecoveringWorks(purpose, Loading(allow, rpc));
    Moves(w, o, p, c);
    Loads(Run(w, o).core, purpose, allow, rpc, c);
    SameSlot(w.core.db, Run(w, o).core.db, w.core.db);
    a := AttemptOn(w.core.db, allow, rpc);
  }

  /**
   A recovery of an attempted swap that is shown its receipt settles by it, whatever the nonce says: the run
   is submitted or failed as the receipt has it, the slot is empty, and on success the rule has advanced.
   */
  lemma ReceiptSettles(
    w: World, p: Pid, purpose: Purpose, allow: bool, rpc: Option<string>,
    o0: seq<Turn>, o1: seq<Turn>, o2: seq<Turn>, c0: Choice, c2: Choice)
    requires Begins(w, p, purpose, allow, rpc, true)
    requires Aside(o0, p) && Aside(o1, p) && Aside(o2, p) && !c0.Fault? && !c2.Fault?
    requires var net := Run(Then(w, o0, p, c0), o1).core.net;
             Reaches(net, Url(w, rpc), SlotTx(w)) && SlotTx(w) in net.receipts
    ensures var looking := Run(Then(w, o0, p, c0), o1);
            var finding := Run(Then(Then(w, o0, p, c0), o1, p, Shown), o2);
            var done := Then(Then(Then(w, o0, p, c0), o1, p, Shown), o2, p, c2);
            var receipt, run := looking.core.net.receipts[SlotTx(w)], w.core.db.pending.value.run;
            && run < |w.core.db.runs|
            && Completed(w.core.db, done.core.db, receipt.success, receipt.message, finding.core.clock)
            && At(done, p) == Recovering(purpose, Settled(Some(
                 Result(w.core.db.runs[run].ruleId, if receipt.success then Submitted else Failed,
                        done.core.db.runs[run].reason))))
            && done.core.net.live == w.core.net.live
  {
    var a := Found(w, p, purpose, allow, rpc, true, o0, c0);
    hide Inv, Reachable, Run, Next, HolderNext, Working, At, Consumed, Completed;
    var w1 := Then(w, o0, p, c0);
    RecoveringWorks(purpose, FirstLookup(a));
    Moves(w1, o1, p, Shown);
    Looks(Run(w1, o1).core, purpose, a, Shown);
    var w2 := Then(w1, o1, p, Shown);
    var receipt := Run(w1, o1).core.net.receipts[SlotTx(w)];
    RecoveringWorks(purpose, Finishing(a, receipt));
    Moves(w2, o2, p, c2);
    Records(Run(w2, o2).core, purpose, a, receipt, c2);
    SameSlot(w.core.db, Run(w2, o2).core.db, Then(w2, o2, p, c2).core.db);
  }

  /** The lookup is not shown a receipt: it times out or fails, or the endpoint has none to show. */
  predicate Unseen(net: Net, url: string, tx: Tx, choice: Choice) {
    || choice == NotShown
    || choice.Fault?
    || (choice == Shown && !(Reaches(net, url, tx) && tx in net.receipts))
  }

  /** Unseen, the recovery goes on to read the committed nonce. */
  lemma ThenReads(
    w: World, p: Pid, purpose: Purpose, allow: bool, rpc: Option<string>,
    o0: seq<Turn>, o1: seq<Turn>, c0: Choice, c1: Choice)
    returns (a: Attempt)
    requires Begins(w, p, purpose, allow, rpc, true) && Aside(o0, p) && Aside(o1, p) && !c0.Fault?
    requires Unseen(Run(Then(w, o0, p, c0), o1).core.net, Url(w, rpc), SlotTx(w), c1)
    ensures About(w, a, allow, rpc, true)
    ensures var w2 := Then(Then(w, o0, p, c0), o1, p, c1);
            Inv(w2) && Meanwhile(w, w2) && At(w2, p) == Recovering(purpose, NonceCheck(a))
  {
    hide *;
    BeginsWith(w, p, purpose, allow, rpc, true);
    a := Found(w, p, purpose, allow, rpc, true, o0, c0);
    var w1 := Then(w, o0, p, c0);
    RecoveringWorks(purpose, FirstLookup(a));
    UnseenGoesOn(w, Run(w1, o1).core, purpose, a, allow, rpc, c1);
    Steps(w, w1, o1, p, c1, Recovering(purpose, NonceCheck(a)));
  }

  lemma UnseenGoesOn(
    w: World, c: Core, purpose: Purpose, a: Attempt, allow: bool, rpc: Option<string>, choice: Choice)
    requires w.core.db.pending.Some? && About(w, a, allow, rpc, true)
    requires Unseen(c.net, Url(w, rpc), SlotTx(w), choice)
    ensures HolderNext(c, Recovering(purpose, FirstLookup(a)), choice)
            == Effect(c, Recovering(purpose, NonceCheck(a)), Quiet)
  {
    Looks(c, purpose, a, choice);
    hide HolderNext;
  }

  lemma ReadsSlotNonce(
    w: World, c: Core, purpose: Purpose, a: Attempt, allow: bool, rpc: Option<string>, consumed: bool)
    requires w.core.db.pending.Some? && About(w, a, allow, rpc, true)
    requires Reaches(c.net, Url(w, rpc), SlotTx(w)) && (consumed ==> Consumed(c.net, SlotTx(w)))
    ensures HolderNext(c, Recovering(purpose, NonceCheck(a)), NonceIs(consumed))
            == Effect(c, Recovering(purpose, if consumed then Releasing(a)
                                             else if allow then Marking(a)
                                             else Settled(Some(Result(a.execution.ruleId, Pending,
                                                                      "submission_pending")))), Quiet)
  {
    ReadsNonce(c, purpose, a, consumed);
    hide HolderNext, Consumed, Reaches;
  }

  /**
   A recovery that is shown no receipt and then reads that the nonce is consumed holds the run: exactly this
   run joins the held ones with its swap, the slot is empty and nothing is sent.
   */
  lemma ConsumedHolds(
    w: World, p: Pid, purpose: Purpose, allow: bool, rpc: Option<string>,
    o0: seq<Turn>, o1: seq<Turn>, o2: seq<Turn>, o3: seq<Turn>, c0: Choice, c1: Choice, c3: Choice)
    requires Begins(w, p, purpose, allow, rpc, true)
    requires Aside(o0, p) && Aside(o1, p) && Aside(o2, p) && Aside(o3, p) && !c0.Fault? && !c3.Fault?
    requires Unseen(Run(Then(w, o0, p, c0), o1).core.net, Url(w, rpc), SlotTx(w), c1)
    requires var net := Run(Then(Then(w, o0, p, c0), o1, p, c1), o2).core.net;
             Reaches(net, Url(w, rpc), SlotTx(w)) && Consumed(net, SlotTx(w))
    ensures var w3 := Then(Then(Then(w, o0, p, c0), o1, p, c1), o2, p, NonceIs(true));
            var done, run := Then(w3, o3, p, c3), w.core.db.pending.value.run;
            && run < |w.core.db.runs|
            && PutOnHold(w.core.db, done.core.db)
            && done.core.net.live == w.core.net.live
            && At(done, p) == Recovering(purpose, Settled(Some(
                 Result(w.core.db.runs[run].ruleId, OutcomeUnknown, "nonce_consumed_receipt_missing"))))
  {
    hide *;
    BeginsWith(w, p, purpose, allow, rpc, true);
    var a := ThenReads(w, p, purpose, allow, rpc, o0, o1, c0, c1);
    var w2 := Then(Then(w, o0, p, c0), o1, p, c1);
    RecoveringWorks(purpose, NonceCheck(a));
    ReadsSlotNonce(w, Run(w2, o2).core, purpose, a, allow, rpc, true);
    Steps(w, w2, o2, p, NonceIs(true), Recovering(purpose, Releasing(a)));
    HeldNow(w, Then(w2, o2, p, NonceIs(true)), p, purpose, a, allow, rpc, o3, c3);
  }

  lemma HeldNow(
    w: World, w1: World, p: Pid, purpose: Purpose, a: Attempt, allow: bool, rpc: Option<string>,
    o: seq<Turn>, c: Choice)
    requires w.core.db.pending.Some? && About(w, a, allow, rpc, true)
    requires Inv(w1) && Meanwhile(w, w1) && At(w1, p) == Recovering(purpose, Releasing(a)) && Aside(o, p) && !c.Fault?
    ensures var done, run := Then(w1, o, p, c), w.core.db.pending.value.run;
            && run < |w.core.db.runs|
            && PutOnHold(w.core.db, done.core.db)
            && done.core.net.live == w.core.net.live
            && At(done, p) == Recovering(purpose, Settled(Some(
                 Result(w.core.db.runs[run].ruleId, OutcomeUnknown, "nonce_consumed_receipt_missing"))))
  {
    hide Inv, Run, Next, HolderNext, Working, At, Consumed, PutOnHold;
    RecoveringWorks(purpose, Releasing(a));
    Lasts(w, w1, o, p);
    Moves(w1, o, p, c);
    Releases(Run(w1, o).core, purpose, a, c);
    SameSlot(w.core.db, Run(w1, o).core.db, Then(w1, o, p, c).core.db);
  }

  /**
   A recovery that is shown no receipt and reads that the nonce is not consumed sends the very same bytes
   again if it may broadcast, and whatever the node answers, a refusal included, the run stays pending.
   */
  lemma UnconsumedResends(
    w: World, p: Pid, purpose: Purpose, rpc: Option<string>,
    o0: seq<Turn>, o1: seq<Turn>, o2: seq<Turn>, o3: seq<Turn>, o4: seq<Turn>,
    c0: Choice, c1: Choice, c3: Choice, reply: Reply)
    returns (a: Attempt)
    requires Begins(w, p, purpose, true, rpc, true)
    requires Aside(o0, p) && Aside(o1, p) && Aside(o2, p) && Aside(o3, p) && Aside(o4, p) && !c0.Fault? && !c3.Fault?
    requires Unseen(Run(Then(w, o0, p, c0), o1).core.net, Url(w, rpc), SlotTx(w), c1)
    requires var w2 := Then(Then(w, o0, p, c0), o1, p, c1);
             var w3 := Then(w2, o2, p, NonceIs(false));
             && Reaches(Run(w2, o2).core.net, Url(w, rpc), SlotTx(w))
             && Reaches(Run(Then(w3, o3, p, c3), o4).core.net, Url(w, rpc), SlotTx(w))
    ensures var w3 := Then(Then(Then(w, o0, p, c0), o1, p, c1), o2, p, NonceIs(false));
            var sent, run := Then(Then(w3, o3, p, c3), o4, p, Answered(reply)), w.core.db.pending.value.run;
            && sent.core.db == w.core.db.(cursors := sent.core.db.cursors)
            && sent.core.net.live == w.core.net.live + {SlotTx(w)}
            && sent.log != []
            && sent.log[|sent.log| - 1]
               == Sent(run, SlotTx(w), SlotTx(w).account.chain, false, false, PolicyOf(purpose))
            && a.execution.run == run
            && At(sent, p) == Recovering(purpose, if reply.Unclear? then Noting(a, reply.error) else SecondLookup(a))
  {
    hide *;
    BeginsWith(w, p, purpose, true, rpc, true);
    a := ThenReads(w, p, purpose, true, rpc, o0, o1, c0, c1);
    var w2 := Then(Then(w, o0, p, c0), o1, p, c1);
    RecoveringWorks(purpose, NonceCheck(a));
    ReadsSlotNonce(w, Run(w2, o2).core, purpose, a, true, rpc, false);
    Steps(w, w2, o2, p, NonceIs(false), Recovering(purpose, Marking(a)));
    AboutParts(w, a, true, rpc, true);
    MarksAndSends(w, Then(w2, o2, p, NonceIs(false)), p, purpose, a, o3, o4, c3, reply);
    StillAttempted(w.core.db);
  }

  lemma AboutParts(w: World, a: Attempt, allow: bool, rpc: Option<string>, attempted: bool)
    requires w.core.db.pending.Some? && About(w, a, allow, rpc, attempted)
    ensures a.execution.run == w.core.db.pending.value.run < |w.core.db.runs|
    ensures a.execution.ruleId == w.core.db.runs[a.execution.run].ruleId
    ensures a.execution.broadcastAttempted == attempted
    ensures a.swap.rpcUrl == Url(w, rpc) && a.swap.tx == SlotTx(w)
  {
  }

  lemma StillAttempted(db: Db)
    requires db.pending.Some? && db.pending.value.broadcastAttempted
    ensures forall cursors ::
              db.(cursors := cursors, pending := Some(db.pending.value.(broadcastAttempted := true)))
              == db.(cursors := cursors)
  {
  }

  /** From the decision to send to the node's answer. */
  lemma MarksAndSends(
    w: World, w1: World, p: Pid, purpose: Purpose, a: Attempt, o0: seq<Turn>, o1: seq<Turn>, c0: Choice, reply: Reply)
    requires Inv(w1) && Meanwhile(w, w1) && At(w1, p) == Recovering(purpose, Marking(a))
    requires w.core.db.pending.Some? && a.execution.run == w.core.db.pending.value.run
    requires Aside(o0, p) && Aside(o1, p) && !c0.Fault?
    requires Reaches(Run(Then(w1, o0, p, c0), o1).core.net, a.swap.rpcUrl, a.swap.tx)
    ensures var sent, first := Then(Then(w1, o0, p, c0), o1, p, Answered(reply)), !a.execution.broadcastAttempted;
            && Inv(sent)
            && sent.core.db == w.core.db.(cursors := sent.core.db.cursors,
                                          pending := Some(w.core.db.pending.value.(broadcastAttempted := true)))
            && sent.core.net.live == w.core.net.live + (if reply.Refused? && first then {} else {a.swap.tx})
            && sent.log != []
            && sent.log[|sent.log| - 1] == Sent(a.execution.run, a.swap.tx, a.swap.tx.account.chain, first,
                                                reply.Refused? && first, PolicyOf(purpose))
            && At(sent, p) == Recovering(purpose, match reply
                                                  case Unclear(error) => Noting(a, error)
                                                  case Refused(message) =>
                                                    if first then Rejecting(a, message) else SecondLookup(a)
                                                  case Accepted => SecondLookup(a))
  {
    hide Inv, Reachable, Run, Next, HolderNext, Working, At, Consumed;
    RecoveringWorks(purpose, Marking(a));
    Moves(w1, o0, p, c0);
    Marks(Run(w1, o0).core, purpose, a, c0);
    var w2 := Then(w1, o0, p, c0);
    RecoveringWorks(purpose, Sending(a));
    Moves(w2, o1, p, Answered(reply));
    Sends(Run(w2, o1).core, purpose, a, reply);
  }

  /** What must not be broadcast stays as it is: an unconsumed attempt, or one never made. */
  lemma WithheldStays(
    w: World, p: Pid, purpose: Purpose, rpc: Option<string>, attempted: bool,
    o0: seq<Turn>, o1: seq<Turn>, o2: seq<Turn>, c0: Choice, c1: Choice)
    requires Begins(w, p, purpose, false, rpc, attempted)
    requires Aside(o0, p) && Aside(o1, p) && Aside(o2, p) && !c0.Fault?
    requires attempted ==>
               var w1 := Then(w, o0, p, c0);
               && Unseen(Run(w1, o1).core.net, Url(w, rpc), SlotTx(w), c1)
               && Reaches(Run(Then(w1, o1, p, c1), o2).core.net, Url(w, rpc), SlotTx(w))
    ensures var w1, run := Then(w, o0, p, c0), w.core.db.pending.value.run;
            var done := if attempted then Then(Then(w1, o1, p, c1), o2, p, NonceIs(false)) else w1;
            && run < |w.core.db.runs|
            && Meanwhile(w, done)
            && At(done, p)
               == Recovering(purpose, Settled(Some(Result(w.core.db.runs[run].ruleId, Pending, "submission_pending"))))
  {
    hide *;
    BeginsWith(w, p, purpose, false, rpc, attempted);
    if attempted {
      var a := ThenReads(w, p, purpose, false, rpc, o0, o1, c0, c1);
      var w2 := Then(Then(w, o0, p, c0), o1, p, c1);
      RecoveringWorks(purpose, NonceCheck(a));
      ReadsSlotNonce(w, Run(w2, o2).core, purpose, a, false, rpc, false);
      AboutParts(w, a, false, rpc, true);
      Steps(w, w2, o2, p, NonceIs(false),
            Recovering(purpose, Settled(Some(Result(a.execution.ruleId, Pending, "submission_pending")))));
    } else {
      var a := Found(w, p, purpose, false, rpc, false, o0, c0);
      AboutParts(w, a, false, rpc, false);
      ReportsPending(a.execution);
    }
  }

  lemma ReportsPending(e: PendingExecution)
    ensures PendingResult(e) == Result(e.ruleId, Pending, "submission_pending")
  {
  }

  /** A first send that is definitively refused closes the run as failed; the rules stay as they are. */
  lemma RefusalDismisses(
    w: World, p: Pid, purpose: Purpose, rpc: Option<string>, message: string,
    o0: seq<Turn>, o1: seq<Turn>, o2: seq<Turn>, o3: seq<Turn>, c0: Choice, c1: Choice, c3: Choice)
    requires Begins(w, p, purpose, true, rpc, false)
    requires Aside(o0, p) && Aside(o1, p) && Aside(o2, p) && Aside(o3, p)
    requires !c0.Fault? && !c1.Fault? && !c3.Fault?
    requires Reaches(Run(Then(Then(w, o0, p, c0), o1, p, c1), o2).core.net, Url(w, rpc), SlotTx(w))
    ensures var w2 := Then(Then(w, o0, p, c0), o1, p, c1);
            var w3 := Then(w2, o2, p, Answered(Refused(message)));
            var done, run := Then(w3, o3, p, c3), w.core.db.pending.value.run;
            && run < |w.core.db.runs|
            && Completed(w.core.db, done.core.db, false, Some(message), Run(w3, o3).core.clock)
            && done.core.net.live == w.core.net.live
            && At(done, p) == Recovering(purpose, Settled(Some(
                 Result(w.core.db.runs[run].ruleId, Failed, "submission_failed"))))
  {
    hide *;
    BeginsWith(w, p, purpose, true, rpc, false);
    var a := Found(w, p, purpose, true, rpc, false, o0, c0);
    var w1 := Then(w, o0, p, c0);
    AboutParts(w, a, true, rpc, false);
    MarksAndSends(w, w1, p, purpose, a, o1, o2, c1, Refused(message));
    var w3 := Then(Then(w1, o1, p, c1), o2, p, Answered(Refused(message)));
    DismissedNow(w, w3, p, purpose, a, message, o3, c3);
  }

  lemma DismissedNow(
    w: World, w1: World, p: Pid, purpose: Purpose, a: Attempt, message: string, o: seq<Turn>, c: Choice)
    requires w.core.db.pending.Some? && a.execution.run == w.core.db.pending.value.run < |w.core.db.runs|
    requires a.execution.ruleId == w.core.db.runs[a.execution.run].ruleId
    requires Inv(w1) && At(w1, p) == Recovering(purpose, Rejecting(a, message)) && Aside(o, p) && !c.Fault?
    requires w1.core.db == w.core.db.(cursors := w1.core.db.cursors,
                                      pending := Some(w.core.db.pending.value.(broadcastAttempted := true)))
    ensures var done := Then(w1, o, p, c);
            && Completed(w.core.db, done.core.db, false, Some(message), Run(w1, o).core.clock)
            && done.core.net.live == w1.core.net.live
            && At(done, p) == Recovering(purpose, Settled(Some(
                 Result(a.execution.ruleId, Failed, "submission_failed"))))
  {
    hide Inv, Run, Next, HolderNext, Working, At, Consumed, Completed;
    RecoveringWorks(purpose, Rejecting(a, message));
    Moves(w1, o, p, c);
    Rejects(Run(w1, o).core, purpose, a, message, c);
    AttemptedSlot(w.core.db, Run(w1, o).core.db, Then(w1, o, p, c).core.db);
  }

  lemma AttemptedSlot(db: Db, db1: Db, db': Db)
    requires db.pending.Some? && db.pending.value.run < |db.runs|
    requires db1 == db.(cursors := db1.cursors, pending := Some(db.pending.value.(broadcastAttempted := true)))
    ensures forall success, message, now ::
              Completed(db1, db', success, message, now) ==> Completed(db, db', success, message, now)
  {
  }

  // ---------- after a send ----------

  lemma SecondKnows(w: World, p: Pid, purpose: Purpose, a: Attempt)
    requires Reachable(w) && At(w, p) == Recovering(purpose, SecondLookup(a))
    ensures Inv(w) && w.core.db.pending.Some? && a.execution.run == w.core.db.pending.value.run < |w.core.db.runs|
    ensures a.swap.tx == SlotTx(w) && a.execution.ruleId == w.core.db.runs[a.execution.run].ruleId
  {
    hide *;
    ReachableIsSafe(w);
    HoldsRecovering(purpose, SecondLookup(a));
    ReachableHolder(w, p);
    SecondHolds(w, purpose, a);
  }

  lemma HoldsRecovering(purpose: Purpose, r: Recovery)
    ensures HoldsExec(Recovering(purpose, r))
  {
  }

  lemma SecondHolds(w: World, purpose: Purpose, a: Attempt)
    requires HolderOk(w.core, w.log, Recovering(purpose, SecondLookup(a)))
    ensures w.core.db.pending.Some? && a.execution.run == w.core.db.pending.value.run < |w.core.db.runs|
    ensures a.swap.tx == SlotTx(w) && a.execution.ruleId == w.core.db.runs[a.execution.run].ruleId
  {
    hide PurposeOk;
  }

  /** A receipt that is shown after the send settles the run as well. */
  lemma SecondReceiptSettles(
    w: World, p: Pid, purpose: Purpose, a: Attempt, o0: seq<Turn>, o1: seq<Turn>, c1: Choice)
    requires Reachable(w) && At(w, p) == Recovering(purpose, SecondLookup(a)) && w.core.db.pending.Some?
    requires Aside(o0, p) && Aside(o1, p) && !c1.Fault?
    requires var net := Run(w, o0).core.net; Reaches(net, a.swap.rpcUrl, SlotTx(w)) && SlotTx(w) in net.receipts
    ensures var finding, done := Run(Then(w, o0, p, Shown), o1), Then(Then(w, o0, p, Shown), o1, p, c1);
            var receipt, run := Run(w, o0).core.net.receipts[SlotTx(w)], w.core.db.pending.value.run;
            && run < |w.core.db.runs|
            && Completed(w.core.db, done.core.db, receipt.success, receipt.message, finding.core.clock)
            && At(done, p) == Recovering(purpose, Settled(Some(
                 Result(w.core.db.runs[run].ruleId, if receipt.success then Submitted else Failed,
                        done.core.db.runs[run].reason))))
  {
    SecondKnows(w, p, purpose, a);
    hide Inv, Reachable, Run, Next, HolderNext, Working, At, Consumed, Completed, Reaches;
    RecoveringWorks(purpose, SecondLookup(a));
    var c := Run(w, o0).core;
    LooksAgain(c, purpose, a, Shown);
    Now(w);
    Steps(w, w, o0, p, Shown, Recovering(purpose, Finishing(a, c.net.receipts[SlotTx(w)])));
    RecordedNow(w, Then(w, o0, p, Shown), p, purpose, a, c.net.receipts[SlotTx(w)], o1, c1);
  }

  lemma Now(w: World)
    ensures Meanwhile(w, w)
  {
  }

  lemma RecordedNow(
    w: World, w1: World, p: Pid, purpose: Purpose, a: Attempt, receipt: Receipt, o: seq<Turn>, c: Choice)
    requires w.core.db.pending.Some? && a.execution.run == w.core.db.pending.value.run < |w.core.db.runs|
    requires a.execution.ruleId == w.core.db.runs[a.execution.run].ruleId
    requires Inv(w1) && Meanwhile(w, w1) && At(w1, p) == Recovering(purpose, Finishing(a, receipt))
    requires Aside(o, p) && !c.Fault?
    ensures var done := Then(w1, o, p, c);
            && Completed(w.core.db, done.core.db, receipt.success, receipt.message, Run(w1, o).core.clock)
            && done.core.net.live == w.core.net.live
            && a.execution.run < |done.core.db.runs|
            && At(done, p) == Recovering(purpose, Settled(Some(
                 Result(a.execution.ruleId, if receipt.success then Submitted else Failed,
                        done.core.db.runs[a.execution.run].reason))))
  {
    hide Inv, Run, Next, HolderNext, Working, At, Consumed, Completed;
    RecoveringWorks(purpose, Finishing(a, receipt));
    Lasts(w, w1, o, p);
    Moves(w1, o, p, c);
    Records(Run(w1, o).core, purpose, a, receipt, c);
    SameSlot(w.core.db, Run(w1, o).core.db, Then(w1, o, p, c).core.db);
    RunsStay(w.core.db, Then(w1, o, p, c).core.db, receipt.success, receipt.message, Run(w1, o).core.clock);
  }

  lemma RunsStay(db: Db, db': Db, success: bool, message: Option<string>, now: int)
    requires db.pending.Some? && db.pending.value.run < |db.runs| && Completed(db, db', success, message, now)
    ensures |db'.runs| == |db.runs|
  {
  }

  /** Without a receipt after the send the run stays pending for a later recovery. */
  lemma UnseenStaysPending(w: World, p: Pid, purpose: Purpose, a: Attempt, o: seq<Turn>)
    requires Reachable(w) && At(w, p) == Recovering(purpose, SecondLookup(a)) && w.core.db.pending.Some?
    requires Aside(o, p) && Reaches(Run(w, o).core.net, a.swap.rpcUrl, SlotTx(w))
    ensures Meanwhile(w, Then(w, o, p, NotShown))
    ensures At(Then(w, o, p, NotShown), p)
            == Recovering(purpose, Settled(Some(Result(a.execution.ruleId, Pending, "submission_pending"))))
  {
    SecondKnows(w, p, purpose, a);
    hide Inv, Reachable, Run, Next, HolderNext, Working, At, Consumed, Reaches;
    RecoveringWorks(purpose, SecondLookup(a));
    LooksAgain(Run(w, o).core, purpose, a, NotShown);
    Now(w);
    Steps(w, w, o, p, NotShown,
          Recovering(purpose, Settled(Some(Result(a.execution.ruleId, Pending, "submission_pending")))));
  }

  // ---------- when something is raised ----------

  /** The steps of a reconciliation that end it by raising. */
  predicate Breakable(r: Recovery) {
    || r.NonceCheck? || r.Releasing? || r.Marking? || r.Sending? || r.Rejecting? || r.SecondLookup? || r.Finishing?
  }

  /** Reading the nonce, sending and looking again also raise when the endpoint is not on the original chain. */
  predicate Raises(net: Net, r: Recovery, choice: Choice)
    requires Breakable(r)
  {
    choice.Fault? || ((r.NonceCheck? || r.Sending? || r.SecondLookup?) && !Reaches(net, r.a.swap.rpcUrl, r.a.swap.tx))
  }

  /** Nothing but an error note on the pending run, while it has the slot. */
  ghost predicate OnlyNoted(db: Db, db': Db, run: nat, error: string) {
    && |db'.runs| == |db.runs|
    && db' == db.(cursors := db'.cursors, runs := db'.runs)
    && (forall i :: 0 <= i < |db.runs| && i != run ==> db'.runs[i] == db.runs[i])
    && (run < |db.runs| && db.pending.Some? && db.pending.value.run == run ==>
          db'.runs[run] == db.runs[run].(details := db.runs[run].details.(recoveryError := Some(error))))
  }

  lemma Breaks(c: Core, purpose: Purpose, r: Recovery, choice: Choice)
    requires Breakable(r) && Raises(c.net, r, choice)
    ensures HolderNext(c, Recovering(purpose, r), choice)
            == Effect(c, Recovering(purpose, Noting(r.a, Raised(choice))), Quiet)
  {
  }

  lemma Notes(c: Core, purpose: Purpose, a: Attempt, error: string, choice: Choice)
    ensures var e := HolderNext(c, Recovering(purpose, Noting(a, error)), choice);
            && OnlyNoted(c.db, e.core.db, a.execution.run, error)
            && e.core.net == c.net
            && e.event == Quiet
            && e.pc == Recovering(purpose, Settled(Some(Result(a.execution.ruleId, Pending, "submission_pending"))))
  {
  }

  /** An exception leaves the run pending with a note of it, and nothing else. */
  lemma FaultIsNoted(
    w: World, p: Pid, purpose: Purpose, r: Recovery, o0: seq<Turn>, o1: seq<Turn>, c0: Choice, c1: Choice)
    requires Reachable(w) && At(w, p) == Recovering(purpose, r) && Breakable(r) && Aside(o0, p) && Aside(o1, p)
    requires Raises(Run(w, o0).core.net, r, c0)
    ensures var done := Then(Then(w, o0, p, c0), o1, p, c1);
            && OnlyNoted(w.core.db, done.core.db, r.a.execution.run, Raised(c0))
            && done.core.net.live == w.core.net.live
            && At(done, p)
               == Recovering(purpose, Settled(Some(Result(r.a.execution.ruleId, Pending, "submission_pending"))))
  {
    hide Inv, Reachable, Run, Next, HolderNext, Working, At, Consumed, Reaches, Raised, Raises;
    ReachableIsSafe(w);
    RecoveringWorks(purpose, r);
    Breaks(Run(w, o0).core, purpose, r, c0);
    Now(w);
    var w1 := Then(w, o0, p, c0);
    Steps(w, w, o0, p, c0, Recovering(purpose, Noting(r.a, Raised(c0))));
    RecoveringWorks(purpose, Noting(r.a, Raised(c0)));
    Lasts(w, w1, o1, p);
    Moves(w1, o1, p, c1);
    Notes(Run(w1, o1).core, purpose, r.a, Raised(c0), c1);
  }

  lemma FailsToOpen(c: Core, purpose: Purpose, allow: bool, rpc: Option<string>, error: string)
    requires c.db.pending.Some? && c.db.pending.value.run < |c.db.runs|
    ensures HolderNext(c, Recovering(purpose, Loading(allow, rpc)), Fault(error))
            == Effect(c, Recovering(purpose, Noting(AttemptOn(c.db, allow, rpc), error)), Quiet)
  {
  }

  /** So does a transport that cannot be opened. */
  lemma OpeningIsNoted(
    w: World, p: Pid, purpose: Purpose, allow: bool, rpc: Option<string>, attempted: bool,
    o0: seq<Turn>, o1: seq<Turn>, error: string, c1: Choice)
    requires Begins(w, p, purpose, allow, rpc, attempted) && Aside(o0, p) && Aside(o1, p)
    ensures var done, run := Then(Then(w, o0, p, Fault(error)), o1, p, c1), w.core.db.pending.value.run;
            && run < |w.core.db.runs|
            && OnlyNoted(w.core.db, done.core.db, run, error)
            && done.core.net.live == w.core.net.live
            && At(done, p)
               == Recovering(purpose, Settled(Some(Result(w.core.db.runs[run].ruleId, Pending, "submission_pending"))))
  {
    hide Inv, Reachable, Run, Next, HolderNext, Working, At, Consumed;
    ReachableIsSafe(w);
    PendingIsOpen(w);
    var a := AttemptOn(w.core.db, allow, rpc);
    RecoveringWorks(purpose, Loading(allow, rpc));
    Now(w);
    Lasts(w, w, o0, p);
    FailsToOpen(Run(w, o0).core, purpose, allow, rpc, error);
    var w1 := Then(w, o0, p, Fault(error));
    Steps(w, w, o0, p, Fault(error), Recovering(purpose, Noting(a, error)));
    RecoveringWorks(purpose, Noting(a, error));
    Lasts(w, w1, o1, p);
    Moves(w1, o1, p, c1);
    Notes(Run(w1, o1).core, purpose, a, error, c1);
  }

  /** Without a pending execution there is nothing to recover. */
  lemma NothingPending(
    w: World, p: Pid, purpose: Purpose, allow: bool, rpc: Option<string>, o: seq<Turn>, c: Choice)
    requires Reachable(w) && At(w, p) == Recovering(purpose, Loading(allow, rpc)) && w.core.db.pending.None?
    requires Aside(o, p)
    ensures Meanwhile(w, Then(w, o, p, c)) && At(Then(w, o, p, c), p) == Recovering(purpose, Settled(None))
  {
    hide Inv, Reachable, Run, Next, HolderNext, Working, At, Consumed;
    ReachableIsSafe(w);
    RecoveringWorks(purpose, Loading(allow, rpc));
    Now(w);
    Lasts(w, w, o, p);
    FindsNothing(Run(w, o).core, purpose, allow, rpc, c);
    Steps(w, w, o, p, c, Recovering(purpose, Settled(None)));
  }

  lemma FindsNothing(c: Core, purpose: Purpose, allow: bool, rpc: Option<string>, choice: Choice)
    requires c.db.pending.None?
    ensures HolderNext(c, Recovering(purpose, Loading(allow, rpc)), choice)
            == Effect(c, Recovering(purpose, Settled(None)), Quiet)
  {
  }

  // ---------- a held rule ----------

  /** The held run got its outcome and is free; its rule starts over, with this as its last action. */
  ghost predicate Freed(db: Db, db': Db, run: nat, success: bool, message: Option<string>, now: int) {
    && run < |db.runs|
    && OthersStay(db, db', run)
    && db'.pending == db.pending
    && db'.uncertain == db.uncertain - {run}
    && db'.ruleState == db.ruleState[db.runs[run].ruleId := RuleRuntimeState(None, Some(now))]
    && db'.runs[run].reason == "receipt_recovered"
    && (if success then db'.runs[run].status == Submitted
        else
          && db'.runs[run].status == Failed
          && db'.runs[run].details.error.Some?
          && (message.GetOr("") != "" ==> db'.runs[run].details.error == message))
  }

  /** The rule that is next has this run on hold. */
  ghost predicate Holds(w: World, p: Pid, pass: Pass, run: nat) {
    && Reachable(w)
    && At(w, p) == NextRule(pass)
    && pass.rules != []
    && run in w.core.db.uncertain
    && run < |w.core.db.runs|
    && w.core.db.runs[run].ruleId == pass.rules[0].id
  }

  lemma OnlyHeld(w: World, pass: Pass, run: nat)
    requires Inv(w) && pass.rules != [] && run in w.core.db.uncertain && run < |w.core.db.runs|
    requires w.core.db.runs[run].ruleId == pass.rules[0].id
    ensures UncertainFrom(w.core.db, pass.rules[0].id, 0) == Some(run)
  {
    InvParts(w);
    OnlyHeldRun(w.core.db, pass.rules[0].id, run);
  }

  lemma OnlyHeldRun(db: Db, ruleId: string, run: nat)
    requires JournalOk(db) && run in db.uncertain && run < |db.runs| && db.runs[run].ruleId == ruleId
    ensures UncertainFrom(db, ruleId, 0) == Some(run)
  {
    var found := UncertainFrom(db, ruleId, 0);
    if found.Some? && found.value != run {
      var i, j := if found.value < run then found.value else run, if found.value < run then run else found.value;
      assert Unresolved(db.runs[i]) && Unresolved(db.runs[j]);
    }
  }

  lemma FindsHeld(c: Core, pass: Pass, run: nat, choice: Choice)
    requires pass.rules != [] && UncertainFrom(c.db, pass.rules[0].id, 0) == Some(run)
    ensures HolderNext(c, NextRule(pass), choice) == Effect(c, HeldLookup(pass, run), Quiet)
  {
  }

  lemma LooksForHeld(c: Core, pass: Pass, run: nat, choice: Choice)
    requires pass.rules != [] && run in c.db.uncertain
    ensures var swap := c.db.uncertain[run];
            var seen := choice == Shown && Reaches(c.net, swap.rpcUrl, swap.tx) && swap.tx in c.net.receipts;
            HolderNext(c, HeldLookup(pass, run), choice)
            == Effect(c, if seen then Resolving(pass, run, c.net.receipts[swap.tx])
                         else NextRule(pass.(rules := pass.rules[1..])), Quiet)
  {
  }

  lemma Resolves(c: Core, pass: Pass, run: nat, receipt: Receipt, choice: Choice)
    requires pass.rules != [] && run in c.db.uncertain && run < |c.db.runs|
    ensures var e := HolderNext(c, Resolving(pass, run, receipt), choice);
            if choice.Fault? then e == Effect(c, NextRule(pass.(rules := pass.rules[1..])), Quiet)
            else
              && Freed(c.db, e.core.db, run, receipt.success, receipt.message, c.clock)
              && e.pc == Deciding(pass)
  {
  }

  lemma SameHeld(db: Db, db1: Db, db': Db, run: nat, success: bool, message: Option<string>, now: int)
    requires db1 == db.(cursors := db1.cursors) && Freed(db1, db', run, success, message, now)
    ensures Freed(db, db', run, success, message, now)
  {
  }

  lemma UncertainStays(db: Db, db1: Db, ruleId: string)
    requires db1 == db.(cursors := db1.cursors)
    ensures UncertainFrom(db1, ruleId, 0) == UncertainFrom(db, ruleId, 0)
  {
    SameFrom(db, db1, ruleId, 0);
  }

  lemma {:induction false} SameFrom(db: Db, db1: Db, ruleId: string, from: nat)
    requires db1 == db.(cursors := db1.cursors)
    ensures UncertainFrom(db1, ruleId, from) == UncertainFrom(db, ruleId, from)
    decreases |db.runs| - from
  {
    if from < |db.runs| {
      SameFrom(db, db1, ruleId, from + 1);
    }
  }

  /** A held rule is looked up before anything else is done for it. */
  lemma HeldIsLookedUp(w: World, p: Pid, pass: Pass, run: nat, o: seq<Turn>, c: Choice)
    requires Holds(w, p, pass, run) && Aside(o, p)
    ensures Inv(w) && run < |w.core.db.runs|
    ensures var w1 := Then(w, o, p, c); Inv(w1) && Meanwhile(w, w1) && At(w1, p) == HeldLookup(pass, run)
  {
    hide Inv, Reachable, Run, Next, HolderNext, At, Consumed, UncertainFrom;
    ReachableIsSafe(w);
    OnlyHeld(w, pass, run);
    Now(w);
    Lasts(w, w, o, p);
    UncertainStays(w.core.db, Run(w, o).core.db, pass.rules[0].id);
    FindsHeld(Run(w, o).core, pass, run, c);
    Steps(w, w, o, p, c, HeldLookup(pass, run));
  }

  /** A held rule whose receipt is shown is free: its run is settled by the receipt and the rule is decided anew. */
  lemma HeldReceiptFrees(
    w: World, p: Pid, pass: Pass, run: nat, o0: seq<Turn>, o1: seq<Turn>, o2: seq<Turn>, c0: Choice, c2: Choice)
    requires Holds(w, p, pass, run) && Aside(o0, p) && Aside(o1, p) && Aside(o2, p) && !c2.Fault?
    requires var net, swap := Run(Then(w, o0, p, c0), o1).core.net, w.core.db.uncertain[run];
             Reaches(net, swap.rpcUrl, swap.tx) && swap.tx in net.receipts
    ensures var looking := Run(Then(w, o0, p, c0), o1);
            var w2 := Then(Then(w, o0, p, c0), o1, p, Shown);
            var done, receipt := Then(w2, o2, p, c2), looking.core.net.receipts[w.core.db.uncertain[run].tx];
            && Freed(w.core.db, done.core.db, run, receipt.success, receipt.message, Run(w2, o2).core.clock)
            && At(done, p) == Deciding(pass)
  {
    HeldIsLookedUp(w, p, pass, run, o0, c0);
    hide Inv, Reachable, Run, Next, HolderNext, At, Consumed, Freed, Reaches;
    var w1 := Then(w, o0, p, c0);
    Lasts(w, w1, o1, p);
    LooksForHeld(Run(w1, o1).core, pass, run, Shown);
    var receipt := Run(w1, o1).core.net.receipts[w.core.db.uncertain[run].tx];
    Steps(w, w1, o1, p, Shown, Resolving(pass, run, receipt));
    FreedNow(w, Then(w1, o1, p, Shown), p, pass, run, receipt, o2, c2);
  }

  lemma FreedNow(w: World, w1: World, p: Pid, pass: Pass, run: nat, receipt: Receipt, o: seq<Turn>, c: Choice)
    requires Inv(w1) && Meanwhile(w, w1) && At(w1, p) == Resolving(pass, run, receipt) && pass.rules != []
    requires run in w.core.db.uncertain && run < |w.core.db.runs| && Aside(o, p) && !c.Fault?
    ensures Freed(w.core.db, Then(w1, o, p, c).core.db, run, receipt.success, receipt.message, Run(w1, o).core.clock)
    ensures At(Then(w1, o, p, c), p) == Deciding(pass)
  {
    hide Inv, Run, Next, HolderNext, At, Consumed, Freed;
    Lasts(w, w1, o, p);
    Moves(w1, o, p, c);
    Resolves(Run(w1, o).core, pass, run, receipt, c);
    SameHeld(w.core.db, Run(w1, o).core.db, Then(w1, o, p, c).core.db, run, receipt.success, receipt.message,
             Run(w1, o).core.clock);
  }

  /** A held rule whose receipt is not shown is passed over and stays held. */
  lemma UnseenStaysHeld(
    w: World, p: Pid, pass: Pass, run: nat, o0: seq<Turn>, o1: seq<Turn>, c0: Choice, c1: Choice)
    requires Holds(w, p, pass, run) && Aside(o0, p) && Aside(o1, p)
    requires var swap := w.core.db.uncertain[run];
             Unseen(Run(Then(w, o0, p, c0), o1).core.net, swap.rpcUrl, swap.tx, c1)
    ensures var done := Then(Then(w, o0, p, c0), o1, p, c1);
            Meanwhile(w, done) && At(done, p) == NextRule(pass.(rules := pass.rules[1..]))
  {
    HeldIsLookedUp(w, p, pass, run, o0, c0);
    hide Inv, Reachable, Run, Next, HolderNext, At, Consumed, Reaches;
    var w1 := Then(w, o0, p, c0);
    Lasts(w, w1, o1, p);
    LooksForHeld(Run(w1, o1).core, pass, run, c1);
    Steps(w, w1, o1, p, c1, NextRule(pass.(rules := pass.rules[1..])));
  }

  // ---------- a drain ----------

  /**
   A drain tries the endpoint the run was signed on last; before it the target's own, exactly if that is
   another one and the target does not name another chain than the transaction's.
   */
  lemma DrainEndpoints(db: Db, target: AutomationConfig)
    requires db.pending.Some?
    ensures var urls, swap := DrainUrls(db, target), db.pending.value.swap;
            && 1 <= |urls| <= 2
            && urls[|urls| - 1] == swap.rpcUrl
            && (|urls| == 2 <==>
                  && target.network.rpcUrl != swap.rpcUrl
                  && (target.network.chainId.Some? ==> target.network.chainId.value == swap.tx.account.chain))
            && (|urls| == 2 ==> urls[0] == target.network.rpcUrl)
  {
  }

  /** Endpoint by endpoint: a recovery that leaves the slot taken is followed by one on the next. */
  lemma DrainGoesOn(c: Core, target: AutomationConfig, urls: seq<string>, result: Option<Result>, choice: Choice)
    ensures HolderNext(c, DrainStart(target), choice)
            == Effect(c, if c.db.pending.None? then Publishing(target) else Draining(target, DrainUrls(c.db, target)),
                      Quiet)
    ensures urls != [] ==>
              HolderNext(c, Draining(target, urls), choice)
              == Effect(c, Recovering(Drain(target, urls[1..]), Loading(target.wallet.execute, Some(urls[0]))), Quiet)
    ensures HolderNext(c, Recovering(Drain(target, urls), Settled(result)), choice)
            == Effect(c, if c.db.pending.None? then Publishing(target) else Draining(target, urls), Quiet)
  {
    hide DrainUrls;
  }

  // ---------- what was just signed ----------

  /** A reconciliation after signing finds its run, and so it has a result. */
  predicate Signed(db: Db, pc: Pc) {
    pc.Recovering? && pc.purpose.AfterSigning? ==>
      && (pc.recovery.Loading? ==> db.pending.Some?)
      && (pc.recovery.Settled? ==> pc.recovery.result.Some?)
  }

  ghost predicate HolderSigned(w: World) {
    w.exec.Some? ==> Signed(w.core.db, At(w, w.exec.value))
  }

  lemma RecoverySigned(c: Core, r: Recovery, choice: Choice, policy: Policy)
    requires !r.Settled? && JournalOk(c.db) && (r.Loading? ==> c.db.pending.Some?)
    ensures var e := RecoveryNext(c, r, choice, policy);
            !e.recovery.Loading? && (e.recovery.Settled? ==> e.recovery.result.Some?)
  {
  }

  lemma WorkSigned(c: Core, pc: Pc, choice: Choice)
    requires Working(pc) && JournalOk(c.db) && Signed(c.db, pc)
    ensures Signed(HolderNext(c, pc, choice).core.db, HolderNext(c, pc, choice).pc)
  {
    hide RecoveryNext, Decide, Prepare, LeastOut, UncertainFrom, ConfigurationChanged, DrainUrls, JournalOk;
    if pc.Recovering? && !pc.recovery.Settled? && pc.purpose.AfterSigning? {
      RecoverySigned(c, pc.recovery, choice, PolicyOf(pc.purpose));
    }
  }

  /** Whoever holds the execution lock after a turn of somebody not at work held it before, or has just taken it. */
  lemma StillSigned(w: World, t: Turn)
    requires HolderSigned(w) && (t.Act? ==> !Working(At(w, t.pid)))
    ensures HolderSigned(Next(w, t))
  {
    hide HolderNext;
  }

  lemma NextSigned(w: World, t: Turn)
    requires Inv(w) && HolderSigned(w)
    ensures HolderSigned(Next(w, t))
  {
    if t.Act? && Working(At(w, t.pid)) {
      hide *;
      InvParts(w);
      TakesPart(w);
      WorkLocks(w, t.pid, t.choice);
      HeldSigned(w, t.pid);
      WorkSigned(w.core, At(w, t.pid), t.choice);
      NowSigned(w, t.pid, t.choice);
    } else {
      StillSigned(w, t);
    }
  }

  lemma TakesPart(w: World)
    requires CoreOk(w.core, w.log)
    ensures JournalOk(w.core.db)
  {
    hide JournalOk;
  }

  lemma HeldSigned(w: World, p: Pid)
    requires HolderSigned(w) && w.exec == Some(p)
    ensures Signed(w.core.db, At(w, p))
  {
  }

  lemma NowSigned(w: World, p: Pid, choice: Choice)
    requires Working(At(w, p)) && w.exec == Some(p)
    requires var e := HolderNext(w.core, At(w, p), choice); Signed(e.core.db, e.pc)
    ensures HolderSigned(Next(w, Act(p, choice)))
  {
    hide HolderNext, Working, Signed;
  }

  lemma {:induction false} RunSigned(w: World, turns: seq<Turn>)
    requires Init(w)
    ensures Inv(Run(w, turns)) && HolderSigned(Run(w, turns))
    decreases |turns|
  {
    Safe(w, turns);
    if turns != [] {
      hide Inv, Next, HolderSigned, Init;
      RunSigned(w, turns[..|turns| - 1]);
      NextSigned(Run(w, turns[..|turns| - 1]), turns[|turns| - 1]);
    }
  }

  /** After signing there is always a result: the journaled run is there to be reconciled. */
  lemma SigningHasResult(w: World, p: Pid, pass: Pass, result: Option<Result>)
    requires Reachable(w) && At(w, p) == Recovering(AfterSigning(pass), Settled(result))
    ensures result.Some?
  {
    var start, turns :| Init(start) && w == Run(start, turns);
    hide Init, Run, Inv;
    RunSigned(start, turns);
    InvParts(w);
    RecoveringWorks(AfterSigning(pass), Settled(result));
    WorkLocks(w, p, Proceed);
    hide LocksOk, CoreOk, HolderOk;
  }
}
