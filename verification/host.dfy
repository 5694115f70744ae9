/**
 The running machine: the store, the two file locks, the chains and the other processes.  Its methods
 are the program's own operations for one process `me`; `Valid` says that everything that happened
 so far, with whatever the others did in between, is an execution of `Protocol`.
 */
module Host {
  import opened Wrappers
  import opened Config
  import opened Network
  import opened Submission
  import opened Dex
  import opened Rules
  import opened Tables
  import opened Storage
  import opened Protocol
  import opened Deeds
  import opened History
  import opened Invariant
  import opened Runs
  import opened Theorems
  import opened Recoveries
  import QuoteLaws

  /**
   One element of an evaluation's result list: a rule's own result, the result of the recovery that
   precedes the rules, or the reason nothing was evaluated.  No status means `skipped`.
   */
  datatype Entry =
    | OfRule(status: Option<Status>, reason: string)
    | OfRecovery(status: Option<Status>, reason: string)
    | Refusal(status: Option<Status>, reason: string)
  {
    predicate IsPending() {
      status == Some(Pending)
    }

    /** `_execution_blocked` */
    predicate IsBlocked() {
      IsPending() || reason == "execution_busy" || reason == "configuration_draining"
    }
  }

  /** After `head` recovery results come rule results; only the last may be pending, and then as its own submission. */
  predicate Evaluated(entries: seq<Entry>, head: nat) {
    && head <= 1
    && forall i :: 0 <= i < |entries| ==>
         && (if i < head then entries[i].OfRecovery? else entries[i].OfRule?)
         && (entries[i].IsPending() ==> i == |entries| - 1 && i >= head)
         && OwnReason(entries[i])
  }

  /** A rule reports a pending submission as its own, and never a reason that blocks. */
  predicate OwnReason(entry: Entry) {
    if entry.IsPending() then entry.reason == "submission_pending"
    else !entry.IsBlocked() && entry.reason != "submission_pending" && entry.reason != "configuration_changed"
  }

  predicate RuleReason(reason: string) {
    reason in {"rule_outcome_unknown", "invalid_reserves", "baseline_initialized", "invalid_baseline",
               "threshold_not_reached", "cooldown_active", PRICE_MOVE, "quote_failed", "submission_failed"}
  }

  const REFUSALS := {Refusal(None, "configuration_draining"), Refusal(None, "execution_busy"),
                     Refusal(None, "configuration_changed"), Refusal(Some(Pending), "recovery_pending")}

  /** Either nothing was evaluated, for one reason, or at most `rules` rules were. */
  predicate PassShape(entries: seq<Entry>, rules: nat) {
    || (|entries| == 1 && entries[0] in REFUSALS)
    || exists head :: 0 <= head <= |entries| && |entries| - head <= rules && Evaluated(entries, head)
  }

  predicate IsRefused(entries: seq<Entry>) {
    |entries| == 1 && entries[0].Refusal?
  }

  /**
   A refusal did nothing; otherwise the pass got through its pair, visiting all of its rules, or ended on
   a submission of its own.
   */
  ghost predicate PassEnd(entries: seq<Entry>, deeds: seq<Deed>, session: Session) {
    if IsRefused(entries) then deeds == []
    else if LeftPending(entries) then UpToSigned(deeds, Matching(session))
    else Through(deeds, Matching(session), session)
  }

  predicate LeftPending(entries: seq<Entry>) {
    exists entry :: entry in entries && entry.reason == "submission_pending"
  }

  /** Everything journaled in the first log has left the slot in the second. */
  ghost predicate Closes(before: Log, after: Log) {
    forall e :: e in before && e.Journaled? ==> Closed(after, e.run)
  }

  /** The machine before anything has happened. */
  function Deployed(db: Db, net: Net, clock: int): World {
    World(Core(db, net, clock), None, Shared({}), map[],
          [if db.row.Some? then Published(db.row.value, None) else Quiet])
  }

  datatype UpdateOutcome = Done | Busy | Failure | Cancelled

  /** A direct swap pays whom the configuration says, and every swap is signed for the configured chain. */
  predicate AsTold(pass: Pass, tx: Tx) {
    var config := pass.session.config;
    && config.network.chainId in {None, Some(tx.account.chain)}
    && (config.custody.DirectWallet? && pass.rules != [] ==>
          && tx.call.RouterSwap?
          && tx.call.contract == config.dex.routerContract
          && tx.call.to == QuoteLaws.Payee(pass.rules[0].action, config.wallet, tx.account.sender))
  }

  // ---------- what the outside answers ----------

  /** The outside's answer at a step: what a node returns to a nonce read or a broadcast, or anything else. */
  datatype Answer =
    | Plain(choice: Choice)
    | Stored(value: StateValue)
    | Checked(answer: CheckTx, txHash: string)

  /** The message of an answer that is none. */
  function Complaint(answer: Answer): string {
    match answer
    case Plain(choice) => Raised(choice)
    case _ => "unexpected answer"
  }

  /** What the committed nonce is read as. */
  function ReadNonce(net: Net, tx: Tx, answer: Answer): Choice {
    match answer
    case Stored(value) =>
      if Seen(net, tx.account, value) && NonceAnswer(value, tx.nonce).Some?
      then NonceIs(NonceAnswer(value, tx.nonce).value)
      else Fault("malformed nonce")
    case _ => Fault(Complaint(answer))
  }

  /** What the answer to a broadcast is read as; a connection that is lost leaves it unclear. */
  function ReadReply(answer: Answer): Choice {
    match answer
    case Checked(checked, txHash) => Answered(Classify(checked, txHash))
    case Plain(Answered(Unclear(error))) => Answered(Unclear(error))
    case _ => Fault(Complaint(answer))
  }

  /** What a process makes of the answer at the step it is about to take. */
  function Read(w: World, p: Pid, answer: Answer): Choice {
    match At(w, p)
    case Recovering(_, NonceCheck(a)) => ReadNonce(w.core.net, a.swap.tx, answer)
    case Recovering(_, Sending(_)) => ReadReply(answer)
    case _ => if answer.Plain? then answer.choice else Fault(Complaint(answer))
  }

  /**
   The step follows the answer.  Which configuration a publication is compared with is the manager's own
   matter; only whether its commit raises is answered.
   */
  predicate Heeds(w: World, p: Pid, answer: Answer, choice: Choice) {
    if At(w, p).Publishing? then
      if answer.Plain? && answer.choice.Fault? then choice == answer.choice else choice.Replacing?
    else choice == Read(w, p, answer)
  }

  /** The answer at this point is one the process cannot go on from: a failure, or no snapshot of its pair. */
  predicate Unfit(w: World, p: Pid, answer: Answer) {
    var choice := Read(w, p, answer);
    || choice.Fault?
    || (At(w, p).Observing?
        && !(choice.Snapshot? && choice.snapshot.pairId == At(w, p).session.pairId))
  }

  /** The execution was in this state between the two logs. */
  ghost predicate Witnessed(before: Log, after: Log, w: World) {
    Reachable(w) && before <= w.log <= after
  }

  ghost predicate Met(before: Log, after: Log, w: World, p: Pid, tape: nat -> Answer) {
    Witnessed(before, after, w) && Unfit(w, p, tape(|w.log|))
  }

  /** Why nothing is evaluated or recovered: something else is under way, or a swap is still pending. */
  predicate Occupied(w: World, reason: string) {
    || (reason == "configuration_draining" && !w.gate.Shared?)
    || (reason == "execution_busy" && w.exec.Some?)
    || (reason in {"recovery_pending", "submission_pending"} && w.core.db.pending.Some?)
  }

  /** The same for an evaluation, which also needs its session still to be that of the stored configuration. */
  ghost predicate Justifies(w: World, session: Session, reason: string) {
    Occupied(w, reason) || (reason == "configuration_changed" && !Bound(w.core.db, session))
  }

  lemma Within(before: Log, before': Log, after': Log, after: Log, w: World, p: Pid, tape: nat -> Answer)
    requires before <= before' && after' <= after
    ensures Witnessed(before', after', w) ==> Witnessed(before, after, w)
    ensures Met(before', after', w, p, tape) ==> Met(before, after, w, p, tape)
  {
    hide Reachable, Unfit;
  }

  lemma Arrives(start: World, turns: seq<Turn>)
    requires Init(start)
    ensures Reachable(Run(start, turns))
  {
    hide Init, Run;
  }

  /** Every step `p` took under the execution lock followed the answer of its time. */
  ghost predicate Obeys(start: World, turns: seq<Turn>, p: Pid, tape: nat -> Answer)
    decreases |turns|
  {
    turns == [] ||
    (var before, last := turns[..|turns| - 1], turns[|turns| - 1];
     && Obeys(start, before, p, tape)
     && var w := Run(start, before);
     && (last.Act? && last.pid == p && Working(At(w, p)) ==> Heeds(w, p, tape(|w.log|), last.choice)))
  }

  lemma ObeysMore(start: World, turns: seq<Turn>, t: Turn, p: Pid, tape: nat -> Answer)
    requires Obeys(start, turns, p, tape)
    requires t.Act? && t.pid == p && Working(At(Run(start, turns), p)) ==>
               Heeds(Run(start, turns), p, tape(|Run(start, turns).log|), t.choice)
    ensures Obeys(start, turns + [t], p, tape)
  {
    hide Run, Working, Heeds, At;
    assert (turns + [t])[..|turns + [t]| - 1] == turns;
  }

  class Host {
    const me: Pid
    const tape: nat -> Answer
    const store: AutomationStore
    var net: Net
    var clock: int
    var exec: Option<Pid>
    var gate: Gate
    var procs: map<Pid, Pc>
    var log: Log
    ghost var start: World
    ghost var turns: seq<Turn>

    function State(): Core
      reads this, store
    {
      Core(store.Contents(), net, clock)
    }

    function Now(): World
      reads this, store
    {
      World(State(), exec, gate, procs, log)
    }

    /** What happened so far is an execution of the protocol, in which `me` followed what it was answered. */
    ghost predicate Valid()
      reads this, store
    {
      Init(start) && Now() == Run(start, turns) && Obeys(start, turns, me, tape)
    }

    /** What the outside answers at this point of the execution, as `me` reads it. */
    function Heard(w: World): Choice {
      Read(w, me, tape(|w.log|))
    }

    /** What `me` has done in it. */
    ghost function Did(): seq<Deed>
      reads this`start, this`turns
    {
      DeedsOf(start, turns, me)
    }

    ghost function Counter(): Pc
      reads this
    {
      if me in procs then procs[me] else Idle
    }

    constructor (me: Pid, tape: nat -> Answer, db: Db, net: Net, clock: int)
      requires Init(Deployed(db, net, clock))
      ensures Valid() && Now() == Deployed(db, net, clock)
      ensures this.me == me && this.tape == tape && fresh(store)
    {
      this.me, this.tape := me, tape;
      store := new AutomationStore(db);
      this.net := net;
      this.clock := clock;
      exec := None;
      gate := Shared({});
      procs := map[];
      log := Deployed(db, net, clock).log;
      start := Deployed(db, net, clock);
      turns := [];
    }

    // ---------- turns ----------

    /** A turn that is no deed of `me`. */
    method Perform(t: Turn)
      requires Valid() && DeedOf(Now(), t, me) == [] && !(t.Act? && t.pid == me)
      modifies this, store
      ensures Valid() && Now() == Next(old(Now()), t)
      ensures start == old(start) && turns == old(turns) + [t] && old(log) <= log && Did() == old(Did())
    {
      hide Run, Init, Next, DeedsOf, DeedOf, Obeys;
      var w := Next(Now(), t);
      ObeysMore(start, turns, t, me, tape);
      LogGrows(Now(), t);
      store.Restore(w.core.db);
      net, clock, exec, gate, procs, log := w.core.net, w.core.clock, w.exec, w.gate, w.procs, w.log;
      turns := turns + [t];
      RunMore(start, old(turns), t);
      DeedsMore(start, old(turns), t, me);
    }

    /** Any number of turns by anybody else. */
    method Others()
      requires Valid()
      modifies this, store
      ensures Valid() && start == old(start) && old(turns) <= turns && old(log) <= log
      ensures Counter() == old(Counter()) && Did() == old(Did())
    {
      hide DeedsOf, DeedOf, Run, Init, Obeys;
      var n: nat := *;
      while n > 0
        invariant Valid() && start == old(start) && old(turns) <= turns && old(log) <= log
        invariant Counter() == old(Counter()) && Did() == old(Did())
      {
        var t: Turn := *;
        if Deeds.Foreign(t, me) {
          OthersTurn(Now(), t, me);
          NotMine(Now(), t, me);
          Perform(t);
        }
        n := n - 1;
      }
    }

    /** Records that the state change since `was` was a turn of `me`. */
    method Advance(choice: Choice, pc: Pc, was: World)
      requires Init(start) && was == Run(start, turns) && Obeys(start, turns, me, tape)
      requires Working(At(was, me)) && Heeds(was, me, tape(|was.log|), choice)
      requires var e := HolderNext(was.core, At(was, me), choice); e.pc == pc && e.core == State()
      requires exec == was.exec && gate == was.gate && procs == was.procs && log == was.log
      modifies this`procs, this`log, this`turns
      ensures Valid() && Counter() == pc && State() == old(State()) && old(turns) <= turns
      ensures log == old(log) + [HolderNext(was.core, At(was, me), choice).event]
      ensures Did() == old(Did()) + WorkDeed(At(was, me), HolderNext(was.core, At(was, me), choice))
    {
      hide Run, Init, HolderNext, DeedsOf, WorkDeed, Obeys, Heeds;
      var t := Act(me, choice);
      ObeysMore(start, turns, t, me, tape);
      log := log + [HolderNext(was.core, At(was, me), choice).event];
      procs := procs[me := pc];
      turns := turns + [t];
      RunMore(start, old(turns), t);
      DeedsMore(start, old(turns), t, me);
    }

    /** The same for a turn that only takes or gives back a lock. */
    method AdvanceLock(choice: Choice, pc: Pc, was: World)
      requires Init(start) && was == Run(start, turns) && Obeys(start, turns, me, tape)
      requires !Working(At(was, me))
      requires LockNext(was, me, choice) == Enter(was, me, pc).(exec := exec, gate := gate)
      requires State() == was.core && procs == was.procs && log == was.log
      modifies this`procs, this`log, this`turns
      ensures Valid() && Counter() == pc && old(turns) <= turns && log == old(log) + [Quiet]
      ensures Did() == old(Did())
    {
      hide Run, Init, LockNext, DeedsOf, Obeys;
      ObeysMore(start, turns, Act(me, choice), me, tape);
      log := log + [Quiet];
      procs := procs[me := pc];
      turns := turns + [Act(me, choice)];
      RunMore(start, old(turns), Act(me, choice));
      DeedsMore(start, old(turns), Act(me, choice), me);
    }

    // ---------- SwapTransport ----------

    /** A receipt lookup; `None` when it times out or raises. */
    method Lookup(swap: PreparedSwap, choice: Choice) returns (receipt: Option<Receipt>)
      ensures receipt == if choice.Shown? then ReceiptFor(net, swap) else None
    {
      receipt := if choice.Shown? then ReceiptFor(net, swap) else None;
    }

    /** The committed nonce against the saved one; `None` when the read raises. */
    method NonceConsumed(swap: PreparedSwap, answer: Answer) returns (consumed: Option<bool>)
      ensures consumed.Some? <==> OnChain(net, swap) && ReadNonce(net, swap.tx, answer).NonceIs?
      ensures consumed.Some? ==> ReadNonce(net, swap.tx, answer) == NonceIs(consumed.value)
      ensures consumed == Some(true) ==> Consumed(net, swap.tx)
    {
      if !OnChain(net, swap) || !answer.Stored? || !Seen(net, swap.tx.account, answer.value) {
        return None;
      }
      PositiveIsConsumed(net, swap.tx, answer.value);
      consumed := NonceAnswer(answer.value, swap.tx.nonce);
    }

    /** A send; `None` when the chain check or the connection fails before it. */
    method Broadcast(swap: PreparedSwap, first: bool, answer: Answer) returns (reply: Option<Reply>)
      modifies this`net
      ensures reply.Some? <==> OnChain(old(net), swap) && ReadReply(answer).Answered?
      ensures reply.Some? ==>
                ReadReply(answer) == Answered(reply.value) && net == Deliver(old(net), swap.tx, reply.value, first)
      ensures reply.None? ==> net == old(net)
    {
      if !OnChain(net, swap) || !ReadReply(answer).Answered? {
        return None;
      }
      reply := Some(ReadReply(answer).reply);
      net := Deliver(net, swap.tx, reply.value, first);
    }

    // ---------- the steps of a reconciliation ----------

    /** `Advance` within a reconciliation. */
    method Resettle(purpose: Purpose, r: Recovery, was: World)
      requires Init(start) && was == Run(start, turns) && Obeys(start, turns, me, tape)
      requires At(was, me).Recovering? && At(was, me).purpose == purpose && !At(was, me).recovery.Settled?
      requires var e := RecoveryNext(was.core, At(was, me).recovery, Heard(was), PolicyOf(purpose));
               e.recovery == r && e.core == State()
      requires exec == was.exec && gate == was.gate && procs == was.procs && log == was.log
      modifies this`procs, this`log, this`turns
      ensures Valid() && old(log) <= log && Did() == old(Did())
      ensures Counter() == Recovering(purpose, r) && State() == old(State()) && old(turns) <= turns
    {
      hide Run, Init, RecoveryNext, Did, DeedsOf, Obeys, Read;
      RecoveryIsNoDeed(was.core, purpose, At(was, me).recovery, Heard(was));
      Advance(Heard(was), Recovering(purpose, r), was);
    }

    method NoteError(purpose: Purpose, a: Attempt, error: string) returns (result: Option<Result>)
      requires Valid() && Counter() == Recovering(purpose, Noting(a, error))
      modifies this, store
      ensures Valid() && old(log) <= log && Did() == old(Did())
      ensures Counter() == Recovering(purpose, Settled(result))
      ensures result == Some(PendingResult(a.execution))
    {
      hide Run, HolderNext, Working, Init, Did, Obeys;
      Others();
      var was := Now();
      store.NoteExecutionError(a.execution.run, error);
      result := Some(PendingResult(a.execution));
      Resettle(purpose, Settled(result), was);
    }

    method FirstReceipt(purpose: Purpose, a: Attempt) returns (receipt: Option<Receipt>)
      requires Valid() && Counter() == Recovering(purpose, FirstLookup(a))
      modifies this, store
      ensures Valid() && old(log) <= log && Did() == old(Did())
      ensures Counter() ==
              Recovering(purpose, if receipt.Some? then Finishing(a, receipt.value) else NonceCheck(a))
    {
      hide Run, HolderNext, Working, Init, Did, Obeys;
      Others();
      var was := Now();
      receipt := Lookup(a.swap, Heard(was));
      Resettle(purpose, if receipt.Some? then Finishing(a, receipt.value) else NonceCheck(a), was);
    }

    method CheckNonce(purpose: Purpose, a: Attempt) returns (answer: Option<bool>)
      requires Valid() && Counter() == Recovering(purpose, NonceCheck(a))
      modifies this, store
      ensures Valid() && old(log) <= log && Did() == old(Did())
      ensures match answer
              case None => exists error :: Counter() == Recovering(purpose, Noting(a, error))
              case Some(true) => Counter() == Recovering(purpose, Releasing(a))
              case Some(false) =>
                Counter() ==
                Recovering(purpose, if a.allow then Marking(a) else Settled(Some(PendingResult(a.execution))))
    {
      hide Run, HolderNext, Working, Init, Did, Obeys;
      Others();
      var was := Now();
      answer := NonceConsumed(a.swap, tape(|log|));
      Resettle(purpose,
               if answer.None? then Noting(a, Raised(Heard(was)))
               else if answer.value then Releasing(a)
               else if a.allow then Marking(a)
               else Settled(Some(PendingResult(a.execution))), was);
    }

    method Release(purpose: Purpose, a: Attempt) returns (result: Option<Result>)
      requires Valid() && Counter() == Recovering(purpose, Releasing(a))
      modifies this, store
      ensures Valid() && old(log) <= log && Did() == old(Did())
      ensures Broke(purpose, a) || Counter() == Recovering(purpose, Settled(result))
    {
      hide Run, HolderNext, Working, Init, Did, Obeys, RecoveryNext, Tables.ReleaseConsumedExecution, Read;
      Others();
      result := None;
      var was := Now();
      var released := false;
      if !Heard(was).Fault? {
        released := store.ReleaseConsumedExecution(a.execution.run);
      }
      ReleasingNext(was.core, a, Heard(was), PolicyOf(purpose));
      if released {
        result := Some(Result(a.execution.ruleId, OutcomeUnknown, "nonce_consumed_receipt_missing"));
        Resettle(purpose, Settled(result), was);
      } else {
        Resettle(purpose, Noting(a, Raised(Heard(was))), was);
      }
    }

    /** The operation raised: an error note is due. */
    ghost predicate Broke(purpose: Purpose, a: Attempt)
      reads this
    {
      exists error :: Counter() == Recovering(purpose, Noting(a, error))
    }

    method Mark(purpose: Purpose, a: Attempt)
      requires Valid() && Counter() == Recovering(purpose, Marking(a))
      modifies this, store
      ensures Valid() && old(log) <= log && Did() == old(Did())
      ensures Broke(purpose, a) || Counter() == Recovering(purpose, Sending(a))
    {
      hide Run, HolderNext, Working, Init, Did, Obeys, Tables.MarkBroadcastAttempted;
      Others();
      var was := Now();
      var marked := false;
      if !Heard(was).Fault? {
        marked := store.MarkBroadcastAttempted(a.execution.run);
      }
      Resettle(purpose, if marked then Sending(a) else Noting(a, Raised(Heard(was))), was);
    }

    /** Returns the rejection, if there is a definitive one. */
    method Send(purpose: Purpose, a: Attempt) returns (rejection: Option<string>)
      requires Valid() && Counter() == Recovering(purpose, Sending(a))
      modifies this, store
      ensures Valid() && old(log) <= log && Did() == old(Did())
      ensures || Broke(purpose, a)
              || (if rejection.Some? && !a.execution.broadcastAttempted
                  then Counter() == Recovering(purpose, Rejecting(a, rejection.value))
                  else Counter() == Recovering(purpose, SecondLookup(a)))
    {
      hide Run, HolderNext, Working, Init, Did, Obeys, RecoveryNext, Read, ReadReply, Deliver, OnChain;
      Others();
      var was := Now();
      var reply := Broadcast(a.swap, !a.execution.broadcastAttempted, tape(|log|));
      rejection := if reply.Some? && reply.value.Refused? then Some(reply.value.message) else None;
      var next := if reply.None? then Noting(a, Raised(Heard(was)))
                  else if reply.value.Unclear? then Noting(a, reply.value.error)
                  else if reply.value.Refused? && !a.execution.broadcastAttempted then Rejecting(a, reply.value.message)
                  else SecondLookup(a);
      SendingNext(was, me, purpose, a, tape(|was.log|));
      Resettle(purpose, next, was);
    }

    method Dismiss(purpose: Purpose, a: Attempt, message: string) returns (result: Option<Result>)
      requires Valid() && Counter() == Recovering(purpose, Rejecting(a, message))
      modifies this, store
      ensures Valid() && old(log) <= log && Did() == old(Did())
      ensures Broke(purpose, a) || Counter() == Recovering(purpose, Settled(result))
    {
      hide Run, HolderNext, Working, Init, Did, Obeys, RecoveryNext, Tables.FinishExecution, Read;
      Others();
      result := None;
      var was := Now();
      var final: Option<RunRow> := None;
      if !Heard(was).Fault? {
        final := store.FinishExecution(a.execution.run, false, Some(message), clock);
      }
      ClosingNext(was.core, Rejecting(a, message), Heard(was), PolicyOf(purpose));
      if final.Some? {
        result := Some(Result(a.execution.ruleId, Failed, "submission_failed"));
        Resettle(purpose, Settled(result), was);
      } else {
        Resettle(purpose, Noting(a, Raised(Heard(was))), was);
      }
    }

    method SecondReceipt(purpose: Purpose, a: Attempt) returns (receipt: Option<Receipt>)
      requires Valid() && Counter() == Recovering(purpose, SecondLookup(a))
      modifies this, store
      ensures Valid() && old(log) <= log && Did() == old(Did())
      ensures || Broke(purpose, a)
              || Counter() == Recovering(purpose,
                                           if receipt.Some? then Finishing(a, receipt.value)
                                           else Settled(Some(PendingResult(a.execution))))
    {
      hide Run, HolderNext, Working, Init, Did, Obeys;
      Others();
      var was := Now();
      receipt := Lookup(a.swap, Heard(was));
      Resettle(purpose,
               if receipt.Some? then Finishing(a, receipt.value)
               else if Heard(was).NotShown? && OnChain(net, a.swap) then Settled(Some(PendingResult(a.execution)))
               else Noting(a, Raised(Heard(was))), was);
    }

    method FinishReceipt(purpose: Purpose, a: Attempt, receipt: Receipt) returns (result: Option<Result>)
      requires Valid() && Counter() == Recovering(purpose, Finishing(a, receipt))
      modifies this, store
      ensures Valid() && old(log) <= log && Did() == old(Did())
      ensures Broke(purpose, a) || Counter() == Recovering(purpose, Settled(result))
    {
      hide Run, HolderNext, Working, Init, Did, Obeys, RecoveryNext, Tables.FinishExecution, Read;
      Others();
      result := None;
      var was := Now();
      var final: Option<RunRow> := None;
      if !Heard(was).Fault? {
        final := store.FinishExecution(a.execution.run, receipt.success, receipt.message, clock);
      }
      ClosingNext(was.core, Finishing(a, receipt), Heard(was), PolicyOf(purpose));
      if final.Some? {
        result := Some(Result(a.execution.ruleId, if receipt.success then Submitted else Failed, final.value.reason));
        Resettle(purpose, Settled(result), was);
      } else {
        Resettle(purpose, Noting(a, Raised(Heard(was))), was);
      }
    }

    /** Where an attempt goes once its transport is open. */
    function Opening(a: Attempt): Recovery {
      if a.execution.broadcastAttempted then FirstLookup(a)
      else if a.allow then Marking(a)
      else Settled(Some(PendingResult(a.execution)))
    }

    /** Opens the transport on the pending execution; `None` when there is none or the opening fails. */
    method LoadExecution(purpose: Purpose, allow: bool, rpc: Option<string>) returns (a: Option<Attempt>)
      requires Valid() && Counter() == Recovering(purpose, Loading(allow, rpc))
      modifies this, store
      ensures Valid() && old(log) <= log && Did() == old(Did())
      ensures match a
              case None => Counter() == Recovering(purpose, Settled(None))
              case Some(a) =>
                Broke(purpose, a) || Counter() == Recovering(purpose, Opening(a))
      ensures a.Some? ==> a.value.allow == allow
    {
      hide Run, HolderNext, Working, Init, Did, Obeys;
      Others();
      var was := Now();
      var pending := store.PendingExecution();
      if pending.None? {
        Resettle(purpose, Settled(None), was);
        return None;
      }
      var e := pending.value;
      var swap := if rpc.Some? then e.swap.(rpcUrl := rpc.value) else e.swap;
      a := Some(Attempt(e, swap, allow));
      Resettle(purpose, if Heard(was).Fault? then Noting(a.value, Raised(Heard(was))) else Opening(a.value), was);
    }

    // ---------- reconcile_execution ----------

    /**
     One reconciliation: it ends settled after some execution of the protocol.  Without a pending
     result the slot is free.
     */
    method ReconcileExecution(purpose: Purpose, allow: bool, rpc: Option<string>)
      returns (result: Option<Result>)
      requires Valid() && Counter() == Recovering(purpose, Loading(allow, rpc))
      modifies this, store
      ensures Valid() && old(log) <= log && Did() == old(Did())
      ensures Counter() == Recovering(purpose, Settled(result))
      ensures result.Some? ==> KnownReason(result.value)
      ensures result.None? || result.value.status != Pending ==> store.pending.None? && Closes(log, log)
    {
      result := ReconcileOnce(purpose, allow, rpc);
      SettledMeans(Now(), me, purpose, result);
    }

    method ReconcileOnce(purpose: Purpose, allow: bool, rpc: Option<string>)
      returns (result: Option<Result>)
      requires Valid() && Counter() == Recovering(purpose, Loading(allow, rpc))
      modifies this, store
      ensures Valid() && old(log) <= log && Did() == old(Did())
      ensures Counter() == Recovering(purpose, Settled(result))
    {
      hide Run, Init, Next, Valid;
      var a := LoadExecution(purpose, allow, rpc);
      if a.None? {
        return None;
      }
      if !IsBroken() {
        result := Reconcile(purpose, a.value);
      }
      if IsBroken() {
        result := NoteError(purpose, a.value, procs[me].recovery.error);
      }
    }

    predicate IsBroken()
      reads this
    {
      me in procs && procs[me].Recovering? && procs[me].recovery.Noting?
    }

    /** The steps inside the transport, until an outcome or an exception. */
    method Reconcile(purpose: Purpose, a: Attempt) returns (result: Option<Result>)
      requires Valid()
      requires Counter() == Recovering(purpose, Opening(a))
      modifies this, store
      ensures Valid() && old(log) <= log && Did() == old(Did())
      ensures Broke(purpose, a) || Counter() == Recovering(purpose, Settled(result))
    {
      hide Run, HolderNext, Working, Init, Did, Obeys, Valid, PendingResult, PolicyOf;
      if a.execution.broadcastAttempted {
        var receipt := FirstReceipt(purpose, a);
        if receipt.Some? {
          result := FinishReceipt(purpose, a, receipt.value);
          return;
        }
        var consumed := CheckNonce(purpose, a);
        if consumed.None? {
          return None;
        }
        if consumed.value {
          result := Release(purpose, a);
          return;
        }
      }
      if !a.allow {
        return Some(PendingResult(a.execution));
      }
      result := MarkAndSend(purpose, a);
    }

    /** Marked before touching the network: later rejections cannot disprove an earlier broadcast. */
    method MarkAndSend(purpose: Purpose, a: Attempt) returns (result: Option<Result>)
      requires Valid()
      requires Counter() == Recovering(purpose, Marking(a))
      modifies this, store
      ensures Valid() && old(log) <= log && Did() == old(Did())
      ensures Broke(purpose, a) || Counter() == Recovering(purpose, Settled(result))
    {
      hide Run, HolderNext, Working, Init, Did, Obeys, Valid, PendingResult, PolicyOf;
      Mark(purpose, a);
      if IsBroken() {
        return None;
      }
      var rejection := Send(purpose, a);
      if IsBroken() {
        return None;
      }
      if rejection.Some? && !a.execution.broadcastAttempted {
        result := Dismiss(purpose, a, rejection.value);
        return;
      }
      var receipt := SecondReceipt(purpose, a);
      if IsBroken() {
        return None;
      }
      if receipt.Some? {
        result := FinishReceipt(purpose, a, receipt.value);
        return;
      }
      result := Some(PendingResult(a.execution));
    }

    // ---------- the steps of an evaluation ----------

    /** `reconcile_uncertain_rule`: whether the rule remains held.  Only receipts are read here. */
    method ReconcileUncertainRule(pass: Pass) returns (held: bool, ghost found: bool)
      requires Valid() && Counter() == NextRule(pass) && pass.rules != []
      modifies this, store
      ensures Valid() && old(log) <= log && Did() == old(Did()) + [Visited(pass.rules[0], found)]
      ensures Counter() == if held then Skip(pass) else Deciding(pass)
      ensures held ==> found
    {
      hide *;
      var run := FindHeld(pass);
      found := run.Some?;
      if run.None? {
        return false, found;
      }
      var receipt := HeldReceipt(pass, run.value);
      if receipt.None? {
        return true, found;
      }
      held := ResolveHeld(pass, run.value, receipt.value);
    }

    method FindHeld(pass: Pass) returns (run: Option<nat>)
      requires Valid() && Counter() == NextRule(pass) && pass.rules != []
      modifies this, store
      ensures Valid() && old(log) <= log && Did() == old(Did()) + [Visited(pass.rules[0], run.Some?)]
      ensures Counter() == if run.Some? then HeldLookup(pass, run.value) else Deciding(pass)
    {
      hide Run, Init, RecoveryNext, Did, Obeys;
      Others();
      var was := Now();
      var execution := store.UncertainExecution(pass.rules[0].id);
      if execution.None? {
        run := None;
        Advance(Heard(was), Deciding(pass), was);
      } else {
        run := Some(execution.value.run);
        Advance(Heard(was), HeldLookup(pass, execution.value.run), was);
      }
    }

    method HeldReceipt(pass: Pass, run: nat) returns (receipt: Option<Receipt>)
      requires Valid() && Counter() == HeldLookup(pass, run) && pass.rules != []
      modifies this, store
      ensures Valid() && old(log) <= log && Did() == old(Did())
      ensures Counter() == if receipt.Some? then Resolving(pass, run, receipt.value) else Skip(pass)
    {
      hide Run, Init, RecoveryNext, Did, Obeys;
      Others();
      var was := Now();
      receipt := None;
      if run in store.uncertain {
        receipt := Lookup(store.uncertain[run], Heard(was));
      }
      Advance(Heard(was), if receipt.Some? then Resolving(pass, run, receipt.value) else Skip(pass), was);
    }

    method ResolveHeld(pass: Pass, run: nat, receipt: Receipt) returns (held: bool)
      requires Valid() && Counter() == Resolving(pass, run, receipt) && pass.rules != []
      modifies this, store
      ensures Valid() && old(log) <= log && Did() == old(Did())
      ensures Counter() == if held then Skip(pass) else Deciding(pass)
    {
      hide Run, Init, HolderNext, WorkDeed, RecoveryNext, Did, Obeys, Tables.ResolveUncertainExecution, Read;
      Others();
      var was := Now();
      var resolved := false;
      if !Heard(was).Fault? {
        resolved := store.ResolveUncertainExecution(run, receipt.success, receipt.message, clock);
      }
      held := !resolved;
      ResolvingNext(was.core, pass, run, receipt, Heard(was));
      Advance(Heard(was), if resolved then Deciding(pass) else Skip(pass), was);
    }

    /** Reads clock and rule state and decides. */
    method DecideRule(pass: Pass) returns (decision: RuleDecision, at: int, state: RuleRuntimeState)
      requires Valid() && Counter() == Deciding(pass) && pass.rules != []
      modifies this, store
      ensures Valid() && old(log) <= log && Did() == old(Did()) + [Considered(pass.rules[0].id)]
      ensures decision == EvaluatePriceMove(pass.rules[0], pass.snapshot, state, at)
      ensures Counter() ==
              if decision.shouldExecute then Quoting(pass, decision.nextBaselinePrice.GetOr(0.0), at)
              else if decision.nextBaselinePrice.Some? then
                Initialising(pass, RuleRuntimeState(decision.nextBaselinePrice, state.lastActionAt))
              else Skip(pass)
    {
      hide Run, Init, HolderNext, WorkDeed, RecoveryNext, Did, Obeys, EvaluatePriceMove, Read;
      Others();
      var was := Now();
      at := clock;
      state := store.GetRuleState(pass.rules[0].id);
      decision := EvaluatePriceMove(pass.rules[0], pass.snapshot, state, at);
      DecidingNext(was.core, pass, Heard(was));
      if decision.shouldExecute {
        Advance(Heard(was), Quoting(pass, decision.nextBaselinePrice.GetOr(0.0), at), was);
      } else if decision.nextBaselinePrice.Some? {
        Advance(Heard(was), Initialising(pass, RuleRuntimeState(decision.nextBaselinePrice, state.lastActionAt)), was);
      } else {
        Advance(Heard(was), Skip(pass), was);
      }
    }

    /** A database write of the pass; a failure propagates and ends the evaluation. */
    method StoreBaseline(pass: Pass, state: RuleRuntimeState) returns (raised: bool, ghost seen: World)
      requires Valid() && Counter() == Initialising(pass, state) && pass.rules != []
      modifies this, store
      ensures Valid() && old(log) <= log && Did() == old(Did())
      ensures Counter() == if raised then Leaving else Skip(pass)
      ensures !raised ==> pass.rules[0].id in store.ruleState && store.ruleState[pass.rules[0].id] == state
      ensures raised ==> Met(old(log), log, seen, me, tape)
    {
      hide Run, Init, RecoveryNext, Did, Obeys, Reachable, Read;
      Others();
      var was := Now();
      seen := was;
      Arrives(start, turns);
      raised := Heard(was).Fault?;
      if !raised {
        store.SaveRuleState(pass.rules[0].id, state);
      }
      Advance(Heard(was), if raised then Leaving else Skip(pass), was);
    }

    method Quote(pass: Pass, price: real, at: int)
      returns (failure: Option<string>, feeBps: int, least: real)
      requires Valid() && Counter() == Quoting(pass, price, at) && pass.rules != []
      modifies this, store
      ensures Valid() && old(log) <= log && Did() == old(Did())
      ensures Counter() ==
              if failure.Some? then Reporting(pass, "quote_failed", failure.value)
              else if pass.session.config.wallet.execute then Preparing(pass, price, feeBps, least)
              else DryState(pass, price, at)
      ensures failure.None? ==> LeastOut(pass, feeBps) == Some(least)
    {
      hide Run, Init, HolderNext, WorkDeed, RecoveryNext, Did, LeastOut, Obeys, Read;
      Others();
      var was := Now();
      var choice := Heard(was);
      feeBps := if choice.Priced? then choice.feeBps else 0;
      var quoted := if choice.Priced? then LeastOut(pass, feeBps) else None;
      failure, least := if quoted.None? then Some(Raised(choice)) else None, quoted.GetOr(0.0);
      QuotingNext(was.core, pass, price, at, choice);
      Advance(choice,
              if quoted.None? then Reporting(pass, "quote_failed", Raised(choice))
              else if pass.session.config.wallet.execute then Preparing(pass, price, feeBps, least)
              else DryState(pass, price, at), was);
    }

    method ReportFailure(pass: Pass, reason: string, error: string) returns (raised: bool, ghost seen: World)
      requires Valid() && Counter() == Reporting(pass, reason, error) && pass.rules != []
      modifies this, store
      ensures Valid() && old(log) <= log && Did() == old(Did())
      ensures Counter() == if raised then Leaving else Skip(pass)
      ensures !raised ==>
                && store.runs != []
                && store.runs[|store.runs| - 1] == RunRow(pass.rules[0].id, Failed, reason, None,
                                                          Details(pass.snapshot, Some(error), None, false))
      ensures raised ==> Met(old(log), log, seen, me, tape)
    {
      hide Run, Init, RecoveryNext, Did, Obeys, Reachable, Read;
      Others();
      var was := Now();
      seen := was;
      Arrives(start, turns);
      raised := Heard(was).Fault?;
      if !raised {
        store.AppendRun(RunRow(pass.rules[0].id, Failed, reason, None, Inputs(pass).(error := Some(error))));
      }
      Advance(Heard(was), if raised then Leaving else Skip(pass), was);
    }

    /** Two transactions: a death between them leaves the new baseline without its dry-run row. */
    method RunDry(pass: Pass, price: real, at: int) returns (raised: bool, ghost seen: World)
      requires Valid() && Counter() == DryState(pass, price, at) && pass.rules != []
      modifies this, store
      ensures Valid() && old(log) <= log && Did() == old(Did())
      ensures Counter() == if raised then Leaving else Skip(pass)
      ensures raised ==> Met(old(log), log, seen, me, tape)
    {
      hide *;
      ghost var before := log;
      raised, seen := RecordActionState(pass, price, at);
      if !raised {
        ghost var middle := log;
        raised, seen := ReportDry(pass);
        Within(before, middle, log, log, seen, me, tape);
      }
    }

    method RecordActionState(pass: Pass, price: real, at: int) returns (raised: bool, ghost seen: World)
      requires Valid() && Counter() == DryState(pass, price, at) && pass.rules != []
      modifies this, store
      ensures Valid() && old(log) <= log && Did() == old(Did())
      ensures Counter() == if raised then Leaving else DryReport(pass)
      ensures !raised ==>
                && pass.rules[0].id in store.ruleState
                && store.ruleState[pass.rules[0].id] == RuleRuntimeState(Some(price), Some(at))
      ensures raised ==> Met(old(log), log, seen, me, tape)
    {
      hide Run, Init, RecoveryNext, Did, Obeys, Reachable, Read;
      Others();
      var was := Now();
      seen := was;
      Arrives(start, turns);
      raised := Heard(was).Fault?;
      if !raised {
        store.SaveRuleState(pass.rules[0].id, RuleRuntimeState(Some(price), Some(at)));
      }
      Advance(Heard(was), if raised then Leaving else DryReport(pass), was);
    }

    method ReportDry(pass: Pass) returns (raised: bool, ghost seen: World)
      requires Valid() && Counter() == DryReport(pass) && pass.rules != []
      modifies this, store
      ensures Valid() && old(log) <= log && Did() == old(Did())
      ensures Counter() == if raised then Leaving else Skip(pass)
      ensures !raised ==>
                && store.runs != []
                && store.runs[|store.runs| - 1]
                   == RunRow(pass.rules[0].id, DryRun, "price_move_threshold_reached", None,
                             Details(pass.snapshot, None, None, false))
      ensures raised ==> Met(old(log), log, seen, me, tape)
    {
      hide Run, Init, RecoveryNext, Did, Obeys, Reachable, Read;
      Others();
      var was := Now();
      seen := was;
      Arrives(start, turns);
      raised := Heard(was).Fault?;
      if !raised {
        store.AppendRun(RunRow(pass.rules[0].id, DryRun, PRICE_MOVE, None, Inputs(pass)));
      }
      Advance(Heard(was), if raised then Leaving else Skip(pass), was);
    }

    /** Builds and signs the call; nonce, deadline base and fee are the node's answers. */
    method PrepareSwap(pass: Pass, price: real, feeBps: int, least: real)
      returns (swap: Option<PreparedSwap>, base: int, error: string)
      requires Valid() && Counter() == Preparing(pass, price, feeBps, least) && pass.rules != []
      modifies this, store
      ensures Valid() && old(log) <= log && Did() == old(Did())
      ensures Counter() ==
              if swap.None? then Reporting(pass, "submission_failed", error)
              else Journaling(pass, price, swap.value, Origin(pass.rules[0], pass.snapshot, feeBps, base))
      ensures swap.Some? ==>
                && OnChain(net, swap.value)
                && !Consumed(net, swap.value.tx)
                && pass.session.sender == Some(swap.value.tx.account.sender)
                && BuildSwapExactInCall(pass.session.config, pass.session.sender, pass.snapshot,
                                        pass.rules[0].action, least, base) == Some(swap.value.tx.call)
                && AsTold(pass, swap.value.tx)
    {
      hide Run, Init, HolderNext, WorkDeed, RecoveryNext, Did, BuildSwapExactInCall, Obeys, Prepare, OnChain, Consumed,
           AsTold, Read;
      Others();
      var was := Now();
      var choice := Heard(was);
      base := if choice.Signed? then choice.base else 0;
      swap := if choice.Signed? then Prepare(State(), pass, least, choice.nonce, base, choice.chi) else None;
      error := Raised(choice);
      PreparingNext(was.core, pass, price, feeBps, least, choice);
      if choice.Signed? {
        PreparedIs(was.core, pass, least, choice.nonce, base, choice.chi);
      }
      Advance(choice,
              if swap.None? then Reporting(pass, "submission_failed", error)
              else Journaling(pass, price, swap.value, Origin(pass.rules[0], pass.snapshot, feeBps, base)), was);
    }

    method Journal(pass: Pass, price: real, swap: PreparedSwap, origin: Origin)
      returns (raised: bool, ghost run: nat, ghost seen: World)
      requires Valid() && Counter() == Journaling(pass, price, swap, origin) && pass.rules != []
      modifies this, store
      ensures Valid() && old(log) <= log
      ensures Did() == old(Did()) + if raised then [] else [SignedFor(pass.rules[0].id, run)]
      ensures Counter() == if raised then Leaving else Recovering(AfterSigning(pass), Loading(true, None))
      ensures !raised ==>
                && store.pending == Some(PendingRow(run, swap, price, false))
                && |store.runs| == run + 1
                && store.runs[run] == RunRow(pass.rules[0].id, Pending, "price_move_threshold_reached", Some(swap.tx),
                                             Details(pass.snapshot, None, None, false))
      ensures raised ==> Met(old(log), log, seen, me, tape)
    {
      hide Run, Init, HolderNext, WorkDeed, RecoveryNext, Did, Obeys, Tables.BeginExecution, Read;
      Others();
      var was := Now();
      seen := was;
      Arrives(start, turns);
      SlotIsFree(was, me);
      run := |store.runs|;
      var begun := false;
      if !Heard(was).Fault? {
        begun := store.BeginExecution(pass.rules[0].id, swap, price, PRICE_MOVE, Inputs(pass));
      }
      raised := !begun;
      JournalingNext(was.core, pass, price, swap, origin, Heard(was));
      BegunTables(was.core.db, pass.rules[0].id, swap, price, PRICE_MOVE, Inputs(pass));
      Advance(Heard(was), if raised then Leaving else Recovering(AfterSigning(pass), Loading(true, None)), was);
    }

    /** Resumes the purpose of a settled reconciliation. */
    method ResumePurpose(purpose: Purpose, result: Option<Result>)
      requires Valid() && Counter() == Recovering(purpose, Settled(result))
      modifies this, store
      ensures Valid() && old(log) <= log && Did() == old(Did())
      ensures Counter() == Resume(store.Contents(), purpose, result)
    {
      hide Run, Init, RecoveryNext, Did, Obeys, Resume;
      Others();
      var was := Now();
      Advance(Heard(was), Resume(store.Contents(), purpose, result), was);
    }

    // ---------- _evaluate_rule ----------

    /** The first rule of the pass, from its hold check to its outcome. */
    method EvaluateRule(pass: Pass) returns (entry: Entry, raised: bool, ghost deeds: seq<Deed>, ghost seen: World)
      requires Valid() && Counter() == NextRule(pass) && pass.rules != []
      modifies this, store
      ensures Valid() && old(log) <= log && Did() == old(Did()) + deeds
      ensures RuleDeeds(deeds, pass.rules[0])
      ensures raised || entry.IsPending() ==> Counter() == Leaving
      ensures !raised && !entry.IsPending() ==> Counter() == Skip(pass)
      ensures entry.OfRule? && (raised || OwnReason(entry))
      ensures !raised && entry.IsPending() ==> |deeds| == 3
      ensures raised ==> Met(old(log), log, seen, me, tape)
    {
      hide *;
      FixedReasons();
      ghost var before := log;
      raised, seen := false, Now();
      var held;
      ghost var found;
      held, found := ReconcileUncertainRule(pass);
      deeds := [Visited(pass.rules[0], found)];
      if held {
        JustVisited(pass.rules[0]);
        entry := OfRule(None, "rule_outcome_unknown");
        Unblocking(None, "rule_outcome_unknown");
        return;
      }
      var decision, at, state := DecideRule(pass);
      DecisionReasons(pass.rules[0], pass.snapshot, state, at);
      deeds := deeds + [Considered(pass.rules[0].id)];
      ThenConsidered(pass.rules[0], found, []);
      assert deeds + [] == deeds;
      if decision.shouldExecute {
        ghost var signed;
        ghost var middle := log;
        entry, raised, signed, seen := ActOnRule(pass, decision.nextBaselinePrice.GetOr(0.0), at, decision.reason);
        Within(before, middle, log, log, seen, me, tape);
        ThenConsidered(pass.rules[0], found, signed);
        deeds := deeds + signed;
        return;
      }
      if decision.nextBaselinePrice.Some? {
        ghost var middle := log;
        raised, seen := StoreBaseline(pass, RuleRuntimeState(decision.nextBaselinePrice, state.lastActionAt));
        Within(before, middle, log, log, seen, me, tape);
      }
      entry := OfRule(None, decision.reason);
      Unblocking(None, decision.reason);
    }

    /** From the quote of a rule that acts to its dry run or its submission. */
    method ActOnRule(pass: Pass, price: real, at: int, reason: string)
      returns (entry: Entry, raised: bool, ghost signed: seq<Deed>, ghost seen: World)
      requires Valid() && Counter() == Quoting(pass, price, at) && pass.rules != [] && RuleReason(reason)
      modifies this, store
      ensures Valid() && old(log) <= log && Did() == old(Did()) + signed
      ensures |signed| <= 1 && (signed != [] ==> signed[0].SignedFor? && signed[0].ruleId == pass.rules[0].id)
      ensures raised || entry.IsPending() ==> Counter() == Leaving
      ensures !raised && !entry.IsPending() ==> Counter() == Skip(pass)
      ensures entry.OfRule? && (raised || OwnReason(entry))
      ensures !raised && entry.IsPending() ==> signed != []
      ensures raised ==> Met(old(log), log, seen, me, tape)
    {
      hide *;
      FixedReasons();
      ghost var before := log;
      signed := [];
      var failure, feeBps, least := Quote(pass, price, at);
      ghost var middle := log;
      if failure.Some? {
        raised, seen := ReportFailure(pass, "quote_failed", failure.value);
        Within(before, middle, log, log, seen, me, tape);
        entry := OfRule(Some(Failed), "quote_failed");
        Unblocking(Some(Failed), "quote_failed");
        return;
      }
      if !pass.session.config.wallet.execute {
        raised, seen := RunDry(pass, price, at);
        Within(before, middle, log, log, seen, me, tape);
        entry := OfRule(Some(DryRun), reason);
        Unblocking(Some(DryRun), reason);
        return;
      }
      entry, raised, signed, seen := SignAndSubmit(pass, price, feeBps, least);
      Within(before, middle, log, log, seen, me, tape);
    }

    /** From the signature to the submission. */
    method SignAndSubmit(pass: Pass, price: real, feeBps: int, least: real)
      returns (entry: Entry, raised: bool, ghost signed: seq<Deed>, ghost seen: World)
      requires Valid() && Counter() == Preparing(pass, price, feeBps, least) && pass.rules != []
      modifies this, store
      ensures Valid() && old(log) <= log && Did() == old(Did()) + signed
      ensures |signed| <= 1 && (signed != [] ==> signed[0].SignedFor? && signed[0].ruleId == pass.rules[0].id)
      ensures raised || entry.IsPending() ==> Counter() == Leaving
      ensures !raised && !entry.IsPending() ==> Counter() == Skip(pass)
      ensures entry.OfRule? && (raised || OwnReason(entry))
      ensures !raised && entry.IsPending() ==> signed != []
      ensures raised ==> Met(old(log), log, seen, me, tape)
    {
      hide *;
      FixedReasons();
      ghost var before := log;
      signed := [];
      var swap, base, error := PrepareSwap(pass, price, feeBps, least);
      ghost var middle := log;
      if swap.None? {
        raised, seen := ReportFailure(pass, "submission_failed", error);
        Within(before, middle, log, log, seen, me, tape);
        entry := OfRule(Some(Failed), "submission_failed");
        Unblocking(Some(Failed), "submission_failed");
        return;
      }
      entry, raised, signed, seen :=
        JournalAndSubmit(pass, price, swap.value, Origin(pass.rules[0], pass.snapshot, feeBps, base));
      Within(before, middle, log, log, seen, me, tape);
    }

    /** A failed journal write propagates: nothing may be broadcast before it. */
    method JournalAndSubmit(pass: Pass, price: real, swap: PreparedSwap, origin: Origin)
      returns (entry: Entry, raised: bool, ghost signed: seq<Deed>, ghost seen: World)
      requires Valid() && Counter() == Journaling(pass, price, swap, origin) && pass.rules != []
      modifies this, store
      ensures Valid() && old(log) <= log && Did() == old(Did()) + signed
      ensures |signed| <= 1 && (signed != [] ==> signed[0].SignedFor? && signed[0].ruleId == pass.rules[0].id)
      ensures raised || entry.IsPending() ==> Counter() == Leaving
      ensures !raised && !entry.IsPending() ==> Counter() == Skip(pass)
      ensures entry.OfRule? && (raised || OwnReason(entry))
      ensures !raised && entry.IsPending() ==> signed != []
      ensures raised ==> Met(old(log), log, seen, me, tape)
    {
      hide *;
      signed := [];
      ghost var run;
      raised, run, seen := Journal(pass, price, swap, origin);
      if raised {
        entry := OfRule(None, "");
        return;
      }
      signed := [SignedFor(pass.rules[0].id, run)];
      entry, raised := SubmitJournaled(pass);
    }

    /** Reading the status of no result would raise, but after signing there always is one. */
    method SubmitJournaled(pass: Pass) returns (entry: Entry, raised: bool)
      requires Valid() && Counter() == Recovering(AfterSigning(pass), Loading(true, None)) && pass.rules != []
      modifies this, store
      ensures Valid() && old(log) <= log && Did() == old(Did())
      ensures !raised && entry.OfRule? && OwnReason(entry)
      ensures Counter() == if entry.IsPending() then Leaving else Skip(pass)
    {
      hide Run, Init, RecoveryNext, Did, Obeys, HolderNext, Reachable;
      var result := ReconcileExecution(AfterSigning(pass), true, None);
      Arrives(start, turns);
      SigningHasResult(Now(), me, pass, result);
      ResumePurpose(AfterSigning(pass), result);
      raised := result.None?;
      entry := if result.None? then OfRule(None, "") else OfRule(Some(result.value.status), result.value.reason);
    }

    // ---------- _evaluate_pair_locked ----------

    method ObservePair(session: Session) returns (pass: Option<Pass>, ghost seen: World)
      requires Valid() && Counter() == Observing(session)
      modifies this, store
      ensures Valid() && old(log) <= log && Did() == old(Did())
      ensures Counter() == if pass.Some? then NextRule(pass.value) else Leaving
      ensures pass.Some? ==>
                && pass.value.session == session
                && pass.value.snapshot.pairId == session.pairId
                && pass.value.rules == Matching(session)
      ensures pass.None? ==> Met(old(log), log, seen, me, tape)
      ensures pass.Some? ==>
                Witnessed(old(log), log, seen) && tape(|seen.log|) == Plain(Snapshot(pass.value.snapshot))
    {
      hide Run, Init, RecoveryNext, Did, MatchingRules, Obeys, Reachable;
      Others();
      var was := Now();
      seen := was;
      Arrives(start, turns);
      var choice := Heard(was);
      if !choice.Snapshot? || choice.snapshot.pairId != session.pairId {
        pass := None;
      } else {
        pass := Some(Pass(session, choice.snapshot, MatchingRules(session.config.rules, session.pairId)));
      }
      Advance(choice, if pass.Some? then NextRule(pass.value) else Leaving, was);
    }

    method EndPass(pass: Pass)
      requires Valid() && Counter() == NextRule(pass) && pass.rules == []
      modifies this, store
      ensures Valid() && old(log) <= log && Did() == old(Did()) + [PassedPair(pass.session)]
      ensures Counter() == Leaving
    {
      hide Run, Init, RecoveryNext, Did, Obeys;
      Others();
      var was := Now();
      Advance(Heard(was), Leaving, was);
    }

    /** Recovery first, then the matching rules in order, up to the first one left pending. */
    method EvaluatePairLocked(session: Session)
      returns (entries: seq<Entry>, raised: bool, ghost deeds: seq<Deed>, ghost seen: World)
      requires Valid()
      requires Counter() == Recovering(BeforePass(session), Loading(session.config.wallet.execute, None))
      modifies this, store
      ensures Valid() && old(log) <= log && Counter() == Leaving && Did() == old(Did()) + deeds
      ensures PassDeeds(deeds, Matching(session), session)
      ensures !raised ==> PassShape(entries, |Matching(session)|) && PassEnd(entries, deeds, session)
      ensures raised ==> Met(old(log), log, seen, me, tape)
      ensures !raised && IsRefused(entries) ==>
                Witnessed(old(log), log, seen) && Justifies(seen, session, entries[0].reason)
    {
      hide *;
      ghost var before := log;
      deeds := [];
      NothingDone(Matching(session), session);
      var recovered := ReconcileExecution(BeforePass(session), session.config.wallet.execute, None);
      seen := Now();
      StaysPending(this, BeforePass(session), recovered);
      ghost var middle := log;
      ResumePurpose(BeforePass(session), recovered);
      ResumeBeforePass(store.Contents(), session, recovered);
      if recovered.Some? && recovered.value.status == Pending {
        entries, raised := [Refusal(Some(Pending), "recovery_pending")], false;
        RefusedShape(entries[0], |Matching(session)|, session);
        Within(before, middle, middle, log, seen, me, tape);
        OccupiedJustifies(seen, session, "recovery_pending");
        return;
      }
      middle := log;
      var observed;
      observed, seen := ObservePair(session);
      Within(before, middle, log, log, seen, me, tape);
      if observed.None? {
        entries, raised := [], true;
        return;
      }
      entries := if recovered.None? then [] else [OfRecovery(Some(recovered.value.status), recovered.value.reason)];
      RecoveredHead(recovered);
      middle := log;
      entries, raised, deeds, seen := EvaluateRules(observed.value, entries);
      Within(before, middle, log, log, seen, me, tape);
    }

    /** The rules of a pass in order. */
    method EvaluateRules(whole: Pass, recovered: seq<Entry>)
      returns (entries: seq<Entry>, raised: bool, ghost deeds: seq<Deed>, ghost seen: World)
      requires Valid() && Counter() == NextRule(whole) && whole.rules == Matching(whole.session)
      requires Evaluated(recovered, |recovered|) && forall i :: 0 <= i < |recovered| ==> !recovered[i].IsPending()
      modifies this, store
      ensures Valid() && old(log) <= log && Counter() == Leaving && Did() == old(Did()) + deeds
      ensures PassDeeds(deeds, whole.rules, whole.session)
      ensures !raised ==> PassShape(entries, |whole.rules|) && PassEnd(entries, deeds, whole.session)
      ensures raised ==> Met(old(log), log, seen, me, tape)
      ensures !raised ==> !IsRefused(entries)
    {
      hide *;
      ghost var before := log;
      seen := Now();
      var pass := whole;
      ghost var n := 0;
      entries, raised, deeds := recovered, false, [];
      NothingDone(whole.rules, whole.session);
      while pass.rules != []
        invariant Valid() && old(log) <= log && Did() == old(Did()) + deeds && Counter() == NextRule(pass)
        invariant n <= |whole.rules| && pass == whole.(rules := whole.rules[n..])
        invariant |entries| == |recovered| + n
        invariant Evaluated(entries, |recovered|)
        invariant InOrder(deeds, whole.rules[..n])
        invariant forall i :: 0 <= i < |entries| ==> !entries[i].IsPending()
        decreases |pass.rules|
      {
        var entry;
        ghost var more;
        ghost var middle := log;
        entry, raised, more, seen := EvaluateRule(pass);
        Within(before, middle, log, log, seen, me, tape);
        OneMoreRule(deeds, more, whole.rules, n, whole.session);
        deeds := deeds + more;
        if raised {
          return;
        }
        Appended(entries, |recovered|, entry);
        entries := entries + [entry];
        if entry.IsPending() {
          Shaped(entries, |recovered|, |whole.rules|);
          EndsPending(entries, |recovered|, deeds, whole.session);
          NotRefused(entries, |recovered|);
          return;
        }
        SkipTakesFirst(pass);
        pass := pass.(rules := pass.rules[1..]);
        n := n + 1;
      }
      EndPass(pass);
      assert whole.rules[..n] == whole.rules;
      PairThrough(deeds, whole.rules, whole.session);
      deeds := deeds + [PassedPair(whole.session)];
      Shaped(entries, |recovered|, |whole.rules|);
      EndsThrough(entries, |recovered|, deeds, whole.session);
      NotRefused(entries, |recovered|);
    }

    // ---------- evaluate_pair ----------

    /** Claims admission, then execution, giving admission back; the reason when one of them is taken. */
    method EvaluationLock(session: Session) returns (blocked: Option<string>, ghost seen: World)
      requires Valid() && Counter() == Idle
      modifies this, store
      ensures Valid() && old(log) <= log && Did() == old(Did())
      ensures blocked in {None, Some("configuration_draining"), Some("execution_busy")}
      ensures Counter() == if blocked.None? then Checking(session) else Idle
      ensures blocked.Some? ==> Witnessed(old(log), log, seen) && Justifies(seen, session, blocked.value)
    {
      hide *;
      ghost var before := log;
      var admitted;
      admitted, seen := EnterGate(session);
      if !admitted {
        WhileDraining(seen);
        return Some("configuration_draining"), seen;
      }
      ghost var middle := log;
      var acquired;
      acquired, seen := EnterExecution(session);
      Within(before, middle, log, log, seen, me, tape);
      WhileBusy(seen);
      blocked := if acquired then None else Some("execution_busy");
    }

    method EnterGate(session: Session) returns (admitted: bool, ghost seen: World)
      requires Valid() && Counter() == Idle
      modifies this, store
      ensures Valid() && old(log) <= log && Did() == old(Did())
      ensures Counter() == if admitted then Admitted(session) else Idle
      ensures !admitted ==> Witnessed(old(log), log, seen) && !seen.gate.Shared?
    {
      hide Run, Init, Did, Obeys, Reachable;
      Others();
      seen := Now();
      Arrives(start, turns);
      admitted := gate.Shared?;
      if admitted {
        var was := Now();
        gate := Shared(gate.readers + {me});
        AdvanceLock(Evaluate(session), Admitted(session), was);
      }
    }

    method EnterExecution(session: Session) returns (acquired: bool, ghost seen: World)
      requires Valid() && Counter() == Admitted(session)
      modifies this, store
      ensures Valid() && old(log) <= log && Did() == old(Did())
      ensures Counter() == if acquired then Checking(session) else Idle
      ensures !acquired ==> Witnessed(old(log), log, seen) && seen.exec.Some?
    {
      hide Run, Init, Did, Obeys, Reachable;
      Others();
      var was := Now();
      seen := was;
      Arrives(start, turns);
      acquired := exec.None?;
      gate := DropGate(gate, me);
      if acquired {
        exec := Some(me);
        AdvanceLock(Proceed, Checking(session), was);
      } else {
        AdvanceLock(Proceed, Idle, was);
      }
    }

    /** Gives back whatever `me` holds. */
    method LeaveLocks()
      requires Valid() && (Counter() == Leaving || Counter() == Closing)
      modifies this, store
      ensures Valid() && old(log) <= log && Did() == old(Did()) && Counter() == Idle
    {
      hide Run, Init, Did, Obeys;
      Others();
      var was := Now();
      exec := DropExec(exec, me);
      gate := DropGate(gate, me);
      AdvanceLock(Proceed, Idle, was);
    }

    method CheckConfiguration(session: Session) returns (changed: bool, ghost seen: World)
      requires Valid() && Counter() == Checking(session)
      modifies this, store
      ensures Valid() && old(log) <= log && Did() == old(Did())
      ensures Counter() ==
              if changed then Leaving
              else Recovering(BeforePass(session), Loading(session.config.wallet.execute, None))
      ensures Witnessed(old(log), log, seen) && (changed <==> !Bound(seen.core.db, session))
    {
      hide Run, Init, RecoveryNext, Did, Obeys, Reachable;
      Others();
      var was := Now();
      seen := was;
      Arrives(start, turns);
      changed := Protocol.ConfigurationChanged(store.Contents(), session);
      if changed {
        Advance(Heard(was), Leaving, was);
      } else {
        Advance(Heard(was), Recovering(BeforePass(session), Loading(session.config.wallet.execute, None)), was);
      }
    }

    method EvaluatePair(session: Session)
      returns (entries: seq<Entry>, raised: bool, ghost deeds: seq<Deed>, ghost seen: World)
      requires Valid() && Counter() == Idle
      modifies this, store
      ensures Valid() && old(log) <= log && Counter() == Idle && Did() == old(Did()) + deeds
      ensures PassDeeds(deeds, Matching(session), session)
      ensures !raised ==> PassShape(entries, |Matching(session)|) && PassEnd(entries, deeds, session)
      ensures raised ==> Met(old(log), log, seen, me, tape)
      ensures !raised && IsRefused(entries) ==>
                Witnessed(old(log), log, seen) && Justifies(seen, session, entries[0].reason)
    {
      hide *;
      ghost var before := log;
      raised, deeds := false, [];
      NothingDone(Matching(session), session);
      var blocked;
      blocked, seen := EvaluationLock(session);
      if blocked.Some? {
        entries := [Refusal(None, blocked.value)];
        RefusedShape(entries[0], |Matching(session)|, session);
        return;
      }
      ghost var middle := log;
      var changed;
      changed, seen := CheckConfiguration(session);
      if changed {
        ghost var after := log;
        LeaveLocks();
        Within(before, middle, after, log, seen, me, tape);
        WhenChanged(seen, session);
        entries := [Refusal(None, "configuration_changed")];
        RefusedShape(entries[0], |Matching(session)|, session);
        return;
      }
      middle := log;
      entries, raised, deeds, seen := EvaluatePairLocked(session);
      ghost var after := log;
      LeaveLocks();
      Within(before, middle, after, log, seen, me, tape);
    }

    // ---------- recover_once ----------

    method ClaimRecovery(default: AutomationConfig) returns (claimed: bool, ghost seen: World)
      requires Valid() && Counter() == Idle
      modifies this, store
      ensures Valid() && old(log) <= log && Did() == old(Did())
      ensures Counter() == if claimed then Claimed(default) else Idle
      ensures !claimed ==> Witnessed(old(log), log, seen) && seen.exec.Some?
    {
      hide Run, Init, Did, Obeys, Reachable;
      Others();
      seen := Now();
      Arrives(start, turns);
      if exec.Some? {
        return false, seen;
      }
      var was := Now();
      exec := Some(me);
      AdvanceLock(Recover(default), Claimed(default), was);
      claimed := true;
    }

    /** Reads the stored configuration and probes admission: a drain owns the recovery policy. */
    method AdmitRecovery(default: AutomationConfig)
      returns (config: Option<AutomationConfig>, ghost seen: World)
      requires Valid() && Counter() == Claimed(default)
      modifies this, store
      ensures Valid() && old(log) <= log && Did() == old(Did())
      ensures Counter() ==
              if config.None? then Idle
              else Recovering(Background(config.value), Loading(config.value.wallet.execute, None))
      ensures Witnessed(old(log), log, seen)
      ensures if config.None? then !seen.gate.Shared? else config.value == ActiveConfig(seen.core.db, default)
    {
      hide Run, Init, Did, Obeys, Reachable;
      Others();
      var was := Now();
      seen := was;
      Arrives(start, turns);
      var active := ActiveConfig(store.Contents(), default);
      if gate.Shared? {
        AdvanceLock(Proceed, Recovering(Background(active), Loading(active.wallet.execute, None)), was);
        config := Some(active);
      } else {
        exec := DropExec(exec, me);
        AdvanceLock(Proceed, Idle, was);
        config := None;
      }
    }

    /** `None` means there was nothing to recover. */
    method RecoverOnce(default: AutomationConfig) returns (entry: Option<Entry>, ghost seen: World)
      requires Valid() && Counter() == Idle
      modifies this, store
      ensures Valid() && old(log) <= log && Did() == old(Did()) && Counter() == Idle
      ensures entry.Some? ==> entry.value.OfRecovery? || entry.value.IsBlocked()
      ensures entry.None? || !entry.value.IsBlocked() ==> Closes(old(log), log)
      ensures entry.Some? && entry.value.IsBlocked() ==>
                Witnessed(old(log), log, seen) && Occupied(seen, entry.value.reason)
    {
      hide *;
      ghost var before := log;
      var claimed;
      claimed, seen := ClaimRecovery(default);
      Blocking();
      if !claimed {
        WhileBusy(seen);
        return Some(Refusal(None, "execution_busy")), seen;
      }
      ghost var middle := log;
      var config;
      config, seen := AdmitRecovery(default);
      Within(before, middle, log, log, seen, me, tape);
      if config.None? {
        WhileDraining(seen);
        return Some(Refusal(None, "configuration_draining")), seen;
      }
      middle := log;
      entry, seen := RecoverUnder(config.value);
      Within(before, middle, log, log, seen, me, tape);
      ClosesSince(before, middle, log);
    }

    /** The recovery itself, under the stored configuration. */
    method RecoverUnder(config: AutomationConfig) returns (entry: Option<Entry>, ghost seen: World)
      requires Valid() && Counter() == Recovering(Background(config), Loading(config.wallet.execute, None))
      modifies this, store
      ensures Valid() && old(log) <= log && Did() == old(Did()) && Counter() == Idle
      ensures entry.Some? ==> entry.value.OfRecovery?
      ensures entry.None? || !entry.value.IsBlocked() ==> Closes(old(log), log)
      ensures entry.Some? && entry.value.IsBlocked() ==>
                Witnessed(old(log), log, seen) && Occupied(seen, entry.value.reason)
    {
      hide *;
      ghost var before := log;
      var result := ReconcileExecution(Background(config), config.wallet.execute, None);
      ghost var settled := log;
      seen := Now();
      StaysPending(this, Background(config), result);
      ResumePurpose(Background(config), result);
      ResumeBackground(store.Contents(), config, result);
      LeaveLocks();
      Within(before, settled, settled, log, seen, me, tape);
      if result.None? {
        StaysClosed(before, settled, log);
        return None, seen;
      }
      entry := Some(OfRecovery(Some(result.value.status), result.value.reason));
      PendingBlocks(entry.value, result.value);
      if result.value.status != Pending {
        StaysClosed(before, settled, log);
      }
    }

    // ---------- configuration changes ----------

    /** Reads the slot and lists the endpoints to drain it on. */
    method StartDrain(target: AutomationConfig) returns (urls: Option<seq<string>>)
      requires Valid() && Counter() == DrainStart(target)
      modifies this, store
      ensures Valid() && old(log) <= log && Did() == old(Did())
      ensures Counter() == if urls.Some? then Draining(target, urls.value) else Publishing(target)
      ensures urls.None? <==> store.pending.None?
    {
      hide Run, Init, RecoveryNext, Did, Obeys, DrainUrls;
      Others();
      var was := Now();
      if store.pending.None? {
        urls := None;
        Advance(Heard(was), Publishing(target), was);
      } else {
        urls := Some(DrainUrls(store.Contents(), target));
        Advance(Heard(was), Draining(target, urls.value), was);
      }
    }

    method TryUrl(target: AutomationConfig, urls: seq<string>)
      requires Valid() && Counter() == Draining(target, urls) && urls != []
      modifies this, store
      ensures Valid() && old(log) <= log && Did() == old(Did())
      ensures Counter() == Recovering(Drain(target, urls[1..]), Loading(target.wallet.execute, Some(urls[0])))
    {
      hide Run, Init, RecoveryNext, Did, Obeys;
      Others();
      var was := Now();
      Advance(Heard(was),
              Recovering(Drain(target, urls[1..]), Loading(target.wallet.execute, Some(urls[0]))), was);
    }

    /** `_drain`: one reconciliation per endpoint until the slot is empty. */
    method DrainPending(target: AutomationConfig)
      requires Valid() && Counter() == DrainStart(target)
      modifies this, store
      ensures Valid() && old(log) <= log && Did() == old(Did())
      ensures Counter() == if store.pending.None? then Publishing(target) else Draining(target, [])
    {
      hide Run, Init, HolderNext, RecoveryNext, DrainUrls, Resume, KnownReason;
      var urls := StartDrain(target);
      if urls.None? {
        return;
      }
      var left := urls.value;
      while left != []
        invariant Valid() && old(log) <= log && Did() == old(Did())
        invariant Counter() == Draining(target, left) && store.pending.Some?
        decreases |left|
      {
        TryUrl(target, left);
        var result := ReconcileExecution(Drain(target, left[1..]), target.wallet.execute, Some(left[0]));
        ResumePurpose(Drain(target, left[1..]), result);
        ResumeDrain(store.Contents(), target, left[1..], result);
        if store.pending.None? {
          return;
        }
        left := left[1..];
      }
    }

    /**
     `_publish` by a manager whose worker runs `own`: the caller's commit may raise, and then nothing is
     stored.
     */
    method Publish(target: AutomationConfig, own: AutomationConfig)
      returns (row: Option<ConfigRow>, ghost seen: World)
      requires Valid() && Counter() == Publishing(target)
      modifies this, store
      ensures Valid() && old(log) <= log && Counter() == Closing
      ensures Did() == old(Did()) + if row.Some? then [StoredRow(row.value)] else []
      ensures row.Some? ==> row.value.config == target && store.row == row && WasPublished(log, row.value)
      ensures row.None? ==> Met(old(log), log, seen, me, tape)
    {
      hide Run, Init, HolderNext, WorkDeed, RecoveryNext, Did, Tables.SaveActiveConfig, Obeys, Reachable, Read, Heeds,
           Met, WasPublished, Working;
      ghost var before := log;
      Others();
      var was := Now();
      seen := was;
      Arrives(start, turns);
      var answer := tape(|log|);
      HeedsPublishing(was, me, tape, own);
      row := None;
      if answer.Plain? && answer.choice.Fault? {
        PublishingNext(was.core, target, answer.choice);
        Advance(answer.choice, Closing, was);
        Within(before, was.log, was.log, log, seen, me, tape);
      } else {
        PublishingNext(was.core, target, Replacing(own));
        SavedRow(store.Contents(), target, ActiveConfig(store.Contents(), own));
        store.SaveActiveConfig(target, ActiveConfig(store.Contents(), own));
        row := store.row;
        Advance(Replacing(own), Closing, was);
        LastPublished(log, row.value, if was.core.db.row.None? then Some(own) else None);
      }
    }

    /**
     `update`: closes admission, then polls for the execution lock, draining each time, until it can
     publish.  `polls` is how often it polls before its caller cancels it.
     */
    method Update(target: AutomationConfig, own: AutomationConfig, polls: nat)
      returns (outcome: UpdateOutcome, row: Option<ConfigRow>, ghost seen: World)
      requires Valid() && Counter() == Idle
      modifies this, store
      ensures Valid() && old(log) <= log && Counter() == Idle
      ensures outcome.Done? <==> row.Some?
      ensures Did() == old(Did()) + if row.Some? then [StoredRow(row.value)] else []
      ensures row.Some? ==> row.value.config == target && WasPublished(log, row.value)
      ensures outcome.Busy? ==> Witnessed(old(log), log, seen) && seen.gate != Shared({})
      ensures outcome.Failure? ==> Met(old(log), log, seen, me, tape)
    {
      hide *;
      ghost var first := log;
      row := None;
      var closed;
      closed, seen := CloseAdmission(target);
      if !closed {
        return Busy, None, seen;
      }
      var left := polls;
      while left > 0
        invariant Valid() && old(log) <= log && Did() == old(Did()) && Counter() == Gated(target)
      {
        var idle := TryExecution(target);
        if idle {
          DrainPending(target);
          if store.pending.None? {
            ghost var middle := log;
            row, seen := Publish(target, own);
            ghost var before := log;
            LeaveLocks();
            StaysLogged(before, log, row);
            Within(first, middle, before, log, seen, me, tape);
            return if row.Some? then Done else Failure, row, seen;
          }
          GiveUpExecution(target);
        }
        left := left - 1;
      }
      Cancel();
      outcome := Cancelled;
    }

    method CloseAdmission(target: AutomationConfig) returns (closed: bool, ghost seen: World)
      requires Valid() && Counter() == Idle
      modifies this, store
      ensures Valid() && old(log) <= log && Did() == old(Did())
      ensures Counter() == if closed then Gated(target) else Idle
      ensures !closed ==> Witnessed(old(log), log, seen) && seen.gate != Shared({})
    {
      hide Run, Init, Did, Obeys, Reachable;
      Others();
      seen := Now();
      Arrives(start, turns);
      if gate != Shared({}) {
        return false, seen;
      }
      var was := Now();
      gate := Exclusive(me);
      AdvanceLock(Protocol.Update(target), Gated(target), was);
      closed := true;
    }

    method TryExecution(target: AutomationConfig) returns (idle: bool)
      requires Valid() && Counter() == Gated(target)
      modifies this, store
      ensures Valid() && old(log) <= log && Did() == old(Did())
      ensures Counter() == if idle then DrainStart(target) else Gated(target)
    {
      hide Run, Init, Did, Obeys;
      Others();
      if exec.Some? {
        return false;
      }
      var was := Now();
      exec := Some(me);
      AdvanceLock(Proceed, DrainStart(target), was);
      idle := true;
    }

    method GiveUpExecution(target: AutomationConfig)
      requires Valid() && Counter() == Draining(target, [])
      modifies this, store
      ensures Valid() && old(log) <= log && Did() == old(Did()) && Counter() == Gated(target)
    {
      hide Run, Init, Did, Obeys;
      Others();
      var was := Now();
      exec := DropExec(exec, me);
      AdvanceLock(Proceed, Gated(target), was);
    }

    /** `_configuration_changed` of a watcher, read without any lock. */
    method ConfigurationChanged(session: Session) returns (changed: bool)
      requires Valid()
      modifies this, store
      ensures Valid() && old(log) <= log && Did() == old(Did()) && Counter() == old(Counter())
      ensures changed <==> !Bound(store.Contents(), session)
    {
      Others();
      hide Run, Init, Next;
      changed := Protocol.ConfigurationChanged(store.Contents(), session);
    }

    method GetCursor(name: string) returns (cursor: Option<int>)
      ensures cursor == CursorIn(store.Contents(), name)
    {
      cursor := if name in store.cursors then Some(store.cursors[name]) else None;
    }

    /** A cursor is written without any lock, and never lowered. */
    method SaveCursor(name: string, cursor: int)
      requires Valid()
      modifies this, store
      ensures Valid() && old(log) <= log && Counter() == old(Counter())
      ensures Did() == old(Did()) + [SavedCursor(name, cursor)]
      ensures name in store.cursors && cursor <= store.cursors[name]
    {
      hide Run, Init, DeedsOf;
      Others();
      ghost var before := turns;
      store.SaveCursor(name, cursor);
      log := log + [Quiet];
      turns := turns + [Cursor(me, name, cursor)];
      RunMore(start, before, Cursor(me, name, cursor));
      DeedsMore(start, before, Cursor(me, name, cursor), me);
    }

    /** What `me` has signed for is in the log. */
    lemma SignedIsInLog(ruleId: string, run: nat)
      requires Valid() && SignedFor(ruleId, run) in Did()
      ensures exists e :: e in log && e.Journaled? && e.run == run && e.ruleId == ruleId
    {
      hide Run, Init, DeedsOf;
      SignedIsLogged(start, turns, me, ruleId, run);
    }

    /** Cancellation, like death, gives the locks back and leaves the database as it is. */
    method Cancel()
      requires Valid()
      modifies this, store
      ensures Valid() && old(log) <= log && Did() == old(Did()) && Counter() == Idle
    {
      hide Run, Init, Did, Obeys;
      Others();
      Perform(Die(me));
    }
  }

  lemma OthersTurn(w: World, t: Turn, me: Pid)
    requires Deeds.Foreign(t, me)
    ensures At(Next(w, t), me) == At(w, me)
  {
  }

  lemma StaysLogged(before: Log, log: Log, row: Option<ConfigRow>)
    requires before <= log
    ensures row.Some? && WasPublished(before, row.value) ==> WasPublished(log, row.value)
  {
  }

  lemma SlotIsFree(w: World, p: Pid)
    requires Reachable(w) && At(w, p).Journaling?
    ensures w.core.db.pending.None?
  {
    hide Reachable, PassOk, Built, Fresh, Standing, Unheld, PhaseOf;
    ReachableHolder(w, p);
  }

  /** What journaling leads to. */
  lemma JournalingNext(c: Core, pass: Pass, price: real, swap: PreparedSwap, origin: Origin, choice: Choice)
    requires pass.rules != []
    ensures var pc := Journaling(pass, price, swap, origin);
            var e := HolderNext(c, pc, choice);
            var begun := Tables.BeginExecution(c.db, pass.rules[0].id, swap, price, PRICE_MOVE, Inputs(pass));
            && Working(pc)
            && (if choice.Fault? || begun.None? then e == Effect(c, Leaving, Quiet) && WorkDeed(pc, e) == []
                else
                  && e.core == c.(db := begun.value)
                  && e.pc == Recovering(AfterSigning(pass), Loading(true, None))
                  && WorkDeed(pc, e) == [SignedFor(pass.rules[0].id, |c.db.runs|)])
  {
    hide Tables.BeginExecution;
  }

  lemma BegunTables(db: Db, ruleId: string, swap: PreparedSwap, next: real, reason: string, details: Details)
    ensures var after := Tables.BeginExecution(db, ruleId, swap, next, reason, details);
            && (db.pending.None? ==> after.Some?)
            && (after.Some? ==>
              && after.value.pending == Some(PendingRow(|db.runs|, swap, next, false))
              && after.value.runs == db.runs + [RunRow(ruleId, Pending, reason, Some(swap.tx), details)])
  {
  }

  /** What sending leads to. */
  lemma SendingNext(w: World, p: Pid, purpose: Purpose, a: Attempt, answer: Answer)
    requires At(w, p) == Recovering(purpose, Sending(a))
    ensures var choice, reply := Read(w, p, answer), ReadReply(answer);
            var e := RecoveryNext(w.core, Sending(a), choice, PolicyOf(purpose));
            var first := !a.execution.broadcastAttempted;
            && choice == reply
            && (if !OnChain(w.core.net, a.swap) || !reply.Answered?
                then e.core == w.core && e.recovery == Noting(a, Raised(choice))
                else
                  && e.core == w.core.(net := Deliver(w.core.net, a.swap.tx, reply.reply, first))
                  && e.recovery == match reply.reply
                                   case Unclear(error) => Noting(a, error)
                                   case Refused(message) => if first then Rejecting(a, message) else SecondLookup(a)
                                   case Accepted => SecondLookup(a))
  {
    hide OnChain, Deliver;
  }

  /** What releasing leads to. */
  lemma ReleasingNext(c: Core, a: Attempt, choice: Choice, policy: Policy)
    ensures var e := RecoveryNext(c, Releasing(a), choice, policy);
            var db := Tables.ReleaseConsumedExecution(c.db, a.execution.run);
            if choice.Fault? || db.None? then e.core == c && e.recovery == Noting(a, Raised(choice))
            else
              && e.core == c.(db := db.value)
              && e.recovery
                 == Settled(Some(Result(a.execution.ruleId, OutcomeUnknown, "nonce_consumed_receipt_missing")))
  {
    hide Tables.ReleaseConsumedExecution;
  }

  /** What resolving leads to. */
  lemma ResolvingNext(c: Core, pass: Pass, run: nat, receipt: Receipt, choice: Choice)
    requires pass.rules != []
    ensures var pc := Resolving(pass, run, receipt);
            var e := HolderNext(c, pc, choice);
            var db := Tables.ResolveUncertainExecution(c.db, run, receipt.success, receipt.message, c.clock);
            && WorkDeed(pc, e) == []
            && (if choice.Fault? || db.None? then e.core == c && e.pc == Skip(pass)
                else e.core == c.(db := db.value) && e.pc == Deciding(pass))
  {
    hide Tables.ResolveUncertainExecution;
  }

  /** What preparing leads to. */
  lemma PreparingNext(c: Core, pass: Pass, price: real, feeBps: int, least: real, choice: Choice)
    requires pass.rules != []
    ensures var pc := Preparing(pass, price, feeBps, least);
            var e := HolderNext(c, pc, choice);
            var swap := if choice.Signed? then Prepare(c, pass, least, choice.nonce, choice.base, choice.chi) else None;
            && e.core == c
            && WorkDeed(pc, e) == []
            && e.pc == (if swap.None? then Reporting(pass, "submission_failed", Raised(choice))
                        else Journaling(pass, price, swap.value,
                                        Origin(pass.rules[0], pass.snapshot, feeBps, choice.base)))
  {
    hide Prepare;
  }

  /** What has been prepared. */
  lemma PreparedIs(c: Core, pass: Pass, least: real, nonce: nat, base: int, chi: nat)
    requires pass.rules != []
    ensures var swap := Prepare(c, pass, least, nonce, base, chi);
            swap.Some? ==>
              && OnChain(c.net, swap.value)
              && !Consumed(c.net, swap.value.tx)
              && pass.session.sender == Some(swap.value.tx.account.sender)
              && BuildSwapExactInCall(pass.session.config, pass.session.sender, pass.snapshot,
                                      pass.rules[0].action, least, base) == Some(swap.value.tx.call)
              && AsTold(pass, swap.value.tx)
  {
    hide BuildSwapExactInCall;
    if pass.session.sender.Some? && pass.session.config.custody.DirectWallet? {
      QuoteLaws.DirectCall(pass.session.config, pass.session.sender.value, pass.snapshot, pass.rules[0].action,
                           least, base);
    }
  }

  /** A publication heeds its answer: unless the commit raises, its manager compares and stores. */
  lemma HeedsPublishing(w: World, p: Pid, tape: nat -> Answer, own: AutomationConfig)
    requires Reachable(w) && At(w, p).Publishing?
    ensures Working(At(w, p))
    ensures var answer := tape(|w.log|);
            if answer.Plain? && answer.choice.Fault?
            then Heeds(w, p, answer, answer.choice) && Met(w.log, w.log, w, p, tape)
            else Heeds(w, p, answer, Replacing(own))
  {
    hide Reachable;
  }

  lemma LastPublished(log: Log, row: ConfigRow, replaced: Option<AutomationConfig>)
    requires log != [] && log[|log| - 1] == Published(row, replaced)
    ensures WasPublished(log, row)
  {
  }

  /** What publishing leads to. */
  lemma PublishingNext(c: Core, target: AutomationConfig, choice: Choice)
    ensures var pc := Publishing(target);
            var e := HolderNext(c, pc, choice);
            && e.pc == Closing
            && (if !choice.Replacing? then e.core == c && WorkDeed(pc, e) == []
                else
                  var db := Tables.SaveActiveConfig(c.db, target, ActiveConfig(c.db, choice.own));
                  && db.row.Some?
                  && e.core == c.(db := db)
                  && e.event == Published(db.row.value, if c.db.row.None? then Some(choice.own) else None)
                  && WorkDeed(pc, e) == [StoredRow(db.row.value)])
  {
  }

  /** What settling a run leads to. */
  lemma ClosingNext(c: Core, r: Recovery, choice: Choice, policy: Policy)
    requires r.Rejecting? || r.Finishing?
    ensures var e, run := RecoveryNext(c, r, choice, policy), r.a.execution.run;
            var db := if r.Rejecting? then Tables.FinishExecution(c.db, run, false, Some(r.message), c.clock)
                      else Tables.FinishExecution(c.db, run, r.receipt.success, r.receipt.message, c.clock);
            if choice.Fault? || db.None? then e.core == c && e.recovery == Noting(r.a, Raised(choice))
            else
              && run < |db.value.runs|
              && e.core == c.(db := db.value)
              && e.recovery
                 == Settled(Some(if r.Rejecting? then Result(r.a.execution.ruleId, Failed, "submission_failed")
                                 else Result(r.a.execution.ruleId, if r.receipt.success then Submitted else Failed,
                                             db.value.runs[run].reason)))
  {
  }

  /** What deciding leads to. */
  lemma DecidingNext(c: Core, pass: Pass, choice: Choice)
    requires pass.rules != []
    ensures var state := GetRuleState(c.db, pass.rules[0].id);
            var decision := EvaluatePriceMove(pass.rules[0], pass.snapshot, state, c.clock);
            var e := HolderNext(c, Deciding(pass), choice);
            && e.core == c
            && WorkDeed(Deciding(pass), e) == [Considered(pass.rules[0].id)]
            && e.pc == if decision.shouldExecute
                       then Quoting(pass, decision.nextBaselinePrice.GetOr(0.0), c.clock)
                       else if decision.nextBaselinePrice.Some?
                       then Initialising(pass, RuleRuntimeState(decision.nextBaselinePrice, state.lastActionAt))
                       else Skip(pass)
  {
    hide EvaluatePriceMove;
  }

  /** What quoting leads to. */
  lemma QuotingNext(c: Core, pass: Pass, price: real, at: int, choice: Choice)
    requires pass.rules != []
    ensures var e := HolderNext(c, Quoting(pass, price, at), choice);
            && e.core == c
            && WorkDeed(Quoting(pass, price, at), e) == []
            && e.pc == if !choice.Priced? || LeastOut(pass, choice.feeBps).None?
                       then Reporting(pass, "quote_failed", Raised(choice))
                       else if pass.session.config.wallet.execute
                       then Preparing(pass, price, choice.feeBps, LeastOut(pass, choice.feeBps).value)
                       else DryState(pass, price, at)
  {
    hide LeastOut;
  }

  /** What the result of a reconciliation means. */
  lemma SettledMeans(w: World, me: Pid, purpose: Purpose, result: Option<Result>)
    requires Reachable(w) && At(w, me) == Recovering(purpose, Settled(result))
    ensures result.Some? ==> KnownReason(result.value)
    ensures result.None? || result.value.status != Pending ==> w.core.db.pending.None? && Closes(w.log, w.log)
  {
    hide Reachable, PurposeOk, Closes;
    ReachableHolder(w, me);
    if w.core.db.pending.None? {
      FreeSlotCloses(w);
    }
  }

  lemma FreeSlotCloses(w: World)
    requires Reachable(w) && w.core.db.pending.None?
    ensures Closes(w.log, w.log)
  {
    EmptySlotCloses(w);
  }

  lemma {:induction false} StaysClosed(before: Log, log: Log, after: Log)
    requires before <= log <= after && Closes(log, log)
    ensures Closes(before, after)
  {
    forall e | e in before && e.Journaled?
      ensures Closed(after, e.run)
    {
      assert e in log;
      assert forall e' :: e' in log ==> e' in after;
    }
  }

  lemma ClosesSince(before: Log, middle: Log, after: Log)
    requires before <= middle
    ensures Closes(middle, after) ==> Closes(before, after)
  {
    hide Closed;
  }

  lemma RunMore(start: World, turns: seq<Turn>, t: Turn)
    ensures Run(start, turns + [t]) == Next(Run(start, turns), t)
  {
    assert (turns + [t])[..|turns + [t]| - 1] == turns;
  }

  lemma LogGrows(w: World, t: Turn)
    ensures w.log <= Next(w, t).log
  {
  }

  lemma SavedRow(db: Db, config: AutomationConfig, previous: AutomationConfig)
    ensures Tables.SaveActiveConfig(db, config, previous).row.Some?
    ensures Tables.SaveActiveConfig(db, config, previous).row.value.config == config
  {
  }

  lemma DecisionReasons(rule: RuleConfig, snapshot: PairSnapshot, state: RuleRuntimeState, now: int)
    ensures RuleReason(EvaluatePriceMove(rule, snapshot, state, now).reason)
    ensures EvaluatePriceMove(rule, snapshot, state, now).shouldExecute ==>
              EvaluatePriceMove(rule, snapshot, state, now).reason == PRICE_MOVE
  {
  }

  lemma Unblocking(status: Option<Status>, reason: string)
    requires status != Some(Pending) && RuleReason(reason)
    ensures !OfRule(status, reason).IsPending() && OwnReason(OfRule(status, reason))
  {
  }

  lemma FixedReasons()
    ensures RuleReason("rule_outcome_unknown") && RuleReason("quote_failed") && RuleReason("submission_failed")
  {
  }

  lemma Appended(entries: seq<Entry>, head: nat, entry: Entry)
    requires Evaluated(entries, head) && head <= |entries| && entry.OfRule? && OwnReason(entry)
    requires forall i :: 0 <= i < |entries| ==> !entries[i].IsPending()
    ensures Evaluated(entries + [entry], head)
  {
  }

  lemma Shaped(entries: seq<Entry>, head: nat, rules: nat)
    requires Evaluated(entries, head) && head <= |entries| <= head + rules
    ensures PassShape(entries, rules)
  {
  }

  lemma NotRefused(entries: seq<Entry>, head: nat)
    requires Evaluated(entries, head)
    ensures !IsRefused(entries)
  {
  }

  lemma WhileDraining(w: World)
    requires !w.gate.Shared?
    ensures Occupied(w, "configuration_draining")
    ensures forall session :: Justifies(w, session, "configuration_draining")
  {
  }

  lemma WhileBusy(w: World)
    ensures w.exec.Some? ==> Occupied(w, "execution_busy")
    ensures w.exec.Some? ==> forall session :: Justifies(w, session, "execution_busy")
  {
  }

  lemma OccupiedJustifies(w: World, session: Session, reason: string)
    ensures Occupied(w, reason) ==> Justifies(w, session, reason)
  {
  }

  lemma WhenChanged(w: World, session: Session)
    ensures !Bound(w.core.db, session) ==> Justifies(w, session, "configuration_changed")
  {
  }

  /** A pending result means a pending swap. */
  lemma StaysPending(host: Host, purpose: Purpose, result: Option<Result>)
    requires host.Valid() && host.Counter() == Recovering(purpose, Settled(result))
    ensures var w := host.Now();
            && Witnessed(host.log, host.log, w)
            && (result.Some? && result.value.status == Pending ==>
                  Occupied(w, "recovery_pending") && Occupied(w, "submission_pending"))
  {
    hide Init, Run, Obeys, PurposeOk, Reachable;
    Arrives(host.start, host.turns);
    ReachableHolder(host.Now(), host.me);
  }

  lemma RefusedShape(entry: Entry, rules: nat, session: Session)
    requires || entry == Refusal(None, "configuration_draining") || entry == Refusal(None, "execution_busy")
             || entry == Refusal(None, "configuration_changed") || entry == Refusal(Some(Pending), "recovery_pending")
    ensures PassShape([entry], rules) && PassEnd([entry], [], session)
  {
  }

  /** After an entry that stays pending the pass ends, with the submission as its last deed. */
  lemma EndsPending(entries: seq<Entry>, head: nat, deeds: seq<Deed>, session: Session)
    requires Evaluated(entries, head) && head < |entries| && entries[|entries| - 1].IsPending()
    requires UpToSigned(deeds, Matching(session))
    ensures PassEnd(entries, deeds, session)
  {
    hide UpToSigned, Matching;
    assert entries[|entries| - 1] in entries && entries[|entries| - 1].OfRule?;
  }

  lemma EndsThrough(entries: seq<Entry>, head: nat, deeds: seq<Deed>, session: Session)
    requires Evaluated(entries, head) && forall i :: 0 <= i < |entries| ==> !entries[i].IsPending()
    requires Through(deeds, Matching(session), session)
    ensures PassEnd(entries, deeds, session)
  {
    hide Through, Matching;
  }

  // ---------- deeds of a pass ----------

  lemma RecoveryIsNoDeed(c: Core, purpose: Purpose, r: Recovery, choice: Choice)
    requires !r.Settled?
    ensures WorkDeed(Recovering(purpose, r), HolderNext(c, Recovering(purpose, r), choice)) == []
  {
  }

  lemma JustVisited(rule: RuleConfig)
    ensures RuleDeeds([Visited(rule, true)], rule)
  {
  }

  lemma ThenConsidered(rule: RuleConfig, found: bool, signed: seq<Deed>)
    requires |signed| <= 1 && (signed != [] ==> signed[0].SignedFor? && signed[0].ruleId == rule.id)
    ensures RuleDeeds([Visited(rule, found)] + [Considered(rule.id)] + signed, rule)
    ensures |[Visited(rule, found)] + [Considered(rule.id)] + signed| == 2 + |signed|
  {
  }

  lemma RecoveredHead(recovered: Option<Result>)
    requires recovered.Some? ==> KnownReason(recovered.value) && recovered.value.status != Pending
    ensures recovered.Some? ==>
              Evaluated([OfRecovery(Some(recovered.value.status), recovered.value.reason)], 1)
    ensures Evaluated([], 0)
  {
  }

  lemma ResumeBeforePass(db: Db, session: Session, result: Option<Result>)
    ensures Resume(db, BeforePass(session), result) ==
            if result.Some? && result.value.status == Pending then Leaving else Observing(session)
  {
  }

  lemma ResumeBackground(db: Db, config: AutomationConfig, result: Option<Result>)
    ensures Resume(db, Background(config), result) == Leaving
  {
  }

  lemma SkipTakesFirst(pass: Pass)
    requires pass.rules != []
    ensures Skip(pass) == NextRule(pass.(rules := pass.rules[1..]))
  {
  }

  lemma PendingBlocks(entry: Entry, result: Result)
    requires KnownReason(result) && entry == OfRecovery(Some(result.status), result.reason)
    ensures entry.IsBlocked() <==> result.status == Pending
    ensures entry.IsBlocked() ==> entry.reason == "submission_pending"
  {
  }

  lemma Blocking()
    ensures Refusal(None, "execution_busy").IsBlocked() && Refusal(None, "configuration_draining").IsBlocked()
  {
  }

  lemma ResumeDrain(db: Db, target: AutomationConfig, rest: seq<string>, result: Option<Result>)
    ensures Resume(db, Drain(target, rest), result) ==
            if db.pending.None? then Publishing(target) else Draining(target, rest)
  {
  }
}
