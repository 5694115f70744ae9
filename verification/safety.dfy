/** Every step of every process keeps the invariant, and so does every execution. */
module Safety {
  import opened Wrappers
  import opened Config
  import opened Network
  import opened Dex
  import opened Rules
  import opened Tables
  import opened Protocol
  import opened History
  import opened Invariant
  import opened JournalSafety

  // ---------- recovery ----------

  ghost predicate RecoveryStepOk(c: Core, log: Log, policy: Policy, e: RecoveryEffect) {
    && Law(log, e.event)
    && CoreOk(e.core, log + [e.event])
    && RecoveryOk(e.core, log + [e.event], e.recovery, policy)
    && e.core.db.row == c.db.row
  }

  lemma RecoveryGrows(c: Core, log: Log, r: Recovery, policy: Policy, e: Event)
    requires RecoveryOk(c, log, r, policy) && !e.Sent?
    ensures RecoveryOk(c, log + [e], r, policy)
  {
    Kept(log, e);
  }

  /** A step that changes only the program counter. */
  lemma QuietRecovery(c: Core, log: Log, r: Recovery, policy: Policy)
    requires CoreOk(c, log) && RecoveryOk(c, log, r, policy)
    ensures RecoveryStepOk(c, log, policy, RecoveryEffect(c, r, Quiet))
  {
    hide CoreOk, RecoveryOk;
    PlainKeeps(c, log, Quiet);
    RecoveryGrows(c, log, r, policy, Quiet);
  }

  /** Loading, lookups and nonce reads: only the program counter moves. */
  lemma ReadShape(c: Core, log: Log, r: Recovery, choice: Choice, policy: Policy)
    requires r.Loading? || r.FirstLookup? || r.NonceCheck? || r.SecondLookup?
    requires JournalOk(c.db) && RecoveryOk(c, log, r, policy)
    ensures var e := RecoveryNext(c, r, choice, policy);
            e.core == c && e.event == Quiet && RecoveryOk(c, log, e.recovery, policy)
  {
  }

  lemma ReadStep(c: Core, log: Log, r: Recovery, choice: Choice, policy: Policy)
    requires r.Loading? || r.FirstLookup? || r.NonceCheck? || r.SecondLookup?
    requires CoreOk(c, log) && RecoveryOk(c, log, r, policy)
    ensures RecoveryStepOk(c, log, policy, RecoveryNext(c, r, choice, policy))
  {
    ReadShape(c, log, r, choice, policy);
    hide RecoveryNext, CoreOk, RecoveryOk, RecoveryStepOk;
    var e := RecoveryNext(c, r, choice, policy);
    assert e == RecoveryEffect(c, e.recovery, Quiet);
    QuietRecovery(c, log, e.recovery, policy);
  }

  lemma ReleasingShape(c: Core, log: Log, a: Attempt, choice: Choice, policy: Policy)
    requires JournalOk(c.db) && RecoveryOk(c, log, Releasing(a), policy)
    ensures var e := RecoveryNext(c, Releasing(a), choice, policy);
            if e.event == Quiet then e.core == c && RecoveryOk(c, log, e.recovery, policy)
            else
              && a.execution.run < |e.core.db.runs|
              && var row := e.core.db.runs[a.execution.run];
              && SlotLeft(c.db, e.core.db, row)
              && row.status == OutcomeUnknown
              && e.core == c.(db := e.core.db)
              && e.core.db == c.db.(runs := e.core.db.runs,
                                    pending := None,
                                    uncertain := c.db.uncertain[c.db.pending.value.run := c.db.pending.value.swap])
              && c.db.pending.value.broadcastAttempted
              && Consumed(c.net, c.db.pending.value.swap.tx)
              && e.event == Held(c.db.pending.value.run, row.ruleId, c.db.pending.value.swap.tx)
              && RecoveryOk(e.core, log + [e.event], e.recovery, policy)
  {
  }

  lemma ReleasingStep(c: Core, log: Log, a: Attempt, choice: Choice, policy: Policy)
    requires CoreOk(c, log) && RecoveryOk(c, log, Releasing(a), policy)
    ensures RecoveryStepOk(c, log, policy, RecoveryNext(c, Releasing(a), choice, policy))
  {
    ReleasingShape(c, log, a, choice, policy);
    hide RecoveryNext, CoreOk, Law, RecoveryOk, SlotLeft, Consumed, FirstRefused, SentInTheOpen;
    var e := RecoveryNext(c, Releasing(a), choice, policy);
    if e.event == Quiet {
      hide RecoveryStepOk;
      assert e == RecoveryEffect(c, e.recovery, Quiet);
      QuietRecovery(c, log, e.recovery, policy);
    } else {
      ReleaseKeeps(c, log, e.core.db, e.core.db.runs[a.execution.run]);
    }
  }

  lemma MarkingShape(c: Core, log: Log, a: Attempt, choice: Choice, policy: Policy)
    requires JournalOk(c.db) && LedgerOk(c.db, log) && NonceOk(c.db, c.net, log)
    requires RecoveryOk(c, log, Marking(a), policy)
    ensures var e := RecoveryNext(c, Marking(a), choice, policy);
            if e.event == Quiet then e.core == c && RecoveryOk(c, log, e.recovery, policy)
            else
              && c.db.pending.Some?
              && e.core == c.(db := MarkedDb(c.db))
              && e.event == Marked(c.db.pending.value.run)
              && RecoveryOk(e.core, log + [e.event], e.recovery, policy)
  {
    var e := RecoveryNext(c, Marking(a), choice, policy);
    if e.event != Quiet && !a.execution.broadcastAttempted {
      NotSentYet(c.db, c.net, log);
      Kept(log, e.event);
    }
  }

  /** Nothing of an unmarked execution was ever sent. */
  lemma NotSentYet(db: Db, net: Net, log: Log)
    requires JournalOk(db) && LedgerOk(db, log) && NonceOk(db, net, log)
    requires db.pending.Some? && !db.pending.value.broadcastAttempted
    ensures !WasSent(log, db.pending.value.run) && db.pending.value.swap.tx !in net.live
  {
    forall e | e in log && e.Sent?
      ensures e.run != db.pending.value.run
    {
      assert Evidence(db, Marked(e.run));
    }
  }

  lemma MarkingStep(c: Core, log: Log, a: Attempt, choice: Choice, policy: Policy)
    requires CoreOk(c, log) && RecoveryOk(c, log, Marking(a), policy)
    ensures RecoveryStepOk(c, log, policy, RecoveryNext(c, Marking(a), choice, policy))
  {
    MarkingShape(c, log, a, choice, policy);
    hide RecoveryNext, CoreOk, Law, RecoveryOk;
    var e := RecoveryNext(c, Marking(a), choice, policy);
    if e.event == Quiet {
      hide RecoveryStepOk;
      assert e == RecoveryEffect(c, e.recovery, Quiet);
      QuietRecovery(c, log, e.recovery, policy);
    } else {
      MarkKeeps(c, log);
    }
  }

  lemma SendingShape(c: Core, log: Log, a: Attempt, choice: Choice, policy: Policy)
    requires RecoveryOk(c, log, Sending(a), policy)
    requires policy.Stored? && c.db.row.Some? ==> c.db.row.value.config == policy.config
    ensures var e := RecoveryNext(c, Sending(a), choice, policy);
            if e.event == Quiet then e.core == c && RecoveryOk(c, log, e.recovery, policy)
            else
              && SendOk(c.db, c.net, log, e.event)
              && e.core == c.(net := SentNet(c.net, e.event))
              && RecoveryOk(e.core, log + [e.event], e.recovery, policy)
  {
    var e := RecoveryNext(c, Sending(a), choice, policy);
    if e.event != Quiet {
      Kept(log, e.event);
      assert e.event in log + [e.event];
      assert e.core == c.(net := SentNet(c.net, e.event));
    }
  }

  lemma SendingStep(c: Core, log: Log, a: Attempt, choice: Choice, policy: Policy)
    requires CoreOk(c, log) && RecoveryOk(c, log, Sending(a), policy)
    requires policy.Stored? && c.db.row.Some? ==> c.db.row.value.config == policy.config
    ensures RecoveryStepOk(c, log, policy, RecoveryNext(c, Sending(a), choice, policy))
  {
    SendingShape(c, log, a, choice, policy);
    hide RecoveryNext, CoreOk, Law, RecoveryOk;
    var e := RecoveryNext(c, Sending(a), choice, policy);
    if e.event == Quiet {
      hide RecoveryStepOk;
      assert e == RecoveryEffect(c, e.recovery, Quiet);
      QuietRecovery(c, log, e.recovery, policy);
    } else {
      SendKeeps(c, log, e.event);
    }
  }

  lemma RejectingShape(c: Core, log: Log, a: Attempt, message: string, choice: Choice, policy: Policy)
    requires JournalOk(c.db) && RecoveryOk(c, log, Rejecting(a, message), policy)
    ensures var e := RecoveryNext(c, Rejecting(a, message), choice, policy);
            if e.event == Quiet then e.core == c && RecoveryOk(c, log, e.recovery, policy)
            else
              && a.execution.run < |e.core.db.runs|
              && var row := e.core.db.runs[a.execution.run];
              && SlotLeft(c.db, e.core.db, row)
              && row.status == Failed
              && e.core == c.(db := e.core.db)
              && e.core.db == c.db.(runs := e.core.db.runs, pending := None)
              && c.db.pending.value.swap.tx !in c.net.live
              && FirstRefused(log, c.db.pending.value.run)
              && !SentInTheOpen(log, c.db.pending.value.run)
              && e.event == Dismissed(c.db.pending.value.run)
              && RecoveryOk(e.core, log + [e.event], e.recovery, policy)
  {
  }

  lemma RejectingStep(c: Core, log: Log, a: Attempt, message: string, choice: Choice, policy: Policy)
    requires CoreOk(c, log) && RecoveryOk(c, log, Rejecting(a, message), policy)
    ensures RecoveryStepOk(c, log, policy, RecoveryNext(c, Rejecting(a, message), choice, policy))
  {
    RejectingShape(c, log, a, message, choice, policy);
    hide RecoveryNext, CoreOk, Law, RecoveryOk, SlotLeft, Consumed, FirstRefused, SentInTheOpen;
    var e := RecoveryNext(c, Rejecting(a, message), choice, policy);
    if e.event == Quiet {
      hide RecoveryStepOk;
      assert e == RecoveryEffect(c, e.recovery, Quiet);
      QuietRecovery(c, log, e.recovery, policy);
    } else {
      DismissKeeps(c, log, e.core.db, e.core.db.runs[a.execution.run]);
    }
  }

  lemma FinishingShape(c: Core, log: Log, a: Attempt, receipt: Receipt, choice: Choice, policy: Policy)
    requires JournalOk(c.db) && RecoveryOk(c, log, Finishing(a, receipt), policy)
    ensures var e := RecoveryNext(c, Finishing(a, receipt), choice, policy);
            if e.event == Quiet then e.core == c && RecoveryOk(c, log, e.recovery, policy)
            else
              && a.execution.run < |e.core.db.runs|
              && var row := e.core.db.runs[a.execution.run];
              && SlotLeft(c.db, e.core.db, row)
              && row.status == (if receipt.success then Submitted else Failed)
              && e.core == c.(db := e.core.db)
              && e.core.db == c.db.(runs := e.core.db.runs, pending := None, ruleState := e.core.db.ruleState)
              && e.core.db.ruleState ==
                 (if receipt.success
                  then c.db.ruleState[row.ruleId :=
                         RuleRuntimeState(Some(c.db.pending.value.nextBaselinePrice), Some(c.clock))]
                  else c.db.ruleState)
              && c.db.pending.value.swap.tx in c.net.receipts
              && c.net.receipts[c.db.pending.value.swap.tx] == receipt
              && e.event == Finished(c.db.pending.value.run, row.ruleId, c.db.pending.value.swap.tx,
                                     receipt.success, c.clock)
              && RecoveryOk(e.core, log + [e.event], e.recovery, policy)
  {
  }

  lemma FinishingStep(c: Core, log: Log, a: Attempt, receipt: Receipt, choice: Choice, policy: Policy)
    requires CoreOk(c, log) && RecoveryOk(c, log, Finishing(a, receipt), policy)
    ensures RecoveryStepOk(c, log, policy, RecoveryNext(c, Finishing(a, receipt), choice, policy))
  {
    FinishingShape(c, log, a, receipt, choice, policy);
    hide RecoveryNext, CoreOk, Law, RecoveryOk, SlotLeft;
    var e := RecoveryNext(c, Finishing(a, receipt), choice, policy);
    if e.event == Quiet {
      hide RecoveryStepOk;
      assert e == RecoveryEffect(c, e.recovery, Quiet);
      QuietRecovery(c, log, e.recovery, policy);
    } else {
      FinishKeeps(c, log, e.core.db, e.core.db.runs[a.execution.run], receipt);
    }
  }

  lemma NotingShape(c: Core, a: Attempt, error: string, choice: Choice, policy: Policy)
    ensures var e := RecoveryNext(c, Noting(a, error), choice, policy);
            && e.event == Quiet
            && e.core == c.(db := e.core.db)
            && SameRuns(c.db, e.core.db)
            && e.core.db.pending == c.db.pending
            && e.recovery.Settled?
            && e.recovery.result.Some?
            && e.recovery.result.value.status == Pending
            && KnownReason(e.recovery.result.value)
  {
  }

  lemma NotesPending(c: Core, log: Log, a: Attempt, error: string, policy: Policy)
    requires RecoveryOk(c, log, Noting(a, error), policy)
    ensures c.db.pending.Some?
  {
  }

  lemma NotingStep(c: Core, log: Log, a: Attempt, error: string, choice: Choice, policy: Policy)
    requires CoreOk(c, log) && c.db.pending.Some?
    ensures RecoveryStepOk(c, log, policy, RecoveryNext(c, Noting(a, error), choice, policy))
  {
    NotingShape(c, a, error, choice, policy);
    hide RecoveryNext, CoreOk;
    SameKeeps(c, log, RecoveryNext(c, Noting(a, error), choice, policy).core.db);
  }

  lemma RecoveryStep(c: Core, log: Log, r: Recovery, choice: Choice, policy: Policy)
    requires !r.Settled?
    requires CoreOk(c, log) && RecoveryOk(c, log, r, policy)
    requires policy.Stored? && c.db.row.Some? ==> c.db.row.value.config == policy.config
    ensures RecoveryStepOk(c, log, policy, RecoveryNext(c, r, choice, policy))
  {
    hide CoreOk, RecoveryOk, RecoveryStepOk, RecoveryNext;
    match r
    case Loading(_, _) => ReadStep(c, log, r, choice, policy);
    case FirstLookup(_) => ReadStep(c, log, r, choice, policy);
    case NonceCheck(_) => ReadStep(c, log, r, choice, policy);
    case Releasing(a) => ReleasingStep(c, log, a, choice, policy);
    case Marking(a) => MarkingStep(c, log, a, choice, policy);
    case Sending(a) => SendingStep(c, log, a, choice, policy);
    case Rejecting(a, message) => RejectingStep(c, log, a, message, choice, policy);
    case SecondLookup(_) => ReadStep(c, log, r, choice, policy);
    case Finishing(a, receipt) => FinishingStep(c, log, a, receipt, choice, policy);
    case Noting(a, error) =>
      NotesPending(c, log, a, error, policy);
      NotingStep(c, log, a, error, choice, policy);
  }

  // ---------- the lock holder ----------

  ghost predicate StepOk(log: Log, e: Effect) {
    && Law(log, e.event)
    && CoreOk(e.core, log + [e.event])
    && HolderOk(e.core, log + [e.event], e.pc)
  }

  lemma PassGrows(db: Db, db': Db, log: Log, pass: Pass, e: Event)
    requires PassOk(db, log, pass) && db'.row == db.row
    ensures PassOk(db', log + [e], pass)
  {
  }

  lemma PurposeGrows(db: Db, db': Db, log: Log, purpose: Purpose, e: Event)
    requires PurposeOk(db, log, purpose) && db'.row == db.row
    ensures PurposeOk(db', log + [e], purpose)
  {
  }

  lemma HolderGrows(c: Core, log: Log, pc: Pc)
    requires HolderOk(c, log, pc)
    ensures HolderOk(c, log + [Quiet], pc)
  {
    Extended(log, Quiet);
    Kept(log, Quiet);
    StandsStill(log, Quiet);
    if pc.Recovering? {
      RecoveryGrows(c, log, pc.recovery, PolicyOf(pc.purpose), Quiet);
    }
  }

  /** A step that changes only the program counter. */
  lemma QuietStep(c: Core, log: Log, pc: Pc)
    requires CoreOk(c, log) && HolderOk(c, log, pc)
    ensures StepOk(log, Effect(c, pc, Quiet))
  {
    hide CoreOk, HolderOk;
    PlainKeeps(c, log, Quiet);
    HolderGrows(c, log, pc);
  }

  lemma RecoveringParts(c: Core, log: Log, purpose: Purpose, r: Recovery)
    ensures HolderOk(c, log, Recovering(purpose, r))
            <==> PurposeOk(c.db, log, purpose) && RecoveryOk(c, log, r, PolicyOf(purpose))
  {
    hide PurposeOk, RecoveryOk, PolicyOf;
  }

  lemma RecoveredStep(c: Core, log: Log, purpose: Purpose, e: RecoveryEffect)
    requires RecoveryStepOk(c, log, PolicyOf(purpose), e) && PurposeOk(c.db, log, purpose)
    ensures StepOk(log, Effect(e.core, Recovering(purpose, e.recovery), e.event))
  {
    hide CoreOk, RecoveryOk, PurposeOk, PolicyOf, Law, HolderOk;
    PurposeGrows(c.db, e.core.db, log, purpose, e.event);
    RecoveringParts(e.core, log + [e.event], purpose, e.recovery);
  }

  lemma RecoveringStep(c: Core, log: Log, pc: Pc, choice: Choice)
    requires Working(pc) && pc.Recovering? && !pc.recovery.Settled?
    requires CoreOk(c, log) && HolderOk(c, log, pc)
    ensures StepOk(log, HolderNext(c, pc, choice))
  {
    hide *;
    var purpose, r := pc.purpose, pc.recovery;
    RecoveringParts(c, log, purpose, r);
    GovernedByStored(c.db, log, purpose);
    RecoveringNext(c, purpose, r, choice);
    RecoveryStep(c, log, r, choice, PolicyOf(purpose));
    RecoveredStep(c, log, purpose, RecoveryNext(c, r, choice, PolicyOf(purpose)));
  }

  lemma RecoveringNext(c: Core, purpose: Purpose, r: Recovery, choice: Choice)
    requires !r.Settled?
    ensures var e := RecoveryNext(c, r, choice, PolicyOf(purpose));
            HolderNext(c, Recovering(purpose, r), choice) == Effect(e.core, Recovering(purpose, e.recovery), e.event)
  {
    hide RecoveryNext;
  }

  lemma GovernedByStored(db: Db, log: Log, purpose: Purpose)
    requires PurposeOk(db, log, purpose)
    ensures PolicyOf(purpose).Stored? && db.row.Some? ==> db.row.value.config == PolicyOf(purpose).config
  {
  }

  lemma ResumeShape(c: Core, log: Log, purpose: Purpose, result: Option<Result>)
    requires PurposeOk(c.db, log, purpose) && RecoveryOk(c, log, Settled(result), PolicyOf(purpose))
    ensures HolderOk(c, log, Resume(c.db, purpose, result))
  {
  }

  lemma CheckingShape(c: Core, log: Log, s: Session, choice: Choice)
    ensures var e := HolderNext(c, Checking(s), choice);
            e.core == c && e.event == Quiet && HolderOk(c, log, e.pc)
  {
  }

  lemma ObservingShape(c: Core, log: Log, s: Session, choice: Choice)
    requires HolderOk(c, log, Observing(s)) && RowOk(c.db, log)
    ensures var e := HolderNext(c, Observing(s), choice);
            && e.core == c
            && (e.event.Quiet? || e.event.Observed?)
            && Law(log, e.event)
            && HolderOk(c, log + [e.event], e.pc)
  {
    var e := HolderNext(c, Observing(s), choice);
    assert e.event in log + [e.event];
  }

  lemma ObservingStep(c: Core, log: Log, s: Session, choice: Choice)
    requires CoreOk(c, log) && HolderOk(c, log, Observing(s))
    ensures StepOk(log, HolderNext(c, Observing(s), choice))
  {
    ObservingShape(c, log, s, choice);
    hide CoreOk, HolderOk, HolderNext, Law;
    PlainKeeps(c, log, HolderNext(c, Observing(s), choice).event);
  }

  /** Moving from one rule or endpoint to the next, looking for held runs. */
  predicate Moving(pc: Pc) {
    pc.NextRule? || pc.HeldLookup? || pc.DrainStart? || pc.Draining?
  }

  lemma MovingShape(c: Core, log: Log, pc: Pc, choice: Choice)
    requires Working(pc) && Moving(pc)
    requires HolderOk(c, log, pc)
    ensures var e := HolderNext(c, pc, choice);
            e.core == c && e.event == Quiet && HolderOk(c, log, e.pc)
  {
    if pc.NextRule? && pc.pass.rules != [] {
      UnheldFrom(c.db, pc.pass.rules[0].id);
    }
  }

  lemma UnheldFrom(db: Db, ruleId: string)
    ensures UncertainFrom(db, ruleId, 0).None? ==> Unheld(db, ruleId)
  {
  }

  lemma MovingStep(c: Core, log: Log, pc: Pc, choice: Choice)
    requires Working(pc) && Moving(pc)
    requires CoreOk(c, log) && HolderOk(c, log, pc)
    ensures StepOk(log, HolderNext(c, pc, choice))
  {
    MovingShape(c, log, pc, choice);
    hide CoreOk, HolderOk, HolderNext;
    var e := HolderNext(c, pc, choice);
    assert e == Effect(c, e.pc, Quiet);
    QuietStep(c, log, e.pc);
  }

  // ---------- steps of a pass that ask ----------

  lemma ActingGrows(db: Db, log: Log, pass: Pass, price: real, e: Event)
    requires ActingOk(db, log, pass, price) && (e.Quiet? || e.Quoted? || e.Dated?)
    ensures ActingOk(db, log + [e], pass, price)
  {
    PassGrows(db, db, log, pass, e);
    Extended(log, e);
    hide PassOk, Unheld, PhaseOf;
  }

  lemma QuotingShape(c: Core, log: Log, pc: Pc, choice: Choice)
    requires Working(pc) && pc.Quoting? && HolderOk(c, log, pc)
    ensures var e := HolderNext(c, pc, choice);
            e.core == c && (e.event.Quiet? || e.event.Quoted?) && HolderOk(c, log + [e.event], e.pc)
  {
    hide LeastOut;
    var e := HolderNext(c, pc, choice).event;
    ActingGrows(c.db, log, pc.pass, pc.price, e);
    StandsStill(log, e);
    assert e in log + [e];
    hide PassOk, Unheld, Stands, PhaseOf;
  }

  lemma PreparingShape(c: Core, log: Log, pc: Pc, choice: Choice)
    requires Working(pc) && pc.Preparing?
    requires NonceOk(c.db, c.net, log) && JournalOk(c.db) && HolderOk(c, log, pc)
    ensures var e := HolderNext(c, pc, choice);
            e.core == c && (e.event.Quiet? || e.event.Dated?) && HolderOk(c, log + [e.event], e.pc)
  {
    hide *;
    var pass, e := pc.pass, HolderNext(c, pc, choice).event;
    PreparingNext(c, pc, choice);
    PreparingIn(c, log, pc);
    ActingGrows(c.db, log, pass, pc.price, e);
    StandsStill(log, e);
    if choice.Signed? && Prepare(c, pass, pc.least, choice.nonce, choice.base, choice.chi).Some? {
      PreparedIsBuilt(c, log, pc, choice);
      PreparedIsFresh(c, log, pc, choice);
      var swap := Prepare(c, pass, pc.least, choice.nonce, choice.base, choice.chi).value;
      ReadyToWrite(c, log + [e], pass, pc.price, swap,
                   Origin(pass.rules[0], pass.snapshot, pc.feeBps, choice.base));
    } else {
      ReadyToReport(c, log + [e], pass, pc.price, "submission_failed", Raised(choice));
    }
  }

  lemma PreparingNext(c: Core, pc: Pc, choice: Choice)
    requires Working(pc) && pc.Preparing?
    ensures var pass := pc.pass;
            var swap := if choice.Signed?
                        then Prepare(c, pass, pc.least, choice.nonce, choice.base, choice.chi) else None;
            HolderNext(c, pc, choice) ==
            if swap.None? then Effect(c, Reporting(pass, "submission_failed", Raised(choice)), Quiet)
            else
              Effect(c, Journaling(pass, pc.price, swap.value,
                                   Origin(pass.rules[0], pass.snapshot, pc.feeBps, choice.base)),
                     Dated(swap.value.tx, choice.base))
  {
    hide Prepare, Raised;
  }

  lemma PreparingIn(c: Core, log: Log, pc: Pc)
    requires Working(pc) && pc.Preparing? && HolderOk(c, log, pc)
    ensures ActingOk(c.db, log, pc.pass, pc.price) && pc.pass.rules != []
    ensures Standing(log, pc.pass.rules[0].id, pc.pass.rules[0].trigger.cooldownSeconds)
    ensures LeastOut(pc.pass, pc.feeBps) == Some(pc.least) && pc.pass.session.config.wallet.execute
    ensures Quoted(pc.pass.rules[0].id, pc.pass.snapshot, pc.feeBps) in log
  {
    hide PassOk, Unheld, PhaseOf, Standing, LeastOut;
  }

  lemma ReadyToReport(c: Core, log: Log, pass: Pass, price: real, reason: string, error: string)
    requires ActingOk(c.db, log, pass, price)
    ensures HolderOk(c, log, Reporting(pass, reason, error))
  {
    hide PassOk, Unheld, PhaseOf;
  }

  lemma ReadyToWrite(c: Core, log: Log, pass: Pass, price: real, swap: PreparedSwap, origin: Origin)
    requires pass.rules != [] && ActingOk(c.db, log, pass, price)
    requires Standing(log, pass.rules[0].id, pass.rules[0].trigger.cooldownSeconds)
    requires pass.session.config.wallet.execute
    requires origin.rule == pass.rules[0] && origin.snapshot == pass.snapshot
    requires Built(log, RowOf(pass.session), origin, swap.tx) && Fresh(c.db, c.net, log, swap.tx)
    ensures HolderOk(c, log, Journaling(pass, price, swap, origin))
  {
    hide ActingOk, Standing, Built, Fresh;
  }

  lemma PreparedIsBuilt(c: Core, log: Log, pc: Pc, choice: Choice)
    requires Working(pc) && pc.Preparing? && HolderOk(c, log, pc)
    requires choice.Signed? && Prepare(c, pc.pass, pc.least, choice.nonce, choice.base, choice.chi).Some?
    ensures var tx := Prepare(c, pc.pass, pc.least, choice.nonce, choice.base, choice.chi).value.tx;
            var origin := Origin(pc.pass.rules[0], pc.pass.snapshot, pc.feeBps, choice.base);
            Built(log + [Dated(tx, choice.base)], RowOf(pc.pass.session), origin, tx)
  {
    hide BuildSwapExactInCall, QuoteExactIn, MinimumAllowed;
    var pass := pc.pass;
    var tx := Prepare(c, pass, pc.least, choice.nonce, choice.base, choice.chi).value.tx;
    assert pass.rules[0] in pass.rules;
    assert Dated(tx, choice.base) in log + [Dated(tx, choice.base)];
    assert SwapCall(pass.session.config, pass.session.sender, pass.snapshot, pass.rules[0].action,
                    pc.feeBps, choice.base) == Some(tx.call);
  }

  lemma PreparedIsFresh(c: Core, log: Log, pc: Pc, choice: Choice)
    requires Working(pc) && pc.Preparing? && HolderOk(c, log, pc)
    requires NonceOk(c.db, c.net, log) && JournalOk(c.db)
    requires choice.Signed? && Prepare(c, pc.pass, pc.least, choice.nonce, choice.base, choice.chi).Some?
    ensures var tx := Prepare(c, pc.pass, pc.least, choice.nonce, choice.base, choice.chi).value.tx;
            Fresh(c.db, c.net, log + [Dated(tx, choice.base)], tx)
  {
    hide BuildSwapExactInCall, LeastOut, PassOk;
    var tx := Prepare(c, pc.pass, pc.least, choice.nonce, choice.base, choice.chi).value.tx;
    Kept(log, Dated(tx, choice.base));
  }

  /** Quoting and preparing: the answer is put on record. */
  predicate Asking(pc: Pc) {
    pc.Quoting? || pc.Preparing?
  }

  lemma AskingStep(c: Core, log: Log, pc: Pc, choice: Choice)
    requires Working(pc) && Asking(pc)
    requires CoreOk(c, log) && HolderOk(c, log, pc)
    ensures StepOk(log, HolderNext(c, pc, choice))
  {
    hide CoreOk, HolderOk, HolderNext, Law, Working;
    var e := HolderNext(c, pc, choice);
    if pc.Quoting? {
      QuotingShape(c, log, pc, choice);
    } else {
      CoreParts(c, log);
      PreparingShape(c, log, pc, choice);
    }
    PlainLaw(log, e.event);
    PlainKeeps(c, log, e.event);
  }

  lemma PlainLaw(log: Log, e: Event)
    requires e.Quiet? || e.Quoted? || e.Dated?
    ensures Law(log, e)
  {
  }

  // ---------- steps of a pass that write ----------

  lemma ResolvingShape(c: Core, log: Log, pass: Pass, run: nat, receipt: Receipt, choice: Choice)
    requires JournalOk(c.db) && HolderOk(c, log, Resolving(pass, run, receipt))
    ensures var e := HolderNext(c, Resolving(pass, run, receipt), choice);
            if e.event == Quiet then e.core == c && HolderOk(c, log, e.pc)
            else
              && run < |e.core.db.runs|
              && var row := e.core.db.runs[run];
              && RunResolved(c.db, e.core.db, run, row, c.clock)
              && row.tx.value in c.net.receipts
              && row.status == (if c.net.receipts[row.tx.value].success then Submitted else Failed)
              && e.core == c.(db := e.core.db)
              && e.event == Recovered(run, row.ruleId, row.tx.value, row.status == Submitted, c.clock)
              && (Unheld(e.core.db, row.ruleId) ==> HolderOk(e.core, log + [e.event], e.pc))
  {
    PassGrows(c.db, c.db, log, pass, HolderNext(c, Resolving(pass, run, receipt), choice).event);
  }

  lemma ResolvingStep(c: Core, log: Log, pass: Pass, run: nat, receipt: Receipt, choice: Choice)
    requires pass.rules != []
    requires CoreOk(c, log) && HolderOk(c, log, Resolving(pass, run, receipt))
    ensures StepOk(log, HolderNext(c, Resolving(pass, run, receipt), choice))
  {
    ResolvingShape(c, log, pass, run, receipt, choice);
    hide CoreOk, HolderOk, HolderNext, Law, RunResolved;
    var e := HolderNext(c, Resolving(pass, run, receipt), choice);
    if e.event == Quiet {
      assert e == Effect(c, e.pc, Quiet);
      QuietStep(c, log, e.pc);
    } else {
      ResolveKeeps(c, log, e.core.db, run, e.core.db.runs[run]);
    }
  }

  lemma DecidingLaw(c: Core, log: Log, pass: Pass)
    requires pass.rules != [] && Unheld(c.db, pass.rules[0].id) && Decide(c, pass).shouldExecute
    requires ActionsOk(c.db.ruleState, c.clock, log) && PhaseOk(c.db, log)
    ensures Law(log, Decided(pass.rules[0].id, c.clock, pass.rules[0].trigger.cooldownSeconds))
    ensures PhaseOf(log, pass.rules[0].id) == Clear
    ensures Cooled(log, pass.rules[0].id, c.clock, pass.rules[0].trigger.cooldownSeconds)
  {
    var rule := pass.rules[0];
    var state := GetRuleState(c.db, rule.id);
    assert state.baselinePrice.Some?;
    forall e | e in log && ActionOf(e, rule.id)
      ensures c.clock >= e.at
      ensures rule.trigger.cooldownSeconds > 0 ==> c.clock >= e.at + rule.trigger.cooldownSeconds * SECOND
    {
      assert rule.id in c.db.ruleState && state == c.db.ruleState[rule.id];
      assert !Cooling(rule.trigger, state.lastActionAt, c.clock);
    }
  }

  /** What a decision leads to. */
  lemma DecidingNext(c: Core, pc: Pc, choice: Choice)
    requires Working(pc) && pc.Deciding?
    ensures var pass, d := pc.pass, Decide(c, pc.pass);
            HolderNext(c, pc, choice) ==
            if d.shouldExecute then
              Effect(c, Quoting(pass, d.nextBaselinePrice.GetOr(0.0), c.clock),
                     Decided(pass.rules[0].id, c.clock, pass.rules[0].trigger.cooldownSeconds))
            else if d.nextBaselinePrice.None? then Effect(c, Skip(pass), Quiet)
            else
              var last := GetRuleState(c.db, pass.rules[0].id).lastActionAt;
              Effect(c, Initialising(pass, RuleRuntimeState(d.nextBaselinePrice, last)), Quiet)
  {
    hide Decide, GetRuleState;
  }

  /** A baseline is the price of the snapshot, and an action is decided no earlier than the last one. */
  lemma DecidedOn(c: Core, pass: Pass)
    requires pass.rules != []
    ensures var d := Decide(c, pass);
            && (d.shouldExecute ==> d.nextBaselinePrice.Some?)
            && (d.nextBaselinePrice.Some? ==> d.nextBaselinePrice == pass.snapshot.Price())
  {
  }

  lemma DecidingShape(c: Core, log: Log, pc: Pc, choice: Choice)
    requires Working(pc) && pc.Deciding?
    requires ActionsOk(c.db.ruleState, c.clock, log) && HolderOk(c, log, pc)
    requires Decide(c, pc.pass).shouldExecute ==>
               && PhaseOf(log, pc.pass.rules[0].id) == Clear
               && Cooled(log, pc.pass.rules[0].id, c.clock, pc.pass.rules[0].trigger.cooldownSeconds)
    ensures var e := HolderNext(c, pc, choice);
            && e.core == c
            && HolderOk(c, log + [e.event], e.pc)
            && e.event == if Decide(c, pc.pass).shouldExecute
                          then Decided(pc.pass.rules[0].id, c.clock, pc.pass.rules[0].trigger.cooldownSeconds)
                          else Quiet
  {
    hide *;
    var pass, log' := pc.pass, log + [HolderNext(c, pc, choice).event];
    DecidesUnheld(c, log, pc);
    DecidingNext(c, pc, choice);
    DecidedOn(c, pass);
    PassGrows(c.db, c.db, log, pass, HolderNext(c, pc, choice).event);
    if Decide(c, pass).shouldExecute {
      ReadyToQuote(c, log, pass);
    } else if Decide(c, pass).nextBaselinePrice.None? {
      ReadyToSkip(c, log', pass);
    } else {
      ReadyToInitialise(c, log', pass);
    }
  }

  lemma ReadyToSkip(c: Core, log: Log, pass: Pass)
    requires PassOk(c.db, log, pass) && c.db.pending.None? && pass.rules != []
    ensures HolderOk(c, log, Skip(pass))
  {
  }

  lemma ReadyToInitialise(c: Core, log: Log, pass: Pass)
    requires PassOk(c.db, log, pass) && c.db.pending.None? && pass.rules != []
    requires Unheld(c.db, pass.rules[0].id) && pass.snapshot.Price().Some?
    ensures var last := GetRuleState(c.db, pass.rules[0].id).lastActionAt;
            HolderOk(c, log, Initialising(pass, RuleRuntimeState(pass.snapshot.Price(), last)))
  {
    hide PassOk, Unheld, GetRuleState;
  }

  lemma ReadyToQuote(c: Core, log: Log, pass: Pass)
    requires pass.rules != [] && c.db.pending.None? && Unheld(c.db, pass.rules[0].id)
    requires Decide(c, pass).shouldExecute && ActionsOk(c.db.ruleState, c.clock, log)
    requires PhaseOf(log, pass.rules[0].id) == Clear
    requires Cooled(log, pass.rules[0].id, c.clock, pass.rules[0].trigger.cooldownSeconds)
    requires var e := Decided(pass.rules[0].id, c.clock, pass.rules[0].trigger.cooldownSeconds);
             PassOk(c.db, log + [e], pass)
    ensures var e := Decided(pass.rules[0].id, c.clock, pass.rules[0].trigger.cooldownSeconds);
            HolderOk(c, log + [e], Quoting(pass, Decide(c, pass).nextBaselinePrice.GetOr(0.0), c.clock))
  {
    var e := Decided(pass.rules[0].id, c.clock, pass.rules[0].trigger.cooldownSeconds);
    DecidedOn(c, pass);
    hide PassOk, Unheld, PhaseOf, Decide, Cooled;
    Extended(log, e);
    StandsStill(log, e);
    assert e in log + [e];
  }

  lemma DecidingEvent(c: Core, log: Log, pc: Pc)
    requires Working(pc) && pc.Deciding? && pc.pass.rules != [] && CoreOk(c, log) && HolderOk(c, log, pc)
    ensures Decide(c, pc.pass).shouldExecute ==>
              && PhaseOf(log, pc.pass.rules[0].id) == Clear
              && Cooled(log, pc.pass.rules[0].id, c.clock, pc.pass.rules[0].trigger.cooldownSeconds)
              && Law(log, Decided(pc.pass.rules[0].id, c.clock, pc.pass.rules[0].trigger.cooldownSeconds))
    ensures ActionsOk(c.db.ruleState, c.clock, log)
  {
    hide *;
    CoreParts(c, log);
    DecidesUnheld(c, log, pc);
    if Decide(c, pc.pass).shouldExecute {
      DecidingLaw(c, log, pc.pass);
    }
  }

  lemma DecidesUnheld(c: Core, log: Log, pc: Pc)
    requires Working(pc) && pc.Deciding? && HolderOk(c, log, pc)
    ensures PassOk(c.db, log, pc.pass) && c.db.pending.None? && pc.pass.rules != []
    ensures Unheld(c.db, pc.pass.rules[0].id)
  {
    hide PassOk, Unheld;
  }

  lemma DecidingStep(c: Core, log: Log, pc: Pc, choice: Choice)
    requires Working(pc) && pc.Deciding? && pc.pass.rules != []
    requires CoreOk(c, log) && HolderOk(c, log, pc)
    ensures StepOk(log, HolderNext(c, pc, choice))
  {
    hide *;
    DecidingEvent(c, log, pc);
    DecidingShape(c, log, pc, choice);
    QuietLaw(log);
    PlainKeeps(c, log, HolderNext(c, pc, choice).event);
    StepWhole(log, HolderNext(c, pc, choice));
  }

  lemma StepWhole(log: Log, e: Effect)
    requires Law(log, e.event) && CoreOk(e.core, log + [e.event]) && HolderOk(e.core, log + [e.event], e.pc)
    ensures StepOk(log, e)
  {
    hide Law, CoreOk, HolderOk;
  }

  lemma InitialisingShape(c: Core, log: Log, pass: Pass, state: RuleRuntimeState, choice: Choice)
    requires pass.rules != [] && HolderOk(c, log, Initialising(pass, state))
    ensures var e := HolderNext(c, Initialising(pass, state), choice);
            && HolderOk(e.core, log + [e.event], e.pc)
            && (if e.event == Quiet then e.core == c
                else e.event == Initialised(pass.rules[0].id)
                     && e.core == c.(db := SaveRuleState(c.db, pass.rules[0].id, state)))
  {
    var e := HolderNext(c, Initialising(pass, state), choice);
    PassGrows(c.db, e.core.db, log, pass, e.event);
  }

  lemma InitialisingStep(c: Core, log: Log, pass: Pass, state: RuleRuntimeState, choice: Choice)
    requires pass.rules != []
    requires CoreOk(c, log) && HolderOk(c, log, Initialising(pass, state))
    ensures StepOk(log, HolderNext(c, Initialising(pass, state), choice))
  {
    InitialisingShape(c, log, pass, state, choice);
    hide CoreOk, HolderOk, HolderNext;
    if HolderNext(c, Initialising(pass, state), choice).event == Quiet {
      PlainKeeps(c, log, Quiet);
    } else {
      InitialiseKeeps(c, log, pass, state);
    }
  }

  lemma ReportingShape(c: Core, log: Log, pc: Pc, choice: Choice)
    requires Working(pc) && (pc.Reporting? || pc.DryReport?) && HolderOk(c, log, pc)
    ensures var e := HolderNext(c, pc, choice);
            && e.event == Quiet
            && e.core == c.(db := e.core.db)
            && SameRuns(c.db, e.core.db)
            && HolderOk(e.core, log + [Quiet], e.pc)
  {
    PassGrows(c.db, HolderNext(c, pc, choice).core.db, log, pc.pass, Quiet);
  }

  lemma ReportingStep(c: Core, log: Log, pc: Pc, choice: Choice)
    requires Working(pc) && (pc.Reporting? || pc.DryReport?)
    requires CoreOk(c, log) && HolderOk(c, log, pc)
    ensures StepOk(log, HolderNext(c, pc, choice))
  {
    ReportingShape(c, log, pc, choice);
    hide CoreOk, HolderOk, HolderNext, SameRuns;
    SameKeeps(c, log, HolderNext(c, pc, choice).core.db);
  }

  lemma DryStateShape(c: Core, log: Log, pass: Pass, price: real, at: int, choice: Choice)
    requires pass.rules != [] && HolderOk(c, log, DryState(pass, price, at))
    ensures var e := HolderNext(c, DryState(pass, price, at), choice);
            && HolderOk(e.core, log + [e.event], e.pc)
            && (if e.event == Quiet then e.core == c
                else e.event == DryRan(pass.rules[0].id, at)
                     && e.core == c.(db := SaveRuleState(c.db, pass.rules[0].id,
                                                         RuleRuntimeState(Some(price), Some(at)))))
  {
    var e := HolderNext(c, DryState(pass, price, at), choice);
    PassGrows(c.db, e.core.db, log, pass, e.event);
  }

  lemma DryStateStep(c: Core, log: Log, pass: Pass, price: real, at: int, choice: Choice)
    requires pass.rules != []
    requires CoreOk(c, log) && HolderOk(c, log, DryState(pass, price, at))
    ensures StepOk(log, HolderNext(c, DryState(pass, price, at), choice))
  {
    DryStateShape(c, log, pass, price, at, choice);
    hide CoreOk, HolderOk, HolderNext, Law;
    if HolderNext(c, DryState(pass, price, at), choice).event == Quiet {
      QuietLaw(log);
      PlainKeeps(c, log, Quiet);
    } else {
      DryKeeps(c, log, pass, price, at);
    }
  }

  lemma QuietLaw(log: Log)
    ensures Law(log, Quiet)
  {
  }

  lemma JournalingShape(c: Core, log: Log, pc: Pc, choice: Choice)
    requires Working(pc) && pc.Journaling? && HolderOk(c, log, pc)
    ensures var e := HolderNext(c, pc, choice);
            && HolderOk(e.core, log + [e.event], e.pc)
            && (if e.event == Quiet then e.core == c
                else
                  && e.core == c.(db := e.core.db)
                  && |e.core.db.runs| == |c.db.runs| + 1
                  && RunBegun(c.db, e.core.db, pc.pass.rules[0].id, pc.swap, pc.price, e.core.db.runs[|c.db.runs|])
                  && e.core.db.runs[|c.db.runs|].details.snapshot == pc.pass.snapshot
                  && e.event == Journaled(|c.db.runs|, pc.pass.rules[0].id, pc.swap.tx, RowOf(pc.pass.session),
                                          pc.origin))
  {
    hide Built, Fresh, Standing, PhaseOf, Unheld;
    var e := HolderNext(c, pc, choice);
    PassGrows(c.db, e.core.db, log, pc.pass, e.event);
  }

  lemma ReadyToJournal(c: Core, log: Log, pc: Pc)
    requires Working(pc) && pc.Journaling? && HolderOk(c, log, pc)
    ensures ActingOk(c.db, log, pc.pass, pc.price)
    ensures Standing(log, pc.pass.rules[0].id, pc.pass.rules[0].trigger.cooldownSeconds)
    ensures pc.pass.session.config.wallet.execute && Fresh(c.db, c.net, log, pc.swap.tx)
    ensures pc.origin.rule == pc.pass.rules[0] && pc.origin.snapshot == pc.pass.snapshot
    ensures Built(log, RowOf(pc.pass.session), pc.origin, pc.swap.tx)
  {
    hide Built, Fresh, Standing, ActingOk;
  }

  lemma JournalingStep(c: Core, log: Log, pc: Pc, choice: Choice)
    requires Working(pc) && pc.Journaling?
    requires CoreOk(c, log) && HolderOk(c, log, pc)
    ensures StepOk(log, HolderNext(c, pc, choice))
  {
    hide CoreOk, HolderOk, HolderNext, Law, ActingOk, Fresh, RunBegun, Built, Standing;
    JournalingShape(c, log, pc, choice);
    ReadyToJournal(c, log, pc);
    var e := HolderNext(c, pc, choice);
    if e.event == Quiet {
      QuietLaw(log);
      PlainKeeps(c, log, Quiet);
    } else {
      BeginKeeps(c, log, e.core.db, pc.pass, pc.price, pc.swap, pc.origin, e.core.db.runs[|c.db.runs|]);
    }
  }

  lemma PublishingShape(c: Core, log: Log, target: AutomationConfig, choice: Choice)
    requires HolderOk(c, log, Publishing(target))
    ensures var e := HolderNext(c, Publishing(target), choice);
            && c.db.pending.None?
            && HolderOk(e.core, log + [e.event], e.pc)
            && (if e.event == Quiet then e.core == c
                else
                  && choice.Replacing?
                  && e.core == c.(db := SaveActiveConfig(c.db, target, ActiveConfig(c.db, choice.own)))
                  && e.event == PublishedEvent(c.db, target, choice.own))
  {
  }

  lemma PublishingStep(c: Core, log: Log, pc: Pc, choice: Choice)
    requires Working(pc) && pc.Publishing?
    requires CoreOk(c, log) && HolderOk(c, log, pc)
    ensures StepOk(log, HolderNext(c, pc, choice))
  {
    hide CoreOk, HolderOk, HolderNext, Law, SaveActiveConfig, ActiveConfig;
    PublishingShape(c, log, pc.target, choice);
    if HolderNext(c, pc, choice).event == Quiet {
      QuietLaw(log);
      PlainKeeps(c, log, Quiet);
    } else {
      PublishKeeps(c, log, pc.target, choice.own);
    }
  }

  lemma ResumingShape(c: Core, log: Log, purpose: Purpose, result: Option<Result>, choice: Choice)
    requires HolderOk(c, log, Recovering(purpose, Settled(result)))
    ensures var e := HolderNext(c, Recovering(purpose, Settled(result)), choice);
            e.core == c && e.event == Quiet && HolderOk(c, log, e.pc)
  {
    ResumeShape(c, log, purpose, result);
  }

  lemma ResumingStep(c: Core, log: Log, pc: Pc, choice: Choice)
    requires Working(pc) && pc.Recovering? && pc.recovery.Settled?
    requires CoreOk(c, log) && HolderOk(c, log, pc)
    ensures StepOk(log, HolderNext(c, pc, choice))
  {
    hide CoreOk, HolderOk, HolderNext, StepOk, Working;
    ResumingShape(c, log, pc.purpose, pc.recovery.result, choice);
    var e := HolderNext(c, pc, choice);
    assert e == Effect(c, e.pc, Quiet);
    QuietStep(c, log, e.pc);
  }

  lemma HolderStep(c: Core, log: Log, pc: Pc, choice: Choice)
    requires Working(pc)
    requires CoreOk(c, log) && HolderOk(c, log, pc)
    ensures StepOk(log, HolderNext(c, pc, choice))
  {
    hide CoreOk, HolderOk, StepOk, HolderNext;
    match pc
    case Checking(s) =>
      CheckingShape(c, log, s, choice);
      var e := HolderNext(c, pc, choice);
      assert e == Effect(c, e.pc, Quiet);
      QuietStep(c, log, e.pc);
    case Recovering(_, r) =>
      if r.Settled? {
        ResumingStep(c, log, pc, choice);
      } else {
        RecoveringStep(c, log, pc, choice);
      }
    case Observing(s) => ObservingStep(c, log, s, choice);
    case NextRule(_) => MovingStep(c, log, pc, choice);
    case HeldLookup(_, _) => MovingStep(c, log, pc, choice);
    case Resolving(pass, run, receipt) => ResolvingStep(c, log, pass, run, receipt, choice);
    case Deciding(_) => DecidingStep(c, log, pc, choice);
    case Initialising(pass, state) => InitialisingStep(c, log, pass, state, choice);
    case Quoting(_, _, _) => AskingStep(c, log, pc, choice);
    case Reporting(_, _, _) => ReportingStep(c, log, pc, choice);
    case DryState(pass, price, at) => DryStateStep(c, log, pass, price, at, choice);
    case DryReport(_) => ReportingStep(c, log, pc, choice);
    case Preparing(_, _, _, _) => AskingStep(c, log, pc, choice);
    case Journaling(_, _, _, _) => JournalingStep(c, log, pc, choice);
    case DrainStart(_) => MovingStep(c, log, pc, choice);
    case Draining(_, _) => MovingStep(c, log, pc, choice);
    case Publishing(_) => PublishingStep(c, log, pc, choice);
  }
}
