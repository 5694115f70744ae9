/** From one state of an execution to any later one: how the run log evolves, and what crashes leave. */
module Continuity {
  import opened Wrappers
  import opened Config
  import opened Network
  import opened Tables
  import opened Protocol
  import opened History
  import opened Invariant
  import opened Runs

  // ---------- the run log ----------

  predicate Later(before: Status, after: Status) {
    || before == after
    || (before == Pending && after != DryRun)
    || (before == OutcomeUnknown && (after == Submitted || after == Failed))
  }

  /** Rows stay, keep their rule and transaction, and move only towards an outcome; an outcome is final. */
  ghost predicate Evolves(runs: seq<RunRow>, runs': seq<RunRow>) {
    && |runs| <= |runs'|
    && forall i :: 0 <= i < |runs| ==>
         && runs'[i].ruleId == runs[i].ruleId
         && runs'[i].tx == runs[i].tx
         && Later(runs[i].status, runs'[i].status)
         && (!Unresolved(runs[i]) ==> runs'[i] == runs[i])
  }

  lemma EvolvesNot(runs: seq<RunRow>)
    ensures Evolves(runs, runs)
  {
  }

  lemma EvolvesFurther(runs: seq<RunRow>, runs': seq<RunRow>, runs'': seq<RunRow>)
    requires Evolves(runs, runs') && Evolves(runs', runs'')
    ensures Evolves(runs, runs'')
  {
  }

  /** One row of an unresolved run changes, or rows are added. */
  ghost predicate OneRun(runs: seq<RunRow>, runs': seq<RunRow>) {
    || runs' == runs
    || (exists row :: runs' == runs + [row])
    || (exists i, row :: 0 <= i < |runs| && runs' == runs[i := row] && Unresolved(runs[i])
                         && row.ruleId == runs[i].ruleId && row.tx == runs[i].tx && Later(runs[i].status, row.status))
  }

  lemma OneRunEvolves(runs: seq<RunRow>, runs': seq<RunRow>)
    requires OneRun(runs, runs')
    ensures Evolves(runs, runs')
  {
  }

  lemma RecoveryEvolves(c: Core, r: Recovery, choice: Choice, policy: Policy)
    requires JournalOk(c.db) && !r.Settled?
    ensures OneRun(c.db.runs, RecoveryNext(c, r, choice, policy).core.db.runs)
  {
  }

  lemma HolderEvolves(c: Core, pc: Pc, choice: Choice)
    requires JournalOk(c.db) && Working(pc)
    ensures OneRun(c.db.runs, HolderNext(c, pc, choice).core.db.runs)
  {
    hide RecoveryNext, Decide, Prepare, Resume, UncertainFrom;
    if pc.Recovering? && !pc.recovery.Settled? {
      RecoveryEvolves(c, pc.recovery, choice, PolicyOf(pc.purpose));
    }
  }

  lemma ActEvolves(w: World, p: Pid, choice: Choice)
    requires JournalOk(w.core.db)
    ensures OneRun(w.core.db.runs, Next(w, Act(p, choice)).core.db.runs)
  {
    if Working(At(w, p)) {
      HolderEvolves(w.core, At(w, p), choice);
    }
    hide HolderNext, OneRun, JournalOk;
    assert OneRun(w.core.db.runs, w.core.db.runs) by {
      Unmoved(w.core.db.runs);
    }
  }

  lemma Unmoved(runs: seq<RunRow>)
    ensures OneRun(runs, runs)
  {
  }

  lemma Journal(w: World)
    requires Inv(w)
    ensures JournalOk(w.core.db)
  {
  }

  lemma SurroundingsKeepRuns(w: World, t: Turn)
    requires !t.Act?
    ensures Next(w, t).core.db == w.core.db.(cursors := Next(w, t).core.db.cursors)
  {
  }

  lemma StepEvolves(w: World, t: Turn)
    requires Inv(w)
    ensures Evolves(w.core.db.runs, Next(w, t).core.db.runs)
  {
    hide *;
    Journal(w);
    if t.Act? {
      ActEvolves(w, t.pid, t.choice);
      OneRunEvolves(w.core.db.runs, Next(w, t).core.db.runs);
    } else {
      SurroundingsKeepRuns(w, t);
      EvolvesNot(w.core.db.runs);
    }
  }

  /** The run log only grows, across any number of deaths, drains and reconfigurations. */
  lemma {:induction false} RunsEvolve(w: World, turns: seq<Turn>)
    requires Inv(w)
    ensures Inv(Run(w, turns)) && Evolves(w.core.db.runs, Run(w, turns).core.db.runs)
    decreases |turns|
  {
    hide Inv, Next, Evolves;
    if turns == [] {
      EvolvesNot(w.core.db.runs);
    } else {
      var before := turns[..|turns| - 1];
      RunsEvolve(w, before);
      NextKeeps(Run(w, before), turns[|turns| - 1]);
      StepEvolves(Run(w, before), turns[|turns| - 1]);
      EvolvesFurther(w.core.db.runs, Run(w, before).core.db.runs, Run(w, turns).core.db.runs);
    }
  }

  // ---------- cursors ----------

  ghost predicate CursorKept(db: Db, db': Db, name: string) {
    name in db.cursors ==> name in db'.cursors && db.cursors[name] <= db'.cursors[name]
  }

  /** Since the log had `from` events, every publication was from and for the market of `config`. */
  ghost predicate SameMarket(config: AutomationConfig, log: Log, from: nat) {
    forall k :: from <= k < |log| && log[k].Published? ==>
      && !MarketChanged(config, log[k].row.config)
      && (log[k].replaced.Some? ==> !MarketChanged(config, log[k].replaced.value))
  }

  /** The configuration a publication is compared with: the stored one, or its manager's own. */
  function Replaced(db: Db, e: Event): AutomationConfig
    requires e.Published?
  {
    if db.row.Some? then db.row.value.config else e.replaced.GetOr(e.row.config)
  }

  lemma RecoveryCursors(c: Core, r: Recovery, choice: Choice, policy: Policy)
    requires !r.Settled?
    ensures var db' := RecoveryNext(c, r, choice, policy).core.db; db'.cursors == c.db.cursors && db'.row == c.db.row
  {
  }

  lemma WorkCursors(c: Core, pc: Pc, choice: Choice)
    requires Working(pc) && !pc.Publishing?
    ensures var db' := HolderNext(c, pc, choice).core.db; db'.cursors == c.db.cursors && db'.row == c.db.row
  {
    hide RecoveryNext, Decide, Prepare, Resume, UncertainFrom;
    if pc.Recovering? && !pc.recovery.Settled? {
      RecoveryCursors(c, pc.recovery, choice, PolicyOf(pc.purpose));
    }
  }

  lemma PublishCursors(c: Core, target: AutomationConfig, choice: Choice)
    ensures var e := HolderNext(c, Publishing(target), choice);
            || (e.core.db == c.db && e.event == Quiet)
            || Restored(c.db, e.core.db, e.event)
  {
  }

  /** A publication; the cursors stay unless the market changed. */
  ghost predicate Restored(db: Db, db': Db, e: Event) {
    && e.Published?
    && db'.row == Some(e.row)
    && (e.replaced.Some? <==> db.row.None?)
    && (!MarketChanged(Replaced(db, e), e.row.config) ==> db'.cursors == db.cursors)
  }

  lemma WorkNext(w: World, p: Pid, choice: Choice)
    requires Working(At(w, p))
    ensures var e := HolderNext(w.core, At(w, p), choice);
            Next(w, Act(p, choice)).core == e.core && Next(w, Act(p, choice)).log == w.log + [e.event]
  {
    hide HolderNext, Working;
  }

  lemma WorkKeepsCursors(c: Core, pc: Pc, choice: Choice)
    requires Working(pc)
    ensures var e := HolderNext(c, pc, choice);
            if e.event.Published? then Restored(c.db, e.core.db, e.event)
            else e.core.db.row == c.db.row && e.core.db.cursors == c.db.cursors
  {
    hide Working;
    if pc.Publishing? {
      PublishCursors(c, pc.target, choice);
    } else {
      WorkCursors(c, pc, choice);
      OnlyPublishing(c, pc, choice);
    }
    hide HolderNext, Restored;
  }

  lemma OnlyPublishing(c: Core, pc: Pc, choice: Choice)
    requires Working(pc) && !pc.Publishing?
    ensures !HolderNext(c, pc, choice).event.Published?
  {
    hide RecoveryNext, Decide, Prepare, Resume, UncertainFrom;
    if pc.Recovering? && !pc.recovery.Settled? {
      RecoveryPublishes(c, pc.recovery, choice, PolicyOf(pc.purpose));
    }
  }

  lemma RecoveryPublishes(c: Core, r: Recovery, choice: Choice, policy: Policy)
    requires !r.Settled?
    ensures !RecoveryNext(c, r, choice, policy).event.Published?
  {
  }

  /** One turn adds one event; the stored row and a cursor change only as said. */
  ghost predicate CursorsStep(w: World, w': World, name: string) {
    && w.log < w'.log
    && |w'.log| == |w.log| + 1
    && var e := w'.log[|w.log|];
    && (if e.Published? then
          && w'.core.db.row == Some(e.row)
          && (e.replaced.Some? <==> w.core.db.row.None?)
          && (!MarketChanged(Replaced(w.core.db, e), e.row.config) ==> CursorKept(w.core.db, w'.core.db, name))
        else
          w'.core.db.row == w.core.db.row && CursorKept(w.core.db, w'.core.db, name))
  }

  /**
   A cursor falls only by a publication for another market than that of the stored configuration, or,
   with nothing stored, of the manager's own.
   */
  lemma StepCursors(w: World, t: Turn, name: string)
    ensures CursorsStep(w, Next(w, t), name)
  {
    if t.Act? {
      if Working(At(w, t.pid)) {
        WorkNext(w, t.pid, t.choice);
        WorkKeepsCursors(w.core, At(w, t.pid), t.choice);
      } else {
        hide LockNext;
        LockCore(w, t.pid, t.choice);
      }
    }
    hide HolderNext, Working, MarketChanged;
  }

  /** A cursor never decreases, whoever writes it, while the market stays the same. */
  lemma {:induction false} CursorsGrow(w: World, turns: seq<Turn>, config: AutomationConfig, name: string)
    requires w.core.db.row.Some? ==> !MarketChanged(config, w.core.db.row.value.config)
    requires SameMarket(config, Run(w, turns).log, |w.log|)
    ensures var w' := Run(w, turns);
            && w.log <= w'.log
            && (w'.core.db.row.Some? ==> !MarketChanged(config, w'.core.db.row.value.config))
            && CursorKept(w.core.db, w'.core.db, name)
    decreases |turns|
  {
    if turns != [] {
      var middle := Run(w, turns[..|turns| - 1]);
      hide Next;
      StepCursors(middle, turns[|turns| - 1], name);
      assert SameMarket(config, middle.log, |w.log|) by {
        RunExtends(w, turns[..|turns| - 1]);
      }
      CursorsGrow(w, turns[..|turns| - 1], config, name);
    }
  }

  lemma {:induction false} RunExtends(w: World, turns: seq<Turn>)
    ensures w.log <= Run(w, turns).log
    decreases |turns|
  {
    if turns != [] {
      hide Next;
      RunExtends(w, turns[..|turns| - 1]);
      StepCursors(Run(w, turns[..|turns| - 1]), turns[|turns| - 1], "");
    }
  }

  // ---------- what recovery attempts leave behind ----------

  /** The database without the traces of unfinished recoveries: attempt marker, error note, cursors. */
  function Forgotten(db: Db): Db {
    var quiet := db.(cursors := map[]);
    if db.pending.None? || db.pending.value.run >= |db.runs| then quiet
    else
      var run := db.pending.value.run;
      var details := db.runs[run].details.(recoveryError := None);
      quiet.(runs := db.runs[run := db.runs[run].(details := details)],
             pending := Some(db.pending.value.(broadcastAttempted := false)))
  }

  lemma RecoveryForgets(c: Core, log: Log, r: Recovery, choice: Choice, policy: Policy)
    requires JournalOk(c.db) && !r.Settled?
    requires c.db.pending.Some? && RecoveryNext(c, r, choice, policy).core.db.pending.Some?
    ensures Forgotten(RecoveryNext(c, r, choice, policy).core.db) == Forgotten(c.db)
  {
  }

  lemma HolderForgets(c: Core, log: Log, pc: Pc, choice: Choice)
    requires JournalOk(c.db) && HolderOk(c, log, pc) && Working(pc)
    requires c.db.pending.Some? && HolderNext(c, pc, choice).core.db.pending.Some?
    ensures Forgotten(HolderNext(c, pc, choice).core.db) == Forgotten(c.db)
  {
    if pc.Recovering? && !pc.recovery.Settled? {
      RecoveryForgets(c, log, pc.recovery, choice, PolicyOf(pc.purpose));
    }
  }

  lemma LockCore(w: World, p: Pid, choice: Choice)
    requires !Working(At(w, p))
    ensures Next(w, Act(p, choice)).core == w.core
  {
  }

  lemma ActForgets(w: World, p: Pid, choice: Choice)
    requires Inv(w)
    requires w.core.db.pending.Some? && Next(w, Act(p, choice)).core.db.pending.Some?
    ensures Forgotten(Next(w, Act(p, choice)).core.db) == Forgotten(w.core.db)
  {
    hide Inv, Next, HolderNext, Forgotten;
    if Working(At(w, p)) {
      HolderKnows(w, p);
      WorkCore(w, p, choice);
      HolderForgets(w.core, w.log, At(w, p), choice);
    } else {
      LockCore(w, p, choice);
    }
  }

  lemma StepForgets(w: World, t: Turn)
    requires Inv(w)
    requires w.core.db.pending.Some? && Next(w, t).core.db.pending.Some?
    ensures Forgotten(Next(w, t).core.db) == Forgotten(w.core.db)
  {
    hide Next, Inv;
    if t.Act? {
      ActForgets(w, t.pid, t.choice);
    } else {
      SurroundingsKeepRuns(w, t);
    }
  }

  /** A run that owns the slot before and after owned it in between. */
  lemma OwnedBetween(db: Db, db': Db, db'': Db, run: nat)
    requires JournalOk(db) && JournalOk(db') && JournalOk(db'')
    requires Evolves(db.runs, db'.runs) && Evolves(db'.runs, db''.runs)
    requires OwnsSlot(db, run) && OwnsSlot(db'', run)
    ensures OwnsSlot(db', run)
  {
    assert db'.runs[run].status == Pending;
  }

  /** One more turn under which the run keeps the slot. */
  lemma TurnForgets(w: World, mid: World, last: Turn, run: nat)
    requires Inv(w) && Inv(mid) && Evolves(w.core.db.runs, mid.core.db.runs)
    requires OwnsSlot(w.core.db, run) && OwnsSlot(Next(mid, last).core.db, run)
    ensures OwnsSlot(mid.core.db, run)
    ensures Forgotten(Next(mid, last).core.db) == Forgotten(mid.core.db)
  {
    hide Inv, Next, Forgotten, Evolves, JournalOk;
    StepEvolves(mid, last);
    NextKeeps(mid, last);
    Journal(w);
    Journal(mid);
    Journal(Next(mid, last));
    OwnedBetween(w.core.db, mid.core.db, Next(mid, last).core.db, run);
    StepForgets(mid, last);
  }

  /** While a run stays in the slot, whatever happens leaves the same database behind. */
  lemma {:induction false} RunForgets(w: World, turns: seq<Turn>, run: nat)
    requires Inv(w)
    requires OwnsSlot(w.core.db, run) && OwnsSlot(Run(w, turns).core.db, run)
    ensures Forgotten(Run(w, turns).core.db) == Forgotten(w.core.db)
    decreases |turns|
  {
    hide Inv, Next, Forgotten, Evolves, OwnsSlot;
    if turns != [] {
      var before := turns[..|turns| - 1];
      RunsEvolve(w, before);
      TurnForgets(w, Run(w, before), turns[|turns| - 1], run);
      RunForgets(w, before, run);
    }
  }

  lemma FinishForgets(db: Db, db': Db, run: nat, success: bool, error: Option<string>, now: int)
    requires Forgotten(db) == Forgotten(db') && OwnsSlot(db, run) && OwnsSlot(db', run)
    ensures var done := FinishExecution(db, run, success, error, now);
            var done' := FinishExecution(db', run, success, error, now);
            done.Some? && done'.Some? && done'.value.(cursors := map[]) == done.value.(cursors := map[])
  {
    assert Forgotten(db).runs[run] == Forgotten(db').runs[run];
    var row := Settle(db.runs[run], success, if success then db.runs[run].reason else "submission_failed", error);
    assert db.runs[run := row] == Forgotten(db).runs[run := row];
    assert db'.runs[run := row] == Forgotten(db').runs[run := row];
  }

  // ---------- crash transparency ----------

  /**
   Let a run own the slot at `w`, and let anything happen, any number of deaths and recoveries by any
   process included, until some process records its receipt.  The database is then the one a single
   pass would have left by recording that receipt at `w`; only the time differs, and the cursors.
   */
  lemma CrashTransparent(w: World, turns: seq<Turn>, p: Pid, choice: Choice, run: nat)
    requires Reachable(w) && OwnsSlot(w.core.db, run) && OwnsSlot(Run(w, turns).core.db, run)
    requires At(Run(w, turns), p).Recovering? && At(Run(w, turns), p).recovery.Finishing?
    requires !OwnsSlot(Next(Run(w, turns), Act(p, choice)).core.db, run)
    ensures var before := Run(w, turns);
            var tx := w.core.db.pending.value.swap.tx;
            && tx in before.core.net.receipts
            && var receipt := before.core.net.receipts[tx];
            && var once := FinishExecution(w.core.db, run, receipt.success, receipt.message, before.core.clock);
            && once.Some?
            && Next(before, Act(p, choice)).core.db.(cursors := map[]) == once.value.(cursors := map[])
  {
    ReachableIsSafe(w);
    var before := Run(w, turns);
    RunsEvolve(w, turns);
    RunForgets(w, turns, run);
    hide Run, Evolves;
    FinishingTurn(before, p, choice);
    var receipt := At(before, p).recovery.receipt;
    assert Forgotten(before.core.db).pending == Forgotten(w.core.db).pending;
    hide Inv, Next, Reachable;
    FinishForgets(w.core.db, before.core.db, run, receipt.success, receipt.message, before.core.clock);
  }

  lemma WorkCore(w: World, p: Pid, choice: Choice)
    requires Working(At(w, p))
    ensures Next(w, Act(p, choice)).core == HolderNext(w.core, At(w, p), choice).core
  {
  }

  lemma HolderKnows(w: World, p: Pid)
    requires Inv(w) && Working(At(w, p))
    ensures JournalOk(w.core.db) && HolderOk(w.core, w.log, At(w, p))
  {
    WorkLocks(w, p, Proceed);
    hide LocksOk, Lawful, JournalOk, HolderOk;
  }

  lemma FinisherKnows(c: Core, log: Log, purpose: Purpose, a: Attempt, receipt: Receipt)
    requires HolderOk(c, log, Recovering(purpose, Finishing(a, receipt)))
    ensures AttemptOk(c.db, a, PolicyOf(purpose))
    ensures a.swap.tx in c.net.receipts && c.net.receipts[a.swap.tx] == receipt
  {
  }

  lemma FinishingNext(c: Core, purpose: Purpose, a: Attempt, receipt: Receipt, choice: Choice)
    requires AttemptOk(c.db, a, PolicyOf(purpose))
    ensures var db' := HolderNext(c, Recovering(purpose, Finishing(a, receipt)), choice).core.db;
            OwnsSlot(db', a.execution.run)
            || FinishExecution(c.db, a.execution.run, receipt.success, receipt.message, c.clock) == Some(db')
  {
  }

  /** A turn that records a receipt. */
  lemma FinishingTurn(w: World, p: Pid, choice: Choice)
    requires Inv(w) && At(w, p).Recovering? && At(w, p).recovery.Finishing?
    requires w.core.db.pending.Some?
    requires !OwnsSlot(Next(w, Act(p, choice)).core.db, w.core.db.pending.value.run)
    ensures var tx := w.core.db.pending.value.swap.tx;
            && tx in w.core.net.receipts
            && var receipt := w.core.net.receipts[tx];
            && receipt == At(w, p).recovery.receipt
            && FinishExecution(w.core.db, w.core.db.pending.value.run, receipt.success, receipt.message, w.core.clock)
               == Some(Next(w, Act(p, choice)).core.db)
  {
    var pc := At(w, p);
    HolderKnows(w, p);
    WorkCore(w, p, choice);
    hide Inv, HolderOk, Next, HolderNext, FinishExecution, PolicyOf;
    FinisherKnows(w.core, w.log, pc.purpose, pc.recovery.a, pc.recovery.receipt);
    FinishingNext(w.core, pc.purpose, pc.recovery.a, pc.recovery.receipt, choice);
  }
}
