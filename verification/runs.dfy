/** The invariant along whole executions: any number of processes, in any order, with any failures. */
module Runs {
  import opened Wrappers
  import opened Network
  import opened Tables
  import opened Protocol
  import opened History
  import opened Invariant
  import opened JournalSafety
  import opened Surroundings
  import opened Safety

  // ---------- the holder while others move ----------

  /** The net only gained commits, none of them of an account the holder is about to use unshared. */
  ghost predicate NetGrew(db: Db, net: Net, net': Net) {
    && net'.live == net.live
    && (forall t :: Consumed(net, t) ==> Consumed(net', t))
    && (forall t :: t in net.receipts ==> t in net'.receipts && net'.receipts[t] == net.receipts[t])
    && (db.pending.None? ==>
          forall t: Tx :: t.account !in net'.shared ==>
            t.account !in net.shared && (Consumed(net', t) ==> Consumed(net, t)))
  }

  lemma HolderUnderNet(c: Core, log: Log, pc: Pc, net': Net, e: Event)
    requires HolderOk(c, log, pc) && NetGrew(c.db, c.net, net')
    requires e.Quiet? || e.Committed? || e.Outside?
    ensures HolderOk(c.(net := net'), log + [e], pc)
  {
    Extended(log, e);
    Kept(log, e);
    StandsStill(log, e);
    match pc
    case Recovering(purpose, r) =>
      PurposeGrows(c.db, c.db, log, purpose, e);
      RecoveryUnderNet(c, log, r, PolicyOf(purpose), net', e);
    case _ =>
  }

  lemma RecoveryUnderNet(c: Core, log: Log, r: Recovery, policy: Policy, net': Net, e: Event)
    requires RecoveryOk(c, log, r, policy) && NetGrew(c.db, c.net, net')
    requires e.Quiet? || e.Committed? || e.Outside?
    ensures RecoveryOk(c.(net := net'), log + [e], r, policy)
  {
    RecoveryGrows(c, log, r, policy, e);
  }

  lemma MoveGrows(c: Core, log: Log, s: Shift)
    requires NonceOk(c.db, c.net, log) && ReceiptOk(c.db, c.net, log)
    ensures NetGrew(c.db, c.net, Move(c.net, s))
  {
  }

  lemma HolderUnderTick(c: Core, log: Log, pc: Pc, elapsed: nat)
    requires HolderOk(c, log, pc)
    ensures HolderOk(c.(clock := c.clock + elapsed), log, pc)
  {
  }

  lemma HolderUnderCursor(c: Core, log: Log, pc: Pc, name: string, cursor: int)
    requires HolderOk(c, log, pc)
    ensures HolderOk(c.(db := SaveCursor(c.db, name, cursor)), log, pc)
  {
    assert HeldRules(SaveCursor(c.db, name, cursor)) == HeldRules(c.db);
  }

  // ---------- locks ----------

  /** A step under the execution lock keeps every lock its process holds. */
  lemma HolderKeepsLocks(c: Core, pc: Pc, choice: Choice)
    requires Working(pc)
    ensures var pc' := HolderNext(c, pc, choice).pc;
            HoldsExec(pc) && HoldsExec(pc') && HoldsGate(pc') == HoldsGate(pc) && !pc.Admitted? && !pc'.Admitted?
  {
  }

  lemma WorkLocks(w: World, p: Pid, choice: Choice)
    requires LocksOk(w) && Working(At(w, p))
    ensures w.exec == Some(p) && LocksOk(Next(w, Act(p, choice)))
  {
    HolderKeepsLocks(w.core, At(w, p), choice);
    var w' := Next(w, Act(p, choice));
    assert forall q: Pid :: At(w', q) == if q == p then HolderNext(w.core, At(w, p), choice).pc else At(w, q);
    hide HolderNext;
  }

  ghost predicate Untouched(w: World, w': World, q: Pid) {
    && At(w', q) == At(w, q)
    && (w'.exec == Some(q) <==> w.exec == Some(q))
    && (w'.gate == Exclusive(q) <==> w.gate == Exclusive(q))
    && (w'.gate.Shared? && q in w'.gate.readers <==> w.gate.Shared? && q in w.gate.readers)
  }

  /** Only `p` moved, and the locks of nobody else did. */
  ghost predicate OnlyMoved(w: World, w': World, p: Pid) {
    forall q: Pid :: q != p ==> Untouched(w, w', q)
  }

  ghost predicate LocksOf(w: World, p: Pid) {
    && (HoldsExec(At(w, p)) <==> w.exec == Some(p))
    && (HoldsGate(At(w, p)) <==> w.gate == Exclusive(p))
    && (At(w, p).Admitted? <==> w.gate.Shared? && p in w.gate.readers)
  }

  lemma LocksPointwise(w: World)
    ensures LocksOk(w) <==> forall p: Pid :: LocksOf(w, p)
  {
    hide HoldsExec, HoldsGate, At;
    if forall p: Pid :: LocksOf(w, p) {
      forall p: Pid
        ensures HoldsExec(At(w, p)) <==> w.exec == Some(p)
        ensures HoldsGate(At(w, p)) <==> w.gate == Exclusive(p)
        ensures At(w, p).Admitted? <==> w.gate.Shared? && p in w.gate.readers
      {
        assert LocksOf(w, p);
      }
    }
  }

  lemma MovedLocks(w: World, w': World, p: Pid)
    requires LocksOk(w) && OnlyMoved(w, w', p) && LocksOf(w', p)
    ensures LocksOk(w')
  {
    hide HoldsExec, HoldsGate, At, LocksOk;
    LocksPointwise(w);
    forall q: Pid
      ensures LocksOf(w', q)
    {
      assert LocksOf(w, q) && (q != p ==> Untouched(w, w', q));
    }
    LocksPointwise(w');
  }

  lemma LockSpares(w: World, p: Pid, choice: Choice, q: Pid)
    requires q != p
    ensures Untouched(w, LockNext(w, p, choice), q)
  {
  }

  lemma LockMoves(w: World, p: Pid, choice: Choice)
    ensures OnlyMoved(w, LockNext(w, p, choice), p)
  {
    hide LockNext;
    forall q: Pid | q != p
      ensures Untouched(w, LockNext(w, p, choice), q)
    {
      LockSpares(w, p, choice, q);
    }
  }

  lemma LockFits(w: World, p: Pid, choice: Choice)
    requires LocksOf(w, p) && !Working(At(w, p))
    ensures LocksOf(LockNext(w, p, choice), p)
  {
  }

  lemma LockLocks(w: World, p: Pid, choice: Choice)
    requires LocksOk(w) && !Working(At(w, p))
    ensures LocksOk(LockNext(w, p, choice))
  {
    hide *;
    LocksPointwise(w);
    LockMoves(w, p, choice);
    LockFits(w, p, choice);
    MovedLocks(w, LockNext(w, p, choice), p);
  }

  lemma DieLocks(w: World, p: Pid)
    requires LocksOk(w)
    ensures LocksOk(Next(w, Die(p)))
  {
    LocksPointwise(w);
    assert LocksOf(w, p);
    hide LocksOk;
    MovedLocks(w, Next(w, Die(p)), p);
  }

  lemma LockLeaves(w: World, p: Pid, choice: Choice)
    ensures LockNext(w, p, choice).core == w.core && LockNext(w, p, choice).log == w.log
  {
  }

  /** A process that has just taken the execution lock, or still holds it, is sound. */
  lemma LockTaken(w: World, p: Pid, choice: Choice)
    requires LocksOf(w, p) && !Working(At(w, p)) && LockNext(w, p, choice).exec == Some(p)
    ensures HolderOk(w.core, w.log, At(LockNext(w, p, choice), p)) || At(LockNext(w, p, choice), p) == At(w, p)
  {
  }

  /** A lock step leaves the shared state alone, and whoever holds the execution lock afterwards is sound. */
  lemma LockHolder(w: World, p: Pid, choice: Choice)
    requires LocksOk(w) && !Working(At(w, p))
    requires w.exec.Some? ==> HolderOk(w.core, w.log, At(w, w.exec.value))
    ensures var w' := LockNext(w, p, choice);
            && w'.core == w.core
            && w'.log == w.log
            && (w'.exec.Some? ==> HolderOk(w.core, w.log, At(w', w'.exec.value)))
  {
    hide HolderOk, LockNext, Working, LocksOk, HoldsExec, HoldsGate, At;
    LocksPointwise(w);
    LockLeaves(w, p, choice);
    LockMoves(w, p, choice);
    LockFits(w, p, choice);
    var w' := LockNext(w, p, choice);
    if w'.exec == Some(p) {
      LockTaken(w, p, choice);
    } else if w'.exec.Some? {
      assert Untouched(w, w', w'.exec.value);
    }
  }

  // ---------- one turn ----------

  lemma InvParts(w: World)
    requires Inv(w)
    ensures CoreOk(w.core, w.log) && RowOk(w.core.db, w.log) && Lawful(w.log) && LocksOk(w)
    ensures w.exec.Some? ==> HolderOk(w.core, w.log, At(w, w.exec.value))
  {
    hide HolderOk, LocksOk, Lawful, RowOk;
  }

  /** A note in the log changes nothing else. */
  lemma Noted(w: World, e: Event)
    ensures Note(w, e).core == w.core && Note(w, e).exec == w.exec && Note(w, e).log == w.log + [e]
    ensures LocksOk(w) ==> LocksOk(Note(w, e))
    ensures forall p: Pid :: At(Note(w, e), p) == At(w, p)
  {
    assert forall p: Pid :: At(Note(w, e), p) == At(w, p);
  }

  lemma ActIsLock(w: World, p: Pid, choice: Choice)
    requires !Working(At(w, p))
    ensures Next(w, Act(p, choice)) == Note(LockNext(w, p, choice), Quiet)
  {
    hide Working, LockNext;
  }

  lemma WorkKeeps(w: World, p: Pid, choice: Choice)
    requires Inv(w) && Working(At(w, p))
    ensures Inv(Next(w, Act(p, choice)))
  {
    WorkLocks(w, p, choice);
    hide CoreOk, HolderOk, LocksOk, HolderNext, Law, Lawful;
    var e := HolderNext(w.core, At(w, p), choice);
    HolderStep(w.core, w.log, At(w, p), choice);
    Extended(w.log, e.event);
    var w' := Next(w, Act(p, choice));
    assert w'.exec == Some(p) && At(w', p) == e.pc && w'.core == e.core && w'.log == w.log + [e.event];
  }

  lemma StillKeeps(w: World, w': World)
    requires CoreOk(w.core, w.log) && Lawful(w.log) && LocksOk(w')
    requires w'.core == w.core && w'.log == w.log + [Quiet]
    requires w'.exec.Some? ==> HolderOk(w.core, w.log, At(w', w'.exec.value))
    ensures Inv(w')
  {
    hide *;
    PlainKeeps(w.core, w.log, Quiet);
    Extended(w.log, Quiet);
    QuietLaw(w.log);
    if w'.exec.Some? {
      HolderGrows(w.core, w.log, At(w', w'.exec.value));
    }
    InvWhole(w');
  }

  lemma LockKeeps(w: World, p: Pid, choice: Choice)
    requires Inv(w) && !Working(At(w, p))
    ensures Inv(Next(w, Act(p, choice)))
  {
    hide *;
    InvParts(w);
    LockLocks(w, p, choice);
    LockHolder(w, p, choice);
    ActIsLock(w, p, choice);
    Noted(LockNext(w, p, choice), Quiet);
    StillKeeps(w, Note(LockNext(w, p, choice), Quiet));
  }

  lemma DieKeeps(w: World, p: Pid)
    requires Inv(w)
    ensures Inv(Next(w, Die(p)))
  {
    DieLocks(w, p);
    var w' := Next(w, Die(p));
    if w'.exec.Some? {
      assert At(w', w'.exec.value) == At(w, w.exec.value);
    }
    hide CoreOk, HolderOk, Lawful, LocksOk;
    StillKeeps(w, w');
  }

  lemma ChainCore(c: Core, log: Log, s: Shift)
    requires CoreOk(c, log)
    ensures var e := ChainEvent(c.net, s);
            Law(log, e) && CoreOk(c.(net := Move(c.net, s)), log + [e])
  {
    hide CoreOk, Law;
    var e := ChainEvent(c.net, s);
    if e == Quiet {
      QuietLaw(log);
      PlainKeeps(c, log, Quiet);
      if s.Relabel? {
        RelabelKeeps(c, log + [Quiet], Move(c.net, s).reports);
      } else {
        assert c.(net := Move(c.net, s)) == c;
      }
    } else if s.Commit? {
      CommitKeeps(c, log, s.tx, s.receipt);
      assert Move(c.net, s) == CommittedNet(c.net, s.tx, s.receipt);
    } else {
      ForeignKeeps(c, log, s.account, s.nonce);
      assert Move(c.net, s) == ForeignNet(c.net, s.account, s.nonce);
    }
  }

  lemma SameProcs(w: World, w': World)
    requires LocksOk(w) && w'.exec == w.exec && w'.gate == w.gate && w'.procs == w.procs
    ensures LocksOk(w')
    ensures forall p: Pid :: At(w', p) == At(w, p)
  {
    assert forall p: Pid :: At(w', p) == At(w, p);
  }

  lemma ChainNext(w: World, s: Shift)
    ensures Next(w, Chain(s)) ==
            w.(core := w.core.(net := Move(w.core.net, s)), log := w.log + [ChainEvent(w.core.net, s)])
    ensures var e := ChainEvent(w.core.net, s); e.Quiet? || e.Committed? || e.Outside?
  {
    hide Move;
  }

  lemma InvWhole(w: World)
    requires CoreOk(w.core, w.log) && Lawful(w.log) && LocksOk(w)
    requires w.exec.Some? ==> HolderOk(w.core, w.log, At(w, w.exec.value))
    ensures Inv(w)
  {
    hide CoreOk, Lawful, LocksOk, HolderOk;
  }

  lemma ChainKeeps(w: World, s: Shift)
    requires Inv(w)
    ensures Inv(Next(w, Chain(s)))
  {
    hide *;
    InvParts(w);
    NetGrows(w, s);
    ChainNext(w, s);
    var w' := Next(w, Chain(s));
    var e := ChainEvent(w.core.net, s);
    SameProcs(w, w');
    ChainCore(w.core, w.log, s);
    Extended(w.log, e);
    if w.exec.Some? {
      HolderUnderNet(w.core, w.log, At(w, w.exec.value), w'.core.net, e);
    }
    InvWhole(w');
  }

  lemma NetGrows(w: World, s: Shift)
    requires CoreOk(w.core, w.log)
    ensures NetGrew(w.core.db, w.core.net, Move(w.core.net, s))
  {
    MoveGrows(w.core, w.log, s);
    hide NetGrew;
  }

  lemma TickOrCursorNext(w: World, t: Turn)
    requires t.Tick? || t.Cursor?
    ensures Next(w, t) == w.(core := if t.Tick? then w.core.(clock := w.core.clock + t.elapsed)
                                     else w.core.(db := SaveCursor(w.core.db, t.name, t.cursor)),
                             log := w.log + [Quiet])
  {
    hide SaveCursor;
  }

  lemma TickOrCursorKeeps(w: World, t: Turn)
    requires Inv(w) && (t.Tick? || t.Cursor?)
    ensures Inv(Next(w, t))
  {
    hide *;
    InvParts(w);
    TickOrCursorNext(w, t);
    var w' := Next(w, t);
    var moved := w'.(log := w.log);
    SameProcs(w, w');
    if t.Tick? {
      TickKeeps(w.core, w.log, t.elapsed);
      if w.exec.Some? {
        HolderUnderTick(w.core, w.log, At(w, w.exec.value), t.elapsed);
      }
    } else {
      CursorKeeps(w.core, w.log, t.name, t.cursor);
      if w.exec.Some? {
        HolderUnderCursor(w.core, w.log, At(w, w.exec.value), t.name, t.cursor);
      }
    }
    StillKeeps(moved, w');
  }

  lemma NextKeeps(w: World, t: Turn)
    requires Inv(w)
    ensures Inv(Next(w, t))
  {
    hide Inv, Next;
    match t
    case Act(p, choice) =>
      if Working(At(w, p)) {
        WorkKeeps(w, p, choice);
      } else {
        LockKeeps(w, p, choice);
      }
    case Die(p) => DieKeeps(w, p);
    case Chain(s) => ChainKeeps(w, s);
    case Tick(_) => TickOrCursorKeeps(w, t);
    case Cursor(_, _, _) => TickOrCursorKeeps(w, t);
  }

  // ---------- whole executions ----------

  lemma InitTables(w: World)
    requires Init(w)
    ensures JournalOk(w.core.db) && NonceOk(w.core.db, w.core.net, w.log) && ReceiptOk(w.core.db, w.core.net, w.log)
    ensures TruthOk(w.core.db, w.core.net, w.log) && LedgerOk(w.core.db, w.log) && ChainOk(w.core.db, w.core.net, w.log)
  {
  }

  lemma InitRules(w: World)
    requires Init(w)
    ensures ActionsOk(w.core.db.ruleState, w.core.clock, w.log) && PositiveOk(w.core.db)
    ensures PhaseOk(w.core.db, w.log) && MarketOk(w.core.db, w.log)
  {
    assert w.log == [] + [w.log[0]];
    Extended([], w.log[0]);
    assert HeldRules(w.core.db) == {};
  }

  lemma InitRow(w: World)
    requires Init(w)
    ensures RowOk(w.core.db, w.log) && Lawful(w.log)
  {
    var e := w.log[0];
    assert w.log == [] + [e];
    Extended([], e);
    assert e in w.log;
  }

  lemma InitHolds(w: World)
    requires Init(w)
    ensures Inv(w)
  {
    hide JournalOk, NonceOk, ReceiptOk, TruthOk, LedgerOk, ChainOk;
    hide ActionsOk, PositiveOk, PhaseOk, MarketOk, RowOk, Lawful;
    InitTables(w);
    InitRules(w);
    InitRow(w);
  }

  /** From an empty journal every execution keeps the invariant, and its history is lawful. */
  lemma {:induction false} Safe(w: World, turns: seq<Turn>)
    requires Init(w)
    ensures Inv(Run(w, turns))
    ensures Lawful(Run(w, turns).log)
    decreases |turns|
  {
    if turns == [] {
      InitHolds(w);
    } else {
      var before := turns[..|turns| - 1];
      Safe(w, before);
      hide Inv, Next;
      NextKeeps(Run(w, before), turns[|turns| - 1]);
    }
    assert Inv(Run(w, turns));
  }

  lemma ReachableIsSafe(w: World)
    requires Reachable(w)
    ensures Inv(w) && Lawful(w.log)
  {
    var start, turns :| Init(start) && w == Run(start, turns);
    Safe(start, turns);
  }

  lemma ReachableIsLawful(w: World)
    requires Reachable(w)
    ensures Lawful(w.log)
  {
    ReachableIsSafe(w);
  }

  lemma ReachableHasEvidence(w: World, e: Event)
    requires Reachable(w) && e in w.log
    ensures Evidence(w.core.db, e)
  {
    ReachableIsSafe(w);
  }

  lemma ReachableHolder(w: World, p: Pid)
    requires Reachable(w) && HoldsExec(At(w, p))
    ensures HolderOk(w.core, w.log, At(w, p))
  {
    ReachableIsSafe(w);
    hide CoreOk, HolderOk, Lawful, HoldsExec;
  }
}
