/** Executions that do happen: the uninterrupted pass, and inputs on which a tempting claim fails. */
module Scenarios {
  import opened Wrappers
  import opened Config
  import opened Network
  import opened Dex
  import QuoteLaws
  import opened Rules
  import opened Tables
  import opened Protocol
  import opened Invariant
  import opened JournalSafety
  import opened Runs
  import opened Theorems

  // ---------- taking turns ----------

  lemma Onward(w: World, t: Turn)
    requires Reachable(w)
    ensures Reachable(Next(w, t))
  {
    hide Next, Init;
    var start, turns :| Init(start) && w == Run(start, turns);
    assert (turns + [t])[..|turns + [t]| - 1] == turns;
    assert Next(w, t) == Run(start, turns + [t]);
  }

  /** One turn of the process that works under the execution lock. */
  lemma Work(w: World, p: Pid, choice: Choice) returns (w': World)
    requires Reachable(w) && Working(At(w, p))
    ensures Reachable(w')
    ensures var e := HolderNext(w.core, At(w, p), choice);
            && At(w', p) == e.pc
            && w' == World(e.core, w.exec, w.gate, w.procs[p := e.pc], w.log + [e.event])
  {
    Onward(w, Act(p, choice));
    w' := Next(w, Act(p, choice));
    hide HolderNext, Working;
  }

  lemma Lock(w: World, p: Pid, choice: Choice) returns (w': World)
    requires Reachable(w) && !Working(At(w, p))
    ensures Reachable(w') && w' == Note(LockNext(w, p, choice), Quiet)
  {
    Onward(w, Act(p, choice));
    w' := Next(w, Act(p, choice));
    hide LockNext, Working;
  }

  /** The locks are free. */
  predicate Free(w: World) {
    w.exec == None && w.gate == Shared({})
  }

  // ---------- the stages of an evaluation ----------

  lemma ObserveSteps(c: Core, s: Session, snapshot: PairSnapshot)
    requires Bound(c.db, s) && c.db.pending.None?
    requires snapshot.pairId == s.pairId && snapshot.Price().Some?
    ensures HolderNext(c, Checking(s), Proceed)
            == Effect(c, Recovering(BeforePass(s), Loading(s.config.wallet.execute, None)), Quiet)
    ensures HolderNext(c, Recovering(BeforePass(s), Loading(s.config.wallet.execute, None)), Proceed)
            == Effect(c, Recovering(BeforePass(s), Settled(None)), Quiet)
    ensures HolderNext(c, Recovering(BeforePass(s), Settled(None)), Proceed) == Effect(c, Observing(s), Quiet)
    ensures HolderNext(c, Observing(s), Snapshot(snapshot))
            == Effect(c, NextRule(Pass(s, snapshot, MatchingRules(s.config.rules, s.pairId))),
                      Observed(MarketOf(s.config, s.pairId), snapshot.Price().value, RowOf(s)))
  {
  }

  lemma Admit(w: World, p: Pid, s: Session) returns (w': World)
    requires Reachable(w) && Free(w) && At(w, p) == Idle
    ensures Reachable(w') && w'.core == w.core && w'.exec == Some(p) && w'.gate == Shared({})
    ensures At(w', p) == Checking(s)
    ensures w'.log == w.log + [Quiet, Quiet]
  {
    hide Reachable;
    var w1 := Lock(w, p, Evaluate(s));
    assert At(w1, p) == Admitted(s);
    w' := Lock(w1, p, Proceed);
    assert w'.gate == Shared({});
  }

  /** An evaluator that passes the configuration check finds the slot empty and reads the market. */
  lemma Observe(w: World, p: Pid, s: Session, snapshot: PairSnapshot) returns (w': World)
    requires Reachable(w) && Free(w) && At(w, p) == Idle
    requires Bound(w.core.db, s) && w.core.db.pending.None?
    requires snapshot.pairId == s.pairId && snapshot.Price().Some?
    ensures Reachable(w') && w'.core == w.core && w'.exec == Some(p) && w'.gate == Shared({})
    ensures At(w', p) == NextRule(Pass(s, snapshot, MatchingRules(s.config.rules, s.pairId)))
    ensures w'.log == w.log + [Quiet, Quiet, Quiet, Quiet, Quiet,
                               Observed(MarketOf(s.config, s.pairId), snapshot.Price().value, RowOf(s))]
  {
    hide Reachable, HolderNext, MatchingRules;
    ObserveSteps(w.core, s, snapshot);
    var w2 := Admit(w, p, s);
    var w3 := Work(w2, p, Proceed);
    var w4 := Work(w3, p, Proceed);
    var w5 := Work(w4, p, Proceed);
    w' := Work(w5, p, Snapshot(snapshot));
  }

  lemma Leave(w: World, p: Pid, pass: Pass) returns (w': World)
    requires Reachable(w) && w.exec == Some(p) && w.gate == Shared({})
    requires At(w, p) == NextRule(pass) && pass.rules == []
    ensures Reachable(w') && w'.core == w.core && Free(w') && At(w', p) == Idle
    ensures w'.log == w.log + [Quiet, Quiet]
  {
    hide Reachable;
    var w1 := Work(w, p, Proceed);
    assert At(w1, p) == Leaving;
    w' := Lock(w1, p, Proceed);
  }

  lemma InitialiseSteps(c: Core, pass: Pass)
    requires pass.rules != [] && c.db.uncertain == map[]
    requires pass.snapshot.Price().Some? && GetRuleState(c.db, pass.rules[0].id) == FRESH
    ensures var state := RuleRuntimeState(pass.snapshot.Price(), None);
            && HolderNext(c, NextRule(pass), Proceed) == Effect(c, Deciding(pass), Quiet)
            && HolderNext(c, Deciding(pass), Proceed) == Effect(c, Initialising(pass, state), Quiet)
            && HolderNext(c, Initialising(pass, state), Proceed)
               == Effect(c.(db := SaveRuleState(c.db, pass.rules[0].id, state)), Skip(pass),
                  Initialised(pass.rules[0].id))
  {
  }

  /** A rule without a baseline stores the price it sees. */
  lemma Initialise(w: World, p: Pid, pass: Pass) returns (w': World)
    requires Reachable(w) && w.exec == Some(p) && w.gate == Shared({})
    requires At(w, p) == NextRule(pass) && pass.rules != [] && w.core.db.uncertain == map[]
    requires pass.snapshot.Price().Some? && GetRuleState(w.core.db, pass.rules[0].id) == FRESH
    ensures Reachable(w') && w'.exec == Some(p) && w'.gate == Shared({})
    ensures At(w', p) == NextRule(pass.(rules := pass.rules[1..]))
    ensures var state := RuleRuntimeState(pass.snapshot.Price(), None);
            w'.core == w.core.(db := SaveRuleState(w.core.db, pass.rules[0].id, state))
    ensures w'.log == w.log + [Quiet, Quiet, Initialised(pass.rules[0].id)]
  {
    hide Reachable, HolderNext, SaveRuleState;
    InitialiseSteps(w.core, pass);
    var w1 := Work(w, p, Proceed);
    var w2 := Work(w1, p, Proceed);
    w' := Work(w2, p, Proceed);
  }

  /** What the node and the signer contribute to one signature. */
  datatype Signing = Signing(feeBps: int, least: real, nonce: nat, base: int, chi: nat)

  ghost predicate Yields(c: Core, pass: Pass, g: Signing, swap: PreparedSwap)
    requires pass.rules != []
  {
    LeastOut(pass, g.feeBps) == Some(g.least) && Prepare(c, pass, g.least, g.nonce, g.base, g.chi) == Some(swap)
  }

  function SignedFrom(pass: Pass, g: Signing): Origin
    requires pass.rules != []
  {
    Origin(pass.rules[0], pass.snapshot, g.feeBps, g.base)
  }

  lemma SignSteps(c: Core, pass: Pass, price: real, g: Signing, swap: PreparedSwap)
    requires pass.rules != [] && c.db.uncertain == map[]
    requires pass.snapshot.Price() == Some(price) && pass.session.config.wallet.execute
    requires Decide(c, pass).shouldExecute && Yields(c, pass, g, swap)
    ensures HolderNext(c, NextRule(pass), Proceed) == Effect(c, Deciding(pass), Quiet)
    ensures HolderNext(c, Deciding(pass), Proceed)
            == Effect(c, Quoting(pass, price, c.clock),
                      Decided(pass.rules[0].id, c.clock, pass.rules[0].trigger.cooldownSeconds))
    ensures HolderNext(c, Quoting(pass, price, c.clock), Priced(g.feeBps))
            == Effect(c, Preparing(pass, price, g.feeBps, g.least), Quoted(pass.rules[0].id, pass.snapshot, g.feeBps))
    ensures HolderNext(c, Preparing(pass, price, g.feeBps, g.least), Signed(g.nonce, g.base, g.chi))
            == Effect(c, Journaling(pass, price, swap, SignedFrom(pass, g)), Dated(swap.tx, g.base))
  {
    hide Prepare, LeastOut;
  }

  /** A rule whose threshold is reached is signed and journaled. */
  lemma Sign(w: World, p: Pid, pass: Pass, price: real, g: Signing, swap: PreparedSwap) returns (w': World)
    requires Reachable(w) && w.exec == Some(p)
    requires At(w, p) == NextRule(pass) && pass.rules != []
    requires w.core.db.uncertain == map[] && w.core.db.pending.None?
    requires pass.snapshot.Price() == Some(price) && Decide(w.core, pass).shouldExecute
    requires pass.session.config.wallet.execute && Yields(w.core, pass, g, swap)
    ensures Reachable(w') && w'.exec == Some(p) && w'.gate == w.gate
    ensures At(w', p) == Recovering(AfterSigning(pass), Loading(true, None))
    ensures var begun := BeginExecution(w.core.db, pass.rules[0].id, swap, price, PRICE_MOVE, Inputs(pass));
            begun.Some? && w'.core == w.core.(db := begun.value)
  {
    hide Reachable, HolderNext, Decide, Yields, BeginExecution;
    SignSteps(w.core, pass, price, g, swap);
    JournalStep(w.core, pass, price, swap, SignedFrom(pass, g));
    var w1 := Work(w, p, Proceed);
    var w2 := Work(w1, p, Proceed);
    var w3 := Work(w2, p, Priced(g.feeBps));
    var w4 := Work(w3, p, Signed(g.nonce, g.base, g.chi));
    w' := Work(w4, p, Proceed);
  }

  lemma JournalStep(c: Core, pass: Pass, price: real, swap: PreparedSwap, origin: Origin)
    requires pass.rules != [] && c.db.pending.None?
    ensures var begun := BeginExecution(c.db, pass.rules[0].id, swap, price, PRICE_MOVE, Inputs(pass));
            && begun.Some?
            && HolderNext(c, Journaling(pass, price, swap, origin), Proceed)
               == Effect(c.(db := begun.value), Recovering(AfterSigning(pass), Loading(true, None)),
                         Journaled(|c.db.runs|, pass.rules[0].id, swap.tx, RowOf(pass.session), origin))
  {
  }

  // ---------- the uninterrupted pass ----------

  lemma MarkStep(c: Core, purpose: Purpose, a: Attempt)
    requires c.db.pending.Some? && c.db.pending.value.run == a.execution.run
    ensures HolderNext(c, Recovering(purpose, Marking(a)), Proceed)
            == Effect(c.(db := MarkedDb(c.db)), Recovering(purpose, Sending(a)), Marked(a.execution.run))
  {
  }

  lemma SendStep(c: Core, purpose: Purpose, a: Attempt, reply: Reply)
    requires OnChain(c.net, a.swap) && !reply.Unclear?
    ensures var e := HolderNext(c, Recovering(purpose, Sending(a)), Answered(reply));
            && e.core == c.(net := Deliver(c.net, a.swap.tx, reply, !a.execution.broadcastAttempted))
            && e.pc == Recovering(purpose, if reply.Refused? && !a.execution.broadcastAttempted
                                           then Rejecting(a, reply.message) else SecondLookup(a))
  {
  }

  /** A fresh execution is marked and handed to its endpoint, which answers `reply`. */
  lemma MarkAndSend(w: World, p: Pid, purpose: Purpose, a: Attempt, reply: Reply) returns (w': World)
    requires Reachable(w) && At(w, p) == Recovering(purpose, Marking(a))
    requires w.core.db.pending.Some? && w.core.db.pending.value.run == a.execution.run
    requires OnChain(w.core.net, a.swap) && !reply.Unclear?
    ensures Reachable(w') && w'.exec == w.exec && w'.gate == w.gate
    ensures var first := !a.execution.broadcastAttempted;
            w'.core == w.core.(db := MarkedDb(w.core.db), net := Deliver(w.core.net, a.swap.tx, reply, first))
    ensures At(w', p) == Recovering(purpose, if reply.Refused? && !a.execution.broadcastAttempted
                                             then Rejecting(a, reply.message) else SecondLookup(a))
  {
    hide Reachable, HolderNext, Deliver;
    MarkStep(w.core, purpose, a);
    var w1 := Work(w, p, Proceed);
    SendStep(w1.core, purpose, a, reply);
    w' := Work(w1, p, Answered(reply));
  }

  lemma Load(w: World, p: Pid, purpose: Purpose, rpc: Option<string>) returns (w': World, a: Attempt)
    requires Reachable(w) && At(w, p) == Recovering(purpose, Loading(true, rpc))
    requires w.core.db.pending.Some? && w.core.db.pending.value.run < |w.core.db.runs|
    requires !w.core.db.pending.value.broadcastAttempted
    ensures Reachable(w') && w'.core == w.core && w'.exec == w.exec && w'.gate == w.gate
    ensures At(w', p) == Recovering(purpose, Marking(a))
    ensures var row := w.core.db.pending.value;
            && a.execution == PendingExecution(row.run, w.core.db.runs[row.run].ruleId, row.swap, false)
            && a.swap == row.swap.(rpcUrl := rpc.GetOr(row.swap.rpcUrl))
  {
    w' := Work(w, p, Proceed);
    a := At(w', p).recovery.a;
  }

  /**
   One pass without interruption over a fresh execution whose endpoint accepts it, whose transaction
   then commits and whose receipt is shown: the database becomes exactly the one in which that
   receipt was recorded, with nothing else of the pass left in it.
   */
  lemma CleanPass(w: World, p: Pid, purpose: Purpose, rpc: Option<string>, receipt: Receipt) returns (w': World)
    requires Reachable(w) && At(w, p) == Recovering(purpose, Loading(true, rpc))
    requires w.core.db.pending.Some? && w.core.db.pending.value.run < |w.core.db.runs|
    requires !w.core.db.pending.value.broadcastAttempted
    requires var swap := w.core.db.pending.value.swap;
             && OnChain(w.core.net, swap.(rpcUrl := rpc.GetOr(swap.rpcUrl)))
             && !Consumed(w.core.net, swap.tx)
    ensures Reachable(w') && w'.exec == w.exec && w'.gate == w.gate
    ensures At(w', p).Recovering? && At(w', p).purpose == purpose && At(w', p).recovery.Settled?
    ensures var row := w.core.db.pending.value;
            && Some(w'.core.db) == FinishExecution(w.core.db, row.run, receipt.success, receipt.message, w.core.clock)
            && w'.core.net.receipts == w.core.net.receipts[row.swap.tx := receipt]
    ensures At(w', p).recovery.result.Some?
    ensures At(w', p).recovery.result.value.status == if receipt.success then Submitted else Failed
  {
    hide Reachable;
    var w1, a := Load(w, p, purpose, rpc);
    var w2 := MarkAndSend(w1, p, purpose, a, Accepted);
    var w3 := Confirm(w2, p, purpose, a, receipt);
    w' := w3;
  }

  lemma Commits(w: World, tx: Tx, receipt: Receipt) returns (w': World)
    requires Reachable(w) && tx in w.core.net.live && !Consumed(w.core.net, tx)
    ensures Reachable(w') && w'.exec == w.exec && w'.gate == w.gate && w'.procs == w.procs
    ensures w'.core.db == w.core.db && w'.core.clock == w.core.clock && w'.core.net.reports == w.core.net.reports
    ensures w'.core.net.receipts == w.core.net.receipts[tx := receipt]
  {
    Onward(w, Chain(Commit(tx, receipt)));
    w' := Next(w, Chain(Commit(tx, receipt)));
  }

  lemma FinishStep(c: Core, purpose: Purpose, a: Attempt, receipt: Receipt)
    requires OwnsSlot(c.db, a.execution.run)
    ensures var done := FinishExecution(c.db, a.execution.run, receipt.success, receipt.message, c.clock);
            && done.Some?
            && a.execution.run < |done.value.runs|
            && HolderNext(c, Recovering(purpose, Finishing(a, receipt)), Proceed)
               == Effect(
                    c.(db := done.value),
                    Recovering(purpose, Settled(Some(Result(a.execution.ruleId,
                                                            if receipt.success then Submitted else Failed,
                                                            done.value.runs[a.execution.run].reason)))),
                    Finished(a.execution.run, a.execution.ruleId, a.execution.swap.tx, receipt.success, c.clock))
  {
  }

  lemma ShownStep(c: Core, purpose: Purpose, a: Attempt, receipt: Receipt)
    requires OnChain(c.net, a.swap) && a.swap.tx in c.net.receipts && c.net.receipts[a.swap.tx] == receipt
    ensures HolderNext(c, Recovering(purpose, SecondLookup(a)), Shown)
            == Effect(c, Recovering(purpose, Finishing(a, receipt)), Quiet)
  {
  }

  lemma Confirm(w: World, p: Pid, purpose: Purpose, a: Attempt, receipt: Receipt) returns (w': World)
    requires Reachable(w) && At(w, p) == Recovering(purpose, SecondLookup(a))
    requires OwnsSlot(w.core.db, a.execution.run)
    requires OnChain(w.core.net, a.swap) && a.swap.tx in w.core.net.live && !Consumed(w.core.net, a.swap.tx)
    ensures Reachable(w') && w'.exec == w.exec && w'.gate == w.gate
    ensures At(w', p).Recovering? && At(w', p).purpose == purpose && At(w', p).recovery.Settled?
    ensures Some(w'.core.db) ==
            FinishExecution(w.core.db, a.execution.run, receipt.success, receipt.message, w.core.clock)
    ensures w'.core.net.receipts == w.core.net.receipts[a.swap.tx := receipt]
    ensures At(w', p).recovery.result.Some?
    ensures At(w', p).recovery.result.value.status == if receipt.success then Submitted else Failed
  {
    hide Reachable, HolderNext, FinishExecution, Consumed;
    var w1 := Commits(w, a.swap.tx, receipt);
    ShownStep(w1.core, purpose, a, receipt);
    var w2 := Work(w1, p, Shown);
    FinishStep(w2.core, purpose, a, receipt);
    w' := Work(w2, p, Proceed);
  }

  /** A first broadcast that is definitively rejected closes the run as failed. */
  lemma Rejected(w: World, p: Pid, purpose: Purpose, message: string) returns (w': World)
    requires Reachable(w) && At(w, p) == Recovering(purpose, Loading(true, None))
    requires w.core.db.pending.Some? && w.core.db.pending.value.run < |w.core.db.runs|
    requires !w.core.db.pending.value.broadcastAttempted && OnChain(w.core.net, w.core.db.pending.value.swap)
    ensures Reachable(w') && w'.exec == w.exec && w'.gate == w.gate
    ensures At(w', p).Recovering? && At(w', p).purpose == purpose && At(w', p).recovery.Settled?
    ensures At(w', p).recovery.result.Some? && At(w', p).recovery.result.value.status == Failed
    ensures w'.core.net == w.core.net
    ensures Some(w'.core.db) ==
            FinishExecution(w.core.db, w.core.db.pending.value.run, false, Some(message), w.core.clock)
  {
    hide Reachable;
    var w1, a := Load(w, p, purpose, None);
    var w2 := MarkAndSend(w1, p, purpose, a, Refused(message));
    w' := Work(w2, p, Proceed);
  }

  // ---------- a failed run whose transaction succeeded ----------

  const RULE := RuleConfig("r", true, PriceMoveTriggerConfig(1, Up, 100, 0),
                           SwapExactInActionConfig("a", 1.0, 100, 300, None))

  const SETUP := AutomationConfig(NetworkConfig("url", None), DexConfig("con_dex", "con_pairs"),
                                  WalletConfig(true, None), DirectWallet, [RULE])

  const EVALUATOR := Session(SETUP, 1, Some("key"), 1)

  const LOW := PairSnapshot(1, "a", "b", 1.0, 1.0)

  const HIGH := PairSnapshot(1, "a", "b", 1.0, 2.0)

  const CALL := RouterSwap("con_dex", 1.0, 0.99, 1, "a", "key", 295 * SECOND)

  const SWAP := PreparedSwap("url", Tx(Account("chain", "key"), 0, CALL, 0))

  function Deployed(config: AutomationConfig): World {
    var row := ConfigRow(config, 1);
    World(Core(Db([], None, map[], map[], map[], Some(row)), Net(map["url" := "chain"], {}, map[], map[], {}), 0),
          None, Shared({}), map[], [Published(row, None)])
  }

  lemma DeployedReachable(config: AutomationConfig)
    ensures Reachable(Deployed(config))
  {
    assert Init(Deployed(config));
    assert Deployed(config) == Run(Deployed(config), []);
  }

  lemma TheRule()
    ensures MatchingRules(SETUP.rules, 1) == [RULE]
  {
  }

  /** The price doubles against a baseline of one. */
  lemma Doubled(c: Core)
    requires GetRuleState(c.db, "r") == RuleRuntimeState(Some(1.0), None)
    ensures Decide(c, Pass(EVALUATOR, HIGH, [RULE])).shouldExecute
  {
    assert Change(1.0, 2.0) == 10_000.0;
  }

  lemma SignsSwap(c: Core)
    requires c.net.reports == map["url" := "chain"] && c.net.committed == map[]
    ensures Yields(c, Pass(EVALUATOR, HIGH, [RULE]), Signing(0, 0.99, 0, 0, 0), SWAP)
  {
    hide QuoteExactIn, MinimumAllowed, XianDeadline, MatchingRules;
    QuotesOne();
    assert XianDeadline(300, 0) == Some(295 * SECOND) by {
      QuoteLaws.DeadlineWindow(300, 0);
    }
  }

  lemma QuotesOne()
    ensures QuoteExactIn(HIGH, "a", 1.0, 0) == Some(1.0)
    ensures MinimumAllowed(1.0, 100) == 0.99
  {
    assert AfterFee(1.0, 0) == 1.0;
    assert CurveOut(1.0, 2.0, 1.0) == 1.0;
  }

  /** The rule has its baseline, the machine is at rest and `SWAP` can be signed. */
  ghost predicate Ready(w: World) {
    && Reachable(w)
    && Free(w)
    && At(w, 0) == Idle
    && w.core.db.row == Some(ConfigRow(SETUP, 1))
    && w.core.db.pending.None?
    && w.core.db.uncertain == map[]
    && GetRuleState(w.core.db, "r") == RuleRuntimeState(Some(1.0), None)
    && w.core.net.reports == map["url" := "chain"]
    && w.core.net.committed == map[]
  }

  lemma FirstLook() returns (w: World)
    ensures Ready(w) && w.core.db.runs == []
  {
    DeployedReachable(SETUP);
    TheRule();
    hide Reachable, MatchingRules;
    var w1 := Observe(Deployed(SETUP), 0, EVALUATOR, LOW);
    assert LOW.Price() == Some(1.0);
    var w2 := Initialise(w1, 0, Pass(EVALUATOR, LOW, [RULE]));
    w := Leave(w2, 0, Pass(EVALUATOR, LOW, []));
  }

  /** The doubled price makes the rule sign `SWAP`. */
  lemma Signs(w: World) returns (w': World)
    requires Ready(w)
    ensures Reachable(w') && w'.exec == Some(0) && w'.gate == Shared({})
    ensures At(w', 0) == Recovering(AfterSigning(Pass(EVALUATOR, HIGH, [RULE])), Loading(true, None))
    ensures var pass := Pass(EVALUATOR, HIGH, [RULE]);
            Some(w'.core.db) == BeginExecution(w.core.db, "r", SWAP, 2.0, PRICE_MOVE, Inputs(pass))
    ensures w'.core.net == w.core.net
  {
    TheRule();
    hide Reachable, MatchingRules, BeginExecution;
    assert HIGH.Price() == Some(2.0);
    var w1 := Observe(w, 0, EVALUATOR, HIGH);
    var pass := Pass(EVALUATOR, HIGH, [RULE]);
    Doubled(w1.core);
    SignsSwap(w1.core);
    hide Decide, Yields;
    w' := Sign(w1, 0, pass, 2.0, Signing(0, 0.99, 0, 0, 0), SWAP);
  }

  lemma ResumesRest(c: Core, pass: Pass, result: Option<Result>)
    requires pass.rules != [] && result.Some? && result.value.status != Pending
    ensures HolderNext(c, Recovering(AfterSigning(pass), Settled(result)), Proceed) == Effect(c, Skip(pass), Quiet)
  {
  }

  lemma Refuses(w: World) returns (w': World)
    requires Ready(w)
    ensures Ready(w') && |w'.core.db.runs| == |w.core.db.runs| + 1
    ensures var row := w'.core.db.runs[|w.core.db.runs|]; row.status == Failed && row.tx == Some(SWAP.tx)
  {
    hide Reachable, HolderNext;
    var pass := Pass(EVALUATOR, HIGH, [RULE]);
    var w1 := Signs(w);
    var w2 := Rejected(w1, 0, AfterSigning(pass), "mempool is full");
    ResumesRest(w2.core, pass, At(w2, 0).recovery.result);
    var w3 := Work(w2, 0, Proceed);
    assert At(w3, 0) == NextRule(Pass(EVALUATOR, HIGH, []));
    w' := Leave(w3, 0, Pass(EVALUATOR, HIGH, []));
  }

  /**
   A first broadcast is refused, the run is closed as failed, and the next evaluation signs the same
   bytes again, which then commit: the failed run's hash has a successful receipt.
   */
  lemma FailedThoughCommitted() returns (w: World)
    ensures Reachable(w) && |w.core.db.runs| == 2
    ensures var first, second := w.core.db.runs[0], w.core.db.runs[1];
            && first.status == Failed
            && second.status == Submitted
            && first.tx == second.tx == Some(SWAP.tx)
            && SWAP.tx in w.core.net.receipts
            && w.core.net.receipts[SWAP.tx].success
  {
    var w1 := FirstLook();
    var w2 := Refuses(w1);
    var w3 := Signs(w2);
    hide Reachable;
    w := CleanPass(w3, 0, AfterSigning(Pass(EVALUATOR, HIGH, [RULE])), None, Receipt(true, None));
  }

  // ---------- rules whose id leads to another pair ----------

  /** Until something was stored evaluators worked under `config`; the first to publish was a manager with `own`. */
  ghost predicate Begins(log: Log, config: AutomationConfig, own: AutomationConfig) {
    && (forall e :: e in log && e.Observed? && e.under.generation == 0 ==> e.under.config == config)
    && (forall e :: e in log && e.Published? && e.replaced.Some? ==> e.replaced.value == own)
  }

  /** The deployment has known this configuration only, stored or not. */
  ghost predicate OnlyUnder(log: Log, config: AutomationConfig) {
    Begins(log, config, config) && forall e :: e in log && e.Published? ==> e.row.config == config
  }

  predicate ValidRules(config: AutomationConfig) {
    forall rule :: rule in config.rules ==> RuleFieldsOk(rule)
  }

  /** Whatever has a baseline has this one and never acted. */
  predicate Calm(db: Db, price: real) {
    && db.pending.None?
    && db.uncertain == map[]
    && forall id :: id in db.ruleState ==> db.ruleState[id] == RuleRuntimeState(Some(price), None)
  }

  lemma SteadySteps(c: Core, pass: Pass)
    requires pass.rules != [] && c.db.uncertain == map[] && RuleFieldsOk(pass.rules[0])
    requires pass.snapshot.Price().Some? && pass.snapshot.Price().value > 0.0
    requires GetRuleState(c.db, pass.rules[0].id) == RuleRuntimeState(pass.snapshot.Price(), None)
    ensures HolderNext(c, NextRule(pass), Proceed) == Effect(c, Deciding(pass), Quiet)
    ensures HolderNext(c, Deciding(pass), Proceed) == Effect(c, Skip(pass), Quiet)
  {
    assert Change(pass.snapshot.Price().value, pass.snapshot.Price().value) == 0.0;
  }

  /** A rule that is at its baseline is passed over. */
  lemma Steady(w: World, p: Pid, pass: Pass) returns (w': World)
    requires Reachable(w) && w.exec == Some(p) && w.gate == Shared({})
    requires At(w, p) == NextRule(pass) && pass.rules != [] && w.core.db.uncertain == map[]
    requires RuleFieldsOk(pass.rules[0]) && pass.snapshot.Price().Some? && pass.snapshot.Price().value > 0.0
    requires GetRuleState(w.core.db, pass.rules[0].id) == RuleRuntimeState(pass.snapshot.Price(), None)
    ensures Reachable(w') && w'.exec == Some(p) && w'.gate == Shared({}) && w'.core == w.core
    ensures At(w', p) == NextRule(pass.(rules := pass.rules[1..]))
    ensures w'.log == w.log + [Quiet, Quiet]
  {
    hide Reachable, HolderNext;
    SteadySteps(w.core, pass);
    var w1 := Work(w, p, Proceed);
    w' := Work(w1, p, Proceed);
  }

  /** A pass over rules without other baselines gives each of them the price it sees, up to the one looked for. */
  lemma {:induction false} Walk(w: World, p: Pid, pass: Pass, id: string) returns (w': World)
    requires Reachable(w) && w.exec == Some(p) && w.gate == Shared({}) && At(w, p) == NextRule(pass)
    requires pass.snapshot.Price() == Some(1.0) && Calm(w.core.db, 1.0)
    requires forall rule :: rule in pass.rules ==> RuleFieldsOk(rule)
    requires exists rule :: rule in pass.rules && rule.id == id
    ensures Reachable(w') && w'.exec == Some(p) && w'.gate == Shared({}) && w'.core.db.row == w.core.db.row
    ensures Calm(w'.core.db, 1.0) && GetRuleState(w'.core.db, id).baselinePrice == Some(1.0)
    ensures forall e :: e in w'.log ==> e in w.log || e.Quiet? || e.Initialised?
    decreases |pass.rules|
  {
    hide Reachable;
    var rule := pass.rules[0];
    var rest := pass.(rules := pass.rules[1..]);
    assert pass.rules == [rule] + rest.rules;
    if rule.id in w.core.db.ruleState {
      w' := Steady(w, p, pass);
    } else {
      w' := Initialise(w, p, pass);
    }
    if rule.id != id {
      var middle := w';
      w' := Walk(middle, p, rest, id);
    }
  }

  /**
   From an enabled rule whose id leads to another pair, an execution stores a baseline that was not
   observed in the market the configuration gives the rule.
   */
  lemma Misplaces(config: AutomationConfig, k: nat) returns (w: World)
    requires ValidRules(config) && k < |config.rules| && config.rules[k].enabled
    requires PairOf(config.rules, config.rules[k].id) != Some(config.rules[k].trigger.pairId)
    ensures Reachable(w) && OnlyUnder(w.log, config) && w.core.db.row == Some(ConfigRow(config, 1))
    ensures GetRuleState(w.core.db, config.rules[k].id).baselinePrice == Some(1.0)
    ensures !SeenFor(config, config.rules[k].id, 1.0, w.log)
  {
    hide Reachable, PairOf, OnlyUnder;
    var rule := config.rules[k];
    var s := Session(config, 1, None, rule.trigger.pairId);
    var snapshot := PairSnapshot(rule.trigger.pairId, "a", "b", 1.0, 1.0);
    assert snapshot.Price() == Some(1.0);
    DeployedReachable(config);
    var w1 := Observe(Deployed(config), 0, s, snapshot);
    w := Walk(w1, 0, Pass(s, snapshot, MatchingRules(config.rules, rule.trigger.pairId)), rule.id);
    FirstObserved(Deployed(config).log, w1.log, s, 1.0, config);
    OnlyPublished(Deployed(config).log, w1.log, config);
    StillOnlyUnder(config, w1.log, w.log);
    OnlySeen(MarketOf(config, s.pairId), w1.log, w.log);
    NotSeen(config, rule.id, MarketOf(config, s.pairId), w.log);
  }

  /** A log in which nothing was observed yet, and one with the first observation. */
  lemma FirstObserved(before: Log, log: Log, s: Session, price: real, own: AutomationConfig)
    requires forall e :: e in before ==> !e.Observed? && (e.Published? ==> e.replaced.None? && e.row.config == own)
    requires log == before + [Quiet, Quiet, Quiet, Quiet, Quiet,
                              Observed(MarketOf(s.config, s.pairId), price, RowOf(s))]
    ensures Begins(log, s.config, own) && SeenOnlyIn(log, MarketOf(s.config, s.pairId))
    ensures forall e :: e in log && e.Published? ==> e in before
  {
  }

  lemma OnlyPublished(before: Log, log: Log, config: AutomationConfig)
    requires Begins(log, config, config) && before == Deployed(config).log
    requires forall e :: e in log && e.Published? ==> e in before
    ensures OnlyUnder(log, config)
  {
    hide Begins;
  }

  lemma StillOnlyUnder(config: AutomationConfig, log: Log, log': Log)
    requires OnlyUnder(log, config)
    requires forall e :: e in log' ==> e in log || e.Quiet? || e.Initialised?
    ensures OnlyUnder(log', config)
  {
  }

  /** Nothing was observed but in this market. */
  ghost predicate SeenOnlyIn(log: Log, market: Market) {
    forall e :: e in log && e.Observed? ==> e.market == market
  }

  lemma OnlySeen(market: Market, log: Log, log': Log)
    requires SeenOnlyIn(log, market)
    requires forall e :: e in log' ==> e in log || e.Quiet? || e.Initialised? || e.Published?
    ensures SeenOnlyIn(log', market)
  {
  }

  lemma NotSeen(config: AutomationConfig, id: string, market: Market, log: Log)
    requires SeenOnlyIn(log, market)
    requires var pair := PairOf(config.rules, id); pair.Some? ==> MarketOf(config, pair.value) != market
    ensures forall price :: !SeenFor(config, id, price, log)
  {
    hide PairOf;
  }

  ghost predicate Belongs(w: World, config: AutomationConfig, id: string) {
    var state := GetRuleState(w.core.db, id);
    state.baselinePrice.Some? ==> SeenFor(config, id, state.baselinePrice.value, w.log)
  }

  lemma InForce(w: World, config: AutomationConfig)
    requires Reachable(w) && OnlyUnder(w.log, config)
    ensures ActiveConfig(w.core.db, config) == config
  {
    ReachableIsSafe(w);
  }

  /**
   A deployment under one configuration keeps every baseline in its market if and only if every enabled
   rule's id leads to the rule's own pair, which can be checked before the configuration is stored.
   */
  lemma BelongsExactly(config: AutomationConfig)
    requires ValidRules(config)
    ensures Unambiguous(config.rules)
            <==> forall w: World, id: string :: Reachable(w) && OnlyUnder(w.log, config) ==> Belongs(w, config, id)
  {
    hide Reachable;
    if Unambiguous(config.rules) {
      SharesWithItself(config);
      forall w: World, id: string | Reachable(w) && OnlyUnder(w.log, config)
        ensures Belongs(w, config, id)
      {
        if GetRuleState(w.core.db, id).baselinePrice.Some? {
          BaselinesBelong(w, config, id);
          InForce(w, config);
        }
      }
    } else {
      var k: nat :| k < |config.rules| && config.rules[k].enabled
                    && PairOf(config.rules, config.rules[k].id) != Some(config.rules[k].trigger.pairId);
      var w := Misplaces(config, k);
      assert !Belongs(w, config, config.rules[k].id);
    }
  }

  // ---------- the first configuration that is stored ----------

  /** An installation without a stored configuration. */
  function Installed(): World {
    World(Core(Db([], None, map[], map[], map[], None), Net(map["url" := "chain"], {}, map[], map[], {}), 0),
          None, Shared({}), map[], [Quiet])
  }

  lemma InstalledReachable()
    ensures Reachable(Installed())
  {
    assert Init(Installed());
    assert Installed() == Run(Installed(), []);
  }

  /** The last rule listed under this id, alone. */
  function Only(rules: seq<RuleConfig>, id: string): seq<RuleConfig> {
    if rules == [] then []
    else if rules[|rules| - 1].id == id then [rules[|rules| - 1]]
    else Only(rules[..|rules| - 1], id)
  }

  lemma {:induction false} OnlyLeads(rules: seq<RuleConfig>, id: string)
    ensures PairOf(Only(rules, id), id) == PairOf(rules, id) && Unambiguous(Only(rules, id))
    decreases |rules|
  {
    if rules != [] && rules[|rules| - 1].id != id {
      OnlyLeads(rules[..|rules| - 1], id);
    }
  }

  /** The process dies and its locks are free again. */
  lemma Dies(w: World, p: Pid) returns (w': World)
    requires Reachable(w) && w.exec == Some(p) && w.gate == Shared({})
    ensures Reachable(w') && Free(w') && At(w', p) == Idle && w'.core == w.core && w'.log == w.log + [Quiet]
  {
    Onward(w, Die(p));
    w' := Next(w, Die(p));
  }

  lemma PublishSteps(c: Core, target: AutomationConfig, own: AutomationConfig)
    requires c.db.pending.None?
    ensures HolderNext(c, DrainStart(target), Proceed) == Effect(c, Publishing(target), Quiet)
    ensures HolderNext(c, Publishing(target), Replacing(own))
            == Effect(c.(db := SaveActiveConfig(c.db, target, ActiveConfig(c.db, own))), Closing,
                      PublishedEvent(c.db, target, own))
  {
    hide SaveActiveConfig;
  }

  /** A manager closes admission and takes the execution lock of a machine at rest. */
  lemma TakesOver(w: World, p: Pid, target: AutomationConfig) returns (w': World)
    requires Reachable(w) && Free(w) && At(w, p) == Idle
    ensures Reachable(w') && At(w', p) == DrainStart(target) && w'.core == w.core && w'.log == w.log + [Quiet, Quiet]
  {
    hide Reachable;
    var w1 := Lock(w, p, Update(target));
    assert At(w1, p) == Gated(target);
    w' := Lock(w1, p, Proceed);
  }

  /** A manager that runs `own` stores `target` while the machine is at rest. */
  lemma Publishes(w: World, p: Pid, target: AutomationConfig, own: AutomationConfig) returns (w': World)
    requires Reachable(w) && Free(w) && At(w, p) == Idle && w.core.db.pending.None?
    ensures Reachable(w') && w'.core.db == SaveActiveConfig(w.core.db, target, ActiveConfig(w.core.db, own))
    ensures w'.log == w.log + [Quiet, Quiet, Quiet, PublishedEvent(w.core.db, target, own)]
  {
    hide Reachable, HolderNext, SaveActiveConfig, ActiveConfig, PublishedEvent, Free;
    PublishSteps(w.core, target, own);
    var w1 := TakesOver(w, p, target);
    var w2 := Work(w1, p, Proceed);
    w' := Work(w2, p, Replacing(own));
  }

  /** What the first publication of a configuration that leads the rule to the same pair leaves. */
  lemma FirstSaved(db: Db, target: AutomationConfig, own: AutomationConfig, id: string)
    requires db.row.None? && !MarketChanged(own, target) && PairOf(target.rules, id) == PairOf(own.rules, id)
    ensures var db' := SaveActiveConfig(db, target, ActiveConfig(db, own));
            && db'.row == Some(ConfigRow(target, 1))
            && GetRuleState(db', id) == GetRuleState(db, id)
    ensures PublishedEvent(db, target, own) == Published(ConfigRow(target, 1), Some(own))
  {
    hide PairOf;
  }

  /** With nothing stored an evaluation gives the rule the price it sees, and dies. */
  lemma FirstBaseline(config: AutomationConfig, own: AutomationConfig, k: nat) returns (w: World)
    requires ValidRules(config) && k < |config.rules| && config.rules[k].enabled
    ensures Reachable(w) && Free(w) && At(w, 0) == Idle && w.core.db.pending.None? && w.core.db.row.None?
    ensures GetRuleState(w.core.db, config.rules[k].id).baselinePrice == Some(1.0)
    ensures Begins(w.log, config, own) && SeenOnlyIn(w.log, MarketOf(config, config.rules[k].trigger.pairId))
    ensures forall e :: e in w.log ==> !e.Published?
  {
    var rule := config.rules[k];
    var s := Session(config, 0, None, rule.trigger.pairId);
    var snapshot := PairSnapshot(rule.trigger.pairId, "a", "b", 1.0, 1.0);
    assert snapshot.Price() == Some(1.0);
    hide Reachable, Begins, SeenOnlyIn;
    InstalledReachable();
    var w1 := Observe(Installed(), 0, s, snapshot);
    FirstObserved(Installed().log, w1.log, s, 1.0, own);
    var w2 := Walk(w1, 0, Pass(s, snapshot, MatchingRules(config.rules, rule.trigger.pairId)), rule.id);
    w := Dies(w2, 0);
    StillBegins(w1.log, w.log, config, own);
    OnlySeen(MarketOf(config, s.pairId), w1.log, w.log);
  }

  lemma StillBegins(log: Log, log': Log, config: AutomationConfig, own: AutomationConfig)
    requires Begins(log, config, own)
    requires forall e :: e in log' ==>
               e in log || e.Quiet? || e.Initialised? || (e.Published? && e.replaced == Some(own))
    ensures Begins(log', config, own)
  {
  }

  /**
   From an enabled rule of the evaluators whose id does not lead to the rule's market in the first
   publisher's own configuration, an execution keeps a baseline of another market.
   */
  lemma Outlives(config: AutomationConfig, own: AutomationConfig, k: nat) returns (w: World)
    requires ValidRules(config) && k < |config.rules| && config.rules[k].enabled
    requires var pair := PairOf(own.rules, config.rules[k].id);
             pair.Some? ==> MarketOf(own, pair.value) != MarketOf(config, config.rules[k].trigger.pairId)
    ensures Reachable(w) && Begins(w.log, config, own) && AllUnambiguous(w.log) && w.core.db.row.Some?
    ensures GetRuleState(w.core.db, config.rules[k].id).baselinePrice == Some(1.0)
    ensures !SeenFor(w.core.db.row.value.config, config.rules[k].id, 1.0, w.log)
  {
    var rule := config.rules[k];
    var target, market := own.(rules := Only(own.rules, rule.id)), MarketOf(config, rule.trigger.pairId);
    hide Reachable, PairOf, Unambiguous, Begins, SeenFor, SeenOnlyIn, Only;
    hide SaveActiveConfig, PublishedEvent, ActiveConfig, Free;
    OnlyLeads(own.rules, rule.id);
    var w1 := FirstBaseline(config, own, k);
    FirstSaved(w1.core.db, target, own, rule.id);
    w := Publishes(w1, 0, target, own);
    StillBegins(w1.log, w.log, config, own);
    OnlySeen(market, w1.log, w.log);
    NotSeen(target, rule.id, market, w.log);
  }

  /**
   Where evaluators worked under one configuration and a manager with another one published first, every
   baseline is in the market of what is stored if and only if the evaluators' enabled rules had their
   markets in the manager's own configuration too.
   */
  lemma FirstBelongsExactly(config: AutomationConfig, own: AutomationConfig)
    requires ValidRules(config)
    ensures SharesMarkets(config, own)
            <==> forall w: World, id: string ::
                   Reachable(w) && Begins(w.log, config, own) && AllUnambiguous(w.log) && w.core.db.row.Some? ==>
                     Belongs(w, w.core.db.row.value.config, id)
  {
    hide Reachable;
    if SharesMarkets(config, own) {
      forall w: World, id: string
             | Reachable(w) && Begins(w.log, config, own) && AllUnambiguous(w.log) && w.core.db.row.Some?
        ensures Belongs(w, w.core.db.row.value.config, id)
      {
        if GetRuleState(w.core.db, id).baselinePrice.Some? {
          BaselinesBelong(w, own, id);
        }
      }
    } else {
      var k: nat :| k < |config.rules| && config.rules[k].enabled
                    && var pair := PairOf(own.rules, config.rules[k].id);
                       pair.Some? ==> MarketOf(own, pair.value) != MarketOf(config, config.rules[k].trigger.pairId);
      var w := Outlives(config, own, k);
      assert !Belongs(w, w.core.db.row.value.config, config.rules[k].id);
    }
  }
}
