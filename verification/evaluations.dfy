/**
 What an evaluation makes of a rule: the process `p` takes its turns in order, and between any two of
 them everybody else, the chains and the clock may do whatever they like.
 */
module Evaluations {
  import opened Wrappers
  import opened Config
  import opened Network
  import opened Dex
  import opened Rules
  import opened Tables
  import opened Protocol
  import opened Invariant
  import opened Runs
  import opened Recoveries
  import opened RuleLaws

  // ---------- single steps ----------

  /** No run of this rule is held. */
  predicate Unburdened(db: Db, ruleId: string) {
    forall run :: 0 <= run < |db.runs| && run in db.uncertain ==> db.runs[run].ruleId != ruleId
  }

  lemma FindsNone(c: Core, pass: Pass, choice: Choice)
    requires pass.rules != [] && Unburdened(c.db, pass.rules[0].id)
    ensures HolderNext(c, NextRule(pass), choice) == Effect(c, Deciding(pass), Quiet)
  {
  }

  /** The rest of the pass. */
  function After(pass: Pass): Pc
    requires pass.rules != []
  {
    NextRule(pass.(rules := pass.rules[1..]))
  }

  function DecisionAt(c: Core, pass: Pass): RuleDecision
    requires pass.rules != []
  {
    EvaluatePriceMove(pass.rules[0], pass.snapshot, GetRuleState(c.db, pass.rules[0].id), c.clock)
  }

  /** Where a decision leads. */
  lemma Decides(c: Core, pass: Pass, choice: Choice)
    requires pass.rules != []
    ensures var e, decision := HolderNext(c, Deciding(pass), choice), DecisionAt(c, pass);
            var state, price := GetRuleState(c.db, pass.rules[0].id), pass.snapshot.Price();
            && e.core == c
            && e.pc == if decision.shouldExecute then Quoting(pass, price.GetOr(0.0), c.clock)
                       else if price.Some? && state.baselinePrice.GetOr(0.0) <= 0.0
                       then Initialising(pass, state.(baselinePrice := price))
                       else After(pass)
  {
    SetsBaselineWhen(pass.rules[0], GetRuleState(c.db, pass.rules[0].id), Look(pass.snapshot, c.clock, None));
    hide EvaluatePriceMove;
  }

  lemma Initialises(c: Core, pass: Pass, state: RuleRuntimeState, choice: Choice)
    requires pass.rules != [] && !choice.Fault?
    ensures var e := HolderNext(c, Initialising(pass, state), choice);
            && e.core == c.(db := c.db.(ruleState := c.db.ruleState[pass.rules[0].id := state]))
            && e.pc == After(pass)
  {
  }

  lemma Quotes(c: Core, pass: Pass, price: real, at: int, feeBps: int)
    requires pass.rules != []
    ensures var action := pass.rules[0].action;
            var quote := QuoteExactIn(pass.snapshot, action.src, action.amountIn, feeBps);
            var e := HolderNext(c, Quoting(pass, price, at), Priced(feeBps));
            && e.core == c
            && (quote.None? ==> exists error :: e.pc == Reporting(pass, "quote_failed", error))
            && (quote.Some? ==>
                  e.pc == if pass.session.config.wallet.execute
                          then Preparing(pass, price, feeBps, MinimumAllowed(quote.value, action.maxSlippageBps))
                          else DryState(pass, price, at))
  {
    hide QuoteExactIn, MinimumAllowed;
  }

  /** The node answers with a chain the configuration admits and with a nonce that is not consumed there. */
  predicate Signable(net: Net, session: Session, nonce: nat) {
    var url := session.config.network.rpcUrl;
    && session.sender.Some?
    && url in net.reports
    && session.config.network.chainId in {None, Some(net.reports[url])}
    && var account := Account(net.reports[url], session.sender.value);
       account in net.committed ==> net.committed[account] < nonce
  }

  lemma Prepares(
    c: Core, pass: Pass, price: real, feeBps: int, least: real, nonce: nat, base: int, chi: nat)
    requires pass.rules != [] && Signable(c.net, pass.session, nonce)
    ensures var call := BuildSwapExactInCall(pass.session.config, pass.session.sender, pass.snapshot,
                                             pass.rules[0].action, least, base);
            var e := HolderNext(c, Preparing(pass, price, feeBps, least), Signed(nonce, base, chi));
            var url := pass.session.config.network.rpcUrl;
            && e.core == c
            && (call.None? ==> exists error :: e.pc == Reporting(pass, "submission_failed", error))
            && (call.Some? ==>
                  e.pc == Journaling(pass, price,
                                     PreparedSwap(url, Tx(Account(c.net.reports[url], pass.session.sender.value),
                                                          nonce, call.value, chi)),
                                     Origin(pass.rules[0], pass.snapshot, feeBps, base)))
  {
    hide BuildSwapExactInCall;
  }

  lemma Journals(c: Core, pass: Pass, price: real, swap: PreparedSwap, origin: Origin, choice: Choice)
    requires pass.rules != [] && c.db.pending.None? && !choice.Fault?
    ensures var e, run := HolderNext(c, Journaling(pass, price, swap, origin), choice), |c.db.runs|;
            && e.core == c.(db := c.db.(
                 runs := c.db.runs + [RunRow(pass.rules[0].id, Pending, PRICE_MOVE, Some(swap.tx),
                                             Details(pass.snapshot, None, None, false))],
                 pending := Some(PendingRow(run, swap, price, false))))
            && e.pc == Recovering(AfterSigning(pass), Loading(true, None))
            && e.event == Journaled(run, pass.rules[0].id, swap.tx, RowOf(pass.session), origin)
  {
  }

  lemma Reports(c: Core, pass: Pass, reason: string, error: string, choice: Choice)
    requires pass.rules != [] && !choice.Fault?
    ensures var e := HolderNext(c, Reporting(pass, reason, error), choice);
            && e.core == c.(db := c.db.(runs := c.db.runs + [RunRow(pass.rules[0].id, Failed, reason, None,
                                                                    Details(pass.snapshot, Some(error), None, false))]))
            && e.pc == After(pass)
  {
  }

  lemma RunsDry(c: Core, pass: Pass, price: real, at: int, choice: Choice)
    requires pass.rules != [] && !choice.Fault?
    ensures var e := HolderNext(c, DryState(pass, price, at), choice);
            && e.core == c.(db := c.db.(ruleState := c.db.ruleState[pass.rules[0].id :=
                                                         RuleRuntimeState(Some(price), Some(at))]))
            && e.pc == DryReport(pass)
  {
  }

  lemma ReportsDry(c: Core, pass: Pass, choice: Choice)
    requires pass.rules != [] && !choice.Fault?
    ensures var e := HolderNext(c, DryReport(pass), choice);
            && e.core == c.(db := c.db.(runs := c.db.runs + [RunRow(pass.rules[0].id, DryRun, PRICE_MOVE, None,
                                                                    Details(pass.snapshot, None, None, false))]))
            && e.pc == After(pass)
  {
  }

  // ---------- turns ----------

  /** A turn that changes nothing of the machine but where the process is, and may log something. */
  lemma Goes(w: World, w1: World, o: seq<Turn>, p: Pid, c: Choice, pc: Pc)
    requires Inv(w1) && Meanwhile(w, w1) && Working(At(w1, p)) && Aside(o, p)
    requires var e := HolderNext(Run(w1, o).core, At(w1, p), c); e.core == Run(w1, o).core && e.pc == pc
    ensures Inv(Then(w1, o, p, c)) && Meanwhile(w, Then(w1, o, p, c)) && At(Then(w1, o, p, c), p) == pc
  {
    hide Inv, Run, Next, HolderNext, Working, At, Consumed;
    Moves(w1, o, p, c);
  }

  /** A process is about to take up a rule that is not held. */
  ghost predicate TakesUp(w: World, p: Pid, pass: Pass) {
    && Reachable(w)
    && At(w, p) == NextRule(pass)
    && pass.rules != []
    && Unburdened(w.core.db, pass.rules[0].id)
  }

  lemma TakenUp(w: World, p: Pid, pass: Pass)
    requires TakesUp(w, p, pass)
    ensures Inv(w) && w.core.db.pending.None? && Working(At(w, p)) && pass.rules != [] && At(w, p) == NextRule(pass)
  {
    hide Reachable, Inv;
    ReachableIsSafe(w);
    ReachableHolder(w, p);
  }

  lemma PassWorks(pass: Pass)
    requires pass.rules != []
    ensures Working(Deciding(pass)) && Working(DryReport(pass))
    ensures forall state :: Working(Initialising(pass, state))
    ensures forall price, at :: Working(Quoting(pass, price, at)) && Working(DryState(pass, price, at))
    ensures forall price, feeBps, least :: Working(Preparing(pass, price, feeBps, least))
    ensures forall price, swap, origin :: Working(Journaling(pass, price, swap, origin))
    ensures forall reason, error :: Working(Reporting(pass, reason, error))
  {
  }

  /** The rule is not held, so it is decided. */
  lemma ComesToDecide(w: World, p: Pid, pass: Pass, o: seq<Turn>, c: Choice)
    requires TakesUp(w, p, pass) && Aside(o, p)
    ensures var w1 := Then(w, o, p, c);
            Inv(w1) && Meanwhile(w, w1) && At(w1, p) == Deciding(pass) && w.core.db.pending.None? && pass.rules != []
  {
    hide Inv, Reachable, Run, Next, HolderNext, Working, At, Consumed, Unburdened;
    TakenUp(w, p, pass);
    AsideKeeps(w, o, p);
    SameHolds(w.core.db, Run(w, o).core.db, pass.rules[0].id);
    FindsNone(Run(w, o).core, pass, c);
    Goes(w, w, o, p, c, Deciding(pass));
  }

  lemma SameHolds(db: Db, db1: Db, ruleId: string)
    requires db1 == db.(cursors := db1.cursors) && Unburdened(db, ruleId)
    ensures Unburdened(db1, ruleId)
  {
  }

  // ---------- a rule that acts ----------

  /** The rule is decided at this clock: it acts. */
  predicate ActsAt(w: World, pass: Pass, clock: int)
    requires pass.rules != []
  {
    EvaluatePriceMove(pass.rules[0], pass.snapshot, GetRuleState(w.core.db, pass.rules[0].id), clock).shouldExecute
  }

  lemma ComesToQuote(w: World, p: Pid, pass: Pass, o0: seq<Turn>, o1: seq<Turn>, c0: Choice, c1: Choice)
    requires TakesUp(w, p, pass) && Aside(o0, p) && Aside(o1, p)
    requires ActsAt(w, pass, Run(Then(w, o0, p, c0), o1).core.clock)
    ensures var w2 := Then(Then(w, o0, p, c0), o1, p, c1);
            && Inv(w2) && Meanwhile(w, w2) && w.core.db.pending.None?
            && At(w2, p) == Quoting(pass, pass.snapshot.Price().GetOr(0.0), Run(Then(w, o0, p, c0), o1).core.clock)
  {
    hide *;
    ComesToDecide(w, p, pass, o0, c0);
    var w1 := Then(w, o0, p, c0);
    PassWorks(pass);
    Lasts(w, w1, o1, p);
    Decides(Run(w1, o1).core, pass, c1);
    SameState(w, Run(w1, o1), pass);
    Goes(w, w1, o1, p, c1, Quoting(pass, pass.snapshot.Price().GetOr(0.0), Run(w1, o1).core.clock));
  }

  lemma SameState(w: World, w1: World, pass: Pass)
    requires pass.rules != [] && Meanwhile(w, w1)
    ensures DecisionAt(w1.core, pass)
            == EvaluatePriceMove(pass.rules[0], pass.snapshot, GetRuleState(w.core.db, pass.rules[0].id), w1.core.clock)
    ensures DecisionAt(w1.core, pass).shouldExecute == ActsAt(w, pass, w1.core.clock)
    ensures GetRuleState(w1.core.db, pass.rules[0].id) == GetRuleState(w.core.db, pass.rules[0].id)
  {
    hide Consumed, EvaluatePriceMove;
  }

  function QuoteFor(pass: Pass, feeBps: int): Option<real>
    requires pass.rules != []
  {
    QuoteExactIn(pass.snapshot, pass.rules[0].action.src, pass.rules[0].action.amountIn, feeBps)
  }

  lemma QuotesFor(c: Core, pass: Pass, price: real, at: int, feeBps: int)
    requires pass.rules != [] && QuoteFor(pass, feeBps).Some?
    ensures var e := HolderNext(c, Quoting(pass, price, at), Priced(feeBps));
            && e.core == c
            && e.pc == if pass.session.config.wallet.execute
                       then Preparing(pass, price, feeBps,
                                      MinimumAllowed(QuoteFor(pass, feeBps).value, pass.rules[0].action.maxSlippageBps))
                       else DryState(pass, price, at)
  {
    Quotes(c, pass, price, at, feeBps);
    hide HolderNext, QuoteExactIn, MinimumAllowed;
  }

  /** The call of the rule for this fee and this base of its deadline. */
  function CallFor(pass: Pass, feeBps: int, base: int): Option<CallPlan>
    requires pass.rules != []
  {
    SwapCall(pass.session.config, pass.session.sender, pass.snapshot, pass.rules[0].action, feeBps, base)
  }

  lemma ComesToPrepare(
    w: World, p: Pid, pass: Pass, o0: seq<Turn>, o1: seq<Turn>, o2: seq<Turn>, c0: Choice, c1: Choice, feeBps: int)
    requires TakesUp(w, p, pass) && Aside(o0, p) && Aside(o1, p) && Aside(o2, p)
    requires ActsAt(w, pass, Run(Then(w, o0, p, c0), o1).core.clock)
    requires QuoteFor(pass, feeBps).Some?
    ensures var w1 := Then(w, o0, p, c0);
            var w3 := Then(Then(w1, o1, p, c1), o2, p, Priced(feeBps));
            && Inv(w3) && Meanwhile(w, w3) && w.core.db.pending.None?
            && At(w3, p) == if pass.session.config.wallet.execute
                            then Preparing(pass, pass.snapshot.Price().GetOr(0.0), feeBps,
                                           MinimumAllowed(QuoteFor(pass, feeBps).value,
                                                          pass.rules[0].action.maxSlippageBps))
                            else DryState(pass, pass.snapshot.Price().GetOr(0.0), Run(w1, o1).core.clock)
  {
    hide *;
    TakenUp(w, p, pass);
    ComesToQuote(w, p, pass, o0, o1, c0, c1);
    var clock := Run(Then(w, o0, p, c0), o1).core.clock;
    var price, w2 := pass.snapshot.Price().GetOr(0.0), Then(Then(w, o0, p, c0), o1, p, c1);
    PassWorks(pass);
    QuotesFor(Run(w2, o2).core, pass, price, clock, feeBps);
    Goes(w, w2, o2, p, Priced(feeBps),
         if pass.session.config.wallet.execute
         then Preparing(pass, price, feeBps,
                        MinimumAllowed(QuoteFor(pass, feeBps).value, pass.rules[0].action.maxSlippageBps))
         else DryState(pass, price, clock));
  }

  /** The swap the node's answers make of a rule. */
  function SignedSwap(net: Net, pass: Pass, call: CallPlan, nonce: nat, chi: nat): PreparedSwap
    requires Signable(net, pass.session, nonce)
  {
    var url := pass.session.config.network.rpcUrl;
    PreparedSwap(url, Tx(Account(net.reports[url], pass.session.sender.value), nonce, call, chi))
  }

  lemma PreparesFor(
    c: Core, pass: Pass, price: real, feeBps: int, nonce: nat, base: int, chi: nat)
    requires pass.rules != [] && Signable(c.net, pass.session, nonce) && CallFor(pass, feeBps, base).Some?
    ensures QuoteFor(pass, feeBps).Some?
    ensures var least := MinimumAllowed(QuoteFor(pass, feeBps).value, pass.rules[0].action.maxSlippageBps);
            var e := HolderNext(c, Preparing(pass, price, feeBps, least), Signed(nonce, base, chi));
            && e.core == c
            && e.pc == Journaling(pass, price, SignedSwap(c.net, pass, CallFor(pass, feeBps, base).value, nonce, chi),
                                  Origin(pass.rules[0], pass.snapshot, feeBps, base))
  {
    Prepares(c, pass, price, feeBps,
             MinimumAllowed(QuoteFor(pass, feeBps).value, pass.rules[0].action.maxSlippageBps), nonce, base, chi);
    hide HolderNext, QuoteExactIn, MinimumAllowed, BuildSwapExactInCall;
  }

  /** The run a signed swap is journaled as, in the slot and not yet attempted; nothing else changes. */
  ghost predicate JournaledAs(db: Db, db': Db, pass: Pass, swap: PreparedSwap, price: real)
    requires pass.rules != []
  {
    && db'.runs == db.runs + [RunRow(pass.rules[0].id, Pending, "price_move_threshold_reached", Some(swap.tx),
                                     Details(pass.snapshot, None, None, false))]
    && db'.pending == Some(PendingRow(|db.runs|, swap, price, false))
    && db'.uncertain == db.uncertain
    && db'.ruleState == db.ruleState
    && db'.row == db.row
  }

  lemma JournalsAs(
    w: World, c: Core, pass: Pass, price: real, swap: PreparedSwap, origin: Origin, choice: Choice)
    requires pass.rules != [] && w.core.db.pending.None? && !choice.Fault?
    requires c.db == w.core.db.(cursors := c.db.cursors)
    ensures var e := HolderNext(c, Journaling(pass, price, swap, origin), choice);
            && JournaledAs(w.core.db, e.core.db, pass, swap, price)
            && e.core.net == c.net
            && e.pc == Recovering(AfterSigning(pass), Loading(true, None))
            && e.event == Journaled(|w.core.db.runs|, pass.rules[0].id, swap.tx, RowOf(pass.session), origin)
  {
    Journals(c, pass, price, swap, origin, choice);
    hide HolderNext;
  }

  /**
   A rule that is not held and whose decision is to act, on a liquid pair and with a node that answers, is
   signed and journaled: the slot holds the swap of its own call, and its submission is next.
   */
  lemma ActionIsJournaled(
    w: World, p: Pid, pass: Pass, o0: seq<Turn>, o1: seq<Turn>, o2: seq<Turn>, o3: seq<Turn>, o4: seq<Turn>,
    c0: Choice, c1: Choice, feeBps: int, nonce: nat, base: int, chi: nat, c4: Choice)
    requires TakesUp(w, p, pass) && !c4.Fault? && pass.session.config.wallet.execute
    requires Aside(o0, p) && Aside(o1, p) && Aside(o2, p) && Aside(o3, p) && Aside(o4, p)
    requires ActsAt(w, pass, Run(Then(w, o0, p, c0), o1).core.clock)
    requires CallFor(pass, feeBps, base).Some?
    requires var w3 := Then(Then(Then(w, o0, p, c0), o1, p, c1), o2, p, Priced(feeBps));
             Signable(Run(w3, o3).core.net, pass.session, nonce)
    ensures var w3 := Then(Then(Then(w, o0, p, c0), o1, p, c1), o2, p, Priced(feeBps));
            var done := Then(Then(w3, o3, p, Signed(nonce, base, chi)), o4, p, c4);
            var swap := SignedSwap(Run(w3, o3).core.net, pass, CallFor(pass, feeBps, base).value, nonce, chi);
            && JournaledAs(w.core.db, done.core.db, pass, swap, pass.snapshot.Price().GetOr(0.0))
            && At(done, p) == Recovering(AfterSigning(pass), Loading(true, None))
            && done.log != []
            && done.log[|done.log| - 1]
               == Journaled(|w.core.db.runs|, pass.rules[0].id, swap.tx, RowOf(pass.session),
                            Origin(pass.rules[0], pass.snapshot, feeBps, base))
  {
    hide *;
    TakenUp(w, p, pass);
    var w3 := Then(Then(Then(w, o0, p, c0), o1, p, c1), o2, p, Priced(feeBps));
    var net, price := Run(w3, o3).core.net, pass.snapshot.Price().GetOr(0.0);
    PreparesFor(Run(w3, o3).core, pass, price, feeBps, nonce, base, chi);
    ComesToPrepare(w, p, pass, o0, o1, o2, c0, c1, feeBps);
    PassWorks(pass);
    var swap := SignedSwap(net, pass, CallFor(pass, feeBps, base).value, nonce, chi);
    var origin := Origin(pass.rules[0], pass.snapshot, feeBps, base);
    Goes(w, w3, o3, p, Signed(nonce, base, chi), Journaling(pass, price, swap, origin));
    var w4 := Then(w3, o3, p, Signed(nonce, base, chi));
    Lasts(w, w4, o4, p);
    Moves(w4, o4, p, c4);
    SameTables(w, Run(w4, o4));
    JournalsAs(w, Run(w4, o4).core, pass, price, swap, origin, c4);
  }

  lemma SameTables(w: World, w1: World)
    requires Meanwhile(w, w1)
    ensures w1.core.db == w.core.db.(cursors := w1.core.db.cursors)
    ensures w1.core.net.live == w.core.net.live
  {
    hide Consumed;
  }

  // ---------- a rule that does not submit ----------

  /** One more row of this outcome, and possibly the rule's state; nothing else changes. */
  ghost predicate ReportedAs(
    db: Db, db': Db, pass: Pass, status: Status, reason: string, error: Option<string>, state: RuleRuntimeState)
    requires pass.rules != []
  {
    && db'.runs == db.runs + [RunRow(pass.rules[0].id, status, reason, None,
                                     Details(pass.snapshot, error, None, false))]
    && db'.pending == db.pending
    && db'.uncertain == db.uncertain
    && GetRuleState(db', pass.rules[0].id) == state
    && (forall id :: id != pass.rules[0].id ==> GetRuleState(db', id) == GetRuleState(db, id))
    && db'.row == db.row
  }

  /** Without leave to execute, acting is a dry run: the rule advances as if it had traded, and a row says so. */
  lemma ActionRunsDry(
    w: World, p: Pid, pass: Pass, o0: seq<Turn>, o1: seq<Turn>, o2: seq<Turn>, o3: seq<Turn>, o4: seq<Turn>,
    c0: Choice, c1: Choice, feeBps: int, c3: Choice, c4: Choice)
    requires TakesUp(w, p, pass) && !c3.Fault? && !c4.Fault? && !pass.session.config.wallet.execute
    requires Aside(o0, p) && Aside(o1, p) && Aside(o2, p) && Aside(o3, p) && Aside(o4, p)
    requires ActsAt(w, pass, Run(Then(w, o0, p, c0), o1).core.clock)
    requires QuoteFor(pass, feeBps).Some?
    ensures var at := Run(Then(w, o0, p, c0), o1).core.clock;
            var w3 := Then(Then(Then(w, o0, p, c0), o1, p, c1), o2, p, Priced(feeBps));
            var done := Then(Then(w3, o3, p, c3), o4, p, c4);
            && ReportedAs(w.core.db, done.core.db, pass, DryRun, "price_move_threshold_reached", None,
                          RuleRuntimeState(Some(pass.snapshot.Price().GetOr(0.0)), Some(at)))
            && At(done, p) == After(pass)
            && done.core.net.live == w.core.net.live
  {
    hide *;
    TakenUp(w, p, pass);
    ComesToPrepare(w, p, pass, o0, o1, o2, c0, c1, feeBps);
    PassWorks(pass);
    var at, price := Run(Then(w, o0, p, c0), o1).core.clock, pass.snapshot.Price().GetOr(0.0);
    var w3 := Then(Then(Then(w, o0, p, c0), o1, p, c1), o2, p, Priced(feeBps));
    Lasts(w, w3, o3, p);
    Moves(w3, o3, p, c3);
    RunsDry(Run(w3, o3).core, pass, price, at, c3);
    var w4 := Then(w3, o3, p, c3);
    AsideKeeps(w4, o4, p);
    Moves(w4, o4, p, c4);
    ReportsDry(Run(w4, o4).core, pass, c4);
    DryTables(w, Run(w3, o3), w4, Run(w4, o4), Then(w4, o4, p, c4), pass,
              RuleRuntimeState(Some(price), Some(at)));
  }

  lemma DryTables(
    w: World, w1: World, w2: World, w3: World, w4: World, pass: Pass, state: RuleRuntimeState)
    requires pass.rules != [] && Meanwhile(w, w1) && Meanwhile(w2, w3)
    requires w2.core == w1.core.(db := w1.core.db.(ruleState := w1.core.db.ruleState[pass.rules[0].id := state]))
    requires w4.core == w3.core.(db := w3.core.db.(runs := w3.core.db.runs +
                                   [RunRow(pass.rules[0].id, DryRun, PRICE_MOVE, None,
                                           Details(pass.snapshot, None, None, false))]))
    ensures ReportedAs(w.core.db, w4.core.db, pass, DryRun, "price_move_threshold_reached", None, state)
    ensures w4.core.net.live == w.core.net.live
  {
    hide Consumed;
  }

  /** A quote that fails or cannot be had is reported under the rule, which stays as it is. */
  lemma QuoteFailureIsReported(
    w: World, p: Pid, pass: Pass, o0: seq<Turn>, o1: seq<Turn>, o2: seq<Turn>, o3: seq<Turn>,
    c0: Choice, c1: Choice, c2: Choice, c3: Choice)
    requires TakesUp(w, p, pass) && !c3.Fault?
    requires Aside(o0, p) && Aside(o1, p) && Aside(o2, p) && Aside(o3, p)
    requires ActsAt(w, pass, Run(Then(w, o0, p, c0), o1).core.clock)
    requires c2.Fault? || (c2.Priced? && QuoteFor(pass, c2.feeBps).None?)
    ensures var done := Then(Then(Then(Then(w, o0, p, c0), o1, p, c1), o2, p, c2), o3, p, c3);
            && ReportedAs(w.core.db, done.core.db, pass, Failed, "quote_failed", Some(Raised(c2)),
                          GetRuleState(w.core.db, pass.rules[0].id))
            && At(done, p) == After(pass)
            && done.core.net.live == w.core.net.live
  {
    hide *;
    TakenUp(w, p, pass);
    ComesToQuote(w, p, pass, o0, o1, c0, c1);
    PassWorks(pass);
    var w2 := Then(Then(w, o0, p, c0), o1, p, c1);
    FailsToQuote(Run(w2, o2).core, pass, pass.snapshot.Price().GetOr(0.0),
                 Run(Then(w, o0, p, c0), o1).core.clock, c2);
    Goes(w, w2, o2, p, c2, Reporting(pass, "quote_failed", Raised(c2)));
    FailureIsReported(w, Then(w2, o2, p, c2), p, pass, "quote_failed", Raised(c2), o3, c3);
  }

  lemma FailsToQuote(c: Core, pass: Pass, price: real, at: int, choice: Choice)
    requires pass.rules != [] && (choice.Fault? || (choice.Priced? && QuoteFor(pass, choice.feeBps).None?))
    ensures HolderNext(c, Quoting(pass, price, at), choice)
            == Effect(c, Reporting(pass, "quote_failed", Raised(choice)), Quiet)
  {
    hide QuoteExactIn, MinimumAllowed;
  }

  lemma FailureIsReported(
    w: World, w1: World, p: Pid, pass: Pass, reason: string, error: string, o: seq<Turn>, c: Choice)
    requires pass.rules != [] && !c.Fault? && Aside(o, p)
    requires Inv(w1) && Meanwhile(w, w1) && At(w1, p) == Reporting(pass, reason, error)
    ensures var done := Then(w1, o, p, c);
            && ReportedAs(w.core.db, done.core.db, pass, Failed, reason, Some(error),
                          GetRuleState(w.core.db, pass.rules[0].id))
            && At(done, p) == After(pass)
            && done.core.net.live == w.core.net.live
  {
    hide Inv, Run, Next, HolderNext, Working, At, Consumed;
    PassWorks(pass);
    Lasts(w, w1, o, p);
    Moves(w1, o, p, c);
    Reports(Run(w1, o).core, pass, reason, error, c);
  }

  /** A swap that cannot be prepared is reported in the same way, and nothing is journaled. */
  lemma PreparationFailureIsReported(
    w: World, p: Pid, pass: Pass, o0: seq<Turn>, o1: seq<Turn>, o2: seq<Turn>, o3: seq<Turn>, o4: seq<Turn>,
    c0: Choice, c1: Choice, feeBps: int, c3: Choice, c4: Choice)
    requires TakesUp(w, p, pass) && !c4.Fault? && pass.session.config.wallet.execute
    requires Aside(o0, p) && Aside(o1, p) && Aside(o2, p) && Aside(o3, p) && Aside(o4, p)
    requires ActsAt(w, pass, Run(Then(w, o0, p, c0), o1).core.clock)
    requires QuoteFor(pass, feeBps).Some?
    requires var w3 := Then(Then(Then(w, o0, p, c0), o1, p, c1), o2, p, Priced(feeBps));
             || c3.Fault?
             || (c3.Signed? && (CallFor(pass, feeBps, c3.base).None?
                                || !Signable(Run(w3, o3).core.net, pass.session, c3.nonce)))
    ensures var w3 := Then(Then(Then(w, o0, p, c0), o1, p, c1), o2, p, Priced(feeBps));
            var done := Then(Then(w3, o3, p, c3), o4, p, c4);
            && ReportedAs(w.core.db, done.core.db, pass, Failed, "submission_failed", Some(Raised(c3)),
                          GetRuleState(w.core.db, pass.rules[0].id))
            && At(done, p) == After(pass)
            && done.core.net.live == w.core.net.live
  {
    hide *;
    TakenUp(w, p, pass);
    ComesToPrepare(w, p, pass, o0, o1, o2, c0, c1, feeBps);
    PassWorks(pass);
    var w3 := Then(Then(Then(w, o0, p, c0), o1, p, c1), o2, p, Priced(feeBps));
    FailsToPrepare(Run(w3, o3).core, pass, pass.snapshot.Price().GetOr(0.0), feeBps, c3);
    Goes(w, w3, o3, p, c3, Reporting(pass, "submission_failed", Raised(c3)));
    FailureIsReported(w, Then(w3, o3, p, c3), p, pass, "submission_failed", Raised(c3), o4, c4);
  }

  lemma FailsToPrepare(c: Core, pass: Pass, price: real, feeBps: int, choice: Choice)
    requires pass.rules != [] && QuoteFor(pass, feeBps).Some?
    requires || choice.Fault?
             || (choice.Signed? && (CallFor(pass, feeBps, choice.base).None?
                                    || !Signable(c.net, pass.session, choice.nonce)))
    ensures var least := MinimumAllowed(QuoteFor(pass, feeBps).value, pass.rules[0].action.maxSlippageBps);
            HolderNext(c, Preparing(pass, price, feeBps, least), choice)
            == Effect(c, Reporting(pass, "submission_failed", Raised(choice)), Quiet)
  {
    hide QuoteExactIn, MinimumAllowed, BuildSwapExactInCall;
  }

  /**
   A rule that does not act gets the price as its baseline if it has no usable one, and keeps its last action;
   otherwise nothing changes.
   */
  lemma WaitingKeeps(
    w: World, p: Pid, pass: Pass, o0: seq<Turn>, o1: seq<Turn>, o2: seq<Turn>, c0: Choice, c1: Choice, c2: Choice)
    requires TakesUp(w, p, pass) && Aside(o0, p) && Aside(o1, p) && Aside(o2, p) && !c2.Fault?
    requires !ActsAt(w, pass, Run(Then(w, o0, p, c0), o1).core.clock)
    ensures var w2 := Then(Then(w, o0, p, c0), o1, p, c1);
            var state, price := GetRuleState(w.core.db, pass.rules[0].id), pass.snapshot.Price();
            var starts := price.Some? && state.baselinePrice.GetOr(0.0) <= 0.0;
            var done := if starts then Then(w2, o2, p, c2) else w2;
            && done.core.db == w.core.db.(
                 cursors := done.core.db.cursors,
                 ruleState := if starts
                              then w.core.db.ruleState[pass.rules[0].id := RuleRuntimeState(price, state.lastActionAt)]
                              else w.core.db.ruleState)
            && At(done, p) == After(pass)
            && done.core.net.live == w.core.net.live
  {
    hide *;
    ComesToDecide(w, p, pass, o0, c0);
    var w1 := Then(w, o0, p, c0);
    PassWorks(pass);
    Lasts(w, w1, o1, p);
    Decides(Run(w1, o1).core, pass, c1);
    SameState(w, Run(w1, o1), pass);
    var state, price := GetRuleState(w.core.db, pass.rules[0].id), pass.snapshot.Price();
    if price.Some? && state.baselinePrice.GetOr(0.0) <= 0.0 {
      Goes(w, w1, o1, p, c1, Initialising(pass, state.(baselinePrice := price)));
      StartsOver(w, Then(w1, o1, p, c1), p, pass, state.(baselinePrice := price), o2, c2);
    } else {
      Goes(w, w1, o1, p, c1, After(pass));
      SameTables(w, Then(w1, o1, p, c1));
    }
  }

  lemma StartsOver(w: World, w1: World, p: Pid, pass: Pass, state: RuleRuntimeState, o: seq<Turn>, c: Choice)
    requires pass.rules != [] && !c.Fault? && Aside(o, p)
    requires Inv(w1) && Meanwhile(w, w1) && At(w1, p) == Initialising(pass, state)
    ensures var done := Then(w1, o, p, c);
            && done.core.db == w.core.db.(cursors := done.core.db.cursors,
                                          ruleState := w.core.db.ruleState[pass.rules[0].id := state])
            && At(done, p) == After(pass)
            && done.core.net.live == w.core.net.live
  {
    hide Inv, Run, Next, HolderNext, Working, At, Consumed;
    PassWorks(pass);
    Lasts(w, w1, o, p);
    Moves(w1, o, p, c);
    Initialises(Run(w1, o).core, pass, state, c);
  }

  // ---------- before the rules and after a submission ----------

  /**
   Once recovery has left nothing pending, a snapshot of the pair starts the pass over the enabled rules of the
   pair in their order; a recovery that is still pending ends the evaluation instead.
   */
  lemma PassStarts(
    w: World, p: Pid, session: Session, result: Option<Result>, o0: seq<Turn>, o1: seq<Turn>, c0: Choice,
    snapshot: PairSnapshot)
    returns (pass: Pass, at: seq<nat>)
    requires Reachable(w) && At(w, p) == Recovering(BeforePass(session), Settled(result))
    requires Aside(o0, p) && Aside(o1, p) && snapshot.pairId == session.pairId
    ensures var w1 := Then(w, o0, p, c0);
            if w.core.db.pending.Some? then At(w1, p) == Leaving
            else
              var w2 := Then(w1, o1, p, Snapshot(snapshot));
              && At(w2, p) == NextRule(pass)
              && pass.session == session && pass.snapshot == snapshot
              && Lists(session.config.rules, session.pairId, at)
              && Picks(session.config.rules, at, pass.rules)
              && Meanwhile(w, w2)
  {
    pass := Pass(session, snapshot, MatchingRules(session.config.rules, session.pairId));
    at := MatchingInOrder(session.config.rules, session.pairId);
    hide *;
    ReachableIsSafe(w);
    SettledIs(w, p, BeforePass(session), result);
    RecoveringWorks(BeforePass(session), Settled(result));
    Itself(w);
    Lasts(w, w, o0, p);
    Resumes(w, Run(w, o0), BeforePass(session), result, c0);
    var w1 := Then(w, o0, p, c0);
    if w.core.db.pending.Some? {
      Steps(w, w, o0, p, c0, Leaving);
    } else {
      Steps(w, w, o0, p, c0, Observing(session));
      ObservingWorks(session);
      Observes(Run(w1, o1).core, session, snapshot);
      Goes(w, w1, o1, p, Snapshot(snapshot), NextRule(pass));
    }
  }

  lemma Itself(w: World)
    ensures Meanwhile(w, w)
  {
    hide Consumed;
    assert w.core.db == w.core.db.(cursors := w.core.db.cursors);
  }

  /** Exactly an occupied slot makes the result of a reconciliation a pending one. */
  lemma SettledIs(w: World, p: Pid, purpose: Purpose, result: Option<Result>)
    requires Reachable(w) && At(w, p) == Recovering(purpose, Settled(result))
    ensures (result.Some? && result.value.status == Pending) <==> w.core.db.pending.Some?
  {
    hide Reachable, PurposeOk;
    ReachableHolder(w, p);
  }

  lemma Resumes(w: World, w1: World, purpose: Purpose, result: Option<Result>, choice: Choice)
    requires Meanwhile(w, w1)
    requires (result.Some? && result.value.status == Pending) <==> w.core.db.pending.Some?
    ensures HolderNext(w1.core, Recovering(purpose, Settled(result)), choice)
            == Effect(w1.core, match purpose
                               case BeforePass(session) =>
                                 if w.core.db.pending.Some? then Leaving else Observing(session)
                               case AfterSigning(pass) =>
                                 if result.None? || w.core.db.pending.Some? || pass.rules == [] then Leaving
                                 else After(pass)
                               case Background(_) => Leaving
                               case Drain(target, rest) =>
                                 if w.core.db.pending.Some? then Draining(target, rest) else Publishing(target), Quiet)
  {
    hide Consumed;
  }

  lemma ObservingWorks(session: Session)
    ensures Working(Observing(session))
  {
  }

  lemma Observes(c: Core, session: Session, snapshot: PairSnapshot)
    requires snapshot.pairId == session.pairId
    ensures var e := HolderNext(c, Observing(session), Snapshot(snapshot));
            && e.core == c
            && e.pc == NextRule(Pass(session, snapshot, MatchingRules(session.config.rules, session.pairId)))
  {
    hide MatchingRules;
  }

  /** After a submission the pass goes on to the next rule exactly if nothing is left pending. */
  lemma SubmissionEnds(w: World, p: Pid, pass: Pass, result: Option<Result>, o: seq<Turn>, c: Choice)
    requires Reachable(w) && At(w, p) == Recovering(AfterSigning(pass), Settled(result)) && Aside(o, p)
    ensures pass.rules != []
    ensures At(Then(w, o, p, c), p) == if w.core.db.pending.Some? then Leaving else After(pass)
    ensures Meanwhile(w, Then(w, o, p, c))
  {
    hide *;
    ReachableIsSafe(w);
    SettledIs(w, p, AfterSigning(pass), result);
    SigningHasResult(w, p, pass, result);
    SubmitsSomething(w, p, pass, result);
    RecoveringWorks(AfterSigning(pass), Settled(result));
    Itself(w);
    Lasts(w, w, o, p);
    Resumes(w, Run(w, o), AfterSigning(pass), result, c);
    Steps(w, w, o, p, c, if w.core.db.pending.Some? then Leaving else After(pass));
  }

  lemma SubmitsSomething(w: World, p: Pid, pass: Pass, result: Option<Result>)
    requires Reachable(w) && At(w, p) == Recovering(AfterSigning(pass), Settled(result))
    ensures pass.rules != []
  {
    hide Reachable, RecoveryOk;
    ReachableHolder(w, p);
  }
}
