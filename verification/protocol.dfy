/**
 The protocol as a transition system.  Processes share the database and two file locks; each takes
 one database transaction, one network operation or one lock operation at a time, in any order,
 and may die between any two of them.  A `Turn` fixes everything that is not determined by the
 state: who moves, what the network answers, which exception is raised.
 */
module Protocol {
  import opened Wrappers
  import opened Config
  import opened Network
  import opened Dex
  import opened Rules
  import opened Tables

  type Pid = nat

  // ---------- program counters ----------

  /** One pass of `_reconcile` over the loaded execution. */
  datatype Attempt = Attempt(execution: PendingExecution, swap: PreparedSwap, allow: bool)

  datatype Result = Result(ruleId: string, status: Status, reason: string)

  datatype Recovery =
    | Loading(allow: bool, rpc: Option<string>)
    | FirstLookup(a: Attempt)
    | NonceCheck(a: Attempt)
    | Releasing(a: Attempt)
    | Marking(a: Attempt)
    | Sending(a: Attempt)
    | Rejecting(a: Attempt, message: string)
    | SecondLookup(a: Attempt)
    | Finishing(a: Attempt, receipt: Receipt)
    | Noting(a: Attempt, error: string)
    | Settled(result: Option<Result>)

  /** What an evaluator is bound to before it looks at the market. */
  datatype Session = Session(config: AutomationConfig, generation: nat, sender: Option<string>, pairId: int)

  /** An evaluation that has its snapshot; `rules` are the rules still to do, the current one first. */
  datatype Pass = Pass(session: Session, snapshot: PairSnapshot, rules: seq<RuleConfig>)

  /** What a signed call was built from: the rule, the market it saw, and the node's fee and deadline base. */
  datatype Origin = Origin(rule: RuleConfig, snapshot: PairSnapshot, feeBps: int, base: int)

  /** On whose behalf an execution is reconciled. */
  datatype Purpose =
    | BeforePass(session: Session)
    | AfterSigning(pass: Pass)
    | Background(config: AutomationConfig)
    | Drain(target: AutomationConfig, rest: seq<string>)

  datatype Pc =
    | Idle
    // evaluate_pair
    | Admitted(session: Session)
    | Checking(session: Session)
    | Observing(session: Session)
    | NextRule(pass: Pass)
    | HeldLookup(pass: Pass, run: nat)
    | Resolving(pass: Pass, run: nat, receipt: Receipt)
    | Deciding(pass: Pass)
    | Initialising(pass: Pass, state: RuleRuntimeState)
    | Quoting(pass: Pass, price: real, at: int)
    | Reporting(pass: Pass, reason: string, error: string)
    | DryState(pass: Pass, price: real, at: int)
    | DryReport(pass: Pass)
    | Preparing(pass: Pass, price: real, feeBps: int, least: real)
    | Journaling(pass: Pass, price: real, swap: PreparedSwap, origin: Origin)
    // recover_once
    | Claimed(default: AutomationConfig)
    // any holder of the execution lock
    | Recovering(purpose: Purpose, recovery: Recovery)
    | Leaving
    // update
    | Gated(target: AutomationConfig)
    | DrainStart(target: AutomationConfig)
    | Draining(target: AutomationConfig, urls: seq<string>)
    | Publishing(target: AutomationConfig)
    | Closing

  // ---------- nondeterminism ----------

  datatype Choice =
    | Proceed
    | Fault(error: string)
    | Shown                              // a lookup that returns the receipt
    | NotShown                           // a lookup that times out
    | NonceIs(consumed: bool)
    | Answered(reply: Reply)
    | Snapshot(snapshot: PairSnapshot)
    | Priced(feeBps: int)
    | Signed(nonce: nat, base: int, chi: nat)
    | Evaluate(session: Session)
    | Recover(default: AutomationConfig)
    | Update(target: AutomationConfig)
    | Replacing(own: AutomationConfig)   // a publication by a manager that runs this configuration

  datatype Turn =
    | Act(pid: Pid, choice: Choice)
    | Die(pid: Pid)
    | Chain(shift: Shift)
    | Tick(elapsed: nat)
    | Cursor(pid: Pid, name: string, cursor: int)

  // ---------- history ----------

  /** The configuration that governs a send. */
  datatype Policy = Stored(config: AutomationConfig) | Target(config: AutomationConfig)

  /**
   A publication without a predecessor names the configuration it was compared with; an observation names
   the configuration and generation it was made under.
   */
  datatype Event =
    | Quiet
    | Published(row: ConfigRow, replaced: Option<AutomationConfig>)
    | Observed(market: Market, price: real, under: ConfigRow)
    | Quoted(ruleId: string, snapshot: PairSnapshot, feeBps: int)
    | Dated(tx: Tx, base: int)
    | Initialised(ruleId: string)
    | Decided(ruleId: string, at: int, cooldownSeconds: int)
    | DryRan(ruleId: string, at: int)
    | Journaled(run: nat, ruleId: string, tx: Tx, row: ConfigRow, origin: Origin)
    | Marked(run: nat)
    | Sent(run: nat, tx: Tx, reported: string, first: bool, refused: bool, policy: Policy)
    | Dismissed(run: nat)
    | Finished(run: nat, ruleId: string, tx: Tx, success: bool, at: int)
    | Held(run: nat, ruleId: string, tx: Tx)
    | Recovered(run: nat, ruleId: string, tx: Tx, success: bool, at: int)
    | Committed(tx: Tx, success: bool)
    | Outside(account: Account, nonce: nat)

  type Log = seq<Event>

  // ---------- state ----------

  datatype Core = Core(db: Db, net: Net, clock: int)

  datatype Gate = Shared(readers: set<Pid>) | Exclusive(writer: Pid)

  datatype World = World(core: Core, exec: Option<Pid>, gate: Gate, procs: map<Pid, Pc>, log: Log)

  function At(w: World, p: Pid): Pc {
    if p in w.procs then w.procs[p] else Idle
  }

  /** Outcome of one atomic step of the process that holds the execution lock. */
  datatype Effect = Effect(core: Core, pc: Pc, event: Event)

  datatype RecoveryEffect = RecoveryEffect(core: Core, recovery: Recovery, event: Event)

  // ---------- reconcile_execution ----------

  function PendingResult(e: PendingExecution): Result {
    Result(e.ruleId, Pending, "submission_pending")
  }

  function PolicyOf(purpose: Purpose): Policy {
    match purpose
    case BeforePass(session) => Stored(session.config)
    case AfterSigning(pass) => Stored(pass.session.config)
    case Background(config) => Stored(config)
    case Drain(target, _) => Target(target)
  }

  /** The receipt this attempt's endpoint can show, if there is one. */
  function ReceiptFor(net: Net, swap: PreparedSwap): Option<Receipt> {
    if OnChain(net, swap) && swap.tx in net.receipts then Some(net.receipts[swap.tx]) else None
  }

  /** The message of the exception that ended an operation. */
  function Raised(choice: Choice): string {
    if choice.Fault? then choice.error else "unexpected answer"
  }

  function RecoveryNext(c: Core, r: Recovery, choice: Choice, policy: Policy): RecoveryEffect
    requires !r.Settled?
  {
    var stay := (r': Recovery) => RecoveryEffect(c, r', Quiet);
    match r
    case Loading(allow, rpc) =>
      (match LoadPending(c.db)
       case None => stay(Settled(None))
       case Some(e) =>
         var a := Attempt(e, if rpc.Some? then e.swap.(rpcUrl := rpc.value) else e.swap, allow);
         if choice.Fault? then stay(Noting(a, Raised(choice)))
         else if e.broadcastAttempted then stay(FirstLookup(a))
         else if allow then stay(Marking(a))
         else stay(Settled(Some(PendingResult(e)))))
    case FirstLookup(a) =>
      var receipt := ReceiptFor(c.net, a.swap);
      if choice.Shown? && receipt.Some? then stay(Finishing(a, receipt.value)) else stay(NonceCheck(a))
    case NonceCheck(a) =>
      if !choice.NonceIs? || !OnChain(c.net, a.swap) then stay(Noting(a, Raised(choice)))
      else if !choice.consumed then
        if a.allow then stay(Marking(a)) else stay(Settled(Some(PendingResult(a.execution))))
      else if Consumed(c.net, a.swap.tx) then stay(Releasing(a))
      else stay(Noting(a, Raised(choice)))
    case Releasing(a) =>
      var db := ReleaseConsumedExecution(c.db, a.execution.run);
      if choice.Fault? || db.None? then stay(Noting(a, Raised(choice)))
      else
        RecoveryEffect(
          c.(db := db.value),
          Settled(Some(Result(a.execution.ruleId, OutcomeUnknown, "nonce_consumed_receipt_missing"))),
          Held(a.execution.run, a.execution.ruleId, a.execution.swap.tx))
    case Marking(a) =>
      var db := MarkBroadcastAttempted(c.db, a.execution.run);
      if choice.Fault? || db.None? then stay(Noting(a, Raised(choice)))
      else RecoveryEffect(c.(db := db.value), Sending(a), Marked(a.execution.run))
    case Sending(a) =>
      if !choice.Answered? || !OnChain(c.net, a.swap) then stay(Noting(a, Raised(choice)))
      else
        var first := !a.execution.broadcastAttempted;
        var reply := choice.reply;
        RecoveryEffect(
          c.(net := Deliver(c.net, a.swap.tx, reply, first)),
          if reply.Unclear? then Noting(a, reply.error)
          else if reply.Refused? && first then Rejecting(a, reply.message)
          else SecondLookup(a),
          Sent(a.execution.run, a.swap.tx, c.net.reports[a.swap.rpcUrl], first, TurnedAway(reply, first), policy))
    case Rejecting(a, message) =>
      var db := FinishExecution(c.db, a.execution.run, false, Some(message), c.clock);
      if choice.Fault? || db.None? then stay(Noting(a, Raised(choice)))
      else
        RecoveryEffect(
          c.(db := db.value),
          Settled(Some(Result(a.execution.ruleId, Failed, "submission_failed"))),
          Dismissed(a.execution.run))
    case SecondLookup(a) =>
      var receipt := ReceiptFor(c.net, a.swap);
      if choice.Shown? && receipt.Some? then stay(Finishing(a, receipt.value))
      else if choice.NotShown? && OnChain(c.net, a.swap) then stay(Settled(Some(PendingResult(a.execution))))
      else stay(Noting(a, Raised(choice)))
    case Finishing(a, receipt) =>
      var db := FinishExecution(c.db, a.execution.run, receipt.success, receipt.message, c.clock);
      if choice.Fault? || db.None? then stay(Noting(a, Raised(choice)))
      else
        RecoveryEffect(
          c.(db := db.value),
          Settled(Some(Result(a.execution.ruleId,
                              if receipt.success then Submitted else Failed,
                              db.value.runs[a.execution.run].reason))),
          Finished(a.execution.run, a.execution.ruleId, a.execution.swap.tx, receipt.success, c.clock))
    case Noting(a, error) =>
      RecoveryEffect(
        c.(db := NoteExecutionError(c.db, a.execution.run, error)),
        Settled(Some(PendingResult(a.execution))),
        Quiet)
  }

  // ---------- evaluate_pair, recover_once and update under the execution lock ----------

  /** `_configuration_changed` */
  predicate ConfigurationChanged(db: Db, s: Session) {
    || ConfigGeneration(db) != s.generation
    || ActiveConfig(db, s.config) != s.config
  }

  /** The configuration and generation a session works under. */
  function RowOf(s: Session): ConfigRow {
    ConfigRow(s.config, s.generation)
  }

  function Skip(pass: Pass): Pc
    requires pass.rules != []
  {
    NextRule(pass.(rules := pass.rules[1..]))
  }

  function Inputs(pass: Pass): Details {
    Details(pass.snapshot, None, None, false)
  }

  function DrainUrls(db: Db, target: AutomationConfig): seq<string> {
    if db.pending.None? then []
    else
      var swap := db.pending.value.swap;
      if target.network.chainId in {None, Some(swap.tx.account.chain)} && target.network.rpcUrl != swap.rpcUrl
      then [target.network.rpcUrl, swap.rpcUrl]
      else [swap.rpcUrl]
  }

  /** Where the purpose of a reconciliation resumes once it has its result. */
  function Resume(db: Db, purpose: Purpose, result: Option<Result>): Pc {
    var pending := result.Some? && result.value.status == Pending;
    match purpose
    case BeforePass(session) => if pending then Leaving else Observing(session)
    case AfterSigning(pass) => if result.None? || pending || pass.rules == [] then Leaving else Skip(pass)
    case Background(_) => Leaving
    case Drain(target, rest) => if db.pending.None? then Publishing(target) else Draining(target, rest)
  }

  /** Process counters from which the next step needs the execution lock and keeps it. */
  predicate Working(pc: Pc) {
    match pc
    case Idle | Admitted(_) | Claimed(_) | Gated(_) | Leaving | Closing => false
    case Draining(_, urls) => urls != []
    case HeldLookup(pass, _) => pass.rules != []
    case Resolving(pass, _, _) => pass.rules != []
    case Deciding(pass) => pass.rules != []
    case Initialising(pass, _) => pass.rules != []
    case Quoting(pass, _, _) => pass.rules != []
    case Reporting(pass, _, _) => pass.rules != []
    case DryState(pass, _, _) => pass.rules != []
    case DryReport(pass) => pass.rules != []
    case Preparing(pass, _, _, _) => pass.rules != []
    case Journaling(pass, _, _, _) => pass.rules != []
    case _ => true
  }

  function Decide(c: Core, pass: Pass): RuleDecision
    requires pass.rules != []
  {
    EvaluatePriceMove(pass.rules[0], pass.snapshot, GetRuleState(c.db, pass.rules[0].id), c.clock)
  }

  /** The least output of the current rule's swap for the fee the router quotes; `None` when quoting raises. */
  function LeastOut(pass: Pass, feeBps: int): Option<real>
    requires pass.rules != []
  {
    var action := pass.rules[0].action;
    match QuoteExactIn(pass.snapshot, action.src, action.amountIn, feeBps)
    case None => None
    case Some(quote) => Some(MinimumAllowed(quote, action.maxSlippageBps))
  }

  /** The current rule's call, signed for the chain the endpoint reports; `None` when preparation raises. */
  function Prepare(c: Core, pass: Pass, least: real, nonce: nat, base: int, chi: nat): Option<PreparedSwap>
    requires pass.rules != []
  {
    var s := pass.session;
    var url := s.config.network.rpcUrl;
    var call := BuildSwapExactInCall(s.config, s.sender, pass.snapshot, pass.rules[0].action, least, base);
    if call.None? || url !in c.net.reports || s.sender.None? then None
    else
      var chain := c.net.reports[url];
      var tx := Tx(Account(chain, s.sender.value), nonce, call.value, chi);
      if s.config.network.chainId !in {None, Some(chain)} || Consumed(c.net, tx) then None
      else Some(PreparedSwap(url, tx))
  }

  function HolderNext(c: Core, pc: Pc, choice: Choice): Effect
    requires Working(pc)
  {
    var go := (pc': Pc) => Effect(c, pc', Quiet);
    match pc
    case Checking(s) =>
      if ConfigurationChanged(c.db, s) then go(Leaving)
      else go(Recovering(BeforePass(s), Loading(s.config.wallet.execute, None)))
    case Recovering(purpose, recovery) =>
      if recovery.Settled? then go(Resume(c.db, purpose, recovery.result))
      else
        var r := RecoveryNext(c, recovery, choice, PolicyOf(purpose));
        Effect(r.core, Recovering(purpose, r.recovery), r.event)
    case Observing(s) =>
      if !choice.Snapshot? || choice.snapshot.pairId != s.pairId then go(Leaving)
      else
        var price := choice.snapshot.Price();
        Effect(
          c,
          NextRule(Pass(s, choice.snapshot, MatchingRules(s.config.rules, s.pairId))),
          if price.Some? then Observed(MarketOf(s.config, s.pairId), price.value, RowOf(s)) else Quiet)
    case NextRule(pass) =>
      if pass.rules == [] then go(Leaving)
      else
        (match UncertainFrom(c.db, pass.rules[0].id, 0)
         case None => go(Deciding(pass))
         case Some(run) => go(HeldLookup(pass, run)))
    case HeldLookup(pass, run) =>
      if run !in c.db.uncertain then go(Skip(pass))
      else
        var receipt := ReceiptFor(c.net, c.db.uncertain[run]);
        if choice.Shown? && receipt.Some? then go(Resolving(pass, run, receipt.value)) else go(Skip(pass))
    case Resolving(pass, run, receipt) =>
      var db := ResolveUncertainExecution(c.db, run, receipt.success, receipt.message, c.clock);
      if choice.Fault? || db.None? then go(Skip(pass))
      else
        Effect(
          c.(db := db.value),
          Deciding(pass),
          Recovered(run, c.db.runs[run].ruleId, c.db.uncertain[run].tx, receipt.success, c.clock))
    case Deciding(pass) =>
      var rule := pass.rules[0];
      var decision := Decide(c, pass);
      if !decision.shouldExecute then
        if decision.nextBaselinePrice.None? then go(Skip(pass))
        else
          go(Initialising(pass, RuleRuntimeState(decision.nextBaselinePrice,
                                                 GetRuleState(c.db, rule.id).lastActionAt)))
      else
        Effect(
          c,
          Quoting(pass, decision.nextBaselinePrice.GetOr(0.0), c.clock),
          Decided(rule.id, c.clock, rule.trigger.cooldownSeconds))
    case Initialising(pass, state) =>
      if choice.Fault? then go(Leaving)
      else Effect(c.(db := SaveRuleState(c.db, pass.rules[0].id, state)), Skip(pass), Initialised(pass.rules[0].id))
    case Quoting(pass, price, at) =>
      var least := if choice.Priced? then LeastOut(pass, choice.feeBps) else None;
      if least.None? then go(Reporting(pass, "quote_failed", Raised(choice)))
      else
        Effect(
          c,
          if pass.session.config.wallet.execute then Preparing(pass, price, choice.feeBps, least.value)
          else DryState(pass, price, at),
          Quoted(pass.rules[0].id, pass.snapshot, choice.feeBps))
    case Reporting(pass, reason, error) =>
      if choice.Fault? then go(Leaving)
      else
        var row := RunRow(pass.rules[0].id, Failed, reason, None, Inputs(pass).(error := Some(error)));
        Effect(c.(db := AppendRun(c.db, row)), Skip(pass), Quiet)
    case DryState(pass, price, at) =>
      if choice.Fault? then go(Leaving)
      else
        Effect(
          c.(db := SaveRuleState(c.db, pass.rules[0].id, RuleRuntimeState(Some(price), Some(at)))),
          DryReport(pass),
          DryRan(pass.rules[0].id, at))
    case DryReport(pass) =>
      if choice.Fault? then go(Leaving)
      else
        var row := RunRow(pass.rules[0].id, DryRun, PRICE_MOVE, None, Inputs(pass));
        Effect(c.(db := AppendRun(c.db, row)), Skip(pass), Quiet)
    case Preparing(pass, price, feeBps, least) =>
      var swap := if choice.Signed? then Prepare(c, pass, least, choice.nonce, choice.base, choice.chi) else None;
      if swap.None? then go(Reporting(pass, "submission_failed", Raised(choice)))
      else
        Effect(
          c,
          Journaling(pass, price, swap.value, Origin(pass.rules[0], pass.snapshot, feeBps, choice.base)),
          Dated(swap.value.tx, choice.base))
    case Journaling(pass, price, swap, origin) =>
      var rule := pass.rules[0];
      var db := BeginExecution(c.db, rule.id, swap, price, PRICE_MOVE, Inputs(pass));
      if choice.Fault? || db.None? then go(Leaving)
      else
        Effect(
          c.(db := db.value),
          Recovering(AfterSigning(pass), Loading(true, None)),
          Journaled(|c.db.runs|, rule.id, swap.tx, RowOf(pass.session), origin))
    case DrainStart(target) =>
      if c.db.pending.None? then go(Publishing(target)) else go(Draining(target, DrainUrls(c.db, target)))
    case Draining(target, urls) =>
      go(Recovering(Drain(target, urls[1..]), Loading(target.wallet.execute, Some(urls[0]))))
    case Publishing(target) =>
      if !choice.Replacing? then go(Closing)
      else
        var db := SaveActiveConfig(c.db, target, ActiveConfig(c.db, choice.own));
        Effect(c.(db := db), Closing, Published(db.row.value, if c.db.row.None? then Some(choice.own) else None))
  }

  // ---------- locks, deaths and the outside ----------

  function Enter(w: World, p: Pid, pc: Pc): World {
    w.(procs := w.procs[p := pc])
  }

  function Note(w: World, event: Event): World {
    w.(log := w.log + [event])
  }

  function DropGate(gate: Gate, p: Pid): Gate {
    match gate
    case Shared(readers) => Shared(readers - {p})
    case Exclusive(writer) => if writer == p then Shared({}) else gate
  }

  function DropExec(exec: Option<Pid>, p: Pid): Option<Pid> {
    if exec == Some(p) then None else exec
  }

  /** Steps that only take or give back a lock. */
  function LockNext(w: World, p: Pid, choice: Choice): World {
    match At(w, p)
    case Idle =>
      (match choice
       case Evaluate(session) =>
         if w.gate.Shared? then Enter(w, p, Admitted(session)).(gate := Shared(w.gate.readers + {p})) else w
       case Recover(default) =>
         if w.exec.None? then Enter(w, p, Claimed(default)).(exec := Some(p)) else w
       case Update(target) =>
         if w.gate == Shared({}) then Enter(w, p, Gated(target)).(gate := Exclusive(p)) else w
       case _ => w)
    case Admitted(session) =>
      if w.exec.None? then Enter(w, p, Checking(session)).(exec := Some(p), gate := DropGate(w.gate, p))
      else Enter(w, p, Idle).(gate := DropGate(w.gate, p))
    case Claimed(default) =>
      // the admission lock is only probed: it is given back before anything else happens
      var config := ActiveConfig(w.core.db, default);
      if w.gate.Shared? then
        Enter(w, p, Recovering(Background(config), Loading(config.wallet.execute, None)))
      else Enter(w, p, Idle).(exec := DropExec(w.exec, p))
    case Gated(target) =>
      if w.exec.None? then Enter(w, p, DrainStart(target)).(exec := Some(p)) else w
    case Draining(target, _) => Enter(w, p, Gated(target)).(exec := DropExec(w.exec, p))
    case _ => Enter(w, p, Idle).(exec := DropExec(w.exec, p), gate := DropGate(w.gate, p))
  }

  function ChainEvent(net: Net, s: Shift): Event {
    match s
    case Commit(tx, receipt) =>
      if tx in net.live && !Consumed(net, tx) then Committed(tx, receipt.success) else Quiet
    case Foreign(account, nonce) =>
      if account in net.committed && nonce <= net.committed[account] then Quiet else Outside(account, nonce)
    case Relabel(_, _) => Quiet
  }

  function Next(w: World, t: Turn): World {
    match t
    case Act(p, choice) =>
      if Working(At(w, p)) then
        var e := HolderNext(w.core, At(w, p), choice);
        Note(Enter(w, p, e.pc).(core := e.core), e.event)
      else Note(LockNext(w, p, choice), Quiet)
    case Die(p) =>
      Note(Enter(w, p, Idle).(exec := DropExec(w.exec, p), gate := DropGate(w.gate, p)), Quiet)
    case Chain(s) =>
      Note(w.(core := w.core.(net := Move(w.core.net, s))), ChainEvent(w.core.net, s))
    case Tick(elapsed) => Note(w.(core := w.core.(clock := w.core.clock + elapsed)), Quiet)
    case Cursor(_, name, cursor) =>
      Note(w.(core := w.core.(db := SaveCursor(w.core.db, name, cursor))), Quiet)
  }

  /** Every execution of the system is `Run(w, turns)` for some turns. */
  function Run(w: World, turns: seq<Turn>): World
    decreases |turns|
  {
    if turns == [] then w
    else Next(Run(w, turns[..|turns| - 1]), turns[|turns| - 1])
  }

  /** An empty journal, with or without a stored configuration, no process at work and nothing sent. */
  ghost predicate Init(w: World) {
    && (w.core.db.row.Some? ==> w.core.db.row.value.generation > 0)
    && w.core.db == Db([], None, map[], map[], map[], w.core.db.row)
    && w.core.net.live == {}
    && w.core.net.receipts == map[]
    && w.core.net.shared == {}
    && w.exec == None
    && w.gate == Shared({})
    && w.procs == map[]
    && w.log == [if w.core.db.row.Some? then Published(w.core.db.row.value, None) else Quiet]
  }

  /** A state some execution gets into. */
  ghost predicate Reachable(w: World) {
    exists start, turns :: Init(start) && w == Run(start, turns)
  }
}
