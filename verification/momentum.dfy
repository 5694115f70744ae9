/**
 The baselines of whole executions: what a stored baseline can do in one turn, and how the prices of a
 rule's actions compound over any number of processes, failures and reconfigurations.
 */
module Momentum {
  import opened Wrappers
  import opened Config
  import opened Network
  import opened Rules
  import opened Tables
  import opened Protocol
  import opened History
  import opened Invariant
  import opened Runs
  import opened Continuity
  import opened RuleLaws

  function Baseline(db: Db, id: string): Option<real> {
    GetRuleState(db, id).baselinePrice
  }

  /** The price has moved from the rule's stored baseline by the rule's threshold. */
  predicate MovedBy(db: Db, rule: RuleConfig, price: real) {
    var baseline := Baseline(db, rule.id);
    && baseline.Some?
    && baseline.value > 0.0
    && ThresholdReached(rule.trigger.direction, Change(baseline.value, price), rule.trigger.thresholdBps)
  }

  /** The stored configuration; while there is none, any under which some evaluator observed a price. */
  ghost predicate Governs(db: Db, log: Log, config: AutomationConfig) {
    if db.row.Some? then db.row.value.config == config
    else exists market, price :: Observed(market, price, ConfigRow(config, 0)) in log
  }

  /** Some rule that a governing configuration has under this id has. */
  ghost predicate Moved(db: Db, log: Log, id: string, price: real) {
    exists config, rule :: Governs(db, log, config) && rule in config.rules && rule.id == id && MovedBy(db, rule, price)
  }

  /** The rule and the next baseline of the pending execution. */
  function Slot(db: Db): Option<(string, real)> {
    if db.pending.Some? && db.pending.value.run < |db.runs|
    then Some((db.runs[db.pending.value.run].ruleId, db.pending.value.nextBaselinePrice))
    else None
  }

  /** The rule and the price of an evaluator that has decided to act. */
  function Acting(pc: Pc): Option<(string, real)> {
    match pc
    case Quoting(pass, price, _) => if pass.rules == [] then None else Some((pass.rules[0].id, price))
    case DryState(pass, price, _) => if pass.rules == [] then None else Some((pass.rules[0].id, price))
    case Preparing(pass, price, _, _) => if pass.rules == [] then None else Some((pass.rules[0].id, price))
    case Journaling(pass, price, _, _) => if pass.rules == [] then None else Some((pass.rules[0].id, price))
    case _ => None
  }

  ghost predicate Justified(db: Db, log: Log, act: Option<(string, real)>) {
    act.Some? ==> Moved(db, log, act.value.0, act.value.1)
  }

  /** The rule that is about to get a baseline. */
  function Opening(pc: Pc): Option<string> {
    if pc.Initialising? && pc.pass.rules != [] then Some(pc.pass.rules[0].id) else None
  }

  predicate Unset(db: Db, id: Option<string>) {
    id.Some? ==> Baseline(db, id.value) == None
  }

  /** Both the pending execution and a decision under way still rest on the stored baseline. */
  ghost predicate MoveOk(w: World) {
    && Justified(w.core.db, w.log, Slot(w.core.db))
    && (w.exec.Some? ==>
          && Justified(w.core.db, w.log, Acting(At(w, w.exec.value)))
          && Unset(w.core.db, Opening(At(w, w.exec.value))))
  }

  predicate SameRules(db: Db, db': Db) {
    db'.ruleState == db.ruleState && db'.row == db.row
  }

  lemma StaysJustified(db: Db, db': Db, log: Log, e: Event, act: Option<(string, real)>)
    requires SameRules(db, db') && Justified(db, log, act)
    ensures Justified(db', log + [e], act)
  {
    if act.Some? {
      var config, rule :| Governs(db, log, config) && rule in config.rules && rule.id == act.value.0
                          && MovedBy(db, rule, act.value.1);
      StillGoverns(db, db', log, e, config);
      assert MovedBy(db', rule, act.value.1);
    }
  }

  lemma StillGoverns(db: Db, db': Db, log: Log, e: Event, config: AutomationConfig)
    requires SameRules(db, db') && Governs(db, log, config)
    ensures Governs(db', log + [e], config)
  {
    if db.row.None? {
      var market, price :| Observed(market, price, ConfigRow(config, 0)) in log;
      assert Observed(market, price, ConfigRow(config, 0)) in log + [e];
    }
  }

  // ---------- one step under the execution lock ----------

  lemma RecoverySlot(c: Core, r: Recovery, choice: Choice, policy: Policy)
    requires !r.Settled?
    ensures var db' := RecoveryNext(c, r, choice, policy).core.db;
            Slot(db') == None || (Slot(db') == Slot(c.db) && SameRules(c.db, db'))
  {
  }

  /** The slot keeps its decision, is emptied, or takes over the decision under way. */
  lemma WorkSlot(c: Core, log: Log, pc: Pc, choice: Choice)
    requires Working(pc) && HolderOk(c, log, pc)
    ensures var db' := HolderNext(c, pc, choice).core.db;
            || Slot(db') == None
            || (Slot(db') == Slot(c.db) && SameRules(c.db, db'))
            || (Slot(db') == Acting(pc) && SameRules(c.db, db'))
  {
    hide RecoveryNext, Decide, Prepare, Resume, UncertainFrom, RecoveryOk, PassOk;
    if pc.Recovering? && !pc.recovery.Settled? {
      RecoverySlot(c, pc.recovery, choice, PolicyOf(pc.purpose));
    }
  }

  /** An evaluator acts on from its decision, or has just decided. */
  lemma WorkActing(c: Core, pc: Pc, choice: Choice)
    requires Working(pc)
    ensures var e := HolderNext(c, pc, choice);
            || Acting(e.pc) == None
            || (Acting(e.pc) == Acting(pc) && e.core == c)
            || (pc.Deciding? && e.core == c && Decide(c, pc.pass).shouldExecute
                && Acting(e.pc) == Some((pc.pass.rules[0].id, Decide(c, pc.pass).nextBaselinePrice.GetOr(0.0))))
  {
    hide RecoveryNext, Decide, Prepare, UncertainFrom, ConfigurationChanged;
  }

  lemma WorkOpening(c: Core, pc: Pc, choice: Choice)
    requires Working(pc) && PositiveOk(c.db)
    ensures var e := HolderNext(c, pc, choice); Unset(e.core.db, Opening(e.pc))
  {
    hide RecoveryNext, Prepare, UncertainFrom, ConfigurationChanged;
    if pc.Deciding? {
      SetUnlessPositive(c.db, pc.pass.rules[0].id);
    }
  }

  lemma SetUnlessPositive(db: Db, id: string)
    requires PositiveOk(db)
    ensures Baseline(db, id) == None || Baseline(db, id).value > 0.0
  {
  }

  /** A decision to act rests on the stored baseline. */
  lemma DecisionMoved(c: Core, log: Log, pass: Pass)
    requires pass.rules != [] && HolderOk(c, log, Deciding(pass)) && Decide(c, pass).shouldExecute
    ensures Moved(c.db, log, pass.rules[0].id, Decide(c, pass).nextBaselinePrice.GetOr(0.0))
  {
    var config := pass.session.config;
    assert Governs(c.db, log, config);
    assert pass.rules[0] in pass.rules;
    assert MovedBy(c.db, pass.rules[0], Decide(c, pass).nextBaselinePrice.GetOr(0.0));
  }

  lemma WorkMoves(w: World, p: Pid, choice: Choice)
    requires Inv(w) && MoveOk(w) && Working(At(w, p))
    ensures MoveOk(Next(w, Act(p, choice)))
  {
    hide Inv, HolderNext, HolderOk, Justified, Slot, Acting, Opening, Unset, SameRules, Decide, JournalOk, PositiveOk;
    HolderKnows(w, p);
    Positives(w);
    WorkOpening(w.core, At(w, p), choice);
    HoldsIt(w, p);
    WorkNext(w, p, choice);
    var pc, e := At(w, p), HolderNext(w.core, At(w, p), choice);
    WorkSlot(w.core, w.log, pc, choice);
    WorkActing(w.core, pc, choice);
    NothingJustified(e.core.db, w.log + [e.event]);
    if Slot(e.core.db) == Slot(w.core.db) && SameRules(w.core.db, e.core.db) {
      StaysJustified(w.core.db, e.core.db, w.log, e.event, Slot(w.core.db));
    } else if Slot(e.core.db) == Acting(pc) && SameRules(w.core.db, e.core.db) {
      StaysJustified(w.core.db, e.core.db, w.log, e.event, Acting(pc));
    }
    if Acting(e.pc) == Acting(pc) && e.core == w.core {
      SameRulesNow(w.core.db);
      StaysJustified(w.core.db, e.core.db, w.log, e.event, Acting(pc));
    } else if pc.Deciding? && Decide(w.core, pc.pass).shouldExecute {
      DecisionMoved(w.core, w.log, pc.pass);
      NowJustified(w.core.db, w.log, pc.pass.rules[0].id, Decide(w.core, pc.pass).nextBaselinePrice.GetOr(0.0));
      SameRulesNow(w.core.db);
      StaysJustified(w.core.db, w.core.db, w.log, e.event,
                     Some((pc.pass.rules[0].id, Decide(w.core, pc.pass).nextBaselinePrice.GetOr(0.0))));
    }
  }

  lemma SameRulesNow(db: Db)
    ensures SameRules(db, db)
  {
  }

  lemma NothingJustified(db: Db, log: Log)
    ensures Justified(db, log, None)
  {
  }

  lemma NowJustified(db: Db, log: Log, id: string, price: real)
    requires Moved(db, log, id, price)
    ensures Justified(db, log, Some((id, price)))
  {
  }

  lemma Positives(w: World)
    requires Inv(w)
    ensures PositiveOk(w.core.db)
  {
  }

  lemma HoldsIt(w: World, p: Pid)
    requires Inv(w) && Working(At(w, p))
    ensures w.exec == Some(p)
    ensures forall choice :: Next(w, Act(p, choice)).exec == Some(p)
    ensures forall choice :: At(Next(w, Act(p, choice)), p) == HolderNext(w.core, At(w, p), choice).pc
  {
    InvParts(w);
    hide CoreOk, HolderOk, Lawful, HolderNext;
  }

  // ---------- every turn ----------

  /** Lock steps, deaths and the outside leave the rules alone and begin no decision. */
  lemma StillShape(w: World, t: Turn)
    requires t.Act? ==> !Working(At(w, t.pid))
    ensures var w' := Next(w, t);
            && Slot(w'.core.db) == Slot(w.core.db)
            && SameRules(w.core.db, w'.core.db)
            && (w'.exec.Some? ==>
                  var pc := At(w', w'.exec.value);
                  || (w.exec == w'.exec && At(w, w'.exec.value) == pc)
                  || (Acting(pc) == None && Opening(pc) == None))
  {
    hide HolderNext;
  }

  lemma StillMoves(w: World, t: Turn)
    requires MoveOk(w)
    requires t.Act? ==> !Working(At(w, t.pid))
    ensures MoveOk(Next(w, t))
  {
    hide Next, Working, Justified, Slot, Acting, Opening, At;
    StillShape(w, t);
    StillLog(w, t);
    var db', e := Next(w, t).core.db, Next(w, t).log[|w.log|];
    assert Next(w, t).log == w.log + [e];
    NothingJustified(db', w.log + [e]);
    StaysJustified(w.core.db, db', w.log, e, Slot(w.core.db));
    if w.exec.Some? {
      StaysJustified(w.core.db, db', w.log, e, Acting(At(w, w.exec.value)));
    }
  }

  lemma NextMoves(w: World, t: Turn)
    requires Inv(w) && MoveOk(w)
    ensures MoveOk(Next(w, t))
  {
    hide Inv, MoveOk, Next;
    if t.Act? && Working(At(w, t.pid)) {
      WorkMoves(w, t.pid, t.choice);
    } else {
      StillMoves(w, t);
    }
  }

  lemma InitMoves(w: World)
    requires Init(w)
    ensures MoveOk(w)
  {
  }

  lemma {:induction false} RunMoves(w: World, turns: seq<Turn>)
    requires Inv(w) && MoveOk(w)
    ensures Inv(Run(w, turns)) && MoveOk(Run(w, turns))
    decreases |turns|
  {
    if turns != [] {
      hide Inv, MoveOk, Next;
      RunMoves(w, turns[..|turns| - 1]);
      NextMoves(Run(w, turns[..|turns| - 1]), turns[|turns| - 1]);
      NextKeeps(Run(w, turns[..|turns| - 1]), turns[|turns| - 1]);
    }
  }

  lemma ReachableMoves(w: World)
    requires Reachable(w)
    ensures Inv(w) && MoveOk(w)
  {
    var start, turns :| Init(start) && w == Run(start, turns);
    InitMoves(start);
    InitHolds(start);
    hide Inv, MoveOk;
    RunMoves(start, turns);
  }

  // ---------- what a turn does to a baseline ----------

  /** A completed action: a successful receipt of the pending execution, or a dry run. */
  predicate Completes(e: Event, id: string) {
    (e.Finished? && e.success && e.ruleId == id) || (e.DryRan? && e.ruleId == id)
  }

  /** Without a completed action a baseline stays, is forgotten, or is set afresh where there was none. */
  predicate Undriven(db: Db, db': Db, id: string) {
    Baseline(db', id) == Baseline(db, id) || Baseline(db', id) == None || Baseline(db, id) == None
  }

  /** A completed action makes its price the new baseline. */
  predicate Driven(db: Db, db': Db, id: string, act: Option<(string, real)>) {
    db'.row == db.row && act.Some? && act.value.0 == id && Baseline(db', id) == Some(act.value.1)
  }

  lemma RecoveryBaseline(c: Core, log: Log, r: Recovery, choice: Choice, policy: Policy, id: string)
    requires !r.Settled? && RecoveryOk(c, log, r, policy)
    ensures var e := RecoveryNext(c, r, choice, policy);
            if Completes(e.event, id) then Driven(c.db, e.core.db, id, Slot(c.db))
            else Baseline(e.core.db, id) == Baseline(c.db, id)
  {
  }

  lemma WorkBaseline(c: Core, log: Log, pc: Pc, choice: Choice, id: string)
    requires Working(pc) && HolderOk(c, log, pc) && Unset(c.db, Opening(pc))
    ensures var e := HolderNext(c, pc, choice);
            if Completes(e.event, id)
            then Driven(c.db, e.core.db, id, Slot(c.db)) || Driven(c.db, e.core.db, id, Acting(pc))
            else Undriven(c.db, e.core.db, id)
  {
    hide RecoveryNext, Decide, Prepare, Resume, UncertainFrom, RecoveryOk, PassOk;
    if pc.Recovering? && !pc.recovery.Settled? {
      RecoveryBaseline(c, log, pc.recovery, choice, PolicyOf(pc.purpose), id);
    } else if !Storing(pc) {
      hide *;
      OtherBaseline(c, pc, choice, id);
    }
  }

  /** The steps of a pass or an update that write rule states. */
  predicate Storing(pc: Pc) {
    pc.Resolving? || pc.Initialising? || pc.DryState? || pc.Publishing?
  }

  lemma OtherBaseline(c: Core, pc: Pc, choice: Choice, id: string)
    requires Working(pc) && !Storing(pc) && (pc.Recovering? ==> pc.recovery.Settled?)
    ensures var e := HolderNext(c, pc, choice);
            !Completes(e.event, id) && Undriven(c.db, e.core.db, id)
  {
    hide RecoveryNext, Decide, Prepare, Resume, UncertainFrom;
  }

  lemma TurnBaseline(w: World, t: Turn, id: string)
    requires Inv(w) && MoveOk(w)
    ensures var w' := Next(w, t);
            && |w'.log| == |w.log| + 1
            && (if Completes(w'.log[|w.log|], id)
                then Baseline(w'.core.db, id).Some? && Moved(w.core.db, w.log, id, Baseline(w'.core.db, id).value)
                else Undriven(w.core.db, w'.core.db, id))
  {
    hide Inv, Next, HolderNext, HolderOk, Slot, Acting, Opening, Justified, Working, Moved, Undriven, At;
    if t.Act? && Working(At(w, t.pid)) {
      var pc := At(w, t.pid);
      HolderKnows(w, t.pid);
      HoldsIt(w, t.pid);
      WorkNext(w, t.pid, t.choice);
      WorkBaseline(w.core, w.log, pc, t.choice, id);
      ActJustifies(w.core.db, w.log, Slot(w.core.db));
      ActJustifies(w.core.db, w.log, Acting(pc));
    } else {
      StillShape(w, t);
      StillLog(w, t);
      assert Baseline(Next(w, t).core.db, id) == Baseline(w.core.db, id);
      NotDriven(w.core.db, Next(w, t).core.db, id);
    }
  }

  lemma ActJustifies(db: Db, log: Log, act: Option<(string, real)>)
    ensures Justified(db, log, act) && act.Some? ==> Moved(db, log, act.value.0, act.value.1)
  {
  }

  lemma NotDriven(db: Db, db': Db, id: string)
    requires Baseline(db', id) == Baseline(db, id)
    ensures Undriven(db, db', id)
  {
  }

  lemma StillLog(w: World, t: Turn)
    requires t.Act? ==> !Working(At(w, t.pid))
    ensures var w' := Next(w, t);
            && |w'.log| == |w.log| + 1
            && w.log < w'.log
            && !w'.log[|w.log|].Finished?
            && !w'.log[|w.log|].DryRan?
  {
    hide HolderNext;
  }

  // ---------- compounding over whole executions ----------

  /** The completed actions of a rule since the log had `from` events. */
  function ActionsSince(log: Log, from: nat, id: string): nat
    decreases |log|
  {
    if |log| <= from then 0
    else (if Completes(log[|log| - 1], id) then 1 else 0) + ActionsSince(log[..|log| - 1], from, id)
  }

  /** The rules the configuration has under this id act upwards, from this threshold on. */
  predicate UpFrom(config: AutomationConfig, id: string, thresholdBps: int) {
    forall rule :: rule in config.rules && rule.id == id ==>
      rule.trigger.direction.Up? && rule.trigger.thresholdBps >= thresholdBps
  }

  /** So are the rules of every configuration that governs now. */
  ghost predicate UpNow(w: World, id: string, thresholdBps: int) {
    forall config :: Governs(w.core.db, w.log, config) ==> UpFrom(config, id, thresholdBps)
  }

  /** All along, the governing rules of this id are such and their baseline is never reset. */
  ghost predicate Climbing(w: World, turns: seq<Turn>, id: string, thresholdBps: int) {
    forall k :: 0 <= k <= |turns| ==>
      Baseline(Run(w, turns[..k]).core.db, id).Some? && UpNow(Run(w, turns[..k]), id, thresholdBps)
  }

  /** A justified upward action lifts the baseline by the threshold. */
  lemma LiftedBy(w: World, id: string, price: real, thresholdBps: int)
    requires Moved(w.core.db, w.log, id, price) && UpNow(w, id, thresholdBps) && thresholdBps > 0
    ensures Baseline(w.core.db, id).Some? && price >= Baseline(w.core.db, id).value * Rise(thresholdBps)
  {
    var db := w.core.db;
    var config, rule :| Governs(db, w.log, config) && rule in config.rules && rule.id == id && MovedBy(db, rule, price);
    assert UpFrom(config, id, thresholdBps);
    var b := Baseline(db, id).value;
    ChangeBounds(b, price, thresholdBps);
    assert Change(b, price) >= rule.trigger.thresholdBps as real >= thresholdBps as real;
  }

  lemma ClimbsBefore(w: World, turns: seq<Turn>, id: string, thresholdBps: int)
    requires turns != [] && Climbing(w, turns, id, thresholdBps)
    ensures Climbing(w, turns[..|turns| - 1], id, thresholdBps)
    ensures var middle := Run(w, turns[..|turns| - 1]);
            Baseline(middle.core.db, id).Some? && UpNow(middle, id, thresholdBps)
    ensures Baseline(Run(w, turns).core.db, id).Some?
  {
    hide Run, Baseline, UpNow;
    var before := turns[..|turns| - 1];
    forall k | 0 <= k <= |before|
      ensures before[..k] == turns[..k]
    {
    }
    assert turns[..|turns|] == turns;
  }

  /** One more turn, by the exponent of the completed actions so far. */
  lemma Climb(b: real, b': real, start: real, rise: real, n: nat, acted: bool)
    requires rise > 0.0 && b >= start * Power(rise, n)
    requires if acted then b' >= b * rise else b' == b
    ensures b' >= start * Power(rise, n + (if acted then 1 else 0))
  {
    if acted {
      Scale(b, start * Power(rise, n), rise);
      assert start * Power(rise, n) * rise == start * (rise * Power(rise, n));
    }
  }

  /**
   Over any execution in which the baseline of an upward rule is never reset: after n completed actions,
   whichever processes took them and whatever failed in between, it is at least b (1 + t/10000)^n.
   */
  lemma {:induction false} RunCompounds(w: World, turns: seq<Turn>, id: string, thresholdBps: int)
    requires Inv(w) && MoveOk(w) && thresholdBps > 0 && Climbing(w, turns, id, thresholdBps)
    ensures w.log <= Run(w, turns).log && |Run(w, turns).log| == |w.log| + |turns|
    ensures Baseline(w.core.db, id).Some? && Baseline(Run(w, turns).core.db, id).Some?
    ensures Baseline(Run(w, turns).core.db, id).value
            >= Baseline(w.core.db, id).value * Power(Rise(thresholdBps), ActionsSince(Run(w, turns).log, |w.log|, id))
    decreases |turns|
  {
    hide Inv, MoveOk, Next, Baseline, Climbing, UpNow, Moved, Rise, Completes;
    if turns == [] {
      ClimbsAtStart(w, id, thresholdBps);
    } else {
      var before, last := turns[..|turns| - 1], turns[|turns| - 1];
      var middle := Run(w, before);
      ClimbsBefore(w, turns, id, thresholdBps);
      RunCompounds(w, before, id, thresholdBps);
      RunMoves(w, before);
      OneTurnCompounds(w, middle, last, id, thresholdBps);
    }
  }

  lemma ClimbsAtStart(w: World, id: string, thresholdBps: int)
    requires Climbing(w, [], id, thresholdBps)
    ensures Baseline(w.core.db, id).Some?
  {
    var none: seq<Turn> := [];
    assert none[..0] == none && Run(w, none) == w;
  }

  lemma OneTurnCompounds(w: World, middle: World, t: Turn, id: string, thresholdBps: int)
    requires Inv(middle) && MoveOk(middle) && thresholdBps > 0
    requires w.log <= middle.log && Baseline(w.core.db, id).Some?
    requires Baseline(middle.core.db, id).Some? && Baseline(Next(middle, t).core.db, id).Some?
    requires UpNow(middle, id, thresholdBps)
    requires Baseline(middle.core.db, id).value
             >= Baseline(w.core.db, id).value * Power(Rise(thresholdBps), ActionsSince(middle.log, |w.log|, id))
    ensures w.log <= Next(middle, t).log && |Next(middle, t).log| == |middle.log| + 1
    ensures Baseline(Next(middle, t).core.db, id).value
            >= Baseline(w.core.db, id).value * Power(Rise(thresholdBps), ActionsSince(Next(middle, t).log, |w.log|, id))
  {
    hide Inv, MoveOk, Next, Baseline, UpNow, Moved, Rise, Completes;
    var w' := Next(middle, t);
    var acted := TurnActs(middle, t, id, thresholdBps);
    assert w'.log[..|middle.log|] == middle.log;
    Bases(thresholdBps);
    Climb(Baseline(middle.core.db, id).value, Baseline(w'.core.db, id).value, Baseline(w.core.db, id).value,
          Rise(thresholdBps), ActionsSince(middle.log, |w.log|, id), acted);
  }

  lemma TurnActs(w: World, t: Turn, id: string, thresholdBps: int) returns (acted: bool)
    requires Inv(w) && MoveOk(w) && thresholdBps > 0
    requires Baseline(w.core.db, id).Some? && Baseline(Next(w, t).core.db, id).Some?
    requires UpNow(w, id, thresholdBps)
    ensures var w' := Next(w, t);
            && w.log < w'.log
            && |w'.log| == |w.log| + 1
            && acted == Completes(w'.log[|w.log|], id)
            && (if acted then Baseline(w'.core.db, id).value >= Baseline(w.core.db, id).value * Rise(thresholdBps)
                else Baseline(w'.core.db, id) == Baseline(w.core.db, id))
  {
    hide Inv, MoveOk, Next, Baseline, UpNow, Moved, Rise, Completes;
    TurnBaseline(w, t, id);
    LogExtends(w, t);
    acted := Completes(Next(w, t).log[|w.log|], id);
    if acted {
      LiftedBy(w, id, Baseline(Next(w, t).core.db, id).value, thresholdBps);
    }
  }

  lemma LogExtends(w: World, t: Turn)
    ensures w.log <= Next(w, t).log
  {
    hide HolderNext, Working, Move;
  }

  /** The same, from any state an execution gets into. */
  lemma UpCompoundsOverRuns(w: World, turns: seq<Turn>, id: string, thresholdBps: int)
    requires Reachable(w) && thresholdBps > 0 && Climbing(w, turns, id, thresholdBps)
    ensures Baseline(w.core.db, id).Some? && Baseline(Run(w, turns).core.db, id).Some?
    ensures Baseline(Run(w, turns).core.db, id).value
            >= Baseline(w.core.db, id).value * Power(Rise(thresholdBps), ActionsSince(Run(w, turns).log, |w.log|, id))
  {
    hide Reachable, Inv, MoveOk, Climbing;
    ReachableMoves(w);
    RunCompounds(w, turns, id, thresholdBps);
  }
}
