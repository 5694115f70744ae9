/**
 The automation database.  `Db` is the content of its tables, and each function on it is what one
 SQLite transaction makes of them; `None` is a transaction that raised and was rolled back.
 */
module Tables {
  import opened Wrappers
  import opened Config
  import opened Network
  import opened Dex
  import opened Rules

  datatype Status = Pending | OutcomeUnknown | Submitted | Failed | DryRun

  /** What a decision was based on, and what became of it. */
  datatype Details = Details(
    snapshot: PairSnapshot,
    error: Option<string>,
    recoveryError: Option<string>,
    nonceConsumed: bool)

  datatype RunRow = RunRow(
    ruleId: string,
    status: Status,
    reason: string,
    tx: Option<Tx>,
    details: Details)

  datatype PendingRow = PendingRow(
    run: nat,
    swap: PreparedSwap,
    nextBaselinePrice: real,
    broadcastAttempted: bool)

  datatype ConfigRow = ConfigRow(config: AutomationConfig, generation: nat)

  /** A run's id is its position in `runs`. */
  datatype Db = Db(
    runs: seq<RunRow>,
    pending: Option<PendingRow>,
    uncertain: map<nat, PreparedSwap>,
    ruleState: map<string, RuleRuntimeState>,
    cursors: map<string, int>,
    row: Option<ConfigRow>)

  /** A pending or held execution joined with its run. */
  datatype PendingExecution = PendingExecution(
    run: nat,
    ruleId: string,
    swap: PreparedSwap,
    broadcastAttempted: bool)

  // ---------- reads ----------

  function ActiveConfig(db: Db, default: AutomationConfig): AutomationConfig {
    if db.row.None? then default else db.row.value.config
  }

  function ConfigGeneration(db: Db): nat {
    if db.row.None? then 0 else db.row.value.generation
  }

  function LoadPending(db: Db): Option<PendingExecution> {
    match db.pending
    case None => None
    case Some(p) =>
      if p.run < |db.runs| then
        Some(PendingExecution(p.run, db.runs[p.run].ruleId, p.swap, p.broadcastAttempted))
      else None
  }

  /** The first held run of a rule among the runs from `from` on. */
  function UncertainFrom(db: Db, ruleId: string, from: nat): (found: Option<nat>)
    ensures found.Some? ==>
              from <= found.value < |db.runs| && found.value in db.uncertain && db.runs[found.value].ruleId == ruleId
    ensures found.None? ==>
              forall i :: from <= i < |db.runs| && i in db.uncertain ==> db.runs[i].ruleId != ruleId
    decreases |db.runs| - from
  {
    if from >= |db.runs| then None
    else if from in db.uncertain && db.runs[from].ruleId == ruleId then Some(from)
    else UncertainFrom(db, ruleId, from + 1)
  }

  function GetRuleState(db: Db, ruleId: string): RuleRuntimeState {
    if ruleId in db.ruleState then db.ruleState[ruleId] else FRESH
  }

  function CursorIn(db: Db, name: string): Option<int> {
    if name in db.cursors then Some(db.cursors[name]) else None
  }

  // ---------- transactions ----------

  function AppendRun(db: Db, row: RunRow): Db {
    db.(runs := db.runs + [row])
  }

  function SaveRuleState(db: Db, ruleId: string, state: RuleRuntimeState): Db {
    db.(ruleState := db.ruleState[ruleId := state])
  }

  /** Fails on the singleton slot's primary key, rolling the new run back. */
  function BeginExecution(
    db: Db, ruleId: string, swap: PreparedSwap, next: real, reason: string, details: Details): Option<Db>
  {
    if db.pending.Some? then None
    else
      Some(AppendRun(db, RunRow(ruleId, Pending, reason, Some(swap.tx), details))
           .(pending := Some(PendingRow(|db.runs|, swap, next, false))))
  }

  predicate OwnsSlot(db: Db, run: nat) {
    db.pending.Some? && db.pending.value.run == run && run < |db.runs|
  }

  function MarkBroadcastAttempted(db: Db, run: nat): Option<Db> {
    if db.pending.None? || db.pending.value.run != run then None
    else Some(db.(pending := Some(db.pending.value.(broadcastAttempted := true))))
  }

  function NoteExecutionError(db: Db, run: nat, error: string): Db {
    if !OwnsSlot(db, run) then db
    else
      var row := db.runs[run];
      db.(runs := db.runs[run := row.(details := row.details.(recoveryError := Some(error)))])
  }

  /** The run row after its outcome became known. */
  function Settle(row: RunRow, success: bool, reason: string, error: Option<string>): RunRow {
    var details := row.details.(recoveryError := None);
    if success then row.(status := Submitted, reason := reason, details := details)
    else
      var message := if error.None? || error.value == "" then "swap execution failed" else error.value;
      row.(status := Failed, reason := reason, details := details.(error := Some(message)))
  }

  function FinishExecution(db: Db, run: nat, success: bool, error: Option<string>, now: int): Option<Db> {
    if !OwnsSlot(db, run) then None
    else
      var row := db.runs[run];
      var settled := Settle(row, success, if success then row.reason else "submission_failed", error);
      var ruleState :=
        if success
        then db.ruleState[row.ruleId := RuleRuntimeState(Some(db.pending.value.nextBaselinePrice), Some(now))]
        else db.ruleState;
      Some(db.(runs := db.runs[run := settled], pending := None, ruleState := ruleState))
  }

  function ReleaseConsumedExecution(db: Db, run: nat): Option<Db> {
    if !OwnsSlot(db, run) || run in db.uncertain then None
    else
      var row := db.runs[run];
      var details := row.details.(recoveryError := None, nonceConsumed := true);
      var held := row.(status := OutcomeUnknown, reason := "nonce_consumed_receipt_missing", details := details);
      Some(db.(runs := db.runs[run := held],
               pending := None,
               uncertain := db.uncertain[run := db.pending.value.swap]))
  }

  function ResolveUncertainExecution(db: Db, run: nat, success: bool, error: Option<string>, now: int): Option<Db> {
    if run !in db.uncertain || run >= |db.runs| then None
    else
      var row := db.runs[run];
      Some(db.(runs := db.runs[run := Settle(row, success, "receipt_recovered", error)],
               uncertain := db.uncertain - {run},
               ruleState := db.ruleState[row.ruleId := RuleRuntimeState(None, Some(now))]))
  }

  predicate MarketChanged(previous: AutomationConfig, target: AutomationConfig) {
    || previous.network.rpcUrl != target.network.rpcUrl
    || previous.network.chainId != target.network.chainId
    || previous.dex != target.dex
  }

  /** The rules whose baseline does not survive the change of configuration. */
  predicate PairChanged(previous: AutomationConfig, target: AutomationConfig, ruleId: string) {
    PairOf(previous.rules, ruleId) != PairOf(target.rules, ruleId)
  }

  function ResetBaselines(
    ruleState: map<string, RuleRuntimeState>,
    previous: AutomationConfig,
    target: AutomationConfig): (reset: map<string, RuleRuntimeState>)
    ensures reset.Keys == ruleState.Keys
  {
    map id | id in ruleState ::
      if MarketChanged(previous, target) || PairChanged(previous, target, id)
      then ruleState[id].(baselinePrice := None)
      else ruleState[id]
  }

  function SaveActiveConfig(db: Db, config: AutomationConfig, previous: AutomationConfig): Db {
    db.(row := Some(ConfigRow(config, ConfigGeneration(db) + 1)),
        ruleState := ResetBaselines(db.ruleState, previous, config),
        cursors := if MarketChanged(previous, config) then map[] else db.cursors)
  }

  function SaveCursor(db: Db, name: string, cursor: int): Db {
    if name in db.cursors && cursor <= db.cursors[name] then db
    else db.(cursors := db.cursors[name := cursor])
  }

  function RuleIds(rules: seq<RuleConfig>): (ids: set<string>)
    ensures forall id :: id !in ids ==> PairOf(rules, id) == None
  {
    if rules == [] then {}
    else RuleIds(rules[..|rules| - 1]) + {rules[|rules| - 1].id}
  }
}
