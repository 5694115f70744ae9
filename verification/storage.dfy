/** The store: each method carries out one transaction of `Tables` on the fields. */
module Storage {
  import opened Wrappers
  import opened Config
  import opened Network
  import opened Rules
  import opened Tables

  class AutomationStore {
    var runs: seq<RunRow>
    var pending: Option<PendingRow>
    var uncertain: map<nat, PreparedSwap>
    var ruleState: map<string, RuleRuntimeState>
    var cursors: map<string, int>
    var row: Option<ConfigRow>

    function Contents(): Db
      reads this
    {
      Db(runs, pending, uncertain, ruleState, cursors, row)
    }

    /** Opens a database with these contents: a new one, or whatever the last process left. */
    constructor (db: Db)
      ensures Contents() == db
    {
      runs, pending, uncertain := db.runs, db.pending, db.uncertain;
      ruleState, cursors, row := db.ruleState, db.cursors, db.row;
    }

    /** Takes over the content other connections have committed. */
    method Restore(db: Db)
      modifies this
      ensures Contents() == db
    {
      runs, pending, uncertain := db.runs, db.pending, db.uncertain;
      ruleState, cursors, row := db.ruleState, db.cursors, db.row;
    }

    method BeginExecution(
      ruleId: string, swap: PreparedSwap, next: real, reason: string, details: Details) returns (begun: bool)
      modifies this
      ensures var after := Tables.BeginExecution(old(Contents()), ruleId, swap, next, reason, details);
              && begun == after.Some?
              && Contents() == after.GetOr(old(Contents()))
    {
      var before := runs;
      var run := |runs|;
      runs := runs + [RunRow(ruleId, Pending, reason, Some(swap.tx), details)];
      if pending.Some? {
        runs := before;
        return false;
      }
      pending := Some(PendingRow(run, swap, next, false));
      begun := true;
    }

    method PendingExecution() returns (execution: Option<PendingExecution>)
      ensures execution == LoadPending(Contents())
    {
      if pending.None? || pending.value.run >= |runs| {
        return None;
      }
      var p := pending.value;
      execution := Some(Tables.PendingExecution(p.run, runs[p.run].ruleId, p.swap, p.broadcastAttempted));
    }

    /** The rule's held execution joined with its run; it was attempted before it was held. */
    method UncertainExecution(ruleId: string) returns (execution: Option<PendingExecution>)
      ensures match UncertainFrom(Contents(), ruleId, 0)
              case None => execution == None
              case Some(run) => execution == Some(Tables.PendingExecution(run, ruleId, uncertain[run], true))
    {
      var i := 0;
      while i < |runs|
        invariant i <= |runs|
        invariant UncertainFrom(Contents(), ruleId, 0) == UncertainFrom(Contents(), ruleId, i)
      {
        if i in uncertain && runs[i].ruleId == ruleId {
          return Some(Tables.PendingExecution(i, runs[i].ruleId, uncertain[i], true));
        }
        i := i + 1;
      }
      execution := None;
    }

    method GetRuleState(ruleId: string) returns (state: RuleRuntimeState)
      ensures state == Tables.GetRuleState(Contents(), ruleId)
    {
      state := if ruleId in ruleState then ruleState[ruleId] else FRESH;
    }

    method MarkBroadcastAttempted(run: nat) returns (marked: bool)
      modifies this`pending
      ensures var after := Tables.MarkBroadcastAttempted(old(Contents()), run);
              && marked == after.Some?
              && Contents() == after.GetOr(old(Contents()))
    {
      if pending.None? || pending.value.run != run {
        return false;
      }
      pending := Some(pending.value.(broadcastAttempted := true));
      marked := true;
    }

    method NoteExecutionError(run: nat, error: string)
      modifies this`runs
      ensures Contents() == Tables.NoteExecutionError(old(Contents()), run, error)
    {
      if pending.Some? && pending.value.run == run && run < |runs| {
        var noted := runs[run].details.(recoveryError := Some(error));
        runs := runs[run := runs[run].(details := noted)];
      }
    }

    /** Returns the run's final row. */
    method FinishExecution(run: nat, success: bool, error: Option<string>, now: int) returns (final: Option<RunRow>)
      modifies this
      ensures match Tables.FinishExecution(old(Contents()), run, success, error, now)
              case None => final == None && Contents() == old(Contents())
              case Some(db) => Contents() == db && run < |runs| && final == Some(runs[run])
    {
      if pending.None? || pending.value.run != run || run >= |runs| {
        return None;
      }
      var row := runs[run];
      if success {
        SaveRuleState(row.ruleId, RuleRuntimeState(Some(pending.value.nextBaselinePrice), Some(now)));
      }
      runs := runs[run := Settle(row, success, if success then row.reason else "submission_failed", error)];
      pending := None;
      final := Some(runs[run]);
    }

    method ReleaseConsumedExecution(run: nat) returns (released: bool)
      modifies this
      ensures var after := Tables.ReleaseConsumedExecution(old(Contents()), run);
              && released == after.Some?
              && Contents() == after.GetOr(old(Contents()))
    {
      if pending.None? || pending.value.run != run || run >= |runs| || run in uncertain {
        return false;
      }
      uncertain := uncertain[run := pending.value.swap];
      var details := runs[run].details.(recoveryError := None, nonceConsumed := true);
      runs := runs[run := runs[run].(status := OutcomeUnknown,
                                     reason := "nonce_consumed_receipt_missing",
                                     details := details)];
      pending := None;
      released := true;
    }

    method ResolveUncertainExecution(run: nat, success: bool, error: Option<string>, now: int)
      returns (resolved: bool)
      modifies this
      ensures var after := Tables.ResolveUncertainExecution(old(Contents()), run, success, error, now);
              && resolved == after.Some?
              && Contents() == after.GetOr(old(Contents()))
    {
      if run !in uncertain || run >= |runs| {
        return false;
      }
      var row := runs[run];
      runs := runs[run := Settle(row, success, "receipt_recovered", error)];
      SaveRuleState(row.ruleId, RuleRuntimeState(None, Some(now)));
      uncertain := uncertain - {run};
      resolved := true;
    }

    method SaveRuleState(ruleId: string, state: RuleRuntimeState)
      modifies this`ruleState
      ensures Contents() == Tables.SaveRuleState(old(Contents()), ruleId, state)
    {
      ruleState := ruleState[ruleId := state];
    }

    method AppendRun(row: RunRow)
      modifies this`runs
      ensures Contents() == Tables.AppendRun(old(Contents()), row)
    {
      runs := runs + [row];
    }

    method SaveCursor(name: string, cursor: int)
      modifies this`cursors
      ensures Contents() == Tables.SaveCursor(old(Contents()), name, cursor)
    {
      if name !in cursors || cursor > cursors[name] {
        cursors := cursors[name := cursor];
      }
    }

    method SaveActiveConfig(config: AutomationConfig, previous: AutomationConfig)
      modifies this
      ensures Contents() == Tables.SaveActiveConfig(old(Contents()), config, previous)
    {
      row := Some(ConfigRow(config, if row.None? then 1 else row.value.generation + 1));
      ResetChangedMarkets(previous, config);
    }

    /** One `update` statement for a new market; otherwise one for every rule whose pair changed. */
    method ResetChangedMarkets(previous: AutomationConfig, target: AutomationConfig)
      modifies this`ruleState, this`cursors
      ensures ruleState == ResetBaselines(old(ruleState), previous, target)
      ensures cursors == if MarketChanged(previous, target) then map[] else old(cursors)
    {
      if MarketChanged(previous, target) {
        ruleState := map id | id in ruleState :: ruleState[id].(baselinePrice := None);
        cursors := map[];
        return;
      }
      var ids := RuleIds(previous.rules) + RuleIds(target.rules);
      var left := ids;
      while left != {}
        invariant left <= ids
        invariant cursors == old(cursors)
        invariant ruleState.Keys == old(ruleState).Keys
        invariant forall id :: id in ruleState ==>
                    ruleState[id] == if id in ids - left && PairChanged(previous, target, id)
                                     then old(ruleState)[id].(baselinePrice := None)
                                     else old(ruleState)[id]
        decreases left
      {
        var id :| id in left;
        if PairOf(previous.rules, id) != PairOf(target.rules, id) && id in ruleState {
          ruleState := ruleState[id := ruleState[id].(baselinePrice := None)];
        }
        left := left - {id};
      }
    }
  }
}
