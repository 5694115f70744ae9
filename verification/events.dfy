/**
 Sync events: each is evaluated for its pairs, retried while something else holds the execution, and
 passed by the cursor once all of its pairs are through.  The contracts speak of the worker's own
 turns in the execution, in their order.
 */
module Events {
  import opened Wrappers
  import opened Config
  import opened Tables
  import opened Protocol
  import opened Deeds
  import opened History
  import opened Invariant
  import opened Host

  datatype SyncEvent = SyncEvent(id: Option<int>, pair: Option<int>)

  /** An event without a pair concerns every configured pair. */
  function PairIdsFromEvent(rules: seq<RuleConfig>, event: SyncEvent): seq<int> {
    if event.pair.Some? then [event.pair.value] else EnabledPairs(rules)
  }

  /**
   The pairs to take up for an event: its own, or without one every pair that has an enabled rule, once and
   in increasing order.
   */
  ghost predicate Concerns(rules: seq<RuleConfig>, event: SyncEvent, pairs: seq<int>) {
    if event.pair.Some? then pairs == [event.pair.value]
    else
      && Increasing(pairs)
      && forall p :: p in pairs <==> exists rule :: rule in rules && rule.enabled && rule.trigger.pairId == p
  }

  lemma ConcernsPairs(rules: seq<RuleConfig>, event: SyncEvent)
    ensures Concerns(rules, event, PairIdsFromEvent(rules, event))
  {
    if event.pair.None? {
      forall p
        ensures Increasing(EnabledPairs(rules))
        ensures p in EnabledPairs(rules) <==> exists rule :: rule in rules && rule.enabled && rule.trigger.pairId == p
      {
        EnabledPairsExact(rules, p);
      }
      hide EnabledPairs;
      assert Increasing(EnabledPairs(rules)) by {
        EnabledPairsExact(rules, 0);
      }
    }
  }

  function CursorName(config: AutomationConfig): string {
    config.dex.pairsContract + ":Sync"
  }

  datatype Outcome = Passed | Changed | Raised | Interrupted

  predicate IsChanged(entries: seq<Entry>) {
    exists entry :: entry in entries && entry.reason == "configuration_changed"
  }

  predicate IsBlocked(entries: seq<Entry>) {
    exists entry :: entry in entries && entry.IsBlocked()
  }

  /** The session of an event's pair. */
  function For(session: Session, pairId: int): Session {
    session.(pairId := pairId)
  }

  /**
   The worker got through the pair under its own configuration, visiting every matching rule in order, or
   it visited them up to one it signed for, and that submission has left the pending slot.
   */
  ghost predicate PairDone(deeds: seq<Deed>, session: Session, log: Log) {
    || Through(deeds, Matching(session), session)
    || (UpToSigned(deeds, Matching(session)) && Closed(log, deeds[|deeds| - 1].run))
  }

  /** What became of one event: its pairs, the worker's deeds for each pair it took up, and the cursor it saved. */
  datatype Handling = Handling(pairs: seq<int>, work: seq<seq<Deed>>, saved: Option<int>)

  function Joined(work: seq<seq<Deed>>): seq<Deed> {
    if work == [] then [] else Joined(work[..|work| - 1]) + work[|work| - 1]
  }

  function Trace(name: string, h: Handling): seq<Deed> {
    Joined(h.work) + if h.saved.Some? then [SavedCursor(name, h.saved.value)] else []
  }

  function Traces(name: string, hs: seq<Handling>): seq<Deed> {
    if hs == [] then [] else Traces(name, hs[..|hs| - 1]) + Trace(name, hs[|hs| - 1])
  }

  /** Pair by pair of those the event concerns, in order, and within each the matching rules in order. */
  ghost predicate Orderly(h: Handling, session: Session, event: SyncEvent) {
    Concerns(session.config.rules, event, h.pairs) && WorkedInOrder(h, session)
  }

  ghost predicate WorkedInOrder(h: Handling, session: Session) {
    && |h.work| <= |h.pairs|
    && forall i :: 0 <= i < |h.work| ==>
         PassDeeds(h.work[i], Matching(For(session, h.pairs[i])), For(session, h.pairs[i]))
  }

  /** Every pair is done and then the cursor was saved, if the event has an id. */
  ghost predicate Handled(h: Handling, session: Session, event: SyncEvent, log: Log) {
    && Orderly(h, session, event)
    && |h.work| == |h.pairs|
    && (forall i :: 0 <= i < |h.work| ==> PairDone(h.work[i], For(session, h.pairs[i]), log))
    && h.saved == event.id
  }

  /** The cursor after these events, from where it stood. */
  function CursorAfter(cursor: Option<int>, events: seq<SyncEvent>): Option<int>
    decreases |events|
  {
    if events == [] then cursor
    else
      var last := events[|events| - 1];
      if last.id.Some? then last.id else CursorAfter(cursor, events[..|events| - 1])
  }

  /** The cursor is that of the last event that has one. */
  lemma {:induction false} CursorIsLast(cursor: Option<int>, events: seq<SyncEvent>)
    ensures || (CursorAfter(cursor, events) == cursor && forall k :: 0 <= k < |events| ==> events[k].id.None?)
            || exists k :: 0 <= k < |events| && events[k].id.Some? && CursorAfter(cursor, events) == events[k].id
                           && forall j :: k < j < |events| ==> events[j].id.None?
    decreases |events|
  {
    if events != [] && events[|events| - 1].id.None? {
      CursorIsLast(cursor, events[..|events| - 1]);
    }
  }

  class AutomationWorker {
    const host: Host

    constructor (host: Host)
      ensures this.host == host
    {
      this.host := host;
    }

    /** `_wait_for_execution`: recovers until the slot is seen empty; `polls` is when it is cancelled. */
    method WaitForExecution(default: AutomationConfig, polls: nat) returns (left: bool, ghost seen: World)
      requires host.Valid() && host.Counter() == Idle
      modifies host, host.store
      ensures host.Valid() && host.Counter() == Idle && old(host.log) <= host.log
      ensures host.Did() == old(host.Did())
      ensures left ==> Closes(old(host.log), host.log)
      ensures !left && polls > 0 ==> KeptWaiting(old(host.log), host.log, seen)
    {
      hide *;
      left, seen := false, host.Now();
      var budget := polls;
      while budget > 0 && !left
        invariant host.Valid() && host.Counter() == Idle && old(host.log) <= host.log
        invariant host.Did() == old(host.Did())
        invariant left ==> Closes(old(host.log), host.log)
        invariant !left && budget < polls ==> KeptWaiting(old(host.log), host.log, seen)
      {
        ghost var before := host.log;
        var entry;
        entry, seen := host.RecoverOnce(default);
        left := entry.None? || !entry.value.IsBlocked();
        if left {
          ClosesSince(old(host.log), before, host.log);
        } else {
          Waiting(old(host.log), before, host.log, seen, entry.value.reason);
        }
        budget := budget - 1;
      }
    }

    /**
     `_evaluate_event_pair`.  Whatever its outcome, one delivery visits the matching rules in order up to
     some rule, or all of them; a pass is made again only if it did nothing at all.
     */
    method EvaluateEventPair(session: Session, polls: nat)
      returns (outcome: Outcome, ghost deeds: seq<Deed>, ghost seen: World)
      requires host.Valid() && host.Counter() == Idle
      modifies host, host.store
      ensures host.Valid() && host.Counter() == Idle && old(host.log) <= host.log
      ensures host.Did() == old(host.Did()) + deeds
      ensures PassDeeds(deeds, Matching(session), session)
      ensures outcome.Passed? ==> PairDone(deeds, session, host.log)
      ensures Accounts(outcome, polls, old(host.log), host.log, seen, session, host)
    {
      hide *;
      ghost var first := host.log;
      seen := host.Now();
      deeds := [];
      NothingDone(Matching(session), session);
      var budget := polls;
      while budget > 0
        invariant host.Valid() && host.Counter() == Idle && old(host.log) <= host.log
        invariant host.Did() == old(host.Did()) && deeds == [] && first == old(host.log)
        invariant budget < polls ==> KeptWaiting(first, host.log, seen)
      {
        var entries, raised;
        ghost var middle := host.log;
        entries, raised, deeds, seen := host.EvaluatePair(session);
        Within(first, middle, host.log, host.log, seen, host.me, host.tape);
        if raised {
          outcome := Raised;
          AccountsFor(polls, first, host.log, seen, session, host);
          return;
        }
        if IsChanged(entries) {
          outcome := Changed;
          ChangeShows(entries, |Matching(session)|, seen, session);
          AccountsFor(polls, first, host.log, seen, session, host);
          return;
        }
        if LeftPending(entries) {
          // This event already created a durable submission: it must not be evaluated into another one.
          EndsSigned(entries, deeds, |Matching(session)|, session);
          ghost var signed := deeds[|deeds| - 1];
          host.SignedIsInLog(signed.ruleId, signed.run);
          ghost var before := host.log;
          var left;
          left, seen := WaitForExecution(session.config, polls);
          if left {
            ItsOwnLeft(before, host.log, deeds, session);
          }
          outcome := if left then Passed else Interrupted;
          WaitingSince(first, before, host.log, seen);
          AccountsFor(polls, first, host.log, seen, session, host);
          return;
        }
        if !IsBlocked(entries) {
          EndsOnPair(entries, deeds, |Matching(session)|, session, host.log);
          outcome := Passed;
          AccountsFor(polls, first, host.log, seen, session, host);
          return;
        }
        BlockedDidNothing(entries, deeds, |Matching(session)|, session);
        RefusalWaits(entries, |Matching(session)|, first, host.log, seen, session);
        budget := budget - 1;
      }
      outcome := Interrupted;
      AccountsFor(polls, first, host.log, seen, session, host);
    }

    /**
     One event: every pair in order, then the cursor.  The cursor is saved only after every pair is done,
     and not at all when the configuration has changed meanwhile or a pair did not get through: `seen` is
     when the session was found still bound, or the cause of not getting through.
     */
    method HandleEvent(session: Session, event: SyncEvent, polls: nat)
      returns (outcome: Outcome, ghost handling: Handling, ghost seen: World)
      requires host.Valid() && host.Counter() == Idle
      modifies host, host.store
      ensures host.Valid() && host.Counter() == Idle && old(host.log) <= host.log
      ensures host.Did() == old(host.Did()) + Trace(CursorName(session.config), handling)
      ensures Orderly(handling, session, event)
      ensures if outcome.Passed? then Handled(handling, session, event, host.log)
              else handling.saved.None?
      ensures outcome.Passed? ==>
                Witnessed(old(host.log), host.log, seen) && Bound(seen.core.db, session)
      ensures Accounts(outcome, polls, old(host.log), host.log, seen, session, host)
    {
      hide *;
      ghost var first := host.log;
      seen := host.Now();
      var pairs := PairIdsFromEvent(session.config.rules, event);
      handling := Handling(pairs, [], None);
      ConcernsPairs(session.config.rules, event);
      NoWork(session, event, pairs, host.log, CursorName(session.config));
      for k := 0 to |pairs|
        invariant host.Valid() && host.Counter() == Idle && old(host.log) <= host.log
        invariant host.Did() == old(host.Did()) + Trace(CursorName(session.config), handling)
        invariant handling.saved.None? && |handling.work| == k && handling.pairs == pairs
        invariant Orderly(handling, session, event) && AllDone(handling.work, session, pairs, host.log)
      {
        ghost var before, earlier := host.log, handling;
        ghost var deeds;
        outcome, deeds, seen := EvaluateEventPair(For(session, pairs[k]), polls);
        AccountsAlso(outcome, polls, first, before, host.log, seen, session, pairs[k], host);
        handling := Handling(pairs, handling.work + [deeds], None);
        MoreWork(earlier, deeds, session, event, CursorName(session.config));
        if !outcome.Passed? {
          return;
        }
        MoreDone(earlier.work, deeds, session, pairs, before, host.log);
      }
      ghost var before := host.log;
      var changed := host.ConfigurationChanged(session);
      ghost var middle := host.log;
      seen := host.Now();
      Checks(host);
      Within(first, middle, middle, middle, seen, host.me, host.tape);
      AccountsFor(polls, first, middle, seen, session, host);
      if changed {
        outcome := Changed;
        return;
      }
      if event.id.Some? {
        host.SaveCursor(CursorName(session.config), event.id.value);
        SavedTrace(handling, event.id.value, CursorName(session.config));
        handling := handling.(saved := event.id);
      }
      Within(first, middle, middle, host.log, seen, host.me, host.tape);
      AccountsFor(polls, first, host.log, seen, session, host);
      outcome := Passed;
      NowHandled(handling, session, event, before, host.log);
    }

    /** The events delivered after the stored cursor, until one of them does not get through. */
    method WatchEvents(session: Session, events: seq<SyncEvent>, polls: nat)
      returns (outcome: Outcome, cursor: Option<int>, ghost done: nat, ghost handlings: seq<Handling>,
               ghost seen: World)
      requires host.Valid() && host.Counter() == Idle
      modifies host, host.store
      ensures host.Valid() && host.Counter() == Idle && old(host.log) <= host.log
      ensures host.Did() == old(host.Did()) + Traces(CursorName(session.config), handlings)
      ensures done <= |events| && done <= |handlings| <= done + 1
      ensures forall i :: 0 <= i < done ==> Handled(handlings[i], session, events[i], host.log)
      ensures if outcome.Passed? then done == |events| == |handlings|
              else
                && done < |events|
                && |handlings| == done + 1
                && handlings[done].saved.None?
                && Orderly(handlings[done], session, events[done])
      ensures Accounts(outcome, polls, old(host.log), host.log, seen, session, host)
      ensures cursor == CursorAfter(old(CursorIn(host.store.Contents(), CursorName(session.config))), events[..done])
    {
      hide *;
      ghost var name := CursorName(session.config);
      cursor := host.GetCursor(CursorName(session.config));
      ghost var start, first := cursor, host.log;
      seen := host.Now();
      done, handlings := 0, [];
      FromStart(cursor, events, name);
      for k := 0 to |events|
        invariant host.Valid() && host.Counter() == Idle && old(host.log) <= host.log
        invariant host.Did() == old(host.Did()) + Traces(name, handlings)
        invariant done == k == |handlings| && cursor == CursorAfter(start, events[..k])
        invariant forall i :: 0 <= i < k ==> Handled(handlings[i], session, events[i], host.log)
      {
        ghost var before, handling := host.log, Handling([], [], None);
        outcome, handling, seen := HandleEvent(session, events[k], polls);
        ItsOwnPair(session);
        AccountsAlso(outcome, polls, first, before, host.log, seen, session, session.pairId, host);
        OneMoreTrace(name, handlings, handling);
        StillHandled(handlings, session, events, before, host.log);
        handlings := handlings + [handling];
        if !outcome.Passed? {
          return;
        }
        done := k + 1;
        OneMoreEvent(start, events, k);
        if events[k].id.Some? {
          cursor := events[k].id;
        }
      }
      outcome := Passed;
      AccountsFor(polls, first, host.log, seen, session, host);
    }
  }

  /** Something else was under way, or a swap pending, when the worker last looked. */
  ghost predicate KeptWaiting(before: Log, after: Log, w: World) {
    Witnessed(before, after, w) && (w.exec.Some? || !w.gate.Shared? || w.core.db.pending.Some?)
  }

  /** An outcome other than `Passed` has its cause. */
  ghost predicate Accounts(
    outcome: Outcome, polls: nat, before: Log, after: Log, w: World, session: Session, host: Host) {
    match outcome
    case Passed => true
    case Changed => Witnessed(before, after, w) && !Bound(w.core.db, session)
    case Raised => Met(before, after, w, host.me, host.tape)
    case Interrupted => polls > 0 ==> KeptWaiting(before, after, w)
  }

  lemma AccountsFor(polls: nat, before: Log, after: Log, w: World, session: Session, host: Host)
    ensures Accounts(Passed, polls, before, after, w, session, host)
    ensures Witnessed(before, after, w) && !Bound(w.core.db, session) ==>
              Accounts(Changed, polls, before, after, w, session, host)
    ensures Met(before, after, w, host.me, host.tape) ==> Accounts(Raised, polls, before, after, w, session, host)
    ensures (polls > 0 ==> KeptWaiting(before, after, w)) ==>
              Accounts(Interrupted, polls, before, after, w, session, host)
  {
    hide Witnessed, Met, KeptWaiting, Bound;
  }

  /** The causes are the same for the session of a pair, and a longer stretch of the log has them too. */
  lemma AccountsAlso(
    outcome: Outcome, polls: nat, first: Log, before: Log, after: Log, w: World, session: Session, pairId: int,
    host: Host)
    requires first <= before && Accounts(outcome, polls, before, after, w, For(session, pairId), host)
    ensures Accounts(outcome, polls, first, after, w, session, host)
  {
    hide Reachable, Unfit;
  }

  lemma ItsOwnPair(session: Session)
    ensures For(session, session.pairId) == session
  {
  }

  /** Something found changed was refused as such. */
  lemma ChangeShows(entries: seq<Entry>, rules: nat, w: World, session: Session)
    requires PassShape(entries, rules) && IsChanged(entries)
    ensures IsRefused(entries)
    ensures Justifies(w, session, entries[0].reason) ==> !Bound(w.core.db, session)
  {
    hide Bound, PassShape, IsRefused, IsChanged;
    if !IsRefused(entries) {
      EvaluatedUnchanged(entries, rules);
    }
    ChangeIsFirst(entries);
  }

  lemma EvaluatedUnchanged(entries: seq<Entry>, rules: nat)
    requires PassShape(entries, rules) && !IsRefused(entries)
    ensures !IsChanged(entries)
  {
    var head: nat :| head <= |entries| && Evaluated(entries, head);
    forall k | 0 <= k < |entries|
      ensures entries[k].reason != "configuration_changed"
    {
      assert OwnReason(entries[k]);
    }
  }

  lemma ChangeIsFirst(entries: seq<Entry>)
    requires IsRefused(entries) && IsChanged(entries)
    ensures entries[0].reason == "configuration_changed"
  {
  }

  lemma RefusalWaits(entries: seq<Entry>, rules: nat, before: Log, after: Log, w: World, session: Session)
    requires PassShape(entries, rules) && IsBlocked(entries) && !IsChanged(entries) && !LeftPending(entries)
    ensures IsRefused(entries)
    ensures Witnessed(before, after, w) && Justifies(w, session, entries[0].reason) ==> KeptWaiting(before, after, w)
  {
    hide Bound, PassShape, Witnessed, IsRefused, IsBlocked;
    if !IsRefused(entries) {
      EvaluatedUnblocked(entries, rules);
    }
    RefusalIsNot(entries);
  }

  lemma RefusalIsNot(entries: seq<Entry>)
    requires IsRefused(entries) && !IsChanged(entries)
    ensures entries[0].reason != "configuration_changed"
  {
    assert entries[0] in entries;
  }

  lemma WaitingSince(first: Log, before: Log, after: Log, w: World)
    requires first <= before
    ensures KeptWaiting(before, after, w) ==> KeptWaiting(first, after, w)
  {
    hide Reachable;
  }

  lemma Waiting(before: Log, middle: Log, after: Log, w: World, reason: string)
    requires before <= middle && Witnessed(middle, after, w) && Occupied(w, reason)
    ensures KeptWaiting(before, after, w)
  {
    hide Reachable;
  }

  /** The machine is in a state some execution gets into. */
  lemma Checks(host: Host)
    requires host.Valid()
    ensures Witnessed(host.log, host.log, host.Now()) && host.Now().core.db == host.store.Contents()
  {
    hide Init, Run, Obeys, Reachable;
    Arrives(host.start, host.turns);
  }

  // ---------- passes ----------

  lemma EndsSigned(entries: seq<Entry>, deeds: seq<Deed>, rules: nat, session: Session)
    requires PassShape(entries, rules) && PassEnd(entries, deeds, session) && LeftPending(entries)
    ensures UpToSigned(deeds, Matching(session)) && deeds != [] && deeds[|deeds| - 1].SignedFor?
  {
    hide UpTo, Matching;
  }

  /** Something journaled by this pass has left the slot once everything journaled has. */
  lemma ItsOwnLeft(before: Log, after: Log, deeds: seq<Deed>, session: Session)
    requires UpToSigned(deeds, Matching(session)) && Closes(before, after)
    requires exists e :: e in before && e.Journaled? && e.run == deeds[|deeds| - 1].run
    ensures PairDone(deeds, session, after)
  {
    hide UpTo, Matching, Closed;
  }

  /** A pass that is neither blocked nor refused for a new configuration got through its pair. */
  lemma EndsOnPair(entries: seq<Entry>, deeds: seq<Deed>, rules: nat, session: Session, log: Log)
    requires PassShape(entries, rules) && PassEnd(entries, deeds, session)
    requires !IsChanged(entries) && !LeftPending(entries) && !IsBlocked(entries)
    ensures PairDone(deeds, session, log)
  {
    hide Through, UpToSigned, Matching;
    RefusalsShow(entries, rules);
  }

  lemma RefusalsShow(entries: seq<Entry>, rules: nat)
    requires PassShape(entries, rules)
    ensures IsRefused(entries) ==> IsBlocked(entries) || IsChanged(entries)
  {
    if IsRefused(entries) {
      assert entries[0] in entries;
    }
  }

  /** A pass that is blocked by something it did not itself submit did nothing. */
  lemma BlockedDidNothing(entries: seq<Entry>, deeds: seq<Deed>, rules: nat, session: Session)
    requires PassShape(entries, rules) && PassEnd(entries, deeds, session)
    requires IsBlocked(entries) && !IsChanged(entries) && !LeftPending(entries)
    ensures deeds == []
  {
    hide PassShape, IsBlocked, IsChanged, LeftPending, IsRefused, Through, UpToSigned, Matching;
    if !IsRefused(entries) {
      EvaluatedUnblocked(entries, rules);
    }
  }

  lemma EvaluatedUnblocked(entries: seq<Entry>, rules: nat)
    requires PassShape(entries, rules) && !IsRefused(entries) && !LeftPending(entries)
    ensures !IsBlocked(entries)
  {
    var head: nat :| head <= |entries| && Evaluated(entries, head);
    forall k | 0 <= k < |entries|
      ensures !entries[k].IsBlocked()
    {
      assert OwnReason(entries[k]) && entries[k] in entries;
    }
  }

  // ---------- events ----------

  ghost predicate AllDone(work: seq<seq<Deed>>, session: Session, pairs: seq<int>, log: Log) {
    |work| <= |pairs| && forall i :: 0 <= i < |work| ==> PairDone(work[i], For(session, pairs[i]), log)
  }

  lemma DoneStill(deeds: seq<Deed>, session: Session, before: Log, after: Log)
    requires before <= after && PairDone(deeds, session, before)
    ensures PairDone(deeds, session, after)
  {
    hide Through, UpTo, Matching;
    assert forall e :: e in before ==> e in after;
  }

  lemma NoWork(session: Session, event: SyncEvent, pairs: seq<int>, log: Log, name: string)
    requires Concerns(session.config.rules, event, pairs)
    ensures Orderly(Handling(pairs, [], None), session, event) && AllDone([], session, pairs, log)
    ensures Trace(name, Handling(pairs, [], None)) == []
  {
    hide Concerns;
  }

  lemma MoreWork(h: Handling, deeds: seq<Deed>, session: Session, event: SyncEvent, name: string)
    requires h.saved.None? && Orderly(h, session, event) && |h.work| < |h.pairs|
    requires var s := For(session, h.pairs[|h.work|]); PassDeeds(deeds, Matching(s), s)
    ensures var h' := Handling(h.pairs, h.work + [deeds], None);
            Orderly(h', session, event) && Trace(name, h') == Trace(name, h) + deeds
  {
    hide PassDeeds, Matching, Concerns;
    assert (h.work + [deeds])[..|h.work + [deeds]| - 1] == h.work;
  }

  lemma MoreDone(
    work: seq<seq<Deed>>, deeds: seq<Deed>, session: Session, pairs: seq<int>, before: Log, after: Log)
    requires before <= after && |work| < |pairs| && AllDone(work, session, pairs, before)
    requires PairDone(deeds, For(session, pairs[|work|]), after)
    ensures AllDone(work + [deeds], session, pairs, after)
  {
    hide PairDone;
    forall i | 0 <= i < |work|
      ensures PairDone(work[i], For(session, pairs[i]), after)
    {
      DoneStill(work[i], For(session, pairs[i]), before, after);
    }
  }

  lemma SavedTrace(h: Handling, cursor: int, name: string)
    requires h.saved.None?
    ensures Trace(name, h.(saved := Some(cursor))) == Trace(name, h) + [SavedCursor(name, cursor)]
  {
  }

  lemma NowHandled(h: Handling, session: Session, event: SyncEvent, before: Log, after: Log)
    requires before <= after && h.saved == event.id
    requires |h.work| == |h.pairs| && Orderly(h.(saved := None), session, event)
    requires AllDone(h.work, session, h.pairs, before)
    ensures Handled(h, session, event, after) && Orderly(h, session, event)
  {
    hide PairDone, PassDeeds, Matching, Concerns;
    forall i | 0 <= i < |h.work|
      ensures PairDone(h.work[i], For(session, h.pairs[i]), after)
    {
      DoneStill(h.work[i], For(session, h.pairs[i]), before, after);
    }
  }

  lemma HandledStill(h: Handling, session: Session, event: SyncEvent, before: Log, after: Log)
    requires before <= after && Handled(h, session, event, before)
    ensures Handled(h, session, event, after)
  {
    hide PairDone, PassDeeds, Matching, Concerns;
    forall i | 0 <= i < |h.work|
      ensures PairDone(h.work[i], For(session, h.pairs[i]), after)
    {
      DoneStill(h.work[i], For(session, h.pairs[i]), before, after);
    }
  }

  lemma StillHandled(hs: seq<Handling>, session: Session, events: seq<SyncEvent>, before: Log, after: Log)
    requires before <= after && |hs| <= |events|
    requires forall i :: 0 <= i < |hs| ==> Handled(hs[i], session, events[i], before)
    ensures forall i :: 0 <= i < |hs| ==> Handled(hs[i], session, events[i], after)
  {
    hide Handled;
    forall i | 0 <= i < |hs|
      ensures Handled(hs[i], session, events[i], after)
    {
      HandledStill(hs[i], session, events[i], before, after);
    }
  }

  lemma OneMoreTrace(name: string, hs: seq<Handling>, h: Handling)
    ensures Traces(name, hs + [h]) == Traces(name, hs) + Trace(name, h)
  {
    assert (hs + [h])[..|hs + [h]| - 1] == hs;
  }

  lemma FromStart(cursor: Option<int>, events: seq<SyncEvent>, name: string)
    ensures CursorAfter(cursor, events[..0]) == cursor && Traces(name, []) == []
  {
  }

  lemma OneMoreEvent(start: Option<int>, events: seq<SyncEvent>, k: nat)
    requires k < |events|
    ensures CursorAfter(start, events[..k + 1]) ==
            if events[k].id.Some? then events[k].id else CursorAfter(start, events[..k])
  {
    assert events[..k + 1][..k] == events[..k];
  }

  // ---------- what a handled event means ----------

  /** The rules visited are those at these positions of the configuration, from the first one on. */
  ghost predicate Follows(visited: seq<RuleConfig>, rules: seq<RuleConfig>, at: seq<nat>) {
    |visited| <= |at| && forall i :: 0 <= i < |visited| ==> at[i] < |rules| && visited[i] == rules[at[i]]
  }

  /**
   An event is passed only over visited rules: for its own pair, or without one for each pair that has an
   enabled rule, every enabled rule of the pair was visited, position by position of the configuration, or
   every one up to a rule whose swap was journaled then and has left the slot.  A rule that was not held when
   it was visited was considered right away.
   */
  lemma PassesVisited(h: Handling, session: Session, event: SyncEvent, log: Log, i: nat) returns (at: seq<nat>)
    requires Handled(h, session, event, log) && i < |h.work|
    ensures if event.pair.Some? then h.pairs == [event.pair.value]
            else
              && Increasing(h.pairs)
              && (forall p :: p in h.pairs <==>
                    exists rule :: rule in session.config.rules && rule.enabled && rule.trigger.pairId == p)
    ensures |h.work| == |h.pairs| && Lists(session.config.rules, h.pairs[i], at)
    ensures var deeds, visited := h.work[i], VisitedRules(h.work[i]);
            && Follows(visited, session.config.rules, at)
            && deeds != []
            && var last := deeds[|deeds| - 1];
            && (if last.SignedFor?
                then Closed(log, last.run) && visited != [] && last.ruleId == visited[|visited| - 1].id
                else |visited| == |at| && last == PassedPair(For(session, h.pairs[i])))
    ensures forall k :: 0 <= k < |h.work[i]| && h.work[i][k].Visited? && !h.work[i][k].held ==>
              k + 1 < |h.work[i]| && h.work[i][k + 1] == Considered(h.work[i][k].rule.id)
  {
    hide *;
    HandledConcerns(h, session, event, log, i);
    var s := For(session, h.pairs[i]);
    ItsConfig(session, h.pairs[i]);
    at := MatchingInOrder(session.config.rules, h.pairs[i]);
    DoneVisits(h.work[i], s, log);
    Following(VisitedRules(h.work[i]), session.config.rules, h.pairs[i], at);
  }

  lemma ItsConfig(session: Session, pairId: int)
    ensures For(session, pairId).config == session.config && For(session, pairId).pairId == pairId
  {
  }

  lemma HandledConcerns(h: Handling, session: Session, event: SyncEvent, log: Log, i: nat)
    requires Handled(h, session, event, log) && i < |h.work|
    ensures |h.work| == |h.pairs| && PairDone(h.work[i], For(session, h.pairs[i]), log)
    ensures if event.pair.Some? then h.pairs == [event.pair.value]
            else
              && Increasing(h.pairs)
              && (forall p :: p in h.pairs <==>
                    exists rule :: rule in session.config.rules && rule.enabled && rule.trigger.pairId == p)
  {
    hide PairDone, WorkedInOrder;
  }

  lemma Following(visited: seq<RuleConfig>, rules: seq<RuleConfig>, pairId: int, at: seq<nat>)
    requires visited <= MatchingRules(rules, pairId) && Picks(rules, at, MatchingRules(rules, pairId))
    ensures Follows(visited, rules, at) && (visited == MatchingRules(rules, pairId) ==> |visited| == |at|)
  {
    hide MatchingRules;
  }

  lemma DoneVisits(deeds: seq<Deed>, session: Session, log: Log)
    requires PairDone(deeds, session, log)
    ensures var rules := MatchingRules(session.config.rules, session.pairId);
            && VisitedRules(deeds) <= rules
            && deeds != []
            && var last := deeds[|deeds| - 1];
            && (if last.SignedFor?
                then Closed(log, last.run) && VisitedRules(deeds) != []
                     && last.ruleId == VisitedRules(deeds)[|VisitedRules(deeds)| - 1].id
                else VisitedRules(deeds) == rules && last == PassedPair(session))
    ensures forall k :: 0 <= k < |deeds| && deeds[k].Visited? && !deeds[k].held ==>
              k + 1 < |deeds| && deeds[k + 1] == Considered(deeds[k].rule.id)
  {
    hide Closed, InOrder, VisitedRules, MatchingRules;
    if Through(deeds, Matching(session), session) {
      ThroughVisits(deeds, Matching(session), session);
    } else {
      SignedVisits(deeds, Matching(session));
    }
  }

  // ---------- what a delivery signs and an event saves ----------

  /** Under distinct rule ids a delivery considers and signs for a rule at most once. */
  lemma OncePerRule(deeds: seq<Deed>, session: Session, id: string)
    requires PassDeeds(deeds, Matching(session), session) && DistinctIds(session.config.rules)
    ensures SignedIds(deeds)[id] <= 1 && ConsideredIds(deeds)[id] <= 1
  {
    hide PassDeeds;
    PassIds(deeds, Matching(session), session);
    IdsOfMatching(session.config.rules, session.pairId, id);
  }

  lemma {:induction false} JoinedHasNoSave(work: seq<seq<Deed>>)
    requires forall i :: 0 <= i < |work| ==> forall deed :: deed in work[i] ==> !deed.SavedCursor?
    ensures forall deed :: deed in Joined(work) ==> !deed.SavedCursor?
    decreases |work|
  {
    if work != [] {
      JoinedHasNoSave(work[..|work| - 1]);
    }
  }

  /** Handling an event saves no cursor but the event's own, and that one after everything else. */
  lemma SavesLast(h: Handling, session: Session, event: SyncEvent, name: string, k: nat)
    requires Orderly(h, session, event) && k < |Trace(name, h)| && Trace(name, h)[k].SavedCursor?
    ensures h.saved.Some? && k == |Trace(name, h)| - 1 && Trace(name, h)[k] == SavedCursor(name, h.saved.value)
  {
    hide PassDeeds, Matching, Concerns;
    forall i | 0 <= i < |h.work|
      ensures forall deed :: deed in h.work[i] ==> !deed.SavedCursor?
    {
      PassIds(h.work[i], Matching(For(session, h.pairs[i])), For(session, h.pairs[i]));
    }
    JoinedHasNoSave(h.work);
  }
}
