/**
 What one process has done so far in an execution, in order: the rules it visited, held or not, and
 considered, the swaps it journaled, the pairs it got through and under which configuration, the cursors
 and configurations it stored.
 */
module Deeds {
  import opened Config
  import opened Network
  import opened Tables
  import opened Protocol

  datatype Deed =
    | Visited(rule: RuleConfig, held: bool)
    | Considered(ruleId: string)
    | SignedFor(ruleId: string, run: nat)
    | PassedPair(session: Session)
    | SavedCursor(name: string, cursor: int)
    | StoredRow(row: ConfigRow)

  /** What a step under the execution lock amounts to. */
  function WorkDeed(pc: Pc, e: Effect): seq<Deed> {
    match e.event
    case Journaled(run, ruleId, _, _, _) => [SignedFor(ruleId, run)]
    case Published(row, _) => [StoredRow(row)]
    case _ =>
      if pc.Deciding? && pc.pass.rules != [] then [Considered(pc.pass.rules[0].id)]
      else if !pc.NextRule? then []
      else if pc.pass.rules == [] then [PassedPair(pc.pass.session)]
      else [Visited(pc.pass.rules[0], e.pc.HeldLookup?)]
  }

  function DeedOf(w: World, t: Turn, me: Pid): seq<Deed> {
    match t
    case Act(p, choice) =>
      if p == me && Working(At(w, p)) then WorkDeed(At(w, p), HolderNext(w.core, At(w, p), choice)) else []
    case Cursor(p, name, cursor) => if p == me then [SavedCursor(name, cursor)] else []
    case _ => []
  }

  function DeedsOf(start: World, turns: seq<Turn>, me: Pid): seq<Deed>
    decreases |turns|
  {
    if turns == [] then []
    else
      var before := turns[..|turns| - 1];
      DeedsOf(start, before, me) + DeedOf(Run(start, before), turns[|turns| - 1], me)
  }

  lemma DeedsMore(start: World, turns: seq<Turn>, t: Turn, me: Pid)
    ensures DeedsOf(start, turns + [t], me) == DeedsOf(start, turns, me) + DeedOf(Run(start, turns), t, me)
  {
    hide DeedOf, Run;
    assert (turns + [t])[..|turns + [t]| - 1] == turns;
  }

  /** The turn of another process, or of the outside. */
  predicate Foreign(t: Turn, me: Pid) {
    match t
    case Act(p, _) => p != me
    case Die(p) => p != me
    case Cursor(p, _, _) => p != me
    case _ => true
  }

  lemma NotMine(w: World, t: Turn, me: Pid)
    requires Foreign(t, me)
    ensures DeedOf(w, t, me) == []
  {
  }

  // ---------- deeds and the log ----------

  lemma OneTurnLogged(w: World, t: Turn, me: Pid, ruleId: string, run: nat)
    requires SignedFor(ruleId, run) in DeedOf(w, t, me)
    ensures exists e :: e in Next(w, t).log && e.Journaled? && e.run == run && e.ruleId == ruleId
  {
    hide HolderNext, Working;
    var e := HolderNext(w.core, At(w, t.pid), t.choice).event;
    assert e in Next(w, t).log;
  }

  lemma NextExtends(w: World, t: Turn)
    ensures w.log <= Next(w, t).log
  {
    hide HolderNext, Working, Move;
  }

  /** Every swap a process signed is in the log under its run. */
  lemma {:induction false} SignedIsLogged(start: World, turns: seq<Turn>, me: Pid, ruleId: string, run: nat)
    requires SignedFor(ruleId, run) in DeedsOf(start, turns, me)
    ensures exists e :: e in Run(start, turns).log && e.Journaled? && e.run == run && e.ruleId == ruleId
    decreases |turns|
  {
    hide Next, DeedOf;
    var before, last := turns[..|turns| - 1], turns[|turns| - 1];
    NextExtends(Run(start, before), last);
    if SignedFor(ruleId, run) in DeedOf(Run(start, before), last, me) {
      OneTurnLogged(Run(start, before), last, me, ruleId, run);
    } else {
      SignedIsLogged(start, before, me, ruleId, run);
      var e :| e in Run(start, before).log && e.Journaled? && e.run == run && e.ruleId == ruleId;
      assert e in Run(start, turns).log;
    }
  }

  // ---------- deeds and the stored cursor ----------

  lemma TurnCursor(w: World, t: Turn, name: string)
    ensures var db, db' := w.core.db, Next(w, t).core.db;
            name in db'.cursors ==>
              || (name in db.cursors && db'.cursors[name] == db.cursors[name])
              || (t.Cursor? && SavedCursor(name, db'.cursors[name]) in DeedOf(w, t, t.pid))
  {
    if t.Act? && Working(At(w, t.pid)) {
      WorkCursor(w.core, At(w, t.pid), t.choice, name);
    }
    hide HolderNext, Working;
  }

  lemma WorkCursor(c: Core, pc: Pc, choice: Choice, name: string)
    requires Working(pc)
    ensures var db' := HolderNext(c, pc, choice).core.db;
            name in db'.cursors ==> name in c.db.cursors && db'.cursors[name] == c.db.cursors[name]
  {
    hide RecoveryNext, Decide, Prepare, LeastOut, Resume, UncertainFrom;
    if pc.Recovering? && !pc.recovery.Settled? {
      RecoveryCursor(c, pc.recovery, choice, PolicyOf(pc.purpose));
    }
  }

  lemma RecoveryCursor(c: Core, r: Recovery, choice: Choice, policy: Policy)
    requires !r.Settled?
    ensures RecoveryNext(c, r, choice, policy).core.db.cursors == c.db.cursors
  {
  }

  /** The cursor a restart finds is one that some process saved, and nothing else. */
  lemma {:induction false} StoredCursorWasSaved(start: World, turns: seq<Turn>, name: string)
    requires Init(start) && name in Run(start, turns).core.db.cursors
    ensures exists p: Pid :: SavedCursor(name, Run(start, turns).core.db.cursors[name]) in DeedsOf(start, turns, p)
    decreases |turns|
  {
    hide Next, DeedOf;
    if turns != [] {
      var before, last := turns[..|turns| - 1], turns[|turns| - 1];
      TurnCursor(Run(start, before), last, name);
      var saved := SavedCursor(name, Run(start, turns).core.db.cursors[name]);
      if last.Cursor? && saved in DeedOf(Run(start, before), last, last.pid) {
        assert saved in DeedsOf(start, turns, last.pid);
      } else {
        StoredCursorWasSaved(start, before, name);
        var p: Pid :| saved in DeedsOf(start, before, p);
        assert saved in DeedsOf(start, turns, p);
      }
    }
  }

  // ---------- the deeds of a pass ----------

  /** A rule is visited, considered unless it is found held, and signed for if it acts; nothing else. */
  predicate RuleDeeds(deeds: seq<Deed>, rule: RuleConfig) {
    && 1 <= |deeds| <= 3
    && deeds[0].Visited?
    && deeds[0].rule == rule
    && (!deeds[0].held ==> |deeds| > 1)
    && (|deeds| > 1 ==> deeds[1] == Considered(rule.id))
    && (|deeds| > 2 ==> deeds[2].SignedFor? && deeds[2].ruleId == rule.id)
  }

  /** The deeds for these rules, one after the other. */
  ghost predicate InOrder(deeds: seq<Deed>, rules: seq<RuleConfig>)
    decreases |rules|
  {
    if rules == [] then deeds == []
    else
      var n := |rules| - 1;
      exists k :: 0 <= k <= |deeds| && InOrder(deeds[..k], rules[..n]) && RuleDeeds(deeds[k..], rules[n])
  }

  /** The session's pair was got through: all of the rules were visited, in order. */
  ghost predicate Through(deeds: seq<Deed>, rules: seq<RuleConfig>, session: Session) {
    && deeds != []
    && deeds[|deeds| - 1] == PassedPair(session)
    && InOrder(deeds[..|deeds| - 1], rules)
  }

  /** The rules were visited in order up to one. */
  ghost predicate UpTo(deeds: seq<Deed>, rules: seq<RuleConfig>) {
    exists n :: 0 <= n <= |rules| && InOrder(deeds, rules[..n])
  }

  /** The rules were visited in order up to one that was signed for. */
  ghost predicate UpToSigned(deeds: seq<Deed>, rules: seq<RuleConfig>) {
    UpTo(deeds, rules) && deeds != [] && deeds[|deeds| - 1].SignedFor?
  }

  ghost predicate PassDeeds(deeds: seq<Deed>, rules: seq<RuleConfig>, session: Session) {
    UpTo(deeds, rules) || Through(deeds, rules, session)
  }

  /** The rules an evaluation is about. */
  function Matching(session: Session): seq<RuleConfig> {
    MatchingRules(session.config.rules, session.pairId)
  }

  lemma NothingDone(rules: seq<RuleConfig>, session: Session)
    ensures InOrder([], rules[..0]) && PassDeeds([], rules, session)
  {
    assert rules[..0] == [];
    assert UpTo([], rules);
  }

  lemma OneMoreRule(deeds: seq<Deed>, more: seq<Deed>, rules: seq<RuleConfig>, n: nat, session: Session)
    requires n < |rules| && InOrder(deeds, rules[..n]) && RuleDeeds(more, rules[n])
    ensures InOrder(deeds + more, rules[..n + 1]) && PassDeeds(deeds + more, rules, session)
    ensures |more| == 3 ==> UpToSigned(deeds + more, rules)
  {
    assert rules[..n + 1][..n] == rules[..n];
    assert (deeds + more)[..|deeds|] == deeds && (deeds + more)[|deeds|..] == more;
    assert InOrder(deeds + more, rules[..n + 1]);
    hide InOrder;
    assert UpTo(deeds + more, rules);
  }

  lemma PairThrough(deeds: seq<Deed>, rules: seq<RuleConfig>, session: Session)
    requires InOrder(deeds, rules)
    ensures Through(deeds + [PassedPair(session)], rules, session)
    ensures PassDeeds(deeds + [PassedPair(session)], rules, session)
  {
    assert (deeds + [PassedPair(session)])[..|deeds|] == deeds;
  }

  /** The rules visited, in order. */
  function VisitedRules(deeds: seq<Deed>): seq<RuleConfig> {
    if deeds == [] then []
    else (if deeds[0].Visited? then [deeds[0].rule] else []) + VisitedRules(deeds[1..])
  }

  lemma {:induction false} VisitedJoin(deeds: seq<Deed>, more: seq<Deed>)
    ensures VisitedRules(deeds + more) == VisitedRules(deeds) + VisitedRules(more)
    decreases |deeds|
  {
    if deeds == [] {
      assert deeds + more == more;
    } else {
      assert (deeds + more)[0] == deeds[0] && (deeds + more)[1..] == deeds[1..] + more;
      VisitedJoin(deeds[1..], more);
      var first := if deeds[0].Visited? then [deeds[0].rule] else [];
      assert first + (VisitedRules(deeds[1..]) + VisitedRules(more))
          == (first + VisitedRules(deeds[1..])) + VisitedRules(more);
    }
  }

  lemma {:induction false} VisitsNone(deeds: seq<Deed>)
    requires forall deed :: deed in deeds ==> !deed.Visited?
    ensures VisitedRules(deeds) == []
    decreases |deeds|
  {
    if deeds != [] {
      VisitsNone(deeds[1..]);
    }
  }

  lemma VisitsOne(deeds: seq<Deed>, rule: RuleConfig)
    requires RuleDeeds(deeds, rule)
    ensures VisitedRules(deeds) == [rule]
    ensures forall i :: 0 <= i < |deeds| && deeds[i].Visited? ==> i == 0
    ensures !deeds[0].held ==> |deeds| > 1 && deeds[1] == Considered(rule.id)
    ensures forall deed :: deed in deeds ==> deed.Visited? || deed.Considered? || deed.SignedFor?
  {
    VisitsNone(deeds[1..]);
  }

  /** Nothing is skipped, repeated or reordered. */
  lemma {:induction false} VisitsAll(deeds: seq<Deed>, rules: seq<RuleConfig>)
    requires InOrder(deeds, rules)
    ensures VisitedRules(deeds) == rules
    ensures forall deed :: deed in deeds ==> deed.Visited? || deed.Considered? || deed.SignedFor?
    decreases |rules|
  {
    hide *;
    if rules == [] {
      VisitsNothing(deeds, rules);
    } else {
      var n := |rules| - 1;
      var k := LastBlock(deeds, rules);
      var front, more, first := deeds[..k], deeds[k..], rules[..n];
      assert deeds == front + more && rules == first + [rules[n]];
      VisitsAll(front, first);
      VisitsOne(more, rules[n]);
      VisitedJoin(front, more);
    }
  }

  lemma VisitsNothing(deeds: seq<Deed>, rules: seq<RuleConfig>)
    requires InOrder(deeds, rules) && rules == []
    ensures deeds == [] && VisitedRules(deeds) == []
  {
  }

  lemma LastBlock(deeds: seq<Deed>, rules: seq<RuleConfig>) returns (k: nat)
    requires InOrder(deeds, rules) && rules != []
    ensures k <= |deeds| && InOrder(deeds[..k], rules[..|rules| - 1]) && RuleDeeds(deeds[k..], rules[|rules| - 1])
  {
    var n := |rules| - 1;
    k :| 0 <= k <= |deeds| && InOrder(deeds[..k], rules[..n]) && RuleDeeds(deeds[k..], rules[n]);
  }

  /** A rule that is not held when it is visited is considered right away. */
  lemma {:induction false} ConsideredAtOnce(deeds: seq<Deed>, rules: seq<RuleConfig>, i: nat)
    requires InOrder(deeds, rules) && i < |deeds| && deeds[i].Visited? && !deeds[i].held
    ensures i + 1 < |deeds| && deeds[i + 1] == Considered(deeds[i].rule.id)
    decreases |rules|
  {
    var k := LastBlock(deeds, rules);
    if i < k {
      assert deeds[..k][i] == deeds[i];
      ConsideredAtOnce(deeds[..k], rules[..|rules| - 1], i);
    } else {
      VisitsOne(deeds[k..], rules[|rules| - 1]);
      assert deeds[k..][i - k] == deeds[i];
    }
  }

  lemma ThroughVisits(deeds: seq<Deed>, rules: seq<RuleConfig>, session: Session)
    requires Through(deeds, rules, session)
    ensures VisitedRules(deeds) == rules
    ensures forall k :: 0 <= k < |deeds| && deeds[k].Visited? && !deeds[k].held ==>
              k + 1 < |deeds| && deeds[k + 1] == Considered(deeds[k].rule.id)
  {
    hide InOrder, VisitedRules;
    var front := deeds[..|deeds| - 1];
    assert deeds == front + [PassedPair(session)];
    VisitsAll(front, rules);
    VisitsNone([PassedPair(session)]);
    VisitedJoin(front, [PassedPair(session)]);
    forall k | 0 <= k < |deeds| && deeds[k].Visited? && !deeds[k].held
      ensures k + 1 < |deeds| && deeds[k + 1] == Considered(deeds[k].rule.id)
    {
      ConsideredAtOnce(front, rules, k);
    }
  }

  lemma SignedVisits(deeds: seq<Deed>, rules: seq<RuleConfig>)
    requires UpToSigned(deeds, rules)
    ensures VisitedRules(deeds) <= rules && VisitedRules(deeds) != []
    ensures deeds[|deeds| - 1].ruleId == VisitedRules(deeds)[|VisitedRules(deeds)| - 1].id
    ensures forall k :: 0 <= k < |deeds| && deeds[k].Visited? && !deeds[k].held ==>
              k + 1 < |deeds| && deeds[k + 1] == Considered(deeds[k].rule.id)
  {
    hide InOrder, VisitedRules;
    var n := Reached(deeds, rules);
    VisitsAll(deeds, rules[..n]);
    SignedLast(deeds, rules[..n]);
    forall k | 0 <= k < |deeds| && deeds[k].Visited? && !deeds[k].held
      ensures k + 1 < |deeds| && deeds[k + 1] == Considered(deeds[k].rule.id)
    {
      ConsideredAtOnce(deeds, rules[..n], k);
    }
  }

  lemma SignedLast(deeds: seq<Deed>, rules: seq<RuleConfig>)
    requires InOrder(deeds, rules) && deeds != [] && deeds[|deeds| - 1].SignedFor?
    ensures rules != [] && deeds[|deeds| - 1].ruleId == rules[|rules| - 1].id
  {
    assert rules != [];
    var k := LastBlock(deeds, rules);
    hide InOrder;
    assert deeds[k..][|deeds| - k - 1] == deeds[|deeds| - 1];
  }

  // ---------- counting ----------

  function Ids(rules: seq<RuleConfig>): multiset<string> {
    if rules == [] then multiset{} else multiset{rules[0].id} + Ids(rules[1..])
  }

  /** How often each rule was signed for. */
  function SignedIds(deeds: seq<Deed>): multiset<string> {
    if deeds == [] then multiset{}
    else (if deeds[0].SignedFor? then multiset{deeds[0].ruleId} else multiset{}) + SignedIds(deeds[1..])
  }

  /** How often each rule was considered. */
  function ConsideredIds(deeds: seq<Deed>): multiset<string> {
    if deeds == [] then multiset{}
    else (if deeds[0].Considered? then multiset{deeds[0].ruleId} else multiset{}) + ConsideredIds(deeds[1..])
  }

  lemma {:induction false} IdsJoin(deeds: seq<Deed>, more: seq<Deed>)
    ensures SignedIds(deeds + more) == SignedIds(deeds) + SignedIds(more)
    ensures ConsideredIds(deeds + more) == ConsideredIds(deeds) + ConsideredIds(more)
    decreases |deeds|
  {
    if deeds == [] {
      assert deeds + more == more;
    } else {
      assert (deeds + more)[1..] == deeds[1..] + more;
      IdsJoin(deeds[1..], more);
    }
  }

  lemma {:induction false} IdsAtEnd(rules: seq<RuleConfig>, last: RuleConfig)
    ensures Ids(rules + [last]) == Ids(rules) + multiset{last.id}
    decreases |rules|
  {
    if rules == [] {
      assert rules + [last] == [last];
      assert [last][1..] == [];
    } else {
      assert (rules + [last])[1..] == rules[1..] + [last];
      IdsAtEnd(rules[1..], last);
    }
  }

  lemma {:induction false} IdsOfFirst(rules: seq<RuleConfig>, n: nat)
    requires n <= |rules|
    ensures Ids(rules[..n]) <= Ids(rules)
    decreases |rules|
  {
    if n > 0 {
      assert rules[..n][1..] == rules[1..][..n - 1];
      IdsOfFirst(rules[1..], n - 1);
    }
  }

  lemma RuleIds(deeds: seq<Deed>, rule: RuleConfig)
    requires RuleDeeds(deeds, rule)
    ensures ConsideredIds(deeds) <= multiset{rule.id} && SignedIds(deeds) <= multiset{rule.id}
  {
    OneDeed(deeds[0]);
    assert deeds[..1] == [deeds[0]];
    if |deeds| > 1 {
      OneDeed(deeds[1]);
      IdsJoin(deeds[..1], [deeds[1]]);
      assert deeds[..1] + [deeds[1]] == deeds[..2];
      if |deeds| > 2 {
        OneDeed(deeds[2]);
        IdsJoin(deeds[..2], [deeds[2]]);
        assert deeds[..2] + [deeds[2]] == deeds[..3];
      }
    }
    assert deeds == deeds[..|deeds|];
    hide ConsideredIds, SignedIds;
  }

  lemma OneDeed(deed: Deed)
    ensures ConsideredIds([deed]) == if deed.Considered? then multiset{deed.ruleId} else multiset{}
    ensures SignedIds([deed]) == if deed.SignedFor? then multiset{deed.ruleId} else multiset{}
  {
  }

  lemma Sums(some: multiset<string>, all: multiset<string>, more: multiset<string>, rest: multiset<string>)
    requires some <= all && more <= rest
    ensures some + more <= all + rest
  {
  }

  lemma OneMoreListed(deeds: seq<Deed>, more: seq<Deed>, rules: seq<RuleConfig>, rule: RuleConfig)
    requires ConsideredIds(deeds) <= Ids(rules) && SignedIds(deeds) <= Ids(rules) && RuleDeeds(more, rule)
    ensures ConsideredIds(deeds + more) <= Ids(rules + [rule]) && SignedIds(deeds + more) <= Ids(rules + [rule])
  {
    hide *;
    RuleIds(more, rule);
    IdsJoin(deeds, more);
    IdsAtEnd(rules, rule);
    Sums(ConsideredIds(deeds), Ids(rules), ConsideredIds(more), multiset{rule.id});
    Sums(SignedIds(deeds), Ids(rules), SignedIds(more), multiset{rule.id});
  }

  /** Each rule is considered and signed for at most as often as it is listed. */
  lemma {:induction false} ListedIds(deeds: seq<Deed>, rules: seq<RuleConfig>)
    requires InOrder(deeds, rules)
    ensures ConsideredIds(deeds) <= Ids(rules) && SignedIds(deeds) <= Ids(rules)
    decreases |rules|
  {
    hide *;
    if rules == [] {
      NoneListed(deeds, rules);
    } else {
      var n := |rules| - 1;
      var k := LastBlock(deeds, rules);
      var front, more, first := deeds[..k], deeds[k..], rules[..n];
      assert deeds == front + more && rules == first + [rules[n]];
      ListedIds(front, first);
      OneMoreListed(front, more, first, rules[n]);
    }
  }

  lemma NoneListed(deeds: seq<Deed>, rules: seq<RuleConfig>)
    requires InOrder(deeds, rules) && rules == []
    ensures ConsideredIds(deeds) == multiset{} && SignedIds(deeds) == multiset{}
    ensures ConsideredIds(deeds) <= Ids(rules) && SignedIds(deeds) <= Ids(rules)
  {
  }

  lemma PassIds(deeds: seq<Deed>, rules: seq<RuleConfig>, session: Session)
    requires PassDeeds(deeds, rules, session)
    ensures ConsideredIds(deeds) <= Ids(rules) && SignedIds(deeds) <= Ids(rules)
    ensures forall deed :: deed in deeds ==> !deed.SavedCursor?
  {
    if UpTo(deeds, rules) {
      hide *;
      var n := Reached(deeds, rules);
      ListedIds(deeds, rules[..n]);
      VisitsAll(deeds, rules[..n]);
      IdsOfFirst(rules, n);
    } else {
      hide InOrder, Ids, ConsideredIds, SignedIds, VisitedRules;
      var front := deeds[..|deeds| - 1];
      assert deeds == front + [PassedPair(session)];
      ListedIds(front, rules);
      VisitsAll(front, rules);
      IdsJoin(front, [PassedPair(session)]);
      OneDeed(PassedPair(session));
    }
  }

  lemma Reached(deeds: seq<Deed>, rules: seq<RuleConfig>) returns (n: nat)
    requires UpTo(deeds, rules)
    ensures n <= |rules| && InOrder(deeds, rules[..n])
  {
    hide InOrder;
    n :| 0 <= n <= |rules| && InOrder(deeds, rules[..n]);
  }

  lemma {:induction false} IdsOfMatching(rules: seq<RuleConfig>, pairId: int, id: string)
    ensures id in Ids(MatchingRules(rules, pairId)) ==> exists rule :: rule in rules && rule.id == id
    ensures DistinctIds(rules) ==> Ids(MatchingRules(rules, pairId))[id] <= 1
    decreases |rules|
  {
    if rules != [] {
      IdsOfMatching(rules[1..], pairId, id);
      if DistinctIds(rules) {
        assert forall i :: 0 <= i < |rules[1..]| ==> rules[1..][i] == rules[i + 1];
      }
    }
  }
}
