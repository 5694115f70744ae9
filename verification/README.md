# xian-dex-automation: a verified model

This project models the price-triggered swap automation and its on-chain strategy vault in Dafny and
proves what they guarantee over whole executions. `dafny verify dfyconfig.toml` checks everything.

## What is modelled

**The execution journal and its recovery.** Event workers, API evaluations, background recovery and
configuration managers are processes that share one SQLite database and two file locks. Each takes one
database transaction, one network operation or one lock operation at a time; between any two of them any
other process may move, any process may die (its locks are given back, the database stays), chains may
commit, hide or reveal receipts, endpoints may lie about their chain, and time may pass. `Protocol`
defines this transition system: a `Turn` fixes everything that the state does not determine, and
`Reachable(w)` ranges over all states of all executions.

- `tables.dfy`, `storage.dfy`: the tables as a value with one function per transaction, and the class
  `AutomationStore` whose methods are proved to carry out exactly those functions.
- `network.dfy`: accounts, signed transactions, endpoints, receipts, committed nonces.
- `protocol.dfy`: program counters, atomic steps, locks, deaths.
- `history.dfy`, `invariant.dfy`: the event log every execution writes, the law each event obeys, and the
  invariant behind it. `journal_safety.dfy`, `surroundings.dfy`, `safety.dfy`, `runs.dfy`: every turn keeps it.
- `theorems.dfy`, `continuity.dfy`, `momentum.dfy`: the guarantees, stated on reachable states and whole runs.
- `recoveries.dfy`: what a recovery makes of each answer it gets (a receipt, a nonce, a node's reply, an
  exception), whatever everybody else does between its steps. `evaluations.dfy`: the same for an evaluation and
  each rule it takes up.
- `host.dfy`, `events.dfy`: the program's own operations as imperative methods with the source's loops and
  branches. The class invariant `Valid` says that what happened so far, with any number of turns of others
  in between, is an execution of `Protocol`; every method keeps it, so the theorems hold for the code. What the
  outside answers at each step is an input of the machine (`tape`), and `Valid` also says that every step
  followed its answer: no method can leave a lookup out or take an exception that was not raised.
- `deeds.dfy`: what one process did in an execution, in order: rules visited, held or not, and considered,
  swaps journaled, pairs got through and under which configuration, cursors saved, configurations stored.
  `Did(me)` in the contracts of the operations is this record, so they say what an operation does in the
  execution, from below and from above, not what it reports.
- `scenarios.dfy`: executions that do happen (an uninterrupted pass), and inputs on which a tempting claim
  fails, with the exact condition under which it holds.

**The strategy vault contract** (`vault.dfy`, `vault_history.dfy`): the contract as a class, one
specification function per entrypoint with the source's guards in order, and bounds over every sequence of
calls by any callers.

**The arithmetic between them**: price-move rules (`rules.dfy`, `rule_laws.dfy`), the constant-product
quote and the deadline (`dex.dfy`, `quote_laws.dfy`), the configuration envelope (`config.dfy`) and why it
makes built swaps acceptable to the vault (`envelope.dfy`).

## Assumptions on the environment

- Accounts are a signer on a chain. A committed nonce never decreases, a transaction commits only above it,
  and a freshly fetched nonce exceeds it (`Network.Move`, `Protocol.Prepare`).
- An answer that is classified as a definitive rejection of a first broadcast means that this send left the
  transaction at no node. Rejections of later sends prove nothing: such a send, like an unanswered one, may
  have reached a node (`Network.Deliver`).
- The chain check of a send, a lookup or a nonce read and that operation are one step: an endpoint does not
  change its chain in between. Reading chain, fee estimate and nonce and signing are one step too.
- Receipts never change once they exist, and an endpoint that reports the right chain shows only true ones.
- Others may use the same signer. Only `HeldIsTrue` distinguishes: with a signer nobody else used, a held
  transaction has committed.
- Executions start from an empty journal, with or without a stored `runtime_config` row. Without a row every
  configuration passes the check at generation 0 (`AdmittedExactly`), and whoever publishes first compares
  with its own. What depends on the configuration in force then speaks of all configurations evaluators
  observed under (`TurnBaseline`, `UpCompoundsOverRuns`), or of the markets they share with the first
  publisher (`CursorsGrow`, `BaselinesBelong`).
- Rule ids need not be unique. Baselines stay in their market exactly when every enabled rule's id leads to
  the rule's own pair (`BelongsExactly`), which the program does not check.
- Tokens are plain, and the router pulls exactly `amountIn` and does not call back into the vault.
- An exception that leaves a critical section is a death of its process as far as shared state goes.
- Hashing is injective: transactions are compared as signed bytes.

## Claims that need a condition

- "A failed swap with a hash was never accepted and never will be" is false. After a refused first broadcast
  the nonce is free again, and the next evaluation may sign the very same bytes; `FailedThoughCommitted` is
  an execution in which the failed run's hash ends with a successful receipt. `DismissedOnNetwork` gives the
  exact condition: the bytes of a dismissed run are on the network if and only if a later run has the same
  bytes and was sent in the open.
- "A completed action never fires again on the same snapshot" holds for every threshold the configuration
  admits; `NeverRefires` states it as an equivalence in the threshold and the cooldown.
- "Every stored baseline was observed in the market of the configuration in force" fails for a configuration
  that has an enabled rule whose id leads to another pair, the last one listed under it. `BelongsExactly`
  is the equivalence: for such a configuration `Misplaces` gives the execution, and for all others
  `BaselinesBelong` holds. The condition can be checked before a configuration is stored. In an installation
  that starts without a stored configuration it also fails if the first publisher's own configuration does not
  have the rules of earlier evaluators in their markets (`Outlives`); `FirstBelongsExactly` is that equivalence.
- A `down` rule can act at all if and only if its threshold is below 10000 basis points (`DownCanAct`).

## Model

| member | source | states |
|---|---|---|
| Runs.Safe | src/xian_dex_automation/execution.py:11-67 | from an empty journal, after any turns of any processes, the whole invariant holds and every logged event obeyed its law |
| Runs.NextKeeps | src/xian_dex_automation/storage.py:43-71 | every single turn (work, lock, death, chain, clock, cursor) keeps the invariant |
| Theorems.CommitsOnce | src/xian_dex_automation/execution.py:34-58 | no transaction commits twice; commits of an account have increasing nonces |
| Theorems.NoncesIncrease | src/xian_dex_automation/dex.py:375-402 | nonces increase in run order; one is used again only after a refused first broadcast no send of which was left open |
| Theorems.AcceptedInOrder | src/xian_dex_automation/submission.py:63-96 | whatever some node may have accepted has a smaller nonce than every later run of the account |
| Theorems.OneDecisionPerTransaction | src/xian_dex_automation/worker.py:172-185 | of two runs with the same bytes the earlier failed and was never sent in the open |
| Theorems.DismissedForGood | src/xian_dex_automation/execution.py:48-55 | a run closed by a rejection was refused on its first send, never sent in the open, and no send of it follows |
| Theorems.SubmittedIsTrue | src/xian_dex_automation/execution.py:61-67 | a run marked submitted has a successful receipt for its own transaction |
| Theorems.FailedIsTrue | src/xian_dex_automation/storage.py:301-348 | a failed swap has a failing receipt, or was refused first and never sent in the open |
| Theorems.DismissedOnNetwork | src/xian_dex_automation/execution.py:47-55 | exactly when a dismissed run's bytes are on the network after all: a later run signed and sent the same bytes |
| Theorems.HeldIsTrue | src/xian_dex_automation/storage.py:237-262 | a held run's nonce is consumed; with a dedicated signer its own transaction committed |
| Theorems.JournalAgrees | src/xian_dex_automation/storage.py:117-169 | pending is owning the slot, outcome_unknown is being held, and a rule has at most one of either |
| Theorems.BaselinesBelong | src/xian_dex_automation/storage.py:88-103 | when the enabled rules' ids of all stored configurations lead to their own pairs, every stored baseline was observed in the market the configuration in force gives its rule, also after drains and late recovery; in an installation that starts without a stored one, when earlier evaluators had their rules in the first publisher's markets |
| Theorems.BaselinesSurvive | src/xian_dex_automation/storage.py:88-103 | a publication keeps the baseline of exactly those rules whose market and pair stay, and every last action |
| Theorems.PublishesExactly | src/xian_dex_automation/storage.py:78-98 | a publication stores its target under the next generation, drops the cursors exactly if the market is another one, and leaves the journal alone |
| Theorems.BaselinesPositive | src/xian_dex_automation/rules.py:69-76 | the invalid_baseline branch is never taken |
| Theorems.NoReplay | src/xian_dex_automation/worker.py:193-227 | after a release for a consumed nonce a rule decides nothing before the receipt of that very run was recovered and a fresh baseline stored, across restarts and reconfigurations |
| Theorems.WriteAhead | src/xian_dex_automation/execution.py:44-47 | every send was journaled with these bytes, then marked attempted, and went to an endpoint reporting the original chain |
| Theorems.SameBytes | src/xian_dex_automation/execution.py:20-23 | all sends of a run carry the same bytes |
| Theorems.SendsAreAllowed | src/xian_dex_automation/execution.py:41-47 | every send obeys `wallet.execute` of the configuration that governs it, which outside a drain is the stored one |
| Theorems.DrainNeverSends | src/xian_dex_automation/configuration.py:51-67 | a process draining towards `execute: false` never sends |
| Theorems.SendsUnderLock | src/xian_dex_automation/worker.py:84-94 | a send is a turn of the process holding the execution lock |
| Theorems.EvaluatesUnderStored | src/xian_dex_automation/worker.py:161-170 | whoever evaluates passes the configuration check at every step: it is bound to the stored row, or to generation 0 while there is none |
| Theorems.JournalsUnderStored | src/xian_dex_automation/worker.py:64-68 | a journal write carries the configuration stored then; generations only increase, so no older worker journals again |
| Theorems.PublishesAlone | src/xian_dex_automation/configuration.py:32-42 | a publication finds the slot empty, every journaled run closed and nobody else past a lock |
| Theorems.AdmittedExactly | src/xian_dex_automation/storage.py:73-76 | with a stored row an evaluator passes its check exactly when it is bound to that row; without one, exactly at generation 0 |
| Theorems.LocksExactly | src/xian_dex_automation/storage.py:43-71 | a lock step gets exactly what is free; a background recovery gives up when a drain holds admission and otherwise follows the stored configuration |
| Theorems.CooldownKept | src/xian_dex_automation/rules.py:94-105 | a decision comes at least the cooldown after every earlier success, dry run or recovered receipt of its rule |
| Theorems.ActsAfterCooldown | src/xian_dex_automation/worker.py:269-316 | every dry run and every journaled swap carries out a decision past the cooldown of all actions until then; for a swap it is the journaled rule's own cooldown |
| Theorems.ActionsRemembered | src/xian_dex_automation/storage.py:369-387 | resets, failures, holds and initialisation never erase or lower the time of a rule's last action |
| Continuity.RunsEvolve | src/xian_dex_automation/storage.py:409-426 | over any run: rows are never removed, rule and hash never change, statuses only move towards an outcome, outcomes are final |
| Continuity.CrashTransparent | src/xian_dex_automation/execution.py:11-67 | whatever deaths and retries lie in between, recording the receipt leaves the database one pass would have left |
| Continuity.RunForgets | src/xian_dex_automation/storage.py:284-299 | while a run keeps the slot, all that any execution leaves is the attempt marker, the error note and cursors |
| Recoveries.ReceiptSettles | src/xian_dex_automation/execution.py:34-38 | a recovery of an attempted swap that is shown its receipt settles the run by it, empties the slot and on success gives the rule the run's next baseline, whatever the nonce would say |
| Recoveries.ConsumedHolds | src/xian_dex_automation/execution.py:39-40 | shown no receipt and reading a consumed nonce, it holds exactly this run with its swap, frees the slot and sends nothing |
| Recoveries.UnconsumedResends | src/xian_dex_automation/execution.py:39-47 | shown no receipt and reading an unconsumed nonce, it sends the same bytes again if it may, and no answer to that send closes the run |
| Recoveries.WithheldStays | src/xian_dex_automation/execution.py:41-42 | what must not be broadcast stays pending and unchanged |
| Recoveries.RefusalDismisses | src/xian_dex_automation/execution.py:44-55 | a definitive refusal of a first send closes the run as failed with its message and leaves every rule alone |
| Recoveries.SecondReceiptSettles | src/xian_dex_automation/execution.py:55-58 | a receipt shown after the send settles the run in the same way |
| Recoveries.UnseenStaysPending | src/xian_dex_automation/execution.py:55-58 | without one the run stays pending for a later recovery |
| Recoveries.FaultIsNoted | src/xian_dex_automation/execution.py:25-31 | an exception at any other step, a changed endpoint included, leaves the run pending with a note of it and nothing else |
| Recoveries.OpeningIsNoted | src/xian_dex_automation/execution.py:22-31 | so does a transport that cannot be opened |
| Recoveries.NothingPending | src/xian_dex_automation/execution.py:14-16 | without a pending execution there is nothing to recover |
| Recoveries.HeldReceiptFrees | src/xian_dex_automation/execution.py:70-87 | a held rule whose receipt is shown is freed: the run is settled by it, the rule starts over and is decided |
| Recoveries.UnseenStaysHeld | src/xian_dex_automation/execution.py:75-90 | a held rule whose receipt is not shown is passed over and nothing changes |
| Recoveries.DrainEndpoints | src/xian_dex_automation/configuration.py:51-67 | a drain tries the target's endpoint first, exactly if it is another one and not on another chain by configuration, and the run's own last |
| Recoveries.DrainGoesOn | src/xian_dex_automation/configuration.py:51-67 | endpoint by endpoint under the target's broadcast policy, until the slot is empty |
| Recoveries.SigningHasResult | src/xian_dex_automation/worker.py:309-316 | a reconciliation right after journaling always has a result, so its status can be read |
| Evaluations.PassStarts | src/xian_dex_automation/worker.py:172-180 | an evaluation ends where the recovery before it leaves a swap pending; otherwise a snapshot of its pair starts it over the pair's enabled rules, position by position of the configuration |
| Evaluations.WaitingKeeps | src/xian_dex_automation/worker.py:218-237 | a rule that does not act gets the price as its baseline exactly if it has no usable one, and nothing else changes |
| Evaluations.ActionIsJournaled | src/xian_dex_automation/worker.py:239-315 | a rule not held whose decision is to act, on a pair that quotes and with a node that answers, is signed for that node's chain and journaled with its own call, origin and next baseline, into the slot, and its submission is next |
| Evaluations.ActionRunsDry | src/xian_dex_automation/worker.py:269-291 | without leave to execute the rule advances to the price and time of its decision and a dry run is recorded; nothing is signed |
| Evaluations.QuoteFailureIsReported | src/xian_dex_automation/worker.py:239-259 | a quote that fails or cannot be had leaves a failed row with the error and the rule as it was |
| Evaluations.PreparationFailureIsReported | src/xian_dex_automation/worker.py:286-306 | so does a call that cannot be built, another chain than the configured one, a consumed nonce or a node that does not answer |
| Evaluations.SubmissionEnds | src/xian_dex_automation/worker.py:179-185 | after a submission the pass goes on to the next rule exactly if nothing is left pending |
| Scenarios.CleanPass | src/xian_dex_automation/execution.py:44-58 | the uninterrupted pass exists and ends in exactly the database with the receipt recorded |
| Scenarios.Rejected | src/xian_dex_automation/execution.py:48-55 | a refused first broadcast closes the run as failed with the rejection's message |
| Scenarios.FailedThoughCommitted | src/xian_dex_automation/execution.py:48-55 | an execution in which a failed run's hash has a successful receipt |
| Scenarios.Misplaces | src/xian_dex_automation/storage.py:99-103 | from any enabled rule whose id leads to another pair, an execution that stores a baseline not observed in the rule's market |
| Scenarios.BelongsExactly | src/xian_dex_automation/storage.py:88-103 | a deployment under one configuration, stored or not, keeps every baseline in its market if and only if every enabled rule's id leads to its own pair |
| Scenarios.Outlives | src/xian_dex_automation/configuration.py:44-49 | with nothing stored: from any enabled rule of the evaluators that is not in the same market in the first publisher's own configuration, an execution that keeps its baseline under the stored one |
| Scenarios.FirstBelongsExactly | src/xian_dex_automation/storage.py:78-103 | with nothing stored: all baselines end in the market of what is stored if and only if the evaluators' enabled rules have their markets in the first publisher's own configuration |
| Continuity.CursorsGrow | src/xian_dex_automation/storage.py:460-472 | a cursor never decreases, whoever writes it, while publications keep the market, with or without a stored row to begin with |
| Continuity.StepCursors | src/xian_dex_automation/storage.py:95-98 | only a publication for another market than the stored one, or with nothing stored than the manager's own, lets a cursor fall |
| Momentum.TurnBaseline | src/xian_dex_automation/storage.py:320-328 | a completed action moves the baseline to a price past the threshold of a rule under its id, of the stored configuration or, with none stored, of one an evaluator observed under; any other turn keeps, forgets or first sets it |
| Momentum.UpCompoundsOverRuns | src/xian_dex_automation/worker.py:318-322 | over any execution without a reset, stored configuration or not, after n completed actions an `up` rule's baseline is at least b (1 + t/10000)^n |
| Storage.AutomationStore.BeginExecution | src/xian_dex_automation/storage.py:171-202 | journals the run and takes the slot in one transaction; with the slot taken nothing remains of it |
| Storage.AutomationStore.PendingExecution | src/xian_dex_automation/storage.py:204-226 | the slot joined with its run |
| Storage.AutomationStore.UncertainExecution | src/xian_dex_automation/storage.py:228-235 | the held execution of a rule joined with its run, or none if the rule has none |
| Storage.AutomationStore.ReleaseConsumedExecution | src/xian_dex_automation/storage.py:237-262 | moves the pending execution to the held ones; fails without a trace for any other run |
| Storage.AutomationStore.ResolveUncertainExecution | src/xian_dex_automation/storage.py:264-282 | settles a held run, frees it and starts its rule afresh |
| Storage.AutomationStore.MarkBroadcastAttempted | src/xian_dex_automation/storage.py:284-291 | marks the slot's own run only |
| Storage.AutomationStore.NoteExecutionError | src/xian_dex_automation/storage.py:293-299 | annotates the run only while it owns the slot |
| Storage.AutomationStore.FinishExecution | src/xian_dex_automation/storage.py:301-348 | settles the run, empties the slot and, on success only, advances the rule |
| Storage.AutomationStore.SaveActiveConfig | src/xian_dex_automation/storage.py:78-86 | stores the configuration under the next generation and resets what changed markets invalidate |
| Storage.AutomationStore.ResetChangedMarkets | src/xian_dex_automation/storage.py:88-103 | the loop over rule ids clears exactly the baselines whose market or pair changed |
| Storage.AutomationStore.SaveCursor | src/xian_dex_automation/storage.py:460-472 | raises the cursor or leaves it |
| Submission.DecidesExactly | src/xian_dex_automation/submission.py:75-96 | exactly which CheckTx answers accept or reject; every other one raises and decides nothing |
| Submission.KnownIsNeverRefused | src/xian_dex_automation/submission.py:93-96 | a node that says in any spelling that it knows the transaction never rejects it |
| Submission.PositiveIsConsumed | src/xian_dex_automation/submission.py:63-73 | a positive nonce reading is reliable even from a lagging node, and exact from a current one |
| Submission.NonceExactly | src/xian_dex_automation/submission.py:63-73 | a nonce is read as consumed exactly from a number that reaches it, as unconsumed without an entry; malformed and negative entries raise |
| Host.Host.NonceConsumed | src/xian_dex_automation/submission.py:63-73 | answers exactly on the original chain and for a readable nonce, and positively only for a consumed one |
| Host.Host.Broadcast | src/xian_dex_automation/submission.py:75-96 | sends exactly when the endpoint reports the original chain and the connection holds; the reply is the classified answer, and without one nothing was sent |
| Host.Host.Lookup | src/xian_dex_automation/submission.py:98-109 | returns the receipt exactly if it is shown, on the original chain, and only a true one |
| Host.Host.ReconcileExecution | src/xian_dex_automation/execution.py:11-31 | ends settled after an execution of the protocol; without a pending result the slot is free and everything journaled is closed |
| Host.Host.Reconcile | src/xian_dex_automation/execution.py:34-58 | the ordered steps inside the transport, each the turn of the protocol that the answer of its time calls for; what they come to is in `Recoveries` |
| Host.Host.ReconcileUncertainRule | src/xian_dex_automation/execution.py:70-90 | visits the rule and tells whether it remains held, by receipts alone; a rule not found held is never reported as held |
| Host.Host.EvaluateRule | src/xian_dex_automation/worker.py:187-237 | one rule from its hold check to its outcome: it is visited, considered unless found held, and signed for at most once, and no other rule is; a pending result means this process journaled its swap; it raises only for an answer that is none |
| Host.Host.ActOnRule | src/xian_dex_automation/worker.py:239-316 | from the quote to a dry run or at most one journaled swap of this rule; a pending result means that swap |
| Host.Host.Quote | src/xian_dex_automation/worker.py:239-259 | the least output is the client's quote less the rule's slippage |
| Host.Host.PrepareSwap | src/xian_dex_automation/dex.py:365-402 | signs the call built for this rule and least output, for the chain the endpoint reports, with the wallet's account and a nonce above the committed one |
| Host.Host.EvaluatePairLocked | src/xian_dex_automation/worker.py:172-185 | a refusal that did nothing, or every matching rule visited in order and the pair ended under this very session, or the rules in order up to one whose swap it journaled |
| Host.Host.EvaluateRules | src/xian_dex_automation/worker.py:179-185 | the loop visits the matching rules in order: all of them, or up to the first one left pending |
| Host.Host.EvaluatePair | src/xian_dex_automation/worker.py:154-170 | takes and returns both locks around the evaluation; whatever its outcome the deeds are those of the matching rules in order up to some rule, and of all of them when it ends the pair; a refusal and an exception have their cause in the execution: a taken lock, a pending swap, another stored configuration, an answer that is none |
| Host.Host.EvaluationLock | src/xian_dex_automation/storage.py:60-71 | admission is claimed, then execution, and admission is given back either way; it reports as taken only what was |
| Host.Host.RecoverOnce | src/xian_dex_automation/worker.py:84-94 | an unblocked result means everything journaled before has left the slot, and a blocked one that a lock was taken or the swap is still pending |
| Host.Host.DrainPending | src/xian_dex_automation/configuration.py:51-67 | tries the endpoints in turn and may publish exactly when the slot is empty |
| Host.Host.Publish | src/xian_dex_automation/configuration.py:44-49 | this process stores the target configuration once or, exactly when the commit raises, nothing |
| Host.Host.Update | src/xian_dex_automation/configuration.py:20-42 | closes admission, polls for execution, drains and publishes; it reports success exactly when it stored the target itself, and every lock is returned; busy means that admission was taken, failure that the commit raised |
| Config.ValidateStrategyRules | src/xian_dex_automation/config.py:119-160 | accepts exactly the configurations within the envelope, else names a limit broken by the first rule outside it |
| Config.MatchingInOrder | src/xian_dex_automation/worker.py:324-327 | the matching rules are the enabled rules of the pair, each position of the configuration once and in its order |
| Config.PairOfLast | src/xian_dex_automation/storage.py:88-92 | a rule id leads to the pair of the last rule listed under it, and to none if there is no such rule |
| Config.EnabledPairsExact | src/xian_dex_automation/worker.py:339-346 | every pair with an enabled rule, once, in increasing order |
| Events.AutomationWorker.WaitForExecution | src/xian_dex_automation/worker.py:139-144 | returns once everything journaled before has left the slot, and gives up only while a lock is taken or a swap pending |
| Events.AutomationWorker.EvaluateEventPair | src/xian_dex_automation/worker.py:125-137 | whatever its outcome, one delivery visits the matching rules in order up to some rule; it passes only once every matching rule was visited under its session, or all up to one whose swap it journaled and which left the slot; any other outcome has its cause in the execution |
| Events.AutomationWorker.HandleEvent | src/xian_dex_automation/worker.py:115-123 | in the order of its turns: the deeds for the event's own pair or, without one, for every pair with an enabled rule once and in increasing order, each done, and then the cursor; no cursor is saved in any other case, nor once the session is no longer bound; an event that is not passed has its cause in the execution |
| Events.AutomationWorker.WatchEvents | src/xian_dex_automation/worker.py:96-123 | everything the watcher does is the handling of the events in order, every finished one complete for all pairs it concerns, from the stored cursor on |
| Events.PassesVisited | src/xian_dex_automation/worker.py:115-137 | a cursor passes an event only after, for its own pair or for each pair with an enabled rule, the enabled rules of the pair were visited position by position of the configuration: all of them, or all up to one whose journaled swap has left the slot; whatever was not held was considered at once |
| Events.OncePerRule | src/xian_dex_automation/worker.py:125-137 | under distinct rule ids one delivery journals at most one swap per rule |
| Events.SavesLast | src/xian_dex_automation/worker.py:120-123 | handling an event saves no cursor but the event's own, after everything else |
| Events.CursorIsLast | src/xian_dex_automation/worker.py:120-123 | the watcher's cursor is that of the last event that has an id |
| Deeds.StoredCursorWasSaved | src/xian_dex_automation/storage.py:452-472 | the cursor a restart finds was saved by some process, with this value |
| Deeds.SignedIsLogged | src/xian_dex_automation/worker.py:309-315 | what a process signed for is journaled under its rule and run |
| Vault.StrategyVault.constructor | contracts/con_dex_strategy_vault.py:38-78 | an accepted `seed` deploys the specified state |
| Vault.StrategyVault.Deposit | contracts/con_dex_strategy_vault.py:117-127 | credits what arrived, or reverts without a trace with the specified error |
| Vault.StrategyVault.Withdraw | contracts/con_dex_strategy_vault.py:130-138 | pays the owner, or reverts |
| Vault.StrategyVault.SetKeeper | contracts/con_dex_strategy_vault.py:141-147 | replaces the keeper and pauses, or reverts |
| Vault.StrategyVault.SetPaused | contracts/con_dex_strategy_vault.py:150-160 | owner and keeper pause, only the owner unpauses |
| Vault.StrategyVault.TightenLimits | contracts/con_dex_strategy_vault.py:163-192 | replaces the limits and pauses, or reverts |
| Vault.StrategyVault.CheckSwap | contracts/con_dex_strategy_vault.py:197-216 | the guards before the quote, in order |
| Vault.StrategyVault.ExecuteSwap | contracts/con_dex_strategy_vault.py:195-253 | all guards in order, the swap and the bookkeeping; a late failure restores everything |
| VaultHistory.SeedsExactly | contracts/con_dex_strategy_vault.py:38-78 | exactly which seeds are accepted, and the state each starts in |
| VaultHistory.AcceptedExactly | contracts/con_dex_strategy_vault.py:117-192 | exactly which deposits, withdrawals, keeper changes, pauses and tightenings are accepted, by whom |
| VaultHistory.AcceptedEffect | contracts/con_dex_strategy_vault.py:117-192 | each changes what it is about and nothing else |
| VaultHistory.OnlyEntitled | contracts/con_dex_strategy_vault.py:81-82 | over any history nothing is accepted from a caller it is not for, and the owner never changes |
| VaultHistory.ExecutesExactly | contracts/con_dex_strategy_vault.py:195-253 | exactly when a swap executes, in terms of caller, pause, limits, budget, balance, cooldown, deadline, quote and payout |
| VaultHistory.ExecutionEffect | contracts/con_dex_strategy_vault.py:225-244 | an executed swap moves the two balances, the budget and the time, and nothing else |
| VaultHistory.ExecutesAsKeeper | contracts/con_dex_strategy_vault.py:195-210 | every execution is by the keeper of its time, seeded or appointed last by the owner, before a deadline within the limit then in force |
| VaultHistory.KeeperIsAppointed | contracts/con_dex_strategy_vault.py:141-147 | the keeper is the seeded one or the argument of the last accepted appointment, which only the owner makes |
| VaultHistory.SeedIsSound | contracts/con_dex_strategy_vault.py:38-78 | a seeded vault is paused, unspent, owned by its creator and within its bounds |
| VaultHistory.LimitsTighten | contracts/con_dex_strategy_vault.py:163-192 | over any calls: limits only tighten, trade cap and spending stay within the cap, the strategy never changes |
| VaultHistory.SpentIsSum | contracts/con_dex_strategy_vault.py:243-244 | `spent_total` is the sum of the executed inputs |
| VaultHistory.WithinEarlierCap | contracts/con_dex_strategy_vault.py:200-203 | spending at any later time is within the cap in force at any earlier time |
| VaultHistory.ExecutionsSpaced | contracts/con_dex_strategy_vault.py:211-216 | executions lie a cooldown apart, whatever is changed in between |
| VaultHistory.RateBound | contracts/con_dex_strategy_vault.py:195-244 | in any window of W seconds at most W/c + 1 swaps and that many trade caps are spent |
| VaultHistory.ExecutesUnpaused | contracts/con_dex_strategy_vault.py:150-160 | each execution follows an owner's unpause later than the last keeper change, tightening or pause |
| VaultHistory.KeeperCannotDrain | contracts/con_dex_strategy_vault.py:130-138 | without the owner the output token never leaves, and the source leaves only by executed inputs within the cap |
| VaultHistory.TurnConserves | contracts/con_dex_strategy_vault.py:225-241 | balances change by exactly what a call takes and puts |
| VaultHistory.FairPrices | contracts/con_dex_strategy_vault.py:218-241 | every swap ever executed paid its quote less the slippage allowed at any earlier time |
| RuleLaws.ActsWhen | src/xian_dex_automation/rules.py:29-114 | exactly when a rule acts, as price bounds without division |
| RuleLaws.SetsBaselineWhen | src/xian_dex_automation/rules.py:52-76 | a price becomes the next baseline exactly if the rule acts on it or has no usable one |
| RuleLaws.WaitsBecause | src/xian_dex_automation/rules.py:52-105 | exactly which reason a rule that does not act reports, in terms of prices and times |
| RuleLaws.UpCompounds | src/xian_dex_automation/rules.py:43-114 | n actions of an `up` rule compound to b (1 + t/10000)^n, over any evaluations, failed ones included |
| RuleLaws.DownCompounds | src/xian_dex_automation/rules.py:43-114 | n actions of a `down` rule compound to at most b (1 - t/10000)^n |
| RuleLaws.DownCanAct | src/xian_dex_automation/rules.py:38-39 | a `down` rule can act if and only if its threshold is below 10000 |
| RuleLaws.NeverRefires | src/xian_dex_automation/worker.py:318-322 | after a completed action the same snapshot fires again only under a threshold of at most zero |
| RuleLaws.MovesBetweenActions | src/xian_dex_automation/rules.py:78-92 | between two actions the price moved by the threshold, whatever was evaluated in between |
| QuoteLaws.QuoteKeepsProduct | src/xian_dex_automation/dex.py:247-261 | the quote is the one output that keeps the product for the fee-paying input |
| QuoteLaws.QuoteExactInIsQuote | src/xian_dex_automation/dex.py:247-261 | on a liquid pair the client quotes for either token, below the other token's reserve and such that the input less the fee keeps the product of the reserves |
| QuoteLaws.QuoteIncreases | src/xian_dex_automation/dex.py:258-261 | more input, more output |
| QuoteLaws.ProductNeverFalls | src/xian_dex_automation/dex.py:258-261 | crediting the full input never lowers the reserve product, and keeps it exactly without a fee |
| QuoteLaws.SplittingNeverPays | src/xian_dex_automation/dex.py:258-261 | any split into successive trades yields at most one quote for the whole |
| QuoteLaws.DeadlineWindow | src/xian_dex_automation/dex.py:123-148 | a deadline exists for positive spans only and ends five seconds early, at least one second after its base |
| QuoteLaws.PriceIsRatio | src/xian_dex_automation/dex.py:73-77 | exactly a liquid pair has a price, positive, and it is the second reserve per unit of the first |
| QuoteLaws.DirectCall | src/xian_dex_automation/dex.py:329-349 | a direct swap calls the configured router for this pair, token and amount, and pays the action's recipient, else the wallet's, else the signer |
| Envelope.SlippedOrder | src/xian_dex_automation/worker.py:259 | under any monotone rounding, allowing less slippage never asks for less output |
| Envelope.AcceptedByVault | src/xian_dex_automation/dex.py:295-327 | a rule of an accepted configuration builds a call that passes the vault's trade-size, slippage and deadline guards |
| Envelope.LagTolerated | src/xian_dex_automation/dex.py:263-278 | exactly how far chain time may lag the base of a deadline |
| Envelope.JournaledIsBuilt | src/xian_dex_automation/worker.py:239-315 | a journaled transaction carries the call built from an enabled rule, the snapshot stored with its run, whose price was observed before, the fee quoted for it and the deadline base recorded for this transaction, signed for the configured chain |
| Envelope.JournaledIsAcceptable | src/xian_dex_automation/worker.py:293-315 | every swap journaled under a vault configuration within its envelope is for the vault's pair and direction and a call its guards accept: the trade size, no less than the vault's share of the quote on the run's stored snapshot at the recorded fee, and a deadline after the recorded base and within the vault's bound from there on |
| Envelope.JournaledIsRouterSwap | src/xian_dex_automation/dex.py:329-349 | every swap journaled for a direct wallet is a router call for the rule's pair, token and amount that pays the action's recipient, else the wallet's, else the signer, for the rule's share of the quote on the run's snapshot and within its deadline |
| Envelope.JournaledAfterCooldown | src/xian_dex_automation/config.py:154-160 | under an accepted vault configuration a swap is journaled only on a decision the vault's own cooldown after every earlier action of its rule |
| Envelope.SwapGoesThrough | contracts/con_dex_strategy_vault.py:195-253 | an open vault with budget and balance executes the swap the service builds from the shared snapshot |

## Left out

- Theorems.FailedIsTrue: does not say that a dismissed run's hash never appears on the network, because it can;
  DismissedOnNetwork says exactly when.
- The FastAPI routes, the admin token and origin checks, the page and the command line: request plumbing.
- `run_forever`, `_run_configuration` and `evaluate_pair_once`: they restart or sequence the modelled operations.
- `_watch_events`' admission probe before it opens its client: a watcher starts at its stored cursor here.
- The `database_path` check of `update` and the `after_commit` callback (which may raise after the store): paths and callbacks are not modelled.
- The SDK, signing, JSON, SQLite and flock themselves: transactions are atomic, locks are given back on death,
  and the persisted hash check is the identity of signed bytes.
- Configuration fields that none of the modelled operations read (watcher mode, polling interval, key
  sources, paths); changing only these still publishes a new generation.
- Key files, credentials, YAML and atomic file replacement, logging and retry reporting.
- Rounding: prices, quotes and vault amounts are exact reals; only `Envelope` treats rounded decimals.
- The internals of the router, the pair contract and the token contracts: their answers are parameters.
- Liveness of lock polling: starvation is possible in the code. Loops that poll forever take a `polls` budget,
  and running out of it stands for cancellation.
- That no stale watcher of another process writes a cursor after a publication: its check and its write are
  not atomic. Monotone cursors are proved instead.
- `get_strategy`, `list_runs` and other pure reads, and the `created_at` and `updated_at` columns.
