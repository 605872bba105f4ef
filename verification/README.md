# Run orchestration of the fund's core, modelled and proved in Dafny

The core runs research on covered tickers. Runs are split into stages that workers claim
from a leased queue; a per-ticker lock keeps two dossier-changing runs apart; the
orchestrator promotes, advances, requeues, pauses, fails and finishes runs; coverages move
through a state machine whose every move is logged and announced; the PM decides at gates.
Each piece is small. This project proves what they guarantee together, over every
interleaving of workers, reaper, orchestrator passes and PM actions.

`dafny verify dfyconfig.toml` checks everything.

## How it is organised

- **Vocabulary and pure logic**: `Domain`, `RunMachine`, `Backoff`, `CoverageMachine`,
  `CrossCheck`, `Planner`, `Predictions`, `Queue`; `Creation` says which runs are accepted.
- **The protocol**: `Protocol` holds one state `Db` and one function for every public
  operation; `Step`, `Enabled`, `Apply` and `Next` are the transition system.
- **The inductive invariant**: `Invariants`, kept by every step (`Effects`, `Tables`,
  `Preservation`, `Lifecycle`, `Advancing`, `Traces`). `Sources` says which steps can cause
  which visible changes.
- **Whole-run theorems**: `Safety`, `BoundedWork`, `CrossChecks`, `Stranding`, `Settling`,
  `Leads`, `Starvation`; concrete runs: `Witnesses`, `MissedChecks`.
- **The code that changes things in place**: `Store.Session` is the database session; the
  methods of `QueueStore`, `RunStore`, `CoverageStore`, `LedgerStore`, `Engine`, `Worker`,
  `Orchestrator`, `Ticks` and `Routes` change it field by field, with the loops the source has, and
  are proved equal to the protocol's functions or to a path of protocol steps. So whatever
  is proved of every path holds for them.
- **Smaller stateful protocols**: `Outbox`, `Idempotency`, `Levels`.
- **The reading assumption**: `SessionReads`.

## Modelling choices

- A raised exception is `None` (or a method answering false, or a conflict): the session
  rolls back (`core/api/deps.py`, lines 21-32), so the step did not happen.
- Child rows are nested in their parents, and the key of a run, coverage, prediction or
  outbox row is its position, so inserting is appending and a key is never reused.
- **A session reads its own earlier writes.** The roll-up sum and the re-read of the stages
  after a cross-check was appended need it, but the factory (`core/db/session.py`, line 22)
  sets `autoflush=False`. All modules assume it except `SessionReads`, which proves exactly
  what happens without it, and `Levels`, which treats both kinds of session.
- Steps are atomic. The draining of the queue inside an advance pass appears in the
  protocol as separate claim, complete and fail steps; `Orchestrator.AdvanceRun` puts them
  back in front of the pass.
- `fail_stage` is called only on a running stage: its branch without retry sets `failed`
  without asking the stage machine. Every theorem about traces relies on this, and
  `Queue.FailOffContractBalancesIff` says what breaks otherwise.
- `start_run` is reached only through `promote_run`, which checks for `queued`.
- The configuration grants every stage at least one attempt (`Protocol.FundOk`).
- The table's constraints on a coverage's lead (`core/db/models.py`, lines 69 and 84-88) are
  checked where the flush that ends a transition checks them; a violation raises.
- The clock, the random factor of a retry delay, the contributors of a coverage, the houses
  table and whether a position is open are parameters.
- Updating, superseding and scoring a prediction are one step, `Editing`; levels and the
  delivery of outbox rows share nothing with the rest and have modules of their own.
- A query without an order, or with ties in it, may return any fitting row; methods that
  need a concrete choice take table order.
- Money and prices are reals; the hash in a prediction's key is the tuple of what is hashed;
  the hash of a request body is an arbitrary function.

## Findings

Four promises do not hold as they stand. The code is modelled as it is, the exact condition
is proved, and a run of the system from the empty database reaches each failure
(`Witnesses`, `MissedChecks`).

1. A pending coverage can be stranded for ever: cancelling the run that waits at its
   decision gate, or answering that gate through the gate route, removes the only way out
   (`Stranding.EscapeIffDecidable`, `Stranding.StrandingSource`).
2. The decide route looks for any open gate of the coverage, so another run's budget gate
   can make a good decision fail (`Routes.DecisionIsSureIff`).
3. A fully worked initiation whose coverage is not initiating, or is initiating without a
   lead because a caller stored a null `lead_house`, can never be finalized
   (`Leads.FinalizableIff`), and a run that holds a result with an entry the ledger refuses
   can never be scanned. Either holds on until it is cancelled, and as long as it is there
   every tick raises and changes nothing, so it starves every other run
   (`Starvation.NeverFinalized`, `Starvation.NeverRegistered`, `Ticks.Tick`). Cancelling
   does not bring back a coverage that is initiating without a lead: it stays so or fails,
   and a failed coverage never moves again (`Leads.LostForEver`).
4. Without reading its own writes, a session ends a materially changed event analysis with
   its cross-check unworked, under-reports a run's cost by its last attempt, and leaves two
   active levels of one kind (`SessionReads`, `Levels.UnflushedHistoryKeepsOneIff`).

The transition table has 19 entries.

## Model

| member | source | states |
|---|---|---|
| Traces.NextKeeps | core/orchestrator/engine.py:42-347 | Every step of the protocol keeps the whole inductive invariant (stages, gates, graph, locks, logs, lockstep, outbox, ledger) and moves rows only forward. |
| Traces.InvAlways | core/orchestrator/engine.py:338-347 | From the empty database the invariant holds in every state of every interleaving. |
| Traces.ForwardAlways | core/db/models.py:233-273 | Between any two states of a run of the system no run, stage, log row or prediction is lost or rewritten, and finished stages and runs stay as they are. |
| Safety.MutualExclusion | core/db/repo/runs.py:98-122 | Two mutating runs on one coverage are never running or waiting for the PM together, requeues and cancellations included. |
| Safety.LockTable | core/db/repo/runs.py:98-167 | Every running or waiting mutating run owns its coverage's lock, and every owner is an unfinished mutating run on that coverage. |
| Safety.ClaimedRunOwnsLock | core/db/queue.py:41-58 | A stage is only ever handed out for a running run, and if that run is mutating it owns the lock at that instant. |
| Safety.Progress | core/orchestrator/planner.py:50-94 | A running run without a failed stage has a leased stage or a queued one whose dependency is met, if and only if it has an unfinished stage. |
| Safety.CostConserved | core/db/queue.py:101-144 | In every state a run has cost the sum over all attempt rows of all its stages, and each stage the sum over its own. |
| Safety.ReapedAttemptIsFree | core/db/queue.py:208-237 | Reaping closes the attempt as failed at no cost and moves neither the stage's nor the run's cost. |
| Safety.AttemptLedger | core/db/queue.py:71-89 | Attempt rows are numbered 1 to attempts; a stage runs iff exactly one row runs, iff it is claimed, iff it is leased. |
| Safety.GateDiscipline | core/db/repo/runs.py:170-190 | Queued and running runs have no gate, a waiting run exactly one, no run ever two. |
| Safety.WaitingIsFinal | core/domain/run_sm.py:63-95 | A run that reached waiting_pm never queues, runs or fails again, keeps its one gate, and a finished run never moves. |
| Safety.DecisionGateMeaning | core/orchestrator/engine.py:287-319 | A run has a decision gate only if every stage succeeded or was skipped and its cost is within its non-zero cap. |
| Safety.AttemptSource | core/db/queue.py:71-89 | Only a claim of that very stage adds an attempt to it. |
| Safety.FirstClaimAfterDependency | core/db/queue.py:48-57 | A stage is first claimed only when its dependency is met, and the dependency stays met ever after. |
| Safety.Lockstep | core/orchestrator/engine.py:117-129 | While the run that started an initiation lives, the coverage is initiating when it is queued, running or at a budget gate, and pending when it is at the decision gate. |
| Safety.FailureTakesCoverage | core/orchestrator/engine.py:251-263 | When that run fails, its coverage fails in the same step. |
| Safety.OnlyDecisionLeavesPending | core/api/routes.py:235-244 | Only a decision moves a pending coverage, and the same step finishes the run whose gate it answered. |
| Safety.LogReplays | core/db/repo/coverage.py:109-213 | Every log is a chain of table entries that replays to the current state, is only appended to, and has exactly one state_changed event per row, in order. |
| Safety.LiveWasEarned | core/domain/coverage_sm.py:78-188 | Nothing is or was active or watched unless, since its last proposal, an initiation was delivered and the PM then decided on a run that finished all its work within budget. |
| Safety.LiveHasLead | core/db/models.py:84-88 | A pending, active or watched coverage always has a lead house: a write that would leave it without one is refused. |
| BoundedWork.WorkBounded | core/db/queue.py:159-237 | All claims, completions, failures and reaps ever done number at most twice the retry budget of all stages. |
| BoundedWork.StepSpends | core/db/queue.py:71-75 | Each of those operations uses up budget and no step gives any back. |
| BoundedWork.ClaimsWithinBudget | core/db/queue.py:71-75 | A stage's attempt counter is the number of times it was claimed, never more than max_attempts. |
| CrossChecks.NoUncheckedSuccess | core/orchestrator/engine.py:276-319 | An event analysis with an author's result succeeds only after a first pass that compared it with the last target registered before, and if the move was material its cross-check succeeded. |
| CrossChecks.AtMostOneCrossCheck | core/orchestrator/engine.py:195-202 | However often a run is advanced it never holds two cross-check stages. |
| CrossChecks.ScannedIsRegistered | core/orchestrator/engine.py:132-159 | A pass registers every entry of every finished stage it sees. |
| CrossChecks.RescanAddsNothing | core/orchestrator/engine.py:279-283 | Scanning a finished stage again, any time later, adds nothing to the ledger. |
| Stranding.EscapeIffDecidable | core/api/routes.py:234-244 | A pending coverage can ever leave that state iff some initiation waits at its open decision gate. |
| Stranding.CancellingStrands | core/api/routes.py:480-493 | After cancelling the run at the gate, the coverage is pending in every state of every continuation. |
| Stranding.AnsweringStrands | core/db/repo/runs.py:193-211 | So it is after answering the decision gate directly. |
| Stranding.StrandingSource | core/api/routes.py:216-255 | No other step takes the way out away. |
| Witnesses.CancelledIsStranded | core/api/routes.py:480-493 | From the empty database: initiate, deliver, cancel; the coverage is pending and nobody can decide on it. |
| Witnesses.AnsweredIsStranded | core/api/routes.py:521-543 | The same after answering the decision gate with "active" through the gate route. |
| Witnesses.SecondInitiationIsDoomed | core/orchestrator/engine.py:117-129 | From there a second initiation is promoted and worked, and no pass over it can ever go through. |
| Witnesses.NullLeadIsDoomed | core/orchestrator/engine.py:98-100 | A null lead_house from the caller ends in a worked initiation on an initiating coverage that can never be delivered. |
| MissedChecks.RefusedResultChokes | core/db/models.py:377-397 | A result with an unlisted kind leaves an analysis that no pass can get past. |
| Witnesses.DecisionDependsOnTheGateFound | core/api/routes.py:234-244 | A reachable pending coverage with two open gates: the decision goes through with the one found and is refused with the other. |
| Routes.DecisionIsSureIff | core/api/routes.py:234-244 | A decision on a pending coverage goes through whichever open gate the query returns iff something is open on it and everything open on it is the decision gate. |
| Routes.Decide | core/api/routes.py:216-255 | The route is exactly one decision step with the gate it found, or a 404, 400, 409 (illegal transition) or 500 that changes nothing. |
| Routes.CancelRun | core/api/routes.py:480-501 | Cancels exactly the unfinished runs; otherwise it answers 500 and nothing changes. |
| Routes.Steer | core/api/routes.py:258-355 | Promote, demote, exit and re-propose: refused exactly where the table has no entry or the exit guard fails. |
| Lifecycle.DecideExact | core/db/repo/coverage.py:75-106 | A decision succeeds iff the coverage is pending and the gate found is the open decision gate of a waiting initiation; then run, gate, coverage, log, lock and events change together. |
| Lifecycle.FinalizeMeaning | core/orchestrator/engine.py:228-248 | An initiation is finalized iff its coverage is initiating and has a lead, and then delivered, gated and paused in one step. |
| Leads.FinalizableIff | core/orchestrator/engine.py:228-248 | In every reachable state a running initiation can be finalized iff its coverage is initiating and the run that started it had stored a lead. |
| Leads.LeadStoredIff | core/orchestrator/engine.py:98-100 | An accepted initiation stores a lead iff the caller named a house for it or left the entry out; a null entry is kept. |
| Leads.LostForEver | core/domain/coverage_sm.py:78-188 | A coverage that is initiating without a lead is still so, or failed, in every continuation, and a failed one never moves again. |
| Leads.PromoteRaisesIff | core/db/repo/coverage.py:205-208 | A promotion raises iff the run is missing or would start an initiation under a stored lead that is not in the houses table. |
| Lifecycle.FailRunMeaning | core/orchestrator/engine.py:251-263 | The whole new state of a failing run, with and without its coverage. |
| Lifecycle.FinishMeaning | core/db/repo/runs.py:136-167 | Which runs can be finished with which status, and the whole new state. |
| Advancing.AdvanceRaisesIff | core/orchestrator/engine.py:269-319 | A pass over a running run raises iff a finished stage's result names an entry the ledger refuses, a due cross-check has no policy, or the run is a fully worked initiation within budget whose coverage is not initiating or has no lead. |
| Advancing.ScanRaisesIff | core/orchestrator/engine.py:276-285 | The scan raises iff some stage it has reached holds a refused entry, or the author's due cross-check has no policy. |
| Starvation.NeverFinalized | core/orchestrator/engine.py:228-248 | A fully worked initiation that cannot be delivered stays so, and every pass over it raises, in every state of every continuation until it is cancelled. |
| Starvation.NeverRegistered | core/orchestrator/engine.py:276-285 | A running run with a finished stage whose result holds a refused entry stays so, and every pass over it raises, in every state of every continuation until it is cancelled. |
| Starvation.EveryTickRaises | core/orchestrator/engine.py:338-347 | While there is a run of either kind, no tick goes through. |
| Advancing.AppendKeeps | core/orchestrator/engine.py:175-225 | Appending a cross-check keeps the run well-formed, happens at most once, and does happen on a material change. |
| Advancing.ScanRunExact | core/orchestrator/engine.py:276-285 | All that a scan does to its run happens at the author's stage. |
| Sources.StandingSource | core/domain/run_sm.py:63-95 | A run's status or gates change only when it is itself promoted, advanced, decided or cancelled. |
| Sources.StateSource | core/db/repo/coverage.py:247-268 | A pending coverage moves only by a decision, an initiating one only by an advance pass. |
| Sources.ConcludeOutcome | core/orchestrator/engine.py:287-319 | How a pass ends by what stages and cost say: failed iff a stage failed, succeeded only with all work done within budget, gated only from an initiating coverage. |
| SessionReads.StalePassSucceedsUncheckedIff | core/db/session.py:20-22 | Without reading its own writes a pass ends an event analysis with its cross-check unworked exactly when one had to be appended to otherwise finished work. |
| SessionReads.StaleRollUpLags | core/db/queue.py:137-144 | Without it, completing an attempt leaves the run's cost short by exactly that attempt. |
| SessionReads.StaleFailureLags | core/db/queue.py:178-205 | So does failing one, retried or not. |
| MissedChecks.StalePassMissesIt | core/orchestrator/engine.py:276-319 | A run of the system from the empty database reaches a state in which such a pass succeeds with its cross-check queued. |
| Queue.FailOffContractBalancesIff | core/db/queue.py:188-205 | Failing a stage that is not running is accepted unless a retry is due, and keeps cost and attempts in balance iff it is free. |
| Queue.FailOffContractExample | core/db/queue.py:200-202 | A concrete succeeded stage that becomes a failed one whose cost its attempts do not explain. |
| Queue.EveryOperationUsesBudget | core/db/queue.py:71-75 | Claim, completion, failure and reap each strictly lower the stage's potential. |
| Queue.CloseKeepsCost | core/db/queue.py:101-134 | Closing an attempt charges the row and the stage alike and leaves the numbering intact. |
| QueueStore.FindClaimable | core/db/queue.py:41-69 | Returns nothing iff no stage is eligible, else an eligible stage that no eligible stage precedes by priority, creation time and sequence. |
| QueueStore.ClaimStage | core/db/queue.py:31-89 | The claim: that stage, and the whole new state. |
| QueueStore.Heartbeat | core/db/queue.py:92-98 | Extends the lease iff the caller holds the running stage, and changes nothing else. |
| QueueStore.CompleteStage | core/db/queue.py:159-175 | A completion step iff the stage is running. |
| QueueStore.FailStage | core/db/queue.py:178-205 | A failing step, retry and backoff included. |
| QueueStore.FindExpired | core/db/queue.py:210-215 | Exactly the running stages whose lease lapsed, each once. |
| QueueStore.ReapExpired | core/db/queue.py:208-237 | Reaps exactly those, each to its own retry time or to failed, touches nothing else, and is a path of reaping steps. |
| RunStore.StartRun | core/db/repo/runs.py:98-122 | Takes a free lock and runs iff the run then owns it. |
| RunStore.RequeueRun | core/db/repo/runs.py:125-133 | Requeues exactly a running run. |
| RunStore.FinishRun | core/db/repo/runs.py:136-167 | The terminal change and its side effects in order. |
| RunStore.AddStages | core/db/repo/runs.py:77-95 | One queued stage per seat, refused iff some seat has no known house. |
| RunStore.AnswerGate | core/db/repo/runs.py:193-211 | Replays the same key, overwrites otherwise, refuses a key another gate carries. |
| CoverageStore.Record | core/db/repo/coverage.py:109-213 | Log row, event, then the side effects in order. |
| CoverageStore.Transition | core/db/repo/coverage.py:247-268 | The table's move and its effects, nothing where it is illegal, or a flush that violates the lead constraint. |
| CoverageStore.Propose | core/db/repo/coverage.py:216-244 | A proposing step under a fresh key. |
| CoverageStore.SetLead | core/db/repo/coverage.py:271-314 | A leading step, or nothing. |
| LedgerStore.RegisterFromStage | core/db/repo/predictions.py:52-93 | Inserts the entries in order, skipping known keys; fails as a whole. |
| LedgerStore.UpdatePrediction | core/db/repo/predictions.py:96-104 | Refused iff a protected column is named or the row is missing. |
| LedgerStore.Score | core/db/repo/predictions.py:115-136 | Scores the row in place, writing of the outcome exactly what was given. |
| LedgerStore.ScoringDone | core/db/repo/predictions.py:115-136 | That is the ledger's scoring call, which touches mutable columns only. |
| LedgerStore.Supersede | core/db/repo/predictions.py:107-112 | The superseding call, or nothing for a missing row. |
| LedgerStore.LastTargetPrice | core/orchestrator/engine.py:162-172 | A newest target row's price, none iff there is no target row. |
| Creation.InitiationAcceptedIff | core/orchestrator/engine.py:42-114 | An initiation is created iff it has a policy and a coverage, lead and verifiers are known analysts, and the data checker is a known house. |
| Creation.CreatedRun | core/orchestrator/engine.py:97-114 | A new run is queued, gateless and free, with one untried chained stage per seat of its plan; no other row changes. |
| Engine.CreateRun | core/orchestrator/engine.py:42-114 | The new run and its planned stages, or nothing. |
| Engine.PromoteRun | core/orchestrator/engine.py:117-129 | A promoting step and whether the run started, or a raise. |
| Engine.MaybeAppendCrossCheck | core/orchestrator/engine.py:175-225 | The append in place, with its search for an earlier one. |
| Engine.ScanStages | core/orchestrator/engine.py:276-285 | The loop over the run's stages, reading the last target before registering the author's. |
| Engine.Conclude | core/orchestrator/engine.py:287-319 | Fail, requeue, pause, wait or finalize: the first that applies. |
| Engine.FinishPass | core/orchestrator/engine.py:276-319 | The part of an advance after the drain is exactly the protocol's pass. |
| Worker.Round | tests/fakes/runner.py:71-88 | Claims a stage and finishes that very attempt, or leaves it hanging if so configured, or finds nothing. |
| Worker.Drain | tests/fakes/runner.py:67-89 | Whole rounds of claim and finish as the script says, failures counted on from before; terminates by the retry budgets, and leaves nothing claimable unless the last claim hangs. |
| Orchestrator.AdvanceRun | core/orchestrator/engine.py:269-319 | A drain exactly as the runner is told, and then a pass that raises iff the protocol's does; nothing at all for a run that is not running. |
| Settling.DrainedRunIsSettled | core/db/queue.py:41-69 | When nothing is claimable any more, every running run is done, failed, in flight or waiting for a retry. |
| Settling.PassSettles | core/orchestrator/engine.py:269-319 | A pass after a full drain leaves a run running only if a worker still holds one of its stages or its cross-check was just appended. |
| Ticks.Tick | core/orchestrator/engine.py:338-347 | Promotes every queued run, then gives every run that is then running its drain and pass, each once and in order. It fails only where a promotion raises or, after the turns before it, that run's drain (the runner's own: claim, finish that very attempt, fail a role as often as configured, stop when nothing is claimable or a role hangs) ends in a state where its pass raises; then nothing changes. It always fails while some run is stuck. |
| Orchestrator.TickPath | core/orchestrator/engine.py:338-347 | A tick that goes through is a path of protocol steps, none of them a cancellation. |
| Orchestrator.IdsWithExact | core/orchestrator/engine.py:340-346 | The tick's queries return every run with the status exactly once. |
| CoverageMachine.LegalActionsExact | core/domain/coverage_sm.py:238-240 | An action is offered iff some context lets it through. |
| CoverageMachine.ChainReplays | core/db/repo/coverage.py:142-152 | A log that is a chain replays to its last state. |
| CoverageMachine.Milestones | core/domain/coverage_sm.py:78-188 | Where a log stands: its last proposal and the delivery and decision since. |
| CoverageMachine.LiveWasDeliveredAndDecided | core/domain/coverage_sm.py:78-188 | Every visit to active or watch follows a delivery and a PM decision since the last proposal. |
| RunMachine.RunEffectsExact | core/domain/run_sm.py:59-95 | Lock release and run.finished go with exactly the terminal changes, a gate with exactly the entry to waiting_pm. |
| Backoff.ClosedFormIsRecurrence | core/domain/backoff.py:21-27 | The capped power of two is the doubling recurrence. |
| Backoff.DelayBoundedAndMonotone | core/domain/backoff.py:21-27 | The jittered delay is non-negative, at most the jittered cap, and never shrinks as attempts grow. |
| CrossCheck.ExtractTargetExact | core/orchestrator/cross_check.py:17-21 | The earliest valued target price, none iff there is none. |
| Planner.PlanIsChain | core/orchestrator/planner.py:50-82 | Every plan is numbered from one, each stage waits for the one before, one author opens it, and no plan holds a cross-check. |
| Planner.VerifiersAreSmallest | core/orchestrator/rotation.py:14-22 | The verifiers are the first n of the sorted contributors, none lost or added. |
| Planner.InitiationRoster | core/orchestrator/planner.py:50-64 | Who sits where in an initiation, none of lead and verifiers a meta house. |
| Planner.PlanInitiation | core/orchestrator/planner.py:50-64 | The loop that appends the stages builds that plan. |
| Predictions.LedgerIsImmutable | core/db/repo/predictions.py:52-136 | Over any sequence of calls no row disappears, no protected column changes and keys stay unique. |
| Predictions.RegisterAppends | core/db/repo/predictions.py:52-93 | Registering only appends, makes every entry's key present and stamps new rows with the stage's identity. |
| Predictions.RegisterRaisesIff | core/db/repo/predictions.py:52-93 | Registering raises iff some entry breaks the table's constraints. |
| Predictions.ReregisterAddsNothing | core/db/repo/predictions.py:41-93 | Registering again, after any edits and additions, changes nothing. |
| Predictions.UpdatePreserves | core/db/repo/predictions.py:96-104 | An accepted edit leaves every protected column of every row alone. |
| Outbox.Outbox.Publish | core/db/repo/outbox.py:24-47 | Appends one fresh row, or nothing for a known key. |
| Outbox.Outbox.Select | core/db/repo/outbox.py:54-67 | The oldest available rows, no more than asked for, nothing older passed over. |
| Outbox.Outbox.Consume | core/db/repo/outbox.py:50-73 | Leases and counts exactly the selected rows. |
| Outbox.RowsKept | core/db/repo/outbox.py:24-91 | No row is ever lost or relabelled, and delivered rows stay delivered. |
| Outbox.KeysStayUnique | core/db/repo/outbox.py:33-37 | Dedupe keys stay unique over every history. |
| Outbox.DeliveriesAreApart | core/db/repo/outbox.py:53-73 | Two deliveries of one event with no nack between them are more than the lease apart. |
| Outbox.NackDelays | core/db/repo/outbox.py:84-91 | A nacked event is not handed out before the backoff of its last nack has passed. |
| Outbox.AckIsFinal | core/db/repo/outbox.py:76-81 | An acknowledged event is never handed out again. |
| Outbox.AttemptsCountDeliveries | core/db/repo/outbox.py:68-71 | An event's attempts are exactly the times it was handed out. |
| Idempotency.ReplayEquivalence | core/api/deps.py:86-101 | For any trace the final state is that of running only the requests whose key was not already stored, without the wrapper. |
| Idempotency.FirstsAreEnough | core/api/deps.py:86-101 | Sending only those leaves the same records, too. |
| Idempotency.RepeatsAreAnsweredOnce | core/api/deps.py:92-100 | A later request under an answered key gets the first response again or, with another body hash, a refusal; neither changes anything, whatever the route. |
| Idempotency.RaisingStoresNothing | core/api/deps.py:21-32 | A handler that raises stores nothing, and its key reaches the handler again. |
| Idempotency.AnsweredOncePerKey | core/api/deps.py:64-83 | No key is answered by a handler twice. |
| Idempotency.Server.Handle | core/api/deps.py:86-101 | The wrapper in place: look up, run, store. |
| Levels.LevelsRefineMap | core/db/repo/coverage.py:317-346 | After any calls, repeated kinds included, each coverage and kind has at most one active row, holding the last level written. |
| Levels.EarlierRowsSurvive | core/db/repo/coverage.py:332-334 | Every row ever written survives, superseded at most once. |
| Levels.UnflushedKeepsOneIff | core/db/repo/coverage.py:326-346 | In a session that does not flush, a call keeps one active row per kind iff its list repeats no kind. |
| Levels.UnflushedHistory | core/db/repo/coverage.py:326-346 | After any sequence of such calls a coverage and kind has as many active rows as the last accepted call that wrote it wrote. |
| Levels.UnflushedHistoryKeepsOneIff | core/db/repo/coverage.py:326-346 | So there is one active row each iff that last call wrote it once; earlier repeats do no lasting harm. |
| Levels.LevelStore.SetLevels | core/db/repo/coverage.py:317-346 | The two loops, all or nothing. |

## Left out

- Runs of type lead_review and distillation: the engine calls the planner without its required retry budget for them, so they cannot be created.
- The uniqueness of a run's trigger reference and of a coverage's exchange and ticker.
- Parameters of the wrong JSON type (a number for a house, a null priority or verifier count): only a house's absence, a null and a key are told apart.
- Coverage actions without a caller outside tests (initiation_cancelled, retry_initiation, withdraw): in the table and the log theorems, not among the steps.
- Side effects of a transition that the repository ignores (branch merges, deep reviews, expiry of predictions, level writing).
- Timestamps that nothing reads (started, finished, decided, exited, acquired), error texts, token counts, transcripts and attempt columns other than number, status, worker, cost and kill reason.
- Audit rows and lead history rows.
- Row locks, SKIP LOCKED, isolation levels and the scheduler's leader lock: steps are atomic.
- The stance and severity arms of the cross-check rule: the engine passes nothing for either.
- What answering a budget gate should do: no code acts on it.
- Rotation of verifiers by last use: the planner always passes an empty map, so only the sort remains.
- Default contributors, configuration loading, authentication, HTTP and JSON, time zones, decimal rounding.
- Outbox.NackDelays: speaks of the last nack, because a nack needs no claim and a second one replaces the first one's backoff, shorter or not.
- Ticks.Tick: runs are visited in table order, because the source's queries ask for no order.
- Protocol.Advance: the last target price is one answer per pass, read for the only author, the run's first stage.
