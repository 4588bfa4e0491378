# TruthDeck Conductor and hook installer: a verified model

This project models three parts of the repository and proves what they keep over whole runs.

* **Host resource admission** (`scripts/conductor_resources.py`): pools, provider sources, slots, the
  priority queue and its promotions, leases and heartbeats, inheritance by child processes, fencing into
  RECOVERY_REQUIRED, recovery, imported observations, and the stale-slot sweep.
* **Work-item ownership and durability** (`scripts/conductor_store.py`, `conductor_model.py`,
  `conductor_commands.py`, `conductor_scheduler.py`): claim generations as fencing tokens, fenced worker
  writes, the state machine with its event ledger, the v9 migration, the committed receipt outbox, the
  leader lock, selection, and the enqueue, authorize, claim and reconcile commands.
* **Installers** (`scripts/hooks_install.py`, `scripts/conductor_install.py`): the managed hook block
  (rendering, reading back, classifying, merging, status, uninstall) and the all-or-nothing owned-file
  installer.

## How it is built

The tables are one value, `Db` (`HostModel.dfy`, `ConductorModel.dfy`). Every transaction is a function on
that value (`HostPromotion`, `HostSweep`, `HostOperations`, `WorkStore`), and a mutable class whose fields are
the tables carries it out step by step (`Store.ConductorStore`, `ResourceManager.HostResourceManager`); each
method is proved to reach exactly the tables, and give exactly the answer, that the function says. What the
code promises is then proved of the functions: `HostInvariant`, `HostSweepProof` and `HostOperationsProof` for
one step, `HostFairness` for the order of promotions, `WorkProof` and `WorkLedger` for claims and events,
`IdempotencyKeys` for the UNIQUE keys, and `Runs` and `SweptRuns` for every interleaving of all the transactions from a
good state; empty tables are one (`EmptyIsGood`, `GoodFromEmpty`). `HostWitnesses` holds concrete states, each reached
from empty tables by listed transactions, in which a property one would expect fails. Handlers made of several
transactions (claim, enqueue, reconcile) are modelled as sequences of them, so the run theorems cover what other
writers do in between.

What each operation decides is stated a second time, in terms of the rows alone and without the functions that decide
it: when a request is stale (`HostStaleness`) and what a sweep takes and leaves (`SweepAnswers`); who is admitted,
inherits or waits (`HostAnswers`); what a heartbeat, release, recovery, fence or promotion changes (`HoldAnswers`), and
an import or a record (`RecordAnswers`); who may write to a work item (`WorkAnswers`); what a GO says and a claim
writes (`ClaimAnswers`); what reconcile fences (`ReconcileAnswers`); which item is selected (`SchedulerAnswers`); whose
a hook command is (`HookAnswers`); what the file installer refuses and leaves (`InstallAnswers`). Each is proved equal
to what the functions do. `HostJournal` relates the event journal to the request states over runs.

The outbox, the leader lock, the scheduler and the two installers are separate modules. Failures are explicit:
each disk or database access of the outbox and of the owned-file installer asks an oracle whether it works,
raises or kills the process, and a hook install may die after any of its four writes.

Times are integers, one reading per step. Process liveness is one answer (gone, alive, unproven) per recorded
identity and step. Freshly minted ids are parameters that have not been used.

## Where the code does less than one would expect

Each of these is a lemma that says exactly when.

* Recovery looks at the process on the lease only (`RecoveryFrees`). It overrides a running process exactly when that is
  the owner recorded on the request (`RecoveryOverridesOnlyRequestOwner`; concretely, `RecoveryReleasesLiveOwner`).
* A blocked waiter that stands ahead of every waiter whose pool can promote lends its place to its pool. The promotion
  follows the source's queue order exactly when no such waiter's pool has all its runnable waiters behind a runnable
  one of another pool (`PromotionOrder`). `PriorityInversion` is a concrete case: a release promotes priority 10 over a
  runnable priority 50, because a blocked priority 90 heads the queue.
* A waiter released because a sweep took another request of its attempt gets no event of its own: the journal still
  tells it as waiting. Otherwise the journal tells the state of every request (`JournalOverRuns`).
* A fenced child whose parent's request the same sweep took earlier is judged without the lease it inherited from
  (`SweepTakesOnlyStale`).
* The reconcile command does not look at claims: an overdue lease of another attempt fences the item under its
  present owner (`ReconcileIgnoresOwnership`). Two overdue leases on one item abort the pass, and then exactly the
  items with a row before the first repeated one have been fenced (`ReconcileFences`).
* Healing a store already marked v9 adds the columns without appointing owners (`HealingWithoutHistory`). This is a
  defensive case: no earlier build is known here to write a v9 store without them.
* Saving a work item under a known id resets its state behind the ledger (`SavingKnownIdBreaksLedger`).
* The delivered flag and the file name go by command id, which the schema does not make unique
  (`DeliveryNeedsDistinctCommands`). Outside the backlog a receipt is attempted exactly when fewer than 64
  undelivered ones are ahead of it, so 64 that keep failing starve the rest (`StarvedBehindFailures`).
* A leader that cannot read its own start time records 0, and the next other leader to ask takes the lock from it
  while it runs, exactly when it started a second or more after the epoch (`UnreadableStartLosesLock`).
* A hook command rendered from a root whose POSIX spelling contains a backslash is not recognised as its own
  until recorded (`RenderedIsManaged`), and until then every merge appends it again (`MergeIdempotent`).
* A hook install that dies between the pending sidecar and the settings forgets the commands recorded before
  (`PendingSidecarForgets`, `RepeatedInstallAgrees`).
* A hook install raises, having changed nothing, on an event or a group's `hooks` that cannot be iterated, such as a
  non-zero number, whatever event it is (`HookLifecycle.ClaudeHome.Install`). Any other event that is not an array survives the
  install, but an uninstall that removes anything rewrites it as the array of what it iterates to
  (`NonArrayIsRewritten`); uninstall raises only on an event edited in after the install.
* The owned-file uninstall has no rollback: interrupted, it leaves an installation that both uninstall and install
  refuse (`InterruptedUninstallIsStuck`).

## Model

| member | source | states |
|---|---|---|
| HostPromotion.OnePromotionSuffices | scripts/conductor_resources.py:1904-1996 | if no waiter was eligible before one request was released, the single promotion that follows leaves none eligible, in its own pool or any pool sharing the source |
| HostFairness.PickIsFirst | scripts/conductor_resources.py:1948-1976 | the waiter promoted in a pool could run and, against every other that could, has the higher priority, or the same and asked earlier, or at the same time under a smaller id |
| HostFairness.PromotionOrder | scripts/conductor_resources.py:1904-1916 | across a source the promoted waiter is ahead, by priority, then age, then id, of every runnable one exactly when no blocked waiter, ahead of every waiter whose pool can promote, belongs to a pool whose runnable waiters all stand behind a runnable one of another pool |
| HostWitnesses.PriorityInversion | scripts/conductor_resources.py:666-715 | after seven admission calls on empty tables, releasing one request promotes priority 10 although a runnable priority 50 is ahead of it |
| HostSweepProof.SweepSafety | scripts/conductor_resources.py:761-907 | a sweep ends a hold only when every identity recorded on its own lease and request is gone (and an inherited child has one), or it runs in one of two CDP pools and was promoted, or else first leased, the maximum hold ago or longer; every other holder keeps its row, its lease and its recorded processes |
| HostSweepProof.SweepSettles | scripts/conductor_resources.py:717-1089 | a whole sweep, promotions included, keeps every admission, lease, parent and no-lost-wakeup invariant |
| HostSweepProof.SweepEndsAttempts | scripts/conductor_resources.py:956-1056 | after a sweep the attempt of every swept request is UNKNOWN, holds no work lease and has no queued request |
| HostSweepProof.SweepFixpoint | scripts/conductor_resources.py:747-1089 | a second sweep under the same clock and the same liveness answers sweeps nothing and changes nothing |
| HostStaleness.VerdictIsStale | scripts/conductor_resources.py:761-907 | a candidate is taken exactly when it is stale and no other child inherits from its lease: past the maximum hold, or silent for the whole TTL, its lease run out if it executes, and nobody left, which for a waiter means its owner gone, or none recorded and both cutoffs passed |
| SweepAnswers.NothingStaleIsLeft | scripts/conductor_resources.py:717-1089 | after an enabled sweep no unfinished request is stale, but for one that another child still inherits from |
| SweepAnswers.SweepTakesOnlyStale | scripts/conductor_resources.py:761-907 | a sweep takes a holder only when it is stale in the tables before the sweep, or a fenced child stale but for the lease of a parent taken in the same sweep; it is released with the reason that fits |
| SweepAnswers.SweepAndWaiters | scripts/conductor_resources.py:864-960 | a waiter comes out of a sweep as it was, promoted, or released, and that only when its owner is gone, or none is recorded past both cutoffs, or another request of its attempt was taken |
| SweepAnswers.SweepFencesItems | scripts/conductor_resources.py:998-1056 | a sweep that takes a request of an attempt leaves the live work item which that attempt owns RECOVERY_REQUIRED, under the same owner |
| RecordAnswers.CandidatesInOrder | scripts/conductor_resources.py:747-759 | a sweep judges candidates by creation time, then id |
| HostSweep.PassProgress | scripts/conductor_resources.py:747-759 | a pass that sweeps anything sweeps an id not swept before, which bounds the loop |
| HostOperationsProof.RequestKeeps | scripts/conductor_resources.py:414-626 | an admission call, whether it replays, refuses, queues, admits or inherits, keeps all invariants |
| HostAnswers.RequestAnswers | scripts/conductor_resources.py:458-626 | a new, valid call by an attempt in good standing: a busy source refuses a named parent and undoes the sweep; a named lease of this pool, of an ACTIVE request and unexpired, is inherited, or the call quarantined when it has a child; any other call runs, under a lease of its own until now + ttl, exactly when pool, source and slot have room, and else waits with the reason that applies |
| HostAnswers.RequestRefuses | scripts/conductor_resources.py:414-480 | any other call under a new key is refused: for its arguments, a closed pool or a bad capacity changing nothing, for a reaped attempt keeping the sweep |
| HostAnswers.EligibleCouldRun | scripts/conductor_resources.py:1918-1976 | a waiter is eligible exactly when its pool is open and below capacity, fewer than 3 or 4 hold its source, no holder has its slot and its attempt was not reaped |
| HostOperationsProof.HeartbeatKeeps | scripts/conductor_resources.py:628-664 | a heartbeat keeps all invariants and never revives an expired lease |
| HoldAnswers.HeartbeatExtends | scripts/conductor_resources.py:628-664 | a heartbeat is accepted exactly for an unexpired lease of an ACTIVE request with positive ttl and a positive sequence ahead of the last; the lease then runs out at now + ttl, and every other row is unchanged |
| HoldAnswers.HeartbeatRefuses | scripts/conductor_resources.py:628-652 | each refusal of a heartbeat by its condition on the rows |
| HoldAnswers.HeartbeatHolds | scripts/conductor_resources.py:628-664 | after it, no reconcile at a clock up to now + ttl fences the request for its lease |
| HostOperationsProof.ReleaseKeeps | scripts/conductor_resources.py:666-715 | a release with its promotion keeps all invariants |
| HoldAnswers.ReleaseAnswers | scripts/conductor_resources.py:666-715 | release accepts exactly a waiter, a child, or a runner from whose lease no child inherits; it lets go of that row alone and then promotes; refused, it changes nothing |
| HoldAnswers.ReleaseRefuses | scripts/conductor_resources.py:666-700 | each refusal of a release by its condition on the rows, and what a request released or quarantined before is answered |
| HoldAnswers.PromotionGrants | scripts/conductor_resources.py:1904-1996 | a promotion grants one waiter of the pool or its source that could run and is first among those of its own pool a lease for 300 seconds, changing nothing else; or none could run and nothing changes |
| HostOperationsProof.RecoverKeeps | scripts/conductor_resources.py:1186-1283 | a recovery with its promotion keeps all invariants |
| HostOperationsProof.RecoveryOverridesOnlyRequestOwner | scripts/conductor_resources.py:1239-1262 | recovery releases a request with a running recorded process exactly when it has what recovery asks for and that process is the owner on the request row |
| HostOperationsProof.RecoveryFrees | scripts/conductor_resources.py:1209-1283 | recovery releases exactly a fenced request without inheriting children whose lease process is not running, and either is gone, for a pool of no provider, or the operator attests with a reason |
| HoldAnswers.RecoveryAnswers | scripts/conductor_resources.py:1239-1283 | an accepted recovery releases that row alone, by its dead process when the pool has no provider and else as attested, and then promotes |
| HoldAnswers.RecoveryRefuses | scripts/conductor_resources.py:1209-1257 | each refusal of a recovery by its condition on the rows: not there, not fenced, provider not attested, a child inheriting, the process on the lease running, or not known gone and not attested with a reason |
| HostWitnesses.RecoveryReleasesLiveOwner | scripts/conductor_resources.py:1239-1262 | after an admission with an owner, the child recorded on the lease and a reconcile past its expiry, recovery releases the request without attestation while the owner is alive |
| HostOperationsProof.UncertainKeeps | scripts/conductor_resources.py:1718-1738 | marking a provider attempt uncertain keeps all invariants although it may exceed the pool's fenced count |
| HoldAnswers.UncertainAnswers | scripts/conductor_resources.py:1718-1738 | a provider request is fenced exactly when attempt and agent are its own and it is executing or fenced already; nothing else changes |
| HostOperationsProof.MarkRecoveryKeeps | scripts/conductor_resources.py:1741-1771 | fencing a bounded child keeps all invariants, parent safety included |
| HoldAnswers.MarkRecoveryAnswers | scripts/conductor_resources.py:1741-1771 | exactly an ACTIVE or INHERITED request is fenced, and nothing else changes |
| HostOperationsProof.ReconcileKeeps | scripts/conductor_resources.py:1111-1184 | sweeping and then fencing expired leases keeps all invariants |
| HostOperationsProof.ReconcileFencesExpired | scripts/conductor_resources.py:1140-1176 | after a reconcile no ACTIVE request has a lease that expired before now |
| HoldAnswers.ReconcileRowsOf | scripts/conductor_resources.py:1111-1184 | with an expired ACTIVE lease, a fenced or an inherited request there, a reconcile sweeps and then fences exactly the requests that run under a lease expired before now, leaving every other row and every lease as the sweep left it; otherwise it changes nothing |
| HostOperationsProof.RetainKeeps | scripts/conductor_resources.py:1632-1716 | importing an observation keeps every invariant except the bound on fenced holders |
| RecordAnswers.RetainAnswers | scripts/conductor_resources.py:1632-1716 | a new observation fences the request it names, or the only one of its attempt, owner and source, if that ever executed; with several it is refused, with none it inserts a fenced hold of its own unless the key is taken |
| RecordAnswers.RetainReplays | scripts/conductor_resources.py:1632-1716 | the same observation again is answered with its request as it now is, and refused when its details differ |
| RecordAnswers.LogFocusedAnswers | scripts/conductor_resources.py:1557-1597 | a focused run under a new key is one more row, RELEASED from the start, without a lease |
| HostOperationsProof.AttachRequestKeeps | scripts/conductor_resources.py:1462-1488 | recording the spawned child on an inherited request keeps all invariants |
| RecordAnswers.AttachAnswers | scripts/conductor_resources.py:1462-1488 | recording a process changes that lease, or the owner of that request and when it was seen, and nothing else |
| HostJournal.JournalOverRuns | scripts/conductor_resources.py:1999-2031 | over every run the latest event of each request tells the state it is in, but for waiters a sweep released along with another request of their attempt |
| ResourceManager.HostResourceManager.PromoteLocked | scripts/conductor_resources.py:1918-1996 | the queue scan promotes exactly the specified waiter or none |
| ResourceManager.HostResourceManager.PromoteRelatedLocked | scripts/conductor_resources.py:1904-1916 | the loop over the source's queue promotes exactly the specified waiter or none |
| ResourceManager.HostResourceManager.SweepStaleSlots | scripts/conductor_resources.py:717-1089 | the nested loops over per-pass snapshots reach exactly the specified tables and list of swept ids |
| ResourceManager.HostResourceManager.ReapAttempt | scripts/conductor_resources.py:974-1056 | the attempt, work-lease, item and event updates of one reaping are the specified ones |
| ResourceManager.HostResourceManager.RequestSlot | scripts/conductor_resources.py:414-626 | the whole admission call, its rolled-back sweep included, reaches the specified tables and answer |
| ResourceManager.HostResourceManager.Heartbeat | scripts/conductor_resources.py:628-664 | the lease is extended, or the call refused, as specified |
| ResourceManager.HostResourceManager.ReleaseSlot | scripts/conductor_resources.py:666-715 | release, its refusals and its promotion, as specified |
| ResourceManager.HostResourceManager.Recover | scripts/conductor_resources.py:1186-1283 | recovery, each refusal and its promotion, as specified |
| ResourceManager.HostResourceManager.MarkUncertain | scripts/conductor_resources.py:1718-1738 | the fence, or the refusal, as specified |
| ResourceManager.HostResourceManager.Reconcile | scripts/conductor_resources.py:1111-1184 | sweep and fences in turn, as specified |
| ResourceManager.HostResourceManager.RetainObservedAttempt | scripts/conductor_resources.py:1632-1716 | replay, binding, insertion, fence, or refusal of an observation whose key another row took, as specified |
| Runs.AlwaysGood | scripts/conductor_resources.py:414-1996 | every state reached by any interleaving of host and work transactions satisfies every invariant, unique idempotency keys included |
| Runs.GoodFromEmpty | scripts/conductor_resources.py:355-381 | so does every state reached from empty tables, and without imported observations fenced holders too fit each source |
| Runs.NoLostWakeup | scripts/conductor_resources.py:1918-1996 | in every reachable state every queued request waits for a reason: its pool is closed or full, its source is full, its slot is taken, or its attempt was reaped |
| Runs.AdmissionSafety | scripts/conductor_resources.py:458-626 | in every reachable state ACTIVE fits each pool, no two ACTIVE share a slot, ACTIVE plus INHERITED fits each source, and each child has one live parent of its own |
| Runs.ProviderBounds | scripts/conductor_resources.py:81-86 | in every reachable state at most 4 requests are ACTIVE or INHERITED across the two pools of ChatGPT, likewise of Perplexity, and at most 3 across the pools of any other source |
| Runs.TightWithoutRetain | scripts/conductor_resources.py:1892-1902 | without imported observations fenced holders too fit the source's capacity |
| Runs.OneActiveInterval | scripts/conductor_resources.py:675-708 | a request runs for one contiguous interval, never waits again, and leaves RECOVERY_REQUIRED only to RELEASED; FenceIsLeftBy says by which steps |
| Runs.OneLeaseEver | scripts/conductor_resources.py:1803-1841 | leases of one request in two states of a run are the same lease |
| Runs.ExpiryIsFinal | scripts/conductor_resources.py:628-664 | a lease expired at one step keeps its expiry for the rest of the run |
| Runs.OneRequestPerKey | scripts/conductor_store.py:1600-1602 | an admission call under the key of a request known at any earlier time changes nothing, and answers with that request as it now is or refuses, exactly when pool, command, attempt, agent or slot differ; no other row ever has the key |
| Runs.RepeatedCallIsReplayed | scripts/conductor_resources.py:446-457 | the same admission call at any later time is answered with the same request and changes nothing |
| Runs.OneWorkItemPerKey | scripts/conductor_store.py:1452-1454 | a new item under the key of one known at any earlier time is not saved, and no other item ever has the key |
| Runs.FencingOverRuns | scripts/conductor_store.py:2016-2132 | once a later claim is recorded, no completion, checkpoint or heartbeat of the earlier attempt passes the fence in any later state, and reaping it moves no item |
| Runs.FencedWritesOverRuns | scripts/conductor_store.py:2016-2443 | over every run a completion or checkpoint that changes anything was by an attempt standing, with that very item, its recorded owner at its own claim, and an unexpired lease of the presented generation; it moves no other item |
| Runs.ClaimSupersedes | scripts/conductor_store.py:2591-2628 | a recorded claim supersedes every earlier claim of its item, with a strictly greater generation |
| Runs.CurrentGenerationIsGreatest | scripts/conductor_store.py:2591-2628 | in every reachable state the current generation of a claimed item is the greatest of its claims and belongs to the claim of its present owner |
| Runs.ReapedMeansDead | scripts/conductor_resources.py:383-399 | an attempt once UNKNOWN never again passes the fence, nor gains a running request by asking or by promotion |
| SweptRuns.SweptAttemptIsReaped | scripts/conductor_resources.py:956-1056 | whichever transaction of a run sweeps a request, a sweep of its own, a reconcile or an admission call that commits its sweep, the attempt is left UNKNOWN with no waiter and no work lease |
| SweptRuns.SweptMeansDead | scripts/conductor_resources.py:956-1056 | once swept at any step of a run, an attempt passes the worker fence in no later state, and none of its requests begins to run |
| SweptRuns.FenceIsLeftBy | scripts/conductor_resources.py:1186-1283 | a step that takes a request out of RECOVERY_REQUIRED takes it to RELEASED and is the recovery of that request or swept it |
| Runs.LedgerOverRuns | scripts/conductor_store.py:2502-2555 | in every reachable state events chain and replay to each item's state, completed items were launched since last READY, terminal states absorb |
| WorkLedger.StagesInOrder | scripts/conductor_model.py:49-65 | the states since the last READY are those the present state presupposes, in order |
| WorkLedger.CompletedWasLaunched | scripts/conductor_model.py:49-65 | a completed item went READY, CLAIMED, DISPATCHING, RUNNING with nothing in between |
| WorkLedger.TerminalAbsorbs | scripts/conductor_model.py:49-65 | no chained continuation of a ledger leaves a terminal state |
| WorkLedger.EdgesByTarget | scripts/conductor_model.py:49-65 | the transition table by column: from which states each state is entered |
| WorkLedger.SavingKnownIdBreaksLedger | scripts/conductor_store.py:2203-2249 | saving a DISCOVERED item keeps the ledger exactly when the id is new or still DISCOVERED |
| WorkProof.SaveClaimKeeps | scripts/conductor_store.py:2591-2628 | recording a claim keeps claims numbered 1, 2, ... per item and the owner the last claimant, above all earlier generations |
| WorkProof.SupersededIsRefused | scripts/conductor_store.py:2032-2132 | the worker fence refuses every write of a superseded attempt, whatever lease, generation or time it presents |
| WorkProof.SupersededReapMovesNothing | scripts/conductor_resources.py:989-1022 | reaping a superseded attempt changes no item and appends no event |
| WorkProof.FenceImpliesWriteFence | scripts/conductor_store.py:2016-2026 | the fence checked first implies the one repeated inside the write |
| WorkAnswers.CompletedByOwner | scripts/conductor_store.py:2276-2372 | a completion is accepted only from an attempt that stands, whose item it is, that is the recorded owner at the generation of its own claim and has an unexpired lease of the presented generation, along an allowed edge; it moves that item with its event and nothing else |
| WorkAnswers.CompletionRefuses | scripts/conductor_store.py:2276-2372 | an attempt that may not write is refused as reaped, and a single-leased one that may is refused nothing but a forbidden edge |
| WorkAnswers.CheckpointByOwner | scripts/conductor_store.py:2374-2443 | likewise for checkpoints, which add one row and change nothing else |
| WorkAnswers.ExtendedByOwner | scripts/conductor_store.py:2445-2500 | likewise for work leases: only the holder that may write extends, with a higher sequence, and the lease then covers exactly the clocks before now + ttl |
| WorkAnswers.LeaseRecorded | scripts/conductor_store.py:2630-2662 | a lease row is inserted, or takes sequence, expiry and heartbeat from its own attempt with a higher sequence; generation and agent stay |
| WorkAnswers.ReapedRows | scripts/conductor_resources.py:974-1056 | reaping marks the attempt UNKNOWN, deletes its work leases and fences its item, with one event, exactly when it still owns it and the item is live or fenced already |
| WorkProof.SweepKeepsWork | scripts/conductor_resources.py:998-1056 | a whole sweep keeps claim authority and the ledger |
| Store.ConductorStore.TransitionWorkItemState | scripts/conductor_store.py:2502-2555 | the move and its event happen exactly for an allowed edge of a known item |
| Store.ConductorStore.RecordClaim | scripts/conductor_store.py:2591-2628 | the claim row and the item's owner are written together at the next generation |
| Store.ConductorStore.RecordLease | scripts/conductor_store.py:2630-2662 | a lease is inserted, or updated by its own attempt with a higher sequence, else left |
| Store.ConductorStore.CompleteWorkItemFenced | scripts/conductor_store.py:2276-2372 | a worker's transition is accepted exactly when the fence passes and the edge is allowed |
| Store.ConductorStore.SaveCheckpointFenced | scripts/conductor_store.py:2374-2443 | a checkpoint is recorded exactly when the fence passes |
| Store.ConductorStore.ExtendLeaseHeartbeatFenced | scripts/conductor_store.py:2445-2500 | a work lease is extended exactly when the fence passes and the sequence is ahead |
| Migration.MigrateToV9 | scripts/conductor_store.py:1258-1353 | the migration loops reach exactly the specified tables |
| Migration.MigrationEstablishesAuthority | scripts/conductor_store.py:1258-1353 | on a store that lacks generations or owners the migration numbers claims in row order, makes the last claimant owner and leaves no live item unowned: the invariant claiming maintains |
| Migration.MigrationFrame | scripts/conductor_store.py:1283-1353 | claims keep their order, items and attempts; items keep their details and, unless fenced, their state; each live unclaimed item becomes RECOVERY_REQUIRED with exactly one MIGRATION_OWNERSHIP_UNESTABLISHED event, every other item gets none; all else is unchanged |
| Migration.MigratedRunsStayOwned | scripts/conductor_store.py:1258-1353 | in every later run from a migrated store the current generation of a claimed item is the greatest of its claims |
| Migration.RenumberedIsNumbered | scripts/conductor_store.py:1283-1310 | renumbering gives each item's claims 1, 2, ... in insertion order and changes nothing else |
| Migration.HealingWithoutHistory | scripts/conductor_store.py:1806-1816 | the defensive healing of a store marked v9 without these columns leaves the claim invariant true exactly when nothing had been claimed |
| Migration.MigratedAlready | scripts/conductor_store.py:1258-1353 | a store that has both columns is left alone |
| Commands.ConductorCommandProcessor.HandleEnqueue | scripts/conductor_commands.py:105-141 | one item per idempotency key, QUEUED with one event, or the existing one |
| ClaimAnswers.EnqueuedTables | scripts/conductor_commands.py:105-141 | enqueuing under a new key adds one QUEUED item without an owner and one event, and nothing else |
| ClaimAnswers.SavedAgain | scripts/conductor_store.py:2203-2249 | saving a known item replaces priority, dependencies, scope, context and state; key, repository, risk, job, age and owner stay |
| ClaimAnswers.AttemptRecorded | scripts/conductor_store.py:2557-2589 | an attempt recorded again takes the new status and reason and keeps its item; other attempts are unchanged |
| Commands.ConductorCommandProcessor.GrantAuthorization | scripts/conductor_commands.py:143-186 | an unknown item or a mismatched context digest is refused; otherwise a GO is recorded for the present scope and a queued or held item becomes READY |
| Commands.GrantStands | scripts/conductor_model.py:371-405 | right after a GO the claim path accepts the item, and goes on accepting it exactly until the GO expires |
| ClaimAnswers.ClaimRefusalSays | scripts/conductor_model.py:371-405 | a GO is asked for exactly at risk R2 or R3, and the latest one decides: missing or not interactive, past its expiry or a week old, for another scope, or standing |
| ClaimAnswers.GrantedRows | scripts/conductor_commands.py:143-186 | granting records a GO for the present scope, from now for a week, and readies an item queued or on hold with its event; nothing else changes |
| Commands.ConductorCommandProcessor.HandleClaim | scripts/conductor_commands.py:188-274 | only a READY item is claimed; without a standing authorization it goes to HOLD with the reason |
| ClaimAnswers.ClaimedTables | scripts/conductor_commands.py:218-274 | a claim records attempt, claim at the next generation and lease for 300 seconds, makes the attempt owner and the item CLAIMED with its event, and changes nothing else |
| Commands.ClaimTakesOver | scripts/conductor_commands.py:218-274 | a fresh claimant passes the worker fence exactly until its lease expires |
| Commands.ClaimSupersedesOthers | scripts/conductor_commands.py:218-274 | after a claim every earlier claimant of the item is refused |
| WorkReconcile.HandleReconcile | scripts/conductor_commands.py:466-503 | the loop over overdue leases fences item after item until one transition is refused |
| WorkReconcile.ReconcileFences | scripts/conductor_commands.py:475-501 | exactly the items are fenced that have a row before the first one naming an item again; the pass completes exactly when no item in flight has two overdue leases, and then every overdue lease counts |
| ReconcileAnswers.ReconcileAnswers | scripts/conductor_commands.py:466-503 | the leases that ran out before now under an item CLAIMED, DISPATCHING or RUNNING are taken in turn: each item goes to recovery with one event in the name of the attempt whose lease it is, up to the first lease that names an item again; nothing else changes, and the command goes through exactly when there is no such lease |
| WorkReconcile.ReconcileIgnoresOwnership | scripts/conductor_commands.py:475-501 | completed or aborted, the pass fences an item under an owner who may still write exactly when it reaches an overdue lease of another attempt of the item |
| Scheduler.ConductorScheduler.SelectNextWorkItem | scripts/conductor_scheduler.py:43-122 | whatever order rows are listed in, the least runnable item is selected and every other one in scope is rejected once with the right reason |
| SchedulerAnswers.SelectionAnswers | scripts/conductor_scheduler.py:43-122 | the selected item is READY in scope, its dependencies are complete, its GO stands if it needs one and the host pool is free if it needs that; against every other such item it has higher priority, then greater risk, then age, then the lesser id; there is one unless no item could start |
| SchedulerAnswers.RejectionAnswers | scripts/conductor_scheduler.py:43-122 | every other READY item in scope, and nothing else, is rejected once, with exactly its incomplete dependencies, or what its latest GO says, or the busy host pool, or because another came first |
| Scheduler.SelectionIsDetermined | scripts/conductor_scheduler.py:43-122 | selection and rejections are determined by the tables alone |
| Scheduler.SelectedMayBeClaimed | scripts/conductor_model.py:371-405 | a selected item is READY, its dependencies are complete and the claim path's authorization check passes at the same instant |
| LeaderLock.LeaderLocks.AcquireLeaderLock | scripts/conductor_store.py:1818-1887 | renew, refuse, take over or insert, as specified |
| LeaderLock.AcquireAnswers | scripts/conductor_store.py:1818-1887 | refused exactly while the row is of another leader whose pid runs and started within a second of the recorded time; otherwise an own row gets a new heartbeat and any other row names the caller |
| LeaderLock.LeaderExclusion | scripts/conductor_store.py:1818-1887 | with accurate readings another leader is granted the lock only after the holder's process was dead, and is refused only while another leader's pid runs and started within a second of the recorded time |
| ReceiptOutbox.ReceiptStore.Deliver | scripts/conductor_store.py:1140-1147 | write then flag: whichever access fails, every flag still has its file and no file changes |
| ReceiptOutbox.ReceiptStore.EnsureReceiptFilesDelivered | scripts/conductor_store.py:1951-1996 | a pass loses no row, alters no file, attempts only the backlog and the 64 oldest undelivered and keeps each failure in the backlog; on a working disk, whatever the backlog, it delivers exactly those and leaves at most max(0, n - 64) |
| ReceiptOutbox.ReceiptStore.SaveReceipt | scripts/conductor_store.py:2134-2180 | a receipt is committed or not at all; under a new command id it is then delivered, in the backlog, or found again after a crash, and nothing else is touched; under a command id on file the store stops being sound |
| ReceiptOutbox.ReceiptStore.GetReceipt | scripts/conductor_store.py:2182-2200 | the committed receipt of a key is found exactly when there is one, and its file put back |
| ReceiptOutbox.ReceiptStore.ProcessEnvelope | scripts/conductor_commands.py:47-103 | one receipt per idempotency key: a replay commits nothing and gets the first one; flags and files stay honest when a new key comes with a new command id |
| ReceiptOutbox.ReceiptStore.Restart | scripts/conductor_store.py:1998-2003 | a new process on the same store delivers from the committed rows |
| ReceiptOutbox.DrainTakesOldest | scripts/conductor_store.py:1968-1996 | a pass turns n undelivered receipts into max(0, n - 64), taking the oldest |
| ReceiptOutbox.PassesEmptyOutbox | scripts/conductor_store.py:1968-1996 | k passes leave max(0, n - 64 k) |
| ReceiptOutbox.StarvedBehindFailures | scripts/conductor_store.py:1968-1980 | an undelivered receipt that the backlog retry has not delivered is attempted exactly when fewer than 64 such receipts are ahead of it |
| HookCommands.TokenInvertsRender | scripts/hooks_install.py:187-211 | the token of a rendered command is the script's path exactly when the path has no quote |
| HookCommands.PosixRoundTrip | scripts/hooks_install.py:187-190 | parsing the text of a normal path gives the path back |
| HookAnswers.QuotedAnswers | scripts/hooks_install.py:197-211 | the token is what stands between the first two quotes, and nothing without a second one |
| HookAnswers.UnquotedAnswers | scripts/hooks_install.py:197-211 | without quotes it is the last of two or more words, and nothing otherwise |
| HookAnswers.ClassificationAnswers | scripts/hooks_install.py:240-304 | a command with a managed script name is ours exactly when it was recorded, every root is claimed, or the components of its path, whatever their case, lead through the scripts directory of this checkout, of the home, or of another owned checkout; else it collides; another name is foreign, an unreadable command unclassified |
| HookCommands.RenderedIsManaged | scripts/hooks_install.py:276-308 | a rendered command is managed exactly when its root has no backslash, it was recorded, any root is claimed, or its slashed path lies in another allowed directory |
| HookSettings.MergeHooks | scripts/hooks_install.py:323-357 | the merge loop gives the specified document, or the error of a non-object or non-array |
| HookAnswers.MergeRefuses | scripts/hooks_install.py:323-340 | a merge is refused exactly for hooks that are no object, or else for a managed event that is no array |
| HookMergeProof.MergeKeepsForeign | scripts/hooks_install.py:314-357 | a managed event keeps every unmanaged handler, in order and under its group attributes, followed by the manifest's; unmanaged events and the rest of the document are unchanged |
| HookMergeProof.MergedBlockIsExact | scripts/hooks_install.py:314-357 | the managed handlers of a merged event are exactly the manifest's |
| HookAnswers.CanonicalAnswers | scripts/hooks_install.py:307-311 | what a merge appends to an event is one group for each of its entries, in order, with its matcher, one command that runs the script under the root, its timeout, and nothing else |
| HookMergeProof.MergeIdempotent | scripts/hooks_install.py:314-357 | merging twice equals merging once exactly when all rendered commands are recognised |
| HookMergeProof.CleanRootIsRecognised | scripts/hooks_install.py:276-308 | well-formed script names under a root without backslash are recognised |
| HookInstaller.ComputeCollisions | scripts/hooks_install.py:360-385 | exactly the handlers of managed scripts that cannot be claimed are reported; it raises exactly when a managed event, or the hooks of one of its groups, cannot be iterated |
| HookAnswers.WalkableAnswers | scripts/hooks_install.py:360-385 | going through events raises exactly when the value of one of them, or the hooks of one of its groups, cannot be iterated |
| HookInstaller.Status | scripts/hooks_install.py:643-742 | it raises exactly as the collision scan does; else the overall verdict is the most serious that any finding calls for, and OK exactly when a finished install is recorded, all scripts exist, the managed handlers are the manifest's as a multiset, and nothing collides |
| HookLifecycle.ClaudeHome.Install | scripts/hooks_install.py:488-533 | refusal, dry run and no-op change nothing, nor does the raise on anything in any event that cannot be iterated; a death after k writes leaves exactly those k; success leaves the merged document and a final sidecar |
| HookAnswers.SidecarAnswers | scripts/hooks_install.py:488-533 | the sidecar records the manifest digest, the root in canonical spelling, every other known root that still is a checkout, and event, matcher and command of each entry |
| HookAnswers.OwnershipAnswers | scripts/hooks_install.py:256-273 | owned are exactly the recorded roots that still are checkouts and the recorded commands |
| HookMergeProof.MergeKeepsWalkable | scripts/hooks_install.py:587-600 | comparing the documents before and after a merge raises exactly when walking the one before does |
| HookLifecycle.ClaudeHome.Uninstall | scripts/hooks_install.py:536-585 | exactly the recorded commands are removed, under their events, and the sidecar forgotten; the count reported is how many there were, partial exactly when fewer than recorded; a dry run reports it and changes nothing |
| HookLifecycle.StatusAgreesWithInstall | scripts/hooks_install.py:643-742 | after an applied install status does not raise, and is OK exactly when the install reported no collision, whatever was owned before |
| HookLifecycle.UninstallUndoesInstall | scripts/hooks_install.py:536-585 | on whatever install accepts, uninstall does not raise and gives the original back, up to empty groups and events and what non-arrays iterate to, exactly when it held nothing managed and nothing recorded |
| HookLifecycle.UninstallIsComplete | scripts/hooks_install.py:561-582 | right after an install over a document that held nothing of ours the removed count equals the recorded entries, so uninstall is not partial |
| HookLifecycle.TidyKeepsHandlers | scripts/hooks_install.py:548-576 | dropping empty groups and events keeps the handlers of every event, in order |
| HookLifecycle.RepeatedInstallAgrees | scripts/hooks_install.py:488-533 | an install repeated under another ownership record gives the same document exactly when both take the same handlers for ours |
| HookLifecycle.PendingSidecarForgets | scripts/hooks_install.py:517-530 | after a death behind the pending sidecar a recorded command stays known exactly when it is rendered again, allowed by its directory, or claimed |
| OwnedInstall.Home.Install | scripts/conductor_install.py:41-146 | refused as specified; on a failure every file is as before once rollback succeeds; success gives the specified file map and INSTALLED; nothing else is ever touched |
| InstallAnswers.RefusalAnswers | scripts/conductor_install.py:41-97 | an install is refused over a damaged installation, one with an active leader, from an incomplete source, or over a file the manifest does not own, in that order, and for nothing else |
| InstallAnswers.InstallPlaces | scripts/conductor_install.py:98-146 | every payload is in place, 0o755 if executable on POSIX and else 0o600, and the manifest records its digest |
| InstallAnswers.InstallLeaves | scripts/conductor_install.py:98-146 | of the other files those the old manifest owned are gone, the rest are unchanged, and a new one is a copy, under a free backup name, of an owned file that changed; the manifest owns the payloads alone and names their source |
| OwnedInstall.Home.RollBack | scripts/conductor_install.py:366-373 | a rollback that does not raise restores content, mode and absence of every target |
| OwnedInstall.Home.Uninstall | scripts/conductor_install.py:220-258 | exactly the owned files and the manifest are removed, and only from an undrifted installation |
| OwnedInstall.InstalledStatus | scripts/conductor_install.py:149-217 | a successful install reports INSTALLED for the source it came from |
| InstallAnswers.StatusAnswers | scripts/conductor_install.py:149-217 | each status given by its condition on the files: no manifest, an unreadable one, a file gone or altered, another or incomplete source, or none of these |
| OwnedInstall.ForeignFilesAreSafe | scripts/conductor_install.py:89-93 | no existing file outside the manifest is among those an install may touch |
| OwnedInstall.FreshInstallThenUninstall | scripts/conductor_install.py:220-258 | uninstalling after a first install restores the original file map |
| OwnedInstall.UpgradeKeepsOldContent | scripts/conductor_install.py:100-107 | the previous content of every overwritten file is in its backup unless a file of that name existed |
| OwnedInstall.InterruptedUninstallIsStuck | scripts/conductor_install.py:241-247 | an uninstall interrupted after any removal leaves DRIFTED, which install and uninstall refuse |

## Left out

- SQLite, WAL, JSON and SQL text: tables are maps and sequences, a transaction is one step under one writer; `transition_work_item_state` reads before it takes the write lock, and is one step here.
- A `fetchone()` over several unordered matches yields the row with the least id.
- The stale-slot sweep: its receipts, its dry-run prediction and its restriction to one resource key.
- Reconcile of host resources: its dry run.
- Purposes, roles, resource-key resolution, command digests and actors: a request carries one opaque command value compared on replay.
- Pool creation and capacity upgrade, raw `save_resource_*` upserts, status and holder rendering, storage quotas.
- `run_bounded_pytest` beyond the calls it makes to attach, heartbeat, release and fence.
- Commands.ConductorCommandProcessor.HandleClaim: the lease lifetime of 300 seconds and lease generation 1 are constants, as when the payload names neither; the claim's proposal fields are not kept.
- The heartbeat, checkpoint, complete and cancel commands: they pass their payload to the store methods modelled here.
- WorkReconcile.HandleReconcile: the query for overdue leases has no ORDER BY; rows come by lease id here.
- Authorization issue times that cannot be read sort as oldest.
- ReceiptOutbox.ReceiptStore.SaveReceipt: starts from a store without shared command ids; what later passes do once two receipts share one is not followed up.
- ReceiptOutbox.ReceiptStore.ProcessEnvelope: one process at a time; what the handler does is a parameter; its effects are not undone when the process dies before the receipt is committed.
- ReceiptOutbox.ReceiptStore.EnsureReceiptFilesDelivered: the outbox query has no ORDER BY; rows come in rowid order here.
- LeaderLock.LeaderExclusion: a store object is used by the process that made it, so a leader id names one process.
- OwnedInstall: path resolution and symbolic links, manifest schema checks and size limit, removal of empty directories; digests are a parameter, so equal digests may hide different contents as far as they do in the code.
- Hook settings: a matcher or a command that is present is a string; lower-casing is ASCII, white space is ASCII, and resolving recorded roots on disk is a set of roots that still are checkouts.
- HookInstaller.Status: a manifest or settings file that cannot be loaded has a verdict of its own, given before anything modelled here; manifest drift, the janitor task, unclassified handlers and the per-entry texts do not enter the overall verdict.
- HookLifecycle.ClaudeHome.Install: the added and removed entries it reports, backup rotation and file permissions; an unreadable manifest or settings file.
- The stopping order of handlers and daemons, GUI, CLI parsing, MCP wrappers, scanners, catalogs and session adapters.
