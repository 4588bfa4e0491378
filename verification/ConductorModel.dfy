/** scripts/conductor_model.py: work-item states, their transition table, authorization
    records, and the work tables kept by scripts/conductor_store.py. */
module ConductorModel {
  import opened Collections
  import opened HostModel

  datatype WorkState =
    | Discovered
    | ItemQueued
    | Hold
    | Ready
    | Claimed
    | Dispatching
    | Running
    | WaitingExternal
    | Review
    | Completed
    | Cancelled
    | Blocked
    | ItemRecovery
    | DispatchUnknown
    | ItemQuarantined

  /** VALID_TRANSITIONS. */
  function ValidTargets(state: WorkState): set<WorkState> {
    match state
    case Discovered => {ItemQueued, Cancelled}
    case ItemQueued => {Hold, Ready, Cancelled, ItemQuarantined}
    case Hold => {Ready, Cancelled, ItemQuarantined}
    case Ready => {Claimed, Hold, Cancelled, ItemQuarantined}
    case Claimed => {Dispatching, ItemRecovery, Cancelled, ItemQuarantined}
    case Dispatching => {Running, DispatchUnknown, ItemRecovery, Cancelled, ItemQuarantined}
    case Running => {WaitingExternal, Review, Completed, Blocked, ItemRecovery, Cancelled, ItemQuarantined}
    case WaitingExternal => {Running, Blocked, ItemRecovery, Cancelled, ItemQuarantined}
    case Review => {Completed, Blocked, ItemRecovery, Cancelled, ItemQuarantined}
    case ItemRecovery => {Ready, Hold, Cancelled, ItemQuarantined}
    case DispatchUnknown => {ItemRecovery, Cancelled, ItemQuarantined}
    case Blocked => {Ready, Hold, Cancelled, ItemQuarantined}
    case Completed => {}
    case Cancelled => {}
    case ItemQuarantined => {}
  }

  predicate CanTransition(current: WorkState, target: WorkState) { target in ValidTargets(current) }

  /** The states a stale-slot sweep may fence. */
  predicate Fenceable(state: WorkState) {
    state in {Claimed, Dispatching, Running, WaitingExternal, Review, ItemRecovery}
  }

  datatype RiskClass = R0 | R1 | R2 | R3

  datatype JobKind = PytestFull | PytestHeavy | OtherJob(kind: Id)

  datatype ItemDetails = ItemDetails(
    idempotencyKey: Id,
    repo: Id,
    risk: RiskClass,
    job: JobKind,
    priority: int,
    dependencies: seq<Id>,
    scopeDigest: Id,
    contextDigest: Id,
    createdAt: int)

  datatype WorkItem = WorkItem(
    details: ItemDetails,
    state: WorkState,
    currentAttempt: Option<AttemptId>,
    currentGeneration: Option<int>)

  datatype AttemptStatus = InProgress | Unknown
  datatype Attempt = Attempt(item: Id, status: AttemptStatus, reason: Reason)

  datatype Claim = Claim(item: Id, attempt: AttemptId, generation: int)

  datatype WorkLease = WorkLease(
    attempt: AttemptId, agent: Id, sequence: int, expiresAt: int, lastHeartbeat: int, generation: int)

  datatype WorkEvent = WorkEvent(
    item: Id, attempt: Option<AttemptId>, previous: WorkState, next: WorkState, reason: Reason, at: int)

  datatype Checkpoint = Checkpoint(item: Id, attempt: AttemptId, evidence: Id, at: int)

  /** A recorded timestamp; text nobody can parse counts as already past. */
  datatype Stamp = At(time: int) | Unreadable

  datatype Authorization = Authorization(
    item: Id,
    scopeDigest: Id,
    issuedAt: Stamp,
    expiresAt: Option<Stamp>,
    interactive: bool)

  datatype Work = Work(
    items: map<Id, WorkItem>,
    attempts: map<AttemptId, Attempt>,
    claims: seq<Claim>,              // in insertion (rowid) order
    leases: map<Id, WorkLease>,
    events: seq<WorkEvent>,          // in insertion order
    checkpoints: seq<Checkpoint>,
    authorizations: seq<Authorization>)

  datatype Db = Db(host: Host, work: Work)

  /** An attempt row that no admission or promotion may use again. */
  predicate AttemptRevoked(attempts: map<AttemptId, Attempt>, attempt: AttemptId) {
    && attempt in attempts
    && (|| attempts[attempt].status == Unknown
        || attempts[attempt].reason in {StaleSlotAutoReleased, CdpMaxHoldExceeded})
  }

  /** The generation of the first recorded claim of an attempt. */
  function ClaimGeneration(claims: seq<Claim>, attempt: AttemptId): Option<int> {
    if claims == [] then None
    else if claims[0].attempt == attempt then Some(claims[0].generation)
    else ClaimGeneration(claims[1..], attempt)
  }

  /** An attempt is the recorded owner of its item at its own claim's generation. */
  predicate OwnsItem(work: Work, item: Id, attempt: AttemptId) {
    && item in work.items
    && work.items[item].currentAttempt == Some(attempt)
    && work.items[item].currentGeneration.Some?
    && ClaimGeneration(work.claims, attempt) == work.items[item].currentGeneration
  }
}
