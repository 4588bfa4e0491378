/** Work items, claims and fenced worker writes of scripts/conductor_store.py, one transaction
    each, as functions of the tables before it. */
module WorkStore {
  import opened Collections
  import opened HostModel
  import opened ConductorModel

  datatype WorkRefusal =
    | ItemNotFound
    | InvalidTransition
    | ReapedLeaseRejected
    | HeartbeatRejected

  datatype WorkResult = Done(db: Db) | Rejected(why: WorkRefusal)

  /** The tables after a transaction; a rejected one leaves them alone. */
  function After(before: Db, r: WorkResult): Db { if r.Done? then r.db else before }

  // ---- work items ----

  predicate KeyInUse(items: map<Id, WorkItem>, key: Id) {
    exists x :: x in items && items[x].details.idempotencyKey == key
  }

  /** INSERT ... ON CONFLICT DO UPDATE: a known id has its details and its state overwritten, but for
      its idempotency key; a new id under a key already in use is refused by the UNIQUE column. */
  function SaveWorkItem(work: Work, item: Id, details: ItemDetails, state: WorkState): Work {
    if item in work.items then
      var known := work.items[item];
      var merged := known.details.(priority := details.priority, dependencies := details.dependencies,
                                 scopeDigest := details.scopeDigest,
                                 contextDigest := details.contextDigest);
      work.(items := work.items[item := known.(details := merged, state := state)])
    else if KeyInUse(work.items, details.idempotencyKey) then work
    else work.(items := work.items[item := WorkItem(details, state, None, None)])
  }

  /** Move an item and append the event that says so. */
  function Move(work: Work, item: Id, target: WorkState, attempt: Option<AttemptId>, reason: Reason, now: int): Work
    requires item in work.items
  {
    work.(items := work.items[item := work.items[item].(state := target)],
          events := work.events + [WorkEvent(item, attempt, work.items[item].state, target, reason, now)])
  }

  function Transition(db: Db, item: Id, target: WorkState, attempt: Option<AttemptId>, reason: Reason,
                      now: int): WorkResult
  {
    if item !in db.work.items then Rejected(ItemNotFound)
    else if !CanTransition(db.work.items[item].state, target) then Rejected(InvalidTransition)
    else Done(db.(work := Move(db.work, item, target, attempt, reason, now)))
  }

  // ---- attempts, claims, leases ----

  function SaveAttempt(work: Work, attempt: AttemptId, row: Attempt): Work {
    if attempt in work.attempts then
      work.(attempts := work.attempts[attempt := work.attempts[attempt].(status := row.status, reason := row.reason)])
    else work.(attempts := work.attempts[attempt := row])
  }

  function NextGeneration(work: Work, item: Id): int
    requires item in work.items
  {
    var prior := work.items[item].currentGeneration;
    (if prior.Some? then prior.value else 0) + 1
  }

  function SaveClaim(db: Db, item: Id, attempt: AttemptId): WorkResult {
    if item !in db.work.items then Rejected(ItemNotFound)
    else
      var generation := NextGeneration(db.work, item);
      var row := db.work.items[item].(currentAttempt := Some(attempt), currentGeneration := Some(generation));
      Done(db.(work := db.work.(claims := db.work.claims + [Claim(item, attempt, generation)],
                                items := db.work.items[item := row])))
  }

  /** INSERT, or an update by the same attempt with a higher sequence; false when nothing was written. */
  function SaveLease(work: Work, id: Id, lease: WorkLease): (Work, bool) {
    if id !in work.leases then (work.(leases := work.leases[id := lease]), true)
    else
      var known := work.leases[id];
      if lease.attempt == known.attempt && lease.sequence > known.sequence then
        var row := known.(sequence := lease.sequence, expiresAt := lease.expiresAt,
                          lastHeartbeat := lease.lastHeartbeat);
        (work.(leases := work.leases[id := row]), true)
      else (work, false)
  }

  // ---- the worker fence ----

  function LeaseFor(leases: map<Id, WorkLease>, attempt: AttemptId): (l: Option<Id>)
    ensures l.Some? ==> l.value in leases && leases[l.value].attempt == attempt
    ensures l.None? ==> forall x | x in leases :: leases[x].attempt != attempt
  {
    var owned := set x | x in leases && leases[x].attempt == attempt;
    if owned == {} then
      assert forall x | x in leases && leases[x].attempt == attempt :: x in owned;
      None
    else Some(AnyOf(owned))
  }

  predicate AttemptReaped(work: Work, attempt: AttemptId)
    requires attempt in work.attempts
  {
    work.attempts[attempt].status == Unknown || work.attempts[attempt].reason == StaleSlotAutoReleased
  }

  predicate SlotAutoReleased(host: Host, attempt: AttemptId) {
    exists r :: r in host.requests && host.requests[r].attempt == attempt
             && host.requests[r].reason == StaleSlotAutoReleased
  }

  predicate LeaseCurrent(leases: map<Id, WorkLease>, held: Option<Id>, named: Option<Id>, generation: int, now: int)
    requires held.Some? ==> held.value in leases
  {
    && held.Some?
    && leases[held.value].expiresAt > now
    && (named.Some? ==> named == held)
    && leases[held.value].generation == generation
  }

  /** `_validate_worker_attempt_fence_locked`: may this attempt still write? */
  predicate FencePasses(db: Db, attempt: AttemptId, item: Option<Id>, lease: Option<Id>, generation: int, now: int) {
    && attempt in db.work.attempts
    && !AttemptReaped(db.work, attempt)
    && !SlotAutoReleased(db.host, attempt)
    && OwnsItem(db.work, db.work.attempts[attempt].item, attempt)
    && (item.Some? ==> item.value == db.work.attempts[attempt].item)
    && LeaseCurrent(db.work.leases, LeaseFor(db.work.leases, attempt), lease, generation, now)
  }

  /** The condition repeated inside every fenced UPDATE and INSERT. */
  predicate WriteFence(work: Work, attempt: AttemptId) {
    && attempt in work.attempts
    && !AttemptReaped(work, attempt)
    && work.attempts[attempt].item in work.items
    && work.items[work.attempts[attempt].item].currentAttempt == Some(attempt)
    && exists k :: 0 <= k < |work.claims| && work.claims[k].attempt == attempt
                && work.claims[k].item == work.attempts[attempt].item
                && work.items[work.attempts[attempt].item].currentGeneration == Some(work.claims[k].generation)
  }

  predicate LeaseOfGeneration(work: Work, attempt: AttemptId, generation: int) {
    exists l :: l in work.leases && work.leases[l].attempt == attempt && work.leases[l].generation == generation
  }

  function Complete(db: Db, item: Id, target: WorkState, attempt: AttemptId, generation: int, reason: Reason,
                    now: int): WorkResult
  {
    if !FencePasses(db, attempt, Some(item), None, generation, now) then Rejected(ReapedLeaseRejected)
    else if !CanTransition(db.work.items[item].state, target) then Rejected(InvalidTransition)
    else if !(WriteFence(db.work, attempt) && LeaseOfGeneration(db.work, attempt, generation)) then
      Rejected(ReapedLeaseRejected)
    else Done(db.(work := Move(db.work, item, target, Some(attempt), reason, now)))
  }

  function SaveCheckpoint(db: Db, item: Id, attempt: AttemptId, generation: int, evidence: Id, now: int): WorkResult {
    if !FencePasses(db, attempt, Some(item), None, generation, now) then Rejected(ReapedLeaseRejected)
    else if !(WriteFence(db.work, attempt) && LeaseOfGeneration(db.work, attempt, generation)) then
      Rejected(ReapedLeaseRejected)
    else Done(db.(work := db.work.(checkpoints := db.work.checkpoints + [Checkpoint(item, attempt, evidence, now)])))
  }

  function ExtendLease(db: Db, id: Id, attempt: AttemptId, sequence: int, generation: int, ttl: int,
                       now: int): WorkResult
  {
    if !FencePasses(db, attempt, None, Some(id), generation, now) then Rejected(ReapedLeaseRejected)
    else
      var known := db.work.leases[id];
      if known.attempt == attempt && known.generation == generation && known.sequence < sequence
          && WriteFence(db.work, attempt) then
        var row := known.(sequence := sequence, expiresAt := now + ttl, lastHeartbeat := now);
        Done(db.(work := db.work.(leases := db.work.leases[id := row])))
      else Rejected(HeartbeatRejected)
  }

  // ---- claim authority ----

  function ClaimsOf(claims: seq<Claim>, item: Id): nat {
    if claims == [] then 0
    else ClaimsOf(claims[..|claims| - 1], item) + (if claims[|claims| - 1].item == item then 1 else 0)
  }

  function LastClaimant(claims: seq<Claim>, item: Id): Option<AttemptId> {
    if claims == [] then None
    else if claims[|claims| - 1].item == item then Some(claims[|claims| - 1].attempt)
    else LastClaimant(claims[..|claims| - 1], item)
  }

  /** Generations are 1, 2, ... per item in insertion order. */
  ghost predicate Numbered(claims: seq<Claim>) {
    forall k | 0 <= k < |claims| :: claims[k].generation == ClaimsOf(claims[..k + 1], claims[k].item)
  }

  ghost predicate DistinctClaimants(claims: seq<Claim>) {
    forall j, k | 0 <= j < k < |claims| :: claims[j].attempt != claims[k].attempt
  }

  /** The recorded owner of an item is its last claimant, at the last generation. */
  predicate OwnerRecorded(claims: seq<Claim>, row: WorkItem, item: Id) {
    && row.currentAttempt == LastClaimant(claims, item)
    && row.currentGeneration == (if ClaimsOf(claims, item) == 0 then None else Some(ClaimsOf(claims, item)))
  }

  /** Every claim is of a known item, by an attempt recorded on that item. */
  ghost predicate ClaimsPlaced(work: Work) {
    forall k | 0 <= k < |work.claims| ::
      && work.claims[k].item in work.items
      && work.claims[k].attempt in work.attempts
      && work.attempts[work.claims[k].attempt].item == work.claims[k].item
  }

  ghost predicate ClaimInv(work: Work) {
    && Numbered(work.claims) && DistinctClaimants(work.claims)
    && (forall i | i in work.items :: OwnerRecorded(work.claims, work.items[i], i))
    && ClaimsPlaced(work)
  }

  /** A later claim on the same item has been recorded. */
  ghost predicate Superseded(claims: seq<Claim>, attempt: AttemptId) {
    exists j, k :: 0 <= j < k < |claims| && claims[j].attempt == attempt && claims[k].item == claims[j].item
  }

  // ---- the ledger ----

  /** The state an item's events leave it in, starting from DISCOVERED. */
  function Replay(events: seq<WorkEvent>, item: Id): WorkState {
    if events == [] then Discovered
    else if events[|events| - 1].item == item then events[|events| - 1].next
    else Replay(events[..|events| - 1], item)
  }

  /** The sweep may fence an item that is already fenced; every other change is an edge. */
  predicate LegalStep(previous: WorkState, next: WorkState) {
    CanTransition(previous, next) || (previous == ItemRecovery && next == ItemRecovery)
  }

  predicate Follows(events: seq<WorkEvent>, e: WorkEvent) {
    e.previous == Replay(events, e.item) && LegalStep(e.previous, e.next)
  }

  ghost predicate Chained(events: seq<WorkEvent>) {
    forall k | 0 <= k < |events| :: Follows(events[..k], events[k])
  }

  ghost predicate LedgerInv(work: Work) {
    && Chained(work.events)
    && (forall i | i in work.items :: work.items[i].state == Replay(work.events, i))
    && (forall k | 0 <= k < |work.events| :: work.events[k].item in work.items)
  }
}
