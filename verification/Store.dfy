/** The mutable store of scripts/conductor_store.py and the work-item transactions on it. Each
    method is one committed (or rolled back) transaction and is proved to be its specification. */
module Store {
  import opened Collections
  import opened HostModel
  import opened ConductorModel
  import opened WorkStore

  class ConductorStore {
    var pools: map<ResourceKey, Pool>
    var requests: map<Id, Request>
    var hostLeases: map<Id, HostLease>
    var hostEvents: seq<HostEvent>
    var observations: map<ObservationKey, Observation>
    var nextLease: Id
    var items: map<Id, WorkItem>
    var attempts: map<AttemptId, Attempt>
    var claims: seq<Claim>
    var workLeases: map<Id, WorkLease>
    var workEvents: seq<WorkEvent>
    var checkpoints: seq<Checkpoint>
    var authorizations: seq<Authorization>

    function HostTables(): Host
      reads this
    {
      Host(pools, requests, hostLeases, hostEvents, observations, nextLease)
    }

    function WorkTables(): Work
      reads this
    {
      Work(items, attempts, claims, workLeases, workEvents, checkpoints, authorizations)
    }

    function Tables(): Db
      reads this
    {
      Db(HostTables(), WorkTables())
    }

    constructor (pools: map<ResourceKey, Pool>)
      ensures Tables() == Db(Host(pools, map[], map[], [], map[], 0), Work(map[], map[], [], map[], [], [], []))
    {
      this.pools := pools;
      requests, hostLeases, hostEvents, observations, nextLease := map[], map[], [], map[], 0;
      items, attempts, claims, workLeases := map[], map[], [], map[];
      workEvents, checkpoints, authorizations := [], [], [];
    }

    method RestoreHost(host: Host)
      modifies this
      ensures HostTables() == host && WorkTables() == old(WorkTables())
    {
      pools, requests, hostLeases := host.pools, host.requests, host.leases;
      hostEvents, observations, nextLease := host.events, host.observations, host.nextLease;
    }

    method RestoreWork(work: Work)
      modifies this
      ensures WorkTables() == work && HostTables() == old(HostTables())
    {
      items, attempts, claims, workLeases := work.items, work.attempts, work.claims, work.leases;
      workEvents, checkpoints, authorizations := work.events, work.checkpoints, work.authorizations;
    }

    /** Undo everything since `db` was read, as an exception inside the transaction does. */
    method RollBack(db: Db)
      modifies this
      ensures Tables() == db
    {
      RestoreHost(db.host);
      RestoreWork(db.work);
    }

    method SaveItem(item: Id, details: ItemDetails, state: WorkState)
      modifies this
      ensures Tables() == old(Tables()).(work := SaveWorkItem(old(WorkTables()), item, details, state))
    {
      if item in items {
        var merged := items[item].details.(priority := details.priority, dependencies := details.dependencies,
                                           scopeDigest := details.scopeDigest,
                                           contextDigest := details.contextDigest);
        items := items[item := items[item].(details := merged, state := state)];
      } else if !KeyInUse(items, details.idempotencyKey) {
        items := items[item := WorkItem(details, state, None, None)];
      }
    }

    /** UPDATE work_items SET state, then INSERT the event. */
    method MoveTo(item: Id, target: WorkState, attempt: Option<AttemptId>, reason: Reason, now: int)
      requires item in items
      modifies this
      ensures Tables() == old(Tables()).(work := Move(old(WorkTables()), item, target, attempt, reason, now))
    {
      var current := items[item].state;
      items := items[item := items[item].(state := target)];
      workEvents := workEvents + [WorkEvent(item, attempt, current, target, reason, now)];
    }

    method TransitionWorkItemState(item: Id, target: WorkState, attempt: Option<AttemptId>, reason: Reason, now: int)
      returns (r: Option<WorkRefusal>)
      modifies this
      ensures var spec := Transition(old(Tables()), item, target, attempt, reason, now);
              && Tables() == After(old(Tables()), spec)
              && r == (if spec.Done? then None else Some(spec.why))
    {
      if item !in items { return Some(ItemNotFound); }
      if !CanTransition(items[item].state, target) { return Some(InvalidTransition); }
      MoveTo(item, target, attempt, reason, now);
      r := None;
    }

    method RecordAttempt(attempt: AttemptId, row: Attempt)
      modifies this
      ensures Tables() == old(Tables()).(work := SaveAttempt(old(WorkTables()), attempt, row))
    {
      if attempt in attempts {
        attempts := attempts[attempt := attempts[attempt].(status := row.status, reason := row.reason)];
      } else {
        attempts := attempts[attempt := row];
      }
    }

    method RecordClaim(item: Id, attempt: AttemptId) returns (r: Option<WorkRefusal>)
      modifies this
      ensures var spec := SaveClaim(old(Tables()), item, attempt);
              && Tables() == After(old(Tables()), spec)
              && r == (if spec.Done? then None else Some(spec.why))
    {
      if item !in items { return Some(ItemNotFound); }
      var prior := items[item].currentGeneration;
      var generation := (if prior.Some? then prior.value else 0) + 1;
      claims := claims + [Claim(item, attempt, generation)];
      items := items[item := items[item].(currentAttempt := Some(attempt), currentGeneration := Some(generation))];
      r := None;
    }

    method RecordLease(id: Id, lease: WorkLease) returns (written: bool)
      modifies this
      ensures Tables() == old(Tables()).(work := SaveLease(old(WorkTables()), id, lease).0)
      ensures written == SaveLease(old(WorkTables()), id, lease).1
    {
      if id !in workLeases {
        workLeases := workLeases[id := lease];
        return true;
      }
      var known := workLeases[id];
      if lease.attempt != known.attempt || lease.sequence <= known.sequence { return false; }
      workLeases := workLeases[id := known.(sequence := lease.sequence, expiresAt := lease.expiresAt,
                                            lastHeartbeat := lease.lastHeartbeat)];
      written := true;
    }

    /** Complete (or otherwise move) an item on behalf of a worker: accepted exactly when the
        fence passes and the transition is allowed, whatever the claims say about generations. */
    method CompleteWorkItemFenced(item: Id, target: WorkState, attempt: AttemptId, generation: int, reason: Reason,
                                  now: int)
      returns (r: Option<WorkRefusal>)
      modifies this
      ensures var spec := Complete(old(Tables()), item, target, attempt, generation, reason, now);
              && Tables() == After(old(Tables()), spec)
              && r == (if spec.Done? then None else Some(spec.why))
    {
      if !FencePasses(Tables(), attempt, Some(item), None, generation, now) { return Some(ReapedLeaseRejected); }
      if !CanTransition(items[item].state, target) { return Some(InvalidTransition); }
      if !WriteFence(WorkTables(), attempt) || !LeaseOfGeneration(WorkTables(), attempt, generation) {
        return Some(ReapedLeaseRejected);
      }
      MoveTo(item, target, Some(attempt), reason, now);
      r := None;
    }

    method SaveCheckpointFenced(item: Id, attempt: AttemptId, generation: int, evidence: Id, now: int)
      returns (r: Option<WorkRefusal>)
      modifies this
      ensures var spec := SaveCheckpoint(old(Tables()), item, attempt, generation, evidence, now);
              && Tables() == After(old(Tables()), spec)
              && r == (if spec.Done? then None else Some(spec.why))
    {
      if !FencePasses(Tables(), attempt, Some(item), None, generation, now) { return Some(ReapedLeaseRejected); }
      if !WriteFence(WorkTables(), attempt) || !LeaseOfGeneration(WorkTables(), attempt, generation) {
        return Some(ReapedLeaseRejected);
      }
      checkpoints := checkpoints + [Checkpoint(item, attempt, evidence, now)];
      r := None;
    }

    method ExtendLeaseHeartbeatFenced(id: Id, attempt: AttemptId, sequence: int, generation: int, ttl: int, now: int)
      returns (r: Option<WorkRefusal>)
      modifies this
      ensures var spec := ExtendLease(old(Tables()), id, attempt, sequence, generation, ttl, now);
              && Tables() == After(old(Tables()), spec)
              && r == (if spec.Done? then None else Some(spec.why))
    {
      if !FencePasses(Tables(), attempt, None, Some(id), generation, now) { return Some(ReapedLeaseRejected); }
      var known := workLeases[id];
      if known.attempt != attempt || known.generation != generation || known.sequence >= sequence
         || !WriteFence(WorkTables(), attempt) {
        return Some(HeartbeatRejected);
      }
      workLeases := workLeases[id := known.(sequence := sequence, expiresAt := now + ttl, lastHeartbeat := now)];
      r := None;
    }
  }
}
