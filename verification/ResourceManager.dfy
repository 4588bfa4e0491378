/** HostResourceManager of scripts/conductor_resources.py over the mutable store: each public
    operation updates the tables row by row and is proved to be its specification. */
module ResourceManager {
  import opened Collections
  import opened HostModel
  import opened ConductorModel
  import opened HostPromotion
  import opened HostSweep
  import opened HostOperations
  import opened WorkStore
  import opened Store

  /** UPDATE ... WHERE attempt_id = ? AND state = 'QUEUED'. */
  function ReleaseQueuedOf(requests: map<Id, Request>, attempt: AttemptId, reason: Reason): map<Id, Request> {
    map r | r in requests ::
      if requests[r].attempt == attempt && requests[r].state == Queued
      then requests[r].(state := Released, reason := reason)
      else requests[r]
  }

  /** The sweep's two updates of the request table amount to one. */
  lemma TwoUpdatesAt(requests: map<Id, Request>, id: Id, attempt: AttemptId, reason: Reason, r: Id)
    requires id in requests && r in requests
    ensures ReleaseQueuedOf(WithState(requests, id, Released, reason), attempt, reason)[r]
         == ReleaseWithQueued(requests, id, attempt, reason)[r]
  {
  }

  lemma TwoUpdates(requests: map<Id, Request>, id: Id, attempt: AttemptId, reason: Reason)
    requires id in requests
    ensures ReleaseQueuedOf(WithState(requests, id, Released, reason), attempt, reason)
         == ReleaseWithQueued(requests, id, attempt, reason)
  {
    var a := ReleaseQueuedOf(WithState(requests, id, Released, reason), attempt, reason);
    var b := ReleaseWithQueued(requests, id, attempt, reason);
    assert a.Keys == b.Keys;
    forall r | r in a ensures a[r] == b[r] { TwoUpdatesAt(requests, id, attempt, reason, r); }
  }

  /** DELETE FROM leases WHERE attempt_id = ?. */
  function NotOf(leases: map<Id, WorkLease>, attempt: AttemptId): map<Id, WorkLease> {
    map l | l in leases && leases[l].attempt != attempt :: leases[l]
  }

  lemma LeasesInSteps(work: Work, attempt: AttemptId, reason: Reason, now: int)
    ensures attempt !in work.attempts ==>
              Reap(work, attempt, reason, now) == work.(leases := NotOf(work.leases, attempt))
  {
  }

  /** The attempt marked UNKNOWN, its work leases gone. */
  function Revoked(work: Work, attempt: AttemptId, reason: Reason): Work
    requires attempt in work.attempts
  {
    work.(leases := NotOf(work.leases, attempt),
          attempts := work.attempts[attempt := work.attempts[attempt].(status := Unknown, reason := reason)])
  }

  lemma ReapInSteps(work: Work, attempt: AttemptId, reason: Reason, now: int)
    requires attempt in work.attempts
    ensures var revoked, item := Revoked(work, attempt, reason), work.attempts[attempt].item;
            Reap(work, attempt, reason, now)
            == if SweepFences(revoked, item, attempt) then Move(revoked, item, ItemRecovery, Some(attempt), reason, now)
               else revoked
  {
  }

  class HostResourceManager {
    const store: ConductorStore
    const resourceKey: ResourceKey

    constructor (store: ConductorStore, resourceKey: ResourceKey)
      ensures this.store == store && this.resourceKey == resourceKey
    {
      this.store := store;
      this.resourceKey := resourceKey;
    }

    // ---- promotion ----

    /** Grant a queued request its lease. */
    method Activate(q: Id, now: int)
      requires q in store.requests
      modifies store
      ensures store.Tables() == old(store.Tables()).(host := Promote(old(store.HostTables()), q, now))
    {
      var r := store.requests[q];
      var lease := store.nextLease;
      store.requests := store.requests[q := r.(state := Active, reason := HostResourcePromoted)];
      store.hostLeases := store.hostLeases[lease := NewLease(q, r, now, DEFAULT_LEASE_TTL)];
      store.nextLease := lease + 1;
      store.hostEvents := store.hostEvents
                          + [HostEvent(q, Some(lease), Some(r.state), Active, HostResourcePromoted, now)];
    }

    /** Scan the queue past waiters blocked by their slot or their revoked attempt. */
    method FirstWaiter(rows: seq<Id>) returns (q: Option<Id>)
      requires forall x | x in rows :: x in store.requests
      ensures q == FirstUnblocked(store.HostTables(), store.attempts, rows)
    {
      var i := 0;
      while i < |rows|
        invariant 0 <= i <= |rows|
        invariant FirstUnblocked(store.HostTables(), store.attempts, rows)
               == FirstUnblocked(store.HostTables(), store.attempts, rows[i..])
      {
        var row := store.requests[rows[i]];
        if !SlotBusy(store.requests, row.key, row.slot) && !AttemptRevoked(store.attempts, row.attempt) {
          return Some(rows[i]);
        }
        i := i + 1;
      }
      q := None;
    }

    method PromoteLocked(key: ResourceKey, now: int) returns (promoted: Option<Id>)
      modifies store
      ensures promoted == Pick(old(store.HostTables()), old(store.attempts), key)
      ensures store.Tables() == if promoted.None? then old(store.Tables())
                                else old(store.Tables()).(host := Promote(old(store.HostTables()), promoted.value, now))
    {
      promoted := None;
      if SourceFull(store.requests, key) { return; }
      if key !in store.pools || !store.pools[key].enabled || store.pools[key].capacity < 1 { return; }
      if |Held(store.requests, key)| >= store.pools[key].capacity { return; }
      promoted := FirstWaiter(InQueueOrder(store.requests, QueueOf(store.requests, key)));
      if promoted.Some? { Activate(promoted.value, now); }
    }

    method PromoteRelatedLocked(key: ResourceKey, now: int) returns (promoted: Option<Id>)
      modifies store
      ensures promoted == PickRelated(old(store.HostTables()), old(store.attempts), key)
      ensures store.Tables() == old(store.Tables()).(
                host := PromoteRelated(old(store.HostTables()), old(store.attempts), key, now))
    {
      var source := SourceOf(key);
      if source.None? {
        promoted := PromoteLocked(key, now);
        return;
      }
      var waiting := InQueueOrder(store.requests, SourceQueue(store.requests, source.value));
      var i := 0;
      promoted := None;
      while i < |waiting|
        invariant 0 <= i <= |waiting|
        invariant store.Tables() == old(store.Tables())
        invariant promoted.None?
        invariant FirstPick(store.HostTables(), store.attempts, waiting)
               == FirstPick(store.HostTables(), store.attempts, waiting[i..])
      {
        assert waiting[i..][0] == waiting[i] && waiting[i..][1..] == waiting[i + 1..];
        promoted := PromoteLocked(store.requests[waiting[i]].key, now);
        if promoted.Some? { return; }
        i := i + 1;
      }
    }

    // ---- the stale-slot sweep ----

    /** Mark an attempt UNKNOWN, revoke its work lease and fence the item it still owns. */
    method ReapAttempt(attempt: AttemptId, reason: Reason, now: int)
      modifies store
      ensures store.WorkTables() == Reap(old(store.WorkTables()), attempt, reason, now)
      ensures store.HostTables() == old(store.HostTables())
    {
      ghost var before := store.WorkTables();
      store.workLeases := NotOf(store.workLeases, attempt);
      LeasesInSteps(before, attempt, reason, now);
      if attempt !in store.attempts { return; }
      var item := store.attempts[attempt].item;
      store.attempts := store.attempts[attempt := store.attempts[attempt].(status := Unknown, reason := reason)];
      assert store.WorkTables() == Revoked(before, attempt, reason);
      ReapInSteps(before, attempt, reason, now);
      var owned := OwnedStill(item, attempt);
      if owned { store.MoveTo(item, ItemRecovery, Some(attempt), reason, now); }
    }

    /** The item is live and the recorded authority over it is still this attempt's. */
    method OwnedStill(item: Id, attempt: AttemptId) returns (owned: bool)
      ensures owned == SweepFences(store.WorkTables(), item, attempt)
    {
      if item !in store.items || !Fenceable(store.items[item].state) { return false; }
      if store.items[item].currentAttempt != Some(attempt) { return false; }
      var g := ClaimGeneration(store.claims, attempt);
      owned := store.items[item].currentGeneration == Some(if g.Some? then g.value else -1);
    }

    /** The two request updates and the lease deletion of one sweep. */
    method ReleaseRows(id: Id, attempt: AttemptId, reason: Reason)
      requires id in store.requests
      modifies store
      ensures store.Tables() == old(store.Tables()).(
                host := old(store.HostTables()).(
                  requests := ReleaseWithQueued(old(store.requests), id, attempt, reason),
                  leases := WithoutLeasesOf(old(store.hostLeases), id)))
    {
      TwoUpdates(store.requests, id, attempt, reason);
      store.requests := WithState(store.requests, id, Released, reason);
      store.hostLeases := WithoutLeasesOf(store.hostLeases, id);
      store.requests := ReleaseQueuedOf(store.requests, attempt, reason);
    }

    method SweepRequest(env: Env, id: Id, row: Request, evidence: Evidence)
      requires id in store.requests
      modifies store
      ensures store.Tables() == SweepOne(old(store.Tables()), env, id, row, evidence)
    {
      var reason := SweepReason(evidence);
      var consulted := ConsultedLease(store.HostTables(), id, row);
      var lease := if consulted.Some? then consulted else row.parent;
      ReleaseRows(id, row.attempt, reason);
      ReapAttempt(row.attempt, reason, env.now);
      store.hostEvents := store.hostEvents + [HostEvent(id, lease, Some(row.state), Released, reason, env.now)];
      assert store.HostTables() == ReleaseSwept(old(store.HostTables()), id, row, reason, env.now);
      var promoted := PromoteRelatedLocked(row.key, env.now);
    }

    method SweepStaleSlots(env: Env) returns (swept: seq<Id>)
      modifies store
      ensures SweepResult(store.Tables(), swept) == Sweep(old(store.Tables()), env)
    {
      swept := [];
      if env.config.ttl <= 0 && env.config.cdpMaxHold <= 0 { return; }
      while true
        invariant forall x | x in swept :: x in store.requests
        invariant SweepFrom(store.Tables(), env, swept) == SweepFrom(old(store.Tables()), env, [])
        decreases |store.requests.Keys - IdSet(swept)|
      {
        var sweptBefore := swept;
        swept := SweepOnce(env, swept);
        if swept == sweptBefore { return; }
      }
    }

    /** One pass over the candidates as they stood when it began. */
    method SweepOnce(env: Env, already: seq<Id>) returns (swept: seq<Id>)
      requires forall x | x in already :: x in store.requests
      modifies store
      ensures SweepResult(store.Tables(), swept)
           == SweepPass(old(store.Tables()), env, old(store.requests), Candidates(old(store.requests)), already)
      ensures swept != already ==>
                |store.requests.Keys - IdSet(swept)| < |old(store.requests).Keys - IdSet(already)|
      ensures forall x | x in swept :: x in store.requests
    {
      PassProgress(store.Tables(), env, already);
      var snapshot := store.requests;
      swept := SweepRows(env, snapshot, Candidates(snapshot), already);
    }

    method SweepRows(env: Env, snapshot: map<Id, Request>, rows: seq<Id>, already: seq<Id>) returns (swept: seq<Id>)
      requires snapshot.Keys == store.requests.Keys && forall x | x in rows :: x in snapshot
      modifies store
      ensures SweepResult(store.Tables(), swept) == SweepPass(old(store.Tables()), env, snapshot, rows, already)
    {
      ghost var result := SweepPass(store.Tables(), env, snapshot, rows, already);
      swept := already;
      var i := 0;
      while i < |rows|
        invariant 0 <= i <= |rows|
        invariant store.requests.Keys == snapshot.Keys
        invariant SweepPass(store.Tables(), env, snapshot, rows[i..], swept) == result
      {
        assert rows[i..][0] == rows[i] && rows[i..][1..] == rows[i + 1..];
        swept := Judge(env, rows[i], snapshot[rows[i]], swept);
        i := i + 1;
      }
      assert rows[|rows|..] == [];
    }

    /** Sweep one candidate if the evidence is there. */
    method Judge(env: Env, id: Id, row: Request, already: seq<Id>) returns (swept: seq<Id>)
      requires id in store.requests
      modifies store
      ensures var verdict := Verdict(old(store.HostTables()), env, id, row, IdSet(already));
              if verdict.None? then swept == already && store.Tables() == old(store.Tables())
              else
                && swept == already + [id]
                && store.Tables() == SweepOne(old(store.Tables()), env, id, row, verdict.value)
    {
      swept := already;
      var verdict := Verdict(store.HostTables(), env, id, row, IdSet(already));
      if verdict.Some? {
        swept := already + [id];
        SweepRequest(env, id, row, verdict.value);
      }
    }

    // ---- admission ----

    method InsertRow(id: Id, row: Request, lease: Option<Id>, reason: Reason, now: int)
      modifies store
      ensures store.Tables() == old(store.Tables()).(
                host := Insert(old(store.HostTables()), id, row, lease, reason, now))
    {
      store.requests := store.requests[id := row];
      store.hostEvents := store.hostEvents + [HostEvent(id, lease, None, row.state, reason, now)];
    }

    method InheritLease(env: Env, ask: Ask, lease: Id) returns (outcome: Outcome)
      modifies store
      ensures Result(store.Tables(), outcome) == Inherit(old(store.Tables()), env, ask, lease)
    {
      if ChildrenOf(store.requests, lease) != {} {
        InsertRow(ask.id, RowFor(ask, env.now, Quarantined, InheritedChildBusy, Some(lease)), None,
                  InheritedChildBusy, env.now);
        return Refused(ChildBusy);
      }
      InsertRow(ask.id, RowFor(ask, env.now, RequestState.Inherited, NoReason, Some(lease)), Some(lease),
                LeaseInherited, env.now);
      outcome := Answer(ask.id, RequestState.Inherited, Some(lease), false);
    }

    method AdmitOrQueue(env: Env, ask: Ask, capacity: int, rejected: Option<Reason>) returns (outcome: Outcome)
      modifies store
      ensures Result(store.Tables(), outcome) == Admit(old(store.Tables()), env, ask, capacity, rejected)
    {
      var full := |Held(store.requests, ask.key)| >= capacity;
      var state, reason;
      if full {
        state, reason := Queued, if rejected.Some? then rejected.value else HostResourceBusy;
      } else if SourceFull(store.requests, ask.key) {
        state, reason := Queued, ProviderSourceBusy;
      } else if SlotBusy(store.requests, ask.key, ask.slot) {
        state, reason := Queued, if rejected.Some? then rejected.value else SlotKeyBusy;
      } else {
        state, reason := Active, if rejected.Some? then rejected.value else HostResourceAdmitted;
      }
      var row := RowFor(ask, env.now, state, reason, None);
      var lease := None;
      if state == Active {
        lease := Some(store.nextLease);
        store.hostLeases := store.hostLeases[store.nextLease := NewLease(ask.id, row, env.now, ask.ttl)];
        store.nextLease := store.nextLease + 1;
      }
      InsertRow(ask.id, row, lease, reason, env.now);
      outcome := Answer(ask.id, state, lease, false);
    }

    /** Decide on the swept tables; a busy source undoes the sweep as well. */
    method Decide(env: Env, ask: Ask, capacity: int, before: Db) returns (outcome: Outcome)
      modifies store
      ensures Result(store.Tables(), outcome) == AdmitOrInherit(before, old(store.Tables()), env, ask, capacity)
    {
      var rejected := None;
      if ask.inherit.Some? {
        if SourceFull(store.requests, ask.key) {
          store.RollBack(before);
          return Refused(SourceIsBusy);
        }
        rejected := InheritRejection(store.HostTables(), ask, ask.inherit.value, env.now);
        if rejected.None? {
          outcome := InheritLease(env, ask, ask.inherit.value);
          return;
        }
      }
      outcome := AdmitOrQueue(env, ask, capacity, rejected);
    }

    /** Admit a named consumer, queue it, or inherit its ancestor's lease. */
    method RequestSlot(env: Env, ask: Ask) returns (outcome: Outcome)
      requires ask.key == resourceKey
      modifies store
      ensures Result(store.Tables(), outcome) == RequestStep(old(store.Tables()), env, ask)
    {
      if ask.ttl < 1 || ask.priority < 0 || ask.priority > 1000 { return Refused(InvalidArgument); }
      var existing := FindByKey(store.requests, ask.idempotencyKey);
      if existing.Some? {
        var r := store.requests[existing.value];
        if !SameAsk(r, ask) { return Refused(IdempotencyConflict); }
        return Answer(existing.value, r.state, LeaseOf(store.hostLeases, existing.value), true);
      }
      if resourceKey !in store.pools || !store.pools[resourceKey].enabled { return Refused(ResourceDisabled); }
      var capacity := store.pools[resourceKey].capacity;
      if capacity < 1 || (resourceKey == HostHeavy && capacity != 1) { return Refused(CapacityInvalid); }
      var before := store.Tables();
      var swept := SweepStaleSlots(env);
      if AttemptIsRevoked(store.Tables(), ask.attempt) {
        // rolled back with the refused request, then committed on a connection of its own
        store.RollBack(before);
        swept := SweepStaleSlots(env);
        return Refused(RevokedAttempt);
      }
      outcome := Decide(env, ask, capacity, before);
    }

    method Heartbeat(env: Env, lease: Id, sequence: int, ttl: int) returns (outcome: Outcome)
      modifies store
      ensures Result(store.Tables(), outcome) == HeartbeatStep(old(store.Tables()), env, lease, sequence, ttl)
    {
      if sequence < 1 || ttl < 1 { return Refused(InvalidArgument); }
      if lease !in store.hostLeases { return Refused(LeaseNotActive); }
      var row := store.hostLeases[lease];
      if row.request !in store.requests || store.requests[row.request].state != Active {
        return Refused(LeaseNotActive);
      }
      if sequence <= row.sequence { return Refused(InvalidArgument); }
      if row.expiresAt <= env.now { return Refused(LeaseIsExpired); }
      var expires := env.now + ttl;
      store.hostLeases := store.hostLeases[lease := row.(sequence := sequence, expiresAt := expires,
                                                         lastHeartbeat := env.now)];
      outcome := Extended(lease, sequence, expires);
    }

    // ---- release and recover ----

    method Free(env: Env, id: Id, reason: Reason, attested: bool) returns (outcome: Outcome)
      requires id in store.requests
      modifies store
      ensures Result(store.Tables(), outcome) == FreeAndPromote(old(store.Tables()), env, id, reason, attested)
    {
      var row := store.requests[id];
      var lease := NamedLease(store.HostTables(), id);
      store.requests := store.requests[id := row.(state := Released, reason := reason)];
      store.hostEvents := store.hostEvents + [HostEvent(id, lease, Some(row.state), Released, reason, env.now)];
      assert store.HostTables() == MarkReleased(old(store.HostTables()), id, reason, env.now);
      var promoted := PromoteRelatedLocked(row.key, env.now);
      outcome := Freed(id, attested, promoted);
    }

    method ReleaseSlot(env: Env, id: Id, reason: Reason) returns (outcome: Outcome)
      modifies store
      ensures Result(store.Tables(), outcome) == ReleaseStep(old(store.Tables()), env, id, reason)
    {
      if id !in store.requests { return Refused(RequestNotFound); }
      var state := store.requests[id].state;
      if state == Released || state == Quarantined { return AlreadyReleased(id, state); }
      if state == RecoveryRequired { return Refused(RecoveryReleaseRefused); }
      if state == Active && HasChildren(store.HostTables(), LeaseOf(store.hostLeases, id)) {
        return Refused(ChildActive);
      }
      outcome := Free(env, id, reason, false);
    }

    method Recover(env: Env, id: Id, attests: bool, explains: bool) returns (outcome: Outcome)
      modifies store
      ensures Result(store.Tables(), outcome) == RecoverStep(old(store.Tables()), env, id, attests, explains)
    {
      if id !in store.requests { return Refused(RequestNotFound); }
      if store.requests[id].state != RecoveryRequired { return Refused(NotRecoverable); }
      var provider := SourceOf(store.requests[id].key).Some?;
      if provider && !(attests && explains) { return Refused(ProviderTerminalUnproven); }
      if HasChildren(store.HostTables(), NamedLease(store.HostTables(), id)) { return Refused(ChildActive); }
      var liveness := LeaseLiveness(store.HostTables(), env, id);
      if liveness == Alive { return Refused(OwnerProcessAlive); }
      var attested := provider;
      if liveness == Unproven {
        if !attests { return Refused(OwnerLivenessUnproven); }
        if !explains { return Refused(InvalidArgument); }
        attested := true;
      }
      outcome := Free(env, id, if attested then RecoveryAttested else RecoveryOwnerGone, attested);
    }

    // ---- fences ----

    method FenceRow(id: Id, reason: Reason, now: int)
      requires id in store.requests
      modifies store
      ensures store.HostTables() == MarkFenced(old(store.HostTables()), id, reason, now)
      ensures store.WorkTables() == old(store.WorkTables())
    {
      var lease := NamedLease(store.HostTables(), id);
      var was := store.requests[id].state;
      store.requests := WithState(store.requests, id, RecoveryRequired, reason);
      store.hostEvents := store.hostEvents + [HostEvent(id, lease, Some(was), RecoveryRequired, reason, now)];
    }

    method MarkUncertain(env: Env, id: Id, attempt: AttemptId, agent: Id, reason: Reason) returns (outcome: Outcome)
      modifies store
      ensures Result(store.Tables(), outcome) == UncertainStep(old(store.Tables()), env, id, attempt, agent, reason)
    {
      if !IsProviderAttempt(store.HostTables(), id, attempt, agent) { return Refused(IdentityMismatch); }
      var state := store.requests[id].state;
      if !HoldsSource(state) { return Refused(AttemptNotActive); }
      if state == RecoveryRequired { return Fenced(id); }
      FenceRow(id, reason, env.now);
      outcome := Fenced(id);
    }

    method MarkRecovery(env: Env, id: Id, reason: Reason)
      modifies store
      ensures store.Tables() == MarkRecoveryStep(old(store.Tables()), env, id, reason)
    {
      if id !in store.requests { return; }
      var was := store.requests[id].state;
      if was != Active && was != RequestState.Inherited { return; }
      store.requests := WithState(store.requests, id, RecoveryRequired, reason);
      store.hostEvents := store.hostEvents
        + [HostEvent(id, LeaseOf(store.hostLeases, id), Some(was), RecoveryRequired, reason, env.now)];
    }

    /** Fence every ACTIVE request whose lease has expired, after sweeping. */
    method Reconcile(env: Env) returns (outcome: Outcome)
      modifies store
      ensures Result(store.Tables(), outcome) == ReconcileStep(old(store.Tables()), env)
    {
      if !NeedsReconcile(store.HostTables(), env.now) { return Reconciled([], []); }
      var stale := SweepStaleSlots(env);
      var rows := ExpiredLeases(store.HostTables(), env.now);
      var ids := RequestsOf(store.HostTables(), rows);
      FenceLeases(rows, env.now);
      outcome := Reconciled(ids, stale);
    }

    method FenceLeases(rows: seq<Id>, now: int)
      requires forall l | l in rows :: l in store.hostLeases && store.hostLeases[l].request in store.requests
      modifies store
      ensures store.Tables() == old(store.Tables()).(host := FenceExpired(old(store.HostTables()), rows, now))
    {
      var i := 0;
      while i < |rows|
        invariant 0 <= i <= |rows|
        invariant store.hostLeases == old(store.hostLeases) && store.requests.Keys == old(store.requests).Keys
        invariant store.Tables() == old(store.Tables()).(host := store.HostTables())
        invariant FenceExpired(store.HostTables(), rows[i..], now) == FenceExpired(old(store.HostTables()), rows, now)
      {
        var id := store.hostLeases[rows[i]].request;
        store.requests := WithState(store.requests, id, RecoveryRequired, LeaseExpired);
        store.hostEvents := store.hostEvents
          + [HostEvent(id, Some(rows[i]), Some(Active), RecoveryRequired, LeaseExpired, now)];
        i := i + 1;
      }
    }

    // ---- imported observations, unleased consumers, process records ----

    method RetainObservedAttempt(env: Env, id: Id, observation: Id, details: ObservationDetails)
      returns (outcome: Outcome)
      modifies store
      ensures Result(store.Tables(), outcome)
              == RetainStep(old(store.Tables()), env, id, resourceKey, observation, details)
    {
      if !resourceKey.ProviderPool? { return Refused(ProviderRequired); }
      if details.existing.Some? && details.native.None? { return Refused(InvalidArgument); }
      var k := ObservationKey(resourceKey.source, observation);
      if k in store.observations {
        var earlier := store.observations[k];
        if earlier.details != details || earlier.request !in store.requests { return Refused(ObservationDrift); }
        return Answer(earlier.request, store.requests[earlier.request].state,
                      LeaseOf(store.hostLeases, earlier.request), true);
      }
      var binding := Bind(store.HostTables(), k.source, details);
      match binding {
        case NoBinding(why) => outcome := Refused(why);
        case NoRow =>
          if FindByKey(store.requests, ForObservation(k)).Some? { return Refused(KeyTaken); }
          InsertRow(id, ObservedRow(k, details, env.now), None, ProviderRetainedAttempt, env.now);
          store.observations := store.observations[k := Observation(id, details)];
          outcome := Answer(id, RecoveryRequired, None, false);
        case Row(bound) =>
          if store.requests[bound].state !in {Active, RequestState.Inherited, Released, RecoveryRequired} {
            return Refused(StateUnqualified);
          }
          FenceRow(bound, ProviderRetainedAttempt, env.now);
          store.observations := store.observations[k := Observation(bound, details)];
          outcome := Answer(bound, RecoveryRequired, LeaseOf(store.hostLeases, bound), false);
      }
    }

    method LogFocusedRequest(env: Env, ask: Ask) returns (outcome: Outcome)
      modifies store
      ensures Result(store.Tables(), outcome) == LogFocusedStep(old(store.Tables()), env, ask)
    {
      var existing := FindByKey(store.requests, ask.idempotencyKey);
      if existing.Some? {
        return Answer(existing.value, store.requests[existing.value].state,
                      LeaseOf(store.hostLeases, existing.value), true);
      }
      var row := RowFor(ask.(owner := None), env.now, Released, PytestFocusedNoHeavyLease, None);
      InsertRow(ask.id, row, None, PytestFocusedNoHeavyLease, env.now);
      outcome := Answer(ask.id, Released, None, false);
    }

    /** Record the spawned child on the lease, or on the request when the lease is the parent's. */
    method AttachChild(env: Env, id: Id, lease: Option<Id>, inherited: bool, process: Identity)
      modifies store
      ensures store.Tables() ==
              if inherited then AttachToRequest(old(store.Tables()), env, id, process)
              else if lease.Some? then AttachToLease(old(store.Tables()), lease.value, process)
              else old(store.Tables())
    {
      if inherited {
        if id in store.requests {
          var owned := store.requests[id].(owner := Some(process), ownerSeen := Some(env.now));
          store.requests := store.requests[id := owned];
        }
      } else if lease.Some? && lease.value in store.hostLeases {
        store.hostLeases := store.hostLeases[lease.value := store.hostLeases[lease.value].(process := Some(process))];
      }
    }
  }
}
