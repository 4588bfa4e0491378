/** What importing an observation, logging an unleased run or recording a process changes, said of the
    rows; and the order in which a sweep judges its candidates. */
module RecordAnswers {
  import opened Collections
  import opened HostModel
  import opened ConductorModel
  import opened HostSweep
  import opened HostOperations
  import opened HostAnswers
  import opened HoldAnswers

  // ---- imported observations ----

  /** The request is one of this source, made by this owner under the attempt that was observed. */
  predicate IsOf(h: Host, source: Source, details: ObservationDetails, e: Id) {
    && details.native.Some? && e in h.requests && SourceOf(h.requests[e].key) == Some(source)
    && h.requests[e].attempt == details.native.value && h.requests[e].agent == details.owner
  }

  /** The observation is on file for request e. */
  predicate Filed(b: Host, a: Host, k: ObservationKey, details: ObservationDetails, e: Id) {
    a.observations == b.observations[k := Observation(e, details)]
  }

  /** Request e, if it ever executed, is fenced and the observation filed; else the import is refused. */
  predicate HoldsOn(db: Db, r: Result, k: ObservationKey, details: ObservationDetails, e: Id)
    requires e in db.host.requests
  {
    if db.host.requests[e].state in {Active, Inherited, Released, RecoveryRequired} then
      && FencedRow(db.host, r.db.host, e, ProviderRetainedAttempt) && Filed(db.host, r.db.host, k, details, e)
      && r.db.work == db.work && r.outcome == Answer(e, RecoveryRequired, LeaseOf(db.host.leases, e), false)
    else r == Result(db, Refused(StateUnqualified))
  }

  /** A new hold is recorded for the observation, fenced from the start and without a lease; unless its
      key is taken. */
  predicate HoldsAnew(db: Db, r: Result, id: Id, k: ObservationKey, details: ObservationDetails, now: int) {
    if exists x :: x in db.host.requests && db.host.requests[x].idempotencyKey == ForObservation(k) then
      r == Result(db, Refused(KeyTaken))
    else
      && r.db.work == db.work && r.outcome == Answer(id, RecoveryRequired, None, false)
      && id in r.db.host.requests && r.db.host.requests == db.host.requests[id := r.db.host.requests[id]]
      && r.db.host.leases == db.host.leases && r.db.host.pools == db.host.pools
      && Filed(db.host, r.db.host, k, details, id)
      && var row := r.db.host.requests[id];
         && row.idempotencyKey == ForObservation(k) && row.key == ProviderPool(k.source)
         && row.state == RecoveryRequired && row.reason == ProviderRetainedAttempt
         && row.command == details.evidence && row.agent == details.owner && row.createdAt == now
         && row.parent.None? && row.owner.None? && row.slot.None?
         && row.attempt == if details.native.Some? then details.native.value else Unbound(k.source, k.observation)
  }

  predicate Two(h: Host, source: Source, details: ObservationDetails) {
    exists e, f :: && e in h.requests && f in h.requests && e != f
                   && IsOf(h, source, details, e) && IsOf(h, source, details, f)
  }

  lemma MatchesAre(h: Host, source: Source, details: ObservationDetails)
    requires details.native.Some?
    ensures var m := MatchingRequests(h, details.native.value, details.owner, source);
            && (forall e :: e in m <==> IsOf(h, source, details, e))
            && (|m| > 1 <==> Two(h, source, details))
  {
    var m := MatchingRequests(h, details.native.value, details.owner, source);
    if e, f :| e in m && f in m && e != f {
      assert {e, f} <= m;
      SubsetCard({e, f}, m);
    }
    if |m| > 1 {
      var e :| e in m;
      assert |m - {e}| > 0;
      var f :| f in m - {e};
      assert IsOf(h, source, details, e) && IsOf(h, source, details, f);
    }
  }

  lemma RetainNamed(db: Db, env: Env, id: Id, key: ResourceKey, observation: Id, details: ObservationDetails)
    requires key.ProviderPool? && ObservationKey(key.source, observation) !in db.host.observations
    requires details.existing.Some? && details.native.Some?
    ensures var r := RetainStep(db, env, id, key, observation, details);
            if IsOf(db.host, key.source, details, details.existing.value)
            then HoldsOn(db, r, ObservationKey(key.source, observation), details, details.existing.value)
            else r == Result(db, Refused(IdentityMismatch))
  {
  }

  lemma RetainMatched(db: Db, env: Env, id: Id, key: ResourceKey, observation: Id, details: ObservationDetails, e: Id)
    requires key.ProviderPool? && ObservationKey(key.source, observation) !in db.host.observations
    requires details.existing.None? && IsOf(db.host, key.source, details, e)
    ensures var r := RetainStep(db, env, id, key, observation, details);
            if Two(db.host, key.source, details) then r == Result(db, Refused(AmbiguousAttempt))
            else HoldsOn(db, r, ObservationKey(key.source, observation), details, e)
  {
    MatchesAre(db.host, key.source, details);
  }

  lemma RetainUnmatched(db: Db, env: Env, id: Id, key: ResourceKey, observation: Id, details: ObservationDetails)
    requires key.ProviderPool? && ObservationKey(key.source, observation) !in db.host.observations
    requires details.existing.None?
    requires forall e | e in db.host.requests :: !IsOf(db.host, key.source, details, e)
    ensures HoldsAnew(db, RetainStep(db, env, id, key, observation, details), id,
                      ObservationKey(key.source, observation), details, env.now)
  {
    if details.native.Some? { MatchesAre(db.host, key.source, details); }
  }

  /** A new observation of a provider fences the request it names, if that is of the observed attempt; or
      the only request that is; or, when none is or no attempt was observed, records a hold of its own. */
  lemma RetainAnswers(db: Db, env: Env, id: Id, key: ResourceKey, observation: Id, details: ObservationDetails)
    requires key.ProviderPool? && ObservationKey(key.source, observation) !in db.host.observations
    requires details.existing.Some? ==> details.native.Some?
    ensures var r := RetainStep(db, env, id, key, observation, details);
            var k := ObservationKey(key.source, observation);
            if details.existing.Some? then
              if IsOf(db.host, key.source, details, details.existing.value)
              then HoldsOn(db, r, k, details, details.existing.value)
              else r == Result(db, Refused(IdentityMismatch))
            else if Two(db.host, key.source, details) then r == Result(db, Refused(AmbiguousAttempt))
            else
              && (forall e | IsOf(db.host, key.source, details, e) :: HoldsOn(db, r, k, details, e))
              && ((forall e | e in db.host.requests :: !IsOf(db.host, key.source, details, e)) ==>
                    HoldsAnew(db, r, id, k, details, env.now))
  {
    if details.existing.Some? {
      RetainNamed(db, env, id, key, observation, details);
    } else {
      forall e | IsOf(db.host, key.source, details, e) {
        RetainMatched(db, env, id, key, observation, details, e);
      }
      if forall e | e in db.host.requests :: !IsOf(db.host, key.source, details, e) {
        RetainUnmatched(db, env, id, key, observation, details);
      }
    }
  }

  /** The same observation again is answered with its request as it now is; with other details, refused. */
  lemma RetainReplays(db: Db, env: Env, id: Id, key: ResourceKey, observation: Id, details: ObservationDetails)
    requires key.ProviderPool? && ObservationKey(key.source, observation) in db.host.observations
    requires details.existing.Some? ==> details.native.Some?
    requires db.host.observations[ObservationKey(key.source, observation)].request in db.host.requests
    ensures var r := RetainStep(db, env, id, key, observation, details);
            var earlier := db.host.observations[ObservationKey(key.source, observation)];
            r == Result(db, if earlier.details == details
                            then Answer(earlier.request, db.host.requests[earlier.request].state,
                                        LeaseOf(db.host.leases, earlier.request), true)
                            else Refused(ObservationDrift))
  {
  }

  // ---- processes and unleased runs ----

  /** A process recorded on a lease, or seen now for a request, and nothing else. */
  lemma AttachAnswers(db: Db, env: Env, lease: Id, id: Id, process: Identity)
    ensures var d := AttachToLease(db, lease, process);
            && d.work == db.work && d.host == db.host.(leases := d.host.leases)
            && d.host.leases.Keys == db.host.leases.Keys
            && forall l | l in db.host.leases :: d.host.leases[l]
                 == if l == lease then db.host.leases[l].(process := Some(process)) else db.host.leases[l]
    ensures var d := AttachToRequest(db, env, id, process);
            && d.work == db.work && d.host == db.host.(requests := d.host.requests)
            && d.host.requests.Keys == db.host.requests.Keys
            && forall r | r in db.host.requests :: d.host.requests[r]
                 == if r == id then db.host.requests[r].(owner := Some(process), ownerSeen := Some(env.now))
                    else db.host.requests[r]
  {
  }

  /** A focused run is logged once per key, released from the start. */
  lemma LogFocusedAnswers(db: Db, env: Env, ask: Ask)
    requires forall r | r in db.host.requests :: db.host.requests[r].idempotencyKey != ask.idempotencyKey
    ensures var r := LogFocusedStep(db, env, ask);
            && OneMore(db.host, r.db.host, ask.(owner := None), env.now) && r.db.host.leases == db.host.leases
            && r.db.work == db.work && r.db.host.requests[ask.id].state == Released
            && r.outcome == Answer(ask.id, Released, None, false)
  {
  }

  // ---- the order of a sweep ----

  /** A sweep judges requests in the order they were asked for, then of their ids. */
  lemma CandidatesInOrder(requests: map<Id, Request>, j: nat, k: nat)
    requires j < k < |Candidates(requests)|
    ensures var x, y := Candidates(requests)[j], Candidates(requests)[k];
            && x in requests && y in requests
            && (requests[x].createdAt < requests[y].createdAt
                || (requests[x].createdAt == requests[y].createdAt && x < y))
  {
    var ranks := map r | r in requests :: Rank(requests[r].createdAt, 0);
    var rows := Candidates(requests);
    assert rows[j] in rows && rows[k] in rows;
    assert Before(ranks, rows[j], rows[k]);
  }
}
