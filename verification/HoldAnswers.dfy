/** What ends, extends or fences a hold, and what it leaves, said of the rows. */
module HoldAnswers {
  import opened Collections
  import opened HostModel
  import opened ConductorModel
  import opened HostPromotion
  import opened HostInvariant
  import opened HostFairness
  import opened HostSweep
  import opened HostSweepProof
  import opened HostStaleness
  import opened HostOperations
  import opened HostOperationsProof
  import opened HostAnswers

  // ---- heartbeat ----

  predicate Runner(h: Host, l: Id) {
    l in h.leases && h.leases[l].request in h.requests && h.requests[h.leases[l].request].state == Active
  }

  /** A heartbeat is accepted exactly for a lease of a running request that has not run out, with a
      sequence ahead of the last. It then runs out at now + ttl, and nothing else has changed. */
  lemma HeartbeatExtends(db: Db, env: Env, lease: Id, sequence: int, ttl: int)
    ensures var r := HeartbeatStep(db, env, lease, sequence, ttl);
            && (r.outcome.Extended? <==>
                  && sequence >= 1 && ttl >= 1 && Runner(db.host, lease)
                  && db.host.leases[lease].sequence < sequence && db.host.leases[lease].expiresAt > env.now)
            && (!r.outcome.Extended? ==> r.outcome.Refused? && r.db == db)
            && (r.outcome.Extended? ==>
                  && r.outcome == Extended(lease, sequence, env.now + ttl)
                  && r.db.work == db.work && r.db.host == db.host.(leases := r.db.host.leases)
                  && r.db.host.leases == db.host.leases[lease := r.db.host.leases[lease]]
                  && r.db.host.leases[lease]
                     == db.host.leases[lease].(sequence := sequence, lastHeartbeat := env.now,
                                               expiresAt := env.now + ttl))
  {
  }

  /** It is refused because no running request has the lease, because the lease has run out, or for its
      arguments, a stale sequence among them. */
  lemma HeartbeatRefuses(db: Db, env: Env, lease: Id, sequence: int, ttl: int)
    ensures var r := HeartbeatStep(db, env, lease, sequence, ttl).outcome; var usable := sequence >= 1 && ttl >= 1;
            && (r == Refused(LeaseNotActive) <==> usable && !Runner(db.host, lease))
            && (r == Refused(LeaseIsExpired) <==>
                  && usable && Runner(db.host, lease)
                  && db.host.leases[lease].sequence < sequence && db.host.leases[lease].expiresAt <= env.now)
            && (r == Refused(InvalidArgument) <==>
                  !usable || (Runner(db.host, lease) && sequence <= db.host.leases[lease].sequence))
  {
  }

  // ---- reconcile ----

  lemma {:induction false} FenceExpiredRow(host: Host, rows: seq<Id>, now: int, r: Id)
    requires HeldLeases(host, rows) && r in host.requests
    ensures var h := FenceExpired(host, rows, now);
            && h.leases == host.leases && h.pools == host.pools && h.requests.Keys == host.requests.Keys
            && h.requests[r] == if exists l :: l in rows && host.leases[l].request == r
                                then host.requests[r].(state := RecoveryRequired, reason := LeaseExpired)
                                else host.requests[r]
    decreases |rows|
  {
    if rows != [] {
      var first := FenceFirst(host, rows[0], now);
      assert HeldLeases(first, rows[1..]);
      FenceExpiredRow(first, rows[1..], now, r);
      assert forall l :: l in rows <==> l == rows[0] || l in rows[1..];
    }
  }

  /** A running request holds a lease that ran out before now. */
  predicate Lapsed(h: Host, r: Id, now: int) {
    && r in h.requests && h.requests[r].state == Active
    && exists l :: l in h.leases && h.leases[l].request == r && h.leases[l].expiresAt < now
  }

  /** Reconcile has something to look at: a lapsed request, a fence or a child. */
  predicate Unsettled(h: Host, now: int) {
    exists r :: r in h.requests && (Lapsed(h, r, now) || h.requests[r].state in {RecoveryRequired, Inherited})
  }

  lemma UnsettledNeeds(h: Host, now: int)
    ensures NeedsReconcile(h, now) <==> Unsettled(h, now)
  {
    var rows := ExpiredLeases(h, now);
    if rows != [] { assert rows[0] in rows && Lapsed(h, h.leases[rows[0]].request, now); }
    if r :| r in h.requests && Lapsed(h, r, now) {
      var l :| l in h.leases && h.leases[l].request == r && h.leases[l].expiresAt < now;
      assert l in rows;
    }
  }

  /** A reconcile of an unsettled store sweeps, and then fences exactly the requests that run under a
      lapsed lease; any other row is as the sweep left it, and so is every lease. A settled store is
      left alone. */
  lemma ReconcileRowsOf(db: Db, env: Env, r: Id)
    requires r in db.host.requests
    ensures var b := Sweep(db, env).db; var a := ReconcileStep(db, env).db;
            if !Unsettled(db.host, env.now) then a == db
            else
              && a.work == b.work && a.host.leases == b.host.leases && a.host.requests.Keys == b.host.requests.Keys
              && a.host.requests[r] == if Lapsed(b.host, r, env.now)
                                       then b.host.requests[r].(state := RecoveryRequired, reason := LeaseExpired)
                                       else b.host.requests[r]
  {
    UnsettledNeeds(db.host, env.now);
    var b := Sweep(db, env).db;
    var rows := ExpiredLeases(b.host, env.now);
    FenceExpiredRow(b.host, rows, env.now, r);
    assert (exists l :: l in rows && b.host.leases[l].request == r) <==> Lapsed(b.host, r, env.now);
  }

  /** After a heartbeat no reconcile at a clock up to now + ttl fences the request for expiry. */
  lemma HeartbeatHolds(db: Db, env: Env, lease: Id, sequence: int, ttl: int, later: Env)
    requires Settled(db) && HeartbeatStep(db, env, lease, sequence, ttl).outcome.Extended?
    requires later.now <= env.now + ttl
    ensures var a := ReconcileStep(HeartbeatStep(db, env, lease, sequence, ttl).db, later).db.host;
            var r := db.host.leases[lease].request;
            r in a.requests && a.requests[r].state in {Active, Released}
  {
    var d := HeartbeatStep(db, env, lease, sequence, ttl).db;
    var r := db.host.leases[lease].request;
    HeartbeatKeeps(db, env, lease, sequence, ttl);
    HeartbeatExtends(db, env, lease, sequence, ttl);
    ReconcileRowsOf(d, later, r);
    SweepSafety(d, later, r);
    NotLapsed(d, later, r, lease);
  }

  lemma NotLapsed(d: Db, later: Env, r: Id, lease: Id)
    requires Settled(d) && lease in d.host.leases && d.host.leases[lease].request == r
    requires d.host.leases[lease].expiresAt >= later.now && r in d.host.requests && d.host.requests[r].state == Active
    ensures !Lapsed(d.host, r, later.now) && !Lapsed(Sweep(d, later).db.host, r, later.now)
  {
    var b := Sweep(d, later).db;
    SweepSafety(d, later, r);
    SweepSettles(d, later);
    if b.host.requests[r].state == Active {
      assert LeasesOf(b.host, r) == LeasesOf(d.host, r);
      assert lease in LeasesOf(d.host, r);
      assert b.host.leases[lease].request == r && b.host.leases[lease].expiresAt >= later.now;
    }
  }

  // ---- release, recovery and what is promoted instead ----

  /** A waiter that could run and is ahead of all that could, in its pool, has been granted a lease of its
      own for the default time; nothing else has changed. */
  predicate Granted(b: Host, a: Host, attempts: Attempts, q: Id, now: int) {
    && CouldRun(b, attempts, q)
    && (forall x | x in b.requests && CouldRun(b, attempts, x) && b.requests[x].key == b.requests[q].key ::
          Ahead(b, q, x))
    && a.pools == b.pools && a.observations == b.observations
    && a.requests == b.requests[q := b.requests[q].(state := Active, reason := HostResourcePromoted)]
    && b.nextLease in a.leases && a.leases == b.leases[b.nextLease := a.leases[b.nextLease]]
    && var l, row := a.leases[b.nextLease], b.requests[q];
       && l.request == q && l.key == row.key && l.attempt == row.attempt && l.agent == row.agent
       && l.process == row.owner && l.sequence == 1 && l.lastHeartbeat == now && l.expiresAt == now + 300
  }

  predicate SamePoolOrSource(a: ResourceKey, b: ResourceKey) {
    a == b || (SourceOf(a).Some? && SourceOf(a) == SourceOf(b))
  }

  /** One waiter of the pool or its source is granted, if any could run; else nothing happens. */
  lemma PromotionGrants(b: Host, attempts: Attempts, key: ResourceKey, now: int)
    ensures var q := PickRelated(b, attempts, key); var a := PromoteRelated(b, attempts, key, now);
            && (q.Some? ==> SamePoolOrSource(key, b.requests[q.value].key) && Granted(b, a, attempts, q.value, now))
            && (q.None? ==> a == b && forall x | x in b.requests && SamePoolOrSource(key, b.requests[x].key) ::
                                        !CouldRun(b, attempts, x))
  {
    var q := PickRelated(b, attempts, key);
    forall x | x in b.requests ensures Eligible(b, attempts, x) <==> CouldRun(b, attempts, x) {
      EligibleCouldRun(b, attempts, x);
    }
    if q.Some? {
      PickedInPool(b, attempts, key, q.value);
      forall x | x in b.requests && CouldRun(b, attempts, x) && b.requests[x].key == b.requests[q.value].key
        ensures Ahead(b, q.value, x)
      {
        PickIsFirst(b, attempts, b.requests[q.value].key, x);
      }
    }
  }

  /** What is promoted for a pool or its source is the first of its own pool. */
  lemma PickedInPool(b: Host, attempts: Attempts, key: ResourceKey, q: Id)
    requires PickRelated(b, attempts, key) == Some(q)
    ensures Pick(b, attempts, b.requests[q].key) == Some(q)
  {
    if SourceOf(key).Some? {
      var d := SourceDecider(b, attempts, key);
    }
  }

  /** Exactly one request has been released, for this reason; every other row and every lease is as it was. */
  predicate LetGo(b: Host, m: Host, id: Id, reason: Reason) {
    && id in b.requests && m.requests == b.requests[id := b.requests[id].(state := Released, reason := reason)]
    && m.leases == b.leases && m.nextLease == b.nextLease && m.pools == b.pools && m.observations == b.observations
  }

  /** Release accepts exactly a waiter, a child, or a runner that no child inherits from. It lets go of that
      request alone, and then promotes; refused, it changes nothing. */
  lemma ReleaseAnswers(db: Db, env: Env, id: Id, reason: Reason)
    requires LeasesSound(db.host)
    ensures var r := ReleaseStep(db, env, id, reason);
            && (r.outcome.Freed? <==>
                  && id in db.host.requests && db.host.requests[id].state in {Queued, Active, Inherited}
                  && (db.host.requests[id].state == Active ==>
                        forall l | l in db.host.leases && db.host.leases[l].request == id :: !HasChild(db.host, l)))
            && (!r.outcome.Freed? ==> r.db == db)
            && (r.outcome.Freed? ==>
                  && LetGo(db.host, MarkReleased(db.host, id, reason, env.now), id, reason)
                  && r.outcome == Freed(id, false, PickRelated(MarkReleased(db.host, id, reason, env.now),
                                                               db.work.attempts, db.host.requests[id].key))
                  && r.db == db.(host := PromoteRelated(MarkReleased(db.host, id, reason, env.now), db.work.attempts,
                                                        db.host.requests[id].key, env.now)))
  {
    if id in db.host.requests {
      var own := LeaseOf(db.host.leases, id);
      forall l | l in db.host.leases ensures own == Some(l) <==> db.host.leases[l].request == id {}
      if own.Some? { ChildrenAre(db.host, own.value); }
    }
  }

  /** A request released or quarantined before is answered so; a fenced one is left to recovery; a runner
      waits for its child. */
  lemma ReleaseRefuses(db: Db, env: Env, id: Id, reason: Reason)
    requires LeasesSound(db.host)
    ensures var r := ReleaseStep(db, env, id, reason).outcome;
            && (r == Refused(RequestNotFound) <==> id !in db.host.requests)
            && (id in db.host.requests ==>
                  var state := db.host.requests[id].state;
                  && (state in {Released, Quarantined} ==> r == AlreadyReleased(id, state))
                  && (state == RecoveryRequired ==> r == Refused(RecoveryReleaseRefused))
                  && (state in {Queued, Inherited} ==> r.Freed?)
                  && (state == Active ==> r.Freed? || r == Refused(ChildActive)))
  {
  }

  lemma ChildrenAre(h: Host, l: Id)
    ensures ChildrenOf(h.requests, l) != {} <==> HasChild(h, l)
  {
    if HasChild(h, l) {
      var c :| c in h.requests && h.requests[c].state == Inherited && h.requests[c].parent == Some(l);
      assert c in ChildrenOf(h.requests, l);
    }
    if ChildrenOf(h.requests, l) != {} { var c :| c in ChildrenOf(h.requests, l); }
  }

  /** What an accepted recovery changes: as a release, with a reason that says whether it was attested. */
  lemma RecoveryAnswers(db: Db, env: Env, id: Id, attests: bool, explains: bool)
    ensures var r := RecoverStep(db, env, id, attests, explains);
            && (!r.outcome.Freed? ==> r.db == db && r.outcome.Refused?)
            && (r.outcome.Freed? ==>
                  && id in db.host.requests
                  && var gone := exists l :: l in db.host.leases && LeaseOf(db.host.leases, id) == Some(l)
                                          && db.host.leases[l].process.Some?
                                          && env.liveness(db.host.leases[l].process.value) == Gone;
                     var byProcess := gone && SourceOf(db.host.requests[id].key).None?;
                     var reason := if byProcess then RecoveryOwnerGone else RecoveryAttested;
                     var m := MarkReleased(db.host, id, reason, env.now);
                     && LetGo(db.host, m, id, reason) && r.outcome.attested == !byProcess
                     && r.db == db.(host := PromoteRelated(m, db.work.attempts, db.host.requests[id].key, env.now)))
  {
  }

  /** A child inherits from the request's lease, or from the one it inherited itself. */
  predicate ChildInherits(h: Host, id: Id)
    requires id in h.requests
  {
    || (exists l :: l in h.leases && h.leases[l].request == id && HasChild(h, l))
    || (&& (forall l | l in h.leases :: h.leases[l].request != id)
        && h.requests[id].parent.Some? && HasChild(h, h.requests[id].parent.value))
  }

  /** The process on the request's lease is known to be in this condition. */
  predicate KnownTo(h: Host, env: Env, id: Id, condition: Liveness) {
    exists l :: && l in h.leases && h.leases[l].request == id && h.leases[l].process.Some?
                && env.liveness(h.leases[l].process.value) == condition
  }

  lemma NamedLeaseChildren(h: Host, id: Id)
    requires LeasesSound(h) && id in h.requests
    ensures HasChildren(h, NamedLease(h, id)) <==> ChildInherits(h, id)
  {
    var named := NamedLease(h, id);
    forall l | l in h.leases ensures LeaseOf(h.leases, id) == Some(l) <==> h.leases[l].request == id {}
    if named.Some? { ChildrenAre(h, named.value); }
  }

  lemma LivenessKnown(h: Host, env: Env, id: Id)
    requires LeasesSound(h)
    ensures LeaseLiveness(h, env, id) == Alive <==> KnownTo(h, env, id, Alive)
    ensures LeaseLiveness(h, env, id) == Gone <==> KnownTo(h, env, id, Gone)
  {
    forall l | l in h.leases ensures LeaseOf(h.leases, id) == Some(l) <==> h.leases[l].request == id {}
  }

  /** Why a recovery is refused: the request is not there, or not fenced; its provider is not attested to have
      stopped; a child inherits; its process runs, or is not known to be gone and nobody attests, or attests
      without saying why. */
  lemma RecoveryRefuses(db: Db, env: Env, id: Id, attests: bool, explains: bool)
    requires LeasesSound(db.host)
    ensures var r := RecoverStep(db, env, id, attests, explains).outcome;
            if id !in db.host.requests then r == Refused(RequestNotFound)
            else if db.host.requests[id].state != RecoveryRequired then r == Refused(NotRecoverable)
            else
              var unproven := !KnownTo(db.host, env, id, Alive) && !KnownTo(db.host, env, id, Gone);
              var unattested := SourceOf(db.host.requests[id].key).Some? && !(attests && explains);
              var asked := !unattested && !ChildInherits(db.host, id);
              && (r == Refused(ProviderTerminalUnproven) <==> unattested)
              && (r == Refused(ChildActive) <==> !unattested && ChildInherits(db.host, id))
              && (r == Refused(OwnerProcessAlive) <==> asked && KnownTo(db.host, env, id, Alive))
              && (r == Refused(OwnerLivenessUnproven) <==> asked && unproven && !attests)
              && (r == Refused(InvalidArgument) <==> asked && unproven && attests && !explains)
  {
    if id in db.host.requests {
      NamedLeaseChildren(db.host, id);
      LivenessKnown(db.host, env, id);
    }
  }

  // ---- fences ----

  /** Row id fenced for this reason, nothing else changed. */
  predicate FencedRow(b: Host, a: Host, id: Id, reason: Reason) {
    && id in b.requests && a.leases == b.leases && a.pools == b.pools && a.nextLease == b.nextLease
    && a.requests == b.requests[id := b.requests[id].(state := RecoveryRequired, reason := reason)]
  }

  /** Marking uncertain is for a provider attempt's own, executing or fenced request; a fence stays as it is. */
  lemma UncertainAnswers(db: Db, env: Env, id: Id, attempt: AttemptId, agent: Id, reason: Reason)
    ensures var r := UncertainStep(db, env, id, attempt, agent, reason);
            && (r.outcome.Fenced? <==>
                  && id in db.host.requests
                  && db.host.requests[id].attempt == attempt && db.host.requests[id].agent == agent
                  && SourceOf(db.host.requests[id].key).Some?
                  && db.host.requests[id].state in {Active, Inherited, RecoveryRequired})
            && r.db.work == db.work
            && (if r.outcome.Fenced? && db.host.requests[id].state != RecoveryRequired
                then FencedRow(db.host, r.db.host, id, reason) && r.db.host.observations == db.host.observations
                else r.db == db)
  {
  }

  /** A bounded child is fenced exactly while it executes. */
  lemma MarkRecoveryAnswers(db: Db, env: Env, id: Id, reason: Reason)
    ensures var d := MarkRecoveryStep(db, env, id, reason);
            && d.work == db.work
            && (if id in db.host.requests && db.host.requests[id].state in {Active, Inherited}
                then FencedRow(db.host, d.host, id, reason) && d.host.observations == db.host.observations
                else d == db)
  {
  }
}
