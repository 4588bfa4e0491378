/** Every operation of HostResourceManager keeps the invariants and follows the evolution of
    HostInvariant; what each refusal and each answer then means. */
module HostOperationsProof {
  import opened Collections
  import opened HostModel
  import opened ConductorModel
  import opened HostPromotion
  import opened HostInvariant
  import opened HostSweep
  import opened HostSweepProof
  import opened HostOperations

  /** What every operation guarantees about the tables it leaves. */
  ghost predicate Kept(b: Db, a: Db, now: int) {
    Settled(a) && Evolves(b, a, now)
  }

  // ---- changes that only tighten admission ----

  /** Holders stay holders and no request of `b` becomes a waiter. */
  ghost predicate Tighter(b: Host, a: Host) {
    && a.pools == b.pools
    && forall r | r in b.requests ::
         && r in a.requests && a.requests[r].key == b.requests[r].key && a.requests[r].slot == b.requests[r].slot
         && a.requests[r].attempt == b.requests[r].attempt
         && (HoldsPool(b.requests[r].state) ==> HoldsPool(a.requests[r].state))
         && (HoldsSource(b.requests[r].state) ==> HoldsSource(a.requests[r].state))
         && (a.requests[r].state == Queued ==> b.requests[r].state == Queued)
  }

  lemma TighterPool(b: Host, a: Host, key: ResourceKey)
    requires Tighter(b, a) && PoolOpen(a, key)
    ensures PoolOpen(b, key)
  {
    SubsetCard(Held(b.requests, key), Held(a.requests, key));
    if SourceOf(key).Some? {
      SubsetCard(SourceHeld(b.requests, SourceOf(key).value), SourceHeld(a.requests, SourceOf(key).value));
    }
  }

  lemma TighterQuiet(b: Host, a: Host, attempts: Attempts)
    requires Quiet(b, attempts) && Tighter(b, a)
    requires forall q | q in a.requests && q !in b.requests :: !Eligible(a, attempts, q)
    ensures Quiet(a, attempts)
  {
    forall q | q in a.requests ensures !Eligible(a, attempts, q) {
      if q in b.requests && Eligible(a, attempts, q) {
        var key := b.requests[q].key;
        TighterPool(b, a, key);
      }
    }
  }

  // ---- fencing one holder ----

  lemma FenceKeepsLeases(h: Host, id: Id, reason: Reason)
    requires LeasesSound(h) && id in h.requests
             && h.requests[id].state in {Active, Inherited, Released, RecoveryRequired}
    ensures LeasesSound(h.(requests := WithState(h.requests, id, RecoveryRequired, reason)))
  {
  }

  lemma FenceKeepsParents(h: Host, id: Id, reason: Reason)
    requires LeasesSound(h) && ParentsSafe(h)
    requires id in h.requests && h.requests[id].state in {Active, Inherited, Released, RecoveryRequired}
    ensures ParentsSafe(h.(requests := WithState(h.requests, id, RecoveryRequired, reason)))
  {
    var a := h.(requests := WithState(h.requests, id, RecoveryRequired, reason));
    forall c | c in a.requests && a.requests[c].state == Inherited ensures ChildSafe(a, c) {
      assert ChildSafe(h, c);
    }
  }

  lemma UnleasedEvolves(db: Db, a: Host, now: int)
    requires RequestsEvolve(db.host, a) && NoNewRunner(db.host.requests, a.requests)
    requires a.leases == db.host.leases && a.nextLease == db.host.nextLease
    ensures Evolves(db, db.(host := a), now)
  {
  }

  lemma FencedRequests(h: Host, id: Id, reason: Reason)
    requires id in h.requests && h.requests[id].state in {Active, Inherited, Released, RecoveryRequired}
    ensures var a := h.(requests := WithState(h.requests, id, RecoveryRequired, reason));
            && RequestsEvolve(h, a) && NoNewRunner(h.requests, a.requests) && Tighter(h, a)
            && (h.requests[id].state != Released ==> NoNewHolder(h.requests, a.requests))
  {
  }

  /** A fence in place of a hold (or of nothing) keeps everything; only fencing a released
      request adds a holder to its source. */
  lemma FenceKeeps(db: Db, id: Id, reason: Reason, now: int)
    requires Settled(db)
    requires id in db.host.requests && db.host.requests[id].state in {Active, Inherited, Released, RecoveryRequired}
    ensures var d := db.(host := db.host.(requests := WithState(db.host.requests, id, RecoveryRequired, reason)));
            && Kept(db, d, now)
            && (SourcesTight(db.host) && db.host.requests[id].state != Released ==> SourcesTight(d.host))
  {
    var a := db.host.(requests := WithState(db.host.requests, id, RecoveryRequired, reason));
    FencedRequests(db.host, id, reason);
    FenceKeepsLeases(db.host, id, reason);
    FenceKeepsParents(db.host, id, reason);
    UnleasedEvolves(db, a, now);
    NoNewRunnerKeepsCapacity(db.host, a);
    TighterQuiet(db.host, a, db.work.attempts);
    if SourcesTight(db.host) && db.host.requests[id].state != Released { NoNewHolderKeepsTight(db.host, a); }
  }

  // ---- inserting ----

  lemma InsertKeepsLeases(h: Host, id: Id, row: Request)
    requires LeasesSound(h) && id !in h.requests && row.state !in {Active}
    requires row.state == Queued ==> row.parent.None?
    ensures LeasesSound(h.(requests := h.requests[id := row]))
  {
  }

  lemma InsertKeepsParents(h: Host, id: Id, row: Request)
    requires ParentsSafe(h) && id !in h.requests && row.state != Inherited
    ensures ParentsSafe(h.(requests := h.requests[id := row]))
  {
    var a := h.(requests := h.requests[id := row]);
    forall c | c in a.requests && a.requests[c].state == Inherited ensures ChildSafe(a, c) {
      assert ChildSafe(h, c);
    }
  }

  lemma InsertKeepsInv(h: Host, id: Id, row: Request)
    requires HostInv(h) && id !in h.requests && !Runs(row.state) && (row.state == Queued ==> row.parent.None?)
    ensures HostInv(h.(requests := h.requests[id := row]))
  {
    InsertKeepsLeases(h, id, row);
    InsertKeepsParents(h, id, row);
    NoNewRunnerKeepsCapacity(h, h.(requests := h.requests[id := row]));
  }

  lemma InsertedEvolves(db: Db, id: Id, row: Request, now: int)
    requires LeasesSound(db.host) && id !in db.host.requests && !Runs(row.state)
    ensures Evolves(db, db.(host := db.host.(requests := db.host.requests[id := row])), now)
  {
  }

  /** Inserting a row that runs nothing and waits, if it waits, for a reason. */
  lemma InsertKeeps(db: Db, id: Id, row: Request, now: int)
    requires Settled(db) && id !in db.host.requests && !Runs(row.state)
    requires row.state == Queued ==> row.parent.None?
    requires var a := db.host.(requests := db.host.requests[id := row]); !Eligible(a, db.work.attempts, id)
    ensures var d := db.(host := db.host.(requests := db.host.requests[id := row]));
            && Kept(db, d, now)
            && (SourcesTight(db.host) && row.state != RecoveryRequired ==> SourcesTight(d.host))
  {
    var a := db.host.(requests := db.host.requests[id := row]);
    InsertKeepsInv(db.host, id, row);
    InsertedEvolves(db, id, row, now);
    TighterQuiet(db.host, a, db.work.attempts);
    if SourcesTight(db.host) && row.state != RecoveryRequired { NoNewHolderKeepsTight(db.host, a); }
  }

  // ---- granting a new request ----

  /** `a` is `h` with a new ACTIVE row and its first lease. */
  function Granted(h: Host, id: Id, row: Request, ttl: int, now: int): Host {
    h.(requests := h.requests[id := row],
       leases := h.leases[h.nextLease := NewLease(id, row, now, ttl)],
       nextLease := h.nextLease + 1)
  }

  lemma GrantedLeases(h: Host, id: Id, row: Request, ttl: int, now: int)
    requires LeasesSound(h) && id !in h.requests && row.state == Active && row.parent.None?
    ensures LeasesSound(Granted(h, id, row, ttl, now)) && LeasesEvolve(h, Granted(h, id, row, ttl, now), now)
  {
    var g := Granted(h, id, row, ttl, now);
    forall r | r in g.requests && g.requests[r].state == Active ensures LeaseOf(g.leases, r).Some? {
      if r == id {
        assert g.leases[h.nextLease].request == id;
      } else {
        assert g.requests[r] == h.requests[r];
        assert g.leases[LeaseOf(h.leases, r).value].request == r;
      }
    }
  }

  lemma GrantedParents(h: Host, id: Id, row: Request, ttl: int, now: int)
    requires LeasesSound(h) && ParentsSafe(h) && id !in h.requests && row.state == Active
    ensures ParentsSafe(Granted(h, id, row, ttl, now))
  {
    var g := Granted(h, id, row, ttl, now);
    forall c | c in g.requests && g.requests[c].state == Inherited ensures ChildSafe(g, c) {
      assert ChildSafe(h, c);
    }
  }

  lemma InsertEvolves(h: Host, attempts: Attempts, a: Host, id: Id, row: Request)
    requires id !in h.requests && a.pools == h.pools && a.requests == h.requests[id := row]
    requires Runs(row.state) ==> !AttemptRevoked(attempts, row.attempt)
    ensures RequestsEvolve(h, a) && GrantsAuthorized(h, attempts, a) && Tighter(h, a)
  {
  }

  lemma GrantKeeps(db: Db, id: Id, row: Request, ttl: int, now: int)
    requires Settled(db) && id !in db.host.requests && row.state == Active && row.parent.None?
    requires PoolOpen(db.host, row.key) && !SlotBusy(db.host.requests, row.key, row.slot)
    requires !AttemptRevoked(db.work.attempts, row.attempt)
    ensures var d := db.(host := Granted(db.host, id, row, ttl, now));
            Kept(db, d, now) && (SourcesTight(db.host) ==> SourcesTight(d.host))
  {
    var g := Granted(db.host, id, row, ttl, now);
    GrantKeepsInvariant(db.host, id, row, ttl, now);
    GrantedLeases(db.host, id, row, ttl, now);
    InsertEvolves(db.host, db.work.attempts, g, id, row);
    TighterQuiet(db.host, g, db.work.attempts);
  }

  lemma GrantKeepsInvariant(h: Host, id: Id, row: Request, ttl: int, now: int)
    requires HostInv(h) && id !in h.requests && row.state == Active && row.parent.None?
    requires PoolOpen(h, row.key) && !SlotBusy(h.requests, row.key, row.slot)
    ensures HostInv(Granted(h, id, row, ttl, now)) && (SourcesTight(h) ==> SourcesTight(Granted(h, id, row, ttl, now)))
  {
    GrantedLeases(h, id, row, ttl, now);
    GrantedParents(h, id, row, ttl, now);
    GrantKeepsCapacity(h, id, row);
  }

  // ---- inheriting ----

  lemma InheritKeepsParents(h: Host, id: Id, row: Request, lease: Id)
    requires ParentsSafe(h) && id !in h.requests && row.state == Inherited && row.parent == Some(lease)
    requires ParentHolds(h, lease, row.key) && ChildrenOf(h.requests, lease) == {}
    ensures ParentsSafe(h.(requests := h.requests[id := row]))
  {
    var a := h.(requests := h.requests[id := row]);
    forall c | c in a.requests && a.requests[c].state == Inherited
      ensures ChildSafe(a, c)
      ensures c != id ==> a.requests[c].parent != Some(lease)
    {
      if c != id {
        assert ChildSafe(h, c);
        assert c !in ChildrenOf(h.requests, lease);
      }
    }
  }

  lemma InsertedHolders(rs: map<Id, Request>, id: Id, row: Request, s: Source)
    requires id !in rs && row.state == Inherited
    ensures SourceHeld(rs[id := row], s) == SourceHeld(rs, s) + (if SourceOf(row.key) == Some(s) then {id} else {})
  {
  }

  lemma InsertedExecuting(rs: map<Id, Request>, id: Id, row: Request, s: Source)
    requires id !in rs && row.state == Inherited
    ensures Executing(rs[id := row], s) == Executing(rs, s) + (if SourceOf(row.key) == Some(s) then {id} else {})
  {
  }

  lemma InheritKeepsSource(h: Host, id: Id, row: Request, s: Source)
    requires SourceSafe(h.requests, s) && id !in h.requests && row.state == Inherited
             && !SourceFull(h.requests, row.key)
    ensures SourceSafe(h.requests[id := row], s)
    ensures SourceTight(h.requests, s) ==> SourceTight(h.requests[id := row], s)
  {
    SubsetCard(Executing(h.requests, s), SourceHeld(h.requests, s));
    InsertedHolders(h.requests, id, row, s);
    InsertedExecuting(h.requests, id, row, s);
  }

  lemma InheritKeepsCapacity(h: Host, id: Id, row: Request)
    requires PoolsSafe(h) && SlotsSafe(h) && SourcesSafe(h)
    requires id !in h.requests && row.state == Inherited && !SourceFull(h.requests, row.key)
    ensures var a := h.(requests := h.requests[id := row]);
            PoolsSafe(a) && SlotsSafe(a) && SourcesSafe(a) && (SourcesTight(h) ==> SourcesTight(a))
  {
    var rs := h.requests[id := row];
    forall k: ResourceKey ensures PoolSafe(h.pools, rs, k) {
      assert PoolSafe(h.pools, h.requests, k);
      assert ActiveIn(rs, k) == ActiveIn(h.requests, k);
    }
    forall s: Source
      ensures SourceSafe(rs, s)
      ensures SourcesTight(h) ==> SourceTight(rs, s)
    {
      assert SourceSafe(h.requests, s);
      InheritKeepsSource(h, id, row, s);
    }
  }

  lemma InheritKeeps(db: Db, id: Id, row: Request, lease: Id, now: int)
    requires Settled(db) && id !in db.host.requests && row.state == Inherited && row.parent == Some(lease)
    requires ParentHolds(db.host, lease, row.key) && ChildrenOf(db.host.requests, lease) == {}
    requires !SourceFull(db.host.requests, row.key) && !AttemptRevoked(db.work.attempts, row.attempt)
    ensures var d := db.(host := db.host.(requests := db.host.requests[id := row]));
            Kept(db, d, now) && (SourcesTight(db.host) ==> SourcesTight(d.host))
  {
    var a := db.host.(requests := db.host.requests[id := row]);
    InsertKeepsLeases(db.host, id, row);
    InheritKeepsParents(db.host, id, row, lease);
    InheritKeepsCapacity(db.host, id, row);
    InsertEvolves(db.host, db.work.attempts, a, id, row);
    TighterQuiet(db.host, a, db.work.attempts);
  }

  // ---- the operations ----

  /** Journals (events, observations) play no part in the invariants. */
  predicate SameTables(d: Host, e: Host) {
    e.pools == d.pools && e.requests == d.requests && e.leases == d.leases && e.nextLease == d.nextLease
  }

  lemma QuietSame(d: Host, e: Host, attempts: Attempts)
    requires SameTables(d, e) && Quiet(d, attempts)
    ensures Quiet(e, attempts)
  {
    forall q | q in e.requests ensures !Eligible(e, attempts, q) {
      assert !Eligible(d, attempts, q);
      assert PoolOpen(d, d.requests[q].key) == PoolOpen(e, e.requests[q].key);
    }
  }

  lemma JournalsIrrelevant(b: Db, d: Db, e: Db, now: int)
    requires Kept(b, d, now) && SameTables(d.host, e.host) && e.work.attempts == d.work.attempts
    ensures Kept(b, e, now) && (SourcesTight(d.host) ==> SourcesTight(e.host))
  {
    QuietSame(d.host, e.host, d.work.attempts);
    SameInvariant(d.host, e.host);
    SameEvolution(b, d, e, now);
  }

  lemma SameInvariant(d: Host, e: Host)
    requires SameTables(d, e) && HostInv(d)
    ensures HostInv(e) && (SourcesTight(d) ==> SourcesTight(e))
  {
  }

  lemma SameEvolution(b: Db, d: Db, e: Db, now: int)
    requires Evolves(b, d, now) && SameTables(d.host, e.host) && e.work.attempts == d.work.attempts
    ensures Evolves(b, e, now)
  {
  }

  lemma KeptTransitive(x: Db, y: Db, z: Db, now: int)
    requires LeasesSound(x.host) && Kept(x, y, now) && Kept(y, z, now)
    ensures Kept(x, z, now)
  {
    EvolvesTransitive(x, y, z, now, now);
  }

  lemma AdmitActiveKeeps(db: Db, env: Env, ask: Ask, reason: Reason)
    requires Settled(db) && ask.id !in db.host.requests && PoolOpen(db.host, ask.key)
    requires !SlotBusy(db.host.requests, ask.key, ask.slot) && !AttemptRevoked(db.work.attempts, ask.attempt)
    ensures var row := RowFor(ask, env.now, Active, reason, None);
            var d := db.(host := Granted(db.host, ask.id, row, ask.ttl, env.now));
            Kept(db, d, env.now) && (SourcesTight(db.host) ==> SourcesTight(d.host))
  {
    GrantKeeps(db, ask.id, RowFor(ask, env.now, Active, reason, None), ask.ttl, env.now);
  }

  lemma AdmitQueuedKeeps(db: Db, env: Env, ask: Ask, reason: Reason)
    requires Settled(db) && ask.id !in db.host.requests
    requires !PoolOpen(db.host, ask.key) || SlotBusy(db.host.requests, ask.key, ask.slot)
    ensures var row := RowFor(ask, env.now, Queued, reason, None);
            var d := db.(host := db.host.(requests := db.host.requests[ask.id := row]));
            Kept(db, d, env.now) && (SourcesTight(db.host) ==> SourcesTight(d.host))
  {
    var row := RowFor(ask, env.now, Queued, reason, None);
    var a := db.host.(requests := db.host.requests[ask.id := row]);
    assert Held(a.requests, ask.key) == Held(db.host.requests, ask.key);
    if SourceOf(ask.key).Some? {
      assert SourceHeld(a.requests, SourceOf(ask.key).value) == SourceHeld(db.host.requests, SourceOf(ask.key).value);
    }
    InsertKeeps(db, ask.id, row, env.now);
  }

  lemma AdmitKeeps(db: Db, env: Env, ask: Ask, rejected: Option<Reason>)
    requires Settled(db) && ask.id !in db.host.requests
    requires PoolUsable(db.host, ask.key) && CapacityValid(ask.key, db.host.pools[ask.key].capacity)
    requires !AttemptRevoked(db.work.attempts, ask.attempt)
    ensures var d := Admit(db, env, ask, db.host.pools[ask.key].capacity, rejected).db;
            Kept(db, d, env.now) && (SourcesTight(db.host) ==> SourcesTight(d.host))
  {
    var capacity := db.host.pools[ask.key].capacity;
    var (state, reason) := Admission(db.host, ask, capacity, rejected);
    var row := RowFor(ask, env.now, state, reason, None);
    var d := Admit(db, env, ask, capacity, rejected).db;
    if state == Active {
      AdmitActiveKeeps(db, env, ask, reason);
      JournalsIrrelevant(db, db.(host := Granted(db.host, ask.id, row, ask.ttl, env.now)), d, env.now);
    } else {
      AdmitQueuedKeeps(db, env, ask, reason);
      JournalsIrrelevant(db, db.(host := db.host.(requests := db.host.requests[ask.id := row])), d, env.now);
    }
  }

  lemma InheritStepKeeps(db: Db, env: Env, ask: Ask, lease: Id)
    requires Settled(db) && ask.id !in db.host.requests
    requires InheritRejection(db.host, ask, lease, env.now).None?
    requires !SourceFull(db.host.requests, ask.key) && !AttemptRevoked(db.work.attempts, ask.attempt)
    ensures var d := Inherit(db, env, ask, lease).db;
            Kept(db, d, env.now) && (SourcesTight(db.host) ==> SourcesTight(d.host))
  {
    var d := Inherit(db, env, ask, lease).db;
    if ChildrenOf(db.host.requests, lease) != {} {
      var row := RowFor(ask, env.now, Quarantined, InheritedChildBusy, Some(lease));
      InsertKeeps(db, ask.id, row, env.now);
      JournalsIrrelevant(db, db.(host := db.host.(requests := db.host.requests[ask.id := row])), d, env.now);
    } else {
      var row := RowFor(ask, env.now, Inherited, NoReason, Some(lease));
      InheritKeeps(db, ask.id, row, lease, env.now);
      JournalsIrrelevant(db, db.(host := db.host.(requests := db.host.requests[ask.id := row])), d, env.now);
    }
  }

  lemma AdmitOrInheritKeeps(db: Db, swept: Db, env: Env, ask: Ask)
    requires Settled(db) && Settled(swept) && ask.id !in swept.host.requests
    requires PoolUsable(swept.host, ask.key) && CapacityValid(ask.key, swept.host.pools[ask.key].capacity)
    requires !AttemptRevoked(swept.work.attempts, ask.attempt)
    ensures var d := AdmitOrInherit(db, swept, env, ask, swept.host.pools[ask.key].capacity).db;
            d == db || (Kept(swept, d, env.now) && (SourcesTight(swept.host) ==> SourcesTight(d.host)))
  {
    if ask.inherit.None? {
      AdmitKeeps(swept, env, ask, None);
    } else if !SourceFull(swept.host.requests, ask.key) {
      var rejected := InheritRejection(swept.host, ask, ask.inherit.value, env.now);
      if rejected.None? {
        InheritStepKeeps(swept, env, ask, ask.inherit.value);
      } else {
        AdmitKeeps(swept, env, ask, rejected);
      }
    }
  }

  /** The tables a request may leave behind: untouched, swept, or decided on the swept ones. */
  lemma RequestReaches(db: Db, env: Env, ask: Ask)
    ensures var d := RequestStep(db, env, ask).db; var swept := Sweep(db, env).db;
            || d == db
            || d == swept
            || (&& PoolUsable(db.host, ask.key) && CapacityValid(ask.key, db.host.pools[ask.key].capacity)
                && !AttemptRevoked(swept.work.attempts, ask.attempt)
                && d == AdmitOrInherit(db, swept, env, ask, db.host.pools[ask.key].capacity).db)
  {
  }

  lemma DecisionKeeps(db: Db, swept: Db, env: Env, ask: Ask)
    requires Settled(db) && Kept(db, swept, env.now) && ask.id !in swept.host.requests
    requires SourcesTight(db.host) ==> SourcesTight(swept.host)
    requires PoolUsable(db.host, ask.key) && CapacityValid(ask.key, db.host.pools[ask.key].capacity)
    requires !AttemptRevoked(swept.work.attempts, ask.attempt)
    ensures var d := AdmitOrInherit(db, swept, env, ask, db.host.pools[ask.key].capacity).db;
            Kept(db, d, env.now) && (SourcesTight(db.host) ==> SourcesTight(d.host))
  {
    AdmitOrInheritKeeps(db, swept, env, ask);
    var d := AdmitOrInherit(db, swept, env, ask, db.host.pools[ask.key].capacity).db;
    if d == db {
      EvolvesReflexive(db, env.now);
    } else {
      KeptTransitive(db, swept, d, env.now);
    }
  }

  lemma RequestKeeps(db: Db, env: Env, ask: Ask)
    requires Settled(db) && ask.id !in db.host.requests
    ensures var d := RequestStep(db, env, ask).db;
            Kept(db, d, env.now) && (SourcesTight(db.host) ==> SourcesTight(d.host))
  {
    RequestReaches(db, env, ask);
    EvolvesReflexive(db, env.now);
    SweepSettles(db, env);
    var swept := Sweep(db, env).db;
    var d := RequestStep(db, env, ask).db;
    if d != db && d != swept { DecisionKeeps(db, swept, env, ask); }
  }

  /** Lease rows rewritten in place, never past an expiry. */
  ghost predicate RowsRewritten(h: Host, a: Host, now: int) {
    && a == h.(leases := a.leases) && a.leases.Keys == h.leases.Keys
    && forall l | l in a.leases ::
         && a.leases[l].request == h.leases[l].request && a.leases[l].key == h.leases[l].key
         && (h.leases[l].expiresAt <= now ==> a.leases[l].expiresAt == h.leases[l].expiresAt)
  }

  lemma RewrittenLeases(h: Host, a: Host, now: int)
    requires LeasesSound(h) && RowsRewritten(h, a, now)
    ensures LeasesSound(a)
  {
    forall r | r in a.requests && a.requests[r].state == Active ensures LeaseOf(a.leases, r).Some? {
      var l := LeaseOf(h.leases, r).value;
      assert l in a.leases && a.leases[l].request == r;
    }
  }

  lemma RewrittenParents(h: Host, a: Host, now: int)
    requires ParentsSafe(h) && RowsRewritten(h, a, now)
    ensures ParentsSafe(a)
  {
    forall c | c in a.requests && a.requests[c].state == Inherited ensures ChildSafe(a, c) {
      assert ChildSafe(h, c);
    }
  }

  lemma RewrittenEvolves(db: Db, a: Host, now: int)
    requires RowsRewritten(db.host, a, now)
    ensures Evolves(db, db.(host := a), now) && Tighter(db.host, a)
  {
  }

  lemma RewrittenKeeps(db: Db, a: Host, now: int)
    requires Settled(db) && RowsRewritten(db.host, a, now)
    ensures Kept(db, db.(host := a), now) && (SourcesTight(db.host) ==> SourcesTight(a))
  {
    RewrittenLeases(db.host, a, now);
    RewrittenParents(db.host, a, now);
    RewrittenEvolves(db, a, now);
    NoNewRunnerKeepsCapacity(db.host, a);
    TighterQuiet(db.host, a, db.work.attempts);
    if SourcesTight(db.host) { NoNewHolderKeepsTight(db.host, a); }
  }

  lemma HeartbeatRewrites(db: Db, env: Env, lease: Id, sequence: int, ttl: int)
    ensures var d := HeartbeatStep(db, env, lease, sequence, ttl).db;
            d == db.(host := d.host) && RowsRewritten(db.host, d.host, env.now)
  {
  }

  lemma HeartbeatKeeps(db: Db, env: Env, lease: Id, sequence: int, ttl: int)
    requires Settled(db)
    ensures var d := HeartbeatStep(db, env, lease, sequence, ttl).db;
            Kept(db, d, env.now) && (SourcesTight(db.host) ==> SourcesTight(d.host))
  {
    HeartbeatRewrites(db, env, lease, sequence, ttl);
    RewrittenKeeps(db, HeartbeatStep(db, env, lease, sequence, ttl).db.host, env.now);
  }

  lemma AttachKeeps(db: Db, lease: Id, process: Identity, now: int)
    requires Settled(db)
    ensures var d := AttachToLease(db, lease, process);
            Kept(db, d, now) && (SourcesTight(db.host) ==> SourcesTight(d.host))
  {
    var a := AttachToLease(db, lease, process).host;
    assert RowsRewritten(db.host, a, now);
    RewrittenKeeps(db, a, now);
  }

  // ---- release and recover ----

  lemma LeaselessOrChildfree(h: Host, id: Id)
    requires LeasesSound(h) && id in h.requests && !HasChildren(h, LeaseOf(h.leases, id))
    ensures Childless(h, id)
  {
    forall c | c in h.requests && c != id && h.requests[c].state == Inherited && h.requests[c].parent.Some?
               && h.requests[c].parent.value in h.leases
      ensures h.leases[h.requests[c].parent.value].request != id
    {
      var l := h.requests[c].parent.value;
      assert c in ChildrenOf(h.requests, l);
      assert h.leases[l].request == id ==> LeaseOf(h.leases, id) == Some(l);
    }
  }

  lemma MarkReleasedEvolves(h: Host, id: Id, reason: Reason, now: int)
    requires id in h.requests && h.requests[id].state in {Queued, Active, Inherited, RecoveryRequired}
    ensures var a := MarkReleased(h, id, reason, now);
            RequestsEvolve(h, a) && NoNewRunner(h.requests, a.requests) && NoNewHolder(h.requests, a.requests)
  {
  }

  lemma MarkReleasedNarrows(h: Host, id: Id, reason: Reason, now: int)
    requires LeasesSound(h) && ParentsSafe(h) && Childless(h, id)
    requires id in h.requests && h.requests[id].state in {Queued, Active, Inherited, RecoveryRequired}
    ensures Narrows(h, MarkReleased(h, id, reason, now))
  {
    var a := MarkReleased(h, id, reason, now);
    MarkReleasedEvolves(h, id, reason, now);
    forall c | c in a.requests && a.requests[c].state == Inherited && a.requests[c].parent.Some?
               && a.requests[c].parent.value in h.leases
      ensures !HolderReleased(a.(leases := h.leases), a.requests[c].parent.value)
    {
      MarkReleasedNoOrphan(h, id, reason, now, c);
    }
  }

  lemma MarkReleasedNoOrphan(h: Host, id: Id, reason: Reason, now: int, c: Id)
    requires LeasesSound(h) && ParentsSafe(h) && Childless(h, id) && id in h.requests
    requires c in h.requests && c != id && h.requests[c].state == Inherited
    ensures h.requests[c].parent.Some?
            && !HolderReleased(MarkReleased(h, id, reason, now).(leases := h.leases), h.requests[c].parent.value)
  {
    assert ChildSafe(h, c);
  }

  lemma MarkReleasedFrees(h: Host, attempts: Attempts, id: Id, reason: Reason, now: int)
    requires id in h.requests && h.requests[id].state in {Queued, Active, Inherited, RecoveryRequired}
    ensures HostPromotion.Freed(h, attempts, MarkReleased(h, id, reason, now), attempts, id)
  {
  }

  lemma FreeKeeps(db: Db, env: Env, id: Id, reason: Reason, attested: bool)
    requires Settled(db) && id in db.host.requests
    requires db.host.requests[id].state in {Queued, Active, Inherited, RecoveryRequired}
    requires !HasChildren(db.host, LeaseOf(db.host.leases, id))
    ensures var d := FreeAndPromote(db, env, id, reason, attested).db;
            Kept(db, d, env.now) && (SourcesTight(db.host) ==> SourcesTight(d.host))
            && d.host.requests[id].state == Released
  {
    var released := MarkReleased(db.host, id, reason, env.now);
    LeaselessOrChildfree(db.host, id);
    MarkReleasedNarrows(db.host, id, reason, env.now);
    MarkReleasedEvolves(db.host, id, reason, env.now);
    if SourcesTight(db.host) { NoNewHolderKeepsTight(db.host, released); }
    MarkReleasedFrees(db.host, db.work.attempts, id, reason, env.now);
    ReleaseThenPromote(db, released, db.work, id, env.now);
  }

  lemma ReleaseKeeps(db: Db, env: Env, id: Id, reason: Reason)
    requires Settled(db)
    ensures var d := ReleaseStep(db, env, id, reason).db;
            Kept(db, d, env.now) && (SourcesTight(db.host) ==> SourcesTight(d.host))
  {
    EvolvesReflexive(db, env.now);
    if id in db.host.requests && db.host.requests[id].state in {Queued, Active, Inherited} {
      if !HasChildren(db.host, LeaseOf(db.host.leases, id)) { FreeKeeps(db, env, id, reason, false); }
    }
  }

  lemma RecoverFrees(db: Db, env: Env, id: Id, attests: bool, explains: bool)
    ensures var r := RecoverStep(db, env, id, attests, explains);
            if r.outcome.Freed? then
              && id in db.host.requests && db.host.requests[id].state == RecoveryRequired
              && !HasChildren(db.host, LeaseOf(db.host.leases, id))
              && r == FreeAndPromote(db, env, id, if r.outcome.attested then RecoveryAttested else RecoveryOwnerGone,
                                     r.outcome.attested)
            else r.db == db
  {
  }

  lemma RecoverKeeps(db: Db, env: Env, id: Id, attests: bool, explains: bool)
    requires Settled(db)
    ensures var d := RecoverStep(db, env, id, attests, explains).db;
            Kept(db, d, env.now) && (SourcesTight(db.host) ==> SourcesTight(d.host))
  {
    EvolvesReflexive(db, env.now);
    RecoverFrees(db, env, id, attests, explains);
    var outcome := RecoverStep(db, env, id, attests, explains).outcome;
    if outcome.Freed? {
      FreeKeeps(db, env, id, if outcome.attested then RecoveryAttested else RecoveryOwnerGone, outcome.attested);
    }
  }

  /** What a recovery has to show before the call: the row is fenced and no child inherits from it; the
      process on its lease is gone, or nobody can tell and the operator attests with a reason; and for a
      provider hold the operator attests with a reason in any case. */
  predicate RecoveryGranted(h: Host, env: Env, id: Id, attested: bool) {
    && id in h.requests && h.requests[id].state == RecoveryRequired
    && (LeaseOf(h.leases, id).Some? ==> ChildrenOf(h.requests, LeaseOf(h.leases, id).value) == {})
    && (LeaseOf(h.leases, id).None? ==> !HasChildren(h, h.requests[id].parent))
    && (forall i | i in ProcessOf(h, LeaseOf(h.leases, id)) :: env.liveness(i) != Alive)
    && (attested || (&& SourceOf(h.requests[id].key).None?
                     && exists i :: i in ProcessOf(h, LeaseOf(h.leases, id)) && env.liveness(i) == Gone))
  }

  /** A recorded process of the request is running. */
  ghost predicate StillRuns(h: Host, env: Env, id: Id)
    requires id in h.requests
  {
    exists i :: i in OwnIdentities(h, id) && env.liveness(i) == Alive
  }

  lemma RecoveryFrees(db: Db, env: Env, id: Id, attests: bool, explains: bool)
    ensures RecoverStep(db, env, id, attests, explains).outcome.Freed?
       <==> RecoveryGranted(db.host, env, id, attests && explains)
  {
    if id in db.host.requests {
      var own := ProcessOf(db.host, LeaseOf(db.host.leases, id));
      assert own == [] || own == [own[0]];
    }
  }

  /** Recovery releases a request while one of its recorded processes is running exactly when it has
      what recovery asks for and that process is the owner on the request row, which recovery never
      looks at. */
  lemma RecoveryOverridesOnlyRequestOwner(db: Db, env: Env, id: Id, attests: bool, explains: bool)
    ensures (&& RecoverStep(db, env, id, attests, explains).outcome.Freed?
             && id in db.host.requests && StillRuns(db.host, env, id))
       <==> (&& RecoveryGranted(db.host, env, id, attests && explains)
             && db.host.requests[id].owner.Some? && env.liveness(db.host.requests[id].owner.value) == Alive)
  {
    RecoveryFrees(db, env, id, attests, explains);
    if RecoveryGranted(db.host, env, id, attests && explains) {
      var owner := Recorded(db.host.requests[id].owner);
      assert OwnIdentities(db.host, id) == ProcessOf(db.host, LeaseOf(db.host.leases, id)) + owner;
      if db.host.requests[id].owner.Some? { assert owner[0] in OwnIdentities(db.host, id); }
    }
  }

  // ---- fences ----

  lemma FenceJournaled(db: Db, e: Host, id: Id, reason: Reason, now: int)
    requires Settled(db)
    requires id in db.host.requests && db.host.requests[id].state in {Active, Inherited, Released, RecoveryRequired}
    requires SameTables(db.host.(requests := WithState(db.host.requests, id, RecoveryRequired, reason)), e)
    ensures Kept(db, db.(host := e), now)
    ensures SourcesTight(db.host) && db.host.requests[id].state != Released ==> SourcesTight(e)
  {
    FenceKeeps(db, id, reason, now);
    var d := db.(host := db.host.(requests := WithState(db.host.requests, id, RecoveryRequired, reason)));
    JournalsIrrelevant(db, d, db.(host := e), now);
  }

  lemma UncertainKeeps(db: Db, env: Env, id: Id, attempt: AttemptId, agent: Id, reason: Reason)
    requires Settled(db)
    ensures var d := UncertainStep(db, env, id, attempt, agent, reason).db;
            Kept(db, d, env.now) && (SourcesTight(db.host) ==> SourcesTight(d.host))
  {
    EvolvesReflexive(db, env.now);
    if id in db.host.requests && db.host.requests[id].state in {Active, Inherited} {
      FenceJournaled(db, MarkFenced(db.host, id, reason, env.now), id, reason, env.now);
    }
  }

  lemma MarkRecoveryKeeps(db: Db, env: Env, id: Id, reason: Reason)
    requires Settled(db)
    ensures var d := MarkRecoveryStep(db, env, id, reason);
            Kept(db, d, env.now) && (SourcesTight(db.host) ==> SourcesTight(d.host))
  {
    EvolvesReflexive(db, env.now);
    if id in db.host.requests && db.host.requests[id].state in {Active, Inherited} {
      FenceJournaled(db, MarkRecoveryStep(db, env, id, reason).host, id, reason, env.now);
    }
  }

  function FenceFirst(host: Host, lease: Id, now: int): Host
    requires lease in host.leases && host.leases[lease].request in host.requests
  {
    var id := host.leases[lease].request;
    host.(requests := WithState(host.requests, id, RecoveryRequired, LeaseExpired),
          events := host.events + [HostEvent(id, Some(lease), Some(Active), RecoveryRequired, LeaseExpired, now)])
  }

  ghost predicate HeldLeases(host: Host, rows: seq<Id>) {
    forall l | l in rows ::
      && l in host.leases && host.leases[l].request in host.requests
      && HoldsPool(host.requests[host.leases[l].request].state)
  }

  lemma {:induction false} FenceExpiredKeeps(db: Db, rows: seq<Id>, now: int)
    requires Settled(db) && HeldLeases(db.host, rows)
    ensures var d := db.(host := FenceExpired(db.host, rows, now));
            Kept(db, d, now) && (SourcesTight(db.host) ==> SourcesTight(d.host))
    decreases |rows|
  {
    EvolvesReflexive(db, now);
    if rows != [] {
      var first := db.(host := FenceFirst(db.host, rows[0], now));
      FenceFirstKeeps(db, rows, now);
      FenceExpiredKeeps(first, rows[1..], now);
      KeptTransitive(db, first, db.(host := FenceExpired(db.host, rows, now)), now);
    }
  }

  lemma FenceFirstKeeps(db: Db, rows: seq<Id>, now: int)
    requires Settled(db) && rows != [] && HeldLeases(db.host, rows)
    ensures var first := db.(host := FenceFirst(db.host, rows[0], now));
            Kept(db, first, now) && HeldLeases(first.host, rows[1..])
            && (SourcesTight(db.host) ==> SourcesTight(first.host))
  {
    FenceJournaled(db, FenceFirst(db.host, rows[0], now), db.host.leases[rows[0]].request, LeaseExpired, now);
    FenceFirstHolds(db.host, rows, now);
  }

  lemma FenceFirstHolds(host: Host, rows: seq<Id>, now: int)
    requires rows != [] && HeldLeases(host, rows)
    ensures HeldLeases(FenceFirst(host, rows[0], now), rows[1..])
  {
  }

  /** Which requests end up fenced, and nothing else moves. */
  lemma {:induction false} FenceExpiredStates(host: Host, rows: seq<Id>, now: int)
    requires HeldLeases(host, rows)
    ensures var h := FenceExpired(host, rows, now);
            && h.leases == host.leases && h.requests.Keys == host.requests.Keys
            && (forall l | l in rows :: h.requests[host.leases[l].request].state == RecoveryRequired)
            && (forall r | r in host.requests :: h.requests[r].state == host.requests[r].state
                                             || h.requests[r].state == RecoveryRequired)
    decreases |rows|
  {
    if rows != [] {
      var first := FenceFirst(host, rows[0], now);
      assert HeldLeases(first, rows[1..]);
      FenceExpiredStates(first, rows[1..], now);
      forall l | l in rows
        ensures FenceExpired(host, rows, now).requests[host.leases[l].request].state == RecoveryRequired
      {
        if l != rows[0] { assert l in rows[1..]; }
      }
    }
  }

  lemma ReconcileKeeps(db: Db, env: Env)
    requires Settled(db)
    ensures var d := ReconcileStep(db, env).db;
            Kept(db, d, env.now) && (SourcesTight(db.host) ==> SourcesTight(d.host))
  {
    EvolvesReflexive(db, env.now);
    if NeedsReconcile(db.host, env.now) {
      SweepSettles(db, env);
      var swept := Sweep(db, env).db;
      var rows := ExpiredLeases(swept.host, env.now);
      FenceExpiredKeeps(swept, rows, env.now);
      KeptTransitive(db, swept, swept.(host := FenceExpired(swept.host, rows, env.now)), env.now);
    }
  }

  /** After a reconcile no ACTIVE request holds a lease that expired before now. */
  lemma ReconcileFencesExpired(db: Db, env: Env)
    requires Settled(db)
    ensures var h := ReconcileStep(db, env).db.host;
            forall l | l in h.leases && h.leases[l].request in h.requests
                       && h.requests[h.leases[l].request].state == Active :: h.leases[l].expiresAt >= env.now
  {
    var h := ReconcileStep(db, env).db.host;
    if NeedsReconcile(db.host, env.now) {
      var swept := Sweep(db, env).db;
      FenceExpiredStates(swept.host, ExpiredLeases(swept.host, env.now), env.now);
    } else {
      assert forall l :: l !in ExpiredLeases(db.host, env.now);
    }
  }

  // ---- imported observations ----

  lemma RetainNewKeeps(db: Db, env: Env, id: Id, k: ObservationKey, details: ObservationDetails)
    requires Settled(db) && id !in db.host.requests
    ensures Kept(db, RetainNew(db, env, id, k, details).db, env.now)
  {
    var d := RetainNew(db, env, id, k, details).db;
    InsertKeeps(db, id, d.host.requests[id], env.now);
    JournalsIrrelevant(db, db.(host := db.host.(requests := d.host.requests)), d, env.now);
  }

  lemma RetainExistingKeeps(db: Db, env: Env, id: Id, k: ObservationKey, details: ObservationDetails)
    requires Settled(db) && id in db.host.requests
    ensures Kept(db, RetainExisting(db, env, id, k, details).db, env.now)
  {
    EvolvesReflexive(db, env.now);
    if db.host.requests[id].state in {Active, Inherited, Released, RecoveryRequired} {
      FenceJournaled(db, RetainExisting(db, env, id, k, details).db.host, id, ProviderRetainedAttempt, env.now);
    }
  }

  lemma RetainKeeps(db: Db, env: Env, id: Id, key: ResourceKey, observation: Id, details: ObservationDetails)
    requires Settled(db) && id !in db.host.requests
    ensures Kept(db, RetainStep(db, env, id, key, observation, details).db, env.now)
  {
    RetainReaches(db, env, id, key, observation, details);
    if RetainStep(db, env, id, key, observation, details).db == db {
      EvolvesReflexive(db, env.now);
    } else {
      var k := ObservationKey(key.source, observation);
      var binding := Bind(db.host, key.source, details);
      if binding.Row? {
        RetainExistingKeeps(db, env, binding.id, k, details);
      } else {
        RetainNewKeeps(db, env, id, k, details);
      }
    }
  }

  /** The tables an import may leave behind: untouched, with the bound row fenced, or with a new one. */
  lemma RetainReaches(db: Db, env: Env, id: Id, key: ResourceKey, observation: Id, details: ObservationDetails)
    ensures var d := RetainStep(db, env, id, key, observation, details).db;
            || d == db
            || (&& key.ProviderPool?
                && var k := ObservationKey(key.source, observation);
                   match Bind(db.host, key.source, details)
                   case Row(e) => d == RetainExisting(db, env, e, k, details).db
                   case NoRow => d == RetainNew(db, env, id, k, details).db
                   case NoBinding(_) => false)
  {
  }

  // ---- unleased consumers and process records ----

  lemma LogFocusedKeeps(db: Db, env: Env, ask: Ask)
    requires Settled(db) && ask.id !in db.host.requests
    ensures var d := LogFocusedStep(db, env, ask).db;
            Kept(db, d, env.now) && (SourcesTight(db.host) ==> SourcesTight(d.host))
  {
    EvolvesReflexive(db, env.now);
    var d := LogFocusedStep(db, env, ask).db;
    if ask.id in d.host.requests {
      InsertKeeps(db, ask.id, d.host.requests[ask.id], env.now);
      JournalsIrrelevant(db, db.(host := db.host.(requests := d.host.requests)), d, env.now);
    }
  }

  /** Owner columns rewritten on request rows. */
  ghost predicate OwnersRewritten(h: Host, a: Host) {
    && a == h.(requests := a.requests) && a.requests.Keys == h.requests.Keys
    && forall r | r in h.requests :: SameRow(h.requests[r], a.requests[r]) && a.requests[r].state == h.requests[r].state
  }

  lemma OwnersParents(h: Host, a: Host)
    requires ParentsSafe(h) && OwnersRewritten(h, a)
    ensures ParentsSafe(a)
  {
    forall c | c in a.requests && a.requests[c].state == Inherited ensures ChildSafe(a, c) {
      assert ChildSafe(h, c);
    }
  }

  lemma OwnersKeep(db: Db, a: Host, now: int)
    requires Settled(db) && OwnersRewritten(db.host, a)
    ensures Kept(db, db.(host := a), now) && (SourcesTight(db.host) ==> SourcesTight(a))
  {
    OwnersKeepInv(db.host, a);
    TighterQuiet(db.host, a, db.work.attempts);
    UnleasedEvolves(db, a, now);
    if SourcesTight(db.host) { NoNewHolderKeepsTight(db.host, a); }
  }

  lemma OwnersKeepInv(h: Host, a: Host)
    requires HostInv(h) && OwnersRewritten(h, a)
    ensures HostInv(a)
  {
    OwnersKeepLeases(h, a);
    OwnersParents(h, a);
    NoNewRunnerKeepsCapacity(h, a);
  }

  lemma OwnersKeepLeases(h: Host, a: Host)
    requires LeasesSound(h) && OwnersRewritten(h, a)
    ensures LeasesSound(a)
  {
  }

  lemma AttachRequestKeeps(db: Db, env: Env, id: Id, process: Identity)
    requires Settled(db)
    ensures var d := AttachToRequest(db, env, id, process);
            Kept(db, d, env.now) && (SourcesTight(db.host) ==> SourcesTight(d.host))
  {
    var a := AttachToRequest(db, env, id, process).host;
    assert OwnersRewritten(db.host, a);
    OwnersKeep(db, a, env.now);
  }
}
