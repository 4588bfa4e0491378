/** What every operation of the host-resource manager keeps, and how one state of the
    tables may follow another, proved for the elementary changes they are made of. */
module HostInvariant {
  import opened Collections
  import opened HostModel
  import opened ConductorModel
  import opened HostPromotion

  // ---- invariants ----

  /** Leases: one per request, only for granted requests, every ACTIVE request has one. */
  ghost predicate LeasesSound(h: Host) {
    && (forall l | l in h.leases ::
          && l < h.nextLease
          && h.leases[l].request in h.requests
          && h.leases[l].key == h.requests[h.leases[l].request].key
          && h.requests[h.leases[l].request].state in {Active, RecoveryRequired, Released})
    && (forall l, m | l in h.leases && m in h.leases && h.leases[l].request == h.leases[m].request :: l == m)
    && (forall r | r in h.requests && h.requests[r].state == Active :: LeaseOf(h.leases, r).Some?)
    && (forall r | r in h.requests && h.requests[r].state in {Queued, Active} :: h.requests[r].parent.None?)
  }

  /** A child's parent lease exists and its request still holds the same pool. */
  predicate ParentHolds(h: Host, lease: Id, key: ResourceKey) {
    && lease in h.leases
    && h.leases[lease].request in h.requests
    && HoldsPool(h.requests[h.leases[lease].request].state)
    && h.requests[h.leases[lease].request].key == key
  }

  predicate ChildSafe(h: Host, c: Id)
    requires c in h.requests
  {
    h.requests[c].parent.Some? && ParentHolds(h, h.requests[c].parent.value, h.requests[c].key)
  }

  /** Inheritance: every child's parent still holds, and no two children share a parent. */
  ghost predicate ParentsSafe(h: Host) {
    && (forall c | c in h.requests && h.requests[c].state == Inherited :: ChildSafe(h, c))
    && OneChildEach(h.requests)
  }

  ghost predicate OneChildEach(requests: map<Id, Request>) {
    forall c, d | c in requests && d in requests && requests[c].state == Inherited
                  && requests[d].state == Inherited && requests[c].parent == requests[d].parent :: c == d
  }

  function ActiveIn(requests: map<Id, Request>, key: ResourceKey): set<Id> {
    set r | r in requests && requests[r].key == key && requests[r].state == Active
  }

  function Executing(requests: map<Id, Request>, source: Source): set<Id> {
    set r | r in requests && SourceOf(requests[r].key) == Some(source) && requests[r].state in {Active, Inherited}
  }

  /** Capacity: ACTIVE per pool, slot exclusivity, ACTIVE and INHERITED per source. */
  predicate PoolSafe(pools: map<ResourceKey, Pool>, requests: map<Id, Request>, k: ResourceKey) {
    ActiveIn(requests, k) == {} || (k in pools && |ActiveIn(requests, k)| <= pools[k].capacity)
  }

  ghost predicate PoolsSafe(h: Host) { forall k: ResourceKey :: PoolSafe(h.pools, h.requests, k) }

  ghost predicate SlotsSafe(h: Host) {
    forall q, r | q in h.requests && r in h.requests && h.requests[q].state == Active && h.requests[r].state == Active
                  && h.requests[q].key == h.requests[r].key && h.requests[q].slot.Some?
                  && h.requests[q].slot == h.requests[r].slot :: q == r
  }

  predicate SourceSafe(requests: map<Id, Request>, s: Source) { |Executing(requests, s)| <= SourceCapacity(s) }

  ghost predicate SourcesSafe(h: Host) { forall s: Source :: SourceSafe(h.requests, s) }

  /** The tighter source bound, which only imported observations can break. */
  predicate SourceTight(requests: map<Id, Request>, s: Source) { |SourceHeld(requests, s)| <= SourceCapacity(s) }

  ghost predicate SourcesTight(h: Host) { forall s: Source :: SourceTight(h.requests, s) }

  ghost predicate HostInv(h: Host) {
    LeasesSound(h) && ParentsSafe(h) && PoolsSafe(h) && SlotsSafe(h) && SourcesSafe(h)
  }

  // ---- how tables evolve ----

  predicate SameRow(b: Request, a: Request) {
    && a.idempotencyKey == b.idempotencyKey && a.key == b.key && a.command == b.command
    && a.attempt == b.attempt && a.agent == b.agent && a.priority == b.priority && a.parent == b.parent
    && a.createdAt == b.createdAt && a.slot == b.slot
  }

  /** The states a request may be in later, given its state now. */
  predicate Later(b: RequestState, a: RequestState) {
    || a == b
    || (b == Queued && a in {Active, RecoveryRequired, Released})
    || (b in {Active, Inherited, RecoveryRequired, Released} && a in {RecoveryRequired, Released})
  }

  predicate Runs(state: RequestState) { state == Active || state == Inherited }

  ghost predicate RequestsEvolve(b: Host, a: Host) {
    && a.pools == b.pools
    && forall r | r in b.requests ::
         r in a.requests && SameRow(b.requests[r], a.requests[r]) && Later(b.requests[r].state, a.requests[r].state)
  }

  /** A request starts to run only while its attempt is not revoked. */
  ghost predicate GrantsAuthorized(b: Host, attempts: Attempts, a: Host) {
    forall r | r in a.requests && Runs(a.requests[r].state) ::
      || (r in b.requests && b.requests[r].state == a.requests[r].state)
      || !AttemptRevoked(attempts, a.requests[r].attempt)
  }

  /** A lease is old, and then an expiry already past stays, or it is the first of a new grant. */
  ghost predicate LeasesEvolve(b: Host, a: Host, now: int) {
    && b.nextLease <= a.nextLease
    && forall l | l in a.leases ::
         || (&& l in b.leases && a.leases[l].request == b.leases[l].request
             && (b.leases[l].expiresAt <= now ==> a.leases[l].expiresAt == b.leases[l].expiresAt))
         || (&& l >= b.nextLease
             && (a.leases[l].request in b.requests ==> b.requests[a.leases[l].request].state == Queued))
  }

  ghost predicate RevocationsKept(b: Attempts, a: Attempts) {
    && (forall x | x in b :: x in a && a[x].item == b[x].item && (b[x].status == Unknown ==> a[x].status == Unknown))
    && (forall x | AttemptRevoked(b, x) :: AttemptRevoked(a, x))
  }

  ghost predicate Evolves(b: Db, a: Db, now: int) {
    && RequestsEvolve(b.host, a.host)
    && GrantsAuthorized(b.host, b.work.attempts, a.host)
    && LeasesEvolve(b.host, a.host, now)
    && RevocationsKept(b.work.attempts, a.work.attempts)
  }

  lemma EvolvesTransitive(x: Db, y: Db, z: Db, n: int, m: int)
    requires Evolves(x, y, n) && Evolves(y, z, m) && n <= m
    requires LeasesSound(x.host)
    ensures Evolves(x, z, n)
  {
    RequestsTransitive(x.host, y.host, z.host);
    GrantsTransitive(x, y, z.host);
    LeasesTransitive(x.host, y.host, z.host, n, m);
  }

  lemma RequestsTransitive(x: Host, y: Host, z: Host)
    requires RequestsEvolve(x, y) && RequestsEvolve(y, z)
    ensures RequestsEvolve(x, z)
  {
  }

  lemma GrantsTransitive(x: Db, y: Db, z: Host)
    requires RequestsEvolve(x.host, y.host) && RevocationsKept(x.work.attempts, y.work.attempts)
    requires GrantsAuthorized(x.host, x.work.attempts, y.host) && GrantsAuthorized(y.host, y.work.attempts, z)
    requires RequestsEvolve(y.host, z)
    ensures GrantsAuthorized(x.host, x.work.attempts, z)
  {
  }

  lemma LeasesTransitive(x: Host, y: Host, z: Host, n: int, m: int)
    requires LeasesEvolve(x, y, n) && LeasesEvolve(y, z, m) && n <= m && RequestsEvolve(x, y)
    requires forall l | l in x.leases :: l < x.nextLease
    ensures LeasesEvolve(x, z, n)
  {
  }

  // ---- promotion ----

  lemma PromoteLeases(h: Host, q: Id, now: int)
    requires LeasesSound(h) && q in h.requests && h.requests[q].state == Queued
    ensures LeasesSound(Promote(h, q, now)) && LeasesEvolve(h, Promote(h, q, now), now)
  {
    var g := Promote(h, q, now);
    PromoteLeaseRows(h, q, now);
    forall r | r in g.requests && g.requests[r].state == Active ensures LeaseOf(g.leases, r).Some? {
      if r == q {
        assert g.leases[h.nextLease].request == q;
      } else {
        assert g.requests[r] == h.requests[r];
        var l := LeaseOf(h.leases, r).value;
        assert g.leases[l].request == r;
      }
    }
  }

  lemma PromoteLeaseRows(h: Host, q: Id, now: int)
    requires LeasesSound(h) && q in h.requests && h.requests[q].state == Queued
    ensures LeasesEvolve(h, Promote(h, q, now), now)
    ensures var g := Promote(h, q, now);
            forall l | l in g.leases ::
              && l < g.nextLease && g.leases[l].request in g.requests
              && g.leases[l].key == g.requests[g.leases[l].request].key
              && g.requests[g.leases[l].request].state in {Active, RecoveryRequired, Released}
  {
  }

  lemma PromoteParents(h: Host, q: Id, now: int)
    requires LeasesSound(h) && ParentsSafe(h) && q in h.requests && h.requests[q].state == Queued
    ensures ParentsSafe(Promote(h, q, now))
  {
    var g := Promote(h, q, now);
    forall c | c in g.requests && g.requests[c].state == Inherited ensures ChildSafe(g, c) {
      assert ChildSafe(h, c);
    }
  }

  lemma PromoteEvolves(h: Host, attempts: Attempts, q: Id, now: int)
    requires Eligible(h, attempts, q)
    ensures RequestsEvolve(h, Promote(h, q, now)) && GrantsAuthorized(h, attempts, Promote(h, q, now))
  {
  }

  // ---- granting ----

  /** `row` may become ACTIVE under id `q`: `q` is new or waiting in the same pool. */
  predicate Grantable(requests: map<Id, Request>, q: Id, row: Request) {
    row.state == Active && (q in requests ==> requests[q].state == Queued && requests[q].key == row.key)
  }

  lemma GrantedActive(rs: map<Id, Request>, q: Id, row: Request, k: ResourceKey)
    requires Grantable(rs, q, row)
    ensures ActiveIn(rs[q := row], k) == ActiveIn(rs, k) + (if row.key == k then {q} else {})
  {
  }

  lemma GrantedExecuting(rs: map<Id, Request>, q: Id, row: Request, s: Source)
    requires Grantable(rs, q, row)
    ensures Executing(rs[q := row], s) == Executing(rs, s) + (if SourceOf(row.key) == Some(s) then {q} else {})
  {
  }

  lemma GrantedSourceHeld(rs: map<Id, Request>, q: Id, row: Request, s: Source)
    requires Grantable(rs, q, row)
    ensures SourceHeld(rs[q := row], s) == SourceHeld(rs, s) + (if SourceOf(row.key) == Some(s) then {q} else {})
  {
  }

  lemma GrantKeepsPool(h: Host, q: Id, row: Request, k: ResourceKey)
    requires PoolSafe(h.pools, h.requests, k) && Grantable(h.requests, q, row) && PoolOpen(h, row.key)
    ensures PoolSafe(h.pools, h.requests[q := row], k)
  {
    GrantedActive(h.requests, q, row, k);
    SubsetCard(ActiveIn(h.requests, k), Held(h.requests, k));
  }

  lemma GrantKeepsSource(h: Host, q: Id, row: Request, s: Source)
    requires SourceSafe(h.requests, s) && Grantable(h.requests, q, row) && PoolOpen(h, row.key)
    ensures SourceSafe(h.requests[q := row], s)
  {
    GrantedExecuting(h.requests, q, row, s);
    SubsetCard(Executing(h.requests, s), SourceHeld(h.requests, s));
  }

  lemma GrantKeepsTight(h: Host, q: Id, row: Request, s: Source)
    requires SourceTight(h.requests, s) && Grantable(h.requests, q, row) && PoolOpen(h, row.key)
    ensures SourceTight(h.requests[q := row], s)
  {
    GrantedSourceHeld(h.requests, q, row, s);
  }

  lemma GrantKeepsSlots(h: Host, q: Id, row: Request)
    requires SlotsSafe(h) && Grantable(h.requests, q, row)
    requires !SlotBusy(h.requests, row.key, row.slot)
    ensures SlotsSafe(h.(requests := h.requests[q := row]))
  {
    forall r | r in h.requests && r != q && h.requests[r].state == Active && h.requests[r].key == row.key
               && row.slot.Some?
      ensures h.requests[r].slot != row.slot
    {
      assert r in Held(h.requests, row.key);
    }
  }

  lemma GrantKeepsCapacity(h: Host, q: Id, row: Request)
    requires PoolsSafe(h) && SlotsSafe(h) && SourcesSafe(h)
    requires Grantable(h.requests, q, row) && PoolOpen(h, row.key) && !SlotBusy(h.requests, row.key, row.slot)
    ensures var g := h.(requests := h.requests[q := row]);
            PoolsSafe(g) && SlotsSafe(g) && SourcesSafe(g) && (SourcesTight(h) ==> SourcesTight(g))
  {
    GrantKeepsSlots(h, q, row);
    var rs := h.requests[q := row];
    forall k: ResourceKey ensures PoolSafe(h.pools, rs, k) { GrantKeepsPool(h, q, row, k); }
    forall s: Source ensures SourceSafe(rs, s) { GrantKeepsSource(h, q, row, s); }
    if SourcesTight(h) {
      forall s: Source ensures SourceTight(rs, s) { GrantKeepsTight(h, q, row, s); }
    }
  }

  // ---- changes that grant nothing ----

  /** Nothing runs in `a` that did not already run, in the same pool and slot, in `b`. */
  predicate NoNewRunner(b: map<Id, Request>, a: map<Id, Request>) {
    forall r | r in a && Runs(a[r].state) ::
      r in b && b[r].state == a[r].state && b[r].key == a[r].key && b[r].slot == a[r].slot
  }

  lemma NoNewRunnerKeepsCapacity(b: Host, a: Host)
    requires PoolsSafe(b) && SlotsSafe(b) && SourcesSafe(b)
    requires a.pools == b.pools && NoNewRunner(b.requests, a.requests)
    ensures PoolsSafe(a) && SlotsSafe(a) && SourcesSafe(a)
  {
    forall k: ResourceKey ensures PoolSafe(a.pools, a.requests, k) {
      assert PoolSafe(b.pools, b.requests, k);
      SubsetCard(ActiveIn(a.requests, k), ActiveIn(b.requests, k));
    }
    forall s: Source ensures SourceSafe(a.requests, s) {
      assert SourceSafe(b.requests, s);
      SubsetCard(Executing(a.requests, s), Executing(b.requests, s));
    }
  }

  /** No new holder of any source. */
  predicate NoNewHolder(b: map<Id, Request>, a: map<Id, Request>) {
    forall r | r in a && HoldsSource(a[r].state) :: r in b && HoldsSource(b[r].state) && b[r].key == a[r].key
  }

  lemma NoNewHolderKeepsTight(b: Host, a: Host)
    requires SourcesTight(b) && NoNewHolder(b.requests, a.requests)
    ensures SourcesTight(a)
  {
    forall s: Source ensures SourceTight(a.requests, s) {
      assert SourceTight(b.requests, s);
      SubsetCard(SourceHeld(a.requests, s), SourceHeld(b.requests, s));
    }
  }

  /** The request a lease was granted to has been released. */
  predicate HolderReleased(h: Host, lease: Id)
    requires lease in h.leases
  {
    h.leases[lease].request in h.requests && h.requests[h.leases[lease].request].state == Released
  }

  /** Requests only stop running or waiting; a lease is dropped only with its released
      request; no child is left behind by a released parent. */
  ghost predicate Narrows(b: Host, a: Host) {
    && a.requests.Keys == b.requests.Keys
    && RequestsEvolve(b, a)
    && NoNewRunner(b.requests, a.requests)
    && a.nextLease == b.nextLease
    && (forall l | l in a.leases :: l in b.leases && a.leases[l] == b.leases[l])
    && (forall l | l in b.leases && l !in a.leases :: HolderReleased(a.(leases := b.leases), l))
    && (forall c | c in a.requests && a.requests[c].state == Inherited && a.requests[c].parent.Some?
                   && a.requests[c].parent.value in b.leases ::
          !HolderReleased(a.(leases := b.leases), a.requests[c].parent.value))
  }

  lemma NarrowKeepsLeases(b: Host, a: Host)
    requires LeasesSound(b) && Narrows(b, a)
    ensures LeasesSound(a)
  {
    NarrowKeepsLeaseRows(b, a);
    forall r | r in a.requests && a.requests[r].state == Active ensures LeaseOf(a.leases, r).Some? {
      NarrowKeepsRunnersLease(b, a, r);
    }
  }

  lemma NarrowKeepsRunnersLease(b: Host, a: Host, r: Id)
    requires LeasesSound(b) && Narrows(b, a) && r in a.requests && a.requests[r].state == Active
    ensures LeaseOf(a.leases, r).Some?
  {
    var l := LeaseOf(b.leases, r).value;
    assert l in a.leases && a.leases[l].request == r;
  }

  lemma NarrowKeepsLeaseRows(b: Host, a: Host)
    requires LeasesSound(b) && Narrows(b, a)
    ensures forall l | l in a.leases ::
              && l < a.nextLease && a.leases[l].request in a.requests
              && a.leases[l].key == a.requests[a.leases[l].request].key
              && a.requests[a.leases[l].request].state in {Active, RecoveryRequired, Released}
    ensures forall r | r in a.requests && a.requests[r].state in {Queued, Active} :: a.requests[r].parent.None?
  {
  }

  lemma NarrowKeepsParents(b: Host, a: Host)
    requires LeasesSound(b) && ParentsSafe(b) && Narrows(b, a)
    ensures ParentsSafe(a)
  {
    forall c | c in a.requests && a.requests[c].state == Inherited ensures ChildSafe(a, c) {
      assert ChildSafe(b, c);
      var l := b.requests[c].parent.value;
      assert !HolderReleased(a.(leases := b.leases), l);
    }
  }

  lemma NarrowEvolves(b: Host, a: Host, attempts: Attempts, now: int)
    requires Narrows(b, a)
    ensures GrantsAuthorized(b, attempts, a) && LeasesEvolve(b, a, now)
  {
  }

  // ---- release followed by one promotion ----

  lemma NarrowKeeps(b: Host, a: Host)
    requires HostInv(b) && Narrows(b, a)
    ensures HostInv(a)
  {
    NarrowKeepsLeases(b, a);
    NarrowKeepsParents(b, a);
    NoNewRunnerKeepsCapacity(b, a);
  }

  lemma PromoteKeeps(h: Host, attempts: Attempts, q: Id, now: int)
    requires HostInv(h) && Eligible(h, attempts, q)
    ensures HostInv(Promote(h, q, now))
    ensures SourcesTight(h) ==> SourcesTight(Promote(h, q, now))
  {
    PromoteLeases(h, q, now);
    PromoteParents(h, q, now);
    GrantKeepsCapacity(h, q, h.requests[q].(state := Active, reason := HostResourcePromoted));
  }

  lemma PromoteRelatedKeeps(db: Db, key: ResourceKey, now: int)
    requires HostInv(db.host)
    ensures var d := db.(host := PromoteRelated(db.host, db.work.attempts, key, now));
            HostInv(d.host) && Evolves(db, d, now) && (SourcesTight(db.host) ==> SourcesTight(d.host))
  {
    var q := PickRelated(db.host, db.work.attempts, key);
    if q.Some? {
      PromoteKeeps(db.host, db.work.attempts, q.value, now);
      PromoteLeases(db.host, q.value, now);
      PromoteEvolves(db.host, db.work.attempts, q.value, now);
    }
  }

  /** What a state between two operations satisfies. */
  ghost predicate Settled(db: Db) {
    HostInv(db.host) && Quiet(db.host, db.work.attempts)
  }

  lemma ReleaseThenPromote(db: Db, released: Host, work: Work, freed: Id, now: int)
    requires Settled(db) && Narrows(db.host, released)
    requires Freed(db.host, db.work.attempts, released, work.attempts, freed)
    requires RevocationsKept(db.work.attempts, work.attempts)
    ensures var d := Db(PromoteRelated(released, work.attempts, db.host.requests[freed].key, now), work);
            && Settled(d) && Evolves(db, d, now) && d.host.requests[freed].state == Released
            && (SourcesTight(released) ==> SourcesTight(d.host))
  {
    var key := db.host.requests[freed].key;
    var mid := Db(released, work);
    NarrowKeeps(db.host, released);
    ReleaseEvolves(db, released, work, now);
    PromoteRelatedKeeps(mid, key, now);
    OnePromotionSuffices(db.host, db.work.attempts, released, work.attempts, freed, now);
    EvolvesTransitive(db, mid, mid.(host := PromoteRelated(released, work.attempts, key, now)), now, now);
    PromoteKeepsReleased(released, work.attempts, key, freed, now);
  }

  lemma ReleaseEvolves(db: Db, released: Host, work: Work, now: int)
    requires Narrows(db.host, released) && RevocationsKept(db.work.attempts, work.attempts)
    ensures Evolves(db, Db(released, work), now)
  {
    NarrowEvolves(db.host, released, db.work.attempts, now);
  }

  lemma PromoteKeepsReleased(h: Host, attempts: Attempts, key: ResourceKey, r: Id, now: int)
    requires r in h.requests && h.requests[r].state == Released
    ensures r in PromoteRelated(h, attempts, key, now).requests
    ensures PromoteRelated(h, attempts, key, now).requests[r].state == Released
  {
  }
}
