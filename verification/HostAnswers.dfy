/** What the operations of the resource manager answer and change, said of the rows. */
module HostAnswers {
  import opened Collections
  import opened HostModel
  import opened ConductorModel
  import opened HostPromotion
  import opened HostInvariant
  import opened HostSweep
  import opened HostSweepProof
  import opened HostOperations
  import opened HostOperationsProof

  // ---- room ----

  /** Running or fenced in the pool. */
  function Occupants(h: Host, key: ResourceKey): set<Id> {
    set r | r in h.requests && h.requests[r].key == key && h.requests[r].state in {Active, RecoveryRequired}
  }

  /** The pools that draw on a source: its provider pool and, for three of them, a browser pool. */
  function PoolsOf(source: Source): set<ResourceKey> {
    match source
    case Chatgpt => {ProviderPool(Chatgpt), CdpChatgpt}
    case Perplexity => {ProviderPool(Perplexity), CdpPerplexity}
    case Antigravity => {ProviderPool(Antigravity), CdpGemini}
    case Cursor => {ProviderPool(Cursor)}
    case Zai => {ProviderPool(Zai)}
    case Claude => {ProviderPool(Claude)}
  }

  /** How many may draw on a source at once. */
  function Limit(source: Source): int { if source == Chatgpt || source == Perplexity then 4 else 3 }

  lemma SourceIs(key: ResourceKey, source: Source)
    ensures SourceOf(key) == Some(source) <==> key in PoolsOf(source)
    ensures SourceCapacity(source) == Limit(source)
  {
  }

  /** Running, inherited or fenced in any pool of the source. */
  function SourceOccupants(h: Host, source: Source): set<Id> {
    set r | r in h.requests && h.requests[r].key in PoolsOf(source)
            && h.requests[r].state in {Active, Inherited, RecoveryRequired}
  }

  predicate PoolHasRoom(h: Host, key: ResourceKey) {
    key in h.pools && h.pools[key].enabled && |Occupants(h, key)| < h.pools[key].capacity
  }

  predicate SourceHasRoom(h: Host, key: ResourceKey) {
    forall source: Source | key in PoolsOf(source) :: |SourceOccupants(h, source)| < Limit(source)
  }

  predicate SlotFree(h: Host, key: ResourceKey, slot: Option<Id>) {
    slot.Some? ==> forall r | r in Occupants(h, key) :: h.requests[r].slot != slot
  }

  predicate Barred(attempts: Attempts, a: AttemptId) {
    && a in attempts
    && (|| attempts[a].status == Unknown
        || attempts[a].reason in {StaleSlotAutoReleased, CdpMaxHoldExceeded})
  }

  /** Nothing keeps the waiter waiting. */
  predicate CouldRun(h: Host, attempts: Attempts, q: Id) {
    && q in h.requests && h.requests[q].state == Queued
    && PoolHasRoom(h, h.requests[q].key) && SourceHasRoom(h, h.requests[q].key)
    && SlotFree(h, h.requests[q].key, h.requests[q].slot)
    && !Barred(attempts, h.requests[q].attempt)
  }

  lemma SameRoom(h: Host, key: ResourceKey, slot: Option<Id>)
    ensures Held(h.requests, key) == Occupants(h, key)
    ensures SourceFull(h.requests, key) <==> !SourceHasRoom(h, key)
    ensures SlotBusy(h.requests, key, slot) <==> !SlotFree(h, key, slot)
  {
    assert Held(h.requests, key) == Occupants(h, key);
    forall source: Source ensures SourceHeld(h.requests, source) == SourceOccupants(h, source) {
      forall k: ResourceKey { SourceIs(k, source); }
    }
    forall source: Source { SourceIs(key, source); }
  }

  lemma EligibleCouldRun(h: Host, attempts: Attempts, q: Id)
    ensures Eligible(h, attempts, q) <==> CouldRun(h, attempts, q)
  {
    if q in h.requests { SameRoom(h, h.requests[q].key, h.requests[q].slot); }
  }

  // ---- admission ----

  /** The attempt was reaped, as its own row or one of its requests says. */
  predicate Reaped(db: Db, a: AttemptId) {
    || Barred(db.work.attempts, a)
    || exists r :: r in db.host.requests && db.host.requests[r].attempt == a
                && db.host.requests[r].reason in {StaleSlotAutoReleased, CdpMaxHoldExceeded}
  }

  /** A call with usable arguments, under a new key, for a pool that is open. */
  predicate NewCall(db: Db, ask: Ask) {
    && ask.ttl >= 1 && 0 <= ask.priority <= 1000
    && (forall r | r in db.host.requests :: db.host.requests[r].idempotencyKey != ask.idempotencyKey)
    && ask.key in db.host.pools && db.host.pools[ask.key].enabled && db.host.pools[ask.key].capacity >= 1
    && (ask.key == HostHeavy ==> db.host.pools[ask.key].capacity == 1)
  }

  /** A lease of this pool, of a running request. */
  predicate HeldByRunner(h: Host, key: ResourceKey, l: Id) {
    && l in h.leases && h.leases[l].key == key
    && h.leases[l].request in h.requests && h.requests[h.leases[l].request].state == Active
  }

  predicate HasChild(h: Host, l: Id) {
    exists c :: c in h.requests && h.requests[c].state == Inherited && h.requests[c].parent == Some(l)
  }

  /** The call names a lease it may inherit: good, and not run out. */
  predicate Inherits(h: Host, ask: Ask, now: int) {
    ask.inherit.Some? && HeldByRunner(h, ask.key, ask.inherit.value) && h.leases[ask.inherit.value].expiresAt > now
  }

  /** The row holds what was asked for, and when. */
  predicate AsAsked(row: Request, ask: Ask, now: int) {
    && row.idempotencyKey == ask.idempotencyKey && row.key == ask.key && row.command == ask.command
    && row.attempt == ask.attempt && row.agent == ask.agent && row.priority == ask.priority && row.slot == ask.slot
    && row.createdAt == now && row.owner == ask.owner && (ask.owner.Some? ==> row.ownerSeen == Some(now))
    && (ask.owner.None? ==> row.ownerSeen.None?)
  }

  /** One row more, every other one as it was. */
  predicate OneMore(b: Host, a: Host, ask: Ask, now: int) {
    && ask.id in a.requests && a.requests == b.requests[ask.id := a.requests[ask.id]]
    && AsAsked(a.requests[ask.id], ask, now)
    && a.pools == b.pools && a.observations == b.observations
  }

  /** The new request runs: in a pool, source and slot with room, under a lease of its own for ttl. */
  predicate RunsNow(b: Host, a: Host, ask: Ask, now: int) {
    && OneMore(b, a, ask, now) && a.requests[ask.id].state == Active && a.requests[ask.id].parent.None?
    && b.nextLease in a.leases && a.leases == b.leases[b.nextLease := a.leases[b.nextLease]]
    && var l := a.leases[b.nextLease];
       && l.request == ask.id && l.key == ask.key && l.attempt == ask.attempt && l.agent == ask.agent
       && l.process == ask.owner && l.sequence == 1 && l.lastHeartbeat == now
       && l.expiresAt == now + ask.ttl
  }

  predicate WaitsNow(b: Host, a: Host, ask: Ask, now: int) {
    && OneMore(b, a, ask, now) && a.requests[ask.id].state == Queued && a.requests[ask.id].parent.None?
    && a.leases == b.leases
  }

  /** Why the row is where it is; a parent that could not be inherited from takes precedence, but for a
      full source. */
  predicate Explained(b: Host, row: Request, ask: Ask, now: int, capacity: int) {
    var full, busy := |Occupants(b, ask.key)| >= capacity, !SourceHasRoom(b, ask.key);
    if busy && !full then row.reason == ProviderSourceBusy
    else if ask.inherit.Some? && HeldByRunner(b, ask.key, ask.inherit.value) then row.reason == InheritedLeaseExpired
    else if ask.inherit.Some? then row.reason == InheritedLeaseInvalid
    else if full then row.reason == HostResourceBusy
    else row.reason == if SlotFree(b, ask.key, ask.slot) then HostResourceAdmitted else SlotKeyBusy
  }

  /** As for a call that names no parent: it runs exactly when there is room everywhere, else it waits. */
  predicate AdmittedOrQueued(b: Host, r: Result, ask: Ask, now: int, capacity: int) {
    && (if |Occupants(b, ask.key)| < capacity && SourceHasRoom(b, ask.key) && SlotFree(b, ask.key, ask.slot) then
          RunsNow(b, r.db.host, ask, now) && r.outcome == Answer(ask.id, Active, Some(b.nextLease), false)
        else WaitsNow(b, r.db.host, ask, now) && r.outcome == Answer(ask.id, Queued, None, false))
    && Explained(b, r.db.host.requests[ask.id], ask, now, capacity)
  }

  lemma AdmitAnswers(swept: Db, env: Env, ask: Ask, capacity: int, rejected: Option<Reason>)
    requires rejected == if ask.inherit.None? then None
                         else InheritRejection(swept.host, ask, ask.inherit.value, env.now)
    requires !Inherits(swept.host, ask, env.now)
    ensures AdmittedOrQueued(swept.host, Admit(swept, env, ask, capacity, rejected), ask, env.now, capacity)
    ensures Admit(swept, env, ask, capacity, rejected).db.work == swept.work
  {
    SameRoom(swept.host, ask.key, ask.slot);
  }

  /** A child either inherits, alone, or is quarantined for having a sibling. */
  predicate InheritedOrQuarantined(b: Host, r: Result, ask: Ask, now: int)
    requires ask.inherit.Some?
  {
    && OneMore(b, r.db.host, ask, now) && r.db.host.leases == b.leases
    && r.db.host.requests[ask.id].parent == ask.inherit
    && if HasChild(b, ask.inherit.value) then
         && r.db.host.requests[ask.id].state == Quarantined && r.db.host.requests[ask.id].reason == InheritedChildBusy
         && r.outcome == Refused(ChildBusy)
       else
         && r.db.host.requests[ask.id].state == Inherited
         && r.outcome == Answer(ask.id, Inherited, ask.inherit, false)
  }

  lemma InheritAnswers(swept: Db, env: Env, ask: Ask)
    requires ask.inherit.Some?
    ensures InheritedOrQuarantined(swept.host, Inherit(swept, env, ask, ask.inherit.value), ask, env.now)
    ensures Inherit(swept, env, ask, ask.inherit.value).db.work == swept.work
  {
    var children := ChildrenOf(swept.host.requests, ask.inherit.value);
    assert HasChild(swept.host, ask.inherit.value) <==> children != {} by {
      if c :| c in swept.host.requests && swept.host.requests[c].state == Inherited
              && swept.host.requests[c].parent == ask.inherit {
        assert c in children;
      }
      if children != {} { var c :| c in children; }
    }
  }

  lemma Rejected(h: Host, ask: Ask, now: int)
    requires ask.inherit.Some?
    ensures InheritRejection(h, ask, ask.inherit.value, now).None? <==> Inherits(h, ask, now)
  {
  }

  /** A new call by an attempt in good standing, decided on the tables as its sweep leaves them: with a
      parent named and the source full it is refused and nothing at all changes; with a good lease
      named it inherits or is quarantined; otherwise, whatever it named, it runs or waits. */
  lemma RequestAnswers(db: Db, env: Env, ask: Ask)
    requires NewCall(db, ask) && !Reaped(Sweep(db, env).db, ask.attempt)
    ensures var b := Sweep(db, env).db; var r := RequestStep(db, env, ask);
            if ask.inherit.Some? && !SourceHasRoom(b.host, ask.key) then r == Result(db, Refused(SourceIsBusy))
            else
              && r.db.work == b.work
              && if Inherits(b.host, ask, env.now) then InheritedOrQuarantined(b.host, r, ask, env.now)
                 else AdmittedOrQueued(b.host, r, ask, env.now, db.host.pools[ask.key].capacity)
  {
    var b := Sweep(db, env).db;
    var capacity := db.host.pools[ask.key].capacity;
    SameRoom(b.host, ask.key, ask.slot);
    NewCallReaches(db, env, ask);
    if ask.inherit.None? {
      AdmitAnswers(b, env, ask, capacity, None);
    } else {
      Rejected(b.host, ask, env.now);
      InheritAnswers(b, env, ask);
      if !Inherits(b.host, ask, env.now) {
        AdmitAnswers(b, env, ask, capacity, InheritRejection(b.host, ask, ask.inherit.value, env.now));
      }
    }
  }

  lemma NewCallReaches(db: Db, env: Env, ask: Ask)
    requires NewCall(db, ask) && !Reaped(Sweep(db, env).db, ask.attempt)
    ensures RequestStep(db, env, ask)
            == AdmitOrInherit(db, Sweep(db, env).db, env, ask, db.host.pools[ask.key].capacity)
  {
    assert !AttemptIsRevoked(Sweep(db, env).db, ask.attempt);
  }

  /** Every other call is refused: with the sweep kept when the attempt was reaped, else changing nothing. */
  lemma RequestRefuses(db: Db, env: Env, ask: Ask)
    ensures var r := RequestStep(db, env, ask); var usable := ask.ttl >= 1 && 0 <= ask.priority <= 1000;
            && (!usable ==> r == Result(db, Refused(InvalidArgument)))
            && (usable && FindByKey(db.host.requests, ask.idempotencyKey).None? && !NewCall(db, ask) ==>
                  r == Result(db, Refused(if ask.key !in db.host.pools || !db.host.pools[ask.key].enabled
                                          then ResourceDisabled else CapacityInvalid)))
            && (NewCall(db, ask) && Reaped(Sweep(db, env).db, ask.attempt) ==>
                  r == Result(Sweep(db, env).db, Refused(RevokedAttempt)))
  {
    if NewCall(db, ask) && Reaped(Sweep(db, env).db, ask.attempt) {
      assert AttemptIsRevoked(Sweep(db, env).db, ask.attempt);
    }
  }
}
