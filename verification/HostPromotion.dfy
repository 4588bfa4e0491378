/** Promotion of queued host-resource requests: `_source_full_locked`, `_promote_locked`
    and `_promote_related_locked` of scripts/conductor_resources.py. */
module HostPromotion {
  import opened Collections
  import opened HostModel
  import opened ConductorModel

  type Attempts = map<AttemptId, Attempt>

  /** The pool could take one more ACTIVE request, slots and attempts aside. */
  predicate PoolOpen(host: Host, key: ResourceKey) {
    && !SourceFull(host.requests, key)
    && key in host.pools
    && host.pools[key].enabled
    && host.pools[key].capacity >= 1
    && |Held(host.requests, key)| < host.pools[key].capacity
  }

  predicate Unblocked(host: Host, attempts: Attempts, q: Id)
    requires q in host.requests
  {
    && !SlotBusy(host.requests, host.requests[q].key, host.requests[q].slot)
    && !AttemptRevoked(attempts, host.requests[q].attempt)
  }

  /** A waiter that nothing keeps waiting. */
  predicate Eligible(host: Host, attempts: Attempts, q: Id) {
    && q in host.requests
    && host.requests[q].state == Queued
    && PoolOpen(host, host.requests[q].key)
    && Unblocked(host, attempts, q)
  }

  /** No lost wakeup: every waiter is waiting for a reason. */
  predicate Quiet(host: Host, attempts: Attempts) {
    forall q | q in host.requests :: !Eligible(host, attempts, q)
  }

  function QueueRanks(requests: map<Id, Request>): map<Id, Rank> {
    map r | r in requests :: Rank(-requests[r].priority, requests[r].createdAt)
  }

  function QueueOf(requests: map<Id, Request>, key: ResourceKey): set<Id> {
    set r | r in requests && requests[r].key == key && requests[r].state == Queued
  }

  function SourceQueue(requests: map<Id, Request>, source: Source): set<Id> {
    set r | r in requests && SourceOf(requests[r].key) == Some(source) && requests[r].state == Queued
  }

  /** Queue order: priority descending, then creation time, then id. */
  function InQueueOrder(requests: map<Id, Request>, ids: set<Id>): (rows: seq<Id>)
    requires ids <= requests.Keys
    ensures forall x :: x in rows <==> x in ids
  {
    OrderBy(QueueRanks(requests), ids)
  }

  function FirstUnblocked(host: Host, attempts: Attempts, rows: seq<Id>): (q: Option<Id>)
    requires forall x | x in rows :: x in host.requests
    ensures q.Some? ==> q.value in rows && Unblocked(host, attempts, q.value)
    ensures q.None? ==> forall x | x in rows :: !Unblocked(host, attempts, x)
  {
    if rows == [] then None
    else if Unblocked(host, attempts, rows[0]) then Some(rows[0])
    else FirstUnblocked(host, attempts, rows[1..])
  }

  /** The waiter `_promote_locked` would admit into one pool. */
  function Pick(host: Host, attempts: Attempts, key: ResourceKey): (q: Option<Id>)
    ensures q.Some? ==> Eligible(host, attempts, q.value) && host.requests[q.value].key == key
    ensures q.None? ==> forall x | x in host.requests && host.requests[x].key == key :: !Eligible(host, attempts, x)
  {
    if !PoolOpen(host, key) then None
    else FirstUnblocked(host, attempts, InQueueOrder(host.requests, QueueOf(host.requests, key)))
  }

  function FirstPick(host: Host, attempts: Attempts, rows: seq<Id>): (q: Option<Id>)
    requires forall x | x in rows :: x in host.requests
    ensures q.Some? ==> Eligible(host, attempts, q.value)
    ensures q.Some? ==> exists x :: x in rows && host.requests[x].key == host.requests[q.value].key
    ensures q.None? ==> forall x | x in rows :: !Eligible(host, attempts, x)
  {
    if rows == [] then None
    else
      var q := Pick(host, attempts, host.requests[rows[0]].key);
      if q.Some? then q else FirstPick(host, attempts, rows[1..])
  }

  predicate Related(a: ResourceKey, b: ResourceKey) {
    a == b || (SourceOf(a).Some? && SourceOf(a) == SourceOf(b))
  }

  /** The waiter `_promote_related_locked` would admit after a change in one pool. */
  function PickRelated(host: Host, attempts: Attempts, key: ResourceKey): (q: Option<Id>)
    ensures q.Some? ==> Eligible(host, attempts, q.value) && Related(key, host.requests[q.value].key)
    ensures q.None? ==> forall x | x in host.requests && Related(key, host.requests[x].key) ::
                          !Eligible(host, attempts, x)
  {
    match SourceOf(key)
    case None => Pick(host, attempts, key)
    case Some(source) =>
      FirstPick(host, attempts, InQueueOrder(host.requests, SourceQueue(host.requests, source)))
  }

  /** Grant one queued request its lease. */
  function Promote(host: Host, q: Id, now: int): Host
    requires q in host.requests
  {
    var r := host.requests[q];
    host.(requests := WithState(host.requests, q, Active, HostResourcePromoted),
          leases := host.leases[host.nextLease := NewLease(q, r, now, DEFAULT_LEASE_TTL)],
          nextLease := host.nextLease + 1,
          events := host.events
                    + [HostEvent(q, Some(host.nextLease), Some(r.state), Active, HostResourcePromoted, now)])
  }

  function NewLease(id: Id, r: Request, now: int, ttl: int): HostLease {
    HostLease(id, r.key, r.attempt, r.agent, 1, now + ttl, now, r.owner)
  }

  function PromoteRelated(host: Host, attempts: Attempts, key: ResourceKey, now: int): Host {
    var q := PickRelated(host, attempts, key);
    if q.None? then host else Promote(host, q.value, now)
  }

  // ---- a single promotion after one release is enough ----

  /** `after` is `before` with request `freed` no longer holding anything and possibly
      fewer waiters; attempts revoked before stay revoked. */
  ghost predicate Freed(before: Host, beforeAttempts: Attempts, after: Host, attempts: Attempts, freed: Id) {
    && after.pools == before.pools
    && after.requests.Keys == before.requests.Keys
    && freed in before.requests && after.requests[freed].state == Released
    && (forall r | r in before.requests ::
          && after.requests[r].key == before.requests[r].key
          && after.requests[r].slot == before.requests[r].slot
          && after.requests[r].attempt == before.requests[r].attempt
          && (r != freed ==>
                || after.requests[r].state == before.requests[r].state
                || (before.requests[r].state == Queued && after.requests[r].state == Released)))
    && (forall a :: AttemptRevoked(beforeAttempts, a) ==> AttemptRevoked(attempts, a))
  }

  lemma FreedHolders(before: Host, ba: Attempts, after: Host, aa: Attempts, freed: Id, key: ResourceKey)
    requires Freed(before, ba, after, aa, freed)
    ensures Held(after.requests, key) == Held(before.requests, key) - {freed}
    ensures SourceOf(key).Some? ==>
              (SourceHeld(after.requests, SourceOf(key).value)
               == SourceHeld(before.requests, SourceOf(key).value) - {freed})
  {
  }

  lemma PromotedHolders(host: Host, q: Id, now: int, key: ResourceKey)
    requires q in host.requests && host.requests[q].state == Queued
    ensures var rs := Promote(host, q, now).requests;
            && Held(rs, key) == Held(host.requests, key) + (if key == host.requests[q].key then {q} else {})
            && q !in Held(host.requests, key)
            && (SourceOf(key).Some? ==>
                  && q !in SourceHeld(host.requests, SourceOf(key).value)
                  && SourceHeld(rs, SourceOf(key).value) ==
                     SourceHeld(host.requests, SourceOf(key).value)
                     + (if SourceOf(key) == SourceOf(host.requests[q].key) then {q} else {}))
  {
  }

  /** Cardinality bookkeeping for a set that loses one member and gains another. */
  lemma SwapCard(s: set<Id>, out: Id, inn: Id)
    requires inn !in s
    ensures |s - {out} + {inn}| >= |s|
  {
    if out in s { assert |s - {out}| == |s| - 1; }
    assert inn !in s - {out};
  }

  lemma SourceStaysFull(before: Host, ba: Attempts, after: Host, aa: Attempts, freed: Id, p: Id, now: int,
                        key: ResourceKey)
    requires Freed(before, ba, after, aa, freed)
    requires Eligible(after, aa, p) && Related(before.requests[freed].key, after.requests[p].key)
    requires SourceFull(before.requests, key)
    ensures SourceFull(Promote(after, p, now).requests, key)
  {
    FreedHolders(before, ba, after, aa, freed, key);
    PromotedHolders(after, p, now, key);
    var s := SourceOf(key).value;
    var held := SourceHeld(before.requests, s);
    SwapCard(held, freed, p);
    if freed !in held {
      SubsetCard(held, SourceHeld(Promote(after, p, now).requests, s));
    }
  }

  lemma PoolStaysFull(before: Host, ba: Attempts, after: Host, aa: Attempts, freed: Id, p: Id, now: int)
    requires Freed(before, ba, after, aa, freed) && Eligible(after, aa, p)
    ensures var key := after.requests[p].key;
            |Held(Promote(after, p, now).requests, key)| >= |Held(before.requests, key)|
  {
    var key := after.requests[p].key;
    FreedHolders(before, ba, after, aa, freed, key);
    PromotedHolders(after, p, now, key);
    SwapCard(Held(before.requests, key), freed, p);
  }

  /** The same waiter, in a pool whose holders have all stayed, was eligible before if it is later. */
  lemma WasEligible(before: Host, ba: Attempts, later: Host, aa: Attempts, q: Id)
    requires Eligible(later, aa, q) && q in before.requests && before.requests[q].state == Queued
    requires var b, a := before.requests[q], later.requests[q];
             b.key == a.key && b.slot == a.slot && b.attempt == a.attempt
    requires before.pools == later.pools && !SourceFull(before.requests, before.requests[q].key)
    requires forall r | r in Held(before.requests, before.requests[q].key) ::
               r in Held(later.requests, before.requests[q].key) && later.requests[r].slot == before.requests[r].slot
    requires AttemptRevoked(ba, before.requests[q].attempt) ==> AttemptRevoked(aa, before.requests[q].attempt)
    ensures Eligible(before, ba, q)
  {
    var key := before.requests[q].key;
    SubsetCard(Held(before.requests, key), Held(later.requests, key));
  }

  lemma KeptRows(before: Host, ba: Attempts, after: Host, aa: Attempts, freed: Id, p: Id, now: int, r: Id)
    requires Freed(before, ba, after, aa, freed) && Eligible(after, aa, p) && r in before.requests
    ensures var b, a := before.requests[r], Promote(after, p, now).requests[r];
            b.key == a.key && b.slot == a.slot && b.attempt == a.attempt && (a.state == Queued ==> b.state == Queued)
  {
  }

  /** Releasing elsewhere cannot open a pool that stays as held as it was. */
  lemma OtherPoolUnchanged(before: Host, ba: Attempts, after: Host, aa: Attempts, freed: Id, p: Id, now: int, q: Id)
    requires Freed(before, ba, after, aa, freed) && Eligible(after, aa, p)
    requires Eligible(Promote(after, p, now), aa, q)
    requires before.requests[freed].key != before.requests[q].key
    requires !SourceFull(before.requests, before.requests[q].key)
    ensures Eligible(before, ba, q)
  {
    var key := before.requests[q].key;
    var later := Promote(after, p, now);
    FreedHolders(before, ba, after, aa, freed, key);
    PromotedHolders(after, p, now, key);
    KeptRows(before, ba, after, aa, freed, p, now, q);
    forall r | r in Held(before.requests, key)
      ensures r in Held(later.requests, key) && later.requests[r].slot == before.requests[r].slot
    {
      KeptRows(before, ba, after, aa, freed, p, now, r);
    }
    WasEligible(before, ba, later, aa, q);
  }

  lemma ElsewhereUnchanged(before: Host, ba: Attempts, after: Host, aa: Attempts, freed: Id, q: Id)
    requires Freed(before, ba, after, aa, freed) && Eligible(after, aa, q)
    requires before.requests[freed].key != before.requests[q].key
    requires !SourceFull(before.requests, before.requests[q].key)
    ensures Eligible(before, ba, q)
  {
    var key := before.requests[q].key;
    FreedHolders(before, ba, after, aa, freed, key);
    assert Held(after.requests, key) == Held(before.requests, key);
  }

  lemma SamePoolBlocked(before: Host, ba: Attempts, after: Host, aa: Attempts, freed: Id, p: Id, now: int, q: Id)
    requires Freed(before, ba, after, aa, freed) && Eligible(after, aa, p)
    requires Eligible(Promote(after, p, now), aa, q)
    requires before.requests[p].key == before.requests[q].key
    requires !SourceFull(before.requests, before.requests[q].key)
    ensures Eligible(before, ba, q) || Eligible(before, ba, p)
  {
    var key := before.requests[q].key;
    var final := Promote(after, p, now);
    FreedHolders(before, ba, after, aa, freed, key);
    PromotedHolders(after, p, now, key);
    PoolStaysFull(before, ba, after, aa, freed, p, now);
    assert PoolOpen(before, key);
  }

  /** After one release, promoting one waiter leaves no other waiter eligible. */
  lemma OnePromotionSuffices(before: Host, ba: Attempts, after: Host, aa: Attempts, freed: Id, now: int)
    requires Quiet(before, ba) && Freed(before, ba, after, aa, freed)
    ensures Quiet(PromoteRelated(after, aa, before.requests[freed].key, now), aa)
  {
    var key := before.requests[freed].key;
    var pick := PickRelated(after, aa, key);
    var final := PromoteRelated(after, aa, key, now);
    forall q | q in final.requests ensures !Eligible(final, aa, q) {
      if Eligible(final, aa, q) {
        var k := before.requests[q].key;
        if pick.None? {
          FreedHolders(before, ba, after, aa, freed, k);
          ElsewhereUnchanged(before, ba, after, aa, freed, q);
        } else {
          var p := pick.value;
          if SourceFull(before.requests, k) {
            SourceStaysFull(before, ba, after, aa, freed, p, now, k);
          } else if before.requests[p].key == k {
            SamePoolBlocked(before, ba, after, aa, freed, p, now, q);
          } else if key != k {
            OtherPoolUnchanged(before, ba, after, aa, freed, p, now, q);
          } else {
            // p waits in another pool of the source, so only the source could have blocked it
            ElsewhereUnchanged(before, ba, after, aa, freed, p);
          }
        }
      }
    }
  }
}
