/** Who may write, and what a fenced write, a recorded lease or a reaping changes, said of the rows. */
module WorkAnswers {
  import opened Collections
  import opened HostModel
  import opened ConductorModel
  import opened HostSweep
  import opened WorkStore
  import opened WorkProof

  /** The attempt is the recorded owner of the item, at the generation of its own claim. */
  predicate Owns(work: Work, item: Id, a: AttemptId) {
    && item in work.items && work.items[item].currentAttempt == Some(a)
    && exists k :: 0 <= k < |work.claims| && work.claims[k].attempt == a
                && work.items[item].currentGeneration == Some(work.claims[k].generation)
  }

  /** The attempt still stands: it has a row, and neither that nor a host request of its says reaped. */
  predicate Standing(db: Db, a: AttemptId) {
    && a in db.work.attempts
    && db.work.attempts[a].status != Unknown && db.work.attempts[a].reason != StaleSlotAutoReleased
    && forall r | r in db.host.requests && db.host.requests[r].attempt == a ::
         db.host.requests[r].reason != StaleSlotAutoReleased
  }

  /** Lease l of the attempt is of this generation and has not run out. */
  predicate Covers(leases: map<Id, WorkLease>, l: Id, a: AttemptId, generation: int, now: int) {
    && l in leases && leases[l].attempt == a && leases[l].generation == generation && leases[l].expiresAt > now
  }

  predicate OneLease(leases: map<Id, WorkLease>, a: AttemptId) {
    forall l, m | l in leases && m in leases && leases[l].attempt == a && leases[m].attempt == a :: l == m
  }

  /** The attempt may write to the item: it stands, the item is its own and it is the owner, and its
      lease covers the write. */
  ghost predicate MayWrite(db: Db, item: Id, a: AttemptId, generation: int, now: int) {
    && Standing(db, a) && db.work.attempts[a].item == item && Owns(db.work, item, a)
    && exists l :: Covers(db.work.leases, l, a, generation, now)
  }

  lemma {:induction false} FirstClaim(claims: seq<Claim>, a: AttemptId)
    ensures ClaimGeneration(claims, a).Some? <==> exists k :: 0 <= k < |claims| && claims[k].attempt == a
    ensures ClaimGeneration(claims, a).Some? ==>
              exists k :: 0 <= k < |claims| && claims[k].attempt == a
                       && ClaimGeneration(claims, a) == Some(claims[k].generation)
  {
    if claims != [] {
      var rest := claims[1..];
      FirstClaim(rest, a);
      assert forall k | 0 <= k < |rest| :: rest[k] == claims[k + 1];
      if claims[0].attempt != a && ClaimGeneration(rest, a).Some? {
        var k :| 0 <= k < |rest| && rest[k].attempt == a && ClaimGeneration(rest, a) == Some(rest[k].generation);
        assert claims[k + 1].attempt == a;
      }
    }
  }

  lemma OwnsIsOwner(work: Work, item: Id, a: AttemptId)
    requires DistinctClaimants(work.claims)
    ensures OwnsItem(work, item, a) <==> Owns(work, item, a)
  {
    FirstClaim(work.claims, a);
  }

  lemma LeaseForOnly(leases: map<Id, WorkLease>, a: AttemptId, l: Id)
    requires OneLease(leases, a) && l in leases && leases[l].attempt == a
    ensures LeaseFor(leases, a) == Some(l)
  {
  }

  /** The worker fence lets pass only an attempt that may write, and every one with a single lease. */
  lemma FenceIsMayWrite(db: Db, a: AttemptId, item: Id, generation: int, now: int)
    requires ClaimInv(db.work)
    ensures FencePasses(db, a, Some(item), None, generation, now) ==> MayWrite(db, item, a, generation, now)
    ensures OneLease(db.work.leases, a) && MayWrite(db, item, a, generation, now) ==>
              FencePasses(db, a, Some(item), None, generation, now)
  {
    if FencePasses(db, a, Some(item), None, generation, now) {
      OwnsIsOwner(db.work, db.work.attempts[a].item, a);
      assert Covers(db.work.leases, LeaseFor(db.work.leases, a).value, a, generation, now);
    }
    if OneLease(db.work.leases, a) && MayWrite(db, item, a, generation, now) {
      OwnsIsOwner(db.work, item, a);
      var l :| Covers(db.work.leases, l, a, generation, now);
      LeaseForOnly(db.work.leases, a, l);
    }
  }

  lemma WriterPassesTwice(db: Db, a: AttemptId, item: Id, generation: int, now: int)
    requires ClaimInv(db.work) && FencePasses(db, a, Some(item), None, generation, now)
    ensures WriteFence(db.work, a) && LeaseOfGeneration(db.work, a, generation)
  {
    FenceImpliesWriteFence(db, a, Some(item), None, generation, now);
    assert LeaseFor(db.work.leases, a).value in db.work.leases;
  }

  lemma CompletionByFence(db: Db, item: Id, target: WorkState, a: AttemptId, generation: int, reason: Reason, now: int)
    requires ClaimInv(db.work)
    ensures var r := Complete(db, item, target, a, generation, reason, now);
            if !FencePasses(db, a, Some(item), None, generation, now) then r == Rejected(ReapedLeaseRejected)
            else if target in ValidTargets(db.work.items[item].state) then r.Done? else r == Rejected(InvalidTransition)
  {
    if FencePasses(db, a, Some(item), None, generation, now) { WriterPassesTwice(db, a, item, generation, now); }
  }

  /** A single-leased attempt that may write is refused for nothing but a forbidden edge, any other attempt
      as reaped. */
  lemma CompletionRefuses(db: Db, item: Id, target: WorkState, a: AttemptId, generation: int, reason: Reason, now: int)
    requires ClaimInv(db.work)
    ensures var r := Complete(db, item, target, a, generation, reason, now);
            && (!MayWrite(db, item, a, generation, now) ==> r == Rejected(ReapedLeaseRejected))
            && (OneLease(db.work.leases, a) && MayWrite(db, item, a, generation, now) ==>
                  if target in ValidTargets(db.work.items[item].state) then r.Done?
                  else r == Rejected(InvalidTransition))
  {
    FenceIsMayWrite(db, a, item, generation, now);
    CompletionByFence(db, item, target, a, generation, reason, now);
  }

  /** A completion is accepted only from an attempt that may write to the item, along an edge of the
      state machine, and then moves that item and appends its event, changing nothing else. */
  lemma CompletedByOwner(db: Db, item: Id, target: WorkState, a: AttemptId, generation: int, reason: Reason, now: int)
    requires ClaimInv(db.work)
    ensures var r := Complete(db, item, target, a, generation, reason, now);
            && (r.Done? ==> MayWrite(db, item, a, generation, now) && target in ValidTargets(db.work.items[item].state))
            && (r.Done? ==>
                  && r.db.host == db.host
                  && r.db.work == db.work.(items := r.db.work.items, events := r.db.work.events)
                  && r.db.work.items == db.work.items[item := db.work.items[item].(state := target)]
                  && r.db.work.events
                     == db.work.events + [WorkEvent(item, Some(a), db.work.items[item].state, target, reason, now)])
  {
    FenceIsMayWrite(db, a, item, generation, now);
    if FencePasses(db, a, Some(item), None, generation, now) { WriterPassesTwice(db, a, item, generation, now); }
  }

  /** A checkpoint is recorded only for an attempt that may write to the item, and nothing else is
      touched; a single-leased attempt that may write is never refused. */
  lemma CheckpointByOwner(db: Db, item: Id, a: AttemptId, generation: int, evidence: Id, now: int)
    requires ClaimInv(db.work)
    ensures var r := SaveCheckpoint(db, item, a, generation, evidence, now);
            && (r.Done? ==> MayWrite(db, item, a, generation, now))
            && (OneLease(db.work.leases, a) && MayWrite(db, item, a, generation, now) ==> r.Done?)
            && (!r.Done? ==> r == Rejected(ReapedLeaseRejected))
            && (r.Done? ==>
                  && r.db.host == db.host && r.db.work == db.work.(checkpoints := r.db.work.checkpoints)
                  && r.db.work.checkpoints == db.work.checkpoints + [Checkpoint(item, a, evidence, now)])
  {
    FenceIsMayWrite(db, a, item, generation, now);
    if FencePasses(db, a, Some(item), None, generation, now) { WriterPassesTwice(db, a, item, generation, now); }
  }

  ghost predicate MayBeat(db: Db, a: AttemptId, now: int) {
    a in db.work.attempts && exists g :: MayWrite(db, db.work.attempts[a].item, a, g, now)
  }

  /** A work lease is extended only by the attempt that holds it and may write, with a higher sequence;
      it then runs out at now + ttl, and nothing else is touched. */
  lemma ExtendedByOwner(db: Db, id: Id, a: AttemptId, sequence: int, generation: int, ttl: int, now: int)
    requires ClaimInv(db.work)
    ensures var r := ExtendLease(db, id, a, sequence, generation, ttl, now);
            && (r.Done? ==>
                  && Covers(db.work.leases, id, a, generation, now) && db.work.leases[id].sequence < sequence
                  && MayWrite(db, db.work.attempts[a].item, a, generation, now))
            && (OneLease(db.work.leases, a) && Covers(db.work.leases, id, a, generation, now) && MayBeat(db, a, now) ==>
                  (if db.work.leases[id].sequence < sequence then r.Done? else r == Rejected(HeartbeatRejected)))
            && (r.Done? ==>
                  && r.db.host == db.host && r.db.work == db.work.(leases := r.db.work.leases)
                  && r.db.work.leases.Keys == db.work.leases.Keys
                  && (forall l | l in db.work.leases && l != id :: r.db.work.leases[l] == db.work.leases[l])
                  && (forall clock :: Covers(r.db.work.leases, id, a, generation, clock) <==> clock < now + ttl)
                  && r.db.work.leases[id].sequence == sequence && r.db.work.leases[id].lastHeartbeat == now
                  && r.db.work.leases[id].agent == db.work.leases[id].agent)
  {
    if FencePasses(db, a, None, Some(id), generation, now) {
      FenceIsMayWrite(db, a, db.work.attempts[a].item, generation, now);
      WriterPassesTwice(db, a, db.work.attempts[a].item, generation, now);
    }
    if OneLease(db.work.leases, a) && Covers(db.work.leases, id, a, generation, now) && MayBeat(db, a, now) {
      FenceIsMayWrite(db, a, db.work.attempts[a].item, generation, now);
      LeaseForOnly(db.work.leases, a, id);
      WriterPassesTwice(db, a, db.work.attempts[a].item, generation, now);
    }
  }

  /** A recorded lease is new, or an update by its own attempt with a higher sequence, which changes its
      sequence, expiry and heartbeat; anything else writes nothing. */
  lemma LeaseRecorded(work: Work, id: Id, lease: WorkLease)
    ensures var (after, written) := SaveLease(work, id, lease);
            && after == work.(leases := after.leases) && id in after.leases
            && (forall l | l != id :: (l in after.leases <==> l in work.leases)
                                   && (l in work.leases ==> after.leases[l] == work.leases[l]))
            && (written <==> id !in work.leases
                             || (work.leases[id].attempt == lease.attempt && work.leases[id].sequence < lease.sequence))
            && (!written ==> after == work)
            && (written ==>
                  && after.leases[id].attempt == lease.attempt && after.leases[id].sequence == lease.sequence
                  && after.leases[id].expiresAt == lease.expiresAt
                  && after.leases[id].lastHeartbeat == lease.lastHeartbeat)
            && (written && id in work.leases ==>
                  && after.leases[id].generation == work.leases[id].generation
                  && after.leases[id].agent == work.leases[id].agent)
            && (id !in work.leases ==> after.leases[id] == lease)
  {
  }

  // ---- reaping ----

  predicate LiveOrFenced(state: WorkState) {
    state in {Claimed, Dispatching, Running, WaitingExternal, Review, ItemRecovery}
  }

  /** Reaping an attempt marks it UNKNOWN with the reason, deletes its work leases, and fences its item,
      with one event, exactly when it still owns the item and the item is live or fenced already. */
  lemma ReapedRows(work: Work, a: AttemptId, reason: Reason, now: int)
    requires ClaimInv(work)
    ensures var w := Reap(work, a, reason, now);
            && w.claims == work.claims && w.checkpoints == work.checkpoints && w.authorizations == work.authorizations
            && (forall l :: l in w.leases <==> l in work.leases && work.leases[l].attempt != a)
            && (forall l | l in w.leases :: w.leases[l] == work.leases[l])
            && w.attempts.Keys == work.attempts.Keys
            && (forall x | x in work.attempts :: w.attempts[x]
                  == if x == a then work.attempts[x].(status := Unknown, reason := reason) else work.attempts[x])
            && (if a in work.attempts && Owns(work, work.attempts[a].item, a)
                   && LiveOrFenced(work.items[work.attempts[a].item].state) then
                  var i := work.attempts[a].item;
                  && w.items == work.items[i := work.items[i].(state := ItemRecovery)]
                  && w.events == work.events + [WorkEvent(i, Some(a), work.items[i].state, ItemRecovery, reason, now)]
                else w.items == work.items && w.events == work.events)
  {
    if a in work.attempts {
      var i := work.attempts[a].item;
      FirstClaim(work.claims, a);
      OwnsIsOwner(work, i, a);
      if i in work.items { assert OwnerRecorded(work.claims, work.items[i], i); }
    }
  }
}
