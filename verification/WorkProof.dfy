/** Claim authority and the event ledger are kept by every work-item transaction and by the
    sweep's reaping; what superseded or reaped attempts can still do; what a completed item did. */
module WorkProof {
  import opened Collections
  import opened HostModel
  import opened ConductorModel
  import opened HostSweep
  import opened WorkStore

  ghost predicate WorkInv(work: Work) { ClaimInv(work) && LedgerInv(work) }

  /** Claims and events are only ever appended; items and attempts are never removed. */
  ghost predicate WorkGrows(b: Work, a: Work) {
    && b.claims <= a.claims && b.events <= a.events
    && b.items.Keys <= a.items.Keys && b.attempts.Keys <= a.attempts.Keys
  }

  // ---- appending to the two logs ----

  lemma ReplayAppend(events: seq<WorkEvent>, e: WorkEvent, i: Id)
    ensures Replay(events + [e], i) == if e.item == i then e.next else Replay(events, i)
  {
    assert (events + [e])[..|events|] == events;
  }

  lemma ChainAppend(events: seq<WorkEvent>, e: WorkEvent)
    requires Chained(events) && Follows(events, e)
    ensures Chained(events + [e])
  {
    var all := events + [e];
    forall k | 0 <= k < |all| ensures Follows(all[..k], all[k]) {
      if k < |events| { assert all[..k] == events[..k]; } else { assert all[..k] == events; }
    }
  }

  lemma ClaimAppend(claims: seq<Claim>, c: Claim, i: Id)
    ensures ClaimsOf(claims + [c], i) == ClaimsOf(claims, i) + (if c.item == i then 1 else 0)
    ensures LastClaimant(claims + [c], i) == if c.item == i then Some(c.attempt) else LastClaimant(claims, i)
  {
    assert (claims + [c])[..|claims|] == claims;
  }

  lemma NumberedAppend(claims: seq<Claim>, c: Claim)
    requires Numbered(claims) && c.generation == ClaimsOf(claims, c.item) + 1
    ensures Numbered(claims + [c])
  {
    var all := claims + [c];
    ClaimAppend(claims, c, c.item);
    forall k | 0 <= k < |all| ensures all[k].generation == ClaimsOf(all[..k + 1], all[k].item) {
      if k < |claims| { assert all[..k + 1] == claims[..k + 1]; } else { assert all[..k + 1] == all; }
    }
  }

  // ---- transactions ----

  lemma MoveKeeps(work: Work, item: Id, target: WorkState, attempt: Option<AttemptId>, reason: Reason, now: int)
    requires WorkInv(work) && item in work.items && LegalStep(work.items[item].state, target)
    ensures WorkInv(Move(work, item, target, attempt, reason, now))
            && WorkGrows(work, Move(work, item, target, attempt, reason, now))
  {
    var e := WorkEvent(item, attempt, work.items[item].state, target, reason, now);
    ChainAppend(work.events, e);
    forall i ensures Replay(work.events + [e], i) == if i == item then target else Replay(work.events, i) {
      ReplayAppend(work.events, e, i);
    }
  }

  lemma ReplayUnknown(events: seq<WorkEvent>, item: Id)
    requires forall k | 0 <= k < |events| :: events[k].item != item
    ensures Replay(events, item) == Discovered
  {
    if events != [] {
      var last := |events| - 1;
      forall k | 0 <= k < last ensures events[..last][k].item != item { assert events[..last][k] == events[k]; }
      ReplayUnknown(events[..last], item);
    }
  }

  lemma UnclaimedItem(claims: seq<Claim>, item: Id)
    requires forall k | 0 <= k < |claims| :: claims[k].item != item
    ensures ClaimsOf(claims, item) == 0 && LastClaimant(claims, item).None?
  {
    if claims != [] {
      var last := |claims| - 1;
      forall k | 0 <= k < last ensures claims[..last][k].item != item { assert claims[..last][k] == claims[k]; }
      UnclaimedItem(claims[..last], item);
    }
  }

  lemma InsertItemKeeps(work: Work, item: Id, details: ItemDetails)
    requires WorkInv(work) && item !in work.items
    ensures WorkInv(SaveWorkItem(work, item, details, Discovered))
    ensures WorkGrows(work, SaveWorkItem(work, item, details, Discovered))
  {
    InsertKeepsClaims(work, item, details);
    InsertKeepsLedger(work, item, details);
  }

  lemma InsertKeepsClaims(work: Work, item: Id, details: ItemDetails)
    requires ClaimInv(work) && item !in work.items
    ensures ClaimInv(SaveWorkItem(work, item, details, Discovered))
  {
    UnclaimedItem(work.claims, item);
  }

  lemma InsertKeepsLedger(work: Work, item: Id, details: ItemDetails)
    requires LedgerInv(work) && item !in work.items
    ensures LedgerInv(SaveWorkItem(work, item, details, Discovered))
  {
    ReplayUnknown(work.events, item);
  }

  lemma SaveAttemptKeeps(work: Work, attempt: AttemptId, row: Attempt)
    requires WorkInv(work)
    ensures WorkInv(SaveAttempt(work, attempt, row)) && WorkGrows(work, SaveAttempt(work, attempt, row))
  {
  }

  lemma SaveClaimKeeps(db: Db, item: Id, attempt: AttemptId)
    requires WorkInv(db.work) && item in db.work.items
    requires attempt in db.work.attempts && db.work.attempts[attempt].item == item
    requires forall k | 0 <= k < |db.work.claims| :: db.work.claims[k].attempt != attempt
    ensures var a := SaveClaim(db, item, attempt).db.work;
            && WorkInv(a) && WorkGrows(db.work, a)
            && a.items[item].currentAttempt == Some(attempt)
            && (forall k | 0 <= k < |db.work.claims| && db.work.claims[k].item == item ::
                  db.work.claims[k].generation < a.items[item].currentGeneration.value)
  {
    var a := SaveClaim(db, item, attempt).db.work;
    SaveClaimAuthority(db, item, attempt);
    forall k | 0 <= k < |db.work.claims| && db.work.claims[k].item == item
      ensures db.work.claims[k].generation < a.items[item].currentGeneration.value
    {
      ClaimsMonotone(db.work.claims, k + 1, item);
    }
  }

  lemma SaveClaimAuthority(db: Db, item: Id, attempt: AttemptId)
    requires ClaimInv(db.work) && item in db.work.items
    requires attempt in db.work.attempts && db.work.attempts[attempt].item == item
    requires forall k | 0 <= k < |db.work.claims| :: db.work.claims[k].attempt != attempt
    ensures var a := SaveClaim(db, item, attempt).db.work;
            && ClaimInv(a) && a.items[item].currentGeneration == Some(ClaimsOf(db.work.claims, item) + 1)
  {
    var c := Claim(item, attempt, NextGeneration(db.work, item));
    var a := SaveClaim(db, item, attempt).db.work;
    assert OwnerRecorded(db.work.claims, db.work.items[item], item);
    NumberedAppend(db.work.claims, c);
    PlacedAfterClaim(db, item, attempt);
    forall i | i in a.items ensures OwnerRecorded(a.claims, a.items[i], i) {
      assert OwnerRecorded(db.work.claims, db.work.items[i], i);
      OwnerAfterClaim(db.work.claims, c, db.work.items[i], i);
    }
  }

  lemma PlacedAfterClaim(db: Db, item: Id, attempt: AttemptId)
    requires ClaimsPlaced(db.work) && DistinctClaimants(db.work.claims) && item in db.work.items
    requires attempt in db.work.attempts && db.work.attempts[attempt].item == item
    requires forall k | 0 <= k < |db.work.claims| :: db.work.claims[k].attempt != attempt
    ensures ClaimsPlaced(SaveClaim(db, item, attempt).db.work)
    ensures DistinctClaimants(SaveClaim(db, item, attempt).db.work.claims)
  {
  }

  /** The new claimant becomes the owner of its item; every other owner stays. */
  lemma OwnerAfterClaim(claims: seq<Claim>, c: Claim, row: WorkItem, i: Id)
    requires OwnerRecorded(claims, row, i) && (c.item == i ==> c.generation == ClaimsOf(claims, i) + 1)
    ensures OwnerRecorded(claims + [c],
                          if c.item == i then row.(currentAttempt := Some(c.attempt),
                                                   currentGeneration := Some(c.generation))
                          else row, i)
  {
    ClaimAppend(claims, c, i);
  }

  lemma {:induction false} ClaimsMonotone(claims: seq<Claim>, k: nat, item: Id)
    requires k <= |claims|
    ensures ClaimsOf(claims[..k], item) <= ClaimsOf(claims, item)
    decreases |claims| - k
  {
    if k < |claims| {
      ClaimsMonotone(claims, k + 1, item);
      assert claims[..k + 1][..k] == claims[..k];
    } else {
      assert claims[..k] == claims;
    }
  }

  /** Leases, checkpoints and attempt outcomes play no part in the invariant. */
  predicate SameAuthority(m: Work, w: Work) {
    && w.items == m.items && w.claims == m.claims && w.events == m.events
    && w.attempts.Keys == m.attempts.Keys
    && forall x | x in m.attempts :: w.attempts[x].item == m.attempts[x].item
  }

  lemma SameAuthorityKeeps(m: Work, w: Work)
    requires WorkInv(m) && SameAuthority(m, w)
    ensures WorkInv(w)
  {
  }

  lemma ReapAuthority(work: Work, attempt: AttemptId, reason: Reason, now: int)
    ensures var w := Reap(work, attempt, reason, now);
            if attempt in work.attempts && SweepFences(work, work.attempts[attempt].item, attempt)
            then SameAuthority(Move(work, work.attempts[attempt].item, ItemRecovery, Some(attempt), reason, now), w)
            else SameAuthority(work, w)
  {
  }

  lemma ReapKeeps(work: Work, attempt: AttemptId, reason: Reason, now: int)
    requires WorkInv(work)
    ensures WorkInv(Reap(work, attempt, reason, now)) && WorkGrows(work, Reap(work, attempt, reason, now))
  {
    var w := Reap(work, attempt, reason, now);
    ReapAuthority(work, attempt, reason, now);
    if attempt in work.attempts && SweepFences(work, work.attempts[attempt].item, attempt) {
      var item := work.attempts[attempt].item;
      MoveKeeps(work, item, ItemRecovery, Some(attempt), reason, now);
      SameAuthorityKeeps(Move(work, item, ItemRecovery, Some(attempt), reason, now), w);
    } else {
      SameAuthorityKeeps(work, w);
    }
  }

  // ---- the sweep, seen from the work tables ----

  lemma {:induction false} PassKeepsWork(db: Db, env: Env, snapshot: map<Id, Request>, rows: seq<Id>, swept: seq<Id>)
    requires snapshot.Keys == db.host.requests.Keys && forall x | x in rows :: x in snapshot
    requires WorkInv(db.work)
    ensures var w := SweepPass(db, env, snapshot, rows, swept).db.work; WorkInv(w) && WorkGrows(db.work, w)
    decreases |rows|
  {
    if rows != [] {
      var id := rows[0];
      assert forall x | x in rows[1..] :: x in rows;
      var verdict := Verdict(db.host, env, id, snapshot[id], IdSet(swept));
      if verdict.None? {
        PassKeepsWork(db, env, snapshot, rows[1..], swept);
      } else {
        ReapKeeps(db.work, snapshot[id].attempt, SweepReason(verdict.value), env.now);
        PassKeepsWork(SweepOne(db, env, id, snapshot[id], verdict.value), env, snapshot, rows[1..], swept + [id]);
      }
    }
  }

  lemma {:induction false} LoopKeepsWork(db: Db, env: Env, swept: seq<Id>)
    requires WorkInv(db.work) && forall x | x in swept :: x in db.host.requests
    ensures var w := SweepFrom(db, env, swept).db.work; WorkInv(w) && WorkGrows(db.work, w)
    decreases |db.host.requests.Keys - IdSet(swept)|
  {
    PassKeepsWork(db, env, db.host.requests, Candidates(db.host.requests), swept);
    var pass := SweepPass(db, env, db.host.requests, Candidates(db.host.requests), swept);
    if pass.swept != swept {
      PassProgress(db, env, swept);
      LoopKeepsWork(pass.db, env, pass.swept);
    }
  }

  lemma SweepKeepsWork(db: Db, env: Env)
    requires WorkInv(db.work)
    ensures var w := Sweep(db, env).db.work; WorkInv(w) && WorkGrows(db.work, w)
  {
    if SweepEnabled(env.config) { LoopKeepsWork(db, env, []); }
  }

  // ---- fencing ----

  lemma ClaimGenerationOf(claims: seq<Claim>, k: nat)
    requires k < |claims| && DistinctClaimants(claims)
    ensures ClaimGeneration(claims, claims[k].attempt) == Some(claims[k].generation)
  {
    if claims[0].attempt != claims[k].attempt {
      assert claims[1..][k - 1] == claims[k];
      assert DistinctClaimants(claims[1..]);
      ClaimGenerationOf(claims[1..], k - 1);
    } else {
      assert k == 0;
    }
  }

  lemma LastClaimantIsLast(claims: seq<Claim>, k: nat)
    requires k < |claims|
    ensures exists m :: k <= m < |claims| && claims[m].item == claims[k].item
                     && LastClaimant(claims, claims[k].item) == Some(claims[m].attempt)
  {
    var last := |claims| - 1;
    if claims[last].item != claims[k].item {
      assert claims[..last][k] == claims[k];
      LastClaimantIsLast(claims[..last], k);
      var m :| k <= m < last && claims[..last][m].item == claims[k].item
               && LastClaimant(claims[..last], claims[k].item) == Some(claims[..last][m].attempt);
      assert claims[m] == claims[..last][m];
    }
  }

  /** An attempt that has been superseded owns nothing, whatever the timestamps say. */
  lemma SupersededOwnsNothing(work: Work, attempt: AttemptId)
    requires ClaimInv(work) && Superseded(work.claims, attempt)
    ensures forall i | i in work.items :: work.items[i].currentAttempt != Some(attempt)
  {
    var j, k :| 0 <= j < k < |work.claims| && work.claims[j].attempt == attempt
        && work.claims[k].item == work.claims[j].item;
    LastClaimantIsLast(work.claims, k);
    forall i | i in work.items ensures work.items[i].currentAttempt != Some(attempt) {
      assert OwnerRecorded(work.claims, work.items[i], i);
      if work.items[i].currentAttempt == Some(attempt) { OwnerIsAClaimant(work.claims, i); }
    }
  }

  lemma OwnerIsAClaimant(claims: seq<Claim>, item: Id)
    requires LastClaimant(claims, item).Some?
    ensures exists m :: 0 <= m < |claims| && claims[m].item == item
                     && claims[m].attempt == LastClaimant(claims, item).value
  {
    var last := |claims| - 1;
    if claims[last].item != item {
      OwnerIsAClaimant(claims[..last], item);
      var m :| 0 <= m < last && claims[..last][m].item == item
               && claims[..last][m].attempt == LastClaimant(claims[..last], item).value;
      assert claims[m] == claims[..last][m];
    }
  }

  /** The worker fence refuses every completion, checkpoint and heartbeat of a superseded attempt. */
  lemma SupersededIsRefused(db: Db, attempt: AttemptId, item: Option<Id>, lease: Option<Id>, generation: int, now: int)
    requires ClaimInv(db.work) && Superseded(db.work.claims, attempt)
    ensures !FencePasses(db, attempt, item, lease, generation, now)
  {
    SupersededOwnsNothing(db.work, attempt);
  }

  /** Sweeping the slot of a superseded attempt moves no work item. */
  lemma SupersededReapMovesNothing(work: Work, attempt: AttemptId, reason: Reason, now: int)
    requires ClaimInv(work) && Superseded(work.claims, attempt)
    ensures Reap(work, attempt, reason, now).items == work.items
    ensures Reap(work, attempt, reason, now).events == work.events
  {
    SupersededOwnsNothing(work, attempt);
  }

  lemma SupersededForever(claims: seq<Claim>, later: seq<Claim>, attempt: AttemptId)
    requires claims <= later && Superseded(claims, attempt)
    ensures Superseded(later, attempt)
  {
    var j, k :| 0 <= j < k < |claims| && claims[j].attempt == attempt && claims[k].item == claims[j].item;
    assert later[j] == claims[j] && later[k] == claims[k];
  }

  /** The fence that is validated first already implies the one repeated in the write. */
  lemma FenceImpliesWriteFence(db: Db, attempt: AttemptId, item: Option<Id>, lease: Option<Id>, generation: int,
                               now: int)
    requires ClaimInv(db.work) && FencePasses(db, attempt, item, lease, generation, now)
    ensures WriteFence(db.work, attempt) && LeaseOfGeneration(db.work, attempt, generation)
  {
    var i := db.work.attempts[attempt].item;
    assert OwnerRecorded(db.work.claims, db.work.items[i], i);
    OwnerIsAClaimant(db.work.claims, i);
    var m :| 0 <= m < |db.work.claims| && db.work.claims[m].item == i && db.work.claims[m].attempt == attempt;
    ClaimGenerationOf(db.work.claims, m);
  }
}
