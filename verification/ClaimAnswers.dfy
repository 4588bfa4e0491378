/** What a GO is worth, and what granting one or claiming an item changes, said of the rows. */
module ClaimAnswers {
  import opened Collections
  import opened HostModel
  import opened ConductorModel
  import opened WorkStore
  import opened WorkProof
  import opened Commands

  // ---- the GO ----

  /** Issued no later; a time nobody can read counts as before every other. */
  predicate NotAfter(a: Stamp, b: Stamp) { a.Unreadable? || (b.At? && a.time <= b.time) }

  /** Record k is the item's latest GO: none of the item's was issued after it, none before it in the table
      at the same time. */
  predicate Latest(auths: seq<Authorization>, item: Id, k: int) {
    && 0 <= k < |auths| && auths[k].item == item
    && (forall j | 0 <= j < |auths| && auths[j].item == item :: NotAfter(auths[j].issuedAt, auths[k].issuedAt))
    && (forall j | 0 <= j < k && auths[j].item == item :: !NotAfter(auths[k].issuedAt, auths[j].issuedAt))
  }

  /** It has run out: at its expiry, or a week after its issue when it has none; what cannot be read is past. */
  predicate RanOutBy(auth: Authorization, now: int) {
    match auth.expiresAt
    case Some(At(t)) => t <= now
    case Some(Unreadable) => true
    case None => match auth.issuedAt case At(t) => t + 7 * 24 * 3600 <= now case Unreadable => true
  }

  /** What the latest GO of an item says at this instant; None when it stands. */
  ghost predicate Says(work: Work, item: Id, now: int, answer: Option<Reason>)
    requires item in work.items
  {
    if forall k | 0 <= k < |work.authorizations| :: work.authorizations[k].item != item then
      answer == Some(AuthorizationMissing)
    else
      exists k :: && Latest(work.authorizations, item, k)
                  && var auth := work.authorizations[k];
                     answer == if !auth.interactive then Some(AuthorizationMissing)
                               else if RanOutBy(auth, now) then Some(AuthorizationExpired)
                               else if auth.scopeDigest != work.items[item].details.scopeDigest
                               then Some(AuthorizationScopeMismatch)
                               else None
  }

  lemma LatestStays(auths: seq<Authorization>, item: Id, last: nat, k: int)
    requires last == |auths| - 1 && Latest(auths[..last], item, k)
    requires auths[last].item == item ==> !IssuedLater(auths[last], auths[k])
    ensures Latest(auths, item, k)
  {
    assert forall j | 0 <= j < last :: auths[..last][j] == auths[j];
  }

  lemma LatestMoves(auths: seq<Authorization>, item: Id, last: nat, k: int)
    requires last == |auths| - 1 && Latest(auths[..last], item, k)
    requires auths[last].item == item && IssuedLater(auths[last], auths[k])
    ensures Latest(auths, item, last)
  {
    assert forall j | 0 <= j < last :: auths[..last][j] == auths[j];
  }

  lemma {:induction false} LatestFound(auths: seq<Authorization>, item: Id)
    ensures AuthorizationOf(auths, item).None? <==> forall k | 0 <= k < |auths| :: auths[k].item != item
    ensures AuthorizationOf(auths, item).Some? ==>
              exists k :: Latest(auths, item, k) && AuthorizationOf(auths, item) == Some(auths[k])
  {
    if auths != [] {
      var last := |auths| - 1;
      var rest := auths[..last];
      LatestFound(rest, item);
      assert forall k | 0 <= k < last :: rest[k] == auths[k];
      if AuthorizationOf(rest, item).Some? {
        var k :| Latest(rest, item, k) && AuthorizationOf(rest, item) == Some(rest[k]);
        if auths[last].item == item && IssuedLater(auths[last], rest[k]) {
          LatestMoves(auths, item, last, k);
        } else {
          LatestStays(auths, item, last, k);
        }
      } else if auths[last].item == item {
        assert Latest(auths, item, last);
      }
    }
  }

  /** The claim path asks for a GO exactly of items at risk R2 or R3, and then answers what the latest
      one says. */
  lemma ClaimRefusalSays(work: Work, item: Id, now: int)
    requires item in work.items
    ensures var answer := ClaimRefusal(work, item, now);
            if work.items[item].details.risk in {R0, R1} then answer.None? else Says(work, item, now, answer)
  {
    LatestFound(work.authorizations, item);
  }

  // ---- granting and claiming ----

  /** A GO is recorded for the item's present scope, from now for a week; an item queued or on hold becomes
      READY with its event, any other stays where it is, and nothing else changes. */
  lemma GrantedRows(work: Work, item: Id, now: int)
    requires item in work.items
    ensures var w := Granted(work, item, now);
            && w.authorizations
               == work.authorizations + [Authorization(item, work.items[item].details.scopeDigest, At(now),
                                                       Some(At(now + 7 * 24 * 3600)), true)]
            && w.claims == work.claims && w.attempts == work.attempts && w.leases == work.leases
            && w.checkpoints == work.checkpoints
            && (if work.items[item].state in {ItemQueued, Hold} then
                  && w.items == work.items[item := work.items[item].(state := Ready)]
                  && w.events
                     == work.events + [WorkEvent(item, None, work.items[item].state, Ready, AuthorizationGranted, now)]
                else w.items == work.items && w.events == work.events)
  {
  }

  /** A claim of a READY item records the attempt, the claim at the next generation, and the lease for 300
      seconds, makes the attempt the owner and the item CLAIMED with its event; nothing else changes. */
  lemma ClaimedTables(db: Db, item: Id, who: Claimant, now: int)
    requires item in db.work.items && db.work.items[item].state == Ready
    requires who.attempt !in db.work.attempts && who.lease !in db.work.leases
    ensures var w := ClaimedDb(db, item, who, now).work; var row := db.work.items[item];
            var generation := (if row.currentGeneration.Some? then row.currentGeneration.value else 0) + 1;
            && ClaimedDb(db, item, who, now).host == db.host
            && w.claims == db.work.claims + [Claim(item, who.attempt, generation)]
            && w.attempts == db.work.attempts[who.attempt := Attempt(item, InProgress, NoReason)]
            && w.leases == db.work.leases[who.lease := WorkLease(who.attempt, who.agent, 1, now + 300, now, 1)]
            && w.items == db.work.items[item := row.(state := WorkState.Claimed, currentAttempt := Some(who.attempt),
                                                     currentGeneration := Some(generation))]
            && w.events
               == db.work.events
                  + [WorkEvent(item, Some(who.attempt), Ready, WorkState.Claimed, WorkItemClaimed, now)]
            && w.checkpoints == db.work.checkpoints && w.authorizations == db.work.authorizations
  {
    ClaimRowsRecord(db, item, who, now);
  }

  /** An attempt's first row is as given; a later one replaces its status and reason, never its item. */
  lemma AttemptRecorded(work: Work, attempt: AttemptId, row: Attempt)
    ensures var w := SaveAttempt(work, attempt, row);
            && w == work.(attempts := w.attempts) && w.attempts.Keys == work.attempts.Keys + {attempt}
            && (forall a | a in work.attempts && a != attempt :: w.attempts[a] == work.attempts[a])
            && w.attempts[attempt]
               == Attempt(if attempt in work.attempts then work.attempts[attempt].item else row.item, row.status,
                          row.reason)
  {
  }

  /** Saving a known item replaces its priority, dependencies, scope, context and state, and nothing else. */
  lemma SavedAgain(work: Work, item: Id, details: ItemDetails, state: WorkState)
    requires item in work.items
    ensures var w := SaveWorkItem(work, item, details, state); var was, row := work.items[item], w.items[item];
            && w == work.(items := work.items[item := row])
            && row.state == state && row.details.priority == details.priority
            && row.details.dependencies == details.dependencies
            && row.details.scopeDigest == details.scopeDigest && row.details.contextDigest == details.contextDigest
            && row.details.idempotencyKey == was.details.idempotencyKey && row.details.repo == was.details.repo
            && row.details.risk == was.details.risk && row.details.job == was.details.job
            && row.details.createdAt == was.details.createdAt
            && row.currentAttempt == was.currentAttempt && row.currentGeneration == was.currentGeneration
  {
  }

  /** Enqueuing under a new key adds one QUEUED item without an owner, with its event. */
  lemma EnqueuedTables(work: Work, item: Id, details: ItemDetails, now: int)
    requires item !in work.items
    requires forall x | x in work.items :: work.items[x].details.idempotencyKey != details.idempotencyKey
    ensures var w := Move(SaveWorkItem(work, item, details, Discovered), item, ItemQueued, None, OperatorEnqueue, now);
            && w.items == work.items[item := WorkItem(details, ItemQueued, None, None)]
            && w.events == work.events + [WorkEvent(item, None, Discovered, ItemQueued, OperatorEnqueue, now)]
            && w == work.(items := w.items, events := w.events)
  {
  }
}
