/** Authorization (scripts/conductor_model.py) and the enqueue, authorize and claim commands of
    scripts/conductor_commands.py, each a sequence of store transactions. */
module Commands {
  import opened Collections
  import opened HostModel
  import opened ConductorModel
  import opened WorkStore
  import opened WorkProof
  import opened Store

  const AUTHORIZATION_TTL := 604800
  const CLAIM_TTL := 300

  predicate Past(stamp: Stamp, now: int) { stamp.Unreadable? || stamp.time <= now }

  /** A recorded expiry, or issue time plus the backstop for records granted without one. */
  predicate AuthorizationPast(auth: Authorization, now: int) {
    if auth.expiresAt.Some? then Past(auth.expiresAt.value, now)
    else auth.issuedAt.Unreadable? || auth.issuedAt.time + AUTHORIZATION_TTL <= now
  }

  /** None when the record still authorizes this scope, else why it does not. */
  function AuthorizationRefusal(auth: Option<Authorization>, scope: Id, now: int): Option<Reason> {
    if auth.None? || !auth.value.interactive then Some(AuthorizationMissing)
    else if AuthorizationPast(auth.value, now) then Some(AuthorizationExpired)
    else if auth.value.scopeDigest != scope then Some(AuthorizationScopeMismatch)
    else None
  }

  predicate IssuedLater(a: Authorization, b: Authorization) {
    a.issuedAt.At? && (b.issuedAt.Unreadable? || a.issuedAt.time > b.issuedAt.time)
  }

  /** The latest recorded authorization of an item. */
  function AuthorizationOf(auths: seq<Authorization>, item: Id): Option<Authorization> {
    if auths == [] then None
    else
      var a := auths[|auths| - 1];
      var rest := AuthorizationOf(auths[..|auths| - 1], item);
      if a.item == item && (rest.None? || IssuedLater(a, rest.value)) then Some(a) else rest
  }

  predicate NeedsAuthorization(risk: RiskClass) { risk == R2 || risk == R3 }

  /** What keeps a READY item from being claimed at this instant, if anything. */
  function ClaimRefusal(work: Work, item: Id, now: int): Option<Reason>
    requires item in work.items
  {
    var details := work.items[item].details;
    if NeedsAuthorization(details.risk) then
      AuthorizationRefusal(AuthorizationOf(work.authorizations, item), details.scopeDigest, now)
    else None
  }

  datatype Claimant = Claimant(attempt: AttemptId, lease: Id, agent: Id)

  datatype Reply =
    | Enqueued(item: Id)
    | AlreadyExists(item: Id)
    | Claimed(item: Id, attempt: AttemptId, lease: Id)
    | OnHold(why: Reason)
    | NotReady
    | NotFound
    | Authorized(item: Id)
    | ContextMismatch

  function FindItem(items: map<Id, WorkItem>, key: Id): (i: Option<Id>)
    ensures i.Some? ==> i.value in items && items[i.value].details.idempotencyKey == key
    ensures i.None? ==> forall x | x in items :: items[x].details.idempotencyKey != key
  {
    var found := set x | x in items && items[x].details.idempotencyKey == key;
    if found == {} then
      assert forall x | x in items && items[x].details.idempotencyKey == key :: x in found;
      None
    else Some(AnyOf(found))
  }

  /** The tables once an attempt, its claim and its lease have been recorded. */
  function ClaimRows(db: Db, item: Id, who: Claimant, now: int): Db
    requires item in db.work.items
  {
    var w1 := SaveAttempt(db.work, who.attempt, Attempt(item, InProgress, NoReason));
    var d2 := After(db.(work := w1), SaveClaim(db.(work := w1), item, who.attempt));
    d2.(work := SaveLease(d2.work, who.lease, WorkLease(who.attempt, who.agent, 1, now + CLAIM_TTL, now, 1)).0)
  }

  /** The tables after a successful claim. */
  function ClaimedDb(db: Db, item: Id, who: Claimant, now: int): Db
    requires item in db.work.items
  {
    var rows := ClaimRows(db, item, who, now);
    After(rows, Transition(rows, item, WorkState.Claimed, Some(who.attempt), WorkItemClaimed, now))
  }

  /** The GO on record, and the item READY if it was waiting for one. */
  function Granted(work: Work, item: Id, now: int): Work
    requires item in work.items
  {
    var recorded := work.(authorizations := work.authorizations + [GrantedNow(work.items[item], item, now)]);
    if work.items[item].state == ItemQueued || work.items[item].state == Hold
    then Move(recorded, item, Ready, None, AuthorizationGranted, now)
    else recorded
  }

  class ConductorCommandProcessor {
    const store: ConductorStore

    constructor (store: ConductorStore)
      ensures this.store == store
    {
      this.store := store;
    }

    /** Enqueue once per idempotency key: the item ends up QUEUED with one event. */
    method HandleEnqueue(item: Id, details: ItemDetails, now: int) returns (reply: Reply)
      modifies store
      ensures reply.AlreadyExists? ==>
                && store.Tables() == old(store.Tables())
                && reply.item in store.items && store.items[reply.item].details.idempotencyKey == details.idempotencyKey
      ensures !reply.AlreadyExists? ==>
                && reply == Enqueued(item)
                && (forall x | x in old(store.items) ::
                      old(store.items)[x].details.idempotencyKey != details.idempotencyKey)
                && store.Tables() == old(store.Tables()).(
                     work := Move(SaveWorkItem(old(store.WorkTables()), item, details, Discovered),
                                  item, ItemQueued, None,
                                  OperatorEnqueue, now))
    {
      var existing := FindItem(store.items, details.idempotencyKey);
      if existing.Some? { return AlreadyExists(existing.value); }
      store.SaveItem(item, details, Discovered);
      var refused := store.TransitionWorkItemState(item, ItemQueued, None, OperatorEnqueue, now);
      reply := Enqueued(item);
    }

    /** The operator's ceremony: record a GO for the item's present scope and ready it. */
    method GrantAuthorization(item: Id, context: Option<Id>, now: int) returns (reply: Reply)
      modifies store
      ensures item !in old(store.items) ==> reply == NotFound && store.Tables() == old(store.Tables())
      ensures item in old(store.items) && context !in {None, Some(old(store.items)[item].details.contextDigest)} ==>
                reply == ContextMismatch && store.Tables() == old(store.Tables())
      ensures item in old(store.items) && context in {None, Some(old(store.items)[item].details.contextDigest)} ==>
                && reply == Authorized(item) && store.HostTables() == old(store.HostTables())
                && store.WorkTables() == Granted(old(store.WorkTables()), item, now)
    {
      if item !in store.items { return NotFound; }
      if context.Some? && context.value != store.items[item].details.contextDigest { return ContextMismatch; }
      store.authorizations := store.authorizations + [GrantedNow(store.items[item], item, now)];
      if store.items[item].state == ItemQueued || store.items[item].state == Hold {
        var refused := store.TransitionWorkItemState(item, Ready, None, AuthorizationGranted, now);
      }
      reply := Authorized(item);
    }

    method RecordClaimRows(item: Id, who: Claimant, now: int)
      requires item in store.items
      modifies store
      ensures store.Tables() == ClaimRows(old(store.Tables()), item, who, now)
    {
      store.RecordAttempt(who.attempt, Attempt(item, InProgress, NoReason));
      var refused := store.RecordClaim(item, who.attempt);
      var written := store.RecordLease(who.lease, WorkLease(who.attempt, who.agent, 1, now + CLAIM_TTL, now, 1));
    }

    /** Claim an eligible item, or put it on HOLD when its authorization no longer stands. */
    method HandleClaim(item: Id, who: Claimant, now: int) returns (reply: Reply)
      modifies store
      ensures item !in old(store.items) ==> reply == NotFound && store.Tables() == old(store.Tables())
      ensures item in old(store.items) && old(store.items)[item].state != Ready ==>
                reply == NotReady && store.Tables() == old(store.Tables())
      ensures item in old(store.items) && old(store.items)[item].state == Ready ==>
                var refusal := ClaimRefusal(old(store.WorkTables()), item, now);
                if refusal.Some? then
                  && reply == OnHold(refusal.value)
                  && store.Tables() == old(store.Tables()).(
                       work := Move(old(store.WorkTables()), item, Hold, None, refusal.value, now))
                else
                  && reply == Reply.Claimed(item, who.attempt, who.lease)
                  && store.Tables() == ClaimedDb(old(store.Tables()), item, who, now)
    {
      if item !in store.items { return NotFound; }
      if store.items[item].state != Ready { return NotReady; }
      var refusal := ClaimRefusal(store.WorkTables(), item, now);
      if refusal.Some? {
        var refused := store.TransitionWorkItemState(item, Hold, None, refusal.value, now);
        return OnHold(refusal.value);
      }
      RecordClaimRows(item, who, now);
      var refused := store.TransitionWorkItemState(item, WorkState.Claimed, Some(who.attempt), WorkItemClaimed, now);
      reply := Reply.Claimed(item, who.attempt, who.lease);
    }
  }

  function GrantedNow(row: WorkItem, item: Id, now: int): Authorization {
    Authorization(item, row.details.scopeDigest, At(now), Some(At(now + AUTHORIZATION_TTL)), true)
  }

  /** A GO just given is one the claim path accepts, and goes on accepting until it expires. */
  lemma GrantStands(work: Work, item: Id, now: int, later: int)
    requires item in work.items
    requires forall k | 0 <= k < |work.authorizations| ::
               work.authorizations[k].issuedAt.Unreadable? || work.authorizations[k].issuedAt.time < now
    ensures ClaimRefusal(Granted(work, item, now), item, later).None? <==>
            !NeedsAuthorization(work.items[item].details.risk) || later < now + AUTHORIZATION_TTL
  {
    var granted := GrantedNow(work.items[item], item, now);
    var all := work.authorizations + [granted];
    assert all[..|work.authorizations|] == work.authorizations;
    LatestIsKnown(work.authorizations, item);
    assert AuthorizationOf(all, item) == Some(granted);
  }

  lemma {:induction false} LatestIsKnown(auths: seq<Authorization>, item: Id)
    ensures AuthorizationOf(auths, item).Some? ==>
              exists k :: 0 <= k < |auths| && auths[k] == AuthorizationOf(auths, item).value
  {
    if auths != [] {
      var rest := auths[..|auths| - 1];
      LatestIsKnown(rest, item);
      if AuthorizationOf(auths, item) == AuthorizationOf(rest, item) && AuthorizationOf(rest, item).Some? {
        var k :| 0 <= k < |rest| && rest[k] == AuthorizationOf(rest, item).value;
        assert auths[k] == AuthorizationOf(auths, item).value;
      }
    }
  }

  // ---- what a claim is worth ----

  /** Minted attempt and lease ids have never been used. */
  ghost predicate FreshClaimant(db: Db, who: Claimant) {
    && who.attempt !in db.work.attempts && who.lease !in db.work.leases
    && (forall k | 0 <= k < |db.work.claims| :: db.work.claims[k].attempt != who.attempt)
    && (forall l | l in db.work.leases :: db.work.leases[l].attempt != who.attempt)
    && (forall r | r in db.host.requests :: db.host.requests[r].attempt != who.attempt)
  }

  /** What the three rows of a claim leave behind. */
  ghost predicate RecordedFor(b: Work, w: Work, item: Id, who: Claimant, now: int) {
    && item in w.items && item in b.items && w.items[item].state == b.items[item].state && w.events == b.events
    && w.claims == b.claims + [Claim(item, who.attempt, NextGeneration(b, item))]
    && w.items[item].currentAttempt == Some(who.attempt)
    && w.items[item].currentGeneration == Some(NextGeneration(b, item))
    && w.attempts == b.attempts[who.attempt := Attempt(item, InProgress, NoReason)]
    && w.leases == b.leases[who.lease := WorkLease(who.attempt, who.agent, 1, now + CLAIM_TTL, now, 1)]
  }

  lemma ClaimRowsRecord(db: Db, item: Id, who: Claimant, now: int)
    requires item in db.work.items && who.attempt !in db.work.attempts && who.lease !in db.work.leases
    ensures RecordedFor(db.work, ClaimRows(db, item, who, now).work, item, who, now)
    ensures ClaimRows(db, item, who, now).host == db.host
  {
  }

  lemma ClaimRowsKeep(db: Db, item: Id, who: Claimant, now: int)
    requires WorkInv(db.work) && item in db.work.items && FreshClaimant(db, who)
    ensures WorkInv(ClaimRows(db, item, who, now).work)
  {
    var row := Attempt(item, InProgress, NoReason);
    var w1 := SaveAttempt(db.work, who.attempt, row);
    SaveAttemptKeeps(db.work, who.attempt, row);
    var d1 := db.(work := w1);
    assert d1.work.claims == db.work.claims;
    SaveClaimKeeps(d1, item, who.attempt);
    SameAuthorityKeeps(SaveClaim(d1, item, who.attempt).db.work, ClaimRows(db, item, who, now).work);
  }

  lemma ClaimedRows(db: Db, item: Id, who: Claimant, now: int)
    requires WorkInv(db.work) && item in db.work.items && db.work.items[item].state == Ready && FreshClaimant(db, who)
    ensures var d := ClaimedDb(db, item, who, now);
            && WorkInv(d.work) && d.host == db.host
            && item in d.work.items && d.work.items[item].state == WorkState.Claimed
            && d.work.items[item].currentAttempt == Some(who.attempt)
            && d.work.items[item].currentGeneration == Some(NextGeneration(db.work, item))
            && d.work.claims == db.work.claims + [Claim(item, who.attempt, NextGeneration(db.work, item))]
            && d.work.attempts == db.work.attempts[who.attempt := Attempt(item, InProgress, NoReason)]
            && d.work.leases
               == db.work.leases[who.lease := WorkLease(who.attempt, who.agent, 1, now + CLAIM_TTL, now, 1)]
  {
    ClaimRowsKeep(db, item, who, now);
    ClaimRowsRecord(db, item, who, now);
    var rows := ClaimRows(db, item, who, now);
    MoveKeeps(rows.work, item, WorkState.Claimed, Some(who.attempt), WorkItemClaimed, now);
  }

  lemma OwnerPassesWhileLeased(d: Db, item: Id, attempt: AttemptId, lease: Id, later: int)
    requires attempt in d.work.attempts && d.work.attempts[attempt] == Attempt(item, InProgress, NoReason)
    requires !SlotAutoReleased(d.host, attempt) && OwnsItem(d.work, item, attempt)
    requires LeaseFor(d.work.leases, attempt) == Some(lease) && d.work.leases[lease].generation == 1
    ensures FencePasses(d, attempt, Some(item), Some(lease), 1, later) <==> later < d.work.leases[lease].expiresAt
  {
  }

  lemma OnlyLease(leases: map<Id, WorkLease>, id: Id, lease: WorkLease)
    requires id !in leases && forall l | l in leases :: leases[l].attempt != lease.attempt
    ensures LeaseFor(leases[id := lease], lease.attempt) == Some(id)
  {
    assert id in leases[id := lease];
  }

  /** A successful claim makes its attempt the owner: until its lease expires, and no longer, it
      passes the worker fence. */
  lemma ClaimTakesOver(db: Db, item: Id, who: Claimant, now: int, later: int)
    requires WorkInv(db.work) && item in db.work.items && db.work.items[item].state == Ready && FreshClaimant(db, who)
    ensures FencePasses(ClaimedDb(db, item, who, now), who.attempt, Some(item), Some(who.lease), 1, later)
       <==> later < now + CLAIM_TTL
  {
    ClaimedRows(db, item, who, now);
    var d := ClaimedDb(db, item, who, now);
    ClaimGenerationOf(d.work.claims, |db.work.claims|);
    OnlyLease(db.work.leases, who.lease, WorkLease(who.attempt, who.agent, 1, now + CLAIM_TTL, now, 1));
    OwnerPassesWhileLeased(d, item, who.attempt, who.lease, later);
  }

  /** ... and every earlier claimant of the item is refused from then on. */
  lemma ClaimSupersedesOthers(db: Db, item: Id, who: Claimant, now: int, k: nat,
                              lease: Option<Id>, generation: int, later: int)
    requires WorkInv(db.work) && item in db.work.items && db.work.items[item].state == Ready && FreshClaimant(db, who)
    requires k < |db.work.claims| && db.work.claims[k].item == item
    ensures !FencePasses(ClaimedDb(db, item, who, now), db.work.claims[k].attempt, Some(item), lease, generation, later)
  {
    ClaimedRows(db, item, who, now);
    var d := ClaimedDb(db, item, who, now);
    assert d.work.claims[k] == db.work.claims[k] && d.work.claims[|db.work.claims|].item == item;
    SupersededIsRefused(d, db.work.claims[k].attempt, Some(item), lease, generation, later);
  }
}
