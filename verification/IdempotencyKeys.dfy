/** Idempotency keys: no two resource requests and no two work items ever share one, and asking
    again under a key already used adds nothing. */
module IdempotencyKeys {
  import opened Collections
  import opened HostModel
  import opened ConductorModel
  import opened HostInvariant
  import opened HostSweep
  import opened HostSweepProof
  import opened HostOperations
  import opened HostOperationsProof
  import opened WorkStore

  // ---- resource requests ----

  ghost predicate OneRowPerKey(requests: map<Id, Request>) {
    forall q, r | q in requests && r in requests && requests[q].idempotencyKey == requests[r].idempotencyKey :: q == r
  }

  /** Nothing is new but, perhaps, one row under a key that was not in use. */
  predicate AddsRow(b: map<Id, Request>, a: map<Id, Request>, id: Id) {
    forall r | r in a :: r in b || (r == id && forall x | x in b :: b[x].idempotencyKey != a[r].idempotencyKey)
  }

  lemma RowsKeepKeys(b: Host, a: Host, id: Id)
    requires OneRowPerKey(b.requests) && RequestsEvolve(b, a) && AddsRow(b.requests, a.requests, id)
    ensures OneRowPerKey(a.requests)
  {
    forall q, r | q in a.requests && r in a.requests && a.requests[q].idempotencyKey == a.requests[r].idempotencyKey
      ensures q == r
    {
      assert forall x | x in b.requests :: SameRow(b.requests[x], a.requests[x]);
    }
  }

  lemma DecisionAddsRow(b: map<Id, Request>, db: Db, swept: Db, env: Env, ask: Ask, capacity: int)
    requires db.host.requests.Keys == b.Keys == swept.host.requests.Keys
    requires forall x | x in b :: b[x].idempotencyKey != ask.idempotencyKey
    ensures AddsRow(b, AdmitOrInherit(db, swept, env, ask, capacity).db.host.requests, ask.id)
  {
    forall rejected ensures OnlyAdds(swept, Admit(swept, env, ask, capacity, rejected).db, ask) {
      AdmitAdds(swept, env, ask, capacity, rejected);
    }
    if ask.inherit.Some? { InheritAdds(swept, env, ask, ask.inherit.value); }
  }

  /** Only the row that was asked for is new. */
  predicate OnlyAdds(b: Db, a: Db, ask: Ask) {
    && a.host.requests.Keys == b.host.requests.Keys + {ask.id}
    && a.host.requests[ask.id].idempotencyKey == ask.idempotencyKey
  }

  lemma AdmitAdds(db: Db, env: Env, ask: Ask, capacity: int, rejected: Option<Reason>)
    ensures OnlyAdds(db, Admit(db, env, ask, capacity, rejected).db, ask)
  {
  }

  lemma InheritAdds(db: Db, env: Env, ask: Ask, lease: Id)
    ensures OnlyAdds(db, Inherit(db, env, ask, lease).db, ask)
  {
  }

  lemma RequestAddsRow(db: Db, env: Env, ask: Ask)
    ensures AddsRow(db.host.requests, RequestStep(db, env, ask).db.host.requests, ask.id)
  {
    if ReachesSweep(db, ask) {
      DecisionAddsRow(db.host.requests, db, Sweep(db, env).db, env, ask, db.host.pools[ask.key].capacity);
    }
  }

  lemma LogFocusedAddsRow(db: Db, env: Env, ask: Ask)
    ensures AddsRow(db.host.requests, LogFocusedStep(db, env, ask).db.host.requests, ask.id)
  {
  }

  lemma RetainAddsRow(db: Db, env: Env, id: Id, key: ResourceKey, observation: Id, details: ObservationDetails)
    ensures AddsRow(db.host.requests, RetainStep(db, env, id, key, observation, details).db.host.requests, id)
  {
  }

  lemma FreeAddsNone(db: Db, env: Env, id: Id, reason: Reason, attested: bool)
    requires id in db.host.requests
    ensures FreeAndPromote(db, env, id, reason, attested).db.host.requests.Keys == db.host.requests.Keys
  {
  }

  lemma ReleaseAddsNone(db: Db, env: Env, id: Id, reason: Reason)
    ensures ReleaseStep(db, env, id, reason).db.host.requests.Keys == db.host.requests.Keys
  {
    if id in db.host.requests { FreeAddsNone(db, env, id, reason, false); }
  }

  lemma RecoverAddsNone(db: Db, env: Env, id: Id, attests: bool, explains: bool)
    ensures RecoverStep(db, env, id, attests, explains).db.host.requests.Keys == db.host.requests.Keys
  {
    if id in db.host.requests {
      FreeAddsNone(db, env, id, RecoveryAttested, true);
      FreeAddsNone(db, env, id, RecoveryOwnerGone, false);
    }
  }

  lemma ReconcileAddsNone(db: Db, env: Env)
    ensures ReconcileStep(db, env).db.host.requests.Keys == db.host.requests.Keys
  {
  }

  // ---- work items ----

  ghost predicate OneItemPerKey(items: map<Id, WorkItem>) {
    forall i, j | i in items && j in items && items[i].details.idempotencyKey == items[j].details.idempotencyKey ::
      i == j
  }

  /** No item is lost or renamed. */
  predicate NamesKept(b: map<Id, WorkItem>, a: map<Id, WorkItem>) {
    forall i | i in b :: i in a && a[i].details.idempotencyKey == b[i].details.idempotencyKey
  }

  /** The same items under the same keys. */
  predicate SameNames(b: map<Id, WorkItem>, a: map<Id, WorkItem>) { a.Keys == b.Keys && NamesKept(b, a) }

  lemma SameNamesOnePerKey(b: map<Id, WorkItem>, a: map<Id, WorkItem>)
    requires OneItemPerKey(b) && SameNames(b, a)
    ensures OneItemPerKey(a)
  {
  }

  /** Saving keeps names, and adds at most one item, under a key that was not in use. */
  lemma SaveItemKeepsNames(work: Work, item: Id, details: ItemDetails, state: WorkState)
    ensures var a := SaveWorkItem(work, item, details, state).items;
            && NamesKept(work.items, a)
            && forall i | i in a && i !in work.items :: i == item && !KeyInUse(work.items, a[i].details.idempotencyKey)
  {
  }

  lemma NewNameOnePerKey(b: map<Id, WorkItem>, a: map<Id, WorkItem>, item: Id)
    requires OneItemPerKey(b) && NamesKept(b, a)
    requires forall i | i in a && i !in b :: i == item && !KeyInUse(b, a[i].details.idempotencyKey)
    ensures OneItemPerKey(a)
  {
    forall i, j | i in a && j in a && a[i].details.idempotencyKey == a[j].details.idempotencyKey ensures i == j {
      if i in b && j !in b { assert KeyInUse(b, a[j].details.idempotencyKey); }
      if j in b && i !in b { assert KeyInUse(b, a[i].details.idempotencyKey); }
    }
  }

  lemma SaveItemKeepsKeys(work: Work, item: Id, details: ItemDetails, state: WorkState)
    requires OneItemPerKey(work.items)
    ensures OneItemPerKey(SaveWorkItem(work, item, details, state).items)
  {
    SaveItemKeepsNames(work, item, details, state);
    NewNameOnePerKey(work.items, SaveWorkItem(work, item, details, state).items, item);
  }

  lemma {:induction false} PassKeepsNames(db: Db, env: Env, snapshot: map<Id, Request>, rows: seq<Id>, swept: seq<Id>)
    requires snapshot.Keys == db.host.requests.Keys && forall x | x in rows :: x in snapshot
    ensures SameNames(db.work.items, SweepPass(db, env, snapshot, rows, swept).db.work.items)
    decreases |rows|
  {
    if rows != [] {
      var id := rows[0];
      assert forall x | x in rows[1..] :: x in rows;
      var verdict := Verdict(db.host, env, id, snapshot[id], IdSet(swept));
      if verdict.None? {
        PassKeepsNames(db, env, snapshot, rows[1..], swept);
      } else {
        var next := SweepOne(db, env, id, snapshot[id], verdict.value);
        ReapKeepsNames(db.work, snapshot[id].attempt, SweepReason(verdict.value), env.now);
        PassKeepsNames(next, env, snapshot, rows[1..], swept + [id]);
      }
    }
  }

  lemma ReapKeepsNames(work: Work, attempt: AttemptId, reason: Reason, now: int)
    ensures SameNames(work.items, Reap(work, attempt, reason, now).items)
  {
  }

  lemma {:induction false} LoopKeepsNames(db: Db, env: Env, swept: seq<Id>)
    requires forall x | x in swept :: x in db.host.requests
    ensures SameNames(db.work.items, SweepFrom(db, env, swept).db.work.items)
    decreases |db.host.requests.Keys - IdSet(swept)|
  {
    PassKeepsNames(db, env, db.host.requests, Candidates(db.host.requests), swept);
    var pass := SweepPass(db, env, db.host.requests, Candidates(db.host.requests), swept);
    if pass.swept != swept {
      PassProgress(db, env, swept);
      LoopKeepsNames(pass.db, env, pass.swept);
    }
  }

  lemma SweepKeepsNames(db: Db, env: Env)
    ensures SameNames(db.work.items, Sweep(db, env).db.work.items)
  {
    if SweepEnabled(env.config) { LoopKeepsNames(db, env, []); }
  }

  // ---- asking again ----

  ghost predicate KeysUnique(db: Db) { OneRowPerKey(db.host.requests) && OneItemPerKey(db.work.items) }

  lemma KeyFinds(requests: map<Id, Request>, r: Id)
    requires OneRowPerKey(requests) && r in requests
    ensures FindByKey(requests, requests[r].idempotencyKey) == Some(r)
  {
  }

  /** The call asks for what the row holds: pool, purpose and command, attempt, agent and slot. */
  predicate SameContents(r: Request, ask: Ask) {
    && r.key == ask.key && r.command == ask.command && r.attempt == ask.attempt && r.agent == ask.agent
    && r.slot == ask.slot
  }

  /** What an admission call under the key of row r answers, whatever else the tables hold. */
  function ReplayOf(host: Host, r: Id, ask: Ask): Outcome
    requires r in host.requests
  {
    if ask.ttl < 1 || !(0 <= ask.priority <= 1000) then Refused(InvalidArgument)
    else if SameContents(host.requests[r], ask) then Answer(r, host.requests[r].state, LeaseOf(host.leases, r), true)
    else Refused(IdempotencyConflict)
  }

  /** The answer names a row under the key that was asked for, with what was asked for. */
  predicate OnFile(r: Result, ask: Ask) {
    && r.outcome.Answer? && r.outcome.request in r.db.host.requests
    && r.db.host.requests[r.outcome.request].idempotencyKey == ask.idempotencyKey
    && SameContents(r.db.host.requests[r.outcome.request], ask)
  }

  lemma DecisionOnFile(db: Db, swept: Db, env: Env, ask: Ask, capacity: int)
    requires AdmitOrInherit(db, swept, env, ask, capacity).outcome.Answer?
    ensures OnFile(AdmitOrInherit(db, swept, env, ask, capacity), ask)
  {
  }

  lemma AnswerIsOnFile(db: Db, env: Env, ask: Ask)
    requires RequestStep(db, env, ask).outcome.Answer?
    ensures OnFile(RequestStep(db, env, ask), ask) && ask.ttl >= 1 && 0 <= ask.priority <= 1000
  {
    if ReachesSweep(db, ask) {
      var swept := Sweep(db, env).db;
      if !AttemptIsRevoked(swept, ask.attempt) {
        DecisionOnFile(db, swept, env, ask, db.host.pools[ask.key].capacity);
      }
    }
  }

  lemma AskedAgain(db: Db, env: Env, ask: Ask, r: Id)
    requires OneRowPerKey(db.host.requests) && r in db.host.requests
    requires ask.idempotencyKey == db.host.requests[r].idempotencyKey
    ensures RequestStep(db, env, ask) == Result(db, ReplayOf(db.host, r, ask))
    ensures LogFocusedStep(db, env, ask)
            == Result(db, Answer(r, db.host.requests[r].state, LeaseOf(db.host.leases, r), true))
  {
    KeyFinds(db.host.requests, r);
  }
}
