/** The journal of resource events: what it says of a request is the state the request is in, but for
    waiters that a sweep released along with another request of their attempt. */
module HostJournal {
  import opened Collections
  import opened HostModel
  import opened ConductorModel
  import opened HostPromotion
  import opened HostSweep
  import opened HostOperations
  import opened HostOperationsProof
  import R = Runs

  /** The state the latest event of a request left it in. */
  function Told(events: seq<HostEvent>, r: Id): Option<RequestState> {
    if events == [] then None
    else if events[|events| - 1].request == r then Some(events[|events| - 1].next)
    else Told(events[..|events| - 1], r)
  }

  /** The journal tells the request's state; a waiter released with a sibling is still told as waiting. */
  predicate Tells(events: seq<HostEvent>, r: Id, state: RequestState) {
    Told(events, r) == Some(state) || (state == Released && Told(events, r) == Some(Queued))
  }

  ghost predicate Journaled(h: Host) { forall r | r in h.requests :: Tells(h.events, r, h.requests[r].state) }

  lemma ToldAppend(events: seq<HostEvent>, e: HostEvent, r: Id)
    ensures Told(events + [e], r) == if e.request == r then Some(e.next) else Told(events, r)
  {
    assert (events + [e])[..|events|] == events;
  }

  /** Nothing new but one event, of a row that now is in the state it says; other rows stay in theirs,
      or waited and are released. */
  ghost predicate Notes(b: Host, a: Host, e: HostEvent) {
    && a.events == b.events + [e] && a.requests.Keys == b.requests.Keys + {e.request}
    && a.requests[e.request].state == e.next
    && forall r | r in b.requests && r != e.request ::
         || a.requests[r].state == b.requests[r].state
         || (b.requests[r].state == Queued && a.requests[r].state == Released)
  }

  lemma NotesKeeps(b: Host, a: Host, e: HostEvent)
    requires Journaled(b) && Notes(b, a, e)
    ensures Journaled(a)
  {
    forall r | r in a.requests ensures Tells(a.events, r, a.requests[r].state) {
      ToldAppend(b.events, e, r);
      if r != e.request { assert Tells(b.events, r, b.requests[r].state); }
    }
  }

  lemma SameStatesKeep(b: Host, a: Host)
    requires Journaled(b) && a.events == b.events && a.requests.Keys == b.requests.Keys
    requires forall r | r in b.requests :: a.requests[r].state == b.requests[r].state
    ensures Journaled(a)
  {
    forall r | r in a.requests ensures Tells(a.events, r, a.requests[r].state) {
      assert Tells(b.events, r, b.requests[r].state);
    }
  }

  // ---- the elementary changes ----

  lemma PromotionNotes(h: Host, attempts: Attempts, key: ResourceKey, now: int)
    requires Journaled(h)
    ensures Journaled(PromoteRelated(h, attempts, key, now))
  {
    var a := PromoteRelated(h, attempts, key, now);
    if a != h { NotesKeeps(h, a, a.events[|h.events|]); }
  }

  lemma FreeNotes(db: Db, env: Env, id: Id, reason: Reason, attested: bool)
    requires Journaled(db.host) && id in db.host.requests
    ensures Journaled(FreeAndPromote(db, env, id, reason, attested).db.host)
  {
    var m := MarkReleased(db.host, id, reason, env.now);
    NotesKeeps(db.host, m, m.events[|db.host.events|]);
    PromotionNotes(m, db.work.attempts, db.host.requests[id].key, env.now);
  }

  lemma SweepOneNotes(db: Db, env: Env, id: Id, row: Request, evidence: Evidence)
    requires Journaled(db.host) && id in db.host.requests
    ensures Journaled(SweepOne(db, env, id, row, evidence).host)
  {
    var reason := SweepReason(evidence);
    var m := ReleaseSwept(db.host, id, row, reason, env.now);
    NotesKeeps(db.host, m, m.events[|db.host.events|]);
    PromotionNotes(m, Reap(db.work, row.attempt, reason, env.now).attempts, row.key, env.now);
  }

  lemma {:induction false} PassNotes(db: Db, env: Env, snapshot: map<Id, Request>, rows: seq<Id>, swept: seq<Id>)
    requires snapshot.Keys == db.host.requests.Keys && forall x | x in rows :: x in snapshot
    requires Journaled(db.host)
    ensures Journaled(SweepPass(db, env, snapshot, rows, swept).db.host)
    decreases |rows|
  {
    if rows != [] {
      var id := rows[0];
      assert forall x | x in rows[1..] :: x in rows;
      var verdict := Verdict(db.host, env, id, snapshot[id], IdSet(swept));
      if verdict.None? {
        PassNotes(db, env, snapshot, rows[1..], swept);
      } else {
        SweepOneNotes(db, env, id, snapshot[id], verdict.value);
        PassNotes(SweepOne(db, env, id, snapshot[id], verdict.value), env, snapshot, rows[1..], swept + [id]);
      }
    }
  }

  lemma {:induction false} LoopNotes(db: Db, env: Env, swept: seq<Id>)
    requires forall x | x in swept :: x in db.host.requests
    requires Journaled(db.host)
    ensures Journaled(SweepFrom(db, env, swept).db.host)
    decreases |db.host.requests.Keys - IdSet(swept)|
  {
    PassNotes(db, env, db.host.requests, Candidates(db.host.requests), swept);
    var pass := SweepPass(db, env, db.host.requests, Candidates(db.host.requests), swept);
    if pass.swept != swept {
      PassProgress(db, env, swept);
      LoopNotes(pass.db, env, pass.swept);
    }
  }

  lemma SweepNotes(db: Db, env: Env)
    requires Journaled(db.host)
    ensures Journaled(Sweep(db, env).db.host)
  {
    if SweepEnabled(env.config) { LoopNotes(db, env, []); }
  }

  lemma {:induction false} FenceExpiredNotes(host: Host, rows: seq<Id>, now: int)
    requires HeldLeases(host, rows) && Journaled(host)
    ensures Journaled(FenceExpired(host, rows, now))
    decreases |rows|
  {
    if rows != [] {
      var first := FenceFirst(host, rows[0], now);
      NotesKeeps(host, first, first.events[|host.events|]);
      FenceFirstHolds(host, rows, now);
      FenceExpiredNotes(first, rows[1..], now);
    }
  }

  lemma InsertNotes(h: Host, id: Id, row: Request, lease: Option<Id>, reason: Reason, now: int)
    requires Journaled(h) && id !in h.requests
    ensures Journaled(Insert(h, id, row, lease, reason, now))
  {
    var a := Insert(h, id, row, lease, reason, now);
    NotesKeeps(h, a, a.events[|h.events|]);
  }

  lemma FenceNotes(h: Host, id: Id, reason: Reason, now: int)
    requires Journaled(h) && id in h.requests
    ensures Journaled(MarkFenced(h, id, reason, now))
  {
    var a := MarkFenced(h, id, reason, now);
    NotesKeeps(h, a, a.events[|h.events|]);
  }

  // ---- the operations ----

  lemma DecisionNotes(db: Db, swept: Db, env: Env, ask: Ask, capacity: int)
    requires Journaled(db.host) && Journaled(swept.host) && ask.id !in swept.host.requests
    ensures Journaled(AdmitOrInherit(db, swept, env, ask, capacity).db.host)
  {
    var d := AdmitOrInherit(db, swept, env, ask, capacity).db;
    if d != db {
      DecisionNotesOne(db, swept, env, ask, capacity);
      NotesKeeps(swept.host, d.host, d.host.events[|swept.host.events|]);
    }
  }

  lemma DecisionNotesOne(db: Db, swept: Db, env: Env, ask: Ask, capacity: int)
    requires ask.id !in swept.host.requests && AdmitOrInherit(db, swept, env, ask, capacity).db != db
    ensures var d := AdmitOrInherit(db, swept, env, ask, capacity).db;
            && |d.host.events| == |swept.host.events| + 1
            && Notes(swept.host, d.host, d.host.events[|swept.host.events|])
  {
    var rejected := if ask.inherit.None? then None
                    else InheritRejection(swept.host, ask, ask.inherit.value, env.now);
    if ask.inherit.Some? && rejected.None? {
      InheritNotes(swept, env, ask, ask.inherit.value);
    } else {
      AdmitNotes(swept, env, ask, capacity, rejected);
    }
  }

  lemma AdmitNotes(swept: Db, env: Env, ask: Ask, capacity: int, rejected: Option<Reason>)
    requires ask.id !in swept.host.requests
    ensures var d := Admit(swept, env, ask, capacity, rejected).db;
            && |d.host.events| == |swept.host.events| + 1
            && Notes(swept.host, d.host, d.host.events[|swept.host.events|])
  {
  }

  lemma InheritNotes(swept: Db, env: Env, ask: Ask, lease: Id)
    requires ask.id !in swept.host.requests
    ensures var d := Inherit(swept, env, ask, lease).db;
            && |d.host.events| == |swept.host.events| + 1
            && Notes(swept.host, d.host, d.host.events[|swept.host.events|])
  {
  }

  lemma RequestNotes(db: Db, env: Env, ask: Ask)
    requires Journaled(db.host) && ask.id !in db.host.requests
    ensures Journaled(RequestStep(db, env, ask).db.host)
  {
    SweepNotes(db, env);
    if ReachesSweep(db, ask) {
      DecisionNotes(db, Sweep(db, env).db, env, ask, db.host.pools[ask.key].capacity);
    }
  }

  lemma ReconcileNotes(db: Db, env: Env)
    requires Journaled(db.host)
    ensures Journaled(ReconcileStep(db, env).db.host)
  {
    SweepNotes(db, env);
    var swept := Sweep(db, env).db;
    FenceExpiredNotes(swept.host, ExpiredLeases(swept.host, env.now), env.now);
  }

  lemma RetainNotes(db: Db, env: Env, id: Id, key: ResourceKey, observation: Id, details: ObservationDetails)
    requires Journaled(db.host) && id !in db.host.requests
    ensures Journaled(RetainStep(db, env, id, key, observation, details).db.host)
  {
    RetainReaches(db, env, id, key, observation, details);
    var d := RetainStep(db, env, id, key, observation, details).db;
    if d != db {
      var binding := Bind(db.host, key.source, details);
      if binding.Row? {
        FenceNotes(db.host, binding.id, ProviderRetainedAttempt, env.now);
      } else {
        var k := ObservationKey(key.source, observation);
        InsertNotes(db.host, id, ObservedRow(k, details, env.now), None, ProviderRetainedAttempt, env.now);
      }
    }
  }

  lemma ReleaseNotes(db: Db, env: Env, id: Id, reason: Reason)
    requires Journaled(db.host)
    ensures Journaled(ReleaseStep(db, env, id, reason).db.host)
  {
    if id in db.host.requests { FreeNotes(db, env, id, reason, false); }
  }

  lemma RecoverNotes(db: Db, env: Env, id: Id, attests: bool, explains: bool)
    requires Journaled(db.host)
    ensures Journaled(RecoverStep(db, env, id, attests, explains).db.host)
  {
    if id in db.host.requests {
      FreeNotes(db, env, id, RecoveryAttested, true);
      FreeNotes(db, env, id, RecoveryOwnerGone, false);
    }
  }

  lemma LogNotes(db: Db, env: Env, ask: Ask)
    requires Journaled(db.host) && ask.id !in db.host.requests
    ensures Journaled(LogFocusedStep(db, env, ask).db.host)
  {
    var row := RowFor(ask.(owner := None), env.now, Released, PytestFocusedNoHeavyLease, None);
    InsertNotes(db.host, ask.id, row, None, PytestFocusedNoHeavyLease, env.now);
  }

  lemma FencingNotes(db: Db, op: R.Op)
    requires Journaled(db.host) && (op.MarkUncertain? || op.MarkRecovery?)
    ensures Journaled(R.ApplyHost(db, op).host)
  {
    var a := R.ApplyHost(db, op).host;
    if a != db.host { NotesKeeps(db.host, a, a.events[|db.host.events|]); }
  }

  lemma HostStepNotes(db: Db, op: R.Op)
    requires Journaled(db.host) && R.Valid(db, op) && R.IsHostOp(op)
    ensures Journaled(R.ApplyHost(db, op).host)
  {
    match op {
      case Request(env, ask) => RequestNotes(db, env, ask);
      case Release(env, id, reason) => ReleaseNotes(db, env, id, reason);
      case SweepSlots(env) => SweepNotes(db, env);
      case Reconcile(env) => ReconcileNotes(db, env);
      case Recover(env, id, attests, explains) => RecoverNotes(db, env, id, attests, explains);
      case Retain(env, id, key, observation, details) => RetainNotes(db, env, id, key, observation, details);
      case LogFocused(env, ask) => LogNotes(db, env, ask);
      case _ => OtherStepNotes(db, op);
    }
  }

  lemma OtherStepNotes(db: Db, op: R.Op)
    requires Journaled(db.host)
    requires op.HostBeat? || op.MarkUncertain? || op.MarkRecovery? || op.AttachLease? || op.AttachRequest?
    ensures Journaled(R.ApplyHost(db, op).host)
  {
    if op.MarkUncertain? || op.MarkRecovery? {
      FencingNotes(db, op);
    } else {
      SameStatesKeep(db.host, R.ApplyHost(db, op).host);
    }
  }

  /** In every state of a run that starts from a journaled one, such as empty tables, the journal tells
      each request's state. */
  lemma {:induction false} JournalOverRuns(states: seq<Db>, ops: seq<R.Op>, n: nat)
    requires R.Steps(states, ops) && Journaled(states[0].host) && n <= |ops|
    ensures Journaled(states[n].host)
  {
    if n > 0 {
      var last := n - 1;
      assert n == last + 1;
      JournalOverRuns(states, ops, last);
      JournalInStep(states, ops, last);
    }
  }

  lemma JournalInStep(states: seq<Db>, ops: seq<R.Op>, n: nat)
    requires R.Steps(states, ops) && n < |ops| && Journaled(states[n].host)
    ensures Journaled(states[n + 1].host)
  {
    assert R.StepAt(states, ops, n);
    if R.IsHostOp(ops[n]) {
      HostStepNotes(states[n], ops[n]);
    } else {
      R.WorkStepKeepsAttempts(states[n], ops[n]);
    }
  }
}
