/** Sweeps wherever they happen in a run: on their own, inside an admission call and inside a
    reconcile. What they end stays ended, and only they and recovery let go of a fenced request. */
module SweptRuns {
  import opened Collections
  import opened HostModel
  import opened ConductorModel
  import opened HostPromotion
  import opened HostInvariant
  import opened HostSweep
  import opened HostSweepProof
  import opened HostOperations
  import opened HostOperationsProof
  import opened WorkStore
  import R = Runs

  /** What a transaction sweeps and commits. */
  function SweptBy(db: Db, op: R.Op): seq<Id> {
    if op.SweepSlots? || (op.Reconcile? && NeedsReconcile(db.host, op.env.now))
       || (op.Request? && CommitsSweep(db, op.env, op.ask))
    then Sweep(db, op.env).swept
    else []
  }

  // ---- inside an admission call ----

  lemma CommittedRequest(db: Db, env: Env, ask: Ask)
    requires CommitsSweep(db, env, ask)
    ensures var swept := Sweep(db, env).db;
            RequestStep(db, env, ask).db ==
            if AttemptIsRevoked(swept, ask.attempt) then swept
            else AdmitOrInherit(db, swept, env, ask, db.host.pools[ask.key].capacity).db
  {
  }

  lemma UncommittedRequest(db: Db, env: Env, ask: Ask)
    requires !CommitsSweep(db, env, ask)
    ensures RequestStep(db, env, ask).db == db
  {
  }

  /** The decision on the swept tables inserts the asked-for row and touches no other. */
  lemma DecisionInserts(db: Db, swept: Db, env: Env, ask: Ask, capacity: int)
    requires ask.inherit.None? || !SourceFull(swept.host.requests, ask.key)
    ensures var d := AdmitOrInherit(db, swept, env, ask, capacity).db;
            && d.work == swept.work
            && ask.id in d.host.requests && d.host.requests[ask.id].attempt == ask.attempt
            && d.host.requests == swept.host.requests[ask.id := d.host.requests[ask.id]]
  {
  }

  /** An attempt whose request has been swept asks in vain within the same transaction. */
  lemma SweptIsRevoked(db: Db, env: Env, x: Id)
    requires x in Sweep(db, env).swept && x in db.host.requests
    requires Settled(db)
    ensures AttemptIsRevoked(Sweep(db, env).db, db.host.requests[x].attempt)
  {
    SweepNames(db, env);
    SweepSettles(db, env);
    assert SameRow(db.host.requests[x], Sweep(db, env).db.host.requests[x]);
  }

  lemma RequestEnds(db: Db, env: Env, ask: Ask, x: Id)
    requires Settled(db) && CommitsSweep(db, env, ask) && x in Sweep(db, env).swept
    ensures x in db.host.requests && Ended(RequestStep(db, env, ask).db, db.host.requests[x].attempt)
  {
    var swept := Sweep(db, env).db;
    SweepEndsAttempts(db, env, x);
    CommittedRequest(db, env, ask);
    SweptIsRevoked(db, env, x);
    if !AttemptIsRevoked(swept, ask.attempt) {
      DecisionInserts(db, swept, env, ask, db.host.pools[ask.key].capacity);
      var d := AdmitOrInherit(db, swept, env, ask, db.host.pools[ask.key].capacity).db;
      InsertKeepsEnded(swept, d, ask.id, d.host.requests[ask.id], db.host.requests[x].attempt);
    }
  }

  lemma InsertKeepsEnded(b: Db, a: Db, id: Id, row: Request, attempt: AttemptId)
    requires Ended(b, attempt) && row.attempt != attempt
    requires a.work == b.work && a.host.requests == b.host.requests[id := row]
    ensures Ended(a, attempt)
  {
  }

  // ---- inside a reconcile ----

  lemma {:induction false} FenceExpiredRows(host: Host, rows: seq<Id>, now: int, r: Id)
    requires HeldLeases(host, rows) && r in host.requests
    ensures var h := FenceExpired(host, rows, now);
            && h.requests.Keys == host.requests.Keys && h.requests[r].attempt == host.requests[r].attempt
            && (h.requests[r].state == host.requests[r].state || h.requests[r].state == RecoveryRequired)
    decreases |rows|
  {
    if rows != [] {
      var first := FenceFirst(host, rows[0], now);
      assert HeldLeases(first, rows[1..]);
      FenceExpiredRows(first, rows[1..], now, r);
    }
  }

  lemma ReconcileRows(db: Db, env: Env, r: Id)
    requires NeedsReconcile(db.host, env.now) && r in db.host.requests
    ensures var swept := Sweep(db, env).db; var d := ReconcileStep(db, env).db;
            && d.work == swept.work && d.host.requests.Keys == swept.host.requests.Keys
            && d.host.requests[r].attempt == swept.host.requests[r].attempt
            && (d.host.requests[r].state == swept.host.requests[r].state
                || d.host.requests[r].state == RecoveryRequired)
  {
    var swept := Sweep(db, env).db;
    FenceExpiredRows(swept.host, ExpiredLeases(swept.host, env.now), env.now, r);
  }

  lemma ReconcileEnds(db: Db, env: Env, x: Id)
    requires Settled(db) && NeedsReconcile(db.host, env.now) && x in Sweep(db, env).swept
    ensures x in db.host.requests && Ended(ReconcileStep(db, env).db, db.host.requests[x].attempt)
  {
    SweepEndsAttempts(db, env, x);
    ReconcileRows(db, env, x);
    forall r | r in db.host.requests
      ensures var swept := Sweep(db, env).db.host.requests; var d := ReconcileStep(db, env).db.host.requests;
              d[r].state == Queued ==> swept[r].state == Queued && d[r].attempt == swept[r].attempt
    {
      ReconcileRows(db, env, r);
    }
  }

  // ---- over runs ----

  /** Whichever transaction sweeps a request, its attempt is over: no waiter and no work lease is
      left to it, and its row, if it has one, is UNKNOWN. */
  lemma SweptAttemptIsReaped(states: seq<Db>, ops: seq<R.Op>, n: nat, x: Id)
    requires R.IsRun(states, ops) && n < |ops| && x in SweptBy(states[n], ops[n])
    ensures x in states[n].host.requests
    ensures var attempt := states[n].host.requests[x].attempt;
            && Ended(states[n + 1], attempt)
            && (attempt in states[n].work.attempts ==>
                  attempt in states[n + 1].work.attempts && states[n + 1].work.attempts[attempt].status == Unknown)
  {
    var db, op := states[n], ops[n];
    R.AlwaysGood(states, ops, n);
    R.EvolvesInRun(states, ops, n);
    assert R.StepAt(states, ops, n);
    if op.Request? {
      RequestEnds(db, op.env, op.ask, x);
    } else if op.Reconcile? {
      ReconcileEnds(db, op.env, x);
    } else {
      SweepEndsAttempts(db, op.env, x);
    }
  }

  lemma SweptIsUnknown(states: seq<Db>, ops: seq<R.Op>, n: nat, x: Id)
    requires R.IsRun(states, ops) && n < |ops| && x in SweptBy(states[n], ops[n])
    requires x in states[n].host.requests && states[n].host.requests[x].attempt in states[n].work.attempts
    ensures var attempt, after := states[n].host.requests[x].attempt, states[n + 1].work.attempts;
            attempt in after && after[attempt].status == Unknown
  {
    SweptAttemptIsReaped(states, ops, n, x);
  }

  lemma DeadFromNext(states: seq<Db>, ops: seq<R.Op>, n: nat, j: nat, attempt: AttemptId,
                     item: Option<Id>, lease: Option<Id>, generation: int, now: int, r: Id)
    requires R.IsRun(states, ops) && n < j <= |ops|
    requires var w := states[n + 1].work; attempt in w.attempts && w.attempts[attempt].status == Unknown
    ensures R.IsDead(states[n + 1], states[j], attempt, item, lease, generation, now, r)
  {
    R.ReapedMeansDead(states, ops, n + 1, j, attempt, item, lease, generation, now, r);
  }

  /** Reaped means dead: once any transaction of a run has swept a request of an attempt that has an
      attempts row, the attempt never again passes the worker fence, and none of its requests
      begins to run, by asking or by promotion. */
  lemma SweptMeansDead(states: seq<Db>, ops: seq<R.Op>, n: nat, j: nat, x: Id,
                       item: Option<Id>, lease: Option<Id>, generation: int, now: int, r: Id)
    requires R.IsRun(states, ops) && n < j <= |ops| && x in SweptBy(states[n], ops[n])
    requires x in states[n].host.requests && states[n].host.requests[x].attempt in states[n].work.attempts
    ensures R.IsDead(states[n + 1], states[j], states[n].host.requests[x].attempt, item, lease, generation, now, r)
  {
    SweptIsUnknown(states, ops, n, x);
    DeadFromNext(states, ops, n, j, states[n].host.requests[x].attempt, item, lease, generation, now, r);
  }

  // ---- how a fence is left ----

  predicate IsFenced(h: Host, r: Id) { r in h.requests && h.requests[r].state == RecoveryRequired }

  lemma ReleaseLeavesFences(db: Db, env: Env, id: Id, reason: Reason, attested: bool, r: Id)
    requires id in db.host.requests && r != id && IsFenced(db.host, r)
    ensures IsFenced(FreeAndPromote(db, env, id, reason, attested).db.host, r)
  {
  }

  lemma SweepLeavesFences(db: Db, env: Env, r: Id)
    requires Settled(db) && IsFenced(db.host, r) && r !in Sweep(db, env).swept
    ensures IsFenced(Sweep(db, env).db.host, r)
  {
    SweepSafety(db, env, r);
  }

  lemma CommittedRow(db: Db, env: Env, ask: Ask, r: Id)
    requires CommitsSweep(db, env, ask) && r in db.host.requests && r != ask.id
    ensures r in RequestStep(db, env, ask).db.host.requests
    ensures RequestStep(db, env, ask).db.host.requests[r] == Sweep(db, env).db.host.requests[r]
  {
    var swept := Sweep(db, env).db;
    CommittedRequest(db, env, ask);
    if !AttemptIsRevoked(swept, ask.attempt) {
      DecisionInserts(db, swept, env, ask, db.host.pools[ask.key].capacity);
    }
  }

  lemma RequestLeavesFences(db: Db, env: Env, ask: Ask, r: Id)
    requires Settled(db) && ask.id !in db.host.requests && IsFenced(db.host, r)
    requires CommitsSweep(db, env, ask) ==> r !in Sweep(db, env).swept
    ensures IsFenced(RequestStep(db, env, ask).db.host, r)
  {
    if CommitsSweep(db, env, ask) {
      SweepLeavesFences(db, env, r);
      CommittedRow(db, env, ask, r);
    } else {
      UncommittedRequest(db, env, ask);
    }
  }

  lemma ReconcileLeavesFences(db: Db, env: Env, r: Id)
    requires Settled(db) && IsFenced(db.host, r)
    requires NeedsReconcile(db.host, env.now) ==> r !in Sweep(db, env).swept
    ensures IsFenced(ReconcileStep(db, env).db.host, r)
  {
    if NeedsReconcile(db.host, env.now) {
      SweepLeavesFences(db, env, r);
      ReconcileRows(db, env, r);
    } else {
      IdleReconcile(db, env);
    }
  }

  lemma IdleReconcile(db: Db, env: Env)
    requires !NeedsReconcile(db.host, env.now)
    ensures ReconcileStep(db, env).db == db
  {
  }

  lemma ReleaseStepLeavesFences(db: Db, env: Env, id: Id, reason: Reason, r: Id)
    requires IsFenced(db.host, r)
    ensures IsFenced(ReleaseStep(db, env, id, reason).db.host, r)
  {
    if id in db.host.requests && id != r { ReleaseLeavesFences(db, env, id, reason, false, r); }
  }

  lemma RecoverStepLeavesFences(db: Db, env: Env, id: Id, attests: bool, explains: bool, r: Id)
    requires IsFenced(db.host, r) && id != r
    ensures IsFenced(RecoverStep(db, env, id, attests, explains).db.host, r)
  {
    if id in db.host.requests {
      ReleaseLeavesFences(db, env, id, RecoveryAttested, true, r);
      ReleaseLeavesFences(db, env, id, RecoveryOwnerGone, false, r);
    }
  }

  lemma RetainStepLeavesFences(db: Db, env: Env, id: Id, key: ResourceKey, observation: Id,
                               details: ObservationDetails, r: Id)
    requires IsFenced(db.host, r) && id !in db.host.requests
    ensures IsFenced(RetainStep(db, env, id, key, observation, details).db.host, r)
  {
  }

  lemma OtherOpsLeaveFences(db: Db, op: R.Op, r: Id)
    requires R.Valid(db, op) && R.IsHostOp(op) && !op.Request? && !op.Reconcile? && !op.SweepSlots?
    requires IsFenced(db.host, r) && !(op.Recover? && op.id == r)
    ensures IsFenced(R.ApplyHost(db, op).host, r)
  {
    match op {
      case Release(env, id, reason) => ReleaseStepLeavesFences(db, env, id, reason, r);
      case Recover(env, id, attests, explains) => RecoverStepLeavesFences(db, env, id, attests, explains, r);
      case Retain(env, id, key, observation, details) =>
        RetainStepLeavesFences(db, env, id, key, observation, details, r);
      case _ =>
    }
  }

  /** A fenced request is let go of only by its own recovery or by a committed sweep. */
  lemma FenceIsLeftBy(states: seq<Db>, ops: seq<R.Op>, n: nat, r: Id)
    requires R.IsRun(states, ops) && n < |ops|
    requires IsFenced(states[n].host, r)
    ensures r in states[n + 1].host.requests
    ensures states[n + 1].host.requests[r].state != RecoveryRequired ==>
              && states[n + 1].host.requests[r].state == Released
              && ((ops[n].Recover? && ops[n].id == r) || r in SweptBy(states[n], ops[n]))
  {
    var db, op := states[n], ops[n];
    R.AlwaysGood(states, ops, n);
    R.EvolvesInRun(states, ops, n);
    assert R.StepAt(states, ops, n);
    if !R.IsHostOp(op) {
      R.WorkStepFollows(db, op);
    } else if r !in SweptBy(db, op) && !(op.Recover? && op.id == r) {
      if op.Request? {
        RequestLeavesFences(db, op.env, op.ask, r);
      } else if op.Reconcile? {
        ReconcileLeavesFences(db, op.env, r);
      } else if op.SweepSlots? {
        SweepLeavesFences(db, op.env, r);
      } else {
        OtherOpsLeaveFences(db, op, r);
      }
    }
  }
}
