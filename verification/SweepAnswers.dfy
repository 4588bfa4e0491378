/** What a whole sweep takes and what it leaves, said of the tables before and after it. */
module SweepAnswers {
  import opened Collections
  import opened HostModel
  import opened ConductorModel
  import opened HostPromotion
  import opened HostInvariant
  import opened HostStaleness
  import opened HostSweep
  import opened HostSweepProof
  import opened WorkAnswers
  import opened WorkProof
  import opened WorkStore

  // ---- what it leaves ----

  /** After a sweep no request is stale, but for those another child still inherits from. */
  lemma NothingStaleIsLeft(db: Db, env: Env, y: Id)
    requires Settled(db) && (env.config.ttl > 0 || env.config.cdpMaxHold > 0)
    ensures Stale(Sweep(db, env).db.host, env, y) ==> ChildLeft(Sweep(db, env).db.host, y, {})
  {
    var r := Sweep(db, env);
    SweepProgresses(db, env);
    LastPassJudgesAll(db, env, []);
    StaleForgets(r.db.host, env, IdSet(r.swept));
    if Stale(r.db.host, env, y) {
      assert Verdict(r.db.host, env, y, r.db.host.requests[y], {}).None?;
      VerdictIsStale(r.db.host, env, y, {});
    }
  }

  // ---- what it takes ----

  /** The request's events say the same of it. */
  predicate SameHistory(b: Host, a: Host, y: Id) {
    && LatestEvent(a.events, y) == LatestEvent(b.events, y)
    && LatestPromotion(a.events, y) == LatestPromotion(b.events, y)
    && FirstLeaseEvent(a.events, y) == FirstLeaseEvent(b.events, y)
  }

  /** The lease the request inherited from is as it was, or went with a request swept since. */
  predicate ParentKept(b: Host, a: Host, swept: seq<Id>, y: Id)
    requires y in b.requests
  {
    var parent := b.requests[y].parent;
    parent.Some? && parent.value in b.leases ==>
      if parent.value in a.leases then a.leases[parent.value] == b.leases[parent.value]
      else b.leases[parent.value].request in swept
  }

  /** Whatever staleness depends on is as it was. */
  predicate Undisturbed(b: Host, a: Host, swept: seq<Id>, y: Id)
    requires y in b.requests
  {
    && y in a.requests && a.requests[y] == b.requests[y] && LeasesOf(a, y) == LeasesOf(b, y)
    && SameHistory(b, a, y) && ParentKept(b, a, swept, y)
  }

  /** The tables without the lease that y inherited from. */
  function Orphaned(h: Host, y: Id): Host
    requires y in h.requests && h.requests[y].parent.Some?
  {
    h.(leases := h.leases - {h.requests[y].parent.value})
  }

  /** What entitles a sweep that takes the requests `swept` to take y: it is stale; or it is a fenced
      child whose parent's request is among them, and stale but for the parent's lease. */
  predicate Entitled(h: Host, env: Env, swept: seq<Id>, y: Id)
    requires y in h.requests
  {
    || Stale(h, env, y)
    || (&& h.requests[y].state == RecoveryRequired && h.requests[y].parent.Some?
        && h.requests[y].parent.value in h.leases && h.leases[h.requests[y].parent.value].request in swept
        && Stale(Orphaned(h, y), env, y))
  }

  lemma SameStanding(b: Host, a: Host, y: Id, l: Id)
    requires y in b.requests && y in a.requests && a.requests[y] == b.requests[y] && LeasesOf(a, y) == LeasesOf(b, y)
    ensures StandsFor(a, y, l) <==> StandsFor(b, y, l)
    ensures OwnLease(a, y, l) <==> OwnLease(b, y, l)
    ensures OwnLease(a, y, l) ==> a.leases[l] == b.leases[l]
  {
    NoneOwn(a, y);
    NoneOwn(b, y);
    assert l in LeasesOf(a, y) <==> l in LeasesOf(b, y);
    assert l in LeasesOf(a, y) ==> LeasesOf(a, y)[l] == LeasesOf(b, y)[l];
  }

  lemma NoneOwn(h: Host, y: Id)
    ensures (forall m | m in h.leases :: h.leases[m].request != y) <==> LeasesOf(h, y) == map[]
  {
    if m :| m in h.leases && h.leases[m].request == y { assert m in LeasesOf(h, y); }
  }

  lemma SameSince(b: Host, a: Host, y: Id, t: int)
    requires y in b.requests && y in a.requests && a.requests[y] == b.requests[y] && SameHistory(b, a, y)
    ensures HoldsSince(a, y, t) <==> HoldsSince(b, y, t)
    ensures (forall k | 0 <= k < |a.events| && SignOfLife(a.events[k], y) :: a.events[k].at <= t)
       <==> (forall k | 0 <= k < |b.events| && SignOfLife(b.events[k], y) :: b.events[k].at <= t)
  {
    ActivationBy(a, y, t);
    ActivationBy(b, y, t);
    LatestEventBy(a.events, y, t);
    LatestEventBy(b.events, y, t);
  }

  /** Every lease that stands for y in b stands for it in a, as it was. */
  predicate Stands(b: Host, a: Host, y: Id)
    requires y in b.requests
  {
    forall l | l in b.leases && StandsFor(b, y, l) :: l in a.leases && a.leases[l] == b.leases[l]
  }

  lemma StaleBefore(b: Host, a: Host, env: Env, y: Id)
    requires y in b.requests && y in a.requests && a.requests[y] == b.requests[y] && LeasesOf(a, y) == LeasesOf(b, y)
    requires SameHistory(b, a, y) && Stands(b, a, y) && Stale(a, env, y)
    ensures Stale(b, env, y)
  {
    forall l ensures StandsFor(a, y, l) <==> StandsFor(b, y, l)
             ensures OwnLease(a, y, l) <==> OwnLease(b, y, l)
             ensures OwnLease(a, y, l) ==> a.leases[l] == b.leases[l]
    {
      SameStanding(b, a, y, l);
    }
    SameSince(b, a, y, env.now - env.config.cdpMaxHold);
    SameSince(b, a, y, env.now - env.config.ttl);
    SameSince(b, a, y, env.now - env.config.queuedTtl);
  }

  /** A request undisturbed so far that is stale now entitles the sweep to take it. */
  lemma UndisturbedIsEntitled(b: Host, a: Host, env: Env, swept: seq<Id>, y: Id)
    requires LeasesSound(b) && ParentsSafe(b) && LeasesSound(a) && ParentsSafe(a)
    requires y in b.requests && Undisturbed(b, a, swept, y) && Stale(a, env, y)
    ensures Entitled(b, env, swept, y)
  {
    var parent := b.requests[y].parent;
    if b.requests[y].state == Inherited { assert ChildSafe(b, y) && ChildSafe(a, y); }
    if parent.Some? && parent.value in b.leases && parent.value !in a.leases {
      assert b.leases[parent.value].request in swept;
      WithoutParent(b, a, y);
      StaleBefore(if LeasesOf(b, y) == map[] then Orphaned(b, y) else b, a, env, y);
    } else {
      forall l | l in b.leases && StandsFor(b, y, l) ensures l in a.leases && a.leases[l] == b.leases[l] {
        SameStanding(b, a, y, l);
      }
      StaleBefore(b, a, env, y);
    }
  }

  /** With the parent's lease gone from a, what stands for y in b without it still does. */
  lemma WithoutParent(b: Host, a: Host, y: Id)
    requires y in b.requests && y in a.requests && a.requests[y] == b.requests[y] && LeasesOf(a, y) == LeasesOf(b, y)
    requires b.requests[y].parent.Some? && b.requests[y].parent.value !in a.leases
    ensures LeasesOf(b, y) == map[] ==>
              LeasesOf(Orphaned(b, y), y) == LeasesOf(a, y) && Stands(Orphaned(b, y), a, y)
    ensures LeasesOf(b, y) != map[] ==> Stands(b, a, y)
  {
    NoneOwn(b, y);
    NoneOwn(a, y);
    forall l | l in b.leases && OwnLease(b, y, l) ensures l in a.leases && a.leases[l] == b.leases[l] {
      SameStanding(b, a, y, l);
    }
  }

  /** Another request of its attempt is among those swept. */
  predicate SiblingSwept(b: Host, swept: seq<Id>, y: Id)
    requires y in b.requests
  {
    exists x :: x in swept && x != y && x in b.requests && b.requests[x].attempt == b.requests[y].attempt
  }

  /** Granted by the running sweep itself, which will not take it. */
  predicate GrantedNow(a: Host, y: Id, now: int) {
    && y in a.requests && a.requests[y].state == Active && JustGranted(a, y, now)
    && LatestPromotion(a.events, y).Some? && LatestPromotion(a.events, y).value >= now
  }

  /** A waiter as the sweep has it: still waiting, just granted, or released for a reason. */
  predicate WaiterTracked(b: Host, a: Host, env: Env, swept: seq<Id>, y: Id)
    requires y in b.requests
  {
    y in a.requests &&
    if a.requests[y].state == Queued then
      y !in swept && Undisturbed(b, a, swept, y)
    else if a.requests[y].state == Released then
      (y in swept && Stale(b, env, y)) || SiblingSwept(b, swept, y)
    else y !in swept && GrantedNow(a, y, env.now)
  }

  /** Its row says why it was released. */
  predicate ReleasedFor(b: Host, a: Host, env: Env, y: Id)
    requires y in b.requests
  {
    && y in a.requests && a.requests[y].state == Released
    && a.requests[y].reason == if PastMaxHold(b, env, y) then CdpMaxHoldExceeded else StaleSlotAutoReleased
  }

  /** Any request that was unfinished when the sweep began, as the sweep has it. */
  predicate Tracked(b: Host, a: Host, env: Env, swept: seq<Id>, y: Id)
    requires y in b.requests
  {
    if b.requests[y].state == Queued then WaiterTracked(b, a, env, swept, y)
    else if y in swept then Entitled(b, env, swept, y) && ReleasedFor(b, a, env, y)
    else Undisturbed(b, a, swept, y)
  }

  // ---- one step of a pass ----

  /** A verdict on a row as current as this one is a verdict on the current row. */
  lemma VerdictReads(h: Host, env: Env, id: Id, row: Request, swept: set<Id>)
    requires id in h.requests && SameRow(row, h.requests[id]) && SameOwner(row, h.requests[id])
    requires row.state == h.requests[id].state
    ensures Verdict(h, env, id, row, swept) == Verdict(h, env, id, h.requests[id], swept)
  {
  }

  lemma TakenIsStale(h: Host, env: Env, id: Id, row: Request, swept: set<Id>)
    requires LeasesSound(h) && FreshRow(h, env.now, id, row, swept) && Sweepable(row.state)
    requires Verdict(h, env, id, row, swept).Some? && h.requests[id].state != Released
    ensures Stale(h, env, id)
  {
    VerdictState(h, env, id, row, swept);
    VerdictReads(h, env, id, row, swept);
    VerdictIsStale(h, env, id, swept);
  }

  lemma EntitledLater(b: Host, env: Env, swept: seq<Id>, id: Id, y: Id)
    requires y in b.requests && Entitled(b, env, swept, y)
    ensures Entitled(b, env, swept + [id], y)
  {
  }

  lemma SiblingLater(b: Host, swept: seq<Id>, id: Id, y: Id)
    requires y in b.requests
    ensures SiblingSwept(b, swept, y) ==> SiblingSwept(b, swept + [id], y)
    ensures id != y && id in b.requests && b.requests[id].attempt == b.requests[y].attempt ==>
              SiblingSwept(b, swept + [id], y)
  {
    if x :| x in swept && x != y && x in b.requests && b.requests[x].attempt == b.requests[y].attempt {
      assert x in swept + [id];
    }
    assert id in swept + [id];
  }

  /** A sweep step appends the release of its own request and perhaps one promotion. */
  lemma StepHistory(db: Db, env: Env, id: Id, row: Request, evidence: Evidence, y: Id)
    requires id in db.host.requests && y in db.host.requests && y != id
    ensures var d := SweepOne(db, env, id, row, evidence).host;
            if db.host.requests[y].state == Queued && d.requests[y].state == Active then
              LatestPromotion(d.events, y).Some? && LatestPromotion(d.events, y).value >= env.now
            else SameHistory(db.host, d, y)
  {
    var released := ReleaseSwept(db.host, id, row, SweepReason(evidence), env.now);
    var d := SweepOne(db, env, id, row, evidence).host;
    OneMoreEvent(db.host.events, released.events[|db.host.events|], y);
    if d != released { OneMoreEvent(released.events, d.events[|released.events|], y); }
  }

  lemma OneMoreEvent(events: seq<HostEvent>, e: HostEvent, y: Id)
    ensures var all := events + [e];
            if e.request == y && e.reason == HostResourcePromoted then
              LatestPromotion(all, y).Some? && LatestPromotion(all, y).value >= e.at
            else e.request != y ==>
              && LatestEvent(all, y) == LatestEvent(events, y) && LatestPromotion(all, y) == LatestPromotion(events, y)
              && FirstLeaseEvent(all, y) == FirstLeaseEvent(events, y)
  {
    assert (events + [e])[..|events|] == events;
  }

  /** Leases of other requests stay; the swept request's are gone. */
  lemma StepParent(b: Host, h: Host, db: Db, env: Env, id: Id, row: Request, evidence: Evidence, swept: seq<Id>, y: Id)
    requires h == db.host && id in h.requests && y in b.requests && ParentKept(b, h, swept, y)
    requires forall l | l in h.leases || l in b.leases :: l < h.nextLease
    ensures ParentKept(b, SweepOne(db, env, id, row, evidence).host, swept + [id], y)
  {
    SweepOneLeases(db, env, id, row, evidence);
  }

  lemma StepLeases(db: Db, env: Env, id: Id, row: Request, evidence: Evidence, y: Id)
    requires id in db.host.requests && y in db.host.requests && y != id
    requires LeasesSound(db.host) && LeasesSound(SweepOne(db, env, id, row, evidence).host)
    requires var d := SweepOne(db, env, id, row, evidence).host; d.requests[y] == db.host.requests[y]
    ensures LeasesOf(SweepOne(db, env, id, row, evidence).host, y) == LeasesOf(db.host, y)
  {
    SweepOneLeases(db, env, id, row, evidence);
    SameLeases(db.host, SweepOne(db, env, id, row, evidence).host, id, y);
  }

  /** New leases are of former waiters, and only those of the swept request go. */
  lemma SameLeases(b: Host, d: Host, id: Id, y: Id)
    requires LeasesSound(b) && LeasesSound(d) && y in b.requests && y in d.requests && y != id
    requires d.requests[y] == b.requests[y]
    requires forall l | l in b.leases && b.leases[l].request != id :: l in d.leases && d.leases[l] == b.leases[l]
    requires forall l | l in d.leases && l !in b.leases ::
               d.leases[l].request in b.requests && b.requests[d.leases[l].request].state == Queued
    requires forall l | l in d.leases && l in b.leases :: d.leases[l] == b.leases[l]
    ensures LeasesOf(d, y) == LeasesOf(b, y)
  {
  }

  /** A request the step leaves alone stays undisturbed. */
  lemma UndisturbedByOther(b: Host, db: Db, env: Env, id: Id, row: Request, evidence: Evidence, swept: seq<Id>, y: Id)
    requires id in db.host.requests && y in b.requests && y != id && Undisturbed(b, db.host, swept, y)
    requires LeasesSound(db.host) && LeasesSound(SweepOne(db, env, id, row, evidence).host)
    requires forall l | l in b.leases :: l < db.host.nextLease
    requires SweepOne(db, env, id, row, evidence).host.requests[y] == db.host.requests[y]
    ensures Undisturbed(b, SweepOne(db, env, id, row, evidence).host, swept + [id], y)
  {
    StepHistory(db, env, id, row, evidence, y);
    StepParent(b, db.host, db, env, id, row, evidence, swept, y);
    StepLeases(db, env, id, row, evidence, y);
  }

  lemma StillGranted(db: Db, env: Env, id: Id, row: Request, evidence: Evidence, y: Id)
    requires id in db.host.requests && y in db.host.requests && y != id && GrantedNow(db.host, y, env.now)
    requires LeasesSound(db.host) && LeasesSound(SweepOne(db, env, id, row, evidence).host)
    ensures GrantedNow(SweepOne(db, env, id, row, evidence).host, y, env.now)
  {
    SweepOneRow(db, env, id, row, evidence, y);
    StepHistory(db, env, id, row, evidence, y);
    SweepOneLeases(db, env, id, row, evidence);
    LeaseOfUnique(SweepOne(db, env, id, row, evidence).host, LeaseOf(db.host.leases, y).value);
  }

  lemma GrantedByStep(db: Db, env: Env, id: Id, row: Request, evidence: Evidence, y: Id)
    requires id in db.host.requests && y in db.host.requests && y != id && LeasesSound(db.host)
    requires db.host.requests[y].state == Queued
    requires SweepOne(db, env, id, row, evidence).host.requests[y].state == Active
    ensures GrantedNow(SweepOne(db, env, id, row, evidence).host, y, env.now)
  {
    StepHistory(db, env, id, row, evidence, y);
    SweepOneLeases(db, env, id, row, evidence);
    QueuedHasNoLease(db.host, y);
  }

  /** A request the sweep has just granted is not stale. */
  lemma GrantedIsNotStale(h: Host, env: Env, y: Id)
    requires LeasesSound(h) && GrantedNow(h, y, env.now)
    ensures !Stale(h, env, y)
  {
    var l := LeaseOf(h.leases, y).value;
    assert StandsFor(h, y, l);
    LatestPromotionBy(h.events, y, env.now - 1);
    LatestPromotionBy(h.events, y, env.now - env.config.cdpMaxHold);
    ActivationBy(h, y, env.now - env.config.cdpMaxHold);
  }

  lemma WaiterStep(b: Host, db: Db, env: Env, id: Id, row: Request, evidence: Evidence, swept: seq<Id>, y: Id)
    requires id in db.host.requests && y in b.requests && b.requests[y].state == Queued && y != id
    requires WaiterTracked(b, db.host, env, swept, y)
    requires LeasesSound(db.host) && LeasesSound(SweepOne(db, env, id, row, evidence).host)
    requires forall l | l in b.leases :: l < db.host.nextLease
    requires SameRow(row, db.host.requests[id]) && id in b.requests && SameRow(b.requests[id], db.host.requests[id])
    requires SameRow(b.requests[y], db.host.requests[y])
    ensures WaiterTracked(b, SweepOne(db, env, id, row, evidence).host, env, swept + [id], y)
  {
    var d := SweepOne(db, env, id, row, evidence).host;
    SweepOneRow(db, env, id, row, evidence, y);
    SiblingLater(b, swept, id, y);
    if db.host.requests[y].state == Released {
    } else if db.host.requests[y].state != Queued {
      StillGranted(db, env, id, row, evidence, y);
    } else if d.requests[y] == db.host.requests[y] {
      UndisturbedByOther(b, db, env, id, row, evidence, swept, y);
    } else if d.requests[y].state == Active {
      GrantedByStep(db, env, id, row, evidence, y);
    }
  }

  lemma HolderStep(b: Host, db: Db, env: Env, id: Id, row: Request, evidence: Evidence, swept: seq<Id>, y: Id)
    requires id in db.host.requests && y in b.requests && Unfinished(b.requests[y].state)
    requires b.requests[y].state != Queued && y != id
    requires Tracked(b, db.host, env, swept, y)
    requires LeasesSound(db.host) && LeasesSound(SweepOne(db, env, id, row, evidence).host)
    requires forall l | l in b.leases :: l < db.host.nextLease
    ensures Tracked(b, SweepOne(db, env, id, row, evidence).host, env, swept + [id], y)
  {
    SweepOneRow(db, env, id, row, evidence, y);
    if y in swept {
      EntitledLater(b, env, swept, id, y);
    } else {
      UndisturbedByOther(b, db, env, id, row, evidence, swept, y);
    }
  }

  lemma SameMaxHold(b: Host, h: Host, env: Env, row: Request, swept: set<Id>, y: Id)
    requires y in b.requests && y in h.requests && h.requests[y] == b.requests[y] && SameHistory(b, h, y)
    requires FreshRow(h, env.now, y, row, swept) && h.requests[y].state != Released
    requires Verdict(h, env, y, row, swept).Some?
    ensures Verdict(h, env, y, row, swept).value == MaxHold <==> PastMaxHold(b, env, y)
  {
    VerdictState(h, env, y, row, swept);
    VerdictReads(h, env, y, row, swept);
    SameSince(b, h, y, env.now - env.config.cdpMaxHold);
    MaxHoldBy(h, env, y);
  }

  lemma StepReason(db: Db, env: Env, id: Id, row: Request, evidence: Evidence)
    requires id in db.host.requests && SweepOne(db, env, id, row, evidence).host.requests[id].state == Released
    ensures SweepOne(db, env, id, row, evidence).host.requests[id].reason == SweepReason(evidence)
  {
  }

  /** The request taken by the step was entitled to it. */
  lemma TakenStep(b: Host, h: Host, a: Host, env: Env, row: Request, swept: seq<Id>, y: Id)
    requires LeasesSound(b) && ParentsSafe(b) && LeasesSound(h) && ParentsSafe(h)
    requires y in b.requests && Unfinished(b.requests[y].state) && Tracked(b, h, env, swept, y)
    requires FreshRow(h, env.now, y, row, IdSet(swept)) && Sweepable(row.state)
    requires Verdict(h, env, y, row, IdSet(swept)).Some?
    requires y in a.requests && a.requests[y].state == Released
    requires a.requests[y].reason == SweepReason(Verdict(h, env, y, row, IdSet(swept)).value)
    ensures Tracked(b, a, env, swept + [y], y)
  {
    assert y !in swept;
    SiblingLater(b, swept, y, y);
    if h.requests[y].state != Released {
      TakenIsStale(h, env, y, row, IdSet(swept));
      if GrantedNow(h, y, env.now) { GrantedIsNotStale(h, env, y); }
      UndisturbedIsEntitled(b, h, env, swept, y);
      EntitledLater(b, env, swept, y, y);
      SameMaxHold(b, h, env, row, IdSet(swept), y);
    }
  }

  // ---- passes and the whole sweep ----

  lemma TrackedStep(start: Db, db: Db, env: Env, snapshot: map<Id, Request>, id: Id, swept: seq<Id>, y: Id)
    requires Stepping(start, db, env, snapshot, id, swept) && ParentsSafe(start.host)
    requires y in start.host.requests && Unfinished(start.host.requests[y].state)
    requires Tracked(start.host, db.host, env, swept, y)
    ensures Tracked(start.host, Stepped(db, env, snapshot, id, swept).host, env, swept + [id], y)
  {
    var evidence := Verdict(db.host, env, id, snapshot[id], IdSet(swept)).value;
    StepFresh(start, db, env, snapshot, id, swept);
    if y == id {
      assert id in IdSet(swept + [id]);
      StepReason(db, env, id, snapshot[id], evidence);
      TakenStep(start.host, db.host, Stepped(db, env, snapshot, id, swept).host, env, snapshot[id], swept, y);
    } else if start.host.requests[y].state == Queued {
      WaiterStep(start.host, db, env, id, snapshot[id], evidence, swept, y);
    } else {
      HolderStep(start.host, db, env, id, snapshot[id], evidence, swept, y);
    }
  }

  lemma {:induction false} TrackedPass(start: Db, db: Db, env: Env, snapshot: map<Id, Request>, rows: seq<Id>,
                                       swept: seq<Id>, y: Id)
    requires LeasesSound(start.host) && ParentsSafe(start.host) && start.host.requests.Keys == db.host.requests.Keys
    requires Progress(start, db, env, swept) && Fresh(db.host, env.now, snapshot, IdSet(swept))
    requires forall x | x in rows :: x in snapshot && Sweepable(snapshot[x].state)
    requires y in start.host.requests && Unfinished(start.host.requests[y].state)
    requires Tracked(start.host, db.host, env, swept, y)
    ensures var r := SweepPass(db, env, snapshot, rows, swept); Tracked(start.host, r.db.host, env, r.swept, y)
    decreases |rows|
  {
    if rows != [] {
      var id := rows[0];
      assert forall x | x in rows[1..] :: x in rows;
      var verdict := Verdict(db.host, env, id, snapshot[id], IdSet(swept));
      if verdict.None? {
        TrackedPass(start, db, env, snapshot, rows[1..], swept, y);
      } else {
        ProgressStep(start, db, env, snapshot, id, swept);
        TrackedStep(start, db, env, snapshot, id, swept, y);
        TrackedPass(start, SweepOne(db, env, id, snapshot[id], verdict.value), env, snapshot, rows[1..],
                    swept + [id], y);
      }
    }
  }

  lemma TrackedWholePass(start: Db, db: Db, env: Env, swept: seq<Id>, y: Id)
    requires LeasesSound(start.host) && ParentsSafe(start.host) && start.host.requests.Keys == db.host.requests.Keys
    requires Progress(start, db, env, swept)
    requires y in start.host.requests && Unfinished(start.host.requests[y].state)
    requires Tracked(start.host, db.host, env, swept, y)
    ensures var r := SweepPass(db, env, db.host.requests, Candidates(db.host.requests), swept);
            Progress(start, r.db, env, r.swept) && Tracked(start.host, r.db.host, env, r.swept, y)
  {
    PassStartsFresh(db, env, swept);
    WholePassProgresses(start, db, env, swept);
    TrackedPass(start, db, env, db.host.requests, Candidates(db.host.requests), swept, y);
  }

  lemma {:induction false} TrackedLoop(start: Db, db: Db, env: Env, swept: seq<Id>, y: Id, r: SweepResult)
    requires LeasesSound(start.host) && ParentsSafe(start.host) && start.host.requests.Keys == db.host.requests.Keys
    requires Progress(start, db, env, swept) && forall x | x in swept :: x in db.host.requests
    requires y in start.host.requests && Unfinished(start.host.requests[y].state)
    requires Tracked(start.host, db.host, env, swept, y) && r == SweepFrom(db, env, swept)
    ensures Tracked(start.host, r.db.host, env, r.swept, y)
    decreases |db.host.requests.Keys - IdSet(swept)|
  {
    var pass := SweepPass(db, env, db.host.requests, Candidates(db.host.requests), swept);
    NextPass(db, env, swept);
    TrackedWholePass(start, db, env, swept, y);
    if pass.swept != swept { TrackedLoop(start, pass.db, env, pass.swept, y, r); }
  }

  lemma SweepTracks(db: Db, env: Env, y: Id)
    requires Settled(db) && y in db.host.requests && Unfinished(db.host.requests[y].state)
    ensures var r := Sweep(db, env); Tracked(db.host, r.db.host, env, r.swept, y)
  {
    EvolvesReflexive(db, env.now);
    assert Progress(db, db, env, []);
    if SweepEnabled(env.config) { TrackedLoop(db, db, env, [], y, Sweep(db, env)); }
  }

  /** A sweep takes a holder only when it is stale as the tables stood before the sweep; or when it is
      a fenced child whose parent's request the same sweep took, and stale but for that lease. */
  lemma SweepTakesOnlyStale(db: Db, env: Env, y: Id)
    requires Settled(db) && y in db.host.requests && HoldsSource(db.host.requests[y].state)
    requires y in Sweep(db, env).swept
    ensures Entitled(db.host, env, Sweep(db, env).swept, y)
    ensures ReleasedFor(db.host, Sweep(db, env).db.host, env, y)
  {
    SweepTracks(db, env, y);
  }

  /** A waiter comes out of a sweep waiting just as before, promoted, or released; and it is released
      only when it was stale, its owner gone or never recorded, or when the sweep took another
      request of its attempt. */
  lemma SweepAndWaiters(db: Db, env: Env, y: Id)
    requires Settled(db) && y in db.host.requests && db.host.requests[y].state == Queued
    ensures var r := Sweep(db, env); var after := r.db.host.requests[y];
            && after.state in {Queued, Active, Released}
            && (after.state == Queued ==> after == db.host.requests[y])
            && (after.state == Released ==>
                  (y in r.swept && Stale(db.host, env, y)) || SiblingSwept(db.host, r.swept, y))
  {
    SweepTracks(db, env, y);
  }

  // ---- the items of those it takes ----

  /** Item i is as it was under attempt a, or fenced; and fenced once a request of a has been swept. */
  predicate ItemTracked(start: Db, w: Work, swept: seq<Id>, i: Id, a: AttemptId)
    requires i in start.work.items
  {
    && w.claims == start.work.claims && a in w.attempts && w.attempts[a].item == i && i in w.items
    && w.items[i].currentAttempt == start.work.items[i].currentAttempt
    && w.items[i].currentGeneration == start.work.items[i].currentGeneration
    && (w.items[i].state == start.work.items[i].state || w.items[i].state == ItemRecovery)
    && ((exists x :: x in swept && x in start.host.requests && start.host.requests[x].attempt == a) ==>
          w.items[i].state == ItemRecovery)
  }

  /** The attempt owns an item that is live or fenced already. */
  predicate OwnsLive(w: Work, i: Id, a: AttemptId) {
    a in w.attempts && w.attempts[a].item == i && OwnsItem(w, i, a) && LiveOrFenced(w.items[i].state)
  }

  /** A reaping fences the item of its own attempt, if that owns it, and no item another attempt owns. */
  lemma ItemStep(start: Db, w: Work, swept: seq<Id>, id: Id, row: Request, reason: Reason, now: int, i: Id,
                 a: AttemptId)
    requires OwnsLive(start.work, i, a) && ItemTracked(start, w, swept, i, a)
    requires id in start.host.requests && start.host.requests[id].attempt == row.attempt
    ensures ItemTracked(start, Reap(w, row.attempt, reason, now), swept + [id], i, a)
  {
    assert OwnsLive(w, i, a);
    if x :| x in swept + [id] && x in start.host.requests && start.host.requests[x].attempt == a && row.attempt != a {
      assert x in swept;
    }
  }

  lemma {:induction false} ItemPass(start: Db, db: Db, env: Env, snapshot: map<Id, Request>, rows: seq<Id>,
                                    swept: seq<Id>, i: Id, a: AttemptId)
    requires snapshot.Keys == db.host.requests.Keys && forall x | x in rows :: x in snapshot
    requires SameAttempts(start.host.requests, snapshot)
    requires OwnsLive(start.work, i, a) && ItemTracked(start, db.work, swept, i, a)
    ensures var r := SweepPass(db, env, snapshot, rows, swept); ItemTracked(start, r.db.work, r.swept, i, a)
    decreases |rows|
  {
    if rows != [] {
      var id := rows[0];
      assert forall x | x in rows[1..] :: x in rows;
      var verdict := Verdict(db.host, env, id, snapshot[id], IdSet(swept));
      if verdict.None? {
        ItemPass(start, db, env, snapshot, rows[1..], swept, i, a);
      } else {
        ItemStep(start, db.work, swept, id, snapshot[id], SweepReason(verdict.value), env.now, i, a);
        ItemPass(start, SweepOne(db, env, id, snapshot[id], verdict.value), env, snapshot, rows[1..],
                 swept + [id], i, a);
      }
    }
  }

  predicate SameAttempts(b: map<Id, Request>, a: map<Id, Request>) {
    a.Keys == b.Keys && forall r | r in b :: a[r].attempt == b[r].attempt
  }

  lemma SameAttemptsSofar(start: Db, db: Db, env: Env, swept: seq<Id>)
    requires LeasesSound(start.host) && start.host.requests.Keys == db.host.requests.Keys
    requires Progress(start, db, env, swept)
    ensures SameAttempts(start.host.requests, db.host.requests)
  {
    assert forall r | r in start.host.requests :: SameRow(start.host.requests[r], db.host.requests[r]);
  }

  lemma {:induction false} ItemLoop(start: Db, db: Db, env: Env, swept: seq<Id>, i: Id, a: AttemptId)
    requires LeasesSound(start.host) && start.host.requests.Keys == db.host.requests.Keys
    requires Progress(start, db, env, swept) && forall x | x in swept :: x in db.host.requests
    requires OwnsLive(start.work, i, a) && ItemTracked(start, db.work, swept, i, a)
    ensures var r := SweepFrom(db, env, swept); ItemTracked(start, r.db.work, r.swept, i, a)
    decreases |db.host.requests.Keys - IdSet(swept)|
  {
    var pass := SweepPass(db, env, db.host.requests, Candidates(db.host.requests), swept);
    NextPass(db, env, swept);
    WholePassProgresses(start, db, env, swept);
    SameAttemptsSofar(start, db, env, swept);
    ItemPass(start, db, env, db.host.requests, Candidates(db.host.requests), swept, i, a);
    if pass.swept != swept { ItemLoop(start, pass.db, env, pass.swept, i, a); }
  }

  /** A sweep that takes a request of an attempt leaves the live item that attempt owns
      RECOVERY_REQUIRED, under the same owner. */
  lemma SweepFencesItems(db: Db, env: Env, x: Id)
    requires Settled(db) && ClaimInv(db.work) && x in db.host.requests && x in Sweep(db, env).swept
    requires var a := db.host.requests[x].attempt;
             && a in db.work.attempts && Owns(db.work, db.work.attempts[a].item, a)
             && LiveOrFenced(db.work.items[db.work.attempts[a].item].state)
    ensures var i := db.work.attempts[db.host.requests[x].attempt].item; var w := Sweep(db, env).db.work;
            && i in w.items && w.items[i].state == ItemRecovery
            && w.items[i].currentAttempt == Some(db.host.requests[x].attempt)
  {
    var a := db.host.requests[x].attempt;
    OwnsIsOwner(db.work, db.work.attempts[a].item, a);
    ItemOverSweep(db, env, db.work.attempts[a].item, a);
  }

  lemma ItemOverSweep(db: Db, env: Env, i: Id, a: AttemptId)
    requires Settled(db) && OwnsLive(db.work, i, a)
    ensures ItemTracked(db, Sweep(db, env).db.work, Sweep(db, env).swept, i, a)
  {
    EvolvesReflexive(db, env.now);
    assert Progress(db, db, env, []);
    if SweepEnabled(env.config) { ItemLoop(db, db, env, [], i, a); }
  }
}
