/** The stale-slot sweep keeps every invariant, releases only what it may, ends every swept
    attempt, and is its own fixpoint. */
module HostSweepProof {
  import opened Collections
  import opened HostModel
  import opened ConductorModel
  import opened HostPromotion
  import opened HostInvariant
  import opened HostStaleness
  import opened HostSweep

  /** A lease granted during the running sweep. */
  predicate JustGranted(h: Host, id: Id, now: int) {
    LeaseOf(h.leases, id).Some? && h.leases[LeaseOf(h.leases, id).value].lastHeartbeat >= now
  }

  predicate SameOwner(b: Request, a: Request) { a.owner == b.owner && a.ownerSeen == b.ownerSeen }

  /** How far the current row of a candidate may have moved on from the pass's snapshot. */
  predicate FreshRow(h: Host, now: int, id: Id, row: Request, swept: set<Id>) {
    && id in h.requests
    && SameRow(row, h.requests[id]) && SameOwner(row, h.requests[id])
    && var state := h.requests[id].state;
       || (state == row.state && id !in swept)
       || (state == Released && (row.state == Queued || id in swept))
       || (state == Active && row.state == Queued && JustGranted(h, id, now))
  }

  ghost predicate Fresh(h: Host, now: int, snapshot: map<Id, Request>, swept: set<Id>) {
    && snapshot.Keys == h.requests.Keys
    && forall id | id in snapshot :: FreshRow(h, now, id, snapshot[id], swept)
  }

  ghost predicate SweptReleased(h: Host, swept: set<Id>) {
    forall x | x in swept :: x in h.requests && h.requests[x].state == Released
  }

  ghost predicate Ready(h: Host, attempts: Attempts, swept: set<Id>) {
    HostInv(h) && Quiet(h, attempts) && SweptReleased(h, swept)
  }

  /** A waiter promoted under the sweep's own clock is never swept by its stale row. */
  lemma VerdictState(h: Host, env: Env, id: Id, row: Request, swept: set<Id>)
    requires FreshRow(h, env.now, id, row, swept)
    requires Verdict(h, env, id, row, swept).Some?
    ensures h.requests[id].state == row.state || (row.state == Queued && h.requests[id].state == Released)
  {
  }

  /** The request holds no lease that some other child inherited. */
  ghost predicate Childless(h: Host, id: Id) {
    forall c | c in h.requests && c != id && h.requests[c].state == Inherited && h.requests[c].parent.Some?
               && h.requests[c].parent.value in h.leases :: h.leases[h.requests[c].parent.value].request != id
  }

  lemma VerdictChildless(h: Host, env: Env, id: Id, row: Request, swept: set<Id>)
    requires LeasesSound(h) && SweptReleased(h, swept)
    requires Verdict(h, env, id, row, swept).Some?
    ensures Childless(h, id)
  {
    forall c | c in h.requests && c != id && h.requests[c].state == Inherited && h.requests[c].parent.Some?
               && h.requests[c].parent.value in h.leases
      ensures h.leases[h.requests[c].parent.value].request != id
    {
      var l := h.requests[c].parent.value;
      assert c in ChildrenOf(h.requests, l) - swept - {id};
      assert h.leases[l].request == id ==> LeaseOf(h.leases, id) == Some(l);
    }
  }

  lemma ReleasedRow(h: Host, id: Id, attempt: AttemptId, reason: Reason, r: Id)
    requires id in h.requests && h.requests[id].state != Quarantined && r in h.requests
    ensures var rs := ReleaseWithQueued(h.requests, id, attempt, reason);
            && r in rs && SameRow(h.requests[r], rs[r]) && Later(h.requests[r].state, rs[r].state)
            && (rs[r].state == Released || rs[r] == h.requests[r])
  {
  }

  lemma ReleaseEvolves(h: Host, id: Id, attempt: AttemptId, reason: Reason)
    requires id in h.requests && h.requests[id].state != Quarantined
    ensures var rs := ReleaseWithQueued(h.requests, id, attempt, reason);
            && RequestsEvolve(h, h.(requests := rs))
            && NoNewRunner(h.requests, rs)
            && NoNewHolder(h.requests, rs)
  {
    var rs := ReleaseWithQueued(h.requests, id, attempt, reason);
    assert rs.Keys == h.requests.Keys;
    forall r | r in h.requests
      ensures r in rs && SameRow(h.requests[r], rs[r]) && Later(h.requests[r].state, rs[r].state)
      ensures rs[r].state == Released || rs[r] == h.requests[r]
    {
      ReleasedRow(h, id, attempt, reason, r);
    }
  }

  lemma ReleaseLeavesNoOrphan(h: Host, id: Id, attempt: AttemptId, reason: Reason, c: Id)
    requires LeasesSound(h) && ParentsSafe(h) && Childless(h, id)
    requires c in h.requests && c != id && h.requests[c].state == Inherited
    ensures var rs := ReleaseWithQueued(h.requests, id, attempt, reason);
            h.requests[c].parent.Some? && h.requests[c].parent.value in h.leases
            && !HolderReleased(h.(requests := rs), h.requests[c].parent.value)
  {
    assert ChildSafe(h, c);
  }

  lemma ReleasedLeases(h: Host, id: Id, row: Request, reason: Reason, now: int)
    requires id in h.requests && forall l | l in h.leases :: h.leases[l].request in h.requests
    ensures var a := ReleaseSwept(h, id, row, reason, now);
            && (forall l | l in a.leases :: l in h.leases && a.leases[l] == h.leases[l])
            && (forall l | l in h.leases && l !in a.leases :: HolderReleased(a.(leases := h.leases), l))
  {
  }

  /** Releasing one childless request, with the waiters of its attempt, only narrows. */
  lemma ReleaseNarrows(h: Host, id: Id, row: Request, reason: Reason, now: int)
    requires LeasesSound(h) && ParentsSafe(h) && Childless(h, id)
    requires id in h.requests && h.requests[id].state != Quarantined
    ensures Narrows(h, ReleaseSwept(h, id, row, reason, now))
  {
    var a := ReleaseSwept(h, id, row, reason, now);
    ReleaseEvolves(h, id, row.attempt, reason);
    ReleasedLeases(h, id, row, reason, now);
    forall c | c in a.requests && a.requests[c].state == Inherited && a.requests[c].parent.Some?
               && a.requests[c].parent.value in h.leases
      ensures !HolderReleased(a.(leases := h.leases), a.requests[c].parent.value)
    {
      ReleaseLeavesNoOrphan(h, id, row.attempt, reason, c);
    }
  }

  lemma ReapRevokes(work: Work, attempt: AttemptId, reason: Reason, now: int)
    requires reason in {StaleSlotAutoReleased, CdpMaxHoldExceeded}
    ensures RevocationsKept(work.attempts, Reap(work, attempt, reason, now).attempts)
    ensures attempt in work.attempts ==> Reap(work, attempt, reason, now).attempts[attempt].status == Unknown
  {
  }

  lemma SweepOneKeeps(db: Db, env: Env, id: Id, row: Request, swept: set<Id>)
    requires Settled(db) && SweptReleased(db.host, swept)
    requires FreshRow(db.host, env.now, id, row, swept) && Sweepable(row.state)
    requires Verdict(db.host, env, id, row, swept).Some?
    ensures var d := SweepOne(db, env, id, row, Verdict(db.host, env, id, row, swept).value);
            Settled(d) && Evolves(db, d, env.now) && d.host.requests[id].state == Released
            && (SourcesTight(db.host) ==> SourcesTight(d.host))
  {
    var reason := SweepReason(Verdict(db.host, env, id, row, swept).value);
    var work := Reap(db.work, row.attempt, reason, env.now);
    var released := ReleaseSwept(db.host, id, row, reason, env.now);
    VerdictState(db.host, env, id, row, swept);
    VerdictChildless(db.host, env, id, row, swept);
    ReleaseNarrows(db.host, id, row, reason, env.now);
    ReleaseEvolves(db.host, id, row.attempt, reason);
    ReapRevokes(db.work, row.attempt, reason, env.now);
    if SourcesTight(db.host) { NoNewHolderKeepsTight(db.host, released); }
    ReleaseFrees(db, work, id, row, reason, env.now);
    ReleaseThenPromote(db, released, work, id, env.now);
  }

  lemma ReleaseFrees(db: Db, work: Work, id: Id, row: Request, reason: Reason, now: int)
    requires id in db.host.requests && db.host.requests[id].state != Quarantined
    requires RevocationsKept(db.work.attempts, work.attempts)
    ensures HostPromotion.Freed(db.host, db.work.attempts, ReleaseSwept(db.host, id, row, reason, now),
                                work.attempts, id)
  {
  }

  lemma LeaseOfUnique(h: Host, l: Id)
    requires LeasesSound(h) && l in h.leases
    ensures LeaseOf(h.leases, h.leases[l].request) == Some(l)
  {
  }

  /** The rows of a host after one sweep step, seen from before it. */
  lemma SweepOneRow(db: Db, env: Env, id: Id, row: Request, evidence: Evidence, y: Id)
    requires id in db.host.requests && y in db.host.requests && y != id
    ensures var d := SweepOne(db, env, id, row, evidence).host.requests; var b := db.host.requests;
            || d[y] == b[y]
            || (b[y].state == Queued && b[y].attempt == row.attempt && d[y].state == Released)
            || (b[y].state == Queued && d[y].state == Active)
    ensures SameRow(db.host.requests[y], SweepOne(db, env, id, row, evidence).host.requests[y])
    ensures SameOwner(db.host.requests[y], SweepOne(db, env, id, row, evidence).host.requests[y])
    ensures SameRow(db.host.requests[id], SweepOne(db, env, id, row, evidence).host.requests[id])
    ensures SameOwner(db.host.requests[id], SweepOne(db, env, id, row, evidence).host.requests[id])
  {
  }

  /** Leases of other requests survive a sweep step, and a waiter it activates gets one now. */
  lemma SweepOneLeases(db: Db, env: Env, id: Id, row: Request, evidence: Evidence)
    requires id in db.host.requests
    requires forall l | l in db.host.leases :: l < db.host.nextLease
    ensures var b := db.host; var d := SweepOne(db, env, id, row, evidence).host;
            && (forall l | l in b.leases && b.leases[l].request != id :: l in d.leases && d.leases[l] == b.leases[l])
            && (forall l | l in d.leases && l !in b.leases ::
                  && d.leases[l].request in b.requests && b.requests[d.leases[l].request].state == Queued
                  && d.leases[l].lastHeartbeat == env.now)
            && (forall l | l in d.leases && l in b.leases :: d.leases[l] == b.leases[l])
            && (forall y | y in b.requests && b.requests[y].state == Queued && d.requests[y].state == Active ::
                  && LeaseOf(d.leases, y).Some?
                  && (LeaseOf(b.leases, y).None? ==>
                        d.leases[LeaseOf(d.leases, y).value].lastHeartbeat == env.now))
  {
    var b := db.host; var d := SweepOne(db, env, id, row, evidence).host;
    forall y | y in b.requests && b.requests[y].state == Queued && d.requests[y].state == Active
      ensures LeaseOf(d.leases, y).Some?
    {
      assert d.leases[b.nextLease].request == y;
    }
  }

  lemma QueuedHasNoLease(h: Host, q: Id)
    requires LeasesSound(h) && q in h.requests && h.requests[q].state == Queued
    ensures LeaseOf(h.leases, q).None?
  {
  }

  lemma OneStaysFresh(db: Db, env: Env, id: Id, row: Request, evidence: Evidence, swept: set<Id>, y: Id, seen: Request)
    requires LeasesSound(db.host) && id in db.host.requests && y != id && FreshRow(db.host, env.now, y, seen, swept)
    requires LeasesSound(SweepOne(db, env, id, row, evidence).host)
    ensures FreshRow(SweepOne(db, env, id, row, evidence).host, env.now, y, seen, swept + {id})
    ensures db.host.requests[y].state == Released ==>
              SweepOne(db, env, id, row, evidence).host.requests[y].state == Released
  {
    var d := SweepOne(db, env, id, row, evidence);
    SweepOneLeases(db, env, id, row, evidence);
    SweepOneRow(db, env, id, row, evidence, y);
    if db.host.requests[y].state == Queued {
      QueuedHasNoLease(db.host, y);
    } else if d.host.requests[y].state == Active && JustGranted(db.host, y, env.now) {
      LeaseOfUnique(d.host, LeaseOf(db.host.leases, y).value);
    }
  }

  /** Every snapshot row stays fresh while its pass goes on. */
  lemma SweepOneFresh(db: Db, env: Env, snapshot: map<Id, Request>, id: Id, evidence: Evidence, swept: set<Id>)
    requires LeasesSound(db.host) && SweptReleased(db.host, swept) && Fresh(db.host, env.now, snapshot, swept)
    requires id in snapshot
    requires var d := SweepOne(db, env, id, snapshot[id], evidence);
             LeasesSound(d.host) && d.host.requests[id].state == Released
    ensures var d := SweepOne(db, env, id, snapshot[id], evidence);
            Fresh(d.host, env.now, snapshot, swept + {id}) && SweptReleased(d.host, swept + {id})
  {
    var d := SweepOne(db, env, id, snapshot[id], evidence);
    SweepOneOwn(db, env, id, snapshot[id], evidence);
    ReleasedIsFresh(db.host, d.host, env.now, id, snapshot[id], swept);
    forall y | y in snapshot && y != id
      ensures FreshRow(d.host, env.now, y, snapshot[y], swept + {id})
      ensures db.host.requests[y].state == Released ==> d.host.requests[y].state == Released
    {
      assert FreshRow(db.host, env.now, y, snapshot[y], swept);
      OneStaysFresh(db, env, id, snapshot[id], evidence, swept, y, snapshot[y]);
    }
    AllFresh(db.host, d.host, env.now, snapshot, id, swept);
  }

  lemma SweepOneOwn(db: Db, env: Env, id: Id, row: Request, evidence: Evidence)
    requires id in db.host.requests
    ensures var b, d := db.host.requests, SweepOne(db, env, id, row, evidence).host.requests;
            d.Keys == b.Keys && SameRow(b[id], d[id]) && SameOwner(b[id], d[id])
  {
  }

  /** A request released by the sweep is as fresh as a swept one need be. */
  lemma ReleasedIsFresh(h: Host, a: Host, now: int, id: Id, row: Request, swept: set<Id>)
    requires FreshRow(h, now, id, row, swept) && id in a.requests && a.requests[id].state == Released
    requires SameRow(h.requests[id], a.requests[id]) && SameOwner(h.requests[id], a.requests[id])
    ensures FreshRow(a, now, id, row, swept + {id})
  {
  }

  lemma AllFresh(h: Host, a: Host, now: int, snapshot: map<Id, Request>, id: Id, swept: set<Id>)
    requires snapshot.Keys == h.requests.Keys == a.requests.Keys && id in snapshot && SweptReleased(h, swept)
    requires FreshRow(a, now, id, snapshot[id], swept + {id}) && a.requests[id].state == Released
    requires forall y | y in snapshot && y != id ::
               && FreshRow(a, now, y, snapshot[y], swept + {id})
               && (h.requests[y].state == Released ==> a.requests[y].state == Released)
    ensures Fresh(a, now, snapshot, swept + {id}) && SweptReleased(a, swept + {id})
  {
  }

  // ---- what justified each release ----

  /** The identities recorded on a request's own lease and on the request itself. */
  function OwnIdentities(h: Host, id: Id): seq<Identity>
    requires id in h.requests
  {
    ProcessOf(h, LeaseOf(h.leases, id)) + Recorded(h.requests[id].owner)
  }

  /** Why a sweep may end a hold: every own recorded identity is gone, and an inherited child
      has at least one; or a CDP slot is past its maximum hold. */
  predicate Justified(h: Host, env: Env, id: Id)
    requires id in h.requests
  {
    || MaxHoldExceeded(h, env, id, h.requests[id])
    || (AllGone(env, OwnIdentities(h, id)) && (h.requests[id].state == Inherited ==> OwnIdentities(h, id) != []))
  }

  lemma VerdictJustified(h: Host, env: Env, id: Id, row: Request, swept: set<Id>)
    requires id in h.requests && HoldsSource(h.requests[id].state)
    requires SameRow(row, h.requests[id]) && row.state == h.requests[id].state && row.owner == h.requests[id].owner
    requires Verdict(h, env, id, row, swept).Some?
    ensures Justified(h, env, id)
  {
  }

  /** Its leases, whole rows. */
  function LeasesOf(h: Host, y: Id): map<Id, HostLease> {
    map l | l in h.leases && h.leases[l].request == y :: h.leases[l]
  }

  /** A holder's row and lease, and what else the sweep reads about it, have not changed. */
  predicate Untouched(b: Host, a: Host, y: Id)
    requires y in b.requests
  {
    && y in a.requests && a.requests[y] == b.requests[y] && LeasesOf(a, y) == LeasesOf(b, y)
    && OwnIdentities(a, y) == OwnIdentities(b, y)
    && Activation(a, y, a.requests[y]) == Activation(b, y, b.requests[y])
  }

  lemma ActivationFrame(b: Host, a: Host, e: HostEvent, y: Id, row: Request)
    requires a.events == b.events + [e] && e.request != y
    ensures Activation(a, y, row) == Activation(b, y, row)
  {
    assert a.events[..|a.events| - 1] == b.events;
  }

  lemma SweepOneActivation(db: Db, env: Env, id: Id, row: Request, evidence: Evidence, y: Id)
    requires id in db.host.requests && y in db.host.requests && y != id
    requires db.host.requests[y].state != Queued
    ensures Activation(SweepOne(db, env, id, row, evidence).host, y, db.host.requests[y])
         == Activation(db.host, y, db.host.requests[y])
  {
    var reason := SweepReason(evidence);
    var released := ReleaseSwept(db.host, id, row, reason, env.now);
    var d := SweepOne(db, env, id, row, evidence).host;
    ActivationFrame(db.host, released, released.events[|db.host.events|], y, db.host.requests[y]);
    if d != released {
      ActivationFrame(released, d, d.events[|released.events|], y, db.host.requests[y]);
    }
  }

  /** A request whose lease, if any, has stayed and that gained none keeps its identities. */
  lemma SameIdentities(b: Host, a: Host, y: Id)
    requires LeasesSound(a) && y in b.requests && y in a.requests && a.requests[y] == b.requests[y]
    requires forall l | l in b.leases && b.leases[l].request == y :: l in a.leases && a.leases[l] == b.leases[l]
    requires forall l | l in a.leases && a.leases[l].request == y :: l in b.leases && b.leases[l].request == y
    ensures OwnIdentities(a, y) == OwnIdentities(b, y) && LeasesOf(a, y) == LeasesOf(b, y)
  {
    var l := LeaseOf(b.leases, y);
    if l.Some? {
      LeaseOfUnique(a, l.value);
    }
  }

  lemma SweepOneUntouched(db: Db, env: Env, id: Id, row: Request, evidence: Evidence, y: Id)
    requires id in db.host.requests && y in db.host.requests && y != id
    requires LeasesSound(db.host) && LeasesSound(SweepOne(db, env, id, row, evidence).host)
    requires HoldsSource(db.host.requests[y].state)
    ensures Untouched(db.host, SweepOne(db, env, id, row, evidence).host, y)
  {
    SweepOneRow(db, env, id, row, evidence, y);
    SweepOneLeases(db, env, id, row, evidence);
    SweepOneActivation(db, env, id, row, evidence, y);
    SameIdentities(db.host, SweepOne(db, env, id, row, evidence).host, y);
  }

  // ---- the attempt of a swept request is over ----

  /** No waiter and no work lease is left to the attempt, and its row, if any, is UNKNOWN. */
  ghost predicate Ended(db: Db, attempt: AttemptId) {
    && (attempt in db.work.attempts ==> db.work.attempts[attempt].status == Unknown)
    && (forall r | r in db.host.requests && db.host.requests[r].state == Queued ::
          db.host.requests[r].attempt != attempt)
    && (forall l | l in db.work.leases :: db.work.leases[l].attempt != attempt)
  }

  lemma SweepOneEnds(db: Db, env: Env, id: Id, row: Request, evidence: Evidence, attempt: AttemptId)
    requires id in db.host.requests && SameRow(row, db.host.requests[id])
    requires Ended(db, attempt) || attempt == row.attempt
    ensures Ended(SweepOne(db, env, id, row, evidence), attempt)
  {
    var d := SweepOne(db, env, id, row, evidence);
    forall r | r in d.host.requests && d.host.requests[r].state == Queued
      ensures d.host.requests[r].attempt != attempt
    {
      var released := ReleaseSwept(db.host, id, row, SweepReason(evidence), env.now);
      assert released.requests[r].state == Queued;
    }
  }

  // ---- passes and the whole sweep ----

  /** What holds of the tables `db` when the sweep started at `start` has swept `swept`. */
  ghost predicate Progress(start: Db, db: Db, env: Env, swept: seq<Id>) {
    && Settled(db)
    && SweptReleased(db.host, IdSet(swept))
    && Evolves(start, db, env.now)
    && (SourcesTight(start.host) ==> SourcesTight(db.host))
    && Distinct(swept)
    && AllEnded(start, db, swept)
    && AllAccounted(start.host, db.host, env, swept)
  }

  ghost predicate AllEnded(start: Db, db: Db, swept: seq<Id>) {
    forall x | x in swept :: x in start.host.requests && Ended(db, start.host.requests[x].attempt)
  }

  ghost predicate AllAccounted(b: Host, a: Host, env: Env, swept: seq<Id>) {
    forall y | y in b.requests && HoldsSource(b.requests[y].state) :: Accounted(b, a, env, swept, y)
  }

  predicate Distinct(ids: seq<Id>) { forall i, j | 0 <= i < j < |ids| :: ids[i] != ids[j] }

  /** A holder is either swept with justification or exactly as the sweep found it. */
  predicate Accounted(b: Host, a: Host, env: Env, swept: seq<Id>, y: Id)
    requires y in b.requests
  {
    if y in swept then Justified(b, env, y) else Untouched(b, a, y)
  }

  lemma ProgressEvolves(start: Db, db: Db, env: Env, id: Id, row: Request, swept: seq<Id>)
    requires LeasesSound(start.host) && Progress(start, db, env, swept)
    requires FreshRow(db.host, env.now, id, row, IdSet(swept)) && Sweepable(row.state)
    requires Verdict(db.host, env, id, row, IdSet(swept)).Some?
    ensures var d := SweepOne(db, env, id, row, Verdict(db.host, env, id, row, IdSet(swept)).value);
            Settled(d) && Evolves(start, d, env.now) && d.host.requests[id].state == Released
            && (SourcesTight(start.host) ==> SourcesTight(d.host))
  {
    SweepOneKeeps(db, env, id, row, IdSet(swept));
    EvolvesTransitive(start, db, SweepOne(db, env, id, row, Verdict(db.host, env, id, row, IdSet(swept)).value),
                      env.now, env.now);
  }

  lemma UntouchedStaysJustified(b: Host, a: Host, env: Env, y: Id)
    requires y in b.requests && Untouched(b, a, y) && Justified(a, env, y)
    ensures Justified(b, env, y)
  {
  }

  lemma UntouchedTwice(b: Host, m: Host, a: Host, y: Id)
    requires y in b.requests && Untouched(b, m, y) && Untouched(m, a, y)
    ensures Untouched(b, a, y)
  {
  }

  /** A holder the sweep has left alone so far is swept only with justification. */
  lemma SweptHolder(b: Host, h: Host, env: Env, id: Id, row: Request, swept: set<Id>)
    requires id in b.requests && HoldsSource(b.requests[id].state) && Untouched(b, h, id)
    requires FreshRow(h, env.now, id, row, swept) && Sweepable(row.state)
    requires Verdict(h, env, id, row, swept).Some?
    ensures Justified(b, env, id)
  {
    VerdictState(h, env, id, row, swept);
    VerdictJustified(h, env, id, row, swept);
    UntouchedStaysJustified(b, h, env, id);
  }

  lemma ProgressHolder(b: Host, db: Db, env: Env, id: Id, row: Request, swept: seq<Id>, y: Id)
    requires y in b.requests && HoldsSource(b.requests[y].state) && Accounted(b, db.host, env, swept, y)
    requires FreshRow(db.host, env.now, id, row, IdSet(swept)) && Sweepable(row.state)
    requires Verdict(db.host, env, id, row, IdSet(swept)).Some?
    requires LeasesSound(db.host)
    requires LeasesSound(SweepOne(db, env, id, row, Verdict(db.host, env, id, row, IdSet(swept)).value).host)
    ensures var d := SweepOne(db, env, id, row, Verdict(db.host, env, id, row, IdSet(swept)).value);
            Accounted(b, d.host, env, swept + [id], y)
  {
    var evidence := Verdict(db.host, env, id, row, IdSet(swept)).value;
    if y !in swept && y == id { SweptHolder(b, db.host, env, id, row, IdSet(swept)); }
    if y !in swept && y != id { OtherHolder(b, db, env, id, row, evidence, y); }
    AccountedOnceMore(b, db.host, SweepOne(db, env, id, row, evidence).host, env, swept, id, y);
  }

  lemma OtherHolder(b: Host, db: Db, env: Env, id: Id, row: Request, evidence: Evidence, y: Id)
    requires y in b.requests && HoldsSource(b.requests[y].state) && Untouched(b, db.host, y)
    requires id in db.host.requests && y != id
    requires LeasesSound(db.host) && LeasesSound(SweepOne(db, env, id, row, evidence).host)
    ensures Untouched(b, SweepOne(db, env, id, row, evidence).host, y)
  {
    SweepOneUntouched(db, env, id, row, evidence, y);
    UntouchedTwice(b, db.host, SweepOne(db, env, id, row, evidence).host, y);
  }

  lemma AccountedOnceMore(b: Host, h: Host, a: Host, env: Env, swept: seq<Id>, id: Id, y: Id)
    requires y in b.requests && Accounted(b, h, env, swept, y)
    requires y !in swept ==> if y == id then Justified(b, env, y) else Untouched(b, a, y)
    ensures Accounted(b, a, env, swept + [id], y)
  {
  }

  /** One step of a pass is under way: its candidate has just been judged. */
  ghost predicate Stepping(start: Db, db: Db, env: Env, snapshot: map<Id, Request>, id: Id, swept: seq<Id>) {
    && LeasesSound(start.host) && start.host.requests.Keys == db.host.requests.Keys
    && Progress(start, db, env, swept)
    && Fresh(db.host, env.now, snapshot, IdSet(swept)) && id in snapshot && Sweepable(snapshot[id].state)
    && Verdict(db.host, env, id, snapshot[id], IdSet(swept)).Some?
  }

  function Stepped(db: Db, env: Env, snapshot: map<Id, Request>, id: Id, swept: seq<Id>): Db
    requires id in snapshot && id in db.host.requests && Verdict(db.host, env, id, snapshot[id], IdSet(swept)).Some?
  {
    SweepOne(db, env, id, snapshot[id], Verdict(db.host, env, id, snapshot[id], IdSet(swept)).value)
  }

  lemma StepEnds(start: Db, db: Db, env: Env, snapshot: map<Id, Request>, id: Id, swept: seq<Id>)
    requires Stepping(start, db, env, snapshot, id, swept) && RequestsEvolve(start.host, db.host)
    ensures AllEnded(start, Stepped(db, env, snapshot, id, swept), swept + [id])
  {
    var evidence := Verdict(db.host, env, id, snapshot[id], IdSet(swept)).value;
    forall x | x in swept + [id]
      ensures x in start.host.requests
      ensures Ended(Stepped(db, env, snapshot, id, swept), start.host.requests[x].attempt)
    {
      SweepOneEnds(db, env, id, snapshot[id], evidence, start.host.requests[x].attempt);
    }
  }

  lemma StepAccounts(start: Db, db: Db, env: Env, snapshot: map<Id, Request>, id: Id, swept: seq<Id>)
    requires Stepping(start, db, env, snapshot, id, swept) && LeasesSound(Stepped(db, env, snapshot, id, swept).host)
    ensures AllAccounted(start.host, Stepped(db, env, snapshot, id, swept).host, env, swept + [id])
  {
    var d := Stepped(db, env, snapshot, id, swept);
    forall y | y in start.host.requests && HoldsSource(start.host.requests[y].state)
      ensures Accounted(start.host, d.host, env, swept + [id], y)
    {
      assert Accounted(start.host, db.host, env, swept, y);
      ProgressHolder(start.host, db, env, id, snapshot[id], swept, y);
    }
  }

  lemma IdSetAppend(ids: seq<Id>, id: Id)
    requires Distinct(ids)
    ensures IdSet(ids + [id]) == IdSet(ids) + {id}
    ensures id !in IdSet(ids) ==> Distinct(ids + [id])
  {
  }

  lemma StepFresh(start: Db, db: Db, env: Env, snapshot: map<Id, Request>, id: Id, swept: seq<Id>)
    requires Stepping(start, db, env, snapshot, id, swept)
    ensures var d := Stepped(db, env, snapshot, id, swept);
            && Settled(d) && Evolves(start, d, env.now) && (SourcesTight(start.host) ==> SourcesTight(d.host))
            && Fresh(d.host, env.now, snapshot, IdSet(swept + [id]))
            && SweptReleased(d.host, IdSet(swept + [id]))
            && Distinct(swept + [id])
  {
    var evidence := Verdict(db.host, env, id, snapshot[id], IdSet(swept)).value;
    IdSetAppend(swept, id);
    ProgressEvolves(start, db, env, id, snapshot[id], swept);
    SweepOneFresh(db, env, snapshot, id, evidence, IdSet(swept));
  }

  lemma ProgressStep(start: Db, db: Db, env: Env, snapshot: map<Id, Request>, id: Id, swept: seq<Id>)
    requires Stepping(start, db, env, snapshot, id, swept)
    ensures var d := Stepped(db, env, snapshot, id, swept);
            Progress(start, d, env, swept + [id]) && Fresh(d.host, env.now, snapshot, IdSet(swept + [id]))
  {
    StepFresh(start, db, env, snapshot, id, swept);
    StepEnds(start, db, env, snapshot, id, swept);
    StepAccounts(start, db, env, snapshot, id, swept);
  }

  lemma {:induction false} PassProgresses(start: Db, db: Db, env: Env, snapshot: map<Id, Request>, rows: seq<Id>,
                                          swept: seq<Id>)
    requires LeasesSound(start.host) && start.host.requests.Keys == db.host.requests.Keys
    requires Progress(start, db, env, swept) && Fresh(db.host, env.now, snapshot, IdSet(swept))
    requires forall x | x in rows :: x in snapshot && Sweepable(snapshot[x].state)
    ensures var r := SweepPass(db, env, snapshot, rows, swept); Progress(start, r.db, env, r.swept)
    decreases |rows|
  {
    if rows != [] {
      var id := rows[0];
      assert forall x | x in rows[1..] :: x in rows;
      var verdict := Verdict(db.host, env, id, snapshot[id], IdSet(swept));
      if verdict.None? {
        PassProgresses(start, db, env, snapshot, rows[1..], swept);
      } else {
        ProgressStep(start, db, env, snapshot, id, swept);
        PassProgresses(start, SweepOne(db, env, id, snapshot[id], verdict.value), env, snapshot,
                       rows[1..], swept + [id]);
      }
    }
  }

  /** A new pass starts from the current rows, none of which it has swept. */
  lemma PassStartsFresh(db: Db, env: Env, swept: seq<Id>)
    requires SweptReleased(db.host, IdSet(swept))
    ensures Fresh(db.host, env.now, db.host.requests, IdSet(swept))
  {
  }

  lemma WholePassProgresses(start: Db, db: Db, env: Env, swept: seq<Id>)
    requires LeasesSound(start.host) && start.host.requests.Keys == db.host.requests.Keys
    requires Progress(start, db, env, swept)
    ensures var r := SweepPass(db, env, db.host.requests, Candidates(db.host.requests), swept);
            Progress(start, r.db, env, r.swept)
  {
    PassStartsFresh(db, env, swept);
    PassProgresses(start, db, env, db.host.requests, Candidates(db.host.requests), swept);
  }

  lemma {:induction false} LoopProgresses(start: Db, db: Db, env: Env, swept: seq<Id>)
    requires LeasesSound(start.host) && start.host.requests.Keys == db.host.requests.Keys
    requires Progress(start, db, env, swept) && forall x | x in swept :: x in db.host.requests
    ensures var r := SweepFrom(db, env, swept); Progress(start, r.db, env, r.swept)
    decreases |db.host.requests.Keys - IdSet(swept)|
  {
    var pass := SweepPass(db, env, db.host.requests, Candidates(db.host.requests), swept);
    NextPass(db, env, swept);
    WholePassProgresses(start, db, env, swept);
    if pass.swept != swept { LoopProgresses(start, pass.db, env, pass.swept); }
  }

  lemma NextPass(db: Db, env: Env, swept: seq<Id>)
    requires forall x | x in swept :: x in db.host.requests
    ensures var pass := SweepPass(db, env, db.host.requests, Candidates(db.host.requests), swept);
            && (forall x | x in pass.swept :: x in db.host.requests)
            && (pass.swept != swept ==>
                  |db.host.requests.Keys - IdSet(pass.swept)| < |db.host.requests.Keys - IdSet(swept)|)
            && SweepFrom(db, env, swept)
               == if pass.swept == swept then pass else SweepFrom(pass.db, env, pass.swept)
  {
    PassProgress(db, env, swept);
  }

  lemma EvolvesReflexive(db: Db, now: int)
    ensures Evolves(db, db, now)
  {
  }

  lemma SweepProgresses(db: Db, env: Env)
    requires Settled(db)
    ensures var r := Sweep(db, env); Progress(db, r.db, env, r.swept)
  {
    EvolvesReflexive(db, env.now);
    assert Progress(db, db, env, []);
    if SweepEnabled(env.config) { LoopProgresses(db, db, env, []); }
  }

  // ---- main results ----

  /** The sweep never releases a holder while an identity recorded on its own lease or request
      is alive or unproven, except an ACTIVE CDP slot past its maximum hold; an inherited child
      without any recorded identity is never swept; and no id is swept twice. Every other holder
      keeps its row, its lease and with it the recorded process. */
  lemma SweepSafety(db: Db, env: Env, y: Id)
    requires Settled(db) && y in db.host.requests && HoldsSource(db.host.requests[y].state)
    ensures var r := Sweep(db, env); var after := r.db.host.requests[y];
            && (after.state == db.host.requests[y].state <==> y !in r.swept)
            && (y in r.swept ==> after.state == Released)
            && (y !in r.swept ==>
                  && after == db.host.requests[y] && LeasesOf(r.db.host, y) == LeasesOf(db.host, y)
                  && OwnIdentities(r.db.host, y) == OwnIdentities(db.host, y))
            && (y in r.swept ==>
                  || PastMaxHold(db.host, env, y)
                  || forall i | i in OwnIdentities(db.host, y) :: env.liveness(i) == Gone)
            && (db.host.requests[y].state == Inherited && OwnIdentities(db.host, y) == [] ==> y !in r.swept)
            && Distinct(r.swept)
  {
    SweepProgresses(db, env);
    var r := Sweep(db, env);
    assert Accounted(db.host, r.db.host, env, r.swept, y);
    MaxHoldBy(db.host, env, y);
    if y in r.swept {
      assert y in IdSet(r.swept);
    } else {
      assert Accounted(db.host, r.db.host, env, r.swept, y);
    }
  }

  /** What a whole sweep does to the state between operations. */
  lemma SweepSettles(db: Db, env: Env)
    requires Settled(db)
    ensures var r := Sweep(db, env);
            && Settled(r.db) && Evolves(db, r.db, env.now)
            && (SourcesTight(db.host) ==> SourcesTight(r.db.host))
            && (forall x | x in r.swept :: x in db.host.requests && r.db.host.requests[x].state == Released)
  {
    SweepProgresses(db, env);
    var r := Sweep(db, env);
    forall x | x in r.swept ensures r.db.host.requests[x].state == Released { assert x in IdSet(r.swept); }
  }

  /** Reaped: the attempt of every swept request has no waiter and no work lease left, and its
      attempts row, if it has one, is UNKNOWN. */
  lemma SweepEndsAttempts(db: Db, env: Env, x: Id)
    requires Settled(db) && x in Sweep(db, env).swept
    ensures x in db.host.requests && Ended(Sweep(db, env).db, db.host.requests[x].attempt)
  {
    SweepProgresses(db, env);
  }

  /** Swept requests say why they were released. */
  ghost predicate SweptNamed(h: Host, swept: seq<Id>) {
    forall x | x in swept ::
      && x in h.requests && h.requests[x].state == Released
      && h.requests[x].reason in {StaleSlotAutoReleased, CdpMaxHoldExceeded}
  }

  lemma SweepOneNamed(db: Db, env: Env, id: Id, row: Request, evidence: Evidence, swept: seq<Id>)
    requires id in db.host.requests && SweptNamed(db.host, swept)
    ensures SweptNamed(SweepOne(db, env, id, row, evidence).host, swept + [id])
  {
    var d := SweepOne(db, env, id, row, evidence);
    SweptRowNamed(db, env, id, row, evidence);
    forall x | x in swept + [id]
      ensures x in d.host.requests && d.host.requests[x].state == Released
      ensures d.host.requests[x].reason in {StaleSlotAutoReleased, CdpMaxHoldExceeded}
    {
      if x != id { SweepOneRow(db, env, id, row, evidence, x); }
    }
  }

  lemma SweptRowNamed(db: Db, env: Env, id: Id, row: Request, evidence: Evidence)
    requires id in db.host.requests
    ensures var x := SweepOne(db, env, id, row, evidence).host.requests[id];
            x.state == Released && x.reason == SweepReason(evidence)
  {
    var released := ReleaseSwept(db.host, id, row, SweepReason(evidence), env.now);
    assert released.requests[id].state == Released && released.requests[id].reason == SweepReason(evidence);
  }

  lemma {:induction false} PassNamed(db: Db, env: Env, snapshot: map<Id, Request>, rows: seq<Id>, swept: seq<Id>)
    requires snapshot.Keys == db.host.requests.Keys && (forall x | x in rows :: x in snapshot)
    requires SweptNamed(db.host, swept)
    ensures var r := SweepPass(db, env, snapshot, rows, swept); SweptNamed(r.db.host, r.swept)
    decreases |rows|
  {
    if rows != [] {
      var id := rows[0];
      assert forall x | x in rows[1..] :: x in rows;
      var verdict := Verdict(db.host, env, id, snapshot[id], IdSet(swept));
      if verdict.None? {
        PassNamed(db, env, snapshot, rows[1..], swept);
      } else {
        SweepOneNamed(db, env, id, snapshot[id], verdict.value, swept);
        PassNamed(SweepOne(db, env, id, snapshot[id], verdict.value), env, snapshot, rows[1..], swept + [id]);
      }
    }
  }

  lemma {:induction false} LoopNamed(db: Db, env: Env, swept: seq<Id>)
    requires SweptNamed(db.host, swept)
    ensures var r := SweepFrom(db, env, swept); SweptNamed(r.db.host, r.swept)
    decreases |db.host.requests.Keys - IdSet(swept)|
  {
    PassNamed(db, env, db.host.requests, Candidates(db.host.requests), swept);
    var pass := SweepPass(db, env, db.host.requests, Candidates(db.host.requests), swept);
    if pass.swept != swept {
      PassProgress(db, env, swept);
      LoopNamed(pass.db, env, pass.swept);
    }
  }

  /** Every request a sweep has released carries the sweep's reason. */
  lemma SweepNames(db: Db, env: Env)
    ensures SweptNamed(Sweep(db, env).db.host, Sweep(db, env).swept)
  {
    if SweepEnabled(env.config) { LoopNamed(db, env, []); }
  }

  lemma {:induction false} QuietPassJudgesAll(db: Db, env: Env, snapshot: map<Id, Request>, rows: seq<Id>,
                                              swept: seq<Id>)
    requires snapshot.Keys == db.host.requests.Keys && forall x | x in rows :: x in snapshot
    requires SweepPass(db, env, snapshot, rows, swept).swept == swept
    ensures SweepPass(db, env, snapshot, rows, swept).db == db
    ensures forall x | x in rows :: Verdict(db.host, env, x, snapshot[x], IdSet(swept)).None?
    decreases |rows|
  {
    if rows != [] {
      assert forall x | x in rows[1..] :: x in rows;
      var verdict := Verdict(db.host, env, rows[0], snapshot[rows[0]], IdSet(swept));
      if verdict.None? {
        QuietPassJudgesAll(db, env, snapshot, rows[1..], swept);
      } else {
        assert false;
      }
    }
  }

  /** No current candidate would be swept. */
  ghost predicate NothingStale(h: Host, env: Env, swept: set<Id>) {
    forall x | x in h.requests && Sweepable(h.requests[x].state) :: Verdict(h, env, x, h.requests[x], swept).None?
  }

  /** The last pass of a sweep judged every remaining candidate and swept none of them. */
  lemma {:induction false} LastPassJudgesAll(db: Db, env: Env, swept: seq<Id>)
    requires forall x | x in swept :: x in db.host.requests
    ensures NothingStale(SweepFrom(db, env, swept).db.host, env, IdSet(SweepFrom(db, env, swept).swept))
    decreases |db.host.requests.Keys - IdSet(swept)|
  {
    var pass := SweepPass(db, env, db.host.requests, Candidates(db.host.requests), swept);
    if pass.swept == swept {
      QuietPassJudgesAll(db, env, db.host.requests, Candidates(db.host.requests), swept);
    } else {
      PassProgress(db, env, swept);
      LastPassJudgesAll(pass.db, env, pass.swept);
    }
  }

  /** Forgetting which requests were swept changes no verdict once they are released. */
  lemma VerdictForgets(h: Host, env: Env, id: Id, swept: set<Id>)
    requires id in h.requests && Sweepable(h.requests[id].state) && SweptReleased(h, swept)
    ensures Verdict(h, env, id, h.requests[id], {}) == Verdict(h, env, id, h.requests[id], swept)
  {
    var consulted := ConsultedLease(h, id, h.requests[id]);
    var lease := if consulted.Some? then consulted else h.requests[id].parent;
    if lease.Some? {
      assert ChildrenOf(h.requests, lease.value) - swept - {id} == ChildrenOf(h.requests, lease.value) - {} - {id};
    }
  }

  lemma StaleForgets(h: Host, env: Env, swept: set<Id>)
    requires SweptReleased(h, swept) && NothingStale(h, env, swept)
    ensures NothingStale(h, env, {})
  {
    forall x | x in h.requests && Sweepable(h.requests[x].state) ensures Verdict(h, env, x, h.requests[x], {}).None? {
      VerdictForgets(h, env, x, swept);
    }
  }

  lemma {:induction false} IdlePass(db: Db, env: Env, rows: seq<Id>)
    requires forall x | x in rows :: x in db.host.requests && Verdict(db.host, env, x, db.host.requests[x], {}).None?
    ensures SweepPass(db, env, db.host.requests, rows, []) == SweepResult(db, [])
    decreases |rows|
  {
    if rows != [] {
      assert IdSet([]) == {};
      assert forall x | x in rows[1..] :: x in rows;
      IdlePass(db, env, rows[1..]);
    }
  }

  /** Fixpoint: a second sweep at the same clock with the same liveness answers does nothing. */
  lemma SweepFixpoint(db: Db, env: Env)
    requires Settled(db)
    ensures Sweep(Sweep(db, env).db, env) == SweepResult(Sweep(db, env).db, [])
  {
    if SweepEnabled(env.config) {
      var r := Sweep(db, env);
      SweepProgresses(db, env);
      LastPassJudgesAll(db, env, []);
      StaleForgets(r.db.host, env, IdSet(r.swept));
      IdlePass(r.db, env, Candidates(r.db.host.requests));
    }
  }
}
