/** The stale-slot sweep: `_sweep_stale_slots_locked` of scripts/conductor_resources.py,
    as functions of the tables. The loops are recursion over the same rows in the same order. */
module HostSweep {
  import opened Collections
  import opened HostModel
  import opened ConductorModel
  import opened HostPromotion

  predicate Sweepable(state: RequestState) { state in {Queued, RecoveryRequired, Active, Inherited} }

  predicate MaxHoldPool(key: ResourceKey) { key == CdpChatgpt || key == CdpPerplexity }

  /** The latest event that counts as activity; fence and auto-release events do not. */
  function LatestEvent(events: seq<HostEvent>, id: Id): Option<int> {
    if events == [] then None
    else
      var e := events[|events| - 1];
      var rest := LatestEvent(events[..|events| - 1], id);
      if e.request == id && e.reason !in {LeaseExpired, StaleSlotAutoReleased, CdpMaxHoldExceeded} then
        Some(if rest.None? then e.at else Max(rest.value, e.at))
      else rest
  }

  function LatestPromotion(events: seq<HostEvent>, id: Id): Option<int> {
    if events == [] then None
    else
      var e := events[|events| - 1];
      var rest := LatestPromotion(events[..|events| - 1], id);
      if e.request == id && e.reason == HostResourcePromoted then
        Some(if rest.None? then e.at else Max(rest.value, e.at))
      else rest
  }

  function FirstLeaseEvent(events: seq<HostEvent>, id: Id): Option<int> {
    if events == [] then None
    else
      var e := events[|events| - 1];
      var rest := FirstLeaseEvent(events[..|events| - 1], id);
      if e.request == id && e.lease.Some? then
        Some(if rest.None? || e.at < rest.value then e.at else rest.value)
      else rest
  }

  /** When an ACTIVE request began to hold: promotion, else first lease event, else creation. */
  function Activation(host: Host, id: Id, row: Request): int {
    var promoted := LatestPromotion(host.events, id);
    var leased := FirstLeaseEvent(host.events, id);
    if promoted.Some? then promoted.value else if leased.Some? then leased.value else row.createdAt
  }

  predicate MaxHoldExceeded(host: Host, env: Env, id: Id, row: Request) {
    && row.state == Active
    && MaxHoldPool(row.key)
    && env.config.cdpMaxHold > 0
    && env.now - Activation(host, id, row) >= env.config.cdpMaxHold
  }

  /** The lease consulted for a candidate: its own, else the one it inherited from. */
  function ConsultedLease(host: Host, id: Id, row: Request): (l: Option<Id>)
    ensures l.Some? ==> l.value in host.leases
  {
    var own := LeaseOf(host.leases, id);
    if own.Some? then own
    else if row.parent.Some? && row.parent.value in host.leases then row.parent
    else None
  }

  function OptMax(x: int, y: Option<int>): int { if y.None? then x else Max(x, y.value) }

  function LatestActivity(host: Host, id: Id, row: Request): int {
    var lease := ConsultedLease(host, id, row);
    var beat := if lease.Some? then Some(host.leases[lease.value].lastHeartbeat) else None;
    OptMax(OptMax(OptMax(row.createdAt, beat), row.ownerSeen), LatestEvent(host.events, id))
  }

  predicate HeartbeatExpired(host: Host, env: Env, id: Id, row: Request) {
    var lease := ConsultedLease(host, id, row);
    lease.None? || host.leases[lease.value].expiresAt <= env.now
  }

  function Recorded(identity: Option<Identity>): seq<Identity> {
    if identity.None? then [] else [identity.value]
  }

  function ProcessOf(host: Host, lease: Option<Id>): seq<Identity>
    requires lease.Some? ==> lease.value in host.leases
  {
    if lease.None? then [] else Recorded(host.leases[lease.value].process)
  }

  predicate AllGone(env: Env, identities: seq<Identity>) {
    forall i | i in identities :: env.liveness(i) == Gone
  }

  datatype Evidence = MaxHold | OwnerDead | OwnerUnrecorded

  /** What, if anything, proves that the owner of a stale candidate is gone. */
  function OwnerEvidence(host: Host, env: Env, id: Id, row: Request, age: int): Option<Evidence> {
    match row.state
    case Inherited =>
      var identities := ProcessOf(host, LeaseOf(host.leases, id)) + Recorded(row.owner);
      if identities != [] && AllGone(env, identities) then Some(OwnerDead) else None
    case Queued =>
      if row.owner.Some? then
        if AllGone(env, Recorded(row.owner)) then Some(OwnerDead) else None
      else if env.config.queuedTtl <= 0 || age < env.config.queuedTtl then None
      else Some(OwnerUnrecorded)
    case _ =>
      var identities := ProcessOf(host, ConsultedLease(host, id, row)) + Recorded(row.owner);
      if identities == [] then Some(OwnerUnrecorded)
      else if AllGone(env, identities) then Some(OwnerDead)
      else None
  }

  predicate HasOtherChild(host: Host, id: Id, row: Request, swept: set<Id>) {
    var consulted := ConsultedLease(host, id, row);
    var lease := if consulted.Some? then consulted else row.parent;
    lease.Some? && ChildrenOf(host.requests, lease.value) - swept - {id} != {}
  }

  /** The decision for one candidate row, read when its pass began, against current tables. */
  function Verdict(host: Host, env: Env, id: Id, row: Request, swept: set<Id>): Option<Evidence> {
    var maxHold := MaxHoldExceeded(host, env, id, row);
    var age := env.now - LatestActivity(host, id, row);
    if id in swept then None
    else if row.state in {Active, Inherited} && !HeartbeatExpired(host, env, id, row) && !maxHold then None
    else if !maxHold && (env.config.ttl <= 0 || age < env.config.ttl) then None
    else
      var evidence := if maxHold then Some(MaxHold) else OwnerEvidence(host, env, id, row, age);
      if evidence.None? || HasOtherChild(host, id, row, swept) then None else evidence
  }

  // ---- effects of sweeping one request ----

  function SweepReason(evidence: Evidence): Reason {
    if evidence == MaxHold then CdpMaxHoldExceeded else StaleSlotAutoReleased
  }

  /** The swept request is released, and with it every queued request of its attempt. */
  function ReleaseWithQueued(requests: map<Id, Request>, id: Id, attempt: AttemptId, reason: Reason): map<Id, Request> {
    map r | r in requests ::
      if r == id || (requests[r].attempt == attempt && requests[r].state == Queued)
      then requests[r].(state := Released, reason := reason)
      else requests[r]
  }

  /** The sweep's fence on the attempt's work item follows the recorded claim authority. */
  predicate SweepFences(work: Work, item: Id, attempt: AttemptId) {
    && item in work.items
    && Fenceable(work.items[item].state)
    && work.items[item].currentAttempt == Some(attempt)
    && var g := ClaimGeneration(work.claims, attempt);
       work.items[item].currentGeneration == Some(if g.Some? then g.value else -1)
  }

  /** Mark an attempt's outcome unknown, revoke its work lease and fence its work item. */
  function Reap(work: Work, attempt: AttemptId, reason: Reason, now: int): Work {
    var w1 := work.(leases := map l | l in work.leases && work.leases[l].attempt != attempt :: work.leases[l]);
    if attempt !in work.attempts then w1
    else
      var item := work.attempts[attempt].item;
      var w2 := w1.(attempts := work.attempts[attempt := work.attempts[attempt].(status := Unknown, reason := reason)]);
      if !SweepFences(work, item, attempt) then w2
      else
        w2.(items := work.items[item := work.items[item].(state := ItemRecovery)],
            events := work.events + [WorkEvent(item, Some(attempt), work.items[item].state, ItemRecovery, reason, now)])
  }

  /** Release one request, before anything is promoted in its place. */
  function ReleaseSwept(host: Host, id: Id, row: Request, reason: Reason, now: int): Host
    requires id in host.requests
  {
    var consulted := ConsultedLease(host, id, row);
    var lease := if consulted.Some? then consulted else row.parent;
    host.(requests := ReleaseWithQueued(host.requests, id, row.attempt, reason),
          leases := WithoutLeasesOf(host.leases, id),
          events := host.events + [HostEvent(id, lease, Some(row.state), Released, reason, now)])
  }

  function SweepOne(db: Db, env: Env, id: Id, row: Request, evidence: Evidence): Db
    requires id in db.host.requests
  {
    var reason := SweepReason(evidence);
    var work := Reap(db.work, row.attempt, reason, env.now);
    var released := ReleaseSwept(db.host, id, row, reason, env.now);
    Db(PromoteRelated(released, work.attempts, row.key, env.now), work)
  }

  // ---- passes ----

  /** Candidate rows in `ORDER BY created_at_utc, request_id` order. */
  function Candidates(requests: map<Id, Request>): (ids: seq<Id>)
    ensures forall x :: x in ids <==> x in requests && Sweepable(requests[x].state)
    ensures forall i, j | 0 <= i < j < |ids| :: ids[i] != ids[j]
  {
    OrderBy(map r | r in requests :: Rank(requests[r].createdAt, 0),
            set r | r in requests && Sweepable(requests[r].state))
  }

  datatype SweepResult = SweepResult(db: Db, swept: seq<Id>)

  function IdSet(ids: seq<Id>): set<Id> { set x | x in ids }

  /** One pass over the rows `rows` of the snapshot taken when the pass began. */
  function SweepPass(db: Db, env: Env, snapshot: map<Id, Request>, rows: seq<Id>, swept: seq<Id>): (r: SweepResult)
    requires snapshot.Keys == db.host.requests.Keys && forall x | x in rows :: x in snapshot
    ensures r.db.host.requests.Keys == db.host.requests.Keys
    ensures swept <= r.swept
    ensures forall x | x in r.swept :: x in swept || x in rows
    ensures r.swept != swept ==> |r.swept| > |swept| && r.swept[|swept|] in rows && r.swept[|swept|] !in swept
    decreases |rows|
  {
    if rows == [] then SweepResult(db, swept)
    else
      var id := rows[0];
      var verdict := Verdict(db.host, env, id, snapshot[id], IdSet(swept));
      if verdict.None? then SweepPass(db, env, snapshot, rows[1..], swept)
      else SweepPass(SweepOne(db, env, id, snapshot[id], verdict.value), env, snapshot, rows[1..], swept + [id])
  }

  /** Passes are repeated until one of them sweeps nothing. */
  function SweepFrom(db: Db, env: Env, swept: seq<Id>): (r: SweepResult)
    requires forall x | x in swept :: x in db.host.requests
    ensures r.db.host.requests.Keys == db.host.requests.Keys
    decreases |db.host.requests.Keys - IdSet(swept)|
  {
    var pass := SweepPass(db, env, db.host.requests, Candidates(db.host.requests), swept);
    if pass.swept == swept then pass
    else
      PassProgress(db, env, swept);
      SweepFrom(pass.db, env, pass.swept)
  }

  predicate SweepEnabled(config: SweepConfig) { config.ttl > 0 || config.cdpMaxHold > 0 }

  function Sweep(db: Db, env: Env): (r: SweepResult)
    ensures r.db.host.requests.Keys == db.host.requests.Keys
  {
    if !SweepEnabled(env.config) then SweepResult(db, []) else SweepFrom(db, env, [])
  }

  lemma PassProgress(db: Db, env: Env, swept: seq<Id>)
    requires forall x | x in swept :: x in db.host.requests
    ensures var pass := SweepPass(db, env, db.host.requests, Candidates(db.host.requests), swept);
            && (forall x | x in pass.swept :: x in db.host.requests)
            && (pass.swept != swept ==>
                  |db.host.requests.Keys - IdSet(pass.swept)| < |db.host.requests.Keys - IdSet(swept)|)
  {
    var pass := SweepPass(db, env, db.host.requests, Candidates(db.host.requests), swept);
    if pass.swept != swept {
      LeftShrinks(db.host.requests.Keys, swept, pass.swept);
    }
  }

  lemma LeftShrinks(all: set<Id>, before: seq<Id>, after: seq<Id>)
    requires before <= after && |after| > |before| && after[|before|] in all && after[|before|] !in before
    ensures |all - IdSet(after)| < |all - IdSet(before)|
  {
    var first := after[|before|];
    assert first in after && forall x | x in before :: x in after;
    SubsetCard(all - IdSet(after), all - IdSet(before) - {first});
  }
}
