/** The public operations of HostResourceManager (scripts/conductor_resources.py), each one
    transaction, as functions of the tables before it. */
module HostOperations {
  import opened Collections
  import opened HostModel
  import opened ConductorModel
  import opened HostPromotion
  import opened HostSweep

  datatype Refusal =
    | IdempotencyConflict
    | ResourceDisabled
    | CapacityInvalid
    | RevokedAttempt
    | SourceIsBusy
    | ChildBusy
    | LeaseNotActive
    | LeaseIsExpired
    | RequestNotFound
    | RecoveryReleaseRefused
    | ChildActive
    | NotRecoverable
    | ProviderTerminalUnproven
    | OwnerProcessAlive
    | OwnerLivenessUnproven
    | ProviderRequired
    | ObservationDrift
    | IdentityMismatch
    | AmbiguousAttempt
    | StateUnqualified
    | AttemptNotActive
    | InvalidArgument       // ValueError
    | KeyTaken              // sqlite3.IntegrityError: the idempotency key of another row

  datatype Outcome =
    | Answer(request: Id, state: RequestState, lease: Option<Id>, replayed: bool)
    | Extended(held: Id, sequence: int, expiresAt: int)
    | AlreadyReleased(request: Id, was: RequestState)
    | Freed(request: Id, attested: bool, promoted: Option<Id>)
    | Reconciled(expired: seq<Id>, stale: seq<Id>)
    | Fenced(request: Id)
    | Refused(why: Refusal)

  datatype Result = Result(db: Db, outcome: Outcome)

  function Leave(db: Db, why: Refusal): Result { Result(db, Refused(why)) }

  // ---- request ----

  /** One admission call. `id` is the freshly minted request id; `owner` is the identity the
      operating system confirmed for the claimed owner pid, if any. */
  datatype Ask = Ask(
    id: Id, idempotencyKey: IdempotencyKey, key: ResourceKey, command: Id, attempt: AttemptId, agent: Id,
    slot: Option<Id>, priority: int, inherit: Option<Id>, ttl: int, owner: Option<Identity>)

  function FindByKey(requests: map<Id, Request>, idempotencyKey: IdempotencyKey): (r: Option<Id>)
    ensures r.Some? ==> r.value in requests && requests[r.value].idempotencyKey == idempotencyKey
    ensures r.None? ==> forall x | x in requests :: requests[x].idempotencyKey != idempotencyKey
  {
    var found := set x | x in requests && requests[x].idempotencyKey == idempotencyKey;
    if found == {} then
      assert forall x | x in requests && requests[x].idempotencyKey == idempotencyKey :: x in found;
      None
    else Some(AnyOf(found))
  }

  predicate SameAsk(r: Request, ask: Ask) {
    && r.key == ask.key && r.command == ask.command && r.attempt == ask.attempt
    && r.agent == ask.agent && r.slot == ask.slot
  }

  function RowFor(ask: Ask, now: int, state: RequestState, reason: Reason, parent: Option<Id>): Request {
    Request(ask.idempotencyKey, ask.key, ask.command, ask.attempt, ask.agent, state, ask.priority, parent,
            now, reason, ask.slot, ask.owner, if ask.owner.Some? then Some(now) else None)
  }

  function Insert(host: Host, id: Id, row: Request, lease: Option<Id>, reason: Reason, now: int): Host {
    host.(requests := host.requests[id := row],
          events := host.events + [HostEvent(id, lease, None, row.state, reason, now)])
  }

  /** The request-time revocation check also reads the reason codes of the attempt's requests. */
  predicate AttemptIsRevoked(db: Db, attempt: AttemptId) {
    || AttemptRevoked(db.work.attempts, attempt)
    || exists r :: r in db.host.requests && db.host.requests[r].attempt == attempt
                   && db.host.requests[r].reason in {StaleSlotAutoReleased, CdpMaxHoldExceeded}
  }

  /** Why a named parent lease cannot be inherited, if it cannot. */
  function InheritRejection(host: Host, ask: Ask, lease: Id, now: int): Option<Reason> {
    if lease !in host.leases || host.leases[lease].key != ask.key
       || host.leases[lease].request !in host.requests
       || host.requests[host.leases[lease].request].state != Active
    then Some(InheritedLeaseInvalid)
    else if host.leases[lease].expiresAt <= now then Some(InheritedLeaseExpired)
    else None
  }

  function Inherit(db: Db, env: Env, ask: Ask, lease: Id): Result {
    if ChildrenOf(db.host.requests, lease) != {} then
      var row := RowFor(ask, env.now, Quarantined, InheritedChildBusy, Some(lease));
      Result(db.(host := Insert(db.host, ask.id, row, None, InheritedChildBusy, env.now)), Refused(ChildBusy))
    else
      var row := RowFor(ask, env.now, Inherited, NoReason, Some(lease));
      Result(db.(host := Insert(db.host, ask.id, row, Some(lease), LeaseInherited, env.now)),
             Answer(ask.id, Inherited, Some(lease), false))
  }

  function Admission(host: Host, ask: Ask, capacity: int, rejected: Option<Reason>): (RequestState, Reason) {
    var told := (given: Reason) => if rejected.Some? then rejected.value else given;
    if |Held(host.requests, ask.key)| >= capacity then (Queued, told(HostResourceBusy))
    else if SourceFull(host.requests, ask.key) then (Queued, ProviderSourceBusy)
    else if SlotBusy(host.requests, ask.key, ask.slot) then (Queued, told(SlotKeyBusy))
    else (Active, told(HostResourceAdmitted))
  }

  function Admit(db: Db, env: Env, ask: Ask, capacity: int, rejected: Option<Reason>): Result {
    var (state, reason) := Admission(db.host, ask, capacity, rejected);
    var row := RowFor(ask, env.now, state, reason, None);
    if state == Active then
      var lease := db.host.nextLease;
      var host := db.host.(leases := db.host.leases[lease := NewLease(ask.id, row, env.now, ask.ttl)],
                           nextLease := lease + 1);
      Result(db.(host := Insert(host, ask.id, row, Some(lease), reason, env.now)),
             Answer(ask.id, Active, Some(lease), false))
    else
      Result(db.(host := Insert(db.host, ask.id, row, None, reason, env.now)),
             Answer(ask.id, Queued, None, false))
  }

  predicate PoolUsable(host: Host, key: ResourceKey) { key in host.pools && host.pools[key].enabled }

  predicate CapacityValid(key: ResourceKey, capacity: int) {
    capacity >= 1 && (key == HostHeavy ==> capacity == 1)
  }

  /** The decision once the sweep is done; a refused inheritance rolls the sweep back too. */
  function AdmitOrInherit(db: Db, swept: Db, env: Env, ask: Ask, capacity: int): Result {
    if ask.inherit.None? then Admit(swept, env, ask, capacity, None)
    else if SourceFull(swept.host.requests, ask.key) then Leave(db, SourceIsBusy)
    else
      var rejected := InheritRejection(swept.host, ask, ask.inherit.value, env.now);
      if rejected.None? then Inherit(swept, env, ask, ask.inherit.value)
      else Admit(swept, env, ask, capacity, rejected)
  }

  /** The admission call gets as far as its sweep. */
  predicate ReachesSweep(db: Db, ask: Ask) {
    && ask.ttl >= 1 && 0 <= ask.priority <= 1000
    && FindByKey(db.host.requests, ask.idempotencyKey).None?
    && PoolUsable(db.host, ask.key) && CapacityValid(ask.key, db.host.pools[ask.key].capacity)
  }

  /** ... and the sweep is committed: only an inheritance refused by a busy source undoes it. */
  predicate CommitsSweep(db: Db, env: Env, ask: Ask) {
    && ReachesSweep(db, ask)
    && var swept := Sweep(db, env).db;
       AttemptIsRevoked(swept, ask.attempt) || ask.inherit.None? || !SourceFull(swept.host.requests, ask.key)
  }

  function RequestStep(db: Db, env: Env, ask: Ask): Result {
    var existing := FindByKey(db.host.requests, ask.idempotencyKey);
    if ask.ttl < 1 || !(0 <= ask.priority <= 1000) then Leave(db, InvalidArgument)
    else if existing.Some? then
      var r := db.host.requests[existing.value];
      if SameAsk(r, ask) then Result(db, Answer(existing.value, r.state, LeaseOf(db.host.leases, existing.value), true))
      else Leave(db, IdempotencyConflict)
    else if !PoolUsable(db.host, ask.key) then Leave(db, ResourceDisabled)
    else if !CapacityValid(ask.key, db.host.pools[ask.key].capacity) then Leave(db, CapacityInvalid)
    else
      var swept := Sweep(db, env).db;
      // the refusal rolls this sweep back and repeats it in a transaction of its own
      if AttemptIsRevoked(swept, ask.attempt) then Leave(swept, RevokedAttempt)
      else AdmitOrInherit(db, swept, env, ask, db.host.pools[ask.key].capacity)
  }

  // ---- heartbeat ----

  function HeartbeatStep(db: Db, env: Env, lease: Id, sequence: int, ttl: int): (r: Result)
    ensures r.db.work == db.work
  {
    if sequence < 1 || ttl < 1 then Leave(db, InvalidArgument)
    else if lease !in db.host.leases || db.host.leases[lease].request !in db.host.requests
            || db.host.requests[db.host.leases[lease].request].state != Active then Leave(db, LeaseNotActive)
    else if sequence <= db.host.leases[lease].sequence then Leave(db, InvalidArgument)
    else if db.host.leases[lease].expiresAt <= env.now then Leave(db, LeaseIsExpired)
    else
      var row := db.host.leases[lease].(sequence := sequence, expiresAt := env.now + ttl, lastHeartbeat := env.now);
      Result(db.(host := db.host.(leases := db.host.leases[lease := row])),
             Extended(lease, sequence, env.now + ttl))
  }

  // ---- release and recover ----

  /** The lease an event or a child query names: the request's own, else its parent's. */
  function NamedLease(host: Host, id: Id): Option<Id>
    requires id in host.requests
  {
    var own := LeaseOf(host.leases, id);
    if own.Some? then own else host.requests[id].parent
  }

  predicate HasChildren(host: Host, lease: Option<Id>) {
    lease.Some? && ChildrenOf(host.requests, lease.value) != {}
  }

  function MarkReleased(host: Host, id: Id, reason: Reason, now: int): Host
    requires id in host.requests
  {
    host.(requests := WithState(host.requests, id, Released, reason),
          events := host.events
                    + [HostEvent(id, NamedLease(host, id), Some(host.requests[id].state), Released, reason, now)])
  }

  /** Release one request, then promote for its pool. */
  function FreeAndPromote(db: Db, env: Env, id: Id, reason: Reason, attested: bool): Result
    requires id in db.host.requests
  {
    var released := MarkReleased(db.host, id, reason, env.now);
    var key := db.host.requests[id].key;
    Result(db.(host := PromoteRelated(released, db.work.attempts, key, env.now)),
           Freed(id, attested, PickRelated(released, db.work.attempts, key)))
  }

  function ReleaseStep(db: Db, env: Env, id: Id, reason: Reason): (r: Result)
    ensures r.db.work == db.work
  {
    if id !in db.host.requests then Leave(db, RequestNotFound)
    else
      var state := db.host.requests[id].state;
      if state == Released || state == Quarantined then Result(db, AlreadyReleased(id, state))
      else if state == RecoveryRequired then Leave(db, RecoveryReleaseRefused)
      else if state == Active && HasChildren(db.host, LeaseOf(db.host.leases, id)) then Leave(db, ChildActive)
      else FreeAndPromote(db, env, id, reason, false)
  }

  function LeaseLiveness(host: Host, env: Env, id: Id): Liveness {
    var own := ProcessOf(host, LeaseOf(host.leases, id));
    if own == [] then Unproven else env.liveness(own[0])
  }

  function RecoverStep(db: Db, env: Env, id: Id, attests: bool, explains: bool): (r: Result)
    ensures r.db.work == db.work
  {
    if id !in db.host.requests then Leave(db, RequestNotFound)
    else if db.host.requests[id].state != RecoveryRequired then Leave(db, NotRecoverable)
    else
      var provider := SourceOf(db.host.requests[id].key).Some?;
      var liveness := LeaseLiveness(db.host, env, id);
      if provider && !(attests && explains) then Leave(db, ProviderTerminalUnproven)
      else if HasChildren(db.host, NamedLease(db.host, id)) then Leave(db, ChildActive)
      else if liveness == Alive then Leave(db, OwnerProcessAlive)
      else if liveness == Unproven && !attests then Leave(db, OwnerLivenessUnproven)
      else if liveness == Unproven && !explains then Leave(db, InvalidArgument)
      else
        var attested := provider || liveness == Unproven;
        FreeAndPromote(db, env, id, if attested then RecoveryAttested else RecoveryOwnerGone, attested)
  }

  // ---- fences ----

  function MarkFenced(host: Host, id: Id, reason: Reason, now: int): Host
    requires id in host.requests
  {
    host.(requests := WithState(host.requests, id, RecoveryRequired, reason),
          events := host.events
                    + [HostEvent(id, NamedLease(host, id), Some(host.requests[id].state), RecoveryRequired,
                                 reason, now)])
  }

  predicate IsProviderAttempt(host: Host, id: Id, attempt: AttemptId, agent: Id) {
    && id in host.requests && host.requests[id].attempt == attempt && host.requests[id].agent == agent
    && SourceOf(host.requests[id].key).Some?
  }

  function UncertainStep(db: Db, env: Env, id: Id, attempt: AttemptId, agent: Id, reason: Reason): (r: Result)
    ensures r.db.work == db.work
  {
    if !IsProviderAttempt(db.host, id, attempt, agent) then Leave(db, IdentityMismatch)
    else
      var state := db.host.requests[id].state;
      if !HoldsSource(state) then Leave(db, AttemptNotActive)
      else if state == RecoveryRequired then Result(db, Fenced(id))
      else Result(db.(host := MarkFenced(db.host, id, reason, env.now)), Fenced(id))
  }

  function MarkRecoveryStep(db: Db, env: Env, id: Id, reason: Reason): (d: Db)
    ensures d.work == db.work
  {
    if id !in db.host.requests || db.host.requests[id].state !in {Active, Inherited} then db
    else
      var event := HostEvent(id, LeaseOf(db.host.leases, id), Some(db.host.requests[id].state), RecoveryRequired,
                             reason, env.now);
      db.(host := db.host.(requests := WithState(db.host.requests, id, RecoveryRequired, reason),
                           events := db.host.events + [event]))
  }

  /** The requests of ACTIVE leases already past their expiry, by lease id. */
  function ExpiredLeases(host: Host, now: int): (ids: seq<Id>)
    ensures forall l :: l in ids <==>
              && l in host.leases && host.leases[l].expiresAt < now
              && host.leases[l].request in host.requests && host.requests[host.leases[l].request].state == Active
    ensures forall i, j | 0 <= i < j < |ids| :: ids[i] != ids[j]
  {
    OrderBy(map l | l in host.leases :: Rank(0, 0),
            set l | l in host.leases && host.leases[l].expiresAt < now
                    && host.leases[l].request in host.requests
                    && host.requests[host.leases[l].request].state == Active)
  }

  function FenceExpired(host: Host, rows: seq<Id>, now: int): (h: Host)
    requires forall l | l in rows :: l in host.leases && host.leases[l].request in host.requests
    ensures h.requests.Keys == host.requests.Keys
    decreases |rows|
  {
    if rows == [] then host
    else
      var id := host.leases[rows[0]].request;
      var event := HostEvent(id, Some(rows[0]), Some(Active), RecoveryRequired, LeaseExpired, now);
      FenceExpired(host.(requests := WithState(host.requests, id, RecoveryRequired, LeaseExpired),
                         events := host.events + [event]),
                   rows[1..], now)
  }

  function RequestsOf(host: Host, rows: seq<Id>): seq<Id>
    requires forall l | l in rows :: l in host.leases
  {
    seq(|rows|, i requires 0 <= i < |rows| => host.leases[rows[i]].request)
  }

  predicate NeedsReconcile(host: Host, now: int) {
    || ExpiredLeases(host, now) != []
    || exists r :: r in host.requests && host.requests[r].state in {RecoveryRequired, Inherited}
  }

  function ReconcileStep(db: Db, env: Env): Result {
    if !NeedsReconcile(db.host, env.now) then Result(db, Reconciled([], []))
    else
      var swept := Sweep(db, env);
      var rows := ExpiredLeases(swept.db.host, env.now);
      Result(swept.db.(host := FenceExpired(swept.db.host, rows, env.now)),
             Reconciled(RequestsOf(swept.db.host, rows), swept.swept))
  }

  // ---- imported observations ----

  function MatchingRequests(host: Host, attempt: AttemptId, owner: Id, source: Source): set<Id> {
    set r | r in host.requests && host.requests[r].attempt == attempt && host.requests[r].agent == owner
            && SourceOf(host.requests[r].key) == Some(source)
  }

  /** The hold recorded for an observation that no known request accounts for. */
  function ObservedRow(k: ObservationKey, details: ObservationDetails, now: int): Request {
    var attempt := if details.native.Some? then details.native.value else Unbound(k.source, k.observation);
    Request(ForObservation(k), ProviderPool(k.source), details.evidence, attempt, details.owner, RecoveryRequired,
            50, None,
            now, ProviderRetainedAttempt, None, None, None)
  }

  function RetainNew(db: Db, env: Env, id: Id, k: ObservationKey, details: ObservationDetails): Result {
    var host := Insert(db.host, id, ObservedRow(k, details, env.now), None, ProviderRetainedAttempt, env.now);
    Result(db.(host := host.(observations := host.observations[k := Observation(id, details)])),
           Answer(id, RecoveryRequired, None, false))
  }

  function RetainExisting(db: Db, env: Env, id: Id, k: ObservationKey, details: ObservationDetails): Result
    requires id in db.host.requests
  {
    if db.host.requests[id].state !in {Active, Inherited, Released, RecoveryRequired} then Leave(db, StateUnqualified)
    else
      var host := MarkFenced(db.host, id, ProviderRetainedAttempt, env.now);
      Result(db.(host := host.(observations := host.observations[k := Observation(id, details)])),
             Answer(id, RecoveryRequired, LeaseOf(db.host.leases, id), false))
  }

  datatype Binding = NoRow | Row(id: Id) | NoBinding(why: Refusal)

  /** The request an observation is about: the named one, the only match, or none yet. */
  function Bind(host: Host, source: Source, details: ObservationDetails): (b: Binding)
    ensures b.Row? ==> b.id in host.requests
  {
    if details.existing.Some? && details.native.Some? then
      var e := details.existing.value;
      if e !in host.requests || host.requests[e].attempt != details.native.value
         || host.requests[e].agent != details.owner || SourceOf(host.requests[e].key) != Some(source)
      then NoBinding(IdentityMismatch)
      else Row(e)
    else if details.native.Some? then
      var matches := MatchingRequests(host, details.native.value, details.owner, source);
      if |matches| > 1 then NoBinding(AmbiguousAttempt) else if matches != {} then Row(AnyOf(matches)) else NoRow
    else NoRow
  }

  /** Import a trusted observation as a capacity hold; `id` names a request it may insert. */
  function RetainStep(db: Db, env: Env, id: Id, key: ResourceKey, observation: Id,
                      details: ObservationDetails): (r: Result)
    ensures r.db.work == db.work
  {
    if !key.ProviderPool? then Leave(db, ProviderRequired)
    else if details.existing.Some? && details.native.None? then Leave(db, InvalidArgument)
    else
      var k := ObservationKey(key.source, observation);
      if k in db.host.observations then
        var earlier := db.host.observations[k];
        if earlier.details != details || earlier.request !in db.host.requests then Leave(db, ObservationDrift)
        else Result(db, Answer(earlier.request, db.host.requests[earlier.request].state,
                               LeaseOf(db.host.leases, earlier.request), true))
      else
        match Bind(db.host, key.source, details)
        case NoBinding(why) => Leave(db, why)
        case Row(e) => RetainExisting(db, env, e, k, details)
        case NoRow =>
          if FindByKey(db.host.requests, ForObservation(k)).Some? then Leave(db, KeyTaken)
          else RetainNew(db, env, id, k, details)
  }

  // ---- records made while a bounded child runs, and unleased consumers ----

  function AttachToLease(db: Db, lease: Id, process: Identity): (d: Db)
    ensures d.work == db.work
  {
    if lease !in db.host.leases then db
    else db.(host := db.host.(leases := db.host.leases[lease := db.host.leases[lease].(process := Some(process))]))
  }

  function AttachToRequest(db: Db, env: Env, id: Id, process: Identity): (d: Db)
    ensures d.work == db.work
  {
    if id !in db.host.requests then db
    else
      var row := db.host.requests[id].(owner := Some(process), ownerSeen := Some(env.now));
      db.(host := db.host.(requests := db.host.requests[id := row]))
  }

  function LogFocusedStep(db: Db, env: Env, ask: Ask): (r: Result)
    ensures r.db.work == db.work
  {
    var existing := FindByKey(db.host.requests, ask.idempotencyKey);
    if existing.Some? then
      Result(db, Answer(existing.value, db.host.requests[existing.value].state,
                        LeaseOf(db.host.leases, existing.value), true))
    else
      var row := RowFor(ask.(owner := None), env.now, Released, PytestFocusedNoHeavyLease, None);
      Result(db.(host := Insert(db.host, ask.id, row, None, PytestFocusedNoHeavyLease, env.now)),
             Answer(ask.id, Released, None, false))
  }
}
