/** The host-resource tables of scripts/conductor_resources.py and the records of
    scripts/conductor_model.py they hold. Timestamps are integers (seconds). */
module HostModel {
  import opened Collections

  datatype Source = Chatgpt | Perplexity | Cursor | Antigravity | Zai | Claude

  datatype ResourceKey =
    | HostHeavy
    | CdpPerplexity
    | CdpChatgpt
    | CdpGemini
    | CdpTv
    | ProviderPool(source: Source)

  const PROVIDER_SOURCE_CAPACITY := 3
  const DEFAULT_LEASE_TTL := 300

  /** PROVIDER_SOURCE_BY_POOL: which provider source a pool draws on, if any. */
  function SourceOf(key: ResourceKey): Option<Source> {
    match key
    case ProviderPool(source) => Some(source)
    case CdpChatgpt => Some(Chatgpt)
    case CdpPerplexity => Some(Perplexity)
    case CdpGemini => Some(Antigravity)
    case _ => None
  }

  /** The default capacity of the pool spelled `cdp:<source>`, 0 when there is none. */
  function CdpDefaultCapacity(source: Source): int {
    match source
    case Chatgpt => 4
    case Perplexity => 4
    case _ => 0
  }

  function SourceCapacity(source: Source): int {
    Max(PROVIDER_SOURCE_CAPACITY, CdpDefaultCapacity(source))
  }

  datatype RequestState = Queued | Active | Inherited | Released | RecoveryRequired | Quarantined

  datatype Reason =
    | NoReason
    | HostResourceAdmitted
    | HostResourceBusy
    | ProviderSourceBusy
    | SlotKeyBusy
    | InheritedLeaseInvalid
    | InheritedLeaseExpired
    | InheritedChildBusy
    | LeaseInherited
    | HostResourcePromoted
    | LeaseExpired
    | StaleSlotAutoReleased
    | CdpMaxHoldExceeded
    | ProviderRetainedAttempt
    | RecoveryAttested
    | RecoveryOwnerGone
    | PytestFocusedNoHeavyLease
    | MigrationOwnershipUnestablished
    | OperatorEnqueue
    | WorkItemClaimed
    | AuthorizationGranted
    | AuthorizationMissing
    | AuthorizationExpired
    | AuthorizationScopeMismatch
    | Given(code: Id)

  /** An attempt is named by its claimant, or labelled after the observation that imported it. */
  datatype AttemptId = Named(id: Id) | Unbound(source: Source, observation: Id)

  datatype ObservationKey = ObservationKey(source: Source, observation: Id)

  datatype IdempotencyKey = Chosen(name: Id) | ForObservation(k: ObservationKey)

  /** A recorded process: its pid and, when it could be read, its start time. */
  datatype Identity = Identity(pid: nat, start: Option<int>)

  datatype Liveness = Gone | Alive | Unproven

  datatype Pool = Pool(capacity: int, enabled: bool)

  datatype Request = Request(
    idempotencyKey: IdempotencyKey,
    key: ResourceKey,
    command: Id,            // purpose and command digest, compared together on replay
    attempt: AttemptId,
    agent: Id,
    state: RequestState,
    priority: int,
    parent: Option<Id>,     // lease inherited from
    createdAt: int,
    reason: Reason,
    slot: Option<Id>,       // None is the empty slot key
    owner: Option<Identity>,
    ownerSeen: Option<int>)

  datatype HostLease = HostLease(
    request: Id,
    key: ResourceKey,
    attempt: AttemptId,
    agent: Id,
    sequence: int,
    expiresAt: int,
    lastHeartbeat: int,
    process: Option<Identity>)

  datatype HostEvent = HostEvent(
    request: Id,
    lease: Option<Id>,
    previous: Option<RequestState>,
    next: RequestState,
    reason: Reason,
    at: int)

  datatype ObservationDetails = ObservationDetails(
    owner: Id, evidence: Id, native: Option<AttemptId>, existing: Option<Id>)
  datatype Observation = Observation(request: Id, details: ObservationDetails)

  datatype Host = Host(
    pools: map<ResourceKey, Pool>,
    requests: map<Id, Request>,
    leases: map<Id, HostLease>,
    events: seq<HostEvent>,
    observations: map<ObservationKey, Observation>,
    nextLease: Id)          // source of fresh lease ids

  /** The stale-slot environment settings; zero disables a rule. */
  datatype SweepConfig = SweepConfig(ttl: int, cdpMaxHold: int, queuedTtl: int)

  /** One clock reading, one answer per process and one configuration for a whole step. */
  datatype Env = Env(now: int, liveness: Identity -> Liveness, config: SweepConfig)

  // ---- queries over host_resource_requests ----

  predicate HoldsPool(state: RequestState) { state == Active || state == RecoveryRequired }

  predicate HoldsSource(state: RequestState) {
    state == Active || state == Inherited || state == RecoveryRequired
  }

  function Held(requests: map<Id, Request>, key: ResourceKey): set<Id> {
    set r | r in requests && requests[r].key == key && HoldsPool(requests[r].state)
  }

  function SourceHeld(requests: map<Id, Request>, source: Source): set<Id> {
    set r | r in requests && SourceOf(requests[r].key) == Some(source) && HoldsSource(requests[r].state)
  }

  predicate SourceFull(requests: map<Id, Request>, key: ResourceKey) {
    match SourceOf(key)
    case None => false
    case Some(source) => |SourceHeld(requests, source)| >= SourceCapacity(source)
  }

  predicate SlotBusy(requests: map<Id, Request>, key: ResourceKey, slot: Option<Id>) {
    slot.Some? && exists r :: r in Held(requests, key) && requests[r].slot == slot
  }

  function WithState(requests: map<Id, Request>, id: Id, state: RequestState, reason: Reason): map<Id, Request>
    requires id in requests
  {
    requests[id := requests[id].(state := state, reason := reason)]
  }

  // ---- queries over host_resource_leases ----

  function LeaseOf(leases: map<Id, HostLease>, request: Id): (l: Option<Id>)
    ensures l.Some? ==> l.value in leases && leases[l.value].request == request
    ensures l.None? ==> forall x | x in leases :: leases[x].request != request
  {
    var owned := set x | x in leases && leases[x].request == request;
    if owned == {} then
      assert forall x | x in leases && leases[x].request == request :: x in owned;
      None
    else
      Some(AnyOf(owned))
  }

  function WithoutLeasesOf(leases: map<Id, HostLease>, request: Id): map<Id, HostLease> {
    map x | x in leases && leases[x].request != request :: leases[x]
  }

  function ChildrenOf(requests: map<Id, Request>, lease: Id): set<Id> {
    set c | c in requests && requests[c].parent == Some(lease) && requests[c].state == Inherited
  }
}
