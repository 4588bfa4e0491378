/** Whole runs: any interleaving of host-resource and work-item transactions, and what holds
    in and between all the states they pass through. */
module Runs {
  import opened Collections
  import opened HostModel
  import opened ConductorModel
  import opened HostPromotion
  import opened HostInvariant
  import opened HostSweep
  import opened HostSweepProof
  import opened HostOperations
  import opened HostOperationsProof
  import opened WorkStore
  import opened WorkProof
  import opened WorkLedger
  import opened IdempotencyKeys
  import opened HostAnswers
  import opened WorkAnswers

  /** One committed transaction. */
  datatype Op =
    | Request(env: Env, ask: Ask)
    | HostBeat(env: Env, lease: Id, sequence: int, ttl: int)
    | Release(env: Env, id: Id, reason: Reason)
    | SweepSlots(env: Env)
    | Reconcile(env: Env)
    | Recover(env: Env, id: Id, attests: bool, explains: bool)
    | MarkUncertain(env: Env, id: Id, who: AttemptId, agent: Id, reason: Reason)
    | MarkRecovery(env: Env, id: Id, reason: Reason)
    | Retain(env: Env, id: Id, key: ResourceKey, observation: Id, details: ObservationDetails)
    | LogFocused(env: Env, ask: Ask)
    | AttachLease(env: Env, lease: Id, process: Identity)
    | AttachRequest(env: Env, id: Id, process: Identity)
    | NewItem(env: Env, item: Id, about: ItemDetails)
    | MoveItem(env: Env, item: Id, target: WorkState, attempt: Option<AttemptId>, reason: Reason)
    | NewAttempt(env: Env, who: AttemptId, item: Id)
    | NewClaim(env: Env, who: AttemptId, item: Id)
    | NewLease(env: Env, id: Id, workLease: WorkLease)
    | CompleteItem(env: Env, item: Id, target: WorkState, who: AttemptId, generation: int, reason: Reason)
    | Checkpointed(env: Env, item: Id, who: AttemptId, generation: int, evidence: Id)
    | WorkBeat(env: Env, id: Id, who: AttemptId, sequence: int, generation: int, ttl: int)

  /** Minted ids are fresh, and a claim is made by the new attempt on its own item. */
  ghost predicate Valid(db: Db, op: Op) {
    match op
    case Request(_, ask) => ask.id !in db.host.requests
    case LogFocused(_, ask) => ask.id !in db.host.requests
    case Retain(_, id, _, _, _) => id !in db.host.requests
    case NewItem(_, item, _) => item !in db.work.items
    case NewAttempt(_, who, item) => who !in db.work.attempts && item in db.work.items
    case NewClaim(_, who, item) =>
      && who in db.work.attempts && db.work.attempts[who].item == item && item in db.work.items
      && forall k | 0 <= k < |db.work.claims| :: db.work.claims[k].attempt != who
    case _ => true
  }

  predicate IsHostOp(op: Op) {
    op.Request? || op.HostBeat? || op.Release? || op.SweepSlots? || op.Reconcile? || op.Recover? || op.MarkUncertain?
    || op.MarkRecovery? || op.Retain? || op.LogFocused? || op.AttachLease? || op.AttachRequest?
  }

  function ApplyHost(db: Db, op: Op): Db
    requires IsHostOp(op)
  {
    match op
    case Request(env, ask) => RequestStep(db, env, ask).db
    case HostBeat(env, lease, sequence, ttl) => HeartbeatStep(db, env, lease, sequence, ttl).db
    case Release(env, id, reason) => ReleaseStep(db, env, id, reason).db
    case SweepSlots(env) => Sweep(db, env).db
    case Reconcile(env) => ReconcileStep(db, env).db
    case Recover(env, id, attests, explains) => RecoverStep(db, env, id, attests, explains).db
    case MarkUncertain(env, id, who, agent, reason) => UncertainStep(db, env, id, who, agent, reason).db
    case MarkRecovery(env, id, reason) => MarkRecoveryStep(db, env, id, reason)
    case Retain(env, id, key, observation, details) => RetainStep(db, env, id, key, observation, details).db
    case LogFocused(env, ask) => LogFocusedStep(db, env, ask).db
    case AttachLease(_, lease, process) => AttachToLease(db, lease, process)
    case AttachRequest(env, id, process) => AttachToRequest(db, env, id, process)
  }

  function ApplyWork(db: Db, op: Op): Db
    requires !IsHostOp(op)
  {
    var now := op.env.now;
    match op
    case NewItem(_, item, about) => db.(work := SaveWorkItem(db.work, item, about, Discovered))
    case MoveItem(_, item, target, attempt, reason) => After(db, Transition(db, item, target, attempt, reason, now))
    case NewAttempt(_, who, item) => db.(work := SaveAttempt(db.work, who, Attempt(item, InProgress, NoReason)))
    case NewClaim(_, who, item) => After(db, SaveClaim(db, item, who))
    case NewLease(_, id, lease) => db.(work := SaveLease(db.work, id, lease).0)
    case CompleteItem(_, item, target, who, generation, reason) =>
      After(db, Complete(db, item, target, who, generation, reason, now))
    case Checkpointed(_, item, who, generation, evidence) =>
      After(db, SaveCheckpoint(db, item, who, generation, evidence, now))
    case WorkBeat(_, id, who, sequence, generation, ttl) =>
      After(db, ExtendLease(db, id, who, sequence, generation, ttl, now))
  }

  function Apply(db: Db, op: Op): Db { if IsHostOp(op) then ApplyHost(db, op) else ApplyWork(db, op) }

  ghost predicate Sound(db: Db) { Settled(db) && WorkInv(db.work) }

  /** The state between transactions. */
  ghost predicate Good(db: Db) { Sound(db) && KeysUnique(db) }

  /** Everything one state owes to an earlier one. */
  ghost predicate Follows(b: Db, a: Db, now: int) {
    Sound(a) && Evolves(b, a, now) && WorkGrows(b.work, a.work)
  }

  lemma HostStepKeepsHost(db: Db, op: Op)
    requires Settled(db) && Valid(db, op) && IsHostOp(op)
    ensures Kept(db, ApplyHost(db, op), op.env.now)
    ensures SourcesTight(db.host) && !op.Retain? ==> SourcesTight(ApplyHost(db, op).host)
  {
    match op {
      case Request(env, ask) => RequestKeeps(db, env, ask);
      case HostBeat(env, lease, sequence, ttl) => HeartbeatKeeps(db, env, lease, sequence, ttl);
      case Release(env, id, reason) => ReleaseKeeps(db, env, id, reason);
      case SweepSlots(env) => SweepSettles(db, env);
      case Reconcile(env) => ReconcileKeeps(db, env);
      case Recover(env, id, attests, explains) => RecoverKeeps(db, env, id, attests, explains);
      case MarkUncertain(env, id, who, agent, reason) => UncertainKeeps(db, env, id, who, agent, reason);
      case MarkRecovery(env, id, reason) => MarkRecoveryKeeps(db, env, id, reason);
      case Retain(env, id, key, observation, details) => RetainKeeps(db, env, id, key, observation, details);
      case LogFocused(env, ask) => LogFocusedKeeps(db, env, ask);
      case AttachLease(env, lease, process) => AttachKeeps(db, lease, process, env.now);
      case AttachRequest(env, id, process) => AttachRequestKeeps(db, env, id, process);
    }
  }

  lemma RequestWork(db: Db, env: Env, ask: Ask)
    ensures RequestStep(db, env, ask).db.work == db.work || RequestStep(db, env, ask).db.work == Sweep(db, env).db.work
  {
    RequestReaches(db, env, ask);
  }

  lemma ReconcileWork(db: Db, env: Env)
    ensures ReconcileStep(db, env).db.work == db.work || ReconcileStep(db, env).db.work == Sweep(db, env).db.work
  {
  }

  lemma HostStepWork(db: Db, op: Op)
    requires IsHostOp(op)
    ensures ApplyHost(db, op).work == db.work || ApplyHost(db, op).work == Sweep(db, op.env).db.work
  {
    if op.Request? { RequestWork(db, op.env, op.ask); }
    if op.Reconcile? { ReconcileWork(db, op.env); }
  }

  lemma WorkOnly(db: Db, work: Work, now: int)
    requires Settled(db) && WorkInv(work) && WorkGrows(db.work, work)
    requires forall x :: AttemptRevoked(work.attempts, x) <==> AttemptRevoked(db.work.attempts, x)
    requires RevocationsKept(db.work.attempts, work.attempts)
    ensures Follows(db, db.(work := work), now)
  {
    var d := db.(work := work);
    forall q | q in d.host.requests ensures !Eligible(d.host, d.work.attempts, q) {
      assert !Eligible(db.host, db.work.attempts, q);
    }
  }

  lemma WorkStepKeepsWork(db: Db, op: Op)
    requires WorkInv(db.work) && Valid(db, op) && !IsHostOp(op)
    ensures WorkInv(ApplyWork(db, op).work) && WorkGrows(db.work, ApplyWork(db, op).work)
  {
    if op.NewItem? {
      InsertItemKeeps(db.work, op.item, op.about);
    } else if op.MoveItem? || op.CompleteItem? {
      MovingKeepsWork(db, op);
    } else if op.NewAttempt? {
      SaveAttemptKeeps(db.work, op.who, Attempt(op.item, InProgress, NoReason));
    } else if op.NewClaim? {
      SaveClaimKeeps(db, op.item, op.who);
    } else {
      SameAuthorityKeeps(db.work, ApplyWork(db, op).work);
    }
  }

  lemma MovingKeepsWork(db: Db, op: Op)
    requires WorkInv(db.work) && (op.MoveItem? || op.CompleteItem?)
    ensures WorkInv(ApplyWork(db, op).work) && WorkGrows(db.work, ApplyWork(db, op).work)
  {
    if ApplyWork(db, op) == db {
    } else if op.MoveItem? {
      MoveKeeps(db.work, op.item, op.target, op.attempt, op.reason, op.env.now);
    } else {
      MoveKeeps(db.work, op.item, op.target, Some(op.who), op.reason, op.env.now);
    }
  }

  lemma WorkStepKeepsAttempts(db: Db, op: Op)
    requires !IsHostOp(op) && Valid(db, op)
    ensures ApplyWork(db, op).host == db.host
    ensures forall x | x in db.work.attempts ::
              x in ApplyWork(db, op).work.attempts && ApplyWork(db, op).work.attempts[x] == db.work.attempts[x]
  {
  }

  lemma WorkStepFollows(db: Db, op: Op)
    requires Sound(db) && Valid(db, op) && !IsHostOp(op)
    ensures Follows(db, ApplyWork(db, op), op.env.now) && ApplyWork(db, op).host == db.host
  {
    WorkStepKeepsWork(db, op);
    WorkStepKeepsAttempts(db, op);
    WorkOnly(db, ApplyWork(db, op).work, op.env.now);
  }

  /** Every transaction leads from a sound state to a sound state that follows it. */
  lemma StepFollows(db: Db, op: Op)
    requires Sound(db) && Valid(db, op)
    ensures Follows(db, Apply(db, op), op.env.now)
    ensures SourcesTight(db.host) && !op.Retain? ==> SourcesTight(Apply(db, op).host)
  {
    if IsHostOp(op) {
      HostStepKeepsHost(db, op);
      HostStepWork(db, op);
      SweepKeepsWork(db, op.env);
    } else {
      WorkStepFollows(db, op);
    }
  }

  // ---- idempotency keys ----

  /** The id a transaction may give to a new resource request. */
  function MintedRow(op: Op): Id {
    match op
    case Request(_, ask) => ask.id
    case LogFocused(_, ask) => ask.id
    case Retain(_, id, _, _, _) => id
    case _ => 0
  }

  lemma HostStepAddsRow(db: Db, op: Op)
    requires IsHostOp(op)
    ensures AddsRow(db.host.requests, ApplyHost(db, op).host.requests, MintedRow(op))
  {
    match op {
      case Request(env, ask) => RequestAddsRow(db, env, ask);
      case LogFocused(env, ask) => LogFocusedAddsRow(db, env, ask);
      case Retain(env, id, key, observation, details) => RetainAddsRow(db, env, id, key, observation, details);
      case Release(env, id, reason) => ReleaseAddsNone(db, env, id, reason);
      case Recover(env, id, attests, explains) => RecoverAddsNone(db, env, id, attests, explains);
      case Reconcile(env) => ReconcileAddsNone(db, env);
      case _ => OthersAddNone(db, op);
    }
  }

  lemma OthersAddNone(db: Db, op: Op)
    requires op.HostBeat? || op.SweepSlots? || op.MarkUncertain? || op.MarkRecovery? || op.AttachLease?
             || op.AttachRequest?
    ensures ApplyHost(db, op).host.requests.Keys == db.host.requests.Keys
  {
  }

  lemma HostStepKeepsNames(db: Db, op: Op)
    requires IsHostOp(op)
    ensures SameNames(db.work.items, ApplyHost(db, op).work.items)
  {
    HostStepWork(db, op);
    SweepKeepsNames(db, op.env);
  }

  lemma WorkStepKeepsNames(db: Db, op: Op)
    requires !IsHostOp(op)
    ensures NamesKept(db.work.items, ApplyWork(db, op).work.items)
    ensures OneItemPerKey(db.work.items) ==> OneItemPerKey(ApplyWork(db, op).work.items)
  {
    if op.NewItem? {
      SaveItemKeepsNames(db.work, op.item, op.about, Discovered);
      if OneItemPerKey(db.work.items) { SaveItemKeepsKeys(db.work, op.item, op.about, Discovered); }
    } else {
      OtherWorkKeepsNames(db, op);
      if OneItemPerKey(db.work.items) { SameNamesOnePerKey(db.work.items, ApplyWork(db, op).work.items); }
    }
  }

  lemma OtherWorkKeepsNames(db: Db, op: Op)
    requires !IsHostOp(op) && !op.NewItem?
    ensures SameNames(db.work.items, ApplyWork(db, op).work.items)
  {
  }

  lemma StepKeepsNames(db: Db, op: Op)
    ensures NamesKept(db.work.items, Apply(db, op).work.items)
  {
    if IsHostOp(op) { HostStepKeepsNames(db, op); } else { WorkStepKeepsNames(db, op); }
  }

  lemma StepKeepsKeys(db: Db, op: Op)
    requires KeysUnique(db) && RequestsEvolve(db.host, Apply(db, op).host)
    requires !IsHostOp(op) ==> Apply(db, op).host == db.host
    ensures KeysUnique(Apply(db, op))
  {
    if IsHostOp(op) {
      HostStepAddsRow(db, op);
      RowsKeepKeys(db.host, Apply(db, op).host, MintedRow(op));
      HostStepKeepsNames(db, op);
      SameNamesOnePerKey(db.work.items, Apply(db, op).work.items);
    } else {
      WorkStepKeepsNames(db, op);
    }
  }

  // ---- runs ----

  ghost predicate StepAt(states: seq<Db>, ops: seq<Op>, n: int)
    requires 0 <= n < |ops| && |states| == |ops| + 1
  {
    Valid(states[n], ops[n]) && states[n + 1] == Apply(states[n], ops[n])
  }

  /** A run: from a good state, any transactions one after another under a clock that never
      runs backwards. `states[n]` is what the first `n` of them leave. */
  ghost predicate IsRun(states: seq<Db>, ops: seq<Op>) { Steps(states, ops) && Good(states[0]) }

  ghost predicate Steps(states: seq<Db>, ops: seq<Op>) {
    && |states| == |ops| + 1
    && (forall n | 0 <= n < |ops| :: StepAt(states, ops, n))
    && (forall m, n | 0 <= m < n < |ops| :: ops[m].env.now <= ops[n].env.now)
  }

  /** A store that never held anything. */
  function Empty(pools: map<ResourceKey, Pool>): Db {
    Db(Host(pools, map[], map[], [], map[], 0), Work(map[], map[], [], map[], [], [], []))
  }

  /** It is a good place to start. */
  lemma EmptyIsGood(pools: map<ResourceKey, Pool>)
    ensures Good(Empty(pools)) && SourcesTight(Empty(pools).host)
  {
    var h := Empty(pools).host;
    assert forall k: ResourceKey :: ActiveIn(h.requests, k) == {};
    assert forall s: Source :: Executing(h.requests, s) == {} && SourceHeld(h.requests, s) == {};
  }

  lemma StepInRun(states: seq<Db>, ops: seq<Op>, n: nat)
    requires IsRun(states, ops) && n < |ops| && Sound(states[n])
    ensures Follows(states[n], states[n + 1], ops[n].env.now)
    ensures SourcesTight(states[n].host) && !ops[n].Retain? ==> SourcesTight(states[n + 1].host)
  {
    assert StepAt(states, ops, n);
    StepFollows(states[n], ops[n]);
  }

  lemma {:induction false} AlwaysGood(states: seq<Db>, ops: seq<Op>, n: nat)
    requires IsRun(states, ops) && n <= |ops|
    ensures Good(states[n])
  {
    if n > 0 {
      var last := n - 1;
      assert n == last + 1;
      AlwaysGood(states, ops, last);
      GoodInRun(states, ops, last);
    }
  }

  lemma GoodInRun(states: seq<Db>, ops: seq<Op>, n: nat)
    requires IsRun(states, ops) && n < |ops| && Good(states[n])
    ensures Good(states[n + 1])
  {
    StepInRun(states, ops, n);
    KeysInRun(states, ops, n);
  }

  lemma KeysInRun(states: seq<Db>, ops: seq<Op>, n: nat)
    requires IsRun(states, ops) && n < |ops| && Good(states[n])
    ensures KeysUnique(states[n + 1])
  {
    assert StepAt(states, ops, n);
    StepFollows(states[n], ops[n]);
    if !IsHostOp(ops[n]) { WorkStepFollows(states[n], ops[n]); }
    StepKeepsKeys(states[n], ops[n]);
  }

  /** Some transactions lead to these tables from empty ones. */
  ghost predicate Reachable(db: Db) {
    exists states, ops :: Steps(states, ops) && StartsEmpty(states[0]) && states[|ops|] == db
  }

  ghost predicate StartsEmpty(db: Db) { exists pools :: db == Empty(pools) }

  lemma ReachableIsGood(db: Db)
    requires Reachable(db)
    ensures Good(db)
  {
    var states, ops :| Steps(states, ops) && StartsEmpty(states[0]) && states[|ops|] == db;
    var pools :| states[0] == Empty(pools);
    GoodFromEmpty(pools, states, ops, |ops|);
  }

  /** Every state that transactions lead to from empty tables is good, and without imported
      observations even fenced holders stay within each source's capacity. */
  lemma GoodFromEmpty(pools: map<ResourceKey, Pool>, states: seq<Db>, ops: seq<Op>, n: nat)
    requires Steps(states, ops) && states[0] == Empty(pools) && n <= |ops|
    ensures Good(states[n])
    ensures (forall k | 0 <= k < n :: !ops[k].Retain?) ==> SourcesTight(states[n].host)
  {
    EmptyIsGood(pools);
    AlwaysGood(states, ops, n);
    if forall k | 0 <= k < n :: !ops[k].Retain? { TightWithoutRetain(states, ops, n); }
  }

  /** Any later state of a run evolved from any earlier one, at the clock of the latter's next step. */
  lemma {:induction false} LaterEvolves(states: seq<Db>, ops: seq<Op>, m: nat, n: nat)
    requires IsRun(states, ops) && m < n <= |ops|
    ensures Evolves(states[m], states[n], ops[m].env.now)
    decreases n
  {
    var last := n - 1;
    assert n == last + 1;
    if m == last {
      EvolvesInRun(states, ops, m);
    } else {
      LaterEvolves(states, ops, m, last);
      EvolvesOneMore(states, ops, m, last);
    }
  }

  lemma EvolvesOneMore(states: seq<Db>, ops: seq<Op>, m: nat, n: nat)
    requires IsRun(states, ops) && m < n < |ops|
    requires Evolves(states[m], states[n], ops[m].env.now)
    ensures Evolves(states[m], states[n + 1], ops[m].env.now)
  {
    AlwaysGood(states, ops, m);
    EvolvesInRun(states, ops, n);
    assert ops[m].env.now <= ops[n].env.now;
    EvolvesTransitive(states[m], states[n], states[n + 1], ops[m].env.now, ops[n].env.now);
  }

  lemma EvolvesInRun(states: seq<Db>, ops: seq<Op>, n: nat)
    requires IsRun(states, ops) && n < |ops|
    ensures Evolves(states[n], states[n + 1], ops[n].env.now) && WorkGrows(states[n].work, states[n + 1].work)
  {
    AlwaysGood(states, ops, n);
    StepInRun(states, ops, n);
  }

  /** Claims, events, items and attempts only accumulate over a run. */
  lemma {:induction false} LaterGrows(states: seq<Db>, ops: seq<Op>, m: nat, n: nat)
    requires IsRun(states, ops) && m <= n <= |ops|
    ensures WorkGrows(states[m].work, states[n].work)
    decreases n
  {
    if m < n {
      EvolvesInRun(states, ops, n - 1);
      LaterGrows(states, ops, m, n - 1);
    }
  }

  /** No lost wakeup: in every reachable state every queued request is kept waiting by a pool that is
      closed or full, a full source, a taken slot, or the revocation of its attempt. */
  lemma NoLostWakeup(states: seq<Db>, ops: seq<Op>, n: nat, q: Id)
    requires IsRun(states, ops) && n <= |ops|
    ensures !CouldRun(states[n].host, states[n].work.attempts, q)
  {
    AlwaysGood(states, ops, n);
    EligibleCouldRun(states[n].host, states[n].work.attempts, q);
  }

  /** Admission safety in every reachable state: ACTIVE within each pool's capacity, slots
      exclusive, ACTIVE plus INHERITED within each source's capacity; and parent safety. */
  lemma AdmissionSafety(states: seq<Db>, ops: seq<Op>, n: nat)
    requires IsRun(states, ops) && n <= |ops|
    ensures var h := states[n].host;
            PoolsSafe(h) && SlotsSafe(h) && SourcesSafe(h) && ParentsSafe(h)
  {
    AlwaysGood(states, ops, n);
  }

  /** In every reachable state at most 4 requests run or are inherited across the two pools that draw on
      ChatGPT, likewise for Perplexity, and at most 3 across the pools of any other source. */
  lemma ProviderBounds(states: seq<Db>, ops: seq<Op>, n: nat, source: Source)
    requires IsRun(states, ops) && n <= |ops|
    ensures |Drawing(states[n].host, source)| <= if source in {Chatgpt, Perplexity} then 4 else 3
  {
    AlwaysGood(states, ops, n);
    var h := states[n].host;
    assert SourceSafe(h.requests, source);
    forall key: ResourceKey { SourceIs(key, source); }
    assert Drawing(h, source) == Executing(h.requests, source);
  }

  /** Running or inherited, in a pool that draws on the source. */
  function Drawing(h: Host, source: Source): set<Id> {
    set r | r in h.requests && h.requests[r].key in PoolsOf(source) && h.requests[r].state in {Active, Inherited}
  }

  /** Without imported observations even fenced holders stay within the source's capacity. */
  lemma {:induction false} TightWithoutRetain(states: seq<Db>, ops: seq<Op>, n: nat)
    requires IsRun(states, ops) && n <= |ops| && SourcesTight(states[0].host)
    requires forall k | 0 <= k < n :: !ops[k].Retain?
    ensures SourcesTight(states[n].host)
  {
    if n > 0 {
      TightWithoutRetain(states, ops, n - 1);
      AlwaysGood(states, ops, n - 1);
      StepInRun(states, ops, n - 1);
    }
  }

  // ---- asking again ----

  lemma {:induction false} NamesInRun(states: seq<Db>, ops: seq<Op>, m: nat, n: nat)
    requires IsRun(states, ops) && m <= n <= |ops|
    ensures NamesKept(states[m].work.items, states[n].work.items)
    decreases n
  {
    if m < n {
      var last := n - 1;
      assert n == last + 1;
      NamesInRun(states, ops, m, last);
      NamesInStep(states, ops, last);
    }
  }

  lemma NamesInStep(states: seq<Db>, ops: seq<Op>, n: nat)
    requires IsRun(states, ops) && n < |ops|
    ensures NamesKept(states[n].work.items, states[n + 1].work.items)
  {
    assert StepAt(states, ops, n);
    StepKeepsNames(states[n], ops[n]);
  }

  lemma KeyStays(states: seq<Db>, ops: seq<Op>, i: nat, j: nat, r: Id)
    requires IsRun(states, ops) && i <= j <= |ops| && r in states[i].host.requests
    ensures r in states[j].host.requests && SameRow(states[i].host.requests[r], states[j].host.requests[r])
  {
    if i < j { LaterEvolves(states, ops, i, j); }
  }

  /** One row per key, for good: an admission call under the key of a request known at one time changes
      nothing at any later time. It answers with that request as it then is, or refuses a call that
      asks for something else. */
  lemma OneRequestPerKey(states: seq<Db>, ops: seq<Op>, i: nat, j: nat, r: Id, env: Env, ask: Ask)
    requires IsRun(states, ops) && i <= j <= |ops|
    requires r in states[i].host.requests && ask.idempotencyKey == states[i].host.requests[r].idempotencyKey
    ensures r in states[j].host.requests
    ensures RequestStep(states[j], env, ask) == Result(states[j], ReplayOf(states[j].host, r, ask))
    ensures SameContents(states[j].host.requests[r], ask) <==> SameContents(states[i].host.requests[r], ask)
    ensures forall q | q in states[j].host.requests ::
              states[j].host.requests[q].idempotencyKey == ask.idempotencyKey ==> q == r
  {
    KeyStays(states, ops, i, j, r);
    AlwaysGood(states, ops, j);
    AskedAgain(states[j], env, ask, r);
  }

  /** The same call again, at any time after it was answered: the answer is the same request, as it then
      is, and nothing changes. */
  lemma RepeatedCallIsReplayed(states: seq<Db>, ops: seq<Op>, n: nat, j: nat, env: Env, again: Ask)
    requires IsRun(states, ops) && n < j <= |ops| && ops[n].Request?
    requires var ask := ops[n].ask; again == ask.(id := again.id, owner := again.owner, inherit := again.inherit)
    requires RequestStep(states[n], ops[n].env, ops[n].ask).outcome.Answer?
    ensures var first := RequestStep(states[n], ops[n].env, ops[n].ask).outcome.request;
            var h := states[j].host;
            && first in h.requests
            && RequestStep(states[j], env, again)
               == Result(states[j], Answer(first, h.requests[first].state, LeaseOf(h.leases, first), true))
  {
    AnsweredInRun(states, ops, n);
    var first := RequestStep(states[n], ops[n].env, ops[n].ask).outcome.request;
    KnownFromNext(states, ops, n, j, first, env, again);
  }

  lemma AnsweredInRun(states: seq<Db>, ops: seq<Op>, n: nat)
    requires IsRun(states, ops) && n < |ops| && ops[n].Request?
    requires RequestStep(states[n], ops[n].env, ops[n].ask).outcome.Answer?
    ensures var first, h := RequestStep(states[n], ops[n].env, ops[n].ask).outcome.request, states[n + 1].host;
            && first in h.requests && h.requests[first].idempotencyKey == ops[n].ask.idempotencyKey
            && SameContents(h.requests[first], ops[n].ask)
            && ops[n].ask.ttl >= 1 && 0 <= ops[n].ask.priority <= 1000
  {
    assert StepAt(states, ops, n);
    AnswerIsOnFile(states[n], ops[n].env, ops[n].ask);
  }

  lemma KnownFromNext(states: seq<Db>, ops: seq<Op>, n: nat, j: nat, r: Id, env: Env, ask: Ask)
    requires IsRun(states, ops) && n < j <= |ops|
    requires var h := states[n + 1].host;
             r in h.requests && ask.idempotencyKey == h.requests[r].idempotencyKey && SameContents(h.requests[r], ask)
    ensures r in states[j].host.requests && SameContents(states[j].host.requests[r], ask)
    ensures RequestStep(states[j], env, ask) == Result(states[j], ReplayOf(states[j].host, r, ask))
  {
    OneRequestPerKey(states, ops, n + 1, j, r, env, ask);
  }

  /** One work item per key, for good: saving a new item under the key of one known at any earlier time
      changes nothing. */
  lemma OneWorkItemPerKey(states: seq<Db>, ops: seq<Op>, i: nat, j: nat, item: Id, other: Id, details: ItemDetails,
                          state: WorkState)
    requires IsRun(states, ops) && i <= j <= |ops|
    requires item in states[i].work.items && other !in states[j].work.items
    requires details.idempotencyKey == states[i].work.items[item].details.idempotencyKey
    ensures SaveWorkItem(states[j].work, other, details, state) == states[j].work
    ensures forall x | x in states[j].work.items ::
              states[j].work.items[x].details.idempotencyKey == details.idempotencyKey <==> x == item
  {
    NamesInRun(states, ops, i, j);
    AlwaysGood(states, ops, j);
  }

  // ---- resource lifecycle ----

  /** A request runs for at most one contiguous interval and never waits again. */
  lemma OneActiveInterval(states: seq<Db>, ops: seq<Op>, i: nat, j: nat, k: nat, r: Id)
    requires IsRun(states, ops) && i < j < k <= |ops|
    requires r in states[i].host.requests
    ensures r in states[j].host.requests && r in states[k].host.requests
    ensures var x := states[i].host.requests[r].state;
            var y := states[j].host.requests[r].state;
            var z := states[k].host.requests[r].state;
            && (Runs(x) && z == x ==> y == x)
            && (x != Queued ==> y != Queued && (Runs(y) ==> x == y))
            && (x == RecoveryRequired ==> y in {RecoveryRequired, Released})
  {
    LaterEvolves(states, ops, i, j);
    LaterEvolves(states, ops, j, k);
  }

  lemma SameLeaseLater(b: Host, a: Host, now: int, l: Id, m: Id)
    requires LeasesSound(b) && LeasesEvolve(b, a, now)
    requires l in b.leases && m in a.leases && b.leases[l].request == a.leases[m].request
    ensures l == m
  {
    assert b.requests[b.leases[l].request].state != Queued;
  }

  /** A request is granted at most one lease, ever. */
  lemma OneLeaseEver(states: seq<Db>, ops: seq<Op>, i: nat, j: nat, l: Id, m: Id)
    requires IsRun(states, ops) && i <= j <= |ops|
    requires l in states[i].host.leases && m in states[j].host.leases
    requires states[i].host.leases[l].request == states[j].host.leases[m].request
    ensures l == m
  {
    LeasesInRun(states, ops, i, j);
    if i == j {
      SameLeaseNow(states[i].host, l, m);
    } else {
      SameLeaseLater(states[i].host, states[j].host, ops[i].env.now, l, m);
    }
  }

  lemma LeasesInRun(states: seq<Db>, ops: seq<Op>, i: nat, j: nat)
    requires IsRun(states, ops) && i <= j <= |ops|
    ensures LeasesSound(states[i].host) && (i < j ==> LeasesEvolve(states[i].host, states[j].host, ops[i].env.now))
  {
    AlwaysGood(states, ops, i);
    if i < j { LaterEvolves(states, ops, i, j); }
  }

  lemma SameLeaseNow(h: Host, l: Id, m: Id)
    requires LeasesSound(h) && l in h.leases && m in h.leases && h.leases[l].request == h.leases[m].request
    ensures l == m
  {
  }

  /** An expired lease never becomes unexpired. */
  lemma ExpiryIsFinal(states: seq<Db>, ops: seq<Op>, i: nat, j: nat, l: Id)
    requires IsRun(states, ops) && i < j <= |ops|
    requires l in states[i].host.leases && states[i].host.leases[l].expiresAt <= ops[i].env.now
    requires l in states[j].host.leases
    ensures states[j].host.leases[l].expiresAt == states[i].host.leases[l].expiresAt
  {
    AlwaysGood(states, ops, i);
    LaterEvolves(states, ops, i, j);
  }

  // ---- fencing ----

  /** Once a replacement claim is recorded, every completion, checkpoint and heartbeat of the
      earlier attempt is refused for the rest of the run, and reaping it moves no work item. */
  lemma FencingOverRuns(states: seq<Db>, ops: seq<Op>, i: nat, j: nat, attempt: AttemptId,
                        item: Option<Id>, lease: Option<Id>, generation: int, now: int, reason: Reason)
    requires IsRun(states, ops) && i <= j <= |ops|
    requires Superseded(states[i].work.claims, attempt)
    ensures !FencePasses(states[j], attempt, item, lease, generation, now)
    ensures Reap(states[j].work, attempt, reason, now).items == states[j].work.items
  {
    AlwaysGood(states, ops, j);
    LaterGrows(states, ops, i, j);
    var w := states[j].work;
    SupersededForever(states[i].work.claims, w.claims, attempt);
    SupersededIsRefused(states[j], attempt, item, lease, generation, now);
    SupersededReapMovesNothing(w, attempt, reason, now);
  }

  /** In every run a fenced write that changes anything was made by an attempt entitled to write to that
      very item, as the tables stood; a completion moves no other item, a checkpoint none at all. */
  lemma FencedWritesOverRuns(states: seq<Db>, ops: seq<Op>, n: nat)
    requires IsRun(states, ops) && n < |ops| && (ops[n].CompleteItem? || ops[n].Checkpointed?)
    requires states[n + 1] != states[n]
    ensures var op := ops[n]; var b, a := states[n].work, states[n + 1].work;
            && MayWrite(states[n], op.item, op.who, op.generation, op.env.now)
            && (op.CompleteItem? ==> a.items == b.items[op.item := b.items[op.item].(state := op.target)])
            && (op.Checkpointed? ==> a.items == b.items)
            && a.attempts == b.attempts && a.claims == b.claims && a.leases == b.leases
  {
    AlwaysGood(states, ops, n);
    assert StepAt(states, ops, n);
    FencedWriteStep(states[n], ops[n]);
  }

  lemma FencedWriteStep(db: Db, op: Op)
    requires ClaimInv(db.work) && (op.CompleteItem? || op.Checkpointed?) && Apply(db, op) != db
    ensures var a := Apply(db, op).work;
            && MayWrite(db, op.item, op.who, op.generation, op.env.now)
            && (op.CompleteItem? ==> a.items == db.work.items[op.item := db.work.items[op.item].(state := op.target)])
            && (op.Checkpointed? ==> a.items == db.work.items)
            && a.attempts == db.work.attempts && a.claims == db.work.claims && a.leases == db.work.leases
  {
    if op.CompleteItem? {
      CompletedByOwner(db, op.item, op.target, op.who, op.generation, op.reason, op.env.now);
    } else {
      CheckpointByOwner(db, op.item, op.who, op.generation, op.evidence, op.env.now);
    }
  }

  /** A claim recorded by an operation supersedes every earlier claim on its item, with a
      strictly greater generation, which is then the item's current one. */
  lemma ClaimSupersedes(states: seq<Db>, ops: seq<Op>, n: nat, k: nat)
    requires IsRun(states, ops) && n < |ops| && ops[n].NewClaim?
    requires k < |states[n].work.claims|
    requires states[n].work.claims[k].item == ops[n].item
    ensures var w := states[n + 1].work; var c := states[n].work.claims[k];
            && Superseded(w.claims, c.attempt)
            && ops[n].item in w.items && w.items[ops[n].item].currentAttempt == Some(ops[n].who)
            && w.items[ops[n].item].currentGeneration.Some?
            && c.generation < w.items[ops[n].item].currentGeneration.value
  {
    var b := states[n];
    AlwaysGood(states, ops, n);
    assert StepAt(states, ops, n);
    SaveClaimKeeps(b, ops[n].item, ops[n].who);
    var w := states[n + 1].work;
    assert w.claims[k] == b.work.claims[k] && w.claims[|b.work.claims|].item == ops[n].item;
  }

  /** The item of claim k has an owner, at the greatest generation of all its claims. */
  ghost predicate GreatestIsCurrent(work: Work, k: nat)
    requires k < |work.claims|
  {
    && work.claims[k].item in work.items
    && var row := work.items[work.claims[k].item];
       && row.currentGeneration.Some? && work.claims[k].generation <= row.currentGeneration.value
       && exists m :: 0 <= m < |work.claims| && work.claims[m].item == work.claims[k].item
                   && row.currentAttempt == Some(work.claims[m].attempt)
                   && row.currentGeneration == Some(work.claims[m].generation)
  }

  lemma OwnerHasGreatest(work: Work, k: nat)
    requires ClaimInv(work) && k < |work.claims|
    ensures GreatestIsCurrent(work, k)
  {
    var item := work.claims[k].item;
    assert OwnerRecorded(work.claims, work.items[item], item);
    LastClaimantIsLast(work.claims, k);
    ClaimsMonotone(work.claims, k + 1, item);
    LastClaimHasAll(work.claims, item);
  }

  /** The last claim of an item carries as its generation how many claims the item has. */
  lemma {:induction false} LastClaimHasAll(claims: seq<Claim>, item: Id)
    requires Numbered(claims) && LastClaimant(claims, item).Some?
    ensures ClaimsOf(claims, item) > 0
    ensures exists m :: 0 <= m < |claims| && claims[m].item == item
                     && LastClaimant(claims, item) == Some(claims[m].attempt)
                     && claims[m].generation == ClaimsOf(claims, item)
  {
    var last := |claims| - 1;
    if claims[last].item == item {
      assert claims[..last + 1] == claims;
      assert claims[last].generation == ClaimsOf(claims, item);
    } else {
      NumberedPrefix(claims);
      LastClaimHasAll(claims[..last], item);
      var m :| 0 <= m < last && claims[..last][m].item == item
               && LastClaimant(claims[..last], item) == Some(claims[..last][m].attempt)
               && claims[..last][m].generation == ClaimsOf(claims[..last], item);
      assert claims[m] == claims[..last][m];
    }
  }

  lemma NumberedPrefix(claims: seq<Claim>)
    requires Numbered(claims) && claims != []
    ensures Numbered(claims[..|claims| - 1])
  {
    var prefix := claims[..|claims| - 1];
    forall k | 0 <= k < |prefix| ensures prefix[k].generation == ClaimsOf(prefix[..k + 1], prefix[k].item) {
      assert prefix[..k + 1] == claims[..k + 1] && prefix[k] == claims[k];
    }
  }

  /** In every reachable state the current generation of a claimed item is the greatest of its
      claims, and belongs to the claim of its present owner. */
  lemma CurrentGenerationIsGreatest(states: seq<Db>, ops: seq<Op>, n: nat, k: nat)
    requires IsRun(states, ops) && n <= |ops| && k < |states[n].work.claims|
    ensures GreatestIsCurrent(states[n].work, k)
  {
    AlwaysGood(states, ops, n);
    OwnerHasGreatest(states[n].work, k);
  }

  // ---- reaped means dead ----

  /** In state a the worker fence refuses the attempt whatever it presents, and request r, if it is the
      attempt's and runs, was running just so in state b. */
  predicate IsDead(b: Db, a: Db, attempt: AttemptId, item: Option<Id>, lease: Option<Id>, generation: int, now: int,
                   r: Id)
  {
    && !FencePasses(a, attempt, item, lease, generation, now)
    && (r in a.host.requests && a.host.requests[r].attempt == attempt && Runs(a.host.requests[r].state) ==>
          r in b.host.requests && b.host.requests[r].state == a.host.requests[r].state)
  }

  /** Once an attempt is UNKNOWN it never again passes the worker fence, and no request of its
      own begins to run. */
  lemma ReapedMeansDead(states: seq<Db>, ops: seq<Op>, i: nat, j: nat, attempt: AttemptId,
                        item: Option<Id>, lease: Option<Id>, generation: int, now: int, r: Id)
    requires IsRun(states, ops) && i <= j <= |ops|
    requires var w := states[i].work; attempt in w.attempts && w.attempts[attempt].status == Unknown
    ensures IsDead(states[i], states[j], attempt, item, lease, generation, now, r)
  {
    if i < j { LaterEvolves(states, ops, i, j); }
    RevokedStaysOut(states[i], states[j], attempt, item, lease, generation, now, r);
  }

  lemma RevokedStaysOut(b: Db, a: Db, attempt: AttemptId, item: Option<Id>, lease: Option<Id>, generation: int,
                        now: int, r: Id)
    requires attempt in b.work.attempts && b.work.attempts[attempt].status == Unknown
    requires b == a || (RevocationsKept(b.work.attempts, a.work.attempts)
                        && GrantsAuthorized(b.host, b.work.attempts, a.host))
    ensures IsDead(b, a, attempt, item, lease, generation, now, r)
  {
    assert AttemptRevoked(b.work.attempts, attempt);
  }

  // ---- the work-item ledger ----

  /** In every reachable state the ledger replays to each item's state, a completed item was
      launched since it was last READY, and terminal states absorb. */
  lemma LedgerOverRuns(states: seq<Db>, ops: seq<Op>, i: nat, j: nat, item: Id)
    requires IsRun(states, ops) && i <= j <= |ops| && item in states[i].work.items
    ensures var b := states[i].work; var a := states[j].work;
            && item in a.items && Chained(a.events) && a.items[item].state == Replay(a.events, item)
            && (a.items[item].state == Completed ==> LAUNCH <= SinceReady(a.events, item))
            && (Terminal(b.items[item].state) ==> a.items[item].state == b.items[item].state)
  {
    AlwaysGood(states, ops, i);
    AlwaysGood(states, ops, j);
    LaterGrows(states, ops, i, j);
    var b := states[i].work;
    var a := states[j].work;
    StagesInOrder(a.events, item);
    if Terminal(b.items[item].state) { TerminalAbsorbs(b.events, a.events, item); }
  }
}
