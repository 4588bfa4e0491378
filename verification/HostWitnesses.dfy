/** Concrete states, each one reached from empty tables by the transactions listed, that show where
    admission falls short of what one would expect of it. */
module HostWitnesses {
  import opened Collections
  import opened HostModel
  import opened ConductorModel
  import opened HostPromotion
  import opened HostInvariant
  import opened HostFairness
  import opened HostSweep
  import opened HostOperations
  import opened WorkStore
  import R = Runs

  const NO_WORK := Work(map[], map[], [], map[], [], [], [])
  const NO_SWEEP := SweepConfig(0, 0, 0)

  /** Nobody can tell which processes run, and no stale slot is swept. */
  const CALM := Env(0, (i: Identity) => Unproven, NO_SWEEP)

  // ---- a blocked head lends its place ----

  const POOLS := map[CdpChatgpt := Pool(4, true), ProviderPool(Chatgpt) := Pool(3, true)]

  function KeyAt(r: Id): ResourceKey { if r == 3 || r == 5 then ProviderPool(Chatgpt) else CdpChatgpt }

  function SlotAt(r: Id): Option<Id> { if r == 0 || r == 4 then Some(7) else None }

  function PriorityAt(r: Id): int { if r == 4 then 90 else if r == 6 then 10 else 50 }

  function AskAt(r: Id): Ask {
    Ask(r, Chosen(r), KeyAt(r), 0, Named(r), 0, SlotAt(r), PriorityAt(r), None, 1000, None)
  }

  function RowAt(r: Id): Request {
    if r < 4 then RowFor(AskAt(r), 0, Active, HostResourceAdmitted, None)
    else RowFor(AskAt(r), 0, Queued, ProviderSourceBusy, None)
  }

  function EventAt(r: Id): HostEvent {
    HostEvent(r, if r < 4 then Some(r) else None, None, RowAt(r).state, RowAt(r).reason, 0)
  }

  /** The tables once the first k calls have been answered. Requests 0 to 2 run in the CDP pool, 0 in
      slot 7, and 3 runs in the provider pool: the source is full. Behind them wait 4, CDP for slot 7
      at priority 90; 5, provider pool at priority 50; and 6, CDP for any slot at priority 10. */
  function Filled(k: nat): Host {
    Host(POOLS,
         map r | 0 <= r < k :: RowAt(r),
         map l | 0 <= l < k && l < 4 :: NewLease(l, RowAt(l), 0, 1000),
         seq(k, r requires 0 <= r < k => EventAt(r)),
         map[],
         if k < 4 then k else 4)
  }

  function FilledDb(k: nat): Db { Db(Filled(k), NO_WORK) }

  function CdpHeld(k: nat): set<Id> {
    if k == 0 then {} else if k == 1 then {0} else if k == 2 then {0, 1} else {0, 1, 2}
  }

  function ProviderHeld(k: nat): set<Id> { if k <= 3 then {} else {3} }

  lemma FilledHolders(k: nat)
    ensures var rs := Filled(k).requests;
            && Held(rs, CdpChatgpt) == CdpHeld(k) && Held(rs, ProviderPool(Chatgpt)) == ProviderHeld(k)
  {
  }

  lemma FilledSource(k: nat)
    ensures SourceHeld(Filled(k).requests, Chatgpt) == CdpHeld(k) + ProviderHeld(k)
  {
  }

  lemma HolderCounts(k: nat)
    requires k < 7
    ensures |CdpHeld(k)| < 4 && |ProviderHeld(k)| < 3
    ensures |CdpHeld(k) + ProviderHeld(k)| >= 4 <==> k >= 4
  {
    assert k >= 4 ==> CdpHeld(k) + ProviderHeld(k) == {0, 1, 2, 3};
    assert k < 4 ==> CdpHeld(k) + ProviderHeld(k) == CdpHeld(k);
  }

  lemma CallIsAnswered(k: nat)
    requires k < 7
    ensures Admission(Filled(k), AskAt(k), POOLS[KeyAt(k)].capacity, None) == (RowAt(k).state, RowAt(k).reason)
  {
    PoolsHaveRoom(k);
    SourceFillsUp(k);
    FilledHolders(k);
  }

  lemma PoolsHaveRoom(k: nat)
    requires k < 7
    ensures |Held(Filled(k).requests, KeyAt(k))| < POOLS[KeyAt(k)].capacity
  {
    FilledHolders(k);
    HolderCounts(k);
  }

  lemma SourceFillsUp(k: nat)
    requires k < 7
    ensures SourceFull(Filled(k).requests, KeyAt(k)) <==> k >= 4
  {
    FilledSource(k);
    HolderCounts(k);
    FullAt(Filled(k).requests, KeyAt(k), CdpHeld(k) + ProviderHeld(k));
  }

  lemma FullAt(requests: map<Id, Request>, key: ResourceKey, held: set<Id>)
    requires SourceOf(key) == Some(Chatgpt) && SourceHeld(requests, Chatgpt) == held
    ensures SourceFull(requests, key) <==> |held| >= 4
  {
  }

  lemma CallReaches(k: nat)
    requires k < 7
    ensures RequestStep(FilledDb(k), CALM, AskAt(k))
            == Admit(FilledDb(k), CALM, AskAt(k), POOLS[KeyAt(k)].capacity, None)
  {
    CallIsNew(k);
    CallIsWelcome(k);
  }

  lemma CallIsNew(k: nat)
    ensures FindByKey(Filled(k).requests, Chosen(k)) == None
  {
    assert forall r | r in Filled(k).requests :: Filled(k).requests[r].idempotencyKey == Chosen(r);
  }

  lemma CallIsWelcome(k: nat)
    ensures Sweep(FilledDb(k), CALM).db == FilledDb(k) && !AttemptIsRevoked(FilledDb(k), Named(k))
  {
  }

  lemma OneMoreFilled(k: nat)
    requires k < 7
    ensures RequestStep(FilledDb(k), CALM, AskAt(k)).db == FilledDb(k + 1)
  {
    CallReaches(k);
    CallIsAnswered(k);
    FilledGrows(k);
  }

  lemma FilledGrows(k: nat)
    ensures Filled(k + 1).requests == Filled(k).requests[k := RowAt(k)]
    ensures Filled(k + 1).events == Filled(k).events + [EventAt(k)]
    ensures Filled(k + 1).leases
            == if k < 4 then Filled(k).leases[k := NewLease(k, RowAt(k), 0, 1000)] else Filled(k).leases
  {
  }

  /** Seven admission calls lead to the full source. */
  lemma FullIsReached()
    ensures R.Reachable(FilledDb(7))
  {
    var states := seq(8, k requires 0 <= k < 8 => FilledDb(k));
    var ops := seq(7, k requires 0 <= k < 7 => R.Request(CALM, AskAt(k)));
    forall k | 0 <= k < |ops| ensures R.StepAt(states, ops, k) { OneMoreFilled(k); }
    FilledNothing();
    assert R.Steps(states, ops) && R.StartsEmpty(states[0]) && states[|ops|] == FilledDb(7);
  }

  lemma FilledNothing()
    ensures FilledDb(0) == R.Empty(POOLS)
  {
    assert Filled(0).requests == map[] && Filled(0).leases == map[];
  }

  /** After request 3 has been released, before anything is promoted. */
  function Freed3(reason: Reason, now: int): Host { MarkReleased(Filled(7), 3, reason, now) }

  lemma FreedRow(reason: Reason, now: int, q: Id)
    ensures q in Freed3(reason, now).requests <==> q < 7
    ensures q < 7 && q != 3 ==> Freed3(reason, now).requests[q] == RowAt(q)
    ensures Freed3(reason, now).requests[3].state == Released
  {
  }

  lemma FreedHeld(reason: Reason, now: int)
    ensures var rs := Freed3(reason, now).requests;
            && Held(rs, CdpChatgpt) == {0, 1, 2} && Held(rs, ProviderPool(Chatgpt)) == {}
            && SourceHeld(rs, Chatgpt) == {0, 1, 2}
  {
    var h := Freed3(reason, now);
    ThreeIsFreed(reason, now);
    FilledHolders(7);
    FilledSource(7);
    FreedHolders(Filled(7), map[], h, map[], 3, CdpChatgpt);
    FreedHolders(Filled(7), map[], h, map[], 3, ProviderPool(Chatgpt));
  }

  lemma ThreeIsFreed(reason: Reason, now: int)
    ensures HostPromotion.Freed(Filled(7), map[], Freed3(reason, now), map[], 3)
  {
  }

  lemma OpenPools(reason: Reason, now: int)
    ensures PoolOpen(Freed3(reason, now), CdpChatgpt) && PoolOpen(Freed3(reason, now), ProviderPool(Chatgpt))
  {
    FreedHeld(reason, now);
  }

  lemma FreedEligible(reason: Reason, now: int, q: Id)
    ensures Eligible(Freed3(reason, now), map[], q) <==> q == 5 || q == 6
  {
    var h := Freed3(reason, now);
    OpenPools(reason, now);
    FreedHeld(reason, now);
    FreedRow(reason, now, q);
    FreedRow(reason, now, 0);
    if q == 4 {
      assert 0 in Held(h.requests, CdpChatgpt);
      assert SlotBusy(h.requests, CdpChatgpt, Some(7));
    }
  }

  lemma FourDecides(reason: Reason, now: int, d: Id)
    requires var h := Freed3(reason, now);
             && Waits(h, ProviderPool(Chatgpt), d)
             && forall r | Waits(h, ProviderPool(Chatgpt), r) && CanPromote(h, map[], h.requests[r].key) ::
                  Ahead(h, d, r)
    ensures d == 4
  {
    var h := Freed3(reason, now);
    FreedEligible(reason, now, 6);
    FreedRow(reason, now, 4);
    FreedRow(reason, now, 6);
    FreedRow(reason, now, d);
    assert Waits(h, ProviderPool(Chatgpt), 4) && CanPromote(h, map[], CdpChatgpt);
    assert Ahead(h, d, 4);
  }

  lemma SixIsPicked(reason: Reason, now: int)
    ensures PickRelated(Freed3(reason, now), map[], ProviderPool(Chatgpt)) == Some(6)
  {
    var h := Freed3(reason, now);
    FreedEligible(reason, now, 6);
    FreedRow(reason, now, 4);
    FreedRow(reason, now, 5);
    FreedRow(reason, now, 6);
    assert Related(ProviderPool(Chatgpt), h.requests[6].key);
    var d := SourceDecider(h, map[], ProviderPool(Chatgpt));
    FourDecides(reason, now, d);
    FreedEligible(reason, now, PickRelated(h, map[], ProviderPool(Chatgpt)).value);
  }

  lemma FiveIsAhead(reason: Reason, now: int)
    ensures Eligible(Freed3(reason, now), map[], 5) && Ahead(Freed3(reason, now), 5, 6)
  {
    FreedEligible(reason, now, 5);
    FreedRow(reason, now, 5);
    FreedRow(reason, now, 6);
  }

  lemma ReleaseOfThree(env: Env, reason: Reason)
    ensures ReleaseStep(FilledDb(7), env, 3, reason) == FreeAndPromote(FilledDb(7), env, 3, reason, false)
  {
    var h := Filled(7);
    assert ChildrenOf(h.requests, 3) == {};
    assert 3 in h.leases && h.leases[3].request == 3;
    assert LeaseOf(h.leases, 3) == Some(3);
  }

  lemma ThreeThenSix(env: Env, reason: Reason)
    ensures FreeAndPromote(FilledDb(7), env, 3, reason, false)
         == Result(FilledDb(7).(host := Promote(Freed3(reason, env.now), 6, env.now)), Outcome.Freed(3, false, Some(6)))
  {
    assert 3 in Filled(7).requests && Filled(7).requests[3].key == ProviderPool(Chatgpt);
    SixIsPicked(reason, env.now);
  }

  /** Releasing the provider-pool request promotes the waiter at priority 10, although the one at
      priority 50 could run and is ahead of it: the blocked head, at priority 90, lent its place. */
  lemma PriorityInversion(env: Env, reason: Reason)
    ensures R.Reachable(FilledDb(7))
    ensures var freed := Freed3(reason, env.now);
            && Eligible(freed, map[], 5) && Ahead(freed, 5, 6)
            && freed.requests[5].priority == 50 && freed.requests[6].priority == 10
            && ReleaseStep(FilledDb(7), env, 3, reason)
            == Result(FilledDb(7).(host := Promote(freed, 6, env.now)), Outcome.Freed(3, false, Some(6)))
  {
    FullIsReached();
    FiveIsAhead(reason, env.now);
    FreedRow(reason, env.now, 5);
    FreedRow(reason, env.now, 6);
    ReleaseOfThree(env, reason);
    ThreeThenSix(env, reason);
  }

  // ---- recovery past a live owner ----

  const OWNER := Identity(10, Some(3))
  const CHILD := Identity(20, Some(4))
  const HEAVY := map[HostHeavy := Pool(1, true)]
  const LATE := Env(2000, (i: Identity) => Unproven, NO_SWEEP)

  function HeavyAsk(): Ask { Ask(0, Chosen(0), HostHeavy, 0, Named(0), 0, None, 50, None, 1000, Some(OWNER)) }

  function HeavyRow(): Request { RowFor(HeavyAsk(), 0, Active, HostResourceAdmitted, None) }

  function HeavyLease(): HostLease { NewLease(0, HeavyRow(), 0, 1000) }

  const HEAVY_EVENT := HostEvent(0, Some(0), None, Active, HostResourceAdmitted, 0)

  /** The owner asks and is admitted; its child is recorded on the lease; the lease runs out. */
  function Admitted(): Host {
    Host(HEAVY, map[0 := HeavyRow()], map[0 := HeavyLease()], [HEAVY_EVENT], map[], 1)
  }

  function WithChild(): Host { Admitted().(leases := map[0 := HeavyLease().(process := Some(CHILD))]) }

  function FencedWithLiveOwner(): Host {
    WithChild().(requests := map[0 := HeavyRow().(state := RecoveryRequired, reason := LeaseExpired)],
                 events := [HEAVY_EVENT,
                            HostEvent(0, Some(0), Some(Active), RecoveryRequired, LeaseExpired, 2000)])
  }

  lemma OwnerAsks()
    ensures RequestStep(R.Empty(HEAVY), CALM, HeavyAsk()).db == Db(Admitted(), NO_WORK)
  {
    assert Held(map[], HostHeavy) == {};
  }

  lemma ExpiryFences()
    ensures ReconcileStep(Db(WithChild(), NO_WORK), LATE).db == Db(FencedWithLiveOwner(), NO_WORK)
  {
    var h := WithChild();
    var rows := ExpiredLeases(h, LATE.now);
    assert 0 in rows;
    assert forall l | l in rows :: l in h.leases;
    assert forall k | 0 <= k < |rows| :: rows[k] in rows;
    OnlyOne(rows, 0);
    assert FenceExpired(h, [0], LATE.now) == FencedWithLiveOwner();
  }

  lemma OnlyOne(rows: seq<Id>, x: Id)
    requires x in rows && forall k | 0 <= k < |rows| :: rows[k] == x
    requires forall i, j | 0 <= i < |rows| && 0 <= j < |rows| && rows[i] == rows[j] :: i == j
    ensures rows == [x]
  {
    assert rows[|rows| - 1] == rows[0];
  }

  lemma FencedIsReached()
    ensures R.Reachable(Db(FencedWithLiveOwner(), NO_WORK))
  {
    var states := seq(4, k requires 0 <= k < 4 => OwnerState(k));
    var ops := seq(3, k requires 0 <= k < 3 => OwnerOp(k));
    forall k | 0 <= k < |ops| ensures R.StepAt(states, ops, k) { OwnerStep(k); }
    assert OwnerState(0) == R.Empty(HEAVY);
    assert R.Steps(states, ops) && R.StartsEmpty(states[0]) && states[|ops|] == Db(FencedWithLiveOwner(), NO_WORK);
  }

  function OwnerState(k: nat): Db {
    if k == 0 then R.Empty(HEAVY)
    else Db(if k == 1 then Admitted() else if k == 2 then WithChild() else FencedWithLiveOwner(), NO_WORK)
  }

  function OwnerOp(k: nat): R.Op {
    if k == 0 then R.Request(CALM, HeavyAsk())
    else if k == 1 then R.AttachLease(CALM, 0, CHILD)
    else R.Reconcile(LATE)
  }

  lemma OwnerStep(k: nat)
    requires k < 3
    ensures R.Valid(OwnerState(k), OwnerOp(k)) && R.Apply(OwnerState(k), OwnerOp(k)) == OwnerState(k + 1)
  {
    if k == 0 { OwnerAsks(); } else if k == 1 { ChildIsAttached(); } else { ExpiryFences(); }
  }

  lemma ChildIsAttached()
    ensures AttachToLease(Db(Admitted(), NO_WORK), 0, CHILD) == Db(WithChild(), NO_WORK)
  {
  }

  /** The owner runs, as its pid and start time show; the child and everything else is gone. */
  function OwnerRuns(i: Identity): Liveness { if i == OWNER then Alive else Gone }

  /** Recovery releases it without any attestation, because it looks at the lease's process only. */
  lemma RecoveryReleasesLiveOwner(now: int, config: SweepConfig)
    ensures var db := Db(FencedWithLiveOwner(), NO_WORK);
            var env := Env(now, OwnerRuns, config);
            && R.Reachable(db) && db.host.requests[0].owner == Some(OWNER) && env.liveness(OWNER) == Alive
            && RecoverStep(db, env, 0, false, false).outcome.Freed?
  {
    var h := FencedWithLiveOwner();
    FencedIsReached();
    assert 0 in h.leases && h.leases[0].request == 0;
    assert LeaseOf(h.leases, 0) == Some(0);
    assert ChildrenOf(h.requests, 0) == {};
  }
}
