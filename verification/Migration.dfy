/** `_migrate_to_v9_locked` of scripts/conductor_store.py: claim generations from insertion
    order, owners from claim history, and a fence where no owner can be established. */
module Migration {
  import opened Collections
  import opened HostModel
  import opened ConductorModel
  import opened WorkStore
  import opened WorkProof
  import opened HostInvariant
  import opened Store
  import opened IdempotencyKeys
  import R = Runs

  /** Which v9 columns the store already has; a missing one reads as its default. */
  datatype Layout = Layout(hasGeneration: bool, hasOwner: bool)

  predicate Live(state: WorkState) { state in {Claimed, Dispatching, Running, WaitingExternal, Review} }

  /** UPDATE claims SET claim_generation = how many claims of the item are this one or earlier. */
  function Renumbered(claims: seq<Claim>): (r: seq<Claim>)
    ensures |r| == |claims|
  {
    if claims == [] then []
    else
      var c := claims[|claims| - 1];
      Renumbered(claims[..|claims| - 1]) + [c.(generation := ClaimsOf(claims, c.item))]
  }

  /** The claim of an item with the greatest rowid. */
  function TopClaim(claims: seq<Claim>, item: Id): Option<Claim> {
    if claims == [] then None
    else if claims[|claims| - 1].item == item then Some(claims[|claims| - 1])
    else TopClaim(claims[..|claims| - 1], item)
  }

  function BackfillItem(work: Work, item: Id, now: int): Work
    requires item in work.items
  {
    var top := TopClaim(work.claims, item);
    if top.Some? then
      var row := work.items[item].(currentAttempt := Some(top.value.attempt),
                                   currentGeneration := Some(top.value.generation));
      work.(items := work.items[item := row])
    else if Live(work.items[item].state) then
      Move(work, item, ItemRecovery, None, MigrationOwnershipUnestablished, now)
    else work
  }

  function Backfill(work: Work, ids: seq<Id>, now: int): (w: Work)
    requires forall i | i in ids :: i in work.items
    decreases |ids|
  {
    if ids == [] then work else Backfill(BackfillItem(work, ids[0], now), ids[1..], now)
  }

  function AllItems(items: map<Id, WorkItem>): (ids: seq<Id>)
    ensures forall i :: i in ids <==> i in items
    ensures forall j, k | 0 <= j < k < |ids| :: ids[j] != ids[k]
  {
    OrderBy(map i | i in items :: Rank(0, 0), items.Keys)
  }

  function AddColumns(work: Work, layout: Layout): Work {
    var w := if layout.hasGeneration then work else work.(claims := Renumbered(work.claims));
    if layout.hasOwner then w
    else w.(items := map i | i in w.items :: w.items[i].(currentAttempt := None, currentGeneration := None))
  }

  function Migrate(work: Work, layout: Layout, backfill: bool, now: int): Work {
    var w := AddColumns(work, layout);
    if backfill && !(layout.hasOwner && layout.hasGeneration) then Backfill(w, AllItems(w.items), now) else w
  }

  method MigrateToV9(store: ConductorStore, layout: Layout, backfill: bool, now: int)
    modifies store
    ensures store.Tables() == old(store.Tables()).(work := Migrate(old(store.WorkTables()), layout, backfill, now))
  {
    if !layout.hasGeneration { store.claims := Renumbered(store.claims); }
    if !layout.hasOwner {
      store.items := map i | i in store.items ::
        store.items[i].(currentAttempt := None, currentGeneration := None);
    }
    assert store.WorkTables() == AddColumns(old(store.WorkTables()), layout);
    if backfill && !(layout.hasOwner && layout.hasGeneration) { BackfillOwners(store, now); }
  }

  method AppointOwner(store: ConductorStore, item: Id, now: int)
    requires item in store.items
    modifies store
    ensures store.WorkTables() == BackfillItem(old(store.WorkTables()), item, now)
    ensures store.HostTables() == old(store.HostTables()) && store.items.Keys == old(store.items).Keys
  {
    var top := TopClaim(store.claims, item);
    if top.Some? {
      store.items := store.items[item := store.items[item].(currentAttempt := Some(top.value.attempt),
                                                            currentGeneration := Some(top.value.generation))];
    } else if Live(store.items[item].state) {
      store.MoveTo(item, ItemRecovery, None, MigrationOwnershipUnestablished, now);
    }
  }

  method BackfillOwners(store: ConductorStore, now: int)
    modifies store
    ensures store.WorkTables() == Backfill(old(store.WorkTables()), AllItems(old(store.items)), now)
    ensures store.HostTables() == old(store.HostTables())
  {
    var ids := AllItems(store.items);
    ghost var before := store.WorkTables();
    var n := 0;
    while n < |ids|
      invariant 0 <= n <= |ids|
      invariant forall i | i in ids :: i in store.items
      invariant store.HostTables() == old(store.HostTables())
      invariant Backfill(store.WorkTables(), ids[n..], now) == Backfill(before, ids, now)
    {
      AppointOwner(store, ids[n], now);
      n := n + 1;
    }
  }

  // ---- what the migration establishes ----

  lemma {:induction false} RenumberedFields(claims: seq<Claim>, k: nat)
    requires k < |claims|
    ensures Renumbered(claims)[k] == claims[k].(generation := ClaimsOf(claims[..k + 1], claims[k].item))
  {
    var last := |claims| - 1;
    if k < last {
      RenumberedFields(claims[..last], k);
      assert claims[..last][..k + 1] == claims[..k + 1];
    } else {
      assert claims[..k + 1] == claims;
    }
  }

  lemma {:induction false} SameItemsSameCount(a: seq<Claim>, b: seq<Claim>, item: Id)
    requires |a| == |b| && forall k | 0 <= k < |a| :: a[k].item == b[k].item && a[k].attempt == b[k].attempt
    ensures ClaimsOf(a, item) == ClaimsOf(b, item) && LastClaimant(a, item) == LastClaimant(b, item)
    decreases |a|
  {
    if a != [] { SameItemsSameCount(a[..|a| - 1], b[..|b| - 1], item); }
  }

  /** Generations become 1, 2, ... per item in insertion order. */
  lemma RenumberedIsNumbered(claims: seq<Claim>)
    ensures Numbered(Renumbered(claims))
    ensures forall k | 0 <= k < |claims| ::
              Renumbered(claims)[k].item == claims[k].item && Renumbered(claims)[k].attempt == claims[k].attempt
  {
    var r := Renumbered(claims);
    forall k | 0 <= k < |claims|
      ensures r[k].item == claims[k].item && r[k].attempt == claims[k].attempt
      ensures r[k].generation == ClaimsOf(claims[..k + 1], claims[k].item)
    {
      RenumberedFields(claims, k);
    }
    forall k | 0 <= k < |r| ensures r[k].generation == ClaimsOf(r[..k + 1], r[k].item) {
      SameItemsSameCount(r[..k + 1], claims[..k + 1], r[k].item);
    }
  }

  lemma {:induction false} TopClaimIsOwner(claims: seq<Claim>, item: Id)
    requires Numbered(claims)
    ensures TopClaim(claims, item).Some? <==> ClaimsOf(claims, item) > 0
    ensures TopClaim(claims, item).Some? ==>
              && LastClaimant(claims, item) == Some(TopClaim(claims, item).value.attempt)
              && TopClaim(claims, item).value.generation == ClaimsOf(claims, item)
    ensures TopClaim(claims, item).None? ==> LastClaimant(claims, item).None?
  {
    if claims != [] {
      var last := |claims| - 1;
      if claims[last].item == item {
        assert claims[..last + 1] == claims;
      } else {
        forall k | 0 <= k < last
          ensures claims[..last][k].generation == ClaimsOf(claims[..last][..k + 1], claims[..last][k].item)
        {
          assert claims[..last][..k + 1] == claims[..k + 1] && claims[..last][k] == claims[k];
        }
        TopClaimIsOwner(claims[..last], item);
      }
    }
  }

  /** What foreign keys and fresh attempt ids already guarantee of any claim history. */
  ghost predicate History(work: Work) {
    DistinctClaimants(work.claims) && ClaimsPlaced(work)
  }

  /** Owners recorded so far: everything outside `ids` is settled, and an unclaimed item
      inside it has no owner on record. */
  ghost predicate Backfilling(work: Work, ids: seq<Id>) {
    && History(work) && Numbered(work.claims) && LedgerInv(work)
    && (forall i | i in ids :: i in work.items)
    && (forall j, k | 0 <= j < k < |ids| :: ids[j] != ids[k])
    && forall i | i in work.items :: RowReady(work.claims, work.items[i], i, i in ids)
  }

  predicate RowReady(claims: seq<Claim>, row: WorkItem, item: Id, pending: bool) {
    if pending then ClaimsOf(claims, item) == 0 ==> row.currentAttempt.None? && row.currentGeneration.None?
    else OwnerRecorded(claims, row, item) && (ClaimsOf(claims, item) == 0 ==> !Live(row.state))
  }

  lemma BackfillItemKeeps(work: Work, ids: seq<Id>, now: int)
    requires ids != [] && Backfilling(work, ids)
    ensures Backfilling(BackfillItem(work, ids[0], now), ids[1..])
  {
    var item := ids[0];
    var w := BackfillItem(work, item, now);
    BackfillItemHistory(work, item, now);
    forall i | i in w.items ensures RowReady(w.claims, w.items[i], i, i in ids[1..]) {
      if i == item { BackfilledFirst(work, ids, now); } else { RowStaysReady(work, w, ids, i); }
    }
    assert forall i | i in ids[1..] :: i in ids;
    ReadyToBackfill(w, ids[1..]);
  }

  lemma BackfilledFirst(work: Work, ids: seq<Id>, now: int)
    requires ids != [] && Backfilling(work, ids)
    ensures var w := BackfillItem(work, ids[0], now); RowReady(w.claims, w.items[ids[0]], ids[0], ids[0] in ids[1..])
  {
    assert ids[0] !in ids[1..];
    BackfilledRowReady(work, ids[0], now);
  }

  lemma RowStaysReady(work: Work, w: Work, ids: seq<Id>, i: Id)
    requires ids != [] && Backfilling(work, ids) && i in work.items && i != ids[0]
    requires w.claims == work.claims && i in w.items && w.items[i] == work.items[i]
    ensures RowReady(w.claims, w.items[i], i, i in ids[1..])
  {
    assert RowReady(work.claims, work.items[i], i, i in ids);
    assert ids == [ids[0]] + ids[1..];
  }

  lemma BackfillItemHistory(work: Work, item: Id, now: int)
    requires History(work) && Numbered(work.claims) && LedgerInv(work) && item in work.items
    ensures var w := BackfillItem(work, item, now);
            && History(w) && Numbered(w.claims) && LedgerInv(w)
            && w.claims == work.claims && w.items.Keys == work.items.Keys
            && forall i | i in work.items && i != item :: w.items[i] == work.items[i]
  {
    if BackfillItem(work, item, now).events != work.events {
      MoveKeepsLedger(work, item, now);
    }
  }

  lemma BackfilledRowReady(work: Work, item: Id, now: int)
    requires item in work.items && Numbered(work.claims) && RowReady(work.claims, work.items[item], item, true)
    ensures var w := BackfillItem(work, item, now); RowReady(w.claims, w.items[item], item, false)
  {
    TopClaimIsOwner(work.claims, item);
  }

  lemma MoveKeepsLedger(work: Work, item: Id, now: int)
    requires LedgerInv(work) && item in work.items && Live(work.items[item].state)
    ensures LedgerInv(Move(work, item, ItemRecovery, None, MigrationOwnershipUnestablished, now))
  {
    var e := WorkEvent(item, None, work.items[item].state, ItemRecovery, MigrationOwnershipUnestablished, now);
    ChainAppend(work.events, e);
    forall i ensures Replay(work.events + [e], i) == if i == item then ItemRecovery else Replay(work.events, i) {
      ReplayAppend(work.events, e, i);
    }
  }

  lemma {:induction false} BackfillEstablishes(work: Work, ids: seq<Id>, now: int)
    requires Backfilling(work, ids)
    ensures Backfilling(Backfill(work, ids, now), [])
    decreases |ids|
  {
    if ids != [] {
      BackfillItemKeeps(work, ids, now);
      BackfillEstablishes(BackfillItem(work, ids[0], now), ids[1..], now);
    }
  }

  /** A layout that the migration backfills; generations it already has number each item's claims. */
  ghost predicate Backfillable(work: Work, layout: Layout) {
    !(layout.hasGeneration && layout.hasOwner) && (layout.hasGeneration ==> Numbered(work.claims))
  }

  lemma ColumnsReadyBackfill(work: Work, layout: Layout)
    requires Backfillable(work, layout) && History(work) && LedgerInv(work)
    requires layout.hasOwner ==> forall i | i in work.items && ClaimsOf(work.claims, i) == 0 ::
                                   work.items[i].currentAttempt.None? && work.items[i].currentGeneration.None?
    ensures Backfilling(AddColumns(work, layout), AllItems(AddColumns(work, layout).items))
  {
    var w := AddColumns(work, layout);
    ColumnsKeepHistory(work, layout);
    AllItemsOnce(w.items);
    forall i | i in w.items ensures RowReady(w.claims, w.items[i], i, true) {
      SameItemsSameCount(w.claims, work.claims, i);
    }
    ReadyToBackfill(w, AllItems(w.items));
  }

  lemma AllItemsOnce(items: map<Id, WorkItem>)
    ensures forall i :: i in AllItems(items) <==> i in items
    ensures forall j, k | 0 <= j < k < |AllItems(items)| :: AllItems(items)[j] != AllItems(items)[k]
  {
  }

  lemma ReadyToBackfill(work: Work, ids: seq<Id>)
    requires History(work) && Numbered(work.claims) && LedgerInv(work)
    requires forall i | i in ids :: i in work.items
    requires forall j, k | 0 <= j < k < |ids| :: ids[j] != ids[k]
    requires forall i | i in work.items :: RowReady(work.claims, work.items[i], i, i in ids)
    ensures Backfilling(work, ids)
  {
  }

  lemma ColumnsKeepHistory(work: Work, layout: Layout)
    requires Backfillable(work, layout) && History(work) && LedgerInv(work)
    ensures var w := AddColumns(work, layout);
            && History(w) && Numbered(w.claims) && LedgerInv(w)
            && |w.claims| == |work.claims|
            && forall k | 0 <= k < |w.claims| ::
                 w.claims[k].item == work.claims[k].item && w.claims[k].attempt == work.claims[k].attempt
  {
    RenumberedIsNumbered(work.claims);
  }

  lemma BackfilledIsOwned(w: Work)
    requires Backfilling(w, [])
    ensures WorkInv(w)
    ensures forall i | i in w.items && Live(w.items[i].state) :: w.items[i].currentAttempt.Some?
  {
    forall i | i in w.items
      ensures OwnerRecorded(w.claims, w.items[i], i)
      ensures Live(w.items[i].state) ==> w.items[i].currentAttempt.Some?
    {
      assert i !in [];
      TopClaimIsOwner(w.claims, i);
    }
  }

  // ---- what the migration leaves alone, and the fences it records ----

  /** A live item that nobody has claimed. */
  predicate Ownerless(work: Work, item: Id) {
    && item in work.items && (forall k | 0 <= k < |work.claims| :: work.claims[k].item != item)
    && work.items[item].state in {Claimed, Dispatching, Running, WaitingExternal, Review}
  }

  lemma {:induction false} UnclaimedMeans(claims: seq<Claim>, item: Id)
    ensures ClaimsOf(claims, item) == 0 <==> forall k | 0 <= k < |claims| :: claims[k].item != item
  {
    if claims != [] {
      var last := |claims| - 1;
      UnclaimedMeans(claims[..last], item);
      assert forall k | 0 <= k < last :: claims[..last][k] == claims[k];
    }
  }

  function FenceEvent(work: Work, item: Id, now: int): WorkEvent
    requires item in work.items
  {
    WorkEvent(item, None, work.items[item].state, ItemRecovery, MigrationOwnershipUnestablished, now)
  }

  function FenceEvents(work: Work, ids: seq<Id>, now: int): seq<WorkEvent> {
    if ids == [] then []
    else (if Ownerless(work, ids[0]) then [FenceEvent(work, ids[0], now)] else []) + FenceEvents(work, ids[1..], now)
  }

  /** The events of one item, in order. */
  function OfItem(events: seq<WorkEvent>, item: Id): seq<WorkEvent> {
    if events == [] then []
    else (if events[0].item == item then [events[0]] else []) + OfItem(events[1..], item)
  }

  predicate Once(ids: seq<Id>) { forall j, k | 0 <= j < k < |ids| :: ids[j] != ids[k] }

  lemma {:induction false} FenceEventsOf(work: Work, ids: seq<Id>, now: int, item: Id)
    requires Once(ids)
    ensures OfItem(FenceEvents(work, ids, now), item)
         == if item in ids && Ownerless(work, item) then [FenceEvent(work, item, now)] else []
  {
    if ids != [] {
      var rest := FenceEvents(work, ids[1..], now);
      assert ids == [ids[0]] + ids[1..] && Once(ids[1..]);
      FenceEventsOf(work, ids[1..], now, item);
      if Ownerless(work, ids[0]) {
        assert ([FenceEvent(work, ids[0], now)] + rest)[1..] == rest;
      } else {
        assert [] + rest == rest;
      }
    }
  }

  lemma {:induction false} SameFenceEvents(a: Work, b: Work, ids: seq<Id>, now: int)
    requires a.claims == b.claims && a.items.Keys == b.items.Keys
    requires forall i | i in ids && i in a.items :: a.items[i] == b.items[i]
    ensures FenceEvents(a, ids, now) == FenceEvents(b, ids, now)
  {
    if ids != [] {
      assert ids == [ids[0]] + ids[1..];
      SameFenceEvents(a, b, ids[1..], now);
    }
  }

  lemma BackfillItemFrame(work: Work, item: Id, now: int)
    requires item in work.items && Numbered(work.claims)
    ensures var w := BackfillItem(work, item, now);
            && w.claims == work.claims && SameElse(work, w) && w.items.Keys == work.items.Keys
            && (forall i | i in work.items && i != item :: w.items[i] == work.items[i])
            && KeptRow(work, w, item)
            && w.events == work.events + FenceEvents(work, [item], now)
  {
    TopClaimIsOwner(work.claims, item);
    UnclaimedMeans(work.claims, item);
    assert [item][1..] == [] && FenceEvents(work, [], now) == [];
    assert work.events + [] == work.events;
  }

  predicate SameElse(b: Work, a: Work) {
    && a.attempts == b.attempts && a.leases == b.leases && a.checkpoints == b.checkpoints
    && a.authorizations == b.authorizations
  }

  /** An item keeps its details, and its state unless it is live and ownerless. */
  predicate KeptRow(b: Work, a: Work, i: Id)
    requires i in b.items
  {
    && i in a.items && a.items[i].details == b.items[i].details
    && a.items[i].state == if Ownerless(b, i) then ItemRecovery else b.items[i].state
  }

  ghost predicate BackfilledRows(work: Work, w: Work, ids: seq<Id>) {
    && w.claims == work.claims && SameElse(work, w) && w.items.Keys == work.items.Keys
    && (forall i | i in work.items && i !in ids :: w.items[i] == work.items[i])
    && (forall i | i in ids && i in work.items :: KeptRow(work, w, i))
  }

  lemma RowsCompose(work: Work, mid: Work, w: Work, first: Id, rest: seq<Id>)
    requires first in work.items && first !in rest
    requires BackfilledRows(work, mid, [first]) && BackfilledRows(mid, w, rest)
    ensures BackfilledRows(work, w, [first] + rest)
  {
    forall i | i in [first] + rest && i in work.items ensures KeptRow(work, w, i) {
      if i == first {
        assert KeptRow(work, mid, i) && w.items[i] == mid.items[i];
      } else {
        assert mid.items[i] == work.items[i] && KeptRow(mid, w, i);
      }
    }
  }

  lemma {:induction false} BackfillRows(work: Work, ids: seq<Id>, now: int)
    requires Numbered(work.claims) && Once(ids) && forall i | i in ids :: i in work.items
    ensures BackfilledRows(work, Backfill(work, ids, now), ids)
    decreases |ids|
  {
    if ids != [] {
      var mid := BackfillItem(work, ids[0], now);
      assert ids == [ids[0]] + ids[1..];
      BackfillItemFrame(work, ids[0], now);
      BackfillRows(mid, ids[1..], now);
      RowsCompose(work, mid, Backfill(work, ids, now), ids[0], ids[1..]);
    }
  }

  lemma {:induction false} BackfillEvents(work: Work, ids: seq<Id>, now: int)
    requires Numbered(work.claims) && Once(ids) && forall i | i in ids :: i in work.items
    ensures Backfill(work, ids, now).events == work.events + FenceEvents(work, ids, now)
    decreases |ids|
  {
    if ids != [] {
      var first, rest := ids[0], ids[1..];
      var mid := BackfillItem(work, first, now);
      assert ids == [first] + rest;
      BackfillItemFrame(work, first, now);
      BackfillEvents(mid, rest, now);
      SameFenceEvents(mid, work, rest, now);
      FenceEventsSplit(work, first, rest, now);
      AppendInTurn(work.events, FenceEvents(work, [first], now), FenceEvents(work, rest, now));
    }
  }

  lemma AppendInTurn(a: seq<WorkEvent>, b: seq<WorkEvent>, c: seq<WorkEvent>)
    ensures (a + b) + c == a + (b + c)
  {
  }

  lemma FenceEventsSplit(work: Work, first: Id, rest: seq<Id>, now: int)
    ensures FenceEvents(work, [first] + rest, now) == FenceEvents(work, [first], now) + FenceEvents(work, rest, now)
  {
    assert ([first] + rest)[1..] == rest && [first][1..] == [];
  }

  lemma AddColumnsFrame(work: Work, layout: Layout)
    ensures var w := AddColumns(work, layout);
            && SameClaimants(work, w) && SameElse(work, w) && w.items.Keys == work.items.Keys && w.events == work.events
            && forall i | i in work.items ::
                 w.items[i].details == work.items[i].details && w.items[i].state == work.items[i].state
  {
    RenumberedIsNumbered(work.claims);
  }

  /** Claims keep their order, items and attempts; only generations may differ. */
  predicate SameClaimants(b: Work, a: Work) {
    && |a.claims| == |b.claims|
    && forall k | 0 <= k < |b.claims| ::
         a.claims[k].item == b.claims[k].item && a.claims[k].attempt == b.claims[k].attempt
  }

  lemma SameOwnerless(work: Work, layout: Layout, item: Id)
    ensures Ownerless(AddColumns(work, layout), item) <==> Ownerless(work, item)
  {
    AddColumnsFrame(work, layout);
    SameItemsSameCount(AddColumns(work, layout).claims, work.claims, item);
  }

  /** Claims keep their order, items and attempts; items keep their details and, unless fenced, their
      state; each live ownerless item is fenced, with exactly one new event that says so. */
  lemma MigrationFrame(work: Work, layout: Layout, now: int, item: Id)
    requires Backfillable(work, layout) && item in work.items
    ensures var w := Migrate(work, layout, true, now);
            && SameClaimants(work, w) && SameElse(work, w) && w.items.Keys == work.items.Keys
            && KeptRow(work, w, item)
            && work.events <= w.events
            && OfItem(w.events[|work.events|..], item)
               == if Ownerless(work, item) then [FenceEvent(work, item, now)] else []
  {
    var w0 := AddColumns(work, layout);
    var ids := AllItems(w0.items);
    RenumberedIsNumbered(work.claims);
    AddColumnsFrame(work, layout);
    SameOwnerless(work, layout, item);
    BackfillRows(w0, ids, now);
    BackfillEvents(w0, ids, now);
    FenceEventsOf(w0, ids, now, item);
    assert KeptRow(w0, Migrate(work, layout, true, now), item);
    assert (work.events + FenceEvents(w0, ids, now))[|work.events|..] == FenceEvents(w0, ids, now);
  }

  /** What the code assumes of a store it migrates: ids are never reused, foreign keys hold, events
      replay, and no owner is on record where nobody has claimed. */
  ghost predicate Migratable(work: Work, layout: Layout) {
    && Backfillable(work, layout) && History(work) && LedgerInv(work)
    && (layout.hasOwner ==> forall i | i in work.items && ClaimsOf(work.claims, i) == 0 ::
                              work.items[i].currentAttempt.None? && work.items[i].currentGeneration.None?)
  }

  /** From a layout that lacks generations or owners the migration establishes the claim invariant that
      every later claim maintains, keeps the ledger, and leaves no live item without an owner. */
  lemma MigrationEstablishesAuthority(work: Work, layout: Layout, now: int)
    requires Migratable(work, layout)
    ensures var w := Migrate(work, layout, true, now);
            && WorkInv(w)
            && (forall i | i in w.items
                           && w.items[i].state in {Claimed, Dispatching, Running, WaitingExternal, Review} ::
                  w.items[i].currentAttempt.Some?)
  {
    var w := AddColumns(work, layout);
    ColumnsReadyBackfill(work, layout);
    BackfillEstablishes(w, AllItems(w.items), now);
    BackfilledIsOwned(Backfill(w, AllItems(w.items), now));
  }

  /** A store that has both columns is left alone. */
  lemma MigratedAlready(work: Work, layout: Layout, backfill: bool, now: int)
    requires layout.hasGeneration && layout.hasOwner
    ensures Migrate(work, layout, backfill, now) == work
  {
  }

  /** A migrated store is a state a run may start in. */
  lemma MigratedIsGood(db: Db, layout: Layout, now: int)
    requires Settled(db) && Migratable(db.work, layout) && KeysUnique(db)
    ensures R.Good(db.(work := Migrate(db.work, layout, true, now)))
  {
    MigrationEstablishesAuthority(db.work, layout, now);
    AddColumnsFrame(db.work, layout);
    MigratedAttempts(db.work, layout, now);
    MigratedNames(db.work, layout, now);
    SameNamesOnePerKey(db.work.items, Migrate(db.work, layout, true, now).items);
  }

  lemma MigratedNames(work: Work, layout: Layout, now: int)
    requires Backfillable(work, layout)
    ensures SameNames(work.items, Migrate(work, layout, true, now).items)
  {
    var w := Migrate(work, layout, true, now);
    if i :| i in work.items { MigrationFrame(work, layout, now, i); }
    forall i | i in work.items ensures i in w.items && w.items[i].details == work.items[i].details {
      MigrationFrame(work, layout, now, i);
    }
  }

  lemma MigratedAttempts(work: Work, layout: Layout, now: int)
    requires Backfillable(work, layout)
    ensures Migrate(work, layout, true, now).attempts == work.attempts
  {
    var w0 := AddColumns(work, layout);
    RenumberedIsNumbered(work.claims);
    BackfillRows(w0, AllItems(w0.items), now);
  }

  /** In every run from a migrated store the current generation of a claimed item is the greatest of
      its claims, and that of the claim its present owner holds. */
  lemma MigratedRunsStayOwned(db: Db, layout: Layout, at: int, states: seq<Db>, ops: seq<R.Op>, n: nat, k: nat)
    requires Settled(db) && Migratable(db.work, layout) && KeysUnique(db)
    requires R.Steps(states, ops) && states[0] == db.(work := Migrate(db.work, layout, true, at))
    requires n <= |ops| && k < |states[n].work.claims|
    ensures R.GreatestIsCurrent(states[n].work, k)
  {
    MigratedIsGood(db, layout, at);
    R.CurrentGenerationIsGreatest(states, ops, n, k);
  }

  /** A defensive case of the code: healing a store already marked v9 that lacks these columns adds
      them but appoints no owner. The claim invariant then holds exactly when nothing had been
      claimed. */
  lemma HealingWithoutHistory(work: Work, layout: Layout, now: int)
    requires !layout.hasGeneration && !layout.hasOwner && History(work) && LedgerInv(work)
    ensures ClaimInv(Migrate(work, layout, false, now)) <==> work.claims == []
  {
    var w := Migrate(work, layout, false, now);
    RenumberedIsNumbered(work.claims);
    if work.claims == [] {
    } else {
      var c := w.claims[0];
      LastClaimantIsLast(w.claims, 0);
      assert c.item in w.items && w.items[c.item].currentAttempt.None?;
      assert !OwnerRecorded(w.claims, w.items[c.item], c.item);
    }
  }
}
