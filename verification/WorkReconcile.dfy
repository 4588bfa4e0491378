/** The reconcile command of scripts/conductor_commands.py: items whose attempts have let a lease
    expire are fenced, one transaction each, without asking who owns them now. */
module WorkReconcile {
  import opened Collections
  import opened HostModel
  import opened ConductorModel
  import opened WorkStore
  import opened WorkProof
  import opened Store

  predicate InFlight(state: WorkState) { state == Claimed || state == Dispatching || state == Running }

  /** A lease past its expiry whose attempt's item is in flight. */
  predicate Overdue(work: Work, l: Id, now: int) {
    && l in work.leases && work.leases[l].expiresAt < now
    && work.leases[l].attempt in work.attempts
    && work.attempts[work.leases[l].attempt].item in work.items
    && InFlight(work.items[work.attempts[work.leases[l].attempt].item].state)
  }

  function ItemOf(work: Work, l: Id): Id
    requires l in work.leases && work.leases[l].attempt in work.attempts
  {
    work.attempts[work.leases[l].attempt].item
  }

  function OverdueLeases(work: Work, now: int): (rows: seq<Id>)
    ensures forall l :: l in rows <==> Overdue(work, l, now)
    ensures forall i, j | 0 <= i < j < |rows| :: rows[i] != rows[j]
  {
    OrderBy(map l | l in work.leases :: Rank(0, 0), set l | l in work.leases && Overdue(work, l, now))
  }

  /** One row of the query: the attempt whose lease expired, and its item. */
  datatype Expired = Expired(item: Id, attempt: AttemptId)

  function Rows(work: Work, leases: seq<Id>): seq<Expired>
    requires forall l | l in leases :: l in work.leases && work.leases[l].attempt in work.attempts
  {
    seq(|leases|, k requires 0 <= k < |leases| => Expired(ItemOf(work, leases[k]), work.leases[leases[k]].attempt))
  }

  /** The tables after the rows have been fenced in turn, and whether none was refused. */
  function FenceRows(db: Db, rows: seq<Expired>, now: int): (Db, bool)
    decreases |rows|
  {
    if rows == [] then (db, true)
    else
      var r := Transition(db, rows[0].item, ItemRecovery, Some(rows[0].attempt), LeaseExpired, now);
      if r.Rejected? then (db, false) else FenceRows(r.db, rows[1..], now)
  }

  function Reconciled(db: Db, now: int): (Db, bool) {
    FenceRows(db, Rows(db.work, OverdueLeases(db.work, now)), now)
  }

  method HandleReconcile(store: ConductorStore, now: int) returns (ok: bool)
    modifies store
    ensures (store.Tables(), ok) == Reconciled(old(store.Tables()), now)
  {
    var rows := Rows(store.WorkTables(), OverdueLeases(store.WorkTables(), now));
    ghost var result := FenceRows(store.Tables(), rows, now);
    for k := 0 to |rows|
      invariant FenceRows(store.Tables(), rows[k..], now) == result
    {
      assert rows[k..][0] == rows[k] && rows[k..][1..] == rows[k + 1..];
      var refused :=
        store.TransitionWorkItemState(rows[k].item, ItemRecovery, Some(rows[k].attempt), LeaseExpired, now);
      if refused.Some? { return false; }
    }
    assert rows[|rows|..] == [];
    ok := true;
  }

  // ---- what it does, and to whom ----

  predicate Named(rows: seq<Expired>, item: Id) { exists k :: 0 <= k < |rows| && rows[k].item == item }

  predicate OneRowPerItem(rows: seq<Expired>) {
    forall j, k | 0 <= j < k < |rows| :: rows[j].item != rows[k].item
  }

  predicate AllInFlight(work: Work, rows: seq<Expired>) {
    forall k | 0 <= k < |rows| :: rows[k].item in work.items && InFlight(work.items[rows[k].item].state)
  }

  /** Fencing goes through exactly when every item is named once: the second row of an item finds
      it already fenced, and that refusal abandons the rows behind it. */
  lemma {:induction false} FenceRowsCompletes(db: Db, rows: seq<Expired>, now: int)
    requires AllInFlight(db.work, rows)
    ensures FenceRows(db, rows, now).1 <==> OneRowPerItem(rows)
    decreases |rows|
  {
    if rows != [] {
      var head, rest := rows[0], rows[1..];
      var next := db.(work := Move(db.work, head.item, ItemRecovery, Some(head.attempt), LeaseExpired, now));
      assert forall k | 0 <= k < |rest| :: rest[k] == rows[k + 1];
      if Named(rest, head.item) {
        FencedTwiceFails(next, rest, now, head.item);
        var k :| 0 <= k < |rest| && rest[k].item == head.item;
        assert rows[0].item == rows[k + 1].item;
      } else {
        FenceRowsCompletes(next, rest, now);
        assert OneRowPerItem(rows) <==> OneRowPerItem(rest);
      }
    }
  }

  lemma {:induction false} FencedTwiceFails(db: Db, rows: seq<Expired>, now: int, item: Id)
    requires Named(rows, item) && item in db.work.items && db.work.items[item].state == ItemRecovery
    ensures !FenceRows(db, rows, now).1
    decreases |rows|
  {
    var r := Transition(db, rows[0].item, ItemRecovery, Some(rows[0].attempt), LeaseExpired, now);
    if r.Done? {
      var k :| 0 <= k < |rows| && rows[k].item == item;
      assert rows[1..][k - 1].item == item;
      FencedTwiceFails(r.db, rows[1..], now, item);
    }
  }

  /** A completed pass fences exactly the named items and changes nothing else about any. */
  lemma {:induction false} FenceRowsFences(db: Db, rows: seq<Expired>, now: int, item: Id)
    requires AllInFlight(db.work, rows) && OneRowPerItem(rows) && item in db.work.items
    ensures var w := FenceRows(db, rows, now).0.work;
            && item in w.items && w.leases == db.work.leases && w.attempts == db.work.attempts
            && w.claims == db.work.claims
            && w.items[item]
               == if Named(rows, item) then db.work.items[item].(state := ItemRecovery) else db.work.items[item]
    decreases |rows|
  {
    if rows != [] {
      var head, rest := rows[0], rows[1..];
      var next := db.(work := Move(db.work, head.item, ItemRecovery, Some(head.attempt), LeaseExpired, now));
      assert forall k | 0 <= k < |rest| :: rest[k] == rows[k + 1];
      FenceRowsFences(next, rest, now, item);
      if item == head.item {
        assert rows[0].item == item && !Named(rest, item);
      } else if Named(rows, item) {
        var k :| 0 <= k < |rows| && rows[k].item == item;
        assert rest[k - 1].item == item;
      }
    }
  }

  // ---- where a pass stops ----

  /** How many rows come before the first one that names an item again. */
  function BeforeRepeat(rows: seq<Expired>): (m: nat)
    ensures m <= |rows|
  {
    if rows == [] then 0
    else
      var last := |rows| - 1;
      var m := BeforeRepeat(rows[..last]);
      if m < last || Named(rows[..last], rows[last].item) then m else |rows|
  }

  lemma {:induction false} BeforeRepeatIsFirst(rows: seq<Expired>)
    ensures var m := BeforeRepeat(rows); OneRowPerItem(rows[..m]) && (m < |rows| ==> Named(rows[..m], rows[m].item))
  {
    if rows != [] {
      var last := |rows| - 1;
      var m := BeforeRepeat(rows[..last]);
      BeforeRepeatIsFirst(rows[..last]);
      assert rows[..last][..m] == rows[..m];
      if m == last && !Named(rows[..last], rows[last].item) {
        assert rows[..|rows|] == rows && rows[..last][..last] == rows[..last];
        forall j, k | 0 <= j < k < |rows| ensures rows[j].item != rows[k].item {
          if k < last {
            assert rows[..last][j].item != rows[..last][k].item;
          } else {
            assert rows[..last][j] == rows[j];
          }
        }
      }
    }
  }

  lemma {:induction false} FenceRowsInTurn(db: Db, a: seq<Expired>, b: seq<Expired>, now: int)
    requires FenceRows(db, a, now).1
    ensures FenceRows(db, a + b, now) == FenceRows(FenceRows(db, a, now).0, b, now)
    decreases |a|
  {
    if a == [] {
      assert a + b == b;
    } else {
      assert (a + b)[0] == a[0] && (a + b)[1..] == a[1..] + b;
      var r := Transition(db, a[0].item, ItemRecovery, Some(a[0].attempt), LeaseExpired, now);
      FenceRowsInTurn(r.db, a[1..], b, now);
    }
  }

  /** The rows from the first repeated one on are abandoned; those before it have been fenced. */
  lemma FenceRowsStops(db: Db, rows: seq<Expired>, now: int)
    requires AllInFlight(db.work, rows)
    ensures FenceRows(db, rows, now).0 == FenceRows(db, rows[..BeforeRepeat(rows)], now).0
  {
    var m := BeforeRepeat(rows);
    var before, behind := rows[..m], rows[m..];
    BeforeRepeatIsFirst(rows);
    FenceRowsCompletes(db, before, now);
    FenceRowsInTurn(db, before, behind, now);
    assert rows == before + behind;
    if behind != [] {
      FenceRowsFences(db, before, now, behind[0].item);
    }
  }

  /** The lease's row comes before the first one that names an item again. */
  predicate Reached(work: Work, now: int, l: Id) {
    exists k :: 0 <= k < BeforeRepeat(Rows(work, OverdueLeases(work, now))) && OverdueLeases(work, now)[k] == l
  }

  predicate FencedFor(work: Work, now: int, item: Id) {
    exists l :: l in work.leases && Overdue(work, l, now) && Reached(work, now, l) && ItemOf(work, l) == item
  }

  lemma RowsOfOverdue(work: Work, now: int)
    ensures var leases := OverdueLeases(work, now); var rows := Rows(work, leases);
            && |rows| == |leases| && AllInFlight(work, rows)
            && forall k | 0 <= k < |leases| :: Overdue(work, leases[k], now) && rows[k].item == ItemOf(work, leases[k])
  {
    var leases := OverdueLeases(work, now);
    assert forall k | 0 <= k < |leases| :: leases[k] in leases;
  }

  lemma NamedIsFencedFor(work: Work, now: int, item: Id)
    ensures var rows := Rows(work, OverdueLeases(work, now));
            Named(rows[..BeforeRepeat(rows)], item) <==> FencedFor(work, now, item)
  {
    var leases := OverdueLeases(work, now);
    var rows := Rows(work, leases);
    var m := BeforeRepeat(rows);
    RowsOfOverdue(work, now);
    if Named(rows[..m], item) {
      var k :| 0 <= k < m && rows[..m][k].item == item;
      assert Overdue(work, leases[k], now) && Reached(work, now, leases[k]) && ItemOf(work, leases[k]) == item;
    }
    if FencedFor(work, now, item) {
      var l :| Overdue(work, l, now) && Reached(work, now, l) && ItemOf(work, l) == item;
      var k :| 0 <= k < m && leases[k] == l;
      assert rows[..m][k].item == item;
    }
  }

  predicate OneLeasePerItem(work: Work, now: int) {
    forall l, m | l in work.leases && m in work.leases && Overdue(work, l, now) && Overdue(work, m, now)
                  && ItemOf(work, l) == ItemOf(work, m) :: l == m
  }

  lemma OnePerItem(work: Work, now: int)
    ensures OneRowPerItem(Rows(work, OverdueLeases(work, now))) <==> OneLeasePerItem(work, now)
  {
    var leases := OverdueLeases(work, now);
    var rows := Rows(work, leases);
    RowsOfOverdue(work, now);
    if OneRowPerItem(rows) {
      forall l, m | l in work.leases && m in work.leases && Overdue(work, l, now) && Overdue(work, m, now)
                    && ItemOf(work, l) == ItemOf(work, m)
        ensures l == m
      {
        var i :| 0 <= i < |leases| && leases[i] == l;
        var j :| 0 <= j < |leases| && leases[j] == m;
        assert rows[i].item == rows[j].item;
      }
    }
  }

  lemma NoRepeat(rows: seq<Expired>)
    requires OneRowPerItem(rows)
    ensures BeforeRepeat(rows) == |rows|
  {
    BeforeRepeatIsFirst(rows);
  }

  lemma AllReached(work: Work, now: int, l: Id)
    requires OneLeasePerItem(work, now)
    ensures Reached(work, now, l) <==> Overdue(work, l, now)
  {
    var leases := OverdueLeases(work, now);
    var rows := Rows(work, leases);
    OnePerItem(work, now);
    RowsOfOverdue(work, now);
    NoRepeat(rows);
    if Overdue(work, l, now) {
      assert l in leases;
      var k :| 0 <= k < |leases| && leases[k] == l;
    }
  }

  /** The command fences exactly the items with a lease whose row comes before the first repeated
      item, and changes nothing else about any item. It goes through exactly when no item in flight
      has two overdue leases; every overdue lease then counts. */
  lemma ReconcileFences(db: Db, now: int, item: Id)
    requires item in db.work.items
    ensures var w := Reconciled(db, now).0.work;
            && item in w.items
            && w.items[item] == if FencedFor(db.work, now, item) then db.work.items[item].(state := ItemRecovery)
                                else db.work.items[item]
    ensures Reconciled(db, now).1 <==> OneLeasePerItem(db.work, now)
    ensures Reconciled(db, now).1 ==> forall l :: Reached(db.work, now, l) <==> Overdue(db.work, l, now)
  {
    FencedItems(db, now, item);
    PassCompletes(db, now);
    if OneLeasePerItem(db.work, now) {
      forall l ensures Reached(db.work, now, l) <==> Overdue(db.work, l, now) { AllReached(db.work, now, l); }
    }
  }

  lemma PassCompletes(db: Db, now: int)
    ensures Reconciled(db, now).1 <==> OneLeasePerItem(db.work, now)
  {
    RowsOfOverdue(db.work, now);
    FenceRowsCompletes(db, Rows(db.work, OverdueLeases(db.work, now)), now);
    OnePerItem(db.work, now);
  }

  lemma FencedItems(db: Db, now: int, item: Id)
    requires item in db.work.items
    ensures var w := Reconciled(db, now).0.work;
            && item in w.items
            && w.items[item] == if FencedFor(db.work, now, item) then db.work.items[item].(state := ItemRecovery)
                                else db.work.items[item]
  {
    var rows := Rows(db.work, OverdueLeases(db.work, now));
    RowsOfOverdue(db.work, now);
    FencedBefore(db, rows, now, item);
    NamedIsFencedFor(db.work, now, item);
  }

  /** A pass over these rows fences what the ones before the first repeated one name. */
  lemma FencedBefore(db: Db, rows: seq<Expired>, now: int, item: Id)
    requires AllInFlight(db.work, rows) && item in db.work.items
    ensures var w := FenceRows(db, rows, now).0.work;
            && item in w.items
            && w.items[item]
               == if Named(rows[..BeforeRepeat(rows)], item) then db.work.items[item].(state := ItemRecovery)
                  else db.work.items[item]
  {
    FenceRowsStops(db, rows, now);
    BeforeRepeatIsFirst(rows);
    FenceRowsFences(db, rows[..BeforeRepeat(rows)], now, item);
  }

  /** Another attempt of the item has an overdue lease that the command reaches. */
  predicate OthersLease(work: Work, now: int, owner: AttemptId, item: Id) {
    exists l ::
      && l in work.leases && Overdue(work, l, now) && Reached(work, now, l)
      && work.leases[l].attempt != owner && ItemOf(work, l) == item
  }

  /** The query does not look at claims. An item in flight whose present owner is entitled to write,
      and has no overdue lease, is fenced under it exactly when the command reaches an overdue
      lease of another attempt of the item: one the owner has replaced, or that never owned it. */
  lemma ReconcileIgnoresOwnership(db: Db, owner: AttemptId, generation: int, now: int, item: Id)
    requires FencePasses(db, owner, Some(item), None, generation, now) && InFlight(db.work.items[item].state)
    requires forall l | l in db.work.leases && db.work.leases[l].attempt == owner :: db.work.leases[l].expiresAt >= now
    ensures var w := Reconciled(db, now).0.work;
            item in w.items && (w.items[item].state == ItemRecovery <==> OthersLease(db.work, now, owner, item))
  {
    ReconcileFences(db, now, item);
  }
}
