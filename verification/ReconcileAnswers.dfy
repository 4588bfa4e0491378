/** What the reconcile command fences and records, said of the rows. */
module ReconcileAnswers {
  import opened Collections
  import opened HostModel
  import opened ConductorModel
  import opened WorkStore
  import opened WorkReconcile

  /** A lease that ran out before now, of an attempt whose item is claimed, being dispatched or running. */
  predicate Hangs(work: Work, l: Id, now: int) {
    && l in work.leases && work.leases[l].expiresAt < now
    && work.leases[l].attempt in work.attempts
    && work.attempts[work.leases[l].attempt].item in work.items
    && work.items[work.attempts[work.leases[l].attempt].item].state in {WorkState.Claimed, Dispatching, Running}
  }

  /** The event that fences the item of a lease, in the name of the attempt that let it run out. */
  function ExpiryEvent(work: Work, l: Id, now: int): WorkEvent
    requires Hangs(work, l, now)
  {
    WorkEvent(ItemOf(work, l), Some(work.leases[l].attempt), work.items[ItemOf(work, l)].state, ItemRecovery,
              LeaseExpired, now)
  }

  ghost predicate AllHang(work: Work, leases: seq<Id>, now: int) {
    forall k | 0 <= k < |leases| :: Hangs(work, leases[k], now)
  }

  ghost predicate OneEach(work: Work, leases: seq<Id>, now: int)
    requires AllHang(work, leases, now)
  {
    forall j, k | 0 <= j < k < |leases| :: ItemOf(work, leases[j]) != ItemOf(work, leases[k])
  }

  ghost predicate HeldBy(work: Work, leases: seq<Id>, now: int, item: Id)
    requires AllHang(work, leases, now)
  {
    exists k :: 0 <= k < |leases| && ItemOf(work, leases[k]) == item
  }

  /** The items of these leases, one lease each, are in recovery with one event each, in this order;
      nothing else changed. */
  ghost predicate FencedInTurn(b: Db, a: Db, leases: seq<Id>, now: int) {
    && AllHang(b.work, leases, now) && OneEach(b.work, leases, now)
    && |a.work.events| == |b.work.events| + |leases| && b.work.events <= a.work.events
    && (forall k | 0 <= k < |leases| :: a.work.events[|b.work.events| + k] == ExpiryEvent(b.work, leases[k], now))
    && a.work.items.Keys == b.work.items.Keys
    && (forall i | i in b.work.items ::
          a.work.items[i] == if HeldBy(b.work, leases, now, i) then b.work.items[i].(state := ItemRecovery)
                             else b.work.items[i])
    && a == b.(work := b.work.(items := a.work.items, events := a.work.events))
  }

  lemma {:induction false} FenceRowsRecords(db: Db, rows: seq<Expired>, now: int, k: int)
    requires AllInFlight(db.work, rows) && OneRowPerItem(rows)
    ensures var a := FenceRows(db, rows, now).0;
            && |a.work.events| == |db.work.events| + |rows| && db.work.events <= a.work.events
            && a.work.items.Keys == db.work.items.Keys
            && a == db.(work := db.work.(items := a.work.items, events := a.work.events))
            && (0 <= k < |rows| ==>
                  a.work.events[|db.work.events| + k]
                  == WorkEvent(rows[k].item, Some(rows[k].attempt), db.work.items[rows[k].item].state, ItemRecovery,
                               LeaseExpired, now))
    decreases |rows|
  {
    if rows != [] {
      var head, rest := rows[0], rows[1..];
      var next := db.(work := Move(db.work, head.item, ItemRecovery, Some(head.attempt), LeaseExpired, now));
      assert forall j | 0 <= j < |rest| :: rest[j] == rows[j + 1];
      FenceRowsRecords(next, rest, now, k - 1);
      assert |next.work.events| == |db.work.events| + 1;
    }
  }

  /** Leases that hang are fenced in turn, each once, up to the first that names an item again; the
      command goes through exactly when no two of them name the same item. */
  lemma ReconcileAnswers(db: Db, now: int) returns (leases: seq<Id>)
    ensures FencedInTurn(db, Reconciled(db, now).0, leases, now)
    ensures Reconciled(db, now).1 <==> forall l :: Hangs(db.work, l, now) ==> l in leases
    ensures !Reconciled(db, now).1 ==> exists l :: NamesAgain(db.work, leases, now, l)
  {
    var overdue := OverdueLeases(db.work, now);
    var rows := Rows(db.work, overdue);
    var m := BeforeRepeat(rows);
    leases := overdue[..m];
    RowsOfOverdue(db.work, now);
    FenceRowsStops(db, rows, now);
    BeforeRepeatIsFirst(rows);
    FencedTogether(db, now, leases, rows[..m]);
    WhereItStops(db.work, now);
    FenceRowsCompletes(db, rows, now);
  }

  ghost predicate NamesAgain(work: Work, leases: seq<Id>, now: int, l: Id) {
    AllHang(work, leases, now) && Hangs(work, l, now) && l !in leases && HeldBy(work, leases, now, ItemOf(work, l))
  }

  lemma StopsAtRepeat(work: Work, now: int, leases: seq<Id>, rows: seq<Expired>, m: nat)
    requires AllHang(work, leases, now) && |rows| == |leases| && m < |rows|
    requires forall j, k | 0 <= j < k < |leases| :: leases[j] != leases[k]
    requires forall k | 0 <= k < |leases| :: rows[k].item == ItemOf(work, leases[k])
    requires WorkReconcile.Named(rows[..m], rows[m].item)
    ensures NamesAgain(work, leases[..m], now, leases[m])
  {
    var j :| 0 <= j < m && rows[..m][j].item == rows[m].item;
    assert rows[j].item == rows[m].item && leases[..m][j] == leases[j];
  }

  lemma WhereItStops(work: Work, now: int)
    ensures var leases := OverdueLeases(work, now); var rows := Rows(work, leases); var m := BeforeRepeat(rows);
            if OneRowPerItem(rows) then m == |leases| && forall l :: Hangs(work, l, now) ==> l in leases[..m]
            else exists l :: NamesAgain(work, leases[..m], now, l)
  {
    var leases := OverdueLeases(work, now);
    var rows := Rows(work, leases);
    var m := BeforeRepeat(rows);
    RowsOfOverdue(work, now);
    BeforeRepeatIsFirst(rows);
    if OneRowPerItem(rows) {
      NoRepeat(rows);
      EveryHanging(work, now);
      assert leases[..|leases|] == leases;
    } else {
      assert rows[..|rows|] == rows;
      assert AllHang(work, leases, now) && m < |rows|;
      StopsAtRepeat(work, now, leases, rows, m);
    }
  }

  lemma EveryHanging(work: Work, now: int)
    ensures forall l :: l in OverdueLeases(work, now) <==> Hangs(work, l, now)
  {
  }

  lemma FencedTogether(db: Db, now: int, leases: seq<Id>, rows: seq<Expired>)
    requires AllHang(db.work, leases, now) && |rows| == |leases| && OneRowPerItem(rows)
    requires forall k | 0 <= k < |leases| ::
               rows[k] == Expired(ItemOf(db.work, leases[k]), db.work.leases[leases[k]].attempt)
    ensures FencedInTurn(db, FenceRows(db, rows, now).0, leases, now)
  {
    var a := FenceRows(db, rows, now).0;
    FenceRowsRecords(db, rows, now, -1);
    forall k | 0 <= k < |leases|
      ensures a.work.events[|db.work.events| + k] == ExpiryEvent(db.work, leases[k], now)
    {
      FenceRowsRecords(db, rows, now, k);
    }
    forall i | i in db.work.items
      ensures a.work.items[i] == if HeldBy(db.work, leases, now, i) then db.work.items[i].(state := ItemRecovery)
                                 else db.work.items[i]
    {
      FenceRowsFences(db, rows, now, i);
      assert WorkReconcile.Named(rows, i) <==> HeldBy(db.work, leases, now, i);
    }
    forall j, k | 0 <= j < k < |leases| ensures ItemOf(db.work, leases[j]) != ItemOf(db.work, leases[k]) {
      assert rows[j].item != rows[k].item;
    }
  }
}
