/** Which waiter a promotion takes: queue order within a pool, and how far it extends across the
    pools of one provider source. */
module HostFairness {
  import opened Collections
  import opened HostModel
  import opened ConductorModel
  import opened HostPromotion

  /** Higher priority first; then whoever asked earlier; then the smaller id. */
  predicate Ahead(host: Host, x: Id, y: Id)
    requires x in host.requests && y in host.requests
  {
    var a, b := host.requests[x], host.requests[y];
    || a.priority > b.priority
    || (a.priority == b.priority && a.createdAt < b.createdAt)
    || (a.priority == b.priority && a.createdAt == b.createdAt && x <= y)
  }

  lemma QueuedAhead(host: Host, rows: seq<Id>, j: nat, k: nat)
    requires forall r | r in rows :: r in host.requests
    requires Ordered(QueueRanks(host.requests), rows) && j <= k < |rows|
    ensures Ahead(host, rows[j], rows[k])
  {
    if j < k { assert Before(QueueRanks(host.requests), rows[j], rows[k]); }
  }

  lemma {:induction false} FirstUnblockedIsFirst(host: Host, attempts: Attempts, rows: seq<Id>, x: Id)
    requires forall r | r in rows :: r in host.requests
    requires Ordered(QueueRanks(host.requests), rows) && x in rows && Unblocked(host, attempts, x)
    ensures FirstUnblocked(host, attempts, rows).Some?
    ensures Ahead(host, FirstUnblocked(host, attempts, rows).value, x)
  {
    if !Unblocked(host, attempts, rows[0]) {
      assert x in rows[1..];
      FirstUnblockedIsFirst(host, attempts, rows[1..], x);
    } else if x != rows[0] {
      var k :| 0 < k < |rows| && rows[k] == x;
      QueuedAhead(host, rows, 0, k);
    }
  }

  /** Within one pool the promoted waiter could run, and is ahead of all that could: of higher priority,
      or of the same and asked earlier, or at the same time under a smaller id. */
  lemma PickIsFirst(host: Host, attempts: Attempts, key: ResourceKey, x: Id)
    requires Eligible(host, attempts, x) && host.requests[x].key == key
    ensures var q := Pick(host, attempts, key);
            && q.Some? && Eligible(host, attempts, q.value) && host.requests[q.value].key == key
            && Ahead(host, q.value, x)
  {
    FirstUnblockedIsFirst(host, attempts, InQueueOrder(host.requests, QueueOf(host.requests, key)), x);
  }

  lemma QueueOrderIsTotal(host: Host, x: Id, y: Id, z: Id)
    requires x in host.requests && y in host.requests && z in host.requests
    ensures Ahead(host, x, y) || Ahead(host, y, x)
    ensures Ahead(host, x, y) && Ahead(host, y, x) ==> x == y
    ensures Ahead(host, x, y) && Ahead(host, y, z) ==> Ahead(host, x, z)
  {
  }

  /** Some waiter of this pool could run. */
  ghost predicate CanPromote(host: Host, attempts: Attempts, key: ResourceKey) {
    exists y :: Eligible(host, attempts, y) && host.requests[y].key == key
  }

  /** A waiter of one of the pools that a change in pool `key` may promote from. */
  predicate Waits(host: Host, key: ResourceKey, r: Id) {
    r in host.requests && host.requests[r].state == Queued && Related(key, host.requests[r].key)
  }

  /** Row d decides: its pool can promote, and it is ahead of every other row of which that is so. */
  ghost predicate Decides(host: Host, attempts: Attempts, rows: seq<Id>, d: Id)
    requires forall r | r in rows :: r in host.requests
  {
    && d in rows && CanPromote(host, attempts, host.requests[d].key)
    && forall r | r in rows && CanPromote(host, attempts, host.requests[r].key) :: Ahead(host, d, r)
  }

  lemma PickWhenPossible(host: Host, attempts: Attempts, key: ResourceKey)
    ensures Pick(host, attempts, key).Some? <==> CanPromote(host, attempts, key)
  {
    if CanPromote(host, attempts, key) {
      var y :| Eligible(host, attempts, y) && host.requests[y].key == key;
      PickIsFirst(host, attempts, key, y);
    }
  }

  /** The scan over a source's queue ends in the pool of the row that decides. */
  lemma {:induction false} FirstPickDecider(host: Host, attempts: Attempts, rows: seq<Id>) returns (d: Id)
    requires forall r | r in rows :: r in host.requests
    requires Ordered(QueueRanks(host.requests), rows) && FirstPick(host, attempts, rows).Some?
    ensures Decides(host, attempts, rows, d)
    ensures FirstPick(host, attempts, rows) == Pick(host, attempts, host.requests[d].key)
  {
    PickWhenPossible(host, attempts, host.requests[rows[0]].key);
    if Pick(host, attempts, host.requests[rows[0]].key).Some? {
      d := rows[0];
      forall r | r in rows ensures Ahead(host, d, r) {
        var k :| 0 <= k < |rows| && rows[k] == r;
        QueuedAhead(host, rows, 0, k);
      }
    } else {
      d := FirstPickDecider(host, attempts, rows[1..]);
    }
  }

  /** Waiter b cannot run, stands ahead of every waiter whose pool can promote, and so lends its
      place to its pool, although a waiter of another pool is ahead of all that its pool can run. */
  ghost predicate LendsPlace(host: Host, attempts: Attempts, key: ResourceKey, b: Id) {
    && Waits(host, key, b) && !Unblocked(host, attempts, b) && CanPromote(host, attempts, host.requests[b].key)
    && (forall r | Waits(host, key, r) && CanPromote(host, attempts, host.requests[r].key) :: Ahead(host, b, r))
    && exists x :: Overtaken(host, attempts, key, b, x)
  }

  ghost predicate Overtaken(host: Host, attempts: Attempts, key: ResourceKey, b: Id, x: Id)
    requires b in host.requests
  {
    && Eligible(host, attempts, x) && Related(key, host.requests[x].key) && host.requests[x].key != host.requests[b].key
    && forall y | Eligible(host, attempts, y) && host.requests[y].key == host.requests[b].key :: Ahead(host, x, y)
  }

  /** The waiter promoted is ahead of every one that could run, across the source. */
  ghost predicate InOrder(host: Host, attempts: Attempts, key: ResourceKey, q: Id)
    requires q in host.requests
  {
    forall x | Eligible(host, attempts, x) && Related(key, host.requests[x].key) :: Ahead(host, q, x)
  }

  lemma OrderFromDecider(host: Host, attempts: Attempts, key: ResourceKey, d: Id, q: Id, x: Id)
    requires Waits(host, key, d) && Pick(host, attempts, host.requests[d].key) == Some(q)
    requires forall r | Waits(host, key, r) && CanPromote(host, attempts, host.requests[r].key) :: Ahead(host, d, r)
    requires Eligible(host, attempts, x) && Related(key, host.requests[x].key)
    requires !LendsPlace(host, attempts, key, d)
    ensures Ahead(host, q, x)
  {
    QueueOrderIsTotal(host, q, d, x);
    QueueOrderIsTotal(host, q, x, q);
    if host.requests[x].key == host.requests[d].key {
      PickIsFirst(host, attempts, host.requests[d].key, x);
    } else if Unblocked(host, attempts, d) {
      PickIsFirst(host, attempts, host.requests[d].key, d);
      assert CanPromote(host, attempts, host.requests[x].key);
    } else if !Ahead(host, q, x) {
      forall y | Eligible(host, attempts, y) && host.requests[y].key == host.requests[d].key ensures Ahead(host, x, y) {
        PickIsFirst(host, attempts, host.requests[d].key, y);
        QueueOrderIsTotal(host, x, q, y);
      }
      assert Overtaken(host, attempts, key, d, x);
    }
  }

  lemma SourceDecider(host: Host, attempts: Attempts, key: ResourceKey) returns (d: Id)
    requires SourceOf(key).Some? && PickRelated(host, attempts, key).Some?
    ensures Waits(host, key, d) && Pick(host, attempts, host.requests[d].key) == PickRelated(host, attempts, key)
    ensures forall r | Waits(host, key, r) && CanPromote(host, attempts, host.requests[r].key) :: Ahead(host, d, r)
  {
    var rows := SourceRows(host, attempts, key);
    d := FirstPickDecider(host, attempts, rows);
    forall r | Waits(host, key, r) && CanPromote(host, attempts, host.requests[r].key) ensures Ahead(host, d, r) {
      assert r in rows;
    }
  }

  /** The rows the scan goes through are the source's waiters, in queue order. */
  lemma SourceRows(host: Host, attempts: Attempts, key: ResourceKey) returns (rows: seq<Id>)
    requires SourceOf(key).Some?
    ensures forall r :: r in rows <==> Waits(host, key, r)
    ensures (forall r | r in rows :: r in QueueRanks(host.requests)) && Ordered(QueueRanks(host.requests), rows)
    ensures PickRelated(host, attempts, key) == FirstPick(host, attempts, rows)
  {
    var queue := SourceQueue(host.requests, SourceOf(key).value);
    rows := OrderBy(QueueRanks(host.requests), queue);
    forall r ensures r in rows <==> Waits(host, key, r) {
      assert r in rows <==> r in queue;
    }
  }

  lemma LendingBreaksOrder(host: Host, attempts: Attempts, key: ResourceKey, d: Id, q: Id, b: Id)
    requires Waits(host, key, d) && Pick(host, attempts, host.requests[d].key) == Some(q)
    requires forall r | Waits(host, key, r) && CanPromote(host, attempts, host.requests[r].key) :: Ahead(host, d, r)
    requires LendsPlace(host, attempts, key, b)
    ensures !InOrder(host, attempts, key, q)
  {
    assert CanPromote(host, attempts, host.requests[d].key);
    QueueOrderIsTotal(host, b, d, d);
    var x :| Overtaken(host, attempts, key, b, x);
    QueueOrderIsTotal(host, x, q, q);
  }

  /** The waiter promoted is ahead of every waiter that could run in any pool of the source, exactly
      when no blocked waiter lends its place. */
  lemma PromotionOrder(host: Host, attempts: Attempts, key: ResourceKey)
    requires PickRelated(host, attempts, key).Some?
    ensures InOrder(host, attempts, key, PickRelated(host, attempts, key).value) <==>
            !exists b :: LendsPlace(host, attempts, key, b)
  {
    var q := PickRelated(host, attempts, key).value;
    if SourceOf(key).Some? {
      var d := SourceDecider(host, attempts, key);
      if b :| LendsPlace(host, attempts, key, b) {
        LendingBreaksOrder(host, attempts, key, d, q, b);
      } else {
        forall x | Eligible(host, attempts, x) && Related(key, host.requests[x].key) ensures Ahead(host, q, x) {
          OrderFromDecider(host, attempts, key, d, q, x);
        }
      }
    } else {
      forall x | Eligible(host, attempts, x) && Related(key, host.requests[x].key) ensures Ahead(host, q, x) {
        PickIsFirst(host, attempts, key, x);
      }
    }
  }
}
