/** scripts/conductor_scheduler.py: which READY item runs next, and why each other one does not. */
module Scheduler {
  import opened Collections
  import opened HostModel
  import opened ConductorModel
  import opened Commands
  import opened Store

  datatype Why =
    | DependencyUnsatisfied(missing: seq<Id>)
    | Unauthorized(refusal: Reason)
    | HostBusy(purpose: JobKind)
    | LowerSchedulerPriority

  datatype Rejection = Rejection(item: Id, why: Why)

  function RiskWeight(risk: RiskClass): int {
    match risk
    case R3 => 4
    case R2 => 3
    case R1 => 2
    case R0 => 1
  }

  /** The sort key (-priority, -risk weight, created, id), compared. */
  predicate Precedes(items: map<Id, WorkItem>, x: Id, y: Id)
    requires x in items && y in items
  {
    var a, b := items[x].details, items[y].details;
    if a.priority != b.priority then a.priority > b.priority
    else if a.risk != b.risk then RiskWeight(a.risk) > RiskWeight(b.risk)
    else if a.createdAt != b.createdAt then a.createdAt < b.createdAt
    else x <= y
  }

  lemma PrecedesIsTotalOrder(items: map<Id, WorkItem>, x: Id, y: Id, z: Id)
    requires x in items && y in items && z in items
    ensures Precedes(items, x, y) || Precedes(items, y, x)
    ensures Precedes(items, x, y) && Precedes(items, y, x) ==> x == y
    ensures Precedes(items, x, y) && Precedes(items, y, z) ==> Precedes(items, x, z)
  {
  }

  function Missing(dependencies: seq<Id>, completed: set<Id>): seq<Id> {
    if dependencies == [] then []
    else (if dependencies[0] in completed then [] else [dependencies[0]]) + Missing(dependencies[1..], completed)
  }

  function InState(items: map<Id, WorkItem>, state: WorkState): set<Id> {
    set i | i in items && items[i].state == state
  }

  function InScope(items: map<Id, WorkItem>, repo: Option<Id>): set<Id> {
    set i | i in items && items[i].state == Ready && (repo.Some? ==> items[i].details.repo == repo.value)
  }

  predicate NeedsHost(job: JobKind) { job.PytestFull? || job.PytestHeavy? }

  /** The first check a READY item fails, if any. */
  function Obstacle(db: Db, item: Id, now: int): Option<Why>
    requires item in db.work.items
  {
    var details := db.work.items[item].details;
    var missing := Missing(details.dependencies, InState(db.work.items, Completed));
    if missing != [] then Some(DependencyUnsatisfied(missing))
    else if ClaimRefusal(db.work, item, now).Some? then Some(Unauthorized(ClaimRefusal(db.work, item, now).value))
    else if NeedsHost(details.job) && Held(db.host.requests, HostHeavy) != {} then Some(HostBusy(details.job))
    else None
  }

  ghost predicate Runnable(db: Db, repo: Option<Id>, now: int, item: Id) {
    item in InScope(db.work.items, repo) && Obstacle(db, item, now).None?
  }

  /** What must be said of an item that was not selected. */
  function WhyNot(db: Db, item: Id, now: int): Why
    requires item in db.work.items
  {
    var obstacle := Obstacle(db, item, now);
    if obstacle.Some? then obstacle.value else LowerSchedulerPriority
  }

  function Items(rejected: seq<Rejection>): seq<Id> {
    seq(|rejected|, k requires 0 <= k < |rejected| => rejected[k].item)
  }

  function Chosen(selected: Option<Id>): multiset<Id> {
    if selected.Some? then multiset{selected.value} else multiset{}
  }

  /** The answer the scheduler owes: the least runnable item, or None when there is none, and
      every other item in scope rejected exactly once, for the right reason. */
  ghost predicate IsSelection(db: Db, repo: Option<Id>, now: int, selected: Option<Id>, rejected: seq<Rejection>) {
    && (selected.Some? ==> Runnable(db, repo, now, selected.value))
    && (forall i | i in InScope(db.work.items, repo) && Runnable(db, repo, now, i) ::
          selected.Some? && Precedes(db.work.items, selected.value, i))
    && multiset(Items(rejected)) + Chosen(selected) == multiset(InScope(db.work.items, repo))
    && Explained(db, now, rejected)
  }

  /** Every reason is the one the tables give. */
  predicate Explained(db: Db, now: int, rejected: seq<Rejection>) {
    forall r | r in rejected :: r.item in db.work.items && r.why == WhyNot(db, r.item, now)
  }

  /** Sorted by the total order. */
  predicate Sorted(items: map<Id, WorkItem>, ids: seq<Id>)
    requires forall i | i in ids :: i in items
  {
    forall j, k | 0 <= j < k < |ids| :: Precedes(items, ids[j], ids[k])
  }

  lemma InsertedSorted(items: map<Id, WorkItem>, ids: seq<Id>, item: Id, k: nat)
    requires item in items && (forall i | i in ids :: i in items) && Sorted(items, ids) && k <= |ids|
    requires forall j | 0 <= j < k :: Precedes(items, ids[j], item)
    requires k < |ids| ==> !Precedes(items, ids[k], item)
    ensures forall i | i in ids[..k] + [item] + ids[k..] :: i in items
    ensures Sorted(items, ids[..k] + [item] + ids[k..])
  {
    var sorted := ids[..k] + [item] + ids[k..];
    forall j | k <= j < |ids| ensures Precedes(items, item, ids[j]) {
      PrecedesIsTotalOrder(items, item, ids[k], ids[j]);
      if k < j { assert Precedes(items, ids[k], ids[j]); }
    }
    forall i, j | 0 <= i < j < |sorted| ensures Precedes(items, sorted[i], sorted[j]) {
      if j < k || i > k { assert Precedes(items, ids[if i > k then i - 1 else i], ids[if i > k then j - 1 else j]); }
      if i < k < j { assert Precedes(items, ids[i], ids[j - 1]); }
    }
  }

  class ConductorScheduler {
    const store: ConductorStore

    constructor (store: ConductorStore)
      ensures this.store == store
    {
      this.store := store;
    }

    /** Where an item goes in a sorted list. */
    method Insert(items: map<Id, WorkItem>, ids: seq<Id>, item: Id) returns (sorted: seq<Id>)
      requires item in items && (forall i | i in ids :: i in items) && Sorted(items, ids)
      ensures multiset(sorted) == multiset(ids) + multiset{item}
      ensures forall i | i in sorted :: i in items
      ensures Sorted(items, sorted)
    {
      var k := 0;
      while k < |ids| && Precedes(items, ids[k], item)
        invariant k <= |ids|
        invariant forall j | 0 <= j < k :: Precedes(items, ids[j], item)
      {
        k := k + 1;
      }
      InsertedSorted(items, ids, item, k);
      assert ids == ids[..k] + ids[k..];
      sorted := ids[..k] + [item] + ids[k..];
    }

    method Sort(items: map<Id, WorkItem>, ids: seq<Id>) returns (sorted: seq<Id>)
      requires forall i | i in ids :: i in items
      ensures multiset(sorted) == multiset(ids)
      ensures forall i | i in sorted :: i in items
      ensures Sorted(items, sorted)
    {
      sorted := [];
      for k := 0 to |ids|
        invariant multiset(sorted) == multiset(ids[..k])
        invariant forall i | i in sorted :: i in items
        invariant Sorted(items, sorted)
      {
        assert ids[..k + 1] == ids[..k] + [ids[k]];
        sorted := Insert(items, sorted, ids[k]);
      }
      assert ids[..|ids|] == ids;
    }

    /** The first thing in the way of an item: dependencies, then the GO, then the host slot. */
    method Judge(item: Id, completed: set<Id>, now: int) returns (why: Option<Why>)
      requires item in store.items && completed == InState(store.items, Completed)
      ensures why == Obstacle(store.Tables(), item, now)
    {
      var details := store.items[item].details;
      var missing := Missing(details.dependencies, completed);
      if missing != [] { return Some(DependencyUnsatisfied(missing)); }
      var refusal := ClaimRefusal(store.WorkTables(), item, now);
      if refusal.Some? { return Some(Unauthorized(refusal.value)); }
      if NeedsHost(details.job) && Held(store.requests, HostHeavy) != {} { return Some(HostBusy(details.job)); }
      return None;
    }

    /** Split a listing into runnable items and explained rejections. */
    method Filter(listing: seq<Id>, now: int) returns (eligible: seq<Id>, rejected: seq<Rejection>)
      requires forall i | i in listing :: i in store.items
      ensures multiset(eligible) + multiset(Items(rejected)) == multiset(listing)
      ensures forall i | i in eligible :: i in store.items && Obstacle(store.Tables(), i, now).None?
      ensures Explained(store.Tables(), now, rejected)
      ensures forall r | r in rejected :: Obstacle(store.Tables(), r.item, now).Some?
    {
      eligible, rejected := [], [];
      var completed := InState(store.items, Completed);
      for k := 0 to |listing|
        invariant multiset(eligible) + multiset(Items(rejected)) == multiset(listing[..k])
        invariant forall i | i in eligible :: i in store.items && Obstacle(store.Tables(), i, now).None?
        invariant Explained(store.Tables(), now, rejected)
        invariant forall r | r in rejected :: Obstacle(store.Tables(), r.item, now).Some?
      {
        var item := listing[k];
        assert listing[..k + 1] == listing[..k] + [item];
        var why := Judge(item, completed, now);
        if why.Some? {
          RejectedItems(rejected, Rejection(item, why.value));
          rejected := rejected + [Rejection(item, why.value)];
        } else {
          eligible := eligible + [item];
        }
      }
      assert listing[..|listing|] == listing;
    }

    /** Select the next item to run; what it returns does not depend on how the store lists rows. */
    method SelectNextWorkItem(repo: Option<Id>, listing: seq<Id>, now: int)
      returns (selected: Option<Id>, rejected: seq<Rejection>)
      requires multiset(listing) == multiset(InScope(store.items, repo))
      ensures IsSelection(store.Tables(), repo, now, selected, rejected)
    {
      ListedOnce(listing, InScope(store.items, repo));
      var eligible, refused := Filter(listing, now);
      rejected := refused;
      RunnableIsEligible(store.Tables(), repo, now, listing, eligible, refused);
      if eligible == [] { return None, rejected; }
      var sorted := Sort(store.items, eligible);
      SelectedIsLeast(store.Tables(), repo, now, eligible, sorted);
      RestIsEligible(eligible, sorted);
      selected := Some(sorted[0]);
      rejected := RejectRest(sorted[1..], refused, now);
    }

    /** Runnable items that were not first are rejected too. */
    method RejectRest(rest: seq<Id>, refused: seq<Rejection>, now: int) returns (rejected: seq<Rejection>)
      requires Explained(store.Tables(), now, refused)
      requires forall i | i in rest :: i in store.items && Obstacle(store.Tables(), i, now).None?
      ensures multiset(Items(rejected)) == multiset(Items(refused)) + multiset(rest)
      ensures Explained(store.Tables(), now, rejected)
    {
      rejected := refused;
      for k := 0 to |rest|
        invariant multiset(Items(rejected)) == multiset(Items(refused)) + multiset(rest[..k])
        invariant Explained(store.Tables(), now, rejected)
      {
        assert rest[..k + 1] == rest[..k] + [rest[k]];
        RejectedItems(rejected, Rejection(rest[k], LowerSchedulerPriority));
        rejected := rejected + [Rejection(rest[k], LowerSchedulerPriority)];
      }
      assert rest[..|rest|] == rest;
    }
  }

  lemma RestIsEligible(eligible: seq<Id>, sorted: seq<Id>)
    requires multiset(sorted) == multiset(eligible) && eligible != []
    ensures sorted != [] && multiset(sorted) == multiset{sorted[0]} + multiset(sorted[1..])
    ensures forall i | i in sorted[1..] :: i in eligible
  {
    assert eligible[0] in multiset(eligible) && eligible[0] in multiset(sorted);
    assert sorted == [sorted[0]] + sorted[1..];
    forall i | i in sorted[1..] ensures i in eligible {
      assert i in multiset(sorted);
    }
  }

  lemma SelectedIsLeast(db: Db, repo: Option<Id>, now: int, eligible: seq<Id>, sorted: seq<Id>)
    requires forall i :: i in eligible <==> Runnable(db, repo, now, i)
    requires multiset(sorted) == multiset(eligible) && eligible != []
    requires (forall i | i in sorted :: i in db.work.items) && Sorted(db.work.items, sorted)
    ensures sorted != [] && Runnable(db, repo, now, sorted[0])
    ensures forall i | i in InScope(db.work.items, repo) && Runnable(db, repo, now, i) ::
              Precedes(db.work.items, sorted[0], i)
  {
    RestIsEligible(eligible, sorted);
    assert sorted[0] in multiset(sorted);
    forall i | i in InScope(db.work.items, repo) && Runnable(db, repo, now, i)
      ensures Precedes(db.work.items, sorted[0], i)
    {
      assert i in multiset(eligible) && i in multiset(sorted);
      var k :| 0 <= k < |sorted| && sorted[k] == i;
      PrecedesIsTotalOrder(db.work.items, i, i, i);
    }
  }

  lemma RejectedItems(rejected: seq<Rejection>, r: Rejection)
    ensures Items(rejected + [r]) == Items(rejected) + [r.item]
  {
  }

  lemma ListedOnce(listing: seq<Id>, ids: set<Id>)
    requires multiset(listing) == multiset(ids)
    ensures forall i :: i in listing <==> i in ids
  {
    forall i ensures i in listing <==> i in ids {
      assert i in multiset(listing) <==> i in multiset(ids);
    }
  }

  lemma RunnableIsEligible(db: Db, repo: Option<Id>, now: int, listing: seq<Id>, eligible: seq<Id>,
                           rejected: seq<Rejection>)
    requires multiset(listing) == multiset(InScope(db.work.items, repo))
    requires multiset(eligible) + multiset(Items(rejected)) == multiset(listing)
    requires forall i | i in eligible :: i in db.work.items && Obstacle(db, i, now).None?
    requires forall r | r in rejected :: r.item in db.work.items && Obstacle(db, r.item, now).Some?
    ensures forall i :: i in eligible <==> Runnable(db, repo, now, i)
  {
    forall i ensures i in eligible <==> Runnable(db, repo, now, i) {
      assert i in eligible ==> i in multiset(listing) && i in multiset(InScope(db.work.items, repo));
      if Runnable(db, repo, now, i) {
        assert i in multiset(InScope(db.work.items, repo)) && i in multiset(listing);
        if i in Items(rejected) {
          var k :| 0 <= k < |rejected| && Items(rejected)[k] == i;
          assert rejected[k] in rejected;
        }
      }
    }
  }

  // ---- what the selection is worth ----

  lemma {:induction false} ReasonsFollowItems(db: Db, now: int, rejected: seq<Rejection>, r: Rejection)
    requires Explained(db, now, rejected)
    ensures multiset(rejected)[r] ==
            if r.item in db.work.items && r.why == WhyNot(db, r.item, now) then multiset(Items(rejected))[r.item] else 0
  {
    if rejected != [] {
      var last := |rejected| - 1;
      var rest := rejected[..last];
      assert rejected == rest + [rejected[last]];
      assert forall x | x in rest :: x in rejected;
      ReasonsFollowItems(db, now, rest, r);
      RejectedItems(rest, rejected[last]);
      assert rejected[last] in rejected;
    }
  }

  /** The answer is determined by the tables: whatever order rows are listed in, the same item is
      selected and the same rejections are reported. */
  lemma SelectionIsDetermined(db: Db, repo: Option<Id>, now: int, s: Option<Id>, r: seq<Rejection>,
                              t: Option<Id>, q: seq<Rejection>)
    requires IsSelection(db, repo, now, s, r) && IsSelection(db, repo, now, t, q)
    ensures s == t && multiset(r) == multiset(q)
  {
    if s.Some? && t.Some? { PrecedesIsTotalOrder(db.work.items, s.value, t.value, t.value); }
    forall x: Rejection ensures multiset(r)[x] == multiset(q)[x] {
      ReasonsFollowItems(db, now, r, x);
      ReasonsFollowItems(db, now, q, x);
      var all := multiset(InScope(db.work.items, repo));
      assert (multiset(Items(r)) + Chosen(s))[x.item] == all[x.item];
      assert (multiset(Items(q)) + Chosen(t))[x.item] == all[x.item];
    }
  }

  /** A selected item passes the claim path's checks at the same instant, and its dependencies
      are complete; so a claim made now succeeds. */
  lemma SelectedMayBeClaimed(db: Db, repo: Option<Id>, now: int, selected: Option<Id>, rejected: seq<Rejection>,
                             dep: Id)
    requires IsSelection(db, repo, now, selected, rejected) && selected.Some?
    ensures selected.value in db.work.items && db.work.items[selected.value].state == Ready
    ensures ClaimRefusal(db.work, selected.value, now).None?
    ensures dep in db.work.items[selected.value].details.dependencies ==>
              dep in db.work.items && db.work.items[dep].state == Completed
  {
    NothingMissing(db.work.items[selected.value].details.dependencies, InState(db.work.items, Completed), dep);
  }

  lemma {:induction false} NothingMissing(dependencies: seq<Id>, completed: set<Id>, dep: Id)
    ensures dep in Missing(dependencies, completed) <==> dep in dependencies && dep !in completed
  {
    if dependencies != [] {
      NothingMissing(dependencies[1..], completed, dep);
      assert dependencies == [dependencies[0]] + dependencies[1..];
    }
  }
}
