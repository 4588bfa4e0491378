/** What the scheduler selects and how it explains the rest, said of the rows. */
module SchedulerAnswers {
  import opened Collections
  import opened HostModel
  import opened ConductorModel
  import opened Commands
  import opened Store
  import opened Scheduler
  import opened ClaimAnswers
  import opened HostAnswers

  predicate Waits(db: Db, repo: Option<Id>, item: Id) {
    && item in db.work.items && db.work.items[item].state == Ready
    && (repo.None? || repo == Some(db.work.items[item].details.repo))
  }

  predicate Done(db: Db, dep: Id) { dep in db.work.items && db.work.items[dep].state == Completed }

  predicate AllDone(db: Db, item: Id)
    requires item in db.work.items
  {
    forall dep | dep in db.work.items[item].details.dependencies :: Done(db, dep)
  }

  /** No GO is needed, or the latest one stands. */
  ghost predicate Cleared(db: Db, item: Id, now: int)
    requires item in db.work.items
  {
    db.work.items[item].details.risk in {R0, R1} || Says(db.work, item, now, None)
  }

  /** A test run needs the host pool, and something runs or is fenced there. */
  predicate KeptOffHost(db: Db, item: Id)
    requires item in db.work.items
  {
    db.work.items[item].details.job in {PytestFull, PytestHeavy} && Occupants(db.host, HostHeavy) != {}
  }

  ghost predicate CouldStart(db: Db, item: Id, now: int)
    requires item in db.work.items
  {
    AllDone(db, item) && Cleared(db, item, now) && !KeptOffHost(db, item)
  }

  predicate MoreSevere(a: RiskClass, b: RiskClass) {
    match a
    case R3 => b != R3
    case R2 => b == R1 || b == R0
    case R1 => b == R0
    case R0 => false
  }

  /** Higher priority; then greater risk, then older, then the lesser id. */
  predicate ComesFirst(items: map<Id, WorkItem>, x: Id, y: Id)
    requires x in items && y in items
  {
    var a, b := items[x].details, items[y].details;
    || a.priority > b.priority
    || (a.priority == b.priority && MoreSevere(a.risk, b.risk))
    || (a.priority == b.priority && a.risk == b.risk && a.createdAt < b.createdAt)
    || (a.priority == b.priority && a.risk == b.risk && a.createdAt == b.createdAt && x < y)
  }

  /** The reason owed to an item that was not selected: the dependencies that are not complete, what the
      latest GO says, the host pool, or else that another item came first. */
  ghost predicate Owed(db: Db, item: Id, now: int, why: Why)
    requires item in db.work.items
  {
    var details := db.work.items[item].details;
    match why
    case DependencyUnsatisfied(missing) =>
      missing != [] && forall dep :: dep in missing <==> dep in details.dependencies && !Done(db, dep)
    case Unauthorized(reason) =>
      AllDone(db, item) && details.risk in {R2, R3} && Says(db.work, item, now, Some(reason))
    case HostBusy(job) =>
      AllDone(db, item) && Cleared(db, item, now) && KeptOffHost(db, item) && job == details.job
    case LowerSchedulerPriority => CouldStart(db, item, now)
  }

  lemma LatestIsOne(auths: seq<Authorization>, item: Id, j: int, k: int)
    requires Latest(auths, item, j) && Latest(auths, item, k)
    ensures j == k
  {
  }

  /** The latest GO says one thing. */
  lemma SaysOneThing(work: Work, item: Id, now: int, a: Option<Reason>, b: Option<Reason>)
    requires item in work.items && Says(work, item, now, a) && Says(work, item, now, b)
    ensures a == b
  {
    if exists k :: 0 <= k < |work.authorizations| && work.authorizations[k].item == item {
      var j :| Latest(work.authorizations, item, j);
      forall k | Latest(work.authorizations, item, k) ensures k == j {
        LatestIsOne(work.authorizations, item, j, k);
      }
    }
  }

  lemma DependenciesDone(db: Db, item: Id)
    requires item in db.work.items
    ensures var missing := Missing(db.work.items[item].details.dependencies, InState(db.work.items, Completed));
            && (forall dep ::
                  dep in missing <==> dep in db.work.items[item].details.dependencies && !Done(db, dep))
            && (missing == [] <==> AllDone(db, item))
  {
    var details := db.work.items[item].details;
    var missing := Missing(details.dependencies, InState(db.work.items, Completed));
    forall dep ensures dep in missing <==> dep in details.dependencies && !Done(db, dep) {
      NothingMissing(details.dependencies, InState(db.work.items, Completed), dep);
    }
    if missing != [] { assert missing[0] in missing; }
  }

  /** What is said of an item is owed to it, and nothing else is. */
  lemma WhyNotIsOwed(db: Db, item: Id, now: int, why: Why)
    requires item in db.work.items && why == WhyNot(db, item, now)
    ensures Owed(db, item, now, why)
    ensures Obstacle(db, item, now).None? <==> CouldStart(db, item, now)
  {
    DependenciesDone(db, item);
    ClaimRefusalSays(db.work, item, now);
    SameRoom(db.host, HostHeavy, None);
    if Says(db.work, item, now, None) && db.work.items[item].details.risk in {R2, R3} {
      SaysOneThing(db.work, item, now, None, ClaimRefusal(db.work, item, now));
    }
  }

  lemma OrderSpelledOut(items: map<Id, WorkItem>, x: Id, y: Id)
    requires x in items && y in items
    ensures Precedes(items, x, y) <==> x == y || ComesFirst(items, x, y)
  {
  }

  lemma RunnableCouldStart(db: Db, repo: Option<Id>, now: int, i: Id)
    ensures Runnable(db, repo, now, i) <==> Waits(db, repo, i) && CouldStart(db, i, now)
  {
    if i in db.work.items { WhyNotIsOwed(db, i, now, WhyNot(db, i, now)); }
  }

  /** The selected item waits in scope, could start now, and comes first among all that could; there is
      one unless nothing could. */
  lemma SelectionAnswers(db: Db, repo: Option<Id>, now: int, selected: Option<Id>, rejected: seq<Rejection>, i: Id)
    requires IsSelection(db, repo, now, selected, rejected)
    ensures selected.Some? ==> Waits(db, repo, selected.value) && CouldStart(db, selected.value, now)
    ensures Waits(db, repo, i) && CouldStart(db, i, now) ==>
              selected.Some? && (i == selected.value || ComesFirst(db.work.items, selected.value, i))
  {
    RunnableCouldStart(db, repo, now, i);
    if selected.Some? {
      RunnableCouldStart(db, repo, now, selected.value);
      if i in db.work.items { OrderSpelledOut(db.work.items, selected.value, i); }
    }
  }

  /** Every other item that waits in scope is rejected once, none besides, each for the reason owed. */
  lemma RejectionAnswers(db: Db, repo: Option<Id>, now: int, selected: Option<Id>, rejected: seq<Rejection>, i: Id)
    requires IsSelection(db, repo, now, selected, rejected)
    ensures multiset(Items(rejected))[i] == if Waits(db, repo, i) && selected != Some(i) then 1 else 0
    ensures forall r | r in rejected && r.item == i :: i in db.work.items && Owed(db, i, now, r.why)
  {
    var all := multiset(InScope(db.work.items, repo));
    assert (multiset(Items(rejected)) + Scheduler.Chosen(selected))[i] == all[i];
    assert i in InScope(db.work.items, repo) <==> Waits(db, repo, i);
    forall r | r in rejected && r.item == i ensures i in db.work.items && Owed(db, i, now, r.why) {
      WhyNotIsOwed(db, i, now, r.why);
    }
  }
}
