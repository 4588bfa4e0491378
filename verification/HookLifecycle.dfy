/** Installing and uninstalling the hook block, and how install, status and uninstall agree
    (scripts/hooks_install.py). */
module HookLifecycle {
  import opened Collections
  import opened HookCommands
  import opened HookSettings
  import opened HookMergeProof
  import opened HookInstaller

  const EMPTY := Settings(Missing, 0)

  /** What an uninstall may remove: the recorded commands, each under its recorded event. */
  function OwnedBy(sidecar: Sidecar): set<(string, string)> {
    set r | r in sidecar.entries :: (r.event, r.command)
  }

  function OwnedAt(owned: set<(string, string)>, event: string): string -> bool { c => (event, c) in owned }

  function KeptAt(events: map<string, EventValue>, owned: set<(string, string)>, event: string): seq<Group> {
    if event in events then KeepGroups(Iterated(events[event]), OwnedAt(owned, event)) else []
  }

  /** An event left with no group is removed, whether or not anything in it was owned. */
  function Uninstalled(s: Settings, owned: set<(string, string)>): Settings {
    if !s.hooks.Events? then s
    else
      s.(hooks := Events(KeptEvents(s.hooks.events, owned, s.hooks.events.Keys)))
  }

  /** The same document without empty groups and empty events. */
  function Tidied(s: Settings): Settings { Uninstalled(s, {}) }

  predicate AllWalkable(s: Settings) { Walkable(s, EventsOf(s).Keys) }

  /** Python cannot iterate over the value of some event. */
  predicate Uniterable(s: Settings) {
    exists e :: e in EventsOf(s) && EventsOf(s)[e].NotArray? && EventsOf(s)[e].iterated.None?
  }

  /** How many handlers uninstall removes from the listed events. */
  function Removals(events: map<string, EventValue>, owned: set<(string, string)>, order: seq<string>): nat {
    if order == [] then 0
    else
      var last := order[|order| - 1];
      Removals(events, owned, order[..|order| - 1])
      + (if last in events then |Doomed(Flat(Iterated(events[last])), OwnedAt(owned, last))| else 0)
  }

  /** The keys of a document, each once, in some order. */
  predicate Lists(order: seq<string>, keys: set<string>) {
    && (forall e :: e in order ==> e in keys) && (forall e | e in keys :: e in order)
    && forall i, j | 0 <= i < j < |order| :: order[i] != order[j]
  }

  /** The events kept once some of them have been gone through. */
  function KeptEvents(events: map<string, EventValue>, owned: set<(string, string)>,
                      done: set<string>): map<string, EventValue>
  {
    map e | e in events && e in done && KeptAt(events, owned, e) != [] :: Groups(KeptAt(events, owned, e))
  }

  predicate NoHits(items: seq<Item>, doomed: string -> bool) {
    forall k | 0 <= k < |items| :: !Hit(items[k], doomed)
  }

  datatype Refusal = MissingScripts | BadSettings(error: SettingsError)

  datatype InstallOutcome = Refused(why: Refusal) | Raised | DryRun | NoOp | Applied | Died

  datatype UninstallOutcome = NothingOwned | Crashed | Previewed(removed: nat) | Removed(removed: nat, partial: bool)

  class ClaudeHome {
    const site: Site
    var settings: Option<Settings>
    var sidecar: Option<Sidecar>
    var backups: seq<Settings>

    constructor (site: Site, settings: Option<Settings>)
      ensures this.site == site && this.settings == settings && sidecar == None && backups == []
    {
      this.site, this.settings, sidecar, backups := site, settings, None, [];
    }

    function Loaded(): Settings
      reads this`settings
    {
      if settings.Some? then settings.value else EMPTY
    }

    function Current(disk: Disk, reconcile: bool): Context
      reads this`sidecar
    {
      ContextOf(site, sidecar, disk, reconcile)
    }

    /** Backup, pending sidecar, settings, final sidecar: the process may die after any number of
        these writes. Whatever stops an install before the first of them leaves the home alone. */
    method Install(disk: Disk, apply: bool, reconcile: bool, writes: nat)
      returns (outcome: InstallOutcome, collisions: seq<(string, string)>)
      modifies this
      ensures !outcome.Applied? && !outcome.Died? ==>
                settings == old(settings) && sidecar == old(sidecar) && backups == old(backups)
      ensures outcome == Refused(MissingScripts) <==> exists e :: e in disk.entries && e.script !in disk.scripts
      ensures outcome.Refused? <==>
                (exists e :: e in disk.entries && e.script !in disk.scripts)
                || Merge(old(Loaded()), disk.entries, old(Current(disk, reconcile))).Err?
      ensures outcome == Raised <==> !outcome.Refused? && !AllWalkable(old(Loaded()))
      ensures outcome == DryRun <==> !outcome.Refused? && !outcome.Raised? && !apply
      ensures !outcome.Refused? && !outcome.Raised? ==>
                && Mergeable(old(Loaded()), disk.entries)
                && (collisions == [] <==> NoCollision(old(Loaded()), disk.entries, old(Current(disk, reconcile))))
      ensures outcome == NoOp <==>
                && !outcome.Refused? && !outcome.Raised? && apply
                && old(settings) == Some(Merged(old(Loaded()), disk.entries, old(Current(disk, reconcile))))
                && old(sidecar).Some? && !old(sidecar).value.pending && old(sidecar).value.digest == disk.digest
      ensures outcome == Applied ==>
                && settings == Some(Merged(old(Loaded()), disk.entries, old(Current(disk, reconcile))))
                && sidecar == Some(NewSidecar(disk, old(Current(disk, reconcile)), false))
                && backups == old(backups) + [old(Loaded())]
      ensures outcome in {Applied, Died} ==> (outcome == Died <==> writes < 4)
      ensures outcome == Died ==>
                && settings == (if writes < 3 then old(settings)
                                else Some(Merged(old(Loaded()), disk.entries, old(Current(disk, reconcile)))))
                && sidecar == (if writes < 2 then old(sidecar)
                               else Some(NewSidecar(disk, old(Current(disk, reconcile)), true)))
                && backups == (if writes < 1 then old(backups) else old(backups) + [old(Loaded())])
    {
      collisions := [];
      var missing := FindMissing(disk);
      if missing { return Refused(MissingScripts), []; }
      var before := Loaded();
      var ctx := Current(disk, reconcile);
      var merged := MergeHooks(before, disk.entries, ctx);
      if merged.Err? { return Refused(BadSettings(merged.error)), []; }
      var raised;
      raised, collisions := ComputeCollisions(before, disk.entries, ctx);
      if raised { return Raised, []; }
      raised := Diff(before, merged.value);
      MergeKeepsWalkable(before, disk.entries, ctx);
      if raised { return Raised, []; }
      if !apply { return DryRun, collisions; }
      if settings == Some(merged.value) && sidecar.Some? && !sidecar.value.pending
          && sidecar.value.digest == disk.digest {
        return NoOp, collisions;
      }
      outcome := Commit(merged.value, NewSidecar(disk, ctx, true), writes);
    }

    /** Comparing the documents before and after walks every event of both, and every group. */
    method Diff(before: Settings, after: Settings) returns (raised: bool)
      ensures raised <==> !AllWalkable(before) || !AllWalkable(after)
    {
      raised := WalkAll(before);
      if !raised { raised := WalkAll(after); }
    }

    method WalkAll(s: Settings) returns (raised: bool)
      ensures raised <==> !AllWalkable(s)
    {
      var left := EventsOf(s).Keys;
      while left != {}
        invariant left <= EventsOf(s).Keys && Walkable(s, EventsOf(s).Keys - left)
        decreases left
      {
        var event :| event in left;
        if !EventWalkable(EventsOf(s)[event]) { return true; }
        left := left - {event};
      }
      raised := false;
    }

    method Commit(after: Settings, pending: Sidecar, writes: nat) returns (outcome: InstallOutcome)
      modifies this
      ensures outcome == if writes < 4 then Died else Applied
      ensures backups == if writes < 1 then old(backups) else old(backups) + [old(Loaded())]
      ensures settings == if writes < 3 then old(settings) else Some(after)
      ensures sidecar == if writes < 2 then old(sidecar)
              else Some(if writes < 4 then pending else pending.(pending := false))
    {
      if writes == 0 { return Died; }
      backups := backups + [Loaded()];
      if writes == 1 { return Died; }
      sidecar := Some(pending);
      if writes == 2 { return Died; }
      settings := Some(after);
      if writes == 3 { return Died; }
      sidecar := Some(pending.(pending := false));
      outcome := Applied;
    }

    method FindMissing(disk: Disk) returns (missing: bool)
      ensures missing <==> exists e :: e in disk.entries && e.script !in disk.scripts
    {
      missing := false;
      for k := 0 to |disk.entries|
        invariant missing <==> exists i :: 0 <= i < k && disk.entries[i].script !in disk.scripts
      {
        if disk.entries[k].script !in disk.scripts { missing := true; }
      }
    }

    /** Drop owned handlers from one event's groups. */
    method KeepUnowned(groups: seq<Group>, event: string, owned: set<(string, string)>)
      returns (kept: seq<Group>, removed: nat)
      ensures kept == KeepGroups(groups, OwnedAt(owned, event))
      ensures removed == |Doomed(Flat(groups), OwnedAt(owned, event))|
    {
      kept, removed := [], 0;
      ghost var doomed := OwnedAt(owned, event);
      for k := 0 to |groups|
        invariant kept == KeepGroups(groups[..k], doomed)
        invariant removed == |Doomed(Flat(groups[..k]), doomed)|
      {
        var g := groups[k];
        assert groups[..k + 1] == groups[..k] + [g];
        OneMoreGroup(groups[..k], g, doomed);
        if g.Malformed? {
          kept := kept + [g];
          continue;
        }
        var handlers, hits := KeepUnownedHandlers(g, event, owned);
        removed := removed + hits;
        if handlers != [] { kept := kept + [g.(handlers := handlers)]; }
      }
      assert groups[..|groups|] == groups;
    }

    method KeepUnownedHandlers(g: Group, event: string, owned: set<(string, string)>)
      returns (handlers: seq<Handler>, removed: nat)
      requires g.Group?
      ensures handlers == KeepHandlers(g.handlers, OwnedAt(owned, event))
      ensures removed == |Doomed(FlatGroup(g), OwnedAt(owned, event))|
    {
      handlers, removed := [], 0;
      ghost var doomed := OwnedAt(owned, event);
      for i := 0 to |g.handlers|
        invariant handlers == KeepHandlers(g.handlers[..i], doomed)
        invariant removed == |Doomed(FlatGroup(g)[..i], doomed)|
      {
        var h := g.handlers[i];
        assert g.handlers[..i + 1] == g.handlers[..i] + [h];
        KeepHandlersAppend(g.handlers[..i], [h], doomed);
        assert KeepHandlers([h], doomed) == if doomed(CommandOf(h)) then [] else [h];
        var item := Handled(g.matcher, g.extra, h);
        assert FlatGroup(g)[..i + 1] == FlatGroup(g)[..i] + [item];
        DoomedAppend(FlatGroup(g)[..i], [item], doomed);
        OneItem(item, doomed);
        if (event, CommandOf(h)) in owned { removed := removed + 1; } else { handlers := handlers + [h]; }
      }
      assert g.handlers[..|g.handlers|] == g.handlers && FlatGroup(g)[..|g.handlers|] == FlatGroup(g);
    }

    /** Drop owned handlers event by event. */
    method DropOwned(before: Settings, owned: set<(string, string)>)
      returns (after: Settings, removed: nat, crashed: bool, ghost order: seq<string>)
      ensures crashed <==> Uniterable(before)
      ensures !crashed ==> after == Uninstalled(before, owned)
      ensures !crashed ==> Lists(order, EventsOf(before).Keys) && removed == Removals(EventsOf(before), owned, order)
    {
      after, removed, crashed, order := before, 0, false, [];
      if !before.hooks.Events? { return; }
      var events := before.hooks.events;
      var kept: map<string, EventValue> := map[];
      var left, done := events.Keys, {};
      while left != {}
        invariant left + done == events.Keys && left !! done
        invariant forall e | e in done :: !(events[e].NotArray? && events[e].iterated.None?)
        invariant kept == KeptEvents(events, owned, done)
        invariant Lists(order, done) && removed == Removals(events, owned, order)
        decreases left
      {
        var event :| event in left;
        if events[event].NotArray? && events[event].iterated.None? {
          assert event in EventsOf(before) && EventsOf(before)[event].NotArray?;
          return before, 0, true, [];
        }
        var groups, hits := KeepUnowned(Iterated(events[event]), event, owned);
        KeepOneMore(events, owned, done, event);
        if groups != [] { kept := kept[event := Groups(groups)]; }
        OneMoreListed(order, done, event);
        order := order + [event];
        removed := removed + hits;
        left, done := left - {event}, done + {event};
      }
      assert done == events.Keys;
      after := before.(hooks := Events(kept));
    }

    /** Remove what the sidecar says was installed, and forget it. */
    method Uninstall(apply: bool) returns (outcome: UninstallOutcome, ghost order: seq<string>)
      modifies this`settings, this`sidecar
      ensures outcome.NothingOwned? <==> old(sidecar).None? || old(sidecar).value.entries == []
      ensures outcome.Crashed? <==> !outcome.NothingOwned? && Uniterable(old(Loaded()))
      ensures outcome.Removed? <==> !outcome.NothingOwned? && !outcome.Crashed? && apply
      ensures !outcome.Removed? ==> settings == old(settings) && sidecar == old(sidecar)
      ensures outcome.Removed? || outcome.Previewed? ==>
                && Lists(order, EventsOf(old(Loaded())).Keys)
                && outcome.removed == Removals(EventsOf(old(Loaded())), OwnedBy(old(sidecar).value), order)
      ensures outcome.Removed? ==>
                && sidecar == None
                && (outcome.partial <==> outcome.removed < |old(sidecar).value.entries|)
                && settings == (if outcome.removed > 0
                                then Some(Uninstalled(old(Loaded()), OwnedBy(old(sidecar).value))) else old(settings))
    {
      if sidecar.None? || sidecar.value.entries == [] { return NothingOwned, []; }
      var after, removed, crashed;
      after, removed, crashed, order := DropOwned(Loaded(), OwnedBy(sidecar.value));
      if crashed { return Crashed, []; }
      var partial := removed < |sidecar.value.entries|;
      if !apply { return Previewed(removed), order; }
      if removed > 0 { settings := Some(after); }
      sidecar := None;
      outcome := Removed(removed, partial);
    }
  }

  lemma KeepOneMore(events: map<string, EventValue>, owned: set<(string, string)>, done: set<string>, event: string)
    requires event in events && event !in done
    ensures KeptEvents(events, owned, done + {event}) ==
            if KeptAt(events, owned, event) == [] then KeptEvents(events, owned, done)
            else KeptEvents(events, owned, done)[event := Groups(KeptAt(events, owned, event))]
  {
  }

  lemma OneMoreGroup(groups: seq<Group>, g: Group, doomed: string -> bool)
    ensures KeepGroups(groups + [g], doomed) == KeepGroups(groups, doomed) + KeepGroup(g, doomed)
    ensures Doomed(Flat(groups + [g]), doomed) == Doomed(Flat(groups), doomed) + Doomed(FlatGroup(g), doomed)
  {
    KeepGroupsAppend(groups, [g], doomed);
    FlatAppend(groups, [g]);
    assert [g][1..] == [];
    assert Flat([g]) == FlatGroup(g);
    DoomedAppend(Flat(groups), FlatGroup(g), doomed);
  }

  lemma OneMoreListed(order: seq<string>, done: set<string>, event: string)
    requires Lists(order, done) && event !in done
    ensures Lists(order + [event], done + {event})
    ensures (order + [event])[..|order|] == order
  {
  }

  lemma NoHitsAppend(a: seq<Item>, b: seq<Item>, doomed: string -> bool)
    ensures NoHits(a + b, doomed) <==> NoHits(a, doomed) && NoHits(b, doomed)
  {
    assert forall k | 0 <= k < |a| :: (a + b)[k] == a[k];
    assert forall k | 0 <= k < |b| :: (a + b)[|a| + k] == b[k];
  }

  // ---- uninstall undoes install ----

  lemma {:induction false} SurvivingLength(items: seq<Item>, doomed: string -> bool)
    ensures |Surviving(items, doomed)| <= |items|
    ensures NoHits(items, doomed) <==> |Surviving(items, doomed)| == |items|
    ensures NoHits(items, doomed) ==> Surviving(items, doomed) == items
  {
    if items != [] {
      SurvivingLength(items[1..], doomed);
      assert items == [items[0]] + items[1..];
      NoHitsAppend([items[0]], items[1..], doomed);
      assert NoHits([items[0]], doomed) <==> !Hit([items[0]][0], doomed);
    }
  }

  lemma {:induction false} KeepUnhitHandlers(handlers: seq<Handler>, a: string -> bool, b: string -> bool)
    requires forall k | 0 <= k < |handlers| :: !a(CommandOf(handlers[k])) && !b(CommandOf(handlers[k]))
    ensures KeepHandlers(handlers, a) == KeepHandlers(handlers, b) == handlers
  {
    if handlers != [] { KeepUnhitHandlers(handlers[1..], a, b); }
  }

  lemma {:induction false} KeepUnhit(groups: seq<Group>, a: string -> bool, b: string -> bool)
    requires NoHits(Flat(groups), a) && NoHits(Flat(groups), b)
    ensures KeepGroups(groups, a) == KeepGroups(groups, b)
  {
    if groups != [] {
      var g := groups[0];
      NoHitsAppend(FlatGroup(g), Flat(groups[1..]), a);
      NoHitsAppend(FlatGroup(g), Flat(groups[1..]), b);
      KeepUnhit(groups[1..], a, b);
      if g.Group? {
        forall k | 0 <= k < |g.handlers| ensures !a(CommandOf(g.handlers[k])) && !b(CommandOf(g.handlers[k])) {
          assert !Hit(FlatGroup(g)[k], a) && !Hit(FlatGroup(g)[k], b);
        }
        KeepUnhitHandlers(g.handlers, a, b);
      }
    }
  }

  /** Dropping ours and then what is owned leaves the tidied groups exactly when there was neither. */
  lemma DropTwiceIsTidy(groups: seq<Group>, ours: string -> bool, owned: string -> bool, never: string -> bool)
    requires forall c :: !never(c)
    ensures KeepGroups(KeepGroups(groups, ours), owned) == KeepGroups(groups, never) <==>
            NoHits(Flat(groups), ours) && NoHits(Flat(groups), owned)
  {
    var items := Flat(groups);
    var once := KeepGroups(groups, ours);
    FlatKeep(groups, ours);
    FlatKeep(once, owned);
    FlatKeep(groups, never);
    SurvivingLength(items, never);
    SurvivingLength(items, ours);
    SurvivingLength(Flat(once), owned);
    if NoHits(items, ours) {
      if NoHits(items, owned) {
        KeepUnhit(groups, ours, never);
        KeepUnhit(once, owned, never);
        KeepGroupsTwice(groups, never);
      }
    }
  }

  /** What uninstall goes through at an event. */
  function HeldAt(s: Settings, event: string): seq<Group> {
    if event in EventsOf(s) then Iterated(EventsOf(s)[event]) else []
  }

  /** No handler of the document is taken for ours, or is one the install would record. */
  ghost predicate Untouched(s: Settings, entries: seq<Entry>, ctx: Context, owned: set<(string, string)>) {
    forall e | e in EventsOf(s) ::
      && NoHits(Flat(HeldAt(s, e)), OwnedAt(owned, e))
      && (e in ManagedEvents(entries) ==> NoHits(Flat(HeldAt(s, e)), Ours(entries, ctx)))
  }

  lemma RecordedIsOwned(disk: Disk, ctx: Context, e: Entry)
    requires e in disk.entries
    ensures (e.event, Rendered(e, ctx)) in OwnedBy(NewSidecar(disk, ctx, false))
  {
    var k :| 0 <= k < |disk.entries| && disk.entries[k] == e;
    assert Record(disk.entries, ctx)[k] in Record(disk.entries, ctx);
  }

  lemma AllCanonicalOwned(disk: Disk, ctx: Context, event: string)
    ensures KeepGroups(CanonicalGroups(disk.entries, event, ctx),
                       OwnedAt(OwnedBy(NewSidecar(disk, ctx, false)), event)) == []
  {
    var owned := OwnedAt(OwnedBy(NewSidecar(disk, ctx, false)), event);
    forall k | 0 <= k < |disk.entries| && disk.entries[k].event == event ensures owned(Rendered(disk.entries[k], ctx)) {
      RecordedIsOwned(disk, ctx, disk.entries[k]);
    }
    KeepCanonical(disk.entries, event, ctx, owned);
  }

  lemma UninstalledAt(s: Settings, disk: Disk, ctx: Context, event: string)
    requires Mergeable(s, disk.entries) && event in ManagedEvents(disk.entries)
    ensures var owned := OwnedBy(NewSidecar(disk, ctx, false));
            KeptAt(EventsOf(Merged(s, disk.entries, ctx)), owned, event) == KeptAt(EventsOf(s), {}, event) <==>
            && NoHits(Flat(HeldAt(s, event)), Ours(disk.entries, ctx))
            && NoHits(Flat(HeldAt(s, event)), OwnedAt(owned, event))
  {
    var owned := OwnedBy(NewSidecar(disk, ctx, false));
    var groups := HeldAt(s, event);
    var ours := Ours(disk.entries, ctx);
    KeepGroupsAppend(KeepGroups(groups, ours), CanonicalGroups(disk.entries, event, ctx), OwnedAt(owned, event));
    AllCanonicalOwned(disk, ctx, event);
    DropTwiceIsTidy(groups, ours, OwnedAt(owned, event), OwnedAt({}, event));
  }

  lemma UninstalledElsewhere(s: Settings, disk: Disk, ctx: Context, event: string)
    requires Mergeable(s, disk.entries) && event !in ManagedEvents(disk.entries)
    ensures var owned := OwnedBy(NewSidecar(disk, ctx, false));
            KeptAt(EventsOf(Merged(s, disk.entries, ctx)), owned, event) == KeptAt(EventsOf(s), {}, event) <==>
            NoHits(Flat(HeldAt(s, event)), OwnedAt(owned, event))
  {
    var owned := OwnedBy(NewSidecar(disk, ctx, false));
    var never := OwnedAt({}, event);
    var groups := HeldAt(s, event);
    if event in EventsOf(s) {
      DropTwiceIsTidy(groups, never, OwnedAt(owned, event), never);
      FlatKeep(groups, never);
      SurvivingLength(Flat(groups), never);
      FlatKeep(groups, OwnedAt(owned, event));
      SurvivingLength(Flat(groups), OwnedAt(owned, event));
      if NoHits(Flat(groups), OwnedAt(owned, event)) { KeepUnhit(groups, OwnedAt(owned, event), never); }
    }
  }

  lemma SameKept(a: Settings, b: Settings, owned: set<(string, string)>)
    requires a.hooks.Events?
    ensures EventsOf(Uninstalled(a, owned)) == EventsOf(Tidied(b)) <==>
            forall e | e in EventsOf(a).Keys + EventsOf(b).Keys ::
              KeptAt(EventsOf(a), owned, e) == KeptAt(EventsOf(b), {}, e)
  {
    var x, y := EventsOf(Uninstalled(a, owned)), EventsOf(Tidied(b));
    assert forall e :: e in x <==> KeptAt(EventsOf(a), owned, e) != [];
    assert forall e :: e in y <==> KeptAt(EventsOf(b), {}, e) != [];
    if x == y {
      forall e ensures KeptAt(EventsOf(a), owned, e) == KeptAt(EventsOf(b), {}, e) {
        if e in x { assert x[e] == y[e]; }
      }
    }
  }

  /** Uninstalling right after an install gives the original document back, up to empty groups,
      empty events and the hooks object, exactly when the original held nothing of ours: no
      handler taken for managed, and none that equals a recorded one. Install itself stops on an
      event that cannot be iterated; on any other document the uninstall goes through. */
  lemma UninstallUndoesInstall(s: Settings, disk: Disk, ctx: Context)
    requires Mergeable(s, disk.entries) && !Uniterable(s)
    ensures !Uniterable(Merged(s, disk.entries, ctx))
    ensures var owned := OwnedBy(NewSidecar(disk, ctx, false));
            var after := Uninstalled(Merged(s, disk.entries, ctx), owned);
            && after.rest == s.rest
            && (EventsOf(after) == EventsOf(Tidied(s)) <==> Untouched(s, disk.entries, ctx, owned))
  {
    var owned := OwnedBy(NewSidecar(disk, ctx, false));
    var merged := Merged(s, disk.entries, ctx);
    forall e ensures KeptAt(EventsOf(merged), owned, e) == KeptAt(EventsOf(s), {}, e) <==>
                     && NoHits(Flat(HeldAt(s, e)), OwnedAt(owned, e))
                     && (e in ManagedEvents(disk.entries) ==> NoHits(Flat(HeldAt(s, e)), Ours(disk.entries, ctx)))
    {
      if e in ManagedEvents(disk.entries) {
        UninstalledAt(s, disk, ctx, e);
      } else {
        UninstalledElsewhere(s, disk, ctx, e);
      }
    }
    SameKept(merged, s, owned);
    forall e | e !in EventsOf(s) ensures Flat(HeldAt(s, e)) == [] {}
  }

  /** Tidying keeps the handlers of every event, in order; an event with none is gone. */
  lemma TidyKeepsHandlers(s: Settings, event: string)
    requires s.hooks.Events?
    ensures Flat(GroupsAt(EventsOf(Tidied(s)), event)) == Flat(HeldAt(s, event))
    ensures event in EventsOf(Tidied(s)) <==> Flat(HeldAt(s, event)) != []
  {
    var never := OwnedAt({}, event);
    FlatKeep(HeldAt(s, event), never);
    SurvivingLength(Flat(HeldAt(s, event)), never);
    KeptIsNotEmpty(HeldAt(s, event), never);
  }

  lemma {:induction false} KeptIsNotEmpty(groups: seq<Group>, doomed: string -> bool)
    ensures KeepGroups(groups, doomed) != [] <==> Flat(KeepGroups(groups, doomed)) != []
  {
    if groups != [] {
      KeptIsNotEmpty(groups[1..], doomed);
      FlatAppend(KeepGroup(groups[0], doomed), KeepGroups(groups[1..], doomed));
      if KeepGroup(groups[0], doomed) != [] { FlatOne(KeepGroup(groups[0], doomed)[0]); }
    }
  }

  lemma FlatOne(g: Group)
    ensures Flat([g]) == FlatGroup(g)
  {
    assert [g][1..] == [];
  }

  /** An event that is not an array, yet can be iterated, survives install but not uninstall: with
      nothing of ours among what it iterates to, an applied uninstall that removes anything puts the
      array of that in its place, or drops the event when there is nothing in it. */
  lemma NonArrayIsRewritten(s: Settings, disk: Disk, ctx: Context, event: string)
    requires Mergeable(s, disk.entries) && AllWalkable(s) && event in EventsOf(s) && EventsOf(s)[event].NotArray?
    requires forall g | g in Iterated(EventsOf(s)[event]) :: g.Malformed?
    ensures var merged := Merged(s, disk.entries, ctx);
            var after := EventsOf(Uninstalled(merged, OwnedBy(NewSidecar(disk, ctx, false))));
            var groups := EventsOf(s)[event].iterated.value;
            && event in EventsOf(merged) && EventsOf(merged)[event] == EventsOf(s)[event]
            && (event in after <==> groups != [])
            && (event in after ==> after[event] == Groups(groups))
  {
    KeepMalformed(EventsOf(s)[event].iterated.value, OwnedAt(OwnedBy(NewSidecar(disk, ctx, false)), event));
  }

  lemma {:induction false} KeepMalformed(groups: seq<Group>, doomed: string -> bool)
    requires forall g | g in groups :: g.Malformed?
    ensures KeepGroups(groups, doomed) == groups
  {
    if groups != [] {
      KeepMalformed(groups[1..], doomed);
      assert groups == [groups[0]] + groups[1..];
    }
  }

  // ---- install and status agree ----

  /** Status is asked later, from the same checkout: its ownership is what the sidecar recorded,
      whichever recorded roots still are checkouts. */
  function Later(site: Site, disk: Disk, ctx: Context, checkouts: set<string>): Context {
    ContextOf(site, Some(NewSidecar(disk, ctx, false)), disk.(checkouts := checkouts), false)
  }

  predicate SameSite(ctx: Context, later: Context) {
    later.root == ctx.root && later.interpreter == ctx.interpreter
  }

  lemma RecordedIsRecognised(disk: Disk, ctx: Context, later: Context)
    requires Usable(ctx) && SameSite(ctx, later) && forall e | e in disk.entries :: ScriptName(e.script)
    requires later.ownership.commands == CommandsOf(Record(disk.entries, ctx))
    ensures Recognised(disk.entries, later)
  {
    forall e | e in disk.entries ensures Ours(disk.entries, later)(Rendered(e, later)) {
      var k :| 0 <= k < |disk.entries| && disk.entries[k] == e;
      assert Record(disk.entries, ctx)[k] in Record(disk.entries, ctx);
      RenderedIsManaged(later, e.script, Scripts(disk.entries));
    }
  }

  /** Foreign and unreadable commands are so whoever owns what. */
  lemma NotOursEver(command: string, scripts: set<string>, ctx: Context, later: Context)
    ensures var k := ClassifyHandler(command, scripts, ctx); var l := ClassifyHandler(command, scripts, later);
            k.Managed? || k.Collision? <==> l.Managed? || l.Collision?
  {
  }

  predicate NoneCollide(items: seq<Item>, entries: seq<Entry>, ctx: Context) {
    forall k | 0 <= k < |items| && items[k].Handled? ::
      !ClassifyHandler(CommandOf(items[k].handler), Scripts(entries), ctx).Collision?
  }

  lemma NoneCollideAppend(a: seq<Item>, b: seq<Item>, entries: seq<Entry>, ctx: Context)
    ensures NoneCollide(a + b, entries, ctx) <==> NoneCollide(a, entries, ctx) && NoneCollide(b, entries, ctx)
  {
    assert forall k | 0 <= k < |a| :: (a + b)[k] == a[k];
    assert forall k | 0 <= k < |b| :: (a + b)[|a| + k] == b[k];
  }

  lemma NoCollisionByEvent(s: Settings, entries: seq<Entry>, ctx: Context)
    ensures NoCollision(s, entries, ctx) <==>
            forall e | e in ManagedEvents(entries) :: NoneCollide(Flat(GroupsAt(EventsOf(s), e)), entries, ctx)
  {
    forall e | e in ManagedEvents(entries)
      ensures NoneCollide(Flat(GroupsAt(EventsOf(s), e)), entries, ctx)
              <==> forall c :: !Collides(s, entries, ctx, e, c)
    {
      var items := Flat(GroupsAt(EventsOf(s), e));
      if k :| 0 <= k < |items| && items[k].Handled?
              && ClassifyHandler(CommandOf(items[k].handler), Scripts(entries), ctx).Collision? {
        assert CollidesAs(items[k], CommandOf(items[k].handler), entries, ctx);
        assert Collides(s, entries, ctx, e, CommandOf(items[k].handler));
      }
    }
  }

  /** One handler: kept by the install and now neither managed nor colliding, or dropped by it,
      exactly when it did not collide then. */
  lemma OneStaysForeign(item: Item, entries: seq<Entry>, ctx: Context, later: Context)
    ensures Hit(item, Ours(entries, ctx)) ==> NoneCollide([item], entries, ctx)
    ensures !Hit(item, Ours(entries, ctx)) ==>
              (NoHits([item], Ours(entries, later)) && NoneCollide([item], entries, later)
               <==> NoneCollide([item], entries, ctx))
  {
    OneCollides(item, entries, ctx);
    OneCollides(item, entries, later);
    if item.Handled? { NotOursEver(CommandOf(item.handler), Scripts(entries), ctx, later); }
  }

  /** What survived an install is now neither managed nor colliding, exactly when it was not
      colliding then. */
  lemma {:induction false} SurvivorsStayForeign(items: seq<Item>, entries: seq<Entry>, ctx: Context, later: Context)
    ensures var kept := Surviving(items, Ours(entries, ctx));
            (NoHits(kept, Ours(entries, later)) && NoneCollide(kept, entries, later)
             <==> NoneCollide(items, entries, ctx))
  {
    if items != [] {
      var item := items[0];
      var rest := Surviving(items[1..], Ours(entries, ctx));
      SurvivorsStayForeign(items[1..], entries, ctx, later);
      assert items == [item] + items[1..];
      NoneCollideAppend([item], items[1..], entries, ctx);
      OneStaysForeign(item, entries, ctx, later);
      if Hit(item, Ours(entries, ctx)) {
        assert [] + rest == rest;
      } else {
        ForeignAppend(item, rest, entries, later);
      }
    }
  }

  lemma ForeignAppend(item: Item, rest: seq<Item>, entries: seq<Entry>, ctx: Context)
    ensures NoHits([item] + rest, Ours(entries, ctx)) && NoneCollide([item] + rest, entries, ctx)
       <==> (&& NoHits([item], Ours(entries, ctx)) && NoHits(rest, Ours(entries, ctx))
             && NoneCollide([item], entries, ctx) && NoneCollide(rest, entries, ctx))
  {
    NoHitsAppend([item], rest, Ours(entries, ctx));
    NoneCollideAppend([item], rest, entries, ctx);
  }

  lemma OneCollides(item: Item, entries: seq<Entry>, ctx: Context)
    ensures NoneCollide([item], entries, ctx) <==>
            (item.Handled? ==> !ClassifyHandler(CommandOf(item.handler), Scripts(entries), ctx).Collision?)
    ensures NoHits([item], Ours(entries, ctx)) <==> !Hit(item, Ours(entries, ctx))
  {
    assert [item][0] == item;
  }

  lemma {:induction false} CanonicalNeverCollide(entries: seq<Entry>, all: seq<Entry>, event: string, ctx: Context,
                                                 later: Context)
    requires SameSite(ctx, later) && Recognised(all, later) && forall e | e in entries :: e in all
    ensures NoneCollide(CanonicalItems(entries, event, ctx), all, later)
  {
    if entries != [] {
      var rest := CanonicalItems(entries[1..], event, ctx);
      CanonicalNeverCollide(entries[1..], all, event, ctx, later);
      OneCollides(CanonicalItem(entries[0], ctx), all, later);
      NoneCollideAppend([CanonicalItem(entries[0], ctx)], rest, all, later);
      assert Ours(all, later)(Rendered(entries[0], later)) && Rendered(entries[0], later) == Rendered(entries[0], ctx);
    }
  }

  /** What an installed event holds for a later status: extra managed handlers, then the manifest's. */
  function Extra(s: Settings, entries: seq<Entry>, ctx: Context, later: Context, event: string): seq<Item> {
    Doomed(Surviving(Flat(GroupsAt(EventsOf(s), event)), Ours(entries, ctx)), Ours(entries, later))
  }

  lemma InstalledEvent(s: Settings, entries: seq<Entry>, ctx: Context, later: Context, event: string)
    requires Mergeable(s, entries) && event in ManagedEvents(entries)
    requires SameSite(ctx, later) && Recognised(entries, later)
    ensures var after := Flat(GroupsAt(EventsOf(Merged(s, entries, ctx)), event));
            && Doomed(after, Ours(entries, later))
               == Extra(s, entries, ctx, later, event) + CanonicalItems(entries, event, ctx)
            && (Extra(s, entries, ctx, later, event) == [] && NoneCollide(after, entries, later) <==>
                NoneCollide(Flat(GroupsAt(EventsOf(s), event)), entries, ctx))
  {
    var before := Flat(GroupsAt(EventsOf(s), event));
    var kept := Surviving(before, Ours(entries, ctx));
    var canonical := CanonicalItems(entries, event, ctx);
    MergeKeepsForeign(s, entries, ctx, event);
    DoomedAppend(kept, canonical, Ours(entries, later));
    forall e | e in entries ensures Ours(entries, later)(Rendered(e, ctx)) {
      assert Rendered(e, ctx) == Rendered(e, later);
    }
    CanonicalDoomed(entries, event, ctx, Ours(entries, later));
    NoneCollideAppend(kept, canonical, entries, later);
    CanonicalNeverCollide(entries, entries, event, ctx, later);
    SurvivorsStayForeign(before, entries, ctx, later);
    NoDoomed(kept, Ours(entries, later));
  }

  lemma {:induction false} NoDoomed(items: seq<Item>, doomed: string -> bool)
    ensures Doomed(items, doomed) == [] <==> NoHits(items, doomed)
  {
    if items != [] {
      NoDoomed(items[1..], doomed);
      assert items == [items[0]] + items[1..];
      NoHitsAppend([items[0]], items[1..], doomed);
      assert [items[0]][0] == items[0];
    }
  }

  // ---- counting what is there ----

  /** The manifest's handlers for some of its events, in its order. */
  function KeysFor(entries: seq<Entry>, events: set<string>, ctx: Context): seq<Key> {
    if entries == [] then []
    else (if entries[0].event in events then [Key(entries[0].event, entries[0].matcher, Rendered(entries[0], ctx))]
          else [])
         + KeysFor(entries[1..], events, ctx)
  }

  lemma {:induction false} CanonicalHandled(entries: seq<Entry>, event: string, ctx: Context)
    ensures forall k | 0 <= k < |CanonicalItems(entries, event, ctx)| :: CanonicalItems(entries, event, ctx)[k].Handled?
    ensures KeysIn(event, CanonicalItems(entries, event, ctx)) == KeysFor(entries, {event}, ctx)
  {
    if entries != [] {
      CanonicalHandled(entries[1..], event, ctx);
      var rest := CanonicalItems(entries[1..], event, ctx);
      assert KeysIn(event, [CanonicalItem(entries[0], ctx)] + rest)
          == [KeyOf(event, CanonicalItem(entries[0], ctx))] + KeysIn(event, rest);
      assert [] + rest == rest;
    }
  }

  lemma {:induction false} KeysForOneMore(entries: seq<Entry>, events: set<string>, event: string, ctx: Context)
    requires event !in events
    ensures multiset(KeysFor(entries, events + {event}, ctx))
         == multiset(KeysFor(entries, events, ctx)) + multiset(KeysFor(entries, {event}, ctx))
  {
    if entries != [] { KeysForOneMore(entries[1..], events, event, ctx); }
  }

  lemma {:induction false} KeysForAll(entries: seq<Entry>, events: set<string>, ctx: Context, later: Context)
    requires SameSite(ctx, later) && forall e | e in entries :: e.event in events
    ensures KeysFor(entries, events, ctx) == Keys(entries, later)
  {
    if entries != [] {
      KeysForAll(entries[1..], events, ctx, later);
      assert Keys(entries, later) == [Keys(entries, later)[0]] + Keys(entries[1..], later);
    }
  }

  function ExtraCounts(s: Settings, entries: seq<Entry>, ctx: Context, later: Context, order: seq<string>): seq<nat> {
    seq(|order|, k requires 0 <= k < |order| => |Extra(s, entries, ctx, later, order[k])|)
  }

  function Sum(counts: seq<nat>): nat {
    if counts == [] then 0 else Sum(counts[..|counts| - 1]) + counts[|counts| - 1]
  }

  lemma {:induction false} SumIsZero(counts: seq<nat>)
    ensures Sum(counts) == 0 <==> forall k | 0 <= k < |counts| :: counts[k] == 0
  {
    if counts != [] { SumIsZero(counts[..|counts| - 1]); }
  }

  lemma EventKeys(s: Settings, entries: seq<Entry>, ctx: Context, later: Context, event: string)
    requires Mergeable(s, entries) && event in ManagedEvents(entries)
    requires SameSite(ctx, later) && Recognised(entries, later)
    ensures var found := ManagedKeys(event, Flat(GroupsAt(EventsOf(Merged(s, entries, ctx)), event)),
                                     Ours(entries, later));
            && |found| == |Extra(s, entries, ctx, later, event)| + |KeysFor(entries, {event}, ctx)|
            && (Extra(s, entries, ctx, later, event) == [] ==> found == KeysFor(entries, {event}, ctx))
  {
    InstalledEvent(s, entries, ctx, later, event);
    CanonicalHandled(entries, event, ctx);
    var extra := Extra(s, entries, ctx, later, event);
    assert |extra + CanonicalItems(entries, event, ctx)| == |extra| + |KeysFor(entries, {event}, ctx)|;
    if extra == [] { assert extra + CanonicalItems(entries, event, ctx) == CanonicalItems(entries, event, ctx); }
  }

  /** As many handlers are found as are wanted, plus the extra ones; without those, the same ones. */
  ghost predicate Counted(found: seq<Key>, wanted: seq<Key>, extra: nat) {
    && |found| == extra + |wanted|
    && (extra == 0 ==> multiset(found) == multiset(wanted))
  }

  lemma CountedAppend(found: seq<Key>, wanted: seq<Key>, extra: nat, more: seq<Key>, want: seq<Key>, n: nat,
                      all: seq<Key>)
    requires Counted(found, wanted, extra) && |more| == n + |want| && (n == 0 ==> more == want)
    requires multiset(all) == multiset(wanted) + multiset(want)
    ensures Counted(found + more, all, extra + n)
  {
    CountSum(all, wanted, want);
  }

  lemma {:induction false} ActualCounts(s: Settings, entries: seq<Entry>, ctx: Context, later: Context,
                                        order: seq<string>)
    requires Mergeable(s, entries) && SameSite(ctx, later) && Recognised(entries, later)
    requires forall k | 0 <= k < |order| :: order[k] in ManagedEvents(entries)
    requires forall i, j | 0 <= i < j < |order| :: order[i] != order[j]
    ensures CountedUpTo(s, entries, ctx, later, order)
  {
    if order == [] {
      NoKeysFor(entries, Firsts(order, 0), ctx);
    } else {
      ActualCounts(s, entries, ctx, later, order[..|order| - 1]);
      CountedNext(s, entries, ctx, later, order);
    }
  }

  ghost predicate CountedUpTo(s: Settings, entries: seq<Entry>, ctx: Context, later: Context, order: seq<string>) {
    Counted(Actual(EventsOf(Merged(s, entries, ctx)), order, Ours(entries, later)),
            KeysFor(entries, Firsts(order, |order|), ctx),
            Sum(ExtraCounts(s, entries, ctx, later, order)))
  }

  lemma CountedNext(s: Settings, entries: seq<Entry>, ctx: Context, later: Context, order: seq<string>)
    requires Mergeable(s, entries) && SameSite(ctx, later) && Recognised(entries, later)
    requires order != [] && order[|order| - 1] in ManagedEvents(entries)
    requires forall i, j | 0 <= i < j < |order| :: order[i] != order[j]
    requires CountedUpTo(s, entries, ctx, later, order[..|order| - 1])
    ensures CountedUpTo(s, entries, ctx, later, order)
  {
    var earlier, event := order[..|order| - 1], order[|order| - 1];
    var before := Firsts(earlier, |earlier|);
    EventKeys(s, entries, ctx, later, event);
    FirstsNext(order);
    KeysForOneMore(entries, before, event, ctx);
    ExtraNext(s, entries, ctx, later, order);
    CountedOneMore(EventsOf(Merged(s, entries, ctx)), Ours(entries, later), order, KeysFor(entries, before, ctx),
                   Sum(ExtraCounts(s, entries, ctx, later, earlier)), KeysFor(entries, {event}, ctx),
                   |Extra(s, entries, ctx, later, event)|, KeysFor(entries, before + {event}, ctx));
  }

  lemma FirstsNext(order: seq<string>)
    requires order != [] && forall i, j | 0 <= i < j < |order| :: order[i] != order[j]
    ensures Firsts(order, |order|) == Firsts(order[..|order| - 1], |order| - 1) + {order[|order| - 1]}
    ensures order[|order| - 1] !in Firsts(order[..|order| - 1], |order| - 1)
  {
  }

  lemma ExtraNext(s: Settings, entries: seq<Entry>, ctx: Context, later: Context, order: seq<string>)
    requires order != []
    ensures Sum(ExtraCounts(s, entries, ctx, later, order))
         == Sum(ExtraCounts(s, entries, ctx, later, order[..|order| - 1]))
             + |Extra(s, entries, ctx, later, order[|order| - 1])|
  {
    var counts := ExtraCounts(s, entries, ctx, later, order);
    assert counts[..|order| - 1] == ExtraCounts(s, entries, ctx, later, order[..|order| - 1]);
  }

  lemma CountedOneMore(events: map<string, EventValue>, doomed: string -> bool, order: seq<string>, wanted: seq<Key>,
                       extra: nat, only: seq<Key>, n: nat, all: seq<Key>)
    requires order != [] && Counted(Actual(events, order[..|order| - 1], doomed), wanted, extra)
    requires var more := ManagedKeys(order[|order| - 1], Flat(GroupsAt(events, order[|order| - 1])), doomed);
             |more| == n + |only| && (n == 0 ==> more == only)
    requires multiset(all) == multiset(wanted) + multiset(only)
    ensures Counted(Actual(events, order, doomed), all, extra + n)
  {
    var more := ManagedKeys(order[|order| - 1], Flat(GroupsAt(events, order[|order| - 1])), doomed);
    CountedAppend(Actual(events, order[..|order| - 1], doomed), wanted, extra, more, only, n, all);
  }

  lemma CountSum(all: seq<Key>, a: seq<Key>, b: seq<Key>)
    requires multiset(all) == multiset(a) + multiset(b)
    ensures |all| == |a| + |b|
  {
    assert |multiset(all)| == |all| && |multiset(a)| == |a| && |multiset(b)| == |b|;
  }

  lemma {:induction false} NoKeysFor(entries: seq<Entry>, events: set<string>, ctx: Context)
    requires events == {}
    ensures KeysFor(entries, events, ctx) == []
  {
    if entries != [] { NoKeysFor(entries[1..], events, ctx); }
  }

  /** At one event, uninstall removes what the install put there. */
  lemma RemovedAt(s: Settings, disk: Disk, ctx: Context, event: string)
    requires Mergeable(s, disk.entries) && event in EventsOf(Merged(s, disk.entries, ctx))
    requires Untouched(s, disk.entries, ctx, OwnedBy(NewSidecar(disk, ctx, false)))
    ensures |Doomed(Flat(Iterated(EventsOf(Merged(s, disk.entries, ctx))[event])),
                    OwnedAt(OwnedBy(NewSidecar(disk, ctx, false)), event))|
         == |KeysFor(disk.entries, {event}, ctx)|
  {
    var owned := OwnedAt(OwnedBy(NewSidecar(disk, ctx, false)), event);
    var before, ours := Flat(HeldAt(s, event)), Ours(disk.entries, ctx);
    var canonical := CanonicalItems(disk.entries, event, ctx);
    NoDoomed(before, owned);
    CanonicalHandled(disk.entries, event, ctx);
    if event in ManagedEvents(disk.entries) {
      MergeKeepsForeign(s, disk.entries, ctx, event);
      SurvivingLength(before, ours);
      DoomedAppend(before, canonical, owned);
      forall e | e in disk.entries && e.event == event
        ensures owned(Rendered(e, ctx))
      {
        RecordedIsOwned(disk, ctx, e);
      }
      CanonicalDoomed(disk.entries, event, ctx, owned);
      assert [] + canonical == canonical;
    } else {
      NoneFor(disk.entries, event, ctx);
    }
  }

  lemma {:induction false} NoneFor(entries: seq<Entry>, event: string, ctx: Context)
    requires event !in ManagedEvents(entries)
    ensures KeysFor(entries, {event}, ctx) == []
  {
    if entries != [] {
      assert entries[0] in entries && ManagedEvents(entries[1..]) <= ManagedEvents(entries);
      NoneFor(entries[1..], event, ctx);
    }
  }

  lemma {:induction false} RemovalsCount(s: Settings, disk: Disk, ctx: Context, order: seq<string>)
    requires Mergeable(s, disk.entries) && Untouched(s, disk.entries, ctx, OwnedBy(NewSidecar(disk, ctx, false)))
    requires forall i, j | 0 <= i < j < |order| :: order[i] != order[j]
    requires forall e | e in order :: e in EventsOf(Merged(s, disk.entries, ctx))
    ensures Removals(EventsOf(Merged(s, disk.entries, ctx)), OwnedBy(NewSidecar(disk, ctx, false)), order)
         == |KeysFor(disk.entries, Firsts(order, |order|), ctx)|
  {
    if order == [] {
      NoKeysFor(disk.entries, Firsts(order, 0), ctx);
    } else {
      var earlier, event := order[..|order| - 1], order[|order| - 1];
      assert event in order && forall e | e in earlier :: e in order;
      RemovalsCount(s, disk, ctx, earlier);
      RemovedAt(s, disk, ctx, event);
      KeysForNext(disk.entries, ctx, order);
      RemovalsNext(EventsOf(Merged(s, disk.entries, ctx)), OwnedBy(NewSidecar(disk, ctx, false)), order);
    }
  }

  lemma RemovalsNext(events: map<string, EventValue>, owned: set<(string, string)>, order: seq<string>)
    requires order != [] && order[|order| - 1] in events
    ensures var last := order[|order| - 1];
            Removals(events, owned, order)
            == Removals(events, owned, order[..|order| - 1])
               + |Doomed(Flat(Iterated(events[last])), OwnedAt(owned, last))|
  {
  }

  lemma KeysForNext(entries: seq<Entry>, ctx: Context, order: seq<string>)
    requires order != [] && forall i, j | 0 <= i < j < |order| :: order[i] != order[j]
    ensures |KeysFor(entries, Firsts(order, |order|), ctx)|
         == |KeysFor(entries, Firsts(order[..|order| - 1], |order| - 1), ctx)|
            + |KeysFor(entries, {order[|order| - 1]}, ctx)|
  {
    var before := Firsts(order[..|order| - 1], |order| - 1);
    var event := order[|order| - 1];
    FirstsNext(order);
    KeysForOneMore(entries, before, event, ctx);
    CountSum(KeysFor(entries, before + {event}, ctx), KeysFor(entries, before, ctx), KeysFor(entries, {event}, ctx));
  }

  /** Right after an install into a document that held nothing of ours, uninstall removes one handler
      per manifest entry, in whatever order it visits events: it is never partial. */
  lemma UninstallIsComplete(s: Settings, disk: Disk, ctx: Context, order: seq<string>)
    requires Mergeable(s, disk.entries) && !Uniterable(s)
    requires Untouched(s, disk.entries, ctx, OwnedBy(NewSidecar(disk, ctx, false)))
    requires Lists(order, EventsOf(Merged(s, disk.entries, ctx)).Keys)
    ensures !Uniterable(Merged(s, disk.entries, ctx))
    ensures Removals(EventsOf(Merged(s, disk.entries, ctx)), OwnedBy(NewSidecar(disk, ctx, false)), order)
         == |NewSidecar(disk, ctx, false).entries|
  {
    RemovalsCount(s, disk, ctx, order);
    forall e | e in disk.entries ensures e.event in Firsts(order, |order|) {
      assert e.event in ManagedEvents(disk.entries) && e.event in order;
      var k :| 0 <= k < |order| && order[k] == e.event;
    }
    KeysForAll(disk.entries, Firsts(order, |order|), ctx, ctx);
  }

  /** The managed handlers found after an install are the manifest's, exactly when no event holds
      an extra one. */
  lemma FoundIsWanted(s: Settings, entries: seq<Entry>, ctx: Context, later: Context)
    requires Mergeable(s, entries) && SameSite(ctx, later) && Recognised(entries, later)
    ensures (multiset(Actual(EventsOf(Merged(s, entries, ctx)), EventOrder(entries), Ours(entries, later)))
             == multiset(Keys(entries, later)))
       <==> forall e | e in ManagedEvents(entries) :: Extra(s, entries, ctx, later, e) == []
  {
    var order := EventOrder(entries);
    ActualCounts(s, entries, ctx, later, order);
    assert Firsts(order, |order|) == ManagedEvents(entries);
    KeysForAll(entries, ManagedEvents(entries), ctx, later);
    CountedExactly(Actual(EventsOf(Merged(s, entries, ctx)), order, Ours(entries, later)), Keys(entries, later),
                   Sum(ExtraCounts(s, entries, ctx, later, order)));
    SumIsZero(ExtraCounts(s, entries, ctx, later, order));
    if Sum(ExtraCounts(s, entries, ctx, later, order)) == 0 {
      NoExtra(s, entries, ctx, later, order);
    } else if forall e | e in ManagedEvents(entries) :: Extra(s, entries, ctx, later, e) == [] {
      SomeExtra(s, entries, ctx, later, order);
    }
  }

  lemma CountedExactly(found: seq<Key>, wanted: seq<Key>, extra: nat)
    requires Counted(found, wanted, extra)
    ensures multiset(found) == multiset(wanted) <==> extra == 0
  {
    if multiset(found) == multiset(wanted) { CountSum(found, wanted, []); }
  }

  lemma NoExtra(s: Settings, entries: seq<Entry>, ctx: Context, later: Context, order: seq<string>)
    requires forall e :: e in order <==> e in ManagedEvents(entries)
    requires forall k | 0 <= k < |order| :: ExtraCounts(s, entries, ctx, later, order)[k] == 0
    ensures forall e | e in ManagedEvents(entries) :: Extra(s, entries, ctx, later, e) == []
  {
    forall e | e in ManagedEvents(entries) ensures Extra(s, entries, ctx, later, e) == [] {
      var k :| 0 <= k < |order| && order[k] == e;
      assert ExtraCounts(s, entries, ctx, later, order)[k] == |Extra(s, entries, ctx, later, order[k])|;
    }
  }

  lemma SomeExtra(s: Settings, entries: seq<Entry>, ctx: Context, later: Context, order: seq<string>)
    requires forall e :: e in order <==> e in ManagedEvents(entries)
    requires forall e | e in ManagedEvents(entries) :: Extra(s, entries, ctx, later, e) == []
    ensures forall k | 0 <= k < |order| :: ExtraCounts(s, entries, ctx, later, order)[k] == 0
  {
    forall k | 0 <= k < |order| ensures ExtraCounts(s, entries, ctx, later, order)[k] == 0 {
      assert order[k] in ManagedEvents(entries);
    }
  }

  /** After an applied install, status says OK exactly when the install reported no collision;
      whatever was installed before, from whichever roots, and with or without --reconcile. */
  lemma StatusAgreesWithInstall(s: Settings, disk: Disk, site: Site, earlier: Option<Sidecar>, reconcile: bool,
                                checkouts: set<string>)
    requires var ctx := ContextOf(site, earlier, disk, reconcile);
             Mergeable(s, disk.entries) && AllWalkable(s) && Usable(ctx)
    requires forall e | e in disk.entries :: e.script in disk.scripts && ScriptName(e.script)
    ensures AllWalkable(Merged(s, disk.entries, ContextOf(site, earlier, disk, reconcile)))
    ensures var ctx := ContextOf(site, earlier, disk, reconcile);
            Healthy(Merged(s, disk.entries, ctx), Some(NewSidecar(disk, ctx, false)), disk,
                    Later(site, disk, ctx, checkouts))
            <==> NoCollision(s, disk.entries, ctx)
  {
    var ctx := ContextOf(site, earlier, disk, reconcile);
    var later := Later(site, disk, ctx, checkouts);
    var after := Merged(s, disk.entries, ctx);
    MergeKeepsWalkable(s, disk.entries, ctx);
    RecordedIsRecognised(disk, ctx, later);
    FoundIsWanted(s, disk.entries, ctx, later);
    NoCollisionByEvent(s, disk.entries, ctx);
    NoCollisionByEvent(after, disk.entries, later);
    forall e | e in ManagedEvents(disk.entries)
      ensures Extra(s, disk.entries, ctx, later, e) == []
              && NoneCollide(Flat(GroupsAt(EventsOf(after), e)), disk.entries, later)
         <==> NoneCollide(Flat(GroupsAt(EventsOf(s), e)), disk.entries, ctx)
    {
      InstalledEvent(s, disk.entries, ctx, later, e);
    }
  }

  // ---- dying half-way through ----

  lemma {:induction false} InSurviving(items: seq<Item>, doomed: string -> bool, item: Item)
    ensures item in Surviving(items, doomed) <==> item in items && !Hit(item, doomed)
  {
    if items != [] {
      InSurviving(items[1..], doomed, item);
      assert items == [items[0]] + items[1..];
    }
  }

  predicate SameHits(items: seq<Item>, a: string -> bool, b: string -> bool) {
    forall k | 0 <= k < |items| :: Hit(items[k], a) <==> Hit(items[k], b)
  }

  lemma SameKeptSameHits(groups: seq<Group>, a: string -> bool, b: string -> bool)
    requires KeepGroups(groups, a) == KeepGroups(groups, b)
    ensures SameHits(Flat(groups), a, b)
  {
    FlatKeep(groups, a);
    FlatKeep(groups, b);
    var items := Flat(groups);
    forall k | 0 <= k < |items| ensures Hit(items[k], a) <==> Hit(items[k], b) {
      InSurviving(items, a, items[k]);
      InSurviving(items, b, items[k]);
    }
  }

  lemma {:induction false} SameHitsSameHandlers(handlers: seq<Handler>, a: string -> bool, b: string -> bool)
    requires forall k | 0 <= k < |handlers| :: a(CommandOf(handlers[k])) == b(CommandOf(handlers[k]))
    ensures KeepHandlers(handlers, a) == KeepHandlers(handlers, b)
  {
    if handlers != [] { SameHitsSameHandlers(handlers[1..], a, b); }
  }

  lemma {:induction false} SameHitsSameKept(groups: seq<Group>, a: string -> bool, b: string -> bool)
    requires SameHits(Flat(groups), a, b)
    ensures KeepGroups(groups, a) == KeepGroups(groups, b)
  {
    if groups != [] {
      var g := groups[0];
      var items := FlatGroup(g) + Flat(groups[1..]);
      forall k | 0 <= k < |Flat(groups[1..])| ensures Hit(Flat(groups[1..])[k], a) <==> Hit(Flat(groups[1..])[k], b) {
        assert items[|FlatGroup(g)| + k] == Flat(groups[1..])[k];
      }
      SameHitsSameKept(groups[1..], a, b);
      if g.Group? {
        forall k | 0 <= k < |g.handlers| ensures a(CommandOf(g.handlers[k])) == b(CommandOf(g.handlers[k])) {
          assert items[k] == FlatGroup(g)[k];
        }
        SameHitsSameHandlers(g.handlers, a, b);
      }
    }
  }

  lemma {:induction false} SameSiteSameGroups(entries: seq<Entry>, event: string, a: Context, b: Context)
    requires SameSite(a, b)
    ensures CanonicalGroups(entries, event, a) == CanonicalGroups(entries, event, b)
  {
    if entries != [] { SameSiteSameGroups(entries[1..], event, a, b); }
  }

  /** Repeating an install from the same site under a different ownership record (as after a crash
      that left the settings alone but replaced the sidecar) has the same result exactly when both
      records take the same handlers for ours. */
  lemma RepeatedInstallAgrees(s: Settings, entries: seq<Entry>, first: Context, second: Context)
    requires Mergeable(s, entries) && SameSite(first, second)
    ensures Merged(s, entries, first) == Merged(s, entries, second) <==>
            forall e | e in ManagedEvents(entries) ::
              SameHits(Flat(GroupsAt(EventsOf(s), e)), Ours(entries, first), Ours(entries, second))
  {
    forall e | e in ManagedEvents(entries)
      ensures MergedAt(EventsOf(s), entries, e, first) == MergedAt(EventsOf(s), entries, e, second) <==>
              SameHits(Flat(GroupsAt(EventsOf(s), e)), Ours(entries, first), Ours(entries, second))
    {
      var groups := GroupsAt(EventsOf(s), e);
      var x, y := KeepGroups(groups, Ours(entries, first)), KeepGroups(groups, Ours(entries, second));
      var canonical := CanonicalGroups(entries, e, first);
      SameSiteSameGroups(entries, e, first, second);
      if x + canonical == y + canonical {
        assert x == (x + canonical)[..|x|] && |x| == |y|;
        SameKeptSameHits(groups, Ours(entries, first), Ours(entries, second));
      }
      if SameHits(Flat(groups), Ours(entries, first), Ours(entries, second)) {
        SameHitsSameKept(groups, Ours(entries, first), Ours(entries, second));
      }
    }
    SameMerged(s, entries, first, second);
  }

  lemma SameMerged(s: Settings, entries: seq<Entry>, first: Context, second: Context)
    ensures Merged(s, entries, first) == Merged(s, entries, second) <==>
            forall e | e in ManagedEvents(entries) ::
              MergedAt(EventsOf(s), entries, e, first) == MergedAt(EventsOf(s), entries, e, second)
  {
    var x, y := EventsOf(Merged(s, entries, first)), EventsOf(Merged(s, entries, second));
    if x == y {
      forall e | e in ManagedEvents(entries)
        ensures MergedAt(EventsOf(s), entries, e, first) == MergedAt(EventsOf(s), entries, e, second)
      {
        assert x[e] == y[e];
      }
    }
  }

  /** The pending sidecar replaces the recorded commands before the settings are written. If the
      process dies in between, a handler known by its recorded command stays known exactly when
      the manifest renders it again, its directory is still allowed, or any root is claimed. */
  lemma PendingSidecarForgets(command: string, disk: Disk, site: Site, earlier: Sidecar, again: Disk, reconcile: bool)
    requires command in CommandsOf(earlier.entries)
    requires CommandPathToken(command).Some?
             && Name(Parse(Slashed(CommandPathToken(command).value))) in Scripts(disk.entries)
    ensures var first := ContextOf(site, Some(earlier), disk, false);
            var second := ContextOf(site, Some(NewSidecar(disk, first, true)), again, reconcile);
            var token := CommandPathToken(command).value;
            && ClassifyHandler(command, Scripts(disk.entries), first).Managed?
            && (ClassifyHandler(command, Scripts(disk.entries), second).Managed? <==>
                || (exists e :: e in disk.entries && Rendered(e, first) == command)
                || Allowed(Resolved(token), Name(Parse(Slashed(token))), second)
                || reconcile)
  {
    var first := ContextOf(site, Some(earlier), disk, false);
    var recorded := Record(disk.entries, first);
    assert command in CommandsOf(recorded) <==> exists e :: e in disk.entries && Rendered(e, first) == command by {
      if e :| e in disk.entries && Rendered(e, first) == command {
        var k :| 0 <= k < |disk.entries| && disk.entries[k] == e;
        assert recorded[k] in recorded;
      }
    }
  }
}
