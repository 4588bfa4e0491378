/** What merging the managed hook block does to everything else, and doing it twice. */
module HookMergeProof {
  import opened Collections
  import opened HookCommands
  import opened HookSettings

  /** An event's content laid flat: handlers with the group attributes they run under. */
  datatype Item =
    | Handled(matcher: Option<string>, extra: seq<Id>, handler: Handler)
    | Bad(content: Id, iterable: bool)

  function FlatGroup(g: Group): seq<Item> {
    if g.Malformed? then [Bad(g.content, g.iterable)]
    else seq(|g.handlers|, k requires 0 <= k < |g.handlers| => Handled(g.matcher, g.extra, g.handlers[k]))
  }

  function Flat(groups: seq<Group>): seq<Item> {
    if groups == [] then [] else FlatGroup(groups[0]) + Flat(groups[1..])
  }

  predicate Hit(item: Item, doomed: string -> bool) { item.Handled? && doomed(CommandOf(item.handler)) }

  function Surviving(items: seq<Item>, doomed: string -> bool): seq<Item> {
    if items == [] then [] else (if Hit(items[0], doomed) then [] else [items[0]]) + Surviving(items[1..], doomed)
  }

  function Doomed(items: seq<Item>, doomed: string -> bool): seq<Item> {
    if items == [] then [] else (if Hit(items[0], doomed) then [items[0]] else []) + Doomed(items[1..], doomed)
  }

  function CanonicalItem(e: Entry, ctx: Context): Item {
    Handled(Some(e.matcher), [], CommandHandler(Rendered(e, ctx), e.timeout, []))
  }

  function CanonicalItems(entries: seq<Entry>, event: string, ctx: Context): seq<Item> {
    if entries == [] then []
    else (if entries[0].event == event then [CanonicalItem(entries[0], ctx)] else [])
         + CanonicalItems(entries[1..], event, ctx)
  }

  /** Every command the manifest renders is classified as managed. */
  predicate Recognised(entries: seq<Entry>, ctx: Context) {
    forall e | e in entries :: Ours(entries, ctx)(Rendered(e, ctx))
  }

  // ---- flattening commutes with dropping ----

  lemma {:induction false} SurvivingAppend(a: seq<Item>, b: seq<Item>, doomed: string -> bool)
    ensures Surviving(a + b, doomed) == Surviving(a, doomed) + Surviving(b, doomed)
  {
    if a == [] {
      assert a + b == b;
    } else {
      assert (a + b)[1..] == a[1..] + b;
      SurvivingAppend(a[1..], b, doomed);
    }
  }

  lemma {:induction false} DoomedAppend(a: seq<Item>, b: seq<Item>, doomed: string -> bool)
    ensures Doomed(a + b, doomed) == Doomed(a, doomed) + Doomed(b, doomed)
  {
    if a == [] {
      assert a + b == b;
    } else {
      assert (a + b)[0] == a[0] && (a + b)[1..] == a[1..] + b;
      DoomedAppend(a[1..], b, doomed);
      var head := if Hit(a[0], doomed) then [a[0]] else [];
      assert Doomed(a, doomed) == head + Doomed(a[1..], doomed);
      assert Doomed(a + b, doomed) == head + Doomed(a[1..] + b, doomed);
    }
  }

  lemma OneItem(item: Item, doomed: string -> bool)
    ensures Surviving([item], doomed) == if Hit(item, doomed) then [] else [item]
    ensures Doomed([item], doomed) == if Hit(item, doomed) then [item] else []
  {
    assert [item][1..] == [];
  }

  lemma {:induction false} FlatAppend(a: seq<Group>, b: seq<Group>)
    ensures Flat(a + b) == Flat(a) + Flat(b)
  {
    if a == [] {
      assert a + b == b;
    } else {
      assert (a + b)[1..] == a[1..] + b;
      FlatAppend(a[1..], b);
    }
  }

  lemma {:induction false} FlatKeepGroup(matcher: Option<string>, extra: seq<Id>, handlers: seq<Handler>,
                                         doomed: string -> bool)
    ensures FlatGroup(Group(matcher, KeepHandlers(handlers, doomed), extra))
         == Surviving(FlatGroup(Group(matcher, handlers, extra)), doomed)
  {
    if handlers != [] {
      FlatKeepGroup(matcher, extra, handlers[1..], doomed);
      var head := if doomed(CommandOf(handlers[0])) then [] else [handlers[0]];
      assert handlers == [handlers[0]] + handlers[1..];
      FlatGroupAppend(matcher, extra, [handlers[0]], handlers[1..]);
      FlatGroupAppend(matcher, extra, head, KeepHandlers(handlers[1..], doomed));
      KeepHandlersAppend([handlers[0]], handlers[1..], doomed);
      SurvivingAppend(FlatGroup(Group(matcher, [handlers[0]], extra)),
                      FlatGroup(Group(matcher, handlers[1..], extra)), doomed);
      FlatKeepOne(matcher, extra, handlers[0], doomed);
    }
  }

  lemma FlatKeepOne(matcher: Option<string>, extra: seq<Id>, h: Handler, doomed: string -> bool)
    ensures KeepHandlers([h], doomed) == if doomed(CommandOf(h)) then [] else [h]
    ensures FlatGroup(Group(matcher, KeepHandlers([h], doomed), extra))
         == Surviving(FlatGroup(Group(matcher, [h], extra)), doomed)
  {
    var items := FlatGroup(Group(matcher, [h], extra));
    assert [h][1..] == [] && items == [Handled(matcher, extra, h)] && items[1..] == [];
  }

  lemma FlatGroupAppend(matcher: Option<string>, extra: seq<Id>, a: seq<Handler>, b: seq<Handler>)
    ensures FlatGroup(Group(matcher, a + b, extra))
         == FlatGroup(Group(matcher, a, extra)) + FlatGroup(Group(matcher, b, extra))
  {
  }

  lemma {:induction false} FlatKeep(groups: seq<Group>, doomed: string -> bool)
    ensures Flat(KeepGroups(groups, doomed)) == Surviving(Flat(groups), doomed)
  {
    if groups != [] {
      var g := groups[0];
      FlatKeep(groups[1..], doomed);
      FlatAppend(KeepGroup(g, doomed), KeepGroups(groups[1..], doomed));
      SurvivingAppend(FlatGroup(g), Flat(groups[1..]), doomed);
      if g.Group? { FlatKeepGroup(g.matcher, g.extra, g.handlers, doomed); }
      assert Flat(KeepGroup(g, doomed)) == Surviving(FlatGroup(g), doomed);
    }
  }

  lemma {:induction false} FlatCanonical(entries: seq<Entry>, event: string, ctx: Context)
    ensures Flat(CanonicalGroups(entries, event, ctx)) == CanonicalItems(entries, event, ctx)
  {
    if entries != [] {
      FlatCanonical(entries[1..], event, ctx);
      if entries[0].event == event {
        var g := CanonicalGroup(entries[0], ctx);
        FlatAppend([g], CanonicalGroups(entries[1..], event, ctx));
        assert [g][1..] == [] && Flat([g]) == FlatGroup(g) + Flat([]);
        assert FlatGroup(g) == [CanonicalItem(entries[0], ctx)];
      } else {
        assert [] + CanonicalGroups(entries[1..], event, ctx) == CanonicalGroups(entries[1..], event, ctx);
        assert [] + CanonicalItems(entries[1..], event, ctx) == CanonicalItems(entries[1..], event, ctx);
      }
    }
  }

  lemma {:induction false} SurvivorsOnly(items: seq<Item>, doomed: string -> bool)
    ensures Surviving(Surviving(items, doomed), doomed) == Surviving(items, doomed)
    ensures Doomed(Surviving(items, doomed), doomed) == []
  {
    if items != [] {
      var rest := Surviving(items[1..], doomed);
      SurvivorsOnly(items[1..], doomed);
      OneItem(items[0], doomed);
      if !Hit(items[0], doomed) {
        SurvivingAppend([items[0]], rest, doomed);
        DoomedAppend([items[0]], rest, doomed);
      } else {
        assert [] + rest == rest;
      }
    }
  }

  lemma {:induction false} CanonicalDoomed(entries: seq<Entry>, event: string, ctx: Context, doomed: string -> bool)
    requires forall e | e in entries && e.event == event :: doomed(Rendered(e, ctx))
    ensures Surviving(CanonicalItems(entries, event, ctx), doomed) == []
    ensures Doomed(CanonicalItems(entries, event, ctx), doomed) == CanonicalItems(entries, event, ctx)
  {
    if entries != [] {
      var first := [CanonicalItem(entries[0], ctx)];
      var rest := CanonicalItems(entries[1..], event, ctx);
      CanonicalDoomed(entries[1..], event, ctx, doomed);
      SurvivingAppend(first, rest, doomed);
      DoomedAppend(first, rest, doomed);
      OneItem(first[0], doomed);
      if entries[0].event != event { assert [] + rest == rest; }
    }
  }

  // ---- merging once ----

  /** A managed event ends up with everything it held that was not ours, in order and under the
      same group attributes, followed by the manifest's handlers for that event; any other event,
      and the rest of the document, stays as it was. */
  lemma MergeKeepsForeign(s: Settings, entries: seq<Entry>, ctx: Context, event: string)
    requires Mergeable(s, entries)
    ensures Merge(s, entries, ctx) == Ok(Merged(s, entries, ctx)) && Merged(s, entries, ctx).rest == s.rest
    ensures event in ManagedEvents(entries) ==>
              (Flat(GroupsAt(EventsOf(Merged(s, entries, ctx)), event))
               == Surviving(Flat(GroupsAt(EventsOf(s), event)), Ours(entries, ctx))
                  + CanonicalItems(entries, event, ctx))
    ensures event !in ManagedEvents(entries) ==>
              && (event in EventsOf(Merged(s, entries, ctx)) <==> event in EventsOf(s))
              && (event in EventsOf(s) ==> EventsOf(Merged(s, entries, ctx))[event] == EventsOf(s)[event])
  {
    var ours := Ours(entries, ctx);
    var groups := GroupsAt(EventsOf(s), event);
    FlatKeep(groups, ours);
    FlatAppend(KeepGroups(groups, ours), CanonicalGroups(entries, event, ctx));
    FlatCanonical(entries, event, ctx);
  }

  lemma {:induction false} KeepStuck(groups: seq<Group>, doomed: string -> bool)
    ensures (exists g :: g in KeepGroups(groups, doomed) && Stuck(g)) <==> exists g :: g in groups && Stuck(g)
  {
    if groups != [] {
      KeepStuck(groups[1..], doomed);
      var head, rest := KeepGroup(groups[0], doomed), KeepGroups(groups[1..], doomed);
      assert KeepGroups(groups, doomed) == head + rest;
      assert groups == [groups[0]] + groups[1..];
      assert Stuck(groups[0]) ==> groups[0] in head;
      assert forall g | g in head && Stuck(g) :: g == groups[0];
    }
  }

  lemma {:induction false} CanonicalNotStuck(entries: seq<Entry>, event: string, ctx: Context)
    ensures forall g | g in CanonicalGroups(entries, event, ctx) :: !Stuck(g)
  {
    if entries != [] { CanonicalNotStuck(entries[1..], event, ctx); }
  }

  /** A merge neither adds nor removes anything that cannot be iterated. */
  lemma MergeKeepsWalkable(s: Settings, entries: seq<Entry>, ctx: Context)
    requires Mergeable(s, entries)
    ensures var after := Merged(s, entries, ctx);
            Walkable(after, EventsOf(after).Keys) <==> Walkable(s, EventsOf(s).Keys)
  {
    var after := Merged(s, entries, ctx);
    forall e | e in ManagedEvents(entries)
      ensures EventWalkable(EventsOf(after)[e]) <==> (e in EventsOf(s) ==> EventWalkable(EventsOf(s)[e]))
    {
      var groups := GroupsAt(EventsOf(s), e);
      KeepStuck(groups, Ours(entries, ctx));
      CanonicalNotStuck(entries, e, ctx);
      assert Iterated(EventsOf(after)[e]) == KeepGroups(groups, Ours(entries, ctx)) + CanonicalGroups(entries, e, ctx);
    }
    assert forall e | e in EventsOf(s) && e !in ManagedEvents(entries) :: EventsOf(after)[e] == EventsOf(s)[e];
  }

  /** When its own commands are recognised, the managed handlers of a merged event are exactly the
      manifest's, in its order. */
  lemma MergedBlockIsExact(s: Settings, entries: seq<Entry>, ctx: Context, event: string)
    requires Mergeable(s, entries) && event in ManagedEvents(entries) && Recognised(entries, ctx)
    ensures var after := Flat(GroupsAt(EventsOf(Merged(s, entries, ctx)), event));
            && Doomed(after, Ours(entries, ctx)) == CanonicalItems(entries, event, ctx)
            && Surviving(after, Ours(entries, ctx)) == Surviving(Flat(GroupsAt(EventsOf(s), event)), Ours(entries, ctx))
  {
    var ours := Ours(entries, ctx);
    var kept := Surviving(Flat(GroupsAt(EventsOf(s), event)), ours);
    MergeKeepsForeign(s, entries, ctx, event);
    SurvivingAppend(kept, CanonicalItems(entries, event, ctx), ours);
    DoomedAppend(kept, CanonicalItems(entries, event, ctx), ours);
    SurvivorsOnly(Flat(GroupsAt(EventsOf(s), event)), ours);
    CanonicalDoomed(entries, event, ctx, ours);
  }

  // ---- merging twice ----

  lemma {:induction false} KeepHandlersTwice(handlers: seq<Handler>, doomed: string -> bool)
    ensures KeepHandlers(KeepHandlers(handlers, doomed), doomed) == KeepHandlers(handlers, doomed)
  {
    if handlers != [] {
      var head := if doomed(CommandOf(handlers[0])) then [] else [handlers[0]];
      KeepHandlersTwice(handlers[1..], doomed);
      KeepHandlersAppend(head, KeepHandlers(handlers[1..], doomed), doomed);
      assert KeepHandlers(head, doomed) == head;
    }
  }

  lemma {:induction false} KeepGroupsTwice(groups: seq<Group>, doomed: string -> bool)
    ensures KeepGroups(KeepGroups(groups, doomed), doomed) == KeepGroups(groups, doomed)
  {
    if groups != [] {
      var g := groups[0];
      KeepGroupsTwice(groups[1..], doomed);
      KeepGroupsAppend(KeepGroup(g, doomed), KeepGroups(groups[1..], doomed), doomed);
      if g.Group? { KeepHandlersTwice(g.handlers, doomed); }
      assert KeepGroups(KeepGroup(g, doomed), doomed) == KeepGroup(g, doomed);
    }
  }

  lemma KeepOneCanonical(e: Entry, ctx: Context, doomed: string -> bool)
    ensures KeepGroups([CanonicalGroup(e, ctx)], doomed)
            == if doomed(Rendered(e, ctx)) then [] else [CanonicalGroup(e, ctx)]
  {
    var g := CanonicalGroup(e, ctx);
    assert g.handlers[1..] == [] && KeepHandlers(g.handlers[1..], doomed) == [];
    assert KeepHandlers(g.handlers, doomed) == if doomed(Rendered(e, ctx)) then [] else g.handlers;
    assert [g][1..] == [] && KeepGroups([g], doomed) == KeepGroup(g, doomed) + KeepGroups([], doomed);
  }

  predicate AllHit(entries: seq<Entry>, event: string, ctx: Context, doomed: string -> bool) {
    forall k | 0 <= k < |entries| && entries[k].event == event :: doomed(Rendered(entries[k], ctx))
  }

  lemma {:induction false} KeepCanonical(entries: seq<Entry>, event: string, ctx: Context, doomed: string -> bool)
    ensures KeepGroups(CanonicalGroups(entries, event, ctx), doomed) == [] <==> AllHit(entries, event, ctx, doomed)
  {
    if entries != [] {
      var rest := CanonicalGroups(entries[1..], event, ctx);
      KeepCanonical(entries[1..], event, ctx, doomed);
      var hit := entries[0].event == event ==> doomed(Rendered(entries[0], ctx));
      assert AllHit(entries, event, ctx, doomed) <==> hit && AllHit(entries[1..], event, ctx, doomed) by {
        assert forall k | 1 <= k < |entries| :: entries[k] == entries[1..][k - 1];
      }
      if entries[0].event == event {
        KeepGroupsAppend([CanonicalGroup(entries[0], ctx)], rest, doomed);
        KeepOneCanonical(entries[0], ctx, doomed);
      } else {
        assert [] + rest == rest;
      }
    }
  }

  lemma LongerUnlessEmpty<T>(a: seq<T>, b: seq<T>, c: seq<T>)
    ensures a + b + c == a + c <==> b == []
  {
    if b == [] { assert a + b == a; } else { assert |a + b + c| > |a + c|; }
  }

  lemma MergedAtTwice(s: Settings, entries: seq<Entry>, ctx: Context, event: string)
    requires Mergeable(s, entries) && event in ManagedEvents(entries)
    ensures EventsOf(Merged(Merged(s, entries, ctx), entries, ctx))[event] == EventsOf(Merged(s, entries, ctx))[event]
       <==> AllHit(entries, event, ctx, Ours(entries, ctx))
  {
    var ours := Ours(entries, ctx);
    var kept := KeepGroups(GroupsAt(EventsOf(s), event), ours);
    var canonical := CanonicalGroups(entries, event, ctx);
    KeepGroupsAppend(kept, canonical, ours);
    KeepGroupsTwice(GroupsAt(EventsOf(s), event), ours);
    KeepCanonical(entries, event, ctx, ours);
    LongerUnlessEmpty(kept, KeepGroups(canonical, ours), canonical);
    assert GroupsAt(EventsOf(Merged(s, entries, ctx)), event) == kept + canonical;
  }

  lemma SameEvents(s: Settings, entries: seq<Entry>, ctx: Context)
    requires s.hooks.Events? && ManagedEvents(entries) <= EventsOf(s).Keys && Mergeable(s, entries)
    ensures Merge(s, entries, ctx) == Ok(s) <==>
            forall e | e in ManagedEvents(entries) :: EventsOf(Merged(s, entries, ctx))[e] == EventsOf(s)[e]
  {
    var m := EventsOf(Merged(s, entries, ctx));
    if forall e | e in ManagedEvents(entries) :: m[e] == EventsOf(s)[e] {
      assert m == EventsOf(s);
    }
  }

  /** Merging is idempotent exactly when every command the manifest renders is recognised as ours;
      otherwise each further merge appends the unrecognised ones again. */
  lemma MergeIdempotent(s: Settings, entries: seq<Entry>, ctx: Context)
    requires Mergeable(s, entries)
    ensures Mergeable(Merged(s, entries, ctx), entries)
    ensures Merge(Merged(s, entries, ctx), entries, ctx) == Ok(Merged(s, entries, ctx)) <==> Recognised(entries, ctx)
  {
    forall event | event in ManagedEvents(entries)
      ensures EventsOf(Merged(Merged(s, entries, ctx), entries, ctx))[event] == EventsOf(Merged(s, entries, ctx))[event]
         <==> AllHit(entries, event, ctx, Ours(entries, ctx))
    {
      MergedAtTwice(s, entries, ctx, event);
    }
    RecognisedEverywhere(entries, ctx);
    SameEvents(Merged(s, entries, ctx), entries, ctx);
  }

  lemma RecognisedEverywhere(entries: seq<Entry>, ctx: Context)
    ensures Recognised(entries, ctx) <==>
            forall event | event in ManagedEvents(entries) :: AllHit(entries, event, ctx, Ours(entries, ctx))
  {
    forall e | e in entries && AllHit(entries, e.event, ctx, Ours(entries, ctx))
      ensures Ours(entries, ctx)(Rendered(e, ctx))
    {
      var k :| 0 <= k < |entries| && entries[k] == e;
    }
  }

  /** A manifest with well-formed script names, installed from a root spelled without a backslash,
      is recognised: so its merge is idempotent. */
  lemma CleanRootIsRecognised(entries: seq<Entry>, ctx: Context)
    requires Usable(ctx) && '\\' !in AsPosix(ctx.root) && forall e | e in entries :: ScriptName(e.script)
    ensures Recognised(entries, ctx)
  {
    forall e | e in entries ensures Ours(entries, ctx)(Rendered(e, ctx)) {
      RenderedIsManaged(ctx, e.script, Scripts(entries));
    }
  }
}
