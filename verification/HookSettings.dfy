/** The managed hook block in a settings document (scripts/hooks_install.py): what a merge keeps,
    drops and appends, event by event. */
module HookSettings {
  import opened Collections
  import opened HookCommands

  datatype Entry = Entry(event: string, matcher: string, script: string, timeout: Option<int>)

  datatype Handler =
    | CommandHandler(command: string, timeout: Option<int>, extra: seq<Id>)
    | OtherHandler(content: Id)              // not an object, or without a command

  datatype Group =
    | Group(matcher: Option<string>, handlers: seq<Handler>, extra: seq<Id>)
    | Malformed(content: Id, iterable: bool) // not an object, or its "hooks" is not an array; it may
                                             // be a value that cannot even be iterated, such as a number

  /** The value of one event. Anything but an array still iterates in its own way, or not at all. */
  datatype EventValue = Groups(groups: seq<Group>) | NotArray(iterated: Option<seq<Group>>)

  datatype Hooks = Missing | NotObject | Events(events: map<string, EventValue>)

  datatype Settings = Settings(hooks: Hooks, rest: Id)

  function Iterated(v: EventValue): seq<Group> {
    if v.Groups? then v.groups else if v.iterated.Some? then v.iterated.value else []
  }

  predicate Stuck(g: Group) { g.Malformed? && !g.iterable }

  /** The event and the "hooks" of each of its groups can be iterated. */
  predicate EventWalkable(v: EventValue) {
    (v.NotArray? ==> v.iterated.Some?) && forall g | g in Iterated(v) :: !Stuck(g)
  }

  /** So can these events of a document. */
  predicate Walkable(s: Settings, among: set<string>) {
    forall e | e in among && e in EventsOf(s) :: EventWalkable(EventsOf(s)[e])
  }

  datatype Result<T> = Ok(value: T) | Err(error: SettingsError)
  datatype SettingsError = HooksNotAnObject | EventNotAnArray

  function CommandOf(h: Handler): string { if h.CommandHandler? then h.command else "" }

  // ---- dropping handlers ----

  function KeepHandlers(handlers: seq<Handler>, doomed: string -> bool): seq<Handler> {
    if handlers == [] then []
    else (if doomed(CommandOf(handlers[0])) then [] else [handlers[0]]) + KeepHandlers(handlers[1..], doomed)
  }

  /** Malformed groups stay as they are; a group without a handler left is dropped. */
  function KeepGroup(g: Group, doomed: string -> bool): seq<Group> {
    if g.Malformed? then [g]
    else
      var kept := KeepHandlers(g.handlers, doomed);
      if kept == [] then [] else [g.(handlers := kept)]
  }

  function KeepGroups(groups: seq<Group>, doomed: string -> bool): seq<Group> {
    if groups == [] then [] else KeepGroup(groups[0], doomed) + KeepGroups(groups[1..], doomed)
  }

  // ---- merging ----

  function Scripts(entries: seq<Entry>): set<string> { set e | e in entries :: e.script }

  function ManagedEvents(entries: seq<Entry>): set<string> { set e | e in entries :: e.event }

  function Ours(entries: seq<Entry>, ctx: Context): string -> bool {
    c => ClassifyHandler(c, Scripts(entries), ctx).Managed?
  }

  function Rendered(e: Entry, ctx: Context): string { RenderCommand(ctx.interpreter, ctx.root, e.script) }

  function CanonicalGroup(e: Entry, ctx: Context): Group {
    Group(Some(e.matcher), [CommandHandler(Rendered(e, ctx), e.timeout, [])], [])
  }

  function CanonicalGroups(entries: seq<Entry>, event: string, ctx: Context): seq<Group> {
    if entries == [] then []
    else (if entries[0].event == event then [CanonicalGroup(entries[0], ctx)] else [])
         + CanonicalGroups(entries[1..], event, ctx)
  }

  function GroupsAt(events: map<string, EventValue>, event: string): seq<Group> {
    if event in events && events[event].Groups? then events[event].groups else []
  }

  function EventsOf(s: Settings): map<string, EventValue> { if s.hooks.Events? then s.hooks.events else map[] }

  predicate Mergeable(s: Settings, entries: seq<Entry>) {
    !s.hooks.NotObject? && forall e | e in ManagedEvents(entries) && e in EventsOf(s) :: EventsOf(s)[e].Groups?
  }

  function MergedAt(events: map<string, EventValue>, entries: seq<Entry>, event: string, ctx: Context): seq<Group> {
    KeepGroups(GroupsAt(events, event), Ours(entries, ctx)) + CanonicalGroups(entries, event, ctx)
  }

  function Merged(s: Settings, entries: seq<Entry>, ctx: Context): Settings {
    var events := EventsOf(s);
    s.(hooks := Events(map e | e in events.Keys + ManagedEvents(entries) ::
                         if e in ManagedEvents(entries) then Groups(MergedAt(events, entries, e, ctx)) else events[e]))
  }

  function Merge(s: Settings, entries: seq<Entry>, ctx: Context): Result<Settings> {
    if s.hooks.NotObject? then Err(HooksNotAnObject)
    else if !Mergeable(s, entries) then Err(EventNotAnArray)
    else Ok(Merged(s, entries, ctx))
  }

  /** The managed events, each once, in the order the manifest first names them. */
  function EventOrder(entries: seq<Entry>): (order: seq<string>)
    ensures forall e :: e in order <==> e in ManagedEvents(entries)
    ensures forall i, j | 0 <= i < j < |order| :: order[i] != order[j]
  {
    if entries == [] then []
    else
      var last := entries[|entries| - 1];
      var order := EventOrder(entries[..|entries| - 1]);
      assert entries == entries[..|entries| - 1] + [last];
      assert ManagedEvents(entries) == ManagedEvents(entries[..|entries| - 1]) + {last.event};
      if last.event in order then order else order + [last.event]
  }

  method KeepUnmanaged(groups: seq<Group>, scripts: set<string>, ctx: Context, ghost doomed: string -> bool)
    returns (kept: seq<Group>)
    requires forall c :: doomed(c) == ClassifyHandler(c, scripts, ctx).Managed?
    ensures kept == KeepGroups(groups, doomed)
  {
    kept := [];
    for k := 0 to |groups|
      invariant kept == KeepGroups(groups[..k], doomed)
    {
      var g := groups[k];
      assert groups[..k + 1] == groups[..k] + [g];
      KeepGroupsAppend(groups[..k], [g], doomed);
      KeepOneGroup(g, doomed);
      if g.Malformed? {
        kept := kept + [g];
        continue;
      }
      var handlers := KeepUnmanagedHandlers(g.handlers, scripts, ctx, doomed);
      if handlers != [] { kept := kept + [g.(handlers := handlers)]; }
    }
    assert groups[..|groups|] == groups;
  }

  method KeepUnmanagedHandlers(handlers: seq<Handler>, scripts: set<string>, ctx: Context, ghost doomed: string -> bool)
    returns (kept: seq<Handler>)
    requires forall c :: doomed(c) == ClassifyHandler(c, scripts, ctx).Managed?
    ensures kept == KeepHandlers(handlers, doomed)
  {
    kept := [];
    for i := 0 to |handlers|
      invariant kept == KeepHandlers(handlers[..i], doomed)
    {
      assert handlers[..i + 1] == handlers[..i] + [handlers[i]];
      KeepHandlersAppend(handlers[..i], [handlers[i]], doomed);
      KeepOneHandler(handlers[i], doomed);
      if !ClassifyHandler(CommandOf(handlers[i]), scripts, ctx).Managed? { kept := kept + [handlers[i]]; }
    }
    assert handlers[..|handlers|] == handlers;
  }

  lemma KeepOneHandler(h: Handler, doomed: string -> bool)
    ensures KeepHandlers([h], doomed) == if doomed(CommandOf(h)) then [] else [h]
  {
    assert [h][1..] == [];
  }

  lemma KeepOneGroup(g: Group, doomed: string -> bool)
    ensures KeepGroups([g], doomed) == KeepGroup(g, doomed)
  {
    assert [g][1..] == [];
  }

  method AppendCanonical(kept: seq<Group>, entries: seq<Entry>, event: string, ctx: Context)
    returns (groups: seq<Group>)
    ensures groups == kept + CanonicalGroups(entries, event, ctx)
  {
    groups := kept;
    for i := 0 to |entries|
      invariant groups == kept + CanonicalGroups(entries[..i], event, ctx)
    {
      assert entries[..i + 1] == entries[..i] + [entries[i]];
      CanonicalGroupsAppend(entries[..i], entries[i], event, ctx);
      if entries[i].event == event { groups := groups + [CanonicalGroup(entries[i], ctx)]; }
    }
    assert entries[..|entries|] == entries;
  }

  /** The document's events once the first k managed events have been reconciled. */
  ghost predicate MergedSoFar(before: map<string, EventValue>, hooks: map<string, EventValue>, entries: seq<Entry>,
                              ctx: Context, done: set<string>) {
    && hooks.Keys == before.Keys + done
    && (forall e | e in done :: hooks[e] == Groups(MergedAt(before, entries, e, ctx)))
    && (forall e | e in done && e in before :: before[e].Groups?)
    && (forall e | e in before && e !in done :: hooks[e] == before[e])
  }

  lemma MergedAtLast(s: Settings, hooks: map<string, EventValue>, entries: seq<Entry>, ctx: Context)
    requires !s.hooks.NotObject? && MergedSoFar(EventsOf(s), hooks, entries, ctx, ManagedEvents(entries))
    ensures Merge(s, entries, ctx) == Ok(s.(hooks := Events(hooks)))
  {
    assert Mergeable(s, entries);
    assert hooks == Merged(s, entries, ctx).hooks.events;
  }

  /** Reconcile the managed block, one managed event at a time. */
  method MergeHooks(s: Settings, entries: seq<Entry>, ctx: Context) returns (r: Result<Settings>)
    ensures r == Merge(s, entries, ctx)
  {
    if s.hooks.NotObject? { return Err(HooksNotAnObject); }
    var before := EventsOf(s);
    var hooks := before;
    var order := EventOrder(entries);
    for k := 0 to |order|
      invariant MergedSoFar(before, hooks, entries, ctx, Firsts(order, k))
    {
      var event := order[k];
      assert Firsts(order, k + 1) == Firsts(order, k) + {event};
      assert event !in Firsts(order, k);
      if event in hooks && hooks[event].NotArray? { return Err(EventNotAnArray); }
      var kept := KeepUnmanaged(GroupsAt(hooks, event), Scripts(entries), ctx, Ours(entries, ctx));
      kept := AppendCanonical(kept, entries, event, ctx);
      hooks := hooks[event := Groups(kept)];
    }
    assert Firsts(order, |order|) == ManagedEvents(entries);
    MergedAtLast(s, hooks, entries, ctx);
    r := Ok(s.(hooks := Events(hooks)));
  }

  function Firsts(order: seq<string>, k: nat): set<string>
    requires k <= |order|
  {
    set i | 0 <= i < k :: order[i]
  }

  lemma {:induction false} KeepHandlersAppend(a: seq<Handler>, b: seq<Handler>, doomed: string -> bool)
    ensures KeepHandlers(a + b, doomed) == KeepHandlers(a, doomed) + KeepHandlers(b, doomed)
  {
    if a == [] {
      assert a + b == b;
    } else {
      assert (a + b)[1..] == a[1..] + b;
      KeepHandlersAppend(a[1..], b, doomed);
    }
  }

  lemma {:induction false} KeepGroupsAppend(a: seq<Group>, b: seq<Group>, doomed: string -> bool)
    ensures KeepGroups(a + b, doomed) == KeepGroups(a, doomed) + KeepGroups(b, doomed)
  {
    if a == [] {
      assert a + b == b;
    } else {
      assert (a + b)[1..] == a[1..] + b;
      KeepGroupsAppend(a[1..], b, doomed);
    }
  }

  lemma {:induction false} CanonicalGroupsAppend(entries: seq<Entry>, e: Entry, event: string, ctx: Context)
    ensures CanonicalGroups(entries + [e], event, ctx)
         == CanonicalGroups(entries, event, ctx) + (if e.event == event then [CanonicalGroup(e, ctx)] else [])
  {
    if entries != [] {
      assert (entries + [e])[1..] == entries[1..] + [e];
      CanonicalGroupsAppend(entries[1..], e, event, ctx);
    }
  }
}
