/** install, status and uninstall of the managed hook block over one home directory
    (scripts/hooks_install.py): the settings file, the sidecar that records ownership, backups. */
module HookInstaller {
  import opened Collections
  import opened HookCommands
  import opened HookSettings
  import opened HookMergeProof

  datatype Recorded = Recorded(event: string, matcher: string, command: string)

  datatype Sidecar = Sidecar(
    pending: bool,
    digest: Id,                 // of the manifest it was written from
    root: string,               // in its one canonical spelling
    previousRoots: set<string>,
    entries: seq<Recorded>)

  /** Where the installer runs from, and into which home. */
  datatype Site = Site(root: Path, home: Path, interpreter: string)

  /** What is read from disk around an install: the manifest and its digest, the script files that
      exist, and the roots that still are checkouts. */
  datatype Disk = Disk(entries: seq<Entry>, digest: Id, scripts: set<string>, checkouts: set<string>)

  function CommandsOf(entries: seq<Recorded>): set<string> { set e | e in entries :: e.command }

  function OwnershipOf(sidecar: Option<Sidecar>, checkouts: set<string>, claimAnyRoot: bool): Ownership {
    if sidecar.None? then Ownership({}, {}, claimAnyRoot)
    else Ownership(({sidecar.value.root} + sidecar.value.previousRoots) * checkouts,
                   CommandsOf(sidecar.value.entries), claimAnyRoot)
  }

  function ContextOf(site: Site, sidecar: Option<Sidecar>, disk: Disk, claimAnyRoot: bool): Context {
    Context(site.root, site.home, site.interpreter, OwnershipOf(sidecar, disk.checkouts, claimAnyRoot))
  }

  function Record(entries: seq<Entry>, ctx: Context): seq<Recorded> {
    seq(|entries|, k requires 0 <= k < |entries| =>
          Recorded(entries[k].event, entries[k].matcher, Rendered(entries[k], ctx)))
  }

  function NewSidecar(disk: Disk, ctx: Context, pending: bool): Sidecar {
    var root := Lower(AsPosix(ctx.root));
    Sidecar(pending, disk.digest, root, ctx.ownership.roots - {root}, Record(disk.entries, ctx))
  }

  // ---- collisions ----

  /** A managed script's name, run from somewhere this installer cannot claim. */
  predicate CollidesAs(item: Item, command: string, entries: seq<Entry>, ctx: Context) {
    && item.Handled? && CommandOf(item.handler) == command
    && ClassifyHandler(command, Scripts(entries), ctx).Collision?
  }

  predicate Collides(s: Settings, entries: seq<Entry>, ctx: Context, event: string, command: string) {
    && event in ManagedEvents(entries)
    && exists k :: 0 <= k < |Flat(GroupsAt(EventsOf(s), event))|
                && CollidesAs(Flat(GroupsAt(EventsOf(s), event))[k], command, entries, ctx)
  }

  ghost predicate NoCollision(s: Settings, entries: seq<Entry>, ctx: Context) {
    forall event, command :: !Collides(s, entries, ctx, event, command)
  }

  method CollectCollisions(items: seq<Item>, event: string, entries: seq<Entry>, ctx: Context)
    returns (found: seq<(string, string)>)
    ensures forall e, c ::
              (e, c) in found <==> e == event && exists k :: 0 <= k < |items| && CollidesAs(items[k], c, entries, ctx)
  {
    found := [];
    for k := 0 to |items|
      invariant forall e, c ::
                  (e, c) in found <==> e == event && exists i :: 0 <= i < k && CollidesAs(items[i], c, entries, ctx)
    {
      if items[k].Handled? {
        var command := CommandOf(items[k].handler);
        if ClassifyHandler(command, Scripts(entries), ctx).Collision? {
          assert CollidesAs(items[k], command, entries, ctx);
          found := found + [(event, command)];
        }
      }
    }
  }

  /** Raises when a managed event, or the "hooks" of one of its groups, cannot be iterated. */
  method ComputeCollisions(s: Settings, entries: seq<Entry>, ctx: Context)
    returns (raised: bool, found: seq<(string, string)>)
    ensures raised <==> !Walkable(s, ManagedEvents(entries))
    ensures !raised ==> forall e, c :: (e, c) in found <==> Collides(s, entries, ctx, e, c)
    ensures !raised ==> (found == [] <==> NoCollision(s, entries, ctx))
  {
    raised, found := false, [];
    var order := EventOrder(entries);
    for k := 0 to |order|
      invariant Walkable(s, Firsts(order, k))
      invariant forall e, c :: (e, c) in found <==> e in Firsts(order, k) && Collides(s, entries, ctx, e, c)
    {
      assert Firsts(order, k + 1) == Firsts(order, k) + {order[k]};
      if order[k] in EventsOf(s) && !EventWalkable(EventsOf(s)[order[k]]) { return true, []; }
      var more := CollectCollisions(Flat(GroupsAt(EventsOf(s), order[k])), order[k], entries, ctx);
      found := found + more;
    }
    assert Firsts(order, |order|) == ManagedEvents(entries);
    if found != [] {
      var e, c := found[0].0, found[0].1;
      assert (e, c) in found && Collides(s, entries, ctx, e, c);
    }
  }

  // ---- what is there ----

  datatype Key = Key(event: string, matcher: string, command: string)

  function KeyOf(event: string, item: Item): Key
    requires item.Handled?
  {
    Key(event, if item.matcher.Some? then item.matcher.value else "", CommandOf(item.handler))
  }

  function KeysIn(event: string, items: seq<Item>): seq<Key>
    requires forall k | 0 <= k < |items| :: items[k].Handled?
  {
    seq(|items|, k requires 0 <= k < |items| => KeyOf(event, items[k]))
  }

  lemma {:induction false} DoomedAreHandled(items: seq<Item>, doomed: string -> bool)
    ensures forall k | 0 <= k < |Doomed(items, doomed)| :: Doomed(items, doomed)[k].Handled?
  {
    if items != [] { DoomedAreHandled(items[1..], doomed); }
  }

  function ManagedKeys(event: string, items: seq<Item>, doomed: string -> bool): seq<Key> {
    DoomedAreHandled(items, doomed);
    KeysIn(event, Doomed(items, doomed))
  }

  /** The managed handlers of some events of a document. */
  function Actual(events: map<string, EventValue>, order: seq<string>, doomed: string -> bool): seq<Key> {
    if order == [] then []
    else
      var last := order[|order| - 1];
      Actual(events, order[..|order| - 1], doomed) + ManagedKeys(last, Flat(GroupsAt(events, last)), doomed)
  }

  function Keys(entries: seq<Entry>, ctx: Context): seq<Key> {
    seq(|entries|, k requires 0 <= k < |entries| =>
          Key(entries[k].event, entries[k].matcher, Rendered(entries[k], ctx)))
  }

  // ---- status ----

  datatype Verdict =
    | AllOk | UnverifiedPresent | NeverInstalled | MissingBlock
    | Drifted | UnresolvedPath | IncompleteInstall | Colliding

  /** What one entry asks for: a handler, and its script on disk. */
  datatype Want = Want(key: Key, onDisk: bool)

  function WantOf(e: Entry, ctx: Context, scripts: set<string>): Want {
    Want(Key(e.event, e.matcher, Rendered(e, ctx)), e.script in scripts)
  }

  function Wants(entries: seq<Entry>, ctx: Context, scripts: set<string>): seq<Want> {
    seq(|entries|, k requires 0 <= k < |entries| => WantOf(entries[k], ctx, scripts))
  }

  function KeysWanted(wants: seq<Want>): seq<Key> { seq(|wants|, k requires 0 <= k < |wants| => wants[k].key) }

  predicate AllOnDisk(wants: seq<Want>) { forall k | 0 <= k < |wants| :: wants[k].onDisk }

  /** The verdict on one entry against the managed handlers not yet accounted for. */
  function Judge(w: Want, left: seq<Key>, recorded: bool, anyPresent: bool): Verdict {
    if !w.onDisk then UnresolvedPath
    else if w.key in left then (if recorded then AllOk else UnverifiedPresent)
    else if !anyPresent && !recorded then NeverInstalled
    else MissingBlock
  }

  predicate Matches(v: Verdict) { v == AllOk || v == UnverifiedPresent }

  /** list.remove(key). */
  function RemoveFirst(keys: seq<Key>, key: Key): seq<Key>
    requires key in keys
  {
    if keys[0] == key then keys[1..] else [keys[0]] + RemoveFirst(keys[1..], key)
  }

  datatype Walked = Walked(verdicts: seq<Verdict>, left: seq<Key>)

  /** A match uses up one managed handler. */
  function Step(sofar: Walked, w: Want, recorded: bool, anyPresent: bool): Walked {
    var v := Judge(w, sofar.left, recorded, anyPresent);
    Walked(sofar.verdicts + [v], if Matches(v) then RemoveFirst(sofar.left, w.key) else sofar.left)
  }

  function Walk(wants: seq<Want>, actual: seq<Key>, recorded: bool, anyPresent: bool): (r: Walked)
    ensures |r.verdicts| == |wants|
  {
    if wants == [] then Walked([], actual)
    else Step(Walk(wants[..|wants| - 1], actual, recorded, anyPresent), wants[|wants| - 1], recorded, anyPresent)
  }

  function Rollup(verdicts: set<Verdict>, pending: bool, collisions: bool): Verdict {
    if pending then IncompleteInstall
    else if UnresolvedPath in verdicts then UnresolvedPath
    else if Drifted in verdicts then Drifted
    else if MissingBlock in verdicts then MissingBlock
    else if NeverInstalled in verdicts then NeverInstalled
    else if collisions then Colliding
    else if UnverifiedPresent in verdicts then UnverifiedPresent
    else AllOk
  }

  /** Everything the manifest asks for is there once, and no more; and an install said so. */
  ghost predicate Healthy(s: Settings, sidecar: Option<Sidecar>, disk: Disk, ctx: Context) {
    && sidecar.Some? && !sidecar.value.pending
    && (forall e | e in disk.entries :: e.script in disk.scripts)
    && multiset(Actual(EventsOf(s), EventOrder(disk.entries), Ours(disk.entries, ctx)))
       == multiset(Keys(disk.entries, ctx))
    && NoCollision(s, disk.entries, ctx)
  }

  method ActualManaged(s: Settings, entries: seq<Entry>, ctx: Context) returns (raised: bool, actual: seq<Key>)
    ensures raised <==> !Walkable(s, ManagedEvents(entries))
    ensures !raised ==> actual == Actual(EventsOf(s), EventOrder(entries), Ours(entries, ctx))
  {
    raised, actual := false, [];
    var order := EventOrder(entries);
    for k := 0 to |order|
      invariant Walkable(s, Firsts(order, k))
      invariant actual == Actual(EventsOf(s), order[..k], Ours(entries, ctx))
    {
      assert order[..k + 1][..k] == order[..k];
      assert Firsts(order, k + 1) == Firsts(order, k) + {order[k]};
      if order[k] in EventsOf(s) && !EventWalkable(EventsOf(s)[order[k]]) { return true, []; }
      actual := actual + ManagedKeys(order[k], Flat(GroupsAt(EventsOf(s), order[k])), Ours(entries, ctx));
    }
    assert order[..|order|] == order && Firsts(order, |order|) == ManagedEvents(entries);
  }

  /** Judge what the entries ask for in turn, taking each match off the list. */
  method JudgeEntries(wants: seq<Want>, found: seq<Key>, recorded: bool)
    returns (verdicts: seq<Verdict>, left: seq<Key>)
    ensures Walked(verdicts, left) == Walk(wants, found, recorded, found != [])
  {
    verdicts, left := [], found;
    for k := 0 to |wants|
      invariant Walked(verdicts, left) == Walk(wants[..k], found, recorded, found != [])
    {
      assert wants[..k + 1][..k] == wants[..k];
      if !wants[k].onDisk {
        verdicts := verdicts + [UnresolvedPath];
      } else if wants[k].key in left {
        left := RemoveFirst(left, wants[k].key);
        verdicts := verdicts + [if recorded then AllOk else UnverifiedPresent];
      } else if found == [] && !recorded {
        verdicts := verdicts + [NeverInstalled];
      } else {
        verdicts := verdicts + [MissingBlock];
      }
    }
    assert wants[..|wants|] == wants;
  }

  function VerdictSet(walked: seq<Verdict>, drifted: bool): set<Verdict> {
    (set v | v in walked) + (if drifted then {Drifted} else {})
  }

  /** Roll the verdicts up, with one DRIFTED for every managed handler left over. */
  method RollUp(walked: seq<Verdict>, left: seq<Key>, pending: bool, collisions: bool) returns (overall: Verdict)
    ensures overall == Rollup(VerdictSet(walked, left != []), pending, collisions)
  {
    var verdicts: set<Verdict> := set v | v in walked;
    for i := 0 to |left|
      invariant verdicts == VerdictSet(walked, i > 0)
    {
      verdicts := verdicts + {Drifted};
    }
    overall := Rollup(verdicts, pending, collisions);
  }

  /** What status should say, given which managed handlers are there and which are wanted. */
  ghost function Expected(s: Settings, sidecar: Option<Sidecar>, disk: Disk, ctx: Context): Verdict {
    var actual := multiset(Actual(EventsOf(s), EventOrder(disk.entries), Ours(disk.entries, ctx)));
    var wanted := multiset(Keys(disk.entries, ctx));
    if sidecar.Some? && sidecar.value.pending then IncompleteInstall
    else if exists e :: e in disk.entries && e.script !in disk.scripts then UnresolvedPath
    else if !(actual <= wanted) then Drifted
    else if actual != wanted then (if actual == multiset{} && sidecar.None? then NeverInstalled else MissingBlock)
    else if !NoCollision(s, disk.entries, ctx) then Colliding
    else if sidecar.None? then UnverifiedPresent
    else AllOk
  }

  /** The overall verdict is the expected one; it is OK exactly when the installation is healthy.
      There is none, because status raises, when something in a managed event cannot be iterated. */
  method Status(s: Settings, sidecar: Option<Sidecar>, site: Site, disk: Disk) returns (overall: Option<Verdict>)
    requires disk.entries != []          // the manifest loader accepts no other
    ensures overall.None? <==> !Walkable(s, ManagedEvents(disk.entries))
    ensures overall.Some? ==>
              && overall.value == Expected(s, sidecar, disk, ContextOf(site, sidecar, disk, false))
              && (overall.value == AllOk <==> Healthy(s, sidecar, disk, ContextOf(site, sidecar, disk, false)))
  {
    var ctx := ContextOf(site, sidecar, disk, false);
    var raised, actual := ActualManaged(s, disk.entries, ctx);
    if raised { return None; }
    var _, collisions := ComputeCollisions(s, disk.entries, ctx);
    var wants := Wants(disk.entries, ctx, disk.scripts);
    var walked, left := JudgeEntries(wants, actual, sidecar.Some?);
    var verdict := RollUp(walked, left, sidecar.Some? && sidecar.value.pending, collisions != []);
    WalkAsExpected(s, sidecar, disk, ctx);
    ExpectedIsHealthy(s, sidecar, disk, ctx);
    overall := Some(verdict);
  }

  /** Judging the entries against the handlers found, and rolling up, gives the expected verdict. */
  lemma WalkAsExpected(s: Settings, sidecar: Option<Sidecar>, disk: Disk, ctx: Context)
    requires disk.entries != []
    ensures var actual := Actual(EventsOf(s), EventOrder(disk.entries), Ours(disk.entries, ctx));
            var w := Walk(Wants(disk.entries, ctx, disk.scripts), actual, sidecar.Some?, actual != []);
            var pending := sidecar.Some? && sidecar.value.pending;
            Expected(s, sidecar, disk, ctx) ==
            Rollup(VerdictSet(w.verdicts, w.left != []), pending, !NoCollision(s, disk.entries, ctx))
  {
    var actual := Actual(EventsOf(s), EventOrder(disk.entries), Ours(disk.entries, ctx));
    var wants := Wants(disk.entries, ctx, disk.scripts);
    OnDisk(disk.entries, ctx, disk.scripts);
    WantedKeys(disk.entries, ctx, disk.scripts);
    RollupOfWalk(wants, actual, sidecar.Some?, sidecar.Some? && sidecar.value.pending,
                 !NoCollision(s, disk.entries, ctx));
  }

  lemma WantedKeys(entries: seq<Entry>, ctx: Context, scripts: set<string>)
    ensures KeysWanted(Wants(entries, ctx, scripts)) == Keys(entries, ctx)
  {
  }

  lemma ExpectedIsHealthy(s: Settings, sidecar: Option<Sidecar>, disk: Disk, ctx: Context)
    ensures Expected(s, sidecar, disk, ctx) == AllOk <==> Healthy(s, sidecar, disk, ctx)
  {
  }

  function Unmatched(recorded: bool, anyPresent: bool): Verdict {
    if !anyPresent && !recorded then NeverInstalled else MissingBlock
  }

  function Matched(recorded: bool): Verdict { if recorded then AllOk else UnverifiedPresent }

  /** Which verdicts a walk gives, with every script on disk. */
  lemma {:induction false} WalkKinds(wants: seq<Want>, actual: seq<Key>, recorded: bool, anyPresent: bool)
    requires AllOnDisk(wants)
    ensures forall v | v in Walk(wants, actual, recorded, anyPresent).verdicts ::
              v == Matched(recorded) || v == Unmatched(recorded, anyPresent)
  {
    if wants != [] { WalkKinds(wants[..|wants| - 1], actual, recorded, anyPresent); }
  }

  lemma {:induction false} WalkUnresolved(wants: seq<Want>, actual: seq<Key>, recorded: bool, anyPresent: bool)
    ensures UnresolvedPath in Walk(wants, actual, recorded, anyPresent).verdicts <==> !AllOnDisk(wants)
  {
    if wants != [] {
      var last := |wants| - 1;
      WalkUnresolved(wants[..last], actual, recorded, anyPresent);
      assert AllOnDisk(wants) <==> AllOnDisk(wants[..last]) && wants[last].onDisk by {
        assert forall k | 0 <= k < last :: wants[..last][k] == wants[k];
      }
    }
  }

  lemma RollupOfWalk(wants: seq<Want>, actual: seq<Key>, recorded: bool, pending: bool, collisions: bool)
    requires wants != []
    ensures var w := Walk(wants, actual, recorded, actual != []);
            var wanted := multiset(KeysWanted(wants));
            Rollup(VerdictSet(w.verdicts, w.left != []), pending, collisions) ==
            if pending then IncompleteInstall
            else if !AllOnDisk(wants) then UnresolvedPath
            else if !(multiset(actual) <= wanted) then Drifted
            else if multiset(actual) != wanted then
              (if multiset(actual) == multiset{} && !recorded then NeverInstalled else MissingBlock)
            else if collisions then Colliding
            else if !recorded then UnverifiedPresent
            else AllOk
  {
    var w := Walk(wants, actual, recorded, actual != []);
    var wanted := multiset(KeysWanted(wants));
    WalkUnresolved(wants, actual, recorded, actual != []);
    if AllOnDisk(wants) {
      WalkKinds(wants, actual, recorded, actual != []);
      WalkIsClean(wants, actual, recorded, actual != []);
      LeftOver(w.left, multiset(actual), wanted);
      NoneThere(actual);
      AllMatchKinds(w.verdicts, recorded, actual != []);
      RollupKinds(w.verdicts, w.left != [], recorded, actual != [], pending, collisions);
    } else {
      assert UnresolvedPath in VerdictSet(w.verdicts, w.left != []);
    }
  }

  lemma RollupKinds(verdicts: seq<Verdict>, drifted: bool, recorded: bool, anyPresent: bool, pending: bool,
                    collisions: bool)
    requires verdicts != []
    requires forall v | v in verdicts :: v == Matched(recorded) || v == Unmatched(recorded, anyPresent)
    ensures Rollup(VerdictSet(verdicts, drifted), pending, collisions) ==
            if pending then IncompleteInstall
            else if drifted then Drifted
            else if Unmatched(recorded, anyPresent) in verdicts then Unmatched(recorded, anyPresent)
            else if collisions then Colliding
            else Matched(recorded)
  {
    assert verdicts[0] in verdicts && verdicts[0] in VerdictSet(verdicts, drifted);
    assert forall v :: v in VerdictSet(verdicts, drifted) <==> v in verdicts || (drifted && v == Drifted);
  }

  lemma AllMatchKinds(verdicts: seq<Verdict>, recorded: bool, anyPresent: bool)
    requires forall v | v in verdicts :: v == Matched(recorded) || v == Unmatched(recorded, anyPresent)
    ensures AllMatch(verdicts) <==> Unmatched(recorded, anyPresent) !in verdicts
  {
    if Unmatched(recorded, anyPresent) !in verdicts {
      forall k | 0 <= k < |verdicts| ensures Matches(verdicts[k]) { assert verdicts[k] in verdicts; }
    }
  }

  lemma NoneThere(actual: seq<Key>)
    ensures multiset(actual) == multiset{} <==> actual == []
  {
    if actual != [] { assert actual[0] in multiset(actual); }
  }

  /** What is left over once the wanted handlers have been taken, if they were there. */
  lemma LeftOver(left: seq<Key>, actual: multiset<Key>, wanted: multiset<Key>)
    requires multiset(left) == actual - wanted
    ensures left == [] <==> actual <= wanted
    ensures wanted <= actual && actual <= wanted ==> actual == wanted
  {
    NoneThere(left);
    if actual <= wanted { assert actual - wanted == multiset{}; }
    if actual - wanted == multiset{} {
      forall k ensures actual[k] <= wanted[k] { assert (actual - wanted)[k] == 0; }
    }
  }

  lemma OnDisk(entries: seq<Entry>, ctx: Context, scripts: set<string>)
    ensures AllOnDisk(Wants(entries, ctx, scripts)) <==> forall e | e in entries :: e.script in scripts
  {
    if AllOnDisk(Wants(entries, ctx, scripts)) {
      forall e | e in entries ensures e.script in scripts {
        var k :| 0 <= k < |entries| && entries[k] == e;
        assert Wants(entries, ctx, scripts)[k].onDisk;
      }
    }
  }

  predicate AllMatch(verdicts: seq<Verdict>) { forall k | 0 <= k < |verdicts| :: Matches(verdicts[k]) }

  lemma {:induction false} RemovedOne(keys: seq<Key>, key: Key)
    requires key in keys
    ensures multiset(RemoveFirst(keys, key)) == multiset(keys) - multiset{key}
  {
    assert keys == [keys[0]] + keys[1..];
    if keys[0] != key { RemovedOne(keys[1..], key); }
  }

  /** What is left is what was not wanted; all matched means all wanted ones were there. */
  ghost predicate Clean(w: Walked, wants: seq<Want>, actual: multiset<Key>) {
    && (AllMatch(w.verdicts) <==> multiset(KeysWanted(wants)) <= actual)
    && multiset(w.left) == actual - multiset(KeysWanted(wants))
  }

  lemma StepIsClean(w: Walked, wants: seq<Want>, next: Want, actual: multiset<Key>, recorded: bool, anyPresent: bool)
    requires Clean(w, wants, actual) && next.onDisk
    ensures Clean(Step(w, next, recorded, anyPresent), wants + [next], actual)
  {
    var v := Judge(next, w.left, recorded, anyPresent);
    var wanted := multiset(KeysWanted(wants));
    assert KeysWanted(wants + [next]) == KeysWanted(wants) + [next.key];
    assert multiset(KeysWanted(wants + [next])) == wanted + multiset{next.key};
    AllMatchAppend(w.verdicts, v);
    OneMore(actual, wanted, next.key);
    assert next.key in w.left <==> next.key in multiset(w.left);
    if Matches(v) { RemovedOne(w.left, next.key); }
  }

  /** Every entry is matched exactly when the wanted handlers are all there, each as often as it is
      wanted; what is left is the rest. */
  lemma {:induction false} WalkIsClean(wants: seq<Want>, actual: seq<Key>, recorded: bool, anyPresent: bool)
    requires AllOnDisk(wants)
    ensures Clean(Walk(wants, actual, recorded, anyPresent), wants, multiset(actual))
  {
    if wants != [] {
      var earlier, last := wants[..|wants| - 1], wants[|wants| - 1];
      assert wants == earlier + [last] && AllOnDisk(earlier);
      WalkIsClean(earlier, actual, recorded, anyPresent);
      StepIsClean(Walk(earlier, actual, recorded, anyPresent), earlier, last, multiset(actual), recorded, anyPresent);
      assert Walk(wants, actual, recorded, anyPresent)
          == Step(Walk(earlier, actual, recorded, anyPresent), last, recorded, anyPresent);
    } else {
      assert KeysWanted(wants) == [];
    }
  }

  lemma AllMatchAppend(verdicts: seq<Verdict>, v: Verdict)
    ensures AllMatch(verdicts + [v]) <==> AllMatch(verdicts) && Matches(v)
  {
    assert (verdicts + [v])[|verdicts|] == v;
    assert forall k | 0 <= k < |verdicts| :: (verdicts + [v])[k] == verdicts[k];
  }

  lemma OneMore(actual: multiset<Key>, wanted: multiset<Key>, key: Key)
    ensures wanted + multiset{key} <= actual <==> wanted <= actual && key in actual - wanted
    ensures actual - (wanted + multiset{key}) == actual - wanted - multiset{key}
  {
    if wanted + multiset{key} <= actual {
      assert (wanted + multiset{key})[key] <= actual[key];
    }
  }
}
