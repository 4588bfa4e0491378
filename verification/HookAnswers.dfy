/** What a hook command says and whose it is, and what an install records, spelled out. */
module HookAnswers {
  import opened Collections
  import opened HookCommands
  import opened HookSettings
  import opened HookInstaller

  // ---- the token of a command line ----

  predicate Blank(s: string) { forall k | 0 <= k < |s| :: Space(s[k]) }

  predicate Solid(s: string) { s != "" && forall k | 0 <= k < |s| :: !Space(s[k]) }

  /** With quotes, what is between the first two; nothing without a second one. */
  lemma QuotedAnswers(before: string, token: string, behind: string)
    requires '"' !in before && '"' !in token
    ensures CommandPathToken(before + "\"" + token + "\"" + behind) == Some(token)
    ensures CommandPathToken(before + "\"" + token) == None
  {
    TwoQuotes(before, token, behind);
    var command := before + "\"" + token;
    assert command[|before|] == '"' && !Space('"');
    FindFirst(command, '"', 0, |before|);
    assert forall k | 0 <= k < |token| :: command[|before| + 1 + k] == token[k];
    FindFirst(command, '"', |before| + 1, |command|);
  }

  lemma TwoQuotes(before: string, token: string, behind: string)
    requires '"' !in before && '"' !in token
    ensures CommandPathToken(before + "\"" + token + "\"" + behind) == Some(token)
  {
    var command := before + "\"" + token + "\"" + behind;
    var start := |before| + 1;
    var end := start + |token|;
    assert command[|before|] == '"' && command[end] == '"' && !Space('"');
    FindFirst(command, '"', 0, |before|);
    forall k | start <= k < end ensures command[k] != '"' { assert command[k] == token[k - start]; }
    FindFirst(command, '"', start, end);
    assert command[start..end] == token;
  }

  lemma {:induction false} WordsOfBlank(s: string)
    ensures Words(s) == [] <==> Blank(s)
  {
    if s != "" {
      WordsOfBlank(s[1..]);
      assert forall k | 0 <= k < |s| :: k > 0 ==> s[k] == s[1..][k - 1];
    }
  }

  lemma {:induction false} WordsOfWord(w: string, behind: string)
    requires Solid(w) && Blank(behind)
    ensures Words(w + behind) == [w]
  {
    var s := w + behind;
    assert s[1..] == w[1..] + behind;
    WordsOfBlank(behind);
    if |w| == 1 {
      assert s[1..] == behind && Words(s[1..]) == [] && w == [w[0]];
    } else {
      assert !Space(s[1]) by { assert s[1] == w[1]; }
      WordsOfWord(w[1..], behind);
      assert w == [w[0]] + w[1..];
    }
  }

  lemma {:induction false} WordsOfLast(before: string, gap: char, w: string, behind: string)
    requires Space(gap) && Solid(w) && Blank(behind)
    ensures Words(before + [gap] + w + behind) == Words(before) + [w]
  {
    var s := before + [gap] + w + behind;
    if before == "" {
      assert s[1..] == w + behind;
      WordsOfWord(w, behind);
    } else {
      var rest := before[1..] + [gap] + w + behind;
      assert s[1..] == rest;
      WordsOfLast(before[1..], gap, w, behind);
      var earlier := Words(before[1..]);
      assert Words(rest) == earlier + [w];
      if !Space(before[0]) {
        assert s[0] == before[0] && s[1] == if |before| == 1 then gap else before[1];
        WordsOfBlank(before[1..]);
        if |before| > 1 && !Space(before[1]) {
          assert before[1..][0] == before[1];
          assert (earlier + [w])[0] == earlier[0] && (earlier + [w])[1..] == earlier[1..] + [w];
        }
      }
    }
  }

  /** Without quotes, the last of two or more words; a command of one word, or none, is not read. */
  lemma UnquotedAnswers(before: string, gap: char, w: string, behind: string)
    requires Space(gap) && Solid(w) && Blank(behind) && '"' !in before && '"' !in w
    ensures CommandPathToken(before + [gap] + w + behind) == if Blank(before) then None else Some(w)
    ensures CommandPathToken(w + behind) == None
  {
    var command := before + [gap] + w + behind;
    assert command[|before| + 1] == w[0] && (w + behind)[0] == w[0];
    WordsOfLast(before, gap, w, behind);
    WordsOfBlank(before);
    WordsOfWord(w, behind);
  }

  // ---- whose script it is ----

  predicate SameName(a: string, b: string) { Lower(a) == Lower(b) }

  /** Whatever its case, the path leads through the directory: its components start with those of the
      directory and go on. */
  predicate Inside(p: Path, dir: Path) {
    && p.lead == dir.lead && |dir.parts| < |p.parts|
    && forall k | 0 <= k < |dir.parts| :: SameName(p.parts[k], dir.parts[k])
  }

  /** Only components, as every path that is read from text. */
  predicate Clean(p: Path) {
    p.lead in {"", "/", "//"} && forall k | 0 <= k < |p.parts| :: Component(p.parts[k])
  }

  function LowerAll(parts: seq<string>): seq<string> {
    seq(|parts|, k requires 0 <= k < |parts| => Lower(parts[k]))
  }

  predicate Slashless(parts: seq<string>) { forall k | 0 <= k < |parts| :: parts[k] != "" && '/' !in parts[k] }

  lemma {:induction false} LowerJoin(parts: seq<string>)
    ensures Lower(Join(parts)) == Join(LowerAll(parts))
  {
    if |parts| > 1 {
      LowerJoin(parts[1..]);
      assert LowerAll(parts)[1..] == LowerAll(parts[1..]);
      LowerAppend(parts[0] + "/", Join(parts[1..]));
      LowerAppend(parts[0], "/");
      assert Lower("/") == "/";
    }
  }

  lemma LowerParts(parts: seq<string>)
    requires forall k | 0 <= k < |parts| :: Component(parts[k])
    ensures Slashless(LowerAll(parts))
  {
    forall k | 0 <= k < |parts| ensures LowerAll(parts)[k] != "" && '/' !in LowerAll(parts)[k] {
      forall i | 0 <= i < |parts[k]| ensures LowerAll(parts)[k][i] != '/' {
        assert parts[k][i] != '/';
      }
    }
  }

  lemma FirstPart(a: string, x: string, b: string, y: string)
    requires '/' !in a && '/' !in b
    ensures a + "/" + x <= b + "/" + y <==> a == b && x <= y
    ensures !(a + "/" + x <= b)
  {
    var l, r := a + "/" + x, b + "/" + y;
    assert l[|a|] == '/';
    if l <= r {
      assert r[|a|] == '/';
      assert r[|b|] == '/';
      assert a == l[..|a|] && b == r[..|b|] && l[..|a|] == r[..|a|];
      assert x == l[|a| + 1..] && y == r[|b| + 1..];
    }
    if a == b && x <= y { assert r == a + "/" + x + y[|x|..]; }
  }

  lemma StartsInTurn(a: seq<string>, b: seq<string>)
    requires a != [] && b != []
    ensures |a| < |b| && a == b[..|a|] <==> a[0] == b[0] && |a[1..]| < |b[1..]| && a[1..] == b[1..][..|a[1..]|]
  {
    if |a| < |b| {
      assert a == [a[0]] + a[1..];
      assert b[..|a|] == [b[0]] + b[1..][..|a[1..]|];
    }
  }

  /** One joined path, and a slash, starts another exactly when its components start the other's. */
  lemma {:induction false} JoinStarts(a: seq<string>, b: seq<string>)
    requires a != [] && Slashless(a) && Slashless(b)
    ensures Join(a) + "/" <= Join(b) <==> |a| < |b| && a == b[..|a|]
  {
    var x := if |a| == 1 then "" else Join(a[1..]) + "/";
    assert Join(a) + "/" == a[0] + "/" + x;
    if |b| < 2 {
      FirstPart(a[0], x, Join(b), "");
    } else {
      JoinOf(b);
      FirstPart(a[0], x, b[0], Join(b[1..]));
      StartsInTurn(a, b);
      if |a| > 1 { JoinStarts(a[1..], b[1..]); }
    }
  }

  lemma JoinOf(b: seq<string>)
    requires |b| > 1
    ensures Join(b) == b[0] + "/" + Join(b[1..])
  {
  }

  lemma LeadsAgree(lead: string, x: string, other: string, y: string)
    requires lead in {"", "/", "//"} && other in {"", "/", "//"}
    requires x != "" && x[0] != '/' && (y == "" || y[0] != '/')
    ensures lead + x <= other + y <==> lead == other && x <= y
  {
    var l, r := lead + x, other + y;
    assert l[|lead|] == x[0] && l[|lead|..] == x && r[|other|..] == y;
    if l <= r {
      assert lead == l[..|lead|] && other == r[..|other|];
    }
    if lead == other && x <= y { assert r == l + y[|x|..]; }
  }

  lemma PartsStart(parts: seq<string>)
    requires Slashless(parts)
    ensures parts == [] ==> Join(parts) == ""
    ensures parts != [] ==> Join(parts) != "" && Join(parts)[0] != '/'
  {
    if parts != [] { assert parts[0][0] in parts[0]; }
  }

  lemma InsideByText(p: Path, dir: Path)
    requires Clean(p) && Clean(dir) && dir.parts != []
    ensures Lower(AsPosix(dir)) + "/" <= Lower(AsPosix(p)) <==> Inside(p, dir)
  {
    var a, b := LowerAll(dir.parts), LowerAll(p.parts);
    LowerParts(dir.parts);
    LowerParts(p.parts);
    LoweredPath(dir);
    LoweredPath(p);
    PartsStart(a);
    PartsStart(b);
    LeadsAgree(dir.lead, Join(a) + "/", p.lead, Join(b));
    assert dir.lead + Join(a) + "/" == dir.lead + (Join(a) + "/");
    JoinStarts(a, b);
    StartsByName(p.parts, dir.parts);
  }

  lemma LoweredPath(p: Path)
    requires Clean(p)
    ensures Lower(AsPosix(p)) == p.lead + Join(LowerAll(p.parts))
  {
    LowerAppend(p.lead, Join(p.parts));
    LowerJoin(p.parts);
    assert Lower(p.lead) == p.lead;
  }

  lemma StartsByName(parts: seq<string>, start: seq<string>)
    ensures |start| < |parts| && LowerAll(start) == LowerAll(parts)[..|start|] <==>
            |start| < |parts| && forall k | 0 <= k < |start| :: SameName(parts[k], start[k])
  {
    if |start| < |parts| && LowerAll(start) == LowerAll(parts)[..|start|] {
      forall k | 0 <= k < |start| ensures SameName(parts[k], start[k]) {
        assert LowerAll(start)[k] == LowerAll(parts)[..|start|][k];
      }
    }
  }

  lemma {:induction false} MeaningfulIsClean(parts: seq<string>)
    requires forall k | 0 <= k < |parts| :: '/' !in parts[k]
    ensures forall k | 0 <= k < |Meaningful(parts)| :: Component(Meaningful(parts)[k])
  {
    if parts != [] { MeaningfulIsClean(parts[1..]); }
  }

  lemma {:induction false} SplitIsSlashless(s: string)
    ensures forall k | 0 <= k < |Split(s)| :: '/' !in Split(s)[k]
  {
    if s != "" { SplitIsSlashless(s[1..]); }
  }

  lemma ParsedIsClean(s: string)
    ensures Clean(Parse(s))
  {
    SplitIsSlashless(s);
    MeaningfulIsClean(Split(s));
  }

  function ScriptOf(command: string): Path
    requires CommandPathToken(command).Some?
  {
    Parse(Slashed(CommandPathToken(command).value))
  }

  lemma WithinIsInside(token: string, dir: Path)
    requires Clean(dir) && dir.parts != []
    ensures var p := Parse(Slashed(token));
            Within(Resolved(token), Lower(AsPosix(dir)), Name(p)) <==> Inside(p, dir)
  {
    var p := Parse(Slashed(token));
    var text := Lower(AsPosix(dir));
    ParsedIsClean(Slashed(token));
    InsideByText(p, dir);
    LowerTwice(AsPosix(dir));
    LowerAppend(text + "/", Name(p));
    LowerAppend(text, "/");
    assert Lower("/") == "/";
    if Resolved(token) == Lower(text + "/" + Name(p)) {
      assert Resolved(token) == text + "/" + Lower(Name(p));
    }
  }

  lemma LowerTwice(s: string)
    ensures Lower(Lower(s)) == Lower(s)
  {
  }

  /** In one of the directories this installer owns: scripts under its own checkout, .claude/scripts under
      the home, or scripts under another checkout it has installed from. */
  ghost predicate InOwnedDirectory(p: Path, ctx: Context, others: set<Path>) {
    || Inside(p, Under(ctx.root, "scripts"))
    || Inside(p, Under(Under(ctx.home, ".claude"), "scripts"))
    || exists r :: r in others && Inside(p, Under(r, "scripts"))
  }

  /** The roots of a context are those of these paths, in their canonical spelling. */
  ghost predicate Spells(ctx: Context, others: set<Path>) {
    && (forall r | r in others :: Clean(r) && r.parts != [] && Lower(AsPosix(r)) in ctx.ownership.roots)
    && (forall s | s in ctx.ownership.roots :: exists r :: r in others && Lower(AsPosix(r)) == s)
  }

  lemma RootScripts(r: Path)
    requires Clean(r) && r.parts != []
    ensures Lower(AsPosix(r)) + "/scripts" == Lower(AsPosix(Under(r, "scripts"))) && Clean(Under(r, "scripts"))
  {
    assert Component("scripts");
    JoinAppend(r.parts, "scripts");
    assert AsPosix(Under(r, "scripts")) == AsPosix(r) + ("/" + "scripts");
    LowerAppend(AsPosix(r), "/scripts");
    assert Lower("/scripts") == "/scripts" && "/" + "scripts" == "/scripts";
  }

  lemma AllowedByPlace(token: string, ctx: Context, others: set<Path>)
    requires Clean(ctx.root) && Clean(ctx.home) && Spells(ctx, others)
    ensures var p := Parse(Slashed(token));
            Allowed(Resolved(token), Name(p), ctx) <==> InOwnedDirectory(p, ctx, others)
  {
    var p := Parse(Slashed(token));
    assert Component("scripts") && Component(".claude");
    WithinIsInside(token, Under(ctx.root, "scripts"));
    WithinIsInside(token, Under(Under(ctx.home, ".claude"), "scripts"));
    forall r | r in others
      ensures Within(Resolved(token), Lower(AsPosix(r)) + "/scripts", Name(p)) <==> Inside(p, Under(r, "scripts"))
    {
      RootScripts(r);
      WithinIsInside(token, Under(r, "scripts"));
    }
  }

  /** A command is foreign when it does not run a script of a managed name, and unclassified when it
      cannot be read. One that does is ours if an install recorded it, if every root is claimed, or by
      the directory of its script; otherwise it collides. */
  lemma ClassificationAnswers(command: string, scripts: set<string>, ctx: Context, others: set<Path>)
    requires Clean(ctx.root) && Clean(ctx.home) && Spells(ctx, others)
    ensures ClassifyHandler(command, scripts, ctx)
            == if CommandPathToken(command).None? then Unclassified
               else
                 var p := ScriptOf(command);
                 if p.parts == [] && "" !in scripts then Foreign
                 else if p.parts != [] && p.parts[|p.parts| - 1] !in scripts then Foreign
                 else if || command in ctx.ownership.commands || ctx.ownership.claimAnyRoot
                         || InOwnedDirectory(p, ctx, others)
                 then Managed(Name(p)) else Collision(Name(p))
  {
    if CommandPathToken(command).Some? { AllowedByPlace(CommandPathToken(command).value, ctx, others); }
  }

  // ---- what an install writes ----

  /** Something in the event cannot be iterated: its value, or the "hooks" of one of its groups. */
  predicate CannotIterate(v: EventValue) {
    match v
    case NotArray(None) => true
    case NotArray(Some(groups)) => exists k :: 0 <= k < |groups| && groups[k].Malformed? && !groups[k].iterable
    case Groups(groups) => exists k :: 0 <= k < |groups| && groups[k].Malformed? && !groups[k].iterable
  }

  /** Going through these events raises exactly when something in one of them cannot be iterated. */
  lemma WalkableAnswers(s: Settings, among: set<string>)
    ensures Walkable(s, among) <==>
              !(s.hooks.Events? && exists e :: e in among && e in s.hooks.events && CannotIterate(s.hooks.events[e]))
  {
    forall v: EventValue { EventAnswers(v); }
  }

  lemma EventAnswers(v: EventValue)
    ensures EventWalkable(v) <==> !CannotIterate(v)
  {
    var groups := Iterated(v);
    if k :| 0 <= k < |groups| && groups[k].Malformed? && !groups[k].iterable { assert groups[k] in groups; }
    if g :| g in groups && Stuck(g) {
      var k :| 0 <= k < |groups| && groups[k] == g;
      assert groups[k].Malformed? && !groups[k].iterable;
    }
  }

  /** A merge is refused for hooks that are no object, or else for a managed event that is no array. */
  lemma MergeRefuses(s: Settings, entries: seq<Entry>, ctx: Context)
    ensures var r := Merge(s, entries, ctx);
            && (r == Err(HooksNotAnObject) <==> s.hooks.NotObject?)
            && (r == Err(EventNotAnArray) <==>
                  && s.hooks.Events?
                  && exists k :: 0 <= k < |entries| && entries[k].event in s.hooks.events
                              && s.hooks.events[entries[k].event].NotArray?)
  {
    if k :| 0 <= k < |entries| && entries[k].event in EventsOf(s) && EventsOf(s)[entries[k].event].NotArray? {
      assert entries[k] in entries && entries[k].event in ManagedEvents(entries);
    }
  }

  function At(entries: seq<Entry>, event: string): seq<Entry> {
    if entries == [] then []
    else (if entries[0].event == event then [entries[0]] else []) + At(entries[1..], event)
  }

  /** One group for each entry of the event, in order: its matcher, one handler that runs the script under
      the root's scripts directory, its timeout, and nothing else. */
  lemma {:induction false} CanonicalAnswers(entries: seq<Entry>, event: string, ctx: Context)
    requires Normal(ctx.root) && forall e | e in entries :: Component(e.script)
    ensures var groups := CanonicalGroups(entries, event, ctx); var wanted := At(entries, event);
            && |groups| == |wanted|
            && forall k | 0 <= k < |wanted| ::
                 var command := ctx.interpreter + " \"" + AsPosix(ctx.root) + "/scripts/" + wanted[k].script + "\"";
                 groups[k] == Group(Some(wanted[k].matcher), [CommandHandler(command, wanted[k].timeout, [])], [])
  {
    if entries != [] {
      var e := entries[0];
      assert forall x | x in entries[1..] :: x in entries;
      CanonicalAnswers(entries[1..], event, ctx);
      assert e in entries;
      CommandText(ctx, e.script);
    }
  }

  lemma CommandText(ctx: Context, script: string)
    requires Normal(ctx.root) && Component(script)
    ensures RenderCommand(ctx.interpreter, ctx.root, script)
            == ctx.interpreter + " \"" + AsPosix(ctx.root) + "/scripts/" + script + "\""
  {
    ScriptPath(ctx.root, script);
    assert AsPosix(ctx.root) + "/scripts" + "/" + script == AsPosix(ctx.root) + "/scripts/" + script;
    assert ctx.interpreter + " \"" + (AsPosix(ctx.root) + "/scripts/" + script) + "\""
        == ctx.interpreter + " \"" + AsPosix(ctx.root) + "/scripts/" + script + "\"";
  }

  /** The record says which manifest, which root in its canonical spelling, every other root still known and
      still a checkout, and what was rendered for each entry. */
  lemma SidecarAnswers(site: Site, sidecar: Option<Sidecar>, disk: Disk, claimAnyRoot: bool, pending: bool,
                       r: string)
    ensures var ctx := ContextOf(site, sidecar, disk, claimAnyRoot); var s := NewSidecar(disk, ctx, pending);
            && s.pending == pending && s.digest == disk.digest && s.root == Lower(AsPosix(site.root))
            && (r in s.previousRoots <==>
                  && r != s.root && r in disk.checkouts && sidecar.Some?
                  && (r == sidecar.value.root || r in sidecar.value.previousRoots))
            && |s.entries| == |disk.entries|
            && forall k | 0 <= k < |disk.entries| ::
                 && s.entries[k].event == disk.entries[k].event && s.entries[k].matcher == disk.entries[k].matcher
                 && s.entries[k].command == RenderCommand(site.interpreter, site.root, disk.entries[k].script)
  {
  }

  /** What a later run owns: the recorded roots that are still checkouts, and the recorded commands. */
  lemma OwnershipAnswers(sidecar: Option<Sidecar>, checkouts: set<string>, claimAnyRoot: bool, r: string, c: string)
    ensures var owned := OwnershipOf(sidecar, checkouts, claimAnyRoot);
            && owned.claimAnyRoot == claimAnyRoot
            && (r in owned.roots <==>
                  && r in checkouts && sidecar.Some?
                  && (r == sidecar.value.root || r in sidecar.value.previousRoots))
            && (c in owned.commands <==>
                  && sidecar.Some?
                  && exists k :: 0 <= k < |sidecar.value.entries| && sidecar.value.entries[k].command == c)
  {
    if sidecar.Some? {
      if k :| 0 <= k < |sidecar.value.entries| && sidecar.value.entries[k].command == c {
        assert sidecar.value.entries[k] in sidecar.value.entries;
      }
    }
  }
}
