/** Rendering, reading back and classifying hook commands (scripts/hooks_install.py). */
module HookCommands {
  import opened Collections

  // ---- paths: a leading slash or two, and components ----

  datatype Path = Path(lead: string, parts: seq<string>)

  predicate Component(part: string) { part != "" && part != "." && '/' !in part }

  /** A path in normal form: no empty, `.` or slashed component. */
  predicate Normal(p: Path) {
    && p.lead in {"", "/", "//"} && p.parts != []
    && forall k | 0 <= k < |p.parts| :: Component(p.parts[k])
  }

  function Split(s: string): (parts: seq<string>)
    ensures parts != []
  {
    if s == "" then [""]
    else
      var rest := Split(s[1..]);
      if s[0] == '/' then [""] + rest else [[s[0]] + rest[0]] + rest[1..]
  }

  function Join(parts: seq<string>): string {
    if parts == [] then ""
    else if |parts| == 1 then parts[0]
    else parts[0] + "/" + Join(parts[1..])
  }

  /** pathlib drops empty and `.` components. */
  function Meaningful(parts: seq<string>): seq<string> {
    if parts == [] then []
    else (if parts[0] == "" || parts[0] == "." then [] else [parts[0]]) + Meaningful(parts[1..])
  }

  /** Exactly two leading slashes are kept; any other number counts as one. */
  function Lead(s: string): string {
    if |s| == 0 || s[0] != '/' then ""
    else if |s| >= 2 && s[1] == '/' && (|s| == 2 || s[2] != '/') then "//"
    else "/"
  }

  /** Path(s), and back. */
  function Parse(s: string): Path { Path(Lead(s), Meaningful(Split(s))) }
  function AsPosix(p: Path): string { p.lead + Join(p.parts) }
  function Name(p: Path): string { if p.parts == [] then "" else p.parts[|p.parts| - 1] }
  function Under(p: Path, part: string): Path { p.(parts := p.parts + [part]) }

  function LowerChar(c: char): char { if 'A' <= c <= 'Z' then (c as int + 32) as char else c }
  function Lower(s: string): string { seq(|s|, k requires 0 <= k < |s| => LowerChar(s[k])) }

  /** s.replace("\\", "/"). */
  function Slashed(s: string): string {
    seq(|s|, k requires 0 <= k < |s| => if s[k] == '\\' then '/' else s[k])
  }

  // ---- reading the script path out of a command line ----

  predicate Space(c: char) { c == ' ' || c == '\t' || c == '\n' || c == '\r' || c as int == 11 || c as int == 12 }

  /** s.split(): maximal runs of characters that are not white space. */
  function Words(s: string): seq<string> {
    if s == "" then []
    else
      var rest := Words(s[1..]);
      if Space(s[0]) then rest
      else if |s| == 1 || Space(s[1]) || rest == [] then [[s[0]]] + rest
      else [[s[0]] + rest[0]] + rest[1..]
  }

  /** The first position of c at or after `from`; |s| when there is none. */
  function Find(s: string, c: char, from: nat): (i: nat)
    requires from <= |s|
    ensures from <= i <= |s|
    ensures forall k | from <= k < i :: s[k] != c
    ensures i < |s| ==> s[i] == c
    decreases |s| - from
  {
    if from == |s| || s[from] == c then from else Find(s, c, from + 1)
  }

  /** The script path of a command, or None when it cannot be read with confidence. */
  function CommandPathToken(command: string): Option<string> {
    if forall k | 0 <= k < |command| :: Space(command[k]) then None
    else if '"' in command then
      var open := Find(command, '"', 0);
      var close := Find(command, '"', open + 1);
      if close == |command| then None else Some(command[open + 1..close])
    else
      var words := Words(command);
      if |words| < 2 then None else Some(words[|words| - 1])
  }

  /** interpreter "<root>/scripts/<script>". */
  function RenderCommand(interpreter: string, root: Path, script: string): string {
    interpreter + " \"" + AsPosix(Under(Under(root, "scripts"), script)) + "\""
  }

  // ---- ownership ----

  /** What previous installs are known to have put in the settings. */
  datatype Ownership = Ownership(roots: set<string>, commands: set<string>, claimAnyRoot: bool)

  datatype Context = Context(root: Path, home: Path, interpreter: string, ownership: Ownership)

  datatype Kind = Managed(base: string) | Collision(base: string) | Foreign | Unclassified

  function ScriptDir(root: Path): string { Lower(AsPosix(Under(root, "scripts"))) }

  function HomeDir(home: Path): string { Lower(AsPosix(Under(Under(home, ".claude"), "scripts"))) }

  predicate Within(resolved: string, dir: string, base: string) {
    resolved == Lower(dir + "/" + base) || dir + "/" <= resolved
  }

  predicate Allowed(resolved: string, base: string, ctx: Context) {
    || Within(resolved, ScriptDir(ctx.root), base)
    || Within(resolved, HomeDir(ctx.home), base)
    || exists r :: r in ctx.ownership.roots && Within(resolved, r + "/scripts", base)
  }

  function Resolved(token: string): string { Lower(AsPosix(Parse(Slashed(token)))) }

  function ClassifyHandler(command: string, scripts: set<string>, ctx: Context): Kind {
    var token := CommandPathToken(command);
    if token.None? then Unclassified
    else
      var base := Name(Parse(Slashed(token.value)));
      if base !in scripts then Foreign
      else if command in ctx.ownership.commands then Managed(base)
      else if Allowed(Resolved(token.value), base, ctx) then Managed(base)
      else if ctx.ownership.claimAnyRoot then Managed(base)
      else Collision(base)
  }

  // ---- the token inverts the rendering ----

  lemma FindFirst(s: string, c: char, from: nat, at: nat)
    requires from <= at <= |s| && (at < |s| ==> s[at] == c) && forall k | from <= k < at :: s[k] != c
    ensures Find(s, c, from) == at
  {
  }

  lemma QuotedToken(before: string, path: string)
    requires '"' !in before
    ensures CommandPathToken(before + " \"" + path + "\"") == Some(path) <==> '"' !in path
  {
    var command := before + " \"" + path + "\"";
    var open := |before| + 1;
    var end := open + 1 + |path|;
    assert command[open] == '"' && command[end] == '"' && !Space('"');
    FindFirst(command, '"', 0, open);
    assert forall k | 0 <= k < |path| :: command[open + 1 + k] == path[k];
    assert command[open + 1..end] == path;
    if '"' !in path {
      forall k | open + 1 <= k < end ensures command[k] != '"' { assert command[k] == path[k - open - 1]; }
      FindFirst(command, '"', open + 1, end);
    } else {
      var k :| 0 <= k < |path| && path[k] == '"';
      assert command[open + 1 + k] == '"';
      assert Find(command, '"', open + 1) < end;
    }
  }

  /** Reading a rendered command back gives the script's path exactly when the path is free of
      quotes, for an interpreter name that is. */
  lemma TokenInvertsRender(interpreter: string, root: Path, script: string)
    requires '"' !in interpreter
    ensures var path := AsPosix(Under(Under(root, "scripts"), script));
            CommandPathToken(RenderCommand(interpreter, root, script)) == Some(path) <==> '"' !in path
  {
    QuotedToken(interpreter, AsPosix(Under(Under(root, "scripts"), script)));
  }

  // ---- normal paths survive a round trip through text ----

  lemma {:induction false} SplitAppend(s: string, part: string)
    requires '/' !in part
    ensures Split(s + "/" + part) == Split(s) + [part]
  {
    var all := s + "/" + part;
    if s == "" {
      SplitOne(part);
      assert all[1..] == part;
    } else {
      assert all[1..] == s[1..] + "/" + part;
      SplitAppend(s[1..], part);
    }
  }

  lemma {:induction false} SplitOne(part: string)
    requires '/' !in part
    ensures Split(part) == [part]
  {
    if part != "" {
      SplitOne(part[1..]);
      assert part == [part[0]] + part[1..];
    }
  }

  lemma {:induction false} JoinAppend(parts: seq<string>, part: string)
    requires parts != []
    ensures Join(parts + [part]) == Join(parts) + "/" + part
  {
    if |parts| > 1 {
      JoinAppend(parts[1..], part);
      assert (parts + [part])[1..] == parts[1..] + [part];
    }
  }

  lemma {:induction false} SplitJoin(parts: seq<string>)
    requires parts != [] && forall k | 0 <= k < |parts| :: '/' !in parts[k]
    ensures Split(Join(parts)) == parts
  {
    var last := |parts| - 1;
    if last == 0 {
      SplitOne(parts[0]);
    } else {
      SplitJoin(parts[..last]);
      assert parts == parts[..last] + [parts[last]];
      JoinAppend(parts[..last], parts[last]);
      SplitAppend(Join(parts[..last]), parts[last]);
    }
  }

  lemma {:induction false} MeaningfulAppend(parts: seq<string>, part: string)
    ensures Meaningful(parts + [part]) == Meaningful(parts) + (if part == "" || part == "." then [] else [part])
  {
    if parts != [] {
      assert (parts + [part])[1..] == parts[1..] + [part];
      MeaningfulAppend(parts[1..], part);
    }
  }

  lemma {:induction false} MeaningfulAll(parts: seq<string>)
    requires forall k | 0 <= k < |parts| :: Component(parts[k])
    ensures Meaningful(parts) == parts
  {
    if parts != [] { MeaningfulAll(parts[1..]); }
  }

  lemma {:induction false} JoinStartsWithPart(parts: seq<string>)
    requires parts != [] && forall k | 0 <= k < |parts| :: Component(parts[k])
    ensures Join(parts) != "" && Join(parts)[0] != '/'
  {
  }

  lemma LeadingSlash(s: string)
    ensures Meaningful(Split("/" + s)) == Meaningful(Split(s))
  {
    assert ("/" + s)[1..] == s;
    assert ([""] + Split(s))[1..] == Split(s);
  }

  lemma LeadKept(lead: string, text: string)
    requires lead in {"", "/", "//"} && text != "" && text[0] != '/'
    ensures Lead(lead + text) == lead
  {
  }

  lemma LeadDropped(lead: string, text: string)
    requires lead in {"", "/", "//"}
    ensures Meaningful(Split(lead + text)) == Meaningful(Split(text))
  {
    if lead == "" {
      assert lead + text == text;
    } else if lead == "/" {
      LeadingSlash(text);
    } else {
      LeadingSlash(text);
      LeadingSlash("/" + text);
      assert "//" + text == "/" + ("/" + text);
    }
  }

  /** Path(p.as_posix()) == p. */
  lemma PosixRoundTrip(p: Path)
    requires Normal(p)
    ensures Parse(AsPosix(p)) == p
  {
    SplitJoin(p.parts);
    MeaningfulAll(p.parts);
    JoinStartsWithPart(p.parts);
    LeadKept(p.lead, Join(p.parts));
    LeadDropped(p.lead, Join(p.parts));
  }

  // ---- which rendered commands are recognised ----

  lemma LowerAppend(a: string, b: string)
    ensures Lower(a + b) == Lower(a) + Lower(b)
  {
  }

  /** The last component of a slashed script path is the script. */
  lemma NameOfScript(dir: string, script: string)
    requires Component(script) && '\\' !in script
    ensures Name(Parse(Slashed(dir + "/" + script))) == script
  {
    assert Slashed(dir + "/" + script) == Slashed(dir) + "/" + script;
    SplitAppend(Slashed(dir), script);
    MeaningfulAppend(Split(Slashed(dir)), script);
  }

  lemma {:induction false} SplitKeepsOut(s: string, c: char)
    requires c !in s
    ensures forall k | 0 <= k < |Split(s)| :: c !in Split(s)[k]
  {
    if s != "" { SplitKeepsOut(s[1..], c); }
  }

  lemma {:induction false} MeaningfulKeepsOut(parts: seq<string>, c: char)
    requires forall k | 0 <= k < |parts| :: c !in parts[k]
    ensures forall k | 0 <= k < |Meaningful(parts)| :: c !in Meaningful(parts)[k]
  {
    if parts != [] { MeaningfulKeepsOut(parts[1..], c); }
  }

  lemma {:induction false} JoinKeepsOut(parts: seq<string>, c: char)
    requires c != '/' && forall k | 0 <= k < |parts| :: c !in parts[k]
    ensures c !in Join(parts)
  {
    if |parts| > 1 { JoinKeepsOut(parts[1..], c); }
  }

  lemma ResolvedHasNoBackslash(token: string)
    ensures '\\' !in Resolved(token)
  {
    var s := Slashed(token);
    SplitKeepsOut(s, '\\');
    MeaningfulKeepsOut(Split(s), '\\');
    JoinKeepsOut(Meaningful(Split(s)), '\\');
  }

  predicate ScriptName(script: string) { Component(script) && '\\' !in script && '"' !in script }

  /** Contexts an install starts from: `resolve_checkout` refuses a root with quotes. */
  predicate Usable(ctx: Context) {
    && Normal(ctx.root) && '"' !in AsPosix(ctx.root) && '"' !in ctx.interpreter
  }

  lemma ScriptPath(root: Path, script: string)
    requires Normal(root) && Component(script)
    ensures AsPosix(Under(Under(root, "scripts"), script)) == AsPosix(Under(root, "scripts")) + "/" + script
    ensures AsPosix(Under(root, "scripts")) == AsPosix(root) + "/scripts"
    ensures Normal(Under(Under(root, "scripts"), script))
  {
    assert Component("scripts");
    UnderAppends(root, "scripts");
    UnderAppends(Under(root, "scripts"), script);
    assert "/" + "scripts" == "/scripts";
    assert AsPosix(root) + "/" + "scripts" == AsPosix(root) + "/scripts";
  }

  lemma UnderAppends(p: Path, part: string)
    requires Normal(p) && Component(part)
    ensures AsPosix(Under(p, part)) == AsPosix(p) + "/" + part && Normal(Under(p, part))
  {
    JoinAppend(p.parts, part);
  }

  lemma RenderedToken(ctx: Context, script: string)
    requires Usable(ctx) && ScriptName(script)
    ensures CommandPathToken(RenderCommand(ctx.interpreter, ctx.root, script))
         == Some(AsPosix(Under(ctx.root, "scripts")) + "/" + script)
    ensures Name(Parse(Slashed(AsPosix(Under(ctx.root, "scripts")) + "/" + script))) == script
  {
    ScriptPath(ctx.root, script);
    TokenInvertsRender(ctx.interpreter, ctx.root, script);
    NameOfScript(AsPosix(Under(ctx.root, "scripts")), script);
  }

  lemma CleanRootResolves(ctx: Context, script: string)
    requires Usable(ctx) && ScriptName(script) && '\\' !in AsPosix(ctx.root)
    ensures Within(Resolved(AsPosix(Under(ctx.root, "scripts")) + "/" + script), ScriptDir(ctx.root), script)
  {
    ScriptPath(ctx.root, script);
    var path := Under(Under(ctx.root, "scripts"), script);
    assert Slashed(AsPosix(path)) == AsPosix(path);
    PosixRoundTrip(path);
    LowerAppend(AsPosix(Under(ctx.root, "scripts")) + "/", script);
    LowerAppend(AsPosix(Under(ctx.root, "scripts")), "/");
    assert Lower("/") == "/";
  }

  lemma BackslashRootIsElsewhere(ctx: Context, token: string, script: string)
    requires Normal(ctx.root) && ScriptName(script) && '\\' in AsPosix(ctx.root)
    ensures !Within(Resolved(token), ScriptDir(ctx.root), script)
  {
    ScriptPath(ctx.root, script);
    ResolvedHasNoBackslash(token);
    var k :| 0 <= k < |AsPosix(ctx.root)| && AsPosix(ctx.root)[k] == '\\';
    var dir := ScriptDir(ctx.root);
    assert dir[k] == '\\';
    assert Lower(dir + "/" + script)[k] == '\\' && (dir + "/")[k] == '\\';
  }

  /** A command this installer renders is recognised as its own exactly when its root is spelled
      without a backslash (always so on Windows), or the command was recorded by an install, or
      any root is claimed, or the slashed path happens to lie in another allowed directory. */
  lemma RenderedIsManaged(ctx: Context, script: string, scripts: set<string>)
    requires Usable(ctx) && ScriptName(script) && script in scripts
    ensures var command := RenderCommand(ctx.interpreter, ctx.root, script);
            var resolved := Resolved(AsPosix(Under(ctx.root, "scripts")) + "/" + script);
            ClassifyHandler(command, scripts, ctx) == Managed(script) <==>
            || '\\' !in AsPosix(ctx.root)
            || command in ctx.ownership.commands || ctx.ownership.claimAnyRoot
            || Within(resolved, HomeDir(ctx.home), script)
            || exists r :: r in ctx.ownership.roots && Within(resolved, r + "/scripts", script)
  {
    RenderedToken(ctx, script);
    if '\\' !in AsPosix(ctx.root) {
      CleanRootResolves(ctx, script);
    } else {
      BackslashRootIsElsewhere(ctx, AsPosix(Under(ctx.root, "scripts")) + "/" + script, script);
    }
  }
}
