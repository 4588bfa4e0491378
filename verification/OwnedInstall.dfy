/** The ownership-checked installer of scripts/conductor_install.py over a file map: every write,
    chmod and unlink may raise, and a failed install rolls back from a snapshot. */
module OwnedInstall {
  import opened Collections

  datatype Content = Bytes(data: Id) | Document(manifest: Manifest)

  /** The install manifest: a digest per owned file, and the source it was installed from. */
  datatype Manifest = Manifest(files: map<Id, Id>, head: Id, tree: Id)

  datatype File = File(content: Content, mode: int)

  const PRIVATE := 384        // 0o600, what a temporary file is created with
  const EXECUTABLE := 493     // 0o755

  datatype Payload = Payload(target: Id, content: Content, executable: bool)

  /** A source checkout: what it installs, and how it identifies itself. */
  datatype Source = Source(complete: bool, payloads: seq<Payload>, head: Id, tree: Id)

  /** Where things go, and the digest function. */
  datatype Layout = Layout(manifest: Id, backup: (Id, Id) -> Id, hash: Content -> Id, posix: bool)

  datatype State = Absent | InvalidManifest | Drifted | SourceMismatch | Installed

  datatype Refusal = NotOwnershipClean | LeaderActive | IncompleteSource | ForeignFile

  datatype Outcome = Refused(why: Refusal) | Failed(restored: bool) | Done(state: State)

  type Files = map<Id, File>

  // ---- reading ----

  predicate Drift(files: Files, m: Manifest, hash: Content -> Id) {
    exists t :: t in m.files && (t !in files || hash(files[t].content) != m.files[t])
  }

  function CheckStatus(files: Files, layout: Layout, source: Option<Source>): State {
    if layout.manifest !in files then Absent
    else
      match files[layout.manifest].content
      case Bytes(_) => InvalidManifest
      case Document(m) =>
        if Drift(files, m, layout.hash) then Drifted
        else if source.Some? && (!source.value.complete || source.value.head != m.head || source.value.tree != m.tree)
        then SourceMismatch
        else Installed
  }

  /** The files an existing manifest owns. */
  function OwnedFiles(files: Files, layout: Layout): map<Id, Id> {
    if layout.manifest in files && files[layout.manifest].content.Document? then
      files[layout.manifest].content.manifest.files
    else map[]
  }

  function Targets(payloads: seq<Payload>): set<Id> { set p | p in payloads :: p.target }

  function InstallRefusal(files: Files, layout: Layout, source: Source, leaderActive: bool): Option<Refusal> {
    if layout.manifest in files && CheckStatus(files, layout, Some(source)) !in {Installed, SourceMismatch} then
      Some(NotOwnershipClean)
    else if layout.manifest in files && leaderActive then Some(LeaderActive)
    else if !source.complete then Some(IncompleteSource)
    else if exists t :: t in Targets(source.payloads) && t in files && t !in OwnedFiles(files, layout) then
      Some(ForeignFile)
    else None
  }

  // ---- what an install leaves behind ----

  function PayloadFile(p: Payload, posix: bool): File {
    File(p.content, if p.executable && posix then EXECUTABLE else PRIVATE)
  }

  function PayloadFiles(payloads: seq<Payload>, posix: bool): Files {
    if payloads == [] then map[]
    else
      var last := payloads[|payloads| - 1];
      PayloadFiles(payloads[..|payloads| - 1], posix)[last.target := PayloadFile(last, posix)]
  }

  function DigestsOf(payloads: seq<Payload>, hash: Content -> Id): map<Id, Id> {
    if payloads == [] then map[]
    else
      var last := payloads[|payloads| - 1];
      DigestsOf(payloads[..|payloads| - 1], hash)[last.target := hash(last.content)]
  }

  /** Owned files about to change are saved, unless a file of that backup name is there already. */
  function Backups(files: Files, payloads: seq<Payload>, layout: Layout): map<Id, Content> {
    if payloads == [] then map[]
    else
      var earlier := Backups(files, payloads[..|payloads| - 1], layout);
      var p := payloads[|payloads| - 1];
      if p.target in files && files[p.target].content != p.content
         && layout.backup(p.target, layout.hash(files[p.target].content)) !in files
      then earlier[layout.backup(p.target, layout.hash(files[p.target].content)) := files[p.target].content]
      else earlier
  }

  function BackupFiles(backups: map<Id, Content>): Files { map b | b in backups :: File(backups[b], PRIVATE) }

  function Stale(files: Files, payloads: seq<Payload>, layout: Layout): set<Id> {
    OwnedFiles(files, layout).Keys - Targets(payloads)
  }

  function NewManifest(source: Source, hash: Content -> Id): Manifest {
    Manifest(DigestsOf(source.payloads, hash), source.head, source.tree)
  }

  function AfterInstall(files: Files, layout: Layout, source: Source): Files {
    (files + BackupFiles(Backups(files, source.payloads, layout)) + PayloadFiles(source.payloads, layout.posix)
     - Stale(files, source.payloads, layout))
    [layout.manifest := File(Document(NewManifest(source, layout.hash)), PRIVATE)]
  }

  /** Everything an install may write or remove. */
  function Touched(files: Files, layout: Layout, source: Source): set<Id> {
    Targets(source.payloads) + Stale(files, source.payloads, layout)
    + Backups(files, source.payloads, layout).Keys + {layout.manifest}
  }

  ghost predicate SameOutside(files: Files, later: Files, targets: set<Id>) {
    forall t | t !in targets :: (t in later <==> t in files) && (t in files ==> later[t] == files[t])
  }

  /** Payload targets are the keys of a dictionary, and lie neither on the manifest nor in the
      backup directory. */
  ghost predicate Placed(layout: Layout, source: Source) {
    && (forall i, j | 0 <= i < j < |source.payloads| :: source.payloads[i].target != source.payloads[j].target)
    && layout.manifest !in Targets(source.payloads)
    && forall t, d :: layout.backup(t, d) != layout.manifest && layout.backup(t, d) !in Targets(source.payloads)
  }

  class Home {
    const layout: Layout
    var files: Files
    var faults: seq<bool>     // whether each coming write, chmod or unlink raises; later ones do not

    constructor (layout: Layout, files: Files, faults: seq<bool>)
      ensures this.layout == layout && this.files == files && this.faults == faults
    {
      this.layout, this.files, this.faults := layout, files, faults;
    }

    method Raises() returns (raised: bool)
      modifies this`faults
      ensures old(faults) == [] ==> !raised && faults == []
    {
      if faults == [] { return false; }
      raised, faults := faults[0], faults[1..];
    }

    /** Write a temporary file and rename it over the target: all or nothing. */
    method WriteAtomic(target: Id, content: Content) returns (ok: bool)
      modifies this`files, this`faults
      ensures files == if ok then old(files)[target := File(content, PRIVATE)] else old(files)
      ensures old(faults) == [] ==> ok && faults == []
    {
      var raised := Raises();
      if raised { return false; }
      files := files[target := File(content, PRIVATE)];
      ok := true;
    }

    method Chmod(target: Id, mode: int) returns (ok: bool)
      requires target in files
      modifies this`files, this`faults
      ensures files == if ok then old(files)[target := old(files)[target].(mode := mode)] else old(files)
      ensures old(faults) == [] ==> ok && faults == []
    {
      var raised := Raises();
      if raised { return false; }
      files := files[target := files[target].(mode := mode)];
      ok := true;
    }

    method Unlink(target: Id) returns (ok: bool)
      modifies this`files, this`faults
      ensures files == if ok then old(files) - {target} else old(files)
      ensures old(faults) == [] ==> ok && faults == []
    {
      var raised := Raises();
      if raised { return false; }
      files := files - {target};
      ok := true;
    }

    method WriteBackups(backups: map<Id, Content>) returns (ok: bool)
      modifies this`files, this`faults
      ensures ok ==> files == old(files) + BackupFiles(backups)
      ensures SameOutside(old(files), files, backups.Keys)
      ensures old(faults) == [] ==> ok && faults == []
    {
      var left := backups.Keys;
      ghost var done: set<Id> := {};
      while left != {}
        invariant left + done == backups.Keys && left !! done
        invariant files == old(files) + (map b | b in backups && b in done :: File(backups[b], PRIVATE))
        invariant old(faults) == [] ==> faults == []
        decreases left
      {
        var b :| b in left;
        ok := WriteAtomic(b, backups[b]);
        if !ok { return; }
        left := left - {b};
        done := done + {b};
      }
      assert done == backups.Keys;
      ok := true;
    }

    method WritePayloads(payloads: seq<Payload>) returns (ok: bool)
      modifies this`files, this`faults
      ensures ok ==> files == old(files) + PayloadFiles(payloads, layout.posix)
      ensures SameOutside(old(files), files, Targets(payloads))
      ensures old(faults) == [] ==> ok && faults == []
    {
      for k := 0 to |payloads|
        invariant files == old(files) + PayloadFiles(payloads[..k], layout.posix)
        invariant SameOutside(old(files), files, Targets(payloads))
        invariant old(faults) == [] ==> faults == []
      {
        assert payloads[..k + 1][..k] == payloads[..k];
        assert payloads[k].target in Targets(payloads);
        Overlay(old(files), PayloadFiles(payloads[..k], layout.posix), payloads[k].target,
                PayloadFile(payloads[k], layout.posix));
        ok := WritePayload(payloads[k]);
        if !ok { return; }
      }
      assert payloads[..|payloads|] == payloads;
      ok := true;
    }

    method WritePayload(p: Payload) returns (ok: bool)
      modifies this`files, this`faults
      ensures ok ==> files == old(files)[p.target := PayloadFile(p, layout.posix)]
      ensures SameOutside(old(files), files, {p.target})
      ensures old(faults) == [] ==> ok && faults == []
    {
      ok := WriteAtomic(p.target, p.content);
      if ok && p.executable && layout.posix { ok := Chmod(p.target, EXECUTABLE); }
    }

    method RemoveStale(stale: set<Id>, expected: map<Id, Id>) returns (ok: bool)
      requires stale <= expected.Keys
      modifies this`files, this`faults
      ensures ok ==> files == old(files) - stale
      ensures SameOutside(old(files), files, stale)
      ensures && old(faults) == []
              && (forall t | t in stale && t in old(files) ::
                    layout.hash(old(files)[t].content) == expected[t]) ==>
                ok && faults == []
    {
      var left := stale;
      ghost var done: set<Id> := {};
      while left != {}
        invariant left + done == stale && left !! done
        invariant files == old(files) - done
        invariant old(faults) == [] ==> faults == []
        decreases left
      {
        var t :| t in left;
        if t in files && layout.hash(files[t].content) != expected[t] { return false; }
        ok := Unlink(t);
        if !ok { return; }
        left := left - {t};
        done := done + {t};
      }
      assert done == stale;
      ok := true;
    }

    /** Put every target back as the snapshot has it. */
    method RollBack(before: Files, targets: set<Id>) returns (ok: bool)
      modifies this`files, this`faults
      ensures SameOutside(old(files), files, targets)
      ensures ok ==> forall t | t in targets :: (t in files <==> t in before) && (t in before ==> files[t] == before[t])
      ensures old(faults) == [] ==> ok && faults == []
    {
      var left := targets;
      ghost var done: set<Id> := {};
      while left != {}
        invariant left + done == targets && left !! done
        invariant SameOutside(old(files), files, done)
        invariant forall t | t in done :: (t in files <==> t in before) && (t in before ==> files[t] == before[t])
        invariant old(faults) == [] ==> faults == []
        decreases left
      {
        var t :| t in left;
        if t !in before {
          ok := Unlink(t);
          if !ok { return; }
        } else {
          ok := WriteAtomic(t, before[t].content);
          if !ok { return; }
          ok := Chmod(t, before[t].mode);
          if !ok { return; }
        }
        left := left - {t};
        done := done + {t};
      }
      assert done == targets;
      ok := true;
    }

    method FindForeign(payloads: seq<Payload>, owned: map<Id, Id>) returns (foreign: bool)
      ensures foreign <==> exists t :: t in Targets(payloads) && t in files && t !in owned
    {
      foreign := false;
      for k := 0 to |payloads|
        invariant foreign <==> exists t :: t in Targets(payloads[..k]) && t in files && t !in owned
      {
        assert payloads[..k + 1] == payloads[..k] + [payloads[k]];
        assert Targets(payloads[..k + 1]) == Targets(payloads[..k]) + {payloads[k].target};
        if payloads[k].target in files && payloads[k].target !in owned { foreign := true; }
      }
      assert payloads[..|payloads|] == payloads;
    }

    method CollectBackups(payloads: seq<Payload>) returns (backups: map<Id, Content>)
      ensures backups == Backups(files, payloads, layout)
    {
      backups := map[];
      for k := 0 to |payloads|
        invariant backups == Backups(files, payloads[..k], layout)
      {
        var p := payloads[k];
        assert payloads[..k + 1][..k] == payloads[..k];
        if p.target in files && files[p.target].content != p.content {
          var path := layout.backup(p.target, layout.hash(files[p.target].content));
          if path !in files { backups := backups[path := files[p.target].content]; }
        }
      }
      assert payloads[..|payloads|] == payloads;
    }

    /** Backups, payloads, stale files, manifest, in that order; stop at the first that raises. */
    method Apply(source: Source, backups: map<Id, Content>, stale: set<Id>, owned: map<Id, Id>) returns (ok: bool)
      requires stale <= owned.Keys
      modifies this`files, this`faults
      ensures ok ==> files == (old(files) + BackupFiles(backups) + PayloadFiles(source.payloads, layout.posix) - stale)
                              [layout.manifest := File(Document(NewManifest(source, layout.hash)), PRIVATE)]
      ensures SameOutside(old(files), files, Targets(source.payloads) + stale + backups.Keys + {layout.manifest})
      ensures old(faults) == [] && CleanStale(old(files), stale, owned, source, backups) ==> ok && faults == []
    {
      ok := WriteBackups(backups);
      if !ok { return; }
      ok := WritePayloads(source.payloads);
      if !ok { return; }
      ok := RemoveStale(stale, owned);
      if !ok { return; }
      ok := WriteAtomic(layout.manifest, Document(NewManifest(source, layout.hash)));
    }

    /** Stale files are as the manifest recorded them, and nothing else is written over them. */
    ghost predicate CleanStale(start: Files, stale: set<Id>, owned: map<Id, Id>, source: Source,
                               backups: map<Id, Content>)
      requires stale <= owned.Keys
    {
      && stale !! Targets(source.payloads) && stale !! backups.Keys
      && forall t | t in stale && t in start :: layout.hash(start[t].content) == owned[t]
    }

    /** Install or upgrade. It succeeds completely or leaves every file as it was, unless the
        rollback itself raises; and whatever happens, only what it may touch is touched. */
    method Install(source: Source, leaderActive: bool) returns (outcome: Outcome)
      requires Placed(layout, source)
      modifies this`files, this`faults
      ensures outcome.Refused? <==> InstallRefusal(old(files), layout, source, leaderActive).Some?
      ensures outcome.Refused? ==>
                files == old(files) && InstallRefusal(old(files), layout, source, leaderActive) == Some(outcome.why)
      ensures outcome == Failed(true) ==> files == old(files)
      ensures outcome.Done? ==> files == AfterInstall(old(files), layout, source) && outcome.state == Installed
      ensures SameOutside(old(files), files, Touched(old(files), layout, source))
      ensures old(faults) == [] && !outcome.Refused? ==> outcome.Done?
    {
      if layout.manifest in files {
        var state := CheckStatus(files, layout, Some(source));
        if state != Installed && state != SourceMismatch { return Refused(NotOwnershipClean); }
        if leaderActive { return Refused(LeaderActive); }
      }
      if !source.complete { return Refused(IncompleteSource); }
      var owned := OwnedFiles(files, layout);
      var foreign := FindForeign(source.payloads, owned);
      if foreign { return Refused(ForeignFile); }
      var stale := owned.Keys - Targets(source.payloads);
      var backups := CollectBackups(source.payloads);
      var before := files;
      CleanInstallHasCleanStale(this, source, leaderActive);
      var ok := Apply(source, backups, stale, owned);
      if !ok {
        ok := RollBack(before, Touched(before, layout, source));
        if ok { Restored(before, files, Touched(before, layout, source)); }
        return Failed(ok);
      }
      InstalledStatus(before, layout, source);
      outcome := Done(CheckStatus(files, layout, Some(source)));
    }

    /** Remove exactly what the manifest owns, and the manifest, if all of it is unchanged. */
    method Uninstall(leaderActive: bool) returns (outcome: UninstallOutcome, ghost removed: set<Id>)
      modifies this`files, this`faults
      ensures outcome == NotInstalled <==> CheckStatus(old(files), layout, None) == Absent
      ensures outcome == Declined <==>
                CheckStatus(old(files), layout, None) in {InvalidManifest, Drifted}
                || (CheckStatus(old(files), layout, None) == Installed && leaderActive)
      ensures removed <= OwnedFiles(old(files), layout).Keys && (outcome in {NotInstalled, Declined} ==> removed == {})
      ensures files == if outcome == Uninstalled then old(files) - removed - {layout.manifest} else old(files) - removed
      ensures outcome == Uninstalled ==> removed == OwnedFiles(old(files), layout).Keys
      ensures old(faults) == [] && layout.manifest !in OwnedFiles(old(files), layout) ==> outcome != Interrupted
    {
      removed := {};
      var state := CheckStatus(files, layout, None);
      if state == Absent { return NotInstalled, {}; }
      if state != Installed || leaderActive { return Declined, {}; }
      var left := OwnedFiles(files, layout).Keys;
      while left != {}
        invariant left + removed == OwnedFiles(old(files), layout).Keys && left !! removed
        invariant files == old(files) - removed
        invariant old(faults) == [] ==> faults == []
        decreases left
      {
        var t :| t in left;
        var ok := Unlink(t);
        if !ok { return Interrupted, removed; }
        left := left - {t};
        removed := removed + {t};
      }
      if layout.manifest !in files { return Interrupted, removed; }
      var ok := Unlink(layout.manifest);
      if !ok { return Interrupted, removed; }
      outcome := Uninstalled;
    }
  }

  lemma Overlay(files: Files, over: Files, t: Id, f: File)
    ensures (files + over)[t := f] == files + over[t := f]
  {
  }

  datatype UninstallOutcome = NotInstalled | Declined | Interrupted | Uninstalled

  lemma Restored(before: Files, files: Files, targets: set<Id>)
    requires SameOutside(before, files, targets)
    requires forall t | t in targets :: (t in files <==> t in before) && (t in before ==> files[t] == before[t])
    ensures files == before
  {
    forall t ensures (t in files <==> t in before) && (t in before ==> files[t] == before[t]) {
      if t in targets {} else {}
    }
  }

  lemma {:induction false} BackupsAreNew(files: Files, payloads: seq<Payload>, layout: Layout)
    ensures forall b | b in Backups(files, payloads, layout) :: b !in files
    ensures forall b | b in Backups(files, payloads, layout) :: exists t, d :: b == layout.backup(t, d)
  {
    if payloads != [] { BackupsAreNew(files, payloads[..|payloads| - 1], layout); }
  }

  lemma CleanInstallHasCleanStale(home: Home, source: Source, leaderActive: bool)
    requires InstallRefusal(home.files, home.layout, source, leaderActive).None?
    ensures home.CleanStale(home.files, Stale(home.files, source.payloads, home.layout),
                            OwnedFiles(home.files, home.layout),
                            source, Backups(home.files, source.payloads, home.layout))
  {
    BackupsAreNew(home.files, source.payloads, home.layout);
  }

  lemma {:induction false} DigestsMatch(payloads: seq<Payload>, hash: Content -> Id, posix: bool)
    ensures DigestsOf(payloads, hash).Keys == Targets(payloads) == PayloadFiles(payloads, posix).Keys
    ensures forall t | t in Targets(payloads) ::
              DigestsOf(payloads, hash)[t] == hash(PayloadFiles(payloads, posix)[t].content)
  {
    if payloads != [] {
      var last := |payloads| - 1;
      DigestsMatch(payloads[..last], hash, posix);
      assert payloads == payloads[..last] + [payloads[last]];
      assert Targets(payloads) == Targets(payloads[..last]) + {payloads[last].target};
    }
  }

  /** A successful install reports INSTALLED for the source it installed from. */
  lemma InstalledStatus(files: Files, layout: Layout, source: Source)
    requires Placed(layout, source) && source.complete
    ensures CheckStatus(AfterInstall(files, layout, source), layout, Some(source)) == Installed
  {
    DigestsMatch(source.payloads, layout.hash, layout.posix);
  }

  /** No file that the installer does not own is ever among those it may touch. */
  lemma ForeignFilesAreSafe(files: Files, layout: Layout, source: Source, leaderActive: bool, t: Id)
    requires InstallRefusal(files, layout, source, leaderActive).None?
    requires t in files && t != layout.manifest && t !in OwnedFiles(files, layout)
    ensures t !in Touched(files, layout, source)
  {
    BackupsAreNew(files, source.payloads, layout);
  }

  /** Uninstalling right after a first install restores the original file map. */
  lemma FreshInstallThenUninstall(files: Files, layout: Layout, source: Source, leaderActive: bool)
    requires Placed(layout, source) && layout.manifest !in files
    requires InstallRefusal(files, layout, source, leaderActive).None?
    ensures var after := AfterInstall(files, layout, source);
            && CheckStatus(after, layout, None) == Installed
            && after - OwnedFiles(after, layout).Keys - {layout.manifest} == files
  {
    var after := AfterInstall(files, layout, source);
    DigestsMatch(source.payloads, layout.hash, layout.posix);
    NoBackupsOfNew(files, source.payloads, layout);
    assert OwnedFiles(after, layout).Keys == Targets(source.payloads);
    assert after - Targets(source.payloads) - {layout.manifest} == files;
  }

  lemma {:induction false} NoBackupsOfNew(files: Files, payloads: seq<Payload>, layout: Layout)
    requires forall p | p in payloads :: p.target !in files
    ensures Backups(files, payloads, layout) == map[]
  {
    if payloads != [] { NoBackupsOfNew(files, payloads[..|payloads| - 1], layout); }
  }

  lemma {:induction false} BackedUp(files: Files, payloads: seq<Payload>, layout: Layout, k: nat)
    requires k < |payloads| && payloads[k].target in files && files[payloads[k].target].content != payloads[k].content
    requires forall t, u | t in files && u in files
                           && layout.backup(t, layout.hash(files[t].content))
                              == layout.backup(u, layout.hash(files[u].content)) ::
               files[t].content == files[u].content
    ensures var b := layout.backup(payloads[k].target, layout.hash(files[payloads[k].target].content));
            b !in files ==>
              && b in Backups(files, payloads, layout)
              && Backups(files, payloads, layout)[b] == files[payloads[k].target].content
  {
    var last := |payloads| - 1;
    if k < last { BackedUp(files, payloads[..last], layout, k); }
  }

  /** An upgrade loses nothing it overwrites: unless a file of that name was there already, the
      previous content of every changed file is in its backup. Backup names that coincide must
      come from equal contents, as they do while no two digests share a prefix. */
  lemma UpgradeKeepsOldContent(files: Files, layout: Layout, source: Source, leaderActive: bool, k: nat)
    requires Placed(layout, source) && InstallRefusal(files, layout, source, leaderActive).None?
    requires k < |source.payloads| && source.payloads[k].target in files
             && files[source.payloads[k].target].content != source.payloads[k].content
    requires forall t, u | t in files && u in files
                           && layout.backup(t, layout.hash(files[t].content))
                              == layout.backup(u, layout.hash(files[u].content)) ::
               files[t].content == files[u].content
    ensures var previous := files[source.payloads[k].target].content;
            var b := layout.backup(source.payloads[k].target, layout.hash(previous));
            b !in files ==>
              && b in AfterInstall(files, layout, source)
              && AfterInstall(files, layout, source)[b].content == previous
  {
    DigestsMatch(source.payloads, layout.hash, layout.posix);
    BackedUp(files, source.payloads, layout, k);
    BackupsAreNew(files, source.payloads, layout);
  }

  /** There is no rollback in uninstall. One interrupted after it has removed anything leaves a
      DRIFTED install, which both a repeated uninstall and a new install refuse. */
  lemma InterruptedUninstallIsStuck(files: Files, layout: Layout, removed: set<Id>, source: Source, leaderActive: bool)
    requires CheckStatus(files, layout, None) == Installed && layout.manifest !in OwnedFiles(files, layout)
    requires removed <= OwnedFiles(files, layout).Keys
    ensures CheckStatus(files - removed, layout, None) == if removed == {} then Installed else Drifted
    ensures removed != {} ==> InstallRefusal(files - removed, layout, source, leaderActive) == Some(NotOwnershipClean)
  {
    if removed != {} {
      var t :| t in removed;
      var m := files[layout.manifest].content.manifest;
      assert t in m.files && t !in files - removed;
      assert Drift(files - removed, m, layout.hash);
    } else {
      assert files - removed == files;
    }
  }
}
