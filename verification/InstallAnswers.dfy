/** What the ownership-checked installer refuses and what it leaves behind, file by file. */
module InstallAnswers {
  import opened Collections
  import opened OwnedInstall

  /** The manifest can be read, and every file it owns is there with the digest it records. */
  ghost predicate Undamaged(files: Files, layout: Layout) {
    && layout.manifest in files && files[layout.manifest].content.Document?
    && forall t :: t in files[layout.manifest].content.manifest.files ==>
                     && t in files
                     && layout.hash(files[t].content) == files[layout.manifest].content.manifest.files[t]
  }

  predicate SameSource(m: Manifest, source: Source) {
    source.complete && source.head == m.head && source.tree == m.tree
  }

  /** ABSENT without a manifest; INVALID when it cannot be read; DRIFTED when a file it owns is gone or
      altered; else SOURCE_MISMATCH for another or an incomplete source, and INSTALLED. */
  lemma StatusAnswers(files: Files, layout: Layout, source: Option<Source>)
    ensures var status := CheckStatus(files, layout, source);
            && (status == Absent <==> layout.manifest !in files)
            && (status == InvalidManifest <==>
                  layout.manifest in files && !files[layout.manifest].content.Document?)
            && (status in {SourceMismatch, Installed} <==> Undamaged(files, layout))
            && (status == Installed <==>
                  && Undamaged(files, layout)
                  && (source.Some? ==> SameSource(files[layout.manifest].content.manifest, source.value)))
  {
  }

  /** Another's file lies where a payload should go. */
  ghost predicate InTheWay(files: Files, layout: Layout, source: Source) {
    exists k :: && 0 <= k < |source.payloads| && source.payloads[k].target in files
                && !Owns(files, layout, source.payloads[k].target)
  }

  predicate Owns(files: Files, layout: Layout, t: Id) {
    && layout.manifest in files && files[layout.manifest].content.Document?
    && t in files[layout.manifest].content.manifest.files
  }

  /** An install is refused over a damaged installation, one in use, from an incomplete source, or over
      another's file, in that order of precedence, and for nothing else. */
  lemma RefusalAnswers(files: Files, layout: Layout, source: Source, leaderActive: bool)
    ensures var there := layout.manifest in files;
            InstallRefusal(files, layout, source, leaderActive)
            == if there && !Undamaged(files, layout) then Some(NotOwnershipClean)
               else if there && leaderActive then Some(LeaderActive)
               else if !source.complete then Some(IncompleteSource)
               else if InTheWay(files, layout, source) then Some(ForeignFile)
               else None
  {
    StatusAnswers(files, layout, Some(source));
    if InTheWay(files, layout, source) {
      var k :| 0 <= k < |source.payloads| && source.payloads[k].target in files
               && !Owns(files, layout, source.payloads[k].target);
      assert source.payloads[k] in source.payloads && source.payloads[k].target in Targets(source.payloads);
    }
  }

  lemma {:induction false} PayloadWritten(payloads: seq<Payload>, hash: Content -> Id, posix: bool, k: nat)
    requires k < |payloads| && forall i, j | 0 <= i < j < |payloads| :: payloads[i].target != payloads[j].target
    ensures var p := payloads[k];
            && p.target in PayloadFiles(payloads, posix)
            && PayloadFiles(payloads, posix)[p.target] == File(p.content, if posix && p.executable then 493 else 384)
            && p.target in DigestsOf(payloads, hash) && DigestsOf(payloads, hash)[p.target] == hash(p.content)
  {
    var last := |payloads| - 1;
    if k < last { PayloadWritten(payloads[..last], hash, posix, k); }
  }

  /** Every payload is in place, private or, on a POSIX system, executable if it should be; and the
      manifest, private too, records its digest. */
  lemma InstallPlaces(files: Files, layout: Layout, source: Source, k: nat)
    requires Placed(layout, source) && k < |source.payloads|
    ensures var after := AfterInstall(files, layout, source); var p := source.payloads[k];
            && p.target in after
            && after[p.target] == File(p.content, if layout.posix && p.executable then 493 else 384)
            && Owns(after, layout, p.target)
            && after[layout.manifest].content.manifest.files[p.target] == layout.hash(p.content)
  {
    PayloadWritten(source.payloads, layout.hash, layout.posix, k);
    assert source.payloads[k] in source.payloads;
  }

  /** A saved copy of an owned file that the install changes, under a name that was free. */
  ghost predicate SavedCopy(files: Files, layout: Layout, source: Source, b: Id, saved: File) {
    exists k :: && 0 <= k < |source.payloads|
                && var p := source.payloads[k];
                   && p.target in files && files[p.target].content != p.content
                   && b !in files && b == layout.backup(p.target, layout.hash(files[p.target].content))
                   && saved == File(files[p.target].content, 384)
  }

  lemma {:induction false} BackupsAreCopies(files: Files, payloads: seq<Payload>, layout: Layout, b: Id)
    requires b in Backups(files, payloads, layout)
    ensures exists k :: && 0 <= k < |payloads|
                        && var p := payloads[k];
                           && p.target in files && files[p.target].content != p.content
                           && b !in files && b == layout.backup(p.target, layout.hash(files[p.target].content))
                           && Backups(files, payloads, layout)[b] == files[p.target].content
  {
    var last := |payloads| - 1;
    var earlier := Backups(files, payloads[..last], layout);
    var p := payloads[last];
    if p.target in files && files[p.target].content != p.content && b !in files
       && b == layout.backup(p.target, layout.hash(files[p.target].content)) {
    } else {
      BackupsAreCopies(files, payloads[..last], layout, b);
      var k :| && 0 <= k < last
               && var q := payloads[k];
                  && q.target in files && files[q.target].content != q.content
                  && b !in files && b == layout.backup(q.target, layout.hash(files[q.target].content))
                  && earlier[b] == files[q.target].content;
      assert payloads[k] == payloads[..last][k];
    }
  }

  predicate IsTarget(source: Source, t: Id) {
    exists k :: 0 <= k < |source.payloads| && source.payloads[k].target == t
  }

  /** Every other file: one that the previous manifest owned is gone, any other that was there is
      unchanged, and a new one is a saved copy. The manifest owns the payloads alone, and names their
      source. */
  lemma InstallLeaves(files: Files, layout: Layout, source: Source, leaderActive: bool, t: Id)
    requires Placed(layout, source) && InstallRefusal(files, layout, source, leaderActive).None?
    ensures var after := AfterInstall(files, layout, source);
            && (Owns(after, layout, t) <==> IsTarget(source, t))
            && after[layout.manifest].mode == 384
            && SameSource(after[layout.manifest].content.manifest, source)
            && (t != layout.manifest && !IsTarget(source, t) ==>
                  if Owns(files, layout, t) then t !in after
                  else if t in files then t in after && after[t] == files[t]
                  else t in after ==> SavedCopy(files, layout, source, t, after[t]))
  {
    DigestsMatch(source.payloads, layout.hash, layout.posix);
    assert IsTarget(source, t) <==> t in Targets(source.payloads) by {
      if t in Targets(source.payloads) {
        var p :| p in source.payloads && p.target == t;
      }
    }
    BackupsAreNew(files, source.payloads, layout);
    if t in Backups(files, source.payloads, layout) { BackupsAreCopies(files, source.payloads, layout, t); }
  }
}
