/** Why a run stops: the error it returns is true of an object that it read, or was about to write. */
module Blame {
  import opened Wrappers
  import opened Prefix
  import opened Json
  import opened Metadata
  import opened Graph
  import opened Deletes
  import opened Plan
  import opened PlanFacts
  import opened Preserve
  import opened SideConditions
  import opened DryRun

  /** What can be wrong with a delete body in scope. */
  ghost predicate BodyBlamed(env: Env, dry: bool, s: Store, uri: Uri, err: Error) {
    match err
    case StorageFailed(u) => u == uri && uri !in s
    case Undecodable(u) => u == uri && uri in s && !s[uri].obj.DelBody?
    case NotPositionDelete(u) =>
      && u == uri && uri in s && s[uri].obj.DelBody?
      && var at := FieldIndices(s[uri].obj.cols, "file_path");
         |at| == 1 ==> s[uri].obj.cols[at[0]].col.NumCol? && s[uri].obj.cols[at[0]].col.Chunks() > 0
    case ForeignRow(u, row) =>
      && u == uri && uri in s && s[uri].obj.DelBody? && FilePaths(s[uri].obj.cols).Some?
      && (if dry then FirstForeign(env.m, FilePaths(s[uri].obj.cols).value).Some?
          else FirstForeign(env.m, FilePaths(s[uri].obj.cols).value) == Some(row))
    case ZeroChunks(u) =>
      && !dry && u == uri && uri in s && s[uri].obj.DelBody?
      && exists i | 0 <= i < |s[uri].obj.cols| :: s[uri].obj.cols[i].col.Chunks() == 0
    case Unencodable(u) =>
      && !dry && u == env.m.Apply(uri) && uri in s && s[uri].obj.DelBody?
      && ConvertBody(env.m, uri, s[uri].obj.cols).Success? && ConvertBody(env.m, uri, s[uri].obj.cols).value.1
      && env.enc(DelBody(ConvertBody(env.m, uri, s[uri].obj.cols).value.0)).None?
    case _ => false
  }

  /** Some column is to blame for a body that cannot be converted. */
  lemma {:induction false} ColumnBlamed(m: PrefixMapping, uri: Uri, cols: seq<NamedCol>, fp: nat, i: nat)
    requires i <= |cols| && ConvertFrom(m, uri, cols, fp, i).Failure?
    ensures exists k | i <= k < |cols| ::
              ConvertColumn(m, uri, cols[k], k == fp) == Failure(ConvertFrom(m, uri, cols, fp, i).error)
    decreases |cols| - i
  {
    if ConvertColumn(m, uri, cols[i], i == fp).Success? {
      ColumnBlamed(m, uri, cols, fp, i + 1);
    }
  }

  /** A row that passes: null, empty, or under one of the two prefixes. */
  predicate Passes(m: PrefixMapping, row: Option<string>) {
    row.Some? && row.value != "" ==> m.source <= row.value || m.target <= row.value
  }

  /** Exactly when a body is accepted, and which row is refused if one is: the first that does not pass. */
  lemma BodyAcceptedIff(m: PrefixMapping, uri: Uri, cols: seq<NamedCol>)
    ensures ConvertBody(m, uri, cols).Success? <==>
            && FilePaths(cols).Some?
            && (forall i | 0 <= i < |cols| :: cols[i].col.Chunks() > 0)
            && forall k | 0 <= k < |FilePaths(cols).value| :: Passes(m, FilePaths(cols).value[k])
    ensures ConvertBody(m, uri, cols).Failure? && ConvertBody(m, uri, cols).error.ForeignRow? ==>
            var err := ConvertBody(m, uri, cols).error;
            && err.uri == uri && FilePaths(cols).Some? && err.row < |FilePaths(cols).value|
            && !Passes(m, FilePaths(cols).value[err.row])
            && forall k | 0 <= k < err.row :: Passes(m, FilePaths(cols).value[k])
  {
    DryCheckVsRewrite(m, uri, cols);
    var at := FieldIndices(cols, "file_path");
    if |at| == 1 {
      if ConvertBody(m, uri, cols).Failure? {
        ColumnBlamed(m, uri, cols, at[0], 0);
      }
      hide ConvertFrom, FieldIndices;
      if cols[at[0]].col.StrCol? {
        ChunkwiseEqualsWhole(m, uri, cols[at[0]].col.texts);
        hide WalkChunks;
        assert forall row :: Passes(m, row) <==> !Foreign(m, row);
        hide Passes, Foreign;
      }
    }
  }

  lemma ConversionBlamed(env: Env, s: Store, uri: Uri)
    requires uri in s && s[uri].obj.DelBody? && ConvertBody(env.m, uri, s[uri].obj.cols).Failure?
    ensures BodyBlamed(env, false, s, uri, ConvertBody(env.m, uri, s[uri].obj.cols).error)
  {
    var cols := s[uri].obj.cols;
    var at := FieldIndices(cols, "file_path");
    if |at| == 1 {
      ColumnBlamed(env.m, uri, cols, at[0], 0);
      hide ConvertFrom, FieldIndices;
    }
  }

  lemma WalkBlamed(env: Env, s: Store, uri: Uri)
    requires uri in s && s[uri].obj.DelBody? && WalkBody(env.m, uri, s[uri].obj.cols).Some?
    ensures BodyBlamed(env, true, s, uri, WalkBody(env.m, uri, s[uri].obj.cols).value)
  {
    var at := FieldIndices(s[uri].obj.cols, "file_path");
    hide FieldIndices;
    if |at| == 1 && s[uri].obj.cols[at[0]].col.StrCol? {
      var c := DryRowOffset(env.m, uri, s[uri].obj.cols[at[0]].col.texts);
    }
  }

  /** A body with something wrong is refused. */
  lemma BlamedBodyFails(env: Env, dry: bool, s: Store, uri: Uri, err: Error)
    requires env.m.Matches(uri) && BodyBlamed(env, dry, s, uri, err)
    ensures if dry then WalkStored(env, s, uri).Some? else PlanBody(env, s, uri).res.Failure?
  {
    if uri in s && s[uri].obj.DelBody? {
      var cols := s[uri].obj.cols;
      DryCheckVsRewrite(env.m, uri, cols);
      var at := FieldIndices(cols, "file_path");
      hide FieldIndices, ConvertBody;
      if |at| == 1 && cols[at[0]].col.StrCol? {
        ChunkwiseEqualsWhole(env.m, uri, cols[at[0]].col.texts);
        hide WalkChunks, FirstForeign;
      }
    }
  }

  /** What can be wrong with an entry: its kind, or the body that it names. */
  ghost predicate EntryBlamed(env: Env, dry: bool, manifest: Uri, s: Store, f: FileInfo, err: Error) {
    || (err == Unsupported(manifest) && (f.content.OtherContent? || (f.content.PosDeletes? && IsPuffin(f.path))))
    || (f.content.PosDeletes? && !IsPuffin(f.path) && env.m.Matches(f.path) && BodyBlamed(env, dry, s, f.path, err))
  }

  lemma EntryFails(env: Env, dry: bool, manifest: Uri, s: Store, e: Entry)
    requires (if dry then PlanWalkEntry(env, manifest, s, e) else PlanEntry(env, manifest, s, e)).res.Failure?
    ensures var r := if dry then PlanWalkEntry(env, manifest, s, e) else PlanEntry(env, manifest, s, e);
            EntryBlamed(env, dry, manifest, s, e.file, r.res.error)
  {
    var u := e.file.path;
    if env.m.Matches(u) && u in s && s[u].obj.DelBody? {
      if ConvertBody(env.m, u, s[u].obj.cols).Failure? {
        ConversionBlamed(env, s, u);
      }
      if WalkBody(env.m, u, s[u].obj.cols).Some? {
        WalkBlamed(env, s, u);
      }
    }
    hide ConvertBody, WalkBody, FilePaths, IsPuffin, FirstForeign;
  }

  lemma BlamedEntryFails(env: Env, dry: bool, manifest: Uri, s: Store, e: Entry, err: Error)
    requires EntryBlamed(env, dry, manifest, s, e.file, err)
    ensures (if dry then PlanWalkEntry(env, manifest, s, e) else PlanEntry(env, manifest, s, e)).res.Failure?
  {
    hide BodyBlamed, PlanBody, WalkStored, IsPuffin;
    if e.file.content.PosDeletes? && env.m.Matches(e.file.path) && BodyBlamed(env, dry, s, e.file.path, err) {
      BlamedBodyFails(env, dry, s, e.file.path, err);
    }
  }

  /** What can be wrong with a manifest: it, one of its entries, or, in a live run, where it lies and its new encoding. */
  ghost predicate ManifestBlamed(env: Env, dry: bool, s: Store, mf: ManifestFile, err: Error) {
    var u := mf.path;
    if u !in s then err == StorageFailed(u)
    else if !s[u].obj.Manifest? || s[u].obj.content != mf.content then err == Undecodable(u)
    else
      || (!dry && err == BadHeader(u) && !s[u].obj.headerOk)
      || (exists e | e in s[u].obj.entries :: EntryBlamed(env, dry, u, s, e.file, err))
      || (!dry && Moves(env.m, s, u) && err == OutsidePrefix(u) && !env.m.Matches(u))
      || (!dry && Moves(env.m, s, u) && err == Unencodable(env.m.Apply(u)) && env.m.Matches(u) && Encoding(env, s, mf).None?)
  }

  lemma ManifestFails(env: Env, dry: bool, s: Store, mf: ManifestFile)
    requires env.m.Legal() && PlanFile(env, dry, s, mf).res.Failure?
    ensures ManifestBlamed(env, dry, s, mf, PlanFile(env, dry, s, mf).res.error)
  {
    hide PlanLoop, PlanEntry, PlanWalkEntry, EntryBlamed, Touches, RewrittenEntries, Summarize;
    if mf.path in s && s[mf.path].obj.Manifest? && s[mf.path].obj.content == mf.content {
      var entries := s[mf.path].obj.entries;
      var step := if dry then WalkStep(env, mf.path) else EntryStep(env, mf.path);
      EntriesStable(env, s, mf.path, entries);
      LoopWrites(env.m, s, step, entries);
      hide Stable;
      var loop := PlanLoop(step, s, entries);
      if loop.res.Failure? {
        var e :| e in entries && step(s, e).res.Failure? && step(s, e).res.error == loop.res.error;
        assert step(s, e) == if dry then PlanWalkEntry(env, mf.path, s, e) else PlanEntry(env, mf.path, s, e);
        EntryFails(env, dry, mf.path, s, e);
      } else if !dry {
        EntriesRewritten(env, s, mf.path, entries);
      }
    }
  }

  lemma BlamedManifestFails(env: Env, dry: bool, s: Store, mf: ManifestFile, err: Error)
    requires env.m.Legal() && ManifestBlamed(env, dry, s, mf, err)
    ensures PlanFile(env, dry, s, mf).res.Failure?
  {
    hide PlanLoop, PlanEntry, PlanWalkEntry, EntryBlamed, Touches, RewrittenEntries, Summarize;
    if mf.path in s && s[mf.path].obj.Manifest? && s[mf.path].obj.content == mf.content {
      var entries := s[mf.path].obj.entries;
      var step := if dry then WalkStep(env, mf.path) else EntryStep(env, mf.path);
      EntriesStable(env, s, mf.path, entries);
      LoopWrites(env.m, s, step, entries);
      hide Stable;
      if e :| e in entries && EntryBlamed(env, dry, mf.path, s, e.file, err) {
        assert step(s, e) == if dry then PlanWalkEntry(env, mf.path, s, e) else PlanEntry(env, mf.path, s, e);
        BlamedEntryFails(env, dry, mf.path, s, e, err);
      } else if !dry && PlanLoop(step, s, entries).res.Success? {
        EntriesRewritten(env, s, mf.path, entries);
      }
    }
  }

  /** What can be wrong with a list: it, a manifest that it names, or, in a live run, where it lies and its new encoding. */
  ghost predicate ListBlamed(env: Env, dry: bool, s: Store, uri: Uri, err: Error) {
    if uri !in s then err == StorageFailed(uri)
    else if !s[uri].obj.List? then err == Undecodable(uri)
    else
      || (exists f | f in s[uri].obj.files :: ManifestBlamed(env, dry, s, f, err))
      || (!dry && err == OutsidePrefix(uri) && !env.m.Matches(uri) && exists f | f in s[uri].obj.files :: Moves(env.m, s, f.path))
      || (!dry && err == Unencodable(env.m.Apply(uri)) && env.m.Matches(uri) &&
            env.enc(List(s[uri].obj.version, s[uri].obj.header, Descriptors(env, s, s[uri].obj.files))).None?)
  }

  lemma ListFails(env: Env, dry: bool, s: Store, uri: Uri)
    requires env.m.Legal() && PlanList(env, dry, s, uri).res.Failure?
    requires uri in s && s[uri].obj.List? ==> TwinFreeFiles(env.m, s, s[uri].obj.files)
    ensures ListBlamed(env, dry, s, uri, PlanList(env, dry, s, uri).res.error)
  {
    hide PlanLoop, PlanFile, ManifestBlamed, TwinFreeFiles, ListHits, Moves, Descriptors, ManifestReady;
    if uri in s && s[uri].obj.List? {
      var step, files := FileStep(env, dry), s[uri].obj.files;
      FilesStable(env, dry, s, files);
      LoopWrites(env.m, s, step, files);
      hide Stable;
      var loop := PlanLoop(step, s, files);
      if loop.res.Failure? {
        var f :| f in files && step(s, f).res.Failure? && step(s, f).res.error == loop.res.error;
        assert step(s, f) == PlanFile(env, dry, s, f);
        ManifestFails(env, dry, s, f);
      } else if !dry {
        FilesSucceedIff(env, s, files);
        FilesRewritten(env, s, files);
        ApplyUnapply(env.m, uri);
      }
    }
  }

  lemma BlamedListFails(env: Env, dry: bool, s: Store, uri: Uri, err: Error)
    requires env.m.Legal() && ListBlamed(env, dry, s, uri, err)
    requires uri in s && s[uri].obj.List? ==> TwinFreeFiles(env.m, s, s[uri].obj.files)
    ensures PlanList(env, dry, s, uri).res.Failure?
  {
    hide PlanLoop, PlanFile, ManifestBlamed, TwinFreeFiles, ListHits, Moves, Descriptors, ManifestReady;
    if uri in s && s[uri].obj.List? {
      var step, files := FileStep(env, dry), s[uri].obj.files;
      FilesStable(env, dry, s, files);
      LoopWrites(env.m, s, step, files);
      hide Stable;
      if f :| f in files && ManifestBlamed(env, dry, s, f, err) {
        assert step(s, f) == PlanFile(env, dry, s, f);
        BlamedManifestFails(env, dry, s, f, err);
      } else if !dry && PlanLoop(step, s, files).res.Success? {
        FilesSucceedIff(env, s, files);
        FilesRewritten(env, s, files);
        ApplyUnapply(env.m, uri);
      }
    }
  }

  ghost predicate FlatBlamed(env: Env, dry: bool, id: int, s: Store, uri: Uri, err: Error) {
    if uri !in s then err == StorageFailed(uri) else ManifestBlamed(env, dry, s, V1Descriptor(uri, s[uri].size, id), err)
  }

  lemma FlatFails(env: Env, dry: bool, id: int, s: Store, uris: seq<Uri>)
    requires env.m.Legal() && forall u | u in uris :: !Twin(env.m, s, u)
    requires PlanLoop(FlatStep(env, dry, id), s, uris).res.Failure?
    ensures exists u | u in uris :: FlatBlamed(env, dry, id, s, u, PlanLoop(FlatStep(env, dry, id), s, uris).res.error)
  {
    hide PlanLoop, PlanFile, ManifestBlamed, Twin;
    var step := FlatStep(env, dry, id);
    FlatStable(env, dry, id, s, uris);
    LoopWrites(env.m, s, step, uris);
    hide Stable;
    var err := PlanLoop(step, s, uris).res.error;
    var u :| u in uris && step(s, u).res.Failure? && step(s, u).res.error == err;
    assert step(s, u) == PlanFlat(env, dry, id, s, u);
    if u in s {
      ManifestFails(env, dry, s, V1Descriptor(u, s[u].size, id));
    }
    assert FlatBlamed(env, dry, id, s, u, err);
  }

  lemma BlamedFlatFails(env: Env, dry: bool, id: int, s: Store, uris: seq<Uri>, u: Uri, err: Error)
    requires env.m.Legal() && forall x | x in uris :: !Twin(env.m, s, x)
    requires u in uris && FlatBlamed(env, dry, id, s, u, err)
    ensures PlanLoop(FlatStep(env, dry, id), s, uris).res.Failure?
  {
    hide PlanLoop, PlanFile, ManifestBlamed, Twin;
    var step := FlatStep(env, dry, id);
    FlatStable(env, dry, id, s, uris);
    LoopWrites(env.m, s, step, uris);
    hide Stable;
    assert step(s, u) == PlanFlat(env, dry, id, s, u);
    if u in s {
      BlamedManifestFails(env, dry, s, V1Descriptor(u, s[u].size, id), err);
    }
  }

  ghost predicate SnapshotBlamed(env: Env, dry: bool, s: Store, snap: SnapshotJSON, err: Error) {
    || (snap.manifestList != "" && ListBlamed(env, dry, s, snap.manifestList, err))
    || exists u | u in snap.manifests :: FlatBlamed(env, dry, snap.id, s, u, err)
  }

  lemma SnapshotFails(env: Env, dry: bool, s: Store, snap: SnapshotJSON)
    requires env.m.Legal() && TwinFree(env.m, s, snap) && PlanSnapshot(env, dry, s, snap).res.Failure?
    ensures SnapshotBlamed(env, dry, s, snap, PlanSnapshot(env, dry, s, snap).res.error)
  {
    SnapshotUnthreaded(env, dry, s, s, snap);
    hide PlanSnapshot, PlanLoop, PlanList, ListBlamed, FlatBlamed, Twin;
    if ListPart(env, dry, s, snap).res.Failure? {
      ListFails(env, dry, s, snap.manifestList);
    } else {
      FlatFails(env, dry, snap.id, s, snap.manifests);
    }
  }

  lemma BlamedSnapshotFails(env: Env, dry: bool, s: Store, snap: SnapshotJSON, err: Error)
    requires env.m.Legal() && TwinFree(env.m, s, snap) && SnapshotBlamed(env, dry, s, snap, err)
    ensures PlanSnapshot(env, dry, s, snap).res.Failure?
  {
    SnapshotUnthreaded(env, dry, s, s, snap);
    hide PlanSnapshot, PlanLoop, PlanList, ListBlamed, FlatBlamed, Twin;
    if snap.manifestList != "" && ListBlamed(env, dry, s, snap.manifestList, err) {
      BlamedListFails(env, dry, s, snap.manifestList, err);
    } else {
      var u :| u in snap.manifests && FlatBlamed(env, dry, snap.id, s, u, err);
      BlamedFlatFails(env, dry, snap.id, s, snap.manifests, u, err);
    }
  }

  /** What can be wrong with a table: its location, its document, a walked snapshot, or, in a live run, the new document. */
  ghost predicate TableBlamed(env: Env, opts: Options, s: Store, loc: Uri, err: Error) {
    if !env.m.Matches(loc) then err == WrongPrefix(loc)
    else if loc !in s then err == StorageFailed(loc)
    else if !s[loc].obj.Meta? || Parse(s[loc].obj.doc).None? then err == Undecodable(loc)
    else
      || (exists snap | snap in Walked(opts, s, loc) :: SnapshotBlamed(env, opts.dry, s, snap, err))
      || (!opts.dry && err == Unencodable(env.m.Apply(loc)) && MetaMoves(env.m, s, loc) &&
            env.enc(Meta(WrittenDoc(env.m, env.num, s[loc].obj.doc))).None?)
  }

  /** Whatever error a run returns, live or dry, is true: the object it names is missing, of the wrong kind or in the wrong
      place, or refused by the encoder, as the error says. */
  lemma ErrorsAreTrue(env: Env, opts: Options, s: Store, loc: Uri)
    requires env.m.Legal() && TwinFreeTable(env.m, opts, s, loc) && PlanTable(env, opts, s, loc).res.Failure?
    ensures TableBlamed(env, opts, s, loc, PlanTable(env, opts, s, loc).res.error)
  {
    hide PlanLoop, PlanSnapshot, WalkHits, Selected, Parse, TwinFree, RelocateDoc, WrittenDoc, SnapshotBlamed, After;
    AgreesWithItself(env.m, s);
    if env.m.Matches(loc) && LoadMeta(s, loc).Success? {
      var step, snaps := SnapshotStep(env, opts.dry), Walked(opts, s, loc);
      TableUnthreaded(env, opts, s, s, loc);
      SnapshotsStable(env, opts.dry, s, snaps);
      LoopWrites(env.m, s, step, snaps);
      hide Stable;
      var loop := PlanLoop(step, s, snaps);
      if loop.res.Failure? {
        var snap :| snap in snaps && step(s, snap).res.Failure? && step(s, snap).res.error == loop.res.error;
        assert step(s, snap) == PlanSnapshot(env, opts.dry, s, snap);
        SnapshotFails(env, opts.dry, s, snap);
      }
    }
  }

  /** And a run succeeds exactly when there is nothing to blame. */
  lemma FailsIffBlamed(env: Env, opts: Options, s: Store, loc: Uri)
    requires env.m.Legal() && TwinFreeTable(env.m, opts, s, loc)
    ensures PlanTable(env, opts, s, loc).res.Failure? <==> exists err :: TableBlamed(env, opts, s, loc, err)
  {
    if PlanTable(env, opts, s, loc).res.Failure? {
      ErrorsAreTrue(env, opts, s, loc);
    }
    if err :| TableBlamed(env, opts, s, loc, err) {
      BlamedTableFails(env, opts, s, loc, err);
    }
  }

  lemma BlamedTableFails(env: Env, opts: Options, s: Store, loc: Uri, err: Error)
    requires env.m.Legal() && TwinFreeTable(env.m, opts, s, loc) && TableBlamed(env, opts, s, loc, err)
    ensures PlanTable(env, opts, s, loc).res.Failure?
  {
    hide PlanLoop, PlanSnapshot, WalkHits, Selected, Parse, TwinFree, RelocateDoc, WrittenDoc, SnapshotBlamed, After;
    AgreesWithItself(env.m, s);
    if env.m.Matches(loc) && LoadMeta(s, loc).Success? {
      var step, snaps := SnapshotStep(env, opts.dry), Walked(opts, s, loc);
      TableUnthreaded(env, opts, s, s, loc);
      SnapshotsStable(env, opts.dry, s, snaps);
      LoopWrites(env.m, s, step, snaps);
      hide Stable;
      if snap :| snap in snaps && SnapshotBlamed(env, opts.dry, s, snap, err) {
        assert step(s, snap) == PlanSnapshot(env, opts.dry, s, snap);
        BlamedSnapshotFails(env, opts.dry, s, snap, err);
      }
    }
  }
}
