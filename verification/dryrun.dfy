/** What a dry run says about the live run on the same, fault-free storage. */
module DryRun {
  import opened Wrappers
  import opened Prefix
  import opened Json
  import opened Metadata
  import opened Graph
  import opened Deletes
  import opened Plan
  import opened PlanFacts
  import opened Preserve
  import opened SideConditions

  /** The failures that only the live run can meet: it writes, encodes, concatenates columns and decodes headers. */
  predicate LiveOnly(e: Error) {
    e.OutsidePrefix? || e.ZeroChunks? || e.Unencodable? || e.BadHeader?
  }

  /** dry is predictive of live: it succeeds whenever live does, with the same hits, and when it succeeds, live can only
      fail in a way that belongs to the live run. */
  ghost predicate Predicts(dry: Run<Gathered>, live: Run<Gathered>) {
    && (live.res.Success? ==> dry.res.Success? && dry.res.value.hits == live.res.value.hits)
    && (dry.res.Success? && live.res.Failure? ==> LiveOnly(live.res.error))
  }

  lemma EntryPredicted(env: Env, manifest: Uri, s: Store, e: Entry)
    ensures Predicts(PlanWalkEntry(env, manifest, s, e), PlanEntry(env, manifest, s, e))
  {
    hide ConvertBody, WalkBody;
    var uri := e.file.path;
    if e.file.content.PosDeletes? && env.m.Matches(uri) && uri in s && s[uri].obj.DelBody? {
      DryCheckVsRewrite(env.m, uri, s[uri].obj.cols);
    }
  }

  lemma {:induction false} LoopPredicted<X(!new)>(m: PrefixMapping, base: Store, dry: (Store, X) -> Run<Gathered>,
                                                  live: (Store, X) -> Run<Gathered>, xs: seq<X>)
    requires Stable(m, base, dry, xs) && Stable(m, base, live, xs)
    requires forall x | x in xs :: Predicts(dry(base, x), live(base, x))
    ensures Predicts(PlanLoop(dry, base, xs), PlanLoop(live, base, xs))
    decreases |xs|
  {
    if xs != [] {
      StableRest(m, base, dry, xs);
      StableRest(m, base, live, xs);
      LoopUnthreaded(m, base, dry, xs);
      LoopUnthreaded(m, base, live, xs);
      assert xs[0] in xs && forall x | x in xs[1..] :: x in xs;
      assert Predicts(dry(base, xs[0]), live(base, xs[0]));
      LoopPredicted(m, base, dry, live, xs[1..]);
    }
  }

  lemma ManifestPredicted(env: Env, s: Store, mf: ManifestFile)
    requires env.m.Legal()
    ensures Predicts(PlanFile(env, true, s, mf), PlanFile(env, false, s, mf))
  {
    hide PlanEntry, PlanWalkEntry;
    if mf.path in s && s[mf.path].obj.Manifest? {
      var entries := s[mf.path].obj.entries;
      EntriesStable(env, s, mf.path, entries);
      var dry, live := WalkStep(env, mf.path), EntryStep(env, mf.path);
      forall e | e in entries ensures Predicts(dry(s, e), live(s, e)) {
        EntryPredicted(env, mf.path, s, e);
      }
      LoopPredicted(env.m, s, dry, live, entries);
    }
  }

  lemma ListPredicted(env: Env, s: Store, uri: Uri)
    requires env.m.Legal()
    requires uri in s && s[uri].obj.List? ==> TwinFreeFiles(env.m, s, s[uri].obj.files)
    ensures Predicts(PlanList(env, true, s, uri), PlanList(env, false, s, uri))
  {
    hide PlanFile, TwinFreeFiles;
    if uri in s && s[uri].obj.List? {
      var files := s[uri].obj.files;
      FilesStable(env, true, s, files);
      FilesStable(env, false, s, files);
      var dry, live := FileStep(env, true), FileStep(env, false);
      forall f | f in files ensures Predicts(dry(s, f), live(s, f)) {
        ManifestPredicted(env, s, f);
      }
      LoopPredicted(env.m, s, dry, live, files);
    }
  }

  lemma FlatPredicted(env: Env, id: int, s: Store, uris: seq<Uri>)
    requires env.m.Legal() && forall u | u in uris :: !Twin(env.m, s, u)
    ensures Predicts(PlanLoop(FlatStep(env, true, id), s, uris), PlanLoop(FlatStep(env, false, id), s, uris))
  {
    hide PlanFile;
    FlatStable(env, true, id, s, uris);
    FlatStable(env, false, id, s, uris);
    var dry, live := FlatStep(env, true, id), FlatStep(env, false, id);
    forall u | u in uris ensures Predicts(dry(s, u), live(s, u)) {
      if u in s {
        ManifestPredicted(env, s, V1Descriptor(u, s[u].size, id));
      }
    }
    LoopPredicted(env.m, s, dry, live, uris);
  }

  lemma SnapshotPredicted(env: Env, s: Store, snap: SnapshotJSON)
    requires env.m.Legal() && TwinFree(env.m, s, snap)
    ensures Predicts(PlanSnapshot(env, true, s, snap), PlanSnapshot(env, false, s, snap))
  {
    SnapshotUnthreaded(env, true, s, s, snap);
    SnapshotUnthreaded(env, false, s, s, snap);
    hide PlanSnapshot, PlanLoop, PlanList;
    ListPredicted(env, s, snap.manifestList);
    FlatPredicted(env, snap.id, s, snap.manifests);
  }

  lemma WalkPredicted(env: Env, s: Store, snaps: seq<SnapshotJSON>)
    requires env.m.Legal() && forall snap | snap in snaps :: TwinFree(env.m, s, snap)
    ensures Predicts(PlanLoop(SnapshotStep(env, true), s, snaps), PlanLoop(SnapshotStep(env, false), s, snaps))
  {
    hide PlanSnapshot, TwinFree;
    SnapshotsStable(env, true, s, snaps);
    SnapshotsStable(env, false, s, snaps);
    var dry, live := SnapshotStep(env, true), SnapshotStep(env, false);
    forall snap | snap in snaps ensures Predicts(dry(s, snap), live(s, snap)) {
      SnapshotPredicted(env, s, snap);
    }
    LoopPredicted(env.m, s, dry, live, snaps);
  }

  // Exactly when a clean dry run means a clean live run.

  /** The body of a delete entry in scope has a chunk in every column, and can be encoded if it changes. */
  predicate BodyReady(env: Env, s: Store, f: FileInfo) {
    f.content.PosDeletes? && env.m.Matches(f.path) && f.path in s && s[f.path].obj.DelBody? ==>
      var cols := s[f.path].obj.cols;
      && (forall i | 0 <= i < |cols| :: cols[i].col.Chunks() > 0)
      && match ConvertBody(env.m, f.path, cols)
         case Success((out, true)) => env.enc(DelBody(out)).Some?
         case _ => true
  }

  /** The live run accepts an entry exactly when the dry run does and its body is ready. */
  lemma EntrySucceedsIff(env: Env, manifest: Uri, s: Store, e: Entry)
    ensures PlanEntry(env, manifest, s, e).res.Success? <==>
            PlanWalkEntry(env, manifest, s, e).res.Success? && BodyReady(env, s, e.file)
  {
    hide ConvertBody, WalkBody;
    var uri := e.file.path;
    if e.file.content.PosDeletes? && env.m.Matches(uri) && uri in s && s[uri].obj.DelBody? {
      DryCheckVsRewrite(env.m, uri, s[uri].obj.cols);
    }
  }

  /** The manifest holds an entry that names something in scope. */
  ghost predicate Moves(m: PrefixMapping, s: Store, path: Uri) {
    path in s && s[path].obj.Manifest? && exists e | e in s[path].obj.entries :: Touches(m, e.file)
  }

  /** The manifest's header decodes, its bodies are ready, and if it moves, it lies in the prefix and can be encoded. */
  ghost predicate ManifestReady(env: Env, s: Store, mf: ManifestFile) {
    mf.path in s && s[mf.path].obj.Manifest? ==>
      && s[mf.path].obj.headerOk
      && (forall e | e in s[mf.path].obj.entries :: BodyReady(env, s, e.file))
      && (Moves(env.m, s, mf.path) ==> env.m.Matches(mf.path) && Encoding(env, s, mf).Some?)
  }

  lemma EntriesSucceedIff(env: Env, s: Store, manifest: Uri, entries: seq<Entry>)
    requires env.m.Legal()
    ensures PlanLoop(EntryStep(env, manifest), s, entries).res.Success? <==>
            && PlanLoop(WalkStep(env, manifest), s, entries).res.Success?
            && forall e | e in entries :: BodyReady(env, s, e.file)
  {
    hide PlanEntry, PlanWalkEntry, BodyReady, PlanLoop;
    EntriesStable(env, s, manifest, entries);
    var dry, live := WalkStep(env, manifest), EntryStep(env, manifest);
    LoopWrites(env.m, s, dry, entries);
    LoopWrites(env.m, s, live, entries);
    forall e | e in entries ensures live(s, e).res.Success? <==> dry(s, e).res.Success? && BodyReady(env, s, e.file) {
      EntrySucceedsIff(env, manifest, s, e);
    }
    hide Stable;
  }

  /** The live run accepts a manifest exactly when the dry run does and the manifest is ready. */
  lemma ManifestSucceedsIff(env: Env, s: Store, mf: ManifestFile)
    requires env.m.Legal()
    ensures PlanFile(env, false, s, mf).res.Success? <==> PlanFile(env, true, s, mf).res.Success? && ManifestReady(env, s, mf)
  {
    hide PlanLoop, BodyReady, Touches, RewrittenEntries, Summarize;
    if mf.path in s && s[mf.path].obj.Manifest? {
      var entries := s[mf.path].obj.entries;
      EntriesSucceedIff(env, s, mf.path, entries);
      if PlanLoop(EntryStep(env, mf.path), s, entries).res.Success? {
        EntriesRewritten(env, s, mf.path, entries);
      }
    }
  }

  /** A manifest changes in its list exactly when it moves. */
  lemma ChangedIffMoves(env: Env, s: Store, f: ManifestFile)
    requires env.m.Legal() && PlanFile(env, false, s, f).res.Success?
    ensures PlanFile(env, false, s, f).res.value.changed <==> Moves(env.m, s, f.path)
  {
    hide PlanManifest, PlanLoop, Touches;
    if PlanManifest(env, s, f).res.Success? {
      MovedManifest(env, s, f);
      ManifestOutcome(env, s, f);
    }
  }

  /** The manifests of the list are ready; if one of them moves, the list lies in the prefix; and if it is to be written,
      it can be encoded. */
  ghost predicate ListReady(env: Env, s: Store, uri: Uri) {
    uri in s && s[uri].obj.List? ==>
      var list := s[uri].obj;
      var moves := exists f | f in list.files :: Moves(env.m, s, f.path);
      && (forall f | f in list.files :: ManifestReady(env, s, f))
      && (moves ==> env.m.Matches(uri))
      && (env.m.Matches(uri) ==> env.enc(List(list.version, list.header, Descriptors(env, s, list.files))).Some?)
  }

  lemma FilesSucceedIff(env: Env, s: Store, files: seq<ManifestFile>)
    requires env.m.Legal() && TwinFreeFiles(env.m, s, files)
    ensures var dry, live := PlanLoop(FileStep(env, true), s, files), PlanLoop(FileStep(env, false), s, files);
            && (live.res.Success? <==> dry.res.Success? && forall f | f in files :: ManifestReady(env, s, f))
            && (live.res.Success? ==> (live.res.value.changed <==> exists f | f in files :: Moves(env.m, s, f.path)))
  {
    hide PlanFile, ManifestReady, PlanLoop, TwinFreeFiles, Moves;
    FilesStable(env, true, s, files);
    FilesStable(env, false, s, files);
    var dry, live := FileStep(env, true), FileStep(env, false);
    LoopWrites(env.m, s, dry, files);
    LoopWrites(env.m, s, live, files);
    forall f | f in files
      ensures live(s, f).res.Success? <==> dry(s, f).res.Success? && ManifestReady(env, s, f)
      ensures live(s, f).res.Success? ==> (live(s, f).res.value.changed <==> Moves(env.m, s, f.path))
    {
      ManifestSucceedsIff(env, s, f);
      if PlanFile(env, false, s, f).res.Success? {
        ChangedIffMoves(env, s, f);
      }
    }
    hide Stable;
  }

  lemma ListSucceedsIff(env: Env, s: Store, uri: Uri)
    requires env.m.Legal()
    requires uri in s && s[uri].obj.List? ==> TwinFreeFiles(env.m, s, s[uri].obj.files)
    ensures PlanList(env, false, s, uri).res.Success? <==> PlanList(env, true, s, uri).res.Success? && ListReady(env, s, uri)
  {
    hide PlanLoop, ManifestReady, TwinFreeFiles, Moves, ListHits, Descriptors;
    if uri in s && s[uri].obj.List? {
      var files := s[uri].obj.files;
      FilesSucceedIff(env, s, files);
      ApplyUnapply(env.m, uri);
      if PlanLoop(FileStep(env, false), s, files).res.Success? {
        FilesRewritten(env, s, files);
      }
    }
  }

  ghost predicate FlatReady(env: Env, id: int, s: Store, uris: seq<Uri>) {
    forall u | u in uris && u in s :: ManifestReady(env, s, V1Descriptor(u, s[u].size, id))
  }

  lemma FlatSucceedsIff(env: Env, id: int, s: Store, uris: seq<Uri>)
    requires env.m.Legal() && forall u | u in uris :: !Twin(env.m, s, u)
    ensures PlanLoop(FlatStep(env, false, id), s, uris).res.Success? <==>
            PlanLoop(FlatStep(env, true, id), s, uris).res.Success? && FlatReady(env, id, s, uris)
  {
    hide PlanFile, ManifestReady, PlanLoop;
    FlatStable(env, true, id, s, uris);
    FlatStable(env, false, id, s, uris);
    var dry, live := FlatStep(env, true, id), FlatStep(env, false, id);
    LoopWrites(env.m, s, dry, uris);
    LoopWrites(env.m, s, live, uris);
    forall u | u in uris
      ensures live(s, u).res.Success? <==>
              dry(s, u).res.Success? && (u in s ==> ManifestReady(env, s, V1Descriptor(u, s[u].size, id)))
    {
      if u in s {
        ManifestSucceedsIff(env, s, V1Descriptor(u, s[u].size, id));
      }
    }
    hide Stable;
  }

  ghost predicate SnapshotReady(env: Env, s: Store, snap: SnapshotJSON) {
    && (snap.manifestList != "" ==> ListReady(env, s, snap.manifestList))
    && FlatReady(env, snap.id, s, snap.manifests)
  }

  lemma SnapshotSucceedsIff(env: Env, s: Store, snap: SnapshotJSON)
    requires env.m.Legal() && TwinFree(env.m, s, snap)
    ensures PlanSnapshot(env, false, s, snap).res.Success? <==>
            PlanSnapshot(env, true, s, snap).res.Success? && SnapshotReady(env, s, snap)
  {
    SnapshotUnthreaded(env, true, s, s, snap);
    SnapshotUnthreaded(env, false, s, s, snap);
    hide PlanSnapshot, PlanLoop, PlanList, ListReady, FlatReady;
    ListSucceedsIff(env, s, snap.manifestList);
    FlatSucceedsIff(env, snap.id, s, snap.manifests);
  }

  /** All that a live run needs beyond what a dry run checks. */
  ghost predicate TableReady(env: Env, currentOnly: bool, s: Store, loc: Uri) {
    LoadMeta(s, loc).Success? ==>
      && (forall snap | snap in Walked(Options(currentOnly, false), s, loc) :: SnapshotReady(env, s, snap))
      && (MetaMoves(env.m, s, loc) ==> env.enc(Meta(WrittenDoc(env.m, env.num, s[loc].obj.doc))).Some?)
  }

  lemma WalkSucceedsIff(env: Env, s: Store, snaps: seq<SnapshotJSON>)
    requires env.m.Legal() && forall snap | snap in snaps :: TwinFree(env.m, s, snap)
    ensures PlanLoop(SnapshotStep(env, false), s, snaps).res.Success? <==>
            && PlanLoop(SnapshotStep(env, true), s, snaps).res.Success?
            && forall snap | snap in snaps :: SnapshotReady(env, s, snap)
  {
    hide PlanSnapshot, TwinFree, SnapshotReady, PlanLoop;
    SnapshotsStable(env, true, s, snaps);
    SnapshotsStable(env, false, s, snaps);
    var dry, live := SnapshotStep(env, true), SnapshotStep(env, false);
    LoopWrites(env.m, s, dry, snaps);
    LoopWrites(env.m, s, live, snaps);
    forall snap | snap in snaps
      ensures live(s, snap).res.Success? <==> dry(s, snap).res.Success? && SnapshotReady(env, s, snap)
    {
      SnapshotSucceedsIff(env, s, snap);
    }
    hide Stable;
  }

  /** A dry run and a live run from the same store: the live run succeeds exactly when the dry run does and the table is
      ready. */
  lemma LiveSucceedsIff(env: Env, currentOnly: bool, s: Store, loc: Uri)
    requires env.m.Legal() && TwinFreeTable(env.m, Options(currentOnly, true), s, loc)
    ensures PlanTable(env, Options(currentOnly, false), s, loc).res.Success? <==>
            && PlanTable(env, Options(currentOnly, true), s, loc).res.Success?
            && TableReady(env, currentOnly, s, loc)
  {
    hide PlanLoop, PlanSnapshot, WalkHits, Selected, Parse, TwinFree, SnapshotReady, RelocateDoc, WrittenDoc, After;
    AgreesWithItself(env.m, s);
    if env.m.Matches(loc) && LoadMeta(s, loc).Success? {
      var opts := Options(currentOnly, false);
      assert Walked(opts, s, loc) == Walked(Options(currentOnly, true), s, loc);
      WalkSucceedsIff(env, s, Walked(opts, s, loc));
      TableUnthreaded(env, opts, s, s, loc);
    }
  }

  /** A live run that succeeds reports the dry run's hits, then those of the metadata write; a dry run that succeeds
      leaves only out-of-prefix refusals, zero-chunk columns, encode failures and header decoding for the live run. */
  lemma DryRunPredicts(env: Env, currentOnly: bool, s: Store, loc: Uri, metaHits: seq<PathHit>)
    requires env.m.Legal() && TwinFreeTable(env.m, Options(currentOnly, true), s, loc)
    ensures var dry, live := PlanTable(env, Options(currentOnly, true), s, loc), PlanTable(env, Options(currentOnly, false), s, loc);
            && dry.puts == []
            && (live.res.Success? ==> dry.res.Success?)
            && (live.res.Success? ==> Reporting(live, metaHits).res.value.hits == dry.res.value.hits + metaHits)
            && (dry.res.Success? && live.res.Failure? ==> LiveOnly(live.res.error))
  {
    TableTargetOnly(env, Options(currentOnly, true), s, loc);
    hide PlanLoop, PlanSnapshot, WalkHits, Selected, Parse, TwinFree, RelocateDoc, WrittenDoc, After;
    AgreesWithItself(env.m, s);
    if env.m.Matches(loc) && LoadMeta(s, loc).Success? {
      var opts := Options(currentOnly, false);
      assert Walked(opts, s, loc) == Walked(Options(currentOnly, true), s, loc);
      WalkPredicted(env, s, Walked(opts, s, loc));
      TableUnthreaded(env, opts, s, s, loc);
    }
  }
}
