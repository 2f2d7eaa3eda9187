/** A small table that meets every hypothesis of the main theorems: one snapshot with a manifest list, which names a data
    manifest and a delete manifest, and a flat list of one V1 manifest; all of it bulk-copied. */
module Example {
  import opened Wrappers
  import opened Prefix
  import opened Lex
  import opened Json
  import opened Metadata
  import opened Graph
  import opened Deletes
  import opened Plan
  import opened PlanFacts
  import opened Closure
  import opened Scan
  import opened Preserve
  import opened Pruning
  import opened Swap
  import opened Migrate
  import opened SmallTables

  const Mapping: PrefixMapping := PrefixMapping("s/", "t/")
  const Snapshot: SnapshotJSON := SnapshotJSON(1, "s/l", ["s/v"])

  const DataFile: FileInfo := FileInfo(Content.Data, "s/d", None, 3, None, None, None, None, 0, 2)
  const OldFile: FileInfo := FileInfo(Content.Data, "s/e", None, 2, None, None, None, None, 0, 1)

  function PathBound(b: string): Option<Bounds> {
    Some([(ReservedFilePathId, b)])
  }

  /** The delete file, with any upper bound on the paths it names. */
  function DeleteFile(hi: string): FileInfo {
    FileInfo(PosDeletes, "s/p", None, 4, PathBound("s/d"), PathBound(hi), Some([4]), None, 0, 1)
  }

  const DataEntryOf: Entry := Entry(Added, Some(1), None, DataFile)
  const OldEntryOf: Entry := Entry(Existing, Some(1), None, OldFile)

  function DeleteEntryOf(hi: string): Entry {
    Entry(Added, Some(1), Some(2), DeleteFile(hi))
  }

  const DataManifestOf: ManifestFile := ManifestFile(2, "s/a", 5, 0, 1, 1, 1, DataManifest, [(Added, 2, 0)])
  const DeleteManifestOf: ManifestFile := ManifestFile(2, "s/q", 6, 0, 1, 2, 2, DeleteManifest, [(Added, 1, 0)])

  const Cols: seq<NamedCol> := [NamedCol("file_path", StrCol([[Some("s/d")]])), NamedCol("pos", NumCol([[0]]))]

  const MetaBlob: Blob := Blob(Meta(DocumentOf("s/", 1, [Snapshot])), 10)
  const ListBlob: Blob := Blob(List(2, ListHeader(1, None, Some(2), 0), [DataManifestOf, DeleteManifestOf]), 11)
  const DataManifestBlob: Blob := Blob(Manifest(2, DataManifest, 0, true, [DataEntryOf]), 5)
  const OldManifestBlob: Blob := Blob(Manifest(1, DataManifest, 0, true, [OldEntryOf]), 7)
  const DataBlob: Blob := Blob(DataBody([70, 80]), 3)
  const OldBlob: Blob := Blob(DataBody([90]), 2)
  const DeleteBlob: Blob := Blob(DelBody(Cols), 4)

  function DeleteManifestBlob(hi: string): Blob {
    Blob(Manifest(2, DeleteManifest, 0, true, [DeleteEntryOf(hi)]), 6)
  }

  function Sources(hi: string): Store {
    map[
      "s/m" := MetaBlob, "s/l" := ListBlob, "s/a" := DataManifestBlob, "s/q" := DeleteManifestBlob(hi), "s/v" := OldManifestBlob,
      "s/d" := DataBlob, "s/e" := OldBlob, "s/p" := DeleteBlob]
  }

  function Objects(hi: string): Store {
    WithCopies(Mapping, Sources(hi))
  }

  const Plain: Env := Env(Mapping, o => Some(9), n => n)

  function Table(hi: string): Setup {
    Setup(Plain, u => if u == "s/v" then 1 else 2, Options(false, false), Objects(hi),
          Identifier(["n"], "t"), "s/m")
  }

  function LiveOnes(hi: string): seq<LiveEntry> {
    [LiveEntry(DataFile, 1), LiveEntry(DeleteFile(hi), 2), LiveEntry(OldFile, 0)]
  }

  lemma MappingLegal()
    ensures Mapping.Legal()
    ensures forall u | u in {"s/", "s/m", "s/l", "s/a", "s/q", "s/v", "s/d", "s/e", "s/p"} ::
              Mapping.Matches(u) && !Mapping.UnderTarget(u)
  {
    assert "s/"[0] == 's' && "t/"[0] == 't';
  }

  lemma Stored(hi: string)
    ensures {"s/m", "s/l", "s/a", "s/q", "s/v", "s/d", "s/e", "s/p"} <= Objects(hi).Keys && Copied(Mapping, Objects(hi))
    ensures Objects(hi)["s/m"] == MetaBlob && Objects(hi)["s/l"] == ListBlob
    ensures Objects(hi)["s/a"] == DataManifestBlob && Objects(hi)["s/q"] == DeleteManifestBlob(hi)
    ensures Objects(hi)["s/v"] == OldManifestBlob && Objects(hi)["s/d"] == DataBlob
    ensures Objects(hi)["s/e"] == OldBlob && Objects(hi)["s/p"] == DeleteBlob
  {
    MappingLegal();
    SourcesStored(hi);
    hide Sources, WithCopies, Copied;
    CopiesMade(Mapping, Sources(hi));
  }

  lemma SourcesStored(hi: string)
    ensures Sources(hi).Keys == {"s/m", "s/l", "s/a", "s/q", "s/v", "s/d", "s/e", "s/p"}
    ensures Sources(hi)["s/m"] == MetaBlob && Sources(hi)["s/l"] == ListBlob
    ensures Sources(hi)["s/a"] == DataManifestBlob && Sources(hi)["s/q"] == DeleteManifestBlob(hi)
    ensures Sources(hi)["s/v"] == OldManifestBlob && Sources(hi)["s/d"] == DataBlob
    ensures Sources(hi)["s/e"] == OldBlob && Sources(hi)["s/p"] == DeleteBlob
  {
  }

  lemma MetadataLoads(hi: string)
    ensures LoadMeta(Objects(hi), "s/m") == Success(Bare("s/", 1, [Snapshot]))
    ensures Walked(Table(hi).opts, Objects(hi), "s/m") == [Snapshot]
  {
    DocumentParses("s/", 1, [Snapshot]);
    Stored(hi);
    hide Parse, Objects;
  }

  lemma EntriesFound(hi: string)
    ensures SnapshotEntries(Objects(hi), Snapshot) == Some(LiveOnes(hi))
  {
    Stored(hi);
    hide Objects;
    OneLive(Objects(hi), DataManifestOf, DataEntryOf);
    OneLive(Objects(hi), DeleteManifestOf, DeleteEntryOf(hi));
    OneLive(Objects(hi), V1Descriptor("s/v", 7, 0), OldEntryOf);
    hide ManifestEntries;
    var a, b, c := LiveEntry(DataFile, 1), LiveEntry(DeleteFile(hi), 2), LiveEntry(OldFile, 0);
    assert [a] + [b] == [a, b] && [a, b] + [c] == LiveOnes(hi);
    var files := [DataManifestOf, DeleteManifestOf];
    assert files[1..] == [DeleteManifestOf] && [DeleteManifestOf][1..] == [] && ["s/v"][1..] == [];
    assert ListEntries(Objects(hi), []) == Some([]) && FlatEntries(Objects(hi), []) == Some([]);
    assert ListEntries(Objects(hi), [DeleteManifestOf]) == Some([LiveEntry(DeleteFile(hi), 2)]);
    assert ListEntries(Objects(hi), files) == Some([LiveEntry(DataFile, 1), LiveEntry(DeleteFile(hi), 2)]);
    assert FlatEntries(Objects(hi), ["s/v"]) == Some([LiveEntry(OldFile, 0)]);
  }

  lemma OneLive(s: Store, f: ManifestFile, e: Entry)
    requires f.path in s && s[f.path].size == f.length && !e.status.Deleted?
    requires s[f.path].obj.Manifest? && s[f.path].obj.content == f.content && s[f.path].obj.entries == [e]
    ensures ManifestEntries(s, f) == Some([LiveEntry(e.file, e.seqNum.GetOr(f.seqNum))])
  {
    assert [e][1..] == [];
    assert Live([e], f.seqNum) == [LiveEntry(e.file, e.seqNum.GetOr(f.seqNum))];
  }

  lemma BodyReads()
    ensures FilePaths(Cols) == Some([Some("s/d")]) && Positions(Cols) == Some([0])
    ensures FieldIndices(Cols, "file_path") == [0]
  {
    assert Cols[..1] == [Cols[0]] && Cols[..1][..0] == [];
    assert FieldIndices([], "file_path") == [] && FieldIndices([], "pos") == [];
    assert FieldIndices(Cols[..1], "file_path") == [0] && FieldIndices(Cols[..1], "pos") == [];
    assert FieldIndices(Cols, "file_path") == [0] && FieldIndices(Cols, "pos") == [1];
    OneChunk([Some("s/d")]);
    OneChunk([0]);
  }

  lemma FilesClean(hi: string)
    ensures forall e | e in LiveOnes(hi) ::
              Present(Objects(hi), e.file) && OffTarget(Mapping, Objects(hi), e.file) && Settled(Mapping, Objects(hi), e.file)
  {
    BodyReads();
    MappingLegal();
    Stored(hi);
    hide FilePaths, Positions, FieldIndices, Objects;
  }

  lemma BoundRead(b: string)
    ensures FilePathBound(PathBound(b)) == Some(b)
  {
  }

  lemma AllPresent(hi: string)
    ensures Complete(Objects(hi), LiveOnes(hi))
  {
    hide Objects, Present, OffTarget, Settled;
    FilesClean(hi);
  }

  lemma BoundsCoverCols(hi: string)
    requires Leq("s/d", hi)
    ensures FilePaths(Cols).Some? && BoundsCover(Some("s/d"), Some(hi), FilePaths(Cols).value)
  {
    hide Leq, FilePaths, Positions, FieldIndices;
    BodyReads();
    LeqReflexive("s/d");
  }

  /** The bounds of its delete entry are sound if the upper one is at or above the path deleted from, and full if it
      carries the source prefix. */
  lemma BoundsAreSound(hi: string)
    requires Leq("s/d", hi)
    ensures Complete(Objects(hi), LiveOnes(hi)) && SoundBounds(Objects(hi), LiveOnes(hi))
    ensures Mapping.Matches(hi) ==> FullBounds(Mapping, LiveOnes(hi))
  {
    hide FilePaths, Leq, Objects, FilePathBound, BoundsCover, Present;
    AllPresent(hi);
    Stored(hi);
    BoundRead("s/d");
    BoundRead(hi);
    BoundsCoverCols(hi);
    MappingLegal();
  }

  lemma SnapshotTwinFree(hi: string)
    ensures TwinFree(Mapping, Objects(hi), Snapshot) && VersionsAgree(Table(hi).ver, Objects(hi), Snapshot)
  {
    hide Objects, Twin, Mapping;
    Stored(hi);
    NoTwins(hi);
  }

  lemma NoTwins(hi: string)
    ensures forall u | u in {"s/l", "s/a", "s/q", "s/v"} :: !Twin(Mapping, Objects(hi), u)
  {
    hide Objects;
    MappingLegal();
  }

  lemma SnapshotIsClean(hi: string)
    ensures TwinFree(Mapping, Objects(hi), Snapshot)
    ensures CleanSnapshot(Mapping, Objects(hi), Snapshot) && VersionsAgree(Table(hi).ver, Objects(hi), Snapshot)
  {
    hide SnapshotEntries, Present, OffTarget, Settled, Objects, TwinFree, VersionsAgree, ReadableEntries;
    SnapshotTwinFree(hi);
    EntriesFound(hi);
    FilesClean(hi);
    MappingLegal();
    OffTargetReads(Mapping, Objects(hi), LiveOnes(hi));
    assert CleanEntries(Mapping, Objects(hi), LiveOnes(hi));
  }

  lemma OneSnapshotSound(x: Setup, meta: MetadataJSON, snap: SnapshotJSON)
    requires x.env.m.Legal() && !x.opts.dry && x.env.num(0) == 0 && x.env.m.Matches(x.loc)
    requires LoadMeta(x.s0, x.loc) == Success(meta) && CurrentKept(x.env.num, meta)
    requires Walked(x.opts, x.s0, x.loc) == [snap]
    requires TwinFree(x.env.m, x.s0, snap) && CleanSnapshot(x.env.m, x.s0, snap) && VersionsAgree(x.ver, x.s0, snap)
    requires Copied(x.env.m, x.s0)
    ensures Sound(x)
  {
    hide LoadMeta, CurrentKept, Walked, TwinFree, CleanSnapshot, VersionsAgree, Copied;
  }

  /** The example table meets the hypotheses of WholeRunSafe. */
  lemma TableIsSound(hi: string)
    ensures Sound(Table(hi))
  {
    MetadataLoads(hi);
    SnapshotIsClean(hi);
    Stored(hi);
    MappingLegal();
    hide Objects;
    assert CurrentKept(Plain.num, Bare("s/", 1, [Snapshot])) by {
      assert FirstWithId([Snapshot], 1) == Some(0);
    }
    hide Sound, Parse, Copied, CleanSnapshot, TwinFree, VersionsAgree, LoadMeta, Walked, CurrentKept;
    OneSnapshotSound(Table(hi), Bare("s/", 1, [Snapshot]), Snapshot);
  }

  lemma BodyConverts()
    ensures ConvertBody(Mapping, "s/p", Cols).Success?
  {
    BodyReads();
    MappingLegal();
    DryCheckVsRewrite(Mapping, "s/p", Cols);
    hide ConvertBody, FilePaths, Positions, FieldIndices;
    assert [Some("s/d")][1..] == [] && [[Some("s/d")]][1..] == [];
    assert FirstForeign(Mapping, [Some("s/d")]) == None;
    assert WalkChunks(Mapping, "s/p", []) == None;
    assert WalkChunks(Mapping, "s/p", [[Some("s/d")]]) == None;
  }

  lemma DeleteEntrySucceeds(hi: string)
    ensures PlanEntry(Plain, "s/q", Objects(hi), DeleteEntryOf(hi)).res.Success?
  {
    hide Objects, ConvertBody, IsPuffin, MapBounds, EntryHits;
    BodyConverts();
    Stored(hi);
    NotPuffin();
    MappingLegal();
  }

  lemma NotPuffin()
    ensures !IsPuffin("s/p")
  {
  }

  lemma EntriesSucceed(hi: string)
    ensures PlanEntry(Plain, "s/a", Objects(hi), DataEntryOf).res.Success?
    ensures PlanEntry(Plain, "s/v", Objects(hi), OldEntryOf).res.Success?
    ensures PlanEntry(Plain, "s/q", Objects(hi), DeleteEntryOf(hi)).res.Success?
  {
    hide Objects, PlanEntry;
    MappingLegal();
    DataEntry(Plain, "s/a", Objects(hi), DataEntryOf);
    DataEntry(Plain, "s/v", Objects(hi), OldEntryOf);
    DeleteEntrySucceeds(hi);
  }

  lemma FilesSucceed(hi: string)
    ensures PlanManifest(Plain, Objects(hi), DataManifestOf).res.Success?
    ensures PlanManifest(Plain, Objects(hi), DeleteManifestOf).res.Success?
    ensures PlanManifest(Plain, Objects(hi), V1Descriptor("s/v", 7, 1)).res.Success?
  {
    EntriesSucceed(hi);
    MappingLegal();
    assert EncodesAll(Plain);
    Stored(hi);
    hide PlanEntry, PlanManifest, EncodesAll, Objects;
    OneEntrySucceeds(Plain, Objects(hi), DataManifestOf, 0, 2, DataEntryOf);
    OneEntrySucceeds(Plain, Objects(hi), DeleteManifestOf, 0, 2, DeleteEntryOf(hi));
    OneEntrySucceeds(Plain, Objects(hi), V1Descriptor("s/v", 7, 1), 0, 1, OldEntryOf);
  }

  lemma PlainEncodes()
    ensures EncodesAll(Plain)
  {
  }

  lemma ListPartSucceeds(hi: string)
    ensures PlanList(Plain, false, Objects(hi), "s/l").res.Success?
  {
    hide PlanManifest, PlanLoop, PlanList, PlanEntry, EncodesAll, Objects, CleanSnapshot, VersionsAgree, Twin, TwinFreeFiles,
      Copied;
    MappingLegal();
    FilesSucceed(hi);
    Stored(hi);
    SnapshotIsClean(hi);
    PlainEncodes();
    ListSucceeds(Plain, Objects(hi), "s/l");
  }

  lemma FlatPartSucceeds(hi: string)
    ensures PlanLoop(FlatStep(Plain, false, 1), Objects(hi), ["s/v"]).res.Success?
  {
    MappingLegal();
    FilesSucceed(hi);
    Stored(hi);
    hide PlanManifest, PlanLoop, Objects;
    FlatSucceeds(Plain, Objects(hi), 1, ["s/v"]);
  }

  lemma SnapshotSucceeds(hi: string)
    ensures PlanSnapshot(Plain, false, Objects(hi), Snapshot).res.Success?
  {
    MappingLegal();
    ListPartSucceeds(hi);
    FlatPartSucceeds(hi);
    SnapshotIsClean(hi);
    hide PlanSnapshot, PlanLoop, PlanList, CleanSnapshot, TwinFree, VersionsAgree, Objects;
    SnapshotUnthreaded(Plain, false, Objects(hi), Objects(hi), Snapshot);
  }

  lemma OneSnapshotSucceeds(x: Setup, snap: SnapshotJSON)
    requires x.env.m.Legal() && EncodesAll(x.env) && !x.opts.dry && x.env.m.Matches(x.loc)
    requires LoadMeta(x.s0, x.loc).Success? && Walked(x.opts, x.s0, x.loc) == [snap]
    requires TwinFree(x.env.m, x.s0, snap) && PlanSnapshot(x.env, false, x.s0, snap).res.Success?
    ensures Planned(x).res.Success?
  {
    hide PlanTable, PlanSnapshot, LoadMeta, Walked, TwinFree, EncodesAll;
    TableSucceeds(x.env, x.opts, x.s0, x.loc);
  }

  lemma TableSucceedsHere(hi: string)
    ensures Planned(Table(hi)).res.Success?
  {
    MetadataLoads(hi);
    MappingLegal();
    SnapshotSucceeds(hi);
    SnapshotIsClean(hi);
    assert EncodesAll(Plain);
    hide Planned, PlanSnapshot, LoadMeta, Walked, TwinFree, CleanSnapshot, VersionsAgree, EncodesAll;
    OneSnapshotSucceeds(Table(hi), Snapshot);
  }

  /** Its rewrite succeeds and moves the table, so the theorems speak about runs that do all their work. */
  lemma TableMoves(hi: string)
    ensures Planned(Table(hi)).res.Success? && MetaMoves(Mapping, Objects(hi), "s/m")
  {
    TableSucceedsHere(hi);
    MappingLegal();
    DocumentMoves(Mapping, "s/", 1, [Snapshot]);
    Stored(hi);
    hide Planned, RelocateDoc, DocumentOf, Objects;
  }
}
