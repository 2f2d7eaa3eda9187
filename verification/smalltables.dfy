/** Tools for concrete tables: documents with a few snapshots, and runs that write each object once. */
module SmallTables {
  import opened Wrappers
  import opened Prefix
  import opened Json
  import opened Metadata
  import opened Graph
  import opened Deletes
  import opened Plan
  import opened PlanFacts
  import opened Scan
  import opened Preserve

  function SnapshotObj(snap: SnapshotJSON): Json {
    JObj(map[
      "snapshot-id" := JNum(snap.id),
      "manifest-list" := JStr(snap.manifestList),
      "manifests" := JArr(seq(|snap.manifests|, i requires 0 <= i < |snap.manifests| => JStr(snap.manifests[i])))])
  }

  /** A metadata document with a location, a current snapshot and these snapshots. */
  function DocumentOf(location: Uri, current: int, snaps: seq<SnapshotJSON>): Doc {
    map[
      "location" := JStr(location),
      "current-snapshot-id" := JNum(current),
      "snapshots" := JArr(seq(|snaps|, i requires 0 <= i < |snaps| => SnapshotObj(snaps[i])))]
  }

  function Bare(location: Uri, current: int, snaps: seq<SnapshotJSON>): MetadataJSON {
    MetadataJSON(0, "", location, Some(current), snaps, [], [], [], map[])
  }

  lemma {:induction false} EachParses<T>(parse: Json -> Option<T>, xs: seq<Json>, vs: seq<T>)
    requires |xs| == |vs| && forall i | 0 <= i < |xs| :: parse(xs[i]) == Some(vs[i])
    ensures ParseEach(parse, xs) == Some(vs)
  {
    if xs != [] {
      EachParses(parse, xs[1..], vs[1..]);
      assert vs == [vs[0]] + vs[1..];
    }
  }

  lemma SnapshotParses(snap: SnapshotJSON)
    ensures ParseSnapshot(SnapshotObj(snap)) == Some(snap)
  {
    EachParses(AsString, SnapshotObj(snap).fields["manifests"].items, snap.manifests);
  }

  lemma SnapshotsParse(snaps: seq<SnapshotJSON>)
    ensures ParseArray(ParseSnapshot, JArr(seq(|snaps|, i requires 0 <= i < |snaps| => SnapshotObj(snaps[i])))) == Some(snaps)
  {
    hide ParseSnapshot, SnapshotObj;
    var items := seq(|snaps|, i requires 0 <= i < |snaps| => SnapshotObj(snaps[i]));
    forall i | 0 <= i < |items| ensures ParseSnapshot(items[i]) == Some(snaps[i]) {
      SnapshotParses(snaps[i]);
    }
    EachParses(ParseSnapshot, items, snaps);
  }

  lemma AbsentParses()
    ensures ParseProperties(JNull) == Some(map[])
    ensures ParseArray(ParseLogEntry, JNull) == Some([]) && ParseArray(ParseStatsFile, JNull) == Some([])
  {
    hide ParseLogEntry, ParseStatsFile;
    var properties := ParseProperties(JNull);
    assert properties.Some? && properties.value.Keys == {};
  }

  lemma DocumentParses(location: Uri, current: int, snaps: seq<SnapshotJSON>)
    ensures Parse(DocumentOf(location, current, snaps)) == Some(Bare(location, current, snaps))
  {
    hide ParseSnapshot, ParseLogEntry, ParseStatsFile, SnapshotObj, ParseArray, ParseProperties;
    SnapshotsParse(snaps);
    AbsentParses();
  }

  /** A document whose location is in scope changes. */
  lemma DocumentMoves(m: PrefixMapping, location: Uri, current: int, snaps: seq<SnapshotJSON>)
    requires m.Legal() && m.Matches(location)
    ensures RelocateDoc(m, DocumentOf(location, current, snaps)) != DocumentOf(location, current, snaps)
  {
    ApplyUnapply(m, location);
    hide SnapshotObj;
    var doc := DocumentOf(location, current, snaps);
    assert doc["location"] == JStr(location) && Down(Root, Key("location")) == PathLeaf;
    assert RelocateDoc(m, doc)["location"] == Relocate(m, PathLeaf, JStr(location));
  }

  /** A store after the bulk copy: these objects, and each one of the source prefix again at its mapped URI. */
  function WithCopies(m: PrefixMapping, s: Store): Store {
    map u | u in s.Keys + (set v | v in s && m.Matches(v) :: m.Apply(v)) && (u in s || Twin(m, s, u)) ::
      if u in s then s[u] else s[m.Unapply(u)]
  }

  lemma CopiesMade(m: PrefixMapping, s: Store)
    requires m.Legal() && forall u | u in s :: !m.UnderTarget(u)
    ensures Copied(m, WithCopies(m, s))
    ensures forall u | u in s :: u in WithCopies(m, s) && WithCopies(m, s)[u] == s[u]
    ensures forall u | u in WithCopies(m, s) && u !in s :: m.UnderTarget(u)
  {
    forall u | u in s && m.Matches(u) ensures m.UnderTarget(m.Apply(u)) && m.Unapply(m.Apply(u)) == u {
      ApplyUnapply(m, u);
    }
    forall u | u in WithCopies(m, s) && m.Matches(u) ensures u in s {
      NotBoth(m, u);
    }
  }

  /** A manifest with one entry, which the run changes: the body's writes, then the manifest. */
  lemma OneEntry(env: Env, s: Store, mf: ManifestFile, specId: int, version: int, e: Entry)
    requires mf.path in s && s[mf.path].obj == Manifest(version, mf.content, specId, true, [e])
    requires var r := PlanEntry(env, mf.path, s, e); r.res.Success? && r.res.value.changed && env.m.Matches(mf.path)
    requires env.enc(Manifest(mf.version, mf.content, specId, true, PlanEntry(env, mf.path, s, e).res.value.entries)).Some?
    ensures var r, out := PlanEntry(env, mf.path, s, e), PlanManifest(env, s, mf);
            var obj := Manifest(mf.version, mf.content, specId, true, r.res.value.entries);
            var size := env.enc(obj).value;
            && out.res.Success?
            && out.puts == r.puts + [Put(env.m.Apply(mf.path), Blob(obj, size))]
            && out.res.value.file.path == env.m.Apply(mf.path) && out.res.value.file.length == size
  {
    hide PlanEntry, Summarize;
    var step := EntryStep(env, mf.path);
    var r := step(s, e);
    assert r == PlanEntry(env, mf.path, s, e);
    assert [e][1..] == [];
    assert PlanLoop(step, After(s, r.puts), []) == Run(Success(Nothing), []);
    assert r.res.value.entries + [] == r.res.value.entries && r.puts + [] == r.puts;
    assert PlanLoop(step, s, [e]) == Lead(r.res.value, r.puts, Run(Success(Nothing), []));
  }

  /** A data entry in scope changes and causes no write. */
  lemma DataEntry(env: Env, manifest: Uri, s: Store, e: Entry)
    requires env.m.Legal() && e.file.content.Data? && e.file.ref.None? && env.m.Matches(e.file.path)
    ensures PlanEntry(env, manifest, s, e).res.Success? && PlanEntry(env, manifest, s, e).puts == []
    ensures PlanEntry(env, manifest, s, e).res.value.entries == [e.(file := MovedFile(env.m, e.file))]
    ensures PlanEntry(env, manifest, s, e).res.value.changed
  {
    ApplyUnapply(env.m, e.file.path);
  }

  /** A list of one manifest that moves: the manifest's writes, then the list. */
  lemma OneManifest(env: Env, s: Store, uri: Uri, version: int, header: ListHeader, f: ManifestFile)
    requires env.m.Matches(uri) && env.m.Legal() && uri in s && s[uri].obj == List(version, header, [f])
    requires PlanManifest(env, s, f).res.Success?
    requires env.enc(List(version, header, [PlanManifest(env, s, f).res.value.file])).Some?
    ensures var out, r := PlanList(env, false, s, uri), PlanManifest(env, s, f);
            var obj := List(version, header, [r.res.value.file]);
            && out.res.Success?
            && out.puts == r.puts + [Put(env.m.Apply(uri), Blob(obj, env.enc(obj).value))]
  {
    hide PlanManifest, ListHits;
    var step := FileStep(env, false);
    var r := step(s, f);
    assert r == PlanFile(env, false, s, f);
    assert [f][1..] == [];
    assert PlanLoop(step, After(s, r.puts), []) == Run(Success(Nothing), []);
    assert r.res.value.files + [] == r.res.value.files && r.puts + [] == r.puts;
    assert PlanLoop(step, s, [f]) == Lead(r.res.value, r.puts, Run(Success(Nothing), []));
    ApplyUnapply(env.m, uri);
  }

  /** A snapshot without a flat list writes what its manifest list does. */
  lemma ListOnly(env: Env, s: Store, snap: SnapshotJSON)
    requires snap.manifestList != "" && snap.manifests == [] && PlanList(env, false, s, snap.manifestList).res.Success?
    ensures PlanSnapshot(env, false, s, snap).res.Success?
    ensures PlanSnapshot(env, false, s, snap).puts == PlanList(env, false, s, snap.manifestList).puts
  {
    hide PlanList;
    var a := PlanList(env, false, s, snap.manifestList);
    assert PlanLoop(FlatStep(env, false, snap.id), After(s, a.puts), []) == Run(Success(Nothing), []);
    assert a.puts + [] == a.puts;
  }

  /** The entries of a snapshot with one list of one manifest of one entry. */
  lemma OneListed(s: Store, snap: SnapshotJSON, f: ManifestFile, e: Entry)
    requires snap.manifests == [] && snap.manifestList != "" && snap.manifestList in s
    requires s[snap.manifestList].obj.List? && s[snap.manifestList].obj.files == [f]
    requires f.path in s && s[f.path].size == f.length && s[f.path].obj.Manifest? && s[f.path].obj.content == f.content
    requires s[f.path].obj.entries == [e] && !e.status.Deleted?
    ensures SnapshotEntries(s, snap) == Some([LiveEntry(e.file, e.seqNum.GetOr(f.seqNum))])
  {
    var l := LiveEntry(e.file, e.seqNum.GetOr(f.seqNum));
    assert [e][1..] == [] && [f][1..] == [];
    assert Live([e], f.seqNum) == [l];
    assert ManifestEntries(s, f) == Some([l]);
    assert ListEntries(s, []) == Some([]) && FlatEntries(s, []) == Some([]);
    assert [l] + [] == [l];
    assert ListEntries(s, [f]) == Some([l]);
  }

  /** No URI that decides whether a delete applies lies under the target prefix. */
  ghost predicate OffTarget(m: PrefixMapping, s: Store, f: FileInfo)
    requires Present(s, f)
  {
    && !m.UnderTarget(f.path)
    && (f.ref.Some? ==> !m.UnderTarget(f.ref.value))
    && (f.content.PosDeletes? ==>
          forall i | 0 <= i < |FilePaths(s[f.path].obj.cols).value| && FilePaths(s[f.path].obj.cols).value[i].Some? ::
            !m.UnderTarget(FilePaths(s[f.path].obj.cols).value[i].value))
  }

  lemma OffTargetReads(m: PrefixMapping, s: Store, es: seq<LiveEntry>)
    requires m.Legal() && forall e | e in es :: Present(s, e.file) && OffTarget(m, s, e.file)
    ensures ReadableEntries(m, s, es)
  {
    hide FilePaths, Positions;
    forall e, d | e in es && d in es ensures KeptApart(m, s, e.file, d.file.path) {
      OffTargetApart(m, s, e.file, d.file.path);
    }
    hide Present, KeptApart;
  }

  lemma OffTargetApart(m: PrefixMapping, s: Store, f: FileInfo, path: Uri)
    requires m.Legal() && Present(s, f) && OffTarget(m, s, f) && !m.UnderTarget(path)
    ensures KeptApart(m, s, f, path)
  {
    hide FilePaths, Positions;
    forall u: Uri | !m.UnderTarget(u) ensures !Merged(m, u, path) {
      ApplyInjectiveOffTarget(m, u, path);
    }
  }

  /** The encoder refuses nothing. */
  ghost predicate EncodesAll(env: Env) {
    forall o :: env.enc(o).Some?
  }

  lemma OneEntrySucceeds(env: Env, s: Store, mf: ManifestFile, specId: int, version: int, e: Entry)
    requires EncodesAll(env) && mf.path in s && s[mf.path].obj == Manifest(version, mf.content, specId, true, [e])
    requires PlanEntry(env, mf.path, s, e).res.Success? && env.m.Matches(mf.path)
    ensures PlanManifest(env, s, mf).res.Success?
  {
    hide PlanEntry, Summarize;
    var step := EntryStep(env, mf.path);
    var r := step(s, e);
    assert r == PlanEntry(env, mf.path, s, e);
    assert [e][1..] == [];
    assert PlanLoop(step, After(s, r.puts), []) == Run(Success(Nothing), []);
    assert PlanLoop(step, s, [e]).res.Success?;
  }

  lemma OneEntryUnchanged(env: Env, s: Store, mf: ManifestFile, specId: int, version: int, e: Entry)
    requires mf.path in s && s[mf.path].obj == Manifest(version, mf.content, specId, true, [e])
    requires PlanEntry(env, mf.path, s, e).res.Success? && !PlanEntry(env, mf.path, s, e).res.value.changed
    ensures PlanManifest(env, s, mf).res.Success?
  {
    hide PlanEntry, Summarize;
    var step := EntryStep(env, mf.path);
    var r := step(s, e);
    assert r == PlanEntry(env, mf.path, s, e);
    assert [e][1..] == [];
    assert PlanLoop(step, After(s, r.puts), []) == Run(Success(Nothing), []);
    assert PlanLoop(step, s, [e]).res.Success? && !PlanLoop(step, s, [e]).res.value.changed;
  }

  /** A position-delete entry outside the prefix, with nothing in scope, is passed over. */
  lemma OutsideDelete(env: Env, manifest: Uri, s: Store, e: Entry)
    requires e.file.content.PosDeletes? && e.file.ref.None? && !env.m.Matches(e.file.path) && !IsPuffin(e.file.path)
    ensures PlanEntry(env, manifest, s, e).res.Success? && !PlanEntry(env, manifest, s, e).res.value.changed
  {
    hide IsPuffin, ConvertBody;
  }

  lemma ListSucceeds(env: Env, s: Store, uri: Uri)
    requires env.m.Legal() && EncodesAll(env) && env.m.Matches(uri) && uri in s && s[uri].obj.List?
    requires TwinFreeFiles(env.m, s, s[uri].obj.files)
    requires forall f | f in s[uri].obj.files :: PlanManifest(env, s, f).res.Success?
    ensures PlanList(env, false, s, uri).res.Success?
  {
    var files, step := s[uri].obj.files, FileStep(env, false);
    FilesStable(env, false, s, files);
    LoopWrites(env.m, s, step, files);
    hide PlanManifest;
    assert forall f | f in files :: step(s, f) == PlanFile(env, false, s, f);
    hide PlanLoop, Stable, ListHits;
  }

  lemma FlatSucceeds(env: Env, s: Store, id: int, uris: seq<Uri>)
    requires env.m.Legal() && forall u | u in uris :: !Twin(env.m, s, u) && u in s
    requires forall u | u in uris :: PlanManifest(env, s, V1Descriptor(u, s[u].size, id)).res.Success?
    ensures PlanLoop(FlatStep(env, false, id), s, uris).res.Success?
  {
    var step := FlatStep(env, false, id);
    FlatStable(env, false, id, s, uris);
    LoopWrites(env.m, s, step, uris);
    hide PlanManifest, PlanLoop, Stable;
    assert forall u | u in uris :: step(s, u) == PlanFlat(env, false, id, s, u);
  }

  lemma WalkSucceeds(env: Env, s: Store, snaps: seq<SnapshotJSON>)
    requires env.m.Legal() && forall snap | snap in snaps :: TwinFree(env.m, s, snap)
    requires forall snap | snap in snaps :: PlanSnapshot(env, false, s, snap).res.Success?
    ensures PlanLoop(SnapshotStep(env, false), s, snaps).res.Success?
  {
    hide PlanSnapshot, TwinFree;
    var step := SnapshotStep(env, false);
    SnapshotsStable(env, false, s, snaps);
    LoopWrites(env.m, s, step, snaps);
    assert forall x | x in snaps :: step(s, x) == PlanSnapshot(env, false, s, x);
    hide PlanLoop, Stable;
  }

  /** A live run whose snapshots can all be rewritten succeeds; its writes are those of the walk, then the document. */
  lemma TableSucceeds(env: Env, opts: Options, s: Store, loc: Uri)
    requires env.m.Legal() && EncodesAll(env) && !opts.dry && env.m.Matches(loc) && LoadMeta(s, loc).Success?
    requires TwinFreeTable(env.m, opts, s, loc)
    requires forall snap | snap in Walked(opts, s, loc) :: PlanSnapshot(env, false, s, snap).res.Success?
    ensures PlanTable(env, opts, s, loc).res.Success?
    ensures PlanTable(env, opts, s, loc).puts ==
            PlanLoop(SnapshotStep(env, false), s, Walked(opts, s, loc)).puts + PlanMeta(env, s, loc).puts
  {
    hide PlanLoop, PlanSnapshot, Parse, RelocateDoc, WrittenDoc, WalkHits, After, TwinFree, Selected;
    WalkSucceeds(env, s, Walked(opts, s, loc));
    AgreesWithItself(env.m, s);
    TableUnthreaded(env, opts, s, s, loc);
  }
}
