/** Where a run writes and what it reads. */
module PlanFacts {
  import opened Wrappers
  import opened Prefix
  import opened Json
  import opened Metadata
  import opened Graph
  import opened Plan

  /** A write of the walk over manifests and lists: under the target, and not a metadata document. */
  ghost predicate WalkWrites(m: PrefixMapping, puts: seq<Put>) {
    forall p | p in puts :: m.UnderTarget(p.uri) && !p.blob.obj.Meta?
  }

  // Source immutability: the writes of every plan, successful or not, go under the target prefix.

  lemma {:induction false} LoopTargetOnly<X>(m: PrefixMapping, step: (Store, X) -> Run<Gathered>, s: Store, xs: seq<X>)
    requires forall t: Store, x | x in xs :: WalkWrites(m, step(t, x).puts)
    ensures WalkWrites(m, PlanLoop(step, s, xs).puts)
    decreases |xs|
  {
    if xs != [] {
      var r := step(s, xs[0]);
      assert xs[0] in xs;
      assert WalkWrites(m, r.puts);
      if r.res.Success? {
        assert forall x | x in xs[1..] :: x in xs;
        LoopTargetOnly(m, step, After(s, r.puts), xs[1..]);
      }
    }
  }

  lemma ApplyLands(m: PrefixMapping, p: Uri)
    requires m.Matches(p)
    ensures m.UnderTarget(m.Apply(p))
  {
  }

  lemma EntryTargetOnly(env: Env, manifest: Uri, s: Store, e: Entry)
    ensures WalkWrites(env.m, PlanEntry(env, manifest, s, e).puts)
  {
  }

  lemma ManifestTargetOnly(env: Env, s: Store, mf: ManifestFile)
    ensures WalkWrites(env.m, PlanManifest(env, s, mf).puts)
  {
    if mf.path in s && s[mf.path].obj.Manifest? {
      var step, entries := EntryStep(env, mf.path), s[mf.path].obj.entries;
      forall t: Store, e | e in entries ensures WalkWrites(env.m, step(t, e).puts) {
        EntryTargetOnly(env, mf.path, t, e);
      }
      LoopTargetOnly(env.m, step, s, entries);
    }
  }

  /** A dry run never PUTs. */
  lemma WalkWritesNothing(env: Env, s: Store, mf: ManifestFile)
    ensures PlanWalkManifest(env, s, mf).puts == []
  {
    if mf.path in s && s[mf.path].obj.Manifest? {
      LoopWritesNothing(WalkStep(env, mf.path), s, s[mf.path].obj.entries);
    }
  }

  lemma {:induction false} LoopWritesNothing<X>(step: (Store, X) -> Run<Gathered>, s: Store, xs: seq<X>)
    requires forall t: Store, x | x in xs :: step(t, x).puts == []
    ensures PlanLoop(step, s, xs).puts == []
    decreases |xs|
  {
    if xs != [] {
      assert xs[0] in xs;
      assert step(s, xs[0]).puts == [];
      assert forall x | x in xs[1..] :: x in xs;
      LoopWritesNothing(step, s, xs[1..]);
    }
  }

  lemma FileTargetOnly(env: Env, dry: bool, s: Store, mf: ManifestFile)
    ensures WalkWrites(env.m, PlanFile(env, dry, s, mf).puts)
    ensures dry ==> PlanFile(env, dry, s, mf).puts == []
  {
    ManifestTargetOnly(env, s, mf);
    WalkWritesNothing(env, s, mf);
  }

  lemma ListTargetOnly(env: Env, dry: bool, s: Store, uri: Uri)
    ensures WalkWrites(env.m, PlanList(env, dry, s, uri).puts)
    ensures dry ==> PlanList(env, dry, s, uri).puts == []
  {
    if uri in s && s[uri].obj.List? {
      var step, files := FileStep(env, dry), s[uri].obj.files;
      forall t: Store, mf | mf in files
        ensures WalkWrites(env.m, step(t, mf).puts)
        ensures dry ==> step(t, mf).puts == []
      {
        FileTargetOnly(env, dry, t, mf);
      }
      LoopTargetOnly(env.m, step, s, files);
      if dry {
        LoopWritesNothing(step, s, files);
      }
    }
  }

  lemma FlatTargetOnly(env: Env, dry: bool, id: int, s: Store, uris: seq<Uri>)
    ensures WalkWrites(env.m, PlanLoop(FlatStep(env, dry, id), s, uris).puts)
    ensures dry ==> PlanLoop(FlatStep(env, dry, id), s, uris).puts == []
  {
    var step := FlatStep(env, dry, id);
    forall t: Store, uri | uri in uris
      ensures WalkWrites(env.m, step(t, uri).puts)
      ensures dry ==> step(t, uri).puts == []
    {
      if uri in t {
        FileTargetOnly(env, dry, t, V1Descriptor(uri, t[uri].size, id));
      }
    }
    LoopTargetOnly(env.m, step, s, uris);
    if dry {
      LoopWritesNothing(step, s, uris);
    }
  }

  lemma SnapshotTargetOnly(env: Env, dry: bool, s: Store, snap: SnapshotJSON)
    ensures WalkWrites(env.m, PlanSnapshot(env, dry, s, snap).puts)
    ensures dry ==> PlanSnapshot(env, dry, s, snap).puts == []
  {
    ListTargetOnly(env, dry, s, snap.manifestList);
    var a := if snap.manifestList == "" then Run(Success(Nothing), []) else PlanList(env, dry, s, snap.manifestList);
    FlatTargetOnly(env, dry, snap.id, After(s, a.puts), snap.manifests);
  }

  lemma SnapshotsTargetOnly(env: Env, dry: bool, s: Store, snaps: seq<SnapshotJSON>)
    ensures WalkWrites(env.m, PlanLoop(SnapshotStep(env, dry), s, snaps).puts)
    ensures dry ==> PlanLoop(SnapshotStep(env, dry), s, snaps).puts == []
  {
    var step := SnapshotStep(env, dry);
    forall t: Store, snap | snap in snaps
      ensures WalkWrites(env.m, step(t, snap).puts)
      ensures dry ==> step(t, snap).puts == []
    {
      SnapshotTargetOnly(env, dry, t, snap);
    }
    LoopTargetOnly(env.m, step, s, snaps);
    if dry {
      LoopWritesNothing(step, s, snaps);
    }
  }

  /** Every PUT of every run, successful or refused, goes under the target prefix; a dry run makes none. */
  lemma TableTargetOnly(env: Env, opts: Options, s: Store, loc: Uri)
    ensures TargetOnly(env.m, PlanTable(env, opts, s, loc).puts)
    ensures opts.dry ==> PlanTable(env, opts, s, loc).puts == []
  {
    hide PlanLoop, PlanSnapshot, Parse, Selected, WalkHits, RelocateDoc, WrittenDoc, After;
    if env.m.Matches(loc) && LoadMeta(s, loc).Success? {
      SnapshotsTargetOnly(env, opts.dry, s, Selected(LoadMeta(s, loc).value, opts.currentOnly));
    }
  }

  /** Whatever happens to a run, killed or failing storage included, no object outside the target prefix changes. */
  lemma SourceImmutable(env: Env, opts: Options, s: Store, loc: Uri, done: seq<Put>)
    requires Interrupted(done, PlanTable(env, opts, s, loc).puts)
    ensures AgreeOffTarget(env.m, s, After(s, done))
    ensures env.m.Legal() ==> forall u | env.m.Matches(u) :: (u in After(s, done) <==> u in s) && (u in s ==> After(s, done)[u] == s[u])
  {
    TableTargetOnly(env, opts, s, loc);
    InterruptedStaysOnTarget(env.m, done, PlanTable(env, opts, s, loc).puts);
    TargetWritesKeepRest(env.m, s, done);
    if env.m.Legal() {
      AcceptedIffDisjoint(env.m);
    }
  }

  /** The metadata document is the last write, after every manifest and list; no other write is one. */
  lemma MetadataLast(env: Env, opts: Options, s: Store, loc: Uri, i: nat)
    requires var puts := PlanTable(env, opts, s, loc).puts; i < |puts| && puts[i].blob.obj.Meta?
    ensures i == |PlanTable(env, opts, s, loc).puts| - 1
    ensures PlanTable(env, opts, s, loc).puts[i].uri == env.m.Apply(loc)
  {
    hide PlanLoop, PlanSnapshot, Parse, Selected, WalkHits, RelocateDoc, WrittenDoc, After;
    var snaps := Selected(LoadMeta(s, loc).value, opts.currentOnly);
    SnapshotsTargetOnly(env, opts.dry, s, snaps);
    var walk := PlanLoop(SnapshotStep(env, opts.dry), s, snaps).puts;
    var puts := PlanTable(env, opts, s, loc).puts;
    assert forall j | 0 <= j < |walk| :: puts[j] == walk[j] && walk[j] in walk;
  }

  // No read depends on a write.

  /** On any store that equals base, except perhaps at the twins of what base stores, a step does what it does on base,
      and it writes to such twins only. */
  ghost predicate Stable<X(!new)>(m: PrefixMapping, base: Store, step: (Store, X) -> Run<Gathered>, xs: seq<X>) {
    && (forall t: Store, x | x in xs && AgreeOffTwins(m, base, t) :: step(t, x) == step(base, x))
    && (forall x | x in xs :: TwinOnly(m, base, step(base, x).puts))
  }

  lemma AgreeAfter(m: PrefixMapping, base: Store, t: Store, puts: seq<Put>)
    requires AgreeOffTarget(m, base, t) && TargetOnly(m, puts)
    ensures AgreeOffTarget(m, base, After(t, puts))
  {
    TargetWritesKeepRest(m, t, puts);
  }

  lemma StableRest<X(!new)>(m: PrefixMapping, base: Store, step: (Store, X) -> Run<Gathered>, xs: seq<X>)
    requires xs != [] && Stable(m, base, step, xs)
    ensures Stable(m, base, step, xs[1..])
    ensures forall t: Store | AgreeOffTwins(m, base, t) :: step(t, xs[0]) == step(base, xs[0])
    ensures TwinOnly(m, base, step(base, xs[0]).puts)
  {
    assert xs[0] in xs;
    assert forall x | x in xs[1..] :: x in xs;
  }

  lemma {:induction false} LoopInsensitive<X(!new)>(
    m: PrefixMapping, base: Store, step: (Store, X) -> Run<Gathered>, t: Store, xs: seq<X>)
    requires Stable(m, base, step, xs) && AgreeOffTwins(m, base, t)
    ensures PlanLoop(step, t, xs) == PlanLoop(step, base, xs)
    decreases |xs|
  {
    if xs != [] {
      StableRest(m, base, step, xs);
      var r := step(base, xs[0]);
      assert step(t, xs[0]) == r;
      TwinWritesKeepRest(m, base, base, r.puts);
      TwinWritesKeepRest(m, base, t, r.puts);
      LoopInsensitive(m, base, step, After(t, r.puts), xs[1..]);
      LoopInsensitive(m, base, step, After(base, r.puts), xs[1..]);
    }
  }

  /** A stable loop may as well evaluate every step on the store it started from. */
  lemma LoopUnthreaded<X(!new)>(m: PrefixMapping, base: Store, step: (Store, X) -> Run<Gathered>, xs: seq<X>)
    requires xs != [] && Stable(m, base, step, xs)
    ensures var r := step(base, xs[0]);
            PlanLoop(step, base, xs) == match r.res
              case Failure(e) => r
              case Success(g) => Lead(g, r.puts, PlanLoop(step, base, xs[1..]))
  {
    StableRest(m, base, step, xs);
    var r := step(base, xs[0]);
    TwinWritesKeepRest(m, base, base, r.puts);
    LoopInsensitive(m, base, step, After(base, r.puts), xs[1..]);
  }

  /** The writes of a stable loop are those of its steps; it succeeds when all of them do. */
  lemma {:induction false} LoopWrites<X(!new)>(m: PrefixMapping, base: Store, step: (Store, X) -> Run<Gathered>, xs: seq<X>)
    requires Stable(m, base, step, xs)
    ensures var r := PlanLoop(step, base, xs);
            && (forall p | p in r.puts :: exists x | x in xs :: p in step(base, x).puts)
            && (r.res.Success? <==> forall x | x in xs :: step(base, x).res.Success?)
            && (r.res.Success? ==> forall x, p | x in xs && p in step(base, x).puts :: p in r.puts)
            && (r.res.Success? ==> (r.res.value.changed <==> exists x | x in xs :: step(base, x).res.value.changed))
            && (r.res.Failure? ==> exists x | x in xs :: step(base, x).res.Failure? && step(base, x).res.error == r.res.error)
    decreases |xs|
  {
    if xs != [] {
      StableRest(m, base, step, xs);
      LoopUnthreaded(m, base, step, xs);
      LoopWrites(m, base, step, xs[1..]);
      assert xs == [xs[0]] + xs[1..];
      var r, rest := PlanLoop(step, base, xs), PlanLoop(step, base, xs[1..]);
      forall p | p in r.puts ensures exists x | x in xs :: p in step(base, x).puts {
        if p in step(base, xs[0]).puts {
          assert xs[0] in xs;
        } else {
          var x :| x in xs[1..] && p in step(base, x).puts;
          assert x in xs;
        }
      }
      if r.res.Success? {
        assert r.res.value.changed <==> step(base, xs[0]).res.value.changed || rest.res.value.changed;
      } else if step(base, xs[0]).res.Success? {
        var x :| x in xs[1..] && step(base, x).res.Failure? && step(base, x).res.error == r.res.error;
        assert x in xs;
      }
    }
  }

  lemma LoopTwinOnly<X(!new)>(m: PrefixMapping, base: Store, step: (Store, X) -> Run<Gathered>, xs: seq<X>)
    requires Stable(m, base, step, xs)
    ensures TwinOnly(m, base, PlanLoop(step, base, xs).puts)
  {
    LoopWrites(m, base, step, xs);
    forall p | p in PlanLoop(step, base, xs).puts ensures Twin(m, base, p.uri) {
      var x :| x in xs && p in step(base, x).puts;
      assert TwinOnly(m, base, step(base, x).puts);
    }
  }

  lemma TwinOf(m: PrefixMapping, s: Store, u: Uri)
    requires m.Matches(u) && u in s
    ensures Twin(m, s, m.Apply(u))
  {
    assert m.Apply(u)[|m.target|..] == u[|m.source|..];
    assert u == m.source + u[|m.source|..];
  }

  lemma BodyInsensitive(env: Env, s: Store, t: Store, uri: Uri)
    requires env.m.Legal() && AgreeOffTarget(env.m, s, t)
    ensures PlanBody(env, t, uri) == PlanBody(env, s, uri)
    ensures WalkStored(env, t, uri) == WalkStored(env, s, uri)
  {
    NotBoth(env.m, uri);
  }

  lemma EntryTwinOnly(env: Env, manifest: Uri, s: Store, e: Entry)
    ensures TwinOnly(env.m, s, PlanEntry(env, manifest, s, e).puts)
  {
    hide IsPuffin, Twin;
    if env.m.Matches(e.file.path) && e.file.path in s {
      TwinOf(env.m, s, e.file.path);
    }
  }

  lemma EntriesStable(env: Env, s: Store, manifest: Uri, entries: seq<Entry>)
    requires env.m.Legal()
    ensures Stable(env.m, s, EntryStep(env, manifest), entries)
    ensures Stable(env.m, s, WalkStep(env, manifest), entries)
  {
    var step, walk := EntryStep(env, manifest), WalkStep(env, manifest);
    forall t: Store, e | e in entries && AgreeOffTwins(env.m, s, t)
      ensures step(t, e) == step(s, e) && walk(t, e) == walk(s, e)
    {
      OffTwinsOffTarget(env.m, s, t);
      BodyInsensitive(env, s, t, e.file.path);
    }
    forall e | e in entries ensures TwinOnly(env.m, s, step(s, e).puts) {
      EntryTwinOnly(env, manifest, s, e);
    }
  }

  lemma ManifestInsensitive(env: Env, s: Store, t: Store, mf: ManifestFile)
    requires env.m.Legal() && AgreeOffTwins(env.m, s, t) && !Twin(env.m, s, mf.path)
    ensures PlanManifest(env, t, mf) == PlanManifest(env, s, mf)
    ensures PlanWalkManifest(env, t, mf) == PlanWalkManifest(env, s, mf)
  {
    if mf.path in s && s[mf.path].obj.Manifest? {
      var entries := s[mf.path].obj.entries;
      EntriesStable(env, s, mf.path, entries);
      LoopInsensitive(env.m, s, EntryStep(env, mf.path), t, entries);
      LoopInsensitive(env.m, s, WalkStep(env, mf.path), t, entries);
    }
  }

  lemma ManifestTwinOnly(env: Env, s: Store, mf: ManifestFile)
    requires env.m.Legal()
    ensures TwinOnly(env.m, s, PlanManifest(env, s, mf).puts)
  {
    hide PlanEntry, Twin, Summarize;
    if mf.path in s && s[mf.path].obj.Manifest? {
      var entries := s[mf.path].obj.entries;
      EntriesStable(env, s, mf.path, entries);
      LoopTwinOnly(env.m, s, EntryStep(env, mf.path), entries);
      if env.m.Matches(mf.path) {
        TwinOf(env.m, s, mf.path);
      }
    }
  }

  lemma FileTwinOnly(env: Env, dry: bool, s: Store, mf: ManifestFile)
    requires env.m.Legal()
    ensures TwinOnly(env.m, s, PlanFile(env, dry, s, mf).puts)
  {
    hide PlanManifest, PlanWalkManifest;
    ManifestTwinOnly(env, s, mf);
    WalkWritesNothing(env, s, mf);
  }

  /** No manifest named here is the twin of a stored object. */
  ghost predicate TwinFreeFiles(m: PrefixMapping, s: Store, files: seq<ManifestFile>) {
    forall f | f in files :: !Twin(m, s, f.path)
  }

  lemma FilesStable(env: Env, dry: bool, s: Store, files: seq<ManifestFile>)
    requires env.m.Legal() && TwinFreeFiles(env.m, s, files)
    ensures Stable(env.m, s, FileStep(env, dry), files)
  {
    var step := FileStep(env, dry);
    forall t: Store, f | f in files && AgreeOffTwins(env.m, s, t) ensures step(t, f) == step(s, f) {
      hide PlanManifest, PlanWalkManifest, Twin;
      ManifestInsensitive(env, s, t, f);
    }
    forall f | f in files ensures TwinOnly(env.m, s, step(s, f).puts) {
      FileTwinOnly(env, dry, s, f);
    }
  }

  lemma FlatStable(env: Env, dry: bool, id: int, s: Store, uris: seq<Uri>)
    requires env.m.Legal() && forall u | u in uris :: !Twin(env.m, s, u)
    ensures Stable(env.m, s, FlatStep(env, dry, id), uris)
  {
    var step := FlatStep(env, dry, id);
    forall t: Store, u | u in uris && AgreeOffTwins(env.m, s, t) ensures step(t, u) == step(s, u) {
      hide PlanManifest, PlanWalkManifest, Twin;
      if u in s {
        ManifestInsensitive(env, s, t, V1Descriptor(u, s[u].size, id));
      }
    }
    forall u | u in uris ensures TwinOnly(env.m, s, step(s, u).puts) {
      hide PlanFile, Twin;
      if u in s {
        FileTwinOnly(env, dry, s, V1Descriptor(u, s[u].size, id));
      }
    }
  }

  /** No list or manifest that the walk of a snapshot reads is the twin of a stored object. */
  ghost predicate TwinFree(m: PrefixMapping, s: Store, snap: SnapshotJSON) {
    && !Twin(m, s, snap.manifestList)
    && (forall u | u in snap.manifests :: !Twin(m, s, u))
    && (snap.manifestList in s && s[snap.manifestList].obj.List? ==> TwinFreeFiles(m, s, s[snap.manifestList].obj.files))
  }

  lemma ListInsensitive(env: Env, dry: bool, s: Store, t: Store, uri: Uri)
    requires env.m.Legal() && AgreeOffTwins(env.m, s, t) && !Twin(env.m, s, uri)
    requires uri in s && s[uri].obj.List? ==> TwinFreeFiles(env.m, s, s[uri].obj.files)
    ensures PlanList(env, dry, t, uri) == PlanList(env, dry, s, uri)
  {
    hide PlanFile;
    if uri in s && s[uri].obj.List? {
      FilesStable(env, dry, s, s[uri].obj.files);
      LoopInsensitive(env.m, s, FileStep(env, dry), t, s[uri].obj.files);
    }
  }

  lemma ListTwinOnly(env: Env, dry: bool, s: Store, uri: Uri)
    requires env.m.Legal()
    requires uri in s && s[uri].obj.List? ==> TwinFreeFiles(env.m, s, s[uri].obj.files)
    ensures TwinOnly(env.m, s, PlanList(env, dry, s, uri).puts)
  {
    hide PlanFile, Twin, ListHits;
    if uri in s && s[uri].obj.List? {
      FilesStable(env, dry, s, s[uri].obj.files);
      LoopTwinOnly(env.m, s, FileStep(env, dry), s[uri].obj.files);
      if env.m.Matches(uri) {
        TwinOf(env.m, s, uri);
      }
    }
  }

  /** The list half of a snapshot's walk. */
  function ListPart(env: Env, dry: bool, s: Store, snap: SnapshotJSON): Run<Gathered> {
    if snap.manifestList == "" then Run(Success(Nothing), []) else PlanList(env, dry, s, snap.manifestList)
  }

  /** The writes of the list half do not influence the flat half. */
  lemma SnapshotUnthreaded(env: Env, dry: bool, s: Store, t: Store, snap: SnapshotJSON)
    requires env.m.Legal() && AgreeOffTwins(env.m, s, t) && TwinFree(env.m, s, snap)
    ensures PlanSnapshot(env, dry, t, snap) ==
            var a := ListPart(env, dry, s, snap);
            match a.res
            case Failure(e) => a
            case Success(g) => Lead(g, a.puts, PlanLoop(FlatStep(env, dry, snap.id), s, snap.manifests))
  {
    hide PlanList, PlanFlat, Twin;
    ListInsensitive(env, dry, s, t, snap.manifestList);
    ListTwinOnly(env, dry, s, snap.manifestList);
    var a := ListPart(env, dry, s, snap);
    TwinWritesKeepRest(env.m, s, t, a.puts);
    FlatStable(env, dry, snap.id, s, snap.manifests);
    LoopInsensitive(env.m, s, FlatStep(env, dry, snap.id), After(t, a.puts), snap.manifests);
  }

  lemma SnapshotTwinOnly(env: Env, dry: bool, s: Store, snap: SnapshotJSON)
    requires env.m.Legal() && TwinFree(env.m, s, snap)
    ensures TwinOnly(env.m, s, PlanSnapshot(env, dry, s, snap).puts)
  {
    SnapshotUnthreaded(env, dry, s, s, snap);
    hide PlanSnapshot, PlanLoop, PlanList, Twin;
    ListTwinOnly(env, dry, s, snap.manifestList);
    FlatStable(env, dry, snap.id, s, snap.manifests);
    LoopTwinOnly(env.m, s, FlatStep(env, dry, snap.id), snap.manifests);
  }

  lemma SnapshotsStable(env: Env, dry: bool, s: Store, snaps: seq<SnapshotJSON>)
    requires env.m.Legal() && forall snap | snap in snaps :: TwinFree(env.m, s, snap)
    ensures Stable(env.m, s, SnapshotStep(env, dry), snaps)
  {
    var step := SnapshotStep(env, dry);
    forall t: Store, snap | snap in snaps && AgreeOffTwins(env.m, s, t) ensures step(t, snap) == step(s, snap) {
      hide PlanLoop, PlanList;
      SnapshotUnthreaded(env, dry, s, t, snap);
      SnapshotUnthreaded(env, dry, s, s, snap);
    }
    forall snap | snap in snaps ensures TwinOnly(env.m, s, step(s, snap).puts) {
      hide PlanSnapshot, TwinFree;
      SnapshotTwinOnly(env, dry, s, snap);
    }
  }

  /** The snapshots a run walks, as named by the metadata document. */
  function Walked(opts: Options, s: Store, loc: Uri): seq<SnapshotJSON> {
    match LoadMeta(s, loc) case Failure(_) => [] case Success(meta) => Selected(meta, opts.currentOnly)
  }

  /** No manifest list or manifest that the run reads is the twin of a stored object. */
  ghost predicate TwinFreeTable(m: PrefixMapping, opts: Options, s: Store, loc: Uri) {
    forall snap | snap in Walked(opts, s, loc) :: TwinFree(m, s, snap)
  }

  lemma MetaInsensitive(env: Env, s: Store, t: Store, loc: Uri)
    requires env.m.Legal() && AgreeOffTarget(env.m, s, t)
    ensures PlanMeta(env, t, loc) == PlanMeta(env, s, loc)
    ensures env.m.Matches(loc) ==> LoadMeta(t, loc) == LoadMeta(s, loc)
  {
    NotBoth(env.m, loc);
  }

  /** What the tail of a run adds, evaluated on the store it started from. */
  lemma TableUnthreaded(env: Env, opts: Options, s: Store, t: Store, loc: Uri)
    requires env.m.Legal() && AgreeOffTwins(env.m, s, t) && TwinFreeTable(env.m, opts, s, loc)
    requires env.m.Matches(loc) && LoadMeta(s, loc).Success?
    ensures LoadMeta(t, loc) == LoadMeta(s, loc)
    ensures var step, snaps := SnapshotStep(env, opts.dry), Walked(opts, s, loc);
            var walk := PlanLoop(step, s, snaps);
            && PlanLoop(step, t, snaps) == walk
            && TwinOnly(env.m, s, walk.puts)
            && PlanMeta(env, After(t, walk.puts), loc) == PlanMeta(env, s, loc)
  {
    hide PlanSnapshot, PlanMeta, Selected, Parse, TwinFree, Twin;
    OffTwinsOffTarget(env.m, s, t);
    MetaInsensitive(env, s, t, loc);
    var step, snaps := SnapshotStep(env, opts.dry), Walked(opts, s, loc);
    SnapshotsStable(env, opts.dry, s, snaps);
    LoopInsensitive(env.m, s, step, t, snaps);
    LoopTwinOnly(env.m, s, step, snaps);
    TwinWritesKeepRest(env.m, s, t, PlanLoop(step, s, snaps).puts);
    OffTwinsOffTarget(env.m, s, After(t, PlanLoop(step, s, snaps).puts));
    MetaInsensitive(env, s, After(t, PlanLoop(step, s, snaps).puts), loc);
  }

  /** The whole run depends on the store only off the twins of what it stores. */
  lemma TableInsensitive(env: Env, opts: Options, s: Store, t: Store, loc: Uri)
    requires env.m.Legal() && AgreeOffTwins(env.m, s, t) && TwinFreeTable(env.m, opts, s, loc)
    ensures PlanTable(env, opts, t, loc) == PlanTable(env, opts, s, loc)
  {
    hide PlanSnapshot, PlanLoop, PlanMeta, Selected, WalkHits, Parse, TwinFree;
    OffTwinsOffTarget(env.m, s, t);
    MetaInsensitive(env, s, t, loc);
    AgreesWithItself(env.m, s);
    if env.m.Matches(loc) && LoadMeta(s, loc).Success? {
      TableUnthreaded(env, opts, s, t, loc);
      TableUnthreaded(env, opts, s, s, loc);
    }
  }

  lemma AgreesWithItself(m: PrefixMapping, s: Store)
    ensures AgreeOffTwins(m, s, s)
  {
  }

  /** Every PUT of a run that reads no twin goes to the twin of a stored object. */
  lemma TableTwinOnly(env: Env, opts: Options, s: Store, loc: Uri)
    requires env.m.Legal() && TwinFreeTable(env.m, opts, s, loc)
    ensures TwinOnly(env.m, s, PlanTable(env, opts, s, loc).puts)
  {
    hide PlanSnapshot, PlanLoop, Selected, WalkHits, Parse, TwinFree, Twin, RelocateDoc, WrittenDoc;
    AgreesWithItself(env.m, s);
    if env.m.Matches(loc) && LoadMeta(s, loc).Success? {
      TableUnthreaded(env, opts, s, s, loc);
      TwinOf(env.m, s, loc);
    }
  }

  /** The URIs a plan writes. */
  function WriteSet(puts: seq<Put>): set<Uri> {
    set p | p in puts :: p.uri
  }

  /** Resume converges: from any store that equals the original outside the run's own write set, whatever a crash or a
      truncated PUT left there, a full run makes the same writes and ends in the same store. */
  lemma ResumeConverges(env: Env, opts: Options, s: Store, crashed: Store, loc: Uri)
    requires env.m.Legal() && TwinFreeTable(env.m, opts, s, loc)
    requires forall u | u !in WriteSet(PlanTable(env, opts, s, loc).puts) ::
               (u in crashed <==> u in s) && (u in s ==> crashed[u] == s[u])
    ensures PlanTable(env, opts, crashed, loc) == PlanTable(env, opts, s, loc)
    ensures After(crashed, PlanTable(env, opts, crashed, loc).puts) == After(s, PlanTable(env, opts, s, loc).puts)
  {
    hide PlanTable;
    var puts := PlanTable(env, opts, s, loc).puts;
    TableTwinOnly(env, opts, s, loc);
    assert AgreeOffTwins(env.m, s, crashed) by {
      forall u | !Twin(env.m, s, u) ensures u !in WriteSet(puts) {
      }
    }
    TableInsensitive(env, opts, s, crashed, loc);
    WritesConverge(s, crashed, puts);
  }

  /** Every state that an interrupted run can leave behind is one from which a resumed run converges. */
  lemma InterruptedThenResumed(env: Env, opts: Options, s: Store, loc: Uri, done: seq<Put>)
    requires env.m.Legal() && TwinFreeTable(env.m, opts, s, loc)
    requires Interrupted(done, PlanTable(env, opts, s, loc).puts)
    ensures var crashed := After(s, done);
            After(crashed, PlanTable(env, opts, crashed, loc).puts) == After(s, PlanTable(env, opts, s, loc).puts)
  {
    hide PlanTable;
    var puts := PlanTable(env, opts, s, loc).puts;
    forall u | u !in WriteSet(puts)
      ensures (u in After(s, done) <==> u in s) && (u in s ==> After(s, done)[u] == s[u])
    {
      forall p | p in done ensures p.uri != u {
        var i :| 0 <= i < |done| && done[i] == p;
        assert puts[i] in puts;
      }
      AfterFrame(s, done, u);
    }
    ResumeConverges(env, opts, s, After(s, done), loc);
  }
}
