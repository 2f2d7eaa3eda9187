/** What the report of a run says: which fields were met, in what order, and what each of them becomes. */
module Hits {
  import opened Wrappers
  import opened Prefix
  import opened Json
  import opened Metadata
  import opened Graph
  import opened Deletes
  import opened Plan
  import opened PlanFacts

  /** The hits of each step on the store the loop starts from. */
  function HitsOf<X>(step: (Store, X) -> Run<Gathered>, s: Store, xs: seq<X>): seq<seq<PathHit>> {
    seq(|xs|, i requires 0 <= i < |xs| => match step(s, xs[i]).res case Success(g) => g.hits case Failure(_) => [])
  }

  /** A stable loop reports what its steps report, in their order. */
  lemma {:induction false} LoopHits<X(!new)>(m: PrefixMapping, s: Store, step: (Store, X) -> Run<Gathered>, xs: seq<X>)
    requires Stable(m, s, step, xs) && PlanLoop(step, s, xs).res.Success?
    ensures PlanLoop(step, s, xs).res.value.hits == Flatten(HitsOf(step, s, xs))
    decreases |xs|
  {
    if xs != [] {
      StableRest(m, s, step, xs);
      LoopUnthreaded(m, s, step, xs);
      LoopHits(m, s, step, xs[1..]);
      assert HitsOf(step, s, xs)[1..] == HitsOf(step, s, xs[1..]);
    }
  }

  lemma {:induction false} InFlatten(parts: seq<seq<PathHit>>, h: PathHit)
    ensures h in Flatten(parts) <==> exists i :: 0 <= i < |parts| && h in parts[i]
  {
    if parts != [] {
      InFlatten(parts[1..], h);
      if i :| 0 <= i < |parts| && h in parts[i] {
        assert i > 0 ==> parts[1..][i - 1] == parts[i];
      }
    }
  }

  /** So a hit is reported exactly when some step reports it. */
  lemma LoopReports<X(!new)>(m: PrefixMapping, s: Store, step: (Store, X) -> Run<Gathered>, xs: seq<X>, h: PathHit)
    requires Stable(m, s, step, xs) && PlanLoop(step, s, xs).res.Success?
    ensures forall x | x in xs :: step(s, x).res.Success?
    ensures h in PlanLoop(step, s, xs).res.value.hits <==> exists x | x in xs :: h in step(s, x).res.value.hits
  {
    LoopWrites(m, s, step, xs);
    LoopHits(m, s, step, xs);
    var parts := HitsOf(step, s, xs);
    InFlatten(parts, h);
    if x :| x in xs && h in step(s, x).res.value.hits {
      var i :| 0 <= i < |xs| && xs[i] == x;
      assert h in parts[i];
    }
    if i :| 0 <= i < |parts| && h in parts[i] {
      assert xs[i] in xs;
    }
    hide PlanLoop, Stable;
  }

  // Entries and manifests.

  /** The hit is one that the entry of a manifest gives rise to: its path, or its reference if it has a non-empty one, with
      the value as it stands and as mapped, changed or not. */
  predicate EntrySays(m: PrefixMapping, manifest: Uri, f: FileInfo, h: PathHit) {
    h.after == m.Apply(h.before) &&
    match h.field
    case EntryPath(u) => u == manifest && h.before == f.path
    case EntryReference(u) => u == manifest && h.before != "" && f.ref == Some(h.before)
    case _ => false
  }

  /** Live or dry, an entry is reported by its path, then by its reference if there is one. */
  lemma EntryReports(env: Env, dry: bool, manifest: Uri, s: Store, e: Entry, h: PathHit)
    requires var r := if dry then PlanWalkEntry(env, manifest, s, e) else PlanEntry(env, manifest, s, e); r.res.Success?
    ensures var r := if dry then PlanWalkEntry(env, manifest, s, e) else PlanEntry(env, manifest, s, e);
            var hits, f := r.res.value.hits, e.file;
            && |hits| == (if f.ref.GetOr("") == "" then 1 else 2)
            && hits[0].field == EntryPath(manifest) && hits[0].before == f.path
            && (|hits| == 2 ==> hits[1].field == EntryReference(manifest))
            && (h in hits <==> EntrySays(env.m, manifest, f, h))
  {
    assert (if dry then PlanWalkEntry(env, manifest, s, e) else PlanEntry(env, manifest, s, e)).res.value.hits ==
           EntryHits(env.m, manifest, e.file) by {
      hide WalkStored, PlanBody, IsPuffin, FixedUp, EntryHits;
    }
    hide PlanEntry, PlanWalkEntry;
    EntryHitsSay(env.m, manifest, e.file, h);
  }

  lemma EntryHitsSay(m: PrefixMapping, manifest: Uri, f: FileInfo, h: PathHit)
    ensures h in EntryHits(m, manifest, f) <==> EntrySays(m, manifest, f, h)
  {
  }

  ghost predicate ManifestSays(m: PrefixMapping, s: Store, path: Uri, h: PathHit) {
    path in s && s[path].obj.Manifest? && exists e | e in s[path].obj.entries :: EntrySays(m, path, e.file, h)
  }

  /** A manifest is reported entry by entry. */
  lemma ManifestReports(env: Env, dry: bool, s: Store, mf: ManifestFile, h: PathHit)
    requires env.m.Legal() && PlanFile(env, dry, s, mf).res.Success?
    ensures mf.path in s && s[mf.path].obj.Manifest?
    ensures PlanFile(env, dry, s, mf).res.value.hits ==
            Flatten(HitsOf(if dry then WalkStep(env, mf.path) else EntryStep(env, mf.path), s, s[mf.path].obj.entries))
    ensures h in PlanFile(env, dry, s, mf).res.value.hits <==> ManifestSays(env.m, s, mf.path, h)
  {
    var entries := s[mf.path].obj.entries;
    var step := if dry then WalkStep(env, mf.path) else EntryStep(env, mf.path);
    EntriesStable(env, s, mf.path, entries);
    hide PlanEntry, PlanWalkEntry, PlanLoop, Stable, EntrySays, Summarize;
    assert PlanLoop(step, s, entries).res.Success?;
    assert PlanFile(env, dry, s, mf).res.value.hits == PlanLoop(step, s, entries).res.value.hits;
    LoopHits(env.m, s, step, entries);
    LoopReports(env.m, s, step, entries, h);
    forall e | e in entries ensures h in step(s, e).res.value.hits <==> EntrySays(env.m, mf.path, e.file, h) {
      assert step(s, e) == if dry then PlanWalkEntry(env, mf.path, s, e) else PlanEntry(env, mf.path, s, e);
      EntryReports(env, dry, mf.path, s, e, h);
    }
  }

  // Lists.

  /** The hit is one that the list gives rise to, for one of the manifests it names or for one of their entries. */
  ghost predicate ListSays(m: PrefixMapping, s: Store, uri: Uri, h: PathHit) {
    uri in s && s[uri].obj.List? &&
    var files := s[uri].obj.files;
    || (exists i | 0 <= i < |files| :: h == PathHit(ListedManifest(uri, i), files[i].path, m.Apply(files[i].path)))
    || exists f | f in files :: ManifestSays(m, s, f.path, h)
  }

  /** A list is reported by the manifests it names, in order, and then manifest by manifest. */
  lemma ListReports(env: Env, dry: bool, s: Store, uri: Uri, h: PathHit)
    requires env.m.Legal() && PlanList(env, dry, s, uri).res.Success?
    requires uri in s && s[uri].obj.List? ==> TwinFreeFiles(env.m, s, s[uri].obj.files)
    ensures uri in s && s[uri].obj.List?
    ensures var hits, files := PlanList(env, dry, s, uri).res.value.hits, s[uri].obj.files;
            && |hits| >= |files|
            && (forall i | 0 <= i < |files| ::
                  hits[i].field == ListedManifest(uri, i) && hits[i].before == files[i].path && hits[i].after == env.m.Apply(files[i].path))
            && hits[|files|..] == Flatten(HitsOf(FileStep(env, dry), s, files))
    ensures h in PlanList(env, dry, s, uri).res.value.hits <==> ListSays(env.m, s, uri, h)
  {
    var step, files := FileStep(env, dry), s[uri].obj.files;
    hide PlanFile, PlanLoop, Stable, ManifestSays, TwinFreeFiles, ListHits;
    FilesStable(env, dry, s, files);
    ListInTwo(env, dry, s, uri);
    hide PlanList;
    LoopHits(env.m, s, step, files);
    LoopReports(env.m, s, step, files, h);
    forall f | f in files ensures h in step(s, f).res.value.hits <==> ManifestSays(env.m, s, f.path, h) {
      assert step(s, f) == PlanFile(env, dry, s, f);
      ManifestReports(env, dry, s, f, h);
    }
    ListHitsSay(env.m, uri, files, h);
  }

  lemma ListInTwo(env: Env, dry: bool, s: Store, uri: Uri)
    requires PlanList(env, dry, s, uri).res.Success?
    ensures uri in s && s[uri].obj.List?
    ensures var loop := PlanLoop(FileStep(env, dry), s, s[uri].obj.files);
            && loop.res.Success?
            && PlanList(env, dry, s, uri).res.value.hits == ListHits(env.m, uri, s[uri].obj.files) + loop.res.value.hits
  {
    hide PlanFile, PlanLoop, ListHits;
  }

  lemma ListHitsSay(m: PrefixMapping, uri: Uri, files: seq<ManifestFile>, h: PathHit)
    ensures var own := ListHits(m, uri, files);
            && |own| == |files|
            && (forall i | 0 <= i < |files| ::
                  own[i].field == ListedManifest(uri, i) && own[i].before == files[i].path && own[i].after == m.Apply(files[i].path))
            && (h in own <==> exists i | 0 <= i < |files| ::
                  h == PathHit(ListedManifest(uri, i), files[i].path, m.Apply(files[i].path)))
  {
  }

  /** A flat list is reported manifest by manifest. */
  lemma FlatReports(env: Env, dry: bool, id: int, s: Store, uris: seq<Uri>, h: PathHit)
    requires env.m.Legal() && forall u | u in uris :: !Twin(env.m, s, u)
    requires PlanLoop(FlatStep(env, dry, id), s, uris).res.Success?
    ensures h in PlanLoop(FlatStep(env, dry, id), s, uris).res.value.hits <==>
            exists u | u in uris :: ManifestSays(env.m, s, u, h)
  {
    var step := FlatStep(env, dry, id);
    FlatStable(env, dry, id, s, uris);
    hide PlanFile, PlanLoop, Stable, ManifestSays, Twin;
    LoopReports(env.m, s, step, uris, h);
    forall u | u in uris ensures h in step(s, u).res.value.hits <==> ManifestSays(env.m, s, u, h) {
      assert step(s, u) == PlanFlat(env, dry, id, s, u);
      ManifestReports(env, dry, s, V1Descriptor(u, s[u].size, id), h);
    }
  }

  // Snapshots and tables.

  ghost predicate SnapshotSays(m: PrefixMapping, s: Store, snap: SnapshotJSON, h: PathHit) {
    || (snap.manifestList != "" && ListSays(m, s, snap.manifestList, h))
    || exists u | u in snap.manifests :: ManifestSays(m, s, u, h)
  }

  lemma SnapshotReports(env: Env, dry: bool, s: Store, snap: SnapshotJSON, h: PathHit)
    requires env.m.Legal() && TwinFree(env.m, s, snap) && PlanSnapshot(env, dry, s, snap).res.Success?
    ensures var a, b := ListPart(env, dry, s, snap), PlanLoop(FlatStep(env, dry, snap.id), s, snap.manifests);
            && a.res.Success? && b.res.Success?
            && PlanSnapshot(env, dry, s, snap).res.value.hits == a.res.value.hits + b.res.value.hits
    ensures h in PlanSnapshot(env, dry, s, snap).res.value.hits <==> SnapshotSays(env.m, s, snap, h)
  {
    SnapshotUnthreaded(env, dry, s, s, snap);
    hide PlanSnapshot, PlanLoop, PlanList, ListSays, ManifestSays, Twin;
    if snap.manifestList != "" {
      ListReports(env, dry, s, snap.manifestList, h);
    }
    FlatReports(env, dry, snap.id, s, snap.manifests, h);
  }

  lemma MetadataMapped(m: PrefixMapping, meta: MetadataJSON, h: PathHit)
    requires h in WalkHits(m, meta)
    ensures h.field.MetaField? && h.after == m.Apply(h.before)
  {
    if h in SnapshotsHits(m, meta.snapshots, |meta.snapshots|) {
      SnapshotsMapped(m, meta.snapshots, |meta.snapshots|, h);
    }
    if h in PropertyHits(m, meta.properties, |PathProperties|) {
      PropertiesMapped(m, meta.properties, |PathProperties|, h);
    }
    hide SnapshotsHits, PropertyHits;
  }

  lemma {:induction false} SnapshotsMapped(m: PrefixMapping, snaps: seq<SnapshotJSON>, n: nat, h: PathHit)
    requires n <= |snaps| && h in SnapshotsHits(m, snaps, n)
    ensures h.field.MetaField? && h.after == m.Apply(h.before)
  {
    if n > 0 && h in SnapshotsHits(m, snaps, n - 1) {
      SnapshotsMapped(m, snaps, n - 1, h);
    }
  }

  lemma {:induction false} PropertiesMapped(m: PrefixMapping, props: map<string, string>, n: nat, h: PathHit)
    requires n <= |PathProperties| && h in PropertyHits(m, props, n)
    ensures h.field.MetaField? && h.after == m.Apply(h.before)
  {
    if n > 0 && h in PropertyHits(m, props, n - 1) {
      PropertiesMapped(m, props, n - 1, h);
    }
  }

  /** The report of a run, live or dry: the hits of the document, then those of the walked snapshots, in order; a hit is
      among them exactly when the document, a walked list, or an entry of a walked manifest gives rise to it, whether or
      not its value changes. Its old value is the one that was read, and its new value that one mapped. */
  lemma TableReports(env: Env, opts: Options, s: Store, loc: Uri, h: PathHit)
    requires env.m.Legal() && TwinFreeTable(env.m, opts, s, loc) && PlanTable(env, opts, s, loc).res.Success?
    ensures LoadMeta(s, loc).Success?
    ensures var hits, meta := PlanTable(env, opts, s, loc).res.value.hits, LoadMeta(s, loc).value;
            && hits == WalkHits(env.m, meta) + Flatten(HitsOf(SnapshotStep(env, opts.dry), s, Walked(opts, s, loc)))
            && (h in hits <==> h in WalkHits(env.m, meta) || exists snap | snap in Walked(opts, s, loc) :: SnapshotSays(env.m, s, snap, h))
            && (h in hits ==> h.after == env.m.Apply(h.before))
  {
    var step, snaps := SnapshotStep(env, opts.dry), Walked(opts, s, loc);
    SnapshotsStable(env, opts.dry, s, snaps);
    hide PlanSnapshot, PlanLoop, PlanMeta, WalkHits, Parse, Stable, TwinFree, SnapshotSays, Selected;
    var loop := PlanLoop(step, s, snaps);
    assert loop.res.Success?;
    assert PlanTable(env, opts, s, loc).res.value.hits == WalkHits(env.m, LoadMeta(s, loc).value) + loop.res.value.hits;
    hide PlanTable;
    LoopHits(env.m, s, step, snaps);
    LoopReports(env.m, s, step, snaps, h);
    forall snap | snap in snaps ensures h in step(s, snap).res.value.hits <==> SnapshotSays(env.m, s, snap, h) {
      assert step(s, snap) == PlanSnapshot(env, opts.dry, s, snap);
      SnapshotReports(env, opts.dry, s, snap, h);
    }
    if h in WalkHits(env.m, LoadMeta(s, loc).value) {
      MetadataMapped(env.m, LoadMeta(s, loc).value, h);
    } else if snap :| snap in snaps && SnapshotSays(env.m, s, snap, h) {
      SnapshotMapped(env.m, s, snap, h);
    }
  }

  lemma SnapshotMapped(m: PrefixMapping, s: Store, snap: SnapshotJSON, h: PathHit)
    requires SnapshotSays(m, s, snap, h)
    ensures h.after == m.Apply(h.before)
  {
  }
}
