/** What a run's writes mean: each target URI receives one fixed object, and every list names objects that are there. */
module Closure {
  import opened Wrappers
  import opened Prefix
  import opened Json
  import opened Metadata
  import opened Graph
  import opened Deletes
  import opened Plan
  import opened PlanFacts

  /** The format version under which each manifest is named; a flat V1 list names its manifests under version 1. */
  type Versions = Uri -> int

  ghost predicate VersionsOfFiles(ver: Versions, files: seq<ManifestFile>) {
    forall f | f in files :: ver(f.path) == f.version
  }

  /** All descriptors of one manifest agree on its version. */
  ghost predicate VersionsAgree(ver: Versions, s: Store, snap: SnapshotJSON) {
    && (snap.manifestList in s && s[snap.manifestList].obj.List? ==> VersionsOfFiles(ver, s[snap.manifestList].obj.files))
    && (forall u | u in snap.manifests :: ver(u) == 1)
  }

  /** What the rewrite of the source object at u holds, as a function of the original store; None if it needs none. */
  function Rewritten(env: Env, ver: Versions, s: Store, u: Uri): Option<Obj>
    requires u in s
  {
    match s[u].obj
    case DelBody(cols) =>
      (match ConvertBody(env.m, u, cols) case Success((out, true)) => Some(DelBody(out)) case _ => None)
    case Manifest(_, content, specId, _, entries) =>
      (match PlanLoop(EntryStep(env, u), s, entries).res
       case Success(g) => if g.changed then Some(Manifest(ver(u), content, specId, true, g.entries)) else None
       case Failure(_) => None)
    case List(version, header, files) =>
      (match PlanLoop(FileStep(env, false), s, files).res
       case Success(g) => Some(List(version, header, g.files))
       case Failure(_) => None)
    case Meta(doc) => Some(Meta(WrittenDoc(env.m, env.num, doc)))
    case _ => None
  }

  /** The write puts the rewrite of one source object at the mapped URI. */
  ghost predicate Canonical(env: Env, ver: Versions, s: Store, p: Put) {
    && env.m.UnderTarget(p.uri)
    && env.m.Unapply(p.uri) in s
    && Rewritten(env, ver, s, env.m.Unapply(p.uri)) == Some(p.blob.obj)
    && env.enc(p.blob.obj) == Some(p.blob.size)
  }

  ghost predicate AllCanonical(env: Env, ver: Versions, s: Store, puts: seq<Put>) {
    forall p | p in puts :: Canonical(env, ver, s, p)
  }

  /** Distinct source objects never share a target URI, and one source object is always rewritten alike. */
  lemma CanonicalAgrees(env: Env, ver: Versions, s: Store, puts: seq<Put>)
    requires AllCanonical(env, ver, s, puts)
    ensures Agreeing(puts)
  {
    hide Rewritten;
  }

  lemma BodyCanonical(env: Env, ver: Versions, s: Store, uri: Uri)
    requires env.m.Legal()
    ensures AllCanonical(env, ver, s, PlanBody(env, s, uri).puts)
  {
    ApplyUnapply(env.m, uri);
  }

  lemma EntryCanonical(env: Env, ver: Versions, s: Store, manifest: Uri, e: Entry)
    requires env.m.Legal()
    ensures AllCanonical(env, ver, s, PlanEntry(env, manifest, s, e).puts)
  {
    hide PlanBody, Rewritten;
    BodyCanonical(env, ver, s, e.file.path);
  }

  lemma EntriesCanonical(env: Env, ver: Versions, s: Store, manifest: Uri, entries: seq<Entry>)
    requires env.m.Legal()
    ensures AllCanonical(env, ver, s, PlanLoop(EntryStep(env, manifest), s, entries).puts)
  {
    hide PlanEntry, Rewritten;
    var step := EntryStep(env, manifest);
    EntriesStable(env, s, manifest, entries);
    LoopWrites(env.m, s, step, entries);
    forall p | p in PlanLoop(step, s, entries).puts ensures Canonical(env, ver, s, p) {
      var e :| e in entries && p in step(s, e).puts;
      EntryCanonical(env, ver, s, manifest, e);
    }
  }

  lemma ManifestCanonical(env: Env, ver: Versions, s: Store, mf: ManifestFile)
    requires env.m.Legal() && ver(mf.path) == mf.version
    ensures AllCanonical(env, ver, s, PlanManifest(env, s, mf).puts)
  {
    hide PlanEntry, Summarize;
    if mf.path in s && s[mf.path].obj.Manifest? {
      EntriesCanonical(env, ver, s, mf.path, s[mf.path].obj.entries);
      ApplyUnapply(env.m, mf.path);
    }
  }

  lemma FileCanonical(env: Env, ver: Versions, s: Store, mf: ManifestFile)
    requires env.m.Legal() && ver(mf.path) == mf.version
    ensures AllCanonical(env, ver, s, PlanFile(env, false, s, mf).puts)
  {
    hide PlanManifest, Rewritten;
    ManifestCanonical(env, ver, s, mf);
  }

  lemma FilesCanonical(env: Env, ver: Versions, s: Store, files: seq<ManifestFile>)
    requires env.m.Legal() && TwinFreeFiles(env.m, s, files) && VersionsOfFiles(ver, files)
    ensures AllCanonical(env, ver, s, PlanLoop(FileStep(env, false), s, files).puts)
  {
    hide PlanFile, Rewritten;
    var step := FileStep(env, false);
    FilesStable(env, false, s, files);
    LoopWrites(env.m, s, step, files);
    forall p | p in PlanLoop(step, s, files).puts ensures Canonical(env, ver, s, p) {
      var f :| f in files && p in step(s, f).puts;
      FileCanonical(env, ver, s, f);
    }
  }

  lemma ListCanonical(env: Env, ver: Versions, s: Store, uri: Uri)
    requires env.m.Legal()
    requires uri in s && s[uri].obj.List? ==> TwinFreeFiles(env.m, s, s[uri].obj.files) && VersionsOfFiles(ver, s[uri].obj.files)
    ensures AllCanonical(env, ver, s, PlanList(env, false, s, uri).puts)
  {
    hide PlanFile;
    if uri in s && s[uri].obj.List? {
      FilesCanonical(env, ver, s, s[uri].obj.files);
      ApplyUnapply(env.m, uri);
    }
  }

  lemma FlatCanonical(env: Env, ver: Versions, id: int, s: Store, uris: seq<Uri>)
    requires env.m.Legal() && forall u | u in uris :: !Twin(env.m, s, u) && ver(u) == 1
    ensures AllCanonical(env, ver, s, PlanLoop(FlatStep(env, false, id), s, uris).puts)
  {
    hide PlanFile, Rewritten;
    var step := FlatStep(env, false, id);
    FlatStable(env, false, id, s, uris);
    LoopWrites(env.m, s, step, uris);
    forall p | p in PlanLoop(step, s, uris).puts ensures Canonical(env, ver, s, p) {
      var u :| u in uris && p in step(s, u).puts;
      FileCanonical(env, ver, s, V1Descriptor(u, s[u].size, id));
    }
  }

  lemma SnapshotCanonical(env: Env, ver: Versions, s: Store, snap: SnapshotJSON)
    requires env.m.Legal() && TwinFree(env.m, s, snap) && VersionsAgree(ver, s, snap)
    ensures AllCanonical(env, ver, s, PlanSnapshot(env, false, s, snap).puts)
  {
    SnapshotUnthreaded(env, false, s, s, snap);
    hide PlanLoop, PlanList, Rewritten, PlanSnapshot;
    ListCanonical(env, ver, s, snap.manifestList);
    FlatCanonical(env, ver, snap.id, s, snap.manifests);
  }

  /** The conditions on the original graph under which the walk's outcome does not depend on the order of its writes:
      it reads nothing under the target, and every manifest is named under one version. */
  ghost predicate Orderly(m: PrefixMapping, ver: Versions, opts: Options, s: Store, loc: Uri) {
    && TwinFreeTable(m, opts, s, loc)
    && forall snap | snap in Walked(opts, s, loc) :: VersionsAgree(ver, s, snap)
  }

  lemma WalkCanonical(env: Env, ver: Versions, s: Store, snaps: seq<SnapshotJSON>)
    requires env.m.Legal()
    requires forall snap | snap in snaps :: TwinFree(env.m, s, snap) && VersionsAgree(ver, s, snap)
    ensures AllCanonical(env, ver, s, PlanLoop(SnapshotStep(env, false), s, snaps).puts)
  {
    hide PlanSnapshot, Rewritten, TwinFree, VersionsAgree;
    var step := SnapshotStep(env, false);
    SnapshotsStable(env, false, s, snaps);
    LoopWrites(env.m, s, step, snaps);
    forall p | p in PlanLoop(step, s, snaps).puts ensures Canonical(env, ver, s, p) {
      var snap :| snap in snaps && p in step(s, snap).puts;
      SnapshotCanonical(env, ver, s, snap);
    }
  }

  lemma MetaCanonical(env: Env, ver: Versions, s: Store, loc: Uri)
    requires env.m.Legal()
    ensures AllCanonical(env, ver, s, PlanMeta(env, s, loc).puts)
  {
    ApplyUnapply(env.m, loc);
  }

  /** Every write of a run is canonical, so distinct source objects never collide at a target URI. */
  lemma TableCanonical(env: Env, ver: Versions, opts: Options, s: Store, loc: Uri)
    requires env.m.Legal() && !opts.dry && Orderly(env.m, ver, opts, s, loc)
    ensures AllCanonical(env, ver, s, PlanTable(env, opts, s, loc).puts)
    ensures Agreeing(PlanTable(env, opts, s, loc).puts)
  {
    hide PlanLoop, PlanMeta, PlanSnapshot, Canonical, TwinFree, VersionsAgree, WalkHits, Selected, Parse;
    if env.m.Matches(loc) && LoadMeta(s, loc).Success? {
      var snaps := Walked(opts, s, loc);
      WalkCanonical(env, ver, s, snaps);
      var walk := PlanLoop(SnapshotStep(env, false), s, snaps);
      SnapshotsTargetOnly(env, false, s, snaps);
      AgreeAfter(env.m, s, s, walk.puts);
      MetaInsensitive(env, s, After(s, walk.puts), loc);
      MetaCanonical(env, ver, s, loc);
    }
    CanonicalAgrees(env, ver, s, PlanTable(env, opts, s, loc).puts);
  }

  // Bottom-up closure.

  /** The recorded lengths of a list's manifests are those of the stored objects. */
  ghost predicate LengthsExact(s: Store, files: seq<ManifestFile>) {
    forall f | f in files && f.path in s :: s[f.path].size == f.length
  }

  ghost predicate SnapshotLengthsExact(s: Store, snap: SnapshotJSON) {
    snap.manifestList in s && s[snap.manifestList].obj.List? ==> LengthsExact(s, s[snap.manifestList].obj.files)
  }

  /** f names an object of its recorded length: an original one outside the target, or one of these writes. */
  ghost predicate Named(m: PrefixMapping, s: Store, puts: seq<Put>, f: ManifestFile) {
    || (!Twin(m, s, f.path) && f.path in s && s[f.path].obj.Manifest? && s[f.path].size == f.length)
    || (exists p | p in puts :: p.uri == f.path && p.blob.obj.Manifest? && p.blob.size == f.length)
  }

  /** Every list among the writes comes after all the manifests it names. */
  ghost predicate Backed(m: PrefixMapping, s: Store, puts: seq<Put>) {
    forall i, f | 0 <= i < |puts| && puts[i].blob.obj.List? && f in puts[i].blob.obj.files :: Named(m, s, puts[..i], f)
  }

  lemma BackedConcat(m: PrefixMapping, s: Store, a: seq<Put>, b: seq<Put>)
    requires Backed(m, s, a) && Backed(m, s, b)
    ensures Backed(m, s, a + b)
  {
    var c := a + b;
    forall i, f | 0 <= i < |c| && c[i].blob.obj.List? && f in c[i].blob.obj.files ensures Named(m, s, c[..i], f) {
      if i < |a| {
        assert c[..i] == a[..i];
      } else {
        assert c[i] == b[i - |a|];
        assert Named(m, s, b[..i - |a|], f);
        assert c[..i] == a + b[..i - |a|];
      }
    }
  }

  lemma {:induction false} LoopBacked<X(!new)>(m: PrefixMapping, base: Store, step: (Store, X) -> Run<Gathered>, xs: seq<X>)
    requires Stable(m, base, step, xs)
    requires forall x | x in xs :: Backed(m, base, step(base, x).puts)
    ensures Backed(m, base, PlanLoop(step, base, xs).puts)
    decreases |xs|
  {
    if xs != [] {
      StableRest(m, base, step, xs);
      LoopUnthreaded(m, base, step, xs);
      assert xs[0] in xs && forall x | x in xs[1..] :: x in xs;
      LoopBacked(m, base, step, xs[1..]);
      BackedConcat(m, base, step(base, xs[0]).puts, PlanLoop(step, base, xs[1..]).puts);
    }
  }

  ghost predicate NoLists(puts: seq<Put>) {
    forall p | p in puts :: !p.blob.obj.List?
  }

  lemma EntriesNoLists(env: Env, s: Store, manifest: Uri, entries: seq<Entry>)
    requires env.m.Legal()
    ensures NoLists(PlanLoop(EntryStep(env, manifest), s, entries).puts)
  {
    hide PlanEntry;
    var step := EntryStep(env, manifest);
    EntriesStable(env, s, manifest, entries);
    LoopWrites(env.m, s, step, entries);
    forall p | p in PlanLoop(step, s, entries).puts ensures !p.blob.obj.List? {
      var e :| e in entries && p in step(s, e).puts;
      EntryNoLists(env, s, manifest, e);
    }
  }

  lemma EntryNoLists(env: Env, s: Store, manifest: Uri, e: Entry)
    ensures NoLists(PlanEntry(env, manifest, s, e).puts)
  {
    hide ConvertBody, IsPuffin;
  }

  /** What RewriteManifest hands back: the original descriptor, or one naming the manifest it just wrote. */
  lemma ManifestNamed(env: Env, s: Store, mf: ManifestFile)
    requires env.m.Legal() && !Twin(env.m, s, mf.path)
    requires mf.path in s ==> s[mf.path].size == mf.length
    ensures var r := PlanManifest(env, s, mf);
            && NoLists(r.puts)
            && (r.res.Success? ==> Named(env.m, s, r.puts, r.res.value.file))
  {
    hide PlanEntry;
    if mf.path in s && s[mf.path].obj.Manifest? {
      EntriesNoLists(env, s, mf.path, s[mf.path].obj.entries);
      var r := PlanManifest(env, s, mf);
      if r.res.Success? && r.res.value.file != mf {
        var p := r.puts[|r.puts| - 1];
        assert p in r.puts && p.uri == r.res.value.file.path;
      }
    }
  }

  /** The descriptors gathered by a loop over manifests are named by its writes. */
  lemma {:induction false} FilesNamed(env: Env, s: Store, files: seq<ManifestFile>)
    requires env.m.Legal() && TwinFreeFiles(env.m, s, files) && LengthsExact(s, files)
    ensures var r := PlanLoop(FileStep(env, false), s, files);
            && NoLists(r.puts)
            && (r.res.Success? ==> forall f | f in r.res.value.files :: Named(env.m, s, r.puts, f))
    decreases |files|
  {
    if files != [] {
      hide PlanManifest;
      var step := FileStep(env, false);
      FilesStable(env, false, s, files);
      LoopUnthreaded(env.m, s, step, files);
      assert files[0] in files && forall f | f in files[1..] :: f in files;
      ManifestNamed(env, s, files[0]);
      FilesNamed(env, s, files[1..]);
    }
  }

  lemma NoListsBacked(m: PrefixMapping, s: Store, puts: seq<Put>)
    requires NoLists(puts)
    ensures Backed(m, s, puts)
  {
    hide Named;
    assert forall i | 0 <= i < |puts| :: puts[i] in puts;
  }

  lemma ListAfterWalk(m: PrefixMapping, s: Store, walk: seq<Put>, last: Put)
    requires NoLists(walk)
    requires last.blob.obj.List? ==> forall f | f in last.blob.obj.files :: Named(m, s, walk, f)
    ensures Backed(m, s, walk + [last])
  {
    hide Named;
    var puts := walk + [last];
    assert puts[..|walk|] == walk;
    assert forall i | 0 <= i < |walk| :: puts[i] == walk[i] && walk[i] in walk;
  }

  lemma ListBacked(env: Env, s: Store, uri: Uri)
    requires env.m.Legal()
    requires uri in s && s[uri].obj.List? ==> TwinFreeFiles(env.m, s, s[uri].obj.files) && LengthsExact(s, s[uri].obj.files)
    ensures Backed(env.m, s, PlanList(env, false, s, uri).puts)
  {
    hide PlanLoop, Named, TwinFreeFiles, LengthsExact, Backed;
    if uri in s && s[uri].obj.List? {
      var list := s[uri].obj;
      FilesNamed(env, s, list.files);
      var r := PlanLoop(FileStep(env, false), s, list.files);
      NoListsBacked(env.m, s, r.puts);
      if r.res.Success? {
        var w := PlanWrite(env, env.m.Apply(uri), List(list.version, list.header, r.res.value.files));
        if w.res.Success? {
          ListAfterWalk(env.m, s, r.puts, w.puts[0]);
          assert w.puts == [w.puts[0]];
        } else {
          assert r.puts + [] == r.puts;
        }
      }
    } else {
      NoListsBacked(env.m, s, []);
    }
  }

  lemma FlatBacked(env: Env, id: int, s: Store, uris: seq<Uri>)
    requires env.m.Legal() && forall u | u in uris :: !Twin(env.m, s, u)
    ensures Backed(env.m, s, PlanLoop(FlatStep(env, false, id), s, uris).puts)
  {
    hide PlanManifest;
    var step := FlatStep(env, false, id);
    FlatStable(env, false, id, s, uris);
    forall u | u in uris ensures Backed(env.m, s, step(s, u).puts) {
      if u in s {
        ManifestNamed(env, s, V1Descriptor(u, s[u].size, id));
        assert forall i | 0 <= i < |step(s, u).puts| :: step(s, u).puts[i] in step(s, u).puts;
      }
    }
    LoopBacked(env.m, s, step, uris);
  }

  lemma SnapshotBacked(env: Env, s: Store, snap: SnapshotJSON)
    requires env.m.Legal() && TwinFree(env.m, s, snap) && SnapshotLengthsExact(s, snap)
    ensures Backed(env.m, s, PlanSnapshot(env, false, s, snap).puts)
  {
    SnapshotUnthreaded(env, false, s, s, snap);
    hide PlanLoop, PlanList, PlanSnapshot, Named;
    ListBacked(env, s, snap.manifestList);
    FlatBacked(env, snap.id, s, snap.manifests);
    BackedConcat(env.m, s, ListPart(env, false, s, snap).puts, PlanLoop(FlatStep(env, false, snap.id), s, snap.manifests).puts);
  }

  lemma TableBacked(env: Env, opts: Options, s: Store, loc: Uri)
    requires env.m.Legal() && !opts.dry && TwinFreeTable(env.m, opts, s, loc)
    requires forall snap | snap in Walked(opts, s, loc) :: SnapshotLengthsExact(s, snap)
    ensures Backed(env.m, s, PlanTable(env, opts, s, loc).puts)
  {
    hide PlanLoop, PlanSnapshot, TwinFree, SnapshotLengthsExact, Named, WalkHits, Selected, Parse, WrittenDoc, RelocateDoc;
    if env.m.Matches(loc) && LoadMeta(s, loc).Success? {
      var snaps := Walked(opts, s, loc);
      var step := SnapshotStep(env, false);
      SnapshotsStable(env, false, s, snaps);
      forall snap | snap in snaps ensures Backed(env.m, s, step(s, snap).puts) {
        SnapshotBacked(env, s, snap);
      }
      LoopBacked(env.m, s, step, snaps);
      var walk := PlanLoop(step, s, snaps).puts;
      var last := PlanMeta(env, After(s, walk), loc).puts;
      BackedConcat(env.m, s, walk, last);
    }
  }

  /** Bottom-up closure. From the moment a manifest list is PUT, and at every later moment of the run, each of its
      entries names a stored manifest of exactly the recorded length, however often a shared manifest is rewritten. */
  lemma BottomUpClosure(env: Env, ver: Versions, opts: Options, s: Store, loc: Uri, i: nat, k: nat, f: ManifestFile)
    requires env.m.Legal() && !opts.dry && Orderly(env.m, ver, opts, s, loc)
    requires forall snap | snap in Walked(opts, s, loc) :: SnapshotLengthsExact(s, snap)
    requires i < k <= |PlanTable(env, opts, s, loc).puts|
    requires PlanTable(env, opts, s, loc).puts[i].blob.obj.List?
    requires f in PlanTable(env, opts, s, loc).puts[i].blob.obj.files
    ensures var t := After(s, PlanTable(env, opts, s, loc).puts[..k]);
            f.path in t && t[f.path].obj.Manifest? && t[f.path].size == f.length
  {
    hide PlanTable, TwinFreeTable, VersionsAgree, SnapshotLengthsExact, Canonical;
    var puts := PlanTable(env, opts, s, loc).puts;
    TableBacked(env, opts, s, loc);
    TableCanonical(env, ver, opts, s, loc);
    TableTwinOnly(env, opts, s, loc);
    var done := puts[..k];
    assert forall p | p in done :: p in puts;
    assert Named(env.m, s, puts[..i], f);
    if p :| p in puts[..i] && p.uri == f.path && p.blob.obj.Manifest? && p.blob.size == f.length {
      assert p in done;
      AgreeingLast(s, done, p);
    } else {
      AfterFrame(s, done, f.path);
    }
  }
}
