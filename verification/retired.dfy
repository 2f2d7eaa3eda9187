/** Reading a migrated table after the source prefix is gone. */
module Retired {
  import opened Prefix
  import opened Metadata
  import opened Graph
  import opened Plan
  import opened PlanFacts
  import opened Closure
  import opened Scan
  import opened Preserve

  /** Nothing is left under the source prefix. */
  ghost predicate NoSource(m: PrefixMapping, r: Store) {
    forall u | u in r :: !m.Matches(u)
  }

  /** Without the source, a rewritten descriptor leads to a manifest exactly when the manifest was not left behind. */
  lemma ManifestRetiredIff(env: Env, ver: Versions, s: Store, r: Store, puts: seq<Put>, mf: ManifestFile)
    requires env.m.Legal() && Finished(env, ver, true, s, r, puts) && NoSource(env.m, r)
    requires !Twin(env.m, s, mf.path) && ManifestEntries(s, mf).Some?
    requires PlanManifest(env, s, mf).res.Success? && forall p | p in PlanManifest(env, s, mf).puts :: p in puts
    ensures ManifestEntries(r, PlanManifest(env, s, mf).res.value.file).Some? <==> Homed(env.m, s, mf.path)
  {
    hide PlanManifest, Finished, Homed;
    LeavesSourceIffHomed(env, s, mf);
    if Homed(env.m, s, mf.path) {
      ManifestReadable(env, ver, true, s, r, puts, mf);
    }
  }

  lemma {:induction false} FilesRetiredIff(env: Env, ver: Versions, s: Store, r: Store, puts: seq<Put>, files: seq<ManifestFile>)
    requires env.m.Legal() && Finished(env, ver, true, s, r, puts) && NoSource(env.m, r)
    requires TwinFreeFiles(env.m, s, files) && ListEntries(s, files).Some?
    requires PlanLoop(FileStep(env, false), s, files).res.Success?
    requires forall p | p in PlanLoop(FileStep(env, false), s, files).puts :: p in puts
    ensures var g := PlanLoop(FileStep(env, false), s, files).res.value;
            && (ListEntries(r, g.files).Some? <==> forall f | f in files :: Homed(env.m, s, f.path))
            && (!g.changed ==> g.files == files)
    decreases |files|
  {
    hide PlanLoop, PlanManifest, Finished, Homed, ManifestEntries, TwinFreeFiles, NoSource;
    if files == [] {
      NoFiles(env, s);
    } else {
      FilesFront(env, s, files);
      var f, rest := files[0], files[1..];
      assert f in files && forall x | x in rest :: x in files;
      ManifestRetiredIff(env, ver, s, r, puts, f);
      FilesRetiredIff(env, ver, s, r, puts, rest);
      assert files == [f] + rest;
    }
  }

  lemma ListRetiredIff(env: Env, ver: Versions, s: Store, r: Store, puts: seq<Put>, uri: Uri)
    requires env.m.Legal() && Finished(env, ver, true, s, r, puts) && NoSource(env.m, r)
    requires !Twin(env.m, s, uri) && uri in s && s[uri].obj.List?
    requires TwinFreeFiles(env.m, s, s[uri].obj.files) && ListEntries(s, s[uri].obj.files).Some?
    requires PlanList(env, false, s, uri).res.Success? && forall p | p in PlanList(env, false, s, uri).puts :: p in puts
    ensures var u := env.m.Apply(uri);
            && u in r && r[u].obj.List?
            && (ListEntries(r, r[u].obj.files).Some? <==> forall f | f in s[uri].obj.files :: Homed(env.m, s, f.path))
  {
    hide PlanLoop, ListEntries, Homed, TwinFreeFiles, Canonical, NoSource;
    var files := s[uri].obj.files;
    var loop := PlanLoop(FileStep(env, false), s, files);
    var plan := PlanList(env, false, s, uri);
    assert loop.res.Success? && loop.puts <= plan.puts;
    FilesRetiredIff(env, ver, s, r, puts, files);
    ApplyUnapply(env.m, uri);
    if loop.res.value.changed || env.m.Apply(uri) != uri {
      var p := plan.puts[|plan.puts| - 1];
      assert p.uri == env.m.Apply(uri) && p.blob.obj.List? && p.blob.obj.files == loop.res.value.files;
      ReadsWritten(env, ver, true, s, r, puts, p);
    } else {
      ReadsOutside(env, ver, true, s, r, puts, uri);
    }
  }

  /** Without the source, the graph below a moved snapshot is complete exactly when every manifest of its list that lies
      in the prefix names something in it. */
  lemma SnapshotRetiredIff(env: Env, ver: Versions, s: Store, r: Store, puts: seq<Put>, snap: SnapshotJSON, id: int)
    requires env.m.Legal() && Finished(env, ver, true, s, r, puts) && NoSource(env.m, r)
    requires TwinFree(env.m, s, snap) && SnapshotEntries(s, snap).Some?
    requires PlanSnapshot(env, false, s, snap).res.Success?
    requires forall p | p in PlanSnapshot(env, false, s, snap).puts :: p in puts
    ensures SnapshotEntries(r, MovedUris(env.m, snap, id)).Some? <==> ListHomed(env.m, s, snap)
  {
    if ListHomed(env.m, s, snap) {
      SnapshotReadable(env, ver, true, s, r, puts, snap, id);
    } else {
      SnapshotParts(env, s, snap);
      hide PlanSnapshot, PlanLoop, PlanList, Finished, Homed, ListEntries, FlatEntries, NoSource, TwinFreeFiles;
      ApplyUnapply(env.m, snap.manifestList);
      assert env.m.Apply(snap.manifestList) != "";
      ListRetiredIff(env, ver, s, r, puts, snap.manifestList);
    }
  }

  /** And then it reads as before; else it cannot be read at all. */
  lemma SnapshotReadIff(env: Env, ver: Versions, s: Store, r: Store, puts: seq<Put>, snap: SnapshotJSON, id: int)
    requires env.m.Legal() && Finished(env, ver, true, s, r, puts) && NoSource(env.m, r)
    requires CleanSnapshot(env.m, s, snap)
    requires PlanSnapshot(env, false, s, snap).res.Success?
    requires forall p | p in PlanSnapshot(env, false, s, snap).puts :: p in puts
    ensures ReadSnapshot(false, s, snap).Some?
    ensures if ListHomed(env.m, s, snap) then ReadSnapshot(false, r, MovedUris(env.m, snap, id)) == ReadSnapshot(false, s, snap)
            else ReadSnapshot(false, r, MovedUris(env.m, snap, id)).None?
  {
    hide PlanSnapshot, Finished, ListHomed, NoSource, CleanEntries, SnapshotEntries, LiveRows, TwinFree;
    SnapshotRetiredIff(env, ver, s, r, puts, snap, id);
    EntriesComplete(env.m, s, snap);
    if ListHomed(env.m, s, snap) {
      SnapshotPreserved(env, ver, true, s, r, puts, snap, id);
    }
  }

  lemma EntriesComplete(m: PrefixMapping, s: Store, snap: SnapshotJSON)
    requires CleanSnapshot(m, s, snap)
    ensures ReadSnapshot(false, s, snap).Some?
  {
    hide LiveRows, TwinFree, SnapshotEntries, AllKeptApart, Settled;
  }

  /** Scan preservation with the source retired, exactly: a selected snapshot reads as before from the new location if
      and only if every manifest of its list that lies in the prefix names something in it. */
  lemma RetiredScanIff(env: Env, ver: Versions, opts: Options, s: Store, r: Store, loc: Uri, i: nat)
    requires Preservable(env, ver, opts, s, loc) && PlanTable(env, opts, s, loc).res.Success?
    requires Finished(env, ver, true, s, r, PlanTable(env, opts, s, loc).puts) && NoSource(env.m, r)
    requires MetaMoves(env.m, s, loc)
    requires LoadMeta(s, loc).Success? && IsSelected(LoadMeta(s, loc).value, opts.currentOnly, i)
    ensures var before, after := LoadMeta(s, loc).value, LoadMeta(r, PlanTable(env, opts, s, loc).res.value.newLoc);
            && after.Success? && |after.value.snapshots| == |before.snapshots|
            && (ReadSnapshot(false, r, after.value.snapshots[i]) == ReadSnapshot(false, s, before.snapshots[i]) <==>
                  ListHomed(env.m, s, before.snapshots[i]))
  {
    NewMetadata(env, ver, opts, true, s, r, loc);
    TableParts(env, opts, s, loc);
    var before := LoadMeta(s, loc).value;
    var snap := before.snapshots[i];
    SelectedMember(before, opts.currentOnly, i);
    hide PlanTable, PlanLoop, PlanSnapshot, Finished, TwinFree, CleanEntries, ReadSnapshot, ListHomed, NoSource;
    StepsSucceed(env, s, Walked(opts, s, loc));
    var puts := PlanTable(env, opts, s, loc).puts;
    assert Moved(env.m, env.num, before).snapshots[i] == MovedUris(env.m, snap, env.num(snap.id));
    SnapshotReadIff(env, ver, s, r, puts, snap, env.num(snap.id));
  }
}
