/** Small tables, each of which breaks one condition, and what then goes wrong. */
module Counterexamples {
  import opened Wrappers
  import opened Prefix
  import opened Json
  import opened Metadata
  import opened Graph
  import opened Deletes
  import opened Plan
  import opened PlanFacts
  import opened Closure
  import opened Scan
  import opened Preserve
  import opened Retired
  import opened Lapsed
  import opened SmallTables

  const Mapping: PrefixMapping := PrefixMapping("s/", "t/")
  const LiveRun: Options := Options(false, false)

  function DataAt(path: Uri): Entry {
    Entry(Added, Some(1), None, FileInfo(Content.Data, path, None, 3, None, None, None, None, 0, 1))
  }

  lemma MappingLegal()
    ensures Mapping.Legal()
    ensures forall u | u in {"s/", "s/m", "s/k", "s/l", "s/a", "s/d"} :: Mapping.Matches(u) && Mapping.Apply(u) == "t/" + u[2..]
    ensures Mapping.Apply("s/a") == "t/a" && Mapping.Apply("s/l") == "t/l" && Mapping.Apply("s/k") == "t/k" && Mapping.Apply("s/m") == "t/m"
  {
    assert "s/"[0] == 's' && "t/"[0] == 't';
    assert "s/a"[2..] == "a" && "s/l"[2..] == "l" && "s/k"[2..] == "k" && "s/m"[2..] == "m";
    assert "t/" + "a" == "t/a" && "t/" + "l" == "t/l" && "t/" + "k" == "t/k" && "t/" + "m" == "t/m";
  }

  // One manifest under two versions.

  /** An encoder under which version 1 manifests are shorter. */
  function Encoder(): Obj -> Option<nat> {
    (o: Obj) => if o.Manifest? && o.version == 1 then Some(5) else Some(9)
  }

  function EncEnv(): Env {
    Env(Mapping, Encoder(), n => n)
  }

  function Named(version: int): ManifestFile {
    ManifestFile(version, "s/a", 5, 0, 1, 1, 1, DataManifest, [])
  }

  const Header: ListHeader := ListHeader(1, None, None, 0)
  const Two: seq<SnapshotJSON> := [SnapshotJSON(1, "s/k", []), SnapshotJSON(2, "s/l", [])]

  /** Snapshot 1 lists the manifest under version 1, snapshot 2 under version 2, as after a table upgrade. */
  function Upgraded(): Store {
    map[
      "s/m" := Blob(Meta(DocumentOf("s/", 2, Two)), 10),
      "s/k" := Blob(List(1, Header, [Named(1)]), 11),
      "s/l" := Blob(List(2, Header, [Named(2)]), 11),
      "s/a" := Blob(Manifest(1, DataManifest, 0, true, [DataAt("s/d")]), 5)]
  }

  lemma UpgradedStores()
    ensures {"s/m", "s/k", "s/l", "s/a"} <= Upgraded().Keys
    ensures Upgraded()["s/m"].obj == Meta(DocumentOf("s/", 2, Two))
    ensures Upgraded()["s/k"].obj == List(1, Header, [Named(1)]) && Upgraded()["s/l"].obj == List(2, Header, [Named(2)])
    ensures Upgraded()["s/a"] == Blob(Manifest(1, DataManifest, 0, true, [DataAt("s/d")]), 5)
  {
  }

  function Rewritten1(version: int): Obj {
    Manifest(version, DataManifest, 0, true, [DataAt("s/d").(file := MovedFile(Mapping, DataAt("s/d").file))])
  }

  lemma UpgradedManifest(version: int)
    ensures var r := PlanManifest(EncEnv(), Upgraded(), Named(version));
            && r.res.Success? && r.puts == [Put("t/a", Blob(Rewritten1(version), if version == 1 then 5 else 9))]
            && r.res.value.file.path == "t/a" && r.res.value.file.length == if version == 1 then 5 else 9
  {
    MappingLegal();
    UpgradedStores();
    hide Upgraded;
    DataEntry(EncEnv(), "s/a", Upgraded(), DataAt("s/d"));
    hide PlanEntry, PlanManifest;
    OneEntry(EncEnv(), Upgraded(), Named(version), 0, 1, DataAt("s/d"));
  }

  lemma UpgradedReads()
    ensures LoadMeta(Upgraded(), "s/m").Success? && Walked(LiveRun, Upgraded(), "s/m") == Two
    ensures forall snap | snap in Two :: TwinFree(Mapping, Upgraded(), snap) && SnapshotLengthsExact(Upgraded(), snap)
    ensures TwinFreeTable(Mapping, LiveRun, Upgraded(), "s/m")
  {
    DocumentParses("s/", 2, Two);
    MappingLegal();
    assert "s/a"[0] == 's' && "s/k"[0] == 's' && "s/l"[0] == 's' && "t/"[0] == 't';
    hide Parse, DocumentOf;
  }

  /** A snapshot of one list of one manifest, whose rewrite PUTs just that manifest. */
  ghost predicate OneOfEach(env: Env, s: Store, snap: SnapshotJSON, version: int, f: ManifestFile) {
    && snap.manifestList != "" && snap.manifests == []
    && env.m.Matches(snap.manifestList) && snap.manifestList in s
    && s[snap.manifestList].obj == List(version, Header, [f])
    && PlanManifest(env, s, f).res.Success?
    && |PlanManifest(env, s, f).puts| == 1
    && PlanManifest(env, s, f).puts[0].uri == PlanManifest(env, s, f).res.value.file.path
    && PlanManifest(env, s, f).puts[0].blob.size == PlanManifest(env, s, f).res.value.file.length
  }

  lemma OneOfEachWrites(env: Env, s: Store, snap: SnapshotJSON, version: int, f: ManifestFile)
    requires env.m.Legal() && EncodesAll(env) && OneOfEach(env, s, snap, version, f)
    ensures var r, a := PlanSnapshot(env, false, s, snap), PlanManifest(env, s, f);
            && r.res.Success? && |r.puts| == 2 && r.puts[0] == a.puts[0]
            && r.puts[1].uri == env.m.Apply(snap.manifestList)
            && r.puts[1].blob.obj == List(version, Header, [a.res.value.file])
  {
    hide PlanManifest, PlanList, PlanSnapshot;
    OneManifest(env, s, snap.manifestList, version, Header, f);
    ListOnly(env, s, snap);
  }

  lemma {:induction false} TwoSnapshots(env: Env, s: Store, a: SnapshotJSON, b: SnapshotJSON)
    requires env.m.Legal() && TwinFree(env.m, s, a) && TwinFree(env.m, s, b)
    requires PlanSnapshot(env, false, s, a).res.Success? && PlanSnapshot(env, false, s, b).res.Success?
    ensures PlanLoop(SnapshotStep(env, false), s, [a, b]).puts ==
            PlanSnapshot(env, false, s, a).puts + PlanSnapshot(env, false, s, b).puts
  {
    hide PlanSnapshot, TwinFree, Stable, After;
    var step := SnapshotStep(env, false);
    SnapshotsStable(env, false, s, [a, b]);
    SnapshotsStable(env, false, s, [b]);
    LoopUnthreaded(env.m, s, step, [a, b]);
    LoopUnthreaded(env.m, s, step, [b]);
    assert [a, b][1..] == [b] && [b][1..] == [];
    assert PlanLoop(step, s, []) == Run(Success(Nothing), []);
    assert step(s, a) == PlanSnapshot(env, false, s, a) && step(s, b) == PlanSnapshot(env, false, s, b);
    var p := PlanSnapshot(env, false, s, b).puts;
    assert p + [] == p;
  }

  /** Two such snapshots that share their manifest: the first list keeps naming it with the length of the first
      encoding, while the second is what is stored. */
  lemma SharedManifest(env: Env, opts: Options, s: Store, loc: Uri, a: SnapshotJSON, b: SnapshotJSON,
                       f: ManifestFile, g: ManifestFile)
    requires env.m.Legal() && EncodesAll(env) && !opts.dry && env.m.Matches(loc) && LoadMeta(s, loc).Success?
    requires Walked(opts, s, loc) == [a, b] && TwinFreeTable(env.m, opts, s, loc)
    requires OneOfEach(env, s, a, f.version, f) && OneOfEach(env, s, b, g.version, g)
    requires PlanManifest(env, s, f).res.value.file.path == PlanManifest(env, s, g).res.value.file.path
    requires var shared, k, l, m := PlanManifest(env, s, f).res.value.file.path,
               env.m.Apply(a.manifestList), env.m.Apply(b.manifestList), env.m.Apply(loc);
             shared != k && shared != l && shared != m && k != l && k != m
    ensures var run := PlanTable(env, opts, s, loc);
            var t, k, shared := After(s, run.puts), env.m.Apply(a.manifestList), PlanManifest(env, s, f).res.value.file;
            && run.res.Success? && k in t && t[k].obj == List(f.version, Header, [shared])
            && shared.path in t && t[shared.path].size == PlanManifest(env, s, g).res.value.file.length
  {
    hide PlanTable, PlanSnapshot, PlanManifest, PlanMeta, PlanLoop, After, LoadMeta, Walked, TwinFree, EncodesAll;
    OneOfEachWrites(env, s, a, f.version, f);
    OneOfEachWrites(env, s, b, g.version, g);
    assert a in [a, b] && b in [a, b];
    assert TwinFree(env.m, s, a) && TwinFree(env.m, s, b);
    hide TwinFreeTable, OneOfEach;
    TwoSnapshots(env, s, a, b);
    TableSucceeds(env, opts, s, loc);
    MetaUri(env, s, loc);
    var run := PlanTable(env, opts, s, loc);
    var w := PlanMeta(env, s, loc).puts;
    FourThenOne(s, run.puts, w);
  }

  lemma MetaUri(env: Env, s: Store, loc: Uri)
    ensures forall p | p in PlanMeta(env, s, loc).puts :: p.uri == env.m.Apply(loc)
  {
    hide RelocateDoc, WrittenDoc;
  }

  lemma FourThenOne(s: Store, puts: seq<Put>, rest: seq<Put>)
    requires |puts| == 4 + |rest| && puts[4..] == rest
    requires puts[0].uri == puts[2].uri && puts[0].uri != puts[1].uri && puts[0].uri != puts[3].uri && puts[1].uri != puts[3].uri
    requires forall p | p in rest :: p.uri != puts[0].uri && p.uri != puts[1].uri
    ensures var t := After(s, puts);
            && puts[0].uri in t && t[puts[0].uri] == puts[2].blob
            && puts[1].uri in t && t[puts[1].uri] == puts[1].blob
  {
    var a := s[puts[0].uri := puts[0].blob];
    var b := a[puts[1].uri := puts[1].blob];
    var c := b[puts[2].uri := puts[2].blob];
    var d := c[puts[3].uri := puts[3].blob];
    assert puts[1..][1..] == puts[2..] && puts[2..][1..] == puts[3..] && puts[3..][1..] == puts[4..];
    assert After(s, puts) == After(a, puts[1..]) == After(b, puts[2..]);
    assert After(b, puts[2..]) == After(c, puts[3..]) == After(d, rest);
    AfterFrame(d, rest, puts[0].uri);
    AfterFrame(d, rest, puts[1].uri);
  }

  /** Bottom-up closure without its condition on versions: the run succeeds, yet at its end the list it wrote first
      names the shared manifest with a length that it no longer has. */
  lemma TwoVersionsBreakClosure()
    ensures TwinFreeTable(Mapping, LiveRun, Upgraded(), "s/m")
    ensures forall snap | snap in Walked(LiveRun, Upgraded(), "s/m") :: SnapshotLengthsExact(Upgraded(), snap)
    ensures var run := PlanTable(EncEnv(), LiveRun, Upgraded(), "s/m");
            var t := After(Upgraded(), run.puts);
            && run.res.Success? && "t/k" in t && t["t/k"].obj.List? && |t["t/k"].obj.files| == 1
            && var f := t["t/k"].obj.files[0];
               f.path in t && f.length == 5 && t[f.path].size == 9
  {
    MappingLegal();
    UpgradedReads();
    UpgradedStores();
    UpgradedManifest(1);
    UpgradedManifest(2);
    assert EncodesAll(EncEnv());
    hide PlanTable, PlanManifest, TwinFreeTable, SnapshotLengthsExact, LoadMeta, Walked, Upgraded, Rewritten1, EncodesAll, After;
    SharedManifest(EncEnv(), LiveRun, Upgraded(), "s/m", Two[0], Two[1], Named(1), Named(2));
  }

  // A list that is read at the twin of another.

  const ReadFirst: SnapshotJSON := SnapshotJSON(1, "t/k", [])
  const WrittenLater: SnapshotJSON := SnapshotJSON(2, "s/k", [])

  /** Snapshot 1 lists the copy of the list that snapshot 2 lists. */
  function Mixed(): Store {
    map[
      "s/m" := Blob(Meta(DocumentOf("s/", 2, [ReadFirst, WrittenLater])), 10),
      "s/k" := Blob(List(2, Header, []), 9),
      "t/k" := Blob(List(2, Header, []), 9)]
  }

  /** What a crash in the middle of the PUT of t/k may leave. */
  const Damage: Put := Put("t/k", Blob(Junk, 0))

  function Damaged(): Store {
    Mixed()["t/k" := Damage.blob]
  }

  lemma MixedStores()
    ensures {"s/m", "s/k", "t/k"} <= Mixed().Keys && {"s/m", "s/k", "t/k"} <= Damaged().Keys
    ensures Mixed()["s/m"].obj == Meta(DocumentOf("s/", 2, [ReadFirst, WrittenLater])) && Damaged()["s/m"] == Mixed()["s/m"]
    ensures Mixed()["s/k"].obj == List(2, Header, []) && Mixed()["t/k"] == Mixed()["s/k"]
    ensures Damaged()["t/k"].obj == Junk
  {
  }

  lemma EmptyList(s: Store, uri: Uri)
    requires uri in s && s[uri].obj == List(2, Header, [])
    ensures var r := PlanList(PlainEnv(), false, s, uri);
            && r.res.Success?
            && r.puts == if Mapping.Apply(uri) != uri then [Put(Mapping.Apply(uri), Blob(List(2, Header, []), 9))] else []
  {
    assert PlanLoop(FileStep(PlainEnv(), false), s, []) == Run(Success(Nothing), []);
  }

  lemma MixedDocument(s: Store)
    requires "s/m" in s && s["s/m"] == Mixed()["s/m"]
    ensures LoadMeta(s, "s/m").Success? && Walked(LiveRun, s, "s/m") == [ReadFirst, WrittenLater]
    ensures var w := PlanMeta(PlainEnv(), s, "s/m"); w.res.Success? && |w.puts| == 1 && w.puts[0].uri == "t/m"
  {
    MixedStores();
    MappingLegal();
    hide Mixed;
    var snaps := [ReadFirst, WrittenLater];
    DocumentParses("s/", 2, snaps);
    DocumentMoves(Mapping, "s/", 2, snaps);
    hide Parse, DocumentOf, RelocateDoc, WrittenDoc;
  }

  lemma MixedSnapshots()
    ensures PlanSnapshot(PlainEnv(), false, Mixed(), ReadFirst).res.Success?
    ensures PlanSnapshot(PlainEnv(), false, Mixed(), ReadFirst).puts == []
    ensures PlanSnapshot(PlainEnv(), false, Mixed(), WrittenLater).res.Success?
    ensures PlanSnapshot(PlainEnv(), false, Mixed(), WrittenLater).puts == [Put("t/k", Blob(List(2, Header, []), 9))]
  {
    var env, s := PlainEnv(), Mixed();
    MixedStores();
    MappingLegal();
    assert Mapping.Apply("t/k") == "t/k" by { assert "t/k"[0] == 't' && "s/"[0] == 's'; }
    hide Mixed;
    EmptyList(s, "t/k");
    EmptyList(s, "s/k");
    hide PlanList, PlanSnapshot;
    ListOnly(env, s, ReadFirst);
    ListOnly(env, s, WrittenLater);
  }

  /** The walk from the store as it was: the copy is read, then the list is written over it. */
  lemma MixedWalk()
    ensures var walk := PlanLoop(SnapshotStep(PlainEnv(), false), Mixed(), [ReadFirst, WrittenLater]);
            walk.res.Success? && walk.puts == [Put("t/k", Blob(List(2, Header, []), 9))]
  {
    MixedSnapshots();
    var env, s, step, puts := PlainEnv(), Mixed(), SnapshotStep(PlainEnv(), false), [Put("t/k", Blob(List(2, Header, []), 9))];
    hide Mixed, PlanSnapshot, Plus;
    assert step(s, ReadFirst) == PlanSnapshot(env, false, s, ReadFirst);
    assert step(s, WrittenLater) == PlanSnapshot(env, false, s, WrittenLater);
    assert [ReadFirst, WrittenLater][1..] == [WrittenLater] && [WrittenLater][1..] == [] && After(s, []) == s;
    assert PlanLoop(step, After(s, puts), []) == Run(Success(Nothing), []);
    assert puts + [] == puts && [] + puts == puts;
    assert PlanLoop(step, s, [WrittenLater]).puts == puts;
  }

  lemma MixedRun()
    ensures var run := PlanTable(PlainEnv(), LiveRun, Mixed(), "s/m");
            run.res.Success? && |run.puts| == 2 && run.puts[0].uri == "t/k" && run.puts[1].uri == "t/m"
  {
    hide Mixed, LoadMeta, RelocateDoc, WalkHits, PlanLoop, After, PlanMeta, DocumentOf;
    var env, s := PlainEnv(), Mixed();
    MixedStores();
    MappingLegal();
    MixedDocument(s);
    MixedWalk();
    var puts := PlanLoop(SnapshotStep(env, false), s, [ReadFirst, WrittenLater]).puts;
    AfterFrame(s, puts, "s/m");
    MixedDocument(After(s, puts));
    hide Selected;
  }

  lemma DamagedStore()
    ensures After(Mixed(), [Damage]) == Damaged()
  {
    hide Mixed;
    assert [Damage][1..] == [] && After(Damaged(), []) == Damaged();
  }

  lemma ReadsTwin()
    ensures Twin(Mapping, Mixed(), "t/k") && !TwinFreeTable(Mapping, LiveRun, Mixed(), "s/m")
  {
    MixedStores();
    MixedDocument(Mixed());
    hide Mixed, Walked, DocumentOf;
    assert "t/k"[..2] == "t/" && "t/k"[2..] == "k" && "s/" + "k" == "s/k";
    assert ReadFirst in [ReadFirst, WrittenLater] && !TwinFree(Mapping, Mixed(), ReadFirst);
  }

  lemma DamagedStops()
    ensures PlanTable(PlainEnv(), LiveRun, Damaged(), "s/m") == Fail(Undecodable("t/k"))
  {
    var env, t := PlainEnv(), Damaged();
    MixedStores();
    MixedDocument(t);
    MappingLegal();
    hide Damaged, Mixed, DocumentOf, Parse;
    assert PlanSnapshot(env, false, t, ReadFirst) == Fail(Undecodable("t/k"));
    hide PlanSnapshot;
    assert PlanLoop(SnapshotStep(env, false), t, [ReadFirst, WrittenLater]) == Fail(Undecodable("t/k"));
    hide PlanLoop, Selected;
  }

  /** Resuming when a read is the twin of a stored object: the run succeeds, a crash damages the object it writes there,
      and the resumed run stops at that object, which it reads before it would write it again. */
  lemma TwinReadBreaksResume()
    ensures var s, env := Mixed(), PlainEnv();
            && Twin(Mapping, s, ReadFirst.manifestList) && !TwinFreeTable(Mapping, LiveRun, s, "s/m")
            && PlanTable(env, LiveRun, s, "s/m").res.Success?
            && Interrupted([Damage], PlanTable(env, LiveRun, s, "s/m").puts)
            && PlanTable(env, LiveRun, After(s, [Damage]), "s/m") == Fail(Undecodable("t/k"))
  {
    hide Mixed, Damaged, PlanTable, After, TwinFreeTable, Twin;
    MixedRun();
    DamagedStore();
    ReadsTwin();
    DamagedStops();
  }

  // A clean dry run before a live run that fails.

  /** The one manifest lies outside the prefix, its one data file inside. */
  function Roaming(): Store {
    map[
      "s/m" := Blob(Meta(DocumentOf("s/", 1, [OneList])), 10),
      "s/l" := Blob(List(2, Header, [ManifestAt("x/a", DataManifest)]), 11),
      "x/a" := Blob(Manifest(2, DataManifest, 0, true, [DataAt("s/d")]), 5)]
  }

  lemma RoamingStores()
    ensures {"s/m", "s/l", "x/a"} <= Roaming().Keys
    ensures Roaming()["s/m"].obj == Meta(DocumentOf("s/", 1, [OneList]))
    ensures Roaming()["s/l"].obj == List(2, Header, [ManifestAt("x/a", DataManifest)])
    ensures Roaming()["x/a"].obj == Manifest(2, DataManifest, 0, true, [DataAt("s/d")])
    ensures Mapping.Legal() && Mapping.Matches("s/d") && Mapping.Matches("s/m") && !Mapping.Matches("x/a")
  {
    MappingLegal();
    assert "x/a"[0] == 'x' && "s/"[0] == 's';
  }

  lemma RoamingFile()
    ensures PlanFile(PlainEnv(), true, Roaming(), ManifestAt("x/a", DataManifest)).res.Success?
    ensures PlanFile(PlainEnv(), true, Roaming(), ManifestAt("x/a", DataManifest)).puts == []
    ensures PlanFile(PlainEnv(), false, Roaming(), ManifestAt("x/a", DataManifest)) == Fail(OutsidePrefix("x/a"))
  {
    RoamingStores();
    hide Roaming;
    var env, s, f, e := PlainEnv(), Roaming(), ManifestAt("x/a", DataManifest), DataAt("s/d");
    DataEntry(env, "x/a", s, e);
    hide PlanEntry;
    var walk, step := WalkStep(env, "x/a"), EntryStep(env, "x/a");
    assert [e][1..] == [] && After(s, []) == s;
    assert walk(s, e).res.Success? && walk(s, e).puts == [] && step(s, e) == PlanEntry(env, "x/a", s, e);
    assert PlanLoop(walk, s, []) == Run(Success(Nothing), []) && PlanLoop(step, s, []) == Run(Success(Nothing), []);
    assert PlanLoop(walk, s, [e]).res.Success? && PlanLoop(walk, s, [e]).puts == [];
    assert PlanLoop(step, s, [e]).res.Success? && PlanLoop(step, s, [e]).res.value.changed && PlanLoop(step, s, [e]).puts == [];
  }

  lemma RoamingList()
    ensures PlanList(PlainEnv(), true, Roaming(), "s/l").res.Success? && PlanList(PlainEnv(), true, Roaming(), "s/l").puts == []
    ensures PlanList(PlainEnv(), false, Roaming(), "s/l") == Fail(OutsidePrefix("x/a"))
  {
    RoamingStores();
    RoamingFile();
    hide Roaming, PlanFile, ListHits;
    var env, s, f := PlainEnv(), Roaming(), ManifestAt("x/a", DataManifest);
    var dry, live := FileStep(env, true), FileStep(env, false);
    assert [f][1..] == [] && After(s, []) == s;
    assert dry(s, f) == PlanFile(env, true, s, f) && live(s, f) == PlanFile(env, false, s, f);
    assert PlanLoop(dry, s, []) == Run(Success(Nothing), []);
    assert PlanLoop(dry, s, [f]).res.Success? && PlanLoop(dry, s, [f]).puts == [];
    assert PlanLoop(live, s, [f]) == Fail(OutsidePrefix("x/a"));
  }

  /** The dry run on this table finds nothing wrong; the live run refuses the manifest. */
  lemma CleanDryRunFails()
    ensures PlanTable(PlainEnv(), Options(false, true), Roaming(), "s/m").res.Success?
    ensures PlanTable(PlainEnv(), LiveRun, Roaming(), "s/m") == Fail(OutsidePrefix("x/a"))
  {
    RoamingStores();
    RoamingList();
    DocumentParses("s/", 1, [OneList]);
    hide Roaming, PlanList, Parse, DocumentOf, WalkHits;
    var env, s := PlainEnv(), Roaming();
    var dry, live := SnapshotStep(env, true), SnapshotStep(env, false);
    assert PlanLoop(FlatStep(env, true, 1), After(s, []), []) == Run(Success(Nothing), []);
    assert PlanSnapshot(env, true, s, OneList).res.Success?;
    assert PlanSnapshot(env, false, s, OneList) == Fail(OutsidePrefix("x/a"));
    hide PlanSnapshot, After;
    assert [OneList][1..] == [];
    assert dry(s, OneList) == PlanSnapshot(env, true, s, OneList) && live(s, OneList) == PlanSnapshot(env, false, s, OneList);
    assert PlanLoop(dry, After(s, dry(s, OneList).puts), []) == Run(Success(Nothing), []);
    assert PlanLoop(dry, s, [OneList]).res.Success?;
    assert PlanLoop(live, s, [OneList]) == Fail(OutsidePrefix("x/a"));
    assert LoadMeta(s, "s/m") == Success(Bare("s/", 1, [OneList]));
    assert Selected(Bare("s/", 1, [OneList]), false) == [OneList];
  }

  // A manifest left behind.

  /** The store without the source prefix. */
  function Retire(m: PrefixMapping, t: Store): Store {
    map u | u in t && !m.Matches(u) :: t[u]
  }

  /** The writes of one snapshot finish it, with the source in place and without. */
  lemma RunLeaves(env: Env, ver: Versions, s: Store, snap: SnapshotJSON)
    requires env.m.Legal() && Copied(env.m, s) && TwinFree(env.m, s, snap) && VersionsAgree(ver, s, snap)
    ensures var puts := PlanSnapshot(env, false, s, snap).puts;
            var t := After(s, puts);
            && Finished(env, ver, false, s, t, puts)
            && Finished(env, ver, true, s, Retire(env.m, t), puts) && NoSource(env.m, Retire(env.m, t))
  {
    hide PlanSnapshot, TwinFree, VersionsAgree, Canonical, Copied;
    SnapshotCanonical(env, ver, s, snap);
    var puts := PlanSnapshot(env, false, s, snap).puts;
    var t := After(s, puts);
    FinishedAlone(env, ver, false, s, t, puts);
    FinishedAlone(env, ver, true, s, Retire(env.m, t), puts);
  }

  function PlainEnv(): Env {
    Env(Mapping, o => Some(9), n => n)
  }

  const OneList: SnapshotJSON := SnapshotJSON(1, "s/l", [])
  const AllTwo: Versions := u => 2

  function ManifestAt(path: Uri, content: ManifestContent): ManifestFile {
    ManifestFile(2, path, 5, 0, 1, 1, 1, content, [])
  }

  /** The one manifest lies in the prefix, its one data file does not. */
  function Stray(): Store {
    map[
      "s/l" := Blob(List(2, Header, [ManifestAt("s/a", DataManifest)]), 11),
      "t/l" := Blob(List(2, Header, [ManifestAt("s/a", DataManifest)]), 11),
      "s/a" := Blob(Manifest(2, DataManifest, 0, true, [DataAt("x/d")]), 5),
      "t/a" := Blob(Manifest(2, DataManifest, 0, true, [DataAt("x/d")]), 5),
      "x/d" := Blob(DataBody([7]), 3)]
  }

  lemma StrayStores()
    ensures Stray().Keys == {"s/l", "t/l", "s/a", "t/a", "x/d"}
    ensures Stray()["t/l"] == Stray()["s/l"] && Stray()["t/a"] == Stray()["s/a"]
    ensures Stray()["s/l"].obj == List(2, Header, [ManifestAt("s/a", DataManifest)])
    ensures Stray()["s/a"] == Blob(Manifest(2, DataManifest, 0, true, [DataAt("x/d")]), 5)
    ensures Stray()["x/d"] == Blob(DataBody([7]), 3)
  {
  }

  lemma StrayCopied()
    ensures Copied(Mapping, Stray())
  {
    MappingLegal();
    StrayStores();
    hide Stray;
    forall u | u in Stray() && Mapping.Matches(u) ensures Mapping.Apply(u) in Stray() && Stray()[Mapping.Apply(u)] == Stray()[u] {
      assert u[0] == 's' && "t/l"[0] == 't' && "t/a"[0] == 't' && "x/d"[0] == 'x';
      assert u == "s/l" || u == "s/a";
    }
  }

  lemma StrayClean()
    ensures CleanSnapshot(Mapping, Stray(), OneList) && VersionsAgree(AllTwo, Stray(), OneList)
    ensures TwinFree(Mapping, Stray(), OneList)
    ensures !ListHomed(Mapping, Stray(), OneList)
  {
    MappingLegal();
    StrayStores();
    assert "s/l"[0] == 's' && "s/a"[0] == 's' && "x/d"[0] == 'x' && "t/"[0] == 't' && "s/"[0] == 's';
    hide Stray;
    OneListed(Stray(), OneList, ManifestAt("s/a", DataManifest), DataAt("x/d"));
    OffTargetReads(Mapping, Stray(), [LiveEntry(DataAt("x/d").file, 1)]);
    assert CleanEntries(Mapping, Stray(), [LiveEntry(DataAt("x/d").file, 1)]);
    hide SnapshotEntries;
    assert !Touches(Mapping, DataAt("x/d").file);
    assert !Homed(Mapping, Stray(), "s/a");
  }

  lemma StraySucceeds()
    ensures PlanSnapshot(PlainEnv(), false, Stray(), OneList).res.Success?
  {
    MappingLegal();
    StrayStores();
    assert EncodesAll(PlainEnv());
    assert PlanEntry(PlainEnv(), "s/a", Stray(), DataAt("x/d")).res.Success?;
    assert "s/a"[0] == 's' && "t/"[0] == 't';
    hide Stray, EncodesAll, PlanEntry;
    OneEntrySucceeds(PlainEnv(), Stray(), ManifestAt("s/a", DataManifest), 0, 2, DataAt("x/d"));
    hide PlanManifest, PlanList, PlanSnapshot;
    ListSucceeds(PlainEnv(), Stray(), "s/l");
    ListOnly(PlainEnv(), Stray(), OneList);
  }

  /** The moved snapshot reads as before while the source is there; once it is retired, it cannot be read. */
  lemma StrayManifestLost()
    ensures var t := After(Stray(), PlanSnapshot(PlainEnv(), false, Stray(), OneList).puts);
            var moved := MovedUris(Mapping, OneList, 1);
            && PlanSnapshot(PlainEnv(), false, Stray(), OneList).res.Success?
            && ReadSnapshot(false, Stray(), OneList).Some?
            && ReadSnapshot(false, t, moved) == ReadSnapshot(false, Stray(), OneList)
            && ReadSnapshot(false, Retire(Mapping, t), moved).None?
  {
    MappingLegal();
    StrayCopied();
    StrayClean();
    StraySucceeds();
    hide Stray, PlanSnapshot, CleanSnapshot, TwinFree, VersionsAgree, ListHomed, Finished, NoSource, Retire, ReadSnapshot, Copied, After;
    var s, env, ver := Stray(), PlainEnv(), AllTwo;
    RunLeaves(env, ver, s, OneList);
    var puts := PlanSnapshot(env, false, s, OneList).puts;
    SnapshotPreserved(env, ver, false, s, After(s, puts), puts, OneList, 1);
    SnapshotReadIff(env, ver, s, Retire(env.m, After(s, puts)), puts, OneList, 1);
  }

  // A delete left behind.

  const DeleteAt: Entry :=
    Entry(Added, Some(1), Some(2), FileInfo(PosDeletes, "x/p", None, 4, None, None, None, None, 0, 1))

  const Cols: seq<NamedCol> := [NamedCol("file_path", StrCol([[Some("s/d")]])), NamedCol("pos", NumCol([[0]]))]

  /** Row 0 of the data file, which is in the prefix, is deleted by a delete file that is not. */
  function Outside(): Store {
    map[
      "s/l" := Blob(List(2, Header, [ManifestAt("s/a", DataManifest), ManifestAt("x/q", DeleteManifest)]), 11),
      "t/l" := Blob(List(2, Header, [ManifestAt("s/a", DataManifest), ManifestAt("x/q", DeleteManifest)]), 11),
      "s/a" := Blob(Manifest(2, DataManifest, 0, true, [DataAt("s/d")]), 5),
      "t/a" := Blob(Manifest(2, DataManifest, 0, true, [DataAt("s/d")]), 5),
      "x/q" := Blob(Manifest(2, DeleteManifest, 0, true, [DeleteAt]), 5),
      "s/d" := Blob(DataBody([70, 80]), 3),
      "t/d" := Blob(DataBody([70, 80]), 3),
      "x/p" := Blob(DelBody(Cols), 4)]
  }

  const DataLive: LiveEntry := LiveEntry(DataAt("s/d").file, 1)
  const DeleteLive: LiveEntry := LiveEntry(DeleteAt.file, 2)

  lemma OutsideStores()
    ensures Outside().Keys == {"s/l", "t/l", "s/a", "t/a", "s/d", "t/d", "x/q", "x/p"}
    ensures Outside()["t/l"] == Outside()["s/l"] && Outside()["t/a"] == Outside()["s/a"] && Outside()["t/d"] == Outside()["s/d"]
    ensures Outside()["s/l"].obj == List(2, Header, [ManifestAt("s/a", DataManifest), ManifestAt("x/q", DeleteManifest)])
    ensures Outside()["s/a"] == Blob(Manifest(2, DataManifest, 0, true, [DataAt("s/d")]), 5)
    ensures Outside()["x/q"] == Blob(Manifest(2, DeleteManifest, 0, true, [DeleteAt]), 5)
    ensures Outside()["s/d"] == Blob(DataBody([70, 80]), 3) && Outside()["x/p"] == Blob(DelBody(Cols), 4)
  {
  }

  lemma OutsideCopied()
    ensures Copied(Mapping, Outside())
  {
    MappingLegal();
    OutsideStores();
    hide Outside;
    assert "s/d"[2..] == "d" && "t/" + "d" == "t/d";
    forall u | u in Outside() && Mapping.Matches(u)
      ensures Mapping.Apply(u) in Outside() && Outside()[Mapping.Apply(u)] == Outside()[u]
    {
      assert u[0] == 's' && "t/l"[0] == 't' && "t/a"[0] == 't' && "t/d"[0] == 't' && "x/q"[0] == 'x' && "x/p"[0] == 'x';
      assert u == "s/l" || u == "s/a" || u == "s/d";
    }
  }

  lemma ColsRead()
    ensures FilePaths(Cols) == Some([Some("s/d")]) && Positions(Cols) == Some([0])
  {
    assert Cols[..1] == [Cols[0]] && Cols[..1][..0] == [];
    assert FieldIndices([], "file_path") == [] && FieldIndices([], "pos") == [];
    assert FieldIndices(Cols[..1], "file_path") == [0] && FieldIndices(Cols[..1], "pos") == [];
    assert FieldIndices(Cols, "file_path") == [0] && FieldIndices(Cols, "pos") == [1];
    OneChunk([Some("s/d")]);
    OneChunk([0]);
  }

  lemma OutsideEntries()
    ensures SnapshotEntries(Outside(), OneList) == Some([DataLive, DeleteLive])
    ensures TwinFree(Mapping, Outside(), OneList) && VersionsAgree(AllTwo, Outside(), OneList)
  {
    OutsideStores();
    MappingLegal();
    assert "s/l"[0] == 's' && "s/a"[0] == 's' && "x/q"[0] == 'x' && "t/"[0] == 't';
    hide Outside;
    var s := Outside();
    var f, g := ManifestAt("s/a", DataManifest), ManifestAt("x/q", DeleteManifest);
    assert [DataAt("s/d")][1..] == [] && [DeleteAt][1..] == [] && [f, g][1..] == [g] && [g][1..] == [];
    assert Live([DataAt("s/d")], 1) == [DataLive] && Live([DeleteAt], 1) == [DeleteLive];
    assert ManifestEntries(s, f) == Some([DataLive]) && ManifestEntries(s, g) == Some([DeleteLive]);
    hide ManifestEntries;
    assert ListEntries(s, []) == Some([]) && FlatEntries(s, []) == Some([]);
    assert ListEntries(s, [g]) == Some([DeleteLive]);
    assert [DataLive] + [DeleteLive] == [DataLive, DeleteLive] && [DataLive, DeleteLive] + [] == [DataLive, DeleteLive];
    assert ListEntries(s, [f, g]) == Some([DataLive, DeleteLive]);
  }

  lemma OutsideFiles()
    ensures ReadableEntries(Mapping, Outside(), [DataLive, DeleteLive])
  {
    OutsideStores();
    MappingLegal();
    ColsRead();
    assert "s/d"[0] == 's' && "x/p"[0] == 'x' && "t/"[0] == 't';
    hide Outside, FilePaths, Positions, ReadableEntries;
    OffTargetReads(Mapping, Outside(), [DataLive, DeleteLive]);
  }

  lemma OutsideSucceeds()
    ensures PlanSnapshot(PlainEnv(), false, Outside(), OneList).res.Success?
  {
    MappingLegal();
    OutsideStores();
    assert EncodesAll(PlainEnv());
    assert "s/a"[0] == 's' && "x/q"[0] == 'x' && "t/"[0] == 't' && "x/p"[0] == 'x' && !IsPuffin("x/p");
    hide Outside, EncodesAll;
    DataEntry(PlainEnv(), "s/a", Outside(), DataAt("s/d"));
    OneEntrySucceeds(PlainEnv(), Outside(), ManifestAt("s/a", DataManifest), 0, 2, DataAt("s/d"));
    UntouchedDelete();
    hide PlanManifest, PlanList, PlanSnapshot, PlanEntry;
    ListSucceeds(PlainEnv(), Outside(), "s/l");
    ListOnly(PlainEnv(), Outside(), OneList);
  }

  lemma UntouchedDelete()
    ensures PlanManifest(PlainEnv(), Outside(), ManifestAt("x/q", DeleteManifest)).res.Success?
  {
    OutsideStores();
    assert "x/p"[0] == 'x' && "s/"[0] == 's' && !IsPuffin("x/p");
    hide Outside, IsPuffin;
    OutsideDelete(PlainEnv(), "x/q", Outside(), DeleteAt);
    hide PlanEntry;
    OneEntryUnchanged(PlainEnv(), Outside(), ManifestAt("x/q", DeleteManifest), 0, 2, DeleteAt);
  }

  lemma RowZeroReturns()
    ensures Complete(Outside(), [DataLive, DeleteLive])
    ensures Returns(Mapping, Outside(), [DataLive, DeleteLive], DataLive, 0, 70)
  {
    OutsideFiles();
    OutsideStores();
    MappingLegal();
    ColsRead();
    assert "x/p"[0] == 'x' && "s/"[0] == 's';
    hide Outside, FilePaths, Positions, AllKeptApart, Twin;
    var s, es := Outside(), [DataLive, DeleteLive];
    assert FilePaths(Cols).value[0] == Some("s/d") && Positions(Cols).value[0] == 0;
    assert MarksRow(Cols, "s/d", 0);
    assert Removes(false, s, DeleteLive, DataLive, 0, 70);
    assert DeleteLive in es;
    assert !Removes(false, s, DataLive, DataLive, 0, 70);
    assert Lapses(Mapping, DeleteLive.file, DataLive.file);
  }

  /** The run succeeds, and the deleted row is live in the moved snapshot. */
  lemma DeletedRowReturns()
    ensures var t := After(Outside(), PlanSnapshot(PlainEnv(), false, Outside(), OneList).puts);
            var moved := MovedUris(Mapping, OneList, 1);
            && PlanSnapshot(PlainEnv(), false, Outside(), OneList).res.Success?
            && ReadSnapshot(false, t, moved) != ReadSnapshot(false, Outside(), OneList)
  {
    MappingLegal();
    OutsideCopied();
    OutsideEntries();
    OutsideFiles();
    OutsideSucceeds();
    RowZeroReturns();
    OutsideStores();
    hide Outside, PlanSnapshot, TwinFree, VersionsAgree, Finished, NoSource, Retire, ReadSnapshot, Copied, After,
      SnapshotEntries, ReadableEntries, Returns, ListHomed;
    var s, env, ver, es := Outside(), PlainEnv(), AllTwo, [DataLive, DeleteLive];
    RunLeaves(env, ver, s, OneList);
    var puts := PlanSnapshot(env, false, s, OneList).puts;
    SnapshotPreservedIff(env, ver, false, s, After(s, puts), puts, OneList, 1);
    assert es[0] == DataLive && s["s/d"].obj.rows[0] == 70;
    assert !NoneReturns(Mapping, s, es, DataLive, s["s/d"].obj.rows);
    assert !NoRowReturns(Mapping, s, es);
  }
}
