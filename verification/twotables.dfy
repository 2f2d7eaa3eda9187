/** Two tables in one store that meet the joint hypotheses of the batch theorem. */
module TwoTables {
  import opened Wrappers
  import opened Prefix
  import opened Json
  import opened Metadata
  import opened Graph
  import opened Plan
  import opened PlanFacts
  import opened Closure
  import opened Scan
  import opened Preserve
  import opened Swap
  import opened Migrate
  import opened Batch
  import opened SmallTables

  const Mapping: PrefixMapping := PrefixMapping("s/", "t/")
  const Plain: Env := Env(Mapping, o => Some(9), n => n)
  const AllTwo: Versions := u => 2
  const Live: Options := Options(false, false)

  /** The objects of a plain table: its document, one list, one manifest, one data file. */
  datatype Names = Names(meta: Uri, list: Uri, manifest: Uri, data: Uri)

  function SnapOf(n: Names): SnapshotJSON {
    SnapshotJSON(1, n.list, [])
  }

  function FileOf(n: Names): ManifestFile {
    ManifestFile(2, n.manifest, 5, 0, 1, 1, 1, DataManifest, [])
  }

  function EntryOf(n: Names): Entry {
    Entry(Added, Some(1), None, FileInfo(Content.Data, n.data, None, 3, None, None, None, None, 0, 1))
  }

  const Header: ListHeader := ListHeader(1, None, Some(1), 0)

  function DocOf(n: Names): Blob {
    Blob(Meta(DocumentOf("s/", 1, [SnapOf(n)])), 10)
  }

  function ListOf(n: Names): Blob {
    Blob(List(2, Header, [FileOf(n)]), 11)
  }

  function ManifestOf(n: Names): Blob {
    Blob(Manifest(2, DataManifest, 0, true, [EntryOf(n)]), 5)
  }

  const Rows: Blob := Blob(DataBody([7]), 3)

  ghost predicate PlainObjects(s: Store, n: Names) {
    && {n.meta, n.list, n.manifest, n.data} <= s.Keys
    && s[n.meta] == DocOf(n) && s[n.list] == ListOf(n) && s[n.manifest] == ManifestOf(n) && s[n.data] == Rows
    && (forall u | u in {n.meta, n.list, n.manifest, n.data} :: Mapping.Matches(u) && !Mapping.UnderTarget(u))
    && n.list != ""
  }

  /** A plain table, bulk-copied, in a store that may hold others. */
  ghost predicate PlainTable(s: Store, n: Names) {
    PlainObjects(s, n) && Copied(Mapping, s)
  }

  lemma MappingLegal()
    ensures Mapping.Legal() && Mapping.Matches("s/")
  {
    assert "s/"[0] == 's' && "t/"[0] == 't';
  }

  lemma PlainLoads(s: Store, n: Names)
    requires PlainTable(s, n)
    ensures LoadMeta(s, n.meta) == Success(Bare("s/", 1, [SnapOf(n)])) && Walked(Live, s, n.meta) == [SnapOf(n)]
    ensures MetaMoves(Mapping, s, n.meta)
  {
    MappingLegal();
    DocumentParses("s/", 1, [SnapOf(n)]);
    DocumentMoves(Mapping, "s/", 1, [SnapOf(n)]);
    hide Parse, DocumentOf, RelocateDoc;
  }

  lemma PlainClean(s: Store, n: Names)
    requires PlainTable(s, n)
    ensures TwinFree(Mapping, s, SnapOf(n)) && CleanSnapshot(Mapping, s, SnapOf(n)) && VersionsAgree(AllTwo, s, SnapOf(n))
  {
    OneListed(s, SnapOf(n), FileOf(n), EntryOf(n));
    hide SnapshotEntries;
    OffTargetReads(Mapping, s, [LiveEntry(EntryOf(n).file, 1)]);
    assert CleanEntries(Mapping, s, [LiveEntry(EntryOf(n).file, 1)]);
  }

  function SetupOf(s: Store, id: Identifier, n: Names): Setup {
    Setup(Plain, AllTwo, Live, s, id, n.meta)
  }

  /** The one snapshot is current. */
  lemma PlainCurrent(n: Names)
    ensures CurrentKept(Plain.num, Bare("s/", 1, [SnapOf(n)]))
  {
    assert FirstWithId([SnapOf(n)], 1) == Some(0);
  }

  lemma PlainSound(s: Store, id: Identifier, n: Names)
    requires PlainTable(s, n)
    ensures Sound(SetupOf(s, id, n))
  {
    hide LoadMeta, CurrentKept, Walked, TwinFree, CleanSnapshot, VersionsAgree, Copied, DocOf, ListOf, ManifestOf, MetaMoves;
    MappingLegal();
    PlainLoads(s, n);
    PlainClean(s, n);
    PlainCurrent(n);
    var x := SetupOf(s, id, n);
    assert TwinFreeTable(Mapping, Live, s, n.meta);
    assert Orderly(Mapping, AllTwo, Live, s, n.meta);
    assert Preservable(x.env, x.ver, x.opts, x.s0, x.loc);
  }

  lemma PlainEncodes()
    ensures EncodesAll(Plain)
  {
  }

  lemma PlainManifest(s: Store, n: Names)
    requires PlainTable(s, n)
    ensures var r := PlanManifest(Plain, s, FileOf(n)); r.res.Success? && |r.puts| == 1 && r.puts[0].uri == Mapping.Apply(n.manifest)
  {
    hide PlanEntry, PlanManifest, DocOf, ListOf, Copied, EncodesAll;
    MappingLegal();
    PlainEncodes();
    DataEntry(Plain, n.manifest, s, EntryOf(n));
    OneEntry(Plain, s, FileOf(n), 0, 2, EntryOf(n));
  }

  lemma PlainSnapshot(s: Store, n: Names)
    requires PlainTable(s, n)
    ensures var r := PlanSnapshot(Plain, false, s, SnapOf(n));
            && r.res.Success? && |r.puts| == 2
            && r.puts[0].uri == Mapping.Apply(n.manifest) && r.puts[1].uri == Mapping.Apply(n.list)
  {
    hide PlanManifest, PlanList, PlanSnapshot, DocOf, ManifestOf, Copied, EncodesAll;
    MappingLegal();
    PlainEncodes();
    PlainManifest(s, n);
    OneManifest(Plain, s, n.list, 2, Header, FileOf(n));
    ListOnly(Plain, s, SnapOf(n));
  }

  /** The run over a plain table PUTs its manifest, its list and its document, and nothing else. */
  lemma PlainWrites(s: Store, id: Identifier, n: Names)
    requires PlainTable(s, n)
    ensures Planned(SetupOf(s, id, n)).res.Success?
    ensures WriteSet(Planned(SetupOf(s, id, n)).puts) ==
            {Mapping.Apply(n.manifest), Mapping.Apply(n.list), Mapping.Apply(n.meta)}
  {
    hide PlainTable, PlanTable, WriteSet;
    PlainRun(s, n);
    ThreeWrites(PlanTable(Plain, Live, s, n.meta).puts);
  }

  lemma PlainRun(s: Store, n: Names)
    requires PlainTable(s, n)
    ensures var r := PlanTable(Plain, Live, s, n.meta);
            && r.res.Success? && |r.puts| == 3
            && r.puts[0].uri == Mapping.Apply(n.manifest) && r.puts[1].uri == Mapping.Apply(n.list)
            && r.puts[2].uri == Mapping.Apply(n.meta)
  {
    PlainRuns(s, n);
    hide PlainTable, PlanSnapshot, PlanTable, PlanLoop, PlanMeta, MetaMoves, LoadMeta, Walked;
    PlainLoads(s, n);
    PlainSnapshot(s, n);
    OneSnapshot(s, SnapOf(n));
    OneDocument(s, n);
  }

  lemma InPrefix(s: Store, n: Names)
    requires PlainTable(s, n)
    ensures Mapping.Matches(n.meta)
  {
    hide DocOf, ListOf, ManifestOf, Copied, Mapping;
  }

  lemma PlainRuns(s: Store, n: Names)
    requires PlainTable(s, n)
    ensures PlanTable(Plain, Live, s, n.meta).res.Success?
    ensures PlanTable(Plain, Live, s, n.meta).puts ==
            PlanLoop(SnapshotStep(Plain, false), s, [SnapOf(n)]).puts + PlanMeta(Plain, s, n.meta).puts
  {
    hide PlainTable, EncodesAll, LoadMeta, Walked, TwinFree, CleanSnapshot, VersionsAgree, MetaMoves, PlanSnapshot, PlanTable,
      PlanLoop, PlanMeta;
    InPrefix(s, n);
    MappingLegal();
    PlainEncodes();
    PlainLoads(s, n);
    PlainClean(s, n);
    PlainSnapshot(s, n);
    TableSucceeds(Plain, Live, s, n.meta);
  }

  lemma ThreeWrites(puts: seq<Put>)
    requires |puts| == 3
    ensures WriteSet(puts) == {puts[0].uri, puts[1].uri, puts[2].uri}
  {
    assert puts == [puts[0], puts[1], puts[2]];
  }

  lemma OneSnapshot(s: Store, snap: SnapshotJSON)
    requires PlanSnapshot(Plain, false, s, snap).res.Success?
    ensures PlanLoop(SnapshotStep(Plain, false), s, [snap]).puts == PlanSnapshot(Plain, false, s, snap).puts
  {
    hide PlanSnapshot;
    var step, a := SnapshotStep(Plain, false), PlanSnapshot(Plain, false, s, snap);
    assert step(s, snap) == a && [snap][1..] == [];
    assert PlanLoop(step, After(s, a.puts), []) == Run(Success(Nothing), []);
    assert a.puts + [] == a.puts;
  }

  lemma OneDocument(s: Store, n: Names)
    requires PlainTable(s, n) && MetaMoves(Mapping, s, n.meta)
    ensures |PlanMeta(Plain, s, n.meta).puts| == 1 && PlanMeta(Plain, s, n.meta).puts[0].uri == Mapping.Apply(n.meta)
  {
    hide RelocateDoc, WrittenDoc, DocumentOf;
  }

  // The two tables.

  const First: Names := Names("s/m", "s/l", "s/a", "s/d")
  const Second: Names := Names("s/n", "s/k", "s/b", "s/e")
  const FirstId: Identifier := Identifier(["n"], "one")
  const SecondId: Identifier := Identifier(["n"], "two")

  function Sources(): Store {
    map[
      "s/m" := DocOf(First), "s/l" := ListOf(First), "s/a" := ManifestOf(First), "s/d" := Rows,
      "s/n" := DocOf(Second), "s/k" := ListOf(Second), "s/b" := ManifestOf(Second), "s/e" := Rows]
  }

  function Both(): Store {
    WithCopies(Mapping, Sources())
  }

  function Pair(): Fleet {
    Fleet(Plain, AllTwo, Live, Both(), map[FirstId := First.meta, SecondId := Second.meta])
  }

  const Before: State := State(Unknown, map[FirstId := First.meta, SecondId := Second.meta])

  lemma Images()
    ensures Mapping.Apply("s/m") == "t/m" && Mapping.Apply("s/l") == "t/l" && Mapping.Apply("s/a") == "t/a"
    ensures Mapping.Apply("s/n") == "t/n" && Mapping.Apply("s/k") == "t/k" && Mapping.Apply("s/b") == "t/b"
  {
    MappingLegal();
    assert "s/m"[2..] == "m" && "s/l"[2..] == "l" && "s/a"[2..] == "a" && "t/" + "m" == "t/m" && "t/" + "l" == "t/l" && "t/" + "a" == "t/a";
    assert "s/n"[2..] == "n" && "s/k"[2..] == "k" && "s/b"[2..] == "b" && "t/" + "n" == "t/n" && "t/" + "k" == "t/k" && "t/" + "b" == "t/b";
  }

  lemma SourcesStored()
    ensures PlainObjects(Sources(), First) && PlainObjects(Sources(), Second)
    ensures forall u | u in Sources() :: !Mapping.UnderTarget(u)
  {
    hide DocOf, ListOf, ManifestOf;
    assert "t/"[0] == 't';
  }

  lemma CopiesPlain(s: Store, n: Names)
    requires Mapping.Legal() && PlainObjects(s, n) && forall u | u in s :: !Mapping.UnderTarget(u)
    ensures PlainTable(WithCopies(Mapping, s), n)
  {
    hide WithCopies, Copied, DocOf, ListOf, ManifestOf;
    CopiesMade(Mapping, s);
  }

  lemma BothPlain()
    ensures PlainTable(Both(), First) && PlainTable(Both(), Second)
  {
    SourcesStored();
    MappingLegal();
    hide Sources, WithCopies, Copied, PlainObjects, PlainTable;
    CopiesPlain(Sources(), First);
    CopiesPlain(Sources(), Second);
  }

  /** The runs write at different URIs. */
  lemma ImagesDiffer()
    ensures {Mapping.Apply(First.manifest), Mapping.Apply(First.list), Mapping.Apply(First.meta)} !!
            {Mapping.Apply(Second.manifest), Mapping.Apply(Second.list), Mapping.Apply(Second.meta)}
  {
    Images();
    assert "t/m"[2] == 'm' && "t/l"[2] == 'l' && "t/a"[2] == 'a' && "t/n"[2] == 'n' && "t/k"[2] == 'k' && "t/b"[2] == 'b';
  }

  /** Both meet the conditions of a sound migration, and their runs succeed and write apart. */
  lemma BothSound()
    ensures Sound(Pair().Of(FirstId)) && Planned(Pair().Of(FirstId)).res.Success?
    ensures Sound(Pair().Of(SecondId)) && Planned(Pair().Of(SecondId)).res.Success?
    ensures WriteSet(Planned(Pair().Of(FirstId)).puts) !! WriteSet(Planned(Pair().Of(SecondId)).puts)
  {
    hide Both, PlainTable, Sound, Planned, WriteSet;
    BothPlain();
    ImagesDiffer();
    PlainSound(Both(), FirstId, First);
    PlainSound(Both(), SecondId, Second);
    PlainWrites(Both(), FirstId, First);
    PlainWrites(Both(), SecondId, Second);
    PairOf();
  }

  lemma PairOf()
    ensures Pair().locs.Keys == {FirstId, SecondId} && FirstId != SecondId && |Pair().locs| == 2
    ensures Pair().Of(FirstId) == SetupOf(Both(), FirstId, First) && Pair().Of(SecondId) == SetupOf(Both(), SecondId, Second)
  {
    hide Both;
    assert FirstId.name[0] == 'o' && SecondId.name[0] == 't';
    assert |Pair().locs.Keys| == 2;
  }

  /** A fleet of two tables, for which Run promises that both read as before whatever faults it meets. */
  lemma PairIsSound()
    ensures SoundFleet(Pair()) && Apart(Pair()) && AllFine(Pair(), Both(), Before)
    ensures |Pair().locs| == 2 && forall id | id in Pair().locs :: Planned(Pair().Of(id)).res.Success?
    ensures Prepared(Pair(), Plain, Live, Both(), Before, [[FirstId], [SecondId]])
  {
    hide Both, Sound, Planned, WriteSet, AllFine, Listed;
    PairOf();
    BothSound();
    PairFine();
    InBatches();
  }

  lemma InBatches()
    ensures forall id | id in Listed([[FirstId], [SecondId]]) :: id == FirstId || id == SecondId
  {
    var batches := [[FirstId], [SecondId]];
    assert batches[..1] == [[FirstId]] && batches[..1][..0] == [];
    assert Listed([]) == [];
    assert Listed(batches[..1]) == [FirstId];
    assert Listed(batches) == [FirstId] + [SecondId];
  }

  lemma PairFine()
    ensures AllFine(Pair(), Both(), Before)
  {
    hide Invariant, Both;
    forall id | id in Pair().locs ensures Fine(Pair().Of(id), Both(), Before) {
      InvariantStart(Pair().Of(id), Machine(Idle, Both(), Before, false));
    }
  }
}
