/** The metadata document as a JSON tree, and the positions in it that hold storage URIs
    (internal/rewrite/metadata.go, metadata_json.go). */
module Json {
  import opened Wrappers
  import opened Prefix

  datatype Json =
    | JNull
    | JBool(b: bool)
    | JNum(n: int)
    | JStr(s: string)
    | JArr(items: seq<Json>)
    | JObj(fields: map<string, Json>)

  type Doc = map<string, Json>

  datatype Step = Key(k: string) | Index(i: nat)

  /** Where a walk down the document stands. PathLeaf is a path-bearing position, SummaryLeaf a snapshot
      summary value, which may hold a path and is reported only when it does. */
  datatype Spot =
    | Root | SnapshotArray | SnapshotObject | ManifestArray | SummaryObject
    | LogArray | LogObject | StatsArray | StatsObject | PropertyObject
    | PathLeaf | SummaryLeaf | Elsewhere
  {
    /** A position whose string value is passed through Apply. */
    predicate Leaf() {
      PathLeaf? || SummaryLeaf?
    }
  }

  const PathProperties: seq<string> := [
    "write.object-storage.path",
    "write.folder-storage.path",
    "write.metadata.path",
    "write.data.path"
  ]

  /** The list of path-bearing fields that metadata.go documents, read as an automaton over steps. */
  function Down(spot: Spot, step: Step): Spot {
    match (spot, step)
    case (Root, Key(k)) =>
      if k == "location" then PathLeaf
      else if k == "snapshots" then SnapshotArray
      else if k == "metadata-log" then LogArray
      else if k == "statistics" || k == "partition-statistics" then StatsArray
      else if k == "properties" then PropertyObject
      else Elsewhere
    case (SnapshotArray, Index(_)) => SnapshotObject
    case (SnapshotObject, Key(k)) =>
      if k == "manifest-list" then PathLeaf
      else if k == "manifests" then ManifestArray
      else if k == "summary" then SummaryObject
      else Elsewhere
    case (ManifestArray, Index(_)) => PathLeaf
    case (SummaryObject, Key(_)) => SummaryLeaf
    case (LogArray, Index(_)) => LogObject
    case (LogObject, Key(k)) => if k == "metadata-file" then PathLeaf else Elsewhere
    case (StatsArray, Index(_)) => StatsObject
    case (StatsObject, Key(k)) => if k == "statistics-path" then PathLeaf else Elsewhere
    case (PropertyObject, Key(k)) => if k in PathProperties then PathLeaf else Elsewhere
    case _ => Elsewhere
  }

  function SpotAt(spot: Spot, path: seq<Step>): Spot
    decreases |path|
  {
    if path == [] then spot else SpotAt(Down(spot, path[0]), path[1..])
  }

  /** Below a position that is not listed, and below a listed value, nothing is. */
  lemma {:induction false} NothingBelow(spot: Spot, path: seq<Step>)
    requires spot.Elsewhere? || (spot.Leaf() && path != [])
    ensures !SpotAt(spot, path).Leaf()
    decreases |path|
  {
    if path != [] {
      NothingBelow(Elsewhere, path[1..]);
    }
  }

  /** Below one more step. */
  lemma OneStep(spot: Spot, path: seq<Step>)
    requires path != []
    ensures SpotAt(spot, path) == SpotAt(Down(spot, path[0]), path[1..])
    ensures |path| == 1 ==> SpotAt(spot, path) == Down(spot, path[0])
  {
    if |path| == 1 {
      assert path[1..] == [];
    }
  }

  /** The listed positions, as literal paths. */
  predicate BearsPath(path: seq<Step>) {
    path != [] && path[0].Key? &&
    match path[0].k
    case "location" => |path| == 1
    case "properties" => |path| == 2 && BearsProperty(path[1])
    case "metadata-log" => InArray(path[1..], "metadata-file")
    case "statistics" => InArray(path[1..], "statistics-path")
    case "partition-statistics" => InArray(path[1..], "statistics-path")
    case "snapshots" => |path| > 1 && path[1].Index? && InFields(path[2..])
    case _ => false
  }

  predicate BearsProperty(step: Step) {
    step.Key? &&
    match step.k
    case "write.object-storage.path" => true
    case "write.folder-storage.path" => true
    case "write.metadata.path" => true
    case "write.data.path" => true
    case _ => false
  }

  /** The field of this name of an element of an array. */
  predicate InArray(path: seq<Step>, name: string) {
    |path| == 2 && path[0].Index? && path[1] == Key(name)
  }

  /** Within a snapshot. */
  predicate InFields(path: seq<Step>) {
    path != [] && path[0].Key? &&
    match path[0].k
    case "manifest-list" => |path| == 1
    case "manifests" => |path| == 2 && path[1].Index?
    case "summary" => |path| == 2 && path[1].Key?
    case _ => false
  }

  /** Exactly these positions are rewritten. */
  lemma ListedIff(path: seq<Step>)
    ensures SpotAt(Root, path).Leaf() <==> BearsPath(path)
  {
    if path != [] {
      OneStep(Root, path);
      var a, rest := Down(Root, path[0]), path[1..];
      match a {
        case Elsewhere => NothingBelow(a, rest);
        case PathLeaf => if rest != [] { NothingBelow(a, rest); }
        case PropertyObject => PropertyListed(rest);
        case LogArray => LogListed(rest);
        case StatsArray => StatsListed(rest);
        case _ => SnapshotListed(rest);
      }
      hide InArray, InFields, BearsProperty, SpotAt;
    }
  }

  lemma PropertyListed(path: seq<Step>)
    ensures SpotAt(PropertyObject, path).Leaf() <==> |path| == 1 && BearsProperty(path[0])
  {
    if path != [] {
      OneStep(PropertyObject, path);
      if path[0].Key? {
        PropertyKey(path[0].k);
      }
      if |path| > 1 {
        NothingBelow(Down(PropertyObject, path[0]), path[1..]);
      }
    }
  }

  lemma PropertyKey(k: string)
    ensures k in PathProperties <==> BearsProperty(Key(k))
  {
    var p := PathProperties;
    assert p[0] in p && p[1] in p && p[2] in p && p[3] in p;
  }

  lemma LogListed(path: seq<Step>)
    ensures SpotAt(LogArray, path).Leaf() <==> InArray(path, "metadata-file")
  {
    if path != [] {
      OneStep(LogArray, path);
      ObjectListed(Down(LogArray, path[0]), path[1..], "metadata-file");
    }
  }

  lemma StatsListed(path: seq<Step>)
    ensures SpotAt(StatsArray, path).Leaf() <==> InArray(path, "statistics-path")
  {
    if path != [] {
      OneStep(StatsArray, path);
      ObjectListed(Down(StatsArray, path[0]), path[1..], "statistics-path");
    }
  }

  /** Log entries and statistics files have one listed field each. */
  lemma ObjectListed(spot: Spot, path: seq<Step>, name: string)
    requires spot.Elsewhere? || (spot.LogObject? && name == "metadata-file") || (spot.StatsObject? && name == "statistics-path")
    ensures SpotAt(spot, path).Leaf() <==> !spot.Elsewhere? && |path| == 1 && path[0] == Key(name)
  {
    if spot.Elsewhere? {
      NothingBelow(spot, path);
    } else if path != [] {
      OneStep(spot, path);
      if |path| > 1 {
        NothingBelow(Down(spot, path[0]), path[1..]);
      }
    }
  }

  lemma SnapshotListed(path: seq<Step>)
    ensures SpotAt(SnapshotArray, path).Leaf() <==> path != [] && path[0].Index? && InFields(path[1..])
  {
    if path != [] {
      OneStep(SnapshotArray, path);
      if path[0].Index? {
        FieldListed(path[1..]);
      } else {
        NothingBelow(Elsewhere, path[1..]);
      }
    }
  }

  lemma FieldListed(path: seq<Step>)
    ensures SpotAt(SnapshotObject, path).Leaf() <==> InFields(path)
  {
    if path != [] {
      OneStep(SnapshotObject, path);
      ValueListed(Down(SnapshotObject, path[0]), path[1..]);
      hide SpotAt;
    }
  }

  lemma ValueListed(spot: Spot, path: seq<Step>)
    requires spot.PathLeaf? || spot.ManifestArray? || spot.SummaryObject? || spot.Elsewhere?
    ensures SpotAt(spot, path).Leaf() <==>
            || (spot.PathLeaf? && path == [])
            || (spot.ManifestArray? && |path| == 1 && path[0].Index?)
            || (spot.SummaryObject? && |path| == 1 && path[0].Key?)
  {
    if spot.Elsewhere? || (spot.PathLeaf? && path != []) {
      NothingBelow(spot, path);
    } else if path != [] {
      OneStep(spot, path);
      if |path| > 1 {
        NothingBelow(Down(spot, path[0]), path[1..]);
      }
    }
  }

  /** The sub-value at a path, if the path exists. */
  function At(j: Json, path: seq<Step>): Option<Json> {
    if path == [] then Some(j)
    else match (j, path[0])
      case (JArr(xs), Index(i)) => if i < |xs| then At(xs[i], path[1..]) else None
      case (JObj(f), Key(k)) => if k in f then At(f[k], path[1..]) else None
      case _ => None
  }

  /** The document with Apply at exactly the path-bearing positions. */
  function Relocate(m: PrefixMapping, spot: Spot, j: Json): Json
    decreases j
  {
    match j
    case JStr(s) => if spot.Leaf() then JStr(m.Apply(s)) else j
    case JArr(xs) => JArr(seq(|xs|, i requires 0 <= i < |xs| => Relocate(m, Down(spot, Index(i)), xs[i])))
    case JObj(f) => JObj(map k | k in f :: Relocate(m, Down(spot, Key(k)), f[k]))
    case _ => j
  }

  function RelocateDoc(m: PrefixMapping, doc: Doc): Doc {
    Relocate(m, Root, JObj(doc)).fields
  }

  /** Every number of the tree passed through num; models the trip through float64. */
  function Renumber(num: int -> int, j: Json): Json {
    match j
    case JNum(n) => JNum(num(n))
    case JArr(xs) => JArr(seq(|xs|, i requires 0 <= i < |xs| => Renumber(num, xs[i])))
    case JObj(f) => JObj(map k | k in f :: Renumber(num, f[k]))
    case _ => j
  }

  function RenumberDoc(num: int -> int, doc: Doc): Doc {
    Renumber(num, JObj(doc)).fields
  }

  /** The document that RewriteMetadataJSON writes. */
  function WrittenDoc(m: PrefixMapping, num: int -> int, doc: Doc): Doc {
    RenumberDoc(num, RelocateDoc(m, doc))
  }

  /** Off every listed position nothing is rewritten. */
  lemma {:induction false} ElsewhereUntouched(m: PrefixMapping, j: Json)
    ensures Relocate(m, Elsewhere, j) == j
  {
    match j
    case JArr(xs) =>
      forall i | 0 <= i < |xs| ensures Relocate(m, Down(Elsewhere, Index(i)), xs[i]) == xs[i] {
        ElsewhereUntouched(m, xs[i]);
      }
      assert Relocate(m, Elsewhere, j).items == xs;
    case JObj(f) =>
      forall k | k in f ensures Relocate(m, Down(Elsewhere, Key(k)), f[k]) == f[k] {
        ElsewhereUntouched(m, f[k]);
      }
      assert Relocate(m, Elsewhere, j).fields == f;
    case _ =>
  }

  /** A value at a position whose children are not listed is untouched unless it is a listed string. */
  lemma LeafUntouched(m: PrefixMapping, spot: Spot, j: Json)
    requires spot.Leaf() ==> !j.JStr?
    requires j.JArr? ==> forall i: nat :: Down(spot, Index(i)) == Elsewhere
    requires j.JObj? ==> forall k :: Down(spot, Key(k)) == Elsewhere
    ensures Relocate(m, spot, j) == j
  {
    hide Down;
    match j
    case JArr(xs) =>
      forall i | 0 <= i < |xs| ensures Relocate(m, Down(spot, Index(i)), xs[i]) == xs[i] {
        ElsewhereUntouched(m, xs[i]);
      }
      assert Relocate(m, spot, j).items == xs;
    case JObj(f) =>
      forall k | k in f ensures Relocate(m, Down(spot, Key(k)), f[k]) == f[k] {
        ElsewhereUntouched(m, f[k]);
      }
      assert Relocate(m, spot, j).fields == f;
    case _ =>
  }

  /** How the value at one position of the written document relates to the value read there. */
  ghost predicate Framed(m: PrefixMapping, num: int -> int, spot: Spot, before: Json, after: Json) {
    match before
    case JStr(s) => after == JStr(if spot.Leaf() then m.Apply(s) else s)
    case JNum(n) => after == JNum(num(n))
    case JArr(xs) => after.JArr? && |after.items| == |xs|
    case JObj(f) => after.JObj? && after.fields.Keys == f.Keys
    case _ => after == before
  }

  /** Frame: the written document has the tree shape of the one read, its strings change at listed positions only. */
  lemma {:induction false} WrittenTreeFramed(m: PrefixMapping, num: int -> int, spot: Spot, j: Json, path: seq<Step>)
    ensures var w := Renumber(num, Relocate(m, spot, j));
            && (At(w, path).Some? <==> At(j, path).Some?)
            && (At(j, path).Some? ==>
                  Framed(m, num, SpotAt(spot, path), At(j, path).value, At(w, path).value))
    decreases |path|
  {
    hide Down;
    if path != [] {
      match (j, path[0])
      case (JArr(xs), Index(i)) =>
        if i < |xs| {
          WrittenTreeFramed(m, num, Down(spot, path[0]), xs[i], path[1..]);
        }
      case (JObj(f), Key(k)) =>
        if k in f {
          WrittenTreeFramed(m, num, Down(spot, path[0]), f[k], path[1..]);
        }
      case _ =>
    }
  }
}

/** The typed view of the document: ParseMetadataJSON, WalkMetadataJSON, selectSnapshots. */
module Metadata {
  import opened Wrappers
  import opened Prefix
  import opened Json

  datatype SnapshotJSON = SnapshotJSON(id: int, manifestList: Uri, manifests: seq<Uri>)
  datatype LogEntryJSON = LogEntryJSON(timestamp: int, file: Uri)
  datatype StatsFileJSON = StatsFileJSON(snapshotId: int, path: Uri)
  datatype MetadataJSON = MetadataJSON(
    formatVersion: int,
    uuid: string,
    location: Uri,
    currentSnapshotId: Option<int>,
    snapshots: seq<SnapshotJSON>,
    metadataLog: seq<LogEntryJSON>,
    statistics: seq<StatsFileJSON>,
    partitionStatistics: seq<StatsFileJSON>,
    properties: map<string, string>)

  function FieldOf(f: Doc, k: string): Json {
    if k in f then f[k] else JNull
  }

  // JSON null, like an absent key, leaves a Go field at its zero value; a value of another type is an error.

  function AsString(j: Json): Option<string> {
    match j case JNull => Some("") case JStr(s) => Some(s) case _ => None
  }

  function AsInt(j: Json): Option<int> {
    match j case JNull => Some(0) case JNum(n) => Some(n) case _ => None
  }

  function AsOptInt(j: Json): Option<Option<int>> {
    match j case JNull => Some(None) case JNum(n) => Some(Some(n)) case _ => None
  }

  function AsObject(j: Json): Option<Doc> {
    match j case JNull => Some(map[]) case JObj(f) => Some(f) case _ => None
  }

  function AsArray(j: Json): Option<seq<Json>> {
    match j case JNull => Some([]) case JArr(xs) => Some(xs) case _ => None
  }

  function ParseEach<T>(parse: Json -> Option<T>, xs: seq<Json>): Option<seq<T>> {
    if xs == [] then Some([])
    else match (parse(xs[0]), ParseEach(parse, xs[1..]))
      case (Some(v), Some(vs)) => Some([v] + vs)
      case _ => None
  }

  function ParseArray<T>(parse: Json -> Option<T>, j: Json): Option<seq<T>> {
    match AsArray(j) case Some(xs) => ParseEach(parse, xs) case None => None
  }

  function ParseSnapshot(j: Json): Option<SnapshotJSON> {
    match AsObject(j)
    case None => None
    case Some(f) =>
      match (AsInt(FieldOf(f, "snapshot-id")), AsString(FieldOf(f, "manifest-list")),
             ParseArray(AsString, FieldOf(f, "manifests")))
      case (Some(id), Some(list), Some(manifests)) => Some(SnapshotJSON(id, list, manifests))
      case _ => None
  }

  function ParseLogEntry(j: Json): Option<LogEntryJSON> {
    match AsObject(j)
    case None => None
    case Some(f) =>
      match (AsInt(FieldOf(f, "timestamp-ms")), AsString(FieldOf(f, "metadata-file")))
      case (Some(t), Some(file)) => Some(LogEntryJSON(t, file))
      case _ => None
  }

  function ParseStatsFile(j: Json): Option<StatsFileJSON> {
    match AsObject(j)
    case None => None
    case Some(f) =>
      match (AsInt(FieldOf(f, "snapshot-id")), AsString(FieldOf(f, "statistics-path")))
      case (Some(id), Some(path)) => Some(StatsFileJSON(id, path))
      case _ => None
  }

  function ParseProperties(j: Json): Option<map<string, string>> {
    match AsObject(j)
    case None => None
    case Some(f) =>
      if forall k | k in f :: AsString(f[k]).Some?
      then Some(map k | k in f :: AsString(f[k]).GetOr(""))
      else None
  }

  function Parse(doc: Doc): Option<MetadataJSON> {
    match (AsInt(FieldOf(doc, "format-version")), AsString(FieldOf(doc, "table-uuid")),
           AsString(FieldOf(doc, "location")), AsOptInt(FieldOf(doc, "current-snapshot-id")),
           ParseArray(ParseSnapshot, FieldOf(doc, "snapshots")),
           ParseArray(ParseLogEntry, FieldOf(doc, "metadata-log")),
           ParseArray(ParseStatsFile, FieldOf(doc, "statistics")),
           ParseArray(ParseStatsFile, FieldOf(doc, "partition-statistics")),
           ParseProperties(FieldOf(doc, "properties")))
    case (Some(v), Some(u), Some(l), Some(c), Some(ss), Some(ml), Some(st), Some(ps), Some(pr)) =>
      Some(MetadataJSON(v, u, l, c, ss, ml, st, ps, pr))
    case _ => None
  }

  /** The first snapshot with the given id. */
  function FirstWithId(snaps: seq<SnapshotJSON>, id: int): (r: Option<nat>)
    ensures r.Some? ==> r.value < |snaps| && snaps[r.value].id == id
    ensures r.Some? ==> forall j | 0 <= j < r.value :: snaps[j].id != id
    ensures r.None? ==> forall j | 0 <= j < |snaps| :: snaps[j].id != id
  {
    if snaps == [] then None
    else if snaps[0].id == id then Some(0)
    else match FirstWithId(snaps[1..], id)
      case Some(i) => Some(i + 1)
      case None => None
  }

  /** The position of the snapshot that the current pointer names. */
  function CurrentIndex(meta: MetadataJSON): Option<nat> {
    match meta.currentSnapshotId case Some(id) => FirstWithId(meta.snapshots, id) case None => None
  }

  /** Snapshot i is walked: all of them, or the current one when only that is wanted and it resolves. */
  predicate IsSelected(meta: MetadataJSON, currentOnly: bool, i: nat) {
    && i < |meta.snapshots|
    && (currentOnly && CurrentIndex(meta).Some? ==> i == CurrentIndex(meta).value)
  }

  function Selected(meta: MetadataJSON, currentOnly: bool): seq<SnapshotJSON> {
    if currentOnly && CurrentIndex(meta).Some? then [meta.snapshots[CurrentIndex(meta).value]] else meta.snapshots
  }

  /** selectSnapshots. */
  method SelectSnapshots(meta: MetadataJSON, currentOnly: bool) returns (r: seq<SnapshotJSON>)
    ensures r == Selected(meta, currentOnly)
    ensures forall s :: s in r <==> exists i: nat :: IsSelected(meta, currentOnly, i) && meta.snapshots[i] == s
  {
    if !currentOnly || meta.currentSnapshotId.None? {
      r := meta.snapshots;
      assert forall i: nat | i < |r| :: IsSelected(meta, currentOnly, i);
      return;
    }
    var want := meta.currentSnapshotId.value;
    for i := 0 to |meta.snapshots|
      invariant forall j | 0 <= j < i :: meta.snapshots[j].id != want
    {
      if meta.snapshots[i].id == want {
        assert IsSelected(meta, currentOnly, i);
        return [meta.snapshots[i]];
      }
    }
    r := meta.snapshots;
    assert forall i: nat | i < |r| :: IsSelected(meta, currentOnly, i);
  }

  /** Where a path-bearing field was met. */
  datatype Field =
    | MetaField(path: seq<Step>)
    | ListedManifest(list: Uri, i: nat)
    | EntryPath(manifest: Uri)
    | EntryReference(manifest: Uri)

  datatype PathHit = PathHit(field: Field, before: Uri, after: Uri) {
    predicate Rewritten() {
      before != after
    }
  }

  function Hit(m: PrefixMapping, path: seq<Step>, before: Uri): PathHit {
    PathHit(MetaField(path), before, m.Apply(before))
  }

  function SnapshotHits(m: PrefixMapping, s: SnapshotJSON, i: nat): seq<PathHit> {
    (if s.manifestList != "" then [Hit(m, [Key("snapshots"), Index(i), Key("manifest-list")], s.manifestList)] else []) +
    seq(|s.manifests|, j requires 0 <= j < |s.manifests| =>
      Hit(m, [Key("snapshots"), Index(i), Key("manifests"), Index(j)], s.manifests[j]))
  }

  function SnapshotsHits(m: PrefixMapping, snaps: seq<SnapshotJSON>, n: nat): seq<PathHit>
    requires n <= |snaps|
  {
    if n == 0 then [] else SnapshotsHits(m, snaps, n - 1) + SnapshotHits(m, snaps[n - 1], n - 1)
  }

  function LogHits(m: PrefixMapping, log: seq<LogEntryJSON>): seq<PathHit> {
    seq(|log|, i requires 0 <= i < |log| => Hit(m, [Key("metadata-log"), Index(i), Key("metadata-file")], log[i].file))
  }

  function StatsHits(m: PrefixMapping, key: string, stats: seq<StatsFileJSON>): seq<PathHit> {
    seq(|stats|, i requires 0 <= i < |stats| => Hit(m, [Key(key), Index(i), Key("statistics-path")], stats[i].path))
  }

  function PropertyHits(m: PrefixMapping, props: map<string, string>, n: nat): seq<PathHit>
    requires n <= |PathProperties|
  {
    if n == 0 then []
    else
      var k := PathProperties[n - 1];
      PropertyHits(m, props, n - 1) + if k in props then [Hit(m, [Key("properties"), Key(k)], props[k])] else []
  }

  /** What the walk reports about a parsed document, in order. */
  function WalkHits(m: PrefixMapping, meta: MetadataJSON): seq<PathHit> {
    [Hit(m, [Key("location")], meta.location)] +
    SnapshotsHits(m, meta.snapshots, |meta.snapshots|) +
    LogHits(m, meta.metadataLog) +
    StatsHits(m, "statistics", meta.statistics) +
    StatsHits(m, "partition-statistics", meta.partitionStatistics) +
    PropertyHits(m, meta.properties, |PathProperties|)
  }

  /** WalkMetadataJSON. */
  method WalkMetadataJSON(m: PrefixMapping, meta: MetadataJSON) returns (hits: seq<PathHit>)
    ensures hits == WalkHits(m, meta)
  {
    hide SnapshotsHits, LogHits, StatsHits, PropertyHits;
    hits := [Hit(m, [Key("location")], meta.location)];
    var snapshots := WalkSnapshots(m, meta.snapshots);
    var log := WalkLog(m, meta.metadataLog);
    var statistics := WalkStats(m, "statistics", meta.statistics);
    var partitionStatistics := WalkStats(m, "partition-statistics", meta.partitionStatistics);
    var properties := WalkProperties(m, meta.properties);
    hits := hits + snapshots + log + statistics + partitionStatistics + properties;
  }

  method WalkSnapshots(m: PrefixMapping, snaps: seq<SnapshotJSON>) returns (hits: seq<PathHit>)
    ensures hits == SnapshotsHits(m, snaps, |snaps|)
  {
    hits := [];
    for i := 0 to |snaps|
      invariant hits == SnapshotsHits(m, snaps, i)
    {
      var one := WalkSnapshot(m, snaps[i], i);
      hits := hits + one;
    }
  }

  method WalkSnapshot(m: PrefixMapping, snap: SnapshotJSON, i: nat) returns (hits: seq<PathHit>)
    ensures hits == SnapshotHits(m, snap, i)
  {
    hits := [];
    if snap.manifestList != "" {
      hits := hits + [Hit(m, [Key("snapshots"), Index(i), Key("manifest-list")], snap.manifestList)];
    }
    ghost var before := hits;
    for j := 0 to |snap.manifests|
      invariant |hits| == |before| + j && hits[..|before|] == before
      invariant forall k | 0 <= k < j ::
                  hits[|before| + k] == Hit(m, [Key("snapshots"), Index(i), Key("manifests"), Index(k)], snap.manifests[k])
    {
      hits := hits + [Hit(m, [Key("snapshots"), Index(i), Key("manifests"), Index(j)], snap.manifests[j])];
    }
  }

  method WalkLog(m: PrefixMapping, log: seq<LogEntryJSON>) returns (hits: seq<PathHit>)
    ensures hits == LogHits(m, log)
  {
    hits := [];
    for i := 0 to |log|
      invariant hits == LogHits(m, log[..i])
    {
      hits := hits + [Hit(m, [Key("metadata-log"), Index(i), Key("metadata-file")], log[i].file)];
    }
    assert log[..|log|] == log;
  }

  method WalkProperties(m: PrefixMapping, props: map<string, string>) returns (hits: seq<PathHit>)
    ensures hits == PropertyHits(m, props, |PathProperties|)
  {
    hits := [];
    for i := 0 to |PathProperties|
      invariant hits == PropertyHits(m, props, i)
    {
      var k := PathProperties[i];
      if k in props {
        hits := hits + [Hit(m, [Key("properties"), Key(k)], props[k])];
      }
    }
  }

  method WalkStats(m: PrefixMapping, key: string, stats: seq<StatsFileJSON>) returns (hits: seq<PathHit>)
    ensures hits == StatsHits(m, key, stats)
  {
    hits := [];
    for i := 0 to |stats|
      invariant hits == StatsHits(m, key, stats[..i])
    {
      hits := hits + [Hit(m, [Key(key), Index(i), Key("statistics-path")], stats[i].path)];
    }
    assert stats[..|stats|] == stats;
  }

  // The same rewrite on the typed view.

  function Each<T, U>(g: T -> U, xs: seq<T>): (r: seq<U>)
    ensures |r| == |xs| && forall i | 0 <= i < |xs| :: r[i] == g(xs[i])
  {
    seq(|xs|, i requires 0 <= i < |xs| => g(xs[i]))
  }

  function MapOption<T, U>(g: T -> U, o: Option<T>): Option<U> {
    match o case Some(v) => Some(g(v)) case None => None
  }

  function MapEach<T>(g: T -> T, o: Option<seq<T>>): Option<seq<T>> {
    match o case Some(vs) => Some(Each(g, vs)) case None => None
  }

  function MapOptOption(num: int -> int, o: Option<Option<int>>): Option<Option<int>> {
    match o case Some(v) => Some(MapOption(num, v)) case None => None
  }

  function Applied(m: PrefixMapping): Uri -> Uri {
    (p: Uri) => m.Apply(p)
  }

  function MovedSnapshot(m: PrefixMapping, num: int -> int): SnapshotJSON -> SnapshotJSON {
    (s: SnapshotJSON) => SnapshotJSON(num(s.id), m.Apply(s.manifestList), Each(Applied(m), s.manifests))
  }

  function MovedLogEntry(m: PrefixMapping, num: int -> int): LogEntryJSON -> LogEntryJSON {
    (e: LogEntryJSON) => LogEntryJSON(num(e.timestamp), m.Apply(e.file))
  }

  function MovedStatsFile(m: PrefixMapping, num: int -> int): StatsFileJSON -> StatsFileJSON {
    (e: StatsFileJSON) => StatsFileJSON(num(e.snapshotId), m.Apply(e.path))
  }

  function MovedProperties(m: PrefixMapping, props: map<string, string>): map<string, string> {
    map k | k in props :: if k in PathProperties then m.Apply(props[k]) else props[k]
  }

  /** The parsed struct with every URI passed through Apply and every number through num. */
  function Moved(m: PrefixMapping, num: int -> int, meta: MetadataJSON): MetadataJSON {
    MetadataJSON(
      num(meta.formatVersion), meta.uuid, m.Apply(meta.location),
      MapOption(num, meta.currentSnapshotId),
      Each(MovedSnapshot(m, num), meta.snapshots),
      Each(MovedLogEntry(m, num), meta.metadataLog),
      Each(MovedStatsFile(m, num), meta.statistics),
      Each(MovedStatsFile(m, num), meta.partitionStatistics),
      MovedProperties(m, meta.properties))
  }

  /** Written(spot, j) is what RewriteMetadataJSON leaves in place of j. */
  function Written(m: PrefixMapping, num: int -> int, spot: Spot, j: Json): Json {
    Renumber(num, Relocate(m, spot, j))
  }

  lemma WrittenField(m: PrefixMapping, num: int -> int, spot: Spot, f: Doc, k: string)
    ensures Written(m, num, spot, JObj(f)).JObj?
    ensures FieldOf(Written(m, num, spot, JObj(f)).fields, k) == Written(m, num, Down(spot, Key(k)), FieldOf(f, k))
  {
  }

  lemma {:induction false} ParseEachCommutes<T>(parse: Json -> Option<T>, moved: T -> T, xs: seq<Json>, ys: seq<Json>)
    requires |ys| == |xs|
    requires forall i | 0 <= i < |xs| :: parse(ys[i]) == MapOption(moved, parse(xs[i]))
    ensures ParseEach(parse, ys) == MapEach(moved, ParseEach(parse, xs))
  {
    if xs == [] {
      assert Each(moved, []) == [];
    } else {
      ParseEachCommutes(parse, moved, xs[1..], ys[1..]);
      if parse(xs[0]).Some? && ParseEach(parse, xs[1..]).Some? {
        var v, vs := parse(xs[0]).value, ParseEach(parse, xs[1..]).value;
        assert Each(moved, [v] + vs) == [moved(v)] + Each(moved, vs);
      }
    }
  }

  lemma ParseArrayCommutes<T>(
    m: PrefixMapping, num: int -> int, spot: Spot, child: Spot,
    parse: Json -> Option<T>, moved: T -> T, j: Json)
    requires !spot.Leaf() && forall i: nat :: Down(spot, Index(i)) == child
    requires forall x :: parse(Written(m, num, child, x)) == MapOption(moved, parse(x))
    ensures ParseArray(parse, Written(m, num, spot, j)) == MapEach(moved, ParseArray(parse, j))
  {
    if j.JArr? {
      var ys := Written(m, num, spot, j).items;
      forall i | 0 <= i < |j.items| ensures parse(ys[i]) == MapOption(moved, parse(j.items[i])) {
        assert ys[i] == Written(m, num, child, j.items[i]);
      }
      ParseEachCommutes(parse, moved, j.items, ys);
    } else if j.JNull? {
      assert Each(moved, []) == [];
    }
  }

  lemma StringCommutes(m: PrefixMapping, num: int -> int, j: Json)
    requires m.Legal()
    ensures AsString(Written(m, num, PathLeaf, j)) == MapOption(Applied(m), AsString(j))
  {
  }

  lemma StringsCommute(m: PrefixMapping, num: int -> int, j: Json)
    requires m.Legal()
    ensures ParseArray(AsString, Written(m, num, ManifestArray, j)) == MapEach(Applied(m), ParseArray(AsString, j))
  {
    forall x ensures AsString(Written(m, num, PathLeaf, x)) == MapOption(Applied(m), AsString(x)) {
      StringCommutes(m, num, x);
    }
    ParseArrayCommutes(m, num, ManifestArray, PathLeaf, AsString, Applied(m), j);
  }

  lemma SnapshotFieldsCommute(m: PrefixMapping, num: int -> int, f: Doc)
    requires m.Legal() && num(0) == 0
    ensures Written(m, num, SnapshotObject, JObj(f)).JObj?
    ensures var g := Written(m, num, SnapshotObject, JObj(f)).fields;
            && AsInt(FieldOf(g, "snapshot-id")) == MapOption(num, AsInt(FieldOf(f, "snapshot-id")))
            && AsString(FieldOf(g, "manifest-list")) == MapOption(Applied(m), AsString(FieldOf(f, "manifest-list")))
            && ParseArray(AsString, FieldOf(g, "manifests")) == MapEach(Applied(m), ParseArray(AsString, FieldOf(f, "manifests")))
  {
    WrittenField(m, num, SnapshotObject, f, "snapshot-id");
    WrittenField(m, num, SnapshotObject, f, "manifest-list");
    WrittenField(m, num, SnapshotObject, f, "manifests");
    assert Down(SnapshotObject, Key("snapshot-id")) == Elsewhere;
    NumbersCommute(m, num, FieldOf(f, "snapshot-id"));
    StringCommutes(m, num, FieldOf(f, "manifest-list"));
    StringsCommute(m, num, FieldOf(f, "manifests"));
  }

  lemma SnapshotCommutes(m: PrefixMapping, num: int -> int, j: Json)
    requires m.Legal() && num(0) == 0
    ensures ParseSnapshot(Written(m, num, SnapshotObject, j)) == MapOption(MovedSnapshot(m, num), ParseSnapshot(j))
  {
    if j.JObj? {
      SnapshotFieldsCommute(m, num, j.fields);
      hide Written, ParseArray, FieldOf, Each, AsInt, AsString;
    } else if j.JNull? {
      assert Each(Applied(m), []) == [];
    }
  }

  lemma RecordFieldsCommute(m: PrefixMapping, num: int -> int, spot: Spot, f: Doc, number: string, path: string)
    requires m.Legal() && num(0) == 0
    requires Down(spot, Key(number)) == Elsewhere && Down(spot, Key(path)) == PathLeaf
    ensures Written(m, num, spot, JObj(f)).JObj?
    ensures var g := Written(m, num, spot, JObj(f)).fields;
            && AsInt(FieldOf(g, number)) == MapOption(num, AsInt(FieldOf(f, number)))
            && AsString(FieldOf(g, path)) == MapOption(Applied(m), AsString(FieldOf(f, path)))
  {
    hide Written, FieldOf, AsInt, AsString, Down;
    WrittenField(m, num, spot, f, number);
    WrittenField(m, num, spot, f, path);
    NumbersCommute(m, num, FieldOf(f, number));
    StringCommutes(m, num, FieldOf(f, path));
  }

  lemma LogEntryCommutes(m: PrefixMapping, num: int -> int, j: Json)
    requires m.Legal() && num(0) == 0
    ensures ParseLogEntry(Written(m, num, LogObject, j)) == MapOption(MovedLogEntry(m, num), ParseLogEntry(j))
  {
    if j.JObj? {
      RecordFieldsCommute(m, num, LogObject, j.fields, "timestamp-ms", "metadata-file");
      hide Written, FieldOf, AsInt, AsString;
    }
  }

  lemma StatsFileCommutes(m: PrefixMapping, num: int -> int, j: Json)
    requires m.Legal() && num(0) == 0
    ensures ParseStatsFile(Written(m, num, StatsObject, j)) == MapOption(MovedStatsFile(m, num), ParseStatsFile(j))
  {
    if j.JObj? {
      RecordFieldsCommute(m, num, StatsObject, j.fields, "snapshot-id", "statistics-path");
      hide Written, FieldOf, AsInt, AsString;
    }
  }

  function MapProperties(m: PrefixMapping, o: Option<map<string, string>>): Option<map<string, string>> {
    match o case Some(p) => Some(MovedProperties(m, p)) case None => None
  }

  lemma PropertyCommutes(m: PrefixMapping, num: int -> int, f: Doc, k: string)
    requires m.Legal() && k in f
    ensures Written(m, num, PropertyObject, JObj(f)).JObj? && k in Written(m, num, PropertyObject, JObj(f)).fields
    ensures AsString(Written(m, num, PropertyObject, JObj(f)).fields[k]) ==
            if k in PathProperties then MapOption(Applied(m), AsString(f[k])) else AsString(f[k])
  {
    WrittenField(m, num, PropertyObject, f, k);
    if k in PathProperties {
      StringCommutes(m, num, f[k]);
    } else {
      assert Down(PropertyObject, Key(k)) == Elsewhere;
    }
  }

  /** Property by property, g is f with the path properties mapped. */
  ghost predicate PropertiesMapped(m: PrefixMapping, f: Doc, g: Doc) {
    && g.Keys == f.Keys
    && forall k | k in f :: AsString(g[k]) == if k in PathProperties then MapOption(Applied(m), AsString(f[k])) else AsString(f[k])
  }

  lemma ParsedProperties(m: PrefixMapping, f: Doc, g: Doc)
    requires PropertiesMapped(m, f, g)
    ensures ParseProperties(JObj(g)) == MapProperties(m, ParseProperties(JObj(f)))
  {
    hide AsString;
    if ParseProperties(JObj(f)).Some? {
      assert ParseProperties(JObj(g)).value == MovedProperties(m, ParseProperties(JObj(f)).value);
    } else {
      var k :| k in f && AsString(f[k]).None?;
      assert k in g && AsString(g[k]).None?;
    }
  }

  lemma PropertiesCommute(m: PrefixMapping, num: int -> int, j: Json)
    requires m.Legal()
    ensures ParseProperties(Written(m, num, PropertyObject, j)) == MapProperties(m, ParseProperties(j))
  {
    if j.JObj? {
      var f, g := j.fields, Written(m, num, PropertyObject, j).fields;
      assert g.Keys == f.Keys;
      forall k | k in f
        ensures AsString(g[k]) == if k in PathProperties then MapOption(Applied(m), AsString(f[k])) else AsString(f[k])
      {
        PropertyCommutes(m, num, f, k);
      }
      assert Written(m, num, PropertyObject, j) == JObj(g);
      ParsedProperties(m, f, g);
      hide Written, ParseProperties, AsString, MovedProperties;
    } else if j.JNull? {
      assert MovedProperties(m, map[]) == map[];
    }
  }

  lemma SnapshotsCommute(m: PrefixMapping, num: int -> int, doc: Doc)
    requires m.Legal() && num(0) == 0
    ensures ParseArray(ParseSnapshot, FieldOf(WrittenDoc(m, num, doc), "snapshots")) ==
            MapEach(MovedSnapshot(m, num), ParseArray(ParseSnapshot, FieldOf(doc, "snapshots")))
  {
    WrittenField(m, num, Root, doc, "snapshots");
    forall x ensures ParseSnapshot(Written(m, num, SnapshotObject, x)) == MapOption(MovedSnapshot(m, num), ParseSnapshot(x)) {
      SnapshotCommutes(m, num, x);
    }
    ParseArrayCommutes(m, num, SnapshotArray, SnapshotObject, ParseSnapshot, MovedSnapshot(m, num), FieldOf(doc, "snapshots"));
  }

  lemma LogCommutes(m: PrefixMapping, num: int -> int, doc: Doc)
    requires m.Legal() && num(0) == 0
    ensures ParseArray(ParseLogEntry, FieldOf(WrittenDoc(m, num, doc), "metadata-log")) ==
            MapEach(MovedLogEntry(m, num), ParseArray(ParseLogEntry, FieldOf(doc, "metadata-log")))
  {
    WrittenField(m, num, Root, doc, "metadata-log");
    forall x ensures ParseLogEntry(Written(m, num, LogObject, x)) == MapOption(MovedLogEntry(m, num), ParseLogEntry(x)) {
      LogEntryCommutes(m, num, x);
    }
    ParseArrayCommutes(m, num, LogArray, LogObject, ParseLogEntry, MovedLogEntry(m, num), FieldOf(doc, "metadata-log"));
  }

  lemma StatsCommute(m: PrefixMapping, num: int -> int, doc: Doc, key: string)
    requires m.Legal() && num(0) == 0
    requires key == "statistics" || key == "partition-statistics"
    ensures ParseArray(ParseStatsFile, FieldOf(WrittenDoc(m, num, doc), key)) ==
            MapEach(MovedStatsFile(m, num), ParseArray(ParseStatsFile, FieldOf(doc, key)))
  {
    WrittenField(m, num, Root, doc, key);
    forall x ensures ParseStatsFile(Written(m, num, StatsObject, x)) == MapOption(MovedStatsFile(m, num), ParseStatsFile(x)) {
      StatsFileCommutes(m, num, x);
    }
    ParseArrayCommutes(m, num, StatsArray, StatsObject, ParseStatsFile, MovedStatsFile(m, num), FieldOf(doc, key));
  }

  lemma NumbersCommute(m: PrefixMapping, num: int -> int, j: Json)
    requires num(0) == 0
    ensures AsInt(Written(m, num, Elsewhere, j)) == MapOption(num, AsInt(j))
    ensures AsOptInt(Written(m, num, Elsewhere, j)) == MapOptOption(num, AsOptInt(j))
    ensures AsString(Written(m, num, Elsewhere, j)) == AsString(j)
  {
  }

  lemma ScalarsCommute(m: PrefixMapping, num: int -> int, doc: Doc)
    requires m.Legal() && num(0) == 0
    ensures var w := WrittenDoc(m, num, doc);
            && AsInt(FieldOf(w, "format-version")) == MapOption(num, AsInt(FieldOf(doc, "format-version")))
            && AsString(FieldOf(w, "table-uuid")) == AsString(FieldOf(doc, "table-uuid"))
            && AsOptInt(FieldOf(w, "current-snapshot-id")) == MapOptOption(num, AsOptInt(FieldOf(doc, "current-snapshot-id")))
  {
    WrittenField(m, num, Root, doc, "format-version");
    WrittenField(m, num, Root, doc, "table-uuid");
    WrittenField(m, num, Root, doc, "current-snapshot-id");
    assert Down(Root, Key("format-version")) == Down(Root, Key("table-uuid")) == Down(Root, Key("current-snapshot-id")) == Elsewhere;
    NumbersCommute(m, num, FieldOf(doc, "format-version"));
    NumbersCommute(m, num, FieldOf(doc, "table-uuid"));
    NumbersCommute(m, num, FieldOf(doc, "current-snapshot-id"));
  }

  lemma LocationAndPropertiesCommute(m: PrefixMapping, num: int -> int, doc: Doc)
    requires m.Legal()
    ensures var w := WrittenDoc(m, num, doc);
            && AsString(FieldOf(w, "location")) == MapOption(Applied(m), AsString(FieldOf(doc, "location")))
            && ParseProperties(FieldOf(w, "properties")) == MapProperties(m, ParseProperties(FieldOf(doc, "properties")))
  {
    WrittenField(m, num, Root, doc, "location");
    WrittenField(m, num, Root, doc, "properties");
    StringCommutes(m, num, FieldOf(doc, "location"));
    PropertiesCommute(m, num, FieldOf(doc, "properties"));
  }

  function MapMeta(m: PrefixMapping, num: int -> int, o: Option<MetadataJSON>): Option<MetadataJSON> {
    match o case Some(x) => Some(Moved(m, num, x)) case None => None
  }

  /** Parsing what was written equals rewriting what was parsed, on every document, ill-typed ones included. */
  lemma ParseCommutes(m: PrefixMapping, num: int -> int, doc: Doc)
    requires m.Legal() && num(0) == 0
    ensures Parse(WrittenDoc(m, num, doc)) == MapMeta(m, num, Parse(doc))
  {
    hide WrittenDoc, ParseArray, ParseProperties, FieldOf, Each, MovedProperties, AsString, AsInt, AsOptInt;
    ScalarsCommute(m, num, doc);
    LocationAndPropertiesCommute(m, num, doc);
    SnapshotsCommute(m, num, doc);
    LogCommutes(m, num, doc);
    StatsCommute(m, num, doc, "statistics");
    StatsCommute(m, num, doc, "partition-statistics");
  }
}
