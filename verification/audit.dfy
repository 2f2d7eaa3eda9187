/** The walk over the parsed metadata reports the path-bearing positions of the document itself. */
module Audit {
  import opened Wrappers
  import opened Prefix
  import opened Json
  import opened Metadata
  import opened MetadataWrite

  /** The paths that WalkMetadataJSON looks at, and the parsed value at each. */
  function ParsedAt(meta: MetadataJSON, p: seq<Step>): Option<Uri> {
    if p == [Key("location")] then Some(meta.location)
    else if |p| == 3 && p[0] == Key("snapshots") && p[1].Index? && p[2] == Key("manifest-list") then
      if p[1].i < |meta.snapshots| then Some(meta.snapshots[p[1].i].manifestList) else None
    else if |p| == 4 && p[0] == Key("snapshots") && p[1].Index? && p[2] == Key("manifests") && p[3].Index? then
      if p[1].i < |meta.snapshots| && p[3].i < |meta.snapshots[p[1].i].manifests|
      then Some(meta.snapshots[p[1].i].manifests[p[3].i]) else None
    else if |p| == 3 && p[0] == Key("metadata-log") && p[1].Index? && p[2] == Key("metadata-file") then
      if p[1].i < |meta.metadataLog| then Some(meta.metadataLog[p[1].i].file) else None
    else if |p| == 3 && p[0] == Key("statistics") && p[1].Index? && p[2] == Key("statistics-path") then
      if p[1].i < |meta.statistics| then Some(meta.statistics[p[1].i].path) else None
    else if |p| == 3 && p[0] == Key("partition-statistics") && p[1].Index? && p[2] == Key("statistics-path") then
      if p[1].i < |meta.partitionStatistics| then Some(meta.partitionStatistics[p[1].i].path) else None
    else if |p| == 2 && p[0] == Key("properties") && p[1].Key? && p[1].k in PathProperties then
      if p[1].k in meta.properties then Some(meta.properties[p[1].k]) else None
    else None
  }

  // The shape of path-bearing positions.

  lemma SpotUnfold(spot: Spot, p: seq<Step>)
    requires p != []
    ensures SpotAt(spot, p) == SpotAt(Down(spot, p[0]), p[1..])
  {
  }

  /** A path-bearing position ends where the automaton reaches PathLeaf. */
  lemma LeafEnds(p: seq<Step>)
    ensures SpotAt(PathLeaf, p) == PathLeaf <==> p == []
  {
    if p != [] {
      SpotUnfold(PathLeaf, p);
      NeverReportedElsewhere(Prefix.PrefixMapping("", ""), p[1..]);
    }
  }

  predicate LeafShape(p: seq<Step>) {
    || p == [Key("location")]
    || (|p| == 3 && p[0] == Key("snapshots") && p[1].Index? && p[2] == Key("manifest-list"))
    || (|p| == 4 && p[0] == Key("snapshots") && p[1].Index? && p[2] == Key("manifests") && p[3].Index?)
    || (|p| == 3 && p[0] == Key("metadata-log") && p[1].Index? && p[2] == Key("metadata-file"))
    || (|p| == 3 && p[0] in [Key("statistics"), Key("partition-statistics")] && p[1].Index? && p[2] == Key("statistics-path"))
    || (|p| == 2 && p[0] == Key("properties") && p[1].Key? && p[1].k in PathProperties)
  }

  /** From a spot that is no leaf, a leaf is reached by a step that the automaton knows. */
  lemma StepOn(spot: Spot, p: seq<Step>)
    requires SpotAt(spot, p) == PathLeaf && spot != PathLeaf
    ensures p != [] && SpotAt(Down(spot, p[0]), p[1..]) == PathLeaf && Down(spot, p[0]) != Elsewhere
    ensures Down(spot, p[0]) != SummaryObject
  {
    SpotUnfold(spot, p);
    NeverReportedElsewhere(Prefix.PrefixMapping("", ""), p[1..]);
    if Down(spot, p[0]) == SummaryObject {
      SummaryNever(p[1..]);
    }
  }

  lemma SummaryNever(p: seq<Step>)
    ensures SpotAt(SummaryObject, p) != PathLeaf
  {
    if p != [] {
      SpotUnfold(SummaryObject, p);
      if p[1..] != [] {
        SpotUnfold(Down(SummaryObject, p[0]), p[1..]);
        NeverReportedElsewhere(Prefix.PrefixMapping("", ""), p[1..][1..]);
      }
      NeverReportedElsewhere(Prefix.PrefixMapping("", ""), p[1..]);
    }
  }

  lemma ShapeOfLeaf(p: seq<Step>)
    ensures SpotAt(Root, p) == PathLeaf <==> LeafShape(p)
  {
    if LeafShape(p) {
      ShapesAreLeaves(p);
    }
    if SpotAt(Root, p) == PathLeaf {
      StepOn(Root, p);
      var a, q := Down(Root, p[0]), p[1..];
      if a == PathLeaf {
        LeafEnds(q);
      } else {
        StepOn(a, q);
        var b, r := Down(a, q[0]), q[1..];
        if b == PathLeaf {
          LeafEnds(r);
        } else {
          StepOn(b, r);
          var c, t := Down(b, r[0]), r[1..];
          if c == PathLeaf {
            LeafEnds(t);
          } else {
            StepOn(c, t);
            LeafEnds(t[1..]);
          }
        }
      }
    }
  }

  lemma ShapesAreLeaves(p: seq<Step>)
    requires LeafShape(p)
    ensures SpotAt(Root, p) == PathLeaf
  {
    SpotUnfold(Root, p);
    var a, q := Down(Root, p[0]), p[1..];
    if q != [] {
      SpotUnfold(a, q);
      var b, r := Down(a, q[0]), q[1..];
      if r != [] {
        SpotUnfold(b, r);
        var c, t := Down(b, r[0]), r[1..];
        if t != [] {
          SpotUnfold(c, t);
          assert t[1..] == [];
        }
      }
    }
  }

  // Parsing and looking up agree.

  lemma AtStep(j: Json, p: seq<Step>)
    requires p != []
    ensures At(j, p) == match (j, p[0])
              case (JArr(xs), Index(i)) => if i < |xs| then At(xs[i], p[1..]) else None
              case (JObj(f), Key(k)) => if k in f then At(f[k], p[1..]) else None
              case _ => None
  {
  }

  /** The value at p is this non-empty string. */
  predicate Holds(j: Json, p: seq<Step>, v: string) {
    v != "" && At(j, p) == Some(JStr(v))
  }

  lemma {:induction false} EachParsed<T>(parse: Json -> Option<T>, xs: seq<Json>)
    requires ParseEach(parse, xs).Some?
    ensures |ParseEach(parse, xs).value| == |xs|
    ensures forall i | 0 <= i < |xs| :: parse(xs[i]) == Some(ParseEach(parse, xs).value[i])
  {
    if xs != [] {
      EachParsed(parse, xs[1..]);
    }
  }

  /** Looking up below an array field of an object is looking up below the item of the parsed array. */
  lemma InArray<T>(parse: Json -> Option<T>, j: Json, vs: seq<T>, p: seq<Step>, v: string)
    requires ParseArray(parse, j) == Some(vs) && p != [] && p[0].Index? && v != ""
    ensures j.JArr? ==> |j.items| == |vs| && forall i | 0 <= i < |vs| :: parse(j.items[i]) == Some(vs[i])
    ensures !j.JArr? ==> vs == []
    ensures Holds(j, p, v) <==> p[0].i < |vs| && j.JArr? && p[0].i < |j.items| && Holds(j.items[p[0].i], p[1..], v)
  {
    AtStep(j, p);
    if j.JArr? {
      EachParsed(parse, j.items);
    }
  }

  lemma InField(f: Doc, k: string, p: seq<Step>, v: string)
    requires p != [] && p[0] == Key(k) && v != ""
    ensures Holds(JObj(f), p, v) <==> Holds(FieldOf(f, k), p[1..], v)
  {
    AtStep(JObj(f), p);
    if k !in f && p[1..] != [] {
      AtStep(JNull, p[1..]);
    }
  }

  lemma HeldString(j: Json, s: string, v: string)
    requires AsString(j) == Some(s) && v != ""
    ensures Holds(j, [], v) <==> s == v
  {
  }

  /** Below an object with one path field, such as a log entry. */
  lemma InRecord(j: Json, k: string, s: string, p: seq<Step>, v: string)
    requires p == [Key(k)] && v != ""
    requires AsObject(j).Some? && AsString(FieldOf(AsObject(j).value, k)) == Some(s)
    ensures Holds(j, p, v) <==> s == v
  {
    if j.JObj? {
      InField(j.fields, k, p, v);
      assert p[1..] == [];
      HeldString(FieldOf(j.fields, k), s, v);
    } else {
      AtStep(j, p);
    }
  }

  lemma InSnapshot(j: Json, snap: SnapshotJSON, p: seq<Step>, v: string)
    requires ParseSnapshot(j) == Some(snap) && v != ""
    requires p == [Key("manifest-list")] || (|p| == 2 && p[0] == Key("manifests") && p[1].Index?)
    ensures Holds(j, p, v) <==>
            if p == [Key("manifest-list")] then snap.manifestList == v
            else p[1].i < |snap.manifests| && snap.manifests[p[1].i] == v
  {
    if p == [Key("manifest-list")] {
      InRecord(j, "manifest-list", snap.manifestList, p, v);
    } else if j.JObj? {
      InField(j.fields, "manifests", p, v);
      var list := FieldOf(j.fields, "manifests");
      InArray(AsString, list, snap.manifests, p[1..], v);
      if list.JArr? && p[1].i < |list.items| {
        assert p[1..][1..] == [];
        HeldString(list.items[p[1].i], snap.manifests[p[1].i], v);
      }
    } else {
      AtStep(j, p);
    }
  }

  /** At every path-bearing position the document holds a non-empty string exactly when the parsed metadata does. */
  lemma ParsedWhereHeld(doc: Doc, meta: MetadataJSON, p: seq<Step>, v: string)
    requires Parse(doc) == Some(meta) && LeafShape(p) && v != ""
    ensures Holds(JObj(doc), p, v) <==> ParsedAt(meta, p) == Some(v)
  {
    InField(doc, p[0].k, p, v);
    var q := p[1..];
    if p == [Key("location")] {
      HeldString(FieldOf(doc, "location"), meta.location, v);
    } else if p[0] == Key("properties") {
      HeldProperty(FieldOf(doc, "properties"), meta.properties, q, v);
    } else if p[0] == Key("snapshots") {
      var j := FieldOf(doc, "snapshots");
      InArray(ParseSnapshot, j, meta.snapshots, q, v);
      if j.JArr? && q[0].i < |j.items| {
        InSnapshot(j.items[q[0].i], meta.snapshots[q[0].i], q[1..], v);
      }
      assert q[1..] == p[2..];
      hide ParseSnapshot, Holds, Parse;
      assert |p| == 3 ==> q[1..] == [p[2]];
    } else if p[0] == Key("metadata-log") {
      var j := FieldOf(doc, "metadata-log");
      InArray(ParseLogEntry, j, meta.metadataLog, q, v);
      if j.JArr? && q[0].i < |j.items| {
        InRecord(j.items[q[0].i], "metadata-file", meta.metadataLog[q[0].i].file, q[1..], v);
      }
    } else {
      var j := FieldOf(doc, p[0].k);
      var stats := if p[0] == Key("statistics") then meta.statistics else meta.partitionStatistics;
      InArray(ParseStatsFile, j, stats, q, v);
      if j.JArr? && q[0].i < |j.items| {
        InRecord(j.items[q[0].i], "statistics-path", stats[q[0].i].path, q[1..], v);
      }
    }
  }

  lemma HeldProperty(j: Json, props: map<string, string>, q: seq<Step>, v: string)
    requires ParseProperties(j) == Some(props) && |q| == 1 && q[0].Key? && v != ""
    ensures Holds(j, q, v) <==> q[0].k in props && props[q[0].k] == v
  {
    AtStep(j, q);
    if j.JObj? && q[0].k in j.fields {
      HeldString(j.fields[q[0].k], props[q[0].k], v);
    }
  }

  // The listing.

  /** The hit reports the parsed value at a path that the walk looks at. */
  predicate Reports(m: PrefixMapping, meta: MetadataJSON, h: PathHit) {
    h.field.MetaField? && ParsedAt(meta, h.field.path) == Some(h.before) && h.after == m.Apply(h.before)
  }

  lemma {:induction false} SnapshotsListed(m: PrefixMapping, snaps: seq<SnapshotJSON>, n: nat, h: PathHit)
    requires n <= |snaps|
    ensures h in SnapshotsHits(m, snaps, n) <==> exists i: nat :: i < n && h in SnapshotHits(m, snaps[i], i)
    decreases n
  {
    if n > 0 {
      SnapshotsListed(m, snaps, n - 1, h);
      assert h in SnapshotsHits(m, snaps, n) <==> h in SnapshotsHits(m, snaps, n - 1) || h in SnapshotHits(m, snaps[n - 1], n - 1);
    }
  }

  lemma SnapshotListed(m: PrefixMapping, meta: MetadataJSON, i: nat, h: PathHit)
    requires i < |meta.snapshots| && h.before != ""
    ensures h in SnapshotHits(m, meta.snapshots[i], i) <==>
            Reports(m, meta, h) && |h.field.path| >= 3 && h.field.path[..2] == [Key("snapshots"), Index(i)]
  {
    var s := meta.snapshots[i];
    if Reports(m, meta, h) && |h.field.path| >= 3 && h.field.path[..2] == [Key("snapshots"), Index(i)] {
      var p := h.field.path;
      assert p[0] == p[..2][0] && p[1] == p[..2][1];
      if |p| == 3 {
        assert p == [Key("snapshots"), Index(i), Key("manifest-list")];
        assert SnapshotHits(m, s, i)[0] == h;
      } else {
        var j := p[3].i;
        assert p == [Key("snapshots"), Index(i), Key("manifests"), Index(j)];
        var n := if s.manifestList != "" then 1 else 0;
        assert SnapshotHits(m, s, i)[n + j] == h;
      }
    }
  }

  lemma {:induction false} PropertiesListed(m: PrefixMapping, props: map<string, string>, n: nat, h: PathHit)
    requires n <= |PathProperties|
    ensures h in PropertyHits(m, props, n) <==>
            exists i: nat :: i < n && PathProperties[i] in props &&
              h == Hit(m, [Key("properties"), Key(PathProperties[i])], props[PathProperties[i]])
    decreases n
  {
    if n > 0 {
      PropertiesListed(m, props, n - 1, h);
    }
  }

  lemma LogListed(m: PrefixMapping, log: seq<LogEntryJSON>, h: PathHit)
    ensures h in LogHits(m, log) <==>
            exists i: nat :: i < |log| && h == Hit(m, [Key("metadata-log"), Index(i), Key("metadata-file")], log[i].file)
  {
    if i: nat :| i < |log| && h == Hit(m, [Key("metadata-log"), Index(i), Key("metadata-file")], log[i].file) {
      assert LogHits(m, log)[i] == h;
    }
  }

  lemma StatsListed(m: PrefixMapping, key: string, stats: seq<StatsFileJSON>, h: PathHit)
    ensures h in StatsHits(m, key, stats) <==>
            exists i: nat :: i < |stats| && h == Hit(m, [Key(key), Index(i), Key("statistics-path")], stats[i].path)
  {
    if i: nat :| i < |stats| && h == Hit(m, [Key(key), Index(i), Key("statistics-path")], stats[i].path) {
      assert StatsHits(m, key, stats)[i] == h;
    }
  }

  /** A hit with a value is listed exactly when it reports a parsed value. */
  lemma ListedIffReports(m: PrefixMapping, meta: MetadataJSON, h: PathHit)
    requires h.before != ""
    ensures h in WalkHits(m, meta) <==> Reports(m, meta, h)
  {
    SnapshotsPart(m, meta, h);
    LogPart(m, meta, h);
    StatsPart(m, meta, h);
    PropertiesPart(m, meta, h);
    hide SnapshotsHits, LogHits, StatsHits, PropertyHits;
    assert h in WalkHits(m, meta) <==>
      || h == Hit(m, [Key("location")], meta.location)
      || h in SnapshotsHits(m, meta.snapshots, |meta.snapshots|)
      || h in LogHits(m, meta.metadataLog)
      || h in StatsHits(m, "statistics", meta.statistics)
      || h in StatsHits(m, "partition-statistics", meta.partitionStatistics)
      || h in PropertyHits(m, meta.properties, |PathProperties|);
  }

  /** The hit lies in one section of the document. */
  predicate InSection(h: PathHit, key: string) {
    h.field.MetaField? && |h.field.path| > 1 && h.field.path[0] == Key(key)
  }

  lemma SnapshotsPart(m: PrefixMapping, meta: MetadataJSON, h: PathHit)
    requires h.before != ""
    ensures h in SnapshotsHits(m, meta.snapshots, |meta.snapshots|) <==> Reports(m, meta, h) && InSection(h, "snapshots")
  {
    SnapshotsListed(m, meta.snapshots, |meta.snapshots|, h);
    if i: nat :| i < |meta.snapshots| && h in SnapshotHits(m, meta.snapshots[i], i) {
      SnapshotListed(m, meta, i, h);
      assert h.field.path[0] == h.field.path[..2][0];
    }
    if Reports(m, meta, h) && InSection(h, "snapshots") {
      var p := h.field.path;
      assert p[..2] == [Key("snapshots"), Index(p[1].i)];
      SnapshotListed(m, meta, p[1].i, h);
    }
  }

  lemma LogPart(m: PrefixMapping, meta: MetadataJSON, h: PathHit)
    ensures h in LogHits(m, meta.metadataLog) <==> Reports(m, meta, h) && InSection(h, "metadata-log")
  {
    LogListed(m, meta.metadataLog, h);
    if Reports(m, meta, h) && InSection(h, "metadata-log") {
      var p := h.field.path;
      assert p == [Key("metadata-log"), Index(p[1].i), Key("metadata-file")];
    }
  }

  lemma StatsPart(m: PrefixMapping, meta: MetadataJSON, h: PathHit)
    ensures h in StatsHits(m, "statistics", meta.statistics) <==> Reports(m, meta, h) && InSection(h, "statistics")
    ensures h in StatsHits(m, "partition-statistics", meta.partitionStatistics) <==>
            Reports(m, meta, h) && InSection(h, "partition-statistics")
  {
    StatsListed(m, "statistics", meta.statistics, h);
    StatsListed(m, "partition-statistics", meta.partitionStatistics, h);
    if Reports(m, meta, h) && InSection(h, "statistics") {
      var p := h.field.path;
      assert p == [Key("statistics"), Index(p[1].i), Key("statistics-path")];
    }
    if Reports(m, meta, h) && InSection(h, "partition-statistics") {
      var p := h.field.path;
      assert p == [Key("partition-statistics"), Index(p[1].i), Key("statistics-path")];
    }
  }

  lemma PropertiesPart(m: PrefixMapping, meta: MetadataJSON, h: PathHit)
    ensures h in PropertyHits(m, meta.properties, |PathProperties|) <==> Reports(m, meta, h) && InSection(h, "properties")
  {
    PropertiesListed(m, meta.properties, |PathProperties|, h);
    if Reports(m, meta, h) && InSection(h, "properties") {
      var p := h.field.path;
      var i :| 0 <= i < |PathProperties| && PathProperties[i] == p[1].k;
      assert p == [Key("properties"), Key(PathProperties[i])];
    }
  }

  /** On a well-typed document the walk, empty values aside, reports exactly what the in-place rewrite reports outside
      snapshot summaries. */
  lemma WalkReportsDocument(m: PrefixMapping, doc: Doc, meta: MetadataJSON, h: PathHit)
    requires Parse(doc) == Some(meta) && h.before != ""
    ensures h in WalkHits(m, meta) <==>
            Genuine(m, JObj(doc), h) && SpotAt(Root, h.field.path) == PathLeaf
  {
    ListedIffReports(m, meta, h);
    hide Parse, WalkHits, LeafShape, Down;
    if h.field.MetaField? {
      ShapeOfLeaf(h.field.path);
      if LeafShape(h.field.path) {
        ParsedWhereHeld(doc, meta, h.field.path, h.before);
      } else {
        NoShapeNoValue(meta, h.field.path);
      }
    }
  }

  lemma NoShapeNoValue(meta: MetadataJSON, p: seq<Step>)
    requires !LeafShape(p)
    ensures ParsedAt(meta, p).None?
  {
  }
}
