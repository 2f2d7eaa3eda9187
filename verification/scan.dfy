/** What a reader sees: scan planning and position deletes as the Apache Iceberg table specification defines them
    ("Scan Planning", "Position Delete Files", "Equality Delete Files"). */
module Scan {
  import opened Wrappers
  import opened Prefix
  import opened Lex
  import opened Metadata
  import opened Graph
  import opened Deletes
  import opened Plan

  /** A live manifest entry with its data sequence number resolved. */
  datatype LiveEntry = LiveEntry(file: FileInfo, seqNum: int)

  function Live(entries: seq<Entry>, inherited: int): seq<LiveEntry> {
    if entries == [] then []
    else
      var rest := Live(entries[1..], inherited);
      if entries[0].status.Deleted? then rest
      else [LiveEntry(entries[0].file, entries[0].seqNum.GetOr(inherited))] + rest
  }

  /** The entries of a listed manifest; a reader rejects a manifest of another length or content. */
  function ManifestEntries(s: Store, f: ManifestFile): Option<seq<LiveEntry>> {
    if f.path in s && s[f.path].obj.Manifest? && s[f.path].obj.content == f.content && s[f.path].size == f.length
    then Some(Live(s[f.path].obj.entries, f.seqNum))
    else None
  }

  function Append(a: Option<seq<LiveEntry>>, b: Option<seq<LiveEntry>>): Option<seq<LiveEntry>> {
    match (a, b) case (Some(x), Some(y)) => Some(x + y) case _ => None
  }

  function ListEntries(s: Store, files: seq<ManifestFile>): Option<seq<LiveEntry>> {
    if files == [] then Some([]) else Append(ManifestEntries(s, files[0]), ListEntries(s, files[1..]))
  }

  /** The entries of a V1 manifest, of which only the URI is recorded. */
  function FlatManifestEntries(s: Store, uri: Uri): Option<seq<LiveEntry>> {
    if uri in s then ManifestEntries(s, V1Descriptor(uri, s[uri].size, 0)) else None
  }

  function FlatEntries(s: Store, uris: seq<Uri>): Option<seq<LiveEntry>> {
    if uris == [] then Some([]) else Append(FlatManifestEntries(s, uris[0]), FlatEntries(s, uris[1..]))
  }

  function SnapshotEntries(s: Store, snap: SnapshotJSON): Option<seq<LiveEntry>> {
    Append(
      if snap.manifestList == "" then Some([])
      else if snap.manifestList in s && s[snap.manifestList].obj.List? then ListEntries(s, s[snap.manifestList].obj.files)
      else None,
      FlatEntries(s, snap.manifests))
  }

  /** The entry's file exists, has the recorded size and is of the recorded kind. */
  predicate Present(s: Store, f: FileInfo) {
    && f.path in s
    && s[f.path].size == f.size
    && match f.content
       case Data => s[f.path].obj.DataBody?
       case EqDeletes => s[f.path].obj.EqBody?
       case PosDeletes => s[f.path].obj.DelBody? && FilePaths(s[f.path].obj.cols).Some? && Positions(s[f.path].obj.cols).Some?
       case OtherContent(_) => false
  }

  ghost predicate Complete(s: Store, es: seq<LiveEntry>) {
    forall e | e in es :: Present(s, e.file)
  }

  // Bounds on the file_path column.

  function BoundValue(bounds: Bounds, id: int): Option<string> {
    if bounds == [] then None else if bounds[0].0 == id then Some(bounds[0].1) else BoundValue(bounds[1..], id)
  }

  function FilePathBound(bounds: Option<Bounds>): Option<string> {
    match bounds case None => None case Some(bs) => BoundValue(bs, ReservedFilePathId)
  }

  predicate AtLeast(lo: Option<string>, p: string) {
    lo.Some? ==> Leq(lo.value, p)
  }

  predicate AtMost(p: string, hi: Option<string>) {
    hi.Some? ==> Leq(p, hi.value)
  }

  /** The bounds test of an engine's delete-file index: equal bounds scope the delete file to one data file, other
      bounds exclude the data files outside them. */
  predicate Admits(f: FileInfo, path: Uri) {
    var lo, hi := FilePathBound(f.lower), FilePathBound(f.upper);
    if lo.Some? && lo == hi then path == lo.value else AtLeast(lo, path) && AtMost(path, hi)
  }

  /** Sound bounds: every path in the body lies within them. */
  ghost predicate BoundsCover(lo: Option<string>, hi: Option<string>, rows: Paths) {
    forall i | 0 <= i < |rows| && rows[i].Some? :: AtLeast(lo, rows[i].value) && AtMost(rows[i].value, hi)
  }

  // Which rows are live.

  const Unpartitioned: int := 0

  ghost predicate MarksRow(cols: seq<NamedCol>, path: Uri, k: int) {
    && FilePaths(cols).Some? && Positions(cols).Some?
    && exists i | 0 <= i < |FilePaths(cols).value| && i < |Positions(cols).value| ::
         FilePaths(cols).value[i] == Some(path) && Positions(cols).value[i] == k
  }

  /** Position-delete file e is applied to data file d. With prune, the reader consults the bounds first. */
  predicate AppliesTo(prune: bool, e: LiveEntry, d: LiveEntry) {
    && e.file.content.PosDeletes?
    && d.seqNum <= e.seqNum
    && e.file.partition == d.file.partition
    && (e.file.ref.Some? ==> e.file.ref.value == d.file.path)
    && (prune ==> Admits(e.file, d.file.path))
  }

  predicate EqualityApplies(e: LiveEntry, d: LiveEntry) {
    && e.file.content.EqDeletes?
    && d.seqNum < e.seqNum
    && (e.file.partition == d.file.partition || e.file.partition == Unpartitioned)
  }

  /** Entry e removes row k of data file d. */
  ghost predicate Removes(prune: bool, s: Store, e: LiveEntry, d: LiveEntry, k: nat, row: Row)
    requires Present(s, e.file)
  {
    || (AppliesTo(prune, e, d) && MarksRow(s[e.file.path].obj.cols, d.file.path, k))
    || (EqualityApplies(e, d) && row in s[e.file.path].obj.keys)
  }

  ghost predicate IsRemoved(prune: bool, s: Store, es: seq<LiveEntry>, d: LiveEntry, k: nat, row: Row)
    requires Complete(s, es)
  {
    exists e | e in es :: Removes(prune, s, e, d, k, row)
  }

  type FileRows = seq<(nat, Row)>

  /** The live rows of one data file from position k on. */
  ghost function Survivors(prune: bool, s: Store, es: seq<LiveEntry>, d: LiveEntry, rows: seq<Row>, k: nat): FileRows
    requires Complete(s, es) && k <= |rows|
    decreases |rows| - k
  {
    if k == |rows| then []
    else
      var rest := Survivors(prune, s, es, d, rows, k + 1);
      if IsRemoved(prune, s, es, d, k, rows[k]) then rest else [(k, rows[k])] + rest
  }

  /** The live rows of the data files among ds, file by file. */
  ghost function LiveRows(prune: bool, s: Store, es: seq<LiveEntry>, ds: seq<LiveEntry>): seq<FileRows>
    requires Complete(s, es) && Complete(s, ds)
  {
    if ds == [] then []
    else
      assert forall e | e in ds[1..] :: e in ds;
      var rest := LiveRows(prune, s, es, ds[1..]);
      if ds[0].file.content.Data?
      then [Survivors(prune, s, es, ds[0], s[ds[0].file.path].obj.rows, 0)] + rest
      else rest
  }

  /** What a reader sees of a snapshot: None when the graph below it is incomplete. */
  ghost function ReadSnapshot(prune: bool, s: Store, snap: SnapshotJSON): Option<seq<FileRows>> {
    match SnapshotEntries(s, snap)
    case None => None
    case Some(es) => if Complete(s, es) then Some(LiveRows(prune, s, es, es)) else None
  }

  // Two readings compared, row by row.

  /** A way to read: with or without bounds, from this store, with the entries that may remove rows. */
  datatype View = View(prune: bool, store: Store, es: seq<LiveEntry>)

  /** From position k on, the same rows of d in one view and of c in the other are removed. */
  ghost predicate SameFate(v: View, d: LiveEntry, w: View, c: LiveEntry, rows: seq<Row>, k: nat)
    requires Complete(v.store, v.es) && Complete(w.store, w.es)
  {
    forall n: nat | k <= n < |rows| ::
      IsRemoved(v.prune, v.store, v.es, d, n, rows[n]) <==> IsRemoved(w.prune, w.store, w.es, c, n, rows[n])
  }

  lemma SameFateFront(v: View, d: LiveEntry, w: View, c: LiveEntry, rows: seq<Row>, k: nat)
    requires Complete(v.store, v.es) && Complete(w.store, w.es) && k < |rows|
    ensures SameFate(v, d, w, c, rows, k) <==>
            && (IsRemoved(v.prune, v.store, v.es, d, k, rows[k]) <==> IsRemoved(w.prune, w.store, w.es, c, k, rows[k]))
            && SameFate(v, d, w, c, rows, k + 1)
  {
    hide IsRemoved;
  }

  lemma {:induction false} SurvivorsFrom(v: View, d: LiveEntry, rows: seq<Row>, k: nat)
    requires Complete(v.store, v.es) && k <= |rows|
    ensures forall x | x in Survivors(v.prune, v.store, v.es, d, rows, k) :: x.0 >= k
    decreases |rows| - k
  {
    hide IsRemoved;
    if k < |rows| {
      SurvivorsFrom(v, d, rows, k + 1);
    }
  }

  /** Consing under a condition: the results agree exactly when the conditions and the tails do. */
  lemma SameHead<T>(x: T, p: bool, a: seq<T>, q: bool, b: seq<T>)
    requires x !in a && x !in b
    ensures (if p then a else [x] + a) == (if q then b else [x] + b) <==> p == q && a == b
  {
    if !p && !q && [x] + a == [x] + b {
      assert ([x] + a)[1..] == a && ([x] + b)[1..] == b;
    }
    assert x in [x] + a && x in [x] + b;
  }

  /** Two views keep the same rows of a data file exactly when every row meets the same fate in both. */
  lemma {:induction false} SurvivorsSameIff(v: View, d: LiveEntry, w: View, c: LiveEntry, rows: seq<Row>, k: nat)
    requires Complete(v.store, v.es) && Complete(w.store, w.es) && k <= |rows|
    ensures Survivors(v.prune, v.store, v.es, d, rows, k) == Survivors(w.prune, w.store, w.es, c, rows, k) <==>
            SameFate(v, d, w, c, rows, k)
    decreases |rows| - k
  {
    hide IsRemoved;
    if k < |rows| {
      SurvivorsSameIff(v, d, w, c, rows, k + 1);
      SameFateFront(v, d, w, c, rows, k);
      hide SameFate;
      SurvivorsFrom(v, d, rows, k + 1);
      SurvivorsFrom(w, c, rows, k + 1);
      SameHead((k, rows[k]),
        IsRemoved(v.prune, v.store, v.es, d, k, rows[k]), Survivors(v.prune, v.store, v.es, d, rows, k + 1),
        IsRemoved(w.prune, w.store, w.es, c, k, rows[k]), Survivors(w.prune, w.store, w.es, c, rows, k + 1));
    }
  }

  /** d in one store and c in the other are both data files, with the same rows, or neither is one. */
  ghost predicate SameBody(s: Store, d: LiveEntry, r: Store, c: LiveEntry)
    requires Present(s, d.file) && Present(r, c.file)
  {
    && (d.file.content.Data? <==> c.file.content.Data?)
    && (d.file.content.Data? ==> r[c.file.path].obj == s[d.file.path].obj)
  }

  ghost predicate SameBodies(s: Store, ds: seq<LiveEntry>, r: Store, cs: seq<LiveEntry>)
    requires Complete(s, ds) && Complete(r, cs)
  {
    |ds| == |cs| && forall i | 0 <= i < |ds| :: SameBody(s, ds[i], r, cs[i])
  }

  ghost predicate SameFates(v: View, ds: seq<LiveEntry>, w: View, cs: seq<LiveEntry>)
    requires Complete(v.store, v.es) && Complete(w.store, w.es) && Complete(v.store, ds) && |ds| == |cs|
  {
    forall i | 0 <= i < |ds| && ds[i].file.content.Data? :: SameFate(v, ds[i], w, cs[i], v.store[ds[i].file.path].obj.rows, 0)
  }

  lemma FirstOfAll(v: View, ds: seq<LiveEntry>, w: View, cs: seq<LiveEntry>)
    requires Complete(v.store, v.es) && Complete(w.store, w.es) && Complete(v.store, ds) && Complete(w.store, cs)
    requires SameBodies(v.store, ds, w.store, cs) && ds != []
    ensures Present(v.store, ds[0].file) && Present(w.store, cs[0].file) && SameBody(v.store, ds[0], w.store, cs[0])
    ensures Complete(v.store, ds[1..]) && Complete(w.store, cs[1..]) && SameBodies(v.store, ds[1..], w.store, cs[1..])
    ensures SameFates(v, ds, w, cs) <==>
            && (ds[0].file.content.Data? ==> SameFate(v, ds[0], w, cs[0], v.store[ds[0].file.path].obj.rows, 0))
            && SameFates(v, ds[1..], w, cs[1..])
  {
    hide SameFate, SameBody, Present;
    assert forall d | d in ds[1..] :: d in ds;
    assert forall c | c in cs[1..] :: c in cs;
    assert ds[0] in ds && cs[0] in cs;
  }

  lemma SameParts<T>(x: T, a: seq<T>, y: T, b: seq<T>)
    ensures [x] + a == [y] + b <==> x == y && a == b
  {
    if [x] + a == [y] + b {
      assert ([x] + a)[0] == x && ([y] + b)[0] == y;
      assert ([x] + a)[1..] == a && ([y] + b)[1..] == b;
    }
  }

  /** Two views yield the same live rows, file by file, exactly when every row of every data file meets the same fate. */
  lemma {:induction false} LiveRowsSameIff(v: View, ds: seq<LiveEntry>, w: View, cs: seq<LiveEntry>)
    requires Complete(v.store, v.es) && Complete(w.store, w.es) && Complete(v.store, ds) && Complete(w.store, cs)
    requires SameBodies(v.store, ds, w.store, cs)
    ensures LiveRows(v.prune, v.store, v.es, ds) == LiveRows(w.prune, w.store, w.es, cs) <==> SameFates(v, ds, w, cs)
    decreases |ds|
  {
    if ds != [] {
      FirstOfAll(v, ds, w, cs);
      LiveRowsSameIff(v, ds[1..], w, cs[1..]);
      hide Complete, SameBodies, SameFates, SameFate, Survivors;
      if ds[0].file.content.Data? {
        var rows := v.store[ds[0].file.path].obj.rows;
        SurvivorsSameIff(v, ds[0], w, cs[0], rows, 0);
        SameParts(Survivors(v.prune, v.store, v.es, ds[0], rows, 0), LiveRows(v.prune, v.store, v.es, ds[1..]),
                  Survivors(w.prune, w.store, w.es, cs[0], rows, 0), LiveRows(w.prune, w.store, w.es, cs[1..]));
      }
    }
  }

  // Bounds change nothing for a reader when they are sound.

  lemma AdmitsWithinBounds(f: FileInfo, path: Uri)
    ensures Admits(f, path) <==> AtLeast(FilePathBound(f.lower), path) && AtMost(path, FilePathBound(f.upper))
  {
    var lo, hi := FilePathBound(f.lower), FilePathBound(f.upper);
    if lo.Some? && lo == hi {
      LeqReflexive(path);
      if Leq(lo.value, path) && Leq(path, lo.value) {
        LeqAntisymmetric(lo.value, path);
      }
    }
  }

  /** The bounds of every position-delete entry cover the rows of its body. */
  ghost predicate SoundBounds(s: Store, es: seq<LiveEntry>)
    requires Complete(s, es)
  {
    forall e | e in es && e.file.content.PosDeletes? ::
      BoundsCover(FilePathBound(e.file.lower), FilePathBound(e.file.upper), FilePaths(s[e.file.path].obj.cols).value)
  }

  lemma PruneSkipsNothing(s: Store, es: seq<LiveEntry>, e: LiveEntry, d: LiveEntry, k: nat, row: Row)
    requires Complete(s, es) && SoundBounds(s, es) && e in es
    ensures Removes(true, s, e, d, k, row) <==> Removes(false, s, e, d, k, row)
  {
    if AppliesTo(false, e, d) && MarksRow(s[e.file.path].obj.cols, d.file.path, k) {
      AdmitsWithinBounds(e.file, d.file.path);
      var rows := FilePaths(s[e.file.path].obj.cols).value;
      assert BoundsCover(FilePathBound(e.file.lower), FilePathBound(e.file.upper), rows);
      var i :| 0 <= i < |rows| && rows[i] == Some(d.file.path);
    }
  }

  /** A reader that skips delete files by sound bounds sees what a reader of every body sees. */
  lemma PrunedEqualsUnpruned(s: Store, es: seq<LiveEntry>, ds: seq<LiveEntry>)
    requires Complete(s, es) && Complete(s, ds) && SoundBounds(s, es)
    ensures LiveRows(true, s, es, ds) == LiveRows(false, s, es, ds)
  {
    hide Removes, SoundBounds, Survivors, LiveRows;
    forall d, k: nat, row ensures IsRemoved(true, s, es, d, k, row) <==> IsRemoved(false, s, es, d, k, row) {
      forall e | e in es ensures Removes(true, s, e, d, k, row) <==> Removes(false, s, e, d, k, row) {
        PruneSkipsNothing(s, es, e, d, k, row);
      }
    }
    hide IsRemoved;
    LiveRowsSameIff(View(true, s, es), ds, View(false, s, es), ds);
  }

  // Two readings agree when the entries correspond.

  /** g describes, in store r, the file that f describes in store s, with every URI passed through the mapping. */
  ghost predicate Carried(m: PrefixMapping, s: Store, r: Store, f: FileInfo, g: FileInfo) {
    && Present(s, f) && Present(r, g)
    && g.content == f.content && g.partition == f.partition
    && g.path == m.Apply(f.path)
    && g.ref == (if f.ref.Some? then Some(m.Apply(f.ref.value)) else None)
    && match f.content
       case PosDeletes =>
         var a, b := s[f.path].obj.cols, r[g.path].obj.cols;
         FilePaths(b).value == MapRows(m, FilePaths(a).value) && Positions(b) == Positions(a)
       case _ => r[g.path].obj == s[f.path].obj
  }

  /** Two URIs that the mapping merges; one is then the target-side twin of the other. */
  predicate Merged(m: PrefixMapping, a: Uri, b: Uri) {
    a != b && m.Apply(a) == m.Apply(b)
  }

  /** Neither the reference nor a row of the delete entry is merged with this path. */
  ghost predicate KeptApart(m: PrefixMapping, s: Store, e: FileInfo, path: Uri)
    requires Present(s, e)
  {
    e.content.PosDeletes? ==>
      && (e.ref.Some? ==> !Merged(m, e.ref.value, path))
      && forall i | 0 <= i < |FilePaths(s[e.path].obj.cols).value| && FilePaths(s[e.path].obj.cols).value[i].Some? ::
           !Merged(m, FilePaths(s[e.path].obj.cols).value[i].value, path)
  }

  /** No URI by which a delete picks its data file is merged with the path of another one. */
  ghost predicate AllKeptApart(m: PrefixMapping, s: Store, es: seq<LiveEntry>)
    requires Complete(s, es)
  {
    forall e, d | e in es && d in es && d.file.content.Data? :: KeptApart(m, s, e.file, d.file.path)
  }

  ghost predicate CarriedAll(m: PrefixMapping, s: Store, r: Store, es: seq<LiveEntry>, fs: seq<LiveEntry>) {
    && |fs| == |es|
    && forall i | 0 <= i < |es| ::
         && fs[i].seqNum == es[i].seqNum
         && Carried(m, s, r, es[i].file, fs[i].file)
  }

  lemma CarriedComplete(m: PrefixMapping, s: Store, r: Store, es: seq<LiveEntry>, fs: seq<LiveEntry>)
    requires CarriedAll(m, s, r, es, fs)
    ensures Complete(s, es) && Complete(r, fs)
  {
    forall f | f in fs ensures Present(r, f.file) {
      var i :| 0 <= i < |fs| && fs[i] == f;
      assert Carried(m, s, r, es[i].file, fs[i].file);
    }
    forall e | e in es ensures Present(s, e.file) {
      var i :| 0 <= i < |es| && es[i] == e;
      assert Carried(m, s, r, es[i].file, fs[i].file);
    }
  }

  lemma MarksCarried(m: PrefixMapping, s: Store, r: Store, e: FileInfo, f: FileInfo, path: Uri, k: nat)
    requires m.Legal() && e.content.PosDeletes?
    requires Carried(m, s, r, e, f) && KeptApart(m, s, e, path)
    ensures MarksRow(r[f.path].obj.cols, m.Apply(path), k) <==> MarksRow(s[e.path].obj.cols, path, k)
  {
    var rows := FilePaths(s[e.path].obj.cols).value;
    ApplyUnapply(m, path);
    forall i | 0 <= i < |rows| ensures MapRow(m, rows[i]) == Some(m.Apply(path)) <==> rows[i] == Some(path) {
      if rows[i].Some? {
        assert !Merged(m, rows[i].value, path);
      }
    }
  }

  lemma RemovesCarried(m: PrefixMapping, s: Store, r: Store, e: LiveEntry, f: LiveEntry, d: LiveEntry, c: LiveEntry,
                       k: nat, row: Row)
    requires m.Legal()
    requires f.seqNum == e.seqNum && Carried(m, s, r, e.file, f.file)
    requires c.seqNum == d.seqNum && Carried(m, s, r, d.file, c.file)
    requires KeptApart(m, s, e.file, d.file.path)
    ensures Removes(false, r, f, c, k, row) <==> Removes(false, s, e, d, k, row)
  {
    if e.file.content.PosDeletes? {
      MarksCarried(m, s, r, e.file, f.file, d.file.path, k);
    }
    hide MarksRow;
  }

  /** If corresponding entries remove row k alike, it is removed in both views or in neither. */
  lemma IsRemovedAlike(v: View, d: LiveEntry, w: View, c: LiveEntry, k: nat, row: Row)
    requires Complete(v.store, v.es) && Complete(w.store, w.es) && |v.es| == |w.es|
    requires forall i | 0 <= i < |v.es| ::
               Removes(v.prune, v.store, v.es[i], d, k, row) <==> Removes(w.prune, w.store, w.es[i], c, k, row)
    ensures IsRemoved(v.prune, v.store, v.es, d, k, row) <==> IsRemoved(w.prune, w.store, w.es, c, k, row)
  {
    hide Removes;
    if e :| e in v.es && Removes(v.prune, v.store, e, d, k, row) {
      var i :| 0 <= i < |v.es| && v.es[i] == e;
      assert w.es[i] in w.es;
    }
    if e :| e in w.es && Removes(w.prune, w.store, e, c, k, row) {
      var i :| 0 <= i < |w.es| && w.es[i] == e;
      assert v.es[i] in v.es;
    }
  }

  /** Corresponding entries in two stores yield the same live rows, file by file. */
  lemma LiveRowsCarried(m: PrefixMapping, s: Store, r: Store, es: seq<LiveEntry>, fs: seq<LiveEntry>)
    requires m.Legal() && CarriedAll(m, s, r, es, fs) && Complete(s, es) && Complete(r, fs) && AllKeptApart(m, s, es)
    ensures LiveRows(false, r, fs, fs) == LiveRows(false, s, es, es)
  {
    hide Removes, KeptApart, LiveRows, IsRemoved;
    var v, w := View(false, s, es), View(false, r, fs);
    forall j, n: nat, row | 0 <= j < |es| && es[j].file.content.Data?
      ensures IsRemoved(false, s, es, es[j], n, row) <==> IsRemoved(false, r, fs, fs[j], n, row)
    {
      assert es[j] in es;
      forall i | 0 <= i < |es| ensures Removes(false, s, es[i], es[j], n, row) <==> Removes(false, r, fs[i], fs[j], n, row) {
        assert es[i] in es;
        RemovesCarried(m, s, r, es[i], fs[i], es[j], fs[j], n, row);
      }
      IsRemovedAlike(v, es[j], w, fs[j], n, row);
    }
    forall i | 0 <= i < |es| ensures SameBody(s, es[i], r, fs[i]) {
      assert Carried(m, s, r, es[i].file, fs[i].file);
    }
    LiveRowsSameIff(v, es, w, fs);
  }
}
