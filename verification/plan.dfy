/** What a rewrite does on fault-free storage, as a pure function of the store it starts from: its result and the
    writes it makes, in order. Each step reads the store left by the writes before it. */
module Plan {
  import opened Wrappers
  import opened Prefix
  import opened Json
  import opened Metadata
  import opened Graph
  import opened Deletes

  /** The mapping; the encoder, which refuses an object or yields its length; the float64 trip of JSON numbers. */
  datatype Env = Env(m: PrefixMapping, enc: Obj -> Option<nat>, num: int -> int)

  datatype Run<+T> = Run(res: Result<T, Error>, puts: seq<Put>)

  function Fail<T>(e: Error): Run<T> {
    Run(Failure(e), [])
  }

  /** Encode an object and PUT it. */
  function PlanWrite(env: Env, uri: Uri, obj: Obj): Run<nat> {
    match env.enc(obj)
    case None => Fail(Unencodable(uri))
    case Some(n) => Run(Success(n), [Put(uri, Blob(obj, n))])
  }

  // Loops of the walk. All of them stop at the first failure and gather what follows.

  /** What a loop has gathered: rewritten entries or descriptors, hits, whether anything changed, and counters. */
  datatype Gathered = Gathered(
    entries: seq<Entry>,
    files: seq<ManifestFile>,
    hits: seq<PathHit>,
    changed: bool,
    manifests: nat,
    lists: nat)

  const Nothing: Gathered := Gathered([], [], [], false, 0, 0)

  function Plus(a: Gathered, b: Gathered): Gathered {
    Gathered(a.entries + b.entries, a.files + b.files, a.hits + b.hits, a.changed || b.changed,
             a.manifests + b.manifests, a.lists + b.lists)
  }

  /** A run preceded by what was gathered and written before it. */
  function Lead(g: Gathered, puts: seq<Put>, r: Run<Gathered>): Run<Gathered> {
    Run(match r.res case Success(h) => Success(Plus(g, h)) case Failure(e) => Failure(e), puts + r.puts)
  }

  function PlanLoop<X>(step: (Store, X) -> Run<Gathered>, s: Store, xs: seq<X>): Run<Gathered>
    decreases |xs|
  {
    if xs == [] then Run(Success(Nothing), [])
    else
      var r := step(s, xs[0]);
      match r.res
      case Failure(e) => r
      case Success(g) => Lead(g, r.puts, PlanLoop(step, After(s, r.puts), xs[1..]))
  }

  // Position-delete bodies.

  /** PositionDeleteRewrite; newSize is -1 for a file out of scope. */
  datatype BodyRewrite = BodyRewrite(newUri: Uri, newSize: int, rewritten: bool)

  function PlanBody(env: Env, s: Store, uri: Uri): Run<BodyRewrite> {
    if !env.m.Matches(uri) then Run(Success(BodyRewrite(uri, -1, false)), [])
    else if uri !in s then Fail(StorageFailed(uri))
    else if !s[uri].obj.DelBody? then Fail(Undecodable(uri))
    else
      var newUri := env.m.Apply(uri);
      match ConvertBody(env.m, uri, s[uri].obj.cols)
      case Failure(e) => Fail(e)
      case Success((cols, false)) => Run(Success(BodyRewrite(newUri, s[uri].size, false)), [])
      case Success((cols, true)) =>
        var w := PlanWrite(env, newUri, DelBody(cols));
        match w.res
        case Failure(e) => Run(Failure(e), w.puts)
        case Success(n) => Run(Success(BodyRewrite(newUri, n, true)), w.puts)
  }

  // Manifest entries.

  const ReservedFilePathId: int := 2147483546

  function MapBound(m: PrefixMapping, b: (int, string)): (int, string) {
    if b.0 == ReservedFilePathId then (b.0, m.Apply(b.1)) else b
  }

  function MapBounds(m: PrefixMapping, bounds: Option<Bounds>): Option<Bounds> {
    match bounds
    case None => None
    case Some(bs) => Some(seq(|bs|, i requires 0 <= i < |bs| => MapBound(m, bs[i])))
  }

  /** fixupPositionDeleteEntryStats. */
  function FixedUp(m: PrefixMapping, f: FileInfo, newSize: int): FileInfo {
    if newSize < 0 then f
    else f.(lower := MapBounds(m, f.lower), upper := MapBounds(m, f.upper), size := newSize,
            splits := None, colSizes := None)
  }

  /** The path and the non-empty reference of an entry, mapped. */
  function MovedFile(m: PrefixMapping, f: FileInfo): FileInfo {
    f.(path := m.Apply(f.path), ref := if f.ref.Some? && f.ref.value != "" then Some(m.Apply(f.ref.value)) else f.ref)
  }

  function EntryHits(m: PrefixMapping, manifest: Uri, f: FileInfo): seq<PathHit> {
    [PathHit(EntryPath(manifest), f.path, m.Apply(f.path))] +
    if f.ref.Some? && f.ref.value != ""
    then [PathHit(EntryReference(manifest), f.ref.value, m.Apply(f.ref.value))] else []
  }

  function Lower(c: char): char {
    if 'A' <= c <= 'Z' then (c as int + ('a' as int - 'A' as int)) as char else c
  }

  const PuffinExt: string := ".puffin"

  /** The URI ends in .puffin, in any mix of cases. */
  predicate IsPuffin(uri: Uri) {
    |uri| >= |PuffinExt| &&
    forall i | 0 <= i < |PuffinExt| :: Lower(uri[|uri| - |PuffinExt| + i]) == PuffinExt[i]
  }

  function GatherEntry(m: PrefixMapping, manifest: Uri, e: Entry, fixed: FileInfo): Gathered {
    var moved := MovedFile(m, fixed);
    Gathered([e.(file := moved)], [], EntryHits(m, manifest, e.file), moved != e.file, 0, 0)
  }

  function PlanEntry(env: Env, manifest: Uri, s: Store, e: Entry): Run<Gathered> {
    match e.file.content
    case OtherContent(_) => Fail(Unsupported(manifest))
    case PosDeletes =>
      if IsPuffin(e.file.path) then Fail(Unsupported(manifest))
      else
        var b := PlanBody(env, s, e.file.path);
        (match b.res
         case Failure(err) => Run(Failure(err), b.puts)
         case Success(pd) => Run(Success(GatherEntry(env.m, manifest, e, FixedUp(env.m, e.file, pd.newSize))), b.puts))
    case _ => Run(Success(GatherEntry(env.m, manifest, e, e.file)), [])
  }

  function EntryStep(env: Env, manifest: Uri): (Store, Entry) -> Run<Gathered> {
    (s, e) => PlanEntry(env, manifest, s, e)
  }

  // Manifests.

  function Summarize(entries: seq<Entry>): Summary {
    seq(|entries|, i requires 0 <= i < |entries| => (entries[i].status, entries[i].file.records, entries[i].file.partition))
  }

  /** The descriptor that the manifest writer produces: sequence numbers unassigned. */
  function WriterFile(mf: ManifestFile, specId: int, path: Uri, length: int, entries: seq<Entry>): ManifestFile {
    ManifestFile(mf.version, path, length, specId, mf.snapshotId, -1, -1, mf.content, Summarize(entries))
  }

  /** preserveSequenceNumbers. */
  function PreserveSequenceNumbers(newMF: ManifestFile, originalMF: ManifestFile): ManifestFile {
    newMF.(seqNum := originalMF.seqNum, minSeqNum := originalMF.minSeqNum, content := originalMF.content)
  }

  datatype ManifestRewrite = ManifestRewrite(file: ManifestFile, hits: seq<PathHit>)

  function PlanManifest(env: Env, s: Store, mf: ManifestFile): Run<ManifestRewrite> {
    if mf.path !in s then Fail(StorageFailed(mf.path))
    else
      var obj := s[mf.path].obj;
      if !obj.Manifest? || obj.content != mf.content then Fail(Undecodable(mf.path))
      else if !obj.headerOk then Fail(BadHeader(mf.path))
      else
        var r := PlanLoop(EntryStep(env, mf.path), s, obj.entries);
        match r.res
        case Failure(e) => Run(Failure(e), r.puts)
        case Success(g) => FinishManifest(env, mf, obj.specId, g, r.puts)
  }

  /** After the entry loop: leave the manifest alone, refuse it, or write it at the mapped URI. */
  function FinishManifest(env: Env, mf: ManifestFile, specId: int, g: Gathered, puts: seq<Put>): Run<ManifestRewrite> {
    if !g.changed then Run(Success(ManifestRewrite(mf, g.hits)), puts)
    else if !env.m.Matches(mf.path) then Run(Failure(OutsidePrefix(mf.path)), puts)
    else
      var newUri := env.m.Apply(mf.path);
      var w := PlanWrite(env, newUri, Manifest(mf.version, mf.content, specId, true, g.entries));
      match w.res
      case Failure(e) => Run(Failure(e), puts + w.puts)
      case Success(n) =>
        var newMF := PreserveSequenceNumbers(WriterFile(mf, specId, newUri, n, g.entries), mf);
        Run(Success(ManifestRewrite(newMF, g.hits)), puts + w.puts)
  }

  /** The dry-run counterpart: WalkManifest. */
  function PlanWalkEntry(env: Env, manifest: Uri, s: Store, e: Entry): Run<Gathered> {
    var ok := Run(Success(Nothing.(hits := EntryHits(env.m, manifest, e.file))), []);
    match e.file.content
    case OtherContent(_) => Fail(Unsupported(manifest))
    case PosDeletes =>
      if IsPuffin(e.file.path) then Fail(Unsupported(manifest))
      else (match WalkStored(env, s, e.file.path) case Some(err) => Fail(err) case None => ok)
    case _ => ok
  }

  /** WalkPositionDeleteFile. */
  function WalkStored(env: Env, s: Store, uri: Uri): Option<Error> {
    if !env.m.Matches(uri) then None
    else if uri !in s then Some(StorageFailed(uri))
    else if !s[uri].obj.DelBody? then Some(Undecodable(uri))
    else WalkBody(env.m, uri, s[uri].obj.cols)
  }

  function WalkStep(env: Env, manifest: Uri): (Store, Entry) -> Run<Gathered> {
    (s, e) => PlanWalkEntry(env, manifest, s, e)
  }

  function PlanWalkManifest(env: Env, s: Store, mf: ManifestFile): Run<Gathered> {
    if mf.path !in s then Fail(StorageFailed(mf.path))
    else
      var obj := s[mf.path].obj;
      if !obj.Manifest? || obj.content != mf.content then Fail(Undecodable(mf.path))
      else PlanLoop(WalkStep(env, mf.path), s, obj.entries)
  }

  // Manifest lists, flat V1 lists, snapshots.

  predicate MovedOrResized(newMF: ManifestFile, mf: ManifestFile) {
    newMF.path != mf.path || newMF.length != mf.length
  }

  /** One manifest of a list, live or dry. */
  function PlanFile(env: Env, dry: bool, s: Store, mf: ManifestFile): Run<Gathered> {
    if dry then PlanWalkManifest(env, s, mf)
    else
      var r := PlanManifest(env, s, mf);
      match r.res
      case Failure(e) => Run(Failure(e), r.puts)
      case Success(out) =>
        var moved := MovedOrResized(out.file, mf);
        Run(Success(Gathered([], [out.file], out.hits, moved, if moved then 1 else 0, 0)), r.puts)
  }

  function FileStep(env: Env, dry: bool): (Store, ManifestFile) -> Run<Gathered> {
    (s, mf) => PlanFile(env, dry, s, mf)
  }

  /** loadV1ManifestDescriptor, given the length that HEAD reports. */
  function V1Descriptor(uri: Uri, length: int, snapshotId: int): ManifestFile {
    ManifestFile(1, uri, length, 0, snapshotId, 0, 0, DataManifest, [])
  }

  function PlanFlat(env: Env, dry: bool, snapshotId: int, s: Store, uri: Uri): Run<Gathered> {
    if uri !in s then Fail(StorageFailed(uri))
    else
      var r := PlanFile(env, dry, s, V1Descriptor(uri, s[uri].size, snapshotId));
      match r.res
      case Failure(e) => r
      case Success(g) => Run(Success(g.(files := [], changed := false)), r.puts)
  }

  function FlatStep(env: Env, dry: bool, snapshotId: int): (Store, Uri) -> Run<Gathered> {
    (s, uri) => PlanFlat(env, dry, snapshotId, s, uri)
  }

  /** The hits of WalkManifestList. */
  function ListHits(m: PrefixMapping, list: Uri, files: seq<ManifestFile>): seq<PathHit> {
    seq(|files|, i requires 0 <= i < |files| => PathHit(ListedManifest(list, i), files[i].path, m.Apply(files[i].path)))
  }

  function PlanList(env: Env, dry: bool, s: Store, uri: Uri): Run<Gathered> {
    if uri !in s then Fail(StorageFailed(uri))
    else if !s[uri].obj.List? then Fail(Undecodable(uri))
    else
      var list := s[uri].obj;
      var r := PlanLoop(FileStep(env, dry), s, list.files);
      match r.res
      case Failure(e) => r
      case Success(g) => FinishList(env, dry, uri, list, g, r.puts)
  }

  /** After the manifest loop: write the list if something below it changed or its own URI moves. */
  function FinishList(env: Env, dry: bool, uri: Uri, list: Obj, g: Gathered, puts: seq<Put>): Run<Gathered>
    requires list.List?
  {
    var out := Gathered([], [], ListHits(env.m, uri, list.files) + g.hits, false, g.manifests, 0);
    if dry || !(g.changed || env.m.Apply(uri) != uri) then Run(Success(out), puts)
    else if g.changed && !env.m.Matches(uri) then Run(Failure(OutsidePrefix(uri)), puts)
    else
      var w := PlanWrite(env, env.m.Apply(uri), List(list.version, list.header, g.files));
      match w.res
      case Failure(e) => Run(Failure(e), puts + w.puts)
      case Success(_) => Run(Success(out.(lists := 1)), puts + w.puts)
  }

  function PlanSnapshot(env: Env, dry: bool, s: Store, snap: SnapshotJSON): Run<Gathered> {
    var a := if snap.manifestList == "" then Run(Success(Nothing), []) else PlanList(env, dry, s, snap.manifestList);
    match a.res
    case Failure(e) => a
    case Success(g) => Lead(g, a.puts, PlanLoop(FlatStep(env, dry, snap.id), After(s, a.puts), snap.manifests))
  }

  function SnapshotStep(env: Env, dry: bool): (Store, SnapshotJSON) -> Run<Gathered> {
    (s, snap) => PlanSnapshot(env, dry, s, snap)
  }

  // The table.

  /** RewriteMetadataJSON: the URI to hand to the catalog. */
  function PlanMeta(env: Env, s: Store, uri: Uri): Run<Uri> {
    if !env.m.Matches(uri) then Fail(WrongPrefix(uri))
    else if uri !in s then Fail(StorageFailed(uri))
    else if !s[uri].obj.Meta? then Fail(Undecodable(uri))
    else
      var doc := s[uri].obj.doc;
      if RelocateDoc(env.m, doc) == doc then Run(Success(uri), [])
      else
        var newUri := env.m.Apply(uri);
        var w := PlanWrite(env, newUri, Meta(WrittenDoc(env.m, env.num, doc)));
        match w.res
        case Failure(e) => Run(Failure(e), w.puts)
        case Success(_) => Run(Success(newUri), w.puts)
  }

  datatype RewriteResult = RewriteResult(oldLoc: Uri, newLoc: Uri, lists: nat, manifests: nat, hits: seq<PathHit>)

  datatype Options = Options(currentOnly: bool, dry: bool)

  /** The parsed metadata at a location. */
  function LoadMeta(s: Store, loc: Uri): Result<MetadataJSON, Error> {
    if loc !in s then Failure(StorageFailed(loc))
    else if !s[loc].obj.Meta? then Failure(Undecodable(loc))
    else match Parse(s[loc].obj.doc)
      case None => Failure(Undecodable(loc))
      case Some(meta) => Success(meta)
  }

  /** RewriteTable, without the hits of the metadata write, which come last and in no fixed order. */
  function PlanTable(env: Env, opts: Options, s: Store, loc: Uri): Run<RewriteResult> {
    if !env.m.Matches(loc) then Fail(WrongPrefix(loc))
    else match LoadMeta(s, loc)
      case Failure(e) => Fail(e)
      case Success(meta) =>
        var r := PlanLoop(SnapshotStep(env, opts.dry), s, Selected(meta, opts.currentOnly));
        match r.res
        case Failure(e) => Run(Failure(e), r.puts)
        case Success(g) => FinishTable(env, opts, s, loc, WalkHits(env.m, meta) + g.hits, g, r.puts)
  }

  function FinishTable(env: Env, opts: Options, s: Store, loc: Uri, hits: seq<PathHit>, g: Gathered, puts: seq<Put>)
    : Run<RewriteResult>
  {
    if opts.dry then Run(Success(RewriteResult(loc, env.m.Apply(loc), g.lists, g.manifests, hits)), puts)
    else
      var w := PlanMeta(env, After(s, puts), loc);
      match w.res
      case Failure(e) => Run(Failure(e), puts + w.puts)
      case Success(newLoc) => Run(Success(RewriteResult(loc, newLoc, g.lists, g.manifests, hits)), puts + w.puts)
  }

  /** The report with the hits of the metadata write at its end. */
  function Reporting(r: Run<RewriteResult>, metaHits: seq<PathHit>): Run<RewriteResult> {
    match r.res
    case Failure(_) => r
    case Success(res) => r.(res := Success(res.(hits := res.hits + metaHits)))
  }
}
