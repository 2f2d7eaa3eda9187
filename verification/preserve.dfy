/** A successful run preserves what a reader sees. */
module Preserve {
  import opened Wrappers
  import opened Prefix
  import opened Json
  import opened Metadata
  import opened Graph
  import opened Deletes
  import opened Plan
  import opened PlanFacts
  import opened Closure
  import opened Scan

  // Entries.

  /** The data_file that the run leaves in place of f. */
  function RewrittenFile(env: Env, s: Store, f: FileInfo): FileInfo {
    if !f.content.PosDeletes? then MovedFile(env.m, f)
    else match PlanBody(env, s, f.path).res
      case Success(pd) => MovedFile(env.m, FixedUp(env.m, f, pd.newSize))
      case Failure(_) => f
  }

  function RewrittenEntries(env: Env, s: Store, entries: seq<Entry>): (r: seq<Entry>)
    ensures |r| == |entries|
  {
    seq(|entries|, i requires 0 <= i < |entries| => entries[i].(file := RewrittenFile(env, s, entries[i].file)))
  }

  /** An entry names something in scope. */
  predicate Touches(m: PrefixMapping, f: FileInfo) {
    m.Matches(f.path) || (f.ref.Some? && f.ref.value != "" && m.Matches(f.ref.value))
  }

  /** An entry is rewritten exactly when its path or its reference is in scope. */
  lemma RewrittenIffTouched(env: Env, s: Store, manifest: Uri, e: Entry)
    requires env.m.Legal() && PlanEntry(env, manifest, s, e).res.Success?
    ensures var g := PlanEntry(env, manifest, s, e).res.value;
            && g.entries == [e.(file := RewrittenFile(env, s, e.file))]
            && (g.changed <==> RewrittenFile(env, s, e.file) != e.file)
            && (g.changed <==> Touches(env.m, e.file))
  {
    hide ConvertBody;
    ApplyUnapply(env.m, e.file.path);
    if e.file.ref.Some? {
      ApplyUnapply(env.m, e.file.ref.value);
    }
  }

  /** Field by field, what a rewritten entry keeps and what it does not. Status, snapshot id and sequence number are kept,
      and of the data file its content, partition and record count. The body of a delete entry in scope has been encoded
      anew, so its size is that of the new encoding, or of the body as it was if nothing in it changed, and the split
      offsets and column sizes are cleared. Any other entry keeps them all, bounds included. */
  lemma EntryFields(env: Env, manifest: Uri, s: Store, e: Entry)
    requires env.m.Legal() && PlanEntry(env, manifest, s, e).res.Success?
    ensures var g := PlanEntry(env, manifest, s, e).res.value;
            && |g.entries| == 1
            && var out, f := g.entries[0], g.entries[0].file;
            && out.status == e.status && out.snapshotId == e.snapshotId && out.seqNum == e.seqNum
            && f.content == e.file.content && f.partition == e.file.partition && f.records == e.file.records
            && f.path == env.m.Apply(e.file.path) && f.ref.Some? == e.file.ref.Some?
            && (f.ref.Some? ==> f.ref.value == env.m.Apply(e.file.ref.value))
            && if e.file.content.PosDeletes? && env.m.Matches(e.file.path)
               then
                 && f.splits.None? && f.colSizes.None?
                 && e.file.path in s && s[e.file.path].obj.DelBody?
                 && FilePaths(s[e.file.path].obj.cols).Some?
                 && var puts := PlanEntry(env, manifest, s, e).puts;
                    if AnyInScope(env.m, FilePaths(s[e.file.path].obj.cols).value)
                    then |puts| == 1 && f.size == puts[0].blob.size else puts == [] && f.size == s[e.file.path].size
               else
                 && f.splits == e.file.splits && f.colSizes == e.file.colSizes
                 && f.size == e.file.size && f.lower == e.file.lower && f.upper == e.file.upper
  {
    hide ConvertBody, IsPuffin, MapBounds, FilePaths, AnyInScope, EntryHits;
    var u := e.file.path;
    if e.file.content.PosDeletes? && env.m.Matches(u) {
      ConvertedRows(env.m, u, s[u].obj.cols);
    }
  }

  /** The entry loop, taken apart at the front. */
  lemma EntriesFront(env: Env, s: Store, manifest: Uri, entries: seq<Entry>)
    requires env.m.Legal() && entries != [] && PlanLoop(EntryStep(env, manifest), s, entries).res.Success?
    ensures var step := EntryStep(env, manifest);
            var first, rest := PlanEntry(env, manifest, s, entries[0]), PlanLoop(step, s, entries[1..]);
            && first.res.Success? && rest.res.Success?
            && PlanLoop(step, s, entries).res.value == Plus(first.res.value, rest.res.value)
  {
    hide PlanEntry, Stable, Plus;
    var step := EntryStep(env, manifest);
    EntriesStable(env, s, manifest, entries);
    LoopUnthreaded(env.m, s, step, entries);
    assert step(s, entries[0]) == PlanEntry(env, manifest, s, entries[0]);
  }

  lemma {:induction false} EntriesRewritten(env: Env, s: Store, manifest: Uri, entries: seq<Entry>)
    requires env.m.Legal() && PlanLoop(EntryStep(env, manifest), s, entries).res.Success?
    ensures var g := PlanLoop(EntryStep(env, manifest), s, entries).res.value;
            && g.entries == RewrittenEntries(env, s, entries)
            && (g.changed <==> exists e | e in entries :: Touches(env.m, e.file))
    decreases |entries|
  {
    hide PlanEntry, RewrittenFile, Touches;
    if entries != [] {
      EntriesFront(env, s, manifest, entries);
      hide PlanLoop;
      var e, rest := entries[0], entries[1..];
      EntriesRewritten(env, s, manifest, rest);
      RewrittenIffTouched(env, s, manifest, e);
      FrontRewritten(env, s, entries);
      hide RewrittenEntries;
    }
  }

  lemma FrontRewritten(env: Env, s: Store, entries: seq<Entry>)
    requires entries != []
    ensures RewrittenEntries(env, s, entries) ==
            [entries[0].(file := RewrittenFile(env, s, entries[0].file))] + RewrittenEntries(env, s, entries[1..])
    ensures (exists e | e in entries :: Touches(env.m, e.file)) <==>
            Touches(env.m, entries[0].file) || exists e | e in entries[1..] :: Touches(env.m, e.file)
  {
    hide RewrittenFile, Touches;
    assert entries == [entries[0]] + entries[1..];
  }

  function MapLive(env: Env, s: Store, ls: seq<LiveEntry>): (r: seq<LiveEntry>)
    ensures |r| == |ls|
    ensures forall i | 0 <= i < |ls| :: r[i] == LiveEntry(RewrittenFile(env, s, ls[i].file), ls[i].seqNum)
  {
    seq(|ls|, i requires 0 <= i < |ls| => LiveEntry(RewrittenFile(env, s, ls[i].file), ls[i].seqNum))
  }

  lemma MapLiveConcat(env: Env, s: Store, a: seq<LiveEntry>, b: seq<LiveEntry>)
    ensures MapLive(env, s, a + b) == MapLive(env, s, a) + MapLive(env, s, b)
  {
    hide RewrittenFile;
  }

  /** Rewriting keeps status and sequence numbers, so it commutes with resolving live entries. */
  lemma {:induction false} LiveRewritten(env: Env, s: Store, entries: seq<Entry>, q: int)
    ensures Live(RewrittenEntries(env, s, entries), q) == MapLive(env, s, Live(entries, q))
  {
    hide RewrittenFile;
    if entries != [] {
      LiveRewritten(env, s, entries[1..], q);
      assert RewrittenEntries(env, s, entries)[1..] == RewrittenEntries(env, s, entries[1..]);
    }
  }

  // Manifests.

  /** In r, every object of the final store can be read, except, when the source is retired, those under its prefix. */
  ghost predicate Serves(m: PrefixMapping, retired: bool, r: Store, final: Store) {
    forall u | u in final && (retired ==> !m.Matches(u)) :: u in r && r[u] == final[u]
  }

  /** The bulk copy placed every object of the source prefix at its mapped URI. */
  ghost predicate Copied(m: PrefixMapping, s: Store) {
    forall u | u in s && m.Matches(u) :: m.Apply(u) in s && s[m.Apply(u)] == s[u]
  }

  /** r holds what these writes put there. */
  ghost predicate Held(r: Store, puts: seq<Put>) {
    forall p | p in puts :: p.uri in r && r[p.uri] == p.blob
  }

  /** Off the target everything is in r as it was in s, save for a retired source prefix. */
  ghost predicate OutsideKept(m: PrefixMapping, retired: bool, s: Store, r: Store) {
    forall u | u in s && !Twin(m, s, u) && (retired ==> !m.Matches(u)) :: u in r && r[u] == s[u]
  }

  /** The copies of the source objects that no run rewrites are in r. */
  ghost predicate CopiesKept(env: Env, ver: Versions, s: Store, r: Store) {
    forall u | u in s && env.m.Matches(u) && Rewritten(env, ver, s, u).None? ::
      env.m.Apply(u) in r && r[env.m.Apply(u)] == s[u]
  }

  /** The facts about the store r, left by a run with these writes, that reading needs. Nothing is said of other objects
      under the target, so other tables may have been rewritten in between. */
  ghost predicate Finished(env: Env, ver: Versions, retired: bool, s: Store, r: Store, puts: seq<Put>) {
    && env.m.Legal()
    && AllCanonical(env, ver, s, puts)
    && Held(r, puts)
    && OutsideKept(env.m, retired, s, r)
    && CopiesKept(env, ver, s, r)
  }

  /** The store that a run on its own leaves, source in place or retired. */
  lemma FinishedAlone(env: Env, ver: Versions, retired: bool, s: Store, r: Store, puts: seq<Put>)
    requires env.m.Legal() && AllCanonical(env, ver, s, puts) && Copied(env.m, s)
    requires Serves(env.m, retired, r, After(s, puts))
    ensures Finished(env, ver, retired, s, r, puts)
  {
    hide Rewritten;
    CanonicalAgrees(env, ver, s, puts);
    forall p | p in puts ensures p.uri in r && r[p.uri] == p.blob {
      AgreeingLast(s, puts, p);
      NotBoth(env.m, p.uri);
    }
    forall u | u in s && !Twin(env.m, s, u) && (retired ==> !env.m.Matches(u)) ensures u in r && r[u] == s[u] {
      AfterFrame(s, puts, u);
    }
    forall u | u in s && env.m.Matches(u) && Rewritten(env, ver, s, u).None?
      ensures env.m.Apply(u) in r && r[env.m.Apply(u)] == s[u]
    {
      ApplyUnapply(env.m, u);
      assert forall p | p in puts :: Canonical(env, ver, s, p);
      AfterFrame(s, puts, env.m.Apply(u));
    }
  }

  lemma ReadsWritten(env: Env, ver: Versions, retired: bool, s: Store, r: Store, puts: seq<Put>, p: Put)
    requires Finished(env, ver, retired, s, r, puts) && p in puts
    ensures p.uri in r && r[p.uri] == p.blob
  {
    hide Rewritten;
  }

  /** Outside both prefixes everything is read as it was. */
  lemma ReadsOutside(env: Env, ver: Versions, retired: bool, s: Store, r: Store, puts: seq<Put>, u: Uri)
    requires Finished(env, ver, retired, s, r, puts) && u in s && !Twin(env.m, s, u)
    requires retired ==> !env.m.Matches(u)
    ensures u in r && r[u] == s[u]
  {
    hide Rewritten, Canonical;
  }

  /** A source object that needs no rewrite is read from its copy. */
  lemma ReadsCopy(env: Env, ver: Versions, retired: bool, s: Store, r: Store, puts: seq<Put>, u: Uri)
    requires Finished(env, ver, retired, s, r, puts) && u in s && env.m.Matches(u)
    requires Rewritten(env, ver, s, u).None?
    ensures env.m.Apply(u) in r && r[env.m.Apply(u)] == s[u]
  {
    hide Rewritten;
  }

  /** The rewrite of a position-delete body that an entry names succeeded, and its writes are among these. */
  ghost predicate Processed(env: Env, s: Store, puts: seq<Put>, f: FileInfo) {
    f.content.PosDeletes? ==>
      PlanBody(env, s, f.path).res.Success? && forall p | p in PlanBody(env, s, f.path).puts :: p in puts
  }

  ghost predicate AllProcessed(env: Env, s: Store, puts: seq<Put>, es: seq<LiveEntry>) {
    forall e | e in es :: Processed(env, s, puts, e.file)
  }

  lemma {:induction false} LiveFromEntries(entries: seq<Entry>, q: int, l: LiveEntry)
    requires l in Live(entries, q)
    ensures exists e | e in entries :: e.file == l.file
  {
    if l in Live(entries[1..], q) {
      LiveFromEntries(entries[1..], q, l);
      var e :| e in entries[1..] && e.file == l.file;
      assert e in entries;
    } else {
      assert entries[0] in entries;
    }
  }

  lemma EntriesProcessed(env: Env, s: Store, manifest: Uri, entries: seq<Entry>, puts: seq<Put>, q: int)
    requires env.m.Legal() && PlanLoop(EntryStep(env, manifest), s, entries).res.Success?
    requires forall p | p in PlanLoop(EntryStep(env, manifest), s, entries).puts :: p in puts
    ensures AllProcessed(env, s, puts, Live(entries, q))
  {
    hide PlanBody;
    var step := EntryStep(env, manifest);
    EntriesStable(env, s, manifest, entries);
    LoopWrites(env.m, s, step, entries);
    forall l | l in Live(entries, q) ensures Processed(env, s, puts, l.file) {
      LiveFromEntries(entries, q, l);
      var e :| e in entries && e.file == l.file;
      assert step(s, e).res.Success?;
      assert step(s, e) == PlanEntry(env, manifest, s, e);
    }
  }

  /** A manifest inside the prefix names something inside it. */
  ghost predicate Homed(m: PrefixMapping, s: Store, path: Uri) {
    m.Matches(path) && path in s && s[path].obj.Manifest? ==> exists e | e in s[path].obj.entries :: Touches(m, e.file)
  }

  /** The descriptor that goes into the rewritten list: moved exactly when the manifest names something in scope. */
  lemma ManifestOutcome(env: Env, s: Store, mf: ManifestFile)
    requires env.m.Legal() && PlanManifest(env, s, mf).res.Success?
    ensures mf.path in s && s[mf.path].obj.Manifest? && s[mf.path].obj.content == mf.content
    ensures var r := PlanManifest(env, s, mf);
            var entries := s[mf.path].obj.entries;
            var loop := PlanLoop(EntryStep(env, mf.path), s, entries);
            && loop.res.Success? && loop.puts <= r.puts
            && (if exists e | e in entries :: Touches(env.m, e.file)
                then
                  && env.m.Matches(mf.path) && r.puts != []
                  && var p := r.puts[|r.puts| - 1];
                     && p.uri == env.m.Apply(mf.path) == r.res.value.file.path
                     && p.blob.obj == Manifest(mf.version, mf.content, s[mf.path].obj.specId, true, RewrittenEntries(env, s, entries))
                     && p.blob.size == r.res.value.file.length
                     && r.res.value.file.content == mf.content && r.res.value.file.seqNum == mf.seqNum
                     && r.res.value.file.minSeqNum == mf.minSeqNum
                     && r.res.value.file.version == mf.version && r.res.value.file.snapshotId == mf.snapshotId
                     && r.res.value.file.specId == s[mf.path].obj.specId
                else r.res.value.file == mf && !loop.res.value.changed)
  {
    hide PlanEntry, RewrittenFile, Touches;
    EntriesRewritten(env, s, mf.path, s[mf.path].obj.entries);
  }

  /** Counts and partition summaries survive: they depend on nothing that the rewrite changes. */
  lemma SummariesKept(env: Env, s: Store, mf: ManifestFile)
    requires env.m.Legal() && PlanManifest(env, s, mf).res.Success?
    requires mf.path in s && s[mf.path].obj.Manifest? && mf.summary == Summarize(s[mf.path].obj.entries)
    ensures PlanManifest(env, s, mf).res.value.file.summary == mf.summary
    ensures var out, entries := PlanManifest(env, s, mf).res.value.file.summary, s[mf.path].obj.entries;
            |out| == |entries| && forall i | 0 <= i < |out| ::
              out[i] == (entries[i].status, entries[i].file.records, entries[i].file.partition)
  {
    hide PlanEntry;
    EntriesRewritten(env, s, mf.path, s[mf.path].obj.entries);
    var entries := s[mf.path].obj.entries;
    assert Summarize(RewrittenEntries(env, s, entries)) == Summarize(entries);
  }

  /** A list entry leaves the source prefix exactly when its manifest names something in scope. */
  lemma LeavesSourceIffHomed(env: Env, s: Store, mf: ManifestFile)
    requires env.m.Legal() && PlanManifest(env, s, mf).res.Success?
    ensures !env.m.Matches(PlanManifest(env, s, mf).res.value.file.path) <==> Homed(env.m, s, mf.path)
  {
    hide PlanManifest, PlanLoop, Touches;
    ManifestOutcome(env, s, mf);
    ApplyUnapply(env.m, mf.path);
  }

  /** The rewritten descriptor leads, in the final store, to the same entries rewritten. */
  lemma ManifestReadable(env: Env, ver: Versions, retired: bool, s: Store, r: Store, puts: seq<Put>, mf: ManifestFile)
    requires Finished(env, ver, retired, s, r, puts)
    requires !Twin(env.m, s, mf.path) && ManifestEntries(s, mf).Some?
    requires PlanManifest(env, s, mf).res.Success? && forall p | p in PlanManifest(env, s, mf).puts :: p in puts
    requires retired ==> Homed(env.m, s, mf.path)
    ensures var es := ManifestEntries(s, mf).value;
            && AllProcessed(env, s, puts, es)
            && ManifestEntries(r, PlanManifest(env, s, mf).res.value.file) == Some(MapLive(env, s, es))
  {
    hide PlanManifest, PlanLoop, RewrittenFile, Processed, Touches;
    ManifestOutcome(env, s, mf);
    var entries := s[mf.path].obj.entries;
    var plan := PlanManifest(env, s, mf);
    assert forall p | p in PlanLoop(EntryStep(env, mf.path), s, entries).puts :: p in plan.puts;
    EntriesProcessed(env, s, mf.path, entries, puts, mf.seqNum);
    LiveRewritten(env, s, entries, mf.seqNum);
    if exists e | e in entries :: Touches(env.m, e.file) {
      ReadsWritten(env, ver, retired, s, r, puts, plan.puts[|plan.puts| - 1]);
    } else {
      ReadsOutside(env, ver, retired, s, r, puts, mf.path);
      UntouchedEntries(env, s, mf.path, entries);
    }
  }

  /** Entries that name nothing in scope are left as they are. */
  lemma UntouchedEntries(env: Env, s: Store, manifest: Uri, entries: seq<Entry>)
    requires env.m.Legal() && PlanLoop(EntryStep(env, manifest), s, entries).res.Success?
    requires !exists e | e in entries :: Touches(env.m, e.file)
    ensures RewrittenEntries(env, s, entries) == entries
  {
    hide RewrittenFile, Touches, PlanEntry;
    var step := EntryStep(env, manifest);
    EntriesStable(env, s, manifest, entries);
    LoopWrites(env.m, s, step, entries);
    forall i | 0 <= i < |entries| ensures RewrittenFile(env, s, entries[i].file) == entries[i].file {
      assert entries[i] in entries && step(s, entries[i]) == PlanEntry(env, manifest, s, entries[i]);
      RewrittenIffTouched(env, s, manifest, entries[i]);
    }
  }

  // Manifest lists.

  /** The loop over the manifests of a list, taken apart at the front. */
  lemma FilesFront(env: Env, s: Store, files: seq<ManifestFile>)
    requires env.m.Legal() && TwinFreeFiles(env.m, s, files) && files != []
    requires PlanLoop(FileStep(env, false), s, files).res.Success?
    ensures TwinFreeFiles(env.m, s, files[1..]) && !Twin(env.m, s, files[0].path)
    ensures var all, rest := PlanLoop(FileStep(env, false), s, files), PlanLoop(FileStep(env, false), s, files[1..]);
            var first := PlanManifest(env, s, files[0]);
            && first.res.Success? && rest.res.Success?
            && (forall p | p in first.puts :: p in all.puts)
            && (forall p | p in rest.puts :: p in all.puts)
            && all.res.value.files == [first.res.value.file] + rest.res.value.files
            && (!all.res.value.changed ==> !rest.res.value.changed && first.res.value.file == files[0])
  {
    hide PlanFile, PlanManifest;
    var step := FileStep(env, false);
    FilesStable(env, false, s, files);
    LoopUnthreaded(env.m, s, step, files);
    assert step(s, files[0]) == PlanFile(env, false, s, files[0]);
    assert files[0] in files && forall x | x in files[1..] :: x in files;
    FileStepOutcome(env, s, files[0]);
  }

  lemma {:induction false} FilesReadable(env: Env, ver: Versions, retired: bool, s: Store, r: Store, puts: seq<Put>,
                                         files: seq<ManifestFile>)
    requires env.m.Legal() && Finished(env, ver, retired, s, r, puts)
    requires TwinFreeFiles(env.m, s, files) && ListEntries(s, files).Some?
    requires PlanLoop(FileStep(env, false), s, files).res.Success?
    requires forall p | p in PlanLoop(FileStep(env, false), s, files).puts :: p in puts
    requires retired ==> forall f | f in files :: Homed(env.m, s, f.path)
    ensures var es := ListEntries(s, files).value;
            var g := PlanLoop(FileStep(env, false), s, files).res.value;
            && AllProcessed(env, s, puts, es)
            && ListEntries(r, g.files) == Some(MapLive(env, s, es))
            && (!g.changed ==> g.files == files)
    decreases |files|
  {
    hide PlanLoop, PlanManifest, Finished, Homed, Processed, RewrittenFile, ManifestEntries, TwinFreeFiles;
    if files == [] {
      NoFiles(env, s);
      assert MapLive(env, s, []) == [];
    } else {
      FilesFront(env, s, files);
      var f, rest := files[0], files[1..];
      assert f in files && forall x | x in rest :: x in files;
      ManifestReadable(env, ver, retired, s, r, puts, f);
      FilesReadable(env, ver, retired, s, r, puts, rest);
      MapLiveConcat(env, s, ManifestEntries(s, f).value, ListEntries(s, rest).value);
      assert files == [f] + rest;
    }
  }

  lemma NoFiles(env: Env, s: Store)
    ensures PlanLoop(FileStep(env, false), s, []) == Run(Success(Nothing), [])
  {
  }

  /** What the list is to hold: the descriptors that the manifest rewrites return. */
  function Descriptors(env: Env, s: Store, files: seq<ManifestFile>): seq<ManifestFile> {
    seq(|files|, i requires 0 <= i < |files| =>
      match PlanManifest(env, s, files[i]).res case Success(out) => out.file case Failure(_) => files[i])
  }

  lemma {:induction false} FilesRewritten(env: Env, s: Store, files: seq<ManifestFile>)
    requires env.m.Legal() && TwinFreeFiles(env.m, s, files)
    requires PlanLoop(FileStep(env, false), s, files).res.Success?
    ensures PlanLoop(FileStep(env, false), s, files).res.value.files == Descriptors(env, s, files)
  {
    hide PlanLoop, PlanManifest, TwinFreeFiles;
    if files == [] {
      NoFiles(env, s);
    } else {
      FilesFront(env, s, files);
      FilesRewritten(env, s, files[1..]);
      assert Descriptors(env, s, files)[1..] == Descriptors(env, s, files[1..]);
    }
  }

  /** The list that a successful live run leaves: written exactly if it lies in the prefix, at its mapped URI and as the
      last PUT, with its version and header as they were and, in order, the descriptors of its manifests. */
  lemma ListOutcome(env: Env, s: Store, uri: Uri)
    requires env.m.Legal() && PlanList(env, false, s, uri).res.Success?
    requires uri in s && s[uri].obj.List? ==> TwinFreeFiles(env.m, s, s[uri].obj.files)
    ensures uri in s && s[uri].obj.List?
    ensures var r, loop := PlanList(env, false, s, uri), PlanLoop(FileStep(env, false), s, s[uri].obj.files);
            if env.m.Matches(uri)
            then
              && |r.puts| == |loop.puts| + 1 && r.puts[..|loop.puts|] == loop.puts && r.res.value.lists == 1
              && var p := r.puts[|loop.puts|];
                 && p.uri == env.m.Apply(uri)
                 && p.blob.obj == List(s[uri].obj.version, s[uri].obj.header, Descriptors(env, s, s[uri].obj.files))
                 && Some(p.blob.size) == env.enc(p.blob.obj)
            else r.puts == loop.puts && r.res.value.lists == 0
  {
    hide PlanFile, PlanLoop, TwinFreeFiles, ListHits, Descriptors;
    ApplyUnapply(env.m, uri);
    FilesRewritten(env, s, s[uri].obj.files);
  }

  lemma FileStepOutcome(env: Env, s: Store, f: ManifestFile)
    requires env.m.Legal() && PlanFile(env, false, s, f).res.Success?
    ensures PlanManifest(env, s, f).res.Success? && PlanManifest(env, s, f).puts == PlanFile(env, false, s, f).puts
    ensures var out := PlanManifest(env, s, f).res.value.file;
            var g := PlanFile(env, false, s, f).res.value;
            g.files == [out] && (!g.changed ==> out == f)
  {
    hide PlanManifest, PlanLoop, Touches;
    if PlanManifest(env, s, f).res.Success? {
      ManifestOutcome(env, s, f);
      ApplyUnapply(env.m, f.path);
    }
  }

  /** The conditions, besides readability, on the part of the graph below one snapshot. */
  ghost predicate ListHomed(m: PrefixMapping, s: Store, snap: SnapshotJSON) {
    snap.manifestList != "" && snap.manifestList in s && s[snap.manifestList].obj.List? ==>
      forall f | f in s[snap.manifestList].obj.files :: Homed(m, s, f.path)
  }

  lemma ListReadable(env: Env, ver: Versions, retired: bool, s: Store, r: Store, puts: seq<Put>, uri: Uri)
    requires Finished(env, ver, retired, s, r, puts)
    requires !Twin(env.m, s, uri) && uri in s && s[uri].obj.List?
    requires TwinFreeFiles(env.m, s, s[uri].obj.files) && ListEntries(s, s[uri].obj.files).Some?
    requires PlanList(env, false, s, uri).res.Success? && forall p | p in PlanList(env, false, s, uri).puts :: p in puts
    requires retired ==> forall f | f in s[uri].obj.files :: Homed(env.m, s, f.path)
    ensures var es := ListEntries(s, s[uri].obj.files).value;
            var u := env.m.Apply(uri);
            && AllProcessed(env, s, puts, es)
            && u in r && r[u].obj.List?
            && ListEntries(r, r[u].obj.files) == Some(MapLive(env, s, es))
  {
    hide PlanLoop, Processed, ListEntries, Homed, RewrittenFile, TwinFreeFiles, Canonical;
    var files := s[uri].obj.files;
    var loop := PlanLoop(FileStep(env, false), s, files);
    var plan := PlanList(env, false, s, uri);
    assert loop.res.Success? && loop.puts <= plan.puts;
    FilesReadable(env, ver, retired, s, r, puts, files);
    ApplyUnapply(env.m, uri);
    if loop.res.value.changed || env.m.Apply(uri) != uri {
      var p := plan.puts[|plan.puts| - 1];
      assert p.uri == env.m.Apply(uri) && p.blob.obj.List? && p.blob.obj.files == loop.res.value.files;
      ReadsWritten(env, ver, retired, s, r, puts, p);
    } else {
      ReadsOutside(env, ver, retired, s, r, puts, uri);
    }
  }

  // Flat V1 lists.

  lemma FlatReadable(env: Env, ver: Versions, retired: bool, s: Store, r: Store, puts: seq<Put>, id: int, uri: Uri)
    requires env.m.Legal() && Finished(env, ver, retired, s, r, puts)
    requires !Twin(env.m, s, uri) && FlatManifestEntries(s, uri).Some?
    requires PlanFlat(env, false, id, s, uri).res.Success? && forall p | p in PlanFlat(env, false, id, s, uri).puts :: p in puts
    ensures var es := FlatManifestEntries(s, uri).value;
            && AllProcessed(env, s, puts, es)
            && FlatManifestEntries(r, env.m.Apply(uri)) == Some(MapLive(env, s, es))
  {
    hide PlanLoop, PlanManifest, Processed, RewrittenFile, Touches, Finished, Live;
    var mf := V1Descriptor(uri, s[uri].size, id);
    var entries := s[uri].obj.entries;
    assert PlanManifest(env, s, mf).res.Success? && PlanManifest(env, s, mf).puts == PlanFlat(env, false, id, s, uri).puts;
    ManifestOutcome(env, s, mf);
    var plan := PlanManifest(env, s, mf);
    assert forall p | p in PlanLoop(EntryStep(env, uri), s, entries).puts :: p in plan.puts;
    EntriesProcessed(env, s, uri, entries, puts, 0);
    LiveRewritten(env, s, entries, 0);
    if exists e | e in entries :: Touches(env.m, e.file) {
      ReadsWritten(env, ver, retired, s, r, puts, plan.puts[|plan.puts| - 1]);
    } else {
      UntouchedEntries(env, s, uri, entries);
      if env.m.Matches(uri) {
        ReadsCopy(env, ver, retired, s, r, puts, uri);
      } else {
        ReadsOutside(env, ver, retired, s, r, puts, uri);
      }
    }
  }

  /** The loop over a flat list, taken apart at the front. */
  lemma FlatFront(env: Env, s: Store, id: int, uris: seq<Uri>)
    requires env.m.Legal() && uris != [] && forall u | u in uris :: !Twin(env.m, s, u)
    requires PlanLoop(FlatStep(env, false, id), s, uris).res.Success?
    ensures forall u | u in uris[1..] :: !Twin(env.m, s, u)
    ensures var all, rest := PlanLoop(FlatStep(env, false, id), s, uris), PlanLoop(FlatStep(env, false, id), s, uris[1..]);
            var first := PlanFlat(env, false, id, s, uris[0]);
            && first.res.Success? && rest.res.Success?
            && (forall p | p in first.puts :: p in all.puts)
            && (forall p | p in rest.puts :: p in all.puts)
  {
    hide PlanFlat, Stable;
    var step := FlatStep(env, false, id);
    FlatStable(env, false, id, s, uris);
    LoopUnthreaded(env.m, s, step, uris);
    assert step(s, uris[0]) == PlanFlat(env, false, id, s, uris[0]);
    assert forall x | x in uris[1..] :: x in uris;
  }

  lemma {:induction false} FlatListReadable(env: Env, ver: Versions, retired: bool, s: Store, r: Store, puts: seq<Put>,
                                            id: int, uris: seq<Uri>)
    requires env.m.Legal() && Finished(env, ver, retired, s, r, puts)
    requires (forall u | u in uris :: !Twin(env.m, s, u)) && FlatEntries(s, uris).Some?
    requires PlanLoop(FlatStep(env, false, id), s, uris).res.Success?
    requires forall p | p in PlanLoop(FlatStep(env, false, id), s, uris).puts :: p in puts
    ensures var es := FlatEntries(s, uris).value;
            && AllProcessed(env, s, puts, es)
            && FlatEntries(r, Each(Applied(env.m), uris)) == Some(MapLive(env, s, es))
    decreases |uris|
  {
    hide PlanLoop, PlanFlat, Finished, Processed, RewrittenFile, FlatManifestEntries;
    if uris == [] {
      assert MapLive(env, s, []) == [];
    } else {
      FlatFront(env, s, id, uris);
      var u, rest := uris[0], uris[1..];
      assert u in uris;
      FlatReadable(env, ver, retired, s, r, puts, id, u);
      FlatListReadable(env, ver, retired, s, r, puts, id, rest);
      MapLiveConcat(env, s, FlatManifestEntries(s, u).value, FlatEntries(s, rest).value);
      assert Each(Applied(env.m), uris)[1..] == Each(Applied(env.m), rest);
    }
  }

  // Snapshots.

  /** A snapshot's own URIs moved, as the written metadata document names them. */
  function MovedUris(m: PrefixMapping, snap: SnapshotJSON, id: int): SnapshotJSON {
    SnapshotJSON(id, m.Apply(snap.manifestList), Each(Applied(m), snap.manifests))
  }

  lemma SnapshotParts(env: Env, s: Store, snap: SnapshotJSON)
    requires env.m.Legal() && TwinFree(env.m, s, snap)
    requires PlanSnapshot(env, false, s, snap).res.Success?
    ensures var a, b := ListPart(env, false, s, snap), PlanLoop(FlatStep(env, false, snap.id), s, snap.manifests);
            && a.res.Success? && b.res.Success?
            && PlanSnapshot(env, false, s, snap).puts == a.puts + b.puts
  {
    SnapshotUnthreaded(env, false, s, s, snap);
    hide PlanSnapshot, PlanLoop, PlanList;
  }

  lemma SnapshotReadable(env: Env, ver: Versions, retired: bool, s: Store, r: Store, puts: seq<Put>,
                         snap: SnapshotJSON, id: int)
    requires env.m.Legal() && Finished(env, ver, retired, s, r, puts)
    requires TwinFree(env.m, s, snap) && SnapshotEntries(s, snap).Some?
    requires PlanSnapshot(env, false, s, snap).res.Success?
    requires forall p | p in PlanSnapshot(env, false, s, snap).puts :: p in puts
    requires retired ==> ListHomed(env.m, s, snap)
    ensures var es := SnapshotEntries(s, snap).value;
            && AllProcessed(env, s, puts, es)
            && SnapshotEntries(r, MovedUris(env.m, snap, id)) == Some(MapLive(env, s, es))
  {
    SnapshotParts(env, s, snap);
    hide PlanSnapshot, PlanLoop, PlanList, Finished, Homed, Processed, RewrittenFile, ListEntries, FlatEntries;
    FlatListReadable(env, ver, retired, s, r, puts, snap.id, snap.manifests);
    ApplyUnapply(env.m, snap.manifestList);
    var flat := FlatEntries(s, snap.manifests).value;
    if snap.manifestList == "" {
      MapLiveConcat(env, s, [], flat);
      assert MapLive(env, s, []) == [];
    } else {
      assert env.m.Apply(snap.manifestList) != "";
      ListReadable(env, ver, retired, s, r, puts, snap.manifestList);
      MapLiveConcat(env, s, ListEntries(s, s[snap.manifestList].obj.files).value, flat);
    }
  }

  // Files.

  /** A position-delete file outside the prefix, which the run leaves alone, names nothing inside it. */
  ghost predicate Settled(m: PrefixMapping, s: Store, f: FileInfo)
    requires Present(s, f)
  {
    f.content.PosDeletes? && !m.Matches(f.path) ==> !AnyInScope(m, FilePaths(s[f.path].obj.cols).value)
  }

  lemma RowsUntouched(m: PrefixMapping, rows: Paths)
    requires !AnyInScope(m, rows)
    ensures MapRows(m, rows) == rows
  {
    forall i | 0 <= i < |rows| ensures MapRow(m, rows[i]) == rows[i] {
      assert !InScope(m, rows[i]);
    }
  }

  /** What PlanBody did for a body that was processed. */
  lemma BodyCarried(env: Env, ver: Versions, retired: bool, s: Store, r: Store, puts: seq<Put>, f: FileInfo)
    requires Finished(env, ver, retired, s, r, puts)
    requires Present(s, f) && f.content.PosDeletes? && env.m.Matches(f.path) && Processed(env, s, puts, f)
    ensures PlanBody(env, s, f.path).res.Success?
    ensures var u := env.m.Apply(f.path);
            && u in r && r[u].obj.DelBody?
            && r[u].size == PlanBody(env, s, f.path).res.value.newSize
            && FilePaths(r[u].obj.cols) == Some(MapRows(env.m, FilePaths(s[f.path].obj.cols).value))
            && Positions(r[u].obj.cols) == Positions(s[f.path].obj.cols)
  {
    hide ConvertBody, FilePaths, Positions, AnyInScope;
    var cols := s[f.path].obj.cols;
    ConvertedRows(env.m, f.path, cols);
    var plan := PlanBody(env, s, f.path);
    if ConvertBody(env.m, f.path, cols).value.1 {
      assert plan.puts[0] in plan.puts;
      ReadsWritten(env, ver, retired, s, r, puts, plan.puts[0]);
    } else {
      RowsUntouched(env.m, FilePaths(cols).value);
      ReadsCopy(env, ver, retired, s, r, puts, f.path);
    }
  }

  lemma MovedBodyCarried(env: Env, ver: Versions, retired: bool, s: Store, r: Store, puts: seq<Put>, f: FileInfo)
    requires Finished(env, ver, retired, s, r, puts)
    requires Present(s, f) && f.content.PosDeletes? && env.m.Matches(f.path) && Processed(env, s, puts, f)
    ensures Carried(env.m, s, r, f, RewrittenFile(env, s, f))
  {
    hide ConvertBody, FilePaths, Positions, AnyInScope, PlanBody, MapBounds, AllCanonical, Held, OutsideKept, CopiesKept;
    BodyCarried(env, ver, retired, s, r, puts, f);
    MovedBodySize(env, s, f);
    assert env.m.Apply("") == "";
  }

  lemma MovedBodySize(env: Env, s: Store, f: FileInfo)
    requires f.content.PosDeletes? && env.m.Matches(f.path) && PlanBody(env, s, f.path).res.Success?
    ensures PlanBody(env, s, f.path).res.value.newSize >= 0
  {
    hide ConvertBody;
  }

  lemma StayingBodyCarried(env: Env, ver: Versions, retired: bool, s: Store, r: Store, puts: seq<Put>, f: FileInfo)
    requires Finished(env, ver, retired, s, r, puts)
    requires Present(s, f) && f.content.PosDeletes? && !env.m.Matches(f.path) && !Twin(env.m, s, f.path)
    requires Settled(env.m, s, f)
    ensures Carried(env.m, s, r, f, RewrittenFile(env, s, f))
  {
    hide FilePaths, Positions, AnyInScope, ConvertBody, MapBounds, Twin, AllCanonical, Held, OutsideKept, CopiesKept;
    ReadsOutside(env, ver, retired, s, r, puts, f.path);
    RowsUntouched(env.m, FilePaths(s[f.path].obj.cols).value);
  }

  lemma OtherFileCarried(env: Env, ver: Versions, retired: bool, s: Store, r: Store, puts: seq<Put>, f: FileInfo)
    requires Finished(env, ver, retired, s, r, puts)
    requires Present(s, f) && !f.content.PosDeletes? && !Twin(env.m, s, f.path)
    ensures Carried(env.m, s, r, f, RewrittenFile(env, s, f))
  {
    hide Twin, PlanBody, FilePaths, Positions;
    assert env.m.Apply("") == "";
    hide Finished;
    PlainCarried(env, ver, retired, s, r, puts, f.path);
  }

  /** Every live entry's file is found, moved and mapped, in the store that the run leaves. */
  lemma FileCarried(env: Env, ver: Versions, retired: bool, s: Store, r: Store, puts: seq<Put>, f: FileInfo)
    requires Finished(env, ver, retired, s, r, puts)
    requires Present(s, f) && !Twin(env.m, s, f.path) && Settled(env.m, s, f) && Processed(env, s, puts, f)
    ensures Carried(env.m, s, r, f, RewrittenFile(env, s, f))
  {
    hide Finished, Present, FilePaths, Positions, AnyInScope, PlanBody, Twin, Settled, Processed, Carried, RewrittenFile;
    if !f.content.PosDeletes? {
      OtherFileCarried(env, ver, retired, s, r, puts, f);
    } else if env.m.Matches(f.path) {
      MovedBodyCarried(env, ver, retired, s, r, puts, f);
    } else {
      StayingBodyCarried(env, ver, retired, s, r, puts, f);
    }
  }

  /** A data file or equality-delete body is read at its mapped URI. */
  lemma PlainCarried(env: Env, ver: Versions, retired: bool, s: Store, r: Store, puts: seq<Put>, u: Uri)
    requires Finished(env, ver, retired, s, r, puts) && u in s && !Twin(env.m, s, u)
    requires s[u].obj.DataBody? || s[u].obj.EqBody?
    ensures env.m.Apply(u) in r && r[env.m.Apply(u)] == s[u]
  {
    if env.m.Matches(u) {
      ReadsCopy(env, ver, retired, s, r, puts, u);
    } else {
      ReadsOutside(env, ver, retired, s, r, puts, u);
    }
  }

  /** The conditions on the live entries of a snapshot: their files exist, none is the twin of a stored object, and no
      delete picks a data file by a URI that is merged with that of another. */
  ghost predicate ReadableEntries(m: PrefixMapping, s: Store, es: seq<LiveEntry>) {
    && Complete(s, es)
    && (forall e | e in es :: !Twin(m, s, e.file.path))
    && AllKeptApart(m, s, es)
  }

  ghost predicate CleanEntries(m: PrefixMapping, s: Store, es: seq<LiveEntry>) {
    ReadableEntries(m, s, es) && forall e | e in es :: Settled(m, s, e.file)
  }

  lemma EntriesCarried(env: Env, ver: Versions, retired: bool, s: Store, r: Store, puts: seq<Put>, es: seq<LiveEntry>)
    requires Finished(env, ver, retired, s, r, puts)
    requires CleanEntries(env.m, s, es) && AllProcessed(env, s, puts, es)
    ensures CarriedAll(env.m, s, r, es, MapLive(env, s, es))
    ensures Complete(s, es) && Complete(r, MapLive(env, s, es))
  {
    hide Finished, RewrittenFile, Processed, Carried, AllKeptApart, Settled, Twin;
    var fs := MapLive(env, s, es);
    forall i | 0 <= i < |es|
      ensures Carried(env.m, s, r, es[i].file, fs[i].file)
    {
      assert es[i] in es;
      FileCarried(env, ver, retired, s, r, puts, es[i].file);
    }
    CarriedComplete(env.m, s, r, es, fs);
  }

  /** A snapshot on which the run's outcome can be read: nothing that it reads is the twin of a stored object, no URI that
      decides the reading is merged with another, and untouched delete files name nothing in scope. */
  ghost predicate CleanSnapshot(m: PrefixMapping, s: Store, snap: SnapshotJSON) {
    TwinFree(m, s, snap) && SnapshotEntries(s, snap).Some? && CleanEntries(m, s, SnapshotEntries(s, snap).value)
  }

  /** Scan preservation for one snapshot. */
  lemma SnapshotPreserved(env: Env, ver: Versions, retired: bool, s: Store, r: Store, puts: seq<Put>,
                          snap: SnapshotJSON, id: int)
    requires env.m.Legal() && Finished(env, ver, retired, s, r, puts)
    requires CleanSnapshot(env.m, s, snap)
    requires PlanSnapshot(env, false, s, snap).res.Success?
    requires forall p | p in PlanSnapshot(env, false, s, snap).puts :: p in puts
    requires retired ==> ListHomed(env.m, s, snap)
    ensures ReadSnapshot(false, s, snap).Some?
    ensures ReadSnapshot(false, r, MovedUris(env.m, snap, id)) == ReadSnapshot(false, s, snap)
  {
    hide PlanSnapshot, Finished, RewrittenFile, AllKeptApart, Settled, CarriedAll, TwinFree, SnapshotEntries, LiveRows, AllProcessed;
    SnapshotReadable(env, ver, retired, s, r, puts, snap, id);
    var es := SnapshotEntries(s, snap).value;
    var fs := MapLive(env, s, es);
    EntriesCarried(env, ver, retired, s, r, puts, es);
    LiveRowsCarried(env.m, s, r, es, fs);
  }

  // The whole table.

  lemma {:induction false} StepsSucceed(env: Env, s: Store, snaps: seq<SnapshotJSON>)
    requires env.m.Legal() && forall snap | snap in snaps :: TwinFree(env.m, s, snap)
    requires PlanLoop(SnapshotStep(env, false), s, snaps).res.Success?
    ensures forall snap | snap in snaps ::
              && PlanSnapshot(env, false, s, snap).res.Success?
              && forall p | p in PlanSnapshot(env, false, s, snap).puts :: p in PlanLoop(SnapshotStep(env, false), s, snaps).puts
  {
    hide PlanSnapshot, TwinFree;
    var step := SnapshotStep(env, false);
    SnapshotsStable(env, false, s, snaps);
    LoopWrites(env.m, s, step, snaps);
    forall snap | snap in snaps ensures step(s, snap) == PlanSnapshot(env, false, s, snap) {
    }
  }

  /** What a successful live run establishes about its plan. */
  lemma TableParts(env: Env, opts: Options, s: Store, loc: Uri)
    requires env.m.Legal() && !opts.dry && TwinFreeTable(env.m, opts, s, loc)
    requires PlanTable(env, opts, s, loc).res.Success?
    ensures env.m.Matches(loc) && LoadMeta(s, loc).Success?
    ensures var walk := PlanLoop(SnapshotStep(env, false), s, Walked(opts, s, loc));
            var w := PlanMeta(env, s, loc);
            var plan := PlanTable(env, opts, s, loc);
            && walk.res.Success? && w.res.Success?
            && plan.puts == walk.puts + w.puts
            && plan.res.value.newLoc == w.res.value
  {
    hide PlanLoop, PlanSnapshot, PlanMeta, WalkHits, Selected, Parse, TwinFreeTable;
    var walk := PlanLoop(SnapshotStep(env, false), s, Walked(opts, s, loc)).puts;
    SnapshotsTargetOnly(env, false, s, Walked(opts, s, loc));
    AgreeAfter(env.m, s, s, walk);
    MetaInsensitive(env, s, After(s, walk), loc);
  }

  /** All the conditions under which a run is known to preserve the table that loc leads to. */
  ghost predicate Preservable(env: Env, ver: Versions, opts: Options, s: Store, loc: Uri) {
    && env.m.Legal() && !opts.dry && env.num(0) == 0
    && Copied(env.m, s)
    && Orderly(env.m, ver, opts, s, loc)
    && forall snap | snap in Walked(opts, s, loc) :: CleanSnapshot(env.m, s, snap)
  }

  /** The run finished on s with these writes, and the document it leads to can be read in r. */
  lemma RunFinished(env: Env, ver: Versions, opts: Options, retired: bool, s: Store, r: Store, loc: Uri)
    requires Preservable(env, ver, opts, s, loc) && PlanTable(env, opts, s, loc).res.Success?
    requires Serves(env.m, retired, r, After(s, PlanTable(env, opts, s, loc).puts))
    ensures Finished(env, ver, retired, s, r, PlanTable(env, opts, s, loc).puts)
  {
    hide PlanTable, CleanSnapshot, Canonical, TwinFreeTable, VersionsAgree;
    TableCanonical(env, ver, opts, s, loc);
    FinishedAlone(env, ver, retired, s, r, PlanTable(env, opts, s, loc).puts);
  }

  /** Something in the metadata document is in scope, so the run writes a new document. */
  predicate MetaMoves(m: PrefixMapping, s: Store, loc: Uri) {
    loc in s && s[loc].obj.Meta? && RelocateDoc(m, s[loc].obj.doc) != s[loc].obj.doc
  }

  /** The new location holds the parsed document with every URI moved. */
  lemma NewMetadata(env: Env, ver: Versions, opts: Options, retired: bool, s: Store, r: Store, loc: Uri)
    requires Preservable(env, ver, opts, s, loc) && PlanTable(env, opts, s, loc).res.Success?
    requires Finished(env, ver, retired, s, r, PlanTable(env, opts, s, loc).puts)
    requires MetaMoves(env.m, s, loc)
    ensures var newLoc := PlanTable(env, opts, s, loc).res.value.newLoc;
            && newLoc == env.m.Apply(loc)
            && LoadMeta(s, loc).Success?
            && LoadMeta(r, newLoc) == Success(Moved(env.m, env.num, LoadMeta(s, loc).value))
  {
    assert TwinFreeTable(env.m, opts, s, loc) && env.m.Legal() && env.num(0) == 0;
    hide PlanTable, PlanLoop, Preservable, Finished, RelocateDoc, WrittenDoc, Parse, Moved, TwinFreeTable;
    TableParts(env, opts, s, loc);
    var plan := PlanTable(env, opts, s, loc);
    var w := PlanMeta(env, s, loc);
    assert w.puts[0] in plan.puts;
    ReadsWritten(env, ver, retired, s, r, plan.puts, w.puts[0]);
    ParseCommutes(env.m, env.num, s[loc].obj.doc);
  }

  /** Scan preservation, in any store that holds what the run wrote, read or copied. */
  lemma ScanPreservedIn(env: Env, ver: Versions, opts: Options, retired: bool, s: Store, r: Store, loc: Uri, i: nat)
    requires Preservable(env, ver, opts, s, loc) && PlanTable(env, opts, s, loc).res.Success?
    requires Finished(env, ver, retired, s, r, PlanTable(env, opts, s, loc).puts)
    requires retired ==> forall snap | snap in Walked(opts, s, loc) :: ListHomed(env.m, s, snap)
    requires MetaMoves(env.m, s, loc)
    requires LoadMeta(s, loc).Success? && IsSelected(LoadMeta(s, loc).value, opts.currentOnly, i)
    ensures var before, after := LoadMeta(s, loc).value, LoadMeta(r, PlanTable(env, opts, s, loc).res.value.newLoc);
            && after.Success? && |after.value.snapshots| == |before.snapshots|
            && ReadSnapshot(false, s, before.snapshots[i]).Some?
            && ReadSnapshot(false, r, after.value.snapshots[i]) == ReadSnapshot(false, s, before.snapshots[i])
  {
    NewMetadata(env, ver, opts, retired, s, r, loc);
    TableParts(env, opts, s, loc);
    var before := LoadMeta(s, loc).value;
    var snap := before.snapshots[i];
    SelectedMember(before, opts.currentOnly, i);
    hide PlanTable, PlanLoop, PlanSnapshot, Finished, TwinFree, CleanEntries, ReadSnapshot, Parse, WrittenDoc, ListHomed;
    StepsSucceed(env, s, Walked(opts, s, loc));
    var puts := PlanTable(env, opts, s, loc).puts;
    assert Moved(env.m, env.num, before).snapshots[i] == MovedUris(env.m, snap, env.num(snap.id));
    SnapshotPreserved(env, ver, retired, s, r, puts, snap, env.num(snap.id));
  }

  /** Scan preservation. After a successful run every selected snapshot, read from the new location, yields the same
      live rows as from the old one: with the source still in place, and also without it when every manifest of a list
      that lies in the prefix names something in it. */
  lemma ScanPreserved(env: Env, ver: Versions, opts: Options, retired: bool, s: Store, r: Store, loc: Uri, i: nat)
    requires Preservable(env, ver, opts, s, loc) && PlanTable(env, opts, s, loc).res.Success?
    requires Serves(env.m, retired, r, After(s, PlanTable(env, opts, s, loc).puts))
    requires retired ==> forall snap | snap in Walked(opts, s, loc) :: ListHomed(env.m, s, snap)
    requires MetaMoves(env.m, s, loc)
    requires LoadMeta(s, loc).Success? && IsSelected(LoadMeta(s, loc).value, opts.currentOnly, i)
    ensures var before, after := LoadMeta(s, loc).value, LoadMeta(r, PlanTable(env, opts, s, loc).res.value.newLoc);
            && after.Success? && |after.value.snapshots| == |before.snapshots|
            && ReadSnapshot(false, s, before.snapshots[i]).Some?
            && ReadSnapshot(false, r, after.value.snapshots[i]) == ReadSnapshot(false, s, before.snapshots[i])
  {
    RunFinished(env, ver, opts, retired, s, r, loc);
    hide PlanTable, Finished, Preservable, MetaMoves, ReadSnapshot, Serves, ListHomed, Parse;
    ScanPreservedIn(env, ver, opts, retired, s, r, loc, i);
  }

  lemma SelectedMember(meta: MetadataJSON, currentOnly: bool, i: nat)
    requires IsSelected(meta, currentOnly, i)
    ensures meta.snapshots[i] in Selected(meta, currentOnly)
  {
  }

  // Which snapshot is current.

  /** The current pointer resolves as before exactly when no snapshot that precedes its target (no snapshot at all, if
      it has none) is confused with it by the trip through float64. */
  lemma CurrentPreservedIff(m: PrefixMapping, num: int -> int, meta: MetadataJSON)
    requires meta.currentSnapshotId.Some?
    ensures var before := if CurrentIndex(meta).Some? then CurrentIndex(meta).value else |meta.snapshots|;
            CurrentIndex(Moved(m, num, meta)) == CurrentIndex(meta) <==>
            forall j | 0 <= j < before :: num(meta.snapshots[j].id) != num(meta.currentSnapshotId.value)
  {
    var moved := Moved(m, num, meta);
    assert forall j | 0 <= j < |meta.snapshots| :: moved.snapshots[j].id == num(meta.snapshots[j].id);
    assert moved.currentSnapshotId == Some(num(meta.currentSnapshotId.value));
  }
}
