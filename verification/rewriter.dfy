/** The storage surface of walker.go and the write-then-verify step of put.go. */
module Storage {
  import opened Wrappers
  import opened Prefix
  import opened Graph

  /** How the service treats one PUT. */
  datatype Fate =
    | Lands
    | Refused                // an error, nothing stored
    | Damaged(found: Blob)   // an error, or silence, with another object stored

  /** One URI-keyed store behind both the source and the target handle. Calls may fault at any time. */
  class Bucket {
    var objects: Store
    ghost var log: seq<Put>
    ghost var faults: nat

    constructor (objects: Store)
      ensures this.objects == objects && log == [] && faults == 0
    {
      this.objects, log, faults := objects, [], 0;
    }

    method GetObject(uri: Uri) returns (r: Option<Blob>)
      modifies this`faults
      ensures faults >= old(faults)
      ensures r == if faults == old(faults) && uri in objects then Some(objects[uri]) else None
    {
      var broken: bool := *;
      if broken {
        faults := faults + 1;
        return None;
      }
      return if uri in objects then Some(objects[uri]) else None;
    }

    method HeadObject(uri: Uri) returns (r: Option<nat>)
      modifies this`faults
      ensures faults >= old(faults)
      ensures r == if faults == old(faults) && uri in objects then Some(objects[uri].size) else None
    {
      var blob := GetObject(uri);
      return if blob.Some? then Some(blob.value.size) else None;
    }

    /** A PUT that reports success stores the object or, truncating it silently, one of another length. */
    method PutObject(uri: Uri, blob: Blob) returns (ok: bool, ghost landed: seq<Put>)
      modifies this
      ensures faults >= old(faults)
      ensures log == old(log) + landed && objects == After(old(objects), landed)
      ensures faults == old(faults) ==> ok && landed == [Put(uri, blob)]
      ensures faults > old(faults) ==> Interrupted(landed, [Put(uri, blob)])
      ensures faults > old(faults) && ok ==> uri in objects && objects[uri].size != blob.size
    {
      var fate: Fate := *;
      var reported: bool := *;
      match fate {
        case Lands =>
          objects := objects[uri := blob];
          ok, landed := true, [Put(uri, blob)];
        case Refused =>
          faults := faults + 1;
          ok, landed := false, [];
        case Damaged(found) =>
          faults := faults + 1;
          objects := objects[uri := found];
          ok, landed := !reported && found.size != blob.size, [Put(uri, found)];
      }
      log := log + landed;
    }

    /** putAndVerify: a PUT, then a HEAD whose length must be that of the bytes written. */
    method PutAndVerify(uri: Uri, blob: Blob) returns (ok: bool, ghost landed: seq<Put>)
      modifies this
      ensures faults >= old(faults)
      ensures log == old(log) + landed && objects == After(old(objects), landed)
      ensures faults == old(faults) ==> ok && landed == [Put(uri, blob)]
      ensures faults > old(faults) ==> !ok && Interrupted(landed, [Put(uri, blob)])
    {
      ok, landed := PutObject(uri, blob);
      if ok {
        var size := HeadObject(uri);
        ok := size == Some(blob.size);
      }
    }
  }
}

/** The imperative rewriter: manifest_write.go, manifest.go, positiondelete.go and walker.go. Every method is
    specified by the plan of the same name. */
module Rewriter {
  import opened Wrappers
  import opened Prefix
  import opened Json
  import opened Metadata
  import opened MetadataWrite
  import opened Graph
  import opened Deletes
  import opened Plan
  import opened PlanFacts
  import opened Loops
  import opened Storage

  /** isPuffinPath. */
  method IsPuffinPath(uri: Uri) returns (r: bool)
    ensures r == IsPuffin(uri)
  {
    if |uri| < |PuffinExt| {
      return false;
    }
    var tail := uri[|uri| - |PuffinExt|..];
    for i := 0 to |PuffinExt|
      invariant forall j | 0 <= j < i :: Lower(uri[|uri| - |PuffinExt| + j]) == PuffinExt[j]
    {
      var a, b := tail[i], PuffinExt[i];
      if 'A' <= a <= 'Z' {
        a := (a as int + ('a' as int - 'A' as int)) as char;
      }
      assert a == Lower(uri[|uri| - |PuffinExt| + i]);
      if a != b {
        return false;
      }
    }
    return true;
  }

  /** An iceberg-go DataFile, whose fields the rewriter sets in place. */
  class DataFile {
    const content: Content
    const partition: int
    const records: int
    var path: Uri
    var ref: Option<Uri>
    var size: int
    var lower: Option<Bounds>
    var upper: Option<Bounds>
    var splits: Option<seq<int>>
    var colSizes: Option<seq<(int, int)>>

    constructor (f: FileInfo)
      ensures Value() == f
    {
      content, partition, records := f.content, f.partition, f.records;
      path, ref, size := f.path, f.ref, f.size;
      lower, upper, splits, colSizes := f.lower, f.upper, f.splits, f.colSizes;
    }

    function Value(): FileInfo
      reads this
    {
      FileInfo(content, path, ref, size, lower, upper, splits, colSizes, partition, records)
    }

    /** rewriteDataFileBoundsForField, for the reserved file_path column. */
    method RewriteBounds(m: PrefixMapping) returns (changed: bool)
      modifies this
      ensures Value() == old(Value()).(lower := MapBounds(m, old(lower)), upper := MapBounds(m, old(upper)))
      ensures changed <==> Value() != old(Value())
    {
      changed := false;
      if lower.Some? {
        var bs, c := RewriteBoundValues(m, lower.value);
        lower, changed := Some(bs), c;
      }
      if upper.Some? {
        var bs, c := RewriteBoundValues(m, upper.value);
        upper, changed := Some(bs), changed || c;
      }
    }

    /** fixupPositionDeleteEntryStats. */
    method FixupStats(m: PrefixMapping, pd: BodyRewrite) returns (changed: bool)
      modifies this
      ensures Value() == FixedUp(m, old(Value()), pd.newSize)
      ensures changed <==> Value() != old(Value())
      ensures if pd.newSize >= 0 then size == pd.newSize && splits.None? && colSizes.None?
              else size == old(size) && splits == old(splits) && colSizes == old(colSizes)
      ensures path == old(path) && ref == old(ref)
    {
      if pd.newSize < 0 {
        return false;
      }
      changed := RewriteBounds(m);
      if size != pd.newSize {
        size := pd.newSize;
        changed := true;
      }
      if splits.Some? {
        splits := None;
        changed := true;
      }
      if colSizes.Some? {
        colSizes := None;
        changed := true;
      }
    }
  }

  /** The loop over one bounds list. */
  method RewriteBoundValues(m: PrefixMapping, bounds: Bounds) returns (out: Bounds, changed: bool)
    ensures Some(out) == MapBounds(m, Some(bounds))
    ensures changed <==> out != bounds
  {
    out, changed := bounds, false;
    for i := 0 to |bounds|
      invariant |out| == |bounds|
      invariant forall j | 0 <= j < i :: out[j] == MapBound(m, bounds[j])
      invariant forall j | i <= j < |bounds| :: out[j] == bounds[j]
      invariant changed <==> out != bounds
    {
      if bounds[i].0 == ReservedFilePathId {
        var next := m.Apply(bounds[i].1);
        if next != bounds[i].1 {
          out := out[i := (bounds[i].0, next)];
          assert out[i] != bounds[i];
          changed := true;
        }
      }
    }
    assert out == MapBounds(m, Some(bounds)).value;
  }

  /** The decoded entries of a manifest as fresh objects. */
  method DecodeFiles(entries: seq<Entry>) returns (files: seq<DataFile>)
    ensures |files| == |entries|
    ensures forall i | 0 <= i < |files| :: fresh(files[i]) && files[i].Value() == entries[i].file
    ensures forall i, j | 0 <= i < j < |files| :: files[i] != files[j]
  {
    files := [];
    for i := 0 to |entries|
      invariant |files| == i
      invariant forall j | 0 <= j < i :: fresh(files[j]) && files[j].Value() == entries[j].file
      invariant forall j, k | 0 <= j < k < i :: files[j] != files[k]
    {
      var f := new DataFile(entries[i].file);
      files := files + [f];
    }
  }

  /** The bucket moved from its old state by exactly these writes. */
  twostate predicate Wrote(store: Bucket, puts: seq<Put>)
    reads store
  {
    && store.faults >= old(store.faults)
    && store.log == old(store.log) + puts
    && store.objects == After(old(store.objects), puts)
  }

  lemma NoWrites(s: Store)
    ensures After(s, []) == s
  {
  }

  lemma NothingDone(plan: seq<Put>)
    ensures Interrupted([], plan)
  {
  }

  lemma AppendWrites(s: Store, a: seq<Put>, b: seq<Put>)
    ensures After(After(s, a), b) == After(s, a + b)
  {
    AfterConcat(s, a, b);
  }

  lemma InterruptedGrows(puts: seq<Put>, plan: seq<Put>, total: seq<Put>)
    requires Interrupted(puts, plan) && plan <= total
    ensures Interrupted(puts, total)
  {
  }

  /** The hits are exactly the reportable positions of the document at loc, and one of them is rewritten exactly
      when the document changes. */
  ghost predicate MetaHits(m: PrefixMapping, s: Store, loc: Uri, hits: seq<PathHit>) {
    loc in s && s[loc].obj.Meta? &&
    var doc := s[loc].obj.doc;
    && (forall h | h in hits :: Genuine(m, JObj(doc), h))
    && Covered(m, hits, [], Root, JObj(doc))
    && (RelocateDoc(m, doc) != doc <==> exists h | h in hits :: h.Rewritten())
  }

  class Engine {
    const env: Env
    const opts: Options
    const store: Bucket

    constructor (env: Env, opts: Options, store: Bucket)
      ensures this.env == env && this.opts == opts && this.store == store
    {
      this.env, this.opts, this.store := env, opts, store;
    }

    // Position-delete bodies.

    method RewritePositionDeleteFile(uri: Uri) returns (r: Result<BodyRewrite, Error>, ghost puts: seq<Put>)
      modifies store
      ensures Wrote(store, puts)
      ensures Refines(store.faults > old(store.faults), r, puts, PlanBody(env, old(store.objects), uri))
    {
      puts := [];
      if !env.m.Matches(uri) {
        return Success(BodyRewrite(uri, -1, false)), [];
      }
      var raw := store.GetObject(uri);
      if raw.None? {
        return Failure(StorageFailed(uri)), [];
      }
      if !raw.value.obj.DelBody? {
        return Failure(Undecodable(uri)), [];
      }
      var converted := RewriteColumns(env.m, uri, raw.value.obj.cols);
      if converted.Failure? {
        return Failure(converted.error), [];
      }
      var (cols, mutated) := converted.value;
      var newUri := env.m.Apply(uri);
      if !mutated {
        return Success(BodyRewrite(newUri, raw.value.size, false)), [];
      }
      var size := env.enc(DelBody(cols));
      if size.None? {
        return Failure(Unencodable(newUri)), [];
      }
      var ok;
      ok, puts := store.PutAndVerify(newUri, Blob(DelBody(cols), size.value));
      if !ok {
        return Failure(StorageFailed(newUri)), puts;
      }
      return Success(BodyRewrite(newUri, size.value, true)), puts;
    }

    method WalkPositionDeleteFile(uri: Uri) returns (r: Option<Error>)
      modifies store`faults
      ensures store.faults >= old(store.faults)
      ensures store.faults == old(store.faults) ==> r == WalkStored(env, store.objects, uri)
      ensures store.faults > old(store.faults) ==> r == Some(StorageFailed(uri))
    {
      if !env.m.Matches(uri) {
        return None;
      }
      var raw := store.GetObject(uri);
      if raw.None? {
        return Some(StorageFailed(uri));
      }
      if !raw.value.obj.DelBody? {
        return Some(Undecodable(uri));
      }
      r := CheckBody(env.m, uri, raw.value.obj.cols);
    }

    // Manifests.

    /** One iteration of RewriteManifest's entry loop, on the decoded DataFile. */
    method RewriteEntry(manifest: Uri, df: DataFile, ghost e: Entry)
      returns (r: Result<(seq<PathHit>, bool), Error>, ghost puts: seq<Put>)
      requires df.Value() == e.file
      modifies store, df
      ensures Wrote(store, puts)
      ensures var plan := PlanEntry(env, manifest, old(store.objects), e);
              if store.faults > old(store.faults)
              then r.Failure? && r.error.StorageFailed? && Interrupted(puts, plan.puts)
              else puts == plan.puts && match r
                case Failure(err) => plan.res == Failure(err)
                case Success((hits, changed)) =>
                  plan.res == Success(Gathered([e.(file := df.Value())], [], hits, changed, 0, 0))
    {
      hide PlanBody, After, Interrupted, IsPuffin, MapBounds;
      NoWrites(store.objects);
      puts := [];
      var mutated := false;
      match df.content {
        case OtherContent(_) =>
          return Failure(Unsupported(manifest)), [];
        case PosDeletes =>
          var puffin := IsPuffinPath(df.path);
          if puffin {
            return Failure(Unsupported(manifest)), [];
          }
          var pd;
          pd, puts := RewritePositionDeleteFile(df.path);
          if pd.Failure? {
            return Failure(pd.error), puts;
          }
          mutated := df.FixupStats(env.m, pd.value);
        case _ =>
      }
      ghost var fixed := df.Value();
      assert PlanEntry(env, manifest, old(store.objects), e) ==
             Run(Success(GatherEntry(env.m, manifest, e, fixed)), puts);
      assert mutated <==> fixed != e.file;
      var oldPath := df.path;
      var newPath := env.m.Apply(oldPath);
      var hits := [PathHit(EntryPath(manifest), oldPath, newPath)];
      if oldPath != newPath {
        df.path := newPath;
        mutated := true;
      }
      if df.ref.Some? && df.ref.value != "" {
        var oldRef := df.ref.value;
        var newRef := env.m.Apply(oldRef);
        hits := hits + [PathHit(EntryReference(manifest), oldRef, newRef)];
        if oldRef != newRef {
          df.ref := Some(newRef);
          mutated := true;
        }
      }
      assert hits == EntryHits(env.m, manifest, e.file);
      assert df.Value() == MovedFile(env.m, fixed);
      return Success((hits, mutated)), puts;
    }

    method RewriteManifest(mf: ManifestFile) returns (r: Result<ManifestRewrite, Error>, ghost puts: seq<Put>)
      modifies store
      ensures Wrote(store, puts)
      ensures Refines(store.faults > old(store.faults), r, puts, PlanManifest(env, old(store.objects), mf))
    {
      hide PlanLoop, Summarize;
      puts := [];
      var raw := store.GetObject(mf.path);
      if raw.None? {
        return Failure(StorageFailed(mf.path)), [];
      }
      var obj := raw.value.obj;
      if !obj.Manifest? || obj.content != mf.content {
        return Failure(Undecodable(mf.path)), [];
      }
      if !obj.headerOk {
        return Failure(BadHeader(mf.path)), [];
      }
      var g;
      g, puts := RewriteEntries(mf.path, obj.entries);
      if g.Failure? {
        return Failure(g.error), puts;
      }
      if !g.value.changed {
        return Success(ManifestRewrite(mf, g.value.hits)), puts;
      }
      if !env.m.Matches(mf.path) {
        return Failure(OutsidePrefix(mf.path)), puts;
      }
      var newUri := env.m.Apply(mf.path);
      var newObj := Manifest(mf.version, mf.content, obj.specId, true, g.value.entries);
      var size := env.enc(newObj);
      if size.None? {
        return Failure(Unencodable(newUri)), puts;
      }
      var newMF := WriterFile(mf, obj.specId, newUri, size.value, g.value.entries);
      ghost var before := puts;
      var ok;
      ghost var landed;
      ok, landed := store.PutAndVerify(newUri, Blob(newObj, size.value));
      AppendWrites(old(store.objects), before, landed);
      puts := before + landed;
      if !ok {
        return Failure(StorageFailed(newUri)), puts;
      }
      return Success(ManifestRewrite(PreserveSequenceNumbers(newMF, mf), g.value.hits)), puts;
    }

    /** One iteration of the entry loop, i iterations into the plan. */
    method NextEntry(manifest: Uri, files: seq<DataFile>, i: nat, ghost entries: seq<Entry>, ghost done: seq<Entry>,
                     hits: seq<PathHit>, mutated: bool, ghost plan: Run<Gathered>, ghost before: seq<Put>)
      returns (r: Result<(seq<PathHit>, bool), Error>, ghost puts: seq<Put>)
      requires HalfMapped(entries, files, done, i) && i < |entries|
      requires Midway(plan, EntryStep(env, manifest), store.objects, entries, i,
                      Gathered(done, [], hits, mutated, 0, 0), before)
      modifies store, files[i]
      ensures Wrote(store, puts)
      ensures store.faults > old(store.faults) ==> r.Failure? && r.error.StorageFailed? && Interrupted(before + puts, plan.puts)
      ensures store.faults == old(store.faults) && r.Failure? ==> plan == Run(Failure(r.error), before + puts)
      ensures r.Success? ==>
                var now := done + [entries[i].(file := files[i].Value())];
                && HalfMapped(entries, files, now, i + 1)
                && Midway(plan, EntryStep(env, manifest), store.objects, entries, i + 1,
                          Gathered(now, [], r.value.0, r.value.1, 0, 0), before + puts)
    {
      ghost var g := Gathered(done, [], hits, mutated, 0, 0);
      LoopNext(plan, EntryStep(env, manifest), store.objects, entries, i, g, before);
      r, puts := RewriteEntry(manifest, files[i], entries[i]);
      if store.faults > old(store.faults) {
        CutInside(before, puts, PlanEntry(env, manifest, old(store.objects), entries[i]).puts, plan.puts);
      }
      if r.Success? {
        ghost var h := Gathered([entries[i].(file := files[i].Value())], [], r.value.0, r.value.1, 0, 0);
        r := Success((hits + r.value.0, mutated || r.value.1));
        assert Plus(g, h) == Gathered(done + h.entries, [], r.value.0, r.value.1, 0, 0);
      }
    }

    /** The entry loop over the decoded files. */
    method EntryLoop(manifest: Uri, files: seq<DataFile>, ghost entries: seq<Entry>, ghost plan: Run<Gathered>)
      returns (r: Result<(seq<PathHit>, bool), Error>, ghost done: seq<Entry>, ghost puts: seq<Put>)
      requires HalfMapped(entries, files, [], 0)
      requires Midway(plan, EntryStep(env, manifest), store.objects, entries, 0, Nothing, [])
      modifies store, files
      ensures Wrote(store, puts)
      ensures store.faults > old(store.faults) ==> r.Failure? && r.error.StorageFailed? && Interrupted(puts, plan.puts)
      ensures store.faults == old(store.faults) && r.Failure? ==> plan == Run(Failure(r.error), puts)
      ensures r.Success? ==> HalfMapped(entries, files, done, |entries|)
      ensures r.Success? ==>
                Midway(plan, EntryStep(env, manifest), store.objects, entries, |entries|,
                       Gathered(done, [], r.value.0, r.value.1, 0, 0), puts)
    {
      hide After, PlanLoop, PlanEntry, Midway, Interrupted;
      NoWrites(store.objects);
      puts, done := [], [];
      var hits, mutated := [], false;
      for i := 0 to |files|
        invariant Wrote(store, puts) && store.faults == old(store.faults)
        invariant HalfMapped(entries, files, done, i)
        invariant Midway(plan, EntryStep(env, manifest), store.objects, entries, i,
                         Gathered(done, [], hits, mutated, 0, 0), puts)
      {
        ghost var before := puts;
        var out;
        ghost var p;
        out, p := NextEntry(manifest, files, i, entries, done, hits, mutated, plan, before);
        AppendWrites(old(store.objects), before, p);
        puts := before + p;
        if out.Failure? {
          return Failure(out.error), done, puts;
        }
        hits, mutated := out.value.0, out.value.1;
        done := done + [entries[i].(file := files[i].Value())];
      }
      return Success((hits, mutated)), done, puts;
    }

    method RewriteEntries(manifest: Uri, entries: seq<Entry>) returns (r: Result<Gathered, Error>, ghost puts: seq<Put>)
      modifies store
      ensures Wrote(store, puts)
      ensures Refines(store.faults > old(store.faults), r, puts,
                      PlanLoop(EntryStep(env, manifest), old(store.objects), entries))
    {
      var files := DecodeFiles(entries);
      ghost var plan := PlanLoop(EntryStep(env, manifest), store.objects, entries);
      LoopStart(EntryStep(env, manifest), store.objects, entries);
      var out;
      ghost var done;
      out, done, puts := EntryLoop(manifest, files, entries, plan);
      if out.Failure? {
        return Failure(out.error), puts;
      }
      var written := ReadBack(entries, files);
      assert written == done;
      var g := Gathered(written, [], out.value.0, out.value.1, 0, 0);
      LoopEnd(plan, EntryStep(env, manifest), store.objects, entries, g, puts);
      return Success(g), puts;
    }

    /** The first i files are mapped and recorded in done, the others are as decoded. */
    ghost predicate HalfMapped(entries: seq<Entry>, files: seq<DataFile>, done: seq<Entry>, i: nat)
      reads files
    {
      && |files| == |entries| && |done| == i <= |entries|
      && (forall j, k | 0 <= j < k < |files| :: files[j] != files[k])
      && (forall j | 0 <= j < i :: done[j] == entries[j].(file := files[j].Value()))
      && (forall j | i <= j < |entries| :: files[j].Value() == entries[j].file)
    }

    /** The entries as the manifest writer receives them. */
    method ReadBack(entries: seq<Entry>, files: seq<DataFile>) returns (out: seq<Entry>)
      requires |files| == |entries|
      ensures |out| == |entries| && forall i | 0 <= i < |entries| :: out[i] == entries[i].(file := files[i].Value())
    {
      out := [];
      for i := 0 to |entries|
        invariant |out| == i && forall j | 0 <= j < i :: out[j] == entries[j].(file := files[j].Value())
      {
        out := out + [entries[i].(file := files[i].Value())];
      }
    }

    /** One iteration of WalkManifest's entry loop. */
    method WalkEntry(manifest: Uri, e: Entry) returns (r: Result<seq<PathHit>, Error>)
      modifies store`faults
      ensures store.faults >= old(store.faults)
      ensures store.faults > old(store.faults) ==> r.Failure? && r.error.StorageFailed?
      ensures store.faults == old(store.faults) ==>
                PlanWalkEntry(env, manifest, store.objects, e) ==
                Run(match r case Failure(err) => Failure(err) case Success(hits) => Success(Nothing.(hits := hits)), [])
    {
      var f := e.file;
      match f.content {
        case OtherContent(_) =>
          return Failure(Unsupported(manifest));
        case PosDeletes =>
          var puffin := IsPuffinPath(f.path);
          if puffin {
            return Failure(Unsupported(manifest));
          }
          var err := WalkPositionDeleteFile(f.path);
          if err.Some? {
            return Failure(err.value);
          }
        case _ =>
      }
      var hits := [PathHit(EntryPath(manifest), f.path, env.m.Apply(f.path))];
      if f.ref.Some? && f.ref.value != "" {
        hits := hits + [PathHit(EntryReference(manifest), f.ref.value, env.m.Apply(f.ref.value))];
      }
      assert hits == EntryHits(env.m, manifest, f);
      return Success(hits);
    }

    method WalkEntries(manifest: Uri, entries: seq<Entry>) returns (r: Result<Gathered, Error>)
      modifies store`faults
      ensures store.faults >= old(store.faults)
      ensures Refines(store.faults > old(store.faults), r, [], PlanLoop(WalkStep(env, manifest), store.objects, entries))
    {
      var g := Nothing;
      ghost var plan := PlanLoop(WalkStep(env, manifest), store.objects, entries);
      LoopStart(WalkStep(env, manifest), store.objects, entries);
      for i := 0 to |entries|
        invariant store.faults == old(store.faults)
        invariant Midway(plan, WalkStep(env, manifest), store.objects, entries, i, g, [])
      {
        LoopNext(plan, WalkStep(env, manifest), store.objects, entries, i, g, []);
        var out := WalkEntry(manifest, entries[i]);
        if out.Failure? {
          return Failure(out.error);
        }
        g := Plus(g, Nothing.(hits := out.value));
      }
      LoopEnd(plan, WalkStep(env, manifest), store.objects, entries, g, []);
      return Success(g);
    }

    method WalkManifest(mf: ManifestFile) returns (r: Result<Gathered, Error>)
      modifies store`faults
      ensures store.faults >= old(store.faults)
      ensures Refines(store.faults > old(store.faults), r, [], PlanWalkManifest(env, store.objects, mf))
    {
      var raw := store.GetObject(mf.path);
      if raw.None? {
        return Failure(StorageFailed(mf.path));
      }
      var obj := raw.value.obj;
      if !obj.Manifest? || obj.content != mf.content {
        return Failure(Undecodable(mf.path));
      }
      r := WalkEntries(mf.path, obj.entries);
    }

    // Manifest lists.

    /** The body of RewriteTable's loop over the manifests of a list. */
    method RewriteFile(mf: ManifestFile) returns (r: Result<Gathered, Error>, ghost puts: seq<Put>)
      modifies store
      ensures Wrote(store, puts)
      ensures Refines(store.faults > old(store.faults), r, puts, PlanFile(env, opts.dry, old(store.objects), mf))
    {
      hide PlanManifest, PlanWalkManifest;
      puts := [];
      if opts.dry {
        r := WalkManifest(mf);
      } else {
        var out;
        out, puts := RewriteManifest(mf);
        if out.Failure? {
          return Failure(out.error), puts;
        }
        var newMF := out.value.file;
        var subtreeChanged, manifestsRewritten := false, 0;
        if newMF.path != mf.path || newMF.length != mf.length {
          subtreeChanged := true;
          manifestsRewritten := manifestsRewritten + 1;
        }
        r := Success(Gathered([], [newMF], out.value.hits, subtreeChanged, manifestsRewritten, 0));
      }
    }

    /** One manifest of a list, i iterations into the plan. */
    method NextFile(files: seq<ManifestFile>, i: nat, g: Gathered, ghost plan: Run<Gathered>, ghost before: seq<Put>)
      returns (r: Result<Gathered, Error>, ghost puts: seq<Put>)
      requires i < |files| && Midway(plan, FileStep(env, opts.dry), store.objects, files, i, g, before)
      modifies store
      ensures Wrote(store, puts)
      ensures store.faults > old(store.faults) ==> r.Failure? && r.error.StorageFailed? && Interrupted(before + puts, plan.puts)
      ensures store.faults == old(store.faults) && r.Failure? ==> plan == Run(Failure(r.error), before + puts)
      ensures r.Success? ==> Midway(plan, FileStep(env, opts.dry), store.objects, files, i + 1, r.value, before + puts)
    {
      LoopNext(plan, FileStep(env, opts.dry), store.objects, files, i, g, before);
      r, puts := RewriteFile(files[i]);
      if store.faults > old(store.faults) {
        CutInside(before, puts, PlanFile(env, opts.dry, old(store.objects), files[i]).puts, plan.puts);
      }
      if r.Success? {
        r := Success(Plus(g, r.value));
      }
    }

    method RewriteFiles(files: seq<ManifestFile>) returns (r: Result<Gathered, Error>, ghost puts: seq<Put>)
      modifies store
      ensures Wrote(store, puts)
      ensures Refines(store.faults > old(store.faults), r, puts, PlanLoop(FileStep(env, opts.dry), old(store.objects), files))
    {
      hide After, PlanLoop, PlanFile, Midway, Interrupted, Plus;
      NoWrites(store.objects);
      puts := [];
      var g := Nothing;
      ghost var plan := PlanLoop(FileStep(env, opts.dry), store.objects, files);
      LoopStart(FileStep(env, opts.dry), store.objects, files);
      for i := 0 to |files|
        invariant Wrote(store, puts) && store.faults == old(store.faults)
        invariant Midway(plan, FileStep(env, opts.dry), store.objects, files, i, g, puts)
      {
        ghost var before := puts;
        var out;
        ghost var p;
        out, p := NextFile(files, i, g, plan, before);
        AppendWrites(old(store.objects), before, p);
        puts := before + p;
        if out.Failure? {
          return Failure(out.error), puts;
        }
        g := out.value;
      }
      LoopEnd(plan, FileStep(env, opts.dry), store.objects, files, g, puts);
      return Success(g), puts;
    }

    /** The hit loop of WalkManifestList. */
    method CollectListHits(list: Uri, files: seq<ManifestFile>) returns (hits: seq<PathHit>)
      ensures hits == ListHits(env.m, list, files)
    {
      hits := [];
      for i := 0 to |files|
        invariant |hits| == i
        invariant forall j | 0 <= j < i :: hits[j] == PathHit(ListedManifest(list, j), files[j].path, env.m.Apply(files[j].path))
      {
        hits := hits + [PathHit(ListedManifest(list, i), files[i].path, env.m.Apply(files[i].path))];
      }
    }

    /** RewriteManifestList. */
    method RewriteManifestList(uri: Uri, list: Obj, files: seq<ManifestFile>)
      returns (r: Result<nat, Error>, ghost puts: seq<Put>)
      requires list.List?
      modifies store
      ensures Wrote(store, puts)
      ensures Refines(store.faults > old(store.faults), r, puts,
                      PlanWrite(env, env.m.Apply(uri), List(list.version, list.header, files)))
    {
      puts := [];
      var newUri := env.m.Apply(uri);
      var obj := List(list.version, list.header, files);
      var size := env.enc(obj);
      if size.None? {
        return Failure(Unencodable(newUri)), [];
      }
      var ok;
      ok, puts := store.PutAndVerify(newUri, Blob(obj, size.value));
      if !ok {
        return Failure(StorageFailed(newUri)), puts;
      }
      return Success(size.value), puts;
    }

    /** The manifest-list half of RewriteTable's loop over snapshots. */
    method RewriteListed(uri: Uri) returns (r: Result<Gathered, Error>, ghost puts: seq<Put>)
      modifies store
      ensures Wrote(store, puts)
      ensures Refines(store.faults > old(store.faults), r, puts, PlanList(env, opts.dry, old(store.objects), uri))
    {
      hide PlanLoop, ListHits, PlanFile, After, Interrupted;
      NoWrites(store.objects);
      NothingDone(PlanList(env, opts.dry, store.objects, uri).puts);
      puts := [];
      var raw := store.GetObject(uri);
      if raw.None? {
        return Failure(StorageFailed(uri)), [];
      }
      var list := raw.value.obj;
      if !list.List? {
        return Failure(Undecodable(uri)), [];
      }
      var listHits := CollectListHits(uri, list.files);
      var g;
      g, puts := RewriteFiles(list.files);
      if store.faults > old(store.faults) {
        InterruptedGrows(puts, PlanLoop(FileStep(env, opts.dry), old(store.objects), list.files).puts,
                         PlanList(env, opts.dry, old(store.objects), uri).puts);
      }
      if g.Failure? {
        return Failure(g.error), puts;
      }
      var out := Gathered([], [], listHits + g.value.hits, false, g.value.manifests, 0);
      var listUriChanged := env.m.Apply(uri) != uri;
      if opts.dry || !(g.value.changed || listUriChanged) {
        return Success(out), puts;
      }
      if g.value.changed && !env.m.Matches(uri) {
        return Failure(OutsidePrefix(uri)), puts;
      }
      ghost var before := puts;
      var w;
      ghost var p;
      w, p := RewriteManifestList(uri, list, g.value.files);
      AppendWrites(old(store.objects), before, p);
      puts := before + p;
      if store.faults > old(store.faults) {
        CutInside(before, p, PlanWrite(env, env.m.Apply(uri), List(list.version, list.header, g.value.files)).puts,
                  PlanList(env, opts.dry, old(store.objects), uri).puts);
      }
      if w.Failure? {
        return Failure(w.error), puts;
      }
      return Success(out.(lists := 1)), puts;
    }

    // Flat V1 lists and snapshots.

    /** One manifest URI of a V1 snapshot: HEAD it, build a descriptor, and treat it like a listed manifest. */
    method RewriteFlat(snapshotId: int, uri: Uri) returns (r: Result<Gathered, Error>, ghost puts: seq<Put>)
      modifies store
      ensures Wrote(store, puts)
      ensures Refines(store.faults > old(store.faults), r, puts, PlanFlat(env, opts.dry, snapshotId, old(store.objects), uri))
    {
      puts := [];
      var size := store.HeadObject(uri);
      if size.None? {
        return Failure(StorageFailed(uri)), [];
      }
      var out;
      out, puts := RewriteFile(V1Descriptor(uri, size.value, snapshotId));
      if out.Failure? {
        return Failure(out.error), puts;
      }
      return Success(out.value.(files := [], changed := false)), puts;
    }

    /** One manifest of a V1 snapshot, i iterations into the plan. */
    method NextFlat(snapshotId: int, uris: seq<Uri>, i: nat, g: Gathered, ghost plan: Run<Gathered>, ghost before: seq<Put>)
      returns (r: Result<Gathered, Error>, ghost puts: seq<Put>)
      requires i < |uris| && Midway(plan, FlatStep(env, opts.dry, snapshotId), store.objects, uris, i, g, before)
      modifies store
      ensures Wrote(store, puts)
      ensures store.faults > old(store.faults) ==> r.Failure? && r.error.StorageFailed? && Interrupted(before + puts, plan.puts)
      ensures store.faults == old(store.faults) && r.Failure? ==> plan == Run(Failure(r.error), before + puts)
      ensures r.Success? ==> Midway(plan, FlatStep(env, opts.dry, snapshotId), store.objects, uris, i + 1, r.value, before + puts)
    {
      LoopNext(plan, FlatStep(env, opts.dry, snapshotId), store.objects, uris, i, g, before);
      r, puts := RewriteFlat(snapshotId, uris[i]);
      if store.faults > old(store.faults) {
        CutInside(before, puts, PlanFlat(env, opts.dry, snapshotId, old(store.objects), uris[i]).puts, plan.puts);
      }
      if r.Success? {
        r := Success(Plus(g, r.value));
      }
    }

    method RewriteFlatList(snapshotId: int, uris: seq<Uri>) returns (r: Result<Gathered, Error>, ghost puts: seq<Put>)
      modifies store
      ensures Wrote(store, puts)
      ensures Refines(store.faults > old(store.faults), r, puts, PlanLoop(FlatStep(env, opts.dry, snapshotId), old(store.objects), uris))
    {
      hide After, PlanLoop, PlanFlat, Midway, Interrupted, Plus;
      NoWrites(store.objects);
      puts := [];
      var g := Nothing;
      ghost var plan := PlanLoop(FlatStep(env, opts.dry, snapshotId), store.objects, uris);
      LoopStart(FlatStep(env, opts.dry, snapshotId), store.objects, uris);
      for i := 0 to |uris|
        invariant Wrote(store, puts) && store.faults == old(store.faults)
        invariant Midway(plan, FlatStep(env, opts.dry, snapshotId), store.objects, uris, i, g, puts)
      {
        ghost var before := puts;
        var out;
        ghost var p;
        out, p := NextFlat(snapshotId, uris, i, g, plan, before);
        AppendWrites(old(store.objects), before, p);
        puts := before + p;
        if out.Failure? {
          return Failure(out.error), puts;
        }
        g := out.value;
      }
      LoopEnd(plan, FlatStep(env, opts.dry, snapshotId), store.objects, uris, g, puts);
      return Success(g), puts;
    }

    method RewriteSnapshot(snap: SnapshotJSON) returns (r: Result<Gathered, Error>, ghost puts: seq<Put>)
      modifies store
      ensures Wrote(store, puts)
      ensures Refines(store.faults > old(store.faults), r, puts, PlanSnapshot(env, opts.dry, old(store.objects), snap))
    {
      hide After, PlanLoop, PlanList, PlanFlat;
      NoWrites(store.objects);
      puts := [];
      var g := Nothing;
      if snap.manifestList != "" {
        var a;
        a, puts := RewriteListed(snap.manifestList);
        if store.faults > old(store.faults) {
          InterruptedGrows(puts, PlanList(env, opts.dry, old(store.objects), snap.manifestList).puts,
                           PlanSnapshot(env, opts.dry, old(store.objects), snap).puts);
        }
        if a.Failure? {
          return Failure(a.error), puts;
        }
        g := a.value;
      }
      ghost var before, was := puts, store.objects;
      var b;
      ghost var p;
      b, p := RewriteFlatList(snap.id, snap.manifests);
      AppendWrites(old(store.objects), before, p);
      puts := before + p;
      if store.faults > old(store.faults) {
        CutInside(before, p, PlanLoop(FlatStep(env, opts.dry, snap.id), was, snap.manifests).puts,
                  PlanSnapshot(env, opts.dry, old(store.objects), snap).puts);
      }
      if b.Failure? {
        return Failure(b.error), puts;
      }
      return Success(Plus(g, b.value)), puts;
    }

    /** One snapshot, i iterations into the plan. */
    method NextSnapshot(snaps: seq<SnapshotJSON>, i: nat, g: Gathered, ghost plan: Run<Gathered>, ghost before: seq<Put>)
      returns (r: Result<Gathered, Error>, ghost puts: seq<Put>)
      requires i < |snaps| && Midway(plan, SnapshotStep(env, opts.dry), store.objects, snaps, i, g, before)
      modifies store
      ensures Wrote(store, puts)
      ensures store.faults > old(store.faults) ==> r.Failure? && r.error.StorageFailed? && Interrupted(before + puts, plan.puts)
      ensures store.faults == old(store.faults) && r.Failure? ==> plan == Run(Failure(r.error), before + puts)
      ensures r.Success? ==> Midway(plan, SnapshotStep(env, opts.dry), store.objects, snaps, i + 1, r.value, before + puts)
    {
      LoopNext(plan, SnapshotStep(env, opts.dry), store.objects, snaps, i, g, before);
      r, puts := RewriteSnapshot(snaps[i]);
      if store.faults > old(store.faults) {
        CutInside(before, puts, PlanSnapshot(env, opts.dry, old(store.objects), snaps[i]).puts, plan.puts);
      }
      if r.Success? {
        r := Success(Plus(g, r.value));
      }
    }

    method RewriteSnapshots(snaps: seq<SnapshotJSON>) returns (r: Result<Gathered, Error>, ghost puts: seq<Put>)
      modifies store
      ensures Wrote(store, puts)
      ensures Refines(store.faults > old(store.faults), r, puts, PlanLoop(SnapshotStep(env, opts.dry), old(store.objects), snaps))
    {
      hide After, PlanLoop, PlanSnapshot, Midway, Interrupted, Plus;
      NoWrites(store.objects);
      puts := [];
      var g := Nothing;
      ghost var plan := PlanLoop(SnapshotStep(env, opts.dry), store.objects, snaps);
      LoopStart(SnapshotStep(env, opts.dry), store.objects, snaps);
      for i := 0 to |snaps|
        invariant Wrote(store, puts) && store.faults == old(store.faults)
        invariant Midway(plan, SnapshotStep(env, opts.dry), store.objects, snaps, i, g, puts)
      {
        ghost var before := puts;
        var out;
        ghost var p;
        out, p := NextSnapshot(snaps, i, g, plan, before);
        AppendWrites(old(store.objects), before, p);
        puts := before + p;
        if out.Failure? {
          return Failure(out.error), puts;
        }
        g := out.value;
      }
      LoopEnd(plan, SnapshotStep(env, opts.dry), store.objects, snaps, g, puts);
      return Success(g), puts;
    }

    // The table.

    /** RewriteMetadataJSON. */
    method RewriteMetadataJSON(oldUri: Uri)
      returns (r: Result<Uri, Error>, hits: seq<PathHit>, ghost puts: seq<Put>)
      modifies store
      ensures Wrote(store, puts)
      ensures Refines(store.faults > old(store.faults), r, puts, PlanMeta(env, old(store.objects), oldUri))
      ensures r.Success? ==> MetaHits(env.m, old(store.objects), oldUri, hits)
    {
      puts, hits := [], [];
      if !env.m.Matches(oldUri) {
        return Failure(WrongPrefix(oldUri)), hits, [];
      }
      var raw := store.GetObject(oldUri);
      if raw.None? {
        return Failure(StorageFailed(oldUri)), hits, [];
      }
      if !raw.value.obj.Meta? {
        return Failure(Undecodable(oldUri)), hits, [];
      }
      var doc := raw.value.obj.doc;
      var rewriter := new DocRewriter(env.m, doc);
      rewriter.ApplyMapping();
      hits := rewriter.hits;
      if !rewriter.changed {
        return Success(oldUri), hits, [];
      }
      var obj := Meta(RenumberDoc(env.num, rewriter.doc));
      var newUri := env.m.Apply(oldUri);
      var size := env.enc(obj);
      if size.None? {
        return Failure(Unencodable(newUri)), hits, [];
      }
      var ok;
      ok, puts := store.PutAndVerify(newUri, Blob(obj, size.value));
      if !ok {
        return Failure(StorageFailed(newUri)), hits, puts;
      }
      return Success(newUri), hits, puts;
    }

    /** Read and parse the metadata document. */
    method ReadMetadata(loc: Uri) returns (r: Result<MetadataJSON, Error>)
      modifies store`faults
      ensures store.faults >= old(store.faults)
      ensures r == if store.faults > old(store.faults) then Failure(StorageFailed(loc)) else LoadMeta(store.objects, loc)
    {
      hide Parse;
      var raw := store.GetObject(loc);
      if raw.None? {
        return Failure(StorageFailed(loc));
      }
      if !raw.value.obj.Meta? {
        return Failure(Undecodable(loc));
      }
      var parsed := Parse(raw.value.obj.doc);
      return match parsed case None => Failure(Undecodable(loc)) case Some(meta) => Success(meta);
    }

    /** The live tail of RewriteTable: after the walk has written before, rewrite the metadata document of s0. */
    method FinishTableRewrite(oldLoc: Uri, res: RewriteResult, ghost s0: Store, ghost before: seq<Put>)
      returns (r: Result<RewriteResult, Error>, metaHits: seq<PathHit>, ghost puts: seq<Put>)
      requires env.m.Matches(oldLoc) && oldLoc in s0
      requires store.objects == After(s0, before) && TargetOnly(env.m, before)
      modifies store
      ensures Wrote(store, puts)
      ensures var w := PlanMeta(env, old(store.objects), oldLoc);
              Refines(store.faults > old(store.faults), r, puts,
                      Run(match w.res
                          case Failure(e) => Failure(e)
                          case Success(u) => Success(res.(newLoc := u, hits := res.hits + metaHits)), w.puts))
      ensures env.m.Legal() && r.Success? ==> MetaHits(env.m, s0, oldLoc, metaHits)
    {
      hide After;
      TargetWritesKeepRest(env.m, s0, before);
      if env.m.Legal() {
        NotBoth(env.m, oldLoc);
      }
      var newLoc;
      newLoc, metaHits, puts := RewriteMetadataJSON(oldLoc);
      match newLoc {
        case Failure(e) => return Failure(e), metaHits, puts;
        case Success(u) => return Success(res.(newLoc := u, hits := res.hits + metaHits)), metaHits, puts;
      }
    }

    /** RewriteTable. The hits of the walk come first, then those of the metadata write. */
    method RewriteTable(oldLoc: Uri)
      returns (r: Result<RewriteResult, Error>, ghost metaHits: seq<PathHit>, ghost puts: seq<Put>)
      modifies store
      ensures Wrote(store, puts)
      ensures Refines(store.faults > old(store.faults), r, puts,
                      Reporting(PlanTable(env, opts, old(store.objects), oldLoc), metaHits))
      ensures opts.dry ==> metaHits == []
      ensures env.m.Legal() && !opts.dry && r.Success? ==> MetaHits(env.m, old(store.objects), oldLoc, metaHits)
    {
      hide After, PlanLoop, PlanSnapshot, PlanMeta, Parse, WalkHits, RelocateDoc, Covered, Selected;
      NoWrites(store.objects);
      puts, metaHits := [], [];
      if !env.m.Matches(oldLoc) {
        return Failure(WrongPrefix(oldLoc)), metaHits, [];
      }
      var meta := ReadMetadata(oldLoc);
      if meta.Failure? {
        return Failure(meta.error), metaHits, [];
      }
      var walkHits := WalkMetadataJSON(env.m, meta.value);
      var snaps := SelectSnapshots(meta.value, opts.currentOnly);
      ghost var walk := PlanLoop(SnapshotStep(env, opts.dry), store.objects, snaps);
      ghost var plan := PlanTable(env, opts, store.objects, oldLoc);
      assert walk.puts <= plan.puts;
      var g;
      g, puts := RewriteSnapshots(snaps);
      if g.Failure? {
        return Failure(g.error), metaHits, puts;
      }
      var res := RewriteResult(oldLoc, env.m.Apply(oldLoc), g.value.lists, g.value.manifests, walkHits + g.value.hits);
      if opts.dry {
        assert res.hits + metaHits == res.hits;
        return Success(res), metaHits, puts;
      }
      ghost var before := puts;
      SnapshotsTargetOnly(env, opts.dry, old(store.objects), snaps);
      ghost var p;
      r, metaHits, p := FinishTableRewrite(oldLoc, res, old(store.objects), before);
      AppendWrites(old(store.objects), before, p);
      puts := before + p;
    }
  }
}
