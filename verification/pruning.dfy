/** Bounds of position-delete entries after the rewrite: an engine that skips delete files by their file_path bounds
    sees the same rows as one that reads every delete file. */
module Pruning {
  import opened Wrappers
  import opened Prefix
  import opened Lex
  import opened Metadata
  import opened Graph
  import opened Deletes
  import opened Plan
  import opened PlanFacts
  import opened Closure
  import opened Scan
  import opened Preserve

  function MapBoundValue(m: PrefixMapping, b: Option<string>): Option<string> {
    match b case Some(v) => Some(m.Apply(v)) case None => None
  }

  /** The rewrite of a bounds map changes the file_path bound and nothing else. */
  lemma {:induction false} BoundValueMapped(m: PrefixMapping, bs: Bounds, id: int)
    ensures BoundValue(MapBounds(m, Some(bs)).value, id) ==
            if id == ReservedFilePathId then MapBoundValue(m, BoundValue(bs, id)) else BoundValue(bs, id)
  {
    if bs != [] {
      BoundValueMapped(m, bs[1..], id);
      assert MapBounds(m, Some(bs)).value[1..] == MapBounds(m, Some(bs[1..])).value;
    }
  }

  /** Of the bounds of all columns, exactly those of field 2147483546, file_path, are mapped; none is added or dropped. */
  lemma BoundsByField(m: PrefixMapping, bs: Bounds)
    ensures var out := MapBounds(m, Some(bs));
            && out.Some? && |out.value| == |bs|
            && forall i | 0 <= i < |bs| ::
                 && out.value[i].0 == bs[i].0
                 && out.value[i].1 == if bs[i].0 == 2147483546 then m.Apply(bs[i].1) else bs[i].1
    ensures MapBounds(m, None) == None
  {
  }

  lemma FilePathBoundMapped(m: PrefixMapping, bounds: Option<Bounds>)
    ensures FilePathBound(MapBounds(m, bounds)) == MapBoundValue(m, FilePathBound(bounds))
  {
    if bounds.Some? {
      BoundValueMapped(m, bounds.value, ReservedFilePathId);
    }
  }

  /** Every row is null, empty or under the source prefix. */
  ghost predicate SourceRows(m: PrefixMapping, rows: Paths) {
    forall i | 0 <= i < |rows| && rows[i].Some? && rows[i].value != "" :: m.Matches(rows[i].value)
  }

  /** A bound that the rewrite can map: absent, empty, or carrying the whole source prefix. */
  predicate FullBound(m: PrefixMapping, b: Option<string>) {
    b.Some? && b.value != "" ==> m.Matches(b.value)
  }

  /** Full bounds that cover a body of source rows still cover it after the rewrite. */
  lemma FullBoundsCover(m: PrefixMapping, lo: Option<string>, hi: Option<string>, rows: Paths)
    requires m.Legal() && SourceRows(m, rows) && FullBound(m, lo) && FullBound(m, hi)
    requires BoundsCover(lo, hi, rows)
    ensures BoundsCover(MapBoundValue(m, lo), MapBoundValue(m, hi), MapRows(m, rows))
  {
    forall i | 0 <= i < |rows| && rows[i].Some?
      ensures AtLeast(MapBoundValue(m, lo), MapRows(m, rows)[i].value)
      ensures AtMost(MapRows(m, rows)[i].value, MapBoundValue(m, hi))
    {
      var v := rows[i].value;
      assert AtLeast(lo, v) && AtMost(v, hi);
      if v != "" {
        if lo.Some? && lo.value != "" {
          SwapKeepsOrder(m, lo.value, v);
        }
        if hi.Some? {
          SwapKeepsOrder(m, v, hi.value);
        }
      }
    }
  }

  // Any bounds, over any body that the rewrite accepts.

  predicate InEither(m: PrefixMapping, v: string) {
    m.Matches(v) || m.UnderTarget(v)
  }

  /** A URI under either prefix taken to the source side. */
  function Back(m: PrefixMapping, v: string): string {
    if m.UnderTarget(v) then m.Unapply(v) else v
  }

  /** What the rewrite accepts: no row names a file under neither prefix. */
  ghost predicate Accepted(m: PrefixMapping, rows: Paths) {
    forall i | 0 <= i < |rows| :: !Foreign(m, rows[i])
  }

  /** Bound lo is mapped to one at or below what row v is mapped to: between URIs under the two prefixes, the order on
      the source side decides; a bound under neither prefix is compared with the target prefix. */
  predicate LowerFits(m: PrefixMapping, lo: Option<string>, v: string) {
    lo.None? || lo.value == "" ||
    (v != "" && if InEither(m, lo.value) then Leq(Back(m, lo.value), Back(m, v)) else Leq(lo.value, m.target))
  }

  predicate UpperFits(m: PrefixMapping, v: string, hi: Option<string>) {
    hi.None? || v == "" ||
    if InEither(m, hi.value) then Leq(Back(m, v), Back(m, hi.value)) else Leq(m.target, hi.value)
  }

  /** On URIs under the two prefixes, the mapped order is the source-side order. */
  lemma MappedOrder(m: PrefixMapping, a: string, b: string)
    requires m.Legal() && InEither(m, a) && InEither(m, b)
    ensures Leq(m.Apply(a), m.Apply(b)) <==> Leq(Back(m, a), Back(m, b))
  {
    ApplyUnapply(m, a);
    ApplyUnapply(m, b);
    NotBoth(m, a);
    NotBoth(m, b);
    SwapKeepsOrder(m, Back(m, a), Back(m, b));
  }

  lemma MappedLower(m: PrefixMapping, lo: Option<string>, v: string)
    requires m.Legal() && (v != "" ==> InEither(m, v))
    ensures AtLeast(MapBoundValue(m, lo), m.Apply(v)) <==> LowerFits(m, lo, v)
  {
    if lo.Some? && lo.value != "" && v != "" {
      if InEither(m, lo.value) {
        MappedOrder(m, lo.value, v);
      } else {
        AppliedTail(m, v);
        OffPrefix(lo.value, m.target, m.Apply(v)[|m.target|..]);
      }
    }
    hide Leq;
  }

  lemma MappedUpper(m: PrefixMapping, v: string, hi: Option<string>)
    requires m.Legal() && (v != "" ==> InEither(m, v))
    ensures AtMost(m.Apply(v), MapBoundValue(m, hi)) <==> UpperFits(m, v, hi)
  {
    if hi.Some? && v != "" {
      if InEither(m, hi.value) {
        MappedOrder(m, v, hi.value);
      } else {
        AppliedTail(m, v);
        OffPrefix(hi.value, m.target, m.Apply(v)[|m.target|..]);
      }
    }
  }

  lemma AppliedTail(m: PrefixMapping, v: string)
    requires InEither(m, v) && m.Legal()
    ensures m.UnderTarget(m.Apply(v)) && m.Apply(v) == m.target + m.Apply(v)[|m.target|..]
  {
    NotBoth(m, v);
  }

  /** Exactly when mapped bounds cover a mapped body, whatever the bounds and whichever prefix the rows are under: every
      row fits between the bounds on the source side. */
  lemma MixedBodyIff(m: PrefixMapping, lo: Option<string>, hi: Option<string>, rows: Paths)
    requires m.Legal() && Accepted(m, rows)
    ensures BoundsCover(MapBoundValue(m, lo), MapBoundValue(m, hi), MapRows(m, rows)) <==>
            forall i | 0 <= i < |rows| && rows[i].Some? :: LowerFits(m, lo, rows[i].value) && UpperFits(m, rows[i].value, hi)
  {
    var lo', hi', out := MapBoundValue(m, lo), MapBoundValue(m, hi), MapRows(m, rows);
    forall i | 0 <= i < |rows| && rows[i].Some?
      ensures AtLeast(lo', out[i].value) <==> LowerFits(m, lo, rows[i].value)
      ensures AtMost(out[i].value, hi') <==> UpperFits(m, rows[i].value, hi)
    {
      assert !Foreign(m, rows[i]);
      MappedLower(m, lo, rows[i].value);
      MappedUpper(m, rows[i].value, hi);
    }
    assert forall i | 0 <= i < |rows| :: out[i].Some? <==> rows[i].Some?;
    hide Leq, LowerFits, UpperFits, AtLeast, AtMost;
  }

  /** Both under the source, or both under the target. */
  predicate SameSide(m: PrefixMapping, a: string, b: string) {
    (m.Matches(a) && m.Matches(b)) || (m.UnderTarget(a) && m.UnderTarget(b))
  }

  /** Exactly when sound bounds stay sound: only rows on the other side of a bound count, and for a bound under neither
      prefix, truncated ones among them, only how it sorts against the target prefix. */
  lemma BoundsStaySoundIff(m: PrefixMapping, lo: Option<string>, hi: Option<string>, rows: Paths)
    requires m.Legal() && Accepted(m, rows) && BoundsCover(lo, hi, rows)
    ensures BoundsCover(MapBoundValue(m, lo), MapBoundValue(m, hi), MapRows(m, rows)) <==>
            forall i | 0 <= i < |rows| && rows[i].Some? && rows[i].value != "" ::
              && (lo.Some? ==> SameSide(m, lo.value, rows[i].value) || LowerFits(m, lo, rows[i].value))
              && (hi.Some? ==> SameSide(m, hi.value, rows[i].value) || UpperFits(m, rows[i].value, hi))
  {
    MixedBodyIff(m, lo, hi, rows);
    forall i | 0 <= i < |rows| && rows[i].Some?
      ensures lo.Some? && SameSide(m, lo.value, rows[i].value) ==> LowerFits(m, lo, rows[i].value)
      ensures hi.Some? && SameSide(m, hi.value, rows[i].value) ==> UpperFits(m, rows[i].value, hi)
      ensures rows[i].value == "" ==> LowerFits(m, lo, "") && UpperFits(m, "", hi)
    {
      assert AtLeast(lo, rows[i].value) && AtMost(rows[i].value, hi);
      if lo.Some? && rows[i].value != "" && SameSide(m, lo.value, rows[i].value) {
        SameSideOrder(m, lo.value, rows[i].value);
      }
      if hi.Some? && rows[i].value != "" && SameSide(m, hi.value, rows[i].value) {
        SameSideOrder(m, rows[i].value, hi.value);
      }
    }
    hide BoundsCover, LowerFits, UpperFits, SameSide, MapRows;
  }

  lemma SameSideOrder(m: PrefixMapping, a: string, b: string)
    requires m.Legal() && SameSide(m, a, b)
    ensures Leq(Back(m, a), Back(m, b)) <==> Leq(a, b)
  {
    if m.UnderTarget(a) && m.UnderTarget(b) {
      var x, y := a[|m.target|..], b[|m.target|..];
      assert a == m.target + x && b == m.target + y;
      CommonPrefix(m.target, x, y);
      CommonPrefix(m.source, x, y);
    } else {
      NotBoth(m, a);
      NotBoth(m, b);
    }
  }

  /** For bodies of source rows and bounds off the target, sound bounds stay sound exactly when a bound that lacks the
      full source prefix sorts on the right side of the target prefix. */
  lemma TruncatedBoundsIff(m: PrefixMapping, lo: Option<string>, hi: Option<string>, rows: Paths, w: nat)
    requires m.Legal() && SourceRows(m, rows) && BoundsCover(lo, hi, rows)
    requires w < |rows| && rows[w].Some? && rows[w].value != ""
    requires (lo.Some? ==> !m.UnderTarget(lo.value)) && (hi.Some? ==> !m.UnderTarget(hi.value))
    ensures BoundsCover(MapBoundValue(m, lo), MapBoundValue(m, hi), MapRows(m, rows)) <==>
            && (lo.Some? && !m.Matches(lo.value) ==> Leq(lo.value, m.target))
            && (hi.Some? && !m.Matches(hi.value) ==> Leq(m.target, hi.value))
  {
    assert Accepted(m, rows);
    BoundsStaySoundIff(m, lo, hi, rows);
    hide Leq, BoundsCover, MapRows;
    assert m.Matches(rows[w].value);
  }

  lemma ApplyAt(m: PrefixMapping, x: string)
    ensures m.Matches(m.source + x) && m.Apply(m.source + x) == m.target + x
  {
    assert (m.source + x)[|m.source|..] == x;
  }

  /** A truncated lower bound that excludes the moved file, contrary to the comment in the source that it only widens. */
  lemma TruncatedBoundExcludes()
    ensures var m := PrefixMapping("s3://z/", "s3://a/");
            var lo, row := "s3://z", "s3://z/f";
            && m.Legal() && m.Matches(row) && !m.Matches(lo)
            && Leq(lo, row)
            && !Leq(m.Apply(lo), m.Apply(row))
  {
    var m := PrefixMapping("s3://z/", "s3://a/");
    hide Leq;
    assert m.source[5] == 'z' && m.target[5] == 'a';
    ApplyAt(m, "f");
    assert m.source + "f" == "s3://z/f" && m.target + "f" == "s3://a/f";
    Suffixes("s3://z", "", "/f");
    assert "s3://z" + "" == "s3://z" && "s3://z" + "/f" == "s3://z/f";
    Suffixes("s3://", "z", "a/f");
    assert "s3://" + "z" == "s3://z" && "s3://" + "a/f" == "s3://a/f";
  }

  /** Two strings with a common prefix compare by what follows, first by its first letter. */
  lemma Suffixes(p: string, x: string, y: string)
    ensures Leq(p + x, p + y) <==> Leq(x, y)
    ensures x == "" ==> Leq(x, y)
    ensures x != "" && y != "" && x[0] > y[0] ==> !Leq(x, y)
    ensures x != "" && y != "" && x[0] < y[0] ==> Leq(x, y)
  {
    CommonPrefix(p, x, y);
  }

  lemma OrderedPairCovers(lo: string, hi: string)
    requires Leq(lo, hi)
    ensures BoundsCover(Some(lo), Some(hi), [Some(lo), Some(hi)])
  {
    LeqReflexive(lo);
    LeqReflexive(hi);
    hide Leq;
  }

  /** Sound bounds over a mixed body can come out inverted. */
  lemma MixedBodyInverts()
    ensures var m := PrefixMapping("s3://a/", "s3://b/");
            var lo, hi := "s3://a/b", "s3://b/a";
            && m.Legal() && m.Matches(lo) && m.UnderTarget(hi)
            && BoundsCover(Some(lo), Some(hi), [Some(lo), Some(hi)])
            && !Leq(m.Apply(lo), m.Apply(hi))
  {
    var m := PrefixMapping("s3://a/", "s3://b/");
    var lo, hi := "s3://a/b", "s3://b/a";
    assert m.source[5] == 'a' && m.target[5] == 'b' && hi[5] == 'b';
    hide Leq, BoundsCover;
    assert m.Legal() && m.Matches(lo) && m.UnderTarget(hi) && !m.Matches(hi);
    assert lo[|m.source|..] == "b" && m.target + "b" == "s3://b/b" && m.target + "a" == hi;
    Suffixes(m.target, "b", "a");
    assert "s3://" + "a/b" == lo && "s3://" + "b/a" == hi;
    Suffixes("s3://", "a/b", "b/a");
    OrderedPairCovers(lo, hi);
  }

  // Whole snapshots.

  /** After the rewrite, the bounds of delete entry e still admit what data file path d is mapped to: judged by the
      bounds as they were, when the delete file is moved, and by the same bounds, when it stays. */
  predicate StillAdmits(m: PrefixMapping, e: FileInfo, path: Uri) {
    var lo, hi := FilePathBound(e.lower), FilePathBound(e.upper);
    if m.Matches(e.path) then LowerFits(m, lo, path) && UpperFits(m, path, hi)
    else AtLeast(lo, m.Apply(path)) && AtMost(m.Apply(path), hi)
  }

  /** Rewritten bounds, taken back to the bounds as they were. */
  lemma AdmitsAfter(env: Env, s: Store, puts: seq<Put>, e: FileInfo, path: Uri)
    requires env.m.Legal() && e.content.PosDeletes? && Present(s, e) && Processed(env, s, puts, e)
    requires env.m.Matches(e.path) ==> path == "" || InEither(env.m, path)
    ensures Admits(RewrittenFile(env, s, e), env.m.Apply(path)) <==> StillAdmits(env.m, e, path)
  {
    hide FilePathBound, LowerFits, UpperFits, AtLeast, AtMost, MapBounds, ConvertBody;
    AdmitsWithinBounds(RewrittenFile(env, s, e), env.m.Apply(path));
    hide Admits;
    if env.m.Matches(e.path) {
      InScopeStats(env, s, puts, e);
      FilePathBoundMapped(env.m, e.lower);
      FilePathBoundMapped(env.m, e.upper);
      MappedLower(env.m, FilePathBound(e.lower), path);
      MappedUpper(env.m, path, FilePathBound(e.upper));
    } else {
      OutsideStats(env, s, e);
    }
  }

  lemma OutsideStats(env: Env, s: Store, e: FileInfo)
    requires !env.m.Matches(e.path)
    ensures RewrittenFile(env, s, e).lower == e.lower && RewrittenFile(env, s, e).upper == e.upper
  {
    hide ConvertBody, MapBounds;
  }

  lemma InScopeStats(env: Env, s: Store, puts: seq<Put>, f: FileInfo)
    requires Present(s, f) && Processed(env, s, puts, f) && f.content.PosDeletes? && env.m.Matches(f.path)
    ensures RewrittenFile(env, s, f).lower == MapBounds(env.m, f.lower)
    ensures RewrittenFile(env, s, f).upper == MapBounds(env.m, f.upper)
  {
    hide ConvertBody, MapBounds;
    assert PlanBody(env, s, f.path).res.value.newSize >= 0;
  }

  /** A body that the run accepted marks only paths that are empty or under one of the prefixes. */
  lemma MarkedPath(env: Env, s: Store, puts: seq<Put>, e: FileInfo, path: Uri, k: int)
    requires Present(s, e) && Processed(env, s, puts, e) && e.content.PosDeletes? && env.m.Matches(e.path)
    requires MarksRow(s[e.path].obj.cols, path, k)
    ensures path == "" || InEither(env.m, path)
  {
    hide ConvertBody, FilePaths, Positions;
    var cols := s[e.path].obj.cols;
    ConvertedRows(env.m, e.path, cols);
    var i :| 0 <= i < |FilePaths(cols).value| && i < |Positions(cols).value| &&
             FilePaths(cols).value[i] == Some(path) && Positions(cols).value[i] == k;
    assert !Foreign(env.m, FilePaths(cols).value[i]);
  }

  /** Entry e removes row k of d in the original, and a reader that consults the rewritten bounds still applies it. */
  ghost predicate RemovesStill(m: PrefixMapping, s: Store, e: LiveEntry, d: LiveEntry, k: nat, row: Row)
    requires Present(s, e.file)
  {
    Removes(false, s, e, d, k, row) && (e.file.content.PosDeletes? ==> StillAdmits(m, e.file, d.file.path))
  }

  lemma RemovesPruned(env: Env, ver: Versions, retired: bool, s: Store, r: Store, puts: seq<Put>,
                      es: seq<LiveEntry>, i: nat, j: nat, k: nat, row: Row)
    requires Finished(env, ver, retired, s, r, puts) && i < |es| && j < |es| && es[j].file.content.Data?
    requires CleanEntries(env.m, s, es) && AllProcessed(env, s, puts, es)
    requires CarriedAll(env.m, s, r, es, MapLive(env, s, es))
    ensures Present(s, es[i].file) && Present(r, MapLive(env, s, es)[i].file)
    ensures var fs := MapLive(env, s, es);
            Removes(true, r, fs[i], fs[j], k, row) <==> RemovesStill(env.m, s, es[i], es[j], k, row)
  {
    var fs, e, d := MapLive(env, s, es), es[i], es[j];
    assert e in es && d in es;
    assert env.m.Legal() && Carried(env.m, s, r, e.file, fs[i].file) && Carried(env.m, s, r, d.file, fs[j].file);
    assert KeptApart(env.m, s, e.file, d.file.path) && Processed(env, s, puts, e.file);
    assert Present(s, e.file) && Present(r, fs[i].file);
    assert fs[j].file.path == env.m.Apply(d.file.path) && fs[i].file.content == e.file.content;
    RemovesCarried(env.m, s, r, e, fs[i], d, fs[j], k, row);
    hide Finished, KeptApart, CleanEntries, AllProcessed, Carried, CarriedAll, RewrittenFile, StillAdmits, MarksRow, Admits,
      Present, FilePaths, Positions;
    if Removes(false, s, e, d, k, row) && e.file.content.PosDeletes? {
      if env.m.Matches(e.file.path) {
        MarkedPath(env, s, puts, e.file, d.file.path, k);
      }
      AdmitsAfter(env, s, puts, e.file, d.file.path);
    }
    hide Processed;
  }

  /** Every row that was removed is still removed for a reader that consults the rewritten bounds. */
  ghost predicate NoneReadmitted(m: PrefixMapping, s: Store, es: seq<LiveEntry>, d: LiveEntry, rows: seq<Row>)
    requires Complete(s, es)
  {
    forall n: nat | n < |rows| && IsRemoved(false, s, es, d, n, rows[n]) :: exists e | e in es :: RemovesStill(m, s, e, d, n, rows[n])
  }

  ghost predicate NoRowReadmitted(m: PrefixMapping, s: Store, es: seq<LiveEntry>)
    requires Complete(s, es)
  {
    forall i | 0 <= i < |es| && es[i].file.content.Data? :: NoneReadmitted(m, s, es, es[i], s[es[i].file.path].obj.rows)
  }

  lemma RemovedStillIff(env: Env, ver: Versions, retired: bool, s: Store, r: Store, puts: seq<Put>,
                        es: seq<LiveEntry>, j: nat, k: nat, row: Row)
    requires Finished(env, ver, retired, s, r, puts) && j < |es| && es[j].file.content.Data?
    requires CleanEntries(env.m, s, es) && AllProcessed(env, s, puts, es)
    requires CarriedAll(env.m, s, r, es, MapLive(env, s, es))
    requires Complete(s, es) && Complete(r, MapLive(env, s, es))
    ensures IsRemoved(true, r, MapLive(env, s, es), MapLive(env, s, es)[j], k, row) <==>
            exists e | e in es :: RemovesStill(env.m, s, e, es[j], k, row)
    ensures IsRemoved(true, r, MapLive(env, s, es), MapLive(env, s, es)[j], k, row) ==> IsRemoved(false, s, es, es[j], k, row)
  {
    var fs := MapLive(env, s, es);
    hide Finished, CleanEntries, AllProcessed, CarriedAll, Present, Removes, RewrittenFile, StillAdmits;
    forall i | 0 <= i < |es|
      ensures Present(s, es[i].file) && Present(r, fs[i].file)
      ensures Removes(true, r, fs[i], fs[j], k, row) <==> RemovesStill(env.m, s, es[i], es[j], k, row)
    {
      RemovesPruned(env, ver, retired, s, r, puts, es, i, j, k, row);
    }
    if f :| f in fs && Removes(true, r, f, fs[j], k, row) {
      var i :| 0 <= i < |fs| && fs[i] == f;
      assert es[i] in es;
    }
    if e :| e in es && RemovesStill(env.m, s, e, es[j], k, row) {
      var i :| 0 <= i < |es| && es[i] == e;
      assert fs[i] in fs;
    }
  }

  lemma PrunedFateIff(env: Env, ver: Versions, retired: bool, s: Store, r: Store, puts: seq<Put>,
                      es: seq<LiveEntry>, j: nat, rows: seq<Row>)
    requires Finished(env, ver, retired, s, r, puts) && j < |es| && es[j].file.content.Data?
    requires CleanEntries(env.m, s, es) && AllProcessed(env, s, puts, es)
    requires CarriedAll(env.m, s, r, es, MapLive(env, s, es))
    requires Complete(s, es) && Complete(r, MapLive(env, s, es))
    ensures SameFate(View(false, s, es), es[j], View(true, r, MapLive(env, s, es)), MapLive(env, s, es)[j], rows, 0) <==>
            NoneReadmitted(env.m, s, es, es[j], rows)
  {
    hide Finished, CleanEntries, AllProcessed, CarriedAll, IsRemoved, RemovesStill, RewrittenFile, Present;
    forall n: nat | n < |rows|
      ensures IsRemoved(true, r, MapLive(env, s, es), MapLive(env, s, es)[j], n, rows[n]) <==>
              exists e | e in es :: RemovesStill(env.m, s, e, es[j], n, rows[n])
      ensures IsRemoved(true, r, MapLive(env, s, es), MapLive(env, s, es)[j], n, rows[n]) ==>
              IsRemoved(false, s, es, es[j], n, rows[n])
    {
      RemovedStillIff(env, ver, retired, s, r, puts, es, j, n, rows[n]);
    }
  }

  lemma PrunedFatesIff(env: Env, ver: Versions, retired: bool, s: Store, r: Store, puts: seq<Put>, es: seq<LiveEntry>)
    requires Finished(env, ver, retired, s, r, puts)
    requires CleanEntries(env.m, s, es) && AllProcessed(env, s, puts, es)
    requires CarriedAll(env.m, s, r, es, MapLive(env, s, es))
    requires Complete(s, es) && Complete(r, MapLive(env, s, es))
    ensures SameFates(View(false, s, es), es, View(true, r, MapLive(env, s, es)), MapLive(env, s, es)) <==>
            NoRowReadmitted(env.m, s, es)
  {
    hide Finished, CleanEntries, AllProcessed, CarriedAll, SameFate, NoneReadmitted, RewrittenFile;
    var fs := MapLive(env, s, es);
    forall i | 0 <= i < |es| && es[i].file.content.Data?
      ensures SameFate(View(false, s, es), es[i], View(true, r, fs), fs[i], s[es[i].file.path].obj.rows, 0) <==>
              NoneReadmitted(env.m, s, es, es[i], s[es[i].file.path].obj.rows)
    {
      PrunedFateIff(env, ver, retired, s, r, puts, es, i, s[es[i].file.path].obj.rows);
    }
  }

  lemma CarriedBodies(m: PrefixMapping, s: Store, r: Store, es: seq<LiveEntry>, fs: seq<LiveEntry>)
    requires CarriedAll(m, s, r, es, fs) && Complete(s, es) && Complete(r, fs)
    ensures SameBodies(s, es, r, fs)
  {
    forall i | 0 <= i < |es| ensures SameBody(s, es[i], r, fs[i]) {
      assert Carried(m, s, r, es[i].file, fs[i].file);
    }
  }

  /** Exactly when a reader that consults bounds sees, in the rewritten snapshot, what a reader of every delete file saw
      in the original, whatever the bounds: every removed row has a delete that still applies to it. */
  lemma PrunedScanIff(env: Env, ver: Versions, retired: bool, s: Store, r: Store, puts: seq<Put>,
                      snap: SnapshotJSON, id: int)
    requires env.m.Legal() && Finished(env, ver, retired, s, r, puts)
    requires CleanSnapshot(env.m, s, snap)
    requires PlanSnapshot(env, false, s, snap).res.Success?
    requires forall p | p in PlanSnapshot(env, false, s, snap).puts :: p in puts
    requires retired ==> ListHomed(env.m, s, snap)
    ensures var es := SnapshotEntries(s, snap).value;
            && Complete(s, es)
            && (ReadSnapshot(true, r, MovedUris(env.m, snap, id)) == ReadSnapshot(false, s, snap) <==>
                  NoRowReadmitted(env.m, s, es))
  {
    hide PlanSnapshot, Finished, RewrittenFile, CleanEntries, CarriedAll, TwinFree, SnapshotEntries, LiveRows, AllProcessed,
      SameFates, NoRowReadmitted, SameBodies, ListHomed;
    SnapshotReadable(env, ver, retired, s, r, puts, snap, id);
    var es := SnapshotEntries(s, snap).value;
    var fs := MapLive(env, s, es);
    assert CleanEntries(env.m, s, es);
    EntriesCarried(env, ver, retired, s, r, puts, es);
    CarriedBodies(env.m, s, r, es, fs);
    PrunedFatesIff(env, ver, retired, s, r, puts, es);
    LiveRowsSameIff(View(false, s, es), es, View(true, r, fs), fs);
  }

  /** Sound bounds stay sound, in every moved delete file: each row other than those on the same side of a bound fits. */
  ghost predicate FittingBounds(m: PrefixMapping, s: Store, es: seq<LiveEntry>)
    requires Complete(s, es)
  {
    forall e | e in es && e.file.content.PosDeletes? && m.Matches(e.file.path) ::
      RowsFit(m, FilePathBound(e.file.lower), FilePathBound(e.file.upper), FilePaths(s[e.file.path].obj.cols).value)
  }

  ghost predicate RowsFit(m: PrefixMapping, lo: Option<string>, hi: Option<string>, rows: Paths) {
    forall i | 0 <= i < |rows| && rows[i].Some? :: LowerFits(m, lo, rows[i].value) && UpperFits(m, rows[i].value, hi)
  }

  /** The bounds of every in-scope position-delete entry carry the full source prefix. */
  ghost predicate FullBounds(m: PrefixMapping, es: seq<LiveEntry>) {
    forall e | e in es && e.file.content.PosDeletes? && m.Matches(e.file.path) ::
      FullBound(m, FilePathBound(e.file.lower)) && FullBound(m, FilePathBound(e.file.upper))
  }

  lemma FullBoundFits(m: PrefixMapping, lo: Option<string>, hi: Option<string>, v: string)
    requires m.Legal() && !m.UnderTarget(v) && FullBound(m, lo) && FullBound(m, hi) && AtLeast(lo, v) && AtMost(v, hi)
    ensures LowerFits(m, lo, v) && UpperFits(m, v, hi)
  {
    if lo.Some? {
      NotBoth(m, lo.value);
    }
    if hi.Some? {
      NotBoth(m, hi.value);
    }
  }

  /** Bounds that carry the full source prefix fit, in bodies that name nothing under the target. */
  lemma FullBoundsFit(m: PrefixMapping, s: Store, es: seq<LiveEntry>)
    requires m.Legal() && Complete(s, es) && SoundBounds(s, es) && FullBounds(m, es)
    requires forall e | e in es :: NoTargetRows(m, s, e.file)
    ensures FittingBounds(m, s, es)
  {
    hide FilePaths, FilePathBound, LowerFits, UpperFits, AtLeast, AtMost, FullBound;
    forall e, i | e in es && e.file.content.PosDeletes? && m.Matches(e.file.path) &&
                  0 <= i < |FilePaths(s[e.file.path].obj.cols).value| && FilePaths(s[e.file.path].obj.cols).value[i].Some?
      ensures var v := FilePaths(s[e.file.path].obj.cols).value[i].value;
              LowerFits(m, FilePathBound(e.file.lower), v) && UpperFits(m, v, FilePathBound(e.file.upper))
    {
      var row := FilePaths(s[e.file.path].obj.cols).value[i];
      assert row in FilePaths(s[e.file.path].obj.cols).value && NoTargetRows(m, s, e.file);
      FullBoundFits(m, FilePathBound(e.file.lower), FilePathBound(e.file.upper), row.value);
    }
  }

  ghost predicate NoTargetRows(m: PrefixMapping, s: Store, f: FileInfo) {
    Present(s, f) && f.content.PosDeletes? ==>
      forall row | row in FilePaths(s[f.path].obj.cols).value :: row.Some? ==> !m.UnderTarget(row.value)
  }

  /** An entry that removes a row still does, if bounds are sound and fit. */
  lemma FittingStillRemoves(m: PrefixMapping, s: Store, es: seq<LiveEntry>, e: LiveEntry, d: LiveEntry, k: nat, row: Row)
    requires CleanEntries(m, s, es) && e in es && d in es
    requires Complete(s, es) && SoundBounds(s, es) && FittingBounds(m, s, es)
    requires Removes(false, s, e, d, k, row)
    ensures RemovesStill(m, s, e, d, k, row)
  {
    hide LowerFits, UpperFits, AtLeast, AtMost, FilePathBound, FilePaths, Positions;
    if e.file.content.PosDeletes? {
      var rows := FilePaths(s[e.file.path].obj.cols).value;
      var i :| 0 <= i < |rows| && rows[i] == Some(d.file.path);
      if m.Matches(e.file.path) {
        assert RowsFit(m, FilePathBound(e.file.lower), FilePathBound(e.file.upper), rows);
      } else {
        assert Settled(m, s, e.file);
        assert !InScope(m, rows[i]);
        assert BoundsCover(FilePathBound(e.file.lower), FilePathBound(e.file.upper), rows);
      }
    }
  }

  /** Pruned deletes refine unpruned deletes across the run: with sound bounds that fit, a bounds-consulting reader of the
      rewritten snapshot sees what a reader of every delete file saw in the original. */
  lemma PrunedScanPreserved(env: Env, ver: Versions, retired: bool, s: Store, r: Store, puts: seq<Put>,
                            snap: SnapshotJSON, id: int)
    requires env.m.Legal() && Finished(env, ver, retired, s, r, puts)
    requires CleanSnapshot(env.m, s, snap)
    requires PlanSnapshot(env, false, s, snap).res.Success?
    requires forall p | p in PlanSnapshot(env, false, s, snap).puts :: p in puts
    requires retired ==> ListHomed(env.m, s, snap)
    requires var es := SnapshotEntries(s, snap).value; Complete(s, es) && SoundBounds(s, es) && FittingBounds(env.m, s, es)
    ensures ReadSnapshot(true, s, snap) == ReadSnapshot(false, s, snap)
    ensures ReadSnapshot(true, r, MovedUris(env.m, snap, id)) == ReadSnapshot(false, s, snap)
  {
    PrunedScanIff(env, ver, retired, s, r, puts, snap, id);
    var es := SnapshotEntries(s, snap).value;
    assert CleanEntries(env.m, s, es);
    hide PlanSnapshot, Finished, CleanEntries, TwinFree, SnapshotEntries, LiveRows, SoundBounds, FittingBounds, Removes,
      RemovesStill, Complete;
    PrunedEqualsUnpruned(s, es, es);
    forall i, n: nat, row | 0 <= i < |es| && IsRemoved(false, s, es, es[i], n, row)
      ensures exists e | e in es :: RemovesStill(env.m, s, e, es[i], n, row)
    {
      var e :| e in es && Removes(false, s, e, es[i], n, row);
      FittingStillRemoves(env.m, s, es, e, es[i], n, row);
    }
    hide IsRemoved;
  }
}
