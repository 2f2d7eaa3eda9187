/** What a position-delete file that the run leaves alone, being outside the source prefix, does to the moved table. */
module Lapsed {
  import opened Wrappers
  import opened Prefix
  import opened Metadata
  import opened Graph
  import opened Deletes
  import opened Plan
  import opened PlanFacts
  import opened Closure
  import opened Scan
  import opened Preserve

  /** Position-delete entry e stays where it is, with the rows it has, while data file d moves away from them. */
  predicate Lapses(m: PrefixMapping, e: FileInfo, d: FileInfo) {
    e.content.PosDeletes? && !m.Matches(e.path) && m.Matches(d.path)
  }

  /** g is f with its reference mapped and its body as it was. */
  ghost predicate LeftAlone(m: PrefixMapping, s: Store, r: Store, f: FileInfo, g: FileInfo) {
    && Present(s, f) && Present(r, g)
    && f.content.PosDeletes? && g.content.PosDeletes? && g.partition == f.partition
    && !m.Matches(f.path) && g.path == f.path
    && g.ref == (if f.ref.Some? then Some(m.Apply(f.ref.value)) else None)
    && r[g.path].obj == s[f.path].obj
  }

  /** How the entry that the run leaves in place of f relates to it. */
  ghost predicate FollowedBy(m: PrefixMapping, s: Store, r: Store, f: FileInfo, g: FileInfo) {
    if f.content.PosDeletes? && !m.Matches(f.path) then LeftAlone(m, s, r, f, g) else Carried(m, s, r, f, g)
  }

  ghost predicate Followed(m: PrefixMapping, s: Store, r: Store, es: seq<LiveEntry>, fs: seq<LiveEntry>) {
    && |fs| == |es|
    && forall i | 0 <= i < |es| ::
         && fs[i].seqNum == es[i].seqNum
         && FollowedBy(m, s, r, es[i].file, fs[i].file)
  }

  lemma EntryFollowed(env: Env, ver: Versions, retired: bool, s: Store, r: Store, puts: seq<Put>, f: FileInfo)
    requires Finished(env, ver, retired, s, r, puts)
    requires Present(s, f) && !Twin(env.m, s, f.path) && Processed(env, s, puts, f)
    ensures FollowedBy(env.m, s, r, f, RewrittenFile(env, s, f))
  {
    hide FilePaths, Positions, AnyInScope, Canonical, Carried;
    if f.content.PosDeletes? && !env.m.Matches(f.path) {
      ReadsOutside(env, ver, retired, s, r, puts, f.path);
      hide Finished;
    } else {
      hide Finished, LeftAlone;
      FileCarried(env, ver, retired, s, r, puts, f);
    }
  }

  lemma EntriesFollowed(env: Env, ver: Versions, retired: bool, s: Store, r: Store, puts: seq<Put>, es: seq<LiveEntry>)
    requires Finished(env, ver, retired, s, r, puts)
    requires ReadableEntries(env.m, s, es) && AllProcessed(env, s, puts, es)
    ensures Followed(env.m, s, r, es, MapLive(env, s, es))
    ensures Complete(s, es) && Complete(r, MapLive(env, s, es))
  {
    hide Finished, RewrittenFile, Processed, FollowedBy, AllKeptApart, Twin;
    var fs := MapLive(env, s, es);
    forall i | 0 <= i < |es| ensures FollowedBy(env.m, s, r, es[i].file, fs[i].file) {
      assert es[i] in es;
      EntryFollowed(env, ver, retired, s, r, puts, es[i].file);
    }
    FollowedComplete(env.m, s, r, es, fs);
  }

  lemma FollowedComplete(m: PrefixMapping, s: Store, r: Store, es: seq<LiveEntry>, fs: seq<LiveEntry>)
    requires Followed(m, s, r, es, fs)
    ensures Complete(s, es) && Complete(r, fs)
  {
    forall f | f in fs ensures Present(r, f.file) {
      var i :| 0 <= i < |fs| && fs[i] == f;
      assert FollowedBy(m, s, r, es[i].file, fs[i].file);
    }
    forall e | e in es ensures Present(s, e.file) {
      var i :| 0 <= i < |es| && es[i] == e;
      assert FollowedBy(m, s, r, es[i].file, fs[i].file);
    }
  }

  /** In the moved table an entry removes a row exactly when it did so before, and does not lapse. */
  lemma RemovesUnlessLapsed(m: PrefixMapping, s: Store, r: Store, e: LiveEntry, f: LiveEntry, d: LiveEntry, c: LiveEntry,
                            k: nat, row: Row)
    requires m.Legal() && f.seqNum == e.seqNum && c.seqNum == d.seqNum
    requires FollowedBy(m, s, r, e.file, f.file) && FollowedBy(m, s, r, d.file, c.file) && d.file.content.Data?
    requires KeptApart(m, s, e.file, d.file.path)
    ensures Removes(false, r, f, c, k, row) <==> Removes(false, s, e, d, k, row) && !Lapses(m, e.file, d.file)
  {
    if e.file.content.PosDeletes? && !m.Matches(e.file.path) {
      LeftRows(m, s, e.file, d.file.path, k);
      hide MarksRow;
    } else {
      RemovesCarried(m, s, r, e, f, d, c, k, row);
      hide Removes, KeptApart, Carried;
    }
  }

  /** Rows of an untouched body mark the moved path only if the path did not move. */
  lemma LeftRows(m: PrefixMapping, s: Store, e: FileInfo, path: Uri, k: nat)
    requires m.Legal() && e.content.PosDeletes? && Present(s, e) && KeptApart(m, s, e, path)
    ensures MarksRow(s[e.path].obj.cols, m.Apply(path), k) <==> MarksRow(s[e.path].obj.cols, path, k) && !m.Matches(path)
  {
    ApplyUnapply(m, path);
    hide FilePaths, Positions;
  }

  // Rows.

  /** The entries that remove row k of d all lapse, though there are such entries. */
  ghost predicate Returns(m: PrefixMapping, s: Store, es: seq<LiveEntry>, d: LiveEntry, k: nat, row: Row)
    requires Complete(s, es)
  {
    IsRemoved(false, s, es, d, k, row) && forall e | e in es && Removes(false, s, e, d, k, row) :: Lapses(m, e.file, d.file)
  }

  /** A row's fate changes exactly when it returns. */
  lemma RemovedUnlessReturns(m: PrefixMapping, s: Store, r: Store, es: seq<LiveEntry>, fs: seq<LiveEntry>, j: nat, k: nat, row: Row)
    requires m.Legal() && Followed(m, s, r, es, fs) && j < |es| && es[j].file.content.Data?
    requires Complete(s, es) && Complete(r, fs) && AllKeptApart(m, s, es)
    ensures IsRemoved(false, r, fs, fs[j], k, row) <==>
            IsRemoved(false, s, es, es[j], k, row) && !Returns(m, s, es, es[j], k, row)
  {
    hide Removes, FollowedBy, KeptApart, Lapses;
    assert es[j] in es;
    forall i | 0 <= i < |es|
      ensures Removes(false, r, fs[i], fs[j], k, row) <==>
              Removes(false, s, es[i], es[j], k, row) && !Lapses(m, es[i].file, es[j].file)
    {
      assert es[i] in es;
      RemovesUnlessLapsed(m, s, r, es[i], fs[i], es[j], fs[j], k, row);
    }
    if f :| f in fs && Removes(false, r, f, fs[j], k, row) {
      var i :| 0 <= i < |fs| && fs[i] == f;
      assert es[i] in es;
    }
    if e :| e in es && Removes(false, s, e, es[j], k, row) && !Lapses(m, e.file, es[j].file) {
      var i :| 0 <= i < |es| && es[i] == e;
      assert fs[i] in fs;
    }
  }

  ghost predicate NoneReturns(m: PrefixMapping, s: Store, es: seq<LiveEntry>, d: LiveEntry, rows: seq<Row>)
    requires Complete(s, es)
  {
    forall n: nat | n < |rows| :: !Returns(m, s, es, d, n, rows[n])
  }

  lemma ReturnsRemoved(m: PrefixMapping, s: Store, es: seq<LiveEntry>, d: LiveEntry, k: nat, row: Row)
    requires Complete(s, es) && Returns(m, s, es, d, k, row)
    ensures IsRemoved(false, s, es, d, k, row)
  {
  }

  /** The rows of a data file meet the same fate in the moved table exactly when none of them returns. */
  lemma FateIff(m: PrefixMapping, s: Store, r: Store, es: seq<LiveEntry>, fs: seq<LiveEntry>, j: nat, rows: seq<Row>)
    requires m.Legal() && Followed(m, s, r, es, fs) && j < |es| && es[j].file.content.Data?
    requires Complete(s, es) && Complete(r, fs) && |fs| == |es| && AllKeptApart(m, s, es)
    ensures SameFate(View(false, s, es), es[j], View(false, r, fs), fs[j], rows, 0) <==> NoneReturns(m, s, es, es[j], rows)
  {
    hide Followed, IsRemoved, Returns, AllKeptApart;
    forall n: nat | n < |rows|
      ensures (IsRemoved(false, s, es, es[j], n, rows[n]) <==> IsRemoved(false, r, fs, fs[j], n, rows[n])) <==>
              !Returns(m, s, es, es[j], n, rows[n])
    {
      RemovedUnlessReturns(m, s, r, es, fs, j, n, rows[n]);
      if Returns(m, s, es, es[j], n, rows[n]) {
        ReturnsRemoved(m, s, es, es[j], n, rows[n]);
      }
    }
  }

  ghost predicate NoRowReturns(m: PrefixMapping, s: Store, es: seq<LiveEntry>)
    requires Complete(s, es)
  {
    forall i | 0 <= i < |es| && es[i].file.content.Data? :: NoneReturns(m, s, es, es[i], s[es[i].file.path].obj.rows)
  }

  lemma FollowedBodies(m: PrefixMapping, s: Store, r: Store, es: seq<LiveEntry>, fs: seq<LiveEntry>)
    requires Followed(m, s, r, es, fs) && Complete(s, es) && Complete(r, fs)
    ensures SameBodies(s, es, r, fs)
  {
    forall i | 0 <= i < |es| ensures SameBody(s, es[i], r, fs[i]) {
      assert FollowedBy(m, s, r, es[i].file, fs[i].file);
    }
  }

  lemma LiveRowsIff(m: PrefixMapping, s: Store, r: Store, es: seq<LiveEntry>, fs: seq<LiveEntry>)
    requires m.Legal() && Followed(m, s, r, es, fs) && Complete(s, es) && Complete(r, fs) && AllKeptApart(m, s, es)
    ensures LiveRows(false, r, fs, fs) == LiveRows(false, s, es, es) <==> NoRowReturns(m, s, es)
  {
    FollowedBodies(m, s, r, es, fs);
    hide SameFate, NoneReturns, LiveRows, FollowedBy, AllKeptApart, SameBodies;
    forall i | 0 <= i < |es| && es[i].file.content.Data?
      ensures SameFate(View(false, s, es), es[i], View(false, r, fs), fs[i], s[es[i].file.path].obj.rows, 0) <==>
              NoneReturns(m, s, es, es[i], s[es[i].file.path].obj.rows)
    {
      FateIff(m, s, r, es, fs, i, s[es[i].file.path].obj.rows);
    }
    LiveRowsSameIff(View(false, s, es), es, View(false, r, fs), fs);
  }

  /** Exactly when a rewritten snapshot reads as before, untouched delete files included: no row returns, that is, no
      removed row of a moved data file had only deletes in files outside the source prefix. */
  lemma SnapshotPreservedIff(env: Env, ver: Versions, retired: bool, s: Store, r: Store, puts: seq<Put>,
                             snap: SnapshotJSON, id: int)
    requires env.m.Legal() && Finished(env, ver, retired, s, r, puts)
    requires TwinFree(env.m, s, snap) && SnapshotEntries(s, snap).Some?
    requires ReadableEntries(env.m, s, SnapshotEntries(s, snap).value)
    requires PlanSnapshot(env, false, s, snap).res.Success?
    requires forall p | p in PlanSnapshot(env, false, s, snap).puts :: p in puts
    requires retired ==> ListHomed(env.m, s, snap)
    ensures var es := SnapshotEntries(s, snap).value;
            && Complete(s, es)
            && (ReadSnapshot(false, r, MovedUris(env.m, snap, id)) == ReadSnapshot(false, s, snap) <==>
                  NoRowReturns(env.m, s, es))
  {
    hide PlanSnapshot, Finished, RewrittenFile, AllKeptApart, Followed, TwinFree, SnapshotEntries, LiveRows, AllProcessed, NoRowReturns;
    SnapshotReadable(env, ver, retired, s, r, puts, snap, id);
    var es := SnapshotEntries(s, snap).value;
    var fs := MapLive(env, s, es);
    EntriesFollowed(env, ver, retired, s, r, puts, es);
    LiveRowsIff(env.m, s, r, es, fs);
  }
}
