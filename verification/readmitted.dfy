/** A truncated upper bound: the run succeeds, and a reader that consults bounds gets a deleted row back. */
module Readmitted {
  import opened Wrappers
  import opened Lex
  import opened Graph
  import opened Deletes
  import opened Plan
  import opened PlanFacts
  import opened Closure
  import opened Scan
  import opened Preserve
  import opened Pruning
  import opened Example

  /** An engine that keeps one character of "s/d" past the scheme rounds the upper bound up: '0' follows '/'. */
  const Truncated: string := "s0"

  lemma TruncatedSorts()
    ensures Leq("s/d", Truncated) && !Leq("t/", Truncated)
    ensures !InEither(Mapping, Truncated)
  {
    assert Truncated[0] == 's' && Truncated[1] == '0' && "s/"[1] == '/' && "t/"[0] == 't' && "s/d"[1] == '/' && "s/d"[0] == 's';
    hide Leq;
    assert "s" + "/d" == "s/d" && "s" + "0" == Truncated;
    Suffixes("s", "/d", "0");
    assert "" + "t/" == "t/" && "" + Truncated == Truncated;
    Suffixes("", "t/", Truncated);
  }

  /** The delete no longer applies to the file it names. */
  lemma NoLongerAdmits()
    ensures !StillAdmits(Mapping, DeleteFile(Truncated), "s/d")
  {
    TruncatedSorts();
    MappingLegal();
    BoundRead("s/d");
    BoundRead(Truncated);
    hide Leq, FilePathBound, LowerFits;
  }

  lemma RowWasMarked()
    ensures MarksRow(Cols, "s/d", 0)
  {
    BodyReads();
    hide FilePaths, Positions, FieldIndices;
    assert FilePaths(Cols).value[0] == Some("s/d") && Positions(Cols).value[0] == 0;
  }

  lemma AllPresent()
    ensures Complete(Objects(Truncated), LiveOnes(Truncated))
  {
    hide Objects, FilePaths, Positions, Present, Settled;
    FilesClean(Truncated);
  }

  lemma RowWasRemoved()
    ensures Complete(Objects(Truncated), LiveOnes(Truncated))
    ensures IsRemoved(false, Objects(Truncated), LiveOnes(Truncated), LiveEntry(DataFile, 1), 0, 70)
  {
    hide Objects, FilePaths, Positions, MarksRow, Present;
    Stored(Truncated);
    AllPresent();
    RowWasMarked();
    var s, e, d := Objects(Truncated), LiveEntry(DeleteFile(Truncated), 2), LiveEntry(DataFile, 1);
    assert LiveOnes(Truncated)[1] == e;
    assert e in LiveOnes(Truncated);
    assert Removes(false, s, e, d, 0, 70);
  }

  lemma NothingRemovesNow()
    ensures Complete(Objects(Truncated), LiveOnes(Truncated))
    ensures !exists e | e in LiveOnes(Truncated) ::
              RemovesStill(Mapping, Objects(Truncated), e, LiveEntry(DataFile, 1), 0, 70)
  {
    hide Objects, MarksRow, StillAdmits, Present;
    AllPresent();
    NoLongerAdmits();
  }

  /** Before the run the bounds are sound, and consulting them changes nothing. After it, a reader of every delete file
      sees the snapshot as it was; one that consults the bounds does not. */
  lemma TruncatedBoundReadmits()
    ensures var s, moved := Objects(Truncated), MovedUris(Mapping, Snapshot, 1);
            var run := PlanSnapshot(Plain, false, s, Snapshot);
            var t := After(s, run.puts);
            && run.res.Success?
            && ReadSnapshot(true, s, Snapshot) == ReadSnapshot(false, s, Snapshot)
            && ReadSnapshot(false, t, moved) == ReadSnapshot(false, s, Snapshot)
            && ReadSnapshot(true, t, moved) != ReadSnapshot(false, s, Snapshot)
  {
    hide Objects, PlanSnapshot, TwinFree, VersionsAgree, Finished, ReadSnapshot, Copied, After, CleanSnapshot, SnapshotEntries,
      SoundBounds, NoRowReadmitted, Leq, LiveRows, Mapping;
    var env, ver, s := Plain, Table(Truncated).ver, Objects(Truncated);
    MappingLegal();
    Stored(Truncated);
    SnapshotIsClean(Truncated);
    SnapshotSucceeds(Truncated);
    EntriesFound(Truncated);
    SnapshotCanonical(env, ver, s, Snapshot);
    var puts := PlanSnapshot(env, false, s, Snapshot).puts;
    var t := After(s, puts);
    FinishedAlone(env, ver, false, s, t, puts);
    SnapshotPreserved(env, ver, false, s, t, puts, Snapshot, 1);
    PrunedScanIff(env, ver, false, s, t, puts, Snapshot, 1);
    BoundsRead();
    RowReadmitted();
  }

  lemma RowReadmitted()
    ensures Complete(Objects(Truncated), LiveOnes(Truncated)) && !NoRowReadmitted(Mapping, Objects(Truncated), LiveOnes(Truncated))
  {
    hide Objects, IsRemoved, RemovesStill, Present;
    RowWasRemoved();
    NothingRemovesNow();
    Stored(Truncated);
    var s, es, d := Objects(Truncated), LiveOnes(Truncated), LiveEntry(DataFile, 1);
    assert es[0] == d && s["s/d"].obj.rows[0] == 70;
    assert !NoneReadmitted(Mapping, s, es, d, s["s/d"].obj.rows);
  }

  lemma BoundsRead()
    ensures ReadSnapshot(true, Objects(Truncated), Snapshot) == ReadSnapshot(false, Objects(Truncated), Snapshot)
  {
    hide Objects, SnapshotEntries, SoundBounds, LiveRows, Leq, Present;
    TruncatedSorts();
    EntriesFound(Truncated);
    BoundsAreSound(Truncated);
    PrunedEqualsUnpruned(Objects(Truncated), LiveOnes(Truncated), LiveOnes(Truncated));
  }
}
