/** What the trip through float64 does to the numbers of a metadata document. */
module Numbers {
  import opened Wrappers
  import opened Prefix
  import opened Float53
  import opened Json
  import opened Metadata
  import opened Plan
  import opened PlanFacts
  import opened Preserve
  import opened Swap
  import opened Migrate

  /** Every number of the tree has property p. */
  ghost predicate Numbers(p: int -> bool, j: Json) {
    match j
    case JNum(n) => p(n)
    case JArr(xs) => forall i | 0 <= i < |xs| :: Numbers(p, xs[i])
    case JObj(f) => forall k | k in f :: Numbers(p, f[k])
    case _ => true
  }

  function Within53(): int -> bool {
    n => -TwoTo53 <= n <= TwoTo53
  }

  function KeptBy(num: int -> int): int -> bool {
    n => num(n) == n
  }

  /** A tree is unchanged exactly when the trip keeps every number in it. */
  lemma {:induction false} UnchangedIff(num: int -> int, j: Json)
    ensures Renumber(num, j) == j <==> Numbers(KeptBy(num), j)
  {
    match j
    case JArr(xs) =>
      forall i | 0 <= i < |xs| ensures Renumber(num, xs[i]) == xs[i] <==> Numbers(KeptBy(num), xs[i]) {
        UnchangedIff(num, xs[i]);
      }
      assert (forall i | 0 <= i < |xs| :: Renumber(num, xs[i]) == xs[i]) <==> Renumber(num, j).items == xs;
    case JObj(f) =>
      forall k | k in f ensures Renumber(num, f[k]) == f[k] <==> Numbers(KeptBy(num), f[k]) {
        UnchangedIff(num, f[k]);
      }
      assert (forall k | k in f :: Renumber(num, f[k]) == f[k]) <==> Renumber(num, j).fields == f;
    case _ =>
  }

  lemma {:induction false} NumbersWeaken(p: int -> bool, q: int -> bool, j: Json)
    requires Numbers(p, j) && forall n :: p(n) ==> q(n)
    ensures Numbers(q, j)
  {
    match j
    case JArr(xs) =>
      forall i | 0 <= i < |xs| ensures Numbers(q, xs[i]) {
        NumbersWeaken(p, q, xs[i]);
      }
    case JObj(f) =>
      forall k | k in f ensures Numbers(q, f[k]) {
        NumbersWeaken(p, q, f[k]);
      }
    case _ =>
  }

  /** Moving URIs moves no numbers. */
  lemma {:induction false} RelocatedNumbers(p: int -> bool, m: PrefixMapping, spot: Spot, j: Json)
    requires Numbers(p, j)
    ensures Numbers(p, Relocate(m, spot, j))
    decreases j
  {
    hide Down;
    match j
    case JArr(xs) =>
      forall i | 0 <= i < |xs| ensures Numbers(p, Relocate(m, Down(spot, Index(i)), xs[i])) {
        RelocatedNumbers(p, m, Down(spot, Index(i)), xs[i]);
      }
    case JObj(f) =>
      forall k | k in f ensures Numbers(p, Relocate(m, Down(spot, Key(k)), f[k])) {
        RelocatedNumbers(p, m, Down(spot, Key(k)), f[k]);
      }
    case _ =>
  }

  lemma WithinIsKept(num: int -> int)
    requires FloatTrip(num)
    ensures forall n :: Within53()(n) ==> KeptBy(num)(n)
    ensures num(0) == 0
  {
    hide FloatTrip;
    forall n | Within53()(n) ensures KeptBy(num)(n) {
      TripExactBelow(num, n);
    }
    TripExactBelow(num, 0);
  }

  /** A document whose integers are of magnitude at most 2^53 is written with its URIs moved and nothing else changed. */
  lemma SmallNumbersKept(m: PrefixMapping, num: int -> int, doc: Doc)
    requires FloatTrip(num) && Numbers(Within53(), JObj(doc))
    ensures WrittenDoc(m, num, doc) == RelocateDoc(m, doc)
  {
    WithinIsKept(num);
    hide FloatTrip, Down;
    var moved := Relocate(m, Root, JObj(doc));
    NumbersWeaken(Within53(), KeptBy(num), JObj(doc));
    RelocatedNumbers(KeptBy(num), m, Root, JObj(doc));
    UnchangedIff(num, moved);
    assert JObj(RelocateDoc(m, doc)) == moved;
  }

  function Same(): int -> int {
    n => n
  }

  lemma {:induction false} SameKeepsAll(j: Json)
    ensures Numbers(KeptBy(Same()), j)
  {
    match j
    case JArr(xs) =>
      forall i | 0 <= i < |xs| ensures Numbers(KeptBy(Same()), xs[i]) {
        SameKeepsAll(xs[i]);
      }
    case JObj(f) =>
      forall k | k in f ensures Numbers(KeptBy(Same()), f[k]) {
        SameKeepsAll(f[k]);
      }
    case _ =>
  }

  /** So every integer field of the parsed document survives: the trip might as well be the identity. */
  lemma SmallFieldsKept(m: PrefixMapping, num: int -> int, doc: Doc, meta: MetadataJSON)
    requires m.Legal() && FloatTrip(num) && Numbers(Within53(), JObj(doc)) && Parse(doc) == Some(meta)
    ensures Moved(m, num, meta) == Moved(m, Same(), meta)
  {
    WithinIsKept(num);
    SmallNumbersKept(m, num, doc);
    var moved := Relocate(m, Root, JObj(doc));
    SameKeepsAll(moved);
    UnchangedIff(Same(), moved);
    assert JObj(RelocateDoc(m, doc)) == moved;
    assert WrittenDoc(m, Same(), doc) == RelocateDoc(m, doc);
    hide FloatTrip, Parse, Moved, WrittenDoc, RelocateDoc, Relocate;
    ParseCommutes(m, num, doc);
    ParseCommutes(m, Same(), doc);
  }

  /** The ids of all snapshots, and of the current one, are the same. */
  ghost predicate SameIds(a: MetadataJSON, b: MetadataJSON) {
    && |a.snapshots| == |b.snapshots| && a.currentSnapshotId == b.currentSnapshotId
    && forall i | 0 <= i < |a.snapshots| :: a.snapshots[i].id == b.snapshots[i].id
  }

  /** Snapshot ids survive, so the current snapshot is not confused with another. */
  lemma SmallIdsKept(m: PrefixMapping, num: int -> int, doc: Doc, meta: MetadataJSON)
    requires m.Legal() && FloatTrip(num) && Numbers(Within53(), JObj(doc)) && Parse(doc) == Some(meta)
    ensures SameIds(Moved(m, num, meta), meta)
    ensures num(0) == 0 && CurrentKept(num, meta)
  {
    WithinIsKept(num);
    SmallFieldsKept(m, num, doc, meta);
    hide FloatTrip, Parse;
    var a, b := Moved(m, num, meta), Moved(m, Same(), meta);
    forall i | 0 <= i < |meta.snapshots| ensures num(meta.snapshots[i].id) == meta.snapshots[i].id {
      assert a.snapshots[i] == b.snapshots[i];
      assert a.snapshots[i].id == num(meta.snapshots[i].id) && b.snapshots[i].id == meta.snapshots[i].id;
    }
    if meta.currentSnapshotId.Some? {
      assert a.currentSnapshotId == Some(num(meta.currentSnapshotId.value));
      assert b.currentSnapshotId == Some(meta.currentSnapshotId.value);
    }
  }

  /** At every moment of every run the table has, besides the same rows, the snapshot ids it had. */
  lemma WholeRunKeepsIds(x: Setup, trace: seq<Machine>, i: nat)
    requires Sound(x) && IsRun(x, trace) && i < |trace|
    requires FloatTrip(x.env.num) && x.loc in x.s0 && x.s0[x.loc].obj.Meta? && Numbers(Within53(), JObj(x.s0[x.loc].obj.doc))
    ensures var p := PointerOf(trace[i].st, x.id);
            p.Some? ==>
              && LoadMeta(trace[i].store, p.value).Success?
              && SameIds(LoadMeta(trace[i].store, p.value).value, LoadMeta(x.s0, x.loc).value)
  {
    WholeRunSafe(x, trace, i);
    IdsKept(x, trace[i]);
    hide Sound, Invariant, Safe, SameIds, FloatTrip;
  }

  lemma IdsKept(x: Setup, a: Machine)
    requires Sound(x) && Invariant(x, a) && FloatTrip(x.env.num)
    requires x.loc in x.s0 && x.s0[x.loc].obj.Meta? && Numbers(Within53(), JObj(x.s0[x.loc].obj.doc))
    ensures var p := PointerOf(a.st, x.id);
            p.Some? ==>
              && LoadMeta(a.store, p.value).Success?
              && SameIds(LoadMeta(a.store, p.value).value, LoadMeta(x.s0, x.loc).value)
  {
    SamePlan(x, a.store);
    MetaInsensitive(x.env, x.s0, a.store, x.loc);
    var meta := LoadMeta(x.s0, x.loc).value;
    SmallIdsKept(x.env.m, x.env.num, x.s0[x.loc].obj.doc, meta);
    var p := PointerOf(a.st, x.id);
    if p.Some? && p != Some(x.loc) {
      FinishedHere(x, a.store);
      NewMetadata(x.env, x.ver, x.opts, false, x.s0, a.store, x.loc);
    }
    hide Planned, PlanTable, Preservable, CurrentKept, Contained, Finished, FloatTrip, Moved, Parse, Numbers;
  }

  /** Beyond 2^53 the current snapshot can turn into another: here the second of two becomes the first. */
  lemma CurrentChanges(m: PrefixMapping, num: int -> int, a: Uri, b: Uri)
    requires FloatTrip(num)
    ensures var snaps := [SnapshotJSON(TwoTo53, a, []), SnapshotJSON(TwoTo53 + 1, b, [])];
            var meta := MetadataJSON(2, "", "", Some(TwoTo53 + 1), snaps, [], [], [], map[]);
            CurrentIndex(meta) == Some(1) && CurrentIndex(Moved(m, num, meta)) == Some(0)
  {
    TripTight(num);
    hide FloatTrip;
    var snaps := [SnapshotJSON(TwoTo53, a, []), SnapshotJSON(TwoTo53 + 1, b, [])];
    assert snaps[1..][0] == snaps[1];
    assert FirstWithId(snaps[1..], TwoTo53 + 1) == Some(0);
    var moved := Moved(m, num, MetadataJSON(2, "", "", Some(TwoTo53 + 1), snaps, [], [], [], map[]));
    assert moved.snapshots[0].id == num(TwoTo53);
  }
}
