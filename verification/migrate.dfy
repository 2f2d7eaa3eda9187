/** cmd/bergrb/main.go migrateOne: rewriting and swapping composed, over any number of crashes and re-runs. */
module Migrate {
  import opened Wrappers
  import opened Prefix
  import opened Metadata
  import opened Graph
  import opened Deletes
  import opened Plan
  import opened PlanFacts
  import opened Closure
  import opened Scan
  import opened Preserve
  import opened Swap

  // Reading the old table is not disturbed by writes under the target.

  lemma ManifestFrame(m: PrefixMapping, s: Store, r: Store, f: ManifestFile)
    requires AgreeOffTwins(m, s, r) && !Twin(m, s, f.path)
    ensures ManifestEntries(r, f) == ManifestEntries(s, f)
  {
    hide Live;
  }

  lemma {:induction false} ListFrame(m: PrefixMapping, s: Store, r: Store, files: seq<ManifestFile>)
    requires AgreeOffTwins(m, s, r) && TwinFreeFiles(m, s, files)
    ensures ListEntries(r, files) == ListEntries(s, files)
    decreases |files|
  {
    if files != [] {
      hide ManifestEntries;
      assert files[0] in files && forall f | f in files[1..] :: f in files;
      ManifestFrame(m, s, r, files[0]);
      ListFrame(m, s, r, files[1..]);
    }
  }

  lemma {:induction false} FlatFrame(m: PrefixMapping, s: Store, r: Store, uris: seq<Uri>)
    requires AgreeOffTwins(m, s, r) && forall u | u in uris :: !Twin(m, s, u)
    ensures FlatEntries(r, uris) == FlatEntries(s, uris)
    decreases |uris|
  {
    if uris != [] {
      hide ManifestEntries;
      assert uris[0] in uris && forall u | u in uris[1..] :: u in uris;
      if uris[0] in s {
        ManifestFrame(m, s, r, V1Descriptor(uris[0], s[uris[0]].size, 0));
      }
      FlatFrame(m, s, r, uris[1..]);
    }
  }

  lemma EntriesFrame(m: PrefixMapping, s: Store, r: Store, snap: SnapshotJSON)
    requires AgreeOffTwins(m, s, r) && TwinFree(m, s, snap)
    ensures SnapshotEntries(r, snap) == SnapshotEntries(s, snap)
  {
    hide ListEntries, FlatEntries, TwinFreeFiles;
    if snap.manifestList in s && s[snap.manifestList].obj.List? {
      ListFrame(m, s, r, s[snap.manifestList].obj.files);
    }
    FlatFrame(m, s, r, snap.manifests);
  }

  /** The files of these entries are the same objects in both stores. */
  ghost predicate SameFiles(s: Store, r: Store, es: seq<LiveEntry>) {
    forall e | e in es :: e.file.path in s && e.file.path in r && r[e.file.path] == s[e.file.path]
  }

  lemma LiveRowsFrame(s: Store, r: Store, es: seq<LiveEntry>)
    requires SameFiles(s, r, es) && Complete(s, es) && Complete(r, es)
    ensures LiveRows(false, r, es, es) == LiveRows(false, s, es, es)
  {
    hide LiveRows;
    forall d, k: nat, row ensures IsRemoved(false, r, es, d, k, row) <==> IsRemoved(false, s, es, d, k, row) {
      assert forall e | e in es :: Removes(false, r, e, d, k, row) <==> Removes(false, s, e, d, k, row);
    }
    hide Removes, IsRemoved;
    forall i | 0 <= i < |es| ensures SameBody(s, es[i], r, es[i]) {
      assert es[i] in es;
    }
    LiveRowsSameIff(View(false, s, es), es, View(false, r, es), es);
  }

  lemma SnapshotFrame(m: PrefixMapping, s: Store, r: Store, snap: SnapshotJSON)
    requires AgreeOffTwins(m, s, r) && CleanSnapshot(m, s, snap)
    ensures ReadSnapshot(false, s, snap).Some?
    ensures ReadSnapshot(false, r, snap) == ReadSnapshot(false, s, snap)
  {
    hide SnapshotEntries, TwinFree, LiveRows, Settled, FilePaths, Positions;
    EntriesFrame(m, s, r, snap);
    var es := SnapshotEntries(s, snap).value;
    forall e | e in es
      ensures Present(s, e.file) && Present(r, e.file) && r[e.file.path] == s[e.file.path]
    {
      assert !Twin(m, s, e.file.path);
    }
    LiveRowsFrame(s, r, es);
  }

  // What it means that a location reads as the original table.

  /** From loc' in r, the table reads as from loc in s: the same current snapshot, and the same live rows in every
      selected snapshot, with nothing missing. */
  ghost predicate ReadsAs(opts: Options, r: Store, loc': Uri, s: Store, loc: Uri) {
    && LoadMeta(s, loc).Success? && LoadMeta(r, loc').Success?
    && var before, after := LoadMeta(s, loc).value, LoadMeta(r, loc').value;
    && |after.snapshots| == |before.snapshots|
    && CurrentIndex(after) == CurrentIndex(before)
    && forall i: nat | IsSelected(before, opts.currentOnly, i) ::
         && ReadSnapshot(false, s, before.snapshots[i]).Some?
         && ReadSnapshot(false, r, after.snapshots[i]) == ReadSnapshot(false, s, before.snapshots[i])
  }

  /** The current snapshot id is not confused with that of an earlier snapshot by the trip through float64. */
  ghost predicate CurrentKept(num: int -> int, meta: MetadataJSON) {
    meta.currentSnapshotId.Some? ==>
      var before := if CurrentIndex(meta).Some? then CurrentIndex(meta).value else |meta.snapshots|;
      forall j | 0 <= j < before :: num(meta.snapshots[j].id) != num(meta.currentSnapshotId.value)
  }

  /** The table to migrate: its original store and location. */
  datatype Setup = Setup(env: Env, ver: Versions, opts: Options, s0: Store, id: Identifier, loc: Uri)

  function Planned(x: Setup): Run<RewriteResult> {
    PlanTable(x.env, x.opts, x.s0, x.loc)
  }

  ghost predicate Sound(x: Setup) {
    && Preservable(x.env, x.ver, x.opts, x.s0, x.loc)
    && x.env.m.Matches(x.loc)
    && LoadMeta(x.s0, x.loc).Success? && CurrentKept(x.env.num, LoadMeta(x.s0, x.loc).value)
  }

  lemma OldReads(x: Setup, r: Store)
    requires Sound(x) && AgreeOffTwins(x.env.m, x.s0, r)
    ensures ReadsAs(x.opts, r, x.loc, x.s0, x.loc)
  {
    hide Orderly, CleanSnapshot, ReadSnapshot, Copied, Parse, CurrentKept;
    MetaInsensitive(x.env, x.s0, r, x.loc);
    var meta := LoadMeta(x.s0, x.loc).value;
    forall i: nat | IsSelected(meta, x.opts.currentOnly, i)
      ensures ReadSnapshot(false, x.s0, meta.snapshots[i]).Some?
      ensures ReadSnapshot(false, r, meta.snapshots[i]) == ReadSnapshot(false, x.s0, meta.snapshots[i])
    {
      SelectedMember(meta, x.opts.currentOnly, i);
      SnapshotFrame(x.env.m, x.s0, r, meta.snapshots[i]);
    }
  }

  /** Every store that holds what the run wrote, read or copied reads, from the new location, as the original table. */
  lemma NewReads(x: Setup, r: Store)
    requires Sound(x) && Planned(x).res.Success? && MetaMoves(x.env.m, x.s0, x.loc)
    requires Finished(x.env, x.ver, false, x.s0, r, Planned(x).puts)
    ensures ReadsAs(x.opts, r, Planned(x).res.value.newLoc, x.s0, x.loc)
  {
    hide PlanTable, Preservable, ReadSnapshot, Parse, Moved, MetaMoves, Finished;
    NewMetadata(x.env, x.ver, x.opts, false, x.s0, r, x.loc);
    var meta := LoadMeta(x.s0, x.loc).value;
    CurrentMoved(x.env.m, x.env.num, meta);
    forall i: nat | IsSelected(meta, x.opts.currentOnly, i)
      ensures ReadSnapshot(false, x.s0, meta.snapshots[i]).Some?
      ensures var after := LoadMeta(r, Planned(x).res.value.newLoc).value;
              && |after.snapshots| == |meta.snapshots|
              && ReadSnapshot(false, r, after.snapshots[i]) == ReadSnapshot(false, x.s0, meta.snapshots[i])
    {
      ScanPreservedIn(x.env, x.ver, x.opts, false, x.s0, r, x.loc, i);
    }
    SameCount(x.env.m, x.env.num, meta);
  }

  lemma SameCount(m: PrefixMapping, num: int -> int, meta: MetadataJSON)
    ensures |Moved(m, num, meta).snapshots| == |meta.snapshots|
  {
  }

  lemma CurrentMoved(m: PrefixMapping, num: int -> int, meta: MetadataJSON)
    requires CurrentKept(num, meta)
    ensures CurrentIndex(Moved(m, num, meta)) == CurrentIndex(meta)
  {
    if meta.currentSnapshotId.Some? {
      CurrentPreservedIff(m, num, meta);
    }
  }

  // The machine.

  /** Where a migration process stands. */
  datatype Phase =
    | Idle                                            // no process, or one that has stopped
    | Rewriting(base: Store, k: nat)                  // k writes done of the plan made on base
    | Swapping(start: State, q: Request, i: nat)      // i catalog calls done

  /** dropped tells whether a drop was issued that no overwrite, register or rollback accepted since has made good. */
  datatype Machine = Machine(phase: Phase, store: Store, st: State, dropped: bool)

  /** One step: a process starts, makes a PUT or a catalog call, or stops for whatever reason, possibly in the middle of
      a PUT that leaves anything behind; a new process knows no swap mode. Or another table is worked on. */
  ghost predicate Next(x: Setup, a: Machine, b: Machine) {
    || Begins(x, a, b)
    || Writes(x, a, b)
    || Spoils(x, a, b)
    || Stops(a, b)
    || StartsSwap(x, a, b)
    || Calls(a, b)
    || Others(x, a, b)
  }

  ghost predicate Begins(x: Setup, a: Machine, b: Machine) {
    && a.phase.Idle? && PointerOf(a.st, x.id) == Some(x.loc) && !x.env.m.UnderTarget(x.loc)
    && b == a.(phase := Rewriting(a.store, 0), st := a.st.(mode := b.st.mode))
  }

  function PlanOn(x: Setup, base: Store): Run<RewriteResult> {
    PlanTable(x.env, x.opts, base, x.loc)
  }

  ghost predicate Writes(x: Setup, a: Machine, b: Machine) {
    && a.phase.Rewriting? && a.phase.k < |PlanOn(x, a.phase.base).puts|
    && var p := PlanOn(x, a.phase.base).puts[a.phase.k];
       b == a.(phase := Rewriting(a.phase.base, a.phase.k + 1), store := a.store[p.uri := p.blob])
  }

  ghost predicate Spoils(x: Setup, a: Machine, b: Machine) {
    && a.phase.Rewriting? && a.phase.k < |PlanOn(x, a.phase.base).puts|
    && var u := PlanOn(x, a.phase.base).puts[a.phase.k].uri;
       u in b.store && b == a.(phase := Idle, store := a.store[u := b.store[u]])
  }

  ghost predicate Stops(a: Machine, b: Machine) {
    b == a.(phase := Idle)
  }

  ghost predicate StartsSwap(x: Setup, a: Machine, b: Machine) {
    && a.phase.Rewriting? && !x.opts.dry
    && var plan := PlanOn(x, a.phase.base);
    && a.phase.k == |plan.puts| && plan.res.Success?
    && b.phase.Swapping? && b.phase.i == 0 && b.phase.start == a.st
    && b.phase.q.id == x.id && b.phase.q.oldLoc == x.loc && b.phase.q.newLoc == plan.res.value.newLoc
    && b == a.(phase := b.phase)
  }

  ghost predicate Calls(a: Machine, b: Machine) {
    && a.phase.Swapping?
    && var events := SwapOutcome(a.phase.start, a.phase.q).events;
    && a.phase.i < |events|
    && var e := events[a.phase.i];
       b == a.(phase := a.phase.(i := a.phase.i + 1), st := e.after, dropped := Opens(a.dropped, e))
  }

  /** A URI where a run of some table may PUT: the mapped URI of an original object that needs a rewrite. */
  ghost predicate Rewritable(x: Setup, u: Uri) {
    && x.env.m.UnderTarget(u)
    && x.env.m.Unapply(u) in x.s0
    && Rewritten(x.env, x.ver, x.s0, x.env.m.Unapply(u)).Some?
  }

  ghost predicate SameAt(s: Store, t: Store, u: Uri) {
    (u in t <==> u in s) && (u in s ==> t[u] == s[u])
  }

  /** From s to t, work on other tables left anything at rewritable URIs, damage included, but at the URIs of this
      table's own run at most what that run itself puts there. */
  ghost predicate Spared(x: Setup, s: Store, t: Store) {
    forall u | !SameAt(s, t, u) ::
      && Rewritable(x, u) && u in t
      && forall p | p in Planned(x).puts && p.uri == u :: t[u] == p.blob
  }

  /** Other tables are migrated, by this process between its tables or by another one at any time; the catalog is left
      alone while this table is being swapped. */
  ghost predicate Others(x: Setup, a: Machine, b: Machine) {
    && Spared(x, a.store, b.store)
    && PointerOf(b.st, x.id) == PointerOf(a.st, x.id)
    && (a.phase.Swapping? ==> b.st == a.st)
    && b == a.(store := b.store, st := b.st)
  }

  /** The safety property: the pointer is the old or the new location and leads to a complete graph that reads as the
      original table, or it is absent after a drop whose register and rollback have not succeeded. */
  ghost predicate Safe(x: Setup, a: Machine) {
    match PointerOf(a.st, x.id)
    case None => a.dropped
    case Some(p) => (p == x.loc || (Planned(x).res.Success? && p == Planned(x).res.value.newLoc)) && ReadsAs(x.opts, a.store, p, x.s0, x.loc)
  }

  // The inductive invariant.

  /** The store equals the original wherever no run may PUT. */
  ghost predicate Contained(x: Setup, s: Store) {
    forall u | !Rewritable(x, u) :: SameAt(x.s0, s, u)
  }

  ghost predicate FullyWritten(x: Setup, s: Store) {
    Held(s, Planned(x).puts)
  }

  ghost predicate PointerKnown(x: Setup, a: Machine) {
    match PointerOf(a.st, x.id)
    case None => a.dropped
    case Some(p) =>
      p == x.loc || (Planned(x).res.Success? && p == Planned(x).res.value.newLoc && FullyWritten(x, a.store) && MetaMoves(x.env.m, x.s0, x.loc))
  }

  ghost predicate PhaseKnown(x: Setup, a: Machine) {
    match a.phase
    case Idle => true
    case Rewriting(base, k) =>
      && Contained(x, base) && k <= |Planned(x).puts|
      && Held(a.store, Planned(x).puts[..k]) && PointerOf(a.st, x.id) == Some(x.loc)
    case Swapping(start, q, i) =>
      && FullyWritten(x, a.store) && Planned(x).res.Success? && !x.opts.dry
      && q.id == x.id && q.oldLoc == x.loc && q.newLoc == Planned(x).res.value.newLoc
      && PointerOf(start, x.id) == Some(x.loc)
      && i <= |SwapOutcome(start, q).events| && a.st == StatesOf(start, SwapOutcome(start, q).events)[i]
      && (OpenAfter(false, SwapOutcome(start, q).events[..i]) ==> a.dropped)
  }

  ghost predicate Invariant(x: Setup, a: Machine) {
    Contained(x, a.store) && PointerKnown(x, a) && PhaseKnown(x, a)
  }

  lemma OnlyTwinsRewritable(x: Setup, u: Uri)
    requires !Twin(x.env.m, x.s0, u)
    ensures !Rewritable(x, u)
  {
    hide Rewritten;
  }

  /** A plan made on any store the machine visits is the plan made on the original. */
  lemma SamePlan(x: Setup, base: Store)
    requires Sound(x) && Contained(x, base)
    ensures PlanOn(x, base) == Planned(x)
    ensures AgreeOffTwins(x.env.m, x.s0, base)
  {
    hide PlanTable, CleanSnapshot, Copied, CurrentKept, Parse, TwinFreeTable, VersionsAgree, Rewritten;
    forall u | !Twin(x.env.m, x.s0, u) ensures (u in x.s0 <==> u in base) && (u in x.s0 ==> x.s0[u] == base[u]) {
      OnlyTwinsRewritable(x, u);
      assert SameAt(x.s0, base, u);
    }
    TableInsensitive(x.env, x.opts, x.s0, base, x.loc);
  }

  /** The run's own PUTs are at rewritable URIs, and agree with each other. */
  lemma OwnWrites(x: Setup)
    requires Sound(x)
    ensures AllCanonical(x.env, x.ver, x.s0, Planned(x).puts) && Agreeing(Planned(x).puts)
    ensures forall p | p in Planned(x).puts :: Rewritable(x, p.uri)
  {
    hide PlanTable, CleanSnapshot, Copied, CurrentKept, Parse, TwinFreeTable, VersionsAgree, Rewritten;
    TableCanonical(x.env, x.ver, x.opts, x.s0, x.loc);
    assert forall p | p in Planned(x).puts :: Canonical(x.env, x.ver, x.s0, p);
  }

  /** A contained store that holds the run's PUTs is a finished one. */
  lemma FinishedHere(x: Setup, r: Store)
    requires Sound(x) && Contained(x, r) && FullyWritten(x, r)
    ensures Finished(x.env, x.ver, false, x.s0, r, Planned(x).puts)
  {
    OwnWrites(x);
    assert x.env.m.Legal() && Copied(x.env.m, x.s0);
    hide Sound, Planned, Rewritten, Canonical;
    forall u | u in x.s0 && !Twin(x.env.m, x.s0, u) ensures u in r && r[u] == x.s0[u] {
      OnlyTwinsRewritable(x, u);
      assert SameAt(x.s0, r, u);
    }
    forall u | u in x.s0 && x.env.m.Matches(u) && Rewritten(x.env, x.ver, x.s0, u).None?
      ensures x.env.m.Apply(u) in r && r[x.env.m.Apply(u)] == x.s0[u]
    {
      ApplyUnapply(x.env.m, u);
      assert SameAt(x.s0, r, x.env.m.Apply(u));
    }
  }

  /** If nothing in the metadata document is in scope, the run keeps the old location. */
  lemma NewLocUnlessMoved(x: Setup)
    requires Sound(x) && Planned(x).res.Success? && !MetaMoves(x.env.m, x.s0, x.loc) && !x.opts.dry
    ensures Planned(x).res.value.newLoc == x.loc
  {
    assert TwinFreeTable(x.env.m, x.opts, x.s0, x.loc);
    TableParts(x.env, x.opts, x.s0, x.loc);
    hide PlanTable, PlanLoop, CleanSnapshot, Copied, CurrentKept, Parse, Orderly;
  }

  lemma InvariantStart(x: Setup, a: Machine)
    requires a.phase.Idle? && Contained(x, a.store) && PointerOf(a.st, x.id) == Some(x.loc)
    ensures Invariant(x, a)
  {
    hide PlanTable;
  }

  lemma BeginsKeeps(x: Setup, a: Machine, b: Machine)
    requires Sound(x) && Invariant(x, a) && Begins(x, a, b)
    ensures Invariant(x, b)
  {
    hide Sound, Planned, MetaMoves, Contained;
    assert Planned(x).puts[..0] == [];
  }

  lemma ContainedWrite(x: Setup, s: Store, u: Uri, blob: Blob)
    requires Contained(x, s) && Rewritable(x, u)
    ensures Contained(x, s[u := blob])
  {
    hide Rewritable;
    forall v | !Rewritable(x, v) ensures SameAt(x.s0, s[u := blob], v) {
      assert SameAt(x.s0, s, v);
    }
  }

  lemma HeldWrite(s: Store, puts: seq<Put>, k: nat)
    requires Agreeing(puts) && k < |puts| && Held(s, puts[..k])
    ensures Held(s[puts[k].uri := puts[k].blob], puts[..k + 1])
  {
    forall p | p in puts[..k + 1]
      ensures p.uri in s[puts[k].uri := puts[k].blob] && s[puts[k].uri := puts[k].blob][p.uri] == p.blob
    {
      assert p in puts && puts[k] in puts;
      assert p in puts[..k] || p == puts[k];
    }
  }

  lemma WritesKeeps(x: Setup, a: Machine, b: Machine)
    requires Sound(x) && Invariant(x, a) && Writes(x, a, b)
    ensures Invariant(x, b)
  {
    hide Sound, Planned, PlanOn, MetaMoves, Contained, Held, Rewritable;
    SamePlan(x, a.phase.base);
    OwnWrites(x);
    var puts, k := Planned(x).puts, a.phase.k;
    assert puts[k] in puts;
    ContainedWrite(x, a.store, puts[k].uri, puts[k].blob);
    HeldWrite(a.store, puts, k);
  }

  lemma SpoilsKeeps(x: Setup, a: Machine, b: Machine)
    requires Sound(x) && Invariant(x, a) && Spoils(x, a, b)
    ensures Invariant(x, b)
  {
    hide Sound, Planned, PlanOn, MetaMoves, Contained, Held, Rewritable;
    SamePlan(x, a.phase.base);
    OwnWrites(x);
    var puts, k := Planned(x).puts, a.phase.k;
    assert puts[k] in puts;
    ContainedWrite(x, a.store, puts[k].uri, b.store[puts[k].uri]);
  }

  lemma StartsSwapKeeps(x: Setup, a: Machine, b: Machine)
    requires Sound(x) && Invariant(x, a) && StartsSwap(x, a, b)
    ensures Invariant(x, b)
  {
    hide Sound, Planned, PlanOn, MetaMoves, Contained, SwapOutcome, Held;
    SamePlan(x, a.phase.base);
    assert Planned(x).puts[..|Planned(x).puts|] == Planned(x).puts;
    assert SwapOutcome(b.phase.start, b.phase.q).events[..0] == [];
  }

  lemma CallsKeeps(x: Setup, a: Machine, b: Machine)
    requires Sound(x) && Invariant(x, a) && Calls(a, b)
    ensures Invariant(x, b)
  {
    hide Sound, Planned, MetaMoves, Contained, FullyWritten, SwapOutcome, OpenAfter, UnrecoveredDrop;
    var start, q, i := a.phase.start, a.phase.q, a.phase.i;
    var events := SwapOutcome(start, q).events;
    assert b.st == StatesOf(start, events)[i + 1];
    SwapStates(start, q, i + 1);
    OpenStep(false, events, i);
    if !MetaMoves(x.env.m, x.s0, x.loc) {
      NewLocUnlessMoved(x);
    }
    if PointerOf(b.st, x.id) == None {
      AbsentOnlyAfterDrop(start, q, i + 1);
      var j: nat :| UnrecoveredDrop(events, j, i + 1);
      OpenSinceDrop(false, events, j, i + 1);
    }
  }

  lemma HeldSpared(x: Setup, s: Store, t: Store, puts: seq<Put>)
    requires Spared(x, s, t) && Held(s, puts) && forall p | p in puts :: p in Planned(x).puts
    ensures Held(t, puts)
  {
    hide Planned, Rewritable;
    forall p | p in puts ensures p.uri in t && t[p.uri] == p.blob {
      assert SameAt(s, t, p.uri) || t[p.uri] == p.blob;
    }
  }

  lemma OthersKeeps(x: Setup, a: Machine, b: Machine)
    requires Invariant(x, a) && Others(x, a, b)
    ensures Invariant(x, b)
  {
    hide Planned, MetaMoves, Rewritable, SwapOutcome, OpenAfter;
    assert Contained(x, b.store) by {
      forall u | !Rewritable(x, u) ensures SameAt(x.s0, b.store, u) {
        assert SameAt(x.s0, a.store, u) && SameAt(a.store, b.store, u);
      }
    }
    if FullyWritten(x, a.store) {
      HeldSpared(x, a.store, b.store, Planned(x).puts);
    }
    if a.phase.Rewriting? {
      assert forall p | p in Planned(x).puts[..a.phase.k] :: p in Planned(x).puts;
      HeldSpared(x, a.store, b.store, Planned(x).puts[..a.phase.k]);
    }
    hide Spared, Held, Contained;
  }

  /** Every step keeps the invariant. */
  lemma StepKeeps(x: Setup, a: Machine, b: Machine)
    requires Sound(x) && Invariant(x, a) && Next(x, a, b)
    ensures Invariant(x, b)
  {
    hide Sound, Begins, Writes, Spoils, StartsSwap, Calls, Others;
    if Begins(x, a, b) {
      BeginsKeeps(x, a, b);
    } else if Writes(x, a, b) {
      WritesKeeps(x, a, b);
    } else if Spoils(x, a, b) {
      SpoilsKeeps(x, a, b);
    } else if StartsSwap(x, a, b) {
      StartsSwapKeeps(x, a, b);
    } else if Calls(a, b) {
      CallsKeeps(x, a, b);
    } else if Others(x, a, b) {
      OthersKeeps(x, a, b);
    }
  }

  lemma InvariantSafe(x: Setup, a: Machine)
    requires Sound(x) && Invariant(x, a)
    ensures Safe(x, a)
  {
    SamePlan(x, a.store);
    var p := PointerOf(a.st, x.id);
    if p == Some(x.loc) {
      OldReads(x, a.store);
    } else if p.Some? {
      FinishedHere(x, a.store);
      NewReads(x, a.store);
    }
    hide Sound, Planned, ReadsAs, Contained, Finished;
  }

  /** A run of the machine: any interleaving of processes starting, working, dying and being started again, while other
      tables are migrated too. */
  ghost predicate IsRun(x: Setup, trace: seq<Machine>) {
    && trace != []
    && trace[0].phase.Idle? && Contained(x, trace[0].store) && PointerOf(trace[0].st, x.id) == Some(x.loc)
    && forall i | 0 <= i < |trace| - 1 :: Next(x, trace[i], trace[i + 1])
  }

  /** Whole-run readability: at every moment of every run, if the catalog has a pointer it is the old or the new location
      and the graph below it is complete and reads as the original table; it has none only after a drop whose register
      and rollback have not succeeded. */
  lemma {:induction false} WholeRunSafe(x: Setup, trace: seq<Machine>, i: nat)
    requires Sound(x) && IsRun(x, trace) && i < |trace|
    ensures Invariant(x, trace[i]) && Safe(x, trace[i])
    decreases i
  {
    hide Sound, Next, Invariant, Safe, Contained;
    if i == 0 {
      InvariantStart(x, trace[0]);
    } else {
      WholeRunSafe(x, trace, i - 1);
      StepKeeps(x, trace[i - 1], trace[i]);
    }
    InvariantSafe(x, trace[i]);
  }
}
