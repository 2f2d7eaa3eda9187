/** What a run reports about itself: its counters count PUTs, and its hits show what moves. */
module Report {
  import opened Prefix
  import opened Json
  import opened Metadata
  import opened Graph
  import opened Deletes
  import opened Plan
  import opened PlanFacts
  import opened Preserve

  datatype Kind = Lists | Manifests {
    predicate Has(o: Obj) {
      match this case Lists => o.List? case Manifests => o.Manifest?
    }

    function Counter(g: Gathered): nat {
      match this case Lists => g.lists case Manifests => g.manifests
    }
  }

  /** The number of writes of one kind. */
  function Count(kind: Kind, puts: seq<Put>): nat {
    if puts == [] then 0 else (if kind.Has(puts[0].blob.obj) then 1 else 0) + Count(kind, puts[1..])
  }

  lemma {:induction false} CountConcat(kind: Kind, a: seq<Put>, b: seq<Put>)
    ensures Count(kind, a + b) == Count(kind, a) + Count(kind, b)
  {
    if a == [] {
      assert a + b == b;
    } else {
      assert (a + b)[1..] == a[1..] + b;
      CountConcat(kind, a[1..], b);
    }
  }

  /** The counter agrees with the writes. */
  ghost predicate Tallied(kind: Kind, r: Run<Gathered>) {
    r.res.Success? ==> kind.Counter(r.res.value) == Count(kind, r.puts)
  }

  lemma {:induction false} LoopTallied<X(!new)>(kind: Kind, step: (Store, X) -> Run<Gathered>, s: Store, xs: seq<X>)
    requires forall t: Store, x | x in xs :: Tallied(kind, step(t, x))
    ensures Tallied(kind, PlanLoop(step, s, xs))
    decreases |xs|
  {
    if xs != [] {
      var r := step(s, xs[0]);
      assert xs[0] in xs && forall x | x in xs[1..] :: x in xs;
      assert Tallied(kind, r);
      LoopTallied(kind, step, After(s, r.puts), xs[1..]);
      CountConcat(kind, r.puts, PlanLoop(step, After(s, r.puts), xs[1..]).puts);
    }
  }

  lemma {:induction false} LoopWithout<X(!new)>(kind: Kind, step: (Store, X) -> Run<Gathered>, s: Store, xs: seq<X>)
    requires forall t: Store, x | x in xs :: Count(kind, step(t, x).puts) == 0
    ensures Count(kind, PlanLoop(step, s, xs).puts) == 0
    decreases |xs|
  {
    if xs != [] {
      var r := step(s, xs[0]);
      assert xs[0] in xs && forall x | x in xs[1..] :: x in xs;
      LoopWithout(kind, step, After(s, r.puts), xs[1..]);
      CountConcat(kind, r.puts, PlanLoop(step, After(s, r.puts), xs[1..]).puts);
    }
  }

  lemma OnePut(kind: Kind, p: Put)
    ensures Count(kind, [p]) == if kind.Has(p.blob.obj) then 1 else 0
  {
    assert [p][1..] == [];
  }

  /** The entry loop writes bodies only. */
  lemma EntriesWithout(kind: Kind, env: Env, s: Store, manifest: Uri, entries: seq<Entry>)
    ensures Count(kind, PlanLoop(EntryStep(env, manifest), s, entries).puts) == 0
  {
    var step := EntryStep(env, manifest);
    forall t: Store, e | e in entries ensures Count(kind, step(t, e).puts) == 0 {
      hide ConvertBody, IsPuffin;
      var puts := PlanEntry(env, manifest, t, e).puts;
      if puts != [] {
        OnePut(kind, puts[0]);
      }
    }
    LoopWithout(kind, step, s, entries);
  }

  lemma FileTallied(kind: Kind, env: Env, dry: bool, s: Store, mf: ManifestFile)
    requires env.m.Legal()
    ensures Tallied(kind, PlanFile(env, dry, s, mf))
    ensures kind.Lists? ==> Count(kind, PlanFile(env, dry, s, mf).puts) == 0
  {
    FileTargetOnly(env, dry, s, mf);
    hide PlanWalkManifest, PlanLoop, Summarize;
    if dry {
      WalkCounts(kind, env, s, mf);
    } else if mf.path in s && s[mf.path].obj.Manifest? {
      var entries := s[mf.path].obj.entries;
      var loop := PlanLoop(EntryStep(env, mf.path), s, entries);
      EntriesWithout(kind, env, s, mf.path, entries);
      ApplyUnapply(env.m, mf.path);
      var puts := PlanManifest(env, s, mf).puts;
      if |puts| > |loop.puts| {
        var p := puts[|loop.puts|];
        CountConcat(kind, loop.puts, [p]);
        OnePut(kind, p);
        assert puts == loop.puts + [p];
      } else {
        assert puts == loop.puts || puts == [];
      }
    }
  }

  /** A dry walk counts nothing. */
  lemma WalkCounts(kind: Kind, env: Env, s: Store, mf: ManifestFile)
    ensures Tallied(kind, PlanWalkManifest(env, s, mf))
  {
    hide WalkStored, IsPuffin;
    if mf.path in s && s[mf.path].obj.Manifest? {
      LoopTallied(kind, WalkStep(env, mf.path), s, s[mf.path].obj.entries);
    }
  }

  lemma ListTallied(kind: Kind, env: Env, dry: bool, s: Store, uri: Uri)
    requires env.m.Legal()
    ensures Tallied(kind, PlanList(env, dry, s, uri))
  {
    if uri in s && s[uri].obj.List? {
      var step, files := FileStep(env, dry), s[uri].obj.files;
      forall t: Store, f | f in files
        ensures Tallied(kind, step(t, f)) && (kind.Lists? ==> Count(kind, step(t, f).puts) == 0)
      {
        FileTallied(kind, env, dry, t, f);
      }
      LoopTallied(kind, step, s, files);
      if kind.Lists? {
        LoopWithout(kind, step, s, files);
      }
      hide PlanLoop, PlanFile;
      var loop, plan := PlanLoop(step, s, files), PlanList(env, dry, s, uri);
      if |plan.puts| > |loop.puts| {
        var p := plan.puts[|loop.puts|];
        CountConcat(kind, loop.puts, [p]);
        OnePut(kind, p);
        assert plan.puts == loop.puts + [p];
      } else {
        assert plan.puts == loop.puts;
      }
    }
  }

  lemma FlatTallied(kind: Kind, env: Env, dry: bool, id: int, s: Store, uris: seq<Uri>)
    requires env.m.Legal()
    ensures Tallied(kind, PlanLoop(FlatStep(env, dry, id), s, uris))
  {
    var step := FlatStep(env, dry, id);
    forall t: Store, u | u in uris ensures Tallied(kind, step(t, u)) {
      hide PlanFile;
      if u in t {
        FileTallied(kind, env, dry, t, V1Descriptor(u, t[u].size, id));
      }
    }
    LoopTallied(kind, step, s, uris);
  }

  lemma SnapshotTallied(kind: Kind, env: Env, dry: bool, s: Store, snap: SnapshotJSON)
    requires env.m.Legal()
    ensures Tallied(kind, PlanSnapshot(env, dry, s, snap))
  {
    hide PlanList, PlanLoop;
    ListTallied(kind, env, dry, s, snap.manifestList);
    var a := ListPart(env, dry, s, snap);
    var b := PlanLoop(FlatStep(env, dry, snap.id), After(s, a.puts), snap.manifests);
    FlatTallied(kind, env, dry, snap.id, After(s, a.puts), snap.manifests);
    CountConcat(kind, a.puts, b.puts);
  }

  lemma TableTallied(kind: Kind, env: Env, opts: Options, s: Store, loc: Uri)
    requires env.m.Legal() && PlanTable(env, opts, s, loc).res.Success?
    ensures var run := PlanTable(env, opts, s, loc);
            Count(kind, run.puts) == match kind case Lists => run.res.value.lists case Manifests => run.res.value.manifests
  {
    hide PlanSnapshot, PlanLoop, WalkHits, Selected, Parse, RelocateDoc, WrittenDoc;
    var step, snaps := SnapshotStep(env, opts.dry), Selected(LoadMeta(s, loc).value, opts.currentOnly);
    forall t: Store, snap | snap in snaps ensures Tallied(kind, step(t, snap)) {
      SnapshotTallied(kind, env, opts.dry, t, snap);
    }
    LoopTallied(kind, step, s, snaps);
    if !opts.dry {
      var walk := PlanLoop(step, s, snaps);
      var w := PlanMeta(env, After(s, walk.puts), loc);
      CountConcat(kind, walk.puts, w.puts);
      if w.puts != [] {
        OnePut(kind, w.puts[0]);
      }
    }
  }

  /** The counters of a successful run are the numbers of manifest lists and of manifests it PUT. */
  lemma CountersCountPuts(env: Env, opts: Options, s: Store, loc: Uri)
    requires env.m.Legal() && PlanTable(env, opts, s, loc).res.Success?
    ensures var run := PlanTable(env, opts, s, loc);
            && run.res.value.lists == Count(Lists, run.puts)
            && run.res.value.manifests == Count(Manifests, run.puts)
  {
    TableTallied(Lists, env, opts, s, loc);
    TableTallied(Manifests, env, opts, s, loc);
  }

  // Hits.

  predicate Reported(hits: seq<PathHit>) {
    exists h | h in hits :: h.Rewritten()
  }

  lemma ReportedConcat(a: seq<PathHit>, b: seq<PathHit>)
    ensures Reported(a + b) <==> Reported(a) || Reported(b)
  {
    assert forall h | h in a || h in b :: h in a + b;
  }

  lemma EntryReported(env: Env, s: Store, manifest: Uri, e: Entry)
    requires env.m.Legal() && PlanEntry(env, manifest, s, e).res.Success?
    ensures PlanEntry(env, manifest, s, e).res.value.changed <==> Reported(PlanEntry(env, manifest, s, e).res.value.hits)
  {
    RewrittenIffTouched(env, s, manifest, e);
    var f, hits := e.file, EntryHits(env.m, manifest, e.file);
    assert PlanEntry(env, manifest, s, e).res.value.hits == hits;
    hide PlanEntry, RewrittenFile;
    ApplyUnapply(env.m, f.path);
    assert hits[0].Rewritten() <==> env.m.Matches(f.path);
    if f.ref.Some? && f.ref.value != "" {
      ApplyUnapply(env.m, f.ref.value);
      assert hits[1].Rewritten() <==> env.m.Matches(f.ref.value);
    }
  }

  lemma {:induction false} EntriesReported(env: Env, s: Store, manifest: Uri, entries: seq<Entry>)
    requires env.m.Legal() && PlanLoop(EntryStep(env, manifest), s, entries).res.Success?
    ensures var g := PlanLoop(EntryStep(env, manifest), s, entries).res.value; g.changed <==> Reported(g.hits)
    decreases |entries|
  {
    if entries != [] {
      hide PlanEntry, Reported;
      var r := EntryStep(env, manifest)(s, entries[0]);
      assert r == PlanEntry(env, manifest, s, entries[0]);
      EntryReported(env, s, manifest, entries[0]);
      EntriesReported(env, After(s, r.puts), manifest, entries[1..]);
      ReportedConcat(r.res.value.hits, PlanLoop(EntryStep(env, manifest), After(s, r.puts), entries[1..]).res.value.hits);
    } else {
      assert !Reported([]);
    }
  }

  /** A manifest moves exactly when one of its hits shows a changed URI, so the report misses no rewrite and invents none. */
  lemma MovedIffReported(env: Env, s: Store, mf: ManifestFile)
    requires env.m.Legal() && PlanManifest(env, s, mf).res.Success?
    ensures var out := PlanManifest(env, s, mf).res.value;
            && (out.file.path != mf.path <==> Reported(out.hits))
            && (out.file != mf <==> Reported(out.hits))
  {
    hide PlanLoop, Reported, Summarize;
    EntriesReported(env, s, mf.path, s[mf.path].obj.entries);
    ApplyUnapply(env.m, mf.path);
  }
}
