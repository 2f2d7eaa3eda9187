/** Applied to its own output, the manifest rewrite is a no-op. */
module SecondPass {
  import opened Prefix
  import opened Graph
  import opened Plan
  import opened PlanFacts
  import opened Preserve
  import opened SideConditions

  /** A Puffin file is one whose URI ends in the seven characters of .puffin, each in either case. */
  lemma PuffinBySuffix(p: Uri)
    ensures IsPuffin(p) <==>
            |p| >= 7 && forall i | 0 <= i < 7 :: p[|p| - 7 + i] == ".puffin"[i] || p[|p| - 7 + i] == ".PUFFIN"[i]
    ensures IsPuffin("x/dv.PUFFIN") && !IsPuffin("x/d.parquet")
  {
    assert forall i | 0 <= i < 7 :: Lower(".puffin"[i]) == PuffinExt[i] == Lower(".PUFFIN"[i]);
    if |p| >= 7 {
      forall i | 0 <= i < 7
        ensures Lower(p[|p| - 7 + i]) == PuffinExt[i] <==> p[|p| - 7 + i] == ".puffin"[i] || p[|p| - 7 + i] == ".PUFFIN"[i]
      {
      }
    }
    assert |"x/d.parquet"| - 7 + 0 == 4 && "x/d.parquet"[4] == 'p' && PuffinExt[0] == '.';
    assert Lower("x/d.parquet"[|"x/d.parquet"| - |PuffinExt| + 0]) != PuffinExt[0];
  }

  /** Exchanging one directory prefix for another does not change whether a URI ends in .puffin: the extension has no
      slash, so it cannot reach back into the prefix. */
  lemma PuffinKept(m: PrefixMapping, p: Uri)
    requires m.Legal()
    ensures IsPuffin(m.Apply(p)) <==> IsPuffin(p)
  {
    if m.Matches(p) {
      var n := |p| - |m.source|;
      var q := m.Apply(p);
      assert p[|m.source| - 1] == '/' && q[|m.target| - 1] == '/';
      if n < |PuffinExt| {
        SlashNoPuffin(p, |m.source| - 1);
        SlashNoPuffin(q, |m.target| - 1);
      } else {
        var a, b := p[|p| - |PuffinExt|..], q[|q| - |PuffinExt|..];
        assert a == p[|m.source|..][n - |PuffinExt|..] == b;
        assert forall i | 0 <= i < |PuffinExt| :: a[i] == p[|p| - |PuffinExt| + i] && b[i] == q[|q| - |PuffinExt| + i];
      }
    }
  }

  lemma SlashNoPuffin(p: Uri, at: nat)
    requires at < |p| && p[at] == '/' && at >= |p| - |PuffinExt|
    ensures !IsPuffin(p)
  {
    if |p| >= |PuffinExt| {
      var i := at - (|p| - |PuffinExt|);
      assert Lower(p[|p| - |PuffinExt| + i]) == '/';
      assert PuffinExt[i] != '/';
    }
  }

  /** An entry that names nothing in scope and is of a supported kind. */
  predicate AtRest(m: PrefixMapping, f: FileInfo) {
    !Touches(m, f) && !f.content.OtherContent? && (f.content.PosDeletes? ==> !IsPuffin(f.path))
  }

  lemma EntryAtRest(env: Env, manifest: Uri, s: Store, e: Entry)
    requires env.m.Legal() && AtRest(env.m, e.file)
    ensures var r := PlanEntry(env, manifest, s, e);
            r.puts == [] && r.res.Success? && r.res.value.entries == [e] && !r.res.value.changed
  {
    hide IsPuffin;
  }

  lemma {:induction false} LoopAtRest(env: Env, manifest: Uri, s: Store, entries: seq<Entry>)
    requires env.m.Legal() && forall e | e in entries :: AtRest(env.m, e.file)
    ensures var r := PlanLoop(EntryStep(env, manifest), s, entries);
            r.puts == [] && r.res.Success? && !r.res.value.changed
    decreases |entries|
  {
    if entries != [] {
      hide PlanEntry, AtRest;
      var r := EntryStep(env, manifest)(s, entries[0]);
      assert r == PlanEntry(env, manifest, s, entries[0]);
      assert entries[0] in entries && forall e | e in entries[1..] :: e in entries;
      EntryAtRest(env, manifest, s, entries[0]);
      LoopAtRest(env, manifest, s, entries[1..]);
    }
  }

  /** What the rewrite leaves is at rest, size, bounds, split offsets and column sizes of delete entries included. */
  lemma RewrittenAtRest(env: Env, s: Store, manifest: Uri, e: Entry)
    requires env.m.Legal() && PlanEntry(env, manifest, s, e).res.Success?
    ensures AtRest(env.m, RewrittenFile(env, s, e.file))
  {
    hide IsPuffin, PlanBody, MapBounds;
    ApplyUnapply(env.m, e.file.path);
    PuffinKept(env.m, e.file.path);
    if e.file.ref.Some? {
      ApplyUnapply(env.m, e.file.ref.value);
    }
  }

  lemma RewrittenAllAtRest(env: Env, s: Store, manifest: Uri, entries: seq<Entry>)
    requires env.m.Legal() && PlanLoop(EntryStep(env, manifest), s, entries).res.Success?
    ensures forall e | e in RewrittenEntries(env, s, entries) :: AtRest(env.m, e.file)
  {
    hide PlanEntry, RewrittenFile, AtRest;
    var step := EntryStep(env, manifest);
    EntriesStable(env, s, manifest, entries);
    LoopWrites(env.m, s, step, entries);
    var out := RewrittenEntries(env, s, entries);
    forall e | e in out ensures AtRest(env.m, e.file) {
      var i :| 0 <= i < |out| && out[i] == e;
      assert entries[i] in entries && step(s, entries[i]) == PlanEntry(env, manifest, s, entries[i]);
      RewrittenAtRest(env, s, manifest, entries[i]);
    }
  }

  /** Rewriting the manifest that a first pass returned issues no PUT and returns its input. */
  lemma SecondPassNoOp(env: Env, s: Store, mf: ManifestFile)
    requires env.m.Legal() && PlanManifest(env, s, mf).res.Success?
    ensures var first := PlanManifest(env, s, mf);
            var again := PlanManifest(env, After(s, first.puts), first.res.value.file);
            again.puts == [] && again.res.Success? && again.res.value.file == first.res.value.file
  {
    ManifestOutcome(env, s, mf);
    hide PlanLoop, RewrittenFile, Touches, AtRest, RewrittenEntries;
    var first := PlanManifest(env, s, mf);
    var t := After(s, first.puts);
    var entries := s[mf.path].obj.entries;
    if exists e | e in entries :: Touches(env.m, e.file) {
      LastWriteWins(s, first.puts);
      RewrittenAllAtRest(env, s, mf.path, entries);
      LoopAtRest(env, first.res.value.file.path, t, RewrittenEntries(env, s, entries));
    } else {
      UntouchedWrites(env, s, mf.path, entries);
    }
  }

  /** Entries that name nothing in scope cause no writes. */
  lemma UntouchedWrites(env: Env, s: Store, manifest: Uri, entries: seq<Entry>)
    requires env.m.Legal() && PlanLoop(EntryStep(env, manifest), s, entries).res.Success?
    requires !exists e | e in entries :: Touches(env.m, e.file)
    ensures PlanLoop(EntryStep(env, manifest), s, entries).puts == []
  {
    UntouchedEntries(env, s, manifest, entries);
    RewrittenAllAtRest(env, s, manifest, entries);
    LoopAtRest(env, manifest, s, entries);
  }
}
