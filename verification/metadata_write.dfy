/** internal/rewrite/metadata_write.go: the in-place rewrite of the parsed document. */
module MetadataWrite {
  import opened Wrappers
  import opened Prefix
  import opened Json
  import opened Metadata

  /** A value at this position is reported: a path field always, a summary value when it is in scope. */
  ghost predicate Reportable(m: PrefixMapping, spot: Spot, j: Json) {
    j.JStr? && (spot.PathLeaf? || (spot.SummaryLeaf? && m.Matches(j.s)))
  }

  /** The hit names a reportable position of the document and the value found there. */
  ghost predicate Genuine(m: PrefixMapping, root: Json, h: PathHit) {
    && h.field.MetaField?
    && At(root, h.field.path) == Some(JStr(h.before))
    && Reportable(m, SpotAt(Root, h.field.path), JStr(h.before))
    && h.after == m.Apply(h.before)
  }

  /** Every reportable position of j, which sits at base, has its hit. */
  ghost predicate Covered(m: PrefixMapping, hits: seq<PathHit>, base: seq<Step>, spot: Spot, j: Json) {
    forall p :: At(j, p).Some? && Reportable(m, SpotAt(spot, p), At(j, p).value) ==>
      Hit(m, base + p, At(j, p).value.s) in hits
  }

  lemma CoveredGrows(m: PrefixMapping, hits: seq<PathHit>, more: seq<PathHit>, base: seq<Step>, spot: Spot, j: Json)
    requires Covered(m, hits, base, spot, j)
    requires hits <= more
    ensures Covered(m, more, base, spot, j)
  {
    forall p: seq<Step> | At(j, p).Some? && Reportable(m, SpotAt(spot, p), At(j, p).value)
      ensures Hit(m, base + p, At(j, p).value.s) in more
    {
      assert more[..|hits|] == hits;
    }
  }

  lemma {:induction false} NeverReportedElsewhere(m: PrefixMapping, p: seq<Step>)
    ensures SpotAt(Elsewhere, p) == Elsewhere
    decreases |p|
  {
    if p != [] {
      NeverReportedElsewhere(m, p[1..]);
    }
  }

  /** Nothing below an unlisted position is reported. */
  lemma CoveredElsewhere(m: PrefixMapping, hits: seq<PathHit>, base: seq<Step>, j: Json)
    ensures Covered(m, hits, base, Elsewhere, j)
  {
    forall p: seq<Step> { NeverReportedElsewhere(m, p); }
  }

  lemma CoveredArray(m: PrefixMapping, hits: seq<PathHit>, base: seq<Step>, spot: Spot, j: Json)
    requires j.JArr?
    requires forall i: nat | i < |j.items| :: Covered(m, hits, base + [Index(i)], Down(spot, Index(i)), j.items[i])
    ensures Covered(m, hits, base, spot, j)
  {
    forall p: seq<Step> | At(j, p).Some? && Reportable(m, SpotAt(spot, p), At(j, p).value)
      ensures Hit(m, base + p, At(j, p).value.s) in hits
    {
      var i := p[0].i;
      assert Covered(m, hits, base + [Index(i)], Down(spot, Index(i)), j.items[i]);
      assert At(j.items[i], p[1..]).Some?;
      assert base + [Index(i)] + p[1..] == base + p;
    }
  }

  lemma CoveredObject(m: PrefixMapping, hits: seq<PathHit>, base: seq<Step>, spot: Spot, j: Json)
    requires j.JObj?
    requires forall k | k in j.fields :: Covered(m, hits, base + [Key(k)], Down(spot, Key(k)), j.fields[k])
    ensures Covered(m, hits, base, spot, j)
  {
    forall p: seq<Step> | At(j, p).Some? && Reportable(m, SpotAt(spot, p), At(j, p).value)
      ensures Hit(m, base + p, At(j, p).value.s) in hits
    {
      var k := p[0].k;
      assert Covered(m, hits, base + [Key(k)], Down(spot, Key(k)), j.fields[k]);
      assert At(j.fields[k], p[1..]).Some?;
      assert base + [Key(k)] + p[1..] == base + p;
    }
  }

  /** A value whose children are all unlisted is covered unless it is itself a listed string. */
  lemma CoveredLeaf(m: PrefixMapping, hits: seq<PathHit>, base: seq<Step>, spot: Spot, j: Json)
    requires !Reportable(m, spot, j) || Hit(m, base, j.s) in hits
    requires j.JArr? ==> forall i: nat :: Down(spot, Index(i)) == Elsewhere
    requires j.JObj? ==> forall k :: Down(spot, Key(k)) == Elsewhere
    ensures Covered(m, hits, base, spot, j)
  {
    forall b: seq<Step>, x: Json { CoveredElsewhere(m, hits, b, x); }
    if j.JArr? {
      CoveredArray(m, hits, base, spot, j);
    } else if j.JObj? {
      CoveredObject(m, hits, base, spot, j);
    } else {
      assert base + [] == base;
    }
  }

  lemma {:induction false} SpotAtAppend(spot: Spot, base: seq<Step>, step: Step)
    ensures SpotAt(spot, base + [step]) == Down(SpotAt(spot, base), step)
    decreases |base|
  {
    if base == [] {
      assert base + [step] == [step];
      assert [step][1..] == [];
    } else {
      assert (base + [step])[1..] == base[1..] + [step];
      SpotAtAppend(Down(spot, base[0]), base[1..], step);
    }
  }

  lemma {:induction false} AtAppend(j: Json, base: seq<Step>, step: Step)
    requires At(j, base).Some?
    ensures At(j, base + [step]) == At(At(j, base).value, [step])
    decreases |base|
  {
    if base == [] {
      assert base + [step] == [step];
    } else {
      assert (base + [step])[1..] == base[1..] + [step];
      match (j, base[0])
      case (JArr(xs), Index(i)) => AtAppend(xs[i], base[1..], step);
      case (JObj(f), Key(k)) => AtAppend(f[k], base[1..], step);
    }
  }

  /** base is the path of the value j, which stands at spot. */
  ghost predicate Located(root: Json, base: seq<Step>, spot: Spot, j: Json) {
    At(root, base) == Some(j) && SpotAt(Root, base) == spot
  }

  lemma LocatedItem(root: Json, base: seq<Step>, spot: Spot, xs: seq<Json>, i: nat)
    requires Located(root, base, spot, JArr(xs)) && i < |xs|
    ensures Located(root, base + [Index(i)], Down(spot, Index(i)), xs[i])
  {
    AtAppend(root, base, Index(i));
    SpotAtAppend(Root, base, Index(i));
    assert At(JArr(xs), [Index(i)]) == At(xs[i], []);
  }

  lemma LocatedField(root: Json, base: seq<Step>, spot: Spot, f: Doc, k: string)
    requires Located(root, base, spot, JObj(f)) && k in f
    ensures Located(root, base + [Key(k)], Down(spot, Key(k)), f[k])
  {
    AtAppend(root, base, Key(k));
    SpotAtAppend(Root, base, Key(k));
    assert At(JObj(f), [Key(k)]) == At(f[k], []);
  }

  // Loop bookkeeping for arrays: the first n items are done, the rest untouched.

  ghost predicate RelocatedUpTo(m: PrefixMapping, spot: Spot, xs: seq<Json>, ys: seq<Json>, n: nat) {
    && n <= |xs| == |ys|
    && (forall i: nat | i < n :: ys[i] == Relocate(m, Down(spot, Index(i)), xs[i]))
    && (forall i: nat | n <= i < |xs| :: ys[i] == xs[i])
  }

  lemma RelocatedStep(m: PrefixMapping, spot: Spot, xs: seq<Json>, ys: seq<Json>, n: nat, y: Json)
    requires n < |xs| && RelocatedUpTo(m, spot, xs, ys, n)
    requires y == Relocate(m, Down(spot, Index(n)), xs[n])
    ensures RelocatedUpTo(m, spot, xs, ys[n := y], n + 1)
    ensures ys[n := y] != xs <==> ys != xs || y != xs[n]
  {
    if y == xs[n] {
      assert ys[n := y] == ys;
    } else {
      assert ys[n := y][n] != xs[n];
    }
  }

  lemma RelocatedArray(m: PrefixMapping, spot: Spot, xs: seq<Json>, ys: seq<Json>)
    requires RelocatedUpTo(m, spot, xs, ys, |xs|)
    ensures JArr(ys) == Relocate(m, spot, JArr(xs))
  {
    assert ys == Relocate(m, spot, JArr(xs)).items;
  }

  ghost predicate ItemsCovered(m: PrefixMapping, hits: seq<PathHit>, base: seq<Step>, spot: Spot, xs: seq<Json>, n: nat)
    requires n <= |xs|
  {
    forall i: nat | i < n :: Covered(m, hits, base + [Index(i)], Down(spot, Index(i)), xs[i])
  }

  lemma ItemsCoveredStep(m: PrefixMapping, before: seq<PathHit>, hits: seq<PathHit>,
                         base: seq<Step>, spot: Spot, xs: seq<Json>, n: nat)
    requires n < |xs| && before <= hits && ItemsCovered(m, before, base, spot, xs, n)
    requires Covered(m, hits, base + [Index(n)], Down(spot, Index(n)), xs[n])
    ensures ItemsCovered(m, hits, base, spot, xs, n + 1)
  {
    forall i: nat | i < n ensures Covered(m, hits, base + [Index(i)], Down(spot, Index(i)), xs[i]) {
      CoveredGrows(m, before, hits, base + [Index(i)], Down(spot, Index(i)), xs[i]);
    }
  }

  lemma ItemsCoveredArray(m: PrefixMapping, hits: seq<PathHit>, base: seq<Step>, spot: Spot, xs: seq<Json>)
    requires ItemsCovered(m, hits, base, spot, xs, |xs|)
    ensures Covered(m, hits, base, spot, JArr(xs))
  {
    CoveredArray(m, hits, base, spot, JArr(xs));
  }

  // Loop bookkeeping for objects: the fields outside todo are done.

  ghost predicate RelocatedOff(m: PrefixMapping, spot: Spot, f: Doc, g: Doc, todo: set<string>) {
    && g.Keys == f.Keys
    && forall k | k in f :: g[k] == if k in todo then f[k] else Relocate(m, Down(spot, Key(k)), f[k])
  }

  lemma RelocatedOffStep(m: PrefixMapping, spot: Spot, f: Doc, g: Doc, todo: set<string>, k: string, v: Json)
    requires RelocatedOff(m, spot, f, g, todo) && k in todo && k in f
    requires v == Relocate(m, Down(spot, Key(k)), f[k])
    ensures RelocatedOff(m, spot, f, g[k := v], todo - {k})
    ensures g[k := v] != f <==> g != f || v != f[k]
  {
    if v == f[k] {
      assert g[k := v] == g;
    } else {
      assert g[k := v][k] != f[k];
    }
  }

  lemma RelocatedObject(m: PrefixMapping, spot: Spot, f: Doc, g: Doc)
    requires RelocatedOff(m, spot, f, g, {})
    ensures JObj(g) == Relocate(m, spot, JObj(f))
  {
    assert g == Relocate(m, spot, JObj(f)).fields;
  }

  ghost predicate FieldsCovered(m: PrefixMapping, hits: seq<PathHit>, base: seq<Step>, spot: Spot, f: Doc, todo: set<string>) {
    forall k | k in f && k !in todo :: Covered(m, hits, base + [Key(k)], Down(spot, Key(k)), f[k])
  }

  lemma FieldsCoveredStep(m: PrefixMapping, before: seq<PathHit>, hits: seq<PathHit>,
                          base: seq<Step>, spot: Spot, f: Doc, todo: set<string>, k: string)
    requires before <= hits && FieldsCovered(m, before, base, spot, f, todo) && k in f
    requires Covered(m, hits, base + [Key(k)], Down(spot, Key(k)), f[k])
    ensures FieldsCovered(m, hits, base, spot, f, todo - {k})
  {
    forall x | x in f && x !in todo ensures Covered(m, hits, base + [Key(x)], Down(spot, Key(x)), f[x]) {
      CoveredGrows(m, before, hits, base + [Key(x)], Down(spot, Key(x)), f[x]);
    }
  }

  lemma FieldsCoveredObject(m: PrefixMapping, hits: seq<PathHit>, base: seq<Step>, spot: Spot, f: Doc)
    requires FieldsCovered(m, hits, base, spot, f, {})
    ensures Covered(m, hits, base, spot, JObj(f))
  {
    CoveredObject(m, hits, base, spot, JObj(f));
  }

  lemma RestElsewhere(m: PrefixMapping, hits: seq<PathHit>, base: seq<Step>, spot: Spot, f: Doc, g: Doc, todo: set<string>)
    requires RelocatedOff(m, spot, f, g, todo) && FieldsCovered(m, hits, base, spot, f, todo)
    requires forall k | k in todo && k in f :: Down(spot, Key(k)) == Elsewhere
    ensures JObj(g) == Relocate(m, spot, JObj(f))
    ensures Covered(m, hits, base, spot, JObj(f))
  {
    forall k | k in todo && k in f
      ensures Relocate(m, Down(spot, Key(k)), f[k]) == f[k]
      ensures Covered(m, hits, base + [Key(k)], Down(spot, Key(k)), f[k])
    {
      ElsewhereUntouched(m, f[k]);
      CoveredElsewhere(m, hits, base + [Key(k)], f[k]);
    }
    RelocatedObject(m, spot, f, g);
    FieldsCoveredObject(m, hits, base, spot, f);
  }

  /** The top-level fields that hold paths, in the order they are rewritten. */
  const Sections: seq<string> :=
    ["location", "snapshots", "metadata-log", "statistics", "partition-statistics", "properties"]

  /** ApplyMetadataJSONMapping. hits and changed are what its mutString closure updates. */
  class DocRewriter {
    const m: PrefixMapping
    ghost const original: Doc
    var doc: Doc
    var hits: seq<PathHit>
    var changed: bool

    constructor (m: PrefixMapping, doc: Doc)
      ensures this.m == m && original == doc && this.doc == doc && hits == [] && !changed && Valid()
    {
      this.m, original, this.doc, hits, changed := m, doc, doc, [], false;
    }

    ghost predicate Valid()
      reads this
    {
      && (forall h | h in hits :: Genuine(m, JObj(original), h))
      && (changed <==> exists h | h in hits :: h.Rewritten())
    }

    method MutString(path: seq<Step>, current: string) returns (next: string)
      requires Valid()
      requires At(JObj(original), path) == Some(JStr(current))
      requires Reportable(m, SpotAt(Root, path), JStr(current))
      modifies this`hits, this`changed
      ensures Valid()
      ensures next == m.Apply(current)
      ensures hits == old(hits) + [Hit(m, path, current)]
      ensures changed == (old(changed) || next != current)
    {
      next := m.Apply(current);
      hits := hits + [PathHit(MetaField(path), current, next)];
      if next != current {
        changed := true;
        assert hits[|hits| - 1].Rewritten();
      }
      if old(changed) {
        ghost var h :| h in old(hits) && h.Rewritten();
        assert h in hits;
      }
    }

    /** The recurring step "if the value is a string, map it"; summary values only when in scope. */
    method MutValue(path: seq<Step>, j: Json, onlyInScope: bool, ghost spot: Spot) returns (k: Json)
      requires Valid()
      requires Located(JObj(original), path, spot, j)
      requires spot == if onlyInScope then SummaryLeaf else PathLeaf
      modifies this`hits, this`changed
      ensures Valid() && old(hits) <= hits
      ensures k == Relocate(m, spot, j)
      ensures changed == (old(changed) || k != j)
      ensures Covered(m, hits, path, spot, j)
    {
      k := j;
      if j.JStr? && (!onlyInScope || m.Matches(j.s)) {
        var next := MutString(path, j.s);
        k := JStr(next);
      } else if !j.JStr? {
        LeafUntouched(m, spot, j);
      }
      CoveredLeaf(m, hits, path, spot, j);
    }

    /** An object being rewritten: the fields outside todo are done, and changed tells whether it differs yet. */
    ghost predicate InProgress(base: seq<Step>, spot: Spot, f: Doc, g: Doc, todo: set<string>, wasChanged: bool)
      reads this
    {
      && Valid()
      && Located(JObj(original), base, spot, JObj(f))
      && RelocatedOff(m, spot, f, g, todo)
      && FieldsCovered(m, hits, base, spot, f, todo)
      && changed == (wasChanged || g != f)
    }

    /** MutValue on one field of an object, if the object has it. */
    method MutField(base: seq<Step>, g: Doc, key: string,
                    ghost spot: Spot, ghost f: Doc, ghost todo: set<string>, ghost wasChanged: bool)
      returns (h: Doc)
      requires InProgress(base, spot, f, g, todo, wasChanged)
      requires Down(spot, Key(key)) == PathLeaf && key in todo
      modifies this`hits, this`changed
      ensures old(hits) <= hits
      ensures InProgress(base, spot, f, h, todo - {key}, wasChanged)
    {
      h := g;
      if key in g {
        LocatedField(JObj(original), base, spot, f, key);
        var v := MutValue(base + [Key(key)], g[key], false, PathLeaf);
        h := g[key := v];
        RelocatedOffStep(m, spot, f, g, todo, key, v);
        FieldsCoveredStep(m, old(hits), hits, base, spot, f, todo, key);
      }
    }

    /** The V1 flat list of manifest URIs of one snapshot. */
    method MutManifests(base: seq<Step>, xs: seq<Json>) returns (ys: seq<Json>)
      requires Valid()
      requires Located(JObj(original), base, ManifestArray, JArr(xs))
      modifies this`hits, this`changed
      ensures Valid() && old(hits) <= hits
      ensures JArr(ys) == Relocate(m, ManifestArray, JArr(xs))
      ensures changed == (old(changed) || ys != xs)
      ensures Covered(m, hits, base, ManifestArray, JArr(xs))
    {
      ys := xs;
      for j := 0 to |xs|
        invariant Valid() && old(hits) <= hits
        invariant RelocatedUpTo(m, ManifestArray, xs, ys, j)
        invariant changed == (old(changed) || ys != xs)
        invariant ItemsCovered(m, hits, base, ManifestArray, xs, j)
      {
        LocatedItem(JObj(original), base, ManifestArray, xs, j);
        ghost var before := hits;
        var y := MutValue(base + [Index(j)], xs[j], false, PathLeaf);
        ItemsCoveredStep(m, before, hits, base, ManifestArray, xs, j);
        RelocatedStep(m, ManifestArray, xs, ys, j, y);
        ys := ys[j := y];
      }
      RelocatedArray(m, ManifestArray, xs, ys);
      ItemsCoveredArray(m, hits, base, ManifestArray, xs);
    }

    /** Snapshot summary: only in-scope values are mapped and reported. Keys come in no fixed order. */
    method MutSummary(base: seq<Step>, f: Doc) returns (g: Doc)
      requires Valid()
      requires Located(JObj(original), base, SummaryObject, JObj(f))
      modifies this`hits, this`changed
      ensures Valid() && old(hits) <= hits
      ensures JObj(g) == Relocate(m, SummaryObject, JObj(f))
      ensures changed == (old(changed) || g != f)
      ensures Covered(m, hits, base, SummaryObject, JObj(f))
    {
      g := f;
      var todo := f.Keys;
      while todo != {}
        invariant Valid() && old(hits) <= hits
        invariant todo <= f.Keys
        invariant RelocatedOff(m, SummaryObject, f, g, todo)
        invariant changed == (old(changed) || g != f)
        invariant FieldsCovered(m, hits, base, SummaryObject, f, todo)
        decreases todo
      {
        var k :| k in todo;
        LocatedField(JObj(original), base, SummaryObject, f, k);
        ghost var before := hits;
        var v := MutValue(base + [Key(k)], f[k], true, SummaryLeaf);
        FieldsCoveredStep(m, before, hits, base, SummaryObject, f, todo, k);
        RelocatedOffStep(m, SummaryObject, f, g, todo, k, v);
        g := g[k := v];
        todo := todo - {k};
      }
      RelocatedObject(m, SummaryObject, f, g);
      FieldsCoveredObject(m, hits, base, SummaryObject, f);
    }

    method MutManifestsValue(path: seq<Step>, j: Json) returns (k: Json)
      requires Valid() && Located(JObj(original), path, ManifestArray, j)
      modifies this`hits, this`changed
      ensures Valid() && old(hits) <= hits
      ensures k == Relocate(m, ManifestArray, j)
      ensures changed == (old(changed) || k != j)
      ensures Covered(m, hits, path, ManifestArray, j)
    {
      if j.JArr? {
        var ys := MutManifests(path, j.items);
        k := JArr(ys);
      } else {
        k := j;
        LeafUntouched(m, ManifestArray, j);
        CoveredLeaf(m, hits, path, ManifestArray, j);
      }
    }

    method MutSummaryValue(path: seq<Step>, j: Json) returns (k: Json)
      requires Valid() && Located(JObj(original), path, SummaryObject, j)
      modifies this`hits, this`changed
      ensures Valid() && old(hits) <= hits
      ensures k == Relocate(m, SummaryObject, j)
      ensures changed == (old(changed) || k != j)
      ensures Covered(m, hits, path, SummaryObject, j)
    {
      if j.JObj? {
        var g := MutSummary(path, j.fields);
        k := JObj(g);
      } else {
        k := j;
        LeafUntouched(m, SummaryObject, j);
        CoveredLeaf(m, hits, path, SummaryObject, j);
      }
    }

    /** The manifests or the summary field of a snapshot, if it has it. */
    method MutNested(base: seq<Step>, g: Doc, key: string, ghost f: Doc, ghost todo: set<string>, ghost wasChanged: bool)
      returns (h: Doc)
      requires InProgress(base, SnapshotObject, f, g, todo, wasChanged)
      requires key in ["manifests", "summary"] && key in todo
      modifies this`hits, this`changed
      ensures old(hits) <= hits
      ensures InProgress(base, SnapshotObject, f, h, todo - {key}, wasChanged)
    {
      h := g;
      if key in g {
        LocatedField(JObj(original), base, SnapshotObject, f, key);
        var v;
        if key == "manifests" {
          v := MutManifestsValue(base + [Key(key)], g[key]);
        } else {
          v := MutSummaryValue(base + [Key(key)], g[key]);
        }
        h := g[key := v];
        RelocatedOffStep(m, SnapshotObject, f, g, todo, key, v);
        FieldsCoveredStep(m, old(hits), hits, base, SnapshotObject, f, todo, key);
      }
    }

    /** One element of snapshots[]; elements that are not objects are passed over. */
    method MutSnapshot(base: seq<Step>, j: Json) returns (k: Json)
      requires Valid() && Located(JObj(original), base, SnapshotObject, j)
      modifies this`hits, this`changed
      ensures Valid() && old(hits) <= hits
      ensures k == Relocate(m, SnapshotObject, j)
      ensures changed == (old(changed) || k != j)
      ensures Covered(m, hits, base, SnapshotObject, j)
    {
      if !j.JObj? {
        k := j;
        LeafUntouched(m, SnapshotObject, j);
        CoveredLeaf(m, hits, base, SnapshotObject, j);
        return;
      }
      var f := j.fields;
      ghost var listed := {"manifest-list", "manifests", "summary"};
      ghost var todo, was := f.Keys + listed, changed;
      var g := MutField(base, f, "manifest-list", SnapshotObject, f, todo, was);
      todo := todo - {"manifest-list"};
      g := MutNested(base, g, "manifests", f, todo, was);
      todo := todo - {"manifests"};
      g := MutNested(base, g, "summary", f, todo, was);
      RestElsewhere(m, hits, base, SnapshotObject, f, g, todo - {"summary"});
      k := JObj(g);
    }

    /** snapshots[]. */
    method MutSnapshots(base: seq<Step>, xs: seq<Json>) returns (ys: seq<Json>)
      requires Valid() && Located(JObj(original), base, SnapshotArray, JArr(xs))
      modifies this`hits, this`changed
      ensures Valid() && old(hits) <= hits
      ensures JArr(ys) == Relocate(m, SnapshotArray, JArr(xs))
      ensures changed == (old(changed) || ys != xs)
      ensures Covered(m, hits, base, SnapshotArray, JArr(xs))
    {
      ys := xs;
      for i := 0 to |xs|
        invariant Valid() && old(hits) <= hits
        invariant RelocatedUpTo(m, SnapshotArray, xs, ys, i)
        invariant changed == (old(changed) || ys != xs)
        invariant ItemsCovered(m, hits, base, SnapshotArray, xs, i)
      {
        LocatedItem(JObj(original), base, SnapshotArray, xs, i);
        ghost var before := hits;
        var y := MutSnapshot(base + [Index(i)], xs[i]);
        ItemsCoveredStep(m, before, hits, base, SnapshotArray, xs, i);
        RelocatedStep(m, SnapshotArray, xs, ys, i, y);
        ys := ys[i := y];
      }
      RelocatedArray(m, SnapshotArray, xs, ys);
      ItemsCoveredArray(m, hits, base, SnapshotArray, xs);
    }

    /** An element of metadata-log[] or of a statistics array: an object with one path field. */
    method MutRecord(base: seq<Step>, j: Json, key: string, ghost spot: Spot) returns (k: Json)
      requires Valid() && Located(JObj(original), base, spot, j)
      requires (spot.LogObject? && key == "metadata-file") || (spot.StatsObject? && key == "statistics-path")
      modifies this`hits, this`changed
      ensures Valid() && old(hits) <= hits
      ensures k == Relocate(m, spot, j)
      ensures changed == (old(changed) || k != j)
      ensures Covered(m, hits, base, spot, j)
    {
      if !j.JObj? {
        k := j;
        LeafUntouched(m, spot, j);
        CoveredLeaf(m, hits, base, spot, j);
        return;
      }
      ghost var todo := j.fields.Keys + {key};
      var g := MutField(base, j.fields, key, spot, j.fields, todo, changed);
      RestElsewhere(m, hits, base, spot, j.fields, g, todo - {key});
      k := JObj(g);
    }

    method MutRecords(base: seq<Step>, xs: seq<Json>, key: string, ghost spot: Spot) returns (ys: seq<Json>)
      requires Valid() && Located(JObj(original), base, spot, JArr(xs))
      requires (spot.LogArray? && key == "metadata-file") || (spot.StatsArray? && key == "statistics-path")
      modifies this`hits, this`changed
      ensures Valid() && old(hits) <= hits
      ensures JArr(ys) == Relocate(m, spot, JArr(xs))
      ensures changed == (old(changed) || ys != xs)
      ensures Covered(m, hits, base, spot, JArr(xs))
    {
      ys := xs;
      for i := 0 to |xs|
        invariant Valid() && old(hits) <= hits
        invariant RelocatedUpTo(m, spot, xs, ys, i)
        invariant changed == (old(changed) || ys != xs)
        invariant ItemsCovered(m, hits, base, spot, xs, i)
      {
        LocatedItem(JObj(original), base, spot, xs, i);
        ghost var before := hits;
        var y := MutRecord(base + [Index(i)], xs[i], key, Down(spot, Index(i)));
        ItemsCoveredStep(m, before, hits, base, spot, xs, i);
        RelocatedStep(m, spot, xs, ys, i, y);
        ys := ys[i := y];
      }
      RelocatedArray(m, spot, xs, ys);
      ItemsCoveredArray(m, hits, base, spot, xs);
    }

    /** The future-write hints among the table properties. */
    method MutProperties(base: seq<Step>, f: Doc) returns (g: Doc)
      requires Valid() && Located(JObj(original), base, PropertyObject, JObj(f))
      modifies this`hits, this`changed
      ensures Valid() && old(hits) <= hits
      ensures JObj(g) == Relocate(m, PropertyObject, JObj(f))
      ensures changed == (old(changed) || g != f)
      ensures Covered(m, hits, base, PropertyObject, JObj(f))
    {
      g := f;
      ghost var todo, was := f.Keys + (set k | k in PathProperties), changed;
      for n := 0 to |PathProperties|
        invariant old(hits) <= hits
        invariant InProgress(base, PropertyObject, f, g, todo, was)
        invariant todo == f.Keys + (set k | k in PathProperties) - (set k | k in PathProperties[..n])
      {
        var key := PathProperties[n];
        assert key in todo;
        g := MutField(base, g, key, PropertyObject, f, todo, was);
        todo := todo - {key};
        assert PathProperties[..n + 1] == PathProperties[..n] + [key];
      }
      RestElsewhere(m, hits, base, PropertyObject, f, g, todo);
    }

    /** One top-level field that holds paths; a value of an unexpected type is passed over. */
    method MutSection(key: string, j: Json) returns (k: Json)
      requires Valid() && key in Sections
      requires Located(JObj(original), [Key(key)], Down(Root, Key(key)), j)
      modifies this`hits, this`changed
      ensures Valid() && old(hits) <= hits
      ensures k == Relocate(m, Down(Root, Key(key)), j)
      ensures changed == (old(changed) || k != j)
      ensures Covered(m, hits, [Key(key)], Down(Root, Key(key)), j)
    {
      if key == "location" {
        k := MutValue([Key(key)], j, false, PathLeaf);
      } else if key == "properties" && j.JObj? {
        var g := MutProperties([Key(key)], j.fields);
        k := JObj(g);
      } else if key == "snapshots" && j.JArr? {
        var ys := MutSnapshots([Key(key)], j.items);
        k := JArr(ys);
      } else if key == "metadata-log" && j.JArr? {
        var ys := MutRecords([Key(key)], j.items, "metadata-file", LogArray);
        k := JArr(ys);
      } else if key in ["statistics", "partition-statistics"] && j.JArr? {
        var ys := MutRecords([Key(key)], j.items, "statistics-path", StatsArray);
        k := JArr(ys);
      } else {
        k := j;
        LeafUntouched(m, Down(Root, Key(key)), j);
        CoveredLeaf(m, hits, [Key(key)], Down(Root, Key(key)), j);
      }
    }

    method ApplySection(key: string, ghost todo: set<string>)
      requires InProgress([], Root, original, doc, todo, false)
      requires key in Sections && key in todo
      modifies this
      ensures InProgress([], Root, original, doc, todo - {key}, false)
    {
      if key in doc {
        LocatedField(JObj(original), [], Root, original, key);
        assert [] + [Key(key)] == [Key(key)];
        var v := MutSection(key, doc[key]);
        RelocatedOffStep(m, Root, original, doc, todo, key, v);
        FieldsCoveredStep(m, old(hits), hits, [], Root, original, todo, key);
        doc := doc[key := v];
      }
    }

    method ApplyMapping()
      requires Valid() && doc == original && hits == [] && !changed
      modifies this
      ensures Valid()
      ensures doc == RelocateDoc(m, original)
      ensures changed <==> doc != original
      ensures Covered(m, hits, [], Root, JObj(original))
    {
      ghost var todo := original.Keys + (set k | k in Sections);
      for n := 0 to |Sections|
        invariant InProgress([], Root, original, doc, todo, false)
        invariant todo == original.Keys + (set k | k in Sections) - (set k | k in Sections[..n])
      {
        var key := Sections[n];
        assert key in todo;
        ApplySection(key, todo);
        todo := todo - {key};
        assert Sections[..n + 1] == Sections[..n] + [key];
      }
      RestElsewhere(m, hits, [], Root, original, doc, todo);
    }
  }
}
