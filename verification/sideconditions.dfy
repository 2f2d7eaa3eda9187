/** Where the intended claims need a condition: the exact condition, and what happens without it. */
module SideConditions {
  import opened Wrappers
  import opened Prefix
  import opened Graph
  import opened Deletes
  import opened Plan
  import opened PlanFacts
  import opened Closure
  import opened Scan
  import opened Preserve

  /** A position-delete file outside the source prefix is never rewritten. Its deletes follow the moved data files
      exactly when none of its rows is in scope; otherwise some of its marks are left behind. */
  lemma OutsideDeletesFollowIff(m: PrefixMapping, cols: seq<NamedCol>)
    requires m.Legal() && FilePaths(cols).Some? && Positions(cols).Some?
    requires |FilePaths(cols).value| == |Positions(cols).value|
    requires forall i | 0 <= i < |FilePaths(cols).value| && FilePaths(cols).value[i].Some? ::
               !m.UnderTarget(FilePaths(cols).value[i].value)
    ensures (forall path, k | !m.UnderTarget(path) :: MarksRow(cols, m.Apply(path), k) <==> MarksRow(cols, path, k)) <==>
            !AnyInScope(m, FilePaths(cols).value)
  {
    hide FilePaths, Positions;
    var rows, pos := FilePaths(cols).value, Positions(cols).value;
    if AnyInScope(m, rows) {
      var i :| 0 <= i < |rows| && InScope(m, rows[i]);
      var path := rows[i].value;
      assert MarksRow(cols, path, pos[i]);
      ApplyUnapply(m, path);
      assert !MarksRow(cols, m.Apply(path), pos[i]);
    } else {
      forall path, k | !m.UnderTarget(path) ensures MarksRow(cols, m.Apply(path), k) <==> MarksRow(cols, path, k) {
        ApplyUnapply(m, path);
        if m.Matches(path) {
          assert forall i | 0 <= i < |rows| :: !InScope(m, rows[i]);
          assert path != "";
        }
      }
    }
  }

  /** Some row at this position names a path that the mapping merges with this one. */
  ghost predicate MergedMark(m: PrefixMapping, cols: seq<NamedCol>, path: Uri, k: int)
    requires FilePaths(cols).Some? && Positions(cols).Some?
  {
    exists i | 0 <= i < |FilePaths(cols).value| && i < |Positions(cols).value| ::
      && FilePaths(cols).value[i].Some? && Merged(m, FilePaths(cols).value[i].value, path)
      && Positions(cols).value[i] == k
  }

  /** Exactly when a converted body marks a row of a moved file as the body did before: unless the row was not marked and
      a row of the file's twin is. So a delete written for one of two twins reaches the other. */
  lemma MergedMarksIff(m: PrefixMapping, uri: Uri, cols: seq<NamedCol>, path: Uri, k: int)
    requires m.Legal() && ConvertBody(m, uri, cols).Success? && Positions(cols).Some?
    ensures FilePaths(cols).Some?
    ensures (MarksRow(ConvertBody(m, uri, cols).value.0, m.Apply(path), k) <==> MarksRow(cols, path, k)) <==>
            MarksRow(cols, path, k) || !MergedMark(m, cols, path, k)
  {
    hide FilePaths, Positions, ConvertBody;
    ConvertedRows(m, uri, cols);
    ApplyUnapply(m, path);
    var rows, pos := FilePaths(cols).value, Positions(cols).value;
    var out := ConvertBody(m, uri, cols).value.0;
    var after := FilePaths(out).value;
    forall i | 0 <= i < |rows|
      ensures after[i] == Some(m.Apply(path)) <==> rows[i] == Some(path) || (rows[i].Some? && Merged(m, rows[i].value, path))
    {
      assert after[i] == MapRow(m, rows[i]);
      if rows[i].Some? {
        ApplyUnapply(m, rows[i].value);
      }
    }
    hide Merged;
    if MarksRow(cols, path, k) {
      var i :| 0 <= i < |rows| && i < |pos| && rows[i] == Some(path) && pos[i] == k;
      assert after[i] == Some(m.Apply(path));
    }
    if MergedMark(m, cols, path, k) {
      var i :| 0 <= i < |rows| && i < |pos| && rows[i].Some? && Merged(m, rows[i].value, path) && pos[i] == k;
      assert after[i] == Some(m.Apply(path));
    }
  }

  lemma {:induction false} LastWriteWins(s: Store, puts: seq<Put>)
    requires puts != []
    ensures var p := puts[|puts| - 1]; p.uri in After(s, puts) && After(s, puts)[p.uri] == p.blob
    decreases |puts|
  {
    if |puts| > 1 {
      LastWriteWins(s[puts[0].uri := puts[0].blob], puts[1..]);
    }
  }

  /** What encoding the rewritten manifest under descriptor mf yields. */
  function Encoding(env: Env, s: Store, mf: ManifestFile): Option<nat>
    requires mf.path in s && s[mf.path].obj.Manifest?
  {
    var obj := s[mf.path].obj;
    env.enc(Manifest(mf.version, mf.content, obj.specId, true, RewrittenEntries(env, s, obj.entries)))
  }

  /** The length recorded for a rewritten manifest is that of its encoding. */
  lemma LengthIsEncoding(env: Env, s: Store, mf: ManifestFile)
    requires env.m.Legal() && PlanManifest(env, s, mf).res.Success?
    requires PlanManifest(env, s, mf).res.value.file.path != mf.path
    ensures mf.path in s && s[mf.path].obj.Manifest?
    ensures Encoding(env, s, mf) == Some(PlanManifest(env, s, mf).res.value.file.length)
  {
    ManifestOutcome(env, s, mf);
    ManifestCanonical(env, u => mf.version, s, mf);
    hide PlanManifest, PlanLoop, Touches, RewrittenEntries, Rewritten;
    var puts := PlanManifest(env, s, mf).puts;
    assert puts[|puts| - 1] in puts;
  }

  lemma SameEncoding(env: Env, s: Store, f: ManifestFile, g: ManifestFile)
    requires env.m.Legal() && f.path == g.path
    requires PlanManifest(env, s, f).res.Success? && PlanManifest(env, s, g).res.Success?
    ensures f.path in s && s[f.path].obj.Manifest?
    ensures f.version == g.version ==> Encoding(env, s, f) == Encoding(env, s, g)
  {
    hide PlanLoop, RewrittenEntries;
  }

  /** Whether a manifest moves depends on the manifest, not on the descriptor; if it does, it is the last thing written. */
  lemma MovedManifest(env: Env, s: Store, mf: ManifestFile)
    requires env.m.Legal() && PlanManifest(env, s, mf).res.Success?
    ensures mf.path in s && s[mf.path].obj.Manifest?
    ensures var r := PlanManifest(env, s, mf);
            var moves := exists e | e in s[mf.path].obj.entries :: Touches(env.m, e.file);
            && (r.res.value.file.path != mf.path <==> moves)
            && (moves ==>
                  && r.puts != [] && r.puts[|r.puts| - 1].uri == env.m.Apply(mf.path) == r.res.value.file.path
                  && r.puts[|r.puts| - 1].blob.size == r.res.value.file.length)
  {
    ManifestOutcome(env, s, mf);
    ApplyUnapply(env.m, mf.path);
    hide PlanManifest, PlanLoop, Touches, RewrittenEntries;
  }

  /** Two lists may name one manifest under different format versions. It is then encoded twice at the same URI, and the
      length recorded for the first list is right afterwards exactly when the two encodings are equally long. */
  lemma SharedManifestLengthIff(env: Env, s: Store, f: ManifestFile, g: ManifestFile)
    requires env.m.Legal() && f.path == g.path
    requires PlanManifest(env, s, f).res.Success? && PlanManifest(env, s, g).res.Success?
    requires PlanManifest(env, s, f).res.value.file.path != f.path
    ensures f.path in s && s[f.path].obj.Manifest?
    ensures var first := PlanManifest(env, s, f);
            var second := PlanManifest(env, After(s, first.puts), g);
            var t := After(After(s, first.puts), second.puts);
            var recorded := first.res.value.file;
            && second.res.Success? && recorded.path in t
            && (t[recorded.path].size == recorded.length <==> Encoding(env, s, f) == Encoding(env, s, g))
    ensures f.version == g.version ==> Encoding(env, s, f) == Encoding(env, s, g)
  {
    MovedManifest(env, s, f);
    MovedManifest(env, s, g);
    SameEncoding(env, s, f, g);
    ManifestTwinOnly(env, s, f);
    NotBoth(env.m, f.path);
    hide PlanManifest, Encoding, After;
    LengthIsEncoding(env, s, f);
    LengthIsEncoding(env, s, g);
    var first := PlanManifest(env, s, f);
    AgreesWithItself(env.m, s);
    TwinWritesKeepRest(env.m, s, s, first.puts);
    ManifestInsensitive(env, s, After(s, first.puts), g);
    LastWriteWins(After(s, first.puts), PlanManifest(env, s, g).puts);
  }
}
