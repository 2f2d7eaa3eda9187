/** internal/rewrite/positiondelete.go: the body of a V2 position-delete file. */
module Deletes {
  import opened Wrappers
  import opened Prefix
  import opened Graph

  type Paths = seq<Option<string>>

  function Flatten<T>(chunks: seq<seq<T>>): seq<T> {
    if chunks == [] then [] else chunks[0] + Flatten(chunks[1..])
  }

  lemma {:induction false} FlattenSnoc<T>(chunks: seq<seq<T>>, last: seq<T>)
    ensures Flatten(chunks + [last]) == Flatten(chunks) + last
  {
    if chunks == [] {
      assert chunks + [last] == [last];
    } else {
      assert (chunks + [last])[1..] == chunks[1..] + [last];
      FlattenSnoc(chunks[1..], last);
    }
  }

  /** A row that names a file under neither prefix. */
  predicate Foreign(m: PrefixMapping, row: Option<string>) {
    row.Some? && row.value != "" && !m.Matches(row.value) && !m.UnderTarget(row.value)
  }

  predicate InScope(m: PrefixMapping, row: Option<string>) {
    row.Some? && row.value != "" && m.Matches(row.value)
  }

  /** Nulls and empty values stay, every other value is mapped. */
  function MapRow(m: PrefixMapping, row: Option<string>): Option<string> {
    if row.Some? && row.value != "" then Some(m.Apply(row.value)) else row
  }

  function MapRows(m: PrefixMapping, rows: Paths): (r: Paths)
    ensures |r| == |rows| && forall i | 0 <= i < |rows| :: r[i] == MapRow(m, rows[i])
  {
    seq(|rows|, i requires 0 <= i < |rows| => MapRow(m, rows[i]))
  }

  predicate AnyInScope(m: PrefixMapping, rows: Paths) {
    exists i | 0 <= i < |rows| :: InScope(m, rows[i])
  }

  function FirstForeign(m: PrefixMapping, rows: Paths): (r: Option<nat>)
    ensures r.Some? ==> r.value < |rows| && Foreign(m, rows[r.value])
    ensures r.Some? ==> forall j | 0 <= j < r.value :: !Foreign(m, rows[j])
    ensures r.None? ==> forall j | 0 <= j < |rows| :: !Foreign(m, rows[j])
  {
    if rows == [] then None
    else if Foreign(m, rows[0]) then Some(0)
    else match FirstForeign(m, rows[1..])
      case Some(i) => Some(i + 1)
      case None => None
  }

  /** rewriteFilePathColumn: fails at the first foreign row, otherwise maps every row in place. */
  method RewriteFilePathColumn(m: PrefixMapping, rows: Paths) returns (r: Result<Paths, nat>, changed: bool)
    ensures r.Failure? <==> exists i | 0 <= i < |rows| :: Foreign(m, rows[i])
    ensures r.Failure? ==> FirstForeign(m, rows) == Some(r.error)
    ensures r.Success? ==> r.value == MapRows(m, rows) && (changed <==> AnyInScope(m, rows))
  {
    var out: Paths := [];
    changed := false;
    for i := 0 to |rows|
      invariant |out| == i
      invariant forall j | 0 <= j < i :: out[j] == MapRow(m, rows[j]) && !Foreign(m, rows[j])
      invariant changed <==> exists j | 0 <= j < i :: InScope(m, rows[j])
    {
      var row := rows[i];
      if row.None? {
        out := out + [None];
      } else if row.value == "" {
        out := out + [row];
      } else if m.Matches(row.value) {
        out := out + [Some(m.Apply(row.value))];
        changed := true;
      } else if m.UnderTarget(row.value) {
        out := out + [row];
      } else {
        assert Foreign(m, rows[i]);
        return Failure(i), false;
      }
    }
    return Success(out), changed;
  }

  /** concatChunks. */
  method ConcatChunks<T>(chunks: seq<seq<T>>) returns (r: Option<seq<T>>)
    ensures r == if chunks == [] then None else Some(Flatten(chunks))
  {
    if |chunks| == 0 {
      return None;
    }
    if |chunks| == 1 {
      assert Flatten(chunks) == chunks[0] + Flatten(chunks[1..]) == chunks[0];
      return Some(chunks[0]);
    }
    var all := [];
    for i := 0 to |chunks|
      invariant all == Flatten(chunks[..i])
    {
      assert chunks[..i + 1] == chunks[..i] + [chunks[i]];
      FlattenSnoc(chunks[..i], chunks[i]);
      all := all + chunks[i];
    }
    assert chunks[..|chunks|] == chunks;
    return Some(all);
  }

  /** Schema.FieldIndices: the positions of the columns with a given name, in order. */
  function FieldIndices(cols: seq<NamedCol>, name: string): (r: seq<nat>)
    ensures forall i :: i in r <==> 0 <= i < |cols| && cols[i].name == name
    ensures forall k | 0 <= k < |r| :: r[k] < |cols| && cols[r[k]].name == name
  {
    if cols == [] then []
    else
      var last := |cols| - 1;
      var before := FieldIndices(cols[..last], name);
      if cols[last].name == name then before + [last] else before
  }

  /** FieldIndices depends on the column names alone. */
  lemma {:induction false} FieldIndicesByName(a: seq<NamedCol>, b: seq<NamedCol>, name: string)
    requires |a| == |b| && forall i | 0 <= i < |a| :: a[i].name == b[i].name
    ensures FieldIndices(a, name) == FieldIndices(b, name)
    decreases |a|
  {
    if a != [] {
      FieldIndicesByName(a[..|a| - 1], b[..|b| - 1], name);
    }
  }

  function ConvertColumn(m: PrefixMapping, uri: Uri, c: NamedCol, isPath: bool): Result<(NamedCol, bool), Error> {
    if c.col.Chunks() == 0 then Failure(ZeroChunks(uri))
    else match c.col
      case NumCol(nums) =>
        if isPath then Failure(NotPositionDelete(uri))
        else Success((c.(col := NumCol([Flatten(nums)])), false))
      case StrCol(texts) =>
        var rows := Flatten(texts);
        if !isPath then Success((c.(col := StrCol([rows])), false))
        else match FirstForeign(m, rows)
          case Some(k) => Failure(ForeignRow(uri, k))
          case None => Success((c.(col := StrCol([MapRows(m, rows)])), AnyInScope(m, rows)))
  }

  /** The columns from i on, each in one chunk, with the path column mapped; stops at the first column that fails. */
  function ConvertFrom(m: PrefixMapping, uri: Uri, cols: seq<NamedCol>, fp: nat, i: nat)
    : Result<(seq<NamedCol>, bool), Error>
    requires i <= |cols|
    decreases |cols| - i
  {
    if i == |cols| then Success(([], false))
    else match ConvertColumn(m, uri, cols[i], i == fp)
      case Failure(e) => Failure(e)
      case Success((c, changed)) =>
        Prefixed([c], changed, ConvertFrom(m, uri, cols, fp, i + 1))
  }

  function ConvertBody(m: PrefixMapping, uri: Uri, cols: seq<NamedCol>): Result<(seq<NamedCol>, bool), Error> {
    var at := FieldIndices(cols, "file_path");
    if |at| != 1 then Failure(NotPositionDelete(uri)) else ConvertFrom(m, uri, cols, at[0], 0)
  }

  /** A result with some columns already converted put in front. */
  function Prefixed(done: seq<NamedCol>, mutated: bool, r: Result<(seq<NamedCol>, bool), Error>)
    : Result<(seq<NamedCol>, bool), Error>
  {
    match r case Failure(e) => Failure(e) case Success((rest, more)) => Success((done + rest, mutated || more))
  }

  lemma PrefixedStep(done: seq<NamedCol>, mutated: bool, c: NamedCol, changed: bool, r: Result<(seq<NamedCol>, bool), Error>)
    ensures Prefixed([], false, r) == r
    ensures Prefixed(done, mutated, Prefixed([c], changed, r)) == Prefixed(done + [c], mutated || changed, r)
  {
    if r.Success? {
      assert [] + r.value.0 == r.value.0;
      assert done + ([c] + r.value.0) == (done + [c]) + r.value.0;
    }
  }

  method ConvertColumnInPlace(m: PrefixMapping, uri: Uri, c: NamedCol, isPath: bool)
    returns (r: Result<(NamedCol, bool), Error>)
    ensures r == ConvertColumn(m, uri, c, isPath)
  {
    match c.col {
      case NumCol(nums) =>
        var concat := ConcatChunks(nums);
        if concat.None? {
          return Failure(ZeroChunks(uri));
        }
        if isPath {
          return Failure(NotPositionDelete(uri));
        }
        return Success((c.(col := NumCol([concat.value])), false));
      case StrCol(texts) =>
        var concat := ConcatChunks(texts);
        if concat.None? {
          return Failure(ZeroChunks(uri));
        }
        if !isPath {
          return Success((c.(col := StrCol([concat.value])), false));
        }
        var rewritten, changed := RewriteFilePathColumn(m, concat.value);
        if rewritten.Failure? {
          return Failure(ForeignRow(uri, rewritten.error));
        }
        return Success((c.(col := StrCol([rewritten.value])), changed));
    }
  }

  /** The column loop of RewritePositionDeleteFile, which fills an array of rewritten columns. */
  method RewriteColumns(m: PrefixMapping, uri: Uri, cols: seq<NamedCol>)
    returns (r: Result<(seq<NamedCol>, bool), Error>)
    ensures r == ConvertBody(m, uri, cols)
  {
    var at := FieldIndices(cols, "file_path");
    if |at| != 1 {
      return Failure(NotPositionDelete(uri));
    }
    var fp := at[0];
    var out := new NamedCol[|cols|];
    var mutated := false;
    assert out[..0] == [];
    PrefixedStep([], false, NamedCol("", NumCol([])), false, ConvertFrom(m, uri, cols, fp, 0));
    for i := 0 to |cols|
      invariant ConvertFrom(m, uri, cols, fp, 0) == Prefixed(out[..i], mutated, ConvertFrom(m, uri, cols, fp, i))
    {
      ghost var done, before := out[..i], mutated;
      var c := ConvertColumnInPlace(m, uri, cols[i], i == fp);
      if c.Failure? {
        return Failure(c.error);
      }
      out[i] := c.value.0;
      mutated := mutated || c.value.1;
      assert out[..i + 1] == done + [c.value.0];
      PrefixedStep(done, before, c.value.0, c.value.1, ConvertFrom(m, uri, cols, fp, i + 1));
    }
    assert out[..|cols|] == out[..] == out[..] + [];
    return Success((out[..], mutated));
  }

  // The reader's view of a body.

  /** The file_path column as one sequence of rows. */
  function FilePaths(cols: seq<NamedCol>): Option<Paths> {
    var at := FieldIndices(cols, "file_path");
    if |at| == 1 && cols[at[0]].col.StrCol? then Some(Flatten(cols[at[0]].col.texts)) else None
  }

  function Positions(cols: seq<NamedCol>): Option<seq<int>> {
    var at := FieldIndices(cols, "pos");
    if |at| == 1 && cols[at[0]].col.NumCol? then Some(Flatten(cols[at[0]].col.nums)) else None
  }

  ghost predicate ConvertsTo(m: PrefixMapping, uri: Uri, c: NamedCol, isPath: bool, d: NamedCol) {
    ConvertColumn(m, uri, c, isPath).Success? && ConvertColumn(m, uri, c, isPath).value.0 == d
  }

  /** Column by column, what a successful conversion does to each column, and whether it changed anything. */
  lemma {:induction false} ConvertedColumns(m: PrefixMapping, uri: Uri, cols: seq<NamedCol>, fp: nat, i: nat)
    requires i <= |cols| && ConvertFrom(m, uri, cols, fp, i).Success?
    ensures var (out, changed) := ConvertFrom(m, uri, cols, fp, i).value;
            && |out| == |cols| - i
            && (forall k | 0 <= k < |out| :: ConvertsTo(m, uri, cols[i + k], i + k == fp, out[k]))
            && (changed <==>
                  && i <= fp < |cols|
                  && ConvertColumn(m, uri, cols[fp], true).Success?
                  && ConvertColumn(m, uri, cols[fp], true).value.1)
    decreases |cols| - i
  {
    if i < |cols| {
      ConvertedColumns(m, uri, cols, fp, i + 1);
      var rest := ConvertFrom(m, uri, cols, fp, i + 1).value.0;
      var out := ConvertFrom(m, uri, cols, fp, i).value.0;
      forall k | 0 <= k < |out| ensures ConvertsTo(m, uri, cols[i + k], i + k == fp, out[k]) {
        if k > 0 {
          assert ConvertsTo(m, uri, cols[i + 1 + (k - 1)], i + 1 + (k - 1) == fp, rest[k - 1]);
        }
      }
    }
  }

  /** A converted body has the same rows with the file_path column mapped; positions are untouched. */
  lemma ConvertedRows(m: PrefixMapping, uri: Uri, cols: seq<NamedCol>)
    requires ConvertBody(m, uri, cols).Success?
    ensures FilePaths(cols).Some?
    ensures var (out, changed) := ConvertBody(m, uri, cols).value;
            && FilePaths(out) == Some(MapRows(m, FilePaths(cols).value))
            && Positions(out) == Positions(cols)
            && (changed <==> AnyInScope(m, FilePaths(cols).value))
    ensures forall k | 0 <= k < |FilePaths(cols).value| :: !Foreign(m, FilePaths(cols).value[k])
  {
    hide FieldIndices, ConvertFrom;
    var fp := FieldIndices(cols, "file_path")[0];
    ConvertedColumns(m, uri, cols, fp, 0);
    var out := ConvertBody(m, uri, cols).value.0;
    assert ConvertsTo(m, uri, cols[0 + fp], 0 + fp == fp, out[fp]);
    ConvertedPathColumn(m, uri, cols[fp]);
    SameNames(m, uri, cols, out, fp, "file_path");
    ConvertedPositions(m, uri, cols, out, fp);
  }

  lemma ConvertedPositions(m: PrefixMapping, uri: Uri, cols: seq<NamedCol>, out: seq<NamedCol>, fp: nat)
    requires |out| == |cols|
    requires forall k | 0 <= k < |out| :: ConvertsTo(m, uri, cols[0 + k], 0 + k == fp, out[k])
    requires fp < |cols| && cols[fp].name == "file_path"
    ensures Positions(out) == Positions(cols)
  {
    SameNames(m, uri, cols, out, fp, "pos");
    var at := FieldIndices(cols, "pos");
    if |at| == 1 {
      var pos := at[0];
      assert ConvertsTo(m, uri, cols[0 + pos], 0 + pos == fp, out[pos]);
      ConvertedOtherColumn(m, uri, cols[pos]);
    }
  }

  lemma SameNames(m: PrefixMapping, uri: Uri, cols: seq<NamedCol>, out: seq<NamedCol>, fp: nat, name: string)
    requires |out| == |cols|
    requires forall k | 0 <= k < |out| :: ConvertsTo(m, uri, cols[0 + k], 0 + k == fp, out[k])
    ensures FieldIndices(out, name) == FieldIndices(cols, name)
  {
    forall k | 0 <= k < |cols| ensures out[k].name == cols[k].name {
      assert ConvertsTo(m, uri, cols[0 + k], 0 + k == fp, out[k]);
    }
    FieldIndicesByName(out, cols, name);
  }

  lemma ConvertedPathColumn(m: PrefixMapping, uri: Uri, c: NamedCol)
    requires ConvertColumn(m, uri, c, true).Success?
    ensures var (d, changed) := ConvertColumn(m, uri, c, true).value;
            && c.col.StrCol? && d.col.StrCol?
            && Flatten(d.col.texts) == MapRows(m, Flatten(c.col.texts))
            && (changed <==> AnyInScope(m, Flatten(c.col.texts)))
            && FirstForeign(m, Flatten(c.col.texts)).None?
  {
    OneChunk(MapRows(m, Flatten(c.col.texts)));
  }

  /** Two columns of one kind hold the same rows, however chunked. */
  predicate SameRows(a: Column, b: Column) {
    match (a, b)
    case (StrCol(x), StrCol(y)) => Flatten(x) == Flatten(y)
    case (NumCol(x), NumCol(y)) => Flatten(x) == Flatten(y)
    case _ => false
  }

  lemma ConvertedOtherColumn(m: PrefixMapping, uri: Uri, c: NamedCol)
    requires ConvertColumn(m, uri, c, false).Success?
    ensures var d := ConvertColumn(m, uri, c, false).value.0; d.name == c.name && SameRows(d.col, c.col)
  {
    match c.col
    case NumCol(nums) => OneChunk(Flatten(nums));
    case StrCol(texts) => OneChunk(Flatten(texts));
  }

  /** A converted body has the columns it had, in order and by name, each in one chunk. Every column other than file_path,
      optional ones included, holds the rows it held. */
  lemma OtherColumnsKept(m: PrefixMapping, uri: Uri, cols: seq<NamedCol>)
    requires ConvertBody(m, uri, cols).Success?
    ensures var out := ConvertBody(m, uri, cols).value.0;
            && |out| == |cols|
            && forall k | 0 <= k < |cols| ::
                 && out[k].name == cols[k].name && out[k].col.Chunks() == 1
                 && (cols[k].name != "file_path" ==> SameRows(out[k].col, cols[k].col))
  {
    hide FieldIndices, ConvertFrom, SameRows;
    var fp := FieldIndices(cols, "file_path")[0];
    ConvertedColumns(m, uri, cols, fp, 0);
    var out := ConvertBody(m, uri, cols).value.0;
    forall k | 0 <= k < |cols|
      ensures out[k].name == cols[k].name && out[k].col.Chunks() == 1
      ensures cols[k].name != "file_path" ==> SameRows(out[k].col, cols[k].col)
    {
      assert ConvertsTo(m, uri, cols[0 + k], 0 + k == fp, out[k]);
      if k != fp {
        ConvertedOtherColumn(m, uri, cols[k]);
      } else {
        assert cols[fp].name == "file_path";
      }
    }
  }

  lemma OneChunk<T>(xs: seq<T>)
    ensures Flatten([xs]) == xs
  {
    assert [xs][1..] == [];
  }

  /** The body conversion fails exactly for these reasons. */
  lemma {:induction false} ConvertFailsIff(m: PrefixMapping, uri: Uri, cols: seq<NamedCol>, fp: nat, i: nat)
    requires i <= |cols|
    ensures ConvertFrom(m, uri, cols, fp, i).Success? <==>
            forall k | i <= k < |cols| :: ConvertColumn(m, uri, cols[k], k == fp).Success?
    decreases |cols| - i
  {
    if i < |cols| {
      ConvertFailsIff(m, uri, cols, fp, i + 1);
    }
  }

  // The dry run looks at the chunks one by one.

  function WalkChunks(m: PrefixMapping, uri: Uri, chunks: seq<Paths>): Option<Error> {
    if chunks == [] then None
    else match FirstForeign(m, chunks[0])
      case Some(k) => Some(ForeignRow(uri, k))
      case None => WalkChunks(m, uri, chunks[1..])
  }

  function WalkBody(m: PrefixMapping, uri: Uri, cols: seq<NamedCol>): Option<Error> {
    var at := FieldIndices(cols, "file_path");
    if |at| != 1 then Some(NotPositionDelete(uri))
    else match cols[at[0]].col
      case NumCol(nums) => if |nums| == 0 then None else Some(NotPositionDelete(uri))
      case StrCol(texts) => WalkChunks(m, uri, texts)
  }

  /** The checking loop of WalkPositionDeleteFile. */
  method CheckBody(m: PrefixMapping, uri: Uri, cols: seq<NamedCol>) returns (r: Option<Error>)
    ensures r == WalkBody(m, uri, cols)
  {
    var at := FieldIndices(cols, "file_path");
    if |at| != 1 {
      return Some(NotPositionDelete(uri));
    }
    match cols[at[0]].col {
      case NumCol(nums) =>
        return if |nums| == 0 then None else Some(NotPositionDelete(uri));
      case StrCol(texts) =>
        for i := 0 to |texts|
          invariant WalkChunks(m, uri, texts) == WalkChunks(m, uri, texts[i..])
        {
          var rewritten, _ := RewriteFilePathColumn(m, texts[i]);
          if rewritten.Failure? {
            return Some(ForeignRow(uri, rewritten.error));
          }
        }
        return None;
    }
  }

  /** Checking chunk by chunk finds a foreign row exactly when the concatenated column has one. */
  lemma {:induction false} ChunkwiseEqualsWhole(m: PrefixMapping, uri: Uri, chunks: seq<Paths>)
    ensures WalkChunks(m, uri, chunks).None? <==> FirstForeign(m, Flatten(chunks)).None?
  {
    if chunks != [] {
      var rest := Flatten(chunks[1..]);
      ChunkwiseEqualsWhole(m, uri, chunks[1..]);
      assert Flatten(chunks) == chunks[0] + rest;
      assert forall j | 0 <= j < |chunks[0]| :: chunks[0][j] == Flatten(chunks)[j];
      if FirstForeign(m, Flatten(chunks)).None? {
        forall j | 0 <= j < |rest| ensures !Foreign(m, rest[j]) {
          assert rest[j] == Flatten(chunks)[|chunks[0]| + j];
        }
      }
    }
  }

  lemma {:induction false} FirstForeignConcat(m: PrefixMapping, a: Paths, b: Paths)
    ensures FirstForeign(m, a + b) ==
            if FirstForeign(m, a).Some? then FirstForeign(m, a)
            else match FirstForeign(m, b) case Some(k) => Some(|a| + k) case None => None
  {
    if a == [] {
      assert a + b == b;
    } else {
      assert (a + b)[1..] == a[1..] + b;
      FirstForeignConcat(m, a[1..], b);
    }
  }

  /** The row that the dry run names counts from the chunk it is in; the rewrite adds the rows of the chunks before it. */
  lemma {:induction false} DryRowOffset(m: PrefixMapping, uri: Uri, chunks: seq<Paths>) returns (c: nat)
    requires WalkChunks(m, uri, chunks).Some?
    ensures c < |chunks| && forall j | 0 <= j < c :: FirstForeign(m, chunks[j]).None?
    ensures FirstForeign(m, chunks[c]).Some? && FirstForeign(m, Flatten(chunks)).Some?
    ensures WalkChunks(m, uri, chunks) == Some(ForeignRow(uri, FirstForeign(m, chunks[c]).value))
    ensures FirstForeign(m, Flatten(chunks)).value == |Flatten(chunks[..c])| + FirstForeign(m, chunks[c]).value
  {
    FirstForeignConcat(m, chunks[0], Flatten(chunks[1..]));
    if FirstForeign(m, chunks[0]).Some? {
      c := 0;
    } else {
      var d := DryRowOffset(m, uri, chunks[1..]);
      c := d + 1;
      assert chunks[..c][1..] == chunks[1..][..d];
    }
  }

  /** The dry-run check accepts what the rewrite accepts, save that the rewrite also refuses a column without chunks. */
  lemma DryCheckVsRewrite(m: PrefixMapping, uri: Uri, cols: seq<NamedCol>)
    ensures ConvertBody(m, uri, cols).Success? <==>
            WalkBody(m, uri, cols).None? && forall k | 0 <= k < |cols| :: cols[k].col.Chunks() > 0
    ensures WalkBody(m, uri, cols).None? && ConvertBody(m, uri, cols).Failure? ==>
            ConvertBody(m, uri, cols).error == ZeroChunks(uri)
  {
    var at := FieldIndices(cols, "file_path");
    if |at| == 1 {
      var fp := at[0];
      assert fp in at;
      ConvertFailsIff(m, uri, cols, fp, 0);
      if cols[fp].col.StrCol? {
        ChunkwiseEqualsWhole(m, uri, cols[fp].col.texts);
      }
      FirstFailure(m, uri, cols, fp, 0);
    }
  }

  lemma {:induction false} FirstFailure(m: PrefixMapping, uri: Uri, cols: seq<NamedCol>, fp: nat, i: nat)
    requires i <= |cols|
    ensures ConvertFrom(m, uri, cols, fp, i).Failure? ==>
            exists k | i <= k < |cols| :: ConvertColumn(m, uri, cols[k], k == fp).Failure? &&
              ConvertFrom(m, uri, cols, fp, i).error == ConvertColumn(m, uri, cols[k], k == fp).error
    decreases |cols| - i
  {
    if i < |cols| {
      FirstFailure(m, uri, cols, fp, i + 1);
    }
  }
}
