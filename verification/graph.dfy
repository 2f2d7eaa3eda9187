/** The objects of a table's metadata graph in decoded form, and the URI-keyed store that holds them. */
module Graph {
  import opened Wrappers
  import opened Prefix
  import opened Json

  type Row = int

  datatype Content = Data | PosDeletes | EqDeletes | OtherContent(code: int)

  datatype Status = Existing | Added | Deleted

  /** A colMap of column bounds: field id and serialised value. */
  type Bounds = seq<(int, string)>

  /** data_file of a manifest entry. */
  datatype FileInfo = FileInfo(
    content: Content,
    path: Uri,
    ref: Option<Uri>,
    size: int,
    lower: Option<Bounds>,
    upper: Option<Bounds>,
    splits: Option<seq<int>>,
    colSizes: Option<seq<(int, int)>>,
    partition: int,
    records: int)

  /** manifest_entry; an absent sequence number is inherited from the manifest's own. */
  datatype Entry = Entry(status: Status, snapshotId: Option<int>, seqNum: Option<int>, file: FileInfo)

  datatype ManifestContent = DataManifest | DeleteManifest

  /** The finest information that file counts, row counts and partition summaries may depend on. */
  type Summary = seq<(Status, int, int)>

  /** manifest_file: the descriptor of a manifest inside a manifest list. */
  datatype ManifestFile = ManifestFile(
    version: int,
    path: Uri,
    length: int,
    specId: int,
    snapshotId: int,
    seqNum: int,
    minSeqNum: int,
    content: ManifestContent,
    summary: Summary)

  /** ManifestListHeader. */
  datatype ListHeader = ListHeader(snapshotId: int, parent: Option<int>, seqNum: Option<int>, firstRowId: int)

  /** A chunked table column. */
  datatype Column = StrCol(texts: seq<seq<Option<string>>>) | NumCol(nums: seq<seq<int>>) {
    function Chunks(): nat {
      match this case StrCol(c) => |c| case NumCol(c) => |c|
    }
  }

  datatype NamedCol = NamedCol(name: string, col: Column)

  datatype Obj =
    | Meta(doc: Doc)
    | List(version: int, header: ListHeader, files: seq<ManifestFile>)
    | Manifest(version: int, content: ManifestContent, specId: int, headerOk: bool, entries: seq<Entry>)
    | DelBody(cols: seq<NamedCol>)
    | EqBody(keys: set<Row>)
    | DataBody(rows: seq<Row>)
    | Junk

  /** A stored object and its length in bytes. */
  datatype Blob = Blob(obj: Obj, size: nat)

  type Store = map<Uri, Blob>

  datatype Put = Put(uri: Uri, blob: Blob)

  /** Why a walk or a rewrite stops. */
  datatype Error =
    | StorageFailed(uri: Uri)       // the object is missing, or a read, write or verification failed
    | Undecodable(uri: Uri)
    | BadHeader(uri: Uri)           // schema or partition spec of a manifest header
    | Unsupported(uri: Uri)         // ErrUnsupportedFeature
    | OutsidePrefix(uri: Uri)       // ErrOutsidePrefix
    | WrongPrefix(uri: Uri)         // metadata location not under the source prefix
    | NotPositionDelete(uri: Uri)   // file_path column missing, repeated or not of strings
    | ForeignRow(uri: Uri, row: nat)
    | ZeroChunks(uri: Uri)
    | Unencodable(uri: Uri)

  /** The store after a series of writes. */
  function After(s: Store, puts: seq<Put>): Store
    decreases |puts|
  {
    if puts == [] then s else After(s[puts[0].uri := puts[0].blob], puts[1..])
  }

  lemma {:induction false} AfterConcat(s: Store, a: seq<Put>, b: seq<Put>)
    ensures After(s, a + b) == After(After(s, a), b)
    decreases |a|
  {
    if a == [] {
      assert a + b == b;
    } else {
      assert (a + b)[1..] == a[1..] + b;
      AfterConcat(s[a[0].uri := a[0].blob], a[1..], b);
    }
  }

  /** What a URI not written to holds is unchanged. */
  lemma {:induction false} AfterFrame(s: Store, puts: seq<Put>, u: Uri)
    requires forall p | p in puts :: p.uri != u
    ensures u in After(s, puts) <==> u in s
    ensures u in s ==> After(s, puts)[u] == s[u]
    decreases |puts|
  {
    if puts != [] {
      assert puts[0] in puts;
      AfterFrame(s[puts[0].uri := puts[0].blob], puts[1..], u);
    }
  }

  /** Every write goes under the target prefix. */
  ghost predicate TargetOnly(m: PrefixMapping, puts: seq<Put>) {
    forall p | p in puts :: m.UnderTarget(p.uri)
  }

  /** The two stores hold the same outside the target prefix. */
  ghost predicate AgreeOffTarget(m: PrefixMapping, s: Store, t: Store) {
    forall u | !m.UnderTarget(u) :: (u in s <==> u in t) && (u in s ==> s[u] == t[u])
  }

  lemma AgreeSymmetric(m: PrefixMapping, s: Store, t: Store)
    requires AgreeOffTarget(m, s, t)
    ensures AgreeOffTarget(m, t, s)
  {
  }

  lemma TargetWritesKeepRest(m: PrefixMapping, s: Store, puts: seq<Put>)
    requires TargetOnly(m, puts)
    ensures AgreeOffTarget(m, s, After(s, puts))
  {
    forall u | !m.UnderTarget(u)
      ensures u in After(s, puts) <==> u in s
      ensures u in s ==> After(s, puts)[u] == s[u]
    {
      AfterFrame(s, puts, u);
    }
  }

  /** u is where the mapping would put an object that is stored under the source prefix. */
  predicate Twin(m: PrefixMapping, s: Store, u: Uri) {
    m.UnderTarget(u) && m.Unapply(u) in s
  }

  /** Every write goes to the twin of a stored object. */
  ghost predicate TwinOnly(m: PrefixMapping, s: Store, puts: seq<Put>) {
    forall p | p in puts :: Twin(m, s, p.uri)
  }

  /** The two stores hold the same, except perhaps at the twins of what s stores. */
  ghost predicate AgreeOffTwins(m: PrefixMapping, s: Store, t: Store) {
    forall u | !Twin(m, s, u) :: (u in s <==> u in t) && (u in s ==> s[u] == t[u])
  }

  lemma OffTwinsOffTarget(m: PrefixMapping, s: Store, t: Store)
    requires AgreeOffTwins(m, s, t)
    ensures AgreeOffTarget(m, s, t)
  {
    assert forall u | !m.UnderTarget(u) :: !Twin(m, s, u);
  }

  lemma TwinWritesKeepRest(m: PrefixMapping, s: Store, t: Store, puts: seq<Put>)
    requires AgreeOffTwins(m, s, t) && TwinOnly(m, s, puts)
    ensures AgreeOffTwins(m, s, After(t, puts))
  {
    forall u | !Twin(m, s, u)
      ensures u in After(t, puts) <==> u in s
      ensures u in s ==> After(t, puts)[u] == s[u]
    {
      AfterFrame(t, puts, u);
    }
  }

  /** Writes to one URI all carry the same object. */
  ghost predicate Agreeing(puts: seq<Put>) {
    forall p, q | p in puts && q in puts && p.uri == q.uri :: p.blob == q.blob
  }

  /** Under agreement every written URI holds what was written to it, however often it was rewritten. */
  lemma {:induction false} AgreeingLast(s: Store, puts: seq<Put>, p: Put)
    requires Agreeing(puts) && p in puts
    ensures p.uri in After(s, puts) && After(s, puts)[p.uri] == p.blob
    decreases |puts|
  {
    var s1 := s[puts[0].uri := puts[0].blob];
    var rest := puts[1..];
    assert Agreeing(rest) by {
      assert forall q | q in rest :: q in puts;
    }
    if q :| q in rest && q.uri == p.uri {
      AgreeingLast(s1, rest, q);
    } else {
      assert puts == [puts[0]] + rest;
      AfterFrame(s1, rest, p.uri);
    }
  }

  /** A run cut short: a prefix of the planned writes, the last of which may have been damaged. */
  ghost predicate Interrupted(done: seq<Put>, plan: seq<Put>) {
    && |done| <= |plan|
    && (forall i | 0 <= i < |done| :: done[i].uri == plan[i].uri)
    && (forall i | 0 <= i < |done| - 1 :: done[i] == plan[i])
  }

  lemma InterruptedStaysOnTarget(m: PrefixMapping, done: seq<Put>, plan: seq<Put>)
    requires Interrupted(done, plan) && TargetOnly(m, plan)
    ensures TargetOnly(m, done)
  {
    forall p | p in done ensures m.UnderTarget(p.uri) {
      var i :| 0 <= i < |done| && done[i] == p;
      assert plan[i] in plan;
    }
  }

  /** Two stores that differ only where the writes go end up the same. */
  lemma {:induction false} WritesConverge(s: Store, t: Store, puts: seq<Put>)
    requires forall u | u !in (set p | p in puts :: p.uri) :: (u in s <==> u in t) && (u in s ==> s[u] == t[u])
    ensures After(s, puts) == After(t, puts)
    decreases |puts|
  {
    if puts == [] {
      assert s.Keys == t.Keys by {
        assert forall u :: u in s <==> u in t;
      }
    } else {
      var p, rest := puts[0], puts[1..];
      assert puts == [p] + rest;
      var s1, t1 := s[p.uri := p.blob], t[p.uri := p.blob];
      forall u | u !in (set q | q in rest :: q.uri)
        ensures (u in s1 <==> u in t1) && (u in s1 ==> s1[u] == t1[u])
      {
        if u != p.uri {
          assert u !in (set q | q in puts :: q.uri);
        }
      }
      WritesConverge(s1, t1, rest);
    }
  }
}
