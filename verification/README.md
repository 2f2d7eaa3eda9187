# bergrebase: a Dafny model

`bergrebase` moves an Apache Iceberg table to new storage. It rewrites every absolute URI in the table's metadata graph
(metadata document, manifest lists, manifests, position-delete bodies), writes the results under a new prefix, and then
re-points the table in a catalog. This project models the two machines that do so, and their composition, and proves
what a migration preserves. `dafny verify dfyconfig.toml` checks all of it.

**The graph rewriter.** `Graph` holds the objects in decoded form and the URI-keyed store. `Plan` says, as a pure
function of the store, what a rewrite does on storage that never faults: its result and the ordered list of its PUTs.
`Rewriter` is the same code in its own form: an `Engine` with nested loops, `DataFile` objects whose fields are set in
place, and a `Bucket` whose calls may fault, damage or truncate at any moment. Each method refines its plan: without
faults it has the plan's result and the plan's writes; with a fault it fails, having made a prefix of the planned writes
of which only the last may be damaged. `PlanFacts`, `Closure`, `Preserve`, `Retired`, `Lapsed`, `Pruning`, `SecondPass`,
`DryRun`, `Report`, `Hits`, `Blame` and `SideConditions` then reason about plans, and `Scan` defines, independently of the rewriter, what
a reader sees of a snapshot: the live rows after position and equality deletes, following "Scan Planning" and "Position
Delete Files" in the Apache Iceberg table specification.

**The swap protocol.** `Swap` models the REST client with its cached mode, against a server that answers each call in
any way and may take an effect that it reports as a failure.

**The composition.** `Migrate` is a step machine for one table, in which processes start, PUT, call the catalog, die in
the middle of anything and are started again, while other tables of the same store are migrated too. `OneTable` is
`migrateOne` as executed, `Coverage` shows that whatever it does is a path of the step machine, and `Batch` is the loop
over all tables, in which every migration leaves every other table in order.

**Concrete tables.** `Example` is a small table that meets all the hypotheses, and `TwoTables` a fleet of two. Each table
in `Counterexamples` breaks one condition and shows what then goes wrong; `Readmitted` does so for bounds. `SmallTables`
holds the tools for all of them.

**The rest.** `Json`, `Metadata` and `MetadataWrite` model the metadata document as a JSON tree, its typed view and its
in-place rewrite; `Audit` relates the hits of the walk to the document; `Float53` models the trip of a number through
float64 and `Numbers` what it does to the document; `Prefix` and `Lex` the prefix mapping and the byte
order of bounds; `Deletes` the position-delete bodies; `Namespaces` the breadth-first walk over a warehouse.

## Hypotheses

- Encoding followed by decoding gives back the object. In particular the manifest writer keeps each entry's status,
  snapshot id and sequence numbers (`w.Add(entry)`, internal/rewrite/manifest_write.go:161). The encoded length is an
  arbitrary function of the object (`Env.enc`), which may also refuse it.
- The source and the target handle address one store.
- The bulk copy placed every object of the source prefix at its mapped URI (`Preserve.Copied`).
- No manifest list, manifest or file that the walk or a reader reads is the twin of a stored object, that is, lies where
  the mapping puts an object that is also there under the source prefix (`Graph.Twin`, `PlanFacts.TwinFree`). Other objects
  under the target are allowed anywhere, as in a table of which some parts have been moved before. All lists name a
  manifest under one format version (`Closure.Orderly`).
- No position-delete row or reference is merged by the mapping with the path of a data file other than its own
  (`Scan.KeptApart`). By `Prefix.CollisionsAreTwins` that takes a row for one of two twins and a data file at the other.
- A position-delete file outside the source prefix names nothing inside it (`Preserve.Settled`).
- Integers of the metadata document make their trip through float64 by an arbitrary function `Env.num` that keeps zero and
  does not confuse the current snapshot id with that of an earlier snapshot (`Migrate.CurrentKept`). For what float64
  does, on documents whose integers are of magnitude at most 2^53, `Numbers.SmallIdsKept` proves both.
- Besides migrations under the same prefix mapping, no writer touches the metadata graph, and no other writer moves the
  pointer of the table under migration. Migrations of other tables may do to the store whatever this program does, dying
  included; only a PUT that dies halfway must not hit an object that both tables rewrite (`Migrate.Spared`).

`Example.TableIsSound`, `Example.TableMoves` and `Example.BoundsAreSound` exhibit a table, with position deletes and a
flat V1 list, that meets them all and is moved. `TwoTables.PairIsSound` does so for the joint hypotheses of `Batch.Run`,
and `Float53.RoundingIsATrip` for those of `Numbers`.

## Where the code falls short of what it says

Each is a lemma with the exact condition, and where the failure is not plain from it, with a concrete input.

- A bound shorter than the source prefix is left alone because it "cannot exclude the file"
  (internal/rewrite/manifest_write.go:343-345). It can: `Pruning.TruncatedBoundExcludes`. Sound bounds over a body that
  mixes source and target rows can come out inverted: `Pruning.MixedBodyInverts`. The exact conditions are
  `Pruning.MixedBodyIff`, for any bounds over any accepted body, `Pruning.BoundsStaySoundIff`, for sound ones, and, for
  what a reader of a whole snapshot sees, `Pruning.PrunedScanIff`. In `Readmitted.TruncatedBoundReadmits` a deleted row
  comes back.
- A manifest inside the source prefix whose entries all lie outside it is returned unchanged, so the rewritten list still
  names its source path, and the snapshot cannot be read once the source is retired: `Retired.RetiredScanIff`,
  `Counterexamples.StrayManifestLost`.
- A position-delete file outside the prefix is never rewritten, so a row comes back when all deletes of it are in such
  files and its data file moved: `Lapsed.SnapshotPreservedIff`, `Counterexamples.DeletedRowReturns`.
- A manifest named by lists of two format versions is encoded twice at one URI, and the first list's
  `manifest_length` goes stale exactly when the encodings differ in length: `SideConditions.SharedManifestLengthIff`,
  `Counterexamples.TwoVersionsBreakClosure`.
- The metadata document passes through float64, which alters ids above 2^53; the current snapshot may then resolve to
  another one: `Preserve.CurrentPreservedIff`, `Float53.TripTight`, `Numbers.CurrentChanges`.
- The fallback after a 400 can strand a table, and a later swap of another table can still find the server atomic, so the
  atomic mode does not imply that no table is absent: `Swap.AtomicAbsentIff`, `Swap.StrandedThenAtomic`.
- A swap between equal locations reports success without looking at the catalog: `Swap.NilMeansNewIff`.
- The dry run does not decode a manifest's schema and partition spec, does not concatenate columns, encodes nothing and
  refuses nothing outside the prefix, and it numbers the rows of a body chunk by chunk, so it can pass where the live run
  fails, or name another row: `DryRun.LiveSucceedsIff`, `Counterexamples.CleanDryRunFails`, `Deletes.DryRowOffset`.
- The visited key of the namespace walk "is collision-free" (cmd/bergrb/main.go:391-393). Two namespaces share a key
  exactly when they are the same taken apart at the separator, and then the walk loses what is reachable:
  `Namespaces.SameKeyIff`, `Namespaces.ListAllNamespaces`, `Namespaces.DropsNamespace`.
- Two URIs are merged by the mapping exactly when one is under the source and the other is its twin under the target:
  `Prefix.CollisionsAreTwins`, `Prefix.TwinsCollide`. So a delete written for one of two twins reaches the other:
  `SideConditions.MergedMarksIff`.
- A re-run picks up where a killed run stopped, provided it reads no twin of a stored object (`PlanFacts.ResumeConverges`).
  Otherwise it can read what the killed run damaged before it would write it again, and stop there for good:
  `Counterexamples.TwinReadBreaksResume`.

## Model

| member | source | states |
|---|---|---|
| `Prefix.AcceptedIffDisjoint` | cmd/bergrb/main.go:132-149 | the prefix checks accept a mapping exactly when both prefixes end in a slash and no URI lies under both |
| `Prefix.RefusalNamesRule` | cmd/bergrb/main.go:132-149 | the error of a refused mapping names the first rule it breaks |
| `Prefix.ApplyUnapply` | internal/rewrite/prefix.go:24-38 | an in-scope URI lands under the target and can be taken back; anything else is left alone; applying twice is applying once |
| `Prefix.CollisionsAreTwins` | internal/rewrite/prefix.go:26-31 | two URIs are merged exactly when one is the target-side twin of the other |
| `Prefix.ApplyInjectiveOffTarget` | internal/rewrite/prefix.go:26-31 | off the target prefix the mapping neither merges nor separates URIs |
| `Prefix.TwinsCollide` | internal/rewrite/prefix.go:26-31 | a counterexample family: a source URI and its target twin are merged |
| `Lex.SwapKeepsOrder` | internal/rewrite/manifest_write.go:371-374 | exchanging the prefix keeps and reflects the lexicographic order of source URIs |
| `Json.WrittenTreeFramed` | internal/rewrite/metadata_write.go:63-150 | the written document has the shape of the one read; strings change at the listed positions only, numbers only by the float64 trip |
| `Json.ListedIff` | internal/rewrite/metadata_write.go:75-150 | the listed positions, key by key and for every path into a document |
| `Metadata.SelectSnapshots` | internal/rewrite/walker.go:248-259 | the selected snapshots are exactly all of them, or the current one when only that is wanted and it resolves |
| `Metadata.WalkMetadataJSON` | internal/rewrite/metadata_json.go:83-135 | the loops report the listed fields of the parsed document in order; `Audit.WalkReportsDocument` says what that amounts to |
| `Audit.WalkReportsDocument` | internal/rewrite/metadata_json.go:78-135 | on a well-typed document the walk, empty values aside, reports exactly the path-bearing positions of the document that the in-place rewrite reports outside snapshot summaries |
| `Metadata.ParseCommutes` | internal/rewrite/metadata_write.go:24-53 | parsing what was written equals moving what was parsed, on every document, ill-typed ones included |
| `MetadataWrite.DocRewriter.ApplyMapping` | internal/rewrite/metadata_write.go:63-150 | the in-place rewrite maps exactly the listed positions; changed means the document differs, and that some hit shows a change; hits and reportable positions correspond both ways |
| `MetadataWrite.DocRewriter.MutString` | internal/rewrite/metadata_write.go:67-74 | one hit per visited value; changed is raised exactly when a value differs |
| `MetadataWrite.DocRewriter.MutSummary` | internal/rewrite/metadata_write.go:97-109 | only in-scope summary values are mapped and reported, in whatever order the keys come |
| `Float53.Round53IsNearest` | internal/rewrite/metadata_write.go:34-37 | the rounding has at most 53 significant bits, and no such value is nearer |
| `Float53.TripExactBelow` | internal/rewrite/metadata_write.go:34-44 | integers of magnitude at most 2^53 survive decode and re-encode |
| `Float53.TripInjectiveBelow` | internal/rewrite/metadata_write.go:34-44 | distinct ids in that range stay distinct |
| `Float53.RoundingIsATrip` | internal/rewrite/metadata_write.go:34-44 | rounding is such a trip: rounding twice is rounding once |
| `Float53.TripTight` | internal/rewrite/metadata_write.go:34-44 | the bound is tight: 9007199254740993, which is 2^53 + 1, comes back as 2^53, whatever decimal is printed |
| `Numbers.UnchangedIff` | internal/rewrite/metadata_write.go:34-44 | a document is unchanged by the trip exactly when every number in it is |
| `Numbers.SmallNumbersKept` | internal/rewrite/metadata_write.go:34-44 | a document whose integers are of magnitude at most 2^53 is written with its URIs moved and nothing else changed |
| `Numbers.SmallFieldsKept` | internal/rewrite/metadata_json.go:17-48 | so every integer field of the parsed document survives |
| `Numbers.SmallIdsKept` | internal/rewrite/metadata_json.go:29-35 | all snapshot ids and the current one survive, which discharges the hypotheses on numbers of the main theorems |
| `Numbers.WholeRunKeepsIds` | cmd/bergrb/main.go:416-461 | at every moment of every run the table that the pointer leads to has the snapshot ids it had |
| `Numbers.CurrentChanges` | internal/rewrite/metadata_write.go:34-44 | two snapshots with ids 2^53 and 2^53 + 1, of which the second is current before the trip and the first after it |
| `Deletes.RewriteFilePathColumn` | internal/rewrite/positiondelete.go:227-252 | fails exactly when some row has neither prefix, naming the first; otherwise nulls and empties stay and every other row is mapped in place |
| `Deletes.ConcatChunks` | internal/rewrite/positiondelete.go:207-216 | all rows in order; no chunk at all is an error |
| `Deletes.RewriteColumns` | internal/rewrite/positiondelete.go:80-112 | the column loop over an array computes the body conversion, stopping at the first column that fails |
| `Deletes.ConvertedRows` | internal/rewrite/positiondelete.go:89-112 | over any chunking, the converted body has the same positions and the same paths mapped, and is marked changed exactly when some row was in scope |
| `Deletes.OtherColumnsKept` | internal/rewrite/positiondelete.go:80-112 | the converted body has the same columns by order and name; every column other than file_path, of text or numbers, holds the rows it held |
| `Blame.BodyAcceptedIff` | internal/rewrite/positiondelete.go:62-112 | a body is accepted exactly when it has one file_path column of text, a chunk in every column, and no row other than null, empty, or under one of the two prefixes; the row that a refusal names is the first other one |
| `Deletes.CheckBody` | internal/rewrite/positiondelete.go:156-167 | the chunk-wise check of the dry run |
| `Deletes.ChunkwiseEqualsWhole` | internal/rewrite/positiondelete.go:156-166 | checking chunk by chunk finds a foreign row exactly when the whole column has one |
| `Deletes.DryRowOffset` | internal/rewrite/positiondelete.go:156-166 | the foreign row that the dry run names counts from its chunk; the rewrite adds the rows of all chunks before it |
| `Deletes.DryCheckVsRewrite` | internal/rewrite/positiondelete.go:142-168 | the dry check accepts exactly what the rewrite accepts, save for columns without chunks |
| `Storage.Bucket.PutObject` | internal/rewrite/walker.go:24-28 | a PUT may land, be refused, or leave a damaged object, reporting an error or, after truncating, success |
| `Storage.Bucket.PutAndVerify` | internal/rewrite/put.go:19-32 | success means that the object is stored as written, silent truncation included |
| `Rewriter.IsPuffinPath` | internal/rewrite/manifest.go:163-180 | the byte loop recognises the extension in any mix of cases |
| `Rewriter.DataFile.RewriteBounds` | internal/rewrite/manifest_write.go:346-379 | only the file_path bounds change, in place; the result says whether anything did |
| `Rewriter.DataFile.FixupStats` | internal/rewrite/manifest_write.go:315-337 | in-place correction of bounds, size, split offsets and column sizes; changed exactly when a field is |
| `Rewriter.Engine.RewritePositionDeleteFile` | internal/rewrite/positiondelete.go:62-134 | refines the plan of a body rewrite under arbitrary storage faults |
| `Rewriter.Engine.WalkPositionDeleteFile` | internal/rewrite/positiondelete.go:142-168 | refines the dry check of a body and writes nothing |
| `Rewriter.Engine.RewriteEntry` | internal/rewrite/manifest_write.go:71-129 | one entry, mapped in place, with its hits and its mutated flag |
| `Rewriter.Engine.RewriteManifest` | internal/rewrite/manifest_write.go:42-184 | refines the plan of a manifest: returned unchanged, refused, or written at the mapped URI with its recorded length |
| `Rewriter.Engine.WalkManifest` | internal/rewrite/manifest.go:115-156 | refines the plan of the dry walk; no PUT |
| `Rewriter.Engine.RewriteManifestList` | internal/rewrite/manifest_write.go:236-261 | refines the plan of a list write, header preserved |
| `Rewriter.Engine.RewriteListed` | internal/rewrite/walker.go:127-180 | refines the plan of one manifest list: skip, refuse or write |
| `Rewriter.Engine.RewriteFlat` | internal/rewrite/walker.go:187-208 | refines the plan of one V1 manifest, its descriptor built from HEAD |
| `Rewriter.Engine.RewriteSnapshot` | internal/rewrite/walker.go:126-209 | refines the plan of a snapshot, list first, flat list after |
| `Rewriter.Engine.RewriteMetadataJSON` | internal/rewrite/metadata_write.go:24-53 | refines the plan of the document write; its hits are exactly the reportable positions, and one shows a change exactly when the document changes |
| `Rewriter.Engine.RewriteTable` | internal/rewrite/walker.go:99-239 | refines the plan of the table under arbitrary faults: same result and writes without a fault, the hits of the walk followed by those of the document write, and a prefix of the writes and a storage error with one |
| `PlanFacts.TableTargetOnly` | internal/rewrite/walker.go:99-239 | every PUT of every run, refused ones included, goes under the target prefix; a dry run makes none |
| `PlanFacts.SourceImmutable` | internal/rewrite/manifest_write.go:136-145 | whatever happens to a run, no object outside the target prefix changes |
| `PlanFacts.MetadataLast` | internal/rewrite/walker.go:223-227 | the metadata document is the last write, after all selected lists and manifests |
| `PlanFacts.TableTwinOnly` | internal/rewrite/walker.go:115-227 | a run that reads no twin of a stored object PUTs to such twins only |
| `PlanFacts.TableInsensitive` | internal/rewrite/walker.go:115-227 | then no read depends on a write: stores that agree, save at the twins of stored objects, give the same run |
| `PlanFacts.LoopWrites` | internal/rewrite/walker.go:136-155 | a loop of such steps writes what its steps write on the original store, succeeds when all do, and fails with an error of one of them |
| `PlanFacts.ResumeConverges` | internal/rewrite/walker.go:115-227 | if no read is the twin of a stored object: from any store that agrees with the original outside the run's own write set, a full run makes the same writes and ends in the same store |
| `PlanFacts.InterruptedThenResumed` | internal/rewrite/put.go:19-32 | so does a run resumed after any crash, a damaged last object included |
| `Counterexamples.TwinReadBreaksResume` | internal/rewrite/walker.go:126-179 | a table with a list that is the twin of another: a crash damages it, and the resumed run fails on reading it, before it would write it again |
| `Closure.TableCanonical` | internal/rewrite/walker.go:126-227 | every PUT of a run is the rewrite, computed from the original store, of the source object whose URI maps to it; so distinct objects never share a target URI, and an object rewritten often is rewritten alike |
| `Closure.BottomUpClosure` | internal/rewrite/walker.go:134-179 | from the moment a list is PUT, and ever after in the run, each of its entries names a stored manifest of exactly the recorded length |
| `Scan.AdmitsWithinBounds` | internal/rewrite/manifest_write.go:291-297 | the equal-bounds shortcut of engines is the bounds test |
| `Scan.PrunedEqualsUnpruned` | internal/rewrite/manifest_write.go:302-306 | a reader that skips delete files by sound bounds sees what a reader of every body sees |
| `Scan.RemovesCarried` | internal/rewrite/manifest_write.go:101-128 | between corresponding entries whose URIs are not merged, a delete removes a row exactly when its counterpart does: path equality, reference and sequence number survive |
| `Scan.LiveRowsSameIff` | internal/rewrite/manifest_write.go:291-306 | two readings of the same files, from different stores, with different entries, with or without bounds, agree exactly when every row meets the same fate in both |
| `Scan.LiveRowsCarried` | internal/rewrite/manifest_write.go:71-129 | corresponding entries in two stores yield the same live rows, file by file |
| `Preserve.RewrittenIffTouched` | internal/rewrite/manifest_write.go:69-134 | an entry is changed exactly when its path or its reference is in scope |
| `Preserve.ManifestOutcome` | internal/rewrite/manifest_write.go:131-183 | a manifest is written exactly when it names something in scope, and then it is in the prefix, is the last PUT, holds the rewritten entries, and the descriptor records its path, length, content, both sequence numbers, and the format version, partition spec id and snapshot id it had |
| `Preserve.ListOutcome` | internal/rewrite/walker.go:158-178 | a list is written exactly when it lies in the prefix, as the last PUT, with its version and header as they were and the descriptors of its manifests in order |
| `Preserve.EntryFields` | internal/rewrite/manifest_write.go:71-129 | an entry field by field: status, snapshot id, sequence number, content, partition and record count kept; path and reference mapped; for a delete file in scope the size of the new body, split offsets and column sizes cleared; for any other entry size, bounds, split offsets and column sizes kept |
| `Preserve.SummariesKept` | internal/rewrite/manifest_write.go:186-225 | counts and partition summaries, being functions of status, record count and partition, are unchanged |
| `Preserve.LeavesSourceIffHomed` | internal/rewrite/manifest_write.go:131-134 | a list entry leaves the source prefix exactly when its manifest, if in the prefix, names something in scope |
| `Preserve.ManifestReadable` | internal/rewrite/manifest_write.go:154-183 | the rewritten descriptor leads to the same entries, rewritten |
| `Preserve.FileCarried` | internal/rewrite/positiondelete.go:62-134 | every live entry's file is found at its mapped URI with the recorded size and the mapped content |
| `Preserve.SnapshotPreserved` | internal/rewrite/walker.go:126-209 | a rewritten snapshot is complete and yields the same live rows |
| `Preserve.NewMetadata` | internal/rewrite/walker.go:223-227 | the new location holds the parsed document with every URI moved |
| `Preserve.ScanPreserved` | internal/rewrite/walker.go:126-227 | after a successful run every selected snapshot read from the new location yields the same live rows, with the source in place and, if every in-prefix manifest names something in scope, without it |
| `Preserve.CurrentPreservedIff` | internal/rewrite/metadata_json.go:17-27 | the current pointer resolves as before exactly when float64 confuses it with no earlier snapshot |
| `Retired.SnapshotRetiredIff` | internal/rewrite/manifest_write.go:131-134 | without the source prefix the graph below a moved snapshot is complete exactly when every in-prefix manifest of its list names something in scope |
| `Retired.RetiredScanIff` | internal/rewrite/walker.go:126-227 | with the source retired a selected snapshot reads as before from the new location if and only if that condition holds |
| `Counterexamples.StrayManifestLost` | internal/rewrite/manifest_write.go:131-134 | a table with one in-prefix manifest of one out-of-prefix file: it reads as before with the source in place, and not at all without |
| `Lapsed.RemovesUnlessLapsed` | internal/rewrite/positiondelete.go:63-65 | in the moved table an entry removes a row exactly when it did before, unless it is a delete file outside the prefix and the data file moved |
| `Lapsed.SnapshotPreservedIff` | internal/rewrite/positiondelete.go:63-65 | a rewritten snapshot reads as before exactly when no removed row had only such deletes |
| `Counterexamples.DeletedRowReturns` | internal/rewrite/positiondelete.go:63-65 | a table whose deleted row is live after a successful run |
| `Pruning.BoundValueMapped` | internal/rewrite/manifest_write.go:346-379 | the bounds rewrite changes the file_path bound and no other column's |
| `Pruning.BoundsByField` | internal/rewrite/manifest_write.go:346-379 | bound by bound: those of field 2147483546 are mapped, and no other |
| `Pruning.FullBoundsCover` | internal/rewrite/manifest_write.go:339-379 | bounds that carry the full source prefix and cover a body still cover it after the rewrite |
| `Pruning.BoundsStaySoundIff` | internal/rewrite/manifest_write.go:342-345 | exactly when sound bounds stay sound, whatever the bounds: rows across the prefixes from a bound must sort right on the source side, and a bound under neither prefix must sort right against the target prefix |
| `Pruning.TruncatedBoundsIff` | internal/rewrite/manifest_write.go:342-345 | for bodies of source rows that comes to truncated bounds sorting on the right side of the target prefix |
| `Pruning.TruncatedBoundExcludes` | internal/rewrite/manifest_write.go:342-345 | a truncated lower bound that excludes the moved file |
| `Pruning.MixedBodyIff` | internal/rewrite/positiondelete.go:240-248 | exactly when mapped bounds cover a mapped body, for any bounds and any accepted mix of source and target rows |
| `Pruning.MixedBodyInverts` | internal/rewrite/positiondelete.go:240-248 | sound bounds over a mixed body that come out inverted |
| `Pruning.PrunedScanPreserved` | internal/rewrite/manifest_write.go:299-337 | with sound bounds that fit, the exact condition of `BoundsStaySoundIff`, a bounds-consulting reader of the rewritten snapshot sees what a reader of every delete file saw in the original |
| `Pruning.PrunedScanIff` | internal/rewrite/manifest_write.go:299-379 | whatever the bounds, it does exactly when every row that was removed has a delete that its rewritten bounds still let apply |
| `Pruning.FullBoundsFit` | internal/rewrite/manifest_write.go:339-379 | sound bounds that carry the full source prefix fit, in bodies that name nothing under the target |
| `Readmitted.TruncatedBoundReadmits` | internal/rewrite/manifest_write.go:342-345 | the example table with a truncated, rounded-up upper bound: the run succeeds, a reader of every delete file sees the snapshot as it was, and one that consults bounds gets a deleted row back |
| `SecondPass.PuffinKept` | internal/rewrite/manifest.go:158-180 | moving a file does not change whether it is a Puffin file |
| `SecondPass.PuffinBySuffix` | internal/rewrite/manifest.go:158-180 | a Puffin file is one whose URI ends in .puffin, each character in either case |
| `SecondPass.SecondPassNoOp` | internal/rewrite/manifest_write.go:69-134 | rewriting a manifest that a first pass returned issues no PUT and returns its input |
| `DryRun.EntryPredicted` | internal/rewrite/manifest.go:125-154 | the dry walk of an entry predicts its rewrite |
| `DryRun.DryRunPredicts` | internal/rewrite/walker.go:136-221 | the report of a live run lists the dry run's hits, then those of the document write; after a clean dry run only out-of-prefix refusals, zero-chunk columns, encode failures and bad headers are left; no PUT |
| `DryRun.EntrySucceedsIff` | internal/rewrite/positiondelete.go:62-168 | an entry is rewritten exactly when the dry walk accepts it, every column of its body has a chunk, and the body, if it changes, can be encoded |
| `DryRun.ManifestSucceedsIff` | internal/rewrite/manifest_write.go:42-184 | a manifest is rewritten exactly when the dry walk accepts it, its header decodes, its bodies are ready, and if it moves, it lies in the prefix and can be encoded |
| `DryRun.ListSucceedsIff` | internal/rewrite/walker.go:127-180 | the same for a list: its manifests are ready, it lies in the prefix if one of them moves, and it can be encoded if it is written |
| `DryRun.LiveSucceedsIff` | internal/rewrite/walker.go:99-239 | a live run succeeds exactly when the dry run does and the table is ready: all its snapshots are, and the document, if it changes, can be encoded |
| `Blame.ErrorsAreTrue` | internal/rewrite/walker.go:99-239 | whatever error a run returns, live or dry, is true of the object it names: missing, undecodable in its role, of an unsupported kind, outside the prefix though it would move, not a position delete, with a foreign row, without chunks, or refused by the encoder |
| `Blame.FailsIffBlamed` | internal/rewrite/walker.go:99-239 | a run fails exactly when some such error is true |
| `Counterexamples.CleanDryRunFails` | internal/rewrite/manifest_write.go:136-145 | a table with an out-of-prefix manifest of an in-prefix file: the dry run is clean, the live run refuses |
| `Report.CountersCountPuts` | internal/rewrite/walker.go:150-153 | the counters of a successful run are the numbers of lists and manifests it PUT |
| `Report.MovedIffReported` | internal/rewrite/manifest_write.go:69-134 | a manifest is replaced exactly when one of its hits shows a changed URI |
| `Hits.EntryReports` | internal/rewrite/manifest.go:125-154 | live or dry, an entry is reported by its path and then by its non-empty reference, each with the value read and that value mapped, changed or not |
| `Hits.ManifestReports` | internal/rewrite/manifest.go:115-156 | a manifest is reported entry by entry, in order, and by nothing else |
| `Hits.ListReports` | internal/rewrite/manifest.go:35-43 | a list is reported by each manifest it names, old and new path, in order, and then manifest by manifest |
| `Hits.TableReports` | internal/rewrite/walker.go:124-207 | a report holds the hits of the document and then those of the walked snapshots; a hit is in it exactly when the document, a walked list or an entry of a walked manifest gives rise to it; its new value is its old one mapped |
| `SideConditions.OutsideDeletesFollowIff` | internal/rewrite/positiondelete.go:63-65 | the marks of a body outside the prefix follow the moved paths exactly when none of its rows is in scope; `Lapsed.SnapshotPreservedIff` carries this to live rows |
| `SideConditions.MergedMarksIff` | internal/rewrite/positiondelete.go:240-248 | a converted body marks a row of a moved file as before, unless the row was not marked and a row of the file's twin is |
| `SideConditions.SharedManifestLengthIff` | internal/rewrite/manifest_write.go:156-170 | a length recorded for a manifest that two lists share is right after both are rewritten exactly when the two encodings of its rewritten entries are equally long |
| `SideConditions.LengthIsEncoding` | internal/rewrite/manifest_write.go:154-170 | the recorded length is that of the encoded manifest |
| `Counterexamples.TwoVersionsBreakClosure` | internal/rewrite/walker.go:134-179 | a table with a version 1 and a version 2 list of one manifest: the run succeeds and leaves the first list with a wrong length |
| `Swap.Client.SwapMetadataLocation` | internal/catalog/rest/rest.go:344-404 | result, pointers, cached mode and the sequence of calls are those of the protocol |
| `Swap.Client.SwapByDropRegister` | internal/catalog/rest/rest.go:415-436 | drop, register, rollback |
| `Swap.SwapContract` | internal/catalog/catalog.go:59-72 | when failed calls have no effect: nil means every pointer as before but this one new; an error means every pointer as at entry, except the reported double failure, which leaves this one absent |
| `Swap.NilMeansNewIff` | internal/catalog/rest/rest.go:351-353 | after nil the pointer is new exactly when the locations differ or it was new before |
| `Swap.StrandedIff` | internal/catalog/rest/rest.go:421-431 | the exact condition for a table to be stranded |
| `Swap.SwapStates` | internal/catalog/rest/rest.go:366-403 | under ambiguous replies the pointer is at every moment as at entry, absent or new, and other tables are untouched |
| `Swap.DropIssuedIff` | internal/catalog/rest/rest.go:366-394 | a drop is issued exactly in the cached drop+register mode or after an already-exists or 400 probe reply |
| `Swap.ProbeByStatus` | internal/catalog/rest/rest.go:376-402 | what each answer to the probe does, by status code: 400, 409 or a 4xx that names the duplicate is followed by a drop, and all of these but a bare 400 are remembered; success is remembered as atomic; anything else is returned with nothing called or remembered |
| `Swap.ProbeCodes` | internal/catalog/rest/rest.go:222-242 | the same for 409, 403, 400 and 500, with and without the duplicate named |
| `Swap.ResultNamesLastCall` | internal/catalog/rest/rest.go:344-436 | each result is returned exactly for the last call made and its reply |
| `Swap.DriftedIff` | internal/catalog/rest/rest.go:357-364 | a swap is refused as drifted exactly when the table is found at another location, and then nothing has changed |
| `Swap.AbsentOnlyAfterDrop` | internal/catalog/rest/rest.go:415-436 | the table is absent only after an issued drop since which every call has been a register that was not accepted, and never in atomic mode |
| `Swap.CancellationAfterProbe` | internal/catalog/rest/rest.go:406-418 | cancelling the caller once the drop can be issued changes nothing |
| `Swap.SectionUninterrupted` | internal/catalog/rest/rest.go:406-436 | every call of the section runs detached, and an accepted drop is followed by the register, a failed register by the rollback |
| `Swap.ModeCache` | internal/catalog/rest/rest.go:366-403 | over any sequence of swaps a known mode never changes; atomic implies an accepted overwrite, drop+register an already-exists reply |
| `Swap.OtherRepliesLeaveUnknown` | internal/catalog/rest/rest.go:388-402 | 400 and other errors leave the mode unknown |
| `Swap.AtomicMeansPresent` | internal/catalog/rest/rest.go:366-403 | without a bare 400 reply no state reached in atomic mode lacks a table |
| `Swap.AbsentAfterIff` | internal/catalog/rest/rest.go:366-436 | a table present before a swap is absent after it exactly when the swap issued a drop that took effect and neither register nor rollback did |
| `Swap.TurnInRun` | internal/catalog/rest/rest.go:344-404 | the calls of a sequence of swaps are those of its swaps, each from the state the ones before it left |
| `Swap.AtomicAbsentIff` | internal/catalog/rest/rest.go:366-403 | in a state reached in atomic mode a table is absent exactly when an earlier swap of it met a bare 400 and stranded it, and no other writer put it back since |
| `Swap.StrandedThenAtomic` | internal/catalog/rest/rest.go:388-394 | with one, a table can be absent in atomic mode |
| `Migrate.StepKeeps` | cmd/bergrb/main.go:416-461 | every step of the machine, crashes, re-runs and work on other tables included, keeps the invariant |
| `Migrate.WholeRunSafe` | cmd/bergrb/main.go:416-461 | at every moment of every run the pointer, if there is one, is the old or the new location and leads to a complete graph that reads as the original table; it is absent only after a drop whose register and rollback have not succeeded |
| `Migrate.OldReads` | internal/rewrite/walker.go:93-99 | writes under the target do not disturb the reading of the old table |
| `Migrate.NewReads` | internal/rewrite/walker.go:93-99 | any store that holds what the run wrote, read or copied reads, from the new location, as the original table, current snapshot included |
| `OneTable.MigrateOne` | cmd/bergrb/main.go:416-461 | verdict, store and catalog after one migration, and, under a storage fault, a failure that leaves the catalog alone |
| `OneTable.OkIff` | cmd/bergrb/main.go:416-461 | a migration is counted ok exactly when the table is loaded and is under the target already, or its rewrite succeeds and, unless the run is dry, so do its swap and, unless switched off, its validation |
| `OneTable.ValidationDecides` | cmd/bergrb/main.go:454-459 | the outcome of validation changes the verdict exactly after a successful swap with validation on, and never the store or the catalog |
| `OneTable.ReasonNamesStep` | cmd/bergrb/main.go:416-461 | the reason of a failure names the step that failed |
| `OneTable.NewLocation` | internal/rewrite/walker.go:110-227 | the locations of a report: the old one as given, the new one mapped, unless a live run found nothing in the document in scope |
| `OneTable.OkMeansLanded` | cmd/bergrb/main.go:427-461 | a migration counted ok ends with a pointer under the target, unless nothing in the metadata was in scope |
| `OneTable.LandedStays` | cmd/bergrb/main.go:422-431 | a table that has landed stays so, whatever a further attempt meets |
| `OneTable.MigrationContained` | cmd/bergrb/main.go:416-461 | a migration touches no other table's pointer and no object outside the target |
| `Coverage.InterruptionReached` | internal/rewrite/put.go:19-32 | a rewrite cut short anywhere is a path of the step machine |
| `Coverage.MigrationReached` | cmd/bergrb/main.go:416-461 | whatever migrateOne meets, the table being at its old location, migrated or gone, what it leaves is a state the step machine reaches |
| `Coverage.MigrationSafe` | cmd/bergrb/main.go:416-461 | so a migration that starts in a safe moment ends in one, the absent case and the old-or-new location included |
| `Batch.WritesSpare` | internal/rewrite/walker.go:126-227 | what one table's run writes spares every other table: planned writes agree, damage stays off what the other rewrites |
| `Batch.AttemptKeepsAll` | cmd/bergrb/main.go:256-278 | a migration of any table leaves all tables in a state from which they read as the original |
| `Batch.Run` | cmd/bergrb/main.go:246-299 | tables are attempted once each in order, the totals add up, the returned error is the first, every table counted ok has landed, and no other pointer has moved; for tables jointly sound, from the original state or what interrupted runs left, every table with a pointer reads as its original, and every table counted ok has one |
| `Batch.FirstFailureIs` | cmd/bergrb/main.go:256-278 | the error that is returned is that of the first failed attempt |
| `Batch.OksCount` | cmd/bergrb/main.go:256-278 | the total counts the attempts that ended ok |
| `Example.TableIsSound` | internal/rewrite/walker.go:99-239 | a table that meets the hypotheses of the main theorems |
| `Example.TableMoves` | internal/rewrite/walker.go:99-239 | its rewrite succeeds and moves it |
| `Example.BoundsAreSound` | internal/rewrite/manifest_write.go:315-337 | the bounds of its delete entry are sound if the upper one is at or above the path it names, and full if it carries the source prefix |
| `TwoTables.PairIsSound` | cmd/bergrb/main.go:246-299 | two tables in one store that meet the joint hypotheses of `Batch.Run`, each with a run that does all its work |
| `Namespaces.SameKeyIff` | cmd/bergrb/main.go:391-394 | two namespaces share the visited key exactly when they are the same taken apart at the separator |
| `Namespaces.KeyOfTwo` | cmd/bergrb/main.go:388-391 | the separator of the key is U+001F, and unlike a dot keeps "a.b" apart from "a" over "b" |
| `Namespaces.JoinInjective` | cmd/bergrb/main.go:391-394 | so the key identifies a legal namespace |
| `Namespaces.JoinCollides` | cmd/bergrb/main.go:391-394 | two pairs that share a key, one of them with the empty namespace |
| `Namespaces.ListAllNamespaces` | cmd/bergrb/main.go:380-407 | on any finite graph, cycles and duplicates included, the loop ends; what it returns is reachable, under distinct keys, and is all that is reachable exactly when no two reachable namespaces share a key; then each comes once, by non-decreasing distance, and the walk fails exactly when a listing fails |
| `Namespaces.DropsNamespace` | cmd/bergrb/main.go:380-407 | a catalog with two roots that share a key, of which the walk returns at most one, though all listings succeed |

## Left out

- S3 and HTTP clients, URL building, credentials, flags other than the prefix rules, logging, signals other than the
  cancellation of the caller's context.
- Byte formats: Avro, Parquet, JSON text, the OCF header that `readManifestListHeader` parses, and Arrow reference
  counting. Objects are kept in decoded form; `lengthCountingWriter` becomes the length that the encoder reports.
- Reflection in the DataFile setters and its "API drift" errors: the setters are field updates.
- iceberg-go internals: V3 first-row-id assignment, and partition summaries beyond their being a function of the entries.
- Nested JSON objects and arrays are rewritten as values put back into their parents, not through aliases.
- JSON numbers that are not integers, Go's case-insensitive matching of struct keys, and int64 overflow while parsing.
- The text of hit labels; entry hits do not carry the entry's index. The counter of statistics files and `Skipped`.
- An object of the right length but other content that storage reports as stored: neither the code nor `Bucket` notices.
- The three-minute bound on the detached section: a call that exceeds it is one more transport error.
- Other writers to the table between drift check and register: pausing them is the caller's duty.
- `ValidateAfterSwap` only reads; its verdict is an input of `OneTable.MigrateOne`.
- The listing of tables in `selectBatches`, which is straight-line code around catalog calls.
