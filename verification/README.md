# p2plab in Dafny

p2plab runs benchmarks of IPFS nodes: a daemon keeps clusters, nodes, scenarios, benchmarks
and experiments in a key/value file, plans which node does what, and has agents do it. This
project models the parts of it that hold closed logic and proves what they are relied on for.

Each part is given in the form the code has: loops over maps, buckets and slices are methods
with loops, objects that change are classes, and what a method does is tied to functions and
predicates about which the general properties are proved. Goroutines are interleaved steps;
maps are iterated in an arbitrary order; whatever the outside world answers is a parameter.

## The parts

- **Queries** (`QuerySyntax`, `QueryParser`, `QueryRoundTrip`, `LabeledSets`, `QueryMatch`).
  Characters, tokens, trees and sets. A text means at most one tree; printing and parsing are
  inverse on all texts that parse but a lone parenthesis; matching is the boolean meaning of
  the tree. The glob library is two unknown predicates.
- **Plans and reports** (`Planning`, `ReportBuckets`, `PlannedReports`). From a scenario to
  stages of tasks, and from the table of queries back to groups of nodes whose names are
  themselves queries.
- **The store** (`Buckets`, `IndexedLists`, `MetadataHelpers`, `FitBuckets`, the `...Codec` modules). A
  bucket is a finite map from keys to values or buckets; a handle is a path from the root of a
  transaction. For every reader and writer there is a function on bucket values, the code's
  method is proved to do just that inside the transaction, and the functions are proved to
  read back what was written, in a stated normal form, over any bucket earlier writes left.
- **The store's calls** (`StoreRecords`, `RecordLaws`, `StoreTree`, `StoreSteps`,
  `StoreRefinement`, `StoreFormat`, `CallRefinement`, `StoreRuns`, `StoreFrames`, `LabelBatch`,
  `RecordRuns`, `ExperimentRuns`, `BenchmarkRuns`, `LabelRuns`, `StoreCode`, `Database`). Create,
  update, label, delete, get, list and the two report calls, on the bucket tree and on a plain
  store of records. The five kinds of records have textually parallel code; they share one
  definition here, by kind. What the refinement needs of the codecs is collected in one
  predicate, `Faithful`, which the store's own format is proved to meet; what follows for runs is
  stated for every store that refines the plain one, and the store's own does. What the calls do
  to records is stated field by field as well, apart from the codecs' normal forms. A benchmark
  with a CID whose text does not parse is stored and does not read: the plain store keeps such a
  record as None.
- **Clusters** (`Lifecycle`). Creating and deleting a cluster against the provider, and what
  every state that was ever committed says.
- **Runs** (`Groups`, `ScenarioRun`, `Connect`, `UpdateNodes`). Groups of goroutines with a
  barrier, the phases of a benchmark, who dials whom, and which build each node gets.
- **Smaller machines** (`AppSupervisor`, `DagWalk`, `SizeReader`).
- `Results`, `GoStrings`, `Numbers` and `Records` hold what the others share.

## What the code does that one might not expect

- A lone `(` or `)` is taken as a label (query/query.go:47-49), although its printed form does
  not parse; a single token needs no quotes; `(and)` and `(or)` without arguments are accepted,
  although the grammar in the comment asks for one (query/query.go:182-184, 226-228).
- Several queries in a stage do not add up unless they plan the same tasks: the one looked at
  last decides (scenarios/plan.go:102, 141).
- Relabelling several ids shares one shrinking set of labels to add, so a later id can miss a
  label that an earlier one already had (metadata/helpers.go:158, 167); after an id that comes
  twice, later ids get no label to add that is not also removed (metadata/helpers.go:143, 158).
- Listing stops at the first record that does not read: one benchmark with a CID whose text does
  not parse, and no benchmark can be listed (metadata/benchmark.go:119-133, 314-319). Such a
  benchmark is accepted like any other, but it reaches the store only through the store's own
  interface: the plans that the daemon makes take their CIDs from the transformers.
- An experiment that has reports can no longer be updated with reports or relabelled, not even
  written back as it was read, because its report buckets are created and not recreated
  (metadata/experiment.go:324-328). Without reports it can.
- The check of cluster ids is not anchored at the end of the id, so `a b` is one
  (metadata/validate.go:25).
- A cluster group without a region or an instance type gives an empty label, which cannot be
  stored (metadata/cluster.go:74-91).
- Creating nodes in an unknown cluster creates that cluster, with nothing but its id, and so does
  relabelling none of its nodes (metadata/buckets.go:125-127).
- After an app failed to launch, the next request to the supervisor fails on what is left of it,
  and only the one after that can succeed (labagent/supervisor/supervisor.go:132-139, 195-201).
- Nodes that share a peer can come in between the nodes of another peer; then neither peer dials
  the other (nodes/connect.go:79-101).

## Model

| member | source | states |
|---|---|---|
| QueryParser.Tokenize | query/query.go:61-75 | tokenizing by padding, splitting and trimming gives exactly the character-level lexing of the text |
| QueryParser.SplitIsLex | query/query.go:61-75 | the padded, split and trimmed pieces are the lexed tokens, whatever the white space |
| QueryParser.NewLabelQuery | query/query.go:271-289 | a label is built exactly when its quoted text names a non-empty pattern that compiles |
| QueryParser.BuildQuery | query/query.go:77-108 | succeeds exactly when the non-empty token list is the canonical token sequence of a well-formed tree, and returns that tree |
| QueryParser.BuildExpression | query/query.go:110-144 | the matching-parenthesis scan terminates within range and succeeds exactly when the tokens are those of a list of well-formed trees |
| QueryParser.NextUnit | query/query.go:116-141 | if the unit the scan found is no query, no reading of the whole list exists |
| QueryParser.NoUnit | query/query.go:116-134 | if the scan finds no matching parenthesis, no reading of the whole list exists |
| QuerySyntax.TokensInjective | query/query.go:77-144 | a token list is the canonical sequence of at most one tree |
| QuerySyntax.UnitPrefixUnique | query/query.go:116-134 | the unit at the front of a token list is unique, so the scan cannot cut elsewhere |
| QueryParser.Parse | query/query.go:37-59 | parsing returns the meaning of the text, or an invalid-argument error when it has none |
| QuerySyntax.String | query/query.go:157-159 | the printing loops give the printed form of the tree |
| QueryRoundTrip.PrintTokens | query/query.go:186-192 | lexing the printed form of a tree without delimiters in its labels gives back its canonical tokens |
| QueryRoundTrip.MeaningIsPrintable | query/query.go:37-59 | a text that parses gives a well-formed tree whose printed form parses back, unless the text is a lone parenthesis |
| QueryRoundTrip.ParenthesisParses | query/query.go:47-49 | the texts `(` and `)` parse, as labels, exactly when the pattern compiles |
| QueryRoundTrip.ParenthesisLabelRefused | query/query.go:47-49 | the printed form of a parenthesis label is refused |
| QueryRoundTrip.NoArguments | query/query.go:182-184 | `(and)` and `(or)` parse to operators without arguments |
| QueryRoundTrip.NotMeans | query/query.go:87-98 | the text `(not 'a')` means the negation of the label `a` |
| QueryRoundTrip.NestedMeans | query/query.go:77-144 | the text `(and (not 'a') (or 'a' 'b'))` means the conjunction of a negation and a disjunction |
| QueryRoundTrip.RoundTrip | query/query.go:37-75 | for every text that parses, the printed form parses to the same tree, except that it is refused when the text is a lone parenthesis |
| QueryRoundTrip.SendQuery | cmd/labctl/command/node.go:192-197 | the server rebuilds exactly the client's query, except a lone parenthesis, which it refuses |
| LabeledSets.LabeledSet.Add | query/labeled_set.go:33-35 | the element is put under its id and every other id is untouched |
| LabeledSets.LabeledSet.Remove | query/labeled_set.go:37-39 | the id is gone and every other id is untouched |
| LabeledSets.LabeledSet.Get | query/labeled_set.go:41-43 | the element under an id, or nil exactly when there is none |
| GoStrings.LessAtFirst | query/labeled_set.go:49-58 | ids and labels are in lexicographic order: the first place where they differ decides |
| LabeledSets.LabeledSet.Slice | query/labeled_set.go:49-58 | all elements, the same objects, strictly increasing by id |
| QueryMatch.LabelSelects | query/query.go:295-312 | a label pattern selects exactly the members with a label it matches, and `*` those without labels too |
| QueryMatch.NotSelects | query/query.go:161-176 | `not` selects exactly the members that its argument does not, the same objects |
| QueryMatch.AndSelects | query/query.go:194-220 | `and` selects the intersection of what its arguments select |
| QueryMatch.OrSelects | query/query.go:238-264 | `or` selects the union of what its arguments select |
| QueryMatch.Match | query/query.go:161-312 | matching selects exactly the members whose labels satisfy the tree's boolean meaning, as the same objects under the same ids |
| QueryMatch.MatchLabel | query/query.go:295-312 | exactly the members with a label the pattern matches |
| QueryMatch.MatchNot | query/query.go:161-176 | the input set without the members that the query selects |
| QueryMatch.MatchAnd | query/query.go:194-220 | exactly the members that every query selects |
| QueryMatch.MatchOr | query/query.go:238-264 | exactly the members that some query selects |
| QueryMatch.Execute | query/execute.go:23-40 | selects from the elements by id, the last of equal ids winning, or fails exactly when the text does not parse |
| QueryMatch.EmptyQuerySelectsAll | query/query.go:39-41 | an empty text selects every member, labelled or not, when `*` matches everything |
| Planning.AssignTasks | actions/actions.go:38-47 | every matched node, and no other, gets a get task for the CID of the object that the action names, or the undefined CID if it names none |
| Planning.PlanQuery | scenarios/plan.go:108-139 | for one query: its printed form, the ids it selects in increasing order, and a task for each of them |
| Planning.PlanObjects | scenarios/plan.go:38-67 | every object has the CID it was transformed to, or planning fails exactly when some transform fails |
| Planning.PlanSeed | scenarios/plan.go:70-103 | the seed stage is the task map of one of its queries, empty only when there is none; it fails exactly when some query does not parse |
| Planning.PlanBenchmark | scenarios/plan.go:106-142 | likewise for the benchmark stage, together with the table of printed queries and the ids each selects |
| Planning.Plan | scenarios/plan.go:31-145 | planning succeeds exactly when every object transforms and every query parses; each stage gives exactly the nodes that one of its queries selects the task to get what the object named by that query's action was transformed to |
| Planning.OneImage | scenarios/plan.go:106-142 | a stage of the query `'a'` for one object tells the node labelled `a`, and no other, to get the CID the object was transformed to |
| Planning.NotSelectsRest | query/query.go:161-176 | of a node labelled `a` and one that is not, the text `(not 'a')` selects the second |
| Planning.PrintedDeterminesMeaning | scenarios/plan.go:124 | two queries with the same printed form have the same meaning, so entries of the query table do not collide |
| Planning.StageWithinSet | scenarios/plan.go:70-142 | a stage names planned nodes only, and with a single query it is that query's task map |
| Planning.StagesAddUp | scenarios/plan.go:70-142 | whatever order the queries are looked at in, every node a query selects has its task in the stage, exactly when all the queries plan the same tasks for the same nodes |
| Planning.TwoQueriesLose | scenarios/plan.go:102 | with two queries that select one node each, either order leaves one of the nodes without its task |
| ReportBuckets.OneBucket | printer/report.go:149-171 | a node belongs to one bucket only |
| ReportBuckets.GroupingUnique | printer/report.go:149-178 | a report has one grouping: map iteration order cannot show |
| ReportBuckets.SortedKeys | printer/report.go:180-187 | the keys of a map, sorted, each once |
| ReportBuckets.QueriesByNode | printer/report.go:150-155 | inverts the query table, keeping how often each query lists each node |
| ReportBuckets.SortQueryBuckets | printer/report.go:149-178 | every node in exactly one bucket, buckets and names sorted, no empty bucket |
| ReportBuckets.TwoQueryReport | printer/report.go:149-178 | of three nodes, the one listed under `'a'` and `'b'` is in the bucket `(and 'a' 'b')`, the one listed under `'a'` in `'a'`, and the one listed nowhere in `-` |
| PlannedReports.BucketMeaning | printer/report.go:160-171 | a node is under `-` exactly when no benchmark query selects it; any other name parses exactly when none of the queries selecting the node is a lone parenthesis, and then exactly those labels match it that match every query selecting the node |
| PlannedReports.GroupingMeaning | printer/report.go:149-178 | every node has a bucket, `-` holds unmatched nodes only, and, without lone parentheses, the query a name parses to selects exactly the nodes selected by every query that selects the bucket's nodes |
| PlannedReports.GroupPlannedReport | scenarios/plan.go:105-145 | planning followed by grouping over the planned nodes, by the table planning made: every node in exactly one bucket, sorted, none empty, and named as above; it fails exactly when planning does |
| Numbers.AtoiInverse | metadata/cluster.go:415-416 | a number's decimal text reads back |
| Numbers.ItoaExamples | metadata/cluster.go:401-403 | the text of a number is in base ten |
| Numbers.ItoaInjective | metadata/cluster.go:401-403 | different indices have different texts |
| Buckets.Tx.Put | metadata/helpers.go:64 | a put changes the one key of the one bucket, and is refused for an empty key or a key that holds a bucket |
| Buckets.Tx.CreateBucket | metadata/helpers.go:22 | a bucket is created empty, and refused when the name is empty or in use |
| Buckets.Tx.DeleteBucket | metadata/helpers.go:16 | a bucket is deleted with all it holds, and refused when it does not exist |
| Buckets.Tx.KeysInOrder | metadata/helpers.go:80-83 | the keys of a bucket in increasing order, each once |
| MetadataHelpers.RecreateBucket | metadata/helpers.go:13-23 | whatever was under the key, an empty bucket is there after |
| MetadataHelpers.TimestampsReadBack | metadata/helpers.go:30-71 | both timestamps are stored in their own keys and nothing else changes |
| MetadataHelpers.ReadTimestamps | metadata/helpers.go:30-47 | missing timestamps are zero, unreadable ones an error |
| MetadataHelpers.WriteTimestamps | metadata/helpers.go:49-71 | writes exactly the two keys |
| MetadataHelpers.ReadMap | metadata/helpers.go:73-89 | reads the string map under a name |
| MetadataHelpers.WriteMap | metadata/helpers.go:91-124 | replaces the map under a name by its non-empty values, in the bucket and in the caller's map alike |
| MetadataHelpers.MapReadsBack | metadata/helpers.go:73-124 | a written map reads back without its empty values, and nothing stale survives |
| MetadataHelpers.ReadLabels | metadata/helpers.go:181-194 | the labels in increasing order, each once |
| MetadataHelpers.WriteLabels | metadata/helpers.go:196-221 | replaces the labels by exactly these |
| MetadataHelpers.LabelsReadBack | metadata/helpers.go:181-221 | written labels read back as a set, and nothing stale survives |
| NodeCodec.ListReadsBack | metadata/node.go:315-326 | a list kept in one value reads back exactly when it is not the list of one empty string and no element has a comma |
| NodeCodec.PeerReadsBack | metadata/node.go:299-395 | a peer definition reads back in normal form |
| NodeCodec.NodeReadsBack | metadata/node.go:263-365 | a written node reads back in normal form over any bucket left by earlier writes |
| NodeCodec.ReadNode | metadata/node.go:263-297 | reading a node is the decoding the read-back lemmas speak of |
| NodeCodec.WriteNode | metadata/node.go:336-365 | writing a node is the encoding the read-back lemmas speak of, confined to its bucket |
| IndexedLists.WalkCollects | metadata/cluster.go:317-361 | the walk over the indices collects the entries in index order, whatever their number |
| IndexedLists.WalkAdvances | metadata/cluster.go:317-361 | every index the walk finds is a new key, so the walk ends |
| IndexedLists.NextEntry | metadata/cluster.go:401-429 | creating and filling the bucket of the next index extends the written list by that entry |
| ClusterCodec.GroupReadsBack | metadata/cluster.go:309-432 | a group reads back in normal form |
| ClusterCodec.GroupsReadBack | metadata/cluster.go:309-432 | groups of any number read back in order, the tenth after the ninth |
| ClusterCodec.ClusterReadsBack | metadata/cluster.go:277-393 | a written cluster reads back in normal form over any bucket left by earlier writes, one holding nodes included |
| ClusterCodec.ReadClusterDefinition | metadata/cluster.go:309-364 | the index loop reads the whole list, or the first error |
| ClusterCodec.WriteClusterDefinition | metadata/cluster.go:395-432 | the definition bucket holds exactly the groups after a write |
| ClusterCodec.ReadCluster | metadata/cluster.go:277-307 | reading a cluster is the decoding the read-back lemmas speak of |
| ClusterCodec.WriteCluster | metadata/cluster.go:366-393 | writing a cluster is the encoding the read-back lemmas speak of, confined to its bucket |
| ScenarioCodec.ScenarioReadsBack | metadata/scenario.go:255-370 | a written scenario reads back without empty actions and with sorted labels, whatever was there before |
| ScenarioCodec.ReadScenario | metadata/scenario.go:255-283 | reading a scenario is the decoding the read-back lemmas speak of |
| ScenarioCodec.WriteScenario | metadata/scenario.go:312-338 | writing a scenario is the encoding the read-back lemmas speak of; empty actions leave the caller's maps |
| BenchmarkCodec.PlanReadsBack | metadata/benchmark.go:306-517 | a plan written to a new bucket reads back with both its stages, and unchanged exactly when its CIDs have non-empty texts that parse back; it does not read when a text does not parse |
| BenchmarkCodec.CidsRead | metadata/benchmark.go:306-323 | a plan's objects read back unchanged exactly when every CID has a text that parses back to it, and at all exactly when every non-empty text parses |
| BenchmarkCodec.BenchmarkReadsBack | metadata/benchmark.go:255-449 | a written benchmark reads back in normal form over any bucket left by earlier writes, or does not read when a CID's text does not parse; the report beside it is untouched |
| BenchmarkCodec.ReadBenchmark | metadata/benchmark.go:255-304 | reading a benchmark is the decoding the read-back lemmas speak of |
| BenchmarkCodec.WriteBenchmark | metadata/benchmark.go:373-449 | writing a benchmark is the encoding the read-back lemmas speak of, confined to its bucket |
| BenchmarkCodec.ReportDoesNotShow | metadata/report.go:139-151 | a benchmark reads the same whatever report lies beside it |
| ExperimentCodec.ReportsReadBack | metadata/experiment.go:264-277 | indexed reports read back in order |
| ExperimentCodec.WriteReports | metadata/experiment.go:308-347 | the first non-empty list is stored and an empty one keeps what is there; a write succeeds exactly when the id and the labels are not empty and reports are not written a second time |
| ExperimentCodec.ExperimentReadsBack | metadata/experiment.go:248-360 | a written experiment reads back under its own id: definition, status, times and sorted labels as written, and the first non-empty list of reports |
| ExperimentCodec.ReadExperiment | metadata/experiment.go:248-293 | reading an experiment is the decoding the lemmas speak of |
| ExperimentCodec.WriteExperiment | metadata/experiment.go:308-347 | writing an experiment is the encoding the lemmas speak of |
| ExperimentCodec.ReadReport | metadata/report.go:125-137 | a missing report is not found, a bad one an error |
| ExperimentCodec.WriteReport | metadata/report.go:139-151 | puts the report's text under its key |
| RecordLaws.NormalMirrors | metadata/cluster.go:277-432 | whatever kind it is of, a record reads back as it was given in every field: lists kept in one value when they have no comma, labels as a set, queries with an action, objects by the texts of their CIDs |
| RecordLaws.NormalIdempotent | metadata/cluster.go:277-432 | a record that was read and is written again reads back unchanged; a benchmark exactly when its CIDs have texts that parse back to them |
| RecordLaws.RelabelledReads | metadata/cluster.go:230-241 | a record read, given other labels and read again differs in its labels and the time of the change only, a benchmark's CIDs aside |
| StoreRecords.RecordFits | metadata/cluster.go:366-393 | on the buckets the store makes, a record is written exactly when none of its names is empty and it is not an experiment given reports a second time; the nodes or the report beside it stay |
| StoreTree.EnsureConcat | metadata/buckets.go:89-103 | creating what is missing along a path can be done in two stretches |
| StoreCode.GetBucket | metadata/buckets.go:76-87 | walking down finds the bucket exactly when the whole path exists |
| StoreCode.CreatePath | metadata/buckets.go:89-103 | creates exactly the missing buckets of a path, or fails on the first that cannot be created |
| StoreCode.KeepLabels | metadata/helpers.go:149-165 | the labels a record keeps, each leaving the set of labels to add |
| StoreCode.AddRest | metadata/helpers.go:167-170 | kept and remaining labels together, sorted, each once |
| StoreCode.BatchUpdateLabels | metadata/helpers.go:128-179 | relabels record after record with one shrinking set, or fails at the first missing id |
| StoreCode.CreateAll | metadata/node.go:147-165 | creates and stamps the records one after the other, or fails where the specification does |
| StoreCode.RemoveEach | metadata/scenario.go:241-249 | deletes the records one after the other, or fails at the first missing one |
| StoreCode.ReadEach | metadata/scenario.go:119-134 | lists all records of a collection in increasing order of id |
| StoreRefinement.ChangeRefines | metadata/buckets.go:105-163 | a change of one entry of one collection changes the represented plain store in that entry only, nodes and report included |
| StoreFormat.NodesDoNotShow | metadata/cluster.go:293-306 | a cluster reads the same whatever its nodes |
| StoreRefinement.OpenNodesRefines | metadata/buckets.go:125-127 | opening the nodes of an unknown cluster creates a cluster with nothing but its id |
| StoreFormat.EncWrites | metadata/cluster.go:366-393 | over whatever the store left in a bucket, each kind of record is written exactly when its rule allows it, and then the bucket holds its normal form |
| StoreFormat.FormatIsFaithful | metadata/experiment.go:248-347 | when times and JSON read back, the codecs of all five kinds keep to what the store relies on |
| CallRefinement.AddAllRefines | metadata/node.go:140-174 | creating records on the tree refines creating them on the plain store, refusals included |
| CallRefinement.RewriteRefines | metadata/cluster.go:193-217 | updating a record refines replacing it in the plain store, refusals included |
| CallRefinement.RelabelAllRefines | metadata/helpers.go:128-179 | relabelling on the tree refines relabelling on the plain store, refusals included |
| CallRefinement.RemoveAllRefines | metadata/benchmark.go:234-253 | deleting refines removing from the plain store, with the nodes of a cluster and the report of a benchmark |
| CallRefinement.PutReportRefines | metadata/report.go:104-123 | writing a report refines setting the benchmark's report and leaves the benchmark as it was |
| CallRefinement.ReadAllRefines | metadata/node.go:95-125 | listing returns the plain store's records |
| StoreRuns.StepRefines | metadata/cluster.go:101-275 | every call on the bucket tree does what the same call does to the plain store, with the same reply or a refusal for the same reason, for clusters, nodes, scenarios, benchmarks and experiments |
| StoreRuns.StoreRefines | metadata/db.go:163-179 | a store with a faithful format refines the plain store call by call, and its plain store is orderly: records in opened collections, under their own non-empty ids, such as could be written anew |
| StoreRuns.RunRefines | metadata/db.go:163-179 | over every sequence of calls from an empty store, all replies are the plain store's and the tree represents it throughout |
| Database.EveryRun | metadata/db.go:163-179 | so it is for the store's own format: over every run, all replies are the plain store's |
| StoreFrames.StepKeeps | metadata/cluster.go:193-217 | a call leaves every record alone that it does not name, and makes a bare cluster exactly when it is accepted and opens the nodes of one that is not there |
| StoreFrames.StepKeepsReport | metadata/benchmark.go:169-193 | updating or relabelling a benchmark leaves its report alone |
| StoreFrames.UnnamedRecordStays | metadata/benchmark.go:27-42 | over any run that does not name a record it reads the same: nodes survive updates of their cluster, and a benchmark keeps its cluster and scenario whatever becomes of the originals; where there was none there is none, except that a bare cluster comes into being exactly when an accepted call of the run opens its nodes |
| StoreFrames.UnnamedReportStays | metadata/report.go:76-102 | a report reads the same over any run that neither writes it nor deletes its benchmark |
| StoreFrames.UpdateReadsBack | metadata/cluster.go:193-217 | after an accepted update a read returns what was written, in normal form |
| StoreFrames.CreateReadsBack | metadata/cluster.go:162-191 | after an accepted creation each of its records, several nodes at once included, was missing before and reads back in normal form |
| StoreFrames.CreateAccepted | metadata/node.go:140-174 | records of any kind are created exactly when the ids are admissible, the collection can be opened, and each record can be written under an id that is not empty, not taken and not given twice |
| StoreFrames.ListAccepted | metadata/benchmark.go:111-141 | a collection is listed exactly when every record in it reads |
| RecordRuns.ListedInOrder | metadata/cluster.go:130-160 | an accepted listing returns, in increasing order of their ids, exactly the records that reading their ids returns |
| RecordRuns.CreationReads | metadata/node.go:140-174 | every record of an accepted creation reads as it was given, field by field, made and changed at the time of its creation |
| RecordRuns.CreationReplies | metadata/node.go:147-165 | an accepted creation hands back the records given, stamped, without empty actions |
| RecordRuns.UpdateReads | metadata/node.go:176-200 | an accepted update reads as the record given, field by field, changed at the time of the update and made when the record given says; an experiment keeps the reports it has |
| RecordRuns.UpdateReplies | metadata/node.go:176-200 | an accepted update hands back the record given with the time of the update |
| RecordRuns.UpdatingAccepted | metadata/node.go:176-200 | an update of any kind is accepted exactly when its id is not empty and there, and the record can be written over what is there |
| RecordRuns.UpdateLeavesOthers | metadata/cluster.go:193-217 | an update changes no other record |
| RecordRuns.OtherKindsStay | metadata/benchmark.go:27-42 | a record reads the same after any run that touches other kinds only, unless its cluster is deleted with it |
| RecordRuns.DeletionAccepted | metadata/cluster.go:258-275 | a deletion is accepted exactly when all its ids are there and none comes twice, or the collection was never opened |
| RecordRuns.DeletedGone | metadata/cluster.go:258-275 | after an accepted deletion the records are gone, with the nodes of a cluster and the report of a benchmark |
| RecordRuns.NoOrphans | metadata/buckets.go:105-163 | after any run nodes are there only while their cluster is, and a report only while its benchmark is |
| RecordRuns.ReportReadsBack | metadata/report.go:76-123 | a report is accepted exactly when its benchmark is there, and is what is read from then on |
| BenchmarkRuns.BenchmarkAccepted | metadata/benchmark.go:143-167 | a benchmark is created exactly when its id is new and none of its names is empty, whether or not its CIDs parse |
| BenchmarkRuns.CreatedBenchmarkReads | metadata/benchmark.go:143-167 | a created benchmark reads exactly when the texts of its CIDs parse |
| BenchmarkRuns.OneUnreadable | metadata/benchmark.go:111-141 | once a benchmark with a CID that does not parse is created, it cannot be read and no benchmark can be listed |
| BenchmarkRuns.CidDecides | metadata/benchmark.go:111-167 | on an empty store a benchmark with one object is always created; it reads, and benchmarks can be listed, exactly when the CID has no text or one that parses |
| ExperimentRuns.ReportsAreFirstWritten | metadata/experiment.go:77-246 | over every run of the store, an experiment reads with the first non-empty list of reports written to it since it was created |
| ExperimentRuns.ReportsNeverChange | metadata/experiment.go:138-246 | once an experiment reads with reports, it reads with the same ones after any further run that does not delete it |
| ExperimentRuns.ExperimentAccepted | metadata/experiment.go:138-162 | an experiment is created exactly when its id is new and not empty and no label is empty |
| ExperimentRuns.UpdateAccepted | metadata/experiment.go:164-188 | an experiment is updated exactly when it is there, no label is empty, and it has no reports yet or is given none |
| ExperimentRuns.Frozen | metadata/experiment.go:164-227 | once an experiment has reports, every relabelling that names it is refused, alone or among others, and so is writing it back as it was read |
| ExperimentRuns.FinishedExperiment | metadata/experiment.go:324-328 | one experiment, created without reports and updated with one: it reads with that report, and relabelling it and writing it back are refused |
| LabelBatch.BatchClosedForm | metadata/helpers.go:128-179 | each id ends up with its kept labels and those added labels that no earlier id has kept, sorted; once an id has come twice, later ids get only added labels that are also removed; nothing else changes |
| LabelBatch.FirstAsIntended | metadata/helpers.go:158-170 | the first id always gets its kept labels and all added ones |
| LabelBatch.AllAsIntended | metadata/helpers.go:158-170 | all ids get that exactly when no kept label of an earlier id is an added label that a later id lacks, and no id after a repeated one lacks an added label |
| LabelRuns.LostLabel | metadata/helpers.go:158-170 | in the run that makes a cluster, a node labelled `a` and one with no label, and adds `a` to both, every call is accepted and the second node reads without a label |
| LabelRuns.LostByRepeating | metadata/helpers.go:143-170 | in the run that makes a cluster and two nodes with no label, and adds `a` to both naming the first one twice, every call is accepted and the second node reads without a label |
| LabelBatch.MissingRollsBack | metadata/helpers.go:144-147 | one missing id and nothing is relabelled |
| LabelBatch.LabelAccepted | metadata/helpers.go:128-179 | for records of any kind and any list of ids, a relabelling is accepted exactly when the collection can be opened, no label to add is empty and, each time an id comes, its record is there, reads and is no experiment with reports; unless a benchmark is named twice, the records before the call decide |
| LabelBatch.LabelReadsBack | metadata/cluster.go:219-256 | after an accepted relabelling a read of any of the ids returns the record it was, with its new labels, written once for each time it was named |
| LabelBatch.NewLabelsRead | metadata/helpers.go:149-179 | after an accepted relabelling every record named, if it is no benchmark, reads with its closed-form labels |
| RecordRuns.LabelsReadOn | metadata/helpers.go:149-170 | after an accepted relabelling a record named has exactly the labels it had that are not removed, and each added label that no id before it has kept; once an id has come twice before it, only those added labels that are removed as well |
| RecordRuns.RelabelledReadsOn | metadata/cluster.go:230-241 | after an accepted relabelling every record named reads as before in every field but its labels, changed when its id came last; a benchmark named once keeps its CIDs exactly when they have texts that parse back |
| RecordRuns.RelabelReplies | metadata/cluster.go:230-241 | an accepted relabelling hands back for each id the record as it was but for its new labels, sorted, and the time of the change |
| LabelRuns.LabelledCluster | metadata/cluster.go:219-256 | a cluster that is created and labelled keeps its status, its groups and the time it was made |
| Database.CreateRecords | metadata/cluster.go:168-191 | the create methods perform the specified step inside their transaction |
| Database.UpdateRecord | metadata/cluster.go:193-217 | the update methods perform the specified step inside their transaction |
| Database.LabelRecords | metadata/cluster.go:219-256 | the label methods perform the specified step inside their transaction |
| Database.DeleteRecords | metadata/cluster.go:258-275 | the delete methods perform the specified step; deleting from a collection never opened is no error |
| Database.GetRecord | metadata/cluster.go:101-128 | the get methods perform the specified step and change nothing |
| Database.ListRecords | metadata/cluster.go:130-160 | the list methods perform the specified step and change nothing |
| Database.CreateReport | metadata/report.go:104-123 | performs the specified step |
| Database.GetReport | metadata/report.go:76-102 | performs the specified step |
| Database.DB.Execute | metadata/db.go:163-179 | a call without a transaction in its context commits what the plain store says or rolls back to the last committed tree |
| Database.DB.Join | metadata/db.go:171-179 | a call whose context carries a transaction works in that transaction; a write in a read-only one is refused and changes nothing |
| Database.DB.Together | metadata/db.go:171-179 | calls joined through one transaction all take effect or none does |
| Lifecycle.GenerateLabels | metadata/cluster.go:74-91 | the regions and instance types of the groups, each once |
| Lifecycle.LabelsFor | labd/routers/helpers/helpers.go:35-37 | a new cluster's labels are its name and the region and instance type of each of its groups, and no others |
| Lifecycle.ClusterAccepted | metadata/cluster.go:43-49 | a cluster is created exactly when its id is valid and new and no label is empty, its own or a group's |
| Lifecycle.GeneratedAccepted | metadata/cluster.go:74-91 | labelled with what is generated for it, a cluster is created exactly when its id is valid and new and every group has a region, an instance type and no empty label |
| Lifecycle.WithoutRegion | metadata/cluster.go:74-91 | a cluster of one group is refused by an empty store exactly when the group has no region or no instance type |
| Lifecycle.ValidIds | metadata/validate.go:24-34 | an id is valid exactly when some beginning of it is 1 to 32 of the characters |
| Lifecycle.SpaceInId | metadata/validate.go:24-34 | a cluster with the id `a b` is accepted |
| Lifecycle.NodesCreated | metadata/node.go:140-174 | nodes are created in a cluster that has none exactly when ids and labels are not empty and no id comes twice, and then they are exactly the provider's, stamped and in normal form |
| Lifecycle.ClusterDeleted | metadata/cluster.go:258-275 | deleting a cluster leaves none of its nodes behind |
| Lifecycle.Helper.Connect | labd/routers/helpers/helpers.go:54-71 | the status change and the node records are committed together or not at all, and it succeeds exactly when cluster and nodes can be written |
| Lifecycle.Helper.BeginCluster | labd/routers/helpers/helpers.go:29-45 | the cluster is committed as creating, without nodes, exactly when its id is valid and new, every group has a region and an instance type and no empty label; otherwise nothing changes |
| Lifecycle.Helper.FinishCluster | labd/routers/helpers/helpers.go:53-84 | from the provider's answer on, every committed state is sound |
| Lifecycle.Helper.MarkCreated | labd/routers/helpers/helpers.go:78-83 | the status change to created always succeeds and is committed with the nodes as they are |
| Lifecycle.Helper.CreateCluster | labd/routers/helpers/helpers.go:29-84 | failing at any external call, every committed state has: creating means no nodes, connecting or created means exactly the provider's nodes; it succeeds exactly when the cluster can be created, the provider answers, its nodes can be stored and become healthy; success means created, with the given groups and labelled with the name, the regions and the instance types |
| Lifecycle.Helper.DeleteCluster | labd/routers/helpers/helpers.go:86-127 | keeps every committed state sound, asks the provider to destroy exactly the cluster's nodes, leaves the nodes on record when that fails, and on success leaves neither cluster nor nodes; it succeeds exactly when the cluster is there and the provider destroys the nodes |
| Groups.MovesKeep | scenarios/run.go:65-119 | whichever goroutine moves, every job's own events stay those of its script, in order |
| Groups.SucceededCarried | scenarios/run.go:112-115 | when waiting for the group gives no error, every job did its whole script, once and in order |
| Groups.MovesEnd | scenarios/run.go:65-119 | every step leaves fewer steps before the group ends, so no interleaving goes on for ever |
| Groups.NoDeadlock | scenarios/run.go:65-119 | until all jobs have ended, some job can move |
| ScenarioRun.RunKeepsInv | scenarios/run.go:41-153 | in every run anything that happens in a phase happens after the phases before are complete |
| ScenarioRun.SeededBeforeBenchmark | scenarios/run.go:41-119 | nothing is dialled or benchmarked before every seeded node has connected to the seeder, done its task and disconnected, each once, in that order and without error |
| ScenarioRun.BenchmarkedBeforeReports | scenarios/run.go:127-153 | reports are collected only after every benchmark task has been carried out once and without error, and every dial made |
| ScenarioRun.SuccessIsComplete | scenarios/run.go:121-189 | a run that succeeds has a report from exactly the nodes of the set and carried out both stages on all their nodes |
| ScenarioRun.PlannedStagesFound | scenarios/run.go:72-76 | stages planned on a set never take the not-found branch when run on it |
| ScenarioRun.Await | scenarios/run.go:65-119 | launching the goroutines of a phase and waiting for them ends, whichever moves when, and is a run of the protocol |
| ScenarioRun.RunScenario | scenarios/run.go:41-153 | seeding, connecting, benchmarking and reporting as the code does them is a run of the protocol; no phase begins before the one before is complete, and when it succeeds all four are |
| ScenarioRun.ConnectedAsPlanned | scenarios/run.go:127-137 | when the connecting phase is over, every node made each dial of its peer's planned row once and without error, to all the addresses of a node with the peer dialled |
| ScenarioRun.RunOn | scenarios/run.go:41-153 | running on a set of nodes is a run of the protocol whose dials are those planned from the nodes' answers; a run that succeeds had them all and made every dial |
| ScenarioRun.RunGoesOn | scenarios/run.go:41-153 | a run that has neither failed nor finished can go on |
| Connect.CollectPeerInfo | nodes/connect.go:44-73 | succeeds exactly when every node answers with an address, and then knows every node's peer, in whatever order the answers come |
| Connect.PlanDials | nodes/connect.go:79-101 | in any map order, each peer is planned to dial exactly the reachable peers not met up to its last node, at all their addresses |
| Connect.DialedWhenBefore | nodes/connect.go:79-101 | whatever nodes share an id or a peer, a peer dials exactly the peers all of whose nodes come after all of its own |
| Connect.NeverBothWays | nodes/connect.go:75-101 | no two peers dial each other and none dials itself; one of two dials the other exactly when their nodes do not come in between each other |
| Connect.NeitherWay | nodes/connect.go:79-101 | of three nodes, the first and the last with one peer and the second with another, neither peer dials the other |
| Connect.EmitDials | nodes/connect.go:108-133 | each node in turn gets one connect-one task for each peer of its row, and no others; splitting its subject at the commas gives all the peer's addresses with its identity |
| Connect.TwoAddresses | nodes/connect.go:119-132 | a peer that listens on two addresses is dialled at both, joined by a comma |
| Connect.EmittedOnce | nodes/connect.go:108-133 | distinct nodes are each asked at most once to dial a given peer |
| Connect.DistinctDials | nodes/connect.go:108-133 | among distinct nodes with distinct peers there is one task for each pair of a node and a node after it, and no others: n(n-1)/2 in all |
| Connect.OneDirection | nodes/connect.go:75-101 | each pair of nodes is dialled in exactly one direction and no node dials itself |
| Connect.OneTask | nodes/connect.go:119-132 | there is one task per dial, and splitting its subject at the commas gives all the addresses of the node dialled, each with its identity |
| Connect.NoCycle | nodes/connect.go:75-101 | no walk along dials comes back to where it began |
| Connect.Connect | nodes/connect.go:34-141 | connecting emits the tasks of the plan made from the answers, each to all the addresses of a node with the peer dialled, or none when some node has no address to give; for distinct nodes and peers one for each pair |
| UpdateNodes.ResolveUniqueCommits | nodes/update.go:78-112 | in any order of the goroutines every reference has a commit that one of its nodes was answered, or an error exactly when some answer is one |
| UpdateNodes.DistinctCommits | nodes/update.go:40-49 | the distinct commits, sorted |
| UpdateNodes.BuildCommits | nodes/update.go:114-146 | every commit is built exactly once, in any order, and its link kept; an error exactly when some build fails |
| UpdateNodes.Update | nodes/update.go:30-76 | when nodes are told, every reference resolves, every distinct commit was built exactly once, and each node gets the link of its reference's commit |
| UpdateNodes.SameReferenceSameLink | nodes/update.go:61-68 | nodes with the same reference are told the same link |
| UpdateNodes.OverruledWhenDiffering | nodes/update.go:98-100 | some node gets a commit other than the one it was answered exactly when two nodes with one reference were answered differently; the commit it gets was answered to another node with that reference |
| AppSupervisor.Supervisor.Kill | labagent/supervisor/supervisor.go:185-210 | after it no app lives and none is named, whatever it returns; a command that never started makes it fail |
| AppSupervisor.Supervisor.ReplaceBinary | labagent/supervisor/supervisor.go:226-273 | the binary is replaced, only while no app lives, or left as it was |
| AppSupervisor.Supervisor.Start | labagent/supervisor/supervisor.go:132-150 | one app lives and is the one named, or the launch failed and none does |
| AppSupervisor.Supervisor.Wait | labagent/supervisor/supervisor.go:152-183 | runs one app to its end and leaves none |
| AppSupervisor.Supervisor.Supervise | labagent/supervisor/supervisor.go:81-107 | for each of the eight outcomes, exactly when it comes about and what is left: which app lives and is named, the binary, and the acts in order, each replacement, clearing and launch while none lives; a stale command is left exactly by a failed launch with a link |
| AppSupervisor.Supervisor.TwoCalls | labagent/supervisor/supervisor.go:185-201 | the second of two calls finds a command that was never started exactly when the first failed to launch with a link |
| AppSupervisor.Supervisor.FailsOnceMore | labagent/supervisor/supervisor.go:81-107 | when a launch fails, the next call fails on what is left of it and the one after that starts the app |
| AppSupervisor.Supervisor.AtMostOne | labagent/supervisor/supervisor.go:81-107 | whenever the lock is free at most one app lives |
| DagWalk.Walk | dag/walker.go:27-73 | on an acyclic graph, for any delivery order and interleaving, the walk ends within its work bound, returns nil exactly when no fetch fails, and then has fetched every node reachable from the root |
| DagWalk.DeliveryCovers | dag/walker.go:55-65 | every fetched node has a walk, and every walk has what it received |
| DagWalk.DeliveryWorks | dag/walker.go:55-65 | every delivery takes one from the work outstanding |
| DagWalk.NothingWaiting | dag/walker.go:67-72 | when no walk waits and none failed, everything reachable was fetched |
| SizeReader.Stream.Skip | transformers/oci/content.go:74-78 | reads again and again until all the bytes are gone, a read fails or the stream ends, and says which; an error beside the last byte is dropped |
| SizeReader.SizeReaderAt.ReadAt | transformers/oci/content.go:69-83 | the cursor is the stream's position and never falls; an offset behind it is refused without moving; once the offset is reached the bytes returned are the content there, however short the read; if no read fails, the offset is reached exactly when it lies between the cursor and the end |
| SizeReader.CursorNeverFalls | transformers/oci/content.go:69-83 | over any calls the cursor never falls |
| SizeReader.PiecesInOrder | transformers/oci/content.go:69-83 | the pieces that successive calls return lie in the content one behind the other, and an offset already passed is refused |

## Left out

- Strings are sequences of characters: texts that are not valid UTF-8 are not modelled; for the others the order of characters is the order of bytes.
- A nil map or slice and an empty one are the same value.
- Globs, text forms of CIDs and times, JSON and the transformation of objects are unknown functions; where the store relies on it, it is assumed that times and JSON read back. Nothing is assumed of CIDs.
- Keys of buckets are either one of the fixed names or a varying text; no bucket holds both sorts, except an experiment's, whose varying keys are numerals.
- bbolt's pages, files, locks and limits on the size of keys and values; a transaction that cannot begin or commit.
- Errors of the library that encodes times and JSON.
- A number too large for 64 bits in a stored value: such values are never written.
- The order in which Go evaluates the two results of readExperimentDefinition (metadata/experiment.go:305) is taken to be the call first.
- Builds (metadata/build.go) have the same create, get, list and delete methods with two fields: only easy members would be added.
- `ClusterDefinition.Size`, the rates and sums in reports, tables, daemons, routers, clients, the command line, logging and tracing.
- The varint helpers in metadata/helpers.go and the in-memory provider.
- Cancellation: a goroutine whose context is cancelled fails like any other, at any of its effects.
- ScenarioRun.RunScenario: leaves out the times of an execution, its tracing span, and the part of nodes/session.go that is commented out.
- UpdateNodes.BuildCommits: a build is a function of its commit, since each commit is built once.
- DagWalk.Walk: takes a rank that falls along links as the witness that a graph has no cycle, and relies on the node getter to deliver each node asked for once or an error.
- AppSupervisor.Supervisor.Supervise: leaves out the flags of the app, the injected trace, the short-lived process that asks for the version, and the goroutine that forwards a signal.
- SizeReader.SizeReaderAt.ReadAt: offsets and counts are not bounded to 64 bits; a read that neither fails nor is at the end gives at least one byte, as `io.Reader` asks, or skipping need not end.
- StoreRuns.RunRefines: covers clusters, nodes, scenarios, benchmarks and their reports, and experiments; transactions run one after the other, as bbolt runs writers.
- Lifecycle.Helper.CreateCluster: other writers and a crash between two commits, which leaves one of the committed states described.
