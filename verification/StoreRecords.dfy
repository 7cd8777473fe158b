/** The five kinds of records that are created, updated, labelled, deleted, read and listed
    alike: clusters, the nodes of a cluster, scenarios, benchmarks and experiments. */
module StoreRecords {
  import opened GoStrings
  import opened Results
  import opened Records
  import opened Buckets
  import opened MetadataHelpers
  import opened NodeCodec
  import opened ClusterCodec
  import opened ScenarioCodec
  import opened BenchmarkCodec
  import opened ExperimentCodec
  import opened FitBuckets

  datatype Kind = Clusters | Nodes(cluster: string) | Scenarios | Benchmarks | Experiments

  datatype Record =
    | OfCluster(cluster: Cluster)
    | OfNode(node: Node)
    | OfScenario(scenario: Scenario)
    | OfBenchmark(benchmark: Benchmark)
    | OfExperiment(experiment: Experiment)

  predicate Suits(kind: Kind, rec: Record) {
    match kind
    case Clusters => rec.OfCluster?
    case Nodes(_) => rec.OfNode?
    case Scenarios => rec.OfScenario?
    case Benchmarks => rec.OfBenchmark?
    case Experiments => rec.OfExperiment?
  }

  function Id(rec: Record): string {
    match rec
    case OfCluster(c) => c.id
    case OfNode(n) => n.id
    case OfScenario(s) => s.id
    case OfBenchmark(m) => m.id
    case OfExperiment(e) => e.id
  }

  function Labels(rec: Record): seq<string> {
    match rec
    case OfCluster(c) => c.labels
    case OfNode(n) => n.labels
    case OfScenario(s) => s.labels
    case OfBenchmark(m) => m.labels
    case OfExperiment(e) => e.labels
  }

  function Created(rec: Record, now: Time): Record {
    match rec
    case OfCluster(c) => OfCluster(c.(createdAt := now, updatedAt := now))
    case OfNode(n) => OfNode(n.(createdAt := now, updatedAt := now))
    case OfScenario(s) => OfScenario(s.(createdAt := now, updatedAt := now))
    case OfBenchmark(m) => OfBenchmark(m.(createdAt := now, updatedAt := now))
    case OfExperiment(e) => OfExperiment(e.(createdAt := now, updatedAt := now))
  }

  function Updated(rec: Record, now: Time): Record {
    match rec
    case OfCluster(c) => OfCluster(c.(updatedAt := now))
    case OfNode(n) => OfNode(n.(updatedAt := now))
    case OfScenario(s) => OfScenario(s.(updatedAt := now))
    case OfBenchmark(m) => OfBenchmark(m.(updatedAt := now))
    case OfExperiment(e) => OfExperiment(e.(updatedAt := now))
  }

  function Relabelled(rec: Record, labels: seq<string>, now: Time): Record {
    match rec
    case OfCluster(c) => OfCluster(c.(labels := labels, updatedAt := now))
    case OfNode(n) => OfNode(n.(labels := labels, updatedAt := now))
    case OfScenario(s) => OfScenario(s.(labels := labels, updatedAt := now))
    case OfBenchmark(m) => OfBenchmark(m.(labels := labels, updatedAt := now))
    case OfExperiment(e) => OfExperiment(e.(labels := labels, updatedAt := now))
  }

  /** The record a write hands back: empty actions are gone from a scenario's maps. */
  function Returned(rec: Record): Record {
    match rec
    case OfScenario(s) => OfScenario(s.(definition := NormalDefinition(s.definition)))
    case OfBenchmark(m) =>
      OfBenchmark(m.(scenario := m.scenario.(definition := NormalDefinition(m.scenario.definition))))
    case _ => rec
  }

  /** The reports of the experiment that is there already, if there is one. */
  function ReportsIn(was: Option<Record>): seq<Report> {
    match was
    case Some(rec) => if rec.OfExperiment? then rec.experiment.reports else []
    case None => []
  }

  function AsBenchmark(r: Result<Benchmark, Error>): Option<Record> {
    match r case Success(m) => Some(OfBenchmark(m)) case Failure(_) => None
  }

  /** What a record reads back as when it is written where `was` was; none when it is a
      benchmark with a CID whose text does not parse. */
  ghost function Normal(x: Texts, was: Option<Record>, rec: Record): Option<Record> {
    match rec
    case OfCluster(c) => Some(OfCluster(NormalCluster(c)))
    case OfNode(n) => Some(OfNode(NormalNode(n)))
    case OfScenario(s) => Some(OfScenario(NormalScenario(s)))
    case OfBenchmark(m) => AsBenchmark(NormalBenchmark(x, m))
    case OfExperiment(e) => Some(OfExperiment(NormalExperiment(e, ReportsIn(was))))
  }

  function Enc(x: Texts, b: Bucket, rec: Record): (r: Result<Bucket, Error>) {
    match rec
    case OfCluster(c) => EncCluster(x, b, c)
    case OfNode(n) => EncNode(x, b, n)
    case OfScenario(s) => EncScenario(x, b, s)
    case OfBenchmark(m) => EncBenchmark(x, b, m)
    case OfExperiment(e) => EncExperiment(x, b, e)
  }

  ghost function Dec(x: Texts, kind: Kind, id: string, b: Bucket): (r: Result<Record, Error>) {
    match kind
    case Clusters => AsRecord(DecCluster(x, id, b), c => OfCluster(c))
    case Nodes(_) => AsRecord(DecNode(x, id, b), n => OfNode(n))
    case Scenarios => AsRecord(DecScenario(x, id, b), s => OfScenario(s))
    case Benchmarks => AsRecord(DecBenchmark(x, id, b), m => OfBenchmark(m))
    case Experiments => AsRecord(DecExperiment(x, id, b), e => OfExperiment(e))
  }

  function AsRecord<T>(r: Result<T, Error>, wrap: T -> Record): Result<Record, Error> {
    match r case Success(t) => Success(wrap(t)) case Failure(e) => Failure(e)
  }

  lemma LabelsAreRead(x: Texts, kind: Kind, id: string, b: Bucket, rec: Record)
    requires Dec(x, kind, id, b) == Success(rec)
    ensures Labels(rec) == DecLabels(b)
  {
    match kind
    case Clusters => ClusterLabels(x, id, b);
    case Nodes(_) => NodeLabels(x, id, b);
    case Scenarios => ScenarioLabels(x, id, b);
    case Benchmarks => BenchmarkLabels(x, id, b);
    case Experiments => ExperimentLabels(x, id, b);
  }

  /** What reading a bucket gives that holds this, or a record that no longer reads. */
  function Reads(o: Option<Record>): Result<Record, Error> {
    match o case Some(rec) => Success(rec) case None => Failure(Malformed)
  }

  /** The bucket holds the reports of what was there before, if that was an experiment. */
  ghost predicate Held(x: Texts, kind: Kind, b: Bucket, was: Option<Record>) {
    kind.Experiments? ==> HoldsReports(x.json, b, ReportsIn(was))
  }

  lemma BenchmarkRecordReads(x: Texts, id: string, b: Bucket, r: Result<Benchmark, Error>)
    requires DecBenchmark(x, id, b) == r && (r.Failure? ==> r.error == Malformed)
    ensures Dec(x, Benchmarks, id, b) == Reads(AsBenchmark(r))
  {
  }

  lemma ExperimentRecordReads(x: Texts, id: string, b: Bucket, e: Experiment)
    requires DecExperiment(x, id, b) == Success(e)
    ensures Dec(x, Experiments, id, b) == Reads(Some(OfExperiment(e)))
  {
  }

  lemma RecordReadsBack(x: Texts, kind: Kind, b: Bucket, was: Option<Record>, rec: Record)
    requires x.Lossless() && Suits(kind, rec) && Held(x, kind, b, was) && Enc(x, b, rec).Success?
    ensures Dec(x, kind, Id(rec), Enc(x, b, rec).value) == Reads(Normal(x, was, rec))
    ensures Normal(x, was, rec).Some? ==> Held(x, kind, Enc(x, b, rec).value, Normal(x, was, rec))
  {
    var c := Enc(x, b, rec).value;
    match rec
    case OfCluster(v) => ClusterReadsBack(x, b, v, v.id);
    case OfNode(v) => NodeReadsBack(x, b, v, v.id);
    case OfScenario(v) => ScenarioReadsBack(x, b, v, v.id);
    case OfBenchmark(v) =>
      BenchmarkReadsBack(x, b, v, v.id);
      BenchmarkRecordReads(x, v.id, c, NormalBenchmark(x, v));
    case OfExperiment(v) =>
      ExperimentReadsBack(x, b, v, ReportsIn(was));
      ExperimentRecordReads(x, v.id, c, NormalExperiment(v, ReportsIn(was)));
  }

  // ----- which records can be written -----

  predicate GroupsWritable(gs: seq<ClusterGroup>) {
    forall g | g in gs :: "" !in g.labels
  }

  predicate DefinitionWritable(d: ScenarioDefinition) {
    "" !in d.objects && "" !in NonEmpty(d.seed) && "" !in NonEmpty(d.benchmark)
  }

  predicate PlanWritable(x: Texts, p: ScenarioPlan) {
    "" !in NonEmpty(CidTexts(x, p.objects)) && "" !in p.seed && "" !in p.benchmark
  }

  predicate ClusterWritable(c: Cluster) {
    "" !in c.labels && GroupsWritable(c.groups)
  }

  lemma NormalGroupsWritable(gs: seq<ClusterGroup>)
    requires GroupsWritable(gs)
    ensures GroupsWritable(NormalGroups(gs))
  {
    forall g | g in NormalGroups(gs) ensures "" !in g.labels {
      var i :| 0 <= i < |gs| && NormalGroups(gs)[i] == g;
      assert gs[i] in gs;
    }
  }

  predicate ScenarioWritable(s: Scenario) {
    "" !in s.labels && DefinitionWritable(s.definition)
  }

  predicate BenchmarkWritable(x: Texts, m: Benchmark) {
    "" !in m.labels && ClusterWritable(m.cluster) && ScenarioWritable(m.scenario) && PlanWritable(x, m.plan)
  }

  /** No label, object name, query or task id is empty, except that a query with an empty
      action may be; and an experiment is not given reports a second time. */
  predicate Writable(x: Texts, was: Option<Record>, rec: Record) {
    match rec
    case OfCluster(c) => ClusterWritable(c)
    case OfNode(n) => "" !in n.labels
    case OfScenario(s) => ScenarioWritable(s)
    case OfBenchmark(m) => BenchmarkWritable(x, m)
    case OfExperiment(e) => ExperimentWritable(e, ReportsIn(was))
  }

  // ----- what was written can be written anew -----

  lemma SortedLabels(labels: seq<string>)
    ensures "" in SortedSet(Members(labels)) <==> "" in labels
  {
    assert "" in Members(SortedSet(Members(labels))) <==> "" in Members(labels);
  }

  lemma NormalClusterWritable(c: Cluster)
    requires ClusterWritable(c)
    ensures ClusterWritable(NormalCluster(c))
  {
    SortedLabels(c.labels);
    NormalGroupsWritable(c.groups);
  }

  lemma NormalScenarioWritable(s: Scenario)
    requires ScenarioWritable(s)
    ensures ScenarioWritable(NormalScenario(s))
  {
    SortedLabels(s.labels);
  }

  lemma KeptPlanWritable(x: Texts, p: ScenarioPlan)
    requires PlanWritable(x, p) && PlanKept(x, p).Success?
    ensures PlanWritable(x, PlanKept(x, p).value)
  {
  }

  /** The record a write leaves could be written where there is none. */
  lemma NormalWritable(x: Texts, was: Option<Record>, rec: Record)
    requires Writable(x, was, rec) && Normal(x, was, rec).Some?
    ensures Writable(x, None, Normal(x, was, rec).value)
  {
    SortedLabels(Labels(rec));
    match rec
    case OfCluster(c) => NormalClusterWritable(c);
    case OfNode(_) =>
    case OfScenario(s) => NormalScenarioWritable(s);
    case OfBenchmark(m) =>
      NormalClusterWritable(m.cluster);
      NormalScenarioWritable(m.scenario);
      KeptPlanWritable(x, m.plan);
    case OfExperiment(_) =>
  }

  // ----- each kind is written exactly when it is writable -----

  lemma TaskEntriesFit(stage: map<string, Task>)
    ensures Settles(RecordEntries(AllTaskFields(stage)), "" !in stage)
  {
  }

  lemma TaskMapFits(b: Bucket, k: Key, stage: map<string, Task>)
    requires Fit(b) && SubName(k)
    ensures Agrees(EncTaskMap(b, k, stage), "" !in stage)
  {
    TaskEntriesFit(stage);
    if stage != map[] {
      RecreatedFits(b, k, RecordEntries(AllTaskFields(stage)));
    }
  }

  lemma GroupFits(g: ClusterGroup)
    ensures Settles(EncGroup(map[], g), "" !in g.labels)
  {
    LabelsFit(map[], g.labels);
    var b1 := EncLabels(map[], g.labels);
    if b1.Success? {
      if g.peer.Some? {
        RecreatedFits(b1.value, DefinitionKey, Success(Values(PeerFields(g.peer.value))));
      }
      var b2 := if g.peer.Some? then EncPeer(b1.value, g.peer.value).value else b1.value;
      PutAllFits(b2, GroupFields(g));
    }
  }

  lemma {:induction false} GroupsFit(gs: seq<ClusterGroup>)
    ensures Settles(EncGroups(gs), GroupsWritable(gs))
  {
    if gs != [] {
      GroupsFit(gs[..|gs| - 1]);
      GroupFits(gs[|gs| - 1]);
      assert gs == gs[..|gs| - 1] + [gs[|gs| - 1]];
    }
  }

  lemma ClusterFits(x: Texts, b: Bucket, c: Cluster)
    requires Fit(b)
    ensures Agrees(EncCluster(x, b, c), ClusterWritable(c))
    ensures EncCluster(x, b, c).Success? ==> SubOf(EncCluster(x, b, c).value, NodesKey) == SubOf(b, NodesKey)
  {
    TimestampsFit(x, b, c.createdAt, c.updatedAt);
    var b1 := EncTimestamps(x, b, c.createdAt, c.updatedAt).value;
    GroupsFit(c.groups);
    RecreatedFits(b1, DefinitionKey, EncGroups(c.groups));
    var b2 := Recreated(b1, DefinitionKey, EncGroups(c.groups));
    if b2.Success? {
      LabelsFit(b2.value, c.labels);
      var b3 := EncLabels(b2.value, c.labels);
      if b3.Success? {
        PutAllFits(b3.value, ClusterFields(c));
        NodesKept(b, b1, b2.value, b3.value, b3.value + Values(ClusterFields(c)));
      }
    }
  }

  lemma NodesKept(b: Bucket, b1: Bucket, b2: Bucket, b3: Bucket, e: Bucket)
    requires SameExcept(b, b1, {CreatedAtKey, UpdatedAtKey}) && SameExcept(b1, b2, {DefinitionKey})
    requires SameExcept(b2, b3, {LabelsKey}) && SameExcept(b3, e, {IdKey, StatusKey})
    ensures SubOf(e, NodesKey) == SubOf(b, NodesKey)
  {
    Kept(b, b1, {CreatedAtKey, UpdatedAtKey}, NodesKey);
    Kept(b1, b2, {DefinitionKey}, NodesKey);
    Kept(b2, b3, {LabelsKey}, NodesKey);
    Kept(b3, e, {IdKey, StatusKey}, NodesKey);
  }

  lemma NodeFits(x: Texts, b: Bucket, n: Node)
    requires Fit(b)
    ensures Agrees(EncNode(x, b, n), "" !in n.labels)
  {
    TimestampsFit(x, b, n.createdAt, n.updatedAt);
    var b1 := EncTimestamps(x, b, n.createdAt, n.updatedAt).value;
    LabelsFit(b1, n.labels);
    var b2 := EncLabels(b1, n.labels);
    if b2.Success? {
      RecreatedFits(b2.value, DefinitionKey, Success(Values(PeerFields(n.peer))));
      PutAllFits(EncPeer(b2.value, n.peer).value, NodeFields(n));
    }
  }

  lemma DefinitionFits(d: ScenarioDefinition)
    ensures Settles(EncDefinition(map[], d), DefinitionWritable(d))
  {
    var b: Bucket := map[];
    var objects, seed, benchmark := RecordEntries(AllObjectFields(d.objects)), MapEntries(d.seed), MapEntries(d.benchmark);
    DefinitionWithFits(b, objects, d.seed == map[], seed, d.benchmark == map[], benchmark);
  }

  lemma DefinitionWithFits(b: Bucket, objects: Result<Bucket, Error>, noSeed: bool, seed: Result<Bucket, Error>,
                           noBenchmark: bool, benchmark: Result<Bucket, Error>)
    requires Fit(b) && Settles(objects, objects.Success?) && Settles(seed, seed.Success?) && Settles(benchmark, benchmark.Success?)
    ensures Settles(EncDefinitionWith(b, objects, noSeed, seed, noBenchmark, benchmark),
      objects.Success? && (noSeed || seed.Success?) && (noBenchmark || benchmark.Success?))
  {
    RecreatedFits(b, ObjectsKey, objects);
    var b1 := Recreated(b, ObjectsKey, objects);
    if b1.Success? {
      ReplaceSubFits(b1.value, SeedKey, noSeed, seed);
      var b2 := ReplaceSub(b1.value, SeedKey, noSeed, seed);
      if b2.Success? {
        ReplaceSubFits(b2.value, BenchmarkKey, noBenchmark, benchmark);
      }
    }
  }

  lemma ScenarioFits(x: Texts, b: Bucket, s: Scenario)
    requires Fit(b)
    ensures Agrees(EncScenario(x, b, s), ScenarioWritable(s))
  {
    DefinitionFits(s.definition);
    ScenarioWithFits(x, b, s, EncDefinition(map[], s.definition));
  }

  lemma ScenarioWithFits(x: Texts, b: Bucket, s: Scenario, definition: Result<Bucket, Error>)
    requires Fit(b) && Settles(definition, definition.Success?)
    ensures Agrees(EncScenarioWith(x, b, s, definition), definition.Success? && "" !in s.labels)
  {
    TimestampsFit(x, b, s.createdAt, s.updatedAt);
    var b1 := EncTimestamps(x, b, s.createdAt, s.updatedAt).value;
    RecreatedFits(b1, DefinitionKey, definition);
    var b2 := Recreated(b1, DefinitionKey, definition);
    if b2.Success? {
      LabelsFit(b2.value, s.labels);
      var b3 := EncLabels(b2.value, s.labels);
      if b3.Success? {
        PutAllFits(b3.value, map[IdKey := s.id]);
      }
    }
  }

  lemma PlanFits(x: Texts, p: ScenarioPlan)
    ensures Settles(EncPlan(x, map[], p), PlanWritable(x, p))
  {
    var m := CidTexts(x, p.objects);
    PlanWithFits(map[], m == map[], MapEntries(m), p.seed, p.benchmark);
  }

  lemma PlanWithFits(b: Bucket, noObjects: bool, objects: Result<Bucket, Error>, seed: map<string, Task>, benchmark: map<string, Task>)
    requires Fit(b) && Settles(objects, objects.Success?)
    ensures Settles(EncPlanWith(b, noObjects, objects, seed, benchmark),
      (noObjects || objects.Success?) && "" !in seed && "" !in benchmark)
  {
    RecreatedFits(b, ObjectsKey, Success(map[]));
    var b1 := RecreateIn(b, ObjectsKey);
    assert b1.Success? && Fit(b1.value);
    ReplaceSubFits(b1.value, ObjectsKey, noObjects, objects);
    var b2 := ReplaceSub(b1.value, ObjectsKey, noObjects, objects);
    if b2.Success? {
      TaskMapFits(b2.value, SeedKey, seed);
      var b3 := EncTaskMap(b2.value, SeedKey, seed);
      if b3.Success? {
        TaskMapFits(b3.value, BenchmarkKey, benchmark);
      }
    }
  }

  lemma BenchmarkFits(x: Texts, b: Bucket, m: Benchmark)
    requires Fit(b)
    ensures Agrees(EncBenchmark(x, b, m), BenchmarkWritable(x, m))
  {
    ClusterFits(x, map[], m.cluster);
    ScenarioFits(x, map[], m.scenario);
    PlanFits(x, m.plan);
    BenchmarkWithFits(x, b, m, EncCluster(x, map[], m.cluster), EncScenario(x, map[], m.scenario), EncPlan(x, map[], m.plan),
                      ClusterWritable(m.cluster), ScenarioWritable(m.scenario), PlanWritable(x, m.plan));
  }

  lemma BenchmarkWithFits(x: Texts, b: Bucket, m: Benchmark, cluster: Result<Bucket, Error>,
                          scenario: Result<Bucket, Error>, plan: Result<Bucket, Error>, c: bool, s: bool, p: bool)
    requires Fit(b) && Settles(cluster, c) && Settles(scenario, s) && Settles(plan, p)
    ensures Agrees(EncBenchmarkWith(x, b, m, cluster, scenario, plan), "" !in m.labels && c && s && p)
  {
    TimestampsFit(x, b, m.createdAt, m.updatedAt);
    var b1 := EncTimestamps(x, b, m.createdAt, m.updatedAt).value;
    EmbeddedFits(b1, m, cluster, scenario, plan);
  }

  lemma EmbeddedFits(b1: Bucket, m: Benchmark, cluster: Result<Bucket, Error>,
                     scenario: Result<Bucket, Error>, plan: Result<Bucket, Error>)
    requires Fit(b1) && Settles(cluster, cluster.Success?) && Settles(scenario, scenario.Success?) && Settles(plan, plan.Success?)
    ensures Agrees(EmbeddedIn(b1, m, cluster, scenario, plan),
      cluster.Success? && scenario.Success? && plan.Success? && "" !in m.labels)
  {
    RecreatedFits(b1, ClusterKey, cluster);
    var b2 := Recreated(b1, ClusterKey, cluster);
    if b2.Success? {
      RecreatedFits(b2.value, ScenarioKey, scenario);
      var b3 := Recreated(b2.value, ScenarioKey, scenario);
      if b3.Success? {
        RecreatedFits(b3.value, PlanKey, plan);
        var b4 := Recreated(b3.value, PlanKey, plan);
        if b4.Success? {
          RestFits(b4.value, m);
        }
      }
    }
  }

  lemma RestFits(b: Bucket, m: Benchmark)
    requires Fit(b)
    ensures Agrees(BenchmarkRest(b, m), "" !in m.labels)
  {
    LabelsFit(b, m.labels);
    if "" !in m.labels {
      PutAllFits(EncLabels(b, m.labels).value, BenchmarkFields(m));
    }
  }

  /** On the buckets the store makes, a record is written exactly when it is writable, and
      what is kept beside a record, its nodes or its report, stays. */
  lemma RecordFits(x: Texts, kind: Kind, b: Bucket, was: Option<Record>, rec: Record)
    requires x.TimesReadBack() && Fit(b) && Suits(kind, rec) && Held(x, kind, b, was)
    ensures Agrees(Enc(x, b, rec), Writable(x, was, rec))
    ensures Enc(x, b, rec).Success? && kind.Clusters? ==> SubOf(Enc(x, b, rec).value, NodesKey) == SubOf(b, NodesKey)
    ensures Enc(x, b, rec).Success? && kind.Benchmarks? ==> ValueOf(Enc(x, b, rec).value, ReportKey) == ValueOf(b, ReportKey)
  {
    match rec
    case OfCluster(c) => ClusterFits(x, b, c);
    case OfNode(n) => NodeFits(x, b, n);
    case OfScenario(s) => ScenarioFits(x, b, s);
    case OfBenchmark(m) =>
      BenchmarkFits(x, b, m);
      if Enc(x, b, rec).Success? {
        BenchmarkReadsBack(x, b, m, "");
      }
    case OfExperiment(e) => WriteReports(x, b, e, ReportsIn(was));
  }
}
