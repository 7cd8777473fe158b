/** metadata/benchmark.go and metadata/report.go: plans, benchmarks and reports in buckets. */
module BenchmarkCodec {
  import opened GoStrings
  import opened Results
  import opened Records
  import opened Buckets
  import opened MetadataHelpers
  import opened ClusterCodec
  import opened ScenarioCodec

  // ----- task maps -----

  function TaskFields(t: Task): Fields {
    map[TypeKey := t.kind, SubjectKey := t.subject]
  }

  function TaskOf(f: Fields): Task {
    Task(Field(f, TypeKey), Field(f, SubjectKey))
  }

  function AllTaskFields(stage: map<string, Task>): map<string, Fields> {
    map t | t in stage :: TaskFields(stage[t])
  }

  function TasksOf(records: map<string, Fields>): map<string, Task> {
    map t | t in records :: TaskOf(records[t])
  }

  lemma TasksReadBack(stage: map<string, Task>)
    ensures TasksOf(AllTaskFields(stage)) == stage
  {
    forall t | t in stage ensures TasksOf(AllTaskFields(stage))[t] == stage[t] {
      assert TaskOf(TaskFields(stage[t])) == stage[t];
    }
  }

  /** An empty stage is not written at all; what was there before stays. */
  function EncTaskMap(b: Bucket, name: Key, stage: map<string, Task>): (r: Result<Bucket, Error>)
    ensures r.Success? ==> SameExcept(b, r.value, {name})
  {
    if stage == map[] then Success(b) else Recreated(b, name, RecordEntries(AllTaskFields(stage)))
  }

  function DecTaskMap(b: Bucket, name: Key): map<string, Task> {
    TasksOf(RecordsOf(SubOf(b, name)))
  }

  /** A stage reads back exactly when it is not empty or no stage was there before. */
  lemma TaskMapReadsBack(b: Bucket, name: Key, stage: map<string, Task>)
    requires EncTaskMap(b, name, stage).Success?
    ensures DecTaskMap(EncTaskMap(b, name, stage).value, name) == stage <==>
      stage != map[] || DecTaskMap(b, name) == map[]
  {
    RecordsReadBack(AllTaskFields(stage));
    TasksReadBack(stage);
  }

  method ReadTaskMap(tx: Tx, p: Path, name: Key) returns (stage: map<string, Task>)
    requires Exists(tx.root, p)
    ensures stage == DecTaskMap(At(tx.root, p), name)
  {
    var records := ReadRecords(tx, p, name);
    stage := TasksOf(records);
  }

  method WriteTaskMap(tx: Tx, p: Path, name: Key, stage: map<string, Task>) returns (err: Option<Error>)
    requires Exists(tx.root, p)
    modifies tx
    ensures Ran(old(tx.root), tx.root, p, EncTaskMap(At(old(tx.root), p), name, stage), err)
  {
    ghost var r0 := tx.root;
    ConfinedRefl(r0, p);
    if |stage| == 0 {
      assert stage == map[];
      return None;
    }
    err := RecreateBucket(tx, p, name);
    if err.Some? {
      return;
    }
    ghost var r1 := tx.root;
    var records := AllTaskFields(stage);
    err := PutRecords(tx, p + [name], records);
    RanSub(r1, tx.root, p, name, RecordEntries(records), err);
    RanAfter(r0, r1, tx.root, p, InSub(At(r1, p), name, RecordEntries(records)), err);
  }

  // ----- plans -----

  function CidTexts(x: Texts, objects: map<string, Cid>): map<string, string> {
    map k | k in objects :: x.cid(objects[k])
  }

  function CidsOf(x: Texts, m: map<string, string>): Result<map<string, Cid>, Error> {
    if exists k :: k in m && x.cidOf(m[k]).None? then Failure(Malformed)
    else Success(map k | k in m :: x.cidOf(m[k]).value)
  }

  /** Every object's CID has a text form that parses back to it. */
  ghost predicate CidsReadBack(x: Texts, objects: map<string, Cid>) {
    forall k :: k in objects ==> x.cid(objects[k]) != "" && x.cidOf(x.cid(objects[k])) == Some(objects[k])
  }

  /** What the objects of a written plan read back as. */
  function CidsKept(x: Texts, objects: map<string, Cid>): Result<map<string, Cid>, Error> {
    CidsOf(x, NonEmpty(CidTexts(x, objects)))
  }

  /** They are what was written exactly when every text is there and parses back, and they
      can be read at all exactly when every text that is there parses. */
  lemma CidsRead(x: Texts, objects: map<string, Cid>)
    ensures CidsKept(x, objects) == Success(objects) <==> CidsReadBack(x, objects)
    ensures CidsKept(x, objects).Success? <==>
      forall k :: k in objects && x.cid(objects[k]) != "" ==> x.cidOf(x.cid(objects[k])).Some?
  {
    var m := NonEmpty(CidTexts(x, objects));
    forall k ensures k in m <==> k in objects && x.cid(objects[k]) != "" {
    }
    if CidsKept(x, objects).Success? {
      var read := CidsKept(x, objects).value;
      if CidsReadBack(x, objects) {
        assert read == objects;
      }
      if read == objects {
        forall k | k in objects ensures x.cid(objects[k]) != "" && x.cidOf(x.cid(objects[k])) == Some(objects[k]) {
          assert k in read;
        }
      }
    }
  }

  function EncPlanWith(b: Bucket, noObjects: bool, objects: Result<Bucket, Error>, seed: map<string, Task>,
                       benchmark: map<string, Task>): (r: Result<Bucket, Error>) {
    var b1 :- RecreateIn(b, ObjectsKey);
    var b2 :- ReplaceSub(b1, ObjectsKey, noObjects, objects);
    var b3 :- EncTaskMap(b2, SeedKey, seed);
    EncTaskMap(b3, BenchmarkKey, benchmark)
  }

  function EncPlan(x: Texts, b: Bucket, plan: ScenarioPlan): (r: Result<Bucket, Error>) {
    var m := CidTexts(x, plan.objects);
    EncPlanWith(b, m == map[], MapEntries(m), plan.seed, plan.benchmark)
  }

  function PlanOf(x: Texts, sub: Option<Bucket>): Result<ScenarioPlan, Error> {
    match sub
    case None => Success(ScenarioPlan(map[], map[], map[]))
    case Some(s) =>
      var objects :- CidsOf(x, DecMap(s, ObjectsKey));
      Success(ScenarioPlan(objects, DecTaskMap(s, SeedKey), DecTaskMap(s, BenchmarkKey)))
  }

  lemma PlanParts(noObjects: bool, objects: Result<Bucket, Error>, seed: map<string, Task>, benchmark: map<string, Task>)
    requires EncPlanWith(map[], noObjects, objects, seed, benchmark).Success?
    ensures var c := EncPlanWith(map[], noObjects, objects, seed, benchmark).value;
      && (if noObjects then SubOf(c, ObjectsKey) == None else objects.Success? && SubOf(c, ObjectsKey) == Some(objects.value))
      && DecTaskMap(c, SeedKey) == seed && DecTaskMap(c, BenchmarkKey) == benchmark
  {
    var b0: Bucket := map[];
    var b1 := RecreateIn(b0, ObjectsKey).value;
    var b2 := ReplaceSub(b1, ObjectsKey, noObjects, objects).value;
    var b3 := EncTaskMap(b2, SeedKey, seed).value;
    var b4 := EncTaskMap(b3, BenchmarkKey, benchmark).value;
    Kept(b0, b1, {ObjectsKey}, SeedKey);
    Kept(b0, b1, {ObjectsKey}, BenchmarkKey);
    Kept(b1, b2, {ObjectsKey}, SeedKey);
    Kept(b1, b2, {ObjectsKey}, BenchmarkKey);
    StageRead(b2, SeedKey, seed);
    Kept(b2, b3, {SeedKey}, BenchmarkKey);
    StageRead(b3, BenchmarkKey, benchmark);
    StagesKept(b2, b3, b4);
  }

  /** Where no stage was, a written one reads back. */
  lemma StageRead(b: Bucket, name: Key, stage: map<string, Task>)
    requires SubOf(b, name) == None && EncTaskMap(b, name, stage).Success?
    ensures DecTaskMap(EncTaskMap(b, name, stage).value, name) == stage
  {
    NoStage(b, name);
    TaskMapReadsBack(b, name, stage);
  }

  lemma NoStage(b: Bucket, name: Key)
    requires SubOf(b, name) == None
    ensures DecTaskMap(b, name) == map[]
  {
  }

  lemma StagesKept(b2: Bucket, b3: Bucket, b4: Bucket)
    requires SameExcept(b2, b3, {SeedKey}) && SameExcept(b3, b4, {BenchmarkKey})
    ensures SubOf(b4, ObjectsKey) == SubOf(b2, ObjectsKey) && DecTaskMap(b4, SeedKey) == DecTaskMap(b3, SeedKey)
  {
    Kept(b2, b3, {SeedKey}, ObjectsKey);
    Kept(b3, b4, {BenchmarkKey}, ObjectsKey);
    Kept(b3, b4, {BenchmarkKey}, SeedKey);
  }

  /** The plan a benchmark is left with. */
  function PlanKept(x: Texts, plan: ScenarioPlan): Result<ScenarioPlan, Error> {
    match CidsKept(x, plan.objects) case Success(o) => Success(plan.(objects := o)) case Failure(e) => Failure(e)
  }

  /** A plan written to a new bucket reads back with both its stages, and unchanged exactly
      when its CIDs have texts that parse back. */
  lemma PlanReadsBack(x: Texts, plan: ScenarioPlan)
    requires EncPlan(x, map[], plan).Success?
    ensures PlanOf(x, Some(EncPlan(x, map[], plan).value)) == PlanKept(x, plan)
    ensures PlanOf(x, Some(EncPlan(x, map[], plan).value)) == Success(plan) <==> CidsReadBack(x, plan.objects)
  {
    var m := CidTexts(x, plan.objects);
    PlanParts(m == map[], MapEntries(m), plan.seed, plan.benchmark);
    MapEntriesReadBack(m);
    CidsRead(x, plan.objects);
  }

  method ReadPlan(x: Texts, tx: Tx, p: Path) returns (r: Result<ScenarioPlan, Error>)
    requires Exists(tx.root, p)
    ensures r == PlanOf(x, Some(At(tx.root, p)))
  {
    var m := ReadMap(tx, p, ObjectsKey);
    var objects := CidsOf(x, m);
    if objects.Failure? {
      return Failure(objects.error);
    }
    var seed := ReadTaskMap(tx, p, SeedKey);
    var benchmark := ReadTaskMap(tx, p, BenchmarkKey);
    return Success(ScenarioPlan(objects.value, seed, benchmark));
  }

  method WritePlanTasks(tx: Tx, p: Path, seed: map<string, Task>, benchmark: map<string, Task>)
      returns (err: Option<Error>)
    requires Exists(tx.root, p)
    modifies tx
    ensures Ran(old(tx.root), tx.root, p, PlanTasksIn(At(old(tx.root), p), seed, benchmark), err)
  {
    ghost var r0 := tx.root;
    err := WriteTaskMap(tx, p, SeedKey, seed);
    if err.Some? {
      return;
    }
    ghost var r1 := tx.root;
    err := WriteTaskMap(tx, p, BenchmarkKey, benchmark);
    ConfinedTrans(r0, r1, tx.root, p);
  }

  function PlanTasksIn(b: Bucket, seed: map<string, Task>, benchmark: map<string, Task>): (r: Result<Bucket, Error>) {
    var c :- EncTaskMap(b, SeedKey, seed);
    EncTaskMap(c, BenchmarkKey, benchmark)
  }

  method WritePlan(x: Texts, tx: Tx, p: Path, plan: ScenarioPlan) returns (err: Option<Error>)
    requires Exists(tx.root, p)
    modifies tx
    ensures Ran(old(tx.root), tx.root, p, EncPlan(x, At(old(tx.root), p), plan), err)
  {
    ghost var r0 := tx.root;
    ghost var m := CidTexts(x, plan.objects);
    PlanInSteps(At(r0, p), m == map[], MapEntries(m), plan.seed, plan.benchmark);
    err := WritePlanObjects(x, tx, p, plan.objects);
    if err.Some? {
      return;
    }
    ghost var r1 := tx.root;
    err := WritePlanTasks(tx, p, plan.seed, plan.benchmark);
    RanAfter(r0, r1, tx.root, p, PlanTasksIn(At(r1, p), plan.seed, plan.benchmark), err);
  }

  lemma PlanInSteps(b: Bucket, noObjects: bool, objects: Result<Bucket, Error>, seed: map<string, Task>, benchmark: map<string, Task>)
    ensures EncPlanWith(b, noObjects, objects, seed, benchmark) ==
      match PlanObjectsIn(b, noObjects, objects)
      case Success(c) => PlanTasksIn(c, seed, benchmark)
      case Failure(e) => Failure(e)
  {
  }

  function PlanObjectsIn(b: Bucket, noObjects: bool, objects: Result<Bucket, Error>): (r: Result<Bucket, Error>) {
    var c :- RecreateIn(b, ObjectsKey);
    ReplaceSub(c, ObjectsKey, noObjects, objects)
  }

  method WritePlanObjects(x: Texts, tx: Tx, p: Path, objects: map<string, Cid>) returns (err: Option<Error>)
    requires Exists(tx.root, p)
    modifies tx
    ensures Ran(old(tx.root), tx.root, p,
      PlanObjectsIn(At(old(tx.root), p), CidTexts(x, objects) == map[], MapEntries(CidTexts(x, objects))), err)
  {
    ghost var r0 := tx.root;
    err := RecreateBucket(tx, p, ObjectsKey);
    if err.Some? {
      return;
    }
    ghost var r1 := tx.root;
    var m := CidTexts(x, objects);
    err, m := WriteMap(tx, p, ObjectsKey, m);
    ConfinedTrans(r0, r1, tx.root, p);
  }

  // ----- benchmarks -----

  const ZERO_CLUSTER := Cluster("", "", [], [], Time(0), Time(0))
  const ZERO_SCENARIO := Scenario("", ScenarioDefinition(map[], map[], map[]), [], Time(0), Time(0))

  ghost function ClusterOf(x: Texts, sub: Option<Bucket>): Result<Cluster, Error> {
    match sub case None => Success(ZERO_CLUSTER) case Some(c) => DecCluster(x, "", c)
  }

  ghost function ScenarioOf(x: Texts, sub: Option<Bucket>): Result<Scenario, Error> {
    match sub case None => Success(ZERO_SCENARIO) case Some(c) => DecScenario(x, "", c)
  }

  /** Puts a benchmark together from what was read. */
  function BenchmarkFrom(id: string, status: string, times: Result<(Time, Time), Error>, cluster: Result<Cluster, Error>,
                         scenario: Result<Scenario, Error>, plan: Result<ScenarioPlan, Error>, labels: seq<string>):
      (r: Result<Benchmark, Error>)
    ensures r.Success? ==> r.value.labels == labels
  {
    var t :- times;
    var c :- cluster;
    var s :- scenario;
    var p :- plan;
    Success(Benchmark(id, status, c, s, p, labels, t.0, t.1))
  }

  ghost function DecBenchmark(x: Texts, id: string, b: Bucket): Result<Benchmark, Error> {
    BenchmarkBy(id, b, DecTimestamps(x, b), ClusterReader(x), ScenarioReader(x), PlanReader(x))
  }

  ghost function ClusterReader(x: Texts): Option<Bucket> -> Result<Cluster, Error> {
    s => ClusterOf(x, s)
  }

  ghost function ScenarioReader(x: Texts): Option<Bucket> -> Result<Scenario, Error> {
    s => ScenarioOf(x, s)
  }

  ghost function PlanReader(x: Texts): Option<Bucket> -> Result<ScenarioPlan, Error> {
    s => PlanOf(x, s)
  }

  ghost function BenchmarkBy(id: string, b: Bucket, times: Result<(Time, Time), Error>,
                             cluster: Option<Bucket> -> Result<Cluster, Error>,
                             scenario: Option<Bucket> -> Result<Scenario, Error>,
                             plan: Option<Bucket> -> Result<ScenarioPlan, Error>): (r: Result<Benchmark, Error>)
    ensures r.Success? ==> r.value.labels == DecLabels(b)
  {
    BenchmarkFrom(if ValueOf(b, IdKey).Some? then TextOf(b, IdKey) else id, TextOf(b, StatusKey), times,
                  cluster(SubOf(b, ClusterKey)), scenario(SubOf(b, ScenarioKey)), plan(SubOf(b, PlanKey)), DecLabels(b))
  }

  /** Nothing but the benchmark's own fields decides what is read. */
  lemma BenchmarkByFields(id: string, b: Bucket, d: Bucket, times: Result<(Time, Time), Error>,
                          cluster: Option<Bucket> -> Result<Cluster, Error>,
                          scenario: Option<Bucket> -> Result<Scenario, Error>,
                          plan: Option<Bucket> -> Result<ScenarioPlan, Error>)
    requires SubOf(d, ClusterKey) == SubOf(b, ClusterKey) && SubOf(d, ScenarioKey) == SubOf(b, ScenarioKey)
    requires SubOf(d, PlanKey) == SubOf(b, PlanKey) && SubOf(d, LabelsKey) == SubOf(b, LabelsKey)
    requires ValueOf(d, IdKey) == ValueOf(b, IdKey) && TextOf(d, IdKey) == TextOf(b, IdKey) && TextOf(d, StatusKey) == TextOf(b, StatusKey)
    ensures BenchmarkBy(id, d, times, cluster, scenario, plan) == BenchmarkBy(id, b, times, cluster, scenario, plan)
  {
  }

  lemma ReportDoesNotShow(x: Texts, id: string, b: Bucket, d: Bucket)
    requires SameExcept(b, d, {ReportKey})
    ensures DecBenchmark(x, id, d) == DecBenchmark(x, id, b)
  {
    Kept(b, d, {ReportKey}, CreatedAtKey);
    Kept(b, d, {ReportKey}, UpdatedAtKey);
    Kept(b, d, {ReportKey}, ClusterKey);
    Kept(b, d, {ReportKey}, ScenarioKey);
    Kept(b, d, {ReportKey}, PlanKey);
    Kept(b, d, {ReportKey}, LabelsKey);
    Kept(b, d, {ReportKey}, IdKey);
    Kept(b, d, {ReportKey}, StatusKey);
    TimesByFields(x, b, d);
    BenchmarkByFields(id, b, d, DecTimestamps(x, b), ClusterReader(x), ScenarioReader(x), PlanReader(x));
  }

  lemma BenchmarkLabels(x: Texts, id: string, b: Bucket)
    requires DecBenchmark(x, id, b).Success?
    ensures DecBenchmark(x, id, b).value.labels == DecLabels(b)
  {
  }

  /** What a written benchmark reads back as; none when a CID's text does not parse. */
  ghost function NormalBenchmark(x: Texts, m: Benchmark): (r: Result<Benchmark, Error>)
    ensures r.Failure? ==> r.error == Malformed
  {
    WithPlan(m, PlanKept(x, m.plan))
  }

  ghost function WithPlan(m: Benchmark, plan: Result<ScenarioPlan, Error>): Result<Benchmark, Error> {
    match plan
    case Failure(e) => Failure(e)
    case Success(p) =>
      Success(m.(cluster := NormalCluster(m.cluster), scenario := NormalScenario(m.scenario), plan := p,
                 labels := SortedSet(Members(m.labels))))
  }

  function BenchmarkFields(m: Benchmark): Fields {
    map[IdKey := m.id, StatusKey := m.status]
  }

  function BenchmarkRest(b: Bucket, m: Benchmark): (r: Result<Bucket, Error>) {
    var c :- EncLabels(b, m.labels);
    PutAllIn(c, BenchmarkFields(m))
  }

  function EncBenchmarkWith(x: Texts, b: Bucket, m: Benchmark, cluster: Result<Bucket, Error>,
                            scenario: Result<Bucket, Error>, plan: Result<Bucket, Error>): (r: Result<Bucket, Error>) {
    var b1 :- EncTimestamps(x, b, m.createdAt, m.updatedAt);
    EmbeddedIn(b1, m, cluster, scenario, plan)
  }

  function EmbeddedIn(b1: Bucket, m: Benchmark, cluster: Result<Bucket, Error>,
                      scenario: Result<Bucket, Error>, plan: Result<Bucket, Error>): (r: Result<Bucket, Error>) {
    var b2 :- Recreated(b1, ClusterKey, cluster);
    var b3 :- Recreated(b2, ScenarioKey, scenario);
    var b4 :- Recreated(b3, PlanKey, plan);
    BenchmarkRest(b4, m)
  }

  function EncBenchmark(x: Texts, b: Bucket, m: Benchmark): (r: Result<Bucket, Error>) {
    EncBenchmarkWith(x, b, m, EncCluster(x, map[], m.cluster), EncScenario(x, map[], m.scenario), EncPlan(x, map[], m.plan))
  }

  lemma RestReads(b: Bucket, m: Benchmark)
    requires BenchmarkRest(b, m).Success?
    ensures var e := BenchmarkRest(b, m).value;
      && SameExcept(b, e, {LabelsKey, IdKey, StatusKey})
      && LabelSet(e) == Members(m.labels) && ValueOf(e, IdKey) == Some(m.id) && TextOf(e, StatusKey) == m.status
  {
    var c := EncLabels(b, m.labels).value;
    var f := BenchmarkFields(m);
    LabelsReadBack(b, m.labels);
    assert forall k :: k in f ==> TextOf(c + Values(f), k) == f[k];
    Kept(c, c + Values(f), {IdKey, StatusKey}, LabelsKey);
  }

  /** What each step leaves alone, and what ends up under each key. */
  lemma BenchmarkParts(x: Texts, b: Bucket, m: Benchmark, cluster: Result<Bucket, Error>,
                       scenario: Result<Bucket, Error>, plan: Result<Bucket, Error>)
    requires EncBenchmarkWith(x, b, m, cluster, scenario, plan).Success? && x.TimesReadBack()
    ensures var e := EncBenchmarkWith(x, b, m, cluster, scenario, plan).value;
      && DecTimestamps(x, e) == Success((m.createdAt, m.updatedAt))
      && cluster.Success? && SubOf(e, ClusterKey) == Some(cluster.value)
      && scenario.Success? && SubOf(e, ScenarioKey) == Some(scenario.value)
      && plan.Success? && SubOf(e, PlanKey) == Some(plan.value)
      && LabelSet(e) == Members(m.labels) && ValueOf(e, IdKey) == Some(m.id) && TextOf(e, StatusKey) == m.status
      && ValueOf(e, ReportKey) == ValueOf(b, ReportKey)
  {
    var b1 := EncTimestamps(x, b, m.createdAt, m.updatedAt).value;
    TimestampsReadBack(x, b, m.createdAt, m.updatedAt);
    Kept(b, b1, {CreatedAtKey, UpdatedAtKey}, ReportKey);
    EmbeddedParts(b1, m, cluster, scenario, plan);
  }

  lemma EmbeddedParts(b1: Bucket, m: Benchmark, cluster: Result<Bucket, Error>,
                      scenario: Result<Bucket, Error>, plan: Result<Bucket, Error>)
    requires EmbeddedIn(b1, m, cluster, scenario, plan).Success?
    ensures var e := EmbeddedIn(b1, m, cluster, scenario, plan).value;
      && ValueOf(e, CreatedAtKey) == ValueOf(b1, CreatedAtKey) && ValueOf(e, UpdatedAtKey) == ValueOf(b1, UpdatedAtKey)
      && ValueOf(e, ReportKey) == ValueOf(b1, ReportKey)
      && cluster.Success? && SubOf(e, ClusterKey) == Some(cluster.value)
      && scenario.Success? && SubOf(e, ScenarioKey) == Some(scenario.value)
      && plan.Success? && SubOf(e, PlanKey) == Some(plan.value)
      && LabelSet(e) == Members(m.labels) && ValueOf(e, IdKey) == Some(m.id) && TextOf(e, StatusKey) == m.status
  {
    var b2 := Recreated(b1, ClusterKey, cluster).value;
    var b3 := Recreated(b2, ScenarioKey, scenario).value;
    var b4 := Recreated(b3, PlanKey, plan).value;
    RestReads(b4, m);
    EmbeddedKept(b1, b2, b3, b4, BenchmarkRest(b4, m).value);
  }

  lemma EmbeddedKept(b1: Bucket, b2: Bucket, b3: Bucket, b4: Bucket, e: Bucket)
    requires SameExcept(b1, b2, {ClusterKey}) && SameExcept(b2, b3, {ScenarioKey}) && SameExcept(b3, b4, {PlanKey})
    requires SameExcept(b4, e, {LabelsKey, IdKey, StatusKey})
    ensures ValueOf(e, CreatedAtKey) == ValueOf(b1, CreatedAtKey) && ValueOf(e, UpdatedAtKey) == ValueOf(b1, UpdatedAtKey)
    ensures ValueOf(e, ReportKey) == ValueOf(b1, ReportKey)
    ensures SubOf(e, ClusterKey) == SubOf(b2, ClusterKey)
    ensures SubOf(e, ScenarioKey) == SubOf(b3, ScenarioKey)
    ensures SubOf(e, PlanKey) == SubOf(b4, PlanKey)
  {
    var last := {LabelsKey, IdKey, StatusKey};
    KeptThrough(b1, b2, b3, b4, e, CreatedAtKey);
    KeptThrough(b1, b2, b3, b4, e, UpdatedAtKey);
    KeptThrough(b1, b2, b3, b4, e, ReportKey);
    Kept(b2, b3, {ScenarioKey}, ClusterKey);
    Kept(b3, b4, {PlanKey}, ClusterKey);
    Kept(b4, e, last, ClusterKey);
    Kept(b3, b4, {PlanKey}, ScenarioKey);
    Kept(b4, e, last, ScenarioKey);
    Kept(b4, e, last, PlanKey);
  }

  lemma KeptThrough(b1: Bucket, b2: Bucket, b3: Bucket, b4: Bucket, e: Bucket, k: Key)
    requires SameExcept(b1, b2, {ClusterKey}) && SameExcept(b2, b3, {ScenarioKey}) && SameExcept(b3, b4, {PlanKey})
    requires SameExcept(b4, e, {LabelsKey, IdKey, StatusKey})
    requires k !in {ClusterKey, ScenarioKey, PlanKey, LabelsKey, IdKey, StatusKey}
    ensures ValueOf(e, k) == ValueOf(b1, k)
  {
    Kept(b1, b2, {ClusterKey}, k);
    Kept(b2, b3, {ScenarioKey}, k);
    Kept(b3, b4, {PlanKey}, k);
    Kept(b4, e, {LabelsKey, IdKey, StatusKey}, k);
  }

  /** A written benchmark reads back in normal form, whatever earlier writes left in the
      bucket, and the report kept beside it is untouched. */
  lemma BenchmarkReadsBack(x: Texts, b: Bucket, m: Benchmark, id: string)
    requires x.TimesReadBack() && EncBenchmark(x, b, m).Success?
    ensures DecBenchmark(x, id, EncBenchmark(x, b, m).value) == NormalBenchmark(x, m)
    ensures ValueOf(EncBenchmark(x, b, m).value, ReportKey) == ValueOf(b, ReportKey)
  {
    var cluster, scenario, plan := EncCluster(x, map[], m.cluster), EncScenario(x, map[], m.scenario), EncPlan(x, map[], m.plan);
    BenchmarkParts(x, b, m, cluster, scenario, plan);
    ClusterReadsBack(x, map[], m.cluster, "");
    ScenarioReadsBack(x, map[], m.scenario, "");
    PlanReadsBack(x, m.plan);
    BenchmarkFromParts(x, m, id, EncBenchmarkWith(x, b, m, cluster, scenario, plan).value,
                       cluster.value, scenario.value, plan.value, PlanKept(x, m.plan));
  }

  lemma BenchmarkFromParts(x: Texts, m: Benchmark, id: string, e: Bucket, cluster: Bucket, scenario: Bucket, plan: Bucket,
                           kept: Result<ScenarioPlan, Error>)
    requires DecTimestamps(x, e) == Success((m.createdAt, m.updatedAt))
    requires SubOf(e, ClusterKey) == Some(cluster) && DecCluster(x, "", cluster) == Success(NormalCluster(m.cluster))
    requires SubOf(e, ScenarioKey) == Some(scenario) && DecScenario(x, "", scenario) == Success(NormalScenario(m.scenario))
    requires SubOf(e, PlanKey) == Some(plan) && PlanOf(x, Some(plan)) == kept
    requires LabelSet(e) == Members(m.labels) && ValueOf(e, IdKey) == Some(m.id) && TextOf(e, StatusKey) == m.status
    ensures DecBenchmark(x, id, e) == WithPlan(m, kept)
  {
  }

  method ReadEmbeddedCluster(x: Texts, tx: Tx, p: Path) returns (r: Result<Cluster, Error>)
    requires Exists(tx.root, p)
    ensures r == ClusterOf(x, SubOf(At(tx.root, p), ClusterKey))
  {
    if !tx.Has(p, ClusterKey) {
      return Success(ZERO_CLUSTER);
    }
    SubExists(tx.root, p, ClusterKey);
    r := ReadCluster(x, tx, p + [ClusterKey], "");
  }

  method ReadEmbeddedScenario(x: Texts, tx: Tx, p: Path) returns (r: Result<Scenario, Error>)
    requires Exists(tx.root, p)
    ensures r == ScenarioOf(x, SubOf(At(tx.root, p), ScenarioKey))
  {
    if !tx.Has(p, ScenarioKey) {
      return Success(ZERO_SCENARIO);
    }
    SubExists(tx.root, p, ScenarioKey);
    r := ReadScenario(x, tx, p + [ScenarioKey], "");
  }

  method ReadEmbeddedPlan(x: Texts, tx: Tx, p: Path) returns (r: Result<ScenarioPlan, Error>)
    requires Exists(tx.root, p)
    ensures r == PlanOf(x, SubOf(At(tx.root, p), PlanKey))
  {
    if !tx.Has(p, PlanKey) {
      return Success(ScenarioPlan(map[], map[], map[]));
    }
    SubExists(tx.root, p, PlanKey);
    r := ReadPlan(x, tx, p + [PlanKey]);
  }

  method ReadBenchmark(x: Texts, tx: Tx, p: Path, id: string) returns (r: Result<Benchmark, Error>)
    requires Exists(tx.root, p)
    ensures r == DecBenchmark(x, id, At(tx.root, p))
  {
    var times := ReadTimestamps(x, tx, p);
    if times.Failure? {
      return Failure(times.error);
    }
    var cluster := ReadEmbeddedCluster(x, tx, p);
    if cluster.Failure? {
      return Failure(cluster.error);
    }
    var scenario := ReadEmbeddedScenario(x, tx, p);
    if scenario.Failure? {
      return Failure(scenario.error);
    }
    var plan := ReadEmbeddedPlan(x, tx, p);
    if plan.Failure? {
      return Failure(plan.error);
    }
    var labels := ReadLabels(tx, p);
    var f := ReadFields(tx, p);
    return Success(Benchmark(if IdKey in f then f[IdKey] else id, Field(f, StatusKey), cluster.value, scenario.value,
                             plan.value, labels, times.value.0, times.value.1));
  }

  method WriteEmbeddedCluster(x: Texts, tx: Tx, p: Path, c: Cluster) returns (err: Option<Error>)
    requires Exists(tx.root, p)
    modifies tx
    ensures Ran(old(tx.root), tx.root, p, Recreated(At(old(tx.root), p), ClusterKey, EncCluster(x, map[], c)), err)
  {
    ghost var r0 := tx.root;
    err := RecreateBucket(tx, p, ClusterKey);
    if err.Some? {
      return;
    }
    ghost var r1 := tx.root;
    err := WriteCluster(x, tx, p + [ClusterKey], c);
    ghost var spec := EncCluster(x, map[], c);
    RanSub(r1, tx.root, p, ClusterKey, spec, err);
    RanAfter(r0, r1, tx.root, p, InSub(At(r1, p), ClusterKey, spec), err);
  }

  method WriteEmbeddedScenario(x: Texts, tx: Tx, p: Path, s0: Scenario) returns (err: Option<Error>, s: Scenario)
    requires Exists(tx.root, p)
    modifies tx
    ensures Ran(old(tx.root), tx.root, p, Recreated(At(old(tx.root), p), ScenarioKey, EncScenario(x, map[], s0)), err)
    ensures err == None ==> s == s0.(definition := NormalDefinition(s0.definition))
  {
    ghost var r0 := tx.root;
    s := s0;
    err := RecreateBucket(tx, p, ScenarioKey);
    if err.Some? {
      return;
    }
    ghost var r1 := tx.root;
    err, s := WriteScenario(x, tx, p + [ScenarioKey], s0);
    ghost var spec := EncScenario(x, map[], s0);
    RanSub(r1, tx.root, p, ScenarioKey, spec, err);
    RanAfter(r0, r1, tx.root, p, InSub(At(r1, p), ScenarioKey, spec), err);
  }

  method WriteEmbeddedPlan(x: Texts, tx: Tx, p: Path, plan: ScenarioPlan) returns (err: Option<Error>)
    requires Exists(tx.root, p)
    modifies tx
    ensures Ran(old(tx.root), tx.root, p, Recreated(At(old(tx.root), p), PlanKey, EncPlan(x, map[], plan)), err)
  {
    ghost var r0 := tx.root;
    err := RecreateBucket(tx, p, PlanKey);
    if err.Some? {
      return;
    }
    ghost var r1 := tx.root;
    err := WritePlan(x, tx, p + [PlanKey], plan);
    ghost var spec := EncPlan(x, map[], plan);
    RanSub(r1, tx.root, p, PlanKey, spec, err);
    RanAfter(r0, r1, tx.root, p, InSub(At(r1, p), PlanKey, spec), err);
  }

  method WriteBenchmarkRest(tx: Tx, p: Path, m: Benchmark) returns (err: Option<Error>)
    requires Exists(tx.root, p)
    modifies tx
    ensures Ran(old(tx.root), tx.root, p, BenchmarkRest(At(old(tx.root), p), m), err)
  {
    ghost var r0 := tx.root;
    err := WriteLabels(tx, p, m.labels);
    if err.Some? {
      return;
    }
    ghost var r1 := tx.root;
    err := PutAll(tx, p, BenchmarkFields(m));
    ConfinedTrans(r0, r1, tx.root, p);
  }

  method WriteBenchmark(x: Texts, tx: Tx, p: Path, m0: Benchmark) returns (err: Option<Error>, m: Benchmark)
    requires Exists(tx.root, p)
    modifies tx
    ensures Ran(old(tx.root), tx.root, p, EncBenchmark(x, At(old(tx.root), p), m0), err)
    ensures err == None ==>
      m == m0.(scenario := m0.scenario.(definition := NormalDefinition(m0.scenario.definition)))
  {
    ghost var r0 := tx.root;
    m := m0;
    err := WriteTimestamps(x, tx, p, m0.createdAt, m0.updatedAt);
    if err.Some? {
      return;
    }
    ghost var r1 := tx.root;
    err := WriteEmbeddedCluster(x, tx, p, m0.cluster);
    ConfinedTrans(r0, r1, tx.root, p);
    if err.Some? {
      return;
    }
    ghost var r2 := tx.root;
    var scenario;
    err, scenario := WriteEmbeddedScenario(x, tx, p, m0.scenario);
    ConfinedTrans(r0, r2, tx.root, p);
    if err.Some? {
      return;
    }
    m := m0.(scenario := scenario);
    ghost var r3 := tx.root;
    err := WriteEmbeddedPlan(x, tx, p, m0.plan);
    ConfinedTrans(r0, r3, tx.root, p);
    if err.Some? {
      return;
    }
    ghost var r4 := tx.root;
    err := WriteBenchmarkRest(tx, p, m0);
    ConfinedTrans(r0, r4, tx.root, p);
  }
}
