/** What a record reads back as, field by field, and what relabelling leaves as it was. */
module RecordLaws {
  import opened GoStrings
  import opened Results
  import opened Records
  import opened MetadataHelpers
  import opened NodeCodec
  import opened ClusterCodec
  import opened ScenarioCodec
  import opened BenchmarkCodec
  import opened ExperimentCodec
  import opened StoreRecords

  function CreatedAt(rec: Record): Time {
    match rec
    case OfCluster(c) => c.createdAt
    case OfNode(n) => n.createdAt
    case OfScenario(s) => s.createdAt
    case OfBenchmark(m) => m.createdAt
    case OfExperiment(e) => e.createdAt
  }

  function UpdatedAt(rec: Record): Time {
    match rec
    case OfCluster(c) => c.updatedAt
    case OfNode(n) => n.updatedAt
    case OfScenario(s) => s.updatedAt
    case OfBenchmark(m) => m.updatedAt
    case OfExperiment(e) => e.updatedAt
  }

  // ----- what was given and what is read -----

  /** The same labels, each once and in increasing order. */
  ghost predicate LabelsMirror(given: seq<string>, got: seq<string>) {
    StrictlySorted(got) && forall l :: l in got <==> l in given
  }

  /** A list that one value holds has no element with a comma, and is not a single empty one. */
  predicate OneValue(l: seq<string>) {
    l != [""] && forall s | s in l :: NoComma(s)
  }

  predicate ListMirrors(given: seq<string>, got: seq<string>) {
    got == given <==> OneValue(given)
  }

  predicate PeerMirrors(given: PeerDefinition, got: PeerDefinition) {
    && got.gitReference == given.gitReference && got.routing == given.routing
    && ListMirrors(given.transports, got.transports) && ListMirrors(given.muxers, got.muxers)
    && ListMirrors(given.securityTransports, got.securityTransports)
  }

  ghost predicate GroupMirrors(given: ClusterGroup, got: ClusterGroup) {
    && got.size == given.size && got.instanceType == given.instanceType && got.region == given.region
    && LabelsMirror(given.labels, got.labels) && (got.peer.Some? <==> given.peer.Some?)
    && (given.peer.Some? ==> PeerMirrors(given.peer.value, got.peer.value))
  }

  ghost predicate ClusterMirrors(given: Cluster, got: Cluster) {
    && got.id == given.id && got.status == given.status && LabelsMirror(given.labels, got.labels)
    && |got.groups| == |given.groups| && forall i :: 0 <= i < |given.groups| ==> GroupMirrors(given.groups[i], got.groups[i])
  }

  ghost predicate NodeMirrors(given: Node, got: Node) {
    && got.id == given.id && got.address == given.address && got.agentPort == given.agentPort && got.appPort == given.appPort
    && PeerMirrors(given.peer, got.peer) && LabelsMirror(given.labels, got.labels)
  }

  /** The queries with an action, and their actions. */
  ghost predicate ActionsMirror(given: map<string, string>, got: map<string, string>) {
    && (forall q :: q in got <==> q in given && given[q] != "")
    && forall q :: q in got ==> got[q] == given[q]
  }

  ghost predicate DefinitionMirrors(given: ScenarioDefinition, got: ScenarioDefinition) {
    got.objects == given.objects && ActionsMirror(given.seed, got.seed) && ActionsMirror(given.benchmark, got.benchmark)
  }

  ghost predicate ScenarioMirrors(given: Scenario, got: Scenario) {
    got.id == given.id && DefinitionMirrors(given.definition, got.definition) && LabelsMirror(given.labels, got.labels)
  }

  /** The objects whose CID has a text, each with the CID that the text parses to. */
  ghost predicate ObjectsMirror(x: Texts, given: map<string, Cid>, got: map<string, Cid>) {
    && (forall k :: k in got <==> k in given && x.cid(given[k]) != "")
    && forall k :: k in got ==> x.cidOf(x.cid(given[k])) == Some(got[k])
  }

  ghost predicate BenchmarkMirrors(x: Texts, given: Benchmark, got: Benchmark) {
    && got.id == given.id && got.status == given.status && LabelsMirror(given.labels, got.labels)
    && ClusterMirrors(given.cluster, got.cluster) && SameTimes(OfCluster(given.cluster), OfCluster(got.cluster))
    && ScenarioMirrors(given.scenario, got.scenario) && SameTimes(OfScenario(given.scenario), OfScenario(got.scenario))
    && got.plan.seed == given.plan.seed && got.plan.benchmark == given.plan.benchmark
    && ObjectsMirror(x, given.plan.objects, got.plan.objects)
  }

  ghost predicate ExperimentMirrors(before: seq<Report>, given: Experiment, got: Experiment) {
    && got.id == given.id && got.status == given.status && got.trials == given.trials && LabelsMirror(given.labels, got.labels)
    && got.reports == if before == [] then given.reports else before
  }

  predicate SameTimes(a: Record, b: Record) {
    CreatedAt(b) == CreatedAt(a) && UpdatedAt(b) == UpdatedAt(a)
  }

  /** What is read after `given` was written where `was` was, times aside. */
  ghost predicate Mirrors(x: Texts, was: Option<Record>, given: Record, got: Record) {
    match given
    case OfCluster(c) => got.OfCluster? && ClusterMirrors(c, got.cluster)
    case OfNode(n) => got.OfNode? && NodeMirrors(n, got.node)
    case OfScenario(s) => got.OfScenario? && ScenarioMirrors(s, got.scenario)
    case OfBenchmark(m) => got.OfBenchmark? && BenchmarkMirrors(x, m, got.benchmark)
    case OfExperiment(e) => got.OfExperiment? && ExperimentMirrors(ReportsIn(was), e, got.experiment)
  }

  lemma SortedMirror(labels: seq<string>)
    ensures LabelsMirror(labels, SortedSet(Members(labels)))
  {
    forall l ensures l in SortedSet(Members(labels)) <==> l in labels {
      assert l in Members(SortedSet(Members(labels))) <==> l in Members(labels);
    }
  }

  lemma NormalListMirrors(l: seq<string>)
    ensures ListMirrors(l, NormalList(l)) && OneValue(NormalList(l))
  {
    ListReadsBack(l);
    var text := Join(l, ",");
    if text != "" {
      SplitHasNoComma(text, "");
      if NormalList(l) == [""] {
        JoinOfSplit(text, "");
      }
    }
  }

  /** Only the empty text splits into a single empty piece. */
  lemma {:induction false} JoinOfSplit(s: string, run: string)
    requires SplitFrom(s, ',', run) == [""]
    ensures s == "" && run == ""
  {
    if s != "" && s[0] != ',' {
      JoinOfSplit(s[1..], run + [s[0]]);
    }
  }

  lemma NormalPeerMirrors(d: PeerDefinition)
    ensures PeerMirrors(d, NormalPeer(d)) && PeerSettled(NormalPeer(d))
  {
    NormalListMirrors(d.transports);
    NormalListMirrors(d.muxers);
    NormalListMirrors(d.securityTransports);
  }

  lemma NormalGroupMirrors(g: ClusterGroup)
    ensures GroupMirrors(g, NormalGroup(g)) && GroupSettled(NormalGroup(g))
  {
    SortedMirror(g.labels);
    if g.peer.Some? {
      NormalPeerMirrors(g.peer.value);
    }
  }

  lemma NormalClusterMirrors(c: Cluster)
    ensures ClusterMirrors(c, NormalCluster(c)) && SameTimes(OfCluster(c), OfCluster(NormalCluster(c)))
    ensures ClusterSettled(NormalCluster(c))
  {
    SortedMirror(c.labels);
    forall i | 0 <= i < |c.groups|
      ensures GroupMirrors(c.groups[i], NormalCluster(c).groups[i]) && GroupSettled(NormalCluster(c).groups[i])
    {
      NormalGroupMirrors(c.groups[i]);
    }
  }

  lemma NormalNodeMirrors(n: Node)
    ensures NodeMirrors(n, NormalNode(n)) && SameTimes(OfNode(n), OfNode(NormalNode(n)))
    ensures PeerSettled(NormalNode(n).peer)
  {
    SortedMirror(n.labels);
    NormalPeerMirrors(n.peer);
  }

  lemma NormalScenarioMirrors(s: Scenario)
    ensures ScenarioMirrors(s, NormalScenario(s)) && SameTimes(OfScenario(s), OfScenario(NormalScenario(s)))
    ensures ScenarioSettled(NormalScenario(s))
  {
    SortedMirror(s.labels);
  }

  lemma KeptObjectsMirror(x: Texts, objects: map<string, Cid>)
    requires CidsKept(x, objects).Success?
    ensures ObjectsMirror(x, objects, CidsKept(x, objects).value)
  {
  }

  lemma BenchmarkOfParts(x: Texts, m: Benchmark, cluster: Cluster, scenario: Scenario, objects: map<string, Cid>, labels: seq<string>)
    requires ClusterMirrors(m.cluster, cluster) && SameTimes(OfCluster(m.cluster), OfCluster(cluster))
    requires ScenarioMirrors(m.scenario, scenario) && SameTimes(OfScenario(m.scenario), OfScenario(scenario))
    requires ObjectsMirror(x, m.plan.objects, objects) && LabelsMirror(m.labels, labels)
    ensures var got := m.(cluster := cluster, scenario := scenario, plan := m.plan.(objects := objects), labels := labels);
      BenchmarkMirrors(x, m, got) && SameTimes(OfBenchmark(m), OfBenchmark(got))
  {
  }

  lemma NormalBenchmarkMirrors(x: Texts, m: Benchmark)
    requires NormalBenchmark(x, m).Success?
    ensures BenchmarkMirrors(x, m, NormalBenchmark(x, m).value)
    ensures SameTimes(OfBenchmark(m), OfBenchmark(NormalBenchmark(x, m).value)) && BenchmarkSettled(NormalBenchmark(x, m).value)
  {
    SortedMirror(m.labels);
    NormalClusterMirrors(m.cluster);
    NormalScenarioMirrors(m.scenario);
    KeptObjectsMirror(x, m.plan.objects);
    BenchmarkOfParts(x, m, NormalCluster(m.cluster), NormalScenario(m.scenario), CidsKept(x, m.plan.objects).value,
                     SortedSet(Members(m.labels)));
  }

  /** Every record reads back as given, in all its fields. */
  lemma NormalMirrors(x: Texts, was: Option<Record>, rec: Record)
    requires Normal(x, was, rec).Some?
    ensures var got := Normal(x, was, rec).value; Mirrors(x, was, rec, got) && SameTimes(rec, got) && Settled(got)
  {
    match rec
    case OfCluster(c) => NormalClusterMirrors(c);
    case OfNode(n) => NormalNodeMirrors(n);
    case OfScenario(s) => NormalScenarioMirrors(s);
    case OfBenchmark(m) => NormalBenchmarkMirrors(x, m);
    case OfExperiment(e) => SortedMirror(e.labels);
  }

  // ----- what is read stays as it is -----

  predicate PeerSettled(d: PeerDefinition) {
    OneValue(d.transports) && OneValue(d.muxers) && OneValue(d.securityTransports)
  }

  ghost predicate GroupSettled(g: ClusterGroup) {
    StrictlySorted(g.labels) && (g.peer.Some? ==> PeerSettled(g.peer.value))
  }

  ghost predicate ClusterSettled(c: Cluster) {
    StrictlySorted(c.labels) && forall i :: 0 <= i < |c.groups| ==> GroupSettled(c.groups[i])
  }

  predicate NoEmptyAction(actions: map<string, string>) {
    forall q :: q in actions ==> actions[q] != ""
  }

  ghost predicate ScenarioSettled(s: Scenario) {
    StrictlySorted(s.labels) && NoEmptyAction(s.definition.seed) && NoEmptyAction(s.definition.benchmark)
  }

  ghost predicate BenchmarkSettled(m: Benchmark) {
    ClusterSettled(m.cluster) && ScenarioSettled(m.scenario)
  }

  /** What was read reads back unchanged when it is written again. */
  ghost predicate Settled(rec: Record) {
    match rec
    case OfCluster(c) => ClusterSettled(c)
    case OfNode(n) => PeerSettled(n.peer)
    case OfScenario(s) => ScenarioSettled(s)
    case OfBenchmark(m) => BenchmarkSettled(m)
    case OfExperiment(_) => true
  }

  lemma LabelsStay(given: seq<string>, got: seq<string>)
    requires LabelsMirror(given, got) && StrictlySorted(given)
    ensures got == given
  {
    StrictlySortedUnique(given, got);
  }

  lemma GroupStays(given: ClusterGroup, got: ClusterGroup)
    requires GroupMirrors(given, got) && GroupSettled(given)
    ensures got == given
  {
    LabelsStay(given.labels, got.labels);
  }

  lemma GroupsStay(given: Cluster, got: Cluster)
    requires ClusterMirrors(given, got) && ClusterSettled(given)
    ensures got.groups == given.groups && got.labels == given.labels
  {
    LabelsStay(given.labels, got.labels);
    forall i | 0 <= i < |given.groups| ensures got.groups[i] == given.groups[i] {
      GroupStays(given.groups[i], got.groups[i]);
    }
  }

  lemma ActionsStay(given: map<string, string>, got: map<string, string>)
    requires ActionsMirror(given, got) && NoEmptyAction(given)
    ensures got == given
  {
  }

  lemma ScenarioStays(given: Scenario, got: Scenario)
    requires ScenarioMirrors(given, got) && ScenarioSettled(given)
    ensures got.definition == given.definition && got.labels == given.labels
  {
    LabelsStay(given.labels, got.labels);
    ActionsStay(given.definition.seed, got.definition.seed);
    ActionsStay(given.definition.benchmark, got.definition.benchmark);
  }

  lemma ObjectsStay(x: Texts, given: map<string, Cid>, got: map<string, Cid>)
    requires ObjectsMirror(x, given, got)
    ensures got == given <==> CidsReadBack(x, given)
  {
    if got == given {
      forall k | k in given ensures x.cid(given[k]) != "" && x.cidOf(x.cid(given[k])) == Some(given[k]) {
        assert k in got;
      }
    }
  }

  // ----- what relabelling leaves as it was -----

  /** Nothing differs but the labels and the time of the last change, and, in a benchmark, the
      CIDs of its objects. */
  predicate OnlyLabels(a: Record, b: Record) {
    match a
    case OfCluster(c) =>
      b.OfCluster? && b.cluster.id == c.id && b.cluster.status == c.status && b.cluster.groups == c.groups
      && b.cluster.createdAt == c.createdAt
    case OfNode(n) =>
      b.OfNode? && b.node.id == n.id && b.node.address == n.address && b.node.agentPort == n.agentPort
      && b.node.appPort == n.appPort && b.node.peer == n.peer && b.node.createdAt == n.createdAt
    case OfScenario(s) =>
      b.OfScenario? && b.scenario.id == s.id && b.scenario.definition == s.definition && b.scenario.createdAt == s.createdAt
    case OfBenchmark(m) =>
      b.OfBenchmark? && b.benchmark.id == m.id && b.benchmark.status == m.status && b.benchmark.cluster == m.cluster
      && b.benchmark.scenario == m.scenario && b.benchmark.plan.seed == m.plan.seed
      && b.benchmark.plan.benchmark == m.plan.benchmark && b.benchmark.createdAt == m.createdAt
    case OfExperiment(e) =>
      b.OfExperiment? && b.experiment.id == e.id && b.experiment.status == e.status && b.experiment.trials == e.trials
      && b.experiment.reports == e.reports && b.experiment.createdAt == e.createdAt
  }

  function Objects(rec: Record): map<string, Cid> {
    if rec.OfBenchmark? then rec.benchmark.plan.objects else map[]
  }

  lemma OnlyLabelsTwice(a: Record, b: Record, c: Record)
    requires OnlyLabels(a, b) && OnlyLabels(b, c)
    ensures OnlyLabels(a, c)
  {
  }

  /** A settled record that is read back from where it was. */
  lemma SettledStays(x: Texts, was: Option<Record>, rec: Record, got: Record)
    requires Settled(rec) && Mirrors(x, was, rec, got) && SameTimes(rec, got)
    requires ReportsIn(was) in {[], ReportsIn(Some(rec))}
    ensures OnlyLabels(rec, got) && UpdatedAt(got) == UpdatedAt(rec)
    ensures Objects(got) == Objects(rec) <==> CidsReadBack(x, Objects(rec))
  {
    match rec
    case OfCluster(c) => GroupsStay(c, got.cluster);
    case OfNode(_) =>
    case OfScenario(s) => ScenarioStays(s, got.scenario);
    case OfBenchmark(m) =>
      GroupsStay(m.cluster, got.benchmark.cluster);
      ScenarioStays(m.scenario, got.benchmark.scenario);
      ObjectsStay(x, m.plan.objects, got.benchmark.plan.objects);
    case OfExperiment(_) =>
  }

  /** What was read and is written again where it was reads back as it was; the CIDs of a
      benchmark's objects do exactly when their texts parse back to them. */
  lemma NormalIdempotent(x: Texts, was: Option<Record>, rec: Record)
    requires Normal(x, was, rec).Some?
    ensures var once := Normal(x, was, rec); var twice := Normal(x, once, once.value);
      && (twice == once <==> CidsReadBack(x, Objects(once.value)))
      && (!rec.OfBenchmark? ==> twice == once)
  {
    var once := Normal(x, was, rec);
    NormalMirrors(x, was, rec);
    TopLabels(x, was, rec);
    SameKind(x, was, rec);
    WrittenAgain(x, once.value);
  }

  lemma SameKind(x: Texts, was: Option<Record>, rec: Record)
    requires Normal(x, was, rec).Some?
    ensures Normal(x, was, rec).value.OfBenchmark? <==> rec.OfBenchmark?
  {
  }

  lemma WrittenAgain(x: Texts, rec: Record)
    requires Settled(rec) && StrictlySorted(Labels(rec))
    ensures Normal(x, Some(rec), rec) == Some(rec) <==> CidsReadBack(x, Objects(rec))
    ensures !rec.OfBenchmark? ==> Normal(x, Some(rec), rec) == Some(rec)
  {
    var o := Normal(x, Some(rec), rec);
    NotReadAgain(x, rec);
    if o.Some? {
      NormalMirrors(x, Some(rec), rec);
      SettledStays(x, Some(rec), rec, o.value);
      SortedTwice(x, Some(rec), rec);
      SameRecord(rec, o.value);
    }
  }

  lemma NotReadAgain(x: Texts, rec: Record)
    ensures Normal(x, Some(rec), rec).None? ==> rec.OfBenchmark? && !CidsReadBack(x, Objects(rec))
  {
    CidsRead(x, Objects(rec));
  }

  lemma SameRecord(a: Record, b: Record)
    requires OnlyLabels(a, b) && UpdatedAt(b) == UpdatedAt(a) && Labels(b) == Labels(a)
    ensures b == a <==> Objects(b) == Objects(a)
    ensures !a.OfBenchmark? ==> b == a
  {
  }

  lemma SortedTwice(x: Texts, was: Option<Record>, rec: Record)
    requires Normal(x, was, rec).Some? && StrictlySorted(Labels(rec))
    ensures Labels(Normal(x, was, rec).value) == Labels(rec)
  {
    SortedMirror(Labels(rec));
    LabelsStay(Labels(rec), SortedSet(Members(Labels(rec))));
  }

  lemma TopLabels(x: Texts, was: Option<Record>, rec: Record)
    requires Normal(x, was, rec).Some?
    ensures StrictlySorted(Labels(Normal(x, was, rec).value))
  {
    SortedMirror(Labels(rec));
  }

  /** A record that was read, written with other labels at some time, and read again. */
  ghost predicate Reread(x: Texts, rec: Record, labels: seq<string>, now: Time, got: Record) {
    && OnlyLabels(rec, got) && UpdatedAt(got) == now && Labels(got) == labels && Settled(got)
    && (Objects(got) == Objects(rec) <==> CidsReadBack(x, Objects(rec)))
  }

  lemma RelabelledSettled(rec: Record, labels: seq<string>, now: Time)
    requires Settled(rec) && StrictlySorted(labels)
    ensures var next := Relabelled(rec, labels, now);
      && Settled(next) && OnlyLabels(rec, next) && UpdatedAt(next) == now && Labels(next) == labels
      && Objects(next) == Objects(rec) && ReportsIn(Some(next)) == ReportsIn(Some(rec))
  {
  }

  lemma RelabelledReads(x: Texts, rec: Record, labels: seq<string>, now: Time)
    requires Settled(rec) && StrictlySorted(labels)
    ensures var o := Normal(x, Some(rec), Relabelled(rec, labels, now)); o.Some? ==> Reread(x, rec, labels, now, o.value)
  {
    var next := Relabelled(rec, labels, now);
    RelabelledSettled(rec, labels, now);
    var o := Normal(x, Some(rec), next);
    if o.Some? {
      NormalMirrors(x, Some(rec), next);
      SettledStays(x, Some(rec), next, o.value);
      OnlyLabelsTwice(rec, next, o.value);
      SortedTwice(x, Some(rec), next);
    }
  }
}
