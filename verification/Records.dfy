/** The records that the planner, the stores and the report printer exchange.

    A nil map or slice and an empty one are the same value here. */
module Records {
  import opened Results

  type Int64 = x: int | -0x8000_0000_0000_0000 <= x < 0x8000_0000_0000_0000

  /** An instant in UTC. */
  datatype Time = Time(nanos: int)

  /** A content identifier; no bytes is the undefined one. */
  datatype Cid = Cid(bytes: string)

  datatype Task = Task(kind: string, subject: string)

  datatype ScenarioPlan = ScenarioPlan(objects: map<string, Cid>, seed: map<string, Task>, benchmark: map<string, Task>)

  datatype ObjectDefinition = ObjectDefinition(
    kind: string, source: string, layout: string, chunker: string,
    rawLeaves: bool, hashFunc: string, maxLinks: Int64)

  datatype ScenarioDefinition = ScenarioDefinition(
    objects: map<string, ObjectDefinition>, seed: map<string, string>, benchmark: map<string, string>)

  datatype Scenario = Scenario(
    id: string, definition: ScenarioDefinition, labels: seq<string>, createdAt: Time, updatedAt: Time)

  datatype PeerDefinition = PeerDefinition(
    gitReference: string, transports: seq<string>, muxers: seq<string>,
    securityTransports: seq<string>, routing: string)

  datatype ClusterGroup = ClusterGroup(
    size: Int64, instanceType: string, region: string, peer: Option<PeerDefinition>, labels: seq<string>)

  datatype Cluster = Cluster(
    id: string, status: string, groups: seq<ClusterGroup>, labels: seq<string>, createdAt: Time, updatedAt: Time)

  datatype Node = Node(
    id: string, address: string, agentPort: Int64, appPort: Int64, peer: PeerDefinition,
    labels: seq<string>, createdAt: Time, updatedAt: Time)

  datatype Benchmark = Benchmark(
    id: string, status: string, cluster: Cluster, scenario: Scenario, plan: ScenarioPlan,
    labels: seq<string>, createdAt: Time, updatedAt: Time)

  /** A report: the ids of the nodes it has figures for, the ids each benchmark query
      matched, and the figures themselves, which nothing here looks into. */
  datatype Report = Report(nodes: set<string>, queries: map<string, seq<string>>, figures: string)

  /** An experiment; a trial's definition is kept as its own text. */
  datatype Experiment = Experiment(
    id: string, status: string, trials: seq<string>, reports: seq<Report>,
    labels: seq<string>, createdAt: Time, updatedAt: Time)
}
