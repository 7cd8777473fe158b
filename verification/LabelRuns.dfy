/** metadata/helpers.go over runs from an empty store: two nodes that one call relabels do not
    both get the label. */
module LabelRuns {
  import opened GoStrings
  import opened Results
  import opened Records
  import opened MetadataHelpers
  import opened NodeCodec
  import opened StoreRecords
  import opened StoreTree
  import opened StoreSteps
  import opened StoreFormat
  import opened StoreRuns
  import opened StoreFrames
  import opened LabelBatch
  import opened RecordLaws
  import opened RecordRuns
  import Lifecycle

  const CLUSTER_C := Cluster("c", "created", [], ["c"], Time(0), Time(0))

  function NodeWith(id: string, labels: seq<string>): Node {
    Node(id, "", 0, 0, PeerDefinition("", [], [], [], ""), labels, Time(0), Time(0))
  }

  function NodeAt(id: string): Slot {
    Slot(Nodes("c"), id)
  }

  function Pair(labels: seq<string>): seq<Record> {
    [OfNode(NodeWith("1", labels)), OfNode(NodeWith("2", []))]
  }

  /** Cluster "c" is created, and in it two nodes, the first with these labels and the second
      with none. */
  function TwoNodes(labels: seq<string>, clock: nat -> Time): seq<Call> {
    [Call.Create(Clusters, [OfCluster(CLUSTER_C)], clock), Call.Create(Nodes("c"), Pair(labels), clock)]
  }

  /** The nodes named are given the label "a". */
  function AddA(ids: seq<string>, clock: nat -> Time): Call {
    Call.Label(Nodes("c"), ids, ["a"], [], clock)
  }

  /** No call of the run is refused. */
  ghost predicate AllAccepted(s: Store, calls: seq<Call>) {
    forall k: nat :: k < |calls| ==> ReplyAfter(s, calls[..k], calls[k]).Success?
  }

  /** In the run that makes the two nodes and adds "a" to both, every call is accepted; node "2"
      has no label before and none after, although "1" has got the label or had it. */
  ghost predicate SecondMisses(s: Store, labels: seq<string>, ids: seq<string>, clock: nat -> Time, now: nat -> Time) {
    var before := TwoNodes(labels, clock);
    var after := before + [AddA(ids, now)];
    && AllAccepted(s, after) && "1" in ids && "2" in ids
    && LabelsRead(s, before, NodeAt("1")) == Some(Members(labels)) && LabelsRead(s, before, NodeAt("2")) == Some({})
    && LabelsRead(s, after, NodeAt("1")) == Some({"a"}) && LabelsRead(s, after, NodeAt("2")) == Some({})
  }

  lemma ClusterMade(s: Store, clock: nat -> Time)
    requires Refines(s) && Lifecycle.ClusterRules(s.rules)
    ensures ReplyAfter(s, [], Call.Create(Clusters, [OfCluster(CLUSTER_C)], clock)).Success?
  {
    var rec := OfCluster(CLUSTER_C);
    CreateAccepted(s, [], Clusters, [rec], clock);
    AbsentIsPlain(s, [], Slot(Clusters, "c"));
    OneNew(s.rules, !Absent(s, [], Slot(Clusters, "c")), rec, clock(0));
    assert Lifecycle.ClusterRule(s.rules, None, Created(rec, clock(0)).cluster);
    assert ["c"][0] != "";
  }

  lemma NodeReads(s: Store, calls: seq<Call>, node: Node)
    requires Lifecycle.ClusterRules(s.rules) && ReadsAs(GetAfter(s, calls, NodeAt(node.id)), s.rules.normal(None, OfNode(node)))
    ensures LabelsRead(s, calls, NodeAt(node.id)) == Some(Members(node.labels))
    ensures Relabellable(WasAfter(s, calls, NodeAt(node.id)))
  {
    assert Lifecycle.NodeRule(s.rules, None, node);
    ReadsWas(s, calls, NodeAt(node.id), OfNode(NormalNode(node)));
    assert Members(SortedSet(Members(node.labels))) == Members(node.labels);
  }

  /** Nodes are missing from a store that holds a cluster only. */
  lemma NoNodesYet(s: Store, clock: nat -> Time, id: string)
    requires Refines(s)
    ensures Absent(s, [CreateC(clock)], NodeAt(id))
  {
    AbsentIsPlain(s, [], NodeAt(id));
    assert [] + [CreateC(clock)] == [CreateC(clock)];
    UnnamedRecordStays(s, [], [CreateC(clock)], NodeAt(id));
  }

  lemma NodesAccepted(s: Store, labels: seq<string>, clock: nat -> Time)
    requires Refines(s) && Lifecycle.ClusterRules(s.rules) && "" !in labels
    ensures ReplyAfter(s, [CreateC(clock)], Call.Create(Nodes("c"), Pair(labels), clock)).Success?
  {
    var recs := Pair(labels);
    CreateAccepted(s, [CreateC(clock)], Nodes("c"), recs, clock);
    forall i: nat | i < 2 ensures NewAt(s.rules, !Absent(s, [CreateC(clock)], NodeAt(Id(recs[i]))), recs, i, clock(i)) {
      NoNodesYet(s, clock, Id(recs[i]));
      assert Lifecycle.NodeRule(s.rules, None, Created(recs[i], clock(i)).node);
    }
  }

  lemma NodesMade(s: Store, labels: seq<string>, clock: nat -> Time)
    requires Refines(s) && Lifecycle.ClusterRules(s.rules) && "" !in labels
    ensures var calls := TwoNodes(labels, clock);
      && AllProper(calls) && AllAccepted(s, calls)
      && LabelsRead(s, calls, NodeAt("1")) == Some(Members(labels)) && Relabellable(WasAfter(s, calls, NodeAt("1")))
      && LabelsRead(s, calls, NodeAt("2")) == Some({}) && Relabellable(WasAfter(s, calls, NodeAt("2")))
  {
    var calls, recs := TwoNodes(labels, clock), Pair(labels);
    ClusterMade(s, clock);
    NodesAccepted(s, labels, clock);
    assert calls[..0] == [] && calls[..1] == [CreateC(clock)] && calls[..1] + [calls[1]] == calls;
    CreateReadsBack(s, calls[..1], Nodes("c"), recs, clock, 0);
    CreateReadsBack(s, calls[..1], Nodes("c"), recs, clock, 1);
    NodeReads(s, calls, Created(recs[0], clock(0)).node);
    NodeReads(s, calls, Created(recs[1], clock(1)).node);
    assert Members([]) == {};
  }

  /** The nodes keep their labels, and the store before relabelling is as read. */
  lemma KeptAsRead(s: Store, calls: seq<Call>, id: string)
    requires Refines(s) && AllProper(calls) && LabelsRead(s, calls, NodeAt(id)).Some?
    ensures KeptOf(RunPlain(s.rules, NO_RECORDS, calls).0, Nodes("c"), id, {}) == LabelsRead(s, calls, NodeAt(id)).value
  {
    GetAfterIsPlain(s, calls, NodeAt(id));
  }

  lemma Labelled(s: Store, labels: seq<string>, ids: seq<string>, clock: nat -> Time, now: nat -> Time)
    requires Refines(s) && Lifecycle.ClusterRules(s.rules) && LabelRules(s.rules) && "" !in labels
    requires forall id :: id in ids ==> id == "1" || id == "2"
    ensures var calls := TwoNodes(labels, clock);
      && AllProper(calls) && AllAccepted(s, calls + [AddA(ids, now)])
      && LabelsRead(s, calls, NodeAt("1")) == Some(Members(labels)) && LabelsRead(s, calls, NodeAt("2")) == Some({})
  {
    var calls := TwoNodes(labels, clock);
    NodesMade(s, labels, clock);
    LabelAccepted(s, calls, Nodes("c"), ids, ["a"], [], now);
    assert ["a"][0] != "";
    forall k: nat | k <= 2 ensures ReplyAfter(s, (calls + [AddA(ids, now)])[..k], (calls + [AddA(ids, now)])[k]).Success? {
      assert (calls + [AddA(ids, now)])[..k] == calls[..k];
      assert calls[..2] == calls;
    }
  }

  /** Node "1" has the label "a" already and node "2" does not: adding "a" to both is accepted
      and leaves "2" without it. */
  lemma LostLabel(x: Texts, clock: nat -> Time, now: nat -> Time)
    requires x.Lossless()
    ensures SecondMisses(StoreOf(FormatOf(x)), ["a"], ["1", "2"], clock, now)
  {
    StoreIsReady(x);
    Lost(StoreOf(FormatOf(x)), clock, now);
  }

  lemma StoreIsReady(x: Texts)
    requires x.Lossless()
    ensures var s := StoreOf(FormatOf(x)); Refines(s) && Lifecycle.ClusterRules(s.rules) && LabelRules(s.rules)
  {
    FormatIsFaithful(x);
    StoreRefines(FormatOf(x));
    Lifecycle.FormatClusterRules(x);
    FormatLabelRules(x);
  }

  lemma Lost(s: Store, clock: nat -> Time, now: nat -> Time)
    requires Refines(s) && Lifecycle.ClusterRules(s.rules) && LabelRules(s.rules)
    ensures SecondMisses(s, ["a"], ["1", "2"], clock, now)
  {
    var ids, calls := ["1", "2"], TwoNodes(["a"], clock);
    AIsOne();
    Labelled(s, ["a"], ids, clock, now);
    LastAccepted(s, calls, AddA(ids, now));
    KeptAsRead(s, calls, "1");
    KeptAsRead(s, calls, "2");
    LeavesLess(RunPlain(s.rules, NO_RECORDS, calls).0);
    NewLabelsRead(s, calls, Nodes("c"), ids, ["a"], [], now, 0);
    NewLabelsRead(s, calls, Nodes("c"), ids, ["a"], [], now, 1);
  }

  lemma LeavesLess(p: Plain)
    requires KeptOf(p, Nodes("c"), "1", {}) == {"a"} && KeptOf(p, Nodes("c"), "2", {}) == {}
    ensures var ids := ["1", "2"];
      && First(ids, 0) && NewLabels(p, Nodes("c"), ids, 0, {"a"}, {}) == {"a"}
      && First(ids, 1) && NewLabels(p, Nodes("c"), ids, 1, {"a"}, {}) == {}
  {
    var ids := ["1", "2"];
    FirstAsIntended(p, Nodes("c"), ids, {"a"}, {});
    NotLeft(p, Nodes("c"), ids, 1, 0, {"a"}, {}, "a");
    LeftShrinks(p, Nodes("c"), ids[..1], 1, {"a"}, {});
  }

  /** A cluster that is created and then labelled keeps its status and everything else. */
  lemma LabelledCluster(x: Texts, clock: nat -> Time, now: nat -> Time)
    requires x.Lossless()
    ensures var s, calls := StoreOf(FormatOf(x)), [CreateC(clock), Call.Label(Clusters, ["c"], ["x"], [], now)];
      AllAccepted(s, calls) && ReadsAsC(WasAfter(s, calls, Slot(Clusters, "c")), {"c", "x"}, clock(0), now(0))
  {
    StoreIsReady(x);
    FormatRecordRules(x);
    LabelledOnce(x, StoreOf(FormatOf(x)), clock, now);
  }

  function CreateC(clock: nat -> Time): Call {
    Call.Create(Clusters, [OfCluster(CLUSTER_C)], clock)
  }

  /** Cluster "c" as it was given, with these labels and made and changed then. */
  ghost predicate ReadsAsC(o: Option<Record>, labels: set<string>, made: Time, changed: Time) {
    && o.Some? && o.value.OfCluster? && Members(Labels(o.value)) == labels
    && o.value.cluster == Cluster("c", "created", [], Labels(o.value), made, changed)
  }

  lemma CreatedOnce(x: Texts, s: Store, clock: nat -> Time)
    requires Refines(s) && Lifecycle.ClusterRules(s.rules) && RecordRules(x, s.rules)
    ensures ReplyAfter(s, [], CreateC(clock)).Success?
    ensures ReadsAsC(WasAfter(s, [CreateC(clock)], Slot(Clusters, "c")), {"c"}, clock(0), clock(0))
  {
    ClusterMade(s, clock);
    CreationReads(x, s, [], Clusters, [OfCluster(CLUSTER_C)], clock, 0);
    assert [] + [CreateC(clock)] == [CreateC(clock)];
    assert ["c"][0] == "c";
  }

  lemma LabelledOnce(x: Texts, s: Store, clock: nat -> Time, now: nat -> Time)
    requires Refines(s) && Lifecycle.ClusterRules(s.rules) && LabelRules(s.rules) && RecordRules(x, s.rules)
    ensures var calls := [CreateC(clock), Call.Label(Clusters, ["c"], ["x"], [], now)];
      AllAccepted(s, calls) && ReadsAsC(WasAfter(s, calls, Slot(Clusters, "c")), {"c", "x"}, clock(0), now(0))
  {
    var create, call := CreateC(clock), Call.Label(Clusters, ["c"], ["x"], [], now);
    CreatedOnce(x, s, clock);
    assert [create] + [call] == [create, call];
    NotEmptyX();
    LabelAccepted(s, [create], Clusters, ["c"], ["x"], [], now);
    RelabelledReadsOn(x, s, [create], Clusters, ["c"], ["x"], [], now, 0);
    NewLabelsRead(s, [create], Clusters, ["c"], ["x"], [], now, 0);
    OneLabelMore(s, [create]);
    TwoAccepted(s, create, call);
  }

  lemma NotEmptyX()
    ensures "" !in ["x"]
  {
    assert ["x"][0] != "";
  }

  lemma TwoAccepted(s: Store, create: Call, call: Call)
    requires ReplyAfter(s, [], create).Success? && ReplyAfter(s, [create], call).Success?
    ensures AllAccepted(s, [create, call])
  {
    assert [create, call][..0] == [] && [create, call][..1] == [create];
  }

  lemma OneLabelMore(s: Store, calls: seq<Call>)
    requires Refines(s) && AllProper(calls) && LabelsRead(s, calls, Slot(Clusters, "c")) == Some({"c"})
    ensures NewLabels(RunPlain(s.rules, NO_RECORDS, calls).0, Clusters, ["c"], 0, Members(["x"]), Members([])) == {"c", "x"}
  {
    var p := RunPlain(s.rules, NO_RECORDS, calls).0;
    GetAfterIsPlain(s, calls, Slot(Clusters, "c"));
    FirstAsIntended(p, Clusters, ["c"], Members(["x"]), Members([]));
    assert ["x"][0] == "x";
  }

  lemma AIsOne()
    ensures Members(["a"]) == {"a"} && "" !in ["a"] && Members([]) == {}
  {
    assert ["a"][0] == "a";
  }

  lemma LastAccepted(s: Store, calls: seq<Call>, call: Call)
    requires AllAccepted(s, calls + [call])
    ensures ReplyAfter(s, calls, call).Success?
  {
    assert (calls + [call])[..|calls|] == calls && (calls + [call])[|calls|] == call;
  }

  /** Neither node has the label "a": adding it to both, with "1" named twice, is accepted and
      leaves "2" without it. */
  lemma LostByRepeating(x: Texts, clock: nat -> Time, now: nat -> Time)
    requires x.Lossless()
    ensures SecondMisses(StoreOf(FormatOf(x)), [], ["1", "1", "2"], clock, now)
  {
    StoreIsReady(x);
    LostAgain(StoreOf(FormatOf(x)), clock, now);
  }

  lemma LostAgain(s: Store, clock: nat -> Time, now: nat -> Time)
    requires Refines(s) && Lifecycle.ClusterRules(s.rules) && LabelRules(s.rules)
    ensures SecondMisses(s, [], ["1", "1", "2"], clock, now)
  {
    var ids, calls := ["1", "1", "2"], TwoNodes([], clock);
    AIsOne();
    Labelled(s, [], ids, clock, now);
    LastAccepted(s, calls, AddA(ids, now));
    KeptAsRead(s, calls, "1");
    KeptAsRead(s, calls, "2");
    LeavesNone(RunPlain(s.rules, NO_RECORDS, calls).0);
    NewLabelsRead(s, calls, Nodes("c"), ids, ["a"], [], now, 0);
    NewLabelsRead(s, calls, Nodes("c"), ids, ["a"], [], now, 2);
  }

  lemma LeavesNone(p: Plain)
    requires KeptOf(p, Nodes("c"), "1", {}) == {} && KeptOf(p, Nodes("c"), "2", {}) == {}
    ensures var ids := ["1", "1", "2"];
      && First(ids, 0) && NewLabels(p, Nodes("c"), ids, 0, {"a"}, {}) == {"a"}
      && First(ids, 2) && NewLabels(p, Nodes("c"), ids, 2, {"a"}, {}) == {}
  {
    var ids := ["1", "1", "2"];
    var before := ids[..2];
    assert before[0] == before[1] && !NoDuplicates(before);
    FirstAsIntended(p, Nodes("c"), ids, {"a"}, {});
  }
}
