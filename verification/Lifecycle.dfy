/** labd/routers/helpers/helpers.go: how a cluster comes to be and goes.

    The provider and the health check are parameters: what they answer, or that they fail.
    The history lists every state of the store that was ever committed. */
module Lifecycle {
  import opened GoStrings
  import opened Results
  import opened Records
  import opened Buckets
  import opened MetadataHelpers
  import opened NodeCodec
  import opened ClusterCodec
  import opened StoreRecords
  import opened StoreTree
  import opened StoreSteps
  import opened StoreRefinement
  import opened StoreFormat
  import opened StoreRuns
  import opened StoreFrames
  import opened Database

  // ----- what a committed state says of a cluster -----

  /** The cluster has exactly these node records. */
  ghost predicate SameNodes(p: Plain, name: string, nodes: map<string, Record>) {
    forall id :: (Slot(Nodes(name), id) in p.records <==> id in nodes) &&
      (id in nodes ==> p.records[Slot(Nodes(name), id)] == Some(nodes[id]))
  }

  /** Creating: no nodes yet.  Connecting or created: exactly the provider's nodes.
      Destroying: one or the other.  Gone: no nodes left behind. */
  ghost predicate Sound(p: Plain, name: string, provided: map<string, Record>) {
    || Gone(p, name)
    || (HasStatus(p, name, "creating") && SameNodes(p, name, map[]))
    || ((HasStatus(p, name, "connecting") || HasStatus(p, name, "created")) && SameNodes(p, name, provided))
    || (HasStatus(p, name, "destroying") && (SameNodes(p, name, map[]) || SameNodes(p, name, provided)))
  }

  /** The cluster's own record has this status. */
  predicate HasStatus(p: Plain, name: string, status: string) {
    match Was(p, Slot(Clusters, name))
    case Some(rec) => rec.OfCluster? && rec.cluster.id == name && rec.cluster.status == status
    case None => false
  }

  ghost predicate Gone(p: Plain, name: string) {
    Slot(Clusters, name) !in p.records && SameNodes(p, name, map[])
  }

  /** The two states have the same node records for the cluster. */
  ghost predicate NodesAlike(p: Plain, q: Plain, name: string) {
    forall id :: (Slot(Nodes(name), id) in p.records <==> Slot(Nodes(name), id) in q.records) &&
      (Slot(Nodes(name), id) in p.records ==> q.records[Slot(Nodes(name), id)] == p.records[Slot(Nodes(name), id)])
  }

  /** The store holds this cluster, in normal form. */
  ghost predicate OnRecord(p: Plain, c: Cluster) {
    Holds(p, Slot(Clusters, c.id), OfCluster(NormalCluster(c)))
  }

  predicate Holds(p: Plain, slot: Slot, rec: Record) {
    slot in p.records && p.records[slot] == Some(rec)
  }

  /** The list holds the records of all the cluster's nodes and no others. */
  ghost predicate AskedForAll(p: Plain, name: string, recs: seq<Record>) {
    forall rec :: rec in recs <==> exists id :: Holds(p, Slot(Nodes(name), id), rec)
  }

  /** The records of the provider's nodes, as the store keeps them. */
  ghost function Provided(nodes: seq<Node>, clock: nat -> Time): map<string, Record> {
    if nodes == [] then map[]
    else
      var n := |nodes| - 1;
      Provided(nodes[..n], clock)[nodes[n].id := OfNode(NormalNode(nodes[n].(createdAt := clock(n), updatedAt := clock(n))))]
  }

  /** Every state committed since then is sound. */
  ghost predicate SoundSince(history: seq<Plain>, since: nat, name: string, provided: map<string, Record>) {
    forall i :: since <= i < |history| ==> Sound(history[i], name, provided)
  }

  lemma SoundGrows(history: seq<Plain>, since: nat, name: string, provided: map<string, Record>, q: Plain)
    requires SoundSince(history, since, name, provided) && Sound(q, name, provided)
    ensures SoundSince(history + [q], since, name, provided)
  {
  }

  /** As far as the states before were sound. */
  lemma StaysSound(sound: bool, history: seq<Plain>, since: nat, name: string, provided: map<string, Record>, q: Plain)
    requires sound ==> SoundSince(history, since, name, provided) && Sound(q, name, provided)
    ensures sound ==> SoundSince(history + [q], since, name, provided)
  {
  }

  lemma NodesMove(p: Plain, q: Plain, name: string, nodes: map<string, Record>)
    requires SameNodes(p, name, nodes) && NodesAlike(p, q, name)
    ensures SameNodes(q, name, nodes)
  {
  }

  lemma AskedMoves(p: Plain, q: Plain, name: string, recs: seq<Record>)
    requires AskedForAll(q, name, recs) && NodesAlike(p, q, name)
    ensures AskedForAll(p, name, recs)
  {
    forall rec ensures rec in recs <==> exists id :: Holds(p, Slot(Nodes(name), id), rec) {
      if id :| Holds(p, Slot(Nodes(name), id), rec) {
        assert Holds(q, Slot(Nodes(name), id), rec);
      }
      if id :| Holds(q, Slot(Nodes(name), id), rec) {
        assert Holds(p, Slot(Nodes(name), id), rec);
      }
    }
  }

  lemma AlikeSelf(p: Plain, name: string)
    ensures NodesAlike(p, p, name)
  {
  }

  /** A cluster that is there has one of the four statuses. */
  lemma DestroyingSound(p: Plain, q: Plain, name: string, provided: map<string, Record>)
    requires Sound(p, name, provided) && Slot(Clusters, name) in p.records
    requires NodesAlike(p, q, name) && HasStatus(q, name, "destroying")
    ensures Sound(q, name, provided)
  {
    ghost var none: map<string, Record> := map[];
    if SameNodes(p, name, none) {
      NodesMove(p, q, name, none);
    } else {
      NodesMove(p, q, name, provided);
    }
  }

  // ----- steps of the plain store -----

  lemma NodesNeedTheirCluster(f: Format, root: Bucket, p: Plain, name: string)
    requires Represents(f, root, p) && Slot(Clusters, name) !in p.records
    ensures SameNodes(p, name, map[])
  {
    assert Lookup(root, Slot(Clusters, name)).None?;
    forall id ensures Slot(Nodes(name), id) !in p.records {
      assert Lookup(root, Slot(Nodes(name), id)).None?;
    }
  }

  ghost predicate ClusterRule(u: Rules, was: Option<Record>, c: Cluster) {
    (u.writable(was, OfCluster(c)) <==> ClusterWritable(c)) && u.normal(was, OfCluster(c)) == Some(OfCluster(NormalCluster(c)))
  }

  ghost predicate NodeRule(u: Rules, was: Option<Record>, n: Node) {
    (u.writable(was, OfNode(n)) <==> "" !in n.labels) && u.normal(was, OfNode(n)) == Some(OfNode(NormalNode(n)))
  }

  /** What the store's rules say of clusters and nodes. */
  ghost predicate ClusterRules(u: Rules) {
    (forall was, c :: ClusterRule(u, was, c)) && (forall was, n :: NodeRule(u, was, n))
  }

  lemma FormatClusterRules(x: Texts)
    ensures ClusterRules(FormatOf(x).rules)
  {
  }

  lemma OrderlyCluster(u: Rules, p: Plain, name: string)
    requires ClusterRules(u) && Orderly(u, p) && Slot(Clusters, name) in p.records
    ensures var o := p.records[Slot(Clusters, name)];
      name != "" && o.Some? && o.value.OfCluster? && o.value.cluster.id == name && ClusterWritable(o.value.cluster)
  {
    var o := p.records[Slot(Clusters, name)];
    assert OrderlyAt(u, p, Slot(Clusters, name));
    assert ClusterRule(u, None, o.value.cluster);
  }

  /** A record was added or replaced, and nothing else. */
  ghost predicate OnlyRecord(p: Plain, q: Plain, slot: Slot, rec: Record) {
    q.records == p.records[slot := Some(rec)]
  }

  lemma OneRecordStatus(p: Plain, q: Plain, name: string, rec: Record)
    requires OnlyRecord(p, q, Slot(Clusters, name), rec) && rec.OfCluster? && rec.cluster.id == name
    ensures HasStatus(q, name, rec.cluster.status) && NodesAlike(p, q, name)
  {
    forall id ensures Slot(Nodes(name), id) != Slot(Clusters, name) {
    }
  }

  /** A cluster is created exactly when its id is valid and new and no label is empty, its
      own or a group's. */
  lemma ClusterAccepted(u: Rules, p: Plain, c: Cluster, clock: nat -> Time)
    requires ClusterRules(u)
    ensures PlainCreate(u, p, Clusters, [OfCluster(c)], clock).Success? <==>
      ValidClusterId(c.id) && Slot(Clusters, c.id) !in p.records && "" !in c.labels && forall g :: g in c.groups ==> "" !in g.labels
  {
    OneClusterCreated(u, p, c, clock);
    assert ClusterRule(u, None, c.(createdAt := clock(0), updatedAt := clock(0)));
  }

  lemma OneClusterCreated(u: Rules, p: Plain, c: Cluster, clock: nat -> Time)
    ensures var rec, slot := OfCluster(c.(createdAt := clock(0), updatedAt := clock(0))), Slot(Clusters, c.id);
      PlainCreate(u, p, Clusters, [OfCluster(c)], clock) ==
        if !ValidClusterId(c.id) then Failure(Invalid)
        else match PlainAdded(Open(p, Clusters).value, slot, u.writable(None, rec), u.normal(None, rec))
             case Success(q) => Success((q, These([rec])))
             case Failure(e) => Failure(e)
  {
    var rec := OfCluster(c);
    assert [rec][..0] == [] && [rec][0] == rec;
    assert Admissible(Clusters, [rec]) <==> ValidClusterId(c.id) by {
      assert rec in [rec];
    }
    var o := Open(p, Clusters).value;
    assert PlainAdd(u, o, Clusters, [rec], clock) == PlainAddOne(u, o, Clusters, Created(rec, clock(0)));
    assert Stamped([rec], clock) == [Created(rec, clock(0))];
  }

  lemma ClusterCreated(u: Rules, p: Plain, c: Cluster, clock: nat -> Time)
    requires ClusterRules(u) && PlainCreate(u, p, Clusters, [OfCluster(c)], clock).Success?
    ensures var done := PlainCreate(u, p, Clusters, [OfCluster(c)], clock).value;
      && HasStatus(done.0, c.id, c.status) && NodesAlike(p, done.0, c.id) && Slot(Clusters, c.id) !in p.records
      && OnRecord(done.0, c.(createdAt := clock(0), updatedAt := clock(0)))
      && done.1 == These([OfCluster(c.(createdAt := clock(0), updatedAt := clock(0)))])
  {
    var next := c.(createdAt := clock(0), updatedAt := clock(0));
    OneClusterCreated(u, p, c, clock);
    assert ClusterRule(u, None, next);
    OneRecordStatus(p, PlainCreate(u, p, Clusters, [OfCluster(c)], clock).value.0, c.id, OfCluster(NormalCluster(next)));
  }

  /** A cluster is updated exactly when it is there and can be written. */
  lemma ClusterUpdated(u: Rules, p: Plain, c: Cluster, now: Time)
    requires ClusterRules(u)
    ensures PlainUpdate(u, p, Clusters, OfCluster(c), now).Success? <==>
      c.id != "" && Slot(Clusters, c.id) in p.records && ClusterWritable(c)
    ensures PlainUpdate(u, p, Clusters, OfCluster(c), now).Success? ==>
      ClusterNow(p, PlainUpdate(u, p, Clusters, OfCluster(c), now).value, c.(updatedAt := now))
  {
    var slot, next := Slot(Clusters, c.id), c.(updatedAt := now);
    assert Updated(OfCluster(c), now) == OfCluster(next);
    assert ClusterRule(u, Was(p, slot), next);
    assert Was(Open(p, Clusters).value, slot) == Was(p, slot);
    if PlainUpdate(u, p, Clusters, OfCluster(c), now).Success? {
      OneRecordStatus(p, PlainUpdate(u, p, Clusters, OfCluster(c), now).value.0, c.id, OfCluster(NormalCluster(next)));
    }
  }

  /** The cluster was rewritten, and its nodes are as they were. */
  ghost predicate ClusterNow(p: Plain, done: (Plain, Reply), c: Cluster) {
    && HasStatus(done.0, c.id, c.status) && NodesAlike(p, done.0, c.id)
    && OnRecord(done.0, c) && done.1 == These([OfCluster(c)])
  }

  lemma {:induction false} ListedAll(u: Rules, p: Plain, kind: Kind)
    requires Orderly(u, p) && !kind.Benchmarks?
    ensures forall id :: id in IdsOf(p, kind) <==> Slot(kind, id) in p.records
    ensures (IdsAreSlots(p, kind); Pick(p, kind, SortedSet(IdsOf(p, kind))).Success?)
    ensures (IdsAreSlots(p, kind);
      forall rec :: rec in Pick(p, kind, SortedSet(IdsOf(p, kind))).value <==> exists id :: Holds(p, Slot(kind, id), rec))
  {
    IdsAreSlots(p, kind);
    var ids := SortedSet(IdsOf(p, kind));
    forall id | id in ids ensures Slot(kind, id) in p.records && p.records[Slot(kind, id)].Some? {
      assert OrderlyAt(u, p, Slot(kind, id));
    }
    PickReads(p, kind, ids);
    PickedAll(p, kind, ids);
    forall rec ensures rec in Pick(p, kind, ids).value <==> exists id :: Holds(p, Slot(kind, id), rec) {
      if id :| Holds(p, Slot(kind, id), rec) {
        assert id in ids;
      }
    }
  }

  lemma {:induction false} PickedAll(p: Plain, kind: Kind, ids: seq<string>)
    requires forall id :: id in ids ==> Slot(kind, id) in p.records
    ensures Pick(p, kind, ids).Success? ==>
      forall rec :: rec in Pick(p, kind, ids).value <==> exists id :: id in ids && Holds(p, Slot(kind, id), rec)
  {
    if ids != [] && Pick(p, kind, ids).Success? {
      var n := |ids| - 1;
      PickedAll(p, kind, ids[..n]);
      var done, last := Pick(p, kind, ids[..n]).value, p.records[Slot(kind, ids[n])].value;
      assert Pick(p, kind, ids).value == done + [last];
      forall rec ensures rec in Pick(p, kind, ids).value <==> exists id :: id in ids && Holds(p, Slot(kind, id), rec) {
        if id :| id in ids && Holds(p, Slot(kind, id), rec) {
          InLast(ids, id);
        }
        if rec in done {
          var id :| id in ids[..n] && Holds(p, Slot(kind, id), rec);
          InLast(ids, id);
        } else if rec == last {
          assert Holds(p, Slot(kind, ids[n]), rec);
        }
      }
    }
  }

  // ----- which nodes can be created -----

  ghost function NodeIds(nodes: seq<Node>): set<string> {
    set n | n in nodes :: n.id
  }

  ghost predicate NodeAcceptable(nodes: seq<Node>, i: nat)
    requires i < |nodes|
  {
    nodes[i].id != "" && "" !in nodes[i].labels && nodes[i].id !in NodeIds(nodes[..i])
  }

  /** Ids and labels are not empty, and no id comes twice. */
  ghost predicate NodesAcceptable(nodes: seq<Node>) {
    forall i: nat :: i < |nodes| ==> NodeAcceptable(nodes, i)
  }

  lemma AcceptableGrows(nodes: seq<Node>)
    requires nodes != []
    ensures var n := |nodes| - 1; NodesAcceptable(nodes) <==> NodesAcceptable(nodes[..n]) && NodeAcceptable(nodes, n)
  {
    var n := |nodes| - 1;
    forall i: nat | i < n ensures NodeAcceptable(nodes[..n], i) <==> NodeAcceptable(nodes, i) {
      assert nodes[..n][i] == nodes[i] && nodes[..n][..i] == nodes[..i];
    }
  }

  lemma NodeIdsGrow(nodes: seq<Node>)
    requires nodes != []
    ensures NodeIds(nodes) == NodeIds(nodes[..|nodes| - 1]) + {nodes[|nodes| - 1].id}
  {
    var n := |nodes| - 1;
    assert nodes == nodes[..n] + [nodes[n]];
  }

  lemma {:induction false} ProvidedIds(nodes: seq<Node>, clock: nat -> Time)
    ensures Provided(nodes, clock).Keys == NodeIds(nodes)
  {
    if nodes != [] {
      ProvidedIds(nodes[..|nodes| - 1], clock);
      NodeIdsGrow(nodes);
    }
  }

  lemma RecordsPrefix(nodes: seq<Node>)
    requires nodes != []
    ensures var n := |nodes| - 1; AsRecords(nodes)[..n] == AsRecords(nodes[..n]) && AsRecords(nodes)[n] == OfNode(nodes[n])
  {
  }

  ghost predicate StatusKept(p: Plain, q: Plain, name: string) {
    forall s :: HasStatus(p, name, s) ==> HasStatus(q, name, s)
  }

  /** Nodes are created in a cluster that has none exactly when they are acceptable, and then
      they are the provider's. */
  lemma {:induction false} NodesAdded(u: Rules, p: Plain, name: string, nodes: seq<Node>, clock: nat -> Time)
    requires ClusterRules(u) && SameNodes(p, name, map[])
    ensures PlainAdd(u, p, Nodes(name), AsRecords(nodes), clock).Success? <==> NodesAcceptable(nodes)
    ensures PlainAdd(u, p, Nodes(name), AsRecords(nodes), clock).Success? ==>
      var q := PlainAdd(u, p, Nodes(name), AsRecords(nodes), clock).value;
      SameNodes(q, name, Provided(nodes, clock)) && StatusKept(p, q, name)
  {
    if nodes != [] {
      var n := |nodes| - 1;
      NodesAdded(u, p, name, nodes[..n], clock);
      AcceptableGrows(nodes);
      RecordsPrefix(nodes);
      var r := PlainAdd(u, p, Nodes(name), AsRecords(nodes[..n]), clock);
      if r.Success? {
        OneNodeAdded(u, r.value, name, nodes, Provided(nodes[..n], clock), clock);
      }
    }
  }

  lemma OneNodeAdded(u: Rules, p: Plain, name: string, nodes: seq<Node>, known: map<string, Record>, clock: nat -> Time)
    requires ClusterRules(u) && nodes != [] && known == Provided(nodes[..|nodes| - 1], clock) && SameNodes(p, name, known)
    ensures var n := |nodes| - 1;
      var r := PlainAddOne(u, p, Nodes(name), Created(OfNode(nodes[n]), clock(n)));
      && (r.Success? <==> NodeAcceptable(nodes, n))
      && (r.Success? ==> SameNodes(r.value, name, Provided(nodes, clock)) && StatusKept(p, r.value, name))
  {
    var n := |nodes| - 1;
    var next := nodes[n].(createdAt := clock(n), updatedAt := clock(n));
    assert NodeRule(u, None, next);
    ProvidedIds(nodes[..n], clock);
    assert Slot(Nodes(name), nodes[n].id) in p.records <==> nodes[n].id in known;
    PutNode(p, name, nodes[n].id, OfNode(NormalNode(next)), known);
  }

  lemma PutNode(p: Plain, name: string, id: string, rec: Record, nodes: map<string, Record>)
    requires SameNodes(p, name, nodes)
    ensures SameNodes(p.(records := p.records[Slot(Nodes(name), id) := Some(rec)]), name, nodes[id := rec])
    ensures StatusKept(p, p.(records := p.records[Slot(Nodes(name), id) := Some(rec)]), name)
  {
  }

  lemma NodesCreated(u: Rules, p: Plain, name: string, nodes: seq<Node>, clock: nat -> Time)
    requires ClusterRules(u) && SameNodes(p, name, map[]) && Slot(Clusters, name) in p.records && name != ""
    ensures PlainCreate(u, p, Nodes(name), AsRecords(nodes), clock).Success? <==> NodesAcceptable(nodes)
    ensures PlainCreate(u, p, Nodes(name), AsRecords(nodes), clock).Success? ==>
      var q := PlainCreate(u, p, Nodes(name), AsRecords(nodes), clock).value.0;
      SameNodes(q, name, Provided(nodes, clock)) && StatusKept(p, q, name)
  {
    NodesAdded(u, Open(p, Nodes(name)).value, name, nodes, clock);
  }

  lemma DeleteAccepted(p: Plain, name: string)
    requires Slot(Clusters, name) in p.records
    ensures PlainDelete(p, Clusters, [name]).Success?
  {
    assert [name][..0] == [];
    assert PlainRemove(p, Clusters, [name]) == Success(Without(p, Slot(Clusters, name)));
  }

  lemma ClusterDeleted(p: Plain, name: string)
    requires PlainDelete(p, Clusters, [name]).Success? && Clusters in p.live
    ensures var q := PlainDelete(p, Clusters, [name]).value.0; Slot(Clusters, name) !in q.records && SameNodes(q, name, map[])
  {
    assert [name][..0] == [];
    assert PlainRemove(p, Clusters, [name]) == Success(Without(p, Slot(Clusters, name)));
  }

  function AsRecords(nodes: seq<Node>): (recs: seq<Record>)
    ensures |recs| == |nodes| && forall i :: 0 <= i < |nodes| ==> recs[i] == OfNode(nodes[i])
  {
    seq(|nodes|, i requires 0 <= i < |nodes| => OfNode(nodes[i]))
  }

  // ----- the labels a cluster is given -----

  ghost function Regions(groups: seq<ClusterGroup>): set<string> {
    set g | g in groups :: g.region
  }

  ghost function InstanceTypes(groups: seq<ClusterGroup>): set<string> {
    set g | g in groups :: g.instanceType
  }

  /** Appends the members of a set, in whatever order. */
  method AppendAll(labels0: seq<string>, s: set<string>) returns (labels: seq<string>)
    ensures Members(labels) == Members(labels0) + s && |labels| == |labels0| + |s|
  {
    labels := labels0;
    var pending := s;
    while pending != {}
      invariant pending <= s && forall l :: l in labels <==> l in labels0 || (l in s && l !in pending)
      invariant |labels| + |pending| == |labels0| + |s|
      decreases |pending|
    {
      var l :| l in pending;
      labels := labels + [l];
      pending := pending - {l};
    }
  }

  method GenerateLabels(groups: seq<ClusterGroup>) returns (labels: seq<string>)
    ensures Members(labels) == Regions(groups) + InstanceTypes(groups)
    ensures |labels| == |Regions(groups)| + |InstanceTypes(groups)|
  {
    var regionSet: set<string>, instanceTypeSet: set<string> := {}, {};
    for i := 0 to |groups|
      invariant regionSet == Regions(groups[..i]) && instanceTypeSet == InstanceTypes(groups[..i])
    {
      assert groups[..i + 1] == groups[..i] + [groups[i]];
      regionSet := regionSet + {groups[i].region};
      instanceTypeSet := instanceTypeSet + {groups[i].instanceType};
    }
    assert groups[..|groups|] == groups;
    labels := AppendAll([], regionSet);
    labels := AppendAll(labels, instanceTypeSet);
  }

  /** The helper can create the cluster: the id is valid and new, every group has a region
      and an instance type, and no group has an empty label. */
  predicate Creatable(p: Plain, name: string, groups: seq<ClusterGroup>) {
    && ValidClusterId(name) && Slot(Clusters, name) !in p.records
    && forall g :: g in groups ==> g.region != "" && g.instanceType != "" && "" !in g.labels
  }

  /** A group without a region or an instance type gives an empty label, which the store
      cannot write.  A cluster labelled with its name and what is generated for its groups
      is created exactly when the helper can create it. */
  lemma GeneratedAccepted(u: Rules, p: Plain, c: Cluster, clock: nat -> Time)
    requires ClusterRules(u) && Members(c.labels) == {c.id} + Regions(c.groups) + InstanceTypes(c.groups)
    ensures PlainCreate(u, p, Clusters, [OfCluster(c)], clock).Success? <==> Creatable(p, c.id, c.groups)
  {
    ClusterAccepted(u, p, c, clock);
    EmptyLabel(c);
  }

  lemma EmptyLabel(c: Cluster)
    requires Members(c.labels) == {c.id} + Regions(c.groups) + InstanceTypes(c.groups)
    ensures "" !in c.labels <==> c.id != "" && forall g :: g in c.groups ==> g.region != "" && g.instanceType != ""
  {
    assert "" in c.labels <==> "" in Members(c.labels);
    if g :| g in c.groups && (g.region == "" || g.instanceType == "") {
      assert g.region in Regions(c.groups) && g.instanceType in InstanceTypes(c.groups);
    }
  }

  /** A cluster with one group, labelled with its name and what is generated for the group. */
  function OneGroup(region: string, instanceType: string): Cluster {
    Cluster("c", "creating", [ClusterGroup(1, instanceType, region, None, [])], ["c", region, instanceType], Time(0), Time(0))
  }

  lemma WithoutRegion(u: Rules, region: string, instanceType: string, clock: nat -> Time)
    requires ClusterRules(u)
    ensures PlainCreate(u, NO_RECORDS, Clusters, [OfCluster(OneGroup(region, instanceType))], clock).Success? <==>
      region != "" && instanceType != ""
  {
    var c := OneGroup(region, instanceType);
    assert c.labels[0] == "c" && c.labels[1] == region && c.labels[2] == instanceType;
    ClusterAccepted(u, NO_RECORDS, c, clock);
  }

  // ----- valid ids -----

  predicate IdChar(ch: char) {
    'a' <= ch <= 'z' || 'A' <= ch <= 'Z' || '0' <= ch <= '9' || ch == '_' || ch == '-'
  }

  /** From 1 to 32 of the characters, and nothing else. */
  predicate WholeId(id: string) {
    1 <= |id| <= 32 && forall i :: 0 <= i < |id| ==> IdChar(id[i])
  }

  /** The pattern matches a beginning of the id, since it is not anchored at the end: ids that
      are longer, or go on with other characters, are valid too. */
  lemma ValidIds(id: string)
    ensures ValidClusterId(id) <==> exists n :: 0 <= n <= |id| && WholeId(id[..n])
    ensures WholeId(id) ==> ValidClusterId(id)
  {
    if n :| 0 <= n <= |id| && WholeId(id[..n]) {
      assert IdChar(id[..n][0]);
    }
    if ValidClusterId(id) {
      assert WholeId(id[..1]);
    }
    if WholeId(id) {
      assert id[..|id|] == id;
    }
  }

  /** A cluster whose id has a space in it is accepted. */
  lemma SpaceInId(u: Rules, clock: nat -> Time)
    requires ClusterRules(u)
    ensures !WholeId("a b")
    ensures var c := Cluster("a b", "creating", [], ["a b"], Time(0), Time(0));
      PlainCreate(u, NO_RECORDS, Clusters, [OfCluster(c)], clock).Success?
  {
    assert "a b"[1] == ' ' && !IdChar("a b"[1]);
    assert ["a b"][0] != "";
    ClusterAccepted(u, NO_RECORDS, Cluster("a b", "creating", [], ["a b"], Time(0), Time(0)), clock);
  }

  // ----- the helper -----

  /** The labels of a new cluster: its name and what is generated for it. */
  method LabelsFor(name: string, groups: seq<ClusterGroup>) returns (labels: seq<string>)
    ensures Members(labels) == {name} + Regions(groups) + InstanceTypes(groups)
    ensures forall l :: l in labels <==> l == name || exists g :: g in groups && (l == g.region || l == g.instanceType)
  {
    var generated := GenerateLabels(groups);
    labels := [name] + generated;
    forall l ensures l in Members(labels) <==> l in {name} + Regions(groups) + InstanceTypes(groups) {
      assert l in labels <==> l == name || l in generated by {
        assert labels[0] == name && labels[1..] == generated;
      }
      assert l in generated <==> l in Members(generated);
    }
    forall l ensures l in labels <==> l == name || exists g :: g in groups && (l == g.region || l == g.instanceType) {
      assert l in labels <==> l in Members(labels);
    }
  }

  class Helper {
    const db: DB
    ghost var history: seq<Plain>

    ghost predicate Valid()
      reads this, db
    {
      db.Valid() && history != [] && history[|history| - 1] == db.plain
    }

    constructor (db: DB)
      requires db.Valid()
      ensures Valid() && this.db == db
    {
      this.db := db;
      history := [db.plain];
    }

    /** A call of the store, recorded. */
    method Execute(call: Call) returns (r: Result<Reply, Error>)
      requires Valid() && Proper(call)
      modifies this, db
      ensures Valid() && history == old(history) + [db.plain]
      ensures db.plain == PlainExec(FormatOf(db.x).rules, old(db.plain), call).0
      ensures SameReply(r, PlainExec(FormatOf(db.x).rules, old(db.plain), call).1)
    {
      r := db.Execute(call);
      history := history + [db.plain];
    }

    method Get(name: string) returns (r: Result<Cluster, Error>)
      requires Valid()
      modifies this, db
      ensures Valid() && history == old(history) + [db.plain] && db.plain == old(db.plain)
      ensures r.Success? <==> Slot(Clusters, name) in db.plain.records
      ensures r.Success? ==> db.plain.records[Slot(Clusters, name)] == Some(OfCluster(r.value))
      ensures r.Success? ==> r.value.id == name != "" && ClusterWritable(r.value)
      ensures r.Failure? ==> r.error == NotFound
    {
      PlainIsOrderly();
      FormatClusterRules(db.x);
      if Slot(Clusters, name) in db.plain.records {
        OrderlyCluster(FormatOf(db.x).rules, db.plain, name);
      }
      var reply := Execute(Call.Get(Clusters, name));
      if reply.Failure? {
        return Failure(NotFound);
      }
      return Success(reply.value.records[0].cluster);
    }

    method Create(c: Cluster, clock: nat -> Time) returns (r: Result<Cluster, Error>)
      requires Valid()
      modifies this, db
      ensures Valid() && history == old(history) + [db.plain]
      ensures r.Failure? ==> db.plain == old(db.plain)
      ensures Members(c.labels) == {c.id} + Regions(c.groups) + InstanceTypes(c.groups) ==>
        (r.Success? <==> Creatable(old(db.plain), c.id, c.groups))
      ensures r.Success? ==>
        && Slot(Clusters, c.id) !in old(db.plain).records && HasStatus(db.plain, c.id, c.status)
        && NodesAlike(old(db.plain), db.plain, c.id) && r.value == c.(createdAt := clock(0), updatedAt := clock(0))
        && OnRecord(db.plain, r.value)
    {
      ghost var u, p := FormatOf(db.x).rules, db.plain;
      FormatClusterRules(db.x);
      if Members(c.labels) == {c.id} + Regions(c.groups) + InstanceTypes(c.groups) {
        GeneratedAccepted(u, p, c, clock);
      }
      var reply := Execute(Call.Create(Clusters, [OfCluster(c)], clock));
      if reply.Failure? {
        return Failure(reply.error);
      }
      ClusterCreated(u, p, c, clock);
      return Success(c.(createdAt := clock(0), updatedAt := clock(0)));
    }

    method Update(c: Cluster, now: Time) returns (r: Result<Cluster, Error>)
      requires Valid()
      modifies this, db
      ensures Valid() && history == old(history) + [db.plain]
      ensures r.Failure? ==> db.plain == old(db.plain)
      ensures r.Success? <==> c.id != "" && Slot(Clusters, c.id) in old(db.plain).records && ClusterWritable(c)
      ensures r.Success? ==>
        && HasStatus(db.plain, c.id, c.status) && NodesAlike(old(db.plain), db.plain, c.id)
        && Slot(Clusters, c.id) in old(db.plain).records && r.value == c.(updatedAt := now) && OnRecord(db.plain, r.value)
    {
      FormatClusterRules(db.x);
      ClusterUpdated(FormatOf(db.x).rules, db.plain, c, now);
      var reply := Execute(Call.Update(Clusters, OfCluster(c), now));
      if reply.Failure? {
        return Failure(reply.error);
      }
      return Success(c.(updatedAt := now));
    }

    method ListNodes(name: string) returns (r: Result<seq<Record>, Error>)
      requires Valid()
      modifies this, db
      ensures Valid() && history == old(history) + [db.plain] && db.plain == old(db.plain)
      ensures r.Success? && AskedForAll(db.plain, name, r.value)
    {
      PlainIsOrderly();
      ListedAll(FormatOf(db.x).rules, db.plain, Nodes(name));
      var reply := Execute(Call.List(Nodes(name)));
      return Success(reply.value.records);
    }

    method Delete(name: string) returns (err: Option<Error>)
      requires Valid()
      modifies this, db
      ensures Valid() && history == old(history) + [db.plain]
      ensures err != None ==> db.plain == old(db.plain)
      ensures Slot(Clusters, name) in old(db.plain).records ==> err == None
      ensures err == None && Slot(Clusters, name) in old(db.plain).records ==> Gone(db.plain, name)
    {
      ghost var p := db.plain;
      PlainIsOrderly();
      if Slot(Clusters, name) in p.records {
        assert OrderlyAt(FormatOf(db.x).rules, p, Slot(Clusters, name));
        DeleteAccepted(p, name);
      }
      var reply := Execute(Call.Delete(Clusters, [name]));
      if reply.Failure? {
        return Some(reply.error);
      }
      if Slot(Clusters, name) in p.records {
        ClusterDeleted(p, name);
      }
      return None;
    }

    /** The update to connecting and the creation of the nodes, joined in one transaction. */
    method Connect(c: Cluster, nodes: seq<Node>, now: Time, clock: nat -> Time) returns (r: Result<Cluster, Error>)
      requires Valid()
      modifies this, db
      ensures Valid() && history == old(history) + [db.plain]
      ensures r.Failure? ==> db.plain == old(db.plain)
      ensures SameNodes(old(db.plain), c.id, map[]) ==>
        (r.Success? <==> c.id != "" && Slot(Clusters, c.id) in old(db.plain).records && ClusterWritable(c) && NodesAcceptable(nodes))
      ensures r.Success? && SameNodes(old(db.plain), c.id, map[]) ==>
        HasStatus(db.plain, c.id, c.status) && SameNodes(db.plain, c.id, Provided(nodes, clock))
      ensures r.Success? ==> r.value == c.(updatedAt := now)
    {
      ghost var u, p := FormatOf(db.x).rules, db.plain;
      FormatClusterRules(db.x);
      ClusterUpdated(u, p, c, now);
      var tx := db.Begin();
      var r1, q1 := db.Join(tx, true, Call.Update(Clusters, OfCluster(c), now), p);
      if r1.Failure? {
        history := history + [db.plain];
        return Failure(r1.error);
      }
      ghost var none: map<string, Record> := map[];
      if SameNodes(p, c.id, none) {
        NodesMove(p, q1, c.id, none);
        NodesCreated(u, q1, c.id, nodes, clock);
      }
      var r2, q2 := db.Join(tx, true, Call.Create(Nodes(c.id), AsRecords(nodes), clock), q1);
      if r2.Failure? {
        history := history + [db.plain];
        return Failure(r2.error);
      }
      db.Commit(tx, q2);
      history := history + [db.plain];
      return Success(c.(updatedAt := now));
    }

    /** Creates a cluster.  `group` is what the provider made, or None if it failed;
        `healthy` is whether its nodes became healthy.  `times` are the instants at which the
        cluster's record is written, `clock` those of its nodes. */
    method CreateCluster(groups: seq<ClusterGroup>, name: string, group: Option<seq<Node>>, healthy: bool,
                         times: nat -> Time, clock: nat -> Time)
        returns (r: Result<Cluster, Error>, ghost provided: map<string, Record>)
      requires Valid()
      modifies this, db
      ensures Valid() && old(history) <= history
      ensures Slot(Clusters, name) !in old(db.plain).records ==> SoundSince(history, old(|history|), name, provided)
      ensures r.Success? <==> Creatable(old(db.plain), name, groups) && group.Some? && NodesAcceptable(group.value) && healthy
      ensures !Creatable(old(db.plain), name, groups) ==> db.plain == old(db.plain)
      ensures r.Success? ==>
        && group.Some? && healthy && provided == Provided(group.value, clock)
        && HasStatus(db.plain, name, "created") && SameNodes(db.plain, name, provided)
      ensures r.Success? ==>
        && OnRecord(db.plain, r.value) && r.value.id == name && r.value.groups == groups
        && Members(r.value.labels) == {name} + Regions(groups) + InstanceTypes(groups)
    {
      provided := if group.Some? then Provided(group.value, clock) else map[];
      ghost var since := |history|;
      r := BeginCluster(groups, name, times, provided);
      if r.Failure? {
        return;
      }
      if group.None? {
        return Failure(External), provided;
      }
      r := FinishCluster(r.value, group.value, healthy, times, clock, provided, since);
    }

    /** Stores the new cluster, labelled with its name and what is generated for it. */
    method BeginCluster(groups: seq<ClusterGroup>, name: string, times: nat -> Time, ghost provided: map<string, Record>)
        returns (r: Result<Cluster, Error>)
      requires Valid()
      modifies this, db
      ensures Valid() && history == old(history) + [db.plain]
      ensures r.Failure? ==> db.plain == old(db.plain)
      ensures Slot(Clusters, name) !in old(db.plain).records ==> Sound(db.plain, name, provided)
      ensures r.Success? <==> Creatable(old(db.plain), name, groups)
      ensures r.Success? ==> ClusterWritable(r.value)
      ensures r.Success? ==> r.value.id == name && HasStatus(db.plain, name, "creating") && SameNodes(db.plain, name, map[])
      ensures r.Success? ==> r.value.groups == groups && Members(r.value.labels) == {name} + Regions(groups) + InstanceTypes(groups)
    {
      ghost var p := db.plain;
      ghost var none: map<string, Record> := map[];
      NoClusterNoNodes(p, name);
      var labels := LabelsFor(name, groups);
      r := Create(Cluster(name, "creating", groups, labels, Time(0), Time(0)), times);
      if r.Success? {
        NodesMove(p, db.plain, name, none);
        EmptyLabel(r.value);
      }
    }

    lemma PlainIsOrderly()
      requires Valid()
      ensures Orderly(FormatOf(db.x).rules, db.plain)
    {
      FormatIsFaithful(db.x);
      RepresentsOrderly(FormatOf(db.x), db.committed, db.plain);
    }

    lemma NoClusterNoNodes(p: Plain, name: string)
      requires Valid() && p == db.plain
      ensures Slot(Clusters, name) !in p.records ==> Gone(p, name)
    {
      if Slot(Clusters, name) !in p.records {
        NodesNeedTheirCluster(FormatOf(db.x), db.committed, p, name);
      }
    }

    /** From the provider's answer on. */
    method FinishCluster(c: Cluster, nodes: seq<Node>, healthy: bool, times: nat -> Time, clock: nat -> Time,
                         ghost provided: map<string, Record>, ghost since: nat) returns (r: Result<Cluster, Error>)
      requires Valid() && since <= |history|
      requires HasStatus(db.plain, c.id, "creating") && SameNodes(db.plain, c.id, map[]) && c.id != "" && ClusterWritable(c)
      requires provided == Provided(nodes, clock) && SoundSince(history, since, c.id, provided)
      modifies this, db
      ensures Valid() && old(history) <= history && SoundSince(history, since, c.id, provided)
      ensures r.Success? <==> NodesAcceptable(nodes) && healthy
      ensures r.Success? ==> healthy && HasStatus(db.plain, c.id, "created") && SameNodes(db.plain, c.id, provided)
      ensures r.Success? ==> OnRecord(db.plain, r.value) && r.value == c.(status := "created", updatedAt := times(2))
    {
      ghost var was := history;
      r := Connect(c.(status := "connecting"), nodes, times(1), clock);
      SoundGrows(was, since, c.id, provided, db.plain);
      if r.Failure? {
        return;
      }
      if !healthy {
        return Failure(External);
      }
      r := MarkCreated(r.value, times(2), provided, since);
    }

    /** The nodes are healthy: the cluster is created. */
    method MarkCreated(c: Cluster, now: Time, ghost provided: map<string, Record>, ghost since: nat) returns (r: Result<Cluster, Error>)
      requires Valid() && since <= |history|
      requires HasStatus(db.plain, c.id, "connecting") && SameNodes(db.plain, c.id, provided) && SoundSince(history, since, c.id, provided)
      requires c.id != "" && ClusterWritable(c)
      modifies this, db
      ensures Valid() && old(history) <= history && SoundSince(history, since, c.id, provided)
      ensures r.Success? && HasStatus(db.plain, c.id, "created") && SameNodes(db.plain, c.id, provided)
      ensures OnRecord(db.plain, r.value) && r.value == c.(status := "created", updatedAt := now)
    {
      ghost var p, was := db.plain, history;
      r := Update(c.(status := "created"), now);
      NodesMove(p, db.plain, c.id, provided);
      SoundGrows(was, since, c.id, provided, db.plain);
    }

    /** Deletes a cluster.  `destroyed` is whether the provider could destroy the group it
        was asked to destroy. */
    method DeleteCluster(name: string, destroyed: bool, now: Time, ghost provided: map<string, Record>)
        returns (err: Option<Error>, asked: Option<seq<Record>>)
      requires Valid()
      modifies this, db
      ensures Valid() && old(history) <= history
      ensures Sound(old(db.plain), name, provided) ==> SoundSince(history, old(|history|), name, provided)
      ensures Sound(old(db.plain), name, provided) && err == None ==> Gone(db.plain, name)
      ensures Sound(old(db.plain), name, provided) && asked.Some? ==> AskedForAll(old(db.plain), name, asked.value)
      ensures err == None ==> asked.Some? && destroyed
      ensures err == None <==> Slot(Clusters, name) in old(db.plain).records && destroyed
      ensures Sound(old(db.plain), name, provided) && !destroyed ==> NodesAlike(old(db.plain), db.plain, name)
      ensures Slot(Clusters, name) !in old(db.plain).records ==> err == Some(NotFound) && db.plain == old(db.plain)
    {
      asked := None;
      ghost var p, was, since := db.plain, history, |history|;
      ghost var sound := Sound(p, name, provided);
      var r := Get(name);
      StaysSound(sound, was, since, name, provided, p);
      if r.Failure? {
        return Some(r.error), asked;
      }
      err, asked := DeleteFound(r.value, destroyed, now, sound, provided, since);
    }

    method DeleteFound(c: Cluster, destroyed: bool, now: Time, ghost sound: bool, ghost provided: map<string, Record>, ghost since: nat)
        returns (err: Option<Error>, asked: Option<seq<Record>>)
      requires Valid() && since <= |history|
      requires Slot(Clusters, c.id) in db.plain.records && c.id != "" && ClusterWritable(c)
      requires sound ==> Sound(db.plain, c.id, provided) && SoundSince(history, since, c.id, provided)
      modifies this, db
      ensures Valid() && old(history) <= history
      ensures sound ==> SoundSince(history, since, c.id, provided)
      ensures err == None <==> destroyed
      ensures err == None ==> destroyed && asked.Some?
      ensures !destroyed ==> NodesAlike(old(db.plain), db.plain, c.id)
      ensures sound && err == None ==> Gone(db.plain, c.id)
      ensures asked.Some? ==> AskedForAll(old(db.plain), c.id, asked.value)
    {
      ghost var p := db.plain;
      asked := None;
      var r := MarkDestroying(c, now, sound, provided, since);
      if r.Failure? {
        return Some(External), asked;
      }
      ghost var q := db.plain;
      err, asked := DestroyNodes(r.value, destroyed, sound, provided, since);
      if asked.Some? {
        AskedMoves(p, q, c.id, asked.value);
      }
    }

    /** Sets the status to destroying unless it is that already. */
    method MarkDestroying(c: Cluster, now: Time, ghost sound: bool, ghost provided: map<string, Record>, ghost since: nat)
        returns (r: Result<Cluster, Error>)
      requires Valid() && since <= |history|
      requires Slot(Clusters, c.id) in db.plain.records && c.id != "" && ClusterWritable(c)
      requires sound ==> Sound(db.plain, c.id, provided) && SoundSince(history, since, c.id, provided)
      modifies this, db
      ensures Valid() && old(history) <= history && NodesAlike(old(db.plain), db.plain, c.id)
      ensures Slot(Clusters, c.id) in db.plain.records
      ensures sound ==> Sound(db.plain, c.id, provided) && SoundSince(history, since, c.id, provided)
      ensures r.Success? && r.value.id == c.id
    {
      ghost var p, was := db.plain, history;
      AlikeSelf(p, c.id);
      if c.status == "destroying" {
        return Success(c);
      }
      r := Update(c.(status := "destroying"), now);
      if r.Success? && sound {
        DestroyingSound(p, db.plain, c.id, provided);
      }
      StaysSound(sound, was, since, c.id, provided, db.plain);
    }

    /** Destroys the nodes of a cluster and then deletes its records. */
    method DestroyNodes(c: Cluster, destroyed: bool, ghost sound: bool, ghost provided: map<string, Record>, ghost since: nat)
        returns (err: Option<Error>, asked: Option<seq<Record>>)
      requires Valid() && since <= |history|
      requires Slot(Clusters, c.id) in db.plain.records && c.id != ""
      requires sound ==> Sound(db.plain, c.id, provided) && SoundSince(history, since, c.id, provided)
      modifies this, db
      ensures Valid() && old(history) <= history
      ensures sound ==> SoundSince(history, since, c.id, provided)
      ensures err == None <==> destroyed
      ensures asked.Some?
      ensures !destroyed ==> NodesAlike(old(db.plain), db.plain, c.id)
      ensures sound && err == None ==> Gone(db.plain, c.id)
      ensures asked.Some? ==> AskedForAll(old(db.plain), c.id, asked.value)
    {
      ghost var p, was := db.plain, history;
      asked := None;
      var nodes := ListNodes(c.id);
      StaysSound(sound, was, since, c.id, provided, db.plain);
      if nodes.Failure? {
        return Some(External), asked;
      }
      asked := Some(nodes.value);
      if !destroyed {
        return Some(External), asked;
      }
      was := history;
      err := Delete(c.id);
      StaysSound(sound, was, since, c.id, provided, db.plain);
    }
  }
}
