/** metadata/cluster.go: groups kept under their index, and clusters, in buckets. */
module ClusterCodec {
  import opened GoStrings
  import opened Results
  import opened Records
  import opened Numbers
  import opened Buckets
  import opened IndexedLists
  import opened MetadataHelpers
  import opened NodeCodec

  // ----- one group -----

  function GroupFields(g: ClusterGroup): map<Key, string> {
    map[SizeKey := Itoa(g.size), InstanceTypeKey := g.instanceType, RegionKey := g.region]
  }

  ghost function NormalGroup(g: ClusterGroup): ClusterGroup {
    g.(labels := SortedSet(Members(g.labels)),
       peer := match g.peer case None => None case Some(d) => Some(NormalPeer(d)))
  }

  function EncGroup(b: Bucket, g: ClusterGroup): (r: Result<Bucket, Error>) {
    var b1 :- EncLabels(b, g.labels);
    var b2 :- if g.peer.Some? then EncPeer(b1, g.peer.value) else Success(b1);
    PutAllIn(b2, GroupFields(g))
  }

  function DecSize(b: Bucket): Result<Int64, Error> {
    if SizeKey !in b then Success(0)
    else match Atoi(TextOf(b, SizeKey)) case None => Failure(Malformed) case Some(n) => Success(n)
  }

  ghost function DecGroup(b: Bucket): Result<ClusterGroup, Error> {
    var size :- DecSize(b);
    Success(ClusterGroup(size, TextOf(b, InstanceTypeKey), TextOf(b, RegionKey),
                         if HasSub(b, DefinitionKey) then Some(DecPeer(b)) else None, DecLabels(b)))
  }

  lemma GroupFieldsRead(b: Bucket, g: ClusterGroup)
    ensures var c := b + Values(GroupFields(g));
      && SameExcept(b, c, {SizeKey, InstanceTypeKey, RegionKey})
      && DecSize(c) == Success(g.size) && TextOf(c, InstanceTypeKey) == g.instanceType && TextOf(c, RegionKey) == g.region
  {
    AtoiInverse(g.size);
    var f := GroupFields(g);
    assert forall k :: k in f ==> TextOf(b + Values(f), k) == f[k];
  }

  /** A group written to a new bucket reads back in normal form. */
  lemma GroupReadsBack(g: ClusterGroup)
    requires EncGroup(map[], g).Success?
    ensures DecGroup(EncGroup(map[], g).value) == Success(NormalGroup(g))
  {
    var b1 := EncLabels(map[], g.labels).value;
    var b2 := if g.peer.Some? then EncPeer(b1, g.peer.value).value else b1;
    var c := EncGroup(map[], g).value;
    assert c == b2 + Values(GroupFields(g));
    LabelsReadBack(map[], g.labels);
    if g.peer.Some? {
      PeerReadsBack(g.peer.value);
    }
    Kept(map[], b1, {LabelsKey}, DefinitionKey);
    GroupFieldsRead(b2, g);
    var last := {SizeKey, InstanceTypeKey, RegionKey};
    assert SameExcept(b1, b2, {DefinitionKey});
    Kept(b1, b2, {DefinitionKey}, LabelsKey);
    Kept(b2, c, last, LabelsKey);
    Kept(b2, c, last, DefinitionKey);
  }

  method ReadGroup(tx: Tx, p: Path) returns (r: Result<ClusterGroup, Error>)
    requires Exists(tx.root, p)
    ensures r == DecGroup(At(tx.root, p))
  {
    var labels := ReadLabels(tx, p);
    var peer: Option<PeerDefinition> := None;
    if tx.Has(p, DefinitionKey) {
      var d := ReadPeerDefinition(tx, p);
      peer := Some(d);
    }
    var b := tx.Read(p);
    var size: Int64 := 0;
    if SizeKey in b {
      var n := Atoi(TextOf(b, SizeKey));
      if n.None? {
        return Failure(Malformed);
      }
      size := n.value;
    }
    var f := ReadFields(tx, p);
    return Success(ClusterGroup(size, Field(f, InstanceTypeKey), Field(f, RegionKey), peer, labels));
  }

  method WriteGroup(tx: Tx, p: Path, g: ClusterGroup) returns (err: Option<Error>)
    requires Exists(tx.root, p)
    modifies tx
    ensures Ran(old(tx.root), tx.root, p, EncGroup(At(old(tx.root), p), g), err)
  {
    ghost var r0 := tx.root;
    err := WriteLabels(tx, p, g.labels);
    if err.Some? {
      return;
    }
    ghost var r1 := tx.root;
    if g.peer.Some? {
      err := WritePeerDefinition(tx, p, g.peer.value);
      ConfinedTrans(r0, r1, tx.root, p);
      if err.Some? {
        return;
      }
    }
    ghost var r2 := tx.root;
    err := PutAll(tx, p, GroupFields(g));
    ConfinedTrans(r0, r2, tx.root, p);
  }

  // ----- the indexed list -----

  function EncGroups(gs: seq<ClusterGroup>): (r: Result<Bucket, Error>) {
    EncAll(gs, GroupWriter())
  }

  function GroupWriter(): ClusterGroup -> Result<Bucket, Error> {
    g => EncGroup(map[], g)
  }

  ghost function NormalGroups(gs: seq<ClusterGroup>): (r: seq<ClusterGroup>)
    ensures |r| == |gs| && forall i :: 0 <= i < |gs| ==> r[i] == NormalGroup(gs[i])
  {
    seq(|gs|, i requires 0 <= i < |gs| => NormalGroup(gs[i]))
  }

  /** Indexed groups read back for every length. */
  lemma GroupsReadBack(gs: seq<ClusterGroup>)
    requires EncGroups(gs).Success?
    ensures GroupsOf(Some(EncGroups(gs).value)) == Success(NormalGroups(gs))
  {
    GroupsHeld(gs);
    WalkCollects(EncGroups(gs).value, NormalGroups(gs), 0, DecGroup);
  }

  lemma GroupsHeld(gs: seq<ClusterGroup>)
    requires EncGroups(gs).Success?
    ensures AllHeld(EncGroups(gs).value, 0, DecGroup, NormalGroups(gs))
  {
    EncAllShape(gs, GroupWriter());
    assert Index(|gs|) !in EncGroups(gs).value;
    forall j: nat | j < |gs| ensures HoldsAt(EncGroups(gs).value, 0 + j, DecGroup, NormalGroups(gs)[j]) {
      GroupHeld(gs, j);
    }
  }

  lemma GroupHeld(gs: seq<ClusterGroup>, j: nat)
    requires EncGroups(gs).Success? && j < |gs|
    ensures HoldsAt(EncGroups(gs).value, j, DecGroup, NormalGroups(gs)[j])
  {
    EncAllAt(gs, GroupWriter(), j);
    GroupReadsBack(gs[j]);
  }

  ghost function GroupsOf(sub: Option<Bucket>): Result<seq<ClusterGroup>, Error> {
    match sub
    case None => Success([])
    case Some(d) => WalkFrom(d, 0, DecGroup)
  }

  method ReadClusterDefinition(tx: Tx, p: Path) returns (r: Result<seq<ClusterGroup>, Error>)
    requires Exists(tx.root, p)
    ensures r == GroupsOf(SubOf(At(tx.root, p), DefinitionKey))
  {
    if !tx.Has(p, DefinitionKey) {
      return Success([]);
    }
    SubExists(tx.root, p, DefinitionKey);
    var dp := p + [DefinitionKey];
    ghost var d := At(tx.root, dp);
    ghost var all := WalkFrom(d, 0, DecGroup);
    var groups: seq<ClusterGroup> := [];
    var i: nat := 0;
    ContinuesStart(all);
    while tx.Has(dp, Index(i))
      invariant Continues(all, groups, WalkFrom(d, i, DecGroup))
      decreases |Beyond(d, i)|
    {
      SubExists(tx.root, dp, Index(i));
      ContinuesStep(all, groups, d, i, DecGroup);
      WalkAdvances(d, i);
      var group := ReadGroup(tx, dp + [Index(i)]);
      if group.Failure? {
        return Failure(group.error);
      }
      groups := groups + [group.value];
      i := i + 1;
    }
    ContinuesEnd(all, groups, d, i, DecGroup);
    return Success(groups);
  }

  method PutGroup(tx: Tx, p: Path, i: nat, g: ClusterGroup) returns (err: Option<Error>)
    requires Exists(tx.root, p)
    modifies tx
    ensures Ran(old(tx.root), tx.root, p, AddEntry(At(old(tx.root), p), i, EncGroup(map[], g)), err)
  {
    ghost var r0 := tx.root;
    err := tx.CreateBucket(p, Index(i));
    if err.Some? {
      return;
    }
    ghost var r1 := tx.root;
    err := WriteGroup(tx, p + [Index(i)], g);
    RanSub(r1, tx.root, p, Index(i), EncGroup(map[], g), err);
    RanAfter(r0, r1, tx.root, p, InSub(At(r1, p), Index(i), EncGroup(map[], g)), err);
  }

  /** The loop of `writeClusterDefinition`. */
  method PutGroups(tx: Tx, p: Path, gs: seq<ClusterGroup>) returns (err: Option<Error>)
    requires Exists(tx.root, p) && At(tx.root, p) == map[]
    modifies tx
    ensures Ran(old(tx.root), tx.root, p, EncGroups(gs), err)
  {
    ghost var r0 := tx.root;
    ConfinedRefl(r0, p);
    err := None;
    for i := 0 to |gs|
      invariant Ran(r0, tx.root, p, EncGroups(gs[..i]), None) && err == None
    {
      ghost var r1 := tx.root;
      NextEntry(gs, GroupWriter(), i, At(r1, p));
      err := PutGroup(tx, p, i, gs[i]);
      RanAfter(r0, r1, tx.root, p, AddEntry(At(r1, p), i, EncGroup(map[], gs[i])), err);
      if err.Some? {
        return;
      }
    }
    assert gs[..|gs|] == gs;
  }

  method WriteClusterDefinition(tx: Tx, p: Path, gs: seq<ClusterGroup>) returns (err: Option<Error>)
    requires Exists(tx.root, p)
    modifies tx
    ensures Ran(old(tx.root), tx.root, p, Recreated(At(old(tx.root), p), DefinitionKey, EncGroups(gs)), err)
  {
    ghost var r0 := tx.root;
    err := RecreateBucket(tx, p, DefinitionKey);
    if err.Some? {
      return;
    }
    ghost var r1 := tx.root;
    err := PutGroups(tx, p + [DefinitionKey], gs);
    RanSub(r1, tx.root, p, DefinitionKey, EncGroups(gs), err);
    RanAfter(r0, r1, tx.root, p, InSub(At(r1, p), DefinitionKey, EncGroups(gs)), err);
  }

  // ----- clusters -----

  function ClusterFields(c: Cluster): map<Key, string> {
    map[IdKey := c.id, StatusKey := c.status]
  }

  ghost function NormalCluster(c: Cluster): Cluster {
    c.(groups := NormalGroups(c.groups), labels := SortedSet(Members(c.labels)))
  }

  /** Puts a cluster together from what was read. */
  function ClusterFrom(id: string, status: string, times: Result<(Time, Time), Error>,
                       groups: Result<seq<ClusterGroup>, Error>, labels: seq<string>): (r: Result<Cluster, Error>)
    ensures r.Success? ==> r.value.labels == labels
  {
    var t :- times;
    var g :- groups;
    Success(Cluster(id, status, g, labels, t.0, t.1))
  }

  /** Reading a cluster kept under `id`: a stored id wins. */
  ghost function DecCluster(x: Texts, id: string, b: Bucket): Result<Cluster, Error> {
    ClusterFrom(if ValueOf(b, IdKey).Some? then TextOf(b, IdKey) else id, TextOf(b, StatusKey), DecTimestamps(x, b),
                GroupsOf(SubOf(b, DefinitionKey)), DecLabels(b))
  }

  lemma ClusterLabels(x: Texts, id: string, b: Bucket)
    requires DecCluster(x, id, b).Success?
    ensures DecCluster(x, id, b).value.labels == DecLabels(b)
  {
  }

  function EncCluster(x: Texts, b: Bucket, c: Cluster): (r: Result<Bucket, Error>) {
    var b1 :- EncTimestamps(x, b, c.createdAt, c.updatedAt);
    var b2 :- Recreated(b1, DefinitionKey, EncGroups(c.groups));
    var b3 :- EncLabels(b2, c.labels);
    PutAllIn(b3, ClusterFields(c))
  }

  lemma ClusterFromSteps(x: Texts, c: Cluster, id: string, b1: Bucket, b2: Bucket, b3: Bucket, e: Bucket)
    requires x.TimesReadBack()
    requires ValueOf(b1, CreatedAtKey) == Some(x.time(c.createdAt)) && ValueOf(b1, UpdatedAtKey) == Some(x.time(c.updatedAt))
    requires SameExcept(b1, b2, {DefinitionKey}) && GroupsOf(SubOf(b2, DefinitionKey)) == Success(NormalGroups(c.groups))
    requires SameExcept(b2, b3, {LabelsKey}) && LabelSet(b3) == Members(c.labels)
    requires SameExcept(b3, e, {IdKey, StatusKey})
    requires ValueOf(e, IdKey) == Some(c.id) && TextOf(e, StatusKey) == c.status
    ensures DecCluster(x, id, e) == Success(NormalCluster(c))
  {
    Kept(b1, b2, {DefinitionKey}, CreatedAtKey);
    Kept(b1, b2, {DefinitionKey}, UpdatedAtKey);
    Kept(b2, b3, {LabelsKey}, CreatedAtKey);
    Kept(b2, b3, {LabelsKey}, UpdatedAtKey);
    Kept(b2, b3, {LabelsKey}, DefinitionKey);
    Kept(b3, e, {IdKey, StatusKey}, CreatedAtKey);
    Kept(b3, e, {IdKey, StatusKey}, UpdatedAtKey);
    Kept(b3, e, {IdKey, StatusKey}, DefinitionKey);
    Kept(b3, e, {IdKey, StatusKey}, LabelsKey);
  }

  lemma ClusterFieldsRead(b: Bucket, c: Cluster)
    ensures var e := b + Values(ClusterFields(c));
      && SameExcept(b, e, {IdKey, StatusKey})
      && ValueOf(e, IdKey) == Some(c.id) && TextOf(e, StatusKey) == c.status
  {
    var f := ClusterFields(c);
    assert forall k :: k in f ==> TextOf(b + Values(f), k) == f[k];
  }

  /** A written cluster reads back in normal form, whatever the bucket held before. */
  lemma ClusterReadsBack(x: Texts, b: Bucket, c: Cluster, id: string)
    requires x.TimesReadBack() && EncCluster(x, b, c).Success?
    ensures DecCluster(x, id, EncCluster(x, b, c).value) == Success(NormalCluster(c))
  {
    var b1 := EncTimestamps(x, b, c.createdAt, c.updatedAt).value;
    var b2 := Recreated(b1, DefinitionKey, EncGroups(c.groups)).value;
    var b3 := EncLabels(b2, c.labels).value;
    var e := EncCluster(x, b, c).value;
    assert e == b3 + Values(ClusterFields(c));
    TimestampsReadBack(x, b, c.createdAt, c.updatedAt);
    GroupsReadBack(c.groups);
    LabelsReadBack(b2, c.labels);
    ClusterFieldsRead(b3, c);
    ClusterFromSteps(x, c, id, b1, b2, b3, e);
  }

  method ReadCluster(x: Texts, tx: Tx, p: Path, id: string) returns (r: Result<Cluster, Error>)
    requires Exists(tx.root, p)
    ensures r == DecCluster(x, id, At(tx.root, p))
  {
    var times := ReadTimestamps(x, tx, p);
    if times.Failure? {
      return Failure(times.error);
    }
    var groups := ReadClusterDefinition(tx, p);
    if groups.Failure? {
      return Failure(groups.error);
    }
    var labels := ReadLabels(tx, p);
    var f := ReadFields(tx, p);
    return Success(Cluster(if IdKey in f then f[IdKey] else id, Field(f, StatusKey),
                           groups.value, labels, times.value.0, times.value.1));
  }

  method WriteCluster(x: Texts, tx: Tx, p: Path, c: Cluster) returns (err: Option<Error>)
    requires Exists(tx.root, p)
    modifies tx
    ensures Ran(old(tx.root), tx.root, p, EncCluster(x, At(old(tx.root), p), c), err)
  {
    ghost var r0 := tx.root;
    err := WriteTimestamps(x, tx, p, c.createdAt, c.updatedAt);
    if err.Some? {
      return;
    }
    ghost var r1 := tx.root;
    err := WriteClusterDefinition(tx, p, c.groups);
    ConfinedTrans(r0, r1, tx.root, p);
    if err.Some? {
      return;
    }
    ghost var r2 := tx.root;
    err := WriteLabels(tx, p, c.labels);
    ConfinedTrans(r0, r2, tx.root, p);
    if err.Some? {
      return;
    }
    ghost var r3 := tx.root;
    err := PutAll(tx, p, ClusterFields(c));
    ConfinedTrans(r0, r3, tx.root, p);
  }
}
