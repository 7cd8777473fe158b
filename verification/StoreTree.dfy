/** Where the collections of records live in the bucket tree (metadata/buckets.go). */
module StoreTree {
  import opened Results
  import opened Buckets
  import opened FitBuckets
  import opened StoreRecords

  /** One record of one collection. */
  datatype Slot = Slot(kind: Kind, id: string)

  function PathOf(kind: Kind): Path {
    match kind
    case Clusters => [VersionKey, ClustersKey]
    case Nodes(c) => [VersionKey, ClustersKey, Free(c), NodesKey]
    case Scenarios => [VersionKey, ScenariosKey]
    case Benchmarks => [VersionKey, BenchmarksKey]
    case Experiments => [VersionKey, ExperimentsKey]
  }

  function TopKey(kind: Kind): Key {
    match kind
    case Clusters => ClustersKey
    case Nodes(_) => ClustersKey
    case Scenarios => ScenariosKey
    case Benchmarks => BenchmarksKey
    case Experiments => ExperimentsKey
  }

  function Child(b: Option<Bucket>, k: Key): Option<Bucket> {
    match b case None => None case Some(c) => SubOf(c, k)
  }

  function TopColl(root: Bucket, k: Key): Option<Bucket> {
    Child(SubOf(root, VersionKey), k)
  }

  /** The bucket of a collection, if it has been created. */
  function Coll(root: Bucket, kind: Kind): Option<Bucket> {
    if kind.Nodes? then Child(Child(TopColl(root, ClustersKey), Free(kind.cluster)), NodesKey)
    else TopColl(root, TopKey(kind))
  }

  /** The bucket of a record, if there is one. */
  function Lookup(root: Bucket, slot: Slot): Option<Bucket> {
    Child(Coll(root, slot.kind), Free(slot.id))
  }

  function SetTop(root: Bucket, k: Key, c: Bucket): Bucket {
    var v := if HasSub(root, VersionKey) then root[VersionKey].entries else map[];
    root[VersionKey := Sub(v[k := Sub(c)])]
  }

  /** The tree with a collection's bucket replaced. */
  function SetColl(root: Bucket, kind: Kind, c: Bucket): Bucket
    requires Coll(root, kind).Some?
  {
    if kind.Nodes? then
      var cs := TopColl(root, ClustersKey).value;
      SetTop(root, ClustersKey, cs[Free(kind.cluster) := Sub(cs[Free(kind.cluster)].entries[NodesKey := Sub(c)])])
    else SetTop(root, TopKey(kind), c)
  }

  /** The handle `p` points to the bucket `b`, if there is one. */
  ghost predicate PointsTo(root: Bucket, p: Path, b: Option<Bucket>) {
    (Exists(root, p) <==> b.Some?) && (b.Some? ==> At(root, p) == b.value)
  }

  lemma PointDown(root: Bucket, p: Path, b: Option<Bucket>, k: Key)
    requires PointsTo(root, p, b)
    ensures PointsTo(root, p + [k], Child(b, k))
  {
    AtConcat(root, p, [k]);
    assert [k][1..] == [];
  }

  lemma SetDown(root: Bucket, p: Path, b: Bucket, k: Key, c: Bucket)
    requires PointsTo(root, p, Some(b)) && HasSub(b, k)
    ensures Exists(root, p + [k]) && SetAt(root, p + [k], c) == SetAt(root, p, b[k := Sub(c)])
  {
    AtConcat(root, p, [k]);
    assert [k][1..] == [];
    assert SetAt(b, [k], c) == b[k := Sub(c)];
  }

  lemma TopIsAt(root: Bucket, k: Key)
    ensures PointsTo(root, [VersionKey], SubOf(root, VersionKey))
    ensures PointsTo(root, [VersionKey, k], TopColl(root, k))
  {
    PointDown(root, [], Some(root), VersionKey);
    assert [] + [VersionKey] == [VersionKey];
    PointDown(root, [VersionKey], SubOf(root, VersionKey), k);
    assert [VersionKey] + [k] == [VersionKey, k];
  }

  lemma TopSetAt(root: Bucket, k: Key, c: Bucket)
    requires TopColl(root, k).Some?
    ensures Exists(root, [VersionKey, k]) && SetAt(root, [VersionKey, k], c) == SetTop(root, k, c)
  {
    TopIsAt(root, k);
    var v := root[VersionKey].entries;
    SetDown(root, [VersionKey], v, k, c);
    assert [VersionKey] + [k] == [VersionKey, k];
    assert [VersionKey][1..] == [];
  }

  lemma CollIsAt(root: Bucket, kind: Kind)
    ensures PointsTo(root, PathOf(kind), Coll(root, kind))
  {
    TopIsAt(root, TopKey(kind));
    if kind.Nodes? {
      var p, cs := [VersionKey, ClustersKey], TopColl(root, ClustersKey);
      PointDown(root, p, cs, Free(kind.cluster));
      PointDown(root, p + [Free(kind.cluster)], Child(cs, Free(kind.cluster)), NodesKey);
      assert p + [Free(kind.cluster)] + [NodesKey] == PathOf(kind);
    }
  }

  lemma CollSetAt(root: Bucket, kind: Kind, c: Bucket)
    requires Coll(root, kind).Some?
    ensures Exists(root, PathOf(kind)) && SetAt(root, PathOf(kind), c) == SetColl(root, kind, c)
  {
    if kind.Nodes? {
      var p, f := [VersionKey, ClustersKey], Free(kind.cluster);
      var cs := TopColl(root, ClustersKey).value;
      var b := cs[f].entries;
      TopIsAt(root, ClustersKey);
      PointDown(root, p, Some(cs), f);
      SetDown(root, p + [f], b, NodesKey, c);
      SetDown(root, p, cs, f, b[NodesKey := Sub(c)]);
      TopSetAt(root, ClustersKey, cs[f := Sub(b[NodesKey := Sub(c)])]);
      assert p + [f] + [NodesKey] == PathOf(kind);
    } else {
      TopSetAt(root, TopKey(kind), c);
    }
  }

  // ----- creating missing buckets on the way -----

  /** `CreateBucketIfNotExists` along a path. */
  function Ensure(b: Bucket, p: Path): Result<Bucket, Error>
    decreases p
  {
    if p == [] then Success(b)
    else if HasSub(b, p[0]) then InSub(b, p[0], Ensure(b[p[0]].entries, p[1..]))
    else
      var c :- CreateIn(b, p[0]);
      InSub(c, p[0], Ensure(map[], p[1..]))
  }

  /** Only buckets, under non-empty names. */
  ghost predicate Listing(c: Bucket) {
    forall k :: k in c ==> k.Free? && k.text != "" && c[k].Sub?
  }

  /** What the tree looks like between transactions. */
  ghost predicate Shaped(root: Bucket) {
    && IsSub(root, VersionKey)
    && (HasSub(root, VersionKey) ==> forall k :: SubName(k) ==> IsSub(root[VersionKey].entries, k))
    && (forall kind :: Coll(root, kind).Some? ==> Listing(Coll(root, kind).value))
    && (forall slot :: Lookup(root, slot).Some? ==> Fit(Lookup(root, slot).value))
  }

  predicate IsSub(b: Bucket, k: Key) {
    k in b ==> b[k].Sub?
  }

  lemma EnsureTop(root: Bucket, k: Key)
    requires Shaped(root) && SubName(k)
    ensures Ensure(root, [VersionKey, k]) == Success(if TopColl(root, k).Some? then root else SetTop(root, k, map[]))
  {
    assert [VersionKey, k][1..] == [k] && [k][1..] == [];
    var v := if HasSub(root, VersionKey) then root[VersionKey].entries else map[];
    assert Ensure(v, [k]) == Success(if HasSub(v, k) then v else v[k := Sub(map[])]) by {
      assert HasSub(v, k) ==> v[k := Sub(v[k].entries)] == v;
      assert v[k := Sub(map[])][k := Sub(map[])] == v[k := Sub(map[])];
    }
    assert HasSub(root, VersionKey) ==> root[VersionKey := Sub(root[VersionKey].entries)] == root;
    assert root[VersionKey := Sub(map[])][VersionKey := Sub(v[k := Sub(map[])])] == root[VersionKey := Sub(v[k := Sub(map[])])];
  }

  lemma EnsureNodes(b: Bucket)
    requires Fit(b)
    ensures Ensure(b, [NodesKey]) == Success(if HasSub(b, NodesKey) then b else b[NodesKey := Sub(map[])])
  {
    assert [NodesKey][1..] == [];
    assert HasSub(b, NodesKey) ==> b[NodesKey := Sub(b[NodesKey].entries)] == b;
    assert b[NodesKey := Sub(map[])][NodesKey := Sub(map[])] == b[NodesKey := Sub(map[])];
  }

  /** Going on from where a first path ended. */
  ghost function EnsureBelow(r: Result<Bucket, Error>, p: Path, s: Path): Result<Bucket, Error>
    requires r.Success? ==> Exists(r.value, p)
  {
    if r.Failure? then r
    else match Ensure(At(r.value, p), s) case Success(c) => Success(SetAt(r.value, p, c)) case Failure(e) => Failure(e)
  }

  lemma {:induction false} EnsureConcat(b: Bucket, p: Path, s: Path)
    ensures Ensure(b, p).Success? ==> Exists(Ensure(b, p).value, p)
    ensures Ensure(b, p + s) == EnsureBelow(Ensure(b, p), p, s)
    decreases p
  {
    if p == [] {
      assert p + s == s;
    } else {
      assert (p + s)[1..] == p[1..] + s && (p + s)[0] == p[0];
      if HasSub(b, p[0]) {
        EnsureConcat(b[p[0]].entries, p[1..], s);
        EnsureInSub(b, p, s, Ensure(b[p[0]].entries, p[1..]));
      } else {
        EnsureConcat(map[], p[1..], s);
        if CreateIn(b, p[0]).Success? {
          EnsureInSub(CreateIn(b, p[0]).value, p, s, Ensure(map[], p[1..]));
        }
      }
    }
  }

  lemma EnsureInSub(b: Bucket, p: Path, s: Path, inner: Result<Bucket, Error>)
    requires p != [] && (inner.Success? ==> Exists(inner.value, p[1..]))
    ensures InSub(b, p[0], inner).Success? ==> Exists(InSub(b, p[0], inner).value, p)
    ensures EnsureBelow(InSub(b, p[0], inner), p, s) == InSub(b, p[0], EnsureBelow(inner, p[1..], s))
  {
    if inner.Success? {
      var r := b[p[0] := Sub(inner.value)];
      var c := Ensure(At(inner.value, p[1..]), s);
      if c.Success? {
        var below := SetAt(inner.value, p[1..], c.value);
        assert r[p[0] := Sub(below)] == b[p[0] := Sub(below)];
      }
    }
  }
}
