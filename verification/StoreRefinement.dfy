/** The bucket tree refines the plain store: every call, and so every sequence of calls,
    does to the records read from the tree what it does to the plain store, and replies
    alike. */
module StoreRefinement {
  import opened Results
  import opened Buckets
  import opened MetadataHelpers
  import opened BenchmarkCodec
  import opened FitBuckets
  import opened StoreRecords
  import opened RecordLaws
  import opened StoreTree
  import opened StoreSteps

  // ----- what it means to represent a plain store -----

  /** A cluster reads the same whatever its nodes, a benchmark whatever its report, and a
      bare bucket reads as a cluster with nothing but its id. */
  ghost predicate Steady(f: Format) {
    && (forall id, b: Bucket, c: Bucket, o :: f.holds(Slot(Clusters, id), b, o) ==> f.holds(Slot(Clusters, id), b[NodesKey := Sub(c)], o))
    && (forall id, b: Bucket, v: string, o :: f.holds(Slot(Benchmarks, id), b, o) ==>
         f.holds(Slot(Benchmarks, id), b[ReportKey := Value(v)], o))
    && (forall id :: f.holds(Slot(Clusters, id), map[NodesKey := Sub(map[])], Some(OnlyId(id))))
  }

  /** `e` is what a write of some record leaves in a bucket that held `b`. */
  ghost predicate Written(f: Format, slot: Slot, b: Bucket, e: Bucket, o: Option<Record>) {
    && Fit(e) && f.holds(slot, e, o)
    && (slot.kind.Clusters? ==> SubOf(e, NodesKey) == SubOf(b, NodesKey))
    && (slot.kind.Benchmarks? ==> ValueOf(e, ReportKey) == ValueOf(b, ReportKey))
  }

  /** A record is written exactly when the rules allow it, and then the bucket holds it in
      normal form; nodes and report stay. */
  ghost predicate WritesWell(f: Format, slot: Slot, b: Bucket, was: Option<Record>, rec: Record) {
    Fit(b) && Suits(slot.kind, rec) && Id(rec) == slot.id && ((b == map[] && was == None) || f.holds(slot, b, was)) ==>
      Settles(f.enc(b, rec), f.rules.writable(was, rec)) &&
      (f.enc(b, rec).Success? ==> Written(f, slot, b, f.enc(b, rec).value, f.rules.normal(was, rec)))
  }

  /** A bucket reads as what it holds, a record that could be written anew; only benchmarks
      can be such that they do not read. */
  ghost predicate ReadsWell(f: Format, slot: Slot, b: Bucket, o: Option<Record>) {
    f.holds(slot, b, o) ==>
      f.dec(slot.kind, slot.id, b) == Reads(o) &&
      (if o.Some? then
         && Suits(slot.kind, o.value) && Id(o.value) == slot.id && f.rules.writable(None, o.value) && Settled(o.value)
         && Members(Labels(o.value)) == LabelSet(b)
       else slot.kind.Benchmarks?)
  }

  /** What the store relies on. */
  ghost predicate Faithful(f: Format) {
    && Steady(f) && f.json.ReadsBack()
    && (forall slot, b, was, rec :: WritesWell(f, slot, b, was, rec))
    && (forall slot, b, o :: ReadsWell(f, slot, b, o))
  }

  function ReportAt(root: Bucket, id: string): Option<string> {
    match Lookup(root, Slot(Benchmarks, id)) case None => None case Some(b) => ValueOf(b, ReportKey)
  }

  /** The tree stands for the plain store.  The triggers keep facts about the plain store
      from spreading into the tree unless the tree is looked at. */
  ghost predicate Represents(f: Format, root: Bucket, p: Plain) {
    && Shaped(root)
    && (forall kind {:trigger Coll(root, kind)} :: kind in p.live <==> Coll(root, kind).Some?)
    && (forall slot {:trigger Lookup(root, slot)} :: slot in p.records <==> Lookup(root, slot).Some?)
    && (forall slot {:trigger Lookup(root, slot)} :: slot in p.records ==> f.holds(slot, Lookup(root, slot).value, p.records[slot]))
    && (forall id {:trigger ReportAt(root, id)} :: id in p.reports <==> ReportAt(root, id).Some?)
    && (forall id {:trigger ReportAt(root, id)} :: id in p.reports ==> f.json.reportOf(ReportAt(root, id).value) == Some(p.reports[id]))
  }

  // ----- replacing the bucket of one collection -----

  lemma SetCollSelf(root: Bucket, kind: Kind, c: Bucket)
    requires Coll(root, kind).Some?
    ensures Coll(SetColl(root, kind, c), kind) == Some(c)
  {
  }

  lemma SetCollOther(root: Bucket, kind: Kind, c: Bucket, other: Kind)
    requires Coll(root, kind).Some? && other != kind
    ensures Coll(SetColl(root, kind, c), other) ==
      if kind.Clusters? && other.Nodes? then Child(SubOf(c, Free(other.cluster)), NodesKey)
      else if kind.Nodes? && other.Clusters? then
        Some(Coll(root, Clusters).value[Free(kind.cluster) :=
          Sub(Lookup(root, Slot(Clusters, kind.cluster)).value[NodesKey := Sub(c)])])
      else Coll(root, other)
  {
  }

  /** Every record after the entry `id` of one collection has changed. */
  lemma LookupAfter(root: Bucket, kind: Kind, c: Bucket, id: string, slot: Slot)
    requires Coll(root, kind).Some? && SameExcept(Coll(root, kind).value, c, {Free(id)})
    ensures Lookup(SetColl(root, kind, c), slot) ==
      if slot == Slot(kind, id) then SubOf(c, Free(id))
      else if kind.Clusters? && slot.kind == Nodes(id) then Child(Child(SubOf(c, Free(id)), NodesKey), Free(slot.id))
      else if kind.Nodes? && slot == Slot(Clusters, kind.cluster) then
        Some(Lookup(root, slot).value[NodesKey := Sub(c)])
      else Lookup(root, slot)
  {
    var was := Coll(root, kind).value;
    SetCollSelf(root, kind, c);
    if slot.kind == kind {
      if slot.id != id {
        Kept(was, c, {Free(id)}, Free(slot.id));
      }
    } else {
      SetCollOther(root, kind, c, slot.kind);
      if kind.Clusters? && slot.kind.Nodes? && slot.kind.cluster != id {
        Kept(was, c, {Free(id)}, Free(slot.kind.cluster));
      }
    }
  }

  lemma CollAfter(root: Bucket, kind: Kind, c: Bucket, id: string, other: Kind)
    requires Coll(root, kind).Some? && SameExcept(Coll(root, kind).value, c, {Free(id)})
    ensures Coll(SetColl(root, kind, c), other).Some? <==>
      if kind.Clusters? && other == Nodes(id) then Child(SubOf(c, Free(id)), NodesKey).Some?
      else Coll(root, other).Some?
  {
    var was := Coll(root, kind).value;
    SetCollSelf(root, kind, c);
    if other != kind {
      SetCollOther(root, kind, c, other);
      if kind.Clusters? && other.Nodes? && other.cluster != id {
        Kept(was, c, {Free(id)}, Free(other.cluster));
      }
    }
  }

  /** The nodes under a changed cluster entry: as before, gone, or newly opened. */
  ghost predicate NodesFrom(root: Bucket, kind: Kind, id: string, e: Option<Bucket>) {
    kind.Clusters? ==>
      var nodes, before := Child(e, NodesKey), Coll(root, Nodes(id));
      nodes == before || nodes == None || (nodes == Some(map[]) && before == None)
  }

  lemma TopsStaySubs(root: Bucket, kind: Kind, c: Bucket)
    requires Shaped(root) && Coll(root, kind).Some?
    ensures var after := SetColl(root, kind, c);
      HasSub(after, VersionKey) && forall k :: SubName(k) ==> IsSub(after[VersionKey].entries, k)
  {
    var after := SetColl(root, kind, c);
    var top := if kind.Nodes? then ClustersKey else TopKey(kind);
    forall k | SubName(k) ensures IsSub(after[VersionKey].entries, k) {
      assert IsSub(root[VersionKey].entries, k);
      assert k != top ==> (k in after[VersionKey].entries <==> k in root[VersionKey].entries);
    }
  }

  lemma ListingAfter(root: Bucket, kind: Kind, c: Bucket, id: string, other: Kind)
    requires Shaped(root) && Coll(root, kind).Some? && SameExcept(Coll(root, kind).value, c, {Free(id)}) && Listing(c)
    requires NodesFrom(root, kind, id, SubOf(c, Free(id)))
    requires Coll(SetColl(root, kind, c), other).Some?
    ensures Listing(Coll(SetColl(root, kind, c), other).value)
  {
    SetCollSelf(root, kind, c);
    if other != kind {
      SetCollOther(root, kind, c, other);
      if kind.Clusters? && other.Nodes? {
        if other.cluster == id {
          assert Coll(SetColl(root, kind, c), other) == Child(SubOf(c, Free(id)), NodesKey);
          assert other == Nodes(id);
        } else {
          Kept(Coll(root, kind).value, c, {Free(id)}, Free(other.cluster));
          assert Coll(SetColl(root, kind, c), other) == Coll(root, other);
          assert Listing(Coll(root, other).value);
        }
      } else if kind.Nodes? && other.Clusters? {
        var cs := Coll(root, Clusters).value;
        assert Listing(cs) && Free(kind.cluster) in cs;
      } else {
        assert Listing(Coll(root, other).value);
      }
    }
  }

  lemma ShapedAfter(root: Bucket, kind: Kind, c: Bucket, id: string)
    requires Shaped(root) && Coll(root, kind).Some? && SameExcept(Coll(root, kind).value, c, {Free(id)}) && Listing(c)
    requires SubOf(c, Free(id)).Some? ==> Fit(SubOf(c, Free(id)).value)
    requires NodesFrom(root, kind, id, SubOf(c, Free(id)))
    ensures Shaped(SetColl(root, kind, c))
  {
    var after := SetColl(root, kind, c);
    TopsStaySubs(root, kind, c);
    forall other | Coll(after, other).Some? ensures Listing(Coll(after, other).value) {
      ListingAfter(root, kind, c, id, other);
    }
    forall slot | Lookup(after, slot).Some? ensures Fit(Lookup(after, slot).value) {
      LookupAfter(root, kind, c, id, slot);
      if kind.Clusters? && slot.kind == Nodes(id) && slot != Slot(kind, id) {
        assert Lookup(root, slot) == Child(Coll(root, Nodes(id)), Free(slot.id));
      }
    }
  }

  // ----- one entry of one collection changes -----

  ghost predicate LiveChanged(p: Plain, q: Plain, kind: Kind, id: string, e: Option<Bucket>) {
    forall k :: k in q.live <==> if kind.Clusters? && k == Nodes(id) then Child(e, NodesKey).Some? else k in p.live
  }

  ghost predicate RecordsChanged(f: Format, p: Plain, q: Plain, kind: Kind, id: string, e: Option<Bucket>) {
    && (e.Some? ==> Slot(kind, id) in q.records && f.holds(Slot(kind, id), e.value, q.records[Slot(kind, id)]))
    && (e.None? ==> Slot(kind, id) !in q.records)
    && (forall s :: s != Slot(kind, id) ==>
         (s in q.records <==> s in p.records && (kind.Clusters? && s.kind == Nodes(id) ==> Child(e, NodesKey).Some?)))
    && (forall s :: s in q.records && s != Slot(kind, id) ==> q.records[s] == p.records[s])
  }

  function ReportIn(e: Option<Bucket>): Option<string> {
    match e case None => None case Some(b) => ValueOf(b, ReportKey)
  }

  ghost predicate ReportsChanged(f: Format, p: Plain, q: Plain, kind: Kind, id: string, e: Option<Bucket>) {
    && (kind.Benchmarks? ==> (id in q.reports <==> ReportIn(e).Some?))
    && (kind.Benchmarks? && id in q.reports ==> f.json.reportOf(ReportIn(e).value) == Some(q.reports[id]))
    && (forall r :: !(kind.Benchmarks? && r == id) ==> (r in q.reports <==> r in p.reports))
    && (forall r :: r in q.reports && !(kind.Benchmarks? && r == id) ==> q.reports[r] == p.reports[r])
  }

  /** The plain store after the entry `id` of a collection has become `e`. */
  ghost predicate Changed(f: Format, p: Plain, q: Plain, kind: Kind, id: string, e: Option<Bucket>) {
    LiveChanged(p, q, kind, id, e) && RecordsChanged(f, p, q, kind, id, e) && ReportsChanged(f, p, q, kind, id, e)
  }

  /** The change of one entry to the bucket `c`, as all calls make it. */
  ghost predicate EntryChange(root: Bucket, kind: Kind, c: Bucket, id: string) {
    && Coll(root, kind).Some? && SameExcept(Coll(root, kind).value, c, {Free(id)}) && Listing(c)
    && (SubOf(c, Free(id)).Some? ==> Fit(SubOf(c, Free(id)).value))
    && NodesFrom(root, kind, id, SubOf(c, Free(id)))
  }

  lemma LookupSome(f: Format, root: Bucket, p: Plain, q: Plain, kind: Kind, c: Bucket, id: string, slot: Slot)
    requires Faithful(f) && Represents(f, root, p) && EntryChange(root, kind, c, id)
    requires Changed(f, p, q, kind, id, SubOf(c, Free(id)))
    ensures slot in q.records <==> Lookup(SetColl(root, kind, c), slot).Some?
    ensures slot in q.records ==> f.holds(slot, Lookup(SetColl(root, kind, c), slot).value, q.records[slot])
  {
    LookupAfter(root, kind, c, id, slot);
    if slot != Slot(kind, id) {
      if kind.Clusters? && slot.kind == Nodes(id) {
        assert Lookup(root, slot) == Child(Coll(root, Nodes(id)), Free(slot.id));
      } else if kind.Nodes? && slot == Slot(Clusters, kind.cluster) {
        assert f.holds(slot, Lookup(root, slot).value, p.records[slot]);
      }
    }
  }

  lemma ReportAfter(f: Format, root: Bucket, p: Plain, q: Plain, kind: Kind, c: Bucket, id: string, r: string)
    requires Represents(f, root, p) && EntryChange(root, kind, c, id)
    requires Changed(f, p, q, kind, id, SubOf(c, Free(id)))
    ensures r in q.reports <==> ReportAt(SetColl(root, kind, c), r).Some?
    ensures r in q.reports ==> f.json.reportOf(ReportAt(SetColl(root, kind, c), r).value) == Some(q.reports[r])
  {
    LookupAfter(root, kind, c, id, Slot(Benchmarks, r));
    assert r in p.reports <==> ReportAt(root, r).Some?;
  }

  lemma ChangeRefines(f: Format, root: Bucket, p: Plain, q: Plain, kind: Kind, c: Bucket, id: string)
    requires Faithful(f) && Represents(f, root, p) && EntryChange(root, kind, c, id)
    requires Changed(f, p, q, kind, id, SubOf(c, Free(id)))
    ensures Represents(f, SetColl(root, kind, c), q)
  {
    var after := SetColl(root, kind, c);
    ShapedAfter(root, kind, c, id);
    forall k ensures k in q.live <==> Coll(after, k).Some? {
      CollAfter(root, kind, c, id, k);
    }
    forall slot ensures slot in q.records <==> Lookup(after, slot).Some? {
      LookupSome(f, root, p, q, kind, c, id, slot);
    }
    forall slot | slot in q.records ensures f.holds(slot, Lookup(after, slot).value, q.records[slot]) {
      LookupSome(f, root, p, q, kind, c, id, slot);
    }
    forall r ensures r in q.reports <==> ReportAt(after, r).Some? {
      ReportAfter(f, root, p, q, kind, c, id, r);
    }
    forall r | r in q.reports ensures f.json.reportOf(ReportAt(after, r).value) == Some(q.reports[r]) {
      ReportAfter(f, root, p, q, kind, c, id, r);
    }
  }

  // ----- opening a collection -----

  lemma NewTop(root: Bucket, kind: Kind, other: Kind)
    requires !kind.Nodes? && Shaped(root) && Coll(root, kind) == None
    ensures Coll(SetTop(root, TopKey(kind), map[]), other) == if other == kind then Some(map[]) else Coll(root, other)
  {
  }

  lemma NewTopShaped(root: Bucket, kind: Kind)
    requires !kind.Nodes? && Shaped(root) && Coll(root, kind) == None
    ensures Shaped(SetTop(root, TopKey(kind), map[]))
  {
    var after := SetTop(root, TopKey(kind), map[]);
    forall other | Coll(after, other).Some? ensures Listing(Coll(after, other).value) {
      NewTop(root, kind, other);
    }
    forall slot | Lookup(after, slot).Some? ensures Fit(Lookup(after, slot).value) {
      NewTop(root, kind, slot.kind);
      assert Lookup(after, slot) == Lookup(root, slot);
    }
    forall k | SubName(k) ensures IsSub(after[VersionKey].entries, k) {
      if HasSub(root, VersionKey) {
        assert IsSub(root[VersionKey].entries, k);
      }
    }
  }

  lemma NewTopRefines(f: Format, root: Bucket, p: Plain, kind: Kind)
    requires !kind.Nodes? && Represents(f, root, p) && Coll(root, kind) == None
    ensures Represents(f, SetTop(root, TopKey(kind), map[]), p.(live := p.live + {kind}))
  {
    var after := SetTop(root, TopKey(kind), map[]);
    NewTopShaped(root, kind);
    forall other ensures Coll(after, other).Some? <==> other == kind || Coll(root, other).Some? {
      NewTop(root, kind, other);
    }
    forall slot ensures Lookup(after, slot) == Lookup(root, slot) {
      NewTop(root, kind, slot.kind);
    }
    forall id ensures ReportAt(after, id) == ReportAt(root, id) {
      assert Lookup(after, Slot(Benchmarks, id)) == Lookup(root, Slot(Benchmarks, id));
    }
  }

  lemma OpenTopRefines(f: Format, root: Bucket, p: Plain, kind: Kind) returns (r: Bucket)
    requires !kind.Nodes? && Represents(f, root, p)
    ensures Ensure(root, PathOf(kind)) == Success(r) && Coll(r, kind).Some?
    ensures Represents(f, r, p.(live := p.live + {kind}))
  {
    EnsureTop(root, TopKey(kind));
    if Coll(root, kind).Some? {
      r := root;
      assert p.live + {kind} == p.live;
    } else {
      r := SetTop(root, TopKey(kind), map[]);
      NewTopRefines(f, root, p, kind);
      NewTop(root, kind, kind);
    }
  }

  /** What opening the nodes of a cluster does to the clusters bucket. */
  function WithNodes(cs: Bucket, c: string): Bucket {
    var b := if HasSub(cs, Free(c)) then cs[Free(c)].entries else map[];
    cs[Free(c) := Sub(if HasSub(b, NodesKey) then b else b[NodesKey := Sub(map[])])]
  }

  lemma EnsureNodesPath(cs: Bucket, c: string)
    requires Listing(cs) && (HasSub(cs, Free(c)) ==> Fit(cs[Free(c)].entries))
    ensures Ensure(cs, [Free(c), NodesKey]) == if c == "" then Failure(BucketNameRequired) else Success(WithNodes(cs, c))
  {
    var f := Free(c);
    assert [f, NodesKey][1..] == [NodesKey];
    if HasSub(cs, f) {
      EnsureNodes(cs[f].entries);
    } else {
      EnsureNodes(map[]);
      assert f !in cs;
      assert cs[f := Sub(map[])][f := Sub(map[NodesKey := Sub(map[])])] == cs[f := Sub(map[NodesKey := Sub(map[])])];
    }
  }

  lemma OpenNodesRefines(f: Format, root: Bucket, p: Plain, c: string)
    requires Faithful(f) && Represents(f, root, p)
    ensures c == "" ==> Ensure(root, PathOf(Nodes(c))).Failure? && Ensure(root, PathOf(Nodes(c))).error == BucketNameRequired
    ensures c != "" ==> Ensure(root, PathOf(Nodes(c))).Success?
    ensures c != "" ==> Coll(Ensure(root, PathOf(Nodes(c))).value, Nodes(c)).Some?
    ensures c != "" ==> Represents(f, Ensure(root, PathOf(Nodes(c))).value, Open(p, Nodes(c)).value)
  {
    var r := OpenTopRefines(f, root, p, Clusters);
    var p1 := p.(live := p.live + {Clusters});
    var cs := Coll(r, Clusters).value;
    var top := PathOf(Clusters);
    CollIsAt(r, Clusters);
    EnsureConcat(root, top, [Free(c), NodesKey]);
    assert top + [Free(c), NodesKey] == PathOf(Nodes(c));
    assert HasSub(cs, Free(c)) ==> Lookup(r, Slot(Clusters, c)) == Some(cs[Free(c)].entries);
    EnsureNodesPath(cs, c);
    if c != "" {
      CollSetAt(r, Clusters, WithNodes(cs, c));
      WithNodesRefines(f, r, p1, c);
    }
  }

  lemma WithNodesRefines(f: Format, root: Bucket, p: Plain, c: string)
    requires Faithful(f) && Represents(f, root, p) && Coll(root, Clusters).Some? && c != ""
    ensures var after := SetColl(root, Clusters, WithNodes(Coll(root, Clusters).value, c));
      Coll(after, Nodes(c)).Some? && Represents(f, after, Open(p, Nodes(c)).value)
  {
    var cs := Coll(root, Clusters).value;
    var next := WithNodes(cs, c);
    var e := SubOf(next, Free(c));
    var q := Open(p, Nodes(c)).value;
    var slot := Slot(Clusters, c);
    SetCollSelf(root, Clusters, next);
    SetCollOther(root, Clusters, next, Nodes(c));
    assert Lookup(root, slot) == SubOf(cs, Free(c));
    assert Coll(root, Nodes(c)) == Child(SubOf(cs, Free(c)), NodesKey);
    if HasSub(cs, Free(c)) {
      var b := cs[Free(c)].entries;
      assert f.holds(slot, b, p.records[slot]);
    } else {
      assert Fit(map[NodesKey := Sub(map[])]);
    }
    assert Clusters in p.live;
    ChangeRefines(f, root, p, q, Clusters, next, c);
  }
}
