/** The store's methods as the code performs them: handles into a transaction, loops over
    buckets, and a database that commits or rolls back. */
module StoreCode {
  import opened GoStrings
  import opened Results
  import opened Records
  import opened Buckets
  import opened MetadataHelpers
  import opened NodeCodec
  import opened ClusterCodec
  import opened ScenarioCodec
  import opened BenchmarkCodec
  import opened ExperimentCodec
  import opened StoreRecords
  import opened StoreTree
  import opened StoreSteps
  import opened StoreFormat

  // ----- walking to a collection -----

  /** `getBucket`: walks down as long as there is a bucket. */
  method GetBucket(tx: Tx, keys: Path) returns (found: bool)
    ensures found <==> Exists(tx.root, keys)
  {
    var p: Path := [];
    for i := 0 to |keys|
      invariant p == keys[..i] && Exists(tx.root, p)
    {
      SubExists(tx.root, p, keys[i]);
      assert keys == keys[..i + 1] + keys[i + 1..] && keys[..i + 1] == p + [keys[i]];
      AtConcat(tx.root, keys[..i + 1], keys[i + 1..]);
      if !tx.Has(p, keys[i]) {
        return false;
      }
      p := p + [keys[i]];
    }
    assert p == keys;
    return true;
  }

  /** `CreateBucketIfNotExists`. */
  method EnsureBucket(tx: Tx, p: Path, k: Key) returns (err: Option<Error>)
    requires Exists(tx.root, p)
    modifies tx
    ensures Ran(old(tx.root), tx.root, p, Ensure(At(old(tx.root), p), [k]), err)
    ensures err == None ==> Exists(tx.root, p + [k])
  {
    ghost var b := At(tx.root, p);
    assert [k][1..] == [];
    ConfinedRefl(tx.root, p);
    if tx.Has(p, k) {
      assert b[k := Sub(b[k].entries)] == b;
      SubExists(tx.root, p, k);
      return None;
    }
    err := tx.CreateBucket(p, k);
    assert CreateIn(b, k).Success? ==> CreateIn(b, k).value[k := Sub(map[])] == CreateIn(b, k).value;
  }

  /** `createBucketIfNotExists`: creates what is missing on the way down. */
  method CreatePath(tx: Tx, keys: Path) returns (err: Option<Error>)
    modifies tx
    ensures match Ensure(old(tx.root), keys)
            case Success(r) => err == None && tx.root == r && Exists(r, keys)
            case Failure(e) => err == Some(e)
  {
    ghost var r0 := tx.root;
    var p: Path := [];
    err := None;
    for i := 0 to |keys|
      invariant p == keys[..i] && err == None
      invariant Ensure(r0, p) == Success(tx.root) && Exists(tx.root, p)
    {
      ghost var r1 := tx.root;
      err := EnsureBucket(tx, p, keys[i]);
      EnsureConcat(r0, p, [keys[i]]);
      assert keys[..i + 1] == p + [keys[i]];
      if err.Some? {
        EnsureConcat(r0, keys[..i + 1], keys[i + 1..]);
        assert keys == keys[..i + 1] + keys[i + 1..];
        return;
      }
      p := p + [keys[i]];
    }
    assert p == keys;
  }

  // ----- one record -----

  method WriteRecord(x: Texts, tx: Tx, p: Path, rec: Record) returns (err: Option<Error>, written: Record)
    requires Exists(tx.root, p)
    modifies tx
    ensures Ran(old(tx.root), tx.root, p, Enc(x, At(old(tx.root), p), rec), err)
    ensures err == None ==> written == Returned(rec)
  {
    match rec
    case OfCluster(c) =>
      err := WriteCluster(x, tx, p, c);
      written := rec;
    case OfNode(n) =>
      err := WriteNode(x, tx, p, n);
      written := rec;
    case OfScenario(s) =>
      var s1;
      err, s1 := WriteScenario(x, tx, p, s);
      written := OfScenario(s1);
    case OfBenchmark(m) =>
      var m1;
      err, m1 := WriteBenchmark(x, tx, p, m);
      written := OfBenchmark(m1);
    case OfExperiment(e) =>
      err := WriteExperiment(x, tx, p, e);
      written := rec;
  }

  method ReadRecord(x: Texts, tx: Tx, p: Path, kind: Kind, id: string) returns (r: Result<Record, Error>)
    requires Exists(tx.root, p)
    ensures r == Dec(x, kind, id, At(tx.root, p))
  {
    match kind
    case Clusters =>
      var c := ReadCluster(x, tx, p, id);
      r := AsRecord(c, v => OfCluster(v));
    case Nodes(_) =>
      var n := ReadNode(x, tx, p, id);
      r := AsRecord(n, v => OfNode(v));
    case Scenarios =>
      var s := ReadScenario(x, tx, p, id);
      r := AsRecord(s, v => OfScenario(v));
    case Benchmarks =>
      var m := ReadBenchmark(x, tx, p, id);
      r := AsRecord(m, v => OfBenchmark(v));
    case Experiments =>
      var e := ReadExperiment(x, tx, p, id);
      r := AsRecord(e, v => OfExperiment(v));
  }

  // ----- the records of a collection -----

  method CreateOne(x: Texts, tx: Tx, p: Path, rec: Record) returns (err: Option<Error>, written: Record)
    requires Exists(tx.root, p)
    modifies tx
    ensures Ran(old(tx.root), tx.root, p, AddOne(FormatOf(x), At(old(tx.root), p), rec), err)
    ensures err == None ==> written == Returned(rec)
  {
    ghost var r0 := tx.root;
    var k := Free(Id(rec));
    written := rec;
    err := tx.CreateBucket(p, k);
    if err.Some? {
      if err.value == BucketExists {
        err := Some(AlreadyExists);
      }
      return;
    }
    ghost var r1 := tx.root;
    err, written := WriteRecord(x, tx, p + [k], rec);
    RanSub(r1, tx.root, p, k, Enc(x, map[], rec), err);
    RanAfter(r0, r1, tx.root, p, InSub(At(r1, p), k, Enc(x, map[], rec)), err);
  }

  method CreateAll(x: Texts, tx: Tx, p: Path, recs: seq<Record>, clock: nat -> Time)
      returns (err: Option<Error>, done: seq<Record>)
    requires Exists(tx.root, p)
    modifies tx
    ensures Ran(old(tx.root), tx.root, p, AddAll(FormatOf(x), At(old(tx.root), p), recs, clock), err)
    ensures err == None ==> done == Stamped(recs, clock)
  {
    ghost var r0, coll := tx.root, At(tx.root, p);
    ConfinedRefl(r0, p);
    done, err := [], None;
    for i := 0 to |recs|
      invariant err == None && Confined(r0, tx.root, p) && done == Stamped(recs[..i], clock)
      invariant AddAll(FormatOf(x), coll, recs[..i], clock) == Success(At(tx.root, p))
    {
      ghost var r1 := tx.root;
      var written;
      var rec := Created(recs[i], clock(i));
      err, written := CreateOne(x, tx, p, rec);
      AddStep(FormatOf(x), coll, recs, clock, i, At(r1, p), AddOne(FormatOf(x), At(r1, p), rec));
      ConfinedTrans(r0, r1, tx.root, p);
      if err.Some? {
        return;
      }
      StampStep(recs, clock, i);
      done := done + [written];
    }
    assert recs[..|recs|] == recs;
  }

  lemma AddStep(f: Format, coll: Bucket, recs: seq<Record>, clock: nat -> Time, i: nat, d: Bucket, r: Result<Bucket, Error>)
    requires i < |recs| && AddAll(f, coll, recs[..i], clock) == Success(d)
    requires r == AddOne(f, d, Created(recs[i], clock(i)))
    ensures AddAll(f, coll, recs[..i + 1], clock) == r
    ensures r.Failure? ==> AddAll(f, coll, recs, clock) == r
  {
    PrefixGrows(recs, i);
    if r.Failure? {
      AddAllFails(f, coll, recs, clock, i + 1);
    }
  }

  lemma StampStep(recs: seq<Record>, clock: nat -> Time, i: nat)
    requires i < |recs|
    ensures Stamped(recs[..i + 1], clock) == Stamped(recs[..i], clock) + [Returned(Created(recs[i], clock(i)))]
  {
    PrefixGrows(recs, i);
  }

  lemma AddAllFails(f: Format, coll: Bucket, recs: seq<Record>, clock: nat -> Time, i: nat)
    requires i <= |recs| && AddAll(f, coll, recs[..i], clock).Failure?
    ensures AddAll(f, coll, recs, clock) == AddAll(f, coll, recs[..i], clock)
    decreases |recs| - i
  {
    if i == |recs| {
      assert recs[..i] == recs;
    } else {
      PrefixGrows(recs, i);
      AddAllFails(f, coll, recs, clock, i + 1);
    }
  }

  method RewriteOne(x: Texts, tx: Tx, p: Path, rec: Record) returns (err: Option<Error>, written: Record)
    requires Exists(tx.root, p)
    modifies tx
    ensures Ran(old(tx.root), tx.root, p, Rewrite(FormatOf(x), At(old(tx.root), p), rec), err)
    ensures err == None ==> written == Returned(rec)
  {
    ghost var r0 := tx.root;
    ConfinedRefl(r0, p);
    var k := Free(Id(rec));
    if !tx.Has(p, k) {
      return Some(NotFound), rec;
    }
    SubExists(tx.root, p, k);
    err, written := WriteRecord(x, tx, p + [k], rec);
    RanSub(r0, tx.root, p, k, Enc(x, At(r0, p + [k]), rec), err);
  }

  method RemoveEach(tx: Tx, p: Path, ids: seq<string>) returns (err: Option<Error>)
    requires Exists(tx.root, p)
    modifies tx
    ensures Ran(old(tx.root), tx.root, p, RemoveAll(At(old(tx.root), p), ids), err)
  {
    ghost var r0, coll := tx.root, At(tx.root, p);
    ConfinedRefl(r0, p);
    err := None;
    for i := 0 to |ids|
      invariant err == None && Confined(r0, tx.root, p) && RemoveAll(coll, ids[..i]) == Success(At(tx.root, p))
    {
      ghost var r1 := tx.root;
      err := tx.DeleteBucket(p, Free(ids[i]));
      PrefixGrows(ids, i);
      ConfinedTrans(r0, r1, tx.root, p);
      if err.Some? {
        if err.value == BucketNotFound {
          err := Some(NotFound);
        }
        RemoveAllFails(coll, ids, i + 1);
        return;
      }
    }
    assert ids[..|ids|] == ids;
  }

  lemma RemoveAllFails(coll: Bucket, ids: seq<string>, i: nat)
    requires i <= |ids| && RemoveAll(coll, ids[..i]).Failure?
    ensures RemoveAll(coll, ids) == RemoveAll(coll, ids[..i])
    decreases |ids| - i
  {
    if i == |ids| {
      assert ids[..i] == ids;
    } else {
      PrefixGrows(ids, i);
      RemoveAllFails(coll, ids, i + 1);
    }
  }

  // ----- batchUpdateLabels -----

  /** The labels a record keeps; each of them leaves the set of labels to add. */
  method KeepLabels(tx: Tx, q: Path, adds0: set<string>, removes: set<string>) returns (labels: seq<string>, adds: set<string>)
    requires Exists(tx.root, q)
    ensures NoDuplicates(labels) && Members(labels) == LabelSet(At(tx.root, q)) - removes && adds == adds0 - Members(labels)
  {
    labels, adds := [], adds0;
    ghost var all := LabelSet(At(tx.root, q));
    if tx.Has(q, LabelsKey) {
      SubExists(tx.root, q, LabelsKey);
      var keys := tx.KeysInOrder(q + [LabelsKey]);
      assert forall l :: l in keys <==> l in all;
      StrictlySortedDistinct(keys);
      for i := 0 to |keys|
        invariant NoDuplicates(labels) && forall l :: l in labels <==> l in keys[..i] && l !in removes
        invariant adds == adds0 - Members(labels)
      {
        assert keys[..i + 1] == keys[..i] + [keys[i]];
        if keys[i] in removes {
          continue;
        }
        assert keys[i] !in keys[..i];
        labels := labels + [keys[i]];
        adds := adds - {keys[i]};
      }
      assert keys[..|keys|] == keys;
    }
  }

  /** Appends what is left to add, in whatever order, and sorts. */
  method AddRest(kept: seq<string>, adds: set<string>) returns (labels: seq<string>)
    requires NoDuplicates(kept) && forall l :: l in adds ==> l !in kept
    ensures labels == SortedSet(Members(kept) + adds)
  {
    labels := kept;
    var pending := adds;
    while pending != {}
      invariant pending <= adds && NoDuplicates(labels)
      invariant forall l :: l in labels <==> l in kept || (l in adds && l !in pending)
      decreases |pending|
    {
      var l :| l in pending;
      labels := labels + [l];
      pending := pending - {l};
    }
    SortOfDistinct(labels);
    labels := Sort(labels);
    StrictlySortedUnique(labels, SortedSet(Members(kept) + adds));
  }

  method RelabelRecord(x: Texts, tx: Tx, p: Path, kind: Kind, id: string, adds0: set<string>, removes: set<string>,
                       now: Time, ghost done: seq<Record>) returns (err: Option<Error>, adds: set<string>, written: Record)
    requires Exists(tx.root, p)
    modifies tx
    ensures Confined(old(tx.root), tx.root, p)
    ensures match RelabelOne(FormatOf(x), kind, Batch(At(old(tx.root), p), adds0, done), id, removes, now)
            case Success(s) => err == None && s == Batch(At(tx.root, p), adds, done + [written])
            case Failure(e) => err == Some(e)
  {
    ghost var r0 := tx.root;
    ConfinedRefl(r0, p);
    var k := Free(id);
    adds, written := adds0, OfCluster(ZERO_CLUSTER);
    if !tx.Has(p, k) {
      return Some(NotFound), adds, written;
    }
    SubExists(tx.root, p, k);
    var kept;
    kept, adds := KeepLabels(tx, p + [k], adds0, removes);
    var labels := AddRest(kept, adds);
    var r := ReadRecord(x, tx, p + [k], kind, id);
    if r.Failure? {
      return Some(r.error), adds, written;
    }
    var next := Relabelled(r.value, labels, now);
    err, written := WriteRecord(x, tx, p + [k], next);
    RanSub(r0, tx.root, p, k, Enc(x, At(r0, p + [k]), next), err);
  }

  /** The batch was run, or failed, as specified. */
  ghost predicate BatchRan(r0: Bucket, r1: Bucket, p: Path, spec: Result<Batch, Error>, err: Option<Error>, done: seq<Record>) {
    && Confined(r0, r1, p)
    && match spec
       case Success(s) => err == None && At(r1, p) == s.coll && done == s.done
       case Failure(e) => err == Some(e)
  }

  method RelabelEach(x: Texts, tx: Tx, p: Path, kind: Kind, ids: seq<string>, adds: set<string>, removes: set<string>,
                     clock: nat -> Time) returns (err: Option<Error>, done: seq<Record>)
    requires Exists(tx.root, p)
    modifies tx
    ensures BatchRan(old(tx.root), tx.root, p, RelabelAll(FormatOf(x), kind, At(old(tx.root), p), ids, adds, removes, clock), err, done)
  {
    ghost var r0, coll := tx.root, At(tx.root, p);
    ConfinedRefl(r0, p);
    err, done := None, [];
    var left := adds;
    for i := 0 to |ids|
      invariant err == None && Confined(r0, tx.root, p)
      invariant RelabelAll(FormatOf(x), kind, coll, ids[..i], adds, removes, clock) == Success(Batch(At(tx.root, p), left, done))
    {
      ghost var r1, s := tx.root, Batch(At(tx.root, p), left, done);
      var written;
      err, left, written := RelabelRecord(x, tx, p, kind, ids[i], left, removes, clock(i), done);
      RelabelStep(FormatOf(x), kind, coll, ids, adds, removes, clock, i, s, RelabelOne(FormatOf(x), kind, s, ids[i], removes, clock(i)));
      ConfinedTrans(r0, r1, tx.root, p);
      if err.Some? {
        return;
      }
      done := done + [written];
    }
    assert ids[..|ids|] == ids;
  }

  lemma RelabelStep(f: Format, kind: Kind, coll: Bucket, ids: seq<string>, adds: set<string>, removes: set<string>,
                    clock: nat -> Time, i: nat, s: Batch, r: Result<Batch, Error>)
    requires i < |ids| && RelabelAll(f, kind, coll, ids[..i], adds, removes, clock) == Success(s)
    requires r == RelabelOne(f, kind, s, ids[i], removes, clock(i))
    ensures RelabelAll(f, kind, coll, ids[..i + 1], adds, removes, clock) == r
    ensures r.Failure? ==> RelabelAll(f, kind, coll, ids, adds, removes, clock) == r
  {
    PrefixGrows(ids, i);
    if r.Failure? {
      RelabelAllFails(f, kind, coll, ids, adds, removes, clock, i + 1);
    }
  }

  method BatchUpdateLabels(x: Texts, tx: Tx, p: Path, kind: Kind, ids: seq<string>, adds: seq<string>,
                           removes: seq<string>, clock: nat -> Time) returns (err: Option<Error>, done: seq<Record>)
    requires Exists(tx.root, p)
    modifies tx
    ensures BatchRan(old(tx.root), tx.root, p,
                     RelabelAll(FormatOf(x), kind, At(old(tx.root), p), ids, Members(adds), Members(removes), clock), err, done)
  {
    if |ids| == 0 {
      ConfinedRefl(tx.root, p);
      return None, [];
    }
    var addSet := ToSet(adds);
    var removeSet := ToSet(removes);
    err, done := RelabelEach(x, tx, p, kind, ids, addSet, removeSet, clock);
  }

  method ToSet(labels: seq<string>) returns (s: set<string>)
    ensures s == Members(labels)
  {
    s := {};
    for i := 0 to |labels|
      invariant s == Members(labels[..i])
    {
      assert labels[..i + 1] == labels[..i] + [labels[i]];
      s := s + {labels[i]};
    }
    assert labels[..|labels|] == labels;
  }

  lemma RelabelAllFails(f: Format, kind: Kind, coll: Bucket, ids: seq<string>, adds: set<string>, removes: set<string>,
                        clock: nat -> Time, i: nat)
    requires i <= |ids| && RelabelAll(f, kind, coll, ids[..i], adds, removes, clock).Failure?
    ensures RelabelAll(f, kind, coll, ids, adds, removes, clock) == RelabelAll(f, kind, coll, ids[..i], adds, removes, clock)
    decreases |ids| - i
  {
    if i == |ids| {
      assert ids[..i] == ids;
    } else {
      PrefixGrows(ids, i);
      RelabelAllFails(f, kind, coll, ids, adds, removes, clock, i + 1);
    }
  }

  // ----- reading a collection -----

  method ReadEach(x: Texts, tx: Tx, p: Path, kind: Kind) returns (r: Result<seq<Record>, Error>)
    requires Exists(tx.root, p) && Listing(At(tx.root, p))
    ensures r == ReadAll(FormatOf(x), kind, At(tx.root, p), SortedSet(KeyTexts(At(tx.root, p))))
  {
    ghost var coll := At(tx.root, p);
    var keys := tx.KeysInOrder(p);
    KeysAreSorted(coll, keys);
    var done := [];
    for i := 0 to |keys|
      invariant ReadAll(FormatOf(x), kind, coll, keys[..i]) == Success(done)
    {
      assert keys[i] in keys && Free(keys[i]) in coll;
      SubExists(tx.root, p, Free(keys[i]));
      var rec := ReadRecord(x, tx, p + [Free(keys[i])], kind, keys[i]);
      ReadStep(FormatOf(x), kind, coll, keys, i, done, rec);
      if rec.Failure? {
        return Failure(rec.error);
      }
      done := done + [rec.value];
    }
    assert keys[..|keys|] == keys;
    return Success(done);
  }

  lemma KeysAreSorted(coll: Bucket, keys: seq<string>)
    requires StrictlySorted(keys) && forall t :: t in keys <==> Free(t) in coll
    ensures keys == SortedSet(KeyTexts(coll))
  {
    forall t ensures t in keys <==> t in KeyTexts(coll) {
      assert Free(t) in coll ==> Free(t).text in KeyTexts(coll);
    }
    StrictlySortedUnique(keys, SortedSet(KeyTexts(coll)));
  }

  lemma ReadStep(f: Format, kind: Kind, coll: Bucket, ids: seq<string>, i: nat, done: seq<Record>, rec: Result<Record, Error>)
    requires i < |ids| && ReadAll(f, kind, coll, ids[..i]) == Success(done)
    requires HasSub(coll, Free(ids[i])) && rec == f.dec(kind, ids[i], coll[Free(ids[i])].entries)
    ensures rec.Success? ==> ReadAll(f, kind, coll, ids[..i + 1]) == Success(done + [rec.value])
    ensures rec.Failure? ==> ReadAll(f, kind, coll, ids) == Failure(rec.error)
  {
    PrefixGrows(ids, i);
    if rec.Failure? {
      ReadAllFails(f, kind, coll, ids, i + 1);
    }
  }

  lemma ReadAllFails(f: Format, kind: Kind, coll: Bucket, ids: seq<string>, i: nat)
    requires i <= |ids| && ReadAll(f, kind, coll, ids[..i]).Failure?
    ensures ReadAll(f, kind, coll, ids) == ReadAll(f, kind, coll, ids[..i])
    decreases |ids| - i
  {
    if i == |ids| {
      assert ids[..i] == ids;
    } else {
      PrefixGrows(ids, i);
      ReadAllFails(f, kind, coll, ids, i + 1);
    }
  }
}
