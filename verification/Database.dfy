/** metadata/db.go and the store's methods: each call runs in a transaction of its own, or
    in the one its context carries. */
module Database {
  import opened GoStrings
  import opened Results
  import opened Records
  import opened Buckets
  import opened MetadataHelpers
  import opened ExperimentCodec
  import opened StoreRecords
  import opened StoreTree
  import opened StoreSteps
  import opened StoreCode
  import opened StoreRefinement
  import opened StoreFormat
  import opened StoreRuns

  /** A call ran inside a transaction as specified; after an error the tree may be anything. */
  ghost predicate Stepped(r1: Bucket, spec: TreeStep, r: Result<Reply, Error>) {
    match spec
    case Success(done) => r1 == done.0 && r == Success(done.1)
    case Failure(e) => r == Failure(e)
  }

  /** Opening a collection and then writing in it. */
  lemma OnCollRan(r0: Bucket, r1: Bucket, r2: Bucket, kind: Kind, change: Bucket -> Result<Bucket, Error>, err: Option<Error>)
    requires Ensure(r0, PathOf(kind)) == Success(r1) && Exists(r1, PathOf(kind))
    requires Ran(r1, r2, PathOf(kind), change(At(r1, PathOf(kind))), err)
    ensures match OnColl(r0, kind, change) case Success(t) => err == None && r2 == t case Failure(e) => err == Some(e)
  {
    CollIsAt(r1, kind);
    if change(At(r1, PathOf(kind))).Success? {
      CollSetAt(r1, kind, change(At(r1, PathOf(kind))).value);
    }
  }

  method CreateRecords(x: Texts, tx: Tx, kind: Kind, recs: seq<Record>, clock: nat -> Time) returns (r: Result<Reply, Error>)
    modifies tx
    ensures Stepped(tx.root, TreeCreate(FormatOf(x), old(tx.root), kind, recs, clock), r)
  {
    if !Admissible(kind, recs) {
      return Failure(InvalidArgument);
    }
    ghost var r0 := tx.root;
    var err := CreatePath(tx, PathOf(kind));
    if err.Some? {
      return Failure(err.value);
    }
    ghost var r1 := tx.root;
    var done;
    err, done := CreateAll(x, tx, PathOf(kind), recs, clock);
    OnCollRan(r0, r1, tx.root, kind, Adding(FormatOf(x), recs, clock), err);
    if err.Some? {
      return Failure(err.value);
    }
    return Success(These(done));
  }

  method UpdateRecord(x: Texts, tx: Tx, kind: Kind, rec: Record, now: Time) returns (r: Result<Reply, Error>)
    modifies tx
    ensures Stepped(tx.root, TreeUpdate(FormatOf(x), old(tx.root), kind, rec, now), r)
  {
    if Id(rec) == "" {
      return Failure(InvalidArgument);
    }
    ghost var r0 := tx.root;
    var err := CreatePath(tx, PathOf(kind));
    if err.Some? {
      return Failure(err.value);
    }
    ghost var r1 := tx.root;
    var written;
    err, written := RewriteOne(x, tx, PathOf(kind), Updated(rec, now));
    OnCollRan(r0, r1, tx.root, kind, Rewriting(FormatOf(x), Updated(rec, now)), err);
    if err.Some? {
      return Failure(err.value);
    }
    return Success(These([written]));
  }

  method LabelRecords(x: Texts, tx: Tx, kind: Kind, ids: seq<string>, adds: seq<string>, removes: seq<string>,
                      clock: nat -> Time) returns (r: Result<Reply, Error>)
    modifies tx
    ensures Stepped(tx.root, TreeLabel(FormatOf(x), old(tx.root), kind, ids, Members(adds), Members(removes), clock), r)
  {
    var err := CreatePath(tx, PathOf(kind));
    if err.Some? {
      return Failure(err.value);
    }
    ghost var r1 := tx.root;
    CollIsAt(r1, kind);
    var done;
    err, done := BatchUpdateLabels(x, tx, PathOf(kind), kind, ids, adds, removes, clock);
    if err.Some? {
      return Failure(err.value);
    }
    CollSetAt(r1, kind, At(tx.root, PathOf(kind)));
    return Success(These(done));
  }

  method DeleteRecords(tx: Tx, kind: Kind, ids: seq<string>) returns (r: Result<Reply, Error>)
    modifies tx
    ensures Stepped(tx.root, TreeDelete(old(tx.root), kind, ids), r)
  {
    ghost var r0 := tx.root;
    CollIsAt(r0, kind);
    var found := GetBucket(tx, PathOf(kind));
    if !found {
      return Success(Nothing);
    }
    var err := RemoveEach(tx, PathOf(kind), ids);
    if err.Some? {
      return Failure(err.value);
    }
    CollSetAt(r0, kind, At(tx.root, PathOf(kind)));
    return Success(Nothing);
  }

  /** The bucket of a record, if there is one. */
  method FindRecord(tx: Tx, slot: Slot) returns (found: bool)
    ensures found <==> Lookup(tx.root, slot).Some?
    ensures found ==> Exists(tx.root, PathOf(slot.kind) + [Free(slot.id)])
    ensures found ==> At(tx.root, PathOf(slot.kind) + [Free(slot.id)]) == Lookup(tx.root, slot).value
  {
    CollIsAt(tx.root, slot.kind);
    PointDown(tx.root, PathOf(slot.kind), Coll(tx.root, slot.kind), Free(slot.id));
    found := GetBucket(tx, PathOf(slot.kind) + [Free(slot.id)]);
  }

  method GetRecord(x: Texts, tx: Tx, slot: Slot) returns (r: Result<Reply, Error>)
    ensures Stepped(tx.root, TreeGet(FormatOf(x), tx.root, slot), r)
  {
    var found := FindRecord(tx, slot);
    if !found {
      return Failure(NotFound);
    }
    var rec := ReadRecord(x, tx, PathOf(slot.kind) + [Free(slot.id)], slot.kind, slot.id);
    match rec
    case Success(v) => return Success(These([v]));
    case Failure(e) => return Failure(e);
  }

  method ListRecords(x: Texts, tx: Tx, kind: Kind) returns (r: Result<Reply, Error>)
    requires Shaped(tx.root)
    ensures Stepped(tx.root, TreeList(FormatOf(x), tx.root, kind), r)
  {
    CollIsAt(tx.root, kind);
    var found := GetBucket(tx, PathOf(kind));
    if !found {
      return Success(These([]));
    }
    var recs := ReadEach(x, tx, PathOf(kind), kind);
    match recs
    case Success(v) => return Success(These(v));
    case Failure(e) => return Failure(e);
  }

  method CreateReport(x: Texts, tx: Tx, id: string, report: Report) returns (r: Result<Reply, Error>)
    modifies tx
    ensures Stepped(tx.root, TreeCreateReport(FormatOf(x), old(tx.root), id, report), r)
  {
    var p := PathOf(Benchmarks);
    ghost var r0 := tx.root;
    var err := CreatePath(tx, p);
    if err.Some? {
      return Failure(err.value);
    }
    ghost var r1 := tx.root;
    ConfinedRefl(r1, p);
    if !tx.Has(p, Free(id)) {
      OnCollRan(r0, r1, r1, Benchmarks, Reporting(FormatOf(x), id, report), Some(NotFound));
      return Failure(NotFound);
    }
    SubExists(tx.root, p, Free(id));
    err := WriteReport(x.json, tx, p + [Free(id)], report);
    RanSub(r1, tx.root, p, Free(id), EncReport(x.json, At(r1, p + [Free(id)]), report), err);
    OnCollRan(r0, r1, tx.root, Benchmarks, Reporting(FormatOf(x), id, report), err);
    if err.Some? {
      return Failure(err.value);
    }
    return Success(Nothing);
  }

  method GetReport(x: Texts, tx: Tx, id: string) returns (r: Result<Reply, Error>)
    ensures Stepped(tx.root, TreeGetReport(FormatOf(x), tx.root, id), r)
  {
    var found := FindRecord(tx, Slot(Benchmarks, id));
    if !found {
      return Failure(NotFound);
    }
    var report := ReadReport(x.json, tx, PathOf(Benchmarks) + [Free(id)]);
    match report
    case Success(v) => return Success(ThisReport(v));
    case Failure(e) => return Failure(e);
  }

  method Perform(x: Texts, tx: Tx, call: Call) returns (r: Result<Reply, Error>)
    requires Shaped(tx.root)
    modifies tx
    ensures Stepped(tx.root, Step(FormatOf(x), old(tx.root), call), r)
  {
    match call
    case Create(kind, recs, clock) => r := CreateRecords(x, tx, kind, recs, clock);
    case Update(kind, rec, now) => r := UpdateRecord(x, tx, kind, rec, now);
    case Label(kind, ids, adds, removes, clock) => r := LabelRecords(x, tx, kind, ids, adds, removes, clock);
    case Delete(kind, ids) => r := DeleteRecords(tx, kind, ids);
    case Get(kind, id) => r := GetRecord(x, tx, Slot(kind, id));
    case List(kind) => r := ListRecords(x, tx, kind);
    case CreateReport(id, report) => r := CreateReport(x, tx, id, report);
    case GetReport(id) => r := GetReport(x, tx, id);
  }

  lemma StepIsPlain(x: Texts, root: Bucket, p: Plain, call: Call)
    requires x.Lossless() && Represents(FormatOf(x), root, p) && Proper(call)
    ensures StepMatches(FormatOf(x), Step(FormatOf(x), root, call), PlainStep(FormatOf(x).rules, p, call))
  {
    FormatIsFaithful(x);
    StepRefines(FormatOf(x), root, p, call);
  }

  /** Every sequence of calls on an empty store, in this format: each reply is the plain
      store's, and the tree represents the plain store. */
  lemma EveryRun(x: Texts, calls: seq<Call>)
    requires x.Lossless() && AllProper(calls)
    ensures var s, p := StoreOf(FormatOf(x)), RunPlain(FormatOf(x).rules, NO_RECORDS, calls);
      var t := RunTree(s, map[], calls);
      && Represents(FormatOf(x), t.0, p.0) && |t.1| == |p.1| == |calls|
      && forall i :: 0 <= i < |calls| ==> SameReply(t.1[i], p.1[i])
  {
    FormatIsFaithful(x);
    RunRefines(FormatOf(x), calls);
  }

  // ----- transactions -----

  predicate Writes(call: Call) {
    !(call.Get? || call.List? || call.GetReport?)
  }

  /** Checked before the transaction is looked at. */
  predicate IllFormed(call: Call) {
    match call
    case Create(kind, recs, _) => !Admissible(kind, recs)
    case Update(_, rec, _) => Id(rec) == ""
    case _ => false
  }

  /** Calls that share a transaction, up to the first that fails. */
  ghost function PlainAll(u: Rules, p: Plain, calls: seq<Call>): Result<Plain, Refusal> {
    if calls == [] then Success(p)
    else
      var q :- PlainAll(u, p, calls[..|calls| - 1]);
      var done :- PlainStep(u, q, calls[|calls| - 1]);
      Success(done.0)
  }

  lemma PlainAllFails(u: Rules, p: Plain, calls: seq<Call>, i: nat)
    requires i <= |calls| && PlainAll(u, p, calls[..i]).Failure?
    ensures PlainAll(u, p, calls) == PlainAll(u, p, calls[..i])
    decreases |calls| - i
  {
    if i == |calls| {
      assert calls[..i] == calls;
    } else {
      PrefixGrows(calls, i);
      PlainAllFails(u, p, calls, i + 1);
    }
  }

  /** The database: the last committed tree, and the plain store it stands for. */
  class DB {
    const x: Texts
    var committed: Bucket
    ghost var plain: Plain

    ghost predicate Valid()
      reads this
    {
      x.Lossless() && Represents(FormatOf(x), committed, plain)
    }

    constructor (x: Texts)
      requires x.Lossless()
      ensures Valid() && plain == NO_RECORDS && this.x == x
    {
      this.x := x;
      committed, plain := map[], NO_RECORDS;
      new;
      EmptyTreeRepresents(FormatOf(x));
    }

    /** A call without a transaction in its context: it commits or rolls back. */
    method Execute(call: Call) returns (r: Result<Reply, Error>)
      requires Valid() && Proper(call)
      modifies this
      ensures Valid() && plain == PlainExec(FormatOf(x).rules, old(plain), call).0 && SameReply(r, PlainExec(FormatOf(x).rules, old(plain), call).1)
      ensures r.Failure? ==> committed == old(committed)
    {
      StepIsPlain(x, committed, plain, call);
      var tx := Begin();
      r := Perform(x, tx, call);
      ghost var q := PlainExec(FormatOf(x).rules, plain, call).0;
      if r.Success? {
        Commit(tx, q);
      }
    }

    method Begin() returns (tx: Tx)
      ensures fresh(tx) && tx.root == committed
    {
      tx := new Tx(committed);
    }

    /** Makes what a transaction did permanent. */
    method Commit(tx: Tx, ghost q: Plain)
      requires x.Lossless() && Represents(FormatOf(x), tx.root, q)
      modifies this
      ensures Valid() && plain == q
    {
      committed, plain := tx.root, q;
    }

    /** A call whose context carries a transaction. */
    method Join(tx: Tx, writable: bool, call: Call, ghost p: Plain) returns (r: Result<Reply, Error>, ghost q: Plain)
      requires x.Lossless() && Represents(FormatOf(x), tx.root, p) && Proper(call)
      modifies tx
      ensures r.Success? ==> Represents(FormatOf(x), tx.root, q)
      ensures writable || !Writes(call) ==> SameReply(r, PlainExec(FormatOf(x).rules, p, call).1) && q == PlainExec(FormatOf(x).rules, p, call).0
      ensures !writable && Writes(call) ==> r.Failure? && tx.root == old(tx.root)
    {
      q := PlainExec(FormatOf(x).rules, p, call).0;
      if !writable && Writes(call) {
        return Failure(if IllFormed(call) then InvalidArgument else NotWritable), q;
      }
      StepIsPlain(x, tx.root, p, call);
      r := Perform(x, tx, call);
    }

    /** Several calls joined through one transaction: all take effect or none does. */
    method Together(calls: seq<Call>) returns (err: Option<Error>)
      requires Valid() && forall call :: call in calls ==> Proper(call)
      modifies this
      ensures Valid()
      ensures err == None <==> PlainAll(FormatOf(x).rules, old(plain), calls).Success?
      ensures err == None ==> PlainAll(FormatOf(x).rules, old(plain), calls) == Success(plain)
      ensures err != None ==> plain == old(plain) && committed == old(committed)
    {
      var tx := Begin();
      ghost var p := plain;
      for i := 0 to |calls|
        invariant Valid() && plain == old(plain) && committed == old(committed)
        invariant Represents(FormatOf(x), tx.root, p) && PlainAll(FormatOf(x).rules, plain, calls[..i]) == Success(p)
      {
        PrefixGrows(calls, i);
        var r;
        r, p := Join(tx, true, calls[i], p);
        if r.Failure? {
          PlainAllFails(FormatOf(x).rules, plain, calls, i + 1);
          return Some(r.error);
        }
      }
      assert calls[..|calls|] == calls;
      Commit(tx, p);
      return None;
    }
  }
}
