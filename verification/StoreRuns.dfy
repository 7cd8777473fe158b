/** Runs of the store: whatever sequence of calls is made, the bucket tree answers as the
    plain store does, and what a call does not name stays as it was. */
module StoreRuns {
  import opened GoStrings
  import opened Results
  import opened Records
  import opened Buckets
  import opened MetadataHelpers
  import opened StoreRecords
  import opened RecordLaws
  import opened StoreTree
  import opened StoreSteps
  import opened StoreRefinement
  import opened CallRefinement

  /** The same reply, or refusals for the same reason. */
  ghost predicate SameReply(r: Result<Reply, Error>, s: Result<Reply, Refusal>) {
    match r
    case Success(reply) => s == Success(reply)
    case Failure(e) => s == Failure(Reason(e))
  }

  ghost predicate StepMatches(f: Format, r: Result<(Bucket, Reply), Error>, s: Result<(Plain, Reply), Refusal>) {
    match r
    case Success(done) => s.Success? && Represents(f, done.0, s.value.0) && done.1 == s.value.1
    case Failure(e) => s == Failure(Reason(e))
  }

  lemma OnCollRefines(f: Format, root: Bucket, kind: Kind, change: Bucket -> Result<Bucket, Error>,
                      r: Bucket, s: Result<Plain, Refusal>)
    requires Ensure(root, PathOf(kind)) == Success(r) && Coll(r, kind).Some?
    requires Matches(f, r, kind, change(Coll(r, kind).value), s)
    ensures Follows(f, OnColl(root, kind, change), s)
  {
  }

  lemma CreateRefines(f: Format, root: Bucket, p: Plain, kind: Kind, recs: seq<Record>, clock: nat -> Time)
    requires Faithful(f) && Represents(f, root, p) && Proper(Call.Create(kind, recs, clock))
    ensures StepMatches(f, TreeCreate(f, root, kind, recs, clock), PlainCreate(f.rules, p, kind, recs, clock))
  {
    OpenAndAddRefines(f, root, p, kind, recs, clock);
    CreateMatches(f, root, p, kind, recs, clock);
  }

  /** Opening a collection of the plain store and adding to it. */
  ghost function OpenAndAdd(u: Rules, p: Plain, kind: Kind, recs: seq<Record>, clock: nat -> Time): Result<Plain, Refusal> {
    match Open(p, kind) case Success(o) => PlainAdd(u, o, kind, recs, clock) case Failure(e) => Failure(e)
  }

  lemma OpenAndAddRefines(f: Format, root: Bucket, p: Plain, kind: Kind, recs: seq<Record>, clock: nat -> Time)
    requires Faithful(f) && Represents(f, root, p) && Proper(Call.Create(kind, recs, clock))
    ensures Follows(f, OnColl(root, kind, Adding(f, recs, clock)), OpenAndAdd(f.rules, p, kind, recs, clock))
  {
    var r := OpenRefines(f, root, p, kind);
    if r.Success? {
      AddingRefines(f, root, r.value, Open(p, kind).value, kind, recs, clock);
    }
  }

  lemma CreateMatches(f: Format, root: Bucket, p: Plain, kind: Kind, recs: seq<Record>, clock: nat -> Time)
    requires Follows(f, OnColl(root, kind, Adding(f, recs, clock)), OpenAndAdd(f.rules, p, kind, recs, clock))
    ensures StepMatches(f, TreeCreate(f, root, kind, recs, clock), PlainCreate(f.rules, p, kind, recs, clock))
  {
  }

  /** `t` is the outcome of a change on the tree, `s` that on the plain store. */
  ghost predicate Follows(f: Format, t: Result<Bucket, Error>, s: Result<Plain, Refusal>) {
    match t
    case Success(r) => s.Success? && Represents(f, r, s.value)
    case Failure(e) => s == Failure(Reason(e))
  }

  lemma AddingRefines(f: Format, root: Bucket, r: Bucket, o: Plain, kind: Kind, recs: seq<Record>, clock: nat -> Time)
    requires Ensure(root, PathOf(kind)) == Success(r) && Coll(r, kind).Some? && Represents(f, r, o)
    requires Faithful(f) && Proper(Call.Create(kind, recs, clock))
    ensures Follows(f, OnColl(root, kind, Adding(f, recs, clock)), PlainAdd(f.rules, o, kind, recs, clock))
  {
    AddAllRefines(f, r, o, kind, recs, clock);
    OnCollRefines(f, root, kind, Adding(f, recs, clock), r, PlainAdd(f.rules, o, kind, recs, clock));
  }

  lemma UpdateRefines(f: Format, root: Bucket, p: Plain, kind: Kind, rec: Record, now: Time)
    requires Faithful(f) && Represents(f, root, p) && Proper(Call.Update(kind, rec, now))
    ensures StepMatches(f, TreeUpdate(f, root, kind, rec, now),
                        PlainUpdate(f.rules, p, kind, rec, now))
  {
    if Id(rec) != "" {
      UpdatedSuits(kind, rec, now);
      var r := OpenRefines(f, root, p, kind);
      if r.Success? {
        var o, next := Open(p, kind).value, Updated(rec, now);
        RewriteRefines(f, r.value, o, kind, next);
        OnCollRefines(f, root, kind, Rewriting(f, next), r.value, PlainRewrite(f.rules, o, kind, next));
      }
    }
  }

  lemma LabelRefines(f: Format, root: Bucket, p: Plain, kind: Kind, ids: seq<string>, adds: set<string>,
                     removes: set<string>, clock: nat -> Time)
    requires Faithful(f) && Represents(f, root, p)
    ensures StepMatches(f, TreeLabel(f, root, kind, ids, adds, removes, clock),
                        PlainLabel(f.rules, p, kind, ids, adds, removes, clock))
  {
    var r := OpenRefines(f, root, p, kind);
    if r.Success? {
      RelabelAllRefines(f, r.value, Open(p, kind).value, kind, ids, adds, removes, clock);
    }
  }

  lemma DeleteRefines(f: Format, root: Bucket, p: Plain, kind: Kind, ids: seq<string>)
    requires Faithful(f) && Represents(f, root, p)
    ensures StepMatches(f, TreeDelete(root, kind, ids), PlainDelete(p, kind, ids))
  {
    if Coll(root, kind).Some? {
      RemoveAllRefines(f, root, p, kind, ids);
    }
  }

  lemma GetRefines(f: Format, root: Bucket, p: Plain, kind: Kind, id: string)
    requires Faithful(f) && Represents(f, root, p)
    ensures StepMatches(f, TreeGet(f, root, Slot(kind, id)), PlainGet(p, Slot(kind, id)))
  {
    var slot := Slot(kind, id);
    if slot in p.records {
      assert f.holds(slot, Lookup(root, slot).value, p.records[slot]);
      assert ReadsWell(f, slot, Lookup(root, slot).value, p.records[slot]);
    }
  }

  lemma ListRefines(f: Format, root: Bucket, p: Plain, kind: Kind)
    requires Faithful(f) && Represents(f, root, p)
    ensures StepMatches(f, TreeList(f, root, kind), PlainList(p, kind))
  {
    IdsAreSlots(p, kind);
    KeysAreIds(f, root, p, kind);
    var ids := SortedSet(IdsOf(p, kind));
    if Coll(root, kind).Some? {
      ReadAllRefines(f, root, p, kind, ids);
      ListMatches(f, root, p, ReadAll(f, kind, Coll(root, kind).value, ids), Pick(p, kind, ids));
    } else {
      assert ids == [];
    }
  }

  /** The records read, as a reply. */
  lemma ListMatches(f: Format, root: Bucket, p: Plain, r: Result<seq<Record>, Error>, s: Result<seq<Record>, Refusal>)
    requires Represents(f, root, p)
    requires match r case Success(recs) => s == Success(recs) case Failure(e) => s == Failure(Reason(e))
    ensures StepMatches(f, TheseRead(root, r), PlainTheseRead(p, s))
  {
  }

  lemma CreateReportRefines(f: Format, root: Bucket, p: Plain, id: string, report: Report)
    requires Faithful(f) && Represents(f, root, p)
    ensures StepMatches(f, TreeCreateReport(f, root, id, report), PlainCreateReport(p, id, report))
  {
    var r := OpenRefines(f, root, p, Benchmarks);
    if r.Success? {
      PutReportRefines(f, r.value, Open(p, Benchmarks).value, id, report);
    }
  }

  lemma GetReportRefines(f: Format, root: Bucket, p: Plain, id: string)
    requires Represents(f, root, p)
    ensures StepMatches(f, TreeGetReport(f, root, id), PlainGetReport(p, id))
  {
    assert ReportAt(root, id) == ReportIn(Lookup(root, Slot(Benchmarks, id)));
  }

  lemma StepRefines(f: Format, root: Bucket, p: Plain, call: Call)
    requires Faithful(f) && Represents(f, root, p) && Proper(call)
    ensures StepMatches(f, Step(f, root, call), PlainStep(f.rules, p, call))
  {
    match call
    case Create(kind, recs, clock) => CreateRefines(f, root, p, kind, recs, clock);
    case Update(kind, rec, now) => UpdateRefines(f, root, p, kind, rec, now);
    case Label(kind, ids, adds, removes, clock) => LabelRefines(f, root, p, kind, ids, Members(adds), Members(removes), clock);
    case Delete(kind, ids) => DeleteRefines(f, root, p, kind, ids);
    case Get(kind, id) => GetRefines(f, root, p, kind, id);
    case List(kind) => ListRefines(f, root, p, kind);
    case CreateReport(id, report) => CreateReportRefines(f, root, p, id, report);
    case GetReport(id) => GetReportRefines(f, root, p, id);
  }

  // ----- a store, seen from outside -----

  /** How calls are performed on a tree, which plain store a tree stands for, and the rules
      of that plain store. */
  datatype Store = Store(exec: (Bucket, Call) -> (Bucket, Result<Reply, Error>), stands: (Bucket, Plain) -> bool, rules: Rules)

  /** Records are in collections that have been opened, under their own non-empty ids, and
      could be written where there is nothing and stay as they are when written again; what no
      longer reads is a benchmark.  Nodes have their cluster and reports their benchmark. */
  ghost predicate Orderly(u: Rules, p: Plain) {
    && (forall slot :: slot in p.records ==> OrderlyAt(u, p, slot))
    && (forall id :: id in p.reports ==> Slot(Benchmarks, id) in p.records)
  }

  ghost predicate OrderlyAt(u: Rules, p: Plain, slot: Slot)
    requires slot in p.records
  {
    && slot.id != "" && slot.kind in p.live && (slot.kind.Nodes? ==> Slot(Clusters, slot.kind.cluster) in p.records)
    && match p.records[slot]
       case Some(rec) => Suits(slot.kind, rec) && Id(rec) == slot.id && u.writable(None, rec) && Settled(rec)
       case None => slot.kind.Benchmarks?
  }

  ghost predicate StepsAlike(s: Store, root: Bucket, p: Plain, call: Call) {
    s.stands(root, p) && Proper(call) ==>
      var t, q := s.exec(root, call), PlainExec(s.rules, p, call);
      s.stands(t.0, q.0) && SameReply(t.1, q.1)
  }

  /** Every call does to the tree what it does to the plain store. */
  ghost predicate Refines(s: Store) {
    && s.stands(map[], NO_RECORDS)
    && (forall root, p, call :: StepsAlike(s, root, p, call))
    && (forall root, p :: s.stands(root, p) ==> Orderly(s.rules, p))
  }

  /** The store that keeps its records in this format. */
  ghost function StoreOf(f: Format): Store {
    Store((root, call) => Exec(f, root, call), (root, p) => Represents(f, root, p), f.rules)
  }

  lemma EmptyTreeRepresents(f: Format)
    ensures Represents(f, map[], NO_RECORDS)
  {
  }

  lemma RepresentsOrderly(f: Format, root: Bucket, p: Plain)
    requires Faithful(f) && Represents(f, root, p)
    ensures Orderly(f.rules, p)
  {
    forall slot | slot in p.records ensures OrderlyAt(f.rules, p, slot) {
      var b := Lookup(root, slot).value;
      assert f.holds(slot, b, p.records[slot]);
      assert ReadsWell(f, slot, b, p.records[slot]);
      assert Listing(Coll(root, slot.kind).value);
      if slot.kind.Nodes? {
        assert Lookup(root, Slot(Clusters, slot.kind.cluster)).Some?;
      }
    }
    forall id | id in p.reports ensures Slot(Benchmarks, id) in p.records {
      assert ReportAt(root, id).Some?;
    }
  }

  lemma ExecRefines(f: Format, root: Bucket, p: Plain, call: Call)
    requires Faithful(f) && Represents(f, root, p) && Proper(call)
    ensures Represents(f, Exec(f, root, call).0, PlainExec(f.rules, p, call).0)
    ensures SameReply(Exec(f, root, call).1, PlainExec(f.rules, p, call).1)
  {
    StepRefines(f, root, p, call);
  }

  /** A store with a faithful format refines the plain store. */
  lemma StoreRefines(f: Format)
    requires Faithful(f)
    ensures Refines(StoreOf(f))
  {
    EmptyTreeRepresents(f);
    forall root, p, call ensures StepsAlike(StoreOf(f), root, p, call) {
      if Represents(f, root, p) && Proper(call) {
        ExecRefines(f, root, p, call);
      }
    }
    forall root, p | Represents(f, root, p) ensures Orderly(f.rules, p) {
      RepresentsOrderly(f, root, p);
    }
  }

  // ----- runs -----

  ghost function RunTree(s: Store, root: Bucket, calls: seq<Call>): (Bucket, seq<Result<Reply, Error>>) {
    if calls == [] then (root, [])
    else
      var before := RunTree(s, root, calls[..|calls| - 1]);
      var done := s.exec(before.0, calls[|calls| - 1]);
      (done.0, before.1 + [done.1])
  }

  ghost function RunPlain(u: Rules, p: Plain, calls: seq<Call>): (Plain, seq<Result<Reply, Refusal>>) {
    if calls == [] then (p, [])
    else
      var before := RunPlain(u, p, calls[..|calls| - 1]);
      var done := PlainExec(u, before.0, calls[|calls| - 1]);
      (done.0, before.1 + [done.1])
  }

  ghost predicate AllProper(calls: seq<Call>) {
    forall call :: call in calls ==> Proper(call)
  }

  lemma {:induction false} RunsAlike(s: Store, calls: seq<Call>)
    requires Refines(s) && AllProper(calls)
    ensures s.stands(RunTree(s, map[], calls).0, RunPlain(s.rules, NO_RECORDS, calls).0)
    ensures |RunTree(s, map[], calls).1| == |RunPlain(s.rules, NO_RECORDS, calls).1| == |calls|
    ensures forall i :: 0 <= i < |calls| ==> SameReply(RunTree(s, map[], calls).1[i], RunPlain(s.rules, NO_RECORDS, calls).1[i])
  {
    if calls != [] {
      var before, call := calls[..|calls| - 1], calls[|calls| - 1];
      RunsAlike(s, before);
      assert StepsAlike(s, RunTree(s, map[], before).0, RunPlain(s.rules, NO_RECORDS, before).0, call);
    }
  }

  /** Every sequence of calls on an empty store: each reply is the plain store's, and the
      tree still represents the plain store. */
  lemma RunRefines(f: Format, calls: seq<Call>)
    requires Faithful(f) && AllProper(calls)
    ensures Represents(f, RunTree(StoreOf(f), map[], calls).0, RunPlain(f.rules, NO_RECORDS, calls).0)
    ensures |RunTree(StoreOf(f), map[], calls).1| == |RunPlain(f.rules, NO_RECORDS, calls).1| == |calls|
    ensures forall i :: 0 <= i < |calls| ==>
      SameReply(RunTree(StoreOf(f), map[], calls).1[i], RunPlain(f.rules, NO_RECORDS, calls).1[i])
  {
    StoreRefines(f);
    RunsAlike(StoreOf(f), calls);
  }
}
