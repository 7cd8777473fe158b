/** Every call on the bucket tree does what the same call does to the plain store. */
module CallRefinement {
  import opened GoStrings
  import opened Results
  import opened Records
  import opened Buckets
  import opened MetadataHelpers
  import opened FitBuckets
  import opened StoreRecords
  import opened StoreTree
  import opened StoreSteps
  import opened StoreRefinement

  /** A change of one collection's bucket and a change of the plain store: both happen, or
      both are refused for the same reason. */
  ghost predicate Matches(f: Format, root: Bucket, kind: Kind, r: Result<Bucket, Error>, s: Result<Plain, Refusal>)
    requires Coll(root, kind).Some?
  {
    match r
    case Success(c) => s.Success? && Represents(f, SetColl(root, kind, c), s.value)
    case Failure(e) => s == Failure(Reason(e))
  }

  lemma OpenRefines(f: Format, root: Bucket, p: Plain, kind: Kind) returns (r: Result<Bucket, Error>)
    requires Faithful(f) && Represents(f, root, p)
    ensures r == Ensure(root, PathOf(kind))
    ensures r.Success? ==> Coll(r.value, kind).Some?
    ensures r.Success? ==> Open(p, kind).Success? && Represents(f, r.value, Open(p, kind).value)
    ensures r.Failure? ==> Open(p, kind) == Failure(Reason(r.error))
  {
    if kind.Nodes? {
      OpenNodesRefines(f, root, p, kind.cluster);
      r := Ensure(root, PathOf(kind));
    } else {
      var t := OpenTopRefines(f, root, p, kind);
      r := Success(t);
    }
  }

  lemma SetCollTwice(root: Bucket, kind: Kind, c: Bucket, d: Bucket)
    requires Coll(root, kind).Some?
    ensures Coll(SetColl(root, kind, c), kind) == Some(c)
    ensures SetColl(SetColl(root, kind, c), kind, d) == SetColl(root, kind, d)
  {
    var r1 := SetColl(root, kind, c);
    SetCollSelf(root, kind, c);
    CollSetAt(root, kind, c);
    CollSetAt(root, kind, d);
    CollSetAt(r1, kind, d);
    SetThenSet(root, PathOf(kind), c, d);
  }

  // ----- writing one record -----

  /** What a record's bucket holds before it is written: nothing, for a new record. */
  function Before(root: Bucket, slot: Slot): Bucket {
    match Lookup(root, slot) case Some(b) => b case None => map[]
  }

  lemma BeforeFits(f: Format, root: Bucket, p: Plain, slot: Slot)
    requires Represents(f, root, p)
    ensures Fit(Before(root, slot))
  {
  }

  /** What the tree and the plain store know of one entry of a collection. */
  lemma EntryFacts(f: Format, root: Bucket, p: Plain, kind: Kind, coll: Bucket, id: string)
    requires Represents(f, root, p) && Coll(root, kind) == Some(coll)
    ensures Listing(coll) && Lookup(root, Slot(kind, id)) == SubOf(coll, Free(id))
    ensures Slot(kind, id) in p.records <==> Free(id) in coll
    ensures kind in p.live
    ensures kind.Clusters? ==> Coll(root, Nodes(id)) == Child(SubOf(coll, Free(id)), NodesKey)
    ensures kind.Clusters? ==> (Nodes(id) in p.live <==> Child(SubOf(coll, Free(id)), NodesKey).Some?)
    ensures kind.Clusters? && Nodes(id) !in p.live ==> forall s :: s in p.records ==> s.kind != Nodes(id)
    ensures kind.Benchmarks? ==> (id in p.reports <==> ReportIn(SubOf(coll, Free(id))).Some?)
    ensures kind.Benchmarks? && id in p.reports ==> f.json.reportOf(ReportIn(SubOf(coll, Free(id))).value) == Some(p.reports[id])
  {
    assert Lookup(root, Slot(kind, id)) == SubOf(coll, Free(id));
    if kind.Clusters? && Nodes(id) !in p.live {
      forall s | s in p.records ensures s.kind != Nodes(id) {
        assert Lookup(root, s).Some?;
      }
    }
    if kind.Benchmarks? {
      assert ReportAt(root, id) == ReportIn(SubOf(coll, Free(id)));
    }
  }

  lemma WriteIsEntryChange(root: Bucket, kind: Kind, coll: Bucket, id: string, e: Bucket)
    requires Coll(root, kind) == Some(coll) && Listing(coll) && id != "" && Fit(e)
    requires kind.Clusters? ==> SubOf(e, NodesKey) == Coll(root, Nodes(id)) || (SubOf(e, NodesKey) == None)
    ensures EntryChange(root, kind, coll[Free(id) := Sub(e)], id)
  {
  }

  lemma WriteRefines(f: Format, root: Bucket, p: Plain, kind: Kind, id: string, e: Bucket, rec: Option<Record>)
    requires Faithful(f) && Represents(f, root, p) && Coll(root, kind).Some? && id != ""
    requires Written(f, Slot(kind, id), Before(root, Slot(kind, id)), e, rec)
    ensures Represents(f, SetColl(root, kind, Coll(root, kind).value[Free(id) := Sub(e)]),
                       p.(records := p.records[Slot(kind, id) := rec]))
  {
    var coll, slot := Coll(root, kind).value, Slot(kind, id);
    var c := coll[Free(id) := Sub(e)];
    var q := p.(records := p.records[slot := rec]);
    EntryFacts(f, root, p, kind, coll, id);
    WriteIsEntryChange(root, kind, coll, id, e);
    WriteChanges(f, p, kind, id, Before(root, slot), SubOf(coll, Free(id)), e, rec);
    ChangeRefines(f, root, p, q, kind, c, id);
  }

  lemma WriteChanges(f: Format, p: Plain, kind: Kind, id: string, b: Bucket, before: Option<Bucket>, e: Bucket, rec: Option<Record>)
    requires Written(f, Slot(kind, id), b, e, rec) && b == (match before case Some(c) => c case None => map[])
    requires kind.Clusters? ==> (Nodes(id) in p.live <==> Child(before, NodesKey).Some?)
    requires kind.Clusters? && Nodes(id) !in p.live ==> forall s :: s in p.records ==> s.kind != Nodes(id)
    requires kind.Benchmarks? ==> (id in p.reports <==> ReportIn(before).Some?)
    requires kind.Benchmarks? && id in p.reports ==> f.json.reportOf(ReportIn(before).value) == Some(p.reports[id])
    ensures Changed(f, p, p.(records := p.records[Slot(kind, id) := rec]), kind, id, Some(e))
  {
  }

  // ----- creating records -----

  lemma AddOneRefines(f: Format, root: Bucket, p: Plain, kind: Kind, rec: Record)
    requires Faithful(f) && Represents(f, root, p) && Coll(root, kind).Some?
    requires Suits(kind, rec)
    ensures Matches(f, root, kind, AddOne(f, Coll(root, kind).value, rec), PlainAddOne(f.rules, p, kind, rec))
  {
    assert WritesWell(f, Slot(kind, Id(rec)), map[], None, rec);
    AddedRefines(f, root, p, kind, Id(rec), f.enc(map[], rec), f.rules.writable(None, rec), f.rules.normal(None, rec));
  }

  lemma AddedRefines(f: Format, root: Bucket, p: Plain, kind: Kind, id: string,
                     contents: Result<Bucket, Error>, writable: bool, rec: Option<Record>)
    requires Faithful(f) && Represents(f, root, p) && Coll(root, kind).Some? && Settles(contents, writable)
    requires writable ==> Written(f, Slot(kind, id), map[], contents.value, rec)
    ensures Matches(f, root, kind, Added(Coll(root, kind).value, Free(id), contents),
                    PlainAdded(p, Slot(kind, id), writable, rec))
  {
    var coll := Coll(root, kind).value;
    EntryFacts(f, root, p, kind, coll, id);
    AddCases(coll, id, contents);
    if id != "" && Free(id) !in coll && writable {
      WriteRefines(f, root, p, kind, id, contents.value, rec);
    }
  }

  lemma AddCases(coll: Bucket, id: string, enc: Result<Bucket, Error>)
    requires Listing(coll) && Settles(enc, enc.Success?)
    ensures var r := Added(coll, Free(id), enc);
      if id == "" then r.Failure? && Reason(r.error) == Unwritable
      else if Free(id) in coll then r.Failure? && Reason(r.error) == Duplicate
      else if enc.Failure? then r.Failure? && Reason(r.error) == Unwritable
      else r == Success(coll[Free(id) := Sub(enc.value)])
  {
    var k := Free(id);
    if id != "" && k !in coll && enc.Success? {
      assert coll[k := Sub(map[])][k := Sub(enc.value)] == coll[k := Sub(enc.value)];
    }
  }

  lemma CreatedSuits(kind: Kind, rec: Record, now: Time)
    requires Suits(kind, rec)
    ensures Suits(kind, Created(rec, now))
  {
  }

  lemma {:induction false} AddAllRefines(f: Format, root: Bucket, p: Plain, kind: Kind, recs: seq<Record>, clock: nat -> Time)
    requires Faithful(f) && Represents(f, root, p) && Coll(root, kind).Some?
    requires forall rec :: rec in recs ==> Suits(kind, rec)
    ensures Matches(f, root, kind, AddAll(f, Coll(root, kind).value, recs, clock), PlainAdd(f.rules, p, kind, recs, clock))
  {
    var coll := Coll(root, kind).value;
    if recs == [] {
      SetCollToItself(root, kind);
    } else {
      var n := |recs| - 1;
      AddAllRefines(f, root, p, kind, recs[..n], clock);
      var c := AddAll(f, coll, recs[..n], clock);
      if c.Success? {
        var r1 := SetColl(root, kind, c.value);
        var q := PlainAdd(f.rules, p, kind, recs[..n], clock).value;
        var rec := Created(recs[n], clock(n));
        CreatedSuits(kind, recs[n], clock(n));
        SetCollSelf(root, kind, c.value);
        AddOneRefines(f, r1, q, kind, rec);
        MatchesAfter(f, root, kind, c.value, AddOne(f, c.value, rec), PlainAddOne(f.rules, q, kind, rec));
      }
    }
  }

  lemma SetCollToItself(root: Bucket, kind: Kind)
    requires Coll(root, kind).Some?
    ensures SetColl(root, kind, Coll(root, kind).value) == root
  {
    CollIsAt(root, kind);
    CollSetAt(root, kind, Coll(root, kind).value);
    SetSame(root, PathOf(kind));
  }

  /** A second change of the same bucket, seen from where the first began. */
  lemma MatchesAfter(f: Format, root: Bucket, kind: Kind, c: Bucket, r: Result<Bucket, Error>, s: Result<Plain, Refusal>)
    requires Coll(root, kind).Some? && Coll(SetColl(root, kind, c), kind).Some?
    requires Matches(f, SetColl(root, kind, c), kind, r, s)
    ensures Matches(f, root, kind, r, s)
  {
    if r.Success? {
      SetCollTwice(root, kind, c, r.value);
    }
  }

  // ----- updating a record -----

  lemma UpdatedSuits(kind: Kind, rec: Record, now: Time)
    requires Suits(kind, rec)
    ensures Suits(kind, Updated(rec, now)) && Id(Updated(rec, now)) == Id(rec)
  {
  }

  lemma RewriteRefines(f: Format, root: Bucket, p: Plain, kind: Kind, rec: Record)
    requires Faithful(f) && Represents(f, root, p) && Coll(root, kind).Some?
    requires Suits(kind, rec) && Id(rec) != ""
    ensures Matches(f, root, kind, Rewrite(f, Coll(root, kind).value, rec), PlainRewrite(f.rules, p, kind, rec))
  {
    var coll, slot := Coll(root, kind).value, Slot(kind, Id(rec));
    EntryFacts(f, root, p, kind, coll, Id(rec));
    if slot in p.records {
      BeforeFits(f, root, p, slot);
      var b, was := Before(root, slot), Was(p, slot);
      assert f.holds(slot, Lookup(root, slot).value, was);
      assert WritesWell(f, slot, b, was, rec);
      RewrittenRefines(f, root, p, kind, Id(rec), f.enc(b, rec), f.rules.writable(was, rec), f.rules.normal(was, rec));
    }
  }

  lemma RewrittenRefines(f: Format, root: Bucket, p: Plain, kind: Kind, id: string,
                         contents: Result<Bucket, Error>, writable: bool, rec: Option<Record>)
    requires Faithful(f) && Represents(f, root, p) && Coll(root, kind).Some? && Settles(contents, writable) && id != ""
    requires writable ==> Written(f, Slot(kind, id), Before(root, Slot(kind, id)), contents.value, rec)
    ensures Matches(f, root, kind, InSub(Coll(root, kind).value, Free(id), contents),
                    if writable then Success(p.(records := p.records[Slot(kind, id) := rec])) else Failure(Unwritable))
  {
    if writable {
      WriteRefines(f, root, p, kind, id, contents.value, rec);
    }
  }

  // ----- relabelling -----

  ghost predicate BatchMatches(f: Format, root: Bucket, kind: Kind, r: Result<Batch, Error>, s: Result<PlainBatch, Refusal>)
    requires Coll(root, kind).Some?
  {
    match r
    case Success(c) =>
      s.Success? && c.adds == s.value.adds && c.done == s.value.done &&
      Represents(f, SetColl(root, kind, c.coll), s.value.store)
    case Failure(e) => s == Failure(Reason(e))
  }

  lemma RelabelledSuits(kind: Kind, rec: Record, labels: seq<string>, now: Time)
    requires Suits(kind, rec)
    ensures Suits(kind, Relabelled(rec, labels, now)) && Id(Relabelled(rec, labels, now)) == Id(rec)
  {
  }

  lemma RelabelOneRefines(f: Format, root: Bucket, p: Plain, kind: Kind, s: Batch, id: string, removes: set<string>, now: Time)
    requires Faithful(f) && Represents(f, root, p) && Coll(root, kind) == Some(s.coll)
    ensures BatchMatches(f, root, kind, RelabelOne(f, kind, s, id, removes, now),
                         PlainRelabelOne(f.rules, PlainBatch(p, s.adds, s.done), Slot(kind, id), removes, now))
  {
    var slot := Slot(kind, id);
    EntryFacts(f, root, p, kind, s.coll, id);
    if slot in p.records {
      var b, was := Before(root, slot), p.records[slot];
      BeforeFits(f, root, p, slot);
      assert f.holds(slot, Lookup(root, slot).value, was);
      assert ReadsWell(f, slot, b, was);
      if was.Some? {
        var kept := LabelSet(b) - removes;
        var labels := SortedSet(kept + (s.adds - kept));
        var next := Relabelled(was.value, labels, now);
        RelabelledSuits(kind, was.value, labels, now);
        assert WritesWell(f, slot, b, was, next);
        RelabelWritten(f, root, p, kind, s, id, kept, next, f.enc(b, next), f.rules.writable(was, next), f.rules.normal(was, next));
      }
    }
  }

  lemma RelabelWritten(f: Format, root: Bucket, p: Plain, kind: Kind, s: Batch, id: string, kept: set<string>,
                       next: Record, contents: Result<Bucket, Error>, writable: bool, rec: Option<Record>)
    requires Faithful(f) && Represents(f, root, p) && Coll(root, kind) == Some(s.coll) && Settles(contents, writable)
    requires Slot(kind, id) in p.records
    requires writable ==> Written(f, Slot(kind, id), Before(root, Slot(kind, id)), contents.value, rec)
    ensures BatchMatches(f, root, kind, Rewritten(s, Free(id), kept, next, contents),
                         PlainRewritten(PlainBatch(p, s.adds, s.done), Slot(kind, id), kept, next, writable, rec))
  {
    EntryFacts(f, root, p, kind, s.coll, id);
    if writable {
      WriteRefines(f, root, p, kind, id, contents.value, rec);
    }
  }

  lemma {:induction false} RelabelAllRefines(f: Format, root: Bucket, p: Plain, kind: Kind, ids: seq<string>,
                                             adds: set<string>, removes: set<string>, clock: nat -> Time)
    requires Faithful(f) && Represents(f, root, p) && Coll(root, kind).Some?
    ensures BatchMatches(f, root, kind, RelabelAll(f, kind, Coll(root, kind).value, ids, adds, removes, clock),
                         PlainRelabel(f.rules, p, kind, ids, adds, removes, clock))
  {
    var coll := Coll(root, kind).value;
    if ids == [] {
      SetCollToItself(root, kind);
    } else {
      var n := |ids| - 1;
      RelabelAllRefines(f, root, p, kind, ids[..n], adds, removes, clock);
      var r := RelabelAll(f, kind, coll, ids[..n], adds, removes, clock);
      if r.Success? {
        var s := r.value;
        var q := PlainRelabel(f.rules, p, kind, ids[..n], adds, removes, clock).value;
        SetCollSelf(root, kind, s.coll);
        RelabelOneRefines(f, SetColl(root, kind, s.coll), q.store, kind, s, ids[n], removes, clock(n));
        BatchMatchesAfter(f, root, kind, s.coll, RelabelOne(f, kind, s, ids[n], removes, clock(n)),
                          PlainRelabelOne(f.rules, q, Slot(kind, ids[n]), removes, clock(n)));
      }
    }
  }

  lemma BatchMatchesAfter(f: Format, root: Bucket, kind: Kind, c: Bucket, r: Result<Batch, Error>, s: Result<PlainBatch, Refusal>)
    requires Coll(root, kind).Some? && Coll(SetColl(root, kind, c), kind).Some?
    requires BatchMatches(f, SetColl(root, kind, c), kind, r, s)
    ensures BatchMatches(f, root, kind, r, s)
  {
    if r.Success? {
      SetCollTwice(root, kind, c, r.value.coll);
    }
  }

  // ----- deleting records -----

  lemma RemoveIsEntryChange(root: Bucket, kind: Kind, coll: Bucket, id: string)
    requires Coll(root, kind) == Some(coll) && Listing(coll)
    ensures EntryChange(root, kind, coll - {Free(id)}, id) && SubOf(coll - {Free(id)}, Free(id)) == None
  {
  }

  lemma RemoveOneRefines(f: Format, root: Bucket, p: Plain, kind: Kind, id: string)
    requires Faithful(f) && Represents(f, root, p) && Coll(root, kind).Some? && Slot(kind, id) in p.records
    ensures Represents(f, SetColl(root, kind, Coll(root, kind).value - {Free(id)}), Without(p, Slot(kind, id)))
  {
    var coll, slot := Coll(root, kind).value, Slot(kind, id);
    var c := coll - {Free(id)};
    EntryFacts(f, root, p, kind, coll, id);
    RemoveIsEntryChange(root, kind, coll, id);
    RemoveChanges(f, p, kind, id);
    ChangeRefines(f, root, p, Without(p, slot), kind, c, id);
  }

  lemma RemoveChanges(f: Format, p: Plain, kind: Kind, id: string)
    ensures Changed(f, p, Without(p, Slot(kind, id)), kind, id, None)
  {
  }

  lemma {:induction false} RemoveAllRefines(f: Format, root: Bucket, p: Plain, kind: Kind, ids: seq<string>)
    requires Faithful(f) && Represents(f, root, p) && Coll(root, kind).Some?
    ensures Matches(f, root, kind, RemoveAll(Coll(root, kind).value, ids), PlainRemove(p, kind, ids))
  {
    var coll := Coll(root, kind).value;
    if ids == [] {
      SetCollToItself(root, kind);
    } else {
      var n := |ids| - 1;
      RemoveAllRefines(f, root, p, kind, ids[..n]);
      var r := RemoveAll(coll, ids[..n]);
      if r.Success? {
        var c, q := r.value, PlainRemove(p, kind, ids[..n]).value;
        var r1 := SetColl(root, kind, c);
        SetCollSelf(root, kind, c);
        assert Lookup(r1, Slot(kind, ids[n])) == SubOf(c, Free(ids[n]));
        assert Listing(c);
        if Slot(kind, ids[n]) in q.records {
          RemoveOneRefines(f, r1, q, kind, ids[n]);
          SetCollTwice(root, kind, c, c - {Free(ids[n])});
        }
      }
    }
  }

  // ----- reports -----

  lemma PutReportRefines(f: Format, root: Bucket, p: Plain, id: string, report: Report)
    requires Faithful(f) && Represents(f, root, p) && Coll(root, Benchmarks).Some?
    ensures Matches(f, root, Benchmarks, PutReport(f, Coll(root, Benchmarks).value, id, report), PlainPutReport(p, id, report))
  {
    var coll, slot := Coll(root, Benchmarks).value, Slot(Benchmarks, id);
    EntryFacts(f, root, p, Benchmarks, coll, id);
    if slot in p.records {
      var b := coll[Free(id)].entries;
      BeforeFits(f, root, p, slot);
      assert f.holds(slot, b, p.records[slot]);
      var e := b[ReportKey := Value(f.json.report(report))];
      WriteIsEntryChange(root, Benchmarks, coll, id, e);
      ReportChanges(f, p, id, e, report);
      ChangeRefines(f, root, p, p.(reports := p.reports[id := report]), Benchmarks, coll[Free(id) := Sub(e)], id);
    }
  }

  lemma ReportChanges(f: Format, p: Plain, id: string, e: Bucket, report: Report)
    requires Slot(Benchmarks, id) in p.records && f.holds(Slot(Benchmarks, id), e, p.records[Slot(Benchmarks, id)])
    requires f.json.ReadsBack() && ValueOf(e, ReportKey) == Some(f.json.report(report))
    ensures Changed(f, p, p.(reports := p.reports[id := report]), Benchmarks, id, Some(e))
  {
  }

  // ----- reading -----

  lemma {:induction false} ReadAllRefines(f: Format, root: Bucket, p: Plain, kind: Kind, ids: seq<string>)
    requires Faithful(f) && Represents(f, root, p) && Coll(root, kind).Some?
    requires forall id :: id in ids ==> Slot(kind, id) in p.records
    ensures match ReadAll(f, kind, Coll(root, kind).value, ids)
            case Success(recs) => Pick(p, kind, ids) == Success(recs)
            case Failure(e) => Pick(p, kind, ids) == Failure(Reason(e))
  {
    if ids != [] {
      var id := ids[|ids| - 1];
      ReadAllRefines(f, root, p, kind, ids[..|ids| - 1]);
      var slot := Slot(kind, id);
      assert f.holds(slot, Lookup(root, slot).value, p.records[slot]);
      assert ReadsWell(f, slot, Lookup(root, slot).value, p.records[slot]);
    }
  }

  lemma KeysAreIds(f: Format, root: Bucket, p: Plain, kind: Kind)
    requires Represents(f, root, p)
    ensures Coll(root, kind).Some? ==> KeyTexts(Coll(root, kind).value) == IdsOf(p, kind)
    ensures Coll(root, kind).None? ==> IdsOf(p, kind) == {}
  {
    IdsAreSlots(p, kind);
    if Coll(root, kind).Some? {
      var c := Coll(root, kind).value;
      assert Listing(c);
      forall id ensures id in KeyTexts(c) <==> id in IdsOf(p, kind) {
        assert Lookup(root, Slot(kind, id)) == SubOf(c, Free(id));
        assert Free(id) in c ==> Free(id).text in KeyTexts(c);
      }
    } else {
      forall id ensures id !in IdsOf(p, kind) {
        assert Lookup(root, Slot(kind, id)).None?;
      }
    }
  }
}
