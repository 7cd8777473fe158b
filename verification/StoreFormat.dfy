/** The buckets that the record codecs write and read keep to what the store relies on. */
module StoreFormat {
  import opened GoStrings
  import opened Results
  import opened Buckets
  import opened MetadataHelpers
  import opened BenchmarkCodec
  import opened FitBuckets
  import opened StoreRecords
  import opened RecordLaws
  import opened StoreTree
  import opened StoreSteps
  import opened StoreRefinement

  ghost predicate Stored(x: Texts, slot: Slot, b: Bucket, o: Option<Record>) {
    && Dec(x, slot.kind, slot.id, b) == Reads(o)
    && (if o.Some? then
          Suits(slot.kind, o.value) && Id(o.value) == slot.id && Writable(x, None, o.value) && Settled(o.value)
        else slot.kind.Benchmarks?)
    && Held(x, slot.kind, b, o)
  }

  /** How the store keeps its records. */
  ghost function FormatOf(x: Texts): Format {
    Format((b, rec) => Enc(x, b, rec), (kind, id, b) => Dec(x, kind, id, b),
           Rules((was, rec) => Writable(x, was, rec), (was, rec) => Normal(x, was, rec)),
           (slot, b, o) => Stored(x, slot, b, o), x.json)
  }

  lemma NodesDoNotShow(x: Texts, id: string, b: Bucket, c: Bucket)
    ensures Dec(x, Clusters, id, b[NodesKey := Sub(c)]) == Dec(x, Clusters, id, b)
  {
    var d := b[NodesKey := Sub(c)];
    assert SameExcept(b, d, {NodesKey});
    Kept(b, d, {NodesKey}, CreatedAtKey);
    Kept(b, d, {NodesKey}, UpdatedAtKey);
    Kept(b, d, {NodesKey}, DefinitionKey);
    Kept(b, d, {NodesKey}, LabelsKey);
    Kept(b, d, {NodesKey}, IdKey);
    Kept(b, d, {NodesKey}, StatusKey);
  }

  lemma BareCluster(x: Texts, id: string)
    ensures Dec(x, Clusters, id, map[NodesKey := Sub(map[])]) == Success(OnlyId(id))
  {
    var b: Bucket := map[NodesKey := Sub(map[])];
    assert LabelSet(b) == {};
    assert SortedSet({}) == [];
  }

  lemma NodesStayAside(x: Texts, id: string, b: Bucket, c: Bucket, o: Option<Record>)
    requires Stored(x, Slot(Clusters, id), b, o)
    ensures Stored(x, Slot(Clusters, id), b[NodesKey := Sub(c)], o)
  {
    NodesDoNotShow(x, id, b, c);
  }

  lemma ReportStaysAside(x: Texts, id: string, b: Bucket, v: string, o: Option<Record>)
    requires Stored(x, Slot(Benchmarks, id), b, o)
    ensures Stored(x, Slot(Benchmarks, id), b[ReportKey := Value(v)], o)
  {
    var d := b[ReportKey := Value(v)];
    assert SameExcept(b, d, {ReportKey});
    ReportDoesNotShow(x, id, b, d);
  }

  lemma BareIsStored(x: Texts, id: string)
    ensures Stored(x, Slot(Clusters, id), map[NodesKey := Sub(map[])], Some(OnlyId(id)))
  {
    BareCluster(x, id);
  }

  lemma FormatIsSteady(x: Texts)
    ensures Steady(FormatOf(x))
  {
    forall id, b: Bucket, c: Bucket, o | Stored(x, Slot(Clusters, id), b, o)
      ensures Stored(x, Slot(Clusters, id), b[NodesKey := Sub(c)], o)
    {
      NodesStayAside(x, id, b, c, o);
    }
    forall id, b: Bucket, v: string, o | Stored(x, Slot(Benchmarks, id), b, o)
      ensures Stored(x, Slot(Benchmarks, id), b[ReportKey := Value(v)], o)
    {
      ReportStaysAside(x, id, b, v, o);
    }
    forall id ensures Stored(x, Slot(Clusters, id), map[NodesKey := Sub(map[])], Some(OnlyId(id))) {
      BareIsStored(x, id);
    }
  }

  lemma NormalSuits(x: Texts, kind: Kind, was: Option<Record>, rec: Record)
    requires Suits(kind, rec)
    ensures var o := Normal(x, was, rec); if o.Some? then Suits(kind, o.value) && Id(o.value) == Id(rec) else kind.Benchmarks?
  {
  }

  lemma EncWrites(x: Texts, slot: Slot, b: Bucket, was: Option<Record>, rec: Record)
    requires x.Lossless() && Fit(b) && Suits(slot.kind, rec) && Id(rec) == slot.id && Held(x, slot.kind, b, was)
    ensures Agrees(Enc(x, b, rec), Writable(x, was, rec))
    ensures Enc(x, b, rec).Success? ==> Stored(x, slot, Enc(x, b, rec).value, Normal(x, was, rec))
    ensures Enc(x, b, rec).Success? && slot.kind.Clusters? ==> SubOf(Enc(x, b, rec).value, NodesKey) == SubOf(b, NodesKey)
    ensures Enc(x, b, rec).Success? && slot.kind.Benchmarks? ==> ValueOf(Enc(x, b, rec).value, ReportKey) == ValueOf(b, ReportKey)
  {
    RecordFits(x, slot.kind, b, was, rec);
    NormalSuits(x, slot.kind, was, rec);
    if Enc(x, b, rec).Success? {
      RecordReadsBack(x, slot.kind, b, was, rec);
      if Normal(x, was, rec).Some? {
        NormalWritable(x, was, rec);
        NormalMirrors(x, was, rec);
      } else {
        assert slot.kind.Benchmarks?;
      }
    }
  }

  lemma FormatWritesWell(x: Texts, slot: Slot, b: Bucket, was: Option<Record>, rec: Record)
    requires x.Lossless()
    ensures WritesWell(FormatOf(x), slot, b, was, rec)
  {
    if Fit(b) && Suits(slot.kind, rec) && Id(rec) == slot.id && ((b == map[] && was == None) || Stored(x, slot, b, was)) {
      EncWrites(x, slot, b, was, rec);
    }
  }

  lemma FormatReadsWell(x: Texts, slot: Slot, b: Bucket, o: Option<Record>)
    ensures ReadsWell(FormatOf(x), slot, b, o)
  {
    if Stored(x, slot, b, o) && o.Some? {
      LabelsAreRead(x, slot.kind, slot.id, b, o.value);
      assert Members(DecLabels(b)) == LabelSet(b);
    }
  }

  /** The format is faithful: each kind of record is written exactly when its rule allows
      it, over whatever the store left in the bucket, and then reads back in normal form. */
  lemma FormatIsFaithful(x: Texts)
    requires x.Lossless()
    ensures Faithful(FormatOf(x))
  {
    FormatIsSteady(x);
    forall slot, b, was, rec ensures WritesWell(FormatOf(x), slot, b, was, rec) {
      FormatWritesWell(x, slot, b, was, rec);
    }
    forall slot, b, o ensures ReadsWell(FormatOf(x), slot, b, o) {
      FormatReadsWell(x, slot, b, o);
    }
  }
}
