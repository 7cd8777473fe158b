/** metadata/experiment.go and metadata/report.go: reports and experiments in buckets. */
module ExperimentCodec {
  import opened GoStrings
  import opened Results
  import opened Records
  import opened Buckets
  import opened MetadataHelpers
  import opened IndexedLists
  import opened FitBuckets

  // ----- reports -----

  function EncReport(j: Json, b: Bucket, r: Report): (res: Result<Bucket, Error>) {
    PutIn(b, ReportKey, j.report(r))
  }

  function DecReport(j: Json, b: Bucket): Result<Report, Error> {
    match ValueOf(b, ReportKey)
    case None => Failure(NotFound)
    case Some(v) => (match j.reportOf(v) case None => Failure(Malformed) case Some(r) => Success(r))
  }

  method WriteReport(j: Json, tx: Tx, p: Path, r: Report) returns (err: Option<Error>)
    requires Exists(tx.root, p)
    modifies tx
    ensures Ran(old(tx.root), tx.root, p, EncReport(j, At(old(tx.root), p), r), err)
  {
    err := tx.Put(p, ReportKey, j.report(r));
  }

  // ----- indexed reports -----

  /** Creates the report buckets; an index already in use is an error. */
  function AddReports(j: Json, b: Bucket, rs: seq<Report>): (res: Result<Bucket, Error>) {
    if rs == [] then Success(b)
    else
      var c :- AddReports(j, b, rs[..|rs| - 1]);
      var d :- CreateIn(c, Index(|rs| - 1));
      Success(d[Index(|rs| - 1) := Sub(map[ReportKey := Value(j.report(rs[|rs| - 1]))])])
  }

  ghost function ReportReader(j: Json): Bucket -> Result<Report, Error> {
    b => DecReport(j, b)
  }

  ghost function DecReports(j: Json, b: Bucket): (res: Result<seq<Report>, Error>) {
    WalkFrom(b, 0, ReportReader(j))
  }

  ghost predicate HoldsReport(j: Json, b: Bucket, i: nat, r: Report) {
    SubOf(b, Index(i)) == Some(map[ReportKey := Value(j.report(r))])
  }

  /** The bucket holds exactly these reports, under the indices 0, 1, and so on. */
  ghost predicate HoldsReports(j: Json, b: Bucket, rs: seq<Report>) {
    IndexedTo(b, |rs|) && forall i: nat :: i < |rs| ==> HoldsReport(j, b, i, rs[i])
  }

  lemma {:induction false} AddToNone(j: Json, b: Bucket, rs: seq<Report>)
    requires IndexedTo(b, 0)
    ensures AddReports(j, b, rs).Success?
    ensures HoldsReports(j, AddReports(j, b, rs).value, rs)
    ensures forall k: Key :: k.Fixed? ==> (k in AddReports(j, b, rs).value <==> k in b)
    ensures forall k: Key :: k.Fixed? && k in b ==> AddReports(j, b, rs).value[k] == b[k]
  {
    if rs != [] {
      var n := |rs| - 1;
      AddToNone(j, b, rs[..n]);
      IndicesDistinct(n);
      var c := AddReports(j, b, rs[..n]).value;
      assert Index(n) !in c && Index(n) != EMPTY;
      forall i: nat | i < |rs| ensures HoldsReport(j, AddReports(j, b, rs).value, i, rs[i]) {
        if i < n {
          assert HoldsReport(j, c, i, rs[..n][i]);
        }
      }
    }
  }

  lemma {:induction false} AddToSome(j: Json, b: Bucket, rs: seq<Report>)
    requires HasSub(b, Index(0)) && rs != []
    ensures AddReports(j, b, rs) == Failure(BucketExists)
  {
    if |rs| > 1 {
      AddToSome(j, b, rs[..|rs| - 1]);
    } else {
      assert rs[..0] == [];
    }
  }

  lemma ReportsReadBack(j: Json, b: Bucket, rs: seq<Report>)
    requires j.ReadsBack() && HoldsReports(j, b, rs)
    ensures DecReports(j, b) == Success(rs)
  {
    forall i: nat | i < |rs| ensures HoldsAt(b, 0 + i, ReportReader(j), rs[i]) {
      assert HoldsReport(j, b, i, rs[i]);
    }
    assert Index(|rs|) !in b;
    WalkCollects(b, rs, 0, ReportReader(j));
  }

  // ----- experiments -----

  function EncTrials(j: Json, e: Experiment): Result<Bucket, Error> {
    PutIn(map[], Free(e.id), j.trials(e.trials))
  }

  /** The definition is looked up under the experiment's own id. */
  function TrialsOf(j: Json, id: string, sub: Option<Bucket>): Result<seq<string>, Error> {
    match sub
    case None => Success([])
    case Some(d) =>
      match ValueOf(d, Free(id))
      case None => Success([])
      case Some(v) => (match j.trialsOf(v) case None => Failure(Malformed) case Some(t) => Success(t))
  }

  function ExperimentFields(e: Experiment): map<Key, string> {
    map[IdKey := e.id, StatusKey := e.status]
  }

  function EncExperiment(x: Texts, b: Bucket, e: Experiment): (res: Result<Bucket, Error>) {
    var b3 :- BeforeReports(x, b, e);
    FromReports(x.json, b3, e)
  }

  /** Everything before the report loop. */
  function BeforeReports(x: Texts, b: Bucket, e: Experiment): (res: Result<Bucket, Error>) {
    var b1 :- EncTimestamps(x, b, e.createdAt, e.updatedAt);
    var b2 :- Recreated(b1, DefinitionKey, EncTrials(x.json, e));
    EncLabels(b2, e.labels)
  }

  /** The report loop and what follows. */
  function FromReports(j: Json, b: Bucket, e: Experiment): (res: Result<Bucket, Error>) {
    var c :- AddReports(j, b, e.reports);
    PutAllIn(c, ExperimentFields(e))
  }

  ghost function DecExperiment(x: Texts, id: string, b: Bucket): Result<Experiment, Error> {
    var times :- DecTimestamps(x, b);
    var trials :- TrialsOf(x.json, id, SubOf(b, DefinitionKey));
    var reports :- DecReports(x.json, b);
    Success(Experiment(if ValueOf(b, IdKey).Some? then TextOf(b, IdKey) else id, TextOf(b, StatusKey),
                       trials, reports, DecLabels(b), times.0, times.1))
  }

  lemma ExperimentLabels(x: Texts, id: string, b: Bucket)
    requires DecExperiment(x, id, b).Success?
    ensures DecExperiment(x, id, b).value.labels == DecLabels(b)
  {
  }

  /** Indices are left alone by everything but the report loop. */
  lemma FixedKeepsReports(j: Json, b: Bucket, c: Bucket, rs: seq<Report>, keys: set<Key>)
    requires SameExcept(b, c, keys) && forall k :: k in keys ==> k.Fixed?
    ensures HoldsReports(j, b, rs) <==> HoldsReports(j, c, rs)
  {
    forall i: nat ensures Index(i) in c <==> Index(i) in b {
    }
    forall i: nat ensures SubOf(c, Index(i)) == SubOf(b, Index(i)) {
      Kept(b, c, keys, Index(i));
    }
  }

  lemma BeforeKeepsReports(x: Texts, b: Bucket, e: Experiment, rs: seq<Report>)
    requires BeforeReports(x, b, e).Success?
    ensures HoldsReports(x.json, b, rs) <==> HoldsReports(x.json, BeforeReports(x, b, e).value, rs)
  {
    var b1 := EncTimestamps(x, b, e.createdAt, e.updatedAt).value;
    var b2 := Recreated(b1, DefinitionKey, EncTrials(x.json, e)).value;
    var b3 := EncLabels(b2, e.labels).value;
    FixedKeepsReports(x.json, b, b1, rs, {CreatedAtKey, UpdatedAtKey});
    FixedKeepsReports(x.json, b1, b2, rs, {DefinitionKey});
    FixedKeepsReports(x.json, b2, b3, rs, {LabelsKey});
  }

  // ----- which experiments can be written -----

  /** No name is empty, and reports are written where there are none yet only. */
  predicate ExperimentWritable(e: Experiment, rs: seq<Report>) {
    e.id != "" && "" !in e.labels && (rs == [] || e.reports == [])
  }

  /** The first non-empty list is kept. */
  function ReportsKept(e: Experiment, rs: seq<Report>): seq<Report> {
    if rs == [] then e.reports else rs
  }

  lemma BeforeReportsFit(x: Texts, b: Bucket, e: Experiment)
    requires Fit(b)
    ensures Agrees(BeforeReports(x, b, e), e.id != "" && "" !in e.labels)
  {
    TimestampsFit(x, b, e.createdAt, e.updatedAt);
    var b1 := EncTimestamps(x, b, e.createdAt, e.updatedAt).value;
    RecreatedFits(b1, DefinitionKey, EncTrials(x.json, e));
    var b2 := Recreated(b1, DefinitionKey, EncTrials(x.json, e));
    if b2.Success? {
      LabelsFit(b2.value, e.labels);
    }
  }

  lemma FromReportsFits(j: Json, b: Bucket, e: Experiment, rs: seq<Report>)
    requires Fit(b) && HoldsReports(j, b, rs)
    ensures Agrees(FromReports(j, b, e), rs == [] || e.reports == [])
  {
    if rs == [] {
      AddToNone(j, b, e.reports);
    } else if e.reports != [] {
      assert HoldsReport(j, b, 0, rs[0]);
      AddToSome(j, b, e.reports);
    }
    var c := AddReports(j, b, e.reports);
    if c.Success? {
      PutAllFits(c.value, ExperimentFields(e));
    }
  }

  /** What one write does to the reports of an experiment's bucket: the first non-empty list
      is stored, and an empty list keeps what is there.  On the buckets the store makes, it
      succeeds exactly when no name is empty and reports are not written a second time. */
  lemma WriteReports(x: Texts, b: Bucket, e: Experiment, rs: seq<Report>)
    requires HoldsReports(x.json, b, rs)
    ensures rs != [] && e.reports != [] ==> EncExperiment(x, b, e).Failure?
    ensures EncExperiment(x, b, e).Success? ==> HoldsReports(x.json, EncExperiment(x, b, e).value, ReportsKept(e, rs))
    ensures Fit(b) ==> Agrees(EncExperiment(x, b, e), ExperimentWritable(e, rs))
  {
    if Fit(b) {
      BeforeReportsFit(x, b, e);
    }
    if BeforeReports(x, b, e).Success? {
      var b3 := BeforeReports(x, b, e).value;
      BeforeKeepsReports(x, b, e, rs);
      WriteReportsFrom(x.json, b3, e, rs);
      if Fit(b) {
        FromReportsFits(x.json, b3, e, rs);
      }
    }
  }

  lemma WriteReportsFrom(j: Json, b: Bucket, e: Experiment, rs: seq<Report>)
    requires HoldsReports(j, b, rs)
    ensures rs != [] && e.reports != [] ==> FromReports(j, b, e).Failure?
    ensures FromReports(j, b, e).Success? ==> HoldsReports(j, FromReports(j, b, e).value, ReportsKept(e, rs))
  {
    if rs == [] {
      AddToNone(j, b, e.reports);
    } else if e.reports != [] {
      assert HoldsReport(j, b, 0, rs[0]);
      AddToSome(j, b, e.reports);
    }
    var c := AddReports(j, b, e.reports);
    if c.Success? {
      FixedKeepsReports(j, c.value, c.value + Values(ExperimentFields(e)), ReportsKept(e, rs), {IdKey, StatusKey});
    }
  }

  // ----- a whole experiment reads back -----

  ghost function NormalExperiment(e: Experiment, rs: seq<Report>): Experiment {
    e.(labels := SortedSet(Members(e.labels)), reports := ReportsKept(e, rs))
  }

  lemma BeforeReads(x: Texts, b: Bucket, e: Experiment)
    requires x.Lossless() && BeforeReports(x, b, e).Success?
    ensures var c := BeforeReports(x, b, e).value;
      && DecTimestamps(x, c) == Success((e.createdAt, e.updatedAt))
      && TrialsOf(x.json, e.id, SubOf(c, DefinitionKey)) == Success(e.trials)
      && LabelSet(c) == Members(e.labels)
  {
    var b1 := EncTimestamps(x, b, e.createdAt, e.updatedAt).value;
    var b2 := Recreated(b1, DefinitionKey, EncTrials(x.json, e)).value;
    var b3 := EncLabels(b2, e.labels).value;
    TimestampsReadBack(x, b, e.createdAt, e.updatedAt);
    LabelsReadBack(b2, e.labels);
    Kept(b1, b2, {DefinitionKey}, CreatedAtKey);
    Kept(b1, b2, {DefinitionKey}, UpdatedAtKey);
    Kept(b2, b3, {LabelsKey}, CreatedAtKey);
    Kept(b2, b3, {LabelsKey}, UpdatedAtKey);
    Kept(b2, b3, {LabelsKey}, DefinitionKey);
  }

  lemma ReportsStayAside(j: Json, b: Bucket, rs: seq<Report>)
    requires AddReports(j, b, rs).Success?
    ensures forall k: Key :: k.Fixed? ==> (k in AddReports(j, b, rs).value <==> k in b)
    ensures forall k: Key :: k.Fixed? && k in b ==> AddReports(j, b, rs).value[k] == b[k]
  {
  }

  lemma FromReportsReads(j: Json, b: Bucket, e: Experiment)
    requires FromReports(j, b, e).Success?
    ensures var c := FromReports(j, b, e).value;
      && ValueOf(c, CreatedAtKey) == ValueOf(b, CreatedAtKey) && ValueOf(c, UpdatedAtKey) == ValueOf(b, UpdatedAtKey)
      && SubOf(c, DefinitionKey) == SubOf(b, DefinitionKey) && SubOf(c, LabelsKey) == SubOf(b, LabelsKey)
      && ValueOf(c, IdKey) == Some(e.id) && TextOf(c, IdKey) == e.id && TextOf(c, StatusKey) == e.status
  {
    var d := AddReports(j, b, e.reports).value;
    var f := ExperimentFields(e);
    ReportsStayAside(j, b, e.reports);
    assert forall k :: k in f ==> TextOf(d + Values(f), k) == f[k];
  }

  /** A written experiment reads back under its own id: the definition, the labels, the
      status and the times as written, and the first non-empty list of reports. */
  lemma ExperimentReadsBack(x: Texts, b: Bucket, e: Experiment, rs: seq<Report>)
    requires x.Lossless() && HoldsReports(x.json, b, rs) && EncExperiment(x, b, e).Success?
    ensures DecExperiment(x, e.id, EncExperiment(x, b, e).value) == Success(NormalExperiment(e, rs))
    ensures HoldsReports(x.json, EncExperiment(x, b, e).value, ReportsKept(e, rs))
  {
    var b3 := BeforeReports(x, b, e).value;
    var c := EncExperiment(x, b, e).value;
    BeforeReads(x, b, e);
    FromReportsReads(x.json, b3, e);
    BeforeKeepsReports(x, b, e, rs);
    WriteReportsFrom(x.json, b3, e, rs);
    ReportsReadBack(x.json, c, ReportsKept(e, rs));
    ExperimentFromParts(x, e, rs, b3, c);
  }

  lemma ExperimentFromParts(x: Texts, e: Experiment, rs: seq<Report>, b: Bucket, c: Bucket)
    requires DecTimestamps(x, b) == Success((e.createdAt, e.updatedAt)) && LabelSet(b) == Members(e.labels)
    requires ValueOf(c, CreatedAtKey) == ValueOf(b, CreatedAtKey) && ValueOf(c, UpdatedAtKey) == ValueOf(b, UpdatedAtKey)
    requires SubOf(c, DefinitionKey) == SubOf(b, DefinitionKey) && SubOf(c, LabelsKey) == SubOf(b, LabelsKey)
    requires TrialsOf(x.json, e.id, SubOf(b, DefinitionKey)) == Success(e.trials)
    requires ValueOf(c, IdKey) == Some(e.id) && TextOf(c, IdKey) == e.id && TextOf(c, StatusKey) == e.status
    requires DecReports(x.json, c) == Success(ReportsKept(e, rs))
    ensures DecExperiment(x, e.id, c) == Success(NormalExperiment(e, rs))
  {
    TimesByFields(x, b, c);
  }

  // ----- the code -----

  method ReadReport(j: Json, tx: Tx, p: Path) returns (r: Result<Report, Error>)
    requires Exists(tx.root, p)
    ensures r == DecReport(j, At(tx.root, p))
  {
    var content := ValueOf(tx.Read(p), ReportKey);
    if content.None? {
      return Failure(NotFound);
    }
    var report := j.reportOf(content.value);
    if report.None? {
      return Failure(Malformed);
    }
    return Success(report.value);
  }

  method ReadExperimentDefinition(j: Json, tx: Tx, p: Path, id: string) returns (r: Result<seq<string>, Error>)
    requires Exists(tx.root, p)
    ensures r == TrialsOf(j, id, SubOf(At(tx.root, p), DefinitionKey))
  {
    if !tx.Has(p, DefinitionKey) {
      return Success([]);
    }
    SubExists(tx.root, p, DefinitionKey);
    var data := ValueOf(tx.Read(p + [DefinitionKey]), Free(id));
    if data.None? {
      return Success([]);
    }
    var trials := j.trialsOf(data.value);
    if trials.None? {
      return Failure(Malformed);
    }
    return Success(trials.value);
  }

  /** The index walk over report buckets. */
  method ReadReports(j: Json, tx: Tx, p: Path) returns (r: Result<seq<Report>, Error>)
    requires Exists(tx.root, p)
    ensures r == DecReports(j, At(tx.root, p))
  {
    ghost var b, read := At(tx.root, p), ReportReader(j);
    ghost var all := WalkFrom(b, 0, read);
    var reports: seq<Report> := [];
    var i: nat := 0;
    ContinuesStart(all);
    while tx.Has(p, Index(i))
      invariant Continues(all, reports, WalkFrom(b, i, read))
      decreases |Beyond(b, i)|
    {
      SubExists(tx.root, p, Index(i));
      ContinuesStep(all, reports, b, i, read);
      WalkAdvances(b, i);
      var report := ReadReport(j, tx, p + [Index(i)]);
      if report.Failure? {
        return Failure(report.error);
      }
      reports := reports + [report.value];
      i := i + 1;
    }
    ContinuesEnd(all, reports, b, i, read);
    return Success(reports);
  }

  method ReadExperiment(x: Texts, tx: Tx, p: Path, id: string) returns (r: Result<Experiment, Error>)
    requires Exists(tx.root, p)
    ensures r == DecExperiment(x, id, At(tx.root, p))
  {
    var times := ReadTimestamps(x, tx, p);
    if times.Failure? {
      return Failure(times.error);
    }
    var trials := ReadExperimentDefinition(x.json, tx, p, id);
    if trials.Failure? {
      return Failure(trials.error);
    }
    var labels := ReadLabels(tx, p);
    var reports := ReadReports(x.json, tx, p);
    if reports.Failure? {
      return Failure(reports.error);
    }
    var f := ReadFields(tx, p);
    return Success(Experiment(if IdKey in f then f[IdKey] else id, Field(f, StatusKey), trials.value, reports.value,
                              labels, times.value.0, times.value.1));
  }

  method WriteExperimentDefinition(j: Json, tx: Tx, p: Path, e: Experiment) returns (err: Option<Error>)
    requires Exists(tx.root, p)
    modifies tx
    ensures Ran(old(tx.root), tx.root, p, Recreated(At(old(tx.root), p), DefinitionKey, EncTrials(j, e)), err)
  {
    ghost var r0 := tx.root;
    err := RecreateBucket(tx, p, DefinitionKey);
    if err.Some? {
      return;
    }
    ghost var r1 := tx.root;
    err := tx.Put(p + [DefinitionKey], Free(e.id), j.trials(e.trials));
    RanSub(r1, tx.root, p, DefinitionKey, EncTrials(j, e), err);
    RanAfter(r0, r1, tx.root, p, InSub(At(r1, p), DefinitionKey, EncTrials(j, e)), err);
  }

  lemma {:induction false} PrefixAddFails(j: Json, b: Bucket, rs: seq<Report>, i: nat)
    requires i <= |rs| && AddReports(j, b, rs[..i]).Failure?
    ensures AddReports(j, b, rs) == AddReports(j, b, rs[..i])
    decreases |rs| - i
  {
    if i < |rs| {
      PrefixGrows(rs, i);
      PrefixAddFails(j, b, rs, i + 1);
    } else {
      assert rs[..i] == rs;
    }
  }

  /** The report loop of `writeExperiment`: buckets are created, never recreated. */
  method PutReports(j: Json, tx: Tx, p: Path, rs: seq<Report>) returns (err: Option<Error>)
    requires Exists(tx.root, p)
    modifies tx
    ensures Ran(old(tx.root), tx.root, p, AddReports(j, At(old(tx.root), p), rs), err)
  {
    ghost var r0, b := tx.root, At(tx.root, p);
    ConfinedRefl(r0, p);
    err := None;
    for i := 0 to |rs|
      invariant Ran(r0, tx.root, p, AddReports(j, b, rs[..i]), None) && err == None
    {
      PrefixGrows(rs, i);
      ghost var r1, c := tx.root, At(tx.root, p);
      err := tx.CreateBucket(p, Index(i));
      ConfinedTrans(r0, r1, tx.root, p);
      if err.Some? {
        PrefixAddFails(j, b, rs, i + 1);
        return;
      }
      ghost var r2 := tx.root;
      err := WriteReport(j, tx, p + [Index(i)], rs[i]);
      ghost var spec := EncReport(j, map[], rs[i]);
      RanSub(r2, tx.root, p, Index(i), spec, err);
      ConfinedTrans(r0, r2, tx.root, p);
    }
    assert rs[..|rs|] == rs;
  }

  method WriteBeforeReports(x: Texts, tx: Tx, p: Path, e: Experiment) returns (err: Option<Error>)
    requires Exists(tx.root, p)
    modifies tx
    ensures Ran(old(tx.root), tx.root, p, BeforeReports(x, At(old(tx.root), p), e), err)
  {
    ghost var r0 := tx.root;
    err := WriteTimestamps(x, tx, p, e.createdAt, e.updatedAt);
    if err.Some? {
      return;
    }
    ghost var r1 := tx.root;
    err := WriteExperimentDefinition(x.json, tx, p, e);
    ConfinedTrans(r0, r1, tx.root, p);
    if err.Some? {
      return;
    }
    ghost var r2 := tx.root;
    err := WriteLabels(tx, p, e.labels);
    ConfinedTrans(r0, r2, tx.root, p);
  }

  method WriteExperiment(x: Texts, tx: Tx, p: Path, e: Experiment) returns (err: Option<Error>)
    requires Exists(tx.root, p)
    modifies tx
    ensures Ran(old(tx.root), tx.root, p, EncExperiment(x, At(old(tx.root), p), e), err)
  {
    ghost var r0 := tx.root;
    err := WriteBeforeReports(x, tx, p, e);
    if err.Some? {
      return;
    }
    ghost var r1 := tx.root;
    err := PutReports(x.json, tx, p, e.reports);
    ConfinedTrans(r0, r1, tx.root, p);
    if err.Some? {
      return;
    }
    ghost var r2 := tx.root;
    err := PutAll(tx, p, ExperimentFields(e));
    ConfinedTrans(r0, r2, tx.root, p);
  }
}
