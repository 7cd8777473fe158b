/** metadata/scenario.go: object definitions, query maps and scenarios in buckets. */
module ScenarioCodec {
  import opened GoStrings
  import opened Results
  import opened Records
  import opened Numbers
  import opened Buckets
  import opened MetadataHelpers

  // ----- named records: one sub-bucket of fields per name -----

  type Fields = map<Key, string>

  function Named(records: map<string, Fields>): Bucket {
    map t | t in records :: Free(t) := Sub(Values(records[t]))
  }

  /** What writing named records into a new bucket gives. */
  function RecordEntries(records: map<string, Fields>): Result<Bucket, Error> {
    if "" in records then Failure(BucketNameRequired) else Success(Named(records))
  }

  /** The records of a bucket, entries that are not buckets left out. */
  function RecordsOf(sub: Option<Bucket>): map<string, Fields> {
    match sub
    case None => map[]
    case Some(s) => map t | t in KeyTexts(s) && HasSub(s, Free(t)) :: FieldsOf(s[Free(t)].entries)
  }

  lemma RecordsAt(s: Bucket, t: string)
    ensures t in RecordsOf(Some(s)) <==> HasSub(s, Free(t))
    ensures HasSub(s, Free(t)) ==> RecordsOf(Some(s))[t] == FieldsOf(s[Free(t)].entries)
  {
    assert HasSub(s, Free(t)) ==> Free(t).text in KeyTexts(s);
  }

  lemma RecordsReadBack(records: map<string, Fields>)
    ensures RecordsOf(Some(Named(records))) == records
  {
    var s := Named(records);
    forall t ensures HasSub(s, Free(t)) <==> t in records {
    }
    forall t | t in records ensures FieldsOf(s[Free(t)].entries) == records[t] {
      assert s[Free(t)] == Sub(Values(records[t]));
      FieldsReadBack(records[t]);
    }
    SameRecords(records, s);
  }

  lemma FieldsReadBack(f: Fields)
    ensures FieldsOf(Values(f)) == f
  {
    assert forall k :: k in f ==> k in Values(f) && Values(f)[k] == Value(f[k]);
  }

  /** `c` holds the records outside `pending` and nothing else. */
  ghost predicate NamedExcept(c: Bucket, records: map<string, Fields>, pending: set<string>) {
    && (forall k :: k in c <==> k.Free? && k.text in records && k.text !in pending)
    && (forall k :: k in c ==> c[k] == Sub(Values(records[k.text])))
  }

  lemma NamedDone(c: Bucket, records: map<string, Fields>)
    requires NamedExcept(c, records, {})
    ensures c == Named(records)
  {
  }

  /** One record: a new bucket and its fields. */
  method PutRecord(tx: Tx, q: Path, name: string, f: Fields) returns (err: Option<Error>)
    requires Exists(tx.root, q) && Free(name) !in At(tx.root, q) && EMPTY !in f
    modifies tx
    ensures Ran(old(tx.root), tx.root, q,
      if name == "" then Failure(BucketNameRequired)
      else Success(At(old(tx.root), q)[Free(name) := Sub(Values(f))]), err)
  {
    ghost var r0, b := tx.root, At(tx.root, q);
    err := tx.CreateBucket(q, Free(name));
    if err.Some? {
      return;
    }
    ghost var r1 := tx.root;
    err := PutAll(tx, q + [Free(name)], f);
    assert map[] + Values(f) == Values(f);
    ghost var spec := Success(Values(f));
    RanSub(r1, tx.root, q, Free(name), spec, err);
    ConfinedTrans(r0, r1, tx.root, q);
    assert b[Free(name) := Sub(map[])][Free(name) := Sub(Values(f))] == b[Free(name) := Sub(Values(f))];
  }

  /** The loops of `writeObjects` and `writeTaskMap`, over a map in arbitrary order. */
  method PutRecords(tx: Tx, q: Path, records: map<string, Fields>) returns (err: Option<Error>)
    requires Exists(tx.root, q) && At(tx.root, q) == map[]
    requires forall t :: t in records ==> EMPTY !in records[t]
    modifies tx
    ensures Ran(old(tx.root), tx.root, q, RecordEntries(records), err)
  {
    ghost var r0 := tx.root;
    ConfinedRefl(r0, q);
    err := None;
    var pending := records.Keys;
    while pending != {}
      invariant pending <= records.Keys && Confined(r0, tx.root, q) && err == None
      invariant NamedExcept(At(tx.root, q), records, pending)
      invariant "" in records ==> "" in pending
      decreases |pending|
    {
      var t :| t in pending;
      ghost var r1 := tx.root;
      err := PutRecord(tx, q, t, records[t]);
      ConfinedTrans(r0, r1, tx.root, q);
      if err.Some? {
        return;
      }
      pending := pending - {t};
    }
    NamedDone(At(tx.root, q), records);
  }

  /** The loops of `readObjects` and `readTaskMap`. */
  method ReadRecords(tx: Tx, p: Path, name: Key) returns (records: map<string, Fields>)
    requires Exists(tx.root, p)
    ensures records == RecordsOf(SubOf(At(tx.root, p), name))
  {
    records := map[];
    if !tx.Has(p, name) {
      return;
    }
    SubExists(tx.root, p, name);
    var q := p + [name];
    var keys := tx.KeysInOrder(q);
    ghost var s := At(tx.root, q);
    for i := 0 to |keys|
      invariant forall t :: t in records <==> t in keys[..i] && HasSub(s, Free(t))
      invariant forall t :: t in records ==> HasSub(s, Free(t)) && records[t] == FieldsOf(s[Free(t)].entries)
    {
      assert keys[..i + 1] == keys[..i] + [keys[i]];
      if !tx.Has(q, Free(keys[i])) {
        continue;
      }
      SubExists(tx.root, q, Free(keys[i]));
      var f := ReadFields(tx, q + [Free(keys[i])]);
      records := records[keys[i] := f];
    }
    assert keys[..|keys|] == keys;
    SameRecords(records, s);
  }

  lemma SameRecords(records: map<string, Fields>, s: Bucket)
    requires forall t :: t in records <==> HasSub(s, Free(t))
    requires forall t :: t in records ==> HasSub(s, Free(t)) && records[t] == FieldsOf(s[Free(t)].entries)
    ensures records == RecordsOf(Some(s))
  {
    forall t ensures t in RecordsOf(Some(s)) <==> t in records {
      RecordsAt(s, t);
    }
    forall t | t in records ensures RecordsOf(Some(s))[t] == records[t] {
      RecordsAt(s, t);
    }
  }

  // ----- objects -----

  function ObjectFields(o: ObjectDefinition): Fields {
    map[TypeKey := o.kind, SourceKey := o.source, LayoutKey := o.layout, ChunkerKey := o.chunker,
        RawLeavesKey := FormatBool(o.rawLeaves), HashFuncKey := o.hashFunc, MaxLinksKey := Itoa(o.maxLinks)]
  }

  function ObjectOf(f: Fields): ObjectDefinition {
    ObjectDefinition(Field(f, TypeKey), Field(f, SourceKey), Field(f, LayoutKey), Field(f, ChunkerKey),
                     ParseBool(Field(f, RawLeavesKey)), Field(f, HashFuncKey),
                     match Atoi(Field(f, MaxLinksKey)) case Some(n) => n case None => 0)
  }

  lemma ObjectReadsBack(o: ObjectDefinition)
    ensures ObjectOf(ObjectFields(o)) == o
  {
    AtoiInverse(o.maxLinks);
  }

  function AllObjectFields(objects: map<string, ObjectDefinition>): map<string, Fields> {
    map t | t in objects :: ObjectFields(objects[t])
  }

  function ObjectsOf(records: map<string, Fields>): map<string, ObjectDefinition> {
    map t | t in records :: ObjectOf(records[t])
  }

  lemma ObjectsFrom(objects: map<string, ObjectDefinition>, fields: map<string, Fields>)
    requires fields.Keys == objects.Keys && forall t :: t in objects ==> ObjectOf(fields[t]) == objects[t]
    ensures ObjectsOf(fields) == objects
  {
  }

  lemma ObjectsReadBack(objects: map<string, ObjectDefinition>)
    ensures ObjectsOf(AllObjectFields(objects)) == objects
  {
    var fields := AllObjectFields(objects);
    forall t | t in objects ensures ObjectOf(fields[t]) == objects[t] {
      ObjectReadsBack(objects[t]);
    }
    ObjectsFrom(objects, fields);
  }

  // ----- scenario definitions -----

  function EncDefinitionWith(b: Bucket, objects: Result<Bucket, Error>, noSeed: bool, seed: Result<Bucket, Error>,
                             noBenchmark: bool, benchmark: Result<Bucket, Error>): (r: Result<Bucket, Error>) {
    var b1 :- Recreated(b, ObjectsKey, objects);
    var b2 :- ReplaceSub(b1, SeedKey, noSeed, seed);
    ReplaceSub(b2, BenchmarkKey, noBenchmark, benchmark)
  }

  function EncDefinition(b: Bucket, d: ScenarioDefinition): (r: Result<Bucket, Error>) {
    EncDefinitionWith(b, RecordEntries(AllObjectFields(d.objects)),
                      d.seed == map[], MapEntries(d.seed), d.benchmark == map[], MapEntries(d.benchmark))
  }

  function DefinitionOf(sub: Option<Bucket>): ScenarioDefinition {
    match sub
    case None => ScenarioDefinition(map[], map[], map[])
    case Some(s) =>
      ScenarioDefinition(ObjectsOf(RecordsOf(SubOf(s, ObjectsKey))), DecMap(s, SeedKey), DecMap(s, BenchmarkKey))
  }

  /** Empty actions are dropped. */
  function NormalDefinition(d: ScenarioDefinition): ScenarioDefinition {
    d.(seed := NonEmpty(d.seed), benchmark := NonEmpty(d.benchmark))
  }

  lemma DefinitionParts(b: Bucket, objects: Result<Bucket, Error>, noSeed: bool, seed: Result<Bucket, Error>,
                        noBenchmark: bool, benchmark: Result<Bucket, Error>)
    requires EncDefinitionWith(b, objects, noSeed, seed, noBenchmark, benchmark).Success?
    ensures var c := EncDefinitionWith(b, objects, noSeed, seed, noBenchmark, benchmark).value;
      && objects.Success? && SubOf(c, ObjectsKey) == Some(objects.value)
      && (if noSeed then SubOf(c, SeedKey) == None else seed.Success? && SubOf(c, SeedKey) == Some(seed.value))
      && (if noBenchmark then SubOf(c, BenchmarkKey) == None
          else benchmark.Success? && SubOf(c, BenchmarkKey) == Some(benchmark.value))
  {
    var b1 := Recreated(b, ObjectsKey, objects).value;
    var b2 := ReplaceSub(b1, SeedKey, noSeed, seed).value;
    var b3 := ReplaceSub(b2, BenchmarkKey, noBenchmark, benchmark).value;
    Kept(b1, b2, {SeedKey}, ObjectsKey);
    Kept(b2, b3, {BenchmarkKey}, ObjectsKey);
    Kept(b2, b3, {BenchmarkKey}, SeedKey);
  }

  lemma MapEntriesReadBack(m: map<string, string>)
    ensures m == map[] ==> MapOf(None) == NonEmpty(m)
    ensures MapEntries(m).Success? ==> MapOf(Some(MapEntries(m).value)) == NonEmpty(m)
  {
    UntextedTexted(NonEmpty(m));
  }

  lemma DefinitionReadsBack(b: Bucket, d: ScenarioDefinition)
    requires EncDefinition(b, d).Success?
    ensures DefinitionOf(Some(EncDefinition(b, d).value)) == NormalDefinition(d)
  {
    var records := AllObjectFields(d.objects);
    DefinitionParts(b, RecordEntries(records), d.seed == map[], MapEntries(d.seed),
                    d.benchmark == map[], MapEntries(d.benchmark));
    MapEntriesReadBack(d.seed);
    MapEntriesReadBack(d.benchmark);
    RecordsReadBack(records);
    ObjectsReadBack(d.objects);
  }

  method ReadScenarioDefinition(tx: Tx, p: Path) returns (d: ScenarioDefinition)
    requires Exists(tx.root, p)
    ensures d == DefinitionOf(SubOf(At(tx.root, p), DefinitionKey))
  {
    if !tx.Has(p, DefinitionKey) {
      return ScenarioDefinition(map[], map[], map[]);
    }
    SubExists(tx.root, p, DefinitionKey);
    var q := p + [DefinitionKey];
    var records := ReadRecords(tx, q, ObjectsKey);
    var seed := ReadMap(tx, q, SeedKey);
    var benchmark := ReadMap(tx, q, BenchmarkKey);
    return ScenarioDefinition(ObjectsOf(records), seed, benchmark);
  }

  method WriteObjects(tx: Tx, p: Path, objects: map<string, ObjectDefinition>) returns (err: Option<Error>)
    requires Exists(tx.root, p)
    modifies tx
    ensures Ran(old(tx.root), tx.root, p,
      Recreated(At(old(tx.root), p), ObjectsKey, RecordEntries(AllObjectFields(objects))), err)
  {
    ghost var r0 := tx.root;
    err := RecreateBucket(tx, p, ObjectsKey);
    if err.Some? {
      return;
    }
    ghost var r1 := tx.root;
    var records := AllObjectFields(objects);
    err := PutRecords(tx, p + [ObjectsKey], records);
    RanSub(r1, tx.root, p, ObjectsKey, RecordEntries(records), err);
    RanAfter(r0, r1, tx.root, p, InSub(At(r1, p), ObjectsKey, RecordEntries(records)), err);
  }

  /** Fills a scenario's definition bucket; empty actions leave the caller's maps. */
  method FillDefinition(tx: Tx, q: Path, d0: ScenarioDefinition) returns (err: Option<Error>, d: ScenarioDefinition)
    requires Exists(tx.root, q)
    modifies tx
    ensures Ran(old(tx.root), tx.root, q, EncDefinition(At(old(tx.root), q), d0), err)
    ensures err == None ==> d == NormalDefinition(d0)
  {
    ghost var r0 := tx.root;
    d := d0;
    err := WriteObjects(tx, q, d0.objects);
    if err.Some? {
      return;
    }
    ghost var r1 := tx.root;
    var seed, benchmark;
    err, seed := WriteMap(tx, q, SeedKey, d0.seed);
    ConfinedTrans(r0, r1, tx.root, q);
    if err.Some? {
      return;
    }
    ghost var r2 := tx.root;
    err, benchmark := WriteMap(tx, q, BenchmarkKey, d0.benchmark);
    ConfinedTrans(r0, r2, tx.root, q);
    d := d0.(seed := seed, benchmark := benchmark);
  }

  method WriteScenarioDefinition(tx: Tx, p: Path, d0: ScenarioDefinition)
      returns (err: Option<Error>, d: ScenarioDefinition)
    requires Exists(tx.root, p)
    modifies tx
    ensures Ran(old(tx.root), tx.root, p, Recreated(At(old(tx.root), p), DefinitionKey, EncDefinition(map[], d0)), err)
    ensures err == None ==> d == NormalDefinition(d0)
  {
    ghost var r0 := tx.root;
    d := d0;
    err := RecreateBucket(tx, p, DefinitionKey);
    if err.Some? {
      return;
    }
    ghost var r1 := tx.root;
    err, d := FillDefinition(tx, p + [DefinitionKey], d0);
    ghost var spec := EncDefinition(map[], d0);
    RanSub(r1, tx.root, p, DefinitionKey, spec, err);
    RanAfter(r0, r1, tx.root, p, InSub(At(r1, p), DefinitionKey, spec), err);
  }

  // ----- scenarios -----

  ghost function NormalScenario(s: Scenario): Scenario {
    s.(definition := NormalDefinition(s.definition), labels := SortedSet(Members(s.labels)))
  }

  /** Puts a scenario together from what was read. */
  function ScenarioFrom(id: string, times: Result<(Time, Time), Error>, definition: ScenarioDefinition,
                        labels: seq<string>): (r: Result<Scenario, Error>)
    ensures r.Success? ==> r.value.labels == labels
  {
    var t :- times;
    Success(Scenario(id, definition, labels, t.0, t.1))
  }

  ghost function DecScenario(x: Texts, id: string, b: Bucket): Result<Scenario, Error> {
    ScenarioFrom(if ValueOf(b, IdKey).Some? then TextOf(b, IdKey) else id, DecTimestamps(x, b),
                 DefinitionOf(SubOf(b, DefinitionKey)), DecLabels(b))
  }

  lemma ScenarioLabels(x: Texts, id: string, b: Bucket)
    requires DecScenario(x, id, b).Success?
    ensures DecScenario(x, id, b).value.labels == DecLabels(b)
  {
  }

  function EncScenarioWith(x: Texts, b: Bucket, s: Scenario, definition: Result<Bucket, Error>):
      (r: Result<Bucket, Error>) {
    var b1 :- EncTimestamps(x, b, s.createdAt, s.updatedAt);
    var b2 :- Recreated(b1, DefinitionKey, definition);
    ScenarioRest(b2, s)
  }

  function ScenarioRest(b: Bucket, s: Scenario): (r: Result<Bucket, Error>) {
    var b3 :- EncLabels(b, s.labels);
    PutAllIn(b3, map[IdKey := s.id])
  }

  function EncScenario(x: Texts, b: Bucket, s: Scenario): (r: Result<Bucket, Error>) {
    EncScenarioWith(x, b, s, EncDefinition(map[], s.definition))
  }

  lemma ScenarioFromSteps(x: Texts, s: Scenario, id: string, b1: Bucket, b2: Bucket, b3: Bucket, e: Bucket)
    requires x.TimesReadBack()
    requires ValueOf(b1, CreatedAtKey) == Some(x.time(s.createdAt)) && ValueOf(b1, UpdatedAtKey) == Some(x.time(s.updatedAt))
    requires SameExcept(b1, b2, {DefinitionKey}) && DefinitionOf(SubOf(b2, DefinitionKey)) == NormalDefinition(s.definition)
    requires SameExcept(b2, b3, {LabelsKey}) && LabelSet(b3) == Members(s.labels)
    requires SameExcept(b3, e, {IdKey}) && ValueOf(e, IdKey) == Some(s.id)
    ensures DecScenario(x, id, e) == Success(NormalScenario(s))
  {
    Kept(b1, b2, {DefinitionKey}, CreatedAtKey);
    Kept(b1, b2, {DefinitionKey}, UpdatedAtKey);
    Kept(b2, b3, {LabelsKey}, CreatedAtKey);
    Kept(b2, b3, {LabelsKey}, UpdatedAtKey);
    Kept(b2, b3, {LabelsKey}, DefinitionKey);
    Kept(b3, e, {IdKey}, CreatedAtKey);
    Kept(b3, e, {IdKey}, UpdatedAtKey);
    Kept(b3, e, {IdKey}, DefinitionKey);
    Kept(b3, e, {IdKey}, LabelsKey);
  }

  lemma ScenarioPartsReadBack(x: Texts, b: Bucket, s: Scenario, definition: Result<Bucket, Error>, id: string)
    requires x.TimesReadBack() && EncScenarioWith(x, b, s, definition).Success?
    requires definition.Success? ==> DefinitionOf(Some(definition.value)) == NormalDefinition(s.definition)
    ensures DecScenario(x, id, EncScenarioWith(x, b, s, definition).value) == Success(NormalScenario(s))
  {
    var b1 := EncTimestamps(x, b, s.createdAt, s.updatedAt).value;
    var b2 := Recreated(b1, DefinitionKey, definition).value;
    var b3 := EncLabels(b2, s.labels).value;
    var f := map[IdKey := s.id];
    TimestampsReadBack(x, b, s.createdAt, s.updatedAt);
    LabelsReadBack(b2, s.labels);
    ScenarioFromSteps(x, s, id, b1, b2, b3, b3 + Values(f));
  }

  /** A written scenario reads back in normal form, whatever the bucket held before. */
  lemma ScenarioReadsBack(x: Texts, b: Bucket, s: Scenario, id: string)
    requires x.TimesReadBack() && EncScenario(x, b, s).Success?
    ensures DecScenario(x, id, EncScenario(x, b, s).value) == Success(NormalScenario(s))
  {
    var definition := EncDefinition(map[], s.definition);
    if definition.Success? {
      DefinitionReadsBack(map[], s.definition);
    }
    ScenarioPartsReadBack(x, b, s, definition, id);
  }

  method ReadScenario(x: Texts, tx: Tx, p: Path, id: string) returns (r: Result<Scenario, Error>)
    requires Exists(tx.root, p)
    ensures r == DecScenario(x, id, At(tx.root, p))
  {
    var times := ReadTimestamps(x, tx, p);
    if times.Failure? {
      return Failure(times.error);
    }
    var definition := ReadScenarioDefinition(tx, p);
    var labels := ReadLabels(tx, p);
    var f := ReadFields(tx, p);
    return Success(Scenario(if IdKey in f then f[IdKey] else id, definition, labels, times.value.0, times.value.1));
  }

  /** The fields written after the definition. */
  method WriteScenarioRest(tx: Tx, p: Path, s: Scenario) returns (err: Option<Error>)
    requires Exists(tx.root, p)
    modifies tx
    ensures Ran(old(tx.root), tx.root, p, ScenarioRest(At(old(tx.root), p), s), err)
  {
    ghost var r0 := tx.root;
    err := WriteLabels(tx, p, s.labels);
    if err.Some? {
      return;
    }
    ghost var r1 := tx.root;
    err := PutAll(tx, p, map[IdKey := s.id]);
    ConfinedTrans(r0, r1, tx.root, p);
  }

  method WriteScenario(x: Texts, tx: Tx, p: Path, s0: Scenario) returns (err: Option<Error>, s: Scenario)
    requires Exists(tx.root, p)
    modifies tx
    ensures Ran(old(tx.root), tx.root, p, EncScenario(x, At(old(tx.root), p), s0), err)
    ensures err == None ==> s == s0.(definition := NormalDefinition(s0.definition))
  {
    ghost var r0 := tx.root;
    s := s0;
    err := WriteTimestamps(x, tx, p, s0.createdAt, s0.updatedAt);
    if err.Some? {
      return;
    }
    ghost var r1 := tx.root;
    var definition;
    err, definition := WriteScenarioDefinition(tx, p, s0.definition);
    ConfinedTrans(r0, r1, tx.root, p);
    if err.Some? {
      return;
    }
    s := s0.(definition := definition);
    ghost var r2 := tx.root;
    err := WriteScenarioRest(tx, p, s0);
    ConfinedTrans(r0, r2, tx.root, p);
  }
}
