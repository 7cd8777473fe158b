/** metadata/helpers.go: timestamps, string maps and labels in buckets.

    For each writer, a function says what it does to the bucket; the method that follows
    the source is proved to do that in place, inside a transaction. */
module MetadataHelpers {
  import opened GoStrings
  import opened Results
  import opened Records
  import opened Buckets

  /** The JSON forms of reports and experiment definitions. */
  datatype Json = Json(
    report: Report -> string, reportOf: string -> Option<Report>,
    trials: seq<string> -> string, trialsOf: string -> Option<seq<string>>)
  {
    ghost predicate ReadsBack() {
      (forall r :: reportOf(report(r)) == Some(r)) && (forall t :: trialsOf(trials(t)) == Some(t))
    }
  }

  /** Text forms that come from other libraries. */
  datatype Texts = Texts(
    time: Time -> string, timeOf: string -> Option<Time>,
    cid: Cid -> string, cidOf: string -> Option<Cid>, json: Json)
  {
    ghost predicate TimesReadBack() {
      forall t :: timeOf(time(t)) == Some(t)
    }

    /** What the code relies on: instants and JSON read back.  CIDs need not. */
    ghost predicate Lossless() {
      TimesReadBack() && json.ReadsBack()
    }
  }

  /** Outside `keys`, the two buckets hold the same entries. */
  ghost predicate SameExcept(b: Bucket, c: Bucket, keys: set<Key>) {
    forall k :: k !in keys ==> (k in c <==> k in b) && (k in b ==> c[k] == b[k])
  }

  /** Looking up a key that a write leaves alone. */
  lemma Kept(b: Bucket, c: Bucket, written: set<Key>, k: Key)
    requires SameExcept(b, c, written) && k !in written
    ensures SubOf(c, k) == SubOf(b, k) && ValueOf(c, k) == ValueOf(b, k) && TextOf(c, k) == TextOf(b, k)
  {
  }

  // ----- fields and recreated buckets -----

  function Values(m: map<Key, string>): Bucket {
    map k | k in m :: Value(m[k])
  }

  /** Puts every field; the keys are non-empty constants. */
  function PutAllIn(b: Bucket, fields: map<Key, string>): (r: Result<Bucket, Error>) {
    if exists k :: k in fields && HasSub(b, k) then Failure(IncompatibleValue)
    else Success(b + Values(fields))
  }

  /** `c` is `b` with the entries of `m` outside `pending` put over it. */
  ghost predicate PutExcept(b: Bucket, c: Bucket, m: map<Key, string>, pending: set<Key>) {
    && (forall k :: k in c <==> k in b || (k in m && k !in pending))
    && (forall k :: k in c ==> c[k] == if k in m && k !in pending then Value(m[k]) else b[k])
  }

  lemma PutAllDone(b: Bucket, c: Bucket, m: map<Key, string>)
    requires PutExcept(b, c, m, {})
    ensures c == b + Values(m)
  {
  }

  method PutAll(tx: Tx, p: Path, fields: map<Key, string>) returns (err: Option<Error>)
    requires Exists(tx.root, p) && EMPTY !in fields
    modifies tx
    ensures Ran(old(tx.root), tx.root, p, PutAllIn(At(old(tx.root), p), fields), err)
  {
    ghost var r0, b := tx.root, At(tx.root, p);
    ConfinedRefl(tx.root, p);
    var pending := fields.Keys;
    while pending != {}
      invariant pending <= fields.Keys && Confined(r0, tx.root, p)
      invariant forall k :: k in fields && k !in pending ==> !HasSub(b, k)
      invariant PutExcept(b, At(tx.root, p), fields, pending)
      decreases |pending|
    {
      var k :| k in pending;
      ghost var r1 := tx.root;
      err := tx.Put(p, k, fields[k]);
      ConfinedTrans(r0, r1, tx.root, p);
      if err.Some? {
        return;
      }
      pending := pending - {k};
    }
    PutAllDone(b, At(tx.root, p), fields);
    return None;
  }

  /** The values a bucket holds, sub-buckets left out. */
  function FieldsOf(b: Bucket): map<Key, string> {
    map k | k in b && b[k].Value? :: b[k].bytes
  }

  function Field(fields: map<Key, string>, k: Key): string {
    if k in fields then fields[k] else ""
  }

  /** The `ForEach` loops that pick fields by name and skip sub-buckets. */
  method ReadFields(tx: Tx, p: Path) returns (fields: map<Key, string>)
    requires Exists(tx.root, p)
    ensures fields == FieldsOf(At(tx.root, p))
    ensures forall k :: Field(fields, k) == TextOf(At(tx.root, p), k)
  {
    fields := map[];
    var b := tx.Read(p);
    var pending := b.Keys;
    while pending != {}
      invariant pending <= b.Keys
      invariant forall k :: k in fields <==> k in b && k !in pending && b[k].Value?
      invariant forall k :: k in fields ==> fields[k] == b[k].bytes
      decreases |pending|
    {
      var k :| k in pending;
      pending := pending - {k};
      var v := ValueOf(b, k);
      if v.None? {
        continue;
      }
      fields := fields[k := v.value];
    }
  }

  function DropIn(b: Bucket, k: Key): (r: Result<Bucket, Error>)
    ensures r.Success? && SameExcept(b, r.value, {k}) && !HasSub(r.value, k)
  {
    if HasSub(b, k) then DeleteIn(b, k) else Success(b)
  }

  function RecreateIn(b: Bucket, k: Key): (r: Result<Bucket, Error>)
    ensures r.Success? ==> SameExcept(b, r.value, {k}) && SubOf(r.value, k) == Some(map[])
  {
    CreateIn(DropIn(b, k).value, k)
  }

  /** Replaces the sub-bucket `k` by a new one with these entries. */
  function Recreated(b: Bucket, k: Key, entries: Result<Bucket, Error>): (r: Result<Bucket, Error>)
    ensures r.Success? ==> SameExcept(b, r.value, {k})
    ensures r.Success? ==> entries.Success? && SubOf(r.value, k) == Some(entries.value)
  {
    var c :- RecreateIn(b, k);
    InSub(c, k, entries)
  }

  /** Deletes the sub-bucket if there is one. */
  method Drop(tx: Tx, p: Path, k: Key) returns (err: Option<Error>)
    requires Exists(tx.root, p)
    modifies tx
    ensures Ran(old(tx.root), tx.root, p, DropIn(At(old(tx.root), p), k), err)
  {
    ConfinedRefl(tx.root, p);
    if tx.Has(p, k) {
      err := tx.DeleteBucket(p, k);
      return;
    }
    return None;
  }

  method RecreateBucket(tx: Tx, p: Path, k: Key) returns (err: Option<Error>)
    requires Exists(tx.root, p)
    modifies tx
    ensures Ran(old(tx.root), tx.root, p, RecreateIn(At(old(tx.root), p), k), err)
    ensures err == None ==> Exists(tx.root, p + [k]) && At(tx.root, p + [k]) == map[]
  {
    ghost var r0 := tx.root;
    err := Drop(tx, p, k);
    ghost var r1 := tx.root;
    err := tx.CreateBucket(p, k);
    RanAfter(r0, r1, tx.root, p, CreateIn(At(r1, p), k), err);
  }

  // ----- timestamps -----

  function EncTimestamps(x: Texts, b: Bucket, created: Time, updated: Time): (r: Result<Bucket, Error>) {
    PutAllIn(b, map[CreatedAtKey := x.time(created), UpdatedAtKey := x.time(updated)])
  }

  method ReadTimestamps(x: Texts, tx: Tx, p: Path) returns (r: Result<(Time, Time), Error>)
    requires Exists(tx.root, p)
    ensures r == DecTimestamps(x, At(tx.root, p))
  {
    var created, updated := Time(0), Time(0);
    var v := ValueOf(tx.Read(p), CreatedAtKey);
    if v.Some? {
      var t := x.timeOf(v.value);
      if t.None? {
        return Failure(Malformed);
      }
      created := t.value;
    }
    v := ValueOf(tx.Read(p), UpdatedAtKey);
    if v.Some? {
      var t := x.timeOf(v.value);
      if t.None? {
        return Failure(Malformed);
      }
      updated := t.value;
    }
    return Success((created, updated));
  }

  function DecTimestamps(x: Texts, b: Bucket): Result<(Time, Time), Error> {
    var created :- DecTime(x, b, CreatedAtKey);
    var updated :- DecTime(x, b, UpdatedAtKey);
    Success((created, updated))
  }

  method WriteTimestamps(x: Texts, tx: Tx, p: Path, created: Time, updated: Time) returns (err: Option<Error>)
    requires Exists(tx.root, p)
    modifies tx
    ensures Ran(old(tx.root), tx.root, p, EncTimestamps(x, At(old(tx.root), p), created, updated), err)
  {
    err := PutAll(tx, p, map[CreatedAtKey := x.time(created), UpdatedAtKey := x.time(updated)]);
  }

  lemma TimestampsReadBack(x: Texts, b: Bucket, created: Time, updated: Time)
    requires x.TimesReadBack() && EncTimestamps(x, b, created, updated).Success?
    ensures var c := EncTimestamps(x, b, created, updated).value;
      && SameExcept(b, c, {CreatedAtKey, UpdatedAtKey})
      && ValueOf(c, CreatedAtKey) == Some(x.time(created)) && ValueOf(c, UpdatedAtKey) == Some(x.time(updated))
  {
  }

  /** Only their own keys decide what timestamps are read. */
  lemma TimesByFields(x: Texts, b: Bucket, c: Bucket)
    requires ValueOf(c, CreatedAtKey) == ValueOf(b, CreatedAtKey) && ValueOf(c, UpdatedAtKey) == ValueOf(b, UpdatedAtKey)
    ensures DecTimestamps(x, c) == DecTimestamps(x, b)
  {
  }

  function DecTime(x: Texts, b: Bucket, k: Key): Result<Time, Error> {
    match ValueOf(b, k)
    case None => Success(Time(0))
    case Some(v) => (match x.timeOf(v) case None => Failure(Malformed) case Some(t) => Success(t))
  }

  // ----- maps -----

  function NonEmpty(m: map<string, string>): map<string, string> {
    map k | k in m && m[k] != "" :: m[k]
  }

  /** A string map as bucket entries. */
  function Texted(m: map<string, string>): Bucket {
    map t | t in m :: Free(t) := Value(m[t])
  }

  /** The entries `writeMap` puts into the new bucket. */
  function MapEntries(m: map<string, string>): Result<Bucket, Error> {
    if "" in NonEmpty(m) then Failure(KeyRequired) else Success(Texted(NonEmpty(m)))
  }

  /** An empty list or map leaves no bucket; anything else goes into a new one. */
  function ReplaceSub(b: Bucket, name: Key, empty: bool, entries: Result<Bucket, Error>): (r: Result<Bucket, Error>)
    ensures r.Success? ==> SameExcept(b, r.value, {name})
    ensures r.Success? && !empty ==> entries.Success? && SubOf(r.value, name) == Some(entries.value)
    ensures r.Success? && empty ==> SubOf(r.value, name) == None
  {
    var dropped := DropIn(b, name).value;
    if empty then Success(dropped)
    else
      var created :- CreateIn(dropped, name);
      InSub(created, name, entries)
  }

  function EncMap(b: Bucket, name: Key, m: map<string, string>): (r: Result<Bucket, Error>) {
    ReplaceSub(b, name, m == map[], MapEntries(m))
  }

  /** The string map a bucket holds. */
  function Untexted(s: Bucket): map<string, string> {
    map k | k in s && k.Free? :: k.text := TextOf(s, k)
  }

  function MapOf(sub: Option<Bucket>): map<string, string> {
    match sub
    case None => map[]
    case Some(s) => Untexted(s)
  }

  function DecMap(b: Bucket, name: Key): map<string, string> {
    MapOf(SubOf(b, name))
  }

  lemma UntextedTexted(m: map<string, string>)
    ensures Untexted(Texted(m)) == m
  {
    SameMap(m, Texted(m));
  }

  /** A string map reads back without its empty values, and nothing stale survives. */
  lemma MapReadsBack(b: Bucket, name: Key, m: map<string, string>)
    requires EncMap(b, name, m).Success?
    ensures DecMap(EncMap(b, name, m).value, name) == NonEmpty(m)
  {
    UntextedTexted(NonEmpty(m));
  }

  method ReadMap(tx: Tx, p: Path, name: Key) returns (m: map<string, string>)
    requires Exists(tx.root, p)
    ensures m == DecMap(At(tx.root, p), name)
  {
    m := map[];
    if !tx.Has(p, name) {
      return;
    }
    SubExists(tx.root, p, name);
    var keys := tx.KeysInOrder(p + [name]);
    var s := tx.Read(p + [name]);
    for i := 0 to |keys|
      invariant forall t :: t in m <==> t in keys[..i]
      invariant forall t :: t in m ==> m[t] == TextOf(s, Free(t))
    {
      assert keys[..i + 1] == keys[..i] + [keys[i]];
      m := m[keys[i] := TextOf(s, Free(keys[i]))];
    }
    assert keys[..|keys|] == keys;
    SameMap(m, s);
  }

  lemma SameMap(m: map<string, string>, s: Bucket)
    requires forall t :: t in m <==> Free(t) in s
    requires forall t :: t in m ==> m[t] == TextOf(s, Free(t))
    ensures m == Untexted(s)
  {
    var n := Untexted(s);
    forall t ensures t in n <==> t in m {
      assert Free(t) in s ==> Free(t).text in n;
    }
    forall t | t in m ensures n[t] == m[t] {
      assert Free(t) in s && Free(t).Free?;
    }
  }

  /** `c` holds the entries of `m` outside `pending` and nothing else. */
  ghost predicate TextedExcept(c: Bucket, m: map<string, string>, pending: set<string>) {
    && (forall k :: k in c <==> k.Free? && k.text in m && k.text !in pending)
    && (forall k :: k in c ==> c[k] == Value(m[k.text]))
  }

  lemma TextedDone(c: Bucket, m: map<string, string>)
    requires TextedExcept(c, m, {})
    ensures c == Texted(m)
  {
  }

  /** The loop of `writeMap`: puts the non-empty values and deletes the empty ones. */
  method PutNonEmpty(tx: Tx, q: Path, m0: map<string, string>) returns (err: Option<Error>, m: map<string, string>)
    requires Exists(tx.root, q) && At(tx.root, q) == map[]
    modifies tx
    ensures Ran(old(tx.root), tx.root, q, MapEntries(m0), err)
    ensures err == None ==> m.Keys == NonEmpty(m0).Keys && forall k :: k in m ==> m[k] == m0[k]
  {
    ghost var r0 := tx.root;
    ConfinedRefl(r0, q);
    m, err := m0, None;
    ghost var kept := NonEmpty(m0);
    var pending := m0.Keys;
    while pending != {}
      invariant pending <= m0.Keys && Confined(r0, tx.root, q) && err == None
      invariant forall k :: k in m <==> k in m0 && (k in pending || m0[k] != "")
      invariant forall k :: k in m ==> m[k] == m0[k]
      invariant TextedExcept(At(tx.root, q), kept, pending)
      invariant "" in kept ==> "" in pending
      decreases |pending|
    {
      var k :| k in pending;
      if m0[k] == "" {
        m := m - {k};
      } else {
        ghost var r1 := tx.root;
        err := tx.Put(q, Free(k), m0[k]);
        ConfinedTrans(r0, r1, tx.root, q);
        if err.Some? {
          return;
        }
      }
      pending := pending - {k};
    }
    TextedDone(At(tx.root, q), kept);
  }

  /** Writes the non-empty values and drops the empty ones from the caller's map. */
  method WriteMap(tx: Tx, p: Path, name: Key, m0: map<string, string>)
      returns (err: Option<Error>, m: map<string, string>)
    requires Exists(tx.root, p) && name != EMPTY
    modifies tx
    ensures Ran(old(tx.root), tx.root, p, EncMap(At(old(tx.root), p), name, m0), err)
    ensures err == None ==> m == NonEmpty(m0)
  {
    ghost var r0 := tx.root;
    m := m0;
    err := Drop(tx, p, name);
    if |m| == 0 {
      assert m0 == map[];
      return;
    }
    ghost var r1 := tx.root;
    err := tx.CreateBucket(p, name);
    RanAfter(r0, r1, tx.root, p, CreateIn(At(r1, p), name), err);
    if err.Some? {
      return;
    }
    ghost var r2 := tx.root;
    err, m := PutNonEmpty(tx, p + [name], m0);
    RanSub(r2, tx.root, p, name, MapEntries(m0), err);
    RanAfter(r0, r2, tx.root, p, InSub(At(r2, p), name, MapEntries(m0)), err);
  }

  // ----- labels -----

  ghost function Members(labels: seq<string>): set<string> {
    set l | l in labels
  }

  function LabelEntries(labels: seq<string>): Bucket {
    map l | l in labels :: Free(l) := Value("")
  }

  /** The entries `writeLabels` puts into the new bucket. */
  function PutLabelsIn(labels: seq<string>): Result<Bucket, Error> {
    if "" in labels then Failure(KeyRequired) else Success(LabelEntries(labels))
  }

  function EncLabels(b: Bucket, labels: seq<string>): (r: Result<Bucket, Error>) {
    ReplaceSub(b, LabelsKey, labels == [], PutLabelsIn(labels))
  }

  function KeyTexts(s: Bucket): set<string> {
    set k | k in s && k.Free? :: k.text
  }

  function LabelsOf(sub: Option<Bucket>): set<string> {
    match sub
    case None => {}
    case Some(s) => KeyTexts(s)
  }

  /** The labels a bucket holds. */
  function LabelSet(b: Bucket): set<string> {
    LabelsOf(SubOf(b, LabelsKey))
  }

  /** Labels read back as a set, and nothing stale survives. */
  lemma LabelsReadBack(b: Bucket, labels: seq<string>)
    requires EncLabels(b, labels).Success?
    ensures LabelSet(EncLabels(b, labels).value) == Members(labels)
  {
    var s := LabelEntries(labels);
    forall l ensures l in KeyTexts(s) <==> l in labels {
      assert l in labels ==> Free(l) in s && Free(l).text == l;
    }
  }

  ghost function DecLabels(b: Bucket): seq<string> {
    SortedSet(LabelSet(b))
  }

  method ReadLabels(tx: Tx, p: Path) returns (labels: seq<string>)
    requires Exists(tx.root, p)
    ensures labels == DecLabels(At(tx.root, p))
  {
    labels := [];
    if tx.Has(p, LabelsKey) {
      SubExists(tx.root, p, LabelsKey);
      var keys := tx.KeysInOrder(p + [LabelsKey]);
      for i := 0 to |keys|
        invariant labels == keys[..i]
      {
        labels := labels + [keys[i]];
      }
      assert forall l :: l in LabelSet(At(tx.root, p)) <==> Free(l) in At(tx.root, p + [LabelsKey]);
      StrictlySortedUnique(labels, DecLabels(At(tx.root, p)));
    }
  }

  /** The loop of `writeLabels`. */
  method PutLabels(tx: Tx, q: Path, labels: seq<string>) returns (err: Option<Error>)
    requires Exists(tx.root, q) && At(tx.root, q) == map[]
    modifies tx
    ensures Ran(old(tx.root), tx.root, q, PutLabelsIn(labels), err)
  {
    ghost var r0 := tx.root;
    ConfinedRefl(r0, q);
    err := None;
    for i := 0 to |labels|
      invariant Confined(r0, tx.root, q) && "" !in labels[..i] && err == None
      invariant At(tx.root, q) == LabelEntries(labels[..i])
    {
      ghost var r1 := tx.root;
      err := tx.Put(q, Free(labels[i]), "");
      ConfinedTrans(r0, r1, tx.root, q);
      assert labels[..i + 1] == labels[..i] + [labels[i]];
      if err.Some? {
        return;
      }
    }
    assert labels[..|labels|] == labels;
  }

  method WriteLabels(tx: Tx, p: Path, labels: seq<string>) returns (err: Option<Error>)
    requires Exists(tx.root, p)
    modifies tx
    ensures Ran(old(tx.root), tx.root, p, EncLabels(At(old(tx.root), p), labels), err)
  {
    ghost var r0 := tx.root;
    err := Drop(tx, p, LabelsKey);
    if |labels| > 0 {
      ghost var r1 := tx.root;
      err := tx.CreateBucket(p, LabelsKey);
      RanAfter(r0, r1, tx.root, p, CreateIn(At(r1, p), LabelsKey), err);
      if err.Some? {
        return;
      }
      ghost var r2 := tx.root;
      err := PutLabels(tx, p + [LabelsKey], labels);
      RanSub(r2, tx.root, p, LabelsKey, PutLabelsIn(labels), err);
      RanAfter(r0, r2, tx.root, p, InSub(At(r2, p), LabelsKey, PutLabelsIn(labels)), err);
    }
  }
}
