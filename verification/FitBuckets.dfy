/** Which writes into the buckets that the store makes succeed. */
module FitBuckets {
  import opened Results
  import opened Records
  import opened Buckets
  import opened MetadataHelpers

  /** Every fixed name holds what it is for: a value or a bucket. */
  ghost predicate Fit(b: Bucket) {
    forall k :: k in b && k.Fixed? ==> (b[k].Sub? <==> SubName(k))
  }

  /** The errors of the bucket layer, as against those of the store. */
  predicate OfBuckets(e: Error) {
    e != NotFound && e != AlreadyExists && e != InvalidArgument && e != Malformed
  }

  ghost predicate Settles(r: Result<Bucket, Error>, writable: bool) {
    (r.Success? <==> writable) && (r.Failure? ==> OfBuckets(r.error))
  }

  ghost predicate Agrees(r: Result<Bucket, Error>, writable: bool) {
    Settles(r, writable) && (r.Success? ==> Fit(r.value))
  }

  lemma PutAllFits(b: Bucket, f: map<Key, string>)
    requires Fit(b) && forall k :: k in f ==> k.Fixed? && !SubName(k)
    ensures Agrees(PutAllIn(b, f), true)
    ensures forall k :: k !in f ==> SubOf(b + Values(f), k) == SubOf(b, k) && ValueOf(b + Values(f), k) == ValueOf(b, k)
  {
  }

  lemma RecreatedFits(b: Bucket, k: Key, entries: Result<Bucket, Error>)
    requires Fit(b) && SubName(k) && Settles(entries, entries.Success?)
    ensures Agrees(Recreated(b, k, entries), entries.Success?)
  {
  }

  lemma ReplaceSubFits(b: Bucket, k: Key, empty: bool, entries: Result<Bucket, Error>)
    requires Fit(b) && SubName(k) && Settles(entries, entries.Success?)
    ensures Agrees(ReplaceSub(b, k, empty, entries), empty || entries.Success?)
  {
  }

  lemma LabelsFit(b: Bucket, labels: seq<string>)
    requires Fit(b)
    ensures Agrees(EncLabels(b, labels), "" !in labels)
  {
    ReplaceSubFits(b, LabelsKey, labels == [], PutLabelsIn(labels));
  }

  lemma TimestampsFit(x: Texts, b: Bucket, created: Time, updated: Time)
    requires Fit(b)
    ensures Agrees(EncTimestamps(x, b, created, updated), true)
  {
    PutAllFits(b, map[CreatedAtKey := x.time(created), UpdatedAtKey := x.time(updated)]);
  }
}
