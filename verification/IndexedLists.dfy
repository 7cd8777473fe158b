/** Lists kept in sub-buckets named "0", "1", and so on, read by walking the indices until
    one is missing. */
module IndexedLists {
  import opened GoStrings
  import opened Results
  import opened Numbers
  import opened Buckets

  function Index(i: nat): Key {
    Free(Itoa(i))
  }

  lemma IndexInjective(i: nat, j: nat)
    requires Index(i) == Index(j)
    ensures i == j
  {
    ItoaInjective(i, j);
  }

  lemma IndicesDistinct(n: nat)
    ensures forall j: nat :: j != n ==> Index(j) != Index(n)
  {
    forall j: nat | j != n ensures Index(j) != Index(n) {
      if Index(j) == Index(n) {
        IndexInjective(j, n);
      }
    }
  }

  /** Exactly the indices below `n` are in use. */
  ghost predicate IndexedTo(d: Bucket, n: nat) {
    forall j: nat :: Index(j) in d <==> j < n
  }

  // ----- writing -----

  /** A new bucket for one entry. */
  function AddEntry(b: Bucket, i: nat, contents: Result<Bucket, Error>): Result<Bucket, Error> {
    var c :- CreateIn(b, Index(i));
    InSub(c, Index(i), contents)
  }

  /** The entries of a list under their indices. */
  function EncAll<T>(vs: seq<T>, enc: T -> Result<Bucket, Error>): Result<Bucket, Error> {
    if vs == [] then Success(map[])
    else
      var d :- EncAll(vs[..|vs| - 1], enc);
      var e :- enc(vs[|vs| - 1]);
      Success(d[Index(|vs| - 1) := Sub(e)])
  }

  lemma {:induction false} EncAllShape<T>(vs: seq<T>, enc: T -> Result<Bucket, Error>)
    requires EncAll(vs, enc).Success?
    ensures IndexedTo(EncAll(vs, enc).value, |vs|)
  {
    if vs != [] {
      EncAllShape(vs[..|vs| - 1], enc);
      IndicesDistinct(|vs| - 1);
    }
  }

  lemma {:induction false} EncAllAt<T>(vs: seq<T>, enc: T -> Result<Bucket, Error>, i: nat)
    requires EncAll(vs, enc).Success? && i < |vs|
    ensures enc(vs[i]).Success? && SubOf(EncAll(vs, enc).value, Index(i)) == Some(enc(vs[i]).value)
  {
    if i < |vs| - 1 {
      EncAllAt(vs[..|vs| - 1], enc, i);
      IndicesDistinct(|vs| - 1);
    }
  }

  lemma {:induction false} PrefixFails<T>(vs: seq<T>, enc: T -> Result<Bucket, Error>, i: nat)
    requires i <= |vs| && EncAll(vs[..i], enc).Failure?
    ensures EncAll(vs, enc) == EncAll(vs[..i], enc)
    decreases |vs| - i
  {
    if i < |vs| {
      PrefixGrows(vs, i);
      PrefixFails(vs, enc, i + 1);
    } else {
      assert vs[..i] == vs;
    }
  }

  /** Creating the next entry's bucket and filling it is what comes next in the list. */
  lemma NextEntry<T>(vs: seq<T>, enc: T -> Result<Bucket, Error>, i: nat, d: Bucket)
    requires i < |vs| && EncAll(vs[..i], enc) == Success(d)
    ensures EncAll(vs[..i + 1], enc) == AddEntry(d, i, enc(vs[i]))
    ensures AddEntry(d, i, enc(vs[i])).Failure? ==> EncAll(vs, enc) == AddEntry(d, i, enc(vs[i]))
  {
    PrefixGrows(vs, i);
    EncAllShape(vs[..i], enc);
    var e := enc(vs[i]);
    if e.Success? {
      assert d[Index(i) := Sub(map[])][Index(i) := Sub(e.value)] == d[Index(i) := Sub(e.value)];
    } else {
      PrefixFails(vs, enc, i + 1);
    }
  }

  // ----- reading -----

  /** The keys the walk has not reached at index `i`. */
  ghost function Beyond(d: Bucket, i: nat): set<Key> {
    d.Keys - set j: nat | j < i :: Index(j)
  }

  lemma WalkAdvances(d: Bucket, i: nat)
    requires Index(i) in d
    ensures |Beyond(d, i + 1)| < |Beyond(d, i)|
  {
    IndicesDistinct(i);
    assert Index(i) in Beyond(d, i);
    assert Beyond(d, i + 1) == Beyond(d, i) - {Index(i)};
  }

  /** The walk from index `i`: it always ends, since every index it finds is a new key. */
  ghost function WalkFrom<T(!new)>(d: Bucket, i: nat, dec: Bucket -> Result<T, Error>): (r: Result<seq<T>, Error>)
    decreases |Beyond(d, i)|
  {
    if !HasSub(d, Index(i)) then Success([])
    else
      WalkAdvances(d, i);
      var v :- dec(d[Index(i)].entries);
      var rest :- WalkFrom(d, i + 1, dec);
      Success([v] + rest)
  }

  ghost predicate HoldsAt<T(!new)>(d: Bucket, i: nat, dec: Bucket -> Result<T, Error>, v: T) {
    HasSub(d, Index(i)) && dec(d[Index(i)].entries) == Success(v)
  }

  ghost predicate AllHeld<T(!new)>(d: Bucket, i: nat, dec: Bucket -> Result<T, Error>, values: seq<T>) {
    && !HasSub(d, Index(i + |values|))
    && forall j: nat :: j < |values| ==> HoldsAt(d, i + j, dec, values[j])
  }

  /** The walk collects the values in index order: "10" comes after "9", not after "1". */
  lemma {:induction false} WalkCollects<T(!new)>(d: Bucket, values: seq<T>, i: nat, dec: Bucket -> Result<T, Error>)
    requires AllHeld(d, i, dec, values)
    ensures WalkFrom(d, i, dec) == Success(values)
    decreases |values|
  {
    if values != [] {
      var rest := values[1..];
      forall j: nat | j < |rest| ensures HoldsAt(d, i + 1 + j, dec, rest[j]) {
        assert HoldsAt(d, i + (j + 1), dec, values[j + 1]);
      }
      WalkCollects(d, rest, i + 1, dec);
      assert HoldsAt(d, i + 0, dec, values[0]);
      assert values == [values[0]] + rest;
    }
  }

  /** What a walk that has collected `done` so far has still to deliver. */
  ghost predicate Continues<T(!new)>(all: Result<seq<T>, Error>, done: seq<T>, rest: Result<seq<T>, Error>) {
    all == match rest case Success(vs) => Success(done + vs) case Failure(e) => Failure(e)
  }

  lemma ContinuesStart<T(!new)>(all: Result<seq<T>, Error>)
    ensures Continues(all, [], all)
  {
    if all.Success? {
      assert [] + all.value == all.value;
    }
  }

  lemma ContinuesStep<T(!new)>(all: Result<seq<T>, Error>, done: seq<T>, d: Bucket, i: nat, dec: Bucket -> Result<T, Error>)
    requires Continues(all, done, WalkFrom(d, i, dec)) && HasSub(d, Index(i))
    ensures var v := dec(d[Index(i)].entries);
      if v.Failure? then all == Failure(v.error) else Continues(all, done + [v.value], WalkFrom(d, i + 1, dec))
  {
    var rest := WalkFrom(d, i + 1, dec);
    var v := dec(d[Index(i)].entries);
    if v.Success? && rest.Success? {
      assert done + ([v.value] + rest.value) == done + [v.value] + rest.value;
    }
  }

  lemma ContinuesEnd<T(!new)>(all: Result<seq<T>, Error>, done: seq<T>, d: Bucket, i: nat, dec: Bucket -> Result<T, Error>)
    requires Continues(all, done, WalkFrom(d, i, dec)) && !HasSub(d, Index(i))
    ensures all == Success(done)
  {
    assert done + [] == done;
  }
}
