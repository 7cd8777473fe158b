/** The meaning of nested key/value buckets, and a transaction that changes them in place.

    A bucket is a finite map from keys to values or sub-buckets.  The handle of a bucket
    inside a transaction is the path that leads to it from the root. */
module Buckets {
  import opened GoStrings
  import opened Results

  /** A key: one of the fixed names listed below, by number, or a text that varies, such as
      an id, a label, an object name or an index.  Apart from report indexes, which are
      numerals, no bucket of the store holds keys of both sorts. */
  datatype Key = Fixed(number: nat) | Free(text: string)

  // Names of sub-buckets.
  const VersionKey := Fixed(0)
  const ClustersKey := Fixed(1)
  const NodesKey := Fixed(2)
  const ScenariosKey := Fixed(3)
  const BenchmarksKey := Fixed(4)
  const ExperimentsKey := Fixed(5)
  const ObjectsKey := Fixed(6)
  const SeedKey := Fixed(7)
  const BenchmarkKey := Fixed(8)
  const ClusterKey := Fixed(9)
  const ScenarioKey := Fixed(10)
  const PlanKey := Fixed(11)
  const LabelsKey := Fixed(12)
  const DefinitionKey := Fixed(13)

  // Names of values.
  const SizeKey := Fixed(14)
  const InstanceTypeKey := Fixed(15)
  const RegionKey := Fixed(16)
  const TypeKey := Fixed(17)
  const SourceKey := Fixed(18)
  const LayoutKey := Fixed(19)
  const ChunkerKey := Fixed(20)
  const RawLeavesKey := Fixed(21)
  const HashFuncKey := Fixed(22)
  const MaxLinksKey := Fixed(23)
  const AddressKey := Fixed(24)
  const AgentPortKey := Fixed(25)
  const AppPortKey := Fixed(26)
  const TransportsKey := Fixed(27)
  const MuxersKey := Fixed(28)
  const SecurityTransportsKey := Fixed(29)
  const RoutingKey := Fixed(30)
  const SubjectKey := Fixed(31)
  const ReportKey := Fixed(32)
  const IdKey := Fixed(33)
  const StatusKey := Fixed(34)
  const CreatedAtKey := Fixed(35)
  const UpdatedAtKey := Fixed(36)
  const GitReferenceKey := Fixed(37)

  /** The name is used for sub-buckets only; the other fixed names are used for values only. */
  predicate SubName(k: Key) {
    k.Fixed? && k.number < 14
  }

  datatype Entry = Value(bytes: string) | Sub(entries: map<Key, Entry>)

  type Bucket = map<Key, Entry>

  type Path = seq<Key>

  const EMPTY: Key := Free("")

  datatype Error =
    | NotFound
    | AlreadyExists
    | InvalidArgument
    | KeyRequired
    | BucketNameRequired
    | BucketExists
    | BucketNotFound
    | IncompatibleValue
    | Malformed
    | NotWritable
    | External

  // ----- one bucket -----

  predicate HasSub(b: Bucket, k: Key) {
    k in b && b[k].Sub?
  }

  /** `bkt.Bucket(k)`, nil being None. */
  function SubOf(b: Bucket, k: Key): Option<Bucket> {
    if HasSub(b, k) then Some(b[k].entries) else None
  }

  /** `bkt.Get(k)`, nil being None. */
  function ValueOf(b: Bucket, k: Key): Option<string> {
    if k in b && b[k].Value? then Some(b[k].bytes) else None
  }

  /** The text under `k`, or the zero string. */
  function TextOf(b: Bucket, k: Key): string {
    if k in b && b[k].Value? then b[k].bytes else ""
  }

  function PutIn(b: Bucket, k: Key, v: string): Result<Bucket, Error> {
    if k == EMPTY then Failure(KeyRequired)
    else if HasSub(b, k) then Failure(IncompatibleValue)
    else Success(b[k := Value(v)])
  }

  function CreateIn(b: Bucket, k: Key): Result<Bucket, Error> {
    if k == EMPTY then Failure(BucketNameRequired)
    else if HasSub(b, k) then Failure(BucketExists)
    else if k in b then Failure(IncompatibleValue)
    else Success(b[k := Sub(map[])])
  }

  function DeleteIn(b: Bucket, k: Key): Result<Bucket, Error> {
    if k !in b then Failure(BucketNotFound)
    else if !HasSub(b, k) then Failure(IncompatibleValue)
    else Success(b - {k})
  }

  // ----- a bucket inside a tree -----

  predicate Exists(root: Bucket, p: Path)
    decreases p
  {
    p != [] ==> HasSub(root, p[0]) && Exists(root[p[0]].entries, p[1..])
  }

  function At(root: Bucket, p: Path): Bucket
    requires Exists(root, p)
    decreases p
  {
    if p == [] then root else At(root[p[0]].entries, p[1..])
  }

  function SetAt(root: Bucket, p: Path, b: Bucket): Bucket
    requires Exists(root, p)
    decreases p
  {
    if p == [] then b else root[p[0] := Sub(SetAt(root[p[0]].entries, p[1..], b))]
  }

  lemma {:induction false} SetThenAt(root: Bucket, p: Path, b: Bucket)
    requires Exists(root, p)
    ensures Exists(SetAt(root, p, b), p) && At(SetAt(root, p, b), p) == b
    decreases p
  {
    if p != [] {
      SetThenAt(root[p[0]].entries, p[1..], b);
    }
  }

  lemma {:induction false} SetThenSet(root: Bucket, p: Path, a: Bucket, b: Bucket)
    requires Exists(root, p)
    ensures Exists(SetAt(root, p, a), p) && SetAt(SetAt(root, p, a), p, b) == SetAt(root, p, b)
    decreases p
  {
    if p != [] {
      SetThenSet(root[p[0]].entries, p[1..], a, b);
    }
  }

  lemma {:induction false} SetSame(root: Bucket, p: Path)
    requires Exists(root, p)
    ensures SetAt(root, p, At(root, p)) == root
    decreases p
  {
    if p != [] {
      SetSame(root[p[0]].entries, p[1..]);
      assert root[p[0]] == Sub(root[p[0]].entries);
    }
  }

  /** Going down one path and then another. */
  lemma {:induction false} AtConcat(root: Bucket, p: Path, s: Path)
    ensures Exists(root, p + s) <==> Exists(root, p) && Exists(At(root, p), s)
    ensures Exists(root, p + s) ==> At(root, p + s) == At(At(root, p), s)
    ensures Exists(root, p + s) ==>
      forall b :: SetAt(root, p + s, b) == SetAt(root, p, SetAt(At(root, p), s, b))
    decreases p
  {
    if p == [] {
      assert p + s == s;
    } else {
      assert (p + s)[1..] == p[1..] + s;
      if HasSub(root, p[0]) {
        AtConcat(root[p[0]].entries, p[1..], s);
      }
    }
  }

  // ----- running a write -----

  /** From `r0` to `r1` only the bucket at `p` may have changed. */
  ghost predicate Confined(r0: Bucket, r1: Bucket, p: Path) {
    Exists(r0, p) && Exists(r1, p) && r1 == SetAt(r0, p, At(r1, p))
  }

  /** A write confined to `p` that does to the bucket there what `spec` says, or fails
      the way `spec` says. */
  ghost predicate Ran(r0: Bucket, r1: Bucket, p: Path, spec: Result<Bucket, Error>, err: Option<Error>) {
    && Confined(r0, r1, p)
    && match spec
       case Success(b) => err == None && At(r1, p) == b
       case Failure(e) => err == Some(e)
  }

  lemma ConfinedRefl(r: Bucket, p: Path)
    requires Exists(r, p)
    ensures Confined(r, r, p)
  {
    SetSame(r, p);
  }

  lemma ConfinedSet(r: Bucket, p: Path, b: Bucket)
    requires Exists(r, p)
    ensures Confined(r, SetAt(r, p, b), p) && At(SetAt(r, p, b), p) == b
  {
    SetThenAt(r, p, b);
  }

  lemma ConfinedTrans(r0: Bucket, r1: Bucket, r2: Bucket, p: Path)
    requires Confined(r0, r1, p) && Confined(r1, r2, p)
    ensures Confined(r0, r2, p)
  {
    SetThenSet(r0, p, At(r1, p), At(r2, p));
  }

  /** What a write to the sub-bucket `k` does to the bucket that holds it. */
  function InSub(b: Bucket, k: Key, spec: Result<Bucket, Error>): Result<Bucket, Error> {
    match spec
    case Success(c) => Success(b[k := Sub(c)])
    case Failure(e) => Failure(e)
  }

  lemma SubExists(r: Bucket, p: Path, k: Key)
    requires Exists(r, p)
    ensures Exists(r, p + [k]) <==> HasSub(At(r, p), k)
    ensures HasSub(At(r, p), k) ==> At(r, p + [k]) == At(r, p)[k].entries
  {
    AtConcat(r, p, [k]);
    assert [k][1..] == [];
  }

  lemma ConfinedSub(r0: Bucket, r1: Bucket, p: Path, k: Key)
    requires Confined(r0, r1, p + [k])
    ensures Confined(r0, r1, p) && At(r1, p) == At(r0, p)[k := Sub(At(r1, p + [k]))]
  {
    AtConcat(r0, p, [k]);
    AtConcat(r1, p, [k]);
    var c := At(r1, p + [k]);
    assert [k][1..] == [];
    assert SetAt(At(r0, p), [k], c) == At(r0, p)[k := Sub(c)];
    ConfinedSet(r0, p, At(r0, p)[k := Sub(c)]);
  }

  lemma RanSub(r0: Bucket, r1: Bucket, p: Path, k: Key, spec: Result<Bucket, Error>, err: Option<Error>)
    requires Ran(r0, r1, p + [k], spec, err)
    ensures Exists(r0, p) && Ran(r0, r1, p, InSub(At(r0, p), k, spec), err)
  {
    AtConcat(r0, p, [k]);
    ConfinedSub(r0, r1, p, k);
  }

  lemma RanAfter(r0: Bucket, r1: Bucket, r2: Bucket, p: Path, spec: Result<Bucket, Error>, err: Option<Error>)
    requires Confined(r0, r1, p) && Ran(r1, r2, p, spec, err)
    ensures Ran(r0, r2, p, spec, err)
  {
    ConfinedTrans(r0, r1, r2, p);
  }

  // ----- a transaction -----

  class Tx {
    var root: Bucket

    constructor (root: Bucket)
      ensures this.root == root
    {
      this.root := root;
    }

    /** The bucket a handle points to. */
    function Read(p: Path): (b: Bucket)
      requires Exists(root, p)
      reads this
      ensures b == At(root, p)
    {
      At(root, p)
    }

    /** `bkt.Bucket(k) != nil`. */
    predicate Has(p: Path, k: Key)
      requires Exists(root, p)
      reads this
    {
      HasSub(Read(p), k)
    }

    /** Replaces the bucket a handle points to. */
    method Write(p: Path, b: Bucket)
      requires Exists(root, p)
      modifies this
      ensures Confined(old(root), root, p) && At(root, p) == b
    {
      ghost var r := root;
      root := SetAt(root, p, b);
      ConfinedSet(r, p, b);
    }

    method Put(p: Path, k: Key, v: string) returns (err: Option<Error>)
      requires Exists(root, p)
      modifies this
      ensures Ran(old(root), root, p, PutIn(At(old(root), p), k, v), err)
    {
      ConfinedRefl(root, p);
      var r := PutIn(Read(p), k, v);
      if r.Failure? {
        return Some(r.error);
      }
      Write(p, r.value);
      return None;
    }

    method CreateBucket(p: Path, k: Key) returns (err: Option<Error>)
      requires Exists(root, p)
      modifies this
      ensures Ran(old(root), root, p, CreateIn(At(old(root), p), k), err)
      ensures err == None ==> Exists(root, p + [k]) && At(root, p + [k]) == map[]
    {
      ConfinedRefl(root, p);
      var r := CreateIn(Read(p), k);
      if r.Failure? {
        return Some(r.error);
      }
      Write(p, r.value);
      SubExists(root, p, k);
      return None;
    }

    method DeleteBucket(p: Path, k: Key) returns (err: Option<Error>)
      requires Exists(root, p)
      modifies this
      ensures Ran(old(root), root, p, DeleteIn(At(old(root), p), k), err)
    {
      ConfinedRefl(root, p);
      var r := DeleteIn(Read(p), k);
      if r.Failure? {
        return Some(r.error);
      }
      Write(p, r.value);
      return None;
    }

    /** The varying keys of a bucket, in the order `ForEach` visits them. */
    method KeysInOrder(p: Path) returns (keys: seq<string>)
      requires Exists(root, p)
      ensures StrictlySorted(keys) && forall t :: t in keys <==> Free(t) in At(root, p)
    {
      var collected: seq<string> := [];
      var pending := Read(p).Keys;
      while pending != {}
        invariant pending <= At(root, p).Keys && NoDuplicates(collected)
        invariant forall t :: t in collected <==> Free(t) in At(root, p) && Free(t) !in pending
        decreases |pending|
      {
        var k :| k in pending;
        if k.Free? {
          collected := collected + [k.text];
        }
        pending := pending - {k};
      }
      assert forall t :: t in collected <==> Free(t) in At(root, p);
      SortOfDistinct(collected);
      keys := Sort(collected);
    }
  }
}
