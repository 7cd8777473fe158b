/** `sortQueryBuckets`: the nodes of a report grouped by the benchmark queries they match. */
module ReportBuckets {
  import opened GoStrings
  import opened QuerySyntax

  // ----- what a grouping is -----

  /** How often the report lists `id` under `q`. */
  function Times(queries: map<string, seq<string>>, q: string, id: string): nat {
    if q in queries then multiset(queries[q])[id] else 0
  }

  /** The bucket of a node listed under exactly these queries. */
  function BucketName(listed: seq<string>): string {
    if listed == [] then "-"
    else if |listed| == 1 then listed[0]
    else Call("and", Join(Sort(listed), " "))
  }

  ghost predicate Listed(queries: map<string, seq<string>>, id: string, listed: seq<string>) {
    forall q :: multiset(listed)[q] == Times(queries, q, id)
  }

  ghost predicate InBucket(queries: map<string, seq<string>>, id: string, name: string) {
    exists listed :: Listed(queries, id, listed) && name == BucketName(listed)
  }

  lemma OneBucket(queries: map<string, seq<string>>, id: string, a: string, b: string)
    requires InBucket(queries, id, a) && InBucket(queries, id, b)
    ensures a == b
  {
    var s :| Listed(queries, id, s) && a == BucketName(s);
    var t :| Listed(queries, id, t) && b == BucketName(t);
    assert forall q :: multiset(s)[q] == multiset(t)[q];
    assert multiset(s) == multiset(t);
    assert |s| == |multiset(s)| == |multiset(t)| == |t|;
    SortPermutation(s, t);
    if |s| == 1 {
      assert s[0] in multiset(t);
    }
  }

  /** Every node in exactly one bucket, no empty bucket, names and nodes sorted. */
  ghost predicate Grouping(nodes: set<string>, queries: map<string, seq<string>>,
                           names: seq<string>, buckets: map<string, seq<string>>) {
    && StrictlySorted(names)
    && (forall name :: name in names <==> name in buckets)
    && (forall name :: name in buckets ==> buckets[name] != [] && StrictlySorted(buckets[name]))
    && (forall name, id :: name in buckets && id in buckets[name] ==> id in nodes && InBucket(queries, id, name))
    && (forall id :: id in nodes ==> HasBucket(buckets, id))
  }

  ghost predicate HasBucket(buckets: map<string, seq<string>>, id: string) {
    exists name :: name in buckets && id in buckets[name]
  }

  lemma SameBucket(nodes: set<string>, queries: map<string, seq<string>>,
                   names1: seq<string>, buckets1: map<string, seq<string>>,
                   names2: seq<string>, buckets2: map<string, seq<string>>, name: string, id: string)
    requires Grouping(nodes, queries, names1, buckets1) && Grouping(nodes, queries, names2, buckets2)
    requires name in buckets1 && id in buckets1[name]
    ensures name in buckets2 && id in buckets2[name]
  {
    assert id in nodes;
    var other :| other in buckets2 && id in buckets2[other];
    OneBucket(queries, id, name, other);
  }

  /** A report has one grouping: the order in which maps are iterated cannot show. */
  lemma GroupingUnique(nodes: set<string>, queries: map<string, seq<string>>,
                       names1: seq<string>, buckets1: map<string, seq<string>>,
                       names2: seq<string>, buckets2: map<string, seq<string>>)
    requires Grouping(nodes, queries, names1, buckets1) && Grouping(nodes, queries, names2, buckets2)
    ensures names1 == names2 && buckets1 == buckets2
  {
    forall name | name in buckets1 ensures name in buckets2 {
      SameBucket(nodes, queries, names1, buckets1, names2, buckets2, name, buckets1[name][0]);
    }
    forall name | name in buckets2 ensures name in buckets1 {
      SameBucket(nodes, queries, names2, buckets2, names1, buckets1, name, buckets2[name][0]);
    }
    forall name | name in buckets1 ensures buckets1[name] == buckets2[name] {
      forall id ensures id in buckets1[name] <==> id in buckets2[name] {
        if id in buckets1[name] {
          SameBucket(nodes, queries, names1, buckets1, names2, buckets2, name, id);
        }
        if id in buckets2[name] {
          SameBucket(nodes, queries, names2, buckets2, names1, buckets1, name, id);
        }
      }
      StrictlySortedUnique(buckets1[name], buckets2[name]);
    }
    StrictlySortedUnique(names1, names2);
  }

  // ----- the code -----

  /** The elements of a map's key set, sorted. */
  method SortedKeys(keys: set<string>) returns (r: seq<string>)
    ensures StrictlySorted(r) && forall x :: x in r <==> x in keys
  {
    var collected: seq<string> := [];
    var pending := keys;
    while pending != {}
      invariant pending <= keys && NoDuplicates(collected)
      invariant forall x :: x in collected <==> x in keys && x !in pending
      decreases |pending|
    {
      var x :| x in pending;
      collected := collected + [x];
      pending := pending - {x};
    }
    assert forall x :: x in collected <==> x in keys;
    SortOfDistinct(collected);
    r := Sort(collected);
  }

  /** Reading a map of slices: a missing key is the nil slice. */
  function At(m: map<string, seq<string>>, key: string): seq<string> {
    if key in m then m[key] else []
  }

  function Count(m: map<string, seq<string>>, key: string, x: string): nat {
    multiset(At(m, key))[x]
  }

  /** What listing `ids` under `qry` adds to the count of `q` at `id`. */
  function Gain(ids: seq<string>, qry: string, id: string, q: string): nat {
    if q == qry then multiset(ids)[id] else 0
  }

  ghost predicate NoEmptySlice(m: map<string, seq<string>>) {
    forall key :: key in m ==> m[key] != []
  }

  ghost predicate Inverted(queries: map<string, seq<string>>, done: set<string>, m: map<string, seq<string>>) {
    && NoEmptySlice(m)
    && forall id, q :: Count(m, id, q) == if q in done then Times(queries, q, id) else 0
  }

  method AppendAll(before: map<string, seq<string>>, nodeIds: seq<string>, qry: string)
      returns (m: map<string, seq<string>>)
    requires NoEmptySlice(before)
    ensures NoEmptySlice(m)
    ensures forall id, q :: Count(m, id, q) == Count(before, id, q) + Gain(nodeIds, qry, id, q)
  {
    m := before;
    for i := 0 to |nodeIds|
      invariant NoEmptySlice(m)
      invariant forall id, q :: Count(m, id, q) == Count(before, id, q) + Gain(nodeIds[..i], qry, id, q)
    {
      assert nodeIds[..i + 1] == nodeIds[..i] + [nodeIds[i]];
      CountAppend(m, nodeIds[i], qry);
      m := Append(m, nodeIds[i], qry);
    }
    assert nodeIds[..|nodeIds|] == nodeIds;
  }

  lemma CountAppend(m: map<string, seq<string>>, key: string, x: string)
    ensures forall id, q :: Count(Append(m, key, x), id, q) == Count(m, id, q) + Gain([key], x, id, q)
  {
  }

  /** The first loop: the queries each node is listed under, in no particular order. */
  method QueriesByNode(queries: map<string, seq<string>>) returns (m: map<string, seq<string>>)
    ensures Inverted(queries, queries.Keys, m)
  {
    m := map[];
    var pending := queries.Keys;
    while pending != {}
      invariant pending <= queries.Keys && Inverted(queries, queries.Keys - pending, m)
      decreases |pending|
    {
      var qry :| qry in pending;
      m := AppendAll(m, queries[qry], qry);
      pending := pending - {qry};
    }
  }

  /** The second loop has placed the first `i` nodes. */
  ghost predicate Placed(nodeIds: seq<string>, i: nat, queries: map<string, seq<string>>, buckets: map<string, seq<string>>)
    requires i <= |nodeIds|
  {
    && (forall name :: name in buckets ==> buckets[name] != [] && StrictlySorted(buckets[name]))
    && (forall name, id :: name in buckets && id in buckets[name] ==>
         id in nodeIds[..i] && InBucket(queries, id, name))
    && (forall id :: id in nodeIds[..i] ==> HasBucket(buckets, id))
  }

  /** Appending to the slice under `key`. */
  function Append(m: map<string, seq<string>>, key: string, x: string): map<string, seq<string>> {
    m[key := At(m, key) + [x]]
  }

  lemma BucketKept(buckets: map<string, seq<string>>, name: string, x: string, id: string)
    requires HasBucket(buckets, id) || id == x
    ensures HasBucket(Append(buckets, name, x), id)
  {
    var next := Append(buckets, name, x);
    if id == x {
      assert id in next[name];
    } else {
      var n :| n in buckets && id in buckets[n];
      assert id in next[n];
    }
  }

  lemma StaysSorted(nodeIds: seq<string>, i: nat, bucket: seq<string>)
    requires i < |nodeIds| && StrictlySorted(nodeIds) && StrictlySorted(bucket)
    requires forall id :: id in bucket ==> id in nodeIds[..i]
    ensures StrictlySorted(bucket + [nodeIds[i]])
  {
    forall k | 0 <= k < |bucket| ensures Less(bucket[k], nodeIds[i]) {
      assert bucket[k] in nodeIds[..i];
    }
  }

  lemma Place(nodeIds: seq<string>, i: nat, queries: map<string, seq<string>>, buckets: map<string, seq<string>>, name: string)
    requires i < |nodeIds| && StrictlySorted(nodeIds) && Placed(nodeIds, i, queries, buckets)
    requires InBucket(queries, nodeIds[i], name)
    ensures Placed(nodeIds, i + 1, queries, Append(buckets, name, nodeIds[i]))
  {
    var next := Append(buckets, name, nodeIds[i]);
    assert nodeIds[..i + 1] == nodeIds[..i] + [nodeIds[i]];
    StaysSorted(nodeIds, i, At(buckets, name));
    forall id | id in nodeIds[..i + 1] ensures HasBucket(next, id) {
      BucketKept(buckets, name, nodeIds[i], id);
    }
    forall n, id | n in next && id in next[n] ensures id in nodeIds[..i + 1] && InBucket(queries, id, n) {
      assert (id == nodeIds[i] && n == name) || (n in buckets && id in buckets[n]);
    }
  }

  method SortQueryBuckets(nodes: set<string>, queries: map<string, seq<string>>)
      returns (qryBuckets: seq<string>, nodeIdsByQryBucket: map<string, seq<string>>)
    ensures Grouping(nodes, queries, qryBuckets, nodeIdsByQryBucket)
  {
    var queriesByNodeId := QueriesByNode(queries);
    var nodeIds := SortedKeys(nodes);
    nodeIdsByQryBucket := map[];
    for i := 0 to |nodeIds|
      invariant Placed(nodeIds, i, queries, nodeIdsByQryBucket)
    {
      var nodeId := nodeIds[i];
      var qryBucket;
      if nodeId !in queriesByNodeId {
        qryBucket := "-";
      } else if |queriesByNodeId[nodeId]| == 1 {
        qryBucket := queriesByNodeId[nodeId][0];
      } else {
        var sorted := Sort(queriesByNodeId[nodeId]);
        qryBucket := Call("and", Join(sorted, " "));
      }
      assert InBucket(queries, nodeId, qryBucket) by {
        var listed := At(queriesByNodeId, nodeId);
        assert forall q :: Count(queriesByNodeId, nodeId, q) == multiset(listed)[q];
        assert Listed(queries, nodeId, listed) && qryBucket == BucketName(listed);
      }
      Place(nodeIds, i, queries, nodeIdsByQryBucket, qryBucket);
      nodeIdsByQryBucket := Append(nodeIdsByQryBucket, qryBucket, nodeId);
    }
    assert nodeIds[..|nodeIds|] == nodeIds;
    qryBuckets := SortedKeys(nodeIdsByQryBucket.Keys);
  }

  // ----- a report with two queries -----

  /** A node has the one bucket of its name. */
  lemma InOneBucket(nodes: set<string>, queries: map<string, seq<string>>, names: seq<string>, buckets: map<string, seq<string>>,
                    id: string, name: string)
    requires Grouping(nodes, queries, names, buckets) && id in nodes && InBucket(queries, id, name)
    ensures forall n :: n in buckets && id in buckets[n] <==> n == name
  {
    assert HasBucket(buckets, id);
    forall n | n in buckets && id in buckets[n] ensures n == name {
      OneBucket(queries, id, n, name);
    }
  }

  lemma GroupedNode(nodes: set<string>, queries: map<string, seq<string>>, names: seq<string>, buckets: map<string, seq<string>>,
                    name: string, id: string)
    requires Grouping(nodes, queries, names, buckets) && name in buckets && id in buckets[name]
    ensures id in nodes
  {
  }

  /** Three nodes in three buckets. */
  lemma Apart(queries: map<string, seq<string>>, names: seq<string>, buckets: map<string, seq<string>>,
              a: string, b: string, c: string, x: string, y: string, z: string)
    requires Grouping({a, b, c}, queries, names, buckets) && x != y && y != z && z != x
    requires InBucket(queries, a, x) && InBucket(queries, b, y) && InBucket(queries, c, z)
    ensures buckets == map[x := [a], y := [b], z := [c]]
  {
    InOneBucket({a, b, c}, queries, names, buckets, a, x);
    InOneBucket({a, b, c}, queries, names, buckets, b, y);
    InOneBucket({a, b, c}, queries, names, buckets, c, z);
    forall n, id | n in buckets && id in buckets[n] ensures (n == x && id == a) || (n == y && id == b) || (n == z && id == c) {
      GroupedNode({a, b, c}, queries, names, buckets, n, id);
    }
    assert x in buckets && y in buckets && z in buckets;
    OnlyMember(buckets[x], a);
    OnlyMember(buckets[y], b);
    OnlyMember(buckets[z], c);
    forall n | n in buckets ensures n in {x, y, z} {
      assert buckets[n][0] in buckets[n];
    }
  }

  const TWO_QUERIES := map["'a'" := ["n1", "n2"], "'b'" := ["n1"]]

  /** The first node is selected by both queries, the second by one of them, and the third by
      none. */
  lemma TwoQueryReport(names: seq<string>, buckets: map<string, seq<string>>)
    requires Grouping({"n1", "n2", "n3"}, TWO_QUERIES, names, buckets)
    ensures buckets == map["(and 'a' 'b')" := ["n1"], "'a'" := ["n2"], "-" := ["n3"]]
  {
    TwoListed();
    BothNamed();
    assert InBucket(TWO_QUERIES, "n1", "(and 'a' 'b')") && InBucket(TWO_QUERIES, "n2", "'a'") && InBucket(TWO_QUERIES, "n3", "-") by {
      assert BucketName(["'a'"]) == "'a'" && BucketName([]) == "-";
    }
    Apart(TWO_QUERIES, names, buckets, "n1", "n2", "n3", "(and 'a' 'b')", "'a'", "-");
  }

  lemma OnlyMember(s: seq<string>, x: string)
    requires StrictlySorted(s) && x in s && forall y :: y in s ==> y == x
    ensures s == [x]
  {
    if |s| > 1 {
      assert s[0] == x == s[1] by {
        assert s[0] in s && s[1] in s;
      }
      LessIrreflexive(x);
    }
  }

  lemma TwoListed()
    ensures Listed(TWO_QUERIES, "n1", ["'a'", "'b'"]) && Listed(TWO_QUERIES, "n2", ["'a'"]) && Listed(TWO_QUERIES, "n3", [])
  {
    assert multiset(["n1", "n2"]) == multiset{"n1", "n2"};
  }

  lemma BothNamed()
    ensures BucketName(["'a'", "'b'"]) == "(and 'a' 'b')"
  {
    var listed := ["'a'", "'b'"];
    assert Less("'a'", "'b'") by {
      assert "'a'"[1..] == "a'" && "'b'"[1..] == "b'";
    }
    assert listed[1..] == ["'b'"];
    assert Sort(listed) == listed;
    assert Join(listed, " ") == "'a' 'b'";
  }
}
