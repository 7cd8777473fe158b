/** What the bucket names of a planned report mean. */
module PlannedReports {
  import opened GoStrings
  import opened Results
  import opened Records
  import opened QuerySyntax
  import opened QueryParser
  import opened QueryRoundTrip
  import opened LabeledSets
  import opened QueryMatch
  import opened Planning
  import opened ReportBuckets

  predicate ParenthesisLabel(t: Query) {
    t == Label("(") || t == Label(")")
  }

  /** A parenthesis label anywhere in a joined list leaves a stray quote. */
  lemma {:induction false} StrayInJoin(ts: seq<Query>, rest: string)
    requires forall t :: t in ts ==> CleanLabels(t) || ParenthesisLabel(t)
    requires (exists t :: t in ts && ParenthesisLabel(t)) && Ends(rest)
    ensures "'" in Lex(Join(PrintAll(ts), " ") + rest, "")
  {
    var more := if |ts| > 1 then " " + (Join(PrintAll(ts[1..]), " ") + rest) else rest;
    assert Join(PrintAll(ts), " ") + rest == Print(ts[0]) + more by {
      if |ts| > 1 {
        JoinTwo(ts, rest);
      }
    }
    if ParenthesisLabel(ts[0]) {
      LexParenthesisLabel(ts[0].pattern[0], more);
      assert ts[0].pattern == [ts[0].pattern[0]];
      assert Lex(Print(ts[0]) + more, "")[0] == "'";
    } else {
      LexPrint(ts[0], more);
      LexBlank(Join(PrintAll(ts[1..]), " ") + rest);
      StrayInJoin(ts[1..], rest);
      assert "'" in Lex(more, "");
    }
  }

  /** Joining printed queries with `and` parses to their conjunction exactly when none of
      them is a parenthesis label. */
  lemma JoinedMeaning(ts: seq<Query>, g: Globs)
    requires forall t :: t in ts ==> Parsed(t, g)
    ensures Meaning(Print(And(ts)), g) ==
      if exists t :: t in ts && ParenthesisLabel(t) then None else Some(And(ts))
  {
    if exists t :: t in ts && ParenthesisLabel(t) {
      var body := Join(PrintAll(ts), " ");
      StrayInJoin(ts, ")");
      LexOpen("and", body + ")");
      assert Print(And(ts)) == "(" + "and" + " " + (body + ")");
      StrayQuote(Print(And(ts)), g);
    } else {
      assert Printable(And(ts), g);
      PrintMeans(And(ts), g);
    }
  }

  /** The query's labels hold of the node. */
  ghost predicate Selects(q: string, labels: seq<string>, g: Globs) {
    Meaning(q, g).Some? && Holds(Meaning(q, g).value, labels, g)
  }

  /** A planned report lists a node once under each query that selects it, and under no
      other. */
  lemma PlannedTimes(bench: set<string>, queries: map<string, seq<string>>, m: map<string, Labeled>, g: Globs,
                     key: string, id: string)
    requires QueryTable(queries, bench, m, g) && id in m
    ensures Times(queries, key, id) ==
      if exists q :: q in bench && Printed(q, g) == key && Selects(q, m[id].labels, g) then 1 else 0
  {
    if key in queries {
      var q :| q in bench && Printed(q, g) == key;
      forall i, j | 0 <= i < j < |queries[key]| ensures queries[key][i] != queries[key][j] {
        LessIrreflexive(queries[key][i]);
      }
      DistinctCounts(queries[key]);
      assert id in multiset(queries[key]) <==> id in queries[key];
      forall r | r in bench && Printed(r, g) == key ensures Meaning(r, g) == Meaning(q, g) {
        PrintedDeterminesMeaning(q, r, g);
      }
    }
  }

  /** The trees behind a list of printed queries. */
  lemma {:induction false} TreesBehind(keys: seq<string>, bench: set<string>, labels: seq<string>, g: Globs)
      returns (ts: seq<Query>)
    requires AllParse(g, bench)
    requires forall key :: key in keys ==> exists q :: q in bench && Printed(q, g) == key && Selects(q, labels, g)
    ensures PrintAll(ts) == keys && |ts| == |keys|
    ensures forall t :: t in ts ==> exists q :: q in bench && Selects(q, labels, g) && Meaning(q, g) == Some(t)
  {
    ts := [];
    if keys != [] {
      assert keys[0] in keys && forall key :: key in keys[1..] ==> key in keys;
      var q :| q in bench && Printed(q, g) == keys[0] && Selects(q, labels, g);
      var rest := TreesBehind(keys[1..], bench, labels, g);
      ts := [Meaning(q, g).value] + rest;
      assert forall t :: t in ts ==> t == ts[0] || t in rest;
      assert ts[1..] == rest && keys == [keys[0]] + keys[1..];
    }
  }

  /** The trees `Parse` can return. */
  ghost predicate Parsed(t: Query, g: Globs) {
    WellFormed(t, g) && (ParenthesisLabel(t) || Printable(t, g))
  }

  lemma MeaningIsParsed(q: string, g: Globs)
    requires Meaning(q, g).Some?
    ensures Parsed(Meaning(q, g).value, g)
    ensures ParenthesisLabel(Meaning(q, g).value) <==> LoneParenthesis(q)
  {
    MeaningIsPrintable(q, g);
    if ParenthesisLabel(Meaning(q, g).value) {
      ParenthesisIsNotClean(Meaning(q, g).value);
    }
  }

  lemma ParenthesisIsNotClean(t: Query)
    requires ParenthesisLabel(t)
    ensures !CleanLabels(t)
  {
    assert t.pattern[0] in t.pattern;
  }

  /** A node is under `-` exactly when no benchmark query selects it.  Any other name
      parses exactly when no query that selects the node is a lone parenthesis, and then
      the query it parses to is matched by exactly the labels that match every query that
      selects the node. */
  lemma BucketMeaning(bench: set<string>, queries: map<string, seq<string>>, m: map<string, Labeled>, g: Globs,
                      id: string, name: string)
    requires QueryTable(queries, bench, m, g) && id in m && InBucket(queries, id, name)
    ensures name == "-" <==> forall q :: q in bench ==> !Selects(q, m[id].labels, g)
    ensures name != "-" ==>
      (Meaning(name, g).Some? <==> forall q :: q in bench && Selects(q, m[id].labels, g) ==> !LoneParenthesis(q))
    ensures name != "-" && Meaning(name, g).Some? ==> Selects(name, m[id].labels, g)
    ensures name != "-" && Meaning(name, g).Some? ==>
      forall ys: seq<string> :: Selects(name, ys, g) <==> SelectedLike(bench, m[id].labels, ys, g)
  {
    var labels := m[id].labels;
    var listed :| Listed(queries, id, listed) && name == BucketName(listed);
    var ts := ListedTrees(bench, queries, m, g, id, listed);
    NameMeaning(listed, ts, labels, g);
    forall q | q in bench && Selects(q, labels, g)
      ensures ParenthesisLabel(Meaning(q, g).value) <==> LoneParenthesis(q)
    {
      MeaningIsParsed(q, g);
    }
    assert ts != [] ==> ts[0] in ts;
    if ts != [] && Meaning(name, g).Some? {
      forall ys: seq<string> ensures Selects(name, ys, g) <==> SelectedLike(bench, labels, ys, g) {
        AllTrees(bench, labels, ts, ys, g);
      }
    }
  }

  /** Every query that selects the one selects the other. */
  ghost predicate SelectedLike(bench: set<string>, xs: seq<string>, ys: seq<string>, g: Globs) {
    forall q :: q in bench && Selects(q, xs, g) ==> Selects(q, ys, g)
  }

  lemma AllTrees(bench: set<string>, labels: seq<string>, ts: seq<Query>, ys: seq<string>, g: Globs)
    requires forall q :: q in bench && Selects(q, labels, g) ==> Meaning(q, g).value in ts
    requires forall t :: t in ts ==> exists q :: q in bench && Selects(q, labels, g) && Meaning(q, g) == Some(t)
    ensures (forall t :: t in ts ==> Holds(t, ys, g)) <==> SelectedLike(bench, labels, ys, g)
  {
    if SelectedLike(bench, labels, ys, g) {
      forall t | t in ts ensures Holds(t, ys, g) {
        var q :| q in bench && Selects(q, labels, g) && Meaning(q, g) == Some(t);
      }
    }
  }

  /** The trees behind the queries a node is listed under: exactly those that select it. */
  lemma ListedTrees(bench: set<string>, queries: map<string, seq<string>>, m: map<string, Labeled>, g: Globs,
                    id: string, listed: seq<string>) returns (ts: seq<Query>)
    requires QueryTable(queries, bench, m, g) && id in m && Listed(queries, id, listed)
    ensures PrintAll(ts) == Sort(listed) && |ts| == |listed|
    ensures forall q :: q in bench && Selects(q, m[id].labels, g) ==> Meaning(q, g).value in ts
    ensures forall t :: t in ts ==>
      exists q :: q in bench && Selects(q, m[id].labels, g) && Meaning(q, g) == Some(t)
    ensures forall t :: t in ts ==> Parsed(t, g) && Holds(t, m[id].labels, g)
  {
    var labels := m[id].labels;
    SortCorrect(listed);
    var keys := Sort(listed);
    forall key ensures key in keys <==> exists q :: q in bench && Printed(q, g) == key && Selects(q, labels, g) {
      PlannedTimes(bench, queries, m, g, key, id);
      assert key in keys <==> key in multiset(keys);
      assert multiset(listed)[key] == Times(queries, key, id);
    }
    ts := TreesBehind(keys, bench, labels, g);
    forall q | q in bench && Selects(q, labels, g) ensures Meaning(q, g).value in ts {
      assert Printed(q, g) in keys;
      KeyTree(ts, keys, bench, labels, q, g);
    }
    forall t | t in ts ensures Parsed(t, g) && Holds(t, labels, g) {
      var q :| q in bench && Selects(q, labels, g) && Meaning(q, g) == Some(t);
      MeaningIsParsed(q, g);
    }
  }

  lemma KeyTree(ts: seq<Query>, keys: seq<string>, bench: set<string>, labels: seq<string>, q: string, g: Globs)
    requires PrintAll(ts) == keys && Meaning(q, g).Some? && Printed(q, g) in keys
    requires forall t :: t in ts ==> exists r :: r in bench && Selects(r, labels, g) && Meaning(r, g) == Some(t)
    ensures Meaning(q, g).value in ts
  {
    var i :| 0 <= i < |keys| && keys[i] == Printed(q, g);
    PrintAllAt(ts, i);
    assert ts[i] in ts;
    var r :| r in bench && Selects(r, labels, g) && Meaning(r, g) == Some(ts[i]);
    PrintedDeterminesMeaning(q, r, g);
  }

  function Conjunction(ts: seq<Query>): Query {
    if |ts| == 1 then ts[0] else And(ts)
  }

  lemma ConjunctionHolds(ts: seq<Query>, labels: seq<string>, g: Globs)
    ensures Holds(Conjunction(ts), labels, g) <==> forall t :: t in ts ==> Holds(t, labels, g)
  {
    if |ts| == 1 {
      assert forall t :: t in ts <==> t == ts[0];
    }
  }

  /** The name of a bucket stands for the conjunction of the trees behind it, or for the one
      tree, unless one of them is a parenthesis label. */
  lemma NameMeans(listed: seq<string>, ts: seq<Query>, g: Globs)
    requires PrintAll(ts) == Sort(listed) && |ts| == |listed| && ts != [] && forall t :: t in ts ==> Parsed(t, g)
    ensures Meaning(BucketName(listed), g) ==
      if exists t :: t in ts && ParenthesisLabel(t) then None else Some(Conjunction(ts))
  {
    if |ts| == 1 {
      assert Sort(listed) == listed && PrintAll(ts)[0] == Print(ts[0]);
      assert ts[0] in ts;
      if ParenthesisLabel(ts[0]) {
        ParenthesisLabelRefused(ts[0].pattern[0], g);
        assert ts[0].pattern == [ts[0].pattern[0]];
      } else {
        PrintMeans(ts[0], g);
      }
    } else {
      assert BucketName(listed) == Print(And(ts));
      JoinedMeaning(ts, g);
    }
  }

  lemma NotDash(listed: seq<string>, ts: seq<Query>)
    requires PrintAll(ts) == Sort(listed) && |ts| == |listed|
    ensures BucketName(listed) == "-" <==> ts == []
  {
    if |ts| == 1 {
      assert Sort(listed) == listed && PrintAll(ts)[0] == Print(ts[0]);
    }
  }

  lemma NameMeaning(listed: seq<string>, ts: seq<Query>, labels: seq<string>, g: Globs)
    requires PrintAll(ts) == Sort(listed) && |ts| == |listed|
    requires forall t :: t in ts ==> Parsed(t, g) && Holds(t, labels, g)
    ensures BucketName(listed) == "-" <==> ts == []
    ensures ts != [] ==> (Meaning(BucketName(listed), g).Some? <==> !exists t :: t in ts && ParenthesisLabel(t))
    ensures ts != [] && Meaning(BucketName(listed), g).Some? ==> Selects(BucketName(listed), labels, g)
    ensures ts != [] && Meaning(BucketName(listed), g).Some? ==>
      forall ys: seq<string> :: Selects(BucketName(listed), ys, g) <==> forall t :: t in ts ==> Holds(t, ys, g)
  {
    NotDash(listed, ts);
    if ts != [] {
      var name, tree := BucketName(listed), Conjunction(ts);
      NameMeans(listed, ts, g);
      ConjunctionHolds(ts, labels, g);
      forall ys: seq<string> ensures Holds(tree, ys, g) <==> forall t :: t in ts ==> Holds(t, ys, g) {
        ConjunctionHolds(ts, ys, g);
      }
    }
  }

  predicate NoLoneParenthesis(bench: set<string>) {
    forall q | q in bench :: !LoneParenthesis(q)
  }

  /** Every node in a bucket; a name other than `-` parses to a query that all nodes of its
      bucket match, and of all nodes just those that are selected by every query that selects
      the bucket's, provided no benchmark query is a lone parenthesis; the nodes under `-`
      match no benchmark query. */
  ghost predicate NamedByQueries(bench: set<string>, m: map<string, Labeled>, g: Globs, buckets: map<string, seq<string>>) {
    && (forall id :: id in m ==> HasBucket(buckets, id))
    && (forall name, id :: name in buckets && id in buckets[name] ==> id in m)
    && (NoLoneParenthesis(bench) ==> forall name, id :: name in buckets && id in buckets[name] && name != "-" ==>
         Selects(name, m[id].labels, g))
    && (NoLoneParenthesis(bench) ==> forall name, id, y :: name in buckets && id in buckets[name] && name != "-" && y in m ==>
         (Selects(name, m[y].labels, g) <==> SelectedLike(bench, m[id].labels, m[y].labels, g)))
    && (forall id, q :: "-" in buckets && id in buckets["-"] && q in bench ==> !Selects(q, m[id].labels, g))
  }

  lemma GroupingMeaning(bench: set<string>, queries: map<string, seq<string>>, m: map<string, Labeled>, g: Globs,
                        names: seq<string>, buckets: map<string, seq<string>>)
    requires QueryTable(queries, bench, m, g) && Grouping(m.Keys, queries, names, buckets)
    ensures NamedByQueries(bench, m, g, buckets)
  {
    forall name, id | name in buckets && id in buckets[name]
      ensures id in m
      ensures name == "-" <==> forall q :: q in bench ==> !Selects(q, m[id].labels, g)
      ensures name != "-" && NoLoneParenthesis(bench) ==> Selects(name, m[id].labels, g)
    {
      BucketMeaning(bench, queries, m, g, id, name);
    }
    forall name, id, y | name in buckets && id in buckets[name] && name != "-" && y in m && NoLoneParenthesis(bench)
      ensures Selects(name, m[y].labels, g) <==> SelectedLike(bench, m[id].labels, m[y].labels, g)
    {
      BucketMeaning(bench, queries, m, g, id, name);
    }
  }

  /** Planning a scenario and grouping the report over the planned nodes, by the table of
      queries that planning made. */
  method GroupPlannedReport(w: World, sdef: ScenarioDefinition, lset: LabeledSet)
      returns (r: Result<(seq<string>, map<string, seq<string>>), string>, ghost queries: map<string, seq<string>>)
    requires lset.Valid()
    ensures r.Success? <==>
      (AllTransform(w, sdef.objects) && AllParse(w.g, sdef.seed.Keys) && AllParse(w.g, sdef.benchmark.Keys))
    ensures r.Success? ==> QueryTable(queries, sdef.benchmark.Keys, lset.set_, w.g)
    ensures r.Success? ==> Grouping(lset.set_.Keys, queries, r.value.0, r.value.1)
    ensures r.Success? ==> NamedByQueries(sdef.benchmark.Keys, lset.set_, w.g, r.value.1)
  {
    var plan := Plan(w, sdef, lset);
    if plan.Failure? {
      return Failure(plan.error), map[];
    }
    queries := plan.value.1;
    var names, buckets := SortQueryBuckets(lset.set_.Keys, plan.value.1);
    GroupingMeaning(sdef.benchmark.Keys, plan.value.1, lset.set_, w.g, names, buckets);
    return Success((names, buckets)), queries;
  }
}
