/** `scenarios.Plan`: from a scenario definition and a set of nodes to stages of tasks. */
module Planning {
  import opened GoStrings
  import opened Results
  import opened Records
  import opened QuerySyntax
  import opened QueryParser
  import opened QueryRoundTrip
  import opened LabeledSets
  import opened QueryMatch

  /** The outside world of a plan: the glob library, the text form of a CID, and the
      outcome of transforming an object. */
  datatype World = World(g: Globs, cidText: Cid -> string, transform: ObjectDefinition -> Option<Cid>)

  /** What an action is about: the CID of the object it names, or the undefined CID. */
  function Subject(w: World, objects: map<string, Cid>, action: string): string {
    w.cidText(if action in objects then objects[action] else Cid(""))
  }

  /** Every selected node gets the object. */
  ghost function TaskMap(w: World, objects: map<string, Cid>, q: string, action: string, m: map<string, Labeled>):
      map<string, Task>
    requires Meaning(q, w.g).Some?
  {
    map id | id in Select(Meaning(q, w.g).value, m, w.g) :: Task("get", Subject(w, objects, action))
  }

  /** The stage is the task map of one of the queries, or empty when there is none. */
  ghost predicate IsStage(w: World, objects: map<string, Cid>, queries: map<string, string>, m: map<string, Labeled>,
                          stage: map<string, Task>) {
    if queries == map[] then stage == map[]
    else exists q :: q in queries && Meaning(q, w.g).Some? && stage == TaskMap(w, objects, q, queries[q], m)
  }

  ghost predicate AllParse(g: Globs, queries: set<string>) {
    forall q :: q in queries ==> Meaning(q, g).Some?
  }

  ghost function Printed(q: string, g: Globs): string
    requires Meaning(q, g).Some?
  {
    Print(Meaning(q, g).value)
  }

  /** `ids` lists the selected ids in increasing order. */
  ghost predicate ListsSelected(ids: seq<string>, q: string, m: map<string, Labeled>, g: Globs)
    requires Meaning(q, g).Some?
  {
    StrictlySorted(ids) && forall id :: id in ids <==> id in Select(Meaning(q, g).value, m, g)
  }

  /** The table of benchmark queries: under the printed form of each query, the ids it
      selects. */
  ghost predicate QueryTable(table: map<string, seq<string>>, queries: set<string>, m: map<string, Labeled>, g: Globs) {
    && AllParse(g, queries)
    && (forall q :: q in queries ==> Printed(q, g) in table && ListsSelected(table[Printed(q, g)], q, m, g))
    && (forall key :: key in table ==> exists q :: q in queries && Printed(q, g) == key)
  }

  /** Two texts that print alike mean the same tree, so a later query never overwrites
      the ids of a different one. */
  lemma PrintedDeterminesMeaning(q: string, r: string, g: Globs)
    requires Meaning(q, g).Some? && Meaning(r, g).Some? && Printed(q, g) == Printed(r, g)
    ensures Meaning(q, g) == Meaning(r, g)
  {
    MeaningIsPrintable(q, g);
    MeaningIsPrintable(r, g);
    RoundTrip(q, g);
    RoundTrip(r, g);
    if LoneParenthesis(q) {
      assert Printed(q, g)[1] == Meaning(q, g).value.pattern[0];
      assert Printed(r, g)[1] == Meaning(r, g).value.pattern[0];
    }
  }

  lemma TableStep(table: map<string, seq<string>>, done: set<string>, q: string, ids: seq<string>,
                  m: map<string, Labeled>, g: Globs)
    requires QueryTable(table, done, m, g) && Meaning(q, g).Some? && ListsSelected(ids, q, m, g)
    ensures QueryTable(table[Printed(q, g) := ids], done + {q}, m, g)
  {
    var next := table[Printed(q, g) := ids];
    forall r | r in done + {q} ensures Printed(r, g) in next && ListsSelected(next[Printed(r, g)], r, m, g) {
      if Printed(r, g) == Printed(q, g) {
        PrintedDeterminesMeaning(q, r, g);
      }
    }
    forall key | key in next ensures exists r :: r in done + {q} && Printed(r, g) == key {
      if key == Printed(q, g) {
        assert q in done + {q};
      } else {
        var r :| r in done && Printed(r, g) == key;
        assert r in done + {q};
      }
    }
  }

  /** The ids of the matched nodes and a task for each of them. */
  method AssignTasks(w: World, objects: map<string, Cid>, action: string, slice: seq<Labeled>)
      returns (ids: seq<string>, taskMap: map<string, Task>)
    ensures |ids| == |slice| && forall k :: 0 <= k < |ids| ==> ids[k] == slice[k].id
    ensures forall id :: id in taskMap <==> id in ids
    ensures forall id :: id in taskMap ==> taskMap[id] == Task("get", Subject(w, objects, action))
    ensures forall id :: id in taskMap && action in objects ==> taskMap[id] == Task("get", w.cidText(objects[action]))
    ensures forall id :: id in taskMap && action !in objects ==> taskMap[id] == Task("get", w.cidText(Cid("")))
  {
    ids, taskMap := [], map[];
    var given := Task("get", Subject(w, objects, action));
    for i := 0 to |slice|
      invariant |ids| == i && forall k :: 0 <= k < i ==> ids[k] == slice[k].id
      invariant forall id :: id in taskMap <==> id in ids
      invariant forall id :: id in taskMap ==> taskMap[id] == given
    {
      ids := ids + [slice[i].id];
      taskMap := taskMap[slice[i].id := given];
    }
  }

  /** One query: its printed form, the ids it selects and its task map. */
  method PlanQuery(w: World, objects: map<string, Cid>, q: string, action: string, lset: LabeledSet)
      returns (r: Result<(string, seq<string>, map<string, Task>), string>)
    requires lset.Valid()
    ensures r.Success? <==> Meaning(q, w.g).Some?
    ensures r.Success? ==> r.value.0 == Printed(q, w.g) && ListsSelected(r.value.1, q, lset.set_, w.g)
    ensures r.Success? ==> r.value.2 == TaskMap(w, objects, q, action, lset.set_)
  {
    var qry := Parse(w.g, q);
    if qry.Failure? {
      return Failure(qry.error);
    }
    var mset := Match(w.g, qry.value, lset);
    var slice := mset.Slice();
    var ids, taskMap := AssignTasks(w, objects, action, slice);
    forall id ensures id in ids <==> id in mset.set_ {
      if id in ids {
        var k :| 0 <= k < |ids| && ids[k] == id;
        assert slice[k] in slice;
      }
      if id in mset.set_ {
        assert mset.set_[id] in slice;
      }
    }
    var text := String(qry.value);
    return Success((text, ids, taskMap));
  }

  ghost predicate AllTransform(w: World, definitions: map<string, ObjectDefinition>) {
    forall name :: name in definitions ==> w.transform(definitions[name]).Some?
  }

  ghost predicate Transformed(w: World, definitions: map<string, ObjectDefinition>, objects: map<string, Cid>) {
    && objects.Keys == definitions.Keys
    && forall name :: name in objects ==> w.transform(definitions[name]) == Some(objects[name])
  }

  /** The object stage: the transforms finish in any order. */
  method PlanObjects(w: World, definitions: map<string, ObjectDefinition>)
      returns (r: Result<map<string, Cid>, string>)
    ensures r.Success? <==> AllTransform(w, definitions)
    ensures r.Success? ==> Transformed(w, definitions, r.value)
  {
    var objects: map<string, Cid> := map[];
    var pending := definitions.Keys;
    while pending != {}
      invariant pending <= definitions.Keys && objects.Keys == definitions.Keys - pending
      invariant forall name :: name in objects ==> w.transform(definitions[name]) == Some(objects[name])
      decreases |pending|
    {
      var name :| name in pending;
      var c := w.transform(definitions[name]);
      if c.None? {
        return Failure("transform failed");
      }
      objects := objects[name := c.value];
      pending := pending - {name};
    }
    return Success(objects);
  }

  method PlanSeed(w: World, objects: map<string, Cid>, queries: map<string, string>, lset: LabeledSet)
      returns (r: Result<map<string, Task>, string>)
    requires lset.Valid()
    ensures r.Success? <==> AllParse(w.g, queries.Keys)
    ensures r.Success? ==> IsStage(w, objects, queries, lset.set_, r.value)
  {
    var stage: map<string, Task> := map[];
    var todo := queries.Keys;
    while todo != {}
      invariant todo <= queries.Keys && AllParse(w.g, queries.Keys - todo)
      invariant todo == queries.Keys ==> stage == map[]
      invariant todo != queries.Keys ==> IsStage(w, objects, queries, lset.set_, stage)
      decreases |todo|
    {
      var q :| q in todo;
      var planned := PlanQuery(w, objects, q, queries[q], lset);
      if planned.Failure? {
        return Failure(planned.error);
      }
      stage := planned.value.2;
      todo := todo - {q};
    }
    return Success(stage);
  }

  lemma OneMore(all: set<string>, todo: set<string>, q: string)
    requires q in todo && todo <= all
    ensures all - (todo - {q}) == all - todo + {q} && |todo - {q}| < |todo| && todo - {q} != all
  {
  }

  method PlanBenchmark(w: World, objects: map<string, Cid>, queries: map<string, string>, lset: LabeledSet)
      returns (r: Result<(map<string, Task>, map<string, seq<string>>), string>)
    requires lset.Valid()
    ensures r.Success? <==> AllParse(w.g, queries.Keys)
    ensures r.Success? ==> IsStage(w, objects, queries, lset.set_, r.value.0)
    ensures r.Success? ==> QueryTable(r.value.1, queries.Keys, lset.set_, w.g)
  {
    var stage: map<string, Task> := map[];
    var table: map<string, seq<string>> := map[];
    var todo := queries.Keys;
    while todo != {}
      invariant todo <= queries.Keys
      invariant todo == queries.Keys ==> stage == map[]
      invariant todo != queries.Keys ==> IsStage(w, objects, queries, lset.set_, stage)
      invariant QueryTable(table, queries.Keys - todo, lset.set_, w.g)
      decreases |todo|
    {
      var q :| q in todo;
      var planned := PlanQuery(w, objects, q, queries[q], lset);
      if planned.Failure? {
        return Failure(planned.error);
      }
      TableStep(table, queries.Keys - todo, q, planned.value.1, lset.set_, w.g);
      OneMore(queries.Keys, todo, q);
      table := table[planned.value.0 := planned.value.1];
      stage := planned.value.2;
      todo := todo - {q};
    }
    return Success((stage, table));
  }

  // ----- what a stage says of the scenario -----

  /** The task is to get what the object that the action names was transformed to; the
      undefined CID if it names none. */
  predicate Gets(w: World, definitions: map<string, ObjectDefinition>, action: string, task: Task) {
    if action in definitions then
      w.transform(definitions[action]).Some? && task == Task("get", w.cidText(w.transform(definitions[action]).value))
    else task == Task("get", w.cidText(Cid("")))
  }

  /** Exactly the nodes that the query selects have a task, and it is the action's. */
  ghost predicate Carried(w: World, definitions: map<string, ObjectDefinition>, q: string, action: string, m: map<string, Labeled>,
                          stage: map<string, Task>) {
    && Meaning(q, w.g).Some? && stage.Keys == Select(Meaning(q, w.g).value, m, w.g).Keys
    && forall id :: id in stage ==> Gets(w, definitions, action, stage[id])
  }

  /** The stage carries out one of its queries; all it has, if there is one only. */
  ghost predicate CarriesOne(w: World, definitions: map<string, ObjectDefinition>, queries: map<string, string>,
                             m: map<string, Labeled>, stage: map<string, Task>) {
    && (queries == map[] ==> stage == map[])
    && (queries != map[] ==> exists q :: q in queries && Carried(w, definitions, q, queries[q], m, stage))
    && (forall q :: queries.Keys == {q} ==> Carried(w, definitions, q, queries[q], m, stage))
  }

  lemma StageCarries(w: World, definitions: map<string, ObjectDefinition>, objects: map<string, Cid>, queries: map<string, string>,
                     m: map<string, Labeled>, stage: map<string, Task>)
    requires Transformed(w, definitions, objects) && IsStage(w, objects, queries, m, stage)
    ensures CarriesOne(w, definitions, queries, m, stage)
  {
    if queries != map[] {
      var q :| q in queries && Meaning(q, w.g).Some? && stage == TaskMap(w, objects, q, queries[q], m);
      assert Carried(w, definitions, q, queries[q], m, stage);
      assert forall r :: queries.Keys == {r} ==> r == q;
    }
  }

  /** Plans every stage.  Map iteration is in arbitrary order, and each query of a stage
      replaces what an earlier one planned. */
  method Plan(w: World, sdef: ScenarioDefinition, lset: LabeledSet)
      returns (r: Result<(ScenarioPlan, map<string, seq<string>>), string>)
    requires lset.Valid()
    ensures r.Success? <==>
      (AllTransform(w, sdef.objects) && AllParse(w.g, sdef.seed.Keys) && AllParse(w.g, sdef.benchmark.Keys))
    ensures r.Success? ==> Transformed(w, sdef.objects, r.value.0.objects)
    ensures r.Success? ==> IsStage(w, r.value.0.objects, sdef.seed, lset.set_, r.value.0.seed)
    ensures r.Success? ==> IsStage(w, r.value.0.objects, sdef.benchmark, lset.set_, r.value.0.benchmark)
    ensures r.Success? ==> QueryTable(r.value.1, sdef.benchmark.Keys, lset.set_, w.g)
    ensures r.Success? ==> CarriesOne(w, sdef.objects, sdef.seed, lset.set_, r.value.0.seed)
    ensures r.Success? ==> CarriesOne(w, sdef.objects, sdef.benchmark, lset.set_, r.value.0.benchmark)
  {
    var objects := PlanObjects(w, sdef.objects);
    if objects.Failure? {
      return Failure(objects.error);
    }
    var seed := PlanSeed(w, objects.value, sdef.seed, lset);
    if seed.Failure? {
      return Failure(seed.error);
    }
    var benchmark := PlanBenchmark(w, objects.value, sdef.benchmark, lset);
    if benchmark.Failure? {
      return Failure(benchmark.error);
    }
    StageCarries(w, sdef.objects, objects.value, sdef.seed, lset.set_, seed.value);
    StageCarries(w, sdef.objects, objects.value, sdef.benchmark, lset.set_, benchmark.value.0);
    return Success((ScenarioPlan(objects.value, seed.value, benchmark.value.0), benchmark.value.1));
  }

  /** A stage of one query, `'a'`, for the object `image`, on a node labelled `a` and one that
      is not. */
  lemma OneImage(w: World, image: ObjectDefinition, cid: Cid, x: Labeled, y: Labeled, stage: map<string, Task>)
    requires x.labels == ["a"] && y.labels == [] && w.g.compiles("a") && w.g.matches("a", "a")
    requires w.transform(image) == Some(cid)
    requires CarriesOne(w, map["image" := image], map["'a'" := "image"], map["1" := x, "2" := y], stage)
    ensures stage == map["1" := Task("get", w.cidText(cid))]
  {
    var q, m := "'a'", map["1" := x, "2" := y];
    LetterMeans("a", w.g);
    assert Quote("a") == q;
    assert map[q := "image"].Keys == {q};
    assert x.labels[0] == "a";
    LabelSelects("a", m, w.g);
    assert stage.Keys == {"1"};
    assert Gets(w, map["image" := image], "image", stage["1"]);
  }

  /** What `not` selects, from the text on: of a node labelled `a` and one that is not, the
      second. */
  lemma NotSelectsRest(g: Globs, x: Labeled, y: Labeled)
    requires x.labels == ["a"] && y.labels == ["b"] && g.compiles("a") && g.matches("a", "a") && !g.matches("a", "b")
    ensures Meaning("(not 'a')", g).Some? && Select(Meaning("(not 'a')", g).value, map["1" := x, "2" := y], g) == map["2" := y]
  {
    var m := map["1" := x, "2" := y];
    NotMeans(g);
    NotSelects(Label("a"), m, g);
    LabelSelects("a", m, g);
    assert x.labels[0] == "a";
    assert Select(Label("a"), m, g).Keys == {"1"};
  }

  /** Every node a stage names is one of the planned nodes, so running the stage on the
      same set never fails to find one. */
  lemma StageWithinSet(w: World, objects: map<string, Cid>, queries: map<string, string>, m: map<string, Labeled>,
                       stage: map<string, Task>)
    requires IsStage(w, objects, queries, m, stage)
    ensures stage.Keys <= m.Keys
    ensures forall q :: queries.Keys == {q} && Meaning(q, w.g).Some? ==>
      stage == TaskMap(w, objects, q, queries[q], m)
  {
  }

  // ----- several queries in a stage -----

  /** Every node that a query selects has its task in the stage. */
  ghost predicate Carries(w: World, objects: map<string, Cid>, queries: map<string, string>, m: map<string, Labeled>,
                          stage: map<string, Task>, q: string)
    requires q in queries && Meaning(q, w.g).Some?
  {
    var tasks := TaskMap(w, objects, q, queries[q], m);
    forall id :: id in tasks ==> id in stage && stage[id] == tasks[id]
  }

  ghost predicate CarriesAll(w: World, objects: map<string, Cid>, queries: map<string, string>, m: map<string, Labeled>,
                             stage: map<string, Task>)
    requires AllParse(w.g, queries.Keys)
  {
    forall q :: q in queries ==> Carries(w, objects, queries, m, stage, q)
  }

  /** Each pair of queries plans the same tasks for the same nodes. */
  ghost predicate AllAgree(w: World, objects: map<string, Cid>, queries: map<string, string>, m: map<string, Labeled>)
    requires AllParse(w.g, queries.Keys)
  {
    forall q, r :: q in queries && r in queries ==>
      TaskMap(w, objects, q, queries[q], m) == TaskMap(w, objects, r, queries[r], m)
  }

  lemma AgreeingCarry(w: World, objects: map<string, Cid>, queries: map<string, string>, m: map<string, Labeled>, stage: map<string, Task>)
    requires AllParse(w.g, queries.Keys) && AllAgree(w, objects, queries, m) && IsStage(w, objects, queries, m, stage)
    ensures CarriesAll(w, objects, queries, m, stage)
  {
    forall q | q in queries ensures Carries(w, objects, queries, m, stage, q) {
      var r :| r in queries && Meaning(r, w.g).Some? && stage == TaskMap(w, objects, r, queries[r], m);
    }
  }

  /** Two stages, each of which carries the other query. */
  lemma CarryingAgree(w: World, objects: map<string, Cid>, queries: map<string, string>, m: map<string, Labeled>, q: string, r: string)
    requires AllParse(w.g, queries.Keys) && q in queries && r in queries
    requires Carries(w, objects, queries, m, TaskMap(w, objects, q, queries[q], m), r)
    requires Carries(w, objects, queries, m, TaskMap(w, objects, r, queries[r], m), q)
    ensures TaskMap(w, objects, q, queries[q], m) == TaskMap(w, objects, r, queries[r], m)
  {
  }

  /** The queries of a stage add up, whatever order they are looked at in, exactly when they
      agree: otherwise some order leaves a selected node without its task. */
  lemma StagesAddUp(w: World, objects: map<string, Cid>, queries: map<string, string>, m: map<string, Labeled>)
    requires AllParse(w.g, queries.Keys)
    ensures (forall stage :: IsStage(w, objects, queries, m, stage) ==> CarriesAll(w, objects, queries, m, stage)) <==>
      AllAgree(w, objects, queries, m)
  {
    if forall stage :: IsStage(w, objects, queries, m, stage) ==> CarriesAll(w, objects, queries, m, stage) {
      forall q, r | q in queries && r in queries
        ensures TaskMap(w, objects, q, queries[q], m) == TaskMap(w, objects, r, queries[r], m)
      {
        var s, t := TaskMap(w, objects, q, queries[q], m), TaskMap(w, objects, r, queries[r], m);
        assert IsStage(w, objects, queries, m, s) && IsStage(w, objects, queries, m, t);
        CarryingAgree(w, objects, queries, m, q, r);
      }
    }
    if AllAgree(w, objects, queries, m) {
      forall stage | IsStage(w, objects, queries, m, stage) ensures CarriesAll(w, objects, queries, m, stage) {
        AgreeingCarry(w, objects, queries, m, stage);
      }
    }
  }

  lemma LetterMeans(letter: string, g: Globs)
    requires letter in {"a", "b"} && g.compiles(letter)
    ensures Meaning(Quote(letter), g) == Some(Label(letter))
  {
    assert forall c :: c in letter ==> c == letter[0];
    PrintMeans(Label(letter), g);
  }

  /** Two queries for the same object, `'a'` and `'b'`, and two nodes with one label each: in
      whatever order the queries are looked at, one of the nodes is left without its task. */
  lemma TwoQueriesLose(w: World, objects: map<string, Cid>, x: Labeled, y: Labeled, stage: map<string, Task>)
    requires x.labels == ["a"] && y.labels == ["b"] && w.g.compiles("a") && w.g.compiles("b")
    requires forall p, l :: p in {"a", "b"} && l in {"a", "b"} ==> (w.g.matches(p, l) <==> p == l)
    requires IsStage(w, objects, map["'a'" := "image", "'b'" := "image"], map["1" := x, "2" := y], stage)
    ensures Meaning("'a'", w.g).Some? && Meaning("'b'", w.g).Some?
    ensures var m := map["1" := x, "2" := y];
      && "1" in Select(Meaning("'a'", w.g).value, m, w.g) && "2" in Select(Meaning("'b'", w.g).value, m, w.g)
      && ("1" !in stage || "2" !in stage)
  {
    LetterMeans("a", w.g);
    LetterMeans("b", w.g);
    assert Quote("a") == "'a'" && Quote("b") == "'b'";
    assert x.labels[0] == "a" && y.labels[0] == "b";
    OneLetter(x, "a", w.g);
    OneLetter(y, "b", w.g);
  }

  lemma OneLetter(x: Labeled, letter: string, g: Globs)
    requires x.labels == [letter] && letter in {"a", "b"}
    requires forall p, l :: p in {"a", "b"} && l in {"a", "b"} ==> (g.matches(p, l) <==> p == l)
    ensures forall p :: p in {"a", "b"} ==> (Holds(Label(p), x.labels, g) <==> p == letter)
  {
    forall p | p in {"a", "b"} ensures Holds(Label(p), x.labels, g) <==> p == letter {
      assert letter in x.labels;
      assert g.matches(p, letter) <==> p == letter;
    }
  }
}
