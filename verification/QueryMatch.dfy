/** `Match` on the four query kinds, and `Execute`. */
module QueryMatch {
  import opened GoStrings
  import opened Results
  import opened QuerySyntax
  import opened QueryParser
  import opened LabeledSets

  /** The boolean meaning of a tree on a resource's labels. */
  predicate Holds(t: Query, labels: seq<string>, g: Globs) {
    match t
    case Label(p) => (exists l :: l in labels && g.matches(p, l)) || (p == "*" && labels == [])
    case Not(q) => !Holds(q, labels, g)
    case And(qs) => forall q | q in qs :: Holds(q, labels, g)
    case Or(qs) => exists q | q in qs :: Holds(q, labels, g)
  }

  /** The members of `m` whose labels satisfy `t`: same objects, same ids. */
  ghost function Select(t: Query, m: map<string, Labeled>, g: Globs): map<string, Labeled> {
    map id | id in m && Holds(t, m[id].labels, g) :: m[id]
  }

  // ----- what a tree selects, by what its parts select -----

  /** A label pattern selects the members with a label it matches, and `*` those without
      labels too. */
  lemma LabelSelects(p: string, m: map<string, Labeled>, g: Globs)
    ensures Select(Label(p), m, g).Keys ==
      set id | id in m && ((exists l :: l in m[id].labels && g.matches(p, l)) || (p == "*" && m[id].labels == []))
    ensures Picked(Select(Label(p), m, g), m)
  {
  }

  /** `not` selects the members that its argument does not. */
  lemma NotSelects(q: Query, m: map<string, Labeled>, g: Globs)
    ensures Select(Not(q), m, g) == m - Select(q, m, g).Keys
  {
  }

  /** `and` selects the members that all its arguments do. */
  lemma AndSelects(qs: seq<Query>, m: map<string, Labeled>, g: Globs)
    ensures Select(And(qs), m, g).Keys == set id | id in m && forall q :: q in qs ==> id in Select(q, m, g)
    ensures Picked(Select(And(qs), m, g), m)
  {
  }

  /** `or` selects the members that one of its arguments does. */
  lemma OrSelects(qs: seq<Query>, m: map<string, Labeled>, g: Globs)
    ensures Select(Or(qs), m, g).Keys == set id | id in m && exists q :: q in qs && id in Select(q, m, g)
    ensures Picked(Select(Or(qs), m, g), m)
  {
  }

  /** The same objects under the same ids. */
  ghost predicate Picked(some: map<string, Labeled>, all: map<string, Labeled>) {
    forall id :: id in some ==> id in all && some[id] == all[id]
  }

  method Match(g: Globs, t: Query, lset: LabeledSet) returns (r: LabeledSet)
    requires lset.Valid()
    ensures fresh(r) && r.Valid()
    ensures r.set_ == Select(t, lset.set_, g)
    decreases t, 0
  {
    match t
    case Label(pattern) => r := MatchLabel(g, pattern, lset);
    case Not(q) => r := MatchNot(g, q, lset);
    case And(qs) => r := MatchAnd(g, qs, lset);
    case Or(qs) => r := MatchOr(g, qs, lset);
  }

  /** The result so far: the visited members that satisfy the tree. */
  ghost predicate Filtered(m: map<string, Labeled>, visited: seq<Labeled>, t: Query, g: Globs) {
    && (forall id :: id in m ==> m[id] in visited && m[id].id == id && Holds(t, m[id].labels, g))
    && (forall l :: l in visited && Holds(t, l.labels, g) ==> l.id in m && m[l.id] == l)
  }

  lemma FilterStep(m: map<string, Labeled>, slice: seq<Labeled>, i: nat, t: Query, g: Globs)
    requires i < |slice| && SortedById(slice) && Filtered(m, slice[..i], t, g)
    ensures Filtered(if Holds(t, slice[i].labels, g) then m[slice[i].id := slice[i]] else m, slice[..i + 1], t, g)
  {
    assert slice[..i + 1] == slice[..i] + [slice[i]];
    forall l | l in slice[..i] ensures l.id != slice[i].id {
      LessIrreflexive(l.id);
    }
  }

  lemma FilterDone(m: map<string, Labeled>, slice: seq<Labeled>, all: map<string, Labeled>, t: Query, g: Globs)
    requires Filtered(m, slice[..|slice|], t, g)
    requires forall id :: id in all ==> all[id].id == id
    requires forall l :: l in slice <==> l.id in all && all[l.id] == l
    ensures m == Select(t, all, g)
  {
    assert slice[..|slice|] == slice;
    forall id | id in all && Holds(t, all[id].labels, g) ensures id in m && m[id] == all[id] {
      assert all[id] in slice;
    }
  }

  method MatchLabel(g: Globs, pattern: string, lset: LabeledSet) returns (labelSet: LabeledSet)
    requires lset.Valid()
    ensures fresh(labelSet) && labelSet.Valid()
    ensures labelSet.set_ == Select(Label(pattern), lset.set_, g)
    ensures Picked(labelSet.set_, lset.set_) && forall id :: id in labelSet.set_ <==>
      id in lset.set_ && ((exists l :: l in lset.set_[id].labels && g.matches(pattern, l)) || (pattern == "*" && lset.set_[id].labels == []))
  {
    labelSet := new LabeledSet();
    var slice := lset.Slice();
    for i := 0 to |slice|
      invariant fresh(labelSet) && labelSet.Valid()
      invariant Filtered(labelSet.set_, slice[..i], Label(pattern), g)
    {
      var l := slice[i];
      var found := false;
      for k := 0 to |l.labels|
        invariant found <==> exists n :: 0 <= n < k && g.matches(pattern, l.labels[n])
      {
        if g.matches(pattern, l.labels[k]) {
          found := true;
          break;
        }
      }
      FilterStep(labelSet.set_, slice, i, Label(pattern), g);
      if found || (pattern == "*" && |l.labels| == 0) {
        labelSet.Add(l);
      }
    }
    FilterDone(labelSet.set_, slice, lset.set_, Label(pattern), g);
    LabelSelects(pattern, lset.set_, g);
  }

  method MatchNot(g: Globs, q: Query, lset: LabeledSet) returns (negativeSet: LabeledSet)
    requires lset.Valid()
    ensures fresh(negativeSet) && negativeSet.Valid()
    ensures negativeSet.set_ == Select(Not(q), lset.set_, g) == lset.set_ - Select(q, lset.set_, g).Keys
    decreases q, 1
  {
    var positiveSet := Match(g, q, lset);
    negativeSet := new LabeledSet();
    var slice := lset.Slice();
    for i := 0 to |slice|
      invariant fresh(negativeSet) && negativeSet.Valid() && negativeSet != positiveSet
      invariant fresh(positiveSet) && positiveSet.Valid() && positiveSet.set_ == Select(q, lset.set_, g)
      invariant Filtered(negativeSet.set_, slice[..i], Not(q), g)
    {
      var l := slice[i];
      assert l in slice;
      FilterStep(negativeSet.set_, slice, i, Not(q), g);
      if positiveSet.Contains(l.id) {
        continue;
      }
      negativeSet.Add(l);
    }
    FilterDone(negativeSet.set_, slice, lset.set_, Not(q), g);
    NotSelects(q, lset.set_, g);
  }

  /** Each argument's set holds exactly the ids of the listed members that satisfy it. */
  ghost predicate Agree(sets: seq<map<string, Labeled>>, qs: seq<Query>, slice: seq<Labeled>, g: Globs) {
    && |sets| == |qs|
    && forall k, i :: 0 <= k < |qs| && 0 <= i < |slice| ==>
         (slice[i].id in sets[k] <==> Holds(qs[k], slice[i].labels, g))
  }

  lemma AgreeAnd(sets: seq<map<string, Labeled>>, qs: seq<Query>, slice: seq<Labeled>, g: Globs, i: nat)
    requires Agree(sets, qs, slice, g) && i < |slice|
    ensures Holds(And(qs), slice[i].labels, g) <==> forall k :: 0 <= k < |sets| ==> slice[i].id in sets[k]
  {
  }

  lemma AgreeOr(sets: seq<map<string, Labeled>>, qs: seq<Query>, slice: seq<Labeled>, g: Globs, i: nat)
    requires Agree(sets, qs, slice, g) && i < |slice|
    ensures Holds(Or(qs), slice[i].labels, g) <==> exists k :: 0 <= k < |sets| && slice[i].id in sets[k]
  {
  }

  lemma SelectionsAgree(sets: seq<map<string, Labeled>>, qs: seq<Query>, m: map<string, Labeled>,
                        slice: seq<Labeled>, g: Globs)
    requires |sets| == |qs| && forall k :: 0 <= k < |qs| ==> sets[k] == Select(qs[k], m, g)
    requires forall l :: l in slice ==> l.id in m && m[l.id] == l
    ensures Agree(sets, qs, slice, g)
  {
  }

  /** The inner loop of `and`. */
  method InEverySet(qsets: seq<LabeledSet>, id: string) returns (allContains: bool)
    requires forall k :: 0 <= k < |qsets| ==> qsets[k].Valid()
    ensures allContains <==> forall k :: 0 <= k < |qsets| ==> id in qsets[k].set_
  {
    allContains := true;
    for k := 0 to |qsets|
      invariant allContains && forall n :: 0 <= n < k ==> id in qsets[n].set_
    {
      if !qsets[k].Contains(id) {
        allContains := false;
        break;
      }
    }
  }

  /** The inner loop of `or`. */
  method InSomeSet(qsets: seq<LabeledSet>, id: string) returns (oneContains: bool)
    requires forall k :: 0 <= k < |qsets| ==> qsets[k].Valid()
    ensures oneContains <==> exists k :: 0 <= k < |qsets| && id in qsets[k].set_
  {
    oneContains := false;
    for k := 0 to |qsets|
      invariant !oneContains && forall n :: 0 <= n < k ==> id !in qsets[n].set_
    {
      if qsets[k].Contains(id) {
        oneContains := true;
        break;
      }
    }
  }

  /** Every argument's set has the i-th member. */
  method AllSelect(qsets: seq<LabeledSet>, ghost sets: seq<map<string, Labeled>>, ghost qs: seq<Query>, slice: seq<Labeled>,
                   ghost g: Globs, i: nat) returns (allContains: bool)
    requires Agree(sets, qs, slice, g) && i < |slice| && |qsets| == |sets|
    requires forall k :: 0 <= k < |qsets| ==> qsets[k].Valid() && qsets[k].set_ == sets[k]
    ensures allContains <==> Holds(And(qs), slice[i].labels, g)
  {
    allContains := InEverySet(qsets, slice[i].id);
    AgreeAnd(sets, qs, slice, g, i);
  }

  /** Some argument's set has the i-th member. */
  method SomeSelects(qsets: seq<LabeledSet>, ghost sets: seq<map<string, Labeled>>, ghost qs: seq<Query>, slice: seq<Labeled>,
                     ghost g: Globs, i: nat) returns (oneContains: bool)
    requires Agree(sets, qs, slice, g) && i < |slice| && |qsets| == |sets|
    requires forall k :: 0 <= k < |qsets| ==> qsets[k].Valid() && qsets[k].set_ == sets[k]
    ensures oneContains <==> Holds(Or(qs), slice[i].labels, g)
  {
    oneContains := InSomeSet(qsets, slice[i].id);
    AgreeOr(sets, qs, slice, g, i);
  }

  method MatchAnd(g: Globs, qs: seq<Query>, lset: LabeledSet) returns (andSet: LabeledSet)
    requires lset.Valid()
    ensures fresh(andSet) && andSet.Valid()
    ensures andSet.set_ == Select(And(qs), lset.set_, g)
    ensures Picked(andSet.set_, lset.set_) && forall id :: id in andSet.set_ <==>
      id in lset.set_ && forall q :: q in qs ==> id in Select(q, lset.set_, g)
    decreases qs, 2
  {
    var qsets, sets := MatchAll(g, qs, lset);
    andSet := new LabeledSet();
    var slice := lset.Slice();
    SelectionsAgree(sets, qs, lset.set_, slice, g);
    for i := 0 to |slice|
      invariant fresh(andSet) && andSet.Valid()
      invariant forall k :: 0 <= k < |qsets| ==> qsets[k] != andSet && qsets[k].Valid() && qsets[k].set_ == sets[k]
      invariant Filtered(andSet.set_, slice[..i], And(qs), g)
    {
      var l := slice[i];
      var allContains := AllSelect(qsets, sets, qs, slice, g, i);
      FilterStep(andSet.set_, slice, i, And(qs), g);
      if allContains {
        andSet.Add(l);
      }
    }
    FilterDone(andSet.set_, slice, lset.set_, And(qs), g);
    AndSelects(qs, lset.set_, g);
  }

  method MatchOr(g: Globs, qs: seq<Query>, lset: LabeledSet) returns (orSet: LabeledSet)
    requires lset.Valid()
    ensures fresh(orSet) && orSet.Valid()
    ensures orSet.set_ == Select(Or(qs), lset.set_, g)
    ensures Picked(orSet.set_, lset.set_) && forall id :: id in orSet.set_ <==>
      id in lset.set_ && exists q :: q in qs && id in Select(q, lset.set_, g)
    decreases qs, 2
  {
    var qsets, sets := MatchAll(g, qs, lset);
    orSet := new LabeledSet();
    var slice := lset.Slice();
    SelectionsAgree(sets, qs, lset.set_, slice, g);
    for i := 0 to |slice|
      invariant fresh(orSet) && orSet.Valid()
      invariant forall k :: 0 <= k < |qsets| ==> qsets[k] != orSet && qsets[k].Valid() && qsets[k].set_ == sets[k]
      invariant Filtered(orSet.set_, slice[..i], Or(qs), g)
    {
      var l := slice[i];
      var oneContains := SomeSelects(qsets, sets, qs, slice, g, i);
      FilterStep(orSet.set_, slice, i, Or(qs), g);
      if oneContains {
        orSet.Add(l);
      }
    }
    FilterDone(orSet.set_, slice, lset.set_, Or(qs), g);
    OrSelects(qs, lset.set_, g);
  }

  /** One result set per argument. */
  method MatchAll(g: Globs, qs: seq<Query>, lset: LabeledSet)
      returns (qsets: seq<LabeledSet>, ghost sets: seq<map<string, Labeled>>)
    requires lset.Valid()
    ensures |qsets| == |sets| == |qs|
    ensures forall k :: 0 <= k < |qsets| ==> fresh(qsets[k]) && qsets[k].Valid() && qsets[k].set_ == sets[k]
    ensures forall k :: 0 <= k < |qsets| ==> sets[k] == Select(qs[k], lset.set_, g)
    decreases qs, 1
  {
    qsets, sets := [], [];
    for i := 0 to |qs|
      invariant |qsets| == |sets| == i
      invariant forall k :: 0 <= k < i ==> fresh(qsets[k]) && qsets[k].Valid() && qsets[k].set_ == sets[k]
      invariant forall k :: 0 <= k < i ==> sets[k] == Select(qs[k], lset.set_, g)
    {
      var qset := Match(g, qs[i], lset);
      qsets, sets := qsets + [qset], sets + [Select(qs[i], lset.set_, g)];
    }
  }

  /** `Execute`: parse, collect the resources by id, match. */
  method Execute(g: Globs, ls: seq<Labeled>, q: string) returns (r: Result<LabeledSet, string>)
    ensures r.Success? <==> Meaning(q, g).Some?
    ensures r.Success? ==> fresh(r.value) && r.value.Valid()
    ensures r.Success? ==> r.value.set_ == Select(Meaning(q, g).value, ById(ls), g)
  {
    var qry := Parse(g, q);
    if qry.Failure? {
      return Failure(qry.error);
    }
    var lset := new LabeledSet();
    for i := 0 to |ls|
      invariant lset.Valid() && lset.set_ == ById(ls[..i])
    {
      lset.Add(ls[i]);
      assert ls[..i + 1][..i] == ls[..i];
    }
    assert ls[..|ls|] == ls;
    var mset := Match(g, qry.value, lset);
    return Success(mset);
  }

  /** The last resource listed under each id. */
  ghost function ById(ls: seq<Labeled>): map<string, Labeled> {
    if ls == [] then map[] else ById(ls[..|ls| - 1])[ls[|ls| - 1].id := ls[|ls| - 1]]
  }

  /** The empty text selects every resource, labelled or not. */
  lemma EmptyQuerySelectsAll(text: string, m: map<string, Labeled>, g: Globs)
    requires Lex(text, "") == [] && g.StarMatchesAll()
    ensures Meaning(text, g).Some? && Select(Meaning(text, g).value, m, g) == m
  {
    forall id | id in m ensures Holds(Label("*"), m[id].labels, g) {
      var labels := m[id].labels;
      if labels != [] {
        assert labels[0] in labels;
      }
    }
  }
}
