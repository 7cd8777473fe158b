/** dag/walker.go: fetching everything below a node.

    A walk of a node receives its children in any order and starts a walk of each; the walks
    run side by side.  A graph gives the distinct links of each node, and a rank that falls
    along every link says that it has no cycle.  For the nodes it is asked for, the node
    getter delivers each once or an error. */
module DagWalk {

  type Id = string

  type Graph = Id -> set<Id>

  ghost predicate Acyclic(g: Graph, rank: Id -> nat) {
    forall n, m :: m in g(n) ==> rank(m) < rank(n)
  }

  // ----- reachability -----

  ghost predicate IsPath(g: Graph, path: seq<Id>) {
    path != [] && forall i :: 0 <= i < |path| - 1 ==> path[i + 1] in g(path[i])
  }

  ghost predicate Reaches(g: Graph, root: Id, n: Id) {
    exists path :: IsPath(g, path) && path[0] == root && path[|path| - 1] == n
  }

  ghost predicate Closed(g: Graph, s: set<Id>) {
    forall n :: n in s ==> g(n) <= s
  }

  lemma {:induction false} PathStaysIn(g: Graph, s: set<Id>, path: seq<Id>)
    requires Closed(g, s) && IsPath(g, path) && path[0] in s
    ensures path[|path| - 1] in s
  {
    var n := |path| - 1;
    if n > 0 {
      PathStaysIn(g, s, path[..n]);
      assert path[n - 1 + 1] in g(path[n - 1]);
    }
  }

  // ----- how much there is to do -----

  ghost predicate AllBelow(rank: Id -> nat, s: set<Id>, r: nat) {
    forall n :: n in s ==> rank(n) < r
  }

  /** How many nodes a walk of a node delivers, itself included, counting a node again each
      time it is met. */
  ghost function Ways(g: Graph, rank: Id -> nat, n: Id): nat
    requires Acyclic(g, rank)
    decreases rank(n), 1, 0
  {
    1 + WaysOf(g, rank, g(n), rank(n))
  }

  ghost function WaysOf(g: Graph, rank: Id -> nat, s: set<Id>, r: nat): nat
    requires Acyclic(g, rank) && AllBelow(rank, s, r)
    decreases r, 0, |s|
  {
    if s == {} then 0 else var n :| n in s; Ways(g, rank, n) + WaysOf(g, rank, s - {n}, r)
  }

  lemma {:induction false} WaysTake(g: Graph, rank: Id -> nat, s: set<Id>, r: nat, n: Id)
    requires Acyclic(g, rank) && AllBelow(rank, s, r) && n in s
    ensures WaysOf(g, rank, s, r) == Ways(g, rank, n) + WaysOf(g, rank, s - {n}, r)
    decreases |s|
  {
    var m :| m in s && WaysOf(g, rank, s, r) == Ways(g, rank, m) + WaysOf(g, rank, s - {m}, r);
    if m != n {
      WaysTake(g, rank, s - {m}, r, n);
      WaysTake(g, rank, s - {n}, r, m);
      assert s - {m} - {n} == s - {n} - {m};
    }
  }

  // ----- walks -----

  /** A walk of a node and the children it has not received yet. */
  datatype Call = Call(node: Id, left: set<Id>)

  ghost predicate OfGraph(g: Graph, calls: seq<Call>) {
    forall c :: c in calls ==> c.left <= g(c.node)
  }

  ghost function LeftOf(g: Graph, rank: Id -> nat, c: Call): nat
    requires Acyclic(g, rank) && c.left <= g(c.node)
  {
    WaysOf(g, rank, c.left, rank(c.node))
  }

  ghost function Outstanding(g: Graph, rank: Id -> nat, calls: seq<Call>): nat
    requires Acyclic(g, rank) && OfGraph(g, calls)
  {
    if calls == [] then 0 else Outstanding(g, rank, calls[..|calls| - 1]) + LeftOf(g, rank, calls[|calls| - 1])
  }

  lemma {:induction false} OutstandingChanges(g: Graph, rank: Id -> nat, calls: seq<Call>, i: nat, c: Call)
    requires Acyclic(g, rank) && OfGraph(g, calls) && i < |calls| && c.left <= g(c.node)
    ensures OfGraph(g, calls[i := c])
    ensures Outstanding(g, rank, calls[i := c]) - LeftOf(g, rank, c) == Outstanding(g, rank, calls) - LeftOf(g, rank, calls[i])
  {
    var n := |calls| - 1;
    if i == n {
      assert calls[i := c][..n] == calls[..n];
    } else {
      OutstandingChanges(g, rank, calls[..n], i, c);
      assert calls[i := c][..n] == calls[..n][i := c];
    }
  }

  lemma OutstandingGrows(g: Graph, rank: Id -> nat, calls: seq<Call>, c: Call)
    requires Acyclic(g, rank) && OfGraph(g, calls) && c.left <= g(c.node)
    ensures OfGraph(g, calls + [c])
    ensures Outstanding(g, rank, calls + [c]) == Outstanding(g, rank, calls) + LeftOf(g, rank, c)
  {
    assert (calls + [c])[..|calls + [c]| - 1] == calls;
  }

  /** What a walk has received so far has been fetched. */
  ghost predicate CallAgrees(g: Graph, fetched: set<Id>, c: Call) {
    c.left <= g(c.node) && g(c.node) - c.left <= fetched
  }

  /** Every fetched node has a walk, and every walk has what it received. */
  ghost predicate Covered(g: Graph, fetched: set<Id>, calls: seq<Call>) {
    && (forall n :: n in fetched ==> exists i :: 0 <= i < |calls| && calls[i].node == n)
    && (forall i :: 0 <= i < |calls| ==> CallAgrees(g, fetched, calls[i]))
  }

  /** Some walk still waits for a child. */
  predicate Waiting(calls: seq<Call>) {
    exists i | 0 <= i < |calls| :: calls[i].left != {}
  }

  function Delivered(g: Graph, calls: seq<Call>, i: nat, n: Id): seq<Call>
    requires i < |calls|
  {
    calls[i := calls[i].(left := calls[i].left - {n})] + [Call(n, g(n))]
  }

  lemma DeliveryCovers(g: Graph, fetched: set<Id>, calls: seq<Call>, i: nat, n: Id)
    requires Covered(g, fetched, calls) && i < |calls| && n in calls[i].left
    ensures Covered(g, fetched + {n}, Delivered(g, calls, i, n))
  {
    var next := Delivered(g, calls, i, n);
    forall m | m in fetched + {n} ensures exists k :: 0 <= k < |next| && next[k].node == m {
      if m in fetched {
        var k :| 0 <= k < |calls| && calls[k].node == m;
        assert next[k].node == m;
      } else {
        assert next[|calls|].node == m;
      }
    }
    forall k | 0 <= k < |next| ensures CallAgrees(g, fetched + {n}, next[k]) {
      if k < |calls| {
        assert CallAgrees(g, fetched, calls[k]);
      }
    }
  }

  lemma DeliveryWorks(g: Graph, rank: Id -> nat, calls: seq<Call>, i: nat, n: Id)
    requires Acyclic(g, rank) && OfGraph(g, calls) && i < |calls| && n in calls[i].left
    ensures OfGraph(g, Delivered(g, calls, i, n))
    ensures Outstanding(g, rank, Delivered(g, calls, i, n)) == Outstanding(g, rank, calls) - 1
  {
    var c := calls[i].(left := calls[i].left - {n});
    WaysTake(g, rank, calls[i].left, rank(calls[i].node), n);
    OutstandingChanges(g, rank, calls, i, c);
    OutstandingGrows(g, rank, calls[i := c], Call(n, g(n)));
  }

  /** No walk waits and none failed: everything below the root is there. */
  lemma NothingWaiting(g: Graph, fetched: set<Id>, calls: seq<Call>, root: Id, n: Id)
    requires Covered(g, fetched, calls) && !Waiting(calls) && root in fetched && Reaches(g, root, n)
    ensures n in fetched
  {
    forall m | m in fetched ensures g(m) <= fetched {
      var i :| 0 <= i < |calls| && calls[i].node == m;
      assert CallAgrees(g, fetched, calls[i]);
    }
    var path :| IsPath(g, path) && path[0] == root && path[|path| - 1] == n;
    PathStaysIn(g, fetched, path);
  }

  /** The first n fetches succeed. */
  ghost predicate AllObtained(obtains: nat -> bool, n: nat) {
    forall k: nat :: k < n ==> obtains(k)
  }

  lemma ObtainedNext(obtains: nat -> bool, n: nat)
    ensures AllObtained(obtains, n + 1) <==> AllObtained(obtains, n) && obtains(n)
  {
  }

  /** Walks from the root.  Which walk moves next and which child it receives is arbitrary;
      `obtains` says whether the k-th fetch succeeds.  A walk that receives an error returns
      it and receives nothing more.  The walks end after at most as many deliveries as there
      are ways down from the root. */
  method Walk(g: Graph, root: Id, obtains: nat -> bool, ghost rank: Id -> nat) returns (ok: bool, fetched: set<Id>, fetches: nat)
    requires Acyclic(g, rank)
    ensures ok ==> forall n :: Reaches(g, root, n) ==> n in fetched
    ensures fetches <= Ways(g, rank, root)
    ensures ok <==> AllObtained(obtains, fetches)
  {
    ghost var bound := Ways(g, rank, root);
    if !obtains(0) {
      return false, {}, 1;
    }
    ok, fetched, fetches := true, {root}, 1;
    var calls := [Call(root, g(root))];
    FirstCall(g, rank, root);
    while Waiting(calls)
      invariant ok ==> Covered(g, fetched, calls) && root in fetched
      invariant ok <==> AllObtained(obtains, fetches)
      invariant OfGraph(g, calls) && fetches + Outstanding(g, rank, calls) <= bound
      decreases Outstanding(g, rank, calls)
    {
      var i :| 0 <= i < |calls| && calls[i].left != {};
      var n :| n in calls[i].left;
      ObtainedNext(obtains, fetches);
      if obtains(fetches) {
        DeliveryWorks(g, rank, calls, i, n);
        if ok {
          DeliveryCovers(g, fetched, calls, i, n);
        }
        fetched := fetched + {n};
        calls := Delivered(g, calls, i, n);
      } else {
        GivingUp(g, rank, calls, i);
        ok := false;
        calls := calls[i := calls[i].(left := {})];
      }
      fetches := fetches + 1;
    }
    if ok {
      AllFetched(g, fetched, calls, root);
    }
  }

  lemma FirstCall(g: Graph, rank: Id -> nat, root: Id)
    requires Acyclic(g, rank)
    ensures OfGraph(g, [Call(root, g(root))]) && 1 + Outstanding(g, rank, [Call(root, g(root))]) == Ways(g, rank, root)
  {
    OutstandingGrows(g, rank, [], Call(root, g(root)));
    assert [] + [Call(root, g(root))] == [Call(root, g(root))];
  }

  lemma AllFetched(g: Graph, fetched: set<Id>, calls: seq<Call>, root: Id)
    requires Covered(g, fetched, calls) && !Waiting(calls) && root in fetched
    ensures forall n :: Reaches(g, root, n) ==> n in fetched
  {
    forall n | Reaches(g, root, n) ensures n in fetched {
      NothingWaiting(g, fetched, calls, root, n);
    }
  }

  lemma GivingUp(g: Graph, rank: Id -> nat, calls: seq<Call>, i: nat)
    requires Acyclic(g, rank) && OfGraph(g, calls) && i < |calls| && calls[i].left != {}
    ensures OfGraph(g, calls[i := calls[i].(left := {})])
    ensures Outstanding(g, rank, calls[i := calls[i].(left := {})]) < Outstanding(g, rank, calls)
  {
    var c := calls[i].(left := {});
    var n :| n in calls[i].left;
    WaysTake(g, rank, calls[i].left, rank(calls[i].node), n);
    OutstandingChanges(g, rank, calls, i, c);
  }
}
