/** nodes/connect.go: who dials whom. */
module Connect {
  import opened Results
  import opened GoStrings
  import opened Records
  import opened Groups

  /** What a node says of its peer: an identity and the addresses it listens on. */
  datatype PeerInfo = PeerInfo(id: string, addrs: seq<string>)

  /** The addresses to dial a peer at. */
  function FullAddrs(pi: PeerInfo): (r: seq<string>)
    ensures |r| == |pi.addrs| && forall i :: 0 <= i < |r| ==> r[i] == pi.addrs[i] + "/p2p/" + pi.id
  {
    seq(|pi.addrs|, i requires 0 <= i < |pi.addrs| => pi.addrs[i] + "/p2p/" + pi.id)
  }

  // ----- collecting peer addresses -----

  /** The goroutines that ask every node for its peer store what they learn under a lock, in
      any order.  `answers` is what the nodes answer, None being an error. */
  method CollectPeerInfo(ns: seq<string>, answers: seq<Option<PeerInfo>>) returns (r: Option<map<string, PeerInfo>>)
    requires |answers| == |ns|
    ensures r.Some? <==> forall i :: 0 <= i < |ns| ==> answers[i].Some? && answers[i].value.addrs != []
    ensures r.Some? ==> (forall i :: 0 <= i < |ns| ==> ns[i] in r.value) && forall n :: n in r.value ==> n in ns
    ensures r.Some? ==> forall n :: n in r.value ==>
      exists i :: 0 <= i < |ns| && ns[i] == n && answers[i] == Some(r.value[n]) && r.value[n].addrs != []
    ensures r.Some? && NoDuplicates(ns) ==> forall i :: 0 <= i < |ns| ==> answers[i] == Some(r.value[ns[i]])
  {
    var info: map<string, PeerInfo> := map[];
    var pending := Indices(|ns|);
    var failed := false;
    while pending != {}
      invariant forall i :: i in pending ==> 0 <= i < |ns|
      invariant failed <==> exists i :: 0 <= i < |ns| && i !in pending && !(answers[i].Some? && answers[i].value.addrs != [])
      invariant forall i :: 0 <= i < |ns| && i !in pending && !failed ==> ns[i] in info
      invariant forall n :: n in info ==>
        exists i :: 0 <= i < |ns| && ns[i] == n && i !in pending && answers[i] == Some(info[n]) && info[n].addrs != []
      decreases |pending|
    {
      var i :| i in pending;
      pending := pending - {i};
      if answers[i].None? || |answers[i].value.addrs| == 0 {
        failed := true;
        continue;
      }
      info := info[ns[i] := answers[i].value];
    }
    if failed {
      return None;
    }
    return Some(info);
  }

  // ----- the dial plan -----

  type Conns = map<string, map<string, seq<string>>>

  /** The identities of the first n nodes' peers. */
  ghost function PeersOf(ns: seq<string>, info: map<string, PeerInfo>): set<string>
    requires forall n :: n in ns ==> n in info
  {
    set n | n in ns :: info[n].id
  }

  /** One node's row: it dials exactly the reachable peers not seen up to and including
      itself, each at all the addresses of a node with that identity. */
  ghost predicate RowFor(info: map<string, PeerInfo>, seen: set<string>, row: map<string, seq<string>>) {
    && (forall q :: q in row <==> q !in seen && exists k :: k in info && info[k].id == q && info[k].addrs != [])
    && (forall q :: q in row ==> exists k :: k in info && info[k].id == q && info[k].addrs != [] && row[q] == FullAddrs(info[k]))
  }

  /** A row that is being filled: `todo` is still to be looked at. */
  ghost predicate RowSoFar(info: map<string, PeerInfo>, seen: set<string>, row: map<string, seq<string>>, todo: set<string>) {
    && (forall q :: q in row <==> q !in seen && exists k :: k in info && k !in todo && info[k].id == q && info[k].addrs != [])
    && (forall q :: q in row ==> exists k :: k in info && info[k].id == q && info[k].addrs != [] && row[q] == FullAddrs(info[k]))
  }

  method FillRow(info: map<string, PeerInfo>, seen: set<string>) returns (row: map<string, seq<string>>)
    ensures RowFor(info, seen, row)
  {
    row := map[];
    var todo := info.Keys;
    while todo != {}
      invariant todo <= info.Keys && RowSoFar(info, seen, row, todo)
      decreases |todo|
    {
      var k :| k in todo;
      ghost var was := todo;
      todo := todo - {k};
      if info[k].id in seen || |info[k].addrs| == 0 {
        RowSkips(info, seen, row, was, k);
        continue;
      }
      RowTakes(info, seen, row, was, k);
      row := row[info[k].id := FullAddrs(info[k])];
    }
  }

  lemma RowSkips(info: map<string, PeerInfo>, seen: set<string>, row: map<string, seq<string>>, todo: set<string>, k: string)
    requires RowSoFar(info, seen, row, todo) && k in info && (info[k].id in seen || info[k].addrs == [])
    ensures RowSoFar(info, seen, row, todo - {k})
  {
  }

  lemma RowTakes(info: map<string, PeerInfo>, seen: set<string>, row: map<string, seq<string>>, todo: set<string>, k: string)
    requires RowSoFar(info, seen, row, todo) && k in info && info[k].id !in seen && info[k].addrs != []
    ensures RowSoFar(info, seen, row[info[k].id := FullAddrs(info[k])], todo - {k})
  {
    var next := row[info[k].id := FullAddrs(info[k])];
    forall q | q in next ensures exists k :: k in info && info[k].id == q && info[k].addrs != [] && next[q] == FullAddrs(info[k]) {
      if q == info[k].id {
        assert info[k].id == q && next[q] == FullAddrs(info[k]);
      }
    }
  }

  /** The last node among the first n with this peer. */
  ghost predicate LastOf(ns: seq<string>, info: map<string, PeerInfo>, n: nat, i: nat, peer: string)
    requires n <= |ns| && forall m :: m in ns ==> m in info
  {
    i < n && info[ns[i]].id == peer && forall k :: i < k < n ==> info[ns[k]].id != peer
  }

  /** The plan after n nodes. */
  ghost predicate PlanSoFar(ns: seq<string>, info: map<string, PeerInfo>, n: nat, conns: Conns)
    requires n <= |ns| && forall m :: m in ns ==> m in info
  {
    && conns.Keys == PeersOf(ns[..n], info)
    && forall i: nat, peer :: peer in conns && LastOf(ns, info, n, i, peer) ==> RowFor(info, PeersOf(ns[..i + 1], info), conns[peer])
  }

  /** Works out who dials whom.  A node without peer information is a bug that stops the
      program. */
  method PlanDials(ns: seq<string>, info: map<string, PeerInfo>) returns (conns: Conns)
    requires forall n :: n in ns ==> n in info
    ensures PlanSoFar(ns, info, |ns|, conns)
  {
    conns := map[];
    for i := 0 to |ns|
      invariant PlanSoFar(ns, info, i, conns)
    {
      var peer := info[ns[i]].id;
      ghost var was := conns;
      assert ns[..i + 1] == ns[..i] + [ns[i]];
      var row := FillRow(info, conns.Keys + {peer});
      conns := conns[peer := row];
      PlanGrows(ns, info, i, was, row);
    }
  }

  lemma PlanGrows(ns: seq<string>, info: map<string, PeerInfo>, n: nat, conns: Conns, row: map<string, seq<string>>)
    requires n < |ns| && (forall m :: m in ns ==> m in info) && PlanSoFar(ns, info, n, conns)
    requires RowFor(info, conns.Keys + {info[ns[n]].id}, row)
    ensures PlanSoFar(ns, info, n + 1, conns[info[ns[n]].id := row])
  {
    var peer, m := info[ns[n]].id, n + 1;
    var next := conns[peer := row];
    PeersGrow(ns, info, n);
    forall i: nat, q | q in next && LastOf(ns, info, m, i, q) ensures RowFor(info, PeersOf(ns[..i + 1], info), next[q]) {
      LastMoves(ns, info, n, i, q);
    }
  }

  lemma PeersGrow(ns: seq<string>, info: map<string, PeerInfo>, n: nat)
    requires n < |ns| && forall m :: m in ns ==> m in info
    ensures PeersOf(ns[..n + 1], info) == PeersOf(ns[..n], info) + {info[ns[n]].id}
  {
    assert ns[..n + 1] == ns[..n] + [ns[n]];
  }

  lemma LastMoves(ns: seq<string>, info: map<string, PeerInfo>, n: nat, i: nat, peer: string)
    requires n < |ns| && (forall m :: m in ns ==> m in info) && LastOf(ns, info, n + 1, i, peer)
    ensures peer == info[ns[n]].id ==> i == n
    ensures peer != info[ns[n]].id ==> i < n && LastOf(ns, info, n, i, peer)
  {
  }

  // ----- who dials whom, whatever nodes share -----

  /** The peer of the i-th node. */
  function PeerAt(ns: seq<string>, info: map<string, PeerInfo>, i: nat): string
    requires i < |ns| && ns[i] in info
  {
    info[ns[i]].id
  }

  /** The nodes asked are the nodes known, and all can be reached. */
  ghost predicate AllReached(ns: seq<string>, info: map<string, PeerInfo>) {
    (forall n :: n in info <==> n in ns) && forall n :: n in info ==> info[n].addrs != []
  }

  /** Every node with the peer `p` comes before every node with the peer `q`. */
  ghost predicate Before(ns: seq<string>, info: map<string, PeerInfo>, p: string, q: string)
    requires forall n :: n in ns ==> n in info
  {
    forall i: nat, j: nat :: i < |ns| && j < |ns| && PeerAt(ns, info, i) == p && PeerAt(ns, info, j) == q ==> i < j
  }

  lemma PeerSomewhere(ns: seq<string>, info: map<string, PeerInfo>, p: string)
    requires forall n :: n in ns ==> n in info
    ensures p in PeersOf(ns, info) <==> exists i: nat :: i < |ns| && PeerAt(ns, info, i) == p
  {
    if p in PeersOf(ns, info) {
      var n :| n in ns && info[n].id == p;
      var i: nat :| i < |ns| && ns[i] == n;
      assert PeerAt(ns, info, i) == p;
    }
    if i: nat :| i < |ns| && PeerAt(ns, info, i) == p {
      assert ns[i] in ns;
    }
  }

  lemma SeenBefore(ns: seq<string>, info: map<string, PeerInfo>, i: nat, q: string)
    requires i < |ns| && forall n :: n in ns ==> n in info
    ensures q in PeersOf(ns[..i + 1], info) <==> exists j: nat :: j <= i && PeerAt(ns, info, j) == q
  {
    var s := ns[..i + 1];
    PeerSomewhere(s, info, q);
    if j: nat :| j < |s| && PeerAt(s, info, j) == q {
      assert PeerAt(ns, info, j) == q;
    }
    if j: nat :| j <= i && PeerAt(ns, info, j) == q {
      assert PeerAt(s, info, j) == q;
    }
  }

  lemma {:induction false} LastExists(ns: seq<string>, info: map<string, PeerInfo>, n: nat, i: nat, p: string) returns (last: nat)
    requires n <= |ns| && i < n && (forall m :: m in ns ==> m in info) && PeerAt(ns, info, i) == p
    ensures LastOf(ns, info, n, last, p) && i <= last
  {
    if PeerAt(ns, info, n - 1) == p {
      last := n - 1;
    } else {
      last := LastExists(ns, info, n - 1, i, p);
    }
  }

  lemma BeforeByLast(ns: seq<string>, info: map<string, PeerInfo>, i: nat, p: string, q: string)
    requires (forall n :: n in ns ==> n in info) && LastOf(ns, info, |ns|, i, p)
    ensures Before(ns, info, p, q) <==> q !in PeersOf(ns[..i + 1], info)
  {
    SeenBefore(ns, info, i, q);
    assert PeerAt(ns, info, i) == p;
    if Before(ns, info, p, q) {
      forall j: nat | j <= i ensures PeerAt(ns, info, j) != q {
      }
    } else {
      var a: nat, b: nat :| a < |ns| && b < |ns| && PeerAt(ns, info, a) == p && PeerAt(ns, info, b) == q && !(a < b);
      assert b <= a <= i;
    }
  }

  /** A peer dials exactly the peers all of whose nodes come after all of its own, whatever
      nodes share an id or a peer. */
  lemma DialedWhenBefore(ns: seq<string>, info: map<string, PeerInfo>, conns: Conns, p: string, q: string)
    requires AllReached(ns, info) && PlanSoFar(ns, info, |ns|, conns)
    ensures p in conns <==> p in PeersOf(ns, info)
    ensures p in conns ==> (q in conns[p] <==> q in PeersOf(ns, info) && Before(ns, info, p, q))
  {
    assert ns[..|ns|] == ns;
    if p in conns {
      PeerSomewhere(ns, info, p);
      var i: nat :| i < |ns| && PeerAt(ns, info, i) == p;
      var last := LastExists(ns, info, |ns|, i, p);
      assert RowFor(info, PeersOf(ns[..last + 1], info), conns[p]);
      BeforeByLast(ns, info, last, p, q);
      assert q in PeersOf(ns, info) <==> exists k :: k in info && info[k].id == q && info[k].addrs != [] by {
        if k :| k in info && info[k].id == q && info[k].addrs != [] {
          assert k in ns;
        }
      }
    }
  }

  /** No two peers dial each other and none dials itself; one of two peers dials the other
      exactly when their nodes do not come in between each other. */
  lemma NeverBothWays(ns: seq<string>, info: map<string, PeerInfo>, conns: Conns, p: string, q: string)
    requires AllReached(ns, info) && PlanSoFar(ns, info, |ns|, conns) && p in conns && q in conns
    ensures !(q in conns[p] && p in conns[q]) && p !in conns[p]
    ensures q in conns[p] || p in conns[q] <==> Before(ns, info, p, q) || Before(ns, info, q, p)
  {
    DialedWhenBefore(ns, info, conns, p, q);
    DialedWhenBefore(ns, info, conns, q, p);
    DialedWhenBefore(ns, info, conns, p, p);
    PeerSomewhere(ns, info, p);
    PeerSomewhere(ns, info, q);
    var i: nat :| i < |ns| && PeerAt(ns, info, i) == p;
    var j: nat :| j < |ns| && PeerAt(ns, info, j) == q;
    assert Before(ns, info, p, q) ==> i < j;
    assert Before(ns, info, q, p) ==> j < i;
    assert Before(ns, info, p, p) ==> i < i;
  }

  /** Three nodes, the first and the last with one peer and the second with another. */
  function InBetween(addr: string): map<string, PeerInfo> {
    map["1" := PeerInfo("p", [addr]), "2" := PeerInfo("q", [addr]), "3" := PeerInfo("p", [addr])]
  }

  /** Then neither peer dials the other. */
  lemma NeitherWay(addr: string, conns: Conns)
    requires PlanSoFar(["1", "2", "3"], InBetween(addr), 3, conns)
    ensures "p" in conns && "q" in conns && "q" !in conns["p"] && "p" !in conns["q"]
  {
    var ns, info := ["1", "2", "3"], InBetween(addr);
    assert PeerAt(ns, info, 0) == "p" && PeerAt(ns, info, 1) == "q" && PeerAt(ns, info, 2) == "p";
    PeerSomewhere(ns, info, "p");
    PeerSomewhere(ns, info, "q");
    DialedWhenBefore(ns, info, conns, "p", "q");
    DialedWhenBefore(ns, info, conns, "q", "p");
  }

  // ----- distinct nodes with distinct peers -----

  /** Distinct nodes, one peer each, all reachable. */
  ghost predicate Distinct(ns: seq<string>, info: map<string, PeerInfo>) {
    && NoDuplicates(ns)
    && (forall n :: n in info <==> n in ns)
    && (forall a, b :: a in info && b in info && info[a].id == info[b].id ==> a == b)
    && (forall n :: n in info ==> info[n].addrs != [])
  }

  /** Each node dials exactly the nodes after it, at all their addresses. */
  ghost predicate DialsLater(ns: seq<string>, info: map<string, PeerInfo>, i: nat, row: map<string, seq<string>>)
    requires i < |ns| && Distinct(ns, info)
  {
    && (forall q :: q in row <==> exists j :: i < j < |ns| && q == info[ns[j]].id)
    && (forall j :: i < j < |ns| ==> info[ns[j]].id in row && row[info[ns[j]].id] == FullAddrs(info[ns[j]]))
  }

  lemma RowsDialLater(ns: seq<string>, info: map<string, PeerInfo>, conns: Conns, i: nat)
    requires Distinct(ns, info) && PlanSoFar(ns, info, |ns|, conns) && i < |ns|
    ensures info[ns[i]].id in conns && DialsLater(ns, info, i, conns[info[ns[i]].id])
  {
    var peer := info[ns[i]].id;
    assert ns[..|ns|] == ns && ns[i] in ns;
    assert peer in PeersOf(ns, info);
    assert LastOf(ns, info, |ns|, i, peer);
    var seen, row := PeersOf(ns[..i + 1], info), conns[peer];
    assert RowFor(info, seen, row);
    forall j | 0 <= j < |ns| ensures info[ns[j]].id in seen <==> j <= i {
      SeenUpTo(ns, info, i, j);
    }
    forall q | q in row ensures exists j :: i < j < |ns| && q == info[ns[j]].id {
      var k :| k in info && info[k].id == q && info[k].addrs != [];
      var j :| 0 <= j < |ns| && ns[j] == k;
    }
    forall j | i < j < |ns| ensures info[ns[j]].id in row && row[info[ns[j]].id] == FullAddrs(info[ns[j]]) {
      assert ns[j] in info && info[ns[j]].addrs != [];
      var k :| k in info && info[k].id == info[ns[j]].id && row[info[ns[j]].id] == FullAddrs(info[k]);
      assert k == ns[j];
    }
  }

  lemma SeenUpTo(ns: seq<string>, info: map<string, PeerInfo>, i: nat, j: nat)
    requires Distinct(ns, info) && i < |ns| && j < |ns|
    ensures info[ns[j]].id in PeersOf(ns[..i + 1], info) <==> j <= i
  {
    if j <= i {
      assert ns[..i + 1][j] == ns[j];
    } else {
      forall n | n in ns[..i + 1] ensures info[n].id != info[ns[j]].id {
        var k :| 0 <= k < i + 1 && ns[..i + 1][k] == n;
        assert ns[k] != ns[j];
      }
    }
  }

  // ----- the tasks -----

  /** A connect-one task run on a node; `peer` is the identity its addresses end in. */
  datatype Dial = Dial(node: string, peer: string, task: Task)

  function DialTask(addrs: seq<string>): Task {
    Task("connect-one", Join(addrs, ","))
  }

  /** The task is to connect to the peer, at all its addresses: they come back, in order and
      with the peer's identity, when the subject is split at its commas, if no address or
      identity has one. */
  ghost predicate ConnectsTo(task: Task, pi: PeerInfo) {
    && task.kind == "connect-one"
    && (NoComma(pi.id) && (forall a :: a in pi.addrs ==> NoComma(a)) ==>
         |Split(task.subject, ',')| == |pi.addrs| &&
         forall k :: 0 <= k < |pi.addrs| ==> Split(task.subject, ',')[k] == pi.addrs[k] + "/p2p/" + pi.id)
  }

  lemma DialTaskConnects(pi: PeerInfo)
    requires pi.addrs != []
    ensures ConnectsTo(DialTask(FullAddrs(pi)), pi)
  {
    var full := FullAddrs(pi);
    if NoComma(pi.id) && forall a :: a in pi.addrs ==> NoComma(a) {
      forall s | s in full ensures NoComma(s) {
        var k :| 0 <= k < |full| && full[k] == s;
        FullHasNoComma(pi.addrs[k], pi.id);
      }
      SplitJoin(full);
    }
  }

  lemma FullHasNoComma(addr: string, id: string)
    requires NoComma(addr) && NoComma(id)
    ensures NoComma(addr + "/p2p/" + id)
  {
    assert NoComma("/p2p/");
  }

  /** The task connects to a node that has this peer. */
  ghost predicate ConnectsToPeer(task: Task, info: map<string, PeerInfo>, peer: string) {
    exists n :: n in info && info[n].id == peer && info[n].addrs != [] && ConnectsTo(task, info[n])
  }

  ghost predicate AllConnect(dials: seq<Dial>, info: map<string, PeerInfo>) {
    forall d :: d in dials ==> ConnectsToPeer(d.task, info, d.peer)
  }

  /** The task of each peer in a row. */
  lemma RowConnects(ns: seq<string>, info: map<string, PeerInfo>, conns: Conns, i: nat, q: string)
    requires (forall n :: n in ns ==> n in info) && PlanSoFar(ns, info, |ns|, conns) && i < |ns|
    requires PeerAt(ns, info, i) in conns && q in conns[PeerAt(ns, info, i)]
    ensures ConnectsToPeer(DialTask(conns[PeerAt(ns, info, i)][q]), info, q)
  {
    var p := PeerAt(ns, info, i);
    var last := LastExists(ns, info, |ns|, i, p);
    assert RowFor(info, PeersOf(ns[..last + 1], info), conns[p]);
    var k :| k in info && info[k].id == q && info[k].addrs != [] && conns[p][q] == FullAddrs(info[k]);
    DialTaskConnects(info[k]);
  }

  lemma PlannedConnect(ns: seq<string>, info: map<string, PeerInfo>, conns: Conns, dials: seq<Dial>)
    requires (forall n :: n in ns ==> n in info) && PlanSoFar(ns, info, |ns|, conns)
    requires forall d :: d in dials ==> exists i: nat :: i < |ns| && PlannedAt(ns, info, conns, i, d)
    ensures AllConnect(dials, info)
  {
    forall d | d in dials ensures ConnectsToPeer(d.task, info, d.peer) {
      var i: nat :| i < |ns| && PlannedAt(ns, info, conns, i, d);
      RowConnects(ns, info, conns, i, d.peer);
    }
  }

  /** A peer that listens on two addresses. */
  lemma TwoAddresses()
    ensures DialTask(FullAddrs(PeerInfo("q", ["/a", "/b"]))) ==
      Task("connect-one", "/a/p2p/q,/b/p2p/q")
  {
    TwoJoined("q", "/a", "/b");
    assert "/a" + "/p2p/" + "q" == "/a/p2p/q";
    assert "/b" + "/p2p/" + "q" == "/b/p2p/q";
  }

  lemma TwoJoined(id: string, a: string, b: string)
    ensures DialTask(FullAddrs(PeerInfo(id, [a, b]))) == Task("connect-one", (a + "/p2p/" + id) + "," + (b + "/p2p/" + id))
  {
    var full := FullAddrs(PeerInfo(id, [a, b]));
    assert full[1..] == [full[1]];
    assert Join(full, ",") == full[0] + "," + Join([full[1]], ",");
  }

  /** The dials of one node's row, in whatever order: one for each peer that has addresses. */
  ghost predicate RowEmitted(node: string, row: map<string, seq<string>>, dials: seq<Dial>) {
    && NoDuplicates(dials)
    && forall d :: d in dials <==> d.node == node && d.peer in row && row[d.peer] != [] && d.task == DialTask(row[d.peer])
  }

  method EmitRow(node: string, row: map<string, seq<string>>) returns (dials: seq<Dial>)
    ensures RowEmitted(node, row, dials)
    ensures (forall q :: q in row ==> row[q] != []) ==> |dials| == |row|
  {
    dials := [];
    var todo := row.Keys;
    while todo != {}
      invariant todo <= row.Keys && NoDuplicates(dials)
      invariant (forall q :: q in row ==> row[q] != []) ==> |dials| + |todo| == |row.Keys|
      invariant forall d :: d in dials <==>
        d.node == node && d.peer in row && d.peer !in todo && row[d.peer] != [] && d.task == DialTask(row[d.peer])
      decreases |todo|
    {
      var q :| q in todo;
      todo := todo - {q};
      if |row[q]| == 0 {
        continue;
      }
      dials := dials + [Dial(node, q, DialTask(row[q]))];
    }
  }

  /** The task that dials a peer. */
  function TaskFor(): PeerInfo -> Task {
    pi => DialTask(FullAddrs(pi))
  }

  /** The dial from the i-th node to the j-th. */
  ghost function DialOf(ns: seq<string>, info: map<string, PeerInfo>, task: PeerInfo -> Task, i: nat, j: nat): Dial
    requires i < |ns| && j < |ns| && ns[i] in info && ns[j] in info
  {
    Dial(ns[i], info[ns[j]].id, task(info[ns[j]]))
  }

  ghost predicate FromPair(ns: seq<string>, info: map<string, PeerInfo>, task: PeerInfo -> Task, n: nat, d: Dial)
    requires Distinct(ns, info) && n <= |ns|
  {
    exists i, j :: 0 <= i < n && i < j < |ns| && d == DialOf(ns, info, task, i, j)
  }

  /** One dial for each pair of a node among the first n and a node after it, and no others. */
  ghost predicate DialsOf(ns: seq<string>, info: map<string, PeerInfo>, task: PeerInfo -> Task, n: nat, dials: seq<Dial>)
    requires Distinct(ns, info) && n <= |ns|
  {
    && NoDuplicates(dials)
    && (forall d :: d in dials ==> FromPair(ns, info, task, n, d))
    && (forall i, j :: 0 <= i < n && i < j < |ns| ==> DialOf(ns, info, task, i, j) in dials)
  }

  lemma {:induction false} LaterPeers(ns: seq<string>, info: map<string, PeerInfo>, i: nat, s: set<string>)
    requires Distinct(ns, info) && i <= |ns|
    requires forall q :: q in s <==> exists j :: i <= j < |ns| && q == info[ns[j]].id
    ensures |s| == |ns| - i
    decreases |ns| - i
  {
    if i == |ns| {
      assert s == {};
    } else {
      var q := info[ns[i]].id;
      forall p ensures p in s - {q} <==> exists j :: i + 1 <= j < |ns| && p == info[ns[j]].id {
        if j :| i + 1 <= j < |ns| && p == info[ns[j]].id {
          assert ns[j] != ns[i];
        }
      }
      LaterPeers(ns, info, i + 1, s - {q});
      assert q in s;
    }
  }

  lemma RowSize(ns: seq<string>, info: map<string, PeerInfo>, i: nat, row: map<string, seq<string>>)
    requires i < |ns| && Distinct(ns, info) && DialsLater(ns, info, i, row)
    ensures |row| == |ns| - 1 - i
  {
    LaterPeers(ns, info, i + 1, row.Keys);
  }

  /** The dials of the first n nodes: for each of them in turn, those of its peer's row. */
  ghost predicate Emitted(ns: seq<string>, info: map<string, PeerInfo>, conns: Conns, n: nat, rows: seq<seq<Dial>>, dials: seq<Dial>)
    requires n <= |ns| && forall m :: m in ns ==> m in info
  {
    && |rows| == n && dials == Flatten(rows)
    && forall i: nat :: i < n ==> NodeEmitted(ns, info, conns, i, rows[i])
  }

  ghost predicate NodeEmitted(ns: seq<string>, info: map<string, PeerInfo>, conns: Conns, i: nat, row: seq<Dial>)
    requires i < |ns| && ns[i] in info
  {
    var peer := PeerAt(ns, info, i);
    peer in conns && RowEmitted(ns[i], conns[peer], row) && |row| == |conns[peer]|
  }

  ghost function Flatten(rows: seq<seq<Dial>>): seq<Dial> {
    if rows == [] then [] else Flatten(rows[..|rows| - 1]) + rows[|rows| - 1]
  }

  /** The dial is in the row of the i-th node's peer. */
  ghost predicate PlannedAt(ns: seq<string>, info: map<string, PeerInfo>, conns: Conns, i: nat, d: Dial)
    requires i < |ns| && ns[i] in info
  {
    var peer := PeerAt(ns, info, i);
    d.node == ns[i] && peer in conns && d.peer in conns[peer] && conns[peer][d.peer] != [] && d.task == DialTask(conns[peer][d.peer])
  }

  /** The sizes of the first n nodes' rows together. */
  ghost function RowSizes(ns: seq<string>, info: map<string, PeerInfo>, conns: Conns, n: nat): nat
    requires n <= |ns| && forall i: nat :: i < n ==> ns[i] in info && PeerAt(ns, info, i) in conns
  {
    if n == 0 then 0 else RowSizes(ns, info, conns, n - 1) + |conns[PeerAt(ns, info, n - 1)]|
  }

  lemma {:induction false} EmittedAll(ns: seq<string>, info: map<string, PeerInfo>, conns: Conns, n: nat, rows: seq<seq<Dial>>, dials: seq<Dial>)
    requires (forall m :: m in ns ==> m in info) && n <= |ns| && Emitted(ns, info, conns, n, rows, dials)
    ensures forall d :: d in dials <==> exists i: nat :: i < n && PlannedAt(ns, info, conns, i, d)
    ensures (forall i: nat :: i < n ==> PeerAt(ns, info, i) in conns) && |dials| == RowSizes(ns, info, conns, n)
  {
    forall i: nat | i < n ensures PeerAt(ns, info, i) in conns {
      assert NodeEmitted(ns, info, conns, i, rows[i]);
    }
    if n > 0 {
      var m := n - 1;
      var before, more := Flatten(rows[..m]), rows[m];
      forall k: nat | k < m ensures NodeEmitted(ns, info, conns, k, rows[..m][k]) {
        assert NodeEmitted(ns, info, conns, k, rows[k]);
      }
      EmittedAll(ns, info, conns, m, rows[..m], before);
      assert NodeEmitted(ns, info, conns, m, more);
      assert forall d :: d in more <==> PlannedAt(ns, info, conns, m, d);
    }
  }

  /** Starts one goroutine per planned dial: each node makes exactly those of its peer's row. */
  method EmitDials(ns: seq<string>, info: map<string, PeerInfo>, conns: Conns) returns (dials: seq<Dial>, ghost rows: seq<seq<Dial>>)
    requires (forall n :: n in ns ==> n in info) && PlanSoFar(ns, info, |ns|, conns)
    ensures forall d :: d in dials <==> exists i: nat :: i < |ns| && PlannedAt(ns, info, conns, i, d)
    ensures (forall i: nat :: i < |ns| ==> PeerAt(ns, info, i) in conns) && |dials| == RowSizes(ns, info, conns, |ns|)
    ensures Emitted(ns, info, conns, |ns|, rows, dials)
    ensures AllConnect(dials, info)
  {
    dials, rows := [], [];
    for i := 0 to |ns|
      invariant Emitted(ns, info, conns, i, rows, dials)
    {
      ghost var was := rows;
      RowFound(ns, info, conns, i);
      var more := EmitRow(ns[i], conns[info[ns[i]].id]);
      dials, rows := dials + more, rows + [more];
      assert rows[..i] == was;
    }
    EmittedAll(ns, info, conns, |ns|, rows, dials);
    PlannedConnect(ns, info, conns, dials);
  }

  /** No two dials are from one node to one peer. */
  ghost predicate OneDialEach(dials: seq<Dial>) {
    forall a, b :: 0 <= a < b < |dials| ==> dials[a].node != dials[b].node || dials[a].peer != dials[b].peer
  }

  /** Distinct nodes are each asked once to dial each peer of their row. */
  lemma {:induction false} EmittedOnce(ns: seq<string>, info: map<string, PeerInfo>, conns: Conns, n: nat, rows: seq<seq<Dial>>, dials: seq<Dial>)
    requires NoDuplicates(ns) && (forall m :: m in ns ==> m in info) && n <= |ns| && Emitted(ns, info, conns, n, rows, dials)
    ensures OneDialEach(dials) && forall d :: d in dials ==> d.node in ns[..n]
    ensures forall d :: d in dials <==> exists i: nat :: i < n && d in rows[i]
  {
    if n > 0 {
      var i := n - 1;
      var before, more := Flatten(rows[..i]), rows[i];
      forall k: nat | k < i ensures NodeEmitted(ns, info, conns, k, rows[..i][k]) {
        assert NodeEmitted(ns, info, conns, k, rows[k]);
      }
      EmittedOnce(ns, info, conns, i, rows[..i], before);
      assert NodeEmitted(ns, info, conns, i, more);
      RowsJoin(ns, i, before, more);
      forall d ensures d in dials <==> exists k: nat :: k < n && d in rows[k] {
        if d in before {
          var k: nat :| k < i && d in rows[..i][k];
          assert d in rows[k];
        }
        if k: nat :| k < n && d in rows[k] {
          assert k < i ==> d in rows[..i][k];
        }
      }
    }
  }

  lemma RowsJoin(ns: seq<string>, n: nat, before: seq<Dial>, more: seq<Dial>)
    requires NoDuplicates(ns) && n < |ns| && OneDialEach(before) && NoDuplicates(more)
    requires (forall d :: d in before ==> d.node in ns[..n]) && forall d :: d in more ==> d.node == ns[n]
    requires forall d, e :: d in more && e in more && d.peer == e.peer ==> d == e
    ensures OneDialEach(before + more) && forall d :: d in before + more ==> d.node in ns[..n + 1]
  {
    var all := before + more;
    assert ns[..n + 1] == ns[..n] + [ns[n]];
    assert ns[n] !in ns[..n];
    forall a, b | 0 <= a < b < |all| ensures all[a].node != all[b].node || all[a].peer != all[b].peer {
      if a < |before| {
        assert all[a] in before && (b < |before| || all[b] in more);
      } else {
        assert all[a] in more && all[b] in more && all[a] != all[b];
      }
    }
  }

  /** Every node's peer has a row, and no address list in it is empty. */
  lemma RowFound(ns: seq<string>, info: map<string, PeerInfo>, conns: Conns, i: nat)
    requires (forall n :: n in ns ==> n in info) && PlanSoFar(ns, info, |ns|, conns) && i < |ns|
    ensures PeerAt(ns, info, i) in conns
    ensures forall q :: q in conns[PeerAt(ns, info, i)] ==> conns[PeerAt(ns, info, i)][q] != []
  {
    var p := PeerAt(ns, info, i);
    assert ns[..|ns|] == ns && ns[i] in ns;
    assert p in PeersOf(ns, info);
    var last := LastExists(ns, info, |ns|, i, p);
    assert RowFor(info, PeersOf(ns[..last + 1], info), conns[p]);
  }

  /** Among distinct nodes with distinct peers, what is emitted is one dial for each pair of a
      node and a node after it, and no others. */
  lemma {:induction false} DistinctDials(ns: seq<string>, info: map<string, PeerInfo>, conns: Conns, n: nat, rows: seq<seq<Dial>>, dials: seq<Dial>)
    requires Distinct(ns, info) && PlanSoFar(ns, info, |ns|, conns) && n <= |ns| && Emitted(ns, info, conns, n, rows, dials)
    ensures DialsOf(ns, info, TaskFor(), n, dials) && 2 * |dials| == Twice(|ns|, n)
  {
    if n > 0 {
      var i := n - 1;
      var before, more := Flatten(rows[..i]), rows[i];
      forall k: nat | k < i ensures NodeEmitted(ns, info, conns, k, rows[..i][k]) {
        assert NodeEmitted(ns, info, conns, k, rows[k]);
      }
      DistinctDials(ns, info, conns, i, rows[..i], before);
      assert NodeEmitted(ns, info, conns, i, more);
      var row := conns[PeerAt(ns, info, i)];
      RowsDialLater(ns, info, conns, i);
      RowFound(ns, info, conns, i);
      RowSize(ns, info, i, row);
      RowDials(ns, info, i, row, more);
      DialsGrow(ns, info, TaskFor(), i, before, more);
      TwiceNext(|ns|, i);
    }
  }

  ghost predicate DistinctPeers(answers: seq<Option<PeerInfo>>) {
    forall i, j :: 0 <= i < j < |answers| && answers[i].Some? && answers[j].Some? ==> answers[i].value.id != answers[j].value.id
  }

  /** These are the tasks of the plan made from what the nodes answered. */
  ghost predicate Connected(ns: seq<string>, info: map<string, PeerInfo>, conns: Conns, rows: seq<seq<Dial>>, dials: seq<Dial>) {
    AllReached(ns, info) && PlanSoFar(ns, info, |ns|, conns) && Emitted(ns, info, conns, |ns|, rows, dials) && AllConnect(dials, info)
  }

  /** The tasks that connecting these nodes runs; None if some node has no addresses to
      give. */
  method Connect(ns: seq<string>, answers: seq<Option<PeerInfo>>)
      returns (r: Option<seq<Dial>>, ghost info: map<string, PeerInfo>, ghost conns: Conns, ghost rows: seq<seq<Dial>>)
    requires |answers| == |ns|
    ensures r.Some? <==> forall i :: 0 <= i < |ns| ==> answers[i].Some? && answers[i].value.addrs != []
    ensures r.Some? ==> Connected(ns, info, conns, rows, r.value)
    ensures r.Some? ==> forall n :: n in info ==> exists i :: 0 <= i < |ns| && ns[i] == n && answers[i] == Some(info[n])
    ensures r.Some? && NoDuplicates(ns) && DistinctPeers(answers) ==>
      Distinct(ns, info) && DialsOf(ns, info, TaskFor(), |ns|, r.value) && 2 * |r.value| == |ns| * (|ns| - 1)
  {
    var collected := CollectPeerInfo(ns, answers);
    info := if collected.Some? then collected.value else map[];
    if collected.None? {
      return None, info, map[], [];
    }
    var plan := PlanDials(ns, collected.value);
    conns := plan;
    var dials;
    dials, rows := EmitDials(ns, collected.value, plan);
    if NoDuplicates(ns) && DistinctPeers(answers) {
      DistinctConnected(ns, answers, info, conns, rows, dials);
    }
    return Some(dials), info, conns, rows;
  }

  lemma DistinctConnected(ns: seq<string>, answers: seq<Option<PeerInfo>>, info: map<string, PeerInfo>, conns: Conns,
                          rows: seq<seq<Dial>>, dials: seq<Dial>)
    requires |answers| == |ns| && NoDuplicates(ns) && DistinctPeers(answers) && AllReached(ns, info)
    requires forall i :: 0 <= i < |ns| ==> answers[i] == Some(info[ns[i]])
    requires PlanSoFar(ns, info, |ns|, conns) && Emitted(ns, info, conns, |ns|, rows, dials)
    ensures Distinct(ns, info) && DialsOf(ns, info, TaskFor(), |ns|, dials) && 2 * |dials| == |ns| * (|ns| - 1)
  {
    assert forall i :: 0 <= i < |ns| ==> ns[i] in ns;
    AnswersDistinct(ns, answers, info);
    DistinctDials(ns, info, conns, |ns|, rows, dials);
    TwiceNext(|ns|, |ns|);
  }

  lemma AnswersDistinct(ns: seq<string>, answers: seq<Option<PeerInfo>>, info: map<string, PeerInfo>)
    requires |answers| == |ns| && NoDuplicates(ns) && DistinctPeers(answers)
    requires forall n :: n in info <==> n in ns
    requires forall i :: 0 <= i < |ns| ==> answers[i] == Some(info[ns[i]]) && info[ns[i]].addrs != []
    ensures Distinct(ns, info)
  {
    forall a, b | a in info && b in info && info[a].id == info[b].id ensures a == b {
      var i :| 0 <= i < |ns| && ns[i] == a;
      var j :| 0 <= j < |ns| && ns[j] == b;
    }
  }

  /** Twice the number of dials of the first i of n nodes. */
  function Twice(n: nat, i: nat): int {
    i * (2 * n - 1 - i)
  }

  lemma TwiceNext(n: nat, i: nat)
    ensures Twice(n, i + 1) == Twice(n, i) + 2 * (n - 1 - i)
    ensures Twice(n, n) == n * (n - 1)
  {
  }

  /** The dials of one row are those of the pairs it begins. */
  ghost predicate RowOf(ns: seq<string>, info: map<string, PeerInfo>, task: PeerInfo -> Task, i: nat, dials: seq<Dial>)
    requires Distinct(ns, info) && i < |ns|
  {
    && NoDuplicates(dials)
    && (forall d :: d in dials ==> exists j :: i < j < |ns| && d == DialOf(ns, info, task, i, j))
    && (forall j :: i < j < |ns| ==> DialOf(ns, info, task, i, j) in dials)
  }

  /** The dial of one peer in a row. */
  lemma OneDial(node: string, row: map<string, seq<string>>, dials: seq<Dial>, pi: PeerInfo, d: Dial)
    requires RowEmitted(node, row, dials) && pi.id in row && row[pi.id] == FullAddrs(pi) && row[pi.id] != []
    ensures d in dials && d.peer == pi.id <==> d == Dial(node, pi.id, TaskFor()(pi))
  {
  }

  lemma RowDials(ns: seq<string>, info: map<string, PeerInfo>, i: nat, row: map<string, seq<string>>, dials: seq<Dial>)
    requires Distinct(ns, info) && i < |ns| && DialsLater(ns, info, i, row)
    requires RowEmitted(ns[i], row, dials) && forall q :: q in row ==> row[q] != []
    ensures RowOf(ns, info, TaskFor(), i, dials)
  {
    forall d | d in dials ensures exists j :: i < j < |ns| && d == DialOf(ns, info, TaskFor(), i, j) {
      var j :| i < j < |ns| && d.peer == info[ns[j]].id;
      OneDial(ns[i], row, dials, info[ns[j]], d);
      assert d == DialOf(ns, info, TaskFor(), i, j);
    }
    forall j | i < j < |ns| ensures DialOf(ns, info, TaskFor(), i, j) in dials {
      OneDial(ns[i], row, dials, info[ns[j]], DialOf(ns, info, TaskFor(), i, j));
    }
  }

  lemma DialsGrow(ns: seq<string>, info: map<string, PeerInfo>, task: PeerInfo -> Task, n: nat, dials: seq<Dial>, more: seq<Dial>)
    requires Distinct(ns, info) && n < |ns| && DialsOf(ns, info, task, n, dials) && RowOf(ns, info, task, n, more)
    ensures DialsOf(ns, info, task, n + 1, dials + more)
  {
    var all := dials + more;
    forall d, e | d in dials && e in more ensures d != e {
      var i, j :| 0 <= i < n && i < j < |ns| && d == DialOf(ns, info, task, i, j);
      assert ns[i] != ns[n];
    }
    forall a, b | 0 <= a < b < |all| ensures all[a] != all[b] {
      if a < |dials| && b >= |dials| {
        assert all[a] in dials && all[b] in more;
      }
    }
    forall d | d in all ensures FromPair(ns, info, task, n + 1, d) {
      if d in dials {
        var i, j :| 0 <= i < n && i < j < |ns| && d == DialOf(ns, info, task, i, j);
      } else {
        var j :| n < j < |ns| && d == DialOf(ns, info, task, n, j);
      }
    }
    forall i, j | 0 <= i < n + 1 && i < j < |ns| ensures DialOf(ns, info, task, i, j) in all {
      assert i < n ==> DialOf(ns, info, task, i, j) in dials;
      assert i == n ==> DialOf(ns, info, task, n, j) in more;
    }
  }

  // ----- one direction, no cycles -----

  /** The dial is the one from the i-th node to the j-th. */
  predicate Between(ns: seq<string>, info: map<string, PeerInfo>, d: Dial, i: nat, j: nat)
    requires i < |ns| && j < |ns| && ns[j] in info
  {
    d.node == ns[i] && d.peer == info[ns[j]].id
  }

  /** Some dial goes from the i-th node to the j-th. */
  ghost predicate Dials(ns: seq<string>, info: map<string, PeerInfo>, dials: seq<Dial>, i: nat, j: nat)
    requires i < |ns| && j < |ns| && ns[j] in info
  {
    exists d :: d in dials && Between(ns, info, d, i, j)
  }

  lemma PairOf(ns: seq<string>, info: map<string, PeerInfo>, task: PeerInfo -> Task, d: Dial, i: nat, j: nat)
    requires Distinct(ns, info) && FromPair(ns, info, task, |ns|, d) && i < |ns| && j < |ns| && Between(ns, info, d, i, j)
    ensures i < j && d == DialOf(ns, info, task, i, j)
  {
    var a, b :| 0 <= a < |ns| && a < b < |ns| && d == DialOf(ns, info, task, a, b);
    assert ns[a] == ns[i] && ns[b] == ns[j];
  }

  lemma DialsForward(ns: seq<string>, info: map<string, PeerInfo>, task: PeerInfo -> Task, dials: seq<Dial>, i: nat, j: nat)
    requires Distinct(ns, info) && DialsOf(ns, info, task, |ns|, dials) && i < |ns| && j < |ns|
    ensures Dials(ns, info, dials, i, j) <==> i < j
  {
    if Dials(ns, info, dials, i, j) {
      var d :| d in dials && Between(ns, info, d, i, j);
      PairOf(ns, info, task, d, i, j);
    }
    if i < j {
      assert DialOf(ns, info, task, i, j) in dials && Between(ns, info, DialOf(ns, info, task, i, j), i, j);
    }
  }

  /** Each pair of nodes is dialled in exactly one direction and no node dials itself. */
  lemma OneDirection(ns: seq<string>, info: map<string, PeerInfo>, task: PeerInfo -> Task, dials: seq<Dial>, i: nat, j: nat)
    requires Distinct(ns, info) && DialsOf(ns, info, task, |ns|, dials) && i < |ns| && j < |ns|
    ensures i != j ==> (Dials(ns, info, dials, i, j) <==> !Dials(ns, info, dials, j, i))
    ensures !Dials(ns, info, dials, i, i)
  {
    DialsForward(ns, info, task, dials, i, j);
    DialsForward(ns, info, task, dials, j, i);
    DialsForward(ns, info, task, dials, i, i);
  }

  /** One task per dial, carrying all the addresses of the node dialled. */
  lemma OneTask(ns: seq<string>, info: map<string, PeerInfo>, dials: seq<Dial>, i: nat, j: nat, a: nat, b: nat)
    requires Distinct(ns, info) && DialsOf(ns, info, TaskFor(), |ns|, dials) && i < |ns| && j < |ns|
    requires a < |dials| && b < |dials| && Between(ns, info, dials[a], i, j) && Between(ns, info, dials[b], i, j)
    ensures a == b && ConnectsTo(dials[a].task, info[ns[j]])
  {
    assert dials[a] in dials && dials[b] in dials;
    PairOf(ns, info, TaskFor(), dials[a], i, j);
    PairOf(ns, info, TaskFor(), dials[b], i, j);
    DialTaskConnects(info[ns[j]]);
  }

  /** A walk along dials, by node index. */
  ghost predicate Walk(ns: seq<string>, info: map<string, PeerInfo>, dials: seq<Dial>, walk: seq<nat>)
    requires forall n :: n in ns ==> n in info
  {
    && (forall k :: 0 <= k < |walk| ==> walk[k] < |ns|)
    && (forall k :: 0 <= k < |walk| - 1 ==> Dials(ns, info, dials, walk[k], walk[k + 1]))
  }

  /** No walk along dials comes back to where it began. */
  lemma {:induction false} NoCycle(ns: seq<string>, info: map<string, PeerInfo>, task: PeerInfo -> Task, dials: seq<Dial>, walk: seq<nat>)
    requires Distinct(ns, info) && DialsOf(ns, info, task, |ns|, dials) && Walk(ns, info, dials, walk) && |walk| > 1
    ensures walk[0] < walk[|walk| - 1]
  {
    var n := |walk| - 1;
    DialsForward(ns, info, task, dials, walk[n - 1], walk[n]);
    assert Dials(ns, info, dials, walk[n - 1], walk[n - 1 + 1]);
    if n > 1 {
      var shorter := walk[..n];
      assert forall k :: 0 <= k < |shorter| - 1 ==> Dials(ns, info, dials, shorter[k], shorter[k + 1]);
      NoCycle(ns, info, task, dials, shorter);
    }
  }
}
