/** nodes/update.go: resolve every node's git reference, build every distinct commit once,
    hand every node the link of its build.

    The goroutines of a stage take the lock in any order; what matters of each is the one
    map entry it writes. */
module UpdateNodes {
  import opened Results
  import opened GoStrings
  import opened Groups

  ghost predicate AllAnswered(answers: seq<Option<string>>) {
    forall i :: 0 <= i < |answers| ==> answers[i].Some?
  }

  /** A reference's entry is one of the answers given for it; two nodes asking for the same
      reference may be answered differently. */
  ghost predicate Resolved(refs: seq<string>, answers: seq<Option<string>>, commitByRef: map<string, string>)
    requires |answers| == |refs|
  {
    && (forall ref :: ref in commitByRef <==> ref in refs)
    && (forall ref :: ref in commitByRef ==> exists i :: 0 <= i < |refs| && refs[i] == ref && answers[i] == Some(commitByRef[ref]))
  }

  method ResolveUniqueCommits(refs: seq<string>, answers: seq<Option<string>>) returns (r: Option<map<string, string>>)
    requires |answers| == |refs|
    ensures r.Some? <==> AllAnswered(answers)
    ensures r.Some? ==> Resolved(refs, answers, r.value)
  {
    var commitByRef: map<string, string> := map[];
    var pending := Indices(|refs|);
    var failed := false;
    while pending != {}
      invariant forall i :: i in pending ==> 0 <= i < |refs|
      invariant failed <==> exists i :: 0 <= i < |refs| && i !in pending && answers[i].None?
      invariant forall i :: 0 <= i < |refs| && i !in pending && !failed ==> refs[i] in commitByRef
      invariant forall ref :: ref in commitByRef ==>
        exists i :: 0 <= i < |refs| && refs[i] == ref && answers[i] == Some(commitByRef[ref])
      decreases |pending|
    {
      var i :| i in pending;
      pending := pending - {i};
      if answers[i].None? {
        failed := true;
        continue;
      }
      commitByRef := commitByRef[refs[i] := answers[i].value];
    }
    if failed {
      return None;
    }
    return Some(commitByRef);
  }

  /** The distinct commits, sorted. */
  method DistinctCommits(commitByRef: map<string, string>) returns (commits: seq<string>)
    ensures StrictlySorted(commits)
    ensures forall c :: c in commits <==> IsCommit(commitByRef, c)
  {
    var commitSet: set<string> := {};
    var refs := commitByRef.Keys;
    while refs != {}
      invariant refs <= commitByRef.Keys
      invariant forall c :: c in commitSet <==> exists ref :: ref in commitByRef && ref !in refs && commitByRef[ref] == c
      decreases |refs|
    {
      var ref :| ref in refs;
      ghost var was := refs;
      refs := refs - {ref};
      forall c ensures c in commitSet + {commitByRef[ref]} <==>
        exists r :: r in commitByRef && r !in refs && commitByRef[r] == c
      {
        assert c == commitByRef[ref] ==> ref in commitByRef && ref !in refs;
      }
      commitSet := commitSet + {commitByRef[ref]};
    }
    commits := [];
    var rest := commitSet;
    while rest != {}
      invariant rest <= commitSet && NoDuplicates(commits)
      invariant forall c :: c in commits <==> c in commitSet && c !in rest
      decreases |rest|
    {
      var c :| c in rest;
      commits := commits + [c];
      rest := rest - {c};
    }
    SortOfDistinct(commits);
    commits := Sort(commits);
  }

  /** Builds every commit; `builds` lists the builds in the order they ended. */
  method BuildCommits(commits: seq<string>, build: string -> Option<string>)
      returns (r: Option<map<string, string>>, builds: seq<string>)
    requires NoDuplicates(commits)
    ensures NoDuplicates(builds) && forall c :: c in builds <==> c in commits
    ensures r.Some? <==> forall c :: c in commits ==> build(c).Some?
    ensures r.Some? ==> forall c :: (c in r.value <==> c in commits) && (c in commits ==> build(c) == Some(r.value[c]))
  {
    var linkByCommit: map<string, string> := map[];
    var pending := Indices(|commits|);
    var failed := false;
    builds := [];
    while pending != {}
      invariant forall i :: i in pending ==> 0 <= i < |commits|
      invariant NoDuplicates(builds)
      invariant forall c :: c in builds <==> exists i :: 0 <= i < |commits| && i !in pending && commits[i] == c
      invariant failed <==> exists c :: c in builds && build(c).None?
      invariant !failed ==> forall c :: c in linkByCommit <==> c in builds
      invariant forall c :: c in linkByCommit ==> build(c) == Some(linkByCommit[c])
      decreases |pending|
    {
      var i :| i in pending;
      var c := commits[i];
      assert c !in builds by {
        forall k | 0 <= k < |commits| && k !in pending ensures commits[k] != c {
          assert k != i;
        }
      }
      pending := pending - {i};
      builds := builds + [c];
      var link := build(c);
      if link.None? {
        failed := true;
        assert c in builds;
        continue;
      }
      linkByCommit := linkByCommit[c := link.value];
    }
    if failed {
      return None, builds;
    }
    return Some(linkByCommit), builds;
  }

  ghost predicate IsCommit(commitByRef: map<string, string>, c: string) {
    exists ref :: ref in commitByRef && commitByRef[ref] == c
  }

  /** Every node is handed the link its reference's commit was built to. */
  ghost predicate Delivered(refs: seq<string>, commitByRef: map<string, string>, build: string -> Option<string>, links: seq<string>) {
    |links| == |refs| && forall i :: 0 <= i < |refs| ==> refs[i] in commitByRef && build(commitByRef[refs[i]]) == Some(links[i])
  }

  method Distribute(refs: seq<string>, commitByRef: map<string, string>, linkByCommit: map<string, string>,
                    ghost build: string -> Option<string>) returns (links: seq<string>)
    requires forall i :: 0 <= i < |refs| ==> refs[i] in commitByRef && commitByRef[refs[i]] in linkByCommit
    requires forall c :: c in linkByCommit ==> build(c) == Some(linkByCommit[c])
    ensures Delivered(refs, commitByRef, build, links)
  {
    links := [];
    for i := 0 to |refs|
      invariant |links| == i
      invariant forall k :: 0 <= k < i ==> build(commitByRef[refs[k]]) == Some(links[k])
    {
      links := links + [linkByCommit[commitByRef[refs[i]]]];
    }
  }

  /** Nodes with the same reference run the same build. */
  lemma SameReferenceSameLink(refs: seq<string>, commitByRef: map<string, string>, build: string -> Option<string>, links: seq<string>, i: nat, j: nat)
    requires Delivered(refs, commitByRef, build, links) && i < |refs| && j < |refs| && refs[i] == refs[j]
    ensures links[i] == links[j]
  {
    assert build(commitByRef[refs[i]]) == Some(links[i]);
    assert build(commitByRef[refs[j]]) == Some(links[j]);
  }

  /** Updates the nodes: `refs` are their git references, `answers` what resolving each gave,
      `build` what building a commit gives.  The links are what the nodes are told to run;
      None if the nodes were never told. */
  method Update(refs: seq<string>, answers: seq<Option<string>>, build: string -> Option<string>)
      returns (links: Option<seq<string>>, builds: seq<string>, ghost commitByRef: map<string, string>)
    requires |answers| == |refs|
    ensures NoDuplicates(builds) && (!AllAnswered(answers) ==> builds == [])
    ensures AllAnswered(answers) ==> Resolved(refs, answers, commitByRef)
    ensures AllAnswered(answers) ==> forall c :: c in builds <==> IsCommit(commitByRef, c)
    ensures links.Some? <==> AllAnswered(answers) && forall c :: IsCommit(commitByRef, c) ==> build(c).Some?
    ensures links.Some? ==> Delivered(refs, commitByRef, build, links.value)
  {
    builds := [];
    var resolved := ResolveUniqueCommits(refs, answers);
    commitByRef := if resolved.Some? then resolved.value else map[];
    if resolved.None? {
      return None, builds, commitByRef;
    }
    var commits := DistinctCommits(resolved.value);
    StrictlySortedDistinct(commits);
    var built;
    built, builds := BuildCommits(commits, build);
    if built.None? {
      return None, builds, commitByRef;
    }
    forall i | 0 <= i < |refs| ensures refs[i] in commitByRef && commitByRef[refs[i]] in built.value {
      assert refs[i] in refs;
      assert IsCommit(commitByRef, commitByRef[refs[i]]);
    }
    var told := Distribute(refs, resolved.value, built.value, build);
    return Some(told), builds, commitByRef;
  }

  /** Some node gets a commit other than the one it was answered exactly when two nodes with
      one reference were answered differently; the commit it gets was answered to another of
      the nodes with that reference. */
  lemma OverruledWhenDiffering(refs: seq<string>, answers: seq<Option<string>>, commitByRef: map<string, string>)
    requires |answers| == |refs| && Resolved(refs, answers, commitByRef)
    ensures (exists k :: 0 <= k < |refs| && Overruled(refs, answers, commitByRef, k)) <==>
      exists i, j :: 0 <= i < |refs| && 0 <= j < |refs| && refs[i] == refs[j] && answers[i] != answers[j]
    ensures forall k :: 0 <= k < |refs| && Overruled(refs, answers, commitByRef, k) ==>
      exists j :: 0 <= j < |refs| && refs[j] == refs[k] && answers[j] != answers[k] && answers[j] == Some(commitByRef[refs[k]])
  {
    forall k | 0 <= k < |refs| && Overruled(refs, answers, commitByRef, k)
      ensures exists j :: 0 <= j < |refs| && refs[j] == refs[k] && answers[j] != answers[k] && answers[j] == Some(commitByRef[refs[k]])
    {
      assert refs[k] in refs;
    }
    if k :| 0 <= k < |refs| && Overruled(refs, answers, commitByRef, k) {
      assert refs[k] in refs;
      var i :| 0 <= i < |refs| && refs[i] == refs[k] && answers[i] == Some(commitByRef[refs[k]]);
      assert refs[i] == refs[k] && answers[i] != answers[k];
    }
    if i, j :| 0 <= i < |refs| && 0 <= j < |refs| && refs[i] == refs[j] && answers[i] != answers[j] {
      assert refs[i] in refs && refs[j] in refs;
      assert Overruled(refs, answers, commitByRef, i) || Overruled(refs, answers, commitByRef, j);
    }
  }

  predicate Overruled(refs: seq<string>, answers: seq<Option<string>>, commitByRef: map<string, string>, k: int)
    requires |answers| == |refs| && 0 <= k < |refs|
  {
    refs[k] in commitByRef && answers[k] != Some(commitByRef[refs[k]])
  }
}
