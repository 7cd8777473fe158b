/** metadata/helpers.go: relabelling several records in one call.

    The set of labels to add is shared by all the ids and shrinks on the way, so what a
    record ends up with depends on the records before it. */
module LabelBatch {
  import opened GoStrings
  import opened Results
  import opened Records
  import opened MetadataHelpers
  import opened StoreRecords
  import opened StoreTree
  import opened StoreSteps
  import opened StoreFormat
  import opened StoreRuns
  import opened StoreFrames

  // ----- what a relabelling leaves, in closed form -----

  /** The labels of a record that are not removed. */
  ghost function KeptOf(p: Plain, kind: Kind, id: string, removes: set<string>): set<string> {
    match Was(p, Slot(kind, id)) case Some(rec) => Members(Labels(rec)) - removes case None => {}
  }

  /** The labels kept by the records of these ids together. */
  ghost function KeptBy(p: Plain, kind: Kind, ids: seq<string>, removes: set<string>): set<string> {
    if ids == [] then {} else KeptBy(p, kind, ids[..|ids| - 1], removes) + KeptOf(p, kind, ids[|ids| - 1], removes)
  }

  /** The labels still to add after these ids: those that no id has kept, and, once an id has
      come twice, only those that are to be removed as well. */
  ghost function Left(p: Plain, kind: Kind, ids: seq<string>, adds: set<string>, removes: set<string>): set<string> {
    if NoDuplicates(ids) then adds - KeptBy(p, kind, ids, removes) else adds * removes
  }

  /** What relabelling leaves of the i-th record, if its id comes there first: its kept
      labels, and what is left to add. */
  ghost function NewLabels(p: Plain, kind: Kind, ids: seq<string>, i: nat, adds: set<string>, removes: set<string>): set<string>
    requires i < |ids|
  {
    KeptOf(p, kind, ids[i], removes) + Left(p, kind, ids[..i], adds, removes)
  }

  /** What a caller would expect: the kept labels and all the added ones. */
  ghost function IntendedLabels(p: Plain, kind: Kind, id: string, adds: set<string>, removes: set<string>): set<string> {
    KeptOf(p, kind, id, removes) + adds
  }

  /** The i-th id has not come before. */
  predicate First(ids: seq<string>, i: nat)
    requires i < |ids|
  {
    ids[i] !in ids[..i]
  }

  /** The record stored after a record was given these labels. */
  type Outcome = (Record, set<string>, Time) -> Option<Record>

  ghost function Relabelling(u: Rules): Outcome {
    (rec, labels, now) => u.normal(Some(rec), Relabelled(rec, SortedSet(labels), now))
  }

  /** The record is written with these labels each time its id comes. */
  ghost function WrittenEach(out: Outcome, o: Option<Record>, labels: set<string>, id: string, ids: seq<string>,
                             clock: nat -> Time): Option<Record> {
    if ids == [] then o
    else
      var n := |ids| - 1;
      var before := WrittenEach(out, o, labels, id, ids[..n], clock);
      if ids[n] != id then before
      else match before case Some(rec) => out(rec, labels, clock(n)) case None => None
  }

  lemma {:induction false} NotWritten(out: Outcome, o: Option<Record>, labels: set<string>, id: string, ids: seq<string>, clock: nat -> Time)
    requires id !in ids
    ensures WrittenEach(out, o, labels, id, ids, clock) == o
  {
    if ids != [] {
      NotWritten(out, o, labels, id, ids[..|ids| - 1], clock);
    }
  }

  /** An id that comes once is written once. */
  lemma {:induction false} WrittenOnce(out: Outcome, rec: Record, labels: set<string>, ids: seq<string>, i: nat, clock: nat -> Time)
    requires i < |ids| && NoDuplicates(ids)
    ensures WrittenEach(out, Some(rec), labels, ids[i], ids, clock) == out(rec, labels, clock(i))
  {
    var n := |ids| - 1;
    if i < n {
      WrittenOnce(out, rec, labels, ids[..n], i, clock);
    } else {
      NotWritten(out, Some(rec), labels, ids[n], ids[..n], clock);
    }
  }

  // ----- the sets -----

  lemma {:induction false} KeptByMembers(p: Plain, kind: Kind, ids: seq<string>, removes: set<string>, l: string)
    ensures l in KeptBy(p, kind, ids, removes) <==> exists j :: 0 <= j < |ids| && l in KeptOf(p, kind, ids[j], removes)
  {
    if ids != [] {
      var n := |ids| - 1;
      KeptByMembers(p, kind, ids[..n], removes, l);
      if l in KeptBy(p, kind, ids[..n], removes) {
        var j :| 0 <= j < n && l in KeptOf(p, kind, ids[..n][j], removes);
        assert l in KeptOf(p, kind, ids[j], removes);
      } else {
        assert forall j :: 0 <= j < n ==> l !in KeptOf(p, kind, ids[..n][j], removes);
      }
    }
  }

  lemma {:induction false} KeptByOutside(p: Plain, kind: Kind, ids: seq<string>, removes: set<string>)
    ensures KeptBy(p, kind, ids, removes) !! removes
  {
    if ids != [] {
      KeptByOutside(p, kind, ids[..|ids| - 1], removes);
    }
  }

  /** What is left only shrinks, and labels that are to be added and removed stay. */
  lemma {:induction false} LeftShrinks(p: Plain, kind: Kind, ids: seq<string>, i: nat, adds: set<string>, removes: set<string>)
    requires i <= |ids|
    ensures adds * removes <= Left(p, kind, ids, adds, removes) <= Left(p, kind, ids[..i], adds, removes) <= adds
  {
    KeptByOutside(p, kind, ids, removes);
    KeptByOutside(p, kind, ids[..i], removes);
    if NoDuplicates(ids) {
      forall l | l in KeptBy(p, kind, ids[..i], removes) ensures l in KeptBy(p, kind, ids, removes) {
        KeptByMembers(p, kind, ids[..i], removes, l);
        KeptByMembers(p, kind, ids, removes, l);
        var j :| 0 <= j < i && l in KeptOf(p, kind, ids[..i][j], removes);
        assert l in KeptOf(p, kind, ids[j], removes);
      }
    }
  }

  lemma DuplicateAt(ids: seq<string>, n: nat)
    requires n < |ids|
    ensures NoDuplicates(ids[..n + 1]) <==> NoDuplicates(ids[..n]) && First(ids, n)
  {
    var s := ids[..n + 1];
    assert s[..n] == ids[..n] && s[n] == ids[n];
    if NoDuplicates(ids[..n]) && First(ids, n) {
      forall i, j | 0 <= i < j < |s| ensures s[i] != s[j] {
        if j == n {
          assert s[i] == ids[..n][i];
        } else {
          assert s[i] == ids[..n][i] && s[j] == ids[..n][j];
        }
      }
    }
    if NoDuplicates(s) {
      assert forall i, j :: 0 <= i < j < n ==> s[i] == ids[..n][i] && s[j] == ids[..n][j];
      assert forall i :: 0 <= i < n ==> ids[..n][i] == s[i] != s[n];
    }
  }

  /** The labels for an id that comes for the first time, and what is left after it. */
  lemma FirstTime(p: Plain, kind: Kind, ids: seq<string>, n: nat, adds: set<string>, removes: set<string>)
    requires n < |ids| && First(ids, n)
    ensures var kept, left := KeptOf(p, kind, ids[n], removes), Left(p, kind, ids[..n], adds, removes);
      && kept + (left - kept) == NewLabels(p, kind, ids, n, adds, removes)
      && left - kept == Left(p, kind, ids[..n + 1], adds, removes)
  {
    DuplicateAt(ids, n);
    assert ids[..n + 1][..n] == ids[..n];
  }

  /** An id that has come before keeps its labels, and all that is left goes. */
  lemma NextTime(p: Plain, kind: Kind, ids: seq<string>, i: nat, n: nat, adds: set<string>, removes: set<string>)
    requires i < n < |ids| && ids[n] == ids[i]
    ensures var labels, left := NewLabels(p, kind, ids, i, adds, removes), Left(p, kind, ids[..n], adds, removes);
      var kept := labels - removes;
      && kept + (left - kept) == labels
      && left - kept == Left(p, kind, ids[..n + 1], adds, removes)
  {
    DuplicateAt(ids, n);
    assert ids[..n][i] == ids[n];
    LeftShrinks(p, kind, ids[..n], i, adds, removes);
    LeftShrinks(p, kind, ids[..n], n, adds, removes);
    assert ids[..n][..i] == ids[..i];
  }

  // ----- the chain of relabellings -----

  /** One record relabelled. */
  ghost predicate OneDone(out: Outcome, s: PlainBatch, t: PlainBatch, slot: Slot, removes: set<string>, now: Time) {
    slot in s.store.records && s.store.records[slot].Some? &&
    var rec := s.store.records[slot].value;
    var kept := Members(Labels(rec)) - removes;
    && t.adds == s.adds - kept
    && t.store == s.store.(records := s.store.records[slot := out(rec, kept + (s.adds - kept), now)])
  }

  ghost predicate Chained(out: Outcome, p: Plain, kind: Kind, ids: seq<string>, adds: set<string>, removes: set<string>,
                          clock: nat -> Time, trace: seq<PlainBatch>) {
    && |trace| == |ids| + 1 && trace[0].store == p && trace[0].adds == adds
    && forall i :: 0 <= i < |ids| ==> OneDone(out, trace[i], trace[i + 1], Slot(kind, ids[i]), removes, clock(i))
  }

  lemma OneTraced(u: Rules, s: PlainBatch, t: PlainBatch, slot: Slot, removes: set<string>, now: Time)
    requires PlainRelabelOne(u, s, slot, removes, now) == Success(t)
    ensures OneDone(Relabelling(u), s, t, slot, removes, now)
  {
  }

  lemma LastOfBatch(u: Rules, p: Plain, kind: Kind, ids: seq<string>, adds: set<string>, removes: set<string>,
                    clock: nat -> Time) returns (t: PlainBatch)
    requires ids != [] && PlainRelabel(u, p, kind, ids, adds, removes, clock).Success?
    ensures PlainRelabel(u, p, kind, ids, adds, removes, clock) == Success(t)
    ensures PlainRelabel(u, p, kind, ids[..|ids| - 1], adds, removes, clock).Success?
    ensures OneDone(Relabelling(u), PlainRelabel(u, p, kind, ids[..|ids| - 1], adds, removes, clock).value, t,
                    Slot(kind, ids[|ids| - 1]), removes, clock(|ids| - 1))
  {
    var n := |ids| - 1;
    t := PlainRelabel(u, p, kind, ids, adds, removes, clock).value;
    OneTraced(u, PlainRelabel(u, p, kind, ids[..n], adds, removes, clock).value, t, Slot(kind, ids[n]), removes, clock(n));
  }

  lemma {:induction false} BatchTrace(u: Rules, p: Plain, kind: Kind, ids: seq<string>, adds: set<string>,
                                      removes: set<string>, clock: nat -> Time) returns (trace: seq<PlainBatch>)
    requires PlainRelabel(u, p, kind, ids, adds, removes, clock).Success?
    ensures Chained(Relabelling(u), p, kind, ids, adds, removes, clock, trace)
    ensures PlainRelabel(u, p, kind, ids, adds, removes, clock) == Success(trace[|ids|])
  {
    if ids == [] {
      trace := [PlainBatch(p, adds, [])];
    } else {
      var n := |ids| - 1;
      var t := LastOfBatch(u, p, kind, ids, adds, removes, clock);
      var before := BatchTrace(u, p, kind, ids[..n], adds, removes, clock);
      trace := before + [t];
      ChainGrows(Relabelling(u), p, kind, ids, adds, removes, clock, before, t);
    }
  }

  lemma ChainGrows(out: Outcome, p: Plain, kind: Kind, ids: seq<string>, adds: set<string>, removes: set<string>,
                   clock: nat -> Time, before: seq<PlainBatch>, t: PlainBatch)
    requires ids != [] && Chained(out, p, kind, ids[..|ids| - 1], adds, removes, clock, before)
    requires OneDone(out, before[|ids| - 1], t, Slot(kind, ids[|ids| - 1]), removes, clock(|ids| - 1))
    ensures Chained(out, p, kind, ids, adds, removes, clock, before + [t])
  {
    var n, trace := |ids| - 1, before + [t];
    forall i | 0 <= i < |ids| ensures OneDone(out, trace[i], trace[i + 1], Slot(kind, ids[i]), removes, clock(i)) {
      if i < n {
        assert OneDone(out, before[i], before[i + 1], Slot(kind, ids[..n][i]), removes, clock(i));
      }
    }
  }

  // ----- what has been done after n ids -----

  /** The outcome keeps the labels it is given. */
  ghost predicate KeepsLabels(out: Outcome) {
    forall rec, labels, now :: out(rec, labels, now).Some? ==> Members(Labels(out(rec, labels, now).value)) == labels
  }

  lemma FormatKeepsLabels(x: Texts)
    ensures KeepsLabels(Relabelling(FormatOf(x).rules))
  {
    forall rec, labels, now ensures var o := Normal(x, Some(rec), Relabelled(rec, SortedSet(labels), now));
      o.Some? ==> Members(Labels(o.value)) == labels
    {
      NormalKeepsLabels(x, Some(rec), Relabelled(rec, SortedSet(labels), now));
      RelabelledLabels(rec, SortedSet(labels), now);
      assert Members(SortedSet(labels)) == labels;
    }
  }

  lemma RelabelledLabels(rec: Record, labels: seq<string>, now: Time)
    ensures Labels(Relabelled(rec, labels, now)) == labels
  {
  }

  lemma NormalKeepsLabels(x: Texts, was: Option<Record>, rec: Record)
    ensures var o := Normal(x, was, rec); o.Some? ==> Members(Labels(o.value)) == Members(Labels(rec))
  {
    assert Members(SortedSet(Members(Labels(rec)))) == Members(Labels(rec));
  }

  /** The slot of the i-th id, first there, holds its record, written with its new labels as
      often as the id has come. */
  ghost predicate RelabelledAs(out: Outcome, p: Plain, q: Plain, kind: Kind, ids: seq<string>, n: nat, i: nat,
                               adds: set<string>, removes: set<string>, clock: nat -> Time)
    requires i < n <= |ids|
  {
    var slot, labels := Slot(kind, ids[i]), NewLabels(p, kind, ids, i, adds, removes);
    && slot in p.records && p.records[slot].Some? && slot in q.records
    && q.records[slot] == WrittenEach(out, p.records[slot], labels, ids[i], ids[..n], clock)
    && (q.records[slot].Some? ==> Members(Labels(q.records[slot].value)) == labels)
  }

  /** How far a chain of relabellings has come after n of its ids. */
  ghost predicate Reached(out: Outcome, p: Plain, s: PlainBatch, kind: Kind, ids: seq<string>, n: nat,
                          adds: set<string>, removes: set<string>, clock: nat -> Time)
    requires n <= |ids|
  {
    && s.adds == Left(p, kind, ids[..n], adds, removes)
    && s.store.records.Keys == p.records.Keys
    && (forall slot :: slot in p.records && !(slot.kind == kind && slot.id in ids[..n]) ==> s.store.records[slot] == p.records[slot])
    && (forall i: nat :: i < n && First(ids, i) ==> RelabelledAs(out, p, s.store, kind, ids, n, i, adds, removes, clock))
  }

  /** The step, seen from the slot it is about. */
  ghost predicate StepGives(out: Outcome, p: Plain, s: PlainBatch, t: PlainBatch, kind: Kind, ids: seq<string>, n: nat,
                            labels: set<string>, adds: set<string>, removes: set<string>, now: Time)
    requires n < |ids|
  {
    var slot := Slot(kind, ids[n]);
    && slot in s.store.records && s.store.records[slot].Some?
    && t.store == s.store.(records := s.store.records[slot := out(s.store.records[slot].value, labels, now)])
    && t.adds == Left(p, kind, ids[..n + 1], adds, removes)
  }

  lemma StepFirst(out: Outcome, p: Plain, s: PlainBatch, t: PlainBatch, kind: Kind, ids: seq<string>, n: nat,
                  adds: set<string>, removes: set<string>, clock: nat -> Time)
    requires n < |ids| && Reached(out, p, s, kind, ids, n, adds, removes, clock) && First(ids, n)
    requires OneDone(out, s, t, Slot(kind, ids[n]), removes, clock(n))
    ensures StepGives(out, p, s, t, kind, ids, n, NewLabels(p, kind, ids, n, adds, removes), adds, removes, clock(n))
    ensures s.store.records[Slot(kind, ids[n])] == p.records[Slot(kind, ids[n])]
  {
    FirstTime(p, kind, ids, n, adds, removes);
  }

  lemma StepNext(out: Outcome, p: Plain, s: PlainBatch, t: PlainBatch, kind: Kind, ids: seq<string>, n: nat, i: nat,
                 adds: set<string>, removes: set<string>, clock: nat -> Time)
    requires i < n < |ids| && Reached(out, p, s, kind, ids, n, adds, removes, clock) && First(ids, i) && ids[i] == ids[n]
    requires OneDone(out, s, t, Slot(kind, ids[n]), removes, clock(n))
    ensures StepGives(out, p, s, t, kind, ids, n, NewLabels(p, kind, ids, i, adds, removes), adds, removes, clock(n))
  {
    assert RelabelledAs(out, p, s.store, kind, ids, n, i, adds, removes, clock);
    NextTime(p, kind, ids, i, n, adds, removes);
  }

  /** Another slot's record is not touched by the step. */
  lemma OthersStay(out: Outcome, p: Plain, s: PlainBatch, t: PlainBatch, kind: Kind, ids: seq<string>, n: nat, i: nat,
                   labels: set<string>, adds: set<string>, removes: set<string>, clock: nat -> Time)
    requires i < n < |ids| && ids[i] != ids[n] && RelabelledAs(out, p, s.store, kind, ids, n, i, adds, removes, clock)
    requires StepGives(out, p, s, t, kind, ids, n, labels, adds, removes, clock(n))
    ensures RelabelledAs(out, p, t.store, kind, ids, n + 1, i, adds, removes, clock)
  {
    assert ids[..n + 1][..n] == ids[..n] && ids[..n + 1][n] == ids[n];
  }

  /** The slot of the step holds its record with the labels of the id's first coming. */
  lemma ThisWritten(out: Outcome, p: Plain, s: PlainBatch, t: PlainBatch, kind: Kind, ids: seq<string>, n: nat, i: nat,
                    adds: set<string>, removes: set<string>, clock: nat -> Time)
    requires KeepsLabels(out) && i <= n < |ids| && ids[i] == ids[n]
    requires StepGives(out, p, s, t, kind, ids, n, NewLabels(p, kind, ids, i, adds, removes), adds, removes, clock(n))
    requires Slot(kind, ids[i]) in p.records && p.records[Slot(kind, ids[i])].Some?
    requires s.store.records[Slot(kind, ids[i])] ==
      WrittenEach(out, p.records[Slot(kind, ids[i])], NewLabels(p, kind, ids, i, adds, removes), ids[i], ids[..n], clock)
    ensures RelabelledAs(out, p, t.store, kind, ids, n + 1, i, adds, removes, clock)
  {
    assert ids[..n + 1][..n] == ids[..n] && ids[..n + 1][n] == ids[n];
  }

  lemma FirstOf(ids: seq<string>, n: nat) returns (i: nat)
    requires n < |ids|
    ensures i <= n && First(ids, i) && ids[i] == ids[n]
    decreases n
  {
    i := n;
    if !First(ids, n) {
      var j: nat :| j < n && ids[..n][j] == ids[n];
      i := FirstOf(ids, j);
    }
  }

  /** What the step does, and how the slot it is about stands after it. */
  lemma StepReaches(out: Outcome, p: Plain, s: PlainBatch, t: PlainBatch, kind: Kind, ids: seq<string>, i: nat, n: nat,
                    adds: set<string>, removes: set<string>, clock: nat -> Time)
    requires KeepsLabels(out) && i <= n < |ids| && First(ids, i) && ids[i] == ids[n]
    requires Reached(out, p, s, kind, ids, n, adds, removes, clock) && OneDone(out, s, t, Slot(kind, ids[n]), removes, clock(n))
    ensures StepGives(out, p, s, t, kind, ids, n, NewLabels(p, kind, ids, i, adds, removes), adds, removes, clock(n))
    ensures RelabelledAs(out, p, t.store, kind, ids, n + 1, i, adds, removes, clock)
  {
    if i == n {
      StepFirst(out, p, s, t, kind, ids, n, adds, removes, clock);
      NotWritten(out, p.records[Slot(kind, ids[n])], NewLabels(p, kind, ids, n, adds, removes), ids[n], ids[..n], clock);
    } else {
      StepNext(out, p, s, t, kind, ids, n, i, adds, removes, clock);
      assert RelabelledAs(out, p, s.store, kind, ids, n, i, adds, removes, clock);
    }
    ThisWritten(out, p, s, t, kind, ids, n, i, adds, removes, clock);
  }

  /** The ids seen so far stand as they should. */
  lemma FirstsStand(out: Outcome, p: Plain, s: PlainBatch, t: PlainBatch, kind: Kind, ids: seq<string>, i: nat, n: nat,
                    labels: set<string>, adds: set<string>, removes: set<string>, clock: nat -> Time)
    requires i <= n < |ids| && First(ids, i) && ids[i] == ids[n]
    requires Reached(out, p, s, kind, ids, n, adds, removes, clock) && StepGives(out, p, s, t, kind, ids, n, labels, adds, removes, clock(n))
    requires RelabelledAs(out, p, t.store, kind, ids, n + 1, i, adds, removes, clock)
    ensures forall k: nat :: k < n + 1 && First(ids, k) ==> RelabelledAs(out, p, t.store, kind, ids, n + 1, k, adds, removes, clock)
  {
    forall k: nat | k < n + 1 && First(ids, k) ensures RelabelledAs(out, p, t.store, kind, ids, n + 1, k, adds, removes, clock) {
      if ids[k] == ids[n] {
        FirstsAgree(ids, i, k);
      } else {
        OthersStay(out, p, s, t, kind, ids, n, k, labels, adds, removes, clock);
      }
    }
  }

  /** The slots of ids not seen so far are as they were. */
  lemma UnseenStand(out: Outcome, p: Plain, s: PlainBatch, t: PlainBatch, kind: Kind, ids: seq<string>, n: nat,
                    labels: set<string>, adds: set<string>, removes: set<string>, clock: nat -> Time)
    requires n < |ids| && Reached(out, p, s, kind, ids, n, adds, removes, clock)
    requires StepGives(out, p, s, t, kind, ids, n, labels, adds, removes, clock(n))
    ensures t.store.records.Keys == p.records.Keys
    ensures forall slot :: slot in p.records && !(slot.kind == kind && slot.id in ids[..n + 1]) ==> t.store.records[slot] == p.records[slot]
  {
    forall slot | slot in p.records && !(slot.kind == kind && slot.id in ids[..n + 1]) ensures t.store.records[slot] == p.records[slot] {
      assert ids[..n + 1][..n] == ids[..n] && ids[..n + 1][n] == ids[n];
      InLast(ids[..n + 1], slot.id);
    }
  }

  lemma ReachOne(out: Outcome, p: Plain, s: PlainBatch, t: PlainBatch, kind: Kind, ids: seq<string>, n: nat,
                 adds: set<string>, removes: set<string>, clock: nat -> Time)
    requires KeepsLabels(out) && n < |ids| && Reached(out, p, s, kind, ids, n, adds, removes, clock)
    requires OneDone(out, s, t, Slot(kind, ids[n]), removes, clock(n))
    ensures Reached(out, p, t, kind, ids, n + 1, adds, removes, clock)
  {
    var i := FirstOf(ids, n);
    var labels := NewLabels(p, kind, ids, i, adds, removes);
    StepReaches(out, p, s, t, kind, ids, i, n, adds, removes, clock);
    FirstsStand(out, p, s, t, kind, ids, i, n, labels, adds, removes, clock);
    UnseenStand(out, p, s, t, kind, ids, n, labels, adds, removes, clock);
  }

  lemma ComesAgain(ids: seq<string>, i: nat, k: nat)
    requires i < k < |ids| && ids[i] == ids[k]
    ensures !First(ids, k)
  {
    assert ids[..k][i] == ids[k];
  }

  lemma FirstsAgree(ids: seq<string>, i: nat, k: nat)
    requires i < |ids| && k < |ids| && First(ids, i) && First(ids, k) && ids[i] == ids[k]
    ensures i == k
  {
    if i < k {
      ComesAgain(ids, i, k);
    } else if k < i {
      ComesAgain(ids, k, i);
    }
  }

  lemma {:induction false} ReachAll(out: Outcome, p: Plain, kind: Kind, ids: seq<string>, n: nat, adds: set<string>,
                                    removes: set<string>, clock: nat -> Time, trace: seq<PlainBatch>)
    requires KeepsLabels(out) && n <= |ids| && Chained(out, p, kind, ids, adds, removes, clock, trace)
    ensures Reached(out, p, trace[n], kind, ids, n, adds, removes, clock)
  {
    if n > 0 {
      ReachAll(out, p, kind, ids, n - 1, adds, removes, clock, trace);
      ReachOne(out, p, trace[n - 1], trace[n], kind, ids, n - 1, adds, removes, clock);
    }
  }

  /** Each id ends up with exactly the labels of its first coming, sorted, and no other
      record changes. */
  lemma BatchClosedForm(u: Rules, p: Plain, kind: Kind, ids: seq<string>, adds: set<string>, removes: set<string>, clock: nat -> Time)
    requires KeepsLabels(Relabelling(u)) && PlainRelabel(u, p, kind, ids, adds, removes, clock).Success?
    ensures Reached(Relabelling(u), p, PlainRelabel(u, p, kind, ids, adds, removes, clock).value, kind, ids, |ids|, adds, removes, clock)
  {
    var trace := BatchTrace(u, p, kind, ids, adds, removes, clock);
    ReachAll(Relabelling(u), p, kind, ids, |ids|, adds, removes, clock, trace);
  }

  /** An accepted relabelling names records only. */
  lemma BatchFindsAll(out: Outcome, p: Plain, kind: Kind, ids: seq<string>, adds: set<string>, removes: set<string>,
                      clock: nat -> Time, trace: seq<PlainBatch>, n: nat)
    requires n <= |ids| && Chained(out, p, kind, ids, adds, removes, clock, trace)
    ensures trace[n].store.records.Keys == p.records.Keys
    ensures forall i :: 0 <= i < n ==> Slot(kind, ids[i]) in p.records
  {
    if n > 0 {
      BatchFindsAll(out, p, kind, ids, adds, removes, clock, trace, n - 1);
      assert OneDone(out, trace[n - 1], trace[n - 1 + 1], Slot(kind, ids[n - 1]), removes, clock(n - 1));
    }
  }

  // ----- when a relabelling is accepted -----

  /** A record that could be written where there is nothing has no empty label, and it can be
      relabelled exactly when no new label is empty and it is no experiment with reports.
      What it then reads as could again be written where there is nothing, and has no reports
      either; only a benchmark may not read. */
  ghost predicate LabelRule(u: Rules, rec: Record, labels: set<string>, now: Time) {
    u.writable(None, rec) ==>
      var next := Relabelled(rec, SortedSet(labels), now);
      && "" !in Labels(rec)
      && (u.writable(Some(rec), next) <==> "" !in labels && ReportsIn(Some(rec)) == [])
      && (u.writable(Some(rec), next) ==> LeftBy(u, rec, u.normal(Some(rec), next)))
  }

  ghost predicate LeftBy(u: Rules, rec: Record, o: Option<Record>) {
    match o
    case Some(left) => u.writable(None, left) && ReportsIn(o) == [] && (left.OfBenchmark? <==> rec.OfBenchmark?)
    case None => rec.OfBenchmark?
  }

  ghost predicate LabelRules(u: Rules) {
    KeepsLabels(Relabelling(u)) && forall rec, labels, now :: LabelRule(u, rec, labels, now)
  }

  lemma RelabelledWritable(x: Texts, rec: Record, labels: seq<string>, now: Time)
    requires Writable(x, None, rec)
    ensures Writable(x, Some(rec), Relabelled(rec, labels, now)) <==> "" !in labels && ReportsIn(Some(rec)) == []
  {
  }

  lemma NormalLeft(x: Texts, was: Option<Record>, rec: Record)
    requires ReportsIn(was) == [] && ReportsIn(Some(rec)) == [] && Writable(x, was, rec)
    ensures LeftBy(FormatOf(x).rules, rec, Normal(x, was, rec))
  {
    if Normal(x, was, rec).Some? {
      NormalWritable(x, was, rec);
    }
  }

  lemma RelabelledAlike(rec: Record, labels: seq<string>, now: Time)
    ensures var next := Relabelled(rec, labels, now);
      ReportsIn(Some(next)) == ReportsIn(Some(rec)) && (next.OfBenchmark? <==> rec.OfBenchmark?)
  {
  }

  lemma WritableLabels(x: Texts, rec: Record)
    requires Writable(x, None, rec)
    ensures "" !in Labels(rec)
  {
  }

  lemma FormatLabelRules(x: Texts)
    ensures LabelRules(FormatOf(x).rules)
  {
    FormatKeepsLabels(x);
    forall rec, labels, now ensures LabelRule(FormatOf(x).rules, rec, labels, now) {
      if Writable(x, None, rec) {
        var next := Relabelled(rec, SortedSet(labels), now);
        RelabelledWritable(x, rec, SortedSet(labels), now);
        assert "" in Members(SortedSet(labels)) <==> "" in labels;
        WritableLabels(x, rec);
        if Writable(x, Some(rec), next) {
          RelabelledAlike(rec, SortedSet(labels), now);
          NormalLeft(x, Some(rec), next);
        }
      }
    }
  }

  /** When the id that came first at i comes at k, its record is there and reads, and it is no
      experiment with reports. */
  ghost predicate ReadyAt(out: Outcome, p: Plain, kind: Kind, ids: seq<string>, i: nat, k: nat, adds: set<string>,
                          removes: set<string>, clock: nat -> Time)
    requires i <= k < |ids|
  {
    var was, labels := Was(p, Slot(kind, ids[i])), NewLabels(p, kind, ids, i, adds, removes);
    WrittenEach(out, was, labels, ids[i], ids[..k], clock).Some? && ReportsIn(was) == []
  }

  /** Every record can be relabelled each time its id comes. */
  ghost predicate AllReady(out: Outcome, p: Plain, kind: Kind, ids: seq<string>, adds: set<string>, removes: set<string>,
                           clock: nat -> Time) {
    forall i: nat, k: nat :: i <= k < |ids| && First(ids, i) && ids[k] == ids[i] ==> ReadyAt(out, p, kind, ids, i, k, adds, removes, clock)
  }

  /** And it can be given its new labels. */
  ghost predicate TakenAt(out: Outcome, p: Plain, kind: Kind, ids: seq<string>, i: nat, k: nat, adds: set<string>,
                          removes: set<string>, clock: nat -> Time)
    requires i <= k < |ids|
  {
    ReadyAt(out, p, kind, ids, i, k, adds, removes, clock) && "" !in NewLabels(p, kind, ids, i, adds, removes)
  }

  /** So it is at the first n places. */
  ghost predicate AllTaken(out: Outcome, p: Plain, kind: Kind, ids: seq<string>, n: nat, adds: set<string>,
                           removes: set<string>, clock: nat -> Time)
    requires n <= |ids|
  {
    forall i: nat, k: nat :: i <= k < n && First(ids, i) && ids[k] == ids[i] ==> TakenAt(out, p, kind, ids, i, k, adds, removes, clock)
  }

  /** Every record of the collection could be written where there is nothing, and has reports
      if it had some. */
  ghost predicate Anew(u: Rules, p: Plain, q: Plain, kind: Kind) {
    forall slot :: slot in q.records && slot.kind == kind && q.records[slot].Some? ==> AnewAt(u, p, q.records[slot].value, slot)
  }

  predicate AnewAt(u: Rules, p: Plain, rec: Record, slot: Slot) {
    u.writable(None, rec) && (ReportsIn(Some(rec)) == [] <==> ReportsIn(Was(p, slot)) == [])
  }

  /** What the chain finds under the next id. */
  lemma FoundNext(out: Outcome, p: Plain, s: PlainBatch, kind: Kind, ids: seq<string>, i: nat, n: nat,
                  adds: set<string>, removes: set<string>, clock: nat -> Time)
    requires i <= n < |ids| && Reached(out, p, s, kind, ids, n, adds, removes, clock) && First(ids, i) && ids[i] == ids[n]
    ensures var slot, labels := Slot(kind, ids[n]), NewLabels(p, kind, ids, i, adds, removes);
      && Was(s.store, slot) == WrittenEach(out, Was(p, slot), labels, ids[i], ids[..n], clock)
      && (Was(s.store, slot).Some? ==>
           var kept := Members(Labels(Was(s.store, slot).value)) - removes; kept + (s.adds - kept) == labels)
  {
    var slot, labels := Slot(kind, ids[n]), NewLabels(p, kind, ids, i, adds, removes);
    if i == n {
      FirstTime(p, kind, ids, n, adds, removes);
      NotWritten(out, Was(p, slot), labels, ids[n], ids[..n], clock);
    } else {
      NextTime(p, kind, ids, i, n, adds, removes);
      assert RelabelledAs(out, p, s.store, kind, ids, n, i, adds, removes, clock);
    }
  }

  /** The step is taken exactly when the labels and the reports allow it. */
  lemma StepTaken(u: Rules, p: Plain, s: PlainBatch, slot: Slot, labels: set<string>, removes: set<string>, now: Time)
    requires LabelRules(u) && Anew(u, p, s.store, slot.kind)
    requires Was(s.store, slot).Some? ==>
      var kept := Members(Labels(Was(s.store, slot).value)) - removes; kept + (s.adds - kept) == labels
    ensures PlainRelabelOne(u, s, slot, removes, now).Success? <==>
      Was(s.store, slot).Some? && "" !in labels && ReportsIn(Was(p, slot)) == []
    ensures PlainRelabelOne(u, s, slot, removes, now).Success? ==> Anew(u, p, PlainRelabelOne(u, s, slot, removes, now).value.store, slot.kind)
  {
    if Was(s.store, slot).Some? {
      var rec := s.store.records[slot].value;
      assert AnewAt(u, p, rec, slot) && LabelRule(u, rec, labels, now);
    }
  }

  lemma {:induction false} BatchTaken(u: Rules, p: Plain, kind: Kind, ids: seq<string>, n: nat, adds: set<string>,
                                      removes: set<string>, clock: nat -> Time)
    requires LabelRules(u) && n <= |ids| && Anew(u, p, p, kind)
    ensures PlainRelabel(u, p, kind, ids[..n], adds, removes, clock).Success? <==>
      AllTaken(Relabelling(u), p, kind, ids, n, adds, removes, clock)
    ensures PlainRelabel(u, p, kind, ids[..n], adds, removes, clock).Success? ==>
      Anew(u, p, PlainRelabel(u, p, kind, ids[..n], adds, removes, clock).value.store, kind)
  {
    if n > 0 {
      var m := n - 1;
      BatchTaken(u, p, kind, ids, m, adds, removes, clock);
      var i := FirstOf(ids, m);
      OneTaken(Relabelling(u), p, kind, ids, i, m, adds, removes, clock);
      LastAsked(u, p, kind, ids, m, adds, removes, clock);
      if PlainRelabel(u, p, kind, ids[..m], adds, removes, clock).Success? {
        var s := PlainRelabel(u, p, kind, ids[..m], adds, removes, clock).value;
        ReachedPrefix(u, p, kind, ids, m, adds, removes, clock);
        FoundNext(Relabelling(u), p, s, kind, ids, i, m, adds, removes, clock);
        StepTaken(u, p, s, Slot(kind, ids[m]), NewLabels(p, kind, ids, i, adds, removes), removes, clock(m));
      }
    }
  }

  lemma LastAsked(u: Rules, p: Plain, kind: Kind, ids: seq<string>, m: nat, adds: set<string>, removes: set<string>, clock: nat -> Time)
    requires m < |ids|
    ensures PlainRelabel(u, p, kind, ids[..m + 1], adds, removes, clock) ==
      match PlainRelabel(u, p, kind, ids[..m], adds, removes, clock)
      case Success(s) => PlainRelabelOne(u, s, Slot(kind, ids[m]), removes, clock(m))
      case Failure(e) => Failure(e)
  {
    assert ids[..m + 1][..m] == ids[..m];
  }

  /** One more place: what it asks for beyond the places before it. */
  lemma OneTaken(out: Outcome, p: Plain, kind: Kind, ids: seq<string>, i: nat, m: nat, adds: set<string>,
                 removes: set<string>, clock: nat -> Time)
    requires i <= m < |ids| && First(ids, i) && ids[m] == ids[i]
    ensures AllTaken(out, p, kind, ids, m + 1, adds, removes, clock) <==>
      AllTaken(out, p, kind, ids, m, adds, removes, clock) && TakenAt(out, p, kind, ids, i, m, adds, removes, clock)
  {
    forall j: nat | j <= m && First(ids, j) && ids[m] == ids[j] ensures j == i {
      FirstsAgree(ids, i, j);
    }
  }

  lemma ReachedPrefix(u: Rules, p: Plain, kind: Kind, ids: seq<string>, m: nat, adds: set<string>, removes: set<string>, clock: nat -> Time)
    requires KeepsLabels(Relabelling(u)) && m <= |ids| && PlainRelabel(u, p, kind, ids[..m], adds, removes, clock).Success?
    ensures Reached(Relabelling(u), p, PlainRelabel(u, p, kind, ids[..m], adds, removes, clock).value, kind, ids, m, adds, removes, clock)
  {
    var before, s := ids[..m], PlainRelabel(u, p, kind, ids[..m], adds, removes, clock).value;
    BatchClosedForm(u, p, kind, before, adds, removes, clock);
    assert before[..m] == before;
    forall i: nat | i < m && First(ids, i) ensures RelabelledAs(Relabelling(u), p, s.store, kind, ids, m, i, adds, removes, clock) {
      assert before[..i] == ids[..i] && First(before, i);
      assert RelabelledAs(Relabelling(u), p, s.store, kind, before, m, i, adds, removes, clock);
    }
  }

  // ----- what a caller would expect -----

  /** Nothing is lost for the i-th id: no kept label of an id before it is a label to add
      that it lacks; and if an id has come twice before it, it lacks no label to add but
      those that are to be removed as well. */
  ghost predicate NothingLostAt(p: Plain, kind: Kind, ids: seq<string>, i: nat, adds: set<string>, removes: set<string>)
    requires i < |ids|
  {
    && (forall j, l :: 0 <= j < i && l in adds && l in KeptOf(p, kind, ids[j], removes) ==> l in KeptOf(p, kind, ids[i], removes))
    && (!NoDuplicates(ids[..i]) ==> forall l :: l in adds && l !in removes ==> l in KeptOf(p, kind, ids[i], removes))
  }

  /** The first id always gets what was intended. */
  lemma FirstAsIntended(p: Plain, kind: Kind, ids: seq<string>, adds: set<string>, removes: set<string>)
    requires ids != []
    ensures NewLabels(p, kind, ids, 0, adds, removes) == IntendedLabels(p, kind, ids[0], adds, removes)
  {
    assert ids[..0] == [];
  }

  /** All ids get what was intended exactly when nothing is lost on the way. */
  lemma AllAsIntended(p: Plain, kind: Kind, ids: seq<string>, adds: set<string>, removes: set<string>)
    ensures (forall i: nat :: i < |ids| && First(ids, i) ==> NothingLostAt(p, kind, ids, i, adds, removes)) <==>
      forall i: nat :: i < |ids| && First(ids, i) ==>
        NewLabels(p, kind, ids, i, adds, removes) == IntendedLabels(p, kind, ids[i], adds, removes)
  {
    forall i: nat | i < |ids|
      ensures NewLabels(p, kind, ids, i, adds, removes) == IntendedLabels(p, kind, ids[i], adds, removes) <==>
        NothingLostAt(p, kind, ids, i, adds, removes)
    {
      OneAsIntended(p, kind, ids, i, adds, removes);
    }
  }

  lemma OneAsIntended(p: Plain, kind: Kind, ids: seq<string>, i: nat, adds: set<string>, removes: set<string>)
    requires i < |ids|
    ensures NewLabels(p, kind, ids, i, adds, removes) == IntendedLabels(p, kind, ids[i], adds, removes) <==>
      NothingLostAt(p, kind, ids, i, adds, removes)
  {
    var left, kept := Left(p, kind, ids[..i], adds, removes), KeptOf(p, kind, ids[i], removes);
    LeftShrinks(p, kind, ids[..i], i, adds, removes);
    if kept + left == kept + adds {
      forall j, l | 0 <= j < i && l in adds && l in KeptOf(p, kind, ids[j], removes) ensures l in kept {
        assert l in kept + adds;
        NotLeft(p, kind, ids, i, j, adds, removes, l);
      }
      forall l | !NoDuplicates(ids[..i]) && l in adds && l !in removes ensures l in kept {
        assert l in kept + adds;
      }
    }
    if NothingLostAt(p, kind, ids, i, adds, removes) {
      forall l | l in adds ensures l in kept + left {
        if l !in left {
          WhyNotLeft(p, kind, ids, i, adds, removes, l);
        }
      }
    }
  }

  /** A label that an earlier id has kept is not left to add. */
  lemma NotLeft(p: Plain, kind: Kind, ids: seq<string>, i: nat, j: nat, adds: set<string>, removes: set<string>, l: string)
    requires j < i <= |ids| && l in KeptOf(p, kind, ids[j], removes)
    ensures l !in Left(p, kind, ids[..i], adds, removes)
  {
    assert ids[..i][j] == ids[j];
    KeptByMembers(p, kind, ids[..i], removes, l);
  }

  lemma WhyNotLeft(p: Plain, kind: Kind, ids: seq<string>, i: nat, adds: set<string>, removes: set<string>, l: string)
    requires i <= |ids| && l in adds && l !in Left(p, kind, ids[..i], adds, removes)
    ensures if NoDuplicates(ids[..i]) then exists j :: 0 <= j < i && l in KeptOf(p, kind, ids[j], removes) else l !in removes
  {
    KeptByMembers(p, kind, ids[..i], removes, l);
    if NoDuplicates(ids[..i]) {
      var j :| 0 <= j < i && l in KeptOf(p, kind, ids[..i][j], removes);
      assert l in KeptOf(p, kind, ids[j], removes);
    }
  }

  // ----- the store's calls -----

  /** One missing id and nothing is relabelled. */
  lemma MissingRollsBack(u: Rules, p: Plain, kind: Kind, ids: seq<string>, adds: seq<string>, removes: seq<string>,
                         clock: nat -> Time, id: string)
    requires id in ids && Slot(kind, id) !in p.records
    ensures var done := PlainExec(u, p, Call.Label(kind, ids, adds, removes, clock));
      done.0 == p && done.1.Failure?
  {
    var o := Open(p, kind);
    if o.Success? && PlainRelabel(u, o.value, kind, ids, Members(adds), Members(removes), clock).Success? {
      var trace := BatchTrace(u, o.value, kind, ids, Members(adds), Members(removes), clock);
      BatchFindsAll(Relabelling(u), o.value, kind, ids, Members(adds), Members(removes), clock, trace, |ids|);
      assert false;
    }
  }

  lemma {:induction false} OpenKeepsLabels(p: Plain, kind: Kind, ids: seq<string>, removes: set<string>)
    requires Open(p, kind).Success?
    ensures KeptBy(Open(p, kind).value, kind, ids, removes) == KeptBy(p, kind, ids, removes)
    ensures forall i :: 0 <= i < |ids| ==> KeptOf(Open(p, kind).value, kind, ids[i], removes) == KeptOf(p, kind, ids[i], removes)
  {
    if ids != [] {
      OpenKeepsLabels(p, kind, ids[..|ids| - 1], removes);
    }
  }

  lemma LabelLeaves(u: Rules, p: Plain, kind: Kind, ids: seq<string>, adds: set<string>, removes: set<string>,
                    clock: nat -> Time, i: nat)
    requires i < |ids| && First(ids, i) && KeepsLabels(Relabelling(u)) && PlainLabel(u, p, kind, ids, adds, removes, clock).Success?
    ensures RelabelledAs(Relabelling(u), p, PlainLabel(u, p, kind, ids, adds, removes, clock).value.0, kind, ids, |ids|, i, adds, removes, clock)
  {
    var o := Open(p, kind).value;
    BatchClosedForm(u, o, kind, ids, adds, removes, clock);
    OpenKeepsLabels(p, kind, ids[..i], removes);
    OpenKeepsLabels(p, kind, ids, removes);
    OpenKeepsSuited(p, kind, Slot(kind, ids[i]));
    var q := PlainRelabel(u, o, kind, ids, adds, removes, clock).value.store;
    assert RelabelledAs(Relabelling(u), o, q, kind, ids, |ids|, i, adds, removes, clock);
  }

  /** After an accepted relabelling, reading any of the ids returns the record it was, with
      the new labels; an id that came once was written once. */
  lemma LabelReadsBack(s: Store, calls: seq<Call>, kind: Kind, ids: seq<string>, adds: seq<string>,
                       removes: seq<string>, clock: nat -> Time, i: nat)
    requires Refines(s) && KeepsLabels(Relabelling(s.rules)) && AllProper(calls) && i < |ids| && First(ids, i)
    requires ReplyAfter(s, calls, Call.Label(kind, ids, adds, removes, clock)).Success?
    ensures var p, slot, out := RunPlain(s.rules, NO_RECORDS, calls).0, Slot(kind, ids[i]), Relabelling(s.rules);
      var was, labels := WasAfter(s, calls, slot), NewLabels(p, kind, ids, i, Members(adds), Members(removes));
      var after := GetAfter(s, calls + [Call.Label(kind, ids, adds, removes, clock)], slot);
      && was.Some? && ReadsAs(after, WrittenEach(out, was, labels, ids[i], ids, clock))
      && (NoDuplicates(ids) ==> ReadsAs(after, out(was.value, labels, clock(i))))
  {
    var p, slot, out := RunPlain(s.rules, NO_RECORDS, calls).0, Slot(kind, ids[i]), Relabelling(s.rules);
    var labels := NewLabels(p, kind, ids, i, Members(adds), Members(removes));
    var call := Call.Label(kind, ids, adds, removes, clock);
    NextIsPlain(s, calls, call);
    LabelLeaves(s.rules, p, kind, ids, Members(adds), Members(removes), clock, i);
    GetAfterIsPlain(s, calls, slot);
    assert ids[..|ids|] == ids;
    AcceptedThenRead(s, calls, call, slot, WrittenEach(out, p.records[slot], labels, ids[i], ids, clock));
    if NoDuplicates(ids) {
      WrittenOnce(out, p.records[slot].value, labels, ids, i, clock);
    }
  }

  // ----- the store's calls, accepted -----

  lemma OpenTaken(out: Outcome, p: Plain, kind: Kind, ids: seq<string>, i: nat, k: nat, adds: set<string>, removes: set<string>,
                  clock: nat -> Time)
    requires Open(p, kind).Success? && i <= k < |ids|
    ensures TakenAt(out, Open(p, kind).value, kind, ids, i, k, adds, removes, clock) <==>
      TakenAt(out, p, kind, ids, i, k, adds, removes, clock)
  {
    OpenKeepsLabels(p, kind, ids[..i], removes);
    OpenKeepsLabels(p, kind, ids, removes);
    OpenKeepsSuited(p, kind, Slot(kind, ids[i]));
  }

  lemma OrderlyAnew(u: Rules, p: Plain, kind: Kind)
    requires Orderly(u, p) && Open(p, kind).Success?
    ensures Anew(u, Open(p, kind).value, Open(p, kind).value, kind)
  {
    var o := Open(p, kind).value;
    forall slot | slot in o.records && slot.kind == kind && o.records[slot].Some? ensures AnewAt(u, o, o.records[slot].value, slot) {
      OpenKeepsSuited(p, kind, slot);
      assert OrderlyAt(u, p, slot);
    }
  }

  lemma NoEmptyLabel(u: Rules, p: Plain, slot: Slot)
    requires LabelRules(u) && Orderly(u, p) && Was(p, slot).Some?
    ensures "" !in Labels(Was(p, slot).value)
  {
    assert OrderlyAt(u, p, slot);
    assert LabelRule(u, p.records[slot].value, {}, Time(0));
  }

  /** An empty label is given to some record exactly when it is among those to add. */
  lemma EmptyGiven(u: Rules, p: Plain, kind: Kind, ids: seq<string>, adds: set<string>, removes: set<string>)
    requires LabelRules(u) && Orderly(u, p)
    ensures (forall i: nat :: i < |ids| ==> "" !in NewLabels(p, kind, ids, i, adds, removes)) <==> ids == [] || "" !in adds
  {
    if ids != [] {
      FirstAsIntended(p, kind, ids, adds, removes);
    }
    forall i: nat | i < |ids| && "" in NewLabels(p, kind, ids, i, adds, removes) ensures "" in adds {
      LeftShrinks(p, kind, ids[..i], i, adds, removes);
      if "" in KeptOf(p, kind, ids[i], removes) {
        NoEmptyLabel(u, p, Slot(kind, ids[i]));
      }
    }
  }

  lemma TakenWhenReady(u: Rules, p: Plain, kind: Kind, ids: seq<string>, adds: set<string>, removes: set<string>, clock: nat -> Time)
    requires LabelRules(u) && Orderly(u, p)
    ensures AllTaken(Relabelling(u), p, kind, ids, |ids|, adds, removes, clock) <==>
      (ids == [] || "" !in adds) && AllReady(Relabelling(u), p, kind, ids, adds, removes, clock)
  {
    EmptyGiven(u, p, kind, ids, adds, removes);
    if AllTaken(Relabelling(u), p, kind, ids, |ids|, adds, removes, clock) {
      if ids != [] {
        assert TakenAt(Relabelling(u), p, kind, ids, 0, 0, adds, removes, clock);
        FirstAsIntended(p, kind, ids, adds, removes);
      }
      forall i: nat, k: nat | i <= k < |ids| && First(ids, i) && ids[k] == ids[i]
        ensures ReadyAt(Relabelling(u), p, kind, ids, i, k, adds, removes, clock)
      {
        assert TakenAt(Relabelling(u), p, kind, ids, i, k, adds, removes, clock);
      }
    }
  }

  lemma LabelTaken(u: Rules, p: Plain, kind: Kind, ids: seq<string>, adds: set<string>, removes: set<string>, clock: nat -> Time)
    requires LabelRules(u) && Orderly(u, p)
    ensures PlainLabel(u, p, kind, ids, adds, removes, clock).Success? <==>
      kind != Nodes("") && (ids == [] || "" !in adds) && AllReady(Relabelling(u), p, kind, ids, adds, removes, clock)
  {
    if kind != Nodes("") {
      var o, out := Open(p, kind).value, Relabelling(u);
      OrderlyAnew(u, p, kind);
      BatchTaken(u, o, kind, ids, |ids|, adds, removes, clock);
      assert ids[..|ids|] == ids;
      forall i: nat, k: nat | i <= k < |ids|
        ensures TakenAt(out, o, kind, ids, i, k, adds, removes, clock) <==> TakenAt(out, p, kind, ids, i, k, adds, removes, clock)
      {
        OpenTaken(out, p, kind, ids, i, k, adds, removes, clock);
      }
      TakenWhenReady(u, p, kind, ids, adds, removes, clock);
    }
  }

  /** A record that can be relabelled. */
  predicate Relabellable(was: Option<Record>) {
    was.Some? && ReportsIn(was) == []
  }

  /** What is not a benchmark reads however often it is relabelled. */
  lemma {:induction false} ReadsEachTime(u: Rules, rec: Record, labels: set<string>, id: string, ids: seq<string>, clock: nat -> Time)
    requires LabelRules(u) && u.writable(None, rec) && !rec.OfBenchmark? && ReportsIn(Some(rec)) == [] && "" !in labels
    ensures var o := WrittenEach(Relabelling(u), Some(rec), labels, id, ids, clock);
      o.Some? && u.writable(None, o.value) && !o.value.OfBenchmark? && ReportsIn(o) == []
  {
    if ids != [] {
      var n := |ids| - 1;
      ReadsEachTime(u, rec, labels, id, ids[..n], clock);
      var before := WrittenEach(Relabelling(u), Some(rec), labels, id, ids[..n], clock).value;
      assert LabelRule(u, before, labels, clock(n));
    }
  }

  lemma ReadyOnce(u: Rules, p: Plain, kind: Kind, ids: seq<string>, i: nat, adds: set<string>, removes: set<string>, clock: nat -> Time)
    requires i < |ids| && First(ids, i)
    ensures ReadyAt(Relabelling(u), p, kind, ids, i, i, adds, removes, clock) <==> Relabellable(Was(p, Slot(kind, ids[i])))
  {
    NotWritten(Relabelling(u), Was(p, Slot(kind, ids[i])), NewLabels(p, kind, ids, i, adds, removes), ids[i], ids[..i], clock);
  }

  lemma ReadyAgain(u: Rules, p: Plain, kind: Kind, ids: seq<string>, i: nat, k: nat, adds: set<string>, removes: set<string>,
                   clock: nat -> Time)
    requires LabelRules(u) && Orderly(u, p) && !kind.Benchmarks? && i <= k < |ids| && "" !in adds
    requires Relabellable(Was(p, Slot(kind, ids[i])))
    ensures ReadyAt(Relabelling(u), p, kind, ids, i, k, adds, removes, clock)
  {
    EmptyGiven(u, p, kind, ids, adds, removes);
    assert OrderlyAt(u, p, Slot(kind, ids[i]));
    ReadsEachTime(u, p.records[Slot(kind, ids[i])].value, NewLabels(p, kind, ids, i, adds, removes), ids[i], ids[..k], clock);
  }

  /** Unless a benchmark is named twice, it is enough to look at the records once. */
  lemma ReadyBefore(u: Rules, p: Plain, kind: Kind, ids: seq<string>, adds: set<string>, removes: set<string>, clock: nat -> Time)
    requires LabelRules(u) && Orderly(u, p) && (NoDuplicates(ids) || !kind.Benchmarks?) && (ids == [] || "" !in adds)
    ensures AllReady(Relabelling(u), p, kind, ids, adds, removes, clock) <==> forall id :: id in ids ==> Relabellable(Was(p, Slot(kind, id)))
  {
    var out := Relabelling(u);
    if AllReady(out, p, kind, ids, adds, removes, clock) {
      forall id | id in ids ensures Relabellable(Was(p, Slot(kind, id))) {
        var k: nat :| k < |ids| && ids[k] == id;
        var i := FirstOf(ids, k);
        assert ReadyAt(out, p, kind, ids, i, i, adds, removes, clock);
        ReadyOnce(u, p, kind, ids, i, adds, removes, clock);
      }
    }
    if forall id :: id in ids ==> Relabellable(Was(p, Slot(kind, id))) {
      forall i: nat, k: nat | i <= k < |ids| && First(ids, i) && ids[k] == ids[i]
        ensures ReadyAt(out, p, kind, ids, i, k, adds, removes, clock)
      {
        if i == k {
          ReadyOnce(u, p, kind, ids, i, adds, removes, clock);
        } else {
          ReadyAgain(u, p, kind, ids, i, k, adds, removes, clock);
        }
      }
    }
  }

  /** A relabelling is accepted exactly when the collection can be opened, no label to add is
      empty and, each time an id comes, its record is there, reads, and is no experiment with
      reports.  Unless a benchmark is named twice, that is decided by the records as they are
      before the call. */
  lemma LabelAccepted(s: Store, calls: seq<Call>, kind: Kind, ids: seq<string>, adds: seq<string>, removes: seq<string>,
                      clock: nat -> Time)
    requires Refines(s) && LabelRules(s.rules) && AllProper(calls)
    ensures var p, out := RunPlain(s.rules, NO_RECORDS, calls).0, Relabelling(s.rules);
      ReplyAfter(s, calls, Call.Label(kind, ids, adds, removes, clock)).Success? <==>
        kind != Nodes("") && (ids == [] || "" !in adds) && AllReady(out, p, kind, ids, Members(adds), Members(removes), clock)
    ensures NoDuplicates(ids) || !kind.Benchmarks? ==>
      (ReplyAfter(s, calls, Call.Label(kind, ids, adds, removes, clock)).Success? <==>
        kind != Nodes("") && (ids == [] || "" !in adds) && forall id :: id in ids ==> Relabellable(WasAfter(s, calls, Slot(kind, id))))
  {
    var p := RunPlain(s.rules, NO_RECORDS, calls).0;
    RunIsOrderly(s, calls);
    NextIsPlain(s, calls, Call.Label(kind, ids, adds, removes, clock));
    LabelTaken(s.rules, p, kind, ids, Members(adds), Members(removes), clock);
    forall id ensures WasAfter(s, calls, Slot(kind, id)) == Was(p, Slot(kind, id)) {
      GetAfterIsPlain(s, calls, Slot(kind, id));
    }
    if (NoDuplicates(ids) || !kind.Benchmarks?) && (ids == [] || "" !in adds) {
      ReadyBefore(s.rules, p, kind, ids, Members(adds), Members(removes), clock);
    }
  }

  /** The labels a record reads with, if it reads. */
  ghost function LabelsRead(s: Store, calls: seq<Call>, slot: Slot): Option<set<string>> {
    match WasAfter(s, calls, slot) case Some(rec) => Some(Members(Labels(rec))) case None => None
  }

  lemma LabelledReads(u: Rules, p: Plain, kind: Kind, ids: seq<string>, adds: set<string>, removes: set<string>,
                      clock: nat -> Time, i: nat)
    requires LabelRules(u) && Orderly(u, p) && !kind.Benchmarks? && i < |ids| && First(ids, i)
    requires PlainLabel(u, p, kind, ids, adds, removes, clock).Success?
    ensures var o := Was(PlainLabel(u, p, kind, ids, adds, removes, clock).value.0, Slot(kind, ids[i]));
      o.Some? && Members(Labels(o.value)) == NewLabels(p, kind, ids, i, adds, removes)
  {
    var slot, labels := Slot(kind, ids[i]), NewLabels(p, kind, ids, i, adds, removes);
    LabelTaken(u, p, kind, ids, adds, removes, clock);
    ReadyBefore(u, p, kind, ids, adds, removes, clock);
    EmptyGiven(u, p, kind, ids, adds, removes);
    LabelLeaves(u, p, kind, ids, adds, removes, clock, i);
    assert Relabellable(Was(p, slot)) && OrderlyAt(u, p, slot);
    ReadsEachTime(u, p.records[slot].value, labels, ids[i], ids, clock);
    assert ids[..|ids|] == ids;
  }

  /** After an accepted relabelling, whatever is no benchmark reads with its new labels. */
  lemma NewLabelsRead(s: Store, calls: seq<Call>, kind: Kind, ids: seq<string>, adds: seq<string>,
                      removes: seq<string>, clock: nat -> Time, i: nat)
    requires Refines(s) && LabelRules(s.rules) && AllProper(calls) && !kind.Benchmarks? && i < |ids| && First(ids, i)
    requires ReplyAfter(s, calls, Call.Label(kind, ids, adds, removes, clock)).Success?
    ensures LabelsRead(s, calls + [Call.Label(kind, ids, adds, removes, clock)], Slot(kind, ids[i])) ==
      Some(NewLabels(RunPlain(s.rules, NO_RECORDS, calls).0, kind, ids, i, Members(adds), Members(removes)))
  {
    var call := Call.Label(kind, ids, adds, removes, clock);
    RunIsOrderly(s, calls);
    NextIsPlain(s, calls, call);
    LabelledReads(s.rules, RunPlain(s.rules, NO_RECORDS, calls).0, kind, ids, Members(adds), Members(removes), clock, i);
    LastCall(s.rules, calls, call);
    GetAfterIsPlain(s, calls + [call], Slot(kind, ids[i]));
  }
}
