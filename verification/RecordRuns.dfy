/** What the calls of the store do to records, field by field, over whole runs. */
module RecordRuns {
  import opened GoStrings
  import opened Results
  import opened Records
  import opened Buckets
  import opened MetadataHelpers
  import opened BenchmarkCodec
  import opened StoreRecords
  import opened RecordLaws
  import opened StoreTree
  import opened StoreSteps
  import opened StoreFormat
  import opened StoreRuns
  import opened StoreFrames
  import opened LabelBatch

  // ----- the rules -----

  /** A record that was written reads back as given; only a benchmark may not read. */
  ghost predicate WriteRule(x: Texts, u: Rules, was: Option<Record>, rec: Record) {
    match u.normal(was, rec)
    case Some(got) => Mirrors(x, was, rec, got) && SameTimes(rec, got)
    case None => rec.OfBenchmark?
  }

  /** A settled record that is relabelled keeps everything else. */
  ghost predicate RewriteRule(x: Texts, out: Outcome, rec: Record, labels: set<string>, now: Time) {
    Settled(rec) && out(rec, labels, now).Some? ==> Reread(x, rec, SortedSet(labels), now, out(rec, labels, now).value)
  }

  ghost predicate Rewrites(x: Texts, out: Outcome) {
    forall rec, labels, now :: RewriteRule(x, out, rec, labels, now)
  }

  ghost predicate RecordRules(x: Texts, u: Rules) {
    && (forall was, rec :: WriteRule(x, u, was, rec))
    && Rewrites(x, Relabelling(u))
  }

  lemma NoneIsBenchmark(x: Texts, was: Option<Record>, rec: Record)
    requires Normal(x, was, rec).None?
    ensures rec.OfBenchmark?
  {
  }

  lemma FormatRecordRules(x: Texts)
    ensures RecordRules(x, FormatOf(x).rules)
  {
    forall was, rec ensures WriteRule(x, FormatOf(x).rules, was, rec) {
      if Normal(x, was, rec).Some? {
        NormalMirrors(x, was, rec);
      } else {
        NoneIsBenchmark(x, was, rec);
      }
    }
    forall rec, labels, now ensures RewriteRule(x, Relabelling(FormatOf(x).rules), rec, labels, now) {
      if Settled(rec) {
        SetIsSorted(labels);
        RelabelledReads(x, rec, SortedSet(labels), now);
      }
    }
  }

  lemma SetIsSorted(labels: set<string>)
    ensures StrictlySorted(SortedSet(labels))
  {
  }

  // ----- creating and updating -----

  /** The record a call hands back: the one given, but for the times and the empty actions. */
  ghost predicate HandedBack(given: Record, got: Record) {
    match given
    case OfCluster(c) => got == OfCluster(c.(createdAt := CreatedAt(got), updatedAt := UpdatedAt(got)))
    case OfNode(n) => got == OfNode(n.(createdAt := CreatedAt(got), updatedAt := UpdatedAt(got)))
    case OfScenario(s) =>
      got.OfScenario? && DefinitionMirrors(s.definition, got.scenario.definition)
      && got == OfScenario(s.(definition := got.scenario.definition, createdAt := CreatedAt(got), updatedAt := UpdatedAt(got)))
    case OfBenchmark(m) =>
      got.OfBenchmark? && DefinitionMirrors(m.scenario.definition, got.benchmark.scenario.definition)
      && got == OfBenchmark(m.(scenario := m.scenario.(definition := got.benchmark.scenario.definition),
                               createdAt := CreatedAt(got), updatedAt := UpdatedAt(got)))
    case OfExperiment(e) => got == OfExperiment(e.(createdAt := CreatedAt(got), updatedAt := UpdatedAt(got)))
  }

  lemma CreatedAsGiven(x: Texts, was: Option<Record>, rec: Record, now: Time, got: Record)
    requires Mirrors(x, was, Created(rec, now), got) && SameTimes(Created(rec, now), got)
    ensures Mirrors(x, was, rec, got) && CreatedAt(got) == now && UpdatedAt(got) == now
  {
  }

  lemma UpdatedAsGiven(x: Texts, was: Option<Record>, rec: Record, now: Time, got: Record)
    requires Mirrors(x, was, Updated(rec, now), got) && SameTimes(Updated(rec, now), got)
    ensures Mirrors(x, was, rec, got) && CreatedAt(got) == CreatedAt(rec) && UpdatedAt(got) == now
  {
  }

  lemma CreatedIsReturned(rec: Record, now: Time)
    ensures var got := Returned(Created(rec, now)); HandedBack(rec, got) && CreatedAt(got) == now && UpdatedAt(got) == now
  {
  }

  lemma UpdatedIsReturned(rec: Record, now: Time)
    ensures var got := Returned(Updated(rec, now)); HandedBack(rec, got) && CreatedAt(got) == CreatedAt(rec) && UpdatedAt(got) == now
  {
  }

  /** Each record of an accepted creation reads as it was given, made and changed at the time
      of its creation, unless it is a benchmark that does not read. */
  lemma CreationReads(x: Texts, s: Store, calls: seq<Call>, kind: Kind, recs: seq<Record>, clock: nat -> Time, i: nat)
    requires Refines(s) && RecordRules(x, s.rules) && AllProper(calls) && Proper(Call.Create(kind, recs, clock)) && i < |recs|
    requires ReplyAfter(s, calls, Call.Create(kind, recs, clock)).Success?
    ensures var o := WasAfter(s, calls + [Call.Create(kind, recs, clock)], Slot(kind, Id(recs[i])));
      match o
      case Some(got) => Mirrors(x, None, recs[i], got) && CreatedAt(got) == clock(i) && UpdatedAt(got) == clock(i)
      case None => kind.Benchmarks?
  {
    var after, slot, next := calls + [Call.Create(kind, recs, clock)], Slot(kind, Id(recs[i])), Created(recs[i], clock(i));
    assert recs[i] in recs;
    CreateReadsBack(s, calls, kind, recs, clock, i);
    assert WriteRule(x, s.rules, None, next);
    match s.rules.normal(None, next)
    case Some(got) =>
      ReadsWas(s, after, slot, got);
      CreatedAsGiven(x, None, recs[i], clock(i), got);
    case None =>
  }

  /** An accepted update reads as the record it was given, changed at its time, except for an
      experiment's reports, which stay if there were some. */
  lemma UpdateReads(x: Texts, s: Store, calls: seq<Call>, kind: Kind, rec: Record, now: Time)
    requires Refines(s) && RecordRules(x, s.rules) && AllProper(calls) && Proper(Call.Update(kind, rec, now))
    requires ReplyAfter(s, calls, Call.Update(kind, rec, now)).Success?
    ensures var slot := Slot(kind, Id(rec));
      match WasAfter(s, calls + [Call.Update(kind, rec, now)], slot)
      case Some(got) =>
        Mirrors(x, WasAfter(s, calls, slot), rec, got) && CreatedAt(got) == CreatedAt(rec) && UpdatedAt(got) == now
      case None => kind.Benchmarks?
  {
    var after, slot, next := calls + [Call.Update(kind, rec, now)], Slot(kind, Id(rec)), Updated(rec, now);
    UpdateReadsBack(s, calls, kind, rec, now);
    assert WriteRule(x, s.rules, WasAfter(s, calls, slot), next);
    match s.rules.normal(WasAfter(s, calls, slot), next)
    case Some(got) =>
      ReadsWas(s, after, slot, got);
      UpdatedAsGiven(x, WasAfter(s, calls, slot), rec, now, got);
    case None =>
  }

  lemma {:induction false} StampedAt(recs: seq<Record>, clock: nat -> Time, i: nat)
    requires i < |recs|
    ensures Stamped(recs, clock)[i] == Returned(Created(recs[i], clock(i)))
  {
    if i < |recs| - 1 {
      StampedAt(recs[..|recs| - 1], clock, i);
    }
  }

  /** These records were handed back for those given. */
  ghost predicate AllHandedBack(given: seq<Record>, got: seq<Record>, clock: nat -> Time) {
    && |got| == |given|
    && forall i :: 0 <= i < |given| ==> HandedBack(given[i], got[i]) && CreatedAt(got[i]) == clock(i) && UpdatedAt(got[i]) == clock(i)
  }

  lemma CreationReplies(s: Store, calls: seq<Call>, kind: Kind, recs: seq<Record>, clock: nat -> Time)
    requires Refines(s) && AllProper(calls) && Proper(Call.Create(kind, recs, clock))
    requires ReplyAfter(s, calls, Call.Create(kind, recs, clock)).Success?
    ensures var reply := ReplyAfter(s, calls, Call.Create(kind, recs, clock)).value;
      reply.These? && AllHandedBack(recs, reply.records, clock)
  {
    NextIsPlain(s, calls, Call.Create(kind, recs, clock));
    forall i | 0 <= i < |recs|
      ensures var got := Stamped(recs, clock)[i]; HandedBack(recs[i], got) && CreatedAt(got) == clock(i) && UpdatedAt(got) == clock(i)
    {
      StampedAt(recs, clock, i);
      CreatedIsReturned(recs[i], clock(i));
    }
  }

  lemma UpdateReplies(s: Store, calls: seq<Call>, kind: Kind, rec: Record, now: Time)
    requires Refines(s) && AllProper(calls) && Proper(Call.Update(kind, rec, now))
    requires ReplyAfter(s, calls, Call.Update(kind, rec, now)).Success?
    ensures var reply := ReplyAfter(s, calls, Call.Update(kind, rec, now)).value;
      && reply.These? && |reply.records| == 1 && HandedBack(rec, reply.records[0])
      && CreatedAt(reply.records[0]) == CreatedAt(rec) && UpdatedAt(reply.records[0]) == now
  {
    NextIsPlain(s, calls, Call.Update(kind, rec, now));
    UpdatedIsReturned(rec, now);
  }

  // ----- relabelling -----

  /** The id comes here for the last time. */
  predicate LastComing(ids: seq<string>, i: nat)
    requires i < |ids|
  {
    forall k :: i < k < |ids| ==> ids[k] != ids[i]
  }

  ghost predicate ChangedAtLast(rec: Record, id: string, ids: seq<string>, clock: nat -> Time) {
    forall i: nat :: i < |ids| && ids[i] == id && LastComing(ids, i) ==> UpdatedAt(rec) == clock(i)
  }

  lemma ChangedHere(rec: Record, id: string, ids: seq<string>, clock: nat -> Time)
    requires ids != [] && ids[|ids| - 1] == id && UpdatedAt(rec) == clock(|ids| - 1)
    ensures ChangedAtLast(rec, id, ids, clock)
  {
  }

  lemma ChangedBefore(rec: Record, id: string, ids: seq<string>, clock: nat -> Time)
    requires ids != [] && ids[|ids| - 1] != id && ChangedAtLast(rec, id, ids[..|ids| - 1], clock)
    ensures ChangedAtLast(rec, id, ids, clock)
  {
    var n := |ids| - 1;
    forall i: nat | i < |ids| && ids[i] == id && LastComing(ids, i) ensures UpdatedAt(rec) == clock(i) {
      assert i < n && ids[..n][i] == id && LastComing(ids[..n], i);
    }
  }

  lemma OneWriteKeeps(x: Texts, out: Outcome, rec: Record, before: Record, labels: set<string>, now: Time)
    requires Rewrites(x, out) && Settled(before) && OnlyLabels(rec, before)
    ensures var o := out(before, labels, now); o.Some? ==> Settled(o.value) && OnlyLabels(rec, o.value) && UpdatedAt(o.value) == now
  {
    assert RewriteRule(x, out, before, labels, now);
    var o := out(before, labels, now);
    if o.Some? {
      OnlyLabelsTwice(rec, before, o.value);
    }
  }

  /** However often a record is written with its new labels, it stays the same otherwise. */
  lemma {:induction false} EachWriteKeeps(x: Texts, out: Outcome, rec: Record, labels: set<string>, id: string, ids: seq<string>,
                                          clock: nat -> Time)
    requires Rewrites(x, out) && Settled(rec)
    ensures var o := WrittenEach(out, Some(rec), labels, id, ids, clock);
      o.Some? ==> Settled(o.value) && OnlyLabels(rec, o.value) && ChangedAtLast(o.value, id, ids, clock)
  {
    if ids == [] {
      OnlyLabelsSelf(rec);
    } else {
      var n := |ids| - 1;
      EachWriteKeeps(x, out, rec, labels, id, ids[..n], clock);
      var before := WrittenEach(out, Some(rec), labels, id, ids[..n], clock);
      if before.Some? && ids[n] == id {
        OneWriteKeeps(x, out, rec, before.value, labels, clock(n));
        var o := out(before.value, labels, clock(n));
        if o.Some? {
          ChangedHere(o.value, id, ids, clock);
        }
      } else if before.Some? {
        ChangedBefore(before.value, id, ids, clock);
      }
    }
  }

  lemma OnlyLabelsSelf(rec: Record)
    ensures OnlyLabels(rec, rec)
  {
  }

  /** After an accepted relabelling every record named reads as it did before in everything but
      its labels, changed at the time its id came last, unless it is a benchmark that no longer
      reads.  The objects of a benchmark named once keep their CIDs exactly when those have
      texts that parse back to them. */
  lemma RelabelledReadsOn(x: Texts, s: Store, calls: seq<Call>, kind: Kind, ids: seq<string>, adds: seq<string>,
                          removes: seq<string>, clock: nat -> Time, i: nat)
    requires Refines(s) && LabelRules(s.rules) && RecordRules(x, s.rules) && AllProper(calls)
    requires i < |ids| && LastComing(ids, i) && ReplyAfter(s, calls, Call.Label(kind, ids, adds, removes, clock)).Success?
    ensures var slot := Slot(kind, ids[i]);
      var was, o := WasAfter(s, calls, slot), WasAfter(s, calls + [Call.Label(kind, ids, adds, removes, clock)], slot);
      && was.Some?
      && match o
         case Some(got) =>
           && OnlyLabels(was.value, got) && UpdatedAt(got) == clock(i)
           && (NoDuplicates(ids) ==> (Objects(got) == Objects(was.value) <==> CidsReadBack(x, Objects(was.value))))
         case None => kind.Benchmarks?
  {
    var call, slot := Call.Label(kind, ids, adds, removes, clock), Slot(kind, ids[i]);
    var first := FirstOf(ids, i);
    LabelReadsBack(s, calls, kind, ids, adds, removes, clock, first);
    WasSettled(s, calls, slot);
    var p, out, was := RunPlain(s.rules, NO_RECORDS, calls).0, Relabelling(s.rules), WasAfter(s, calls, slot);
    var labels := NewLabels(p, kind, ids, first, Members(adds), Members(removes));
    EachWriteKeeps(x, out, was.value, labels, ids[first], ids, clock);
    if !kind.Benchmarks? {
      NewLabelsRead(s, calls, kind, ids, adds, removes, clock, first);
    }
    var o := WrittenEach(out, was, labels, ids[first], ids, clock);
    if o.Some? {
      ReadsWas(s, calls + [call], slot, o.value);
      if NoDuplicates(ids) {
        ReadsWas(s, calls + [call], slot, out(was.value, labels, clock(first)).value);
        assert RewriteRule(x, out, was.value, labels, clock(first));
      }
    }
  }

  lemma WasSettled(s: Store, calls: seq<Call>, slot: Slot)
    requires Refines(s) && AllProper(calls)
    ensures var was := WasAfter(s, calls, slot); was.Some? ==> Settled(was.value) && Suits(slot.kind, was.value)
  {
    RunIsOrderly(s, calls);
    GetAfterIsPlain(s, calls, slot);
    var p := RunPlain(s.rules, NO_RECORDS, calls).0;
    if slot in p.records {
      assert OrderlyAt(s.rules, p, slot);
    }
  }

  // ----- the labels after a relabelling -----

  /** The record reads with the label, and the label is not to be removed. */
  ghost predicate KeepsLabel(s: Store, calls: seq<Call>, slot: Slot, removes: seq<string>, l: string) {
    match LabelsRead(s, calls, slot) case Some(labels) => l in labels && l !in removes case None => false
  }

  lemma KeptIsRead(s: Store, calls: seq<Call>, kind: Kind, id: string, removes: seq<string>, l: string)
    requires Refines(s) && AllProper(calls)
    ensures l in KeptOf(RunPlain(s.rules, NO_RECORDS, calls).0, kind, id, Members(removes)) <==>
      KeepsLabel(s, calls, Slot(kind, id), removes, l)
  {
    GetAfterIsPlain(s, calls, Slot(kind, id));
  }

  /** An added label that a record lacks reaches it unless an id before it has kept that label
      or, once an id has come twice before it, unless the label is to be removed as well. */
  ghost predicate LabelReaches(s: Store, calls: seq<Call>, kind: Kind, ids: seq<string>, i: nat, removes: seq<string>, l: string)
    requires i < |ids|
  {
    if NoDuplicates(ids[..i]) then forall j :: 0 <= j < i ==> !KeepsLabel(s, calls, Slot(kind, ids[j]), removes, l)
    else l in removes
  }

  lemma LabelLeft(s: Store, calls: seq<Call>, kind: Kind, ids: seq<string>, i: nat, adds: seq<string>, removes: seq<string>, l: string)
    requires Refines(s) && AllProper(calls) && i < |ids|
    ensures l in Left(RunPlain(s.rules, NO_RECORDS, calls).0, kind, ids[..i], Members(adds), Members(removes)) <==>
      l in adds && LabelReaches(s, calls, kind, ids, i, removes, l)
  {
    var p := RunPlain(s.rules, NO_RECORDS, calls).0;
    KeptByMembers(p, kind, ids[..i], Members(removes), l);
    forall j | 0 <= j < i
      ensures l in KeptOf(p, kind, ids[..i][j], Members(removes)) <==> KeepsLabel(s, calls, Slot(kind, ids[j]), removes, l)
    {
      KeptIsRead(s, calls, kind, ids[j], removes, l);
    }
  }

  /** After an accepted relabelling, each record named that reads has exactly the labels it
      keeps and the added ones that reach it at the first coming of its id. */
  lemma LabelsReadOn(s: Store, calls: seq<Call>, kind: Kind, ids: seq<string>, adds: seq<string>, removes: seq<string>,
                     clock: nat -> Time, i: nat, l: string)
    requires Refines(s) && LabelRules(s.rules) && AllProper(calls) && i < |ids| && First(ids, i)
    requires ReplyAfter(s, calls, Call.Label(kind, ids, adds, removes, clock)).Success?
    ensures match LabelsRead(s, calls + [Call.Label(kind, ids, adds, removes, clock)], Slot(kind, ids[i]))
      case Some(labels) =>
        l in labels <==>
          KeepsLabel(s, calls, Slot(kind, ids[i]), removes, l) || (l in adds && LabelReaches(s, calls, kind, ids, i, removes, l))
      case None => kind.Benchmarks?
  {
    var call, slot := Call.Label(kind, ids, adds, removes, clock), Slot(kind, ids[i]);
    var p := RunPlain(s.rules, NO_RECORDS, calls).0;
    NextIsPlain(s, calls, call);
    LastCall(s.rules, calls, call);
    GetAfterIsPlain(s, calls + [call], slot);
    LabelLeaves(s.rules, p, kind, ids, Members(adds), Members(removes), clock, i);
    if !kind.Benchmarks? {
      NewLabelsRead(s, calls, kind, ids, adds, removes, clock, i);
    }
    KeptIsRead(s, calls, kind, ids[i], removes, l);
    LabelLeft(s, calls, kind, ids, i, adds, removes, l);
  }

  // ----- what relabelling hands back -----

  /** The record handed back for the k-th id, which came first at i. */
  ghost predicate RepliedAt(out: Outcome, p: Plain, kind: Kind, ids: seq<string>, i: nat, k: nat, adds: set<string>, removes: set<string>,
                            clock: nat -> Time, got: Record)
    requires i <= k < |ids|
  {
    var labels := NewLabels(p, kind, ids, i, adds, removes);
    var o := WrittenEach(out, Was(p, Slot(kind, ids[k])), labels, ids[k], ids[..k], clock);
    o.Some? && got == Returned(Relabelled(o.value, SortedSet(labels), clock(k)))
  }

  ghost predicate Replied(out: Outcome, p: Plain, kind: Kind, ids: seq<string>, adds: set<string>, removes: set<string>,
                          clock: nat -> Time, done: seq<Record>) {
    && |done| <= |ids|
    && forall i: nat, k: nat :: i <= k < |done| && First(ids, i) && ids[i] == ids[k] ==>
         RepliedAt(out, p, kind, ids, i, k, adds, removes, clock, done[k])
  }

  lemma ReplyOfOne(u: Rules, s: PlainBatch, slot: Slot, labels: set<string>, removes: set<string>, now: Time)
    requires PlainRelabelOne(u, s, slot, removes, now).Success? && Was(s.store, slot).Some?
    requires var kept := Members(Labels(Was(s.store, slot).value)) - removes; kept + (s.adds - kept) == labels
    ensures PlainRelabelOne(u, s, slot, removes, now).value.done ==
      s.done + [Returned(Relabelled(Was(s.store, slot).value, SortedSet(labels), now))]
  {
    var rec := s.store.records[slot].value;
    var kept, next := Members(Labels(rec)) - removes, Relabelled(rec, SortedSet(labels), now);
    RewrittenReply(s, slot, kept, next, u.writable(Some(rec), next), u.normal(Some(rec), next));
  }

  lemma RewrittenReply(s: PlainBatch, slot: Slot, kept: set<string>, next: Record, writable: bool, o: Option<Record>)
    ensures PlainRewritten(s, slot, kept, next, writable, o).Success? ==>
      PlainRewritten(s, slot, kept, next, writable, o).value.done == s.done + [Returned(next)]
  {
  }

  lemma FoundThere(u: Rules, s: PlainBatch, slot: Slot, removes: set<string>, now: Time)
    requires PlainRelabelOne(u, s, slot, removes, now).Success?
    ensures Was(s.store, slot).Some?
  {
  }

  lemma {:induction false} BatchReplies(u: Rules, p: Plain, kind: Kind, ids: seq<string>, n: nat, adds: set<string>,
                                        removes: set<string>, clock: nat -> Time)
    requires KeepsLabels(Relabelling(u)) && n <= |ids| && PlainRelabel(u, p, kind, ids[..n], adds, removes, clock).Success?
    ensures var done := PlainRelabel(u, p, kind, ids[..n], adds, removes, clock).value.done;
      |done| == n && Replied(Relabelling(u), p, kind, ids, adds, removes, clock, done)
  {
    if n > 0 {
      var m := n - 1;
      LastAsked(u, p, kind, ids, m, adds, removes, clock);
      BatchReplies(u, p, kind, ids, m, adds, removes, clock);
      ReachedPrefix(u, p, kind, ids, m, adds, removes, clock);
      var s := PlainRelabel(u, p, kind, ids[..m], adds, removes, clock).value;
      var slot := Slot(kind, ids[m]);
      FoundThere(u, s, slot, removes, clock(m));
      var first := FirstOf(ids, m);
      FoundNext(Relabelling(u), p, s, kind, ids, first, m, adds, removes, clock);
      ReplyOfOne(u, s, slot, NewLabels(p, kind, ids, first, adds, removes), removes, clock(m));
      var done := PlainRelabel(u, p, kind, ids[..n], adds, removes, clock).value.done;
      forall i: nat, k: nat | i <= k < n && First(ids, i) && ids[i] == ids[k]
        ensures RepliedAt(Relabelling(u), p, kind, ids, i, k, adds, removes, clock, done[k])
      {
        if k == m {
          FirstsAgree(ids, i, first);
        }
      }
    }
  }

  lemma SettledIsReturned(rec: Record)
    requires Settled(rec)
    ensures Returned(rec) == rec
  {
    if rec.OfScenario? {
      NothingDropped(rec.scenario);
    } else if rec.OfBenchmark? {
      NothingDropped(rec.benchmark.scenario);
    }
  }

  lemma NothingDropped(s: Scenario)
    requires ScenarioSettled(s)
    ensures NonEmpty(s.definition.seed) == s.definition.seed && NonEmpty(s.definition.benchmark) == s.definition.benchmark
  {
  }

  lemma ReplyKeeps(x: Texts, out: Outcome, rec: Record, labels: set<string>, id: string, ids: seq<string>, clock: nat -> Time, now: Time)
    requires Rewrites(x, out) && Settled(rec) && WrittenEach(out, Some(rec), labels, id, ids, clock).Some?
    ensures var o := WrittenEach(out, Some(rec), labels, id, ids, clock);
      var got := Returned(Relabelled(o.value, SortedSet(labels), now));
      OnlyLabels(rec, got) && UpdatedAt(got) == now && Labels(got) == SortedSet(labels)
  {
    var o := WrittenEach(out, Some(rec), labels, id, ids, clock);
    EachWriteKeeps(x, out, rec, labels, id, ids, clock);
    SetIsSorted(labels);
    RelabelledSettled(o.value, SortedSet(labels), now);
    SettledIsReturned(Relabelled(o.value, SortedSet(labels), now));
    OnlyLabelsTwice(rec, o.value, Relabelled(o.value, SortedSet(labels), now));
  }

  /** An accepted relabelling hands back one record for each id: as it was but for its new
      labels, sorted, and the time of the change. */
  lemma RelabelReplies(x: Texts, s: Store, calls: seq<Call>, kind: Kind, ids: seq<string>, adds: seq<string>,
                       removes: seq<string>, clock: nat -> Time, k: nat)
    requires Refines(s) && LabelRules(s.rules) && RecordRules(x, s.rules) && AllProper(calls)
    requires k < |ids| && ReplyAfter(s, calls, Call.Label(kind, ids, adds, removes, clock)).Success?
    ensures var reply, was := ReplyAfter(s, calls, Call.Label(kind, ids, adds, removes, clock)).value, WasAfter(s, calls, Slot(kind, ids[k]));
      && reply.These? && |reply.records| == |ids| && was.Some?
      && OnlyLabels(was.value, reply.records[k]) && UpdatedAt(reply.records[k]) == clock(k)
      && forall i: nat :: i <= k && First(ids, i) && ids[i] == ids[k] ==>
           Labels(reply.records[k]) == SortedSet(NewLabels(RunPlain(s.rules, NO_RECORDS, calls).0, kind, ids, i, Members(adds), Members(removes)))
  {
    var call, slot := Call.Label(kind, ids, adds, removes, clock), Slot(kind, ids[k]);
    var p := RunPlain(s.rules, NO_RECORDS, calls).0;
    NextIsPlain(s, calls, call);
    var o := Open(p, kind).value;
    assert ids[..|ids|] == ids;
    BatchReplies(s.rules, o, kind, ids, |ids|, Members(adds), Members(removes), clock);
    var first := FirstOf(ids, k);
    LabelReadsBack(s, calls, kind, ids, adds, removes, clock, first);
    WasSettled(s, calls, slot);
    GetAfterIsPlain(s, calls, slot);
    OpenKeepsSuited(p, kind, slot);
    var done := PlainRelabel(s.rules, o, kind, ids, Members(adds), Members(removes), clock).value.done;
    assert RepliedAt(Relabelling(s.rules), o, kind, ids, first, k, Members(adds), Members(removes), clock, done[k]);
    OpenedNewLabels(p, kind, ids, first, Members(adds), Members(removes));
    var labels := NewLabels(p, kind, ids, first, Members(adds), Members(removes));
    ReplyKeeps(x, Relabelling(s.rules), WasAfter(s, calls, slot).value, labels, ids[k], ids[..k], clock, clock(k));
    forall i: nat | i <= k && First(ids, i) && ids[i] == ids[k] ensures i == first {
      FirstsAgree(ids, i, first);
    }
  }

  lemma OpenedNewLabels(p: Plain, kind: Kind, ids: seq<string>, i: nat, adds: set<string>, removes: set<string>)
    requires i < |ids| && Open(p, kind).Success?
    ensures NewLabels(Open(p, kind).value, kind, ids, i, adds, removes) == NewLabels(p, kind, ids, i, adds, removes)
  {
    OpenKeepsLabels(p, kind, ids[..i], removes);
    OpenKeepsLabels(p, kind, ids, removes);
  }

  // ----- what other calls leave alone -----

  /** The call creates, updates, relabels or deletes records of the kind, or deletes the
      cluster whose nodes they are. */
  predicate Touches(call: Call, kind: Kind) {
    match call
    case Create(k, _, _) => k == kind
    case Update(k, _, _) => k == kind
    case Label(k, _, _, _, _) => k == kind
    case Delete(k, ids) => k == kind || (k.Clusters? && kind.Nodes? && kind.cluster in ids)
    case _ => false
  }

  /** Whatever happens to records of other kinds, a record reads the same. */
  lemma OtherKindsStay(s: Store, calls: seq<Call>, more: seq<Call>, slot: Slot)
    requires Refines(s) && AllProper(calls) && AllProper(more)
    requires forall call :: call in more ==> !Touches(call, slot.kind)
    ensures GetAfter(s, calls, slot).Success? ==> GetAfter(s, calls + more, slot) == GetAfter(s, calls, slot)
  {
    UnnamedRecordStays(s, calls, more, slot);
  }

  /** An update changes no other record. */
  lemma UpdateLeavesOthers(s: Store, calls: seq<Call>, kind: Kind, rec: Record, now: Time, slot: Slot)
    requires Refines(s) && AllProper(calls) && Proper(Call.Update(kind, rec, now)) && slot != Slot(kind, Id(rec))
    ensures GetAfter(s, calls, slot).Success? ==> GetAfter(s, calls + [Call.Update(kind, rec, now)], slot) == GetAfter(s, calls, slot)
  {
    UnnamedRecordStays(s, calls, [Call.Update(kind, rec, now)], slot);
  }

  /** An update is accepted exactly when the record is there and what is given can be written
      over it. */
  lemma UpdatingAccepted(s: Store, calls: seq<Call>, kind: Kind, rec: Record, now: Time)
    requires Refines(s) && AllProper(calls) && Proper(Call.Update(kind, rec, now))
    ensures var slot := Slot(kind, Id(rec));
      ReplyAfter(s, calls, Call.Update(kind, rec, now)).Success? <==>
        Id(rec) != "" && kind != Nodes("") && !Absent(s, calls, slot) && s.rules.writable(WasAfter(s, calls, slot), Updated(rec, now))
  {
    var p, slot := RunPlain(s.rules, NO_RECORDS, calls).0, Slot(kind, Id(rec));
    NextIsPlain(s, calls, Call.Update(kind, rec, now));
    GetAfterIsPlain(s, calls, slot);
    AbsentIsPlain(s, calls, slot);
    UpdatedId(rec, now);
    if Open(p, kind).Success? {
      OpenKeepsSuited(p, kind, slot);
    }
  }

  // ----- what belongs to what -----

  /** Nodes are there only while their cluster is, and reports only while their benchmark is. */
  lemma NoOrphans(s: Store, calls: seq<Call>, cluster: string, node: string, benchmark: string)
    requires Refines(s) && AllProper(calls)
    ensures Absent(s, calls, Slot(Clusters, cluster)) ==> Absent(s, calls, Slot(Nodes(cluster), node))
    ensures Absent(s, calls, Slot(Benchmarks, benchmark)) ==> GetReportAfter(s, calls, benchmark).Failure?
  {
    RunIsOrderly(s, calls);
    AbsentIsPlain(s, calls, Slot(Clusters, cluster));
    AbsentIsPlain(s, calls, Slot(Nodes(cluster), node));
    AbsentIsPlain(s, calls, Slot(Benchmarks, benchmark));
    GetReportAfterIsPlain(s, calls, benchmark);
    var p, slot := RunPlain(s.rules, NO_RECORDS, calls).0, Slot(Nodes(cluster), node);
    if slot in p.records {
      assert OrderlyAt(s.rules, p, slot);
    }
  }

  // ----- deleting -----

  lemma {:induction false} RemoveGone(p: Plain, kind: Kind, ids: seq<string>)
    requires PlainRemove(p, kind, ids).Success?
    ensures forall id :: Slot(kind, id) in PlainRemove(p, kind, ids).value.records <==> Slot(kind, id) in p.records && id !in ids
  {
    if ids != [] {
      RemoveGone(p, kind, ids[..|ids| - 1]);
      forall id ensures id in ids <==> id in ids[..|ids| - 1] || id == ids[|ids| - 1] {
        InLast(ids, id);
      }
    }
  }

  lemma {:induction false} RemoveAccepted(p: Plain, kind: Kind, ids: seq<string>)
    ensures PlainRemove(p, kind, ids).Success? <==> NoDuplicates(ids) && forall id :: id in ids ==> Slot(kind, id) in p.records
  {
    if ids != [] {
      var n := |ids| - 1;
      RemoveAccepted(p, kind, ids[..n]);
      DuplicateAt(ids, n);
      assert ids[..n + 1] == ids;
      forall id ensures id in ids <==> id in ids[..n] || id == ids[n] {
        InLast(ids, id);
      }
      if PlainRemove(p, kind, ids[..n]).Success? {
        RemoveGone(p, kind, ids[..n]);
      }
    }
  }

  /** A deletion is accepted exactly when all the ids are there and none comes twice, or the
      collection was never opened. */
  lemma DeletionAccepted(s: Store, calls: seq<Call>, kind: Kind, ids: seq<string>)
    requires Refines(s) && AllProper(calls)
    ensures ReplyAfter(s, calls, Call.Delete(kind, ids)).Success? <==>
      kind !in RunPlain(s.rules, NO_RECORDS, calls).0.live ||
      (NoDuplicates(ids) && forall id :: id in ids ==> !Absent(s, calls, Slot(kind, id)))
  {
    var p := RunPlain(s.rules, NO_RECORDS, calls).0;
    NextIsPlain(s, calls, Call.Delete(kind, ids));
    RemoveAccepted(p, kind, ids);
    forall id ensures Absent(s, calls, Slot(kind, id)) <==> Slot(kind, id) !in p.records {
      AbsentIsPlain(s, calls, Slot(kind, id));
    }
  }

  lemma OpenedOnly(u: Rules, p: Plain, slot: Slot)
    requires Orderly(u, p)
    ensures slot in p.records ==> slot.kind in p.live && slot.id != ""
  {
    if slot in p.records {
      assert OrderlyAt(u, p, slot);
    }
  }

  /** After an accepted deletion the records are gone, with the nodes of a cluster and the
      report of a benchmark. */
  lemma DeletedGone(s: Store, calls: seq<Call>, kind: Kind, ids: seq<string>, id: string, node: string)
    requires Refines(s) && AllProper(calls) && id in ids && ReplyAfter(s, calls, Call.Delete(kind, ids)).Success?
    ensures var after := calls + [Call.Delete(kind, ids)];
      && Absent(s, after, Slot(kind, id))
      && (kind.Clusters? ==> Absent(s, after, Slot(Nodes(id), node)))
      && (kind.Benchmarks? ==> GetReportAfter(s, after, id).Failure?)
  {
    var p, after := RunPlain(s.rules, NO_RECORDS, calls).0, calls + [Call.Delete(kind, ids)];
    NextIsPlain(s, calls, Call.Delete(kind, ids));
    LastCall(s.rules, calls, Call.Delete(kind, ids));
    RunIsOrderly(s, calls);
    if kind in p.live {
      RemoveGone(p, kind, ids);
    } else {
      OpenedOnly(s.rules, p, Slot(kind, id));
    }
    AbsentIsPlain(s, after, Slot(kind, id));
    NoOrphans(s, after, id, node, id);
  }

  // ----- listing -----

  lemma {:induction false} PickIs(p: Plain, kind: Kind, ids: seq<string>)
    requires (forall id :: id in ids ==> Slot(kind, id) in p.records) && Pick(p, kind, ids).Success?
    ensures var recs := Pick(p, kind, ids).value;
      |recs| == |ids| && forall i :: 0 <= i < |ids| ==> p.records[Slot(kind, ids[i])] == Some(recs[i])
  {
    if ids != [] {
      var n := |ids| - 1;
      PickIs(p, kind, ids[..n]);
    }
  }

  /** The list holds, in increasing order of their ids, each record that a read of its id
      returns, and no others. */
  ghost predicate ListsAll(s: Store, calls: seq<Call>, kind: Kind, recs: seq<Record>) {
    && (forall i, j :: 0 <= i < j < |recs| ==> Less(Id(recs[i]), Id(recs[j])))
    && (forall rec :: rec in recs <==> GetAfter(s, calls, Slot(kind, Id(rec))) == Success(These([rec])))
  }

  lemma PickedInOrder(u: Rules, p: Plain, kind: Kind, ids: seq<string>)
    requires Orderly(u, p) && StrictlySorted(ids) && forall id :: id in ids <==> Slot(kind, id) in p.records
    requires Pick(p, kind, ids).Success?
    ensures var recs := Pick(p, kind, ids).value;
      && (forall i, j :: 0 <= i < j < |recs| ==> Less(Id(recs[i]), Id(recs[j])))
      && (forall rec :: rec in recs <==> HoldsRecord(p, Slot(kind, Id(rec)), Some(rec)))
  {
    PickIs(p, kind, ids);
    var recs := Pick(p, kind, ids).value;
    forall i | 0 <= i < |ids| ensures Id(recs[i]) == ids[i] {
      assert ids[i] in ids;
      assert OrderlyAt(u, p, Slot(kind, ids[i]));
    }
    forall rec ensures rec in recs <==> HoldsRecord(p, Slot(kind, Id(rec)), Some(rec)) {
      if rec in recs {
        var i :| 0 <= i < |recs| && recs[i] == rec;
        assert ids[i] in ids;
      }
      if HoldsRecord(p, Slot(kind, Id(rec)), Some(rec)) {
        var i :| 0 <= i < |ids| && ids[i] == Id(rec);
      }
    }
  }

  lemma ListedInOrder(s: Store, calls: seq<Call>, kind: Kind)
    requires Refines(s) && AllProper(calls) && ReplyAfter(s, calls, Call.List(kind)).Success?
    ensures var reply := ReplyAfter(s, calls, Call.List(kind)).value; reply.These? && ListsAll(s, calls, kind, reply.records)
  {
    var p := RunPlain(s.rules, NO_RECORDS, calls).0;
    NextIsPlain(s, calls, Call.List(kind));
    RunIsOrderly(s, calls);
    IdsAreSlots(p, kind);
    PickedInOrder(s.rules, p, kind, SortedSet(IdsOf(p, kind)));
    forall rec ensures GetAfter(s, calls, Slot(kind, Id(rec))) == Success(These([rec])) <==> HoldsRecord(p, Slot(kind, Id(rec)), Some(rec)) {
      GetAfterIsPlain(s, calls, Slot(kind, Id(rec)));
    }
  }

  // ----- reports -----

  /** A report is accepted exactly when its benchmark is there, readable or not, and is what is
      read from then on. */
  lemma ReportReadsBack(s: Store, calls: seq<Call>, id: string, report: Report)
    requires Refines(s) && AllProper(calls)
    ensures ReplyAfter(s, calls, Call.CreateReport(id, report)).Success? <==> !Absent(s, calls, Slot(Benchmarks, id))
    ensures ReplyAfter(s, calls, Call.CreateReport(id, report)).Success? ==>
      GetReportAfter(s, calls + [Call.CreateReport(id, report)], id) == Success(ThisReport(report))
  {
    var call := Call.CreateReport(id, report);
    NextIsPlain(s, calls, call);
    AbsentIsPlain(s, calls, Slot(Benchmarks, id));
    LastCall(s.rules, calls, call);
    GetReportAfterIsPlain(s, calls + [call], id);
  }
}
