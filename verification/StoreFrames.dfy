/** What a run of the store leaves alone, and that what it writes is what it reads. */
module StoreFrames {
  import opened GoStrings
  import opened Results
  import opened Records
  import opened Buckets
  import opened MetadataHelpers
  import opened StoreRecords
  import opened StoreTree
  import opened StoreSteps
  import opened StoreRuns

  /** The call is about the record, or deletes the cluster the record belongs to. */
  predicate Names(call: Call, slot: Slot) {
    match call
    case Create(kind, recs, _) => kind == slot.kind && exists rec :: rec in recs && Id(rec) == slot.id
    case Update(kind, rec, _) => slot == Slot(kind, Id(rec))
    case Label(kind, ids, _, _, _) => kind == slot.kind && slot.id in ids
    case Delete(kind, ids) =>
      (slot.id in ids && kind == slot.kind) || (kind.Clusters? && slot.kind.Nodes? && slot.kind.cluster in ids)
    case _ => false
  }

  /** The call writes the benchmark's report or deletes the benchmark. */
  predicate NamesReport(call: Call, id: string) {
    match call
    case CreateReport(b, _) => b == id
    case Delete(kind, ids) => kind.Benchmarks? && id in ids
    case _ => false
  }

  /** A collection of nodes is opened by every accepted call that writes to it. */
  predicate OpensNodes(kind: Kind, slot: Slot) {
    slot.kind.Clusters? && kind == Nodes(slot.id)
  }

  /** The call opens the nodes of the cluster. */
  predicate Opens(call: Call, slot: Slot) {
    match call
    case Create(kind, _, _) => OpensNodes(kind, slot)
    case Update(kind, _, _) => OpensNodes(kind, slot)
    case Label(kind, _, _, _, _) => OpensNodes(kind, slot)
    case _ => false
  }

  /** What was there is still there.  If nothing was, nothing is, unless it is a cluster whose
      nodes have been opened: then it is there, with nothing but its id. */
  ghost predicate KeepsRecord(p: Plain, q: Plain, slot: Slot, nodesOpened: bool) {
    if slot in p.records then slot in q.records && q.records[slot] == p.records[slot]
    else if nodesOpened then slot in q.records && q.records[slot] == Some(OnlyId(slot.id))
    else slot !in q.records
  }

  ghost predicate KeepsReport(p: Plain, q: Plain, id: string) {
    (id in p.reports <==> id in q.reports) && (id in p.reports ==> q.reports[id] == p.reports[id])
  }

  lemma OpenKeeps(p: Plain, kind: Kind, slot: Slot)
    requires Open(p, kind).Success?
    ensures KeepsRecord(p, Open(p, kind).value, slot, OpensNodes(kind, slot)) && Open(p, kind).value.reports == p.reports
  {
  }

  lemma {:induction false} AddKeeps(u: Rules, p: Plain, kind: Kind, recs: seq<Record>, clock: nat -> Time, slot: Slot)
    requires PlainAdd(u, p, kind, recs, clock).Success?
    ensures !Names(Call.Create(kind, recs, clock), slot) ==> KeepsRecord(p, PlainAdd(u, p, kind, recs, clock).value, slot, false)
    ensures PlainAdd(u, p, kind, recs, clock).value.reports == p.reports
  {
    if recs != [] {
      var n := |recs| - 1;
      AddKeeps(u, p, kind, recs[..n], clock, slot);
      assert recs[n] in recs && Id(Created(recs[n], clock(n))) == Id(recs[n]);
    }
  }

  lemma RelabelOneKeeps(u: Rules, s: PlainBatch, done: Slot, removes: set<string>, now: Time, slot: Slot)
    requires PlainRelabelOne(u, s, done, removes, now).Success?
    ensures slot != done ==> KeepsRecord(s.store, PlainRelabelOne(u, s, done, removes, now).value.store, slot, false)
    ensures PlainRelabelOne(u, s, done, removes, now).value.store.reports == s.store.reports
  {
  }

  lemma {:induction false} RelabelKeeps(u: Rules, p: Plain, kind: Kind, ids: seq<string>, adds: set<string>,
                                        removes: set<string>, clock: nat -> Time, slot: Slot)
    requires PlainRelabel(u, p, kind, ids, adds, removes, clock).Success?
    ensures !(kind == slot.kind && slot.id in ids) ==>
      KeepsRecord(p, PlainRelabel(u, p, kind, ids, adds, removes, clock).value.store, slot, false)
    ensures PlainRelabel(u, p, kind, ids, adds, removes, clock).value.store.reports == p.reports
  {
    if ids != [] {
      var n := |ids| - 1;
      RelabelKeeps(u, p, kind, ids[..n], adds, removes, clock, slot);
      RelabelOneKeeps(u, PlainRelabel(u, p, kind, ids[..n], adds, removes, clock).value, Slot(kind, ids[n]), removes, clock(n), slot);
      InLast(ids, slot.id);
    }
  }

  lemma {:induction false} RemoveKeeps(p: Plain, kind: Kind, ids: seq<string>, slot: Slot, id: string)
    requires PlainRemove(p, kind, ids).Success?
    ensures !Names(Call.Delete(kind, ids), slot) ==> KeepsRecord(p, PlainRemove(p, kind, ids).value, slot, false)
    ensures !(kind.Benchmarks? && id in ids) ==> KeepsReport(p, PlainRemove(p, kind, ids).value, id)
  {
    if ids != [] {
      RemoveKeeps(p, kind, ids[..|ids| - 1], slot, id);
      assert ids[|ids| - 1] in ids;
    }
  }

  lemma CreateKeeps(u: Rules, p: Plain, kind: Kind, recs: seq<Record>, clock: nat -> Time, slot: Slot)
    requires PlainCreate(u, p, kind, recs, clock).Success?
    ensures !Names(Call.Create(kind, recs, clock), slot) ==>
      KeepsRecord(p, PlainCreate(u, p, kind, recs, clock).value.0, slot, OpensNodes(kind, slot))
    ensures PlainCreate(u, p, kind, recs, clock).value.0.reports == p.reports
  {
    OpenKeeps(p, kind, slot);
    AddKeeps(u, Open(p, kind).value, kind, recs, clock, slot);
  }

  lemma LabelKeeps(u: Rules, p: Plain, kind: Kind, ids: seq<string>, adds: set<string>, removes: set<string>,
                   clock: nat -> Time, slot: Slot)
    requires PlainLabel(u, p, kind, ids, adds, removes, clock).Success?
    ensures !(kind == slot.kind && slot.id in ids) ==>
      KeepsRecord(p, PlainLabel(u, p, kind, ids, adds, removes, clock).value.0, slot, OpensNodes(kind, slot))
    ensures PlainLabel(u, p, kind, ids, adds, removes, clock).value.0.reports == p.reports
  {
    OpenKeeps(p, kind, slot);
    RelabelKeeps(u, Open(p, kind).value, kind, ids, adds, removes, clock, slot);
  }

  /** The call is accepted and opens the nodes of the cluster. */
  ghost predicate OpenedBy(u: Rules, p: Plain, call: Call, slot: Slot) {
    Opens(call, slot) && PlainStep(u, p, call).Success?
  }

  /** A call leaves every record alone that it does not name, but that it makes a bare cluster
      when it opens the nodes of one that is not there. */
  lemma StepKeeps(u: Rules, p: Plain, call: Call, slot: Slot)
    ensures !Names(call, slot) ==> KeepsRecord(p, PlainExec(u, p, call).0, slot, OpenedBy(u, p, call, slot))
  {
    if PlainStep(u, p, call).Success? {
      match call
      case Create(kind, recs, clock) => CreateKeeps(u, p, kind, recs, clock, slot);
      case Update(kind, _, _) => OpenKeeps(p, kind, slot);
      case Label(kind, ids, adds, removes, clock) => LabelKeeps(u, p, kind, ids, Members(adds), Members(removes), clock, slot);
      case Delete(kind, ids) => if kind in p.live { RemoveKeeps(p, kind, ids, slot, ""); }
      case _ =>
    }
  }

  /** A call leaves every report alone that it does not name; writing or relabelling a
      benchmark is not naming its report. */
  lemma StepKeepsReport(u: Rules, p: Plain, call: Call, id: string)
    ensures !NamesReport(call, id) ==> KeepsReport(p, PlainExec(u, p, call).0, id)
  {
    var slot := Slot(Benchmarks, id);
    if PlainStep(u, p, call).Success? {
      match call
      case Create(kind, recs, clock) => CreateKeeps(u, p, kind, recs, clock, slot);
      case Update(kind, _, _) => OpenKeeps(p, kind, slot);
      case Label(kind, ids, adds, removes, clock) => LabelKeeps(u, p, kind, ids, Members(adds), Members(removes), clock, slot);
      case Delete(kind, ids) => if kind in p.live { RemoveKeeps(p, kind, ids, slot, id); }
      case _ =>
    }
  }

  ghost predicate OpenedAt(u: Rules, p: Plain, calls: seq<Call>, k: nat, slot: Slot)
    requires k < |calls|
  {
    OpenedBy(u, RunPlain(u, p, calls[..k]).0, calls[k], slot)
  }

  /** Some accepted call of the run opens the nodes of the cluster. */
  ghost predicate OpenedIn(u: Rules, p: Plain, calls: seq<Call>, slot: Slot) {
    exists k: nat :: k < |calls| && OpenedAt(u, p, calls, k, slot)
  }

  lemma OpenedBefore(u: Rules, p: Plain, calls: seq<Call>, n: nat, k: nat, slot: Slot)
    requires k < n <= |calls|
    ensures OpenedAt(u, p, calls[..n], k, slot) <==> OpenedAt(u, p, calls, k, slot)
  {
    assert calls[..n][..k] == calls[..k];
  }

  lemma OpenedGrows(u: Rules, p: Plain, calls: seq<Call>, slot: Slot)
    requires calls != []
    ensures var n := |calls| - 1; OpenedIn(u, p, calls, slot) <==> OpenedIn(u, p, calls[..n], slot) || OpenedAt(u, p, calls, n, slot)
  {
    var n := |calls| - 1;
    if OpenedIn(u, p, calls[..n], slot) {
      var k: nat :| k < n && OpenedAt(u, p, calls[..n], k, slot);
      OpenedBefore(u, p, calls, n, k, slot);
    }
    if OpenedIn(u, p, calls, slot) {
      var k: nat :| k <= n && OpenedAt(u, p, calls, k, slot);
      if k < n {
        OpenedBefore(u, p, calls, n, k, slot);
      }
    }
  }

  lemma {:induction false} RunKeeps(u: Rules, p: Plain, calls: seq<Call>, slot: Slot, id: string)
    ensures (forall call :: call in calls ==> !Names(call, slot)) ==>
      KeepsRecord(p, RunPlain(u, p, calls).0, slot, OpenedIn(u, p, calls, slot))
    ensures (forall call :: call in calls ==> !NamesReport(call, id)) ==> KeepsReport(p, RunPlain(u, p, calls).0, id)
  {
    if calls != [] {
      var n := |calls| - 1;
      RunKeeps(u, p, calls[..n], slot, id);
      StepKeeps(u, RunPlain(u, p, calls[..n]).0, calls[n], slot);
      StepKeepsReport(u, RunPlain(u, p, calls[..n]).0, calls[n], id);
      OpenedGrows(u, p, calls, slot);
      LastRun(u, p, calls);
      assert calls[n] in calls;
    }
  }

  lemma {:induction false} RunConcat(u: Rules, p: Plain, calls: seq<Call>, more: seq<Call>)
    ensures RunPlain(u, p, calls + more).0 == RunPlain(u, RunPlain(u, p, calls).0, more).0
  {
    if more == [] {
      assert calls + more == calls;
    } else {
      var all, n := calls + more, |more| - 1;
      RunConcat(u, p, calls, more[..n]);
      assert all[..|all| - 1] == calls + more[..n] && all[|all| - 1] == more[n];
      LastRun(u, p, all);
      LastRun(u, RunPlain(u, p, calls).0, more);
    }
  }

  lemma LastRun(u: Rules, p: Plain, calls: seq<Call>)
    requires calls != []
    ensures RunPlain(u, p, calls).0 == PlainExec(u, RunPlain(u, p, calls[..|calls| - 1]).0, calls[|calls| - 1]).0
  {
  }

  /** The reply to a call after a run. */
  ghost function ReplyAfter(s: Store, calls: seq<Call>, call: Call): Result<Reply, Error> {
    s.exec(RunTree(s, map[], calls).0, call).1
  }

  /** The reply to reading one record after a run. */
  ghost function GetAfter(s: Store, calls: seq<Call>, slot: Slot): Result<Reply, Error> {
    ReplyAfter(s, calls, Call.Get(slot.kind, slot.id))
  }

  /** There is no record under the id, not even one that does not read. */
  ghost predicate Absent(s: Store, calls: seq<Call>, slot: Slot) {
    GetAfter(s, calls, slot).Failure? && Reason(GetAfter(s, calls, slot).error) == Missing
  }

  /** There is a record under the id, but it does not read. */
  ghost predicate Unread(s: Store, calls: seq<Call>, slot: Slot) {
    GetAfter(s, calls, slot).Failure? && Reason(GetAfter(s, calls, slot).error) == Unreadable
  }

  ghost function GetReportAfter(s: Store, calls: seq<Call>, id: string): Result<Reply, Error> {
    ReplyAfter(s, calls, Call.GetReport(id))
  }

  /** The next call after a run is answered as on the plain store. */
  lemma NextIsPlain(s: Store, calls: seq<Call>, call: Call)
    requires Refines(s) && AllProper(calls) && Proper(call)
    ensures SameReply(ReplyAfter(s, calls, call), PlainExec(s.rules, RunPlain(s.rules, NO_RECORDS, calls).0, call).1)
  {
    RunsAlike(s, calls);
    assert StepsAlike(s, RunTree(s, map[], calls).0, RunPlain(s.rules, NO_RECORDS, calls).0, call);
  }

  lemma RunIsOrderly(s: Store, calls: seq<Call>)
    requires Refines(s) && AllProper(calls)
    ensures Orderly(s.rules, RunPlain(s.rules, NO_RECORDS, calls).0)
  {
    RunsAlike(s, calls);
  }

  /** The reply to reading a slot that holds this. */
  ghost predicate ReadsAs(r: Result<Reply, Error>, o: Option<Record>) {
    match o
    case Some(rec) => r == Success(These([rec]))
    case None => r.Failure? && Reason(r.error) == Unreadable
  }

  /** What reading a record after a run gives, if anything. */
  ghost function WasAfter(s: Store, calls: seq<Call>, slot: Slot): Option<Record> {
    match GetAfter(s, calls, slot)
    case Success(reply) => (if reply.These? && |reply.records| == 1 then Some(reply.records[0]) else None)
    case Failure(_) => None
  }

  lemma ReadsWas(s: Store, calls: seq<Call>, slot: Slot, rec: Record)
    requires ReadsAs(GetAfter(s, calls, slot), Some(rec))
    ensures WasAfter(s, calls, slot) == Some(rec)
  {
  }

  predicate HoldsRecord(p: Plain, slot: Slot, o: Option<Record>) {
    slot in p.records && p.records[slot] == o
  }

  lemma GetAfterIsPlain(s: Store, calls: seq<Call>, slot: Slot)
    requires Refines(s) && AllProper(calls)
    ensures var p := RunPlain(s.rules, NO_RECORDS, calls).0;
      && WasAfter(s, calls, slot) == Was(p, slot)
      && (slot in p.records ==> ReadsAs(GetAfter(s, calls, slot), p.records[slot]))
      && (slot !in p.records ==> GetAfter(s, calls, slot).Failure? && Reason(GetAfter(s, calls, slot).error) == Missing)
  {
    NextIsPlain(s, calls, Call.Get(slot.kind, slot.id));
  }

  lemma GetReportAfterIsPlain(s: Store, calls: seq<Call>, id: string)
    requires Refines(s) && AllProper(calls)
    ensures GetReportAfter(s, calls, id).Success? <==> id in RunPlain(s.rules, NO_RECORDS, calls).0.reports
    ensures GetReportAfter(s, calls, id).Success? ==>
      GetReportAfter(s, calls, id) == Success(ThisReport(RunPlain(s.rules, NO_RECORDS, calls).0.reports[id]))
  {
    NextIsPlain(s, calls, Call.GetReport(id));
  }

  /** The k-th call of the further run is accepted and opens the nodes of the cluster. */
  ghost predicate OpenedThere(s: Store, calls: seq<Call>, more: seq<Call>, k: nat, slot: Slot)
    requires k < |more|
  {
    Opens(more[k], slot) && ReplyAfter(s, calls + more[..k], more[k]).Success?
  }

  ghost predicate OpenedDuring(s: Store, calls: seq<Call>, more: seq<Call>, slot: Slot) {
    exists k: nat :: k < |more| && OpenedThere(s, calls, more, k, slot)
  }

  lemma OpenedIsPlain(s: Store, calls: seq<Call>, more: seq<Call>, slot: Slot)
    requires Refines(s) && AllProper(calls) && AllProper(more)
    ensures OpenedDuring(s, calls, more, slot) <==> OpenedIn(s.rules, RunPlain(s.rules, NO_RECORDS, calls).0, more, slot)
  {
    var p := RunPlain(s.rules, NO_RECORDS, calls).0;
    forall k: nat | k < |more| ensures OpenedThere(s, calls, more, k, slot) <==> OpenedAt(s.rules, p, more, k, slot) {
      assert more[k] in more;
      RunConcat(s.rules, NO_RECORDS, calls, more[..k]);
      NextIsPlain(s, calls + more[..k], more[k]);
    }
  }

  /** A record reads the same after any run that does not name it: nodes survive updates and
      relabelling of their cluster, and a benchmark keeps the cluster and the scenario it
      was made with whatever becomes of the originals.  Where there was none there is none,
      but that a cluster comes into being, with nothing but its id, exactly when an accepted
      call of the run opens its nodes. */
  lemma UnnamedRecordStays(s: Store, calls: seq<Call>, more: seq<Call>, slot: Slot)
    requires Refines(s) && AllProper(calls) && AllProper(more)
    requires forall call :: call in more ==> !Names(call, slot)
    ensures GetAfter(s, calls, slot).Success? ==> GetAfter(s, calls + more, slot) == GetAfter(s, calls, slot)
    ensures Unread(s, calls, slot) ==> Unread(s, calls + more, slot)
    ensures Absent(s, calls, slot) ==>
      if OpenedDuring(s, calls, more, slot) then GetAfter(s, calls + more, slot) == Success(These([OnlyId(slot.id)]))
      else Absent(s, calls + more, slot)
  {
    GetAfterIsPlain(s, calls, slot);
    GetAfterIsPlain(s, calls + more, slot);
    RunConcat(s.rules, NO_RECORDS, calls, more);
    OpenedIsPlain(s, calls, more, slot);
    RunKeeps(s.rules, RunPlain(s.rules, NO_RECORDS, calls).0, more, slot, "");
  }

  /** A report reads the same, or is missing as before, after any run that neither writes it
      nor deletes its benchmark. */
  lemma UnnamedReportStays(s: Store, calls: seq<Call>, more: seq<Call>, id: string)
    requires Refines(s) && AllProper(calls) && AllProper(more)
    requires forall call :: call in more ==> !NamesReport(call, id)
    ensures GetReportAfter(s, calls, id).Success? <==> GetReportAfter(s, calls + more, id).Success?
    ensures GetReportAfter(s, calls, id).Success? ==> GetReportAfter(s, calls + more, id) == GetReportAfter(s, calls, id)
  {
    GetReportAfterIsPlain(s, calls, id);
    GetReportAfterIsPlain(s, calls + more, id);
    RunConcat(s.rules, NO_RECORDS, calls, more);
    RunKeeps(s.rules, RunPlain(s.rules, NO_RECORDS, calls).0, more, Slot(Benchmarks, id), id);
  }

  /** If the call is accepted, the slot ends up holding this. */
  ghost predicate Leaves(u: Rules, p: Plain, call: Call, slot: Slot, o: Option<Record>) {
    PlainStep(u, p, call).Success? ==> HoldsRecord(PlainStep(u, p, call).value.0, slot, o)
  }

  lemma AcceptedThenRead(s: Store, calls: seq<Call>, call: Call, slot: Slot, o: Option<Record>)
    requires Refines(s) && AllProper(calls) && Proper(call)
    requires Leaves(s.rules, RunPlain(s.rules, NO_RECORDS, calls).0, call, slot, o)
    requires ReplyAfter(s, calls, call).Success?
    ensures ReadsAs(GetAfter(s, calls + [call], slot), o)
  {
    NextIsPlain(s, calls, call);
    LastCall(s.rules, calls, call);
    GetAfterIsPlain(s, calls + [call], slot);
  }

  lemma LastCall(u: Rules, calls: seq<Call>, call: Call)
    ensures RunPlain(u, NO_RECORDS, calls + [call]).0 == PlainExec(u, RunPlain(u, NO_RECORDS, calls).0, call).0
  {
    assert (calls + [call])[..|calls + [call]| - 1] == calls;
  }

  /** What an accepted update wrote is what a read returns, in normal form, whatever the
      record was before. */
  lemma UpdateReadsBack(s: Store, calls: seq<Call>, kind: Kind, rec: Record, now: Time)
    requires Refines(s) && AllProper(calls) && Proper(Call.Update(kind, rec, now))
    requires ReplyAfter(s, calls, Call.Update(kind, rec, now)).Success?
    ensures var slot := Slot(kind, Id(rec));
      ReadsAs(GetAfter(s, calls + [Call.Update(kind, rec, now)], slot), s.rules.normal(WasAfter(s, calls, slot), Updated(rec, now)))
  {
    var p, slot := RunPlain(s.rules, NO_RECORDS, calls).0, Slot(kind, Id(rec));
    GetAfterIsPlain(s, calls, slot);
    UpdateLeaves(s.rules, p, kind, rec, now);
    AcceptedThenRead(s, calls, Call.Update(kind, rec, now), slot, s.rules.normal(Was(p, slot), Updated(rec, now)));
  }

  lemma UpdateLeaves(u: Rules, p: Plain, kind: Kind, rec: Record, now: Time)
    ensures Leaves(u, p, Call.Update(kind, rec, now), Slot(kind, Id(rec)), u.normal(Was(p, Slot(kind, Id(rec))), Updated(rec, now)))
  {
    OneUpdated(u, p, kind, rec, now);
  }

  lemma OneUpdated(u: Rules, p: Plain, kind: Kind, rec: Record, now: Time)
    ensures var r, slot := PlainUpdate(u, p, kind, rec, now), Slot(kind, Id(rec));
      r.Success? ==> slot in p.records && HoldsRecord(r.value.0, slot, u.normal(Was(p, slot), Updated(rec, now)))
  {
    var next := Updated(rec, now);
    UpdatedId(rec, now);
    if Id(rec) != "" && Open(p, kind).Success? {
      OpenKeepsSuited(p, kind, Slot(kind, Id(rec)));
      var q := PlainRewrite(u, Open(p, kind).value, kind, next);
    }
  }

  /** Opening a collection adds nothing to that collection. */
  lemma OpenKeepsSuited(p: Plain, kind: Kind, slot: Slot)
    requires Open(p, kind).Success? && slot.kind == kind
    ensures slot in Open(p, kind).value.records <==> slot in p.records
    ensures Was(Open(p, kind).value, slot) == Was(p, slot)
  {
  }

  lemma UpdatedId(rec: Record, now: Time)
    ensures Id(Updated(rec, now)) == Id(rec)
  {
  }

  /** Of all the records an accepted creation wrote, each reads back in normal form. */
  lemma CreateReadsBack(s: Store, calls: seq<Call>, kind: Kind, recs: seq<Record>, clock: nat -> Time, i: nat)
    requires Refines(s) && AllProper(calls) && Proper(Call.Create(kind, recs, clock)) && i < |recs|
    requires ReplyAfter(s, calls, Call.Create(kind, recs, clock)).Success?
    ensures ReadsAs(GetAfter(s, calls + [Call.Create(kind, recs, clock)], Slot(kind, Id(recs[i]))),
                    s.rules.normal(None, Created(recs[i], clock(i))))
    ensures GetAfter(s, calls, Slot(kind, Id(recs[i]))).Failure?
  {
    var p, slot := RunPlain(s.rules, NO_RECORDS, calls).0, Slot(kind, Id(recs[i]));
    CreateLeaves(s.rules, p, kind, recs, clock, i);
    NextIsPlain(s, calls, Call.Create(kind, recs, clock));
    GetAfterIsPlain(s, calls, slot);
    AcceptedThenRead(s, calls, Call.Create(kind, recs, clock), slot, s.rules.normal(None, Created(recs[i], clock(i))));
  }

  /** So it is for a single record, if what it reads back as is known. */
  lemma OneReadsBack(s: Store, calls: seq<Call>, kind: Kind, rec: Record, clock: nat -> Time, o: Record)
    requires Refines(s) && AllProper(calls) && Suits(kind, rec) && s.rules.normal(None, Created(rec, clock(0))) == Some(o)
    requires ReplyAfter(s, calls, Call.Create(kind, [rec], clock)).Success?
    ensures WasAfter(s, calls + [Call.Create(kind, [rec], clock)], Slot(kind, Id(rec))) == Some(o)
  {
    CreateReadsBack(s, calls, kind, [rec], clock, 0);
    ReadsWas(s, calls + [Call.Create(kind, [rec], clock)], Slot(kind, Id(rec)), o);
  }

  lemma CreateLeaves(u: Rules, p: Plain, kind: Kind, recs: seq<Record>, clock: nat -> Time, i: nat)
    requires i < |recs|
    ensures Leaves(u, p, Call.Create(kind, recs, clock), Slot(kind, Id(recs[i])), u.normal(None, Created(recs[i], clock(i))))
    ensures PlainCreate(u, p, kind, recs, clock).Success? ==> Slot(kind, Id(recs[i])) !in p.records
  {
    var o := Open(p, kind);
    if o.Success? && PlainAdd(u, o.value, kind, recs, clock).Success? {
      AllAdded(u, o.value, kind, recs, clock, i);
      OpenKeepsSuited(p, kind, Slot(kind, Id(recs[i])));
    }
  }

  lemma {:induction false} AllAdded(u: Rules, p: Plain, kind: Kind, recs: seq<Record>, clock: nat -> Time, i: nat)
    requires i < |recs| && PlainAdd(u, p, kind, recs, clock).Success?
    ensures HoldsRecord(PlainAdd(u, p, kind, recs, clock).value, Slot(kind, Id(recs[i])), u.normal(None, Created(recs[i], clock(i))))
    ensures Slot(kind, Id(recs[i])) !in p.records
  {
    var n := |recs| - 1;
    assert Id(Created(recs[n], clock(n))) == Id(recs[n]);
    if i < n {
      AllAdded(u, p, kind, recs[..n], clock, i);
    } else {
      AddedStay(u, p, kind, recs[..n], clock, Slot(kind, Id(recs[n])));
    }
  }

  lemma {:induction false} AddedStay(u: Rules, p: Plain, kind: Kind, recs: seq<Record>, clock: nat -> Time, slot: Slot)
    requires PlainAdd(u, p, kind, recs, clock).Success?
    ensures slot in p.records ==> slot in PlainAdd(u, p, kind, recs, clock).value.records
  {
    if recs != [] {
      AddedStay(u, p, kind, recs[..|recs| - 1], clock, slot);
    }
  }

  // ----- when a creation is accepted -----

  predicate HasId(recs: seq<Record>, id: string) {
    exists rec :: rec in recs && Id(rec) == id
  }

  lemma HasIdGrows(recs: seq<Record>, id: string)
    requires recs != []
    ensures HasId(recs, id) <==> HasId(recs[..|recs| - 1], id) || Id(recs[|recs| - 1]) == id
  {
    var n := |recs| - 1;
    assert recs == recs[..n] + [recs[n]];
    if Id(recs[n]) == id {
      assert recs[n] in recs;
    }
    if rec :| rec in recs[..n] && Id(rec) == id {
      assert rec in recs;
    }
  }

  /** The i-th record can be written, under an id that is not empty, not taken, and not that
      of a record before it. */
  ghost predicate NewAt(u: Rules, taken: bool, recs: seq<Record>, i: nat, now: Time)
    requires i < |recs|
  {
    Id(recs[i]) != "" && !taken && u.writable(None, Created(recs[i], now)) && !HasId(recs[..i], Id(recs[i]))
  }

  ghost predicate AllNew(u: Rules, p: Plain, kind: Kind, recs: seq<Record>, clock: nat -> Time) {
    forall i: nat :: i < |recs| ==> NewAt(u, Slot(kind, Id(recs[i])) in p.records, recs, i, clock(i))
  }

  lemma AllNewGrows(u: Rules, p: Plain, kind: Kind, recs: seq<Record>, clock: nat -> Time)
    requires recs != []
    ensures var n := |recs| - 1; AllNew(u, p, kind, recs, clock) <==>
      AllNew(u, p, kind, recs[..n], clock) && NewAt(u, Slot(kind, Id(recs[n])) in p.records, recs, n, clock(n))
  {
    var n := |recs| - 1;
    forall i: nat | i < n
      ensures NewAt(u, Slot(kind, Id(recs[..n][i])) in p.records, recs[..n], i, clock(i)) <==>
        NewAt(u, Slot(kind, Id(recs[i])) in p.records, recs, i, clock(i))
    {
      assert recs[..n][..i] == recs[..i] && recs[..n][i] == recs[i];
    }
  }

  /** The records added are there, and no others but those that were. */
  ghost predicate SlotsAdded(p: Plain, q: Plain, kind: Kind, recs: seq<Record>) {
    forall slot :: slot in q.records <==> slot in p.records || (slot.kind == kind && HasId(recs, slot.id))
  }

  lemma OneMoreSlot(p: Plain, q: Plain, r: Plain, kind: Kind, recs: seq<Record>, o: Option<Record>)
    requires recs != [] && SlotsAdded(p, q, kind, recs[..|recs| - 1])
    requires r.records == q.records[Slot(kind, Id(recs[|recs| - 1])) := o]
    ensures SlotsAdded(p, r, kind, recs)
  {
    forall slot ensures slot in r.records <==> slot in p.records || (slot.kind == kind && HasId(recs, slot.id)) {
      HasIdGrows(recs, slot.id);
    }
  }

  lemma {:induction false} AddAccepted(u: Rules, p: Plain, kind: Kind, recs: seq<Record>, clock: nat -> Time)
    ensures PlainAdd(u, p, kind, recs, clock).Success? <==> AllNew(u, p, kind, recs, clock)
    ensures PlainAdd(u, p, kind, recs, clock).Success? ==> SlotsAdded(p, PlainAdd(u, p, kind, recs, clock).value, kind, recs)
  {
    if recs != [] {
      var n := |recs| - 1;
      AddAccepted(u, p, kind, recs[..n], clock);
      AllNewGrows(u, p, kind, recs, clock);
      if PlainAdd(u, p, kind, recs[..n], clock).Success? {
        LastAdded(u, p, PlainAdd(u, p, kind, recs[..n], clock).value, kind, recs, clock(n));
      }
    }
  }

  lemma LastAdded(u: Rules, p: Plain, q: Plain, kind: Kind, recs: seq<Record>, now: Time)
    requires recs != [] && SlotsAdded(p, q, kind, recs[..|recs| - 1])
    ensures var n := |recs| - 1; var r := PlainAddOne(u, q, kind, Created(recs[n], now));
      && (r.Success? <==> NewAt(u, Slot(kind, Id(recs[n])) in p.records, recs, n, now))
      && (r.Success? ==> SlotsAdded(p, r.value, kind, recs))
  {
    var n := |recs| - 1;
    var rec := Created(recs[n], now);
    assert Id(rec) == Id(recs[n]);
    if PlainAddOne(u, q, kind, rec).Success? {
      OneMoreSlot(p, q, PlainAddOne(u, q, kind, rec).value, kind, recs, u.normal(None, rec));
    }
  }

  lemma AbsentIsPlain(s: Store, calls: seq<Call>, slot: Slot)
    requires Refines(s) && AllProper(calls)
    ensures Absent(s, calls, slot) <==> slot !in RunPlain(s.rules, NO_RECORDS, calls).0.records
  {
    GetAfterIsPlain(s, calls, slot);
  }

  /** A single record. */
  lemma OneNew(u: Rules, taken: bool, rec: Record, now: Time)
    ensures NewAt(u, taken, [rec], 0, now) <==> Id(rec) != "" && !taken && u.writable(None, Created(rec, now))
  {
    assert [rec][..0] == [];
  }

  /** A creation is accepted exactly when the ids are admissible, the collection can be opened,
      and each record can be written under an id that is not empty, not taken and not given
      twice. */
  lemma CreateAccepted(s: Store, calls: seq<Call>, kind: Kind, recs: seq<Record>, clock: nat -> Time)
    requires Refines(s) && AllProper(calls) && Proper(Call.Create(kind, recs, clock))
    ensures ReplyAfter(s, calls, Call.Create(kind, recs, clock)).Success? <==>
      Admissible(kind, recs) && kind != Nodes("") &&
      forall i: nat :: i < |recs| ==> NewAt(s.rules, !Absent(s, calls, Slot(kind, Id(recs[i]))), recs, i, clock(i))
  {
    var p := RunPlain(s.rules, NO_RECORDS, calls).0;
    NextIsPlain(s, calls, Call.Create(kind, recs, clock));
    forall i: nat | i < |recs| ensures !Absent(s, calls, Slot(kind, Id(recs[i]))) <==> Slot(kind, Id(recs[i])) in p.records {
      AbsentIsPlain(s, calls, Slot(kind, Id(recs[i])));
    }
    CreationPlain(s.rules, p, kind, recs, clock);
  }

  lemma CreationPlain(u: Rules, p: Plain, kind: Kind, recs: seq<Record>, clock: nat -> Time)
    ensures PlainCreate(u, p, kind, recs, clock).Success? <==> Admissible(kind, recs) && kind != Nodes("") && AllNew(u, p, kind, recs, clock)
  {
    if Open(p, kind).Success? {
      var o := Open(p, kind).value;
      AddAccepted(u, o, kind, recs, clock);
      forall i: nat | i < |recs| ensures Slot(kind, Id(recs[i])) in o.records <==> Slot(kind, Id(recs[i])) in p.records {
        OpenKeepsSuited(p, kind, Slot(kind, Id(recs[i])));
      }
    }
  }

  // ----- listing -----

  lemma {:induction false} PickReads(p: Plain, kind: Kind, ids: seq<string>)
    requires forall id :: id in ids ==> Slot(kind, id) in p.records
    ensures Pick(p, kind, ids).Success? <==> forall id :: id in ids ==> p.records[Slot(kind, id)].Some?
  {
    if ids != [] {
      var n := |ids| - 1;
      PickReads(p, kind, ids[..n]);
      forall id ensures id in ids <==> id in ids[..n] || id == ids[n] {
        InLast(ids, id);
      }
    }
  }

  /** A collection is listed exactly when every record in it reads. */
  lemma ListAccepted(s: Store, calls: seq<Call>, kind: Kind)
    requires Refines(s) && AllProper(calls)
    ensures ReplyAfter(s, calls, Call.List(kind)).Success? <==> forall id :: !Unread(s, calls, Slot(kind, id))
  {
    var p := RunPlain(s.rules, NO_RECORDS, calls).0;
    NextIsPlain(s, calls, Call.List(kind));
    IdsAreSlots(p, kind);
    PickReads(p, kind, SortedSet(IdsOf(p, kind)));
    forall id ensures Unread(s, calls, Slot(kind, id)) <==> id in IdsOf(p, kind) && p.records[Slot(kind, id)].None? {
      GetAfterIsPlain(s, calls, Slot(kind, id));
    }
  }
}
