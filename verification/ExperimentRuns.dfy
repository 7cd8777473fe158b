/** metadata/experiment.go over whole runs of the store: which list of reports an experiment
    has, and what its having one rules out. */
module ExperimentRuns {
  import opened GoStrings
  import opened Results
  import opened Records
  import opened MetadataHelpers
  import opened ExperimentCodec
  import opened StoreRecords
  import opened StoreTree
  import opened StoreSteps
  import opened StoreFormat
  import opened StoreRuns
  import opened StoreFrames
  import opened LabelBatch

  // ----- the rules for experiments -----

  ghost predicate ExperimentRule(u: Rules, was: Option<Record>, e: Experiment) {
    && (u.writable(was, OfExperiment(e)) <==> ExperimentWritable(e, ReportsIn(was)))
    && u.normal(was, OfExperiment(e)) == Some(OfExperiment(NormalExperiment(e, ReportsIn(was))))
  }

  ghost predicate ExperimentRules(u: Rules) {
    forall was, e :: ExperimentRule(u, was, e)
  }

  lemma FormatRules(x: Texts)
    ensures ExperimentRules(FormatOf(x).rules)
  {
  }

  // ----- the list an experiment has -----

  /** The experiment's list of reports after an accepted call, from the one before. */
  function ReportsAfter(call: Call, id: string, before: seq<Report>): seq<Report> {
    match call
    case Create(kind, recs, _) => if kind.Experiments? && recs != [] && Id(recs[0]) == id then ReportsIn(Some(recs[0])) else before
    case Update(kind, rec, _) => if kind.Experiments? && Id(rec) == id && before == [] then ReportsIn(Some(rec)) else before
    case Delete(kind, ids) => if kind.Experiments? && id in ids then [] else before
    case _ => before
  }

  /** The first non-empty list written to the experiment since it was created last; calls
      that were refused have written nothing. */
  ghost function FirstWritten(s: Store, calls: seq<Call>, id: string): seq<Report> {
    if calls == [] then []
    else
      var n := |calls| - 1;
      var before := FirstWritten(s, calls[..n], id);
      if ReplyAfter(s, calls[..n], calls[n]).Success? then ReportsAfter(calls[n], id, before) else before
  }

  /** What is there under the id is an experiment. */
  predicate ExperimentAt(p: Plain, id: string) {
    var slot := Slot(Experiments, id);
    slot in p.records ==> p.records[slot].Some? && p.records[slot].value.OfExperiment? && p.records[slot].value.experiment.id == id
  }

  ghost predicate AllExperiments(p: Plain) {
    forall id :: ExperimentAt(p, id)
  }

  lemma AfterRunSuits(s: Store, calls: seq<Call>, id: string)
    requires Refines(s) && AllProper(calls)
    ensures AllExperiments(RunPlain(s.rules, NO_RECORDS, calls).0)
    ensures var p := RunPlain(s.rules, NO_RECORDS, calls).0;
      ExperimentAt(p, id) && (Slot(Experiments, id) in p.records ==> id != "" && Experiments in p.live)
  {
    var p := RunPlain(s.rules, NO_RECORDS, calls).0;
    RunIsOrderly(s, calls);
    forall i ensures ExperimentAt(p, i) {
      if Slot(Experiments, i) in p.records {
        assert OrderlyAt(s.rules, p, Slot(Experiments, i));
      }
    }
    if Slot(Experiments, id) in p.records {
      assert OrderlyAt(s.rules, p, Slot(Experiments, id));
    }
  }

  /** A record of an experiment with these reports. */
  predicate HasReports(rec: Record, id: string, rs: seq<Report>) {
    rec.OfExperiment? && rec.experiment.id == id && rec.experiment.reports == rs
  }

  lemma RelabelledReports(rec: Record, labels: seq<string>, now: Time, id: string, rs: seq<Report>)
    requires HasReports(rec, id, rs)
    ensures HasReports(Relabelled(rec, labels, now), id, rs) && Labels(Relabelled(rec, labels, now)) == labels
  {
  }

  /** Writing back the reports an experiment has. */
  lemma SameReports(u: Rules, rec: Record, next: Record, id: string, rs: seq<Report>)
    requires ExperimentRules(u) && HasReports(rec, id, rs) && HasReports(next, id, rs)
    ensures u.writable(Some(rec), next) <==> id != "" && "" !in Labels(next) && rs == []
    ensures var o := u.normal(Some(rec), next); o.Some? && HasReports(o.value, id, rs)
  {
    assert ExperimentRule(u, Some(rec), next.experiment);
  }

  lemma RewrittenReports(s: PlainBatch, slot: Slot, kept: set<string>, next: Record, writable: bool, o: Option<Record>, id: string,
                         rs: seq<Report>)
    requires slot in s.store.records && s.store.records[slot].Some? && HasReports(s.store.records[slot].value, slot.id, rs)
    requires o.Some? && HasReports(o.value, slot.id, rs) && slot.kind.Experiments? && ExperimentAt(s.store, id)
    requires PlainRewritten(s, slot, kept, next, writable, o).Success?
    ensures var t := PlainRewritten(s, slot, kept, next, writable, o).value;
      && ExperimentAt(t.store, id) && t.store.records.Keys == s.store.records.Keys
      && ReportsIn(Was(t.store, Slot(Experiments, id))) == ReportsIn(Was(s.store, Slot(Experiments, id)))
  {
  }

  lemma RelabelOneReports(u: Rules, s: PlainBatch, slot: Slot, removes: set<string>, now: Time, id: string)
    requires ExperimentRules(u) && ExperimentAt(s.store, slot.id) && ExperimentAt(s.store, id) && slot.kind.Experiments?
    requires PlainRelabelOne(u, s, slot, removes, now).Success?
    ensures var t := PlainRelabelOne(u, s, slot, removes, now).value;
      && ExperimentAt(t.store, id) && t.store.records.Keys == s.store.records.Keys
      && ReportsIn(Was(t.store, Slot(Experiments, id))) == ReportsIn(Was(s.store, Slot(Experiments, id)))
    ensures ReportsIn(Was(s.store, slot)) == []
  {
    var rec := s.store.records[slot].value;
    var rs := rec.experiment.reports;
    var kept := Members(Labels(rec)) - removes;
    var labels := SortedSet(kept + (s.adds - kept));
    var next := Relabelled(rec, labels, now);
    RelabelledReports(rec, labels, now, slot.id, rs);
    SameReports(u, rec, next, slot.id, rs);
    RewrittenReports(s, slot, kept, next, u.writable(Some(rec), next), u.normal(Some(rec), next), id, rs);
  }

  /** The reports under the id are as they were, and empty if it was relabelled. */
  ghost predicate ReportsLeft(p: Plain, q: Plain, id: string, relabelled: bool) {
    && AllExperiments(q) && q.records.Keys == p.records.Keys
    && ReportsIn(Was(q, Slot(Experiments, id))) == ReportsIn(Was(p, Slot(Experiments, id)))
    && (relabelled ==> ReportsIn(Was(p, Slot(Experiments, id))) == [])
  }

  lemma LeftTwice(p: Plain, q: Plain, r: Plain, id: string, first: bool, second: bool)
    requires ReportsLeft(p, q, id, first) && ReportsLeft(q, r, id, second)
    ensures ReportsLeft(p, r, id, first || second)
  {
  }

  /** Relabelling leaves the reports as they are, and finds none on what it relabels. */
  lemma {:induction false} RelabelReports(u: Rules, p: Plain, ids: seq<string>, adds: set<string>, removes: set<string>,
                                          clock: nat -> Time, id: string)
    requires ExperimentRules(u) && AllExperiments(p) && PlainRelabel(u, p, Experiments, ids, adds, removes, clock).Success?
    ensures ReportsLeft(p, PlainRelabel(u, p, Experiments, ids, adds, removes, clock).value.store, id, id in ids)
  {
    if ids != [] {
      var n := |ids| - 1;
      RelabelReports(u, p, ids[..n], adds, removes, clock, id);
      LastRelabel(u, p, ids, adds, removes, clock, id);
    }
  }

  lemma LastRelabel(u: Rules, p: Plain, ids: seq<string>, adds: set<string>, removes: set<string>, clock: nat -> Time, id: string)
    requires ExperimentRules(u) && ids != [] && PlainRelabel(u, p, Experiments, ids, adds, removes, clock).Success?
    requires var n := |ids| - 1;
      ReportsLeft(p, PlainRelabel(u, p, Experiments, ids[..n], adds, removes, clock).value.store, id, id in ids[..n])
    ensures ReportsLeft(p, PlainRelabel(u, p, Experiments, ids, adds, removes, clock).value.store, id, id in ids)
  {
    var n := |ids| - 1;
    var s := PlainRelabel(u, p, Experiments, ids[..n], adds, removes, clock).value;
    var t := OneMoreReports(u, s, Slot(Experiments, ids[n]), removes, clock(n), id);
    LeftTwice(p, s.store, t.store, id, id in ids[..n], ids[n] == id);
    InLast(ids, id);
  }

  lemma OneMoreReports(u: Rules, s: PlainBatch, slot: Slot, removes: set<string>, now: Time, id: string) returns (t: PlainBatch)
    requires ExperimentRules(u) && AllExperiments(s.store) && slot.kind.Experiments?
    requires PlainRelabelOne(u, s, slot, removes, now).Success?
    ensures PlainRelabelOne(u, s, slot, removes, now) == Success(t) && ReportsLeft(s.store, t.store, id, slot.id == id)
  {
    t := PlainRelabelOne(u, s, slot, removes, now).value;
    forall i ensures ExperimentAt(t.store, i) {
      RelabelOneReports(u, s, slot, removes, now, i);
    }
    RelabelOneReports(u, s, slot, removes, now, id);
  }

  lemma {:induction false} RemovedGone(p: Plain, kind: Kind, ids: seq<string>, id: string)
    requires PlainRemove(p, kind, ids).Success? && id in ids
    ensures Slot(kind, id) !in PlainRemove(p, kind, ids).value.records
  {
    var n := |ids| - 1;
    if id != ids[n] {
      RemovedGone(p, kind, ids[..n], id);
    }
  }

  lemma CreateReports(u: Rules, p: Plain, recs: seq<Record>, clock: nat -> Time)
    requires ExperimentRules(u) && Proper(Call.Create(Experiments, recs, clock)) && PlainCreate(u, p, Experiments, recs, clock).Success?
    ensures var slot := Slot(Experiments, Id(recs[0]));
      ReportsIn(Was(PlainCreate(u, p, Experiments, recs, clock).value.0, slot)) == ReportsIn(Some(recs[0]))
  {
    assert recs[0] in recs;
    CreateLeaves(u, p, Experiments, recs, clock, 0);
    assert ExperimentRule(u, None, Created(recs[0], clock(0)).experiment);
    var call := Call.Create(Experiments, recs, clock);
    assert PlainStep(u, p, call) == PlainCreate(u, p, Experiments, recs, clock);
  }

  lemma UpdateReports(u: Rules, p: Plain, rec: Record, now: Time)
    requires ExperimentRules(u) && rec.OfExperiment? && PlainUpdate(u, p, Experiments, rec, now).Success?
    ensures var slot, q := Slot(Experiments, Id(rec)), PlainUpdate(u, p, Experiments, rec, now).value.0;
      slot in p.records && ReportsIn(Was(q, slot)) == ReportsKept(rec.experiment, ReportsIn(Was(p, slot)))
  {
    OneUpdated(u, p, Experiments, rec, now);
    assert ExperimentRule(u, Was(p, Slot(Experiments, Id(rec))), Updated(rec, now).experiment);
  }

  lemma LabelReports(u: Rules, p: Plain, ids: seq<string>, adds: set<string>, removes: set<string>, clock: nat -> Time, id: string)
    requires ExperimentRules(u) && AllExperiments(p) && PlainLabel(u, p, Experiments, ids, adds, removes, clock).Success?
    ensures var slot, q := Slot(Experiments, id), PlainLabel(u, p, Experiments, ids, adds, removes, clock).value.0;
      ReportsIn(Was(q, slot)) == ReportsIn(Was(p, slot)) && (slot in q.records <==> slot in p.records)
  {
    assert forall i :: ExperimentAt(p, i) ==> ExperimentAt(Open(p, Experiments).value, i);
    RelabelReports(u, Open(p, Experiments).value, ids, adds, removes, clock, id);
  }

  lemma DeleteReports(p: Plain, ids: seq<string>, id: string)
    requires PlainDelete(p, Experiments, ids).Success? && id in ids
    requires Slot(Experiments, id) in p.records ==> Experiments in p.live
    ensures Slot(Experiments, id) !in PlainDelete(p, Experiments, ids).value.0.records
  {
    if Experiments in p.live {
      RemovedGone(p, Experiments, ids, id);
    }
  }

  /** What an accepted call does to the reports of one experiment. */
  lemma StepReports(u: Rules, p: Plain, call: Call, id: string)
    requires ExperimentRules(u) && AllExperiments(p) && Proper(call) && PlainStep(u, p, call).Success?
    requires Slot(Experiments, id) in p.records ==> Experiments in p.live
    ensures var slot, q := Slot(Experiments, id), PlainStep(u, p, call).value.0;
      && (slot in q.records ==> ReportsIn(Was(q, slot)) == ReportsAfter(call, id, ReportsIn(Was(p, slot))))
      && (slot in q.records ==> slot in p.records || (call.Create? && call.kind.Experiments? && Id(call.recs[0]) == id))
  {
    var slot := Slot(Experiments, id);
    if Names(call, slot) {
      match call
      case Create(_, recs, clock) => CreateReports(u, p, recs, clock);
      case Update(_, rec, now) => UpdateReports(u, p, rec, now);
      case Label(_, ids, adds, removes, clock) => LabelReports(u, p, ids, Members(adds), Members(removes), clock, id);
      case Delete(_, ids) => DeleteReports(p, ids, id);
    } else {
      StepKeeps(u, p, call, slot);
      UnnamedReports(call, id, ReportsIn(Was(p, slot)));
    }
  }

  lemma UnnamedReports(call: Call, id: string, before: seq<Report>)
    requires !Names(call, Slot(Experiments, id))
    ensures ReportsAfter(call, id, before) == before
  {
    if call.Create? && call.recs != [] {
      assert call.recs[0] in call.recs;
    }
  }

  /** One more call of a run, seen from one experiment. */
  lemma NextReports(s: Store, calls: seq<Call>, call: Call, id: string)
    requires Refines(s) && ExperimentRules(s.rules) && AllProper(calls) && Proper(call)
    ensures var slot, p := Slot(Experiments, id), RunPlain(s.rules, NO_RECORDS, calls).0;
      var q := PlainExec(s.rules, p, call).0;
      var ok := ReplyAfter(s, calls, call).Success?;
      && (ok && slot in q.records ==> ReportsIn(Was(q, slot)) == ReportsAfter(call, id, ReportsIn(Was(p, slot))))
      && (ok && slot in q.records ==> slot in p.records || (call.Create? && call.kind.Experiments? && Id(call.recs[0]) == id))
      && (!ok ==> q == p)
  {
    var p := RunPlain(s.rules, NO_RECORDS, calls).0;
    NextIsPlain(s, calls, call);
    AfterRunSuits(s, calls, id);
    if PlainStep(s.rules, p, call).Success? {
      StepReports(s.rules, p, call, id);
    }
  }

  lemma {:induction false} RunReports(s: Store, calls: seq<Call>, id: string)
    requires Refines(s) && ExperimentRules(s.rules) && AllProper(calls)
    ensures var p, slot := RunPlain(s.rules, NO_RECORDS, calls).0, Slot(Experiments, id);
      slot in p.records ==> ReportsIn(Was(p, slot)) == FirstWritten(s, calls, id)
  {
    if calls != [] {
      var n := |calls| - 1;
      RunReports(s, calls[..n], id);
      assert calls[n] in calls;
      NextReports(s, calls[..n], calls[n], id);
      LastRun(s.rules, NO_RECORDS, calls);
    }
  }

  /** From creation on, the list of reports read is the first non-empty one written. */
  lemma ReportsAreFirstWritten(s: Store, calls: seq<Call>, id: string)
    requires Refines(s) && ExperimentRules(s.rules) && AllProper(calls)
    requires GetAfter(s, calls, Slot(Experiments, id)).Success?
    ensures var rec := WasAfter(s, calls, Slot(Experiments, id));
      rec.Some? && rec.value.OfExperiment? && rec.value.experiment.reports == FirstWritten(s, calls, id)
  {
    GetAfterIsPlain(s, calls, Slot(Experiments, id));
    AfterRunSuits(s, calls, id);
    RunReports(s, calls, id);
  }

  /** The call deletes the experiment. */
  predicate Deletes(call: Call, id: string) {
    call.Delete? && call.kind.Experiments? && id in call.ids
  }

  lemma LastWritten(s: Store, calls: seq<Call>, call: Call, id: string)
    ensures FirstWritten(s, calls + [call], id) ==
      if ReplyAfter(s, calls, call).Success? then ReportsAfter(call, id, FirstWritten(s, calls, id))
      else FirstWritten(s, calls, id)
  {
    assert (calls + [call])[..|calls|] == calls;
  }

  lemma {:induction false} FirstWrittenStays(s: Store, calls: seq<Call>, more: seq<Call>, id: string)
    requires Refines(s) && AllProper(calls) && AllProper(more)
    requires Slot(Experiments, id) in RunPlain(s.rules, NO_RECORDS, calls).0.records && FirstWritten(s, calls, id) != []
    requires forall call :: call in more ==> !Deletes(call, id)
    ensures Slot(Experiments, id) in RunPlain(s.rules, NO_RECORDS, calls + more).0.records
    ensures FirstWritten(s, calls + more, id) == FirstWritten(s, calls, id)
  {
    if more == [] {
      assert calls + more == calls;
    } else {
      var n := |more| - 1;
      FirstWrittenStays(s, calls, more[..n], id);
      assert calls + more == calls + more[..n] + [more[n]] && more[n] in more;
      OneMoreStays(s, calls + more[..n], more[n], id);
    }
  }

  lemma OneMoreStays(s: Store, calls: seq<Call>, call: Call, id: string)
    requires Refines(s) && AllProper(calls) && Proper(call) && !Deletes(call, id)
    requires Slot(Experiments, id) in RunPlain(s.rules, NO_RECORDS, calls).0.records && FirstWritten(s, calls, id) != []
    ensures Slot(Experiments, id) in RunPlain(s.rules, NO_RECORDS, calls + [call]).0.records
    ensures FirstWritten(s, calls + [call], id) == FirstWritten(s, calls, id)
  {
    LastCall(s.rules, calls, call);
    LastWritten(s, calls, call, id);
    StillThere(s, calls, call, id);
    StaysTheSame(call, id, FirstWritten(s, calls, id));
  }

  lemma StaysTheSame(call: Call, id: string, before: seq<Report>)
    requires Proper(call) && !Deletes(call, id) && before != []
    ensures ReportsAfter(call, id, before) == before || (call.Create? && call.kind.Experiments? && Id(call.recs[0]) == id)
  {
  }

  /** Short of deletion an experiment stays, and none is created over it. */
  lemma StillThere(s: Store, calls: seq<Call>, call: Call, id: string)
    requires Refines(s) && AllProper(calls) && Proper(call) && !Deletes(call, id)
    requires Slot(Experiments, id) in RunPlain(s.rules, NO_RECORDS, calls).0.records
    ensures var p := RunPlain(s.rules, NO_RECORDS, calls).0; Slot(Experiments, id) in PlainExec(s.rules, p, call).0.records
    ensures ReplyAfter(s, calls, call).Success? && call.Create? && call.kind.Experiments? ==> Id(call.recs[0]) != id
  {
    var p, slot := RunPlain(s.rules, NO_RECORDS, calls).0, Slot(Experiments, id);
    NextIsPlain(s, calls, call);
    if PlainStep(s.rules, p, call).Success? {
      if Names(call, slot) {
        NamedStays(s.rules, p, call, slot);
      } else {
        StepKeeps(s.rules, p, call, slot);
      }
      if call.Create? && call.kind.Experiments? {
        CreateLeaves(s.rules, p, Experiments, call.recs, call.clock, 0);
      }
    }
  }

  lemma NamedStays(u: Rules, p: Plain, call: Call, slot: Slot)
    requires Proper(call) && Names(call, slot) && !Deletes(call, slot.id) && slot.kind.Experiments?
    requires slot in p.records && PlainStep(u, p, call).Success?
    ensures slot in PlainStep(u, p, call).value.0.records
  {
    match call
    case Create(_, recs, clock) => CreateLeaves(u, p, Experiments, recs, clock, 0);
    case Update(_, rec, now) => OneUpdated(u, p, Experiments, rec, now);
    case Label(_, ids, adds, removes, clock) =>
      RelabelKeysStay(u, Open(p, Experiments).value, Experiments, ids, Members(adds), Members(removes), clock);
  }

  lemma {:induction false} RelabelKeysStay(u: Rules, p: Plain, kind: Kind, ids: seq<string>, adds: set<string>,
                                           removes: set<string>, clock: nat -> Time)
    requires PlainRelabel(u, p, kind, ids, adds, removes, clock).Success?
    ensures PlainRelabel(u, p, kind, ids, adds, removes, clock).value.store.records.Keys == p.records.Keys
  {
    if ids != [] {
      RelabelKeysStay(u, p, kind, ids[..|ids| - 1], adds, removes, clock);
    }
  }

  /** Once an experiment reads with a non-empty list of reports, it reads with that list after
      any further run of the store that does not delete it. */
  lemma ReportsNeverChange(s: Store, calls: seq<Call>, more: seq<Call>, id: string)
    requires Refines(s) && ExperimentRules(s.rules) && AllProper(calls) && AllProper(more)
    requires ReportsIn(WasAfter(s, calls, Slot(Experiments, id))) != []
    requires forall call :: call in more ==> !Deletes(call, id)
    ensures GetAfter(s, calls + more, Slot(Experiments, id)).Success?
    ensures ReportsIn(WasAfter(s, calls + more, Slot(Experiments, id))) == ReportsIn(WasAfter(s, calls, Slot(Experiments, id)))
  {
    var slot := Slot(Experiments, id);
    GetAfterIsPlain(s, calls, slot);
    RunReports(s, calls, id);
    FirstWrittenStays(s, calls, more, id);
    GetAfterIsPlain(s, calls + more, slot);
    RunReports(s, calls + more, id);
    AfterRunSuits(s, calls + more, id);
  }

  // ----- when a write is accepted -----

  /** An experiment is created exactly when its id is new and neither it nor a label is empty. */
  lemma ExperimentAccepted(s: Store, calls: seq<Call>, e: Experiment, clock: nat -> Time)
    requires Refines(s) && ExperimentRules(s.rules) && AllProper(calls)
    ensures ReplyAfter(s, calls, Call.Create(Experiments, [OfExperiment(e)], clock)).Success? <==>
      e.id != "" && "" !in e.labels && GetAfter(s, calls, Slot(Experiments, e.id)).Failure?
  {
    var recs := [OfExperiment(e)];
    CreateAccepted(s, calls, Experiments, recs, clock);
    GetAfterIsPlain(s, calls, Slot(Experiments, e.id));
    AfterRunSuits(s, calls, e.id);
    assert ExperimentRule(s.rules, None, Created(recs[0], clock(0)).experiment);
    OneNew(s.rules, !Absent(s, calls, Slot(Experiments, e.id)), OfExperiment(e), clock(0));
  }

  /** An update is accepted exactly when the experiment is there, its labels can be written,
      and it has no reports yet or is given none. */
  lemma UpdateAccepted(s: Store, calls: seq<Call>, e: Experiment, now: Time)
    requires Refines(s) && ExperimentRules(s.rules) && AllProper(calls)
    ensures ReplyAfter(s, calls, Call.Update(Experiments, OfExperiment(e), now)).Success? <==>
      var was := WasAfter(s, calls, Slot(Experiments, e.id));
      was.Some? && "" !in e.labels && (ReportsIn(was) == [] || e.reports == [])
  {
    NextIsPlain(s, calls, Call.Update(Experiments, OfExperiment(e), now));
    GetAfterIsPlain(s, calls, Slot(Experiments, e.id));
    AfterRunSuits(s, calls, e.id);
    UpdatePlain(s.rules, RunPlain(s.rules, NO_RECORDS, calls).0, e, now);
  }

  lemma UpdatePlain(u: Rules, p: Plain, e: Experiment, now: Time)
    requires ExperimentRules(u) && ExperimentAt(p, e.id) && (Slot(Experiments, e.id) in p.records ==> e.id != "")
    ensures PlainUpdate(u, p, Experiments, OfExperiment(e), now).Success? <==>
      var was := Was(p, Slot(Experiments, e.id));
      was.Some? && "" !in e.labels && (ReportsIn(was) == [] || e.reports == [])
  {
    var was, next := Was(p, Slot(Experiments, e.id)), e.(updatedAt := now);
    assert ExperimentRule(u, was, next);
    assert Updated(OfExperiment(e), now) == OfExperiment(next);
  }

  // ----- a finished experiment -----

  lemma CreatedExperimentReads(s: Store, calls: seq<Call>, e: Experiment, clock: nat -> Time)
    requires Refines(s) && ExperimentRules(s.rules) && AllProper(calls)
    requires ReplyAfter(s, calls, Call.Create(Experiments, [OfExperiment(e)], clock)).Success?
    ensures WasAfter(s, calls + [Call.Create(Experiments, [OfExperiment(e)], clock)], Slot(Experiments, e.id)) ==
      Some(OfExperiment(NormalExperiment(e.(createdAt := clock(0), updatedAt := clock(0)), [])))
  {
    var next := e.(createdAt := clock(0), updatedAt := clock(0));
    assert ExperimentRule(s.rules, None, next);
    OneReadsBack(s, calls, Experiments, OfExperiment(e), clock, OfExperiment(NormalExperiment(next, [])));
  }

  lemma UpdatedReads(s: Store, calls: seq<Call>, e: Experiment, now: Time)
    requires Refines(s) && ExperimentRules(s.rules) && AllProper(calls)
    requires ReplyAfter(s, calls, Call.Update(Experiments, OfExperiment(e), now)).Success?
    ensures var slot := Slot(Experiments, e.id);
      WasAfter(s, calls + [Call.Update(Experiments, OfExperiment(e), now)], slot) ==
        Some(OfExperiment(NormalExperiment(e.(updatedAt := now), ReportsIn(WasAfter(s, calls, slot)))))
  {
    var slot, next := Slot(Experiments, e.id), e.(updatedAt := now);
    UpdateReadsBack(s, calls, Experiments, OfExperiment(e), now);
    assert ExperimentRule(s.rules, WasAfter(s, calls, slot), next);
    ReadsWas(s, calls + [Call.Update(Experiments, OfExperiment(e), now)], slot,
             OfExperiment(NormalExperiment(next, ReportsIn(WasAfter(s, calls, slot)))));
  }

  /** Once an experiment has reports, every relabelling that names it is refused, and so is
      writing back what was read. */
  lemma Frozen(s: Store, calls: seq<Call>, ids: seq<string>, id: string, adds: seq<string>, removes: seq<string>,
               clock: nat -> Time, now: Time)
    requires Refines(s) && ExperimentRules(s.rules) && LabelRules(s.rules) && AllProper(calls)
    requires id in ids && ReportsIn(WasAfter(s, calls, Slot(Experiments, id))) != []
    ensures ReplyAfter(s, calls, Call.Label(Experiments, ids, adds, removes, clock)).Failure?
    ensures ReplyAfter(s, calls, Call.Update(Experiments, WasAfter(s, calls, Slot(Experiments, id)).value, now)).Failure?
  {
    LabelAccepted(s, calls, Experiments, ids, adds, removes, clock);
    assert !Relabellable(WasAfter(s, calls, Slot(Experiments, id)));
    GetAfterIsPlain(s, calls, Slot(Experiments, id));
    AfterRunSuits(s, calls, id);
    UpdateAccepted(s, calls, WasAfter(s, calls, Slot(Experiments, id)).value.experiment, now);
  }

  const RUNNING := Experiment("e", "running", ["trial"], [], ["blue"], Time(0), Time(0))
  const DONE := RUNNING.(status := "done", reports := [Report({}, map[], "figures")])

  /** An experiment is created without reports and then updated with one.  It reads with that
      report; relabelling it is refused, and so is writing back what was read. */
  lemma FinishedExperiment(x: Texts, clock: nat -> Time, now: Time, later: Time)
    requires x.Lossless()
    ensures var s := StoreOf(FormatOf(x));
      var calls := [Call.Create(Experiments, [OfExperiment(RUNNING)], clock), Call.Update(Experiments, OfExperiment(DONE), now)];
      var was := WasAfter(s, calls, Slot(Experiments, "e"));
      && was == Some(OfExperiment(DONE.(updatedAt := now)))
      && ReplyAfter(s, calls, Call.Label(Experiments, ["e"], ["green"], [], clock)).Failure?
      && ReplyAfter(s, calls, Call.Update(Experiments, was.value, later)).Failure?
  {
    FormatIsFaithful(x);
    StoreRefines(FormatOf(x));
    FormatRules(x);
    FormatLabelRules(x);
    Finished(StoreOf(FormatOf(x)), clock, now, later);
  }

  lemma Finished(s: Store, clock: nat -> Time, now: Time, later: Time)
    requires Refines(s) && ExperimentRules(s.rules) && LabelRules(s.rules)
    ensures var calls := [Call.Create(Experiments, [OfExperiment(RUNNING)], clock), Call.Update(Experiments, OfExperiment(DONE), now)];
      var was := WasAfter(s, calls, Slot(Experiments, "e"));
      && was == Some(OfExperiment(DONE.(updatedAt := now)))
      && ReplyAfter(s, calls, Call.Label(Experiments, ["e"], ["green"], [], clock)).Failure?
      && ReplyAfter(s, calls, Call.Update(Experiments, was.value, later)).Failure?
  {
    var create, update := Call.Create(Experiments, [OfExperiment(RUNNING)], clock), Call.Update(Experiments, OfExperiment(DONE), now);
    BlueIsSorted();
    GetAfterIsPlain(s, [], Slot(Experiments, "e"));
    ExperimentAccepted(s, [], RUNNING, clock);
    CreatedExperimentReads(s, [], RUNNING, clock);
    assert [] + [create] == [create];
    UpdateAccepted(s, [create], DONE, now);
    UpdatedReads(s, [create], DONE, now);
    assert [create] + [update] == [create, update];
    Frozen(s, [create, update], ["e"], "e", ["green"], [], clock, later);
  }

  lemma BlueIsSorted()
    ensures SortedSet(Members(["blue"])) == ["blue"] && "" !in ["blue"]
  {
    assert ["blue"][0] != "";
    StrictlySortedUnique(["blue"], SortedSet(Members(["blue"])));
  }
}
