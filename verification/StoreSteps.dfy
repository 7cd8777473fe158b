/** The store's calls, twice: on the bucket tree, as the code performs them inside one
    transaction, and on a plain store of records. */
module StoreSteps {
  import opened GoStrings
  import opened Results
  import opened Records
  import opened Buckets
  import opened MetadataHelpers
  import opened BenchmarkCodec
  import opened ExperimentCodec
  import opened StoreRecords
  import opened StoreTree

  /** A call.  The clock gives the time read for the i-th record of the call. */
  datatype Call =
    | Create(kind: Kind, recs: seq<Record>, clock: nat -> Time)
    | Update(kind: Kind, rec: Record, now: Time)
    | Label(kind: Kind, ids: seq<string>, adds: seq<string>, removes: seq<string>, clock: nat -> Time)
    | Delete(kind: Kind, ids: seq<string>)
    | Get(kind: Kind, id: string)
    | List(kind: Kind)
    | CreateReport(id: string, report: Report)
    | GetReport(id: string)

  datatype Reply = Nothing | These(records: seq<Record>) | ThisReport(report: Report)

  /** The arguments the interface admits: records of the right kind, and one at a time
      except for nodes. */
  predicate Proper(call: Call) {
    match call
    case Create(kind, recs, _) => (kind.Nodes? || |recs| == 1) && forall rec :: rec in recs ==> Suits(kind, rec)
    case Update(kind, rec, _) => Suits(kind, rec)
    case _ => true
  }

  /** `^[a-zA-Z0-9_-]{1,32}`, which is not anchored at its end. */
  predicate ValidClusterId(id: string) {
    id != "" && ('a' <= id[0] <= 'z' || 'A' <= id[0] <= 'Z' || '0' <= id[0] <= '9' || id[0] == '_' || id[0] == '-')
  }

  predicate Admissible(kind: Kind, recs: seq<Record>) {
    kind.Clusters? ==> forall rec | rec in recs :: ValidClusterId(Id(rec))
  }

  /** Which records can be written where another one is or none, and what a written record
      reads back as. */
  datatype Rules = Rules(writable: (Option<Record>, Record) -> bool, normal: (Option<Record>, Record) -> Option<Record>)

  /** How records are kept in buckets: written over what a bucket holds, read, by which rules,
      and when a bucket holds a record, or, None, one that no longer reads. */
  datatype Format = Format(
    enc: (Bucket, Record) -> Result<Bucket, Error>, dec: (Kind, string, Bucket) -> Result<Record, Error>,
    rules: Rules, holds: (Slot, Bucket, Option<Record>) -> bool, json: Json)

  // ----- on the tree -----

  /** Creates the records' buckets one after the other. */
  function AddAll(f: Format, coll: Bucket, recs: seq<Record>, clock: nat -> Time): Result<Bucket, Error> {
    if recs == [] then Success(coll)
    else
      var n := |recs| - 1;
      var c :- AddAll(f, coll, recs[..n], clock);
      AddOne(f, c, Created(recs[n], clock(n)))
  }

  function AddOne(f: Format, coll: Bucket, rec: Record): Result<Bucket, Error> {
    Added(coll, Free(Id(rec)), f.enc(map[], rec))
  }

  /** A new bucket with the given contents. */
  function Added(coll: Bucket, k: Key, contents: Result<Bucket, Error>): Result<Bucket, Error> {
    var c := CreateIn(coll, k);
    if c.Failure? then Failure(if c.error == BucketExists then AlreadyExists else c.error)
    else InSub(c.value, k, contents)
  }

  function Rewrite(f: Format, coll: Bucket, rec: Record): Result<Bucket, Error> {
    var k := Free(Id(rec));
    if !HasSub(coll, k) then Failure(NotFound) else InSub(coll, k, f.enc(coll[k].entries, rec))
  }

  /** What relabelling has done so far: the collection, the labels still to add, the
      records handed back. */
  datatype Batch = Batch(coll: Bucket, adds: set<string>, done: seq<Record>)

  ghost function RelabelAll(f: Format, kind: Kind, coll: Bucket, ids: seq<string>, adds: set<string>,
                            removes: set<string>, clock: nat -> Time): Result<Batch, Error> {
    if ids == [] then Success(Batch(coll, adds, []))
    else
      var n := |ids| - 1;
      var s :- RelabelAll(f, kind, coll, ids[..n], adds, removes, clock);
      RelabelOne(f, kind, s, ids[n], removes, clock(n))
  }

  ghost function RelabelOne(f: Format, kind: Kind, s: Batch, id: string, removes: set<string>, now: Time):
      Result<Batch, Error> {
    var k := Free(id);
    if !HasSub(s.coll, k) then Failure(NotFound)
    else
      var b := s.coll[k].entries;
      var kept := LabelSet(b) - removes;
      var rec :- f.dec(kind, id, b);
      var next := Relabelled(rec, SortedSet(kept + (s.adds - kept)), now);
      Rewritten(s, k, kept, next, f.enc(b, next))
  }

  function Rewritten(s: Batch, k: Key, kept: set<string>, next: Record, contents: Result<Bucket, Error>): Result<Batch, Error> {
    match contents
    case Success(e) => Success(Batch(s.coll[k := Sub(e)], s.adds - kept, s.done + [Returned(next)]))
    case Failure(e) => Failure(e)
  }

  function PutReport(f: Format, coll: Bucket, id: string, report: Report): Result<Bucket, Error> {
    var k := Free(id);
    if !HasSub(coll, k) then Failure(NotFound) else InSub(coll, k, EncReport(f.json, coll[k].entries, report))
  }

  function RemoveAll(coll: Bucket, ids: seq<string>): Result<Bucket, Error> {
    if ids == [] then Success(coll)
    else
      var c :- RemoveAll(coll, ids[..|ids| - 1]);
      var d := DeleteIn(c, Free(ids[|ids| - 1]));
      if d.Failure? && d.error == BucketNotFound then Failure(NotFound) else d
  }

  ghost function ReadAll(f: Format, kind: Kind, coll: Bucket, ids: seq<string>): Result<seq<Record>, Error> {
    if ids == [] then Success([])
    else
      var done :- ReadAll(f, kind, coll, ids[..|ids| - 1]);
      var id := ids[|ids| - 1];
      var rec :- f.dec(kind, id, if HasSub(coll, Free(id)) then coll[Free(id)].entries else map[]);
      Success(done + [rec])
  }

  ghost function Stamped(recs: seq<Record>, clock: nat -> Time): (r: seq<Record>)
    ensures |r| == |recs|
  {
    if recs == [] then []
    else Stamped(recs[..|recs| - 1], clock) + [Returned(Created(recs[|recs| - 1], clock(|recs| - 1)))]
  }

  /** Opens the collection and changes its bucket. */
  ghost function OnColl(root: Bucket, kind: Kind, change: Bucket -> Result<Bucket, Error>): Result<Bucket, Error> {
    var r :- Ensure(root, PathOf(kind));
    if Coll(r, kind).None? then Failure(IncompatibleValue)
    else
      var c :- change(Coll(r, kind).value);
      Success(SetColl(r, kind, c))
  }

  type TreeStep = Result<(Bucket, Reply), Error>

  function Adding(f: Format, recs: seq<Record>, clock: nat -> Time): Bucket -> Result<Bucket, Error> {
    c => AddAll(f, c, recs, clock)
  }

  function Rewriting(f: Format, rec: Record): Bucket -> Result<Bucket, Error> {
    c => Rewrite(f, c, rec)
  }

  function Reporting(f: Format, id: string, report: Report): Bucket -> Result<Bucket, Error> {
    c => PutReport(f, c, id, report)
  }

  ghost function TreeCreate(f: Format, root: Bucket, kind: Kind, recs: seq<Record>, clock: nat -> Time): TreeStep {
    if !Admissible(kind, recs) then Failure(InvalidArgument)
    else
      var r :- OnColl(root, kind, Adding(f, recs, clock));
      Success((r, These(Stamped(recs, clock))))
  }

  ghost function TreeUpdate(f: Format, root: Bucket, kind: Kind, rec: Record, now: Time): TreeStep {
    if Id(rec) == "" then Failure(InvalidArgument)
    else
      var r :- OnColl(root, kind, Rewriting(f, Updated(rec, now)));
      Success((r, These([Returned(Updated(rec, now))])))
  }

  ghost function TreeLabel(f: Format, root: Bucket, kind: Kind, ids: seq<string>, adds: set<string>, removes: set<string>,
                           clock: nat -> Time): TreeStep {
    var r :- Ensure(root, PathOf(kind));
    if Coll(r, kind).None? then Failure(IncompatibleValue)
    else
      var s :- RelabelAll(f, kind, Coll(r, kind).value, ids, adds, removes, clock);
      Success((SetColl(r, kind, s.coll), These(s.done)))
  }

  ghost function TreeDelete(root: Bucket, kind: Kind, ids: seq<string>): TreeStep {
    if Coll(root, kind).None? then Success((root, Nothing))
    else
      var c :- RemoveAll(Coll(root, kind).value, ids);
      Success((SetColl(root, kind, c), Nothing))
  }

  ghost function TreeGet(f: Format, root: Bucket, slot: Slot): TreeStep {
    if Lookup(root, slot).None? then Failure(NotFound)
    else
      var rec :- f.dec(slot.kind, slot.id, Lookup(root, slot).value);
      Success((root, These([rec])))
  }

  ghost function TreeList(f: Format, root: Bucket, kind: Kind): TreeStep {
    if Coll(root, kind).None? then Success((root, These([])))
    else
      var c := Coll(root, kind).value;
      TheseRead(root, ReadAll(f, kind, c, SortedSet(KeyTexts(c))))
  }

  function TheseRead(root: Bucket, r: Result<seq<Record>, Error>): TreeStep {
    match r case Success(recs) => Success((root, These(recs))) case Failure(e) => Failure(e)
  }

  ghost function TreeCreateReport(f: Format, root: Bucket, id: string, report: Report): TreeStep {
    var r :- OnColl(root, Benchmarks, Reporting(f, id, report));
    Success((r, Nothing))
  }

  ghost function TreeGetReport(f: Format, root: Bucket, id: string): TreeStep {
    if Lookup(root, Slot(Benchmarks, id)).None? then Failure(NotFound)
    else
      var report :- DecReport(f.json, Lookup(root, Slot(Benchmarks, id)).value);
      Success((root, ThisReport(report)))
  }

  /** A call inside a transaction: the new tree and the reply, or the error that makes the
      transaction roll back. */
  ghost function Step(f: Format, root: Bucket, call: Call): TreeStep {
    match call
    case Create(kind, recs, clock) => TreeCreate(f, root, kind, recs, clock)
    case Update(kind, rec, now) => TreeUpdate(f, root, kind, rec, now)
    case Label(kind, ids, adds, removes, clock) => TreeLabel(f, root, kind, ids, Members(adds), Members(removes), clock)
    case Delete(kind, ids) => TreeDelete(root, kind, ids)
    case Get(kind, id) => TreeGet(f, root, Slot(kind, id))
    case List(kind) => TreeList(f, root, kind)
    case CreateReport(id, report) => TreeCreateReport(f, root, id, report)
    case GetReport(id) => TreeGetReport(f, root, id)
  }

  /** A call in its own transaction. */
  ghost function Exec(f: Format, root: Bucket, call: Call): (Bucket, Result<Reply, Error>) {
    match Step(f, root, call)
    case Success(done) => (done.0, Success(done.1))
    case Failure(e) => (root, Failure(e))
  }

  // ----- on a plain store -----

  /** Records by slot, None being one that no longer reads; reports by benchmark; and which
      collections have been opened. */
  datatype Plain = Plain(live: set<Kind>, records: map<Slot, Option<Record>>, reports: map<string, Report>)

  const NO_RECORDS := Plain({}, map[], map[])

  /** Why a call is refused. */
  datatype Refusal = Missing | Duplicate | Invalid | Unreadable | Unwritable

  function Reason(e: Error): Refusal {
    match e
    case NotFound => Missing
    case AlreadyExists => Duplicate
    case InvalidArgument => Invalid
    case Malformed => Unreadable
    case _ => Unwritable
  }

  /** A cluster with nothing but its id. */
  function OnlyId(id: string): Record {
    OfCluster(ZERO_CLUSTER.(id := id))
  }

  /** Opening the nodes of an unknown cluster makes a bare one. */
  function Open(p: Plain, kind: Kind): Result<Plain, Refusal> {
    if kind == Nodes("") then Failure(Unwritable)
    else if kind.Nodes? then
      var slot := Slot(Clusters, kind.cluster);
      Success(p.(live := p.live + {Clusters, kind},
                 records := if slot in p.records then p.records
                            else p.records[slot := Some(OnlyId(kind.cluster))]))
    else Success(p.(live := p.live + {kind}))
  }

  ghost function PlainAdd(u: Rules, p: Plain, kind: Kind, recs: seq<Record>, clock: nat -> Time): Result<Plain, Refusal> {
    if recs == [] then Success(p)
    else
      var n := |recs| - 1;
      var q :- PlainAdd(u, p, kind, recs[..n], clock);
      PlainAddOne(u, q, kind, Created(recs[n], clock(n)))
  }

  ghost function PlainAddOne(u: Rules, p: Plain, kind: Kind, rec: Record): (r: Result<Plain, Refusal>)
    ensures r.Success? ==> Slot(kind, Id(rec)) in r.value.records && r.value.records[Slot(kind, Id(rec))] == u.normal(None, rec)
  {
    PlainAdded(p, Slot(kind, Id(rec)), u.writable(None, rec), u.normal(None, rec))
  }

  function PlainAdded(p: Plain, slot: Slot, writable: bool, rec: Option<Record>): (r: Result<Plain, Refusal>)
    ensures r.Success? ==> slot in r.value.records && r.value.records[slot] == rec
  {
    if slot.id == "" then Failure(Unwritable)
    else if slot in p.records then Failure(Duplicate)
    else if !writable then Failure(Unwritable)
    else Success(p.(records := p.records[slot := rec]))
  }

  datatype PlainBatch = PlainBatch(store: Plain, adds: set<string>, done: seq<Record>)

  ghost function PlainRelabel(u: Rules, p: Plain, kind: Kind, ids: seq<string>, adds: set<string>,
                              removes: set<string>, clock: nat -> Time): Result<PlainBatch, Refusal> {
    if ids == [] then Success(PlainBatch(p, adds, []))
    else
      var n := |ids| - 1;
      var s :- PlainRelabel(u, p, kind, ids[..n], adds, removes, clock);
      PlainRelabelOne(u, s, Slot(kind, ids[n]), removes, clock(n))
  }

  ghost function PlainRelabelOne(u: Rules, s: PlainBatch, slot: Slot, removes: set<string>, now: Time):
      Result<PlainBatch, Refusal> {
    if slot !in s.store.records then Failure(Missing)
    else
      match s.store.records[slot]
      case None => Failure(Unreadable)
      case Some(rec) =>
        var kept := Members(Labels(rec)) - removes;
        var next := Relabelled(rec, SortedSet(kept + (s.adds - kept)), now);
        PlainRewritten(s, slot, kept, next, u.writable(Some(rec), next), u.normal(Some(rec), next))
  }

  function PlainRewritten(s: PlainBatch, slot: Slot, kept: set<string>, next: Record, writable: bool, rec: Option<Record>):
      Result<PlainBatch, Refusal> {
    if !writable then Failure(Unwritable)
    else Success(PlainBatch(s.store.(records := s.store.records[slot := rec]), s.adds - kept, s.done + [Returned(next)]))
  }

  /** Deleting a cluster deletes its nodes; deleting a benchmark deletes its report. */
  function Without(p: Plain, slot: Slot): Plain {
    p.(records := map s | s in p.records && s != slot && !(slot.kind.Clusters? && s.kind == Nodes(slot.id)) :: p.records[s],
       live := if slot.kind.Clusters? then p.live - {Nodes(slot.id)} else p.live,
       reports := if slot.kind.Benchmarks? then p.reports - {slot.id} else p.reports)
  }

  function PlainRemove(p: Plain, kind: Kind, ids: seq<string>): Result<Plain, Refusal> {
    if ids == [] then Success(p)
    else
      var q :- PlainRemove(p, kind, ids[..|ids| - 1]);
      var slot := Slot(kind, ids[|ids| - 1]);
      if slot !in q.records then Failure(Missing) else Success(Without(q, slot))
  }

  function IdsOf(p: Plain, kind: Kind): set<string> {
    set s | s in p.records && s.kind == kind :: s.id
  }

  /** The records of these ids, if all of them read. */
  ghost function Pick(p: Plain, kind: Kind, ids: seq<string>): Result<seq<Record>, Refusal>
    requires forall id :: id in ids ==> Slot(kind, id) in p.records
  {
    if ids == [] then Success([])
    else
      var done :- Pick(p, kind, ids[..|ids| - 1]);
      match p.records[Slot(kind, ids[|ids| - 1])]
      case Some(rec) => Success(done + [rec])
      case None => Failure(Unreadable)
  }

  lemma IdsAreSlots(p: Plain, kind: Kind)
    ensures forall id :: id in IdsOf(p, kind) <==> Slot(kind, id) in p.records
  {
    forall id ensures id in IdsOf(p, kind) <==> Slot(kind, id) in p.records {
      if Slot(kind, id) in p.records {
        assert Slot(kind, id).id in IdsOf(p, kind);
      }
    }
  }

  type PlainReply = Result<(Plain, Reply), Refusal>

  ghost function PlainCreate(u: Rules, p: Plain, kind: Kind, recs: seq<Record>, clock: nat -> Time): PlainReply {
    if !Admissible(kind, recs) then Failure(Invalid)
    else
      var o :- Open(p, kind);
      var q :- PlainAdd(u, o, kind, recs, clock);
      Success((q, These(Stamped(recs, clock))))
  }

  /** What a slot reads as, if anything. */
  function Was(p: Plain, slot: Slot): Option<Record> {
    if slot in p.records then p.records[slot] else None
  }

  ghost function PlainRewrite(u: Rules, p: Plain, kind: Kind, rec: Record): (r: Result<Plain, Refusal>)
    ensures r.Success? ==> Slot(kind, Id(rec)) in r.value.records
    ensures r.Success? ==> r.value.records[Slot(kind, Id(rec))] == u.normal(Was(p, Slot(kind, Id(rec))), rec)
  {
    var was := Was(p, Slot(kind, Id(rec)));
    PlainReplaced(p, Slot(kind, Id(rec)), u.writable(was, rec), u.normal(was, rec))
  }

  function PlainReplaced(p: Plain, slot: Slot, writable: bool, rec: Option<Record>): (r: Result<Plain, Refusal>)
    ensures r.Success? ==> slot in r.value.records && r.value.records[slot] == rec
  {
    if slot !in p.records then Failure(Missing)
    else if !writable then Failure(Unwritable)
    else Success(p.(records := p.records[slot := rec]))
  }

  ghost function PlainUpdate(u: Rules, p: Plain, kind: Kind, rec: Record, now: Time): PlainReply {
    if Id(rec) == "" then Failure(Invalid)
    else
      var o :- Open(p, kind);
      var q :- PlainRewrite(u, o, kind, Updated(rec, now));
      Success((q, These([Returned(Updated(rec, now))])))
  }

  ghost function PlainLabel(u: Rules, p: Plain, kind: Kind, ids: seq<string>, adds: set<string>, removes: set<string>,
                            clock: nat -> Time): PlainReply {
    var o :- Open(p, kind);
    var s :- PlainRelabel(u, o, kind, ids, adds, removes, clock);
    Success((s.store, These(s.done)))
  }

  ghost function PlainDelete(p: Plain, kind: Kind, ids: seq<string>): PlainReply {
    if kind !in p.live then Success((p, Nothing))
    else
      var q :- PlainRemove(p, kind, ids);
      Success((q, Nothing))
  }

  ghost function PlainGet(p: Plain, slot: Slot): PlainReply {
    if slot !in p.records then Failure(Missing)
    else match p.records[slot] case Some(rec) => Success((p, These([rec]))) case None => Failure(Unreadable)
  }

  ghost function PlainList(p: Plain, kind: Kind): PlainReply {
    IdsAreSlots(p, kind);
    PlainTheseRead(p, Pick(p, kind, SortedSet(IdsOf(p, kind))))
  }

  function PlainTheseRead(p: Plain, r: Result<seq<Record>, Refusal>): PlainReply {
    match r case Success(recs) => Success((p, These(recs))) case Failure(e) => Failure(e)
  }

  function PlainPutReport(p: Plain, id: string, report: Report): Result<Plain, Refusal> {
    if Slot(Benchmarks, id) !in p.records then Failure(Missing) else Success(p.(reports := p.reports[id := report]))
  }

  ghost function PlainCreateReport(p: Plain, id: string, report: Report): PlainReply {
    var o :- Open(p, Benchmarks);
    var q :- PlainPutReport(o, id, report);
    Success((q, Nothing))
  }

  ghost function PlainGetReport(p: Plain, id: string): PlainReply {
    if id !in p.reports then Failure(Missing) else Success((p, ThisReport(p.reports[id])))
  }

  ghost function PlainStep(u: Rules, p: Plain, call: Call): PlainReply {
    match call
    case Create(kind, recs, clock) => PlainCreate(u, p, kind, recs, clock)
    case Update(kind, rec, now) => PlainUpdate(u, p, kind, rec, now)
    case Label(kind, ids, adds, removes, clock) => PlainLabel(u, p, kind, ids, Members(adds), Members(removes), clock)
    case Delete(kind, ids) => PlainDelete(p, kind, ids)
    case Get(kind, id) => PlainGet(p, Slot(kind, id))
    case List(kind) => PlainList(p, kind)
    case CreateReport(id, report) => PlainCreateReport(p, id, report)
    case GetReport(id) => PlainGetReport(p, id)
  }

  ghost function PlainExec(u: Rules, p: Plain, call: Call): (Plain, Result<Reply, Refusal>) {
    match PlainStep(u, p, call)
    case Success(done) => (done.0, Success(done.1))
    case Failure(e) => (p, Failure(e))
  }
}
