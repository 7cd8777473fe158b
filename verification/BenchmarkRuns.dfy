/** metadata/benchmark.go over whole runs of the store: which benchmarks read, and what one
    that does not read rules out. */
module BenchmarkRuns {
  import opened Results
  import opened Records
  import opened MetadataHelpers
  import opened BenchmarkCodec
  import opened StoreRecords
  import opened StoreTree
  import opened StoreSteps
  import opened StoreFormat
  import opened StoreRuns
  import opened StoreFrames

  /** Every object's CID that has a text has one that parses. */
  predicate CidsParse(x: Texts, m: Benchmark) {
    forall k :: k in m.plan.objects && x.cid(m.plan.objects[k]) != "" ==> x.cidOf(x.cid(m.plan.objects[k])).Some?
  }

  ghost predicate BenchmarkRule(x: Texts, u: Rules, was: Option<Record>, m: Benchmark) {
    (u.writable(was, OfBenchmark(m)) <==> BenchmarkWritable(x, m)) && (u.normal(was, OfBenchmark(m)).Some? <==> CidsParse(x, m))
  }

  /** A benchmark is written whether or not its CIDs parse, and reads exactly when they do. */
  ghost predicate BenchmarkRules(x: Texts, u: Rules) {
    forall was, m :: BenchmarkRule(x, u, was, m)
  }

  lemma BenchmarkReads(x: Texts, was: Option<Record>, m: Benchmark)
    ensures Normal(x, was, OfBenchmark(m)).Some? <==> CidsParse(x, m)
  {
    CidsRead(x, m.plan.objects);
  }

  lemma FormatBenchmarkRules(x: Texts)
    ensures BenchmarkRules(x, FormatOf(x).rules)
  {
    forall was, m ensures BenchmarkRule(x, FormatOf(x).rules, was, m) {
      BenchmarkReads(x, was, m);
    }
  }

  /** After an accepted creation a benchmark reads exactly when its CIDs parse. */
  lemma CreatedBenchmarkReads(x: Texts, s: Store, calls: seq<Call>, m: Benchmark, clock: nat -> Time)
    requires Refines(s) && BenchmarkRules(x, s.rules) && AllProper(calls)
    requires ReplyAfter(s, calls, Call.Create(Benchmarks, [OfBenchmark(m)], clock)).Success?
    ensures Unread(s, calls + [Call.Create(Benchmarks, [OfBenchmark(m)], clock)], Slot(Benchmarks, m.id)) <==> !CidsParse(x, m)
  {
    CreateReadsBack(s, calls, Benchmarks, [OfBenchmark(m)], clock, 0);
    assert BenchmarkRule(x, s.rules, None, m.(createdAt := clock(0), updatedAt := clock(0)));
  }

  /** After a benchmark with a CID that does not parse was created, it cannot be read, and no
      benchmark can be listed any more. */
  lemma OneUnreadable(x: Texts, s: Store, calls: seq<Call>, m: Benchmark, clock: nat -> Time)
    requires Refines(s) && BenchmarkRules(x, s.rules) && AllProper(calls) && !CidsParse(x, m)
    requires ReplyAfter(s, calls, Call.Create(Benchmarks, [OfBenchmark(m)], clock)).Success?
    ensures var after := calls + [Call.Create(Benchmarks, [OfBenchmark(m)], clock)];
      GetAfter(s, after, Slot(Benchmarks, m.id)).Failure? && ReplyAfter(s, after, Call.List(Benchmarks)).Failure?
  {
    CreatedBenchmarkReads(x, s, calls, m, clock);
    ListAccepted(s, calls + [Call.Create(Benchmarks, [OfBenchmark(m)], clock)], Benchmarks);
  }

  lemma BenchmarkAccepted(x: Texts, s: Store, calls: seq<Call>, m: Benchmark, clock: nat -> Time)
    requires Refines(s) && BenchmarkRules(x, s.rules) && AllProper(calls)
    ensures ReplyAfter(s, calls, Call.Create(Benchmarks, [OfBenchmark(m)], clock)).Success? <==>
      m.id != "" && Absent(s, calls, Slot(Benchmarks, m.id)) && BenchmarkWritable(x, m)
  {
    CreateAccepted(s, calls, Benchmarks, [OfBenchmark(m)], clock);
    OneNew(s.rules, !Absent(s, calls, Slot(Benchmarks, m.id)), OfBenchmark(m), clock(0));
    assert BenchmarkRule(x, s.rules, None, m.(createdAt := clock(0), updatedAt := clock(0)));
  }

  /** A benchmark whose plan has one object and no stages. */
  function WithCid(cid: Cid): Benchmark {
    var scenario := Scenario("s", ScenarioDefinition(map[], map[], map[]), [], Time(0), Time(0));
    Benchmark("b", "running", ZERO_CLUSTER, scenario, ScenarioPlan(map["image" := cid], map[], map[]), [], Time(0), Time(0))
  }

  /** The benchmark is the first record of the store.  It is always accepted; it reads, and
      benchmarks can be listed, exactly when the CID has no text or one that parses. */
  lemma CidDecides(x: Texts, cid: Cid, clock: nat -> Time)
    requires x.Lossless()
    ensures var s, call := StoreOf(FormatOf(x)), Call.Create(Benchmarks, [OfBenchmark(WithCid(cid))], clock);
      var parses := x.cid(cid) == "" || x.cidOf(x.cid(cid)).Some?;
      && ReplyAfter(s, [], call).Success?
      && (GetAfter(s, [call], Slot(Benchmarks, "b")).Success? <==> parses)
      && (ReplyAfter(s, [call], Call.List(Benchmarks)).Success? <==> parses)
  {
    FormatIsFaithful(x);
    StoreRefines(FormatOf(x));
    FormatBenchmarkRules(x);
    OneBenchmark(x, StoreOf(FormatOf(x)), cid, clock);
  }

  lemma OneBenchmark(x: Texts, s: Store, cid: Cid, clock: nat -> Time)
    requires Refines(s) && BenchmarkRules(x, s.rules)
    ensures var call, parses := Call.Create(Benchmarks, [OfBenchmark(WithCid(cid))], clock), x.cid(cid) == "" || x.cidOf(x.cid(cid)).Some?;
      && ReplyAfter(s, [], call).Success?
      && (GetAfter(s, [call], Slot(Benchmarks, "b")).Success? <==> parses)
      && (ReplyAfter(s, [call], Call.List(Benchmarks)).Success? <==> parses)
  {
    var m := WithCid(cid);
    var call := Call.Create(Benchmarks, [OfBenchmark(m)], clock);
    AbsentIsPlain(s, [], Slot(Benchmarks, "b"));
    assert m.plan.objects["image"] == cid;
    BenchmarkAccepted(x, s, [], m, clock);
    assert [] + [call] == [call];
    CreatedBenchmarkReads(x, s, [], m, clock);
    CreateReadsBack(s, [], Benchmarks, [OfBenchmark(m)], clock, 0);
    ListAccepted(s, [call], Benchmarks);
    forall id | id != "b" ensures !Unread(s, [call], Slot(Benchmarks, id)) {
      AbsentIsPlain(s, [], Slot(Benchmarks, id));
      UnnamedRecordStays(s, [], [call], Slot(Benchmarks, id));
    }
  }
}
