/** scenarios/run.go: seeding, connecting, benchmarking and reporting as an interleaved
    protocol.

    Each phase launches one goroutine per job and waits for all of them; goroutines of a
    phase interleave in any way, and any effect may fail. */
module ScenarioRun {
  import opened Results
  import opened GoStrings
  import opened Records
  import opened Groups
  import Planning
  import LabeledSets
  import Connect

  /** What a goroutine asks of a node. */
  datatype Effect = Run(task: Task) | AskReport

  /** A job of a phase: a node, and for a dial the node it dials. */
  datatype Job = Job(node: string, target: string)

  /** The planned set, the plan's stages, the seeder's addresses and the planned dials. */
  datatype Config = Config(lset: set<string>, seed: map<string, Task>, benchmark: map<string, Task>,
                           seederAddrs: seq<string>, dials: map<Job, Task>)

  const SEEDING: nat := 0
  const CONNECTING: nat := 1
  const BENCHMARKING: nat := 2
  const REPORTING: nat := 3
  const DONE: nat := 4

  function SeedScript(c: Config, id: string): Option<seq<Effect>>
    requires id in c.seed
  {
    if id !in c.lset then None
    else
      var addrs := Join(c.seederAddrs, ",");
      Some([Run(Task("connect", addrs)), Run(c.seed[id]), Run(Task("disconnect", addrs))])
  }

  function BenchmarkScript(c: Config, id: string): Option<seq<Effect>>
    requires id in c.benchmark
  {
    if id !in c.lset then None else Some([Run(c.benchmark[id])])
  }

  /** What the jobs of a phase are to do. */
  function ScriptsOf(c: Config, phase: nat): Scripts<Job, Effect> {
    if phase == SEEDING then map id | id in c.seed :: Job(id, "") := SeedScript(c, id)
    else if phase == CONNECTING then map d | d in c.dials :: d := Some([Run(c.dials[d])])
    else if phase == BENCHMARKING then map id | id in c.benchmark :: Job(id, "") := BenchmarkScript(c, id)
    else if phase == REPORTING then map id | id in c.lset :: Job(id, "") := Some([AskReport])
    else map[]
  }

  datatype Entry = Entry(phase: nat, event: Event<Job, Effect>)

  /** Where the run is: its phase, the goroutines of that phase, everything that happened,
      and whether it has given up. */
  datatype State = State(phase: nat, group: Group<Job, Effect>, log: seq<Entry>, failed: bool)

  function Initial(c: Config): State {
    State(SEEDING, Started(ScriptsOf(c, SEEDING)), [], false)
  }

  function Entries(phase: nat, events: seq<Event<Job, Effect>>): seq<Entry> {
    seq(|events|, i requires 0 <= i < |events| => Entry(phase, events[i]))
  }

  /** A goroutine of the phase moves. */
  ghost predicate Works(c: Config, s: State, t: State) {
    && s.phase < DONE && !s.failed
    && (exists j :: Moves(ScriptsOf(c, s.phase), s.group, t.group, j))
    && |s.group.trace| <= |t.group.trace|
    && t == s.(group := t.group, log := s.log + Entries(s.phase, t.group.trace[|s.group.trace|..]))
  }

  /** All goroutines of the phase have ended: the next phase begins, or the run gives up. */
  predicate Waits(c: Config, s: State, t: State) {
    && s.phase < DONE && !s.failed && AllEnded(s.group)
    && t == if Succeeded(s.group) then s.(phase := s.phase + 1, group := Started(ScriptsOf(c, s.phase + 1)))
            else s.(failed := true)
  }

  /** Before any dial, the health check or the lookup of peer addresses fails. */
  predicate GivesUp(s: State, t: State) {
    s.phase == CONNECTING && !s.failed && s.group.trace == [] && t == s.(failed := true)
  }

  ghost predicate Next(c: Config, s: State, t: State) {
    Works(c, s, t) || Waits(c, s, t) || GivesUp(s, t)
  }

  /** A run: any sequence of steps from the start. */
  ghost predicate IsRun(c: Config, run: seq<State>) {
    && run != [] && run[0] == Initial(c)
    && forall i :: 0 <= i < |run| - 1 ==> Next(c, run[i], run[i + 1])
  }

  // ----- what holds throughout -----

  /** The events of one phase. */
  function Part(log: seq<Entry>, phase: nat): seq<Event<Job, Effect>> {
    if log == [] then []
    else
      var last := log[|log| - 1];
      Part(log[..|log| - 1], phase) + if last.phase == phase then [last.event] else []
  }

  /** A phase is over: each of its jobs found its node and carried out its script. */
  ghost predicate Complete(c: Config, phase: nat, events: seq<Event<Job, Effect>>) {
    forall j :: j in ScriptsOf(c, phase) ==>
      ScriptsOf(c, phase)[j].Some? && Own(events, j) == Carried(j, ScriptsOf(c, phase)[j].value, |ScriptsOf(c, phase)[j].value|)
  }

  /** When anything happens in a phase, the phases before are over. */
  ghost predicate InOrder(c: Config, log: seq<Entry>) {
    forall i, phase: nat :: 0 <= i < |log| && phase < log[i].phase ==> Complete(c, phase, Part(log[..i], phase))
  }

  ghost predicate Inv(c: Config, s: State) {
    && s.phase <= DONE
    && Kept(ScriptsOf(c, s.phase), s.group)
    && Part(s.log, s.phase) == s.group.trace
    && (forall phase: nat :: phase < s.phase ==> Complete(c, phase, Part(s.log, phase)))
    && (forall e :: e in s.log ==> e.phase <= s.phase)
    && InOrder(c, s.log)
  }

  lemma {:induction false} PartConcat(a: seq<Entry>, b: seq<Entry>, phase: nat)
    ensures Part(a + b, phase) == Part(a, phase) + Part(b, phase)
  {
    if b == [] {
      assert a + b == a;
    } else {
      PartConcat(a, b[..|b| - 1], phase);
      assert (a + b)[..|a + b| - 1] == a + b[..|b| - 1];
    }
  }

  lemma {:induction false} PartOfEntries(phase: nat, events: seq<Event<Job, Effect>>, other: nat)
    ensures Part(Entries(phase, events), other) == if other == phase then events else []
  {
    if events != [] {
      var n := |events| - 1;
      PartOfEntries(phase, events[..n], other);
      assert Entries(phase, events)[..n] == Entries(phase, events[..n]);
      assert events == events[..n] + [events[n]];
    }
  }

  lemma {:induction false} NoPart(log: seq<Entry>, phase: nat)
    requires forall e :: e in log ==> e.phase < phase
    ensures Part(log, phase) == []
  {
    if log != [] {
      NoPart(log[..|log| - 1], phase);
    }
  }

  lemma InitialInv(c: Config)
    ensures Inv(c, Initial(c))
  {
    StartedKept(ScriptsOf(c, SEEDING));
  }

  lemma PartGrows(log: seq<Entry>, phase: nat, events: seq<Event<Job, Effect>>, other: nat)
    ensures Part(log + Entries(phase, events), other) == if other == phase then Part(log, other) + events else Part(log, other)
  {
    PartConcat(log, Entries(phase, events), other);
    PartOfEntries(phase, events, other);
    assert Part(log, other) + [] == Part(log, other);
  }

  lemma WorksKeeps(c: Config, s: State, t: State)
    requires Inv(c, s) && Works(c, s, t)
    ensures Inv(c, t)
  {
    var j :| Moves(ScriptsOf(c, s.phase), s.group, t.group, j);
    MovesKeep(ScriptsOf(c, s.phase), s.group, t.group, j);
    var events := t.group.trace[|s.group.trace|..];
    assert t.group.trace == s.group.trace + events;
    GrownInv(c, s, t, events);
  }

  lemma GrownInv(c: Config, s: State, t: State, events: seq<Event<Job, Effect>>)
    requires Inv(c, s) && s.phase < DONE && Kept(ScriptsOf(c, s.phase), t.group) && t.group.trace == s.group.trace + events
    requires t == s.(group := t.group, log := s.log + Entries(s.phase, events))
    ensures Inv(c, t)
  {
    PartGrows(s.log, s.phase, events, s.phase);
    forall phase: nat | phase < s.phase ensures Complete(c, phase, Part(t.log, phase)) {
      PartGrows(s.log, s.phase, events, phase);
    }
    LaterInOrder(c, s.log, Entries(s.phase, events), s.phase);
  }

  lemma LaterInOrder(c: Config, log: seq<Entry>, added: seq<Entry>, current: nat)
    requires InOrder(c, log) && (forall e :: e in added ==> e.phase == current)
    requires forall phase: nat :: phase < current ==> Complete(c, phase, Part(log, phase))
    ensures InOrder(c, log + added)
  {
    var all := log + added;
    forall i, phase: nat | 0 <= i < |all| && phase < all[i].phase ensures Complete(c, phase, Part(all[..i], phase)) {
      if i < |log| {
        assert all[..i] == log[..i];
      } else {
        assert all[..i] == log + added[..i - |log|];
        PartConcat(log, added[..i - |log|], phase);
        OtherPart(added[..i - |log|], current, phase);
        assert Part(log, phase) + [] == Part(log, phase);
      }
    }
  }

  lemma {:induction false} OtherPart(log: seq<Entry>, current: nat, phase: nat)
    requires phase != current && forall e :: e in log ==> e.phase == current
    ensures Part(log, phase) == []
  {
    if log != [] {
      OtherPart(log[..|log| - 1], current, phase);
    }
  }

  lemma WaitsKeeps(c: Config, s: State, t: State)
    requires Inv(c, s) && Waits(c, s, t)
    ensures Inv(c, t)
  {
    if Succeeded(s.group) {
      var scripts := ScriptsOf(c, s.phase);
      StartedKept(ScriptsOf(c, t.phase));
      NoPart(s.log, t.phase);
      forall j | j in scripts
        ensures scripts[j].Some? && Own(Part(s.log, s.phase), j) == Carried(j, scripts[j].value, |scripts[j].value|)
      {
        SucceededCarried(scripts, s.group, j);
      }
      assert Complete(c, s.phase, Part(s.log, s.phase));
    }
  }

  lemma {:induction false} RunKeepsInv(c: Config, run: seq<State>)
    requires IsRun(c, run)
    ensures Inv(c, run[|run| - 1])
  {
    var n := |run| - 1;
    if n == 0 {
      InitialInv(c);
    } else {
      RunKeepsInv(c, run[..n]);
      var s, t := run[n - 1], run[n];
      assert Next(c, run[n - 1], run[n - 1 + 1]);
      if Works(c, s, t) {
        WorksKeeps(c, s, t);
      } else if Waits(c, s, t) {
        WaitsKeeps(c, s, t);
      }
    }
  }

  // ----- the barrier -----

  /** The events of one node in one phase. */
  function NodeTrace(log: seq<Entry>, phase: nat, id: string): seq<Event<Job, Effect>> {
    Own(Part(log, phase), Job(id, ""))
  }

  function WellRun(j: Job, e: Effect): seq<Event<Job, Effect>> {
    [Began(j, e), Finished(j, e, true)]
  }

  /** Nothing is dialled or benchmarked before every seeded node has connected to the
      seeder, carried out its task and disconnected, each once, in that order and without
      error. */
  lemma SeededBeforeBenchmark(c: Config, run: seq<State>, i: nat, id: string)
    requires IsRun(c, run) && i < |run[|run| - 1].log| && run[|run| - 1].log[i].phase > SEEDING && id in c.seed
    ensures id in c.lset
    ensures var j, addrs := Job(id, ""), Join(c.seederAddrs, ",");
      NodeTrace(run[|run| - 1].log[..i], SEEDING, id) ==
        WellRun(j, Run(Task("connect", addrs))) + WellRun(j, Run(c.seed[id])) + WellRun(j, Run(Task("disconnect", addrs)))
  {
    RunKeepsInv(c, run);
    var log, j := run[|run| - 1].log, Job(id, "");
    assert Complete(c, SEEDING, Part(log[..i], SEEDING));
    assert j in ScriptsOf(c, SEEDING) && ScriptsOf(c, SEEDING)[j] == SeedScript(c, id);
    ThreeCarried(j, SeedScript(c, id).value);
  }

  lemma ThreeCarried(j: Job, script: seq<Effect>)
    requires |script| == 3
    ensures Carried(j, script, 3) == WellRun(j, script[0]) + WellRun(j, script[1]) + WellRun(j, script[2])
  {
    assert Carried(j, script, 0) == [];
    assert Carried(j, script, 1) == WellRun(j, script[0]);
    assert Carried(j, script, 2) == WellRun(j, script[0]) + WellRun(j, script[1]);
  }

  lemma OneCarried(j: Job, script: seq<Effect>)
    requires |script| == 1
    ensures Carried(j, script, 1) == WellRun(j, script[0])
  {
    assert Carried(j, script, 0) == [];
  }

  /** Reports are collected only after every benchmark task has been carried out, once and
      without error, on a node of the set, and every planned dial made. */
  lemma BenchmarkedBeforeReports(c: Config, run: seq<State>, i: nat)
    requires IsRun(c, run) && i < |run[|run| - 1].log| && run[|run| - 1].log[i].phase == REPORTING
    ensures c.benchmark.Keys <= c.lset
    ensures forall id :: id in c.benchmark ==>
      NodeTrace(run[|run| - 1].log[..i], BENCHMARKING, id) == WellRun(Job(id, ""), Run(c.benchmark[id]))
    ensures forall d :: d in c.dials ==>
      Own(Part(run[|run| - 1].log[..i], CONNECTING), d) == WellRun(d, Run(c.dials[d]))
  {
    RunKeepsInv(c, run);
    var log := run[|run| - 1].log;
    assert Complete(c, BENCHMARKING, Part(log[..i], BENCHMARKING));
    assert Complete(c, CONNECTING, Part(log[..i], CONNECTING));
    forall id | id in c.benchmark
      ensures id in c.lset && NodeTrace(log[..i], BENCHMARKING, id) == WellRun(Job(id, ""), Run(c.benchmark[id]))
    {
      var j := Job(id, "");
      assert j in ScriptsOf(c, BENCHMARKING) && ScriptsOf(c, BENCHMARKING)[j] == BenchmarkScript(c, id);
      OneCarried(j, BenchmarkScript(c, id).value);
    }
    forall d | d in c.dials ensures Own(Part(log[..i], CONNECTING), d) == WellRun(d, Run(c.dials[d])) {
      assert d in ScriptsOf(c, CONNECTING);
      OneCarried(d, [Run(c.dials[d])]);
    }
  }

  /** A run that succeeds has a report from exactly the nodes of the set, and carried out
      both stages on all their nodes. */
  lemma SuccessIsComplete(c: Config, run: seq<State>)
    requires IsRun(c, run) && run[|run| - 1].phase == DONE
    ensures c.seed.Keys <= c.lset && c.benchmark.Keys <= c.lset
    ensures forall id :: id in c.lset ==> NodeTrace(run[|run| - 1].log, REPORTING, id) == WellRun(Job(id, ""), AskReport)
    ensures forall id :: id in c.benchmark ==>
      NodeTrace(run[|run| - 1].log, BENCHMARKING, id) == WellRun(Job(id, ""), Run(c.benchmark[id]))
  {
    RunKeepsInv(c, run);
    var log := run[|run| - 1].log;
    assert Complete(c, SEEDING, Part(log, SEEDING));
    assert Complete(c, BENCHMARKING, Part(log, BENCHMARKING));
    assert Complete(c, REPORTING, Part(log, REPORTING));
    forall id | id in c.seed ensures id in c.lset {
      assert Job(id, "") in ScriptsOf(c, SEEDING);
    }
    forall id | id in c.benchmark
      ensures id in c.lset && NodeTrace(log, BENCHMARKING, id) == WellRun(Job(id, ""), Run(c.benchmark[id]))
    {
      var j := Job(id, "");
      assert j in ScriptsOf(c, BENCHMARKING) && ScriptsOf(c, BENCHMARKING)[j] == BenchmarkScript(c, id);
      OneCarried(j, BenchmarkScript(c, id).value);
    }
    forall id | id in c.lset ensures NodeTrace(log, REPORTING, id) == WellRun(Job(id, ""), AskReport) {
      assert Job(id, "") in ScriptsOf(c, REPORTING);
      OneCarried(Job(id, ""), [AskReport]);
    }
  }

  /** When both stages lie in the set, no goroutine takes the not-found branch. */
  lemma NothingMissing(c: Config, phase: nat, j: Job)
    requires c.seed.Keys <= c.lset && c.benchmark.Keys <= c.lset && j in ScriptsOf(c, phase)
    ensures ScriptsOf(c, phase)[j].Some?
  {
  }

  /** Stages planned on a set lie in it, so running them on that set finds every node. */
  lemma PlannedStagesFound(c: Config, w: Planning.World, objects: map<string, Cid>, seedQueries: map<string, string>,
                           benchmarkQueries: map<string, string>, m: map<string, LabeledSets.Labeled>, phase: nat, j: Job)
    requires Planning.IsStage(w, objects, seedQueries, m, c.seed)
    requires Planning.IsStage(w, objects, benchmarkQueries, m, c.benchmark)
    requires c.lset == m.Keys && j in ScriptsOf(c, phase)
    ensures ScriptsOf(c, phase)[j].Some?
  {
    Planning.StageWithinSet(w, objects, seedQueries, m, c.seed);
    Planning.StageWithinSet(w, objects, benchmarkQueries, m, c.benchmark);
    NothingMissing(c, phase, j);
  }

  /** A run that has neither failed nor finished can go on. */
  lemma RunGoesOn(c: Config, run: seq<State>) returns (t: State)
    requires IsRun(c, run) && !run[|run| - 1].failed && run[|run| - 1].phase < DONE
    ensures IsRun(c, run + [t])
  {
    RunKeepsInv(c, run);
    var s := run[|run| - 1];
    if AllEnded(s.group) {
      t := if Succeeded(s.group) then s.(phase := s.phase + 1, group := Started(ScriptsOf(c, s.phase + 1))) else s.(failed := true);
      assert Waits(c, s, t);
    } else {
      var j, h := NoDeadlock(ScriptsOf(c, s.phase), s.group);
      t := s.(group := h, log := s.log + Entries(s.phase, h.trace[|s.group.trace|..]));
      assert Works(c, s, t);
    }
  }

  // ----- the code -----

  /** Launches the goroutines of the phase and waits for them: any of them may move next,
      and the k-th effect that ends does so as `outcomes` says. */
  method Await(c: Config, s0: State, outcomes: nat -> bool, ghost run0: seq<State>) returns (s: State, ghost run: seq<State>)
    requires IsRun(c, run0) && run0[|run0| - 1] == s0 && s0.phase < DONE && !s0.failed
    ensures IsRun(c, run) && run[|run| - 1] == s
    ensures s.phase == s0.phase && !s.failed && AllEnded(s.group)
  {
    s, run := s0, run0;
    ghost var scripts := ScriptsOf(c, s.phase);
    var all := ScriptsOf(c, s.phase);
    var k := 0;
    RunKeepsInv(c, run);
    while !AllEnded(s.group)
      invariant IsRun(c, run) && run[|run| - 1] == s && s.phase == s0.phase && !s.failed && Inv(c, s)
      invariant s.group.workers.Keys == scripts.Keys
      decreases StepsOf(scripts, s.group, scripts.Keys)
    {
      var j :| j in s.group.workers && !s.group.workers[j].Ended?;
      var g := Moved(all, s.group, j, outcomes(k));
      MovedMoves(scripts, s.group, j, outcomes(k));
      MovesEnd(scripts, s.group, g, j);
      var t := s.(group := g, log := s.log + Entries(s.phase, g.trace[|s.group.trace|..]));
      assert Works(c, s, t);
      WorksKeeps(c, s, t);
      run := Extended(c, run, t);
      s := t;
      k := k + 1;
    }
  }

  ghost function Extended(c: Config, run: seq<State>, t: State): (r: seq<State>)
    requires IsRun(c, run) && Next(c, run[|run| - 1], t)
    ensures IsRun(c, r) && r[|r| - 1] == t
  {
    run + [t]
  }

  /** What waiting returned: the next phase, or an error. */
  method Settle(c: Config, s: State, ghost run0: seq<State>) returns (t: State, ghost run: seq<State>)
    requires IsRun(c, run0) && run0[|run0| - 1] == s && s.phase < DONE && !s.failed && AllEnded(s.group)
    ensures IsRun(c, run) && run[|run| - 1] == t
    ensures if Succeeded(s.group) then !t.failed && t.phase == s.phase + 1 && t.group.trace == [] else t.failed
  {
    if Succeeded(s.group) {
      t := s.(phase := s.phase + 1, group := Started(ScriptsOf(c, s.phase + 1)));
    } else {
      t := s.(failed := true);
    }
    assert Waits(c, s, t);
    run := Extended(c, run0, t);
  }

  /** One phase: `Seed`, the dials of `Connect`, `Benchmark` or `CollectReports`. */
  method Phase(c: Config, s: State, outcomes: nat -> bool, ghost run0: seq<State>) returns (t: State, ghost run: seq<State>)
    requires IsRun(c, run0) && run0[|run0| - 1] == s && s.phase < DONE && !s.failed
    ensures IsRun(c, run) && run[|run| - 1] == t
    ensures t.failed || (t.phase == s.phase + 1 && t.group.trace == [])
  {
    var u;
    u, run := Await(c, s, outcomes, run0);
    t, run := Settle(c, u, run);
  }

  /** Seeds, connects, benchmarks and collects the reports.  `ready` is whether the nodes
      are healthy and give their addresses.  What it does is a run of the protocol, so all
      that is proved of runs holds of it. */
  method RunScenario(c: Config, ready: bool, outcomes: nat -> nat -> bool) returns (ok: bool, log: seq<Entry>, ghost run: seq<State>)
    ensures IsRun(c, run) && log == run[|run| - 1].log
    ensures ok <==> run[|run| - 1].phase == DONE && !run[|run| - 1].failed
    ensures InOrder(c, log)
    ensures ok ==> ready && forall phase: nat :: phase < DONE ==> Complete(c, phase, Part(log, phase))
  {
    var s := Initial(c);
    run := [s];
    s, run := Phase(c, s, outcomes(SEEDING), run);
    if !s.failed && !ready {
      var t := s.(failed := true);
      assert GivesUp(s, t);
      run := Extended(c, run, t);
      s := t;
    }
    if !s.failed {
      s, run := Phase(c, s, outcomes(CONNECTING), run);
    }
    if !s.failed {
      s, run := Phase(c, s, outcomes(BENCHMARKING), run);
    }
    if !s.failed {
      s, run := Phase(c, s, outcomes(REPORTING), run);
    }
    RunKeepsInv(c, run);
    return !s.failed, s.log, run;
  }

  // ----- connecting as planned -----

  /** One job for each dial. */
  function JobsOf(dials: seq<Connect.Dial>): map<Job, Task> {
    if dials == [] then map[]
    else
      var last := dials[|dials| - 1];
      JobsOf(dials[..|dials| - 1])[Job(last.node, last.peer) := last.task]
  }

  /** The jobs are those of the dials, one each. */
  ghost predicate JobsFor(dials: seq<Connect.Dial>, jobs: map<Job, Task>) {
    && (forall d :: d in dials ==> Job(d.node, d.peer) in jobs && jobs[Job(d.node, d.peer)] == d.task)
    && (forall j :: j in jobs ==> exists d :: d in dials && j == Job(d.node, d.peer))
    && |jobs| == |dials|
  }

  lemma {:induction false} JobsAt(dials: seq<Connect.Dial>)
    requires Connect.OneDialEach(dials)
    ensures JobsFor(dials, JobsOf(dials))
  {
    if dials != [] {
      var n := |dials| - 1;
      JobsAt(dials[..n]);
      forall d | d in dials[..n] ensures d.node != dials[n].node || d.peer != dials[n].peer {
        var a :| 0 <= a < n && dials[..n][a] == d;
        assert dials[a] == d;
      }
      OneMoreJob(dials, JobsOf(dials[..n]));
    }
  }

  lemma OneMoreJob(dials: seq<Connect.Dial>, jobs: map<Job, Task>)
    requires dials != [] && JobsFor(dials[..|dials| - 1], jobs)
    requires var n := |dials| - 1; forall d :: d in dials[..n] ==> d.node != dials[n].node || d.peer != dials[n].peer
    ensures var last := dials[|dials| - 1]; JobsFor(dials, jobs[Job(last.node, last.peer) := last.task])
  {
    var n := |dials| - 1;
    var j := Job(dials[n].node, dials[n].peer);
    forall d ensures d in dials <==> d in dials[..n] || d == dials[n] {
      InLast(dials, d);
    }
    assert jobs[j := dials[n].task].Keys == jobs.Keys + {j};
  }

  /** The i-th node made all the dials of its peer's row, each once and without error, and
      each to all the addresses of a node with the peer it dials. */
  ghost predicate Dialled(ns: seq<string>, info: map<string, Connect.PeerInfo>, conns: Connect.Conns, log: seq<Entry>, i: nat)
    requires i < |ns| && ns[i] in info
  {
    var peer := Connect.PeerAt(ns, info, i);
    peer in conns && forall q :: q in conns[peer] ==>
      DialledOnce(log, ns[i], q, Connect.DialTask(conns[peer][q])) && Connect.ConnectsToPeer(Connect.DialTask(conns[peer][q]), info, q)
  }

  /** All the node did about the peer when connecting was to run this task, once and without
      error. */
  ghost predicate DialledOnce(log: seq<Entry>, node: string, peer: string, task: Task) {
    Own(Part(log, CONNECTING), Job(node, peer)) == WellRun(Job(node, peer), Run(task))
  }

  /** One dial of a row. */
  lemma DialledInRow(c: Config, log: seq<Entry>, rows: seq<seq<Connect.Dial>>, dials: seq<Connect.Dial>, i: nat, d: Connect.Dial)
    requires Connect.OneDialEach(dials) && i < |rows| && d in rows[i]
    requires forall e :: e in dials <==> exists k: nat :: k < |rows| && e in rows[k]
    requires c.dials == JobsOf(dials) && Complete(c, CONNECTING, Part(log, CONNECTING))
    ensures DialledOnce(log, d.node, d.peer, d.task)
  {
    JobsAt(dials);
    assert d in dials;
    var j := Job(d.node, d.peer);
    assert j in ScriptsOf(c, CONNECTING);
    OneCarried(j, [Run(c.dials[j])]);
  }

  lemma ConnectedAsPlanned(c: Config, log: seq<Entry>, ns: seq<string>, info: map<string, Connect.PeerInfo>, conns: Connect.Conns,
                           rows: seq<seq<Connect.Dial>>, dials: seq<Connect.Dial>, i: nat)
    requires NoDuplicates(ns) && Connect.AllReached(ns, info) && Connect.PlanSoFar(ns, info, |ns|, conns)
    requires Connect.Emitted(ns, info, conns, |ns|, rows, dials) && c.dials == JobsOf(dials)
    requires Complete(c, CONNECTING, Part(log, CONNECTING)) && i < |ns|
    ensures Dialled(ns, info, conns, log, i)
  {
    var peer := Connect.PeerAt(ns, info, i);
    Connect.RowFound(ns, info, conns, i);
    Connect.EmittedOnce(ns, info, conns, |ns|, rows, dials);
    assert Connect.NodeEmitted(ns, info, conns, i, rows[i]);
    forall q | q in conns[peer]
      ensures DialledOnce(log, ns[i], q, Connect.DialTask(conns[peer][q]))
      ensures Connect.ConnectsToPeer(Connect.DialTask(conns[peer][q]), info, q)
    {
      Connect.RowConnects(ns, info, conns, i, q);
      DialledInRow(c, log, rows, dials, i, Connect.Dial(ns[i], q, Connect.DialTask(conns[peer][q])));
    }
  }

  lemma AllDialled(c: Config, log: seq<Entry>, ns: seq<string>, info: map<string, Connect.PeerInfo>, conns: Connect.Conns,
                   rows: seq<seq<Connect.Dial>>, dials: seq<Connect.Dial>)
    requires NoDuplicates(ns) && Connect.Connected(ns, info, conns, rows, dials) && c.dials == JobsOf(dials)
    requires Complete(c, CONNECTING, Part(log, CONNECTING))
    ensures forall i: nat :: i < |ns| ==> Dialled(ns, info, conns, log, i)
  {
    forall i: nat | i < |ns| ensures Dialled(ns, info, conns, log, i) {
      ConnectedAsPlanned(c, log, ns, info, conns, rows, dials, i);
    }
  }

  /** `Run` on the nodes of a set: the dials of the connecting phase are those planned from
      what the nodes answer; without all the answers the run gives up. */
  method RunOn(ns: seq<string>, answers: seq<Option<Connect.PeerInfo>>, seed: map<string, Task>, benchmark: map<string, Task>,
               seederAddrs: seq<string>, healthy: bool, outcomes: nat -> nat -> bool)
      returns (ok: bool, log: seq<Entry>, ghost c: Config, ghost run: seq<State>, ghost info: map<string, Connect.PeerInfo>,
               ghost conns: Connect.Conns)
    requires |answers| == |ns| && NoDuplicates(ns)
    ensures IsRun(c, run) && log == run[|run| - 1].log
    ensures ok <==> run[|run| - 1].phase == DONE && !run[|run| - 1].failed
    ensures c.lset == (set n | n in ns) && c.seed == seed && c.benchmark == benchmark && c.seederAddrs == seederAddrs
    ensures ok ==> healthy && forall i :: 0 <= i < |ns| ==> answers[i].Some? && answers[i].value.addrs != []
    ensures ok ==> Connect.AllReached(ns, info) && Connect.PlanSoFar(ns, info, |ns|, conns)
    ensures ok ==> forall i: nat :: i < |ns| ==> Dialled(ns, info, conns, log, i)
  {
    var dials;
    ghost var rows;
    dials, info, conns, rows := Connect.Connect(ns, answers);
    var jobs := if dials.Some? then JobsOf(dials.value) else map[];
    var nodes := set n | n in ns;
    var config := Config(nodes, seed, benchmark, seederAddrs, jobs);
    c := config;
    ok, log, run := RunScenario(config, healthy && dials.Some?, outcomes);
    if ok {
      assert Complete(config, CONNECTING, Part(log, CONNECTING));
      AllDialled(config, log, ns, info, conns, rows, dials.value);
    }
  }
}
