/** Groups of goroutines that are launched one by one and awaited together (errgroup).

    Each job has a script of effects it carries out one after the other; between the start
    and the end of an effect any other job may move.  A job ends at its first failure. */
module Groups {
  import opened Results

  /** The numbers of n goroutines. */
  function Indices(n: nat): (r: set<nat>)
    ensures forall i :: i in r <==> 0 <= i < n
  {
    if n == 0 then {} else Indices(n - 1) + {n - 1}
  }

  datatype Worker = Waiting | Working(done: nat, busy: bool) | Ended(ok: bool)

  datatype Event<J, T> = Began(job: J, effect: T) | Finished(job: J, effect: T, ok: bool)

  /** The goroutines of a group and everything they have done, in order. */
  datatype Group<!J, T> = Group(workers: map<J, Worker>, trace: seq<Event<J, T>>)

  /** What each job is to do; None for a job that finds out it cannot start. */
  type Scripts<!J, T> = map<J, Option<seq<T>>>

  function Started<J, T>(scripts: Scripts<J, T>): Group<J, T> {
    Group(map j | j in scripts :: Waiting, [])
  }

  function Put<J, T>(g: Group<J, T>, j: J, w: Worker, events: seq<Event<J, T>>): Group<J, T> {
    Group(g.workers[j := w], g.trace + events)
  }

  /** One step of a goroutine, or its launch by the loop, and the events it causes. */
  ghost predicate WorkerMoves<J, T>(j: J, script: Option<seq<T>>, w: Worker, v: Worker, events: seq<Event<J, T>>) {
    match w
    case Waiting => v == Working(0, false) && events == []
    case Ended(_) => false
    case Working(k, busy) => if script.None? then v == Ended(false) && events == [] else Carries(j, script.value, k, busy, v, events)
  }

  ghost predicate Carries<J, T>(j: J, script: seq<T>, k: nat, busy: bool, v: Worker, events: seq<Event<J, T>>) {
    if k >= |script| then v == Ended(true) && events == []
    else if !busy then v == Working(k, true) && events == [Began(j, script[k])]
    else
      || (v == Working(k + 1, false) && events == [Finished(j, script[k], true)])
      || (v == Ended(false) && events == [Finished(j, script[k], false)])
  }

  /** One step of the group: the job `j` moves. */
  ghost predicate Moves<J, T>(scripts: Scripts<J, T>, g: Group<J, T>, h: Group<J, T>, j: J) {
    j in scripts && j in g.workers && j in h.workers && |g.trace| <= |h.trace| &&
    var events := h.trace[|g.trace|..];
    h == Put(g, j, h.workers[j], events) && WorkerMoves(j, scripts[j], g.workers[j], h.workers[j], events)
  }

  predicate AllEnded<J, T>(g: Group<J, T>) {
    forall j | j in g.workers :: g.workers[j].Ended?
  }

  /** What `Wait` returning nil means. */
  predicate Succeeded<J, T>(g: Group<J, T>) {
    forall j | j in g.workers :: g.workers[j] == Ended(true)
  }

  /** The events of one job. */
  function Own<J(==), T>(trace: seq<Event<J, T>>, j: J): seq<Event<J, T>> {
    if trace == [] then []
    else
      var last := trace[|trace| - 1];
      Own(trace[..|trace| - 1], j) + if last.job == j then [last] else []
  }

  /** The first n effects of a script, each begun and finished well before the next. */
  function Carried<J, T>(j: J, script: seq<T>, n: nat): seq<Event<J, T>>
    requires n <= |script|
  {
    if n == 0 then [] else Carried(j, script, n - 1) + [Began(j, script[n - 1]), Finished(j, script[n - 1], true)]
  }

  ghost predicate InScript<J, T>(j: J, script: seq<T>, k: nat, busy: bool, own: seq<Event<J, T>>) {
    && k <= |script| && (busy ==> k < |script|)
    && own == if busy then Carried(j, script, k) + [Began(j, script[k])] else Carried(j, script, k)
  }

  ghost predicate WorkerAgrees<J, T>(j: J, script: Option<seq<T>>, w: Worker, own: seq<Event<J, T>>) {
    match w
    case Waiting => own == []
    case Working(k, busy) => if script.None? then k == 0 && !busy && own == [] else InScript(j, script.value, k, busy, own)
    case Ended(ok) => ok ==> script.Some? && own == Carried(j, script.value, |script.value|)
  }

  /** What every reachable group satisfies. */
  ghost predicate Kept<J, T>(scripts: Scripts<J, T>, g: Group<J, T>) {
    && g.workers.Keys == scripts.Keys
    && (forall j :: j in scripts ==> WorkerAgrees(j, scripts[j], g.workers[j], Own(g.trace, j)))
    && (forall e :: e in g.trace ==> e.job in scripts)
  }

  lemma StartedKept<J, T>(scripts: Scripts<J, T>)
    ensures Kept(scripts, Started(scripts))
  {
  }

  lemma {:induction false} OwnConcat<J, T>(a: seq<Event<J, T>>, b: seq<Event<J, T>>, j: J)
    ensures Own(a + b, j) == Own(a, j) + Own(b, j)
  {
    if b == [] {
      assert a + b == a;
    } else {
      OwnConcat(a, b[..|b| - 1], j);
      assert (a + b)[..|a + b| - 1] == a + b[..|b| - 1];
    }
  }

  lemma OwnOne<J, T>(e: Event<J, T>, j: J)
    ensures Own([e], j) == if e.job == j then [e] else []
  {
    assert [e][..0] == [];
  }

  lemma WorkerStaysInScript<J, T>(j: J, script: Option<seq<T>>, w: Worker, v: Worker, events: seq<Event<J, T>>, own: seq<Event<J, T>>)
    requires WorkerAgrees(j, script, w, own) && WorkerMoves(j, script, w, v, events)
    ensures WorkerAgrees(j, script, v, own + Own(events, j))
    ensures forall e :: e in events ==> e.job == j
  {
    assert own + [] == own;
    if events != [] {
      var k := w.done;
      OwnOne(events[0], j);
      assert Carried(j, script.value, k) + [Began(j, script.value[k])] + [Finished(j, script.value[k], true)] ==
        Carried(j, script.value, k) + [Began(j, script.value[k]), Finished(j, script.value[k], true)];
    }
  }

  /** Every step keeps every job's own events in script order. */
  lemma MovesKeep<J, T>(scripts: Scripts<J, T>, g: Group<J, T>, h: Group<J, T>, j: J)
    requires Kept(scripts, g) && Moves(scripts, g, h, j)
    ensures Kept(scripts, h) && !AllEnded(g)
  {
    var events := h.trace[|g.trace|..];
    WorkerStaysInScript(j, scripts[j], g.workers[j], h.workers[j], events, Own(g.trace, j));
    OwnConcat(g.trace, events, j);
    forall i | i in scripts && i != j ensures Own(h.trace, i) == Own(g.trace, i) {
      OthersOwn(g.trace, events, i);
    }
    assert !g.workers[j].Ended?;
  }

  lemma OthersOwn<J, T>(trace: seq<Event<J, T>>, events: seq<Event<J, T>>, i: J)
    requires forall e :: e in events ==> e.job != i
    ensures Own(trace + events, i) == Own(trace, i)
  {
    OwnConcat(trace, events, i);
    NotOwn(events, i);
    assert Own(trace, i) + [] == Own(trace, i);
  }

  lemma {:induction false} NotOwn<J, T>(events: seq<Event<J, T>>, j: J)
    requires forall e :: e in events ==> e.job != j
    ensures Own(events, j) == []
  {
    if events != [] {
      NotOwn(events[..|events| - 1], j);
    }
  }

  /** When `Wait` returns nil, each job found what it needed and did its whole script, once
      and in order. */
  lemma SucceededCarried<J, T>(scripts: Scripts<J, T>, g: Group<J, T>, j: J)
    requires Kept(scripts, g) && Succeeded(g) && j in scripts
    ensures scripts[j].Some? && Own(g.trace, j) == Carried(j, scripts[j].value, |scripts[j].value|)
  {
  }

  // ----- every group ends -----

  /** How many steps a goroutine has before it at most. */
  ghost function StepsLeft<T>(script: Option<seq<T>>, w: Worker): nat {
    var n := if script.Some? then |script.value| else 0;
    match w
    case Waiting => 2 * n + 2
    case Working(k, busy) => if k > n then 1 else 2 * (n - k) + if busy && k < n then 0 else 1
    case Ended(_) => 0
  }

  ghost function StepsOf<J, T>(scripts: Scripts<J, T>, g: Group<J, T>, js: set<J>): nat
    requires js <= scripts.Keys && js <= g.workers.Keys
  {
    if js == {} then 0 else var j :| j in js; StepsLeft(scripts[j], g.workers[j]) + StepsOf(scripts, g, js - {j})
  }

  lemma {:induction false} StepsTake<J, T>(scripts: Scripts<J, T>, g: Group<J, T>, js: set<J>, j: J)
    requires js <= scripts.Keys && js <= g.workers.Keys && j in js
    ensures StepsOf(scripts, g, js) == StepsLeft(scripts[j], g.workers[j]) + StepsOf(scripts, g, js - {j})
    decreases |js|
  {
    var i :| i in js && StepsOf(scripts, g, js) == StepsLeft(scripts[i], g.workers[i]) + StepsOf(scripts, g, js - {i});
    if i != j {
      StepsTake(scripts, g, js - {i}, j);
      StepsTake(scripts, g, js - {j}, i);
      assert js - {i} - {j} == js - {j} - {i};
    }
  }

  lemma {:induction false} StepsAlike<J, T>(scripts: Scripts<J, T>, g: Group<J, T>, h: Group<J, T>, js: set<J>)
    requires js <= scripts.Keys && js <= g.workers.Keys && js <= h.workers.Keys
    requires forall j :: j in js ==> h.workers[j] == g.workers[j]
    ensures StepsOf(scripts, h, js) == StepsOf(scripts, g, js)
    decreases |js|
  {
    if js != {} {
      var j :| j in js;
      StepsTake(scripts, g, js, j);
      StepsTake(scripts, h, js, j);
      StepsAlike(scripts, g, h, js - {j});
    }
  }

  /** Every step leaves fewer steps, so no interleaving goes on for ever. */
  lemma MovesEnd<J, T>(scripts: Scripts<J, T>, g: Group<J, T>, h: Group<J, T>, j: J)
    requires g.workers.Keys == scripts.Keys && Moves(scripts, g, h, j)
    ensures h.workers.Keys == scripts.Keys && StepsOf(scripts, h, scripts.Keys) < StepsOf(scripts, g, scripts.Keys)
  {
    StepsTake(scripts, g, scripts.Keys, j);
    StepsTake(scripts, h, scripts.Keys, j);
    StepsAlike(scripts, g, h, scripts.Keys - {j});
  }

  /** What a goroutine does next, given how the effect it is busy with turns out. */
  function Moved<J, T>(scripts: Scripts<J, T>, g: Group<J, T>, j: J, well: bool): Group<J, T>
    requires j in scripts && j in g.workers
  {
    match g.workers[j]
    case Waiting => Put(g, j, Working(0, false), [])
    case Ended(_) => g
    case Working(k, busy) =>
      if scripts[j].None? then Put(g, j, Ended(false), [])
      else if k >= |scripts[j].value| then Put(g, j, Ended(true), [])
      else if !busy then Put(g, j, Working(k, true), [Began(j, scripts[j].value[k])])
      else Put(g, j, if well then Working(k + 1, false) else Ended(false), [Finished(j, scripts[j].value[k], well)])
  }

  lemma MovedMoves<J, T>(scripts: Scripts<J, T>, g: Group<J, T>, j: J, well: bool)
    requires j in scripts && j in g.workers && !g.workers[j].Ended?
    ensures Moves(scripts, g, Moved(scripts, g, j, well), j)
  {
  }

  /** Until all jobs have ended, some job can move. */
  lemma NoDeadlock<J, T>(scripts: Scripts<J, T>, g: Group<J, T>) returns (j: J, h: Group<J, T>)
    requires Kept(scripts, g) && !AllEnded(g)
    ensures Moves(scripts, g, h, j)
  {
    j :| j in g.workers && !g.workers[j].Ended?;
    h := Moved(scripts, g, j, true);
    MovedMoves(scripts, g, j, true);
  }
}
