/** The discrete-event engine: list scheduling of a task graph on identical
    resources, with a FIFO list of free resources, a ready queue that hands
    out a task of least priority, and an event queue of task completions
    ordered by (time, task id, resource id). */
module Simulator {
  import opened Common
  import opened TaskGraph

  // ---------------------------------------------------------------------
  // Events and the event queue

  /** An event `(time, task id, resource id)`; the bootstrapping event has
      neither a task nor a resource. */
  datatype Event = Event(time: int, task: Option<int>, res: Option<int>)

  /** The event the simulation starts from. */
  const Bootstrap: Event := Event(0, None, None)

  /** Order of optional ids, absence first. */
  predicate OptionLe(a: Option<int>, b: Option<int>)
  {
    a.None? || (b.Some? && a.value <= b.value)
  }

  /** Lexicographic order of event tuples, as the event heap compares them.
      An absent id is only ever compared with another event at the start,
      when the bootstrapping event is alone in the queue. */
  predicate EventLe(a: Event, b: Event)
  {
    a.time < b.time
    || (a.time == b.time && a.task != b.task && OptionLe(a.task, b.task))
    || (a.time == b.time && a.task == b.task && OptionLe(a.res, b.res))
  }

  /** `EventLe` is a total preorder, so a non-empty queue has a least event. */
  lemma EventLeTotalPreorder()
    ensures forall a, b :: EventLe(a, b) || EventLe(b, a)
    ensures forall a, b, c :: EventLe(a, b) && EventLe(b, c) ==> EventLe(a, c)
  {
  }

  /** `heappop` on the event queue: a least event and the queue without it. */
  method PopEvent(events: set<Event>) returns (e: Event, rest: set<Event>)
    requires events != {}
    ensures e in events && rest == events - {e}
    ensures forall x :: x in events ==> EventLe(e, x)
  {
    EventLeTotalPreorder();
    ghost var least := ExistsMinimal(events, EventLe);
    e :| e in events && forall x :: x in events ==> EventLe(e, x);
    rest := events - {e};
  }

  /** The least event of a queue is not later than any other. */
  lemma LeastEventIsEarliest(events: set<Event>, e: Event)
    requires e in events && forall x :: x in events ==> EventLe(e, x)
    ensures forall x :: x in events ==> e.time <= x.time
  {
  }

  // ---------------------------------------------------------------------
  // The ready queue

  /** The task `heappop` takes from the ready queue: one that no other ready
      task is `Less` than (which of several equal priorities is left open). */
  method PopReady(vs: Vertices, ready: set<int>) returns (t: int)
    requires ready != {} && ready <= vs.Keys
    ensures t in ready
    ensures forall u :: u in ready ==> !Less(vs[u], vs[t])
  {
    var le := (a: int, b: int) => a in vs && b in vs ==> vs[a].priority <= vs[b].priority;
    ghost var least := ExistsMinimal(ready, le);
    t :| t in ready && forall u :: u in ready ==> le(t, u);
  }

  /** The entry vertices: those without predecessors. */
  ghost function Roots(vs: Vertices): set<int>
  {
    set k | k in vs && vs[k].preds == {}
  }

  /** Invariant of the loop that fills the initial ready queue. */
  ghost predicate RootsLoop(vs: Vertices, todo: set<int>, ready: set<int>)
  {
    todo <= vs.Keys && ready == Roots(vs) - todo
  }

  /** The set-up of the ready queue: every task without predecessors. */
  method InitialReady(vs: Vertices) returns (ready: set<int>)
    ensures ready == Roots(vs)
    ensures forall k :: k in ready <==> k in vs && vs[k].preds == {}
  {
    ready := {};
    var todo := vs.Keys;
    assert Roots(vs) - todo == {};
    while todo != {}
      invariant RootsLoop(vs, todo, ready)
      decreases todo
    {
      ghost var some := Pick(todo);
      var id :| id in todo;
      if vs[id].preds == {} {
        ready := ready + {id};
      }
      assert Roots(vs) - (todo - {id}) == ready by {
        assert id in Roots(vs) <==> vs[id].preds == {};
      }
      todo := todo - {id};
    }
  }

  // ---------------------------------------------------------------------
  // Completion of a task

  /** The table after task `t` is removed from the predecessor sets of all
      its successors. */
  ghost function RemovePredecessor(vs: Vertices, t: int): (r: Vertices)
    requires t in vs
    ensures r.Keys == vs.Keys
  {
    map k | k in vs :: if k in vs[t].succs then vs[k].(preds := vs[k].preds - {t}) else vs[k]
  }

  /** The successors of `t` that have no predecessor left once `t` is
      removed. */
  ghost function NewlyReady(vs: Vertices, t: int): set<int>
    requires t in vs
  {
    set s | s in vs[t].succs && s in vs && vs[s].preds - {t} == {}
  }

  /** The table part-way through the release loop, with the successors in
      `done` handled. */
  ghost function PartlyRemoved(vs: Vertices, t: int, done: set<int>): Vertices
    requires t in vs
  {
    map k | k in vs :: if k in done then vs[k].(preds := vs[k].preds - {t}) else vs[k]
  }

  /** Invariant of the release loop. */
  ghost predicate ReleaseLoop(m: Vertices, vs: Vertices, t: int, ready0: set<int>,
                              rest: set<int>, ready: set<int>)
  {
    && t in vs && rest <= vs[t].succs
    && (forall s :: s in vs[t].succs ==> s in vs && t in vs[s].preds)
    && m == PartlyRemoved(vs, t, vs[t].succs - rest)
    && ready == ready0 + (NewlyReady(vs, t) - rest)
  }

  lemma ReleaseLoopStart(vs: Vertices, t: int, ready: set<int>)
    requires t in vs && forall s :: s in vs[t].succs ==> s in vs && t in vs[s].preds
    ensures ReleaseLoop(vs, vs, t, ready, vs[t].succs, ready)
  {
    assert vs[t].succs - vs[t].succs == {};
    var p := PartlyRemoved(vs, t, {});
    forall k | k in vs ensures p[k] == vs[k] {
    }
    assert p.Keys == vs.Keys;
    assert NewlyReady(vs, t) - vs[t].succs == {};
  }

  lemma ReleaseLoopStep(m: Vertices, vs: Vertices, t: int, ready0: set<int>,
                        rest: set<int>, ready: set<int>, s: int)
    requires ReleaseLoop(m, vs, t, ready0, rest, ready) && s in rest
    ensures s in m && t in m[s].preds
    ensures var m' := m[s := m[s].(preds := m[s].preds - {t})];
      && (m'[s].preds == {} ==> ReleaseLoop(m', vs, t, ready0, rest - {s}, ready + {s}))
      && (m'[s].preds != {} ==> ReleaseLoop(m', vs, t, ready0, rest - {s}, ready))
  {
    var done := vs[t].succs - rest;
    assert vs[t].succs - (rest - {s}) == done + {s};
    assert m[s] == vs[s];
    var q := PartlyRemoved(vs, t, done + {s});
    var m' := m[s := m[s].(preds := m[s].preds - {t})];
    forall k | k in vs ensures m'[k] == q[k] {
    }
    assert m'.Keys == q.Keys;
    if m'[s].preds == {} {
      assert s in NewlyReady(vs, t);
      assert NewlyReady(vs, t) - (rest - {s}) == (NewlyReady(vs, t) - rest) + {s};
    } else {
      assert s !in NewlyReady(vs, t);
      assert NewlyReady(vs, t) - (rest - {s}) == NewlyReady(vs, t) - rest;
    }
  }

  lemma ReleaseLoopEnd(m: Vertices, vs: Vertices, t: int, ready0: set<int>, ready: set<int>)
    requires ReleaseLoop(m, vs, t, ready0, {}, ready)
    ensures m == RemovePredecessor(vs, t)
    ensures ready == ready0 + NewlyReady(vs, t)
  {
    assert vs[t].succs - {} == vs[t].succs;
    assert NewlyReady(vs, t) - {} == NewlyReady(vs, t);
    var r := RemovePredecessor(vs, t);
    forall k | k in vs ensures m[k] == r[k] {
    }
    assert m.Keys == r.Keys;
  }

  /** The handling of a completion event: task `t` leaves the predecessor set
      of each successor (which must hold it, or the removal fails), and each
      successor left without predecessors joins the ready queue. */
  method ReleaseSuccessors(g: Graph, t: int, ready: set<int>) returns (ready': set<int>)
    requires t in g.vertices
    requires forall s :: s in g.vertices[t].succs ==> s in g.vertices && t in g.vertices[s].preds
    modifies g`vertices
    ensures g.vertices == RemovePredecessor(old(g.vertices), t)
    ensures ready' == ready + NewlyReady(old(g.vertices), t)
  {
    ghost var vs := g.vertices;
    ReleaseLoopStart(vs, t, ready);
    var task := g.vertices[t];
    var rest := task.succs;
    ready' := ready;
    while rest != {}
      invariant ReleaseLoop(g.vertices, vs, t, ready, rest, ready')
      decreases rest
    {
      ghost var some := Pick(rest);
      var succId :| succId in rest;
      ReleaseLoopStep(g.vertices, vs, t, ready, rest, ready', succId);
      var successor := g.vertices[succId];
      g.vertices := g.vertices[succId := successor.(preds := successor.preds - {t})];
      if g.vertices[succId].preds == {} {
        ready' := ready' + {succId};
      }
      rest := rest - {succId};
    }
    ReleaseLoopEnd(g.vertices, vs, t, ready, ready');
  }

  // ---------------------------------------------------------------------
  // The simulation state and its invariant

  /** When a dispatched task started and on which resource. */
  datatype Run = Run(start: int, res: int)

  /** A snapshot of the engine: the vertex table, the free-resource list, the
      ready set, the event queue and the clock, together with the history so
      far: the dispatched tasks with their runs, the tasks whose completion
      has been handled, whether the bootstrapping event has been handled, and
      the task that completed last. */
  datatype State = State(vs: Vertices, free: seq<int>, ready: set<int>, events: set<Event>,
                         time: int, runs: map<int, Run>, finished: set<int>,
                         booted: bool, last: int)

  /** No task has a negative load. */
  ghost predicate NonNegativeLoads(V0: Vertices)
  {
    forall k :: k in V0 ==> V0[k].load >= 0
  }

  /** The completion time of a dispatched task. */
  ghost function End(V0: Vertices, runs: map<int, Run>, t: int): int
    requires t in V0 && t in runs
  {
    runs[t].start + V0[t].load
  }

  /** The completion event of a dispatched task. */
  ghost function Completion(V0: Vertices, runs: map<int, Run>, t: int): Event
    requires t in V0 && t in runs
  {
    Event(End(V0, runs, t), Some(t), Some(runs[t].res))
  }

  /** The completion events of the tasks that are dispatched but not done. */
  ghost function Completions(V0: Vertices, runs: map<int, Run>, done: set<int>): set<Event>
  {
    set t | t in runs && t !in done && t in V0 :: Completion(V0, runs, t)
  }

  /** The predecessors of `k` still recorded once the completions of `done`
      have been handled: a completion removes a task only from the
      predecessor sets of its listed successors. */
  ghost function Remaining(V0: Vertices, done: set<int>, k: int): set<int>
    requires k in V0
  {
    V0[k].preds - set u | u in done && u in V0 && k in V0[u].succs
  }

  /** The tasks running at this instant. */
  ghost function Running(s: State): set<int>
  {
    s.runs.Keys - s.finished
  }

  /** Only predecessor sets change, each down to what `Remaining` leaves, and
      a dispatched task has no predecessor left. */
  ghost predicate ShapeOk(V0: Vertices, s: State)
  {
    && s.vs.Keys == V0.Keys
    && (forall k :: k in V0 ==> s.vs[k] == V0[k].(preds := Remaining(V0, s.finished, k)))
    && s.finished <= s.runs.Keys && s.runs.Keys <= V0.Keys
    && (forall k :: k in s.runs ==> s.vs[k].preds == {})
  }

  /** The ready queue holds exactly the undispatched tasks without
      predecessors. */
  ghost predicate ReadyOk(V0: Vertices, s: State)
  {
    s.ready == set k | k in s.vs && k !in s.runs && s.vs[k].preds == {}
  }

  /** The event queue holds the completion of every running task, and the
      bootstrapping event until it is handled. */
  ghost predicate EventsOk(V0: Vertices, s: State)
  {
    s.events == Completions(V0, s.runs, s.finished) + (if s.booted then {} else {Bootstrap})
  }

  /** Every resource id is in [0, R); each is either free (listed once) or
      held by exactly one running task, so free plus busy is R. */
  ghost predicate ResourcesOk(R: int, s: State)
  {
    && Distinct(s.free)
    && (forall i :: 0 <= i < |s.free| ==> 0 <= s.free[i] < R)
    && (forall t :: t in s.runs ==> 0 <= s.runs[t].res < R)
    && (forall t :: t in Running(s) ==> s.runs[t].res !in s.free)
    && (forall a, b :: a in Running(s) && b in Running(s) && a != b ==> s.runs[a].res != s.runs[b].res)
    && |s.free| + |Running(s)| == (if R < 0 then 0 else R)
  }

  /** Every task starts no earlier than each of its predecessors ends. */
  ghost predicate Precedence(V0: Vertices, runs: map<int, Run>)
  {
    forall v, u :: v in runs && v in V0 && u in V0[v].preds ==>
      u in runs && u in V0 && End(V0, runs, u) <= runs[v].start
  }

  /** Two tasks on the same resource do not overlap in time. */
  ghost predicate Exclusive(V0: Vertices, runs: map<int, Run>)
  {
    forall a, b :: a in runs && b in runs && a in V0 && b in V0 && a != b && runs[a].res == runs[b].res ==>
      End(V0, runs, a) <= runs[b].start || End(V0, runs, b) <= runs[a].start
  }

  /** The clock never runs backwards past a pending event, and every
      dispatched task started and every completed task ended by now; the
      last completion happened now. */
  ghost predicate TimingOk(V0: Vertices, s: State)
  {
    && s.time >= 0
    && (forall e :: e in s.events ==> s.time <= e.time)
    && (forall t :: t in s.runs ==> 0 <= s.runs[t].start <= s.time)
    && (forall t :: t in s.finished && t in s.runs && t in V0 ==> End(V0, s.runs, t) <= s.time)
    && (s.finished != {} ==> s.last in s.finished && s.last in s.runs && s.last in V0
                             && End(V0, s.runs, s.last) == s.time)
    && Precedence(V0, s.runs)
    && Exclusive(V0, s.runs)
  }

  /** The invariant of the engine over a run on the vertex table `V0` with
      `R` resources. */
  ghost predicate Inv(V0: Vertices, R: int, s: State)
  {
    && (forall k :: k in V0 ==> V0[k].id == k)
    && ShapeOk(V0, s) && ReadyOk(V0, s) && EventsOk(V0, s) && ResourcesOk(R, s)
    && (s.finished == {} ==> s.time == 0)
    && (!s.booted ==> s.runs == map[] && s.time == 0)
    && (NonNegativeLoads(V0) ==> TimingOk(V0, s))
  }

  /** At the head of the main loop the dispatch loop has run dry: no free
      resource or no ready task. */
  ghost predicate Head(V0: Vertices, R: int, s: State)
  {
    Inv(V0, R, s) && (s.booted ==> s.free == [] || s.ready == {})
  }

  /** The states satisfying the invariant. */
  ghost function InvStates(V0: Vertices, R: int): iset<State>
  {
    iset s | Inv(V0, R, s)
  }

  // ---------------------------------------------------------------------
  // Set-up and the bootstrapping event

  /** The state after set-up: all resources free in increasing order, the
      entry tasks ready, only the bootstrapping event pending, clock at 0. */
  ghost function Initial(V0: Vertices, R: int): State
  {
    State(V0, Range(R), Roots(V0), {Bootstrap}, 0, map[], {}, false, 0)
  }

  lemma InitialHead(V0: Vertices, R: int)
    requires forall k :: k in V0 ==> V0[k].id == k
    ensures Head(V0, R, Initial(V0, R))
  {
    var s := Initial(V0, R);
    forall k | k in V0 ensures s.vs[k] == V0[k].(preds := Remaining(V0, {}, k)) {
      assert Remaining(V0, {}, k) == V0[k].preds;
    }
    assert Completions(V0, map[], {}) == {};
    assert Running(s) == {};
    assert ReadyOk(V0, s);
  }

  /** Every completion event names its task. */
  lemma CompletionsHaveTasks(V0: Vertices, runs: map<int, Run>, done: set<int>)
    ensures forall x :: x in Completions(V0, runs, done) ==> x.task.Some?
  {
    forall x | x in Completions(V0, runs, done) ensures x.task.Some? {
      var t :| t in runs && t !in done && t in V0 && x == Completion(V0, runs, t);
    }
  }

  /** Before any dispatch there is no completion pending. */
  lemma NoRunsNoCompletions(V0: Vertices, done: set<int>)
    ensures Completions(V0, map[], done) == {}
  {
  }

  /** The state after the bootstrapping event `e` has been handled. */
  ghost function AfterBoot(s: State, e: Event): State
  {
    s.(events := s.events - {e}, time := e.time, booted := true)
  }

  /** The bootstrapping event is the only pending event until it is handled;
      handling it changes nothing but the flag and the clock (to 0). */
  lemma BootStep(V0: Vertices, R: int, s: State, e: Event)
    requires Head(V0, R, s) && e in s.events && e.task.None?
    ensures !s.booted && e == Bootstrap
    ensures Inv(V0, R, AfterBoot(s, e))
  {
    CompletionsHaveTasks(V0, s.runs, s.finished);
    assert e !in Completions(V0, s.runs, s.finished);
    NoRunsNoCompletions(V0, s.finished);
    var s' := AfterBoot(s, e);
    assert s'.events == {};
    assert Running(s') == Running(s);
  }

  // ---------------------------------------------------------------------
  // Handling a completion event

  /** What a completion event carries, and that the removal from the
      successors' predecessor sets is well defined. */
  lemma CompletionFacts(V0: Vertices, R: int, s: State, e: Event)
    requires SuccsMirrored(V0) && Head(V0, R, s) && e in s.events && e.task.Some?
    ensures s.booted
    ensures e.task.value in V0 && e.task.value in s.runs && e.task.value !in s.finished
    ensures e == Completion(V0, s.runs, e.task.value)
    ensures e.task.value in s.vs
    ensures forall x :: x in s.vs[e.task.value].succs ==> x in s.vs && e.task.value in s.vs[x].preds
  {
    assert e != Bootstrap;
    assert e in Completions(V0, s.runs, s.finished);
    var t :| t in s.runs && t !in s.finished && t in V0 && e == Completion(V0, s.runs, t);
    assert e.task.value == t;
    UnfinishedStillPrecedes(V0, s, t);
  }

  /** A task that has not finished is still a predecessor of each of its
      successors. */
  lemma UnfinishedStillPrecedes(V0: Vertices, s: State, t: int)
    requires SuccsMirrored(V0) && ShapeOk(V0, s) && t in V0 && t !in s.finished
    ensures forall x :: x in s.vs[t].succs ==> x in s.vs && t in s.vs[x].preds
  {
    forall x | x in s.vs[t].succs ensures x in s.vs && t in s.vs[x].preds {
      assert s.vs[t].succs == V0[t].succs;
      assert x in V0 && t in V0[x].preds;
      assert t !in (set u | u in s.finished && u in V0 && x in V0[u].succs);
    }
  }

  /** The state after the completion of `e`'s task has been handled. */
  ghost function AfterCompletion(s: State, e: Event): State
    requires e.task.Some? && e.task.value in s.vs && e.res.Some?
  {
    var t := e.task.value;
    State(RemovePredecessor(s.vs, t), s.free + [e.res.value], s.ready + NewlyReady(s.vs, t),
          s.events - {e}, e.time, s.runs, s.finished + {t}, s.booted, t)
  }

  lemma CompletionShape(V0: Vertices, s: State, e: Event)
    requires ShapeOk(V0, s) && e.task.Some? && e.res.Some?
    requires e.task.value in V0 && e.task.value in s.runs
    ensures ShapeOk(V0, AfterCompletion(s, e))
  {
    var t := e.task.value;
    var s' := AfterCompletion(s, e);
    forall k | k in V0 ensures s'.vs[k] == V0[k].(preds := Remaining(V0, s'.finished, k)) {
      var gone := set u | u in s.finished && u in V0 && k in V0[u].succs;
      var gone' := set u | u in s'.finished && u in V0 && k in V0[u].succs;
      assert s.vs[t].succs == V0[t].succs;
      if k in V0[t].succs {
        assert gone' == gone + {t};
      } else {
        assert gone' == gone;
      }
    }
  }

  lemma CompletionReady(V0: Vertices, s: State, e: Event)
    requires ShapeOk(V0, s) && ReadyOk(V0, s) && e.task.Some? && e.res.Some?
    requires e.task.value in V0 && e.task.value in s.runs
    requires forall x :: x in s.vs[e.task.value].succs ==> x in s.vs && e.task.value in s.vs[x].preds
    ensures ReadyOk(V0, AfterCompletion(s, e))
  {
    var t := e.task.value;
    var s' := AfterCompletion(s, e);
    forall k ensures k in s'.ready <==> k in s'.vs && k !in s'.runs && s'.vs[k].preds == {} {
      if k in s.vs && k in s.vs[t].succs {
        assert t in s.vs[k].preds;
        assert k !in s.runs;
        assert k !in s.ready;
      }
    }
  }

  lemma CompletionEvents(V0: Vertices, s: State, e: Event)
    requires EventsOk(V0, s) && s.booted && e.task.Some? && e.res.Some?
    requires e.task.value in V0 && e.task.value in s.runs && e.task.value in s.vs
    requires e == Completion(V0, s.runs, e.task.value)
    ensures EventsOk(V0, AfterCompletion(s, e))
  {
    var t := e.task.value;
    var s' := AfterCompletion(s, e);
    var B := Completions(V0, s.runs, s'.finished);
    forall x ensures x in s'.events <==> x in B {
      if x in s'.events {
        assert x in Completions(V0, s.runs, s.finished);
        var u :| u in s.runs && u !in s.finished && u in V0 && x == Completion(V0, s.runs, u);
        assert u != t;
      }
      if x in B {
        var u :| u in s.runs && u !in s'.finished && u in V0 && x == Completion(V0, s.runs, u);
        assert x in Completions(V0, s.runs, s.finished);
        assert x.task != e.task;
      }
    }
  }

  lemma CompletionResources(R: int, s: State, e: Event)
    requires ResourcesOk(R, s) && e.task.Some? && e.task.value in s.vs
    requires e.task.value in Running(s) && e.res == Some(s.runs[e.task.value].res)
    ensures ResourcesOk(R, AfterCompletion(s, e))
  {
    var t := e.task.value;
    var s' := AfterCompletion(s, e);
    var r := s.runs[t].res;
    assert e.res.value == r;
    assert t in Running(s);
    assert Running(s') == Running(s) - {t};
    assert r !in s.free;
    forall i, j | 0 <= i < j < |s'.free| ensures s'.free[i] != s'.free[j] {
      if j == |s.free| {
        assert s'.free[j] == r && s'.free[i] == s.free[i];
      } else {
        assert s'.free[i] == s.free[i] && s'.free[j] == s.free[j];
      }
    }
    forall u | u in Running(s') ensures s.runs[u].res !in s'.free {
      assert s.runs[u].res != r;
    }
  }

  lemma CompletionTiming(V0: Vertices, s: State, e: Event)
    requires TimingOk(V0, s) && e in s.events && e.task.Some? && e.task.value in s.vs
    requires e.task.value in V0 && e.task.value in s.runs
    requires e == Completion(V0, s.runs, e.task.value)
    requires forall x :: x in s.events ==> EventLe(e, x)
    requires NonNegativeLoads(V0)
    ensures TimingOk(V0, AfterCompletion(s, e))
  {
    var s' := AfterCompletion(s, e);
    assert s.time <= e.time;
    LeastEventIsEarliest(s.events, e);
  }

  /** Handling the least pending event when it is a completion keeps the
      invariant. */
  lemma CompletionStep(V0: Vertices, R: int, s: State, e: Event)
    requires SuccsMirrored(V0) && Head(V0, R, s) && e in s.events && e.task.Some?
    requires forall x :: x in s.events ==> EventLe(e, x)
    ensures s.booted && e.res.Some? && e.task.value in s.vs
    ensures forall x :: x in s.vs[e.task.value].succs ==> x in s.vs && e.task.value in s.vs[x].preds
    ensures Inv(V0, R, AfterCompletion(s, e))
  {
    CompletionFacts(V0, R, s, e);
    CompletionShape(V0, s, e);
    CompletionReady(V0, s, e);
    CompletionEvents(V0, s, e);
    CompletionResources(R, s, e);
    if NonNegativeLoads(V0) {
      CompletionTiming(V0, s, e);
    }
  }

  // ---------------------------------------------------------------------
  // Dispatching a task

  /** The state after ready task `t` is started now on the first free
      resource, its completion event pushed. */
  ghost function AfterDispatch(s: State, t: int): State
    requires s.free != [] && t in s.vs
  {
    var r := s.free[0];
    s.(free := s.free[1..], ready := s.ready - {t},
       events := s.events + {Event(s.time + s.vs[t].load, Some(s.vs[t].id), Some(r))},
       runs := s.runs[t := Run(s.time, r)])
  }

  /** Task `t` is in the table, with its original load and its id as key. */
  ghost predicate SameRecord(V0: Vertices, s: State, t: int)
  {
    t in V0 && t in s.vs && s.vs[t].load == V0[t].load && s.vs[t].id == t
  }

  /** The common premise of the dispatch lemmas. */
  ghost predicate Dispatching(V0: Vertices, R: int, s: State, t: int)
  {
    Inv(V0, R, s) && s.booted && s.free != [] && t in s.ready
  }

  /** The states in which ready task `t` can be dispatched. */
  ghost function DispatchStates(V0: Vertices, R: int, t: int): iset<State>
  {
    iset s | Dispatching(V0, R, s, t)
  }

  /** A ready task is an undispatched vertex without remaining predecessors,
      whose record agrees with the original but for its predecessors. */
  lemma ReadyFacts(V0: Vertices, R: int, s: State, t: int)
    requires s in DispatchStates(V0, R, t)
    ensures t in V0 && t in s.vs && t !in s.runs && t !in s.finished
    ensures s.vs[t].preds == {} && s.vs[t].load == V0[t].load && s.vs[t].id == t
    ensures forall u :: u in V0[t].preds ==> u in s.finished && u in V0
  {
    forall u | u in V0[t].preds ensures u in s.finished && u in V0 {
      assert u !in Remaining(V0, s.finished, t);
    }
  }

  lemma DispatchShape(V0: Vertices, s: State, t: int)
    requires ShapeOk(V0, s) && s.free != [] && t in V0 && s.vs[t].preds == {}
    requires SameRecord(V0, s, t)
    ensures ShapeOk(V0, AfterDispatch(s, t))
  {
  }

  lemma DispatchReady(V0: Vertices, s: State, t: int)
    requires ReadyOk(V0, s) && s.free != [] && t in V0 && t in s.ready
    requires SameRecord(V0, s, t)
    ensures ReadyOk(V0, AfterDispatch(s, t))
  {
    var s' := AfterDispatch(s, t);
    forall k ensures k in s'.ready <==> k in s'.vs && k !in s'.runs && s'.vs[k].preds == {} {
    }
  }

  lemma DispatchEvents(V0: Vertices, s: State, t: int)
    requires EventsOk(V0, s) && s.booted && s.free != [] && t in V0 && t !in s.runs && t !in s.finished
    requires SameRecord(V0, s, t)
    ensures EventsOk(V0, AfterDispatch(s, t))
  {
    var s' := AfterDispatch(s, t);
    var ev := Event(s.time + V0[t].load, Some(t), Some(s.free[0]));
    assert ev == Completion(V0, s'.runs, t);
    var A := Completions(V0, s.runs, s.finished);
    var B := Completions(V0, s'.runs, s.finished);
    forall x ensures x in B <==> x in A + {ev} {
      if x in B {
        var u :| u in s'.runs && u !in s.finished && u in V0 && x == Completion(V0, s'.runs, u);
        if u != t {
          assert x == Completion(V0, s.runs, u);
        }
      }
      if x in A {
        var u :| u in s.runs && u !in s.finished && u in V0 && x == Completion(V0, s.runs, u);
        assert x == Completion(V0, s'.runs, u);
      }
      if x == ev {
        assert t in s'.runs && t !in s.finished;
      }
    }
  }

  /** Popping the front of a list without repetitions. */
  lemma TailOfDistinct(free: seq<int>)
    requires Distinct(free) && free != []
    ensures Distinct(free[1..]) && free[0] !in free[1..]
    ensures forall x :: x in free[1..] ==> x in free
  {
    forall i, j | 0 <= i < j < |free[1..]| ensures free[1..][i] != free[1..][j] {
      assert free[1..][i] == free[i + 1] && free[1..][j] == free[j + 1];
    }
    forall i | 0 <= i < |free[1..]| ensures free[1..][i] != free[0] {
      assert free[1..][i] == free[i + 1];
    }
  }

  /** After a dispatch the free list is still without repetitions, in
      range, and the new run's resource is in range. */
  lemma DispatchFreeList(V0: Vertices, R: int, s: State, t: int)
    requires ResourcesOk(R, s) && s.free != [] && t in V0
    requires SameRecord(V0, s, t)
    ensures var s' := AfterDispatch(s, t);
      && Distinct(s'.free)
      && (forall i :: 0 <= i < |s'.free| ==> 0 <= s'.free[i] < R)
      && (forall u :: u in s'.runs ==> 0 <= s'.runs[u].res < R)
  {
    TailOfDistinct(s.free);
  }

  /** After a dispatch the running tasks hold distinct resources, none of
      them free, and free plus busy is unchanged. */
  lemma DispatchHeld(V0: Vertices, R: int, s: State, t: int)
    requires ResourcesOk(R, s) && s.free != [] && t in V0 && t !in s.runs && s.finished <= s.runs.Keys
    requires SameRecord(V0, s, t)
    ensures var s' := AfterDispatch(s, t);
      && (forall u :: u in Running(s') ==> s'.runs[u].res !in s'.free)
      && (forall a, b :: a in Running(s') && b in Running(s') && a != b ==> s'.runs[a].res != s'.runs[b].res)
      && |s'.free| + |Running(s')| == (if R < 0 then 0 else R)
  {
    var s' := AfterDispatch(s, t);
    TailOfDistinct(s.free);
    assert Running(s') == Running(s) + {t};
    assert t !in Running(s);
    forall u | u in Running(s') ensures s'.runs[u].res !in s'.free {
      if u != t {
        assert s'.runs[u] == s.runs[u];
      }
    }
    forall a, b | a in Running(s') && b in Running(s') && a != b ensures s'.runs[a].res != s'.runs[b].res {
      if a == t {
        assert s.runs[b].res !in s.free;
      } else if b == t {
        assert s.runs[a].res !in s.free;
      }
    }
  }

  lemma DispatchResources(V0: Vertices, R: int, s: State, t: int)
    requires ResourcesOk(R, s) && s.free != [] && t in V0 && t !in s.runs && s.finished <= s.runs.Keys
    requires SameRecord(V0, s, t)
    ensures ResourcesOk(R, AfterDispatch(s, t))
  {
    DispatchFreeList(V0, R, s, t);
    DispatchHeld(V0, R, s, t);
  }

  lemma DispatchTiming(V0: Vertices, s: State, t: int)
    requires TimingOk(V0, s) && NonNegativeLoads(V0) && s.free != [] && t in V0 && t !in s.runs
    requires s.finished <= s.runs.Keys
    requires forall u :: u in Running(s) ==> s.runs[u].res !in s.free
    requires forall u :: u in V0[t].preds ==> u in s.finished && u in V0
    requires SameRecord(V0, s, t)
    ensures TimingOk(V0, AfterDispatch(s, t))
  {
    var s' := AfterDispatch(s, t);
    var r := s.free[0];
    forall u | u in s.runs && u in V0 ensures End(V0, s'.runs, u) == End(V0, s.runs, u) {
    }
    forall v, u | v in s'.runs && v in V0 && u in V0[v].preds
      ensures u in s'.runs && u in V0 && End(V0, s'.runs, u) <= s'.runs[v].start
    {
      if v != t {
        assert u in s.runs;
      }
    }
    forall a, b | a in s'.runs && b in s'.runs && a in V0 && b in V0 && a != b && s'.runs[a].res == s'.runs[b].res
      ensures End(V0, s'.runs, a) <= s'.runs[b].start || End(V0, s'.runs, b) <= s'.runs[a].start
    {
      if a == t {
        assert b !in Running(s);
      } else if b == t {
        assert a !in Running(s);
      }
    }
  }

  /** Starting a ready task on the first free resource keeps the invariant. */
  lemma DispatchStep(V0: Vertices, R: int, s: State, t: int)
    requires s in DispatchStates(V0, R, t)
    ensures t in V0 && t in s.vs && t !in s.runs
    ensures s.vs[t].load == V0[t].load && s.vs[t].id == t
    ensures AfterDispatch(s, t) in InvStates(V0, R)
  {
    ReadyFacts(V0, R, s, t);
    DispatchKeepsTable(V0, R, s, t);
    DispatchKeepsClock(V0, R, s, t);
  }

  /** A dispatch keeps the table, the ready queue and the event queue
      consistent. */
  lemma DispatchKeepsTable(V0: Vertices, R: int, s: State, t: int)
    requires s in DispatchStates(V0, R, t)
    ensures ShapeOk(V0, AfterDispatch(s, t)) && ReadyOk(V0, AfterDispatch(s, t))
    ensures EventsOk(V0, AfterDispatch(s, t))
  {
    ReadyFacts(V0, R, s, t);
    DispatchShape(V0, s, t);
    DispatchReady(V0, s, t);
    DispatchEvents(V0, s, t);
  }

  /** A dispatch keeps the resources and the timing consistent. */
  lemma DispatchKeepsClock(V0: Vertices, R: int, s: State, t: int)
    requires s in DispatchStates(V0, R, t)
    ensures ResourcesOk(R, AfterDispatch(s, t))
    ensures NonNegativeLoads(V0) ==> TimingOk(V0, AfterDispatch(s, t))
  {
    ReadyFacts(V0, R, s, t);
    DispatchResources(V0, R, s, t);
    if NonNegativeLoads(V0) {
      DispatchTiming(V0, s, t);
    }
  }

  // ---------------------------------------------------------------------
  // The end of the run

  /** The makespan is the latest completion time of the dispatched tasks
      (zero when none ran), and no dispatched task started before time 0. */
  ghost predicate IsMakespan(V0: Vertices, runs: map<int, Run>, makespan: int)
  {
    && makespan >= 0
    && (forall t :: t in runs && t in V0 ==> 0 <= runs[t].start && End(V0, runs, t) <= makespan)
    && (runs == map[] ==> makespan == 0)
    && (runs != map[] ==> exists t :: t in runs && t in V0 && End(V0, runs, t) == makespan)
  }

  /** Every running task has its completion event pending. */
  lemma RunningHaveEvents(V0: Vertices, s: State)
    requires EventsOk(V0, s) && s.runs.Keys <= V0.Keys
    ensures forall t :: t in Running(s) ==> Completion(V0, s.runs, t) in s.events
  {
    forall t | t in Running(s) ensures Completion(V0, s.runs, t) in s.events {
      assert Completion(V0, s.runs, t) in Completions(V0, s.runs, s.finished);
    }
  }

  /** Once the event queue is empty, the bootstrapping event has been handled
      and every dispatched task has completed. */
  lemma DrainedQueue(V0: Vertices, s: State)
    requires EventsOk(V0, s) && s.finished <= s.runs.Keys <= V0.Keys && s.events == {}
    ensures s.booted && s.finished == s.runs.Keys && Running(s) == {}
  {
    assert Completions(V0, s.runs, s.finished) == {} && (if s.booted then {} else {Bootstrap}) == {};
    forall t | t in s.runs.Keys ensures t in s.finished {
      assert Completion(V0, s.runs, t) !in Completions(V0, s.runs, s.finished);
    }
  }

  /** When the run ends with no task pending, the clock reads the makespan. */
  lemma FinalTiming(V0: Vertices, s: State)
    requires EventsOk(V0, s) && TimingOk(V0, s) && s.finished <= s.runs.Keys <= V0.Keys && s.events == {}
    requires s.finished == {} ==> s.time == 0
    ensures Precedence(V0, s.runs) && Exclusive(V0, s.runs)
    ensures IsMakespan(V0, s.runs, s.time)
  {
    DrainedQueue(V0, s);
    if s.runs != map[] {
      assert s.finished != {};
      assert s.last in s.runs && s.last in V0 && End(V0, s.runs, s.last) == s.time;
    }
  }

  /** With at least one resource and an acyclic graph whose predecessor
      edges are mirrored, the run dispatches every task. */
  lemma AllDispatched(V0: Vertices, R: int, s: State)
    requires Head(V0, R, s) && s.events == {}
    requires R >= 1 && PredsMirrored(V0) && Acyclic(V0)
    ensures s.runs.Keys == V0.Keys
  {
    DrainedQueue(V0, s);
    assert s.free != [];
    IdleMeansReady(V0, s);
  }

  /** While some task has not been dispatched although everything dispatched
      has completed, some task is ready. */
  lemma IdleMeansReady(V0: Vertices, s: State)
    requires ShapeOk(V0, s) && ReadyOk(V0, s) && s.finished == s.runs.Keys
    requires PredsMirrored(V0) && Acyclic(V0)
    ensures V0.Keys - s.runs.Keys != {} ==> s.ready != {}
  {
    var idle := V0.Keys - s.runs.Keys;
    if idle != {} {
      var rank :| IsRanking(V0, rank);
      assert forall x :: x in idle ==> x in rank;
      var m := MinimalByRank(idle, rank);
      NoneLeftBelow(V0, s, rank, m);
      assert m in s.ready;
    }
  }

  /** An undispatched task of least rank has no predecessor left: every
      predecessor has a smaller rank, so it ran and completed. */
  lemma NoneLeftBelow(V0: Vertices, s: State, rank: map<int, nat>, m: int)
    requires ShapeOk(V0, s) && s.finished == s.runs.Keys && PredsMirrored(V0) && IsRanking(V0, rank)
    requires m in V0 && m !in s.runs
    requires forall x :: x in V0.Keys - s.runs.Keys ==> rank[m] <= rank[x]
    ensures s.vs[m].preds == {}
  {
    forall u | u in V0[m].preds ensures u !in Remaining(V0, s.finished, m) {
      assert u in V0 && rank[u] < rank[m];
      assert u in s.runs;
      assert m in V0[u].succs;
    }
    assert Remaining(V0, s.finished, m) == {};
  }

  /** Once every task has completed on a graph whose predecessor edges are
      mirrored, no predecessor is recorded anywhere. */
  lemma AllDrained(V0: Vertices, s: State)
    requires ShapeOk(V0, s) && PredsMirrored(V0) && s.finished == V0.Keys
    ensures forall k :: k in s.vs ==> s.vs[k].preds == {}
  {
    forall k | k in s.vs ensures s.vs[k].preds == {} {
      forall u | u in V0[k].preds ensures u !in Remaining(V0, s.finished, k) {
        assert u in V0 && k in V0[u].succs;
      }
      assert Remaining(V0, s.finished, k) == {};
    }
  }

  // ---------------------------------------------------------------------
  // The engine's log

  /** One entry of the log of a run: task `task` started at `time` on
      resource `res`, or the completion of `task` on `res` handled at
      `time`. */
  datatype Step = Start(time: int, task: int, res: int) | Finish(time: int, task: int, res: int)

  /** The tasks a log has started. */
  ghost function Started(log: seq<Step>): set<int>
    decreases |log|
  {
    if log == [] then {}
    else Started(log[..|log| - 1]) + (if log[|log| - 1].Start? then {log[|log| - 1].task} else {})
  }

  /** The tasks whose completion a log has handled. */
  ghost function Finished(log: seq<Step>): set<int>
    decreases |log|
  {
    if log == [] then {}
    else Finished(log[..|log| - 1]) + (if log[|log| - 1].Finish? then {log[|log| - 1].task} else {})
  }

  /** The free-resource list after a log: all `R` resources in increasing
      order at first; a start takes the first one, a completion appends its
      resource at the end. */
  ghost function FreeAfter(R: int, log: seq<Step>): seq<int>
    decreases |log|
  {
    if log == [] then Range(R)
    else
      var free := FreeAfter(R, log[..|log| - 1]);
      match log[|log| - 1]
      case Start(_, _, _) => if free == [] then [] else free[1..]
      case Finish(_, _, r) => free + [r]
  }

  /** The clock after a log: the time of the last completion handled, or 0
      (the time of the bootstrapping event) before any. */
  ghost function ClockAfter(log: seq<Step>): int
    decreases |log|
  {
    if log == [] then 0
    else if log[|log| - 1].Finish? then log[|log| - 1].time
    else ClockAfter(log[..|log| - 1])
  }

  /** The ready tasks after a log: the tasks not yet started whose recorded
      predecessors have all been removed by the completions handled so far. */
  ghost function ReadyAfter(V0: Vertices, log: seq<Step>): set<int>
  {
    set k | k in V0 && k !in Started(log) && Remaining(V0, Finished(log), k) == {}
  }

  /** `step` is a move the engine makes after the steps `before`, on the
      table `V0` with `R` resources, where `runs` is the final schedule.
      - A start happens at the current clock; it takes the first free
        resource and a ready task that no ready task is `Less` than, and the
        task runs from then on that resource.
      - The engine handles a completion only when no resource is free or no
        task is ready; the completed task is running, the completion happens
        at its end time on its resource, no running task ends earlier, and
        (with no negative load) the clock does not run back. */
  ghost predicate StepOk(V0: Vertices, R: int, runs: map<int, Run>, before: seq<Step>, step: Step)
  {
    var free := FreeAfter(R, before);
    var ready := ReadyAfter(V0, before);
    match step
    case Start(time, t, r) =>
      && time == ClockAfter(before)
      && free != [] && r == free[0]
      && t in ready && t in V0 && (forall u :: u in ready && u in V0 ==> !Less(V0[u], V0[t]))
      && t in runs && runs[t] == Run(time, r)
    case Finish(time, t, r) =>
      && (free == [] || ready == {})
      && t in Started(before) && t !in Finished(before)
      && t in runs && t in V0 && time == End(V0, runs, t) && r == runs[t].res
      && (forall u :: u in Started(before) && u !in Finished(before) && u in runs && u in V0 ==>
            time <= End(V0, runs, u))
      && (NonNegativeLoads(V0) ==> ClockAfter(before) <= time)
  }

  /** Every step of the log is a move of the engine after the steps before
      it. */
  ghost predicate StepsOk(V0: Vertices, R: int, runs: map<int, Run>, log: seq<Step>)
  {
    forall i :: 0 <= i < |log| ==> StepOk(V0, R, runs, log[..i], log[i])
  }

  /** The log `log` describes the list schedule `runs`: every step is a
      move of the engine, and the started tasks are the dispatched ones. */
  ghost predicate FollowsRules(V0: Vertices, R: int, runs: map<int, Run>, log: seq<Step>)
  {
    Started(log) == runs.Keys && StepsOk(V0, R, runs, log)
  }

  /** The log of the run so far agrees with the engine state `s`. */
  ghost predicate Logged(V0: Vertices, R: int, s: State, log: seq<Step>)
  {
    && FollowsRules(V0, R, s.runs, log) && Finished(log) == s.finished && FreeAfter(R, log) == s.free
    && ClockAfter(log) == s.time
  }

  /** The logs agreeing with `s`. */
  ghost function Logs(V0: Vertices, R: int, s: State): iset<seq<Step>>
  {
    iset log | Logged(V0, R, s, log)
  }

  /** Appending a step: how the started and finished tasks and the free list
      move on. */
  lemma AppendStep(R: int, log: seq<Step>, x: Step)
    ensures Started(log + [x]) == Started(log) + (if x.Start? then {x.task} else {})
    ensures Finished(log + [x]) == Finished(log) + (if x.Finish? then {x.task} else {})
    ensures x.Start? && FreeAfter(R, log) != [] ==> FreeAfter(R, log + [x]) == FreeAfter(R, log)[1..]
    ensures x.Finish? ==> FreeAfter(R, log + [x]) == FreeAfter(R, log) + [x.res]
    ensures ClockAfter(log + [x]) == if x.Finish? then x.time else ClockAfter(log)
  {
    assert (log + [x])[..|log|] == log;
  }

  /** A step stays a move of the engine when the schedule only gains runs. */
  lemma StepOkGrows(V0: Vertices, R: int, runs: map<int, Run>, runs': map<int, Run>, before: seq<Step>, step: Step)
    requires StepOk(V0, R, runs, before, step) && Started(before) <= runs.Keys
    requires forall k :: k in runs ==> k in runs' && runs'[k] == runs[k]
    ensures StepOk(V0, R, runs', before, step)
  {
  }

  /** A prefix of a log has started no task that the log has not. */
  lemma StartedGrows(log: seq<Step>, i: int)
    requires 0 <= i <= |log|
    ensures Started(log[..i]) <= Started(log)
  {
    forall u | u in Started(log[..i]) ensures u in Started(log) {
      var k := StartedAt(log[..i], u);
      assert log[..i][k] == log[k];
      StepRecorded(log, k, |log|);
      assert log[..|log|] == log;
    }
  }

  /** A log that is followed by one more move of the engine stays a log of
      moves, even when the schedule gains runs. */
  lemma StepsExtend(V0: Vertices, R: int, runs: map<int, Run>, runs': map<int, Run>, log: seq<Step>, x: Step)
    requires StepsOk(V0, R, runs, log) && Started(log) <= runs.Keys
    requires forall k :: k in runs ==> k in runs' && runs'[k] == runs[k]
    requires StepOk(V0, R, runs', log, x)
    ensures StepsOk(V0, R, runs', log + [x])
  {
    var log' := log + [x];
    forall i | 0 <= i < |log'| ensures StepOk(V0, R, runs', log'[..i], log'[i]) {
      if i < |log| {
        assert log'[..i] == log[..i] && log'[i] == log[i];
        StartedGrows(log, i);
        StepOkGrows(V0, R, runs, runs', log[..i], log[i]);
      } else {
        assert log'[..i] == log;
      }
    }
  }

  /** A task started or finished at step `i` stays started or finished in
      every longer prefix of the log. */
  lemma {:induction false} StepRecorded(log: seq<Step>, i: int, j: int)
    requires 0 <= i < j <= |log|
    ensures log[i].Start? ==> log[i].task in Started(log[..j])
    ensures log[i].Finish? ==> log[i].task in Finished(log[..j])
    decreases j
  {
    assert log[..j][..j - 1] == log[..j - 1];
    if j > i + 1 {
      StepRecorded(log, i, j - 1);
    }
  }

  /** In a log of moves each task is started at most once and its completion
      handled at most once, and only after it started. */
  lemma EachTaskOnce(V0: Vertices, R: int, runs: map<int, Run>, log: seq<Step>)
    requires StepsOk(V0, R, runs, log)
    ensures forall i, j :: 0 <= i < j < |log| && log[i].Start? && log[j].Start? ==> log[i].task != log[j].task
    ensures forall i, j :: 0 <= i < j < |log| && log[i].Finish? && log[j].Finish? ==> log[i].task != log[j].task
    ensures forall j :: 0 <= j < |log| && log[j].Finish? ==>
              exists i :: 0 <= i < j && log[i].Start? && log[i].task == log[j].task
  {
    forall i, j | 0 <= i < j < |log| && log[i].Start? && log[j].Start? ensures log[i].task != log[j].task {
      assert StepOk(V0, R, runs, log[..j], log[j]);
      StepRecorded(log, i, j);
    }
    forall i, j | 0 <= i < j < |log| && log[i].Finish? && log[j].Finish? ensures log[i].task != log[j].task {
      assert StepOk(V0, R, runs, log[..j], log[j]);
      StepRecorded(log, i, j);
    }
    forall j | 0 <= j < |log| && log[j].Finish?
      ensures exists i :: 0 <= i < j && log[i].Start? && log[i].task == log[j].task
    {
      assert StepOk(V0, R, runs, log[..j], log[j]);
      var i := StartedAt(log[..j], log[j].task);
      assert log[..j][i] == log[i];
    }
  }

  /** The clock after a log is 0 or the time of a completion in it. */
  lemma {:induction false} ClockIsCompletionTime(log: seq<Step>)
    ensures ClockAfter(log) == 0
            || exists j :: 0 <= j < |log| && log[j].Finish? && log[j].time == ClockAfter(log)
    decreases |log|
  {
    if log != [] && !log[|log| - 1].Finish? {
      var last := |log| - 1;
      ClockIsCompletionTime(log[..last]);
      if ClockAfter(log[..last]) != 0 {
        var j :| 0 <= j < last && log[..last][j].Finish? && log[..last][j].time == ClockAfter(log[..last]);
        assert log[..last][j] == log[j];
      }
    }
  }

  /** In a log of moves the first step is a start at time 0, and every start
      happens at time 0 or at the time of an earlier completion: the engine
      never starts a task at an instant when nothing happened. */
  lemma StartsAtEventTimes(V0: Vertices, R: int, runs: map<int, Run>, log: seq<Step>)
    requires StepsOk(V0, R, runs, log)
    ensures |log| > 0 ==> log[0].Start? && log[0].time == 0
    ensures forall i :: 0 <= i < |log| && log[i].Start? ==>
              log[i].time == 0 || exists j :: 0 <= j < i && log[j].Finish? && log[j].time == log[i].time
  {
    if |log| > 0 {
      assert log[..0] == [];
      assert StepOk(V0, R, runs, log[..0], log[0]);
    }
    forall i | 0 <= i < |log| && log[i].Start?
      ensures log[i].time == 0 || exists j :: 0 <= j < i && log[j].Finish? && log[j].time == log[i].time
    {
      assert StepOk(V0, R, runs, log[..i], log[i]);
      ClockIsCompletionTime(log[..i]);
      if log[i].time != 0 {
        var j :| 0 <= j < i && log[..i][j].Finish? && log[..i][j].time == ClockAfter(log[..i]);
        assert log[..i][j] == log[j];
      }
    }
  }

  /** A started task has a start step in the log. */
  lemma {:induction false} StartedAt(log: seq<Step>, t: int) returns (i: int)
    requires t in Started(log)
    ensures 0 <= i < |log| && log[i].Start? && log[i].task == t
    decreases |log|
  {
    var last := |log| - 1;
    if log[last].Start? && log[last].task == t {
      i := last;
    } else {
      i := StartedAt(log[..last], t);
      assert log[..last][i] == log[i];
    }
  }

  /** The ready set the log determines is the engine's ready queue. */
  lemma ReadyAfterIsReady(V0: Vertices, R: int, s: State, log: seq<Step>)
    requires s in InvStates(V0, R) && log in Logs(V0, R, s)
    ensures ReadyAfter(V0, log) == s.ready
  {
    forall k ensures k in ReadyAfter(V0, log) <==> k in s.ready {
      if k in V0 {
        assert s.vs[k].preds == Remaining(V0, s.finished, k);
      }
    }
  }

  /** Before any step the log is empty. */
  lemma LogStart(V0: Vertices, R: int)
    ensures [] in Logs(V0, R, Initial(V0, R))
  {
  }

  /** The bootstrapping event adds nothing to the log. */
  lemma LogBoot(V0: Vertices, R: int, s: State, e: Event, log: seq<Step>)
    requires s in HeadStates(V0, R) && e in s.events && e.task.None?
    requires log in Logs(V0, R, s)
    ensures log in Logs(V0, R, AfterBoot(s, e))
  {
    BootStep(V0, R, s, e);
    LogIn(V0, R, AfterBoot(s, e), log);
  }

  /** The earliest completion of a running task, handled while no resource
      is free or no task is ready, extends a log of the run and moves its
      clock to the completion time. */
  lemma LogFinish(V0: Vertices, R: int, runs: map<int, Run>, finished: set<int>, free: seq<int>,
                  ready: set<int>, log: seq<Step>, x: Step)
    requires FollowsRules(V0, R, runs, log) && Finished(log) == finished && FreeAfter(R, log) == free
    requires ReadyAfter(V0, log) == ready && (free == [] || ready == {})
    requires x.Finish? && x.task in runs && x.task !in finished && x.task in V0
    requires x.time == End(V0, runs, x.task) && x.res == runs[x.task].res
    requires forall u :: u in runs && u !in finished && u in V0 ==> x.time <= End(V0, runs, u)
    requires NonNegativeLoads(V0) ==> ClockAfter(log) <= x.time
    ensures FollowsRules(V0, R, runs, log + [x])
    ensures Finished(log + [x]) == finished + {x.task} && FreeAfter(R, log + [x]) == free + [x.res]
    ensures ClockAfter(log + [x]) == x.time
  {
    AppendStep(R, log, x);
    assert StepOk(V0, R, runs, log, x);
    StepsExtend(V0, R, runs, runs, log, x);
  }

  /** Starting now a ready task that no ready task is `Less` than, on the
      first free resource, extends a log of the run by the new run. */
  lemma LogStartTask(V0: Vertices, R: int, runs: map<int, Run>, finished: set<int>, free: seq<int>,
                     ready: set<int>, log: seq<Step>, x: Step)
    requires FollowsRules(V0, R, runs, log) && Finished(log) == finished && FreeAfter(R, log) == free
    requires ReadyAfter(V0, log) == ready && free != [] && x.time == ClockAfter(log)
    requires x.Start? && x.task in ready && x.task in V0 && x.task !in runs && x.res == free[0]
    requires forall u :: u in ready && u in V0 ==> !Less(V0[u], V0[x.task])
    ensures FollowsRules(V0, R, runs[x.task := Run(x.time, x.res)], log + [x])
    ensures Finished(log + [x]) == finished && FreeAfter(R, log + [x]) == free[1..]
    ensures ClockAfter(log + [x]) == ClockAfter(log)
  {
    var runs' := runs[x.task := Run(x.time, x.res)];
    AppendStep(R, log, x);
    assert StepOk(V0, R, runs', log, x);
    StepsExtend(V0, R, runs, runs', log, x);
  }

  /** Handling the completion `e` at the head of the main loop extends the
      log: no resource is free or no task is ready at that point. */
  lemma LogCompletion(V0: Vertices, R: int, s: State, e: Event, log: seq<Step>)
    requires SuccsMirrored(V0) && s in HeadStates(V0, R) && e in s.events && e.task.Some?
    requires forall x :: x in s.events ==> EventLe(e, x)
    requires log in Logs(V0, R, s)
    ensures e.task.value in s.vs && e.res.Some?
    ensures log + [Finish(e.time, e.task.value, e.res.value)] in Logs(V0, R, AfterCompletion(s, e))
  {
    CompletionFacts(V0, R, s, e);
    ReadyAfterIsReady(V0, R, s, log);
    EarliestCompletion(V0, R, s, e);
    if NonNegativeLoads(V0) {
      ClockNeverRunsBack(V0, R, s, e);
    }
    var x := Finish(e.time, e.task.value, e.res.value);
    LogFinish(V0, R, s.runs, s.finished, s.free, s.ready, log, x);
    LogIn(V0, R, AfterCompletion(s, e), log + [x]);
  }

  /** The least pending event is the completion of a running task that
      ends no later than any other running task. */
  lemma EarliestCompletion(V0: Vertices, R: int, s: State, e: Event)
    requires SuccsMirrored(V0) && s in HeadStates(V0, R) && e in s.events && e.task.Some?
    requires forall x :: x in s.events ==> EventLe(e, x)
    ensures forall u :: u in s.runs && u !in s.finished && u in V0 ==> e.time <= End(V0, s.runs, u)
  {
    CompletionFacts(V0, R, s, e);
    LeastEventIsEarliest(s.events, e);
    forall u | u in s.runs && u !in s.finished && u in V0 ensures e.time <= End(V0, s.runs, u) {
      assert Completion(V0, s.runs, u) in s.events;
    }
  }

  /** Dispatching a ready task that no ready task is `Less` than, on the
      first free resource, extends the log. */
  lemma LogDispatch(V0: Vertices, R: int, s: State, t: int, runs0: map<int, Run>, events0: set<Event>,
                    log: seq<Step>)
    requires s in RoundStates(V0, R, runs0, events0) && s.free != [] && t in s.ready && t in s.vs
    requires forall u :: u in s.ready && u in s.vs ==> !Less(s.vs[u], s.vs[t])
    requires log in Logs(V0, R, s)
    ensures log + [Start(s.time, t, s.free[0])] in Logs(V0, R, AfterDispatch(s, t))
  {
    assert s in DispatchStates(V0, R, t);
    ReadyFacts(V0, R, s, t);
    ReadyAfterIsReady(V0, R, s, log);
    SamePriorities(V0, R, s, t);
    var x := Start(s.time, t, s.free[0]);
    LogStartTask(V0, R, s.runs, s.finished, s.free, s.ready, log, x);
    LogIn(V0, R, AfterDispatch(s, t), log + [x]);
  }

  /** A log that agrees with a state is one of its logs. */
  lemma LogIn(V0: Vertices, R: int, s: State, log: seq<Step>)
    requires FollowsRules(V0, R, s.runs, log) && Finished(log) == s.finished && FreeAfter(R, log) == s.free
    requires ClockAfter(log) == s.time
    ensures log in Logs(V0, R, s)
  {
  }

  /** The engine's table keeps the original priorities. */
  lemma SamePriorities(V0: Vertices, R: int, s: State, t: int)
    requires s in InvStates(V0, R) && t in V0 && t in s.vs
    requires forall u :: u in s.ready && u in s.vs ==> !Less(s.vs[u], s.vs[t])
    ensures forall u :: u in s.ready && u in V0 ==> !Less(V0[u], V0[t])
  {
    forall u | u in s.ready && u in V0 ensures !Less(V0[u], V0[t]) {
      assert s.vs[u].priority == V0[u].priority;
    }
  }

  /** When the event queue is empty, no resource is free or no task is
      ready. */
  lemma LogEnd(V0: Vertices, R: int, s: State, log: seq<Step>)
    requires s in HeadStates(V0, R) && s.events == {} && log in Logs(V0, R, s)
    ensures FollowsRules(V0, R, s.runs, log) && ClockAfter(log) == s.time
    ensures FreeAfter(R, log) == [] || ReadyAfter(V0, log) == {}
  {
    ReadyAfterIsReady(V0, R, s, log);
  }

  // ---------------------------------------------------------------------
  // The engine's loops

  /** The states the engine can be in at the head of its main loop. */
  ghost function HeadStates(V0: Vertices, R: int): iset<State>
  {
    iset s | Head(V0, R, s)
  }

  /** The invariant of the dispatch loop: the engine invariant after the
      bootstrapping event, and progress since the start of this round of the
      main loop (`runs0`, `events0`): no dispatch undone, and an event fewer
      unless something was dispatched. */
  ghost predicate DispatchLoop(V0: Vertices, R: int, s: State, runs0: map<int, Run>, events0: set<Event>)
  {
    && Inv(V0, R, s) && s.booted
    && runs0.Keys <= s.runs.Keys
    && (s.runs.Keys == runs0.Keys ==> |s.events| < |events0|)
  }

  /** The states the dispatch loop can be in during a round that began with
      the dispatches `runs0` and the event queue `events0`. */
  ghost function RoundStates(V0: Vertices, R: int, runs0: map<int, Run>, events0: set<Event>): iset<State>
  {
    iset s | DispatchLoop(V0, R, s, runs0, events0)
  }

  /** The engine's own variables hold what the state `s` records. */
  ghost predicate Mirrors(s: State, vs: Vertices, free: seq<int>, ready: set<int>, events: set<Event>, time: int)
  {
    s.vs == vs && s.free == free && s.ready == ready && s.events == events && s.time == time
  }

  /** With no negative load, no pending event lies before the clock, so the
      times of the popped events never decrease. */
  lemma ClockNeverRunsBack(V0: Vertices, R: int, s: State, e: Event)
    requires s in HeadStates(V0, R) && NonNegativeLoads(V0) && e in s.events
    ensures s.time <= e.time
  {
  }

  /** The set-up of `simulate` yields a state at the head of the main loop. */
  lemma SetUp(V0: Vertices, R: int, ready: set<int>)
    requires forall k :: k in V0 ==> V0[k].id == k
    requires ready == Roots(V0)
    ensures Initial(V0, R) in HeadStates(V0, R)
    ensures Mirrors(Initial(V0, R), V0, Range(R), ready, {Bootstrap}, 0)
  {
    InitialHead(V0, R);
  }

  /** Handling the bootstrapping event `e`, popped from `events` leaving
      `rest`, starts a round. */
  lemma BootRound(V0: Vertices, R: int, s: State, e: Event,
                  vs: Vertices, free: seq<int>, ready: set<int>, events: set<Event>, time: int, rest: set<Event>)
    requires s in HeadStates(V0, R) && Mirrors(s, vs, free, ready, events, time)
    requires e in events && e.task.None? && rest == events - {e}
    ensures AfterBoot(s, e) in RoundStates(V0, R, s.runs, events)
    ensures Mirrors(AfterBoot(s, e), vs, free, ready, rest, e.time)
  {
    BootStep(V0, R, s, e);
  }

  /** Handling the completion `e`, the least pending event, starts a round. */
  lemma CompletionInRound(V0: Vertices, R: int, s: State, e: Event)
    requires SuccsMirrored(V0) && s in HeadStates(V0, R) && e in s.events && e.task.Some?
    requires forall x :: x in s.events ==> EventLe(e, x)
    ensures e.res.Some? && e.task.value in s.vs
    ensures forall x :: x in s.vs[e.task.value].succs ==> x in s.vs && e.task.value in s.vs[x].preds
    ensures AfterCompletion(s, e) in RoundStates(V0, R, s.runs, s.events)
  {
    CompletionStep(V0, R, s, e);
  }

  /** The engine's variables after a completion: the task's successors lose
      it as a predecessor, those left without one join the ready queue, and
      its resource is appended to the free list. */
  lemma CompletionMirrors(s: State, e: Event,
                          vs: Vertices, free: seq<int>, ready: set<int>, events: set<Event>, time: int, rest: set<Event>)
    requires Mirrors(s, vs, free, ready, events, time)
    requires e.task.Some? && e.task.value in vs && e.res.Some? && rest == events - {e}
    ensures Mirrors(AfterCompletion(s, e), RemovePredecessor(vs, e.task.value), free + [e.res.value],
                    ready + NewlyReady(vs, e.task.value), rest, e.time)
  {
  }

  /** Handling the completion `e`, the least of `events`, leaving `rest`,
      starts a round; stated on the values the engine holds. */
  lemma CompletionRound(V0: Vertices, R: int, s: State, e: Event,
                        vs: Vertices, free: seq<int>, ready: set<int>, events: set<Event>, time: int, rest: set<Event>)
    requires SuccsMirrored(V0) && s in HeadStates(V0, R) && Mirrors(s, vs, free, ready, events, time)
    requires e in events && e.task.Some? && rest == events - {e}
    requires forall x :: x in events ==> EventLe(e, x)
    ensures e.res.Some? && e.task.value in vs
    ensures forall x :: x in vs[e.task.value].succs ==> x in vs && e.task.value in vs[x].preds
    ensures AfterCompletion(s, e) in RoundStates(V0, R, s.runs, events)
    ensures Mirrors(AfterCompletion(s, e), RemovePredecessor(vs, e.task.value), free + [e.res.value],
                    ready + NewlyReady(vs, e.task.value), rest, e.time)
  {
    CompletionInRound(V0, R, s, e);
    CompletionMirrors(s, e, vs, free, ready, events, time, rest);
  }

  /** The ready queue mirrored in `ready` lists only tasks of the table. */
  lemma ReadyInTable(V0: Vertices, R: int, s: State, runs0: map<int, Run>, events0: set<Event>,
                     vs: Vertices, ready: set<int>)
    requires s in RoundStates(V0, R, runs0, events0) && s.vs == vs && s.ready == ready
    ensures ready <= vs.Keys
  {
  }

  /** Dispatching ready task `t` keeps the state within the round. */
  lemma DispatchInRound(V0: Vertices, R: int, s: State, t: int, runs0: map<int, Run>, events0: set<Event>)
    requires s in RoundStates(V0, R, runs0, events0) && s.free != [] && t in s.ready
    ensures AfterDispatch(s, t) in RoundStates(V0, R, runs0, events0)
  {
    DispatchStep(V0, R, s, t);
    DispatchAddsRun(s, t, runs0.Keys);
    StillInRound(V0, R, AfterDispatch(s, t), runs0, events0, t);
  }

  /** A dispatch adds `t`, not dispatched before, to the dispatched tasks. */
  lemma DispatchAddsRun(s: State, t: int, before: set<int>)
    requires s.free != [] && t in s.vs && t !in s.runs && before <= s.runs.Keys
    ensures t in AfterDispatch(s, t).runs && t !in before && before <= AfterDispatch(s, t).runs.Keys
  {
  }

  /** A state satisfying the invariant, with a task dispatched since the
      round began, belongs to the round. */
  lemma StillInRound(V0: Vertices, R: int, s: State, runs0: map<int, Run>, events0: set<Event>, t: int)
    requires s in InvStates(V0, R) && s.booted
    requires runs0.Keys <= s.runs.Keys && t in s.runs && t !in runs0
    ensures s in RoundStates(V0, R, runs0, events0)
  {
  }

  /** The engine's variables after a dispatch: the first free resource
      `free[0]` goes to task `t`, whose completion `e` at `time + vs[t].load`
      joins the event queue. */
  lemma DispatchMirrors(s: State, t: int,
                        vs: Vertices, free: seq<int>, ready: set<int>, events: set<Event>, time: int,
                        endTime: int, id: int, res: int)
    requires Mirrors(s, vs, free, ready, events, time) && free != [] && t in vs
    requires endTime == time + vs[t].load && id == vs[t].id && res == free[0]
    ensures Mirrors(AfterDispatch(s, t), vs, free[1..], ready - {t}, events + {Event(endTime, Some(id), Some(res))}, time)
  {
  }

  /** One dispatch, stated on the values the engine holds. */
  lemma DispatchLoopStep(V0: Vertices, R: int, s: State, t: int, runs0: map<int, Run>, events0: set<Event>,
                         vs: Vertices, free: seq<int>, ready: set<int>, events: set<Event>, time: int,
                         endTime: int, id: int, res: int)
    requires s in RoundStates(V0, R, runs0, events0) && Mirrors(s, vs, free, ready, events, time)
    requires free != [] && t in ready && t in vs
    requires endTime == time + vs[t].load && id == vs[t].id && res == free[0]
    ensures AfterDispatch(s, t) in RoundStates(V0, R, runs0, events0)
    ensures Mirrors(AfterDispatch(s, t), vs, free[1..], ready - {t}, events + {Event(endTime, Some(id), Some(res))}, time)
  {
    DispatchInRound(V0, R, s, t, runs0, events0);
    DispatchMirrors(s, t, vs, free, ready, events, time, endTime, id, res);
  }

  /** One round of the main loop either dispatched a task or consumed an
      event. */
  lemma RoundProgress(all: set<int>, before: set<int>, after: set<int>, pending0: int, pending: int)
    requires before <= after <= all
    requires after == before ==> pending < pending0
    ensures |all - after| < |all - before| || (|all - after| == |all - before| && pending < pending0)
  {
    if after != before {
      assert after == before + (after - before);
      var t := Pick(after - before);
      assert all - after < all - before by {
        assert t in all - before && t !in all - after;
      }
    }
  }

  /** A round ends, back at the head of the main loop, once no resource is
      free or no task is ready; it made progress. */
  lemma EndRound(V0: Vertices, R: int, s: State, runs0: map<int, Run>, events0: set<Event>)
    requires s in RoundStates(V0, R, runs0, events0) && (s.free == [] || s.ready == {})
    ensures s in HeadStates(V0, R)
    ensures |V0.Keys - s.runs.Keys| < |V0.Keys - runs0.Keys|
            || (|V0.Keys - s.runs.Keys| == |V0.Keys - runs0.Keys| && |s.events| < |events0|)
  {
    RoundProgress(V0.Keys, runs0.Keys, s.runs.Keys, |events0|, |s.events|);
  }

  /** What holds once the event queue is empty: what `simulate` promises. */
  lemma EndOfRun(V0: Vertices, R: int, s: State)
    requires s in HeadStates(V0, R) && s.events == {}
    ensures s.vs.Keys == V0.Keys && s.runs.Keys <= V0.Keys
    ensures forall k :: k in V0 ==> s.vs[k] == V0[k].(preds := Remaining(V0, s.runs.Keys, k))
    ensures forall k :: k in s.runs ==> s.vs[k].preds == {}
    ensures forall k :: k in s.runs ==> 0 <= s.runs[k].res < R
    ensures s.runs == map[] ==> s.time == 0
    ensures NonNegativeLoads(V0) ==>
      Precedence(V0, s.runs) && Exclusive(V0, s.runs) && IsMakespan(V0, s.runs, s.time)
    ensures R >= 1 && Symmetric(V0) && Acyclic(V0) ==>
      && s.runs.Keys == V0.Keys
      && (forall k :: k in s.vs ==> s.vs[k].preds == {})
      && ResetPreds(s.vs) == V0
  {
    DrainedQueue(V0, s);
    if NonNegativeLoads(V0) {
      FinalTiming(V0, s);
    }
    if R >= 1 && Symmetric(V0) && Acyclic(V0) {
      AllDispatched(V0, R, s);
      AllDrained(V0, s);
      ResetAfterDrainRestores(V0, s.vs);
    }
  }

  /** The dispatch loop of `simulate`: while a resource is free and a task
      is ready, start a least-priority ready task now on the first free
      resource and schedule its completion. The ghost state `s` is the
      engine state the invariant speaks of. */
  method StartTasks(vs: Vertices, free0: seq<int>, ready0: set<int>, events0: set<Event>, time: int,
                    ghost s0: State, ghost R: int, ghost V0: Vertices,
                    ghost roundRuns: map<int, Run>, ghost roundEvents: set<Event>, ghost log0: seq<Step>)
    returns (free: seq<int>, ready: set<int>, events: set<Event>, ghost s: State, ghost log: seq<Step>)
    requires s0 in RoundStates(V0, R, roundRuns, roundEvents)
    requires Mirrors(s0, vs, free0, ready0, events0, time)
    requires log0 in Logs(V0, R, s0)
    ensures s in RoundStates(V0, R, roundRuns, roundEvents)
    ensures Mirrors(s, vs, free, ready, events, time)
    ensures log in Logs(V0, R, s)
    ensures free == [] || ready == {}
  {
    free, ready, events, s, log := free0, ready0, events0, s0, log0;
    while free != [] && ready != {}
      invariant s in RoundStates(V0, R, roundRuns, roundEvents)
      invariant Mirrors(s, vs, free, ready, events, time)
      invariant log in Logs(V0, R, s)
      decreases |ready|
    {
      ghost var free1 := free;
      var resId := free[0];
      free := free[1..];
      ReadyInTable(V0, R, s, roundRuns, roundEvents, vs, ready);
      var taskId := PopReady(vs, ready);
      var task := vs[taskId];
      var endTime := time + task.load;
      DispatchLoopStep(V0, R, s, taskId, roundRuns, roundEvents, vs, free1, ready, events, time,
                       endTime, task.id, resId);
      LogDispatch(V0, R, s, taskId, roundRuns, roundEvents, log);
      ready := ready - {taskId};
      events := events + {Event(endTime, Some(task.id), Some(resId))};
      log := log + [Start(time, taskId, resId)];
      s := AfterDispatch(s, taskId);
    }
  }

  /** `simulate`: list scheduling of the graph's tasks on `numResources`
      identical resources. Returns the makespan; `runs` records, for each
      dispatched task, its start time and resource. The run empties the
      predecessor sets it walks through. */
  method Simulate(g: Graph, numResources: int)
    returns (makespan: int, ghost runs: map<int, Run>, ghost log: seq<Step>)
    requires SuccsMirrored(g.vertices)
    requires forall k :: k in g.vertices ==> g.vertices[k].id == k
    modifies g`vertices
    ensures g.vertices.Keys == old(g.vertices).Keys && runs.Keys <= old(g.vertices).Keys
    ensures forall k :: k in old(g.vertices) ==>
      g.vertices[k] == old(g.vertices)[k].(preds := Remaining(old(g.vertices), runs.Keys, k))
    ensures forall k :: k in runs ==> g.vertices[k].preds == {}
    ensures forall k :: k in runs ==> 0 <= runs[k].res < numResources
    ensures runs == map[] ==> makespan == 0
    ensures NonNegativeLoads(old(g.vertices)) ==>
      Precedence(old(g.vertices), runs) && Exclusive(old(g.vertices), runs) && IsMakespan(old(g.vertices), runs, makespan)
    ensures numResources >= 1 && Symmetric(old(g.vertices)) && Acyclic(old(g.vertices)) ==>
      && runs.Keys == old(g.vertices).Keys
      && (forall k :: k in g.vertices ==> g.vertices[k].preds == {})
      && ResetPreds(g.vertices) == old(g.vertices)
    ensures FollowsRules(old(g.vertices), numResources, runs, log) && makespan == ClockAfter(log)
    ensures FreeAfter(numResources, log) == [] || ReadyAfter(old(g.vertices), log) == {}
  {
    ghost var V0 := g.vertices;
    var free := Range(numResources);
    var ready := InitialReady(g.vertices);
    var time := 0;
    var events := {Bootstrap};
    SetUp(V0, numResources, ready);
    ghost var s := Initial(V0, numResources);
    LogStart(V0, numResources);
    log := [];
    while events != {}
      invariant s in HeadStates(V0, numResources)
      invariant Mirrors(s, g.vertices, free, ready, events, time)
      invariant log in Logs(V0, numResources, s)
      decreases |V0.Keys - s.runs.Keys|, |s.events|
    {
      ghost var runs0, events0 := s.runs, events;
      var e, rest := PopEvent(events);
      if e.task.Some? {
        CompletionRound(V0, numResources, s, e, g.vertices, free, ready, events, time, rest);
        LogCompletion(V0, numResources, s, e, log);
        var taskId := e.task.value;
        ready := ReleaseSuccessors(g, taskId, ready);
        free := free + [e.res.value];
        log := log + [Finish(e.time, taskId, e.res.value)];
        s := AfterCompletion(s, e);
      } else {
        BootRound(V0, numResources, s, e, g.vertices, free, ready, events, time, rest);
        LogBoot(V0, numResources, s, e, log);
        s := AfterBoot(s, e);
      }
      events := rest;
      time := e.time;
      free, ready, events, s, log :=
        StartTasks(g.vertices, free, ready, events, time, s, numResources, V0, runs0, events0, log);
      EndRound(V0, numResources, s, runs0, events0);
    }
    EndOfRun(V0, numResources, s);
    LogEnd(V0, numResources, s, log);
    runs := s.runs;
    makespan := time;
  }
}
