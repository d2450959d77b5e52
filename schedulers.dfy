/** The priority strategies. Each overwrites, in place, the `priority` field
    of every task of a graph; the simulator's ready queue then hands out the
    ready task of least priority first. */
module Schedulers {
  import opened Common
  import opened TaskGraph

  /** `r` differs from `vs` at most in the priorities of its tasks. */
  ghost predicate OnlyPrioritiesChanged(vs: Vertices, r: Vertices)
  {
    r.Keys == vs.Keys && forall k :: k in vs ==> r[k] == vs[k].(priority := r[k].priority)
  }

  // ---------------------------------------------------------------------
  // Strategies that give every task a score of its own

  /** Every task `k` gets the priority `score(k, task)`, computed from the
      task as it was before. */
  ghost function Rescored(vs: Vertices, score: (int, Task) -> int): (r: Vertices)
  {
    map k | k in vs :: vs[k].(priority := score(k, vs[k]))
  }

  /** The table part-way through a rescoring loop: the tasks in `done` are
      rescored, the others untouched. */
  ghost function PartlyRescored(vs: Vertices, score: (int, Task) -> int, done: set<int>): Vertices
  {
    map k | k in vs :: if k in done then vs[k].(priority := score(k, vs[k])) else vs[k]
  }

  /** Invariant of a rescoring loop. */
  ghost predicate RescoreLoop(m: Vertices, vs: Vertices, score: (int, Task) -> int, todo: set<int>)
  {
    todo <= vs.Keys && m == PartlyRescored(vs, score, vs.Keys - todo)
  }

  lemma RescoreLoopStart(vs: Vertices, score: (int, Task) -> int)
    ensures RescoreLoop(vs, vs, score, vs.Keys)
  {
    assert vs.Keys - vs.Keys == {};
    var p := PartlyRescored(vs, score, {});
    assert forall k :: k in vs ==> p[k] == vs[k];
  }

  lemma RescoreLoopStep(m: Vertices, vs: Vertices, score: (int, Task) -> int, todo: set<int>, id: int)
    requires RescoreLoop(m, vs, score, todo) && id in todo
    ensures id in m && m[id] == vs[id]
    ensures RescoreLoop(m[id := m[id].(priority := score(id, m[id]))], vs, score, todo - {id})
  {
    var done := vs.Keys - todo;
    assert vs.Keys - (todo - {id}) == done + {id};
    var q := PartlyRescored(vs, score, done + {id});
    var m' := m[id := m[id].(priority := score(id, m[id]))];
    forall k | k in vs ensures m'[k] == q[k] {
    }
    assert m'.Keys == q.Keys;
  }

  lemma RescoreLoopEnd(m: Vertices, vs: Vertices, score: (int, Task) -> int)
    requires RescoreLoop(m, vs, score, {})
    ensures m == Rescored(vs, score)
  {
    assert vs.Keys - {} == vs.Keys;
    var r := Rescored(vs, score);
    forall k | k in vs ensures m[k] == r[k] {
    }
    assert m.Keys == r.Keys;
  }

  /** A rescoring changes priorities only, and every task ends up with its
      own score. */
  lemma RescoredShape(vs: Vertices, score: (int, Task) -> int)
    ensures OnlyPrioritiesChanged(vs, Rescored(vs, score))
    ensures forall k :: k in vs ==> Rescored(vs, score)[k].priority == score(k, vs[k])
  {
  }

  /** `priority_by_id`: the key. */
  function IdScore(k: int, t: Task): int { k }

  /** `priority_by_lpt`: the previous priority times the load. */
  function LptScore(k: int, t: Task): int { t.priority * t.load }

  /** `priority_by_spt`: the load. */
  function SptScore(k: int, t: Task): int { t.load }

  /** `priority_by_successors`: the previous priority times the number of
      successors. */
  function SuccessorsScore(k: int, t: Task): int { t.priority * |t.succs| }

  /** Every task's priority becomes its key; nothing else changes. */
  lemma ByIdSetsKeys(vs: Vertices)
    ensures OnlyPrioritiesChanged(vs, Rescored(vs, IdScore))
    ensures forall k :: k in vs ==> Rescored(vs, IdScore)[k].priority == k
  {
    RescoredShape(vs, IdScore);
  }

  /** Priorities all -1 (as `Task` creates them) become minus the load, so the
      longest task comes first. */
  lemma LptFromInitial(vs: Vertices)
    requires forall k :: k in vs ==> vs[k].priority == -1
    ensures OnlyPrioritiesChanged(vs, Rescored(vs, LptScore))
    ensures forall k :: k in vs ==> Rescored(vs, LptScore)[k].priority == -vs[k].load
  {
    RescoredShape(vs, LptScore);
  }

  /** The shortest-processing-time priorities depend on the loads alone, not
      on any earlier priority. */
  lemma SptForgetsPrevious(vs: Vertices, ws: Vertices)
    requires OnlyPrioritiesChanged(vs, ws)
    ensures Rescored(vs, SptScore) == Rescored(ws, SptScore)
    ensures forall k :: k in vs ==> Rescored(vs, SptScore)[k].priority == vs[k].load
  {
    var a := Rescored(vs, SptScore);
    var b := Rescored(ws, SptScore);
    forall k | k in vs ensures a[k] == b[k] {
      assert ws[k] == vs[k].(priority := ws[k].priority);
    }
    assert a.Keys == b.Keys;
  }

  /** Priorities all -1 become minus the number of successors; a task
      without successors gets 0. */
  lemma SuccessorsFromInitial(vs: Vertices)
    requires forall k :: k in vs ==> vs[k].priority == -1
    ensures OnlyPrioritiesChanged(vs, Rescored(vs, SuccessorsScore))
    ensures forall k :: k in vs ==> Rescored(vs, SuccessorsScore)[k].priority == -|vs[k].succs|
    ensures forall k :: k in vs && vs[k].succs == {} ==> Rescored(vs, SuccessorsScore)[k].priority == 0
  {
    RescoredShape(vs, SuccessorsScore);
  }

  /** The loop shared by `priority_by_id`, `priority_by_lpt`,
      `priority_by_spt` and `priority_by_successors`: one pass over the tasks,
      in any order, overwriting each priority with the task's score. */
  method Reprioritize(g: Graph, score: (int, Task) -> int)
    modifies g`vertices
    ensures g.vertices == Rescored(old(g.vertices), score)
  {
    ghost var vs := g.vertices;
    RescoreLoopStart(vs, score);
    var todo := g.vertices.Keys;
    while todo != {}
      invariant RescoreLoop(g.vertices, vs, score, todo)
      decreases todo
    {
      ghost var some := Pick(todo);
      var id :| id in todo;
      RescoreLoopStep(g.vertices, vs, score, todo, id);
      var task := g.vertices[id];
      g.vertices := g.vertices[id := task.(priority := score(id, task))];
      todo := todo - {id};
    }
    RescoreLoopEnd(g.vertices, vs, score);
  }

  method PriorityById(g: Graph)
    modifies g`vertices
    ensures g.vertices == Rescored(old(g.vertices), IdScore)
  {
    Reprioritize(g, IdScore);
  }

  method PriorityByLpt(g: Graph)
    modifies g`vertices
    ensures g.vertices == Rescored(old(g.vertices), LptScore)
  {
    Reprioritize(g, LptScore);
  }

  method PriorityBySpt(g: Graph)
    modifies g`vertices
    ensures g.vertices == Rescored(old(g.vertices), SptScore)
  {
    Reprioritize(g, SptScore);
  }

  method PriorityBySuccessors(g: Graph)
    modifies g`vertices
    ensures g.vertices == Rescored(old(g.vertices), SuccessorsScore)
  {
    Reprioritize(g, SuccessorsScore);
  }

  // ---------------------------------------------------------------------
  // Topological order

  /** The table after giving `order[i]` the priority `i`, for i = 0, 1, ..
      in turn (a later write to the same key wins). */
  ghost function ByPosition(vs: Vertices, order: seq<int>): (r: Vertices)
    requires forall i :: 0 <= i < |order| ==> order[i] in vs
    ensures r.Keys == vs.Keys
    decreases |order|
  {
    if order == [] then vs
    else
      var last := |order| - 1;
      var r := ByPosition(vs, order[..last]);
      r[order[last] := r[order[last]].(priority := last)]
  }

  /** Whatever the order, repeated ids included, only priorities change. */
  lemma {:induction false} ByPositionOnlyPriorities(vs: Vertices, order: seq<int>)
    requires forall i :: 0 <= i < |order| ==> order[i] in vs
    ensures OnlyPrioritiesChanged(vs, ByPosition(vs, order))
    decreases |order|
  {
    if order != [] {
      ByPositionOnlyPriorities(vs, order[..|order| - 1]);
    }
  }

  /** Without repeated ids, each listed task's priority is its position and
      the other tasks keep theirs. */
  lemma {:induction false} ByPositionSetsPositions(vs: Vertices, order: seq<int>)
    requires forall i :: 0 <= i < |order| ==> order[i] in vs
    requires Distinct(order)
    ensures forall i :: 0 <= i < |order| ==> ByPosition(vs, order)[order[i]].priority == i
    ensures forall k :: k in vs && k !in order ==> ByPosition(vs, order)[k] == vs[k]
    decreases |order|
  {
    if order != [] {
      var last := |order| - 1;
      var prefix := order[..last];
      assert Distinct(prefix);
      ByPositionSetsPositions(vs, prefix);
      var r := ByPosition(vs, prefix);
      var r' := ByPosition(vs, order);
      assert r' == r[order[last] := r[order[last]].(priority := last)];
      forall i | 0 <= i < |order| ensures r'[order[i]].priority == i {
        if i < last {
          assert order[i] == prefix[i] && order[i] != order[last];
        }
      }
      forall k | k in vs && k !in order ensures r'[k] == vs[k] {
        assert k != order[last];
        assert k !in prefix;
      }
    }
  }

  /** The priorities in use in a table. */
  ghost function PriorityValues(vs: Vertices): set<int>
  {
    set k | k in vs :: vs[k].priority
  }

  /** When the order lists every key once, the priorities are exactly
      0 .. n-1, each used by one task. */
  lemma TopologicalPrioritiesArePermutation(vs: Vertices, order: seq<int>)
    requires ListsEachKeyOnce(vs, order)
    ensures PriorityValues(ByPosition(vs, order)) == Interval(|vs|)
    ensures forall a, b :: a in vs && b in vs && a != b ==>
              ByPosition(vs, order)[a].priority != ByPosition(vs, order)[b].priority
  {
    TopologicalOrderLength(vs, order);
    ByPositionSetsPositions(vs, order);
    var r := ByPosition(vs, order);
    forall x | x in PriorityValues(r) ensures x in Interval(|vs|) {
      var k :| k in r && r[k].priority == x;
      var i :| 0 <= i < |order| && order[i] == k;
    }
    forall p | p in Interval(|vs|) ensures p in PriorityValues(r) {
      assert p in Range(|vs|);
      var k := order[p];
      assert k in r && r[k].priority == p;
      assert r[k].priority in PriorityValues(r);
    }
    forall a, b | a in vs && b in vs && a != b ensures r[a].priority != r[b].priority {
      var i :| 0 <= i < |order| && order[i] == a;
      var j :| 0 <= j < |order| && order[j] == b;
    }
  }

  /** Invariant of the loop of `priority_by_topological_order`. */
  ghost predicate PositionLoop(m: Vertices, vs: Vertices, order: seq<int>, i: int)
  {
    && 0 <= i <= |order|
    && (forall j :: 0 <= j < |order| ==> order[j] in vs)
    && m == ByPosition(vs, order[..i])
  }

  lemma PositionLoopStep(m: Vertices, vs: Vertices, order: seq<int>, i: int)
    requires PositionLoop(m, vs, order, i) && i < |order|
    ensures order[i] in m
    ensures PositionLoop(m[order[i] := m[order[i]].(priority := i)], vs, order, i + 1)
  {
    assert order[..i + 1][..i] == order[..i];
  }

  /** `priority_by_topological_order`: `order[i]` gets priority `i`. */
  method PriorityByTopologicalOrder(g: Graph)
    requires forall i :: 0 <= i < |g.topologicalOrder| ==> g.topologicalOrder[i] in g.vertices
    modifies g`vertices
    ensures g.vertices == ByPosition(old(g.vertices), g.topologicalOrder)
  {
    ghost var vs := g.vertices;
    var order := g.topologicalOrder;
    assert order[..0] == [];
    var i := 0;
    while i < |order|
      invariant PositionLoop(g.vertices, vs, order, i)
      decreases |order| - i
    {
      PositionLoopStep(g.vertices, vs, order, i);
      var id := order[i];
      g.vertices := g.vertices[id := g.vertices[id].(priority := i)];
      i := i + 1;
    }
    assert order[..i] == order;
  }

  // ---------------------------------------------------------------------
  // Highest level first

  /** A table holding the keys 0 .. n-1, n its size, holds nothing else. */
  lemma KeysAreInterval(vs: Vertices)
    requires forall i :: 0 <= i < |vs| ==> i in vs
    ensures vs.Keys == Interval(|vs|)
  {
    IntervalSize(|vs|);
    forall x | x in Interval(|vs|) ensures x in vs.Keys {
      assert x in Range(|vs|);
    }
    SubsetOfSameSize(Interval(|vs|), vs.Keys);
  }

  /** What `priority_by_hlf` makes of key j (k the number of tasks): the
      priority `vs[k-1-j].id * vs[j].priority`, unless that id is 0, in which
      case the task is left alone. */
  ghost function HlfTask(vs: Vertices, j: int): Task
    requires forall i :: 0 <= i < |vs| ==> i in vs
    requires j in vs
  {
    var k := |vs|;
    if 0 <= j < k && vs[k - 1 - j].id != 0 then vs[j].(priority := vs[k - 1 - j].id * vs[j].priority)
    else vs[j]
  }

  /** The table after `priority_by_hlf` on keys 0 .. k-1. */
  ghost function Hlf(vs: Vertices): (r: Vertices)
    requires forall i :: 0 <= i < |vs| ==> i in vs
    ensures OnlyPrioritiesChanged(vs, r)
  {
    map j | j in vs :: HlfTask(vs, j)
  }

  /** The table after the first `n` steps of the `priority_by_hlf` loop. */
  ghost function HlfPrefix(vs: Vertices, n: int): Vertices
    requires forall i :: 0 <= i < |vs| ==> i in vs
  {
    map j | j in vs :: if j < n then HlfTask(vs, j) else vs[j]
  }

  /** Invariant of the `priority_by_hlf` loop. */
  ghost predicate HlfLoop(m: Vertices, vs: Vertices, i: int)
  {
    && (forall j :: 0 <= j < |vs| ==> j in vs)
    && 0 <= i <= |vs|
    && m == HlfPrefix(vs, i)
  }

  lemma HlfLoopStart(vs: Vertices)
    requires forall j :: 0 <= j < |vs| ==> j in vs
    ensures HlfLoop(vs, vs, 0)
  {
    var p := HlfPrefix(vs, 0);
    KeysAreInterval(vs);
    forall j | j in vs ensures p[j] == vs[j] {
      assert j in Range(|vs|);
    }
    assert p.Keys == vs.Keys;
  }

  /** One step of the loop: key i gets `HlfTask`, whichever branch the loop
      takes. */
  lemma HlfLoopStep(m: Vertices, vs: Vertices, i: int)
    requires HlfLoop(m, vs, i) && i < |vs|
    ensures i in m && |vs| - 1 - i in m && m[|vs| - 1 - i].id == vs[|vs| - 1 - i].id
    ensures m[|vs| - 1 - i].id == 0 ==> HlfLoop(m, vs, i + 1)
    ensures m[|vs| - 1 - i].id != 0 ==> HlfTask(vs, i) == m[i].(priority := m[|vs| - 1 - i].id * m[i].priority)
    ensures HlfLoop(m[i := HlfTask(vs, i)], vs, i + 1)
  {
    var k := |vs|;
    assert m[i] == vs[i] && m[k - 1 - i].id == vs[k - 1 - i].id;
    var q := HlfPrefix(vs, i + 1);
    var m' := m[i := HlfTask(vs, i)];
    forall j | j in vs ensures m'[j] == q[j] {
    }
    assert m'.Keys == q.Keys;
    if vs[k - 1 - i].id == 0 {
      assert m' == m;
    }
  }

  lemma HlfLoopEnd(m: Vertices, vs: Vertices)
    requires HlfLoop(m, vs, |vs|)
    ensures m == Hlf(vs)
  {
    var r := Hlf(vs);
    KeysAreInterval(vs);
    forall j | j in vs ensures m[j] == r[j] {
      assert j in Range(|vs|);
    }
    assert m.Keys == r.Keys;
  }

  /** `priority_by_hlf`. Only the keys 0 .. k-1 are looked up, so the table
      must hold them. */
  method PriorityByHlf(g: Graph)
    requires forall i :: 0 <= i < |g.vertices| ==> i in g.vertices
    modifies g`vertices
    ensures g.vertices == Hlf(old(g.vertices))
  {
    ghost var vs := g.vertices;
    HlfLoopStart(vs);
    var k := |g.vertices|;
    var i := 0;
    while i < k
      invariant k == |vs| && HlfLoop(g.vertices, vs, i)
      decreases k - i
    {
      HlfLoopStep(g.vertices, vs, i);
      if g.vertices[(k - i) - 1].id != 0 {
        g.vertices := g.vertices[i := g.vertices[i].(priority := g.vertices[(k - i) - 1].id * g.vertices[i].priority)];
      }
      i := i + 1;
    }
    HlfLoopEnd(g.vertices, vs);
  }

  /** On keys 0 .. k-1 whose tasks carry their own key as id (what the
      generator produces), key i < k-1 has its priority multiplied by k-1-i,
      and key k-1 keeps its priority. */
  lemma HlfWithOwnIds(vs: Vertices)
    requires forall i :: 0 <= i < |vs| ==> i in vs && vs[i].id == i
    ensures OnlyPrioritiesChanged(vs, Hlf(vs))
    ensures forall i :: 0 <= i < |vs| - 1 ==> Hlf(vs)[i].priority == (|vs| - 1 - i) * vs[i].priority
    ensures |vs| > 0 ==> Hlf(vs)[|vs| - 1] == vs[|vs| - 1]
  {
  }

  /** An instance of `HlfWithOwnIds`: six tasks with their own ids, all of
      priority -1, get -5, -4, -3, -2, -1, -1. */
  lemma HlfExample6(vs: Vertices)
    requires vs.Keys == {0, 1, 2, 3, 4, 5}
    requires forall i :: i in vs ==> vs[i].id == i && vs[i].priority == -1
    ensures var r := Hlf(vs);
      r[0].priority == -5 && r[1].priority == -4 && r[2].priority == -3
      && r[3].priority == -2 && r[4].priority == -1 && r[5].priority == -1
  {
    assert |vs| == |vs.Keys| == 6;
    HlfWithOwnIds(vs);
  }
}
