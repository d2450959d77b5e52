/** The task graph of the simulator: task records, the graph that owns them,
    its layered topological sort, the restoration of predecessor sets, and the
    random DAG generator with its random draws taken as inputs. */
module TaskGraph {
  import opened Common

  /** A task: identifier, load (processing time), the ids of its
      predecessors and successors, and its scheduling attributes. */
  datatype Task = Task(id: int, load: int, preds: set<int>, succs: set<int>,
                       priority: int, topLevel: int, bottomLevel: int)

  /** The graph's table from task id to task record. */
  type Vertices = map<int, Task>

  /** A fresh task: no edges yet, every scheduling attribute unset (-1). */
  function NewTask(id: int, load: int): (t: Task)
    ensures t.id == id && t.load == load
    ensures t.preds == {} && t.succs == {}
    ensures t.priority == -1 && t.topLevel == -1 && t.bottomLevel == -1
  {
    Task(id, load, {}, {}, -1, -1, -1)
  }

  /** The order the ready queue uses: by priority alone. */
  predicate Less(a: Task, b: Task)
  {
    a.priority < b.priority
  }

  /** Identifier, load and edges play no part in the comparison, and it is a
      strict order (irreflexive and transitive). */
  lemma LessSeesOnlyPriority(a: Task, b: Task, c: Task)
    ensures Less(a, b) <==> a.priority < b.priority
    ensures forall i, l :: Less(a.(id := i, load := l), b) == Less(a, b)
    ensures forall i, l :: Less(a, b.(id := i, load := l)) == Less(a, b)
    ensures !Less(a, a)
    ensures Less(a, b) && Less(b, c) ==> Less(a, c)
    ensures Less(a, b) ==> !Less(b, a)
  {
  }

  // ---------------------------------------------------------------------
  // Shape predicates over the vertex table

  /** An entry vertex: present, without predecessors. */
  predicate IsRoot(vs: Vertices, k: int)
  {
    k in vs && vs[k].preds == {}
  }

  /** Every successor id names a vertex of the graph. */
  ghost predicate SuccsInKeys(vs: Vertices)
  {
    forall a, b :: a in vs && b in vs[a].succs ==> b in vs
  }

  /** Every successor edge a -> b is also recorded on b as a predecessor. */
  ghost predicate SuccsMirrored(vs: Vertices)
  {
    forall a, b :: a in vs && b in vs[a].succs ==> b in vs && a in vs[b].preds
  }

  /** Every predecessor edge a -> b is also recorded on a as a successor. */
  ghost predicate PredsMirrored(vs: Vertices)
  {
    forall a, b :: b in vs && a in vs[b].preds ==> a in vs && b in vs[a].succs
  }

  /** B is a successor of A exactly when A is a predecessor of B. */
  ghost predicate Symmetric(vs: Vertices)
  {
    SuccsMirrored(vs) && PredsMirrored(vs)
  }

  /** `rank` numbers the vertices so that every predecessor is a vertex of
      strictly smaller rank. */
  ghost predicate IsRanking(vs: Vertices, rank: map<int, nat>)
  {
    && (forall v :: v in vs ==> v in rank)
    && (forall v, u :: v in vs && u in vs[v].preds ==> u in vs && rank[u] < rank[v])
  }

  /** No cycle through predecessor edges (and no dangling predecessor). */
  ghost predicate Acyclic(vs: Vertices)
  {
    exists rank :: IsRanking(vs, rank)
  }

  /** `order` lists every vertex once, and each predecessor of a listed vertex
      is listed strictly before it. */
  ghost predicate IsTopologicalOrder(vs: Vertices, order: seq<int>)
  {
    && Distinct(order)
    && (forall i :: 0 <= i < |order| ==> order[i] in vs)
    && (forall k :: k in vs ==> k in order)
    && (forall i, u :: 0 <= i < |order| && u in vs[order[i]].preds ==> u in order[..i])
  }

  /** All entry vertices come before every other vertex. */
  ghost predicate RootsFirst(vs: Vertices, order: seq<int>)
  {
    forall i, j :: 0 <= i < |order| && 0 <= j < |order| && IsRoot(vs, order[j]) && !IsRoot(vs, order[i]) ==> j < i
  }

  /** A topological order gives a ranking (its positions), so the graph it
      orders is acyclic. */
  lemma TopologicalOrderRanks(vs: Vertices, order: seq<int>)
    requires IsTopologicalOrder(vs, order)
    ensures Acyclic(vs)
  {
    var rank := map i | 0 <= i < |order| :: order[i] := i as nat;
    forall v, u | v in vs && u in vs[v].preds ensures u in vs && v in rank && u in rank && rank[u] < rank[v] {
      var i :| 0 <= i < |order| && order[i] == v;
      assert rank[v] == i;
      assert u in order[..i];
      var j :| 0 <= j < i && order[..i][j] == u;
      assert order[j] == u && rank[u] == j;
    }
    forall v | v in vs ensures v in rank {
      var i :| 0 <= i < |order| && order[i] == v;
    }
    assert IsRanking(vs, rank);
  }

  /** `order` lists every vertex exactly once, and nothing else. */
  ghost predicate ListsEachKeyOnce(vs: Vertices, order: seq<int>)
  {
    Distinct(order) && (forall i :: 0 <= i < |order| ==> order[i] in vs) && (forall k :: k in vs ==> k in order)
  }

  /** An order listing every vertex exactly once, and nothing else, has as
      many entries as the graph has vertices. */
  lemma TopologicalOrderLength(vs: Vertices, order: seq<int>)
    requires ListsEachKeyOnce(vs, order)
    ensures |order| == |vs|
  {
    DistinctSize(order);
    forall x | x in Elements(order) ensures x in vs {
      var i :| 0 <= i < |order| && order[i] == x;
    }
    forall k | k in vs ensures k in Elements(order) {
      assert k in order;
    }
    assert Elements(order) == vs.Keys;
  }

  // ---------------------------------------------------------------------
  // Restoring predecessor sets

  /** The vertices that name `v` as a successor. */
  ghost function Parents(vs: Vertices, v: int): set<int>
  {
    set u | u in vs && v in vs[u].succs
  }

  /** The table after `reset_predecessors`: every vertex gains, as
      predecessors, the vertices that name it as a successor. */
  ghost function ResetPreds(vs: Vertices): (r: Vertices)
    ensures r.Keys == vs.Keys
    ensures forall v :: v in vs ==> r[v] == vs[v].(preds := r[v].preds)
    ensures forall v :: v in vs ==> vs[v].preds <= r[v].preds
  {
    map v | v in vs :: vs[v].(preds := vs[v].preds + Parents(vs, v))
  }

  /** Calling `reset_predecessors` twice gives the same table as once. */
  lemma ResetTwiceIsOnce(vs: Vertices)
    ensures ResetPreds(ResetPreds(vs)) == ResetPreds(vs)
  {
    var r := ResetPreds(vs);
    forall v | v in vs ensures Parents(r, v) == Parents(vs, v) {
      assert forall u :: u in r ==> r[u].succs == vs[u].succs;
    }
  }

  /** On a table whose predecessor sets are all empty, the reset installs
      exactly the inverse of the successor relation, so the result is
      symmetric. */
  lemma ResetOfDrainedIsInverse(vs: Vertices)
    requires SuccsInKeys(vs)
    requires forall v :: v in vs ==> vs[v].preds == {}
    ensures forall v, u :: v in vs ==> (u in ResetPreds(vs)[v].preds <==> u in vs && v in vs[u].succs)
    ensures Symmetric(ResetPreds(vs))
  {
    var r := ResetPreds(vs);
    forall v | v in vs ensures r[v].preds == Parents(vs, v) {
    }
    assert forall u :: u in r ==> r[u].succs == vs[u].succs;
  }

  /** Draining every predecessor set of a symmetric table and then resetting
      gives back the original table. */
  lemma ResetAfterDrainRestores(original: Vertices, drained: Vertices)
    requires Symmetric(original)
    requires drained.Keys == original.Keys
    requires forall k :: k in original ==> drained[k] == original[k].(preds := {})
    ensures ResetPreds(drained) == original
  {
    var r := ResetPreds(drained);
    forall v | v in original ensures r[v] == original[v] {
      forall u ensures u in Parents(drained, v) <==> u in original[v].preds {
        if u in original {
          assert drained[u].succs == original[u].succs;
        }
      }
      assert Parents(drained, v) == original[v].preds;
    }
  }

  // ---------------------------------------------------------------------
  // Generator inputs: the random draws

  /** `sample` is what `random.sample(range(t), k)` can return. */
  ghost predicate IsSample(sample: seq<int>, k: int, t: int)
  {
    0 <= k && |sample| == k && Distinct(sample)
    && forall i :: 0 <= i < |sample| ==> 0 <= sample[i] < t
  }

  /** The draws `generate_graph` consumes for `n` tasks, each within the range
      it is drawn from: an optional shuffle of the ids, one load per slot,
      one dependency count per slot after the first, and a sample of
      predecessor slots for each slot whose count is below its index. */
  ghost predicate ValidDraws(n: int, minLoad: int, maxLoad: int, minDep: int, maxDep: int,
                             rename: bool, shuffled: seq<int>, loads: seq<int>,
                             depCounts: seq<int>, samples: seq<seq<int>>)
  {
    && 1 <= n
    && (rename ==> IsPermutation(shuffled, n))
    && |loads| == n && (forall t :: 0 <= t < n ==> minLoad <= loads[t] < maxLoad)
    && |depCounts| == n && (forall t :: 1 <= t < n ==> minDep <= depCounts[t] < maxDep)
    && |samples| == n
    && (forall t :: 1 <= t < n && depCounts[t] < t ==> IsSample(samples[t], depCounts[t], t))
  }

  /** Slot-to-identifier table: the shuffle if renaming, else the identity. */
  function SlotIds(n: int, rename: bool, shuffled: seq<int>): seq<int>
  {
    if rename then shuffled else Range(n)
  }

  lemma SlotIdsArePermutation(n: int, rename: bool, shuffled: seq<int>)
    requires 1 <= n && (rename ==> IsPermutation(shuffled, n))
    ensures IsPermutation(SlotIds(n, rename, shuffled), n)
  {
  }

  /** The slots that slot `t` depends on: none for slot 0, the sample when
      the drawn count is below `t`, else every earlier slot. */
  ghost function SlotPreds(depCounts: seq<int>, samples: seq<seq<int>>, t: int): set<int>
    requires 0 <= t < |depCounts| && t < |samples|
  {
    if t == 0 then {}
    else if depCounts[t] < t then Elements(samples[t])
    else Interval(t)
  }

  /** Slot `t` depends only on earlier slots, on exactly min(count, t) of them. */
  lemma SlotPredsShape(n: int, minLoad: int, maxLoad: int, minDep: int, maxDep: int,
                       rename: bool, shuffled: seq<int>, loads: seq<int>,
                       depCounts: seq<int>, samples: seq<seq<int>>, t: int)
    requires ValidDraws(n, minLoad, maxLoad, minDep, maxDep, rename, shuffled, loads, depCounts, samples)
    requires 0 <= t < n
    ensures forall s :: s in SlotPreds(depCounts, samples, t) ==> 0 <= s < t
    ensures 1 <= t ==> |SlotPreds(depCounts, samples, t)| == if depCounts[t] < t then depCounts[t] else t
  {
    if 1 <= t {
      if depCounts[t] < t {
        DistinctSize(samples[t]);
      } else {
        IntervalSize(t);
      }
    }
  }

  /** The table that `generate_graph` has built once slots 0 .. cur exist,
      slots before `cur` are fully wired to their predecessor slots `ps`, and
      slot `cur` has been wired to the slots in `done` so far. */
  ghost predicate Built(vs: Vertices, ids: seq<int>, loads: seq<int>, ps: seq<set<int>>,
                        cur: int, done: set<int>)
    requires 0 <= cur < |ids| && |loads| == |ids| && |ps| == |ids|
  {
    && BuiltShape(vs, ids, loads, cur)
    && (forall t, s {:trigger ids[s], vs[ids[t]].preds} :: 0 <= t <= cur && 0 <= s < |ids| ==>
          (ids[s] in vs[ids[t]].preds <==> s in (if t < cur then ps[t] else done)))
    && (forall t, u {:trigger ids[u], vs[ids[t]].succs} :: 0 <= t <= cur && 0 <= u < |ids| ==>
          (ids[u] in vs[ids[t]].succs <==> (t < u < cur && t in ps[u]) || (u == cur && t in done)))
  }

  /** The part of `Built` that does not depend on which edges exist: the
      tasks of slots 0 .. cur are present with their loads, and every key
      and every neighbour is a task identifier. */
  ghost predicate BuiltShape(vs: Vertices, ids: seq<int>, loads: seq<int>, cur: int)
    requires 0 <= cur < |ids| && |loads| == |ids|
  {
    && (forall t :: 0 <= t < |ids| ==> (ids[t] in vs <==> t <= cur))
    && (forall x :: x in vs ==> 0 <= x < |ids|)
    && (forall t :: 0 <= t <= cur ==> vs[ids[t]].(preds := {}, succs := {}) == NewTask(ids[t], loads[t]))
    && (forall t, x :: 0 <= t <= cur && x in vs[ids[t]].preds ==> 0 <= x < |ids|)
    && (forall t, x :: 0 <= t <= cur && x in vs[ids[t]].succs ==> 0 <= x < |ids|)
  }

  /** The predecessor slots of every slot, as a sequence. */
  ghost function AllSlotPreds(depCounts: seq<int>, samples: seq<seq<int>>, n: nat): (ps: seq<set<int>>)
    requires n <= |depCounts| && n <= |samples|
    ensures |ps| == n && forall t :: 0 <= t < n ==> ps[t] == SlotPreds(depCounts, samples, t)
  {
    if n == 0 then [] else AllSlotPreds(depCounts, samples, n - 1) + [SlotPreds(depCounts, samples, n - 1)]
  }

  /** Creating the task of slot `cur + 1` keeps the table `Built`. */
  lemma AddTaskKeepsBuilt(vs: Vertices, ids: seq<int>, loads: seq<int>, ps: seq<set<int>>, cur: int)
    requires 0 <= cur && cur + 1 < |ids| && |loads| == |ids| && |ps| == |ids|
    requires IsPermutation(ids, |ids|)
    requires forall t, s :: 0 <= t < |ps| && s in ps[t] ==> 0 <= s < t
    requires Built(vs, ids, loads, ps, cur, ps[cur])
    ensures Built(vs[ids[cur + 1] := NewTask(ids[cur + 1], loads[cur + 1])], ids, loads, ps, cur + 1, {})
  {
    var nt := NewTask(ids[cur + 1], loads[cur + 1]);
    var vs' := vs[ids[cur + 1] := nt];
    assert ids[cur + 1] !in vs;
    forall t | 0 <= t <= cur ensures ids[t] != ids[cur + 1] && vs'[ids[t]] == vs[ids[t]] {
    }
  }

  /** The table with the dependency of `v` on `u` recorded on both ends:
      `u` joins the predecessors of `v`, then `v` the successors of `u`. */
  function AddEdge(vs: Vertices, u: int, v: int): Vertices
    requires u in vs && v in vs
  {
    var vs1 := vs[v := vs[v].(preds := vs[v].preds + {u})];
    vs1[u := vs1[u].(succs := vs1[u].succs + {v})]
  }

  /** `vs2` is `vs` with `u` added to the predecessors of `v` and `v` to
      the successors of `u`, and nothing else changed. */
  ghost predicate EdgeAdded(vs: Vertices, vs2: Vertices, u: int, v: int)
  {
    && vs2.Keys == vs.Keys
    && (forall k :: k in vs ==> vs2[k].(preds := {}, succs := {}) == vs[k].(preds := {}, succs := {}))
    && (forall k :: k in vs ==> vs2[k].preds == vs[k].preds + (if k == v then {u} else {}))
    && (forall k :: k in vs ==> vs2[k].succs == vs[k].succs + (if k == u then {v} else {}))
  }

  lemma AddEdgeEffect(vs: Vertices, u: int, v: int)
    requires u in vs && v in vs && u != v
    ensures EdgeAdded(vs, AddEdge(vs, u, v), u, v)
  {
  }

  /** Adding the edge from slot `p` to slot `cur` keeps the table `Built`. */
  lemma AddEdgeKeepsBuilt(vs: Vertices, ids: seq<int>, loads: seq<int>, ps: seq<set<int>>,
                          cur: int, done: set<int>, p: int)
    requires 0 <= p < cur < |ids| && |loads| == |ids| && |ps| == |ids|
    requires Distinct(ids)
    requires Built(vs, ids, loads, ps, cur, done)
    ensures ids[p] in vs && ids[cur] in vs
    ensures Built(AddEdge(vs, ids[p], ids[cur]), ids, loads, ps, cur, done + {p})
  {
    assert ids[p] != ids[cur];
    AddEdgeEffect(vs, ids[p], ids[cur]);
    EdgeKeepsBuilt(vs, AddEdge(vs, ids[p], ids[cur]), ids, loads, ps, cur, done, p);
  }

  lemma EdgeKeepsBuilt(vs: Vertices, vs2: Vertices, ids: seq<int>, loads: seq<int>, ps: seq<set<int>>,
                       cur: int, done: set<int>, p: int)
    requires 0 <= p < cur < |ids| && |loads| == |ids| && |ps| == |ids|
    requires Distinct(ids)
    requires Built(vs, ids, loads, ps, cur, done)
    requires EdgeAdded(vs, vs2, ids[p], ids[cur])
    ensures Built(vs2, ids, loads, ps, cur, done + {p})
  {
    EdgeKeepsShape(vs, vs2, ids, loads, cur, p);
    EdgeKeepsPreds(vs, vs2, ids, ps, cur, done, p);
    EdgeKeepsSuccs(vs, vs2, ids, ps, cur, done, p);
  }

  /** The new edge joins two existing tasks and changes no task's fields
      other than its neighbours. */
  lemma EdgeKeepsShape(vs: Vertices, vs2: Vertices, ids: seq<int>, loads: seq<int>, cur: int, p: int)
    requires 0 <= p < cur < |ids| && |loads| == |ids|
    requires BuiltShape(vs, ids, loads, cur)
    requires EdgeAdded(vs, vs2, ids[p], ids[cur])
    ensures BuiltShape(vs2, ids, loads, cur)
  {
  }

  /** The new edge adds slot `p` to the predecessors of slot `cur` only. */
  lemma EdgeKeepsPreds(vs: Vertices, vs2: Vertices, ids: seq<int>, ps: seq<set<int>>,
                       cur: int, done: set<int>, p: int)
    requires 0 <= p < cur < |ids| && |ps| == |ids| && Distinct(ids)
    requires forall t :: 0 <= t <= cur ==> ids[t] in vs
    requires forall t, s :: 0 <= t <= cur && 0 <= s < |ids| ==>
               (ids[s] in vs[ids[t]].preds <==> s in (if t < cur then ps[t] else done))
    requires EdgeAdded(vs, vs2, ids[p], ids[cur])
    ensures forall t, s :: 0 <= t <= cur && 0 <= s < |ids| ==>
              (ids[s] in vs2[ids[t]].preds <==> s in (if t < cur then ps[t] else done + {p}))
  {
    forall t, s | 0 <= t <= cur && 0 <= s < |ids|
      ensures ids[s] in vs2[ids[t]].preds <==> s in (if t < cur then ps[t] else done + {p})
    {
      if t == cur {
        assert vs2[ids[t]].preds == vs[ids[t]].preds + {ids[p]};
        assert ids[s] == ids[p] <==> s == p;
      } else {
        assert ids[t] != ids[cur];
      }
    }
  }

  /** The new edge adds slot `cur` to the successors of slot `p` only. */
  lemma EdgeKeepsSuccs(vs: Vertices, vs2: Vertices, ids: seq<int>, ps: seq<set<int>>,
                       cur: int, done: set<int>, p: int)
    requires 0 <= p < cur < |ids| && |ps| == |ids| && Distinct(ids)
    requires forall t :: 0 <= t <= cur ==> ids[t] in vs
    requires forall t, u :: 0 <= t <= cur && 0 <= u < |ids| ==>
               (ids[u] in vs[ids[t]].succs <==> (t < u < cur && t in ps[u]) || (u == cur && t in done))
    requires EdgeAdded(vs, vs2, ids[p], ids[cur])
    ensures forall t, u :: 0 <= t <= cur && 0 <= u < |ids| ==>
              (ids[u] in vs2[ids[t]].succs <==> (t < u < cur && t in ps[u]) || (u == cur && t in done + {p}))
  {
    forall t, u | 0 <= t <= cur && 0 <= u < |ids|
      ensures ids[u] in vs2[ids[t]].succs <==> (t < u < cur && t in ps[u]) || (u == cur && t in done + {p})
    {
      if t == p {
        assert vs2[ids[t]].succs == vs[ids[t]].succs + {ids[cur]};
        assert ids[u] == ids[cur] <==> u == cur;
      } else {
        assert ids[t] != ids[p];
      }
    }
  }

  /** The tables in which every slot of `ids` is built: slot t is the task
      ids[t] with load loads[t], wired to exactly its predecessor slots ps[t]. */
  ghost function BuiltTables(ids: seq<int>, loads: seq<int>, ps: seq<set<int>>): iset<Vertices>
  {
    iset vs | CompletelyBuilt(vs, ids, loads, ps)
  }

  ghost predicate CompletelyBuilt(vs: Vertices, ids: seq<int>, loads: seq<int>, ps: seq<set<int>>)
  {
    && 1 <= |ids| && |loads| == |ids| && |ps| == |ids|
    && IsPermutation(ids, |ids|)
    && (forall t, s :: 0 <= t < |ps| && s in ps[t] ==> 0 <= s < t)
    && Built(vs, ids, loads, ps, |ids| - 1, ps[|ids| - 1])
  }

  /** A completely built table: keys 0 .. n-1, each task carrying its key. */
  lemma BuiltKeys(vs: Vertices, ids: seq<int>, loads: seq<int>, ps: seq<set<int>>)
    requires vs in BuiltTables(ids, loads, ps)
    ensures vs.Keys == Interval(|ids|)
    ensures forall k :: k in vs ==> vs[k].(preds := {}, succs := {}) == NewTask(k, vs[k].load)
  {
    var slot := PermutationInverse(ids, |ids|);
    forall x | x in Interval(|ids|) ensures x in vs {
      assert ids[slot[x]] == x;
    }
    forall k | k in vs ensures vs[k].(preds := {}, succs := {}) == NewTask(k, vs[k].load) {
      var t := slot[k];
      assert ids[t] == k;
      assert vs[ids[t]].(preds := {}, succs := {}) == NewTask(ids[t], loads[t]);
    }
  }

  /** In a completely built table slot t has exactly |ps[t]| predecessors. */
  lemma BuiltPredCount(vs: Vertices, ids: seq<int>, loads: seq<int>, ps: seq<set<int>>, t: int)
    requires vs in BuiltTables(ids, loads, ps)
    requires 0 <= t < |ids|
    ensures |vs[ids[t]].preds| == |ps[t]|
  {
    var n := |ids|;
    var slot := PermutationInverse(ids, n);
    var f := (s: int) => if 0 <= s < n then ids[s] else -1;
    InjectiveImageSize(ps[t], f);
    var image := Image(ps[t], f);
    forall x | x in vs[ids[t]].preds ensures x in image {
      assert 0 <= x < n;
      var sx := slot[x];
      assert ids[sx] == x && f(sx) == x;
    }
    forall s | s in ps[t] ensures f(s) in vs[ids[t]].preds {
      assert 0 <= s < n;
    }
    assert vs[ids[t]].preds == image;
  }

  /** A completely built table records every edge on both of its ends. */
  lemma BuiltSymmetric(vs: Vertices, ids: seq<int>, loads: seq<int>, ps: seq<set<int>>)
    requires vs in BuiltTables(ids, loads, ps)
    ensures Symmetric(vs)
  {
    var n := |ids|;
    var slot := PermutationInverse(ids, n);
    forall a, b | a in vs && b in vs[a].succs ensures b in vs && a in vs[b].preds {
      var ta := slot[a];
      assert ids[ta] == a;
      assert 0 <= b < n;
      var tb := slot[b];
      assert ids[tb] == b;
    }
    forall a, b | b in vs && a in vs[b].preds ensures a in vs && b in vs[a].succs {
      var tb := slot[b];
      assert ids[tb] == b;
      assert 0 <= a < n;
      var ta := slot[a];
      assert ids[ta] == a;
    }
  }

  /** Slot order ranks a completely built table, so it is acyclic. */
  lemma BuiltAcyclic(vs: Vertices, ids: seq<int>, loads: seq<int>, ps: seq<set<int>>)
    requires vs in BuiltTables(ids, loads, ps)
    ensures Acyclic(vs)
  {
    var n := |ids|;
    var slot := PermutationInverse(ids, n);
    var rank := map k | k in vs && k in slot :: slot[k];
    forall v | v in vs ensures v in rank {
      assert 0 <= v < n;
    }
    forall v, u | v in vs && u in vs[v].preds ensures u in vs && rank[u] < rank[v] {
      var tv := slot[v];
      assert ids[tv] == v;
      assert 0 <= u < n;
      var tu := slot[u];
      assert ids[tu] == u;
    }
    assert IsRanking(vs, rank);
  }

  /** What a completely built table satisfies, gathered: its keys, the
      shape and load of each task, both-ended edges, acyclicity, and as
      many predecessors per slot as were selected. */
  lemma BuiltFacts(vs: Vertices, ids: seq<int>, loads: seq<int>, ps: seq<set<int>>, minLoad: int, maxLoad: int)
    requires vs in BuiltTables(ids, loads, ps)
    requires forall t :: 0 <= t < |loads| ==> minLoad <= loads[t] < maxLoad
    ensures vs.Keys == Interval(|ids|)
    ensures forall k :: k in vs ==> vs[k].(preds := {}, succs := {}) == NewTask(k, vs[k].load)
    ensures forall k :: k in vs ==> minLoad <= vs[k].load < maxLoad
    ensures Symmetric(vs) && Acyclic(vs)
    ensures forall t :: 0 <= t < |ids| ==> ids[t] in vs && vs[ids[t]].load == loads[t]
    ensures forall t, s :: 0 <= t < |ids| && 0 <= s < |ids| ==> (ids[s] in vs[ids[t]].preds <==> s in ps[t])
    ensures forall t :: 0 <= t < |ids| ==> |vs[ids[t]].preds| == |ps[t]|
  {
    BuiltKeys(vs, ids, loads, ps);
    BuiltSymmetric(vs, ids, loads, ps);
    BuiltAcyclic(vs, ids, loads, ps);
    var slot := PermutationInverse(ids, |ids|);
    forall k | k in vs ensures minLoad <= vs[k].load < maxLoad {
      var t := slot[k];
      assert ids[t] == k;
      assert vs[ids[t]].(preds := {}, succs := {}) == NewTask(ids[t], loads[t]);
    }
    forall t | 0 <= t < |ids| ensures |vs[ids[t]].preds| == |ps[t]| {
      BuiltPredCount(vs, ids, loads, ps, t);
    }
    forall t | 0 <= t < |ids| ensures vs[ids[t]].load == loads[t] {
      assert vs[ids[t]].(preds := {}, succs := {}) == NewTask(ids[t], loads[t]);
    }
  }

  // ---------------------------------------------------------------------
  // Bookkeeping of the topological sweep

  /** `pos` gives the position of each entry of `order`. */
  ghost predicate Indexed(order: seq<int>, pos: map<int, nat>)
  {
    && (forall i :: 0 <= i < |order| ==> order[i] in pos && pos[order[i]] == i)
    && (forall x :: x in pos ==> pos[x] < |order| && order[pos[x]] == x)
  }

  /** Every predecessor of an ordered vertex sits at a smaller position. */
  ghost predicate PredsEarlier(vs: Vertices, order: seq<int>, pos: map<int, nat>)
    requires forall i :: 0 <= i < |order| ==> order[i] in vs
  {
    forall i, u :: 0 <= i < |order| && u in vs[order[i]].preds ==> u in pos && pos[u] < i
  }

  /** If every entry vertex is checked and checking propagates along every
      predecessor edge, an acyclic graph is checked entirely. */
  lemma {:induction false} ChecksEverything(vs: Vertices, rank: map<int, nat>, checked: set<int>, v: int)
    requires IsRanking(vs, rank)
    requires forall k :: IsRoot(vs, k) ==> k in checked
    requires forall w, u :: w in vs && u in vs[w].preds && u in checked ==> w in checked
    requires v in vs
    ensures v in checked
    decreases rank[v]
  {
    var preds := vs[v].preds;
    if preds != {} {
      var u := Pick(preds);
      ChecksEverything(vs, rank, checked, u);
    }
  }

  lemma StrictlyFewer(a: set<int>, b: set<int>, m: int)
    requires a <= b && m in b && m !in a
    ensures |a| < |b|
  {
    assert a <= b - {m};
    assert |b - {m}| == |b| - 1;
    assert |b - {m}| == |a| + |(b - {m}) - a|;
  }

  /** What the sweep keeps between passes: `pos` indexes the order, exactly
      the checked vertices are ordered, the first `roots` entries are the
      entry vertices, predecessors come first, and every unchecked vertex
      with a checked predecessor is a candidate. */
  ghost predicate SweepInvariant(vs: Vertices, order: seq<int>, pos: map<int, nat>,
                                 checked: set<int>, toCheck: set<int>, roots: int)
  {
    && checked <= vs.Keys && toCheck <= vs.Keys
    && Indexed(order, pos) && pos.Keys == checked
    && (forall k :: IsRoot(vs, k) ==> k in checked)
    && 0 <= roots <= |order|
    && (forall i :: 0 <= i < |order| ==> (IsRoot(vs, order[i]) <==> i < roots))
    && PredsEarlier(vs, order, pos)
    && (forall v, u :: v in vs && v !in checked && u in vs[v].preds && u in checked ==> v in toCheck)
  }

  type SweepPoint = (seq<int>, map<int, nat>, set<int>, set<int>)

  /** The points (order, pos, checked, toCheck) at which the sweep's
      invariant holds. */
  ghost function SweepStates(vs: Vertices, roots: int): iset<SweepPoint>
  {
    iset p: SweepPoint | SweepInvariant(vs, p.0, p.1, p.2, p.3, roots)
  }

  /** Invariant of one pass of the sweep, which started from the state
      (`checked0`, `toCheck0`) and has `rest` of its candidates left; `m`, a
      least-ranked unordered vertex, is what guarantees progress. */
  ghost predicate PassLoop(vs: Vertices, rank: map<int, nat>, order: seq<int>, pos: map<int, nat>,
                           checked0: set<int>, toCheck0: set<int>, roots: int,
                           rest: set<int>, checked: set<int>, later: set<int>, m: int)
  {
    var candidates := toCheck0 - checked0;
    && SuccsInKeys(vs) && PredsMirrored(vs) && IsRanking(vs, rank)
    && checked0 <= vs.Keys && toCheck0 <= vs.Keys
    && (forall k :: IsRoot(vs, k) ==> k in checked0)
    && (forall v, u :: v in vs && v !in checked0 && u in vs[v].preds && u in checked0 ==> v in toCheck0)
    && rest <= candidates && rest !! checked
    && checked0 <= checked <= vs.Keys && later <= vs.Keys
    && checked - checked0 <= candidates - rest
    && (forall v :: v in candidates - rest ==> v in checked || v in later)
    && (forall u :: u in checked - checked0 ==> vs[u].succs <= later)
    && Indexed(order, pos) && pos.Keys == checked
    && 0 <= roots <= |order|
    && (forall i :: 0 <= i < |order| ==> (IsRoot(vs, order[i]) <==> i < roots))
    && PredsEarlier(vs, order, pos)
    && (candidates != {} ==> m in vs && m !in checked0 && m in rest + checked && vs[m].preds <= checked0)
    && (candidates == {} ==> later == {})
  }

  /** A point of a pass: the order, its index, the candidates left, the
      checked vertices and the candidates for the next pass. */
  type PassPoint = (seq<int>, map<int, nat>, set<int>, set<int>, set<int>)

  /** The points at which the invariant of a pass holds. */
  ghost function PassStates(vs: Vertices, rank: map<int, nat>, checked0: set<int>, toCheck0: set<int>,
                            roots: int, m: int): iset<PassPoint>
  {
    iset p: PassPoint | PassLoop(vs, rank, p.0, p.1, checked0, toCheck0, roots, p.2, p.3, p.4, m)
  }

  /** A ranking of a graph whose edges are mirrored and stay inside it. */
  ghost predicate RankedGraph(vs: Vertices, rank: map<int, nat>)
  {
    SuccsInKeys(vs) && PredsMirrored(vs) && IsRanking(vs, rank)
  }

  /** The rankings of such a graph. */
  ghost function Rankings(vs: Vertices): iset<map<int, nat>>
  {
    iset rank | RankedGraph(vs, rank)
  }

  lemma PassStart(vs: Vertices, rank: map<int, nat>, order: seq<int>, pos: map<int, nat>,
                  checked0: set<int>, toCheck0: set<int>, roots: int) returns (m: int)
    requires rank in Rankings(vs)
    requires (order, pos, checked0, toCheck0) in SweepStates(vs, roots)
    ensures (order, pos, toCheck0 - checked0, checked0, {}) in PassStates(vs, rank, checked0, toCheck0, roots, m)
  {
    m := 0;
    var candidates := toCheck0 - checked0;
    if candidates != {} {
      // a least-ranked unordered vertex is a candidate of this pass
      var c := Pick(candidates);
      assert c in vs.Keys - checked0;
      forall x | x in vs.Keys - checked0 ensures x in rank.Keys {
        assert x in vs;
      }
      m := MinimalByRank(vs.Keys - checked0, rank);
      forall u | u in vs[m].preds ensures u in checked0 {
        assert rank[u] < rank[m];
      }
      assert !IsRoot(vs, m);
      var u := Pick(vs[m].preds);
      assert m in toCheck0;
    }
  }

  lemma PassJoin(vs: Vertices, rank: map<int, nat>, order: seq<int>, pos: map<int, nat>,
                 checked0: set<int>, toCheck0: set<int>, roots: int,
                 rest: set<int>, checked: set<int>, later: set<int>, m: int, id: int)
    requires (order, pos, rest, checked, later) in PassStates(vs, rank, checked0, toCheck0, roots, m)
    requires id in rest && vs[id].preds <= checked
    ensures (order + [id], pos[id := |order|], rest - {id}, checked + {id}, later + vs[id].succs)
      in PassStates(vs, rank, checked0, toCheck0, roots, m)
  {
    var order' := order + [id];
    var candidates := toCheck0 - checked0;
    assert id in candidates && id in vs;
    assert !IsRoot(vs, id);
    assert forall i :: 0 <= i < |order| ==> order'[i] == order[i];
    forall b | b in vs[id].succs ensures b in vs {
      assert SuccsInKeys(vs);
    }
    forall x | x in (checked + {id}) - checked0 ensures x in candidates - (rest - {id}) {
      if x != id {
        assert x in checked - checked0;
      }
    }
  }

  lemma PassDefer(vs: Vertices, rank: map<int, nat>, order: seq<int>, pos: map<int, nat>,
                  checked0: set<int>, toCheck0: set<int>, roots: int,
                  rest: set<int>, checked: set<int>, later: set<int>, m: int, id: int)
    requires (order, pos, rest, checked, later) in PassStates(vs, rank, checked0, toCheck0, roots, m)
    requires id in rest && !(vs[id].preds <= checked)
    ensures (order, pos, rest - {id}, checked, later + {id}) in PassStates(vs, rank, checked0, toCheck0, roots, m)
  {
  }

  lemma PassEnd(vs: Vertices, rank: map<int, nat>, order: seq<int>, pos: map<int, nat>,
                checked0: set<int>, toCheck0: set<int>, roots: int,
                checked: set<int>, later: set<int>, m: int)
    requires (order, pos, {}, checked, later) in PassStates(vs, rank, checked0, toCheck0, roots, m)
    ensures (order, pos, checked, later) in SweepStates(vs, roots)
    ensures checked0 <= checked
    ensures checked == checked0 ==> later == {}
    ensures checked != checked0 ==> |vs.Keys - checked| < |vs.Keys - checked0|
  {
    assert PassLoop(vs, rank, order, pos, checked0, toCheck0, roots, {}, checked, later, m);
    var candidates := toCheck0 - checked0;
    if candidates != {} {
      StrictlyFewer(vs.Keys - checked, vs.Keys - checked0, m);
    } else {
      assert checked - checked0 <= candidates - {} == {};
    }
    forall v, u | v in vs && v !in checked && u in vs[v].preds && u in checked ensures v in later {
      if u !in checked0 {
        assert v in vs[u].succs;
      }
    }
  }

  /** The vertices of `done` that name `v` as a successor. */
  ghost function Gained(vs: Vertices, done: set<int>, v: int): set<int>
  {
    set u | u in done && u in vs && v in vs[u].succs
  }

  /** The predecessors of `v` part-way through `reset_predecessors`: the
      vertices in `done` are handled entirely, vertex `cur` only for its
      successors in `curDone`. */
  ghost function PartialPreds(vs: Vertices, done: set<int>, cur: int, curDone: set<int>, v: int): set<int>
    requires v in vs
  {
    vs[v].preds + Gained(vs, done, v) + (if v in curDone then {cur} else {})
  }

  /** `m` is the table part-way through `reset_predecessors`: only
      predecessor sets differ from `vs`, each as `PartialPreds` says. */
  ghost predicate PartiallyReset(m: Vertices, vs: Vertices, done: set<int>, cur: int, curDone: set<int>)
  {
    && m.Keys == vs.Keys
    && forall v :: v in vs ==> m[v] == vs[v].(preds := PartialPreds(vs, done, cur, curDone, v))
  }

  /** Invariant of the outer loop of `reset_predecessors`: the vertices not
      in `todo` are handled. */
  ghost predicate ResetLoop(m: Vertices, vs: Vertices, todo: set<int>)
  {
    todo <= vs.Keys && PartiallyReset(m, vs, vs.Keys - todo, 0, {})
  }

  /** Invariant of the inner loop: vertex `cur` has been added to its
      successors outside `rest`. */
  ghost predicate SuccLoop(m: Vertices, vs: Vertices, done: set<int>, cur: int, rest: set<int>)
  {
    cur in vs && rest <= vs[cur].succs && PartiallyReset(m, vs, done, cur, vs[cur].succs - rest)
  }

  lemma ResetLoopStart(vs: Vertices)
    ensures ResetLoop(vs, vs, vs.Keys)
  {
    assert vs.Keys - vs.Keys == {};
    forall v | v in vs ensures vs[v] == vs[v].(preds := PartialPreds(vs, {}, 0, {}, v)) {
      assert Gained(vs, {}, v) == {};
    }
  }

  lemma ResetLoopEnd(m: Vertices, vs: Vertices)
    requires ResetLoop(m, vs, {})
    ensures m == ResetPreds(vs)
  {
    assert vs.Keys - {} == vs.Keys;
    var r := ResetPreds(vs);
    ResetAgrees(m, vs);
    assert m.Keys == r.Keys;
  }

  /** The fully reset table agrees with `ResetPreds` vertex by vertex. */
  lemma ResetAgrees(m: Vertices, vs: Vertices)
    requires PartiallyReset(m, vs, vs.Keys, 0, {})
    ensures forall v :: v in vs ==> m[v] == ResetPreds(vs)[v]
  {
    forall v | v in vs ensures m[v] == ResetPreds(vs)[v] {
      GainedAll(vs, v);
      assert ResetPreds(vs)[v] == vs[v].(preds := vs[v].preds + Parents(vs, v));
      assert PartialPreds(vs, vs.Keys, 0, {}, v) == vs[v].preds + Parents(vs, v);
    }
  }

  lemma GainedAll(vs: Vertices, v: int)
    ensures Gained(vs, vs.Keys, v) == Parents(vs, v)
  {
  }

  /** Picking vertex `cur` from `todo` starts the inner loop. */
  lemma ResetLoopEnter(m: Vertices, vs: Vertices, todo: set<int>, cur: int)
    requires ResetLoop(m, vs, todo) && cur in todo
    ensures cur in m && m[cur].succs == vs[cur].succs
    ensures SuccLoop(m, vs, vs.Keys - todo, cur, m[cur].succs)
  {
    assert vs[cur].succs - vs[cur].succs == {};
  }

  /** Handling one more successor `s` of `cur`. */
  lemma SuccLoopStep(m: Vertices, vs: Vertices, done: set<int>, cur: int, rest: set<int>, s: int)
    requires SuccsInKeys(vs) && SuccLoop(m, vs, done, cur, rest) && s in rest
    ensures s in m && SuccLoop(m[s := m[s].(preds := m[s].preds + {cur})], vs, done, cur, rest - {s})
  {
    var handled := vs[cur].succs - rest;
    assert vs[cur].succs - (rest - {s}) == handled + {s};
    assert s in vs;
    PartialResetAdd(m, vs, done, cur, handled, s);
  }

  lemma PartialResetAdd(m: Vertices, vs: Vertices, done: set<int>, cur: int, handled: set<int>, s: int)
    requires s in vs && PartiallyReset(m, vs, done, cur, handled)
    ensures PartiallyReset(m[s := m[s].(preds := m[s].preds + {cur})], vs, done, cur, handled + {s})
  {
    var m' := m[s := m[s].(preds := m[s].preds + {cur})];
    forall v | v in vs ensures m'[v] == vs[v].(preds := PartialPreds(vs, done, cur, handled + {s}, v)) {
      if v == s {
        assert PartialPreds(vs, done, cur, handled + {s}, v) == PartialPreds(vs, done, cur, handled, v) + {cur};
      } else {
        assert PartialPreds(vs, done, cur, handled + {s}, v) == PartialPreds(vs, done, cur, handled, v);
      }
    }
  }

  lemma GainedAdd(vs: Vertices, done: set<int>, cur: int, v: int)
    requires cur in vs
    ensures Gained(vs, done + {cur}, v) == Gained(vs, done, v) + (if v in vs[cur].succs then {cur} else {})
  {
  }

  /** A finished inner loop: `cur` is handled. */
  lemma SuccLoopExit(m: Vertices, vs: Vertices, todo: set<int>, cur: int)
    requires cur in todo && todo <= vs.Keys && SuccLoop(m, vs, vs.Keys - todo, cur, {})
    ensures ResetLoop(m, vs, todo - {cur})
  {
    var done := vs.Keys - todo;
    assert vs[cur].succs - {} == vs[cur].succs;
    assert vs.Keys - (todo - {cur}) == done + {cur};
    forall v | v in vs ensures m[v] == vs[v].(preds := PartialPreds(vs, done + {cur}, 0, {}, v)) {
      GainedAdd(vs, done, cur, v);
      assert PartialPreds(vs, done + {cur}, 0, {}, v) == PartialPreds(vs, done, cur, vs[cur].succs, v);
    }
  }

  // ---------------------------------------------------------------------
  // The generator's loops

  /** The draws as `generate_graph` consumes them, slot by slot: the slot
      identifiers (a permutation), one load, dependency count and sample per
      slot, and `ps`, the predecessor slots they select. */
  ghost predicate GenInputs(ids: seq<int>, loads: seq<int>, depCounts: seq<int>,
                            samples: seq<seq<int>>, ps: seq<set<int>>)
  {
    && 1 <= |ids| && IsPermutation(ids, |ids|)
    && |loads| == |ids| && |depCounts| == |ids| && |samples| == |ids| && |ps| == |ids|
    && (forall t :: 0 <= t < |ids| ==> ps[t] == SlotPreds(depCounts, samples, t))
    && (forall t, s :: 0 <= t < |ps| && s in ps[t] ==> 0 <= s < t)
    && (forall t :: 1 <= t < |ids| && depCounts[t] < t ==> forall i :: 0 <= i < |samples[t]| ==> 0 <= samples[t][i] < t)
  }

  /** Invariant of the slot loop: slots 0 .. task-1 are complete. */
  ghost predicate SlotLoop(vs: Vertices, ids: seq<int>, loads: seq<int>, depCounts: seq<int>,
                           samples: seq<seq<int>>, ps: seq<set<int>>, task: int)
  {
    GenInputs(ids, loads, depCounts, samples, ps) && 1 <= task <= |ids|
    && Built(vs, ids, loads, ps, task - 1, ps[task - 1])
  }

  /** Invariant of the loop over a drawn sample: slot `task` is wired to the
      first `j` sampled slots. */
  ghost predicate SampleLoop(vs: Vertices, ids: seq<int>, loads: seq<int>, depCounts: seq<int>,
                             samples: seq<seq<int>>, ps: seq<set<int>>, task: int, j: int)
  {
    GenInputs(ids, loads, depCounts, samples, ps) && 1 <= task < |ids| && depCounts[task] < task
    && 0 <= j <= |samples[task]| && Built(vs, ids, loads, ps, task, Elements(samples[task][..j]))
  }

  /** Invariant of the loop over all earlier slots: slot `task` is wired to
      slots 0 .. pred-1. */
  ghost predicate AllLoop(vs: Vertices, ids: seq<int>, loads: seq<int>, depCounts: seq<int>,
                          samples: seq<seq<int>>, ps: seq<set<int>>, task: int, pred: int)
  {
    GenInputs(ids, loads, depCounts, samples, ps) && 1 <= task < |ids| && depCounts[task] >= task
    && 0 <= pred <= task && Built(vs, ids, loads, ps, task, Interval(pred))
  }

  /** A point of the generator's loops: the table built so far and the
      loop counter. */
  type BuildPoint = (Vertices, int)

  /** The points (table, task) at which the slot loop's invariant holds. */
  ghost function SlotStates(ids: seq<int>, loads: seq<int>, depCounts: seq<int>,
                            samples: seq<seq<int>>, ps: seq<set<int>>): iset<BuildPoint>
  {
    iset p: BuildPoint | SlotLoop(p.0, ids, loads, depCounts, samples, ps, p.1)
  }

  /** The points (table, j) at which the sample loop's invariant holds. */
  ghost function SampleStates(ids: seq<int>, loads: seq<int>, depCounts: seq<int>,
                              samples: seq<seq<int>>, ps: seq<set<int>>, task: int): iset<BuildPoint>
  {
    iset p: BuildPoint | SampleLoop(p.0, ids, loads, depCounts, samples, ps, task, p.1)
  }

  /** The points (table, pred) at which the loop over all earlier slots keeps
      its invariant. */
  ghost function AllStates(ids: seq<int>, loads: seq<int>, depCounts: seq<int>,
                           samples: seq<seq<int>>, ps: seq<set<int>>, task: int): iset<BuildPoint>
  {
    iset p: BuildPoint | AllLoop(p.0, ids, loads, depCounts, samples, ps, task, p.1)
  }

  lemma BuildStart(ids: seq<int>, loads: seq<int>, depCounts: seq<int>, samples: seq<seq<int>>, ps: seq<set<int>>)
    requires GenInputs(ids, loads, depCounts, samples, ps)
    ensures (map[ids[0] := NewTask(ids[0], loads[0])], 1) in SlotStates(ids, loads, depCounts, samples, ps)
  {
    var vs := map[ids[0] := NewTask(ids[0], loads[0])];
    forall t | 0 <= t < |ids| ensures ids[t] in vs <==> t <= 0 {
      if t != 0 {
        assert ids[t] != ids[0];
      }
    }
  }

  lemma SlotEnter(vs: Vertices, ids: seq<int>, loads: seq<int>, depCounts: seq<int>,
                  samples: seq<seq<int>>, ps: seq<set<int>>, task: int)
    requires (vs, task) in SlotStates(ids, loads, depCounts, samples, ps) && task < |ids|
    ensures var vs' := vs[ids[task] := NewTask(ids[task], loads[task])];
      && (depCounts[task] < task ==> (vs', 0) in SampleStates(ids, loads, depCounts, samples, ps, task))
      && (depCounts[task] >= task ==> (vs', 0) in AllStates(ids, loads, depCounts, samples, ps, task))
  {
    AddTaskKeepsBuilt(vs, ids, loads, ps, task - 1);
    assert Elements(samples[task][..0]) == {};
    assert Interval(0) == {};
  }

  lemma SampleStep(vs: Vertices, ids: seq<int>, loads: seq<int>, depCounts: seq<int>,
                   samples: seq<seq<int>>, ps: seq<set<int>>, task: int, j: int)
    requires (vs, j) in SampleStates(ids, loads, depCounts, samples, ps, task) && j < |samples[task]|
    ensures var pred := samples[task][j];
      && 0 <= pred < task < |ids| && ids[task] in vs && ids[pred] in vs
      && (AddEdge(vs, ids[pred], ids[task]), j + 1) in SampleStates(ids, loads, depCounts, samples, ps, task)
  {
    var sample := samples[task];
    var pred := sample[j];
    AddEdgeKeepsBuilt(vs, ids, loads, ps, task, Elements(sample[..j]), pred);
    assert sample[..j + 1] == sample[..j] + [pred];
    assert Elements(sample[..j + 1]) == Elements(sample[..j]) + {pred};
  }

  lemma SampleExit(vs: Vertices, ids: seq<int>, loads: seq<int>, depCounts: seq<int>,
                   samples: seq<seq<int>>, ps: seq<set<int>>, task: int, j: int)
    requires (vs, j) in SampleStates(ids, loads, depCounts, samples, ps, task) && j == |samples[task]|
    ensures (vs, task + 1) in SlotStates(ids, loads, depCounts, samples, ps)
  {
    assert samples[task][..j] == samples[task];
  }

  lemma AllStep(vs: Vertices, ids: seq<int>, loads: seq<int>, depCounts: seq<int>,
                samples: seq<seq<int>>, ps: seq<set<int>>, task: int, pred: int)
    requires (vs, pred) in AllStates(ids, loads, depCounts, samples, ps, task) && pred < task
    ensures 0 <= pred < task < |ids| && ids[task] in vs && ids[pred] in vs
      && (AddEdge(vs, ids[pred], ids[task]), pred + 1) in AllStates(ids, loads, depCounts, samples, ps, task)
  {
    AddEdgeKeepsBuilt(vs, ids, loads, ps, task, Interval(pred), pred);
    assert Interval(pred + 1) == Interval(pred) + {pred};
  }

  lemma AllExit(vs: Vertices, ids: seq<int>, loads: seq<int>, depCounts: seq<int>,
                samples: seq<seq<int>>, ps: seq<set<int>>, task: int, pred: int)
    requires (vs, pred) in AllStates(ids, loads, depCounts, samples, ps, task) && pred == task
    ensures (vs, task + 1) in SlotStates(ids, loads, depCounts, samples, ps)
  {
  }

  lemma BuildEnd(vs: Vertices, ids: seq<int>, loads: seq<int>, depCounts: seq<int>,
                 samples: seq<seq<int>>, ps: seq<set<int>>, task: int)
    requires (vs, task) in SlotStates(ids, loads, depCounts, samples, ps) && task >= |ids|
    ensures vs in BuiltTables(ids, loads, ps)
  {
    assert task == |ids|;
    assert Built(vs, ids, loads, ps, task - 1, ps[task - 1]);
  }

  lemma DrawsGiveInputs(n: int, minLoad: int, maxLoad: int, minDep: int, maxDep: int,
                        rename: bool, shuffled: seq<int>, loads: seq<int>,
                        depCounts: seq<int>, samples: seq<seq<int>>)
    requires ValidDraws(n, minLoad, maxLoad, minDep, maxDep, rename, shuffled, loads, depCounts, samples)
    ensures GenInputs(SlotIds(n, rename, shuffled), loads, depCounts, samples, AllSlotPreds(depCounts, samples, n))
    ensures forall t :: 1 <= t < n ==>
      |AllSlotPreds(depCounts, samples, n)[t]| == if depCounts[t] < t then depCounts[t] else t
  {
    SlotIdsArePermutation(n, rename, shuffled);
    var ps := AllSlotPreds(depCounts, samples, n);
    forall t | 0 <= t < n
      ensures forall s :: s in ps[t] ==> 0 <= s < t
      ensures 1 <= t ==> |ps[t]| == if depCounts[t] < t then depCounts[t] else t
    {
      SlotPredsShape(n, minLoad, maxLoad, minDep, maxDep, rename, shuffled, loads, depCounts, samples, t);
    }
  }

  /** What `generate_graph` promises about the table it builds from the
      draws: the tasks (below) and the edges between them (further below). */
  ghost predicate GeneratedBy(vs: Vertices, n: int, minLoad: int, maxLoad: int, rename: bool,
                              shuffled: seq<int>, loads: seq<int>, depCounts: seq<int>, samples: seq<seq<int>>)
  {
    && GeneratedTasks(vs, n, minLoad, maxLoad, rename, shuffled, loads)
    && GeneratedEdges(vs, n, rename, shuffled, depCounts, samples)
  }

  /** Keys 0 .. n-1; each task carries its key, its slot's load, and unset
      scheduling attributes. */
  ghost predicate GeneratedTasks(vs: Vertices, n: int, minLoad: int, maxLoad: int, rename: bool,
                                 shuffled: seq<int>, loads: seq<int>)
  {
    var ids := SlotIds(n, rename, shuffled);
    && 1 <= n && |ids| == n && |loads| == n
    && vs.Keys == Interval(n)
    && (forall k :: k in vs ==>
         && vs[k].id == k && minLoad <= vs[k].load < maxLoad
         && vs[k].priority == -1 && vs[k].topLevel == -1 && vs[k].bottomLevel == -1)
    && (forall t :: 0 <= t < n ==> ids[t] in vs && vs[ids[t]].load == loads[t])
  }

  /** Slot 0 is an entry vertex; slot t has exactly its selected
      predecessor slots, min(count, t) of them; every edge is recorded on
      both ends; and there is no cycle. */
  ghost predicate GeneratedEdges(vs: Vertices, n: int, rename: bool, shuffled: seq<int>,
                                 depCounts: seq<int>, samples: seq<seq<int>>)
  {
    var ids := SlotIds(n, rename, shuffled);
    && 1 <= n && |ids| == n && |depCounts| == n && |samples| == n
    && (forall t :: 0 <= t < n ==> ids[t] in vs)
    && vs[ids[0]].preds == {}
    && (forall t, s :: 0 <= t < n && 0 <= s < n ==>
          (ids[s] in vs[ids[t]].preds <==> s in SlotPreds(depCounts, samples, t)))
    && (forall t :: 1 <= t < n ==>
          |vs[ids[t]].preds| == if depCounts[t] < t then depCounts[t] else t)
    && Symmetric(vs) && Acyclic(vs)
  }

  /** The generator's table once all slots are built. */
  lemma GeneratedShape(n: int, minLoad: int, maxLoad: int, minDep: int, maxDep: int,
                       rename: bool, shuffled: seq<int>, loads: seq<int>,
                       depCounts: seq<int>, samples: seq<seq<int>>, vs: Vertices)
    requires ValidDraws(n, minLoad, maxLoad, minDep, maxDep, rename, shuffled, loads, depCounts, samples)
    requires vs in BuiltTables(SlotIds(n, rename, shuffled), loads, AllSlotPreds(depCounts, samples, n))
    ensures GeneratedBy(vs, n, minLoad, maxLoad, rename, shuffled, loads, depCounts, samples)
  {
    GeneratedTasksShape(n, minLoad, maxLoad, minDep, maxDep, rename, shuffled, loads, depCounts, samples, vs);
    GeneratedEdgesShape(n, minLoad, maxLoad, minDep, maxDep, rename, shuffled, loads, depCounts, samples, vs);
  }

  lemma GeneratedTasksShape(n: int, minLoad: int, maxLoad: int, minDep: int, maxDep: int,
                            rename: bool, shuffled: seq<int>, loads: seq<int>,
                            depCounts: seq<int>, samples: seq<seq<int>>, vs: Vertices)
    requires ValidDraws(n, minLoad, maxLoad, minDep, maxDep, rename, shuffled, loads, depCounts, samples)
    requires vs in BuiltTables(SlotIds(n, rename, shuffled), loads, AllSlotPreds(depCounts, samples, n))
    ensures GeneratedTasks(vs, n, minLoad, maxLoad, rename, shuffled, loads)
  {
    DrawsGiveInputs(n, minLoad, maxLoad, minDep, maxDep, rename, shuffled, loads, depCounts, samples);
    BuiltFacts(vs, SlotIds(n, rename, shuffled), loads, AllSlotPreds(depCounts, samples, n), minLoad, maxLoad);
  }

  lemma GeneratedEdgesShape(n: int, minLoad: int, maxLoad: int, minDep: int, maxDep: int,
                            rename: bool, shuffled: seq<int>, loads: seq<int>,
                            depCounts: seq<int>, samples: seq<seq<int>>, vs: Vertices)
    requires ValidDraws(n, minLoad, maxLoad, minDep, maxDep, rename, shuffled, loads, depCounts, samples)
    requires vs in BuiltTables(SlotIds(n, rename, shuffled), loads, AllSlotPreds(depCounts, samples, n))
    ensures GeneratedEdges(vs, n, rename, shuffled, depCounts, samples)
  {
    var ids := SlotIds(n, rename, shuffled);
    var ps := AllSlotPreds(depCounts, samples, n);
    DrawsGiveInputs(n, minLoad, maxLoad, minDep, maxDep, rename, shuffled, loads, depCounts, samples);
    BuiltFacts(vs, ids, loads, ps, minLoad, maxLoad);
    assert ps[0] == {};
    assert |vs[ids[0]].preds| == 0;
  }

  class Graph {
    var vertices: Vertices
    var topologicalOrder: seq<int>

    constructor ()
      ensures vertices == map[] && topologicalOrder == []
    {
      vertices := map[];
      topologicalOrder := [];
    }

    /** Layered frontier sweep. First every entry vertex is ordered; then,
        pass after pass, each candidate whose predecessors are all ordered
        joins the order and contributes its successors as candidates.
        `complete` is the final length check, which on an acyclic graph
        always succeeds. */
    method TopologicalOrdering() returns (complete: bool)
      requires SuccsInKeys(vertices) && PredsMirrored(vertices) && Acyclic(vertices)
      modifies this`topologicalOrder
      ensures IsTopologicalOrder(vertices, topologicalOrder)
      ensures RootsFirst(vertices, topologicalOrder)
      ensures complete == (|vertices| == |topologicalOrder|)
      ensures complete
    {
      topologicalOrder := [];
      var checked, toCheck, pos := OrderEntries();
      ghost var roots := |topologicalOrder|;
      ghost var rank :| IsRanking(vertices, rank);
      assert rank in Rankings(vertices);
      while toCheck != {}
        invariant (topologicalOrder, pos, checked, toCheck) in SweepStates(vertices, roots)
        decreases |vertices.Keys - checked|, |toCheck|
      {
        checked, toCheck, pos := SweepPass(checked, toCheck, pos, roots, rank);
      }
      forall v | v in vertices ensures v in checked {
        ChecksEverything(vertices, rank, checked, v);
      }
      forall i, u | 0 <= i < |topologicalOrder| && u in vertices[topologicalOrder[i]].preds
        ensures u in topologicalOrder[..i]
      {
        assert topologicalOrder[..i][pos[u]] == u;
      }
      forall k | k in vertices ensures k in topologicalOrder {
        assert topologicalOrder[pos[k]] == k;
      }
      assert IsTopologicalOrder(vertices, topologicalOrder);
      TopologicalOrderLength(vertices, topologicalOrder);
      complete := |vertices| == |topologicalOrder|;
    }

    /** First step of the sweep: every vertex without predecessors is
        ordered, and its successors become candidates. */
    method OrderEntries() returns (checked: set<int>, toCheck: set<int>, ghost pos: map<int, nat>)
      requires SuccsInKeys(vertices) && PredsMirrored(vertices)
      requires topologicalOrder == []
      modifies this`topologicalOrder
      ensures (topologicalOrder, pos, checked, toCheck) in SweepStates(vertices, |topologicalOrder|)
    {
      checked := {};
      toCheck := {};
      pos := map[];
      var unvisited := vertices.Keys;
      while unvisited != {}
        invariant unvisited <= vertices.Keys && checked <= vertices.Keys && toCheck <= vertices.Keys
        invariant forall k :: k in vertices ==> (k in checked <==> k !in unvisited && IsRoot(vertices, k))
        invariant Indexed(topologicalOrder, pos) && pos.Keys == checked
        invariant forall i :: 0 <= i < |topologicalOrder| ==> IsRoot(vertices, topologicalOrder[i])
        invariant forall u :: u in checked ==> vertices[u].succs <= toCheck
        decreases unvisited
      {
        ghost var some := Pick(unvisited);
        var id :| id in unvisited;
        forall b | b in vertices[id].succs ensures b in vertices {
          assert SuccsInKeys(vertices);
        }
        if vertices[id].preds == {} {
          checked := checked + {id};
          pos := pos[id := |topologicalOrder|];
          topologicalOrder := topologicalOrder + [id];
          toCheck := toCheck + vertices[id].succs;
        }
        unvisited := unvisited - {id};
      }
    }

    /** One pass of the second step: drop candidates already ordered, order
        each remaining candidate whose predecessors are all ordered (its
        successors become candidates), and keep the others for the next
        pass. On an acyclic graph a pass with candidates orders at least
        one vertex. */
    method SweepPass(checked: set<int>, toCheck: set<int>, ghost pos: map<int, nat>,
                     ghost roots: int, ghost rank: map<int, nat>)
      returns (checked': set<int>, toCheckLater: set<int>, ghost pos': map<int, nat>)
      requires rank in Rankings(vertices)
      requires (topologicalOrder, pos, checked, toCheck) in SweepStates(vertices, roots)
      modifies this`topologicalOrder
      ensures (topologicalOrder, pos', checked', toCheckLater) in SweepStates(vertices, roots)
      ensures checked <= checked'
      ensures checked' == checked ==> toCheckLater == {}
      ensures checked' != checked ==> |vertices.Keys - checked'| < |vertices.Keys - checked|
    {
      var candidates := toCheck - checked;
      ghost var m := PassStart(vertices, rank, topologicalOrder, pos, checked, toCheck, roots);
      checked', pos', toCheckLater := checked, pos, {};
      var rest := candidates;
      while rest != {}
        invariant (topologicalOrder, pos', rest, checked', toCheckLater) in PassStates(vertices, rank, checked, toCheck, roots, m)
        decreases rest
      {
        ghost var some := Pick(rest);
        var id :| id in rest;
        checked', toCheckLater, pos' := SweepVisit(id, checked', toCheckLater, pos', checked, toCheck, roots, rank, rest, m);
        rest := rest - {id};
      }
      PassEnd(vertices, rank, topologicalOrder, pos', checked, toCheck, roots, checked', toCheckLater, m);
    }

    /** One vertex of a pass: appended to the order when all its predecessors
        are checked (its successors become candidates of the next pass), and
        otherwise put back for the next pass. */
    method SweepVisit(id: int, checked: set<int>, later: set<int>, ghost pos: map<int, nat>,
                      ghost checked0: set<int>, ghost toCheck0: set<int>, ghost roots: int,
                      ghost rank: map<int, nat>, ghost rest: set<int>, ghost m: int)
      returns (checked': set<int>, later': set<int>, ghost pos': map<int, nat>)
      requires (topologicalOrder, pos, rest, checked, later) in PassStates(vertices, rank, checked0, toCheck0, roots, m)
      requires id in rest
      modifies this`topologicalOrder
      ensures (topologicalOrder, pos', rest - {id}, checked', later') in PassStates(vertices, rank, checked0, toCheck0, roots, m)
    {
      if vertices[id].preds <= checked {
        PassJoin(vertices, rank, topologicalOrder, pos, checked0, toCheck0, roots, rest, checked, later, m, id);
        pos' := pos[id := |topologicalOrder|];
        topologicalOrder := topologicalOrder + [id];
        later' := later + vertices[id].succs;
        checked' := checked + {id};
      } else {
        PassDefer(vertices, rank, topologicalOrder, pos, checked0, toCheck0, roots, rest, checked, later, m, id);
        checked', later', pos' := checked, later + {id}, pos;
      }
    }

    /** Adds every vertex, as a predecessor, to each of its successors. */
    method ResetPredecessors()
      requires SuccsInKeys(vertices)
      modifies this`vertices
      ensures vertices == ResetPreds(old(vertices))
    {
      ghost var vs := vertices;
      ResetLoopStart(vs);
      var todo := vertices.Keys;
      while todo != {}
        invariant ResetLoop(vertices, vs, todo)
        decreases todo
      {
        ghost var some := Pick(todo);
        var id :| id in todo;
        ResetLoopEnter(vertices, vs, todo, id);
        var rest := vertices[id].succs;
        while rest != {}
          invariant SuccLoop(vertices, vs, vs.Keys - todo, id, rest)
          decreases rest
        {
          ghost var someSucc := Pick(rest);
          var succId :| succId in rest;
          SuccLoopStep(vertices, vs, vs.Keys - todo, id, rest, succId);
          vertices := vertices[succId := vertices[succId].(preds := vertices[succId].preds + {id})];
          rest := rest - {succId};
        }
        SuccLoopExit(vertices, vs, todo, id);
        todo := todo - {id};
      }
      ResetLoopEnd(vertices, vs);
    }

    /** Builds a DAG of `numTasks` tasks. Slot t (in 0 .. numTasks-1) gets the
        identifier `SlotIds(..)[t]` and load `loads[t]`; each slot after the
        first depends on `samples[t]` when its drawn count `depCounts[t]` is
        below t, and on every earlier slot otherwise. The graph is then
        topologically sorted. */
    static method GenerateGraph(numTasks: int, minLoad: int, maxLoad: int, minDep: int, maxDep: int,
                                rename: bool, shuffled: seq<int>, loads: seq<int>,
                                depCounts: seq<int>, samples: seq<seq<int>>)
      returns (g: Graph)
      requires ValidDraws(numTasks, minLoad, maxLoad, minDep, maxDep, rename, shuffled, loads, depCounts, samples)
      ensures fresh(g)
      ensures GeneratedBy(g.vertices, numTasks, minLoad, maxLoad, rename, shuffled, loads, depCounts, samples)
      ensures IsTopologicalOrder(g.vertices, g.topologicalOrder) && RootsFirst(g.vertices, g.topologicalOrder)
    {
      g := new Graph();
      g.vertices := GenerateVertices(numTasks, minLoad, maxLoad, minDep, maxDep, rename, shuffled, loads, depCounts, samples);
      // The last step: the topological order.
      var complete := g.TopologicalOrdering();
    }

    /** The table that `generate_graph` builds before sorting it. */
    static method GenerateVertices(numTasks: int, minLoad: int, maxLoad: int, minDep: int, maxDep: int,
                                   rename: bool, shuffled: seq<int>, loads: seq<int>,
                                   depCounts: seq<int>, samples: seq<seq<int>>)
      returns (vertices: Vertices)
      requires ValidDraws(numTasks, minLoad, maxLoad, minDep, maxDep, rename, shuffled, loads, depCounts, samples)
      ensures GeneratedBy(vertices, numTasks, minLoad, maxLoad, rename, shuffled, loads, depCounts, samples)
    {
      // Slot-to-identifier table, shuffled when renaming.
      var ids := SlotIds(numTasks, rename, shuffled);
      ghost var ps := AllSlotPreds(depCounts, samples, numTasks);
      DrawsGiveInputs(numTasks, minLoad, maxLoad, minDep, maxDep, rename, shuffled, loads, depCounts, samples);
      vertices := BuildVertices(ids, loads, depCounts, samples, ps);
      GeneratedShape(numTasks, minLoad, maxLoad, minDep, maxDep, rename, shuffled, loads, depCounts, samples, vertices);
    }

    /** The loop of `generate_graph` that creates the tasks slot by slot and
        wires each to its predecessor slots. */
    static method BuildVertices(ids: seq<int>, loads: seq<int>, depCounts: seq<int>,
                                samples: seq<seq<int>>, ghost ps: seq<set<int>>)
      returns (vertices: Vertices)
      requires GenInputs(ids, loads, depCounts, samples, ps)
      ensures vertices in BuiltTables(ids, loads, ps)
    {
      var numTasks := |ids|;
      // The first slot is an entry vertex.
      vertices := map[ids[0] := NewTask(ids[0], loads[0])];
      BuildStart(ids, loads, depCounts, samples, ps);
      var task := 1;
      while task < numTasks
        invariant (vertices, task) in SlotStates(ids, loads, depCounts, samples, ps)
        decreases numTasks - task
      {
        SlotEnter(vertices, ids, loads, depCounts, samples, ps, task);
        vertices := vertices[ids[task] := NewTask(ids[task], loads[task])];
        var numDep := depCounts[task];
        if numDep < task {
          var sample := samples[task];
          var j := 0;
          while j < |sample|
            invariant (vertices, j) in SampleStates(ids, loads, depCounts, samples, ps, task)
            decreases |sample| - j
          {
            var pred := sample[j];
            SampleStep(vertices, ids, loads, depCounts, samples, ps, task, j);
            vertices := AddEdge(vertices, ids[pred], ids[task]);
            j := j + 1;
          }
          SampleExit(vertices, ids, loads, depCounts, samples, ps, task, j);
        } else {
          var pred := 0;
          while pred < task
            invariant (vertices, pred) in AllStates(ids, loads, depCounts, samples, ps, task)
            decreases task - pred
          {
            AllStep(vertices, ids, loads, depCounts, samples, ps, task, pred);
            vertices := AddEdge(vertices, ids[pred], ids[task]);
            pred := pred + 1;
          }
          AllExit(vertices, ids, loads, depCounts, samples, ps, task, pred);
        }
        task := task + 1;
      }
      BuildEnd(vertices, ids, loads, depCounts, samples, ps, task);
    }
  }
}
