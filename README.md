# Task-scheduling simulator, modelled in Dafny

This project models the three pieces of the `simulator` package of
study-task-scheduling. Together they form one pipeline:

- **Task graph** (`simulator/graph.py`). `Task` records are kept in a
  `Graph` whose table maps task ids to tasks. The graph has a layered
  topological sort, a restoration of predecessor sets
  (`reset_predecessors`) and a random DAG generator (`generate_graph`).
- **Priority strategies** (`simulator/schedulers.py`). Each overwrites
  the `priority` field of every task in place.
- **Discrete-event engine** (`simulator/simulator.py`, `simulate`). It
  list-schedules the graph on identical resources with:
  - a FIFO list of free resources;
  - a ready queue that hands out a task of least priority;
  - an event queue of completions ordered by (time, task id, resource id).

  It returns the makespan. The model also returns, as ghost values, the
  schedule and a log of the run, and proves that every start and every
  completion in the log is a move the engine's rules allow.

The model keeps the code's imperative form:

- `Graph` is a class with fields `vertices: map<int, Task>` and
  `topologicalOrder: seq<int>`.
- `topological_ordering`, `reset_predecessors`, the generator's loop,
  every strategy and `simulate` are methods with `while` loops.
- Each method is proved against a specification function or predicate.
  The properties the code promises are lemmas about those functions.

Iteration over a Python `set` or `dict` is an arbitrary choice (`:|`), so every
result holds for every iteration order. Which of several equal-priority ready
tasks `heappop` returns is likewise left open.

Modules:
- `Common` (common.dfy): Option, ranges, distinct sequences, permutations,
  least elements.
- `TaskGraph` (graph.dfy): `Task`, shape predicates, the `Graph` class, the
  reset and the generator.
- `Schedulers` (schedulers.dfy): the strategies.
- `Simulator` (simulator.dfy): the engine, its state and invariant, and the
  end-of-run theorem.

Where the code does something other than its own docstrings or comments
say, the model follows the code:

- The docstring of `priority_by_lpt` says the priority becomes the task's
  load, and that of `priority_by_successors` says it becomes the number of
  successors. Both functions multiply the existing priority instead (`*=`).
  From the initial -1 this gives minus the load or minus the count
  (`Schedulers.LptFromInitial`, `Schedulers.SuccessorsFromInitial`).
- The docstring of `priority_by_hlf` speaks of levels, but the code computes
  none. It multiplies the priority of key `i` by the id of key `k-1-i`, unless
  that id is 0. `Schedulers.Hlf` is exactly that.
- `reset_predecessors` adds into the existing sets. Adding the same elements
  twice changes nothing, so calling it twice is the same as calling it once,
  whatever the table (`TaskGraph.ResetTwiceIsOnce`).
- `topological_ordering` has three outcomes:
  - on an acyclic graph it ends with every vertex ordered;
  - if a cycle can be reached from an entry vertex, its `while` loop does
    not end, because a vertex whose predecessors can never all be checked
    goes back into `to_check` on every pass;
  - if some vertices are never reached (a cycle that no entry vertex leads
    to, or no entry vertex at all), the loop ends and the length check prints
    its error.

  The model requires an acyclic graph, so only the first outcome is
  modelled and `complete` is always true. Generated graphs are acyclic.
- Loads are not assumed positive. The generator draws them from
  `[min_load, max_load)`, which may include negative values. All timing
  properties are stated under `NonNegativeLoads`. With a negative load an
  event can be scheduled before the current clock.

## Model

| member | source | states |
|---|---|---|
| TaskGraph.NewTask | simulator/graph.py:33-40 | a new task has the given id and load, no predecessors or successors, and priority, top level and bottom level all -1 |
| TaskGraph.LessSeesOnlyPriority | simulator/graph.py:49-50 | `a < b` holds iff a's priority is below b's; the id and load of either side play no part; the order is irreflexive, transitive and asymmetric |
| TaskGraph.Graph.constructor | simulator/graph.py:64-66 | a new graph has an empty table and an empty order |
| TaskGraph.Graph.TopologicalOrdering | simulator/graph.py:77-113 | on an acyclic graph whose edges stay in the table and whose predecessor edges are mirrored, the loop ends; the order lists every vertex exactly once, every predecessor strictly earlier, and all entry vertices before every other vertex; the length check succeeds |
| TaskGraph.Graph.OrderEntries | simulator/graph.py:79-89 | the first phase orders exactly the vertices without predecessors, indexes them, and puts every successor of an ordered vertex among the candidates |
| TaskGraph.Graph.SweepPass | simulator/graph.py:91-110 | one pass removes the already checked candidates, keeps the sweep invariant (among other things, every unchecked vertex with a checked predecessor is a candidate), never unchecks a vertex, and either checks a new vertex or leaves no candidate; this is the termination argument |
| TaskGraph.Graph.SweepVisit | simulator/graph.py:96-108 | a candidate whose predecessors are all checked is appended and its successors become candidates; any other candidate is kept for the next pass; the pass invariant is kept either way |
| TaskGraph.PassStart | simulator/graph.py:93-94 | on an acyclic graph a pass with candidates has a candidate of least rank among the unchecked vertices, whose predecessors are all checked |
| TaskGraph.PassJoin | simulator/graph.py:99-105 | appending a candidate whose predecessors are checked keeps positions indexed, predecessors earlier, and entry vertices first |
| TaskGraph.PassDefer | simulator/graph.py:106-108 | a deferred candidate is a candidate of the next pass |
| TaskGraph.PassEnd | simulator/graph.py:109-110 | at the end of a pass the sweep invariant holds for the next pass; if no vertex was checked, no candidate remains, and otherwise fewer vertices are unchecked |
| TaskGraph.ChecksEverything | simulator/graph.py:91-113 | when every entry vertex is checked and checking spreads along every predecessor edge, every vertex of an acyclic graph is checked, so the list length check cannot fail |
| TaskGraph.TopologicalOrderRanks | simulator/graph.py:77-113 | a graph with a topological order is acyclic (the positions rank it) |
| TaskGraph.TopologicalOrderLength | simulator/graph.py:112 | an order that lists every key exactly once, and nothing else, has as many entries as the table has keys |
| TaskGraph.ResetPreds | simulator/graph.py:115-119 | the reset keeps the keys, changes only predecessor sets, and only enlarges them |
| TaskGraph.Graph.ResetPredecessors | simulator/graph.py:115-119 | the nested loops leave, for every v, preds[v] = old preds[v] ∪ {u : v ∈ succs[u]}, with everything else unchanged |
| TaskGraph.ResetAgrees | simulator/graph.py:117-119 | once every vertex has been handled, the table agrees with the reset vertex by vertex |
| TaskGraph.PartialResetAdd | simulator/graph.py:119 | adding the current vertex to one more successor's predecessor set advances the partial reset by exactly that successor |
| TaskGraph.ResetTwiceIsOnce | simulator/graph.py:115-119 | calling the reset twice gives the same table as calling it once |
| TaskGraph.ResetOfDrainedIsInverse | simulator/graph.py:115-119 | on a table with all predecessor sets empty, the reset installs exactly the inverse of the successor relation, so edges become symmetric |
| TaskGraph.ResetAfterDrainRestores | simulator/graph.py:115-119 | draining every predecessor set of a symmetric table and then resetting gives back the original table |
| TaskGraph.SlotIdsArePermutation | simulator/graph.py:155-158 | the slot-to-id table (the shuffle, or the identity) is a permutation of 0 .. n-1 |
| TaskGraph.SlotPredsShape | simulator/graph.py:171-182 | slot t selects only earlier slots, exactly min(num_dep, t) distinct ones |
| TaskGraph.DrawsGiveInputs | simulator/graph.py:155-182 | valid draws give a permutation of ids and, for each slot, earlier predecessor slots, min(num_dep, t) of them |
| TaskGraph.AddTaskKeepsBuilt | simulator/graph.py:168-169 | creating the task of the next slot extends the built table by a fresh task with that slot's id and load |
| TaskGraph.AddEdgeEffect | simulator/graph.py:176-177 | adding the edge u -> v adds u to v's predecessors and v to u's successors, and changes nothing else |
| TaskGraph.AddEdgeKeepsBuilt | simulator/graph.py:175-182 | wiring slot p < cur to slot cur keeps the table built, with p added to cur's selected predecessors |
| TaskGraph.EdgeKeepsBuilt | simulator/graph.py:175-182 | any table differing from a built one by exactly that edge is built, with p added |
| TaskGraph.EdgeKeepsShape | simulator/graph.py:176-177 | the edge joins two existing tasks, and no key, id, load or other field changes |
| TaskGraph.EdgeKeepsPreds | simulator/graph.py:176 | the edge adds slot p to the predecessors of slot cur and to no other slot's predecessors |
| TaskGraph.EdgeKeepsSuccs | simulator/graph.py:177 | the edge adds slot cur to the successors of slot p and to no other slot's successors |
| TaskGraph.BuildStart | simulator/graph.py:163-164 | the table holding only slot 0's task is built up to slot 0 |
| TaskGraph.SlotEnter | simulator/graph.py:166-173 | creating slot `task` starts the sample loop or the all-earlier-slots loop, whichever branch num_dep selects |
| TaskGraph.SampleStep | simulator/graph.py:175-177 | each sampled slot is an earlier slot of the table, and wiring it advances the sample loop |
| TaskGraph.SampleExit | simulator/graph.py:175-177 | after the whole sample the slot is complete |
| TaskGraph.AllStep | simulator/graph.py:180-182 | each earlier slot is in the table, and wiring it advances the loop over all earlier slots |
| TaskGraph.AllExit | simulator/graph.py:180-182 | after all earlier slots the slot is complete |
| TaskGraph.BuildEnd | simulator/graph.py:166-182 | when the slot loop ends, every slot is completely built |
| TaskGraph.Graph.BuildVertices | simulator/graph.py:163-182 | the generator's loop yields a completely built table, with slot t as task ids[t], load loads[t], wired to exactly its selected predecessor slots |
| TaskGraph.BuiltKeys | simulator/graph.py:155-169 | a built table has keys exactly 0 .. n-1, each task carrying its key as id, with fresh attributes |
| TaskGraph.BuiltPredCount | simulator/graph.py:171-182 | slot t of a built table has exactly as many predecessors as slots were selected for it |
| TaskGraph.BuiltSymmetric | simulator/graph.py:176-182 | a built table records every edge on both ends |
| TaskGraph.BuiltAcyclic | simulator/graph.py:171-182 | slot order ranks a built table, so it is acyclic |
| TaskGraph.BuiltFacts | simulator/graph.py:155-182 | a built table's keys, ids, loads within [min_load, max_load), symmetric and acyclic edges, and per-slot predecessors |
| TaskGraph.GeneratedTasksShape | simulator/graph.py:155-169 | the generated keys are 0 .. n-1 with vertices[k].id == k; every load is in [min_load, max_load) and is its slot's draw; other attributes are -1 |
| TaskGraph.GeneratedEdgesShape | simulator/graph.py:163-182 | slot 0 has no predecessors; slot t has exactly its selected earlier slots, min(num_dep, t) of them; edges are symmetric; the graph is acyclic |
| TaskGraph.GeneratedShape | simulator/graph.py:155-182 | the tasks and edges as above, together |
| TaskGraph.Graph.GenerateVertices | simulator/graph.py:150-182 | the table the generator builds from the draws satisfies `GeneratedBy` |
| TaskGraph.Graph.GenerateGraph | simulator/graph.py:122-187 | a fresh graph whose table satisfies `GeneratedBy`, with a complete topological order whose entry vertices come first |
| Schedulers.Reprioritize | simulator/schedulers.py:25-77 | one pass over the tasks, in any order, leaves the table rescored: each task's priority is its score as computed from the task before the pass |
| Schedulers.RescoredShape | simulator/schedulers.py:25-77 | a rescoring changes only priorities, and each task gets its own score |
| Schedulers.RescoreLoopStep | simulator/schedulers.py:25-77 | each task is rescored once, from its untouched record |
| Schedulers.PriorityById | simulator/schedulers.py:25-26 | priority_by_id: the table rescored by `IdScore` |
| Schedulers.ByIdSetsKeys | simulator/schedulers.py:25-26 | every priority becomes the task's key, and nothing else changes |
| Schedulers.PriorityByLpt | simulator/schedulers.py:51-52 | priority_by_lpt: the table rescored by old priority × load |
| Schedulers.LptFromInitial | simulator/schedulers.py:51-52 | from priorities all -1, every priority becomes minus the load, and nothing else changes |
| Schedulers.PriorityBySpt | simulator/schedulers.py:64-65 | priority_by_spt: the table rescored by the load |
| Schedulers.SptForgetsPrevious | simulator/schedulers.py:64-65 | the result depends on the loads alone: two tables differing only in priorities give the same result, and every priority is the load |
| Schedulers.PriorityBySuccessors | simulator/schedulers.py:76-77 | priority_by_successors: the table rescored by old priority × number of successors |
| Schedulers.SuccessorsFromInitial | simulator/schedulers.py:76-77 | from priorities all -1, every priority becomes minus the number of successors, 0 for tasks without successors; nothing else changes |
| Schedulers.PriorityByTopologicalOrder | simulator/schedulers.py:38-40 | the loop over the stored order leaves the table `ByPosition`: order[i] gets priority i, in turn |
| Schedulers.ByPositionOnlyPriorities | simulator/schedulers.py:38-40 | for every order, repeated entries included, the loop changes only priorities |
| Schedulers.ByPositionSetsPositions | simulator/schedulers.py:38-40 | without repeated entries, each listed task's priority is its position and unlisted tasks are untouched |
| Schedulers.TopologicalPrioritiesArePermutation | simulator/schedulers.py:38-40 | when the order lists every key exactly once (as a topological order does), the priorities are exactly 0 .. n-1, each used by one task |
| Schedulers.PositionLoopStep | simulator/schedulers.py:38-40 | one iteration advances the prefix of the order that has been applied |
| Schedulers.Hlf | simulator/schedulers.py:97-101 | priority_by_hlf changes only priorities |
| Schedulers.PriorityByHlf | simulator/schedulers.py:97-101 | on a table holding keys 0 .. k-1, the loop leaves the table `Hlf`: key i gets the id of key k-1-i times its priority, unless that id is 0 |
| Schedulers.HlfLoopStep | simulator/schedulers.py:99-101 | both branches of one iteration (the `continue` and the multiplication) agree with `HlfTask` |
| Schedulers.HlfWithOwnIds | simulator/schedulers.py:97-101 | with keys 0 .. k-1 carrying their own ids, the priority of key i < k-1 is multiplied by k-1-i, and key k-1 is unchanged |
| Schedulers.HlfExample6 | simulator/schedulers.py:97-101 | an instance of `HlfWithOwnIds`: six tasks with their own ids and priority -1 get -5, -4, -3, -2, -1, -1 |
| Schedulers.KeysAreInterval | simulator/schedulers.py:97-98 | a table holding keys 0 .. k-1, with k its size, holds no other key |
| Simulator.EventLeTotalPreorder | simulator/simulator.py:55 | the lexicographic order of event tuples is total and transitive, so `heappop` has a least event to return |
| Simulator.PopEvent | simulator/simulator.py:55 | the popped event is in the queue, no pending event precedes it, and it leaves the queue |
| Simulator.LeastEventIsEarliest | simulator/simulator.py:55 | the least event has the earliest time |
| Simulator.PopReady | simulator/simulator.py:79 | the popped task is ready, and no ready task has a smaller priority |
| Simulator.InitialReady | simulator/simulator.py:36-42 | the initial ready queue holds exactly the tasks with no predecessors |
| Simulator.RemovePredecessor | simulator/simulator.py:63-65 | removing a finished task from its successors' predecessor sets keeps the keys |
| Simulator.ReleaseSuccessors | simulator/simulator.py:63-70 | the finished task leaves the predecessor set of each successor, which must hold it; exactly the successors left without predecessors join the ready queue |
| Simulator.ReleaseLoopStep | simulator/simulator.py:64-68 | each successor loses the finished task; it is pushed iff its set becomes empty |
| Simulator.InitialHead | simulator/simulator.py:34-47 | the set-up state satisfies `Head`, the engine invariant at the head of the main loop: all R resources are free, the bootstrap event is alone, the clock is 0 |
| Simulator.SetUp | simulator/simulator.py:34-47 | the set-up gives free list [0 .. R-1], ready queue = the tasks without predecessors, the event queue {(0, None, None)} and time 0, at the head of the main loop |
| Simulator.CompletionsHaveTasks | simulator/simulator.py:56 | every completion event names a task; only the bootstrap event has none |
| Simulator.NoRunsNoCompletions | simulator/simulator.py:47 | before any dispatch there is no completion pending |
| Simulator.BootStep | simulator/simulator.py:55-56 | an event without a task is the bootstrap event, handled while no task runs; handling it keeps the invariant |
| Simulator.BootRound | simulator/simulator.py:53-56 | popping the bootstrap event starts a round with only the clock and the flag changed |
| Simulator.CompletionFacts | simulator/simulator.py:55-58 | a completion event is the completion of a running task, at its start time plus its load, on its resource; that task is still a predecessor of each of its successors |
| Simulator.UnfinishedStillPrecedes | simulator/simulator.py:63-65 | while a task has not finished, each of its successors still records it as a predecessor, so `remove` succeeds |
| Simulator.CompletionShape | simulator/simulator.py:63-65 | after a completion the table is the original with each predecessor set reduced by the finished tasks |
| Simulator.CompletionReady | simulator/simulator.py:66-68 | after a completion the ready queue is again exactly the undispatched tasks without predecessors |
| Simulator.CompletionEvents | simulator/simulator.py:55 | after a completion the event queue is again exactly the completions of the running tasks |
| Simulator.CompletionResources | simulator/simulator.py:73 | the freed resource is appended to the free list; resources stay conserved and each is held in exactly one place |
| Simulator.CompletionTiming | simulator/simulator.py:55 | with no negative load, the clock advances to the least event without passing a pending one; precedence and exclusivity are kept |
| Simulator.CompletionStep | simulator/simulator.py:55-73 | handling the least pending completion keeps the engine invariant |
| Simulator.CompletionInRound | simulator/simulator.py:55-73 | handling the least pending completion starts a round |
| Simulator.CompletionMirrors | simulator/simulator.py:63-73 | after a completion the engine's variables are the table with the task removed, the free list plus its resource, the ready set plus the newly ready tasks, and the rest of the events |
| Simulator.CompletionRound | simulator/simulator.py:55-73 | both of the above, stated on the engine's own variables |
| Simulator.ReadyFacts | simulator/simulator.py:79 | a ready task is an undispatched vertex whose predecessors have all finished |
| Simulator.DispatchShape | simulator/simulator.py:78-82 | a dispatch leaves the table unchanged |
| Simulator.DispatchReady | simulator/simulator.py:79 | after a dispatch the ready queue is again exactly the undispatched tasks without predecessors |
| Simulator.DispatchEvents | simulator/simulator.py:80-82 | the pushed event (time + load, task id, resource) is the completion of the new run |
| Simulator.TailOfDistinct | simulator/simulator.py:78 | `pop(0)` on a list without repetitions leaves a list without repetitions that lacks the popped id |
| Simulator.DispatchFreeList | simulator/simulator.py:78 | after `pop(0)` the free list has no repetition and stays in range, and so does the new run's resource |
| Simulator.DispatchHeld | simulator/simulator.py:78-82 | after a dispatch no running task's resource is free, no two running tasks share a resource, and free plus running is still R |
| Simulator.DispatchResources | simulator/simulator.py:78-82 | a dispatch keeps resources conserved |
| Simulator.DispatchTiming | simulator/simulator.py:78-82 | with no negative load, a task starts now, after all its predecessors ended, and on a resource whose earlier tasks have ended |
| Simulator.DispatchStep | simulator/simulator.py:76-82 | dispatching a ready task keeps the engine invariant |
| Simulator.DispatchKeepsTable | simulator/simulator.py:78-82 | a dispatch keeps the table, the ready queue and the event queue consistent |
| Simulator.DispatchKeepsClock | simulator/simulator.py:78-82 | a dispatch keeps resources conserved and, with no negative load, the timing consistent |
| Simulator.DispatchAddsRun | simulator/simulator.py:79-82 | a dispatch adds a task that had not been dispatched |
| Simulator.StillInRound | simulator/simulator.py:76 | a state satisfying the invariant with a task dispatched in the current round belongs to the round |
| Simulator.DispatchInRound | simulator/simulator.py:76-82 | a dispatch keeps the state within the round |
| Simulator.DispatchMirrors | simulator/simulator.py:78-82 | after a dispatch the engine's variables are free[1..], the ready set without the task, and the events plus (time + load, id, free[0]) |
| Simulator.DispatchLoopStep | simulator/simulator.py:78-82 | both of the above, stated on the engine's own variables |
| Simulator.ReadyInTable | simulator/simulator.py:79 | every ready task is a vertex of the table |
| Simulator.StartTasks | simulator/simulator.py:76-82 | the dispatch loop keeps the invariant and extends the log by one start per dispatch; when it stops no resource is free or no task is ready |
| Simulator.RoundProgress | simulator/simulator.py:53-82 | a round either dispatches a task or consumes an event; this is the termination measure (undispatched tasks, pending events) |
| Simulator.EndRound | simulator/simulator.py:53-82 | a round ends back at the head of the main loop, having made progress |
| Simulator.ClockNeverRunsBack | simulator/simulator.py:53-55 | with no negative load, no pending event lies before the clock, so popped event times never decrease |
| Simulator.RunningHaveEvents | simulator/simulator.py:82 | every running task has its completion event pending |
| Simulator.DrainedQueue | simulator/simulator.py:53 | once the event queue is empty, every dispatched task has completed |
| Simulator.FinalTiming | simulator/simulator.py:86-88 | with no negative load, the final clock is the makespan: at least 0, the largest end time of the dispatched tasks, and 0 when none ran |
| Simulator.IdleMeansReady | simulator/simulator.py:53-82 | on an acyclic graph with mirrored edges, while some task is undispatched and nothing is running, some task is ready |
| Simulator.NoneLeftBelow | simulator/simulator.py:63-68 | an undispatched task of least rank has had all its predecessors removed |
| Simulator.AllDispatched | simulator/simulator.py:53-82 | with at least one resource on an acyclic graph with mirrored edges, every task is dispatched by the end |
| Simulator.AllDrained | simulator/simulator.py:63-68 | once every task has completed, no predecessor is recorded anywhere |
| Simulator.EndOfRun | simulator/simulator.py:53-88 | what holds when the event queue empties: the table reduced by the completed tasks, resources in range, the makespan, and on a symmetric acyclic graph with R >= 1 every task dispatched, every predecessor set empty and the reset restoring the original table |
| Simulator.LogStart | simulator/simulator.py:34-47 | before any step the log is empty and agrees with the set-up: all resources free in increasing order, clock 0 |
| Simulator.LogBoot | simulator/simulator.py:55-56 | the bootstrapping event adds nothing to the log |
| Simulator.ReadyAfterIsReady | simulator/simulator.py:36-79 | the ready set that the log determines (tasks not started whose predecessors the handled completions have all removed) is the engine's ready queue |
| Simulator.SamePriorities | simulator/simulator.py:79 | the engine compares the original priorities, since only predecessor sets change during a run |
| Simulator.LogFinish | simulator/simulator.py:53-73 | a completion of a running task at its end time, no later than any other running task's end and (with no negative load) not before the clock, handled while no resource is free or no task is ready, extends the log; its resource goes to the end of the free list and the clock moves to its time |
| Simulator.LogStartTask | simulator/simulator.py:76-82 | starting at the current clock, on the first free resource, a ready task that no ready task is `Less` than extends the log by the new run; the free list loses its head and the clock stays |
| Simulator.LogCompletion | simulator/simulator.py:53-73 | at the head of the main loop, handling the least completion extends the log, because the dispatch loop has left no free resource or no ready task |
| Simulator.LogDispatch | simulator/simulator.py:76-82 | each dispatch of the inner loop extends the log by a start |
| Simulator.LogEnd | simulator/simulator.py:53-88 | when the event queue is empty the log follows the rules, its clock is the engine's final time, and no resource is free or no task is ready |
| Simulator.EarliestCompletion | simulator/simulator.py:55 | the least pending event is the completion of a running task that ends no later than any other running task |
| Simulator.ClockIsCompletionTime | simulator/simulator.py:43-55 | the clock after a log is 0 or the time of one of its completions |
| Simulator.StartsAtEventTimes | simulator/simulator.py:53-82 | in a log of moves the first step is a start at time 0, and every start happens at 0 or at the time of an earlier completion |
| Simulator.EachTaskOnce | simulator/simulator.py:53-82 | in a log of moves no task is started twice or completed twice, and every completion comes after the start of its task |
| Simulator.Simulate | simulator/simulator.py:10-88 | the whole engine as a method: what `EndOfRun` states, for the graph and the returned makespan; and a log of the run that `FollowsRules`: each start happens at the current clock (0, or the time of the last completion) and takes the head of the free list and a ready task that no ready task is `Less` than; each completion is that of the running task ending first, handled only when no resource is free or no task is ready; the makespan is the clock after the log; the engine stops with no resource free or no task ready |

## Left out

- Printing and narration: `__repr__` of `Task` and `Graph`, the `debug`
  messages, and the start and makespan lines of `simulate`. The error line of
  `topological_ordering` is not reached in the model (see
  `TaskGraph.Graph.TopologicalOrdering` below); the result `complete` is the
  condition of its length check.
- Python's `random` module (`seed`, `randrange`, `shuffle`, `sample`).
  - The generator's draws are inputs: the shuffled ids, one load per slot,
    one dependency count per slot, and one sample per slot.
  - Each input must lie in the range it is drawn from (`ValidDraws`), so
    values from a particular seed are not reproduced.
- `rng_seed` only selects the draws, which are inputs here. The model does
  not capture that `rename=True` with the default `rng_seed=None` raises a
  `TypeError` at `random.seed(rng_seed-1)` (graph.py:157); with a draw table
  the model simply uses the shuffle it is given.
- `priority_by_cp` has an empty body, so it is not modelled. The top and
  bottom levels are never computed by the code, so they are kept only as the
  -1 fields of a task.
- The heap layout of `heapq`:
  - The ready queue is a set of ids from which a task of least priority is
    taken. Which task among equal priorities is taken is open.
  - The event queue is a set of events, from which the least event in the
    lexicographic tuple order is taken.
  - Duplicate entries cannot occur: a task is dispatched once, and events
    carry distinct task ids.
- Python's comparison of `None` with an int inside event tuples is not
  modelled. The bootstrap event is alone in the queue when it is compared,
  so no such comparison happens.
- The example and benchmark scripts and the unit tests are not modelled.
  Their expected values come from the random generator.
- The three aliasing views are not kept apart. In Python,
  `graph.vertices[id]`, the ready heap and the loop variables share `Task`
  objects. The model keeps one table and stores ids elsewhere. Only
  predecessor sets and priorities are written, and never while the same task
  is read elsewhere.
- TaskGraph.Graph.GenerateGraph: requires at least one task, because the code indexes
  `id[0]` and would fail on zero tasks.
- TaskGraph.Graph.GenerateGraph: `ValidDraws` requires every draw to lie in
  its range. So the model leaves out the `ValueError`s of the source: from
  `randrange` when `[min_load, max_load)` or `[min_dep, max_dep)` is empty
  (graph.py:163, 168, 171), and from `random.sample` when a drawn `num_dep`
  is negative, which a negative `min_dep` allows (graph.py:175). The model
  describes only runs in which no draw fails.
- TaskGraph.Graph.ResetPredecessors: requires every successor to be a key
  (`SuccsInKeys`). On any other table the source raises `KeyError` at
  graph.py:119 after a partial update, which is not modelled. Every graph
  that `generate_graph` builds satisfies it (`TaskGraph.GeneratedShape`), and
  `simulate` keeps the keys and successor sets, so it holds wherever the
  scripts and tests call the reset.
- Schedulers.PriorityByTopologicalOrder: requires every entry of the stored
  order to be a key. With a stray entry the source raises `KeyError` at
  schedulers.py:40, which is not modelled. The order is only ever written by
  `topological_ordering`, which appends keys alone
  (`TaskGraph.Graph.TopologicalOrdering` ensures `IsTopologicalOrder`), or is
  the empty list of a new graph.
- Schedulers.PriorityByHlf: requires keys 0 .. k-1, because the code looks
  up exactly those keys and fails on any other table.
- Simulator.Simulate: requires each task's id to equal its key, and every
  successor edge to be mirrored as a predecessor edge. These are what the
  code's lookups by event id and its `remove` need. Generated graphs
  satisfy both (`TaskGraph.GeneratedShape`).
- Simulator.Simulate: the timing properties (precedence, exclusive use of
  resources, the makespan) are promised only when no load is negative.
  Complete dispatch needs an acyclic, symmetric graph and at least one
  resource. The code promises nothing in either case.
- Simulator.Simulate: the schedule `runs` (start time and resource per task)
  and the `log` of starts and completions are ghost out-parameters that
  document the run. The code does not return them.
- Simulator.Simulate: among completions with the same end time, the log
  does not say which is handled first. The code breaks such ties by task id
  and then resource id (`PopEvent`); `FollowsRules` only requires the
  handled completion to end no later than every running task.
- TaskGraph.Graph.TopologicalOrdering: requires an acyclic graph. On a cycle
  reachable from an entry vertex the code does not terminate. When a cycle is
  reachable from no entry vertex, or there is no entry vertex, the code ends
  and prints its error (graph.py:112-113). Neither case is modelled, so the
  result `complete` is always true here.
- TaskGraph.Graph.TopologicalOrdering: also requires every successor to be a
  key (`SuccsInKeys`) and every predecessor edge to be recorded as a
  successor edge too (`PredsMirrored`). Without the first the code raises
  `KeyError` at graph.py:98. Without the second it can loop for ever even on
  an acyclic graph: a vertex that its predecessor does not list as a
  successor may never become a candidate, and a vertex waiting on it is then
  deferred on every pass. Both hold at the only call site,
  graph.py:185, because `generate_graph` records every edge on both ends
  (`TaskGraph.GeneratedShape`).
