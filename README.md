# Epidemic-Simulation core, modelled in Dafny

This project models the deterministic core of the Epidemic-Simulation
repository (Python) and proves properties of that model. The core has four
parts.

- **The deferred-event scheduler** (`event.py`, module `Scheduler`).
  - A store maps even time buckets to lists of typed events.
  - `emit` rounds a target time up to its even bucket. It appends the
    participant to the bucket's event of the same type, or adds a new
    single-participant event.
  - `get` removes and returns a whole bucket.
  - The store is the class `EventStore`, whose map field the two methods
    reassign. `Emit` is proved equal to the reference definition `Emitted`.
    Lemmas about `Coalesce` give the invariant `emit` keeps, the type order
    and the participant lists.
- **The graph service** (`graphing/graph.py`, `graphing/core.py`,
  `graph.py`; modules `GraphCore`, `SimpleGraph`, `Graphs`,
  `ShortestPaths`).
  - Nodes and edges are classes with mutable edge and agent lists.
  - The class-level id counters `Node.id`, `Edge.id`, `Establishment.id`
    and `Region.id` are one `Ids.IdCounter` object each.
  - `add_edge` validates its arguments. It files the fresh edge under its
    id and appends it to both endpoints.
    - When both endpoints are nodes registered under their own ids, it is
      proved to keep the graph *closed*: every listed edge is registered,
      with registered endpoints.
    - When the new distance is non-negative, it is proved to keep every
      distance non-negative.
    - The code also accepts two unregistered `Node` objects and a negative
      distance. Then these properties can break, and the model does not
      promise them.
  - `shortest_edge_path` is Dijkstra's algorithm with lazy deletion, then a
    walk back along the predecessor edges and a reversal. It is proved to
    return `[]` for equal or unreachable ends and otherwise a walk from the
    start to the end that is no longer than any other.
  - `get_firms` and `get_households` are loops, each proved equal to the
    region-by-region concatenation.
- **The establishments** (`agents/core.py`, `agents/sector.py`, module
  `Establishments`).
  - An establishment holds the agents inside it. Its contact rate and its
    infected density (a counting loop) are exact `real` arithmetic.
  - Households and firms own an `Establishment` rather than inherit from
    one.
  - A firm's capacity is drawn from a range that depends on its size.
    `attend`/`serve` accumulate agents. `get_activity_total` sums them and
    clears the worked agents but not the customers.
  - The random draws are parameters.
- **The pipeline simulator** (`test.py`, module `Pipeline`).
  - This is a four-stage fetch/decode/execute/writeback simulator with a
    register-hazard check.
  - The class `Simulator` holds the script's globals. Its `Step` performs
    one clock iteration, and is proved to equal the pure transition `Next`
    on the `State` datatype.
  - The invariant `Sound` is preserved by every cycle. A measure decreasing
    on every cycle proves that `Run` stops.
  - `Run` ends in `Final` of its starting state, the first complete state
    that repeated cycles reach, with the completion time equal to that
    state's clock. There every instruction has passed through the four
    stages in order before the completion time.
  - `print_timeline` is a method proved equal to a per-cycle character
    function. Its letters are characterised exactly.

Notes on the source's own behaviour, which the model keeps:

- **Scheduler buckets.** Buckets are even numbers because `emit` rounds
  with `target_time % 2`. Coalescing appends to the participant list, so
  the same participant emitted twice under one type is listed twice
  (`Scheduler.CoalesceAgents`, `Scheduler.DemoTrace`).
- **Pipeline issue.** The hazard check inspects `fetched[0]`, but the
  instruction issued is `fetched.pop()`, the last one fetched.
  `Pipeline.IssueMissesHazard` exhibits a four-instruction program in which
  two instructions on the same registers are in decode and execute at once.
- **Pipeline register release.** Retiring an instruction removes its
  registers from the set in use even when an instruction still in flight
  uses the same ones. So the registers in use always belong to
  instructions in flight, but not every register of an instruction in
  flight is in use (`Pipeline.EarlyRelease`).
- **Establishment constructor.** `agents/sector.py` passes a capacity and a
  contact rate to `super().__init__`, which `agents/core.py` does not
  accept. The model stores both (`Establishments.Establishment.WithLimits`),
  beside the constructor as written in `agents/core.py`.
- **`get_adjacent_node`.** `graphing/graph.py:131` calls
  `Edge.get_adjacent_node`, which `graphing/core.py` does not define. The
  model uses the rule that `graphing/graph.py:151` writes out inline
  (`GraphCore.Edge.AdjacentNode`).
- **`minimum_salary`.** `agents/sector.py:44` reads `minimum_salary` from
  each agent, but the agent class of `agents/agent.py` defines only the
  residence node and the compartment. The model's agent record carries the
  salary as a field.

## Model

| member | source | states |
|---|---|---|
| Ids.IdCounter.constructor | graphing/core.py:5 | a class-level id counter starts at 0 |
| Scheduler.Bucket | event.py:22 | the bucket is even and is the target time or the time after it, so odd times round up by one |
| Scheduler.Coalesce | event.py:23-31 | reference definition of emit on one bucket: the bucket keeps its length or grows by one event, and is never empty |
| Scheduler.Emitted | event.py:21-31 | reference definition of emit on the store: only the target bucket is added or changed, and it is non-empty |
| Scheduler.CoalesceAtMatch | event.py:24-28 | when the type first occurs at index i, only that event changes: the participant is appended to its list, and the bucket keeps its length |
| Scheduler.CoalesceNoMatch | event.py:29 | without an event of the type, one new single-participant event is appended at the end |
| Scheduler.CoalesceAgents | event.py:27 | the participants of the matching type gain the new one, duplicates kept; every other type's participants are unchanged |
| Scheduler.CoalesceKinds | event.py:23-31 | the type sequence is unchanged for a known type and gains the new type at the end for an unknown one, so types keep their order of first emission |
| Scheduler.CoalesceUnique | event.py:23-31 | coalescing keeps at most one event per type and no empty event |
| Scheduler.EmitKeepsValid | event.py:21-31 | emit keeps every bucket even, non-empty and one event per type; it adds only the target bucket and leaves every other bucket untouched |
| Scheduler.OddTimeHasNoBucket | event.py:18-19 | in a valid store no odd time has a bucket, so `get` at an odd time returns `[]` |
| Scheduler.DemoTrace | event.py:45-51 | the demo's emits at times 1, 1 and 2 fill only bucket 2: a traverse event holding the agent twice, then a go-home event |
| Scheduler.EventStore.constructor | event.py:6 | the store starts empty |
| Scheduler.EventStore.Get | event.py:18-19 | returns the bucket at exactly that time, or `[]`, and removes only that key; keeps the store invariant |
| Scheduler.EventStore.Emit | event.py:21-31 | the new store is the reference `Emitted` of the old store (even bucket, coalesced by type), and the store invariant is kept: even keys, non-empty buckets, one event per type |
| GraphCore.Node.constructor | graphing/core.py:9-13 | the id is the counter's value, the counter is bumped, edges are empty and the position is (x, y) |
| GraphCore.Edge.constructor | graphing/core.py:26-31 | sequential id from the edge counter; endpoints in argument order, the given distance, no agents |
| GraphCore.Edge.AdjacentNode | graphing/graph.py:151 | the result is an endpoint: the first one when the node is the second, the second otherwise; for a non-loop edge and an endpoint it is the other endpoint |
| SimpleGraph.Node.constructor | graph.py:7-8 | only the id is set; the edge list is not assigned |
| SimpleGraph.Node.GetEdges | graph.py:10-11 | the edge list itself, and missing exactly when it was never assigned |
| SimpleGraph.Node.AdjacentNodes | graph.py:13-14 | one node per edge in edge order, each the edge's first node if this node is its second, else its second node; missing when there is no edge list |
| SimpleGraph.Node.AdjacentNodesEndpoints | graph.py:14 | each adjacent node is an endpoint of its edge, and it is this node exactly for a loop on this node |
| SimpleGraph.Edge.constructor | graph.py:21-23 | endpoints in argument order, weight defaulting to 0 |
| SimpleGraph.Edge.Far | graph.py:14 | the endpoint chosen by the comprehension's conditional |
| Establishments.Establishment.constructor | agents/core.py:9-13 | next establishment id, counter bumped, no agents, the class defaults 10.0 and 100 |
| Establishments.Establishment.WithLimits | agents/sector.py:9 | as above, with the capacity and contact rate that the subclasses pass up |
| Establishments.Establishment.ContactRate | agents/core.py:15-16 | rate times capacity equals maximum rate times occupancy; 0 when empty |
| Establishments.DefaultContactRate | agents/core.py:6-7 | with the defaults 10.0 and 100 the rate is occupancy / 10 |
| Establishments.ContactRateBounds | agents/core.py:15-16 | within capacity, the rate lies between 0 and the maximum rate |
| Establishments.CountInfected | agents/core.py:21-24 | the infected count never exceeds the number of agents |
| Establishments.CountInfectedZero | agents/core.py:21-24 | the count is 0 exactly when no agent is in compartment I |
| Establishments.CountInfectedAll | agents/core.py:21-24 | the count is the length exactly when every agent is in compartment I |
| Establishments.Establishment.InfectedDensity | agents/core.py:18-25 | 0.0 when empty, else infected count / occupancy; in [0, 1], 0 iff nobody is infected, 1 iff everybody is; nothing changes |
| Establishments.Household.constructor | agents/sector.py:7-11 | resident count in 1..5, passed up as capacity; no residents yet |
| Establishments.FirmCapacity | agents/sector.py:21-30 | an unknown size is the ValueError; otherwise the capacity lies in the size's range and step |
| Establishments.SizeChoicesCounts | agents/sector.py:21-28 | the four ranges hold 8, 18, 10 and 6 capacities |
| Establishments.FirmCapacityOnto | agents/sector.py:21-28 | every capacity of a size's range is drawn by some draw |
| Establishments.Firm.Init | agents/sector.py:31-35 | capacity and rate stored on the establishment; three empty agent lists; id taken |
| Establishments.Firm.Create | agents/sector.py:20-35 | fails exactly for an unknown size, taking no id; otherwise a fresh firm with the drawn capacity, essential iff the draw is below 0.3, empty lists |
| Establishments.Firm.Attend | agents/sector.py:37-38 | only the worked agents grow, by the agent |
| Establishments.Firm.Serve | agents/sector.py:40-41 | only the customers grow, by the agent |
| Establishments.TotalsScaleSalaries | agents/sector.py:44 | work total is 1.5 × the salaries, consumption total 1.125 × |
| Establishments.TotalsAppend | agents/sector.py:44 | both totals add over consecutive stretches of agents |
| Establishments.AddedShares | agents/sector.py:37-44 | agents attended or served after those already listed add exactly 1.5 × (work) and 1.125 × (consumption) their salaries to the next totals |
| Establishments.Firm.GetActivityTotal | agents/sector.py:43-46 | returns (1.5 × worked salaries, 1.125 × customer salaries); clears the worked agents, keeps the customers |
| Graphs.Region.constructor | graphing/graph.py:15-20 | next region id, counter bumped, the nodes given, no firms or households |
| Graphs.AllFirmsMembers | graphing/graph.py:99-103 | a firm is collected exactly when some region lists it |
| Graphs.AllHouseholdsMembers | graphing/graph.py:105-109 | a household is collected exactly when some region lists it |
| Graphs.Graph.constructor | graphing/graph.py:43-46 | empty nodes, edges and regions |
| Graphs.Graph.AddNode | graphing/graph.py:48-49 | the node is filed under its id, nothing else changes; a new node without edges keeps the graph closed |
| Graphs.Graph.GetEdge | graphing/graph.py:93-94 | the edge filed under the id, present exactly when the id is registered |
| Graphs.Graph.GetNode | graphing/graph.py:96-97 | the node filed under the id, present exactly when the id is registered |
| Graphs.Graph.GetFirms | graphing/graph.py:99-103 | the concatenation of the regions' firm lists in region order |
| Graphs.Graph.GetHouseholds | graphing/graph.py:105-109 | the concatenation of the regions' household lists in region order |
| Graphs.Graph.ResolveEndpoints | graphing/graph.py:52-68 | the four ValueErrors: wrong count iff not two arguments; same nodes iff equal ids or the same node twice; otherwise success iff two distinct registered ids or two distinct nodes; anything else, mixed kinds included, is the missing-node error |
| Graphs.Graph.ResolvedEndpointsDiffer | graphing/graph.py:58-65 | resolved endpoints are two different nodes |
| Graphs.Graph.AddEdge | graphing/graph.py:51-73 | fails exactly when validation does, changing nothing; otherwise a fresh edge with the next id and the given distance is filed under that id and appended to both endpoints, and no other edge or node changes; the graph stays closed when both endpoints are registered under their ids, and distances stay non-negative when the new one is |
| Graphs.Graph.Attach | graphing/graph.py:70-73 | files the edge and appends it to both endpoints; keeps the graph closed when both endpoints are registered under their ids, and keeps distances non-negative when the new one is |
| Graphs.Graph.Snapshot | graphing/graph.py:117-137 | the graph as the search reads it: the same node and edge maps, and every registered node's edge list |
| Graphs.Graph.ShortestEdgePath | graphing/graph.py:112-154 | ValueError exactly for an unregistered start or end; `[]` when start and end agree or the end is unreachable; otherwise a walk from start to end no longer than any other |
| ShortestPaths.HeapPop | graphing/graph.py:124 | takes out a least entry in heapq's order and keeps the rest as a multiset |
| ShortestPaths.ReversedSnoc | graphing/graph.py:148-153 | reversing after an append puts the appended id first |
| ShortestPaths.Net.RelaxedBound | graphing/graph.py:127-137 | when every estimated node is relaxed, every walk from an estimated node ends at an estimated node, and that estimate is at most the start's estimate plus the walk's length |
| ShortestPaths.RelaxEdges | graphing/graph.py:130-137 | relaxing the popped node's edges keeps the search invariant and changes nothing for an already relaxed node |
| ShortestPaths.SearchStep | graphing/graph.py:124-137 | one pop-and-relax round keeps the search invariant and settles a node or shrinks the queue |
| ShortestPaths.Search | graphing/graph.py:117-137 | on exit the estimates and predecessor edges are consistent and every estimated node is relaxed |
| ShortestPaths.WalkBack | graphing/graph.py:139-154 | `[]` for start = end or an end without estimate; otherwise a walk from start to end of length equal to the end's estimate |
| ShortestPaths.ShortestPath | graphing/graph.py:112-154 | `[]` for equal or unreachable ends; otherwise a walk from start to end no longer than any other |
| Pipeline.Initial | test.py:42-53 | the starting globals index only the program, and are already complete exactly for the empty program |
| Pipeline.RegistersOfUsed | test.py:15-16 | the register set is exactly the set of `registers_used()` |
| Pipeline.Retire | test.py:62-66 | keeps every index in range and the program unchanged; its effect is stated by `Pipeline.RetireSound` and, for the completion flag and the register release, `Pipeline.CycleSummary` |
| Pipeline.ExecuteToWriteback | test.py:68-73 | keeps every index in range and the program unchanged; its effect is stated by `Pipeline.ExecuteSound` |
| Pipeline.DecodeToExecute | test.py:75-80 | keeps every index in range and the program unchanged; its effect is stated by `Pipeline.DecodeSound` |
| Pipeline.Issue | test.py:82-88 | keeps every index in range and the program unchanged; its effect is stated by `Pipeline.IssueSound` and `Pipeline.CycleSummary` |
| Pipeline.Fetch | test.py:90-93 | keeps every index in range and the program unchanged; its effect is stated by `Pipeline.FetchSound` and `Pipeline.FetchOrder` |
| Pipeline.Next | test.py:60-93 | keeps every index in range and the program unchanged; its effect is stated by `Pipeline.CycleSummary` and `Pipeline.CycleStamps` |
| Pipeline.InitialSound | test.py:42-53 | the initial globals satisfy the simulator invariant |
| Pipeline.RetireSound | test.py:62-66 | writeback, held for its one cycle, retires: the invariant holds after, writeback is free, and the fetched list, decode, execute, pc and clock are unchanged |
| Pipeline.ExecuteSound | test.py:68-73 | with writeback free, execute moves to writeback, stamped with the clock; the invariant holds and decode, the fetched list and the registers in use are unchanged |
| Pipeline.DecodeSound | test.py:75-80 | with execute free, decode moves to execute, stamped with the clock; the invariant holds and writeback, the fetched list and the registers in use are unchanged |
| Pipeline.AdvanceSound | test.py:60-80 | after the tick and the three moves, every instruction has advanced one stage and decode is free; the invariant holds |
| Pipeline.IssueSound | test.py:82-88 | with decode free, issuing keeps the invariant and leaves execute, writeback, pc and clock alone |
| Pipeline.FetchSound | test.py:90-93 | fetching keeps the invariant and leaves the three stage slots alone |
| Pipeline.NextSound | test.py:60-93 | one cycle keeps the invariant: each instruction at most once across fetched list and stages, every register in use belongs to an instruction in flight, stamps ordered |
| Pipeline.NextDecreases | test.py:55-93 | a cycle of an unfinished program lowers the measure, so the hazard check never blocks an empty pipeline and the loop stops |
| Pipeline.CycleSummary | test.py:60-93 | every global except the timelines, in terms of the state before the cycle: the clock ticks; the writeback instruction is marked complete and frees its registers; the stages move one on; decode is filled iff something is fetched and the first fetched instruction shares no register with those in use, and then the last fetched instruction enters and takes its registers; the instruction at pc is fetched; each of the three counters is the new clock exactly when its stage was entered |
| Pipeline.CycleStamps | test.py:68-93 | the timelines after a cycle: the instruction leaving execute is stamped `w`, the one leaving decode `e`, the one issued `d` and the one fetched `f`, each with the new clock, and every other stamp is unchanged |
| Pipeline.SlotsDistinct | test.py:60-93 | on a sound state the instructions in execute and decode, the last fetched one and the one at pc are different, so no cycle stamps one instruction twice |
| Pipeline.FetchOrder | test.py:90-93 | at most one fetch per cycle, in program order, stamped with the clock; pc never passes the program's end |
| Pipeline.StageFlow | test.py:62-80 | execute moves to writeback and decode to execute every cycle; the retired instruction is complete and in no stage |
| Pipeline.DistinctStages | test.py:62-88 | no instruction is in two stages or both fetched and in a stage |
| Pipeline.DistinctFetched | test.py:82-93 | no instruction waits twice in the fetched list |
| Pipeline.CompleteTimelines | test.py:55-58 | when all are complete, each timeline satisfies 1 ≤ f < d < e < w < clock |
| Pipeline.IssueMissesHazard | test.py:82-88 | after six cycles of a four-instruction program, decode and execute hold two instructions that share registers |
| Pipeline.EarlyRelease | test.py:62-66 | two cycles after the state of `Pipeline.IssueMissesHazard`, instruction 2 is in writeback while none of its registers is in use |
| Pipeline.Final | test.py:55-58 | the state in which the loop stops: it is reached by cycles from the given state, is complete and satisfies the invariant |
| Pipeline.TimelineLine | test.py:18-33 | the line has one character per cycle 1..n, each the cycle's timeline character |
| Pipeline.TimelineLetters | test.py:18-33 | for an ordered timeline: F, D, E, W exactly at the stage's entry cycle, S exactly strictly between fetch and writeback elsewhere, '.' exactly outside |
| Pipeline.PrintTimeline | test.py:18-33 | the loop's line equals the per-cycle timeline characters up to the completion time |
| Pipeline.Simulator.constructor | test.py:42-53 | the initial globals, which satisfy the invariant |
| Pipeline.Simulator.Step | test.py:60-93 | the new globals are `Next` of the old ones |
| Pipeline.Simulator.RetireStage | test.py:62-66 | the new globals are `Retire` of the old ones |
| Pipeline.Simulator.ExecuteStage | test.py:68-73 | the new globals are `ExecuteToWriteback` of the old ones |
| Pipeline.Simulator.DecodeStage | test.py:75-80 | the new globals are `DecodeToExecute` of the old ones |
| Pipeline.Simulator.IssueStage | test.py:82-88 | the new globals are `Issue` of the old ones |
| Pipeline.Simulator.FetchStage | test.py:90-93 | the new globals are `Fetch` of the old ones |
| Pipeline.Simulator.Run | test.py:55-58 | the loop stops in `Final` of the starting state, the first complete state the cycles reach; the completion time is its clock, and every timeline is ordered before it |

## Left out

- Rendering: `Node.draw`, `Edge.draw`, `Graph.map_dragging` and `Graph.draw` are pygame UI.
- `Region.add_firm`, `Region.add_household` and `Graph.add_region`: they are driven by `random.choice(s)`. `add_region` also calls `event.emit` with an event object and two arguments, which `event.py` does not provide.
- Graphs.Graph.ShortestEdgePath: `lru_cache` memoisation is not modelled. The cache never sees later `add_edge` calls, and a cached list can be shared between callers. The result is specified as a shortest walk, which does not determine it uniquely when ties exist.
- Graphs.Graph.ShortestEdgePath: requires closedness and non-negative distances on the whole graph, and every node and edge filed under its own id.
  - The code needs these only where the search goes. It raises KeyError (`graphing/graph.py:134`) when it meets an unregistered neighbour, and StopIteration (`graphing/graph.py:149`) when the walk back meets an edge that was never filed.
  - It need not stop once a negative edge is reachable.
  - Graphs with such a defect anywhere, even where the search never goes, are not covered.
- ShortestPaths.HeapPop: the binary-heap array layout is not modelled. Among equal (distance, id) entries any one comes out.
- Float arithmetic: distances are integers, and `float('inf')` is a missing key in the estimate map. Contact rates, densities and salaries are exact reals without Python's float rounding.
- Random draws (household size, firm capacity, the `essential` flag) are parameters.
- Establishments.Household.constructor: requires the resident count to be one of the five values `random.choices` can return.
- Establishments.Firm.Create: requires the size draw to be one of the values `random.randrange` can return for that size.
- Establishments.Establishment.ContactRate: requires a non-zero capacity. With a capacity of 0 the Python raises ZeroDivisionError.
- Output: the JSON print of every cycle and the final timeline prints of `test.py`, and the demo prints of `event.py`, are I/O.
- Pipeline: the `stages["f"]` slot is never filled by the code, so it is not part of the state; fetch happens whenever `pc` is inside the program. `counters["f"]` is never written and is not modelled.
- Pipeline: every stage duration is the constant 1 of `stages`; other durations are not modelled.
- Pipeline: the instruction objects are split into their fixed fields and the two parallel sequences `timelines` and `complete`, so aliasing of instruction objects is not modelled. The driver program of lines 42-47 is not traced cycle by cycle.
- The mutable agent lists of edges are initialised but never changed by the core.
- Graphs.Graph.AddEdge: `add_edge` does not check that its endpoints are registered nodes or that the distance is non-negative. So closedness and non-negative distances are promised only under those two conditions.
- `Agents.Agent`: `minimum_salary` is defined by no shown class. The record carries it as a field, and its residence node is a node id.
- server.py, client.py, graphing/mapping.py, simulation.py, agents/events.py, objects.py and agents/agent.py are not part of this model. The one record the core reads, the agent, is `Agents.Agent`.
