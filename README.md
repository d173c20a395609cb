# PyJobShop, modelled in Dafny

PyJobShop describes scheduling problems and hands them to a constraint-programming solver. A problem is a set of jobs, tasks (or operations), machines and resources, processing modes, and constraints between tasks. The package builds a solver model from that description, solves it, and decodes the solver's answer into a solution. This project models the part between "problem description" and "solver call". It also models the decoding of a solver result and the instance parsers that build problems from benchmark files.

One Dafny module per source file:

- **Data model and validation.**
  - `ProblemData` covers `pyjobshop/ProblemData.py`: the `Job`, `Task`, `Resource`, `Machine` and `Mode` constructors, the objective factories, and `ProblemData` validation and `replace`.
  - `Constraints` and `Solution` cover the constraint container and the scheduled-operation records.
- **Builders.** `PyModel` (`pyjobshop/Model.py`) and `FjspModel` (`fjsp/Model.py`) are classes whose `seq`/`map` fields grow with every `add_*` call. Their `Data` methods fill dense arrays in loops (module `Dense`). `Identity.Handle` stands for the Python objects the builders index by `id(obj)`.
- **Lookup utilities.**
  - `Utils` covers `compute_min_max_durations`.
  - `SolverUtils` and `RedundantCumulative` cover `pyjobshop/solvers/utils.py`.
  - `OrToolsUtils` covers the break-overlap partition of start times. An OR-Tools `Domain` is a set of integers there.
- **Translation to a constraint-programming model.**
  - A CP model is an append-only log of constraint records. Each record has a satisfaction predicate `Holds` over a valuation: `CpLog` for OR-Tools, `CpoLog` for CP Optimizer.
  - The builders are specified by the records they append (`ensures log == old(log) + ...`).
  - Separate lemmas show that a valuation satisfying those records has the scheduling meaning the source documents. For example, "both tasks present ⇒ end1 + delay ≤ start2".
  - OR-Tools back end: `OrVariables`, `OrConstraints`, `OrSelection`, `OrSequencing`, `OrCircuit`, `OrObjective`, `OrBuilder`.
  - CP Optimizer back end: `CpoVariables`, `CpoConstraints`, `CpoObjective`.
  - Helper layers: `CpModelPlus`, `CpModelPlusVars`, `Hakank`, `HakankCumulative`.
  - Both objectives are proved against the reference objective values of `ObjectiveValues`.
- **Decoding.** `OrCpModel` and `CpoCpModel` cover the status maps and the conversion of a solver valuation into `TaskData` entries.
- **Instance parsers.**
  - `ParsePatterson`, `ParsePsplib` and `ParseMplib` work on a file's lines, together with the `ProjectInstance` records.
  - `ParseBenchmark` covers FJSP lines, the data part of `parse_naderi2022`, and the index mapping of `convert_to_model`.
  - `Text` and `Decimal` model `str.split`, `str.strip` and `int` on tokens.
- **JSON codec.** `JsonCodec` covers the dataclass encoder, the decoder's object hook and the class registry.

The source files come from several generations of the package and disagree on the data interface. The solver back ends read fields such as `task2modes`, optional tasks and a no-idle flag, which `pyjobshop/ProblemData.py` does not have. So each component reads its own input record (`SolverData` for the back ends) instead of one shared type. `MAX_VALUE` comes from `pyjobshop.constants`, which is not part of this model. It is an arbitrary positive constant, so every property proved about it holds for any positive value (`Constants.MAX_VALUE`). The FJSP builder and the benchmark parser fix their own bound at 2**25, as their source files do.

## Model

| member | source | states |
|---|---|---|
| `Constraints.OrEmpty` | pyjobshop/Constraints.py:167-178 | `x or []`: an omitted list and an empty list are both stored as `[]`, any other list as given |
| `Constraints.NewConstraints` | pyjobshop/Constraints.py:152-178 | each of the twelve lists is the argument given, or `[]` when omitted |
| `Constraints.Equals` | pyjobshop/Constraints.py:180-194 | two containers are equal exactly when all twelve lists are pairwise equal |
| `Constraints.LenZero` | pyjobshop/Constraints.py:196-210 | `len(c)` (the sum of the twelve list lengths) is 0 exactly when `c` is the default container |
| `Solution.ScheduledEquals` | pyjobshop/Solution.py:28-34 | two scheduled operations are equal iff operation, machine, start and duration all match |
| `Solution.SolutionEquals` | pyjobshop/Solution.py:69-70 | solutions are equal iff their schedules are |
| `Solution.PyIndex` | pyjobshop/Solution.py:77 | `op2machines[op]` succeeds iff `-len <= op < len`, a negative index counting from the end |
| `Solution.FirstViolationNone` | pyjobshop/Solution.py:72-79 | no error is raised iff every scheduled operation's machine is in `op2machines` of its operation |
| `Solution.FirstViolationIsFirst` | pyjobshop/Solution.py:72-79 | a raised error names the first entry of the schedule that is not allowed |
| `Solution.Validate` | pyjobshop/Solution.py:72-79 | the loop raises on the first disallowed entry, and succeeds iff every entry is allowed |
| `Solution.NewSolution` | pyjobshop/Solution.py:65-67 | construction succeeds iff every entry is allowed, and then keeps the schedule |
| `ProblemData.NewJob` | pyjobshop/ProblemData.py:41-69 | construction succeeds iff weight, release date, deadline and due date are non-negative and release date <= deadline, with the source's first error; `tasks` defaults to `[]` |
| `ProblemData.AddTask` | pyjobshop/ProblemData.py:116-125 | `add_task` appends the index to the job's task list and changes nothing else |
| `ProblemData.NewResource` | pyjobshop/ProblemData.py:143-147 | construction succeeds iff the capacity is non-negative, and stores capacity, renewability and name |
| `ProblemData.NewMachine` | pyjobshop/ProblemData.py:184-185 | a machine always has capacity 0 and is renewable |
| `ProblemData.NewTask` | pyjobshop/ProblemData.py:222-243 | construction fails iff earliest start > latest start (checked first) or earliest end > latest end |
| `ProblemData.DistinctIffNoShrink` | pyjobshop/ProblemData.py:312 | `len(set(s)) == len(s)` holds exactly when `s` has no repeated element |
| `ProblemData.NewMode` | pyjobshop/ProblemData.py:305-328 | construction succeeds iff resources are unique, duration and every demand are non-negative and the lengths agree; omitted demands are a zero list of the resources' length |
| `ProblemData.ModeEquals` | pyjobshop/ProblemData.py:346-352 | two modes are equal iff task, resources, duration and demands match |
| `ProblemData.ObjectiveMakespan` | pyjobshop/ProblemData.py:420-425 | the makespan objective has weight 1 on the makespan and 0 on every other component |
| `ProblemData.ObjectiveTotalFlowTime` | pyjobshop/ProblemData.py:427-432 | the flow-time objective has weight 1 on total flow time only |
| `ProblemData.ObjectiveTardyJobs` | pyjobshop/ProblemData.py:434-439 | the tardy-jobs objective has weight 1 on tardy jobs only |
| `ProblemData.ObjectiveTotalTardiness` | pyjobshop/ProblemData.py:441-446 | the tardiness objective has weight 1 on total tardiness only |
| `ProblemData.ObjectiveTotalEarliness` | pyjobshop/ProblemData.py:448-453 | the earliness objective has weight 1 on total earliness only |
| `ProblemData.FirstBadModeNone` | pyjobshop/ProblemData.py:519-526 | the mode loop finds nothing iff every mode references a known task and known resources |
| `ProblemData.FirstBadModeIsFirst` | pyjobshop/ProblemData.py:519-526 | a reported mode is the first bad one, and the task error is reported iff its task index is unknown |
| `ProblemData.TaskOrderMembers` | pyjobshop/ProblemData.py:536-543 | the `Counter` keys are exactly the tasks that have a mode |
| `ProblemData.FirstAllInfeasibleNone` | pyjobshop/ProblemData.py:543-546 | the feasibility loop finds nothing iff no task has all of its modes infeasible |
| `ProblemData.CheckParametersOk` | pyjobshop/ProblemData.py:508-574 | validation succeeds exactly on well-formed data (every check of `_validate_parameters` passes) |
| `ProblemData.CountsAgree` | pyjobshop/ProblemData.py:536-545 | `infeasible_modes[t] == num_modes[t]` iff every mode of `t` has a demand above its resource's capacity |
| `ProblemData.CheckJobs` | pyjobshop/ProblemData.py:515-517 | the job loop raises iff some job references a task index outside `[0, num_tasks)` |
| `ProblemData.CheckModes` | pyjobshop/ProblemData.py:519-526 | the mode loop returns the error for the first mode with an unknown task or resource |
| `ProblemData.CheckFeasibility` | pyjobshop/ProblemData.py:533-546 | the counter pass reports the first task, in counter-key order, all of whose modes are infeasible |
| `ProblemData.CountModePass` | pyjobshop/ProblemData.py:536-541 | after the loop both counters hold, for every task, its number of modes and of infeasible modes |
| `ProblemData.CheckSetupTimes` | pyjobshop/ProblemData.py:548-562 | setup times, when given, must be non-negative, have shape (resources, tasks, tasks) and be positive only on machine rows |
| `ProblemData.ValidateParameters` | pyjobshop/ProblemData.py:508-574 | the loop-by-loop validation returns the same error as the declarative `CheckParameters`; it succeeds iff the data are well formed |
| `ProblemData.NewProblemData` | pyjobshop/ProblemData.py:484-506 | construction succeeds iff the data with defaulted constraints `{}` and makespan objective are well formed, and reports the validation error otherwise |
| `ProblemData.Replace` | pyjobshop/ProblemData.py:576-637 | every omitted field is taken from the original; the result is `Ok` iff the merged data are well formed, and the error is validation's error otherwise |
| `ProblemData.ReplaceNothing` | pyjobshop/ProblemData.py:616-637 | replacing nothing in valid data gives the same data back |
| `ProblemData.NumModesCoversTasks` | pyjobshop/ProblemData.py:528-531 | since every task must have a mode, valid data have at least as many modes as tasks |
| `ProblemData.MachineDemandInfeasible` | pyjobshop/ProblemData.py:184-185 | a mode with a positive demand on a machine (capacity 0) is infeasible |
| `PyModel.AddOperationValid` | pyjobshop/Model.py:217-223 | appending an operation under a fresh handle, and its index to a known job's list, keeps every stored index within the lists |
| `PyModel.Model.constructor` | pyjobshop/Model.py:25-44 | a new builder has empty lists and maps, no planning horizon and the makespan objective |
| `PyModel.Model.AddJob` | pyjobshop/Model.py:91-130 | appends one job and maps the new handle to the previous number of jobs; nothing else changes |
| `PyModel.Model.AddMachine` | pyjobshop/Model.py:132-167 | appends one machine and maps the new handle to the previous number of machines; nothing else changes |
| `PyModel.Model.AddOperation` | pyjobshop/Model.py:169-225 | appends one operation and maps its handle to the previous length; with a job, that index is appended to the job's list, otherwise no job list changes |
| `PyModel.Model.AddProcessingTime` | pyjobshop/Model.py:227-247 | refuses a negative duration before any change; otherwise stores it under (machine, operation), overwriting an earlier value |
| `PyModel.Model.AddTimingPrecedence` | pyjobshop/Model.py:249-275 | appends (constraint, delay), by default end-before-start with delay 0, to the pair's list, so repeated calls accumulate |
| `PyModel.Model.AddAssignmentPrecedence` | pyjobshop/Model.py:277-299 | appends the relation to the pair's list |
| `PyModel.Model.AddSetupTime` | pyjobshop/Model.py:301-327 | stores the duration under (machine, op1, op2), overwriting any earlier value |
| `PyModel.Model.AddProcessPlan` | pyjobshop/Model.py:329-342 | appends one entry holding each plan as the ordered list of its operations' indices |
| `PyModel.Model.SetPlanningHorizon` | pyjobshop/Model.py:344-353 | sets the horizon and nothing else |
| `PyModel.Model.SetObjective` | pyjobshop/Model.py:355-364 | sets the objective and nothing else |
| `PyModel.Model.Data` | pyjobshop/Model.py:62-89 | one, possibly empty, operation list per job in job order, and a machines x ops x ops setup array that is 0 except at recorded keys |
| `FjspModel.Indices` | fjsp/Model.py:183 | the operation indices of the given operations, one per operation and in order |
| `FjspModel.FirstNonPrecedence` | fjsp/Model.py:245-247 | finds an entry iff some entry is neither a value nor a member name of the precedence enumeration |
| `FjspModel.Model.constructor` | fjsp/Model.py:16-29 | a new builder has empty lists and dictionaries |
| `FjspModel.Model.AddJob` | fjsp/Model.py:81-109 | appends one job and maps the new handle to the previous number of jobs; nothing else changes |
| `FjspModel.Model.AddMachine` | fjsp/Model.py:111-130 | appends one machine and maps the new handle to the previous number of machines; nothing else changes |
| `FjspModel.Model.AddOperation` | fjsp/Model.py:132-168 | appends one operation and maps the new handle to the previous number of operations; nothing else changes |
| `FjspModel.Model.AssignJobOperations` | fjsp/Model.py:170-184 | extends, never replaces, the job's list by the operations' indices in the given order |
| `FjspModel.Model.AssignMachineOperations` | fjsp/Model.py:186-202 | extends, never replaces, the machine's list by the operations' indices in the given order |
| `FjspModel.Model.AddProcessingTime` | fjsp/Model.py:204-224 | refuses a negative duration before any change; otherwise stores it under (op, machine), overwriting an earlier value |
| `FjspModel.Model.AddPrecedence` | fjsp/Model.py:226-251 | fails, changing nothing, iff some entry is not a precedence type; otherwise replaces the list stored for (op1, op2) |
| `FjspModel.Model.AddAccessConstraint` | fjsp/Model.py:253-271 | records accessibility (default false) under (machine1, machine2), overwriting |
| `FjspModel.Model.AddSetupTime` | fjsp/Model.py:273-299 | stores the duration under (op1, op2, machine), overwriting |
| `FjspModel.Model.Data` | fjsp/Model.py:43-79 | job and machine lists in order, and dense processing (default MAX_VALUE = 2**25), access (default true) and setup (default 0) arrays holding every recorded entry |
| `Dense.Dense2` | fjsp/Model.py:54-62 | the filled 2-D array holds the recorded value at every recorded key and the default everywhere else |
| `Dense.Dense3` | fjsp/Model.py:64-67 | the filled 3-D array holds the recorded value at every recorded key and the default everywhere else |
| `SolverUtils.ModesOf` | pyjobshop/solvers/utils.py:60-61 | exactly the indices of the modes of task `t`, each in range, in increasing order |
| `SolverUtils.Select` | pyjobshop/solvers/utils.py:66 | keeps exactly the candidates passing the filter, in their order (increasing input gives increasing output) |
| `SolverUtils.SelectLast` | pyjobshop/solvers/utils.py:64-67 | a selection extended by the last candidate stays increasing |
| `SolverUtils.DurationsOf` | pyjobshop/solvers/utils.py:26-27 | entry `k` is the duration of mode `idcs[k]` |
| `SolverUtils.ComputeTaskDurations` | pyjobshop/solvers/utils.py:10-29 | one list per task; list `t` holds the durations of exactly the modes of task `t`, in mode order |
| `SolverUtils.IdenticalModes` | pyjobshop/solvers/utils.py:35-69 | one pair per mode of task1 in index order; `x` is listed exactly when it is a task2 mode with the same resource set, increasing |
| `SolverUtils.DifferentModes` | pyjobshop/solvers/utils.py:72-108 | one pair per mode of task1 in index order; `x` is listed exactly when it is a task2 mode whose resources are disjoint, increasing |
| `SolverUtils.Insert` | pyjobshop/solvers/utils.py:141 | inserting into a sorted set keeps it strictly increasing and adds exactly `x` |
| `SolverUtils.SortedSet` | pyjobshop/solvers/utils.py:141 | `sorted(set(s))` is strictly increasing with the elements of `s` |
| `SolverUtils.CommonResources` | pyjobshop/solvers/utils.py:140-141 | strictly increasing and exactly the intersection of the two modes' resource sets |
| `SolverUtils.SelectInts` | pyjobshop/solvers/utils.py:140 | the elements kept are exactly those of `s` in `keep` |
| `SolverUtils.Row` | pyjobshop/solvers/utils.py:139-141 | one triple per mode of task2, each with the common resources |
| `SolverUtils.ProductLength` | pyjobshop/solvers/utils.py:139 | the product has `|modes1| * |modes2|` entries |
| `SolverUtils.ProductBlock` | pyjobshop/solvers/utils.py:139 | row `i` of the product starts after the rows of the first `i` elements |
| `SolverUtils.ProductAt` | pyjobshop/solvers/utils.py:139-141 | entry `i * |modes2| + j` pairs the i-th and j-th modes (row-major `itertools.product` order) |
| `SolverUtils.IntersectingModesLength` | pyjobshop/solvers/utils.py:111-143 | one triple per pair of task1 and task2 modes |
| `SolverUtils.IntersectingModesAt` | pyjobshop/solvers/utils.py:111-143 | triple `i * n + j` pairs the i-th task1 mode with the j-th task2 mode and lists their shared resources sorted |
| `SolverUtils.LastSetupRecorded` | pyjobshop/solvers/utils.py:156-159 | a key with no record reads 0; otherwise the entry is the duration of one of its records |
| `SolverUtils.SetupTimesMatrix` | pyjobshop/solvers/utils.py:146-161 | `None` exactly when there are no setup times; otherwise a fresh resources x tasks x tasks array whose entries are the last recorded duration, 0 elsewhere |
| `Utils.Slot` | pyjobshop/utils.py:22-23 | Python list indexing: a slot exists exactly for `-n <= task < n`, and it is `task` or `n + task` |
| `Utils.SeqMin` | pyjobshop/utils.py:25 | `min` of a non-empty list is an element no larger than any other |
| `Utils.SeqMax` | pyjobshop/utils.py:26 | `max` of a non-empty list is an element no smaller than any other |
| `Utils.ComputeMinMaxDurations` | pyjobshop/utils.py:4-28 | succeeds exactly when every key's task is indexable and every task has a duration; then `mins[t]`/`maxs[t]` are recorded durations bounding all of task `t`'s; an unindexable key gives the `IndexError` case with its witness, an empty task the `ValueError` case for the first such task |
| `RedundantCumulative.Connect` | pyjobshop/solvers/utils.py:206-207 | `graph[a].update(to)` for each `a`: every `a` becomes a key and gains exactly `to` as neighbours, others unchanged |
| `RedundantCumulative.AdjConnect` | pyjobshop/solvers/utils.py:206-207 | the `defaultdict` view: the neighbours of any node after the update, absent nodes included |
| `RedundantCumulative.ConnectSameFrom` | pyjobshop/solvers/utils.py:202-207 | two updates of the same nodes equal one update by the union |
| `RedundantCumulative.ConnectSameTo` | pyjobshop/solvers/utils.py:202-207 | two updates with the same targets equal one update of the union of sources |
| `RedundantCumulative.ConnectBoth` | pyjobshop/solvers/utils.py:199-207 | linking a subset to itself first and then the whole set equals linking the whole set |
| `RedundantCumulative.ConnectNothing` | pyjobshop/solvers/utils.py:206-207 | updating no node leaves the graph unchanged |
| `RedundantCumulative.ConnectOne` | pyjobshop/solvers/utils.py:207 | one `update` is one map entry replaced |
| `RedundantCumulative.UnionAllMembers` | pyjobshop/solvers/utils.py:209 | an element is in the union exactly when some set holds it |
| `RedundantCumulative.NeighboursInMembers` | pyjobshop/solvers/utils.py:199-207 | `y` neighbours `u` exactly when some set holds both |
| `RedundantCumulative.CliqueGraphForm` | pyjobshop/solvers/utils.py:188-209 | the nodes of the built graph are the members of the task sets; a node's neighbours are the members of the sets holding it |
| `RedundantCumulative.CliqueGraphAdjacency` | pyjobshop/solvers/utils.py:188-207 | two nodes are adjacent exactly when some task set holds both |
| `RedundantCumulative.CliqueGraphShape` | pyjobshop/solvers/utils.py:188-207 | the built graph is undirected and every neighbour is a key |
| `RedundantCumulative.TaskResourceSets` | pyjobshop/solvers/utils.py:190-196 | entry `t` is the set of resources of all modes of task `t` |
| `RedundantCumulative.TaskMachineSets` | pyjobshop/solvers/utils.py:197 | entry `t` is task `t`'s resources intersected with the machine indices |
| `RedundantCumulative.Square` | pyjobshop/solvers/utils.py:199 | `product(s, repeat=2)` holds exactly the ordered pairs of members of `s` |
| `RedundantCumulative.AdjAddEdges` | pyjobshop/solvers/utils.py:199-200 | adding edges gives each node exactly its row of new targets |
| `RedundantCumulative.AddEdgesStep` | pyjobshop/solvers/utils.py:200 | one more `graph[a].add(b)` is one more edge |
| `RedundantCumulative.AddEdgesSquare` | pyjobshop/solvers/utils.py:199-200 | all ordered pairs of `s` link every member of `s` to all of `s` |
| `RedundantCumulative.AddPairs` | pyjobshop/solvers/utils.py:199-200 | the pair loop yields the graph with `s` linked to itself |
| `RedundantCumulative.UpdateSeqConnects` | pyjobshop/solvers/utils.py:206-207 | updating along a list of sources equals one update by its element set |
| `RedundantCumulative.UpdateAll` | pyjobshop/solvers/utils.py:206-207 | the `for res1 in resources1` loop yields the connected graph |
| `RedundantCumulative.AddModeRow` | pyjobshop/solvers/utils.py:202-207 | for a fixed first mode, the graph gains that mode's resources linked to all resources of the task's modes |
| `RedundantCumulative.AddModePairs` | pyjobshop/solvers/utils.py:202-207 | the mode-pair loop links all resources of the task's modes to each other |
| `RedundantCumulative.CliqueGraphStep` | pyjobshop/solvers/utils.py:190-207 | one more task adds its resource set as a clique |
| `RedundantCumulative.MachineGraphStep` | pyjobshop/solvers/utils.py:197-200 | on machines only, one more task adds its machine set as a clique |
| `RedundantCumulative.BuildGraph` | pyjobshop/solvers/utils.py:188-207 | the graph as written is the clique graph of every task's full resource set |
| `RedundantCumulative.BuildMachineGraph` | pyjobshop/solvers/utils.py:188-200 | the machine-only graph is the clique graph of every task's machine set |
| `RedundantCumulative.ReachSym` | pyjobshop/solvers/utils.py:213-219 | in the undirected graph reachability goes both ways |
| `RedundantCumulative.ClosedReach` | pyjobshop/solvers/utils.py:213-219 | a walk never leaves a neighbour-closed set |
| `RedundantCumulative.ReachSetSame` | pyjobshop/solvers/utils.py:221-225 | mutually reachable nodes have the same component |
| `RedundantCumulative.Dfs` | pyjobshop/solvers/utils.py:213-219 | the recursive `dfs` adds `node` and exactly nodes reachable from it, and leaves none of them with an unvisited neighbour |
| `RedundantCumulative.NewComponent` | pyjobshop/solvers/utils.py:221-225 | the nodes one search adds are exactly the reachable set of its start, and visited stays closed |
| `RedundantCumulative.AppendComponent` | pyjobshop/solvers/utils.py:221-225 | the nodes one search adds form a further component |
| `RedundantCumulative.Components` | pyjobshop/solvers/utils.py:209-225 | the loop returns the connected components of the graph: disjoint, non-empty, covering all nodes, each a reachable set |
| `RedundantCumulative.TasksOf` | pyjobshop/solvers/utils.py:229-237 | a task belongs to a component exactly when one of its mode resources lies in it |
| `RedundantCumulative.ComponentTasks` | pyjobshop/solvers/utils.py:227-237 | `tasks[k]` is exactly the set of tasks meeting component `k` |
| `RedundantCumulative.MachineSets` | pyjobshop/solvers/utils.py:239 | the `machines` field of each returned `Component`, in order |
| `RedundantCumulative.RedundantCumulative` | pyjobshop/solvers/utils.py:170-239 | as written: the `machines` fields are the components of the graph over all resources, each paired with the tasks meeting it |
| `RedundantCumulative.RedundantCumulativeMachines` | pyjobshop/solvers/utils.py:170-239 | corrected: the `machines` fields are the components of the machine-only graph, each paired with the tasks meeting it |
| `RedundantCumulative.CliqueInsideComponent` | pyjobshop/solvers/utils.py:199-225 | a task's set lies inside every component it meets |
| `RedundantCumulative.TaskInOneComponent` | pyjobshop/solvers/utils.py:227-237 | a task with a non-empty set meets exactly one component and lies inside it |
| `RedundantCumulative.MachineComponentsAreMachines` | pyjobshop/solvers/utils.py:197-200 | components of the machine graph hold machines only |
| `RedundantCumulative.NoMachinesAsWritten` | pyjobshop/solvers/utils.py:202-207 | as written, an instance without machines still has a component, holding the non-machine resource 0 |
| `RedundantCumulative.NoMachinesCorrected` | pyjobshop/solvers/utils.py:197-200 | on the machine graph the same instance has no component |
| `OrToolsUtils.Span` | pyjobshop/solvers/ortools/utils.py:86 | `Domain(lo, hi)` holds exactly the times in the closed interval |
| `OrToolsUtils.HalfOpen` | pyjobshop/solvers/ortools/utils.py:77 | `Domain.from_intervals([[s, e - 1] ...])` holds exactly the times inside one of the half-open intervals |
| `OrToolsUtils.Reverse` | pyjobshop/solvers/ortools/utils.py:37 | `reversed(breaks)`: same length, entry `i` is entry `n - 1 - i` |
| `OrToolsUtils.Criticals` | pyjobshop/solvers/ortools/utils.py:40-52 | one critical interval per reversed break, the i-th computed from break i and the later reversed breaks |
| `OrToolsUtils.CriticalNonNegative` | pyjobshop/solvers/ortools/utils.py:41-47 | critical points are clamped at 0 |
| `OrToolsUtils.CriticalIntervals` | pyjobshop/solvers/ortools/utils.py:37-52 | the loop with its `break` computes exactly the critical intervals |
| `OrToolsUtils.Endpoints` | pyjobshop/solvers/ortools/utils.py:59-61 | the breakpoints are exactly the ends of the critical intervals |
| `OrToolsUtils.Breakpoints` | pyjobshop/solvers/ortools/utils.py:59-61 | sorted, without duplicates, with the same elements |
| `OrToolsUtils.Pairwise` | pyjobshop/solvers/ortools/utils.py:63 | `pairwise(points)`: one pair fewer than points, pair `i` is `(points[i], points[i + 1])` |
| `OrToolsUtils.OverlappingUpTo` | pyjobshop/solvers/ortools/utils.py:66-68 | a break is kept exactly when its critical interval contains the segment |
| `OrToolsUtils.PartitionMembers` | pyjobshop/solvers/ortools/utils.py:63-72 | a segment is filed under `total` exactly when some critical interval contains it and `total` sums the lengths of the overlapping breaks |
| `OrToolsUtils.Partition` | pyjobshop/solvers/ortools/utils.py:58-72 | the segment loop builds exactly that partition |
| `OrToolsUtils.OverlappingBreaks` | pyjobshop/solvers/ortools/utils.py:64-68 | the inner loop collects exactly the overlapping breaks, in order |
| `OrToolsUtils.ValuesUnion` | pyjobshop/solvers/ortools/utils.py:82-84 | a time is in the union exactly when some domain holds it |
| `OrToolsUtils.UnionOfValues` | pyjobshop/solvers/ortools/utils.py:82-84 | the `union_with` loop yields that union |
| `OrToolsUtils.ClassDomains` | pyjobshop/solvers/ortools/utils.py:76-86 | as written: one domain per partition key plus key 0, which is overwritten with the complement of all domains (its own included) |
| `OrToolsUtils.ClassDomainsFixed` | pyjobshop/solvers/ortools/utils.py:76-86 | corrected: key 0 is the complement of the non-zero domains only |
| `OrToolsUtils.Domains` | pyjobshop/solvers/ortools/utils.py:76-79 | one domain per partition key, each the union of its segments |
| `OrToolsUtils.WithoutBreaks` | pyjobshop/solvers/ortools/utils.py:89-93 | same keys, each domain minus the times inside a break |
| `OrToolsUtils.PartitionDomains` | pyjobshop/solvers/ortools/utils.py:76-86 | the domain-building code yields `ClassDomains` |
| `OrToolsUtils.PartitionTaskStart` | pyjobshop/solvers/ortools/utils.py:9-93 | `partition_task_start_by_break_overlap` as written |
| `OrToolsUtils.NoBreaks` | pyjobshop/solvers/ortools/utils.py:81-93 | without breaks the only class is 0, holding every time in [0, MAX_VALUE] |
| `OrToolsUtils.NoStartInBreak` | pyjobshop/solvers/ortools/utils.py:88-93 | no class holds a time at which a break is in progress |
| `OrToolsUtils.SegmentsDisjoint` | pyjobshop/solvers/ortools/utils.py:59-63 | the segments between sorted breakpoints do not overlap |
| `OrToolsUtils.ClassSegment` | pyjobshop/solvers/ortools/utils.py:63-79 | a time in a non-zero class lies in a segment whose overlapping breaks sum to that class |
| `OrToolsUtils.ClassesDisjoint` | pyjobshop/solvers/ortools/utils.py:15-18 | different classes share no start time |
| `OrToolsUtils.FixedDomainsCover` | pyjobshop/solvers/ortools/utils.py:81-86 | corrected: every time in [0, MAX_VALUE] lies in some class domain |
| `OrToolsUtils.FixedClassesCover` | pyjobshop/solvers/ortools/utils.py:15-18 | corrected: every time in [0, MAX_VALUE] outside all breaks lies in some class |
| `OrToolsUtils.TotalPositive` | pyjobshop/solvers/ortools/utils.py:71 | overlapping breaks of positive length sum to a positive total |
| `OrToolsUtils.NoZeroKey` | pyjobshop/solvers/ortools/utils.py:70-72 | with positive-length breaks no segment is filed under key 0 |
| `OrToolsUtils.PartitionLists` | pyjobshop/solvers/ortools/utils.py:72 | every list in the partition is non-empty |
| `OrToolsUtils.SameForPositiveLengths` | pyjobshop/solvers/ortools/utils.py:81-93 | with positive-length breaks the code as written and the corrected version agree |
| `OrToolsUtils.PartitionOfOne` | pyjobshop/solvers/ortools/utils.py:63-72 | a single segment is filed under its total when some break overlaps it, otherwise nowhere |
| `OrToolsUtils.ZeroLengthBreakPartition` | pyjobshop/solvers/ortools/utils.py:63-72 | a zero-length break at 1 and a task of length 2: segment [0, 1) is filed under key 0 |
| `OrToolsUtils.ZeroKeyLost` | pyjobshop/solvers/ortools/utils.py:85-86 | as written, a time filed only under key 0 ends up in no class |
| `OrToolsUtils.ZeroLengthBreakAsWritten` | pyjobshop/solvers/ortools/utils.py:81-93 | as written, start time 0 is in no class for that instance, though no break is in progress at 0 |
| `OrToolsUtils.ZeroKeyKept` | pyjobshop/solvers/ortools/utils.py:81-86 | corrected: such a time outside the breaks is in class 0 |
| `OrToolsUtils.ZeroLengthBreakFixed` | pyjobshop/solvers/ortools/utils.py:81-93 | corrected: start time 0 is in class 0 for that instance |
| `OrVariables.JobVarsUpTo` | pyjobshop/solvers/ortools/Variables.py:194-216 | the variables of the first `n` jobs, three consecutive handles per job |
| `OrVariables.JobRecordsSatisfied` | pyjobshop/solvers/ortools/Variables.py:194-214 | a valuation satisfying all job records satisfies each job's block |
| `OrVariables.MakeJobVariables` | pyjobshop/solvers/ortools/Variables.py:187-216 | appends exactly the job records, three fresh variables per job, and returns their handles; hints and objective untouched |
| `OrVariables.AddJobBlock` | pyjobshop/solvers/ortools/Variables.py:195-214 | one job's start, duration, end and interval records |
| `OrVariables.JobVarBounds` | pyjobshop/solvers/ortools/Variables.py:196-214 | any satisfying valuation puts a job's start in [release date, MAX_VALUE], its end in [0, min(deadline, MAX_VALUE)], and start + duration = end |
| `OrVariables.TaskVarsUpTo` | pyjobshop/solvers/ortools/Variables.py:226-258 | the variables of the first `n` tasks, four handles per task |
| `OrVariables.TaskRecordsSatisfied` | pyjobshop/solvers/ortools/Variables.py:226-256 | a valuation satisfying all task records satisfies each task's block |
| `OrVariables.MakeTaskVariables` | pyjobshop/solvers/ortools/Variables.py:218-258 | fails at the first task whose `min` over an empty duration list raises; otherwise appends exactly the task records and returns their handles |
| `OrVariables.TaskDurationsEmpty` | pyjobshop/solvers/ortools/Variables.py:223 | a task's duration list is empty exactly when the task has no modes |
| `OrVariables.FirstUndefined` | pyjobshop/solvers/ortools/Variables.py:238-241 | none exactly when every non-fixed task has a duration; else the first that has none |
| `OrVariables.AddTaskBlocks` | pyjobshop/solvers/ortools/Variables.py:226-258 | the task loop appends exactly the task records |
| `OrVariables.AddTaskBlock` | pyjobshop/solvers/ortools/Variables.py:227-256 | one task's start, duration, end, presence and interval records |
| `OrVariables.TaskDurations` | pyjobshop/solvers/ortools/Variables.py:223 | one duration list per task |
| `OrVariables.TaskVarBounds` | pyjobshop/solvers/ortools/Variables.py:228-256 | any satisfying valuation keeps a task's start and end in its window clamped at MAX_VALUE, its duration among the mode durations when fixed and in [min, MAX_VALUE] otherwise, a required task present, and start + duration = end when present |
| `OrVariables.TaskBlockBounds` | pyjobshop/solvers/ortools/Variables.py:228-256 | the same for one task's block |
| `OrVariables.ModeRecordsSatisfied` | pyjobshop/solvers/ortools/Variables.py:267-297 | a valuation satisfying all mode records satisfies each mode's block |
| `OrVariables.MakeModeVariables` | pyjobshop/solvers/ortools/Variables.py:260-299 | appends exactly the mode records and returns their handles |
| `OrVariables.ModeVarsUpTo` | pyjobshop/solvers/ortools/Variables.py:267-299 | the variables of the first `n` modes, tagged with their task |
| `OrVariables.AddModeBlock` | pyjobshop/solvers/ortools/Variables.py:268-297 | one mode's start, duration, end, presence and interval records |
| `OrVariables.ModeVarBounds` | pyjobshop/solvers/ortools/Variables.py:270-290 | any satisfying valuation gives a mode a duration of at least its processing time (exactly it for a fixed-duration task, at most MAX_VALUE otherwise), the task's window, and a 0/1 presence |
| `OrVariables.ModeBlockBounds` | pyjobshop/solvers/ortools/Variables.py:270-290 | the same for one mode's block |
| `OrVariables.Nodes` | pyjobshop/solvers/ortools/Variables.py:138-139 | the nodes of a sequence: the mode positions, then the dummy |
| `OrVariables.NodesDistinct` | pyjobshop/solvers/ortools/Variables.py:138-139 | the nodes are pairwise distinct |
| `OrVariables.ArcsKeys` | pyjobshop/solvers/ortools/Variables.py:140-142 | a sequence has an arc for every ordered pair of nodes, self-loops and the dummy included |
| `OrVariables.ArcsNumbered` | pyjobshop/solvers/ortools/Variables.py:140-142 | arc (x, y) carries the literal created at position `x * (n + 1) + y` of the nested comprehension |
| `OrVariables.ArcsDistinct` | pyjobshop/solvers/ortools/Variables.py:140-142 | no two arcs share a literal |
| `OrVariables.AddArcRow` | pyjobshop/solvers/ortools/Variables.py:141 | one fresh literal per arc leaving node `a`, numbered in order |
| `OrVariables.SequenceVar.constructor` | pyjobshop/solvers/ortools/Variables.py:96-125 | a new sequence holds its mode variables, no arcs, and is inactive |
| `OrVariables.SequenceVar.Activate` | pyjobshop/solvers/ortools/Variables.py:127-143 | a no-op when active; otherwise it becomes active with one fresh Boolean per ordered pair of nodes, appended in creation order |
| `OrVariables.MakeSequenceVariables` | pyjobshop/solvers/ortools/Variables.py:301-315 | exactly one fresh, inactive, arc-less sequence per machine, over the mode variables of the modes using it, no two machines sharing one |
| `OrVariables.EarliestStartIsMin` | pyjobshop/solvers/ortools/Variables.py:335 | `min(task.start ...)` is the start of one of the tasks and no later than any |
| `OrVariables.LatestEndIsMax` | pyjobshop/solvers/ortools/Variables.py:336 | `max(task.end ...)` is the end of one of the tasks and no earlier than any |
| `OrVariables.Warmstart` | pyjobshop/solvers/ortools/Variables.py:317-363 | succeeds exactly when every job has a task (else the first job without one, where `min` raises); the hints are then exactly the job, task and mode hints; variables and objective untouched |
| `OrVariables.FirstJobWithoutTasks` | pyjobshop/solvers/ortools/Variables.py:330-336 | none exactly when every job has a task; else the first that has none |
| `OrVariables.HintJobs` | pyjobshop/solvers/ortools/Variables.py:330-340 | the job loop appends exactly the job hints |
| `OrVariables.HintJob` | pyjobshop/solvers/ortools/Variables.py:331-340 | one job's start, duration and end hints |
| `OrVariables.HintTasks` | pyjobshop/solvers/ortools/Variables.py:342-353 | the task loop appends exactly the task hints |
| `OrVariables.HintModes` | pyjobshop/solvers/ortools/Variables.py:355-363 | the mode loop appends exactly the mode hints |
| `OrVariables.JobHintsSpan` | pyjobshop/solvers/ortools/Variables.py:333-340 | a job is hinted to start at its earliest task start, end at its latest task end, with their difference as duration |
| `OrVariables.TaskHintsPresence` | pyjobshop/solvers/ortools/Variables.py:342-353 | a task's presence is hinted exactly when the task is optional, with the solution's presence |
| `OrVariables.ModeHintPresence` | pyjobshop/solvers/ortools/Variables.py:355-363 | a mode's presence hint is 1 exactly for the solution's mode of its task |
| `OrConstraints.Presences` | pyjobshop/solvers/ortools/Constraints.py:358 | the presence literals of the listed tasks, in order |
| `OrConstraints.ModeLitsOf` | pyjobshop/solvers/ortools/Constraints.py:50 | the literals of the listed modes, in order |
| `OrConstraints.PresencesBool` | pyjobshop/solvers/ortools/Constraints.py:358 | a satisfying valuation makes each presence literal 0 or 1 |
| `OrConstraints.ModeLitsBool` | pyjobshop/solvers/ortools/Constraints.py:50 | a satisfying valuation makes each mode literal 0 or 1 |
| `OrConstraints.Starts` | pyjobshop/solvers/ortools/Constraints.py:32 | the start variables of the listed tasks |
| `OrConstraints.Ends` | pyjobshop/solvers/ortools/Constraints.py:33 | the end variables of the listed tasks |
| `OrConstraints.JobSpansTasks` | pyjobshop/solvers/ortools/Constraints.py:24-36 | appends exactly one min-equality and one max-equality record per job, nothing else changes |
| `OrConstraints.AddJobSpan` | pyjobshop/solvers/ortools/Constraints.py:31-36 | one job's two records |
| `OrConstraints.JobSpanMeaning` | pyjobshop/solvers/ortools/Constraints.py:24-36 | a satisfying valuation starts each job at the earliest start of its tasks and ends it at the latest end; a job without tasks has no satisfying valuation |
| `OrConstraints.JobSpanBlockMeaning` | pyjobshop/solvers/ortools/Constraints.py:35-36 | one job's two records satisfied: the job spans its tasks exactly |
| `OrConstraints.JobStartMeaning` | pyjobshop/solvers/ortools/Constraints.py:35 | a satisfied minimum equality is the minimum of the task starts |
| `OrConstraints.JobEndMeaning` | pyjobshop/solvers/ortools/Constraints.py:36 | a satisfied maximum equality is the maximum of the task ends |
| `OrConstraints.AddTimings` | pyjobshop/solvers/ortools/Constraints.py:149-175 | one of the four timing loops appends one enforced record per constraint |
| `OrConstraints.TimingConstraints` | pyjobshop/solvers/ortools/Constraints.py:143-175 | the four lists in source order, nothing else changes |
| `OrConstraints.TimingMeaning` | pyjobshop/solvers/ortools/Constraints.py:149-175 | with both tasks present, the first task's point plus the delay is at most the second task's point |
| `OrConstraints.TimingVacuous` | pyjobshop/solvers/ortools/Constraints.py:149-175 | an absent task leaves its timing record satisfied by every valuation |
| `OrConstraints.PresenceValue` | pyjobshop/solvers/ortools/Constraints.py:187-188 | `assign.present if assign else 0` is 1 exactly when the task is assigned to the resource and present |
| `OrConstraints.AddIdenticalRow` | pyjobshop/solvers/ortools/Constraints.py:184-190 | one equality per resource for an identical-resources pair |
| `OrConstraints.AddDifferentRow` | pyjobshop/solvers/ortools/Constraints.py:193-199 | one implication per resource for a different-resources pair |
| `OrConstraints.IdenticalAndDifferentResourceConstraints` | pyjobshop/solvers/ortools/Constraints.py:177-199 | appends exactly the identical rows then the different rows |
| `OrConstraints.AddIdenticalRows` | pyjobshop/solvers/ortools/Constraints.py:183-190 | the loop over identical-resources pairs |
| `OrConstraints.AddDifferentRows` | pyjobshop/solvers/ortools/Constraints.py:192-199 | the loop over different-resources pairs |
| `OrConstraints.IdenticalRowSatisfied` | pyjobshop/solvers/ortools/Constraints.py:184-190 | a satisfied row makes both presence expressions equal |
| `OrConstraints.DifferentRowSatisfied` | pyjobshop/solvers/ortools/Constraints.py:193-199 | a satisfied row forbids the second assignment when the first holds |
| `OrConstraints.IdenticalMeaning` | pyjobshop/solvers/ortools/Constraints.py:183-190 | on every resource, the first task is assigned exactly when the second is |
| `OrConstraints.DifferentMeaning` | pyjobshop/solvers/ortools/Constraints.py:192-199 | a resource the first task is assigned to is not assigned to the second |
| `OrConstraints.AddToGroups` | pyjobshop/solvers/ortools/Constraints.py:68-70 | `res2modes[res].append(m)` keeps the key list and the dictionary in step |
| `OrConstraints.ResourceGroups` | pyjobshop/solvers/ortools/Constraints.py:67-70 | the `res2modes` of a task keeps keys and dictionary in step |
| `OrConstraints.AddToGroupsMeaning` | pyjobshop/solvers/ortools/Constraints.py:68-70 | after appending, each key lists exactly its earlier modes plus `m` where `m` uses it |
| `OrConstraints.ResourceGroupsMeaning` | pyjobshop/solvers/ortools/Constraints.py:67-70 | `res2modes` lists a resource exactly when a mode of the task uses it, and under it exactly those modes |
| `OrConstraints.SelectOneMode` | pyjobshop/solvers/ortools/Constraints.py:38-82 | appends exactly the selection records of every task, nothing else changes |
| `OrConstraints.SelectTaskMode` | pyjobshop/solvers/ortools/Constraints.py:47-82 | the records of one task after those of the earlier tasks |
| `OrConstraints.AddModeRows` | pyjobshop/solvers/ortools/Constraints.py:53-65 | the per-mode rows |
| `OrConstraints.AddResourceRows` | pyjobshop/solvers/ortools/Constraints.py:58-65 | per resource of a mode: assignment present and demand fixed when the mode is selected |
| `OrConstraints.GroupModes` | pyjobshop/solvers/ortools/Constraints.py:67-70 | the grouping loop builds exactly `res2modes` |
| `OrConstraints.GroupMode` | pyjobshop/solvers/ortools/Constraints.py:69-70 | one mode's grouping step |
| `OrConstraints.AddGroupRows` | pyjobshop/solvers/ortools/Constraints.py:72-77 | one row per `res2modes` key |
| `OrConstraints.AddPresenceRows` | pyjobshop/solvers/ortools/Constraints.py:79-82 | one row per resource of the task |
| `OrConstraints.SelectRecordsFlat` | pyjobshop/solvers/ortools/Constraints.py:46-82 | the selection records are the task blocks laid end to end |
| `OrConstraints.SelectRecordHolds` | pyjobshop/solvers/ortools/Constraints.py:46-82 | a satisfying valuation satisfies each record of each task's block |
| `OrConstraints.CountRowHolds` | pyjobshop/solvers/ortools/Constraints.py:51-52 | the mode count row of a task holds |
| `OrConstraints.ModeRecordHolds` | pyjobshop/solvers/ortools/Constraints.py:53-65 | every record of a mode's rows holds |
| `OrConstraints.GroupRowHolds` | pyjobshop/solvers/ortools/Constraints.py:72-77 | the `res2modes` row of each resource holds |
| `OrConstraints.PresenceRowHolds` | pyjobshop/solvers/ortools/Constraints.py:79-82 | the presence row of each resource holds |
| `OrConstraints.SelectCount` | pyjobshop/solvers/ortools/Constraints.py:51-52 | the number of selected modes of a task equals its presence |
| `OrConstraints.SelectOneModeMeaning` | pyjobshop/solvers/ortools/Constraints.py:38-52 | a present task has exactly one selected mode; an absent task has none |
| `OrConstraints.ModeLitIndex` | pyjobshop/solvers/ortools/Constraints.py:48-50 | each mode of a task sits in `task2modes` with its literal at the same position |
| `OrConstraints.OnlySelectedMode` | pyjobshop/solvers/ortools/Constraints.py:51-52 | a single true literal names the one selected mode |
| `OrConstraints.NoSelectedMode` | pyjobshop/solvers/ortools/Constraints.py:51-52 | with no true literal no mode of the task is selected |
| `OrConstraints.SelectedModeMeaning` | pyjobshop/solvers/ortools/Constraints.py:53-65 | a selected mode fixes the processing time to its duration, makes each of its assignments present and sets each demand |
| `OrConstraints.GroupKey` | pyjobshop/solvers/ortools/Constraints.py:67-72 | a resource used by a mode of the task is a `res2modes` key |
| `OrConstraints.GroupMember` | pyjobshop/solvers/ortools/Constraints.py:67-72 | a mode listed under a resource is a mode of the task using it |
| `OrConstraints.AssignedPresent` | pyjobshop/solvers/ortools/Constraints.py:79-82 | a present assignment needs the task present |
| `OrConstraints.AssignedSelected` | pyjobshop/solvers/ortools/Constraints.py:72-77 | a present assignment needs a selected mode of the task using that resource |
| `OrConstraints.GroupRowTrueMode` | pyjobshop/solvers/ortools/Constraints.py:72-77 | a holding group row of a present assignment has one of its modes selected |
| `OrConstraints.MachinesNoOverlap` | pyjobshop/solvers/ortools/Constraints.py:84-92 | appends one no-overlap record per machine, in machine order |
| `OrConstraints.AddNoOverlaps` | pyjobshop/solvers/ortools/Constraints.py:90-92 | one no-overlap record per listed machine |
| `OrConstraints.MachinesNoOverlapMeaning` | pyjobshop/solvers/ortools/Constraints.py:84-92 | two present assignments to the same machine do not overlap in time |
| `OrConstraints.RenewableCapacity` | pyjobshop/solvers/ortools/Constraints.py:94-104 | appends one cumulative record per renewable resource |
| `OrConstraints.RenewableCapacityMeaning` | pyjobshop/solvers/ortools/Constraints.py:94-104 | at every time the summed demand of the running present assignments is at most the capacity |
| `OrConstraints.NonRenewableCapacity` | pyjobshop/solvers/ortools/Constraints.py:106-116 | appends one total-demand record per non-renewable resource |
| `OrConstraints.NonRenewableCapacityMeaning` | pyjobshop/solvers/ortools/Constraints.py:106-116 | the summed demand over the horizon is at most the capacity |
| `OrConstraints.Selections` | pyjobshop/solvers/ortools/Constraints.py:130 | the selection literals of a mode's breaks |
| `OrConstraints.ResourceBreaksConstraints` | pyjobshop/solvers/ortools/Constraints.py:118-141 | appends exactly the break records of every task and mode |
| `OrConstraints.AddTaskBreaks` | pyjobshop/solvers/ortools/Constraints.py:124-141 | the records of one task after the earlier tasks' |
| `OrConstraints.AddTaskModeBreaks` | pyjobshop/solvers/ortools/Constraints.py:125-141 | the break records of a task, mode by mode |
| `OrConstraints.AddModeBreaks` | pyjobshop/solvers/ortools/Constraints.py:126-141 | one mode's count row and its per-break rows |
| `OrConstraints.BreakRecordHolds` | pyjobshop/solvers/ortools/Constraints.py:118-141 | every record of a mode's break block holds |
| `OrConstraints.BreakCountMeaning` | pyjobshop/solvers/ortools/Constraints.py:130-131 | a selected mode selects exactly one of its break classes; an unselected mode none |
| `OrConstraints.SelectedBreakMeaning` | pyjobshop/solvers/ortools/Constraints.py:133-141 | a selected break class fixes the task's break time and puts its start in the class domain |
| `OrSelection.ModeVarsOf` | pyjobshop/solvers/ortools/Constraints.py:327 | the mode variables of the listed modes, in order |
| `OrSelection.ModeDependencies` | pyjobshop/solvers/ortools/Constraints.py:319-328 | appends exactly one `mode1 <= sum(modes2)` record per dependency, nothing else changes |
| `OrSelection.DependencyMeaning` | pyjobshop/solvers/ortools/Constraints.py:325-328 | selecting the first mode of a dependency selects at least one of its listed modes |
| `OrSelection.PresenceLits` | pyjobshop/solvers/ortools/Constraints.py:358-363 | the presence literals of the listed tasks |
| `OrSelection.AddSelections` | pyjobshop/solvers/ortools/Constraints.py:347-364 | one of the three loops appends exactly its groups' records; a missing condition costs one fresh constant |
| `OrSelection.AddSelection` | pyjobshop/solvers/ortools/Constraints.py:347-364 | one group's block |
| `OrSelection.AddAllOrNone` | pyjobshop/solvers/ortools/Constraints.py:350-354 | one enforced equality per consecutive pair of tasks |
| `OrSelection.TaskSelectionConstraints` | pyjobshop/solvers/ortools/Constraints.py:330-364 | all-or-none, at-least-one and exactly-one groups, in that order |
| `OrSelection.SelectionBlockSatisfied` | pyjobshop/solvers/ortools/Constraints.py:347-364 | a satisfying valuation satisfies every group's block |
| `OrSelection.KindRowsSatisfied` | pyjobshop/solvers/ortools/Constraints.py:336-345 | a missing condition is the constant 1, which holds |
| `OrSelection.PairwiseChain` | pyjobshop/solvers/ortools/Constraints.py:350-354 | equalities between consecutive tasks make every task agree with the first |
| `OrSelection.AllOrNoneMeaning` | pyjobshop/solvers/ortools/Constraints.py:347-354 | under its condition, any two tasks of a group are both present or both absent |
| `OrSelection.GroupAllOrNone` | pyjobshop/solvers/ortools/Constraints.py:347-354 | the same for one group's block |
| `OrSelection.AtLeastOneRowMeaning` | pyjobshop/solvers/ortools/Constraints.py:359 | `cond <= sum(presences)` with a true condition: some task is present |
| `OrSelection.ExactlyOneRowMeaning` | pyjobshop/solvers/ortools/Constraints.py:364 | `sum(presences) == 1` under a true condition: exactly one task is present |
| `OrSelection.AtLeastOneMeaning` | pyjobshop/solvers/ortools/Constraints.py:356-359 | under its condition, some task of the group is present |
| `OrSelection.ExactlyOneMeaning` | pyjobshop/solvers/ortools/Constraints.py:361-364 | under its condition, exactly one task of the group is present |
| `OrSelection.PresencesBool` | pyjobshop/solvers/ortools/Constraints.py:358 | presence literals are 0 or 1 in a satisfying valuation |
| `OrSequencing.Sequences.constructor` | pyjobshop/solvers/ortools/Variables.py:96-125 | the set of active sequences starts as given |
| `OrSequencing.Sequences.Activate` | pyjobshop/solvers/ortools/Variables.py:127-132 | activating adds the machine to the active set; an active one stays unchanged |
| `OrSequencing.ConsecutiveFlat` | pyjobshop/solvers/ortools/Constraints.py:207-220 | the records are the pairs' blocks laid end to end |
| `OrSequencing.ConsecutiveConstraints` | pyjobshop/solvers/ortools/Constraints.py:201-220 | appends exactly the enforced arc records and activates exactly the machines found, nothing else changes |
| `OrSequencing.AddConsecutivePair` | pyjobshop/solvers/ortools/Constraints.py:208-220 | one pair over all machines |
| `OrSequencing.ConsecutivePairMachinesMeaning` | pyjobshop/solvers/ortools/Constraints.py:208-215 | for one pair, a machine is activated exactly when both tasks have an assignment on it |
| `OrSequencing.ConsecutiveMachinesIn` | pyjobshop/solvers/ortools/Constraints.py:207-215 | activated machines are exactly those listed on which both tasks of some pair have an assignment |
| `OrSequencing.ConsecutiveMachinesMeaning` | pyjobshop/solvers/ortools/Constraints.py:201-215 | activated machines are exactly the machines on which both tasks of some pair have an assignment |
| `OrSequencing.ConsecutiveMeaning` | pyjobshop/solvers/ortools/Constraints.py:217-220 | with both tasks present on a machine, the arc from the first to the second is selected |
| `OrSequencing.InsertSorted` | pyjobshop/solvers/ortools/Constraints.py:238 | inserting keeps a list sorted and adds exactly one copy of `x` |
| `OrSequencing.ConsSorted` | pyjobshop/solvers/ortools/Constraints.py:238 | a sorted list stays sorted behind a smaller element |
| `OrSequencing.SortInts` | pyjobshop/solvers/ortools/Constraints.py:238 | `sorted(s)` is non-decreasing and a permutation of `s` |
| `OrSequencing.TasksOf` | pyjobshop/solvers/ortools/Constraints.py:238 | the task of each listed mode |
| `OrSequencing.DefaultTasks` | pyjobshop/solvers/ortools/Constraints.py:236-242 | the default task list is sorted and holds one task per mode of the machine, duplicates kept |
| `OrSequencing.Product` | pyjobshop/solvers/ortools/Constraints.py:244-245 | the first `a` rows of `product(ts, repeat=2)` |
| `OrSequencing.ProductAt` | pyjobshop/solvers/ortools/Constraints.py:244-245 | `(ts[x], ts[b])` sits at position `x * n + b` |
| `OrSequencing.Pairs` | pyjobshop/solvers/ortools/Constraints.py:244-245 | `product(ts, repeat=2)` has `n * n` pairs |
| `OrSequencing.SameSequenceFlat` | pyjobshop/solvers/ortools/Constraints.py:228-252 | the records are the constraints' blocks laid end to end |
| `OrSequencing.SameSequenceMachinesIn` | pyjobshop/solvers/ortools/Constraints.py:231-234 | exactly the machines the constraints name are activated |
| `OrSequencing.SameSequenceConstraints` | pyjobshop/solvers/ortools/Constraints.py:222-252 | appends exactly the arc equalities and activates exactly both machines of every constraint |
| `OrSequencing.AddSameSequence` | pyjobshop/solvers/ortools/Constraints.py:229-252 | one constraint: activate both sequences, then tie their arcs |
| `OrSequencing.AddSameSequenceRows` | pyjobshop/solvers/ortools/Constraints.py:247-252 | one equality per zipped pair, up to the shorter product |
| `OrSequencing.SameSequenceMeaning` | pyjobshop/solvers/ortools/Constraints.py:247-252 | the `k`-th arc of the first sequence is selected exactly when the `k`-th of the second is |
| `OrSequencing.SameSequencePositional` | pyjobshop/solvers/ortools/Constraints.py:247-252 | with equal-length task lists, `i -> j` on the first machine exactly when the tasks at the same positions follow each other on the second |
| `OrSequencing.PairIndex` | pyjobshop/solvers/ortools/Constraints.py:244-247 | position `a * n + b` of both products pairs the tasks at positions `a` and `b` |
| `OrCircuit.ResTasks` | pyjobshop/solvers/ortools/Constraints.py:281-282 | `res_tasks`: exactly the tasks with a mode on the machine, increasing |
| `OrCircuit.ResTasksKnown` | pyjobshop/solvers/ortools/Constraints.py:284-301 | every such task has an assignment variable on the machine |
| `OrCircuit.CircuitActivatedIn` | pyjobshop/solvers/ortools/Constraints.py:262-270 | a listed machine is activated exactly when it has a nonzero setup time or no idle time |
| `OrCircuit.CircuitActivatedMeaning` | pyjobshop/solvers/ortools/Constraints.py:262-270 | the machines `_circuit_constraints` activates are exactly those with a nonzero setup time or the no-idle flag |
| `OrCircuit.AnyNonzero` | pyjobshop/solvers/ortools/Constraints.py:266 | `np.any(setup[r])` is true exactly when some entry of that slice is nonzero |
| `OrCircuit.CircuitConstraints` | pyjobshop/solvers/ortools/Constraints.py:254-317 | appends exactly the circuit records of every active machine and activates exactly the setup and no-idle machines |
| `OrCircuit.CircuitLoop` | pyjobshop/solvers/ortools/Constraints.py:262-317 | the machine loop, in index order |
| `OrCircuit.CircuitMachine` | pyjobshop/solvers/ortools/Constraints.py:263-317 | one turn of that loop |
| `OrCircuit.ActivateMachine` | pyjobshop/solvers/ortools/Constraints.py:266-270 | after the two tests a machine is active exactly when it was or it has a setup time or no idle time |
| `OrCircuit.AddMachineCircuit` | pyjobshop/solvers/ortools/Constraints.py:277-317 | one active machine's circuit record and task rows, in loop order |
| `OrCircuit.AddTaskRows` | pyjobshop/solvers/ortools/Constraints.py:284-317 | one task's loop, dummy and arc records |
| `OrCircuit.AddArcRows` | pyjobshop/solvers/ortools/Constraints.py:297-317 | the three records of each arc from `t1`, skipping `t1` itself |
| `OrCircuit.TaskRecordHolds` | pyjobshop/solvers/ortools/Constraints.py:284-317 | every record of a task's rows holds in a satisfying valuation |
| `OrCircuit.MachineBlockContained` | pyjobshop/solvers/ortools/Constraints.py:262-317 | the records of an active machine's block are among the circuit records |
| `OrCircuit.CircuitAdded` | pyjobshop/solvers/ortools/Constraints.py:277-279 | a machine with a circuit has the circuit record over its arcs |
| `OrCircuit.CircuitLoopMeaning` | pyjobshop/solvers/ortools/Constraints.py:288-289 | on an active machine a task's loop arc is selected exactly when the task is absent from it |
| `OrCircuit.LoopRowMeaning` | pyjobshop/solvers/ortools/Constraints.py:289 | `loop == ~present` |
| `OrCircuit.CircuitDummyMeaning` | pyjobshop/solvers/ortools/Constraints.py:294-295 | selecting the dummy loop leaves every task absent from the machine |
| `OrCircuit.DummyRowMeaning` | pyjobshop/solvers/ortools/Constraints.py:295 | `dummy_loop <= ~present` with the dummy loop selected: the task is absent |
| `OrCircuit.PairRowsHold` | pyjobshop/solvers/ortools/Constraints.py:302-317 | the three records of an arc hold |
| `OrCircuit.PairRowsMeaning` | pyjobshop/solvers/ortools/Constraints.py:302-317 | a selected arc puts both tasks on the machine and the second at or after (no idle: exactly at) the first's end plus the setup time |
| `OrCircuit.CircuitArcMeaning` | pyjobshop/solvers/ortools/Constraints.py:297-317 | the same for any arc between two tasks of an active machine |
| `OrObjective.EndValues` | pyjobshop/solvers/ortools/Objective.py:31 | the values a valuation gives the listed end variables |
| `OrObjective.EndExprs` | pyjobshop/solvers/ortools/Objective.py:31 | the end variables as expressions |
| `OrObjective.MakespanExpr` | pyjobshop/solvers/ortools/Objective.py:26-33 | one fresh variable in [0, horizon] tied by a max-equality to the task ends; returns it |
| `OrObjective.MakespanMeaning` | pyjobshop/solvers/ortools/Objective.py:26-33 | a satisfying valuation makes the makespan variable the largest task end, within [0, horizon] |
| `OrObjective.AuxVars` | pyjobshop/solvers/ortools/Objective.py:40-47 | the auxiliary variables, one per job in job order |
| `OrObjective.Weights` | pyjobshop/solvers/ortools/Objective.py:49-96 | the job weights, in job order |
| `OrObjective.AddJobBlock` | pyjobshop/solvers/ortools/Objective.py:42-94 | one job's auxiliary variable and its records |
| `OrObjective.JobComponentExpr` | pyjobshop/solvers/ortools/Objective.py:35-97 | one auxiliary variable per job and their weighted sum |
| `OrObjective.JobBlockMeaning` | pyjobshop/solvers/ortools/Objective.py:42-94 | a job's auxiliary variable is its unweighted tardiness flag, flow time, tardiness or earliness |
| `OrObjective.MaxZeroHolds` | pyjobshop/solvers/ortools/Objective.py:61 | a satisfied `v == max(0, e)` gives `v` the larger of 0 and `e` |
| `OrObjective.ComponentRecordsMeaning` | pyjobshop/solvers/ortools/Objective.py:35-97 | the weighted sum of the first `n` auxiliary variables is the weighted cost of the first `n` jobs |
| `OrObjective.ComponentMeaning` | pyjobshop/solvers/ortools/Objective.py:35-97 | a satisfying valuation makes a component's expression its weighted value |
| `OrObjective.AuxBounds` | pyjobshop/solvers/ortools/Objective.py:44-60 | `is_tardy` is 0 or 1; the other auxiliary variables lie in [0, horizon] |
| `OrObjective.ObjectiveBuilder.constructor` | pyjobshop/solvers/ortools/Objective.py:18-24 | the builder keeps the model, jobs, horizon and the task and job end variables |
| `OrObjective.ObjectiveBuilder.ObjectiveExpr` | pyjobshop/solvers/ortools/Objective.py:99-126 | the components of positive weight, in source order, appended to the model |
| `OrObjective.ObjectiveBuilder.AddComponent` | pyjobshop/solvers/ortools/Objective.py:105-124 | `if weight > 0: expr += weight * component` |
| `OrObjective.ObjectiveBuilder.SetObjective` | pyjobshop/solvers/ortools/Objective.py:128-133 | the previous objective is replaced by the new expression; its records are appended |
| `OrObjective.WithMakespanMeaning` | pyjobshop/solvers/ortools/Objective.py:105-106 | adding the makespan term adds weight times the largest task end |
| `OrObjective.WithComponentMeaning` | pyjobshop/solvers/ortools/Objective.py:108-124 | adding a component adds its weighted value when the weight is positive, nothing otherwise |
| `OrObjective.ObjectiveMeaning` | pyjobshop/solvers/ortools/Objective.py:99-126 | on a satisfying valuation the minimised expression equals the objective value recomputed from the task and job end times |
| `OrObjective.ZeroWeightsObjective` | pyjobshop/solvers/ortools/Objective.py:99-126 | with no positive weight the objective is the constant 0 and nothing is added |
| `OrCpModel.GetSolveStatus` | pyjobshop/solvers/ortools/CPModel.py:49-62 | each of the four status names maps to its status; every other name means time limit |
| `OrCpModel.FirstSelected` | pyjobshop/solvers/ortools/CPModel.py:79-82 | the mode found is one of the task's modes with a set literal |
| `OrCpModel.FirstSelectedNone` | pyjobshop/solvers/ortools/CPModel.py:79-93 | no mode is found exactly when every literal is 0 |
| `OrCpModel.FirstSelectedIsFirst` | pyjobshop/solvers/ortools/CPModel.py:79-93 | the mode found is the first in list order with a set literal |
| `OrCpModel.Entries` | pyjobshop/solvers/ortools/CPModel.py:71-93 | one entry per task, in task order |
| `OrCpModel.SelectedMode` | pyjobshop/solvers/ortools/CPModel.py:79-93 | the inner loop finds the first selected mode |
| `OrCpModel.ConvertToSolution` | pyjobshop/solvers/ortools/CPModel.py:64-95 | `_convert_to_solution` yields the decoded task list |
| `OrCpModel.ConvertTask` | pyjobshop/solvers/ortools/CPModel.py:72-93 | an absent task gives the placeholder, a present one its first selected mode |
| `OrCpModel.FlattenLength` | pyjobshop/solvers/ortools/CPModel.py:71-95 | at most one item per task, exactly one each when every task is decoded |
| `OrCpModel.FlattenEntry` | pyjobshop/solvers/ortools/CPModel.py:71-95 | with every task decoded, item `t` is task `t`'s |
| `OrCpModel.DecodedLength` | pyjobshop/solvers/ortools/CPModel.py:71-95 | the solution has one entry per task exactly when every present task has a selected mode |
| `OrCpModel.DecodedEntry` | pyjobshop/solvers/ortools/CPModel.py:71-95 | with every present task decoded, entry `t` is task `t`'s |
| `OrCpModel.AbsentDecoded` | pyjobshop/solvers/ortools/CPModel.py:74-77 | an absent task decodes to the placeholder with mode `num_modes` and no resources |
| `OrCpModel.PresentDecoded` | pyjobshop/solvers/ortools/CPModel.py:79-93 | a present task decodes with its first selected mode's resources and the task's start, end, idle and break times |
| `OrCpModel.SelectedTaskDecodes` | pyjobshop/solvers/ortools/CPModel.py:71-93 | on a valuation satisfying the mode-selection records, each task decodes, with the mode it selects |
| `OrCpModel.ModeOfTaskSelected` | pyjobshop/solvers/ortools/CPModel.py:79-82 | a set literal among the task's modes makes the scan find one |
| `OrCpModel.ModelValuationDecodes` | pyjobshop/solvers/ortools/CPModel.py:64-95 | a valuation of the model decodes to exactly one entry per task |
| `OrCpModel.SolveParams` | pyjobshop/solvers/ortools/CPModel.py:131-137 | the time limit, display flag and worker count (0 when not given), overridden by `kwargs` |
| `OrCpModel.SolveResultOf` | pyjobshop/solvers/ortools/CPModel.py:143-159 | the status from its name; a solution and objective exactly for optimal or feasible, otherwise an empty solution |
| `OrCpModel.SolutionIffFeasible` | pyjobshop/solvers/ortools/CPModel.py:143-159 | on a model valuation with a task, a solution exists exactly when the status is optimal or feasible, with one entry per task |
| `OrBuilder.AddResourceConstraints` | pyjobshop/solvers/ortools/Constraints.py:366-377 | the builders before the sequencing ones, in `add_constraints` order |
| `OrBuilder.AddSequencingConstraints` | pyjobshop/solvers/ortools/Constraints.py:378-380 | consecutive, same-sequence, then circuit records; active machines grow accordingly |
| `OrBuilder.AddSelectionConstraints` | pyjobshop/solvers/ortools/Constraints.py:381-382 | the mode-dependency then task-selection records |
| `OrBuilder.Builder.constructor` | pyjobshop/solvers/ortools/Constraints.py:17-22 | the builder keeps its model, data, variables and constraints |
| `OrBuilder.Builder.AddConstraints` | pyjobshop/solvers/ortools/Constraints.py:366-382 | `add_constraints` appends every builder's records in order, the circuits after the sequencing constraints |
| `OrBuilder.SequencedMachinesGetCircuits` | pyjobshop/solvers/ortools/Constraints.py:378-380 | a machine a consecutive or same-sequence constraint touches gets its circuit record |
| `CpoVariables.AllOptionalMeaning` | pyjobshop/solvers/cpoptimizer/Variables.py:65 | `all(...optional...)` is true exactly when every listed task is optional |
| `CpoVariables.JobRecords` | pyjobshop/solvers/cpoptimizer/Variables.py:63-72 | one interval record per job, in creation order |
| `CpoVariables.JobVars` | pyjobshop/solvers/cpoptimizer/Variables.py:63-74 | one variable per job, in job order |
| `CpoVariables.MakeJobVariables` | pyjobshop/solvers/cpoptimizer/Variables.py:56-74 | appends exactly one interval per job and returns them; starting point untouched |
| `CpoVariables.JobVarMeaning` | pyjobshop/solvers/cpoptimizer/Variables.py:63-72 | a job is optional exactly when all its tasks are; a job with a required task is present; a present job starts at or after its release date and ends by min(deadline, MAX_VALUE) |
| `CpoVariables.TaskRecords` | pyjobshop/solvers/cpoptimizer/Variables.py:83-97 | one interval record per task |
| `CpoVariables.TaskVars` | pyjobshop/solvers/cpoptimizer/Variables.py:83-99 | one variable per task, in task order |
| `CpoVariables.MakeTaskVariables` | pyjobshop/solvers/cpoptimizer/Variables.py:76-99 | on success appends one interval per task; a task without modes fails there (`min` of an empty list), after the earlier tasks were added |
| `CpoVariables.AddTaskVar` | pyjobshop/solvers/cpoptimizer/Variables.py:84-97 | one task's interval |
| `CpoVariables.TaskVarMeaning` | pyjobshop/solvers/cpoptimizer/Variables.py:84-97 | a required task is present; a present task lies in its clamped windows with a size at least its shortest mode duration |
| `CpoVariables.ModeRecords` | pyjobshop/solvers/cpoptimizer/Variables.py:108-123 | one optional interval record per mode |
| `CpoVariables.ModeVars` | pyjobshop/solvers/cpoptimizer/Variables.py:108-125 | one variable per mode, in mode order |
| `CpoVariables.MakeModeVariables` | pyjobshop/solvers/cpoptimizer/Variables.py:101-125 | appends exactly one optional interval per mode and returns them |
| `CpoVariables.ModeVarMeaning` | pyjobshop/solvers/cpoptimizer/Variables.py:108-123 | mode variables are optional; a present one lies in its task's windows, is at least the mode's duration long and exactly that long when idle time is not allowed |
| `CpoVariables.SequenceRecords` | pyjobshop/solvers/cpoptimizer/Variables.py:134-144 | one sequence record per machine, in machine order |
| `CpoVariables.SequenceMapContents` | pyjobshop/solvers/cpoptimizer/Variables.py:134-146 | the map has exactly the listed machines as keys, each with its own sequence |
| `CpoVariables.SequenceKeys` | pyjobshop/solvers/cpoptimizer/Variables.py:127-146 | there is a sequence exactly for every machine |
| `CpoVariables.MakeSequenceVariables` | pyjobshop/solvers/cpoptimizer/Variables.py:127-146 | appends exactly the sequence records and returns the machine map |
| `CpoVariables.SequencesNext` | pyjobshop/solvers/cpoptimizer/Variables.py:134-144 | one more machine extends the records and the map by its sequence |
| `CpoVariables.AddSequence` | pyjobshop/solvers/cpoptimizer/Variables.py:135-144 | one machine's sequence |
| `CpoVariables.SequenceAligned` | pyjobshop/solvers/cpoptimizer/Variables.py:135-140 | a machine's sequence lists exactly the mode variables of the modes using it, with each mode's task as its type, position by position |
| `CpoVariables.MakeVariables` | pyjobshop/solvers/cpoptimizer/Variables.py:19-26 | the four makers in order; fails exactly where the task maker fails |
| `CpoVariables.PresentTasks` | pyjobshop/solvers/cpoptimizer/Variables.py:161-162 | the present tasks of the job, in order |
| `CpoVariables.PresentTasksMembers` | pyjobshop/solvers/cpoptimizer/Variables.py:161-162 | exactly the present tasks are kept |
| `CpoVariables.Starts` | pyjobshop/solvers/cpoptimizer/Variables.py:161 | the starts of the listed tasks |
| `CpoVariables.Ends` | pyjobshop/solvers/cpoptimizer/Variables.py:162 | the ends of the listed tasks |
| `CpoVariables.JobHints` | pyjobshop/solvers/cpoptimizer/Variables.py:155-166 | one hint per job |
| `CpoVariables.TaskHints` | pyjobshop/solvers/cpoptimizer/Variables.py:168-178 | one hint per task |
| `CpoVariables.ModeHints` | pyjobshop/solvers/cpoptimizer/Variables.py:180-190 | one hint per mode |
| `CpoVariables.Warmstart` | pyjobshop/solvers/cpoptimizer/Variables.py:148-192 | on success the starting point is the job, task and mode hints in that order; a job with no present task fails (`min` of nothing) and leaves the starting point unchanged |
| `CpoVariables.HintJobs` | pyjobshop/solvers/cpoptimizer/Variables.py:155-166 | the job loop yields the job hints, or the first job with no present task |
| `CpoVariables.HintTasks` | pyjobshop/solvers/cpoptimizer/Variables.py:168-178 | the task loop yields the task hints |
| `CpoVariables.HintModes` | pyjobshop/solvers/cpoptimizer/Variables.py:180-190 | the mode loop yields the mode hints |
| `CpoVariables.JobHintMeaning` | pyjobshop/solvers/cpoptimizer/Variables.py:155-166 | a job's hint exists exactly when one of its tasks is present; it is then present and spans from the earliest present start to the latest present end |
| `CpoVariables.PresentTasksNonEmpty` | pyjobshop/solvers/cpoptimizer/Variables.py:160-162 | some task is present exactly when the present tasks are not empty |
| `CpoVariables.EarliestPresentStart` | pyjobshop/solvers/cpoptimizer/Variables.py:161 | the minimum start over present tasks is one of theirs and at most each |
| `CpoVariables.LatestPresentEnd` | pyjobshop/solvers/cpoptimizer/Variables.py:162 | the maximum end over present tasks is one of theirs and at least each |
| `CpoVariables.ModeHintsMeaning` | pyjobshop/solvers/cpoptimizer/Variables.py:180-190 | a mode's hinted presence is true exactly for the solution's mode of its task; all hints carry the task's times |
| `CpoLog.PresenceExpr` | pyjobshop/solvers/cpoptimizer/utils.py:5-11 | `presence_of` is the solver's presence for an optional variable and the constant 1 otherwise |
| `CpoLog.PresenceMeaning` | pyjobshop/solvers/cpoptimizer/utils.py:5-11 | `presence_of` evaluates to 1 exactly for present variables |
| `CpoConstraints.VarsOfBuilt` | pyjobshop/solvers/cpoptimizer/Variables.py:19-26 | the variables `Variables.__init__` makes have the shape the constraint builders index |
| `CpoConstraints.Presences` | pyjobshop/solvers/cpoptimizer/Constraints.py:165-166 | `presence_of` of each variable, in order |
| `CpoConstraints.PresencesTotal` | pyjobshop/solvers/cpoptimizer/Constraints.py:165-166 | the summed presences count the present variables |
| `CpoConstraints.PresentCountPositive` | pyjobshop/solvers/cpoptimizer/Constraints.py:165-168 | some variable is present exactly when the count is positive |
| `CpoConstraints.PresenceImplies` | pyjobshop/solvers/cpoptimizer/Constraints.py:164-187 | `presence_of(x) <= sum(presence_of(y) ...)`: if `x` is present, one of the others is |
| `CpoConstraints.JobSpansTasks` | pyjobshop/solvers/cpoptimizer/Constraints.py:35-51 | appends exactly one span per job, with a dummy interval for a job whose tasks are all optional |
| `CpoConstraints.AddJobSpan` | pyjobshop/solvers/cpoptimizer/Constraints.py:42-51 | one job's span, and its dummy when needed |
| `CpoConstraints.JobSpanMeaning` | pyjobshop/solvers/cpoptimizer/Constraints.py:35-51 | a satisfied span makes every job present (through the dummy when all its tasks are optional) and keeps every present task within its job |
| `CpoConstraints.SelectOneMode` | pyjobshop/solvers/cpoptimizer/Constraints.py:53-63 | appends exactly one alternative per task over its modes |
| `CpoConstraints.AlternativeMeaning` | pyjobshop/solvers/cpoptimizer/Constraints.py:53-63 | a task is present exactly when one of its modes is; a present mode has the task's start and end; no two modes of a task are present together |
| `CpoConstraints.MachineTasks` | pyjobshop/solvers/cpoptimizer/Constraints.py:87 | the tasks of the machine's modes, in mode order |
| `CpoConstraints.Submatrix` | pyjobshop/solvers/cpoptimizer/Constraints.py:88 | `np.ix_(tasks, tasks)`: a square matrix indexed by position in `tasks` |
| `CpoConstraints.SetupMatrix` | pyjobshop/solvers/utils.py:146-161 | the machine's whole task-by-task matrix |
| `CpoConstraints.SubmatrixMisindexed` | pyjobshop/solvers/cpoptimizer/Constraints.py:84-93 | as written, tasks `[1, 0]` with one setup time of 5 from task 1 to task 0 on machine 0: the matrix is passed, but the distance the solver reads from position 0 (type 1) to position 1 (type 0) is the slice's cell [1][0], which is 0, while the setup time from task 1 to task 0 is 5 |
| `CpoConstraints.SubmatrixTooSmall` | pyjobshop/solvers/cpoptimizer/Constraints.py:84-93 | as written, tasks `[1, 2]` give a 2 x 2 matrix that task index 2 cannot index |
| `CpoConstraints.MachineDistance` | pyjobshop/solvers/cpoptimizer/Constraints.py:65-93 | corrected matrix: the distance between two positions of the machine's sequence is the setup time between their tasks, and the task types index it |
| `CpoConstraints.MachineTasksIn` | pyjobshop/solvers/cpoptimizer/Constraints.py:87 | the machine's tasks are tasks of the data |
| `CpoConstraints.NoMatrixDistance` | pyjobshop/solvers/cpoptimizer/Constraints.py:89-91 | without a matrix every setup time between the machine's tasks is zero |
| `CpoConstraints.MatrixDistance` | pyjobshop/solvers/cpoptimizer/Constraints.py:84-89 | with the corrected matrix its entries are the setup times |
| `CpoConstraints.MachinesNoOverlap` | pyjobshop/solvers/cpoptimizer/Constraints.py:65-93 | one no-overlap per machine with modes, skipping the others, with the matrix indexed by task |
| `CpoConstraints.NoOverlapMeaning` | pyjobshop/solvers/cpoptimizer/Constraints.py:65-93 | two distinct present modes on a machine do not overlap, and the setup time between their tasks separates them |
| `CpoConstraints.NoOverlapPair` | pyjobshop/solvers/cpoptimizer/Constraints.py:93 | a satisfied no-overlap keeps two present intervals of its sequence apart by the matrix distance |
| `CpoConstraints.NoOverlapHoldsAt` | pyjobshop/solvers/cpoptimizer/Constraints.py:74-93 | a satisfied log satisfies each machine's no-overlap over the sequence the variables made |
| `CpoConstraints.PositivePulsesLoad` | pyjobshop/solvers/cpoptimizer/Constraints.py:106-110 | dropping pulses without positive demand never lowers the load, and keeps it when no demand is negative |
| `CpoConstraints.PulseLoadSnoc` | pyjobshop/solvers/cpoptimizer/Constraints.py:106-111 | one more pulse adds its height exactly when its interval covers `t` |
| `CpoConstraints.RenewableCapacity` | pyjobshop/solvers/cpoptimizer/Constraints.py:95-111 | one pulse-sum record per renewable resource |
| `CpoConstraints.RenewableMeaning` | pyjobshop/solvers/cpoptimizer/Constraints.py:95-111 | at every time, the demands of the present modes running then fit the capacity |
| `CpoConstraints.UsageExprs` | pyjobshop/solvers/cpoptimizer/Constraints.py:124-127 | `presence_of(mode_var) * demand` per mode |
| `CpoConstraints.UsageTotal` | pyjobshop/solvers/cpoptimizer/Constraints.py:124-128 | the usage sum is the present modes' demand |
| `CpoConstraints.NonRenewableCapacity` | pyjobshop/solvers/cpoptimizer/Constraints.py:113-128 | one usage-sum record per non-renewable resource |
| `CpoConstraints.NonRenewableMeaning` | pyjobshop/solvers/cpoptimizer/Constraints.py:113-128 | the present modes' demands on a non-renewable resource fit its capacity |
| `CpoConstraints.TimingRecords` | pyjobshop/solvers/cpoptimizer/Constraints.py:136-154 | one record per constraint of a list |
| `CpoConstraints.AddTimings` | pyjobshop/solvers/cpoptimizer/Constraints.py:136-154 | one list's loop |
| `CpoConstraints.TimingConstraints` | pyjobshop/solvers/cpoptimizer/Constraints.py:130-154 | the four lists in source order |
| `CpoConstraints.TimingMeaning` | pyjobshop/solvers/cpoptimizer/Constraints.py:136-154 | between two present tasks the chosen points keep the delay |
| `CpoConstraints.AllTimingsSatisfied` | pyjobshop/solvers/cpoptimizer/Constraints.py:130-154 | a satisfied timing log satisfies each of its four lists |
| `CpoConstraints.MatchModes` | pyjobshop/solvers/cpoptimizer/Constraints.py:163-171 | the `identical_modes` or `different_modes` rows, all indices in range |
| `CpoConstraints.MatchRowOf` | pyjobshop/solvers/cpoptimizer/Constraints.py:163-171 | every mode of the first task heads a row |
| `CpoConstraints.MatchRowMember` | pyjobshop/solvers/cpoptimizer/Constraints.py:163-171 | a row lists modes of the second task whose resources match the row's mode |
| `CpoConstraints.MatchRecords` | pyjobshop/solvers/cpoptimizer/Constraints.py:163-168 | one record per row |
| `CpoConstraints.PairRows` | pyjobshop/solvers/cpoptimizer/Constraints.py:162-176 | the rows for each task pair |
| `CpoConstraints.AddMatchRows` | pyjobshop/solvers/cpoptimizer/Constraints.py:163-168 | the inner loop |
| `CpoConstraints.AddMatchPairs` | pyjobshop/solvers/cpoptimizer/Constraints.py:162-176 | the loop over one list of pairs |
| `CpoConstraints.IdenticalAndDifferent` | pyjobshop/solvers/cpoptimizer/Constraints.py:156-176 | identical rows then different rows |
| `CpoConstraints.MatchMeaning` | pyjobshop/solvers/cpoptimizer/Constraints.py:156-176 | a present mode of the first task has a present matching mode of the second |
| `CpoConstraints.TaskVarsAt` | pyjobshop/solvers/cpoptimizer/Constraints.py:186 | the task variables of the listed tasks |
| `CpoConstraints.IfThenRecords` | pyjobshop/solvers/cpoptimizer/Constraints.py:184-187 | one record per if-then constraint |
| `CpoConstraints.IfThenConstraints` | pyjobshop/solvers/cpoptimizer/Constraints.py:178-187 | appends exactly those records |
| `CpoConstraints.IfThenMeaning` | pyjobshop/solvers/cpoptimizer/Constraints.py:184-187 | if the first task is present, one of the listed tasks is |
| `CpoConstraints.ModesOfTask` | pyjobshop/solvers/cpoptimizer/Constraints.py:200-201 | the modes among the list that belong to the task |
| `CpoConstraints.ModesOfTaskComplete` | pyjobshop/solvers/cpoptimizer/Constraints.py:200-201 | every listed mode of the task is kept |
| `CpoConstraints.MachineModesOf` | pyjobshop/solvers/cpoptimizer/Constraints.py:197-201 | the modes of the task on the machine |
| `CpoConstraints.MachineModesComplete` | pyjobshop/solvers/cpoptimizer/Constraints.py:197-201 | every mode of the task on the machine is kept |
| `CpoConstraints.PreviousRow` | pyjobshop/solvers/cpoptimizer/Constraints.py:205-207 | one `previous` record per second mode |
| `CpoConstraints.PreviousRowsContain` | pyjobshop/solvers/cpoptimizer/Constraints.py:205-207 | every pair of the product has its `previous` record |
| `CpoConstraints.PreviousRowsOnly` | pyjobshop/solvers/cpoptimizer/Constraints.py:205-207 | and no other record is produced |
| `CpoConstraints.AddPreviousRow` | pyjobshop/solvers/cpoptimizer/Constraints.py:205-207 | the inner loop |
| `CpoConstraints.AddConsecutive` | pyjobshop/solvers/cpoptimizer/Constraints.py:196-207 | skipped unless both tasks have a mode on the machine, else the product |
| `CpoConstraints.AddProduct` | pyjobshop/solvers/cpoptimizer/Constraints.py:205-207 | the product loop |
| `CpoConstraints.ConsecutiveConstraints` | pyjobshop/solvers/cpoptimizer/Constraints.py:189-207 | appends exactly the `previous` records of every constraint |
| `CpoConstraints.ConsecutiveLinks` | pyjobshop/solvers/cpoptimizer/Constraints.py:189-207 | every mode of the first task and every mode of the second on the machine are linked by a `previous` record |
| `CpoConstraints.ConsecutiveOnly` | pyjobshop/solvers/cpoptimizer/Constraints.py:189-207 | every record links a mode of the first task to a mode of the second, both on the machine |
| `CpoConstraints.AddConstraints` | pyjobshop/solvers/cpoptimizer/Constraints.py:209-221 | the nine builders in order; only the job spans allocate (their dummies) |
| `CpoObjective.EndExprs` | pyjobshop/solvers/cpoptimizer/Objective.py:29 | one `end_of` per variable |
| `CpoObjective.Ends` | pyjobshop/solvers/cpoptimizer/Objective.py:29 | one end per variable, 0 for an absent one (CP Optimizer's default for `end_of`) |
| `CpoObjective.MakespanExpr` | pyjobshop/solvers/cpoptimizer/Objective.py:25-29 | fails exactly when there are no task variables (`max` of an empty generator) |
| `CpoObjective.MakespanMeaning` | pyjobshop/solvers/cpoptimizer/Objective.py:25-29 | the makespan expression evaluates to the largest task end |
| `CpoObjective.JobTerms` | pyjobshop/solvers/cpoptimizer/Objective.py:31-81 | one weighted term per job |
| `CpoObjective.JobTermMeaning` | pyjobshop/solvers/cpoptimizer/Objective.py:38-79 | each job term evaluates to the job's weight times its tardy flag, flow time, tardiness or earliness at its end |
| `CpoObjective.JobTermsMeaning` | pyjobshop/solvers/cpoptimizer/Objective.py:31-81 | the job terms sum to the component's value at the job ends |
| `CpoObjective.ComponentMeaning` | pyjobshop/solvers/cpoptimizer/Objective.py:31-81 | each component expression evaluates to the component's value |
| `CpoObjective.ObjectiveExpr` | pyjobshop/solvers/cpoptimizer/Objective.py:83-110 | fails exactly when the makespan has positive weight and there are no tasks |
| `CpoObjective.WithTermMeaning` | pyjobshop/solvers/cpoptimizer/Objective.py:89-108 | `expr += w * term` adds the weighted term exactly when the weight is positive |
| `CpoObjective.ObjectiveMeaning` | pyjobshop/solvers/cpoptimizer/Objective.py:83-110 | the minimised expression evaluates to the weighted objective of the task and job ends |
| `CpoObjective.ZeroWeightsObjective` | pyjobshop/solvers/cpoptimizer/Objective.py:87-110 | with no positive weight the expression is the constant 0 |
| `CpoObjective.MinimizeCountAppend` | pyjobshop/solvers/cpoptimizer/Objective.py:112-121 | counting `minimize` records distributes over appends |
| `CpoObjective.MinimizeCountRemove` | pyjobshop/solvers/cpoptimizer/Objective.py:116-117 | `model.remove` of the recorded objective takes one `minimize` off the log |
| `CpoObjective.ObjectiveBuilder.constructor` | pyjobshop/solvers/cpoptimizer/Objective.py:15-23 | keeps the model and variables, with no current objective |
| `CpoObjective.ObjectiveBuilder.Build` | pyjobshop/solvers/cpoptimizer/Objective.py:112-121 | the log afterwards is the old one without the recorded objective, plus the new `minimize`, which becomes the recorded one; the log keeps at most one `minimize` |
| `CpoCpModel.GetSolveStatus` | pyjobshop/solvers/cpoptimizer/CPModel.py:50-60 | each of the three names gives its status and every other name gives `TIME_LIMIT` |
| `CpoCpModel.ParseIndices` | pyjobshop/solvers/cpoptimizer/CPModel.py:74 | succeeds exactly when the rest splits on `_` into two integer literals |
| `CpoCpModel.ParseModeName` | pyjobshop/solvers/cpoptimizer/CPModel.py:73-74 | the name `M{mode}_{task}` given to a mode variable parses back to its indices |
| `CpoCpModel.OtherNames` | pyjobshop/solvers/cpoptimizer/CPModel.py:73 | job and task variable names do not start with `M` |
| `CpoCpModel.Entry` | pyjobshop/solvers/cpoptimizer/CPModel.py:75-86 | a decoded entry has the mode's resources, the variable's start and end, overlap length minus size and idle size minus duration |
| `CpoCpModel.Assemble` | pyjobshop/solvers/cpoptimizer/CPModel.py:88-94 | one entry per task |
| `CpoCpModel.Convert` | pyjobshop/solvers/cpoptimizer/CPModel.py:62-94 | a solution has one entry per task |
| `CpoCpModel.DecodeMapError` | pyjobshop/solvers/cpoptimizer/CPModel.py:69-86 | decoding fails exactly when a present `M` variable's name or indices are bad, with the first such error |
| `CpoCpModel.DecodeMapFailed` | pyjobshop/solvers/cpoptimizer/CPModel.py:69-86 | an error stops the loop |
| `CpoCpModel.DecodeMapKeys` | pyjobshop/solvers/cpoptimizer/CPModel.py:69-86 | a task has an entry exactly when a present mode variable names it |
| `CpoCpModel.DecodeMapValue` | pyjobshop/solvers/cpoptimizer/CPModel.py:78 | a later variable naming the task overwrites an earlier one |
| `CpoCpModel.ConvertEntry` | pyjobshop/solvers/cpoptimizer/CPModel.py:62-94 | each task carries the last entry naming it, or the placeholder `TaskData(num_modes, [], 0, 0, 0, 0, False)` |
| `CpoCpModel.LastNaming` | pyjobshop/solvers/cpoptimizer/CPModel.py:69-86 | picks the last variable naming a task |
| `CpoCpModel.DecodeTasks` | pyjobshop/solvers/cpoptimizer/CPModel.py:69-86 | the first loop computes the decoded map |
| `CpoCpModel.FillAbsent` | pyjobshop/solvers/cpoptimizer/CPModel.py:88-92 | the second loop keeps the decoded entries and adds the placeholder for every other task index |
| `CpoCpModel.ConvertToSolution` | pyjobshop/solvers/cpoptimizer/CPModel.py:62-94 | the loops compute `Convert` |
| `CpoCpModel.ModeSolutions` | pyjobshop/solvers/cpoptimizer/CPModel.py:69-74 | one solution per mode variable |
| `CpoCpModel.ModeSolutionNames` | pyjobshop/solvers/cpoptimizer/CPModel.py:73-74 | a mode variable's solution names a task exactly when it is present and its mode belongs to that task |
| `CpoCpModel.ModeSolutionEntry` | pyjobshop/solvers/cpoptimizer/CPModel.py:75-86 | the entry a present mode variable decodes to |
| `CpoCpModel.ModelValuationOk` | pyjobshop/solvers/cpoptimizer/CPModel.py:62-94 | decoding the variables of a model built from the data never fails |
| `CpoCpModel.ModelAbsentTask` | pyjobshop/solvers/cpoptimizer/CPModel.py:88-92 | a task with no present mode variable decodes to the placeholder |
| `CpoCpModel.ModelPresentTask` | pyjobshop/solvers/cpoptimizer/CPModel.py:72-86 | a task with a present mode decodes with its last present mode |
| `CpoCpModel.LaterModesAbsent` | pyjobshop/solvers/cpoptimizer/CPModel.py:69-86 | no later mode of the task is present |
| `CpoCpModel.ModelValuationDecodes` | pyjobshop/solvers/cpoptimizer/CPModel.py:62-94 | a task is decoded as scheduled exactly when one of its mode variables is present |
| `CpoCpModel.SolveParams` | pyjobshop/solvers/cpoptimizer/CPModel.py:130-135 | the three defaults, with `kwargs` overriding them |
| `CpoCpModel.SolveResultOf` | pyjobshop/solvers/cpoptimizer/CPModel.py:137-156 | with `Optimal` or `Feasible`, the decoded solution and the objective; otherwise an empty solution |
| `CpoCpModel.SolutionIffFeasible` | pyjobshop/solvers/cpoptimizer/CPModel.py:140-156 | on a model's valuation the result has a solution exactly when the status is optimal or feasible, with one entry per task |
| `CpModelPlus.PresenceOf` | cpmodel/CpModelPlus.py:128-161 | fails (`NotImplementedError`) exactly on several enforcement literals; otherwise a literal (true constant, the literal, or its negation) that holds exactly when the interval is present |
| `CpModelPlus.Presences` | cpmodel/CpModelPlus.py:615 | `presence_of` of each interval, failing exactly when one of them has several literals |
| `CpModelPlus.AddTiming` | cpmodel/CpModelPlus.py:166-396 | the eight timing methods: fails, leaving the log unchanged, when a presence cannot be taken; otherwise appends one timing record |
| `CpModelPlus.TimingMeaning` | cpmodel/CpModelPlus.py:166-396 | the record holds exactly when, with both intervals present, the second point equals (`at`) or is not before (`before`) the first plus the delay |
| `CpModelPlus.AddAllEqual` | cpmodel/CpModelPlus.py:113-126 | one equality per consecutive pair |
| `CpModelPlus.AllEqualMeaning` | cpmodel/CpModelPlus.py:113-126 | the equalities hold exactly when every expression equals the first |
| `CpModelPlus.AddIfThenElse` | cpmodel/CpModelPlus.py:1098-1123 | `then` enforced on all conditions, `else` on the negation of each |
| `CpModelPlus.ElseMeaning` | cpmodel/CpModelPlus.py:1121-1123 | the else records hold exactly when `else` holds once some condition fails |
| `CpModelPlus.IfThenElseMeaning` | cpmodel/CpModelPlus.py:1098-1123 | on 0/1 conditions: `then` if all hold, `else` otherwise |
| `CpModelPlus.NewConditionalVar` | cpmodel/CpModelPlus.py:1058-1096 | one fresh variable in [-2**53, 2**53] and its conditional records |
| `CpModelPlus.ConditionalMeaning` | cpmodel/CpModelPlus.py:1058-1096 | the variable equals `x` when all conditions hold and the absent value, when given, otherwise |
| `CpModelPlus.AddSpan` | cpmodel/CpModelPlus.py:587-651 | `ValueError` on no candidates and the `presence_of` failure leave the model unchanged; otherwise the shortcut or the general formulation, with 0 or 2n + 2 new variables |
| `CpModelPlus.AddSpanRecords` | cpmodel/CpModelPlus.py:614-651 | the records after the checks |
| `CpModelPlus.AddCount` | cpmodel/CpModelPlus.py:626-628 | the two counting records |
| `CpModelPlus.AddGeneral` | cpmodel/CpModelPlus.py:626-651 | the counting records, then the start half, then the end half |
| `CpModelPlus.AddSide` | cpmodel/CpModelPlus.py:631-651 | one half: the main conditional variable, one per candidate, and the minimum (maximum) |
| `CpModelPlus.AddCondBlock` | cpmodel/CpModelPlus.py:633-649 | one candidate's conditional variable with absent value plus or minus `MAX_VALUE` |
| `CpModelPlus.CondBlockMeaning` | cpmodel/CpModelPlus.py:633-649 | the candidate's variable is its point when present and the absent value when not |
| `CpModelPlus.CountMeaning` | cpmodel/CpModelPlus.py:626-628 | the counting records hold exactly when the main literal holds iff some candidate literal does |
| `CpModelPlus.SideMeaning` | cpmodel/CpModelPlus.py:640-651 | a present main point is the earliest start (latest end) of the present candidates, and equals one of them |
| `CpModelPlus.ShortcutPoints` | cpmodel/CpModelPlus.py:619-624 | with all intervals always present the main start is the minimum start and its end the maximum end |
| `CpModelPlus.SpanPresence` | cpmodel/CpModelPlus.py:591-594 | under `add_span`'s records the main interval is present exactly when some candidate is |
| `CpModelPlus.SpanPoints` | cpmodel/CpModelPlus.py:591-594 | a present main interval spans from the earliest start to the latest end of the present candidates |
| `CpModelPlus.AddSameTimes` | cpmodel/CpModelPlus.py:684-721 | the three equalities of start, size and end under the enforcement literals |
| `CpModelPlus.SameTimesMeaning` | cpmodel/CpModelPlus.py:684-721 | they hold exactly when the enforcement literals force alignment |
| `CpModelPlus.AlternativeError` | cpmodel/CpModelPlus.py:680-681 | `add_alternative` fails exactly when some interval has several literals |
| `CpModelPlus.AddAlternative` | cpmodel/CpModelPlus.py:653-690 | fails leaving the log unchanged, else the cardinality record and three equalities per candidate |
| `CpModelPlus.CountPresences` | cpmodel/CpModelPlus.py:680-681 | the summed presences count the present candidates |
| `CpModelPlus.CardinalityMeaning` | cpmodel/CpModelPlus.py:681 | `cardinality * presence(main) == sum(presences)` as a count |
| `CpModelPlus.AlternativeBlock` | cpmodel/CpModelPlus.py:684-690 | a present candidate shares start, size and end with the main interval |
| `CpModelPlus.AlternativeMeaning` | cpmodel/CpModelPlus.py:653-690 | the records hold exactly when the count matches and every present candidate is aligned |
| `CpModelPlus.AlternativePresence` | cpmodel/CpModelPlus.py:662-667 | with cardinality at least one: main present iff some candidate is, and then exactly `cardinality` are |
| `CpModelPlus.SyncReach` | cpmodel/CpModelPlus.py:710-714 | how far the loop gets before `presence_of` raises |
| `CpModelPlus.AddSynchronize` | cpmodel/CpModelPlus.py:692-721 | fails exactly when `presence_of` does, with the candidates handled before it keeping their records |
| `CpModelPlus.SyncBlock` | cpmodel/CpModelPlus.py:710-721 | one candidate's equalities hold exactly when, both present, it is aligned with the main interval |
| `CpModelPlus.SyncMeaning` | cpmodel/CpModelPlus.py:698-701 | the records hold exactly when every handled candidate present with the main interval is aligned with it |
| `CpModelPlusVars.NewProductVar` | cpmodel/CpModelPlus.py:754-804 | fails, leaving the model unchanged, exactly when an integer factor's domain is empty (`domain[0]` of an empty list); otherwise one fresh variable and the Boolean, integer or mixed product records |
| `CpModelPlusVars.CornerBounds` | cpmodel/CpModelPlus.py:784-786 | a product of values in two ranges lies between the smallest and largest corner product |
| `CpModelPlusVars.BoolProduct` | cpmodel/CpModelPlus.py:775-779 | the three Boolean records hold exactly when the new variable is the product |
| `CpModelPlusVars.ProductBounds` | cpmodel/CpModelPlus.py:784-792 | the clamped corner bounds exclude exactly the products beyond plus or minus `MAX_VALUE` |
| `CpModelPlusVars.IntProduct` | cpmodel/CpModelPlus.py:781-793 | the records hold exactly when the variable is the product and within plus or minus `MAX_VALUE` |
| `CpModelPlusVars.MixedProduct` | cpmodel/CpModelPlus.py:798-803 | the two enforced equalities hold exactly when the variable is the product |
| `CpModelPlusVars.ProductMeaning` | cpmodel/CpModelPlus.py:754-804 | in every case the records hold exactly when the new variable is the product of the factors |
| `CpModelPlusVars.NewMaxVar` | cpmodel/CpModelPlus.py:806-813 | one fresh variable in plus or minus `MAX_VALUE` and a maximum record |
| `CpModelPlusVars.NewMinVar` | cpmodel/CpModelPlus.py:815-822 | the same with a minimum record |
| `CpModelPlusVars.ExtremeUnique` | cpmodel/CpModelPlus.py:806-822 | the maximum (minimum) is the attained value bounding all others |
| `CpModelPlusVars.ExtremeMeaning` | cpmodel/CpModelPlus.py:806-822 | the records hold exactly when the expressions are not empty and the variable is their maximum (minimum) within the bounds |
| `CpModelPlusVars.ValueSet` | cpmodel/CpModelPlus.py:854 | `Domain.from_values` is the set of the listed values |
| `CpModelPlusVars.AddStepCase` | cpmodel/CpModelPlus.py:857-860 | one step's two enforced records |
| `CpModelPlusVars.NewStepVar` | cpmodel/CpModelPlus.py:824-863 | `ValueError` exactly on a length mismatch, leaving the model unchanged; otherwise the step variable, its selectors and their records |
| `CpModelPlusVars.StepCaseMeaning` | cpmodel/CpModelPlus.py:857-860 | a selected step puts `x` in its domain and `y` at its value |
| `CpModelPlusVars.StepSound` | cpmodel/CpModelPlus.py:832-835 | under the records `x` is in some domain and `y` has that domain's value |
| `CpModelPlusVars.StepComplete` | cpmodel/CpModelPlus.py:832-835 | conversely, `x` in domain `k` with `y` at its value satisfies the records |
| `CpModelPlusVars.CheckConvex` | cpmodel/CpModelPlus.py:937-939 | succeeds exactly when the rates are non-decreasing |
| `CpModelPlusVars.Intercepts` | cpmodel/CpModelPlus.py:942-946 | one intercept per segment |
| `CpModelPlusVars.ComputeIntercepts` | cpmodel/CpModelPlus.py:942-946 | the loop computes the intercepts |
| `CpModelPlusVars.InterceptFormula` | cpmodel/CpModelPlus.py:941-946 | each segment passes through its breakpoint at the function's value there |
| `CpModelPlusVars.SegmentFormula` | cpmodel/CpModelPlus.py:948-953 | segment `i` is the line through breakpoint `i` with slope `rates[i]` |
| `CpModelPlusVars.FirstSegment` | cpmodel/CpModelPlus.py:942 | segment 0 takes the initial value at the first breakpoint |
| `CpModelPlusVars.Continuity` | cpmodel/CpModelPlus.py:941-946 | consecutive segments meet at the breakpoint between them |
| `CpModelPlusVars.SegmentStep` | cpmodel/CpModelPlus.py:945 | the difference of consecutive segments changes sign at their breakpoint |
| `CpModelPlusVars.EarlierBelow` | cpmodel/CpModelPlus.py:956-958 | on piece `i` every earlier segment is below segment `i` |
| `CpModelPlusVars.LaterBelow` | cpmodel/CpModelPlus.py:956-958 | and every later one |
| `CpModelPlusVars.PieceMaximal` | cpmodel/CpModelPlus.py:956-958 | convexity: on its piece a segment is the highest |
| `CpModelPlusVars.PieceExists` | cpmodel/CpModelPlus.py:956-958 | every value lies on some piece |
| `CpModelPlusVars.AddSegment` | cpmodel/CpModelPlus.py:951-954 | one segment variable and its equality |
| `CpModelPlusVars.NewConvexPwlVar` | cpmodel/CpModelPlus.py:865-958 | fails, leaving the model unchanged, on a length mismatch, on decreasing rates or on empty lists; otherwise one variable per segment and their maximum |
| `CpModelPlusVars.PwlMeaning` | cpmodel/CpModelPlus.py:872-881 | with sorted breakpoints the result takes the piecewise-linear value: on piece `i` the value at breakpoint `i` plus `rates[i]` times the distance |
| `Hakank.AddReify` | cpmodel/hakank.py:36-37 | the two enforced records tying one indicator to its comparison |
| `Hakank.AddIndicators` | cpmodel/hakank.py:33-37 | one Boolean per entry, then the records tying each to its entry |
| `Hakank.ReifyMeaning` | cpmodel/hakank.py:36-37 | one indicator's records hold exactly when it is 1 iff its comparison holds |
| `Hakank.IndicatorsMeaning` | cpmodel/hakank.py:33-37 | the indicator records hold exactly when every indicator is 1 when its comparison holds and 0 otherwise |
| `Hakank.Occurrences` | cpmodel/hakank.py:19-20 | the number of entries equal to the value, at most the length |
| `Hakank.NewCountVar` | cpmodel/hakank.py:14-40 | the count variable, its indicators and their records |
| `Hakank.IndicatorCount` | cpmodel/hakank.py:39 | on correct indicators their sum is the number of occurrences |
| `Hakank.CountMeaning` | cpmodel/hakank.py:14-40 | the records hold exactly when the count variable is the number of occurrences, which lies in [0, len(array)] |
| `Hakank.AtMost` | cpmodel/hakank.py:43-59 | a count and `count <= n` |
| `Hakank.AtLeast` | cpmodel/hakank.py:62-78 | a count and `count >= n` |
| `Hakank.Exactly` | cpmodel/hakank.py:81-97 | a count and `count == n` |
| `Hakank.BoundMeaning` | cpmodel/hakank.py:43-97 | the records hold exactly when the occurrences are at most, at least or exactly `n` |
| `Hakank.AddPair` | cpmodel/hakank.py:124-127 | one pair variable and its three records |
| `Hakank.AddRow` | cpmodel/hakank.py:122-127 | one pair per `j < i` |
| `Hakank.AllDifferentExcept0` | cpmodel/hakank.py:100-127 | the flags, then the pairs in loop order |
| `Hakank.PairRecords` | cpmodel/hakank.py:124-127 | a pair's records, read one by one |
| `Hakank.PairMeaning` | cpmodel/hakank.py:123-127 | on correct flags a pair holds exactly when both flagged entries differ |
| `Hakank.PairsMetAll` | cpmodel/hakank.py:121-127 | all pairs met exactly when every pair variable is right and non-zero entries are distinct |
| `Hakank.DistinctMeaning` | cpmodel/hakank.py:100-127 | the records hold exactly when any two non-zero entries differ, with flags and pair variables right |
| `Hakank.ScalarProduct` | cpmodel/hakank.py:130-155 | fails unchanged when `s`'s domain is not two bounds (the tuple unpacking), fails part-way when `y` is shorter than `x`, otherwise the terms, products and sum |
| `Hakank.TermsTotal` | cpmodel/hakank.py:152-155 | terms holding the products sum to the scalar product |
| `Hakank.ScalarMeaning` | cpmodel/hakank.py:130-155 | the records hold exactly when `s` is the scalar product with every product in `s`'s bounds |
| `Hakank.AddGccStep` | cpmodel/hakank.py:256-257 | one count and its equality |
| `Hakank.GlobalCardinality` | cpmodel/hakank.py:234-257 | the length assertion leaves the model unchanged; otherwise one count per value |
| `Hakank.GccStepMeaning` | cpmodel/hakank.py:256-257 | one step holds exactly when `gcc[i]` is that value's count |
| `Hakank.GccAfterSound` | cpmodel/hakank.py:255-257 | satisfied counts are right |
| `Hakank.GccAfterComplete` | cpmodel/hakank.py:255-257 | right counts satisfy the records |
| `Hakank.GccMeaning` | cpmodel/hakank.py:234-257 | the records hold exactly when every `gcc[i]` is the number of entries equal to `domain[i]` |
| `HakankCumulative.ReifyCmpMeaning` | cpmodel/hakank.py:207-215 | a reified comparison's Boolean is 1 exactly when the comparison holds |
| `HakankCumulative.ReifyAndMeaning` | cpmodel/hakank.py:217-220 | on 0/1 variables a reified conjunction is the conjunction |
| `HakankCumulative.AddReifyCmp` | cpmodel/hakank.py:207-215 | one Boolean and its two records |
| `HakankCumulative.AddReifyAnd` | cpmodel/hakank.py:217-220 | one Boolean and its two records |
| `HakankCumulative.TaskList` | cpmodel/hakank.py:195 | the jobs with positive demand and duration, in increasing order, failing exactly when `r` or `d` is read out of range |
| `HakankCumulative.Lows` | cpmodel/hakank.py:198 | the lower start bounds of the tasks |
| `HakankCumulative.Highs` | cpmodel/hakank.py:199 | the upper start bounds of the tasks |
| `HakankCumulative.MakePlan` | cpmodel/hakank.py:193-202 | the task list and bounds once the inputs read without error |
| `HakankCumulative.PlanLowest` | cpmodel/hakank.py:201 | `times_min` is the least lower start bound |
| `HakankCumulative.PlanHighest` | cpmodel/hakank.py:202 | `times_max` is the greatest upper start bound |
| `HakankCumulative.AddTaskBlock` | cpmodel/hakank.py:207-225 | four variables and their records per task and time |
| `HakankCumulative.AddTimeStep` | cpmodel/hakank.py:205-227 | the blocks of one time point and its capacity record |
| `HakankCumulative.AddTimes` | cpmodel/hakank.py:204-227 | one step per time from `times_min` to `times_max` |
| `HakankCumulative.BuildCumulative` | cpmodel/hakank.py:193-231 | the time loop and the limit on a variable capacity |
| `HakankCumulative.MyCumulative` | cpmodel/hakank.py:158-231 | on an error (empty `r`, an index out of range, no task) the model is unchanged; otherwise the whole decomposition |
| `HakankCumulative.TaskBlockMeaning` | cpmodel/hakank.py:207-225 | a block holds exactly when `b4` is `r[i]` if the task runs at `t` and 0 otherwise |
| `HakankCumulative.DemandAll` | cpmodel/hakank.py:195-227 | over the task list the demand is the load of all jobs |
| `HakankCumulative.LoadSumValue` | cpmodel/hakank.py:227 | `sum(bb)` is the demand of the running tasks |
| `HakankCumulative.TimeStepMeaning` | cpmodel/hakank.py:205-227 | a time point holds exactly when its blocks are right and the running demand fits the capacity |
| `HakankCumulative.TimesAfterMeaning` | cpmodel/hakank.py:204-227 | the time points hold exactly when each is met |
| `HakankCumulative.StepsSplit` | cpmodel/hakank.py:204-227 | every time point met iff every block right and the demand fits at every time |
| `HakankCumulative.PlanDemand` | cpmodel/hakank.py:193-227 | over the planned tasks the demand is the load of every job |
| `HakankCumulative.CumulativeMeaning` | cpmodel/hakank.py:166-231 | the log holds exactly when every block is right, the load of all jobs fits the capacity at every time from `times_min` to `times_max`, and a variable capacity is at most `sum(r)` |
| `ParsePatterson.ReadInt` | pyjobshop/parse/project/parse_patterson.py:39 | `int(next(values))`: the next token as an integer, one token further |
| `ParsePatterson.ReadInts` | pyjobshop/parse/project/parse_patterson.py:40-42 | `k` integers from consecutive tokens |
| `ParsePatterson.ZeroBased` | pyjobshop/parse/project/parse_patterson.py:42 | each successor number minus one |
| `ParsePatterson.Renewables` | pyjobshop/parse/project/parse_patterson.py:30 | one renewable resource per capacity |
| `ParsePatterson.ReadIntList` | pyjobshop/parse/project/parse_patterson.py:40-42 | the comprehension's loop computes `ReadInts` |
| `ParsePatterson.ReadOneActivity` | pyjobshop/parse/project/parse_patterson.py:39-43 | one pass of the activity loop |
| `ParsePatterson.ParsePattersonLines` | pyjobshop/parse/project/parse_patterson.py:24-46 | the loops compute the parse |
| `ParsePatterson.PattersonShape` | pyjobshop/parse/project/parse_patterson.py:26-46 | renewable resources from the capacity line, one single-mode activity per declared activity with one demand per resource, and one project of all activities |
| `ParsePatterson.ActivitiesShape` | pyjobshop/parse/project/parse_patterson.py:38-43 | `k` activities, each with one mode of one demand per resource |
| `ParsePatterson.ReadRendered` | pyjobshop/parse/project/parse_patterson.py:35-40 | reading rendered numbers gives them back |
| `ParsePatterson.ReadListed` | pyjobshop/parse/project/parse_patterson.py:39-43 | reading an activity's tokens gives the activity with 0-based successors |
| `ParsePatterson.ReadStream` | pyjobshop/parse/project/parse_patterson.py:35-43 | reading the token stream of listed activities, however split into lines, gives them all |
| `ParsePatterson.ValuesOfLines` | pyjobshop/parse/project/parse_patterson.py:35 | the tokens of the lines are the blocks' tokens in order |
| `ParsePatterson.LinesStripped` | pyjobshop/parse/project/parse_patterson.py:24 | lines of non-empty blocks survive stripping and the blank-line filter unchanged |
| `ParsePatterson.HeaderOfLines` | pyjobshop/parse/project/parse_patterson.py:26 | the first line is read as the header |
| `ParsePatterson.CapacitiesOfLines` | pyjobshop/parse/project/parse_patterson.py:29 | the second line as the capacities |
| `ParsePatterson.FormatHead` | pyjobshop/parse/project/parse_patterson.py:26-29 | a formatted file's header and capacity lines |
| `ParsePatterson.PattersonRoundTrip` | pyjobshop/parse/project/parse_patterson.py:7-46 | parsing a formatted instance gives back its capacities as renewable resources, its activities with 0-based successors, and one project |
| `ParsePsplib.FindFrom` | pyjobshop/parse/project/parse_psplib.py:8-13 | the first line containing the pattern, or `ValueError` when none does |
| `ParsePsplib.FindLine` | pyjobshop/parse/project/parse_psplib.py:8-13 | `_find`'s loop computes `Find` |
| `ParsePsplib.RenewableFlags` | pyjobshop/parse/project/parse_psplib.py:38-42 | one flag per `R`/`N` token, true for `R` |
| `ParsePsplib.OtherTokensIgnored` | pyjobshop/parse/project/parse_psplib.py:41 | other tokens are dropped |
| `ParsePsplib.Zip` | pyjobshop/parse/project/parse_psplib.py:43-46 | `zip`: as long as the shorter list, pairing elements in order |
| `ParsePsplib.RowsMeaning` | pyjobshop/parse/project/parse_psplib.py:49-52 | row `i` is line `i` parsed; a failure is the first failing line's |
| `ParsePsplib.ReadMode` | pyjobshop/parse/project/parse_psplib.py:64-66 | duration at `-num_resources - 1` and the demands `row[-num_resources:]`, the whole row when there are no resources; `IndexError` on a short row |
| `ParsePsplib.ReadModes` | pyjobshop/parse/project/parse_psplib.py:61-67 | the `k` modes of consecutive rows |
| `ParsePsplib.Successors` | pyjobshop/parse/project/parse_psplib.py:58 | the non-zero job numbers minus one |
| `ParsePsplib.ReadActivities` | pyjobshop/parse/project/parse_psplib.py:56-69 | one activity per precedence line |
| `ParsePsplib.ReadActivityModes` | pyjobshop/parse/project/parse_psplib.py:61-67 | the inner loop computes `ReadModes` and advances `mode_idx` by `num_modes` |
| `ParsePsplib.ReadOneActivity` | pyjobshop/parse/project/parse_psplib.py:57-69 | one pass of the outer loop |
| `ParsePsplib.ReadActivityLines` | pyjobshop/parse/project/parse_psplib.py:54-69 | the outer loop computes `ReadActivities` |
| `ParsePsplib.ParsePsplibLines` | pyjobshop/parse/project/parse_psplib.py:30-74 | the loops compute the parse |
| `ParsePsplib.ReadActivitiesLast` | pyjobshop/parse/project/parse_psplib.py:56-69 | each activity reads its modes from the rows left by the ones before |
| `ParsePsplib.ModesSequential` | pyjobshop/parse/project/parse_psplib.py:54-67 | mode rows are consumed in order: activity `i` takes the rows right after those of the earlier activities |
| `ParsePsplib.RowsUsed` | pyjobshop/parse/project/parse_psplib.py:54-67 | the rows used are exactly the first `sum(num_modes)` |
| `ParsePsplib.ModesOfActivity` | pyjobshop/parse/project/parse_psplib.py:61-67 | activity `i`'s `j`-th mode is read from row `Offset(i) + j` |
| `ParsePsplib.PsplibShape` | pyjobshop/parse/project/parse_psplib.py:33-74 | one project of all activities released at 0, one activity per precedence line, resources zipped from capacities and flags |
| `ParseMplib.NameInjective` | pyjobshop/parse/project/parse_mplib.py:51 | `f"{project_idx}:{activity_idx}"` names distinct activities differently |
| `ParseMplib.ReadActivity` | pyjobshop/parse/project/parse_mplib.py:44-53 | one activity line, failing on a short line or a successor count that does not match (the `assert`); named `p:a` |
| `ParseMplib.ReadActivities` | pyjobshop/parse/project/parse_mplib.py:43-53 | `k` activities named `p:1` .. `p:k` |
| `ParseMplib.Indices` | pyjobshop/parse/project/parse_mplib.py:40 | `[offset + idx for idx in range(n)]` |
| `ParseMplib.ReadProject` | pyjobshop/parse/project/parse_mplib.py:37-53 | a project over the next indices with its activities |
| `ParseMplib.ProjectOf` | pyjobshop/parse/project/parse_mplib.py:40-53 | the project once its header is read |
| `ParseMplib.ReadProjects` | pyjobshop/parse/project/parse_mplib.py:36-53 | `n` projects |
| `ParseMplib.Id2IdxKeys` | pyjobshop/parse/project/parse_mplib.py:52 | `id2idx`'s keys are the activity names, each mapped to an index of that name |
| `ParseMplib.Resolve` | pyjobshop/parse/project/parse_mplib.py:58 | `[id2idx[succ] ...]`, with `KeyError` exactly when some successor is unknown |
| `ParseMplib.ResolveAll` | pyjobshop/parse/project/parse_mplib.py:55-59 | the second pass over all activities |
| `ParseMplib.Renewables` | pyjobshop/parse/project/parse_mplib.py:30 | every resource is renewable |
| `ParseMplib.ReadActivityLine` | pyjobshop/parse/project/parse_mplib.py:44-53 | one pass of the activity loop |
| `ParseMplib.ReadActivityLines` | pyjobshop/parse/project/parse_mplib.py:43-53 | the activity loop computes `ReadActivities` |
| `ParseMplib.ReadProjectLines` | pyjobshop/parse/project/parse_mplib.py:37-53 | one pass of the project loop |
| `ParseMplib.Id2IdxNext` | pyjobshop/parse/project/parse_mplib.py:52 | appending an activity maps its name to the old length |
| `ParseMplib.AddNames` | pyjobshop/parse/project/parse_mplib.py:52-53 | the loop fills `id2idx` |
| `ParseMplib.ReadAllProjects` | pyjobshop/parse/project/parse_mplib.py:36-53 | the first pass computes the projects, the activities and `id2idx` |
| `ParseMplib.ResolveActivities` | pyjobshop/parse/project/parse_mplib.py:55-59 | the second pass computes `ResolveAll` |
| `ParseMplib.ParseMplibLines` | pyjobshop/parse/project/parse_mplib.py:22-61 | the loops compute the parse |
| `ParseMplib.ProjectsLayout` | pyjobshop/parse/project/parse_mplib.py:36-53 | project `p` holds consecutive indices after those of the earlier projects, and the activity at each index is named after its project and position |
| `ParseMplib.Locate` | pyjobshop/parse/project/parse_mplib.py:40 | every index lies in exactly one project's range |
| `ParseMplib.NamesDistinct` | pyjobshop/parse/project/parse_mplib.py:51 | no two activities share a name |
| `ParseMplib.Id2IdxUnique` | pyjobshop/parse/project/parse_mplib.py:52 | `id2idx` maps each name to the index where it occurs |
| `ParseMplib.MplibParts` | pyjobshop/parse/project/parse_mplib.py:22-61 | a successful parse is renewable resources, the projects of the first pass and the resolved activities |
| `ParseMplib.MplibSuccessors` | pyjobshop/parse/project/parse_mplib.py:55-59 | a successor written `q:b` resolves to the index listed as activity `b` of project `q` |
| `ParseMplib.MplibShape` | pyjobshop/parse/project/parse_mplib.py:22-61 | renewable resources, one mode per activity, and every project index a valid activity |
| `ParseBenchmark.ReadPairs` | parse/parse_benchmark.py:113-117 | `k` (machine, processing time) pairs and what follows them |
| `ParseBenchmark.ReadPairsShape` | parse/parse_benchmark.py:113-117 | reading `k` pairs succeeds exactly when `2k` numbers remain, else `IndexError`, and leaves the rest |
| `ParseBenchmark.JobLine` | parse/parse_benchmark.py:92-123 | the operations from position 1 on, `IndexError` on an empty line, and the count must be `line[0]` (the `assert`) |
| `ParseBenchmark.EncodePairs` | parse/parse_benchmark.py:101-102 | two numbers per pair |
| `ParseBenchmark.JobLineRoundTrip` | parse/parse_benchmark.py:92-123 | reading a written job line gives back its operations |
| `ParseBenchmark.ReadOperation` | parse/parse_benchmark.py:113-117 | the inner loop computes `ReadPairs` |
| `ParseBenchmark.ParseJobOperationDataLine` | parse/parse_benchmark.py:92-123 | the `while` loop and the assertion compute `JobLine` |
| `ParseBenchmark.Chain` | parse/parse_benchmark.py:146-148 | `(idx, idx + 1)` for the `n - 1` consecutive pairs of a job |
| `ParseBenchmark.Counts` | parse/parse_benchmark.py:144 | the number of operations of each job |
| `ParseBenchmark.FjspPrecedences` | parse/parse_benchmark.py:141-150 | the loop as written computes `PrecedencesFrom` (one extra index skipped after every job) |
| `ParseBenchmark.AddChain` | parse/parse_benchmark.py:146-148 | the inner loop appends one job's chain |
| `ParseBenchmark.JobLines` | parse/parse_benchmark.py:136 | one parsed line per job line, failing with the first bad one |
| `ParseBenchmark.ChainMember` | parse/parse_benchmark.py:146-148 | a job's chain holds exactly the pairs of its consecutive operations |
| `ParseBenchmark.PrecedencesWithinJobs` | parse/parse_benchmark.py:138-150 | when every job has an operation, the precedences are exactly the consecutive pairs within one job in the global numbering |
| `ParseBenchmark.EmptyJobShiftsNumbering` | parse/parse_benchmark.py:141-150 | as written, jobs with 0 and 2 operations give `[(1, 2)]` instead of `[(0, 1)]` |
| `ParseBenchmark.IntendedAgreesOnNonEmptyJobs` | parse/parse_benchmark.py:141-150 | on jobs that all have an operation the loop as written and the intended numbering agree |
| `ParseBenchmark.EmptyJobKeepsNumbering` | parse/parse_benchmark.py:141-150 | with the intended numbering the job after an empty one keeps its own indices |
| `ParseBenchmark.IntendedWithinJobs` | parse/parse_benchmark.py:138-150 | with the intended numbering, for any job lengths, the precedences are exactly the consecutive pairs within one job |
| `ParseBenchmark.Cumul` | parse/parse_benchmark.py:267 | `np.cumsum([0] + counts)` |
| `ParseBenchmark.NonZero` | parse/parse_benchmark.py:261-264 | `np.where(times, times, MAX_INT)`: zeros become `MAX_INT` |
| `ParseBenchmark.Arcs` | parse/parse_benchmark.py:269-271 | `(op, op + 1)` over one job's range |
| `ParseBenchmark.JobArcs` | parse/parse_benchmark.py:268-272 | the arcs of all jobs |
| `ParseBenchmark.NaderiTimes` | parse/parse_benchmark.py:261-289 | every processing time is the listed one, or `MAX_INT` where that is zero; none is zero |
| `ParseBenchmark.NaderiArcs` | parse/parse_benchmark.py:266-272 | the arcs are the consecutive pairs of operations of one job, job `j` owning the range between consecutive cumulative sums |
| `ParseBenchmark.MachineCalls` | parse/parse_benchmark.py:81-84 | as written: `machines[op_data.machine - 1]` with Python's negative indexing |
| `ParseBenchmark.IntendedMachineCalls` | parse/parse_benchmark.py:81-84 | intended: machine numbers outside `1 .. num_machines` are refused |
| `ParseBenchmark.IntendedAgreesInRange` | parse/parse_benchmark.py:81-84 | on machine numbers within `1 .. num_machines` the intended mapping and the one as written give the same calls |
| `ParseBenchmark.MachineZeroRefused` | parse/parse_benchmark.py:82 | machine number 0 is refused by the intended mapping |
| `ParseBenchmark.OperationJobs` | parse/parse_benchmark.py:74-79 | one job index per operation, in global order |
| `ParseBenchmark.PrecedenceCalls` | parse/parse_benchmark.py:86-87 | `operations[frm], operations[to]` per precedence, with Python indexing |
| `ParseBenchmark.MachinesOneBased` | parse/parse_benchmark.py:82 | machine `k` in `1 .. n` is the builder's machine `k - 1` |
| `ParseBenchmark.MachineZeroIsLast` | parse/parse_benchmark.py:82 | as written, machine number 0 silently selects the last machine |
| `ParseBenchmark.FjspPrecedencesSameJob` | parse/parse_benchmark.py:64-89 | in a converted FJSP instance every precedence links two consecutive operations of the same job |
| `ParseBenchmark.IntendedPrecedenceSameJob` | parse/parse_benchmark.py:138-150 | an intended precedence `(a, b)` has `b = a + 1` and both operations belong to the same job |
| `ParseBenchmark.OperationJobsAt` | parse/parse_benchmark.py:74-79 | operation `Start(j) + i` belongs to job `j` |
| `ParseBenchmark.Fjsp` | parse/parse_benchmark.py:126-152 | an empty file fails with `IndexError` and a header without exactly three numbers with `ValueError` (the unpacking); otherwise it succeeds exactly when every job line parses, with `num_machines` from the header and one job per non-header line, job `j` being line `j + 1` parsed; the precedences are the intended ones, `IntendedPrecedences(Counts(jobs), 0)`: exactly the pairs of consecutive operations of one job in the global numbering |
| `ParseBenchmark.FjspChains` | parse/parse_benchmark.py:138-150 | a pair is among the intended precedences exactly when it links two consecutive operations of one job, in the global numbering |
| `ParseBenchmark.ConvertToModel` | parse/parse_benchmark.py:64-89 | succeeds exactly when every machine number lies in `1 .. num_machines` and every precedence indexes the operation list; then it has one job per parsed job, `num_machines` machines and one operation per listed operation, every processing-time call names an existing machine and operation, for every eligible machine `k` of operation `o` of job `j` there is a call `(machine - 1, Start(j) + o, processing_time)` among the processing calls (`CallListed`), and precedence `k` links the operations its two indices select |
| `ParseBenchmark.OperationCalls` | parse/parse_benchmark.py:77-84 | the calls for a run of operations numbered from `first` succeed exactly when all their machine numbers lie in `1 .. num_machines`; every call names an existing machine and one of those operations, there is one call per eligible machine, and they are in loop order (`CallsInOrder`): the calls of operation `first + o`, one per eligible machine, `(machine - 1, first + o, processing_time)`, come after those of the earlier operations |
| `ParseBenchmark.JobCalls` | parse/parse_benchmark.py:74-84 | all jobs' calls succeed exactly when every machine number lies in `1 .. num_machines`; every call names an existing machine and an operation within the global numbering |
| `ParseBenchmark.CallsInOrderAt` | parse/parse_benchmark.py:77-84 | in calls in loop order, eligible machine `k` of operation `o` gives the call `(machine - 1, first + o, processing_time)` at position `CallsBefore(o) + k`, after the calls of the earlier operations |
| `ParseBenchmark.CallsInOrderLength` | parse/parse_benchmark.py:77-84 | calls in loop order hold exactly one call per eligible machine of every operation |
| `ParseBenchmark.CallsInOrderOrigin` | parse/parse_benchmark.py:77-84 | each call in loop order is the call for some eligible machine `k` of some operation `o` |
| `ParseBenchmark.LocateCall` | parse/parse_benchmark.py:77-84 | every call position falls among the calls of one operation |
| `ParseBenchmark.OperationCallsListed` | parse/parse_benchmark.py:77-84 | every call is the one for some eligible machine `k` of some operation `o` (converse of `OperationCallsAt`) |
| `ParseBenchmark.OperationsAt` | parse/parse_benchmark.py:74-79 | operation `o` of job `j` is operation `Start(j) + o` of the global list |
| `ParseBenchmark.OperationsLength` | parse/parse_benchmark.py:74-79 | the global operation list holds as many operations as the jobs have together |
| `ParseBenchmark.OperationOrigin` | parse/parse_benchmark.py:74-79 | every operation of the global list is operation `o` of some job `j`, at position `Start(j) + o` |
| `ParseBenchmark.OperationsInRange` | parse/parse_benchmark.py:74-84 | the machine numbers of the global operation list are in range exactly when those of every job are |
| `ParseBenchmark.LocateStart` | parse/parse_benchmark.py:74-79 | every global operation index below the total lies in the range `Start(j) .. Start(j) + counts[j]` of some job `j` |
| `ParseBenchmark.JobCallsAt` | parse/parse_benchmark.py:74-84 | eligible machine `k` of operation `o` of job `j` has its call `(machine - 1, first + Start(j) + o, processing_time)` among the calls |
| `ParseBenchmark.JobCallsCover` | parse/parse_benchmark.py:74-84 | every eligible machine of every operation of every job has its call among the calls |
| `ParseBenchmark.JobCallsListed` | parse/parse_benchmark.py:74-84 | every call is the one for some eligible machine of some operation of some job (converse of `JobCallsCover`) |
| `ParseBenchmark.ConvertedCallsListed` | parse/parse_benchmark.py:64-89 | every processing-time call of a converted instance comes from an eligible machine `k` of operation `o` of job `j`, and its operation belongs to job `j` |
| `ParseBenchmark.Naderi` | parse/parse_benchmark.py:252-272 | fails with `IndexError` when a header line is missing or empty or `num_jobs` exceeds the listed job lengths; otherwise keeps `num_jobs`, `num_machines`, the total operation count and one row of processing times per operation line |
| `Text.TrimEnd` | pyjobshop/parse/project/parse_patterson.py:24 | `rstrip`: a prefix that is empty or ends with a non-blank |
| `Text.TrimStart` | pyjobshop/parse/project/parse_patterson.py:24 | `lstrip`: a suffix that is empty or starts with a non-blank |
| `Text.StripEnds` | pyjobshop/parse/project/parse_patterson.py:24 | a stripped string is empty or starts and ends with a non-blank |
| `Text.StripTrimmed` | pyjobshop/parse/project/parse_patterson.py:24 | a string starting and ending with a non-blank is its own strip |
| `Text.Words` | pyjobshop/parse/project/parse_patterson.py:26-35 | `split()`: non-empty blank-free words |
| `Text.WordsJoin` | pyjobshop/parse/project/parse_patterson.py:35 | joined words split back into the words |
| `Text.StrippedLines` | pyjobshop/parse/project/parse_psplib.py:31 | `[line.strip() for line in lines if line.strip()]`: no empty line |
| `Text.StrippedLinesId` | pyjobshop/parse/project/parse_psplib.py:31 | stripped non-blank lines pass through unchanged |
| `Text.ParseInts` | pyjobshop/parse/project/parse_psplib.py:37 | `list(map(int, tokens))`: fails with `ValueError` exactly when a token is no integer literal |
| `Text.ParseRendered` | pyjobshop/parse/project/parse_patterson.py:26-42 | the renderings of naturals parse back into them |
| `Text.PyRange` | pyjobshop/parse/project/parse_patterson.py:45 | `list(range(n))`, empty for `n <= 0` |
| `Text.SliceBound` | pyjobshop/parse/project/parse_psplib.py:51-56 | a slice bound counts negatives from the end and clamps |
| `Text.PySlice` | pyjobshop/parse/project/parse_psplib.py:51-56 | `s[i:j]` is Dafny's slice on in-range bounds |
| `Decimal.NatToString` | pyjobshop/parse/project/parse_mplib.py:51 | `str(n)`: digits without leading zeros |
| `Decimal.ParseInt` | pyjobshop/parse/project/parse_mplib.py:46 | `int(s)` succeeds exactly on an optional sign and at least one digit |
| `Decimal.DigitsOfNat` | pyjobshop/parse/project/parse_mplib.py:46-51 | reading a rendered number gives the number |
| `Decimal.ParseNatToString` | pyjobshop/parse/project/parse_mplib.py:46-51 | `int(str(n)) == n` |
| `Decimal.Split` | pyjobshop/solvers/cpoptimizer/CPModel.py:74 | `s.split(sep)`: at least one piece, none containing `sep` |
| `Decimal.SplitJoined` | pyjobshop/solvers/cpoptimizer/CPModel.py:74 | pieces joined by `sep` split back into them |
| `JsonCodec.InitNames` | pyjobshop/json.py:36-93 | the names of the `init=True` fields |
| `JsonCodec.Default` | pyjobshop/json.py:20-39 | a dataclass becomes `__class__` plus each init field; anything else is not serializable |
| `JsonCodec.ObjectHook` | pyjobshop/json.py:72-121 | the hook's loop computes `Hook` |
| `JsonCodec.PopInitFields` | pyjobshop/json.py:93-104 | the pop loop computes `PopFields` |
| `JsonCodec.PopFieldsOk` | pyjobshop/json.py:95-104 | popping succeeds exactly when every name is present and none repeats |
| `JsonCodec.PopFieldsValue` | pyjobshop/json.py:95-104 | the rest keeps exactly the other keys and the keyword arguments get each field's value |
| `JsonCodec.PopFieldsErr` | pyjobshop/json.py:97-103 | a failure names a missing field |
| `JsonCodec.HookMissing` | pyjobshop/json.py:97-103 | a missing init field raises the missing-field error |
| `JsonCodec.HookComplete` | pyjobshop/json.py:105-114 | with all fields present, extraneous keys raise the error and otherwise the class is built |
| `JsonCodec.HookDecodes` | pyjobshop/json.py:72-121 | the hook builds the class exactly when the object holds every init field and nothing else |
| `JsonCodec.RoundTrip` | pyjobshop/json.py:20-121 | decoding what `default` encodes calls the class with the instance's init-field values |
| `JsonCodec.BuildRegistry` | pyjobshop/json.py:124-136 | the loop computes the registry |
| `JsonCodec.RegistryFromOk` | pyjobshop/json.py:130-135 | built exactly when names are distinct and every class is a dataclass |
| `JsonCodec.RegistryFromValue` | pyjobshop/json.py:135 | each class is stored under its name, and nothing else |
| `JsonCodec.RegistryFromErr` | pyjobshop/json.py:131-134 | a failure names a duplicate or a non-dataclass |
| `JsonCodec.RegistryMeaning` | pyjobshop/json.py:124-136 | succeeds exactly on distinct dataclasses, mapping each name to its class |
| `SolverData.Task2Modes` | pyjobshop/solvers/ortools/Constraints.py:49 | the modes of task `t`, all of them, in index order |
| `SolverData.AllModes` | pyjobshop/solvers/utils.py:25-29 | every mode index in order |
| `SolverData.Resource2Modes` | pyjobshop/solvers/ortools/Constraints.py:237-281 | the modes using resource `r`, all of them, in order |
| `SolverData.MachineIdcs` | pyjobshop/solvers/ortools/Constraints.py:90 | exactly the machine indices, in order |
| `SolverData.RenewableIdcs` | pyjobshop/solvers/ortools/Constraints.py:100 | exactly the renewable indices, in order |
| `SolverData.NonRenewableIdcs` | pyjobshop/solvers/ortools/Constraints.py:112 | exactly the non-renewable indices, in order |

`CpoConstraints.MachinesNoOverlap` builds its setup matrix with the corrected `CpoConstraints.MachineMatrix`, not with the sub-matrix slicing as written; see "## Findings". `OrToolsUtils.PartitionTaskStart` computes the classes as written (`ClassDomains`); the corrected classes are `OrToolsUtils.StartClassesFixed`.

## Left out

Python exceptions that became preconditions. Each line below names the exception that the model does not produce; the model simply cannot be called with such input.

- SolverUtils.SetupTimesMatrix: requires every setup-time record to index inside the resources × tasks × tasks array. `setup_times_matrix` (pyjobshop/solvers/utils.py:151-161) raises numpy's IndexError for an index that is too large, and silently wraps a negative one.
- OrSequencing.SameSequenceConstraints: requires both resources of every same-sequence constraint to be machines (`SameSequenceMachinesOnly`). The source raises KeyError from the `sequence_vars` dict (pyjobshop/solvers/ortools/Constraints.py:230-231). The same holds for `OrBuilder`, which passes this requirement on.
- CpoConstraints.ConsecutiveConstraints: requires the resource of every consecutive constraint to be a machine (`ConsecutiveIn`). The source raises KeyError from `_sequence_vars` (pyjobshop/solvers/cpoptimizer/Constraints.py:196).
- CpoVariables.Warmstart: requires a solution entry for every task (`Covers`: `|sol| >= |tasks|`). The source raises IndexError on `solution.tasks[task]` (pyjobshop/solvers/cpoptimizer/Variables.py:158).
- PyModel.Model.AddOperation: requires its job, when given, to have been added to this model. The same kind of requirement applies to `AddProcessingTime`, `AddTimingPrecedence`, `AddAssignmentPrecedence`, `AddSetupTime` and `AddProcessPlan`: every machine and operation handle they take must come from this model. The source raises KeyError from `_id2job`, `_id2machine` or `_id2op` (pyjobshop/Model.py:222-341).
- FjspModel.Model.AssignJobOperations: requires its handles to come from this model. The same applies to `AssignMachineOperations`, `AddProcessingTime`, `AddPrecedence`, `AddAccessConstraint` and `AddSetupTime`. The source raises KeyError from the `_id2*` dicts (fjsp/Model.py:181-299).
- OrObjective.ObjectiveBuilder.SetObjective: requires a due date on every job when the tardy-jobs, total-tardiness or total-earliness weight is positive. The same requirement sits on `OrObjective.ObjectiveBuilder.ObjectiveExpr`, `OrObjective.ObjectivePlan` and `OrObjective.ObjectiveMeaning`. The source raises AssertionError at `assert job.due_date is not None` (pyjobshop/solvers/ortools/Objective.py:43). Validated problem data never reaches this point, because `ProblemData.ValidateParameters` rejects such data.
- CpoObjective.ObjectiveExpr: has the same due-date requirement, and so do `CpoObjective.ObjectiveMeaning` and `CpoObjective.ObjectiveBuilder.Build`. Here the source raises TypeError from `end_of(var) - None` (pyjobshop/solvers/cpoptimizer/Objective.py:39).

Constraints whose satisfaction is not modelled. `Holds` treats three record kinds as always true: `CpLog.Circuit` (OR-Tools `add_circuit`), `CpoLog.Sequence` (a sequence variable) and `CpoLog.Previous` (`cpo.previous`). The records these builders append are proved exactly, and so is each arc's meaning. What is not proved is the ordering these records force: a Hamiltonian circuit over the present intervals, or `previous` as the immediate predecessor in the sequence.

- OrCircuit.CircuitConstraints: the arc-level meanings are proved (`OrCircuit.CircuitArcMeaning`, `OrCircuit.CircuitLoopMeaning`); that the arcs form one circuit is not. The same holds for `OrCircuit.CircuitAdded` and for the arcs that `OrSequencing.ConsecutiveConstraints` and `OrSequencing.SameSequenceConstraints` force or equate.
- CpoConstraints.AddConsecutive: the `previous` records it appends (together with `CpoConstraints.AddProduct`, `CpoConstraints.PreviousRow` and `CpoConstraints.ConsecutiveConstraints`) are specified exactly. Their meaning as "mode 1 immediately precedes mode 2 in the sequence" is not modelled.
- CpoVariables.MakeSequenceVariables: the sequence variables it creates carry their intervals and types, but no order.

Other simplifications.

- ParseBenchmark.Fjsp: numbers the precedences with the intended `ParseBenchmark.IntendedPrecedences`; as written (parse/parse_benchmark.py:141-150) a job without operations still advances the running index, shifting the numbering of every later job (see "## Findings" and `ParseBenchmark.EmptyJobShiftsNumbering`).
- ParseBenchmark.ConvertToModel: maps machine numbers with the intended `ParseBenchmark.IntendedMachineCalls` and so refuses a machine number outside `1 .. num_machines`; as written (parse/parse_benchmark.py:82) a number from `1 - num_machines` to 0 wraps round through Python's negative indexing (0 selects the last machine, `ParseBenchmark.MachineZeroIsLast`), and any other number outside `1 .. num_machines` raises IndexError.
- OrCpModel.SolveResultOf: the objective is an integer or None, not the solver's float (or `inf`). The result's lower bound and runtime, both solver read-backs, are dropped.
- CpoCpModel.SolveResultOf: the same simplification as `OrCpModel.SolveResultOf`.
- Constants.MAX_VALUE: an arbitrary positive integer. The 64-bit integer range of OR-Tools variables and the overflow behaviour of the solvers are not modelled.
- CpLog.Model.NewConstant: creates a new variable on every call. OR-Tools caches constants, so repeated `new_constant(c)` calls return one shared proto variable (pyjobshop/solvers/ortools/Variables.py:248-252). Variable numbers in this model are positions in its own numbering, not indices of the OR-Tools proto; nothing here depends on how many proto variables exist.
- Text.IsSpace: the characters listed in its definition are those for which `str.isspace` holds in Python 3. The model follows that list and no Unicode database.
- Decimal.ParseInt: accepts an optional sign followed by ASCII digits. Tokens come from `str.split`, so they carry no blanks. It rejects `"1_000"` and non-ASCII digits, which Python's `int()` accepts.
- JsonCodec.ObjectHook: the ValueError that wraps a failing `cls(**kwargs)` (pyjobshop/json.py:113-121) is not modelled. Constructing the decoded object always succeeds here.
- JsonCodec.BuildRegistry: the TypeError that `__init_subclass__` raises for a decoder subclass without `_serializable_classes` (pyjobshop/json.py:66-70) is not modelled. Class creation is not part of the model; the registry is built from a given class list.
- ProblemData.AddTask: `Job.add_task` appends to the job's own list in place. The model returns a new `Job` value, so the sharing of one `Job` object between several holders is not captured.
- ProblemData.Replace: Python deep-copies the omitted fields. Values in Dafny cannot be shared, so the copy is implicit.

Not modelled at all.

- The solver engines and all solve plumbing: `CpSolver.solve`, `CpoModel.solve`, parameter setting (`num_workers`, `Workers`, kwargs overrides), wall time and time limits, and the stop-search timer callback. A solver result enters the model as a status string plus a valuation.
- File I/O: `open`/`readlines` in every parser, and `file2lines`. The parsers start from the list of lines.
- parse/parse_benchmark.py: `parser`, `parse_fjsp_sdst`, `parse_fajsp`, `parse_yfjs` and `parse_kasapidis2021` are not modelled. Neither are the `Model` calls of `parse_naderi2022` (parse/parse_benchmark.py:274-291) and the float branch of `parse_num`.
- cpmodel/CpModelPlus.py: only the listed methods are modelled. The following are not: `new_overlap_var`, `new_has_overlap_var`, `add_forbid_*`, `add_overlap_length`, the `*_eval` helpers, and `add_isomorphism` (which raises NotImplementedError).
- Search and propagation inside the CP primitives (no-overlap, cumulative, alternative, span, pulse): these appear only as records whose `Holds` states what a solution must satisfy.

## Findings

Five places where the code as written does not do what its comments, tests or surrounding code evidently intend. Each row names two members. The as-written member models the code and exhibits the discrepancy on a concrete input. The corrected member states the intended behaviour, and the rest of the model uses the corrected form.

| source | as written | input that shows it | evidently intended | confidence | as-written member | corrected member |
|---|---|---|---|---|---|---|
| pyjobshop/solvers/cpoptimizer/Constraints.py:84-93 | The machine's setup matrix is sliced to the rows and columns of its mode tasks, `setup_times[idx][np.ix_(tasks, tasks)]`. It is then passed to `no_overlap` next to a sequence whose types are the task indices themselves, so the solver reads the sliced matrix at the original task numbers. | Machine 0, mode tasks [1, 0], one setup time 5 from task 1 to task 0. The slice holds 5 at [0][1], but the solver reads [1][0] = 0 for the pair 1 → 0. With mode tasks [1, 2], the 2 × 2 slice has no row for type 2. | The matrix the solver reads at (type a, type b) is the setup time from task a to task b, i.e. the machine's whole task × task matrix (or the types renumbered 0..k−1). | not executed | `CpoConstraints.SubmatrixMisindexed` | `CpoConstraints.MachineDistance` |
| pyjobshop/solvers/utils.py:188-207 | Besides the clique over a task's machines, the graph links every resource of each mode of a task to every resource of each mode of that task, whatever their kind. Non-machine resources therefore form components too, and the machine clique adds nothing new. | One task with one mode on resource 0, which is not a machine: as written there is one component, holding resource 0. | Only machines form components: an instance without machines has no component, as the function's docstring and its test say. | not executed | `RedundantCumulative.NoMachinesAsWritten` | `RedundantCumulative.NoMachinesCorrected` |
| pyjobshop/solvers/ortools/utils.py:70-86 | A zero-length break still contributes a segment under key 0 of the partition. The loop then overwrites `domains[0]` with the complement of all segments, which loses the start times of that segment. | Breaks [(1, 1)] and duration 2: start time 0 lies in no class, although no break is in progress at 0. | Every admissible start time lies in exactly one class, with class 0 keeping its own segments. | not executed | `OrToolsUtils.ZeroLengthBreakAsWritten` | `OrToolsUtils.FixedClassesCover` |
| parse/parse_benchmark.py:141-150 | The running operation number advances by one more than the number of precedences per job, so a job with no operations still advances it by one. | Jobs with 0 and 2 operations: precedences [(1, 2)], naming an operation that does not exist. | Operations are numbered consecutively across jobs, giving [(0, 1)]. | not executed | `ParseBenchmark.EmptyJobShiftsNumbering` | `ParseBenchmark.EmptyJobKeepsNumbering` |
| parse/parse_benchmark.py:82 | Machine numbers in the data are 1-based and are turned into `machines[machine - 1]`. Machine number 0 becomes index −1 and silently selects the last machine. | One operation on machine 0 with m > 0 machines: it is assigned to machine m − 1. | Machine number 0 is invalid and is refused. | not executed | `ParseBenchmark.MachineZeroIsLast` | `ParseBenchmark.MachineZeroRefused` |
