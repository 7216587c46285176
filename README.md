# Supply chain ant-colony optimiser: a Dafny model

This project models the computational core of a web app that visualises and
"optimises" supply-chain networks with ant colony optimisation (ACO). The
model covers:

- **the network generator** (`generateRandomNetwork`, `getNodeColor`), in module `SupplyChainModel`. It places nodes in four tiers (supplier, manufacturer, distributor, retailer) by index. It then connects ordered pairs of nodes at random, weighted by how compatible their tiers are.
- **the Python `AntColonyOptimizer` listing** that the app shows, in module `ColonyOptimizer`. This is a constructor plus the `run` loop that keeps the best path found so far (the incumbent).
- **the page state** in module `IndexPage`. The placeholder `runOptimization` invents a convergence curve and a shuffled path. The regenerate handler replaces the network and clears the result.
- **the analysis metrics** and the convergence-iteration search, in module `DataAnalysis`.
- **the playback state machine** of the simulation panel, in module `AcoSimulation`.
- **the path-highlighting decisions** of the network canvas, in module `Visualization`.

Every source of randomness is an explicit oracle:

- `rand: nat -> real` holds the successive `Math.random()` draws, each in [0, 1).
- `euclid` gives the scaled Euclidean distance.
- `curve` gives the `100 * Math.exp(-0.05 * i)` curve.
- `picks` gives the choices made by the shuffling sort.
- `rounds` holds what the listing's unseen `_generate_paths` returns in each iteration.
- `update` stands for the unseen `_update_pheromones`.

Once these are fixed, every operation is deterministic and is stated exactly. Numbers are exact integers and reals, which idealise IEEE doubles.

Code that changes state step by step is imperative Dafny:

- the generator's loops are methods proved against the recursive specification `EdgePass`/`NodeTable`;
- `run` is a method of class `AntColonyOptimizer`, proved against `Replay`;
- the page and the playback are the classes `Index` and `Simulation`, whose handlers are proved against the pure transition functions.

## Model

| member | source | states |
|---|---|---|
| SupplyChainModel.GenerateRandomNetwork | src/lib/supplyChainModel.ts:42-103 | The generated network is `Generated(...)`. Node ids are exactly 0..nodeCount-1 and node `i` has id `i` and the tier of its index. Node capacity is in [50,199] and node cost in [10,49]. Every edge joins two distinct existing nodes, has capacity in [20,99] and non-negative cost, distance and time. Edges come in strictly increasing row-major order, so each ordered pair occurs at most once |
| SupplyChainModel.CreateNodes | src/lib/supplyChainModel.ts:49-61 | The node loop builds exactly the record `NodeTable`: node `i` with four draws, taken in the order x, y, capacity, cost |
| SupplyChainModel.CreateEdges | src/lib/supplyChainModel.ts:63-100 | The nested edge loops push exactly the edges of `EdgePass`. Each ordered pair with i != j is visited in row-major order and spends one draw on the decision. A created edge spends three more draws, for cost, time and capacity |
| SupplyChainModel.Generated | src/lib/supplyChainModel.ts:42-103 | Definition: the network is `NodeTable` over `max(0, nodeCount)` nodes plus the `EdgePass` edges, whose draws start after the node loop's `4 * nodeCount`. `GenerateRandomNetwork` is proved equal to it, and `NodeTableFacts`, `EdgePassWellFormed` and `EdgePassRowMajor` state its properties |
| SupplyChainModel.EdgePass | src/lib/supplyChainModel.ts:64-100 | Definition: the edges of the nested loops from pair `(i, j)` and draw `k` on, in row-major order. A self-pair takes no draw, and a created edge takes four. The loop methods are proved equal to it, and its properties are `EdgePassWellFormed`, `EdgePassRowMajor`, `NoDensityNoEdges` and `SaturatedDensityConnectsAll` |
| SupplyChainModel.Creates | src/lib/supplyChainModel.ts:84 | Definition: the decision draw is below `density * typeCompatibility`. The product is written per case of the weight, 0.7 or 0.1 |
| SupplyChainModel.MakeEdge | src/lib/supplyChainModel.ts:85-97 | Definition: the pushed edge record from the scaled distance and the next three draws, for cost, time and capacity. `MakeEdgeWellFormed` states its bounds |
| SupplyChainModel.NodeTable | src/lib/supplyChainModel.ts:50-61 | Definition: the node record after nodes `0..m-1` are created. `NodeTableFacts` states its properties |
| SupplyChainModel.NodeTableGrows | src/lib/supplyChainModel.ts:52-60 | One more loop iteration adds exactly node `i` to the record |
| SupplyChainModel.MakeNode | src/lib/supplyChainModel.ts:51-60 | Definition: node `i` with the tier of its index, its name, and four draws for x, y, capacity and cost. `NodeTableFacts` states its bounds |
| SupplyChainModel.CreateRow | src/lib/supplyChainModel.ts:65-99 | One pass of the inner loop for source node `i` pushes exactly the edges `EdgePass` emits for row `i`. The rest of the pass then continues from node `i + 1` at the returned draw position |
| SupplyChainModel.ConsiderPair | src/lib/supplyChainModel.ts:66-98 | The self-pair is skipped without a draw. Any other pair spends one draw on the decision, and a created edge spends three more: the returned draw position is k, k+1 or k+4. At most one edge is pushed, exactly when the pair is distinct and the draw creates it, and it is the edge `EdgePass` emits for the pair |
| SupplyChainModel.SaturatedCreates | src/lib/supplyChainModel.ts:84 | At a density of 10 or more, every draw in [0,1) falls below the weighted density, so the edge is created |
| SupplyChainModel.NodeTableFacts | src/lib/supplyChainModel.ts:50-60 | The node record is dense over 0..n-1, `nodes[i].id == i`, the tier follows from the index, capacity is in [50,199] and cost in [10,49] |
| SupplyChainModel.TierIndex | src/lib/supplyChainModel.ts:51 | The tier index of node `i` is `floor(4*i/n)` and is below 4, so the final `% 4` never wraps |
| SupplyChainModel.TierOf | src/lib/supplyChainModel.ts:51 | Definition: the tier at `TierIndex` in `nodeTypes`. `TierMonotone` and `EveryTierPresent` state its properties |
| SupplyChainModel.TierMonotone | src/lib/supplyChainModel.ts:45-51 | Tiers never decrease as the index grows, and node 0 is a supplier |
| SupplyChainModel.EveryTierPresent | src/lib/supplyChainModel.ts:45-51 | With at least four nodes, every tier is assigned: node `ceil(k*n/4)` has tier `k` |
| SupplyChainModel.Rank | src/lib/supplyChainModel.ts:45-47 | A tier's rank is its position in the `nodeTypes` array |
| SupplyChainModel.TypeName | src/lib/supplyChainModel.ts:45-47 | Definition: the tier's string literal, as in the `type` union and the `nodeTypes` array. `NodeColor` and `TierColorsDistinct` state its properties |
| SupplyChainModel.Compatibility | src/lib/supplyChainModel.ts:72-81 | Compatibility is 0.7 exactly when the target tier directly follows the source tier (supplier->manufacturer, manufacturer->distributor, distributor->retailer) and 0.1 for every other ordered pair |
| SupplyChainModel.CompatibilityDirected | src/lib/supplyChainModel.ts:73-81 | The reverse of a high-compatibility pair has low compatibility, and so does a tier paired with itself |
| SupplyChainModel.NodeColor | src/lib/supplyChainModel.ts:115-123 | The result is gray exactly when the string names none of the four tiers, and it is always one of the five listed colours |
| SupplyChainModel.TierColorsDistinct | src/lib/supplyChainModel.ts:116-120 | Different tiers get different colours |
| SupplyChainModel.NodeName | src/lib/supplyChainModel.ts:55 | A node name is the tier name with its first letter upper-cased and the rest unchanged, then a space, then exactly `DecimalString(i)`, the index's digits |
| SupplyChainModel.DecimalString | src/lib/supplyChainModel.ts:55 | The printed index is a non-empty run of decimal digits without a leading zero; `DecimalStringValue` proves the digits denote the index |
| SupplyChainModel.DecimalStringValue | src/lib/supplyChainModel.ts:55 | The printed digits, read back as a decimal number, are the index itself |
| SupplyChainModel.Capitalize | src/lib/supplyChainModel.ts:55 | `charAt(0).toUpperCase() + slice(1)` upper-cases the first character and keeps the rest |
| SupplyChainModel.UpperAscii | src/lib/supplyChainModel.ts:55 | A lower-case ASCII letter becomes its capital (code point minus 32), and any other character is unchanged |
| SupplyChainModel.Round | src/lib/supplyChainModel.ts:93-95 | `Math.round(x)` is the integer within half a unit of `x`, with halves rounded up |
| SupplyChainModel.RoundedDistance | src/lib/supplyChainModel.ts:93 | A rounded distance is non-negative when the distance is |
| SupplyChainModel.EdgeCost | src/lib/supplyChainModel.ts:94 | An edge cost is non-negative for a non-negative distance and draw |
| SupplyChainModel.TransitTime | src/lib/supplyChainModel.ts:95 | A transit time is non-negative for a non-negative distance and draw |
| SupplyChainModel.EdgeCapacity | src/lib/supplyChainModel.ts:96 | For a draw in [0,1), edge capacity is in [20,99] |
| SupplyChainModel.MakeEdgeWellFormed | src/lib/supplyChainModel.ts:85-97 | An edge created for distinct in-range endpoints is well formed |
| SupplyChainModel.EdgePassWellFormed | src/lib/supplyChainModel.ts:64-100 | Every generated edge has valid endpoints, no self-loop, capacity in [20,99] and non-negative cost, distance and time |
| SupplyChainModel.EdgePassRowMajor | src/lib/supplyChainModel.ts:64-100 | Generated edges lie at or after the loop position and appear in strictly increasing (from, to) order, so no ordered pair repeats |
| SupplyChainModel.NoDensityNoEdges | src/lib/supplyChainModel.ts:84 | A density of zero or less creates no edges |
| SupplyChainModel.SaturatedDensityConnectsAll | src/lib/supplyChainModel.ts:64-84 | A density of 10 or more connects every ordered pair of distinct nodes |
| ColonyOptimizer.AntColonyOptimizer.constructor | src/components/PythonInfo.tsx:94-106 | Stores the distances and parameters, with `alpha` and `beta` defaulting to 1. Pheromones are `InitialPheromones(distances)`. The optimizer starts with no best path, best cost +inf and an empty history |
| ColonyOptimizer.InitialPheromones | src/components/PythonInfo.tsx:99 | The pheromone matrix has the shape of the distance matrix, and every entry times `len(distances)` is 1 |
| ColonyOptimizer.AntColonyOptimizer.Run | src/components/PythonInfo.tsx:108-128 | The new state is the loop `Replay` over one round per iteration. The consistency invariant (incumbent present iff cost finite, non-increasing history, last record equals the incumbent) holds afterwards. On completion it returns `(best_path, best_cost, history)`. `ok` is false exactly when some iteration produced an empty cost list, where `np.argmin` raises `ValueError` |
| ColonyOptimizer.ArgMin | src/components/PythonInfo.tsx:117 | `np.argmin` returns an index whose cost no other cost beats, and it is the first such index |
| ColonyOptimizer.MinOf | src/components/PythonInfo.tsx:117-120 | The least cost of a list is no greater than any element, and is an element or +inf |
| ColonyOptimizer.ArgMinIsMin | src/components/PythonInfo.tsx:117 | The cost at `np.argmin` is the least cost of the list |
| ColonyOptimizer.Min | src/components/PythonInfo.tsx:118-120 | The smaller of two costs is no greater than either and is one of them |
| ColonyOptimizer.Less | src/components/PythonInfo.tsx:118 | Definition: Python's `<` on a float or `float('inf')`. `LessOrder` states its properties |
| ColonyOptimizer.LessOrder | src/components/PythonInfo.tsx:118 | `<` on costs is irreflexive, asymmetric, transitive and total on distinct costs, and every float is below `inf` |
| ColonyOptimizer.IterateOrder | src/components/PythonInfo.tsx:113-117 | Each iteration applies the pheromone update to the paths and costs just generated, before the incumbent is examined. An empty cost list stops the run right after that update and records nothing |
| ColonyOptimizer.IterateStrictImprovement | src/components/PythonInfo.tsx:117-126 | The incumbent is replaced only when the iteration's least cost is strictly below the best cost. It is then replaced by `paths[np.argmin(costs)]`, the first path with that cost. Ties and worse iterations keep the old path and cost, and one record `(iteration+1, best_cost)` is appended |
| ColonyOptimizer.IterateConsistent | src/components/PythonInfo.tsx:117-126 | One iteration preserves the consistency invariant |
| ColonyOptimizer.Iterate | src/components/PythonInfo.tsx:113-126 | Definition: one loop iteration, with the pheromone update first, then `np.argmin`, the strict-improvement test and the appended record. Its properties are `IterateOrder`, `IterateStrictImprovement` and `IterateConsistent` |
| ColonyOptimizer.Replay | src/components/PythonInfo.tsx:112-126 | Definition: the `for` loop over the rounds, which stops at the first iteration that raises. `Run` is proved equal to it, and the `Replay...` lemmas state its properties |
| ColonyOptimizer.ReplayCompletes | src/components/PythonInfo.tsx:112-117 | A run completes exactly when every iteration produced a non-empty cost list; otherwise `np.argmin` raises |
| ColonyOptimizer.ReplayConsistent | src/components/PythonInfo.tsx:112-126 | Any run, completed or not, preserves the consistency invariant, so recorded best costs never increase |
| ColonyOptimizer.ReplayHistory | src/components/PythonInfo.tsx:112-126 | A completed run of n iterations appends exactly n records numbered 1..n and keeps the earlier records |
| ColonyOptimizer.ReplayBestCost | src/components/PythonInfo.tsx:112-120 | After a completed run, the best cost is the minimum of the starting best cost and every cost produced in every iteration |
| ColonyOptimizer.ReplayIncumbentProduced | src/components/PythonInfo.tsx:117-120 | The final incumbent is either the starting one or a path some iteration produced, at the cost that iteration gave it |
| ColonyOptimizer.RaisedStops | src/components/PythonInfo.tsx:112-117 | Once an iteration raises, later iterations never run and the state stays as it was left |
| ColonyOptimizer.FreshRun | src/components/PythonInfo.tsx:104-128 | From a fresh optimizer, `run(n)` leaves n records numbered 1..n with non-increasing best costs, and the best cost is the least cost produced (+inf if none) |
| IndexPage.PlaceholderHistory | src/pages/Index.tsx:30-46 | The convergence data has exactly `iterations` entries (0 for a negative count). Entry k has `iteration == k+1` and `bestCost == bestCosts[k]`. `pathCost` is the last entry's cost, and is absent exactly when there are no iterations |
| IndexPage.PlaceholderResult | src/pages/Index.tsx:29-47 | Definition: the stored result, built from the shuffled key list, the last jittered cost and the numbered history. `PlaceholderHistory` and `PlaceholderPathIsPermutation` state its properties |
| IndexPage.BestCosts | src/pages/Index.tsx:31-34 | Definition: one jittered curve value per iteration, for iterations 1..N. `PlaceholderHistory` and `JitteredCostsCanRise` state its properties |
| Wrappers.Range | src/pages/Index.tsx:30 | `Array.from({ length: n }, (_, i) => i + 1)` as `Range(1, n + 1)`: the length is the count, and entry k is `k + 1` |
| IndexPage.Jittered | src/pages/Index.tsx:33 | Definition: the curve value times `1 + 0.2 * draw`. `JitterBounds` and `JitterCanRise` state its properties |
| IndexPage.PlaceholderPathIsPermutation | src/pages/Index.tsx:37-41 | The fabricated best path holds every node id exactly once and nothing else |
| IndexPage.Shuffle | src/pages/Index.tsx:38 | The shuffled list is a permutation (same multiset) of the input |
| IndexPage.NodeIds | src/pages/Index.tsx:37 | The key list holds each node id once, in ascending order |
| IndexPage.Least | src/pages/Index.tsx:37 | The least key is a key, and no key is smaller |
| IndexPage.AscendingOnce | src/pages/Index.tsx:37 | A strictly ascending key list holds each id exactly once |
| IndexPage.JitterBounds | src/pages/Index.tsx:33 | Each jittered cost lies in [curve, 1.2*curve) |
| IndexPage.JitterCanRise | src/pages/Index.tsx:33 | At the curve's real decay rate, a draw of 0 followed by a draw of 0.5 or more makes the next cost higher |
| IndexPage.JitteredCostsCanRise | src/pages/Index.tsx:31-46 | The reported best costs are not monotone: under those draws the second entry exceeds the first |
| IndexPage.Index.constructor | src/pages/Index.tsx:13-18 | The page starts with `generateRandomNetwork(10, 0.4)` and no result |
| IndexPage.Index.RunOptimization | src/pages/Index.tsx:20-48 | Stores the placeholder result built from the current node ids, and leaves the network unchanged |
| IndexPage.Index.GenerateNewNetwork | src/pages/Index.tsx:68-71 | Installs a freshly generated network and clears the result to null |
| DataAnalysis.InitialCost | src/components/DataAnalysis.tsx:30 | The first recorded cost, or 0 when there is none |
| DataAnalysis.FinalCost | src/components/DataAnalysis.tsx:31 | The last recorded cost, or 0 when there is none |
| DataAnalysis.TotalImprovement | src/components/DataAnalysis.tsx:32 | Definition: initial cost minus final cost. `PercentImprovement`, `SomeRecordReaches` and `NonIncreasingImproves` state its properties |
| DataAnalysis.PercentImprovement | src/components/DataAnalysis.tsx:32-33 | 0 when the initial cost is 0. Otherwise the percentage times the initial cost equals 100 times the total improvement |
| DataAnalysis.ConvergenceIteration | src/components/DataAnalysis.tsx:36-43 | Returns the 1-based index of the first record that reaches 90% of the total improvement. It is 0 exactly for an empty history, so the fallback to the length is never taken otherwise. It is 1 when the improvement is not positive, and lies in [1, length] for a non-empty history |
| DataAnalysis.Reaches | src/components/DataAnalysis.tsx:37-39 | Definition: the loop test, a record at least 90% of the total improvement below the initial cost. `ConvergenceIteration` and `SomeRecordReaches` state its properties |
| DataAnalysis.SomeRecordReaches | src/components/DataAnalysis.tsx:37-41 | In a non-empty history the first record reaches the target when the improvement is not positive, and the last record does when it is not negative |
| DataAnalysis.NonIncreasingImproves | src/components/DataAnalysis.tsx:30-33 | For non-increasing, non-negative costs with a positive initial cost, the improvement percentage lies in [0, 100] |
| AcoSimulation.TickCases | src/components/ACOSimulation.tsx:25-34 | A tick does nothing unless playing with results present. Otherwise it advances the step by exactly 1 when `step < maxSteps-1`, and else stops playback and leaves the step alone |
| AcoSimulation.MaxSteps | src/components/ACOSimulation.tsx:22 | Definition: the number of records, 0 without results. `ControlCases` and `RunStaysInRange` use it |
| AcoSimulation.Tick | src/components/ACOSimulation.tsx:25-34 | Definition: the timer transition. `TickCases`, `PlayThrough`, `StoppedStays` and `TicksStayInPlayRange` state its properties |
| AcoSimulation.Reset | src/components/ACOSimulation.tsx:40-43 | Definition: step 0, paused, with the new results. `ControlCases` states it |
| AcoSimulation.Toggle | src/components/ACOSimulation.tsx:78 | Definition: flip `isPlaying`. `ControlCases` states it |
| AcoSimulation.Skip | src/components/ACOSimulation.tsx:86-89 | Definition: step `maxSteps - 1`, paused. `ControlCases` states it |
| AcoSimulation.ControlCases | src/components/ACOSimulation.tsx:40-89 | New results reset to step 0, paused. Play/pause flips only `isPlaying`. Skip sets the step to `maxSteps-1` (-1 for an empty history) and stops |
| AcoSimulation.RunStaysInRange | src/components/ACOSimulation.tsx:19-89 | Any sequence of ticks, toggles, skips and new results keeps the step on a record, or at 0 or -1 when there are no records |
| AcoSimulation.TicksStayInPlayRange | src/components/ACOSimulation.tsx:22-33 | Ticks alone, starting in [0, max(0, maxSteps-1)], stay there |
| AcoSimulation.PlayThrough | src/components/ACOSimulation.tsx:25-34 | While playing, n ticks advance the step by n as long as it stays before the last record. After that, playback is stopped at the last record |
| AcoSimulation.StoppedStays | src/components/ACOSimulation.tsx:26 | Once paused, ticks change nothing |
| AcoSimulation.CurrentCost | src/components/ACOSimulation.tsx:57 | The cost at the current step, or 0 when the step is out of range |
| AcoSimulation.PercentImprovement | src/components/ACOSimulation.tsx:58-60 | 0 when the first cost is 0 or missing. Otherwise the percentage times the first cost equals 100 times (first cost minus current cost) |
| AcoSimulation.LastStepAgreesWithAnalysis | src/components/ACOSimulation.tsx:57-60 | At the last step, the playback's improvement equals the analysis panel's |
| AcoSimulation.Simulation.constructor | src/components/ACOSimulation.tsx:19-43 | Mounting leaves the step at 0, paused |
| AcoSimulation.Simulation.ReceiveResults | src/components/ACOSimulation.tsx:40-43 | New results give the state `Reset(results)` |
| AcoSimulation.Simulation.OnTimer | src/components/ACOSimulation.tsx:25-37 | The timer callback moves the state to `Tick(old state)` |
| AcoSimulation.Simulation.OnPlayPause | src/components/ACOSimulation.tsx:78 | The play button moves the state to `Toggle(old state)` |
| AcoSimulation.Simulation.OnSkip | src/components/ACOSimulation.tsx:86-89 | The skip button moves the state to `Skip(old state)` |
| Visualization.IsOptimizedEdge | src/components/SupplyChainVisualization.tsx:51-56 | An edge is highlighted iff some i < len-1 has `path[i] == from` and `path[i+1] == to`; this is never the case for a path with fewer than two nodes |
| Visualization.SomeConsecutive | src/components/SupplyChainVisualization.tsx:52-56 | The `some` callback finds a consecutive (from, to) pair at or after the given position exactly when one exists |
| Visualization.DirectionSensitive | src/components/SupplyChainVisualization.tsx:54-55 | In any path that holds a consecutive pair (a, b) and no consecutive pair (b, a), edge a->b is highlighted and b->a is not |
| Visualization.HighlightedEndsRinged | src/components/SupplyChainVisualization.tsx:51-99 | Both ends of a highlighted edge are ringed nodes |
| Visualization.IsRinged | src/components/SupplyChainVisualization.tsx:99 | Definition: the node id occurs in the path. `HighlightedEndsRinged` and `LegendCoversHighlights` state its properties |
| Visualization.LegendShowsPath | src/components/SupplyChainVisualization.tsx:136 | Definition: the path is non-empty. `LegendCoversHighlights` states its property |
| Visualization.DrawnEdges | src/components/SupplyChainVisualization.tsx:40-67 | Only edges with both endpoints present are drawn, and every such edge is drawn, highlighted exactly when it is an optimised edge |
| Visualization.AllPresentAllDrawn | src/components/SupplyChainVisualization.tsx:40-44 | When every endpoint exists, every edge is drawn, in order |
| Visualization.GeneratedEdgesAllDrawn | src/components/SupplyChainVisualization.tsx:40-44 | No edge of a generated network is skipped |
| Visualization.PresentFrom | src/components/SupplyChainVisualization.tsx:76-81 | The later overlay vertices are exactly the path ids that are nodes, and when every later id is a node they are the rest of the path unchanged |
| Visualization.PresentFromKept | src/components/SupplyChainVisualization.tsx:76-81 | The `lineTo` vertices are the later path ids with the non-nodes removed, in path order and with repeats, as the reference filter `Kept` gives them |
| Visualization.OverlayVertices | src/components/SupplyChainVisualization.tsx:70-89 | There is no overlay exactly when the path has at most one id or its first id is not a node. Otherwise the polyline's vertices are `Kept(path)`: the path with the non-nodes removed, in order and with repeats, starting at the first id. When every id is a node the polyline is the path itself |
| Visualization.LegendCoversHighlights | src/components/SupplyChainVisualization.tsx:99-136 | The legend lists the path whenever an edge is highlighted, a node is ringed or the overlay is drawn |

## Left out

- `apiService.runOptimization` and `getPrediction` (src/lib/supplyChainModel.ts:126-177) are left out. They are `fetch` calls to a backend, that is, network I/O.
- Floating point is left out. Sums, products and `Math.floor`/`Math.round` are on exact reals. `Math.sqrt`/`Math.pow` are the oracle `euclid`, `Math.exp` is the oracle `curve`, and `toFixed` formatting is not modelled.
- SupplyChainModel.TierIndex: the source computes `Math.floor(i / (nodeCount / 4))` in doubles. The model uses the exact `floor(4*i/n)`, which can differ from the double result only by rounding.
- SupplyChainModel.GenerateRandomNetwork: `nodeCount` is an integer. A fractional count, which the source's loops would accept, is not modelled.
- The edge-creation probability and the shuffle's distribution are not modelled. Only the decision draw and the resulting permutation are.
- IndexPage.Shuffle: `sort` with an inconsistent comparator gives an engine-defined order. The model lets an oracle choose each next element, which covers exactly the permutations. It does not model how many draws the comparator consumes.
- IndexPage.NodeIds: `Object.keys` lists integer keys in ascending order. Negative keys, which a generated network never has, would come in insertion order. The shuffle makes the order immaterial.
- `_generate_paths` and `_update_pheromones` are not part of this model. They appear nowhere in the repository, so their results are the oracles `rounds` and `update`, and no pheromone weighting, evaporation or deposit is invented. `n_ants`, `decay`, `alpha` and `beta` are stored but never read.
- ColonyOptimizer.AntColonyOptimizer.Run: `run` returns the `history` list object itself, which later runs keep appending to. The model returns its value, so aliasing is not modelled. NaN costs are not modelled either.
- SupplyChainModel.Capitalize: only ASCII letters are upper-cased, while JavaScript's `toUpperCase` is Unicode-aware. It is only ever applied to the four ASCII tier names.
- ColonyOptimizer.AntColonyOptimizer.constructor: requires a rectangular distance matrix, as a NumPy array's shape is. A ragged list, for which `distances.shape` fails, is not modelled.
- ColonyOptimizer.AntColonyOptimizer.Run: requires every round to have as many paths as costs (`WellShaped`). The `IndexError` that `paths[best_idx]` would raise when `_generate_paths` returns fewer paths than costs is not modelled. `Iterate` and `Replay` make the same assumption.
- The `setTimeout` delay, the speed slider and React effect scheduling are left out. A timer tick is one discrete event.
- The parts of `MachineLearningPredictor.tsx` that draw random numbers and use a timer are left out. The UI-only components are also left out: `NetworkConfiguration.tsx`, `PredictionResults.tsx`, `NetworkCharacteristicsForm.tsx`, `ErrorDisplay.tsx`, `MLIntroduction.tsx`, `PythonBackend.tsx`.
- Canvas drawing (coordinates, colours, widths, dash patterns) and recharts rendering are left out. Only the decisions of what to draw and highlight are modelled.
- DataAnalysis: a `NaN` cost, which `|| 0` would turn into 0, is not modelled.
