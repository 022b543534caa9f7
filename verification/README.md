# lb-sim core, modelled in Dafny

lb-sim is a discrete-event load-balancing simulator. A run takes:

- a pool of servers, each with an id, a name, a base latency in milliseconds and a weight;
- a number of requests;
- a tie-break mode: stable, or seeded with a number.

It validates the configuration, then resets every server's active-connection and pick counters. It then queues one arrival per request and pops events from a time-ordered queue until the queue is empty:

- On an arrival, a selection strategy names a server index. The engine opens a connection on that server, counts the pick and schedules the request's completion one base latency later. It also records an assignment.
- On a completion, the engine closes the connection again.

Finally the assignments are folded into one summary per server, in input order. Each summary holds the request count and the integer mean response time.

The project models the following, as pure functions over immutable data:

- **The engine loop** (`Engine`, `Simulation`). This covers validation, counter reset, the arrival schedule, one step of the loop, the loop itself, the summary fold and the whole run.
- **The strategies** it drives (`RoundRobin`, `WeightedRoundRobin`, `LeastConnections`, dispatched through `Algorithms`). Each strategy is a step function from its own state, the read-only server list and the tie-break source to a selection, its next state and the source afterwards.
- **The two tie-break sources** (`Randomness`). The stable source always draws 0. The seeded source is a bounded-draw oracle that is passed to the run.

The properties proved are these:

- **Validation.** The three validation errors come in their order, and each fires exactly when its condition holds.
- **Loop invariant.** Each server's active-connection count equals its number of pending completions. Consequences:
  - every completion names a real server with a connection open;
  - a finished run leaves every counter at zero;
  - each pick count equals the number of that server's assignments.
- **Run length.** A run pops exactly 2·R events and yields exactly R assignments, in request order.
- **Summaries.** A server's mean response time is its latency, or 0 when it served nothing. The summary counts add up to R.
- **Input counters.** The result does not depend on the counters in the input.
- **One tie-break source.** Every arrival of a run draws from the source its tie-break mode configures; no strategy can swap it.
- **Round robin.** Calls cycle through the indices, and every server gets ⌊R/N⌋ or ⌈R/N⌉ requests, both for the bare strategy and through the engine.
- **Weighted round robin.** The weight-interval search is correct, and one full cycle gives every server exactly its weight, in block order.
- **Least connections.** The candidates are exactly the minimal servers, in index order. One draw happens only on a tie, and the stable source picks the lowest index.
- **Concrete runs.** Three concrete runs of the repository's tests are proved: round robin over a and b under any tie-break mode, summaries in input order, and least connections seeing a completion before the next arrival. The least-response-time runs and the seeded least-connections run depend on code outside this model (see "Left out").

## Model

| member | source | states |
|---|---|---|
| `Randomness.Draw` | src/engine.rs:161-182 | a draw is below its bound; the stable source always yields 0 and stays as it is; a seeded source keeps its generator, so the source after a draw is a later state of the same source |
| `Randomness.SourceFor` | src/engine.rs:87-90 | a stable run starts from the always-0 source and a seeded run from the generator seeded with its seed |
| `RoundRobin.Select` | src/algorithms/round_robin.rs:9-16 | for every cursor, the index is the cursor mod N and the next cursor is cursor+1 mod N, both below N (a cursor already in range is its own index, and the next cursor is index+1 mod N); no score |
| `RoundRobin.CallsFromFresh` | src/algorithms/round_robin.rs:26-44 | from a fresh strategy, call j (from 0) picks j mod N, and k calls leave the cursor at k mod N |
| `RoundRobin.CallsCount` | src/algorithms/round_robin.rs:10-11 | over k calls from fresh, index i is chosen k div N times, plus one when i < k mod N |
| `RoundRobin.Fairness` | src/algorithms/round_robin.rs:10-11 | over k calls from fresh, every index is chosen ⌊k/N⌋ or ⌈k/N⌉ times |
| `RoundRobin.ThreeServersCycle` | src/algorithms/round_robin.rs:26-44 | three servers, four calls: 0, 1, 2, 0 |
| `WeightedRoundRobin.PrefixMono` | src/algorithms/weighted_round_robin.rs:14-17 | the running weight sum never decreases along the list |
| `WeightedRoundRobin.OwnerUnique` | src/algorithms/weighted_round_robin.rs:14-22 | at most one server's weight interval [prefix(i), prefix(i+1)) contains a point |
| `WeightedRoundRobin.ScanFrom` | src/algorithms/weighted_round_robin.rs:14-22 | the search loop returns the first index i with prefix(i) <= target < prefix(i+1) when the target is below the total weight, and 0 otherwise |
| `WeightedRoundRobin.Select` | src/algorithms/weighted_round_robin.rs:9-28 | the target is cursor mod total weight and the chosen index owns it (prefix(i) <= target < prefix(i+1)), below N; the next cursor is target+1 mod total, below total; no score |
| `WeightedRoundRobin.CallsFromFresh` | src/algorithms/weighted_round_robin.rs:10-22 | from a fresh strategy, call j picks the owner of point j mod total, and k calls leave the cursor at k mod total |
| `WeightedRoundRobin.BlockCount` | src/algorithms/weighted_round_robin.rs:38-53 | in block order over the first m servers, server i occurs exactly weight_i times when i < m, and never otherwise |
| `WeightedRoundRobin.CycleIsBlock` | src/algorithms/weighted_round_robin.rs:38-53 | one full cycle of total-weight calls from fresh is block order: server 0 weight_0 times, then server 1 weight_1 times, and so on |
| `WeightedRoundRobin.CycleCounts` | src/algorithms/weighted_round_robin.rs:38-53 | over one full cycle from fresh, server i is chosen exactly weight_i times |
| `WeightedRoundRobin.TwoToOneOwner` | src/algorithms/weighted_round_robin.rs:14-22 | weights 2 and 1 make 3 the total; points 0 and 1 belong to server 0 and point 2 to server 1 |
| `WeightedRoundRobin.TwoToOneExample` | src/algorithms/weighted_round_robin.rs:37-53 | weights 2 and 1 over six calls give 0, 0, 1, 0, 0, 1 |
| `LeastConnections.Scan` | src/algorithms/least_connections.rs:10-21 | the loop's minimum is None exactly for an empty list; otherwise it is the smallest count, attained; the candidate list holds exactly the indices with that count, strictly increasing |
| `LeastConnections.Candidates` | src/algorithms/least_connections.rs:13-21 | for a non-empty pool, the candidates are non-empty, strictly increasing, and an index is a candidate if and only if its server has the fewest connections |
| `LeastConnections.Select` | src/algorithms/least_connections.rs:9-37 | the chosen server is a candidate with the fewest connections; with one candidate the source is untouched; with several, one draw below the number of candidates is made and that candidate returned; under the stable source the lowest minimal index wins; no score |
| `LeastConnections.PrefersFewestExample` | src/algorithms/least_connections.rs:47-62 | counts 3, 1, 2 select index 1, whatever the source |
| `LeastConnections.SeededTieExample` | src/algorithms/least_connections.rs:64-87 | three servers tied: the choice is candidate draw(state, 3) of the seeded generator |
| `Algorithms.BuildStrategy` | src/algorithms/mod.rs:31-38 | each algorithm gets a strategy of its own kind; round robin and weighted round robin start at cursor 0 |
| `Algorithms.ReadyStable` | src/algorithms/mod.rs:15-24 | whether a strategy can decide depends only on its kind and the servers' weights, which the engine never changes |
| `Algorithms.Select` | src/algorithms/mod.rs:15-29 | every decision is an index below N; a strategy keeps its kind; only least response time scores; the round-robin kinds never touch the source; the stateless kinds never change; round robin picks cursor mod N and moves its cursor to cursor+1 mod N, for every cursor; least connections picks a fewest-connections server, the lowest one under the stable source; every kind hands back a later state of the source it was given |
| `EventQueue.InsertPos` | src/engine.rs:105-111 | a new event goes after every event strictly before it in (time, completion-before-arrival, insertion sequence) order and before the rest |
| `EventQueue.Push` | src/engine.rs:105-111 | scheduling keeps a sorted queue sorted and adds one event |
| `EventQueue.PushPermutes` | src/engine.rs:105-111 | scheduling adds exactly the new event and loses none |
| `EventQueue.HeadIsEarliest` | src/engine.rs:78 | the popped head of a sorted queue comes no later than any pending event |
| `EventQueue.PushCompletion` | src/engine.rs:105-111 | scheduling a completion leaves the pending arrivals alone and adds one pending completion for its server and none for the others |
| `Engine.FirstDuplicateFrom` | src/engine.rs:49-54 | the id loop reports nothing exactly when all ids are distinct, and otherwise the first index whose id repeats an earlier one |
| `Engine.Validate` | src/engine.rs:42-54 | EmptyServers exactly for an empty pool; then RequestsZero exactly for zero requests; then DuplicateServerId exactly when ids repeat, carrying the first repeated id |
| `Engine.Init` | src/engine.rs:56-60 | the run's servers are the input servers with both counters at 0 |
| `Engine.PendingArrivals` | src/engine.rs:64-74 | one arrival per request; the request at offset j has id j+1 and arrives at time j |
| `Engine.Step` | src/engine.rs:78-123 | a completion saturating-decrements its server when the index is in range and changes nothing else; an arrival opens a connection and counts a pick on the chosen server only, records an assignment with that server's id and name, the selection's score and completion one latency after the start, and schedules that completion; every pop reduces the pending work by one |
| `Engine.Drain` | src/engine.rs:78-123 | the loop ends with an empty queue, the servers' static fields, the strategy kind and the tie-break source's kind and generator unchanged |
| `Engine.Advance` | src/engine.rs:78-123 | any prefix of the loop keeps the servers' static fields, the strategy's readiness and the tie-break source's kind and generator |
| `Engine.AdvanceAll` | src/engine.rs:78-123 | advancing by as many pops as the loop makes is running the whole loop |
| `Engine.Pops` | src/engine.rs:78-123 | the loop pops every queued event once and one completion per queued arrival |
| `Summary.IndexOf` | src/engine.rs:49-54 | the id lookup finds a server with that id, the first one, or reports that none has it |
| `Summary.IndexOfUnique` | src/engine.rs:128 | with distinct ids, looking up server k's id gives k |
| `Summary.Tally` | src/engine.rs:125-131 | with distinct ids, the fold's count for server i is the number of assignments with its id and its total is their summed response time |
| `Summary.AverageMs` | src/engine.rs:139-144 | 0 for no requests; otherwise the truncated mean: avg·count <= total < (avg+1)·count |
| `Summary.AverageOfUniform` | src/engine.rs:139-144 | the truncated mean of count equal response times is that time |
| `Summary.ResponseSumUniform` | src/engine.rs:127-131 | when every assignment of a server took its latency, the total is latency times count |
| `Summary.Summaries` | src/engine.rs:133-151 | one summary per server in input order, with its name, its count and the mean of its total |
| `Simulation.StartInv` | src/engine.rs:56-74 | the state before the loop satisfies the run invariant |
| `Simulation.CompletionInRange` | src/engine.rs:81-85 | under the invariant, a popped completion names an existing server with a connection open, so the range check and the saturation never take effect |
| `Simulation.StepCompletionInv` | src/engine.rs:81-85 | a completion step keeps the run invariant |
| `Simulation.ArrivalInv` | src/engine.rs:86-121 | a state with exactly an arrival's effects (one more connection and pick on the chosen server, its assignment appended, its completion scheduled) keeps the run invariant |
| `Simulation.StepArrivalInv` | src/engine.rs:86-121 | an arrival step keeps the run invariant |
| `Simulation.DrainInv` | src/engine.rs:78-123 | the whole loop keeps the run invariant |
| `Simulation.FinalInv` | src/engine.rs:78-123 | once the queue is empty, every request is assigned and every active-connection count is 0 |
| `Simulation.Final` | src/engine.rs:56-123 | after the loop: R assignments in request order, each on a real server and finishing one latency after it starts; all connections closed; each pick count equals its server's assignments; picks add up to R |
| `Simulation.MeanIsLatency` | src/engine.rs:133-151 | a server's mean response time is its latency, or 0 when it served nothing |
| `Simulation.Simulate` | src/engine.rs:125-157 | a valid run delivers the assignments as above, one summary per server in input order with its name, its count and its latency as mean, counts adding up to R, and the configured tie-break |
| `Simulation.Run` | src/engine.rs:41-158 | an error exactly when validation fails, each error exactly under its condition and in order; otherwise the outcome above |
| `Simulation.RunRecordsLoop` | src/engine.rs:153-157 | a valid run reports exactly the assignments the loop recorded |
| `Simulation.OneSourcePerRun` | src/engine.rs:86-90 | after any number of pops, a stable run still holds the always-0 source and a seeded run a state of the generator it was seeded with, so every arrival draws from the configured source |
| `Simulation.PopCount` | src/engine.rs:64-111 | a valid run pops exactly 2·R events |
| `Simulation.KnownSameIds` | src/engine.rs:125-131 | server lists that differ only in their counters know the same ids |
| `Simulation.TallySameIds` | src/engine.rs:125-131 | the summary fold gives the same counts and totals for server lists that differ only in their counters |
| `Simulation.SimulateIgnoresInputCounters` | src/engine.rs:56-60 | two valid configurations that differ only in the servers' counters simulate to the same result |
| `Simulation.RunIgnoresInputCounters` | src/engine.rs:56-60 | two configurations that differ only in the servers' counters give the same result |
| `EndToEnd.RoundRobinRun` | src/engine.rs:86-120 | through the engine, round robin from fresh sends the request at offset j to server j mod N |
| `EndToEnd.CountIdFollows` | src/engine.rs:113-120 | when the assignments follow a sequence of server indices, each server's assignment count is how often its index occurs |
| `EndToEnd.RoundRobinCounts` | src/algorithms/round_robin.rs:10-11 | assignments laid out in round-robin order give server i k div N of k requests, plus one when i < k mod N |
| `EndToEnd.RoundRobinShare` | src/algorithms/round_robin.rs:10-11 | through the engine, round robin gives server i R div N requests, plus one when i < R mod N |
| `EndToEnd.RoundRobinTwoServers` | tests/cli_smoke.rs:3-29 | a (10 ms), b (20 ms), three requests, any tie-break mode (the test's seed 42, or seed 99 as at tests/cli_smoke.rs:147-177): a, b, a; a served 2 at 10 ms average, b 1 at 20 ms |
| `EndToEnd.SummaryInInputOrder` | tests/cli_smoke.rs:59-84 | z, a, m and one request: summaries in input order, z 1 at 10 ms, a and m none |
| `EndToEnd.FastSlowLoop` | src/engine.rs:190-209 | fast and slow, two requests, least connections, stable: the loop records request 1 on fast over [0, 1] and request 2 on fast over [1, 2] |
| `EndToEnd.LeastConnectionsSeesCompletions` | src/engine.rs:190-209 | fast (1 ms), slow (100 ms), two requests, least connections, stable: the run assigns request 1 to fast over [0, 1] and request 2 to fast over [1, 2] |

Two behaviours of the code are worth stating plainly, because a reader might expect otherwise:

- **Arrival times.** The arrival loop enqueues each request at its loop offset, so request k (1-based) arrives at time k−1 (src/engine.rs:63-73).
- **Weighted round robin order.** Within a cycle, the prefix-sum search gives block order, not an interleaved one: each server takes its whole weight before the next server starts (src/algorithms/weighted_round_robin.rs:14-22). The repository's own test expects exactly that (src/algorithms/weighted_round_robin.rs:51-52).

The event queue's order is an assumption of this model: src/events.rs, which defines the event type and its ordering, is not part of this model. `EventQueue` orders events by time, then completions before arrivals, then insertion sequence. Under that order the engine test at src/engine.rs:190-209 yields "fast, fast": fast's completion and the second arrival both fall at time 1, and the completion is processed first.

## Left out

- Command-line parsing, output rendering, error messages and the binary entry points (src/main.rs, src/bin/load-balancer.rs, src/output.rs, src/error.rs). They are I/O around the engine.
- The least-response-time strategy: its file is not part of this model. `Algorithms.Select` keeps it as an uninterpreted step whose only promises are an index below N, whatever score it returns, and a later state of the tie-break source it was given (the program hands strategies the source by reference, so they cannot replace it).
- The seeded generator's internals and `gen_range`'s sampling: these are library code. The generator is a parameter of `Simulation.Run`, a deterministic bounded-draw oracle seeded with the configured seed. So the seeded least-connections scenario of tests/cli_smoke.rs:86-113, whose outcome depends on the generator's actual numbers, is not reproduced.
- Run-to-run reproducibility with equal seeds holds because `Simulation.Run` is a function of its inputs; no separate statement is made.
- The heap and the hash map: the queue is a sorted sequence, and the id map is a search over the input servers.
- Fixed-width integers: times, counters and ids are unbounded naturals. The u32 and u64 overflows of counters, latency sums and arrival times are not modelled. The u32::MAX starting minimum of least connections is modelled equivalently by `LeastConnections.Scan`'s empty start: a first server holding u32::MAX connections takes the equal-count branch in the program and yields the same minimum and candidate list [0].
- Panics become preconditions:
  - Round robin and least connections over an empty pool. The engine never reaches them, because validation rejects an empty pool first.
  - Weighted round robin over a pool of total weight 0 (a division by zero). `Simulation.Run` requires that a valid configuration be decidable by its strategy.
  - An assignment whose server id is unknown, or whose completion precedes its start, in the summary fold. `Summary.Tally` requires neither to happen, and the engine's own assignments never do.
- The engine object's reuse: a second `run` on the same engine instance, whose strategy keeps its cursor from the first run, is not modelled. A run starts from the strategy it is given.
- The selection context's clock (`time_ms`): none of the modelled strategies reads it.
