/** A whole run: validation, the event loop from the initial state, and the
    fold of the assignments into per-server summaries; together with the
    loop invariant that ties each server's counters to the queue and to the
    assignment list. */
module Simulation {
  import opened Types
  import opened Randomness
  import opened EventQueue
  import opened Algorithms
  import opened Engine
  import opened Summary

  // --------------------------------------------------------------- counting

  function SumPicks(servers: seq<ServerState>): nat {
    if |servers| == 0 then 0 else servers[0].pickCount + SumPicks(servers[1..])
  }

  lemma {:induction false} SumPicksUpdate(servers: seq<ServerState>, k: nat, s: ServerState)
    requires k < |servers|
    ensures SumPicks(servers[k := s]) + servers[k].pickCount == SumPicks(servers) + s.pickCount
  {
    if k > 0 {
      assert servers[k := s][1..] == servers[1..][k - 1 := s];
      SumPicksUpdate(servers[1..], k - 1, s);
    }
  }

  lemma {:induction false} SumPicksZero(servers: seq<ServerState>)
    requires forall i :: 0 <= i < |servers| ==> servers[i].pickCount == 0
    ensures SumPicks(servers) == 0
  {
    if |servers| > 0 {
      SumPicksZero(servers[1..]);
    }
  }

  // --------------------------------------------------------------- invariant

  /** What the engine has recorded for the request at offset `j`, checked
      against the input servers `base`. */
  predicate AssignmentOk(a: Assignment, j: nat, base: seq<ServerState>) {
    && a.requestId == j + 1
    && a.startedAt == j
    && IndexOf(base, a.serverId).Some?
    && var k := IndexOf(base, a.serverId).value;
       && a.serverName == base[k].name
       && a.completedAt == a.startedAt + base[k].baseLatencyMs
  }

  /** The loop invariant of a run over input servers `base` with `requests`
      requests. Its heart: each server's active-connection count equals the
      number of its pending completions. */
  ghost predicate Inv(st: EngineState, base: seq<ServerState>, requests: nat) {
    && 0 < |base|
    && UniqueIds(base)
    && SameStatic(base, st.servers)
    && Ready(st.strategy, st.servers)
    && Sorted(st.events)
    && |st.assignments| <= requests
    && Arrivals(st.events) == PendingArrivals(|st.assignments|, requests)
    && CompletionsBelow(st.events, |base|)
    && (forall i :: 0 <= i < |base| ==>
          st.servers[i].activeConnections == CompletionsFor(st.events, i))
    && (forall i :: 0 <= i < |base| ==>
          st.servers[i].pickCount == CountId(st.assignments, base[i].id))
    && SumPicks(st.servers) == |st.assignments|
    && (forall j :: 0 <= j < |st.assignments| ==> AssignmentOk(st.assignments[j], j, base))
  }

  lemma {:induction false} ArrivalsOfPending(from: nat, requests: nat)
    requires from <= requests
    ensures Arrivals(PendingArrivals(from, requests)) == PendingArrivals(from, requests)
    decreases requests - from
  {
    var q := PendingArrivals(from, requests);
    if from < requests {
      assert q[0] == ArrivalAt(from);
      assert q[1..] == PendingArrivals(from + 1, requests);
      ArrivalsOfPending(from + 1, requests);
      assert Arrivals(q) == [q[0]] + Arrivals(q[1..]);
    }
  }

  lemma {:induction false} NoCompletionsPending(from: nat, requests: nat, i: nat)
    requires from <= requests
    ensures CompletionsFor(PendingArrivals(from, requests), i) == 0
    decreases requests - from
  {
    var q := PendingArrivals(from, requests);
    if from < requests {
      assert q[0] == ArrivalAt(from);
      assert q[1..] == PendingArrivals(from + 1, requests);
      NoCompletionsPending(from + 1, requests, i);
      assert CompletionsFor(q, i) == CompletionsFor(q[1..], i);
    }
  }

  /** The initial arrivals are in queue order and hold no completion. */
  lemma PendingShape(from: nat, requests: nat)
    requires from <= requests
    ensures Sorted(PendingArrivals(from, requests))
    ensures CompletionsBelow(PendingArrivals(from, requests), 0)
  {
    var q := PendingArrivals(from, requests);
    forall i, j | 0 <= i < j < |q|
      ensures NotAfter(q[i], q[j])
    {
      assert q[i] == ArrivalAt(from + i) && q[j] == ArrivalAt(from + j);
    }
    forall k | 0 <= k < |q|
      ensures !q[k].event.RequestComplete?
    {
      assert q[k] == ArrivalAt(from + k);
    }
  }

  /** The initial state satisfies the invariant. */
  lemma StartInv(c: SimConfig, strategy: Strategy, stdRng: DrawFn)
    requires Valid(c) && Ready(strategy, c.servers)
    ensures Inv(Start(c, strategy, stdRng), c.servers, c.requests)
  {
    var st := Start(c, strategy, stdRng);
    ReadyStable(strategy, strategy, c.servers, st.servers);
    ArrivalsOfPending(0, c.requests);
    forall i | 0 <= i < |c.servers|
      ensures st.servers[i].activeConnections == CompletionsFor(st.events, i)
    {
      NoCompletionsPending(0, c.requests, i);
    }
    SumPicksZero(st.servers);
    PendingShape(0, c.requests);
  }

  /** The completion at the head of the queue names a server that exists
      and has a connection open: the range check and the saturating
      decrement of the loop never take effect. */
  lemma CompletionInRange(st: EngineState, base: seq<ServerState>, requests: nat)
    requires Inv(st, base, requests) && 0 < |st.events|
    requires st.events[0].event.RequestComplete?
    ensures st.events[0].event.serverIndex < |st.servers|
    ensures 0 < st.servers[st.events[0].event.serverIndex].activeConnections
  {
    var idx := st.events[0].event.serverIndex;
    assert idx < |base|;
    assert CompletionsFor(st.events, idx) >= 1;
  }

  lemma StepCompletionInv(st: EngineState, base: seq<ServerState>, requests: nat)
    requires Inv(st, base, requests) && 0 < |st.events|
    requires st.events[0].event.RequestComplete?
    ensures Inv(Step(st), base, requests)
  {
    var q := st.events;
    var idx := q[0].event.serverIndex;
    var r := Step(st);
    assert idx < |base|;
    assert Arrivals(r.events) == Arrivals(q);
    forall i | 0 <= i < |base|
      ensures r.servers[i].activeConnections == CompletionsFor(r.events, i)
    {
    }
    assert r.servers == st.servers[idx := r.servers[idx]];
    SumPicksUpdate(st.servers, idx, r.servers[idx]);
    ReadyStable(st.strategy, r.strategy, st.servers, r.servers);
  }

  /** The next arrival to pop is the one at offset `n`. */
  lemma PopArrival(q: seq<ScheduledEvent>, n: nat, requests: nat)
    requires 0 < |q| && q[0].event.RequestArrival?
    requires n <= requests && Arrivals(q) == PendingArrivals(n, requests)
    ensures n < requests && q[0] == ArrivalAt(n)
    ensures Arrivals(q[1..]) == PendingArrivals(n + 1, requests)
  {
    var p := PendingArrivals(n, requests);
    assert Arrivals(q) == [q[0]] + Arrivals(q[1..]);
    assert p[0] == ArrivalAt(n);
    assert p[1..] == PendingArrivals(n + 1, requests);
  }

  /** Popping the next arrival and scheduling its completion keeps the queue
      sorted, consumes the arrival at offset `n`, and adds one pending
      completion for the chosen server. */
  lemma ArrivalQueue(q: seq<ScheduledEvent>, n: nat, requests: nat, done: ScheduledEvent, size: nat,
                     r: seq<ScheduledEvent>)
    requires Sorted(q) && 0 < |q| && q[0].event.RequestArrival?
    requires n <= requests && Arrivals(q) == PendingArrivals(n, requests)
    requires CompletionsBelow(q, size)
    requires done.event.RequestComplete? && done.event.serverIndex < size
    requires r == Push(q[1..], done)
    ensures n < requests && q[0] == ArrivalAt(n)
    ensures Sorted(r)
    ensures Arrivals(r) == PendingArrivals(n + 1, requests)
    ensures CompletionsBelow(r, size)
    ensures forall i :: CompletionsFor(r, i)
              == CompletionsFor(q, i) + (if done.event.serverIndex == i then 1 else 0)
  {
    PopArrival(q, n, requests);
    PushCompletion(q[1..], done, size);
    assert Sorted(q[1..]);
    assert CompletionsBelow(q[1..], size);
  }

  /** Appending the assignment for server `k` adds one pick to `k` and to
      nobody else. */
  lemma ArrivalPicks(servers: seq<ServerState>, servers': seq<ServerState>, k: nat,
                     assignments: seq<Assignment>, a: Assignment, base: seq<ServerState>)
    requires UniqueIds(base) && SameStatic(base, servers) && k < |servers|
    requires forall i :: 0 <= i < |base| ==> servers[i].pickCount == CountId(assignments, base[i].id)
    requires SumPicks(servers) == |assignments|
    requires |servers'| == |servers|
    requires forall i :: 0 <= i < |servers| && i != k ==> servers'[i] == servers[i]
    requires servers'[k].pickCount == servers[k].pickCount + 1
    requires a.serverId == base[k].id
    ensures forall i :: 0 <= i < |base| ==>
              servers'[i].pickCount == CountId(assignments + [a], base[i].id)
    ensures SumPicks(servers') == |assignments + [a]|
  {
    forall i | 0 <= i < |base|
      ensures servers'[i].pickCount == CountId(assignments + [a], base[i].id)
    {
      CountIdSnoc(assignments, a, base[i].id);
    }
    assert servers' == servers[k := servers'[k]];
    SumPicksUpdate(servers, k, servers'[k]);
  }

  /** What one arrival step does, in the names the invariant proof uses. */
  lemma ArrivalStep(st: EngineState)
    requires 0 < |st.events| && Ready(st.strategy, st.servers)
    requires st.events[0].event.RequestArrival?
    ensures var choice := Select(st.strategy, st.servers, st.rng);
            var k := choice.0.serverIndex;
            var s := st.servers[k];
            var e := st.events[0];
            var done := ScheduledEvent(e.timeMs + s.baseLatencyMs,
                                       RequestComplete(k, e.event.requestId), st.nextSeq);
            var r := Step(st);
            && k < |st.servers|
            && r.events == Push(st.events[1..], done)
            && r.assignments == st.assignments + [Assignment(
                 e.event.requestId, s.id, s.name, choice.0.score, e.timeMs, e.timeMs + s.baseLatencyMs)]
            && |r.servers| == |st.servers|
            && (forall i :: 0 <= i < |st.servers| && i != k ==> r.servers[i] == st.servers[i])
            && r.servers[k].activeConnections == s.activeConnections + 1
            && r.servers[k].pickCount == s.pickCount + 1
  {
  }

  /** An arrival at the head of the queue, handled by server `k` and
      recorded as `a`, turns `st` into `r`: then `r` keeps the invariant. */
  lemma ArrivalInv(st: EngineState, r: EngineState, base: seq<ServerState>, requests: nat,
                   k: nat, a: Assignment)
    requires Inv(st, base, requests) && 0 < |st.events|
    requires st.events[0].event.RequestArrival?
    requires k < |st.servers|
    requires var e := st.events[0];
             r.events == Push(st.events[1..], ScheduledEvent(e.timeMs + st.servers[k].baseLatencyMs,
                                                             RequestComplete(k, e.event.requestId), st.nextSeq))
    requires var e := st.events[0];
             && a.requestId == e.event.requestId && a.serverId == st.servers[k].id
             && a.serverName == st.servers[k].name
             && a.startedAt == e.timeMs && a.completedAt == e.timeMs + st.servers[k].baseLatencyMs
    requires r.assignments == st.assignments + [a]
    requires SameStatic(st.servers, r.servers)
    requires forall i :: 0 <= i < |st.servers| && i != k ==> r.servers[i] == st.servers[i]
    requires r.servers[k].activeConnections == st.servers[k].activeConnections + 1
    requires r.servers[k].pickCount == st.servers[k].pickCount + 1
    requires Ready(r.strategy, r.servers)
    ensures Inv(r, base, requests)
  {
    var n := |st.assignments|;
    var e := st.events[0];
    var done := ScheduledEvent(e.timeMs + st.servers[k].baseLatencyMs,
                               RequestComplete(k, e.event.requestId), st.nextSeq);
    ArrivalQueue(st.events, n, requests, done, |base|, r.events);
    IndexOfUnique(base, k);
    ArrivalPicks(st.servers, r.servers, k, st.assignments, a, base);
    assert AssignmentOk(a, n, base);
    assert forall j :: 0 <= j < n ==> r.assignments[j] == st.assignments[j];
  }

  lemma StepArrivalInv(st: EngineState, base: seq<ServerState>, requests: nat)
    requires Inv(st, base, requests) && 0 < |st.events|
    requires st.events[0].event.RequestArrival?
    ensures Inv(Step(st), base, requests)
  {
    ArrivalStep(st);
    var choice := Select(st.strategy, st.servers, st.rng);
    var k := choice.0.serverIndex;
    var r := Step(st);
    ReadyStable(st.strategy, r.strategy, st.servers, r.servers);
    ArrivalInv(st, r, base, requests, k, r.assignments[|st.assignments|]);
  }

  /** The invariant holds after the whole loop. */
  lemma {:induction false} DrainInv(st: EngineState, base: seq<ServerState>, requests: nat)
    requires Inv(st, base, requests)
    ensures Inv(Drain(st), base, requests)
    decreases Measure(st.events)
  {
    if |st.events| > 0 {
      if st.events[0].event.RequestComplete? {
        StepCompletionInv(st, base, requests);
      } else {
        StepArrivalInv(st, base, requests);
      }
      DrainInv(Step(st), base, requests);
    }
  }

  /** Once the queue is empty, every request has been assigned and no
      connection is left open. */
  lemma FinalInv(st: EngineState, base: seq<ServerState>, requests: nat)
    requires Inv(st, base, requests) && |st.events| == 0
    ensures |st.assignments| == requests
    ensures forall i :: 0 <= i < |st.servers| ==> st.servers[i].activeConnections == 0
  {
    assert |PendingArrivals(|st.assignments|, requests)| == 0;
  }

  /** The pick counts of the servers add up to the total of the summaries
      that carry them. */
  lemma {:induction false} SumRequestsPicks(totals: seq<ServerSummary>, servers: seq<ServerState>)
    requires |totals| == |servers|
    requires forall i :: 0 <= i < |servers| ==> totals[i].requests == servers[i].pickCount
    ensures SumRequests(totals) == SumPicks(servers)
  {
    if |servers| > 0 {
      SumRequestsPicks(totals[1..], servers[1..]);
    }
  }

  // --------------------------------------------------------------------- run

  /** The engine state once the event loop of a valid configuration is over. */
  function Final(c: SimConfig, strategy: Strategy, stdRng: DrawFn): (st: EngineState)
    requires Valid(c) && Ready(strategy, c.servers)
    ensures |st.events| == 0
    ensures SameStatic(c.servers, st.servers)
    ensures |st.assignments| == c.requests
    ensures forall j :: 0 <= j < |st.assignments| ==> AssignmentOk(st.assignments[j], j, c.servers)
    ensures forall i :: 0 <= i < |st.servers| ==>
              && st.servers[i].activeConnections == 0
              && st.servers[i].pickCount == CountId(st.assignments, c.servers[i].id)
    ensures SumPicks(st.servers) == c.requests
  {
    var st0 := Start(c, strategy, stdRng);
    StartInv(c, strategy, stdRng);
    DrainInv(st0, c.servers, c.requests);
    var st := Drain(st0);
    FinalInv(st, c.servers, c.requests);
    st
  }

  /** What every successful run delivers, whatever the strategy: one
      assignment per request in arrival order, each naming a real server and
      finishing that server's latency after it started; one summary per
      server whose count is the number of its assignments and whose mean is
      its latency; counts adding up to the number of requests. */
  predicate Outcome(c: SimConfig, r: SimulationResult) {
    && |r.assignments| == c.requests
    && (forall j :: 0 <= j < |r.assignments| ==> AssignmentOk(r.assignments[j], j, c.servers))
    && |r.totals| == |c.servers|
    && (forall i :: 0 <= i < |c.servers| ==>
          && r.totals[i].name == c.servers[i].name
          && r.totals[i].requests == CountId(r.assignments, c.servers[i].id)
          && r.totals[i].avgResponseMs
               == (if r.totals[i].requests == 0 then 0 else c.servers[i].baseLatencyMs))
    && SumRequests(r.totals) == c.requests
    && r.tieBreak == c.tieBreak
  }

  /** The mean response time of a server is its latency, or 0 when it
      served nothing. */
  lemma MeanIsLatency(c: SimConfig, assignments: seq<Assignment>, i: nat)
    requires UniqueIds(c.servers) && i < |c.servers|
    requires forall j :: 0 <= j < |assignments| ==> AssignmentOk(assignments[j], j, c.servers)
    ensures forall j :: 0 <= j < |assignments| ==> assignments[j].startedAt <= assignments[j].completedAt
    ensures var count := CountId(assignments, c.servers[i].id);
            AverageMs(ResponseSum(assignments, c.servers[i].id), count)
              == (if count == 0 then 0 else c.servers[i].baseLatencyMs)
  {
    var id := c.servers[i].id;
    IndexOfUnique(c.servers, i);
    forall j | 0 <= j < |assignments| && assignments[j].serverId == id
      ensures assignments[j].completedAt == assignments[j].startedAt + c.servers[i].baseLatencyMs
    {
      assert AssignmentOk(assignments[j], j, c.servers);
    }
    ResponseSumUniform(assignments, id, c.servers[i].baseLatencyMs);
    var count := CountId(assignments, id);
    if 0 < count {
      AverageOfUniform(c.servers[i].baseLatencyMs, count);
    }
  }

  /** The event loop followed by the summary fold. */
  function Simulate(c: SimConfig, strategy: Strategy, stdRng: DrawFn): (r: SimulationResult)
    requires Valid(c) && Ready(strategy, c.servers)
    ensures Outcome(c, r)
  {
    var st := Final(c, strategy, stdRng);
    var (counts, totals) := Tally(c.servers, st.assignments);
    var summaries := Summaries(st.servers, counts, totals);
    forall i | 0 <= i < |c.servers|
      ensures summaries[i].avgResponseMs
                == (if summaries[i].requests == 0 then 0 else c.servers[i].baseLatencyMs)
    {
      MeanIsLatency(c, st.assignments, i);
    }
    SumRequestsPicks(summaries, st.servers);
    SimulationResult(st.assignments, summaries, c.tieBreak)
  }

  /** A whole run: validation first, then the simulation. The strategy must
      be able to decide for the configured servers once validation has
      passed; weighted round robin over servers of total weight 0 divides by
      zero in the program. */
  function Run(c: SimConfig, strategy: Strategy, stdRng: DrawFn): (r: Result<SimulationResult>)
    requires Valid(c) ==> Ready(strategy, c.servers)
    ensures r == Err(EmptyServers) <==> |c.servers| == 0
    ensures r == Err(RequestsZero) <==> 0 < |c.servers| && c.requests == 0
    ensures (r.Err? && r.error.DuplicateServerId?)
              <==> 0 < |c.servers| && 0 < c.requests && !UniqueIds(c.servers)
    ensures r.Err? && r.error.DuplicateServerId? ==>
              exists j: nat :: FirstRepeat(c.servers, j) && r.error.id == c.servers[j].id
    ensures r.Ok? <==> Valid(c)
    ensures r.Ok? ==> Outcome(c, r.value)
  {
    match Validate(c)
    case Some(e) => Err(e)
    case None => Ok(Simulate(c, strategy, stdRng))
  }

  /** Every arrival draws from the one source the tie-break mode configures:
      after any number of pops, a stable run still holds the always-0 source
      and a seeded run a state of the generator it was seeded with. */
  lemma OneSourcePerRun(c: SimConfig, strategy: Strategy, stdRng: DrawFn, n: nat)
    requires Valid(c) && Ready(strategy, c.servers)
    ensures Ready(strategy, Start(c, strategy, stdRng).servers)
    ensures var st := Advance(Start(c, strategy, stdRng), n);
            && (c.tieBreak.Stable? ==> st.rng == StableSource)
            && (c.tieBreak.Seeded? ==> st.rng.SeededSource? && st.rng.draw == stdRng)
  {
    ReadyStable(strategy, strategy, c.servers, Start(c, strategy, stdRng).servers);
  }

  /** A valid run reports the assignments the event loop recorded. */
  lemma RunRecordsLoop(c: SimConfig, strategy: Strategy, stdRng: DrawFn)
    requires Valid(c) && Ready(strategy, c.servers)
    ensures Ready(strategy, Start(c, strategy, stdRng).servers)
    ensures Run(c, strategy, stdRng).Ok?
    ensures Run(c, strategy, stdRng).value.assignments == Drain(Start(c, strategy, stdRng)).assignments
  {
    ReadyStable(strategy, strategy, c.servers, Start(c, strategy, stdRng).servers);
  }

  /** A valid run pops exactly twice as many events as there are requests:
      one arrival and one completion each. */
  lemma PopCount(c: SimConfig, strategy: Strategy, stdRng: DrawFn)
    requires Valid(c) && Ready(strategy, c.servers)
    ensures Ready(strategy, Start(c, strategy, stdRng).servers)
    ensures Pops(Start(c, strategy, stdRng)) == 2 * c.requests
  {
    var st := Start(c, strategy, stdRng);
    ReadyStable(strategy, strategy, c.servers, st.servers);
    ArrivalsOfPending(0, c.requests);
  }

  // ------------------------------------------- the input counters are ignored

  lemma {:induction false} FirstDuplicateSameIds(a: seq<ServerState>, b: seq<ServerState>, idx: nat, seen: set<nat>)
    requires SameStatic(a, b) && idx <= |a|
    requires seen == IdsOf(a[..idx]) && UniqueIds(a[..idx])
    requires seen == IdsOf(b[..idx]) && UniqueIds(b[..idx])
    ensures FirstDuplicateFrom(a, idx, seen) == FirstDuplicateFrom(b, idx, seen)
    decreases |a| - idx
  {
    if idx < |a| && a[idx].id !in seen {
      var seen' := seen + {a[idx].id};
      assert a[..idx + 1] == a[..idx] + [a[idx]];
      assert b[..idx + 1] == b[..idx] + [b[idx]];
      assert seen' == IdsOf(a[..idx + 1]) && seen' == IdsOf(b[..idx + 1]);
      FirstDuplicateSameIds(a, b, idx + 1, seen');
    }
  }

  lemma KnownSameIds(a: seq<ServerState>, b: seq<ServerState>, assignments: seq<Assignment>)
    requires SameStatic(a, b)
    requires forall j :: 0 <= j < |assignments| ==> IndexOf(a, assignments[j].serverId).Some?
    ensures forall j :: 0 <= j < |assignments| ==> IndexOf(b, assignments[j].serverId).Some?
  {
    forall j | 0 <= j < |assignments|
      ensures IndexOf(b, assignments[j].serverId).Some?
    {
      IndexOfSameStatic(a, b, assignments[j].serverId);
    }
  }

  /** The fold only reads the servers' ids. */
  lemma TallySameIds(a: seq<ServerState>, b: seq<ServerState>, assignments: seq<Assignment>)
    requires SameStatic(a, b) && UniqueIds(a)
    requires forall j :: 0 <= j < |assignments| ==>
               IndexOf(a, assignments[j].serverId).Some?
               && assignments[j].startedAt <= assignments[j].completedAt
    ensures forall j :: 0 <= j < |assignments| ==> IndexOf(b, assignments[j].serverId).Some?
    ensures Tally(a, assignments) == Tally(b, assignments)
  {
    KnownSameIds(a, b, assignments);
    var (ca, ta) := Tally(a, assignments);
    var (cb, tb) := Tally(b, assignments);
    assert UniqueIds(b);
    assert ca == cb && ta == tb;
  }

  /** Past validation, the simulation only reads the servers' ids, names,
      latencies and weights. */
  lemma SimulateIgnoresInputCounters(c: SimConfig, c': SimConfig, strategy: Strategy, stdRng: DrawFn)
    requires SameStatic(c.servers, c'.servers)
    requires c.requests == c'.requests && c.tieBreak == c'.tieBreak
    requires Valid(c) && Valid(c')
    requires Ready(strategy, c.servers) && Ready(strategy, c'.servers)
    ensures Simulate(c, strategy, stdRng) == Simulate(c', strategy, stdRng)
  {
    assert Init(c.servers) == Init(c'.servers);
    var st := Final(c, strategy, stdRng);
    TallySameIds(c.servers, c'.servers, st.assignments);
  }

  /** A run only reads the servers' ids, names, latencies and weights: the
      active-connection and pick counters of the input are reset before the
      loop and cannot change the result. */
  lemma RunIgnoresInputCounters(c: SimConfig, c': SimConfig, strategy: Strategy, stdRng: DrawFn)
    requires SameStatic(c.servers, c'.servers)
    requires c.requests == c'.requests && c.tieBreak == c'.tieBreak
    requires Valid(c) ==> Ready(strategy, c.servers)
    ensures Valid(c') ==> Ready(strategy, c'.servers)
    ensures Run(c, strategy, stdRng) == Run(c', strategy, stdRng)
  {
    if 0 < |c.servers| && 0 < c.requests {
      assert c.servers[..0] == [] && c'.servers[..0] == [];
      FirstDuplicateSameIds(c.servers, c'.servers, 0, {});
    }
    if Valid(c) {
      ReadyStable(strategy, strategy, c.servers, c'.servers);
      SimulateIgnoresInputCounters(c, c', strategy, stdRng);
    }
  }
}
