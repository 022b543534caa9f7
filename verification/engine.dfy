/** The discrete-event simulation engine: validation, initialisation, the
    event loop and the summary fold. */
module Engine {
  import opened Types
  import opened Randomness
  import opened EventQueue
  import opened Algorithms

  /** Everything the engine owns during a run. `nextSeq` is the insertion
      sequence number the next scheduled event receives. */
  datatype EngineState = EngineState(
    timeMs: nat,
    servers: seq<ServerState>,
    assignments: seq<Assignment>,
    events: seq<ScheduledEvent>,
    nextSeq: nat,
    strategy: Strategy,
    rng: TieBreakSource)

  // ---------------------------------------------------------------- validation

  function IdsOf(servers: seq<ServerState>): set<nat> {
    set k | 0 <= k < |servers| :: servers[k].id
  }

  /** Index `j` is the first whose id repeats an earlier server's id. */
  predicate FirstRepeat(servers: seq<ServerState>, j: nat) {
    && j < |servers|
    && UniqueIds(servers[..j])
    && exists i :: 0 <= i < j && servers[i].id == servers[j].id
  }

  /** The id-uniqueness loop from position `idx`, with `seen` the ids met so
      far: the index of the first repeated id, if any. */
  function FirstDuplicateFrom(servers: seq<ServerState>, idx: nat, seen: set<nat>): (r: Option<nat>)
    requires idx <= |servers|
    requires seen == IdsOf(servers[..idx]) && UniqueIds(servers[..idx])
    ensures r.None? <==> UniqueIds(servers)
    ensures r.Some? ==> idx <= r.value && FirstRepeat(servers, r.value)
    decreases |servers| - idx
  {
    if idx == |servers| then
      assert servers[..idx] == servers;
      None
    else if servers[idx].id in seen then
      var i :| 0 <= i < idx && servers[..idx][i].id == servers[idx].id;
      assert servers[i].id == servers[idx].id;
      Some(idx)
    else
      var seen' := seen + {servers[idx].id};
      assert servers[..idx + 1] == servers[..idx] + [servers[idx]];
      assert seen' == IdsOf(servers[..idx + 1]);
      FirstDuplicateFrom(servers, idx + 1, seen')
  }

  /** The three checks, in order, before anything else happens. */
  function Validate(c: SimConfig): (r: Option<SimError>)
    ensures r == Some(EmptyServers) <==> |c.servers| == 0
    ensures r == Some(RequestsZero) <==> 0 < |c.servers| && c.requests == 0
    ensures (r.Some? && r.value.DuplicateServerId?)
              <==> 0 < |c.servers| && 0 < c.requests && !UniqueIds(c.servers)
    ensures r.Some? && r.value.DuplicateServerId? ==>
              exists j: nat :: FirstRepeat(c.servers, j) && r.value.id == c.servers[j].id
  {
    if |c.servers| == 0 then Some(EmptyServers)
    else if c.requests == 0 then Some(RequestsZero)
    else
      assert c.servers[..0] == [];
      match FirstDuplicateFrom(c.servers, 0, {})
      case Some(j) => Some(DuplicateServerId(c.servers[j].id))
      case None => None
  }

  predicate Valid(c: SimConfig) {
    0 < |c.servers| && 0 < c.requests && UniqueIds(c.servers)
  }

  // ------------------------------------------------------------ initialisation

  /** The run's copy of the servers with both counters reset. */
  function Init(servers: seq<ServerState>): (r: seq<ServerState>)
    ensures SameStatic(servers, r)
    ensures forall i :: 0 <= i < |r| ==> r[i].activeConnections == 0 && r[i].pickCount == 0
  {
    seq(|servers|, i requires 0 <= i < |servers| =>
      servers[i].(activeConnections := 0, pickCount := 0))
  }

  /** The arrival of the request at offset `k`: request id k+1, time k,
      sequence number k. */
  function ArrivalAt(k: nat): ScheduledEvent {
    ScheduledEvent(k, RequestArrival(k + 1), k)
  }

  /** The arrivals of the requests at offsets `from` .. `requests - 1`. */
  function PendingArrivals(from: nat, requests: nat): (q: seq<ScheduledEvent>)
    requires from <= requests
    ensures |q| == requests - from
    ensures forall j :: 0 <= j < |q| ==> q[j] == ArrivalAt(from + j)
  {
    seq(requests - from, j requires 0 <= j => ArrivalAt(from + j))
  }

  function Start(c: SimConfig, strategy: Strategy, stdRng: DrawFn): EngineState {
    EngineState(0, Init(c.servers), [], PendingArrivals(0, c.requests), c.requests,
                strategy, SourceFor(c.tieBreak, stdRng))
  }

  // ---------------------------------------------------------------- event loop

  /** Pending work: every queued event costs one pop, and a queued arrival
      costs one more for the completion it will schedule. */
  function Measure(q: seq<ScheduledEvent>): nat {
    |q| + |Arrivals(q)|
  }

  function SaturatingDecrement(n: nat): nat {
    if n == 0 then 0 else n - 1
  }

  /** Pop the earliest event and process it. */
  function Step(st: EngineState): (r: EngineState)
    requires 0 < |st.events|
    requires Ready(st.strategy, st.servers)
    ensures SameStatic(st.servers, r.servers)
    ensures AlgorithmOf(r.strategy) == AlgorithmOf(st.strategy)
    ensures r.timeMs == st.events[0].timeMs
    ensures SameSource(st.rng, r.rng)
    ensures Measure(r.events) + 1 == Measure(st.events)
    ensures st.events[0].event.RequestComplete? ==>
              var idx := st.events[0].event.serverIndex;
              && r.events == st.events[1..]
              && r.assignments == st.assignments
              && r.strategy == st.strategy && r.rng == st.rng
              && (forall i :: 0 <= i < |st.servers| && i != idx ==> r.servers[i] == st.servers[i])
              && (idx < |st.servers| ==>
                    && r.servers[idx].activeConnections
                         == SaturatingDecrement(st.servers[idx].activeConnections)
                    && r.servers[idx].pickCount == st.servers[idx].pickCount)
    ensures st.events[0].event.RequestArrival? ==>
              var e := st.events[0];
              var choice := Select(st.strategy, st.servers, st.rng);
              var k := choice.0.serverIndex;
              var s := st.servers[k];
              && (forall i :: 0 <= i < |st.servers| && i != k ==> r.servers[i] == st.servers[i])
              && r.servers[k].activeConnections == s.activeConnections + 1
              && r.servers[k].pickCount == s.pickCount + 1
              && r.assignments == st.assignments + [Assignment(
                   e.event.requestId, s.id, s.name, choice.0.score, e.timeMs, e.timeMs + s.baseLatencyMs)]
              && r.events == Push(st.events[1..],
                   ScheduledEvent(e.timeMs + s.baseLatencyMs,
                                  RequestComplete(k, e.event.requestId), st.nextSeq))
              && r.strategy == choice.1 && r.rng == choice.2
  {
    var e := st.events[0];
    var rest := st.events[1..];
    assert st.events == [e] + rest;
    match e.event
    case RequestComplete(idx, _) =>
      var servers :=
        if idx < |st.servers| then
          st.servers[idx := st.servers[idx].(
            activeConnections := SaturatingDecrement(st.servers[idx].activeConnections))]
        else st.servers;
      st.(timeMs := e.timeMs, servers := servers, events := rest)
    case RequestArrival(requestId) =>
      var choice := Select(st.strategy, st.servers, st.rng);
      var k := choice.0.serverIndex;
      var s := st.servers[k];
      var startedAt := e.timeMs;
      var completedAt := startedAt + s.baseLatencyMs;
      var done := ScheduledEvent(completedAt, RequestComplete(k, requestId), st.nextSeq);
      PushCompletion(rest, done, 0);
      EngineState(
        startedAt,
        st.servers[k := s.(activeConnections := s.activeConnections + 1,
                           pickCount := s.pickCount + 1)],
        st.assignments + [Assignment(requestId, s.id, s.name, choice.0.score, startedAt, completedAt)],
        Push(rest, done),
        st.nextSeq + 1,
        choice.1,
        choice.2)
  }

  /** Pop events until the queue is empty. */
  function Drain(st: EngineState): (r: EngineState)
    requires Ready(st.strategy, st.servers)
    ensures |r.events| == 0
    ensures SameStatic(st.servers, r.servers)
    ensures AlgorithmOf(r.strategy) == AlgorithmOf(st.strategy)
    ensures SameSource(st.rng, r.rng)
    decreases Measure(st.events)
  {
    if |st.events| == 0 then st
    else
      var next := Step(st);
      ReadyStable(st.strategy, next.strategy, st.servers, next.servers);
      var r := Drain(next);
      SameStaticTrans(st.servers, next.servers, r.servers);
      SameSourceTrans(st.rng, next.rng, r.rng);
      r
  }

  /** The state after `n` pops, or earlier once the queue is empty: the
      state the loop is in when it pops event number `n` (from 0). */
  function Advance(st: EngineState, n: nat): (r: EngineState)
    requires Ready(st.strategy, st.servers)
    ensures Ready(r.strategy, r.servers)
    ensures SameStatic(st.servers, r.servers)
    ensures SameSource(st.rng, r.rng)
    decreases n
  {
    if n == 0 || |st.events| == 0 then st
    else
      var next := Step(st);
      ReadyStable(st.strategy, next.strategy, st.servers, next.servers);
      var r := Advance(next, n - 1);
      SameStaticTrans(st.servers, next.servers, r.servers);
      SameSourceTrans(st.rng, next.rng, r.rng);
      r
  }

  /** Advancing by as many pops as the loop makes is running the loop. */
  lemma {:induction false} AdvanceAll(st: EngineState)
    requires Ready(st.strategy, st.servers)
    ensures Advance(st, Pops(st)) == Drain(st)
    decreases Measure(st.events)
  {
    if 0 < |st.events| {
      var next := Step(st);
      ReadyStable(st.strategy, next.strategy, st.servers, next.servers);
      AdvanceAll(next);
    }
  }

  /** How many events `Drain` pops. */
  function Pops(st: EngineState): (n: nat)
    requires Ready(st.strategy, st.servers)
    ensures n == |st.events| + |Arrivals(st.events)|
    decreases Measure(st.events)
  {
    if |st.events| == 0 then 0
    else
      var next := Step(st);
      ReadyStable(st.strategy, next.strategy, st.servers, next.servers);
      1 + Pops(next)
  }
}
