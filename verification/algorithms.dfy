/** The selection-strategy abstraction: a closed sum over the four
    algorithms, each a step function from (its own state, the read-only
    server list, the tie-break source) to (a selection, its next state, the
    source afterwards). Server state is not an output, so a strategy cannot
    change it. */
module Algorithms {
  import opened Types
  import opened Randomness
  import RoundRobin
  import WeightedRoundRobin
  import LeastConnections

  datatype Algorithm = RoundRobin | WeightedRoundRobin | LeastConnections | LeastResponseTime

  /** The least-response-time step. Its scoring rule is not part of this
      model; all that is kept is that it picks an index of a non-empty
      server list and only draws from the source it is handed, which it
      cannot replace. */
  type ResponseTimeStep = f: (seq<ServerState>, TieBreakSource) -> (Selection, TieBreakSource)
    | forall servers: seq<ServerState>, src: TieBreakSource ::
        && (0 < |servers| ==> f(servers, src).0.serverIndex < |servers|)
        && SameSource(src, f(servers, src).1)
    witness (servers: seq<ServerState>, src: TieBreakSource) => (Selection(0, None), src)

  datatype Strategy =
    | RoundRobinStrategy(nextIdx: nat)
    | WeightedRoundRobinStrategy(cursor: nat)
    | LeastConnectionsStrategy
    | LeastResponseTimeStrategy(step: ResponseTimeStep)

  function AlgorithmOf(s: Strategy): Algorithm {
    match s
    case RoundRobinStrategy(_) => RoundRobin
    case WeightedRoundRobinStrategy(_) => WeightedRoundRobin
    case LeastConnectionsStrategy => LeastConnections
    case LeastResponseTimeStrategy(_) => LeastResponseTime
  }

  /** A fresh strategy for `algo`; `responseTime` is the least-response-time
      step. */
  function BuildStrategy(algo: Algorithm, responseTime: ResponseTimeStep): (s: Strategy)
    ensures AlgorithmOf(s) == algo
    ensures s.RoundRobinStrategy? ==> s.nextIdx == RoundRobin.Fresh
    ensures s.WeightedRoundRobinStrategy? ==> s.cursor == WeightedRoundRobin.Fresh
  {
    match algo
    case RoundRobin => RoundRobinStrategy(RoundRobin.Fresh)
    case WeightedRoundRobin => WeightedRoundRobinStrategy(WeightedRoundRobin.Fresh)
    case LeastConnections => LeastConnectionsStrategy
    case LeastResponseTime => LeastResponseTimeStrategy(responseTime)
  }

  /** What `Select` needs of the server list to avoid a division by zero or
      an empty range: at least one server, and positive total weight for
      weighted round robin. */
  predicate Ready(s: Strategy, servers: seq<ServerState>) {
    && 0 < |servers|
    && (s.WeightedRoundRobinStrategy? ==> 0 < WeightedRoundRobin.TotalWeight(servers))
  }

  /** Readiness only depends on the kind of strategy and on the servers'
      weights. */
  lemma ReadyStable(s: Strategy, s': Strategy, servers: seq<ServerState>, servers': seq<ServerState>)
    requires Ready(s, servers)
    requires AlgorithmOf(s') == AlgorithmOf(s)
    requires SameStatic(servers, servers')
    ensures Ready(s', servers')
  {
    WeightedRoundRobin.PrefixSameWeights(servers, servers', |servers|);
  }

  /** One decision. */
  function Select(s: Strategy, servers: seq<ServerState>, src: TieBreakSource)
    : (r: (Selection, Strategy, TieBreakSource))
    requires Ready(s, servers)
    ensures r.0.serverIndex < |servers|
    ensures AlgorithmOf(r.1) == AlgorithmOf(s)
    ensures !s.LeastResponseTimeStrategy? ==> r.0.score == None
    ensures s.RoundRobinStrategy? || s.WeightedRoundRobinStrategy? ==> r.2 == src
    ensures SameSource(src, r.2)
    ensures s.LeastConnectionsStrategy? || s.LeastResponseTimeStrategy? ==> r.1 == s
    ensures s.RoundRobinStrategy? ==> r.1.nextIdx < |servers|
    ensures s.WeightedRoundRobinStrategy? ==> r.1.cursor < WeightedRoundRobin.TotalWeight(servers)
    ensures s.RoundRobinStrategy? ==>
              r.0.serverIndex == s.nextIdx % |servers| && r.1.nextIdx == (s.nextIdx + 1) % |servers|
    ensures s.RoundRobinStrategy? && s.nextIdx < |servers| ==>
              r.0.serverIndex == s.nextIdx && r.1.nextIdx == (s.nextIdx + 1) % |servers|
    ensures s.LeastConnectionsStrategy? ==> forall k :: 0 <= k < |servers| ==>
              servers[r.0.serverIndex].activeConnections <= servers[k].activeConnections
    ensures s.LeastConnectionsStrategy? && src.StableSource? ==>
              r.2 == src && forall k :: 0 <= k < r.0.serverIndex ==>
                servers[r.0.serverIndex].activeConnections < servers[k].activeConnections
  {
    match s
    case RoundRobinStrategy(nextIdx) =>
      var (sel, next) := RoundRobin.Select(nextIdx, servers);
      (sel, RoundRobinStrategy(next), src)
    case WeightedRoundRobinStrategy(cursor) =>
      var (sel, next) := WeightedRoundRobin.Select(cursor, servers);
      (sel, WeightedRoundRobinStrategy(next), src)
    case LeastConnectionsStrategy =>
      var (sel, src') := LeastConnections.Select(servers, src);
      (sel, s, src')
    case LeastResponseTimeStrategy(step) =>
      var (sel, src') := step(servers, src);
      (sel, s, src')
  }
}
