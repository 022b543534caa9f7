/** Records shared by the engine and the selection strategies. Times,
    counters and ids are unbounded naturals: the fixed-width integers of the
    program are not modelled. */
module Types {

  datatype Option<+T> = None | Some(value: T)

  /** One server of the pool, as the engine holds it during a run. */
  datatype ServerState = ServerState(
    id: nat,
    name: string,
    baseLatencyMs: nat,
    weight: nat,
    activeConnections: nat,
    pickCount: nat)

  /** How ties between equally good servers are broken. */
  datatype TieBreak = Stable | Seeded(seed: nat)

  /** The engine's input. */
  datatype SimConfig = SimConfig(servers: seq<ServerState>, requests: nat, tieBreak: TieBreak)

  /** The three validation failures the engine reports. */
  datatype SimError = EmptyServers | RequestsZero | DuplicateServerId(id: nat)

  datatype Result<+T> = Ok(value: T) | Err(error: SimError)

  /** A strategy's decision: an index into the server list and an optional score. */
  datatype Selection = Selection(serverIndex: nat, score: Option<nat>)

  /** Where one request went and when it started and finished. */
  datatype Assignment = Assignment(
    requestId: nat,
    serverId: nat,
    serverName: string,
    score: Option<nat>,
    startedAt: nat,
    completedAt: nat)

  datatype ServerSummary = ServerSummary(name: string, requests: nat, avgResponseMs: nat)

  datatype SimulationResult = SimulationResult(
    assignments: seq<Assignment>,
    totals: seq<ServerSummary>,
    tieBreak: TieBreak)

  /** Server ids are pairwise distinct. */
  predicate UniqueIds(servers: seq<ServerState>) {
    forall i, j :: 0 <= i < j < |servers| ==> servers[i].id != servers[j].id
  }

  /** Two server lists agree on everything except the two run counters. */
  predicate SameStatic(a: seq<ServerState>, b: seq<ServerState>) {
    && |a| == |b|
    && forall i :: 0 <= i < |a| ==>
         && a[i].id == b[i].id
         && a[i].name == b[i].name
         && a[i].baseLatencyMs == b[i].baseLatencyMs
         && a[i].weight == b[i].weight
  }

  lemma SameStaticTrans(a: seq<ServerState>, b: seq<ServerState>, c: seq<ServerState>)
    requires SameStatic(a, b) && SameStatic(b, c)
    ensures SameStatic(a, c)
  {
  }
}
