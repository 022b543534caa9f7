/** The summary fold at the end of a run: the assignments are tallied per
    server (through the id-to-index map built during validation) into a
    request count and a total response time, and each server's summary
    carries its count and the integer mean response time. */
module Summary {
  import opened Types

  // ------------------------------------------------------------- id lookup

  /** The position of the server with id `id` (the first one, should ids
      repeat). */
  function IndexOf(servers: seq<ServerState>, id: nat): (r: Option<nat>)
    ensures r.Some? ==> r.value < |servers| && servers[r.value].id == id
    ensures r.None? ==> forall j :: 0 <= j < |servers| ==> servers[j].id != id
    ensures r.Some? ==> forall j :: 0 <= j < r.value ==> servers[j].id != id
  {
    if |servers| == 0 then None
    else if servers[0].id == id then Some(0)
    else match IndexOf(servers[1..], id)
      case None => None
      case Some(k) => Some(k + 1)
  }

  lemma IndexOfUnique(servers: seq<ServerState>, k: nat)
    requires UniqueIds(servers) && k < |servers|
    ensures IndexOf(servers, servers[k].id) == Some(k)
  {
  }

  lemma IndexOfSameStatic(a: seq<ServerState>, b: seq<ServerState>, id: nat)
    requires SameStatic(a, b)
    ensures IndexOf(a, id) == IndexOf(b, id)
  {
  }

  // --------------------------------------------------------------- counting

  /** Number of assignments routed to the server with id `id`. */
  function CountId(assignments: seq<Assignment>, id: nat): nat {
    if |assignments| == 0 then 0
    else
      CountId(assignments[..|assignments| - 1], id)
      + (if assignments[|assignments| - 1].serverId == id then 1 else 0)
  }

  lemma CountIdSnoc(assignments: seq<Assignment>, a: Assignment, id: nat)
    ensures CountId(assignments + [a], id)
            == CountId(assignments, id) + (if a.serverId == id then 1 else 0)
  {
    assert (assignments + [a])[..|assignments|] == assignments;
  }

  // ------------------------------------------------------------------- tally

  /** Total response time of the assignments routed to server `id`. */
  function ResponseSum(assignments: seq<Assignment>, id: nat): nat
    requires forall j :: 0 <= j < |assignments| ==> assignments[j].startedAt <= assignments[j].completedAt
  {
    if |assignments| == 0 then 0
    else
      var a := assignments[|assignments| - 1];
      ResponseSum(assignments[..|assignments| - 1], id)
      + (if a.serverId == id then a.completedAt - a.startedAt else 0)
  }

  /** The fold over the assignments, in order: per server index, the number
      of requests and the total response time. Every assignment's server id
      must be known and its completion must not precede its start; the
      program panics otherwise, and the engine's own assignments always
      qualify. */
  function Tally(servers: seq<ServerState>, assignments: seq<Assignment>): (r: (seq<nat>, seq<nat>))
    requires forall j :: 0 <= j < |assignments| ==>
               IndexOf(servers, assignments[j].serverId).Some?
               && assignments[j].startedAt <= assignments[j].completedAt
    ensures |r.0| == |servers| && |r.1| == |servers|
    ensures UniqueIds(servers) ==> forall i :: 0 <= i < |servers| ==>
              && r.0[i] == CountId(assignments, servers[i].id)
              && r.1[i] == ResponseSum(assignments, servers[i].id)
  {
    if |assignments| == 0 then
      (seq(|servers|, _ => 0), seq(|servers|, _ => 0))
    else
      var a := assignments[|assignments| - 1];
      var (counts, totals) := Tally(servers, assignments[..|assignments| - 1]);
      assert a == assignments[|assignments| - 1];
      var idx := IndexOf(servers, a.serverId).value;
      (counts[idx := counts[idx] + 1], totals[idx := totals[idx] + (a.completedAt - a.startedAt)])
  }

  /** The integer mean of `count` response times adding up to `total`, and 0
      for a server that served nothing. */
  function AverageMs(total: nat, count: nat): (avg: nat)
    ensures count == 0 ==> avg == 0
    ensures 0 < count ==> avg * count <= total < (avg + 1) * count
  {
    if count == 0 then 0 else total / count
  }

  /** When every request a server served took `latency`, its mean is
      `latency`. */
  lemma AverageOfUniform(latency: nat, count: nat)
    requires 0 < count
    ensures AverageMs(latency * count, count) == latency
  {
    var avg := AverageMs(latency * count, count);
    if avg < latency {
      assert (avg + 1) * count <= latency * count by {
        MulLe(avg + 1, latency, count);
      }
    } else if latency < avg {
      assert (latency + 1) * count <= avg * count by {
        MulLe(latency + 1, avg, count);
      }
    }
  }

  lemma MulLe(a: nat, b: nat, c: nat)
    requires a <= b
    ensures a * c <= b * c
  {
  }

  /** If every assignment of server `id` took `latency`, the total is
      `latency` times their number. */
  lemma {:induction false} ResponseSumUniform(assignments: seq<Assignment>, id: nat, latency: nat)
    requires forall j :: 0 <= j < |assignments| ==> assignments[j].startedAt <= assignments[j].completedAt
    requires forall j :: 0 <= j < |assignments| && assignments[j].serverId == id ==>
               assignments[j].completedAt == assignments[j].startedAt + latency
    ensures ResponseSum(assignments, id) == latency * CountId(assignments, id)
  {
    if |assignments| > 0 {
      ResponseSumUniform(assignments[..|assignments| - 1], id, latency);
    }
  }

  /** One summary per server, in server order. */
  function Summaries(servers: seq<ServerState>, counts: seq<nat>, totals: seq<nat>): (r: seq<ServerSummary>)
    requires |counts| == |servers| && |totals| == |servers|
    ensures |r| == |servers|
    ensures forall i :: 0 <= i < |r| ==> r[i].name == servers[i].name && r[i].requests == counts[i]
    ensures forall i :: 0 <= i < |r| ==> r[i].avgResponseMs == AverageMs(totals[i], counts[i])
  {
    seq(|servers|, i requires 0 <= i < |servers| =>
      ServerSummary(servers[i].name, counts[i], AverageMs(totals[i], counts[i])))
  }

  function SumRequests(totals: seq<ServerSummary>): nat {
    if |totals| == 0 then 0 else totals[0].requests + SumRequests(totals[1..])
  }
}
