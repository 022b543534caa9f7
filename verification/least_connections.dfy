/** Least connections: one pass over the servers collecting every index
    whose active-connection count equals the running minimum; a single
    candidate is returned outright, several are tie-broken by one bounded
    draw. No score. */
module LeastConnections {
  import opened Types
  import opened Randomness

  predicate StrictlyIncreasing(s: seq<nat>) {
    forall i, j :: 0 <= i < j < |s| ==> s[i] < s[j]
  }

  /** `m` is the smallest active-connection count among `servers`. */
  predicate IsMinimum(servers: seq<ServerState>, m: nat) {
    && (exists k :: 0 <= k < |servers| && servers[k].activeConnections == m)
    && (forall k :: 0 <= k < |servers| ==> m <= servers[k].activeConnections)
  }

  /** The selection loop after visiting every server of `servers` in order:
      the running minimum (None before the first server, standing for the
      loop's initial maximal value) and the candidate list. A strictly
      smaller count restarts the list; an equal count extends it. */
  function Scan(servers: seq<ServerState>): (r: (Option<nat>, seq<nat>))
    ensures r.0.None? <==> |servers| == 0
    ensures r.0.None? ==> r.1 == []
    ensures r.0.Some? ==> IsMinimum(servers, r.0.value)
    ensures r.0.Some? ==> forall j :: j in r.1 <==>
              0 <= j < |servers| && servers[j].activeConnections == r.0.value
    ensures StrictlyIncreasing(r.1)
    ensures forall i :: 0 <= i < |r.1| ==> r.1[i] < |servers|
    decreases |servers|
  {
    if |servers| == 0 then (None, [])
    else
      var idx := |servers| - 1;
      var (min, cands) := Scan(servers[..idx]);
      var a := servers[idx].activeConnections;
      if min.None? || a < min.value then
        (Some(a), [idx])
      else if a == min.value then
        (min, cands + [idx])
      else
        (min, cands)
  }

  /** The indices of the servers with the fewest active connections, in
      ascending index order. */
  function Candidates(servers: seq<ServerState>): (c: seq<nat>)
    requires 0 < |servers|
    ensures 0 < |c| && StrictlyIncreasing(c)
    ensures forall j :: j in c ==> j < |servers| && IsMinimum(servers, servers[j].activeConnections)
    ensures forall j :: 0 <= j < |servers| && IsMinimum(servers, servers[j].activeConnections) ==> j in c
  {
    var (min, cands) := Scan(servers);
    assert exists k :: 0 <= k < |servers| && servers[k].activeConnections == min.value;
    cands
  }

  /** One call: the chosen index and the tie-break source afterwards. */
  function Select(servers: seq<ServerState>, src: TieBreakSource): (r: (Selection, TieBreakSource))
    requires 0 < |servers|
    ensures r.0.serverIndex < |servers|
    ensures r.0.serverIndex in Candidates(servers)
    ensures forall k :: 0 <= k < |servers| ==>
              servers[r.0.serverIndex].activeConnections <= servers[k].activeConnections
    ensures r.0.score == None
    ensures |Candidates(servers)| == 1 ==> r.1 == src
    ensures |Candidates(servers)| > 1 ==>
              var (d, src') := Draw(src, |Candidates(servers)|);
              r.0.serverIndex == Candidates(servers)[d] && r.1 == src'
    ensures src.StableSource? ==> r.1 == src
    ensures SameSource(src, r.1)
    ensures src.StableSource? ==> forall k :: 0 <= k < r.0.serverIndex ==>
              servers[r.0.serverIndex].activeConnections < servers[k].activeConnections
  {
    var cands := Candidates(servers);
    if |cands| == 1 then
      (Selection(cands[0], None), src)
    else
      var (d, src') := Draw(src, |cands|);
      (Selection(cands[d], None), src')
  }

  /** Counts 3, 1, 2 select index 1, whatever the source. */
  lemma PrefersFewestExample(servers: seq<ServerState>, src: TieBreakSource)
    requires |servers| == 3
    requires servers[0].activeConnections == 3
    requires servers[1].activeConnections == 1
    requires servers[2].activeConnections == 2
    ensures Select(servers, src).0.serverIndex == 1
  {
    var i := Select(servers, src).0.serverIndex;
    assert servers[i].activeConnections <= 1;
  }

  lemma {:induction false} IncreasingAtLeastIndex(c: seq<nat>, i: nat)
    requires StrictlyIncreasing(c) && i < |c|
    ensures i <= c[i]
  {
    if i > 0 {
      IncreasingAtLeastIndex(c, i - 1);
    }
  }

  /** Three servers tied at one connection: the choice is the candidate at
      the seeded generator's first draw over three. */
  lemma SeededTieExample(servers: seq<ServerState>, draw: DrawFn, state: nat)
    requires |servers| == 3
    requires forall k :: 0 <= k < 3 ==> servers[k].activeConnections == 1
    ensures Select(servers, SeededSource(draw, state)).0.serverIndex == draw(state, 3).0
  {
    var c := Candidates(servers);
    assert 0 in c && 1 in c && 2 in c;
    assert c == [0, 1, 2] by {
      assert forall i :: 0 <= i < |c| ==> c[i] < 3;
      IncreasingAtLeastIndex(c, |c| - 1);
      IncreasingAtLeastIndex(c, 1);
      IncreasingAtLeastIndex(c, 2);
    }
  }
}
