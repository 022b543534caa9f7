/** Weighted round robin: a cursor over the total weight space, advanced by
    one per call and wrapped at the total weight; the chosen server is the
    first whose running weight sum exceeds the cursor's current value.
    Within one cycle each server's picks come as one block, in input order.
    No tie-break draw, no score. */
module WeightedRoundRobin {
  import opened Types
  import opened Counting

  /** A freshly built strategy starts with cursor 0. */
  const Fresh: nat := 0

  /** Sum of the weights of the first `i` servers. */
  function PrefixWeight(servers: seq<ServerState>, i: nat): nat
    requires i <= |servers|
  {
    if i == 0 then 0 else PrefixWeight(servers, i - 1) + servers[i - 1].weight
  }

  function TotalWeight(servers: seq<ServerState>): nat {
    PrefixWeight(servers, |servers|)
  }

  lemma {:induction false} PrefixMono(servers: seq<ServerState>, i: nat, j: nat)
    requires i <= j <= |servers|
    ensures PrefixWeight(servers, i) <= PrefixWeight(servers, j)
    decreases j
  {
    if i < j {
      PrefixMono(servers, i, j - 1);
    }
  }

  /** The weight sums only depend on the weights. */
  lemma {:induction false} PrefixSameWeights(a: seq<ServerState>, b: seq<ServerState>, i: nat)
    requires |a| == |b| && i <= |a|
    requires forall k :: 0 <= k < |a| ==> a[k].weight == b[k].weight
    ensures PrefixWeight(a, i) == PrefixWeight(b, i)
  {
    if i > 0 {
      PrefixSameWeights(a, b, i - 1);
    }
  }

  /** At most one server's weight interval contains a given point. */
  lemma OwnerUnique(servers: seq<ServerState>, t: nat, a: nat, b: nat)
    requires a < |servers| && b < |servers|
    requires PrefixWeight(servers, a) <= t < PrefixWeight(servers, a + 1)
    requires PrefixWeight(servers, b) <= t < PrefixWeight(servers, b + 1)
    ensures a == b
  {
    if a < b {
      PrefixMono(servers, a + 1, b);
    } else if b < a {
      PrefixMono(servers, b + 1, a);
    }
  }

  /** The search loop from position `idx`, whose running sum is `sum`: add
      each weight in turn and stop at the first server whose running sum
      exceeds `target`; 0 if there is none. */
  function ScanFrom(servers: seq<ServerState>, target: nat, idx: nat, sum: nat): (r: nat)
    requires idx <= |servers|
    requires sum == PrefixWeight(servers, idx) && sum <= target
    ensures target < TotalWeight(servers) ==>
              && idx <= r < |servers|
              && PrefixWeight(servers, r) <= target < PrefixWeight(servers, r + 1)
    ensures TotalWeight(servers) <= target ==> r == 0
    decreases |servers| - idx
  {
    if idx == |servers| then 0
    else
      var sum' := sum + servers[idx].weight;
      if target < sum' then
        PrefixMono(servers, idx + 1, |servers|);
        idx
      else
        ScanFrom(servers, target, idx + 1, sum')
  }

  /** The server owning weight point `target`. */
  function Search(servers: seq<ServerState>, target: nat): (r: nat)
    ensures target < TotalWeight(servers) ==>
              r < |servers| && PrefixWeight(servers, r) <= target < PrefixWeight(servers, r + 1)
  {
    ScanFrom(servers, target, 0, 0)
  }

  /** One call on cursor `cursor`: the chosen index and the next cursor. */
  function Select(cursor: nat, servers: seq<ServerState>): (r: (Selection, nat))
    requires 0 < TotalWeight(servers)
    ensures r.0.serverIndex < |servers| && r.1 < TotalWeight(servers)
    ensures r.0.score == None
    ensures var t := cursor % TotalWeight(servers);
            PrefixWeight(servers, r.0.serverIndex) <= t < PrefixWeight(servers, r.0.serverIndex + 1)
    ensures r.1 == (cursor % TotalWeight(servers) + 1) % TotalWeight(servers)
  {
    var total := TotalWeight(servers);
    var target := cursor % total;
    ModSucc(cursor, total);
    (Selection(Search(servers, target), None), (cursor + 1) % total)
  }

  /** `k` successive calls from `cursor`: the chosen indices and the cursor
      left behind. */
  function Calls(cursor: nat, servers: seq<ServerState>, k: nat): (r: (seq<nat>, nat))
    requires 0 < TotalWeight(servers)
    ensures |r.0| == k
  {
    if k == 0 then ([], cursor)
    else
      var (picks, c) := Calls(cursor, servers, k - 1);
      var (sel, c') := Select(c, servers);
      (picks + [sel.serverIndex], c')
  }

  /** From a fresh strategy, call number j (from 0) picks the owner of weight
      point `j mod total`. */
  lemma {:induction false} CallsFromFresh(servers: seq<ServerState>, k: nat)
    requires 0 < TotalWeight(servers)
    ensures Calls(Fresh, servers, k).1 == k % TotalWeight(servers)
    ensures forall j :: 0 <= j < k ==>
              Calls(Fresh, servers, k).0[j] == Search(servers, j % TotalWeight(servers))
  {
    if k > 0 {
      var total := TotalWeight(servers);
      CallsFromFresh(servers, k - 1);
      var (picks, c) := Calls(Fresh, servers, k - 1);
      assert c == (k - 1) % total;
      ModIdentity(c, total);
      ModSucc(k - 1, total);
      var (sel, c') := Select(c, servers);
      assert Calls(Fresh, servers, k) == (picks + [sel.serverIndex], c');
    }
  }

  lemma ModIdentity(x: nat, n: nat)
    requires x < n
    ensures x % n == x
  {
  }

  /** Block order over the first `m` servers: server 0 repeated weight_0
      times, then server 1 repeated weight_1 times, and so on. */
  function BlockUpTo(servers: seq<ServerState>, m: nat): (b: seq<nat>)
    requires m <= |servers|
    ensures |b| == PrefixWeight(servers, m)
  {
    if m == 0 then []
    else
      var prev := BlockUpTo(servers, m - 1);
      prev + Repeat<nat>(m - 1, servers[m - 1].weight)
  }

  /** Position j of the block order belongs to the server whose weight
      interval contains j. */
  lemma {:induction false} BlockOwner(servers: seq<ServerState>, m: nat, j: nat)
    requires m <= |servers| && j < PrefixWeight(servers, m)
    ensures var b := BlockUpTo(servers, m);
            b[j] < m && PrefixWeight(servers, b[j]) <= j < PrefixWeight(servers, b[j] + 1)
  {
    var prev := BlockUpTo(servers, m - 1);
    var run: seq<nat> := Repeat<nat>(m - 1, servers[m - 1].weight);
    assert BlockUpTo(servers, m) == prev + run;
    if j < |prev| {
      BlockOwner(servers, m - 1, j);
    } else {
      assert BlockUpTo(servers, m)[j] == run[j - |prev|] == m - 1;
    }
  }

  function Block(servers: seq<ServerState>): (b: seq<nat>) {
    BlockUpTo(servers, |servers|)
  }

  lemma {:induction false} BlockCount(servers: seq<ServerState>, m: nat, i: nat)
    requires m <= |servers|
    ensures Count(BlockUpTo(servers, m), i) == if i < m then servers[i].weight else 0
  {
    if m > 0 {
      var prev := BlockUpTo(servers, m - 1);
      var run: seq<nat> := Repeat<nat>(m - 1, servers[m - 1].weight);
      assert BlockUpTo(servers, m) == prev + run;
      BlockCount(servers, m - 1, i);
      CountAppend<nat>(prev, run, i);
      CountRepeat<nat>(m - 1, servers[m - 1].weight, i);
    }
  }

  /** One full cycle of `total` calls from a fresh strategy picks the servers
      in block order. */
  lemma CycleIsBlock(servers: seq<ServerState>)
    requires 0 < TotalWeight(servers)
    ensures Calls(Fresh, servers, TotalWeight(servers)).0 == Block(servers)
  {
    var total := TotalWeight(servers);
    var picks := Calls(Fresh, servers, total).0;
    var b := Block(servers);
    CallsFromFresh(servers, total);
    forall j | 0 <= j < total
      ensures picks[j] == b[j]
    {
      ModIdentity(j, total);
      BlockOwner(servers, |servers|, j);
      OwnerUnique(servers, j, picks[j], b[j]);
    }
  }

  /** Over one full cycle from a fresh strategy, server i is chosen exactly
      weight_i times. */
  lemma CycleCounts(servers: seq<ServerState>, i: nat)
    requires 0 < TotalWeight(servers) && i < |servers|
    ensures Count(Calls(Fresh, servers, TotalWeight(servers)).0, i) == servers[i].weight
  {
    CycleIsBlock(servers);
    BlockCount(servers, |servers|, i);
  }

  /** With weights 2 and 1, positions 0 and 1 of the cycle belong to server
      0 and position 2 to server 1. */
  lemma TwoToOneOwner(servers: seq<ServerState>, t: nat)
    requires |servers| == 2 && servers[0].weight == 2 && servers[1].weight == 1
    requires t < 3
    ensures TotalWeight(servers) == 3
    ensures Search(servers, t) == if t < 2 then 0 else 1
  {
    assert PrefixWeight(servers, 1) == 2;
    assert TotalWeight(servers) == 3;
    OwnerUnique(servers, t, Search(servers, t), if t < 2 then 0 else 1);
  }

  /** Weights 2 and 1 over six calls give 0, 0, 1, 0, 0, 1. */
  lemma TwoToOneExample(servers: seq<ServerState>)
    requires |servers| == 2 && servers[0].weight == 2 && servers[1].weight == 1
    ensures Calls(Fresh, servers, 6).0 == [0, 0, 1, 0, 0, 1]
  {
    TwoToOneOwner(servers, 0);
    CallsFromFresh(servers, 6);
    var picks := Calls(Fresh, servers, 6).0;
    forall j | 0 <= j < 6
      ensures picks[j] == if j % 3 < 2 then 0 else 1
    {
      TwoToOneOwner(servers, j % 3);
    }
    assert picks[0] == 0 && picks[1] == 0 && picks[2] == 1;
    assert picks[3] == 0 && picks[4] == 0 && picks[5] == 1;
  }
}
