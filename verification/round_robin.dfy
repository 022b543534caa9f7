/** Round robin: a cursor over the server indices, advanced by one per call
    and wrapped at the number of servers. No tie-break draw, no score. */
module RoundRobin {
  import opened Types
  import opened Counting

  /** A freshly built strategy starts at index 0. */
  const Fresh: nat := 0

  /** One call on cursor `nextIdx`: the chosen index and the next cursor. */
  function Select(nextIdx: nat, servers: seq<ServerState>): (r: (Selection, nat))
    requires 0 < |servers|
    ensures r.0.serverIndex < |servers| && r.1 < |servers|
    ensures r.0.score == None
    ensures r.0.serverIndex == nextIdx % |servers| && r.1 == (nextIdx + 1) % |servers|
    ensures nextIdx < |servers| ==> r.0.serverIndex == nextIdx
    ensures r.1 == (r.0.serverIndex + 1) % |servers|
  {
    var n := |servers|;
    ModSucc(nextIdx, n);
    (Selection(nextIdx % n, None), (nextIdx + 1) % n)
  }

  /** `k` successive calls from cursor `nextIdx`: the chosen indices, in call
      order, and the cursor left behind. */
  function Calls(nextIdx: nat, servers: seq<ServerState>, k: nat): (r: (seq<nat>, nat))
    requires 0 < |servers|
    ensures |r.0| == k
  {
    if k == 0 then ([], nextIdx)
    else
      var (picks, cursor) := Calls(nextIdx, servers, k - 1);
      var (sel, cursor') := Select(cursor, servers);
      (picks + [sel.serverIndex], cursor')
  }

  /** From a fresh strategy the call numbered j (from 0) picks `j mod N`, and
      after k calls the cursor is `k mod N`. */
  lemma {:induction false} CallsFromFresh(servers: seq<ServerState>, k: nat)
    requires 0 < |servers|
    ensures Calls(Fresh, servers, k).1 == k % |servers|
    ensures forall j :: 0 <= j < k ==> Calls(Fresh, servers, k).0[j] == j % |servers|
  {
    if k > 0 {
      CallsFromFresh(servers, k - 1);
      var (picks, cursor) := Calls(Fresh, servers, k - 1);
      ModSucc(k - 1, |servers|);
    }
  }

  /** Over k calls from a fresh strategy, index i is chosen `k div N` times,
      plus once more when i is below `k mod N`. */
  lemma {:induction false} CallsCount(servers: seq<ServerState>, k: nat, i: nat)
    requires i < |servers|
    ensures Count(Calls(Fresh, servers, k).0, i)
            == k / |servers| + (if i < k % |servers| then 1 else 0)
  {
    if k > 0 {
      var prev := Calls(Fresh, servers, k - 1).0;
      CallsCount(servers, k - 1, i);
      CallsSnoc(servers, k - 1);
      CountSnoc(prev, (k - 1) % |servers|, i);
      CountStep(k - 1, |servers|, i);
    }
  }

  /** Call number k (from 0) of a fresh strategy appends `k mod N`. */
  lemma CallsSnoc(servers: seq<ServerState>, k: nat)
    requires 0 < |servers|
    ensures Calls(Fresh, servers, k + 1).0 == Calls(Fresh, servers, k).0 + [k % |servers|]
  {
    CallsFromFresh(servers, k);
  }

  lemma CountStep(k: nat, n: nat, i: nat)
    requires i < n
    ensures k / n + (if i < k % n then 1 else 0) + (if k % n == i then 1 else 0)
            == (k + 1) / n + (if i < (k + 1) % n then 1 else 0)
  {
    DivModSucc(k, n);
    var q, r := k / n, k % n;
    if r + 1 < n {
      assert (k + 1) / n == q && (k + 1) % n == r + 1;
    } else {
      assert (k + 1) / n == q + 1 && (k + 1) % n == 0;
    }
  }

  /** Round-robin fairness: every index is chosen floor(k/N) or ceil(k/N) times. */
  lemma Fairness(servers: seq<ServerState>, k: nat, i: nat)
    requires i < |servers|
    ensures var c := Count(Calls(Fresh, servers, k).0, i);
            c == k / |servers| || (c == k / |servers| + 1 && k % |servers| != 0)
  {
    CallsCount(servers, k, i);
  }

  /** Three servers, four calls: 0, 1, 2, 0. */
  lemma ThreeServersCycle(servers: seq<ServerState>)
    requires |servers| == 3
    ensures Calls(Fresh, servers, 4).0 == [0, 1, 2, 0]
  {
    CallsFromFresh(servers, 4);
  }
}
