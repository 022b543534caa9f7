/** Whole runs with a particular strategy: round robin through the engine,
    and the concrete pools the repository's own tests exercise. */
module EndToEnd {
  import opened Types
  import opened Counting
  import opened Randomness
  import opened EventQueue
  import opened Algorithms
  import opened Engine
  import opened Summary
  import opened Simulation
  import RoundRobin

  // ------------------------------------------------- round robin, end to end

  /** While the engine runs round robin from a fresh cursor over servers
      `base`: the cursor equals the number of assignments mod N, and the
      request at offset j went to server j mod N. */
  ghost predicate RoundRobinInv(st: EngineState, base: seq<ServerState>) {
    && 0 < |base|
    && SameStatic(base, st.servers)
    && st.strategy == RoundRobinStrategy(|st.assignments| % |base|)
    && forall j :: 0 <= j < |st.assignments| ==> st.assignments[j].serverId == base[j % |base|].id
  }

  lemma RoundRobinStep(st: EngineState, base: seq<ServerState>)
    requires RoundRobinInv(st, base) && 0 < |st.events|
    ensures Ready(st.strategy, st.servers)
    ensures RoundRobinInv(Step(st), base)
  {
    if st.events[0].event.RequestArrival? {
      var n := |st.assignments|;
      var r := Step(st);
      assert r.assignments[n].serverId == base[n % |base|].id;
      ModSucc(n, |base|);
    }
  }

  lemma {:induction false} RoundRobinDrain(st: EngineState, base: seq<ServerState>)
    requires RoundRobinInv(st, base)
    ensures Ready(st.strategy, st.servers)
    ensures RoundRobinInv(Drain(st), base)
    decreases Measure(st.events)
  {
    if |st.events| > 0 {
      RoundRobinStep(st, base);
      RoundRobinDrain(Step(st), base);
    }
  }

  /** Round robin from a fresh strategy sends the request at offset j to the
      server at index j mod N. */
  lemma RoundRobinRun(c: SimConfig, stdRng: DrawFn)
    requires Valid(c)
    ensures var r := Run(c, RoundRobinStrategy(RoundRobin.Fresh), stdRng);
            && r.Ok?
            && forall j :: 0 <= j < |r.value.assignments| ==>
                 r.value.assignments[j].serverId == c.servers[j % |c.servers|].id
  {
    var st0 := Start(c, RoundRobinStrategy(RoundRobin.Fresh), stdRng);
    RoundRobinDrain(st0, c.servers);
  }

  /** The assignments follow the index sequence `picks`: then each server's
      assignment count is the number of times its index occurs there. */
  lemma {:induction false} CountIdFollows(assignments: seq<Assignment>, base: seq<ServerState>,
                                          picks: seq<nat>, m: nat, i: nat)
    requires UniqueIds(base) && i < |base| && m <= |assignments| && m <= |picks|
    requires forall j :: 0 <= j < m ==> picks[j] < |base| && assignments[j].serverId == base[picks[j]].id
    ensures CountId(assignments[..m], base[i].id) == Count(picks[..m], i)
  {
    if m > 0 {
      CountIdFollows(assignments, base, picks, m - 1, i);
      assert assignments[..m][..m - 1] == assignments[..m - 1];
      assert picks[..m][..m - 1] == picks[..m - 1];
    }
  }

  /** Assignments laid out in round-robin order give server i k div N of
      the k requests, plus one when i is below k mod N. */
  lemma {:induction false} RoundRobinCounts(assignments: seq<Assignment>, base: seq<ServerState>, i: nat)
    requires UniqueIds(base) && i < |base|
    requires forall j :: 0 <= j < |assignments| ==> assignments[j].serverId == base[j % |base|].id
    ensures CountId(assignments, base[i].id)
            == |assignments| / |base| + (if i < |assignments| % |base| then 1 else 0)
  {
    var k := |assignments|;
    var picks := RoundRobin.Calls(RoundRobin.Fresh, base, k).0;
    RoundRobin.CallsFromFresh(base, k);
    CountIdFollows(assignments, base, picks, k, i);
    assert assignments[..k] == assignments && picks[..k] == picks;
    RoundRobin.CallsCount(base, k, i);
  }

  /** Round-robin fairness, through the engine: with k requests over N
      servers, server i serves k div N requests, plus one when i is below
      k mod N. */
  lemma RoundRobinShare(c: SimConfig, stdRng: DrawFn, i: nat)
    requires Valid(c) && i < |c.servers|
    ensures var r := Run(c, RoundRobinStrategy(RoundRobin.Fresh), stdRng);
            && r.Ok?
            && r.value.totals[i].requests
                 == c.requests / |c.servers| + (if i < c.requests % |c.servers| then 1 else 0)
  {
    RoundRobinRun(c, stdRng);
    var r := Run(c, RoundRobinStrategy(RoundRobin.Fresh), stdRng).value;
    RoundRobinCounts(r.assignments, c.servers, i);
  }

  // ---------------------------------------------------------- concrete runs

  /** Servers "a" (10 ms) and "b" (20 ms), three requests, round robin, under
      any tie-break mode (seeds 42 and 99 alike): a, b, a; a served two
      requests at 10 ms on average and b one at 20 ms. */
  lemma RoundRobinTwoServers(c: SimConfig, stdRng: DrawFn)
    requires c.servers == [ServerState(0, "a", 10, 1, 0, 0), ServerState(1, "b", 20, 1, 0, 0)]
    requires c.requests == 3
    ensures var r := Run(c, RoundRobinStrategy(RoundRobin.Fresh), stdRng);
            && r.Ok?
            && |r.value.assignments| == 3
            && r.value.assignments[0].serverName == "a"
            && r.value.assignments[1].serverName == "b"
            && r.value.assignments[2].serverName == "a"
            && r.value.totals == [ServerSummary("a", 2, 10), ServerSummary("b", 1, 20)]
  {
    RoundRobinRun(c, stdRng);
    RoundRobinShare(c, stdRng, 0);
    RoundRobinShare(c, stdRng, 1);
    var r := Run(c, RoundRobinStrategy(RoundRobin.Fresh), stdRng).value;
    assert AssignmentOk(r.assignments[0], 0, c.servers);
    assert AssignmentOk(r.assignments[1], 1, c.servers);
    assert AssignmentOk(r.assignments[2], 2, c.servers);
  }

  /** Summaries come in input order, not sorted by name: servers z, a, m and
      one request give z 1 request at 10 ms, a and m none. */
  lemma SummaryInInputOrder(stdRng: DrawFn)
    ensures var c := SimConfig([ServerState(0, "z", 10, 1, 0, 0), ServerState(1, "a", 20, 1, 0, 0),
                                ServerState(2, "m", 30, 1, 0, 0)], 1, Stable);
            var r := Run(c, RoundRobinStrategy(RoundRobin.Fresh), stdRng);
            && r.Ok?
            && r.value.totals == [ServerSummary("z", 1, 10), ServerSummary("a", 0, 0), ServerSummary("m", 0, 0)]
  {
    var c := SimConfig([ServerState(0, "z", 10, 1, 0, 0), ServerState(1, "a", 20, 1, 0, 0),
                        ServerState(2, "m", 30, 1, 0, 0)], 1, Stable);
    RoundRobinShare(c, stdRng, 0);
    RoundRobinShare(c, stdRng, 1);
    RoundRobinShare(c, stdRng, 2);
  }

  /** The pool of the least-connections engine test: "fast" answers in 1 ms,
      "slow" in 100 ms. */
  function FastSlow(active: nat, picks: nat): seq<ServerState> {
    [ServerState(0, "fast", 1, 1, active, picks), ServerState(1, "slow", 100, 1, 0, 0)]
  }

  /** The engine states of that test after 0 .. 4 pops; `src` is the
      stable tie-break source. */
  function FastSlowState(pops: nat, src: TieBreakSource): EngineState
    requires pops <= 4
  {
    var first := Assignment(1, 0, "fast", None, 0, 1);
    var second := Assignment(2, 0, "fast", None, 1, 2);
    match pops
    case 0 => EngineState(0, FastSlow(0, 0), [], [ArrivalAt(0), ArrivalAt(1)], 2,
                          LeastConnectionsStrategy, src)
    case 1 => EngineState(0, FastSlow(1, 1), [first],
                          [ScheduledEvent(1, RequestComplete(0, 1), 2), ArrivalAt(1)], 3,
                          LeastConnectionsStrategy, src)
    case 2 => EngineState(1, FastSlow(0, 1), [first], [ArrivalAt(1)], 3,
                          LeastConnectionsStrategy, src)
    case 3 => EngineState(1, FastSlow(1, 2), [first, second],
                          [ScheduledEvent(2, RequestComplete(0, 2), 3)], 4,
                          LeastConnectionsStrategy, src)
    case _ => EngineState(2, FastSlow(0, 2), [first, second], [], 4,
                          LeastConnectionsStrategy, src)
  }

  /** With fast idle, the stable tie-break takes fast (index 0). */
  lemma FastSlowTie(picks: nat, src: TieBreakSource)
    requires src.StableSource?
    ensures Select(LeastConnectionsStrategy, FastSlow(0, picks), src)
            == (Selection(0, None), LeastConnectionsStrategy, src)
  {
  }

  /** Fast's completion at time 1 is queued before the arrival at time 1. */
  lemma CompletionBeforeArrival()
    ensures Push([ArrivalAt(1)], ScheduledEvent(1, RequestComplete(0, 1), 2))
            == [ScheduledEvent(1, RequestComplete(0, 1), 2), ArrivalAt(1)]
  {
    assert InsertPos([ArrivalAt(1)], ScheduledEvent(1, RequestComplete(0, 1), 2)) == 0;
  }

  /** Each pop of the test's run, one at a time. */
  lemma FastSlowFirstArrival(src: TieBreakSource)
    requires src.StableSource?
    ensures Step(FastSlowState(0, src)) == FastSlowState(1, src)
  {
    FastSlowTie(0, src);
    CompletionBeforeArrival();
  }

  lemma FastSlowFirstCompletion(src: TieBreakSource)
    requires src.StableSource?
    ensures Step(FastSlowState(1, src)) == FastSlowState(2, src)
  {
  }

  /** At time 1 fast is idle again and wins the tie once more. */
  lemma FastSlowSecondArrival(src: TieBreakSource)
    requires src.StableSource?
    ensures Step(FastSlowState(2, src)) == FastSlowState(3, src)
  {
    FastSlowTie(1, src);
  }

  lemma FastSlowSecondCompletion(src: TieBreakSource)
    requires src.StableSource?
    ensures Step(FastSlowState(3, src)) == FastSlowState(4, src)
  {
  }

  lemma FastSlowStep(pops: nat, src: TieBreakSource)
    requires pops < 4 && src.StableSource?
    ensures Ready(LeastConnectionsStrategy, FastSlowState(pops, src).servers)
    ensures Step(FastSlowState(pops, src)) == FastSlowState(pops + 1, src)
  {
    match pops
    case 0 => FastSlowFirstArrival(src);
    case 1 => FastSlowFirstCompletion(src);
    case 2 => FastSlowSecondArrival(src);
    case 3 => FastSlowSecondCompletion(src);
  }

  lemma {:induction false} FastSlowDrain(pops: nat, src: TieBreakSource)
    requires pops <= 4 && src.StableSource?
    ensures Drain(FastSlowState(pops, src)) == FastSlowState(4, src)
    decreases 4 - pops
  {
    if pops < 4 {
      FastSlowStep(pops, src);
      FastSlowDrain(pops + 1, src);
    }
  }

  /** The event loop of the least-connections engine test records two
      assignments to fast. */
  lemma FastSlowLoop(stdRng: DrawFn)
    ensures var st := Start(SimConfig(FastSlow(0, 0), 2, Stable), LeastConnectionsStrategy, stdRng);
            && Ready(st.strategy, st.servers)
            && Drain(st).assignments == [Assignment(1, 0, "fast", None, 0, 1),
                                         Assignment(2, 0, "fast", None, 1, 2)]
  {
    var src := SourceFor(Stable, stdRng);
    assert FastSlowState(4, src).assignments == [Assignment(1, 0, "fast", None, 0, 1),
                                                 Assignment(2, 0, "fast", None, 1, 2)];
    assert Start(SimConfig(FastSlow(0, 0), 2, Stable), LeastConnectionsStrategy, stdRng)
           == FastSlowState(0, src);
    FastSlowDrain(0, src);
  }

  /** Servers "fast" (1 ms) and "slow" (100 ms), two requests, least
      connections with stable ties. The first request goes to fast, which is
      free again at time 1; that completion is processed before the second
      arrival at time 1, so the second request goes to fast too. */
  lemma LeastConnectionsSeesCompletions(c: SimConfig, stdRng: DrawFn)
    requires c == SimConfig(FastSlow(0, 0), 2, Stable)
    ensures var r := Run(c, LeastConnectionsStrategy, stdRng);
            && r.Ok?
            && r.value.assignments == [Assignment(1, 0, "fast", None, 0, 1),
                                       Assignment(2, 0, "fast", None, 1, 2)]
  {
    assert Valid(c);
    FastSlowLoop(stdRng);
    RunRecordsLoop(c, LeastConnectionsStrategy, stdRng);
  }
}
