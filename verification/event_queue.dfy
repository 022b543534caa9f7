/** The pending-event queue. Events are ordered by time, then completions
    before arrivals at the same time, then insertion sequence number; the
    queue is a sequence kept sorted under that key, so its head is the event
    to pop next. */
module EventQueue {

  datatype Event =
    | RequestArrival(requestId: nat)
    | RequestComplete(serverIndex: nat, requestId: nat)

  datatype ScheduledEvent = ScheduledEvent(timeMs: nat, event: Event, seqNo: nat)

  /** Completions rank before arrivals at equal times. */
  function KindRank(e: Event): nat {
    if e.RequestComplete? then 0 else 1
  }

  /** `a` comes no later than `b` in (time, kind rank, sequence) order. */
  predicate NotAfter(a: ScheduledEvent, b: ScheduledEvent) {
    || a.timeMs < b.timeMs
    || (a.timeMs == b.timeMs && KindRank(a.event) < KindRank(b.event))
    || (a.timeMs == b.timeMs && KindRank(a.event) == KindRank(b.event) && a.seqNo <= b.seqNo)
  }

  predicate Sorted(q: seq<ScheduledEvent>) {
    forall i, j :: 0 <= i < j < |q| ==> NotAfter(q[i], q[j])
  }

  /** Where `e` goes: after every event strictly before it. */
  function InsertPos(q: seq<ScheduledEvent>, e: ScheduledEvent): (p: nat)
    ensures p <= |q|
    ensures forall i :: 0 <= i < p ==> !NotAfter(e, q[i])
    ensures p < |q| ==> NotAfter(e, q[p])
  {
    if |q| == 0 || NotAfter(e, q[0]) then 0 else 1 + InsertPos(q[1..], e)
  }

  /** Schedule `e`. */
  function Push(q: seq<ScheduledEvent>, e: ScheduledEvent): (r: seq<ScheduledEvent>)
    ensures Sorted(q) ==> Sorted(r)
    ensures |r| == |q| + 1
  {
    var p := InsertPos(q, e);
    PushSorted(q, e, p);
    q[..p] + [e] + q[p..]
  }

  /** Scheduling adds exactly `e` and loses nothing. */
  lemma PushPermutes(q: seq<ScheduledEvent>, e: ScheduledEvent)
    ensures multiset(Push(q, e)) == multiset(q) + multiset{e}
  {
    var p := InsertPos(q, e);
    assert q == q[..p] + q[p..];
    assert Push(q, e) == q[..p] + ([e] + q[p..]);
  }

  lemma PushSorted(q: seq<ScheduledEvent>, e: ScheduledEvent, p: nat)
    requires p == InsertPos(q, e)
    ensures Sorted(q) ==> Sorted(q[..p] + [e] + q[p..])
  {
    if !Sorted(q) {
      return;
    }
    var r := q[..p] + [e] + q[p..];
    forall i, j | 0 <= i < j < |r|
      ensures NotAfter(r[i], r[j])
    {
      if j < p {
        assert NotAfter(q[i], q[j]);
      } else if j == p {
        assert !NotAfter(e, q[i]);
      } else if i < p {
        assert !NotAfter(e, q[i]);
        assert NotAfter(e, q[p]);
        assert NotAfter(q[p], q[j - 1]) || p == j - 1;
      } else if i == p {
        assert NotAfter(e, q[p]);
        assert NotAfter(q[p], q[j - 1]) || p == j - 1;
      } else {
        assert NotAfter(q[i - 1], q[j - 1]);
      }
    }
  }

  /** The head of a sorted queue is no later than any event in it. */
  lemma HeadIsEarliest(q: seq<ScheduledEvent>)
    requires Sorted(q) && 0 < |q|
    ensures forall e :: e in q ==> NotAfter(q[0], e)
  {
    forall e | e in q
      ensures NotAfter(q[0], e)
    {
      var i :| 0 <= i < |q| && q[i] == e;
      if i == 0 {
        assert NotAfter(e, e);
      }
    }
  }

  /** The arrival events of `q`, in queue order. */
  function Arrivals(q: seq<ScheduledEvent>): seq<ScheduledEvent> {
    if |q| == 0 then []
    else if q[0].event.RequestArrival? then [q[0]] + Arrivals(q[1..])
    else Arrivals(q[1..])
  }

  /** Number of pending completions for server index `i`. */
  function CompletionsFor(q: seq<ScheduledEvent>, i: nat): nat {
    if |q| == 0 then 0
    else (if q[0].event.RequestComplete? && q[0].event.serverIndex == i then 1 else 0)
         + CompletionsFor(q[1..], i)
  }

  /** Every pending completion names a server index below `n`. */
  predicate CompletionsBelow(q: seq<ScheduledEvent>, n: nat) {
    forall k :: 0 <= k < |q| && q[k].event.RequestComplete? ==> q[k].event.serverIndex < n
  }

  lemma {:induction false} ArrivalsAppend(a: seq<ScheduledEvent>, b: seq<ScheduledEvent>)
    ensures Arrivals(a + b) == Arrivals(a) + Arrivals(b)
  {
    if |a| == 0 {
      assert a + b == b;
    } else {
      assert (a + b)[1..] == a[1..] + b;
      ArrivalsAppend(a[1..], b);
    }
  }

  lemma {:induction false} CompletionsAppend(a: seq<ScheduledEvent>, b: seq<ScheduledEvent>, i: nat)
    ensures CompletionsFor(a + b, i) == CompletionsFor(a, i) + CompletionsFor(b, i)
  {
    if |a| == 0 {
      assert a + b == b;
    } else {
      assert (a + b)[1..] == a[1..] + b;
      CompletionsAppend(a[1..], b, i);
    }
  }

  /** Scheduling a completion leaves the arrivals alone and adds one pending
      completion for its server and none for any other. */
  lemma PushCompletion(q: seq<ScheduledEvent>, e: ScheduledEvent, n: nat)
    requires e.event.RequestComplete?
    ensures Arrivals(Push(q, e)) == Arrivals(q)
    ensures forall i :: CompletionsFor(Push(q, e), i)
              == CompletionsFor(q, i) + (if e.event.serverIndex == i then 1 else 0)
    ensures CompletionsBelow(q, n) && e.event.serverIndex < n ==> CompletionsBelow(Push(q, e), n)
  {
    var p := InsertPos(q, e);
    var r := Push(q, e);
    assert r == q[..p] + ([e] + q[p..]);
    assert q == q[..p] + q[p..];
    ArrivalsAppend(q[..p], [e] + q[p..]);
    ArrivalsAppend(q[..p], q[p..]);
    assert Arrivals([e] + q[p..]) == Arrivals(q[p..]) by {
      assert ([e] + q[p..])[1..] == q[p..];
    }
    forall i
      ensures CompletionsFor(r, i) == CompletionsFor(q, i) + (if e.event.serverIndex == i then 1 else 0)
    {
      CompletionsAppend(q[..p], [e] + q[p..], i);
      CompletionsAppend(q[..p], q[p..], i);
      assert ([e] + q[p..])[1..] == q[p..];
    }
    if CompletionsBelow(q, n) && e.event.serverIndex < n {
      forall k | 0 <= k < |r| && r[k].event.RequestComplete?
        ensures r[k].event.serverIndex < n
      {
        if k < p {
          assert r[k] == q[k];
        } else if p < k {
          assert r[k] == q[k - 1];
        }
      }
    }
  }
}
