/** The in-memory fixed-window rate limiter (`RateLimiter.check`): a map
    from client identifier to `{count, startTime}`, one global limit of 100
    requests per 15-minute window. The clock is the parameter `now`
    (milliseconds); `Check` returns the verdict and the new map. */
module RateLimiter {

  const LIMIT: int := 100
  const WINDOW_MS: int := 15 * 60 * 1000

  datatype Entry = Entry(count: int, startTime: int)

  type Clients = map<string, Entry>

  /** The verdict of one call and the client map afterwards. */
  datatype Step = Step(allowed: bool, clients: Clients)

  /** A call opens a new window: the client is unknown, or strictly more
      than WINDOW_MS has passed since its window started. */
  predicate OpensWindow(clients: Clients, identifier: string, now: int) {
    identifier !in clients || now - clients[identifier].startTime > WINDOW_MS
  }

  /** Every stored entry has counted at least one and at most LIMIT calls. */
  predicate Valid(clients: Clients) {
    forall id :: id in clients ==> 1 <= clients[id].count <= LIMIT
  }

  /** `RateLimiter.check(identifier)` at time `now`. */
  function Check(clients: Clients, identifier: string, now: int): (r: Step)
    ensures r.clients.Keys == clients.Keys + {identifier}
    ensures r.allowed <==> OpensWindow(clients, identifier, now) || clients[identifier].count < LIMIT
    ensures OpensWindow(clients, identifier, now) ==> r.clients[identifier] == Entry(1, now)
    ensures !OpensWindow(clients, identifier, now) && r.allowed ==>
      r.clients[identifier] == clients[identifier].(count := clients[identifier].count + 1)
    ensures !r.allowed ==> r.clients == clients
    ensures forall other :: other in clients && other != identifier ==> r.clients[other] == clients[other]
  {
    if OpensWindow(clients, identifier, now) then
      Step(true, clients[identifier := Entry(1, now)])
    else
      var entry := clients[identifier];
      if entry.count < LIMIT then
        Step(true, clients[identifier := entry.(count := entry.count + 1)])
      else
        Step(false, clients)
  }

  /** Check keeps every entry between 1 and LIMIT. */
  lemma CheckPreservesValid(clients: Clients, identifier: string, now: int)
    requires Valid(clients)
    ensures Valid(Check(clients, identifier, now).clients)
  {
  }

  /** The first call of an unseen client is allowed and starts its window. */
  lemma FirstCallAllowed(clients: Clients, identifier: string, now: int)
    requires identifier !in clients
    ensures Check(clients, identifier, now) == Step(true, clients[identifier := Entry(1, now)])
  {
  }

  /** At exactly WINDOW_MS after the window started the old window still
      applies; one millisecond later it is replaced. */
  lemma WindowBoundary(clients: Clients, identifier: string, start: int)
    requires identifier in clients && clients[identifier] == Entry(LIMIT, start)
    ensures !Check(clients, identifier, start + WINDOW_MS).allowed
    ensures Check(clients, identifier, start + WINDOW_MS + 1).allowed
  {
  }

  /** The verdicts of successive calls by one client at the times `nows`,
      and the client map after the last of them. */
  datatype Trace = Trace(verdicts: seq<bool>, clients: Clients)

  function Replay(clients: Clients, identifier: string, nows: seq<int>): (r: Trace)
    ensures |r.verdicts| == |nows|
    decreases |nows|
  {
    if |nows| == 0 then Trace([], clients)
    else
      var first := Check(clients, identifier, nows[0]);
      var rest := Replay(first.clients, identifier, nows[1..]);
      Trace([first.allowed] + rest.verdicts, rest.clients)
  }

  /** Inside a live window that has already counted `k` calls, the i-th
      further call is allowed exactly when k + i < LIMIT. */
  lemma {:induction false} ReplayInWindow(clients: Clients, identifier: string, nows: seq<int>, k: int, start: int)
    requires identifier in clients && clients[identifier] == Entry(k, start)
    requires 1 <= k <= LIMIT
    requires forall i :: 0 <= i < |nows| ==> nows[i] - start <= WINDOW_MS
    ensures forall i :: 0 <= i < |nows| ==> Replay(clients, identifier, nows).verdicts[i] == (k + i < LIMIT)
    ensures identifier in Replay(clients, identifier, nows).clients
    ensures Replay(clients, identifier, nows).clients[identifier].startTime == start
    decreases |nows|
  {
    if |nows| > 0 {
      var first := Check(clients, identifier, nows[0]);
      var k' := if k < LIMIT then k + 1 else k;
      assert first.clients[identifier] == Entry(k', start);
      var tail := nows[1..];
      assert forall i :: 0 <= i < |tail| ==> tail[i] == nows[i + 1];
      ReplayInWindow(first.clients, identifier, tail, k', start);
      var r := Replay(clients, identifier, nows);
      var rest := Replay(first.clients, identifier, tail);
      assert r.verdicts == [first.allowed] + rest.verdicts;
      forall i | 0 <= i < |nows|
        ensures r.verdicts[i] == (k + i < LIMIT)
      {
        if i > 0 {
          assert r.verdicts[i] == rest.verdicts[i - 1];
        }
      }
    }
  }

  /** From a window that opens with the first call, exactly LIMIT calls
      made within WINDOW_MS of it are allowed and every later one in the
      same window is rejected. */
  lemma {:induction false} ExactlyLimitPerWindow(clients: Clients, identifier: string, nows: seq<int>)
    requires |nows| > 0 && OpensWindow(clients, identifier, nows[0])
    requires forall i :: 0 <= i < |nows| ==> nows[i] - nows[0] <= WINDOW_MS
    ensures forall i :: 0 <= i < |nows| ==> Replay(clients, identifier, nows).verdicts[i] == (i < LIMIT)
  {
    var first := Check(clients, identifier, nows[0]);
    var tail := nows[1..];
    assert forall i :: 0 <= i < |tail| ==> tail[i] == nows[i + 1];
    ReplayInWindow(first.clients, identifier, tail, 1, nows[0]);
    var r := Replay(clients, identifier, nows);
    var rest := Replay(first.clients, identifier, tail);
    forall i | 0 <= i < |nows|
      ensures r.verdicts[i] == (i < LIMIT)
    {
      if i > 0 {
        assert r.verdicts[i] == rest.verdicts[i - 1];
      }
    }
  }

  /** Calls by one client never change what another client is allowed. */
  lemma {:induction false} ReplayLeavesOthers(clients: Clients, identifier: string, nows: seq<int>, other: string)
    requires other != identifier && other in clients
    ensures other in Replay(clients, identifier, nows).clients
    ensures Replay(clients, identifier, nows).clients[other] == clients[other]
    decreases |nows|
  {
    if |nows| > 0 {
      ReplayLeavesOthers(Check(clients, identifier, nows[0]).clients, identifier, nows[1..], other);
    }
  }

  /** The fixed window admits a burst of 2 * LIMIT calls within WINDOW_MS + 1
      milliseconds when they straddle a window boundary. */
  lemma BoundaryBurst(clients: Clients, identifier: string, start: int)
    requires identifier !in clients
    ensures var nows := seq(LIMIT, _ => start) + seq(LIMIT, _ => start + WINDOW_MS + 1);
      forall i :: 0 <= i < 2 * LIMIT ==> Replay(clients, identifier, nows).verdicts[i]
  {
    var first := seq(LIMIT, _ => start);
    var second := seq(LIMIT, _ => start + WINDOW_MS + 1);
    ExactlyLimitPerWindow(clients, identifier, first);
    var mid := Replay(clients, identifier, first).clients;
    assert OpensWindow(mid, identifier, start + WINDOW_MS + 1) by {
      ReplayInWindow(Check(clients, identifier, start).clients, identifier, first[1..], 1, start);
    }
    ExactlyLimitPerWindow(mid, identifier, second);
    ReplayConcat(clients, identifier, first, second);
  }

  /** Replaying two runs of calls one after the other is replaying their
      concatenation. */
  lemma {:induction false} ReplayConcat(clients: Clients, identifier: string, a: seq<int>, b: seq<int>)
    ensures Replay(clients, identifier, a + b).verdicts
         == Replay(clients, identifier, a).verdicts + Replay(Replay(clients, identifier, a).clients, identifier, b).verdicts
    ensures Replay(clients, identifier, a + b).clients
         == Replay(Replay(clients, identifier, a).clients, identifier, b).clients
    decreases |a|
  {
    if |a| > 0 {
      assert (a + b)[0] == a[0];
      assert (a + b)[1..] == a[1..] + b;
      ReplayConcat(Check(clients, identifier, a[0]).clients, identifier, a[1..], b);
    } else {
      assert a + b == b;
    }
  }
}
