/** The per-client sliding-window rate limiter (public_api/limits.py:19-51) as public_api/app.py:105-123
    calls it. Times are exact numbers; a call carries the time it read before taking the lock. */
module RateLimits {
  import opened Common

  type Times = seq<real>
  type Seen = map<string, Times>

  const TABLE_SIZE := 10_000

  /** `admit` returns None, or the seconds to wait, or raises on an empty deque. */
  datatype Answer = Proceed | Wait(seconds: real) | IndexError

  datatype Outcome = Outcome(answer: Answer, seen: Seen)

  // ---- what one call does --------------------------------------------------------------------

  /** Drops from the front every time at or before the cutoff. */
  function Fresh(q: Times, cutoff: real): Times {
    if q != [] && q[0] <= cutoff then Fresh(q[1..], cutoff) else q
  }

  function Stored(seen: Seen, client: string): Times {
    if client in seen then seen[client] else []
  }

  predicate SomeEmpty(seen: Seen) {
    exists client :: client in seen && seen[client] == []
  }

  predicate Idle(q: Times, cutoff: real) {
    q != [] && q[|q| - 1] <= cutoff
  }

  function Forget(seen: Seen, cutoff: real): Seen {
    map client | client in seen && !Idle(seen[client], cutoff) :: seen[client]
  }

  /** What follows once the request is counted. */
  function Trimmed(seen: Seen, cutoff: real): Outcome {
    if |seen| <= TABLE_SIZE then Outcome(Proceed, seen)
    else if SomeEmpty(seen) then Outcome(IndexError, seen)
    else Outcome(Proceed, Forget(seen, cutoff))
  }

  function Admitted(limit: int, window: real, seen: Seen, client: string, now: real): Outcome {
    var q := Fresh(Stored(seen, client), now - window);
    if |q| < limit then Trimmed(seen[client := q + [now]], now - window)
    else Outcome(if q == [] then IndexError else Wait(q[0] + window - now), seen[client := q])
  }

  function Refunded(seen: Seen, client: string): Seen {
    var q := Stored(seen, client);
    if q == [] then seen else seen[client := q[..|q| - 1]]
  }

  class RateLimiter {
    const limit: int
    const window: real
    var seen: Seen

    constructor (limit: int, window: real)
      ensures this.limit == limit && this.window == window && seen == map[]
    {
      this.limit, this.window, seen := limit, window, map[];
    }

    method Admit(client: string, now: real) returns (answer: Answer)
      modifies this
      ensures Outcome(answer, seen) == Admitted(limit, window, old(seen), client, now)
    {
      ghost var before := seen;
      if client !in seen {
        seen := seen[client := []];
      }
      var q := seen[client];
      while q != [] && q[0] <= now - window
        invariant Fresh(q, now - window) == Fresh(Stored(before, client), now - window)
        decreases |q|
        modifies {}
      {
        q := q[1..];
      }
      seen := seen[client := q];
      assert seen == before[client := q];
      if |q| >= limit {
        return if q == [] then IndexError else Wait(q[0] + window - now);
      }
      seen := seen[client := q + [now]];
      assert seen == before[client := q + [now]];
      if |seen| > TABLE_SIZE {
        if SomeEmpty(seen) {
          return IndexError;
        }
        seen := Forget(seen, now - window);
      }
      return Proceed;
    }

    method Refund(client: string)
      modifies this
      ensures seen == Refunded(old(seen), client)
    {
      if client in seen && seen[client] != [] {
        var q := seen[client];
        seen := seen[client := q[..|q| - 1]];
      }
    }
  }

  // ---- any number of calls -----------------------------------------------------------------------

  /** A call of `admit`, or of `refund` for the request counted at a time. */
  datatype Event = Request(client: string, now: real) | GiveBack(client: string, at: real)

  datatype Log = Nothing | More(earlier: Log, event: Event)

  datatype Limits = Limits(limit: int, window: real)

  function After(p: Limits, log: Log): Seen {
    match log
    case Nothing => map[]
    case More(earlier, Request(client, now)) => Admitted(p.limit, p.window, After(p, earlier), client, now).seen
    case More(earlier, GiveBack(client, _)) => Refunded(After(p, earlier), client)
  }

  function AnswerTo(p: Limits, log: Log, client: string, now: real): Answer {
    Admitted(p.limit, p.window, After(p, log), client, now).answer
  }

  predicate Counts(p: Limits, log: Log, client: string, now: real) {
    |Fresh(Stored(After(p, log), client), now - p.window)| < p.limit
  }

  /** The times the limiter goes by: a refund takes the client's latest one. */
  function Counted(p: Limits, log: Log, client: string): Times {
    match log
    case Nothing => []
    case More(earlier, Request(c, now)) =>
      if c == client && Counts(p, earlier, c, now) then Counted(p, earlier, client) + [now]
      else Counted(p, earlier, client)
    case More(earlier, GiveBack(c, _)) =>
      var h := Counted(p, earlier, client);
      if c == client && h != [] then h[..|h| - 1] else h
  }

  function Without(h: Times, at: real): Times {
    if h == [] then []
    else if h[|h| - 1] == at then h[..|h| - 1]
    else Without(h[..|h| - 1], at) + [h[|h| - 1]]
  }

  /** The times of the requests counted and not rejected: a refund takes the one it is for. They
      are those the routes serve, and those whose `admit` raised after it had counted them. */
  function Unrefunded(p: Limits, log: Log, client: string): Times {
    match log
    case Nothing => []
    case More(earlier, Request(c, now)) =>
      if c == client && Counts(p, earlier, c, now) then Unrefunded(p, earlier, client) + [now]
      else Unrefunded(p, earlier, client)
    case More(earlier, GiveBack(c, at)) =>
      if c == client then Without(Unrefunded(p, earlier, client), at) else Unrefunded(p, earlier, client)
  }

  /** The clock readings, in the order the calls got the lock, never go back. */
  predicate InOrder(log: Log) {
    match log
    case Nothing => true
    case More(earlier, Request(_, now)) => InOrder(earlier) && NotBefore(now, earlier)
    case More(earlier, GiveBack(_, _)) => InOrder(earlier)
  }

  predicate NotBefore(now: real, log: Log) {
    match log
    case Nothing => true
    case More(earlier, Request(_, last)) => last <= now
    case More(earlier, GiveBack(_, _)) => NotBefore(now, earlier)
  }

  predicate Sorted(q: Times) {
    forall i, j :: 0 <= i < j < |q| ==> q[i] <= q[j]
  }

  /** Any `limit + 1` counted requests span at least a window. */
  predicate Spaced(p: Limits, h: Times)
    requires p.limit >= 1
  {
    forall i, j :: 0 <= i && i + p.limit <= j < |h| ==> h[i] + p.window <= h[j]
  }

  /** The stored times are the counted ones that may still matter. */
  predicate Tail(q: Times, h: Times, cutoff: real) {
    && |q| <= |h| && q == h[|h| - |q|..]
    && (forall i :: 0 <= i < |h| - |q| ==> h[i] <= cutoff)
  }

  ghost predicate ClientInv(p: Limits, q: Times, h: Times, now: real)
    requires p.limit >= 1
  {
    && |q| <= p.limit && Sorted(h) && Spaced(p, h) && Tail(q, h, now - p.window)
    && (forall i :: 0 <= i < |h| ==> h[i] <= now)
  }

  lemma {:induction false} FreshFacts(q: Times, cutoff: real)
    ensures var r := Fresh(q, cutoff);
      && |r| <= |q| && r == q[|q| - |r|..]
      && (forall i :: 0 <= i < |q| - |r| ==> q[i] <= cutoff)
      && (r != [] ==> r[0] > cutoff)
  {
    if q != [] && q[0] <= cutoff {
      FreshFacts(q[1..], cutoff);
      assert forall i :: 1 <= i < |q| ==> q[i] == q[1..][i - 1];
    }
  }

  lemma {:induction false} AllStale(q: Times, cutoff: real)
    requires forall i :: 0 <= i < |q| ==> q[i] <= cutoff
    ensures Fresh(q, cutoff) == []
  {
    if q != [] {
      assert forall i :: 0 <= i < |q| - 1 ==> q[1..][i] == q[i + 1];
      AllStale(q[1..], cutoff);
    }
  }

  lemma TimePasses(p: Limits, q: Times, h: Times, last: real, now: real)
    requires p.limit >= 1 && ClientInv(p, q, h, last) && last <= now
    ensures ClientInv(p, q, h, now) && ClientInv(p, Fresh(q, now - p.window), h, now)
  {
    FreshFacts(q, now - p.window);
    var r := Fresh(q, now - p.window);
    assert r == h[|h| - |r|..];
    forall i | 0 <= i < |h| - |r| ensures h[i] <= now - p.window {
      if i >= |h| - |q| {
        assert h[i] == q[i - (|h| - |q|)];
      }
    }
  }

  lemma CountingKeeps(p: Limits, q: Times, h: Times, now: real)
    requires p.limit >= 1 && ClientInv(p, q, h, now) && |q| < p.limit
    ensures ClientInv(p, q + [now], h + [now], now)
  {
    var h' := h + [now];
    forall i, j | 0 <= i && i + p.limit <= j < |h'| ensures h'[i] + p.window <= h'[j] {
      if j == |h| {
        assert i < |h| - |q| && h[i] <= now - p.window;
      } else {
        assert h[i] + p.window <= h[j];
      }
    }
  }

  lemma GivingBackKeeps(p: Limits, q: Times, h: Times, now: real)
    requires p.limit >= 1 && ClientInv(p, q, h, now) && h != []
    ensures ClientInv(p, if q == [] then q else q[..|q| - 1], h[..|h| - 1], now)
  {
  }

  lemma ForgettingKeeps(p: Limits, q: Times, h: Times, now: real)
    requires p.limit >= 1 && ClientInv(p, q, h, now) && Idle(q, now - p.window)
    ensures ClientInv(p, [], h, now)
  {
    forall i | 0 <= i < |h| ensures h[i] <= now - p.window {
      assert h[|h| - 1] == q[|q| - 1];
      assert i < |h| - 1 ==> h[i] <= h[|h| - 1];
    }
  }

  lemma RequestKeepsClient(p: Limits, seen: Seen, h: Times, c: string, now: real, client: string)
    requires p.limit >= 1 && ClientInv(p, Stored(seen, client), h, now)
    ensures var counts := c == client && |Fresh(Stored(seen, c), now - p.window)| < p.limit;
      ClientInv(p, Stored(Admitted(p.limit, p.window, seen, c, now).seen, client), if counts then h + [now] else h, now)
  {
    var q := Stored(seen, client);
    TimePasses(p, q, h, now, now);
    var counts := c == client && |Fresh(q, now - p.window)| < p.limit;
    if counts {
      CountingKeeps(p, Fresh(q, now - p.window), h, now);
    }
    RequestMoves(p, seen, c, now, client);
    hide ClientInv, Fresh, Admitted;
    var q' := Stored(Admitted(p.limit, p.window, seen, c, now).seen, client);
    var counted := CountedTimes(p, seen, c, now, client);
    if q' != counted {
      ForgettingKeeps(p, counted, if counts then h + [now] else h, now);
    }
  }

  /** Over any calls made in clock order, each client's counted requests stay sorted and spaced,
      and its deque is their recent end, at most `limit` long. */
  lemma {:induction false} EachClientIsLimited(p: Limits, log: Log, client: string, now: real)
    requires p.limit >= 1 && InOrder(log) && NotBefore(now, log)
    ensures ClientInv(p, Stored(After(p, log), client), Counted(p, log, client), now)
  {
    hide ClientInv, Admitted, Fresh;
    match log
    case Nothing => NoRequestsYet(p, now);
    case More(earlier, Request(c, time)) =>
      EachClientIsLimited(p, earlier, client, time);
      RequestKeepsClient(p, After(p, earlier), Counted(p, earlier, client), c, time, client);
      TimePasses(p, Stored(After(p, log), client), Counted(p, log, client), time, now);
    case More(earlier, GiveBack(c, _)) =>
      EachClientIsLimited(p, earlier, client, now);
      var q, h := Stored(After(p, earlier), client), Counted(p, earlier, client);
      TailIsShorter(p, q, h, now);
      if c == client && h != [] {
        GivingBackKeeps(p, q, h, now);
      }
  }

  lemma NoRequestsYet(p: Limits, now: real)
    requires p.limit >= 1
    ensures ClientInv(p, [], [], now)
  {
  }

  lemma TailIsShorter(p: Limits, q: Times, h: Times, now: real)
    requires p.limit >= 1 && ClientInv(p, q, h, now)
    ensures |q| <= |h| && |q| <= p.limit && Sorted(q)
  {
    forall i, j | 0 <= i < j < |q| ensures q[i] <= q[j] {
      assert q[i] == h[|h| - |q| + i] && q[j] == h[|h| - |q| + j];
    }
  }

  /** A client's deque after a request of `c`, before idle clients are forgotten. */
  function CountedTimes(p: Limits, seen: Seen, c: string, now: real, client: string): Times {
    if c != client then Stored(seen, client)
    else
      var recent := Fresh(Stored(seen, c), now - p.window);
      if |recent| < p.limit then recent + [now] else recent
  }

  lemma RequestMoves(p: Limits, seen: Seen, c: string, now: real, client: string)
    ensures var q := Stored(Admitted(p.limit, p.window, seen, c, now).seen, client);
      var counted := CountedTimes(p, seen, c, now, client);
      q == counted || (q == [] && Idle(counted, now - p.window))
  {
    hide Fresh;
  }

  // ---- at most `limit` in any window ---------------------------------------------------------------

  function InWindow(h: Times, start: real, window: real): set<int> {
    set i | 0 <= i < |h| && start <= h[i] < start + window
  }

  lemma {:induction false} Below(s: set<int>, lo: int, n: nat)
    requires forall i :: i in s ==> lo <= i < lo + n
    ensures |s| <= n
  {
    if n > 0 {
      Below(s - {lo + n - 1}, lo, n - 1);
    } else {
      assert forall i :: i !in s;
      assert s == {};
    }
  }

  /** Any half-open window holds at most `limit` of the times the limiter goes by. */
  lemma CountedFitAnyWindow(p: Limits, log: Log, client: string, start: real)
    requires p.limit >= 1 && InOrder(log)
    ensures |InWindow(Counted(p, log, client), start, p.window)| <= p.limit
  {
    hide Counted, After, Fresh;
    EachClientIsLimited(p, log, client, Latest(log));
    var h := Counted(p, log, client);
    var inside := InWindow(h, start, p.window);
    var first := FirstFrom(h, start);
    LaterIsOutside(p, h, first, start);
    Below(inside, first, p.limit);
  }

  lemma LaterIsOutside(p: Limits, h: Times, first: nat, start: real)
    requires p.limit >= 1 && Spaced(p, h) && (first < |h| ==> h[first] >= start)
    ensures forall i :: first + p.limit <= i < |h| ==> start + p.window <= h[i]
  {
  }

  function Latest(log: Log): (now: real)
    ensures NotBefore(now, log)
  {
    match log
    case Nothing => 0.0
    case More(_, Request(_, now)) => now
    case More(earlier, GiveBack(_, _)) => Latest(earlier)
  }

  /** Where the requests from `start` on begin. */
  lemma {:induction false} FirstFrom(h: Times, start: real) returns (first: nat)
    ensures first <= |h| && (forall i :: 0 <= i < first ==> h[i] < start) && (first < |h| ==> h[first] >= start)
  {
    if h == [] || h[0] >= start {
      first := 0;
    } else {
      var rest := FirstFrom(h[1..], start);
      first := rest + 1;
    }
  }

  // ---- the requests not rejected -----------------------------------------------------------------------------

  /** Every refund is for a request that was counted and not yet given back. */
  predicate Genuine(p: Limits, log: Log, client: string) {
    match log
    case Nothing => true
    case More(earlier, Request(_, _)) => Genuine(p, earlier, client)
    case More(earlier, GiveBack(c, at)) =>
      Genuine(p, earlier, client) && (c == client ==> at in Unrefunded(p, earlier, client))
  }

  /** Every refund names the latest of its client's counted requests. */
  predicate NamesLatest(p: Limits, log: Log, client: string) {
    match log
    case Nothing => true
    case More(earlier, Request(_, _)) => NamesLatest(p, earlier, client)
    case More(earlier, GiveBack(c, at)) =>
      var h := Counted(p, earlier, client);
      NamesLatest(p, earlier, client) && (c == client ==> h != [] && h[|h| - 1] == at)
  }

  /** At no point of the log do the times the limiter goes by differ from the unrefunded ones. */
  predicate AlwaysAgree(p: Limits, log: Log, client: string) {
    && Unrefunded(p, log, client) == Counted(p, log, client)
    && (log.More? ==> AlwaysAgree(p, log.earlier, client))
  }

  lemma {:induction false} WithoutTakesOne(h: Times, at: real)
    requires at in h
    ensures multiset(Without(h, at)) == multiset(h) - multiset{at}
  {
    var init, last := h[..|h| - 1], h[|h| - 1];
    assert h == init + [last];
    if last != at {
      WithoutTakesOne(init, at);
    }
  }

  lemma TakesLatestOnly(h: Times, at: real)
    requires at in h
    ensures Without(h, at) == h[..|h| - 1] <==> h[|h| - 1] == at
  {
    WithoutTakesOne(h, at);
    var init, last := h[..|h| - 1], h[|h| - 1];
    assert h == init + [last];
    if last != at {
      assert multiset(init)[at] == multiset(h)[at];
      assert multiset(Without(h, at))[at] == multiset(h)[at] - 1;
    }
  }

  /** The limiter keeps the times of the requests not rejected exactly as long as each refund is for
      its client's latest counted request. */
  lemma {:induction false} UnrefundedIsCountedExactlyWhen(p: Limits, log: Log, client: string)
    requires Genuine(p, log, client)
    ensures AlwaysAgree(p, log, client) <==> NamesLatest(p, log, client)
  {
    if log.More? {
      UnrefundedIsCountedExactlyWhen(p, log.earlier, client);
      if log.event.GiveBack? && log.event.client == client && AlwaysAgree(p, log.earlier, client) {
        TakesLatestOnly(Unrefunded(p, log.earlier, client), log.event.at);
      }
    }
  }

  /** What the limiter is for: with the calls in clock order and each refund for the latest
      request, any half-open window holds at most `limit` requests, so no more are served. */
  lemma AtMostLimitInAnyWindow(p: Limits, log: Log, client: string, start: real)
    requires p.limit >= 1 && InOrder(log) && Genuine(p, log, client) && NamesLatest(p, log, client)
    ensures |InWindow(Unrefunded(p, log, client), start, p.window)| <= p.limit
  {
    UnrefundedIsCountedExactlyWhen(p, log, client);
    CountedFitAnyWindow(p, log, client, start);
  }

  // ---- when a request may be counted --------------------------------------------------------------------

  ghost predicate Bounded(p: Limits, h: Times) {
    forall start :: |InWindow(h, start, p.window)| <= p.limit
  }

  /** Of the windows that begin at a request of the list, or now, none that holds this moment is full. */
  predicate Room(p: Limits, h: Times, now: real) {
    forall s :: s in h + [now] && s <= now < s + p.window ==> |InWindow(h, s, p.window)| < p.limit
  }

  lemma OneMoreInWindow(h: Times, now: real, start: real, window: real)
    ensures |InWindow(h + [now], start, window)| == |InWindow(h, start, window)| + if start <= now < start + window then 1 else 0
  {
    var more := InWindow(h + [now], start, window);
    if start <= now < start + window {
      assert more == InWindow(h, start, window) + {|h|};
    } else {
      assert more == InWindow(h, start, window);
    }
  }

  /** The first moment of a window at which something was counted. */
  lemma {:induction false} EarliestInWindow(h: Times, now: real, start: real, window: real) returns (s: real)
    requires start <= now < start + window
    ensures s in h + [now] && start <= s <= now
    ensures forall i :: i in InWindow(h, start, window) ==> s <= h[i]
  {
    if h == [] {
      s := now;
    } else {
      var init, last := h[..|h| - 1], h[|h| - 1];
      s := EarliestInWindow(init, now, start, window);
      assert s in h + [now] by {
        assert s in init || s == now;
      }
      forall i | i in InWindow(h, start, window) ensures s <= h[i] || i == |h| - 1 {
        assert i < |h| - 1 ==> i in InWindow(init, start, window) && init[i] == h[i];
      }
      if start <= last < s {
        s := last;
      }
    }
  }

  /** Whatever the order of the calls: counting one more request keeps every window within the
      limit exactly when there is room for it. */
  lemma CountingKeepsWindowsExactlyWhen(p: Limits, h: Times, now: real)
    requires Bounded(p, h)
    ensures Bounded(p, h + [now]) <==> Room(p, h, now)
  {
    if Bounded(p, h + [now]) {
      forall s | s in h + [now] && s <= now < s + p.window ensures |InWindow(h, s, p.window)| < p.limit {
        OneMoreInWindow(h, now, s, p.window);
        assert |InWindow(h + [now], s, p.window)| <= p.limit;
      }
    }
    if Room(p, h, now) {
      forall start ensures |InWindow(h + [now], start, p.window)| <= p.limit {
        OneMoreInWindow(h, now, start, p.window);
        assert |InWindow(h, start, p.window)| <= p.limit;
        if start <= now < start + p.window {
          var s := EarliestInWindow(h, now, start, p.window);
          assert InWindow(h, start, p.window) <= InWindow(h, s, p.window);
          SubsetSize(InWindow(h, start, p.window), InWindow(h, s, p.window));
        }
      }
    }
  }

  ghost predicate AlwaysBounded(p: Limits, log: Log, client: string) {
    Bounded(p, Unrefunded(p, log, client)) && (log.More? ==> AlwaysBounded(p, log.earlier, client))
  }

  /** Every request of the client that was counted had room among the unrefunded before it. */
  predicate AlwaysRoom(p: Limits, log: Log, client: string) {
    match log
    case Nothing => true
    case More(earlier, Request(c, now)) =>
      && AlwaysRoom(p, earlier, client)
      && (c == client && Counts(p, earlier, c, now) ==> Room(p, Unrefunded(p, earlier, client), now))
    case More(earlier, GiveBack(_, _)) => AlwaysRoom(p, earlier, client)
  }

  lemma {:induction false} FewerInWindow(h: Times, at: real, start: real, window: real)
    ensures |InWindow(Without(h, at), start, window)| <= |InWindow(h, start, window)|
  {
    if h != [] {
      var init, last := h[..|h| - 1], h[|h| - 1];
      assert h == init + [last];
      OneMoreInWindow(init, last, start, window);
      if last != at {
        FewerInWindow(init, at, start, window);
        OneMoreInWindow(Without(init, at), last, start, window);
      }
    }
  }

  /** For any calls whatever, in any order, with any refunds: no window ever holds more than
      `limit` unrefunded requests exactly when each one counted had room. */
  lemma {:induction false} UnrefundedBoundedExactlyWhen(p: Limits, log: Log, client: string)
    requires p.limit >= 1
    ensures AlwaysBounded(p, log, client) <==> AlwaysRoom(p, log, client)
  {
    hide Room, Fresh;
    match log
    case Nothing => NothingIsBounded(p);
    case More(earlier, Request(c, now)) =>
      UnrefundedBoundedExactlyWhen(p, earlier, client);
      if c == client && Counts(p, earlier, c, now) && AlwaysBounded(p, earlier, client) {
        CountingKeepsWindowsExactlyWhen(p, Unrefunded(p, earlier, client), now);
      }
    case More(earlier, GiveBack(c, at)) =>
      UnrefundedBoundedExactlyWhen(p, earlier, client);
      if AlwaysBounded(p, earlier, client) {
        var h := Unrefunded(p, earlier, client);
        forall start ensures |InWindow(Unrefunded(p, log, client), start, p.window)| <= p.limit {
          assert |InWindow(h, start, p.window)| <= p.limit;
          FewerInWindow(h, at, start, p.window);
        }
      }
  }

  lemma NothingIsBounded(p: Limits)
    requires p.limit >= 1
    ensures Bounded(p, [])
  {
    forall start ensures InWindow([], start, p.window) == {} {
    }
  }

  lemma {:induction false} AtLeast(s: set<int>, lo: int, n: nat)
    requires forall i :: lo <= i < lo + n ==> i in s
    ensures |s| >= n
  {
    if n > 0 {
      AtLeast(s - {lo + n - 1}, lo, n - 1);
    }
  }

  /** In clock order the limiter's own test is that room: it refuses no request that had room
      and counts none that had not. */
  lemma TestIsRoomInOrder(p: Limits, q: Times, h: Times, now: real)
    requires p.limit >= 1 && ClientInv(p, q, h, now)
    ensures |Fresh(q, now - p.window)| < p.limit <==> Room(p, h, now)
  {
    TimePasses(p, q, h, now, now);
    FreshFacts(q, now - p.window);
    var r := Fresh(q, now - p.window);
    var lo := |h| - |r|;
    if |r| < p.limit {
      forall s | s in h + [now] && s <= now < s + p.window ensures |InWindow(h, s, p.window)| < p.limit {
        Below(InWindow(h, s, p.window), lo, |r|);
      }
    } else {
      var s := r[0];
      assert s == h[lo] && s in h + [now];
      forall i | lo <= i < lo + |r| ensures i in InWindow(h, s, p.window) {
        assert h[lo] <= h[i] <= now;
      }
      AtLeast(InWindow(h, s, p.window), lo, |r|);
      assert s <= now < s + p.window;
    }
  }

  /** So the limiter refuses a client exactly when there is no room, given the two conditions. */
  lemma RefusesExactlyWithoutRoom(p: Limits, log: Log, client: string, now: real)
    requires p.limit >= 1 && InOrder(log) && NotBefore(now, log)
    requires Genuine(p, log, client) && NamesLatest(p, log, client)
    ensures AnswerTo(p, log, client, now).Wait? <==> !Room(p, Unrefunded(p, log, client), now)
  {
    hide Fresh, Room, ClientInv, Admitted;
    EachClientIsLimited(p, log, client, now);
    UnrefundedIsCountedExactlyWhen(p, log, client);
    TestIsRoomInOrder(p, Stored(After(p, log), client), Counted(p, log, client), now);
    AnswerIsByCount(p, After(p, log), client, now);
  }

  // ---- how long to wait --------------------------------------------------------------------------------

  /** More clients than the table should keep, one of them with nothing left to date it by. */
  predicate Overfull(seen: Seen) {
    |seen| > TABLE_SIZE && SomeEmpty(seen)
  }

  /** The answer to a client is a matter of its recent times alone. */
  lemma AnswerIsByCount(p: Limits, seen: Seen, client: string, now: real)
    requires p.limit >= 1
    ensures var a := Admitted(p.limit, p.window, seen, client, now).answer;
      var q := Fresh(Stored(seen, client), now - p.window);
      && (a.Wait? <==> |q| >= p.limit)
      && (a.Wait? ==> a.seconds == q[0] + p.window - now && a.seconds > 0.0)
      && (a.IndexError? <==> |q| < p.limit && Overfull(seen[client := q + [now]]))
  {
    FreshFacts(Stored(seen, client), now - p.window);
  }

  /** Other clients' calls: nothing between a refusal and its retry that this client made. */
  predicate Others(log: Log, since: Log, client: string)
    decreases log
  {
    log == since || (log.More? && log.event.client != client && Others(log.earlier, since, client))
  }

  lemma {:induction false} NotBeforeEither(log: Log, early: real, late: real)
    requires NotBefore(early, log) && early <= late
    ensures NotBefore(late, log)
  {
    if log.More? && log.event.GiveBack? {
      NotBeforeEither(log.earlier, early, late);
    }
  }

  lemma IdleIsStale(q: Times, early: real, late: real)
    requires Sorted(q) && Idle(q, early) && early <= late
    ensures Fresh(q, late) == []
  {
    AllStale(q, late);
  }

  lemma {:induction false} OthersLeaveRecent(p: Limits, log: Log, since: Log, client: string, now: real)
    requires p.limit >= 1 && Others(log, since, client) && InOrder(log) && NotBefore(now, log)
    ensures Fresh(Stored(After(p, log), client), now - p.window) == Fresh(Stored(After(p, since), client), now - p.window)
  {
    hide Admitted, Fresh, ClientInv;
    if log != since {
      match log
      case More(earlier, Request(c, time)) =>
        NotBeforeEither(earlier, time, now);
        OthersLeaveRecent(p, earlier, since, client, now);
        RequestMoves(p, After(p, earlier), c, time, client);
        var q := Stored(After(p, earlier), client);
        if Stored(After(p, log), client) != q {
          EachClientIsLimited(p, earlier, client, time);
          TailIsShorter(p, q, Counted(p, earlier, client), time);
          IdleIsStale(q, time - p.window, now - p.window);
          NothingIsFresh(now - p.window);
        }
      case More(earlier, GiveBack(c, _)) => OthersLeaveRecent(p, earlier, since, client, now);
    }
  }

  lemma NothingIsFresh(cutoff: real)
    ensures Fresh([], cutoff) == []
  {
  }

  lemma LeavesInTime(p: Limits, stored: Times, now: real, retry: real)
    requires p.limit >= 1 && |stored| <= p.limit && now <= retry
    requires |Fresh(stored, now - p.window)| >= p.limit
    ensures var q := Fresh(stored, now - p.window);
      |Fresh(q, retry - p.window)| >= p.limit <==> retry < q[0] + p.window
  {
    FreshFacts(stored, now - p.window);
    FreshFacts(Fresh(stored, now - p.window), retry - p.window);
  }

  lemma RefusalStores(p: Limits, seen: Seen, client: string, now: real)
    requires p.limit >= 1 && Admitted(p.limit, p.window, seen, client, now).answer.Wait?
    ensures Stored(Admitted(p.limit, p.window, seen, client, now).seen, client) == Fresh(Stored(seen, client), now - p.window)
  {
    hide Fresh;
  }

  /** A refusal's wait is exact: a retry no call of this client came between is refused before
      that moment and not after it, whatever other clients did and whoever was forgotten. */
  lemma WaitIsExact(p: Limits, before: Log, client: string, now: real, log: Log, retry: real)
    requires p.limit >= 1 && AnswerTo(p, before, client, now).Wait?
    requires var refused := More(before, Request(client, now));
      InOrder(log) && Others(log, refused, client) && InOrder(refused) && NotBefore(retry, log)
    ensures AnswerTo(p, log, client, retry).Wait? <==> retry < now + AnswerTo(p, before, client, now).seconds
  {
    hide Admitted, Fresh, ClientInv;
    var refused := More(before, Request(client, now));
    var stored := Stored(After(p, before), client);
    OthersLeaveRecent(p, log, refused, client, retry);
    OthersNotBefore(log, refused, client, retry);
    AnswerIsByCount(p, After(p, before), client, now);
    AnswerIsByCount(p, After(p, log), client, retry);
    RefusalStores(p, After(p, before), client, now);
    EachClientIsLimited(p, before, client, now);
    TailIsShorter(p, stored, Counted(p, before, client), now);
    LeavesInTime(p, stored, now, retry);
  }

  lemma {:induction false} OthersNotBefore(log: Log, since: Log, client: string, now: real)
    requires Others(log, since, client) && InOrder(log) && NotBefore(now, log)
    ensures NotBefore(now, since)
  {
    if log != since {
      if log.event.Request? {
        NotBeforeEither(log.earlier, log.event.now, now);
      }
      OthersNotBefore(log.earlier, since, client, now);
    }
  }

  // ---- forgetting idle clients ----------------------------------------------------------------------

  /** The limiter that forgets nobody. */
  function Ideal(p: Limits, log: Log): Seen {
    match log
    case Nothing => map[]
    case More(earlier, Request(client, now)) =>
      Ideal(p, earlier)[client := CountedTimes(p, Ideal(p, earlier), client, now, client)]
    case More(earlier, GiveBack(client, _)) => Refunded(Ideal(p, earlier), client)
  }

  function IdealAnswer(p: Limits, log: Log, client: string, now: real): Answer
    requires p.limit >= 1
  {
    var q := Fresh(Stored(Ideal(p, log), client), now - p.window);
    if |q| < p.limit then Proceed else Wait(q[0] + p.window - now)
  }

  lemma {:induction false} FreshWithoutLast(q: Times, cutoff: real)
    requires q != []
    ensures var r := Fresh(q, cutoff); Fresh(q[..|q| - 1], cutoff) == if r == [] then [] else r[..|r| - 1]
  {
    if q[0] <= cutoff && |q| > 1 {
      assert q[..|q| - 1][1..] == q[1..][..|q[1..]| - 1];
      FreshWithoutLast(q[1..], cutoff);
    }
  }

  lemma RefundsAgree(q: Times, ideal: Times, cutoff: real)
    requires Fresh(q, cutoff) == Fresh(ideal, cutoff)
    ensures Fresh(if q == [] then q else q[..|q| - 1], cutoff)
      == Fresh(if ideal == [] then ideal else ideal[..|ideal| - 1], cutoff)
  {
    if q != [] {
      FreshWithoutLast(q, cutoff);
    }
    if ideal != [] {
      FreshWithoutLast(ideal, cutoff);
    }
  }

  lemma {:induction false} SameRecent(p: Limits, log: Log, client: string, now: real)
    requires p.limit >= 1 && InOrder(log) && NotBefore(now, log)
    ensures Fresh(Stored(After(p, log), client), now - p.window) == Fresh(Stored(Ideal(p, log), client), now - p.window)
  {
    hide Admitted, Fresh, ClientInv;
    match log
    case Nothing =>
    case More(earlier, Request(c, time)) =>
      NotBeforeEither(earlier, time, now);
      SameRecent(p, earlier, client, time);
      SameRecent(p, earlier, client, now);
      RequestMoves(p, After(p, earlier), c, time, client);
      var counted := CountedTimes(p, After(p, earlier), c, time, client);
      if Stored(After(p, log), client) != counted {
        CountedIsSorted(p, earlier, c, time, client);
        IdleIsStale(counted, time - p.window, now - p.window);
        NothingIsFresh(now - p.window);
      }
    case More(earlier, GiveBack(c, _)) =>
      SameRecent(p, earlier, client, now);
      RefundsAgree(Stored(After(p, earlier), client), Stored(Ideal(p, earlier), client), now - p.window);
  }

  lemma CountedIsSorted(p: Limits, log: Log, c: string, now: real, client: string)
    requires p.limit >= 1 && InOrder(log) && NotBefore(now, log)
    ensures Sorted(CountedTimes(p, After(p, log), c, now, client))
  {
    hide Admitted, Fresh, ClientInv, Counted, After;
    EachClientIsLimited(p, log, client, now);
    StoredIsRecent(p, Stored(After(p, log), client), Counted(p, log, client), now);
    FreshFacts(Stored(After(p, log), client), now - p.window);
  }

  lemma StoredIsRecent(p: Limits, q: Times, h: Times, now: real)
    requires p.limit >= 1 && ClientInv(p, q, h, now)
    ensures Sorted(q) && forall i :: 0 <= i < |q| ==> q[i] <= now
  {
    TailIsShorter(p, q, h, now);
    assert forall i :: 0 <= i < |q| ==> q[i] == h[|h| - |q| + i];
  }

  /** Forgetting idle clients changes no answer, to anyone, at any later time: where the limiter
      does not raise it answers as one that never forgets. */
  lemma ForgettingChangesNoAnswer(p: Limits, log: Log, client: string, now: real)
    requires p.limit >= 1 && InOrder(log) && NotBefore(now, log)
    ensures var answer := AnswerTo(p, log, client, now);
      answer == IdealAnswer(p, log, client, now) || (answer.IndexError? && IdealAnswer(p, log, client, now).Proceed?)
  {
    SameRecent(p, log, client, now);
    AnswerIsByCount(p, After(p, log), client, now);
  }

  // ---- the empty deque ----------------------------------------------------------------------------------

  predicate NoRefunds(log: Log) {
    log.More? ==> log.event.Request? && NoRefunds(log.earlier)
  }

  /** Only a refund leaves an empty deque behind: without one no call raises. */
  lemma {:induction false} OnlyRefundsRaise(p: Limits, log: Log, client: string, now: real)
    requires p.limit >= 1 && NoRefunds(log)
    ensures !SomeEmpty(After(p, log)) && !AnswerTo(p, log, client, now).IndexError?
  {
    if log.More? {
      OnlyRefundsRaise(p, log.earlier, log.event.client, log.event.now);
    }
  }

  function Arrivals(names: seq<string>): Log {
    if names == [] then Nothing else More(Arrivals(names[..|names| - 1]), Request(names[|names| - 1], 0.0))
  }

  lemma FirstRequest(p: Limits, seen: Seen, client: string)
    requires p.limit >= 1 && client !in seen && |seen| < TABLE_SIZE
    ensures Admitted(p.limit, p.window, seen, client, 0.0) == Outcome(Proceed, seen[client := [0.0]])
    ensures |seen[client := [0.0]]| == |seen| + 1
  {
    assert Stored(seen, client) == [] && [] + [0.0] == [0.0];
    assert seen[client := [0.0]].Keys == seen.Keys + {client};
  }

  lemma {:induction false} ArrivalsFill(p: Limits, names: seq<string>)
    requires p.limit >= 1 && Distinct(names) && |names| <= TABLE_SIZE
    ensures var seen := After(p, Arrivals(names));
      |seen| == |names| && forall name :: (name in seen <==> name in names) && (name in seen ==> seen[name] == [0.0])
  {
    hide Admitted;
    if names != [] {
      var init, last := names[..|names| - 1], names[|names| - 1];
      ArrivalsFill(p, init);
      assert names == init + [last] && last !in init;
      FirstRequest(p, After(p, Arrivals(init)), last);
    }
  }

  lemma NewcomerRaises(p: Limits, seen: Seen, emptied: string, newcomer: string)
    requires p.limit >= 1 && |seen| == TABLE_SIZE && newcomer !in seen && emptied in seen && |seen[emptied]| == 1
    ensures Admitted(p.limit, p.window, Refunded(seen, emptied), newcomer, 0.0).answer.IndexError?
  {
    var refunded := Refunded(seen, emptied);
    var full := refunded[newcomer := [0.0]];
    assert full.Keys == seen.Keys + {newcomer};
    assert full[emptied] == [];
    AnswerIsByCount(p, refunded, newcomer, 0.0);
    assert [] + [0.0] == [0.0];
  }

  /** As many clients as the table keeps, one of them rejected and refunded, and then a new one:
      its request is counted and its call raises. */
  lemma RefundThenFullTableRaises(p: Limits, names: seq<string>, newcomer: string)
    requires p.limit >= 1 && Distinct(names) && |names| == TABLE_SIZE && newcomer !in names
    ensures AnswerTo(p, More(Arrivals(names), GiveBack(names[0], 0.0)), newcomer, 0.0).IndexError?
  {
    hide Admitted, Refunded, Arrivals;
    ArrivalsFill(p, names);
    assert names[0] in names;
    NewcomerRaises(p, After(p, Arrivals(names)), names[0], newcomer);
  }

  lemma OneRequest(p: Limits, q: Times, a: string, now: real)
    requires p.limit >= 1 && |Fresh(q, now - p.window)| < p.limit
    ensures Admitted(p.limit, p.window, map[a := q], a, now).seen == map[a := Fresh(q, now - p.window) + [now]]
  {
    assert map[a := q][a := Fresh(q, now - p.window) + [now]] == map[a := Fresh(q, now - p.window) + [now]];
    assert map[a := Fresh(q, now - p.window) + [now]].Keys == {a};
  }

  /** The clock is read before the lock is taken. Two threads' calls that swap in between let
      `limit + 1` requests into one window: the last had no room. */
  lemma SwappedCallsOverfillWindow(a: string)
    ensures var p := Limits(2, 10.0);
      var three := More(More(More(Nothing, Request(a, 0.0)), Request(a, 0.5)), Request(a, 10.6));
      var log := More(three, Request(a, 9.9));
      && !InOrder(log) && Unrefunded(p, log, a) == [0.0, 0.5, 10.6, 9.9]
      && InWindow(Unrefunded(p, log, a), 0.0, p.window) == {0, 1, 3}
      && Counts(p, three, a, 9.9) && !Room(p, Unrefunded(p, three, a), 9.9)
  {
    hide Admitted;
    var p := Limits(2, 10.0);
    var one := More(Nothing, Request(a, 0.0));
    var two := More(one, Request(a, 0.5));
    var three := More(two, Request(a, 10.6));
    FirstRequest(p, map[], a);
    assert After(p, one) == map[a := [0.0]];
    OneRequest(p, [0.0], a, 0.5);
    assert [0.0] + [0.5] == [0.0, 0.5];
    assert After(p, two) == map[a := [0.0, 0.5]];
    AllStale([0.0, 0.5], 10.6 - 10.0);
    OneRequest(p, [0.0, 0.5], a, 10.6);
    assert [] + [10.6] == [10.6];
    assert After(p, three) == map[a := [10.6]];
    assert Fresh([10.6], 9.9 - 10.0) == [10.6];
    assert Unrefunded(p, one, a) == [0.0];
    assert Unrefunded(p, two, a) == [0.0, 0.5];
    assert Unrefunded(p, three, a) == [0.0, 0.5, 10.6];
    assert InWindow([0.0, 0.5, 10.6], 0.0, 10.0) == {0, 1};
    assert 0.0 in [0.0, 0.5, 10.6] + [9.9];
  }

  lemma OrderedMore(log: Log, client: string, now: real, later: real)
    requires InOrder(log) && NotBefore(now, log) && now <= later
    ensures InOrder(More(log, Request(client, now))) && NotBefore(later, More(log, Request(client, now)))
  {
  }

  const TWO_IN_TEN := Limits(2, 10.0)

  lemma TwoAtNine(a: string)
    ensures var two := More(More(Nothing, Request(a, 0.0)), Request(a, 9.0));
      && After(TWO_IN_TEN, two) == map[a := [0.0, 9.0]] && Genuine(TWO_IN_TEN, two, a)
      && Unrefunded(TWO_IN_TEN, two, a) == Counted(TWO_IN_TEN, two, a) == [0.0, 9.0]
      && InOrder(two) && NotBefore(10.0, two)
  {
    hide Admitted;
    var p := TWO_IN_TEN;
    var one := More(Nothing, Request(a, 0.0));
    FirstRequest(p, map[], a);
    assert After(p, one) == map[a := [0.0]] && Unrefunded(p, one, a) == Counted(p, one, a) == [0.0];
    OneRequest(p, [0.0], a, 9.0);
    assert [0.0] + [9.0] == [0.0, 9.0];
    OrderedMore(Nothing, a, 0.0, 9.0);
    OrderedMore(one, a, 9.0, 10.0);
    assert Genuine(p, one, a);
  }

  lemma EarlierIsRefunded(a: string)
    ensures var two := More(More(Nothing, Request(a, 0.0)), Request(a, 9.0));
      var refunded := More(two, GiveBack(a, 0.0));
      && After(TWO_IN_TEN, refunded) == map[a := [0.0]] && Unrefunded(TWO_IN_TEN, refunded, a) == [9.0]
      && Genuine(TWO_IN_TEN, refunded, a) && !NamesLatest(TWO_IN_TEN, refunded, a)
      && InOrder(refunded) && NotBefore(10.0, refunded)
  {
    hide Admitted;
    TwoAtNine(a);
    assert [0.0, 9.0][..1] == [0.0] && [0.0][..0] == [] && [] + [9.0] == [9.0];
    assert Without([0.0], 0.0) == [];
    assert Without([0.0, 9.0], 0.0) == [9.0];
  }

  /** A refund takes the latest time, whichever request it is for. When of two requests the
      earlier is the rejected one, the served one is dated by it, and three are served within a
      window of two. */
  lemma RefundOfEarlierOverfillsWindow(a: string)
    ensures var two := More(More(Nothing, Request(a, 0.0)), Request(a, 9.0));
      var log := More(More(More(two, GiveBack(a, 0.0)), Request(a, 10.0)), Request(a, 10.0));
      && InOrder(log) && Genuine(TWO_IN_TEN, log, a) && !NamesLatest(TWO_IN_TEN, log, a)
      && Unrefunded(TWO_IN_TEN, log, a) == [9.0, 10.0, 10.0]
      && InWindow(Unrefunded(TWO_IN_TEN, log, a), 9.0, 10.0) == {0, 1, 2}
  {
    hide Admitted;
    var p := TWO_IN_TEN;
    var refunded := More(More(More(Nothing, Request(a, 0.0)), Request(a, 9.0)), GiveBack(a, 0.0));
    var third := More(refunded, Request(a, 10.0));
    EarlierIsRefunded(a);
    OrderedMore(refunded, a, 10.0, 10.0);
    OrderedMore(third, a, 10.0, 10.0);
    AllStale([0.0], 10.0 - 10.0);
    OneRequest(p, [0.0], a, 10.0);
    assert [] + [10.0] == [10.0] && [9.0] + [10.0] == [9.0, 10.0];
    assert After(p, third) == map[a := [10.0]] && Unrefunded(p, third, a) == [9.0, 10.0];
    assert Fresh([10.0], 10.0 - 10.0) == [10.0];
    assert [9.0, 10.0] + [10.0] == [9.0, 10.0, 10.0];
    assert Genuine(p, third, a) && !NamesLatest(p, third, a);
  }

  /** What a counted request leaves in the table: with at most 10,000 clients everyone, with more
      exactly those with a request within the window, their times untouched. */
  lemma ForgetsExactlyIdle(p: Limits, seen: Seen, client: string, now: real)
    requires Admitted(p.limit, p.window, seen, client, now).answer == Proceed
    ensures var left := Admitted(p.limit, p.window, seen, client, now).seen;
      var full := seen[client := Fresh(Stored(seen, client), now - p.window) + [now]];
      && (|full| <= 10_000 ==> left == full)
      && (|full| > 10_000 ==> forall c :: c in left <==>
           c in full && full[c] != [] && now - p.window < full[c][|full[c]| - 1])
      && (forall c :: c in left ==> left[c] == full[c])
  {
  }
}
