/** How late a login may be recorded before a live one can be evicted: the delay that LoginFlow
    allows is the largest. */
module EvictionLimit {
  import opened Wrappers
  import opened Clock
  import opened Division
  import opened PendingLogins
  import opened RateLimiter
  import opened LoginFlow

  /** One interval of the limiter, one nanosecond short of two, and the time by which every login
      of the run below is still live. */
  const E: int := START_EVERY
  const Late: int := 2 * E - 1
  const End: int := 61 * E

  /** The k-th multiple of the interval. */
  function At(k: nat): (t: int)
    ensures t == k * E
  {
    12_000_000_000 * k
  }

  /** A state of its own for each login. */
  function Name(n: nat): string { seq(n, i => 'x') }

  ghost predicate Timely(events: seq<Event>, delay: int, clock: int) {
    Ordered(events) && Proper(events, delay) && forall i :: 0 <= i < |events| ==> events[i].now <= clock
  }

  lemma AddEvent(events: seq<Event>, e: Event, delay: int, clock: int)
    requires Timely(events, delay, clock) && clock <= e.now && Permitted(After(events), e, delay)
    ensures Timely(events + [e], delay, e.now) && After(events + [e]) == Step(After(events), e)
  {
    assert (events + [e])[..|events|] == events;
  }

  /** The limiter after `n` grants, the first at time 0 and the others from Late on, with as many
      permits left. */
  ghost predicate Limited(f: Flow, n: nat, tokens: nat, last: int, clock: int) {
    && f.limiter.bucket == Bucket(E, START_BURST, tokens, Some(last))
    && |f.limiter.grants| == n
    && forall p :: 0 <= p < n ==> f.limiter.grants[p] <= clock && (p > 0 ==> f.limiter.grants[p] >= Late)
  }

  ghost predicate Filled(f: Flow, m: nat) {
    && |f.table| == m && f.seqNo == |f.used| == m
    && (forall i :: 0 <= i < m ==> f.used[i] == i + 1)
    && (forall s :: s in f.table ==> |s| <= m && f.table[s].expires >= End)
  }

  /** Less than an interval after the last credit a permit is spent, and exactly an interval after
      it one is credited and spent. */
  lemma StartGranted(f: Flow, n: nat, tokens: nat, last: int, clock: int, now: int)
    requires Limited(f, n, tokens, last, clock) && n > 0 && clock <= now && Late <= now
    requires (tokens > 0 && last <= now < last + E) || (tokens == 0 && now == last + E)
    ensures var f' := Step(f, Start(now));
            && f' == f.(limiter := f'.limiter) && f'.limiter.grants == f.limiter.grants + [now]
            && Limited(f', n + 1, if tokens > 0 then tokens - 1 else 0, if tokens > 0 then last else now, now)
  {
    DivUnique(E, E, 1, 0);
  }

  lemma AddStart(events: seq<Event>, delay: int, n: nat, tokens: nat, last: int, clock: int, now: int, m: nat)
    returns (events': seq<Event>)
    requires Timely(events, delay, clock) && Limited(After(events), n, tokens, last, clock) && Filled(After(events), m)
    requires n > 0 && clock <= now && Late <= now
    requires (tokens > 0 && last <= now < last + E) || (tokens == 0 && now == last + E)
    ensures Timely(events', delay, now) && Filled(After(events'), m)
    ensures After(events').limiter.grants == After(events).limiter.grants + [now]
    ensures Limited(After(events'), n + 1, if tokens > 0 then tokens - 1 else 0, if tokens > 0 then last else now, now)
  {
    StartGranted(After(events), n, tokens, last, clock, now);
    AddEvent(events, Start(now), delay, clock);
    events' := events + [Start(now)];
  }

  lemma FirstStarts(delay: int) returns (events: seq<Event>)
    ensures Timely(events, delay, Late)
    ensures Limited(After(events), 2, 4, E, Late) && Filled(After(events), 0)
  {
    DivUnique(Late, E, 1, E - 1);
    AddEvent([], Start(0), delay, 0);
    AddEvent([Start(0)], Start(Late), delay, 0);
    events := [Start(0)] + [Start(Late)];
    assert [] + [Start(0)] == [Start(0)];
  }

  /** All the permits there are, just before an interval is over, and one when it is. */
  lemma SevenPermits(delay: int) returns (events: seq<Event>)
    ensures Timely(events, delay, 2 * E)
    ensures Limited(After(events), 7, 0, 2 * E, 2 * E) && Filled(After(events), 0)
  {
    events := FirstStarts(delay);
    for n := 2 to 6
      invariant Timely(events, delay, Late)
      invariant Limited(After(events), n, 6 - n, E, Late) && Filled(After(events), 0)
    {
      events := AddStart(events, delay, n, 6 - n, E, Late, Late, 0);
    }
    events := AddStart(events, delay, 6, 0, E, Late, 2 * E, 0);
  }

  /** ... and one at each of the next nine. */
  lemma SixteenPermits(delay: int) returns (events: seq<Event>)
    ensures Timely(events, delay, 11 * E)
    ensures Limited(After(events), 16, 0, 11 * E, 11 * E) && Filled(After(events), 0)
  {
    events := SevenPermits(delay);
    for n := 7 to 16
      invariant Timely(events, delay, At(n - 5))
      invariant Limited(After(events), n, 0, At(n - 5), At(n - 5)) && Filled(After(events), 0)
    {
      events := AddStart(events, delay, n, 0, At(n - 5), At(n - 5), At(n - 4), 0);
    }
  }

  lemma NothingExpired(t: Table, now: int)
    requires forall s :: s in t ==> now <= t[s].expires
    ensures Prune(t, now) == t
  {
  }

  /** Recording the next permit adds a login, or, when the table is full, evicts one. */
  lemma RecordNext(f: Flow, m: nat, now: int)
    requires Filled(f, m) && 11 * E <= now <= End
    ensures |Prune(f.table, now)| == m
    ensures m < MAX_PENDING ==> Filled(Recorded(f, now, Name(m + 1), m + 1), m + 1)
    ensures m == MAX_PENDING ==> Recorded(f, now, Name(m + 1), m + 1).evicted
  {
    NothingExpired(f.table, now);
    if m < MAX_PENDING {
      var f' := Recorded(f, now, Name(m + 1), m + 1);
      assert |Name(m + 1)| == m + 1;
      assert Name(m + 1) !in f.table;
      assert f'.table.Keys == f.table.Keys + {Name(m + 1)};
    }
  }

  lemma AddRecord(events: seq<Event>, delay: int, clock: int, n: nat, last: int, m: nat) returns (events': seq<Event>)
    requires Timely(events, delay, clock) && 11 * E <= clock <= End && m <= MAX_PENDING
    requires Limited(After(events), n, 0, last, clock) && Filled(After(events), m) && m + 1 < n
    requires clock <= After(events).limiter.grants[m + 1] + delay
    ensures Timely(events', delay, clock) && Limited(After(events'), n, 0, last, clock)
    ensures After(events').limiter == After(events).limiter
    ensures if m < MAX_PENDING then Filled(After(events'), m + 1) else After(events').evicted
  {
    var e := Record(clock, Name(m + 1), m + 1);
    assert forall p :: p in After(events).used ==> p <= m;
    AddEvent(events, e, delay, clock);
    RecordNext(After(events), m, clock);
    events' := events + [e];
  }

  /** Fifteen of the sixteen permits recorded at once, the oldest of them as late as can be. */
  lemma FifteenLogins(delay: int) returns (events: seq<Event>)
    requires delay > 9 * E
    ensures Timely(events, delay, 11 * E)
    ensures Limited(After(events), 16, 0, 11 * E, 11 * E) && Filled(After(events), 15)
  {
    events := SixteenPermits(delay);
    for m := 0 to 15
      invariant Timely(events, delay, 11 * E)
      invariant Limited(After(events), 16, 0, 11 * E, 11 * E) && Filled(After(events), m)
    {
      events := AddRecord(events, delay, 11 * E, 16, 11 * E, m);
    }
  }

  /** A start and a record, an interval later. */
  lemma NextLogin(events: seq<Event>, delay: int, m: nat, clock: int) returns (events': seq<Event>)
    requires delay > 9 * E && 15 <= m <= MAX_PENDING && 11 * E <= clock <= End - E
    requires Timely(events, delay, clock)
    requires Limited(After(events), m + 1, 0, clock, clock) && Filled(After(events), m)
    ensures Timely(events', delay, clock + E) && Limited(After(events'), m + 2, 0, clock + E, clock + E)
    ensures if m < MAX_PENDING then Filled(After(events'), m + 1) else After(events').evicted
  {
    events' := AddStart(events, delay, m + 1, 0, clock, clock, clock + E, m);
    events' := AddRecord(events', delay, clock + E, m + 2, clock + E, m);
  }

  /** `m` logins recorded, one at every interval so far. */
  ghost predicate Grown(events: seq<Event>, delay: int, m: nat)
    requires m >= 15
  {
    && Timely(events, delay, At(m - 4))
    && Limited(After(events), m + 1, 0, At(m - 4), At(m - 4)) && Filled(After(events), m)
  }

  lemma LoginAt(events: seq<Event>, delay: int, m: nat) returns (events': seq<Event>)
    requires delay > 9 * E && 15 <= m < MAX_PENDING && Grown(events, delay, m)
    ensures Grown(events', delay, m + 1)
  {
    var clock := At(m - 4);
    assert At(m - 3) == clock + E;
    events' := NextLogin(events, delay, m, clock);
  }

  /** One login at every interval, until the table is full. */
  lemma FullTable(delay: int) returns (events: seq<Event>)
    requires delay > 9 * E
    ensures Grown(events, delay, MAX_PENDING)
  {
    events := FifteenLogins(delay);
    assert Grown(events, delay, 15);
    for m := 15 to MAX_PENDING
      invariant Grown(events, delay, m)
    {
      events := LoginAt(events, delay, m);
    }
  }

  /** One more finds 64 live logins. */
  lemma EvictingRun(delay: int) returns (events: seq<Event>)
    requires delay > 9 * E
    ensures Timely(events, delay, End) && After(events).evicted
  {
    events := FullTable(delay);
    events := NextLogin(events, delay, MAX_PENDING, At(60));
  }

  lemma MostLiveGrows(delay: int)
    requires 0 <= delay
    ensures MostLive(delay) <= MAX_PENDING <==> delay <= 9 * E
  {
    var x := LOGIN_STATE_TTL + delay + START_EVERY - 1;
    assert x == x / E * E + x % E;
  }

  /** A live login can be evicted exactly when a login may be recorded more than 108 seconds after
      its permit. */
  lemma EvictionPossibleExactly(delay: int)
    requires 0 <= delay
    ensures (exists events: seq<Event> :: Ordered(events) && Proper(events, delay) && After(events).evicted)
            <==> delay > 108 * SECOND
  {
    MostLiveGrows(delay);
    if delay > 108 * SECOND {
      var events := EvictingRun(delay);
      assert Ordered(events) && Proper(events, delay) && After(events).evicted;
    } else {
      forall events: seq<Event> | Ordered(events) && Proper(events, delay) ensures !After(events).evicted {
        LiveLoginsAreNeverEvicted(events, if events == [] then 0 else events[|events| - 1].now, delay);
      }
    }
  }
}
