/** The limiter, the time to live and the cap taken together: what no one of them promises is
    that a live login is never evicted, and so that a callback is refused only when its state
    has expired, was consumed, or was never issued. */
module LoginFlow {
  import opened Wrappers
  import opened Clock
  import opened Division
  import opened PendingLogins
  import opened RateLimiter

  const START_BURST: nat := 5
  const START_EVERY: int := 12 * SECOND

  /** A request to start an authorization asks the limiter for a permit. A permitted one goes on
      to record a login, with a clock reading of its own and in whatever order the permitted ones
      get that far, or fails and never does. A callback comes back with a state. */
  datatype Event =
    | Start(now: int)
    | Record(now: int, state: string, permit: nat)
    | Callback(now: int, hasCode: bool, state: string)

  /** `used` gives the permit of each login recorded, by its number. `evicted` is a history flag:
      the eviction loop has been entered. */
  datatype Flow = Flow(limiter: Run, used: seq<nat>, table: Table, seqNo: nat, evicted: bool)

  const Initial := Flow(Run(New(START_BURST, START_EVERY), None, 0, [], 0), [], map[], 0, false)

  ghost function Recorded(f: Flow, now: int, state: string, permit: nat): Flow {
    var pruned := Prune(f.table, now);
    Flow(f.limiter, f.used + [permit],
         EvictDown(pruned)[state := Login(now + LOGIN_STATE_TTL, f.seqNo + 1)], f.seqNo + 1,
         f.evicted || |pruned| >= MAX_PENDING)
  }

  ghost function Step(f: Flow, e: Event): (f': Flow)
    requires f.limiter.bucket.interval > 0
    ensures f'.limiter.bucket.interval == f.limiter.bucket.interval
  {
    match e
    case Start(now) => f.(limiter := Call(f.limiter, now))
    case Record(now, state, permit) => Recorded(f, now, state, permit)
    case Callback(now, hasCode, state) =>
      if hasCode then f.(table := Prune(f.table, now) - {state}) else f
  }

  ghost function After(events: seq<Event>): (f: Flow)
    ensures f.limiter.bucket.interval > 0
  {
    if events == [] then Initial else Step(After(events[..|events| - 1]), events[|events| - 1])
  }

  /** A login is recorded once for a permit, at most `delay` after it. */
  predicate Permitted(f: Flow, e: Event, delay: int) {
    e.Record? ==>
      && e.permit < |f.limiter.grants| && e.permit !in f.used
      && f.limiter.grants[e.permit] <= e.now <= f.limiter.grants[e.permit] + delay
  }

  ghost predicate Proper(events: seq<Event>, delay: int) {
    events == [] ||
    (Proper(events[..|events| - 1], delay) && Permitted(After(events[..|events| - 1]), events[|events| - 1], delay))
  }

  predicate Ordered(events: seq<Event>) {
    forall i, j :: 0 <= i <= j < |events| ==> events[i].now <= events[j].now
  }

  /** Whether a callback with this state, arriving now, is accepted. */
  predicate Accepted(f: Flow, now: int, state: string) {
    state in f.table && now <= f.table[state].expires
  }

  /** When `state` was last issued, unless a callback has consumed it since. */
  function LastIssue(events: seq<Event>, state: string): Option<int> {
    if events == [] then None
    else
      var before, e := LastIssue(events[..|events| - 1], state), events[|events| - 1];
      if e.Record? && e.state == state then Some(e.now)
      else if e.Callback? && e.hasCode && e.state == state then None
      else before
  }

  function StartTimes(events: seq<Event>): seq<int> {
    if events == [] then []
    else
      var rest := StartTimes(events[..|events| - 1]);
      if events[|events| - 1].Start? then rest + [events[|events| - 1].now] else rest
  }

  lemma {:induction false} StartTimesOrdered(events: seq<Event>)
    requires Ordered(events)
    ensures Nondecreasing(StartTimes(events))
    ensures forall t :: t in StartTimes(events) ==> exists i :: 0 <= i < |events| && events[i].now == t
  {
    if events != [] {
      var init := events[..|events| - 1];
      StartTimesOrdered(init);
      assert forall i :: 0 <= i < |init| ==> init[i] == events[i];
      var rest := StartTimes(init);
      assert forall i :: 0 <= i < |rest| ==> rest[i] in rest;
    }
  }

  /** The flow's limiter is the bucket called at the times of the start requests. */
  lemma {:induction false} LimiterSeesStarts(events: seq<Event>)
    ensures After(events).limiter == Calls(START_BURST, START_EVERY, StartTimes(events))
  {
    if events != [] {
      var init, e := events[..|events| - 1], events[|events| - 1];
      LimiterSeesStarts(init);
      if e.Start? {
        var times := StartTimes(events);
        assert times[..|times| - 1] == StartTimes(init);
      }
    }
  }

  // ---------------------------------------------------------------- counting live logins

  /** The most permits within one time to live and one delay. */
  function MostLive(delay: int): int {
    START_BURST + (LOGIN_STATE_TTL + delay + START_EVERY - 1) / START_EVERY
  }

  lemma MostLiveAtOnce()
    ensures MostLive(0) == 55
    ensures MostLive(108 * SECOND) == MAX_PENDING
  {
    DivUnique(LOGIN_STATE_TTL + START_EVERY - 1, START_EVERY, 50, START_EVERY - 1);
    DivUnique(LOGIN_STATE_TTL + 108 * SECOND + START_EVERY - 1, START_EVERY, 59, START_EVERY - 1);
  }

  /** The first of a nondecreasing sequence of times not before `t`. */
  function FirstSince(g: seq<int>, t: int): (i: nat)
    ensures i <= |g| && (i < |g| ==> g[i] >= t)
    ensures forall j :: 0 <= j < i ==> g[j] < t
  {
    if g == [] || g[0] >= t then 0
    else
      var i := 1 + FirstSince(g[1..], t);
      assert forall j :: 0 < j < i ==> g[j] == g[1..][j - 1];
      i
  }

  function Range(lo: nat, hi: nat): (s: set<nat>)
    requires lo <= hi
    ensures forall x :: x in s <==> lo <= x < hi
    ensures |s| == hi - lo
    decreases hi
  {
    if lo == hi then {} else Range(lo, hi - 1) + {hi - 1}
  }

  lemma {:induction false} CountInto(index: map<string, nat>, into: set<nat>)
    requires forall s :: s in index ==> index[s] in into
    requires forall a, b :: a in index && b in index && a != b ==> index[a] != index[b]
    ensures |index| <= |into|
    decreases |index|
  {
    if |index| > 0 {
      assert |index.Keys| > 0;
      var s :| s in index.Keys;
      assert index.Keys == (index - {s}).Keys + {s};
      CountInto(index - {s}, into - {index[s]});
    }
  }

  // ---------------------------------------------------------------- what every run keeps

  /** The login was recorded, at most `delay` after it was granted, for the permit that its number
      names. */
  ghost predicate AnswersTo(l: Login, used: seq<nat>, grants: seq<int>, delay: int) {
    && 1 <= l.seqNo <= |used|
    && var permit := used[l.seqNo - 1];
       permit < |grants| && grants[permit] <= l.expires - LOGIN_STATE_TTL <= grants[permit] + delay
  }

  ghost predicate Apiece(used: seq<nat>) { forall i, j :: 0 <= i < j < |used| ==> used[i] != used[j] }

  /** Each login answers to a permit of its own. */
  ghost predicate Numbering(t: Table, used: seq<nat>, grants: seq<int>, delay: int) {
    Numbered(t, |used|) && Apiece(used) && forall s :: s in t ==> AnswersTo(t[s], used, grants, delay)
  }

  /** A live login's permit is recent, and no other live login's. */
  lemma LiveOnesDiffer(t: Table, used: seq<nat>, g: seq<int>, now: int, delay: int, lo: nat)
    requires Numbering(t, used, g, delay)
    requires forall j :: 0 <= j < |g| && j < lo ==> g[j] < now - LOGIN_STATE_TTL - delay
    ensures forall s :: s in Prune(t, now) ==>
              1 <= t[s].seqNo <= |used| && lo <= used[t[s].seqNo - 1] < |g| && used[t[s].seqNo - 1] in used
    ensures forall a, b :: a in Prune(t, now) && b in Prune(t, now) && a != b ==>
              used[t[a].seqNo - 1] != used[t[b].seqNo - 1]
  {
    assert forall s :: s in Prune(t, now) ==> AnswersTo(t[s], used, g, delay);
    forall a, b | a in Prune(t, now) && b in Prune(t, now) && a != b
      ensures used[t[a].seqNo - 1] != used[t[b].seqNo - 1]
    {
      assert t[a].seqNo != t[b].seqNo;
    }
  }

  /** So the live logins and the permits in `spare` are no more than the permits from `lo` on. */
  lemma CountLive(t: Table, used: seq<nat>, g: seq<int>, now: int, delay: int, lo: nat, spare: set<nat>)
    requires Numbering(t, used, g, delay) && lo <= |g|
    requires forall j :: 0 <= j < lo ==> g[j] < now - LOGIN_STATE_TTL - delay
    requires forall p :: p in spare ==> lo <= p < |g| && p !in used
    ensures |Prune(t, now)| + |spare| <= |g| - lo
  {
    LiveOnesDiffer(t, used, g, now, delay, lo);
    var live := Prune(t, now);
    var index := map s | s in live :: used[t[s].seqNo - 1];
    CountInto(index, Range(lo, |g|) - spare);
    assert index.Keys == live.Keys;
    Apart(Range(lo, |g|), spare);
  }

  /** The live logins, and permits that are neither used nor older than `delay`, are no more than
      the permits of one time to live and one delay. */
  lemma LivePlusSpare(t: Table, used: seq<nat>, times: seq<int>, now: int, delay: int, spare: set<nat>)
    requires Nondecreasing(times) && 0 <= delay
    requires var g := Calls(START_BURST, START_EVERY, times).grants;
             && Numbering(t, used, g, delay) && (forall i :: 0 <= i < |g| ==> g[i] <= now)
             && forall p :: p in spare ==> p < |g| && p !in used && now <= g[p] + delay
    ensures |Prune(t, now)| + |spare| <= MostLive(delay)
  {
    var g := Calls(START_BURST, START_EVERY, times).grants;
    var lo := FirstSince(g, now - LOGIN_STATE_TTL - delay);
    RecentPermits(times, lo, now, delay);
    CountLive(t, used, g, now, delay, lo, spare);
  }

  lemma Apart(all: set<nat>, part: set<nat>)
    requires forall p :: p in part ==> p in all
    ensures |all - part| + |part| == |all|
  {
    forall p ensures p in all <==> p in (all - part) + part {}
    assert all == (all - part) + part;
  }

  lemma RecentPermits(times: seq<int>, lo: nat, now: int, delay: int)
    requires Nondecreasing(times) && 0 <= delay
    requires var g := Calls(START_BURST, START_EVERY, times).grants;
             && lo <= |g| && (forall i :: 0 <= i < |g| ==> g[i] <= now)
             && (lo < |g| ==> g[lo] >= now - LOGIN_STATE_TTL - delay)
    ensures |Calls(START_BURST, START_EVERY, times).grants| - lo <= MostLive(delay)
  {
    var g := Calls(START_BURST, START_EVERY, times).grants;
    if lo < |g| {
      WindowBound(START_BURST, START_EVERY, times, lo, |g| - 1, LOGIN_STATE_TTL + delay);
    } else {
      SomeMayLive(delay);
    }
  }

  lemma SomeMayLive(delay: int)
    requires 0 <= delay
    ensures MostLive(delay) >= 0
  {
  }

  ghost predicate Sound(f: Flow, clock: int, delay: int) {
    && !f.evicted && f.seqNo == |f.used|
    && Numbering(f.table, f.used, f.limiter.grants, delay)
    && (forall i :: 0 <= i < |f.limiter.grants| ==> f.limiter.grants[i] <= clock)
  }

  lemma StartKeepsSound(f: Flow, now: int, clock: int, delay: int)
    requires Sound(f, clock, delay) && clock <= now && f.limiter.bucket.interval > 0
    ensures Sound(Step(f, Start(now)), now, delay)
  {
    var g, g' := f.limiter.grants, Step(f, Start(now)).limiter.grants;
    assert g' == g || g' == g + [now];
  }

  /** Recording finds room: no login is evicted for it. */
  lemma RecordFindsRoom(init: seq<Event>, e: Event, clock: int, delay: int)
    requires e.Record? && Ordered(init) && Permitted(After(init), e, delay) && clock <= e.now
    requires Sound(After(init), clock, delay) && 0 <= delay && MostLive(delay) <= MAX_PENDING
    ensures |Prune(After(init).table, e.now)| < MAX_PENDING
  {
    var f := After(init);
    LimiterSeesStarts(init);
    StartTimesOrdered(init);
    LivePlusSpare(f.table, f.used, StartTimes(init), e.now, delay, {e.permit});
  }

  lemma OneMoreUsed(used: seq<nat>, permit: nat)
    requires permit !in used && Apiece(used)
    ensures Apiece(used + [permit])
  {
    assert forall i :: 0 <= i < |used| ==> used[i] in used;
  }

  lemma OneMoreNumbered(t: Table, used: seq<nat>, grants: seq<int>, delay: int, now: int, state: string, permit: nat)
    requires Numbering(t, used, grants, delay)
    requires permit < |grants| && permit !in used && grants[permit] <= now <= grants[permit] + delay
    ensures Numbering(t[state := Login(now + LOGIN_STATE_TTL, |used| + 1)], used + [permit], grants, delay)
  {
    var t', used' := t[state := Login(now + LOGIN_STATE_TTL, |used| + 1)], used + [permit];
    OneMoreUsed(used, permit);
    forall s | s in t' ensures AnswersTo(t'[s], used', grants, delay) {
      assert s != state ==> AnswersTo(t[s], used, grants, delay);
    }
  }

  lemma PruneKeepsNumbering(t: Table, used: seq<nat>, grants: seq<int>, delay: int, now: int)
    requires Numbering(t, used, grants, delay)
    ensures Numbering(Prune(t, now), used, grants, delay)
  {
  }

  lemma RecordKeepsNumbering(t: Table, used: seq<nat>, grants: seq<int>, delay: int, now: int, state: string,
                             permit: nat)
    requires Numbering(t, used, grants, delay)
    requires permit < |grants| && permit !in used && grants[permit] <= now <= grants[permit] + delay
    ensures Numbering(Prune(t, now)[state := Login(now + LOGIN_STATE_TTL, |used| + 1)], used + [permit], grants, delay)
  {
    PruneKeepsNumbering(t, used, grants, delay, now);
    OneMoreNumbered(Prune(t, now), used, grants, delay, now, state, permit);
  }

  /** With room, recording only prunes and adds. */
  lemma RecordedIntoRoom(f: Flow, now: int, state: string, permit: nat)
    requires |Prune(f.table, now)| < MAX_PENDING && f.seqNo == |f.used|
    ensures var f' := Recorded(f, now, state, permit);
            && f'.table == Prune(f.table, now)[state := Login(now + LOGIN_STATE_TTL, |f.used| + 1)]
            && f'.used == f.used + [permit] && f'.seqNo == |f'.used|
            && f'.limiter == f.limiter && f'.evicted == f.evicted
  {
  }

  lemma SoundFrom(f: Flow, used: seq<nat>, t: Table, grants: seq<int>, clock: int, delay: int)
    requires f.used == used && f.table == t && f.limiter.grants == grants && !f.evicted && f.seqNo == |used|
    requires Numbering(t, used, grants, delay) && forall i :: 0 <= i < |grants| ==> grants[i] <= clock
    ensures Sound(f, clock, delay)
  {
  }

  lemma RecordKeepsSound(f: Flow, now: int, state: string, permit: nat, clock: int, delay: int)
    requires permit < |f.limiter.grants| && permit !in f.used && clock <= now
    requires f.limiter.grants[permit] <= now <= f.limiter.grants[permit] + delay
    requires Sound(f, clock, delay) && |Prune(f.table, now)| < MAX_PENDING
    ensures Sound(Recorded(f, now, state, permit), now, delay)
  {
    var grants, used' := f.limiter.grants, f.used + [permit];
    var t' := Prune(f.table, now)[state := Login(now + LOGIN_STATE_TTL, |f.used| + 1)];
    RecordKeepsNumbering(f.table, f.used, grants, delay, now, state, permit);
    RecordedIntoRoom(f, now, state, permit);
    SoundFrom(Recorded(f, now, state, permit), used', t', grants, now, delay);
  }

  lemma CallbackKeepsSound(f: Flow, e: Event, clock: int, delay: int)
    requires e.Callback? && clock <= e.now && Sound(f, clock, delay) && f.limiter.bucket.interval > 0
    ensures Sound(Step(f, e), e.now, delay)
  {
  }

  /** What the table says of one state agrees with when it was last issued. */
  predicate IssueOk(t: Table, s: string, issued: Option<int>, clock: int) {
    if s in t then issued == Some(t[s].expires - LOGIN_STATE_TTL)
    else issued.None? || issued.value + LOGIN_STATE_TTL < clock
  }

  ghost predicate IssueInv(events: seq<Event>, f: Flow, clock: int) {
    forall s :: IssueOk(f.table, s, LastIssue(events, s), clock)
  }

  lemma LastIssueStep(init: seq<Event>, e: Event, s: string)
    ensures LastIssue(init + [e], s) ==
            if e.Record? && e.state == s then Some(e.now)
            else if e.Callback? && e.hasCode && e.state == s then None
            else LastIssue(init, s)
  {
    assert (init + [e])[..|init|] == init;
  }

  lemma StepKeepsIssues(init: seq<Event>, e: Event, f: Flow, clock: int)
    requires clock <= e.now && IssueInv(init, f, clock) && f.limiter.bucket.interval > 0
    requires e.Record? ==> |Prune(f.table, e.now)| < MAX_PENDING
    ensures IssueInv(init + [e], Step(f, e), e.now)
  {
    forall s ensures IssueOk(Step(f, e).table, s, LastIssue(init + [e], s), e.now) {
      assert IssueOk(f.table, s, LastIssue(init, s), clock);
      LastIssueStep(init, e, s);
    }
  }

  lemma StepKeepsInv(init: seq<Event>, e: Event, clock: int, delay: int)
    requires Ordered(init) && Permitted(After(init), e, delay) && clock <= e.now
    requires 0 <= delay && MostLive(delay) <= MAX_PENDING
    requires Sound(After(init), clock, delay) && IssueInv(init, After(init), clock)
    ensures Sound(Step(After(init), e), e.now, delay)
    ensures IssueInv(init + [e], Step(After(init), e), e.now)
  {
    var f := After(init);
    if e.Record? {
      RecordFindsRoom(init, e, clock, delay);
      RecordKeepsSound(f, e.now, e.state, e.permit, clock, delay);
    } else if e.Start? {
      StartKeepsSound(f, e.now, clock, delay);
    } else {
      CallbackKeepsSound(f, e, clock, delay);
    }
    StepKeepsIssues(init, e, f, clock);
  }

  lemma LaterClock(events: seq<Event>, f: Flow, clock: int, later: int, delay: int)
    requires Sound(f, clock, delay) && IssueInv(events, f, clock) && clock <= later
    ensures Sound(f, later, delay) && IssueInv(events, f, later)
  {
    forall s ensures IssueOk(f.table, s, LastIssue(events, s), later) {
      assert IssueOk(f.table, s, LastIssue(events, s), clock);
    }
  }

  lemma {:induction false} EventsKeepInv(events: seq<Event>, clock: int, delay: int)
    requires Ordered(events) && Proper(events, delay) && (events != [] ==> events[|events| - 1].now <= clock)
    requires 0 <= delay && MostLive(delay) <= MAX_PENDING
    ensures Sound(After(events), clock, delay) && IssueInv(events, After(events), clock)
  {
    if events != [] {
      var init, e := events[..|events| - 1], events[|events| - 1];
      assert events == init + [e];
      assert Ordered(init) && (init != [] ==> init[|init| - 1].now <= e.now);
      EventsKeepInv(init, e.now, delay);
      StepKeepsInv(init, e, e.now, delay);
      LaterClock(events, After(events), e.now, clock, delay);
    }
  }

  // ---------------------------------------------------------------- every sequence of events

  /** A live login is never evicted: however starts, recordings and callbacks interleave, as long
      as no login is recorded more than `delay` after its permit and that delay leaves room (up to
      108 seconds do), the eviction loop is never entered; and at any time from the last event on
      no more logins are live than permits fit in one time to live and one delay. */
  lemma {:induction false} LiveLoginsAreNeverEvicted(events: seq<Event>, now: int, delay: int)
    requires Ordered(events) && Proper(events, delay) && (events != [] ==> events[|events| - 1].now <= now)
    requires 0 <= delay && MostLive(delay) <= MAX_PENDING
    ensures !After(events).evicted
    ensures |Prune(After(events).table, now)| <= MostLive(delay)
  {
    EventsKeepInv(events, now, delay);
    LimiterSeesStarts(events);
    StartTimesOrdered(events);
    LivePlusSpare(After(events).table, After(events).used, StartTimes(events), now, delay, {});
  }

  /** With one clock reading for the permit and the record, at most 55 are live. */
  lemma AtMostFiftyFiveLive(events: seq<Event>, now: int)
    requires Ordered(events) && Proper(events, 0) && (events != [] ==> events[|events| - 1].now <= now)
    ensures !After(events).evicted && |Prune(After(events).table, now)| <= 55
  {
    MostLiveAtOnce();
    LiveLoginsAreNeverEvicted(events, now, 0);
  }

  /** So a callback's state is accepted exactly when it was issued, has not been consumed since,
      and has not expired. */
  lemma {:induction false} AcceptedExactly(events: seq<Event>, now: int, delay: int, state: string)
    requires Ordered(events) && Proper(events, delay) && (events != [] ==> events[|events| - 1].now <= now)
    requires 0 <= delay && MostLive(delay) <= MAX_PENDING
    ensures Accepted(After(events), now, state) <==>
            LastIssue(events, state).Some? && now <= LastIssue(events, state).value + LOGIN_STATE_TTL
  {
    EventsKeepInv(events, now, delay);
    assert IssueOk(After(events).table, state, LastIssue(events, state), now);
  }
}
