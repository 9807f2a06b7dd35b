/** The surface relay as a transition system: one reader raising Companion's callbacks, any
    number of clients replaying the cached surface, joining and leaving the hub, and draining
    their queues, interleaved at the steps the locks leave open.

    A callback first changes the cache under the manager's lock, then, with that lock released,
    takes the hub's read lock and pushes its frame to one client at a time. A replay holds the
    manager's lock from its layout to its last key. */
module SurfaceRelay {
  import opened Wrappers
  import opened Division
  import opened SurfaceLane

  // ---------------------------------------------------------------- the manager's cache

  datatype Manager = Manager(grid: Grid, seqNo: int, keys: map<int, Held>)

  predicate InBounds(m: Manager, key: int) { 0 <= key < m.grid.rows * m.grid.cols }

  /** The key in row `r` and column `c`, and where a key is. */
  function KeyAt(m: Manager, r: int, c: int): int { r * m.grid.cols + c }

  function Position(m: Manager, key: int): (int, int) {
    if m.grid.cols > 0 then (key / m.grid.cols, key % m.grid.cols) else (0, 0)
  }

  /** The keys admitted are exactly those of the grid, and each has one place on it. */
  lemma KeysAreTheGrid(m: Manager, key: int)
    requires 0 <= m.grid.rows && 0 <= m.grid.cols
    ensures InBounds(m, key) <==>
            exists r, c :: 0 <= r < m.grid.rows && 0 <= c < m.grid.cols && key == KeyAt(m, r, c)
    ensures forall r, c :: 0 <= r < m.grid.rows && 0 <= c < m.grid.cols ==> Position(m, KeyAt(m, r, c)) == (r, c)
  {
    var rows, cols := m.grid.rows, m.grid.cols;
    forall r, c | 0 <= r < rows && 0 <= c < cols
      ensures 0 <= KeyAt(m, r, c) < rows * cols && Position(m, KeyAt(m, r, c)) == (r, c)
    {
      PlaceOnGrid(r, c, rows, cols);
    }
    if cols == 0 {
      NoColumns(rows);
    } else if InBounds(m, key) {
      OnSomePlace(key, rows, cols);
      assert key == KeyAt(m, key / cols, key % cols);
    }
  }

  lemma NoColumns(rows: int)
    ensures rows * 0 == 0
  {
  }

  lemma PlaceOnGrid(r: int, c: int, rows: int, cols: int)
    requires 0 <= r < rows && 0 <= c < cols
    ensures 0 <= r * cols + c < rows * cols && (r * cols + c) / cols == r && (r * cols + c) % cols == c
  {
    OneMoreMultiple(r, rows, cols);
    OneMoreMultiple(-1, r, cols);
    DivUnique(r * cols + c, cols, r, c);
  }

  lemma OnSomePlace(key: int, rows: int, cols: int)
    requires 0 <= key < rows * cols && 0 < cols
    ensures 0 <= key / cols < rows && 0 <= key % cols < cols && key == key / cols * cols + key % cols
  {
    var q := key / cols;
    assert key == q * cols + key % cols;
    if q > rows {
      OneMoreMultiple(rows, q, cols);
    }
  }

  function CacheKey(m: Manager, key: int, r: Render): Manager {
    m.(seqNo := m.seqNo + 1, keys := m.keys[key := Held(m.seqNo + 1, r)])
  }

  function CacheLayout(m: Manager, grid: Grid): Manager { m.(grid := grid, keys := map[]) }

  function CacheClear(m: Manager): Manager { m.(keys := map[]) }

  /** What a client that has caught up shows. */
  function Shown(m: Manager): View { View(Some(m.grid), m.keys) }

  // ---------------------------------------------------------------- states

  /** The reader, between callbacks or somewhere inside one. */
  datatype Reader =
    | Idle
    | Announcing(frame: Frame)                   // cached; the hub's lock not yet taken
    | Sending(frame: Frame, done: set<nat>)      // broadcasting under the hub's read lock

  /** The holder of the manager's lock, when a replay holds it. */
  datatype Replay = NoReplay | Replaying(client: nat, layoutSent: bool, todo: set<int>)

  /** `sent` is a history of every frame pushed to the queue. `synced` holds from the end of a
      replay until the client leaves the hub or replays again. */
  datatype Conn = Conn(queue: seq<Frame>, delivered: seq<Frame>, sent: seq<Frame>, inHub: bool, synced: bool)

  function Pushed(c: Conn, f: Frame): Conn { c.(queue := Push(c.queue, f), sent := c.sent + [f]) }

  function Popped(c: Conn): Conn
    requires c.queue != []
  {
    c.(queue := c.queue[1..], delivered := c.delivered + [c.queue[0]])
  }

  /** `cap` is a history variable: the size of the largest grid so far. */
  datatype Relay = Relay(mgr: Manager, reader: Reader, replay: Replay, conns: map<nat, Conn>, cap: int)

  datatype Action =
    | KeyArrives(key: int, render: Render)
    | LayoutArrives(grid: Grid)
    | ClearArrives
    | LockHub
    | SendTo(client: nat)
    | UnlockHub
    | Accept(client: nat)
    | Join(client: nat)
    | Leave(client: nat)
    | BeginReplay(client: nat)
    | ReplayLayout
    | ReplayKey(key: int)
    | EndReplay
    | Pop(client: nat)

  function GridSize(g: Grid): int { g.rows * g.cols }

  function Start(grid: Grid): Relay {
    Relay(Manager(grid, 0, map[]), Idle, NoReplay, map[], Max(0, GridSize(grid)))
  }

  predicate Enabled(s: Relay, a: Action) {
    match a
    case KeyArrives(key, _) => s.reader.Idle? && s.replay.NoReplay? && InBounds(s.mgr, key)
    case LayoutArrives(_) => s.reader.Idle? && s.replay.NoReplay?
    case ClearArrives => s.reader.Idle? && s.replay.NoReplay?
    case LockHub => s.reader.Announcing?
    case SendTo(c) => s.reader.Sending? && c in s.conns && s.conns[c].inHub && c !in s.reader.done
    case UnlockHub => s.reader.Sending? && forall c :: c in s.conns && s.conns[c].inHub ==> c in s.reader.done
    case Accept(c) => c !in s.conns
    case Join(c) => c in s.conns && !s.reader.Sending? && !s.conns[c].inHub && !IsReplaying(s, c)
    case Leave(c) => c in s.conns && !s.reader.Sending? && !IsReplaying(s, c)
    case BeginReplay(c) => s.replay.NoReplay? && c in s.conns
    case ReplayLayout => ReplayGoesOn(s) && !s.replay.layoutSent
    case ReplayKey(key) => ReplayGoesOn(s) && s.replay.layoutSent && key in s.replay.todo && key in s.mgr.keys
    case EndReplay => ReplayGoesOn(s) && s.replay.layoutSent && s.replay.todo == {}
    case Pop(c) => c in s.conns && s.conns[c].queue != []
  }

  predicate ReplayGoesOn(s: Relay) { s.replay.Replaying? && s.replay.client in s.conns }

  predicate IsReplaying(s: Relay, c: nat) { s.replay.Replaying? && s.replay.client == c }

  function PushTo(s: Relay, c: nat, f: Frame): Relay
    requires c in s.conns
  {
    WithConn(s, c, Pushed(s.conns[c], f))
  }

  function WithConn(s: Relay, c: nat, conn: Conn): Relay { s.(conns := s.conns[c := conn]) }

  function Do(s: Relay, a: Action): Relay
    requires Enabled(s, a)
  {
    match a
    case KeyArrives(key, r) =>
      var m := CacheKey(s.mgr, key, r);
      s.(mgr := m, reader := Announcing(KeyFrame(key, m.seqNo, r)))
    case LayoutArrives(grid) =>
      var m := CacheLayout(s.mgr, grid);
      s.(mgr := m, reader := Announcing(LayoutFrame(m.seqNo, grid)), cap := Max(s.cap, GridSize(grid)))
    case ClearArrives =>
      var m := CacheClear(s.mgr);
      s.(mgr := m, reader := Announcing(LayoutFrame(m.seqNo, m.grid)))
    case LockHub => s.(reader := Sending(s.reader.frame, {}))
    case SendTo(c) =>
      PushTo(s, c, s.reader.frame).(reader := s.reader.(done := s.reader.done + {c}))
    case UnlockHub => s.(reader := Idle)
    case Accept(c) => WithConn(s, c, Conn([], [], [], false, false))
    case Join(c) => WithConn(s, c, s.conns[c].(inHub := true, synced := false))
    case Leave(c) => WithConn(s, c, s.conns[c].(inHub := false, synced := false))
    case BeginReplay(c) =>
      WithConn(s, c, s.conns[c].(synced := false)).(replay := Replaying(c, false, s.mgr.keys.Keys))
    case ReplayLayout =>
      PushTo(s, s.replay.client, LayoutFrame(s.mgr.seqNo, s.mgr.grid)).(replay := s.replay.(layoutSent := true))
    case ReplayKey(key) =>
      var h := s.mgr.keys[key];
      PushTo(s, s.replay.client, KeyFrame(key, h.seqNo, h.render)).(replay := s.replay.(todo := s.replay.todo - {key}))
    case EndReplay =>
      var c := s.replay.client;
      WithConn(s, c, s.conns[c].(synced := s.conns[c].inHub)).(replay := NoReplay)
    case Pop(c) => WithConn(s, c, Popped(s.conns[c]))
  }

  /** The state after a run of actions, or None when one of them was not enabled. */
  function After(grid: Grid, run: seq<Action>): Option<Relay> {
    if run == [] then Some(Start(grid))
    else
      match After(grid, run[..|run| - 1])
      case None => None
      case Some(s) => if Enabled(s, run[|run| - 1]) then Some(Do(s, run[|run| - 1])) else None
  }

  // ---------------------------------------------------------------- the invariant

  /** What the client of this connection will show once its queue has drained. */
  function Total(c: Conn): View { Fold(Fold(BlankView, c.delivered), c.queue) }

  ghost predicate FramesUpTo(q: seq<Frame>, n: int) { forall i :: 0 <= i < |q| ==> q[i].seqNo <= n }

  ghost predicate NoKeyAheadOfLayout(q: seq<Frame>) {
    forall i, j :: 0 <= i < j < |q| ==> !(q[i].KeyFrame? && q[j].LayoutFrame?)
  }

  /** No render is newer than a layout that follows it. */
  ghost predicate LayoutsCoverEarlier(q: seq<Frame>) {
    forall i, j :: 0 <= i < j < |q| && q[i].KeyFrame? && q[j].LayoutFrame? ==> q[i].seqNo <= q[j].seqNo
  }

  ghost predicate LayoutsCover(q: seq<Frame>, a: seq<Frame>) {
    forall i, j :: 0 <= i < |a| && 0 <= j < |q| && a[i].KeyFrame? && q[j].LayoutFrame? ==> a[i].seqNo <= q[j].seqNo
  }

  ghost predicate LaneInv(q: seq<Frame>, n: int, cap: int) {
    Structured(q) && NoKeyAheadOfLayout(q) && FramesUpTo(q, n) && KeysBelow(q, cap)
  }

  ghost predicate DeliveredInv(delivered: seq<Frame>, q: seq<Frame>, n: int) {
    FramesUpTo(delivered, n) && LayoutsCoverEarlier(delivered) && LayoutsCover(q, delivered)
  }

  ghost predicate TotalInv(c: Conn, n: int) {
    HeldUpTo(Total(c).keys, n) && Total(c) == Fold(BlankView, c.sent)
  }

  ghost predicate ConnInv(m: Manager, c: Conn, cap: int) {
    LaneInv(c.queue, m.seqNo, cap) && DeliveredInv(c.delivered, c.queue, m.seqNo) && TotalInv(c, m.seqNo)
  }

  ghost predicate HeldUpTo(keys: map<int, Held>, n: int) {
    forall k :: k in keys ==> keys[k].seqNo <= n
  }

  ghost predicate ManagerInv(s: Relay) {
    && 0 <= s.cap && GridSize(s.mgr.grid) <= s.cap
    && HeldUpTo(s.mgr.keys, s.mgr.seqNo)
    && forall k :: k in s.mgr.keys ==> 0 <= k < s.cap
  }

  /** The frame being announced is the cache's latest word. */
  ghost predicate FrameIsCurrent(m: Manager, f: Frame, cap: int) {
    && f.seqNo == m.seqNo
    && match f
       case KeyFrame(k, s, r) => k in m.keys && m.keys[k] == Held(s, r) && 0 <= k < cap
       case LayoutFrame(_, g) => g == m.grid && m.keys == map[]
  }

  /** A synced client agrees with the cache, or will once the frame on its way reaches it. */
  ghost predicate CaughtUp(s: Relay, c: nat)
    requires c in s.conns
  {
    match s.reader
    case Idle => Total(s.conns[c]) == Shown(s.mgr)
    case Announcing(f) => Apply(Total(s.conns[c]), f) == Shown(s.mgr)
    case Sending(f, done) =>
      if c in done then Total(s.conns[c]) == Shown(s.mgr) else Apply(Total(s.conns[c]), f) == Shown(s.mgr)
  }

  /** Part way through a replay the client holds part of the cache and nothing else. */
  ghost predicate PartlyReplayed(m: Manager, v: View, todo: set<int>) {
    && v.grid == Some(m.grid)
    && (forall k :: k in v.keys ==> k in m.keys && v.keys[k] == m.keys[k])
    && (forall k :: k in m.keys ==> k in todo || k in v.keys)
  }

  ghost predicate ReplayInv(s: Relay) {
    s.replay.Replaying? ==>
      && s.replay.client in s.conns
      && !s.conns[s.replay.client].synced
      && s.replay.todo <= s.mgr.keys.Keys
      && (if s.replay.layoutSent then PartlyReplayed(s.mgr, Total(s.conns[s.replay.client]), s.replay.todo)
          else s.replay.todo == s.mgr.keys.Keys)
  }

  ghost predicate Inv(s: Relay) {
    && ManagerInv(s)
    && (!s.reader.Idle? ==> FrameIsCurrent(s.mgr, s.reader.frame, s.cap))
    && ReplayInv(s)
    && forall c :: c in s.conns ==> ConnOk(s, c)
  }

  ghost predicate ConnOk(s: Relay, c: nat)
    requires c in s.conns
  {
    && ConnInv(s.mgr, s.conns[c], s.cap)
    && (s.conns[c].synced ==> s.conns[c].inHub && CaughtUp(s, c))
  }

  lemma StartInv(grid: Grid)
    ensures Inv(Start(grid))
  {
  }

  // ---------------------------------------------------------------- one push

  lemma NothingAbove(keys: map<int, Held>, n: int)
    requires HeldUpTo(keys, n)
    ensures NewerThan(keys, n) == map[]
  {
    forall k ensures k !in NewerThan(keys, n) {}
  }

  lemma ApplyHeldUpTo(v: View, f: Frame, n: int)
    requires HeldUpTo(v.keys, n) && f.seqNo <= n
    ensures HeldUpTo(Apply(v, f).keys, n)
  {
    forall k | k in Apply(v, f).keys ensures Apply(v, f).keys[k].seqNo <= n {}
  }

  lemma {:induction false} NothingSurvives(q: seq<Frame>, s: int)
    requires FramesUpTo(q, s)
    ensures Survivors(q, s) == []
  {
    if q != [] {
      NothingSurvives(q[..|q| - 1], s);
    }
  }

  lemma SentOneMore(c: Conn, f: Frame)
    ensures Fold(BlankView, Pushed(c, f).sent) == Apply(Fold(BlankView, c.sent), f)
  {
    assert (c.sent + [f])[..|c.sent|] == c.sent;
  }

  /** A layout carries the current sequence, so it is never refused and it empties the lane in
      front of it. */
  lemma PushLayoutKeepsConn(m: Manager, c: Conn, g: Grid, cap: int)
    requires ConnInv(m, c, cap)
    ensures !Overtaken(c.queue, m.seqNo)
    ensures var c' := Pushed(c, LayoutFrame(m.seqNo, g));
            && ConnInv(m, c', cap)
            && Total(c') == Apply(Total(c), LayoutFrame(m.seqNo, g))
            && Total(c') == View(Some(g), map[])
  {
    LayoutAlone(c.queue, c.delivered, m.seqNo, g, cap);
    PushLayoutRefines(Fold(BlankView, c.delivered), c.queue, m.seqNo, g);
    NothingAbove(Total(c).keys, m.seqNo);
    SentOneMore(c, LayoutFrame(m.seqNo, g));
  }

  lemma LayoutAlone(q: seq<Frame>, d: seq<Frame>, n: int, g: Grid, cap: int)
    requires LaneInv(q, n, cap) && DeliveredInv(d, q, n)
    ensures !Overtaken(q, n) && PushLayout(q, n, g) == [LayoutFrame(n, g)]
    ensures LaneInv([LayoutFrame(n, g)], n, cap) && DeliveredInv(d, [LayoutFrame(n, g)], n)
  {
    NothingSurvives(q, n);
  }

  lemma PushedKeyFrames(q: seq<Frame>, k: int, s: int, r: Render)
    ensures |q| <= |PushKey(q, k, s, r)| <= |q| + 1
    ensures forall i :: 0 <= i < |q| ==>
              PushKey(q, k, s, r)[i] == q[i] || (PushKey(q, k, s, r)[i] == KeyFrame(k, s, r) && IsKey(q[i], k))
    ensures |PushKey(q, k, s, r)| == |q| + 1 ==> PushKey(q, k, s, r)[|q|] == KeyFrame(k, s, r)
  {
  }

  lemma PushKeyKeepsLane(q: seq<Frame>, d: seq<Frame>, k: int, s: int, r: Render, n: int, cap: int)
    requires LaneInv(q, n, cap) && DeliveredInv(d, q, n) && s <= n && 0 <= k < cap
    ensures LaneInv(PushKey(q, k, s, r), n, cap)
    ensures DeliveredInv(d, PushKey(q, k, s, r), n)
  {
    PushKeepsStructure(q, KeyFrame(k, s, r));
    PushedKeyFrames(q, k, s, r);
  }

  lemma PushKeyKeepsConn(m: Manager, c: Conn, k: int, s: int, r: Render, cap: int)
    requires ConnInv(m, c, cap) && s <= m.seqNo && 0 <= k < cap
    ensures var c' := Pushed(c, KeyFrame(k, s, r));
            && ConnInv(m, c', cap)
            && Total(c') == Apply(Total(c), KeyFrame(k, s, r))
  {
    PushKeyKeepsLane(c.queue, c.delivered, k, s, r, m.seqNo, cap);
    SentOneMore(c, KeyFrame(k, s, r));
    PushKeyRefines(Fold(BlankView, c.delivered), c.queue, k, s, r);
    ApplyHeldUpTo(Total(c), KeyFrame(k, s, r), m.seqNo);
  }

  lemma PopKeepsConn(m: Manager, c: Conn, cap: int)
    requires ConnInv(m, c, cap) && c.queue != []
    ensures ConnInv(m, Popped(c), cap) && Total(Popped(c)) == Total(c)
  {
    var c' := Popped(c);
    assert c'.delivered[..|c.delivered|] == c.delivered;
    assert Fold(BlankView, c'.delivered) == Apply(Fold(BlankView, c.delivered), c.queue[0]);
    FoldPop(Fold(BlankView, c.delivered), c.queue);
    PopKeepsStructure(c.queue);
  }

  lemma PushCurrentKeepsConn(m: Manager, c: Conn, f: Frame, cap: int)
    requires ConnInv(m, c, cap) && FrameIsCurrent(m, f, cap)
    ensures ConnInv(m, Pushed(c, f), cap) && Total(Pushed(c, f)) == Apply(Total(c), f)
  {
    match f
    case KeyFrame(k, s, r) => PushKeyKeepsConn(m, c, k, s, r, cap);
    case LayoutFrame(s, g) => PushLayoutKeepsConn(m, c, g, cap);
  }

  /** A cache step only raises the sequence and the cap, which no connection minds. */
  lemma ConnOutlivesCacheStep(m: Manager, m': Manager, c: Conn, cap: int, cap': int)
    requires ConnInv(m, c, cap) && m.seqNo <= m'.seqNo && cap <= cap'
    ensures ConnInv(m', c, cap')
  {
  }

  /** What a client that had caught up shows once it applies the frame of a cache step is the
      new cache. */
  lemma ShownFollowsCache(m: Manager, key: int, r: Render, g: Grid)
    requires HeldUpTo(m.keys, m.seqNo)
    ensures Apply(Shown(m), KeyFrame(key, m.seqNo + 1, r)) == Shown(CacheKey(m, key, r))
    ensures Apply(Shown(m), LayoutFrame(m.seqNo, g)) == Shown(CacheLayout(m, g))
    ensures Apply(Shown(m), LayoutFrame(m.seqNo, m.grid)) == Shown(CacheClear(m))
  {
    NothingAbove(m.keys, m.seqNo);
  }

  /** Delivering the current frame to a client that has caught up changes nothing. */
  lemma ShownAbsorbsCurrent(m: Manager, f: Frame, cap: int)
    requires FrameIsCurrent(m, f, cap)
    ensures Apply(Shown(m), f) == Shown(m)
  {
  }

  lemma FullyReplayed(m: Manager, v: View)
    requires PartlyReplayed(m, v, {})
    ensures v == Shown(m)
  {
    SameKeys(v.keys, m.keys);
  }

  // ---------------------------------------------------------------- every step

  lemma CacheStepKeepsInv(s: Relay, a: Action)
    requires Inv(s) && Enabled(s, a)
    requires a.KeyArrives? || a.LayoutArrives? || a.ClearArrives?
    ensures Inv(Do(s, a))
  {
    var s' := Do(s, a);
    forall c | c in s'.conns ensures ConnOk(s', c) {
      assert ConnOk(s, c);
      ConnOutlivesCacheStep(s.mgr, s'.mgr, s.conns[c], s.cap, s'.cap);
      if s.conns[c].synced {
        var render := if a.KeyArrives? then a.render else Render("", false, "", "");
        ShownFollowsCache(s.mgr, if a.KeyArrives? then a.key else 0, render,
                          if a.LayoutArrives? then a.grid else s.mgr.grid);
      }
    }
  }

  /** A step about one client leaves the others as they were. */
  lemma OthersKeepInv(s: Relay, s': Relay, c: nat)
    requires forall d :: d in s.conns ==> ConnOk(s, d)
    requires s'.mgr == s.mgr && s'.cap == s.cap
    requires s'.reader == s.reader || (s.reader.Sending? && s'.reader == Sending(s.reader.frame, s.reader.done + {c}))
    requires forall d :: d in s'.conns && d != c ==> d in s.conns && s'.conns[d] == s.conns[d]
    ensures forall d :: d in s'.conns && d != c ==> ConnOk(s', d)
  {
    forall d | d in s'.conns && d != c ensures ConnOk(s', d) {
      assert ConnOk(s, d);
    }
  }

  lemma SendKeepsInv(s: Relay, c: nat)
    requires Inv(s) && Enabled(s, SendTo(c))
    ensures Inv(Do(s, SendTo(c)))
  {
    var s', f := Do(s, SendTo(c)), s.reader.frame;
    assert ConnOk(s, c);
    PushCurrentKeepsConn(s.mgr, s.conns[c], f, s.cap);
    assert ConnOk(s', c);
    OthersKeepInv(s, s', c);
    if IsReplaying(s, c) && s.replay.layoutSent {
      PartlyReplayedAbsorbs(s.mgr, Total(s.conns[c]), s.replay.todo, f, s.cap);
    }
  }

  /** A live frame landing in the middle of a replay agrees with the cache being replayed. */
  lemma PartlyReplayedAbsorbs(m: Manager, v: View, todo: set<int>, f: Frame, cap: int)
    requires PartlyReplayed(m, v, todo) && FrameIsCurrent(m, f, cap)
    ensures PartlyReplayed(m, Apply(v, f), todo)
  {
  }

  lemma ReplayLayoutKeepsInv(s: Relay)
    requires Inv(s) && Enabled(s, ReplayLayout)
    ensures Inv(Do(s, ReplayLayout))
  {
    var s', c := Do(s, ReplayLayout), s.replay.client;
    assert ConnOk(s, c);
    PushLayoutKeepsConn(s.mgr, s.conns[c], s.mgr.grid, s.cap);
    assert ConnOk(s', c);
    OthersKeepInv(s, s', c);
  }

  lemma ReplayKeyKeepsInv(s: Relay, k: int)
    requires Inv(s) && Enabled(s, ReplayKey(k))
    ensures Inv(Do(s, ReplayKey(k)))
  {
    var s', c := Do(s, ReplayKey(k)), s.replay.client;
    var h := s.mgr.keys[k];
    assert ConnOk(s, c);
    PushKeyKeepsConn(s.mgr, s.conns[c], k, h.seqNo, h.render, s.cap);
    assert ConnOk(s', c);
    OthersKeepInv(s, s', c);
    assert PartlyReplayed(s.mgr, Total(s'.conns[c]), s'.replay.todo);
  }

  lemma EndReplayKeepsInv(s: Relay)
    requires Inv(s) && Enabled(s, EndReplay)
    ensures Inv(Do(s, EndReplay))
  {
    var s', c := Do(s, EndReplay), s.replay.client;
    assert ConnOk(s, c);
    FullyReplayed(s.mgr, Total(s.conns[c]));
    if !s.reader.Idle? {
      ShownAbsorbsCurrent(s.mgr, s.reader.frame, s.cap);
    }
    assert ConnOk(s', c);
    OthersKeepInv(s, s', c);
  }

  lemma HubLockKeepsInv(s: Relay, a: Action)
    requires Inv(s) && Enabled(s, a)
    requires a.LockHub? || a.UnlockHub?
    ensures Inv(Do(s, a))
  {
    var s' := Do(s, a);
    forall c | c in s.conns ensures ConnOk(s', c) {
      assert ConnOk(s, c);
    }
  }

  lemma PopKeepsInv(s: Relay, c: nat)
    requires Inv(s) && Enabled(s, Pop(c))
    ensures Inv(Do(s, Pop(c)))
  {
    var s' := Do(s, Pop(c));
    assert ConnOk(s, c);
    PopKeepsConn(s.mgr, s.conns[c], s.cap);
    assert ConnOk(s', c);
    OthersKeepInv(s, s', c);
  }

  lemma AcceptKeepsInv(s: Relay, c: nat)
    requires Inv(s) && Enabled(s, Accept(c))
    ensures Inv(Do(s, Accept(c)))
  {
    var s' := Do(s, Accept(c));
    assert ConnOk(s', c);
    OthersKeepInv(s, s', c);
  }

  lemma UnsyncKeepsConn(m: Manager, k: Conn, cap: int, inHub: bool)
    requires ConnInv(m, k, cap)
    ensures ConnInv(m, k.(inHub := inHub, synced := false), cap)
  {
    assert Total(k.(inHub := inHub, synced := false)) == Total(k);
  }

  lemma MembershipKeepsInv(s: Relay, a: Action)
    requires Inv(s) && Enabled(s, a) && (a.Join? || a.Leave? || a.BeginReplay?)
    ensures Inv(Do(s, a))
  {
    var s', c := Do(s, a), a.client;
    assert ConnOk(s, c);
    UnsyncKeepsConn(s.mgr, s.conns[c], s.cap, s'.conns[c].inHub);
    assert ConnOk(s', c);
    OthersKeepInv(s, s', c);
  }

  lemma InvKept(s: Relay, a: Action)
    requires Inv(s) && Enabled(s, a)
    ensures Inv(Do(s, a))
  {
    match a
    case KeyArrives(_, _) => CacheStepKeepsInv(s, a);
    case LayoutArrives(_) => CacheStepKeepsInv(s, a);
    case ClearArrives => CacheStepKeepsInv(s, a);
    case SendTo(c) => SendKeepsInv(s, c);
    case ReplayLayout => ReplayLayoutKeepsInv(s);
    case ReplayKey(k) => ReplayKeyKeepsInv(s, k);
    case EndReplay => EndReplayKeepsInv(s);
    case LockHub => HubLockKeepsInv(s, a);
    case UnlockHub => HubLockKeepsInv(s, a);
    case Accept(c) => AcceptKeepsInv(s, c);
    case Pop(c) => PopKeepsInv(s, c);
    case _ => MembershipKeepsInv(s, a);
  }

  // ---------------------------------------------------------------- over whole runs

  lemma {:induction false} RunKeepsInv(grid: Grid, run: seq<Action>)
    requires After(grid, run).Some?
    ensures Inv(After(grid, run).value)
  {
    if run == [] {
      StartInv(grid);
    } else {
      RunKeepsInv(grid, run[..|run| - 1]);
      InvKept(After(grid, run[..|run| - 1]).value, run[|run| - 1]);
    }
  }

  /** A replay in progress is never stuck: its client still exists, and every key it has left to
      send is still cached. */
  lemma ReplayNeverStuck(grid: Grid, run: seq<Action>)
    requires After(grid, run).Some? && After(grid, run).value.replay.Replaying?
    ensures var s := After(grid, run).value;
            if !s.replay.layoutSent then Enabled(s, ReplayLayout)
            else if s.replay.todo == {} then Enabled(s, EndReplay)
            else forall k :: k in s.replay.todo ==> Enabled(s, ReplayKey(k))
  {
    RunKeepsInv(grid, run);
  }

  /** A callback in progress is never stuck either, and a reader between callbacks can raise any of
      them as soon as no replay is going on: a render exactly for a key on the grid. */
  lemma ReaderNeverStuck(grid: Grid, run: seq<Action>, key: int, render: Render, g: Grid)
    requires After(grid, run).Some?
    ensures var s := After(grid, run).value;
            && (s.reader.Announcing? ==> Enabled(s, LockHub))
            && (s.reader.Sending? ==>
                  Enabled(s, UnlockHub) || exists c :: c in s.conns && Enabled(s, SendTo(c)))
            && (s.reader.Idle? && s.replay.NoReplay? ==>
                  && Enabled(s, LayoutArrives(g)) && Enabled(s, ClearArrives)
                  && (Enabled(s, KeyArrives(key, render)) <==> 0 <= key < s.mgr.grid.rows * s.mgr.grid.cols))
  {
    var s := After(grid, run).value;
    if s.reader.Sending? && !Enabled(s, UnlockHub) {
      var c :| c in s.conns && s.conns[c].inHub && c !in s.reader.done;
      assert Enabled(s, SendTo(c));
    }
  }

  /** The client whose replay began last. */
  function LastReplayed(run: seq<Action>): Option<nat> {
    if run == [] then None
    else if run[|run| - 1].BeginReplay? then Some(run[|run| - 1].client)
    else LastReplayed(run[..|run| - 1])
  }

  /** The client joined the hub and has not left it since. */
  function Joined(run: seq<Action>, c: nat): bool {
    if run == [] then false
    else if run[|run| - 1] == Join(c) then true
    else if run[|run| - 1] == Leave(c) then false
    else Joined(run[..|run| - 1], c)
  }

  /** The client is in the hub, and a replay to it has ended since it joined and none has begun
      since that. */
  function Replayed(run: seq<Action>, c: nat): bool {
    if run == [] then false
    else
      var init, a := run[..|run| - 1], run[|run| - 1];
      if a == Join(c) || a == Leave(c) || a == BeginReplay(c) then false
      else if a == EndReplay && LastReplayed(init) == Some(c) then Joined(init, c)
      else Replayed(init, c)
  }

  /** What the state says of client `c` agrees with what its actions say. */
  predicate AgreesWith(s: Relay, c: nat, joined: bool, replayed: bool) {
    if c in s.conns then s.conns[c].inHub == joined && s.conns[c].synced == replayed else !joined && !replayed
  }

  lemma ConnStep(s: Relay, a: Action, c: nat, joined: bool, replayed: bool)
    requires Enabled(s, a) && AgreesWith(s, c, joined, replayed)
    ensures var ended := a == EndReplay && s.replay.Replaying? && s.replay.client == c;
            var out := a == Leave(c) || a == BeginReplay(c);
            AgreesWith(Do(s, a), c, if a == Join(c) then true else if a == Leave(c) then false else joined,
                       if a == Join(c) || out then false else if ended then joined else replayed)
  {
  }

  lemma ReplayStep(s: Relay, a: Action)
    requires Enabled(s, a)
    ensures var s' := Do(s, a);
            && (a == EndReplay ==> s.replay.Replaying?)
            && (s'.replay.Replaying? ==>
                  if a.BeginReplay? then s'.replay.client == a.client
                  else s.replay.Replaying? && s'.replay.client == s.replay.client)
  {
  }

  /** Membership and replays are what the run's actions make them. */
  lemma {:induction false} SyncedExactly(grid: Grid, run: seq<Action>, c: nat)
    requires After(grid, run).Some?
    ensures var s := After(grid, run).value;
            && (s.replay.Replaying? ==> LastReplayed(run) == Some(s.replay.client))
            && AgreesWith(s, c, Joined(run, c), Replayed(run, c))
  {
    if run != [] {
      var init, a := run[..|run| - 1], run[|run| - 1];
      SyncedExactly(grid, init, c);
      ReplayStep(After(grid, init).value, a);
      ConnStep(After(grid, init).value, a, c, Joined(init, c), Replayed(init, c));
    }
  }

  /** Surface agreement. In every run, whenever the reader is between callbacks, a client that is
      in the hub and was replayed to since it joined holds, together with what its queue will
      bring it, exactly the manager's grid and key cache. */
  lemma SurfaceAgreement(grid: Grid, run: seq<Action>, c: nat)
    requires After(grid, run).Some? && After(grid, run).value.reader.Idle? && Replayed(run, c)
    ensures var s := After(grid, run).value;
            && c in s.conns
            && Fold(Fold(BlankView, s.conns[c].delivered), s.conns[c].queue) == View(Some(s.mgr.grid), s.mgr.keys)
  {
    SyncedExactly(grid, run, c);
    RunKeepsInv(grid, run);
    assert ConnOk(After(grid, run).value, c);
  }

  /** In every run and for every client, replayed to or not, what has been delivered followed by
      what is queued shows what applying every frame pushed would have shown. */
  lemma {:induction false} RelayLosesNothing(grid: Grid, run: seq<Action>, c: nat)
    requires After(grid, run).Some? && c in After(grid, run).value.conns
    ensures var k := After(grid, run).value.conns[c];
            Fold(BlankView, k.delivered + k.queue) == Fold(BlankView, k.sent)
  {
    RunKeepsInv(grid, run);
    assert ConnOk(After(grid, run).value, c);
    var k := After(grid, run).value.conns[c];
    FoldConcat(BlankView, k.delivered, k.queue);
  }

  ghost predicate PushesLayout(s: Relay, a: Action, c: nat) {
    (a == ReplayLayout && IsReplaying(s, c)) || (a == SendTo(c) && s.reader.Sending? && s.reader.frame.LayoutFrame?)
  }

  /** The branch that refuses an older layout is dead: in every run each layout is pushed at the
      current sequence, which no layout already queued exceeds. */
  lemma OlderLayoutsNeverArrive(grid: Grid, run: seq<Action>, a: Action, c: nat)
    requires After(grid, run + [a]).Some? && After(grid, run).Some?
    requires PushesLayout(After(grid, run).value, a, c)
    ensures var s := After(grid, run).value;
            var s' := After(grid, run + [a]).value;
            && c in s.conns && c in s'.conns
            && !Overtaken(s.conns[c].queue, s.mgr.seqNo)
            && |s'.conns[c].queue| == 1
            && s'.conns[c].queue[0].LayoutFrame? && s'.conns[c].queue[0].seqNo == s.mgr.seqNo
  {
    RunKeepsInv(grid, run);
    assert (run + [a])[..|run|] == run;
    assert ConnOk(After(grid, run).value, c);
    LayoutPushed(After(grid, run).value, a, c);
  }

  lemma LayoutPushed(s: Relay, a: Action, c: nat)
    requires Enabled(s, a) && PushesLayout(s, a, c) && c in s.conns && ConnInv(s.mgr, s.conns[c], s.cap)
    requires !s.reader.Idle? ==> FrameIsCurrent(s.mgr, s.reader.frame, s.cap)
    ensures c in Do(s, a).conns && !Overtaken(s.conns[c].queue, s.mgr.seqNo)
    ensures var q := Do(s, a).conns[c].queue;
            |q| == 1 && q[0].LayoutFrame? && q[0].seqNo == s.mgr.seqNo
  {
    var g := if a.SendTo? then s.reader.frame.grid else s.mgr.grid;
    LayoutAlone(s.conns[c].queue, s.conns[c].delivered, s.mgr.seqNo, g, s.cap);
  }

  /** In every run, a render delivered ahead of a layout, its first or any later one, is never
      newer than that layout. */
  lemma EarlyKeysAreCovered(grid: Grid, run: seq<Action>, c: nat, i: nat, j: nat)
    requires After(grid, run).Some? && c in After(grid, run).value.conns
    requires var d := After(grid, run).value.conns[c].delivered;
             i < j < |d| && d[i].KeyFrame? && d[j].LayoutFrame?
    ensures var d := After(grid, run).value.conns[c].delivered;
            d[i].seqNo <= d[j].seqNo
  {
    RunKeepsInv(grid, run);
    assert ConnOk(After(grid, run).value, c);
  }

  lemma {:induction false} CapIsLargestGrid(grid: Grid, run: seq<Action>, n: int)
    requires After(grid, run).Some? && 0 <= n && GridSize(grid) <= n
    requires forall i :: 0 <= i < |run| && run[i].LayoutArrives? ==> GridSize(run[i].grid) <= n
    ensures After(grid, run).value.cap <= n
  {
    if run != [] {
      CapIsLargestGrid(grid, run[..|run| - 1], n);
    }
  }

  /** In every run on grids of at most n keys, a client's surface lane holds at most one frame a
      key and one layout. */
  lemma SurfaceBacklogIsBounded(grid: Grid, run: seq<Action>, n: nat, c: nat)
    requires After(grid, run).Some? && c in After(grid, run).value.conns
    requires GridSize(grid) <= n
    requires forall i :: 0 <= i < |run| && run[i].LayoutArrives? ==> GridSize(run[i].grid) <= n
    ensures |After(grid, run).value.conns[c].queue| <= n + 1
  {
    RunKeepsInv(grid, run);
    assert ConnOk(After(grid, run).value, c);
    CapIsLargestGrid(grid, run, n);
    LaneIsBounded(After(grid, run).value.conns[c].queue, n);
  }

  // ---------------------------------------------------------------- a whole cycle

  lemma OneStepMore(grid: Grid, run: seq<Action>, a: Action)
    requires After(grid, run).Some? && Enabled(After(grid, run).value, a)
    ensures After(grid, run + [a]) == Some(Do(After(grid, run).value, a))
  {
    assert (run + [a])[..|run|] == run;
  }

  /** The run leaves client 0 as `conn`, and no other, with the manager as given. */
  ghost predicate Alone(grid: Grid, run: seq<Action>, mgr: Manager, reader: Reader, replay: Replay, conn: Conn) {
    && After(grid, run).Some?
    && var s := After(grid, run).value;
       && s.mgr == mgr && s.reader == reader && s.replay == replay
       && 0 in s.conns && s.conns[0] == conn && forall c :: c in s.conns ==> c == 0
  }

  /** The cache with one render in it. */
  function OneRender(grid: Grid, key: int, render: Render): Manager { CacheKey(Start(grid).mgr, key, render) }

  /** A render reaches the cache while nobody is in the hub. */
  lemma RenderBeforeJoin(grid: Grid, key: int, render: Render) returns (run: seq<Action>)
    requires 0 <= key < grid.rows * grid.cols
    ensures Alone(grid, run, OneRender(grid, key, render), Idle, NoReplay, Conn([], [], [], false, false))
  {
    OneStepMore(grid, [], Accept(0));
    run := [] + [Accept(0)];
    OneStepMore(grid, run, KeyArrives(key, render));
    run := run + [KeyArrives(key, render)];
    run := NobodyInHub(grid, run, OneRender(grid, key, render), KeyFrame(key, 1, render));
  }

  /** A broadcast that nobody hears. */
  lemma NobodyInHub(grid: Grid, run: seq<Action>, m: Manager, f: Frame) returns (run': seq<Action>)
    requires Alone(grid, run, m, Announcing(f), NoReplay, Conn([], [], [], false, false))
    ensures Alone(grid, run', m, Idle, NoReplay, Conn([], [], [], false, false))
  {
    OneStepMore(grid, run, LockHub);
    run' := run + [LockHub];
    OneStepMore(grid, run', UnlockHub);
    run' := run' + [UnlockHub];
  }

  lemma OneActionMore(run: seq<Action>, a: Action, c: nat)
    ensures LastReplayed(run + [a]) == if a.BeginReplay? then Some(a.client) else LastReplayed(run)
    ensures Joined(run + [a], c) == (a == Join(c) || (a != Leave(c) && Joined(run, c)))
    ensures a == EndReplay && LastReplayed(run) == Some(c) ==> Replayed(run + [a], c) == Joined(run, c)
  {
    assert (run + [a])[..|run|] == run;
  }

  /** The client joins and is replayed to. */
  lemma JoinAndReplay(grid: Grid, before: seq<Action>, key: int, render: Render) returns (run: seq<Action>)
    requires Alone(grid, before, OneRender(grid, key, render), Idle, NoReplay,
                   Conn([], [], [], false, false))
    ensures After(grid, run).Some? && Replayed(run, 0)
    ensures var s := After(grid, run).value; s.reader.Idle? && key in s.mgr.keys && s.mgr.keys[key] == Held(1, render)
  {
    OneStepMore(grid, before, Join(0));
    OneActionMore(before, Join(0), 0);
    run := before + [Join(0)];
    OneStepMore(grid, run, BeginReplay(0));
    OneActionMore(run, BeginReplay(0), 0);
    run := run + [BeginReplay(0)];
    OneStepMore(grid, run, ReplayLayout);
    OneActionMore(run, ReplayLayout, 0);
    run := run + [ReplayLayout];
    OneStepMore(grid, run, ReplayKey(key));
    OneActionMore(run, ReplayKey(key), 0);
    run := run + [ReplayKey(key)];
    OneStepMore(grid, run, EndReplay);
    OneActionMore(run, EndReplay, 0);
    run := run + [EndReplay];
  }

  /** The agreement is about something: on any grid, for any key on it and any render, some run
      brings a client to show that render. */
  lemma AgreementIsReached(grid: Grid, key: int, render: Render)
    requires 0 <= key < grid.rows * grid.cols
    ensures exists run :: After(grid, run).Some? && Replayed(run, 0) && After(grid, run).value.reader.Idle?
                          && 0 in After(grid, run).value.conns
                          && Lookup(Total(After(grid, run).value.conns[0]).keys, key) == Some(Held(1, render))
  {
    var before := RenderBeforeJoin(grid, key, render);
    var run := JoinAndReplay(grid, before, key, render);
    SurfaceAgreement(grid, run, 0);
  }
}
