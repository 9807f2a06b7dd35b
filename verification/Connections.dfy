/** The connected clients, the hub that fans frames out to them and the surface manager behind
    it, as the objects they are. Each operation is proved against the step of the transition
    systems it takes when nothing interrupts it. */
module Connections {
  import opened Wrappers
  import opened SurfaceLane
  import opened SendQueues
  import opened MergePatch
  import opened StateReplica
  import SurfaceRelay
  import StateStore

  const STATUS_POLICY_VIOLATION: nat := 1008

  /** Why a connection ends. */
  datatype CloseRequest = CloseRequest(code: nat, reason: string, graceful: bool)

  class ClientConn {
    const send: SendQueue<Msg>
    var topics: set<string>
    var closing: Option<CloseRequest>
    /** The loops have been told to stop; the socket has been cut under a read in progress. */
    var done: bool
    var cut: bool
    var heldSurfaceKeys: set<int>

    ghost predicate Valid()
      reads this, send
    {
      && send.Valid()
      && (done <==> closing.Some?)
      && (cut <==> closing.Some? && !closing.value.graceful)
    }

    /** The connection is in the state the replication system calls `k`. */
    ghost predicate Is(k: Client)
      reads this, send
    {
      Valid() && topics == k.topics && closing.Some? == k.closing && send.other == k.queue && send.lane == k.surface
    }

    /** A surface frame was pushed onto the lanes given, and nothing else queued. */
    ghost predicate Took(surface: seq<Frame>, other: seq<Msg>, f: Frame)
      reads this, send
    {
      Valid() && send.lane == Push(surface, f) && send.other == other
    }

    constructor ()
      ensures Valid() && fresh(send) && Is(NewClient) && heldSurfaceKeys == {}
    {
      send := new SendQueue();
      topics, closing, done, cut, heldSurfaceKeys := TOPICS, None, false, false, {};
    }

    /** The first request wins: it alone stops the loops, and only a graceful one leaves the socket
        to be closed with its code. */
    method Close(code: nat, reason: string, graceful: bool)
      requires Valid()
      modifies this`closing, this`done, this`cut
      ensures Valid() && done
      ensures closing == if old(closing).Some? then old(closing) else Some(CloseRequest(code, reason, graceful))
      ensures cut == (old(cut) || (old(closing).None? && !graceful))
    {
      var first := closing.None?;
      if first {
        closing := Some(CloseRequest(code, reason, graceful));
        done := true;
      }
      if first && !graceful {
        cut := true;
      }
    }

    /** Queues a frame, or asks for the connection to be closed when the backlog is full. */
    method Enqueue(m: Msg)
      requires Valid()
      modifies this`closing, this`done, this`cut, send`other, send`wake
      ensures Valid() && send.lane == old(send.lane)
      ensures forall k: Client :: old(Is(k)) ==> Is(StateReplica.Enqueue(k, m))
      ensures send.other == if |old(send.other)| < 64 then old(send.other) + [m] else old(send.other)
      ensures |old(send.other)| < 64 || old(closing).Some? ==> unchanged(this)
      ensures |old(send.other)| >= 64 && old(closing).None? ==>
                cut && done && closing.Some? && closing.value.code == 1008 && !closing.value.graceful
    {
      var ok := send.PushOther(m);
      if !ok {
        Close(STATUS_POLICY_VIOLATION, "client send buffer full", false);
      }
    }

    /** The next frame to write. */
    method Pop() returns (p: Option<Packet<Msg>>)
      requires Valid()
      modifies send`other, send`order, send`keys, send`layout, send`lane
      ensures Valid()
      ensures forall k: Client :: old(Is(k)) ==>
                Is(Popped(k)) && Popped(k).popped == if p.None? then k.popped else k.popped + [p.value]
    {
      p := send.Pop();
    }

    method EnqueueSurfaceKey(key: int, s: int, render: Render)
      requires Valid()
      modifies send
      ensures Took(old(send.lane), old(send.other), KeyFrame(key, s, render))
    {
      send.PushSurfaceKey(key, s, render);
    }

    method EnqueueSurfaceLayout(s: int, grid: Grid)
      requires Valid()
      modifies send
      ensures Took(old(send.lane), old(send.other), LayoutFrame(s, grid))
    {
      send.PushSurfaceLayout(s, grid);
    }

    /** Queues the state, limited to the client's topics, at the store's revision. */
    method SendSnapshot(store: StateStore.Store)
      requires Valid() && store.Valid()
      modifies this`closing, this`done, this`cut, send`other, send`wake
      ensures Valid() && send.lane == old(send.lane)
      ensures forall k: Client :: old(Is(k)) ==>
                Is(StateReplica.Enqueue(k, State(store.rev, FilterTopics(store.cur, topics))))
    {
      var at, data := store.Snapshot(topics);
      Enqueue(State(at, if data.None? then map[] else data.value));
    }

    /** The client's part of a delta, sent only when there is one. */
    method SendDelta(rev: nat, patch: Obj)
      requires Valid()
      modifies this`closing, this`done, this`cut, send`other, send`wake
      ensures Valid() && send.lane == old(send.lane)
      ensures forall k: Client :: old(Is(k)) ==> Is(ScopeDelta(k, rev, patch))
    {
      var scoped := ComputeFilter(patch, topics);
      if scoped.Some? {
        Enqueue(Delta(rev, scoped.value));
      }
    }

    /** Nothing in the lane, and nothing a client showing `v` holds, is newer than the cache. */
    ghost predicate CanReplay(surface: SurfaceManager?, v: View)
      reads send, surface
    {
      surface != null ==>
        surface.Precedes(send.lane) && SurfaceRelay.HeldUpTo(Fold(v, send.lane).keys, surface.seqNo)
    }

    /** A subscribe or unsubscribe frame, None when malformed, to a connection in state `k` whose
        client shows `v` so far. A bad one changes nothing but the queue. A good one re-baselines:
        whatever was queued before it, the client has the state of its new topics queued, is in
        the hub, and the surface lane ends with the surface as cached. */
    method HandleSubscription(asked: Option<seq<string>>, subscribe: bool, hub: Hub, store: StateStore.Store,
                              surface: SurfaceManager?, ghost k: Client, ghost v: View)
      returns (complaint: Option<string>)
      requires Is(k) && hub.Valid() && store.Valid() && CanReplay(surface, v)
      requires forall c :: c in hub.clients && c != this ==> c.send != send
      modifies this`topics, this`closing, this`done, this`cut, hub`clients, send
      ensures hub.Valid()
      ensures complaint.None? <==> asked.Some? && forall t :: t in asked.value ==> t in TOPICS
      ensures !Acceptable(asked) ==>
                && topics == old(topics) && complaint.Some? && hub.clients == old(hub.clients)
                && Is(StateReplica.Enqueue(k, Reply(complaint.value)))
      ensures Acceptable(asked) ==>
                && complaint.None? && hub.clients == old(hub.clients) + {this}
                && (forall t :: t in topics <==> if t in asked.value then subscribe else t in old(topics))
                && Is(Rebased(k, asked.value, subscribe, store.rev, store.cur).(surface := send.lane))
                && (if surface == null then send.lane == old(send.lane)
                    else Fold(v, send.lane) == SurfaceRelay.Shown(surface.State()))
    {
      complaint := Complaint(asked);
      if complaint.Some? {
        Enqueue(Reply(complaint.value));
        return;
      }
      Rebaseline(asked.value, subscribe, hub, store, surface, k, v);
    }

    method Rebaseline(asked: seq<string>, subscribe: bool, hub: Hub, store: StateStore.Store,
                      surface: SurfaceManager?, ghost k: Client, ghost v: View)
      requires Is(k) && hub.Valid() && store.Valid() && CanReplay(surface, v)
      requires forall c :: c in hub.clients && c != this ==> c.send != send
      modifies this`topics, this`closing, this`done, this`cut, send, hub`clients
      ensures hub.Valid() && hub.clients == old(hub.clients) + {this}
      ensures Is(Rebased(k, asked, subscribe, store.rev, store.cur).(surface := send.lane))
      ensures if surface == null then send.lane == old(send.lane)
              else Fold(v, send.lane) == SurfaceRelay.Shown(surface.State())
    {
      RebaseState(asked, subscribe, hub, store, k);
      if surface != null {
        surface.SendInitial(this, v);
      }
    }

    /** Out of the hub, the subscription changed, the snapshot queued, and back in. */
    method RebaseState(asked: seq<string>, subscribe: bool, hub: Hub, store: StateStore.Store, ghost k: Client)
      requires Is(k) && store.Valid()
      modifies this`topics, this`closing, this`done, this`cut, send`other, send`wake, hub`clients
      ensures Is(Rebased(k, asked, subscribe, store.rev, store.cur)) && send.lane == old(send.lane)
      ensures hub.clients == old(hub.clients) + {this}
    {
      hub.Remove(this);
      ChangeTopics(asked, subscribe);
      assert Is(k.(topics := topics));
      SendSnapshot(store);
      hub.Add(this);
    }

    method ChangeTopics(asked: seq<string>, subscribe: bool)
      modifies this`topics
      ensures topics == Subscribed(old(topics), asked, subscribe)
      ensures forall t :: t in topics <==> if t in asked then subscribe else t in old(topics)
    {
      for i := 0 to |asked|
        invariant topics == Subscribed(old(topics), asked[..i], subscribe)
      {
        if subscribe {
          topics := topics + {asked[i]};
        } else {
          topics := topics - {asked[i]};
        }
      }
      assert asked[..|asked|] == asked;
    }

    method TrackSurfaceHold(key: int, pressed: bool)
      modifies this`heldSurfaceKeys
      ensures forall k :: k in heldSurfaceKeys <==> if k == key then pressed else k in old(heldSurfaceKeys)
    {
      if pressed {
        heldSurfaceKeys := heldSurfaceKeys + {key};
      } else {
        heldSurfaceKeys := heldSurfaceKeys - {key};
      }
    }

    /** A press or release of a key, either part absent when malformed. `fails` is whether
        Companion refuses it; `asked` is whether Companion was asked at all. A hold is recorded
        before the outcome is known and forgotten only for a release that did not fail. */
    method HandleSurfacePress(key: Option<int>, pressed: Option<bool>, surface: SurfaceManager?, fails: bool)
      returns (asked: bool, complaint: Option<string>)
      requires Valid()
      modifies this`heldSurfaceKeys, this`closing, this`done, this`cut, send`other, send`wake
      ensures Valid() && send.lane == old(send.lane)
      ensures asked <==>
                && key.Some? && pressed.Some? && surface != null
                && SurfaceRelay.InBounds(surface.State(), key.value)
      ensures forall k :: k in heldSurfaceKeys <==>
                if asked && k == key.value then pressed.value || (fails && k in old(heldSurfaceKeys))
                else k in old(heldSurfaceKeys)
      ensures complaint.Some? <==> key.None? || pressed.None? || surface == null || (asked && fails)
      ensures complaint.Some? ==> forall k: Client :: old(Is(k)) ==> Is(StateReplica.Enqueue(k, Reply(complaint.value)))
      ensures complaint.None? ==> unchanged(this`closing, this`done, this`cut, send)
    {
      asked, complaint := false, None;
      if key.None? || pressed.None? {
        complaint := Some("surface-press requires key and pressed");
      } else if surface == null {
        complaint := Some("no Companion surface configured");
      } else {
        asked := PressOnGrid(key.value, pressed.value, surface, fails);
        if asked && fails {
          complaint := Some("Companion surface unavailable");
        }
      }
      if complaint.Some? {
        Enqueue(Reply(complaint.value));
      }
    }

    method PressOnGrid(key: int, pressed: bool, surface: SurfaceManager, fails: bool) returns (asked: bool)
      modifies this`heldSurfaceKeys
      ensures asked == SurfaceRelay.InBounds(surface.State(), key)
      ensures forall k :: k in heldSurfaceKeys <==>
                if asked && k == key then pressed || (fails && k in old(heldSurfaceKeys)) else k in old(heldSurfaceKeys)
    {
      asked := surface.InBounds(key);
      if !asked {
        return;
      }
      if pressed {
        TrackSurfaceHold(key, true);
      }
      asked := surface.Press(key);
      if !fails && !pressed {
        TrackSurfaceHold(key, false);
      }
    }

    /** On the way out: every held key on the grid is released, once each, and none is held any
        more. */
    method ReleaseHeldSurfaceKeys(surface: SurfaceManager?) returns (released: seq<int>)
      modifies this`heldSurfaceKeys
      ensures surface == null ==> released == [] && heldSurfaceKeys == old(heldSurfaceKeys)
      ensures surface != null ==>
                && (forall k :: k !in heldSurfaceKeys)
                && (forall k :: k in released <==>
                      k in old(heldSurfaceKeys) && SurfaceRelay.InBounds(surface.State(), k))
                && (forall i, j :: 0 <= i < j < |released| ==> released[i] != released[j])
    {
      released := [];
      if surface == null {
        return;
      }
      var todo := heldSurfaceKeys;
      heldSurfaceKeys := {};
      while todo != {}
        modifies {}
        invariant todo <= old(heldSurfaceKeys)
        invariant forall k :: k in released <==>
                    k in old(heldSurfaceKeys) && k !in todo && SurfaceRelay.InBounds(surface.State(), k)
        invariant forall i, j :: 0 <= i < j < |released| ==> released[i] != released[j]
        decreases todo
      {
        var key := Pick(todo);
        todo := todo - {key};
        var asked := surface.Press(key);
        if asked {
          released := released + [key];
        }
      }
    }
  }

  class Hub {
    var clients: set<ClientConn>

    ghost predicate Valid()
      reads this, clients, set c | c in clients :: c.send
    {
      && (forall c :: c in clients ==> c.Valid())
      && (forall c, d :: c in clients && d in clients && c.send == d.send ==> c == d)
    }

    constructor ()
      ensures Valid() && clients == {}
    {
      clients := {};
    }

    method Add(c: ClientConn)
      modifies this`clients
      ensures clients == old(clients) + {c}
    {
      clients := clients + {c};
    }

    method Remove(c: ClientConn)
      modifies this`clients
      ensures clients == old(clients) - {c}
    {
      clients := clients - {c};
    }

    /** Every client takes the delta step, in whatever order the loop meets them; `ks` gives the
        states they are in. */
    method BroadcastDelta(rev: nat, patch: Obj, ghost ks: map<ClientConn, Client>)
      requires Valid() && forall c :: c in clients ==> c in ks && c.Is(ks[c])
      modifies clients, set c | c in clients :: c.send
      ensures Valid() && clients == old(clients)
      ensures forall c :: c in clients ==> c.Is(ScopeDelta(ks[c], rev, patch))
    {
      var todo := clients;
      while todo != {}
        invariant todo <= clients
        invariant forall c :: c in clients ==> c.Is(if c in todo then ks[c] else ScopeDelta(ks[c], rev, patch))
        decreases todo
      {
        var c := Pick(todo);
        todo := todo - {c};
        c.SendDelta(rev, patch);
      }
    }

    method BroadcastSurfaceKey(key: int, s: int, render: Render)
      requires Valid()
      modifies set c | c in clients :: c.send
      ensures Valid() && clients == old(clients)
      ensures forall c :: c in clients ==> c.Took(old(c.send.lane), old(c.send.other), KeyFrame(key, s, render))
    {
      var todo := clients;
      while todo != {}
        invariant todo <= clients
        invariant forall c :: c in clients ==>
                    if c in todo then unchanged(c.send)
                    else c.Took(old(c.send.lane), old(c.send.other), KeyFrame(key, s, render))
        decreases todo
      {
        var c := Pick(todo);
        todo := todo - {c};
        c.EnqueueSurfaceKey(key, s, render);
      }
    }

    method BroadcastSurfaceLayout(s: int, grid: Grid)
      requires Valid()
      modifies set c | c in clients :: c.send
      ensures Valid() && clients == old(clients)
      ensures forall c :: c in clients ==> c.Took(old(c.send.lane), old(c.send.other), LayoutFrame(s, grid))
    {
      var todo := clients;
      while todo != {}
        invariant todo <= clients
        invariant forall c :: c in clients ==>
                    if c in todo then unchanged(c.send)
                    else c.Took(old(c.send.lane), old(c.send.other), LayoutFrame(s, grid))
        decreases todo
      {
        var c := Pick(todo);
        todo := todo - {c};
        c.EnqueueSurfaceLayout(s, grid);
      }
    }
  }

  class SurfaceManager {
    const hub: Hub
    var rows: int
    var cols: int
    var bitmapSize: int
    var seqNo: int
    var keys: map<int, Held>

    /** The cache as the relay system knows it. */
    ghost function State(): SurfaceRelay.Manager
      reads this
    {
      SurfaceRelay.Manager(Grid(rows, cols, bitmapSize), seqNo, keys)
    }

    /** Nothing queued is newer than the cache's sequence. */
    ghost predicate Precedes(q: seq<Frame>)
      reads this
    {
      SurfaceRelay.FramesUpTo(q, seqNo) && SurfaceRelay.HeldUpTo(keys, seqNo)
    }

    constructor (hub: Hub, grid: Grid)
      ensures this.hub == hub && State() == SurfaceRelay.Start(grid).mgr
    {
      this.hub := hub;
      rows, cols, bitmapSize, seqNo, keys := grid.rows, grid.cols, grid.bitmapSize, 0, map[];
    }

    method InBounds(key: int) returns (ok: bool)
      ensures ok == SurfaceRelay.InBounds(State(), key)
    {
      return 0 <= key < rows * cols;
    }

    /** Whether Companion is asked at all. */
    method Press(key: int) returns (asked: bool)
      ensures asked == SurfaceRelay.InBounds(State(), key)
    {
      asked := InBounds(key);
    }

    /** A new grid empties the cache, and every client is told, at the sequence as it stands. */
    method OnLayout(grid: Grid)
      requires hub.Valid()
      modifies this, set c | c in hub.clients :: c.send
      ensures hub.Valid() && State() == SurfaceRelay.CacheLayout(old(State()), grid)
      ensures forall c :: c in hub.clients ==>
                c.send.lane == Push(old(c.send.lane), LayoutFrame(seqNo, grid)) && c.send.other == old(c.send.other)
    {
      rows, cols, bitmapSize := grid.rows, grid.cols, grid.bitmapSize;
      keys := map[];
      hub.BroadcastSurfaceLayout(seqNo, grid);
    }

    /** A render on the grid takes the next sequence and goes to the cache and every client; any
        other changes nothing. */
    method OnKey(key: int, render: Render)
      requires hub.Valid()
      modifies this, set c | c in hub.clients :: c.send
      ensures hub.Valid()
      ensures State() == if SurfaceRelay.InBounds(old(State()), key)
                         then SurfaceRelay.CacheKey(old(State()), key, render)
                         else old(State())
      ensures forall c :: c in hub.clients ==>
                && c.send.other == old(c.send.other)
                && c.send.lane == if SurfaceRelay.InBounds(old(State()), key)
                                       then Push(old(c.send.lane), KeyFrame(key, seqNo, render))
                                       else old(c.send.lane)
    {
      var ok := InBounds(key);
      if !ok {
        return;
      }
      seqNo := seqNo + 1;
      keys := keys[key := Held(seqNo, render)];
      hub.BroadcastSurfaceKey(key, seqNo, render);
    }

    method OnClear()
      requires hub.Valid()
      modifies this, set c | c in hub.clients :: c.send
      ensures hub.Valid() && State() == SurfaceRelay.CacheClear(old(State()))
      ensures forall c :: c in hub.clients ==>
                && c.send.other == old(c.send.other)
                && c.send.lane == Push(old(c.send.lane), LayoutFrame(seqNo, Grid(rows, cols, bitmapSize)))
    {
      keys := map[];
      hub.BroadcastSurfaceLayout(seqNo, Grid(rows, cols, bitmapSize));
    }

    /** Replays the cache to one client: whatever was queued, it will show the cache once its
        lane has drained. */
    method SendInitial(c: ClientConn, ghost v: View)
      requires c.Valid() && c.CanReplay(this, v)
      modifies c.send
      ensures c.Valid() && c.send.other == old(c.send.other)
      ensures Fold(v, c.send.lane) == SurfaceRelay.Shown(State())
    {
      LayoutReplayed(State(), v, c.send.lane);
      c.EnqueueSurfaceLayout(seqNo, Grid(rows, cols, bitmapSize));
      var todo := keys.Keys;
      while todo != {}
        invariant todo <= keys.Keys && c.Valid() && c.send.other == old(c.send.other)
        invariant SurfaceRelay.PartlyReplayed(State(), Fold(v, c.send.lane), todo)
        decreases todo
      {
        var key := Pick(todo);
        KeyReplayed(State(), v, c.send.lane, todo, key);
        c.EnqueueSurfaceKey(key, keys[key].seqNo, keys[key].render);
        todo := todo - {key};
      }
      SurfaceRelay.FullyReplayed(State(), Fold(v, c.send.lane));
    }
  }

  lemma KeyReplayed(m: SurfaceRelay.Manager, v: View, q: seq<Frame>, todo: set<int>, key: int)
    requires SurfaceRelay.PartlyReplayed(m, Fold(v, q), todo) && key in todo && key in m.keys && Structured(q)
    ensures var h := m.keys[key];
            SurfaceRelay.PartlyReplayed(m, Fold(v, Push(q, KeyFrame(key, h.seqNo, h.render))), todo - {key})
  {
    PushKeyRefines(v, q, key, m.keys[key].seqNo, m.keys[key].render);
  }

  lemma LayoutReplayed(m: SurfaceRelay.Manager, v: View, q: seq<Frame>)
    requires SurfaceRelay.FramesUpTo(q, m.seqNo) && SurfaceRelay.HeldUpTo(Fold(v, q).keys, m.seqNo)
    ensures SurfaceRelay.PartlyReplayed(m, Fold(v, Push(q, LayoutFrame(m.seqNo, m.grid))), m.keys.Keys)
  {
    PushLayoutRefines(v, q, m.seqNo, m.grid);
    SurfaceRelay.NothingAbove(Fold(v, q).keys, m.seqNo);
  }

  /** What is wrong with a subscription frame, if anything: its first unknown topic. */
  method Complaint(asked: Option<seq<string>>) returns (c: Option<string>)
    ensures c.None? <==> Acceptable(asked)
    ensures c.None? <==> asked.Some? && forall t :: t in asked.value ==> t in TOPICS
  {
    if asked.None? {
      return Some("malformed frame");
    }
    for i := 0 to |asked.value|
      invariant forall j :: 0 <= j < i ==> asked.value[j] in TOPICS
    {
      if asked.value[i] !in TOPICS {
        return Some("unknown topic: " + asked.value[i]);
      }
    }
    return None;
  }

  predicate Acceptable(asked: Option<seq<string>>) { asked.Some? && Members(asked.value) <= TOPICS }

  /** The topics after a subscription frame. */
  function Subscribed(topics: set<string>, asked: seq<string>, subscribe: bool): set<string> {
    if subscribe then topics + Members(asked) else topics - Members(asked)
  }

  /** The client after its subscription changed and the snapshot of its new topics was queued. */
  function Rebased(k: Client, asked: seq<string>, subscribe: bool, rev: nat, cur: Obj): Client {
    var topics := Subscribed(k.topics, asked, subscribe);
    StateReplica.Enqueue(k.(topics := topics), State(rev, FilterTopics(cur, topics)))
  }

  function Members(topics: seq<string>): set<string> { set t | t in topics }
}
