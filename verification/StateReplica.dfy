/** State replication as a transition system: one store, a hub, and any number of clients that
    connect, change their subscription, ask for the state again and drain their queues, while
    the store is updated under its lock and broadcasts each patch to one client at a time.

    A snapshot is read, queued and (when joining) the client added to the hub under the store's
    read lock, so no update runs beside it. Leaving the hub waits only for a broadcast. */
module StateReplica {
  import opened Wrappers
  import opened SurfaceLane
  import opened SendQueues
  import opened MergePatch

  const TOPICS: set<string> := {"audio", "camera", "obs", "slides", "stream"}

  datatype Msg =
    | Hello
    | State(rev: nat, data: Obj)
    | Delta(rev: nat, patch: Obj)
    | Reply(text: string)   // any other frame: an ack, a nak, an error, an event, a pong

  /** Where a connection is in its life: the hub holds it exactly while it is Serving. */
  datatype Stage = Fresh | Greeted | Serving | Left | Resubscribed

  /** `popped` is every frame written so far, and `produced` is a history of every state-lane
      frame meant for this client, queued or not. `skipped` counts the updates outside its topics
      since its last state or delta frame, and `scopes` gives the topics it had when each frame was
      produced. */
  datatype Client = Client(stage: Stage, topics: set<string>, queue: seq<Msg>, surface: seq<Frame>,
                           popped: seq<Packet<Msg>>, closing: bool,
                           produced: seq<Msg>, scopes: seq<set<string>>, skipped: nat)

  /** The store's writer: idle, or holding the store's lock with a change stored and not yet
      broadcast, or broadcasting it under the hub's read lock. */
  datatype Writer = NoUpdate | Stored(patch: Obj) | Broadcasting(patch: Obj, done: set<nat>)

  datatype System = System(cur: Obj, rev: nat, writer: Writer, clients: map<nat, Client>)

  datatype Action =
    | Update(next: Obj)
    | LockHub
    | SendDelta(client: nat)
    | UnlockHub
    | Accept(client: nat)
    | Greet(client: nat)
    | JoinHub(client: nat)
    | GetState(client: nat)
    | LeaveHub(client: nat)
    | SetTopics(client: nat, add: bool, topics: set<string>)
    | ReplyTo(client: nat, text: string)
    | SurfaceTo(client: nat, frame: Frame)
    | PopFrom(client: nat)
    | RequestClose(client: nat)

  const Start := System(map[], 0, NoUpdate, map[])

  const NewClient := Client(Fresh, TOPICS, [], [], [], false, [], [], 0)

  predicate Joined(c: Client) { c.stage.Serving? || c.stage.Left? || c.stage.Resubscribed? }

  predicate IsClientStep(a: Action) { !a.Update? && !a.LockHub? && !a.UnlockHub? && !a.Accept? }

  /** What a step asks of the store's lock and the hub's. */
  predicate LocksAllow(s: System, a: Action) {
    match a
    case SendDelta(c) => s.writer.Broadcasting? && c !in s.writer.done
    case JoinHub(_) => s.writer.NoUpdate?
    case GetState(_) => s.writer.NoUpdate?
    case LeaveHub(_) => !s.writer.Broadcasting?
    case _ => true
  }

  /** What a step asks of the client it is about. */
  predicate ClientAllows(k: Client, a: Action) {
    match a
    case SendDelta(_) => k.stage.Serving?
    case Greet(_) => k.stage.Fresh?
    case JoinHub(_) => k.stage.Greeted? || k.stage.Resubscribed?
    case GetState(_) => k.stage.Serving?
    case LeaveHub(_) => k.stage.Serving?
    case SetTopics(_, _, topics) => k.stage.Left? && topics <= TOPICS
    case ReplyTo(_, _) => k.stage.Serving?
    case SurfaceTo(_, _) => Joined(k)
    case PopFrom(_) => Joined(k) && !k.closing
    case _ => true
  }

  predicate InHub(s: System, c: nat) { c in s.clients && s.clients[c].stage.Serving? }

  /** An update may be anything a patch can express; a state without nulls always is. */
  predicate Enabled(s: System, a: Action) {
    match a
    case Update(next) => s.writer.NoUpdate? && Writable(Object(s.cur), Object(next)) && next.Keys <= TOPICS
    case LockHub => s.writer.Stored?
    case UnlockHub => s.writer.Broadcasting? && forall c :: c in s.clients && InHub(s, c) ==> c in s.writer.done
    case Accept(c) => c !in s.clients
    case _ => a.client in s.clients && LocksAllow(s, a) && ClientAllows(s.clients[a.client], a)
  }

  /** Queues a state-lane frame, or requests a close when the backlog is full. */
  function Enqueue(c: Client, m: Msg): Client {
    var c' := c.(produced := c.produced + [m], scopes := c.scopes + [c.topics]);
    if |c.queue| >= SEND_BUFFER then c'.(closing := true) else c'.(queue := c.queue + [m])
  }

  function SendSnapshot(s: System, c: Client): Client {
    Enqueue(c, State(s.rev, FilterTopics(s.cur, c.topics))).(skipped := 0)
  }

  function ScopeDelta(c: Client, rev: nat, patch: Obj): Client {
    var scoped := FilterTopics(patch, c.topics);
    if scoped == map[] then c.(skipped := c.skipped + 1)
    else Enqueue(c, Delta(rev, scoped)).(skipped := 0)
  }

  function Popped(c: Client): Client {
    if c.queue != [] then c.(queue := c.queue[1..], popped := c.popped + [OtherPacket(c.queue[0])])
    else if c.surface != [] then c.(surface := c.surface[1..], popped := c.popped + [SurfacePacket(c.surface[0])])
    else c
  }

  /** The client after a step about it. */
  function Act(s: System, k: Client, a: Action): Client
    requires IsClientStep(a) && LocksAllow(s, a)
  {
    match a
    case SendDelta(_) => ScopeDelta(k, s.rev, s.writer.patch)
    case Greet(_) => Enqueue(k, Hello).(stage := Greeted)
    case JoinHub(_) => SendSnapshot(s, k).(stage := Serving)
    case GetState(_) => SendSnapshot(s, k)
    case LeaveHub(_) => k.(stage := Left)
    case SetTopics(_, add, topics) => Resubscribe(k, if add then k.topics + topics else k.topics - topics)
    case ReplyTo(_, text) => Enqueue(k, Reply(text))
    case SurfaceTo(_, f) => k.(surface := Push(k.surface, f))
    case PopFrom(_) => Popped(k)
    case RequestClose(_) => k.(closing := true)
  }

  function Resubscribe(k: Client, topics: set<string>): Client {
    k.(stage := Resubscribed, topics := topics)
  }

  function WriterAfter(s: System, a: Action): Writer
    requires LocksAllow(s, a)
  {
    if a.SendDelta? then s.writer.(done := s.writer.done + {a.client}) else s.writer
  }

  function Do(s: System, a: Action): System
    requires Enabled(s, a)
  {
    match a
    case Update(next) =>
      var patch := Diff(Object(s.cur), Object(next));
      if patch == map[] then s else s.(cur := next, rev := s.rev + 1, writer := Stored(patch))
    case LockHub => s.(writer := Broadcasting(s.writer.patch, {}))
    case UnlockHub => s.(writer := NoUpdate)
    case Accept(c) => s.(clients := s.clients[c := NewClient])
    case _ =>
      s.(clients := s.clients[a.client := Act(s, s.clients[a.client], a)], writer := WriterAfter(s, a))
  }

  /** The state after a run of actions, or None when one of them was not enabled. */
  function After(run: seq<Action>): Option<System> {
    if run == [] then Some(Start)
    else
      match After(run[..|run| - 1])
      case None => None
      case Some(s) => if Enabled(s, run[|run| - 1]) then Some(Do(s, run[|run| - 1])) else None
  }

  // ---------------------------------------------------------------- what a client makes of it

  /** The object a client holds after a sequence of frames. */
  function Replica(frames: seq<Msg>): Obj {
    if frames == [] then map[] else Receive(Replica(frames[..|frames| - 1]), frames[|frames| - 1])
  }

  function Receive(o: Obj, m: Msg): Obj {
    if m.State? then m.data else if m.Delta? then Patched(o, m.patch) else o
  }

  /** The revision of the last state or delta frame. */
  function LastRev(frames: seq<Msg>): Option<nat> {
    if frames == [] then None else RevAfter(LastRev(frames[..|frames| - 1]), frames[|frames| - 1])
  }

  function RevAfter(rev: Option<nat>, m: Msg): Option<nat> {
    if m.State? || m.Delta? then Some(m.rev) else rev
  }

  /** Each delta's revision is later than that of the state or delta frame before it. */
  predicate RevsAscend(frames: seq<Msg>) {
    frames == [] ||
    var init, m := frames[..|frames| - 1], frames[|frames| - 1];
    RevsAscend(init) && (m.Delta? ==> LastRev(init).Some? && LastRev(init).value < m.rev)
  }

  /** Frame `i` is a delta whose revision is not the next after that of the state or delta frame
      before it. */
  predicate Gap(frames: seq<Msg>, i: nat)
    requires i < |frames|
  {
    frames[i].Delta? &&
    var before := LastRev(frames[..i]);
    before.None? || before.value + 1 != frames[i].rev
  }

  /** The state-lane frames among those written. */
  function StateLane(popped: seq<Packet<Msg>>): seq<Msg> {
    if popped == [] then []
    else
      var rest := StateLane(popped[..|popped| - 1]);
      match popped[|popped| - 1]
      case OtherPacket(m) => rest + [m]
      case SurfacePacket(_) => rest
  }

  // ---------------------------------------------------------------- the invariant

  /** Until a close is requested nothing is lost: what was written and what is queued is what
      was produced. Afterwards what was written is still a prefix. */
  ghost predicate DeliveryInv(c: Client) {
    && StateLane(c.popped) <= c.produced && |c.queue| <= SEND_BUFFER
    && (!c.closing ==> StateLane(c.popped) + c.queue == c.produced)
  }

  ghost predicate OpeningInv(c: Client) {
    match c.stage
    case Fresh => c.produced == [] && c.queue == [] && c.popped == []
    case Greeted => c.produced == [Hello] && |c.queue| <= 1 && c.popped == []
    case _ =>
      && |c.produced| >= 2 && c.produced[0] == Hello && c.produced[1].State?
      && (|c.popped| >= 1 ==> c.popped[0] == OtherPacket(c.produced[0]))
      && (|c.popped| >= 2 ==> c.popped[1] == OtherPacket(c.produced[1]))
  }

  /** The patch an update in progress has yet to send a client in the hub. */
  function Pending(s: System, c: nat): Option<Obj> {
    if s.writer.Stored? || (s.writer.Broadcasting? && c !in s.writer.done) then Some(s.writer.patch) else None
  }

  /** A client in the hub agrees with the store, or will once the pending patch reaches it. */
  ghost predicate ReplicaInv(k: Client, cur: Obj, pending: Option<Obj>) {
    k.stage.Serving? ==>
      (if pending.Some? then Patched(Replica(k.produced), FilterTopics(pending.value, k.topics))
       else Replica(k.produced)) == FilterTopics(cur, k.topics)
  }

  ghost predicate RevInv(k: Client, rev: nat, pending: Option<Obj>) {
    && RevsAscend(k.produced)
    && (k.stage.Serving? ==>
          && LastRev(k.produced) == Some(rev - k.skipped - if pending.Some? then 1 else 0)
          && (k.topics == TOPICS ==> k.skipped == 0))
  }

  /** No delta is produced for a client without topics, and none that leaves a gap for one
      subscribed to every topic. */
  ghost predicate ScopesInv(k: Client) {
    && |k.scopes| == |k.produced|
    && forall i :: 0 <= i < |k.produced| && k.produced[i].Delta? ==>
                     k.scopes[i] != {} && (k.scopes[i] == TOPICS ==> !Gap(k.produced, i))
  }

  ghost predicate ClientOk(k: Client, cur: Obj, rev: nat, pending: Option<Obj>) {
    DeliveryInv(k) && OpeningInv(k) && ReplicaInv(k, cur, pending) && RevInv(k, rev, pending) && ScopesInv(k)
  }

  ghost predicate ClientInv(s: System, c: nat)
    requires c in s.clients
  {
    ClientOk(s.clients[c], s.cur, s.rev, Pending(s, c))
  }

  ghost predicate StoreInv(s: System) {
    && s.cur.Keys <= TOPICS
    && (!s.writer.NoUpdate? ==> s.writer.patch != map[] && s.writer.patch.Keys <= TOPICS)
  }

  ghost predicate Inv(s: System) {
    StoreInv(s) && forall c :: c in s.clients ==> ClientInv(s, c)
  }

  // ---------------------------------------------------------------- one frame

  /** What producing one more frame does to each reading of the frames produced. */
  lemma OneMoreFrame(frames: seq<Msg>, m: Msg)
    ensures Replica(frames + [m]) == Receive(Replica(frames), m)
    ensures LastRev(frames + [m]) == RevAfter(LastRev(frames), m)
    ensures RevsAscend(frames + [m]) <==>
            RevsAscend(frames) && (m.Delta? ==> LastRev(frames).Some? && LastRev(frames).value < m.rev)
  {
    assert (frames + [m])[..|frames|] == frames;
  }

  lemma EnqueueKeepsDelivery(c: Client, m: Msg)
    requires DeliveryInv(c)
    ensures DeliveryInv(Enqueue(c, m))
  {
    assert StateLane(c.popped) + (c.queue + [m]) == (StateLane(c.popped) + c.queue) + [m];
  }

  /** Only a delta has to be looked at when a frame is produced. */
  lemma EnqueueKeepsScopes(k: Client, m: Msg)
    requires ScopesInv(k)
    requires m.Delta? ==> k.topics != {} && LastRev(k.produced).Some?
                          && (k.topics == TOPICS ==> LastRev(k.produced).value + 1 == m.rev)
    ensures ScopesInv(Enqueue(k, m))
  {
    var produced := k.produced + [m];
    forall i | 0 <= i < |produced| && produced[i].Delta?
      ensures (k.scopes + [k.topics])[i] != {} && ((k.scopes + [k.topics])[i] == TOPICS ==> !Gap(produced, i))
    {
      if i < |k.produced| {
        assert produced[..i] == k.produced[..i];
      } else {
        assert produced[..i] == k.produced;
      }
    }
  }

  lemma PopKeepsDelivery(c: Client)
    requires DeliveryInv(c) && !c.closing
    ensures DeliveryInv(Popped(c))
  {
    var c' := Popped(c);
    if c.queue != [] || c.surface != [] {
      assert c'.popped[..|c.popped|] == c.popped;
      if c.queue != [] {
        assert StateLane(c.popped) + c.queue == (StateLane(c.popped) + [c.queue[0]]) + c.queue[1..];
      }
    }
  }

  /** While the first two frames have yet to be written they are still in the state lane, which
      is drained first. */
  lemma PopKeepsOpening(c: Client)
    requires DeliveryInv(c) && OpeningInv(c) && Joined(c) && !c.closing
    ensures OpeningInv(Popped(c))
  {
    if |c.popped| < 2 {
      var n := |c.popped|;
      AllFromStateLane(c.popped, c.produced);
      assert c.produced[n] == (StateLane(c.popped) + c.queue)[n];
    }
  }

  lemma {:induction false} AllFromStateLane(popped: seq<Packet<Msg>>, produced: seq<Msg>)
    requires |popped| <= |produced|
    requires forall i :: 0 <= i < |popped| ==> popped[i] == OtherPacket(produced[i])
    ensures StateLane(popped) == produced[..|popped|]
  {
    if popped != [] {
      AllFromStateLane(popped[..|popped| - 1], produced);
    }
  }

  // ---------------------------------------------------------------- every step, for its client

  lemma EnqueueKeepsOpening(k: Client, m: Msg)
    requires OpeningInv(k) && !k.stage.Fresh? && (k.stage.Greeted? ==> m.State?)
    ensures OpeningInv(Enqueue(k, m).(stage := if k.stage.Greeted? then Serving else k.stage))
  {
    var k' := Enqueue(k, m);
    assert k'.produced[0] == k.produced[0];
    assert |k.produced| >= 2 ==> k'.produced[1] == k.produced[1];
  }

  lemma SnapshotAgrees(s: System, k: Client, pending: Option<Obj>)
    requires ReplicaInv(k, s.cur, pending) && RevInv(k, s.rev, pending)
    ensures var k' := SendSnapshot(s, k).(stage := Serving);
            ReplicaInv(k', s.cur, None) && RevInv(k', s.rev, None)
  {
    OneMoreFrame(k.produced, State(s.rev, FilterTopics(s.cur, k.topics)));
  }

  lemma SnapshotKeepsClient(s: System, k: Client, pending: Option<Obj>)
    requires ClientOk(k, s.cur, s.rev, pending) && !k.stage.Fresh? && !k.stage.Left?
    ensures ClientOk(SendSnapshot(s, k).(stage := Serving), s.cur, s.rev, None)
  {
    var m := State(s.rev, FilterTopics(s.cur, k.topics));
    EnqueueKeepsDelivery(k, m);
    EnqueueKeepsOpening(k, m);
    EnqueueKeepsScopes(k, m);
    SnapshotAgrees(s, k, pending);
  }

  lemma DeltaAgrees(k: Client, cur: Obj, rev: nat, patch: Obj)
    requires ReplicaInv(k, cur, Some(patch)) && RevInv(k, rev, Some(patch)) && k.stage.Serving?
    requires patch != map[] && patch.Keys <= TOPICS
    ensures ReplicaInv(ScopeDelta(k, rev, patch), cur, None) && RevInv(ScopeDelta(k, rev, patch), rev, None)
  {
    var scoped := FilterTopics(patch, k.topics);
    OneMoreFrame(k.produced, Delta(rev, scoped));
    assert k.topics == TOPICS ==> scoped == patch;
    EmptyPatchChangesNothing(Replica(k.produced));
  }

  lemma SomeTopic(patch: Obj, topics: set<string>)
    requires FilterTopics(patch, topics) != map[]
    ensures topics != {}
  {
    var t :| t in FilterTopics(patch, topics);
    assert t in topics;
  }

  lemma DeltaKeepsClient(k: Client, cur: Obj, rev: nat, patch: Obj)
    requires ClientOk(k, cur, rev, Some(patch)) && k.stage.Serving?
    requires patch != map[] && patch.Keys <= TOPICS
    ensures ClientOk(ScopeDelta(k, rev, patch), cur, rev, None)
  {
    var scoped := FilterTopics(patch, k.topics);
    EnqueueKeepsDelivery(k, Delta(rev, scoped));
    EnqueueKeepsOpening(k, Delta(rev, scoped));
    if scoped != map[] {
      SomeTopic(patch, k.topics);
      EnqueueKeepsScopes(k, Delta(rev, scoped));
    }
    DeltaAgrees(k, cur, rev, patch);
  }

  lemma ReplyKeepsClient(k: Client, cur: Obj, rev: nat, pending: Option<Obj>, text: string)
    requires ClientOk(k, cur, rev, pending) && k.stage.Serving?
    ensures ClientOk(Enqueue(k, Reply(text)), cur, rev, pending)
  {
    EnqueueKeepsDelivery(k, Reply(text));
    EnqueueKeepsOpening(k, Reply(text));
    EnqueueKeepsScopes(k, Reply(text));
    OneMoreFrame(k.produced, Reply(text));
  }

  lemma GreetKeepsClient(k: Client, cur: Obj, rev: nat, pending: Option<Obj>)
    requires ClientOk(k, cur, rev, pending) && k.stage.Fresh?
    ensures ClientOk(Enqueue(k, Hello).(stage := Greeted), cur, rev, pending)
  {
    EnqueueKeepsDelivery(k, Hello);
    EnqueueKeepsScopes(k, Hello);
    OneMoreFrame(k.produced, Hello);
  }

  lemma PopKeepsClient(k: Client, cur: Obj, rev: nat, pending: Option<Obj>)
    requires ClientOk(k, cur, rev, pending) && Joined(k) && !k.closing
    ensures ClientOk(Popped(k), cur, rev, pending)
  {
    PopKeepsDelivery(k);
    PopKeepsOpening(k);
  }

  lemma StoredChangeReachesLater(k: Client, cur: Obj, rev: nat, next: Obj)
    requires ClientOk(k, cur, rev, None) && Writable(Object(cur), Object(next))
    ensures ClientOk(k, next, rev + 1, Some(Diff(Object(cur), Object(next))))
  {
    DiffRoundTripsExactly(Object(cur), Object(next));
    FilterCommutesWithPatching(cur, Diff(Object(cur), Object(next)), k.topics);
  }

  lemma LeaveKeepsClient(k: Client, cur: Obj, rev: nat, pending: Option<Obj>)
    requires ClientOk(k, cur, rev, pending) && k.stage.Serving?
    ensures ClientOk(k.(stage := Left), cur, rev, pending)
  {
  }

  lemma ResubscribeKeepsClient(k: Client, cur: Obj, rev: nat, pending: Option<Obj>, topics: set<string>)
    requires ClientOk(k, cur, rev, pending) && k.stage.Left?
    ensures ClientOk(Resubscribe(k, topics), cur, rev, pending)
  {
  }

  lemma SurfaceKeepsClient(k: Client, cur: Obj, rev: nat, pending: Option<Obj>, lane: seq<Frame>)
    requires ClientOk(k, cur, rev, pending) && Joined(k)
    ensures ClientOk(k.(surface := lane), cur, rev, pending)
  {
  }

  lemma CloseKeepsClient(k: Client, cur: Obj, rev: nat, pending: Option<Obj>)
    requires ClientOk(k, cur, rev, pending)
    ensures ClientOk(k.(closing := true), cur, rev, pending)
  {
  }

  lemma NewClientOk(cur: Obj, rev: nat, pending: Option<Obj>)
    ensures ClientOk(NewClient, cur, rev, pending)
  {
  }

  lemma ActKeepsClient(s: System, k: Client, a: Action, pending: Option<Obj>)
    requires IsClientStep(a) && LocksAllow(s, a) && ClientAllows(k, a) && StoreInv(s)
    requires ClientOk(k, s.cur, s.rev, pending)
    requires a.SendDelta? ==> pending == Some(s.writer.patch)
    ensures ClientOk(Act(s, k, a), s.cur, s.rev, if a.SendDelta? || a.JoinHub? || a.GetState? then None else pending)
  {
    match a
    case SendDelta(_) => DeltaKeepsClient(k, s.cur, s.rev, s.writer.patch);
    case Greet(_) => GreetKeepsClient(k, s.cur, s.rev, pending);
    case JoinHub(_) => SnapshotKeepsClient(s, k, pending);
    case GetState(_) => SnapshotKeepsClient(s, k, pending);
    case ReplyTo(_, text) => ReplyKeepsClient(k, s.cur, s.rev, pending, text);
    case PopFrom(_) => PopKeepsClient(k, s.cur, s.rev, pending);
    case LeaveHub(_) => LeaveKeepsClient(k, s.cur, s.rev, pending);
    case SetTopics(_, add, topics) =>
      ResubscribeKeepsClient(k, s.cur, s.rev, pending, if add then k.topics + topics else k.topics - topics);
    case SurfaceTo(_, f) => SurfaceKeepsClient(k, s.cur, s.rev, pending, Push(k.surface, f));
    case RequestClose(_) => CloseKeepsClient(k, s.cur, s.rev, pending);
  }

  // ---------------------------------------------------------------- every step

  /** The client a per-client step leaves behind is sound for what is then pending for it. */
  lemma ActorKeepsInv(s: System, a: Action)
    requires Inv(s) && Enabled(s, a) && IsClientStep(a)
    ensures ClientInv(Do(s, a), a.client)
  {
    assert ClientInv(s, a.client);
    ClientStepChanges(s, a);
    ActKeepsClient(s, s.clients[a.client], a, Pending(s, a.client));
  }

  lemma ClientStepChanges(s: System, a: Action)
    requires Enabled(s, a) && IsClientStep(a)
    ensures var s' := Do(s, a);
            && s'.cur == s.cur && s'.rev == s.rev
            && a.client in s'.clients && s'.clients[a.client] == Act(s, s.clients[a.client], a)
            && Pending(s', a.client) ==
               if a.SendDelta? || a.JoinHub? || a.GetState? then None else Pending(s, a.client)
  {
  }

  /** A step about one client leaves the others as they were. */
  lemma OthersKeepInv(s: System, s': System, c: nat)
    requires Inv(s)
    requires s'.cur == s.cur && s'.rev == s.rev
    requires s'.writer == s.writer
             || (s.writer.Broadcasting? && s'.writer == Broadcasting(s.writer.patch, s.writer.done + {c}))
    requires c in s'.clients && ClientInv(s', c)
    requires forall d :: d in s'.clients && d != c ==> d in s.clients && s'.clients[d] == s.clients[d]
    ensures Inv(s')
  {
    forall d | d in s'.clients ensures ClientInv(s', d) {
      if d != c {
        assert ClientInv(s, d);
        assert Pending(s', d) == Pending(s, d);
      }
    }
  }

  lemma StoreStepKeepsInv(s: System, a: Action)
    requires Inv(s) && Enabled(s, a) && (a.Update? || a.LockHub? || a.UnlockHub?)
    ensures Inv(Do(s, a))
  {
    var s' := Do(s, a);
    forall c | c in s'.clients && s' != s ensures ClientInv(s', c) {
      assert ClientInv(s, c);
      if a.Update? {
        StoredChangeReachesLater(s.clients[c], s.cur, s.rev, a.next);
      } else if s.clients[c].stage.Serving? {
        assert InHub(s, c);
        assert Pending(s', c) == Pending(s, c);
      }
    }
  }

  lemma InvKept(s: System, a: Action)
    requires Inv(s) && Enabled(s, a)
    ensures Inv(Do(s, a))
  {
    if a.Update? || a.LockHub? || a.UnlockHub? {
      StoreStepKeepsInv(s, a);
    } else {
      if a.Accept? {
        NewClientOk(s.cur, s.rev, Pending(s, a.client));
      } else {
        ActorKeepsInv(s, a);
      }
      OthersKeepInv(s, Do(s, a), a.client);
    }
  }

  // ---------------------------------------------------------------- over whole runs

  lemma {:induction false} RunKeepsInv(run: seq<Action>)
    requires After(run).Some?
    ensures Inv(After(run).value)
  {
    if run != [] {
      RunKeepsInv(run[..|run| - 1]);
      InvKept(After(run[..|run| - 1]).value, run[|run| - 1]);
    }
  }

  /** State replica. In every run, between updates, a client in the hub with no close requested
      holds, once its queue is folded onto what it received, exactly the store's state limited to
      its topics. */
  lemma ReplicaAgreement(run: seq<Action>, c: nat)
    requires After(run).Some? && After(run).value.writer.NoUpdate?
    requires InHub(After(run).value, c) && !After(run).value.clients[c].closing
    ensures var s := After(run).value;
            var k := s.clients[c];
            Replica(StateLane(k.popped) + k.queue) == FilterTopics(s.cur, k.topics)
  {
    RunKeepsInv(run);
    assert ClientInv(After(run).value, c);
  }

  /** Overflow truncates and never tears: in every run what a client was sent is a prefix of
      what was produced for it, and until a close is requested the rest is still queued. */
  lemma {:induction false} DeliveredIsPrefix(run: seq<Action>, c: nat)
    requires After(run).Some? && c in After(run).value.clients
    ensures var k := After(run).value.clients[c];
            && StateLane(k.popped) <= k.produced && |k.queue| <= SEND_BUFFER
            && (!k.closing ==> StateLane(k.popped) + k.queue == k.produced)
  {
    RunKeepsInv(run);
    assert ClientInv(After(run).value, c);
  }

  /** No gap for a full subscription. In every run a delta produced while its client is
      subscribed to every topic, however it came to be, carries the next revision after the
      snapshot or delta before it; and so it does among the frames delivered. */
  lemma {:induction false} FullSubscriptionSeesNoGap(run: seq<Action>, c: nat, i: nat)
    requires After(run).Some? && c in After(run).value.clients
    requires var k := After(run).value.clients[c];
             i < |k.scopes| && k.scopes[i] == TOPICS
    ensures var k := After(run).value.clients[c];
            && |k.scopes| == |k.produced|
            && !Gap(k.produced, i)
            && (i < |StateLane(k.popped)| ==> !Gap(StateLane(k.popped), i))
  {
    RunKeepsInv(run);
    assert ClientInv(After(run).value, c);
    SameGaps(After(run).value.clients[c], i);
  }

  /** A delivered frame leaves a gap exactly when it was produced with one. */
  lemma SameGaps(k: Client, i: nat)
    requires DeliveryInv(k) && i < |k.produced|
    ensures i < |StateLane(k.popped)| ==> (Gap(StateLane(k.popped), i) <==> Gap(k.produced, i))
  {
    if i < |StateLane(k.popped)| {
      assert StateLane(k.popped)[..i] == k.produced[..i];
    }
  }

  /** Any other client sees a gap exactly as wide as the updates that fell outside its topics:
      the next delta produced for it is one past the last frame and those updates together. So
      a gap is no sign of a lost frame; RevisionGaps says which clients can see one. */
  lemma GapsCountSkippedUpdates(run: seq<Action>, c: nat)
    requires After(run + [SendDelta(c)]).Some? && After(run).Some?
    requires FilterTopics(After(run).value.writer.patch, After(run).value.clients[c].topics) != map[]
    ensures var k, k' := After(run).value.clients[c], After(run + [SendDelta(c)]).value.clients[c];
            && LastRev(k.produced).Some? && |k'.produced| == |k.produced| + 1
            && k'.produced[|k.produced|].Delta?
            && k'.produced[|k.produced|].rev == LastRev(k.produced).value + 1 + k.skipped
  {
    assert (run + [SendDelta(c)])[..|run|] == run;
    RunKeepsInv(run);
    assert ClientInv(After(run).value, c);
  }

  /** In every run the first two frames a client is sent are the greeting and a snapshot,
      whatever else was queued by then. */
  lemma HelloThenSnapshot(run: seq<Action>, c: nat)
    requires After(run).Some? && c in After(run).value.clients
    ensures var popped := After(run).value.clients[c].popped;
            && (|popped| >= 1 ==> popped[0] == OtherPacket(Hello))
            && (|popped| >= 2 ==> popped[1].OtherPacket? && popped[1].frame.State?)
  {
    RunKeepsInv(run);
    assert ClientInv(After(run).value, c);
  }

  // ---------------------------------------------------------------- subscriptions and closes

  /** The last that client `c` asked for topic `t`: to add it or to drop it. */
  function LastAsked(run: seq<Action>, c: nat, t: string): Option<bool> {
    if run == [] then None
    else
      var a := run[|run| - 1];
      if a.SetTopics? && a.client == c && t in a.topics then Some(a.add) else LastAsked(run[..|run| - 1], c, t)
  }

  /** A client is subscribed to a topic exactly when the last it asked for that topic was to add
      it, or when it never asked for it. */
  lemma {:induction false} TopicsAreThoseAsked(run: seq<Action>, c: nat, t: string)
    requires After(run).Some? && c in After(run).value.clients
    ensures t in After(run).value.clients[c].topics <==>
            if LastAsked(run, c, t).Some? then LastAsked(run, c, t).value
            else t in {"audio", "camera", "obs", "slides", "stream"}
  {
    var init, a := run[..|run| - 1], run[|run| - 1];
    if a == Accept(c) {
      NeverAsked(init, c, t);
    } else {
      TopicsAreThoseAsked(init, c, t);
    }
  }

  lemma {:induction false} NeverAsked(run: seq<Action>, c: nat, t: string)
    requires After(run).Some? && c !in After(run).value.clients
    ensures LastAsked(run, c, t).None?
  {
    if run != [] {
      NeverAsked(run[..|run| - 1], c, t);
    }
  }

  /** Something called for the client to be closed: a request, or a frame produced while 64 were
      queued already. */
  function CalledFor(run: seq<Action>, c: nat): bool
    requires After(run).Some?
  {
    if run == [] then false
    else
      var init, a := run[..|run| - 1], run[|run| - 1];
      var before, now := After(init).value.clients, After(run).value.clients;
      || CalledFor(init, c)
      || a == RequestClose(c)
      || (c in before && c in now && |before[c].queue| == 64 && now[c].produced != before[c].produced)
  }

  /** A client is being closed exactly when something called for it. */
  lemma {:induction false} ClosedExactlyWhenCalledFor(run: seq<Action>, c: nat)
    requires After(run).Some?
    ensures if c in After(run).value.clients then After(run).value.clients[c].closing <==> CalledFor(run, c)
            else !CalledFor(run, c)
  {
    if run != [] {
      var init, a := run[..|run| - 1], run[|run| - 1];
      ClosedExactlyWhenCalledFor(init, c);
      RunKeepsInv(init);
      if c in After(init).value.clients {
        assert ClientInv(After(init).value, c);
        StepCloses(After(init).value, a, c);
      }
    }
  }

  /** One step closes a client exactly when it calls for it. */
  lemma StepCloses(s: System, a: Action, c: nat)
    requires Enabled(s, a) && c in s.clients && |s.clients[c].queue| <= 64
    ensures c in Do(s, a).clients
    ensures var k, k' := s.clients[c], Do(s, a).clients[c];
            k'.closing <==> k.closing || a == RequestClose(c) || (|k.queue| == 64 && k'.produced != k.produced)
  {
    if IsClientStep(a) && a.client == c {
      ClosingStep(s, s.clients[c], a);
    }
  }

  lemma ClosingStep(s: System, k: Client, a: Action)
    requires IsClientStep(a) && LocksAllow(s, a) && ClientAllows(k, a) && |k.queue| <= 64
    ensures Act(s, k, a).closing <==>
            k.closing || a.RequestClose? || (|k.queue| == 64 && Act(s, k, a).produced != k.produced)
  {
  }

  /** A re-sync, and a change of subscription once it is over, answer with the state as it is: one
      frame, at the store's revision, with the topics the client has and no others. */
  lemma SnapshotsAreCurrent(run: seq<Action>, a: Action)
    requires a.GetState? || a.JoinHub?
    requires After(run).Some? && Enabled(After(run).value, a)
    ensures var s, k := After(run).value, After(run).value.clients[a.client];
            var k' := Do(s, a).clients[a.client];
            && InHub(Do(s, a), a.client) && |k'.produced| == |k.produced| + 1
            && var m := k'.produced[|k.produced|];
               && m.State? && m.rev == s.rev
               && forall t :: Lookup(m.data, t) == if t in k.topics then Lookup(s.cur, t) else None
    ensures var s, k := After(run).value, After(run).value.clients[a.client];
            var k' := Do(s, a).clients[a.client];
            |k.queue| < 64 ==> k'.queue == k.queue + [k'.produced[|k.produced|]] && k'.closing == k.closing
  {
  }
}
