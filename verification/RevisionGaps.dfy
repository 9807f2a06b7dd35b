/** Which clients can see a revision gap although nothing was lost: exactly those subscribed to
    some topics and not to others. */
module RevisionGaps {
  import opened Wrappers
  import opened SendQueues
  import opened MergePatch
  import opened StateReplica

  /** Past the greeting and the first snapshot, the client has been subscribed to `topics` all
      along. */
  predicate FixedOn(k: Client, topics: set<string>) {
    forall i :: 2 <= i < |k.scopes| ==> k.scopes[i] == topics
  }

  predicate SeesGap(k: Client) {
    exists i :: 0 <= i < |StateLane(k.popped)| && Gap(StateLane(k.popped), i)
  }

  predicate GapRun(run: seq<Action>, c: nat, topics: set<string>) {
    && After(run).Some? && c in After(run).value.clients
    && FixedOn(After(run).value.clients[c], topics) && SeesGap(After(run).value.clients[c])
  }

  // ---------------------------------------------------------------- one client alone

  /** The run leaves client 0 as `k`, and no other, with the store idle. */
  ghost predicate Alone(run: seq<Action>, cur: Obj, rev: nat, k: Client) {
    && After(run).Some?
    && var s := After(run).value;
       && s.cur == cur && s.rev == rev && s.writer.NoUpdate?
       && 0 in s.clients && s.clients[0] == k && forall d :: d in s.clients ==> d == 0
  }

  lemma OneStepMore(run: seq<Action>, a: Action)
    requires After(run).Some? && Enabled(After(run).value, a)
    ensures After(run + [a]) == Some(Do(After(run).value, a))
  {
    assert (run + [a])[..|run|] == run;
  }

  lemma ClientStep(run: seq<Action>, cur: Obj, rev: nat, k: Client, a: Action)
    requires Alone(run, cur, rev, k)
    requires IsClientStep(a) && !a.SendDelta? && a.client == 0 && ClientAllows(k, a)
    ensures LocksAllow(After(run).value, a) && Alone(run + [a], cur, rev, Act(After(run).value, k, a))
  {
    OneStepMore(run, a);
  }

  /** One whole update, from the change to the end of its broadcast. */
  lemma WholeUpdate(run: seq<Action>, cur: Obj, rev: nat, k: Client, next: Obj) returns (run': seq<Action>)
    requires Alone(run, cur, rev, k) && k.stage.Serving?
    requires NullFree(Object(next)) && next.Keys <= TOPICS && Diff(Object(cur), Object(next)) != map[]
    ensures Alone(run', next, rev + 1, ScopeDelta(k, rev + 1, Diff(Object(cur), Object(next))))
  {
    NullFreeIsWritable(Object(cur), Object(next));
    OneStepMore(run, Update(next));
    run' := run + [Update(next)];
    OneStepMore(run', LockHub);
    run' := run' + [LockHub];
    OneStepMore(run', SendDelta(0));
    run' := run' + [SendDelta(0)];
    OneStepMore(run', UnlockHub);
    run' := run' + [UnlockHub];
  }

  lemma JoinAlone() returns (run: seq<Action>, k: Client)
    ensures Alone(run, map[], 0, k)
    ensures k.stage.Serving? && k.topics == TOPICS && k.queue == [Hello, State(0, map[])]
    ensures k.popped == [] && !k.closing && k.scopes == [TOPICS, TOPICS]
  {
    OneStepMore([], Accept(0));
    run := [Accept(0)];
    k := NewClient;
    ClientStep(run, map[], 0, k, Greet(0));
    k := Act(After(run).value, k, Greet(0));
    run := run + [Greet(0)];
    ClientStep(run, map[], 0, k, JoinHub(0));
    k := Act(After(run).value, k, JoinHub(0));
    run := run + [JoinHub(0)];
  }

  lemma NarrowAlone(topics: set<string>) returns (run: seq<Action>, k: Client)
    requires topics <= TOPICS
    ensures Alone(run, map[], 0, k)
    ensures k.stage.Serving? && k.topics == topics && k.queue == [Hello, State(0, map[]), State(0, map[])]
    ensures k.popped == [] && !k.closing && k.scopes == [TOPICS, TOPICS, topics]
  {
    run, k := JoinAlone();
    ClientStep(run, map[], 0, k, LeaveHub(0));
    k := Act(After(run).value, k, LeaveHub(0));
    run := run + [LeaveHub(0)];
    var drop := SetTopics(0, false, TOPICS - topics);
    ClientStep(run, map[], 0, k, drop);
    k := Act(After(run).value, k, drop);
    run := run + [drop];
    ClientStep(run, map[], 0, k, JoinHub(0));
    k := Act(After(run).value, k, JoinHub(0));
    run := run + [JoinHub(0)];
  }

  /** The queue written out, frame by frame. */
  lemma {:induction false} WriteOut(run: seq<Action>, cur: Obj, rev: nat, k: Client)
    returns (run': seq<Action>, k': Client)
    requires Alone(run, cur, rev, k) && Joined(k) && !k.closing
    ensures Alone(run', cur, rev, k') && k'.scopes == k.scopes
    ensures StateLane(k'.popped) == StateLane(k.popped) + k.queue
    decreases |k.queue|
  {
    run', k' := run, k;
    if k.queue != [] {
      ClientStep(run, cur, rev, k, PopFrom(0));
      var m := k.queue[0];
      k' := Popped(k);
      assert k'.popped[..|k.popped|] == k.popped;
      run', k' := WriteOut(run + [PopFrom(0)], cur, rev, k');
      assert (StateLane(k.popped) + [m]) + k.queue[1..] == StateLane(k.popped) + k.queue;
    }
  }

  // ---------------------------------------------------------------- the gap

  /** An update outside the client's topics and then one inside them. */
  lemma SkipThenSend(topics: set<string>, x: string, y: string) returns (run: seq<Action>, k: Client)
    requires topics <= TOPICS && x in TOPICS - topics && y in topics
    ensures exists cur :: Alone(run, cur, 2, k)
    ensures k.stage.Serving? && !k.closing && k.popped == [] && k.scopes == [TOPICS, TOPICS, topics, topics]
    ensures |k.queue| == 4 && k.queue[..3] == [Hello, State(0, map[]), State(0, map[])]
    ensures k.queue[3].Delta? && k.queue[3].rev == 2
  {
    run, k := NarrowAlone(topics);
    var one, two := map[x := Scalar("on")], map[x := Scalar("on"), y := Scalar("on")];
    var first, second := Diff(Object(map[]), Object(one)), Diff(Object(one), Object(two));
    FirstOutsideSecondInside(topics, x, y);
    run := WholeUpdate(run, map[], 0, k, one);
    k := ScopeDelta(k, 1, first);
    run := WholeUpdate(run, one, 1, k, two);
    k := ScopeDelta(k, 2, second);
  }

  lemma FirstOutsideSecondInside(topics: set<string>, x: string, y: string)
    requires x !in topics && y in topics
    ensures var first := Diff(Object(map[]), Object(map[x := Scalar("on")]));
            first != map[] && FilterTopics(first, topics) == map[]
    ensures var second := Diff(Object(map[x := Scalar("on")]), Object(map[x := Scalar("on"), y := Scalar("on")]));
            second != map[] && FilterTopics(second, topics) != map[]
  {
    var one, two := map[x := Scalar("on")], map[x := Scalar("on"), y := Scalar("on")];
    ChangedFields(map[], one);
    ChangedFields(one, two);
    assert x in Diff(Object(map[]), Object(one));
    assert y in FilterTopics(Diff(Object(one), Object(two)), topics);
  }

  lemma ChangedFields(old': Obj, new': Obj)
    ensures forall k :: k in Diff(Object(old'), Object(new')) <==> Lookup(old', k) != Lookup(new', k)
  {
    forall k ensures k in Diff(Object(old'), Object(new')) <==> Lookup(old', k) != Lookup(new', k) {
      DiffMarksChangesExactly(Object(old'), Object(new'), k);
    }
  }

  /** The run ends with a delta of revision 2 delivered right after a snapshot of revision 0, to a
      client that lost nothing. */
  lemma GapWitness(topics: set<string>, x: string, y: string) returns (run: seq<Action>)
    requires topics <= TOPICS && x in TOPICS - topics && y in topics
    ensures GapRun(run, 0, topics)
  {
    var k;
    run, k := SkipThenSend(topics, x, y);
    var cur :| Alone(run, cur, 2, k);
    var lane := k.queue;
    run, k := WriteOut(run, cur, 2, k);
    assert StateLane(k.popped) == [] + lane;
    assert [] + lane == lane;
    LateDeltaSeen(run, cur, k, topics);
  }

  lemma LateDeltaSeen(run: seq<Action>, cur: Obj, k: Client, topics: set<string>)
    requires Alone(run, cur, 2, k) && k.scopes == [TOPICS, TOPICS, topics, topics]
    requires var lane := StateLane(k.popped);
             && |lane| == 4 && lane[..3] == [Hello, State(0, map[]), State(0, map[])]
             && lane[3].Delta? && lane[3].rev == 2
    ensures GapRun(run, 0, topics)
  {
    LateDelta(StateLane(k.popped));
  }

  lemma LateDelta(lane: seq<Msg>)
    requires |lane| == 4 && lane[..3] == [Hello, State(0, map[]), State(0, map[])] && lane[3].Delta? && lane[3].rev == 2
    ensures Gap(lane, 3)
  {
    OneMoreFrame([Hello, State(0, map[])], State(0, map[]));
    assert lane[..3] == [Hello, State(0, map[])] + [State(0, map[])];
  }

  /** Some run gives a client fixed on `topics` a gap exactly when `topics` are some of the topics
      but not all. */
  lemma GapsPossibleExactly(topics: set<string>)
    requires topics <= TOPICS
    ensures (exists run, c :: GapRun(run, c, topics)) <==> topics != {} && topics != TOPICS
  {
    forall run, c | GapRun(run, c, topics) ensures topics != {} && topics != TOPICS {
      RunKeepsInv(run);
      assert ClientInv(After(run).value, c);
      var k := After(run).value.clients[c];
      var i :| 0 <= i < |StateLane(k.popped)| && Gap(StateLane(k.popped), i);
      SameGaps(k, i);
      assert i >= 2;
    }
    if topics != {} && topics != TOPICS {
      var x :| x in TOPICS && x !in topics;
      var y :| y in topics;
      var run := GapWitness(topics, x, y);
      assert GapRun(run, 0, topics);
    }
  }
}
