/** Surface presses as a transition system: any number of clients press and release keys, lose
    presses and releases on the way to Companion, and go away, while the grid may change between
    any two steps.

    A press checks the grid, records the hold, checks the grid again on its way out, and only then
    reaches Companion. A client that goes away releases what it still holds, one key at a time. */
module SurfacePress {
  import opened Wrappers

  /** Where a client's read loop is: between frames, inside a press (checked against the grid, the
      hold recorded, on its way out, or returned without an error), or gone, with the releases
      it has left to attempt, the one being attempted, and those that failed. */
  datatype Phase =
    | Ready
    | Admitted(key: int, pressed: bool)
    | Calling(key: int, pressed: bool)
    | Delivering(key: int, pressed: bool)
    | Settled(key: int, pressed: bool)
    | Gone(todo: set<int>, sending: Option<int>, failed: set<int>)

  datatype Holder = Holder(held: set<int>, phase: Phase)

  /** `down` gives, for each key Companion was handed down and not since up, the client it was
      handed down for. `low` and `cap` are history: the sizes of the smallest and the largest
      grid so far. */
  datatype Surface = Surface(size: int, down: map<int, nat>, clients: map<nat, Holder>, low: int, cap: int)

  datatype Action =
    | LayoutArrives(size: int)
    | Connect(client: nat)
    | Press(client: nat, key: int, pressed: bool)
    | Track(client: nat)
    | Check(client: nat)
    | Hand(client: nat, reached: bool, ok: bool)
    | Settle(client: nat)
    | Disconnect(client: nat)
    | CheckRelease(client: nat, key: int)
    | HandRelease(client: nat, reached: bool)

  function Start(size: int): Surface { Surface(size, map[], map[], size, Max(0, size)) }

  predicate OnGrid(s: Surface, key: int) { 0 <= key < s.size }

  /** A failed press may have reached Companion all the same; a release that reports no error
      has. */
  predicate Allows(k: Holder, a: Action) {
    match a
    case Press(_, _, _) => k.phase.Ready?
    case Track(_) => k.phase.Admitted?
    case Check(_) => k.phase.Calling?
    case Hand(_, reached, ok) => k.phase.Delivering? && (!k.phase.pressed && ok ==> reached)
    case Settle(_) => k.phase.Settled?
    case Disconnect(_) => k.phase.Ready?
    case CheckRelease(_, key) => k.phase.Gone? && k.phase.sending.None? && key in k.phase.todo
    case HandRelease(_, _) => k.phase.Gone? && k.phase.sending.Some?
    case _ => false
  }

  predicate Enabled(s: Surface, a: Action) {
    match a
    case LayoutArrives(_) => true
    case Connect(c) => c !in s.clients
    case _ => a.client in s.clients && Allows(s.clients[a.client], a)
  }

  /** The client after a step of its own. */
  function Act(s: Surface, k: Holder, a: Action): Holder
    requires Allows(k, a)
  {
    match a
    case Press(_, key, pressed) => if OnGrid(s, key) then k.(phase := Admitted(key, pressed)) else k
    case Track(_) =>
      Holder(if k.phase.pressed then k.held + {k.phase.key} else k.held, Calling(k.phase.key, k.phase.pressed))
    case Check(_) =>
      k.(phase := if OnGrid(s, k.phase.key) then Delivering(k.phase.key, k.phase.pressed)
                  else Settled(k.phase.key, k.phase.pressed))
    case Hand(_, _, ok) => k.(phase := if ok then Settled(k.phase.key, k.phase.pressed) else Ready)
    case Settle(_) => Holder(if k.phase.pressed then k.held else k.held - {k.phase.key}, Ready)
    case Disconnect(_) => Holder({}, Gone(k.held, None, {}))
    case CheckRelease(_, key) =>
      k.(phase := Gone(k.phase.todo - {key}, if OnGrid(s, key) then Some(key) else None, k.phase.failed))
    case HandRelease(_, reached) =>
      var failed := if reached then k.phase.failed else k.phase.failed + {k.phase.sending.value};
      k.(phase := Gone(k.phase.todo, None, failed))
  }

  /** What Companion was handed, after a step of the client. */
  function DownAfter(s: Surface, k: Holder, a: Action): map<int, nat>
    requires Allows(k, a)
  {
    match a
    case Hand(c, reached, _) =>
      if !reached then s.down else if k.phase.pressed then s.down[k.phase.key := c] else s.down - {k.phase.key}
    case HandRelease(_, reached) => if reached then s.down - {k.phase.sending.value} else s.down
    case _ => s.down
  }

  function Do(s: Surface, a: Action): Surface
    requires Enabled(s, a)
  {
    match a
    case LayoutArrives(size) => s.(size := size, low := Min(s.low, size), cap := Max(s.cap, size))
    case Connect(c) => s.(clients := s.clients[c := Holder({}, Ready)])
    case _ =>
      var k := s.clients[a.client];
      s.(clients := s.clients[a.client := Act(s, k, a)], down := DownAfter(s, k, a))
  }

  /** The state after a run of actions, or None when one of them was not enabled. */
  function After(size: int, run: seq<Action>): Option<Surface> {
    if run == [] then Some(Start(size))
    else
      match After(size, run[..|run| - 1])
      case None => None
      case Some(s) => if Enabled(s, run[|run| - 1]) then Some(Do(s, run[|run| - 1])) else None
  }

  // ---------------------------------------------------------------- the invariant

  /** The client answers for the key: it holds it, or it is gone and the release is yet to be
      attempted, being attempted, or failed. */
  predicate AnswersFor(k: Holder, key: int) {
    if k.phase.Gone? then key in k.phase.todo || k.phase.sending == Some(key) || key in k.phase.failed
    else key in k.held && k.phase != Settled(key, false)
  }

  predicate InPress(p: Phase) { p.Admitted? || p.Calling? || p.Delivering? || p.Settled? }

  ghost predicate HolderInv(k: Holder, cap: int) {
    && (forall key :: key in k.held ==> 0 <= key < cap)
    && (InPress(k.phase) ==> 0 <= k.phase.key < cap)
    && ((k.phase.Calling? || k.phase.Delivering?) && k.phase.pressed ==> k.phase.key in k.held)
  }

  ghost predicate DownInv(s: Surface) {
    forall key :: key in s.down ==>
                    0 <= key < s.cap && (key < s.low ==> IsAnsweredFor(s, key))
  }

  predicate IsAnsweredFor(s: Surface, key: int)
    requires key in s.down
  {
    s.down[key] in s.clients && AnswersFor(s.clients[s.down[key]], key)
  }

  ghost predicate Inv(s: Surface) {
    && s.low <= s.size <= s.cap
    && DownInv(s)
    && forall c :: c in s.clients ==> HolderInv(s.clients[c], s.cap)
  }

  lemma ActKeepsHolder(s: Surface, k: Holder, a: Action)
    requires Allows(k, a) && HolderInv(k, s.cap) && s.size <= s.cap
    ensures HolderInv(Act(s, k, a), s.cap)
  {
  }

  /** A client stops answering for a key on every grid only when Companion has it up. */
  lemma ActKeepsAnswer(s: Surface, k: Holder, a: Action, c: nat, key: int)
    requires Allows(k, a) && HolderInv(k, s.cap) && a.client == c
    requires key < s.low <= s.size
    requires key in s.down && s.down[key] == c ==> AnswersFor(k, key)
    requires key in DownAfter(s, k, a) && DownAfter(s, k, a)[key] == c && 0 <= key
    ensures AnswersFor(Act(s, k, a), key)
  {
  }

  lemma InvKept(s: Surface, a: Action)
    requires Inv(s) && Enabled(s, a)
    ensures Inv(Do(s, a))
  {
    var s' := Do(s, a);
    if !a.LayoutArrives? && !a.Connect? {
      var c, k := a.client, s.clients[a.client];
      ActKeepsHolder(s, k, a);
      forall key | key in s'.down
        ensures 0 <= key < s'.cap && (key < s'.low ==> IsAnsweredFor(s', key))
      {
        if s'.down[key] == c && key < s'.low {
          ActKeepsAnswer(s, k, a, c, key);
        }
      }
    }
  }

  // ---------------------------------------------------------------- over whole runs

  lemma {:induction false} RunKeepsInv(size: int, run: seq<Action>)
    requires After(size, run).Some?
    ensures Inv(After(size, run).value)
  {
    if run != [] {
      RunKeepsInv(size, run[..|run| - 1]);
      InvKept(After(size, run[..|run| - 1]).value, run[|run| - 1]);
    }
  }

  /** Every grid of the run, the first one included, is one of `sizes`. */
  predicate GridsAmong(size: int, run: seq<Action>, sizes: set<int>) {
    size in sizes && forall i :: 0 <= i < |run| && run[i].LayoutArrives? ==> run[i].size in sizes
  }

  lemma {:induction false} GridExtremes(size: int, run: seq<Action>, sizes: set<int>)
    requires After(size, run).Some? && GridsAmong(size, run, sizes)
    ensures var s := After(size, run).value;
            s.low in sizes && (s.cap == 0 || s.cap in sizes)
  {
    if run != [] {
      GridExtremes(size, run[..|run| - 1], sizes);
    }
  }

  /** The held set never leaves the grid: in every run on grids of at most n keys, every key a
      client holds is one of the n. */
  lemma HeldStaysOnGrid(size: int, run: seq<Action>, n: nat, sizes: set<int>, c: nat, key: int)
    requires After(size, run).Some? && GridsAmong(size, run, sizes) && forall m :: m in sizes ==> m <= n
    requires c in After(size, run).value.clients && key in After(size, run).value.clients[c].held
    ensures 0 <= key < n
  {
    RunKeepsInv(size, run);
    GridExtremes(size, run, sizes);
  }

  /** Whether client `c` last recorded a hold of the key, rather than a release that was delivered or
      the end of the connection. */
  function HoldsKey(size: int, run: seq<Action>, c: nat, key: int): bool
    requires After(size, run).Some?
  {
    if run == [] then false
    else
      var init, a := run[..|run| - 1], run[|run| - 1];
      var before := After(size, init).value.clients;
      if c in before && a == Track(c) && before[c].phase == Admitted(key, true) then true
      else if c in before && a == Settle(c) && before[c].phase == Settled(key, false) then false
      else if a == Disconnect(c) then false
      else HoldsKey(size, init, c, key)
  }

  lemma HoldStep(s: Surface, a: Action, c: nat, key: int)
    requires Enabled(s, a) && c in s.clients
    ensures c in Do(s, a).clients
    ensures key in Do(s, a).clients[c].held <==>
            || (a == Track(c) && s.clients[c].phase == Admitted(key, true))
            || (key in s.clients[c].held && a != Disconnect(c)
                && !(a == Settle(c) && s.clients[c].phase == Settled(key, false)))
  {
  }

  /** The held set is exactly the keys whose hold was recorded and whose release has not been
      delivered since. */
  lemma {:induction false} HeldExactly(size: int, run: seq<Action>, c: nat, key: int)
    requires After(size, run).Some?
    ensures var s := After(size, run).value;
            HoldsKey(size, run, c, key) <==> c in s.clients && key in s.clients[c].held
  {
    if run != [] {
      var init, a := run[..|run| - 1], run[|run| - 1];
      HeldExactly(size, init, c, key);
      if c in After(size, init).value.clients {
        HoldStep(After(size, init).value, a, c, key);
      }
    }
  }

  /** A release counts as failed only when its delivery failed. */
  lemma {:induction false} FailuresAreReal(size: int, run: seq<Action>, c: nat, key: int)
    requires After(size, run).Some? && c in After(size, run).value.clients
    requires var p := After(size, run).value.clients[c].phase; p.Gone? && key in p.failed
    ensures exists i :: 0 <= i < |run| && run[i] == HandRelease(c, false) && After(size, run[..i]).Some?
                        && c in After(size, run[..i]).value.clients
                        && var p := After(size, run[..i]).value.clients[c].phase; p.Gone? && p.sending == Some(key)
  {
    var init, a := run[..|run| - 1], run[|run| - 1];
    var s := After(size, init).value;
    if c in s.clients && s.clients[c].phase.Gone? && key in s.clients[c].phase.failed {
      FailuresAreReal(size, init, c, key);
      var i :| 0 <= i < |init| && init[i] == HandRelease(c, false) && After(size, init[..i]).Some?
               && c in After(size, init[..i]).value.clients
               && var p := After(size, init[..i]).value.clients[c].phase; p.Gone? && p.sending == Some(key);
      assert run[..i] == init[..i] && run[i] == init[i];
    } else {
      assert run[..|init|] == init;
    }
  }

  /** No latched button. In every run, a key on every grid so far that Companion was handed down
      without a release since is one its client holds, or, once the client is gone, one whose
      release is still to come or was attempted and failed. */
  lemma NoLatchedButton(size: int, run: seq<Action>, sizes: set<int>, key: int)
    requires After(size, run).Some? && GridsAmong(size, run, sizes) && forall m :: m in sizes ==> key < m
    requires key in After(size, run).value.down
    ensures var s := After(size, run).value;
            && s.down[key] in s.clients
            && var k := s.clients[s.down[key]];
               if k.phase.Gone? then key in k.phase.todo || k.phase.sending == Some(key) || key in k.phase.failed
               else key in k.held
  {
    RunKeepsInv(size, run);
    GridExtremes(size, run, sizes);
  }

  /** Companion has the key down on account of a client that is gone, has nothing left to
      release, and had no release fail. */
  predicate Latched(s: Surface, key: int) {
    && key in s.down && s.down[key] in s.clients
    && s.clients[s.down[key]].phase.Gone?
    && var p := s.clients[s.down[key]].phase;
       (forall k :: k !in p.todo) && p.sending.None? && (forall k :: k !in p.failed)
  }

  lemma OneStepMore(size: int, run: seq<Action>, a: Action)
    requires After(size, run).Some? && Enabled(After(size, run).value, a)
    ensures After(size, run + [a]) == Some(Do(After(size, run).value, a))
  {
    assert (run + [a])[..|run|] == run;
  }

  /** Pressed on a grid of n keys, and released, by going away, on one of m. */
  lemma LatchingPress(size: int, n: int, key: int) returns (run: seq<Action>)
    requires 0 <= key < n
    ensures run == [LayoutArrives(n), Connect(0), Press(0, key, true), Track(0), Check(0),
                    Hand(0, true, true), Settle(0)]
    ensures After(size, run).Some?
    ensures var s := After(size, run).value;
            key in s.down && s.down[key] == 0 && 0 in s.clients && s.clients[0] == Holder({} + {key}, Ready)
  {
    OneStepMore(size, [], LayoutArrives(n));
    run := [LayoutArrives(n)];
    OneStepMore(size, run, Connect(0));
    run := run + [Connect(0)];
    OneStepMore(size, run, Press(0, key, true));
    run := run + [Press(0, key, true)];
    OneStepMore(size, run, Track(0));
    run := run + [Track(0)];
    OneStepMore(size, run, Check(0));
    run := run + [Check(0)];
    OneStepMore(size, run, Hand(0, true, true));
    run := run + [Hand(0, true, true)];
    OneStepMore(size, run, Settle(0));
    run := run + [Settle(0)];
  }

  lemma LatchingRun(size: int, n: int, m: int, key: int) returns (run: seq<Action>)
    requires 0 <= key < n && m <= key
    ensures After(size, run).Some? && Latched(After(size, run).value, key)
    ensures forall i :: 0 <= i < |run| && run[i].LayoutArrives? ==> run[i].size == m || run[i].size == n
  {
    run := LatchingPress(size, n, key);
    OneStepMore(size, run, LayoutArrives(m));
    run := run + [LayoutArrives(m)];
    OneStepMore(size, run, Disconnect(0));
    run := run + [Disconnect(0)];
    OneStepMore(size, run, CheckRelease(0, key));
    run := run + [CheckRelease(0, key)];
  }

  /** A key can be left latched exactly when it is on one of the grids and off another. */
  lemma LatchableExactly(size: int, sizes: set<int>, key: int)
    requires size in sizes
    ensures (exists run: seq<Action> :: GridsAmong(size, run, sizes) && After(size, run).Some?
                                        && Latched(After(size, run).value, key))
            <==> 0 <= key && exists m, n :: m in sizes && n in sizes && m <= key < n
  {
    forall run: seq<Action> | GridsAmong(size, run, sizes) && After(size, run).Some?
                              && Latched(After(size, run).value, key)
      ensures 0 <= key && exists m, n :: m in sizes && n in sizes && m <= key < n
    {
      RunKeepsInv(size, run);
      GridExtremes(size, run, sizes);
      var s := After(size, run).value;
      assert s.low <= key < s.cap;
    }
    if m, n :| 0 <= key && m in sizes && n in sizes && m <= key < n {
      var run := LatchingRun(size, n, m, key);
      assert GridsAmong(size, run, sizes);
    }
  }

  /** On one grid that never changes no key is ever latched: whatever is lost on the way, every
      key that Companion has down has a client that holds it or a release that is pending or
      failed. */
  lemma OneGridNeverLatches(size: int, run: seq<Action>, key: int)
    requires After(size, run).Some?
    requires forall i :: 0 <= i < |run| && run[i].LayoutArrives? ==> run[i].size == size
    ensures !Latched(After(size, run).value, key)
  {
    LatchableExactly(size, {size}, key);
    assert GridsAmong(size, run, {size});
  }
}
