/** A connection's write loop and the producers that wake it, as a transition system. A producer
    queues a frame and only afterwards, its lock released, sets the wake signal; the writer looks
    for a frame and only afterwards waits for that signal. */
module WriteLoop {
  import opened Wrappers
  import opened SurfaceLane
  import opened SendQueues

  /** `poking` is the number of producers that have queued a frame and not yet set the signal. */
  datatype Loop<T> = Loop(other: seq<T>, surface: seq<Frame>, wake: bool, poking: nat,
                          waiting: bool, written: seq<Packet<T>>)

  datatype Action<T> =
    | QueueOther(frame: T)
    | QueueSurface(surface: Frame)
    | Poke
    | Write
    | FindNothing
    | Wake

  function Start<T>(): Loop<T> { Loop([], [], false, 0, false, []) }

  predicate IsEmpty<T>(l: Loop<T>) { l.other == [] && l.surface == [] }

  predicate Enabled<T>(l: Loop<T>, a: Action<T>) {
    match a
    case QueueOther(_) => true
    case QueueSurface(_) => true
    case Poke => l.poking > 0
    case Write => !l.waiting && !IsEmpty(l)
    case FindNothing => !l.waiting && IsEmpty(l)
    case Wake => l.waiting && l.wake
  }

  function Do<T>(l: Loop<T>, a: Action<T>): Loop<T>
    requires Enabled(l, a)
  {
    match a
    case QueueOther(f) =>
      if |l.other| >= SEND_BUFFER then l else l.(other := l.other + [f], poking := l.poking + 1)
    case QueueSurface(f) =>
      l.(surface := Push(l.surface, f), poking := if Refused(l.surface, f) then l.poking else l.poking + 1)
    case Poke => l.(wake := true, poking := l.poking - 1)
    case Write =>
      if l.other != [] then l.(other := l.other[1..], written := l.written + [OtherPacket(l.other[0])])
      else l.(surface := l.surface[1..], written := l.written + [SurfacePacket(l.surface[0])])
    case FindNothing => l.(waiting := true)
    case Wake => l.(wake := false, waiting := false)
  }

  /** The state after a run of actions, or None when one of them was not enabled. */
  function After<T>(run: seq<Action<T>>): Option<Loop<T>> {
    if run == [] then Some(Start())
    else
      match After(run[..|run| - 1])
      case None => None
      case Some(l) => if Enabled(l, run[|run| - 1]) then Some(Do(l, run[|run| - 1])) else None
  }

  /** A writer that waits while frames are queued has a signal coming. */
  predicate SignalComing<T>(l: Loop<T>) { l.waiting && !IsEmpty(l) ==> l.wake || l.poking > 0 }

  /** No signal is lost: in every run, a writer that waits while frames are queued can be woken,
      at once or as soon as a producer that queued one sets the signal. */
  lemma {:induction false} NoLostWakeUp<T>(run: seq<Action<T>>)
    requires After(run).Some?
    ensures SignalComing(After(run).value)
  {
    if run != [] {
      NoLostWakeUp(run[..|run| - 1]);
      var l, a := After(run[..|run| - 1]).value, run[|run| - 1];
      if a.QueueSurface? {
        RefusedExactly(l.surface, a.surface);
      }
    }
  }

  predicate Producer<T>(a: Action<T>) { a.QueueOther? || a.QueueSurface? }

  /** Two lanes in the order they are written. */
  function Packets<T>(other: seq<T>, surface: seq<Frame>): seq<Packet<T>> {
    seq(|other|, i requires 0 <= i < |other| => OtherPacket(other[i])) +
    seq(|surface|, i requires 0 <= i < |surface| => SurfacePacket(surface[i]))
  }

  /** A bound on the steps left to the writer and to the producers that have queued already. */
  function StepsLeft<T>(l: Loop<T>): nat {
    |l.other| + |l.surface| + 3 * l.poking + (if l.wake then 2 else 0) + if l.waiting then 0 else 1
  }

  lemma StepKeepsPackets<T>(l: Loop<T>, a: Action<T>)
    requires Enabled(l, a) && !Producer(a)
    ensures var l' := Do(l, a);
            && l'.written + Packets(l'.other, l'.surface) == l.written + Packets(l.other, l.surface)
            && StepsLeft(l') < StepsLeft(l)
  {
    var l' := Do(l, a);
    if a.Write? {
      var p := if l.other != [] then OtherPacket(l.other[0]) else SurfacePacket(l.surface[0]);
      assert Packets(l.other, l.surface) == [p] + Packets(l'.other, l'.surface);
      assert l'.written == l.written + [p];
    }
  }

  /** Whatever happens while producers are quiet, what is written followed by what is queued
      stays the same, and it does not go on for ever. */
  lemma {:induction false} QuietRunKeepsPackets<T>(run: seq<Action<T>>, more: seq<Action<T>>)
    requires After(run + more).Some? && forall i :: 0 <= i < |more| ==> !Producer(more[i])
    ensures After(run).Some?
    ensures var l, l' := After(run).value, After(run + more).value;
            && l'.written + Packets(l'.other, l'.surface) == l.written + Packets(l.other, l.surface)
            && |more| + StepsLeft(l') <= StepsLeft(l)
  {
    if more == [] {
      assert run + more == run;
    } else {
      var init := more[..|more| - 1];
      assert (run + more)[..|run + more| - 1] == run + init;
      QuietRunKeepsPackets(run, init);
      StepKeepsPackets(After(run + init).value, more[|more| - 1]);
    }
  }

  /** Wherever a run stands, once producers stop, every schedule writes everything queued: it has
      a bounded number of steps, and when none but a producer could take another, what was queued
      has been written, the state lane first, each lane in its order. */
  lemma {:induction false} EveryFrameIsWritten<T>(run: seq<Action<T>>, more: seq<Action<T>>)
    requires After(run + more).Some? && forall i :: 0 <= i < |more| ==> !Producer(more[i])
    ensures After(run).Some? && |more| <= StepsLeft(After(run).value)
    ensures var l, l' := After(run).value, After(run + more).value;
            (forall a :: Enabled(l', a) ==> Producer(a)) ==>
              IsEmpty(l') && l'.written == l.written + Packets(l.other, l.surface)
  {
    QuietRunKeepsPackets(run, more);
    NoLostWakeUp(run + more);
    var l' := After(run + more).value;
    if !IsEmpty(l') {
      var next: Action<T> := if !l'.waiting then Write else if l'.wake then Wake else Poke;
      assert Enabled(l', next) && !Producer(next);
    } else {
      assert l'.written + Packets(l'.other, l'.surface) == l'.written;
    }
  }

  /** The state-lane frames among those written. */
  function Others<T>(written: seq<Packet<T>>): seq<T> {
    if written == [] then []
    else
      var p := written[|written| - 1];
      Others(written[..|written| - 1]) + if p.OtherPacket? then [p.frame] else []
  }

  /** The state-lane frames that found fewer than 64 queued. */
  function Accepted<T>(run: seq<Action<T>>): seq<T>
    requires After(run).Some?
  {
    if run == [] then []
    else
      var init, a := run[..|run| - 1], run[|run| - 1];
      Accepted(init) + if a.QueueOther? && |After(init).value.other| < 64 then [a.frame] else []
  }

  lemma WriteStep<T>(l: Loop<T>)
    requires Enabled(l, Write)
    ensures Others(Do(l, Write).written) + Do(l, Write).other == Others(l.written) + l.other
  {
    var l' := Do(l, Write);
    assert l'.written[..|l.written|] == l.written;
    if l.other != [] {
      assert Others(l.written) + l.other == (Others(l.written) + [l.other[0]]) + l.other[1..];
    }
  }

  lemma LaneStep<T>(l: Loop<T>, a: Action<T>)
    requires Enabled(l, a)
    ensures Others(Do(l, a).written) + Do(l, a).other ==
            Others(l.written) + l.other + if a.QueueOther? && |l.other| < 64 then [a.frame] else []
  {
    if a.Write? {
      WriteStep(l);
    }
  }

  /** Over every run, what the state lane accepted is what was written of it followed by what is
      queued, in that order and without a loss. */
  lemma {:induction false} StateLaneLosesNothing<T>(run: seq<Action<T>>)
    requires After(run).Some?
    ensures Others(After(run).value.written) + After(run).value.other == Accepted(run)
  {
    if run != [] {
      StateLaneLosesNothing(run[..|run| - 1]);
      LaneStep(After(run[..|run| - 1]).value, run[|run| - 1]);
    }
  }
}
