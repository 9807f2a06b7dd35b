/** A connection's outbound queue: a capped first-in first-out lane for state and command
    frames, and the coalescing surface lane.

    The surface lane is kept as the program keeps it: a list of elements, an index from key to
    the element holding that key's render, and a pointer to the queued layout's element. List
    elements are modelled as handles: `order` is the list front to back, and `cells` the value
    each element holds. The proofs tie that structure to the sequence of frames of SurfaceLane. */
module SendQueues {
  import opened Wrappers
  import opened SurfaceLane

  const SEND_BUFFER: nat := 64

  datatype Packet<+T> = OtherPacket(frame: T) | SurfacePacket(surface: Frame)

  // ---------------------------------------------------------------- lists of elements

  predicate Distinct(ids: seq<nat>) {
    forall i, j :: 0 <= i < j < |ids| ==> ids[i] != ids[j]
  }

  /** The list with the elements in `gone` unlinked. */
  function Unlink(ids: seq<nat>, gone: set<nat>): seq<nat> {
    if ids == [] then []
    else
      var rest := Unlink(ids[..|ids| - 1], gone);
      if ids[|ids| - 1] in gone then rest else rest + [ids[|ids| - 1]]
  }

  lemma {:induction false} UnlinkMembers(ids: seq<nat>, gone: set<nat>)
    ensures |Unlink(ids, gone)| <= |ids|
    ensures forall id :: id in Unlink(ids, gone) <==> id in ids && id !in gone
    ensures Distinct(ids) ==> Distinct(Unlink(ids, gone))
  {
    if ids != [] {
      var init := ids[..|ids| - 1];
      UnlinkMembers(init, gone);
      assert ids == init + [ids[|ids| - 1]];
      if Distinct(ids) {
        var u := Unlink(init, gone);
        assert forall i :: 0 <= i < |u| ==> u[i] in u;
        assert forall i :: 0 <= i < |init| ==> init[i] == ids[i];
      }
    }
  }

  lemma {:induction false} UnlinkTwice(ids: seq<nat>, a: set<nat>, b: set<nat>)
    ensures Unlink(Unlink(ids, a), b) == Unlink(ids, a + b)
  {
    if ids != [] {
      var init, id := ids[..|ids| - 1], ids[|ids| - 1];
      UnlinkTwice(init, a, b);
      if id !in a {
        assert (Unlink(init, a) + [id])[..|Unlink(init, a)|] == Unlink(init, a);
      }
    }
  }

  lemma {:induction false} UnlinkNothing(ids: seq<nat>, gone: set<nat>)
    requires forall id :: id in ids ==> id !in gone
    ensures Unlink(ids, gone) == ids
  {
    if ids != [] {
      UnlinkNothing(ids[..|ids| - 1], gone);
      assert ids == ids[..|ids| - 1] + [ids[|ids| - 1]];
    }
  }

  ghost predicate HasCells(ids: seq<nat>, cells: map<nat, Frame>) {
    forall i :: 0 <= i < |ids| ==> ids[i] in cells
  }

  /** The frames of a list of elements, front to back. */
  ghost function Values(ids: seq<nat>, cells: map<nat, Frame>): (q: seq<Frame>)
    requires HasCells(ids, cells)
    ensures |q| == |ids|
    ensures forall i :: 0 <= i < |q| ==> q[i] == cells[ids[i]]
  {
    seq(|ids|, i requires 0 <= i < |ids| => cells[ids[i]])
  }

  /** Unlinking every element that is not a render above `s` leaves the survivors of a layout
      at `s`. */
  lemma {:induction false} UnlinkLeavesSurvivors(ids: seq<nat>, cells: map<nat, Frame>, gone: set<nat>, s: int)
    requires HasCells(ids, cells)
    requires forall id :: id in ids ==> (id in gone <==> !(cells[id].KeyFrame? && cells[id].seqNo > s))
    ensures HasCells(Unlink(ids, gone), cells)
    ensures Values(Unlink(ids, gone), cells) == Survivors(Values(ids, cells), s)
  {
    UnlinkMembers(ids, gone);
    if ids != [] {
      var init := ids[..|ids| - 1];
      UnlinkLeavesSurvivors(init, cells, gone, s);
      UnlinkMembers(init, gone);
      assert Values(ids, cells)[..|ids| - 1] == Values(init, cells);
    }
  }

  ghost predicate ListOk(order: seq<nat>, cells: map<nat, Frame>, next: nat) {
    && Distinct(order)
    && HasCells(order, cells)
    && forall i :: 0 <= i < |order| ==> order[i] < next
  }

  /** `keys` names queued renders only, each under its own key. */
  ghost predicate KeysNameRenders(order: seq<nat>, cells: map<nat, Frame>, keys: map<int, nat>)
    requires HasCells(order, cells)
  {
    forall k :: k in keys ==> keys[k] in order && IsKey(cells[keys[k]], k)
  }

  /** Every queued render is the one `keys` names. */
  ghost predicate RendersAreNamed(order: seq<nat>, cells: map<nat, Frame>, keys: map<int, nat>)
    requires HasCells(order, cells)
  {
    forall i :: 0 <= i < |order| && cells[order[i]].KeyFrame? ==>
                  cells[order[i]].key in keys && keys[cells[order[i]].key] == order[i]
  }

  /** `layout` points at the queued layout, and at nothing when none is queued. */
  ghost predicate LayoutIsNamed(order: seq<nat>, cells: map<nat, Frame>, layout: Option<nat>)
    requires HasCells(order, cells)
  {
    && (layout.Some? ==> layout.value in order && cells[layout.value].LayoutFrame?)
    && (forall i :: 0 <= i < |order| && cells[order[i]].LayoutFrame? ==> layout == Some(order[i]))
  }

  /** The two indexes agree with the list: `keys` names exactly the queued renders and `layout`
      exactly the queued layout. */
  ghost predicate Indexed(order: seq<nat>, cells: map<nat, Frame>, keys: map<int, nat>,
                          layout: Option<nat>, next: nat) {
    && ListOk(order, cells, next)
    && KeysNameRenders(order, cells, keys)
    && RendersAreNamed(order, cells, keys)
    && LayoutIsNamed(order, cells, layout)
    && Structured(Values(order, cells))
  }

  lemma KeyIsIndexed(order: seq<nat>, cells: map<nat, Frame>, keys: map<int, nat>, layout: Option<nat>,
                     next: nat, key: int)
    requires Indexed(order, cells, keys, layout, next)
    ensures var i := KeyIndex(Values(order, cells), key);
            if key in keys then i < |order| && order[i] == keys[key] else i == |order|
  {
    var q := Values(order, cells);
    var i := KeyIndex(q, key);
    if key in keys {
      var at :| 0 <= at < |order| && order[at] == keys[key];
      assert IsKey(q[at], key);
    }
    if i < |order| {
      assert order[i] in order;
    }
  }

  lemma LayoutIsIndexed(order: seq<nat>, cells: map<nat, Frame>, keys: map<int, nat>, layout: Option<nat>,
                        next: nat, s: int)
    requires Indexed(order, cells, keys, layout, next)
    ensures Overtaken(Values(order, cells), s) <==> layout.Some? && cells[layout.value].seqNo > s
  {
    var q := Values(order, cells);
    if layout.Some? && cells[layout.value].seqNo > s {
      var at :| 0 <= at < |order| && order[at] == layout.value;
      assert q[at].LayoutFrame? && q[at].seqNo > s;
    }
    forall i | 0 <= i < |q| && q[i].LayoutFrame? ensures layout == Some(order[i]) {
      assert order[i] in order;
    }
  }

  lemma ReplacedInPlace(order: seq<nat>, cells: map<nat, Frame>, keys: map<int, nat>, layout: Option<nat>,
                        next: nat, f: Frame)
    requires Indexed(order, cells, keys, layout, next)
    requires f.KeyFrame? && f.key in keys && cells[keys[f.key]].seqNo < f.seqNo
    ensures Indexed(order, cells[keys[f.key] := f], keys, layout, next)
    ensures Values(order, cells[keys[f.key] := f]) == Push(Values(order, cells), f)
  {
    KeyIsIndexed(order, cells, keys, layout, next, f.key);
    PushKeepsStructure(Values(order, cells), f);
    var cells' := cells[keys[f.key] := f];
    assert Values(order, cells') == Push(Values(order, cells), f);
    forall k | k in keys ensures IsKey(cells'[keys[k]], k) {
      assert IsKey(cells[keys[k]], k);
    }
    assert IsKey(cells[keys[f.key]], f.key);
  }

  lemma RenderAppended(order: seq<nat>, cells: map<nat, Frame>, keys: map<int, nat>, layout: Option<nat>,
                       next: nat, f: Frame)
    requires Indexed(order, cells, keys, layout, next)
    requires f.KeyFrame? && f.key !in keys
    ensures Indexed(order + [next], cells[next := f], keys[f.key := next], layout, next + 1)
    ensures Values(order + [next], cells[next := f]) == Push(Values(order, cells), f)
  {
    KeyIsIndexed(order, cells, keys, layout, next, f.key);
    PushKeepsStructure(Values(order, cells), f);
    assert Values(order + [next], cells[next := f]) == Push(Values(order, cells), f);
  }

  lemma FrontPopped(order: seq<nat>, cells: map<nat, Frame>, keys: map<int, nat>, layout: Option<nat>, next: nat)
    requires Indexed(order, cells, keys, layout, next) && order != []
    ensures var f := cells[order[0]];
            Indexed(order[1..], cells, if f.KeyFrame? then keys - {f.key} else keys,
                    if f.LayoutFrame? then None else layout, next)
    ensures Values(order[1..], cells) == Values(order, cells)[1..]
    ensures var f := cells[order[0]];
            if f.KeyFrame? then f.key in keys && keys[f.key] == order[0] else layout == Some(order[0])
  {
    PopKeepsStructure(Values(order, cells));
    assert Values(order[1..], cells) == Values(order, cells)[1..];
    FrontKeys(order, cells, keys, next);
    FrontLayout(order, cells, layout, next);
  }

  lemma FrontKeys(order: seq<nat>, cells: map<nat, Frame>, keys: map<int, nat>, next: nat)
    requires ListOk(order, cells, next) && order != []
    requires KeysNameRenders(order, cells, keys) && RendersAreNamed(order, cells, keys)
    ensures ListOk(order[1..], cells, next)
    ensures var f := cells[order[0]];
            var keys' := if f.KeyFrame? then keys - {f.key} else keys;
            KeysNameRenders(order[1..], cells, keys') && RendersAreNamed(order[1..], cells, keys')
  {
    var e := order[0];
    assert order == [e] + order[1..];
    forall k | k in keys ensures keys[k] == e || keys[k] in order[1..] {
    }
  }

  lemma FrontLayout(order: seq<nat>, cells: map<nat, Frame>, layout: Option<nat>, next: nat)
    requires ListOk(order, cells, next) && order != []
    requires LayoutIsNamed(order, cells, layout)
    ensures ListOk(order[1..], cells, next)
    ensures LayoutIsNamed(order[1..], cells, if cells[order[0]].LayoutFrame? then None else layout)
  {
    assert order == [order[0]] + order[1..];
  }

  /** The renders a layout at `s` supersedes, by element. */
  ghost function Superseded(cells: map<nat, Frame>, keys: map<int, nat>, s: int): set<nat>
    requires forall k :: k in keys ==> keys[k] in cells
  {
    set k | k in keys && cells[keys[k]].seqNo <= s :: keys[k]
  }

  function KeysAbove(cells: map<nat, Frame>, keys: map<int, nat>, s: int): map<int, nat>
    requires forall k :: k in keys ==> keys[k] in cells
  {
    map k | k in keys && cells[keys[k]].seqNo > s :: keys[k]
  }

  /** What is unlinked for a layout at `s` is everything but the renders above it. */
  lemma UnlinkedForLayout(order: seq<nat>, cells: map<nat, Frame>, keys: map<int, nat>, layout: Option<nat>,
                          next: nat, s: int, gone: set<nat>)
    requires ListOk(order, cells, next)
    requires KeysNameRenders(order, cells, keys) && RendersAreNamed(order, cells, keys)
    requires LayoutIsNamed(order, cells, layout)
    requires gone == Superseded(cells, keys, s) + if layout.Some? then {layout.value} else {}
    ensures forall id :: id in order ==> (id in gone <==> !(cells[id].KeyFrame? && cells[id].seqNo > s))
  {
    forall i | 0 <= i < |order|
      ensures order[i] in gone <==> !(cells[order[i]].KeyFrame? && cells[order[i]].seqNo > s)
    {
      var id := order[i];
      if id in Superseded(cells, keys, s) {
        var k :| k in keys && cells[keys[k]].seqNo <= s && keys[k] == id;
        assert IsKey(cells[id], k);
      }
      if cells[id].KeyFrame? {
        assert keys[cells[id].key] == id;
      }
    }
  }

  lemma KeysAfterLayout(order: seq<nat>, cells: map<nat, Frame>, keys: map<int, nat>, s: int,
                        kept: seq<nat>, next: nat, f: Frame)
    requires ListOk(order, cells, next) && f.LayoutFrame?
    requires KeysNameRenders(order, cells, keys) && RendersAreNamed(order, cells, keys)
    requires forall id :: id in kept <==> id in order && cells[id].KeyFrame? && cells[id].seqNo > s
    ensures HasCells(kept + [next], cells[next := f])
    ensures KeysNameRenders(kept + [next], cells[next := f], KeysAbove(cells, keys, s))
    ensures RendersAreNamed(kept + [next], cells[next := f], KeysAbove(cells, keys, s))
  {
    forall i | 0 <= i < |kept| ensures kept[i] in order && kept[i] in cells && kept[i] < next
        && cells[kept[i]].KeyFrame? && cells[kept[i]].seqNo > s {
      assert kept[i] in kept;
    }
    forall k | k in keys ensures keys[k] < next {
    }
  }

  lemma LayoutAppended(order: seq<nat>, cells: map<nat, Frame>, keys: map<int, nat>, layout: Option<nat>,
                       next: nat, s: int, grid: Grid, gone: set<nat>)
    requires Indexed(order, cells, keys, layout, next)
    requires !(layout.Some? && cells[layout.value].seqNo > s)
    requires gone == Superseded(cells, keys, s) + if layout.Some? then {layout.value} else {}
    ensures var order' := Unlink(order, gone) + [next];
            var cells' := cells[next := LayoutFrame(s, grid)];
            && Indexed(order', cells', KeysAbove(cells, keys, s), Some(next), next + 1)
            && Values(order', cells') == Push(Values(order, cells), LayoutFrame(s, grid))
  {
    var f := LayoutFrame(s, grid);
    var q, cells' := Values(order, cells), cells[next := f];
    var kept: seq<nat> := Unlink(order, gone);
    LayoutIsIndexed(order, cells, keys, layout, next, s);
    UnlinkedForLayout(order, cells, keys, layout, next, s, gone);
    UnlinkMembers(order, gone);
    UnlinkLeavesSurvivors(order, cells, gone, s);
    KeysAfterLayout(order, cells, keys, s, kept, next, f);
    forall i | 0 <= i < |kept| ensures kept[i] in order && kept[i] < next && cells[kept[i]].KeyFrame? {
      assert kept[i] in kept;
    }
    assert Values(kept + [next], cells') == Survivors(q, s) + [f];
    PushKeepsStructure(q, f);
  }

  // ---------------------------------------------------------------- the queue

  class SendQueue<T> {
    var other: seq<T>
    var order: seq<nat>
    var cells: map<nat, Frame>
    var keys: map<int, nat>
    var layout: Option<nat>
    var next: nat
    var wake: bool

    /** The frames of the surface lane, oldest first. */
    ghost var lane: seq<Frame>

    ghost predicate Valid()
      reads this
    {
      |other| <= SEND_BUFFER && Indexed(order, cells, keys, layout, next) && lane == Values(order, cells)
    }

    constructor ()
      ensures Valid() && other == [] && lane == [] && !wake
    {
      other, order, cells, keys, layout, next, wake := [], [], map[], map[], None, 0, false;
      lane := [];
    }

    method Poke()
      modifies this`wake
      ensures wake
    {
      wake := true;
    }

    /** Queues a state or command frame, or reports that the backlog is full and changes
        nothing. */
    method PushOther(frame: T) returns (ok: bool)
      requires Valid()
      modifies this`other, this`wake
      ensures Valid() && lane == old(lane)
      ensures ok <==> |old(other)| < SEND_BUFFER
      ensures other == if ok then old(other) + [frame] else old(other)
      ensures wake == (old(wake) || ok)
    {
      if |other| >= SEND_BUFFER {
        return false;
      }
      other := other + [frame];
      Poke();
      return true;
    }

    /** Queues one key's render, superseding in place the older one queued for that key. */
    method PushSurfaceKey(key: int, s: int, render: Render)
      requires Valid()
      modifies this`order, this`cells, this`keys, this`next, this`lane, this`wake
      ensures Valid()
      ensures lane == PushKey(old(lane), key, s, render)
      ensures wake == (old(wake) || !Refused(old(lane), KeyFrame(key, s, render)))
      ensures lane != old(lane) ==> wake
    {
      var frame := KeyFrame(key, s, render);
      KeyIsIndexed(order, cells, keys, layout, next, key);
      if key in keys {
        var e := keys[key];
        if cells[e].seqNo >= s {
          return;
        }
        ReplacedInPlace(order, cells, keys, layout, next, frame);
        cells := cells[e := frame];
      } else {
        RenderAppended(order, cells, keys, layout, next, frame);
        cells := cells[next := frame];
        order := order + [next];
        keys := keys[key := next];
        next := next + 1;
      }
      lane := Push(lane, frame);
      Poke();
    }

    /** Queues a re-baseline and unlinks the renders and the layout it supersedes, unless a
        newer layout is queued. */
    method PushSurfaceLayout(s: int, grid: Grid)
      requires Valid()
      modifies this`order, this`cells, this`keys, this`layout, this`next, this`lane, this`wake
      ensures Valid()
      ensures lane == PushLayout(old(lane), s, grid)
      ensures wake == (old(wake) || !Refused(old(lane), LayoutFrame(s, grid)))
      ensures lane != old(lane) ==> wake
    {
      ghost var was := lane;
      LayoutIsIndexed(order, cells, keys, layout, next, s);
      if layout.Some? && cells[layout.value].seqNo > s {
        assert Refused(was, LayoutFrame(s, grid));
        return;
      }
      assert !Refused(was, LayoutFrame(s, grid));
      ReplaceLayout(s, grid);
      Poke();
    }

    /** What a layout that is not refused does to the lane. */
    method ReplaceLayout(s: int, grid: Grid)
      requires Valid() && !(layout.Some? && cells[layout.value].seqNo > s)
      modifies this`order, this`cells, this`keys, this`layout, this`next, this`lane
      ensures Valid()
      ensures lane == Push(old(lane), LayoutFrame(s, grid))
    {
      ghost var gone := Superseded(cells, keys, s);
      DropSuperseded(s);
      if layout.Some? {
        UnlinkTwice(old(order), gone, {layout.value});
        order := Unlink(order, {layout.value});
        gone := gone + {layout.value};
      }
      assert gone == Superseded(cells, old(keys), s) + if layout.Some? then {layout.value} else {};
      cells := cells[next := LayoutFrame(s, grid)];
      order := order + [next];
      layout := Some(next);
      next := next + 1;
      lane := Push(lane, LayoutFrame(s, grid));
      assert Valid() by {
        LayoutAppended(old(order), old(cells), old(keys), old(layout), old(next), s, grid, gone);
      }
    }

    /** The loop over the key index: every render at or below `s` leaves the list and the
        index. */
    method DropSuperseded(s: int)
      requires forall k :: k in keys ==> keys[k] in cells
      modifies this`order, this`keys
      ensures order == Unlink(old(order), Superseded(cells, old(keys), s))
      ensures keys == KeysAbove(cells, old(keys), s)
    {
      ghost var gone: set<nat> := {};
      var todo := keys.Keys;
      UnlinkNothing(order, gone);
      while todo != {}
        invariant todo <= keys.Keys
        invariant order == Unlink(old(order), gone)
        invariant keys == map k | k in old(keys) && (k in todo || cells[old(keys)[k]].seqNo > s) :: old(keys)[k]
        invariant gone == set k | k in old(keys) && k !in todo && cells[old(keys)[k]].seqNo <= s :: old(keys)[k]
        decreases todo
      {
        var key := Pick(todo);
        todo := todo - {key};
        var e := keys[key];
        if cells[e].seqNo <= s {
          UnlinkTwice(old(order), gone, {e});
          order := Unlink(order, {e});
          keys := keys - {key};
          gone := gone + {e};
        }
      }
      assert gone == Superseded(cells, old(keys), s);
    }

    /** What the writer calls. A state frame always goes before a surface frame, and either lane
        is drained from its front. */
    method Pop() returns (p: Option<Packet<T>>)
      requires Valid()
      modifies this`other, this`order, this`keys, this`layout, this`lane
      ensures Valid()
      ensures p.None? <==> old(other) == [] && old(lane) == []
      ensures old(other) != [] ==> p == Some(OtherPacket(old(other)[0]))
                                   && other == old(other)[1..] && lane == old(lane)
      ensures old(other) == [] && old(lane) != [] ==>
                p == Some(SurfacePacket(old(lane)[0]))
                && other == old(other) && lane == old(lane)[1..]
      ensures p.None? ==> other == old(other) && lane == old(lane)
    {
      if other != [] {
        p := Some(OtherPacket(other[0]));
        other := other[1..];
        return;
      }
      if order == [] {
        return None;
      }
      FrontPopped(order, cells, keys, layout, next);
      var e := order[0];
      var f := cells[e];
      order := order[1..];
      lane := lane[1..];
      if f.LayoutFrame? {
        if layout == Some(e) {
          layout := None;
        }
      } else if f.key in keys && keys[f.key] == e {
        keys := keys - {f.key};
      }
      p := Some(SurfacePacket(f));
    }

    /** The number of frames queued. On a grid of n keys it is at most the state lane's cap, one
        render a key and one layout. */
    method Depth(ghost n: nat) returns (d: nat)
      requires Valid()
      ensures d == |other| + |lane|
      ensures KeysBelow(lane, n) ==> d <= SEND_BUFFER + n + 1
    {
      if KeysBelow(lane, n) {
        LaneIsBounded(lane, n);
      }
      d := |other| + |order|;
    }
  }
}
