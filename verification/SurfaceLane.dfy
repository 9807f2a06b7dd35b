/** The surface lane of a connection's send queue, as a plain sequence of frames, and the
    client that applies those frames.

    The lane throws frames away: a key render replaces the one queued for the same key, and
    a layout removes the renders it supersedes. The refinement proved here is that the client
    cannot tell. Folding what is still queued onto what the client already holds gives the
    view of a client that was sent every frame. */
module SurfaceLane {
  import opened Wrappers

  datatype Grid = Grid(rows: int, cols: int, bitmapSize: int)

  datatype Render = Render(keyType: string, pressed: bool, color: string, bitmap: string)

  /** One surface frame: a key's render, or a re-baseline of the whole surface. */
  datatype Frame =
    | KeyFrame(key: int, seqNo: int, render: Render)
    | LayoutFrame(seqNo: int, grid: Grid)

  datatype Held = Held(seqNo: int, render: Render)

  /** What a client shows: the grid of the last layout and the renders it holds. */
  datatype View = View(grid: Option<Grid>, keys: map<int, Held>)

  const BlankView := View(None, map[])

  /** The client's rule. A layout drops the held keys at or below its sequence and leaves no
      other trace; a render applies unless one at least as new is held for that key. */
  function Apply(v: View, f: Frame): View {
    match f
    case KeyFrame(k, s, r) =>
      if k in v.keys && v.keys[k].seqNo >= s then v else v.(keys := v.keys[k := Held(s, r)])
    case LayoutFrame(s, g) => View(Some(g), NewerThan(v.keys, s))
  }

  function NewerThan(keys: map<int, Held>, s: int): map<int, Held> {
    map k | k in keys && keys[k].seqNo > s :: keys[k]
  }

  function Fold(v: View, q: seq<Frame>): View {
    if q == [] then v else Apply(Fold(v, q[..|q| - 1]), q[|q| - 1])
  }

  // ---------------------------------------------------------------- the lane's operations

  predicate IsKey(f: Frame, k: int) { f.KeyFrame? && f.key == k }

  /** The position of the frame queued for `k`, or |q| when there is none. */
  function KeyIndex(q: seq<Frame>, k: int): (i: nat)
    ensures i <= |q|
    ensures i < |q| ==> IsKey(q[i], k)
    ensures forall j :: 0 <= j < i ==> !IsKey(q[j], k)
  {
    if q == [] then 0
    else if IsKey(q[0], k) then 0
    else
      var i := KeyIndex(q[1..], k);
      assert forall j :: 0 < j < 1 + i ==> q[j] == q[1..][j - 1];
      1 + i
  }

  function PushKey(q: seq<Frame>, k: int, s: int, r: Render): seq<Frame> {
    var i := KeyIndex(q, k);
    if i == |q| then q + [KeyFrame(k, s, r)]
    else if q[i].seqNo >= s then q
    else q[i := KeyFrame(k, s, r)]
  }

  /** A layout newer than `s` is queued: the one case in which a pushed layout is refused. */
  predicate Overtaken(q: seq<Frame>, s: int) {
    exists i :: 0 <= i < |q| && q[i].LayoutFrame? && q[i].seqNo > s
  }

  /** The frames a layout at `s` leaves queued: the renders above it. */
  function Survivors(q: seq<Frame>, s: int): seq<Frame> {
    if q == [] then []
    else
      var rest := Survivors(q[..|q| - 1], s);
      var f := q[|q| - 1];
      if f.KeyFrame? && f.seqNo > s then rest + [f] else rest
  }

  function PushLayout(q: seq<Frame>, s: int, g: Grid): seq<Frame> {
    if Overtaken(q, s) then q else Survivors(q, s) + [LayoutFrame(s, g)]
  }

  function Push(q: seq<Frame>, f: Frame): seq<Frame> {
    match f
    case KeyFrame(k, s, r) => PushKey(q, k, s, r)
    case LayoutFrame(s, g) => PushLayout(q, s, g)
  }

  /** The pushes that leave the lane as it is and wake nobody. */
  predicate Refused(q: seq<Frame>, f: Frame) {
    match f
    case KeyFrame(k, s, _) => KeyIndex(q, k) < |q| && q[KeyIndex(q, k)].seqNo >= s
    case LayoutFrame(s, _) => Overtaken(q, s)
  }

  /** A refused push changes nothing, and any other puts its frame in the lane. */
  lemma RefusedExactly(q: seq<Frame>, f: Frame)
    ensures Refused(q, f) ==> Push(q, f) == q
    ensures !Refused(q, f) ==> f in Push(q, f)
  {
    if f.KeyFrame? && !Refused(q, f) {
      var i := KeyIndex(q, f.key);
      assert Push(q, f)[i] == f;
    } else if f.LayoutFrame? && !Refused(q, f) {
      assert Push(q, f)[|Survivors(q, f.seqNo)|] == f;
    }
  }

  // ---------------------------------------------------------------- order

  /** A render keeps the place of the one it replaces, every other frame keeps its own, and a
      render for a key that is not queued goes to the back. */
  lemma RendersKeepTheirPlace(q: seq<Frame>, k: int, s: int, r: Render)
    ensures forall i :: 0 <= i < |q| && !IsKey(q[i], k) ==> i < |PushKey(q, k, s, r)| && PushKey(q, k, s, r)[i] == q[i]
    ensures if exists i :: 0 <= i < |q| && IsKey(q[i], k) then |PushKey(q, k, s, r)| == |q|
            else PushKey(q, k, s, r) == q + [KeyFrame(k, s, r)]
  {
  }

  /** What survives a layout keeps its order: the survivors of two stretches of the lane are those
      of the first and then those of the second. */
  lemma {:induction false} SurvivorsKeepTheirOrder(a: seq<Frame>, b: seq<Frame>, s: int)
    ensures Survivors(a + b, s) == Survivors(a, s) + Survivors(b, s)
  {
    if b == [] {
      assert a + b == a;
    } else {
      assert (a + b)[..|a + b| - 1] == a + b[..|b| - 1];
      SurvivorsKeepTheirOrder(a, b[..|b| - 1], s);
    }
  }

  /** A layout that is not refused goes to the back, behind exactly the renders above it. */
  lemma LayoutGoesToTheBack(q: seq<Frame>, s: int, g: Grid)
    requires !Overtaken(q, s)
    ensures var q' := PushLayout(q, s, g);
            && q' != [] && q'[|q'| - 1] == LayoutFrame(s, g)
            && forall f :: f in q'[..|q'| - 1] <==> f in q && f.KeyFrame? && f.seqNo > s
  {
    SurvivorsAre(q, s);
    assert (Survivors(q, s) + [LayoutFrame(s, g)])[..|Survivors(q, s)|] == Survivors(q, s);
  }

  // ---------------------------------------------------------------- structure

  ghost predicate OnePerKey(q: seq<Frame>) {
    forall i, j :: 0 <= i < j < |q| && q[i].KeyFrame? && q[j].KeyFrame? ==> q[i].key != q[j].key
  }

  ghost predicate OneLayout(q: seq<Frame>) {
    forall i, j :: 0 <= i < j < |q| ==> !(q[i].LayoutFrame? && q[j].LayoutFrame?)
  }

  /** Every render ahead of the layout is one the layout does not cover. */
  ghost predicate LayoutSparesEarlier(q: seq<Frame>) {
    forall i, j :: 0 <= i < j < |q| && q[i].KeyFrame? && q[j].LayoutFrame? ==> q[i].seqNo > q[j].seqNo
  }

  ghost predicate Structured(q: seq<Frame>) {
    OnePerKey(q) && OneLayout(q) && LayoutSparesEarlier(q)
  }

  lemma {:induction false} SurvivorsAre(q: seq<Frame>, s: int)
    ensures |Survivors(q, s)| <= |q|
    ensures forall f :: f in Survivors(q, s) <==> f in q && f.KeyFrame? && f.seqNo > s
  {
    if q != [] {
      SurvivorsAre(q[..|q| - 1], s);
      assert q == q[..|q| - 1] + [q[|q| - 1]];
    }
  }

  lemma {:induction false} SurvivorsOnePerKey(q: seq<Frame>, s: int)
    requires OnePerKey(q)
    ensures OnePerKey(Survivors(q, s))
  {
    if q != [] {
      var init := q[..|q| - 1];
      SurvivorsOnePerKey(init, s);
      SurvivorsAre(init, s);
    }
  }

  /** Every push keeps the lane's structure: one frame a key, one layout, and no layout behind
      a render it covers. */
  lemma PushKeepsStructure(q: seq<Frame>, f: Frame)
    requires Structured(q)
    ensures Structured(Push(q, f))
  {
    if f.LayoutFrame? && !Overtaken(q, f.seqNo) {
      SurvivorsOnePerKey(q, f.seqNo);
      SurvivorsAre(q, f.seqNo);
      assert forall i :: 0 <= i < |Survivors(q, f.seqNo)| ==> Survivors(q, f.seqNo)[i] in Survivors(q, f.seqNo);
    }
  }

  lemma PopKeepsStructure(q: seq<Frame>)
    requires Structured(q) && q != []
    ensures Structured(q[1..])
  {
  }

  ghost predicate KeysBelow(q: seq<Frame>, n: int) {
    forall i :: 0 <= i < |q| && q[i].KeyFrame? ==> 0 <= q[i].key < n
  }

  function KeySet(q: seq<Frame>): set<int> {
    set i | 0 <= i < |q| && q[i].KeyFrame? :: q[i].key
  }

  function LayoutCount(q: seq<Frame>): nat {
    if q == [] then 0 else LayoutCount(q[..|q| - 1]) + if q[|q| - 1].LayoutFrame? then 1 else 0
  }

  lemma {:induction false} LengthSplits(q: seq<Frame>)
    requires OnePerKey(q)
    ensures |q| == |KeySet(q)| + LayoutCount(q)
  {
    if q != [] {
      var init, f := q[..|q| - 1], q[|q| - 1];
      LengthSplits(init);
      if f.KeyFrame? {
        assert KeySet(q) == KeySet(init) + {f.key} by {
          assert forall i :: 0 <= i < |init| ==> init[i] == q[i];
        }
      } else {
        assert KeySet(q) == KeySet(init);
      }
    } else {
      assert KeySet(q) == {};
    }
  }

  lemma {:induction false} LayoutsAtMostOne(q: seq<Frame>)
    requires OneLayout(q)
    ensures LayoutCount(q) <= 1
    ensures LayoutCount(q) == 1 ==> exists i :: 0 <= i < |q| && q[i].LayoutFrame?
  {
    if q != [] {
      var init := q[..|q| - 1];
      LayoutsAtMostOne(init);
      if LayoutCount(init) == 1 {
        var i :| 0 <= i < |init| && init[i].LayoutFrame?;
        assert q[i].LayoutFrame?;
      }
    }
  }

  lemma {:induction false} Pigeonhole(s: set<int>, n: nat)
    requires forall x :: x in s ==> 0 <= x < n
    ensures |s| <= n
  {
    if n > 0 {
      Pigeonhole(s - {n - 1}, n - 1);
    } else {
      assert forall x: int :: x !in s;
    }
  }

  /** The lane needs no cap: with keys confined to a grid of n, it holds at most one frame a
      key and one layout. */
  lemma LaneIsBounded(q: seq<Frame>, n: nat)
    requires Structured(q) && KeysBelow(q, n)
    ensures |q| <= n + 1
  {
    LengthSplits(q);
    LayoutsAtMostOne(q);
    Pigeonhole(KeySet(q), n);
  }

  // ---------------------------------------------------------------- one key at a time

  function Slot(v: View, k: int): Option<Held> { Lookup(v.keys, k) }

  function SlotApply(h: Option<Held>, f: Frame, k: int): Option<Held> {
    match f
    case KeyFrame(k', s, r) =>
      if k' != k || (h.Some? && h.value.seqNo >= s) then h else Some(Held(s, r))
    case LayoutFrame(s, _) =>
      if h.Some? && h.value.seqNo > s then h else None
  }

  function SlotFold(h: Option<Held>, q: seq<Frame>, k: int): Option<Held> {
    if q == [] then h else SlotApply(SlotFold(h, q[..|q| - 1], k), q[|q| - 1], k)
  }

  function LastGrid(g: Option<Grid>, q: seq<Frame>): Option<Grid> {
    if q == [] then g
    else if q[|q| - 1].LayoutFrame? then Some(q[|q| - 1].grid)
    else LastGrid(g, q[..|q| - 1])
  }

  /** A fold is decided key by key, so views can be compared one key at a time. */
  lemma {:induction false} FoldBySlots(v: View, q: seq<Frame>)
    ensures Fold(v, q).grid == LastGrid(v.grid, q)
    ensures forall k :: Slot(Fold(v, q), k) == SlotFold(Slot(v, k), q, k)
  {
    if q != [] {
      FoldBySlots(v, q[..|q| - 1]);
    }
  }

  lemma SameKeys(a: map<int, Held>, b: map<int, Held>)
    requires forall k :: k in a <==> k in b
    requires forall k :: k in a ==> a[k] == b[k]
    ensures a == b
  {
    forall k ensures k in a <==> k in b {}
    forall k | k in a ensures a[k] == b[k] {}
  }

  lemma SameSlotsSameView(a: View, b: View)
    requires a.grid == b.grid
    requires forall k :: Slot(a, k) == Slot(b, k)
    ensures a == b
  {
    forall k ensures k in a.keys <==> k in b.keys {
      assert Slot(a, k) == Slot(b, k);
    }
    forall k | k in a.keys ensures a.keys[k] == b.keys[k] {
      assert Slot(a, k) == Slot(b, k);
    }
    SameKeys(a.keys, b.keys);
  }

  lemma {:induction false} SlotFoldConcat(h: Option<Held>, a: seq<Frame>, b: seq<Frame>, k: int)
    ensures SlotFold(h, a + b, k) == SlotFold(SlotFold(h, a, k), b, k)
  {
    if b == [] {
      assert a + b == a;
    } else {
      SlotFoldConcat(h, a, b[..|b| - 1], k);
      assert (a + b)[..|a + b| - 1] == a + b[..|b| - 1];
    }
  }

  lemma {:induction false} FoldConcat(v: View, a: seq<Frame>, b: seq<Frame>)
    ensures Fold(v, a + b) == Fold(Fold(v, a), b)
  {
    if b == [] {
      assert a + b == a;
    } else {
      FoldConcat(v, a, b[..|b| - 1]);
      assert (a + b)[..|a + b| - 1] == a + b[..|b| - 1];
    }
  }

  lemma {:induction false} LastGridConcat(g: Option<Grid>, a: seq<Frame>, b: seq<Frame>)
    ensures LastGrid(g, a + b) == LastGrid(LastGrid(g, a), b)
  {
    if b == [] {
      assert a + b == a;
    } else {
      LastGridConcat(g, a, b[..|b| - 1]);
      assert (a + b)[..|a + b| - 1] == a + b[..|b| - 1];
    }
  }

  /** A slot survives frames that neither render its key nor re-baseline at or above it. */
  lemma {:induction false} SlotUndisturbed(h: Option<Held>, q: seq<Frame>, k: int)
    requires h.Some?
    requires forall i :: 0 <= i < |q| ==> !IsKey(q[i], k)
    requires forall i :: 0 <= i < |q| && q[i].LayoutFrame? ==> q[i].seqNo < h.value.seqNo
    ensures SlotFold(h, q, k) == h
  {
    if q != [] {
      SlotUndisturbed(h, q[..|q| - 1], k);
    }
  }

  // ---------------------------------------------------------------- a pushed render

  lemma SplitAt(q: seq<Frame>, i: nat, f: Frame)
    requires i < |q|
    ensures q == q[..i] + [q[i]] + q[i + 1..]
    ensures q[i := f] == q[..i] + [f] + q[i + 1..]
  {
  }

  lemma SlotFoldAround(h: Option<Held>, q: seq<Frame>, i: nat, f: Frame, k: int)
    requires i < |q|
    ensures SlotFold(h, q, k) == SlotFold(SlotApply(SlotFold(h, q[..i], k), q[i], k), q[i + 1..], k)
    ensures SlotFold(h, q[i := f], k) == SlotFold(SlotApply(SlotFold(h, q[..i], k), f, k), q[i + 1..], k)
  {
    SplitAt(q, i, f);
    forall x: Frame ensures SlotFold(h, q[..i] + [x] + q[i + 1..], k)
                         == SlotFold(SlotApply(SlotFold(h, q[..i], k), x, k), q[i + 1..], k) {
      SlotFoldConcat(h, q[..i] + [x], q[i + 1..], k);
      SlotFoldConcat(h, q[..i], [x], k);
      assert [x][..0] == [];
      assert SlotFold(SlotFold(h, q[..i], k), [x], k) == SlotApply(SlotFold(h, q[..i], k), x, k);
    }
  }

  lemma LastGridIgnoresRender(g: Option<Grid>, q: seq<Frame>, i: nat, f: Frame)
    requires i < |q| && q[i].KeyFrame? && f.KeyFrame?
    ensures LastGrid(g, q[i := f]) == LastGrid(g, q)
  {
    SplitAt(q, i, f);
    LastGridConcat(g, q[..i] + [q[i]], q[i + 1..]);
    LastGridConcat(g, q[..i] + [f], q[i + 1..]);
  }

  /** The slot of the pushed key: replaced in place, or ignored because a render at least as
      new is queued. */
  lemma PushedKeySlot(h: Option<Held>, q: seq<Frame>, k: int, s: int, r: Render)
    requires Structured(q) && KeyIndex(q, k) < |q|
    ensures SlotFold(h, PushKey(q, k, s, r), k) == SlotApply(SlotFold(h, q, k), KeyFrame(k, s, r), k)
  {
    var i := KeyIndex(q, k);
    var f := KeyFrame(k, s, r);
    var before := SlotFold(h, q[..i], k);
    var old', new' := SlotApply(before, q[i], k), SlotApply(before, f, k);
    SlotFoldAround(h, q, i, f, k);
    var rest := q[i + 1..];
    assert forall j :: 0 <= j < |rest| ==> rest[j] == q[i + 1 + j];
    SlotUndisturbed(old', rest, k);
    if q[i].seqNo < s {
      SlotUndisturbed(new', rest, k);
    }
  }

  lemma OtherKeySlot(h: Option<Held>, q: seq<Frame>, k: int, s: int, r: Render, k': int)
    requires k' != k && KeyIndex(q, k) < |q|
    ensures SlotFold(h, PushKey(q, k, s, r), k') == SlotFold(h, q, k')
  {
    SlotFoldAround(h, q, KeyIndex(q, k), KeyFrame(k, s, r), k');
  }

  /** Pushing a render, whether it is appended, swapped in or ignored, leaves the client where
      applying it would have. */
  lemma PushKeyRefines(v: View, q: seq<Frame>, k: int, s: int, r: Render)
    requires Structured(q)
    ensures Fold(v, PushKey(q, k, s, r)) == Apply(Fold(v, q), KeyFrame(k, s, r))
  {
    var i, f := KeyIndex(q, k), KeyFrame(k, s, r);
    if i == |q| {
      assert (q + [f])[..|q|] == q;
    } else {
      var a, b := Fold(v, PushKey(q, k, s, r)), Apply(Fold(v, q), f);
      FoldBySlots(v, q);
      FoldBySlots(v, PushKey(q, k, s, r));
      LastGridIgnoresRender(v.grid, q, i, f);
      forall k' ensures Slot(a, k') == Slot(b, k') {
        assert Slot(b, k') == SlotApply(Slot(Fold(v, q), k'), f, k');
        if k' == k {
          PushedKeySlot(Slot(v, k), q, k, s, r);
        } else {
          OtherKeySlot(Slot(v, k'), q, k, s, r, k');
        }
      }
      SameSlotsSameView(a, b);
    }
  }

  // ---------------------------------------------------------------- a pushed layout

  function Above(h: Option<Held>, s: int): Option<Held> {
    if h.Some? && h.value.seqNo > s then h else None
  }

  /** Dropping the renders at or below `s` first, and then the frames that carried them, is the
      same as dropping the frames first. */
  lemma {:induction false} SurvivorsSlot(h: Option<Held>, q: seq<Frame>, s: int, k: int)
    requires !Overtaken(q, s)
    ensures Above(SlotFold(h, Survivors(q, s), k), s) == Above(SlotFold(h, q, k), s)
  {
    if q != [] {
      var init, f := q[..|q| - 1], q[|q| - 1];
      assert !Overtaken(init, s) by {
        assert forall i :: 0 <= i < |init| ==> init[i] == q[i];
      }
      SurvivorsSlot(h, init, s, k);
      if f.KeyFrame? && f.seqNo > s {
        var kept := Survivors(init, s);
        assert (kept + [f])[..|kept|] == kept;
      } else if f.LayoutFrame? {
        assert f.seqNo <= s;
      }
    }
  }

  /** Pushing a layout that nothing newer has overtaken leaves the client where applying it
      would have, although the frames it supersedes are never sent. */
  lemma PushLayoutRefines(v: View, q: seq<Frame>, s: int, g: Grid)
    requires !Overtaken(q, s)
    ensures Fold(v, PushLayout(q, s, g)) == Apply(Fold(v, q), LayoutFrame(s, g))
  {
    var kept, f := Survivors(q, s), LayoutFrame(s, g);
    assert (kept + [f])[..|kept|] == kept;
    var a, b := Apply(Fold(v, kept), f), Apply(Fold(v, q), f);
    FoldBySlots(v, q);
    FoldBySlots(v, kept);
    forall k ensures Slot(a, k) == Slot(b, k) {
      SurvivorsSlot(Slot(v, k), q, s, k);
      assert Slot(a, k) == Above(Slot(Fold(v, kept), k), s);
      assert Slot(b, k) == Above(Slot(Fold(v, q), k), s);
    }
    SameSlotsSameView(a, b);
  }

  /** The branch that refuses an older layout is the only one a client could notice: a layout
      push is invisible for every view and every grid exactly when nothing newer is queued. */
  lemma LayoutPushIsInvisibleExactly(q: seq<Frame>, s: int)
    requires Structured(q)
    ensures (forall v, g :: Fold(v, PushLayout(q, s, g)) == Apply(Fold(v, q), LayoutFrame(s, g)))
            <==> !Overtaken(q, s)
  {
    if Overtaken(q, s) {
      var i :| 0 <= i < |q| && q[i].LayoutFrame? && q[i].seqNo > s;
      var other := Grid(q[i].grid.rows + 1, 0, 0);
      FoldBySlots(BlankView, q);
      assert LastGrid(None, q) == Some(q[i].grid) by { OnlyLayoutIsLast(None, q, i); }
      assert Fold(BlankView, PushLayout(q, s, other)) != Apply(Fold(BlankView, q), LayoutFrame(s, other));
    } else {
      forall v, g ensures Fold(v, PushLayout(q, s, g)) == Apply(Fold(v, q), LayoutFrame(s, g)) {
        PushLayoutRefines(v, q, s, g);
      }
    }
  }

  lemma {:induction false} OnlyLayoutIsLast(g: Option<Grid>, q: seq<Frame>, i: nat)
    requires OneLayout(q) && i < |q| && q[i].LayoutFrame?
    ensures LastGrid(g, q) == Some(q[i].grid)
  {
    if i < |q| - 1 {
      OnlyLayoutIsLast(g, q[..|q| - 1], i);
    }
  }

  // ---------------------------------------------------------------- every interleaving

  datatype Op = PushOp(frame: Frame) | PopOp

  /** A lane and its client, beside a client that was sent every frame. */
  datatype Run = Run(queue: seq<Frame>, client: View, everything: View)

  function Step(r: Run, op: Op): Run {
    match op
    case PushOp(f) => Run(Push(r.queue, f), r.client, Apply(r.everything, f))
    case PopOp =>
      if r.queue == [] then r else Run(r.queue[1..], Apply(r.client, r.queue[0]), r.everything)
  }

  function RunAll(ops: seq<Op>): Run {
    if ops == [] then Run([], BlankView, BlankView) else Step(RunAll(ops[..|ops| - 1]), ops[|ops| - 1])
  }

  ghost predicate LayoutsInOrder(ops: seq<Op>) {
    forall i, j :: 0 <= i < j < |ops| && ops[i].PushOp? && ops[i].frame.LayoutFrame?
                   && ops[j].PushOp? && ops[j].frame.LayoutFrame?
                   ==> ops[i].frame.seqNo <= ops[j].frame.seqNo
  }

  ghost predicate LayoutsFrom(q: seq<Frame>, ops: seq<Op>) {
    forall i :: 0 <= i < |q| && q[i].LayoutFrame? ==> PushOp(q[i]) in ops
  }

  lemma PushAddsOnly(q: seq<Frame>, f: Frame)
    ensures forall i :: 0 <= i < |Push(q, f)| ==> Push(q, f)[i] == f || Push(q, f)[i] in q
  {
    if f.LayoutFrame? && !Overtaken(q, f.seqNo) {
      SurvivorsAre(q, f.seqNo);
    }
  }

  lemma FoldPop(v: View, q: seq<Frame>)
    requires q != []
    ensures Fold(Apply(v, q[0]), q[1..]) == Fold(v, q)
  {
    assert q == [q[0]] + q[1..];
    FoldConcat(v, [q[0]], q[1..]);
    assert [q[0]][..0] == [];
    assert Fold(v, [q[0]]) == Apply(v, q[0]);
  }

  /** One operation keeps the client beside the one sent every frame, unless it is a layout that a
      newer one has overtaken. */
  lemma StepIsInvisible(r: Run, op: Op)
    requires Structured(r.queue) && Fold(r.client, r.queue) == r.everything
    requires op.PushOp? && op.frame.LayoutFrame? ==> !Overtaken(r.queue, op.frame.seqNo)
    ensures Structured(Step(r, op).queue)
    ensures Fold(Step(r, op).client, Step(r, op).queue) == Step(r, op).everything
  {
    match op
    case PushOp(f) =>
      PushKeepsStructure(r.queue, f);
      match f {
        case KeyFrame(k, s, x) => PushKeyRefines(r.client, r.queue, k, s, x);
        case LayoutFrame(s, g) => PushLayoutRefines(r.client, r.queue, s, g);
      }
    case PopOp =>
      if r.queue != [] {
        PopKeepsStructure(r.queue);
        FoldPop(r.client, r.queue);
      }
  }

  lemma StepKeepsLayouts(ops: seq<Op>)
    requires ops != [] && LayoutsFrom(RunAll(ops[..|ops| - 1]).queue, ops[..|ops| - 1])
    ensures LayoutsFrom(RunAll(ops).queue, ops)
  {
    var init, op := ops[..|ops| - 1], ops[|ops| - 1];
    assert forall o :: o in init ==> o in ops;
    if op.PushOp? {
      PushAddsOnly(RunAll(init).queue, op.frame);
    }
  }

  /** Coalescing is invisible: after any interleaving of renders, layouts and pops in which the
      layouts' sequences do not decrease, what the client holds followed by what is queued is
      exactly the view of a client sent every frame. */
  lemma {:induction false} CoalescingIsInvisible(ops: seq<Op>)
    requires LayoutsInOrder(ops)
    ensures Structured(RunAll(ops).queue)
    ensures LayoutsFrom(RunAll(ops).queue, ops)
    ensures Fold(RunAll(ops).client, RunAll(ops).queue) == RunAll(ops).everything
  {
    if ops != [] {
      var init, op := ops[..|ops| - 1], ops[|ops| - 1];
      assert LayoutsInOrder(init);
      CoalescingIsInvisible(init);
      if op.PushOp? && op.frame.LayoutFrame? {
        NotOvertaken(RunAll(init).queue, ops);
      }
      StepIsInvisible(RunAll(init), op);
      StepKeepsLayouts(ops);
    }
  }

  lemma NotOvertaken(q: seq<Frame>, ops: seq<Op>)
    requires LayoutsInOrder(ops) && ops != []
    requires LayoutsFrom(q, ops[..|ops| - 1])
    requires ops[|ops| - 1].PushOp? && ops[|ops| - 1].frame.LayoutFrame?
    ensures !Overtaken(q, ops[|ops| - 1].frame.seqNo)
  {
    forall i | 0 <= i < |q| && q[i].LayoutFrame? ensures q[i].seqNo <= ops[|ops| - 1].frame.seqNo {
      var j :| 0 <= j < |ops| - 1 && ops[j] == PushOp(q[i]);
    }
  }
}
