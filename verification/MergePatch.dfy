/** JSON Merge Patch: `Diff` generates patches as the state store does, `Merge` applies them by
    the algorithm of section 2 of RFC 7396, and `FilterTopics` limits an object to a client's
    subscription. */
module MergePatch {
  import opened Wrappers

  /** A JSON value. Numbers, strings and booleans are opaque scalars. */
  datatype Json =
    | Null
    | Scalar(text: string)
    | Array(elems: seq<Json>)
    | Object(fields: map<string, Json>)

  type Obj = map<string, Json>

  /** MergePatch(Target, Patch) of RFC 7396: a patch that is no object replaces the target, and
      one that is merges field by field, a null deleting the field. A target that is absent or
      no object counts as the empty object. */
  function Merge(target: Option<Json>, patch: Json): Json
    decreases patch
  {
    if patch.Object? then
      var base := if target.Some? && target.value.Object? then target.value.fields else map[];
      Object(MergeFields(base, patch))
    else patch
  }

  function MergeFields(base: Obj, patch: Json): Obj
    requires patch.Object?
    decreases patch, 0
  {
    map k | k in base.Keys + patch.fields.Keys && (k in patch.fields ==> patch.fields[k] != Null) ::
      if k in patch.fields then Merge(Lookup(base, k), patch.fields[k]) else base[k]
  }

  /** The object a client holds after applying a patch to it. */
  function Patched(o: Obj, patch: Obj): Obj {
    MergeFields(o, Object(patch))
  }

  /** The sparse patch from `old'` to `new'`: empty when nothing changed. */
  function Diff(old': Json, new': Json): (patch: Obj)
    requires old'.Object? && new'.Object?
    decreases new'
  {
    map k | k in old'.fields.Keys + new'.fields.Keys && DiffEntry(old', new', k).Some? ::
      DiffEntry(old', new', k).value
  }

  /** The patch's entry for one key, if that key changed. */
  function DiffEntry(old': Json, new': Json, k: string): Option<Json>
    requires old'.Object? && new'.Object?
    decreases new', 0
  {
    if k !in new'.fields then if k in old'.fields then Some(Null) else None
    else if k !in old'.fields then Some(new'.fields[k])
    else if new'.fields[k].Object? && old'.fields[k].Object? then
      var sub := Diff(old'.fields[k], new'.fields[k]);
      if sub == map[] then None else Some(Object(sub))
    else if old'.fields[k] != new'.fields[k] then Some(new'.fields[k])
    else None
  }

  // ---------------------------------------------------------------- exactness

  /** No object inside the value has a null field. Arrays are replaced whole, so what they hold
      does not matter. */
  predicate NullFree(j: Json) {
    j.Object? ==> forall k :: k in j.fields ==> j.fields[k] != Null && NullFree(j.fields[k])
  }

  predicate NoObject(t: Option<Json>) { t.None? || !t.value.Object? }

  /** A value merged where there is no object to merge into arrives whole exactly when it is
      free of nulls, which the merge would read as deletions. */
  lemma {:induction false} WholeValueMerge(t: Option<Json>, v: Json)
    requires NoObject(t)
    ensures Merge(t, v) == v <==> NullFree(v)
    decreases v
  {
    if v.Object? {
      var m := MergeFields(map[], v);
      forall k | k in v.fields ensures Merge(None, v.fields[k]) == v.fields[k] <==> NullFree(v.fields[k]) {
        WholeValueMerge(None, v.fields[k]);
      }
      forall k | k in m ensures m[k] == Merge(None, v.fields[k]) {
      }
      if NullFree(v) {
        assert m == v.fields;
      } else {
        var k :| k in v.fields && (v.fields[k] == Null || !NullFree(v.fields[k]));
        assert k !in m || m[k] != v.fields[k];
      }
    }
  }

  /** Every value the patch has to write is free of nulls. */
  predicate Writable(old': Json, new': Json)
    requires old'.Object? && new'.Object?
    decreases new'
  {
    forall k :: k in new'.fields ==>
      if k in old'.fields && old'.fields[k].Object? && new'.fields[k].Object?
      then Writable(old'.fields[k], new'.fields[k])
      else Lookup(old'.fields, k) == Some(new'.fields[k]) || (new'.fields[k] != Null && NullFree(new'.fields[k]))
  }

  lemma {:induction false} NullFreeIsWritable(old': Json, new': Json)
    requires old'.Object? && new'.Object? && NullFree(new')
    ensures Writable(old', new')
    decreases new'
  {
    forall k | k in new'.fields && k in old'.fields && old'.fields[k].Object? && new'.fields[k].Object?
      ensures Writable(old'.fields[k], new'.fields[k])
    {
      NullFreeIsWritable(old'.fields[k], new'.fields[k]);
    }
  }

  /** The patch is empty exactly when nothing changed. */
  lemma {:induction false} DiffIsNilExactly(old': Json, new': Json)
    requires old'.Object? && new'.Object?
    ensures Diff(old', new') == map[] <==> old' == new'
    decreases new'
  {
    var d := Diff(old', new');
    forall k ensures k in d <==> Lookup(old'.fields, k) != Lookup(new'.fields, k) {
      if k in old'.fields && k in new'.fields && old'.fields[k].Object? && new'.fields[k].Object? {
        DiffIsNilExactly(old'.fields[k], new'.fields[k]);
      }
      assert k in d <==> DiffEntry(old', new', k).Some?;
    }
    if d == map[] {
      forall k ensures Lookup(old'.fields, k) == Lookup(new'.fields, k) {
        assert k !in d;
      }
      SameLookupsSameObject(old'.fields, new'.fields);
    } else {
      var k :| k in d;
      assert Lookup(old'.fields, k) != Lookup(new'.fields, k);
    }
  }

  lemma SameLookupsSameObject(a: Obj, b: Obj)
    requires forall k :: Lookup(a, k) == Lookup(b, k)
    ensures a == b
  {
    forall k ensures k in a <==> k in b {
      assert Lookup(a, k) == Lookup(b, k);
    }
    forall k | k in a ensures a[k] == b[k] {
      assert Lookup(a, k) == Lookup(b, k);
    }
  }

  /** Every entry of the patch marks a real difference, and every difference has an entry. */
  lemma {:induction false} DiffMarksChangesExactly(old': Json, new': Json, k: string)
    requires old'.Object? && new'.Object?
    ensures k in Diff(old', new') <==> Lookup(old'.fields, k) != Lookup(new'.fields, k)
  {
    if k in old'.fields && k in new'.fields && old'.fields[k].Object? && new'.fields[k].Object? {
      DiffIsNilExactly(old'.fields[k], new'.fields[k]);
    }
    assert k in Diff(old', new') <==> DiffEntry(old', new', k).Some?;
  }

  lemma PatchedLookup(o: Obj, p: Obj, k: string)
    ensures Lookup(Patched(o, p), k) ==
            if k !in p then Lookup(o, k) else if p[k] == Null then None else Some(Merge(Lookup(o, k), p[k]))
  {
  }

  /** One field after the patch: it is the new one exactly when the patch could write it. */
  lemma {:induction false} PatchedField(old': Json, new': Json, k: string)
    requires old'.Object? && new'.Object?
    ensures Lookup(Patched(old'.fields, Diff(old', new')), k) == Lookup(new'.fields, k) <==>
            (k in new'.fields ==>
              if k in old'.fields && old'.fields[k].Object? && new'.fields[k].Object?
              then Writable(old'.fields[k], new'.fields[k])
              else Lookup(old'.fields, k) == Some(new'.fields[k])
                   || (new'.fields[k] != Null && NullFree(new'.fields[k])))
    decreases new', 0
  {
    var d := Diff(old', new');
    DiffMarksChangesExactly(old', new', k);
    PatchedLookup(old'.fields, d, k);
    if k in new'.fields {
      var t, v := Lookup(old'.fields, k), new'.fields[k];
      if k in old'.fields && t.value.Object? && v.Object? {
        DiffIsNilExactly(t.value, v);
        DiffRoundTripsExactly(t.value, v);
        if k !in d {
          NothingToWrite(v);
        } else {
          assert d[k] == Object(Diff(t.value, v));
          assert Merge(t, d[k]) == Object(Patched(t.value.fields, Diff(t.value, v)));
        }
      } else if k in d {
        assert d[k] == v;
        if v.Object? {
          WholeValueMerge(t, v);
        } else {
          assert Merge(t, v) == v && NullFree(v);
        }
      }
    }
  }

  lemma {:induction false} NothingToWrite(v: Json)
    requires v.Object?
    ensures Writable(v, v)
    decreases v
  {
    forall k | k in v.fields && v.fields[k].Object? ensures Writable(v.fields[k], v.fields[k]) {
      NothingToWrite(v.fields[k]);
    }
  }

  /** Patching the old object with the diff gives the new one exactly when every value the diff
      writes is free of nulls. */
  lemma {:induction false} DiffRoundTripsExactly(old': Json, new': Json)
    requires old'.Object? && new'.Object?
    ensures Patched(old'.fields, Diff(old', new')) == new'.fields <==> Writable(old', new')
    decreases new', 1
  {
    var p := Patched(old'.fields, Diff(old', new'));
    forall k ensures Lookup(p, k) == Lookup(new'.fields, k) <==>
            (k in new'.fields ==>
              if k in old'.fields && old'.fields[k].Object? && new'.fields[k].Object?
              then Writable(old'.fields[k], new'.fields[k])
              else Lookup(old'.fields, k) == Some(new'.fields[k])
                   || (new'.fields[k] != Null && NullFree(new'.fields[k])))
    {
      PatchedField(old', new', k);
    }
    if Writable(old', new') {
      SameLookupsSameObject(p, new'.fields);
    }
  }

  /** Merge-patch exactness: for a null-free new object, whatever the old one, the patch takes
      the old object to the new one. */
  lemma DiffRoundTrips(old': Obj, new': Obj)
    requires NullFree(Object(new'))
    ensures Patched(old', Diff(Object(old'), Object(new'))) == new'
  {
    NullFreeIsWritable(Object(old'), Object(new'));
    DiffRoundTripsExactly(Object(old'), Object(new'));
  }

  // ---------------------------------------------------------------- the least patch

  /** `p` says at least what `d` says: it has every entry of `d`, at every depth. */
  predicate Covers(p: Json, d: Json)
    decreases d
  {
    if d.Object? then p.Object? && forall k :: k in d.fields ==> k in p.fields && Covers(p.fields[k], d.fields[k])
    else p == d
  }

  lemma {:induction false} WholeValueCovered(t: Option<Json>, p: Json, v: Json)
    requires NoObject(t) && Merge(t, p) == v
    ensures Covers(p, v)
    decreases v
  {
    if v.Object? {
      forall k | k in v.fields ensures k in p.fields && Covers(p.fields[k], v.fields[k]) {
        assert k in MergeFields(map[], p);
        WholeValueCovered(None, p.fields[k], v.fields[k]);
      }
    }
  }

  /** No patch that turns the old object into the new one says less than the diff. */
  lemma {:induction false} DiffIsLeast(old': Json, new': Json, p: Obj)
    requires old'.Object? && new'.Object? && Patched(old'.fields, p) == new'.fields
    ensures Covers(Object(p), Object(Diff(old', new')))
    decreases new'
  {
    var d := Diff(old', new');
    forall k | k in d ensures k in p && Covers(p[k], d[k]) {
      DiffMarksChangesExactly(old', new', k);
      var result := Patched(old'.fields, p);
      assert Lookup(result, k) == Lookup(new'.fields, k);
      assert k in p;
      if k in new'.fields {
        var t, v := Lookup(old'.fields, k), new'.fields[k];
        assert Merge(t, p[k]) == v;
        if t.Some? && t.value.Object? && v.Object? {
          assert p[k].Object?;
          DiffIsLeast(t.value, v, p[k].fields);
          assert d[k] == Object(Diff(t.value, v));
        } else {
          assert d[k] == v;
          if v.Object? {
            WholeValueCovered(t, p[k], v);
          }
        }
      } else {
        assert d[k] == Null && p[k] == Null;
      }
    }
  }

  // ---------------------------------------------------------------- topic filtering

  function FilterTopics(o: Obj, topics: set<string>): Obj {
    map k | k in o && k in topics :: o[k]
  }

  /** Filtering commutes with patching, so a client patched with its part of each patch holds
      its part of the state. */
  lemma FilterCommutesWithPatching(o: Obj, p: Obj, topics: set<string>)
    ensures FilterTopics(Patched(o, p), topics) == Patched(FilterTopics(o, topics), FilterTopics(p, topics))
  {
    var a, b := FilterTopics(Patched(o, p), topics), Patched(FilterTopics(o, topics), FilterTopics(p, topics));
    forall k ensures Lookup(a, k) == Lookup(b, k) {
      assert k in topics ==> Lookup(FilterTopics(o, topics), k) == Lookup(o, k);
    }
    SameLookupsSameObject(a, b);
  }

  lemma EmptyPatchChangesNothing(o: Obj)
    ensures Patched(o, map[]) == o
  {
    SameLookupsSameObject(Patched(o, map[]), o);
  }

  /** Skipping the frame of an empty scoped patch is sound: the client's part did not change. */
  lemma UnscopedPatchIsInvisible(o: Obj, p: Obj, topics: set<string>)
    requires FilterTopics(p, topics) == map[]
    ensures FilterTopics(Patched(o, p), topics) == FilterTopics(o, topics)
  {
    FilterCommutesWithPatching(o, p, topics);
    EmptyPatchChangesNothing(FilterTopics(o, topics));
  }

  // ---------------------------------------------------------------- the program's loops

  /** The two map ranges of the diff: the new object's keys, then the old object's. */
  method ComputeDiff(old': Json, new': Json) returns (patch: Option<Obj>)
    requires old'.Object? && new'.Object?
    ensures patch == if Diff(old', new') == map[] then None else Some(Diff(old', new'))
    ensures patch.None? <==> old' == new'
    decreases new'
  {
    var p: Obj := map[];
    var todo := new'.fields.Keys;
    while todo != {}
      invariant todo <= new'.fields.Keys
      invariant p == map k | k in new'.fields && k !in todo && DiffEntry(old', new', k).Some? ::
                       DiffEntry(old', new', k).value
      decreases todo
    {
      var k := Pick(todo);
      todo := todo - {k};
      var nv := new'.fields[k];
      if k !in old'.fields {
        p := p[k := nv];
      } else {
        var ov := old'.fields[k];
        if nv.Object? && ov.Object? {
          var sub := ComputeDiff(ov, nv);
          if sub.Some? {
            p := p[k := Object(sub.value)];
          }
        } else if ov != nv {
          p := p[k := nv];
        }
      }
    }
    assert p == map k | k in new'.fields && DiffEntry(old', new', k).Some? :: DiffEntry(old', new', k).value;
    todo := old'.fields.Keys;
    while todo != {}
      invariant todo <= old'.fields.Keys
      invariant p == map k | (k in new'.fields.Keys + old'.fields.Keys && (k in new'.fields || k !in todo))
                             && DiffEntry(old', new', k).Some? :: DiffEntry(old', new', k).value
      decreases todo
    {
      var k := Pick(todo);
      todo := todo - {k};
      if k !in new'.fields {
        p := p[k := Null];
      }
    }
    assert p == Diff(old', new');
    DiffIsNilExactly(old', new');
    patch := if |p| == 0 then None else Some(p);
  }

  /** The filter's loop; an empty result is reported as None. */
  method ComputeFilter(o: Obj, topics: set<string>) returns (out: Option<Obj>)
    ensures out == if FilterTopics(o, topics) == map[] then None else Some(FilterTopics(o, topics))
    ensures forall k :: Lookup(if out.None? then map[] else out.value, k) == if k in topics then Lookup(o, k) else None
  {
    var m: Obj := map[];
    var todo := o.Keys;
    while todo != {}
      invariant todo <= o.Keys
      invariant m == map k | k in o && k !in todo && k in topics :: o[k]
      decreases todo
    {
      var k := Pick(todo);
      todo := todo - {k};
      if k in topics {
        m := m[k := o[k]];
      }
    }
    assert m == FilterTopics(o, topics);
    out := if |m| == 0 then None else Some(m);
  }
}
