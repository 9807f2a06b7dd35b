/** The authoritative state container: it assigns a revision to every real change and notifies
    one observer of the patch. */
module StateStore {
  import opened Wrappers
  import opened MergePatch

  datatype Change = Change(rev: nat, patch: Obj)

  datatype Outcome = Failed | Unchanged(rev: nat) | Changed(change: Change)

  /** The state a consumer of every change so far has built up from nothing. */
  function Replayed(log: seq<Change>): Obj {
    if log == [] then map[] else Patched(Replayed(log[..|log| - 1]), log[|log| - 1].patch)
  }

  lemma OneMoreChange(log: seq<Change>, c: Change)
    ensures Replayed(log + [c]) == Patched(Replayed(log), c.patch)
  {
    assert (log + [c])[..|log|] == log;
  }

  /** What one change does to a consumer that held the state before it. */
  lemma WritableOrNot(cur: Obj, next: Obj)
    ensures Patched(cur, Diff(Object(cur), Object(next))) == next <==> Writable(Object(cur), Object(next))
    ensures cur == next || NullFree(Object(next)) ==> Writable(Object(cur), Object(next))
  {
    DiffRoundTripsExactly(Object(cur), Object(next));
    if cur == next {
      NothingToWrite(Object(cur));
    } else if NullFree(Object(next)) {
      NullFreeIsWritable(Object(cur), Object(next));
    }
  }

  class Store {
    var cur: Obj
    var rev: nat
    /** Every change the observer has been notified of, in order. */
    var notified: seq<Change>
    /** History: no change so far wrote a null, which a patch can only read as a deletion. */
    var exact: bool

    ghost predicate Valid()
      reads this
    {
      && rev == |notified|
      && (forall i :: 0 <= i < |notified| ==> notified[i].rev == i + 1 && notified[i].patch != map[])
      && (exact ==> cur == Replayed(notified))
    }

    constructor ()
      ensures Valid() && cur == map[] && rev == 0 && exact
    {
      cur, rev, notified, exact := map[], 0, [], true;
    }

    /** Applies a mutation whose encoded result is `next`, or None when it could not be encoded.
        The revision moves, by one, exactly when the state really changed, and the observer
        hears of it exactly then. What it heard so far replays to the state until a change writes a
        null, and a null-free state never does. */
    method Update(next: Option<Obj>) returns (r: Outcome)
      requires Valid()
      modifies this
      ensures Valid()
      ensures next.None? ==> r == Failed && cur == old(cur) && rev == old(rev) && notified == old(notified)
      ensures next.Some? ==> cur == next.value
      ensures next.Some? && next.value == old(cur) ==>
                r == Unchanged(rev) && rev == old(rev) && notified == old(notified)
      ensures next.Some? && next.value != old(cur) ==>
                && rev == old(rev) + 1
                && r == Changed(Change(rev, Diff(Object(old(cur)), Object(next.value))))
                && notified == old(notified) + [r.change]
      ensures exact == (old(exact) && (next.Some? ==> Writable(Object(old(cur)), Object(next.value))))
      ensures old(exact) ==> (exact <==> cur == Replayed(notified))
      ensures old(exact) && (next.Some? ==> NullFree(Object(next.value))) ==> exact
    {
      if next.None? {
        return Failed;
      }
      var patch := ComputeDiff(Object(cur), Object(next.value));
      WritableOrNot(cur, next.value);
      if patch.None? {
        return Unchanged(rev);
      }
      r := Changed(Change(rev + 1, patch.value));
      Commit(next.value, r.change, Writable(Object(cur), Object(next.value)));
    }

    /** The next state and the patch to it, stored and announced together. */
    method Commit(next: Obj, change: Change, writable: bool)
      requires Valid() && change.rev == rev + 1 && change.patch != map[]
      requires writable <==> Patched(cur, change.patch) == next
      modifies this
      ensures Valid() && cur == next && rev == old(rev) + 1 && notified == old(notified) + [change]
      ensures exact == (old(exact) && writable)
      ensures old(exact) ==> (exact <==> cur == Replayed(notified))
    {
      OneMoreChange(notified, change);
      cur, rev, notified, exact := next, rev + 1, notified + [change], exact && writable;
    }

    /** The current revision and the state limited to `topics`; a client subscribed to it can be
        replayed every later change, scoped the same way, and never diverges. */
    method Snapshot(topics: set<string>) returns (at: nat, data: Option<Obj>)
      requires Valid()
      ensures at == |notified|
      ensures (if data.None? then map[] else data.value) == FilterTopics(cur, topics)
      ensures exact ==> (if data.None? then map[] else data.value) == FilterTopics(Replayed(notified), topics)
    {
      at := rev;
      data := ComputeFilter(cur, topics);
    }
  }

  /** A consumer that joins at any revision with a snapshot and then applies the later changes,
      both scoped to its topics, always holds its part of the state. */
  lemma {:induction false} JoinAnywhere(log: seq<Change>, from: nat, topics: set<string>)
    requires from <= |log|
    ensures FoldScoped(FilterTopics(Replayed(log[..from]), topics), log[from..], topics)
            == FilterTopics(Replayed(log), topics)
  {
    if from == |log| {
      assert log[..from] == log;
    } else {
      var init := log[..|log| - 1];
      JoinAnywhere(init, from, topics);
      assert init[..from] == log[..from];
      var tail := log[from..];
      assert tail[..|tail| - 1] == init[from..];
      FilterCommutesWithPatching(Replayed(init), log[|log| - 1].patch, topics);
    }
  }

  function FoldScoped(o: Obj, log: seq<Change>, topics: set<string>): Obj {
    if log == [] then o
    else Patched(FoldScoped(o, log[..|log| - 1], topics), FilterTopics(log[|log| - 1].patch, topics))
  }
}
