/** The authorizations started and not yet completed, by their state parameter. The table is
    pruned of what has expired and bounded by evicting the oldest start. */
module PendingLogins {
  import opened Wrappers
  import opened Clock

  const LOGIN_STATE_TTL: int := 10 * MINUTE
  const MAX_PENDING: nat := 64

  datatype Login = Login(expires: int, seqNo: nat)

  type Table = map<string, Login>

  function Prune(t: Table, now: int): Table {
    map s | s in t && now <= t[s].expires :: t[s]
  }

  ghost predicate IsOldest(t: Table, s: string) {
    s in t && forall x :: x in t ==> t[s].seqNo <= t[x].seqNo
  }

  /** No two starts share a sequence number, and none is ahead of the counter. */
  ghost predicate Numbered(t: Table, last: nat) {
    && (forall s :: s in t ==> 1 <= t[s].seqNo <= last)
    && (forall a, b :: a in t && b in t && a != b ==> t[a].seqNo != t[b].seqNo)
  }

  lemma {:induction false} OldestExists(t: Table)
    requires |t| > 0
    ensures exists s :: IsOldest(t, s)
    decreases |t|
  {
    assert |t.Keys| > 0;
    var s :| s in t.Keys;
    var rest := t - {s};
    assert t.Keys == rest.Keys + {s};
    if |rest| == 0 {
      assert rest.Keys == {};
      assert IsOldest(t, s);
    } else {
      OldestExists(rest);
      var r :| IsOldest(rest, r);
      assert IsOldest(t, if t[s].seqNo <= t[r].seqNo then s else r);
    }
  }

  /** The table after evicting the oldest start over and over until there is room for one more. */
  ghost function EvictDown(t: Table): Table
    decreases |t|
  {
    if |t| < MAX_PENDING then t
    else
      OldestExists(t);
      var s :| IsOldest(t, s);
      assert t.Keys == (t - {s}).Keys + {s};
      EvictDown(t - {s})
  }

  ghost predicate KeepsNewest(t: Table, kept: Table) {
    && kept.Keys <= t.Keys && (forall s :: s in kept ==> kept[s] == t[s])
    && forall gone, k :: gone in t && gone !in kept && k in kept ==> t[gone].seqNo < t[k].seqNo
  }

  lemma KeepsNewestThrough(t: Table, s: string, kept: Table, last: nat)
    requires Numbered(t, last) && IsOldest(t, s) && KeepsNewest(t - {s}, kept)
    ensures KeepsNewest(t, kept)
  {
    forall gone, k | gone in t && gone !in kept && k in kept ensures t[gone].seqNo < t[k].seqNo {
      assert k in t - {s} && k != s;
      if gone != s {
        assert gone in t - {s};
      }
    }
  }

  /** Eviction drops only what it must, and always the older before the newer. */
  lemma {:induction false} EvictDownKeepsNewest(t: Table, last: nat)
    requires Numbered(t, last)
    ensures KeepsNewest(t, EvictDown(t))
    ensures |EvictDown(t)| == if |t| < MAX_PENDING then |t| else MAX_PENDING - 1
    decreases |t|
  {
    if |t| >= MAX_PENDING {
      OldestExists(t);
      var s :| IsOldest(t, s);
      EvictOne(t, s, last);
      EvictDownKeepsNewest(t - {s}, last);
      KeepsNewestThrough(t, s, EvictDown(t - {s}), last);
    }
  }

  lemma OneFewer(t: Table, s: string)
    requires s in t
    ensures |t - {s}| == |t| - 1
  {
    assert t.Keys == (t - {s}).Keys + {s};
  }

  lemma OldestIsUnique(t: Table, a: string, b: string, last: nat)
    requires Numbered(t, last) && IsOldest(t, a) && IsOldest(t, b)
    ensures a == b
  {
  }

  lemma EvictOne(t: Table, s: string, last: nat)
    requires Numbered(t, last) && IsOldest(t, s) && |t| >= MAX_PENDING
    ensures EvictDown(t) == EvictDown(t - {s}) && |t - {s}| == |t| - 1
  {
    OldestExists(t);
    var x :| IsOldest(t, x) && EvictDown(t) == EvictDown(t - {x});
    OldestIsUnique(t, x, s, last);
    OneFewer(t, s);
  }

  class PendingTable {
    var pending: Table
    var seqNo: nat

    ghost predicate Valid()
      reads this
    {
      Numbered(pending, seqNo) && "" !in pending
    }

    constructor ()
      ensures Valid() && pending == map[] && seqNo == 0
    {
      pending, seqNo := map[], 0;
    }

    method PrunePending(now: int)
      requires Valid()
      modifies this`pending
      ensures Valid() && pending == Prune(old(pending), now)
    {
      var todo := pending.Keys;
      while todo != {}
        invariant todo <= old(pending).Keys
        invariant pending == map s | s in old(pending) && (s in todo || now <= old(pending)[s].expires) ::
                               old(pending)[s]
        decreases todo
      {
        var s := Pick(todo);
        todo := todo - {s};
        if now > pending[s].expires {
          pending := pending - {s};
        }
      }
    }

    /** Drops the start with the smallest sequence number. The empty string marks that no
        candidate has been met yet. */
    method EvictOldest()
      requires Valid() && |pending| > 0
      modifies this`pending
      ensures Valid()
      ensures exists s :: IsOldest(old(pending), s) && pending == old(pending) - {s}
    {
      var oldest := "";
      var found := Login(0, 0);
      var todo := pending.Keys;
      assert |todo| > 0;
      while todo != {}
        invariant todo <= pending.Keys && pending == old(pending)
        invariant oldest == "" ==> todo == pending.Keys
        invariant oldest != "" ==> oldest in pending && found == pending[oldest]
        invariant oldest != "" ==> forall x :: x in pending && x !in todo ==> found.seqNo <= pending[x].seqNo
        decreases todo
      {
        var s := Pick(todo);
        todo := todo - {s};
        var login := pending[s];
        if oldest == "" || login.seqNo < found.seqNo {
          oldest, found := s, login;
        }
      }
      assert IsOldest(pending, oldest);
      pending := pending - {oldest};
    }

    /** Records a new start, after pruning and making room. */
    method RecordStart(state: string, now: int)
      requires Valid() && state != ""
      modifies this
      ensures Valid() && seqNo == old(seqNo) + 1
      ensures pending == EvictDown(Prune(old(pending), now))[state := Login(now + LOGIN_STATE_TTL, seqNo)]
      ensures |pending| <= MAX_PENDING
    {
      PrunePending(now);
      while |pending| >= MAX_PENDING
        invariant Valid() && seqNo == old(seqNo)
        invariant EvictDown(pending) == EvictDown(Prune(old(pending), now))
        decreases |pending|
      {
        ghost var before := pending;
        EvictOldest();
        ghost var s :| IsOldest(before, s) && pending == before - {s};
        EvictOne(before, s, seqNo);
      }
      ghost var kept := pending;
      seqNo := seqNo + 1;
      pending := pending[state := Login(now + LOGIN_STATE_TTL, seqNo)];
      assert pending.Keys == kept.Keys + {state};
    }

    /** Looks a callback's state up and consumes it, whether or not the exchange that follows
        succeeds. A callback without a code consumes nothing. */
    method Consume(hasCode: bool, state: string, now: int) returns (ok: bool)
      requires Valid()
      modifies this`pending
      ensures Valid()
      ensures ok <==> hasCode && state in old(pending) && now <= old(pending)[state].expires
      ensures pending == if hasCode then Prune(old(pending), now) - {state} else old(pending)
    {
      if !hasCode {
        return false;
      }
      PrunePending(now);
      ok := state in pending && !(now > pending[state].expires);
      pending := pending - {state};
    }
  }
}
