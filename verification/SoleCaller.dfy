/** An attempt that nothing interrupts: in the protocol, step by step, it does what the provider's
    own sequential operation does. */
module SoleCaller {
  import opened Wrappers
  import opened Clock
  import opened Credential
  import opened CredentialProtocol

  /** The part of a world that an attempt of thread `t` touches. */
  datatype Scene = Scene(vault: Vault, refreshMu: Option<nat>, disk: Tokens, live: nat, thread: Thread)

  ghost predicate Sees(start: World, run: seq<Action>, t: nat, s: Scene) {
    && After(start, run).Some?
    && var w := After(start, run).value;
       && w.vault == s.vault && w.refreshMu == s.refreshMu && w.disk == s.disk && w.platform.refresh == s.live
       && t in w.threads && w.threads[t] == s.thread
  }

  lemma OneStepMore(start: World, run: seq<Action>, t: nat, s: Scene, a: Action)
    requires Sees(start, run, t, s) && Enabled(After(start, run).value, a)
    ensures After(start, run + [a]) == Some(Do(After(start, run).value, a))
  {
    assert (run + [a])[..|run|] == run;
  }

  /** The platform can answer as the round says: a grant is for the live token and carries a pair of
      the same lineage, and an invalid grant is for another. */
  predicate CanAnswer(s: Scene, post: PostReply) {
    match post
    case Issued(pair) =>
      && s.vault.tok.refresh == s.live && pair.access != 0 && pair.refresh != 0
      && pair.lineage == s.vault.tok.lineage
    case InvalidGrant => s.vault.tok.refresh != s.live
    case PostFailed => true
  }

  /** Up to the decision whether the lock is needed. */
  lemma LookFirst(start: World, t: nat, s: Scene, round: Round) returns (run: seq<Action>)
    requires Sees(start, [], t, s) && s.thread.stage.Peek? && s.thread.job.Mint?
    ensures var usable := Usable(s.vault.tok, s.vault.refusedUntil, s.thread.job.retire, round.now);
            Sees(start, run, t, s.(thread := Thread(s.thread.job, if usable then Asking(s.vault.tok) else Waiting)))
  {
    OneStepMore(start, [], t, s, ReadHeld(t));
    run := [] + [ReadHeld(t)];
    var s1 := s.(thread := Thread(s.thread.job, Peeked(s.vault.tok, s.vault.refusedUntil)));
    OneStepMore(start, run, t, s1, DecideHeld(t, round.now));
    run := run + [DecideHeld(t, round.now)];
  }

  /** From there to the decision taken under the lock. */
  lemma LookAgain(start: World, run: seq<Action>, t: nat, s: Scene, round: Round) returns (run': seq<Action>)
    requires Sees(start, run, t, s) && s.thread.stage.Waiting? && s.thread.job.Mint? && s.refreshMu.None?
    ensures var stage := Decided(s.vault, s.thread.job, s.vault.tok, round.later);
            Sees(start, run', t, s.(refreshMu := Some(t), thread := Thread(s.thread.job, stage)))
  {
    OneStepMore(start, run, t, s, TakeLock(t));
    run' := run + [TakeLock(t)];
    var s1 := s.(refreshMu := Some(t), thread := Thread(s.thread.job, Locked));
    OneStepMore(start, run', t, s1, ReadAgain(t));
    run' := run' + [ReadAgain(t)];
    var s2 := s1.(thread := Thread(s.thread.job, Reread(s.vault.tok)));
    OneStepMore(start, run', t, s2, Decide(t, round.later));
    run' := run' + [Decide(t, round.later)];
  }

  /** Out of the lock. */
  lemma LetGo(start: World, run: seq<Action>, t: nat, s: Scene, result: Result) returns (run': seq<Action>)
    requires Sees(start, run, t, s) && s.thread.stage == Unlocking(result)
    ensures var stage := if result.Got? then Asking(result.tok) else Done;
            Sees(start, run', t, s.(refreshMu := None, thread := Thread(s.thread.job, stage)))
  {
    OneStepMore(start, run, t, s, Unlock(t));
    run' := run + [Unlock(t)];
  }

  /** Where a thread stands once the platform has answered. */
  function Answered(post: PostReply): Stage {
    match post
    case Issued(pair) => Granted(pair)
    case InvalidGrant => Rejected
    case PostFailed => Ending(Failed)
  }

  /** The exchange, from its begin to what the platform answered. */
  lemma Post(start: World, run: seq<Action>, t: nat, s: Scene, post: PostReply) returns (run': seq<Action>)
    requires Sees(start, run, t, s) && s.thread.stage.Entering? && s.thread.job.Mint? && CanAnswer(s, post)
    requires s.thread.stage.tok == s.vault.tok && s.vault.tok.refresh != 0
    ensures var live := if post.Issued? then post.pair.refresh else s.live;
            Sees(start, run', t, Scene(BeginExchange(s.vault), s.refreshMu, s.disk, live,
                                       Thread(s.thread.job, Answered(post))))
  {
    OneStepMore(start, run, t, s, Enter(t));
    run' := run + [Enter(t)];
    var posting := Thread(s.thread.job, Posting(s.vault.tok, s.thread.stage.at));
    var s1 := s.(vault := BeginExchange(s.vault), thread := posting);
    var a := match post
             case Issued(p) => Grant(t, p.access, p.refresh, p.accessExpiry, p.refreshExpiry)
             case InvalidGrant => Reject(t)
             case PostFailed => Fail(t);
    OneStepMore(start, run', t, s1, a);
    run' := run' + [a];
  }

  /** What was answered, stored and written. */
  lemma Store(start: World, run: seq<Action>, t: nat, s: Scene, saved: bool) returns (run': seq<Action>)
    requires Sees(start, run, t, s) && s.thread.job.Mint? && (s.thread.stage.Granted? || s.thread.stage.Rejected?)
    ensures var pair := if s.thread.stage.Granted? then s.thread.stage.pair else NoTokens;
            var result := if s.thread.stage.Granted? then Got(pair) else NeedsAuth;
            var vault := if s.thread.stage.Granted? then Adopt(s.vault, pair, false) else Discard(s.vault);
            Sees(start, run', t, Scene(vault, s.refreshMu, if saved then pair else s.disk, s.live,
                                       Thread(s.thread.job, Ending(result))))
  {
    var granted := s.thread.stage.Granted?;
    var pair := if granted then s.thread.stage.pair else NoTokens;
    var a := if granted then AdoptFresh(t) else DiscardHeld(t);
    OneStepMore(start, run, t, s, a);
    run' := run + [a];
    var s1 := s.(vault := if granted then Adopt(s.vault, pair, false) else Discard(s.vault),
                 thread := Thread(s.thread.job, Saving(pair, if granted then Got(pair) else NeedsAuth)));
    OneStepMore(start, run', t, s1, Save(t, saved));
    run' := run' + [Save(t, saved)];
  }

  lemma FinishExchange(start: World, run: seq<Action>, t: nat, s: Scene) returns (run': seq<Action>)
    requires Sees(start, run, t, s) && s.thread.stage.Ending?
    ensures Sees(start, run', t, s.(vault := EndExchange(s.vault),
                                    thread := Thread(s.thread.job, Unlocking(s.thread.stage.result))))
  {
    OneStepMore(start, run, t, s, Leave(t));
    run' := run + [Leave(t)];
  }

  /** A refresh, from the decision to the end of the exchange. */
  lemma RefreshAlone(start: World, run: seq<Action>, t: nat, s: Scene, round: Round)
    returns (run': seq<Action>, live: nat, result: Result)
    requires Sees(start, run, t, s) && s.thread.stage.Entering? && s.thread.job.Mint? && CanAnswer(s, round.post)
    requires s.thread.stage.tok == s.vault.tok && s.vault.tok.refresh != 0
    ensures Sees(start, run', t, Scene(Refreshed(s.vault, round.post), s.refreshMu,
                                       DiskAfter(s.disk, round.post, round.saved), live,
                                       Thread(s.thread.job, Unlocking(result))))
    ensures if round.post.Issued? then result == Got(round.post.pair) else !result.Got?
  {
    var post := round.post;
    run' := Post(start, run, t, s, post);
    live := if post.Issued? then post.pair.refresh else s.live;
    var s1 := Scene(BeginExchange(s.vault), s.refreshMu, s.disk, live, Thread(s.thread.job, Answered(post)));
    if post.PostFailed? {
      result := Failed;
      run' := FinishExchange(start, run', t, s1);
    } else {
      run' := Store(start, run', t, s1, round.saved);
      var pair := if post.Issued? then post.pair else NoTokens;
      var vault := if post.Issued? then Adopt(s1.vault, pair, false) else Discard(s1.vault);
      result := if post.Issued? then Got(pair) else NeedsAuth;
      var disk := if round.saved then pair else s.disk;
      var s2 := Scene(vault, s.refreshMu, disk, live, Thread(s.thread.job, Ending(result)));
      run' := FinishExchange(start, run', t, s2);
    }
  }

  /** The file after an exchange. */
  function DiskAfter(disk: Tokens, post: PostReply, saved: bool): Tokens {
    if !saved || post.PostFailed? then disk else if post.Issued? then post.pair else NoTokens
  }

  /** An attempt alone ends with the credential, the file and the token that the provider's
      sequential operation promises. */
  lemma AttemptAlone(start: World, t: nat, round: Round) returns (run: seq<Action>)
    requires t in start.threads && start.threads[t].stage.Peek? && start.threads[t].job.Mint? && start.refreshMu.None?
    requires CanAnswer(Scene(start.vault, None, start.disk, start.platform.refresh, start.threads[t]), round.post)
    ensures After(start, run).Some? && t in After(start, run).value.threads
    ensures var w, retire := After(start, run).value, start.threads[t].job.retire;
            var token, stage := TokenFor(start.vault, retire, round), w.threads[t].stage;
            && w.vault == AfterAttempt(start.vault, retire, round) && w.refreshMu.None?
            && w.disk == (if Posts(start.vault, retire, round) then DiskAfter(start.disk, round.post, round.saved)
                          else start.disk)
            && if token.Some? then stage.Asking? && stage.used.access == token.value else stage.Done?
  {
    var v, job := start.vault, start.threads[t].job;
    var s := Scene(v, None, start.disk, start.platform.refresh, start.threads[t]);
    run := LookFirst(start, t, s, round);
    if !Usable(v.tok, v.refusedUntil, job.retire, round.now) {
      var s1 := s.(thread := Thread(job, Waiting));
      run := LookAgain(start, run, t, s1, round);
      var stage := Decided(v, job, v.tok, round.later);
      var s2 := s.(refreshMu := Some(t), thread := Thread(job, stage));
      if stage.Entering? {
        var live, result;
        run, live, result := RefreshAlone(start, run, t, s2, round);
        var s3 := Scene(Refreshed(v, round.post), Some(t), DiskAfter(start.disk, round.post, round.saved), live,
                        Thread(job, Unlocking(result)));
        run := LetGo(start, run, t, s3, result);
      } else {
        run := LetGo(start, run, t, s2, stage.result);
      }
    }
  }

  /** A code exchange up to what the platform answered; it grants any code exchange. */
  lemma LoginPosts(start: World, t: nat, s: Scene, post: PostReply) returns (run: seq<Action>)
    requires Sees(start, [], t, s) && s.thread == Thread(Login, Waiting) && s.refreshMu.None?
    requires !post.InvalidGrant?
    requires post.Issued? ==>
               post.pair.access != 0 && post.pair.refresh != 0 && post.pair.lineage == start.platform.lineages
    ensures var live := if post.Issued? then post.pair.refresh else s.live;
            Sees(start, run, t, Scene(BeginExchange(s.vault), Some(t), s.disk, live, Thread(Login, Answered(post))))
  {
    OneStepMore(start, [], t, s, TakeLock(t));
    run := [] + [TakeLock(t)];
    var s1 := s.(refreshMu := Some(t), thread := Thread(Login, Locked));
    OneStepMore(start, run, t, s1, Enter(t));
    run := run + [Enter(t)];
    var s2 := s1.(vault := BeginExchange(s.vault), thread := Thread(Login, Posting(NoTokens, 0)));
    var a := match post
             case Issued(p) => Grant(t, p.access, p.refresh, p.accessExpiry, p.refreshExpiry)
             case _ => Fail(t);
    assert After(start, run).value.platform.lineages == start.platform.lineages;
    OneStepMore(start, run, t, s2, a);
    run := run + [a];
  }

  /** A new pair taken in a new generation, and written. */
  lemma LoginStores(start: World, run: seq<Action>, t: nat, s: Scene, saved: bool) returns (run': seq<Action>)
    requires Sees(start, run, t, s) && s.thread.job.Login? && s.thread.stage.Granted?
    ensures var pair := s.thread.stage.pair;
            Sees(start, run', t, Scene(Adopt(s.vault, pair, true), s.refreshMu, if saved then pair else s.disk, s.live,
                                       Thread(Login, Ending(LoggedIn))))
  {
    var pair := s.thread.stage.pair;
    OneStepMore(start, run, t, s, AdoptFresh(t));
    run' := run + [AdoptFresh(t)];
    var s1 := s.(vault := Adopt(s.vault, pair, true), thread := Thread(Login, Saving(pair, LoggedIn)));
    OneStepMore(start, run', t, s1, Save(t, saved));
    run' := run' + [Save(t, saved)];
  }

  /** A login alone leaves the credential and the file as the provider's code exchange does, and so
      lifts any refusal of the one before. */
  lemma LoginAlone(start: World, t: nat, post: PostReply, saved: bool) returns (run: seq<Action>)
    requires t in start.threads && start.threads[t] == Thread(Login, Waiting) && start.refreshMu.None?
    requires !post.InvalidGrant?
    requires post.Issued? ==>
               post.pair.access != 0 && post.pair.refresh != 0 && post.pair.lineage == start.platform.lineages
    ensures After(start, run).Some? && t in After(start, run).value.threads
    ensures var w := After(start, run).value;
            && w.vault == (if post.Issued? then Adopt(start.vault, post.pair, true) else start.vault)
            && w.disk == DiskAfter(start.disk, post, saved) && w.refreshMu.None? && w.threads[t].stage.Done?
            && (post.Issued? ==> w.vault.refusedUntil.None? && w.vault.gen == start.vault.gen + 1)
  {
    var s := Scene(start.vault, None, start.disk, start.platform.refresh, start.threads[t]);
    run := LoginPosts(start, t, s, post);
    var live := if post.Issued? then post.pair.refresh else s.live;
    var s1 := Scene(BeginExchange(s.vault), Some(t), s.disk, live, Thread(Login, Answered(post)));
    var result := if post.Issued? then LoggedIn else Failed;
    var s2 := s1;
    if post.Issued? {
      run := LoginStores(start, run, t, s1, saved);
      var disk := if saved then post.pair else s.disk;
      s2 := Scene(Adopt(s1.vault, post.pair, true), Some(t), disk, live, Thread(Login, Ending(LoggedIn)));
    }
    run := FinishExchange(start, run, t, s2);
    var s3 := s2.(vault := EndExchange(s2.vault), thread := Thread(Login, Unlocking(result)));
    run := LetGo(start, run, t, s3, result);
  }
}
