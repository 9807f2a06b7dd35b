/** Many minters and authorizers sharing one rotating credential, as a transition system.

    A thread holds `refreshMu` from before it re-reads the credential until after it has
    persisted what the platform gave it; every touch of the credential itself is one short
    critical section of `mu` and so one step. The platform keeps one live refresh token and
    retires it on each grant. Clock readings are parameters of the steps that take them and may
    be any times at all.

    Three history flags record the environment: `loyal` is lost when the platform revokes the
    credential or a response to a grant is not read back, `saved` when a write fails, `unique`
    when the platform hands out a token it handed out before. */
module CredentialProtocol {
  import opened Wrappers
  import opened Clock
  import opened Credential

  /** A mint carries the generation it started in, which of its two attempts it is on, and the
      access token the first attempt saw refused (0 for none). */
  datatype Job = Mint(gen: nat, attempt: nat, retire: nat) | Login

  datatype Result = Got(tok: Tokens) | NeedsAuth | Failed | LoggedIn

  datatype Stage =
    | Peek                                              // about to read the held token
    | Peeked(tok: Tokens, refusedUntil: Option<int>)    // about to read the clock and decide
    | Waiting                                           // for refreshMu
    | Locked                                            // holds refreshMu from here ...
    | Reread(tok: Tokens)
    | Entering(tok: Tokens, at: int)                    // a refresh is needed, decided at this time
    | Posting(tok: Tokens, at: int)                     // inside the exchange bracket from here ...
    | Granted(pair: Tokens)
    | Rejected
    | Saving(tok: Tokens, result: Result)               // memory updated, file not yet
    | Ending(result: Result)                            // ... to here
    | Unlocking(result: Result)                         // ... to here
    | Asking(used: Tokens)                              // about to ask for a chat URL
    | Refused(used: Tokens)                             // about to hold off
    | Done

  datatype Thread = Thread(job: Job, stage: Stage)

  datatype Platform = Platform(refresh: nat, lineages: nat, issuedAccess: set<nat>, issuedRefresh: set<nat>)

  /** `rotations` is a history of the rotations that only a refusal accounts for, by the access
      token refused. */
  datatype World = World(vault: Vault, refreshMu: Option<nat>, disk: Tokens, platform: Platform,
                         threads: map<nat, Thread>, rotations: multiset<nat>,
                         loyal: bool, saved: bool, unique: bool)

  datatype Action =
    | StartMint(t: nat)
    | StartLogin(t: nat)
    | ReadHeld(t: nat)
    | DecideHeld(t: nat, now: int)
    | TakeLock(t: nat)
    | ReadAgain(t: nat)
    | Decide(t: nat, now: int)
    | Enter(t: nat)
    | Grant(t: nat, access: nat, refresh: nat, accessExpiry: int, refreshExpiry: Option<int>)
    | Reject(t: nat)
    | Fail(t: nat)
    | LoseGrant(t: nat, refresh: nat)
    | Revoke
    | AdoptFresh(t: nat)
    | DiscardHeld(t: nat)
    | Save(t: nat, ok: bool)
    | Leave(t: nat)
    | Unlock(t: nat)
    | Answer(t: nat, reply: Reply)
    | HoldBack(t: nat, now: int)

  /** A server started on a file holding `disk`, readable or not, with the platform's live
      refresh token `live`. */
  function Start(disk: Tokens, readable: bool, live: nat): World {
    var tok := if readable then disk else NoTokens;
    World(Vault(tok, None, 0, 0), None, disk,
          Platform(live, tok.lineage + 1, {0, tok.access}, {0, tok.refresh, live}),
          map[], multiset{}, tok.refresh == 0 || tok.refresh == live, tok == disk, true)
  }

  /** A rotation that only a refusal can account for: its thread saw a token refused, and what it
      spends is that token or one still fresh when it decided to. */
  predicate Booked(job: Job, tok: Tokens, at: int) {
    && job.Mint? && job.retire != 0
    && (tok.access == job.retire || (tok.access != 0 && at + 2 * MINUTE < tok.accessExpiry))
  }

  /** The platform grants a code exchange, and a refresh with its live token. */
  predicate WouldGrant(w: World, th: Thread) {
    th.stage.Posting? && (th.job.Login? || (th.stage.tok.refresh != 0 && th.stage.tok.refresh == w.platform.refresh))
  }

  predicate StageAllows(w: World, th: Thread, a: Action) {
    match a
    case ReadHeld(_) => th.stage.Peek?
    case DecideHeld(_, _) => th.stage.Peeked? && th.job.Mint?
    case TakeLock(_) => th.stage.Waiting? && w.refreshMu.None?
    case ReadAgain(_) => th.stage.Locked? && th.job.Mint?
    case Decide(_, _) => th.stage.Reread? && th.job.Mint?
    case Enter(_) => th.stage.Entering? || (th.stage.Locked? && th.job.Login?)
    case Grant(_, access, refresh, _, _) => WouldGrant(w, th) && access != 0 && refresh != 0
    case Reject(_) => th.stage.Posting? && !WouldGrant(w, th)
    case Fail(_) => th.stage.Posting?
    case LoseGrant(_, refresh) => WouldGrant(w, th) && refresh != 0
    case AdoptFresh(_) => th.stage.Granted?
    case DiscardHeld(_) => th.stage.Rejected?
    case Save(_, _) => th.stage.Saving?
    case Leave(_) => th.stage.Ending?
    case Unlock(_) => th.stage.Unlocking?
    case Answer(_, _) => th.stage.Asking? && th.job.Mint?
    case HoldBack(_, _) => th.stage.Refused? && th.job.Mint?
    case _ => false
  }

  predicate Enabled(w: World, a: Action) {
    match a
    case StartMint(t) => t !in w.threads
    case StartLogin(t) => t !in w.threads
    case Revoke => true
    case _ => a.t in w.threads && StageAllows(w, w.threads[a.t], a)
  }

  /** The decision a minter takes under refreshMu. */
  function Decided(v: Vault, job: Job, tok: Tokens, now: int): Stage
    requires job.Mint?
  {
    if !ValidAt(tok, now) || HeldOff(v.refusedUntil, now) then Unlocking(NeedsAuth)
    else if !Retires(job.retire, tok) && FreshEnough(tok, now) then Unlocking(Got(tok))
    else Entering(tok, now)
  }

  function Issue(p: Platform, access: nat, refresh: nat, job: Job): Platform {
    Platform(refresh, if job.Login? then p.lineages + 1 else p.lineages,
             p.issuedAccess + {access}, p.issuedRefresh + {refresh})
  }

  /** The pair a grant hands out: a refresh keeps the lineage of the pair it spends, a code
      exchange begins a new one. */
  function Fresh(w: World, th: Thread, a: Action): Tokens
    requires a.Grant? && th.stage.Posting?
  {
    Tokens(a.access, a.refresh, a.accessExpiry, a.refreshExpiry,
           if th.job.Login? then w.platform.lineages else th.stage.tok.lineage)
  }

  function AfterAnswer(job: Job, used: Tokens, reply: Reply): Thread
    requires job.Mint?
  {
    match reply
    case Served => Thread(job, Done)
    case OtherError => Thread(job, Done)
    case Forbidden => Thread(job, Refused(used))
    case Unauthorized =>
      if job.attempt == 1 then Thread(Mint(job.gen, 2, used.access), Peek) else Thread(job, Refused(used))
  }

  /** The acting thread after its step. */
  function Moved(w: World, th: Thread, a: Action): Thread
    requires StageAllows(w, th, a)
  {
    match a
    case ReadHeld(_) => th.(stage := Peeked(w.vault.tok, w.vault.refusedUntil))
    case DecideHeld(_, now) =>
      th.(stage := if Usable(th.stage.tok, th.stage.refusedUntil, th.job.retire, now)
                   then Asking(th.stage.tok)
                   else Waiting)
    case TakeLock(_) => th.(stage := Locked)
    case ReadAgain(_) => th.(stage := Reread(w.vault.tok))
    case Decide(_, now) => th.(stage := Decided(w.vault, th.job, th.stage.tok, now))
    case Enter(_) =>
      th.(stage := if th.stage.Entering? then Posting(th.stage.tok, th.stage.at) else Posting(NoTokens, 0))
    case Grant(_, _, _, _, _) => th.(stage := Granted(Fresh(w, th, a)))
    case Reject(_) => th.(stage := if th.job.Mint? then Rejected else Ending(Failed))
    case Fail(_) => th.(stage := Ending(Failed))
    case LoseGrant(_, _) => th.(stage := Ending(Failed))
    case AdoptFresh(_) => th.(stage := Saving(th.stage.pair, if th.job.Login? then LoggedIn else Got(th.stage.pair)))
    case DiscardHeld(_) => th.(stage := Saving(NoTokens, NeedsAuth))
    case Save(_, _) => th.(stage := Ending(th.stage.result))
    case Leave(_) => th.(stage := Unlocking(th.stage.result))
    case Unlock(_) => th.(stage := if th.stage.result.Got? then Asking(th.stage.result.tok) else Done)
    case Answer(_, reply) => AfterAnswer(th.job, th.stage.used, reply)
    case HoldBack(_, _) => th.(stage := Done)
  }

  /** The thread's grant, booked under the token it saw refused. */
  function RotationsAfter(w: World, th: Thread): multiset<nat>
    requires th.stage.Posting?
  {
    if Booked(th.job, th.stage.tok, th.stage.at) then w.rotations + multiset{th.job.retire} else w.rotations
  }

  /** What a thread's step does to everything but the thread. */
  function Around(w: World, th: Thread, a: Action): World
    requires StageAllows(w, th, a)
  {
    match a
    case TakeLock(t) => w.(refreshMu := Some(t))
    case Enter(_) => w.(vault := BeginExchange(w.vault))
    case Grant(_, access, refresh, _, _) =>
      w.(platform := Issue(w.platform, access, refresh, th.job),
         unique := w.unique && access !in w.platform.issuedAccess && refresh !in w.platform.issuedRefresh,
         rotations := RotationsAfter(w, th))
    case LoseGrant(_, refresh) =>
      w.(platform := Issue(w.platform, 0, refresh, th.job), loyal := false,
         unique := w.unique && refresh !in w.platform.issuedRefresh,
         rotations := RotationsAfter(w, th))
    case AdoptFresh(_) => w.(vault := Adopt(w.vault, th.stage.pair, th.job.Login?))
    case DiscardHeld(_) => w.(vault := Discard(w.vault))
    case Save(_, ok) => w.(disk := if ok then th.stage.tok else w.disk, saved := w.saved && ok)
    case Leave(_) => w.(vault := EndExchange(w.vault))
    case Unlock(_) => w.(refreshMu := None)
    case HoldBack(_, now) => w.(vault := HoldOff(w.vault, th.job.gen, now))
    case _ => w
  }

  function Do(w: World, a: Action): World
    requires Enabled(w, a)
  {
    match a
    case StartMint(t) => w.(threads := w.threads[t := Thread(Mint(w.vault.gen, 1, 0), Peek)])
    case StartLogin(t) => w.(threads := w.threads[t := Thread(Login, Waiting)])
    case Revoke => w.(platform := w.platform.(refresh := 0), loyal := false)
    case _ =>
      var th := w.threads[a.t];
      Around(w, th, a).(threads := w.threads[a.t := Moved(w, th, a)])
  }

  /** The state after a run of actions, or None when one of them was not enabled. */
  function After(start: World, run: seq<Action>): Option<World> {
    if run == [] then Some(start)
    else
      match After(start, run[..|run| - 1])
      case None => None
      case Some(w) => if Enabled(w, run[|run| - 1]) then Some(Do(w, run[|run| - 1])) else None
  }

  // ---------------------------------------------------------------- the invariant

  predicate Holding(s: Stage) {
    !s.Peek? && !s.Peeked? && !s.Waiting? && !s.Asking? && !s.Refused? && !s.Done?
  }

  predicate Bracketed(s: Stage) { s.Posting? || s.Granted? || s.Rejected? || s.Saving? || s.Ending? }

  /** The token a thread was handed and means to use. */
  function Using(s: Stage): Option<Tokens> {
    match s
    case Asking(used) => Some(used)
    case Refused(used) => Some(used)
    case Saving(_, r) => if r.Got? then Some(r.tok) else None
    case Ending(r) => if r.Got? then Some(r.tok) else None
    case Unlocking(r) => if r.Got? then Some(r.tok) else None
    case _ => None
  }

  /** Two pairs of one authorization, unless one of them is empty. */
  predicate Akin(a: Tokens, b: Tokens) { a.refresh == 0 || b.refresh == 0 || a.lineage == b.lineage }

  ghost predicate UsingOk(w: World, job: Job, tok: Tokens) {
    && job.Mint? && tok.refresh != 0 && tok.access != 0
    && (job.gen == w.vault.gen ==> Akin(tok, w.vault.tok))
    && (w.unique ==> tok.access in w.platform.issuedAccess && tok.access != job.retire)
  }

  ghost predicate ThreadOk(w: World, th: Thread) {
    && (th.job.Mint? ==> th.job.gen <= w.vault.gen && (w.unique ==> th.job.retire in w.platform.issuedAccess))
    && (th.job.Login? ==> th.stage.Waiting? || Holding(th.stage) || th.stage.Done?)
    && (th.stage.Peeked? ==>
          && (th.job.Mint? && th.job.gen == w.vault.gen ==> Akin(th.stage.tok, w.vault.tok))
          && (w.unique ==> th.stage.tok.access in w.platform.issuedAccess))
    && (Using(th.stage).Some? ==> UsingOk(w, th.job, Using(th.stage).value))
  }

  /** The token is the one the thread saw refused, or was not fresh at the time it decided. */
  predicate Needed(job: Job, tok: Tokens, at: int)
    requires job.Mint?
  {
    || (job.retire != 0 && tok.access == job.retire)
    || tok.access == 0 || tok.accessExpiry <= at + 2 * MINUTE
  }

  /** What holds of the thread inside refreshMu, at each of its stages. */
  ghost predicate HolderOk(w: World, th: Thread) {
    match th.stage
    case Locked => true
    case Reread(tok) => th.job.Mint? && tok == w.vault.tok
    case Entering(tok, at) => th.job.Mint? && tok == w.vault.tok && tok.refresh != 0 && Needed(th.job, tok, at)
    case Posting(tok, at) => th.job.Mint? ==> tok == w.vault.tok && tok.refresh != 0 && Needed(th.job, tok, at)
    case Granted(pair) =>
      && pair.refresh != 0 && pair.access != 0
      && (w.loyal ==> pair.refresh == w.platform.refresh)
      && (th.job.Mint? ==> w.vault.tok.refresh != 0 && pair.lineage == w.vault.tok.lineage)
      && (w.unique ==> pair.access in w.platform.issuedAccess && w.rotations[pair.access] == 0
                       && pair.refresh in w.platform.issuedRefresh)
      && (w.unique && th.job.Mint? ==> pair.access != th.job.retire)
    case Rejected => th.job.Mint? && !w.loyal
    case Saving(tok, _) => tok == w.vault.tok
    case Ending(_) => true
    case Unlocking(_) => true
    case _ => false
  }

  ghost predicate LockInv(w: World) {
    && (forall t :: t in w.threads && Holding(w.threads[t].stage) ==> w.refreshMu == Some(t))
    && (w.refreshMu.Some? ==> w.refreshMu.value in w.threads && HolderOk(w, w.threads[w.refreshMu.value]))
    && w.vault.calls == if w.refreshMu.Some? && Bracketed(w.threads[w.refreshMu.value].stage) then 1 else 0
  }

  predicate MidAdoption(w: World) {
    w.refreshMu.Some? && w.refreshMu.value in w.threads && w.threads[w.refreshMu.value].stage.Granted?
  }

  predicate MidSave(w: World) {
    w.refreshMu.Some? && w.refreshMu.value in w.threads && w.threads[w.refreshMu.value].stage.Saving?
  }

  /** While the platform is loyal the held refresh token is its live one, except between a grant
      and its adoption. */
  ghost predicate LiveInv(w: World) {
    w.loyal && !MidAdoption(w) ==> w.vault.tok.refresh == 0 || w.vault.tok.refresh == w.platform.refresh
  }

  /** The file holds what memory holds, except between an adoption and its save. */
  ghost predicate DiskInv(w: World) {
    w.saved && !MidSave(w) ==> w.disk == w.vault.tok
  }

  ghost predicate RotationInv(w: World) {
    w.unique ==>
      && 0 in w.platform.issuedAccess && 0 in w.platform.issuedRefresh
      && w.vault.tok.access in w.platform.issuedAccess
      && w.vault.tok.refresh in w.platform.issuedRefresh
      && w.platform.refresh in w.platform.issuedRefresh
      && forall a :: a in w.rotations ==>
           && w.rotations[a] == 1 && a != 0 && a in w.platform.issuedAccess
           && (w.vault.tok.access == a ==> w.vault.tok.refresh != 0 && w.vault.tok.refresh != w.platform.refresh)
  }

  ghost predicate ThreadsOk(w: World) { forall t :: t in w.threads ==> ThreadOk(w, w.threads[t]) }

  ghost predicate Inv(w: World) {
    LockInv(w) && LiveInv(w) && DiskInv(w) && RotationInv(w) && ThreadsOk(w)
  }

  lemma StartInv(disk: Tokens, readable: bool, live: nat)
    ensures Inv(Start(disk, readable, live))
  {
  }

  // ---------------------------------------------------------------- every step

  /** How the world may change under a thread that is not acting. */
  ghost predicate Evolves(w: World, w': World) {
    && w.vault.gen <= w'.vault.gen
    && (w'.unique ==> w.unique)
    && w.platform.issuedAccess <= w'.platform.issuedAccess
    && (w'.vault.gen == w.vault.gen ==>
          w'.vault.tok.refresh == 0
          || (w.vault.tok.refresh != 0 && w'.vault.tok.lineage == w.vault.tok.lineage))
  }

  lemma ThreadSurvives(w: World, w': World, th: Thread)
    requires ThreadOk(w, th) && Evolves(w, w')
    ensures ThreadOk(w', th)
  {
  }

  predicate IsThreadStep(a: Action) { !a.StartMint? && !a.StartLogin? && !a.Revoke? }

  /** A thread steps inside refreshMu exactly when it holds it. */
  lemma HolderSteps(w: World, t: nat)
    requires LockInv(w) && t in w.threads
    ensures Holding(w.threads[t].stage) <==> w.refreshMu == Some(t)
    ensures w.refreshMu == Some(t) ==> HolderOk(w, w.threads[t])
    ensures w.refreshMu == Some(t) ==> forall x :: x in w.threads && x != t ==> !Holding(w.threads[x].stage)
  {
  }

  /** Steps that take nothing and change nothing but the thread. */
  predicate IsQuiet(a: Action) {
    a.ReadHeld? || a.DecideHeld? || a.ReadAgain? || a.Decide? || a.Reject? || a.Fail? || a.Answer?
  }

  /** A thread's step keeps the invariant once its own part and the world's part are shown. */
  lemma Assemble(w: World, a: Action)
    requires Inv(w) && IsThreadStep(a) && Enabled(w, a)
    requires Evolves(w, Do(w, a)) && ThreadOk(Do(w, a), Do(w, a).threads[a.t])
    ensures ThreadsOk(Do(w, a))
  {
    var w' := Do(w, a);
    forall t | t in w'.threads ensures ThreadOk(w', w'.threads[t]) {
      if t != a.t {
        ThreadSurvives(w, w', w.threads[t]);
      }
    }
  }

  /** A quiet step leaves its thread sound where it was and where it now stands. */
  lemma QuietStepKeepsThread(w: World, th: Thread, a: Action)
    requires ThreadOk(w, th) && StageAllows(w, th, a) && IsQuiet(a)
    requires Holding(th.stage) ==> HolderOk(w, th)
    requires w.unique ==> w.vault.tok.access in w.platform.issuedAccess
    ensures ThreadOk(w, Moved(w, th, a))
    ensures Holding(Moved(w, th, a).stage) <==> Holding(th.stage)
    ensures Bracketed(Moved(w, th, a).stage) <==> Bracketed(th.stage)
  {
  }

  lemma QuietStepKeepsHolder(w: World, th: Thread, a: Action)
    requires StageAllows(w, th, a) && IsQuiet(a) && Holding(th.stage) && HolderOk(w, th)
    requires w.loyal ==> w.vault.tok.refresh == 0 || w.vault.tok.refresh == w.platform.refresh
    ensures HolderOk(w, Moved(w, th, a))
    ensures !Moved(w, th, a).stage.Granted? && !Moved(w, th, a).stage.Saving?
  {
  }

  lemma QuietStepKeepsInv(w: World, a: Action)
    requires Inv(w) && Enabled(w, a) && IsQuiet(a)
    ensures Inv(Do(w, a))
  {
    var th := w.threads[a.t];
    HolderSteps(w, a.t);
    assert ThreadOk(w, th);
    QuietStepKeepsThread(w, th, a);
    if Holding(th.stage) {
      QuietStepKeepsHolder(w, th, a);
    }
    QuietStepMovesThread(w, a);
    OnlyThreadMoved(w, a.t, Moved(w, th, a));
  }

  lemma QuietStepMovesThread(w: World, a: Action)
    requires Enabled(w, a) && IsQuiet(a)
    ensures a.t in w.threads && StageAllows(w, w.threads[a.t], a)
    ensures Do(w, a) == w.(threads := w.threads[a.t := Moved(w, w.threads[a.t], a)])
  {
  }

  /** Moving one thread, with everything around it unchanged, keeps the invariant when the
      thread stays on its side of the lock and of the bracket. */
  lemma OnlyThreadMoved(w: World, t: nat, th: Thread)
    requires Inv(w) && t in w.threads && ThreadOk(w, th)
    requires Holding(th.stage) <==> Holding(w.threads[t].stage)
    requires Bracketed(th.stage) <==> Bracketed(w.threads[t].stage)
    requires Holding(th.stage) ==>
               && HolderOk(w, th) && !th.stage.Granted? && !th.stage.Saving?
               && !w.threads[t].stage.Granted? && !w.threads[t].stage.Saving?
    ensures Inv(w.(threads := w.threads[t := th]))
  {
    var w' := w.(threads := w.threads[t := th]);
    HolderSteps(w, t);
    forall x | x in w'.threads ensures ThreadOk(w', w'.threads[x]) {
      if x != t {
        assert ThreadOk(w, w.threads[x]);
      }
    }
  }

  lemma TakeLockKeepsInv(w: World, t: nat)
    requires Inv(w) && Enabled(w, TakeLock(t))
    ensures Inv(Do(w, TakeLock(t)))
  {
    HolderSteps(w, t);
    assert ThreadOk(w, w.threads[t]);
    Assemble(w, TakeLock(t));
  }

  lemma UnlockKeepsInv(w: World, t: nat)
    requires Inv(w) && Enabled(w, Unlock(t))
    ensures Inv(Do(w, Unlock(t)))
  {
    HolderSteps(w, t);
    assert ThreadOk(w, w.threads[t]);
    Assemble(w, Unlock(t));
  }

  lemma EnterKeepsInv(w: World, t: nat)
    requires Inv(w) && Enabled(w, Enter(t))
    ensures Inv(Do(w, Enter(t)))
  {
    HolderSteps(w, t);
    assert ThreadOk(w, w.threads[t]);
    Assemble(w, Enter(t));
  }

  lemma LeaveKeepsInv(w: World, t: nat)
    requires Inv(w) && Enabled(w, Leave(t))
    ensures Inv(Do(w, Leave(t)))
  {
    HolderSteps(w, t);
    assert ThreadOk(w, w.threads[t]);
    Assemble(w, Leave(t));
  }

  lemma AdoptFreshKeepsInv(w: World, t: nat)
    requires Inv(w) && Enabled(w, AdoptFresh(t))
    ensures Inv(Do(w, AdoptFresh(t)))
  {
    HolderSteps(w, t);
    assert ThreadOk(w, w.threads[t]);
    Assemble(w, AdoptFresh(t));
  }

  lemma DiscardHeldKeepsInv(w: World, t: nat)
    requires Inv(w) && Enabled(w, DiscardHeld(t))
    ensures Inv(Do(w, DiscardHeld(t)))
  {
    HolderSteps(w, t);
    assert ThreadOk(w, w.threads[t]);
    Assemble(w, DiscardHeld(t));
  }

  lemma SaveKeepsInv(w: World, t: nat, ok: bool)
    requires Inv(w) && Enabled(w, Save(t, ok))
    ensures Inv(Do(w, Save(t, ok)))
  {
    HolderSteps(w, t);
    assert ThreadOk(w, w.threads[t]);
    Assemble(w, Save(t, ok));
  }

  /** No part of the invariant is about the cooldown. */
  lemma CooldownIsFree(w: World, until: Option<int>)
    requires Inv(w)
    ensures Inv(w.(vault := w.vault.(refusedUntil := until)))
  {
    var w' := w.(vault := w.vault.(refusedUntil := until));
    forall t | t in w'.threads ensures ThreadOk(w', w'.threads[t]) {
      ThreadSurvives(w, w', w.threads[t]);
    }
  }

  lemma HoldBackKeepsInv(w: World, t: nat, now: int)
    requires Inv(w) && Enabled(w, HoldBack(t, now))
    ensures Inv(Do(w, HoldBack(t, now)))
  {
    var v := w.(vault := HoldOff(w.vault, w.threads[t].job.gen, now));
    CooldownIsFree(w, v.vault.refusedUntil);
    OnlyThreadMoved(v, t, w.threads[t].(stage := Done));
  }

  lemma LoseGrantKeepsInv(w: World, t: nat, refresh: nat)
    requires Inv(w) && Enabled(w, LoseGrant(t, refresh))
    ensures Inv(Do(w, LoseGrant(t, refresh)))
  {
    HolderSteps(w, t);
    assert ThreadOk(w, w.threads[t]);
    Assemble(w, LoseGrant(t, refresh));
  }

  lemma GrantKeepsInv(w: World, t: nat, access: nat, refresh: nat, accessExpiry: int, refreshExpiry: Option<int>)
    requires Inv(w) && Enabled(w, Grant(t, access, refresh, accessExpiry, refreshExpiry))
    ensures Inv(Do(w, Grant(t, access, refresh, accessExpiry, refreshExpiry)))
  {
    HolderSteps(w, t);
    assert ThreadOk(w, w.threads[t]);
    Assemble(w, Grant(t, access, refresh, accessExpiry, refreshExpiry));
  }

  lemma StartStepKeepsInv(w: World, a: Action)
    requires Inv(w) && Enabled(w, a) && !IsThreadStep(a)
    ensures Inv(Do(w, a))
  {
    var w' := Do(w, a);
    forall t | t in w'.threads ensures ThreadOk(w', w'.threads[t]) {
      if t in w.threads {
        ThreadSurvives(w, w', w.threads[t]);
      }
    }
  }

  /** The steps of the exchange bracket. */
  predicate Exchanges(a: Action) {
    a.Enter? || a.Leave? || a.Grant? || a.LoseGrant? || a.AdoptFresh? || a.DiscardHeld? || a.Save?
  }

  lemma ExchangeStepKeepsInv(w: World, a: Action)
    requires Inv(w) && Enabled(w, a) && Exchanges(a)
    ensures Inv(Do(w, a))
  {
    match a
    case Enter(t) => EnterKeepsInv(w, t);
    case Leave(t) => LeaveKeepsInv(w, t);
    case AdoptFresh(t) => AdoptFreshKeepsInv(w, t);
    case DiscardHeld(t) => DiscardHeldKeepsInv(w, t);
    case Save(t, ok) => SaveKeepsInv(w, t, ok);
    case LoseGrant(t, refresh) => LoseGrantKeepsInv(w, t, refresh);
    case Grant(t, access, refresh, accessExpiry, refreshExpiry) =>
      GrantKeepsInv(w, t, access, refresh, accessExpiry, refreshExpiry);
  }

  lemma InvKept(w: World, a: Action)
    requires Inv(w) && Enabled(w, a)
    ensures Inv(Do(w, a))
  {
    if !IsThreadStep(a) {
      StartStepKeepsInv(w, a);
    } else if IsQuiet(a) {
      QuietStepKeepsInv(w, a);
    } else if Exchanges(a) {
      ExchangeStepKeepsInv(w, a);
    } else {
      match a
      case TakeLock(t) => TakeLockKeepsInv(w, t);
      case Unlock(t) => UnlockKeepsInv(w, t);
      case HoldBack(t, now) => HoldBackKeepsInv(w, t, now);
    }
  }

  // ---------------------------------------------------------------- over whole runs

  lemma {:induction false} RunKeepsInv(start: World, run: seq<Action>)
    requires Inv(start) && After(start, run).Some?
    ensures Inv(After(start, run).value)
  {
    if run != [] {
      RunKeepsInv(start, run[..|run| - 1]);
      InvKept(After(start, run[..|run| - 1]).value, run[|run| - 1]);
    }
  }

  /** The access tokens and the refresh tokens that the platform has handed out by the end of a run,
      those on file at the start and the empty one included. */
  function HandedOut(start: World, run: seq<Action>): (set<nat>, set<nat>) {
    if run == [] then (start.platform.issuedAccess, start.platform.issuedRefresh)
    else
      var (access, refresh) := HandedOut(start, run[..|run| - 1]);
      var a := run[|run| - 1];
      (access + (if a.Grant? then {a.access} else if a.LoseGrant? then {0} else {}),
       refresh + (if a.Grant? || a.LoseGrant? then {a.refresh} else {}))
  }

  /** The run hands out no token twice. */
  function HandsOutOnce(start: World, run: seq<Action>): bool {
    run == [] ||
    var init, a := run[..|run| - 1], run[|run| - 1];
    && HandsOutOnce(start, init)
    && (a.Grant? ==> a.access !in HandedOut(start, init).0)
    && (a.Grant? || a.LoseGrant? ==> a.refresh !in HandedOut(start, init).1)
  }

  lemma FlagStep(w: World, a: Action)
    requires Enabled(w, a)
    ensures Do(w, a).loyal == (w.loyal && !a.Revoke? && !a.LoseGrant?)
    ensures Do(w, a).saved == (w.saved && (a.Save? ==> a.ok))
  {
  }

  lemma OtherStepsIssueNothing(w: World, th: Thread, a: Action)
    requires StageAllows(w, th, a) && !a.Grant? && !a.LoseGrant?
    ensures Around(w, th, a).platform == w.platform && Around(w, th, a).unique == w.unique
  {
  }

  lemma OnlyGrantsIssue(w: World, a: Action)
    requires Enabled(w, a) && !a.Grant? && !a.LoseGrant?
    ensures Do(w, a).platform.issuedAccess == w.platform.issuedAccess
    ensures Do(w, a).platform.issuedRefresh == w.platform.issuedRefresh
    ensures Do(w, a).unique == w.unique
  {
    if IsThreadStep(a) {
      OtherStepsIssueNothing(w, w.threads[a.t], a);
    }
  }

  lemma GrantIssues(w: World, a: Action)
    requires Enabled(w, a) && a.Grant?
    ensures var w' := Do(w, a);
            && w'.platform.issuedAccess == w.platform.issuedAccess + {a.access}
            && w'.platform.issuedRefresh == w.platform.issuedRefresh + {a.refresh}
            && w'.unique == (w.unique && a.access !in w.platform.issuedAccess && a.refresh !in w.platform.issuedRefresh)
  {
  }

  lemma LostGrantIssues(w: World, a: Action)
    requires Enabled(w, a) && a.LoseGrant?
    ensures var w' := Do(w, a);
            && w'.platform.issuedAccess == w.platform.issuedAccess + {0}
            && w'.platform.issuedRefresh == w.platform.issuedRefresh + {a.refresh}
            && w'.unique == (w.unique && a.refresh !in w.platform.issuedRefresh)
  {
  }

  lemma IssueStep(w: World, a: Action)
    requires Enabled(w, a)
    ensures var p, p' := w.platform, Do(w, a).platform;
            && p'.issuedAccess == p.issuedAccess + (if a.Grant? then {a.access} else if a.LoseGrant? then {0} else {})
            && p'.issuedRefresh == p.issuedRefresh + (if a.Grant? || a.LoseGrant? then {a.refresh} else {})
            && Do(w, a).unique ==
               (w.unique && (a.Grant? ==> a.access !in p.issuedAccess)
                         && (a.Grant? || a.LoseGrant? ==> a.refresh !in p.issuedRefresh))
  {
    if a.Grant? {
      GrantIssues(w, a);
    } else if a.LoseGrant? {
      LostGrantIssues(w, a);
    } else {
      OnlyGrantsIssue(w, a);
    }
  }

  /** The history flags say what they should of the run: `loyal` that nothing was revoked and every
      grant read back, `saved` that no write failed ... */
  lemma {:induction false} LoyaltyIsTheRuns(start: World, run: seq<Action>)
    requires After(start, run).Some?
    ensures var w := After(start, run).value;
            && (w.loyal <==> start.loyal && forall i :: 0 <= i < |run| ==> !run[i].Revoke? && !run[i].LoseGrant?)
            && (w.saved <==> start.saved && forall i :: 0 <= i < |run| && run[i].Save? ==> run[i].ok)
  {
    if run != [] {
      var init, a := run[..|run| - 1], run[|run| - 1];
      LoyaltyIsTheRuns(start, init);
      FlagStep(After(start, init).value, a);
      assert forall i :: 0 <= i < |run| ==> run[i] == if i < |init| then init[i] else a;
    }
  }

  /** ... and `unique` that no token was handed out twice. */
  lemma {:induction false} UniquenessIsTheRuns(start: World, run: seq<Action>)
    requires After(start, run).Some?
    ensures var w := After(start, run).value;
            && w.platform.issuedAccess == HandedOut(start, run).0
            && w.platform.issuedRefresh == HandedOut(start, run).1
            && (w.unique <==> start.unique && HandsOutOnce(start, run))
  {
    if run != [] {
      UniquenessIsTheRuns(start, run[..|run| - 1]);
      IssueStep(After(start, run[..|run| - 1]).value, run[|run| - 1]);
    }
  }

  /** A state some run reaches from some file and some live token. */
  ghost predicate Reached(w: World) {
    exists disk, readable, live, run :: After(Start(disk, readable, live), run) == Some(w)
  }

  lemma ReachedInv(w: World)
    requires Reached(w)
    ensures Inv(w)
  {
    var disk, readable, live, run :| After(Start(disk, readable, live), run) == Some(w);
    StartInv(disk, readable, live);
    RunKeepsInv(Start(disk, readable, live), run);
  }

  /** No self-inflicted loss. While the platform is loyal, in every reachable state every refresh
      about to be posted carries the platform's live token, so the platform grants it, no thread
      is ever told its grant is invalid, and the credential is never discarded. */
  lemma NoSelfInflictedLoss(w: World, t: nat)
    requires Reached(w) && w.loyal && t in w.threads
    ensures w.threads[t].stage.Posting? ==> WouldGrant(w, w.threads[t])
    ensures !Enabled(w, Reject(t)) && !Enabled(w, DiscardHeld(t))
  {
    ReachedInv(w);
    HolderSteps(w, t);
  }

  /** An effective hold-off is about the present credential. When a refused attempt sets the
      cooldown, the token it was refused with descends from the authorization whose credential
      is held at that moment (or none is held any more); otherwise it changes nothing. */
  lemma HoldOffIsAboutPresentCredential(w: World, t: nat, now: int)
    requires Reached(w) && Enabled(w, HoldBack(t, now))
    ensures var th, w' := w.threads[t], Do(w, HoldBack(t, now));
            if th.job.gen == w.vault.gen
            then && w'.vault == w.vault.(refusedUntil := Some(now + REFUSAL_COOLDOWN))
                 && (w.vault.tok.refresh != 0 ==> th.stage.used.lineage == w.vault.tok.lineage)
            else w'.vault == w.vault
  {
    ReachedInv(w);
    assert ThreadOk(w, w.threads[t]);
  }

  /** When the run last held the credential off without a later grant to lift it: an attempt of the
      generation that was current stepped into the hold-off, and no pair has been adopted since. */
  function StandingRefusal(start: World, run: seq<Action>): Option<int>
    requires After(start, run).Some?
  {
    if run == [] then None
    else
      var init, a := run[..|run| - 1], run[|run| - 1];
      var w := After(start, init).value;
      if a.AdoptFresh? then None
      else if a.HoldBack? && w.threads[a.t].job.gen == w.vault.gen then Some(a.now)
      else StandingRefusal(start, init)
  }

  /** A grant lifts the refusal. In every run the credential is held off exactly while a refusal of
      the present generation stands with no pair adopted since, and until five minutes after it. */
  lemma {:induction false} GrantsLiftRefusals(disk: Tokens, readable: bool, live: nat, run: seq<Action>)
    requires After(Start(disk, readable, live), run).Some?
    ensures var start := Start(disk, readable, live);
            var until, refusal := After(start, run).value.vault.refusedUntil, StandingRefusal(start, run);
            until == if refusal.None? then None else Some(refusal.value + 300 * SECOND)
  {
    if run != [] {
      GrantsLiftRefusals(disk, readable, live, run[..|run| - 1]);
      RefusalStep(After(Start(disk, readable, live), run[..|run| - 1]).value, run[|run| - 1]);
    }
  }

  lemma RefusalStep(w: World, a: Action)
    requires Enabled(w, a)
    ensures Do(w, a).vault.refusedUntil ==
            if a.AdoptFresh? then None
            else if a.HoldBack? && w.threads[a.t].job.gen == w.vault.gen then Some(a.now + 300 * SECOND)
            else w.vault.refusedUntil
  {
  }

  /** A standing refusal withholds the credential for five minutes: whoever decides under refreshMu
      before its deadline is sent to authorize, and whoever decides from the deadline on is not,
      if the refresh token still lives. */
  lemma RefusalWithholds(disk: Tokens, readable: bool, live: nat, run: seq<Action>, t: nat, now: int)
    requires After(Start(disk, readable, live), run).Some?
    requires Enabled(After(Start(disk, readable, live), run).value, Decide(t, now))
    requires StandingRefusal(Start(disk, readable, live), run).Some?
    ensures var w := After(Start(disk, readable, live), run).value;
            var tok, stage := w.threads[t].stage.tok, Do(w, Decide(t, now)).threads[t].stage;
            var deadline := StandingRefusal(Start(disk, readable, live), run).value + 300 * SECOND;
            && (now < deadline ==> stage == Unlocking(NeedsAuth))
            && (deadline <= now && tok.refresh != 0 && (tok.refreshExpiry.None? || now < tok.refreshExpiry.value) ==>
                  stage != Unlocking(NeedsAuth))
  {
    GrantsLiftRefusals(disk, readable, live, run);
  }

  /** A held token is taken, before the lock or under it, exactly while its refresh token lives, no
      refusal stands, it is more than two minutes from its expiry, and it is not the one refused;
      under the lock a refresh is the only other way on for a credential that lives and is not
      held off. */
  lemma HeldTokensAreTakenExactly(w: World, t: nat, now: int)
    requires t in w.threads && (w.threads[t].stage.Peeked? || w.threads[t].stage.Reread?) && w.threads[t].job.Mint?
    ensures var th, tok := w.threads[t], w.threads[t].stage.tok;
            var until := if th.stage.Peeked? then th.stage.refusedUntil else w.vault.refusedUntil;
            var lives := tok.refresh != 0 && (tok.refreshExpiry.None? || now < tok.refreshExpiry.value)
                         && (until.None? || until.value <= now);
            var taken := lives && tok.access != 0 && now + 120 * SECOND < tok.accessExpiry
                         && (th.job.retire == 0 || tok.access != th.job.retire);
            if th.stage.Peeked? then
              && Enabled(w, DecideHeld(t, now))
              && Do(w, DecideHeld(t, now)).threads[t].stage == if taken then Asking(tok) else Waiting
            else
              && Enabled(w, Decide(t, now))
              && Do(w, Decide(t, now)).threads[t].stage ==
                 if taken then Unlocking(Got(tok)) else if lives then Entering(tok, now) else Unlocking(NeedsAuth)
  {
  }

  lemma StepAgesOnly(w: World, a: Action, t: nat)
    requires Enabled(w, a) && t in w.threads && w.threads[t].job.Mint?
    ensures var w' := Do(w, a);
            && w.vault.gen <= w'.vault.gen
            && t in w'.threads && w'.threads[t].job.Mint? && w'.threads[t].job.gen == w.threads[t].job.gen
  {
    if IsThreadStep(a) {
      var th := w.threads[a.t];
      assert Around(w, th, a).vault.gen >= w.vault.gen;
      assert th.job.Mint? ==> Moved(w, th, a).job.Mint? && Moved(w, th, a).job.gen == th.job.gen;
    }
  }

  lemma {:induction false} AttemptsAgeOnly(start: World, run: seq<Action>, t: nat)
    requires After(start, run).Some? && t in start.threads && start.threads[t].job.Mint?
    ensures var w := After(start, run).value;
            && start.vault.gen <= w.vault.gen
            && t in w.threads && w.threads[t].job.Mint? && w.threads[t].job.gen == start.threads[t].job.gen
  {
    if run != [] {
      AttemptsAgeOnly(start, run[..|run| - 1], t);
      StepAgesOnly(After(start, run[..|run| - 1]).value, run[|run| - 1], t);
    }
  }

  lemma OlderThanAuthorization(w: World, t: nat, login: nat)
    requires Inv(w) && t in w.threads && w.threads[t].job.Mint?
    requires Enabled(w, AdoptFresh(login)) && w.threads[login].job.Login?
    ensures var w' := Do(w, AdoptFresh(login));
            t in w'.threads && w'.threads[t] == w.threads[t] && w'.threads[t].job.gen < w'.vault.gen
  {
    assert ThreadOk(w, w.threads[t]);
  }

  /** No attempt begun before an authorization can suppress the credential it brought, however
      long the attempt takes and whatever else happens meanwhile. */
  lemma StaleAttemptCannotSuppress(w: World, t: nat, login: nat, run: seq<Action>, now: int)
    requires Reached(w) && t in w.threads && w.threads[t].job.Mint?
    requires Enabled(w, AdoptFresh(login)) && w.threads[login].job.Login?
    requires After(Do(w, AdoptFresh(login)), run).Some?
    requires Enabled(After(Do(w, AdoptFresh(login)), run).value, HoldBack(t, now))
    ensures var later := After(Do(w, AdoptFresh(login)), run).value;
            Do(later, HoldBack(t, now)).vault == later.vault
  {
    ReachedInv(w);
    OlderThanAuthorization(w, t, login);
    AttemptsAgeOnly(Do(w, AdoptFresh(login)), run, t);
  }

  /** A refresh only when one is needed. In every reachable state a thread goes on to refresh, and
      one that is refreshing went on, only if the token it read again under refreshMu was the one
      it saw refused, or was within two minutes of its expiry at the time it decided. So a caller
      that waited while another rotated takes the replacement. */
  lemma RefreshesOnlyWhenNeeded(w: World, t: nat, now: int)
    requires Reached(w) && t in w.threads && w.threads[t].job.Mint?
    ensures w.threads[t].stage.Posting? ==>
              var tok, at := w.threads[t].stage.tok, w.threads[t].stage.at;
              || (w.threads[t].job.retire != 0 && tok.access == w.threads[t].job.retire)
              || tok.access == 0 || tok.accessExpiry <= at + 120 * SECOND
    ensures Enabled(w, Decide(t, now)) && Do(w, Decide(t, now)).threads[t].stage.Entering? ==>
              var tok := w.threads[t].stage.tok;
              && Do(w, Decide(t, now)).threads[t].stage == Entering(tok, now)
              && (|| (w.threads[t].job.retire != 0 && tok.access == w.threads[t].job.retire)
                  || tok.access == 0 || tok.accessExpiry <= now + 120 * SECOND)
  {
    ReachedInv(w);
    HolderSteps(w, t);
  }

  /** One rotation per refused access token: while the platform never reissues a token, however
      many callers were refused with `access` together, it rotated at most once on account of
      them. Every grant to a caller that saw `access` refused counts, but for those that replaced
      another token because it was about to expire. */
  lemma OneRotationPerRefusedToken(w: World, access: nat)
    requires Reached(w) && w.unique
    ensures w.rotations[access] <= 1
  {
    ReachedInv(w);
    assert access in w.rotations ==> w.rotations[access] == 1;
  }

  /** ... and the retry of every refused caller asks with another token than the one refused. */
  lemma RetriesTakeTheReplacement(w: World, t: nat)
    requires Reached(w) && w.unique && t in w.threads && w.threads[t].stage.Asking?
    ensures w.threads[t].job.Mint? && w.threads[t].stage.used.access != w.threads[t].job.retire
  {
    ReachedInv(w);
    assert ThreadOk(w, w.threads[t]);
  }

  /** How often thread `t` has asked for a chat URL. */
  function Asked(run: seq<Action>, t: nat): nat {
    if run == [] then 0
    else Asked(run[..|run| - 1], t) + if run[|run| - 1].Answer? && run[|run| - 1].t == t then 1 else 0
  }

  /** How many times the thread may have asked at where it stands. */
  predicate AskedSoFar(th: Option<Thread>, asked: nat) {
    if th.None? || th.value.job.Login? then asked == 0
    else
      var attempt, stage := th.value.job.attempt, th.value.stage;
      && 1 <= attempt <= 2
      && if stage.Refused? || stage.Done? then asked <= attempt else asked == attempt - 1
  }

  lemma MoveKeepsAsked(w: World, th: Thread, a: Action, asked: nat)
    requires StageAllows(w, th, a) && AskedSoFar(Some(th), asked)
    ensures AskedSoFar(Some(Moved(w, th, a)), asked + if a.Answer? then 1 else 0)
  {
  }

  lemma AskStep(w: World, a: Action, t: nat, asked: nat)
    requires Enabled(w, a) && AskedSoFar(Lookup(w.threads, t), asked)
    ensures AskedSoFar(Lookup(Do(w, a).threads, t), asked + if a.Answer? && a.t == t then 1 else 0)
  {
    if IsStepOf(a, t) {
      MoveKeepsAsked(w, w.threads[t], a, asked);
      assert Do(w, a).threads[t] == Moved(w, w.threads[t], a);
    }
  }

  /** A mint asks at most twice, whatever it is answered. */
  lemma {:induction false} AsksAtMostTwice(disk: Tokens, readable: bool, live: nat, run: seq<Action>, t: nat)
    requires After(Start(disk, readable, live), run).Some?
    ensures AskedSoFar(Lookup(After(Start(disk, readable, live), run).value.threads, t), Asked(run, t))
    ensures Asked(run, t) <= 2
  {
    if run != [] {
      var init := run[..|run| - 1];
      AsksAtMostTwice(disk, readable, live, init, t);
      AskStep(After(Start(disk, readable, live), init).value, run[|run| - 1], t, Asked(init, t));
    }
  }

  /** A refusal that time alone will not change holds the credential off: the thread's next step,
      and its only one, is the hold-off. A first refusal of the token is followed by an attempt to
      replace that token, and any other answer by nothing. */
  lemma RefusalsAreActedOn(w: World, t: nat, reply: Reply, now: int)
    requires Enabled(w, Answer(t, reply)) && 1 <= w.threads[t].job.attempt <= 2
    ensures var w' := Do(w, Answer(t, reply));
            var lasting := reply.Forbidden? || (reply.Unauthorized? && w.threads[t].job.attempt == 2);
            && (Enabled(w', HoldBack(t, now)) <==> lasting)
            && (Enabled(w', ReadHeld(t)) <==> reply.Unauthorized? && w.threads[t].job.attempt == 1)
            && (Enabled(w', ReadHeld(t)) ==> w'.threads[t].job.retire == w.threads[t].stage.used.access)
            && forall a :: IsStepOf(a, t) && Enabled(w', a) ==> a.HoldBack? || a.ReadHeld?
  {
  }

  function InBracket(w: World): set<nat> { set t | t in w.threads && Bracketed(w.threads[t].stage) }

  /** Drain is meaningful. In every reachable state the counter it polls is the number of threads
      inside the exchange bracket, never more than one; and when it reads zero, if no write has
      failed, the file holds what memory holds. */
  lemma DrainIsMeaningful(w: World)
    requires Reached(w)
    ensures w.vault.calls == |InBracket(w)| && w.vault.calls <= 1
    ensures w.saved && w.vault.calls == 0 ==> w.disk == w.vault.tok
  {
    ReachedInv(w);
    var b := InBracket(w);
    if w.vault.calls == 1 {
      var h := w.refreshMu.value;
      forall t ensures t in b <==> t == h {
        if t in b {
          HolderSteps(w, t);
        }
      }
      assert b == {h};
    } else {
      forall t ensures t !in b {
        if t in w.threads {
          HolderSteps(w, t);
        }
      }
      assert b == {};
    }
  }

  /** So a server that drains and restarts on its file resumes with the platform's live token,
      as long as the platform was loyal and no write failed. */
  lemma DrainedRestartResumes(w: World)
    requires Reached(w) && w.loyal && w.saved && w.vault.calls == 0
    ensures Start(w.disk, true, w.platform.refresh).loyal
    ensures Start(w.disk, true, w.platform.refresh).vault.tok == w.vault.tok
  {
    DrainIsMeaningful(w);
    ReachedInv(w);
  }

  // ---------------------------------------------------------------- progress

  /** A bound on the steps a thread takes from here to giving refreshMu up. */
  function StepsToUnlock(s: Stage): nat {
    match s
    case Locked => 7
    case Reread(_) => 6
    case Entering(_, _) => 5
    case Posting(_, _) => 4
    case Granted(_) => 3
    case Rejected => 3
    case Saving(_, _) => 2
    case Ending(_) => 1
    case Unlocking(_) => 0
    case _ => 0
  }

  /** The step the thread inside refreshMu can take; an exchange can at least fail. */
  function HolderStep(th: Thread, t: nat): Action
    requires Holding(th.stage)
  {
    match th.stage
    case Locked => if th.job.Mint? then ReadAgain(t) else Enter(t)
    case Reread(_) => Decide(t, 0)
    case Entering(_, _) => Enter(t)
    case Posting(_, _) => Fail(t)
    case Granted(_) => AdoptFresh(t)
    case Rejected => DiscardHeld(t)
    case Saving(_, _) => Save(t, true)
    case Ending(_) => Leave(t)
    case Unlocking(_) => Unlock(t)
  }

  /** Nobody is blocked for ever: in every reachable state the holder of refreshMu has a step to
      take, whoever waits for it can take it once it is free, and the counter that a drain polls
      reads zero unless it is held. */
  lemma HolderIsNeverStuck(w: World)
    requires Reached(w)
    ensures w.refreshMu.Some? ==>
              && w.refreshMu.value in w.threads && Holding(w.threads[w.refreshMu.value].stage)
              && Enabled(w, HolderStep(w.threads[w.refreshMu.value], w.refreshMu.value))
    ensures w.refreshMu.None? ==> forall t :: t in w.threads && w.threads[t].stage.Waiting? ==> Enabled(w, TakeLock(t))
    ensures w.vault.calls > 0 ==> w.refreshMu.Some?
  {
    ReachedInv(w);
  }

  predicate IsStepOf(a: Action, t: nat) { IsThreadStep(a) && a.t == t }

  function OwnSteps(run: seq<Action>, t: nat): nat {
    if run == [] then 0 else OwnSteps(run[..|run| - 1], t) + if IsStepOf(run[|run| - 1], t) then 1 else 0
  }

  ghost predicate HoldsThroughout(w: World, run: seq<Action>, t: nat) {
    forall i :: 0 <= i <= |run| ==>
      After(w, run[..i]).Some? && After(w, run[..i]).value.refreshMu == Some(t)
  }

  lemma StepTowardsUnlock(w: World, a: Action, t: nat)
    requires Enabled(w, a) && t in w.threads && Holding(w.threads[t].stage)
    requires t in Do(w, a).threads && Holding(Do(w, a).threads[t].stage)
    ensures var left, left' := StepsToUnlock(w.threads[t].stage), StepsToUnlock(Do(w, a).threads[t].stage);
            if IsStepOf(a, t) then left' < left else left' == left
  {
  }

  lemma HeldByHolder(w: World, t: nat)
    requires Inv(w) && w.refreshMu == Some(t)
    ensures t in w.threads && Holding(w.threads[t].stage)
  {
  }

  lemma HeldUntilHere(w: World, run: seq<Action>, t: nat)
    requires HoldsThroughout(w, run, t)
    ensures After(w, run).Some? && After(w, run).value.refreshMu == Some(t)
    ensures run != [] ==> HoldsThroughout(w, run[..|run| - 1], t)
  {
    assert run[..|run|] == run;
    if run != [] {
      var init := run[..|run| - 1];
      forall i | 0 <= i <= |init| ensures init[..i] == run[..i] {}
    }
  }

  /** A thread gives refreshMu up within eight of its own steps, whatever the others do: over any
      run in which it holds the lock throughout it takes at most seven, and the next is its
      last. The invariant holds of every reachable state. */
  lemma {:induction false} LockIsReleased(w: World, run: seq<Action>, t: nat)
    requires Inv(w) && HoldsThroughout(w, run, t)
    ensures After(w, run).Some? && t in w.threads && t in After(w, run).value.threads
    ensures OwnSteps(run, t) + StepsToUnlock(After(w, run).value.threads[t].stage)
            <= StepsToUnlock(w.threads[t].stage) <= 7
  {
    HeldUntilHere(w, run, t);
    RunKeepsInv(w, run);
    HeldByHolder(After(w, run).value, t);
    if run != [] {
      var init := run[..|run| - 1];
      LockIsReleased(w, init, t);
      HeldUntilHere(w, init, t);
      RunKeepsInv(w, init);
      HeldByHolder(After(w, init).value, t);
      StepTowardsUnlock(After(w, init).value, run[|run| - 1], t);
    }
  }
}
