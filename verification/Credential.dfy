/** The chat credential a server holds, and each of the short critical sections that touch it.
    A refresh token is spent by every use, so what is held has to be replaced with care; how
    threads share it is the subject of CredentialProtocol. */
module Credential {
  import opened Wrappers
  import opened Clock

  const REFRESH_SKEW: int := 2 * MINUTE
  const REFUSAL_COOLDOWN: int := 5 * MINUTE

  /** A token pair. Token strings are modelled by numbers, the empty string by 0. `lineage` is a
      history attribute that the program never reads: the browser authorization the pair
      descends from. */
  datatype Tokens = Tokens(access: nat, refresh: nat, accessExpiry: int, refreshExpiry: Option<int>, lineage: nat)

  const NoTokens := Tokens(0, 0, 0, None, 0)

  /** What the provider's lock protects. */
  datatype Vault = Vault(tok: Tokens, refusedUntil: Option<int>, gen: nat, calls: int)

  predicate ValidAt(t: Tokens, now: int) {
    t.refresh != 0 && (t.refreshExpiry.None? || now < t.refreshExpiry.value)
  }

  predicate HeldOff(refusedUntil: Option<int>, now: int) {
    refusedUntil.Some? && now < refusedUntil.value
  }

  predicate FreshEnough(t: Tokens, now: int) {
    t.access != 0 && now + REFRESH_SKEW < t.accessExpiry
  }

  predicate Retires(retire: nat, t: Tokens) { retire != 0 && retire == t.access }

  /** Whether a token read earlier can be used without a refresh. */
  predicate Usable(t: Tokens, refusedUntil: Option<int>, retire: nat, now: int) {
    ValidAt(t, now) && !HeldOff(refusedUntil, now) && !Retires(retire, t) && FreshEnough(t, now)
  }

  function Adopt(v: Vault, t: Tokens, authorized: bool): Vault {
    v.(tok := t, refusedUntil := None, gen := if authorized then v.gen + 1 else v.gen)
  }

  function Discard(v: Vault): Vault { v.(tok := NoTokens) }

  function HoldOff(v: Vault, gen: nat, now: int): Vault {
    if v.gen != gen then v else v.(refusedUntil := Some(now + REFUSAL_COOLDOWN))
  }

  function BeginExchange(v: Vault): Vault { v.(calls := v.calls + 1) }

  function EndExchange(v: Vault): Vault { v.(calls := v.calls - 1) }

  /** What the chat endpoint answers. Forbidden is the platform's own insufficient scope; any
      other refusal is an error like the rest. */
  datatype Reply = Served | Unauthorized | Forbidden | OtherError

  /** What the token endpoint answers. */
  datatype PostReply = Issued(pair: Tokens) | InvalidGrant | PostFailed

  /** The outside's part in one attempt: the clock when the held token is looked at and again
      under refreshMu, the answers of the two endpoints, and whether the file can be written. */
  datatype Round = Round(now: int, later: int, post: PostReply, saved: bool, reply: Reply)

  /** Whether a minter that reads this token under refreshMu has to refresh it. */
  predicate MustRefresh(t: Tokens, refusedUntil: Option<int>, retire: nat, now: int) {
    ValidAt(t, now) && !HeldOff(refusedUntil, now) && !(FreshEnough(t, now) && !Retires(retire, t))
  }

  /** What a refresh does to the credential, by the platform's answer. */
  function Refreshed(v: Vault, post: PostReply): Vault {
    match post
    case Issued(pair) => Adopt(v, pair, false)
    case InvalidGrant => Discard(v)
    case PostFailed => v
  }

  /** Whether an attempt has to post a refresh: what it reads first will not do, and what it reads
      under refreshMu is still worth refreshing. */
  predicate Posts(v: Vault, retire: nat, round: Round) {
    !Usable(v.tok, v.refusedUntil, retire, round.now) && MustRefresh(v.tok, v.refusedUntil, retire, round.later)
  }

  /** The credential after an uninterrupted attempt to get a token. */
  function AfterAttempt(v: Vault, retire: nat, round: Round): Vault {
    if Posts(v, retire, round) then Refreshed(v, round.post) else v
  }

  /** The token such an attempt comes back with. */
  function TokenFor(v: Vault, retire: nat, round: Round): Option<nat> {
    if Posts(v, retire, round) then (if round.post.Issued? then Some(round.post.pair.access) else None)
    else if Usable(v.tok, v.refusedUntil, retire, round.now) || Usable(v.tok, v.refusedUntil, retire, round.later)
    then Some(v.tok.access)
    else None
  }

  /** The last answer is one that time alone will not change. */
  predicate LastingRefusal(asked: seq<nat>, first: Round, second: Round) {
    || (|asked| == 1 && first.reply.Forbidden?)
    || (|asked| == 2 && (second.reply.Unauthorized? || second.reply.Forbidden?))
  }

  /** The provider's fields and the file it persists to. */
  class Restream {
    var tok: Tokens
    var refusedUntil: Option<int>
    var gen: nat
    var tokenCalls: int
    var disk: Tokens

    ghost function State(): Vault
      reads this
    {
      Vault(tok, refusedUntil, gen, tokenCalls)
    }

    /** Starts from what could be read from disk, or unauthorized when nothing could. */
    constructor (disk: Tokens, readable: bool)
      ensures State() == Vault(if readable then disk else NoTokens, None, 0, 0) && this.disk == disk
    {
      this.disk := disk;
      tok := if readable then disk else NoTokens;
      refusedUntil, gen, tokenCalls := None, 0, 0;
    }

    /** Ready exactly when a caller asking now would be handed the held token or would refresh it. */
    method Authorized(now: int) returns (ok: bool)
      ensures ok <==> Usable(tok, refusedUntil, 0, now) || MustRefresh(tok, refusedUntil, 0, now)
    {
      ok := ValidAt(tok, now) && !HeldOff(refusedUntil, now);
    }

    /** The quick answer: a token straight from memory, or None to send the caller to refreshMu. */
    method UsableToken(retire: nat, now: int) returns (r: Option<nat>)
      ensures r.Some? <==> Usable(tok, refusedUntil, retire, now)
      ensures r.Some? ==> r.value == tok.access && r.value != 0 && r.value != retire
      ensures r.Some? ==> now + 120 * SECOND < tok.accessExpiry && (refusedUntil.None? || refusedUntil.value <= now)
    {
      if !ValidAt(tok, now) || HeldOff(refusedUntil, now) {
        return None;
      }
      if retire != 0 && retire == tok.access {
        return None;
      }
      if tok.access == 0 || !(now + REFRESH_SKEW < tok.accessExpiry) {
        return None;
      }
      return Some(tok.access);
    }

    /** After a grant. Memory changes first and in one step, the file second, and `saved` says
        whether the file could be written. */
    method AdoptPair(t: Tokens, authorized: bool, saved: bool)
      modifies this
      ensures State() == Adopt(old(State()), t, authorized)
      ensures tok == t && refusedUntil.None? && gen == old(gen) + if authorized then 1 else 0
      ensures disk == if saved then t else old(disk)
    {
      tok := t;
      refusedUntil := None;
      if authorized {
        gen := gen + 1;
      }
      Save(t, saved);
    }

    /** After an invalid grant. */
    method DiscardPair(saved: bool)
      modifies this
      ensures State() == Discard(old(State()))
      ensures refusedUntil == old(refusedUntil) && gen == old(gen) && forall now :: !ValidAt(tok, now)
      ensures disk == if saved then NoTokens else old(disk)
    {
      tok := NoTokens;
      Save(NoTokens, saved);
    }

    method Save(t: Tokens, saved: bool)
      modifies this`disk
      ensures disk == if saved then t else old(disk)
    {
      if saved {
        disk := t;
      }
    }

    /** After a lasting refusal of an attempt that began in generation `since`. */
    method HoldOffSince(since: nat, now: int)
      modifies this`refusedUntil
      ensures State() == HoldOff(old(State()), since, now)
    {
      if gen != since {
        return;
      }
      refusedUntil := Some(now + REFUSAL_COOLDOWN);
    }

    method BeginCall()
      modifies this`tokenCalls
      ensures State() == BeginExchange(old(State()))
    {
      tokenCalls := tokenCalls + 1;
    }

    method EndCall()
      modifies this`tokenCalls
      ensures State() == EndExchange(old(State()))
    {
      tokenCalls := tokenCalls - 1;
    }

    /** A bearer token for a caller that saw `retire` refused. At most one refresh is posted, with
        the refresh token held and only when the held token will not do; an invalid grant is the
        only answer that costs the credential. */
    method AccessToken(retire: nat, round: Round) returns (r: Option<nat>, posted: Option<nat>)
      modifies this
      ensures posted == if Posts(old(State()), retire, round) then Some(old(tok).refresh) else None
      ensures posted.Some? ==> posted.value != 0
      ensures State() == AfterAttempt(old(State()), retire, round)
      ensures r == TokenFor(old(State()), retire, round)
      ensures posted.Some? && round.post.Issued? ==> tok == round.post.pair && refusedUntil.None?
      ensures !(posted.Some? && !round.post.PostFailed?) ==> tok == old(tok) && disk == old(disk)
      ensures gen == old(gen) && tokenCalls == old(tokenCalls)
      ensures posted.None? && r.Some? ==> r.value == tok.access && r.value != 0 && r.value != retire
      ensures round.saved && old(disk == tok) ==> disk == tok
    {
      posted := None;
      r := UsableToken(retire, round.now);
      if r.Some? {
        return;
      }
      var held := tok;
      if !ValidAt(held, round.later) || HeldOff(refusedUntil, round.later) {
        return;
      }
      if !Retires(retire, held) && FreshEnough(held, round.later) {
        return Some(held.access), None;
      }
      BeginCall();
      posted := Some(held.refresh);
      match round.post {
        case Issued(pair) =>
          AdoptPair(pair, false, round.saved);
          r := Some(pair.access);
        case InvalidGrant =>
          DiscardPair(round.saved);
        case PostFailed =>
      }
      EndCall();
    }

    /** A code exchange: it replaces the credential or leaves it alone, whatever the answer, and
        opens a new generation exactly when it replaces it. `scoped` is whether the grant can
        read chat. */
    method ExchangeCode(post: PostReply, scoped: bool, saved: bool) returns (ok: bool)
      modifies this
      ensures ok <==> post.Issued? && scoped
      ensures State() == if ok then Adopt(old(State()), post.pair, true) else old(State())
      ensures ok ==> tok == post.pair && refusedUntil.None? && gen == old(gen) + 1
      ensures !ok ==> disk == old(disk)
    {
      BeginCall();
      ok := post.Issued? && scoped;
      if ok {
        AdoptPair(post.pair, true, saved);
      }
      EndCall();
    }

    /** A chat URL, uninterrupted: `asked` is the access tokens it asked with. It asks whenever it
        can get a token, and once more after a first refusal whenever it can get another; that one
        differs from the token refused unless the platform reissued it. Only a lasting refusal
        holds the credential off. */
    method Url(first: Round, second: Round, now: int) returns (served: bool, asked: seq<nat>)
      modifies this
      ensures asked != [] <==> TokenFor(old(State()), 0, first).Some?
      ensures asked != [] ==> asked[0] == TokenFor(old(State()), 0, first).value
      ensures |asked| == 2 <==>
                && asked != [] && first.reply.Unauthorized?
                && TokenFor(AfterAttempt(old(State()), 0, first), asked[0], second).Some?
      ensures |asked| <= 2
      ensures |asked| == 2 ==> asked[1] == TokenFor(AfterAttempt(old(State()), 0, first), asked[0], second).value
      ensures |asked| == 2 && asked[0] == asked[1] && asked[0] != 0 ==>
                second.post.Issued? && second.post.pair.access == asked[0]
      ensures served <==> (|asked| == 1 && first.reply.Served?) || (|asked| == 2 && second.reply.Served?)
      ensures var once := AfterAttempt(old(State()), 0, first);
              var again := asked != [] && first.reply.Unauthorized?;
              var tried := if again then AfterAttempt(once, asked[0], second) else once;
              State() == if LastingRefusal(asked, first, second) then HoldOff(tried, old(gen), now) else tried
      ensures |asked| == 2 && (second.reply.Unauthorized? || second.reply.Forbidden?) ==>
                refusedUntil == Some(now + 300 * SECOND)
      ensures |asked| == 1 && first.reply.Forbidden? ==> refusedUntil == Some(now + 300 * SECOND)
      ensures served ==> refusedUntil == old(refusedUntil) || refusedUntil.None?
    {
      var since := gen;
      var token, posted := AccessToken(0, first);
      if token.None? {
        return false, [];
      }
      asked := [token.value];
      var reply := first.reply;
      if reply.Unauthorized? {
        token, posted := AccessToken(asked[0], second);
        if token.None? {
          return false, asked;
        }
        asked := asked + [token.value];
        reply := second.reply;
      }
      served := reply.Served?;
      if reply.Unauthorized? || reply.Forbidden? {
        HoldOffSince(since, now);
      }
    }
  }
}
