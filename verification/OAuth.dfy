/** Authorization codes and refresh tokens (authapp/grants.py, authapp/models.py,
    api/management/mutations/authorize_code.py).  An exchange looks its credential up, issues a token
    and then deletes the code or revokes the old token, as sections 4.1.2 and 6 of RFC 6749 ask for. */
module OAuth {
  import opened Prelude

  const CODE_LIFETIME := 600
  const REFRESH_LIFETIME := 2592000

  datatype Code = Code(code: string, client: string, membership: nat, authTime: int)

  /** `chain` is the code a token descends from; no column, kept for the record. */
  datatype Token = Token(client: string, membership: nat, access: string, refresh: string, revoked: bool,
                         issuedAt: int, chain: nat)

  /** A credential that a token was issued for. */
  datatype Honour = CodeHonoured(code: nat, at: int) | RefreshHonoured(token: nat, at: int)

  datatype Store = Store(nextId: nat, codes: map<nat, Code>, tokens: map<nat, Token>, honours: seq<Honour>)

  datatype Event =
    | Authorize(code: string, client: string, membership: nat)
    | Exchange(code: string, client: string, access: string, refresh: string)
    | Renew(presented: string, client: string, access: string, refresh: string)

  datatype Timed = At(now: int, event: Event)

  datatype Reply = Created(id: nat) | Issued(token: nat) | InvalidGrant | Raised

  // ---- The hooks -----------------------------------------------------------------------------------------------

  function CodeRows(s: Store, code: string, client: string): set<nat> {
    set c | c in s.codes && s.codes[c].code == code && s.codes[c].client == client
  }

  function RefreshRows(s: Store, refresh: string): set<nat> {
    set t | t in s.tokens && s.tokens[t].refresh == refresh
  }

  predicate IsExpired(c: Code, now: int) {
    now > c.authTime + CODE_LIFETIME
  }

  predicate IsRefreshActive(t: Token, now: int) {
    !t.revoked && !(t.issuedAt + REFRESH_LIFETIME < now)
  }

  /** `query_authorization_code`: the code of this client, unless it has expired. */
  function QueryCode(s: Store, code: string, client: string, now: int): (r: Result<nat, Reply>)
    ensures r.Ok? ==> r.value in CodeRows(s, code, client) && !IsExpired(s.codes[r.value], now)
  {
    match Get(CodeRows(s, code, client))
    case Found(c) =>
      assert c in CodeRows(s, code, client);
      if IsExpired(s.codes[c], now) then Err(InvalidGrant) else Ok(c)
    case Missing => Err(InvalidGrant)
    case Many => Err(Raised)
  }

  /** `authenticate_refresh_token`, with the client check of section 6 of RFC 6749. */
  function QueryRefresh(s: Store, refresh: string, client: string, now: int): (r: Result<nat, Reply>)
    ensures r.Ok? ==> r.value in RefreshRows(s, refresh) && IsRefreshActive(s.tokens[r.value], now)
  {
    match Get(RefreshRows(s, refresh))
    case Found(t) =>
      assert t in RefreshRows(s, refresh);
      if IsRefreshActive(s.tokens[t], now) && s.tokens[t].client == client then Ok(t) else Err(InvalidGrant)
    case Missing => Err(InvalidGrant)
    case Many => Err(Raised)
  }

  predicate AccessTaken(s: Store, access: string) {
    exists t :: t in s.tokens && s.tokens[t].access == access
  }

  /** Saving a token; access tokens are unique. */
  function Issue(s: Store, client: string, membership: nat, access: string, refresh: string, now: int,
                 chain: nat): Store {
    s.(nextId := s.nextId + 1,
       tokens := s.tokens[s.nextId := Token(client, membership, access, refresh, false, now, chain)])
  }

  function Revoked(s: Store, t: nat): Store
    requires t in s.tokens
  {
    s.(tokens := s.tokens[t := s.tokens[t].(revoked := true)])
  }

  // ---- Requests ------------------------------------------------------------------------------------------------

  /** `accept_authorize_code`; codes are unique. */
  function Authorizing(s: Store, e: Event, now: int): (Store, Reply)
    requires e.Authorize?
  {
    if exists c :: c in s.codes && s.codes[c].code == e.code then (s, Raised)
    else (s.(nextId := s.nextId + 1, codes := s.codes[s.nextId := Code(e.code, e.client, e.membership, now)]),
          Created(s.nextId))
  }

  function Exchanging(s: Store, e: Event, now: int): (Store, Reply)
    requires e.Exchange?
  {
    match QueryCode(s, e.code, e.client, now)
    case Err(reply) => (s, reply)
    case Ok(c) =>
      if AccessTaken(s, e.access) then (s, Raised)
      else
        var u := Issue(s, e.client, s.codes[c].membership, e.access, e.refresh, now, c);
        (u.(codes := u.codes - {c}, honours := u.honours + [CodeHonoured(c, now)]), Issued(s.nextId))
  }

  function Renewing(s: Store, e: Event, now: int): (Store, Reply)
    requires e.Renew?
  {
    match QueryRefresh(s, e.presented, e.client, now)
    case Err(reply) => (s, reply)
    case Ok(t) =>
      if AccessTaken(s, e.access) then (s, Raised)
      else
        var u := Issue(s, e.client, s.tokens[t].membership, e.access, e.refresh, now, s.tokens[t].chain);
        (Revoked(u, t).(honours := u.honours + [RefreshHonoured(t, now)]), Issued(s.nextId))
  }

  function Step(s: Store, e: Timed): (Store, Reply) {
    match e.event
    case Authorize(_, _, _) => Authorizing(s, e.event, e.now)
    case Exchange(_, _, _, _) => Exchanging(s, e.event, e.now)
    case Renew(_, _, _, _) => Renewing(s, e.event, e.now)
  }

  function Run(s: Store, es: seq<Timed>): Store
    decreases |es|
  {
    if es == [] then s else Run(Step(s, es[0]).0, es[1..])
  }

  // ---- The invariant -------------------------------------------------------------------------------------------

  ghost predicate Keys(s: Store) {
    && (forall c :: c in s.codes ==> c < s.nextId)
    && (forall t :: t in s.tokens ==> t < s.nextId && s.tokens[t].chain < s.nextId)
    && (forall a, b | a in s.codes && b in s.codes && s.codes[a].code == s.codes[b].code :: a == b)
  }

  /** A code that was honoured is gone, and only such codes have descendants. */
  ghost predicate CodesSpent(s: Store) {
    && (forall i :: 0 <= i < |s.honours| && s.honours[i].CodeHonoured? ==>
          s.honours[i].code < s.nextId && s.honours[i].code !in s.codes)
    && (forall t :: t in s.tokens ==> s.tokens[t].chain !in s.codes)
  }

  /** A refresh token that was honoured is revoked. */
  ghost predicate TokensSpent(s: Store) {
    forall i :: 0 <= i < |s.honours| && s.honours[i].RefreshHonoured? ==>
      s.honours[i].token in s.tokens && s.tokens[s.honours[i].token].revoked
  }

  /** No credential is honoured twice. */
  ghost predicate HonouredOnce(honours: seq<Honour>) {
    forall i, j :: 0 <= i < j < |honours| ==>
      && (honours[i].CodeHonoured? && honours[j].CodeHonoured? ==> honours[i].code != honours[j].code)
      && (honours[i].RefreshHonoured? && honours[j].RefreshHonoured? ==> honours[i].token != honours[j].token)
  }

  /** Each chain has at most one token that is not revoked. */
  ghost predicate OneLive(tokens: map<nat, Token>) {
    forall a, b | a in tokens && b in tokens && tokens[a].chain == tokens[b].chain && !tokens[a].revoked
      && !tokens[b].revoked :: a == b
  }

  ghost predicate Valid(s: Store) {
    Keys(s) && CodesSpent(s) && TokensSpent(s) && HonouredOnce(s.honours) && OneLive(s.tokens)
  }

  lemma StartsValid(next: nat)
    ensures Valid(Store(next, map[], map[], []))
  {
  }

  lemma AuthorizingKeeps(s: Store, e: Event, now: int)
    requires Valid(s) && e.Authorize?
    ensures Valid(Authorizing(s, e, now).0)
  {
    hide OneLive;
  }

  lemma ExchangeKeeps(s: Store, e: Event, now: int)
    requires Valid(s) && e.Exchange?
    ensures Valid(Exchanging(s, e, now).0)
  {
    hide AccessTaken;
    var u := Exchanging(s, e, now).0;
    if u != s {
      var c := QueryCode(s, e.code, e.client, now).value;
      assert u.honours == s.honours + [CodeHonoured(c, now)];
    }
  }

  lemma RenewKeeps(s: Store, e: Event, now: int)
    requires Valid(s) && e.Renew?
    ensures Valid(Renewing(s, e, now).0)
  {
    hide AccessTaken;
    var u := Renewing(s, e, now).0;
    if u != s {
      var t := QueryRefresh(s, e.presented, e.client, now).value;
      assert u.honours == s.honours + [RefreshHonoured(t, now)];
    }
  }

  lemma StepKeeps(s: Store, e: Timed)
    requires Valid(s)
    ensures Valid(Step(s, e).0)
  {
    hide Valid, Authorizing, Exchanging, Renewing;
    match e.event
    case Authorize(_, _, _) => AuthorizingKeeps(s, e.event, e.now);
    case Exchange(_, _, _, _) => ExchangeKeeps(s, e.event, e.now);
    case Renew(_, _, _, _) => RenewKeeps(s, e.event, e.now);
  }

  /** Over any run every code and every refresh token is honoured at most once, and each chain has at
      most one token that is not revoked. */
  lemma {:induction false} HonoursOnce(s: Store, es: seq<Timed>)
    requires Valid(s)
    ensures Valid(Run(s, es))
    decreases |es|
  {
    hide Valid, Step;
    if es != [] {
      StepKeeps(s, es[0]);
      HonoursOnce(Step(s, es[0]).0, es[1..]);
    }
  }

  // ---- Lifetimes -----------------------------------------------------------------------------------------------

  /** A code is honoured no later than 600 s after `auth_time`, a refresh token within 30 days and
      unrevoked, each for its own client; the new token belongs to the same membership and chain. */
  lemma HonouredInTime(s: Store, e: Timed)
    requires Valid(s) && Step(s, e).1.Issued?
    ensures var (u, reply) := Step(s, e);
            && reply.token in u.tokens && !u.tokens[reply.token].revoked
            && (e.event.Exchange? ==> exists c ::
                  && c in s.codes && s.codes[c].code == e.event.code && s.codes[c].client == e.event.client
                  && e.now <= s.codes[c].authTime + CODE_LIFETIME
                  && u.codes == s.codes - {c} && u.tokens[reply.token].membership == s.codes[c].membership)
            && (e.event.Renew? ==> exists t ::
                  && t in s.tokens && s.tokens[t].refresh == e.event.presented && s.tokens[t].client == e.event.client
                  && !s.tokens[t].revoked && e.now <= s.tokens[t].issuedAt + REFRESH_LIFETIME
                  && u.tokens[t].revoked && u.tokens[reply.token].membership == s.tokens[t].membership
                     && u.tokens[reply.token].chain == s.tokens[t].chain)
  {
    hide AccessTaken, CodesSpent, TokensSpent, HonouredOnce, OneLive;
    match e.event
    case Authorize(_, _, _) =>
    case Exchange(code, client, access, refresh) =>
      var c := QueryCode(s, code, client, e.now).value;
      assert c in CodeRows(s, code, client);
      assert s.codes[c].code == code;
    case Renew(presented, client, access, refresh) =>
      var t := QueryRefresh(s, presented, client, e.now).value;
      assert t in RefreshRows(s, presented);
      assert s.tokens[t].refresh == presented;
  }

  // ---- Every answer, said of the rows -----------------------------------------------------------------------------

  predicate HasCode(s: Store, c: nat, code: string, client: string) {
    c in s.codes && s.codes[c].code == code && s.codes[c].client == client
  }

  predicate HasRefresh(s: Store, t: nat, refresh: string) {
    t in s.tokens && s.tokens[t].refresh == refresh
  }

  /** A token is saved with these columns and the old credential is spent; a taken access string raises. */
  ghost predicate GrantedAs(s: Store, u: Store, reply: Reply, row: Token, codes: map<nat, Code>, spent: map<nat, Token>,
                            honour: Honour) {
    if exists t: nat :: t in s.tokens && s.tokens[t].access == row.access then reply == Raised && u == s
    else && reply.Issued? && reply.token !in s.tokens && reply.token == s.nextId
         && u == Store(s.nextId + 1, codes, spent[reply.token := row], s.honours + [honour])
  }

  ghost predicate CodeAnsweredAs(s: Store, u: Store, reply: Reply, e: Event, now: int, c: nat)
    requires e.Exchange?
  {
    && HasCode(s, c, e.code, e.client)
    && if now > s.codes[c].authTime + 600 then reply == InvalidGrant && u == s
       else GrantedAs(s, u, reply, Token(e.client, s.codes[c].membership, e.access, e.refresh, false, now, c),
                      s.codes - {c}, s.tokens, CodeHonoured(c, now))
  }

  ghost predicate RefreshAnsweredAs(s: Store, u: Store, reply: Reply, e: Event, now: int, t: nat)
    requires e.Renew?
  {
    && HasRefresh(s, t, e.presented)
    && var row := s.tokens[t];
    if row.revoked || now > row.issuedAt + 2592000 || row.client != e.client then reply == InvalidGrant && u == s
    else GrantedAs(s, u, reply, Token(e.client, row.membership, e.access, e.refresh, false, now, row.chain),
                   s.codes, s.tokens[t := row.(revoked := true)], RefreshHonoured(t, now))
  }

  /** Every request, by what it finds: a string that several tokens share raises. */
  ghost predicate AnsweredAs(s: Store, u: Store, reply: Reply, e: Event, now: int) {
    match e
    case Authorize(code, client, membership) =>
      if exists c: nat :: c in s.codes && s.codes[c].code == code then reply == Raised && u == s
      else && reply.Created? && reply.id !in s.codes
           && u == s.(nextId := u.nextId, codes := s.codes[reply.id := Code(code, client, membership, now)])
    case Exchange(code, client, _, _) =>
      && ((forall c: nat :: !HasCode(s, c, code, client)) ==> reply == InvalidGrant && u == s)
      && forall c: nat :: HasCode(s, c, code, client) ==> CodeAnsweredAs(s, u, reply, e, now, c)
    case Renew(presented, _, _, _) =>
      && ((forall t: nat :: !HasRefresh(s, t, presented)) ==> reply == InvalidGrant && u == s)
      && forall t: nat :: HasRefresh(s, t, presented) ==>
           if exists o: nat :: o != t && HasRefresh(s, o, presented) then reply == Raised && u == s
           else RefreshAnsweredAs(s, u, reply, e, now, t)
  }

  lemma ExchangeAnswers(s: Store, e: Event, now: int)
    requires Valid(s) && e.Exchange?
    ensures AnsweredAs(s, Exchanging(s, e, now).0, Exchanging(s, e, now).1, e, now)
  {
    hide CodesSpent, TokensSpent, HonouredOnce, OneLive, First;
    var (u, reply) := Exchanging(s, e, now);
    forall c: nat | HasCode(s, c, e.code, e.client) ensures CodeAnsweredAs(s, u, reply, e, now, c) {
      OnlyCode(s, e.code, e.client, c);
    }
    forall c: nat ensures c in CodeRows(s, e.code, e.client) <==> HasCode(s, c, e.code, e.client) {
    }
  }

  lemma RenewAnswers(s: Store, e: Event, now: int)
    requires Valid(s) && e.Renew?
    ensures AnsweredAs(s, Renewing(s, e, now).0, Renewing(s, e, now).1, e, now)
  {
    hide CodesSpent, TokensSpent, HonouredOnce, OneLive, First, GrantedAs, AccessTaken;
    var (u, reply) := Renewing(s, e, now);
    forall t: nat ensures t in RefreshRows(s, e.presented) <==> HasRefresh(s, t, e.presented) {
    }
    forall t: nat | HasRefresh(s, t, e.presented)
      ensures if exists o: nat :: o != t && HasRefresh(s, o, e.presented) then reply == Raised && u == s
              else RefreshAnsweredAs(s, u, reply, e, now, t)
    {
      if o: nat :| o != t && HasRefresh(s, o, e.presented) {
        TwoRows(RefreshRows(s, e.presented), t, o);
      } else {
        assert forall o: nat :: o in RefreshRows(s, e.presented) ==> o == t;
        assert RefreshRows(s, e.presented) == {t};
        RenewFound(s, e, now, t);
      }
    }
  }

  lemma TwoRows(rows: set<nat>, a: nat, b: nat)
    requires a in rows && b in rows && a != b
    ensures Get(rows).Many?
  {
  }

  lemma RenewFound(s: Store, e: Event, now: int, t: nat)
    requires Valid(s) && e.Renew? && RefreshRows(s, e.presented) == {t} && HasRefresh(s, t, e.presented)
    ensures RefreshAnsweredAs(s, Renewing(s, e, now).0, Renewing(s, e, now).1, e, now, t)
  {
    hide CodesSpent, TokensSpent, HonouredOnce, OneLive, First, RefreshRows;
    OneFound(RefreshRows(s, e.presented), t);
    var u := Renewing(s, e, now).0;
    if u != s {
      var issued := Token(e.client, s.tokens[t].membership, e.access, e.refresh, false, now, s.tokens[t].chain);
      assert u.tokens == s.tokens[t := s.tokens[t].(revoked := true)][s.nextId := issued];
    }
  }

  lemma OneFound(rows: set<nat>, t: nat)
    requires rows == {t}
    ensures Get(rows) == Found(t)
  {
  }

  lemma AuthorizeAnswers(s: Store, e: Event, now: int)
    requires Valid(s) && e.Authorize?
    ensures AnsweredAs(s, Authorizing(s, e, now).0, Authorizing(s, e, now).1, e, now)
  {
    hide CodesSpent, TokensSpent, HonouredOnce, OneLive;
  }

  /** Every answer of the token endpoint, over any run. */
  lemma RunAnswers(s: Store, es: seq<Timed>, i: nat)
    requires Valid(s) && i < |es|
    ensures var t := Run(s, es[..i]);
            AnsweredAs(t, Step(t, es[i]).0, Step(t, es[i]).1, es[i].event, es[i].now)
  {
    hide Valid, Run, Authorizing, Exchanging, Renewing, AnsweredAs;
    HonoursOnce(s, es[..i]);
    var t, e := Run(s, es[..i]), es[i];
    match e.event
    case Authorize(_, _, _) => AuthorizeAnswers(t, e.event, e.now);
    case Exchange(_, _, _, _) => ExchangeAnswers(t, e.event, e.now);
    case Renew(_, _, _, _) => RenewAnswers(t, e.event, e.now);
  }

  // ---- Refusals --------------------------------------------------------------------------------------------------

  function Replies(s: Store, es: seq<Timed>): (r: seq<Reply>)
    ensures |r| == |es|
    decreases |es|
  {
    if es == [] then [] else [Step(s, es[0]).1] + Replies(Step(s, es[0]).0, es[1..])
  }

  /** The clock never goes back. */
  predicate Clocked(es: seq<Timed>, now: int) {
    forall i :: 0 <= i < |es| ==> now <= es[i].now && forall j :: i < j < |es| ==> es[i].now <= es[j].now
  }

  /** Nobody is given this code again. */
  predicate CodeNotDrawn(es: seq<Timed>, code: string) {
    forall i :: 0 <= i < |es| ==> !(es[i].event.Authorize? && es[i].event.code == code)
  }

  predicate DrawsRefresh(e: Event, refresh: string) {
    (e.Exchange? || e.Renew?) && e.refresh == refresh
  }

  predicate RefreshNotDrawn(es: seq<Timed>, refresh: string) {
    forall i :: 0 <= i < |es| ==> !DrawsRefresh(es[i].event, refresh)
  }

  /** No later step brings back a code that would be refused. */
  lemma RefusedCodeStays(s: Store, e: Timed, code: string, client: string, later: int)
    requires Valid(s) && QueryCode(s, code, client, e.now).Err? && e.now <= later
    requires !(e.event.Authorize? && e.event.code == code)
    ensures QueryCode(Step(s, e).0, code, client, later).Err?
  {
    hide AccessTaken, CodesSpent, TokensSpent, HonouredOnce, OneLive, First, QueryRefresh;
    var u := Step(s, e).0;
    var q := QueryCode(u, code, client, later);
    if q.Ok? {
      assert q.value in CodeRows(u, code, client);
      assert q.value in CodeRows(s, code, client);
      OnlyCode(s, code, client, q.value);
    }
  }

  lemma OnlyCode(s: Store, code: string, client: string, c: nat)
    requires Keys(s) && c in CodeRows(s, code, client)
    ensures Get(CodeRows(s, code, client)) == Found(c)
  {
    assert CodeRows(s, code, client) == {c};
  }

  /** Once a code is refused to a client it is refused for ever. */
  lemma {:induction false} CodeRefusalIsPermanent(s: Store, es: seq<Timed>, code: string, client: string, now: int)
    requires Valid(s) && QueryCode(s, code, client, now).Err? && Clocked(es, now) && CodeNotDrawn(es, code)
    ensures forall i | && 0 <= i < |es| && es[i].event.Exchange?
                       && es[i].event.code == code && es[i].event.client == client
              :: !Replies(s, es)[i].Issued?
    decreases |es|
  {
    hide Valid, Step, QueryCode;
    if es != [] {
      var e, u := es[0], Step(s, es[0]).0;
      StillRefused(s, code, client, now, e.now);
      StepKeeps(s, e);
      RefusedCodeStays(s, e, code, client, e.now);
      assert Clocked(es[1..], e.now) && CodeNotDrawn(es[1..], code);
      CodeRefusalIsPermanent(u, es[1..], code, client, e.now);
      RefusedNow(s, e, code, client);
      forall i | 0 <= i < |es| && es[i].event.Exchange? && es[i].event.code == code && es[i].event.client == client
        ensures !Replies(s, es)[i].Issued?
      {
        if i > 0 { assert es[i] == es[1..][i - 1]; }
      }
    }
  }

  lemma StillRefused(s: Store, code: string, client: string, now: int, later: int)
    requires QueryCode(s, code, client, now).Err? && now <= later
    ensures QueryCode(s, code, client, later).Err?
  {
  }

  lemma RefusedNow(s: Store, e: Timed, code: string, client: string)
    requires QueryCode(s, code, client, e.now).Err?
    ensures e.event.Exchange? && e.event.code == code && e.event.client == client ==> !Step(s, e).1.Issued?
  {
    hide First;
  }

  lemma RefusedRefreshStays(s: Store, e: Timed, refresh: string, client: string, later: int)
    requires Valid(s) && QueryRefresh(s, refresh, client, e.now).Err? && e.now <= later
             && !DrawsRefresh(e.event, refresh)
    ensures QueryRefresh(Step(s, e).0, refresh, client, later).Err?
  {
    hide AccessTaken, CodesSpent, TokensSpent, HonouredOnce, OneLive, First, QueryCode;
    var u := Step(s, e).0;
    SameRefreshRows(s, e, refresh);
  }

  /** A step that does not draw the value leaves its rows, which can only become revoked. */
  lemma SameRefreshRows(s: Store, e: Timed, refresh: string)
    requires Valid(s) && !DrawsRefresh(e.event, refresh)
    ensures RefreshRows(Step(s, e).0, refresh) == RefreshRows(s, refresh)
    ensures forall t :: t in RefreshRows(s, refresh) ==>
              var u := Step(s, e).0;
              && t in u.tokens && u.tokens[t] == s.tokens[t].(revoked := u.tokens[t].revoked)
              && (s.tokens[t].revoked ==> u.tokens[t].revoked)
  {
    hide AccessTaken, CodesSpent, TokensSpent, HonouredOnce, OneLive, QueryCode, QueryRefresh;
  }

  /** Once a refresh token is refused to a client it is refused for ever. */
  lemma {:induction false} RefreshRefusalIsPermanent(s: Store, es: seq<Timed>, refresh: string, client: string,
        now: int)
    requires Valid(s) && QueryRefresh(s, refresh, client, now).Err? && Clocked(es, now) && RefreshNotDrawn(es, refresh)
    ensures forall i | && 0 <= i < |es| && es[i].event.Renew?
                       && es[i].event.presented == refresh && es[i].event.client == client
              :: !Replies(s, es)[i].Issued?
    decreases |es|
  {
    hide Valid, Step, QueryRefresh;
    if es != [] {
      var e, u := es[0], Step(s, es[0]).0;
      RefreshStillRefused(s, refresh, client, now, e.now);
      StepKeeps(s, e);
      RefusedRefreshStays(s, e, refresh, client, e.now);
      assert Clocked(es[1..], e.now) && RefreshNotDrawn(es[1..], refresh);
      RefreshRefusalIsPermanent(u, es[1..], refresh, client, e.now);
      RefreshRefusedNow(s, e, refresh, client);
      forall i | 0 <= i < |es| && es[i].event.Renew? && es[i].event.presented == refresh && es[i].event.client == client
        ensures !Replies(s, es)[i].Issued?
      {
        if i > 0 { assert es[i] == es[1..][i - 1]; }
      }
    }
  }

  lemma RefreshStillRefused(s: Store, refresh: string, client: string, now: int, later: int)
    requires QueryRefresh(s, refresh, client, now).Err? && now <= later
    ensures QueryRefresh(s, refresh, client, later).Err?
  {
  }

  lemma RefreshRefusedNow(s: Store, e: Timed, refresh: string, client: string)
    requires QueryRefresh(s, refresh, client, e.now).Err?
    ensures e.event.Renew? && e.event.presented == refresh && e.event.client == client ==> !Step(s, e).1.Issued?
  {
    hide First;
  }

  /** A refresh token that was honoured is refused from then on. */
  lemma RenewedThenRefused(s: Store, e: Timed, later: int)
    requires Valid(s) && e.event.Renew? && e.event.refresh != e.event.presented && Step(s, e).1.Issued?
    ensures QueryRefresh(Step(s, e).0, e.event.presented, e.event.client, later).Err?
  {
    hide AccessTaken, CodesSpent, TokensSpent, HonouredOnce, OneLive, First;
    SameRefreshRows(s, e, e.event.presented);
  }

  // ---- The endpoint as it runs ---------------------------------------------------------------------------------

  class TokenEndpoint {
    var store: Store

    constructor (store: Store)
      ensures this.store == store
    {
      this.store := store;
    }

    /** `query_authorization_code`. */
    method QueryAuthorizationCode(code: string, client: string, now: int) returns (r: Result<nat, Reply>)
      ensures r == QueryCode(store, code, client, now)
    {
      match Get(CodeRows(store, code, client)) {
        case Missing =>
          return Err(InvalidGrant);
        case Many =>
          return Err(Raised);
        case Found(c) =>
          assert c in CodeRows(store, code, client);
          var expires := store.codes[c].authTime + CODE_LIFETIME;
          if now > expires {
            return Err(InvalidGrant);
          }
          return Ok(c);
      }
    }

    /** `delete_authorization_code`. */
    method DeleteAuthorizationCode(c: nat, now: int)
      modifies this
      ensures store == old(store).(codes := old(store).codes - {c},
                                   honours := old(store).honours + [CodeHonoured(c, now)])
    {
      store := store.(codes := store.codes - {c}, honours := store.honours + [CodeHonoured(c, now)]);
    }

    /** `authenticate_refresh_token`. */
    method AuthenticateRefreshToken(refresh: string, client: string, now: int) returns (r: Result<nat, Reply>)
      ensures r == QueryRefresh(store, refresh, client, now)
    {
      match Get(RefreshRows(store, refresh)) {
        case Missing =>
          return Err(InvalidGrant);
        case Many =>
          return Err(Raised);
        case Found(t) =>
          assert t in RefreshRows(store, refresh);
          if store.tokens[t].revoked || store.tokens[t].issuedAt + REFRESH_LIFETIME < now {
            return Err(InvalidGrant);
          }
          if store.tokens[t].client != client {
            return Err(InvalidGrant);
          }
          return Ok(t);
      }
    }

    /** `revoke_old_credential`. */
    method RevokeOldCredential(t: nat, now: int)
      requires t in store.tokens
      modifies this
      ensures store == Revoked(old(store), t).(honours := old(store).honours + [RefreshHonoured(t, now)])
    {
      var row := store.tokens[t];
      row := row.(revoked := true);
      store := store.(tokens := store.tokens[t := row], honours := store.honours + [RefreshHonoured(t, now)]);
    }

    /** The authorization-code grant: look up, issue, delete. */
    method ExchangeCode(code: string, client: string, access: string, refresh: string, now: int) returns (reply: Reply)
      modifies this
      ensures (store, reply) == Step(old(store), At(now, Exchange(code, client, access, refresh)))
    {
      hide QueryCode, AccessTaken;
      var found := QueryAuthorizationCode(code, client, now);
      if found.Err? {
        return found.error;
      }
      var c := found.value;
      if AccessTaken(store, access) {
        return Raised;
      }
      var t := store.nextId;
      store := Issue(store, client, store.codes[c].membership, access, refresh, now, c);
      DeleteAuthorizationCode(c, now);
      return Issued(t);
    }

    /** The refresh-token grant: look up, issue, revoke. */
    method RenewToken(presented: string, client: string, access: string, refresh: string,
                      now: int) returns (reply: Reply)
      modifies this
      ensures (store, reply) == Step(old(store), At(now, Renew(presented, client, access, refresh)))
    {
      hide QueryRefresh, AccessTaken;
      var found := AuthenticateRefreshToken(presented, client, now);
      if found.Err? {
        return found.error;
      }
      var t := found.value;
      if AccessTaken(store, access) {
        return Raised;
      }
      var issued := store.nextId;
      store := Issue(store, client, store.tokens[t].membership, access, refresh, now, store.tokens[t].chain);
      RevokeOldCredential(t, now);
      return Issued(issued);
    }
  }
}
