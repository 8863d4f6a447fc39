/** What one redeem token can be granted for over a whole run. */
module TokenTraces {
  import opened Prelude
  import opened Rows
  import opened Clients
  import opened DeviceCodes
  import opened Invariants
  import opened Lifecycle

  /** A client a token was redeemed into, and the digest of the manifest that was presented. */
  datatype Award = Award(client: nat, hash: string)

  /** The grant an event makes on token row `r`, if any. */
  function GrantOf(w: Crypto, t: Tables, e: Timed, r: nat): Option<Award> {
    if e.event.Redeeming? && Get(TokenRows(t, e.event.request.token)) == Found(r) then
      match Redeem(w, t, e.event.request, e.now).1
      case Redeemed(c) => Some(Award(c, w.manifestHash(e.event.request.manifest)))
      case _ => None
    else None
  }

  function Grants(w: Crypto, t: Tables, es: seq<Timed>, r: nat): seq<Award>
    decreases |es|
  {
    if es == [] then []
    else
      var g := GrantOf(w, t, es[0], r);
      (if g.Some? then [g.value] else []) + Grants(w, Step(w, t, es[0]).0, es[1..], r)
  }

  /** A row that survives keeps its text, expiry and policy. */
  predicate SameTerms(a: RedeemToken, b: RedeemToken) {
    a.token == b.token && a.expiresAt == b.expiresAt && a.allowReredeem == b.allowReredeem
  }

  /** How a step with grant `g` at time `now` treats token row `r`: it is removed only when it has
      expired; a grant records client and digest and, without `allow_reredeem`, never replaces
      recorded ones; anything else leaves both columns alone. */
  ghost predicate RowEvolves(before: map<nat, RedeemToken>, after: map<nat, RedeemToken>, next: nat, g: Option<Award>,
                             now: int, r: nat) {
    if r !in before then g.None? && (r in after ==> next <= r && after[r].client.None? && after[r].manifestHash.None?)
    else if r !in after then g.None? && IsExpired(before[r], now)
    else
      var a, b := before[r], after[r];
      && SameTerms(a, b)
      && (g.None? ==> b.client == a.client && b.manifestHash == a.manifestHash)
      && (g.Some? ==>
            && b.client == Some(g.value.client) && b.manifestHash == Some(g.value.hash)
            && (!a.allowReredeem && a.client.Some? ==> b.client == a.client)
            && (!a.allowReredeem && a.client.Some? && a.manifestHash.Some? ==> b.manifestHash == a.manifestHash))
  }

  lemma InRows(t: Tables, token: string, r: nat)
    requires TokenRows(t, token) == {r}
    ensures r in t.tokens && t.tokens[r].token == token
  {
    assert r in TokenRows(t, token);
  }

  lemma Untouched(tokens: map<nat, RedeemToken>, next: nat, now: int, r: nat)
    ensures RowEvolves(tokens, tokens, next, None, now, r)
  {
  }

  lemma IssueEvolves(t: Tables, e: Event, now: int, r: nat)
    requires Drawn(t.tokens, t.nextId) && e.Issue?
    ensures RowEvolves(t.tokens, Outcome(t, IssueToken(t, e)).0.tokens, t.nextId, None, now, r)
  {
    hide *;
    match Get(TokenRows(t, e.token))
    case Found(k) => ReissueEvolves(t, e, now, r, k);
    case _ => NewIssueEvolves(t, e, now, r);
  }

  lemma ReissueEvolves(t: Tables, e: Event, now: int, r: nat, k: nat)
    requires e.Issue? && Get(TokenRows(t, e.token)) == Found(k)
    ensures RowEvolves(t.tokens, Outcome(t, IssueToken(t, e)).0.tokens, t.nextId, None, now, r)
  {
    hide TokenRows, First, RowEvolves;
    InRows(t, e.token, k);
    Untouched(t.tokens, t.nextId, now, r);
    Rewritten(t.tokens, k, t.tokens[k].(user := e.user, composition := e.composition), t.nextId, now, r);
  }

  lemma NewIssueEvolves(t: Tables, e: Event, now: int, r: nat)
    requires Drawn(t.tokens, t.nextId) && e.Issue? && !Get(TokenRows(t, e.token)).Found?
    ensures RowEvolves(t.tokens, Outcome(t, IssueToken(t, e)).0.tokens, t.nextId, None, now, r)
  {
    hide TokenRows, First, Get, RowEvolves, Drawn;
    Untouched(t.tokens, t.nextId, now, r);
    Inserted(t.tokens, t.nextId,
             RedeemToken(e.token, e.user, e.composition, None, e.expiresAt, None, e.allowReredeem), now, r);
  }

  lemma Rewritten(tokens: map<nat, RedeemToken>, k: nat, row: RedeemToken, next: nat, now: int, r: nat)
    requires k in tokens && SameTerms(tokens[k], row) && row.client == tokens[k].client
             && row.manifestHash == tokens[k].manifestHash
    ensures RowEvolves(tokens, tokens[k := row], next, None, now, r)
  {
  }

  lemma Inserted(tokens: map<nat, RedeemToken>, next: nat, row: RedeemToken, now: int, r: nat)
    requires Drawn(tokens, next) && row.client.None? && row.manifestHash.None?
    ensures RowEvolves(tokens, tokens[next := row], next, None, now, r)
  {
  }

  /** Recording a grant on row `k`. */
  lemma Recorded(tokens: map<nat, RedeemToken>, k: nat, g: Award, next: nat, now: int, r: nat)
    requires k in tokens
    requires var a := tokens[k];
             a.allowReredeem || a.client.None?
                 || (a.client == Some(g.client) && (a.manifestHash.None? || a.manifestHash == Some(g.hash)))
    ensures RowEvolves(tokens, tokens[k := tokens[k].(client := Some(g.client), manifestHash := Some(g.hash))], next,
                       if r == k then Some(g) else None, now, r)
  {
  }

  /** What validating a token does to the token table: one row is attached, the others stay. */
  lemma ValidateWrites(w: Crypto, t: Tables, r: nat, q: Request)
    requires r in t.tokens && ValidateRedeemToken(w, t, r, q).Ok?
    ensures var (u, c) := ValidateRedeemToken(w, t, r, q).value;
            u.tokens == t.tokens[r := t.tokens[r].(client := Some(c))]
  {
    hide FindOrCreate, GetOrCreateNode;
  }

  /** The grant that redeeming row `k` makes. */
  function LockedGrant(w: Crypto, t: Tables, k: nat, q: Request): Option<Award>
    requires k in t.tokens
  {
    match RedeemLocked(w, t, k, q).1
    case Redeemed(c) => Some(Award(c, w.manifestHash(q.manifest)))
    case _ => None
  }

  lemma LockedEvolves(w: Crypto, t: Tables, k: nat, q: Request, now: int, r: nat)
    requires k in t.tokens
    ensures RowEvolves(t.tokens, RedeemLocked(w, t, k, q).0.tokens, t.nextId, if r == k then LockedGrant(w, t, k, q)
                       else None, now, r)
  {
    hide ValidateRedeemToken, RowEvolves;
    var row, hash := t.tokens[k], w.manifestHash(q.manifest);
    if row.client.Some? && (row.manifestHash.None? || row.manifestHash == Some(hash)) {
      Recorded(t.tokens, k, Award(row.client.value, hash), t.nextId, now, r);
      assert t.tokens[k := row] == t.tokens;
    } else if LockedGrant(w, t, k, q).None? {
      Untouched(t.tokens, t.nextId, now, r);
    } else {
      ValidateWrites(w, t, k, q);
      var (u, c) := ValidateRedeemToken(w, t, k, q).value;
      Recorded(t.tokens, k, Award(c, hash), t.nextId, now, r);
      assert u.tokens[k := u.tokens[k].(manifestHash := Some(hash))]
          == t.tokens[k := row.(client := Some(c), manifestHash := Some(hash))];
    }
  }

  lemma RedeemEvolves(w: Crypto, t: Tables, e: Timed, r: nat)
    requires e.event.Redeeming?
    ensures RowEvolves(t.tokens, Redeem(w, t, e.event.request, e.now).0.tokens, t.nextId, GrantOf(w, t, e, r), e.now, r)
  {
    hide *;
    match Get(TokenRows(t, e.event.request.token))
    case Found(k) => RedeemFoundEvolves(w, t, e, r, k);
    case _ => RedeemMissesEvolves(w, t, e, r);
  }

  lemma RedeemMissesEvolves(w: Crypto, t: Tables, e: Timed, r: nat)
    requires e.event.Redeeming? && !Get(TokenRows(t, e.event.request.token)).Found?
    ensures RowEvolves(t.tokens, Redeem(w, t, e.event.request, e.now).0.tokens, t.nextId, GrantOf(w, t, e, r), e.now, r)
  {
    hide TokenRows, Get, RowEvolves;
    Untouched(t.tokens, t.nextId, e.now, r);
  }

  lemma RedeemFoundEvolves(w: Crypto, t: Tables, e: Timed, r: nat, k: nat)
    requires e.event.Redeeming? && Get(TokenRows(t, e.event.request.token)) == Found(k)
    ensures RowEvolves(t.tokens, Redeem(w, t, e.event.request, e.now).0.tokens, t.nextId, GrantOf(w, t, e, r), e.now, r)
  {
    hide TokenRows, First, RedeemLocked, RowEvolves;
    InRows(t, e.event.request.token, k);
    Dropped(t.tokens, k, t.nextId, e.now, r);
    LockedEvolves(w, t, k, e.event.request, e.now, r);
  }

  lemma Dropped(tokens: map<nat, RedeemToken>, k: nat, next: nat, now: int, r: nat)
    requires k in tokens
    ensures IsExpired(tokens[k], now) ==> RowEvolves(tokens, tokens - {k}, next, None, now, r)
  {
  }

  lemma StepEvolvesToken(w: Crypto, t: Tables, e: Timed, r: nat)
    requires Drawn(t.tokens, t.nextId)
    ensures RowEvolves(t.tokens, Step(w, t, e).0.tokens, t.nextId, GrantOf(w, t, e, r), e.now, r)
  {
    hide CreateClient, Redeem, IssueToken, StartDeviceCode, AcceptDeviceCode, Deny, Challenge, RowEvolves, Drawn,
      Outcome;
    match e.event
    case Issue(_, _, _, _, _) => IssueEvolves(t, e.event, e.now, r);
    case Redeeming(_) => RedeemEvolves(w, t, e, r);
    case _ => OthersLeaveTokens(w, t, e, r);
  }

  lemma OthersLeaveTokens(w: Crypto, t: Tables, e: Timed, r: nat)
    requires !e.event.Issue? && !e.event.Redeeming?
    ensures RowEvolves(t.tokens, Step(w, t, e).0.tokens, t.nextId, GrantOf(w, t, e, r), e.now, r)
  {
    hide *;
    SameTokens(w, t, e);
    GrantsNothing(w, t, e, r);
    Untouched(t.tokens, t.nextId, e.now, r);
  }

  lemma GrantsNothing(w: Crypto, t: Tables, e: Timed, r: nat)
    requires !e.event.Redeeming?
    ensures GrantOf(w, t, e, r) == None
  {
    hide Redeem, TokenRows, First;
  }

  lemma SameTokens(w: Crypto, t: Tables, e: Timed)
    requires !e.event.Issue? && !e.event.Redeeming?
    ensures Step(w, t, e).0.tokens == t.tokens
  {
    hide *;
    match e.event
    case Register(_) => RegisterSameTokens(w, t, e);
    case Start(_, _, _) => StartSameTokens(w, t, e);
    case Accept(_, _) => AcceptSameTokens(w, t, e);
    case DenyCode(_) => DenySameTokens(w, t, e);
    case PollCode(_) => PollSameTokens(w, t, e);
  }

  lemma RegisterSameTokens(w: Crypto, t: Tables, e: Timed)
    requires e.event.Register?
    ensures Step(w, t, e).0.tokens == t.tokens
  {
    hide CreateClient;
  }

  lemma StartSameTokens(w: Crypto, t: Tables, e: Timed)
    requires e.event.Start?
    ensures Step(w, t, e).0.tokens == t.tokens
  {
    hide StartDeviceCode;
  }

  lemma AcceptSameTokens(w: Crypto, t: Tables, e: Timed)
    requires e.event.Accept?
    ensures Step(w, t, e).0.tokens == t.tokens
  {
    hide AcceptDeviceCode;
  }

  lemma DenySameTokens(w: Crypto, t: Tables, e: Timed)
    requires e.event.DenyCode?
    ensures Step(w, t, e).0.tokens == t.tokens
  {
    hide Deny;
  }

  lemma PollSameTokens(w: Crypto, t: Tables, e: Timed)
    requires e.event.PollCode?
    ensures Step(w, t, e).0.tokens == t.tokens
  {
    hide Challenge;
  }

  // ---- Over whole runs ---------------------------------------------------------------------------

  /** A row that is gone stays gone: its key is never drawn again. */
  lemma {:induction false} GoneForGood(w: Crypto, t: Tables, es: seq<Timed>, r: nat)
    requires Sound(t) && r !in t.tokens && r < t.nextId
    ensures Grants(w, t, es, r) == [] && r !in Run(w, t, es).tokens
    decreases |es|
  {
    hide Sound, Step, NoStrays, StatusesAgree, GrantOf;
    if es != [] {
      var u := Step(w, t, es[0]).0;
      StepKeeps(w, t, es[0], false);
      TokensDrawn(t);
      StepEvolvesToken(w, t, es[0], r);
      GoneForGood(w, u, es[1..], r);
      assert GrantOf(w, t, es[0], r).None?;
      assert Grants(w, t, es, r) == [] + Grants(w, u, es[1..], r);
    }
  }

  lemma TokensDrawn(t: Tables)
    requires Sound(t)
    ensures Drawn(t.tokens, t.nextId)
  {
  }

  /** All grants are one and the same, and repeat the recorded client, and with it the recorded digest. */
  ghost predicate Uniform(gs: seq<Award>, client: Option<nat>, hash: Option<string>) {
    && (forall i, j :: 0 <= i < |gs| && 0 <= j < |gs| ==> gs[i] == gs[j])
    && (client.Some? ==> forall i :: 0 <= i < |gs| ==> gs[i].client == client.value)
    && (client.Some? && hash.Some? ==> forall i :: 0 <= i < |gs| ==> gs[i].hash == hash.value)
  }

  lemma UniformCons(g: Award, rest: seq<Award>)
    requires Uniform(rest, Some(g.client), Some(g.hash))
    ensures forall i :: 0 <= i < |rest| ==> rest[i] == g
    ensures Uniform([g] + rest, Some(g.client), Some(g.hash))
  {
    forall i | 0 <= i < |rest| ensures rest[i] == g {
      assert rest[i].client == g.client && rest[i].hash == g.hash;
    }
  }

  /** Without `allow_reredeem` every grant of a token, over any run, names one client and was made for
      manifests with one digest.  (A token of before digests were kept has a client only: it keeps that
      client, and its first grant fixes the digest.) */
  lemma {:induction false} OneGrant(w: Crypto, t: Tables, es: seq<Timed>, r: nat)
    requires Sound(t) && r in t.tokens && !t.tokens[r].allowReredeem
    ensures Uniform(Grants(w, t, es, r), t.tokens[r].client, t.tokens[r].manifestHash)
    decreases |es|
  {
    hide Sound, Step, NoStrays, StatusesAgree, GrantOf;
    if es == [] {
      assert Grants(w, t, es, r) == [];
    } else {
      var u := Step(w, t, es[0]).0;
      StepKeeps(w, t, es[0], false);
      TokensDrawn(t);
      StepEvolvesToken(w, t, es[0], r);
      var g, rest := GrantOf(w, t, es[0], r), Grants(w, u, es[1..], r);
      assert Grants(w, t, es, r) == if g.Some? then [g.value] + rest else rest;
      if r in u.tokens {
        OneGrant(w, u, es[1..], r);
        if g.Some? { UniformCons(g.value, rest); }
      } else {
        GoneForGood(w, u, es[1..], r);
      }
    }
  }

  /** The row, if it is there, has a digest exactly when it has a client. */
  predicate HashTracksClient(tokens: map<nat, RedeemToken>, r: nat) {
    r in tokens ==> (tokens[r].client.Some? <==> tokens[r].manifestHash.Some?)
  }

  lemma {:induction false} HashWithClient(w: Crypto, t: Tables, es: seq<Timed>, r: nat)
    requires Sound(t) && HashTracksClient(t.tokens, r)
    ensures HashTracksClient(Run(w, t, es).tokens, r)
    decreases |es|
  {
    hide Sound, Step, NoStrays, StatusesAgree, GrantOf;
    if es != [] {
      StepKeeps(w, t, es[0], false);
      TokensDrawn(t);
      StepEvolvesToken(w, t, es[0], r);
      HashWithClient(w, Step(w, t, es[0]).0, es[1..], r);
    }
  }
}
