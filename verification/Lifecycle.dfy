/** Serial runs of the client lifecycle: registrations, redeems, device codes and the clock. */
module Lifecycle {
  import opened Prelude
  import opened Rows
  import opened Clients
  import opened DeviceCodes
  import opened Invariants
  import Rendering

  datatype Event =
    | Register(order: Order)
    | Issue(token: string, user: nat, composition: nat, expiresAt: Option<int>, allowReredeem: bool)
    | Redeeming(request: Request)
    | Start(staging: Staging, code: string, download: Download)
    | Accept(row: nat, acceptance: Acceptance)
    | DenyCode(row: nat)
    | PollCode(code: string)

  /** An event and the clock when it happens. */
  datatype Timed = At(now: int, event: Event)

  datatype Reply =
    | Created(id: nat)
    | Answered(answer: Answer)
    | Polled(poll: Poll)
    | Refused(error: Error)

  /** `create_redeem_token`: `update_or_create` by the token string, for a composition that exists. */
  function IssueToken(t: Tables, e: Event): (r: Result<(Tables, nat), Error>)
    requires e.Issue?
    ensures r.Ok? ==> r.value.0 == t.(nextId := r.value.0.nextId, tokens := r.value.0.tokens)
  {
    if e.composition !in t.compositions then Err(Integrity)
    else match Get(TokenRows(t, e.token))
    case Found(r) =>
      assert r in TokenRows(t, e.token);
      Ok((t.(tokens := t.tokens[r := t.tokens[r].(user := e.user, composition := e.composition)]), r))
    case Missing =>
      Ok((t.(nextId := t.nextId + 1,
             tokens := t.tokens[t.nextId := RedeemToken(e.token, e.user, e.composition, None, e.expiresAt, None,
                                                        e.allowReredeem)]),
          t.nextId))
    case Many => Err(Ambiguous)
  }

  /** A call that raises leaves the tables as they were. */
  function Outcome(t: Tables, r: Result<(Tables, nat), Error>): (Tables, Reply) {
    match r
    case Ok((u, id)) => (u, Created(id))
    case Err(e) => (t, Refused(e))
  }

  function Step(w: Crypto, t: Tables, e: Timed): (Tables, Reply) {
    match e.event
    case Register(order) => Outcome(t, CreateClient(w, t, order))
    case Issue(_, _, _, _, _) => Outcome(t, IssueToken(t, e.event))
    case Redeeming(request) => var (u, answer) := Redeem(w, t, request, e.now); (u, Answered(answer))
    case Start(staging, code, download) => Outcome(t, StartDeviceCode(t, staging, code, download, e.now))
    case Accept(row, acceptance) => Outcome(t, AcceptDeviceCode(w, t, row, acceptance))
    case DenyCode(row) => (Deny(t, row), Created(row))
    case PollCode(code) => var (u, poll) := Challenge(t, code, e.now); (u, Polled(poll))
  }

  function Run(w: Crypto, t: Tables, es: seq<Timed>): Tables
    decreases |es|
  {
    if es == [] then t else Run(w, Step(w, t, es[0]).0, es[1..])
  }

  /** The manifests an event brings in list every key once. */
  predicate DistinctEvent(e: Timed) {
    match e.event
    case Register(order) => Rendering.DistinctKeys(order.manifest.requirements)
    case Redeeming(request) => Rendering.DistinctKeys(request.manifest.requirements)
    case Start(staging, _, _) => Rendering.DistinctKeys(staging.manifest.requirements)
    case _ => true
  }

  ghost predicate DistinctCodes(codes: map<nat, DeviceCode>) {
    forall k :: k in codes ==> Rendering.DistinctKeys(codes[k].manifest.requirements)
  }

  // ---- Each step keeps the invariant -----------------------------------------------------------

  lemma LockedKeeps(w: Crypto, t: Tables, r: nat, q: Request, distinct: bool)
    requires Sound(t) && r in t.tokens && (distinct ==> Rendering.DistinctKeys(q.manifest.requirements))
    ensures Keeps(t, RedeemLocked(w, t, r, q).0, distinct)
  {
    hide Extends, StatusesAgree, Rendering.DistinctKeys, ValidateRedeemToken, SoundRegistry, UniqueTokens, UniqueCodes,
      CodesHold, UniqueMemberships, UniqueScopes, Drawn;
    var row, hash := t.tokens[r], w.manifestHash(q.manifest);
    var u := RedeemLocked(w, t, r, q).0;
    if u == t {
      Unchanged(t);
    } else if row.client.Some? && row.manifestHash.None? {
      PutToken(t, r, row.(manifestHash := Some(hash)));
    } else {
      ValidateKeeps(w, t, r, q, distinct);
      var t1 := ValidateRedeemToken(w, t, r, q).value.0;
      PutToken(t1, r, t1.tokens[r].(manifestHash := Some(hash)));
      KeepsTransitive(t, t1, u, distinct);
    }
  }

  lemma Unchanged(t: Tables)
    requires Sound(t)
    ensures Keeps(t, t, true)
  {
    hide Sound, StatusesAgree;
    SameClients(t, t);
  }

  /** Removing token or code rows keeps everything. */
  lemma FewerVouchers(t: Tables, u: Tables)
    requires Sound(t) && u == t.(tokens := u.tokens, codes := u.codes)
    requires forall r :: r in u.tokens ==> r in t.tokens && u.tokens[r] == t.tokens[r]
    requires forall k :: k in u.codes ==> k in t.codes && u.codes[k] == t.codes[k]
    ensures Keeps(t, u, true)
  {
    hide OneApp, UniqueReleases, UniqueDevices, OneDevelopmentClient, OneOwner, MappingsOwned, ClientsAuthorized,
      UniqueMemberships, UniqueScopes, Extends, StatusesAgree;
    SameClients(t, u);
    SameAgreement(t, u);
  }

  lemma RedeemKeeps(w: Crypto, t: Tables, q: Request, now: int, distinct: bool)
    requires Sound(t) && (distinct ==> Rendering.DistinctKeys(q.manifest.requirements))
    ensures Keeps(t, Redeem(w, t, q, now).0, distinct)
  {
    hide Sound, Extends, StatusesAgree, RedeemLocked, Rendering.DistinctKeys;
    Unchanged(t);
    FewerVouchers(t, DropToken(t, q.token));
    if Get(TokenRows(t, q.token)).Found? {
      var r := Get(TokenRows(t, q.token)).id;
      assert r in TokenRows(t, q.token);
      LockedKeeps(w, t, r, q, distinct);
    }
  }

  lemma PutCode(t: Tables, k: nat, row: DeviceCode)
    requires Sound(t) && k in t.codes && row.code == t.codes[k].code
             && (row.client.Some? ==> row.client.value in t.clients)
    ensures Keeps(t, t.(codes := t.codes[k := row]), true)
  {
    hide OneApp, UniqueReleases, UniqueDevices, OneDevelopmentClient, OneOwner, MappingsOwned, ClientsAuthorized,
      UniqueMemberships, UniqueScopes, UniqueTokens, OneTokenPerClient, TokensHold, Extends, StatusesAgree;
    var u := t.(codes := t.codes[k := row]);
    SameClients(t, u);
    SameAgreement(t, u);
  }

  lemma ReuseOrCreateKeeps(w: Crypto, t: Tables, row: DeviceCode, node: Option<nat>, organization: nat, a: Acceptance,
                           distinct: bool)
    requires Sound(t) && ReuseOrCreate(w, t, row, node, organization, a).Ok?
    requires distinct ==> Rendering.DistinctKeys(row.manifest.requirements)
    ensures Keeps(t, ReuseOrCreate(w, t, row, node, organization, a).value.0, distinct)
  {
    hide SoundRegistry, SoundVouchers, Extends, StatusesAgree, Rendering.DistinctKeys, Rendering.AutoCompose,
      CreateClient, Reusable;
    var m := row.manifest;
    var u := ReuseOrCreate(w, t, row, node, organization, a).value.0;
    match First(Reusable(t, m.identifier, m.version, row.kind, node, a.user, organization, a.composition,
                         RedirectText(w, row.redirectUris)))
    case Some(c) =>
      ComposeSound(w, t, c, m, a.user, a.declined);
      ComposeKeeps(w, t, c, m, a.user, a.declined);
      VouchersCarried(t, u);
    case None =>
      CreateClientKeepsAll(w, t, Order(m, Config(Development, row.role, a.newToken, a.user, a.user, organization),
                                       a.user, organization, Some(a.composition), a.declined, a.draw), distinct);
  }

  lemma AcceptKeeps(w: Crypto, t: Tables, k: nat, a: Acceptance, distinct: bool)
    requires Sound(t) && AcceptDeviceCode(w, t, k, a).Ok?
    requires distinct ==> DistinctCodes(t.codes)
    ensures Keeps(t, AcceptDeviceCode(w, t, k, a).value.0, distinct)
  {
    hide Sound, Extends, StatusesAgree, GetOrCreateNode, ReuseOrCreate, Rendering.DistinctKeys;
    var row, organization := t.codes[k], t.compositions[a.composition].organization;
    var (t1, node) := GetOrCreateNode(w, t, row.manifest, organization).value;
    var (t2, c) := ReuseOrCreate(w, t1, row, node, organization, a).value;
    NodeKeeps(w, t, row.manifest, organization);
    ReuseOrCreateKeeps(w, t1, row, node, organization, a, distinct);
    PutCode(t2, k, row.(client := Some(c)));
    KeepsTransitive(t, t1, t2, distinct);
    KeepsTransitive(t, t2, AcceptDeviceCode(w, t, k, a).value.0, distinct);
  }

  lemma StartKeeps(t: Tables, g: Staging, code: string, download: Download, now: int)
    requires Sound(t) && StartDeviceCode(t, g, code, download, now).Ok?
    ensures Keeps(t, StartDeviceCode(t, g, code, download, now).value.0, true)
  {
    hide OneApp, UniqueReleases, UniqueDevices, OneDevelopmentClient, OneOwner, MappingsOwned, ClientsAuthorized, Drawn,
      UniqueMemberships, UniqueScopes, UniqueTokens, OneTokenPerClient, TokensHold, Extends, StatusesAgree;
    var u := StartDeviceCode(t, g, code, download, now).value.0;
    assert forall k :: k in t.codes && t.codes[k].code == code ==> k in CodeRows(t, code);
    AllDrawnLater(t, t.nextId + 1);
    DrawnInsert(t.codes, t.nextId, u.codes[t.nextId]);
    SameClients(t, u);
    SameAgreement(t, u);
  }

  lemma IssueKeeps(t: Tables, e: Event)
    requires Sound(t) && e.Issue? && IssueToken(t, e).Ok?
    ensures Keeps(t, IssueToken(t, e).value.0, true)
  {
    hide Sound, TokenRows, Extends, StatusesAgree;
    match Get(TokenRows(t, e.token))
    case Found(r) =>
      TokenFacts(t, e.token, r);
      PutToken(t, r, t.tokens[r].(user := e.user, composition := e.composition));
    case Missing =>
      NewToken(t, RedeemToken(e.token, e.user, e.composition, None, e.expiresAt, None, e.allowReredeem));
  }

  lemma TokenFacts(t: Tables, token: string, r: nat)
    requires Sound(t) && TokenRows(t, token) == {r}
    ensures r in t.tokens && t.tokens[r].token == token
    ensures t.tokens[r].client.Some? ==> t.tokens[r].client.value in t.clients
                                         && forall o :: o in t.tokens && o != r ==>
                                            t.tokens[o].client != t.tokens[r].client
  {
    hide SoundRegistry, UniqueCodes, CodesHold, Drawn, UniqueMemberships, UniqueScopes;
    assert r in TokenRows(t, token);
  }

  lemma NewToken(t: Tables, row: RedeemToken)
    requires Sound(t) && TokenRows(t, row.token) == {} && row.client.None?
    ensures Keeps(t, t.(nextId := t.nextId + 1, tokens := t.tokens[t.nextId := row]), true)
  {
    hide OneApp, UniqueReleases, UniqueDevices, OneDevelopmentClient, OneOwner, MappingsOwned, ClientsAuthorized, Drawn,
      UniqueTokens, OneTokenPerClient, TokensHold, UniqueMemberships, UniqueScopes, UniqueCodes, CodesHold, Extends,
      StatusesAgree;
    var u := t.(nextId := t.nextId + 1, tokens := t.tokens[t.nextId := row]);
    TokenInserted(t, row);
    AllDrawnLater(t, t.nextId + 1);
    DrawnInsert(t.tokens, t.nextId, row);
    SameClients(t, u);
    SameAgreement(t, u);
  }

  lemma TokenInserted(t: Tables, row: RedeemToken)
    requires UniqueTokens(t.tokens) && OneTokenPerClient(t.tokens) && TokensHold(t.tokens, t.clients.Keys)
    requires TokenRows(t, row.token) == {} && row.client.None?
    ensures var rows := t.tokens[t.nextId := row];
            UniqueTokens(rows) && OneTokenPerClient(rows) && TokensHold(rows, t.clients.Keys)
  {
    assert forall o :: o in t.tokens && t.tokens[o].token == row.token ==> o in TokenRows(t, row.token);
  }

  lemma PollKeeps(t: Tables, code: string, now: int)
    requires Sound(t)
    ensures Keeps(t, Challenge(t, code, now).0, true)
  {
    hide Sound, Extends, StatusesAgree;
    Unchanged(t);
    if Get(CodeRows(t, code)).Found? {
      FewerVouchers(t, DropCode(t, Get(CodeRows(t, code)).id));
    }
  }

  lemma DenyKeeps(t: Tables, k: nat)
    requires Sound(t)
    ensures Keeps(t, Deny(t, k), true)
  {
    hide SoundRegistry, SoundVouchers, Extends, StatusesAgree;
    Unchanged(t);
    if k in t.codes {
      CodeClientStays(t, k);
      PutCode(t, k, t.codes[k].(denied := true));
    }
  }

  lemma CodeClientStays(t: Tables, k: nat)
    requires Sound(t) && k in t.codes
    ensures t.codes[k].client.Some? ==> t.codes[k].client.value in t.clients
  {
  }

  lemma StepKeeps(w: Crypto, t: Tables, e: Timed, distinct: bool)
    requires Sound(t) && (distinct ==> DistinctEvent(e) && DistinctCodes(t.codes))
    ensures Keeps(t, Step(w, t, e).0, distinct)
  {
    hide Sound, Extends, StatusesAgree, DistinctCodes, Rendering.DistinctKeys, CreateClient, IssueToken, Redeem,
      StartDeviceCode, AcceptDeviceCode, Deny, Challenge;
    Unchanged(t);
    match e.event
    case Register(order) => if CreateClient(w, t, order).Ok? { CreateClientKeepsAll(w, t, order, distinct); }
    case Issue(_, _, _, _, _) => if IssueToken(t, e.event).Ok? { IssueKeeps(t, e.event); }
    case Redeeming(request) => RedeemKeeps(w, t, request, e.now, distinct);
    case Start(staging, code, download) =>
      if StartDeviceCode(t, staging, code, download, e.now).Ok? { StartKeeps(t, staging, code, download, e.now); }
    case Accept(row, acceptance) =>
      if AcceptDeviceCode(w, t, row, acceptance).Ok? { AcceptKeeps(w, t, row, acceptance, distinct); }
    case DenyCode(row) => DenyKeeps(t, row);
    case PollCode(code) => PollKeeps(t, code, e.now);
  }
}
