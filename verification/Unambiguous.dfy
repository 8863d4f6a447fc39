/** No look-up of the client lifecycle ever meets two rows. */
module Unambiguous {
  import opened Prelude
  import opened Rows
  import opened Clients
  import opened DeviceCodes
  import opened Invariants
  import opened Lifecycle
  import Rendering

  lemma AppFound(t: Tables, identifier: string)
    requires OneApp(t.apps)
    ensures GetOrCreateApp(t, identifier).Ok?
  {
  }

  lemma ReleaseFound(t: Tables, app: nat, m: Manifest, logo: Option<string>)
    requires UniqueReleases(t.releases)
    ensures UpsertRelease(t, app, m, logo).Ok?
  {
  }

  lemma NodeFound(w: Crypto, t: Tables, m: Manifest, organization: nat)
    requires UniqueDevices(t.devices)
    ensures GetOrCreateNode(w, t, m, organization).Ok?
  {
  }

  /** Provisioning cannot fail at all. */
  lemma ProvisionSucceeds(w: Crypto, t: Tables, m: Manifest, organization: nat, logo: Option<string>)
    requires SoundRegistry(t)
    ensures Provision(w, t, m, organization, logo).Ok?
  {
    hide GetOrCreateApp, UpsertRelease, GetOrCreateNode, SetAppLogo, OneDevelopmentClient, OneOwner, MappingsOwned,
      ClientsAuthorized, Drawn, OneApp, UniqueReleases, UniqueDevices;
    AppFound(t, m.identifier);
    AppSound(t, m.identifier);
    var (t1, app) := GetOrCreateApp(t, m.identifier).value;
    LogoSound(t1, app, logo);
    var t2 := SetAppLogo(t1, app, logo);
    ReleaseFound(t2, app, m, logo);
    ReleaseSound(t2, app, m, logo);
    NodeFound(w, UpsertRelease(t2, app, m, logo).value.0, m, organization);
  }

  lemma MembershipClear(t: Tables, config: Config)
    requires UniqueMemberships(t.memberships)
    ensures ConfigMembership(t, config) != Err(Ambiguous)
  {
  }

  lemma DevelopmentRowClear(t: Tables, g: Registration)
    requires OneDevelopmentClient(t.clients)
    ensures !Get(g.Rows(t)).Many?
  {
  }

  lemma DevelopmentClientClear(t: Tables, g: Registration)
    requires SoundRegistry(t) && UniqueMemberships(t.memberships)
    ensures CreateDevelopmentClient(t, g) != Err(Ambiguous)
  {
    hide ConfigMembership, UniqueMemberships, ClientFits, DevelopmentRows, OneApp, UniqueReleases, UniqueDevices,
      MappingsOwned, ClientsAuthorized, Drawn, OneDevelopmentClient, OneOwner;
    DevelopmentRowClear(t, g);
    MembershipClear(t, g.config);
    MembershipClear(NewOAuthClient(t, g.clientId), g.config);
  }

  lemma {:induction false} ScopesClear(t: Tables, organization: nat, names: seq<string>)
    requires UniqueScopes(t.scopes)
    ensures ScopeIds(t, organization, names) != Err(Ambiguous)
  {
    if names != [] { ScopesClear(t, organization, names[..|names| - 1]); }
  }

  lemma {:induction false} ComposeClear(s: Rendering.Scene, reqs: seq<Requirement>)
    ensures Rendering.Compose(s, reqs) != Err(Ambiguous)
  {
    if reqs != [] { ComposeClear(s, reqs[..|reqs| - 1]); }
  }

  lemma EquipClear(w: Crypto, t: Tables, c: nat, m: Manifest, user: nat, organization: nat, declined: set<string>)
    requires c in t.clients && UniqueScopes(t.scopes)
    ensures Equip(w, t, c, m, user, organization, declined) != Err(Ambiguous)
    ensures Rendering.AutoCompose(w, t, c, m.requirements, user, declined) != Err(Ambiguous)
  {
    hide Rendering.Compose, ScopeIds, UniqueScopes;
    ComposeClear(Rendering.Scene(t, user, t.clients[c].composition, declined), m.requirements);
    var r := Rendering.AutoCompose(w, t, c, m.requirements, user, declined);
    if r.Ok? { ScopesClear(r.value, organization, m.scopes); }
  }

  lemma CreateClientClear(w: Crypto, t: Tables, o: Order)
    requires Sound(t)
    ensures CreateClient(w, t, o) != Err(Ambiguous)
  {
    hide Provision, CreateDevelopmentClient, Equip, SoundRegistry, SoundVouchers, UniqueMemberships, UniqueScopes;
    var fetched := FetchLogo(o.manifest, o.draw.download);
    if fetched.Ok? {
      var logo := fetched.value;
      ProvisionSucceeds(w, t, o.manifest, o.organization, logo);
      ProvisionSound(w, t, o.manifest, o.organization, logo);
      var (t1, release, node) := Provision(w, t, o.manifest, o.organization, logo).value;
      var g := Registration(release, o.config, o.manifest, node, o.composition, o.draw.clientId);
      DevelopmentClientClear(t1, g);
      var r := CreateDevelopmentClient(t1, g);
      if r.Ok? { EquipClear(w, r.value.0, r.value.1, o.manifest, o.user, o.organization, o.declined); }
    }
  }

  lemma TokenClear(t: Tables, token: string)
    requires UniqueTokens(t.tokens)
    ensures !Get(TokenRows(t, token)).Many?
  {
  }

  lemma ValidateClear(w: Crypto, t: Tables, r: nat, q: Request)
    requires Sound(t) && r in t.tokens
    ensures ValidateRedeemToken(w, t, r, q) != Err(Ambiguous)
  {
    hide GetOrCreateNode, CreateClient, SoundRegistry, SoundVouchers, Reusable, UniqueMemberships, UniqueScopes,
      Extends, StatusesAgree;
    var row := t.tokens[r];
    if row.composition in t.compositions {
      var organization := t.compositions[row.composition].organization;
      NodeOk(w, t, q.manifest, organization);
      NodeKeeps(w, t, q.manifest, organization);
      CreateClientClear(w, GetOrCreateNode(w, t, q.manifest, organization).value.0, RedeemOrder(row, organization, q));
    }
  }

  lemma NodeOk(w: Crypto, t: Tables, m: Manifest, organization: nat)
    requires Sound(t)
    ensures GetOrCreateNode(w, t, m, organization).Ok?
  {
    hide GetOrCreateNode;
    NodeFound(w, t, m, organization);
  }

  lemma RedeemClear(w: Crypto, t: Tables, q: Request, now: int)
    requires Sound(t)
    ensures Redeem(w, t, q, now).1 != Failed(Ambiguous)
  {
    hide ValidateRedeemToken, TokenRows, SoundRegistry, UniqueCodes, CodesHold, Drawn, OneTokenPerClient, TokensHold,
      UniqueMemberships, UniqueScopes, UniqueTokens, First;
    TokenClear(t, q.token);
    if Get(TokenRows(t, q.token)).Found? {
      var r := Get(TokenRows(t, q.token)).id;
      TokenFacts(t, q.token, r);
      ValidateClear(w, t, r, q);
    }
  }

  lemma AcceptClear(w: Crypto, t: Tables, k: nat, a: Acceptance)
    requires Sound(t)
    ensures AcceptDeviceCode(w, t, k, a) != Err(Ambiguous)
  {
    hide GetOrCreateNode, ReuseOrCreate, Sound, Extends, StatusesAgree;
    if k in t.codes && a.composition in t.compositions {
      var organization := t.compositions[a.composition].organization;
      NodeOk(w, t, t.codes[k].manifest, organization);
      NodeKeeps(w, t, t.codes[k].manifest, organization);
      var (t1, node) := GetOrCreateNode(w, t, t.codes[k].manifest, organization).value;
      ReuseClear(w, t1, t.codes[k], node, organization, a);
    }
  }

  lemma ReuseClear(w: Crypto, t: Tables, row: DeviceCode, node: Option<nat>, organization: nat, a: Acceptance)
    requires Sound(t)
    ensures ReuseOrCreate(w, t, row, node, organization, a) != Err(Ambiguous)
  {
    hide SoundRegistry, SoundVouchers, UniqueMemberships, UniqueScopes, CreateClient, Reusable, Rendering.AutoCompose,
      Equip;
    var m := row.manifest;
    match First(Reusable(t, m.identifier, m.version, row.kind, node, a.user, organization, a.composition,
                         RedirectText(w, row.redirectUris)))
    case Some(c) => EquipClear(w, t, c, m, a.user, organization, a.declined);
    case None =>
      CreateClientClear(w, t, Order(m, Config(Development, row.role, a.newToken, a.user, a.user, organization),
                                    a.user, organization, Some(a.composition), a.declined, a.draw));
  }

  /** In a sound state, which every run keeps, no event meets an ambiguous row: in particular the `get`
      of `create_development_client` always finds one row or none. */
  lemma {:induction false} NeverAmbiguous(w: Crypto, t: Tables, e: Timed)
    requires Sound(t)
    ensures Step(w, t, e).1 != Refused(Ambiguous) && Step(w, t, e).1 != Answered(Failed(Ambiguous))
  {
    hide CreateClient, Redeem, StartDeviceCode, AcceptDeviceCode, Deny, Challenge, SoundRegistry, UniqueCodes,
      CodesHold, Drawn, OneTokenPerClient, TokensHold, UniqueMemberships, UniqueScopes, UniqueTokens, TokenRows;
    match e.event
    case Register(order) => CreateClientClear(w, t, order);
    case Issue(token, _, _, _, _) => TokenClear(t, token);
    case Redeeming(request) => RedeemClear(w, t, request, e.now);
    case Start(g, code, download) => StartClear(t, g, code, download, e.now);
    case Accept(row, a) => AcceptClear(w, t, row, a);
    case _ =>
  }

  lemma StartClear(t: Tables, g: Staging, code: string, download: Download, now: int)
    ensures StartDeviceCode(t, g, code, download, now) != Err(Ambiguous)
  {
  }
}
