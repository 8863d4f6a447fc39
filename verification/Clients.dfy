/** fakts/services/clients.py: registering development clients and redeeming tokens.
    Every function returns the tables after the call, or the exception that rolls the call back;
    the methods of Database.dfy are proved against them. */
module Clients {
  import opened Prelude
  import opened Rows
  import Rendering

  datatype Config = Config(kind: Kind, role: Role, token: string, user: nat, tenant: nat, organization: nat)

  /** What `download_logo` would do with the manifest's logo. */
  datatype Download = Fetched(key: string) | Unreachable

  function FetchLogo(m: Manifest, download: Download): Result<Option<string>, Error> {
    if !Truthy(m.logo) then Ok(None)
    else match download
      case Fetched(key) => Ok(Some(key))
      case Unreachable => Err(LogoDownload)
  }

  // ---- Look-ups ------------------------------------------------------------------------------

  function AppRows(t: Tables, identifier: string): set<nat> {
    set a | a in t.apps && t.apps[a].identifier == identifier
  }

  function ReleaseRows(t: Tables, app: nat, version: string): set<nat> {
    set r | r in t.releases && t.releases[r].app == app && t.releases[r].version == version
  }

  function DeviceRows(t: Tables, organization: nat, nodeId: string): set<nat> {
    set d | d in t.devices && t.devices[d].organization == organization && t.devices[d].nodeId == nodeId
  }

  function MembershipRows(t: Tables, user: nat, organization: nat): set<nat> {
    set m | m in t.memberships && t.memberships[m].user == user && t.memberships[m].organization == organization
  }

  function ScopeRows(t: Tables, identifier: string, organization: nat): set<nat> {
    set s | s in t.scopes && t.scopes[s].identifier == identifier && t.scopes[s].organization == organization
  }

  function TokenRows(t: Tables, token: string): set<nat> {
    set r | r in t.tokens && t.tokens[r].token == token
  }

  function ReleaseId(t: Tables, c: Client): Option<(string, string)> {
    if c.release in t.releases && t.releases[c.release].app in t.apps
    then Some((t.apps[t.releases[c.release].app].identifier, t.releases[c.release].version))
    else None
  }

  /** The development clients of one user, release, organization and node; a missing node matches
      clients without a node. */
  predicate IsFor(c: Client, release: nat, user: nat, organization: nat, node: Option<nat>) {
    c.kind == Development && c.release == release && c.user == user && c.organization == organization && c.node == node
  }

  function DevelopmentRows(t: Tables, release: nat, user: nat, organization: nat, node: Option<nat>): set<nat> {
    set c | c in t.clients && IsFor(t.clients[c], release, user, organization, node)
  }

  // ---- Writes --------------------------------------------------------------------------------

  function GetOrCreateApp(t: Tables, identifier: string): (r: Result<(Tables, nat), Error>)
    ensures r.Ok? ==> r.value.1 in r.value.0.apps && r.value.0 == t.(nextId := r.value.0.nextId, apps := r.value.0.apps)
    ensures r.Ok? ==> t.nextId <= r.value.0.nextId
  {
    match Get(AppRows(t, identifier))
    case Found(a) => Ok((t, a))
    case Missing => Ok((t.(nextId := t.nextId + 1, apps := t.apps[t.nextId := App(identifier, None)]), t.nextId))
    case Many => Err(Ambiguous)
  }

  function SetAppLogo(t: Tables, a: nat, logo: Option<string>): (r: Tables)
    requires a in t.apps
    ensures r == t.(apps := r.apps)
  {
    if Truthy(logo) then t.(apps := t.apps[a := t.apps[a].(logo := logo)]) else t
  }

  function UpsertRelease(t: Tables, app: nat, m: Manifest, logo: Option<string>): (r: Result<(Tables, nat), Error>)
    ensures r.Ok? ==> r.value.0 == t.(nextId := r.value.0.nextId, releases := r.value.0.releases)
    ensures r.Ok? ==> t.nextId <= r.value.0.nextId
  {
    var row := Release(app, m.version, logo, m.scopes, m.requirements);
    match Get(ReleaseRows(t, app, m.version))
    case Found(r) => Ok((t.(releases := t.releases[r := row]), r))
    case Missing => Ok((t.(nextId := t.nextId + 1, releases := t.releases[t.nextId := row]), t.nextId))
    case Many => Err(Ambiguous)
  }

  function GetOrCreateNode(w: Crypto, t: Tables, m: Manifest,
                           organization: nat): (r: Result<(Tables, Option<nat>), Error>)
    ensures r.Ok? ==> r.value.0 == t.(nextId := r.value.0.nextId, devices := r.value.0.devices)
    ensures r.Ok? ==> t.nextId <= r.value.0.nextId
  {
    if !Truthy(m.nodeId) then Ok((t, None))
    else
      var nodeId := w.deviceHash(m.nodeId.value, organization);
      match Get(DeviceRows(t, organization, nodeId))
      case Found(d) => Ok((t, Some(d)))
      case Missing => Ok((t.(nextId := t.nextId + 1, devices := t.devices[t.nextId := Device(organization, nodeId)]),
                          Some(t.nextId)))
      case Many => Err(Ambiguous)
  }

  function GetMembership(t: Tables, user: nat, organization: nat): Result<nat, Error> {
    match Get(MembershipRows(t, user, organization))
    case Found(m) => Ok(m)
    case Missing => Err(NoMembership)
    case Many => Err(Ambiguous)
  }

  /** The unique constraints of the client table.  The composite one does not see missing nodes. */
  predicate ClientUnique(t: Tables, c: nat, row: Client) {
    forall o :: o in t.clients && o != c ==>
      && t.clients[o].token != row.token
      && t.clients[o].oauthClient != row.oauthClient
      && !(&& row.node.Some? && t.clients[o].node == row.node && t.clients[o].release == row.release
           && t.clients[o].user == row.user && t.clients[o].organization == row.organization)
  }

  /** And its foreign key to a composition. */
  predicate ClientFits(t: Tables, c: nat, row: Client) {
    ClientUnique(t, c, row) && (row.composition.Some? ==> row.composition.value in t.compositions)
  }

  function SaveClient(t: Tables, c: nat, row: Client): Result<Tables, Error> {
    if ClientFits(t, c, row) then Ok(t.(clients := t.clients[c := row])) else Err(Integrity)
  }

  /** `get_organization` resolves the organization by its slug and finds none without one; no
      membership belongs to it then. */
  function ConfigMembership(t: Tables, config: Config): Result<nat, Error> {
    if config.organization in t.organizations && t.organizations[config.organization].slug != ""
    then GetMembership(t, config.user, config.organization)
    else Err(NoMembership)
  }

  function NewOAuthClient(t: Tables, clientId: string): Tables {
    t.(nextId := t.nextId + 1, oauthClients := t.oauthClients[t.nextId := OAuthClient(clientId)])
  }

  /** The arguments of `create_development_client`, with the OAuth2 client id it would draw. */
  datatype Registration = Registration(release: nat, config: Config, manifest: Manifest, node: Option<nat>,
                                       composition: Option<nat>, clientId: string)
  {
    /** The existing rows the registration is about. */
    function Rows(t: Tables): set<nat> {
      DevelopmentRows(t, release, config.user, config.organization, node)
    }

    predicate Fits(c: Client) {
      IsFor(c, release, config.user, config.organization, node)
    }

    function Updated(row: Client, membership: nat): Client {
      row.(token := config.token, tenant := config.tenant, node := node, manifest := manifest,
           membership := membership, composition := composition, role := config.role)
    }

    function New(membership: nat, oauthClient: nat): Client {
      Client(release, config.user, config.user, config.organization, membership, node, config.token, Development,
             config.role, oauthClient, "", composition, manifest, "", map[], {})
    }
  }

  function CreateDevelopmentClient(t: Tables, g: Registration): (r: Result<(Tables, nat), Error>)
    ensures r.Ok? ==> r.value.1 in r.value.0.clients && OnlyRegistry(t, r.value.0)
  {
    match Get(g.Rows(t))
    case Many => Err(Ambiguous)
    case Found(c) =>
      assert c in g.Rows(t);
      var membership :- ConfigMembership(t, g.config);
      var t1 :- SaveClient(t, c, g.Updated(t.clients[c], membership));
      Ok((t1, c))
    case Missing =>
      var t1 := NewOAuthClient(t, g.clientId);
      var membership :- ConfigMembership(t1, g.config);
      var c := t1.nextId;
      var t2 :- SaveClient(t1.(nextId := c + 1), c, g.New(membership, t.nextId));
      Ok((t2, c))
  }

  /** The scopes a manifest names, all of which must exist in the organization. */
  function ScopeIds(t: Tables, organization: nat, names: seq<string>): Result<set<nat>, Error> {
    if names == [] then Ok({})
    else
      var before :- ScopeIds(t, organization, names[..|names| - 1]);
      match Get(ScopeRows(t, names[|names| - 1], organization))
      case Found(s) => Ok(before + {s})
      case Missing => Err(NoScope)
      case Many => Err(Ambiguous)
  }

  function AddScopes(t: Tables, c: nat, scopes: set<nat>): Tables
    requires c in t.clients
  {
    t.(clients := t.clients[c := t.clients[c].(scopes := t.clients[c].scopes + scopes)])
  }

  /** The values a registration draws from outside: the logo download and a fresh OAuth2 client id. */
  datatype Draw = Draw(download: Download, clientId: string)

  /** The app, release and node rows a manifest calls for. */
  function Provision(w: Crypto, t: Tables, m: Manifest, organization: nat,
                     logo: Option<string>): (r: Result<(Tables, nat, Option<nat>), Error>)
    ensures r.Ok? ==> OnlyRegistry(t, r.value.0)
  {
    var (t1, app) :- GetOrCreateApp(t, m.identifier);
    var (t2, release) :- UpsertRelease(SetAppLogo(t1, app, logo), app, m, logo);
    var (t3, node) :- GetOrCreateNode(w, t2, m, organization);
    Ok((t3, release, node))
  }

  /** Composing the client and giving it the manifest's scopes. */
  function Equip(w: Crypto, t: Tables, c: nat, m: Manifest, user: nat, organization: nat,
                 declined: set<string>): (r: Result<Tables, Error>)
    requires c in t.clients
    ensures r.Ok? ==> c in r.value.clients && OnlyRegistry(t, r.value)
  {
    var t1 :- Rendering.AutoCompose(w, t, c, m.requirements, user, declined);
    var scopes :- ScopeIds(t1, organization, m.scopes);
    Ok(AddScopes(t1, c, scopes))
  }

  /** The arguments of `create_client`. */
  datatype Order = Order(manifest: Manifest, config: Config, user: nat, organization: nat, composition: Option<nat>,
                         declined: set<string>, draw: Draw)

  function CreateClient(w: Crypto, t: Tables, o: Order): (r: Result<(Tables, nat), Error>)
    ensures r.Ok? ==> r.value.1 in r.value.0.clients && OnlyRegistry(t, r.value.0)
  {
    var logo :- FetchLogo(o.manifest, o.draw.download);
    var (t1, release, node) :- Provision(w, t, o.manifest, o.organization, logo);
    if o.config.kind != Development then Err(UnsupportedKind)
    else
      var (t2, c) :- CreateDevelopmentClient(t1,
            Registration(release, o.config, o.manifest, node, o.composition, o.draw.clientId));
      var t3 :- Equip(w, t2, c, o.manifest, o.user, o.organization, o.declined);
      Ok((t3, c))
  }

  // ---- Redeeming -----------------------------------------------------------------------------

  /** A redeem request and the values drawn for it: a fresh client token besides the registration's. */
  datatype Request = Request(token: string, manifest: Manifest, role: Role, newToken: string, draw: Draw)

  datatype Answer =
    | Redeemed(client: nat)
    | ManifestChanged
    | Expired
    | UnknownToken
    | Failed(error: Error)

  predicate IsExpired(r: RedeemToken, now: int) {
    r.expiresAt.Some? && r.expiresAt.value < now
  }

  /** The clients a redeem reuses without composing them again. */
  function Reusable(t: Tables, identifier: string, version: string, kind: Kind, node: Option<nat>, user: nat,
                    organization: nat, composition: nat, redirectUris: string): (r: set<nat>)
    ensures r <= t.clients.Keys
  {
    set c | && c in t.clients
            && ReleaseId(t, t.clients[c]) == Some((identifier, version))
            && t.clients[c].kind == kind && t.clients[c].node == node && t.clients[c].tenant == user
            && t.clients[c].organization == organization && t.clients[c].composition == Some(composition)
            && t.clients[c].redirectUris == redirectUris
  }

  /** The one-to-one column: no two tokens hold the same client. */
  function Attach(t: Tables, r: nat, c: nat, hash: Option<string>): Result<Tables, Error>
    requires r in t.tokens
  {
    if exists o :: o in t.tokens && o != r && t.tokens[o].client == Some(c) then Err(Integrity)
    else Ok(t.(tokens := t.tokens[r := t.tokens[r].(client := Some(c), manifestHash := hash)]))
  }

  /** The registration a redeem asks for. */
  function RedeemOrder(row: RedeemToken, organization: nat, q: Request): Order {
    Order(q.manifest, Config(Development, q.role, q.newToken, row.user, row.user, organization),
          row.user, organization, Some(row.composition), {}, q.draw)
  }

  function FindOrCreate(w: Crypto, t: Tables, reusable: set<nat>, o: Order): (r: Result<(Tables, nat), Error>)
    requires reusable <= t.clients.Keys
    ensures r.Ok? ==> r.value.1 in r.value.0.clients && OnlyRegistry(t, r.value.0)
  {
    match First(reusable)
    case Some(c) => Ok((t, c))
    case None => CreateClient(w, t, o)
  }

  function ValidateRedeemToken(w: Crypto, t: Tables, r: nat, q: Request): (result: Result<(Tables, nat), Error>)
    requires r in t.tokens
    ensures result.Ok? ==> r in result.value.0.tokens && result.value.0.codes == t.codes
  {
    var row, m := t.tokens[r], q.manifest;
    if row.composition !in t.compositions then Err(Integrity)
    else
      var organization := t.compositions[row.composition].organization;
      var (t1, node) :- GetOrCreateNode(w, t, m, organization);
      var reusable := Reusable(t1, m.identifier, m.version, Development, node, row.user, organization,
                               row.composition, "");
      var (t2, c) :- FindOrCreate(w, t1, reusable, RedeemOrder(row, organization, q));
      var t3 :- Attach(t2, r, c, row.manifestHash);
      Ok((t3, c))
  }

  /** The part of `redeem_token` that runs under the row lock for a token that has not expired. */
  function RedeemLocked(w: Crypto, t: Tables, r: nat, q: Request): (result: (Tables, Answer))
    requires r in t.tokens
    ensures result.0.codes == t.codes
  {
    var row, hash := t.tokens[r], w.manifestHash(q.manifest);
    if row.client.Some? && row.manifestHash.None? then
      (t.(tokens := t.tokens[r := row.(manifestHash := Some(hash))]), Redeemed(row.client.value))
    else if row.client.Some? && row.manifestHash == Some(hash) then
      (t, Redeemed(row.client.value))
    else if row.client.Some? && !row.allowReredeem then
      (t, ManifestChanged)
    else
      match ValidateRedeemToken(w, t, r, q)
      case Ok((t1, c)) => (t1.(tokens := t1.tokens[r := t1.tokens[r].(manifestHash := Some(hash))]), Redeemed(c))
      case Err(e) => (t, Failed(e))
  }

  function DropToken(t: Tables, token: string): Tables {
    t.(tokens := t.tokens - TokenRows(t, token))
  }

  /** `redeem_token` from beginning to end. */
  function Redeem(w: Crypto, t: Tables, q: Request, now: int): (result: (Tables, Answer))
    ensures result.0.codes == t.codes
  {
    match Get(TokenRows(t, q.token))
    case Missing => (t, UnknownToken)
    case Many => (t, Failed(Ambiguous))
    case Found(r) =>
      assert r in TokenRows(t, q.token);
      if IsExpired(t.tokens[r], now) then (DropToken(t, q.token), Expired) else RedeemLocked(w, t, r, q)
  }
}
