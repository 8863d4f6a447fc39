/** What registering leaves, said of the rows themselves: the release and node it is for, each column of the
    client, what the client is composed of, and the scopes it is given. */
module Registrations {
  import opened Prelude
  import opened Rows
  import opened Clients
  import opened Invariants
  import opened Requirements
  import Rendering
  import Tokens

  // ---- App, release and node --------------------------------------------------------------------------------------

  /** The logo a registration is stored with: none without one, else what was fetched. */
  predicate IsLogo(m: Manifest, download: Download, logo: Option<string>) {
    if m.logo.None? || m.logo.value == "" then logo.None? else download.Fetched? && logo == Some(download.key)
  }

  /** The release row of the manifest's identifier and version, as the manifest has it. */
  predicate ReleasedAs(u: Tables, r: nat, m: Manifest, logo: Option<string>) {
    && r in u.releases && u.releases[r].version == m.version && u.releases[r].logo == logo
    && u.releases[r].scopes == m.scopes && u.releases[r].requirements == m.requirements
    && u.releases[r].app in u.apps && u.apps[u.releases[r].app].identifier == m.identifier
    && (logo.Some? && logo.value != "" ==> u.apps[u.releases[r].app].logo == logo)
  }

  /** The device is the organization's with the hashed node id. */
  predicate IsDevice(w: Crypto, row: Device, m: Manifest, organization: nat) {
    m.nodeId.Some? && m.nodeId.value != "" && row == Device(organization, w.deviceHash(m.nodeId.value, organization))
  }

  /** That device, or no node without a node id. */
  predicate NodeAs(w: Crypto, u: Tables, m: Manifest, organization: nat, node: Option<nat>) {
    if m.nodeId.None? || m.nodeId.value == "" then node.None?
    else node.Some? && node.value in u.devices && IsDevice(w, u.devices[node.value], m, organization)
  }

  /** Every device stays, and a new one is that of the node id. */
  predicate DevicesKept(w: Crypto, t: Tables, u: Tables, m: Manifest, organization: nat) {
    && (forall d :: d in t.devices ==> d in u.devices && u.devices[d] == t.devices[d])
    && (forall d :: d in u.devices && d !in t.devices ==> IsDevice(w, u.devices[d], m, organization))
  }

  lemma LogoFetched(m: Manifest, download: Download)
    ensures FetchLogo(m, download).Ok? <==> m.logo.None? || m.logo.value == "" || download.Fetched?
    ensures FetchLogo(m, download).Ok? ==> IsLogo(m, download, FetchLogo(m, download).value)
  {
  }

  /** The rows of a table stay, but for one that may change and be added. */
  predicate OnlyRow<T(==)>(before: map<nat, T>, after: map<nat, T>, i: nat) {
    && (forall j :: j in before && j != i ==> j in after && after[j] == before[j])
    && (forall j :: j in after && j != i ==> j in before)
  }

  /** Only the app's and the release's rows are written; without a logo the app keeps the one it has. */
  predicate CatalogueKept(t: Tables, u: Tables, release: nat, logo: Option<string>) {
    && release in u.releases && u.releases[release].app in u.apps
    && OnlyRow(t.releases, u.releases, release) && OnlyRow(t.apps, u.apps, u.releases[release].app)
    && var app := u.releases[release].app;
       u.apps[app].logo == (if logo.Some? && logo.value != "" then logo
                            else if app in t.apps then t.apps[app].logo else None)
  }

  lemma NodeFetched(w: Crypto, t: Tables, m: Manifest, organization: nat)
    requires Drawn(t.devices, t.nextId) && GetOrCreateNode(w, t, m, organization).Ok?
    ensures var (u, node) := GetOrCreateNode(w, t, m, organization).value;
            NodeAs(w, u, m, organization, node) && DevicesKept(w, t, u, m, organization)
  {
    hide First, Get, DeviceRows;
    if Truthy(m.nodeId) {
      var nodeId := w.deviceHash(m.nodeId.value, organization);
      DeviceFetched(t, organization, nodeId);
      match Get(DeviceRows(t, organization, nodeId))
      case Found(d) =>
      case Missing => assert GetOrCreateNode(w, t, m, organization).value.0.devices
                             == t.devices[t.nextId := Device(organization, nodeId)];
      case Many =>
    }
  }

  lemma OnlyAgain<T>(before: map<nat, T>, between: map<nat, T>, after: map<nat, T>, i: nat)
    requires OnlyRow(before, between, i) && OnlyRow(between, after, i)
    ensures OnlyRow(before, after, i)
  {
  }

  lemma DeviceFetched(t: Tables, organization: nat, nodeId: string)
    ensures var found := Get(DeviceRows(t, organization, nodeId));
            found.Found? ==> found.id in t.devices && t.devices[found.id] == Device(organization, nodeId)
  {
    hide First;
    var rows := DeviceRows(t, organization, nodeId);
    if Get(rows).Found? { assert Get(rows).id in rows; }
  }

  lemma AppFetched(t: Tables, identifier: string)
    requires Drawn(t.apps, t.nextId) && GetOrCreateApp(t, identifier).Ok?
    ensures var (u, a) := GetOrCreateApp(t, identifier).value;
            && a in u.apps && u.apps[a].identifier == identifier && OnlyRow(t.apps, u.apps, a)
            && u.apps[a].logo == (if a in t.apps then t.apps[a].logo else None)
  {
    hide First;
    var rows := AppRows(t, identifier);
    if Get(rows).Found? { assert Get(rows).id in rows; }
  }

  lemma LogoSet(t: Tables, a: nat, logo: Option<string>)
    requires a in t.apps
    ensures var u := SetAppLogo(t, a, logo);
            && a in u.apps && u.apps[a].identifier == t.apps[a].identifier && OnlyRow(t.apps, u.apps, a)
            && u.apps[a].logo == (if logo.Some? && logo.value != "" then logo else t.apps[a].logo)
  {
    if Truthy(logo) {
      assert SetAppLogo(t, a, logo).apps == t.apps[a := t.apps[a].(logo := logo)];
    } else {
      assert SetAppLogo(t, a, logo) == t;
    }
  }

  lemma ReleaseWritten(t: Tables, app: nat, m: Manifest, logo: Option<string>)
    requires UpsertRelease(t, app, m, logo).Ok?
    ensures var (u, r) := UpsertRelease(t, app, m, logo).value;
            && r in u.releases && u.releases[r] == Release(app, m.version, logo, m.scopes, m.requirements)
            && OnlyRow(t.releases, u.releases, r)
  {
    hide First, Get, ReleaseRows;
    var row := Release(app, m.version, logo, m.scopes, m.requirements);
    match Get(ReleaseRows(t, app, m.version))
    case Found(r) => assert UpsertRelease(t, app, m, logo).value.0.releases == t.releases[r := row];
    case Missing => assert UpsertRelease(t, app, m, logo).value.0.releases == t.releases[t.nextId := row];
    case Many =>
  }

  lemma DevicesDrawn(t: Tables)
    requires SoundRegistry(t)
    ensures Drawn(t.devices, t.nextId) && Drawn(t.apps, t.nextId)
  {
  }

  lemma SameDevices(w: Crypto, t: Tables, t3: Tables, u: Tables, m: Manifest, organization: nat)
    requires DevicesKept(w, t3, u, m, organization) && t3.devices == t.devices
    ensures DevicesKept(w, t, u, m, organization)
  {
  }

  lemma ProvisionedAs(w: Crypto, t: Tables, m: Manifest, organization: nat, logo: Option<string>)
    requires SoundRegistry(t) && Provision(w, t, m, organization, logo).Ok?
    ensures var (u, release, node) := Provision(w, t, m, organization, logo).value;
            && ReleasedAs(u, release, m, logo) && NodeAs(w, u, m, organization, node)
            && CatalogueKept(t, u, release, logo) && DevicesKept(w, t, u, m, organization)
  {
    hide GetOrCreateApp, SetAppLogo, UpsertRelease, GetOrCreateNode, NodeAs, SoundRegistry, OnlyRow, Drawn, DevicesKept;
    DevicesDrawn(t);
    var (t1, app) := GetOrCreateApp(t, m.identifier).value;
    AppFetched(t, m.identifier);
    LogoSet(t1, app, logo);
    var t2 := SetAppLogo(t1, app, logo);
    var (t3, release) := UpsertRelease(t2, app, m, logo).value;
    ReleaseWritten(t2, app, m, logo);
    DrawnLater(t.devices, t.nextId, t3.nextId);
    NodeFetched(w, t3, m, organization);
    SameDevices(w, t, t3, Provision(w, t, m, organization, logo).value.0, m, organization);
    OnlyAgain(t.apps, t1.apps, t2.apps, app);
  }

  // ---- The client row ---------------------------------------------------------------------------------------------

  predicate HasKey(row: Client, release: nat, user: nat, organization: nat, node: Option<nat>) {
    && row.kind == Development && row.release == release && row.user == user && row.organization == organization
    && row.node == node
  }

  predicate IsMembership(t: Tables, m: nat, user: nat, organization: nat) {
    m in t.memberships && t.memberships[m].user == user && t.memberships[m].organization == organization
  }

  /** The columns that are written either way. */
  predicate WrittenAs(t: Tables, row: Client, g: Registration) {
    && HasKey(row, g.release, g.config.user, g.config.organization, g.node)
    && row.token == g.config.token && row.role == g.config.role && row.manifest == g.manifest
    && row.composition == g.composition && IsMembership(t, row.membership, g.config.user, g.config.organization)
  }

  /** The one client that was there, with its other columns and the configured tenant; or, where no client has
      the key, a new client with a new OAuth2 client of its own, whose tenant is the user. */
  ghost predicate DraftedAs(t: Tables, u: Tables, c: nat, g: Registration) {
    && c in u.clients
    && u == t.(nextId := u.nextId, clients := t.clients[c := u.clients[c]], oauthClients := u.oauthClients)
    && var row := u.clients[c];
    if c in t.clients
    then && HasKey(t.clients[c], g.release, g.config.user, g.config.organization, g.node)
         && row.tenant == g.config.tenant && row.oauthClient == t.clients[c].oauthClient
         && row.redirectUris == t.clients[c].redirectUris && row.statuses == t.clients[c].statuses
         && row.requirementsHash == t.clients[c].requirementsHash && row.scopes == t.clients[c].scopes
         && u.oauthClients == t.oauthClients
    else && (forall d :: d in t.clients ==>
             !HasKey(t.clients[d], g.release, g.config.user, g.config.organization, g.node))
         && row.oauthClient !in t.oauthClients
         && u.oauthClients == t.oauthClients[row.oauthClient := OAuthClient(g.clientId)]
         && row.tenant == g.config.user && row.redirectUris == "" && row.statuses == map[]
         && row.requirementsHash == "" && row.scopes == {}
  }

  lemma MembershipFound(t: Tables, config: Config)
    requires ConfigMembership(t, config).Ok?
    ensures IsMembership(t, ConfigMembership(t, config).value, config.user, config.organization)
  {
    hide First;
    var rows := MembershipRows(t, config.user, config.organization);
    if Get(rows).Found? { assert Get(rows).id in rows; }
  }

  lemma RegisteredAgain(t: Tables, g: Registration)
    requires CreateDevelopmentClient(t, g).Ok? && Get(g.Rows(t)).Found?
    ensures var (u, c) := CreateDevelopmentClient(t, g).value;
            DraftedAs(t, u, c, g) && WrittenAs(t, u.clients[c], g)
  {
    hide First, ClientFits, ConfigMembership;
    assert Get(g.Rows(t)).id in g.Rows(t);
    MembershipFound(t, g.config);
  }

  lemma RegisteredFirst(t: Tables, g: Registration)
    requires SoundRegistry(t) && CreateDevelopmentClient(t, g).Ok? && Get(g.Rows(t)).Missing?
    ensures var (u, c) := CreateDevelopmentClient(t, g).value;
            DraftedAs(t, u, c, g) && WrittenAs(t, u.clients[c], g)
  {
    hide First, ClientFits, ConfigMembership, OneApp, UniqueReleases, UniqueDevices, OneDevelopmentClient, OneOwner,
      MappingsOwned, ClientsAuthorized;
    MembershipFound(NewOAuthClient(t, g.clientId), g.config);
    forall d | d in t.clients ensures !HasKey(t.clients[d], g.release, g.config.user, g.config.organization, g.node) {
      assert d !in g.Rows(t);
    }
  }

  /** `create_development_client`, said of the rows. */
  lemma DevelopedAs(t: Tables, g: Registration)
    requires SoundRegistry(t) && CreateDevelopmentClient(t, g).Ok?
    ensures var (u, c) := CreateDevelopmentClient(t, g).value;
            WrittenAs(t, u.clients[c], g) && DraftedAs(t, u, c, g)
  {
    hide SoundRegistry, CreateDevelopmentClient, WrittenAs, DraftedAs, DevelopmentRows;
    NeedsOne(t, g);
    if Get(g.Rows(t)).Found? { RegisteredAgain(t, g); } else { RegisteredFirst(t, g); }
  }

  // ---- Scopes -----------------------------------------------------------------------------------------------------

  predicate IsNamed(t: Tables, s: nat, organization: nat, names: seq<string>) {
    s in t.scopes && t.scopes[s].organization == organization && t.scopes[s].identifier in names
  }

  /** The scopes found are exactly the organization's scopes that are named. */
  lemma {:induction false} ScopesNamed(t: Tables, organization: nat, names: seq<string>)
    requires ScopeIds(t, organization, names).Ok?
    ensures forall s :: s in ScopeIds(t, organization, names).value <==> IsNamed(t, s, organization, names)
  {
    if names != [] {
      var n := |names| - 1;
      ScopesNamed(t, organization, names[..n]);
      var rows := ScopeRows(t, names[n], organization);
      assert names == names[..n] + [names[n]];
      forall s ensures IsNamed(t, s, organization, names) <==> IsNamed(t, s, organization, names[..n]) || s in rows {
      }
    }
  }

  // ---- Composing and scopes together ------------------------------------------------------------------------------

  /** The client's composition and scopes, given the rows it was composed from; nobody else is touched. */
  ghost predicate EquippedAs(w: Crypto, from: Tables, t: Tables, u: Tables, c: nat, o: Order) {
    && c in t.clients && c in u.clients && u == t.(clients := t.clients[c := u.clients[c]], mappings := u.mappings)
    && (forall q :: q in u.mappings && q.0 != c ==> q in t.mappings && u.mappings[q] == t.mappings[q])
    && (forall q :: q in t.mappings && q.0 != c ==> q in u.mappings)
    && u.clients[c] == t.clients[c].(scopes := u.clients[c].scopes, statuses := u.clients[c].statuses,
                                     requirementsHash := u.clients[c].requirementsHash)
    && (forall s :: s in u.clients[c].scopes <==>
          s in t.clients[c].scopes || IsNamed(from, s, o.organization, o.manifest.scopes))
    && (if o.manifest.requirements == []
        then && u.mappings == t.mappings && u.clients[c].statuses == t.clients[c].statuses
             && u.clients[c].requirementsHash == t.clients[c].requirementsHash
        else && ComposedAs(from, Party(o.user, t.clients[c].composition, o.declined), o.manifest.requirements,
                           Rendering.MappingsOf(u, c), u.clients[c].statuses)
             && u.clients[c].requirementsHash == w.sha256(Tokens.RequirementsText(o.manifest.requirements)))
  }

  lemma NamedThere(from: Tables, t: Tables, organization: nat, names: seq<string>)
    requires from.scopes == t.scopes
    ensures forall s :: IsNamed(from, s, organization, names) == IsNamed(t, s, organization, names)
  {
  }

  lemma ViewsStay(t: Tables, u: Tables, c: nat)
    requires t.mappings == u.mappings
    ensures Rendering.MappingsOf(t, c) == Rendering.MappingsOf(u, c)
  {
  }

  /** Composing from rows that are the same elsewhere. */
  lemma ComposedFrom(w: Crypto, from: Tables, t: Tables, c: nat, reqs: seq<Requirement>, user: nat,
                     declined: set<string>)
    requires c in t.clients && reqs != [] && Rendering.SameInstances(t, from)
    requires Rendering.AutoCompose(w, t, c, reqs, user, declined).Ok?
    ensures var u := Rendering.AutoCompose(w, t, c, reqs, user, declined).value;
            ComposedAs(from, Party(user, t.clients[c].composition, declined), reqs, Rendering.MappingsOf(u, c),
                       u.clients[c].statuses)
  {
    hide ComposedAs, Rendering.Compose, Rendering.AutoCompose, Rendering.SameInstances;
    var p := Party(user, t.clients[c].composition, declined);
    Rendering.AutoComposeReplaces(w, t, c, reqs, user, declined);
    Rendering.ComposeLooksAtInstances(SceneOf(t, p), from, reqs);
    ComposesAs(from, p, reqs);
  }

  lemma ScopesAdded(w: Crypto, from: Tables, t: Tables, v: Tables, u: Tables, c: nat, o: Order, scopes: set<nat>)
    requires c in t.clients && c in v.clients
    requires ComposedInto(w, t, v, c, Party(o.user, t.clients[c].composition, o.declined), o.manifest.requirements)
    requires o.manifest.requirements != [] ==>
               ComposedAs(from, Party(o.user, t.clients[c].composition, o.declined), o.manifest.requirements,
                          Rendering.MappingsOf(v, c), v.clients[c].statuses)
    requires u == v.(clients := v.clients[c := v.clients[c].(scopes := v.clients[c].scopes + scopes)])
    requires forall s :: s in scopes <==> IsNamed(from, s, o.organization, o.manifest.scopes)
    ensures EquippedAs(w, from, t, u, c, o)
  {
    hide ComposedAs, Rendering.MappingsOf, IsNamed, Tokens.RequirementsText;
    ViewsStay(v, u, c);
    assert u.clients == t.clients[c := u.clients[c]];
  }

  lemma EquipsAs(w: Crypto, from: Tables, t: Tables, c: nat, o: Order)
    requires c in t.clients && Rendering.SameInstances(t, from) && from.scopes == t.scopes
    requires Equip(w, t, c, o.manifest, o.user, o.organization, o.declined).Ok?
    ensures EquippedAs(w, from, t, Equip(w, t, c, o.manifest, o.user, o.organization, o.declined).value, c, o)
  {
    hide ComposedAs, ComposedInto, EquippedAs, Rendering.AutoCompose, Rendering.SameInstances, ScopeIds, IsNamed;
    var m := o.manifest;
    var v := Rendering.AutoCompose(w, t, c, m.requirements, o.user, o.declined).value;
    AutoComposesAs(w, t, c, m.requirements, o.user, o.declined);
    if m.requirements != [] { ComposedFrom(w, from, t, c, m.requirements, o.user, o.declined); }
    ScopesNamed(v, o.organization, m.scopes);
    NamedThere(from, v, o.organization, m.scopes);
    ScopesAdded(w, from, t, v, Equip(w, t, c, m, o.user, o.organization, o.declined).value, c, o,
                ScopeIds(v, o.organization, m.scopes).value);
  }

  // ---- Registering ------------------------------------------------------------------------------------------------

  /** The release of the manifest, with the logo that was fetched for it; no other release and no other app
      changes. */
  ghost predicate IsReleased(t: Tables, u: Tables, r: nat, m: Manifest, download: Download) {
    exists logo :: IsLogo(m, download, logo) && ReleasedAs(u, r, m, logo) && CatalogueKept(t, u, r, logo)
  }

  /** The columns of the client's row. */
  ghost predicate FiledAs(w: Crypto, t: Tables, u: Tables, c: nat, o: Order) {
    && c in u.clients
    && var row := u.clients[c];
    && IsReleased(t, u, row.release, o.manifest, o.draw.download)
    && NodeAs(w, u, o.manifest, o.organization, row.node) && DevicesKept(w, t, u, o.manifest, o.organization)
    && row.kind == Development && row.user == o.config.user && row.organization == o.config.organization
    && row.token == o.config.token && row.role == o.config.role && row.manifest == o.manifest
    && row.composition == o.composition && IsMembership(u, row.membership, o.config.user, o.config.organization)
  }

  /** A client that was there has the same release, user, organization and node, its OAuth2 client and its
      redirects; a new one, where no client has these four, gets an OAuth2 client of its own. */
  ghost predicate LinkedAs(t: Tables, u: Tables, c: nat, o: Order) {
    && c in u.clients
    && var row := u.clients[c];
    if c in t.clients
    then && HasKey(t.clients[c], row.release, row.user, row.organization, row.node) && row.tenant == o.config.tenant
         && row.oauthClient == t.clients[c].oauthClient && row.redirectUris == t.clients[c].redirectUris
         && u.oauthClients == t.oauthClients
    else && (forall d :: d in t.clients ==> !HasKey(t.clients[d], row.release, row.user, row.organization, row.node))
         && row.oauthClient !in t.oauthClients
         && u.oauthClients == t.oauthClients[row.oauthClient := OAuthClient(o.draw.clientId)]
         && row.tenant == o.config.user && row.redirectUris == ""
  }

  /** Its former scopes and exactly those named; composed, with the order's user and declined keys, for the order's
      composition. */
  ghost predicate SuppliedAs(w: Crypto, t: Tables, u: Tables, c: nat, o: Order) {
    && c in u.clients
    && var row := u.clients[c];
    && (forall s :: s in row.scopes <==>
          (c in t.clients && s in t.clients[c].scopes) || IsNamed(t, s, o.organization, o.manifest.scopes))
    && if o.manifest.requirements == []
       then && u.mappings == t.mappings
            && row.statuses == (if c in t.clients then t.clients[c].statuses else map[])
            && row.requirementsHash == (if c in t.clients then t.clients[c].requirementsHash else "")
       else && ComposedAs(t, Party(o.user, o.composition, o.declined), o.manifest.requirements,
                          Rendering.MappingsOf(u, c), row.statuses)
            && row.requirementsHash == w.sha256(Tokens.RequirementsText(o.manifest.requirements))
  }

  /** Nobody else's row or mapping changes. */
  ghost predicate OthersStay(t: Tables, u: Tables, c: nat) {
    && (forall d :: d in t.clients && d != c ==> d in u.clients && u.clients[d] == t.clients[d])
    && (forall d :: d in u.clients ==> d == c || d in t.clients)
    && (forall q :: q in u.mappings && q.0 != c ==> q in t.mappings && u.mappings[q] == t.mappings[q])
    && (forall q :: q in t.mappings && q.0 != c ==> q in u.mappings)
    && u == t.(nextId := u.nextId, apps := u.apps, releases := u.releases, devices := u.devices, clients := u.clients,
               oauthClients := u.oauthClients, mappings := u.mappings)
  }

  /** The client a registration leaves. */
  ghost predicate RegisteredAs(w: Crypto, t: Tables, u: Tables, c: nat, o: Order) {
    FiledAs(w, t, u, c, o) && LinkedAs(t, u, c, o) && SuppliedAs(w, t, u, c, o) && OthersStay(t, u, c)
  }

  /** The three parts of a registration: the rows it calls for, the client's row, and what it is equipped with. */
  ghost predicate Parts(w: Crypto, t: Tables, t1: Tables, t2: Tables, u: Tables, c: nat, o: Order, g: Registration,
                        logo: Option<string>) {
    && IsLogo(o.manifest, o.draw.download, logo) && OnlyRegistry(t, t1)
    && t1.clients == t.clients && t1.mappings == t.mappings && t1.oauthClients == t.oauthClients
    && ReleasedAs(t1, g.release, o.manifest, logo) && NodeAs(w, t1, o.manifest, o.organization, g.node)
    && CatalogueKept(t, t1, g.release, logo) && DevicesKept(w, t, t1, o.manifest, o.organization)
    && g == Registration(g.release, o.config, o.manifest, g.node, o.composition, o.draw.clientId)
    && c in t2.clients && WrittenAs(t1, t2.clients[c], g) && DraftedAs(t1, t2, c, g)
    && EquippedAs(w, t, t2, u, c, o)
  }

  lemma JoinedFiled(w: Crypto, t: Tables, t1: Tables, t2: Tables, u: Tables, c: nat, o: Order, g: Registration,
                    logo: Option<string>)
    requires Parts(w, t, t1, t2, u, c, o, g, logo)
    ensures FiledAs(w, t, u, c, o)
  {
    hide ComposedAs, Rendering.MappingsOf, Tokens.RequirementsText, IsNamed, IsReleased, NodeAs, ReleasedAs,
      CatalogueKept, DevicesKept;
    assert u.releases == t1.releases && u.apps == t1.apps && u.devices == t1.devices;
    StillReleased(t, t1, u, g.release, o.manifest, o.draw.download, logo);
    StillThere(w, t, t1, u, o.manifest, o.organization, g.node);
  }

  lemma JoinedLinked(w: Crypto, t: Tables, t1: Tables, t2: Tables, u: Tables, c: nat, o: Order, g: Registration,
                     logo: Option<string>)
    requires Parts(w, t, t1, t2, u, c, o, g, logo)
    ensures LinkedAs(t, u, c, o)
  {
    hide ComposedAs, Rendering.MappingsOf, Tokens.RequirementsText, IsNamed, IsReleased, NodeAs, ReleasedAs,
      CatalogueKept, DevicesKept, IsLogo;
  }

  lemma JoinedSupplied(w: Crypto, t: Tables, t1: Tables, t2: Tables, u: Tables, c: nat, o: Order, g: Registration,
                       logo: Option<string>)
    requires Parts(w, t, t1, t2, u, c, o, g, logo)
    ensures SuppliedAs(w, t, u, c, o)
  {
    hide ComposedAs, Rendering.MappingsOf, Tokens.RequirementsText, IsNamed, IsReleased, NodeAs, ReleasedAs,
      CatalogueKept, DevicesKept, IsLogo;
  }

  lemma JoinedOthers(w: Crypto, t: Tables, t1: Tables, t2: Tables, u: Tables, c: nat, o: Order, g: Registration,
                     logo: Option<string>)
    requires Parts(w, t, t1, t2, u, c, o, g, logo)
    ensures OthersStay(t, u, c)
  {
    hide ComposedAs, Rendering.MappingsOf, Tokens.RequirementsText, IsNamed, IsReleased, NodeAs, ReleasedAs,
      CatalogueKept, DevicesKept, IsLogo;
  }

  lemma StillReleased(t: Tables, t1: Tables, u: Tables, r: nat, m: Manifest, download: Download, logo: Option<string>)
    requires u.releases == t1.releases && u.apps == t1.apps
    requires IsLogo(m, download, logo) && ReleasedAs(t1, r, m, logo) && CatalogueKept(t, t1, r, logo)
    ensures IsReleased(t, u, r, m, download)
  {
    assert ReleasedAs(u, r, m, logo) && CatalogueKept(t, u, r, logo);
  }

  lemma StillThere(w: Crypto, t: Tables, t1: Tables, u: Tables, m: Manifest, organization: nat, node: Option<nat>)
    requires u.devices == t1.devices && NodeAs(w, t1, m, organization, node) && DevicesKept(w, t, t1, m, organization)
    ensures NodeAs(w, u, m, organization, node) && DevicesKept(w, t, u, m, organization)
  {
  }

  /** The tables before a device was looked up or created. */
  predicate BeforeNode(w: Crypto, from: Tables, t: Tables, m: Manifest, organization: nat) {
    && from == t.(nextId := from.nextId, devices := from.devices) && from.nextId <= t.nextId
    && DevicesKept(w, from, t, m, organization)
  }

  lemma CatalogueFrom(w: Crypto, from: Tables, t: Tables, t1: Tables, release: nat, logo: Option<string>, m: Manifest,
                      organization: nat)
    requires BeforeNode(w, from, t, m, organization)
    requires CatalogueKept(t, t1, release, logo) && DevicesKept(w, t, t1, m, organization)
    ensures CatalogueKept(from, t1, release, logo) && DevicesKept(w, from, t1, m, organization)
  {
    hide OnlyRow;
  }

  lemma RegistersFrom(w: Crypto, from: Tables, t: Tables, o: Order)
    requires SoundRegistry(t) && CreateClient(w, t, o).Ok? && BeforeNode(w, from, t, o.manifest, o.organization)
    ensures var (u, c) := CreateClient(w, t, o).value; RegisteredAs(w, from, u, c, o)
  {
    hide SoundRegistry, Provision, CreateDevelopmentClient, Equip, ReleasedAs, NodeAs, WrittenAs, DraftedAs, EquippedAs,
      CatalogueKept, DevicesKept, FiledAs, LinkedAs, SuppliedAs, OthersStay, IsLogo;
    LogoFetched(o.manifest, o.draw.download);
    var logo := FetchLogo(o.manifest, o.draw.download).value;
    var (t1, release, node) := Provision(w, t, o.manifest, o.organization, logo).value;
    ProvisionedAs(w, t, o.manifest, o.organization, logo);
    ProvisionSound(w, t, o.manifest, o.organization, logo);
    ProvisionKeeps(w, t, o.manifest, o.organization, logo);
    CatalogueFrom(w, from, t, t1, release, logo, o.manifest, o.organization);
    var g := Registration(release, o.config, o.manifest, node, o.composition, o.draw.clientId);
    var (t2, c) := CreateDevelopmentClient(t1, g).value;
    DevelopedAs(t1, g);
    EquipsAs(w, from, t2, c, o);
    var u := CreateClient(w, t, o).value.0;
    JoinedFiled(w, from, t1, t2, u, c, o, g, logo);
    JoinedLinked(w, from, t1, t2, u, c, o, g, logo);
    JoinedSupplied(w, from, t1, t2, u, c, o, g, logo);
    JoinedOthers(w, from, t1, t2, u, c, o, g, logo);
  }

  /** `create_client`, said of the rows. */
  lemma RegistersAs(w: Crypto, t: Tables, o: Order)
    requires SoundRegistry(t) && CreateClient(w, t, o).Ok?
    ensures var (u, c) := CreateClient(w, t, o).value; RegisteredAs(w, t, u, c, o)
  {
    hide SoundRegistry, CreateClient, RegisteredAs;
    RegistersFrom(w, t, t, o);
  }

  // ---- Clients that are reused ------------------------------------------------------------------------------------

  /** What a client is looked for by, besides its node. */
  datatype Ask = Ask(manifest: Manifest, kind: Kind, user: nat, organization: nat, composition: nat,
                     redirectUris: string)

  /** A client of the same app identifier and version, of the kind, node, tenant, organization, composition and
      redirects. */
  predicate Fitting(t: Tables, c: nat, q: Ask, node: Option<nat>) {
    && c in t.clients
    && var row := t.clients[c];
    && row.release in t.releases && t.releases[row.release].version == q.manifest.version
    && t.releases[row.release].app in t.apps
    && t.apps[t.releases[row.release].app].identifier == q.manifest.identifier
    && row.kind == q.kind && row.node == node && row.tenant == q.user && row.organization == q.organization
    && row.composition == Some(q.composition) && row.redirectUris == q.redirectUris
  }

  /** The first client that fits. */
  ghost predicate FirstFitting(t: Tables, c: nat, q: Ask, node: Option<nat>) {
    Fitting(t, c, q, node) && forall d: nat :: Fitting(t, d, q, node) ==> c <= d
  }

  /** No client fits with the request's node. */
  ghost predicate NoneFits(w: Crypto, t: Tables, q: Ask) {
    forall node, d: nat :: NodeAs(w, t, q.manifest, q.organization, node) ==> !Fitting(t, d, q, node)
  }

  function ReusableFor(t: Tables, q: Ask, node: Option<nat>): (r: set<nat>)
    ensures r <= t.clients.Keys
  {
    Reusable(t, q.manifest.identifier, q.manifest.version, q.kind, node, q.user, q.organization, q.composition,
             q.redirectUris)
  }

  lemma ReusableFits(t: Tables, q: Ask, node: Option<nat>)
    ensures forall c :: c in ReusableFor(t, q, node) <==> Fitting(t, c, q, node)
  {
  }

  lemma FirstReusable(t: Tables, q: Ask, node: Option<nat>)
    ensures match First(ReusableFor(t, q, node))
            case Some(c) => FirstFitting(t, c, q, node)
            case None => forall d: nat :: !Fitting(t, d, q, node)
  {
    hide Fitting, ReusableFor;
    ReusableFits(t, q, node);
  }

  /** The look-up after the device was found or created, said of the tables before it. */
  lemma LookedUp(w: Crypto, t: Tables, q: Ask)
    requires SoundRegistry(t) && GetOrCreateNode(w, t, q.manifest, q.organization).Ok?
    ensures var (t1, node) := GetOrCreateNode(w, t, q.manifest, q.organization).value;
            && BeforeNode(w, t, t1, q.manifest, q.organization) && NodeAs(w, t1, q.manifest, q.organization, node)
            && match First(ReusableFor(t1, q, node))
               case Some(c) => FirstFitting(t, c, q, node)
               case None => NoneFits(w, t, q)
  {
    hide Fitting, ReusableFor, NodeAs, GetOrCreateNode, SoundRegistry, DevicesKept;
    var (t1, node) := GetOrCreateNode(w, t, q.manifest, q.organization).value;
    DevicesDrawn(t);
    NodeFetched(w, t, q.manifest, q.organization);
    FirstReusable(t1, q, node);
    FittingStays(t, t1, q, node);
    forall n | NodeAs(w, t, q.manifest, q.organization, n) ensures n == node {
      OneNode(w, t, q.manifest, q.organization, n);
    }
  }

  lemma FittingStays(t: Tables, t1: Tables, q: Ask, node: Option<nat>)
    requires t1 == t.(nextId := t1.nextId, devices := t1.devices)
    ensures forall d: nat :: Fitting(t1, d, q, node) == Fitting(t, d, q, node)
  {
  }

  lemma OneNode(w: Crypto, t: Tables, m: Manifest, organization: nat, node: Option<nat>)
    requires SoundRegistry(t) && GetOrCreateNode(w, t, m, organization).Ok? && NodeAs(w, t, m, organization, node)
    ensures GetOrCreateNode(w, t, m, organization).value.1 == node
  {
    hide First, OneApp, UniqueReleases, OneDevelopmentClient, OneOwner, MappingsOwned, ClientsAuthorized, Drawn;
    if Truthy(m.nodeId) {
      assert node.value in DeviceRows(t, organization, w.deviceHash(m.nodeId.value, organization));
      var rows := DeviceRows(t, organization, w.deviceHash(m.nodeId.value, organization));
      if Get(rows).Found? { assert Get(rows).id in rows; }
    }
  }
}
