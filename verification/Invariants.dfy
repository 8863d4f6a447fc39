/** What every step of the client lifecycle keeps. */
module Invariants {
  import opened Prelude
  import opened Rows
  import opened Clients
  import Rendering

  // Each clause speaks of the tables it needs, so that a step only has to look at what it writes.

  ghost predicate Drawn<T>(table: map<nat, T>, next: nat) {
    forall id :: id in table ==> id < next
  }

  ghost predicate UniqueReleases(rows: map<nat, Release>) {
    forall a, b | a in rows && b in rows && rows[a].app == rows[b].app && rows[a].version == rows[b].version :: a == b
  }

  ghost predicate UniqueDevices(rows: map<nat, Device>) {
    forall a, b | a in rows && b in rows && rows[a] == rows[b] :: a == b
  }

  ghost predicate UniqueMemberships(rows: map<nat, Membership>) {
    forall a, b | a in rows && b in rows && rows[a].user == rows[b].user
      && rows[a].organization == rows[b].organization :: a == b
  }

  ghost predicate UniqueScopes(rows: map<nat, Grant>) {
    forall a, b | a in rows && b in rows && rows[a].identifier == rows[b].identifier
                  && rows[a].organization == rows[b].organization :: a == b
  }

  ghost predicate UniqueTokens(rows: map<nat, RedeemToken>) {
    forall a, b | a in rows && b in rows && rows[a].token == rows[b].token :: a == b
  }

  ghost predicate UniqueCodes(rows: map<nat, DeviceCode>) {
    forall a, b | a in rows && b in rows && rows[a].code == rows[b].code :: a == b
  }

  /** App identifiers carry no constraint; find-or-create alone keeps them unique. */
  ghost predicate OneApp(rows: map<nat, App>) {
    forall a, b | a in rows && b in rows && rows[a].identifier == rows[b].identifier :: a == b
  }

  /** At most one development client per release, user, organization and node, no node included. */
  ghost predicate OneDevelopmentClient(rows: map<nat, Client>) {
    forall a, b | a in rows && b in rows && rows[a].kind == Development
                  && IsFor(rows[b], rows[a].release, rows[a].user, rows[a].organization, rows[a].node) :: a == b
  }

  /** No two redeem tokens hold the same client. */
  ghost predicate OneTokenPerClient(rows: map<nat, RedeemToken>) {
    forall a, b | a in rows && b in rows && rows[a].client.Some? && rows[a].client == rows[b].client :: a == b
  }

  ghost predicate MappingsOwned(mappings: map<(nat, string), nat>, clients: set<nat>) {
    forall c, k :: (c, k) in mappings ==> c in clients
  }

  ghost predicate ClientsAuthorized(rows: map<nat, Client>, oauthClients: set<nat>) {
    forall c :: c in rows ==> rows[c].oauthClient in oauthClients
  }

  /** The one-to-one column: no two clients own the same OAuth2 client. */
  ghost predicate OneOwner(rows: map<nat, Client>) {
    forall a, b | a in rows && b in rows && rows[a].oauthClient == rows[b].oauthClient :: a == b
  }

  ghost predicate TokensHold(rows: map<nat, RedeemToken>, clients: set<nat>) {
    forall r :: r in rows && rows[r].client.Some? ==> rows[r].client.value in clients
  }

  ghost predicate CodesHold(rows: map<nat, DeviceCode>, clients: set<nat>) {
    forall k :: k in rows && rows[k].client.Some? ==> rows[k].client.value in clients
  }

  ghost predicate SoundRegistry(t: Tables) {
    && Drawn(t.apps, t.nextId) && Drawn(t.releases, t.nextId) && Drawn(t.devices, t.nextId)
    && Drawn(t.oauthClients, t.nextId) && Drawn(t.clients, t.nextId)
    && OneApp(t.apps) && UniqueReleases(t.releases) && UniqueDevices(t.devices)
    && OneDevelopmentClient(t.clients) && OneOwner(t.clients)
    && MappingsOwned(t.mappings, t.clients.Keys) && ClientsAuthorized(t.clients, t.oauthClients.Keys)
  }

  ghost predicate SoundVouchers(t: Tables) {
    && Drawn(t.tokens, t.nextId) && Drawn(t.codes, t.nextId)
    && UniqueTokens(t.tokens) && OneTokenPerClient(t.tokens) && TokensHold(t.tokens, t.clients.Keys)
    && UniqueCodes(t.codes) && CodesHold(t.codes, t.clients.Keys)
  }

  ghost predicate Sound(t: Tables) {
    && SoundRegistry(t) && SoundVouchers(t)
    && UniqueMemberships(t.memberships) && UniqueScopes(t.scopes)
  }

  lemma RegistrySound(t: Tables)
    requires Sound(t)
    ensures SoundRegistry(t)
  {
    hide SoundRegistry;
  }

  /** The runs can start from nothing. */
  lemma NoTablesSound()
    ensures Sound(NoTables()) && StatusesAgree(NoTables())
  {
  }

  lemma DrawnLater<T>(table: map<nat, T>, next: nat, later: nat)
    requires Drawn(table, next) && next <= later
    ensures Drawn(table, later)
  {
  }

  lemma DrawnInsert<T>(table: map<nat, T>, next: nat, row: T)
    requires Drawn(table, next)
    ensures Drawn(table[next := row], next + 1)
  {
  }

  lemma DrawnKept<T>(table: map<nat, T>, next: nat, id: nat, row: T)
    requires Drawn(table, next) && id in table
    ensures Drawn(table[id := row], next)
  {
  }

  lemma ClientKept(rows: map<nat, Client>, oauthClients: set<nat>, id: nat, row: Client)
    requires ClientsAuthorized(rows, oauthClients) && id in rows && row.oauthClient == rows[id].oauthClient
    ensures ClientsAuthorized(rows[id := row], oauthClients)
  {
  }

  lemma ClientAdded(rows: map<nat, Client>, oauthClients: map<nat, OAuthClient>, mappings: map<(nat, string), nat>,
                    id: nat, o: nat, a: OAuthClient, row: Client)
    requires ClientsAuthorized(rows, oauthClients.Keys) && MappingsOwned(mappings, rows.Keys) && row.oauthClient == o
    ensures ClientsAuthorized(rows[id := row], oauthClients[o := a].Keys)
    ensures MappingsOwned(mappings, rows[id := row].Keys)
  {
  }

  lemma OwnerKept(rows: map<nat, Client>, id: nat, row: Client)
    requires OneOwner(rows) && id in rows && row.oauthClient == rows[id].oauthClient
    ensures OneOwner(rows[id := row])
  {
  }

  /** An OAuth2 client whose key is just drawn is nobody's yet. */
  lemma NewOwner(rows: map<nat, Client>, oauthClients: map<nat, OAuthClient>, next: nat, id: nat, row: Client)
    requires OneOwner(rows) && ClientsAuthorized(rows, oauthClients.Keys) && Drawn(oauthClients, next)
             && row.oauthClient == next
    ensures OneOwner(rows[id := row])
  {
  }

  lemma InsertApp(rows: map<nat, App>, id: nat, row: App)
    requires OneApp(rows) && forall a :: a in rows ==> rows[a].identifier != row.identifier
    ensures OneApp(rows[id := row])
  {
  }

  lemma PutRelease(t: Tables, id: nat, row: Release)
    requires UniqueReleases(t.releases) && ReleaseRows(t, row.app, row.version) <= {id}
    ensures UniqueReleases(t.releases[id := row])
  {
    assert forall r | r in t.releases && t.releases[r].app == row.app && t.releases[r].version == row.version
      :: r in ReleaseRows(t, row.app, row.version);
  }

  lemma InsertDevice(rows: map<nat, Device>, id: nat, row: Device)
    requires UniqueDevices(rows) && forall d :: d in rows ==> rows[d] != row
    ensures UniqueDevices(rows[id := row])
  {
  }

  lemma PutClient(t: Tables, id: nat, row: Client)
    requires OneDevelopmentClient(t.clients)
    requires row.kind == Development ==> DevelopmentRows(t, row.release, row.user, row.organization, row.node) <= {id}
    ensures OneDevelopmentClient(t.clients[id := row])
  {
    var rows := t.clients;
    assert forall c | c in rows && IsFor(rows[c], row.release, row.user, row.organization, row.node)
      :: c in DevelopmentRows(t, row.release, row.user, row.organization, row.node);
    var after := rows[id := row];
    forall a, b | a in after && b in after && after[a].kind == Development
                  && IsFor(after[b], after[a].release, after[a].user, after[a].organization, after[a].node)
      ensures a == b
    {
      if a != id && b == id {
        assert IsFor(rows[a], row.release, row.user, row.organization, row.node);
      }
    }
  }

  /** Drawing the next key keeps every other table's keys below the sequence. */
  lemma AllDrawnLater(t: Tables, later: nat)
    requires t.nextId <= later
    ensures SoundRegistry(t) ==> && Drawn(t.apps, later) && Drawn(t.releases, later) && Drawn(t.devices, later)
                                 && Drawn(t.oauthClients, later) && Drawn(t.clients, later)
    ensures SoundVouchers(t) ==> Drawn(t.tokens, later) && Drawn(t.codes, later)
  {
  }

  lemma AppSound(t: Tables, identifier: string)
    requires SoundRegistry(t) && GetOrCreateApp(t, identifier).Ok?
    ensures SoundRegistry(GetOrCreateApp(t, identifier).value.0)
  {
    hide Drawn, OneApp, UniqueReleases, UniqueDevices, OneDevelopmentClient, OneOwner, MappingsOwned, ClientsAuthorized;
    if Get(AppRows(t, identifier)).Missing? {
      var row := App(identifier, None);
      assert forall a :: a in t.apps ==> t.apps[a].identifier != identifier by {
        assert forall a :: a in t.apps && t.apps[a].identifier == identifier ==> a in AppRows(t, identifier);
      }
      InsertApp(t.apps, t.nextId, row);
      DrawnInsert(t.apps, t.nextId, row);
      AllDrawnLater(t, t.nextId + 1);
    }
  }

  lemma ReleaseSound(t: Tables, app: nat, m: Manifest, logo: Option<string>)
    requires SoundRegistry(t) && UpsertRelease(t, app, m, logo).Ok?
    ensures SoundRegistry(UpsertRelease(t, app, m, logo).value.0)
  {
    hide Drawn, OneApp, UniqueReleases, UniqueDevices, OneDevelopmentClient, OneOwner, MappingsOwned, ClientsAuthorized;
    var row, rows := Release(app, m.version, logo, m.scopes, m.requirements), ReleaseRows(t, app, m.version);
    match Get(rows)
    case Found(r) =>
      assert r in rows;
      PutRelease(t, r, row);
      DrawnKept(t.releases, t.nextId, r, row);
    case Missing =>
      PutRelease(t, t.nextId, row);
      DrawnInsert(t.releases, t.nextId, row);
      AllDrawnLater(t, t.nextId + 1);
  }

  lemma NodeSound(w: Crypto, t: Tables, m: Manifest, organization: nat)
    requires SoundRegistry(t) && GetOrCreateNode(w, t, m, organization).Ok?
    ensures SoundRegistry(GetOrCreateNode(w, t, m, organization).value.0)
  {
    hide Drawn, OneApp, UniqueReleases, UniqueDevices, OneDevelopmentClient, OneOwner, MappingsOwned, ClientsAuthorized;
    if Truthy(m.nodeId) {
      var row := Device(organization, w.deviceHash(m.nodeId.value, organization));
      if Get(DeviceRows(t, organization, row.nodeId)).Missing? {
        assert forall d :: d in t.devices && t.devices[d] == row ==> d in DeviceRows(t, organization, row.nodeId);
        InsertDevice(t.devices, t.nextId, row);
        DrawnInsert(t.devices, t.nextId, row);
        AllDrawnLater(t, t.nextId + 1);
      }
    }
  }

  lemma UpdateSound(t: Tables, c: nat, row: Client)
    requires SoundRegistry(t) && c in t.clients && row.oauthClient == t.clients[c].oauthClient
    requires row.kind == Development ==> DevelopmentRows(t, row.release, row.user, row.organization, row.node) <= {c}
    ensures SoundRegistry(t.(clients := t.clients[c := row]))
  {
    hide Drawn, OneApp, UniqueReleases, UniqueDevices, OneDevelopmentClient, OneOwner, MappingsOwned, ClientsAuthorized;
    PutClient(t, c, row);
    DrawnKept(t.clients, t.nextId, c, row);
    ClientKept(t.clients, t.oauthClients.Keys, c, row);
    OwnerKept(t.clients, c, row);
    assert t.clients[c := row].Keys == t.clients.Keys;
  }

  lemma InsertSound(t: Tables, clientId: string, row: Client)
    requires SoundRegistry(t) && row.oauthClient == t.nextId
    requires row.kind == Development ==> DevelopmentRows(t, row.release, row.user, row.organization, row.node) == {}
    ensures SoundRegistry(t.(nextId := t.nextId + 2, oauthClients := t.oauthClients[t.nextId := OAuthClient(clientId)],
                             clients := t.clients[t.nextId + 1 := row]))
  {
    hide Drawn, OneApp, UniqueReleases, UniqueDevices, OneDevelopmentClient, OneOwner, MappingsOwned, ClientsAuthorized;
    PutClient(t, t.nextId + 1, row);
    DrawnInsert(t.oauthClients, t.nextId, OAuthClient(clientId));
    DrawnLater(t.oauthClients[t.nextId := OAuthClient(clientId)], t.nextId + 1, t.nextId + 2);
    DrawnLater(t.clients, t.nextId, t.nextId + 1);
    DrawnInsert(t.clients, t.nextId + 1, row);
    AllDrawnLater(t, t.nextId + 2);
    NewOwner(t.clients, t.oauthClients, t.nextId, t.nextId + 1, row);
    ClientAdded(t.clients, t.oauthClients, t.mappings, t.nextId + 1, t.nextId, OAuthClient(clientId), row);
  }

  /** Registering again writes the one matching row and nothing else. */
  lemma ReusesRow(t: Tables, g: Registration)
    requires CreateDevelopmentClient(t, g).Ok?
    requires Get(g.Rows(t)).Found?
    ensures var (t', c) := CreateDevelopmentClient(t, g).value;
            && g.Rows(t) == {c}
            && c in t.clients && g.Fits(t.clients[c])
            && t' == t.(clients := t.clients[c := t'.clients[c]])
            && t'.clients[c].oauthClient == t.clients[c].oauthClient
            && t'.clients[c].statuses == t.clients[c].statuses
            && g.Fits(t'.clients[c])
  {
    hide ClientFits, ConfigMembership, DevelopmentRows;
    SameKey(t, g, Get(g.Rows(t)).id);
  }

  /** A first registration adds one client and the OAuth2 client it owns. */
  lemma AddsRow(t: Tables, g: Registration)
    requires CreateDevelopmentClient(t, g).Ok?
    requires Get(g.Rows(t)).Missing?
    ensures var (t', c) := CreateDevelopmentClient(t, g).value;
            && c == t.nextId + 1
            && t' == t.(nextId := t.nextId + 2, oauthClients := t.oauthClients[t.nextId := OAuthClient(g.clientId)],
                        clients := t.clients[c := t'.clients[c]])
            && t'.clients[c].oauthClient == t.nextId
            && t'.clients[c].statuses == map[]
            && g.Fits(t'.clients[c])
  {
    hide ClientFits, ConfigMembership, DevelopmentRows;
  }

  lemma DevelopmentClientSound(t: Tables, g: Registration)
    requires SoundRegistry(t) && CreateDevelopmentClient(t, g).Ok?
    ensures SoundRegistry(CreateDevelopmentClient(t, g).value.0)
  {
    hide SoundRegistry, CreateDevelopmentClient, DevelopmentRows;
    var (t', c) := CreateDevelopmentClient(t, g).value;
    match Get(g.Rows(t))
    case Found(_) =>
      ReusesRow(t, g);
      UpdateSound(t, c, t'.clients[c]);
    case Missing =>
      AddsRow(t, g);
      InsertSound(t, g.clientId, t'.clients[c]);
    case Many =>
      NeedsOne(t, g);
  }

  lemma NeedsOne(t: Tables, g: Registration)
    ensures CreateDevelopmentClient(t, g).Ok?
            ==> !Get(g.Rows(t)).Many?
  {
  }

  lemma SameKey(t: Tables, g: Registration, c: nat)
    requires g.Rows(t) == {c}
    ensures c in t.clients && g.Fits(t.clients[c])
  {
    assert c in g.Rows(t);
  }

  lemma ComposeSound(w: Crypto, t: Tables, c: nat, m: Manifest, user: nat, declined: set<string>)
    requires SoundRegistry(t) && c in t.clients && Rendering.AutoCompose(w, t, c, m.requirements, user, declined).Ok?
    ensures SoundRegistry(Rendering.AutoCompose(w, t, c, m.requirements, user, declined).value)
  {
    hide Drawn, OneApp, UniqueReleases, UniqueDevices, OneDevelopmentClient, OneOwner, ClientsAuthorized,
      Rendering.Compose;
    if m.requirements != [] {
      var t' := Rendering.AutoCompose(w, t, c, m.requirements, user, declined).value;
      RowKept(t, c, t'.clients[c]);
    }
  }

  /** Saving a client under the same key columns keeps the registry sound. */
  lemma RowKept(t: Tables, c: nat, row: Client)
    requires SoundRegistry(t) && c in t.clients
    requires row.oauthClient == t.clients[c].oauthClient && row.kind == t.clients[c].kind
    requires IsFor(t.clients[c].(kind := Development), row.release, row.user, row.organization, row.node)
    ensures SoundRegistry(t.(clients := t.clients[c := row]))
  {
    if row.kind == Development {
      var rows := DevelopmentRows(t, row.release, row.user, row.organization, row.node);
      assert forall o :: o in rows ==> o == c;
    }
    UpdateSound(t, c, row);
  }

  lemma EquipSound(w: Crypto, t: Tables, c: nat, m: Manifest, user: nat, organization: nat, declined: set<string>)
    requires SoundRegistry(t) && c in t.clients && Equip(w, t, c, m, user, organization, declined).Ok?
    ensures SoundRegistry(Equip(w, t, c, m, user, organization, declined).value)
  {
    hide SoundRegistry, Rendering.AutoCompose, ScopeIds;
    ComposeSound(w, t, c, m, user, declined);
    var t1 := Rendering.AutoCompose(w, t, c, m.requirements, user, declined).value;
    RowKept(t1, c, Equip(w, t, c, m, user, organization, declined).value.clients[c]);
  }

  lemma ProvisionSound(w: Crypto, t: Tables, m: Manifest, organization: nat, logo: Option<string>)
    requires SoundRegistry(t) && Provision(w, t, m, organization, logo).Ok?
    ensures SoundRegistry(Provision(w, t, m, organization, logo).value.0)
  {
    hide SoundRegistry, GetOrCreateApp, UpsertRelease, GetOrCreateNode, SetAppLogo;
    var (t1, app) := GetOrCreateApp(t, m.identifier).value;
    var t2 := SetAppLogo(t1, app, logo);
    AppSound(t, m.identifier);
    LogoSound(t1, app, logo);
    ReleaseSound(t2, app, m, logo);
    NodeSound(w, UpsertRelease(t2, app, m, logo).value.0, m, organization);
  }

  lemma LogoSound(t: Tables, app: nat, logo: Option<string>)
    requires SoundRegistry(t) && app in t.apps
    ensures SoundRegistry(SetAppLogo(t, app, logo))
  {
    hide UniqueReleases, UniqueDevices, OneDevelopmentClient, OneOwner, MappingsOwned, ClientsAuthorized;
  }

  // ---- What a registration leaves alone, and what it owns --------------------------------------

  /** Every OAuth2 client that `u` has and `t` had not belongs to a client of `u`. */
  ghost predicate NoStrays(t: Tables, u: Tables) {
    forall o :: o in u.oauthClients && o !in t.oauthClients ==>
      exists c :: c in u.clients && u.clients[c].oauthClient == o
  }

  /** The sequence goes on; clients stay, each with its OAuth2 client; new clients have new OAuth2 clients,
      and no new OAuth2 client is without a client. */
  ghost predicate Extends(t: Tables, u: Tables) {
    && t.nextId <= u.nextId
    && t.oauthClients.Keys <= u.oauthClients.Keys
    && (forall c :: c in t.clients ==> c in u.clients && u.clients[c].oauthClient == t.clients[c].oauthClient)
    && (forall c :: c in u.clients && c !in t.clients ==> u.clients[c].oauthClient !in t.oauthClients)
    && NoStrays(t, u)
  }

  lemma ExtendsTransitive(t: Tables, u: Tables, v: Tables)
    requires Extends(t, u) && Extends(u, v)
    ensures Extends(t, v)
  {
    forall o | o in v.oauthClients && o !in t.oauthClients
      ensures exists c :: c in v.clients && v.clients[c].oauthClient == o {
      if o in u.oauthClients {
        var c :| c in u.clients && u.clients[c].oauthClient == o;
        assert c in v.clients;
      }
    }
  }

  /** Every client's granted keys are its mapped keys. */
  ghost predicate StatusesAgree(t: Tables) {
    forall c, k :: c in t.clients ==>
      ((c, k) in t.mappings <==> k in t.clients[c].statuses && t.clients[c].statuses[k] == Status.Granted)
  }

  lemma ProvisionKeeps(w: Crypto, t: Tables, m: Manifest, organization: nat, logo: Option<string>)
    requires Provision(w, t, m, organization, logo).Ok?
    ensures var u := Provision(w, t, m, organization, logo).value.0;
            u.clients == t.clients && u.mappings == t.mappings && u.oauthClients == t.oauthClients
                && t.nextId <= u.nextId
  {
    hide GetOrCreateApp, UpsertRelease, GetOrCreateNode, SetAppLogo;
  }

  lemma DevelopmentClientKeeps(t: Tables, g: Registration)
    requires SoundRegistry(t) && CreateDevelopmentClient(t, g).Ok?
    ensures Extends(t, CreateDevelopmentClient(t, g).value.0)
    ensures StatusesAgree(t) ==> StatusesAgree(CreateDevelopmentClient(t, g).value.0)
  {
    hide CreateDevelopmentClient, SoundRegistry, Extends, StatusesAgree, DevelopmentRows, IsFor;
    var (u, c) := CreateDevelopmentClient(t, g).value;
    match Get(g.Rows(t))
    case Found(_) =>
      ReusesRow(t, g);
      RewriteKeeps(t, u, c);
    case Missing =>
      AddsRow(t, g);
      AdditionKeeps(t, u, c, OAuthClient(g.clientId));
    case Many => NeedsOne(t, g);
  }

  lemma RewriteKeeps(t: Tables, u: Tables, c: nat)
    requires c in t.clients && c in u.clients && u == t.(clients := t.clients[c := u.clients[c]])
    requires u.clients[c].oauthClient == t.clients[c].oauthClient && u.clients[c].statuses == t.clients[c].statuses
    ensures Extends(t, u) && (StatusesAgree(t) ==> StatusesAgree(u))
  {
  }

  lemma AdditionKeeps(t: Tables, u: Tables, c: nat, a: OAuthClient)
    requires SoundRegistry(t) && t.nextId < c && c in u.clients
    requires u == t.(nextId := t.nextId + 2, oauthClients := t.oauthClients[t.nextId := a],
                     clients := t.clients[c := u.clients[c]])
    requires u.clients[c].oauthClient == t.nextId && u.clients[c].statuses == map[]
    ensures Extends(t, u) && (StatusesAgree(t) ==> StatusesAgree(u))
  {
    hide OneApp, UniqueReleases, UniqueDevices, OneDevelopmentClient, OneOwner, ClientsAuthorized;
  }

  lemma ComposeKeeps(w: Crypto, t: Tables, c: nat, m: Manifest, user: nat, declined: set<string>)
    requires c in t.clients && Rendering.AutoCompose(w, t, c, m.requirements, user, declined).Ok?
    ensures Extends(t, Rendering.AutoCompose(w, t, c, m.requirements, user, declined).value)
    ensures StatusesAgree(t) && Rendering.DistinctKeys(m.requirements)
            ==> StatusesAgree(Rendering.AutoCompose(w, t, c, m.requirements, user, declined).value)
  {
    hide Rendering.Compose, Rendering.DistinctKeys, Rendering.KeysOf, Rendering.Fares, Rendering.Agrees,
      Rendering.Remapped, Extends, StatusesAgree;
    if m.requirements == [] {
      SameClients(t, t);
    } else {
      var s := Rendering.Scene(t, user, t.clients[c].composition, declined);
      if Rendering.DistinctKeys(m.requirements) {
        Rendering.ComposeDistinct(s, m.requirements);
      }
      RemappedAgrees(t, Rendering.AutoCompose(w, t, c, m.requirements, user, declined).value, c,
                     Rendering.Compose(s, m.requirements).value);
    }
  }

  lemma RemappedAgrees(t: Tables, u: Tables, c: nat, composed: Rendering.Composed)
    requires c in t.clients && c in u.clients
    requires u == t.(mappings := Rendering.Remapped(t.mappings, c, composed.mapped),
                     clients := t.clients[c := u.clients[c]])
    requires u.clients[c].statuses == composed.statuses && u.clients[c].oauthClient == t.clients[c].oauthClient
    ensures Extends(t, u)
    ensures StatusesAgree(t) && Rendering.Agrees(composed) ==> StatusesAgree(u)
  {
    hide Rendering.Remapped;
    forall d, k | StatusesAgree(t) && Rendering.Agrees(composed) && d in u.clients
      ensures (d, k) in u.mappings <==> k in u.clients[d].statuses && u.clients[d].statuses[k] == Status.Granted
    {
      assert k in composed.mapped <==> k in composed.mapped.Keys;
    }
  }

  lemma EquipKeeps(w: Crypto, t: Tables, c: nat, m: Manifest, user: nat, organization: nat, declined: set<string>)
    requires c in t.clients && Equip(w, t, c, m, user, organization, declined).Ok?
    ensures Extends(t, Equip(w, t, c, m, user, organization, declined).value)
    ensures StatusesAgree(t) && Rendering.DistinctKeys(m.requirements) ==>
              StatusesAgree(Equip(w, t, c, m, user, organization, declined).value)
  {
    hide Rendering.AutoCompose, Rendering.DistinctKeys, ScopeIds;
    ComposeKeeps(w, t, c, m, user, declined);
    var t1 := Rendering.AutoCompose(w, t, c, m.requirements, user, declined).value;
    ExtendsTransitive(t, t1, Equip(w, t, c, m, user, organization, declined).value);
  }

  /** `create_client` keeps the registry sound, loses no client and leaves no OAuth2 client behind. */
  lemma CreateClientKeeps(w: Crypto, t: Tables, o: Order)
    requires SoundRegistry(t) && CreateClient(w, t, o).Ok?
    ensures SoundRegistry(CreateClient(w, t, o).value.0) && Extends(t, CreateClient(w, t, o).value.0)
    ensures StatusesAgree(t) && Rendering.DistinctKeys(o.manifest.requirements) ==>
              StatusesAgree(CreateClient(w, t, o).value.0)
  {
    hide SoundRegistry, Extends, Provision, CreateDevelopmentClient, Equip, Rendering.DistinctKeys;
    var logo := FetchLogo(o.manifest, o.draw.download).value;
    var (t1, release, node) := Provision(w, t, o.manifest, o.organization, logo).value;
    ProvisionSound(w, t, o.manifest, o.organization, logo);
    ProvisionKeeps(w, t, o.manifest, o.organization, logo);
    var g := Registration(release, o.config, o.manifest, node, o.composition, o.draw.clientId);
    var (t2, c) := CreateDevelopmentClient(t1, g).value;
    DevelopmentClientSound(t1, g);
    DevelopmentClientKeeps(t1, g);
    EquipSound(w, t2, c, o.manifest, o.user, o.organization, o.declined);
    EquipKeeps(w, t2, c, o.manifest, o.user, o.organization, o.declined);
    SameClients(t, t1);
    ExtendsTransitive(t, t1, t2);
    ExtendsTransitive(t, t2, CreateClient(w, t, o).value.0);
  }

  lemma SameClients(t: Tables, u: Tables)
    requires u.clients == t.clients && u.oauthClients == t.oauthClients && t.nextId <= u.nextId
    ensures Extends(t, u)
  {
  }

  // ---- Vouchers: redeem tokens and device codes ------------------------------------------------

  /** One step's promise: soundness, no lost client or stray OAuth2 client, and, where keys are
      distinct, statuses that agree with the mappings. */
  ghost predicate Keeps(t: Tables, u: Tables, distinct: bool) {
    Sound(u) && Extends(t, u) && (distinct && StatusesAgree(t) ==> StatusesAgree(u))
  }

  lemma KeepsTransitive(t: Tables, u: Tables, v: Tables, distinct: bool)
    requires Keeps(t, u, distinct) && Keeps(u, v, distinct)
    ensures Keeps(t, v, distinct)
  {
    hide Sound, Extends, StatusesAgree;
    ExtendsTransitive(t, u, v);
  }

  lemma VouchersCarried(t: Tables, u: Tables)
    requires Sound(t) && OnlyRegistry(t, u) && Extends(t, u) && SoundRegistry(u)
    ensures Sound(u)
  {
    hide SoundRegistry, UniqueTokens, UniqueCodes, UniqueMemberships, UniqueScopes, OneTokenPerClient, NoStrays, Drawn;
    DrawnLater(t.tokens, t.nextId, u.nextId);
    DrawnLater(t.codes, t.nextId, u.nextId);
  }

  lemma NodeKeeps(w: Crypto, t: Tables, m: Manifest, organization: nat)
    requires Sound(t) && GetOrCreateNode(w, t, m, organization).Ok?
    ensures Keeps(t, GetOrCreateNode(w, t, m, organization).value.0, true)
  {
    hide GetOrCreateNode, SoundRegistry, Extends;
    NodeSound(w, t, m, organization);
    var u := GetOrCreateNode(w, t, m, organization).value.0;
    SameClients(t, u);
    VouchersCarried(t, u);
    SameAgreement(t, u);
  }

  lemma SameAgreement(t: Tables, u: Tables)
    requires u.clients == t.clients && u.mappings == t.mappings
    ensures StatusesAgree(t) ==> StatusesAgree(u)
  {
  }

  lemma CreateClientKeepsAll(w: Crypto, t: Tables, o: Order, distinct: bool)
    requires Sound(t) && CreateClient(w, t, o).Ok? && (distinct ==> Rendering.DistinctKeys(o.manifest.requirements))
    ensures Keeps(t, CreateClient(w, t, o).value.0, distinct)
  {
    hide CreateClient, SoundRegistry, SoundVouchers, Extends, StatusesAgree, Rendering.DistinctKeys;
    CreateClientKeeps(w, t, o);
    VouchersCarried(t, CreateClient(w, t, o).value.0);
  }

  lemma FindOrCreateKeeps(w: Crypto, t: Tables, reusable: set<nat>, o: Order, distinct: bool)
    requires Sound(t) && reusable <= t.clients.Keys && FindOrCreate(w, t, reusable, o).Ok?
    requires distinct ==> Rendering.DistinctKeys(o.manifest.requirements)
    ensures Keeps(t, FindOrCreate(w, t, reusable, o).value.0, distinct)
  {
    hide CreateClient, Sound, Extends, StatusesAgree, Rendering.DistinctKeys;
    if First(reusable).Some? {
      SameClients(t, t);
    } else {
      CreateClientKeepsAll(w, t, o, distinct);
    }
  }

  /** Writing a token row that shares its token string and its client with no other row. */
  lemma PutToken(t: Tables, r: nat, row: RedeemToken)
    requires Sound(t) && r in t.tokens && row.token == t.tokens[r].token
    requires row.client.Some? ==> row.client.value in t.clients && forall o :: o in t.tokens && o != r ==>
             t.tokens[o].client != row.client
    ensures Keeps(t, t.(tokens := t.tokens[r := row]), true)
  {
    hide Drawn, OneApp, UniqueReleases, UniqueDevices, OneDevelopmentClient, OneOwner, MappingsOwned, ClientsAuthorized,
      UniqueCodes, CodesHold, UniqueMemberships, UniqueScopes, UniqueTokens, OneTokenPerClient, TokensHold, Extends,
      StatusesAgree;
    var u := t.(tokens := t.tokens[r := row]);
    TokenWritten(t.tokens, r, row, t.clients.Keys);
    DrawnKept(t.tokens, t.nextId, r, row);
    SameClients(t, u);
    SameAgreement(t, u);
  }

  lemma TokenWritten(rows: map<nat, RedeemToken>, r: nat, row: RedeemToken, clients: set<nat>)
    requires UniqueTokens(rows) && OneTokenPerClient(rows) && TokensHold(rows, clients) && r in rows
             && row.token == rows[r].token
    requires row.client.Some? ==> row.client.value in clients && forall o :: o in rows && o != r ==>
             rows[o].client != row.client
    ensures UniqueTokens(rows[r := row]) && OneTokenPerClient(rows[r := row]) && TokensHold(rows[r := row], clients)
  {
  }

  lemma AttachKeeps(t: Tables, r: nat, c: nat, hash: Option<string>)
    requires Sound(t) && r in t.tokens && c in t.clients && Attach(t, r, c, hash).Ok?
    ensures Keeps(t, Attach(t, r, c, hash).value, true)
  {
    hide Sound, Extends, StatusesAgree;
    PutToken(t, r, t.tokens[r].(client := Some(c), manifestHash := hash));
  }

  lemma ValidateKeeps(w: Crypto, t: Tables, r: nat, q: Request, distinct: bool)
    requires Sound(t) && r in t.tokens && ValidateRedeemToken(w, t, r, q).Ok?
    requires distinct ==> Rendering.DistinctKeys(q.manifest.requirements)
    ensures Keeps(t, ValidateRedeemToken(w, t, r, q).value.0, distinct)
  {
    hide Sound, Extends, StatusesAgree, Rendering.DistinctKeys, GetOrCreateNode, Reusable, FindOrCreate, Attach;
    var row, m := t.tokens[r], q.manifest;
    var organization := t.compositions[row.composition].organization;
    var (t1, node) := GetOrCreateNode(w, t, m, organization).value;
    NodeKeeps(w, t, m, organization);
    var reusable := Reusable(t1, m.identifier, m.version, Development, node, row.user, organization, row.composition,
                             "");
    var (t2, c) := FindOrCreate(w, t1, reusable, RedeemOrder(row, organization, q)).value;
    FindOrCreateKeeps(w, t1, reusable, RedeemOrder(row, organization, q), distinct);
    AttachKeeps(t2, r, c, row.manifestHash);
    KeepsTransitive(t, t1, t2, distinct);
    KeepsTransitive(t, t2, Attach(t2, r, c, row.manifestHash).value, distinct);
  }
}
