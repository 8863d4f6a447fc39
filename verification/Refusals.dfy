/** When registering succeeds, said of the rows that are there before it. */
module Refusals {
  import opened Prelude
  import opened Rows
  import opened Clients
  import opened DeviceCodes
  import opened Invariants
  import opened Requirements
  import opened Registrations
  import Accepting
  import Redeeming
  import Rendering
  import Unambiguous

  /** Releases have their app, and clients their release and their device. */
  ghost predicate RegistryRefers(t: Tables) {
    && (forall r :: r in t.releases ==> t.releases[r].app in t.apps)
    && (forall c :: c in t.clients ==>
          t.clients[c].release in t.releases && (t.clients[c].node.Some? ==> t.clients[c].node.value in t.devices))
  }

  // ---- What stands in the way -------------------------------------------------------------------------------------

  predicate IsReleaseOf(t: Tables, r: nat, m: Manifest) {
    && r in t.releases && t.releases[r].version == m.version && t.releases[r].app in t.apps
    && t.apps[t.releases[r].app].identifier == m.identifier
  }

  /** A client of the manifest's release, the user, the organization and the node. */
  predicate IsPlaced(w: Crypto, t: Tables, o: Order, d: nat) {
    && d in t.clients && IsReleaseOf(t, t.clients[d].release, o.manifest) && t.clients[d].user == o.config.user
    && t.clients[d].organization == o.config.organization && NodeAs(w, t, o.manifest, o.organization, t.clients[d].node)
  }

  /** The development client among them is the one that is registered again. */
  predicate IsTheirs(w: Crypto, t: Tables, o: Order, d: nat) {
    IsPlaced(w, t, o, d) && t.clients[d].kind == Development
  }

  /** Another client has the token, or, of another kind, the node. */
  predicate Clashes(w: Crypto, t: Tables, o: Order, d: nat) {
    && d in t.clients && !IsTheirs(w, t, o, d)
    && (t.clients[d].token == o.config.token || (IsPlaced(w, t, o, d) && t.clients[d].node.Some?))
  }

  predicate HasScope(t: Tables, organization: nat, name: string) {
    exists s :: s in t.scopes && t.scopes[s].organization == organization && t.scopes[s].identifier == name
  }

  predicate IsMemberOf(t: Tables, user: nat, organization: nat) {
    && organization in t.organizations && t.organizations[organization].slug != ""
    && exists m :: m in t.memberships && IsMembership(t, m, user, organization)
  }

  /** What registering needs. */
  ghost predicate Registrable(w: Crypto, t: Tables, o: Order) {
    && o.config.kind == Development
    && (o.manifest.logo.None? || o.manifest.logo.value == "" || o.draw.download.Fetched?)
    && IsMemberOf(t, o.config.user, o.config.organization)
    && (o.composition.Some? ==> o.composition.value in t.compositions)
    && (forall d: nat :: !Clashes(w, t, o, d))
    && (forall name :: name in o.manifest.scopes ==> HasScope(t, o.organization, name))
    && (forall n :: 0 <= n < |o.manifest.requirements| ==>
          Met(t, Party(o.user, o.composition, o.declined), o.manifest.requirements, n))
  }

  // ---- The rows that are found ------------------------------------------------------------------------------------

  lemma AppIs(t: Tables, identifier: string, a: nat)
    requires SoundRegistry(t) && GetOrCreateApp(t, identifier).Ok? && a in t.apps
    ensures t.apps[a].identifier == identifier <==> GetOrCreateApp(t, identifier).value.1 == a
  {
    hide First, UniqueReleases, UniqueDevices, OneDevelopmentClient, OneOwner, MappingsOwned, ClientsAuthorized;
    var rows := AppRows(t, identifier);
    if Get(rows).Found? { assert Get(rows).id in rows; }
    if t.apps[a].identifier == identifier { assert a in rows; }
  }

  lemma ReleaseIs(t: Tables, app: nat, m: Manifest, logo: Option<string>, r: nat)
    requires Drawn(t.releases, t.nextId) && UniqueReleases(t.releases) && UpsertRelease(t, app, m, logo).Ok?
    requires r in t.releases
    ensures t.releases[r].app == app && t.releases[r].version == m.version
            <==> UpsertRelease(t, app, m, logo).value.1 == r
  {
    hide First;
    var rows := ReleaseRows(t, app, m.version);
    if Get(rows).Found? { assert Get(rows).id in rows; }
    if t.releases[r].app == app && t.releases[r].version == m.version { assert r in rows; }
  }

  lemma ReleaseProvided(w: Crypto, t: Tables, m: Manifest, organization: nat, logo: Option<string>, r: nat)
    requires SoundRegistry(t) && RegistryRefers(t) && Provision(w, t, m, organization, logo).Ok? && r in t.releases
    ensures IsReleaseOf(t, r, m) <==> Provision(w, t, m, organization, logo).value.1 == r
  {
    hide GetOrCreateApp, SetAppLogo, UpsertRelease, GetOrCreateNode, Drawn, OneApp, UniqueReleases, UniqueDevices,
      OneDevelopmentClient, OneOwner, MappingsOwned, ClientsAuthorized;
    var (t1, app) := GetOrCreateApp(t, m.identifier).value;
    AppIs(t, m.identifier, t.releases[r].app);
    var t2 := SetAppLogo(t1, app, logo);
    DrawnLater(t.releases, t.nextId, t2.nextId);
    ReleaseIs(t2, app, m, logo, r);
  }

  lemma NodeProvided(w: Crypto, t: Tables, m: Manifest, organization: nat, logo: Option<string>, node: Option<nat>)
    requires SoundRegistry(t) && Provision(w, t, m, organization, logo).Ok? && (node.Some? ==> node.value in t.devices)
    ensures NodeAs(w, t, m, organization, node) <==> Provision(w, t, m, organization, logo).value.2 == node
  {
    hide GetOrCreateApp, SetAppLogo, UpsertRelease, GetOrCreateNode, SoundRegistry, Drawn;
    var (t1, app) := GetOrCreateApp(t, m.identifier).value;
    var t3 := UpsertRelease(SetAppLogo(t1, app, logo), app, m, logo).value.0;
    AppSound(t, m.identifier);
    LogoSound(t1, app, logo);
    ReleaseSound(SetAppLogo(t1, app, logo), app, m, logo);
    assert t3.devices == t.devices;
    DevicesDrawn(t3);
    NodeFetched(w, t3, m, organization);
    if NodeAs(w, t, m, organization, node) { OneNode(w, t3, m, organization, node); }
  }

  // ---- The client row ---------------------------------------------------------------------------------------------

  lemma MemberFound(t: Tables, config: Config)
    requires UniqueMemberships(t.memberships)
    ensures ConfigMembership(t, config).Ok? <==> IsMemberOf(t, config.user, config.organization)
  {
    hide First;
    var rows := MembershipRows(t, config.user, config.organization);
    assert forall m: nat :: m in rows <==> m in t.memberships && IsMembership(t, m, config.user, config.organization);
    if rows != {} { assert Get(rows).Found?; }
  }

  /** The clients that keep a row from being written. */
  predicate InTheWay(t: Tables, g: Registration, d: nat) {
    && d in t.clients
    && (t.clients[d].token == g.config.token
        || (&& g.node.Some? && t.clients[d].node == g.node && t.clients[d].release == g.release
            && t.clients[d].user == g.config.user && t.clients[d].organization == g.config.organization))
  }

  lemma UpdatedFits(t: Tables, g: Registration, c: nat, membership: nat)
    requires SoundRegistry(t) && c in t.clients && g.Fits(t.clients[c])
    ensures ClientFits(t, c, g.Updated(t.clients[c], membership)) <==>
              && (forall d: nat :: d != c ==> !InTheWay(t, g, d))
              && (g.composition.Some? ==> g.composition.value in t.compositions)
  {
    hide OneApp, UniqueReleases, UniqueDevices, OneDevelopmentClient, MappingsOwned, ClientsAuthorized, Drawn;
    var row := g.Updated(t.clients[c], membership);
    if forall d: nat :: d != c ==> !InTheWay(t, g, d) {
      assert forall d: nat :: d in t.clients && d != c ==>
             !InTheWay(t, g, d) && t.clients[d].oauthClient != row.oauthClient;
    }
  }

  lemma NewFits(t: Tables, u: Tables, g: Registration, c: nat, membership: nat, oauthClient: nat)
    requires SoundRegistry(t) && c !in t.clients && oauthClient !in t.oauthClients
    requires u.clients == t.clients && u.compositions == t.compositions
    ensures ClientFits(u, c, g.New(membership, oauthClient)) <==>
              && (forall d: nat :: !InTheWay(t, g, d))
              && (g.composition.Some? ==> g.composition.value in t.compositions)
  {
    hide OneApp, UniqueReleases, UniqueDevices, OneDevelopmentClient, MappingsOwned, OneOwner, Drawn;
    assert forall d: nat :: d in t.clients ==> d != c && t.clients[d].oauthClient != oauthClient;
    if forall d: nat :: !InTheWay(t, g, d) {
      assert forall d: nat :: d in t.clients ==> !InTheWay(t, g, d);
    }
    if ClientUnique(u, c, g.New(membership, oauthClient)) {
      assert forall d: nat :: d in u.clients ==> !InTheWay(t, g, d);
    }
  }

  /** The client that is registered again, if there is one. */
  predicate Fits(t: Tables, g: Registration, d: nat) {
    d in t.clients && g.Fits(t.clients[d])
  }

  lemma DevelopsAgain(t: Tables, g: Registration, c: nat)
    requires SoundRegistry(t) && Get(g.Rows(t)) == Found(c)
    ensures Fits(t, g, c) && forall d: nat :: Fits(t, g, d) ==> d == c
    ensures CreateDevelopmentClient(t, g).Ok? <==>
              && ConfigMembership(t, g.config).Ok? && (forall d: nat :: d != c ==> !InTheWay(t, g, d))
              && (g.composition.Some? ==> g.composition.value in t.compositions)
  {
    hide SoundRegistry, ConfigMembership, InTheWay, ClientFits, First;
    assert g.Rows(t) == {c};
    assert c in g.Rows(t);
    forall d: nat ensures d in g.Rows(t) <==> Fits(t, g, d) {
    }
    if ConfigMembership(t, g.config).Ok? { UpdatedFits(t, g, c, ConfigMembership(t, g.config).value); }
  }

  lemma DevelopsFirst(t: Tables, g: Registration)
    requires SoundRegistry(t) && Get(g.Rows(t)).Missing?
    ensures forall d: nat :: !Fits(t, g, d)
    ensures CreateDevelopmentClient(t, g).Ok? <==>
              && ConfigMembership(t, g.config).Ok? && (forall d: nat :: !InTheWay(t, g, d))
              && (g.composition.Some? ==> g.composition.value in t.compositions)
  {
    hide SoundRegistry, InTheWay, ClientFits, First;
    forall d: nat ensures d in g.Rows(t) <==> Fits(t, g, d) {
    }
    var t1 := NewOAuthClient(t, g.clientId);
    assert ConfigMembership(t1, g.config) == ConfigMembership(t, g.config);
    Fresh(t);
    if ConfigMembership(t, g.config).Ok? {
      NewFits(t, t1.(nextId := t1.nextId + 1), g, t1.nextId, ConfigMembership(t, g.config).value, t.nextId);
    }
  }

  lemma Fresh(t: Tables)
    requires SoundRegistry(t)
    ensures t.nextId !in t.oauthClients && t.nextId + 1 !in t.clients
  {
    hide OneApp, UniqueReleases, UniqueDevices, OneDevelopmentClient, MappingsOwned, OneOwner, ClientsAuthorized;
  }

  // ---- The whole registration -------------------------------------------------------------------------------------

  /** The clients of the registration, in terms of the rows that were there. */
  lemma SameClients(w: Crypto, t: Tables, o: Order, t1: Tables, g: Registration, logo: Option<string>, d: nat)
    requires SoundRegistry(t) && RegistryRefers(t) && Provision(w, t, o.manifest, o.organization, logo).Ok?
    requires Provision(w, t, o.manifest, o.organization, logo).value == (t1, g.release, g.node)
    requires g == Registration(g.release, o.config, o.manifest, g.node, o.composition, o.draw.clientId)
    ensures Fits(t1, g, d) <==> IsTheirs(w, t, o, d)
    ensures d in t.clients && !IsTheirs(w, t, o, d) ==> (InTheWay(t1, g, d) <==> Clashes(w, t, o, d))
  {
    hide SoundRegistry, Provision, NodeAs, IsReleaseOf;
    ProvisionKeeps(w, t, o.manifest, o.organization, logo);
    if d in t.clients {
      ReleaseProvided(w, t, o.manifest, o.organization, logo, t.clients[d].release);
      NodeProvided(w, t, o.manifest, o.organization, logo, t.clients[d].node);
    }
  }

  lemma DevelopsExactly(w: Crypto, t: Tables, o: Order, t1: Tables, g: Registration, logo: Option<string>)
    requires Sound(t) && RegistryRefers(t) && Provision(w, t, o.manifest, o.organization, logo).Ok?
    requires Provision(w, t, o.manifest, o.organization, logo).value == (t1, g.release, g.node)
    requires g == Registration(g.release, o.config, o.manifest, g.node, o.composition, o.draw.clientId)
    ensures CreateDevelopmentClient(t1, g).Ok? <==>
              && IsMemberOf(t, o.config.user, o.config.organization)
              && (o.composition.Some? ==> o.composition.value in t.compositions)
              && (forall d: nat :: !Clashes(w, t, o, d))
  {
    hide SoundRegistry, SoundVouchers, RegistryRefers, Provision, IsTheirs, IsPlaced, CreateDevelopmentClient, Clashes,
      InTheWay, Fits, ConfigMembership, IsMemberOf, UniqueMemberships, UniqueScopes, DevelopmentRows;
    ProvisionSound(w, t, o.manifest, o.organization, logo);
    ProvisionKeeps(w, t, o.manifest, o.organization, logo);
    assert t1.clients == t.clients;
    forall d: nat ensures Fits(t1, g, d) <==> IsTheirs(w, t, o, d)
      ensures Clashes(w, t, o, d) <==> InTheWay(t1, g, d) && !IsTheirs(w, t, o, d)
    {
      SameClients(w, t, o, t1, g, logo, d);
      ClashIs(w, t, o, d);
      WayIs(t1, g, d);
    }
    MembersStay(t, t1, o);
    OneRowAtMost(t1, g);
    match Get(g.Rows(t1))
    case Found(c) => DevelopsAgain(t1, g, c);
    case Missing => DevelopsFirst(t1, g);
    case Many =>
  }

  lemma OneRowAtMost(t: Tables, g: Registration)
    requires SoundRegistry(t)
    ensures !Get(g.Rows(t)).Many?
  {
    hide OneApp, UniqueReleases, UniqueDevices, OneOwner, MappingsOwned, ClientsAuthorized, Drawn, DevelopmentRows,
      OneDevelopmentClient;
    Unambiguous.DevelopmentRowClear(t, g);
  }

  lemma ClashIs(w: Crypto, t: Tables, o: Order, d: nat)
    ensures Clashes(w, t, o, d) ==> d in t.clients && !IsTheirs(w, t, o, d)
  {
  }

  lemma WayIs(t: Tables, g: Registration, d: nat)
    ensures InTheWay(t, g, d) ==> d in t.clients
  {
  }

  lemma MembersStay(t: Tables, t1: Tables, o: Order)
    requires Sound(t) && OnlyRegistry(t, t1)
    ensures ConfigMembership(t1, o.config).Ok? <==> IsMemberOf(t, o.config.user, o.config.organization)
    ensures t1.compositions == t.compositions
  {
    hide SoundRegistry, SoundVouchers, ConfigMembership;
    MemberFound(t1, o.config);
    assert IsMemberOf(t1, o.config.user, o.config.organization) == IsMemberOf(t, o.config.user, o.config.organization);
  }

  lemma {:induction false} ScopesExactly(t: Tables, organization: nat, names: seq<string>)
    requires UniqueScopes(t.scopes)
    ensures ScopeIds(t, organization, names).Ok? <==> forall name :: name in names ==> HasScope(t, organization, name)
  {
    hide First;
    if names != [] {
      var n := |names| - 1;
      ScopesExactly(t, organization, names[..n]);
      var rows := ScopeRows(t, names[n], organization);
      assert names == names[..n] + [names[n]];
      assert HasScope(t, organization, names[n]) <==> rows != {} by {
        if s :| s in rows { assert HasScope(t, organization, names[n]); }
        if HasScope(t, organization, names[n]) {
          var s :| s in t.scopes && t.scopes[s].organization == organization && t.scopes[s].identifier == names[n];
          assert s in rows;
        }
      }
      assert !Get(rows).Many?;
    }
  }

  /** Composing again succeeds as the rows say. */
  lemma ComposesAgain(w: Crypto, t: Tables, t1: Tables, c: nat, reqs: seq<Requirement>, user: nat,
                      declined: set<string>)
    requires c in t1.clients && Rendering.SameInstances(t1, t)
    ensures Rendering.AutoCompose(w, t1, c, reqs, user, declined).Ok? <==>
              forall n :: 0 <= n < |reqs| ==> Met(t, Party(user, t1.clients[c].composition, declined), reqs, n)
  {
    hide Rendering.Compose, Met;
    var p := Party(user, t1.clients[c].composition, declined);
    Rendering.ComposeLooksAtInstances(SceneOf(t1, p), t, reqs);
    ComposesExactly(t, p, reqs);
  }

  /** Equipping is composing and then finding the scopes, which composing leaves alone. */
  lemma EquipIs(w: Crypto, t: Tables, c: nat, o: Order)
    requires c in t.clients
    ensures var composed := Rendering.AutoCompose(w, t, c, o.manifest.requirements, o.user, o.declined);
            && (composed.Ok? ==> composed.value.scopes == t.scopes)
            && (Equip(w, t, c, o.manifest, o.user, o.organization, o.declined).Ok? <==>
                  composed.Ok? && ScopeIds(composed.value, o.organization, o.manifest.scopes).Ok?)
  {
    hide Rendering.AutoCompose, ScopeIds;
  }

  lemma EquipsExactly(w: Crypto, t: Tables, t2: Tables, c: nat, o: Order)
    requires c in t2.clients && t2.clients[c].composition == o.composition && Rendering.SameInstances(t2, t)
    requires t2.scopes == t.scopes && UniqueScopes(t.scopes)
    ensures Equip(w, t2, c, o.manifest, o.user, o.organization, o.declined).Ok? <==>
              && (forall name :: name in o.manifest.scopes ==> HasScope(t, o.organization, name))
              && (forall n :: 0 <= n < |o.manifest.requirements| ==>
                    Met(t, Party(o.user, o.composition, o.declined), o.manifest.requirements, n))
  {
    hide *;
    ComposesAgain(w, t, t2, c, o.manifest.requirements, o.user, o.declined);
    EquipIs(w, t2, c, o);
    var composed := Rendering.AutoCompose(w, t2, c, o.manifest.requirements, o.user, o.declined);
    if composed.Ok? {
      ScopesExactly(composed.value, o.organization, o.manifest.scopes);
      forall name ensures HasScope(composed.value, o.organization, name) == HasScope(t, o.organization, name) {
        SameScopes(t, composed.value, o.organization, name);
      }
    }
  }

  lemma SameScopes(t: Tables, u: Tables, organization: nat, name: string)
    requires u.scopes == t.scopes
    ensures HasScope(u, organization, name) == HasScope(t, organization, name)
  {
  }

  /** `create_client` succeeds exactly when the order can be met by the rows that are there. */
  lemma RegistersExactly(w: Crypto, t: Tables, o: Order)
    requires Sound(t) && RegistryRefers(t)
    ensures CreateClient(w, t, o).Ok? <==> Registrable(w, t, o)
  {
    hide SoundRegistry, SoundVouchers, UniqueMemberships, UniqueScopes, Provision, CreateDevelopmentClient, Equip,
      Clashes, IsMemberOf, HasScope, Met, RegistryRefers;
    LogoFetched(o.manifest, o.draw.download);
    if FetchLogo(o.manifest, o.draw.download).Ok? && o.config.kind == Development {
      var logo := FetchLogo(o.manifest, o.draw.download).value;
      Unambiguous.ProvisionSucceeds(w, t, o.manifest, o.organization, logo);
      var (t1, release, node) := Provision(w, t, o.manifest, o.organization, logo).value;
      ProvisionSound(w, t, o.manifest, o.organization, logo);
      var g := Registration(release, o.config, o.manifest, node, o.composition, o.draw.clientId);
      DevelopsExactly(w, t, o, t1, g, logo);
      if CreateDevelopmentClient(t1, g).Ok? {
        var (t2, c) := CreateDevelopmentClient(t1, g).value;
        CompositionWritten(t1, g);
        EquipsExactly(w, t, t2, c, o);
      }
    } else if FetchLogo(o.manifest, o.draw.download).Ok? {
      Unambiguous.ProvisionSucceeds(w, t, o.manifest, o.organization, FetchLogo(o.manifest, o.draw.download).value);
    }
  }

  /** After a registration with distinct keys, declined optional keys are denied and unmapped, and every other
      key fares as its requirement does for the order's user and composition. */
  lemma RegisteredFares(w: Crypto, t: Tables, o: Order)
    requires Sound(t) && RegistryRefers(t) && CreateClient(w, t, o).Ok?
    requires o.manifest.requirements != [] && Rendering.DistinctKeys(o.manifest.requirements)
    ensures var (u, c) := CreateClient(w, t, o).value;
            forall r :: r in o.manifest.requirements ==>
              FaresAs(t, Party(o.user, o.composition, o.declined), r, Rendering.MappingsOf(u, c), u.clients[c].statuses)
  {
    hide Sound, RegistryRefers, CreateClient, FiledAs, LinkedAs, OthersStay, ComposedAs, FaresAs, Met, Clashes,
      HasScope, IsMemberOf, Rendering.DistinctKeys;
    RegistrySound(t);
    RegistersAs(w, t, o);
    RegistersExactly(w, t, o);
    var (u, c) := CreateClient(w, t, o).value;
    var p, reqs := Party(o.user, o.composition, o.declined), o.manifest.requirements;
    forall r | r in reqs ensures FaresAs(t, p, r, Rendering.MappingsOf(u, c), u.clients[c].statuses) {
      var n :| 0 <= n < |reqs| && reqs[n] == r;
      ComposedFares(t, p, reqs, Rendering.MappingsOf(u, c), u.clients[c].statuses, n);
    }
  }

  lemma CompositionWritten(t: Tables, g: Registration)
    requires SoundRegistry(t) && CreateDevelopmentClient(t, g).Ok?
    ensures var (u, c) := CreateDevelopmentClient(t, g).value; u.clients[c].composition == g.composition
  {
    hide SoundRegistry, CreateDevelopmentClient;
    DevelopedAs(t, g);
  }

  // ---- After a device was looked up -------------------------------------------------------------------------------

  lemma NodeBefore(w: Crypto, t: Tables, t1: Tables, m: Manifest, organization: nat, node: Option<nat>)
    requires BeforeNode(w, t, t1, m, organization) && (node.Some? ==> node.value in t.devices)
    ensures NodeAs(w, t1, m, organization, node) <==> NodeAs(w, t, m, organization, node)
  {
  }

  lemma SamePlaced(w: Crypto, t: Tables, t1: Tables, o: Order, d: nat)
    requires BeforeNode(w, t, t1, o.manifest, o.organization) && RegistryRefers(t)
    ensures IsTheirs(w, t1, o, d) <==> IsTheirs(w, t, o, d)
    ensures Clashes(w, t1, o, d) <==> Clashes(w, t, o, d)
  {
    hide NodeAs, DevicesKept;
    if d in t.clients { NodeBefore(w, t, t1, o.manifest, o.organization, t.clients[d].node); }
  }

  lemma SameSuits(t: Tables, u: Tables, i: nat, service: string, user: nat, composition: Option<nat>)
    requires Rendering.SameInstances(t, u)
    ensures Suits(t, i, service, user, composition) == Suits(u, i, service, user, composition)
  {
  }

  lemma MetBefore(t: Tables, u: Tables, p: Party, reqs: seq<Requirement>, n: int)
    requires Rendering.SameInstances(t, u)
    ensures Met(t, p, reqs, n) == Met(u, p, reqs, n)
  {
    hide Suits;
    forall i: nat, service ensures Suits(t, i, service, p.user, p.composition)
      == Suits(u, i, service, p.user, p.composition) {
      SameSuits(t, u, i, service, p.user, p.composition);
    }
    assert forall i: nat, service ::
        Lowest(t, i, service, p.user, p.composition) == Lowest(u, i, service, p.user, p.composition);
    assert forall r: Requirement, i: nat :: Served(t, p, r, i) == Served(u, p, r, i);
    assert forall m: int, i: nat :: Decides(t, p, reqs, m, i) == Decides(u, p, reqs, m, i);
  }

  lemma RegistrableBefore(w: Crypto, t: Tables, t1: Tables, o: Order)
    requires BeforeNode(w, t, t1, o.manifest, o.organization) && RegistryRefers(t)
    ensures Registrable(w, t1, o) <==> Registrable(w, t, o)
  {
    hide NodeAs, DevicesKept, IsTheirs, Clashes, Met;
    forall d: nat ensures Clashes(w, t1, o, d) <==> Clashes(w, t, o, d) { SamePlaced(w, t, t1, o, d); }
    forall n: int
      ensures Met(t1, Party(o.user, o.composition, o.declined), o.manifest.requirements, n)
              <==> Met(t, Party(o.user, o.composition, o.declined), o.manifest.requirements, n)
    {
      MetBefore(t1, t, Party(o.user, o.composition, o.declined), o.manifest.requirements, n);
    }
    assert forall name :: HasScope(t1, o.organization, name) == HasScope(t, o.organization, name);
    assert IsMemberOf(t1, o.config.user, o.config.organization) == IsMemberOf(t, o.config.user, o.config.organization);
  }

  lemma StillRefers(w: Crypto, t: Tables, t1: Tables, m: Manifest, organization: nat)
    requires RegistryRefers(t) && BeforeNode(w, t, t1, m, organization)
    ensures RegistryRefers(t1)
  {
  }

  // ---- Accepting --------------------------------------------------------------------------------------------------

  /** Accepting needs the code and the composition; then, where a client fits, its requirements met for who
      accepts, and where none does, what registering needs. */
  ghost predicate Acceptable(w: Crypto, t: Tables, k: nat, a: Acceptance) {
    && k in t.codes && a.composition in t.compositions
    && var row, organization := t.codes[k], t.compositions[a.composition].organization;
    var ask := Accepting.Wanted(w, row, organization, a);
    if NoneFits(w, t, ask) then
      row.kind == Development && Registrable(w, t, Accepting.OrderOf(row, organization, a))
    else
      forall n :: 0 <= n < |row.manifest.requirements| ==>
        Met(t, Party(a.user, Some(a.composition), a.declined), row.manifest.requirements, n)
  }

  /** A client that fits does so with the request's node. */
  lemma SomeFits(w: Crypto, t: Tables, t1: Tables, c: nat, q: Ask, node: Option<nat>)
    requires RegistryRefers(t) && BeforeNode(w, t, t1, q.manifest, q.organization)
    requires NodeAs(w, t1, q.manifest, q.organization, node) && Fitting(t, c, q, node)
    ensures NodeAs(w, t, q.manifest, q.organization, node) && !NoneFits(w, t, q)
  {
    hide DevicesKept;
    NodeBefore(w, t, t1, q.manifest, q.organization, node);
  }

  lemma ReusesExactly(w: Crypto, t: Tables, k: nat, a: Acceptance, t1: Tables, node: Option<nat>)
    requires Sound(t) && RegistryRefers(t) && k in t.codes && a.composition in t.compositions
    requires GetOrCreateNode(w, t, t.codes[k].manifest, t.compositions[a.composition].organization) == Ok((t1, node))
    ensures ReuseOrCreate(w, t1, t.codes[k], node, t.compositions[a.composition].organization, a).Ok? <==>
              Acceptable(w, t, k, a)
  {
    hide Sound, RegistryRefers, GetOrCreateNode, Reusable, CreateClient, NodeAs, NoneFits, DevicesKept, Registrable,
      Met, Rendering.AutoCompose, Fitting, Extends, StatusesAgree;
    var row, organization := t.codes[k], t.compositions[a.composition].organization;
    var ask, o := Accepting.Wanted(w, row, organization, a), Accepting.OrderOf(row, organization, a);
    RegistrySound(t);
    LookedUp(w, t, ask);
    if First(ReusableFor(t1, ask, node)).Some? {
      var c := First(ReusableFor(t1, ask, node)).value;
      SomeFits(w, t, t1, c, ask, node);
      FitsComposition(t, c, ask, node);
      ComposesAgain(w, t, t1, c, row.manifest.requirements, a.user, a.declined);
    } else {
      NodeKeeps(w, t, row.manifest, organization);
      StillRefers(w, t, t1, row.manifest, organization);
      RegistersExactly(w, t1, o);
      RegistrableBefore(w, t, t1, o);
    }
  }

  lemma FitsComposition(t: Tables, c: nat, q: Ask, node: Option<nat>)
    requires Fitting(t, c, q, node)
    ensures c in t.clients && t.clients[c].composition == Some(q.composition)
  {
  }

  /** Accepting a code succeeds exactly when the rows that are there allow it. */
  lemma AcceptsExactly(w: Crypto, t: Tables, k: nat, a: Acceptance)
    requires Sound(t) && RegistryRefers(t)
    ensures AcceptDeviceCode(w, t, k, a).Ok? <==> Acceptable(w, t, k, a)
  {
    hide Sound, RegistryRefers, GetOrCreateNode, ReuseOrCreate, Acceptable;
    if k in t.codes && a.composition in t.compositions {
      var organization := t.compositions[a.composition].organization;
      Unambiguous.NodeOk(w, t, t.codes[k].manifest, organization);
      var (t1, node) := GetOrCreateNode(w, t, t.codes[k].manifest, organization).value;
      ReusesExactly(w, t, k, a, t1, node);
    } else {
      NotAcceptable(w, t, k, a);
    }
  }

  lemma NotAcceptable(w: Crypto, t: Tables, k: nat, a: Acceptance)
    requires k !in t.codes || a.composition !in t.compositions
    ensures !Acceptable(w, t, k, a)
  {
  }

  // ---- Redeeming --------------------------------------------------------------------------------------------------

  predicate HeldElsewhere(t: Tables, r: nat, c: nat) {
    exists o :: o in t.tokens && o != r && t.tokens[o].client == Some(c)
  }

  /** A redeem that takes a client needs one no other token holds: the first that fits, or else the one that
      registering, with all it needs, would write again. */
  ghost predicate Takeable(w: Crypto, t: Tables, r: nat, q: Request) {
    && r in t.tokens && t.tokens[r].composition in t.compositions
    && var row := t.tokens[r];
    var organization := t.compositions[row.composition].organization;
    var ask := Ask(q.manifest, Development, row.user, organization, row.composition, "");
    var o := Redeeming.OrderOf(row, organization, q);
    if NoneFits(w, t, ask) then
      Registrable(w, t, o) && forall d: nat :: IsTheirs(w, t, o, d) ==> !HeldElsewhere(t, r, d)
    else
      forall node, c: nat :: NodeAs(w, t, q.manifest, organization, node) && FirstFitting(t, c, ask, node) ==>
                               !HeldElsewhere(t, r, c)
  }

  lemma RegistersTheirs(w: Crypto, t: Tables, t1: Tables, o: Order)
    requires Sound(t) && Sound(t1) && RegistryRefers(t) && BeforeNode(w, t, t1, o.manifest, o.organization)
    requires CreateClient(w, t1, o).Ok?
    ensures var (u, c) := CreateClient(w, t1, o).value;
            (forall d: nat :: IsTheirs(w, t, o, d) ==> d == c) && (c in t.clients ==> IsTheirs(w, t, o, c))
  {
    hide SoundRegistry, SoundVouchers, RegistryRefers, Provision, CreateDevelopmentClient, Equip, IsTheirs,
      UniqueMemberships, UniqueScopes, DevicesKept;
    var logo := FetchLogo(o.manifest, o.draw.download).value;
    var (t2, release, node) := Provision(w, t1, o.manifest, o.organization, logo).value;
    var g := Registration(release, o.config, o.manifest, node, o.composition, o.draw.clientId);
    StillRefers(w, t, t1, o.manifest, o.organization);
    ProvisionSound(w, t1, o.manifest, o.organization, logo);
    forall d: nat ensures Fits(t2, g, d) <==> IsTheirs(w, t, o, d) {
      SameClients(w, t1, o, t2, g, logo, d);
      SamePlaced(w, t, t1, o, d);
    }
    ProvisionKeeps(w, t1, o.manifest, o.organization, logo);
    WritesTheirs(t2, g);
  }

  lemma WritesTheirs(t: Tables, g: Registration)
    requires SoundRegistry(t) && CreateDevelopmentClient(t, g).Ok?
    ensures var c := CreateDevelopmentClient(t, g).value.1;
            (forall d: nat :: Fits(t, g, d) ==> d == c) && (c in t.clients ==> Fits(t, g, c))
  {
    hide SoundRegistry, CreateDevelopmentClient;
    OneRowAtMost(t, g);
    DevelopedAs(t, g);
    match Get(g.Rows(t))
    case Found(c) => DevelopsAgain(t, g, c); TakesFound(t, g, c);
    case Missing => DevelopsFirst(t, g);
    case Many =>
  }

  lemma TakesFound(t: Tables, g: Registration, c: nat)
    requires CreateDevelopmentClient(t, g).Ok? && Get(g.Rows(t)) == Found(c)
    ensures CreateDevelopmentClient(t, g).value.1 == c
  {
  }

  lemma AttachExactly(t: Tables, u: Tables, r: nat, c: nat, hash: Option<string>)
    requires r in t.tokens && u.tokens == t.tokens
    ensures Attach(u, r, c, hash).Ok? <==> !HeldElsewhere(t, r, c)
  {
  }

  lemma HeldThere(t: Tables, r: nat, c: nat)
    requires Sound(t) && c !in t.clients
    ensures !HeldElsewhere(t, r, c)
  {
    hide SoundRegistry, UniqueTokens, OneTokenPerClient, UniqueCodes, CodesHold, Drawn, UniqueMemberships, UniqueScopes;
  }

  lemma OneFirst(t: Tables, a: nat, b: nat, q: Ask, node: Option<nat>)
    requires FirstFitting(t, a, q, node) && FirstFitting(t, b, q, node)
    ensures a == b
  {
    hide Fitting;
  }

  /** Attaching the first client that fits. */
  lemma TakesFirst(w: Crypto, t: Tables, r: nat, q: Request, t1: Tables, node: Option<nat>, c: nat)
    requires Sound(t) && RegistryRefers(t) && r in t.tokens && t.tokens[r].composition in t.compositions
    requires var organization := t.compositions[t.tokens[r].composition].organization;
             && GetOrCreateNode(w, t, q.manifest, organization) == Ok((t1, node))
             && BeforeNode(w, t, t1, q.manifest, organization) && NodeAs(w, t1, q.manifest, organization, node)
             && FirstFitting(t, c, Ask(q.manifest, Development, t.tokens[r].user, organization,
                                       t.tokens[r].composition, ""),
                             node)
    ensures Takeable(w, t, r, q) <==> !HeldElsewhere(t, r, c)
  {
    hide Sound, RegistryRefers, GetOrCreateNode, NodeAs, Fitting, DevicesKept, Registrable, IsTheirs, HeldElsewhere;
    var row := t.tokens[r];
    var organization := t.compositions[row.composition].organization;
    var ask := Ask(q.manifest, Development, row.user, organization, row.composition, "");
    RegistrySound(t);
    SomeFits(w, t, t1, c, ask, node);
    forall n, d: nat | NodeAs(w, t, q.manifest, organization, n) && FirstFitting(t, d, ask, n) ensures d == c {
      OneNode(w, t, q.manifest, organization, n);
      OneFirst(t, c, d, ask, node);
    }
  }

  /** Attaching the client that registering leaves. */
  lemma TakesNew(w: Crypto, t: Tables, r: nat, t1: Tables, o: Order)
    requires Sound(t) && Sound(t1) && RegistryRefers(t) && BeforeNode(w, t, t1, o.manifest, o.organization)
    requires CreateClient(w, t1, o).Ok?
    ensures HeldElsewhere(t, r, CreateClient(w, t1, o).value.1) <==>
              exists d: nat :: IsTheirs(w, t, o, d) && HeldElsewhere(t, r, d)
  {
    hide Sound, RegistryRefers, CreateClient, IsTheirs, HeldElsewhere, BeforeNode;
    var c := CreateClient(w, t1, o).value.1;
    RegistersTheirs(w, t, t1, o);
    if c !in t.clients { HeldThere(t, r, c); }
  }

  lemma ValidatesExactly(w: Crypto, t: Tables, r: nat, q: Request)
    requires Sound(t) && RegistryRefers(t) && r in t.tokens
    ensures ValidateRedeemToken(w, t, r, q).Ok? <==> Takeable(w, t, r, q)
  {
    hide Sound, RegistryRefers, GetOrCreateNode, Reusable, CreateClient, NodeAs, NoneFits, DevicesKept, Registrable,
      IsTheirs, HeldElsewhere, FirstFitting, Attach, Extends, StatusesAgree;
    var row, m := t.tokens[r], q.manifest;
    if row.composition in t.compositions {
      var organization := t.compositions[row.composition].organization;
      var ask, o := Ask(m, Development, row.user, organization, row.composition, ""),
          Redeeming.OrderOf(row, organization, q);
      Unambiguous.NodeOk(w, t, m, organization);
      var (t1, node) := GetOrCreateNode(w, t, m, organization).value;
      RegistrySound(t);
      LookedUp(w, t, ask);
      NodeKeeps(w, t, m, organization);
      match First(ReusableFor(t1, ask, node))
      case Some(c) =>
        TakesFirst(w, t, r, q, t1, node, c);
        AttachExactly(t, t1, r, c, row.manifestHash);
      case None =>
        StillRefers(w, t, t1, m, organization);
        RegistersExactly(w, t1, o);
        RegistrableBefore(w, t, t1, o);
        if CreateClient(w, t1, o).Ok? {
          TakesNew(w, t, r, t1, o);
          AttachExactly(t, CreateClient(w, t1, o).value.0, r, CreateClient(w, t1, o).value.1, row.manifestHash);
        }
    }
  }

  /** A redeem in time of a token without a client, or with one that another manifest may replace, is answered
      exactly when a client can be taken. */
  lemma RedeemsExactly(w: Crypto, t: Tables, q: Request, now: int, r: nat)
    requires Sound(t) && RegistryRefers(t) && Redeeming.HasToken(t, r, q.token)
    ensures Redeem(w, t, q, now).1.Redeemed? <==>
              var row, digest := t.tokens[r], w.manifestHash(q.manifest);
              && !Redeeming.IsOver(row, now)
              && (|| (row.client.Some? && (row.manifestHash.None? || row.manifestHash.value == digest))
                  || ((row.client.None? || row.allowReredeem) && Takeable(w, t, r, q)))
  {
    hide Sound, RegistryRefers, ValidateRedeemToken, Takeable, TokenRows;
    Redeeming.OneRow(t, q.token);
    Redeeming.InRows(t, r, q.token);
    assert Get(TokenRows(t, q.token)) == Found(r);
    ValidatesExactly(w, t, r, q);
  }
}
