/** What applying a composition manifest leaves, said of the rows themselves. */
module Manifests {
  import opened Prelude
  import opened Rows
  import opened Compositions
  import opened CompositionLaws
  import opened CompositionTheorems
  import opened CompositionKeys
  import opened Invariants

  /** The one instance of the composition with this token. */
  ghost predicate IsInstance(t: Tables, c: nat, token: string, i: nat) {
    && i in t.instances && t.instances[i].composition == c && t.instances[i].token == token
    && forall j :: j in t.instances && t.instances[j].composition == c && t.instances[j].token == token ==> j == i
  }

  /** The release row has this version and belongs to the one service row with this identifier. */
  ghost predicate IsReleaseOf(t: Tables, release: nat, service: string, version: string) {
    && release in t.serviceReleases && t.serviceReleases[release].version == version
    && t.serviceReleases[release].service in t.services
    && t.services[t.serviceReleases[release].service].identifier == service
    && forall s :: s in t.services && t.services[s].identifier == service ==> s == t.serviceReleases[release].service
  }

  /** The columns of a requested instance. */
  ghost predicate DeployedAs(t: Tables, c: nat, organization: nat, r: InstanceRequest, i: nat) {
    && IsInstance(t, c, r.identifier, i) && organization in t.organizations
    && var row := t.instances[i];
    && IsReleaseOf(t, row.release, r.service, r.version) && row.steward == t.organizations[organization].owner
    && row.organization == organization && row.template == "{}" && row.instanceId == r.identifier
  }

  /** The organization's one role, or scope, with this key is used by the instance. */
  ghost predicate UsedAs(grants: map<nat, Grant>, organization: nat, key: string, i: nat) {
    exists g :: && IsGrant(grants, organization, key, g) && i in grants[g].usedBy
                && forall h :: IsGrant(grants, organization, key, h) ==> h == g
  }

  predicate IsGrant(grants: map<nat, Grant>, organization: nat, key: string, g: nat) {
    g in grants && grants[g].organization == organization && grants[g].identifier == key
  }

  /** The instance's one alias of that name, and where it points; an alias without a name goes by its id. */
  ghost predicate PointedAs(t: Tables, i: nat, alias: StagingAlias) {
    exists a :: && IsAlias(t, i, if alias.name.Some? && alias.name.value != "" then alias.name.value else alias.id, a)
                && var row := t.aliases[a];
                && row.host == Some(alias.host) && row.port == alias.port && row.ssl == alias.ssl
                && row.path == alias.path && row.kind == alias.kind && Some(row.challenge) == alias.challenge
  }

  ghost predicate IsAlias(t: Tables, i: nat, name: string, a: nat) {
    && a in t.aliases && t.aliases[a].instance == i && t.aliases[a].name == name
    && forall b :: b in t.aliases && t.aliases[b].instance == i && t.aliases[b].name == name ==> b == a
  }

  /** One requested instance, with its roles, scopes and aliases. */
  ghost predicate RequestedAs(t: Tables, c: nat, organization: nat, r: InstanceRequest, i: nat) {
    && DeployedAs(t, c, organization, r, i)
    && (forall config :: config in r.roles ==> UsedAs(t.roles, organization, config.key, i))
    && (forall config :: config in r.scopes ==> UsedAs(t.scopes, organization, config.key, i))
    && (forall alias :: alias in r.aliases ==> PointedAs(t, i, alias))
  }

  /** The organization's one composition with the manifest's identifier, and its columns. */
  ghost predicate ComposedAs(w: Crypto, t: Tables, c: nat, organization: nat, m: CompositionManifest) {
    && c in t.compositions && organization in t.organizations
    && var row := t.compositions[c];
    && row.organization == organization && row.identifier == m.identifier
    && row.token == w.uuid5(m.identifier + ":" + t.organizations[organization].slug)
    && row.name == (if m.identifier == "" then "Unnamed Composition" else m.identifier)
    && row.description == (if m.description.Some? && m.description.value != "" then m.description.value
                           else "Auto-configured composition")
    && row.creator == t.organizations[organization].owner
    && forall d :: d in t.compositions && t.compositions[d].organization == organization
                     && t.compositions[d].identifier == m.identifier ==>
                   d == c
  }

  // ---- One command ------------------------------------------------------------------------------------------------

  lemma OneHaving<T, K>(rows: map<nat, T>, key: T -> K, k: K, i: nat)
    requires Having(rows, key, k) == {i}
    ensures i in rows && key(rows[i]) == k && forall j :: j in rows && key(rows[j]) == k ==> j == i
  {
    assert i in Having(rows, key, k);
    forall j | j in rows && key(rows[j]) == k ensures j == i {
      assert j in Having(rows, key, k);
    }
  }

  lemma InstanceIs(t: Tables, c: nat, token: string, i: nat)
    requires InstanceRows(t.instances, c, token) == {i}
    ensures IsInstance(t, c, token, i)
  {
    OneHaving(t.instances, InstanceKey, (c, token), i);
    assert forall j :: j in t.instances && t.instances[j].composition == c && t.instances[j].token == token ==>
        InstanceKey(t.instances[j]) == (c, token);
  }

  lemma DeployReads(p: Place, t: Tables, r: InstanceRequest, s: nat, release: nat, i: nat)
    requires IsDeployed(p, t.services, t.serviceReleases, t.instances, r, s, release, i)
    requires p.organization in t.organizations && t.organizations[p.organization].owner == p.owner
    ensures DeployedAs(t, p.composition, p.organization, r, i)
  {
    hide Having, InstanceUnique;
    InstanceIs(t, p.composition, r.identifier, i);
    OneHaving(t.services, ServiceKey, r.service, s);
    OneHaving(t.serviceReleases, ServiceReleaseKey, (s, r.version), release);
    assert forall j :: j in t.services && t.services[j].identifier == r.service ==>
           ServiceKey(t.services[j]) == r.service;
  }

  lemma UseReads(p: Place, instances: map<nat, Instance>, grants: map<nat, Grant>, token: string, config: RoleConfig,
                 i: nat, g: nat)
    requires IsUsed(p, instances, grants, token, config, i, g)
    ensures UsedAs(grants, p.organization, config.key, i)
  {
    hide Having;
    OneHaving(grants, GrantKey, (p.organization, config.key), g);
    assert forall h :: IsGrant(grants, p.organization, config.key, h) ==>
        GrantKey(grants[h]) == (p.organization, config.key);
  }

  lemma PointReads(p: Place, t: Tables, token: string, alias: StagingAlias, i: nat, a: nat)
    requires IsPointed(p, t.instances, t.aliases, token, alias, i, a)
    ensures PointedAs(t, i, alias)
  {
    hide Having, AliasUnique;
    var name := NameOf(alias);
    OneHaving(t.aliases, AliasKey, (i, name), a);
    assert forall b :: b in t.aliases && t.aliases[b].instance == i && t.aliases[b].name == name ==>
        AliasKey(t.aliases[b]) == (i, name);
    assert IsAlias(t, i, name, a);
  }

  // ---- One request ------------------------------------------------------------------------------------------------

  lemma SameInstance(rows: set<nat>, i: nat, j: nat)
    requires rows == {i} && rows == {j}
    ensures i == j
  {
    assert i in rows;
  }

  lemma RequestReads(p: Place, t: Tables, r: InstanceRequest)
    requires RequestHolds(p, t, r) && p.organization in t.organizations
             && t.organizations[p.organization].owner == p.owner
    ensures exists i :: RequestedAs(t, p.composition, p.organization, r, i)
  {
    hide DeployedAs, UsedAs, PointedAs, InstanceRows, ServiceRows, ServiceReleaseRows, GrantRows, AliasRows,
      InstanceUnique, AliasUnique;
    assert Holds(p, t, Deploy(r));
    var s, release, i :| IsDeployed(p, t.services, t.serviceReleases, t.instances, r, s, release, i);
    DeployReads(p, t, r, s, release, i);
    var named := InstanceRows(t.instances, p.composition, r.identifier);
    forall config | config in r.roles ensures UsedAs(t.roles, p.organization, config.key, i) {
      assert Holds(p, t, UseRole(r.identifier, config));
      var j, g :| IsUsed(p, t.instances, t.roles, r.identifier, config, j, g);
      SameInstance(named, i, j);
      UseReads(p, t.instances, t.roles, r.identifier, config, i, g);
    }
    forall config | config in r.scopes ensures UsedAs(t.scopes, p.organization, config.key, i) {
      assert Holds(p, t, UseScope(r.identifier, config));
      var j, g :| IsUsed(p, t.instances, t.scopes, r.identifier, config, j, g);
      SameInstance(named, i, j);
      UseReads(p, t.instances, t.scopes, r.identifier, config, i, g);
    }
    forall alias | alias in r.aliases ensures PointedAs(t, i, alias) {
      assert Holds(p, t, PutAlias(r.identifier, alias));
      var j, a :| IsPointed(p, t.instances, t.aliases, r.identifier, alias, j, a);
      SameInstance(named, i, j);
      PointReads(p, t, r.identifier, alias, i, a);
    }
    assert RequestedAs(t, p.composition, p.organization, r, i);
  }

  // ---- The whole manifest -----------------------------------------------------------------------------------------

  lemma CompositionReads(w: Crypto, t: Tables, c: nat, organization: nat, m: CompositionManifest)
    requires organization in t.organizations && CompositionRows(t.compositions, organization, m.identifier) == {c}
    requires c in t.compositions
             && t.compositions[c] == Described(w, t.organizations[organization], m, t.compositions[c])
    ensures ComposedAs(w, t, c, organization, m)
  {
    OneHaving(t.compositions, CompositionKey, (organization, m.identifier), c);
    assert forall d :: d in t.compositions && t.compositions[d].organization == organization
                       && t.compositions[d].identifier == m.identifier ==>
        CompositionKey(t.compositions[d]) == (organization, m.identifier);
  }

  /** A successful application leaves the composition and each requested instance as the manifest has them, column by
      column. */
  lemma ManifestReads(w: Crypto, t: Tables, m: CompositionManifest, organization: nat)
    requires KeysDrawn(t) && organization in t.organizations && Distinct(m) && Apply(w, t, m, organization).Ok?
    ensures var (u, c) := Apply(w, t, m, organization).value;
            && ComposedAs(w, u, c, organization, m)
            && forall r :: r in m.instances ==> exists i :: RequestedAs(u, c, organization, r, i)
  {
    hide Described, RequestHolds, KeysDrawn, Distinct, Apply, ComposedAs, RequestedAs, CompositionRows;
    ManifestHolds(w, t, m, organization);
    var (u, c) := Apply(w, t, m, organization).value;
    CompositionReads(w, u, c, organization, m);
    forall r | r in m.instances ensures exists i :: RequestedAs(u, c, organization, r, i) {
      var k :| 0 <= k < |m.instances| && m.instances[k] == r;
      RequestReads(PlaceOf(t, c, organization), u, m.instances[k]);
    }
  }

  // ---- When a command is refused ----------------------------------------------------------------------------------

  /** Another alias of the instance points where this one would; the constraint does not see missing ports or
      paths. */
  predicate PointsThere(t: Tables, i: nat, alias: StagingAlias, b: nat) {
    && b in t.aliases && t.aliases[b].instance == i && t.aliases[b].name != NameOf(alias)
    && t.aliases[b].host == Some(alias.host) && alias.port.Some? && t.aliases[b].port == alias.port
    && t.aliases[b].ssl == alias.ssl && alias.path.Some? && t.aliases[b].path == alias.path
    && t.aliases[b].kind == alias.kind
  }

  /** Another instance of the composition stands on the same device for the same release, under the same
      instance id. */
  predicate StandsThere(t: Tables, p: Place, i: nat, r: InstanceRequest, o: nat) {
    && i in t.instances && o in t.instances && o != i && t.instances[o].composition == p.composition
    && t.instances[i].device.Some? && t.instances[o].device == t.instances[i].device
    && t.instances[o].instanceId == r.identifier && t.instances[o].organization == p.organization
    && t.instances[o].release in t.serviceReleases && t.serviceReleases[t.instances[o].release].version == r.version
    && t.serviceReleases[t.instances[o].release].service in t.services
    && t.services[t.serviceReleases[t.instances[o].release].service].identifier == r.service
  }

  lemma OneFound<T, K>(rows: map<nat, T>, key: T -> K, k: K, i: nat)
    requires UniqueBy(rows, key) && i in rows && key(rows[i]) == k
    ensures Having(rows, key, k) == {i} && Get(Having(rows, key, k)) == Found(i)
  {
    assert i in Having(rows, key, k);
    assert forall j :: j in Having(rows, key, k) ==> j == i;
    assert Having(rows, key, k) == {i};
  }

  lemma InstanceNamed(p: Place, t: Tables, token: string, i: nat)
    requires UniqueKeys(t) && IsInstance(t, p.composition, token, i)
    ensures Named(p, t.instances, token) == Ok(i)
  {
    hide Having, UniqueBy;
    OneFound(t.instances, InstanceKey, (p.composition, token), i);
  }

  lemma AliasFits(t: Tables, i: nat, alias: StagingAlias, a: nat, row: Alias)
    requires row.instance == i && row.name == NameOf(alias) && row.host == Some(alias.host) && row.port == alias.port
             && row.ssl == alias.ssl && row.path == alias.path && row.kind == alias.kind
    requires forall b :: b in t.aliases && t.aliases[b].instance == i && t.aliases[b].name == NameOf(alias) ==> b == a
    requires a in t.aliases ==> t.aliases[a].instance == i && t.aliases[a].name == NameOf(alias)
    ensures AliasUnique(t.aliases, a, row) <==> forall b: nat :: !PointsThere(t, i, alias, b)
  {
    if AliasUnique(t.aliases, a, row) {
      forall b: nat ensures !PointsThere(t, i, alias, b) {
      }
    }
    if forall b: nat :: !PointsThere(t, i, alias, b) {
      assert forall b: nat :: b in t.aliases && b != a ==> !PointsThere(t, i, alias, b);
    }
  }

  /** An alias is refused exactly without a challenge, or where another alias of the instance points to the same
      place. */
  lemma PointsExactly(p: Place, t: Tables, token: string, alias: StagingAlias, i: nat)
    requires KeysDrawn(t) && UniqueKeys(t) && IsInstance(t, p.composition, token, i)
    ensures Exec(p, t, PutAlias(token, alias)).Ok? <==>
              alias.challenge.Some? && forall b: nat :: !PointsThere(t, i, alias, b)
  {
    hide Having, UniqueBy, Named, AliasUnique, PointsThere, First, NameOf;
    InstanceNamed(p, t, token, i);
    var rows := AliasRows(t.aliases, i, NameOf(alias));
    FoundOnce(t.aliases, AliasKey, (i, NameOf(alias)));
    AliasDrawn(t);
    GetRows(rows);
    if alias.challenge.Some? {
      match Get(rows)
      case Found(a) =>
        OneHaving(t.aliases, AliasKey, (i, NameOf(alias)), a);
        AliasFits(t, i, alias, a, Pointed(t.aliases[a], alias, alias.challenge.value));
      case Missing =>
        NoRowWith(t.aliases, AliasKey, (i, NameOf(alias)));
        AliasFits(t, i, alias, t.nextId, Alias(i, NameOf(alias), Some(alias.host), alias.port, alias.ssl, alias.path,
                                               alias.kind, alias.challenge.value));
      case Many =>
    }
  }

  lemma AliasDrawn(t: Tables)
    requires KeysDrawn(t)
    ensures t.nextId !in t.aliases
  {
  }

  /** Using a role or a scope is never refused. */
  lemma UsesAlways(p: Place, t: Tables, token: string, config: RoleConfig, i: nat)
    requires UniqueKeys(t) && IsInstance(t, p.composition, token, i)
    ensures Exec(p, t, UseRole(token, config)).Ok? && Exec(p, t, UseScope(token, config)).Ok?
  {
    hide Having, UniqueBy, Named;
    InstanceNamed(p, t, token, i);
    FoundOnce(t.roles, GrantKey, (p.organization, config.key));
    FoundOnce(t.scopes, GrantKey, (p.organization, config.key));
  }

  /** A deployment is refused exactly where another instance stands in the place of the one that is there. */
  lemma DeploysExactly(p: Place, t: Tables, r: InstanceRequest)
    requires KeysDrawn(t) && UniqueKeys(t)
    requires forall i :: i in t.instances ==> t.instances[i].release in t.serviceReleases
    requires forall s :: s in t.serviceReleases ==> t.serviceReleases[s].service in t.services
    ensures Exec(p, t, Deploy(r)).Ok? <==>
              forall i: nat, o: nat :: IsInstance(t, p.composition, r.identifier, i) ==> !StandsThere(t, p, i, r, o)
  {
    hide UniqueBy, EnsureService, EnsureServiceRelease, UpsertInstance, StandsThere, IsInstance;
    ServiceMade(t, r.service);
    var (t1, s) := EnsureService(t, r.service).value;
    ReleaseMade(t1, s, r.version);
    var (t2, release) := EnsureServiceRelease(t1, s, r.version).value;
    forall o: nat | o in t.instances
      ensures t.instances[o].release == release <==>
              && t.serviceReleases[t.instances[o].release].version == r.version
              && t.services[t.serviceReleases[t.instances[o].release].service].identifier == r.service
    {
    }
    UpsertsExactly(p, t, t2, r, release);
  }

  /** The service row is the one with that identifier, and new where there is none. */
  lemma ServiceMade(t: Tables, identifier: string)
    requires KeysDrawn(t) && UniqueKeys(t)
    ensures EnsureService(t, identifier).Ok?
    ensures var (u, s) := EnsureService(t, identifier).value;
            && u.nextId >= t.nextId && u.serviceReleases == t.serviceReleases
            && forall k :: k in t.services ==> (k == s <==> t.services[k].identifier == identifier)
    ensures var (u, s) := EnsureService(t, identifier).value;
            Drawn(u.serviceReleases, u.nextId) && UniqueBy(u.serviceReleases, ServiceReleaseKey)
  {
    hide UniqueBy, ServiceRows, First, Get, Drawn, UniqueKeys, KeysDrawn;
    ServiceKeys(t, identifier);
    ServiceFound(t, identifier);
    match Get(ServiceRows(t.services, identifier))
    case Found(s) =>
    case Missing => DrawnLater(t.serviceReleases, t.nextId, t.nextId + 1);
    case Many =>
  }

  lemma ServiceKeys(t: Tables, identifier: string)
    requires KeysDrawn(t) && UniqueKeys(t)
    ensures Drawn(t.services, t.nextId) && Drawn(t.serviceReleases, t.nextId)
    ensures UniqueBy(t.serviceReleases, ServiceReleaseKey) && !Get(ServiceRows(t.services, identifier)).Many?
  {
    hide UniqueBy, Having, Get, Drawn;
    FoundOnce(t.services, ServiceKey, identifier);
  }

  lemma ServiceFound(t: Tables, identifier: string)
    requires Drawn(t.services, t.nextId)
    ensures match Get(ServiceRows(t.services, identifier))
            case Found(s) => forall k :: k in t.services ==> (k == s <==> t.services[k].identifier == identifier)
            case Missing => forall k :: k in t.services ==> k != t.nextId && t.services[k].identifier != identifier
            case Many => true
  {
    hide Having, First, Get;
    GetRows(ServiceRows(t.services, identifier));
    match Get(ServiceRows(t.services, identifier))
    case Found(s) =>
      OneHaving(t.services, ServiceKey, identifier, s);
      assert forall k :: k in t.services && t.services[k].identifier == identifier ==>
          ServiceKey(t.services[k]) == identifier;
    case Missing =>
      NoRowWith(t.services, ServiceKey, identifier);
      assert forall k :: k in t.services ==> ServiceKey(t.services[k]) == t.services[k].identifier;
    case Many =>
  }

  lemma ReleaseMade(t: Tables, s: nat, version: string)
    requires Drawn(t.serviceReleases, t.nextId) && UniqueBy(t.serviceReleases, ServiceReleaseKey)
    ensures EnsureServiceRelease(t, s, version).Ok?
    ensures var (u, release) := EnsureServiceRelease(t, s, version).value;
            && u.nextId >= t.nextId && u.instances == t.instances
            && forall k :: k in t.serviceReleases ==>
                 (k == release <==> t.serviceReleases[k].service == s && t.serviceReleases[k].version == version)
  {
    hide UniqueBy, Having, First;
    FoundOnce(t.serviceReleases, ServiceReleaseKey, (s, version));
    match Get(ServiceReleaseRows(t.serviceReleases, s, version))
    case Found(release) => OneHaving(t.serviceReleases, ServiceReleaseKey, (s, version), release);
    case Missing => NoRowWith(t.serviceReleases, ServiceReleaseKey, (s, version));
    case Many =>
  }

  lemma UpsertsExactly(p: Place, t: Tables, u: Tables, r: InstanceRequest, release: nat)
    requires UniqueKeys(t) && u.instances == t.instances
    requires forall o :: o in t.instances ==>
               && t.instances[o].release in t.serviceReleases
               && t.serviceReleases[t.instances[o].release].service in t.services
               && (t.instances[o].release == release <==>
                     && t.serviceReleases[t.instances[o].release].version == r.version
                     && t.services[t.serviceReleases[t.instances[o].release].service].identifier == r.service)
    ensures UpsertInstance(u, p, release, r.identifier).Ok? <==>
              forall i: nat, o: nat :: IsInstance(t, p.composition, r.identifier, i) ==> !StandsThere(t, p, i, r, o)
  {
    hide UniqueBy, Having, First, InstanceUnique;
    FoundOnce(t.instances, InstanceKey, (p.composition, r.identifier));
    var rows := InstanceRows(u.instances, p.composition, r.identifier);
    GetRows(rows);
    match Get(rows)
    case Found(i) =>
      OneHaving(t.instances, InstanceKey, (p.composition, r.identifier), i);
      InstanceIs(t, p.composition, r.identifier, i);
      InstanceFits(p, t, r, release, i);
    case Missing => NoRowWith(t.instances, InstanceKey, (p.composition, r.identifier));
    case Many =>
  }

  lemma InstanceFits(p: Place, t: Tables, r: InstanceRequest, release: nat, i: nat)
    requires IsInstance(t, p.composition, r.identifier, i)
    requires forall o :: o in t.instances ==>
               && t.instances[o].release in t.serviceReleases
               && t.serviceReleases[t.instances[o].release].service in t.services
               && (t.instances[o].release == release <==>
                     && t.serviceReleases[t.instances[o].release].version == r.version
                     && t.services[t.serviceReleases[t.instances[o].release].service].identifier == r.service)
    ensures InstanceUnique(t.instances, i, Deployed(p, t.instances[i], release, r.identifier)) <==>
              forall o: nat :: !StandsThere(t, p, i, r, o)
  {
    if InstanceUnique(t.instances, i, Deployed(p, t.instances[i], release, r.identifier)) {
      forall o: nat ensures !StandsThere(t, p, i, r, o) {
      }
    }
    if forall o: nat :: !StandsThere(t, p, i, r, o) {
      assert forall o: nat :: o in t.instances && o != i ==> !StandsThere(t, p, i, r, o);
    }
  }
}
