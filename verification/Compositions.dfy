/** fakts/services/compositions.py: creating or updating a composition from a manifest.
    The nested loops of the source are read as one list of commands: deploy an instance, let it use a
    role or a scope, point an alias at it. */
module Compositions {
  import opened Prelude
  import opened Rows

  datatype RoleConfig = RoleConfig(key: string, description: Option<string>)
  datatype StagingAlias = StagingAlias(id: string, name: Option<string>, host: string, port: Option<int>, ssl: bool,
                                       path: Option<string>, kind: AliasKind, challenge: Option<string>)
  datatype InstanceRequest = InstanceRequest(identifier: string, service: string, version: string,
                                             roles: seq<RoleConfig>, scopes: seq<RoleConfig>,
                                                 aliases: seq<StagingAlias>)
  datatype CompositionManifest = CompositionManifest(identifier: string, description: Option<string>,
                                                     instances: seq<InstanceRequest>)

  datatype Command =
    | Deploy(request: InstanceRequest)
    | UseRole(token: string, config: RoleConfig)
    | UseScope(token: string, config: RoleConfig)
    | PutAlias(token: string, alias: StagingAlias)

  /** Where the commands act: a composition, its organization and the organization's owner. */
  datatype Place = Place(composition: nat, organization: nat, owner: nat)

  // ---- Look-ups --------------------------------------------------------------------------------------

  /** The rows with one value of a key. */
  function Having<T, K(==)>(rows: map<nat, T>, key: T -> K, k: K): set<nat> {
    set id | id in rows && key(rows[id]) == k
  }

  function CompositionKey(c: Composition): (nat, string) { (c.organization, c.identifier) }
  function ServiceKey(s: Service): string { s.identifier }
  function ServiceReleaseKey(r: ServiceRelease): (nat, string) { (r.service, r.version) }
  function InstanceKey(i: Instance): (nat, string) { (i.composition, i.token) }
  function GrantKey(g: Grant): (nat, string) { (g.organization, g.identifier) }
  function AliasKey(a: Alias): (nat, string) { (a.instance, a.name) }

  function CompositionRows(rows: map<nat, Composition>, organization: nat, identifier: string): set<nat> {
    Having(rows, CompositionKey, (organization, identifier))
  }

  function ServiceRows(rows: map<nat, Service>, identifier: string): set<nat> {
    Having(rows, ServiceKey, identifier)
  }

  function ServiceReleaseRows(rows: map<nat, ServiceRelease>, service: nat, version: string): set<nat> {
    Having(rows, ServiceReleaseKey, (service, version))
  }

  function InstanceRows(rows: map<nat, Instance>, composition: nat, token: string): set<nat> {
    Having(rows, InstanceKey, (composition, token))
  }

  function GrantRows(rows: map<nat, Grant>, organization: nat, identifier: string): set<nat> {
    Having(rows, GrantKey, (organization, identifier))
  }

  function AliasRows(rows: map<nat, Alias>, instance: nat, name: string): set<nat> {
    Having(rows, AliasKey, (instance, name))
  }

  function NameOf(alias: StagingAlias): string {
    if Truthy(alias.name) then alias.name.value else alias.id
  }

  // ---- Unique constraints, which do not see missing values ----------------------------------------------

  predicate InstanceUnique(rows: map<nat, Instance>, i: nat, row: Instance) {
    forall o :: o in rows && o != i ==>
      && !(rows[o].token == row.token && rows[o].composition == row.composition)
      && !(&& row.device.Some? && rows[o].device == row.device && rows[o].release == row.release
           && rows[o].instanceId == row.instanceId && rows[o].organization == row.organization
              && rows[o].composition == row.composition)
  }

  predicate AliasUnique(rows: map<nat, Alias>, a: nat, row: Alias) {
    forall o :: o in rows && o != a ==>
      !(&& row.host.Some? && row.port.Some? && row.path.Some?
        && rows[o].instance == row.instance && rows[o].host == row.host && rows[o].port == row.port
        && rows[o].ssl == row.ssl && rows[o].path == row.path && rows[o].kind == row.kind)
  }

  // ---- The commands ------------------------------------------------------------------------------------

  function EnsureService(t: Tables, identifier: string): (r: Result<(Tables, nat), Error>)
    ensures r.Ok? ==> r.value.0 == t.(nextId := r.value.0.nextId, services := r.value.0.services)
  {
    match Get(ServiceRows(t.services, identifier))
    case Found(s) => Ok((t, s))
    case Missing => Ok((t.(nextId := t.nextId + 1, services := t.services[t.nextId := Service(identifier)]), t.nextId))
    case Many => Err(Ambiguous)
  }

  function EnsureServiceRelease(t: Tables, service: nat, version: string): (r: Result<(Tables, nat), Error>)
    ensures r.Ok? ==> r.value.0 == t.(nextId := r.value.0.nextId, serviceReleases := r.value.0.serviceReleases)
  {
    match Get(ServiceReleaseRows(t.serviceReleases, service, version))
    case Found(r) => Ok((t, r))
    case Missing =>
      Ok((t.(nextId := t.nextId + 1,
             serviceReleases := t.serviceReleases[t.nextId := ServiceRelease(service, version)]), t.nextId))
    case Many => Err(Ambiguous)
  }

  /** The columns an update sets. */
  function Deployed(p: Place, row: Instance, release: nat, token: string): Instance {
    row.(steward := p.owner, release := release, organization := p.organization, template := "{}", instanceId := token)
  }

  function NewInstance(p: Place, release: nat, token: string): Instance {
    Rows.Instance(p.composition, release, token, token, p.owner, p.organization, "{}", None, None, {}, {}, {}, {})
  }

  function UpsertInstance(t: Tables, p: Place, release: nat, token: string): (r: Result<(Tables, nat), Error>)
    ensures r.Ok? ==> r.value.0 == t.(nextId := r.value.0.nextId, instances := r.value.0.instances)
  {
    match Get(InstanceRows(t.instances, p.composition, token))
    case Found(i) =>
      assert i in InstanceRows(t.instances, p.composition, token);
      var row := Deployed(p, t.instances[i], release, token);
      if InstanceUnique(t.instances, i, row) then Ok((t.(instances := t.instances[i := row]), i)) else Err(Integrity)
    case Missing =>
      Ok((t.(nextId := t.nextId + 1, instances := t.instances[t.nextId := NewInstance(p, release, token)]), t.nextId))
    case Many => Err(Ambiguous)
  }

  function DeployInstance(p: Place, t: Tables, r: InstanceRequest): (result: Result<(Tables, nat), Error>)
    ensures result.Ok? ==> var u := result.value.0;
              u == t.(nextId := u.nextId, services := u.services, serviceReleases := u.serviceReleases,
                      instances := u.instances)
  {
    var (t1, service) :- EnsureService(t, r.service);
    var (t2, release) :- EnsureServiceRelease(t1, service, r.version);
    UpsertInstance(t2, p, release, r.identifier)
  }

  /** `get_or_create` and `used_by.add`, for roles and scopes alike. */
  function UseGrant(rows: map<nat, Grant>, next: nat, organization: nat, config: RoleConfig,
                    instance: nat): Result<(map<nat, Grant>, nat), Error> {
    match Get(GrantRows(rows, organization, config.key))
    case Found(g) =>
      assert g in GrantRows(rows, organization, config.key);
      Ok((rows[g := rows[g].(usedBy := rows[g].usedBy + {instance})], next))
    case Missing => Ok((rows[next := Grant(organization, config.key, config.description, Some(instance), {instance})],
                        next + 1))
    case Many => Err(Ambiguous)
  }

  function Pointed(row: Alias, alias: StagingAlias, challenge: string): Alias {
    row.(host := Some(alias.host), port := alias.port, ssl := alias.ssl, path := alias.path, kind := alias.kind,
         challenge := challenge)
  }

  /** The challenge column is not nullable, so an alias without one cannot be saved. */
  function UpsertAlias(rows: map<nat, Alias>, next: nat, instance: nat,
                       alias: StagingAlias): Result<(map<nat, Alias>, nat), Error> {
    match Get(AliasRows(rows, instance, NameOf(alias)))
    case Found(a) =>
      assert a in AliasRows(rows, instance, NameOf(alias));
      if alias.challenge.Some? && AliasUnique(rows, a, Pointed(rows[a], alias, alias.challenge.value))
      then Ok((rows[a := Pointed(rows[a], alias, alias.challenge.value)], next))
      else Err(Integrity)
    case Missing =>
      if alias.challenge.None? then Err(Integrity)
      else
        var row := Alias(instance, NameOf(alias), Some(alias.host), alias.port, alias.ssl, alias.path, alias.kind,
                         alias.challenge.value);
        if AliasUnique(rows, next, row) then Ok((rows[next := row], next + 1)) else Err(Integrity)
    case Many => Err(Ambiguous)
  }

  /** The instance of the composition that a token names. */
  function Named(p: Place, rows: map<nat, Instance>, token: string): Result<nat, Error> {
    match Get(InstanceRows(rows, p.composition, token))
    case Found(i) => Ok(i)
    case _ => Err(NoInstance(token))
  }

  function Exec(p: Place, t: Tables, command: Command): (r: Result<Tables, Error>)
    ensures r.Ok? ==> OnlyComposition(t, r.value)
  {
    match command
    case Deploy(request) =>
      var (u, _) :- DeployInstance(p, t, request);
      Ok(u)
    case UseRole(token, config) =>
      var i :- Named(p, t.instances, token);
      var (rows, next) :- UseGrant(t.roles, t.nextId, p.organization, config, i);
      Ok(t.(nextId := next, roles := rows))
    case UseScope(token, config) =>
      var i :- Named(p, t.instances, token);
      var (rows, next) :- UseGrant(t.scopes, t.nextId, p.organization, config, i);
      Ok(t.(nextId := next, scopes := rows))
    case PutAlias(token, alias) =>
      var i :- Named(p, t.instances, token);
      var (rows, next) :- UpsertAlias(t.aliases, t.nextId, i, alias);
      Ok(t.(nextId := next, aliases := rows))
  }

  predicate OnlyComposition(t: Tables, u: Tables) {
    u == t.(nextId := u.nextId, services := u.services, serviceReleases := u.serviceReleases, instances := u.instances,
            roles := u.roles, scopes := u.scopes, aliases := u.aliases)
  }

  predicate OnlyCompositions(t: Tables, u: Tables) {
    OnlyComposition(t.(compositions := u.compositions), u)
  }

  function ExecAll(p: Place, t: Tables, commands: seq<Command>): (r: Result<Tables, Error>)
    ensures r.Ok? ==> OnlyComposition(t, r.value)
  {
    if commands == [] then Ok(t)
    else
      var u :- ExecAll(p, t, commands[..|commands| - 1]);
      Exec(p, u, commands[|commands| - 1])
  }

  // ---- A manifest as commands ------------------------------------------------------------------------------

  function UseRoles(token: string, configs: seq<RoleConfig>): seq<Command> {
    seq(|configs|, k requires 0 <= k < |configs| => UseRole(token, configs[k]))
  }

  function UseScopes(token: string, configs: seq<RoleConfig>): seq<Command> {
    seq(|configs|, k requires 0 <= k < |configs| => UseScope(token, configs[k]))
  }

  function PutAliases(token: string, aliases: seq<StagingAlias>): seq<Command> {
    seq(|aliases|, k requires 0 <= k < |aliases| => PutAlias(token, aliases[k]))
  }

  function CommandsOf(r: InstanceRequest): seq<Command> {
    [Deploy(r)] + UseRoles(r.identifier, r.roles) + UseScopes(r.identifier, r.scopes)
        + PutAliases(r.identifier, r.aliases)
  }

  function Commands(requests: seq<InstanceRequest>): seq<Command> {
    if requests == [] then [] else Commands(requests[..|requests| - 1]) + CommandsOf(requests[|requests| - 1])
  }

  /** The columns a composition row takes from the manifest and its organization. */
  function Described(w: Crypto, o: Organization, m: CompositionManifest, row: Composition): (r: Composition)
    ensures CompositionKey(r) == CompositionKey(row) && r.authKey == row.authKey
  {
    row.(token := w.uuid5(m.identifier + ":" + o.slug),
         name := if m.identifier != "" then m.identifier else "Unnamed Composition",
         description := if Truthy(m.description) then m.description.value else "Auto-configured composition",
         creator := o.owner)
  }

  function BlankComposition(organization: nat, identifier: string): Composition {
    Composition(organization, identifier, "", "", "", 0, None)
  }

  /** `update_or_create` of the composition row. */
  function UpsertComposition(w: Crypto, t: Tables, m: CompositionManifest,
                             organization: nat): (r: Result<(Tables, nat), Error>)
    requires organization in t.organizations
    ensures r.Ok? ==> r.value.0 == t.(nextId := r.value.0.nextId, compositions := r.value.0.compositions)
  {
    var o := t.organizations[organization];
    match Get(CompositionRows(t.compositions, organization, m.identifier))
    case Found(c) =>
      assert c in CompositionRows(t.compositions, organization, m.identifier);
      Ok((t.(compositions := t.compositions[c := Described(w, o, m, t.compositions[c])]), c))
    case Missing =>
      var row := Described(w, o, m, BlankComposition(organization, m.identifier));
      Ok((t.(nextId := t.nextId + 1, compositions := t.compositions[t.nextId := row]), t.nextId))
    case Many => Err(Ambiguous)
  }

  /** `create_composition_from_manifest`. */
  function Apply(w: Crypto, t: Tables, m: CompositionManifest, organization: nat): (r: Result<(Tables, nat), Error>)
    requires organization in t.organizations
    ensures r.Ok? ==> OnlyCompositions(t, r.value.0)
  {
    var (t1, c) :- UpsertComposition(w, t, m, organization);
    var t2 :- ExecAll(Place(c, organization, t.organizations[organization].owner), t1, Commands(m.instances));
    Ok((t2, c))
  }
}
