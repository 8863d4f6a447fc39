/** `create_composition_from_manifest` as it runs: nested loops of `update_or_create` and
    `get_or_create` on the database. */
module CompositionServices {
  import opened Prelude
  import opened Rows
  import opened Compositions
  import opened CompositionLaws
  import opened CompositionTheorems
  import opened CompositionFrames
  import opened DatabaseServices
  import opened Invariants

  /** Like `Follows`, for a call that answers with no value. */
  ghost predicate Does(after: Tables, r: Result<(), Error>, spec: Result<Tables, Error>) {
    match spec
    case Ok(u) => r == Ok(()) && after == u
    case Err(e) => r == Err(e)
  }

  lemma Following(after: Tables, id: nat, e: Error)
    ensures Follows(after, Ok(id), Ok((after, id))) && Follows(after, Err(e), Err(e))
  {
  }

  // The specification of the upsert, one case of its look-up at a time.

  lemma UpsertUpdates(w: Crypto, t: Tables, m: CompositionManifest, organization: nat, c: nat)
    requires organization in t.organizations
             && Get(CompositionRows(t.compositions, organization, m.identifier)) == Found(c)
    ensures c in t.compositions
    ensures UpsertComposition(w, t, m, organization)
         == Ok((t.(compositions := t.compositions[c := Described(w, t.organizations[organization], m,
               t.compositions[c])]), c))
  {
    hide Having, First, Get, Described;
    GetRows(CompositionRows(t.compositions, organization, m.identifier));
    RowWith(t.compositions, CompositionKey, (organization, m.identifier), c);
  }

  lemma UpsertInserts(w: Crypto, t: Tables, m: CompositionManifest, organization: nat)
    requires organization in t.organizations
             && Get(CompositionRows(t.compositions, organization, m.identifier)).Missing?
    ensures UpsertComposition(w, t, m, organization)
         == Ok((t.(nextId := t.nextId + 1,
                   compositions := t.compositions[t.nextId := Described(w, t.organizations[organization], m,
                                                                        BlankComposition(organization,
                                                                              m.identifier))]), t.nextId))
  {
    hide CompositionRows, First, Get, Described;
  }

  lemma UpsertRefuses(w: Crypto, t: Tables, m: CompositionManifest, organization: nat)
    requires organization in t.organizations && Get(CompositionRows(t.compositions, organization, m.identifier)).Many?
    ensures UpsertComposition(w, t, m, organization) == Err(Ambiguous)
  {
    hide CompositionRows, First, Get, Described;
  }

  lemma DescribedColumns(w: Crypto, o: Organization, m: CompositionManifest, before: Composition, after: Composition)
    requires after.organization == before.organization && after.identifier == before.identifier
             && after.authKey == before.authKey
    requires after.token == w.uuid5(m.identifier + ":" + o.slug)
    requires after.name == if m.identifier != "" then m.identifier else "Unnamed Composition"
    requires after.description == if Truthy(m.description) then m.description.value else "Auto-configured composition"
    requires after.creator == o.owner
    ensures after == Described(w, o, m, before)
  {
  }

  method UpsertCompositionRow(db: Database, m: CompositionManifest, organization: nat) returns (r: Result<nat, Error>)
    requires organization in db.tables.organizations
    modifies db
    ensures Follows(db.tables, r, UpsertComposition(db.w, old(db.tables), m, organization))
  {
    hide UpsertComposition, CompositionRows, Described, First, Get, Follows;
    Following(db.tables, 0, Ambiguous);
    var o := db.tables.organizations[organization];
    var token := db.w.uuid5(m.identifier + ":" + o.slug);
    var name := if m.identifier != "" then m.identifier else "Unnamed Composition";
    var description := if Truthy(m.description) then m.description.value else "Auto-configured composition";
    match Get(CompositionRows(db.tables.compositions, organization, m.identifier)) {
      case Found(c) =>
        UpsertUpdates(db.w, db.tables, m, organization, c);
        var row := db.tables.compositions[c];
        row := row.(token := token);
        row := row.(name := name);
        row := row.(description := description);
        row := row.(creator := o.owner);
        DescribedColumns(db.w, o, m, db.tables.compositions[c], row);
        db.tables := db.tables.(compositions := db.tables.compositions[c := row]);
        Following(db.tables, c, Ambiguous);
        return Ok(c);
      case Missing =>
        UpsertInserts(db.w, db.tables, m, organization);
        var c := db.tables.nextId;
        var row := Composition(organization, m.identifier, token, name, description, o.owner, None);
        DescribedColumns(db.w, o, m, BlankComposition(organization, m.identifier), row);
        db.tables := db.tables.(nextId := c + 1, compositions := db.tables.compositions[c := row]);
        Following(db.tables, c, Ambiguous);
        return Ok(c);
      case Many =>
        UpsertRefuses(db.w, db.tables, m, organization);
        return Err(Ambiguous);
    }
  }

  method GetOrCreateService(db: Database, identifier: string) returns (r: Result<nat, Error>)
    modifies db
    ensures Follows(db.tables, r, EnsureService(old(db.tables), identifier))
  {
    match Get(ServiceRows(db.tables.services, identifier)) {
      case Found(s) =>
        return Ok(s);
      case Missing =>
        var s := db.tables.nextId;
        db.tables := db.tables.(nextId := s + 1, services := db.tables.services[s := Service(identifier)]);
        return Ok(s);
      case Many =>
        return Err(Ambiguous);
    }
  }

  method GetOrCreateServiceRelease(db: Database, service: nat, version: string) returns (r: Result<nat, Error>)
    modifies db
    ensures Follows(db.tables, r, EnsureServiceRelease(old(db.tables), service, version))
  {
    match Get(ServiceReleaseRows(db.tables.serviceReleases, service, version)) {
      case Found(release) =>
        return Ok(release);
      case Missing =>
        var release := db.tables.nextId;
        db.tables := db.tables.(nextId := release + 1,
                                serviceReleases := db.tables.serviceReleases[release := ServiceRelease(service,
                                      version)]);
        return Ok(release);
      case Many =>
        return Err(Ambiguous);
    }
  }

  method UpdateOrCreateInstance(db: Database, p: Place, release: nat, token: string) returns (r: Result<nat, Error>)
    modifies db
    ensures Follows(db.tables, r, UpsertInstance(old(db.tables), p, release, token))
    ensures r.Ok? ==>
              && r.value in db.tables.instances
              && var row := db.tables.instances[r.value];
              && row.composition == p.composition && row.token == token && row.release == release
              && row.steward == p.owner && row.organization == p.organization && row.template == "{}"
              && row.instanceId == token
              && db.tables.instances == old(db.tables).instances[r.value := row]
  {
    match Get(InstanceRows(db.tables.instances, p.composition, token)) {
      case Found(i) =>
        assert i in InstanceRows(db.tables.instances, p.composition, token);
        var row := db.tables.instances[i];
        row := row.(steward := p.owner);
        row := row.(release := release);
        row := row.(organization := p.organization);
        row := row.(template := "{}");
        row := row.(instanceId := token);
        if !InstanceUnique(db.tables.instances, i, row) {
          return Err(Integrity);
        }
        db.tables := db.tables.(instances := db.tables.instances[i := row]);
        return Ok(i);
      case Missing =>
        var i := db.tables.nextId;
        var row := Rows.Instance(p.composition, release, token, token, p.owner, p.organization, "{}", None, None, {},
                                 {}, {}, {});
        db.tables := db.tables.(nextId := i + 1, instances := db.tables.instances[i := row]);
        return Ok(i);
      case Many =>
        return Err(Ambiguous);
    }
  }

  method DeployRequest(db: Database, p: Place, request: InstanceRequest) returns (r: Result<nat, Error>)
    modifies db
    ensures Follows(db.tables, r, DeployInstance(p, old(db.tables), request))
  {
    hide EnsureService, EnsureServiceRelease, UpsertInstance;
    var service :- GetOrCreateService(db, request.service);
    var release :- GetOrCreateServiceRelease(db, service, request.version);
    r := UpdateOrCreateInstance(db, p, release, request.identifier);
  }

  /** `get_or_create` of a role and `used_by.add`. */
  method AddRole(db: Database, p: Place, token: string, config: RoleConfig,
                 instance: nat) returns (r: Result<(), Error>)
    requires Named(p, db.tables.instances, token) == Ok(instance)
    modifies db
    ensures Does(db.tables, r, Exec(p, old(db.tables), UseRole(token, config)))
  {
    hide Named, Having;
    var rows := GrantRows(db.tables.roles, p.organization, config.key);
    match Get(rows) {
      case Found(g) =>
        RowWith(db.tables.roles, GrantKey, (p.organization, config.key), g);
        var role := db.tables.roles[g];
        db.tables := db.tables.(roles := db.tables.roles[g := role.(usedBy := role.usedBy + {instance})]);
        return Ok(());
      case Missing =>
        var g := db.tables.nextId;
        var role := Grant(p.organization, config.key, config.description, Some(instance), {});
        role := role.(usedBy := role.usedBy + {instance});
        assert {} + {instance} == {instance};
        db.tables := db.tables.(nextId := g + 1, roles := db.tables.roles[g := role]);
        return Ok(());
      case Many =>
        return Err(Ambiguous);
    }
  }

  method AddScope(db: Database, p: Place, token: string, config: RoleConfig,
                  instance: nat) returns (r: Result<(), Error>)
    requires Named(p, db.tables.instances, token) == Ok(instance)
    modifies db
    ensures Does(db.tables, r, Exec(p, old(db.tables), UseScope(token, config)))
  {
    hide Named, Having;
    var rows := GrantRows(db.tables.scopes, p.organization, config.key);
    match Get(rows) {
      case Found(g) =>
        RowWith(db.tables.scopes, GrantKey, (p.organization, config.key), g);
        var scope := db.tables.scopes[g];
        db.tables := db.tables.(scopes := db.tables.scopes[g := scope.(usedBy := scope.usedBy + {instance})]);
        return Ok(());
      case Missing =>
        var g := db.tables.nextId;
        var scope := Grant(p.organization, config.key, config.description, Some(instance), {});
        scope := scope.(usedBy := scope.usedBy + {instance});
        assert {} + {instance} == {instance};
        db.tables := db.tables.(nextId := g + 1, scopes := db.tables.scopes[g := scope]);
        return Ok(());
      case Many =>
        return Err(Ambiguous);
    }
  }

  /** One row is written, and points where the alias says. */
  ghost predicate AliasWritten(before: map<nat, Alias>, after: map<nat, Alias>, instance: nat, alias: StagingAlias,
                               a: nat) {
    && a in after && after == before[a := after[a]]
    && var row := after[a];
    && row.instance == instance && row.host == Some(alias.host) && row.port == alias.port && row.ssl == alias.ssl
    && row.path == alias.path && row.kind == alias.kind && Some(row.challenge) == alias.challenge
    && row.name == (if alias.name.None? || alias.name.value == "" then alias.id else alias.name.value)
  }

  /** What the method below does to the alias table. */
  lemma PutWrites(p: Place, t: Tables, token: string, alias: StagingAlias, instance: nat)
    requires Named(p, t.instances, token) == Ok(instance) && Exec(p, t, PutAlias(token, alias)).Ok?
    ensures exists a ::
              AliasWritten(t.aliases, Exec(p, t, PutAlias(token, alias)).value.aliases, instance, alias, a)
  {
    hide Named, Having, AliasUnique, First;
    var rows := AliasRows(t.aliases, instance, NameOf(alias));
    var u := Exec(p, t, PutAlias(token, alias)).value;
    match Get(rows)
    case Found(a) =>
      RowWith(t.aliases, AliasKey, (instance, NameOf(alias)), a);
      assert AliasWritten(t.aliases, u.aliases, instance, alias, a);
    case Missing => assert AliasWritten(t.aliases, u.aliases, instance, alias, t.nextId);
    case Many =>
  }

  method UpdateOrCreateAlias(db: Database, p: Place, token: string, alias: StagingAlias,
                             instance: nat) returns (r: Result<(), Error>)
    requires Named(p, db.tables.instances, token) == Ok(instance)
    modifies db
    ensures Does(db.tables, r, Exec(p, old(db.tables), PutAlias(token, alias)))
  {
    hide Named, Having, AliasUnique;
    var name := if Truthy(alias.name) then alias.name.value else alias.id;
    var rows := AliasRows(db.tables.aliases, instance, name);
    match Get(rows) {
      case Found(a) =>
        RowWith(db.tables.aliases, AliasKey, (instance, name), a);
        if alias.challenge.None? {
          return Err(Integrity);
        }
        var row := db.tables.aliases[a];
        row := row.(host := Some(alias.host), port := alias.port, ssl := alias.ssl);
        row := row.(path := alias.path, kind := alias.kind, challenge := alias.challenge.value);
        if !AliasUnique(db.tables.aliases, a, row) {
          return Err(Integrity);
        }
        db.tables := db.tables.(aliases := db.tables.aliases[a := row]);
        return Ok(());
      case Missing =>
        if alias.challenge.None? {
          return Err(Integrity);
        }
        var a := db.tables.nextId;
        var row := Alias(instance, name, Some(alias.host), alias.port, alias.ssl, alias.path, alias.kind,
                         alias.challenge.value);
        if !AliasUnique(db.tables.aliases, a, row) {
          return Err(Integrity);
        }
        db.tables := db.tables.(nextId := a + 1, aliases := db.tables.aliases[a := row]);
        return Ok(());
      case Many =>
        return Err(Ambiguous);
    }
  }

  // ---- The loops -------------------------------------------------------------------------------------------

  lemma {:induction false} DoomedCommands(p: Place, t: Tables, commands: seq<Command>, n: nat, e: Error)
    requires n <= |commands| && ExecAll(p, t, commands[..n]) == Err(e)
    ensures ExecAll(p, t, commands) == Err(e)
  {
    hide Exec;
    if n == |commands| {
      assert commands[..n] == commands;
    } else {
      assert commands[..|commands| - 1][..n] == commands[..n];
      DoomedCommands(p, t, commands[..|commands| - 1], n, e);
    }
  }

  lemma NextCommand(p: Place, t: Tables, u: Tables, commands: seq<Command>, k: nat)
    requires k < |commands| && ExecAll(p, t, commands[..k]) == Ok(u)
    ensures ExecAll(p, t, commands[..k + 1]) == Exec(p, u, commands[k])
  {
    hide Exec;
    var upTo := commands[..k + 1];
    assert upTo[..|upTo| - 1] == commands[..k] && upTo[|upTo| - 1] == commands[k];
  }

  lemma {:induction false} ExecAllSplit(p: Place, t: Tables, a: seq<Command>, b: seq<Command>)
    ensures ExecAll(p, t, a + b) == match ExecAll(p, t, a)
                                    case Ok(u) => ExecAll(p, u, b)
                                    case Err(e) => Err(e)
  {
    hide Exec;
    if b == [] {
      assert a + b == a;
    } else {
      var n := |b| - 1;
      assert (a + b)[..|a + b| - 1] == a + b[..n];
      ExecAllSplit(p, t, a, b[..n]);
    }
  }

  /** Using a role, a scope or placing an alias leaves the instances as they are. */
  lemma SameInstances(p: Place, t: Tables, command: Command)
    requires !command.Deploy? && Exec(p, t, command).Ok?
    ensures Exec(p, t, command).value.instances == t.instances
  {
    hide Named, UseGrant, UpsertAlias;
  }

  method AddRoles(db: Database, p: Place, token: string, configs: seq<RoleConfig>,
                  instance: nat) returns (r: Result<(), Error>)
    requires Named(p, db.tables.instances, token) == Ok(instance)
    modifies db
    ensures Does(db.tables, r, ExecAll(p, old(db.tables), UseRoles(token, configs)))
    ensures r.Ok? ==> db.tables.instances == old(db.tables).instances
  {
    hide Exec, Named;
    ghost var t, commands := db.tables, UseRoles(token, configs);
    for k := 0 to |configs|
      invariant ExecAll(p, t, commands[..k]) == Ok(db.tables)
      invariant db.tables.instances == t.instances
    {
      NextCommand(p, t, db.tables, commands, k);
      ghost var before := db.tables;
      r := AddRole(db, p, token, configs[k], instance);
      if r.Err? {
        DoomedCommands(p, t, commands, k + 1, r.error);
        return;
      }
      SameInstances(p, before, commands[k]);
    }
    assert commands[..|configs|] == commands;
    return Ok(());
  }

  method AddScopes(db: Database, p: Place, token: string, configs: seq<RoleConfig>,
                   instance: nat) returns (r: Result<(), Error>)
    requires Named(p, db.tables.instances, token) == Ok(instance)
    modifies db
    ensures Does(db.tables, r, ExecAll(p, old(db.tables), UseScopes(token, configs)))
    ensures r.Ok? ==> db.tables.instances == old(db.tables).instances
  {
    hide Exec, Named;
    ghost var t, commands := db.tables, UseScopes(token, configs);
    for k := 0 to |configs|
      invariant ExecAll(p, t, commands[..k]) == Ok(db.tables)
      invariant db.tables.instances == t.instances
    {
      NextCommand(p, t, db.tables, commands, k);
      ghost var before := db.tables;
      r := AddScope(db, p, token, configs[k], instance);
      if r.Err? {
        DoomedCommands(p, t, commands, k + 1, r.error);
        return;
      }
      SameInstances(p, before, commands[k]);
    }
    assert commands[..|configs|] == commands;
    return Ok(());
  }

  method PlaceAliases(db: Database, p: Place, token: string, aliases: seq<StagingAlias>,
                      instance: nat) returns (r: Result<(), Error>)
    requires Named(p, db.tables.instances, token) == Ok(instance)
    modifies db
    ensures Does(db.tables, r, ExecAll(p, old(db.tables), PutAliases(token, aliases)))
  {
    hide Exec, Named;
    ghost var t, commands := db.tables, PutAliases(token, aliases);
    for k := 0 to |aliases|
      invariant ExecAll(p, t, commands[..k]) == Ok(db.tables)
      invariant db.tables.instances == t.instances
    {
      NextCommand(p, t, db.tables, commands, k);
      ghost var before := db.tables;
      r := UpdateOrCreateAlias(db, p, token, aliases[k], instance);
      if r.Err? {
        DoomedCommands(p, t, commands, k + 1, r.error);
        return;
      }
      SameInstances(p, before, commands[k]);
    }
    assert commands[..|aliases|] == commands;
    return Ok(());
  }

  /** Deploying names the instance. */
  lemma DeployNames(p: Place, t: Tables, r: InstanceRequest)
    requires KeysDrawn(t) && DeployInstance(p, t, r).Ok?
    ensures Named(p, DeployInstance(p, t, r).value.0.instances, r.identifier) == Ok(DeployInstance(p, t, r).value.1)
    ensures KeysDrawn(DeployInstance(p, t, r).value.0)
  {
    hide EnsureService, EnsureServiceRelease, UpsertInstance, KeysDrawn;
    var (u, i) := DeployInstance(p, t, r).value;
    var x := DeployWrites(p, t, r);
    DeployedAt(p, t, r);
    NamedIs(p, u.instances, r.identifier);
  }

  lemma DeployedAt(p: Place, t: Tables, r: InstanceRequest)
    requires KeysDrawn(t) && DeployInstance(p, t, r).Ok?
    ensures InstanceRows(DeployInstance(p, t, r).value.0.instances, p.composition, r.identifier)
            == {DeployInstance(p, t, r).value.1}
  {
    hide EnsureService, EnsureServiceRelease, UpsertInstance, InstanceRows, Drawn, InstancePlaced;
    var (t1, service) := EnsureService(t, r.service).value;
    var (t2, release) := EnsureServiceRelease(t1, service, r.version).value;
    EnsuresService(t, r.service);
    DrawnLater(t.serviceReleases, t.nextId, t1.nextId);
    EnsuresServiceRelease(t1, service, r.version);
    DrawnLater(t.instances, t.nextId, t2.nextId);
    PlacesInstance(t2, p, release, r.identifier);
  }

  lemma CommandsOfSplit(p: Place, t: Tables, r: InstanceRequest)
    ensures ExecAll(p, t, CommandsOf(r)) == match Exec(p, t, Deploy(r))
              case Err(e) => Err(e)
              case Ok(t1) => match ExecAll(p, t1, UseRoles(r.identifier, r.roles))
                case Err(e) => Err(e)
                case Ok(t2) => match ExecAll(p, t2, UseScopes(r.identifier, r.scopes))
                  case Err(e) => Err(e)
                  case Ok(t3) => ExecAll(p, t3, PutAliases(r.identifier, r.aliases))
  {
    hide Exec, UseRoles, UseScopes, PutAliases;
    var a, b, c := [Deploy(r)], UseRoles(r.identifier, r.roles), UseScopes(r.identifier, r.scopes);
    assert a[..0] == [] && ExecAll(p, t, []) == Ok(t);
    assert ExecAll(p, t, a) == Exec(p, t, Deploy(r));
    ExecAllSplit(p, t, a, b);
    ExecAllSplit(p, t, a + b, c);
    ExecAllSplit(p, t, a + b + c, PutAliases(r.identifier, r.aliases));
  }

  /** One turn of the outer loop. */
  method ApplyRequest(db: Database, p: Place, request: InstanceRequest) returns (r: Result<(), Error>)
    requires KeysDrawn(db.tables)
    modifies db
    ensures Does(db.tables, r, ExecAll(p, old(db.tables), CommandsOf(request)))
  {
    hide Exec, ExecAll, Named, KeysDrawn, CommandsOf;
    ghost var t := db.tables;
    CommandsOfSplit(p, t, request);
    ExecDeploy(p, t, request);
    var instance :- DeployRequest(db, p, request);
    DeployNames(p, t, request);
    var _ :- AddRoles(db, p, request.identifier, request.roles, instance);
    var _ :- AddScopes(db, p, request.identifier, request.scopes, instance);
    r := PlaceAliases(db, p, request.identifier, request.aliases, instance);
  }

  lemma ExecDeploy(p: Place, t: Tables, r: InstanceRequest)
    ensures Exec(p, t, Deploy(r)) == match DeployInstance(p, t, r)
                                     case Ok((u, _)) => Ok(u)
                                     case Err(e) => Err(e)
  {
    hide DeployInstance;
  }

  lemma NextRequest(p: Place, t: Tables, u: Tables, requests: seq<InstanceRequest>, k: nat)
    requires k < |requests| && ExecAll(p, t, Commands(requests[..k])) == Ok(u)
    ensures ExecAll(p, t, Commands(requests[..k + 1])) == ExecAll(p, u, CommandsOf(requests[k]))
  {
    hide ExecAll, CommandsOf;
    var upTo := requests[..k + 1];
    assert upTo[..|upTo| - 1] == requests[..k] && upTo[|upTo| - 1] == requests[k];
    ExecAllSplit(p, t, Commands(requests[..k]), CommandsOf(requests[k]));
  }

  lemma {:induction false} DoomedRequests(p: Place, t: Tables, requests: seq<InstanceRequest>, n: nat, e: Error)
    requires n <= |requests| && ExecAll(p, t, Commands(requests[..n])) == Err(e)
    ensures ExecAll(p, t, Commands(requests)) == Err(e)
  {
    hide ExecAll, CommandsOf;
    if n == |requests| {
      assert requests[..n] == requests;
    } else {
      var before := requests[..|requests| - 1];
      assert before[..n] == requests[..n];
      DoomedRequests(p, t, before, n, e);
      ExecAllSplit(p, t, Commands(before), CommandsOf(requests[|requests| - 1]));
    }
  }

  /** `create_composition_from_manifest`: either all of the manifest, or nothing. */
  method CreateCompositionFromManifest(db: Database, m: CompositionManifest,
                                       organization: nat) returns (r: Result<nat, Error>)
    requires organization in db.tables.organizations && KeysDrawn(db.tables)
    modifies db
    ensures Atomic(old(db.tables), db.tables, r, Apply(db.w, old(db.tables), m, organization))
  {
    hide KeysDrawn, Apply;
    var savepoint := db.tables;
    r := ApplyManifest(db, m, organization);
    if r.Err? {
      db.tables := savepoint;
    }
  }

  method ApplyManifest(db: Database, m: CompositionManifest, organization: nat) returns (r: Result<nat, Error>)
    requires organization in db.tables.organizations && KeysDrawn(db.tables)
    modifies db
    ensures Follows(db.tables, r, Apply(db.w, old(db.tables), m, organization))
  {
    hide KeysDrawn, UpsertComposition, ExecAll, CommandsOf, Commands, Described, CompositionPlaced;
    ghost var t := db.tables;
    var c :- UpsertCompositionRow(db, m, organization);
    UpsertsComposition(db.w, t, m, organization);
    var p := Place(c, organization, db.tables.organizations[organization].owner);
    ghost var t1 := db.tables;
    NoCommands(p, t1, m.instances);
    for k := 0 to |m.instances|
      invariant ExecAll(p, t1, Commands(m.instances[..k])) == Ok(db.tables)
      invariant KeysDrawn(t1)
    {
      NextRequest(p, t1, db.tables, m.instances, k);
      ExecAllFrame(p, t1, Commands(m.instances[..k]));
      var done := ApplyRequest(db, p, m.instances[k]);
      if done.Err? {
        DoomedRequests(p, t1, m.instances, k + 1, done.error);
        return Err(done.error);
      }
    }
    assert m.instances[..|m.instances|] == m.instances;
    return Ok(c);
  }

  lemma NoCommands(p: Place, t: Tables, requests: seq<InstanceRequest>)
    ensures ExecAll(p, t, Commands(requests[..0])) == Ok(t)
  {
  }
}
