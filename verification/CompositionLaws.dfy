/** What applying a composition manifest establishes, that applying it again changes nothing, and
    what it leaves alone. */
module CompositionLaws {
  import opened Prelude
  import opened Rows
  import opened Compositions
  import opened Invariants

  /** No primary key of these tables has yet to be drawn. */
  ghost predicate KeysDrawn(t: Tables) {
    && Drawn(t.compositions, t.nextId) && Drawn(t.services, t.nextId) && Drawn(t.serviceReleases, t.nextId)
    && Drawn(t.instances, t.nextId) && Drawn(t.roles, t.nextId) && Drawn(t.scopes, t.nextId)
       && Drawn(t.aliases, t.nextId)
  }

  // ---- What a command asks for -------------------------------------------------------------------------

  ghost predicate IsDeployed(p: Place, services: map<nat, Service>, releases: map<nat, ServiceRelease>,
                             instances: map<nat, Instance>, r: InstanceRequest, s: nat, release: nat, i: nat) {
    && ServiceRows(services, r.service) == {s}
    && ServiceReleaseRows(releases, s, r.version) == {release}
    && InstanceRows(instances, p.composition, r.identifier) == {i}
    && i in instances
    && instances[i].release == release && instances[i].steward == p.owner && instances[i].organization == p.organization
    && instances[i].template == "{}" && instances[i].instanceId == r.identifier
    && InstanceUnique(instances, i, instances[i])
  }

  ghost predicate IsUsed(p: Place, instances: map<nat, Instance>, grants: map<nat, Grant>, token: string,
                         config: RoleConfig, i: nat, g: nat) {
    && InstanceRows(instances, p.composition, token) == {i}
    && GrantRows(grants, p.organization, config.key) == {g}
    && g in grants && i in grants[g].usedBy
  }

  ghost predicate IsPointed(p: Place, instances: map<nat, Instance>, aliases: map<nat, Alias>, token: string,
                            alias: StagingAlias, i: nat, a: nat) {
    && InstanceRows(instances, p.composition, token) == {i}
    && AliasRows(aliases, i, NameOf(alias)) == {a}
    && a in aliases
    && aliases[a].host == Some(alias.host) && aliases[a].port == alias.port && aliases[a].ssl == alias.ssl
    && aliases[a].path == alias.path && aliases[a].kind == alias.kind && Some(aliases[a].challenge) == alias.challenge
    && AliasUnique(aliases, a, aliases[a])
  }

  /** The store is as the command would leave it. */
  ghost predicate Holds(p: Place, t: Tables, command: Command) {
    match command
    case Deploy(r) => exists s, release, i ::
        IsDeployed(p, t.services, t.serviceReleases, t.instances, r, s, release, i)
    case UseRole(token, config) => exists i, g :: IsUsed(p, t.instances, t.roles, token, config, i, g)
    case UseScope(token, config) => exists i, g :: IsUsed(p, t.instances, t.scopes, token, config, i, g)
    case PutAlias(token, alias) => exists i, a :: IsPointed(p, t.instances, t.aliases, token, alias, i, a)
  }

  // ---- A command that holds changes nothing -------------------------------------------------------------

  lemma NamedIs(p: Place, rows: map<nat, Instance>, token: string)
    ensures Named(p, rows, token).Ok? ==> InstanceRows(rows, p.composition, token) == {Named(p, rows, token).value}
    ensures forall i :: InstanceRows(rows, p.composition, token) == {i} ==> Named(p, rows, token) == Ok(i)
  {
    hide InstanceRows;
    forall i | InstanceRows(rows, p.composition, token) == {i} ensures Named(p, rows, token) == Ok(i) {
      GetSingle(InstanceRows(rows, p.composition, token), i);
    }
  }

  lemma GetSingle(ids: set<nat>, i: nat)
    requires ids == {i}
    ensures Get(ids) == Found(i)
  {
  }

  lemma SameRow<T>(rows: map<nat, T>, i: nat, row: T)
    requires i in rows && rows[i] == row
    ensures rows[i := row] == rows
  {
  }

  lemma DeployHolds(p: Place, t: Tables, r: InstanceRequest, s: nat, release: nat, i: nat)
    requires IsDeployed(p, t.services, t.serviceReleases, t.instances, r, s, release, i)
    ensures Exec(p, t, Deploy(r)) == Ok(t)
  {
    hide Having, InstanceUnique, Get;
    GetSingle(ServiceRows(t.services, r.service), s);
    GetSingle(ServiceReleaseRows(t.serviceReleases, s, r.version), release);
    GetSingle(InstanceRows(t.instances, p.composition, r.identifier), i);
    SameRow(t.instances, i, t.instances[i]);
  }

  lemma UseHolds(p: Place, instances: map<nat, Instance>, grants: map<nat, Grant>, next: nat, token: string,
                 config: RoleConfig, i: nat, g: nat)
    requires IsUsed(p, instances, grants, token, config, i, g)
    ensures Named(p, instances, token) == Ok(i)
    ensures UseGrant(grants, next, p.organization, config, i) == Ok((grants, next))
  {
    hide Having, Get;
    GetSingle(InstanceRows(instances, p.composition, token), i);
    GetSingle(GrantRows(grants, p.organization, config.key), g);
    assert grants[g].usedBy + {i} == grants[g].usedBy;
    SameRow(grants, g, grants[g]);
  }

  lemma PointHolds(p: Place, instances: map<nat, Instance>, aliases: map<nat, Alias>, next: nat, token: string,
                   alias: StagingAlias, i: nat, a: nat)
    requires IsPointed(p, instances, aliases, token, alias, i, a)
    ensures Named(p, instances, token) == Ok(i)
    ensures UpsertAlias(aliases, next, i, alias) == Ok((aliases, next))
  {
    hide Having, AliasUnique, Get;
    GetSingle(InstanceRows(instances, p.composition, token), i);
    GetSingle(AliasRows(aliases, i, NameOf(alias)), a);
    SameRow(aliases, a, aliases[a]);
  }

  lemma HoldsChangesNothing(p: Place, t: Tables, command: Command)
    requires Holds(p, t, command)
    ensures Exec(p, t, command) == Ok(t)
  {
    hide IsDeployed, IsUsed, IsPointed, UseGrant, UpsertAlias, Named, DeployInstance;
    match command
    case Deploy(r) =>
      var s, release, i :| IsDeployed(p, t.services, t.serviceReleases, t.instances, r, s, release, i);
      DeployHolds(p, t, r, s, release, i);
    case UseRole(token, config) =>
      var i, g :| IsUsed(p, t.instances, t.roles, token, config, i, g);
      UseHolds(p, t.instances, t.roles, t.nextId, token, config, i, g);
    case UseScope(token, config) =>
      var i, g :| IsUsed(p, t.instances, t.scopes, token, config, i, g);
      UseHolds(p, t.instances, t.scopes, t.nextId, token, config, i, g);
    case PutAlias(token, alias) =>
      var i, a :| IsPointed(p, t.instances, t.aliases, token, alias, i, a);
      PointHolds(p, t.instances, t.aliases, t.nextId, token, alias, i, a);
  }

  // ---- How a table changes ------------------------------------------------------------------------------

  /** Writing the only row with a key: that key has this row, and no other key notices. */
  lemma Put<T, K>(rows: map<nat, T>, key: T -> K, id: nat, row: T)
    requires Having(rows, key, key(row)) <= {id}
    requires id in rows ==> key(rows[id]) == key(row)
    ensures Having(rows[id := row], key, key(row)) == {id}
    ensures forall k :: k != key(row) ==> Having(rows[id := row], key, k) == Having(rows, key, k)
  {
    var after := rows[id := row];
    assert forall o :: o in Having(after, key, key(row)) && o != id ==> o in Having(rows, key, key(row));
    assert id in Having(after, key, key(row));
    forall k | k != key(row) ensures Having(after, key, k) == Having(rows, key, k) {
      assert forall o :: o in Having(after, key, k) <==> o in Having(rows, key, k);
    }
  }

  lemma RowWith<T, K>(rows: map<nat, T>, key: T -> K, k: K, id: nat)
    requires Having(rows, key, k) == {id}
    ensures id in rows && key(rows[id]) == k
  {
    assert id in Having(rows, key, k);
  }

  lemma NoRowWith<T, K>(rows: map<nat, T>, key: T -> K, k: K)
    requires Having(rows, key, k) == {}
    ensures forall id :: id in rows ==> key(rows[id]) != k
  {
    assert forall id :: id in rows && key(rows[id]) == k ==> id in Having(rows, key, k);
  }

  /** A row that was unique stays so when a row that is unique is written beside it. */
  lemma InstanceStaysUnique(rows: map<nat, Instance>, i: nat, o: nat, row: Instance)
    requires i in rows && o != i && InstanceUnique(rows, i, rows[i]) && InstanceUnique(rows, o, row)
    ensures InstanceUnique(rows[o := row], i, rows[i])
  {
    var mine := rows[i];
    assert !(mine.token == row.token && mine.composition == row.composition);
  }

  lemma AliasStaysUnique(rows: map<nat, Alias>, a: nat, o: nat, row: Alias)
    requires a in rows && o != a && AliasUnique(rows, a, rows[a]) && AliasUnique(rows, o, row)
    ensures AliasUnique(rows[o := row], a, rows[a])
  {
    var mine := rows[a];
    assert !(&& row.host.Some? && row.port.Some? && row.path.Some?
             && mine.instance == row.instance && mine.host == row.host && mine.port == row.port
             && mine.ssl == row.ssl && mine.path == row.path && mine.kind == row.kind);
  }

  lemma UniqueAfterPut(instances: map<nat, Instance>, i: nat, row: Instance)
    requires InstanceUnique(instances, i, row)
    ensures InstanceUnique(instances[i := row], i, row)
  {
  }

  lemma AliasUniqueAfterPut(rows: map<nat, Alias>, a: nat, row: Alias)
    requires AliasUnique(rows, a, row)
    ensures AliasUnique(rows[a := row], a, row)
  {
  }

  lemma NewInstanceUnique(p: Place, rows: map<nat, Instance>, i: nat, release: nat, token: string)
    requires InstanceRows(rows, p.composition, token) == {}
    ensures InstanceUnique(rows, i, NewInstance(p, release, token))
  {
    NoRowWith(rows, InstanceKey, (p.composition, token));
  }

  // ---- What one command writes ----------------------------------------------------------------------------

  /** Only the service called for may be new. */
  ghost predicate ServicesGrow(before: map<nat, Service>, after: map<nat, Service>, next: nat, identifier: string,
                               s: nat) {
    && ServiceRows(after, identifier) == {s}
    && ((ServiceRows(before, identifier) == {s} && after == before)
        || (ServiceRows(before, identifier) == {} && s == next && after == before[next := Service(identifier)]))
  }

  ghost predicate ServiceReleasesGrow(before: map<nat, ServiceRelease>, after: map<nat, ServiceRelease>, next: nat,
                                      s: nat, version: string, r: nat) {
    && ServiceReleaseRows(after, s, version) == {r}
    && ((ServiceReleaseRows(before, s, version) == {r} && after == before)
        || (ServiceReleaseRows(before, s, version) == {} && r == next
            && after == before[next := ServiceRelease(s, version)]))
  }

  ghost predicate InstancePlaced(p: Place, before: map<nat, Instance>, after: map<nat, Instance>, next: nat,
                                 release: nat, token: string, i: nat) {
    && i in after && after == before[i := after[i]] && InstanceUnique(before, i, after[i])
    && (if i in before
        then InstanceRows(before, p.composition, token) == {i} && after[i] == Deployed(p, before[i], release, token)
        else && InstanceRows(before, p.composition, token) == {} && i == next
             && after[i] == NewInstance(p, release, token))
  }

  lemma GetRows(ids: set<nat>)
    ensures Get(ids).Found? ==> ids == {Get(ids).id}
    ensures Get(ids).Missing? ==> ids == {}
  {
  }

  lemma EnsuresService(t: Tables, identifier: string)
    requires Drawn(t.services, t.nextId) && EnsureService(t, identifier).Ok?
    ensures var (u, s) := EnsureService(t, identifier).value;
            ServicesGrow(t.services, u.services, t.nextId, identifier, s) && u.nextId >= t.nextId
                && Drawn(u.services, u.nextId)
  {
    hide Having, First, Get;
    GetRows(ServiceRows(t.services, identifier));
    if Get(ServiceRows(t.services, identifier)).Missing? {
      Put(t.services, ServiceKey, t.nextId, Service(identifier));
    }
  }

  lemma EnsuresServiceRelease(t: Tables, s: nat, version: string)
    requires Drawn(t.serviceReleases, t.nextId) && EnsureServiceRelease(t, s, version).Ok?
    ensures var (u, r) := EnsureServiceRelease(t, s, version).value;
            && ServiceReleasesGrow(t.serviceReleases, u.serviceReleases, t.nextId, s, version, r)
            && u.nextId >= t.nextId && Drawn(u.serviceReleases, u.nextId)
  {
    hide Having, First, Get;
    GetRows(ServiceReleaseRows(t.serviceReleases, s, version));
    if Get(ServiceReleaseRows(t.serviceReleases, s, version)).Missing? {
      Put(t.serviceReleases, ServiceReleaseKey, t.nextId, ServiceRelease(s, version));
    }
  }

  lemma PlacesInstance(t: Tables, p: Place, release: nat, token: string)
    requires Drawn(t.instances, t.nextId) && UpsertInstance(t, p, release, token).Ok?
    ensures var (u, i) := UpsertInstance(t, p, release, token).value;
            && InstancePlaced(p, t.instances, u.instances, t.nextId, release, token, i)
            && InstanceRows(u.instances, p.composition, token) == {i}
            && u.nextId >= t.nextId && Drawn(u.instances, u.nextId)
  {
    hide Having, InstanceUnique, First, Get;
    var rows := InstanceRows(t.instances, p.composition, token);
    GetRows(rows);
    match Get(rows)
    case Found(i) =>
      RowWith(t.instances, InstanceKey, (p.composition, token), i);
      Put(t.instances, InstanceKey, i, Deployed(p, t.instances[i], release, token));
    case Missing =>
      NewInstanceUnique(p, t.instances, t.nextId, release, token);
      Put(t.instances, InstanceKey, t.nextId, NewInstance(p, release, token));
    case Many =>
  }

  ghost predicate GrantUsed(before: map<nat, Grant>, after: map<nat, Grant>, next: nat, organization: nat,
                            config: RoleConfig, i: nat, g: nat) {
    && GrantRows(after, organization, config.key) == {g}
    && g in after && after == before[g := after[g]]
    && (if g in before
        then && GrantRows(before, organization, config.key) == {g}
             && after[g] == before[g].(usedBy := before[g].usedBy + {i})
        else && GrantRows(before, organization, config.key) == {} && g == next
             && after[g] == Grant(organization, config.key, config.description, Some(i), {i}))
  }

  ghost predicate AliasPlaced(before: map<nat, Alias>, after: map<nat, Alias>, next: nat, i: nat, alias: StagingAlias,
                              a: nat) {
    && alias.challenge.Some?
    && AliasRows(after, i, NameOf(alias)) == {a}
    && a in after && after == before[a := after[a]] && AliasUnique(before, a, after[a])
    && after[a] == Pointed(after[a], alias, alias.challenge.value)
    && after[a].instance == i && after[a].name == NameOf(alias)
    && (if a in before then AliasRows(before, i, NameOf(alias)) == {a}
        else AliasRows(before, i, NameOf(alias)) == {} && a == next)
  }

  lemma UsesGrant(rows: map<nat, Grant>, next: nat, organization: nat, config: RoleConfig, i: nat) returns (g: nat)
    requires Drawn(rows, next) && UseGrant(rows, next, organization, config, i).Ok?
    ensures var (after, later) := UseGrant(rows, next, organization, config, i).value;
            GrantUsed(rows, after, next, organization, config, i, g) && Drawn(after, later) && next <= later
  {
    hide Having, First, Get;
    var found := GrantRows(rows, organization, config.key);
    GetRows(found);
    match Get(found)
    case Found(id) =>
      g := id;
      RowWith(rows, GrantKey, (organization, config.key), g);
      Put(rows, GrantKey, g, rows[g].(usedBy := rows[g].usedBy + {i}));
    case Missing =>
      g := next;
      Put(rows, GrantKey, g, Grant(organization, config.key, config.description, Some(i), {i}));
    case Many =>
  }

  lemma PlacesAlias(rows: map<nat, Alias>, next: nat, i: nat, alias: StagingAlias) returns (a: nat)
    requires Drawn(rows, next) && UpsertAlias(rows, next, i, alias).Ok?
    ensures var (after, later) := UpsertAlias(rows, next, i, alias).value;
            AliasPlaced(rows, after, next, i, alias, a) && Drawn(after, later) && next <= later
  {
    hide Having, First, Get, AliasUnique;
    var found := AliasRows(rows, i, NameOf(alias));
    GetRows(found);
    match Get(found)
    case Found(id) =>
      a := id;
      RowWith(rows, AliasKey, (i, NameOf(alias)), a);
      Put(rows, AliasKey, a, Pointed(rows[a], alias, alias.challenge.value));
    case Missing =>
      a := next;
      Put(rows, AliasKey, a, UpsertAlias(rows, next, i, alias).value.0[next]);
    case Many =>
  }

  /** What one successful command does; the witnesses say to which rows. */
  datatype Written =
    | WroteInstance(s: nat, release: nat, i: nat, releaseKey: nat, instanceKey: nat)
    | WroteGrant(user: nat, g: nat)
    | WroteAlias(owner: nat, a: nat)

  ghost predicate Writes(p: Place, t: Tables, u: Tables, command: Command, x: Written) {
    match command
    case Deploy(r) =>
      && x.WroteInstance? && t.nextId <= x.releaseKey <= x.instanceKey
      && u == t.(nextId := u.nextId, services := u.services, serviceReleases := u.serviceReleases,
                 instances := u.instances)
      && ServicesGrow(t.services, u.services, t.nextId, r.service, x.s)
      && ServiceReleasesGrow(t.serviceReleases, u.serviceReleases, x.releaseKey, x.s, r.version, x.release)
      && InstancePlaced(p, t.instances, u.instances, x.instanceKey, x.release, r.identifier, x.i)
      && InstanceRows(u.instances, p.composition, r.identifier) == {x.i}
    case UseRole(token, config) =>
      && x.WroteGrant? && u == t.(nextId := u.nextId, roles := u.roles)
      && InstanceRows(t.instances, p.composition, token) == {x.user}
      && GrantUsed(t.roles, u.roles, t.nextId, p.organization, config, x.user, x.g)
    case UseScope(token, config) =>
      && x.WroteGrant? && u == t.(nextId := u.nextId, scopes := u.scopes)
      && InstanceRows(t.instances, p.composition, token) == {x.user}
      && GrantUsed(t.scopes, u.scopes, t.nextId, p.organization, config, x.user, x.g)
    case PutAlias(token, alias) =>
      && x.WroteAlias? && u == t.(nextId := u.nextId, aliases := u.aliases)
      && InstanceRows(t.instances, p.composition, token) == {x.owner}
      && AliasPlaced(t.aliases, u.aliases, t.nextId, x.owner, alias, x.a)
  }

  lemma DeployWrites(p: Place, t: Tables, r: InstanceRequest) returns (x: Written)
    requires KeysDrawn(t) && DeployInstance(p, t, r).Ok?
    ensures Writes(p, t, DeployInstance(p, t, r).value.0, Deploy(r), x)
    ensures KeysDrawn(DeployInstance(p, t, r).value.0) && t.nextId <= DeployInstance(p, t, r).value.0.nextId
  {
    hide EnsureService, EnsureServiceRelease, UpsertInstance, ServicesGrow, ServiceReleasesGrow, InstancePlaced,
      InstanceRows, Drawn;
    var (t1, s) := EnsureService(t, r.service).value;
    EnsuresService(t, r.service);
    var (t2, release) := EnsureServiceRelease(t1, s, r.version).value;
    LaterKeys(t, t1.nextId);
    EnsuresServiceRelease(t1, s, r.version);
    var (t3, i) := UpsertInstance(t2, p, release, r.identifier).value;
    LaterKeys(t, t2.nextId);
    PlacesInstance(t2, p, release, r.identifier);
    LaterKeys(t, t3.nextId);
    DrawnLater(t3.services, t1.nextId, t3.nextId);
    DrawnLater(t3.serviceReleases, t2.nextId, t3.nextId);
    x := WroteInstance(s, release, i, t1.nextId, t2.nextId);
  }

  lemma LaterKeys(t: Tables, later: nat)
    requires KeysDrawn(t) && t.nextId <= later
    ensures KeysDrawn(t.(nextId := later))
  {
  }

  lemma ExecWrites(p: Place, t: Tables, command: Command) returns (x: Written)
    requires KeysDrawn(t) && Exec(p, t, command).Ok?
    ensures Writes(p, t, Exec(p, t, command).value, command, x)
    ensures KeysDrawn(Exec(p, t, command).value) && t.nextId <= Exec(p, t, command).value.nextId
  {
    hide DeployInstance, UseGrant, UpsertAlias, Named, GrantUsed, AliasPlaced, InstanceRows, Drawn;
    var u := Exec(p, t, command).value;
    match command
    case Deploy(r) =>
      x := DeployWrites(p, t, r);
    case UseRole(token, config) =>
      NamedIs(p, t.instances, token);
      var i := Named(p, t.instances, token).value;
      var g := UsesGrant(t.roles, t.nextId, p.organization, config, i);
      x := WroteGrant(i, g);
      LaterKeys(t, u.nextId);
    case UseScope(token, config) =>
      NamedIs(p, t.instances, token);
      var i := Named(p, t.instances, token).value;
      var g := UsesGrant(t.scopes, t.nextId, p.organization, config, i);
      x := WroteGrant(i, g);
      LaterKeys(t, u.nextId);
    case PutAlias(token, alias) =>
      NamedIs(p, t.instances, token);
      var i := Named(p, t.instances, token).value;
      var a := PlacesAlias(t.aliases, t.nextId, i, alias);
      x := WroteAlias(i, a);
      LaterKeys(t, u.nextId);
  }

  // ---- A command that was executed holds, and goes on holding ---------------------------------------------

  lemma ExecHolds(p: Place, t: Tables, u: Tables, command: Command, x: Written)
    requires Writes(p, t, u, command, x)
    ensures Holds(p, u, command)
  {
    hide InstanceRows, ServiceRows, ServiceReleaseRows, GrantRows, AliasRows, InstanceUnique, AliasUnique;
    match command
    case Deploy(r) =>
      UniqueAfterPut(t.instances, x.i, u.instances[x.i]);
      assert IsDeployed(p, u.services, u.serviceReleases, u.instances, r, x.s, x.release, x.i);
    case UseRole(token, config) =>
      assert IsUsed(p, u.instances, u.roles, token, config, x.user, x.g);
    case UseScope(token, config) =>
      assert IsUsed(p, u.instances, u.scopes, token, config, x.user, x.g);
    case PutAlias(token, alias) =>
      AliasUniqueAfterPut(t.aliases, x.a, u.aliases[x.a]);
      assert IsPointed(p, u.instances, u.aliases, token, alias, x.owner, x.a);
  }

  lemma ServicesStay(before: map<nat, Service>, after: map<nat, Service>, next: nat, other: string, o: nat,
                     identifier: string, s: nat)
    requires ServicesGrow(before, after, next, other, o) && Drawn(before, next)
             && ServiceRows(before, identifier) == {s}
    ensures ServiceRows(after, identifier) == {s}
  {
    hide Having;
    if after != before { Put(before, ServiceKey, next, Service(other)); }
  }

  lemma ServiceReleasesStay(before: map<nat, ServiceRelease>, after: map<nat, ServiceRelease>, next: nat, os: nat,
                            ov: string, o: nat, s: nat, version: string, r: nat)
    requires ServiceReleasesGrow(before, after, next, os, ov, o) && Drawn(before, next)
             && ServiceReleaseRows(before, s, version) == {r}
    ensures ServiceReleaseRows(after, s, version) == {r}
  {
    hide Having;
    if after != before { Put(before, ServiceReleaseKey, next, ServiceRelease(os, ov)); }
  }

  /** Instances keep their tokens; those with another token keep their rows. */
  lemma InstancesStay(p: Place, before: map<nat, Instance>, after: map<nat, Instance>, next: nat, release: nat,
                      other: string, o: nat, token: string, i: nat)
    requires InstancePlaced(p, before, after, next, release, other, o)
             && InstanceRows(before, p.composition, token) == {i}
    ensures InstanceRows(after, p.composition, token) == {i} && i in before && i in after
    ensures token != other ==> o != i && after[i] == before[i]
  {
    hide Having, InstanceUnique;
    RowWith(before, InstanceKey, (p.composition, token), i);
    if o in before { RowWith(before, InstanceKey, (p.composition, other), o); }
    Put(before, InstanceKey, o, after[o]);
    if o !in before && o == i { NoRowWith(before, InstanceKey, (p.composition, other)); }
  }

  lemma GrantsStay(before: map<nat, Grant>, after: map<nat, Grant>, next: nat, organization: nat, other: RoleConfig,
                   j: nat, o: nat, key: string, i: nat, g: nat)
    requires GrantUsed(before, after, next, organization, other, j, o)
    requires GrantRows(before, organization, key) == {g} && g in before && i in before[g].usedBy
    ensures GrantRows(after, organization, key) == {g} && g in after && i in after[g].usedBy
  {
    hide Having;
    if o in before { RowWith(before, GrantKey, (organization, other.key), o); }
    Put(before, GrantKey, o, after[o]);
  }

  lemma AliasesStay(before: map<nat, Alias>, after: map<nat, Alias>, next: nat, j: nat, other: StagingAlias, o: nat,
                    i: nat, name: string, a: nat)
    requires AliasPlaced(before, after, next, j, other, o) && Drawn(before, next)
    requires AliasRows(before, i, name) == {a} && (i, name) != (j, NameOf(other)) && AliasUnique(before, a, before[a])
    ensures AliasRows(after, i, name) == {a} && a in before && a in after && after[a] == before[a]
            && AliasUnique(after, a, after[a])
  {
    hide Having, AliasUnique;
    RowWith(before, AliasKey, (i, name), a);
    if o in before { RowWith(before, AliasKey, (j, NameOf(other)), o); }
    Put(before, AliasKey, o, after[o]);
    AliasStaysUnique(before, a, o, after[o]);
  }

  /** Two commands of one manifest that do not fight over a row. */
  predicate Compatible(a: Command, b: Command) {
    && (a.Deploy? && b.Deploy? ==> a.request.identifier != b.request.identifier)
    && (a.PutAlias? && b.PutAlias? ==> a.token != b.token || NameOf(a.alias) != NameOf(b.alias))
  }

  lemma DeployedStays(p: Place, t: Tables, u: Tables, r: InstanceRequest, b: Command, x: Written, s: nat, release: nat,
                      i: nat)
    requires KeysDrawn(t) && Writes(p, t, u, b, x) && Compatible(Deploy(r), b)
    requires IsDeployed(p, t.services, t.serviceReleases, t.instances, r, s, release, i)
    ensures IsDeployed(p, u.services, u.serviceReleases, u.instances, r, s, release, i)
  {
    hide Having, InstanceUnique, Drawn, ServicesGrow, ServiceReleasesGrow, GrantUsed, AliasPlaced;
    if b.Deploy? {
      ServicesStay(t.services, u.services, t.nextId, b.request.service, x.s, r.service, s);
      DrawnLater(t.serviceReleases, t.nextId, x.releaseKey);
      ServiceReleasesStay(t.serviceReleases, u.serviceReleases, x.releaseKey, x.s, b.request.version, x.release, s,
                          r.version, release);
      InstancesStay(p, t.instances, u.instances, x.instanceKey, x.release, b.request.identifier, x.i, r.identifier, i);
      InstanceStaysUnique(t.instances, i, x.i, u.instances[x.i]);
    }
  }

  lemma NameStays(p: Place, t: Tables, u: Tables, token: string, b: Command, x: Written, i: nat)
    requires Writes(p, t, u, b, x) && InstanceRows(t.instances, p.composition, token) == {i}
    ensures InstanceRows(u.instances, p.composition, token) == {i}
  {
    hide Having, ServicesGrow, ServiceReleasesGrow, InstancePlaced, GrantUsed, AliasPlaced;
    if b.Deploy? {
      InstancesStay(p, t.instances, u.instances, x.instanceKey, x.release, b.request.identifier, x.i, token, i);
    }
  }

  lemma RoleStays(p: Place, t: Tables, u: Tables, token: string, config: RoleConfig, b: Command, x: Written, i: nat,
                  g: nat)
    requires Writes(p, t, u, b, x) && IsUsed(p, t.instances, t.roles, token, config, i, g)
    ensures IsUsed(p, u.instances, u.roles, token, config, i, g)
  {
    hide InstanceRows, GrantRows, ServicesGrow, ServiceReleasesGrow, InstancePlaced, GrantUsed, AliasPlaced;
    NameStays(p, t, u, token, b, x, i);
    if b.UseRole? {
      GrantsStay(t.roles, u.roles, t.nextId, p.organization, b.config, x.user, x.g, config.key, i, g);
    }
  }

  lemma ScopeStays(p: Place, t: Tables, u: Tables, token: string, config: RoleConfig, b: Command, x: Written, i: nat,
                   g: nat)
    requires Writes(p, t, u, b, x) && IsUsed(p, t.instances, t.scopes, token, config, i, g)
    ensures IsUsed(p, u.instances, u.scopes, token, config, i, g)
  {
    hide InstanceRows, GrantRows, ServicesGrow, ServiceReleasesGrow, InstancePlaced, GrantUsed, AliasPlaced;
    NameStays(p, t, u, token, b, x, i);
    if b.UseScope? {
      GrantsStay(t.scopes, u.scopes, t.nextId, p.organization, b.config, x.user, x.g, config.key, i, g);
    }
  }

  lemma PointedStays(p: Place, t: Tables, u: Tables, token: string, alias: StagingAlias, b: Command, x: Written,
                     i: nat, a: nat)
    requires KeysDrawn(t) && Writes(p, t, u, b, x) && Compatible(PutAlias(token, alias), b)
    requires IsPointed(p, t.instances, t.aliases, token, alias, i, a)
    ensures IsPointed(p, u.instances, u.aliases, token, alias, i, a)
  {
    hide Having, AliasUnique, Drawn, ServicesGrow, ServiceReleasesGrow, InstancePlaced, GrantUsed, AliasPlaced;
    NameStays(p, t, u, token, b, x, i);
    if b.PutAlias? {
      if b.token != token { OtherName(p, t.instances, token, i, b.token, x.owner); }
      AliasesStay(t.aliases, u.aliases, t.nextId, x.owner, b.alias, x.a, i, NameOf(alias), a);
    }
  }

  lemma OtherName(p: Place, rows: map<nat, Instance>, token: string, i: nat, other: string, j: nat)
    requires InstanceRows(rows, p.composition, token) == {i} && InstanceRows(rows, p.composition, other) == {j}
             && token != other
    ensures i != j
  {
    hide Having;
    RowWith(rows, InstanceKey, (p.composition, token), i);
    RowWith(rows, InstanceKey, (p.composition, other), j);
  }

  lemma HoldsStays(p: Place, t: Tables, u: Tables, a: Command, b: Command, x: Written)
    requires KeysDrawn(t) && Holds(p, t, a) && Writes(p, t, u, b, x) && Compatible(a, b)
    ensures Holds(p, u, a)
  {
    hide KeysDrawn, Writes, Compatible, IsDeployed, IsUsed, IsPointed;
    match a
    case Deploy(r) =>
      var s, release, i :| IsDeployed(p, t.services, t.serviceReleases, t.instances, r, s, release, i);
      DeployedStays(p, t, u, r, b, x, s, release, i);
    case UseRole(token, config) =>
      var i, g :| IsUsed(p, t.instances, t.roles, token, config, i, g);
      RoleStays(p, t, u, token, config, b, x, i, g);
    case UseScope(token, config) =>
      var i, g :| IsUsed(p, t.instances, t.scopes, token, config, i, g);
      ScopeStays(p, t, u, token, config, b, x, i, g);
    case PutAlias(token, alias) =>
      var i, k :| IsPointed(p, t.instances, t.aliases, token, alias, i, k);
      PointedStays(p, t, u, token, alias, b, x, i, k);
  }

  // ---- Whole manifests --------------------------------------------------------------------------------------

  predicate AllCompatible(commands: seq<Command>) {
    forall j, k :: 0 <= j < k < |commands| ==> Compatible(commands[j], commands[k])
  }

  ghost predicate AllHold(p: Place, t: Tables, commands: seq<Command>) {
    forall k :: 0 <= k < |commands| ==> Holds(p, t, commands[k])
  }

  lemma {:induction false} ExecAllHolds(p: Place, t: Tables, commands: seq<Command>)
    requires KeysDrawn(t) && AllCompatible(commands) && ExecAll(p, t, commands).Ok?
    ensures AllHold(p, ExecAll(p, t, commands).value, commands) && KeysDrawn(ExecAll(p, t, commands).value)
  {
    hide KeysDrawn, Holds, Compatible, Exec, Writes;
    if commands != [] {
      var n := |commands| - 1;
      var before, last := commands[..n], commands[n];
      ExecAllHolds(p, t, before);
      var v, u := ExecAll(p, t, before).value, ExecAll(p, t, commands).value;
      var x := ExecWrites(p, v, last);
      ExecHolds(p, v, u, last, x);
      forall k | 0 <= k < |commands| ensures Holds(p, u, commands[k]) {
        if k < n {
          assert Holds(p, v, before[k]);
          HoldsStays(p, v, u, commands[k], last, x);
        }
      }
    }
  }

  lemma {:induction false} AllHoldChangesNothing(p: Place, t: Tables, commands: seq<Command>)
    requires AllHold(p, t, commands)
    ensures ExecAll(p, t, commands) == Ok(t)
  {
    hide Holds, Exec;
    if commands != [] {
      var n := |commands| - 1;
      AllHoldChangesNothing(p, t, commands[..n]);
      HoldsChangesNothing(p, t, commands[n]);
    }
  }
}
