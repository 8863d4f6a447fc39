/** The keys that compositions are looked up by stay unique, so that no look-up meets two rows. */
module CompositionKeys {
  import opened Prelude
  import opened Rows
  import opened Compositions
  import opened CompositionLaws
  import opened CompositionTheorems
  import opened Invariants

  ghost predicate UniqueBy<T, K>(rows: map<nat, T>, key: T -> K) {
    forall a, b | a in rows && b in rows && key(rows[a]) == key(rows[b]) :: a == b
  }

  /** One row for each key of each table that a manifest writes. */
  ghost predicate UniqueKeys(t: Tables) {
    && UniqueBy(t.compositions, CompositionKey) && UniqueBy(t.services, ServiceKey)
    && UniqueBy(t.serviceReleases, ServiceReleaseKey) && UniqueBy(t.instances, InstanceKey)
    && UniqueBy(t.roles, GrantKey) && UniqueBy(t.scopes, GrantKey) && UniqueBy(t.aliases, AliasKey)
  }

  lemma PutUnique<T, K>(before: map<nat, T>, after: map<nat, T>, key: T -> K, k: K, id: nat)
    requires UniqueBy(before, key) && Having(after, key, k) == {id}
    requires after == before || (id in after && after == before[id := after[id]])
    ensures UniqueBy(after, key)
  {
    assert id in Having(after, key, k);
    forall a, b | a in after && b in after && key(after[a]) == key(after[b]) ensures a == b {
      if after != before && (a == id || b == id) {
        assert a in Having(after, key, k) && b in Having(after, key, k);
      }
    }
  }

  lemma FoundOnce<T, K>(rows: map<nat, T>, key: T -> K, k: K)
    requires UniqueBy(rows, key)
    ensures !Get(Having(rows, key, k)).Many?
  {
  }

  lemma DeployUnique(p: Place, t: Tables, u: Tables, r: InstanceRequest, x: Written)
    requires UniqueKeys(t) && Writes(p, t, u, Deploy(r), x)
    ensures UniqueKeys(u)
  {
    hide UniqueBy, Having, InstanceUnique;
    PutUnique(t.services, u.services, ServiceKey, r.service, x.s);
    PutUnique(t.serviceReleases, u.serviceReleases, ServiceReleaseKey, (x.s, r.version), x.release);
    PutUnique(t.instances, u.instances, InstanceKey, (p.composition, r.identifier), x.i);
  }

  lemma CommandUnique(p: Place, t: Tables, u: Tables, command: Command, x: Written)
    requires UniqueKeys(t) && Writes(p, t, u, command, x)
    ensures UniqueKeys(u)
  {
    hide UniqueBy, Having, InstanceUnique, AliasUnique, ServicesGrow, ServiceReleasesGrow, InstancePlaced;
    match command
    case Deploy(r) => DeployUnique(p, t, u, r, x);
    case UseRole(_, config) => PutUnique(t.roles, u.roles, GrantKey, (p.organization, config.key), x.g);
    case UseScope(_, config) => PutUnique(t.scopes, u.scopes, GrantKey, (p.organization, config.key), x.g);
    case PutAlias(_, alias) => PutUnique(t.aliases, u.aliases, AliasKey, (x.owner, NameOf(alias)), x.a);
  }

  lemma UseClear(rows: map<nat, Grant>, next: nat, organization: nat, config: RoleConfig, i: nat)
    requires UniqueBy(rows, GrantKey)
    ensures UseGrant(rows, next, organization, config, i) != Err(Ambiguous)
  {
    hide Having, UniqueBy, Get;
    FoundOnce(rows, GrantKey, (organization, config.key));
  }

  lemma PointClear(rows: map<nat, Alias>, next: nat, i: nat, alias: StagingAlias)
    requires UniqueBy(rows, AliasKey)
    ensures UpsertAlias(rows, next, i, alias) != Err(Ambiguous)
  {
    hide Having, UniqueBy, Get, AliasUnique;
    FoundOnce(rows, AliasKey, (i, NameOf(alias)));
  }

  lemma DeployClear(p: Place, t: Tables, r: InstanceRequest)
    requires KeysDrawn(t) && UniqueKeys(t)
    ensures DeployInstance(p, t, r) != Err(Ambiguous)
  {
    hide Having, UniqueBy, Get, InstanceUnique, Drawn;
    FoundOnce(t.services, ServiceKey, r.service);
    var (t1, s) := EnsureService(t, r.service).value;
    FoundOnce(t1.serviceReleases, ServiceReleaseKey, (s, r.version));
    FoundOnce(t1.instances, InstanceKey, (p.composition, r.identifier));
  }

  lemma ExecClear(p: Place, t: Tables, command: Command)
    requires KeysDrawn(t) && UniqueKeys(t)
    ensures Exec(p, t, command) != Err(Ambiguous)
  {
    hide UseGrant, UpsertAlias, DeployInstance, UniqueBy, KeysDrawn, Get, Having;
    match command
    case Deploy(r) => DeployClear(p, t, r);
    case UseRole(token, config) =>
      var i := Named(p, t.instances, token);
      if i.Ok? { UseClear(t.roles, t.nextId, p.organization, config, i.value); }
    case UseScope(token, config) =>
      var i := Named(p, t.instances, token);
      if i.Ok? { UseClear(t.scopes, t.nextId, p.organization, config, i.value); }
    case PutAlias(token, alias) =>
      var i := Named(p, t.instances, token);
      if i.Ok? { PointClear(t.aliases, t.nextId, i.value, alias); }
  }

  lemma {:induction false} ExecAllClear(p: Place, t: Tables, commands: seq<Command>)
    requires KeysDrawn(t) && UniqueKeys(t)
    ensures match ExecAll(p, t, commands)
            case Ok(u) => UniqueKeys(u) && KeysDrawn(u) && t.nextId <= u.nextId
            case Err(e) => e != Ambiguous
  {
    hide KeysDrawn, UniqueKeys, Exec, Writes;
    if commands != [] {
      var n := |commands| - 1;
      ExecAllClear(p, t, commands[..n]);
      var before := ExecAll(p, t, commands[..n]);
      if before.Ok? {
        ExecClear(p, before.value, commands[n]);
        if Exec(p, before.value, commands[n]).Ok? {
          var x := ExecWrites(p, before.value, commands[n]);
          CommandUnique(p, before.value, ExecAll(p, t, commands).value, commands[n], x);
        }
      }
    }
  }

  lemma UpsertClear(w: Crypto, t: Tables, m: CompositionManifest, organization: nat)
    requires KeysDrawn(t) && UniqueKeys(t) && organization in t.organizations
    ensures UpsertComposition(w, t, m, organization).Ok? && UniqueKeys(UpsertComposition(w, t, m, organization).value.0)
  {
    hide UniqueBy, Having, Get, Described, KeysDrawn;
    FoundOnce(t.compositions, CompositionKey, (organization, m.identifier));
    UpsertsComposition(w, t, m, organization);
    var (u, c) := UpsertComposition(w, t, m, organization).value;
    PutUnique(t.compositions, u.compositions, CompositionKey, (organization, m.identifier), c);
  }

  /** Keys stay unique, and no look-up of a manifest's application meets two rows. */
  lemma ApplyClear(w: Crypto, t: Tables, m: CompositionManifest, organization: nat)
    requires KeysDrawn(t) && UniqueKeys(t) && organization in t.organizations
    ensures match Apply(w, t, m, organization)
            case Ok((u, _)) => UniqueKeys(u)
            case Err(e) => e != Ambiguous
  {
    hide KeysDrawn, UniqueKeys, UpsertComposition, ExecAll, Commands, CompositionPlaced;
    UpsertClear(w, t, m, organization);
    UpsertsComposition(w, t, m, organization);
    var (t1, c) := UpsertComposition(w, t, m, organization).value;
    ExecAllClear(PlaceOf(t, c, organization), t1, Commands(m.instances));
  }
}
