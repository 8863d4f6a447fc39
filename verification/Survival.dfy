/** What becomes of a composition when another one is applied or deleted. */
module Survival {
  import opened Prelude
  import opened Rows
  import opened Compositions
  import opened CompositionKeys
  import opened CompositionLaws
  import opened CompositionTheorems
  import opened CompositionFrames
  import opened Cascade
  import opened Partners
  import opened Histories
  import opened Invariants

  // ---- Deleting another composition ------------------------------------------------------------------------------

  /** No role, or scope, that is asked for was created by an instance that goes. */
  predicate GrantsSpared(grants: map<nat, Grant>, organization: nat, configs: seq<RoleConfig>, instances: set<nat>) {
    forall k :: 0 <= k < |configs| ==> GrantRows(grants, organization, configs[k].key) !! GoneGrants(grants, instances)
  }

  lemma InstancesOfOther(t: Tables, c: nat, d: nat, token: string)
    requires c != d
    ensures InstanceRows(t.instances - GoneInstances(t, c), d, token) == InstanceRows(t.instances, d, token)
  {
  }

  lemma DeployedSurvives(p: Place, t: Tables, c: nat, r: InstanceRequest)
    requires p.composition != c && CompositionLaws.Holds(p, t, Deploy(r))
    ensures exists s, release, i ::
              IsDeployed(p, t.services, t.serviceReleases, t.instances - GoneInstances(t, c), r, s, release, i)
  {
    var s: nat, release: nat, i: nat :| IsDeployed(p, t.services, t.serviceReleases, t.instances, r, s, release, i);
    InstancesOfOther(t, c, p.composition, r.identifier);
    RowWith(t.instances, InstanceKey, (p.composition, r.identifier), i);
    assert IsDeployed(p, t.services, t.serviceReleases, t.instances - GoneInstances(t, c), r, s, release, i);
  }

  /** A role or scope goes on being used exactly when it was not created by an instance that goes. */
  lemma UsedSurvives(p: Place, t: Tables, c: nat, grants: map<nat, Grant>, token: string, config: RoleConfig)
    requires p.composition != c && exists i, g :: IsUsed(p, t.instances, grants, token, config, i, g)
    ensures var gone := GoneInstances(t, c);
            (exists i, g :: IsUsed(p, t.instances - gone, GrantsWithout(grants, GoneGrants(grants, gone), gone),
                                   token, config, i, g))
            <==> GrantRows(grants, p.organization, config.key) !! GoneGrants(grants, gone)
  {
    var i: nat, g: nat :| IsUsed(p, t.instances, grants, token, config, i, g);
    var gone := GoneInstances(t, c);
    var after := GrantsWithout(grants, GoneGrants(grants, gone), gone);
    InstancesOfOther(t, c, p.composition, token);
    RowWith(grants, GrantKey, (p.organization, config.key), g);
    RowWith(t.instances, InstanceKey, (p.composition, token), i);
    if g in GoneGrants(grants, gone) {
      assert GrantRows(after, p.organization, config.key) <= GrantRows(grants, p.organization, config.key)
             && g !in after;
      assert g !in GrantRows(after, p.organization, config.key);
    } else {
      assert GrantRows(after, p.organization, config.key) == {g};
      assert IsUsed(p, t.instances - gone, after, token, config, i, g);
    }
  }

  lemma PointedSurvives(p: Place, t: Tables, c: nat, token: string, alias: StagingAlias)
    requires p.composition != c && CompositionLaws.Holds(p, t, PutAlias(token, alias))
    ensures exists i, a :: IsPointed(p, t.instances - GoneInstances(t, c), t.aliases - GoneAliases(t, c), token,
                                     alias, i, a)
  {
    var i: nat, a: nat :| IsPointed(p, t.instances, t.aliases, token, alias, i, a);
    var instances, aliases := t.instances - GoneInstances(t, c), t.aliases - GoneAliases(t, c);
    InstancesOfOther(t, c, p.composition, token);
    RowWith(t.instances, InstanceKey, (p.composition, token), i);
    RowWith(t.aliases, AliasKey, (i, NameOf(alias)), a);
    assert AliasRows(aliases, i, NameOf(alias)) == {a};
    assert IsPointed(p, instances, aliases, token, alias, i, a);
  }

  /** What a deletion does to the tables that commands speak of. */
  lemma DeletedTables(t: Tables, c: nat)
    ensures var u, gone := Delete(t, c), GoneInstances(t, c);
            && u.services == t.services && u.serviceReleases == t.serviceReleases
            && u.instances == t.instances - gone && u.aliases == t.aliases - GoneAliases(t, c)
            && u.roles == GrantsWithout(t.roles, GoneGrants(t.roles, gone), gone)
            && u.scopes == GrantsWithout(t.scopes, GoneGrants(t.scopes, gone), gone)
  {
  }

  /** A request of another composition still holds after the deletion exactly when none of the roles and scopes
      it asks for was created by an instance of the deleted one. */
  lemma RequestSurvivesExactly(p: Place, t: Tables, c: nat, r: InstanceRequest)
    requires p.composition != c && RequestHolds(p, t, r)
    ensures RequestHolds(p, Delete(t, c), r)
            <==> GrantsSpared(t.roles, p.organization, r.roles, GoneInstances(t, c))
                 && GrantsSpared(t.scopes, p.organization, r.scopes, GoneInstances(t, c))
  {
    hide Delete, IsDeployed, IsUsed, IsPointed, GoneInstances, GoneAliases, GoneGrants, GrantsWithout, GrantRows;
    var gone := GoneInstances(t, c);
    DeletedTables(t, c);
    DeployedSurvives(p, t, c, r);
    forall k | 0 <= k < |r.aliases|
      ensures CompositionLaws.Holds(p, Delete(t, c), PutAlias(r.identifier, r.aliases[k])) {
      PointedSurvives(p, t, c, r.identifier, r.aliases[k]);
    }
    forall k | 0 <= k < |r.roles|
      ensures CompositionLaws.Holds(p, Delete(t, c), UseRole(r.identifier, r.roles[k]))
              <==> GrantRows(t.roles, p.organization, r.roles[k].key) !! GoneGrants(t.roles, gone)
    {
      assert CompositionLaws.Holds(p, t, UseRole(r.identifier, r.roles[k]));
      UsedSurvives(p, t, c, t.roles, r.identifier, r.roles[k]);
    }
    forall k | 0 <= k < |r.scopes|
      ensures CompositionLaws.Holds(p, Delete(t, c), UseScope(r.identifier, r.scopes[k]))
              <==> GrantRows(t.scopes, p.organization, r.scopes[k].key) !! GoneGrants(t.scopes, gone)
    {
      assert CompositionLaws.Holds(p, t, UseScope(r.identifier, r.scopes[k]));
      UsedSurvives(p, t, c, t.scopes, r.identifier, r.scopes[k]);
    }
  }

  // ---- Applying another composition -------------------------------------------------------------------------------

  /** Services and their releases stay as they are. */
  ghost predicate ServicesKept(t: Tables, u: Tables) {
    && (forall s :: s in t.services ==> s in u.services && u.services[s] == t.services[s])
    && (forall r :: r in t.serviceReleases ==> r in u.serviceReleases && u.serviceReleases[r] == t.serviceReleases[r])
  }

  lemma CommandKeepsServices(p: Place, t: Tables, v: Tables, u: Tables, command: Command, x: Written)
    requires KeysDrawn(v) && ServicesKept(t, v) && Writes(p, v, u, command, x)
    ensures ServicesKept(t, u)
  {
    hide GrantUsed, AliasPlaced, InstancePlaced, Having;
  }

  lemma {:induction false} ExecAllKeepsServices(p: Place, t: Tables, commands: seq<Command>)
    requires KeysDrawn(t) && ExecAll(p, t, commands).Ok?
    ensures ServicesKept(t, ExecAll(p, t, commands).value)
  {
    hide KeysDrawn, Exec, Writes, Frame, ServicesKept;
    if commands == [] {
      AllKept(t, t);
    } else {
      var n := |commands| - 1;
      ExecAllKeepsServices(p, t, commands[..n]);
      ExecAllFrame(p, t, commands[..n]);
      var v := ExecAll(p, t, commands[..n]).value;
      var x := ExecWrites(p, v, commands[n]);
      CommandKeepsServices(p, t, v, ExecAll(p, t, commands).value, commands[n], x);
    }
  }

  lemma AllKept(t: Tables, u: Tables)
    requires u.services == t.services && u.serviceReleases == t.serviceReleases
    ensures ServicesKept(t, u)
  {
  }

  lemma ApplyKeepsServices(w: Crypto, t: Tables, m: CompositionManifest, organization: nat)
    requires KeysDrawn(t) && organization in t.organizations && Apply(w, t, m, organization).Ok?
    ensures ServicesKept(t, Apply(w, t, m, organization).value.0)
  {
    hide KeysDrawn, UpsertComposition, ExecAll, Commands, CompositionPlaced;
    var (t1, c) := UpsertComposition(w, t, m, organization).value;
    UpsertsComposition(w, t, m, organization);
    ExecAllKeepsServices(PlaceOf(t, c, organization), t1, Commands(m.instances));
  }

  lemma OnlyRow<T, K>(rows: map<nat, T>, key: T -> K, k: K, id: nat)
    requires UniqueBy(rows, key) && id in rows && key(rows[id]) == k
    ensures Having(rows, key, k) == {id}
  {
  }

  /** What holds of a place `p` stays so while commands are executed at another composition `q`. */
  ghost predicate Elsewhere(p: Place, q: Place, t: Tables, u: Tables, commands: seq<Command>) {
    p.composition != q.composition && Frame(q, t, u, commands) && UniqueKeys(u) && ServicesKept(t, u)
  }

  /** The constraints on instances hold on: other rows of the composition are as they were. */
  lemma InstanceUniqueElsewhere(c: nat, d: nat, before: map<nat, Instance>, after: map<nat, Instance>,
                                commands: seq<Command>, i: nat)
    requires c != d && InstancesFrame(d, before, after, commands)
    requires i in before && before[i].composition == c && InstanceUnique(before, i, before[i])
    ensures i in after && after[i] == before[i] && InstanceUnique(after, i, after[i])
  {
    hide DeploysToken;
    forall o | o in after && after[o].composition == c ensures o in before && after[o] == before[o] {
      if o in before { assert InstanceKey(after[o]) == InstanceKey(before[o]); }
    }
  }

  lemma AliasUniqueElsewhere(q: Place, t: Tables, u: Tables, commands: seq<Command>, i: nat, a: nat)
    requires Frame(q, t, u, commands) && i in t.instances && t.instances[i].composition != q.composition
    requires a in t.aliases && t.aliases[a].instance == i && AliasUnique(t.aliases, a, t.aliases[a])
    ensures a in u.aliases && u.aliases[a] == t.aliases[a] && AliasUnique(u.aliases, a, u.aliases[a])
  {
    hide PointsName, DeploysToken, GrantsFrame;
    OthersUntouched(q, t, u, commands, i);
    forall o | o in u.aliases && u.aliases[o].instance == i ensures o in t.aliases && u.aliases[o] == t.aliases[o] {
      assert AliasKey(u.aliases[o]) == AliasKey(t.aliases[o]);
    }
  }

  lemma DeployedElsewhere(p: Place, q: Place, t: Tables, u: Tables, commands: seq<Command>, r: InstanceRequest)
    requires Elsewhere(p, q, t, u, commands) && CompositionLaws.Holds(p, t, Deploy(r))
    ensures CompositionLaws.Holds(p, u, Deploy(r))
  {
    hide Having, UniqueBy, InstancesFrame, InstanceUnique, AliasesFrame, GrantsFrame;
    var s: nat, release: nat, i: nat :| IsDeployed(p, t.services, t.serviceReleases, t.instances, r, s, release, i);
    RowWith(t.services, ServiceKey, r.service, s);
    RowWith(t.serviceReleases, ServiceReleaseKey, (s, r.version), release);
    RowWith(t.instances, InstanceKey, (p.composition, r.identifier), i);
    OnlyRow(u.services, ServiceKey, r.service, s);
    OnlyRow(u.serviceReleases, ServiceReleaseKey, (s, r.version), release);
    InstanceUniqueElsewhere(p.composition, q.composition, t.instances, u.instances, commands, i);
    OnlyRow(u.instances, InstanceKey, (p.composition, r.identifier), i);
    assert IsDeployed(p, u.services, u.serviceReleases, u.instances, r, s, release, i);
  }

  lemma UsedElsewhere(p: Place, q: Place, ti: map<nat, Instance>, ui: map<nat, Instance>, before: map<nat, Grant>,
                      after: map<nat, Grant>, scopes: bool, commands: seq<Command>, token: string, config: RoleConfig)
    requires InstancesFrame(q.composition, ti, ui, commands) && GrantsFrame(q, ui, before, after, scopes, commands)
    requires UniqueBy(ui, InstanceKey) && UniqueBy(after, GrantKey)
    requires exists i, g :: IsUsed(p, ti, before, token, config, i, g)
    ensures exists i, g :: IsUsed(p, ui, after, token, config, i, g)
  {
    hide Having, UniqueBy, NewUsers, DeploysToken;
    var i: nat, g: nat :| IsUsed(p, ti, before, token, config, i, g);
    RowWith(ti, InstanceKey, (p.composition, token), i);
    RowWith(before, GrantKey, (p.organization, config.key), g);
    OnlyRow(ui, InstanceKey, (p.composition, token), i);
    OnlyRow(after, GrantKey, (p.organization, config.key), g);
    assert IsUsed(p, ui, after, token, config, i, g);
  }

  lemma PointedElsewhere(p: Place, q: Place, t: Tables, u: Tables, commands: seq<Command>, token: string,
                         alias: StagingAlias)
    requires Elsewhere(p, q, t, u, commands) && CompositionLaws.Holds(p, t, PutAlias(token, alias))
    ensures CompositionLaws.Holds(p, u, PutAlias(token, alias))
  {
    hide Having, UniqueBy, Frame, AliasUnique;
    var i: nat, a: nat :| IsPointed(p, t.instances, t.aliases, token, alias, i, a);
    RowWith(t.instances, InstanceKey, (p.composition, token), i);
    RowWith(t.aliases, AliasKey, (i, NameOf(alias)), a);
    OthersUntouched(q, t, u, commands, i);
    AliasUniqueElsewhere(q, t, u, commands, i, a);
    OnlyRow(u.instances, InstanceKey, (p.composition, token), i);
    OnlyRow(u.aliases, AliasKey, (i, NameOf(alias)), a);
    assert IsPointed(p, u.instances, u.aliases, token, alias, i, a);
  }

  lemma RequestElsewhere(p: Place, q: Place, t: Tables, u: Tables, commands: seq<Command>, r: InstanceRequest)
    requires Elsewhere(p, q, t, u, commands) && RequestHolds(p, t, r)
    ensures RequestHolds(p, u, r)
  {
    hide InstancesFrame, AliasesFrame, GrantsFrame, ServicesKept, UniqueBy, IsDeployed, IsUsed, IsPointed;
    DeployedElsewhere(p, q, t, u, commands, r);
    forall k | 0 <= k < |r.aliases| ensures CompositionLaws.Holds(p, u, PutAlias(r.identifier, r.aliases[k])) {
      PointedElsewhere(p, q, t, u, commands, r.identifier, r.aliases[k]);
    }
    forall k | 0 <= k < |r.roles| ensures CompositionLaws.Holds(p, u, UseRole(r.identifier, r.roles[k])) {
      assert CompositionLaws.Holds(p, t, UseRole(r.identifier, r.roles[k]));
      UsedElsewhere(p, q, t.instances, u.instances, t.roles, u.roles, false, commands, r.identifier, r.roles[k]);
    }
    forall k | 0 <= k < |r.scopes| ensures CompositionLaws.Holds(p, u, UseScope(r.identifier, r.scopes[k])) {
      assert CompositionLaws.Holds(p, t, UseScope(r.identifier, r.scopes[k]));
      UsedElsewhere(p, q, t.instances, u.instances, t.scopes, u.scopes, true, commands, r.identifier, r.scopes[k]);
    }
  }

  /** Applying a manifest leaves what holds of another composition as it is. */
  lemma RequestSurvivesApply(w: Crypto, t: Tables, m: CompositionManifest, organization: nat, p: Place,
                             r: InstanceRequest)
    requires Whole(t) && organization in t.organizations && Apply(w, t, m, organization).Ok?
    requires p.composition != Apply(w, t, m, organization).value.1 && RequestHolds(p, t, r)
    ensures RequestHolds(p, Apply(w, t, m, organization).value.0, r)
  {
    hide Sound, KeysDrawn, UniqueKeys, NoDangling, Apply, Frame, RequestHolds, ServicesKept, Commands;
    var (u, c) := Apply(w, t, m, organization).value;
    ManifestFrame(w, t, m, organization);
    ApplyClear(w, t, m, organization);
    ApplyKeepsServices(w, t, m, organization);
    RequestElsewhere(p, PlaceOf(t, c, organization), t, u, Commands(m.instances), r);
  }

  // ---- Partners ---------------------------------------------------------------------------------------------------

  /** The composition is there, and all its manifest asks for holds. */
  ghost predicate Stands(t: Tables, organization: nat, m: CompositionManifest, c: nat)
    requires organization in t.organizations
  {
    && Kept(t, organization, m.identifier) == {c}
    && forall k :: 0 <= k < |m.instances| ==> RequestHolds(PlaceOf(t, c, organization), t, m.instances[k])
  }

  lemma AppliedStands(w: Crypto, t: Tables, m: CompositionManifest, organization: nat)
    requires Whole(t) && organization in t.organizations && Distinct(m) && Apply(w, t, m, organization).Ok?
    ensures var (u, c) := Apply(w, t, m, organization).value; Stands(u, organization, m, c)
  {
    hide Sound, KeysDrawn, UniqueKeys, NoDangling, Apply, RequestHolds, Having, Distinct, Described;
    ManifestHolds(w, t, m, organization);
  }

  /** Another manifest's composition is another row. */
  lemma OtherComposition(w: Crypto, t: Tables, m: CompositionManifest, organization: nat, identifier: string, c: nat)
    requires Whole(t) && organization in t.organizations && Apply(w, t, m, organization).Ok?
    requires identifier != m.identifier && Kept(t, organization, identifier) == {c}
    ensures var (u, d) := Apply(w, t, m, organization).value;
            c != d && Kept(u, organization, identifier) == {c} && Kept(u, organization, m.identifier) == {d}
                && KeysDrawn(u)
  {
    hide Sound, KeysDrawn, UniqueKeys, NoDangling, Apply, Having;
    AppliedRows(w, t, m, organization);
    var (u, d) := Apply(w, t, m, organization).value;
    RowWith(u.compositions, CompositionKey, (organization, identifier), c);
    RowWith(u.compositions, CompositionKey, (organization, m.identifier), d);
  }

  lemma StandsAfterApply(w: Crypto, t: Tables, m: CompositionManifest, organization: nat, other: CompositionManifest,
                         c: nat)
    requires Whole(t) && organization in t.organizations && Apply(w, t, m, organization).Ok?
    requires other.identifier != m.identifier && Stands(t, organization, other, c)
    ensures Stands(Apply(w, t, m, organization).value.0, organization, other, c)
  {
    hide Whole, Apply, RequestHolds, Kept;
    OtherComposition(w, t, m, organization, other.identifier, c);
    forall k | 0 <= k < |other.instances|
      ensures RequestHolds(PlaceOf(t, c, organization), Apply(w, t, m, organization).value.0, other.instances[k])
    {
      RequestSurvivesApply(w, t, m, organization, PlaceOf(t, c, organization), other.instances[k]);
    }
  }

  /** A composition that was not there before has new instances only. */
  lemma OnlyNewInstances(w: Crypto, t: Tables, m: CompositionManifest, organization: nat)
    requires Whole(t) && organization in t.organizations && Apply(w, t, m, organization).Ok?
    requires Kept(t, organization, m.identifier) == {}
    ensures var (u, c) := Apply(w, t, m, organization).value; forall i :: i in GoneInstances(u, c) ==> i !in t.instances
  {
    hide Sound, KeysDrawn, UniqueKeys, ClientsRefer, VouchersRefer, CompositionsRefer, GrantsRefer, Apply,
      AliasesFrame, GrantsFrame, DeploysToken, Having, Commands;
    var (u, c) := Apply(w, t, m, organization).value;
    ManifestFrame(w, t, m, organization);
    AppliedRows(w, t, m, organization);
    RowWith(u.compositions, CompositionKey, (organization, m.identifier), c);
    NoRowWith(t.compositions, CompositionKey, (organization, m.identifier));
  }

  /** What was asked for before was not created by instances that came later. */
  lemma UsedGrantsSpared(p: Place, instances: map<nat, Instance>, before: map<nat, Grant>, after: map<nat, Grant>,
                         organization: nat, token: string, config: RoleConfig, gone: set<nat>)
    requires exists i, g :: IsUsed(p, instances, before, token, config, i, g)
    requires GrantsRefer(before, instances.Keys) && GrantsGrow(organization, before, after) && UniqueBy(after, GrantKey)
    requires forall i :: i in gone ==> i !in instances
    ensures GrantRows(after, p.organization, config.key) !! GoneGrants(after, gone)
  {
    hide Having, UniqueBy;
    var i: nat, g: nat :| IsUsed(p, instances, before, token, config, i, g);
    RowWith(before, GrantKey, (p.organization, config.key), g);
    OnlyRow(after, GrantKey, (p.organization, config.key), g);
    assert after[g].creatingInstance == before[g].creatingInstance;
  }

  lemma RequestSpared(w: Crypto, t: Tables, m: CompositionManifest, organization: nat, p: Place, r: InstanceRequest)
    requires Whole(t) && organization in t.organizations && Apply(w, t, m, organization).Ok?
    requires Kept(t, organization, m.identifier) == {} && RequestHolds(p, t, r)
    ensures var (u, c) := Apply(w, t, m, organization).value;
            && GrantsSpared(u.roles, p.organization, r.roles, GoneInstances(u, c))
            && GrantsSpared(u.scopes, p.organization, r.scopes, GoneInstances(u, c))
  {
    hide Sound, KeysDrawn, ClientsRefer, VouchersRefer, CompositionsRefer, GrantsRefer, UniqueBy, Apply,
      InstancesFrame, AliasesFrame, GrantsGrow, NewUsers, IsUsed, IsDeployed, IsPointed, GoneGrants, GrantRows, Kept,
      Commands, GoneInstances;
    var (u, c) := Apply(w, t, m, organization).value;
    ManifestFrame(w, t, m, organization);
    ApplyClear(w, t, m, organization);
    OnlyNewInstances(w, t, m, organization);
    var gone := GoneInstances(u, c);
    forall k | 0 <= k < |r.roles|
      ensures GrantRows(u.roles, p.organization, r.roles[k].key) !! GoneGrants(u.roles, gone) {
      assert CompositionLaws.Holds(p, t, UseRole(r.identifier, r.roles[k]));
      UsedGrantsSpared(p, t.instances, t.roles, u.roles, organization, r.identifier, r.roles[k], gone);
    }
    forall k | 0 <= k < |r.scopes|
      ensures GrantRows(u.scopes, p.organization, r.scopes[k].key) !! GoneGrants(u.scopes, gone) {
      assert CompositionLaws.Holds(p, t, UseScope(r.identifier, r.scopes[k]));
      UsedGrantsSpared(p, t.instances, t.scopes, u.scopes, organization, r.identifier, r.scopes[k], gone);
    }
  }

  /** A composition that was not there before can be created and rejected without harm to another one. */
  lemma StandsAfterRejection(w: Crypto, t: Tables, m: CompositionManifest, organization: nat,
                             other: CompositionManifest, c: nat)
    requires Whole(t) && organization in t.organizations && Apply(w, t, m, organization).Ok?
    requires Kept(t, organization, m.identifier) == {}
    requires other.identifier != m.identifier && Stands(t, organization, other, c)
    ensures var (v, d) := Apply(w, t, m, organization).value; Stands(Delete(v, d), organization, other, c)
  {
    hide Whole, KeysDrawn, Apply, Delete, RequestHolds, Kept, GrantsSpared, GoneInstances;
    var (v, d) := Apply(w, t, m, organization).value;
    var p := PlaceOf(t, c, organization);
    OtherComposition(w, t, m, organization, other.identifier, c);
    DeletedRows(v, d, organization, m.identifier);
    SameOrganizations(v, d);
    forall k | 0 <= k < |other.instances| ensures RequestHolds(p, Delete(v, d), other.instances[k]) {
      RequestSurvivesApply(w, t, m, organization, p, other.instances[k]);
      RequestSpared(w, t, m, organization, p, other.instances[k]);
      RequestSurvivesExactly(p, v, d, other.instances[k]);
    }
  }

  lemma SameOrganizations(t: Tables, c: nat)
    ensures Delete(t, c).organizations == t.organizations
  {
    hide GoneInstances, GoneClients, GoneTokens, GoneMappings, GoneAliases, GoneUsedAliases, GonePermissions,
      GoneGrants, GoneCodes, GoneServiceCodes, GoneCompositionCodes, GoneAuthKeys, GrantsWithout, ClientsWithout,
      MembershipsWithout, CompositionsWithout;
  }

  lemma StandsAfterPartner(w: Crypto, t: Tables, partner: Partner, organization: nat, approves: bool,
                           other: CompositionManifest, c: nat)
    requires Whole(t) && organization in t.organizations && partner.composition.Some?
    requires other.identifier != partner.composition.value.identifier && Stands(t, organization, other, c)
    requires Rejects(partner, approves) ==> Kept(t, organization, partner.composition.value.identifier) == {}
    ensures Stands(FromPartner(w, t, partner, organization, approves).0, organization, other, c)
  {
    hide Whole, Apply, Delete, RequestHolds, Kept, Stands;
    var m := partner.composition.value;
    if Apply(w, t, m, organization).Ok? {
      if Rejects(partner, approves) {
        StandsAfterRejection(w, t, m, organization, other, c);
      } else {
        StandsAfterApply(w, t, m, organization, other, c);
      }
    }
  }

  predicate DistinctPartners(lower: string -> string, owner: Owner, candidates: seq<Candidate>) {
    forall i, k | 0 <= i < k < |candidates|
      :: Considered(lower, owner, candidates[i]) && Considered(lower, owner, candidates[k]) ==>
      candidates[i].partner.composition.value.identifier != candidates[k].partner.composition.value.identifier
  }

  /** No rejected partner's composition was there at the start. */
  predicate RejectedAreNew(lower: string -> string, owner: Owner, t: Tables, organization: nat,
                           candidates: seq<Candidate>) {
    forall i | 0 <= i < |candidates| && Considered(lower, owner, candidates[i])
               && Rejects(candidates[i].partner, candidates[i].approves)
      :: Kept(t, organization, candidates[i].partner.composition.value.identifier) == {}
  }

  lemma LoopWhole(w: Crypto, lower: string -> string, t: Tables, organization: nat, owner: Owner,
                  candidates: seq<Candidate>)
    requires Whole(t) && organization in t.organizations
    ensures Whole(AutoConfigure(w, lower, t, organization, owner, candidates).0)
  {
    hide Whole, AutoConfigure, History, Offers;
    var n := AutoConfigureIsHistory(w, lower, t, organization, owner, candidates);
    HistoryKeepsWhole(w, t, Offers(lower, owner, organization, candidates[..n]));
  }

  /** Where composition identifiers are pairwise distinct and no rejected partner's composition was there at the
      start, every returned partner's composition is there in the end with all its manifest asks for. */
  lemma {:induction false} ReturnedCompositionsStand(w: Crypto, lower: string -> string, t: Tables, organization: nat,
        owner: Owner, candidates: seq<Candidate>, j: nat) returns (c: nat)
    requires Whole(t) && organization in t.organizations
    requires AutoConfigure(w, lower, t, organization, owner, candidates).1.Ok?
    requires DistinctPartners(lower, owner, candidates) && RejectedAreNew(lower, owner, t, organization, candidates)
    requires j in Chosen(lower, owner, candidates)
    ensures j < |candidates| && candidates[j].partner.composition.Some?
    ensures Distinct(candidates[j].partner.composition.value) ==>
              Stands(AutoConfigure(w, lower, t, organization, owner, candidates).0, organization,
                     candidates[j].partner.composition.value, c)
    decreases |candidates|
  {
    hide Whole, FromPartner, AppliesToUser, Rejects, Kept, Stands, Distinct;
    hide AutoConfigure;
    var last := |candidates| - 1;
    if j == last {
      c := LastStands(w, lower, t, organization, owner, candidates);
    } else {
      var before := candidates[..last];
      assert before[j] == candidates[j];
      LoopGoesOn(w, lower, t, organization, owner, candidates);
      c := ReturnedCompositionsStand(w, lower, t, organization, owner, before, j);
      if Distinct(candidates[j].partner.composition.value) {
        StandsAfterLast(w, lower, t, organization, owner, candidates, candidates[j].partner.composition.value, c);
      }
    }
  }

  lemma LoopGoesOn(w: Crypto, lower: string -> string, t: Tables, organization: nat, owner: Owner,
                   candidates: seq<Candidate>)
    requires organization in t.organizations && candidates != []
    requires AutoConfigure(w, lower, t, organization, owner, candidates).1.Ok?
    ensures AutoConfigure(w, lower, t, organization, owner, candidates[..|candidates| - 1]).1.Ok?
  {
    hide FromPartner, AppliesToUser;
  }

  lemma LastStands(w: Crypto, lower: string -> string, t: Tables, organization: nat, owner: Owner,
                   candidates: seq<Candidate>)
    returns (c: nat)
    requires Whole(t) && organization in t.organizations && candidates != []
    requires AutoConfigure(w, lower, t, organization, owner, candidates).1.Ok?
    requires var k := candidates[|candidates| - 1]; Considered(lower, owner, k) && !Rejects(k.partner, k.approves)
    ensures var m := candidates[|candidates| - 1].partner.composition.value;
            Distinct(m) ==> Stands(AutoConfigure(w, lower, t, organization, owner, candidates).0, organization, m, c)
  {
    hide Whole, FromPartner, AppliesToUser, Rejects, Kept, Stands, Distinct;
    var before, k := candidates[..|candidates| - 1], candidates[|candidates| - 1];
    LoopWhole(w, lower, t, organization, owner, before);
    c := PartnerStands(w, AutoConfigure(w, lower, t, organization, owner, before).0, k.partner, organization,
                       k.approves);
  }

  lemma StandsAfterLast(w: Crypto, lower: string -> string, t: Tables, organization: nat, owner: Owner,
                        candidates: seq<Candidate>, other: CompositionManifest, c: nat)
    requires Whole(t) && organization in t.organizations && candidates != []
    requires AutoConfigure(w, lower, t, organization, owner, candidates).1.Ok?
    requires DistinctPartners(lower, owner, candidates) && RejectedAreNew(lower, owner, t, organization, candidates)
    requires var k := candidates[|candidates| - 1];
             Considered(lower, owner, k) ==> other.identifier != k.partner.composition.value.identifier
    requires Stands(AutoConfigure(w, lower, t, organization, owner, candidates[..|candidates| - 1]).0, organization,
                    other, c)
    ensures Stands(AutoConfigure(w, lower, t, organization, owner, candidates).0, organization, other, c)
  {
    hide Whole, FromPartner, AppliesToUser, Rejects, Kept, Stands;
    var before, k := candidates[..|candidates| - 1], candidates[|candidates| - 1];
    if Considered(lower, owner, k) {
      LoopWhole(w, lower, t, organization, owner, before);
      NotYet(w, lower, t, organization, owner, candidates);
      StandsAfterPartner(w, AutoConfigure(w, lower, t, organization, owner, before).0, k.partner, organization,
                         k.approves, other, c);
    }
  }

  /** The compositions of the last candidate's identifier are untouched before its turn. */
  lemma NotYet(w: Crypto, lower: string -> string, t: Tables, organization: nat, owner: Owner,
               candidates: seq<Candidate>)
    requires Whole(t) && organization in t.organizations && candidates != []
    requires DistinctPartners(lower, owner, candidates) && Considered(lower, owner, candidates[|candidates| - 1])
    requires AutoConfigure(w, lower, t, organization, owner, candidates[..|candidates| - 1]).1.Ok?
    ensures var identifier := candidates[|candidates| - 1].partner.composition.value.identifier;
            Kept(AutoConfigure(w, lower, t, organization, owner, candidates[..|candidates| - 1]).0, organization,
                 identifier)
            == Kept(t, organization, identifier)
  {
    hide Sound, KeysDrawn, UniqueKeys, NoDangling, AutoConfigure, Kept, AppliesToUser;
    var last := |candidates| - 1;
    LastPartnerDecides(w, lower, t, organization, owner, candidates[..last],
                       candidates[last].partner.composition.value.identifier);
  }

  lemma PartnerStands(w: Crypto, t: Tables, partner: Partner, organization: nat, approves: bool) returns (c: nat)
    requires Whole(t) && organization in t.organizations && partner.composition.Some? && !Rejects(partner, approves)
    ensures FromPartner(w, t, partner, organization, approves).1 != Err(Rejected)
    ensures FromPartner(w, t, partner, organization, approves).1.Ok? && Distinct(partner.composition.value) ==>
              Stands(FromPartner(w, t, partner, organization, approves).0, organization, partner.composition.value, c)
  {
    hide Whole, Apply, Delete, Stands, Distinct;
    c := 0;
    var m := partner.composition.value;
    ApplyIsNotRejected(w, t, m, organization);
    if Apply(w, t, m, organization).Ok? {
      c := Apply(w, t, m, organization).value.1;
      if Distinct(m) { AppliedStands(w, t, m, organization); }
    }
  }
}
