/** Two compositions of an organization that ask for the same role: the first to ask creates it, and takes it
    along when it is deleted. */
module SharedRole {
  import opened Prelude
  import opened Rows
  import opened Compositions
  import opened CompositionFrames
  import opened CompositionKeys
  import opened CompositionLaws
  import opened CompositionTheorems
  import opened Cascade
  import opened Histories
  import opened Partners
  import opened Survival
  import Invariants
  import References

  // ---- What always happens ----------------------------------------------------------------------------------------

  /** The command that makes an instance use one of its roles. */
  lemma {:induction false} RoleCommand(requests: seq<InstanceRequest>, i: nat, k: nat) returns (n: nat)
    requires i < |requests| && k < |requests[i].roles|
    ensures n < |Commands(requests)| && Commands(requests)[n] == UseRole(requests[i].identifier, requests[i].roles[k])
  {
    var last := |requests| - 1;
    var before := Commands(requests[..last]);
    if i < last {
      n := RoleCommand(requests[..last], i, k);
    } else {
      n := |before| + 1 + k;
      assert CommandsOf(requests[last])[1 + k] == UseRole(requests[i].identifier, requests[i].roles[k]);
    }
  }

  /** A role that was not there before was created by an instance of the composition. */
  lemma RoleIsCreated(w: Crypto, t: Tables, m: CompositionManifest, organization: nat, i: nat, k: nat) returns (g: nat,
                      creator: nat)
    requires Whole(t) && organization in t.organizations && Apply(w, t, m, organization).Ok?
    requires i < |m.instances| && k < |m.instances[i].roles|
    requires GrantRows(t.roles, organization, m.instances[i].roles[k].key) == {}
    ensures var (u, c) := Apply(w, t, m, organization).value;
            && g in u.roles && GrantKey(u.roles[g]) == (organization, m.instances[i].roles[k].key)
            && u.roles[g].creatingInstance == Some(creator) && creator in u.instances
               && u.instances[creator].composition == c
  {
    hide Invariants.Sound, KeysDrawn, UniqueKeys, NoDangling, Apply, InstancesFrame, AliasesFrame, NewUsers, FirstUse,
      Commands;
    var key := m.instances[i].roles[k].key;
    var (u, c) := Apply(w, t, m, organization).value;
    var n := RoleCommand(m.instances, i, k);
    NewGrantsOrigins(w, t, m, organization);
    ManifestFrame(w, t, m, organization);
    assert UsesHere(Commands(m.instances)[n], false, key);
    NoRowWith(t.roles, GrantKey, (organization, key));
    g :| g in GrantRows(u.roles, organization, key);
    creator := u.roles[g].creatingInstance.value;
  }

  /** The second composition is as its manifest says, until the first one is deleted. */
  lemma SharedRoleBreaks(w: Crypto, t: Tables, first: CompositionManifest, second: CompositionManifest,
                         organization: nat, i: nat, k: nat, j: nat, l: nat)
    requires Whole(t) && organization in t.organizations && first.identifier != second.identifier && Distinct(second)
    requires Apply(w, t, first, organization).Ok?
    requires Apply(w, Apply(w, t, first, organization).value.0, second, organization).Ok?
    requires i < |first.instances| && k < |first.instances[i].roles| && j < |second.instances|
             && l < |second.instances[j].roles|
    requires first.instances[i].roles[k].key == second.instances[j].roles[l].key
    requires GrantRows(t.roles, organization, first.instances[i].roles[k].key) == {}
    ensures var (u, c) := Apply(w, t, first, organization).value;
            var (v, d) := Apply(w, u, second, organization).value;
            var p := PlaceOf(t, d, organization);
            RequestHolds(p, v, second.instances[j]) && !RequestHolds(p, Delete(v, c), second.instances[j])
  {
    hide Whole, Apply, Distinct, RequestHolds, Delete, Kept, GrantsSpared, GrantRows, Described, GoneInstances,
      GoneGrants;
    var (u, c) := Apply(w, t, first, organization).value;
    var (v, d) := Apply(w, u, second, organization).value;
    var g, creator := RoleIsCreated(w, t, first, organization, i, k);
    FirstIsWhole(w, t, first, organization);
    AppliedStands(w, u, second, organization);
    OtherComposition(w, u, second, organization, first.identifier, c);
    RoleGoes(w, u, second, organization, c, g, creator, second.instances[j].roles[l].key);
    NotSpared(v, organization, second.instances[j].roles, l, c);
    RequestSurvivesExactly(PlaceOf(t, d, organization), v, c, second.instances[j]);
  }

  lemma FirstIsWhole(w: Crypto, t: Tables, m: CompositionManifest, organization: nat)
    requires Whole(t) && organization in t.organizations && Apply(w, t, m, organization).Ok?
    ensures var (u, c) := Apply(w, t, m, organization).value; Whole(u) && Kept(u, organization, m.identifier) == {c}
  {
    hide Invariants.Sound, KeysDrawn, UniqueKeys, NoDangling, Apply, Kept, References.Within, Invariants.Extends,
      Invariants.StatusesAgree;
    ApplyKeepsWhole(w, t, m, organization);
    AppliedRows(w, t, m, organization);
  }

  /** Another manifest leaves the role with its creator, and the creator with its composition. */
  lemma RoleGoes(w: Crypto, t: Tables, m: CompositionManifest, organization: nat, c: nat, g: nat, creator: nat,
                 key: string)
    requires Whole(t) && organization in t.organizations && Apply(w, t, m, organization).Ok?
    requires g in t.roles && GrantKey(t.roles[g]) == (organization, key) && t.roles[g].creatingInstance == Some(creator)
    requires creator in t.instances && t.instances[creator].composition == c
    ensures var u := Apply(w, t, m, organization).value.0;
            g in GrantRows(u.roles, organization, key) && g in GoneGrants(u.roles, GoneInstances(u, c))
  {
    hide Invariants.Sound, KeysDrawn, UniqueKeys, NoDangling, Apply, AliasesFrame, NewUsers, DeploysToken, Commands;
    ManifestFrame(w, t, m, organization);
    assert InstanceKey(Apply(w, t, m, organization).value.0.instances[creator]) == InstanceKey(t.instances[creator]);
  }

  lemma NotSpared(t: Tables, organization: nat, configs: seq<RoleConfig>, l: nat, c: nat)
    requires l < |configs|
    requires exists g ::
               g in GrantRows(t.roles, organization, configs[l].key) && g in GoneGrants(t.roles, GoneInstances(t, c))
    ensures !GrantsSpared(t.roles, organization, configs, GoneInstances(t, c))
  {
    hide GrantRows, GoneGrants, GoneInstances;
  }

  // ---- That it happens --------------------------------------------------------------------------------------------

  function Asking(identifier: string): CompositionManifest {
    CompositionManifest(identifier, None, [InstanceRequest("i", "s", "1", [RoleConfig("r", None)], [], [])])
  }

  /** Where the composition is new, deploying its instance succeeds, and so does using the role. */
  lemma AskingApplies(w: Crypto, t: Tables, identifier: string, organization: nat)
    requires Whole(t) && organization in t.organizations && Kept(t, organization, identifier) == {}
    ensures Apply(w, t, Asking(identifier), organization).Ok?
  {
    hide Whole, UpsertComposition, Exec, Described, Kept;
    var m := Asking(identifier);
    NewPlace(w, t, m, organization);
    var (t1, c) := UpsertComposition(w, t, m, organization).value;
    var p, r := PlaceOf(t, c, organization), m.instances[0];
    var both := Commands(m.instances);
    assert m.instances[..0] == [] && both == [Deploy(r), UseRole("i", RoleConfig("r", None))];
    assert both[..1] == [Deploy(r)] && [Deploy(r)][..0] == [];
    assert ExecAll(p, t1, []) == Ok(t1);
    DeployThenUse(p, t1, r, RoleConfig("r", None));
    assert ExecAll(p, t1, [Deploy(r)]) == Exec(p, t1, Deploy(r));
  }

  /** A new composition has no instances. */
  lemma NewPlace(w: Crypto, t: Tables, m: CompositionManifest, organization: nat)
    requires Whole(t) && organization in t.organizations && Kept(t, organization, m.identifier) == {}
    ensures UpsertComposition(w, t, m, organization).Ok?
    ensures var (u, c) := UpsertComposition(w, t, m, organization).value;
            KeysDrawn(u) && UniqueKeys(u) && forall token :: InstanceRows(u.instances, c, token) == {}
  {
    hide Invariants.Sound, UniqueKeys, ClientsRefer, VouchersRefer, CompositionsRefer, GrantsRefer, UpsertComposition,
      Described;
    UpsertClear(w, t, m, organization);
    UpsertsComposition(w, t, m, organization);
    var (u, c) := UpsertComposition(w, t, m, organization).value;
    NoRowWith(t.compositions, CompositionKey, (organization, m.identifier));
  }

  lemma DeployThenUse(p: Place, t: Tables, r: InstanceRequest, config: RoleConfig)
    requires KeysDrawn(t) && UniqueKeys(t) && InstanceRows(t.instances, p.composition, r.identifier) == {}
    ensures Exec(p, t, Deploy(r)).Ok? && Exec(p, Exec(p, t, Deploy(r)).value, UseRole(r.identifier, config)).Ok?
  {
    hide Exec, KeysDrawn, UniqueKeys, Writes;
    DeploySucceeds(p, t, r);
    var u := Exec(p, t, Deploy(r)).value;
    var x := ExecWrites(p, t, Deploy(r));
    CommandUnique(p, t, u, Deploy(r), x);
    UseSucceeds(p, t, u, r, config, x);
  }

  lemma DeploySucceeds(p: Place, t: Tables, r: InstanceRequest)
    requires UniqueKeys(t) && InstanceRows(t.instances, p.composition, r.identifier) == {}
    ensures Exec(p, t, Deploy(r)).Ok?
  {
    hide Having, UniqueBy, Get, InstanceUnique;
    FoundOnce(t.services, ServiceKey, r.service);
    var (t1, s) := EnsureService(t, r.service).value;
    FoundOnce(t1.serviceReleases, ServiceReleaseKey, (s, r.version));
    GetRows(InstanceRows(t.instances, p.composition, r.identifier));
  }

  lemma UseSucceeds(p: Place, t: Tables, u: Tables, r: InstanceRequest, config: RoleConfig, x: Written)
    requires UniqueKeys(u) && Writes(p, t, u, Deploy(r), x)
    ensures Exec(p, u, UseRole(r.identifier, config)).Ok?
  {
    hide Having, UniqueBy, Get, ServicesGrow, ServiceReleasesGrow, InstancePlaced;
    NamedIs(p, u.instances, r.identifier);
    FoundOnce(u.roles, GrantKey, (p.organization, config.key));
  }

  function OneOrganization(): Tables {
    NoTables().(nextId := 1, organizations := map[0 := Organization("org", 0)])
  }

  /** An organization alone is as whole as nothing at all. */
  lemma OneOrganizationWhole()
    ensures Whole(OneOrganization()) && forall key :: GrantRows(OneOrganization().roles, 0, key) == {}
    ensures forall identifier :: Kept(OneOrganization(), 0, identifier) == {}
  {
    hide Whole;
    NoTablesWhole();
    OrganizationAdded(NoTables(), OneOrganization());
  }

  predicate OnlyOrganizations(t: Tables, u: Tables) {
    u == t.(nextId := u.nextId, organizations := u.organizations) && t.nextId <= u.nextId
  }

  lemma OrganizationAdded(t: Tables, u: Tables)
    requires Whole(t) && OnlyOrganizations(t, u)
    ensures Whole(u)
  {
    hide Invariants.Sound, KeysDrawn, UniqueKeys, NoDangling, OnlyOrganizations;
    StillSound(t, u);
    StillDrawn(t, u);
    StillRefers(t, u);
  }

  lemma StillSound(t: Tables, u: Tables)
    requires Invariants.Sound(t) && OnlyOrganizations(t, u)
    ensures Invariants.Sound(u)
  {
    hide Invariants.OneApp, Invariants.UniqueReleases, Invariants.UniqueDevices, Invariants.OneDevelopmentClient,
      Invariants.OneOwner, Invariants.MappingsOwned, Invariants.ClientsAuthorized, Invariants.UniqueTokens,
      Invariants.OneTokenPerClient, Invariants.TokensHold, Invariants.UniqueCodes, Invariants.CodesHold,
      Invariants.UniqueMemberships, Invariants.UniqueScopes, Invariants.Drawn;
    Invariants.AllDrawnLater(t, u.nextId);
  }

  lemma StillDrawn(t: Tables, u: Tables)
    requires KeysDrawn(t) && UniqueKeys(t) && OnlyOrganizations(t, u)
    ensures KeysDrawn(u) && UniqueKeys(u)
  {
    hide UniqueBy;
  }

  lemma StillRefers(t: Tables, u: Tables)
    requires NoDangling(t) && OnlyOrganizations(t, u)
    ensures NoDangling(u)
  {
    hide GrantsRefer;
  }

  /** Two compositions that ask for the role "r": the second holds until the first is deleted. */
  lemma SharedRoleIsReached(w: Crypto)
    ensures Whole(OneOrganization()) && Apply(w, OneOrganization(), Asking("a"), 0).Ok?
    ensures var (u, c) := Apply(w, OneOrganization(), Asking("a"), 0).value;
            && 0 in u.organizations && Apply(w, u, Asking("b"), 0).Ok?
            && var (v, d) := Apply(w, u, Asking("b"), 0).value;
               var p := PlaceOf(OneOrganization(), d, 0);
               && RequestHolds(p, v, Asking("b").instances[0])
               && !RequestHolds(p, Delete(v, c), Asking("b").instances[0])
  {
    hide Whole, Apply, RequestHolds, Delete, Kept, GrantRows;
    OneOrganizationWhole();
    AskingApplies(w, OneOrganization(), "a", 0);
    var (u, c) := Apply(w, OneOrganization(), Asking("a"), 0).value;
    FirstIsWhole(w, OneOrganization(), Asking("a"), 0);
    NotThere(w, OneOrganization(), Asking("a"), 0, "b");
    AskingApplies(w, u, "b", 0);
    SharedRoleBreaks(w, OneOrganization(), Asking("a"), Asking("b"), 0, 0, 0, 0, 0);
  }

  lemma NotThere(w: Crypto, t: Tables, m: CompositionManifest, organization: nat, identifier: string)
    requires Whole(t) && organization in t.organizations && Apply(w, t, m, organization).Ok?
             && identifier != m.identifier
    requires Kept(t, organization, identifier) == {}
    ensures Kept(Apply(w, t, m, organization).value.0, organization, identifier) == {}
  {
    hide Invariants.Sound, KeysDrawn, UniqueKeys, NoDangling, Apply, Kept;
    AppliedRows(w, t, m, organization);
  }
}
