/** A client that moves to another composition without being composed again keeps its grants; when the
    composition it left is deleted, it goes on reporting them.  A client that is deleted with its
    composition leaves its OAuth2 client behind. */
module StaleGrant {
  import opened Prelude
  import opened Rows
  import opened Clients
  import opened Invariants
  import opened Lifecycle
  import opened Cascade
  import Rendering
  import Tokens
  import Traces

  const FIRST := 2
  const SECOND := 3
  const WANTED := [Requirement("k", "s", false)]

  function Store(): Tables {
    NoTables().(
      nextId := 10,
      organizations := map[0 := Organization("org", 0)],
      memberships := map[1 := Membership(0, 0, {}, None)],
      compositions := map[2 := Composition(0, "a", "", "", "", 0, None), 3 := Composition(0, "b", "", "", "", 0, None)],
      services := map[4 := Service("s")],
      serviceReleases := map[5 := ServiceRelease(4, "1")],
      instances := map[6 := Rows.Instance(2, 5, "i", "i", 0, 0, "{}", None, None, {}, {}, {}, {})])
  }

  function ManifestFor(requirements: seq<Requirement>): Manifest {
    Manifest("app", "1", None, [], requirements, None, "")
  }

  /** The same user, release and organization, and no node. */
  function OrderFor(requirements: seq<Requirement>, composition: nat, token: string): Order {
    Order(ManifestFor(requirements), Config(Development, Interface, token, 0, 0, 0), 0, 0, Some(composition), {},
          Draw(Fetched(""), "id"))
  }

  function Registrations(): seq<Timed> {
    [At(0, Register(OrderFor(WANTED, FIRST, "x"))), At(1, Register(OrderFor([], SECOND, "y")))]
  }

  // ---- The first registration --------------------------------------------------------------------------------

  function Row(manifest: Manifest, composition: nat, token: string, hash: string,
               statuses: map<string, Status>): Client {
    Client(11, 0, 0, 0, 1, None, token, Development, Interface, 12, "", Some(composition), manifest, hash, statuses, {})
  }

  function ReleaseFor(requirements: seq<Requirement>): Release {
    Release(10, "1", None, [], requirements)
  }

  /** The store with the client's app, release and OAuth2 client. */
  function Registered(requirements: seq<Requirement>, mappings: map<(nat, string), nat>, row: Client): Tables {
    Store().(nextId := 14, apps := map[10 := App("app", None)], releases := map[11 := ReleaseFor(requirements)],
             oauthClients := map[12 := OAuthClient("id")], clients := map[13 := row], mappings := mappings)
  }

  function HashOf(w: Crypto): string { Tokens.HashRequirements(w, WANTED) }

  function Granted(w: Crypto): map<string, Status> { map["k" := Status.Granted] }

  function AfterFirst(w: Crypto): Tables {
    Registered(WANTED, map[(13, "k") := 6], Row(ManifestFor(WANTED), FIRST, "x", HashOf(w), Granted(w)))
  }

  function AfterSecond(w: Crypto): Tables {
    Registered([], map[(13, "k") := 6], Row(ManifestFor([]), SECOND, "y", HashOf(w), Granted(w)))
  }

  lemma FirstProvision(w: Crypto)
    ensures Provision(w, Store(), ManifestFor(WANTED), 0, None)
         == Ok((Store().(nextId := 12, apps := map[10 := App("app", None)],
                         releases := map[11 := ReleaseFor(WANTED)]), 11, None))
  {
    assert AppRows(Store(), "app") == {};
    var t1 := Store().(nextId := 11, apps := map[10 := App("app", None)]);
    assert GetOrCreateApp(Store(), "app") == Ok((t1, 10));
    assert ReleaseRows(t1, 10, "1") == {};
  }

  lemma Member(t: Tables)
    requires t.memberships == Store().memberships && t.organizations == Store().organizations
    ensures ConfigMembership(t, Config(Development, Interface, "x", 0, 0, 0)) == Ok(1)
    ensures ConfigMembership(t, Config(Development, Interface, "y", 0, 0, 0)) == Ok(1)
  {
    assert MembershipRows(t, 0, 0) == {1};
  }

  lemma NoRows(t: Tables)
    requires t.clients == map[]
    ensures DevelopmentRows(t, 11, 0, 0, None) == {}
  {
  }

  lemma OneRow(w: Crypto, t: Tables)
    requires t.clients == AfterFirst(w).clients
    ensures DevelopmentRows(t, 11, 0, 0, None) == {13}
  {
    hide HashOf;
  }

  lemma FirstSave(t: Tables)
    requires t == Store().(nextId := 14, apps := map[10 := App("app", None)], releases := map[11 := ReleaseFor(WANTED)],
                           oauthClients := map[12 := OAuthClient("id")])
    ensures SaveClient(t, 13, Row(ManifestFor(WANTED), FIRST, "x", "", map[]))
         == Ok(Registered(WANTED, map[], Row(ManifestFor(WANTED), FIRST, "x", "", map[])))
  {
  }

  lemma FirstClient(t: Tables)
    requires t == Store().(nextId := 12, apps := map[10 := App("app", None)], releases := map[11 := ReleaseFor(WANTED)])
    ensures CreateDevelopmentClient(t,
          Registration(11, OrderFor(WANTED, FIRST, "x").config, ManifestFor(WANTED), None, Some(FIRST), "id"))
         == Ok((Registered(WANTED, map[], Row(ManifestFor(WANTED), FIRST, "x", "", map[])), 13))
  {
    hide DevelopmentRows, ConfigMembership, SaveClient;
    NoRows(t);
    var t1 := NewOAuthClient(t, "id");
    Member(t1);
    FirstSave(t1.(nextId := 14));
  }

  lemma FirstInstance(t: Tables)
    requires t == Registered(WANTED, map[], Row(ManifestFor(WANTED), FIRST, "x", "", map[]))
    ensures Rendering.FindInstance(t, WANTED[0], 0, Some(FIRST)) == Some(6)
  {
    assert Rendering.Eligible(t, "s", 0, Some(2)) == {6};
  }

  lemma FirstCompose(w: Crypto, t: Tables)
    requires t == Registered(WANTED, map[], Row(ManifestFor(WANTED), FIRST, "x", "", map[]))
    ensures Rendering.AutoCompose(w, t, 13, WANTED, 0, {}) == Ok(AfterFirst(w))
  {
    hide Rendering.FindInstance, Tokens.HashRequirements, Rendering.Remapped;
    FirstInstance(t);
    var s := Rendering.Scene(t, 0, Some(FIRST), {});
    assert WANTED[..0] == [] && Rendering.Compose(s, []) == Ok(Rendering.Composed(map[], map[]));
    assert Rendering.Compose(s, WANTED) == Ok(Rendering.Composed(map["k" := 6], map["k" := Status.Granted]));
    OnlyMapping(map["k" := 6]);
    var row := Row(ManifestFor(WANTED), FIRST, "x", HashOf(w), Granted(w));
    assert t.clients[13 := row] == map[13 := row];
    assert t.(mappings := map[(13, "k") := 6], clients := map[13 := row]) == AfterFirst(w);
  }

  lemma OnlyMapping(mapped: map<string, nat>)
    requires mapped == map["k" := 6]
    ensures Rendering.Remapped(map[], 13, mapped) == map[(13, "k") := 6]
  {
    var r := Rendering.Remapped(map[], 13, mapped);
    forall p ensures p in r <==> p == (13, "k") {
      assert p == (p.0, p.1);
    }
  }

  lemma Unscoped(t: Tables, c: nat)
    requires c in t.clients
    ensures AddScopes(t, c, {}) == t
  {
    assert t.clients[c].scopes + {} == t.clients[c].scopes;
    assert t.clients[c := t.clients[c]] == t.clients;
  }

  lemma FirstRegistration(w: Crypto)
    ensures CreateClient(w, Store(), OrderFor(WANTED, FIRST, "x")) == Ok((AfterFirst(w), 13))
  {
    hide Provision, CreateDevelopmentClient, Rendering.AutoCompose, AddScopes, HashOf;
    FirstProvision(w);
    var t := Store().(nextId := 12, apps := map[10 := App("app", None)], releases := map[11 := ReleaseFor(WANTED)]);
    FirstClient(t);
    FirstCompose(w, Registered(WANTED, map[], Row(ManifestFor(WANTED), FIRST, "x", "", map[])));
    Unscoped(AfterFirst(w), 13);
  }

  // ---- The second ----------------------------------------------------------------------------------------------

  lemma SecondProvision(w: Crypto)
    ensures Provision(w, AfterFirst(w), ManifestFor([]), 0, None)
            == Ok((AfterFirst(w).(releases := map[11 := ReleaseFor([])]), 11, None))
  {
    hide HashOf;
    var t := AfterFirst(w);
    assert AppRows(t, "app") == {10};
    assert ReleaseRows(t, 10, "1") == {11};
    assert t.releases[11 := ReleaseFor([])] == map[11 := ReleaseFor([])];
  }

  lemma SecondClient(w: Crypto, t: Tables)
    requires t == AfterFirst(w).(releases := map[11 := ReleaseFor([])])
    ensures CreateDevelopmentClient(t,
          Registration(11, OrderFor([], SECOND, "y").config, ManifestFor([]), None, Some(SECOND), "id"))
         == Ok((AfterSecond(w), 13))
  {
    hide HashOf, DevelopmentRows, ConfigMembership;
    OneRow(w, t);
    Member(t);
    var row := Row(ManifestFor([]), SECOND, "y", HashOf(w), Granted(w));
    assert t.clients[13 := row] == map[13 := row];
  }

  lemma SecondRegistration(w: Crypto)
    ensures CreateClient(w, AfterFirst(w), OrderFor([], SECOND, "y")) == Ok((AfterSecond(w), 13))
  {
    hide Provision, CreateDevelopmentClient, AddScopes, HashOf;
    SecondProvision(w);
    SecondClient(w, AfterFirst(w).(releases := map[11 := ReleaseFor([])]));
    Unscoped(AfterSecond(w), 13);
  }

  // ---- The deletion ----------------------------------------------------------------------------------------------

  lemma RunOf(w: Crypto)
    ensures Run(w, Store(), Registrations()) == AfterSecond(w)
  {
    hide CreateClient, AfterFirst, AfterSecond;
    FirstRegistration(w);
    SecondRegistration(w);
    var es := Registrations();
    var t1, t2 := Step(w, Store(), es[0]).0, Step(w, AfterFirst(w), es[1]).0;
    assert t1 == AfterFirst(w) && t2 == AfterSecond(w);
    assert es[1..][1..] == [] && es[1..][0] == es[1];
    assert Run(w, t2, []) == t2;
    assert Run(w, t1, es[1..]) == Run(w, t2, []);
  }

  lemma StartsSound()
    ensures SoundRegistry(Store()) && SoundVouchers(Store()) && StatusesAgree(Store())
    ensures UniqueMemberships(Store().memberships) && UniqueScopes(Store().scopes)
  {
  }

  lemma StartsReferring()
    ensures InstancesRefer(Store()) && ClientsRefer(Store()) && VouchersRefer(Store()) && CompositionsRefer(Store())
  {
  }

  lemma StartsAgreeing()
    ensures Sound(Store()) && StatusesAgree(Store()) && NoDangling(Store())
  {
    hide SoundRegistry, SoundVouchers, StatusesAgree, UniqueMemberships, UniqueScopes, InstancesRefer, ClientsRefer,
      VouchersRefer, CompositionsRefer, Store;
    StartsSound();
    StartsReferring();
  }

  lemma DistinctInput()
    ensures Traces.AllDistinct(Registrations()) && DistinctCodes(Store().codes)
  {
  }

  /** The client's only mapping goes with the first composition, the client stays with the second. */
  lemma MappingGoes(w: Crypto)
    ensures FIRST in AfterSecond(w).compositions
    ensures (13, "k") in AfterSecond(w).mappings
            && AfterSecond(w).mappings[(13, "k")] in GoneInstances(AfterSecond(w), FIRST)
    ensures 13 !in GoneClients(AfterSecond(w), FIRST)
  {
    hide HashOf;
  }

  /** Both registrations have distinct keys and start from a sound store in agreement, yet after the deletion of the
      composition the client has left, it still reports a grant that no mapping backs. */
  lemma StaleGrantIsReached(w: Crypto)
    ensures Sound(Store()) && StatusesAgree(Store()) && NoDangling(Store())
    ensures Traces.AllDistinct(Registrations()) && DistinctCodes(Store().codes)
    ensures FIRST in Run(w, Store(), Registrations()).compositions
    ensures !StatusesAgree(Delete(Run(w, Store(), Registrations()), FIRST))
  {
    hide Run, HashOf, StatusesAgree, Delete, Sound, NoDangling, Store, Registrations, AfterSecond, Extends,
      Traces.AllDistinct, DistinctCodes, GoneInstances, GoneClients;
    StartsAgreeing();
    DistinctInput();
    RunOf(w);
    Traces.RunKeeps(w, Store(), Registrations(), true);
    MappingsAreOwned(AfterSecond(w));
    MappingGoes(w);
    StaleAfter(AfterSecond(w), FIRST, (13, "k"));
  }

  lemma MappingsAreOwned(t: Tables)
    requires Sound(t)
    ensures MappingsOwned(t.mappings, t.clients.Keys)
  {
  }

  // ---- An OAuth2 client left behind -----------------------------------------------------------------------------

  lemma FirstRun(w: Crypto)
    ensures Run(w, Store(), Registrations()[..1]) == AfterFirst(w)
  {
    hide CreateClient, AfterFirst;
    FirstRegistration(w);
    var es := Registrations()[..1];
    assert es == [Registrations()[0]] && es[1..] == [];
    assert Step(w, Store(), es[0]).0 == AfterFirst(w);
    assert Run(w, AfterFirst(w), es[1..]) == AfterFirst(w);
  }

  /** The one client owns the one OAuth2 client, and goes with its composition. */
  lemma FirstOwns(w: Crypto)
    ensures Owned(AfterFirst(w)) && 13 in GoneClients(AfterFirst(w), FIRST)
    ensures OneOwner(AfterFirst(w).clients) && ClientsAuthorized(AfterFirst(w).clients, AfterFirst(w).oauthClients.Keys)
  {
    hide HashOf;
    assert AfterFirst(w).clients[13].oauthClient == 12;
  }

  /** A registration, and the deletion of the composition it was for, leave an OAuth2 client that nobody owns. */
  lemma StrayIsReached(w: Crypto)
    ensures Sound(Store()) && Owned(Run(w, Store(), Registrations()[..1]))
    ensures FIRST in Run(w, Store(), Registrations()[..1]).compositions
    ensures !Owned(Delete(Run(w, Store(), Registrations()[..1]), FIRST))
  {
    hide Run, HashOf, Delete, Sound, Owned, Registrations, GoneClients, OneOwner, ClientsAuthorized;
    StartsAgreeing();
    FirstRun(w);
    FirstOwns(w);
    StrayAfter(AfterFirst(w), FIRST, 13);
  }
}
