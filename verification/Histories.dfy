/** Whole histories: registrations, redeems and device codes between compositions that are created, offered
    by partners, rejected and deleted. */
module Histories {
  import opened Prelude
  import opened Rows
  import opened Clients
  import opened Compositions
  import opened CompositionLaws
  import opened CompositionTheorems
  import opened CompositionFrames
  import opened CompositionKeys
  import opened Cascade
  import opened Partners
  import opened Invariants
  import opened Lifecycle
  import opened References
  import Claims
  import DeviceCodes
  import Rendering
  import TokenTraces
  import Traces
  import Unambiguous

  datatype Happening =
    | Lived(event: Timed)
    | Applied(manifest: CompositionManifest, organization: nat)
    | Offered(partner: Partner, organization: nat, approves: bool)
    | Removed(composition: nat, user: nat)

  /** `delete_composition` is for the owner of the organization. */
  predicate MayDelete(t: Tables, c: nat, user: nat) {
    && c in t.compositions && t.compositions[c].organization in t.organizations
    && t.organizations[t.compositions[c].organization].owner == user
  }

  /** A call that raises changes nothing; nor does one for an organization or a composition
      that does not exist, or that is not allowed. */
  function Next(w: Crypto, t: Tables, h: Happening): Tables {
    match h
    case Lived(e) => Step(w, t, e).0
    case Applied(m, organization) => if organization in t.organizations then Grown(w, t, m, organization) else t
    case Offered(partner, organization, approves) =>
      if organization in t.organizations then FromPartner(w, t, partner, organization, approves).0 else t
    case Removed(c, user) => if MayDelete(t, c, user) then Delete(t, c) else t
  }

  function Grown(w: Crypto, t: Tables, m: CompositionManifest, organization: nat): Tables
    requires organization in t.organizations
  {
    match Apply(w, t, m, organization)
    case Ok((u, _)) => u
    case Err(_) => t
  }

  function History(w: Crypto, t: Tables, hs: seq<Happening>): Tables
    decreases |hs|
  {
    if hs == [] then t else History(w, Next(w, t, hs[0]), hs[1..])
  }

  /** What every happening keeps: uniqueness and ownership, primary keys drawn in order, and references that find
      their rows. */
  ghost predicate Whole(t: Tables) {
    Sound(t) && KeysDrawn(t) && UniqueKeys(t) && NoDangling(t)
  }

  lemma NoTablesWhole()
    ensures Whole(NoTables())
  {
    NoTablesSound();
    NoTablesRefer();
  }

  // ---- Applying a manifest -------------------------------------------------------------------------------------

  lemma ScopesByKey(t: Tables)
    requires UniqueKeys(t)
    ensures UniqueScopes(t.scopes)
  {
  }

  /** A manifest leaves the tables of the client lifecycle alone. */
  lemma SoundCarried(t: Tables, u: Tables)
    requires Sound(t) && OnlyCompositions(t, u) && t.nextId <= u.nextId && UniqueScopes(u.scopes)
    ensures Keeps(t, u, true)
  {
    hide UniqueTokens, UniqueCodes, UniqueMemberships, UniqueScopes, OneTokenPerClient, Drawn, OneApp, UniqueReleases,
      UniqueDevices, OneDevelopmentClient, OneOwner, MappingsOwned, ClientsAuthorized, TokensHold, CodesHold, Extends,
      StatusesAgree;
    AllDrawnLater(t, u.nextId);
    SameClients(t, u);
    SameAgreement(t, u);
  }

  /** What a manifest does to a whole store. */
  lemma ApplyKeepsWhole(w: Crypto, t: Tables, m: CompositionManifest, organization: nat)
    requires Whole(t) && organization in t.organizations && Apply(w, t, m, organization).Ok?
    ensures var u := Apply(w, t, m, organization).value.0; Whole(u) && Keeps(t, u, true) && (Within(t) ==> Within(u))
  {
    hide Sound, KeysDrawn, UniqueKeys, NoDangling, Apply, Kept, Extends, StatusesAgree, Within, Frame;
    var (u, c) := Apply(w, t, m, organization).value;
    AppliedRows(w, t, m, organization);
    ApplyClear(w, t, m, organization);
    ScopesByKey(u);
    SoundCarried(t, u);
    ApplyKeepsReferences(w, t, m, organization);
    ManifestFrame(w, t, m, organization);
    WithinCarried(PlaceOf(t, c, organization), t, u, Commands(m.instances));
  }

  lemma WithinCarried(p: Place, t: Tables, u: Tables, commands: seq<Command>)
    requires Frame(p, t, u, commands) && OnlyCompositions(t, u)
    ensures Within(t) ==> Within(u)
  {
    hide DeploysToken, AliasesFrame, GrantsFrame;
    if Within(t) {
      forall c: nat ensures WithinFor(u, c) {
        assert WithinFor(t, c);
      }
    }
  }

  // ---- Deleting a composition -----------------------------------------------------------------------------------

  lemma DeleteKeepsKeys(t: Tables, c: nat)
    requires KeysDrawn(t)
    ensures KeysDrawn(Delete(t, c))
  {
    hide GoneTokens, GoneMappings, GoneAliases, GoneUsedAliases, GonePermissions, GoneCodes, GoneServiceCodes,
      GoneCompositionCodes, GoneClients, MembershipsWithout, ClientsWithout, GoneGrants, GoneAuthKeys, GoneInstances;
  }

  lemma FewerRows<T, K>(before: map<nat, T>, after: map<nat, T>, key: T -> K)
    requires UniqueBy(before, key) && forall a :: a in after ==> a in before && key(after[a]) == key(before[a])
    ensures UniqueBy(after, key)
  {
  }

  lemma DeleteKeepsUniqueKeys(t: Tables, c: nat)
    requires UniqueKeys(t)
    ensures UniqueKeys(Delete(t, c))
  {
    hide GoneTokens, GoneMappings, GoneAliases, GoneUsedAliases, GonePermissions, GoneCodes, GoneServiceCodes,
      GoneCompositionCodes, GoneClients, MembershipsWithout, ClientsWithout, GoneGrants, GoneAuthKeys, GoneInstances,
      UniqueBy;
    var u := Delete(t, c);
    FewerRows(t.compositions, u.compositions, CompositionKey);
    FewerRows(t.instances, u.instances, InstanceKey);
    FewerRows(t.roles, u.roles, GrantKey);
    FewerRows(t.scopes, u.scopes, GrantKey);
    FewerRows(t.aliases, u.aliases, AliasKey);
  }

  /** Where mappings stay within their client's composition, a deletion takes no mapping from a client that stays. */
  lemma WithinSpares(t: Tables, c: nat)
    requires Within(t)
    ensures SparesMappings(t, c)
  {
    forall p | p in t.mappings && t.mappings[p] in GoneInstances(t, c) ensures p.0 in GoneClients(t, c) {
      assert WithinFor(t, p.0);
      assert (p.0, p.1) == p;
    }
  }

  lemma DeleteKeepsWithin(t: Tables, c: nat)
    requires Within(t)
    ensures Within(Delete(t, c))
  {
    hide GoneTokens, GoneAliases, GoneUsedAliases, GonePermissions, GoneCodes, GoneServiceCodes, GoneCompositionCodes,
      GoneAuthKeys, MembershipsWithout, CompositionsWithout, GrantsWithout, GoneGrants;
    var u := Delete(t, c);
    forall d: nat ensures WithinFor(u, d) {
      assert WithinFor(t, d);
    }
  }

  lemma DeleteKeepsWhole(t: Tables, c: nat)
    requires Whole(t)
    ensures Whole(Delete(t, c)) && (Within(t) ==> Within(Delete(t, c)))
    ensures StatusesAgree(t) ==> (StatusesAgree(Delete(t, c)) <==> SparesMappings(t, c))
    ensures Within(t) ==> SparesMappings(t, c)
  {
    hide Sound, KeysDrawn, UniqueKeys, NoDangling, Delete, StatusesAgree, SparesMappings, Within;
    DeleteKeepsSound(t, c);
    DeleteKeepsKeys(t, c);
    DeleteKeepsUniqueKeys(t, c);
    DeleteLeavesNoDangling(t, c);
    if StatusesAgree(t) {
      MappingsHaveOwners(t);
      DeleteAgreesExactly(t, c);
    }
    if Within(t) {
      DeleteKeepsWithin(t, c);
      WithinSpares(t, c);
    }
  }

  lemma MappingsHaveOwners(t: Tables)
    requires Sound(t)
    ensures MappingsOwned(t.mappings, t.clients.Keys) && OneOwner(t.clients)
            && ClientsAuthorized(t.clients, t.oauthClients.Keys)
  {
  }

  /** An OAuth2 client that nobody owns is never found an owner. */
  lemma StrayStays(t: Tables, u: Tables)
    requires Extends(t, u)
    ensures t.nextId <= u.nextId && (Owned(t) <==> Owned(u))
  {
    if Owned(t) {
      forall o | o in u.oauthClients ensures exists k :: k in u.clients && u.clients[k].oauthClient == o {
        if o in t.oauthClients {
          var k :| k in t.clients && t.clients[k].oauthClient == o;
          assert k in u.clients;
        }
      }
    } else {
      var o :| o in t.oauthClients && forall k :: k in t.clients ==> t.clients[k].oauthClient != o;
      assert forall k :: k in u.clients ==> u.clients[k].oauthClient != o;
      assert o in u.oauthClients;
    }
  }

  lemma DeletionOwns(t: Tables, c: nat)
    requires Whole(t)
    ensures Owned(Delete(t, c)) <==> Owned(t) && GoneClients(t, c) == {}
  {
    hide Sound, KeysDrawn, UniqueKeys, NoDangling, Owned, GoneClients, Delete;
    MappingsHaveOwners(t);
    if Owned(t) { DeleteOwnsExactly(t, c); } else { DeletedStrays(t, c); }
  }

  lemma DeletedStrays(t: Tables, c: nat)
    requires !Owned(t)
    ensures !Owned(Delete(t, c))
  {
    hide GoneTokens, GoneAliases, GoneUsedAliases, GonePermissions, GoneCodes, GoneServiceCodes, GoneCompositionCodes,
      GoneAuthKeys, GoneMappings, MembershipsWithout, CompositionsWithout, GrantsWithout, GoneGrants;
    var o :| o in t.oauthClients && forall k :: k in t.clients ==> t.clients[k].oauthClient != o;
    assert o in Delete(t, c).oauthClients && forall k :: k in Delete(t, c).clients ==>
           Delete(t, c).clients[k].oauthClient != o;
  }

  // ---- One happening ---------------------------------------------------------------------------------------------

  /** The deletion that a happening carries out: the store it finds, and the composition. */
  function DeletionIn(w: Crypto, t: Tables, h: Happening): Option<(Tables, nat)> {
    match h
    case Removed(c, user) => if MayDelete(t, c, user) then Some((t, c)) else None
    case Offered(partner, organization, approves) =>
      if organization in t.organizations && partner.composition.Some? && Rejects(partner, approves)
      then (match Apply(w, t, partner.composition.value, organization)
            case Ok((u, c)) => Some((u, c))
            case Err(_) => None)
      else None
    case _ => None
  }

  /** It takes no mapping from a client that stays. */
  ghost predicate Spared(w: Crypto, t: Tables, h: Happening) {
    var d := DeletionIn(w, t, h);
    d.Some? ==> SparesMappings(d.value.0, d.value.1)
  }

  /** It takes no client. */
  predicate NoClientGoes(w: Crypto, t: Tables, h: Happening) {
    var d := DeletionIn(w, t, h);
    d.Some? ==> GoneClients(d.value.0, d.value.1) == {}
  }

  /** The manifests a happening brings in list every key once. */
  predicate DistinctHappening(h: Happening) {
    h.Lived? ==> DistinctEvent(h.event)
  }

  predicate Lists(m: Manifest) { m.requirements != [] }

  /** The manifests a happening brings in list a requirement. */
  predicate ListingHappening(h: Happening) {
    h.Lived? ==>
      match h.event.event
      case Register(order) => Lists(order.manifest)
      case Redeeming(request) => Lists(request.manifest)
      case Start(staging, _, _) => Lists(staging.manifest)
      case _ => true
  }

  predicate ListingCodes(codes: map<nat, DeviceCode>) {
    forall k :: k in codes ==> Lists(codes[k].manifest)
  }

  lemma WrittenThenDeleted(w: Crypto, t: Tables, h: Happening)
    requires !h.Lived?
    ensures match DeletionIn(w, t, h)
            case Some((v, c)) => Next(w, t, h) == Delete(v, c)
            case None =>
              || Next(w, t, h) == t
              || exists m, o ::
                   o in t.organizations && Apply(w, t, m, o).Ok? && Next(w, t, h) == Apply(w, t, m, o).value.0
  {
    hide Apply, Delete;
  }

  /** The promise of one happening. */
  ghost predicate Goes(t: Tables, u: Tables, spared: bool, kept: bool, distinct: bool, listing: bool) {
    && Whole(u) && t.nextId <= u.nextId
    && (Owned(u) <==> Owned(t) && kept)
    && (distinct && StatusesAgree(t) ==> (StatusesAgree(u) <==> spared))
    && (listing && Within(t) ==> Within(u))
    && (Within(t) ==> spared)
  }

  lemma LivedGoes(w: Crypto, t: Tables, e: Timed, distinct: bool)
    requires Whole(t) && (distinct ==> DistinctEvent(e) && DistinctCodes(t.codes))
    ensures Goes(t, Step(w, t, e).0, true, true, distinct, ListsSomething(t, e))
  {
    hide Sound, KeysDrawn, UniqueKeys, NoDangling, Step, StatusesAgree, Within, Extends, DistinctEvent, DistinctCodes,
      ListsSomething, Owned;
    var u := Step(w, t, e).0;
    StepKeeps(w, t, e, distinct);
    StepKeepsReferences(w, t, e);
    StepOnly(w, t, e);
    KeysStayDrawn(t, u);
    StrayStays(t, u);
  }

  lemma KeysStayDrawn(t: Tables, u: Tables)
    requires KeysDrawn(t) && UniqueKeys(t) && LifecycleOnly(t, u)
    ensures KeysDrawn(u) && UniqueKeys(u)
  {
  }

  lemma WrittenGoes(w: Crypto, t: Tables, m: CompositionManifest, organization: nat)
    requires Whole(t) && organization in t.organizations && Apply(w, t, m, organization).Ok?
    ensures Goes(t, Apply(w, t, m, organization).value.0, true, true, true, true)
  {
    hide Whole, Sound, Apply, StatusesAgree, Within, Extends, Owned;
    ApplyKeepsWhole(w, t, m, organization);
    StrayStays(t, Apply(w, t, m, organization).value.0);
  }

  lemma DeletedGoes(t: Tables, v: Tables, c: nat)
    requires Whole(t) && Goes(t, v, true, true, true, true)
    ensures Goes(t, Delete(v, c), SparesMappings(v, c), GoneClients(v, c) == {}, true, true)
  {
    hide Whole, Delete, SparesMappings, StatusesAgree, Within, Owned, GoneClients;
    DeleteKeepsWhole(v, c);
    DeletionOwns(v, c);
    SequenceStays(v, c);
  }

  lemma SequenceStays(t: Tables, c: nat)
    ensures Delete(t, c).nextId == t.nextId
  {
    hide GoneInstances, GoneClients, GoneTokens, GoneMappings, GoneAliases, GoneUsedAliases, GonePermissions,
      GoneGrants, GoneCodes, GoneServiceCodes, GoneCompositionCodes, GoneAuthKeys, GrantsWithout, ClientsWithout,
      MembershipsWithout, CompositionsWithout;
  }

  lemma NothingGoes(t: Tables)
    requires Whole(t)
    ensures Goes(t, t, true, true, true, true)
  {
  }

  lemma WroteFirst(w: Crypto, t: Tables, h: Happening)
    requires Whole(t) && h.Offered? && DeletionIn(w, t, h).Some?
    ensures Goes(t, DeletionIn(w, t, h).value.0, true, true, true, true)
  {
    hide Whole, Apply, Goes;
    WrittenGoes(w, t, h.partner.composition.value, h.organization);
  }

  lemma WrittenOrNothingGoes(w: Crypto, t: Tables, h: Happening)
    requires Whole(t) && !h.Lived? && DeletionIn(w, t, h).None?
    ensures Goes(t, Next(w, t, h), true, true, true, true)
  {
    hide Whole, Apply, Goes, Next, DeletionIn;
    WrittenThenDeleted(w, t, h);
    NothingGoes(t);
    if Next(w, t, h) != t {
      var m, o :| o in t.organizations && Apply(w, t, m, o).Ok? && Next(w, t, h) == Apply(w, t, m, o).value.0;
      WrittenGoes(w, t, m, o);
    }
  }

  lemma ComposedGoes(w: Crypto, t: Tables, h: Happening)
    requires Whole(t) && !h.Lived?
    ensures Goes(t, Next(w, t, h), Spared(w, t, h), NoClientGoes(w, t, h), true, true)
  {
    hide Whole, Apply, Goes, Next, DeletionIn, Delete, SparesMappings, GoneClients;
    if DeletionIn(w, t, h).Some? {
      WrittenThenDeleted(w, t, h);
      var (v, c) := DeletionIn(w, t, h).value;
      DeletionGoes(w, t, h);
      DeletedGoes(t, v, c);
    } else {
      WrittenOrNothingGoes(w, t, h);
    }
  }

  lemma DeletionGoes(w: Crypto, t: Tables, h: Happening)
    requires Whole(t) && DeletionIn(w, t, h).Some?
    ensures Goes(t, DeletionIn(w, t, h).value.0, true, true, true, true)
  {
    hide Whole, Goes, Apply, Rejects;
    if h.Removed? { NothingGoes(t); } else { WroteFirst(w, t, h); }
  }

  lemma NothingSpared(w: Crypto, t: Tables, e: Timed)
    ensures Spared(w, t, Lived(e)) && NoClientGoes(w, t, Lived(e)) && Next(w, t, Lived(e)) == Step(w, t, e).0
  {
  }

  lemma ListingLists(t: Tables, h: Happening)
    requires h.Lived? && ListingHappening(h) && ListingCodes(t.codes)
    ensures ListsSomething(t, h.event)
  {
  }

  /** Every happening keeps the store whole; statuses and mappings agree after it exactly when it takes no mapping
      from a client that stays. */
  lemma HappeningGoes(w: Crypto, t: Tables, h: Happening, distinct: bool)
    requires Whole(t) && (distinct ==> DistinctHappening(h) && DistinctCodes(t.codes))
    ensures Goes(t, Next(w, t, h), Spared(w, t, h), NoClientGoes(w, t, h), distinct,
                 ListingHappening(h) && ListingCodes(t.codes))
  {
    hide Whole, Next, Spared, NoClientGoes, StatusesAgree, Within, Owned, ListingHappening, ListingCodes,
      DistinctEvent, DistinctCodes, ListsSomething;
    if h.Lived? {
      NothingSpared(w, t, h.event);
      LivedGoes(w, t, h.event, distinct);
      if ListingHappening(h) && ListingCodes(t.codes) { ListingLists(t, h); }
    } else {
      ComposedGoes(w, t, h);
    }
  }

  // ---- The device codes along the way -----------------------------------------------------------------------------

  /** Codes that a happening did not bring in were there before, with the same manifest. */
  ghost predicate CodesFrom(before: map<nat, DeviceCode>, after: map<nat, DeviceCode>, h: Happening) {
    forall k :: k in after ==>
      || (k in before && after[k].manifest == before[k].manifest)
      || (h.Lived? && h.event.event.Start? && after[k].manifest == h.event.event.staging.manifest)
  }

  lemma NextCodes(w: Crypto, t: Tables, h: Happening)
    requires Whole(t)
    ensures CodesFrom(t.codes, Next(w, t, h).codes, h)
  {
    hide Sound, Apply, Step, GoneCodes, Drawn, KeysDrawn, NoDangling;
    if h.Lived? {
      Traces.CodesDrawn(t);
      Traces.StepEvolvesCodes(w, t, h.event);
    } else {
      ComposedCodes(w, t, h);
    }
  }

  ghost predicate LosesVouchers(t: Tables, u: Tables) {
    && (forall k :: k in u.codes ==> k in t.codes && u.codes[k] == t.codes[k])
    && (forall r :: r in u.tokens ==> r in t.tokens && u.tokens[r] == t.tokens[r])
  }

  lemma DeletedVouchers(t: Tables, v: Tables, c: nat)
    requires v.codes == t.codes && v.tokens == t.tokens
    ensures LosesVouchers(t, Delete(v, c))
  {
    hide GoneInstances, GoneClients, GoneTokens, GoneMappings, GoneAliases, GoneUsedAliases, GonePermissions,
      GoneGrants, GoneCodes, GoneServiceCodes, GoneCompositionCodes, GoneAuthKeys, GrantsWithout, ClientsWithout,
      MembershipsWithout, CompositionsWithout;
  }

  lemma FoundVouchers(w: Crypto, t: Tables, h: Happening)
    requires DeletionIn(w, t, h).Some?
    ensures var v := DeletionIn(w, t, h).value.0; v.codes == t.codes && v.tokens == t.tokens
  {
    hide Apply, Rejects;
  }

  /** Compositions bring in no code and no token, and change none; they only take some away. */
  lemma ComposedCodes(w: Crypto, t: Tables, h: Happening)
    requires !h.Lived?
    ensures LosesVouchers(t, Next(w, t, h))
  {
    hide Next, DeletionIn, Delete, Apply;
    WrittenThenDeleted(w, t, h);
    if DeletionIn(w, t, h).Some? {
      var (v, c) := DeletionIn(w, t, h).value;
      FoundVouchers(w, t, h);
      DeletedVouchers(t, v, c);
    }
  }

  lemma CodesStay(before: map<nat, DeviceCode>, after: map<nat, DeviceCode>, h: Happening)
    requires CodesFrom(before, after, h)
    ensures DistinctHappening(h) && DistinctCodes(before) ==> DistinctCodes(after)
    ensures ListingHappening(h) && ListingCodes(before) ==> ListingCodes(after)
  {
    hide Rendering.DistinctKeys, Lists;
  }

  // ---- Whole histories --------------------------------------------------------------------------------------------

  predicate AllDistinct(hs: seq<Happening>) {
    forall k :: 0 <= k < |hs| ==> DistinctHappening(hs[k])
  }

  predicate AllListing(hs: seq<Happening>) {
    forall k :: 0 <= k < |hs| ==> ListingHappening(hs[k])
  }

  /** Every store a history passes through agrees. */
  ghost predicate AgreesThroughout(w: Crypto, t: Tables, hs: seq<Happening>)
    decreases |hs|
  {
    StatusesAgree(t) && (hs != [] ==> AgreesThroughout(w, Next(w, t, hs[0]), hs[1..]))
  }

  /** Every deletion on the way spares the mappings of the clients that stay. */
  ghost predicate SparedThroughout(w: Crypto, t: Tables, hs: seq<Happening>)
    decreases |hs|
  {
    hs != [] ==> Spared(w, t, hs[0]) && SparedThroughout(w, Next(w, t, hs[0]), hs[1..])
  }

  /** No history makes a reference dangle, breaks a uniqueness or an ownership, or draws a primary key twice. */
  lemma {:induction false} HistoryKeepsWhole(w: Crypto, t: Tables, hs: seq<Happening>)
    requires Whole(t)
    ensures Whole(History(w, t, hs))
    decreases |hs|
  {
    hide Whole, Next, Spared, NoClientGoes, Owned, StatusesAgree, Within;
    if hs != [] {
      HappeningGoes(w, t, hs[0], false);
      HistoryKeepsWhole(w, Next(w, t, hs[0]), hs[1..]);
    }
  }

  /** Statuses and mappings agree in every store of a history exactly when no deletion on the way takes a mapping
      from a client that stays. */
  lemma {:induction false} AgreesExactly(w: Crypto, t: Tables, hs: seq<Happening>)
    requires Whole(t) && StatusesAgree(t) && AllDistinct(hs) && DistinctCodes(t.codes)
    ensures AgreesThroughout(w, t, hs) <==> SparedThroughout(w, t, hs)
    ensures SparedThroughout(w, t, hs) ==> StatusesAgree(History(w, t, hs))
    decreases |hs|
  {
    hide Whole, Next, Spared, NoClientGoes, Owned, StatusesAgree, Within, DistinctHappening, DistinctCodes, CodesFrom;
    if hs != [] {
      var u := Next(w, t, hs[0]);
      HappeningGoes(w, t, hs[0], true);
      NextCodes(w, t, hs[0]);
      CodesStay(t.codes, u.codes, hs[0]);
      if StatusesAgree(u) { AgreesExactly(w, u, hs[1..]); } else { NoAgreement(w, u, hs[1..]); }
    }
  }

  lemma NoAgreement(w: Crypto, t: Tables, hs: seq<Happening>)
    requires !StatusesAgree(t)
    ensures !AgreesThroughout(w, t, hs)
  {
  }

  /** Where every manifest lists a requirement, whatever is deleted on the way, no mapping is taken from a client that
      stays. */
  lemma {:induction false} ListingSpares(w: Crypto, t: Tables, hs: seq<Happening>)
    requires Whole(t) && Within(t) && AllListing(hs) && ListingCodes(t.codes)
    ensures SparedThroughout(w, t, hs) && Within(History(w, t, hs))
    decreases |hs|
  {
    hide Whole, Next, Spared, NoClientGoes, Owned, StatusesAgree, Within, ListingHappening, ListingCodes, CodesFrom;
    if hs != [] {
      HappeningGoes(w, t, hs[0], false);
      NextCodes(w, t, hs[0]);
      CodesStay(t.codes, Next(w, t, hs[0]).codes, hs[0]);
      ListingSpares(w, Next(w, t, hs[0]), hs[1..]);
    }
  }

  // ---- What every history guarantees ------------------------------------------------------------------------------

  /** At most one development client per release, user, organization and node, a missing node included. */
  lemma OneClientPerNode(w: Crypto, t: Tables, hs: seq<Happening>, release: nat, user: nat, organization: nat,
                         node: Option<nat>)
    requires Whole(t)
    ensures var rows := DevelopmentRows(History(w, t, hs), release, user, organization, node);
            forall a, b | a in rows && b in rows :: a == b
  {
    hide History, Whole;
    HistoryKeepsWhole(w, t, hs);
    WholeRegistry(History(w, t, hs));
  }

  lemma WholeRegistry(t: Tables)
    requires Whole(t)
    ensures OneDevelopmentClient(t.clients) && OneTokenPerClient(t.tokens)
  {
    hide KeysDrawn, UniqueKeys, NoDangling, OneDevelopmentClient, OneTokenPerClient;
  }

  /** No two redeem tokens hold the same client. */
  lemma {:induction false} TokensStayInjective(w: Crypto, t: Tables, hs: seq<Happening>, a: nat, b: nat)
    requires Whole(t)
    ensures var u := History(w, t, hs);
            a in u.tokens && b in u.tokens && u.tokens[a].client.Some? && u.tokens[a].client == u.tokens[b].client ==>
              a == b
  {
    hide History, Whole;
    HistoryKeepsWhole(w, t, hs);
    WholeRegistry(History(w, t, hs));
  }

  /** No look-up of a whole store meets two rows: no call of the client lifecycle, no manifest and no partner is
      refused for that. */
  lemma NeverAmbiguous(w: Crypto, t: Tables, h: Happening)
    requires Whole(t)
    ensures match h
            case Lived(e) => Step(w, t, e).1 != Refused(Ambiguous) && Step(w, t, e).1 != Answered(Failed(Ambiguous))
            case Applied(m, o) => o in t.organizations ==> Apply(w, t, m, o) != Err(Ambiguous)
            case Offered(partner, o, approves) => o in t.organizations ==>
              FromPartner(w, t, partner, o, approves).1 != Err(Ambiguous)
            case Removed(_, _) => true
  {
    hide Sound, KeysDrawn, UniqueKeys, NoDangling, Step, Apply, Delete;
    match h
    case Lived(e) => Unambiguous.NeverAmbiguous(w, t, e);
    case Applied(m, o) => if o in t.organizations { ApplyClear(w, t, m, o); }
    case Offered(partner, o, approves) =>
      if o in t.organizations && partner.composition.Some? { ApplyClear(w, t, partner.composition.value, o); }
    case Removed(_, _) =>
  }

  /** What a client is told agrees with what it is told about: where every deletion on the way spares the mappings of
      the clients that stay, the keys a claim lists instances for are the keys it reports as granted. */
  lemma {:induction false} ClaimListsGrantedKeys(w: Crypto, t: Tables, hs: seq<Happening>, c: nat, l: Claims.Linking,
                                                 claim: Claims.Claim)
    requires Whole(t) && StatusesAgree(t) && AllDistinct(hs) && DistinctCodes(t.codes) && SparedThroughout(w, t, hs)
    requires c in History(w, t, hs).clients && Claims.ClaimOf(History(w, t, hs), c, l, claim)
    ensures claim.instances.Keys == set k | k in claim.statuses && claim.statuses[k] == Status.Granted
  {
    hide History, Whole, AllDistinct, DistinctCodes, SparedThroughout, Claims.Renderable, Claims.UrlsOf;
    AgreesExactly(w, t, hs);
  }

  /** In particular where every manifest lists its requirements, each key once: then nothing that is deleted can break
      the agreement. */
  lemma {:induction false} ListingClaimsAgree(w: Crypto, t: Tables, hs: seq<Happening>, c: nat, l: Claims.Linking,
                                              claim: Claims.Claim)
    requires Whole(t) && StatusesAgree(t) && AllDistinct(hs) && DistinctCodes(t.codes)
    requires Within(t) && AllListing(hs) && ListingCodes(t.codes)
    requires c in History(w, t, hs).clients && Claims.ClaimOf(History(w, t, hs), c, l, claim)
    ensures claim.instances.Keys == set k | k in claim.statuses && claim.statuses[k] == Status.Granted
  {
    hide History, Whole, AllDistinct, AllListing, DistinctCodes, SparedThroughout, StatusesAgree, Within, ListingCodes,
      Claims.ClaimOf;
    ListingSpares(w, t, hs);
    ClaimListsGrantedKeys(w, t, hs, c, l, claim);
  }

  // ---- OAuth2 clients left behind ---------------------------------------------------------------------------------

  ghost predicate NoClientGoesThroughout(w: Crypto, t: Tables, hs: seq<Happening>)
    decreases |hs|
  {
    hs != [] ==> NoClientGoes(w, t, hs[0]) && NoClientGoesThroughout(w, Next(w, t, hs[0]), hs[1..])
  }

  /** All OAuth2 clients have an owner at the end of a history exactly when they had one at its start and no
      deletion on the way took a client. */
  lemma {:induction false} OwnsExactly(w: Crypto, t: Tables, hs: seq<Happening>)
    requires Whole(t)
    ensures Owned(History(w, t, hs)) <==> Owned(t) && NoClientGoesThroughout(w, t, hs)
    decreases |hs|
  {
    hide Whole, Next, Spared, NoClientGoes, Owned, StatusesAgree, Within;
    if hs != [] {
      HappeningGoes(w, t, hs[0], false);
      OwnsExactly(w, Next(w, t, hs[0]), hs[1..]);
    }
  }

  // ---- Auto-configuration as a history ----------------------------------------------------------------------------

  /** The offers of the considered partners. */
  function Offers(lower: string -> string, owner: Owner, organization: nat,
                  candidates: seq<Candidate>): seq<Happening> {
    if candidates == [] then []
    else
      var k := candidates[|candidates| - 1];
      Offers(lower, owner, organization, candidates[..|candidates| - 1])
      + (if Considered(lower, owner, k) then [Offered(k.partner, organization, k.approves)] else [])
  }

  lemma {:induction false} HistoryOn(w: Crypto, t: Tables, hs: seq<Happening>, more: seq<Happening>)
    ensures History(w, t, hs + more) == History(w, History(w, t, hs), more)
    decreases |hs|
  {
    hide Next;
    if hs == [] {
      assert hs + more == more;
    } else {
      assert (hs + more)[1..] == hs[1..] + more;
      HistoryOn(w, Next(w, t, hs[0]), hs[1..], more);
    }
  }

  lemma OneOffer(w: Crypto, t: Tables, partner: Partner, organization: nat, approves: bool)
    requires organization in t.organizations
    ensures History(w, t, [Offered(partner, organization, approves)])
            == FromPartner(w, t, partner, organization, approves).0
  {
    hide FromPartner;
    var hs := [Offered(partner, organization, approves)];
    assert hs[1..] == [];
  }

  /** Auto-configuration is the history of the offers up to the one that ended it, so it keeps what histories keep. */
  lemma {:induction false} AutoConfigureIsHistory(w: Crypto, lower: string -> string, t: Tables, organization: nat,
                                                  owner: Owner, candidates: seq<Candidate>) returns (n: nat)
    requires organization in t.organizations
    ensures n <= |candidates|
    ensures AutoConfigure(w, lower, t, organization, owner, candidates).0
            == History(w, t, Offers(lower, owner, organization, candidates[..n]))
    ensures AutoConfigure(w, lower, t, organization, owner, candidates).1.Ok? ==> n == |candidates|
  {
    hide Next, FromPartner, Considered;
    if candidates == [] {
      n := 0;
    } else {
      var last := |candidates| - 1;
      var before, k := candidates[..last], candidates[last];
      n := AutoConfigureIsHistory(w, lower, t, organization, owner, before);
      var (u, r) := AutoConfigure(w, lower, t, organization, owner, before);
      assert before[..n] == candidates[..n];
      if r.Ok? {
        n := |candidates|;
        assert candidates[..n] == candidates && before[..last] == before;
        if Considered(lower, owner, k) {
          HistoryOn(w, t, Offers(lower, owner, organization, before), [Offered(k.partner, organization, k.approves)]);
          OneOffer(w, u, k.partner, organization, k.approves);
        } else {
          assert Offers(lower, owner, organization, before) + [] == Offers(lower, owner, organization, before);
        }
      }
    }
  }

  // ---- Redeem tokens and device codes over histories --------------------------------------------------------------

  function Grants(w: Crypto, t: Tables, hs: seq<Happening>, r: nat): seq<TokenTraces.Award>
    decreases |hs|
  {
    if hs == [] then []
    else
      var g := if hs[0].Lived? then TokenTraces.GrantOf(w, t, hs[0].event, r) else None;
      (if g.Some? then [g.value] else []) + Grants(w, Next(w, t, hs[0]), hs[1..], r)
  }

  /** How a happening treats one token row. */
  lemma NextToken(w: Crypto, t: Tables, h: Happening, r: nat)
    requires Whole(t)
    ensures var u := Next(w, t, h);
            && Whole(u) && t.nextId <= u.nextId
            && (h.Lived? ==>
                  TokenTraces.RowEvolves(t.tokens, u.tokens, t.nextId, TokenTraces.GrantOf(w, t, h.event, r),
                                         h.event.now, r))
            && (!h.Lived? ==> (r in u.tokens ==> r in t.tokens && u.tokens[r] == t.tokens[r]))
  {
    hide Sound, KeysDrawn, UniqueKeys, NoDangling, Next, Step, TokenTraces.RowEvolves, TokenTraces.GrantOf, Spared,
      NoClientGoes, Owned, StatusesAgree, Within, ListingHappening, ListingCodes;
    HappeningGoes(w, t, h, false);
    if h.Lived? {
      TokenTraces.TokensDrawn(t);
      TokenTraces.StepEvolvesToken(w, t, h.event, r);
      NothingSpared(w, t, h.event);
    } else {
      ComposedCodes(w, t, h);
    }
  }

  lemma {:induction false} GoneForGood(w: Crypto, t: Tables, hs: seq<Happening>, r: nat)
    requires Whole(t) && r !in t.tokens && r < t.nextId
    ensures Grants(w, t, hs, r) == [] && r !in History(w, t, hs).tokens
    decreases |hs|
  {
    hide Whole, Next, TokenTraces.GrantOf;
    if hs != [] {
      NextToken(w, t, hs[0], r);
      GoneForGood(w, Next(w, t, hs[0]), hs[1..], r);
    }
  }

  /** Without `allow_reredeem` every grant of a token names one client and one digest, whatever is created and deleted
      in between. */
  lemma {:induction false} OneGrant(w: Crypto, t: Tables, hs: seq<Happening>, r: nat)
    requires Whole(t) && r in t.tokens && !t.tokens[r].allowReredeem
    ensures TokenTraces.Uniform(Grants(w, t, hs, r), t.tokens[r].client, t.tokens[r].manifestHash)
    decreases |hs|
  {
    hide Whole, Next, TokenTraces.GrantOf;
    if hs == [] {
      assert Grants(w, t, hs, r) == [];
    } else {
      var u := Next(w, t, hs[0]);
      NextToken(w, t, hs[0], r);
      var g, rest := if hs[0].Lived? then TokenTraces.GrantOf(w, t, hs[0].event, r) else None, Grants(w, u, hs[1..], r);
      assert Grants(w, t, hs, r) == if g.Some? then [g.value] + rest else rest;
      if r in u.tokens {
        OneGrant(w, u, hs[1..], r);
        if g.Some? { TokenTraces.UniformCons(g.value, rest); }
      } else {
        RowBelow(t, r);
        GoneForGood(w, u, hs[1..], r);
      }
    }
  }

  /** A token that has a digest exactly when it has a client stays so, whatever tokens of other kinds there are. */
  lemma {:induction false} HashWithClient(w: Crypto, t: Tables, hs: seq<Happening>, r: nat)
    requires Whole(t) && TokenTraces.HashTracksClient(t.tokens, r)
    ensures TokenTraces.HashTracksClient(History(w, t, hs).tokens, r)
    decreases |hs|
  {
    hide Whole, Next, TokenTraces.GrantOf;
    if hs != [] {
      NextToken(w, t, hs[0], r);
      HashWithClient(w, Next(w, t, hs[0]), hs[1..], r);
    }
  }

  lemma RowBelow(t: Tables, r: nat)
    requires Whole(t) && r in t.tokens
    ensures r < t.nextId
  {
    hide KeysDrawn, UniqueKeys, NoDangling, SoundRegistry;
  }

  /** The answers to polls of one code. */
  function Polls(w: Crypto, t: Tables, hs: seq<Happening>, code: string): seq<DeviceCodes.Poll>
    decreases |hs|
  {
    if hs == [] then []
    else
      (if hs[0].Lived? then Traces.Polls(w, t, [hs[0].event], code) else [])
          + Polls(w, Next(w, t, hs[0]), hs[1..], code)
  }

  function LivedEvents(hs: seq<Happening>): seq<Timed> {
    if hs == [] then []
    else (if hs[0].Lived? then [hs[0].event] else []) + LivedEvents(hs[1..])
  }

  /** A deletion may take a code away, and with it any further answer. */
  lemma ComposedStage(w: Crypto, t: Tables, h: Happening, code: string, now: int)
    requires Whole(t) && !h.Lived?
    ensures Whole(Next(w, t, h)) && Traces.Stage(t, code, now) <= Traces.Stage(Next(w, t, h), code, now)
  {
    hide Whole, Next, Traces.Stage, Spared, NoClientGoes, Owned, StatusesAgree, Within, ListingHappening, ListingCodes;
    var u := Next(w, t, h);
    HappeningGoes(w, t, h, false);
    ComposedCodes(w, t, h);
    WholeCodes(t);
    WholeCodes(u);
    if k :| k in u.codes && u.codes[k].code == code {
      Traces.StageOf(u, code, k, now);
      Traces.StageOf(t, code, k, now);
    } else {
      Traces.NoStage(u, code, now);
      Traces.StageAtMost(t, code, now);
    }
  }

  lemma WholeCodes(t: Tables)
    requires Whole(t)
    ensures Sound(t) && UniqueCodes(t.codes)
  {
    hide KeysDrawn, UniqueKeys, NoDangling, SoundRegistry;
  }

  /** The answers to polls of one code form `pending* granted* (expired|denied)? error*`, whatever is created
      and deleted in between. */
  lemma {:induction false} PollsInOrder(w: Crypto, t: Tables, hs: seq<Happening>, code: string, now: int)
    requires Whole(t) && Traces.Clocked(LivedEvents(hs), now) && Traces.NotDrawn(LivedEvents(hs), code)
    ensures Traces.InOrder(Polls(w, t, hs, code))
    ensures forall i :: 0 <= i < |Polls(w, t, hs, code)| ==>
              Traces.Stage(t, code, now) <= Traces.Rank(Polls(w, t, hs, code)[i])
    decreases |hs|
  {
    hide Whole, Next, Traces.Stage, Traces.Polls;
    if hs != [] {
      var u := Next(w, t, hs[0]);
      if hs[0].Lived? {
        var e := hs[0].event;
        LaterClocked(e, LivedEvents(hs[1..]), code, now);
        LivedPoll(w, t, e, code, now);
        PollsInOrder(w, u, hs[1..], code, e.now);
      } else {
        ComposedStage(w, t, hs[0], code, now);
        assert LivedEvents(hs) == LivedEvents(hs[1..]);
        PollsInOrder(w, u, hs[1..], code, now);
      }
    }
  }

  lemma LaterClocked(e: Timed, rest: seq<Timed>, code: string, now: int)
    requires Traces.Clocked([e] + rest, now) && Traces.NotDrawn([e] + rest, code)
    ensures now <= e.now && Traces.Clocked(rest, e.now) && Traces.NotDrawn(rest, code)
            && !(e.event.Start? && e.event.code == code)
  {
    var es := [e] + rest;
    assert es[0] == e && forall i :: 0 <= i < |rest| ==> rest[i] == es[i + 1];
  }

  /** One event and the poll it may be. */
  lemma LivedPoll(w: Crypto, t: Tables, e: Timed, code: string, now: int)
    requires Whole(t) && now <= e.now && !(e.event.Start? && e.event.code == code)
    ensures var u, polls := Next(w, t, Lived(e)), Traces.Polls(w, t, [e], code);
            && Whole(u) && Traces.Stage(t, code, now) <= Traces.Stage(u, code, e.now) && |polls| <= 1
            && (polls != [] ==>
                  && Traces.Stage(t, code, now) <= Traces.Rank(polls[0]) <= Traces.Stage(u, code, e.now)
                  && (Traces.Rank(polls[0]) == 2 ==> Traces.Stage(u, code, e.now) == 3))
  {
    hide Whole, Next, Step, Traces.Stage, Spared, NoClientGoes, Owned, StatusesAgree, Within, ListingHappening,
      ListingCodes;
    WholeCodes(t);
    HappeningGoes(w, t, Lived(e), false);
    NothingSpared(w, t, e);
    Traces.StageGrows(t, code, now, e.now);
    Traces.StageNeverFalls(w, t, e, code, e.now);
    Traces.PollStep(w, t, e, code);
    assert [e][1..] == [];
  }
}
